/** Names not in use: a finite set of numbers or of words leaves one over. */
module FreshNames {

  lemma {:induction false} Unused(ids: set<nat>) returns (id: nat)
    ensures id !in ids
  {
    if ids == {} {
      id := 0;
    } else {
      var top := Largest(ids);
      id := top + 1;
    }
  }

  lemma {:induction false} Largest(ids: set<nat>) returns (top: nat)
    requires ids != {}
    ensures top in ids && forall id | id in ids :: id <= top
  {
    var x :| x in ids;
    if ids == {x} {
      top := x;
    } else {
      var rest := Largest(ids - {x});
      assert ids == (ids - {x}) + {x};
      top := if rest < x then x else rest;
    }
  }

  lemma UnusedWord(words: set<string>) returns (word: string)
    ensures word !in words
  {
    var lengths := set w | w in words :: |w|;
    var n := Unused(lengths);
    word := seq(n, _ => 'a');
    assert word in words ==> |word| in lengths;
  }
}
