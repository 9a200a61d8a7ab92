/** Searching for a caller's text with LIKE and ESCAPE '\': the escaping makes the pattern
    mean plain containment. */
module LikeEscape {

  function EscapeChar(c: char): string {
    if c == '\\' then "\\\\" else if c == '%' then "\\%" else if c == '_' then "\\_" else [c]
  }

  function EscapeLike(s: string): string {
    if s == "" then "" else EscapeChar(s[0]) + EscapeLike(s[1..])
  }

  /** LIKE with escape character '\' (section 8.5 of ISO/IEC 9075:1992): % is any run of
      characters, _ any one, an escaped character itself. fold is how the engine compares
      characters: the identity, or a case folding as ILIKE and SQLite's LIKE use. */
  predicate Like(p: string, t: string, fold: char -> char)
    decreases |p|, |t|
  {
    if p == "" then t == ""
    else if p[0] == '\\' then |p| >= 2 && t != "" && fold(p[1]) == fold(t[0]) && Like(p[2..], t[1..], fold)
    else if p[0] == '%' then Like(p[1..], t, fold) || (t != "" && Like(p, t[1..], fold))
    else if p[0] == '_' then t != "" && Like(p[1..], t[1..], fold)
    else t != "" && fold(p[0]) == fold(t[0]) && Like(p[1..], t[1..], fold)
  }

  predicate Same(s: string, t: string, fold: char -> char) {
    |s| == |t| && forall i | 0 <= i < |s| :: fold(s[i]) == fold(t[i])
  }

  /** s stands in t at position i. */
  predicate OccursAt(s: string, t: string, i: nat, fold: char -> char) {
    i + |s| <= |t| && Same(s, t[i..i + |s|], fold)
  }

  ghost predicate Contains(t: string, s: string, fold: char -> char) {
    exists i: nat :: OccursAt(s, t, i, fold)
  }

  /** Escaped text at the head of a pattern matches exactly that text. */
  lemma {:induction false} EscapedHead(s: string, rest: string, t: string, fold: char -> char)
    ensures Like(EscapeLike(s) + rest, t, fold) <==>
            |s| <= |t| && Same(s, t[..|s|], fold) && Like(rest, t[|s|..], fold)
  {
    if s == "" {
      assert EscapeLike(s) + rest == rest && t[0..] == t;
    } else {
      var p := EscapeLike(s) + rest;
      var tail := EscapeLike(s[1..]) + rest;
      assert p == EscapeChar(s[0]) + tail;
      assert p[|EscapeChar(s[0])|..] == tail;
      if t != "" {
        EscapedHead(s[1..], rest, t[1..], fold);
        assert |s| <= |t| ==> t[1..][|s| - 1..] == t[|s|..];
        HeadSame(s, t, fold);
      }
    }
  }

  lemma HeadSame(s: string, t: string, fold: char -> char)
    requires s != "" && t != ""
    ensures |s| <= |t| ==>
              (Same(s, t[..|s|], fold) <==> fold(s[0]) == fold(t[0]) && Same(s[1..], t[1..][..|s| - 1], fold))
  {
    if |s| <= |t| {
      var a, b := t[..|s|], t[1..][..|s| - 1];
      assert forall i | 0 <= i < |s| - 1 :: s[1..][i] == s[i + 1] && b[i] == a[i + 1];
      if fold(s[0]) == fold(t[0]) && Same(s[1..], b, fold) {
        forall i | 0 <= i < |s|
          ensures fold(s[i]) == fold(a[i])
        {
          if i > 0 { assert fold(s[1..][i - 1]) == fold(b[i - 1]); }
        }
      }
    }
  }

  lemma {:induction false} PercentTail(q: string, t: string, fold: char -> char)
    ensures Like("%" + q, t, fold) <==> exists i :: 0 <= i <= |t| && Like(q, t[i..], fold)
    decreases |t|
  {
    var p := "%" + q;
    assert p[1..] == q && t[0..] == t;
    if t != "" {
      PercentTail(q, t[1..], fold);
      if i :| 0 <= i <= |t| && Like(q, t[i..], fold) {
        if i > 0 { assert t[1..][i - 1..] == t[i..]; }
      }
      if Like(p, t[1..], fold) {
        var i :| 0 <= i <= |t[1..]| && Like(q, t[1..][i..], fold);
        assert t[1..][i..] == t[i + 1..];
      }
    }
  }

  lemma AnythingMatchesPercent(t: string, fold: char -> char)
    ensures Like("%", t, fold)
  {
    assert "%" + "" == "%" && t[|t|..] == "";
    PercentTail("", t, fold);
    assert Like("", t[|t|..], fold);
  }

  /** For every text searched for and every text searched, the pattern finds it exactly when
      it is there. */
  lemma SearchFindsSubstrings(s: string, t: string, fold: char -> char)
    ensures Like("%" + EscapeLike(s) + "%", t, fold) <==> Contains(t, s, fold)
  {
    var q := EscapeLike(s) + "%";
    assert "%" + EscapeLike(s) + "%" == "%" + q;
    PercentTail(q, t, fold);
    forall i | 0 <= i <= |t|
      ensures Like(q, t[i..], fold) <==> OccursAt(s, t, i, fold)
    {
      EscapedHead(s, "%", t[i..], fold);
      if |s| <= |t[i..]| {
        AnythingMatchesPercent(t[i..][|s|..], fold);
        assert t[i..][..|s|] == t[i..i + |s|];
      }
    }
  }

  /** Without the escaping it does not: an underscore finds any text at all. */
  lemma UnescapedFindsTooMuch(fold: char -> char)
    requires fold('_') != fold('a')
    ensures Like("%" + "_" + "%", "a", fold) && !Contains("a", "_", fold)
  {
    var p := "%" + "_" + "%";
    assert p[1..] == "_" + "%" && ("_" + "%")[1..] == "%" && "a"[1..] == "";
    AnythingMatchesPercent("", fold);
    assert Like(p[1..], "a", fold);
  }
}
