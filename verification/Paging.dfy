/** Paging through a chat newest first with a keyset cursor: each page's bound is the last
    message of the page before it. */
module Paging {
  import opened Options

  datatype Msg = Msg(id: string, chat: string, sentAt: int)

  // -------------------------------------------------------------- the order

  /** Binary comparison of ids. */
  predicate Less(a: string, b: string) {
    b != "" && (a == "" || a[0] < b[0] || (a[0] == b[0] && Less(a[1..], b[1..])))
  }

  /** ORDER BY sent_at DESC, id DESC: a comes before b. */
  predicate Newer(a: Msg, b: Msg) {
    a.sentAt > b.sentAt || (a.sentAt == b.sentAt && Less(b.id, a.id))
  }

  /** Some character decides: the first that differs, or the end of the shorter. */
  predicate DecidedAt(a: string, b: string, k: nat) {
    k <= |a| && k < |b| && a[..k] == b[..k] && (k == |a| || a[k] < b[k])
  }

  lemma {:induction false} LessIs(a: string, b: string)
    ensures Less(a, b) <==> exists k: nat :: DecidedAt(a, b, k)
  {
    if a == "" || b == "" || a[0] != b[0] {
      if Less(a, b) { assert DecidedAt(a, b, 0); }
      if k: nat :| DecidedAt(a, b, k) {
        if k > 0 { assert a[..k][0] == b[..k][0]; }
      }
    } else {
      LessIs(a[1..], b[1..]);
      if k: nat :| DecidedAt(a[1..], b[1..], k) {
        assert a[..k + 1] == [a[0]] + a[1..][..k] && b[..k + 1] == [b[0]] + b[1..][..k];
        assert DecidedAt(a, b, k + 1);
      }
      if k: nat :| DecidedAt(a, b, k) {
        assert a[1..][..k - 1] == a[..k][1..] && b[1..][..k - 1] == b[..k][1..];
        assert DecidedAt(a[1..], b[1..], k - 1);
      }
    }
  }

  lemma {:induction false} LessIrreflexive(a: string)
    ensures !Less(a, a)
  {
    if a != "" { LessIrreflexive(a[1..]); }
  }

  lemma {:induction false} LessTransitive(a: string, b: string, c: string)
    requires Less(a, b) && Less(b, c)
    ensures Less(a, c)
  {
    if a != "" && a[0] == b[0] && b[0] == c[0] { LessTransitive(a[1..], b[1..], c[1..]); }
  }

  lemma {:induction false} LessTotal(a: string, b: string)
    ensures a == b || Less(a, b) || Less(b, a)
  {
    if a != "" && b != "" && a[0] == b[0] {
      LessTotal(a[1..], b[1..]);
      if a[1..] == b[1..] { assert a == [a[0]] + a[1..] && b == [b[0]] + b[1..]; }
    }
  }

  lemma NewerTransitive(a: Msg, b: Msg, c: Msg)
    requires Newer(a, b) && Newer(b, c)
    ensures Newer(a, c)
  {
    if a.sentAt == b.sentAt == c.sentAt { LessTransitive(c.id, b.id, a.id); }
  }

  lemma NewerTotal(a: Msg, b: Msg)
    ensures a.id != b.id ==> Newer(a, b) || Newer(b, a)
    ensures !(Newer(a, b) && Newer(b, a)) && !Newer(a, a)
  {
    LessTotal(a.id, b.id);
    LessIrreflexive(a.id);
    if Less(a.id, b.id) && Less(b.id, a.id) { LessTransitive(a.id, b.id, a.id); }
  }

  ghost predicate Descending(s: seq<Msg>) {
    forall i, j | 0 <= i < j < |s| :: Newer(s[i], s[j])
  }

  // -------------------------------------------------------------- the query

  /** The primary key, and no empty id: an empty cursor means the first page. */
  ghost predicate Keyed(rows: seq<Msg>) {
    && (forall i | 0 <= i < |rows| :: rows[i].id != "")
    && (forall i, j | 0 <= i < |rows| && 0 <= j < |rows| && rows[i].id == rows[j].id :: i == j)
  }

  function Find(rows: seq<Msg>, id: string): (m: Option<Msg>)
    ensures m.Some? ==> m.value in rows && m.value.id == id
    ensures m.None? ==> forall x | x in rows :: x.id != id
  {
    if rows == [] then None
    else if rows[0].id == id then Some(rows[0])
    else Find(rows[1..], id)
  }

  predicate Selected(m: Msg, chat: string, bound: Option<Msg>) {
    m.chat == chat && (bound.Some? ==> Newer(bound.value, m))
  }

  function Filter(rows: seq<Msg>, chat: string, bound: Option<Msg>): (out: seq<Msg>)
    ensures forall x :: x in out <==> x in rows && Selected(x, chat, bound)
  {
    if rows == [] then []
    else (if Selected(rows[0], chat, bound) then [rows[0]] else []) + Filter(rows[1..], chat, bound)
  }

  function Insert(x: Msg, s: seq<Msg>): (out: seq<Msg>)
    ensures forall y :: y in out <==> y == x || y in s
  {
    if s == [] then [x]
    else if Newer(x, s[0]) then [x] + s
    else [s[0]] + Insert(x, s[1..])
  }

  function Sort(rows: seq<Msg>): (out: seq<Msg>)
    ensures forall y :: y in out <==> y in rows
  {
    if rows == [] then [] else Insert(rows[0], Sort(rows[1..]))
  }

  /** The rows of a chat below a bound, newest first. */
  function Select(rows: seq<Msg>, chat: string, bound: Option<Msg>): (out: seq<Msg>)
    ensures forall x :: x in out <==> x in rows && Selected(x, chat, bound)
  {
    Sort(Filter(rows, chat, bound))
  }

  datatype Page = NotFound | Page(items: seq<Msg>, next: string)

  function Clamp(limit: int): (n: nat)
    ensures 1 <= n <= 100
  {
    if limit <= 0 || limit > 100 then 50 else limit
  }

  /** One page: at most limit rows, and a cursor exactly when there are more. */
  function PageOf(rows: seq<Msg>, chat: string, before: string, limit: int): Page {
    var n := Clamp(limit);
    if before != "" && Find(rows, before).None? then NotFound
    else
      var all := Select(rows, chat, if before == "" then None else Find(rows, before));
      if |all| > n then Page(all[..n], all[n - 1].id) else Page(all, "")
  }

  /** The message is of the chat, and below the message the cursor names: older, or as old with a
      lesser id. */
  ghost predicate Below(rows: seq<Msg>, chat: string, before: string, x: Msg) {
    && x in rows && x.chat == chat
    && (before != "" ==>
          exists b | b in rows :: b.id == before && (b.sentAt > x.sentAt || (b.sentAt == x.sentAt && Less(x.id, b.id))))
  }

  /** What a page is of: newest first, at most so many, every message of them below the cursor; the last
      page when nothing is left out, and a full one, with the cursor to go on from, when something
      older is. */
  ghost predicate IsPage(rows: seq<Msg>, chat: string, before: string, n: nat, items: seq<Msg>, next: string) {
    && |items| <= n
    && (forall x | x in items :: Below(rows, chat, before, x))
    && (forall i, j | 0 <= i < j < |items| ::
          items[i].sentAt > items[j].sentAt || (items[i].sentAt == items[j].sentAt && Less(items[j].id, items[i].id)))
    && (next == "" ==> forall x | Below(rows, chat, before, x) :: x in items)
    && (next != "" ==>
          && |items| == n > 0 && next == items[n - 1].id
          && (exists x :: Below(rows, chat, before, x) && x !in items)
          && forall x | Below(rows, chat, before, x) && x !in items ::
               x.sentAt < items[n - 1].sentAt || (x.sentAt == items[n - 1].sentAt && Less(x.id, items[n - 1].id)))
  }

  class MessageStore {
    var rows: seq<Msg>

    constructor ()
      ensures rows == []
    {
      rows := [];
    }

    method ListChatMessages(chat: string, before: string, limit: int) returns (page: Page)
      ensures page == PageOf(rows, chat, before, limit)
      ensures page.NotFound? <==> before != "" && forall x | x in rows :: x.id != before
      // Fifty a page, unless the caller asks for one to a hundred.
      ensures Keyed(rows) && page.Page? ==>
        IsPage(rows, chat, before, if 1 <= limit <= 100 then limit else 50, page.items, page.next)
    {
      var n := Clamp(limit);
      var bound: Option<Msg> := None;
      if before != "" {
        bound := Find(rows, before);
        if bound.None? {
          return NotFound;
        }
      }
      var found := Select(rows, chat, bound);
      var result := if |found| > n + 1 then found[..n + 1] else found;
      var out: seq<Msg> := [];
      var i := 0;
      while i < |result|
        invariant 0 <= i <= |result| && out == result[..i]
      {
        out := out + [result[i]];
        i := i + 1;
      }
      var next := "";
      if |out| > n {
        out := out[..n];
        next := out[n - 1].id;
      }
      assert out == if |found| > n then found[..n] else found;
      page := Page(out, next);
      if Keyed(rows) { PageMeans(rows, chat, before, limit); }
    }
  }

  // ---------------------------------------------------- what a page contains

  lemma {:induction false} InsertDescends(x: Msg, s: seq<Msg>)
    requires Descending(s) && forall y | y in s :: y.id != x.id
    ensures Descending(Insert(x, s))
  {
    if s != [] {
      NewerTotal(x, s[0]);
      if Newer(x, s[0]) {
        forall j | 0 <= j < |s|
          ensures Newer(x, s[j])
        {
          if j > 0 { NewerTransitive(x, s[0], s[j]); }
        }
      } else {
        InsertDescends(x, s[1..]);
        var tail := Insert(x, s[1..]);
        forall j | 0 <= j < |tail|
          ensures Newer(s[0], tail[j])
        {
          assert tail[j] in tail;
          if tail[j] != x { BelowHead(s, tail[j]); } else { assert s[0] in s; }
        }
      }
    }
  }

  lemma BelowHead(s: seq<Msg>, y: Msg)
    requires Descending(s) && s != [] && y in s[1..]
    ensures Newer(s[0], y)
  {
    var j :| 0 <= j < |s[1..]| && s[1..][j] == y;
    assert s[j + 1] == y;
  }

  lemma {:induction false} SortDescends(rows: seq<Msg>)
    requires Keyed(rows)
    ensures Descending(Sort(rows))
  {
    if rows != [] {
      TailKeyed(rows);
      SortDescends(rows[1..]);
      InsertDescends(rows[0], Sort(rows[1..]));
    }
  }

  lemma TailKeyed(rows: seq<Msg>)
    requires Keyed(rows) && rows != []
    ensures Keyed(rows[1..]) && forall x | x in rows[1..] :: x.id != rows[0].id
  {
    var rest := rows[1..];
    assert forall i | 0 <= i < |rest| :: rest[i] == rows[i + 1];
  }

  lemma ConsKeyed(x: Msg, rest: seq<Msg>)
    requires Keyed(rest) && x.id != "" && forall y | y in rest :: y.id != x.id
    ensures Keyed([x] + rest)
  {
    var s := [x] + rest;
    assert forall i | 0 < i < |s| :: s[i] == rest[i - 1] && s[i] in rest;
  }

  lemma {:induction false} FilterKeyed(rows: seq<Msg>, chat: string, bound: Option<Msg>)
    requires Keyed(rows)
    ensures Keyed(Filter(rows, chat, bound))
  {
    if rows != [] {
      TailKeyed(rows);
      FilterKeyed(rows[1..], chat, bound);
      if Selected(rows[0], chat, bound) { ConsKeyed(rows[0], Filter(rows[1..], chat, bound)); }
    }
  }

  lemma SelectDescends(rows: seq<Msg>, chat: string, bound: Option<Msg>)
    requires Keyed(rows)
    ensures Descending(Select(rows, chat, bound))
  {
    FilterKeyed(rows, chat, bound);
    SortDescends(Filter(rows, chat, bound));
  }

  lemma FindOne(rows: seq<Msg>, m: Msg)
    requires Keyed(rows) && m in rows
    ensures Find(rows, m.id) == Some(m)
  {
    var f := Find(rows, m.id).value;
    var i :| 0 <= i < |rows| && rows[i] == m;
    var j :| 0 <= j < |rows| && rows[j] == f;
  }

  // ----------------------------------------------------- following the cursor

  /** Reading page after page, each from the table as it is by then, until a page has no
      cursor, a cursor is unknown, or the reader stops after so many pages. */
  datatype Reading = Reading(items: seq<Msg>, pages: nat, done: bool, lost: bool)

  function Follow(tables: seq<seq<Msg>>, chat: string, before: string, limit: int): Reading {
    if tables == [] then Reading([], 0, false, false)
    else
      match PageOf(tables[0], chat, before, limit)
      case NotFound => Reading([], 0, false, true)
      case Page(items, next) =>
        if next == "" then Reading(items, 1, true, false)
        else
          var rest := Follow(tables[1..], chat, next, limit);
          rest.(items := items + rest.items, pages := rest.pages + 1)
  }

  /** Between pages messages come, go and change their ids, but under one id a message keeps its
      chat and its time. */
  ghost predicate Steady(tables: seq<seq<Msg>>) {
    && (forall i | 0 <= i < |tables| :: Keyed(tables[i]))
    && (forall i, j | 0 <= i < |tables| && 0 <= j < |tables| :: SameMessages(tables[i], tables[j]))
  }

  ghost predicate SameMessages(a: seq<Msg>, b: seq<Msg>) {
    forall x, y | x in a && y in b && x.id == y.id :: x == y
  }

  ghost predicate Stays(x: Msg, tables: seq<seq<Msg>>) {
    forall i | 0 <= i < |tables| :: x in tables[i]
  }

  /** Between pages messages may only be added. */
  ghost predicate Growing(tables: seq<seq<Msg>>) {
    && (forall i | 0 <= i < |tables| :: Keyed(tables[i]))
    && (forall i, j | 0 <= i <= j < |tables| :: AllIn(tables[i], tables[j]))
  }

  ghost predicate AllIn(a: seq<Msg>, b: seq<Msg>) {
    forall x | x in a :: x in b
  }

  /** The bound a cursor stands for. */
  function Bound(rows: seq<Msg>, before: string): Option<Msg> {
    if before == "" then None else Find(rows, before)
  }

  lemma PageFacts(rows: seq<Msg>, chat: string, before: string, limit: int)
    requires Keyed(rows) && (before == "" || Find(rows, before).Some?)
    ensures var p := PageOf(rows, chat, before, limit);
            && p.Page? && Descending(p.items) && |p.items| <= Clamp(limit)
            && (forall x | x in p.items :: x in rows && Selected(x, chat, Bound(rows, before)))
            && (p.next == "" ==> forall x | x in rows && Selected(x, chat, Bound(rows, before)) :: x in p.items)
            && (p.next != "" ==>
                  && |p.items| == Clamp(limit)
                  && var last := p.items[|p.items| - 1];
                     && p.next == last.id
                     && forall x | x in rows && Selected(x, chat, Bound(rows, before)) :: x in p.items || Newer(last, x))
  {
    var all := Select(rows, chat, Bound(rows, before));
    SelectDescends(rows, chat, Bound(rows, before));
    var n := Clamp(limit);
    if |all| > n {
      assert all[n - 1] in all;
      forall x | x in all
        ensures x in all[..n] || Newer(all[n - 1], x)
      {
        var i :| 0 <= i < |all| && all[i] == x;
        if i < n { assert all[..n][i] == x; }
      }
      var k :| 0 <= k < |rows| && rows[k] == all[n - 1];
    }
  }

  lemma SelectedIsBelow(rows: seq<Msg>, chat: string, before: string, x: Msg)
    requires Keyed(rows) && (before == "" || Find(rows, before).Some?)
    ensures x in rows && Selected(x, chat, Bound(rows, before)) <==> Below(rows, chat, before, x)
  {
    if before != "" {
      forall b | b in rows && b.id == before ensures b == Find(rows, before).value { FindOne(rows, b); }
    }
  }

  lemma PageMeans(rows: seq<Msg>, chat: string, before: string, limit: int)
    requires Keyed(rows) && (before == "" || Find(rows, before).Some?)
    ensures var p := PageOf(rows, chat, before, limit);
      IsPage(rows, chat, before, if 1 <= limit <= 100 then limit else 50, p.items, p.next)
  {
    PageFacts(rows, chat, before, limit);
    forall x
      ensures x in rows && Selected(x, chat, Bound(rows, before)) <==> Below(rows, chat, before, x)
    {
      SelectedIsBelow(rows, chat, before, x);
    }
    var n, all := Clamp(limit), Select(rows, chat, Bound(rows, before));
    if |all| > n {
      SelectDescends(rows, chat, Bound(rows, before));
      var left := all[n];
      assert left in all && Below(rows, chat, before, left);
      forall i | 0 <= i < n ensures all[i] != left { NewerTotal(all[i], left); }
    }
  }

  lemma TailSteady(tables: seq<seq<Msg>>)
    requires Steady(tables) && |tables| > 1
    ensures Steady(tables[1..])
  {
    var rest := tables[1..];
    assert forall i | 0 <= i < |rest| :: rest[i] == tables[i + 1];
  }

  /** The message after which the reader was turned away has left the table in between. */
  ghost predicate CursorGone(tables: seq<seq<Msg>>, r: Reading) {
    && 0 < r.pages < |tables| && !r.done && r.items != []
    && r.items[|r.items| - 1] in tables[r.pages - 1]
    && r.items[|r.items| - 1] !in tables[r.pages]
  }

  /** What is said of a reading of these tables from below a bound. */
  ghost predicate ReadOk(tables: seq<seq<Msg>>, chat: string, bound: Option<Msg>, r: Reading) {
    && r.pages > 0
    && (!r.done ==> r.items != [])
    && (r.lost <==> CursorGone(tables, r))
    && Descending(r.items)
    && (forall x | x in r.items :: Selected(x, chat, bound))
    && (r.done ==> forall x | Stays(x, tables) && Selected(x, chat, bound) :: x in r.items)
  }

  /** A page before a reading that went on. */
  lemma PageThenRest(tables: seq<seq<Msg>>, chat: string, before: string, limit: int, later: Reading)
    requires |tables| > 1 && Keyed(tables[0]) && (before == "" || Find(tables[0], before).Some?)
    requires PageOf(tables[0], chat, before, limit).next != ""
    requires var items := PageOf(tables[0], chat, before, limit).items;
      items != [] && ReadOk(tables[1..], chat, Some(items[|items| - 1]), later)
    ensures var items := PageOf(tables[0], chat, before, limit).items;
      ReadOk(tables, chat, Bound(tables[0], before),
             later.(items := items + later.items, pages := later.pages + 1))
  {
    PageFacts(tables[0], chat, before, limit);
    var items := PageOf(tables[0], chat, before, limit).items;
    var bound := Bound(tables[0], before);
    JoinDescends(items, later.items, bound);
    var r := later.(items := items + later.items, pages := later.pages + 1);
    GoneLater(tables, items, later, r);
    if r.done {
      forall x | Stays(x, tables) && Selected(x, chat, bound) ensures x in r.items {
        assert x in tables[0];
        assert Stays(x, tables[1..]);
        if x !in items { assert Selected(x, chat, Some(items[|items| - 1])); }
      }
    }
  }

  lemma GoneLater(tables: seq<seq<Msg>>, items: seq<Msg>, later: Reading, r: Reading)
    requires |tables| > 1 && items != [] && later.pages > 0
    requires later.lost <==> CursorGone(tables[1..], later)
    requires r == later.(items := items + later.items, pages := later.pages + 1)
    requires !later.done ==> later.items != []
    ensures r.lost <==> CursorGone(tables, r)
  {
  }

  lemma LastPage(tables: seq<seq<Msg>>, chat: string, before: string, limit: int)
    requires tables != [] && Keyed(tables[0]) && (before == "" || Find(tables[0], before).Some?)
    requires PageOf(tables[0], chat, before, limit).next == "" || |tables| == 1
    ensures ReadOk(tables, chat, Bound(tables[0], before), Follow(tables, chat, before, limit))
  {
    PageFacts(tables[0], chat, before, limit);
    var p := PageOf(tables[0], chat, before, limit);
    if p.next != "" { assert Follow(tables[1..], chat, p.next, limit) == Reading([], 0, false, false); }
    assert p.items + [] == p.items;
    assert forall x | Stays(x, tables) :: x in tables[0];
  }

  /** A cursor that is found stands for the message it was taken from. */
  lemma CursorFound(tables: seq<seq<Msg>>, chat: string, before: string, limit: int)
    requires |tables| > 1 && Steady(tables) && (before == "" || Find(tables[0], before).Some?)
    requires var next := PageOf(tables[0], chat, before, limit).next; next != "" && Find(tables[1], next).Some?
    ensures var p := PageOf(tables[0], chat, before, limit);
      p.items != [] && Bound(tables[1..][0], p.next) == Some(p.items[|p.items| - 1])
  {
    PageFacts(tables[0], chat, before, limit);
    var p := PageOf(tables[0], chat, before, limit);
    assert p.items[|p.items| - 1] in p.items && SameMessages(tables[0], tables[1]);
  }

  lemma TurnedAway(tables: seq<seq<Msg>>, chat: string, before: string, limit: int)
    requires |tables| > 1 && Keyed(tables[0]) && (before == "" || Find(tables[0], before).Some?)
    requires var next := PageOf(tables[0], chat, before, limit).next; next != "" && Find(tables[1], next).None?
    ensures ReadOk(tables, chat, Bound(tables[0], before), Follow(tables, chat, before, limit))
  {
    PageFacts(tables[0], chat, before, limit);
    var p := PageOf(tables[0], chat, before, limit);
    assert Follow(tables[1..], chat, p.next, limit) == Reading([], 0, false, true);
    assert p.items + [] == p.items;
    assert p.items[|p.items| - 1] in p.items;
  }

  /** However messages come, go and are renamed between pages, the reader sees messages strictly
      newest to oldest, so none twice; it meets an unknown cursor exactly when the row of the
      last message it has seen was renamed or deleted before the next page; and once it
      reaches the end it has seen every message that was there all along. */
  lemma {:induction false} ReadsWhatStays(tables: seq<seq<Msg>>, chat: string, before: string, limit: int)
    requires Steady(tables) && tables != []
    requires before == "" || Find(tables[0], before).Some?
    ensures ReadOk(tables, chat, Bound(tables[0], before), Follow(tables, chat, before, limit))
    decreases |tables|
  {
    var p := PageOf(tables[0], chat, before, limit);
    if p.next == "" || |tables| == 1 {
      LastPage(tables, chat, before, limit);
    } else if Find(tables[1], p.next).None? {
      TurnedAway(tables, chat, before, limit);
    } else {
      CursorFound(tables, chat, before, limit);
      TailSteady(tables);
      ReadsWhatStays(tables[1..], chat, p.next, limit);
      PageThenRest(tables, chat, before, limit, Follow(tables[1..], chat, p.next, limit));
    }
  }

  /** However many messages arrive between pages, if none goes the reader never meets an unknown
      cursor, and once it reaches the end has seen every message that was there when it
      started, each once and newest to oldest. */
  lemma NothingMissedNothingTwice(tables: seq<seq<Msg>>, chat: string, before: string, limit: int)
    requires Growing(tables) && tables != []
    requires before == "" || Find(tables[0], before).Some?
    ensures var r := Follow(tables, chat, before, limit);
            && !r.lost
            && Descending(r.items)
            && (forall x | x in r.items :: Selected(x, chat, Bound(tables[0], before)))
            && (r.done ==> forall x | x in tables[0] && Selected(x, chat, Bound(tables[0], before)) :: x in r.items)
  {
    forall i, j | 0 <= i < |tables| && 0 <= j < |tables| ensures SameMessages(tables[i], tables[j]) {
      assert AllIn(tables[if i <= j then i else j], tables[if i <= j then j else i]);
    }
    ReadsWhatStays(tables, chat, before, limit);
    forall x | x in tables[0] ensures Stays(x, tables) {
      forall i | 0 <= i < |tables| ensures x in tables[i] { assert AllIn(tables[0], tables[i]); }
    }
    var r := Follow(tables, chat, before, limit);
    if 0 < r.pages < |tables| { assert AllIn(tables[r.pages - 1], tables[r.pages]); }
  }

  /** The newer of two messages is the first page of one. */
  lemma FirstOfTwo(a: Msg, b: Msg)
    requires a.chat == b.chat && a.sentAt > b.sentAt
    ensures PageOf([a, b], a.chat, "", 1) == Page([a], a.id)
  {
    assert [a, b][1..] == [b] && [b][1..] == [];
    assert Filter([b], a.chat, None) == [b] + Filter([], a.chat, None);
    assert Filter([a, b], a.chat, None) == [a] + [b];
    assert Sort([b]) == [b] && Sort([a, b]) == Insert(a, [b]);
  }

  /** A temporary row that is the last of its page is renamed before the next is asked for. */
  lemma RenamedCursorIsLost()
    ensures var tmp, sent, older := Msg("t", "c", 2), Msg("p", "c", 2), Msg("o", "c", 1);
      var tables := [[tmp, older], [sent, older]];
      Steady(tables) && Follow(tables, "c", "", 1) == Reading([tmp], 1, false, true)
  {
    var tmp, sent, older := Msg("t", "c", 2), Msg("p", "c", 2), Msg("o", "c", 1);
    var rows, next := [tmp, older], [sent, older];
    FirstOfTwo(tmp, older);
    assert next[1..] == [older];
    assert Find(next, "t") == Find([older], "t") == None;
    assert [rows, next][1..] == [next];
    assert Follow([next], "c", "t", 1) == Reading([], 0, false, true);
  }

  lemma JoinDescends(a: seq<Msg>, b: seq<Msg>, bound: Option<Msg>)
    requires a != [] && Descending(a) && Descending(b)
    requires forall x | x in b :: Newer(a[|a| - 1], x)
    requires bound.Some? ==> forall x | x in a :: Newer(bound.value, x)
    ensures Descending(a + b)
    ensures bound.Some? ==> forall x | x in b :: Newer(bound.value, x)
  {
    forall i, j | 0 <= i < j < |a + b|
      ensures Newer((a + b)[i], (a + b)[j])
    {
      if i < |a| <= j {
        assert b[j - |a|] in b;
        if i < |a| - 1 { NewerTransitive(a[i], a[|a| - 1], b[j - |a|]); }
      }
    }
    if bound.Some? {
      forall x | x in b
        ensures Newer(bound.value, x)
      {
        NewerTransitive(bound.value, a[|a| - 1], x);
      }
    }
  }

  /** Descending lists with the same members are the same list. */
  lemma {:induction false} DescendingUnique(a: seq<Msg>, b: seq<Msg>)
    requires Descending(a) && Descending(b) && forall x :: x in a <==> x in b
    ensures a == b
  {
    if a != [] { assert a[0] in b; }
    if b != [] { assert b[0] in a; }
    if a != [] {
      var i :| 0 <= i < |a| && a[i] == b[0];
      var j :| 0 <= j < |b| && b[j] == a[0];
      NewerTotal(a[0], b[0]);
      assert a[0] == b[0];
      forall x
        ensures x in a[1..] <==> x in b[1..]
      {
        TailMembers(a, x);
        TailMembers(b, x);
      }
      DescendingUnique(a[1..], b[1..]);
      assert a == [a[0]] + a[1..] && b == [b[0]] + b[1..];
    }
  }

  lemma TailMembers(s: seq<Msg>, x: Msg)
    requires Descending(s) && s != []
    ensures x in s[1..] <==> x in s && x != s[0]
  {
    NewerTotal(s[0], s[0]);
    if x in s[1..] { BelowHead(s, x); }
    if x in s && x != s[0] {
      var i :| 0 <= i < |s| && s[i] == x;
      assert s[1..][i - 1] == x;
    }
  }

  /** What is below the last message of a full page is less than what that page was cut from. */
  lemma PageMakesProgress(rows: seq<Msg>, chat: string, before: string, limit: int)
    requires Keyed(rows) && (before == "" || Find(rows, before).Some?)
    requires PageOf(rows, chat, before, limit).next != ""
    ensures var next := PageOf(rows, chat, before, limit).next;
            && Find(rows, next).Some?
            && |Select(rows, chat, Find(rows, next))| < |Select(rows, chat, Bound(rows, before))|
  {
    PageFacts(rows, chat, before, limit);
    var p := PageOf(rows, chat, before, limit);
    var last := p.items[|p.items| - 1];
    assert last in p.items;
    FindOne(rows, last);
    var below := Select(rows, chat, Some(last));
    SelectDescends(rows, chat, Some(last));
    forall x | x in below
      ensures x in Select(rows, chat, Bound(rows, before)) && x != last
    {
      NewerTotal(last, last);
      if before != "" { NewerTransitive(Find(rows, before).value, last, x); }
    }
    Shorter(below, Select(rows, chat, Bound(rows, before)), last);
  }

  /** With no arrivals, one page more than there are messages is always enough to finish. */
  lemma {:induction false} Finishes(rows: seq<Msg>, pages: nat, chat: string, before: string, limit: int)
    requires Keyed(rows) && (before == "" || Find(rows, before).Some?)
    requires pages > |Select(rows, chat, Bound(rows, before))|
    ensures Follow(seq(pages, _ => rows), chat, before, limit).done
    decreases pages
  {
    PageFacts(rows, chat, before, limit);
    var next := PageOf(rows, chat, before, limit).next;
    assert seq(pages, _ => rows)[1..] == seq(pages - 1, _ => rows);
    if next != "" {
      PageMakesProgress(rows, chat, before, limit);
      Finishes(rows, pages - 1, chat, next, limit);
    }
  }

  lemma Shorter(a: seq<Msg>, b: seq<Msg>, missing: Msg)
    requires Descending(a) && (forall x | x in a :: x in b && x != missing) && missing in b
    ensures |a| < |b|
  {
    DistinctCard(a);
    var sa, sb := set x | x in a, set x | x in b;
    assert sa <= sb - {missing};
    assert sb == (sb - {missing} - sa) + sa + {missing};
    MembersCard(b);
  }

  lemma {:induction false} DistinctCard(s: seq<Msg>)
    requires Descending(s)
    ensures |set x | x in s| == |s|
  {
    if s != [] {
      DistinctCard(s[1..]);
      TailMembers(s, s[0]);
      assert (set x | x in s) == (set x | x in s[1..]) + {s[0]};
    }
  }

  lemma {:induction false} MembersCard(s: seq<Msg>)
    ensures |set x | x in s| <= |s|
  {
    if s != [] {
      MembersCard(s[1..]);
      assert (set x | x in s) == (set x | x in s[1..]) + {s[0]};
    }
  }

  /** With no arrivals, following the cursor from the first page ends and returns exactly the
      chat's messages in order, for every page size. */
  lemma ReadsWholeChat(rows: seq<Msg>, chat: string, limit: int)
    requires Keyed(rows)
    ensures var r := Follow(seq(|Select(rows, chat, None)| + 1, _ => rows), chat, "", limit);
            r.done && r.items == Select(rows, chat, None)
  {
    var pages := |Select(rows, chat, None)| + 1;
    var tables := seq(pages, _ => rows);
    assert Growing(tables);
    Finishes(rows, pages, chat, "", limit);
    NothingMissedNothingTwice(tables, chat, "", limit);
    FollowStaysIn(tables, rows, chat, "", limit);
    SelectDescends(rows, chat, None);
    DescendingUnique(Follow(tables, chat, "", limit).items, Select(rows, chat, None));
  }

  lemma {:induction false} FollowStaysIn(
      tables: seq<seq<Msg>>, rows: seq<Msg>, chat: string, before: string, limit: int)
    requires forall t, x | t in tables && x in t :: x in rows
    ensures forall x | x in Follow(tables, chat, before, limit).items :: x in rows
    decreases |tables|
  {
    if tables != [] {
      assert tables[0] in tables;
      match PageOf(tables[0], chat, before, limit) {
        case NotFound =>
        case Page(items, next) =>
          if next != "" { FollowStaysIn(tables[1..], rows, chat, next, limit); }
      }
    }
  }
}
