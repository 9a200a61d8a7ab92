/** One scope's round of changes applied to the mirror, its cursor written last, and what a
    crash in the middle of it can and cannot do. */
module SyncRound {
  import opened Mirror
  import opened Options

  type Emails = map<Key, EmailRow>

  /** One write of a round. */
  datatype Write = Put(key: Key, email: Email) | Drop(key: Key)

  /** What the provider answers for one cursor: upserts, then removals, then the next cursor. */
  datatype Round = Round(changed: seq<(Key, Email)>, removed: seq<Key>, cursor: string)

  function Puts(changed: seq<(Key, Email)>): (ws: seq<Write>)
    ensures |ws| == |changed| && forall i | 0 <= i < |ws| :: ws[i] == Put(changed[i].0, changed[i].1)
  {
    seq(|changed|, i requires 0 <= i < |changed| => Put(changed[i].0, changed[i].1))
  }

  function Drops(removed: seq<Key>): (ws: seq<Write>)
    ensures |ws| == |removed| && forall i | 0 <= i < |ws| :: ws[i] == Drop(removed[i])
  {
    seq(|removed|, i requires 0 <= i < |removed| => Drop(removed[i]))
  }

  function Writes(r: Round): seq<Write> {
    Puts(r.changed) + Drops(r.removed)
  }

  function Write1(m: Emails, w: Write, now: int): Emails {
    match w
    case Put(k, e) => Upserted(m, k, e, now)
    case Drop(k) => m - {k}
  }

  /** The mirror after the first n writes of ws. */
  function Upto(m: Emails, ws: seq<Write>, n: nat, now: int): Emails
    requires n <= |ws|
  {
    if n == 0 then m else Write1(Upto(m, ws, n - 1, now), ws[n - 1], now)
  }

  function WriteAll(m: Emails, ws: seq<Write>, now: int): Emails {
    Upto(m, ws, |ws|, now)
  }

  // ------------------------------------------------------------ the sync loop

  datatype News = Received(key: Key) | Sent(key: Key) | Updated(key: Key) | Deleted(key: Key)

  /** The event one write emits, decided by whether the row was there before it. */
  function NewsOf(m: Emails, w: Write, sentItems: bool): seq<News> {
    match w
    case Put(k, e) =>
      if k in m then [Updated(k)]
      else if sentItems then [Sent(k)]
      else if !e.meta.draft then [Received(k)]
      else []
    case Drop(k) => [Deleted(k)]
  }

  /** The events of the first n writes. */
  function NewsUpto(m: Emails, ws: seq<Write>, n: nat, now: int, sentItems: bool): seq<News>
    requires n <= |ws|
  {
    if n == 0 then []
    else NewsUpto(m, ws, n - 1, now, sentItems) + NewsOf(Upto(m, ws, n - 1, now), ws[n - 1], sentItems)
  }

  /** The keys a round upserts, in order. */
  function KeysOf(changed: seq<(Key, Email)>): (ks: seq<Key>)
    ensures |ks| == |changed| && forall i | 0 <= i < |ks| :: ks[i] == changed[i].0
  {
    seq(|changed|, i requires 0 <= i < |changed| => changed[i].0)
  }

  /** How often x is among the first n of s. */
  function Times<T(==)>(s: seq<T>, n: nat, x: T): nat
    requires n <= |s|
  {
    if n == 0 then 0 else Times(s, n - 1, x) + if s[n - 1] == x then 1 else 0
  }

  lemma {:induction false} TimesCounts<T>(s: seq<T>, n: nat, x: T)
    requires n <= |s|
    ensures Times(s, n, x) == multiset(s[..n])[x]
  {
    if n > 0 {
      TimesCounts(s, n - 1, x);
      assert s[..n] == s[..n - 1] + [s[n - 1]];
    }
  }

  /** How often news says each thing of k. */
  datatype Tally = Tally(received: nat, sent: nat, updated: nat, deleted: nat)

  function TallyOf(news: seq<News>, k: Key): Tally {
    if news == [] then Tally(0, 0, 0, 0)
    else
      var t, last := TallyOf(news[..|news| - 1], k), news[|news| - 1];
      if last.key != k then t
      else match last
        case Received(_) => t.(received := t.received + 1)
        case Sent(_) => t.(sent := t.sent + 1)
        case Updated(_) => t.(updated := t.updated + 1)
        case Deleted(_) => t.(deleted := t.deleted + 1)
  }

  lemma {:induction false} TallyCounts(news: seq<News>, k: Key)
    ensures TallyOf(news, k).received == multiset(news)[Received(k)]
    ensures TallyOf(news, k).sent == multiset(news)[Sent(k)]
    ensures TallyOf(news, k).updated == multiset(news)[Updated(k)]
    ensures TallyOf(news, k).deleted == multiset(news)[Deleted(k)]
  {
    if news != [] {
      TallyCounts(news[..|news| - 1], k);
      assert news == news[..|news| - 1] + [news[|news| - 1]];
    }
  }

  /** What is said of k when the first c upserts and the first d removals of round r go through:
      one deletion for each removal; one update for each upsert that finds it held, which is
      every one, or every one but the first; and of that first one, found absent, one Sent in
      Sent Items, elsewhere one Received unless it brings a draft. */
  ghost predicate Told(held: bool, r: Round, c: nat, d: nat, sentItems: bool, k: Key, t: Tally)
    requires c <= |r.changed| && d <= |r.removed|
  {
    var upserts := Times(KeysOf(r.changed), c, k);
    && t.deleted == Times(r.removed, d, k)
    && t.updated == (if held || upserts == 0 then upserts else upserts - 1)
    && t.sent == (if !held && upserts > 0 && sentItems then 1 else 0)
    && t.received == (if !held && !sentItems && FirstIsNoDraft(r, c, k) then 1 else 0)
  }

  /** One of the first c upserts is the first of k, and it brings no draft. */
  predicate FirstIsNoDraft(r: Round, c: nat, k: Key)
    requires c <= |r.changed|
  {
    exists f | 0 <= f < c :: FirstUpsert(r, k, f) && !r.changed[f].1.meta.draft
  }

  /** The round's f-th upsert is its first of k. */
  predicate FirstUpsert(r: Round, k: Key, f: nat) {
    f < |r.changed| && r.changed[f].0 == k && Times(KeysOf(r.changed), f, k) == 0
  }

  /** Where k stands then: absent when one of the removals was of it, else as its last upsert left
      it, else as it was. */
  ghost predicate Stands(m: Emails, r: Round, c: nat, d: nat, k: Key, after: Emails)
    requires c <= |r.changed| && d <= |r.removed|
  {
    if k in r.removed[..d] then k !in after
    else if k in KeysOf(r.changed)[..c] then
      k in after && exists l | 0 <= l < c :: LastUpsert(r, k, l, c) && after[k].meta == r.changed[l].1.meta
    else At(after, k) == At(m, k)
  }

  predicate LastUpsert(r: Round, k: Key, l: nat, c: nat)
    requires c <= |r.changed|
  {
    l < c && r.changed[l].0 == k && k !in KeysOf(r.changed)[l + 1..c]
  }

  /** Whether k is held after the first n writes. */
  ghost function HeldBy(held: bool, ws: seq<Write>, n: nat, k: Key): bool
    requires n <= |ws|
  {
    if n == 0 then held else if ws[n - 1].key == k then ws[n - 1].Put? else HeldBy(held, ws, n - 1, k)
  }

  /** What one write adds to what is said of k, which is held before it or not. */
  ghost function Adding(held: bool, w: Write, sentItems: bool, k: Key, t: Tally): Tally {
    if w.key != k then t
    else if w.Drop? then t.(deleted := t.deleted + 1)
    else if held then t.(updated := t.updated + 1)
    else if sentItems then t.(sent := t.sent + 1)
    else if w.email.meta.draft then t
    else t.(received := t.received + 1)
  }

  ghost function TallyBy(held: bool, ws: seq<Write>, n: nat, sentItems: bool, k: Key): Tally
    requires n <= |ws|
  {
    if n == 0 then Tally(0, 0, 0, 0)
    else Adding(HeldBy(held, ws, n - 1, k), ws[n - 1], sentItems, k, TallyBy(held, ws, n - 1, sentItems, k))
  }

  lemma OneTells(m: Emails, w: Write, sentItems: bool, k: Key, before: seq<News>)
    ensures TallyOf(before + NewsOf(m, w, sentItems), k) == Adding(k in m, w, sentItems, k, TallyOf(before, k))
  {
    var all := before + NewsOf(m, w, sentItems);
    assert if NewsOf(m, w, sentItems) == [] then all == before else all[..|all| - 1] == before;
  }

  lemma {:induction false} HeldIs(m: Emails, ws: seq<Write>, n: nat, now: int, k: Key)
    requires n <= |ws|
    ensures HeldBy(k in m, ws, n, k) == (k in Upto(m, ws, n, now))
  {
    if n > 0 { HeldIs(m, ws, n - 1, now, k); }
  }

  lemma {:induction false} TallyIs(m: Emails, ws: seq<Write>, n: nat, now: int, sentItems: bool, k: Key)
    requires n <= |ws|
    ensures TallyBy(k in m, ws, n, sentItems, k) == TallyOf(NewsUpto(m, ws, n, now, sentItems), k)
  {
    if n > 0 {
      TallyIs(m, ws, n - 1, now, sentItems, k);
      HeldIs(m, ws, n - 1, now, k);
      OneTells(Upto(m, ws, n - 1, now), ws[n - 1], sentItems, k, NewsUpto(m, ws, n - 1, now, sentItems));
    }
  }

  lemma {:induction false} TimesGrow<T>(s: seq<T>, lo: nat, hi: nat, x: T)
    requires lo <= hi <= |s|
    ensures Times(s, lo, x) <= Times(s, hi, x)
  {
    if lo < hi { TimesGrow(s, lo, hi - 1, x); }
  }

  /** An upsert of k among the first c - 1 leaves the c-th none to be the first. */
  lemma FirstIs(r: Round, c: nat, k: Key)
    requires 0 < c <= |r.changed|
    ensures forall f | 0 <= f < c - 1 && FirstUpsert(r, k, f) :: Times(KeysOf(r.changed), c - 1, k) > 0
  {
    forall f | 0 <= f < c - 1 && FirstUpsert(r, k, f)
      ensures Times(KeysOf(r.changed), c - 1, k) > 0
    {
      TimesGrow(KeysOf(r.changed), f + 1, c - 1, k);
    }
  }

  /** The writes of round r, one by one. */
  ghost predicate Spells(ws: seq<Write>, r: Round) {
    && |ws| == |r.changed| + |r.removed|
    && (forall i | 0 <= i < |r.changed| :: ws[i] == Put(r.changed[i].0, r.changed[i].1))
    && (forall j | 0 <= j < |r.removed| :: ws[|r.changed| + j] == Drop(r.removed[j]))
  }

  lemma {:induction false} ChangesTell(held: bool, r: Round, ws: seq<Write>, c: nat, sentItems: bool, k: Key)
    requires c <= |r.changed| && Spells(ws, r)
    ensures HeldBy(held, ws, c, k) <==> held || Times(KeysOf(r.changed), c, k) > 0
    ensures Told(held, r, c, 0, sentItems, k, TallyBy(held, ws, c, sentItems, k))
  {
    if c > 0 {
      ChangesTell(held, r, ws, c - 1, sentItems, k);
      FirstIs(r, c, k);
    }
  }

  lemma {:induction false} RemovalsTell(held: bool, r: Round, ws: seq<Write>, d: nat, sentItems: bool, k: Key)
    requires d <= |r.removed| && Spells(ws, r)
    ensures Told(held, r, |r.changed|, d, sentItems, k, TallyBy(held, ws, |r.changed| + d, sentItems, k))
  {
    if d == 0 {
      ChangesTell(held, r, ws, |r.changed|, sentItems, k);
    } else {
      RemovalsTell(held, r, ws, d - 1, sentItems, k);
      assert ws[|r.changed| + d - 1] == Drop(r.removed[d - 1]);
    }
  }

  lemma ChangeStands(m: Emails, r: Round, c: nat, now: int, k: Key, mid: Emails)
    requires 0 < c <= |r.changed| && Stands(m, r, c - 1, 0, k, mid)
    ensures Stands(m, r, c, 0, k, Upserted(mid, r.changed[c - 1].0, r.changed[c - 1].1, now))
  {
    var keys := KeysOf(r.changed);
    assert keys[..c] == keys[..c - 1] + [keys[c - 1]];
    if keys[c - 1] == k {
      assert LastUpsert(r, k, c - 1, c);
    } else if k in keys[..c - 1] {
      var l: nat :| l < c - 1 && LastUpsert(r, k, l, c - 1) && mid[k].meta == r.changed[l].1.meta;
      assert keys[l + 1..c] == keys[l + 1..c - 1] + [keys[c - 1]];
      assert LastUpsert(r, k, l, c);
    }
  }

  lemma {:induction false} ChangesStand(m: Emails, r: Round, ws: seq<Write>, c: nat, now: int, k: Key)
    requires c <= |r.changed| && Spells(ws, r)
    ensures Stands(m, r, c, 0, k, Upto(m, ws, c, now))
  {
    if c > 0 {
      ChangesStand(m, r, ws, c - 1, now, k);
      ChangeStands(m, r, c, now, k, Upto(m, ws, c - 1, now));
    }
  }

  lemma {:induction false} RemovalsStand(m: Emails, r: Round, ws: seq<Write>, d: nat, now: int, k: Key)
    requires d <= |r.removed| && Spells(ws, r)
    ensures Stands(m, r, |r.changed|, d, k, Upto(m, ws, |r.changed| + d, now))
  {
    if d == 0 {
      ChangesStand(m, r, ws, |r.changed|, now, k);
    } else {
      RemovalsStand(m, r, ws, d - 1, now, k);
      assert ws[|r.changed| + d - 1] == Drop(r.removed[d - 1]);
      assert r.removed[..d] == r.removed[..d - 1] + [r.removed[d - 1]];
    }
  }

  lemma KeyStands(m: Emails, r: Round, n: nat, now: int, k: Key, ws: seq<Write>, after: Emails)
    requires n <= |r.changed| + |r.removed| && Spells(ws, r) && after == Upto(m, ws, n, now)
    ensures var c := Min(n, |r.changed|); Stands(m, r, c, n - c, k, after)
  {
    if n <= |r.changed| {
      ChangesStand(m, r, ws, n, now, k);
    } else {
      RemovalsStand(m, r, ws, n - |r.changed|, now, k);
    }
  }

  lemma TallyTold(held: bool, r: Round, n: nat, sentItems: bool, k: Key, ws: seq<Write>, t: Tally)
    requires n <= |r.changed| + |r.removed| && Spells(ws, r) && t == TallyBy(held, ws, n, sentItems, k)
    ensures var c := Min(n, |r.changed|); Told(held, r, c, n - c, sentItems, k, t)
  {
    if n <= |r.changed| {
      ChangesTell(held, r, ws, n, sentItems, k);
    } else {
      RemovalsTell(held, r, ws, n - |r.changed|, sentItems, k);
    }
  }

  /** What the first n writes of round r make of every key. */
  ghost predicate Settles(m: Emails, r: Round, n: nat, after: Emails)
    requires n <= |r.changed| + |r.removed|
  {
    var c, d := Min(n, |r.changed|), n - Min(n, |r.changed|);
    forall k :: Stands(m, r, c, d, k, after)
  }

  /** And what they say of it. */
  ghost predicate Announces(m: Emails, r: Round, n: nat, sentItems: bool, news: seq<News>)
    requires n <= |r.changed| + |r.removed|
  {
    var c, d := Min(n, |r.changed|), n - Min(n, |r.changed|);
    forall k :: Told(k in m, r, c, d, sentItems, k, TallyOf(news, k))
  }

  lemma WritesSettle(m: Emails, r: Round, n: nat, now: int, ws: seq<Write>, after: Emails)
    requires n <= |r.changed| + |r.removed| && Spells(ws, r) && after == Upto(m, ws, n, now)
    ensures Settles(m, r, n, after)
  {
    var c, d := Min(n, |r.changed|), n - Min(n, |r.changed|);
    forall k
      ensures Stands(m, r, c, d, k, after)
    {
      KeyStands(m, r, n, now, k, ws, after);
    }
  }

  lemma WritesAnnounce(m: Emails, r: Round, n: nat, now: int, sentItems: bool, ws: seq<Write>, news: seq<News>)
    requires n <= |r.changed| + |r.removed| && Spells(ws, r) && news == NewsUpto(m, ws, n, now, sentItems)
    ensures Announces(m, r, n, sentItems, news)
  {
    var c, d := Min(n, |r.changed|), n - Min(n, |r.changed|);
    forall k
      ensures Told(k in m, r, c, d, sentItems, k, TallyOf(news, k))
    {
      TallyIs(m, ws, n, now, sentItems, k);
      TallyTold(k in m, r, n, sentItems, k, ws, TallyOf(news, k));
    }
  }

  lemma WritesSpelled(r: Round)
    ensures Spells(Writes(r), r)
  {
  }

  class Syncer {
    var emails: Emails
    var cursor: string
    var emitted: seq<News>

    constructor (emails: Emails, cursor: string)
      ensures this.emails == emails && this.cursor == cursor && emitted == []
    {
      this.emails, this.cursor, emitted := emails, cursor, [];
    }

    /** The first n writes of round r are in the mirror and their events are out. */
    ghost predicate Applied(r: Round, n: nat, m0: Emails, n0: seq<News>, now: int, quiet: bool, sentItems: bool)
      requires n <= |Writes(r)|
      reads this`emails, this`emitted
    {
      && emails == Upto(m0, Writes(r), n, now)
      && emitted == n0 + if quiet then [] else NewsUpto(m0, Writes(r), n, now, sentItems)
    }

    lemma Reports(r: Round, n: nat, m0: Emails, n0: seq<News>, now: int, quiet: bool, sentItems: bool)
      requires n <= |r.changed| + |r.removed| && Applied(r, n, m0, n0, now, quiet, sentItems)
      ensures n0 <= emitted && (quiet ==> emitted == n0)
      ensures Settles(m0, r, n, emails)
      ensures !quiet ==> Announces(m0, r, n, sentItems, emitted[|n0|..])
    {
      WritesSpelled(r);
      WritesSettle(m0, r, n, now, Writes(r), emails);
      if !quiet { WritesAnnounce(m0, r, n, now, sentItems, Writes(r), emitted[|n0|..]); }
    }

    /** syncScope once the provider has answered. failsAt is the number of store writes that
        succeed before one fails; the cursor write is one more of them. */
    method ApplyRound(r: Round, now: int, quiet: bool, sentItems: bool, failsAt: nat) returns (ok: bool)
      modifies this
      ensures Applied(r, Min(failsAt, |Writes(r)|), old(emails), old(emitted), now, quiet, sentItems)
      // The cursor moves only after the whole round is in the mirror.
      ensures cursor == if failsAt > |Writes(r)| && r.cursor != "" then r.cursor else old(cursor)
      ensures ok <==> failsAt > |Writes(r)| || (failsAt == |Writes(r)| && r.cursor == "")
      // Of every key, where it stands and what was said of it, as far as the writes went.
      ensures old(emitted) <= emitted && (quiet ==> emitted == old(emitted))
      ensures Settles(old(emails), r, Min(failsAt, |r.changed| + |r.removed|), emails)
      ensures !quiet ==>
        Announces(old(emails), r, Min(failsAt, |r.changed| + |r.removed|), sentItems, emitted[|old(emitted)|..])
    {
      var total := |r.changed| + |r.removed|;
      var i := ApplyWrites(r, now, quiet, sentItems, failsAt);
      if i < total {
        return false;
      }
      if r.cursor != "" {
        if i == failsAt {
          return false;
        }
        cursor := r.cursor;
      }
      return true;
    }

    /** The upserts, then the removals, up to the write that fails. */
    method BothLists(r: Round, now: int, quiet: bool, sentItems: bool, failsAt: nat) returns (i: nat)
      modifies this`emails, this`emitted
      ensures i == Min(failsAt, |r.changed| + |r.removed|)
      ensures Applied(r, i, old(emails), old(emitted), now, quiet, sentItems)
    {
      i := Changes(r, now, quiet, sentItems, failsAt);
      if i < |r.changed| {
        return;
      }
      i := Removals(r, old(emails), old(emitted), now, quiet, sentItems, failsAt);
    }

    method ApplyWrites(r: Round, now: int, quiet: bool, sentItems: bool, failsAt: nat) returns (i: nat)
      modifies this`emails, this`emitted
      ensures i == Min(failsAt, |r.changed| + |r.removed|)
      ensures Applied(r, i, old(emails), old(emitted), now, quiet, sentItems)
      ensures old(emitted) <= emitted && (quiet ==> emitted == old(emitted))
      ensures Settles(old(emails), r, i, emails)
      ensures !quiet ==> Announces(old(emails), r, i, sentItems, emitted[|old(emitted)|..])
    {
      i := BothLists(r, now, quiet, sentItems, failsAt);
      Reports(r, i, old(emails), old(emitted), now, quiet, sentItems);
    }

    method Changes(r: Round, now: int, quiet: bool, sentItems: bool, failsAt: nat) returns (i: nat)
      modifies this`emails, this`emitted
      ensures i == Min(failsAt, |r.changed|)
      ensures Applied(r, i, old(emails), old(emitted), now, quiet, sentItems)
    {
      i := 0;
      while i < |r.changed| && i < failsAt
        invariant i <= Min(failsAt, |r.changed|)
        invariant Applied(r, i, old(emails), old(emitted), now, quiet, sentItems)
      {
        NthChange(r, i, old(emails), old(emitted), now, quiet, sentItems);
        i := i + 1;
      }
    }

    method NthChange(r: Round, i: nat, ghost m0: Emails, ghost n0: seq<News>, now: int, quiet: bool, sentItems: bool)
      requires i < |r.changed| && Applied(r, i, m0, n0, now, quiet, sentItems)
      modifies this`emails, this`emitted
      ensures Applied(r, i + 1, m0, n0, now, quiet, sentItems)
    {
      assert Writes(r)[i] == Put(r.changed[i].0, r.changed[i].1);
      Change(r.changed[i].0, r.changed[i].1, now, quiet, sentItems);
    }

    method Removals(r: Round, ghost m0: Emails, ghost n0: seq<News>, now: int, quiet: bool, sentItems: bool, failsAt: nat)
      returns (i: nat)
      requires failsAt >= |r.changed| && Applied(r, |r.changed|, m0, n0, now, quiet, sentItems)
      modifies this`emails, this`emitted
      ensures i == Min(failsAt, |r.changed| + |r.removed|)
      ensures Applied(r, i, m0, n0, now, quiet, sentItems)
    {
      var n := |r.changed|;
      i := n;
      while i < n + |r.removed| && i < failsAt
        invariant n <= i <= Min(failsAt, n + |r.removed|)
        invariant Applied(r, i, m0, n0, now, quiet, sentItems)
      {
        NthRemoval(r, i - n, m0, n0, now, quiet, sentItems);
        i := i + 1;
      }
    }

    method NthRemoval(r: Round, i: nat, ghost m0: Emails, ghost n0: seq<News>, now: int, quiet: bool, sentItems: bool)
      requires i < |r.removed| && Applied(r, |r.changed| + i, m0, n0, now, quiet, sentItems)
      modifies this`emails, this`emitted
      ensures Applied(r, |r.changed| + i + 1, m0, n0, now, quiet, sentItems)
    {
      assert Writes(r)[|r.changed| + i] == Drop(r.removed[i]);
      Remove(r.removed[i], quiet, sentItems);
    }

    method Change(k: Key, e: Email, now: int, quiet: bool, sentItems: bool)
      modifies this`emails, this`emitted
      ensures emails == Write1(old(emails), Put(k, e), now)
      ensures emitted == old(emitted) + if quiet then [] else NewsOf(old(emails), Put(k, e), sentItems)
      // Nothing in a quiet round; else what was held is updated, and what is new is sent or
      // received, unless it is a draft outside Sent Items.
      ensures quiet ==> emitted == old(emitted)
      ensures !quiet && k in old(emails) ==> emitted == old(emitted) + [Updated(k)]
      ensures !quiet && k !in old(emails) && sentItems ==> emitted == old(emitted) + [Sent(k)]
      ensures !quiet && k !in old(emails) && !sentItems && !e.meta.draft ==> emitted == old(emitted) + [Received(k)]
      ensures !quiet && k !in old(emails) && !sentItems && e.meta.draft ==> emitted == old(emitted)
    {
      var existed := k in emails;
      emails := Upserted(emails, k, e, now);
      if !quiet {
        if !existed && sentItems {
          emitted := emitted + [Sent(k)];
        } else if !existed && !e.meta.draft {
          emitted := emitted + [Received(k)];
        } else if existed {
          emitted := emitted + [Updated(k)];
        }
      }
    }

    method Remove(k: Key, quiet: bool, sentItems: bool)
      modifies this`emails, this`emitted
      ensures emails == old(emails) - {k}
      ensures emitted == old(emitted) + if quiet then [] else NewsOf(old(emails), Drop(k), sentItems)
      ensures emitted == if quiet then old(emitted) else old(emitted) + [Deleted(k)]
    {
      emails := emails - {k};
      if !quiet {
        emitted := emitted + [Deleted(k)];
      }
    }
  }

  function Min(a: nat, b: nat): nat {
    if a < b then a else b
  }

  // ------------------------------------- the mirror with insertion times aside

  /** Everything but stored_at, which records when a row was first seen. */
  function View(m: Emails): Emails {
    map k | k in m :: m[k].(storedAt := 0)
  }

  /** Two mirrors look alike when they hold the same rows but for the insertion times. */
  lemma ViewsAgree(a: Emails, b: Emails)
    ensures View(a) == View(b) <==>
      a.Keys == b.Keys && forall k | k in a ::
        a[k].content == b[k].content && a[k].meta == b[k].meta && a[k].evictedAt == b[k].evictedAt
  {
    if View(a) == View(b) {
      assert View(a).Keys == a.Keys && View(b).Keys == b.Keys;
      forall k | k in a
        ensures a[k].content == b[k].content && a[k].meta == b[k].meta && a[k].evictedAt == b[k].evictedAt
      {
        assert View(a)[k] == View(b)[k];
      }
    }
  }

  lemma ViewWrite(m: Emails, w: Write, now: int)
    ensures View(Write1(m, w, now)) == Write1(View(m), w, 0)
  {
  }

  lemma {:induction false} ViewUpto(m: Emails, ws: seq<Write>, n: nat, now: int)
    requires n <= |ws|
    ensures View(Upto(m, ws, n, now)) == Upto(View(m), ws, n, 0)
  {
    if n > 0 {
      ViewUpto(m, ws, n - 1, now);
      ViewWrite(Upto(m, ws, n - 1, now), ws[n - 1], now);
    }
  }

  // ------------------------------------------- the net effect of writes on a key

  /** What a sequence of writes does to one key: nothing, merge an email into it, remove it,
      or remove it and put an email in its place. */
  datatype Effect = Nothing | Merge(email: Email) | Gone | Fresh(email: Email)

  /** Two upserts as one. */
  function Joined(a: Email, b: Email): Email {
    Email(b.content.(body := Keep(a.content.body, b.content.body, ""),
                     bodyType := Keep(a.content.bodyType, b.content.bodyType, ""),
                     attachments := Keep(a.content.attachments, b.content.attachments, "[]")),
          b.meta)
  }

  function Then(a: Effect, b: Effect): Effect {
    match b
    case Nothing => a
    case Gone => Gone
    case Fresh(_) => b
    case Merge(e) =>
      match a
      case Nothing => b
      case Merge(d) => Merge(Joined(d, e))
      case Gone => Fresh(e)
      case Fresh(d) => Fresh(Joined(d, e))
  }

  function EffectOf(w: Write, k: Key): Effect {
    if w.key != k then Nothing else match w case Put(_, e) => Merge(e) case Drop(_) => Gone
  }

  /** The net effect on k of the writes from lo up to hi. */
  function Net(ws: seq<Write>, lo: nat, hi: nat, k: Key): Effect
    requires lo <= hi <= |ws|
  {
    if lo == hi then Nothing else Then(Net(ws, lo, hi - 1, k), EffectOf(ws[hi - 1], k))
  }

  function Act(f: Effect, held: Option<EmailRow>): Option<EmailRow> {
    match f
    case Nothing => held
    case Gone => None
    case Fresh(e) => Some(EmailRow(e.content, e.meta, 0, None))
    case Merge(e) =>
      if held.None? then Some(EmailRow(e.content, e.meta, 0, None))
      else Some(EmailRow(MergedContent(held.value, e.content), e.meta, held.value.storedAt, held.value.evictedAt))
  }

  function At(m: Emails, k: Key): Option<EmailRow> {
    if k in m then Some(m[k]) else None
  }

  lemma ActThen(a: Effect, b: Effect, held: Option<EmailRow>)
    ensures Act(Then(a, b), held) == Act(b, Act(a, held))
  {
  }

  lemma ThenAssociates(a: Effect, b: Effect, c: Effect)
    ensures Then(Then(a, b), c) == Then(a, Then(b, c))
  {
  }

  /** Writing through the table is acting with the net effect, key by key. */
  lemma {:induction false} NetActs(m: Emails, ws: seq<Write>, n: nat, k: Key)
    requires n <= |ws|
    ensures At(Upto(m, ws, n, 0), k) == Act(Net(ws, 0, n, k), At(m, k))
  {
    if n > 0 {
      NetActs(m, ws, n - 1, k);
      ActThen(Net(ws, 0, n - 1, k), EffectOf(ws[n - 1], k), At(m, k));
    }
  }

  lemma {:induction false} NetSplits(ws: seq<Write>, lo: nat, mid: nat, hi: nat, k: Key)
    requires lo <= mid <= hi <= |ws|
    ensures Net(ws, lo, hi, k) == Then(Net(ws, lo, mid, k), Net(ws, mid, hi, k))
  {
    if mid < hi {
      NetSplits(ws, lo, mid, hi - 1, k);
      ThenAssociates(Net(ws, lo, mid, k), Net(ws, mid, hi - 1, k), EffectOf(ws[hi - 1], k));
    }
  }

  lemma {:induction false} NetOfPuts(ws: seq<Write>, lo: nat, hi: nat, k: Key)
    requires lo <= hi <= |ws|
    requires forall i | lo <= i < hi :: ws[i].Put? || ws[i].key != k
    ensures Net(ws, lo, hi, k).Nothing? || Net(ws, lo, hi, k).Merge?
  {
    if lo < hi { NetOfPuts(ws, lo, hi - 1, k); }
  }

  lemma {:induction false} NetOfDrops(ws: seq<Write>, lo: nat, hi: nat, at: nat, k: Key)
    requires lo <= at < hi <= |ws| && ws[at] == Drop(k)
    requires forall i | lo <= i < hi :: ws[i].Drop?
    ensures Net(ws, lo, hi, k) == Gone
  {
    if at < hi - 1 { NetOfDrops(ws, lo, hi - 1, at, k); }
  }

  /** On every key, a prefix of a round followed by the round is the round. */
  lemma PrefixAbsorbed(r: Round, n: nat, k: Key)
    requires n <= |Writes(r)|
    ensures var ws := Writes(r);
            Then(Net(ws, 0, n, k), Net(ws, 0, |ws|, k)) == Net(ws, 0, |ws|, k)
  {
    var ws := Writes(r);
    if i: nat :| i < |ws| && ws[i] == Drop(k) {
      NetSplits(ws, 0, |r.changed|, |ws|, k);
      NetOfDrops(ws, |r.changed|, |ws|, i, k);
    } else {
      NetOfPuts(ws, 0, n, k);
      NetSplits(ws, 0, n, |ws|, k);
      var p := Net(ws, 0, n, k);
      assert Then(p, p) == p;
      ThenAssociates(p, p, Net(ws, n, |ws|, k));
    }
  }

  /** A crash or an error anywhere in a round, then the round again, leaves the mirror the
      round alone leaves, whatever the mirror held and whatever was evicted in it. */
  lemma ReplayAfterPrefix(m: Emails, r: Round, n: nat, t1: int, t2: int, t3: int)
    requires n <= |Writes(r)|
    ensures View(WriteAll(Upto(m, Writes(r), n, t1), Writes(r), t2)) == View(WriteAll(m, Writes(r), t3))
  {
    var ws := Writes(r);
    var base := View(m);
    ViewUpto(m, ws, n, t1);
    ViewUpto(Upto(m, ws, n, t1), ws, |ws|, t2);
    ViewUpto(m, ws, |ws|, t3);
    var mid := Upto(base, ws, n, 0);
    forall k
      ensures At(WriteAll(mid, ws, 0), k) == At(WriteAll(base, ws, 0), k)
    {
      NetActs(base, ws, n, k);
      NetActs(mid, ws, |ws|, k);
      NetActs(base, ws, |ws|, k);
      ActThen(Net(ws, 0, n, k), Net(ws, 0, |ws|, k), At(base, k));
      PrefixAbsorbed(r, n, k);
    }
    SameEverywhere(WriteAll(mid, ws, 0), WriteAll(base, ws, 0));
  }

  lemma SameEverywhere(a: Emails, b: Emails)
    requires forall k :: At(a, k) == At(b, k)
    ensures a == b
  {
    forall k
      ensures k in a <==> k in b
      ensures k in a ==> a[k] == b[k]
    {
      assert At(a, k) == At(b, k);
    }
  }

  // --------------------------------------------- the cursor and the mirror

  /** What happens to a scope: an attempt at the round the cursor points at stops after n writes,
      or completes and moves the cursor, unless the provider answered without one: then the same
      cursor is asked about again; and between attempts content is evicted, and rows of other
      scopes come, change and go. */
  datatype Event =
    | Stops(n: nat, now: int)
    | Completes(now: int)
    | Evicts(key: Key, at: int)
    | Elsewhere(key: Key, row: Option<EmailRow>)

  datatype Sync = Sync(position: nat, mirror: Emails)

  function Evicted(m: Emails, k: Key, at: int): Emails {
    if k in m then m[k := EvictedEmail(m[k], at)] else m
  }

  /** The row of a key as another scope leaves it. */
  function Left(m: Emails, k: Key, row: Option<EmailRow>): Emails {
    if row.Some? then m[k := row.value] else m - {k}
  }

  /** An eviction empties that one row, and another scope's write leaves that one row. */
  lemma OneRow(m: Emails, k: Key, at: int, row: Option<EmailRow>)
    ensures forall j | j != k :: At(Evicted(m, k, at), j) == At(m, j) && At(Left(m, k, row), j) == At(m, j)
    ensures k in Evicted(m, k, at) <==> k in m
    ensures k in m ==> EmptiedAt(m[k], Evicted(m, k, at)[k], at)
    ensures At(Left(m, k, row), k) == row
  {
  }

  /** Some round of this scope writes the key. */
  predicate Touches(r: Round, k: Key) {
    exists w | w in Writes(r) :: w.key == k
  }

  /** Other scopes keep to keys this one's rounds do not write. */
  ghost predicate KeepsApart(log: seq<Round>, events: seq<Event>) {
    forall e, r | e in events && e.Elsewhere? && r in log :: !Touches(r, e.key)
  }

  function Happened(log: seq<Round>, s: Sync, e: Event): (s': Sync)
    requires s.position <= |log|
    ensures s'.position <= |log|
  {
    if e.Evicts? then s.(mirror := Evicted(s.mirror, e.key, e.at))
    else if e.Elsewhere? then s.(mirror := Left(s.mirror, e.key, e.row))
    else if s.position == |log| then s
    else
      var r := log[s.position];
      match e
      case Stops(n, now) => s.(mirror := Upto(s.mirror, Writes(r), Min(n, |Writes(r)|), now))
      case Completes(now) =>
        Sync(s.position + if r.cursor != "" then 1 else 0, WriteAll(s.mirror, Writes(r), now))
      case _ => s
  }

  function After(log: seq<Round>, start: Emails, events: seq<Event>): (s: Sync)
    ensures s.position <= |log|
  {
    if events == [] then Sync(0, start)
    else Happened(log, After(log, start, events[..|events| - 1]), events[|events| - 1])
  }

  /** The mirror with round n, if there is one, applied once. */
  function Finished(log: seq<Round>, m: Emails, n: nat): Emails {
    if n < |log| then WriteAll(m, Writes(log[n]), 0) else m
  }

  /** The mirror that every round so far and the one in progress make, each applied once and
      without failure, with what was evicted on the way evicted and the other scopes' rows. */
  function Once(log: seq<Round>, start: Emails, events: seq<Event>): Emails {
    if events == [] then Finished(log, View(start), 0)
    else
      var before := events[..|events| - 1];
      var s, m := After(log, start, before), Once(log, start, before);
      match events[|events| - 1]
      case Stops(_, _) => m
      case Completes(_) =>
        if s.position < |log| && log[s.position].cursor != "" then Finished(log, m, s.position + 1) else m
      case Evicts(k, at) => if k in s.mirror then Evicted(m, k, at) else m
      case Elsewhere(k, row) => View(Left(m, k, row))
  }

  lemma CompletesRound(m: Emails, r: Round, now: int)
    ensures View(WriteAll(m, Writes(r), now)) == WriteAll(View(m), Writes(r), 0)
  {
    ViewUpto(m, Writes(r), |Writes(r)|, now);
  }

  lemma StopsInRound(m: Emails, r: Round, n: nat, now: int)
    requires n <= |Writes(r)|
    ensures WriteAll(View(Upto(m, Writes(r), n, now)), Writes(r), 0) == WriteAll(View(m), Writes(r), 0)
  {
    ReplayAfterPrefix(m, r, n, now, 0, 0);
    ViewUpto(Upto(m, Writes(r), n, now), Writes(r), |Writes(r)|, 0);
    ViewUpto(m, Writes(r), |Writes(r)|, 0);
  }

  /** Removals come last in a round, so it never puts back what it removes. */
  lemma RoundNeverPutsBack(r: Round, k: Key)
    ensures !Net(Writes(r), 0, |Writes(r)|, k).Fresh?
  {
    var ws := Writes(r);
    if i: nat :| i < |ws| && ws[i] == Drop(k) {
      NetSplits(ws, 0, |r.changed|, |ws|, k);
      NetOfDrops(ws, |r.changed|, |ws|, i, k);
    } else {
      NetOfPuts(ws, 0, |ws|, k);
    }
  }

  /** Evicting a held row and finishing the round is finishing the round and evicting the row. */
  lemma EvictsInRound(m: Emails, r: Round, k: Key, at: int)
    requires k in m
    ensures WriteAll(Evicted(m, k, at), Writes(r), 0) == Evicted(WriteAll(m, Writes(r), 0), k, at)
  {
    var ws := Writes(r);
    forall j
      ensures At(WriteAll(Evicted(m, k, at), ws, 0), j) == At(Evicted(WriteAll(m, ws, 0), k, at), j)
    {
      NetActs(Evicted(m, k, at), ws, |ws|, j);
      NetActs(m, ws, |ws|, j);
      RoundNeverPutsBack(r, j);
    }
    SameEverywhere(WriteAll(Evicted(m, k, at), ws, 0), Evicted(WriteAll(m, ws, 0), k, at));
  }

  lemma {:induction false} NetUntouched(ws: seq<Write>, n: nat, k: Key)
    requires n <= |ws| && forall w | w in ws :: w.key != k
    ensures Net(ws, 0, n, k) == Nothing
  {
    if n > 0 { NetUntouched(ws, n - 1, k); }
  }

  lemma ElsewhereInRound(m: Emails, r: Round, k: Key, row: Option<EmailRow>)
    requires !Touches(r, k)
    ensures WriteAll(Left(m, k, row), Writes(r), 0) == Left(WriteAll(m, Writes(r), 0), k, row)
  {
    var ws := Writes(r);
    NetUntouched(ws, |ws|, k);
    forall j
      ensures At(WriteAll(Left(m, k, row), ws, 0), j) == At(Left(WriteAll(m, ws, 0), k, row), j)
    {
      NetActs(Left(m, k, row), ws, |ws|, j);
      NetActs(m, ws, |ws|, j);
    }
    SameEverywhere(WriteAll(Left(m, k, row), ws, 0), Left(WriteAll(m, ws, 0), k, row));
  }

  /** Finishing the round the cursor points at gives that mirror. */
  predicate InStep(log: seq<Round>, s: Sync, once: Emails) {
    Finished(log, View(s.mirror), s.position) == once
  }

  lemma EvictsInStep(log: seq<Round>, s: Sync, once: Emails, k: Key, at: int)
    requires InStep(log, s, once) && k in s.mirror
    ensures InStep(log, s.(mirror := Evicted(s.mirror, k, at)), Evicted(once, k, at))
  {
    assert View(Evicted(s.mirror, k, at)) == Evicted(View(s.mirror), k, at);
    if s.position < |log| { EvictsInRound(View(s.mirror), log[s.position], k, at); }
  }

  function ViewRow(row: Option<EmailRow>): Option<EmailRow> {
    if row.Some? then Some(row.value.(storedAt := 0)) else None
  }

  lemma ElsewhereInStep(log: seq<Round>, s: Sync, once: Emails, k: Key, row: Option<EmailRow>)
    requires InStep(log, s, once) && forall r | r in log :: !Touches(r, k)
    requires View(once) == once
    ensures InStep(log, s.(mirror := Left(s.mirror, k, row)), View(Left(once, k, row)))
  {
    assert View(Left(s.mirror, k, row)) == Left(View(s.mirror), k, ViewRow(row));
    assert View(Left(once, k, row)) == Left(once, k, ViewRow(row));
    if s.position < |log| { ElsewhereInRound(View(s.mirror), log[s.position], k, ViewRow(row)); }
  }

  /** What is made of rows without insertion times has none. */
  lemma InStepIsViewed(log: seq<Round>, s: Sync, once: Emails)
    requires InStep(log, s, once)
    ensures View(once) == once
  {
    assert View(View(s.mirror)) == View(s.mirror);
    if s.position < |log| {
      var ws := Writes(log[s.position]);
      ViewUpto(View(s.mirror), ws, |ws|, 0);
    }
  }

  /** An attempt. A completed round is in the mirror in full, with a new cursor or without. */
  lemma AttemptInStep(log: seq<Round>, s: Sync, once: Emails, e: Event)
    requires s.position < |log| && InStep(log, s, once) && (e.Stops? || e.Completes?)
    ensures var s' := Happened(log, s, e);
      && (s'.position == s.position ==> InStep(log, s', once))
      && (e.Completes? ==> View(s'.mirror) == once)
  {
    var r := log[s.position];
    match e
    case Stops(n, now) => StopsInRound(s.mirror, r, Min(n, |Writes(r)|), now);
    case Completes(now) =>
      CompletesRound(s.mirror, r, now);
      StopsInRound(s.mirror, r, |Writes(r)|, now);
  }

  /** Over any run of attempts, failed or not, with evictions and other scopes' writes between
      them: every round behind the cursor is in the mirror in full, what is in flight is a part
      of the next round only, and finishing that round from here gives exactly the mirror of
      applying each round once, with what was evicted evicted and the other scopes' rows. When
      the last attempt completed its round, whether or not the provider gave a new cursor,
      nothing is in flight. */
  lemma {:induction false} CursorNeverAhead(log: seq<Round>, start: Emails, events: seq<Event>)
    requires KeepsApart(log, events)
    ensures InStep(log, After(log, start, events), Once(log, start, events))
    ensures events != [] && events[|events| - 1].Completes? ==>
      var before := events[..|events| - 1];
      After(log, start, before).position < |log| ==> View(After(log, start, events).mirror) == Once(log, start, before)
  {
    if events != [] {
      var before, e := events[..|events| - 1], events[|events| - 1];
      CursorNeverAhead(log, start, before);
      var s, once := After(log, start, before), Once(log, start, before);
      if e.Evicts? {
        if e.key in s.mirror { EvictsInStep(log, s, once, e.key, e.at); }
      } else if e.Elsewhere? {
        assert e in events;
        InStepIsViewed(log, s, once);
        ElsewhereInStep(log, s, once, e.key, e.row);
      } else if s.position < |log| {
        AttemptInStep(log, s, once, e);
      }
    }
  }

  /** The mirror the first n rounds make, applied once each. */
  function Whole(log: seq<Round>, start: Emails, n: nat): Emails
    requires n <= |log|
  {
    if n == 0 then View(start) else WriteAll(Whole(log, start, n - 1), Writes(log[n - 1]), 0)
  }

  predicate IsWhole(log: seq<Round>, start: Emails, position: nat, m: Emails)
    requires position <= |log|
  {
    m == Whole(log, start, if position < |log| then position + 1 else position)
  }

  lemma FinishedIsWhole(log: seq<Round>, start: Emails, n: nat)
    requires n <= |log|
    ensures IsWhole(log, start, n, Finished(log, Whole(log, start, n), n))
  {
  }

  /** With nothing in between that is simply each round once. */
  lemma {:induction false} OnceIsWhole(log: seq<Round>, start: Emails, events: seq<Event>)
    requires forall e | e in events :: e.Stops? || e.Completes?
    ensures IsWhole(log, start, After(log, start, events).position, Once(log, start, events))
  {
    if events == [] {
      FinishedIsWhole(log, start, 0);
    } else {
      var before, e := events[..|events| - 1], events[|events| - 1];
      OnceIsWhole(log, start, before);
      assert e in events;
      var s := After(log, start, before);
      if e.Completes? && s.position < |log| { FinishedIsWhole(log, start, s.position + 1); }
    }
  }

  // ------------------------------------------------------------ no second news

  /** How often news announces k as a new message. */
  function NewFor(news: seq<News>, k: Key): nat {
    TallyOf(news, k).received + TallyOf(news, k).sent
  }

  lemma {:induction false} NewForBoth(a: seq<News>, b: seq<News>, k: Key)
    ensures NewFor(a + b, k) == NewFor(a, k) + NewFor(b, k)
  {
    if b == [] {
      assert a + b == a;
    } else {
      assert (a + b)[..|a + b| - 1] == a + b[..|b| - 1];
      NewForBoth(a, b[..|b| - 1], k);
    }
  }

  /** Writes that never drop k announce it at most once, and not at all when it is held before
      them; afterwards an announced k is held. */
  lemma {:induction false} NewAtMostOnce(held: bool, ws: seq<Write>, n: nat, sentItems: bool, k: Key)
    requires n <= |ws| && forall i | 0 <= i < n :: ws[i] != Drop(k)
    ensures var t := TallyBy(held, ws, n, sentItems, k);
      && t.received + t.sent <= (if held then 0 else 1)
      && (held || t.received + t.sent > 0 ==> HeldBy(held, ws, n, k))
  {
    if n > 0 { NewAtMostOnce(held, ws, n - 1, sentItems, k); }
  }

  lemma NewsAtMostOnce(m: Emails, ws: seq<Write>, n: nat, now: int, sentItems: bool, k: Key)
    requires n <= |ws| && forall i | 0 <= i < n :: ws[i] != Drop(k)
    ensures NewFor(NewsUpto(m, ws, n, now, sentItems), k) <= if k in m then 0 else 1
    ensures k in m || NewFor(NewsUpto(m, ws, n, now, sentItems), k) > 0 ==> k in Upto(m, ws, n, now)
  {
    NewAtMostOnce(k in m, ws, n, sentItems, k);
    TallyIs(m, ws, n, now, sentItems, k);
    HeldIs(m, ws, n, now, k);
  }

  /** One attempt at a round: how many of its writes go through, when, and whether events are
      suppressed in it. */
  datatype Try = Try(writes: nat, now: int, quiet: bool)

  function MirrorAfter(m: Emails, r: Round, tries: seq<Try>): Emails {
    if tries == [] then m
    else
      var t := tries[|tries| - 1];
      Upto(MirrorAfter(m, r, tries[..|tries| - 1]), Writes(r), Min(t.writes, |Writes(r)|), t.now)
  }

  function NewsAfter(m: Emails, r: Round, tries: seq<Try>, sentItems: bool): seq<News> {
    if tries == [] then []
    else
      var t, before := tries[|tries| - 1], tries[..|tries| - 1];
      NewsAfter(m, r, before, sentItems) +
      if t.quiet then []
      else NewsUpto(MirrorAfter(m, r, before), Writes(r), Min(t.writes, |Writes(r)|), t.now, sentItems)
  }

  /** A message a round does not remove is announced at most once over any number of attempts at
      it, and never when the mirror held it before the first. */
  lemma {:induction false} NoSecondNews(m: Emails, r: Round, tries: seq<Try>, sentItems: bool, k: Key)
    requires k !in r.removed
    ensures NewFor(NewsAfter(m, r, tries, sentItems), k) <= if k in m then 0 else 1
    ensures k in m || NewFor(NewsAfter(m, r, tries, sentItems), k) > 0 ==> k in MirrorAfter(m, r, tries)
  {
    if tries != [] {
      var t, before := tries[|tries| - 1], tries[..|tries| - 1];
      var ws, mid := Writes(r), MirrorAfter(m, r, before);
      var n := Min(t.writes, |ws|);
      assert forall i | 0 <= i < |ws| :: ws[i] != Drop(k);
      NoSecondNews(m, r, before, sentItems, k);
      NewsAtMostOnce(mid, ws, n, t.now, sentItems, k);
      NewForBoth(NewsAfter(m, r, before, sentItems),
                 if t.quiet then [] else NewsUpto(mid, ws, n, t.now, sentItems), k);
    }
  }

  /** The first try that comes as far as the round's f-th upsert. */
  predicate FirstToReach(r: Round, tries: seq<Try>, f: nat, i: nat) {
    && i < |tries| && f < |r.changed|
    && tries[i].writes > f && forall j | 0 <= j < i :: tries[j].writes <= f
  }

  lemma {:induction false} TimesIsFirst(r: Round, k: Key, f: nat, c: nat)
    requires FirstUpsert(r, k, f) && c <= |r.changed|
    ensures Times(KeysOf(r.changed), c, k) > 0 <==> c > f
  {
    if c > f + 1 {
      TimesIsFirst(r, k, f, c - 1);
    } else if c <= f {
      TimesGrow(KeysOf(r.changed), c, f, k);
    }
  }

  /** One try on a mirror that does not hold k announces it exactly when it comes as far as k's first
      upsert and that one is news. */
  lemma OneTryAnnounces(m: Emails, r: Round, n: nat, now: int, sentItems: bool, k: Key, f: nat)
    requires n <= |Writes(r)| && k !in m && k !in r.removed && FirstUpsert(r, k, f)
    ensures NewFor(NewsUpto(m, Writes(r), n, now, sentItems), k) ==
      (if n > f && (sentItems || !r.changed[f].1.meta.draft) then 1 else 0)
    ensures k in Upto(m, Writes(r), n, now) <==> n > f
  {
    var ws, c := Writes(r), Min(n, |r.changed|);
    WritesSpelled(r);
    TallyIs(m, ws, n, now, sentItems, k);
    TallyTold(false, r, n, sentItems, k, ws, TallyBy(false, ws, n, sentItems, k));
    TimesIsFirst(r, k, f, c);
    OnlyFirst(r, k, f, c);
    KeyStands(m, r, n, now, k, ws, Upto(m, ws, n, now));
    InKeys(r, k, c);
  }

  lemma OnlyFirst(r: Round, k: Key, f: nat, c: nat)
    requires FirstUpsert(r, k, f) && c <= |r.changed|
    ensures FirstIsNoDraft(r, c, k) <==> c > f && !r.changed[f].1.meta.draft
  {
    forall g | 0 <= g < c && FirstUpsert(r, k, g)
      ensures g == f
    {
      if g < f { TimesGrow(KeysOf(r.changed), g + 1, f, k); }
      if f < g { TimesGrow(KeysOf(r.changed), f + 1, g, k); }
    }
  }

  lemma InKeys(r: Round, k: Key, c: nat)
    requires c <= |r.changed|
    ensures k in KeysOf(r.changed)[..c] <==> Times(KeysOf(r.changed), c, k) > 0
  {
    TimesCounts(KeysOf(r.changed), c, k);
  }

  /** What the last of the tries adds. */
  lemma LastTry(m: Emails, r: Round, tries: seq<Try>, sentItems: bool, k: Key, f: nat)
    requires tries != [] && k !in r.removed && FirstUpsert(r, k, f)
    ensures var t, before := tries[|tries| - 1], tries[..|tries| - 1];
      var held := k in MirrorAfter(m, r, before);
      && (k in MirrorAfter(m, r, tries) <==> held || t.writes > f)
      && NewFor(NewsAfter(m, r, tries, sentItems), k) == NewFor(NewsAfter(m, r, before, sentItems), k) +
           (if !t.quiet && !held && t.writes > f && (sentItems || !r.changed[f].1.meta.draft) then 1 else 0)
  {
    var t, before := tries[|tries| - 1], tries[..|tries| - 1];
    var mid, n := MirrorAfter(m, r, before), Min(t.writes, |Writes(r)|);
    WritesSpelled(r);
    var news := NewsUpto(mid, Writes(r), n, t.now, sentItems);
    NewForBoth(NewsAfter(m, r, before, sentItems), if t.quiet then [] else news, k);
    if k in mid {
      assert forall i | 0 <= i < |Writes(r)| :: Writes(r)[i] != Drop(k);
      NewsAtMostOnce(mid, Writes(r), n, t.now, sentItems, k);
    } else {
      OneTryAnnounces(mid, r, n, t.now, sentItems, k, f);
    }
  }

  predicate Reached(tries: seq<Try>, f: nat) {
    exists i | 0 <= i < |tries| :: tries[i].writes > f
  }

  /** The first try to come so far is not quiet. */
  ghost predicate ReachedAloud(r: Round, tries: seq<Try>, f: nat) {
    exists i: nat :: FirstToReach(r, tries, f, i) && !tries[i].quiet
  }

  lemma OneTryMore(r: Round, tries: seq<Try>, f: nat)
    requires tries != [] && f < |r.changed|
    ensures var t, before := tries[|tries| - 1], tries[..|tries| - 1];
      && (Reached(tries, f) <==> Reached(before, f) || t.writes > f)
      && (ReachedAloud(r, tries, f) <==> ReachedAloud(r, before, f) || (!Reached(before, f) && t.writes > f && !t.quiet))
      && (ReachedAloud(r, before, f) ==> Reached(before, f))
  {
    var last, before := |tries| - 1, tries[..|tries| - 1];
    assert forall i | 0 <= i < last :: before[i] == tries[i];
    forall i: nat | i < last
      ensures FirstToReach(r, before, f, i) <==> FirstToReach(r, tries, f, i)
    {
    }
    if Reached(before, f) {
      var i :| 0 <= i < last && before[i].writes > f;
      assert tries[i].writes > f && !FirstToReach(r, tries, f, last);
    } else if tries[last].writes > f {
      assert forall i | 0 <= i < last :: before[i].writes <= f;
      assert FirstToReach(r, tries, f, last);
    }
  }

  /** A new message a round brings is announced over the attempts at it exactly once when the first
      attempt to come as far as its first upsert is not quiet, unless that upsert is a draft outside
      Sent Items; and never otherwise. */
  lemma {:induction false} NewsExactly(m: Emails, r: Round, tries: seq<Try>, sentItems: bool, k: Key, f: nat)
    requires k !in m && k !in r.removed && FirstUpsert(r, k, f)
    ensures NewFor(NewsAfter(m, r, tries, sentItems), k) ==
      if ReachedAloud(r, tries, f) && (sentItems || !r.changed[f].1.meta.draft) then 1 else 0
    ensures k in MirrorAfter(m, r, tries) <==> Reached(tries, f)
  {
    if tries != [] {
      NewsExactly(m, r, tries[..|tries| - 1], sentItems, k, f);
      LastTry(m, r, tries, sentItems, k, f);
      OneTryMore(r, tries, f);
    }
  }
}
