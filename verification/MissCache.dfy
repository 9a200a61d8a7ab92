/** The negative cache: a concurrent map and an atomic counter that only agree when nobody
    is in the middle of a call. First the calls on their own, then any number of them
    interleaved one atomic operation at a time. */
module MissCache {

  type Key = string

  const TTL: int := 60_000_000_000
  const SWEEP_EVERY: nat := 1000
  const MAX_ENTRIES: nat := 10000

  /** What a sweep of a full cache and one key more leaves overflowing had nothing expired in it. */
  lemma AllUnexpired(before: map<Key, int>, swept: map<Key, int>, key: Key, now: int)
    requires |before| <= 10000 < |swept|
    requires forall k | k in swept :: k == key || (k in before && now <= before[k])
    ensures forall k | k in before :: now <= before[k]
    ensures |before| == 10000 && key !in before
  {
    var all := before.Keys + {key};
    SubsetCard(swept.Keys, all);
    assert |all| <= |before.Keys| + 1;
    assert all == swept.Keys + (all - swept.Keys) && |all - swept.Keys| == 0;
    assert all == swept.Keys;
    assert key !in before && forall k | k in before :: k in swept;
  }

  lemma SubsetCard(a: set<Key>, b: set<Key>)
    requires a <= b
    ensures |a| <= |b|
  {
    assert b == a + (b - a);
  }

  // ------------------------------------------------------------ one caller

  class Cache {
    var entries: map<Key, int>
    var calls: nat
    var count: int

    ghost predicate Valid()
      reads this
    {
      count == |entries|
    }

    constructor ()
      ensures Valid() && entries == map[] && calls == 0
    {
      entries, calls, count := map[], 0, 0;
    }

    /** True exactly for a remembered miss that has not expired; a stale one is dropped. */
    method Hit(key: Key, now: int) returns (hit: bool)
      requires Valid()
      modifies this
      ensures Valid()
      ensures hit <==> key in old(entries) && now <= old(entries)[key]
      ensures entries == if hit then old(entries) else old(entries) - {key}
    {
      if key !in entries {
        assert entries - {key} == entries;
        return false;
      }
      if now > entries[key] {
        Delete(key);
        return false;
      }
      return true;
    }

    method Remember(key: Key, now: int)
      requires Valid() && |entries| <= MAX_ENTRIES
      modifies this
      ensures Valid() && |entries| <= MAX_ENTRIES && calls == old(calls) + 1
      ensures forall k | k in entries :: k == key || (k in old(entries) && entries[k] == old(entries)[k])
      // A miss is remembered for a minute.
      ensures key in entries ==> entries[key] == now + 60_000_000_000
      // Every thousandth call, and one that overflows the cache, drops what has expired; another drops nothing.
      ensures calls % 1000 == 0 || (key !in old(entries) && |old(entries)| == 10000) ==>
        forall k | k in entries :: now <= entries[k]
      ensures calls % 1000 != 0 && (key in old(entries) || |old(entries)| < 10000) ==>
        entries == old(entries)[key := now + 60_000_000_000]
      // Nothing unexpired is given up unless the unexpired alone overflow it.
      ensures key in old(entries) || |old(entries)| < 10000 || (exists k | k in old(entries) :: now > old(entries)[k]) ==>
        key in entries && forall k | k in old(entries) && k != key && now <= old(entries)[k] :: k in entries
    {
      var hadKey := key in entries;
      SwapSize(entries, key, now + TTL);
      entries := entries[key := now + TTL];
      if !hadKey {
        count := count + 1;
      }
      calls := calls + 1;
      if calls % SWEEP_EVERY == 0 {
        Sweep(now);
      }
      if count > MAX_ENTRIES {
        Sweep(now);
        if count > MAX_ENTRIES {
          AllUnexpired(old(entries), entries, key, now);
          EvictExcess();
        }
      }
    }

    method Delete(key: Key)
      requires Valid()
      modifies this`entries, this`count
      ensures Valid() && entries == old(entries) - {key} && count <= old(count)
    {
      if key in entries {
        entries := entries - {key};
        count := count - 1;
      }
    }

    method Sweep(now: int)
      requires Valid()
      modifies this`entries, this`count
      ensures Valid() && count <= old(count)
      ensures entries == map k | k in old(entries) && now <= old(entries)[k] :: old(entries)[k]
    {
      var left := entries.Keys;
      while left != {}
        invariant Valid() && count <= old(count) && left <= entries.Keys <= old(entries).Keys
        invariant forall k | k in entries :: entries[k] == old(entries)[k] && (k in left || now <= entries[k])
        invariant forall k | k in old(entries) && now <= old(entries)[k] :: k in entries
        decreases left
      {
        var k :| k in left;
        left := left - {k};
        if now > entries[k] {
          Delete(k);
        }
      }
    }

    method EvictExcess()
      requires Valid()
      modifies this`entries, this`count
      ensures Valid() && |entries| <= MAX_ENTRIES
      ensures forall k | k in entries :: k in old(entries) && entries[k] == old(entries)[k]
      ensures |old(entries)| <= MAX_ENTRIES ==> entries == old(entries)
      ensures |old(entries)| > MAX_ENTRIES ==> |entries| == MAX_ENTRIES
    {
      var left := entries.Keys;
      while left != {} && count > MAX_ENTRIES
        invariant Valid() && left == entries.Keys <= old(entries).Keys
        invariant |old(entries)| > MAX_ENTRIES ==> count >= MAX_ENTRIES
        invariant forall k | k in entries :: entries[k] == old(entries)[k]
        invariant |old(entries)| <= MAX_ENTRIES ==> entries == old(entries)
        decreases left
      {
        var k :| k in left;
        left := left - {k};
        assert |left| == |entries.Keys| - 1;
        Delete(k);
        assert entries.Keys == left;
      }
      if left == {} { assert entries.Keys == {}; }
    }
  }

  // ------------------------------------------------------- any number of callers

  type Thread = nat

  /** The call a sweep is part of goes on to one of the two loads of the counter. */
  datatype After = FirstLoad | SecondLoad

  /** Where a call stands between two atomic operations. must holds the keys an eviction's
      Range is still bound to visit: those in the map ever since the Range began. */
  datatype Pc =
    | HitStale(key: Key)
    | HitDecrement
    | Swapped
    | Counted
    | Sweeping(next: After)
    | SweepDelete(key: Key, next: After)
    | SweepDecrement(next: After)
    | Loading(next: After)
    | Evicting(must: set<Key>)
    | EvictDelete(key: Key, must: set<Key>)
    | EvictDecrement(must: set<Key>)

  datatype State = State(entries: map<Key, int>, calls: nat, count: int, threads: map<Thread, Pc>)

  datatype Action =
    | StaleHit(t: Thread, key: Key)
    | Swap(t: Thread, key: Key, expiry: int)
    | AddOne(t: Thread)
    | AddCall(t: Thread)
    | SweepVisit(t: Thread, key: Key)
    | SweepEnd(t: Thread)
    | Load(t: Thread)
    | EvictVisit(t: Thread, key: Key)
    | EvictEnd(t: Thread)
    | LoadAndDelete(t: Thread)
    | SubOne(t: Thread)

  const INIT: State := State(map[], 0, 0, map[])

  predicate Enabled(s: State, a: Action) {
    match a
    case StaleHit(t, k) => t !in s.threads && k in s.entries
    case Swap(t, _, _) => t !in s.threads
    case AddOne(t) => t in s.threads && s.threads[t].Swapped?
    case AddCall(t) => t in s.threads && s.threads[t].Counted?
    case SweepVisit(t, _) => t in s.threads && s.threads[t].Sweeping?
    case SweepEnd(t) => t in s.threads && s.threads[t].Sweeping?
    case Load(t) => t in s.threads && s.threads[t].Loading?
    case EvictVisit(t, _) => t in s.threads && s.threads[t].Evicting?
    case EvictEnd(t) => t in s.threads && s.threads[t].Evicting? && s.threads[t].must == {}
    case LoadAndDelete(t) =>
      t in s.threads && (s.threads[t].HitStale? || s.threads[t].SweepDelete? || s.threads[t].EvictDelete?)
    case SubOne(t) => t in s.threads && Decrements(s.threads[t])
  }

  predicate Decrements(pc: Pc) {
    pc.HitDecrement? || pc.SweepDecrement? || pc.EvictDecrement?
  }

  function At(s: State, t: Thread, pc: Pc): State {
    s.(threads := s.threads[t := pc])
  }

  function Done(s: State, t: Thread): State {
    s.(threads := s.threads - {t})
  }

  /** A key that leaves the map is no longer owed to any Range. */
  function Unowed(pc: Pc, k: Key): Pc {
    match pc
    case Evicting(must) => Evicting(must - {k})
    case EvictDelete(key, must) => EvictDelete(key, must - {k})
    case EvictDecrement(must) => EvictDecrement(must - {k})
    case _ => pc
  }

  function Removed(s: State, k: Key): State {
    s.(entries := s.entries - {k}, threads := map t | t in s.threads :: Unowed(s.threads[t], k))
  }

  /** LoadAndDelete: whoever finds the key removes it and owes the counter one. */
  function AfterDelete(s: State, t: Thread): State
    requires Enabled(s, LoadAndDelete(t))
  {
    var pc := s.threads[t];
    if pc.key in s.entries then
      var s' := Removed(s, pc.key);
      match pc
      case HitStale(_) => At(s', t, HitDecrement)
      case SweepDelete(_, next) => At(s', t, SweepDecrement(next))
      case EvictDelete(k, must) => At(s', t, EvictDecrement(must - {k}))
    else
      match pc
      case HitStale(_) => Done(s, t)
      case SweepDelete(_, next) => At(s, t, Sweeping(next))
      case EvictDelete(_, must) => At(s, t, Evicting(must))
  }

  function Do(s: State, a: Action): State
    requires Enabled(s, a)
  {
    match a
    case StaleHit(t, k) => At(s, t, HitStale(k))
    case Swap(t, k, expiry) =>
      At(s.(entries := s.entries[k := expiry]), t, if k in s.entries then Counted else Swapped)
    case AddOne(t) => At(s.(count := s.count + 1), t, Counted)
    case AddCall(t) =>
      At(s.(calls := s.calls + 1), t, if (s.calls + 1) % SWEEP_EVERY == 0 then Sweeping(FirstLoad) else Loading(FirstLoad))
    case SweepVisit(t, k) => At(s, t, SweepDelete(k, s.threads[t].next))
    case SweepEnd(t) => At(s, t, Loading(s.threads[t].next))
    case Load(t) =>
      if s.count <= MAX_ENTRIES then Done(s, t)
      else if s.threads[t].next.FirstLoad? then At(s, t, Sweeping(SecondLoad))
      else At(s, t, Evicting(s.entries.Keys))
    case EvictVisit(t, k) =>
      if s.count <= MAX_ENTRIES then Done(s, t) else At(s, t, EvictDelete(k, s.threads[t].must - {k}))
    case EvictEnd(t) => Done(s, t)
    case LoadAndDelete(t) => AfterDelete(s, t)
    case SubOne(t) =>
      var s' := s.(count := s.count - 1);
      match s.threads[t]
      case HitDecrement => Done(s', t)
      case SweepDecrement(next) => At(s', t, Sweeping(next))
      case EvictDecrement(must) => At(s', t, Evicting(must))
      case _ => s'
  }

  ghost predicate Run(states: seq<State>, actions: seq<Action>) {
    && |states| == |actions| + 1
    && states[0] == INIT
    && forall i | 0 <= i < |actions| :: Enabled(states[i], actions[i]) && states[i + 1] == Do(states[i], actions[i])
  }

  // ------------------------------------------------------------ what a step does

  /** A key comes with a swap and goes with a delete that finds it; the counter moves only when a caller
      that swapped in a new key, or took one out, comes to it. */
  lemma EntriesAfter(s: State, a: Action, k: Key)
    requires Enabled(s, a)
    ensures k in Do(s, a).entries <==>
      (a.Swap? && a.key == k) || (k in s.entries && !(a.LoadAndDelete? && s.threads[a.t].key == k))
    ensures k in Do(s, a).entries ==>
      Do(s, a).entries[k] == if a.Swap? && a.key == k then a.expiry else s.entries[k]
    ensures Do(s, a).count == s.count + (if a.AddOne? then 1 else if a.SubOne? then -1 else 0)
    ensures Do(s, a).calls == s.calls + (if a.AddCall? then 1 else 0)
  {
  }

  /** Where a step of a remembering call takes it: counted at once or by the next step, then a sweep every
      thousandth call, then the two loads of the counter, a sweep between them, an eviction after. */
  lemma RemembersOn(s: State, a: Action)
    requires Enabled(s, a) && (a.Swap? || a.AddOne? || a.AddCall? || a.Load? || a.SweepEnd?)
    ensures var ts := Do(s, a).threads;
      && (a.Swap? ==> a.t in ts && ts[a.t] == if a.key in s.entries then Counted else Swapped)
      && (a.AddOne? ==> a.t in ts && ts[a.t] == Counted)
      && (a.AddCall? ==>
            a.t in ts && ts[a.t] == if (s.calls + 1) % 1000 == 0 then Sweeping(FirstLoad) else Loading(FirstLoad))
      && (a.SweepEnd? ==> a.t in ts && ts[a.t] == Loading(s.threads[a.t].next))
      && (a.Load? && s.count <= 10000 ==> a.t !in ts)
      && (a.Load? && s.count > 10000 ==>
            && a.t in ts
            && ts[a.t] == if s.threads[a.t].next.FirstLoad? then Sweeping(SecondLoad) else Evicting(s.entries.Keys))
  {
  }

  /** A key visited is deleted next, and one that was there is then counted off; an eviction stops as soon
      as the counter is within the cap, and otherwise only when its Range has seen every key that has
      been there since it began. */
  lemma DeletesOn(s: State, a: Action)
    requires Enabled(s, a)
    requires a.StaleHit? || a.SweepVisit? || a.EvictVisit? || a.EvictEnd? || a.LoadAndDelete? || a.SubOne?
    ensures var ts := Do(s, a).threads;
      && (a.StaleHit? ==> a.t in ts && ts[a.t] == HitStale(a.key))
      && (a.SweepVisit? ==> a.t in ts && ts[a.t] == SweepDelete(a.key, s.threads[a.t].next))
      && (a.EvictVisit? && s.count <= 10000 ==> a.t !in ts)
      && (a.EvictVisit? && s.count > 10000 ==>
            a.t in ts && ts[a.t] == EvictDelete(a.key, s.threads[a.t].must - {a.key}))
      && (a.EvictEnd? ==> s.threads[a.t] == Evicting({}) && a.t !in ts)
      && (a.LoadAndDelete? ==>
            var pc, found := s.threads[a.t], s.threads[a.t].key in s.entries;
            if pc.HitStale? then if found then a.t in ts && ts[a.t] == HitDecrement else a.t !in ts
            else
              && a.t in ts
              && (pc.SweepDelete? ==> ts[a.t] == if found then SweepDecrement(pc.next) else Sweeping(pc.next))
              && (pc.EvictDelete? ==>
                    ts[a.t] == if found then EvictDecrement(pc.must - {pc.key}) else Evicting(pc.must)))
      && (a.SubOne? ==>
            var pc := s.threads[a.t];
            if pc.HitDecrement? then a.t !in ts
            else
              && a.t in ts
              && (pc.SweepDecrement? ==> ts[a.t] == Sweeping(pc.next))
              && (pc.EvictDecrement? ==> ts[a.t] == Evicting(pc.must)))
  {
  }

  /** Another caller stays where it is; a Range it is in need not see a key that went. */
  lemma OthersStay(s: State, a: Action, t: Thread)
    requires Enabled(s, a) && t != a.t
    ensures t in Do(s, a).threads <==> t in s.threads
    ensures t in s.threads ==>
      var pc, pc', gone := s.threads[t], Do(s, a).threads[t], if a.LoadAndDelete? then {s.threads[a.t].key} else {};
      if pc.Evicting? then pc' == Evicting(pc.must - gone) || (gone !! s.entries.Keys && pc' == pc)
      else if pc.EvictDelete? then pc' == EvictDelete(pc.key, pc.must - gone) || (gone !! s.entries.Keys && pc' == pc)
      else if pc.EvictDecrement? then pc' == EvictDecrement(pc.must - gone) || (gone !! s.entries.Keys && pc' == pc)
      else pc' == pc
  {
  }

  /** A call in progress can always go on. */
  lemma CallsGoOn(s: State, t: Thread, k: Key)
    requires t in s.threads
    ensures match s.threads[t]
      case HitStale(_) => Enabled(s, LoadAndDelete(t))
      case HitDecrement => Enabled(s, SubOne(t))
      case Swapped => Enabled(s, AddOne(t))
      case Counted => Enabled(s, AddCall(t))
      case Sweeping(_) => Enabled(s, SweepVisit(t, k)) && Enabled(s, SweepEnd(t))
      case SweepDelete(_, _) => Enabled(s, LoadAndDelete(t))
      case SweepDecrement(_) => Enabled(s, SubOne(t))
      case Loading(_) => Enabled(s, Load(t))
      case Evicting(must) => Enabled(s, EvictVisit(t, k)) && (Enabled(s, EvictEnd(t)) <==> must == {})
      case EvictDelete(_, _) => Enabled(s, LoadAndDelete(t))
      case EvictDecrement(_) => Enabled(s, SubOne(t))
  {
  }

  // ------------------------------------------------------------ the counter's law

  /** Callers that have put a key in the map and not counted it yet. */
  function Uncounted(threads: map<Thread, Pc>): set<Thread> {
    set t | t in threads && threads[t].Swapped?
  }

  /** Callers that have taken a key out and not uncounted it yet. */
  function Undiscounted(threads: map<Thread, Pc>): set<Thread> {
    set t | t in threads && Decrements(threads[t])
  }

  predicate CountLaw(s: State) {
    s.count == |s.entries| - |Uncounted(s.threads)| + |Undiscounted(s.threads)|
  }

  lemma AtUncounted(threads: map<Thread, Pc>, t: Thread, pc: Pc)
    ensures |Uncounted(threads[t := pc])| == |Uncounted(threads) - {t}| + if pc.Swapped? then 1 else 0
  {
    var after, others := Uncounted(threads[t := pc]), Uncounted(threads) - {t};
    if pc.Swapped? { assert after == others + {t}; } else { assert after == others; }
  }

  lemma AtUndiscounted(threads: map<Thread, Pc>, t: Thread, pc: Pc)
    ensures |Undiscounted(threads[t := pc])| == |Undiscounted(threads) - {t}| + if Decrements(pc) then 1 else 0
  {
    var after, others := Undiscounted(threads[t := pc]), Undiscounted(threads) - {t};
    if Decrements(pc) { assert after == others + {t}; } else { assert after == others; }
  }

  lemma DoneSets(threads: map<Thread, Pc>, t: Thread)
    ensures Uncounted(threads - {t}) == Uncounted(threads) - {t}
    ensures Undiscounted(threads - {t}) == Undiscounted(threads) - {t}
  {
  }

  lemma MinusOne<T>(s: set<T>, x: T)
    ensures |s - {x}| == |s| - if x in s then 1 else 0
  {
    if x !in s { assert s - {x} == s; }
  }

  lemma RemovedSets(s: State, k: Key)
    ensures Uncounted(Removed(s, k).threads) == Uncounted(s.threads)
    ensures Undiscounted(Removed(s, k).threads) == Undiscounted(s.threads)
    ensures |Removed(s, k).entries| == |s.entries| - if k in s.entries then 1 else 0
  {
    MinusOne(s.entries.Keys, k);
    assert Removed(s, k).entries.Keys == s.entries.Keys - {k};
  }

  /** What one caller owes the counter. */
  function Owes(threads: map<Thread, Pc>, t: Thread): int {
    if t !in threads then 0
    else if threads[t].Swapped? then 1
    else if Decrements(threads[t]) then -1
    else 0
  }

  /** Moving one caller moves the debts by the change in its own. */
  lemma OneMoves(before: map<Thread, Pc>, after: map<Thread, Pc>, t: Thread)
    requires after == before - {t} || (t in after && after == before[t := after[t]])
    ensures |Uncounted(after)| - |Undiscounted(after)|
            == |Uncounted(before)| - |Undiscounted(before)| + Owes(after, t) - Owes(before, t)
  {
    MinusOne(Uncounted(before), t);
    MinusOne(Undiscounted(before), t);
    if after == before - {t} {
      DoneSets(before, t);
    } else {
      AtUncounted(before, t, after[t]);
      AtUndiscounted(before, t, after[t]);
    }
  }

  lemma DeleteCounts(s: State, t: Thread)
    requires CountLaw(s) && Enabled(s, LoadAndDelete(t))
    ensures CountLaw(AfterDelete(s, t))
  {
    var k := s.threads[t].key;
    var s' := AfterDelete(s, t);
    if k in s.entries {
      RemovedSets(s, k);
      OneMoves(Removed(s, k).threads, s'.threads, t);
    } else {
      OneMoves(s.threads, s'.threads, t);
    }
  }

  lemma OnlyCallerMoves(s: State, a: Action)
    requires Enabled(s, a) && !a.LoadAndDelete?
    ensures var after := Do(s, a).threads;
            after == s.threads - {a.t} || (a.t in after && after == s.threads[a.t := after[a.t]])
  {
  }

  lemma CountStep(s: State, a: Action)
    requires CountLaw(s) && Enabled(s, a)
    ensures CountLaw(Do(s, a))
  {
    if a.LoadAndDelete? {
      DeleteCounts(s, a.t);
    } else {
      OnlyCallerMoves(s, a);
      OneMoves(s.threads, Do(s, a).threads, a.t);
      if a.Swap? { SwapSize(s.entries, a.key, a.expiry); }
    }
  }

  lemma SwapSize(entries: map<Key, int>, k: Key, v: int)
    ensures |entries[k := v]| == |entries| + if k in entries then 0 else 1
  {
    assert entries[k := v].Keys == entries.Keys + {k};
  }

  // ----------------------------------------------------- somebody will notice

  /** Thread t will still bring the map back under its cap if it has to: it has a load ahead
      of it, or its eviction is bound to visit everything in the map. */
  ghost predicate Responsible(s: State, t: Thread) {
    && t in s.threads
    && match s.threads[t]
       case HitStale(_) => false
       case HitDecrement => false
       case Evicting(must) => s.entries.Keys <= must
       case EvictDelete(k, must) => s.entries.Keys <= must + {k}
       case EvictDecrement(must) => s.entries.Keys <= must
       case _ => true
  }

  ghost predicate Guarded(s: State) {
    |s.entries| > MAX_ENTRIES ==> exists t :: Responsible(s, t)
  }

  /** A low reading of the counter means a small map, or somebody about to count. */
  lemma LowCount(s: State)
    requires CountLaw(s) && s.count <= MAX_ENTRIES
    ensures |s.entries| > MAX_ENTRIES ==> exists u :: u in s.threads && s.threads[u].Swapped?
  {
    if |s.entries| > MAX_ENTRIES {
      assert Uncounted(s.threads) != {};
      var u :| u in Uncounted(s.threads);
      assert s.threads[u].Swapped?;
    }
  }

  lemma FinishKeepsGuard(s: State, t: Thread)
    requires Guarded(s) && CountLaw(s) && t in s.threads && !s.threads[t].Swapped?
    requires s.count <= MAX_ENTRIES || !Responsible(s, t) || |s.entries| <= MAX_ENTRIES
    ensures Guarded(Done(s, t))
  {
    var s' := Done(s, t);
    if |s'.entries| > MAX_ENTRIES {
      if s.count <= MAX_ENTRIES {
        LowCount(s);
        var u :| u in s.threads && s.threads[u].Swapped?;
        assert Responsible(s', u);
      } else {
        var u :| Responsible(s, u);
        assert Responsible(s', u);
      }
    }
  }

  lemma DeleteKeepsGuard(s: State, t: Thread)
    requires Guarded(s) && Enabled(s, LoadAndDelete(t))
    ensures Guarded(AfterDelete(s, t))
  {
    var s' := AfterDelete(s, t);
    var k := s.threads[t].key;
    if |s'.entries| > MAX_ENTRIES {
      RemovedSets(s, k);
      var u :| Responsible(s, u);
      assert Responsible(s', u);
    }
  }

  lemma GuardStep(s: State, a: Action)
    requires CountLaw(s) && Guarded(s) && Enabled(s, a)
    ensures Guarded(Do(s, a))
  {
    var s' := Do(s, a);
    var t := a.t;
    match a {
      case LoadAndDelete(_) => DeleteKeepsGuard(s, t);
      case Load(_) => if s.count <= MAX_ENTRIES { FinishKeepsGuard(s, t); } else { assert Responsible(s', t); }
      case EvictVisit(_, k) =>
        if s.count <= MAX_ENTRIES { FinishKeepsGuard(s, t); } else { SameWitness(s, s', t); }
      case EvictEnd(_) =>
        if Responsible(s, t) { assert s.entries.Keys == {}; }
        FinishKeepsGuard(s, t);
      case SubOne(_) => SubKeepsGuard(s, t);
      case StaleHit(_, _) => SameWitness(s, s', t);
      case Swap(_, _, _) => assert Responsible(s', t);
      case AddOne(_) => assert Responsible(s', t);
      case AddCall(_) => assert Responsible(s', t);
      case SweepVisit(_, _) => assert Responsible(s', t);
      case SweepEnd(_) => assert Responsible(s', t);
    }
  }

  lemma SameWitness(s: State, s': State, t: Thread)
    requires Guarded(s) && s'.entries == s.entries
    requires forall u | u in s.threads && u != t :: u in s'.threads && s'.threads[u] == s.threads[u]
    requires Responsible(s, t) ==> Responsible(s', t)
    ensures Guarded(s')
  {
    if |s'.entries| > MAX_ENTRIES {
      var u :| Responsible(s, u);
      assert Responsible(s', u);
    }
  }

  lemma SubKeepsGuard(s: State, t: Thread)
    requires Guarded(s) && Enabled(s, SubOne(t))
    ensures Guarded(Do(s, SubOne(t)))
  {
    var s' := Do(s, SubOne(t));
    SameWitness(s, s', t);
  }

  lemma {:induction false} AlwaysGuarded(states: seq<State>, actions: seq<Action>, i: nat)
    requires Run(states, actions) && i < |states|
    ensures CountLaw(states[i]) && Guarded(states[i])
  {
    if i > 0 {
      AlwaysGuarded(states, actions, i - 1);
      CountStep(states[i - 1], actions[i - 1]);
      GuardStep(states[i - 1], actions[i - 1]);
    }
  }

  /** In every interleaving, the counter is the size of the map less the increments not yet
      made plus the decrements not yet made. */
  lemma CounterLaw(states: seq<State>, actions: seq<Action>, i: nat)
    requires Run(states, actions) && i < |states|
    ensures var s := states[i];
            s.count == |s.entries|
                       - |set t | t in s.threads && s.threads[t].Swapped?|
                       + |set t | t in s.threads && Decrements(s.threads[t])|
  {
    AlwaysGuarded(states, actions, i);
    assert Uncounted(states[i].threads) == set t | t in states[i].threads && states[i].threads[t].Swapped?;
    assert Undiscounted(states[i].threads) == set t | t in states[i].threads && Decrements(states[i].threads[t]);
  }

  /** Whenever nobody is in the middle of a call, the counter is the size of the map and the
      map is within its cap. */
  lemma QuietCacheWithinCap(states: seq<State>, actions: seq<Action>, i: nat)
    requires Run(states, actions) && i < |states| && states[i].threads == map[]
    ensures states[i].count == |states[i].entries| <= MAX_ENTRIES
  {
    AlwaysGuarded(states, actions, i);
    assert Uncounted(map[]) == {} && Undiscounted(map[]) == {};
    assert forall t :: !Responsible(states[i], t);
  }
}
