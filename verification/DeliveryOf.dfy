/** One delivery seen alone: of every run there is a run without the other deliveries that agrees
    with it on this one, so what is proved of a delivery asks nothing of the others. */
module DeliveryOf {
  import opened Clock
  import opened DeliveryTable
  import opened DeliveryProtocol

  // --------------------------------------------------- agreeing on one delivery

  predicate TaskAgrees(s: State, here: State, id: Id, k: Key) {
    && (k in here.tasks <==> k in s.tasks && s.tasks[k].id == id)
    && (k in here.tasks ==> here.tasks[k] == s.tasks[k])
  }

  /** Clock, hooks, the delivery's row, its epoch and its counts are the same, and here knows of
      no other delivery. */
  predicate RestAgrees(s: State, here: State, id: Id) {
    && here.schedule == s.schedule && here.now == s.now && here.hooks == s.hooks
    && here.rows.Keys == s.rows.Keys * {id} && (id in s.rows ==> here.rows[id] == s.rows[id])
    && here.epochs.Keys == s.epochs.Keys * {id} && (id in s.epochs ==> here.epochs[id] == s.epochs[id])
    && here.used == s.used * {id}
    && here.died[id] == s.died[id] && here.claimed[id] == s.claimed[id] && here.removed[id] == s.removed[id]
  }

  ghost predicate Agrees(s: State, here: State, id: Id) {
    RestAgrees(s, here, id) && forall k :: TaskAgrees(s, here, id, k)
  }

  /** Goroutines are filed under the delivery they work on. */
  predicate Filed(s: State) {
    forall k | k in s.tasks && !k.Manual? :: s.tasks[k].id == k.id
  }

  lemma FiledStep(s: State, a: Action)
    requires Filed(s) && Enabled(s, a)
    ensures Filed(Do(s, a))
  {
  }

  // ------------------------------------------------------------ what is left

  /** The delivery an action is about, when it is about one. */
  predicate About(s: State, a: Action, id: Id) {
    match a
    case Tick(due) => id in due
    case StartFresh(x, _) => x == id
    case Pick(x, _) => x == id
    case Abandon(x) => x == id
    case Read(_, x, _) => x == id
    case Claim(c) => Manual(c) in s.tasks && s.tasks[Manual(c)].id == id
    case SendEnds(k, _) => k in s.tasks && s.tasks[k].id == id
    case Record(k, _, _) => k in s.tasks && s.tasks[k].id == id
    case _ => true
  }

  /** What is left of an action: all of it, its part of a tick's list, or the passing of no time. */
  function Part(s: State, a: Action, id: Id): Action {
    if !About(s, a, id) then Advance(0) else if a.Tick? then Tick([id]) else a
  }

  ghost predicate Follows(s: State, here: State, a: Action, id: Id)
    requires Enabled(s, a)
  {
    Enabled(here, Part(s, a, id)) && Agrees(Do(s, a), Do(here, Part(s, a, id)), id)
  }

  lemma ClockFollows(s: State, here: State, a: Action, id: Id)
    requires Agrees(s, here, id) && Enabled(s, a) && (a.Advance? || a.SetHook?)
    ensures Follows(s, here, a, id)
  {
    forall k
      ensures TaskAgrees(Do(s, a), Do(here, a), id, k)
    {
      assert TaskAgrees(s, here, id, k);
    }
  }

  lemma RemovalAgrees(s: State, here: State, rows: Rows, rowsHere: Rows, id: Id)
    requires Agrees(s, here, id)
    requires rows.Keys <= s.rows.Keys && rowsHere.Keys == rows.Keys * {id}
    requires id in rows ==> rows[id] == rowsHere[id]
    ensures Agrees(WithRemoved(s, rows), WithRemoved(here, rowsHere), id)
  {
    assert multiset(DeadGone(s.rows, rows))[id] == (if id in DeadGone(s.rows, rows) then 1 else 0);
    assert multiset(DeadGone(here.rows, rowsHere))[id] == (if id in DeadGone(here.rows, rowsHere) then 1 else 0);
    assert id in DeadGone(s.rows, rows) <==> id in DeadGone(here.rows, rowsHere);
    forall k
      ensures TaskAgrees(WithRemoved(s, rows), WithRemoved(here, rowsHere), id, k)
    {
      assert TaskAgrees(s, here, id, k);
    }
  }

  lemma PurgeFollows(s: State, here: State, cutoffSec: int, policy: map<Hook, int>, id: Id)
    requires Agrees(s, here, id)
    ensures Follows(s, here, Purge(cutoffSec, policy), id)
  {
    RemovalAgrees(s, here, Purged(s.rows, Unix(s.now), cutoffSec, policy),
                  Purged(here.rows, Unix(here.now), cutoffSec, policy), id);
  }

  lemma RemoveHookFollows(s: State, here: State, h: Hook, id: Id)
    requires Agrees(s, here, id)
    ensures Follows(s, here, RemoveHook(h), id)
  {
    var s1, here1 := s.(hooks := s.hooks - {h}), here.(hooks := here.hooks - {h});
    forall k
      ensures TaskAgrees(s1, here1, id, k)
    {
      assert TaskAgrees(s, here, id, k);
    }
    RemovalAgrees(s1, here1, WithoutHook(s.rows, h), WithoutHook(here.rows, h), id);
  }

  lemma TickTask(s: State, here: State, due: seq<Id>, id: Id, k: Key)
    requires Agrees(s, here, id) && forall x | x in due :: x in s.rows
    requires forall j | j in s.tasks :: !j.Retry?
    requires id in due ==> id in here.rows
    ensures TaskAgrees(AfterTick(s, due), if id in due then AfterTick(here, [id]) else here, id, k)
  {
    assert TaskAgrees(s, here, id, k);
    if k.Retry? {
      ListedRetries(due, k.id);
      ListedRetries([id], k.id);
    }
  }

  lemma ListedRetries(due: seq<Id>, x: Id)
    ensures Retry(x) in (set y | y in due :: Retry(y)) <==> x in due
  {
  }

  lemma ListedAlone(s: State, here: State, due: seq<Id>, id: Id)
    requires Agrees(s, here, id) && Enabled(s, Tick(due)) && id in due
    ensures Enabled(here, Tick([id]))
  {
    var i :| 0 <= i < |due| && due[i] == id;
    assert IsDue(s.rows, Paused(s), Unix(s.now), due[i]);
    assert Paused(here) == Paused(s) && IsDue(here.rows, Paused(here), Unix(here.now), [id][0]);
    forall k
      ensures TaskAgrees(s, here, id, k) && (k in here.tasks ==> !k.Retry?)
    {
      assert TaskAgrees(s, here, id, k);
    }
  }

  lemma TickFollows(s: State, here: State, due: seq<Id>, id: Id)
    requires Agrees(s, here, id) && Enabled(s, Tick(due))
    ensures Follows(s, here, Tick(due), id)
  {
    if id in due { ListedAlone(s, here, due, id); }
    var here' := if id in due then AfterTick(here, [id]) else here;
    forall k
      ensures TaskAgrees(AfterTick(s, due), here', id, k)
    {
      TickTask(s, here, due, id, k);
    }
    assert here.(now := here.now + 0) == here;
  }

  lemma FreshTask(s: State, here: State, x: Id, o: Origin, id: Id, k: Key)
    requires Filed(s) && TaskAgrees(s, here, id, k) && TaskAgrees(s, here, id, Fresh(x)) && s.now == here.now
    ensures var t := Task(x, o, 1, ZERO_TIME_SEC, s.now, Sending);
      TaskAgrees(s.(tasks := s.tasks[Fresh(x) := t]),
                 if x == id then here.(tasks := here.tasks[Fresh(x) := t]) else here, id, k)
  {
  }

  lemma FreshFollows(s: State, here: State, x: Id, o: Origin, id: Id)
    requires Filed(s) && Agrees(s, here, id) && Enabled(s, StartFresh(x, o))
    ensures Follows(s, here, StartFresh(x, o), id)
  {
    forall k
      ensures TaskAgrees(Do(s, StartFresh(x, o)), Do(here, Part(s, StartFresh(x, o), id)), id, k)
    {
      assert TaskAgrees(s, here, id, k) && TaskAgrees(s, here, id, Fresh(x));
      FreshTask(s, here, x, o, id, k);
    }
    FreshRest(s, here, x, o, id);
  }

  lemma FreshRest(s: State, here: State, x: Id, o: Origin, id: Id)
    requires RestAgrees(s, here, id) && Enabled(s, StartFresh(x, o))
    ensures RestAgrees(Do(s, StartFresh(x, o)), Do(here, Part(s, StartFresh(x, o), id)), id)
  {
    assert (s.used + {x}) * {id} == s.used * {id} + if x == id then {x} else {};
  }

  /** The goroutine an action is about. */
  function Actor(a: Action): Key
    requires a.Pick? || a.Abandon? || a.Read? || a.Claim? || a.SendEnds? || a.Record?
  {
    match a
    case Pick(x, _) => Retry(x)
    case Abandon(x) => Retry(x)
    case Read(c, _, _) => Manual(c)
    case Claim(c) => Manual(c)
    case SendEnds(k, _) => k
    case Record(k, _, _) => k
  }

  lemma PickMoves(s: State, id: Id, lookup: Lookup, k: Key)
    requires Retry(id) in s.tasks && k != Retry(id)
    ensures k in AfterPick(s, id, lookup).tasks <==> k in s.tasks
    ensures k in s.tasks ==> AfterPick(s, id, lookup).tasks[k] == s.tasks[k]
  {
  }

  lemma RecordsAreDone(s: State, k: Key, stored: bool, error: string)
    requires k in s.tasks && s.tasks[k].phase.Ended?
    ensures AfterRecord(s, k, stored, error).tasks == s.tasks - {k}
  {
  }

  lemma OnlyActorMoves(s: State, a: Action, k: Key)
    requires Enabled(s, a) && (a.Pick? || a.Abandon? || a.Read? || a.Claim? || a.SendEnds? || a.Record?)
    requires k != Actor(a)
    ensures k in Do(s, a).tasks <==> k in s.tasks
    ensures k in s.tasks ==> Do(s, a).tasks[k] == s.tasks[k]
  {
    if a.Pick? {
      PickMoves(s, a.id, a.lookup, k);
    } else if a.Record? {
      RecordsAreDone(s, a.key, a.stored, a.error);
    }
  }

  /** The actor stays with its delivery, or is gone. */
  lemma ActorStays(s: State, a: Action)
    requires Filed(s) && Enabled(s, a) && (a.Pick? || a.Abandon? || a.Read? || a.Claim? || a.SendEnds? || a.Record?)
    ensures Actor(a) in Do(s, a).tasks ==>
      Do(s, a).tasks[Actor(a)].id == if a.Read? then a.id else s.tasks[Actor(a)].id
    ensures !a.Read? ==> Actor(a) in s.tasks
  {
    if a.Record? { RecordsAreDone(s, a.key, a.stored, a.error); }
  }

  lemma ElsewhereTask(s: State, a: Action, id: Id, k: Key)
    requires Filed(s) && Enabled(s, a) && !About(s, a, id)
    requires a.Pick? || a.Abandon? || a.Read? || a.Claim? || a.SendEnds? || a.Record?
    ensures k in Do(s, a).tasks && Do(s, a).tasks[k].id == id <==> k in s.tasks && s.tasks[k].id == id
    ensures k in s.tasks && s.tasks[k].id == id ==> Do(s, a).tasks[k] == s.tasks[k]
  {
    if k == Actor(a) { ActorStays(s, a); } else { OnlyActorMoves(s, a, k); }
  }

  /** An action about another delivery's goroutine or row. */
  lemma ElsewhereFollows(s: State, here: State, a: Action, id: Id)
    requires Filed(s) && Agrees(s, here, id) && Enabled(s, a) && !About(s, a, id)
    requires a.Pick? || a.Abandon? || a.Read? || a.Claim? || a.SendEnds? || a.Record?
    ensures Follows(s, here, a, id)
  {
    assert here.(now := here.now + 0) == here;
    ElsewhereRest(s, here, a, id);
    forall k
      ensures TaskAgrees(Do(s, a), here, id, k)
    {
      assert TaskAgrees(s, here, id, k);
      ElsewhereTask(s, a, id, k);
    }
  }

  lemma ElsewhereRest(s: State, here: State, a: Action, id: Id)
    requires Filed(s) && RestAgrees(s, here, id) && Enabled(s, a) && !About(s, a, id)
    requires a.Pick? || a.Abandon? || a.Read? || a.Claim? || a.SendEnds? || a.Record?
    ensures RestAgrees(Do(s, a), here, id)
  {
    if a.Record? {
      RecordRest(s, here, a.key, a.stored, a.error, id);
    } else if a.Pick? {
      PickRest(s, here, a.id, a.lookup, id);
    }
  }

  lemma GoneElsewhere(s: State, here: State, x: Id, id: Id)
    requires RestAgrees(s, here, id) && x != id
    ensures RestAgrees(WithRemoved(s, s.rows - {x}), here, id)
  {
    assert id !in DeadGone(s.rows, s.rows - {x});
    assert multiset(DeadGone(s.rows, s.rows - {x}))[id] == 0;
  }

  lemma PickRest(s: State, here: State, x: Id, lookup: Lookup, id: Id)
    requires RestAgrees(s, here, id) && Retry(x) in s.tasks && s.tasks[Retry(x)].id == x != id
    ensures RestAgrees(AfterPick(s, x, lookup), here, id)
  {
    var s1 := s.(tasks := s.tasks - {Retry(x)});
    GoneElsewhere(s1, here, x, id);
  }

  lemma RecordRest(s: State, here: State, k: Key, stored: bool, error: string, id: Id)
    requires RestAgrees(s, here, id) && k in s.tasks && s.tasks[k].phase.Ended? && s.tasks[k].id != id
    ensures RestAgrees(AfterRecord(s, k, stored, error), here, id)
  {
    if s.tasks[k].phase.accepted {
      GoneElsewhere(s.(tasks := s.tasks - {k}), here, s.tasks[k].id, id);
    } else {
      RefusalRest(s, here, k, stored, error, id);
    }
  }

  lemma RefusalRest(s: State, here: State, k: Key, stored: bool, error: string, id: Id)
    requires RestAgrees(s, here, id) && k in s.tasks && s.tasks[k].phase == Ended(false) && s.tasks[k].id != id
    ensures RestAgrees(AfterRecord(s, k, stored, error), here, id)
  {
  }

  lemma OwnEnabled(s: State, here: State, a: Action, id: Id)
    requires Filed(s) && RestAgrees(s, here, id) && Enabled(s, a) && About(s, a, id)
    requires a.Pick? || a.Abandon? || a.Read? || a.Claim? || a.SendEnds? || a.Record?
    requires TaskAgrees(s, here, id, Actor(a))
    ensures Enabled(here, a)
  {
  }

  /** The actor's next state is read off its task, its row, the hooks and the clock alone. */
  lemma ActorAgrees(s: State, here: State, a: Action, id: Id)
    requires Filed(s) && RestAgrees(s, here, id) && Enabled(s, a) && About(s, a, id)
    requires a.Pick? || a.Abandon? || a.Read? || a.Claim? || a.SendEnds? || a.Record?
    requires TaskAgrees(s, here, id, Actor(a)) && Enabled(here, a)
    ensures TaskAgrees(Do(s, a), Do(here, a), id, Actor(a))
  {
    if a.Pick? {
      PickAgrees(s, here, a.lookup, id);
    } else if a.Claim? {
      ClaimAgrees(s, here, a.caller, id);
    } else if a.Record? {
      RecordsAreDone(s, a.key, a.stored, a.error);
      RecordsAreDone(here, a.key, a.stored, a.error);
    }
  }

  lemma PickAgrees(s: State, here: State, lookup: Lookup, id: Id)
    requires RestAgrees(s, here, id) && TaskAgrees(s, here, id, Retry(id))
    requires Retry(id) in s.tasks && s.tasks[Retry(id)].id == id
    ensures TaskAgrees(AfterPick(s, id, lookup), AfterPick(here, id, lookup), id, Retry(id))
  {
  }

  lemma ClaimAgrees(s: State, here: State, c: Caller, id: Id)
    requires RestAgrees(s, here, id) && TaskAgrees(s, here, id, Manual(c))
    requires Manual(c) in s.tasks && s.tasks[Manual(c)].id == id
    ensures TaskAgrees(AfterClaim(s, c), AfterClaim(here, c), id, Manual(c))
  {
  }

  /** An action about this delivery's goroutine or row is taken in both. */
  lemma OwnTask(s: State, here: State, a: Action, id: Id, k: Key)
    requires Filed(s) && Agrees(s, here, id) && Enabled(s, a) && About(s, a, id) && Enabled(here, a)
    requires a.Pick? || a.Abandon? || a.Read? || a.Claim? || a.SendEnds? || a.Record?
    ensures TaskAgrees(Do(s, a), Do(here, a), id, k)
  {
    assert TaskAgrees(s, here, id, k) && TaskAgrees(s, here, id, Actor(a));
    if k == Actor(a) {
      ActorAgrees(s, here, a, id);
    } else {
      OnlyActorMoves(s, a, k);
      OnlyActorMoves(here, a, k);
    }
  }

  lemma OwnRest(s: State, here: State, a: Action, id: Id)
    requires RestAgrees(s, here, id) && Enabled(s, a) && Enabled(here, a)
    requires a.Abandon? || a.Read? || a.SendEnds?
    ensures RestAgrees(Do(s, a), Do(here, a), id)
  {
  }

  lemma GoneHere(s: State, here: State, id: Id)
    requires RestAgrees(s, here, id)
    ensures RestAgrees(WithRemoved(s, s.rows - {id}), WithRemoved(here, here.rows - {id}), id)
  {
    assert multiset(DeadGone(s.rows, s.rows - {id}))[id] == (if id in DeadGone(s.rows, s.rows - {id}) then 1 else 0);
    assert multiset(DeadGone(here.rows, here.rows - {id}))[id] ==
      (if id in DeadGone(here.rows, here.rows - {id}) then 1 else 0);
    assert id in DeadGone(s.rows, s.rows - {id}) <==> id in DeadGone(here.rows, here.rows - {id});
  }

  lemma OwnAttempt(s: State, here: State, k: Key, t: Task, id: Id)
    requires RestAgrees(s, here, id) && t.id == id
    ensures RestAgrees(Attempt(s, k, t), Attempt(here, k, t), id)
  {
  }

  lemma OwnPick(s: State, here: State, lookup: Lookup, id: Id)
    requires RestAgrees(s, here, id) && TaskAgrees(s, here, id, Retry(id))
    requires Retry(id) in s.tasks && s.tasks[Retry(id)].id == id
    ensures RestAgrees(AfterPick(s, id, lookup), AfterPick(here, id, lookup), id)
  {
    var t := s.tasks[Retry(id)];
    if lookup.Missing? || t.origin.hook !in s.hooks {
      GoneHere(s.(tasks := s.tasks - {Retry(id)}), here.(tasks := here.tasks - {Retry(id)}), id);
    } else if !s.hooks[t.origin.hook] {
      OwnAttempt(s, here, Retry(id), t.(attempts := t.attempts + 1, phase := Sending), id);
    }
  }

  lemma OwnClaim(s: State, here: State, c: Caller, id: Id)
    requires RestAgrees(s, here, id) && TaskAgrees(s, here, id, Manual(c))
    requires Manual(c) in s.tasks && s.tasks[Manual(c)].id == id
    ensures RestAgrees(AfterClaim(s, c), AfterClaim(here, c), id)
  {
  }

  lemma OwnUnclean(s: State, here: State, id: Id)
    requires RestAgrees(s, here, id)
    ensures RestAgrees(s.(epochs := Unclean(s.epochs, id)), here.(epochs := Unclean(here.epochs, id)), id)
  {
  }

  lemma OwnRecord(s: State, here: State, k: Key, stored: bool, error: string, id: Id)
    requires RestAgrees(s, here, id) && TaskAgrees(s, here, id, k)
    requires k in s.tasks && s.tasks[k].phase.Ended? && s.tasks[k].id == id
    ensures RestAgrees(AfterRecord(s, k, stored, error), AfterRecord(here, k, stored, error), id)
  {
    var t := s.tasks[k];
    var done, doneHere := s.(tasks := s.tasks - {k}), here.(tasks := here.tasks - {k});
    assert RestAgrees(done, doneHere, id);
    if t.phase.accepted {
      if !k.Fresh? { if stored { GoneHere(done, doneHere, id); } else { OwnUnclean(done, doneHere, id); } }
    } else if t.attempts == 0 || !stored {
      OwnUnclean(done, doneHere, id);
    } else {
      OwnFailure(s, here, k, error, id);
    }
  }

  lemma OwnFailure(s: State, here: State, k: Key, error: string, id: Id)
    requires RestAgrees(s, here, id) && TaskAgrees(s, here, id, k)
    requires k in s.tasks && s.tasks[k].phase == Ended(false) && s.tasks[k].id == id && s.tasks[k].attempts > 0
    ensures RestAgrees(AfterRecord(s, k, true, error), AfterRecord(here, k, true, error), id)
  {
  }

  lemma OwnFollows(s: State, here: State, a: Action, id: Id)
    requires Filed(s) && Agrees(s, here, id) && Enabled(s, a) && About(s, a, id)
    requires a.Pick? || a.Abandon? || a.Read? || a.Claim? || a.SendEnds? || a.Record?
    ensures Follows(s, here, a, id)
  {
    assert TaskAgrees(s, here, id, Actor(a));
    OwnEnabled(s, here, a, id);
    forall k
      ensures TaskAgrees(Do(s, a), Do(here, a), id, k)
    {
      OwnTask(s, here, a, id, k);
    }
    if a.Pick? {
      OwnPick(s, here, a.lookup, id);
    } else if a.Claim? {
      OwnClaim(s, here, a.caller, id);
    } else if a.Record? {
      OwnRecord(s, here, a.key, a.stored, a.error, id);
    } else {
      OwnRest(s, here, a, id);
    }
  }

  lemma StepFollows(s: State, here: State, a: Action, id: Id)
    requires Filed(s) && Agrees(s, here, id) && Enabled(s, a)
    ensures Follows(s, here, a, id)
  {
    match a {
      case Advance(_) => ClockFollows(s, here, a, id);
      case SetHook(_, _) => ClockFollows(s, here, a, id);
      case RemoveHook(h) => RemoveHookFollows(s, here, h, id);
      case Purge(cutoff, policy) => PurgeFollows(s, here, cutoff, policy, id);
      case Tick(due) => TickFollows(s, here, due, id);
      case StartFresh(x, o) => FreshFollows(s, here, x, o, id);
      case _ => if About(s, a, id) { OwnFollows(s, here, a, id); } else { ElsewhereFollows(s, here, a, id); }
    }
  }

  // -------------------------------------------------------------- whole runs

  /** This delivery's redeliveries keep their lease; those of others take what they like. */
  ghost predicate LeaseKeptFor(s: State, id: Id) {
    forall k | k in s.tasks && k.Manual? && s.tasks[k].id == id && s.tasks[k].phase != Checked ::
      Unix(s.now) < Unix(s.tasks[k].readAt + LEASE)
  }

  ghost predicate RunInLeaseFor(schedule: seq<nat>, states: seq<State>, actions: seq<Action>, id: Id) {
    Run(schedule, states, actions) && forall i | 0 <= i < |actions| :: LeaseKeptFor(states[i], id)
  }

  /** The first n steps of alone are the parts of the run's first n steps, and agree with it. */
  ghost predicate AloneUpto(
      states: seq<State>, actions: seq<Action>, alone: seq<State>, parts: seq<Action>, n: nat, id: Id) {
    && |alone| == n + 1 && |parts| == n && n < |states| && n <= |actions|
    && (forall i | 0 <= i <= n :: Agrees(states[i], alone[i], id))
    && (forall i | 0 <= i < n :: parts[i] == Part(states[i], actions[i], id))
  }

  lemma AloneGrows(
      states: seq<State>, actions: seq<Action>, alone: seq<State>, parts: seq<Action>, n: nat, id: Id, s: State)
    requires AloneUpto(states, actions, alone, parts, n, id)
    requires n + 1 < |states| && n < |actions| && Agrees(states[n + 1], s, id)
    ensures AloneUpto(states, actions, alone + [s], parts + [Part(states[n], actions[n], id)], n + 1, id)
  {
  }

  lemma {:induction false} FiledHolds(schedule: seq<nat>, states: seq<State>, actions: seq<Action>, n: nat)
    requires Run(schedule, states, actions) && n < |states|
    ensures Filed(states[n])
  {
    if n > 0 {
      FiledHolds(schedule, states, actions, n - 1);
      FiledStep(states[n - 1], actions[n - 1]);
    }
  }

  lemma Longer(schedule: seq<nat>, alone: seq<State>, parts: seq<Action>, a: Action)
    requires RunInLease(schedule, alone, parts) && LeaseKept(alone[|parts|]) && Enabled(alone[|parts|], a)
    ensures RunInLease(schedule, alone + [Do(alone[|parts|], a)], parts + [a])
  {
    var more, acts := alone + [Do(alone[|parts|], a)], parts + [a];
    assert forall i | 0 <= i < |alone| :: more[i] == alone[i];
    assert forall i | 0 <= i < |parts| :: acts[i] == parts[i];
    forall i | 0 <= i < |acts|
      ensures Enabled(more[i], acts[i]) && more[i + 1] == Do(more[i], acts[i]) && LeaseKept(more[i])
    {
      if i < |parts| { assert Enabled(alone[i], parts[i]) && alone[i + 1] == Do(alone[i], parts[i]); }
    }
  }

  lemma StepAlone(schedule: seq<nat>, states: seq<State>, actions: seq<Action>, n: nat, id: Id, here: State)
    requires RunInLeaseFor(schedule, states, actions, id) && n < |actions| && Agrees(states[n], here, id)
    ensures LeaseKept(here)
    ensures Enabled(here, Part(states[n], actions[n], id))
    ensures Agrees(states[n + 1], Do(here, Part(states[n], actions[n], id)), id)
  {
    FiledHolds(schedule, states, actions, n);
    StepFollows(states[n], here, actions[n], id);
    LeaseAlone(states[n], here, id);
  }

  lemma AloneStart(states: seq<State>, actions: seq<Action>, schedule: seq<nat>, id: Id)
    requires Run(schedule, states, actions)
    ensures AloneUpto(states, actions, [states[0]], [], 0, id) && RunInLease(schedule, [states[0]], [])
  {
    assert forall k :: TaskAgrees(states[0], states[0], id, k);
  }

  /** The run without the other deliveries. */
  lemma {:induction false} Alone(schedule: seq<nat>, states: seq<State>, actions: seq<Action>, n: nat, id: Id)
      returns (alone: seq<State>, parts: seq<Action>)
    requires RunInLeaseFor(schedule, states, actions, id) && n < |states|
    ensures RunInLease(schedule, alone, parts) && AloneUpto(states, actions, alone, parts, n, id)
  {
    if n == 0 {
      AloneStart(states, actions, schedule, id);
      alone, parts := [states[0]], [];
    } else {
      var m := n - 1;
      alone, parts := Alone(schedule, states, actions, m, id);
      var here, part := alone[m], Part(states[m], actions[m], id);
      StepAlone(schedule, states, actions, m, id, here);
      Longer(schedule, alone, parts, part);
      AloneGrows(states, actions, alone, parts, m, id, Do(here, part));
      alone, parts := alone + [Do(here, part)], parts + [part];
    }
  }

  lemma LeaseAlone(s: State, here: State, id: Id)
    requires Agrees(s, here, id) && LeaseKeptFor(s, id)
    ensures LeaseKept(here)
  {
    forall k | k in here.tasks && k.Manual? && here.tasks[k].phase != Checked
      ensures Unix(here.now) < Unix(here.tasks[k].readAt + LEASE)
    {
      assert TaskAgrees(s, here, id, k);
    }
  }

  // ------------------------------------------- the results, one delivery at a time

  lemma OwnsAlone(s: State, here: State, id: Id, k: Key)
    requires Agrees(s, here, id)
    ensures Owns(s, k, id) <==> Owns(here, k, id)
    ensures Owns(s, k, id) ==> here.tasks[k] == s.tasks[k]
  {
    assert TaskAgrees(s, here, id, k);
  }

  /** Rows, the goroutines' copies of them, ownership, attempts made and due times agree, for a
      delivery whose redeliveries keep their lease, in every reachable state. */
  lemma OneDeliveryHolds(schedule: seq<nat>, states: seq<State>, actions: seq<Action>, i: nat, id: Id)
      returns (here: State)
    requires RunInLeaseFor(schedule, states, actions, id) && i < |states|
    ensures Agrees(states[i], here, id) && Inv(here) && EpochInv(here)
  {
    var alone, parts := Alone(schedule, states, actions, i, id);
    InvHolds(schedule, alone, parts, i);
    EpochHolds(schedule, alone, parts, i);
    here := alone[i];
  }

  /** In every interleaving in which this delivery's redeliveries keep their lease, it has at
      most one attempt in flight, whatever happens to others. */
  lemma OneAttemptAtOnce(schedule: seq<nat>, states: seq<State>, actions: seq<Action>, i: nat, k1: Key, k2: Key, id: Id)
    requires RunInLeaseFor(schedule, states, actions, id) && i < |states|
    requires Owns(states[i], k1, id) && states[i].tasks[k1].phase == Sending
    requires Owns(states[i], k2, id) && states[i].tasks[k2].phase == Sending
    ensures k1 == k2
  {
    var here := OneDeliveryHolds(schedule, states, actions, i, id);
    OwnsAlone(states[i], here, id, k1);
    OwnsAlone(states[i], here, id, k2);
  }

  /** A dead row comes back to life by one caller's claim, and that caller alone then holds it. */
  lemma RevivedByOne(schedule: seq<nat>, states: seq<State>, actions: seq<Action>, i: nat, id: Id)
    requires RunInLeaseFor(schedule, states, actions, id) && i < |actions|
    requires id in states[i].rows && states[i].rows[id].dead
    requires id in states[i + 1].rows && !states[i + 1].rows[id].dead
    ensures actions[i].Claim? && states[i].tasks[Manual(actions[i].caller)].id == id
    ensures SoleHolder(states[i + 1], Manual(actions[i].caller), id)
    ensures states[i + 1].claimed[id] == states[i].claimed[id] + 1
  {
    var alone, parts := Alone(schedule, states, actions, i + 1, id);
    assert Agrees(states[i], alone[i], id) && Agrees(states[i + 1], alone[i + 1], id);
    RevivedByOneCaller(schedule, alone, parts, i, id);
    assert parts[i] == Part(states[i], actions[i], id);
    assert TaskAgrees(states[i], alone[i], id, Manual(parts[i].caller));
    var s', here' := states[i + 1], alone[i + 1];
    forall k
      ensures Owns(s', k, id) <==> k == Manual(actions[i].caller)
    {
      OwnsAlone(s', here', id, k);
    }
  }

  /** The deaths of a delivery are its claims, its removals, and the one it may lie in now. */
  lemma EachDeathIsSpentOnce(schedule: seq<nat>, states: seq<State>, actions: seq<Action>, i: nat, id: Id)
    requires RunInLeaseFor(schedule, states, actions, id) && i < |states|
    ensures Balanced(states[i], id)
  {
    var alone, parts := Alone(schedule, states, actions, i, id);
    EveryDeathIsSpentOnce(schedule, alone, parts, i, id);
    assert Agrees(states[i], alone[i], id);
  }

  /** A delivery whose store calls all went through is dead only after exactly one attempt more
      than the schedule has waits, and no sooner after its first failure than the waits add up
      to, less one second each. */
  lemma DeadOnSchedule(schedule: seq<nat>, states: seq<State>, actions: seq<Action>, i: nat, id: Id)
    requires RunInLeaseFor(schedule, states, actions, id) && i < |states|
    requires id in states[i].rows && CleanEpoch(states[i], id) && states[i].rows[id].dead
    ensures states[i].rows[id].attempts == states[i].epochs[id].made == |schedule| + 1
    ensures states[i].epochs[id].deadAt - states[i].epochs[id].first >= Sum(schedule, |schedule|) - |schedule| * SECOND
  {
    var alone, parts := Alone(schedule, states, actions, i, id);
    assert Agrees(states[i], alone[i], id);
    DiesOnSchedule(schedule, alone, parts, i, id);
  }

  /** While it is alive and nobody sends it, the attempts on the row are the attempts made. */
  lemma IdleSpendsNothing(schedule: seq<nat>, states: seq<State>, actions: seq<Action>, i: nat, id: Id)
    requires RunInLeaseFor(schedule, states, actions, id) && i < |states|
    requires id in states[i].rows && CleanEpoch(states[i], id) && !states[i].rows[id].dead
    requires forall k | Owns(states[i], k, id) :: states[i].tasks[k].phase == Listed
    ensures states[i].rows[id].attempts == states[i].epochs[id].made <= |schedule|
  {
    var alone, parts := Alone(schedule, states, actions, i, id);
    var s, here := states[i], alone[i];
    assert Agrees(s, here, id);
    forall k
      ensures Owns(here, k, id) ==> Owns(s, k, id) && here.tasks[k].phase == Listed
    {
      OwnsAlone(s, here, id, k);
    }
    WaitingSpendsNothing(schedule, alone, parts, i, id);
  }

  // ------------------------------------------------ when the lease runs out

  function DueSet(s: State): set<Id> {
    set id | id in s.rows && IsDue(s.rows, Paused(s), Unix(s.now), id)
  }

  lemma {:induction false} OldestOf(rows: Rows, ids: set<Id>) returns (m: Id)
    requires ids != {} && ids <= rows.Keys
    ensures m in ids && forall x | x in ids :: rows[m].dueSec <= rows[x].dueSec
  {
    var x :| x in ids;
    if ids == {x} {
      m := x;
    } else {
      assert ids == (ids - {x}) + {x};
      var rest := OldestOf(rows, ids - {x});
      m := if rows[rest].dueSec < rows[x].dueSec then rest else x;
    }
  }

  /** Distinct ids, oldest first. */
  predicate Ordered(rows: Rows, out: seq<Id>) {
    && (forall i | 0 <= i < |out| :: out[i] in rows)
    && forall i, j | 0 <= i < j < |out| :: out[i] != out[j] && rows[out[i]].dueSec <= rows[out[j]].dueSec
  }

  lemma {:induction false} InOrder(rows: Rows, ids: set<Id>) returns (out: seq<Id>)
    requires ids <= rows.Keys
    ensures Ordered(rows, out) && |out| == |ids| && forall x :: x in out <==> x in ids
    decreases |ids|
  {
    if ids == {} {
      out := [];
    } else {
      var m := OldestOf(rows, ids);
      var rest := InOrder(rows, ids - {m});
      out := [m] + rest;
      forall i | 0 < i < |out|
        ensures out[i] in ids && out[i] != m
      {
        assert out[i] == rest[i - 1] && rest[i - 1] in rest;
      }
    }
  }

  /** Up to a page of due rows are all listed. */
  lemma ListsAll(s: State) returns (due: seq<Id>)
    requires |DueSet(s)| <= 100
    ensures IsDueList(s.rows, Paused(s), Unix(s.now), 100, due) && forall x :: x in due <==> x in DueSet(s)
  {
    due := InOrder(s.rows, DueSet(s));
    forall i | 0 <= i < |due|
      ensures IsDue(s.rows, Paused(s), Unix(s.now), due[i])
    {
      assert due[i] in due;
    }
  }

  /** What a tick in progress leaves alone when it is abandoned and its sends are not recorded. */
  predicate SameBut(s: State, s': State) {
    && s'.rows == s.rows && s'.hooks == s.hooks && s'.now == s.now
    && forall k | k in s.tasks && !k.Retry? :: k in s'.tasks && s'.tasks[k] == s.tasks[k]
  }

  lemma GoOn(schedule: seq<nat>, states: seq<State>, actions: seq<Action>, a: Action)
      returns (states': seq<State>, actions': seq<Action>)
    requires Run(schedule, states, actions) && Enabled(states[|actions|], a)
    ensures Run(schedule, states', actions') && states <= states' && actions <= actions'
    ensures states'[|actions'|] == Do(states[|actions|], a)
  {
    states', actions' := states + [Do(states[|actions|], a)], actions + [a];
  }

  /** One goroutine of a tick comes to its end without a trace. */
  lemma OneTaskEnds(schedule: seq<nat>, states: seq<State>, actions: seq<Action>, x: Id)
      returns (states': seq<State>, actions': seq<Action>)
    requires Run(schedule, states, actions) && Retry(x) in states[|actions|].tasks
    requires states[|actions|].tasks[Retry(x)].phase != Checked
    ensures Run(schedule, states', actions') && states <= states' && actions <= actions'
    ensures SameBut(states[|actions|], states'[|actions'|])
    ensures states'[|actions'|].tasks == states[|actions|].tasks - {Retry(x)}
  {
    var s := states[|actions|];
    if s.tasks[Retry(x)].phase.Listed? {
      states', actions' := GoOn(schedule, states, actions, Abandon(x));
    } else if s.tasks[Retry(x)].phase.Ended? {
      states', actions' := GoOn(schedule, states, actions, Record(Retry(x), false, ""));
    } else {
      var mid, acts := GoOn(schedule, states, actions, SendEnds(Retry(x), true));
      states', actions' := GoOn(schedule, mid, acts, Record(Retry(x), false, ""));
    }
  }

  function Retries(s: State): set<Key> {
    set k | k in s.tasks && k.Retry?
  }

  ghost predicate NoRetryChecked(s: State) {
    forall k | k in s.tasks && k.Retry? :: s.tasks[k].phase != Checked
  }

  /** A tick in progress can come to its end. */
  lemma {:induction false} TickEnds(schedule: seq<nat>, states: seq<State>, actions: seq<Action>)
      returns (states': seq<State>, actions': seq<Action>)
    requires Run(schedule, states, actions) && NoRetryChecked(states[|actions|])
    ensures Run(schedule, states', actions') && states <= states' && actions <= actions'
    ensures SameBut(states[|actions|], states'[|actions'|]) && Retries(states'[|actions'|]) == {}
    decreases |Retries(states[|actions|])|
  {
    var s := states[|actions|];
    if Retries(s) == {} {
      states', actions' := states, actions;
    } else {
      var k :| k in Retries(s);
      var mid, acts := OneTaskEnds(schedule, states, actions, k.id);
      assert Retries(mid[|acts|]) == Retries(s) - {k};
      states', actions' := TickEnds(schedule, mid, acts);
    }
  }

  /** Only a redelivery is ever between its read and its claim. */
  lemma {:induction false} RetriesNeverCheck(schedule: seq<nat>, states: seq<State>, actions: seq<Action>, i: nat)
    requires Run(schedule, states, actions) && i < |states|
    ensures NoRetryChecked(states[i])
  {
    if i > 0 {
      RetriesNeverCheck(schedule, states, actions, i - 1);
      NoRetryCheckedStep(states[i - 1], actions[i - 1]);
    }
  }

  lemma NoRetryCheckedStep(s: State, a: Action)
    requires Enabled(s, a) && NoRetryChecked(s)
    ensures NoRetryChecked(Do(s, a))
  {
  }

  /** A claimed redelivery still sends, and its row is there for a tick to find. */
  predicate Claimed(s: State, c: Caller, id: Id) {
    && Manual(c) in s.tasks && s.tasks[Manual(c)].id == id && s.tasks[Manual(c)].phase == Sending
    && id in s.rows && s.rows[id].origin.hook in s.hooks && !s.hooks[s.rows[id].origin.hook]
  }

  /** The row a redelivery has claimed falls due at the second its lease ends, no sooner. */
  lemma DueWithTheLease(schedule: seq<nat>, states: seq<State>, actions: seq<Action>, id: Id, c: Caller)
    requires RunInLeaseFor(schedule, states, actions, id) && Claimed(states[|actions|], c, id)
    ensures var s := states[|actions|];
      id in DueSet(s) <==> Unix(s.now) >= Unix(s.tasks[Manual(c)].readAt + LEASE)
  {
    var s := states[|actions|];
    var here := OneDeliveryHolds(schedule, states, actions, |actions|, id);
    assert TaskAgrees(s, here, id, Manual(c)) && TaskOk(here, Manual(c));
  }

  /** The lease is exact: from every state that this delivery's leases have led to, none of them
      outlived before, in which a redelivery of it still sends at the second its lease ends and
      no more than a page of rows is due, the run can go on to a second send of the same
      delivery. */
  lemma LateSendCanOverlap(schedule: seq<nat>, states: seq<State>, actions: seq<Action>, id: Id, c: Caller)
      returns (states': seq<State>, actions': seq<Action>)
    requires RunInLeaseFor(schedule, states, actions, id) && Claimed(states[|actions|], c, id)
    requires |DueSet(states[|actions|])| <= 100
    requires Unix(states[|actions|].now) >= Unix(states[|actions|].tasks[Manual(c)].readAt + LEASE)
    ensures Run(schedule, states', actions') && states <= states' && actions <= actions'
    ensures forall k | k == Manual(c) || k == Retry(id) ::
      Owns(states'[|actions'|], k, id) && states'[|actions'|].tasks[k].phase == Sending
  {
    DueWithTheLease(schedule, states, actions, id, c);
    RetriesNeverCheck(schedule, states, actions, |actions|);
    var mid, acts := TickEnds(schedule, states, actions);
    var s := mid[|acts|];
    assert DueSet(s) == DueSet(states[|actions|]);
    states', actions' := ListedAndSent(schedule, mid, acts, id, c);
  }

  /** With no tick in progress the next one lists the row and sends. */
  lemma ListedAndSent(schedule: seq<nat>, states: seq<State>, actions: seq<Action>, id: Id, c: Caller)
      returns (states': seq<State>, actions': seq<Action>)
    requires Run(schedule, states, actions) && Claimed(states[|actions|], c, id)
    requires Retries(states[|actions|]) == {} && id in DueSet(states[|actions|]) && |DueSet(states[|actions|])| <= 100
    ensures Run(schedule, states', actions') && states <= states' && actions <= actions'
    ensures forall k | k == Manual(c) || k == Retry(id) ::
      Owns(states'[|actions'|], k, id) && states'[|actions'|].tasks[k].phase == Sending
  {
    var s := states[|actions|];
    var due := ListsAll(s);
    assert forall k | k in s.tasks :: k.Retry? ==> k in Retries(s);
    var mid, acts := GoOn(schedule, states, actions, Tick(due));
    ListedTask(s, due, id);
    PickedSends(mid[|acts|], id);
    states', actions' := GoOn(schedule, mid, acts, Pick(id, Found));
  }

  lemma PickedSends(s: State, id: Id)
    requires Enabled(s, Pick(id, Found)) && s.tasks[Retry(id)].id == id
    requires var hook := s.tasks[Retry(id)].origin.hook; hook in s.hooks && !s.hooks[hook]
    ensures var s' := Do(s, Pick(id, Found));
      && Retry(id) in s'.tasks && s'.tasks[Retry(id)].id == id && s'.tasks[Retry(id)].phase == Sending
      && forall k | k in s.tasks && k != Retry(id) :: k in s'.tasks && s'.tasks[k] == s.tasks[k]
  {
  }

  lemma ListedTask(s: State, due: seq<Id>, id: Id)
    requires Enabled(s, Tick(due)) && id in due
    ensures var s' := Do(s, Tick(due));
      && Retry(id) in s'.tasks && s'.tasks[Retry(id)].phase == Listed && s'.tasks[Retry(id)].id == id
      && id in s.rows && s'.tasks[Retry(id)].origin == s.rows[id].origin && s'.hooks == s.hooks
      && forall k | k in s.tasks :: k in s'.tasks && s'.tasks[k] == s.tasks[k]
  {
    assert Retry(id) in (set x | x in due :: Retry(x));
  }
}
