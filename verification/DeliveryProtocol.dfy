/** Every goroutine that may touch one delivery row: fresh sends (fan-out and test
    deliveries), the retry loop's tick, and manual redeliveries, interleaved one SQL
    statement or one send boundary at a time, together with pauses, purges and the
    removal of hooks. */
module DeliveryProtocol {
  import opened Clock
  import opened DeliveryTable

  type Caller = nat

  /** redeliverLease. */
  const LEASE: int := 600 * SECOND

  /** Which goroutine: the one sending a fresh delivery, the retry loop's one for a
      listed row, or the request that redelivers by hand. */
  datatype Key = Fresh(id: Id) | Retry(id: Id) | Manual(caller: Caller)

  /** Listed: returned by DueDeliveries, not yet picked. Checked: read dead by Redeliver,
      not yet claimed. Sending: one attempt in flight. Ended: its outcome is known and
      not yet recorded. */
  datatype Phase = Listed | Checked | Sending | Ended(accepted: bool)

  /** attempts and dueSec are the goroutine's own copy of the row; readAt is the clock
      Redeliver took before it claimed. */
  datatype Task = Task(id: Id, origin: Origin, attempts: nat, dueSec: int, readAt: int, phase: Phase)

  /** The story of one pass through the schedule, kept for the statements below only:
      attempts made since it began, when the first of them failed, when it died, and
      whether every store call for it went through. */
  datatype Epoch = Epoch(made: nat, first: int, deadAt: int, clean: bool)

  datatype State = State(
    schedule: seq<nat>,
    now: int,
    rows: Rows,
    hooks: map<Hook, bool>,
    tasks: map<Key, Task>,
    used: set<Id>,
    epochs: map<Id, Epoch>,
    died: multiset<Id>,
    claimed: multiset<Id>,
    removed: multiset<Id>)

  datatype Lookup = Found | Missing

  datatype Action =
    | Advance(dt: nat)
    | SetHook(hook: Hook, paused: bool)
    | RemoveHook(hook: Hook)
    | StartFresh(id: Id, origin: Origin)
    | Tick(due: seq<Id>)
    | Pick(id: Id, lookup: Lookup)
    | Abandon(id: Id)
    | Read(caller: Caller, id: Id, maxAgeSec: int)
    | Claim(caller: Caller)
    | SendEnds(key: Key, accepted: bool)
    | Record(key: Key, stored: bool, error: string)
    | Purge(cutoffSec: int, policy: map<Hook, int>)

  function Init(schedule: seq<nat>, now: int): State {
    State(schedule, now, map[], map[], map[], {}, map[], multiset{}, multiset{}, multiset{})
  }

  function Paused(s: State): set<Hook> {
    set h | h in s.hooks && s.hooks[h]
  }

  // ---------------------------------------------------------------- the steps

  ghost predicate Enabled(s: State, a: Action) {
    match a
    case Advance(_) => true
    case SetHook(_, _) => true
    case RemoveHook(_) => true
    case StartFresh(id, _) => id !in s.used
    case Tick(due) =>
      && (forall k | k in s.tasks :: !k.Retry?)
      && IsDueList(s.rows, Paused(s), Unix(s.now), 100, due)
    case Pick(id, _) => Retry(id) in s.tasks && s.tasks[Retry(id)].phase == Listed
    case Abandon(id) => Retry(id) in s.tasks && s.tasks[Retry(id)].phase == Listed
    case Read(c, id, maxAge) =>
      && Manual(c) !in s.tasks
      && id in s.rows
      && s.rows[id].dead
      && !(maxAge > 0 && s.now - s.rows[id].origin.createdSec * SECOND > maxAge * SECOND)
    case Claim(c) => Manual(c) in s.tasks && s.tasks[Manual(c)].phase == Checked
    case SendEnds(k, _) => k in s.tasks && s.tasks[k].phase == Sending
    case Record(k, _, _) => k in s.tasks && s.tasks[k].phase.Ended?
    case Purge(_, _) => true
  }

  /** Ids whose row is dead in before and gone in after. */
  function DeadGone(before: Rows, after: Rows): set<Id> {
    set id | id in before && before[id].dead && id !in after
  }

  function WithRemoved(s: State, rows: Rows): State {
    s.(rows := rows, removed := s.removed + multiset(DeadGone(s.rows, rows)))
  }

  function AfterTick(s: State, due: seq<Id>): State
    requires forall id | id in due :: id in s.rows
  {
    s.(tasks := s.tasks +
                (map k: Key | k in (set id | id in due :: Retry(id)) ::
                   var r := s.rows[k.id];
                   Task(k.id, r.origin, r.attempts, r.dueSec, s.now, Listed)))
  }

  function AfterPick(s: State, id: Id, lookup: Lookup): State
    requires Retry(id) in s.tasks
  {
    var t := s.tasks[Retry(id)];
    if lookup.Missing? || t.origin.hook !in s.hooks then
      WithRemoved(s.(tasks := s.tasks - {Retry(id)}), s.rows - {id})
    else if s.hooks[t.origin.hook] then
      s.(tasks := s.tasks - {Retry(id)})
    else
      Attempt(s, Retry(id), t.(attempts := t.attempts + 1, phase := Sending))
  }

  /** One more attempt of t's delivery goes out. */
  function Attempt(s: State, k: Key, t: Task): State {
    var e := if t.id in s.epochs then s.epochs[t.id] else Epoch(0, 0, 0, true);
    s.(tasks := s.tasks[k := t], epochs := s.epochs[t.id := e.(made := e.made + 1)])
  }

  function AfterClaim(s: State, c: Caller): State
    requires Manual(c) in s.tasks
  {
    var t := s.tasks[Manual(c)];
    if t.id in s.rows && s.rows[t.id].dead then
      s.(rows := Revived(s.rows, t.id, Unix(t.readAt + LEASE)),
         tasks := s.tasks[Manual(c) := t.(attempts := 1, phase := Sending)],
         epochs := s.epochs[t.id := Epoch(1, 0, 0, true)],
         claimed := s.claimed + multiset{t.id})
    else
      s.(tasks := s.tasks - {Manual(c)})
  }

  /** schedule: what a failed attempt writes. */
  function Scheduled(schedule: seq<nat>, now: int, t: Task, error: string): Row
    requires t.attempts >= 1
  {
    if t.attempts - 1 < |schedule|
    then Row(t.origin, t.attempts, Unix(now + schedule[t.attempts - 1]), error, false)
    else Row(t.origin, t.attempts, t.dueSec, error, true)
  }

  function Unclean(epochs: map<Id, Epoch>, id: Id): map<Id, Epoch> {
    if id in epochs then epochs[id := epochs[id].(clean := false)] else epochs
  }

  function AfterRecord(s: State, k: Key, stored: bool, error: string): State
    requires k in s.tasks && s.tasks[k].phase.Ended?
  {
    var t := s.tasks[k];
    var done := s.(tasks := s.tasks - {k});
    if t.phase.accepted then
      if k.Fresh? then done
      else if !stored then done.(epochs := Unclean(s.epochs, t.id))
      else WithRemoved(done, s.rows - {t.id})
    else if t.attempts == 0 || !stored then
      done.(epochs := Unclean(s.epochs, t.id))
    else
      var row := Scheduled(s.schedule, s.now, t, error);
      var e := if t.id in s.epochs then s.epochs[t.id] else Epoch(0, 0, 0, true);
      var e1 := if t.attempts == 1 then e.(first := s.now) else e;
      done.(rows := Saved(s.rows, t.id, row),
            died := if row.dead then s.died + multiset{t.id} else s.died,
            epochs := s.epochs[t.id := if row.dead then e1.(deadAt := s.now) else e1])
  }

  function Do(s: State, a: Action): State
    requires Enabled(s, a)
  {
    match a
    case Advance(dt) => s.(now := s.now + dt)
    case SetHook(h, p) => s.(hooks := s.hooks[h := p])
    case RemoveHook(h) => WithRemoved(s.(hooks := s.hooks - {h}), WithoutHook(s.rows, h))
    case StartFresh(id, o) =>
      Attempt(s.(used := s.used + {id}), Fresh(id), Task(id, o, 1, ZERO_TIME_SEC, s.now, Sending))
    case Tick(due) => AfterTick(s, due)
    case Pick(id, lookup) => AfterPick(s, id, lookup)
    case Abandon(id) => s.(tasks := s.tasks - {Retry(id)})
    case Read(c, id, _) =>
      var r := s.rows[id];
      s.(tasks := s.tasks[Manual(c) := Task(id, r.origin, r.attempts, r.dueSec, s.now, Checked)])
    case Claim(c) => AfterClaim(s, c)
    case SendEnds(k, ok) => s.(tasks := s.tasks[k := s.tasks[k].(phase := Ended(ok))])
    case Record(k, stored, error) => AfterRecord(s, k, stored, error)
    case Purge(cutoff, policy) => WithRemoved(s, Purged(s.rows, Unix(s.now), cutoff, policy))
  }

  /** A claimed redelivery still has its lease: the one thing asked of the world is that
      the send and the write after it end before the lease does. */
  ghost predicate LeaseKept(s: State) {
    forall k | k in s.tasks && k.Manual? && s.tasks[k].phase != Checked ::
      Unix(s.now) < Unix(s.tasks[k].readAt + LEASE)
  }

  /** A run: the states passed through and the action taken from each to the next. */
  ghost predicate Run(schedule: seq<nat>, states: seq<State>, actions: seq<Action>) {
    && |states| == |actions| + 1
    && states[0] == Init(schedule, states[0].now)
    && (forall i | 0 <= i < |actions| :: Enabled(states[i], actions[i]) && states[i + 1] == Do(states[i], actions[i]))
  }

  ghost predicate RunInLease(schedule: seq<nat>, states: seq<State>, actions: seq<Action>) {
    Run(schedule, states, actions) && forall i | 0 <= i < |actions| :: LeaseKept(states[i])
  }

  // ----------------------------------------------------------- the invariant

  /** Task k holds delivery id: it is listed, sending, or about to record. */
  ghost predicate Owns(s: State, k: Key, id: Id) {
    k in s.tasks && s.tasks[k].id == id && s.tasks[k].phase != Checked
  }

  ghost predicate TaskOk(s: State, k: Key)
    requires k in s.tasks
  {
    var t := s.tasks[k];
    && t.id in s.used
    && match k
       case Fresh(id) => t.id == id && id !in s.rows && t.attempts == 1 && (t.phase == Sending || t.phase.Ended?)
       case Retry(id) =>
         && t.id == id && t.phase != Checked
         && (t.phase != Listed ==> t.attempts >= 1)
         && (id in s.rows ==>
               && !s.rows[id].dead
               && s.rows[id].dueSec == t.dueSec
               && s.rows[id].attempts == if t.phase == Listed then t.attempts else t.attempts - 1)
       case Manual(_) =>
         && t.phase != Listed
         && (t.phase != Checked ==>
               && t.attempts == 1
               && (t.id in s.rows ==> !s.rows[t.id].dead && s.rows[t.id].dueSec == Unix(t.readAt + LEASE)))
  }

  ghost predicate Exclusive(s: State) {
    forall k1, k2, id :: Owns(s, k1, id) && Owns(s, k2, id) ==> k1 == k2
  }

  ghost predicate Inv(s: State) {
    && (forall k | k in s.tasks :: TaskOk(s, k))
    && s.rows.Keys <= s.used
    && Exclusive(s)
  }

  lemma TickKeeps(s: State, due: seq<Id>)
    requires Inv(s) && LeaseKept(s) && Enabled(s, Tick(due))
    ensures Inv(Do(s, Tick(due)))
  {
    var s' := Do(s, Tick(due));
    forall k | k in s'.tasks
      ensures TaskOk(s', k)
    {
      if k in s.tasks { assert TaskOk(s, k); } else { assert k.Retry? && k.id in due; }
    }
    forall k1, k2, id | Owns(s', k1, id) && Owns(s', k2, id)
      ensures k1 == k2
    {
      NotOwnedIfDue(s, k1, due);
      NotOwnedIfDue(s, k2, due);
      if k1 in s.tasks && k2 in s.tasks { assert Owns(s, k1, id) && Owns(s, k2, id); }
    }
  }

  /** Nothing that holds a delivery holds one the tick lists. */
  lemma NotOwnedIfDue(s: State, k: Key, due: seq<Id>)
    requires Inv(s) && LeaseKept(s) && Enabled(s, Tick(due))
    ensures k in s.tasks && s.tasks[k].phase != Checked ==> s.tasks[k].id !in due
  {
    if k in s.tasks && s.tasks[k].phase != Checked {
      assert TaskOk(s, k);
      forall i | 0 <= i < |due|
        ensures due[i] != s.tasks[k].id
      {
        assert IsDue(s.rows, Paused(s), Unix(s.now), due[i]);
      }
    }
  }

  lemma ExclusiveAfter(s: State, s': State)
    requires Exclusive(s)
    requires forall k, id | Owns(s', k, id) :: Owns(s, k, id)
    ensures Exclusive(s')
  {
  }

  lemma ExclusiveWith(s: State, s': State, newKey: Key, newId: Id)
    requires Exclusive(s)
    requires forall k, id | Owns(s', k, id) :: Owns(s, k, id) || (k == newKey && id == newId)
    requires forall k :: !Owns(s, k, newId)
    ensures Exclusive(s')
  {
  }

  lemma OtherHolder(s: State, holder: Key, id: Id, k: Key)
    requires Inv(s) && Owns(s, holder, id) && k != holder && k in s.tasks && s.tasks[k].phase != Checked
    ensures s.tasks[k].id != id
  {
    assert Owns(s, k, s.tasks[k].id);
  }

  lemma PickTask(s: State, id: Id, lookup: Lookup, k: Key)
    requires Inv(s) && Enabled(s, Pick(id, lookup)) && k in Do(s, Pick(id, lookup)).tasks
    ensures TaskOk(Do(s, Pick(id, lookup)), k)
  {
    assert TaskOk(s, Retry(id)) && TaskOk(s, k);
  }

  lemma PickKeeps(s: State, id: Id, lookup: Lookup)
    requires Inv(s) && Enabled(s, Pick(id, lookup))
    ensures Inv(Do(s, Pick(id, lookup)))
  {
    var s' := Do(s, Pick(id, lookup));
    forall k | k in s'.tasks
      ensures TaskOk(s', k)
    {
      PickTask(s, id, lookup, k);
    }
    ExclusiveAfter(s, s');
  }

  lemma ClaimTask(s: State, c: Caller, k: Key)
    requires Inv(s) && Enabled(s, Claim(c)) && k in Do(s, Claim(c)).tasks
    ensures TaskOk(Do(s, Claim(c)), k)
  {
    assert TaskOk(s, Manual(c)) && TaskOk(s, k);
  }

  lemma ClaimKeeps(s: State, c: Caller)
    requires Inv(s) && Enabled(s, Claim(c))
    ensures Inv(Do(s, Claim(c)))
  {
    var s' := Do(s, Claim(c));
    var id := s.tasks[Manual(c)].id;
    forall k | k in s'.tasks
      ensures TaskOk(s', k)
    {
      ClaimTask(s, c, k);
    }
    if id in s.rows && s.rows[id].dead {
      NotOwnedIfDead(s, id);
      ExclusiveWith(s, s', Manual(c), id);
    } else {
      ExclusiveAfter(s, s');
    }
  }

  lemma RecordFrame(s: State, k: Key, stored: bool, error: string, id: Id)
    requires k in s.tasks && s.tasks[k].phase.Ended? && id != s.tasks[k].id
    ensures var s' := AfterRecord(s, k, stored, error);
            && s'.schedule == s.schedule && s'.now == s.now && s'.tasks == s.tasks - {k}
            && (id in s'.rows <==> id in s.rows) && (id in s.rows ==> s'.rows[id] == s.rows[id])
            && (id in s'.epochs <==> id in s.epochs) && (id in s.epochs ==> s'.epochs[id] == s.epochs[id])
  {
  }

  lemma RecordTask(s: State, k: Key, stored: bool, error: string, j: Key)
    requires Inv(s) && Enabled(s, Record(k, stored, error)) && j in Do(s, Record(k, stored, error)).tasks
    ensures TaskOk(Do(s, Record(k, stored, error)), j)
  {
    assert TaskOk(s, j);
    if s.tasks[j].phase != Checked {
      OtherHolder(s, k, s.tasks[k].id, j);
      RecordFrame(s, k, stored, error, s.tasks[j].id);
    }
  }

  lemma RecordKeeps(s: State, k: Key, stored: bool, error: string)
    requires Inv(s) && Enabled(s, Record(k, stored, error))
    ensures Inv(Do(s, Record(k, stored, error)))
  {
    var s' := Do(s, Record(k, stored, error));
    assert TaskOk(s, k);
    forall j | j in s'.tasks
      ensures TaskOk(s', j)
    {
      RecordTask(s, k, stored, error, j);
    }
    ExclusiveAfter(s, s');
  }

  lemma FreshKeeps(s: State, id: Id, o: Origin)
    requires Inv(s) && Enabled(s, StartFresh(id, o))
    ensures Inv(Do(s, StartFresh(id, o)))
  {
    var s' := Do(s, StartFresh(id, o));
    forall k | k in s'.tasks
      ensures TaskOk(s', k)
    {
      if k in s.tasks { assert TaskOk(s, k); }
    }
    forall k
      ensures !Owns(s, k, id)
    {
      if k in s.tasks { assert TaskOk(s, k); }
    }
    ExclusiveWith(s, s', Fresh(id), id);
  }

  /** The steps that only shrink the table, move the clock, or touch one task's phase. */
  lemma OtherKeeps(s: State, a: Action)
    requires Inv(s) && Enabled(s, a)
    requires a.Advance? || a.SetHook? || a.RemoveHook? || a.Abandon? || a.Read? || a.SendEnds? || a.Purge?
    ensures Inv(Do(s, a))
  {
    var s' := Do(s, a);
    forall k | k in s'.tasks
      ensures TaskOk(s', k)
    {
      if k in s.tasks { assert TaskOk(s, k); }
    }
    ExclusiveAfter(s, s');
  }

  lemma StepKeeps(s: State, a: Action)
    requires Inv(s) && LeaseKept(s) && Enabled(s, a)
    ensures Inv(Do(s, a))
  {
    match a {
      case Tick(due) => TickKeeps(s, due);
      case Pick(id, lookup) => PickKeeps(s, id, lookup);
      case Claim(c) => ClaimKeeps(s, c);
      case Record(k, stored, error) => RecordKeeps(s, k, stored, error);
      case StartFresh(id, o) => FreshKeeps(s, id, o);
      case Advance(_) => OtherKeeps(s, a);
      case SetHook(_, _) => OtherKeeps(s, a);
      case RemoveHook(_) => OtherKeeps(s, a);
      case Abandon(_) => OtherKeeps(s, a);
      case Read(_, _, _) => OtherKeeps(s, a);
      case SendEnds(_, _) => OtherKeeps(s, a);
      case Purge(_, _) => OtherKeeps(s, a);
    }
  }

  lemma {:induction false} InvHolds(schedule: seq<nat>, states: seq<State>, actions: seq<Action>, i: nat)
    requires RunInLease(schedule, states, actions) && i < |states|
    ensures Inv(states[i])
  {
    if i > 0 {
      InvHolds(schedule, states, actions, i - 1);
      StepKeeps(states[i - 1], actions[i - 1]);
    }
  }

  // -------------------------------------------------- one attempt, one claim

  ghost predicate SoleHolder(s: State, holder: Key, id: Id) {
    forall k :: Owns(s, k, id) <==> k == holder
  }

  lemma OnlyClaimRevives(s: State, a: Action, id: Id)
    requires Inv(s) && Enabled(s, a) && id in s.rows && s.rows[id].dead
    ensures id in Do(s, a).rows && !Do(s, a).rows[id].dead ==> a.Claim? && s.tasks[Manual(a.caller)].id == id
  {
    if a.Record? { assert TaskOk(s, a.key); }
  }

  /** A dead row comes back to life in exactly one way: one caller's claim, and from then
      on that caller alone holds the delivery. */
  lemma RevivedByOneCaller(schedule: seq<nat>, states: seq<State>, actions: seq<Action>, i: nat, id: Id)
    requires RunInLease(schedule, states, actions) && i < |actions|
    requires id in states[i].rows && states[i].rows[id].dead
    requires id in states[i + 1].rows && !states[i + 1].rows[id].dead
    ensures actions[i].Claim? && states[i].tasks[Manual(actions[i].caller)].id == id
    ensures SoleHolder(states[i + 1], Manual(actions[i].caller), id)
    ensures states[i + 1].claimed[id] == states[i].claimed[id] + 1
  {
    InvHolds(schedule, states, actions, i);
    InvHolds(schedule, states, actions, i + 1);
    OnlyClaimRevives(states[i], actions[i], id);
    assert Owns(states[i + 1], Manual(actions[i].caller), id);
  }

  // ------------------------------------------------ every death is spent once

  function DeadNow(s: State, id: Id): nat {
    if id in s.rows && s.rows[id].dead then 1 else 0
  }

  /** Each death of a delivery is still in the table, was claimed once, or was removed once. */
  ghost predicate Balanced(s: State, id: Id) {
    s.died[id] == s.claimed[id] + s.removed[id] + DeadNow(s, id)
  }

  lemma BalanceRecord(s: State, k: Key, stored: bool, error: string, id: Id)
    requires Inv(s) && Balanced(s, id) && Enabled(s, Record(k, stored, error))
    ensures Balanced(Do(s, Record(k, stored, error)), id)
  {
    assert TaskOk(s, k);
    var s' := Do(s, Record(k, stored, error));
    assert s.tasks[k].phase.accepted ==> DeadGone(s.rows, s.rows - {s.tasks[k].id}) == {};
  }

  lemma BalancePick(s: State, p: Id, lookup: Lookup, id: Id)
    requires Inv(s) && Balanced(s, id) && Enabled(s, Pick(p, lookup))
    ensures Balanced(Do(s, Pick(p, lookup)), id)
  {
    assert TaskOk(s, Retry(p));
    assert DeadGone(s.rows, s.rows - {p}) == {};
  }

  lemma BalanceStep(s: State, a: Action, id: Id)
    requires Inv(s) && Balanced(s, id) && Enabled(s, a)
    ensures Balanced(Do(s, a), id)
  {
    match a {
      case Record(k, stored, error) => BalanceRecord(s, k, stored, error, id);
      case Pick(p, lookup) => BalancePick(s, p, lookup, id);
      case Purge(cutoff, policy) => BalanceRemoval(s, Purged(s.rows, Unix(s.now), cutoff, policy), id);
      case RemoveHook(h) => BalanceRemoval(s, WithoutHook(s.rows, h), id);
      case Advance(_) =>
      case SetHook(_, _) =>
      case StartFresh(_, _) =>
      case Tick(_) =>
      case Abandon(_) =>
      case Read(_, _, _) =>
      case Claim(_) =>
      case SendEnds(_, _) =>
    }
  }

  lemma BalanceRemoval(s: State, rows: Rows, id: Id)
    requires Balanced(s, id)
    requires forall i | i in rows :: i in s.rows && rows[i] == s.rows[i]
    ensures Balanced(WithRemoved(s, rows), id)
  {
    assert multiset(DeadGone(s.rows, rows))[id] == if id in DeadGone(s.rows, rows) then 1 else 0;
  }

  /** Over every run, the deaths of a delivery are its claims, its removals, and the one it
      may be lying in now: no death is claimed twice, and none is both claimed and purged. */
  lemma {:induction false} EveryDeathIsSpentOnce(
      schedule: seq<nat>, states: seq<State>, actions: seq<Action>, i: nat, id: Id)
    requires RunInLease(schedule, states, actions) && i < |states|
    ensures Balanced(states[i], id)
  {
    if i > 0 {
      EveryDeathIsSpentOnce(schedule, states, actions, i - 1, id);
      InvHolds(schedule, states, actions, i - 1);
      BalanceStep(states[i - 1], actions[i - 1], id);
    }
  }

  // --------------------------------------------------- the schedule's bounds

  function Sum(schedule: seq<nat>, k: nat): (total: nat)
    requires k <= |schedule|
  {
    if k == 0 then 0 else Sum(schedule, k - 1) + schedule[k - 1]
  }

  /** The soonest the k-th wait can be over after the first failure: truncating to whole
      seconds may eat up to one second of each wait. */
  function Floor(schedule: seq<nat>, k: nat): int
    requires k <= |schedule|
  {
    Sum(schedule, k) - k * SECOND
  }

  ghost predicate CleanEpoch(s: State, id: Id) {
    id in s.epochs && s.epochs[id].clean
  }

  /** What an unfinished goroutine knows of its delivery's epoch. */
  ghost predicate TaskEpoch(s: State, k: Key)
    requires k in s.tasks
  {
    var t := s.tasks[k];
    t.phase != Checked && CleanEpoch(s, t.id) ==>
      var e := s.epochs[t.id];
      var n := |s.schedule|;
      match k
      case Fresh(_) => e.made == 1
      case Manual(_) => e.made == 1
      case Retry(_) =>
        && e.made == t.attempts
        && if t.phase == Listed
           then 1 <= e.made <= n && s.now >= e.first + Floor(s.schedule, e.made)
           else 2 <= e.made <= n + 1 && s.now >= e.first + Floor(s.schedule, e.made - 1)
  }

  /** What a row nobody is sending says about its epoch. */
  ghost predicate RowEpoch(s: State, id: Id)
    requires id in s.rows
  {
    CleanEpoch(s, id) && (forall k | Owns(s, k, id) :: s.tasks[k].phase == Listed) ==>
      var e := s.epochs[id];
      var n := |s.schedule|;
      && s.rows[id].attempts == e.made
      && if s.rows[id].dead
         then e.made == n + 1 && e.deadAt >= e.first + Floor(s.schedule, n)
         else 1 <= e.made <= n && s.rows[id].dueSec * SECOND > e.first + Floor(s.schedule, e.made)
  }

  ghost predicate EpochInv(s: State) {
    && (forall k | k in s.tasks :: TaskEpoch(s, k))
    && (forall id | id in s.rows :: RowEpoch(s, id))
    && s.used == s.epochs.Keys
  }

  lemma TaskEpochFrame(s: State, s': State, k: Key)
    requires k in s.tasks && k in s'.tasks && s'.tasks[k] == s.tasks[k] && TaskEpoch(s, k)
    requires s'.schedule == s.schedule && s'.now >= s.now
    requires s.tasks[k].id in s.epochs && s.tasks[k].id in s'.epochs
    requires s'.epochs[s.tasks[k].id] == s.epochs[s.tasks[k].id]
    ensures TaskEpoch(s', k)
  {
  }

  lemma RecordTaskEpoch(s: State, k: Key, stored: bool, error: string, j: Key)
    requires Inv(s) && EpochInv(s) && Enabled(s, Record(k, stored, error)) && j != k && j in s.tasks
    ensures TaskEpoch(Do(s, Record(k, stored, error)), j)
  {
    assert TaskEpoch(s, j) && TaskOk(s, j);
    if s.tasks[j].phase != Checked {
      OtherHolder(s, k, s.tasks[k].id, j);
      RecordFrame(s, k, stored, error, s.tasks[j].id);
      TaskEpochFrame(s, Do(s, Record(k, stored, error)), j);
    }
  }

  /** The row the record is about. */
  lemma RecordRowEpoch(s: State, k: Key, stored: bool, error: string)
    requires Enabled(s, Record(k, stored, error)) && TaskOk(s, k) && TaskEpoch(s, k)
    requires s.tasks[k].id in AfterRecord(s, k, stored, error).rows
    requires s.tasks[k].id in s.epochs
    ensures RowEpoch(AfterRecord(s, k, stored, error), s.tasks[k].id)
  {
    var t := s.tasks[k];
    var n := |s.schedule|;
    if t.attempts - 1 < n {
      var wait := s.schedule[t.attempts - 1];
      assert Unix(s.now + wait) * SECOND > s.now + wait - SECOND;
      assert Sum(s.schedule, t.attempts) == Sum(s.schedule, t.attempts - 1) + wait;
    } else if CleanEpoch(s, t.id) {
      assert t.attempts == s.epochs[t.id].made == n + 1;
    }
  }

  lemma RecordOtherRow(s: State, k: Key, stored: bool, error: string, id: Id)
    requires Inv(s) && EpochInv(s) && Enabled(s, Record(k, stored, error)) && id != s.tasks[k].id
    requires id in Do(s, Record(k, stored, error)).rows
    ensures RowEpoch(Do(s, Record(k, stored, error)), id)
  {
    var s' := Do(s, Record(k, stored, error));
    RecordFrame(s, k, stored, error, id);
    assert RowEpoch(s, id);
    assert forall j | Owns(s, j, id) :: Owns(s', j, id) && s'.tasks[j] == s.tasks[j];
  }

  lemma RecordEpoch(s: State, k: Key, stored: bool, error: string)
    requires Inv(s) && EpochInv(s) && Enabled(s, Record(k, stored, error))
    ensures EpochInv(Do(s, Record(k, stored, error)))
  {
    var s' := Do(s, Record(k, stored, error));
    forall j | j in s'.tasks
      ensures TaskEpoch(s', j)
    {
      RecordTaskEpoch(s, k, stored, error, j);
    }
    forall id | id in s'.rows
      ensures RowEpoch(s', id)
    {
      if id == s.tasks[k].id {
        assert TaskOk(s, k) && TaskEpoch(s, k);
        RecordRowEpoch(s, k, stored, error);
      } else {
        RecordOtherRow(s, k, stored, error, id);
      }
    }
    assert TaskOk(s, k);
  }

  lemma TickEpoch(s: State, due: seq<Id>)
    requires Inv(s) && EpochInv(s) && LeaseKept(s) && Enabled(s, Tick(due))
    ensures EpochInv(Do(s, Tick(due)))
  {
    var s' := Do(s, Tick(due));
    forall k | k in s'.tasks
      ensures TaskEpoch(s', k)
    {
      if k in s.tasks {
        assert TaskEpoch(s, k);
      } else {
        assert k.Retry? && k.id in due;
        NothingOwnsListed(s, due, k.id);
        assert RowEpoch(s, k.id) && IsDue(s.rows, Paused(s), Unix(s.now), k.id);
        assert s.rows[k.id].dueSec * SECOND <= Unix(s.now) * SECOND <= s.now;
      }
    }
    forall id | id in s'.rows
      ensures RowEpoch(s', id)
    {
      assert RowEpoch(s, id);
      forall k | Owns(s, k, id)
        ensures Owns(s', k, id)
      {
      }
    }
  }

  lemma NothingOwnsListed(s: State, due: seq<Id>, id: Id)
    requires Inv(s) && LeaseKept(s) && Enabled(s, Tick(due)) && id in due
    ensures forall k :: !Owns(s, k, id)
    ensures IsDue(s.rows, Paused(s), Unix(s.now), id)
  {
    forall k
      ensures !Owns(s, k, id)
    {
      NotOwnedIfDue(s, k, due);
    }
    var i :| 0 <= i < |due| && due[i] == id;
    assert IsDue(s.rows, Paused(s), Unix(s.now), due[i]);
  }

  lemma PickTaskEpoch(s: State, id: Id, lookup: Lookup, k: Key)
    requires Inv(s) && EpochInv(s) && Enabled(s, Pick(id, lookup))
    requires k in Do(s, Pick(id, lookup)).tasks
    ensures TaskEpoch(Do(s, Pick(id, lookup)), k)
  {
    assert TaskOk(s, k) && TaskEpoch(s, k);
    if k != Retry(id) && s.tasks[k].phase != Checked {
      OtherHolder(s, Retry(id), id, k);
      PickFrame(s, id, lookup, s.tasks[k].id);
      TaskEpochFrame(s, Do(s, Pick(id, lookup)), k);
    }
  }

  lemma PickFrame(s: State, id: Id, lookup: Lookup, other: Id)
    requires Inv(s) && Enabled(s, Pick(id, lookup)) && other != id
    ensures var s' := Do(s, Pick(id, lookup));
            && s'.schedule == s.schedule && s'.now == s.now
            && (forall k | k in s'.tasks && k != Retry(id) :: k in s.tasks && s'.tasks[k] == s.tasks[k])
            && (other in s'.rows <==> other in s.rows) && (other in s.rows ==> s'.rows[other] == s.rows[other])
            && (other in s'.epochs <==> other in s.epochs) && (other in s.epochs ==> s'.epochs[other] == s.epochs[other])
  {
    assert TaskOk(s, Retry(id));
  }

  lemma ClaimTaskEpoch(s: State, c: Caller, k: Key)
    requires Inv(s) && EpochInv(s) && Enabled(s, Claim(c))
    requires k in Do(s, Claim(c)).tasks
    ensures TaskEpoch(Do(s, Claim(c)), k)
  {
    assert TaskOk(s, Manual(c)) && TaskOk(s, k) && TaskEpoch(s, k);
  }

  lemma OtherTaskEpoch(s: State, a: Action, k: Key)
    requires Inv(s) && EpochInv(s) && Enabled(s, a) && !a.Record? && !a.Tick?
    requires k in Do(s, a).tasks
    ensures TaskEpoch(Do(s, a), k)
  {
    if k in s.tasks { assert TaskEpoch(s, k) && TaskOk(s, k); }
    match a {
      case Pick(id, lookup) => PickTaskEpoch(s, id, lookup, k);
      case Claim(c) => ClaimTaskEpoch(s, c, k);
      case Advance(_) =>
      case SetHook(_, _) =>
      case RemoveHook(_) =>
      case StartFresh(_, _) =>
      case Abandon(_) =>
      case Read(_, _, _) =>
      case SendEnds(_, _) =>
      case Purge(_, _) =>
    }
  }

  lemma PickRowEpoch(s: State, p: Id, lookup: Lookup, id: Id)
    requires Inv(s) && EpochInv(s) && Enabled(s, Pick(p, lookup)) && id in Do(s, Pick(p, lookup)).rows
    ensures RowEpoch(Do(s, Pick(p, lookup)), id)
  {
    var s' := Do(s, Pick(p, lookup));
    assert TaskOk(s, Retry(p)) && RowEpoch(s, id);
    OwnersStay(s, Pick(p, lookup), id);
    if p == id && Retry(id) in s'.tasks { assert Owns(s', Retry(id), id); }
  }

  lemma ClaimRowEpoch(s: State, c: Caller, id: Id)
    requires Inv(s) && EpochInv(s) && Enabled(s, Claim(c)) && id in Do(s, Claim(c)).rows
    ensures RowEpoch(Do(s, Claim(c)), id)
  {
    var s' := Do(s, Claim(c));
    assert RowEpoch(s, id);
    OwnersStay(s, Claim(c), id);
    if s'.rows[id] != s.rows[id] { assert Owns(s', Manual(c), id); }
  }

  lemma OtherRowEpoch(s: State, a: Action, id: Id)
    requires Inv(s) && EpochInv(s) && Enabled(s, a) && !a.Record? && !a.Tick?
    requires id in Do(s, a).rows
    ensures RowEpoch(Do(s, a), id)
  {
    match a {
      case Claim(c) => ClaimRowEpoch(s, c, id);
      case Pick(p, lookup) => PickRowEpoch(s, p, lookup, id);
      case Advance(_) => QuietRowEpoch(s, a, id);
      case SetHook(_, _) => QuietRowEpoch(s, a, id);
      case RemoveHook(_) => QuietRowEpoch(s, a, id);
      case StartFresh(_, _) => QuietRowEpoch(s, a, id);
      case Abandon(_) => QuietRowEpoch(s, a, id);
      case Read(_, _, _) => QuietRowEpoch(s, a, id);
      case SendEnds(_, _) => QuietRowEpoch(s, a, id);
      case Purge(_, _) => QuietRowEpoch(s, a, id);
    }
  }

  /** Steps that leave every surviving row and its epoch as they were. */
  lemma QuietRowEpoch(s: State, a: Action, id: Id)
    requires Inv(s) && EpochInv(s) && Enabled(s, a) && !a.Record? && !a.Tick? && !a.Pick? && !a.Claim?
    requires id in Do(s, a).rows
    ensures RowEpoch(Do(s, a), id)
  {
    assert RowEpoch(s, id);
    OwnersStay(s, a, id);
    var s' := Do(s, a);
    assert s'.rows[id] == s.rows[id] && CleanEpoch(s, id) == CleanEpoch(s', id);
    assert CleanEpoch(s, id) ==> s'.epochs[id] == s.epochs[id];
  }

  lemma OtherEpoch(s: State, a: Action)
    requires Inv(s) && EpochInv(s) && Enabled(s, a) && !a.Record? && !a.Tick?
    ensures EpochInv(Do(s, a))
  {
    var s' := Do(s, a);
    forall k | k in s'.tasks
      ensures TaskEpoch(s', k)
    {
      OtherTaskEpoch(s, a, k);
    }
    forall id | id in s'.rows
      ensures RowEpoch(s', id)
    {
      OtherRowEpoch(s, a, id);
    }
    if a.Pick? { assert TaskOk(s, Retry(a.id)); }
    if a.Claim? { assert TaskOk(s, Manual(a.caller)); }
  }

  /** Outside recording, whoever was past picking a row still is. */
  lemma OwnersStay(s: State, a: Action, id: Id)
    requires Inv(s) && Enabled(s, a) && !a.Record? && !a.Tick?
    ensures forall k | Owns(s, k, id) && s.tasks[k].phase != Listed ::
      Owns(Do(s, a), k, id) && Do(s, a).tasks[k].phase != Listed
  {
  }

  lemma {:induction false} EpochHolds(schedule: seq<nat>, states: seq<State>, actions: seq<Action>, i: nat)
    requires RunInLease(schedule, states, actions) && i < |states|
    ensures EpochInv(states[i]) && states[i].schedule == schedule
  {
    if i > 0 {
      EpochHolds(schedule, states, actions, i - 1);
      InvHolds(schedule, states, actions, i - 1);
      var a := actions[i - 1];
      if a.Record? {
        RecordEpoch(states[i - 1], a.key, a.stored, a.error);
      } else if a.Tick? {
        TickEpoch(states[i - 1], a.due);
      } else {
        OtherEpoch(states[i - 1], a);
      }
    }
  }

  /** A delivery whose store calls all went through is dead only after exactly one attempt
      more than the schedule has waits, however long it was paused in between, and no
      sooner after its first failure than the waits add up to, less one second each. */
  lemma DiesOnSchedule(schedule: seq<nat>, states: seq<State>, actions: seq<Action>, i: nat, id: Id)
    requires RunInLease(schedule, states, actions) && i < |states|
    requires id in states[i].rows && CleanEpoch(states[i], id)
    requires states[i].rows[id].dead
    ensures states[i].rows[id].attempts == states[i].epochs[id].made == |schedule| + 1
    ensures states[i].epochs[id].deadAt - states[i].epochs[id].first >= Sum(schedule, |schedule|) - |schedule| * SECOND
  {
    InvHolds(schedule, states, actions, i);
    EpochHolds(schedule, states, actions, i);
    NotOwnedIfDead(states[i], id);
    assert RowEpoch(states[i], id);
  }

  lemma NotOwnedIfDead(s: State, id: Id)
    requires Inv(s) && id in s.rows && s.rows[id].dead
    ensures forall k :: !Owns(s, k, id)
  {
    forall k
      ensures !Owns(s, k, id)
    {
      if k in s.tasks { assert TaskOk(s, k); }
    }
  }

  /** While it is alive and nobody sends it, the attempts on the row are the attempts made:
      pausing, holding and listing spend none. */
  lemma WaitingSpendsNothing(schedule: seq<nat>, states: seq<State>, actions: seq<Action>, i: nat, id: Id)
    requires RunInLease(schedule, states, actions) && i < |states|
    requires id in states[i].rows && CleanEpoch(states[i], id) && !states[i].rows[id].dead
    requires forall k | Owns(states[i], k, id) :: states[i].tasks[k].phase == Listed
    ensures states[i].rows[id].attempts == states[i].epochs[id].made <= |schedule|
  {
    EpochHolds(schedule, states, actions, i);
    assert RowEpoch(states[i], id);
  }

  /** DefaultRetrySchedule. */
  const DEFAULT_SCHEDULE: seq<nat> :=
    [30 * SECOND, 120 * SECOND, 600 * SECOND, 1800 * SECOND, 7200 * SECOND, 21600 * SECOND, 43200 * SECOND]

  lemma DefaultScheduleFloor()
    ensures DEFAULT_SCHEDULE == // half a minute, 2, 10 and 30 minutes, 2, 6 and 12 hours
      [30_000_000_000, 120_000_000_000, 600_000_000_000, 1_800_000_000_000,
       7_200_000_000_000, 21_600_000_000_000, 43_200_000_000_000]
    ensures Sum(DEFAULT_SCHEDULE, 7) - 7 * SECOND == 74_543 * SECOND
  {
    var d := DEFAULT_SCHEDULE;
    assert Sum(d, 7) == d[0] + d[1] + d[2] + d[3] + d[4] + d[5] + d[6] by {
      assert Sum(d, 4) == Sum(d, 0) + d[0] + d[1] + d[2] + d[3] by {
        assert Sum(d, 2) == Sum(d, 0) + d[0] + d[1];
      }
      assert Sum(d, 6) == Sum(d, 4) + d[4] + d[5];
    }
  }

  // ------------------------------------------------------ without the lease

  lemma Extend(schedule: seq<nat>, states: seq<State>, actions: seq<Action>, a: Action)
      returns (states': seq<State>, actions': seq<Action>)
    requires Run(schedule, states, actions) && Enabled(states[|actions|], a)
    ensures Run(schedule, states', actions')
    ensures |actions'| == |actions| + 1 && states'[|actions'|] == Do(states[|actions|], a)
  {
    states', actions' := states + [Do(states[|actions|], a)], actions + [a];
  }

  /** With no retries configured, a delivery is dead at its first failure. */
  lemma DeadAtOnce(o: Origin) returns (states: seq<State>, actions: seq<Action>)
    requires o.hook == "h"
    ensures Run([], states, actions)
    ensures var s := states[|actions|];
            && s.schedule == [] && s.now == 0 && s.tasks == map[] && s.hooks == map["h" := false]
            && s.rows == map["d" := Row(o, 1, ZERO_TIME_SEC, "refused", true)]
  {
    states, actions := [Init([], 0)], [];
    states, actions := Extend([], states, actions, SetHook("h", false));
    states, actions := Extend([], states, actions, StartFresh("d", o));
    states, actions := Extend([], states, actions, SendEnds(Fresh("d"), false));
    states, actions := Extend([], states, actions, Record(Fresh("d"), true, "refused"));
  }

  lemma LeaseRunsOut(o: Origin) returns (states: seq<State>, actions: seq<Action>)
    requires o.hook == "h"
    ensures Run([], states, actions)
    ensures var s := states[|actions|];
            && s.now == LEASE && s.hooks == map["h" := false]
            && s.tasks == map[Manual(0) := Task("d", o, 1, ZERO_TIME_SEC, 0, Sending)]
            && s.rows == map["d" := Row(o, 1, Unix(LEASE), "refused", false)]
  {
    states, actions := DeadAtOnce(o);
    states, actions := Extend([], states, actions, Read(0, "d", 0));
    states, actions := Extend([], states, actions, Claim(0));
    states, actions := Extend([], states, actions, Advance(LEASE));
  }

  /** The lease matters: a redelivery still sending when its lease runs out is listed and
      sent again. */
  lemma LateSendOverlaps(o: Origin) returns (states: seq<State>, actions: seq<Action>)
    requires o.hook == "h"
    ensures Run([], states, actions)
    ensures var s := states[|actions|];
            && Manual(0) in s.tasks && s.tasks[Manual(0)].phase == Sending
            && Retry("d") in s.tasks && s.tasks[Retry("d")].phase == Sending
            && s.tasks[Manual(0)].id == s.tasks[Retry("d")].id
  {
    states, actions := LeaseRunsOut(o);
    var s := states[|actions|];
    assert Paused(s) == {};
    assert IsDue(s.rows, {}, Unix(s.now), ["d"][0]);
    assert IsDueList(s.rows, {}, Unix(s.now), 100, ["d"]);
    states, actions := Extend([], states, actions, Tick(["d"]));
    var listed := states[|actions|];
    assert "d" in ["d"];
    assert Retry("d") in listed.tasks && listed.tasks[Retry("d")].phase == Listed;
    states, actions := Extend([], states, actions, Pick("d", Found));
  }
}
