/** The Idempotency-Key protocol: one atomic reservation, one winner that runs the
    operation, and everybody else answered from what the winner left. */
module Idempotency {
  import opened Clock
  import opened FreshNames
  import opened Options

  /** One developer's key. */
  datatype Slot = Slot(developer: string, key: string)

  datatype Record = Record(hash: string, status: int, body: string)

  /** A reservation is a row with no response yet. */
  datatype Row = Row(response: Option<Record>, createdSec: int)

  type Table = map<Slot, Row>

  const DAY: int := 86400 * SECOND

  predicate Success(status: int) {
    200 <= status < 300
  }

  // ------------------------------------------------------------- the statements

  /** INSERT ... ON CONFLICT DO NOTHING. */
  function Reserved(t: Table, k: Slot, nowSec: int): Table {
    if k in t then t else t[k := Row(None, nowSec)]
  }

  /** DELETE ... WHERE created_at < cutoff. */
  function Purged(t: Table, cutoffSec: int): Table {
    map k | k in t && t[k].createdSec >= cutoffSec :: t[k]
  }

  datatype Answer = Own(status: int, body: string) | Replay(status: int, body: string) | Conflict | Failed

  /** replayOrConflict, given what the read found. */
  function Reply(found: Option<Row>, hash: string): Answer {
    if found.None? || found.value.response.None? then Conflict
    else
      var rec := found.value.response.value;
      if rec.status == 0 || rec.hash != hash then Conflict else Replay(rec.status, rec.body)
  }

  class KeyStore {
    var rows: Table

    constructor ()
      ensures rows == map[]
    {
      rows := map[];
    }

    /** True for exactly the call that created the row. */
    method ReserveIdempotency(k: Slot, nowSec: int) returns (won: bool)
      modifies this
      ensures rows == Reserved(old(rows), k, nowSec)
      ensures won <==> k !in old(rows)
      ensures rows == if won then old(rows)[k := Row(None, nowSec)] else old(rows)
    {
      won := k !in rows;
      if won {
        rows := rows[k := Row(None, nowSec)];
      }
    }

    method PutIdempotency(k: Slot, rec: Record, nowSec: int)
      modifies this
      ensures rows == old(rows)[k := Row(Some(rec), nowSec)]
    {
      rows := rows[k := Row(Some(rec), nowSec)];
    }

    method DeleteIdempotency(k: Slot)
      modifies this
      ensures rows == old(rows) - {k}
    {
      rows := rows - {k};
    }

    method PurgeIdempotency(cutoffSec: int)
      modifies this
      ensures rows == Purged(old(rows), cutoffSec)
      ensures forall k :: k in rows <==> k in old(rows) && old(rows)[k].createdSec >= cutoffSec
      ensures forall k | k in rows :: rows[k] == old(rows)[k]
    {
      var before := rows;
      rows := map k | k in before && before[k].createdSec >= cutoffSec :: before[k];
    }

    /** A finished response to the same operation is replayed, and nothing else is. */
    method ReplayOrConflict(k: Slot, hash: string) returns (a: Answer)
      ensures a == Reply(if k in rows then Some(rows[k]) else None, hash)
      ensures a.Replay? <==> k in rows && rows[k].response.Some?
                             && rows[k].response.value.status != 0 && rows[k].response.value.hash == hash
      ensures a.Replay? ==> a.status == rows[k].response.value.status && a.body == rows[k].response.value.body
      ensures !a.Replay? ==> a == Conflict
    {
      if k !in rows || rows[k].response.None? {
        return Conflict;
      }
      var rec := rows[k].response.value;
      if rec.status == 0 {
        return Conflict;
      }
      if rec.hash != hash {
        return Conflict;
      }
      return Replay(rec.status, rec.body);
    }
  }

  // ----------------------------------------------------- requests, interleaved

  type Id = nat

  datatype Phase =
    | Lost
    | Holding
    | Ran(status: int, body: string, encodes: bool)
    | Storing(status: int, body: string)
    | Answered(answer: Answer)

  /** life is which lifetime of the key the request met; since is when it reserved. */
  datatype Request = Request(slot: Slot, hash: string, life: nat, since: int, phase: Phase)

  datatype Win = Win(request: Id, rec: Record)

  /** lives counts the purges of each key's row, so (slot, life) names the stretch between
      two of them; wins records, for each, the operations that succeeded with a response that
      can be encoded. Both are there for the statements only. */
  datatype State = State(
    now: int,
    table: Table,
    requests: map<Id, Request>,
    lives: map<Slot, nat>,
    wins: map<(Slot, nat), seq<Win>>)

  datatype Action =
    | Advance(dt: nat)
    | Reserve(r: Id, slot: Slot, hash: string, stored: bool)
    | Look(r: Id, readable: bool)
    | Operate(r: Id, status: int, body: string, encodes: bool)
    | Conclude(r: Id, stored: bool)
    | Put(r: Id, stored: bool)
    | Vanish(r: Id)

  function Init(now: int): State {
    State(now, map[], map[], map[], map[])
  }

  function Life(s: State, k: Slot): nat {
    if k in s.lives then s.lives[k] else 0
  }

  function Wins(s: State, k: Slot, life: nat): seq<Win> {
    if (k, life) in s.wins then s.wins[(k, life)] else []
  }

  predicate Active(p: Phase) {
    p.Holding? || p.Ran? || p.Storing?
  }

  predicate Enabled(s: State, a: Action) {
    match a
    case Advance(_) => true
    case Reserve(r, _, _, _) => r !in s.requests
    case Look(r, _) => r in s.requests && s.requests[r].phase.Lost?
    case Operate(r, _, _, _) => r in s.requests && s.requests[r].phase.Holding?
    case Conclude(r, _) => r in s.requests && s.requests[r].phase.Ran?
    case Put(r, _) => r in s.requests && s.requests[r].phase.Storing?
    case Vanish(r) => r in s.requests && Active(s.requests[r].phase)
  }

  function Phased(s: State, r: Id, p: Phase): State
    requires r in s.requests
  {
    s.(requests := s.requests[r := s.requests[r].(phase := p)])
  }

  function AfterReserve(s: State, r: Id, k: Slot, hash: string, stored: bool): State {
    if !stored then
      s.(requests := s.requests[r := Request(k, hash, Life(s, k), s.now, Answered(Failed))])
    else
      s.(table := Reserved(s.table, k, Unix(s.now)),
         lives := s.lives[k := Life(s, k)],
         requests := s.requests[r := Request(k, hash, Life(s, k), s.now, if k in s.table then Lost else Holding)])
  }

  function AfterLook(s: State, r: Id, readable: bool): State
    requires r in s.requests
  {
    var q := s.requests[r];
    var found := if readable && q.slot in s.table then Some(s.table[q.slot]) else None;
    s.(requests := s.requests[r := q.(life := Life(s, q.slot), phase := Answered(Reply(found, q.hash)))])
  }

  function AfterOperate(s: State, r: Id, status: int, body: string, encodes: bool): State
    requires r in s.requests
  {
    var q := s.requests[r];
    var s' := Phased(s, r, Ran(status, body, encodes));
    if Success(status) && encodes
    then s'.(wins := s.wins[(q.slot, q.life) := Wins(s, q.slot, q.life) + [Win(r, Record(q.hash, status, body))]])
    else s'
  }

  function AfterPurge(s: State): State {
    var kept := Purged(s.table, Unix(s.now - DAY));
    s.(table := kept,
       lives := map k | k in s.lives :: if k in s.table && k !in kept then s.lives[k] + 1 else s.lives[k])
  }

  /** What follows the operation: release on failure, or purge what is old and go on to store. */
  function AfterConclude(s: State, r: Id, stored: bool): State
    requires r in s.requests && s.requests[r].phase.Ran?
  {
    var q := s.requests[r];
    var released := if stored then s.(table := s.table - {q.slot}) else s;
    if !q.phase.encodes then Phased(released, r, Answered(Failed))
    else if Success(q.phase.status) then Phased(AfterPurge(s), r, Storing(q.phase.status, q.phase.body))
    else Phased(released, r, Answered(Own(q.phase.status, q.phase.body)))
  }

  function Do(s: State, a: Action): State
    requires Enabled(s, a)
  {
    match a
    case Advance(dt) => s.(now := s.now + dt)
    case Reserve(r, k, hash, stored) => AfterReserve(s, r, k, hash, stored)
    case Look(r, readable) => AfterLook(s, r, readable)
    case Operate(r, status, body, encodes) => AfterOperate(s, r, status, body, encodes)
    case Conclude(r, stored) => AfterConclude(s, r, stored)
    case Put(r, stored) =>
      var q := s.requests[r];
      var s' := Phased(s, r, Answered(Own(q.phase.status, q.phase.body)));
      if stored
      then s'.(table := s.table[q.slot := Row(Some(Record(q.hash, q.phase.status, q.phase.body)), Unix(s.now))])
      else s'
    case Vanish(r) => s.(requests := s.requests - {r})
  }

  ghost predicate Run(states: seq<State>, actions: seq<Action>) {
    && |states| == |actions| + 1
    && states[0] == Init(states[0].now)
    && forall i | 0 <= i < |actions| :: Enabled(states[i], actions[i]) && states[i + 1] == Do(states[i], actions[i])
  }

  /** Request r has the reservation of slot k. */
  predicate Holds(s: State, r: Id, k: Slot) {
    r in s.requests && s.requests[r].slot == k && Active(s.requests[r].phase)
  }

  /** No request of this key has held its reservation long enough for a purge to take it. */
  ghost predicate Prompt(s: State, k: Slot) {
    forall r | Holds(s, r, k) :: Unix(s.requests[r].since) >= Unix(s.now - DAY)
  }

  /** Every request of this key is done within the day; those of other keys take what they like. */
  ghost predicate PromptRun(states: seq<State>, actions: seq<Action>, k: Slot) {
    Run(states, actions) && forall i | 0 <= i < |actions| :: Prompt(states[i], k)
  }

  /** A day is prompt enough. */
  lemma WithinADay(s: State, k: Slot)
    requires forall r | Holds(s, r, k) :: s.now - s.requests[r].since <= DAY
    ensures Prompt(s, k)
  {
    forall r | Holds(s, r, k)
      ensures Unix(s.requests[r].since) >= Unix(s.now - DAY)
    {
      UnixMonotone(s.now - DAY, s.requests[r].since);
    }
  }

  lemma UnixMonotone(a: int, b: int)
    requires a <= b
    ensures Unix(a) <= Unix(b)
  {
  }

  // ------------------------------------------------------------- the invariant

  ghost predicate OneHolder(s: State, k: Slot) {
    forall r1, r2 :: Holds(s, r1, k) && Holds(s, r2, k) ==> r1 == r2
  }

  /** The record a request's success left. */
  ghost predicate WonBy(s: State, k: Slot, life: nat, rec: Record) {
    |Wins(s, k, life)| == 1 && Wins(s, k, life)[0].rec == rec && Success(rec.status)
  }

  ghost predicate RequestOk(s: State, r: Id)
    requires r in s.requests
  {
    var q := s.requests[r];
    && (Active(q.phase) ==>
          && q.slot in s.table
          && s.table[q.slot].response.None?
          && s.table[q.slot].createdSec == Unix(q.since)
          && q.life == Life(s, q.slot))
    && match q.phase
       case Lost => true
       case Holding => Wins(s, q.slot, q.life) == []
       case Ran(status, body, encodes) =>
         if Success(status) && encodes
         then Wins(s, q.slot, q.life) == [Win(r, Record(q.hash, status, body))]
         else Wins(s, q.slot, q.life) == []
       case Storing(status, body) =>
         Success(status) && Wins(s, q.slot, q.life) == [Win(r, Record(q.hash, status, body))]
       case Answered(Own(status, body)) =>
         Success(status) ==> Wins(s, q.slot, q.life) == [Win(r, Record(q.hash, status, body))]
       case Answered(Replay(status, body)) => WonBy(s, q.slot, q.life, Record(q.hash, status, body))
       case Answered(_) => true
  }

  ghost predicate SlotOk(s: State, k: Slot) {
    && (k in s.table ==> k in s.lives)
    && (k in s.table && s.table[k].response.Some? ==> WonBy(s, k, Life(s, k), s.table[k].response.value))
    && (k !in s.table ==> Wins(s, k, Life(s, k)) == [])
    && (forall life: nat :: |Wins(s, k, life)| <= 1)
    && (forall life: nat :: life > Life(s, k) ==> Wins(s, k, life) == [])
  }

  /** One key's row, lives and wins, and the requests that name it. */
  ghost predicate Inv(s: State, k: Slot) {
    && OneHolder(s, k)
    && (forall r | r in s.requests && s.requests[r].slot == k :: RequestOk(s, r))
    && SlotOk(s, k)
  }

  predicate SameRequest(s: State, s': State, r: Id) {
    (r in s.requests <==> r in s'.requests) && (r in s.requests ==> s'.requests[r] == s.requests[r])
  }

  /** Nothing of slot k differs. */
  ghost predicate SameAt(s: State, s': State, k: Slot) {
    && (k in s.table <==> k in s'.table) && (k in s.table ==> s'.table[k] == s.table[k])
    && (k in s.lives <==> k in s'.lives) && Life(s', k) == Life(s, k)
    && (forall life: nat :: Wins(s', k, life) == Wins(s, k, life))
    && (forall r | r in s.requests && s.requests[r].slot == k :: SameRequest(s, s', r))
    && (forall r | r in s'.requests && s'.requests[r].slot == k :: SameRequest(s, s', r))
  }

  lemma SameAtKeeps(s: State, s': State, k: Slot)
    requires Inv(s, k) && SameAt(s, s', k)
    ensures Inv(s', k)
  {
    forall r | r in s'.requests && s'.requests[r].slot == k
      ensures RequestOk(s', r)
    {
      assert SameRequest(s, s', r) && RequestOk(s, r);
    }
    forall r | Holds(s', r, k)
      ensures Holds(s, r, k)
    {
      assert SameRequest(s, s', r);
    }
  }

  /** The slot an action's request names. */
  function SlotOf(s: State, a: Action): Slot
    requires Enabled(s, a) && !a.Advance?
  {
    if a.Reserve? then a.slot else s.requests[a.r].slot
  }

  predicate Purges(s: State, a: Action)
    requires Enabled(s, a)
  {
    a.Conclude? && s.requests[a.r].phase.encodes && Success(s.requests[a.r].phase.status)
  }

  lemma ElsewhereRequests(s: State, a: Action, k: Slot, r: Id)
    requires Enabled(s, a) && !a.Advance? && SlotOf(s, a) != k && !Purges(s, a)
    requires (r in s.requests && s.requests[r].slot == k) || (r in Do(s, a).requests && Do(s, a).requests[r].slot == k)
    ensures SameRequest(s, Do(s, a), r)
  {
  }

  lemma ElsewhereRows(s: State, a: Action, k: Slot)
    requires Enabled(s, a) && !a.Advance? && SlotOf(s, a) != k && !Purges(s, a)
    ensures var s' := Do(s, a);
      && (k in s.table <==> k in s'.table) && (k in s.table ==> s'.table[k] == s.table[k])
      && (k in s.lives <==> k in s'.lives) && Life(s', k) == Life(s, k)
  {
  }

  /** A request of another key leaves this one alone, but for a purge. */
  lemma Elsewhere(s: State, a: Action, k: Slot)
    requires Enabled(s, a) && !a.Advance? && SlotOf(s, a) != k && !Purges(s, a)
    ensures SameAt(s, Do(s, a), k)
  {
    var s' := Do(s, a);
    ElsewhereRows(s, a, k);
    forall r | (r in s.requests && s.requests[r].slot == k) || (r in s'.requests && s'.requests[r].slot == k)
      ensures SameRequest(s, s', r)
    {
      ElsewhereRequests(s, a, k, r);
    }
    assert forall life: nat :: Wins(s', k, life) == Wins(s, k, life) by { ElsewhereWins(s, a, k); }
  }

  lemma ElsewhereWins(s: State, a: Action, k: Slot)
    requires Enabled(s, a) && !a.Advance? && SlotOf(s, a) != k && !Purges(s, a)
    ensures forall life: nat :: Wins(Do(s, a), k, life) == Wins(s, k, life)
  {
  }

  lemma WinsSame(s: State, s': State)
    requires s'.wins == s.wins
    ensures forall k, life :: Wins(s', k, life) == Wins(s, k, life)
  {
  }

  lemma WinsAdded(s: State, r: Id, status: int, body: string, encodes: bool)
    requires r in s.requests
    ensures var q := s.requests[r];
            forall k, life | k != q.slot || life != q.life ::
              Wins(AfterOperate(s, r, status, body, encodes), k, life) == Wins(s, k, life)
  {
  }

  lemma OneHolderAfter(s: State, s': State, k: Slot)
    requires OneHolder(s, k)
    requires forall r | Holds(s', r, k) :: Holds(s, r, k)
    ensures OneHolder(s', k)
  {
  }

  lemma ReserveHolder(s: State, r: Id, k: Slot, hash: string, stored: bool)
    requires Inv(s, k) && Enabled(s, Reserve(r, k, hash, stored))
    ensures OneHolder(AfterReserve(s, r, k, hash, stored), k)
  {
    var s' := AfterReserve(s, r, k, hash, stored);
    forall r1, r2 | Holds(s', r1, k) && Holds(s', r2, k)
      ensures r1 == r2
    {
      if r1 != r { assert Holds(s, r1, k) && RequestOk(s, r1); }
      if r2 != r { assert Holds(s, r2, k) && RequestOk(s, r2); }
    }
  }

  lemma ReserveKeeps(s: State, r: Id, k: Slot, hash: string, stored: bool)
    requires Inv(s, k) && Enabled(s, Reserve(r, k, hash, stored))
    ensures Inv(AfterReserve(s, r, k, hash, stored), k)
  {
    var s' := AfterReserve(s, r, k, hash, stored);
    WinsSame(s, s');
    ReserveHolder(s, r, k, hash, stored);
    forall q | q in s'.requests && s'.requests[q].slot == k
      ensures RequestOk(s', q)
    {
      if q in s.requests { assert RequestOk(s, q); }
    }
  }

  lemma LookKeeps(s: State, r: Id, readable: bool)
    requires r in s.requests && Inv(s, s.requests[r].slot) && Enabled(s, Look(r, readable))
    ensures Inv(AfterLook(s, r, readable), s.requests[r].slot)
  {
    var s', k := AfterLook(s, r, readable), s.requests[r].slot;
    WinsSame(s, s');
    forall q | q in s'.requests && s'.requests[q].slot == k
      ensures RequestOk(s', q)
    {
      assert RequestOk(s, q);
    }
    OneHolderAfter(s, s', k);
  }

  lemma OperateKeeps(s: State, r: Id, status: int, body: string, encodes: bool)
    requires r in s.requests && Inv(s, s.requests[r].slot) && Enabled(s, Operate(r, status, body, encodes))
    ensures Inv(AfterOperate(s, r, status, body, encodes), s.requests[r].slot)
  {
    var s' := AfterOperate(s, r, status, body, encodes);
    var k, life := s.requests[r].slot, s.requests[r].life;
    assert RequestOk(s, r) && Holds(s, r, k);
    WinsAdded(s, r, status, body, encodes);
    forall q | q in s'.requests && s'.requests[q].slot == k
      ensures RequestOk(s', q)
    {
      OthersUnaffected(s, r, q);
    }
    OneHolderAfter(s, s', k);
  }

  /** While r holds a slot nobody else has won it, holds it, or was answered from it. */
  lemma OthersUnaffected(s: State, r: Id, q: Id)
    requires r in s.requests && s.requests[r].phase.Holding? && q in s.requests
    requires Inv(s, s.requests[r].slot) && s.requests[q].slot == s.requests[r].slot
    ensures RequestOk(s, q)
    ensures var qr := s.requests[q];
            q != r && qr.life == s.requests[r].life ==>
              match qr.phase
              case Lost => true
              case Answered(Own(status, _)) => !Success(status)
              case Answered(Replay(_, _)) => false
              case Answered(_) => true
              case _ => false
  {
    assert RequestOk(s, q) && RequestOk(s, r);
    if q != r && Active(s.requests[q].phase) {
      assert Holds(s, q, s.requests[r].slot) && Holds(s, r, s.requests[r].slot);
    }
  }

  lemma ReleaseKeeps(s: State, r: Id, stored: bool, answer: Answer)
    requires Enabled(s, Conclude(r, stored)) && Inv(s, s.requests[r].slot)
    requires !(s.requests[r].phase.encodes && Success(s.requests[r].phase.status))
    requires answer.Failed? || (answer.Own? && !Success(answer.status))
    ensures var k := s.requests[r].slot;
            Inv(Phased(if stored then s.(table := s.table - {k}) else s, r, Answered(answer)), k)
  {
    var k := s.requests[r].slot;
    var s' := Phased(if stored then s.(table := s.table - {k}) else s, r, Answered(answer));
    assert RequestOk(s, r) && Holds(s, r, k);
    WinsSame(s, s');
    forall q | q in s'.requests && s'.requests[q].slot == k
      ensures RequestOk(s', q)
    {
      assert RequestOk(s, q);
      if q != r && Active(s.requests[q].phase) { assert Holds(s, q, k); }
    }
    OneHolderAfter(s, s', k);
  }

  /** A purge takes a row of this key only when nobody holds it. */
  lemma PurgeKeeps(s: State, k: Slot)
    requires Inv(s, k) && Prompt(s, k)
    ensures Inv(AfterPurge(s), k)
  {
    var s' := AfterPurge(s);
    WinsSame(s, s');
    forall r | r in s'.requests && s'.requests[r].slot == k
      ensures RequestOk(s', r)
    {
      assert RequestOk(s, r);
      if Active(s.requests[r].phase) { assert Holds(s, r, k); }
    }
    OneHolderAfter(s, s', k);
  }

  lemma StoringKeeps(s: State, r: Id)
    requires r in s.requests && s.requests[r].phase.Ran? && Inv(s, s.requests[r].slot)
    requires s.requests[r].phase.encodes && Success(s.requests[r].phase.status)
    ensures Inv(Phased(s, r, Storing(s.requests[r].phase.status, s.requests[r].phase.body)), s.requests[r].slot)
  {
    var s' := Phased(s, r, Storing(s.requests[r].phase.status, s.requests[r].phase.body));
    var k := s.requests[r].slot;
    WinsSame(s, s');
    forall q | q in s'.requests && s'.requests[q].slot == k
      ensures RequestOk(s', q)
    {
      assert RequestOk(s, q);
    }
    OneHolderAfter(s, s', k);
  }

  lemma PutKeeps(s: State, r: Id, stored: bool)
    requires Enabled(s, Put(r, stored)) && Inv(s, s.requests[r].slot)
    ensures Inv(Do(s, Put(r, stored)), s.requests[r].slot)
  {
    var s' := Do(s, Put(r, stored));
    var k := s.requests[r].slot;
    assert RequestOk(s, r) && Holds(s, r, k);
    WinsSame(s, s');
    forall q | q in s'.requests && s'.requests[q].slot == k
      ensures RequestOk(s', q)
    {
      assert RequestOk(s, q);
      if q != r && Active(s.requests[q].phase) { assert Holds(s, q, k); }
    }
    OneHolderAfter(s, s', k);
  }

  lemma QuietKeeps(s: State, a: Action, k: Slot)
    requires Inv(s, k) && Enabled(s, a) && (a.Advance? || a.Vanish?)
    ensures Inv(Do(s, a), k)
  {
    var s' := Do(s, a);
    WinsSame(s, s');
    forall q | q in s'.requests && s'.requests[q].slot == k
      ensures RequestOk(s', q)
    {
      assert RequestOk(s, q);
    }
    OneHolderAfter(s, s', k);
  }

  /** The step of a request of this key. */
  lemma OwnKeeps(s: State, a: Action, k: Slot)
    requires Inv(s, k) && Prompt(s, k) && Enabled(s, a) && !a.Advance? && SlotOf(s, a) == k
    ensures Inv(Do(s, a), k)
  {
    match a {
      case Vanish(_) => QuietKeeps(s, a, k);
      case Reserve(r, _, hash, stored) => ReserveKeeps(s, r, k, hash, stored);
      case Look(r, readable) => LookKeeps(s, r, readable);
      case Operate(r, status, body, encodes) => OperateKeeps(s, r, status, body, encodes);
      case Put(r, stored) => PutKeeps(s, r, stored);
      case Conclude(r, stored) =>
        var p := s.requests[r].phase;
        if !p.encodes {
          ReleaseKeeps(s, r, stored, Failed);
        } else if Success(p.status) {
          PurgeKeeps(s, k);
          StoringKeeps(AfterPurge(s), r);
        } else {
          ReleaseKeeps(s, r, stored, Own(p.status, p.body));
        }
    }
  }

  lemma StepKeeps(s: State, a: Action, k: Slot)
    requires Inv(s, k) && Prompt(s, k) && Enabled(s, a)
    ensures Inv(Do(s, a), k)
  {
    if a.Advance? {
      QuietKeeps(s, a, k);
    } else if SlotOf(s, a) == k {
      OwnKeeps(s, a, k);
    } else if Purges(s, a) {
      PurgeKeeps(s, k);
      assert SameAt(AfterPurge(s), Do(s, a), k);
      SameAtKeeps(AfterPurge(s), Do(s, a), k);
    } else {
      Elsewhere(s, a, k);
      SameAtKeeps(s, Do(s, a), k);
    }
  }

  lemma {:induction false} InvHolds(states: seq<State>, actions: seq<Action>, i: nat, k: Slot)
    requires PromptRun(states, actions, k) && i < |states|
    ensures Inv(states[i], k)
  {
    if i > 0 {
      InvHolds(states, actions, i - 1, k);
      StepKeeps(states[i - 1], actions[i - 1], k);
    }
  }

  // --------------------------------------------------------------- the results

  /** Between two purges of a key its operation succeeds at most once, whatever store calls
      fail and whichever requests die on the way. */
  lemma SucceedsAtMostOnce(states: seq<State>, actions: seq<Action>, i: nat, k: Slot, life: nat)
    requires PromptRun(states, actions, k) && i < |states|
    ensures |Wins(states[i], k, life)| <= 1
  {
    InvHolds(states, actions, i, k);
  }

  /** Every 2xx answer, the winner's own or a replay, is the winner's stored status and body,
      and a replay goes only to a request with the winner's operation hash. */
  lemma AnswersAreTheWinners(states: seq<State>, actions: seq<Action>, i: nat, r: Id)
    requires i < |states| && r in states[i].requests && PromptRun(states, actions, states[i].requests[r].slot)
    ensures var q := states[i].requests[r];
            match q.phase
            case Answered(Own(status, body)) =>
              Success(status) ==> Wins(states[i], q.slot, q.life) == [Win(r, Record(q.hash, status, body))]
            case Answered(Replay(status, body)) =>
              && Success(status)
              && |Wins(states[i], q.slot, q.life)| == 1
              && Wins(states[i], q.slot, q.life)[0].rec == Record(q.hash, status, body)
            case _ => true
  {
    InvHolds(states, actions, i, states[i].requests[r].slot);
    assert RequestOk(states[i], r);
  }

  /** A reservation goes away only when the one request that holds it releases it, when it is
      more than a day old, or by being turned into the response. */
  lemma OnlyTheHolderReleases(states: seq<State>, actions: seq<Action>, i: nat, k: Slot)
    requires PromptRun(states, actions, k) && i < |actions|
    requires k in states[i].table && states[i].table[k].response.None?
    requires !(k in states[i + 1].table && states[i + 1].table[k] == states[i].table[k])
    ensures || (&& (actions[i].Conclude? || actions[i].Put?)
                && Holds(states[i], actions[i].r, k)
                && forall q :: Holds(states[i], q, k) ==> q == actions[i].r)
            || (states[i].table[k].createdSec < Unix(states[i].now - DAY) && forall q :: !Holds(states[i], q, k))
  {
    var s, a := states[i], actions[i];
    InvHolds(states, actions, i, k);
    assert Prompt(s, k);
    if (a.Conclude? || a.Put?) && s.requests[a.r].slot == k {
      assert Holds(s, a.r, k);
    } else {
      forall q | Holds(s, q, k)
        ensures s.table[k].createdSec >= Unix(s.now - DAY)
      {
        assert RequestOk(s, q);
      }
    }
  }

  // ---------------------------------------------------------- and if it is not prompt

  lemma Extend(states: seq<State>, actions: seq<Action>, a: Action) returns (states': seq<State>, actions': seq<Action>)
    requires Run(states, actions) && Enabled(states[|actions|], a)
    ensures Run(states', actions')
    ensures |actions'| == |actions| + 1 && states'[|actions'|] == Do(states[|actions|], a)
    ensures actions'[|actions|] == a && states'[|actions|] == states[|actions|]
  {
    states', actions' := states + [Do(states[|actions|], a)], actions + [a];
  }

  lemma ReservationPurged() returns (states: seq<State>, actions: seq<Action>)
    ensures Run(states, actions)
    ensures var s := states[|actions|]; var k := Slot("d", "k");
            && k !in s.table && s.requests == map[0 := Request(k, "h", 0, 0, Holding)]
  {
    var k, other := Slot("d", "k"), Slot("d", "other");
    states, actions := [Init(0)], [];
    states, actions := Extend(states, actions, Reserve(0, k, "h", true));
    states, actions := Extend(states, actions, Advance(DAY + SECOND));
    states, actions := Extend(states, actions, Reserve(1, other, "h", true));
    states, actions := Extend(states, actions, Operate(1, 200, "", true));
    states, actions := Extend(states, actions, Conclude(1, true));
    states, actions := Extend(states, actions, Vanish(1));
  }

  /** An operation that outlives the day loses its reservation to another request's purge, and
      its failure then releases the reservation of whoever reserved next. */
  lemma LateOperationReleasesAnother() returns (states: seq<State>, actions: seq<Action>)
    ensures Run(states, actions)
    ensures var k := Slot("d", "k"); var n := |actions|;
            && n > 0 && Holds(states[n], 2, k)
            && k !in states[n].table && k in states[n - 1].table && actions[n - 1].Conclude? && actions[n - 1].r == 0
  {
    var k := Slot("d", "k");
    states, actions := ReservationPurged();
    states, actions := Extend(states, actions, Reserve(2, k, "h", true));
    states, actions := Extend(states, actions, Operate(0, 500, "", true));
    states, actions := Extend(states, actions, Conclude(0, true));
  }

  /** Another key's request, made and done while the holder of k sleeps, purges k's old row. */
  lemma PurgedMeanwhile(states: seq<State>, actions: seq<Action>, k: Slot, p: Id, other: Slot)
      returns (states': seq<State>, actions': seq<Action>)
    requires Run(states, actions)
    requires var s := states[|actions|];
      k in s.table && s.table[k].createdSec < Unix(s.now - DAY) && p !in s.requests && other !in s.table && other != k
    ensures Run(states', actions')
    ensures var s, s' := states[|actions|], states'[|actions'|];
      && k !in s'.table && s'.requests.Keys == s.requests.Keys + {p}
      && forall r | r in s.requests :: s'.requests[r] == s.requests[r]
  {
    var s := states[|actions|];
    states', actions' := Extend(states, actions, Reserve(p, other, "h", true));
    states', actions' := Extend(states', actions', Operate(p, 200, "", true));
    states', actions' := Extend(states', actions', Conclude(p, true));
  }

  /** The old row is purged and another request reserves the key. */
  lemma ReservedByAnother(states: seq<State>, actions: seq<Action>, k: Slot, r: Id)
      returns (states': seq<State>, actions': seq<Action>, q: Id)
    requires Run(states, actions)
    requires var s := states[|actions|];
      Holds(s, r, k) && k in s.table && s.table[k].createdSec < Unix(s.now - DAY)
    ensures Run(states', actions')
    ensures var s' := states'[|actions'|];
      && q != r && Holds(s', q, k)
      && k in s'.table && s'.table[k] == Row(None, Unix(s'.now))
      && r in s'.requests && s'.requests[r] == states[|actions|].requests[r]
  {
    var s := states[|actions|];
    var word := UnusedWord(set j | j in s.table.Keys :: j.key);
    assert Slot("", word) !in s.table;
    var p := Unused(s.requests.Keys);
    states', actions' := PurgedMeanwhile(states, actions, k, p, Slot("", word));
    q := Unused(s.requests.Keys + {p});
    states', actions' := Extend(states', actions', Reserve(q, k, "h", true));
  }

  /** The one condition is exact: from every reachable state in which a request has not finished
      with its key while the key's row is old enough to be purged, the run can go on until that
      request takes the reservation of another away, by releasing it or by storing over it. */
  lemma ReleasesAnother(states: seq<State>, actions: seq<Action>, k: Slot, r: Id)
      returns (states': seq<State>, actions': seq<Action>, q: Id)
    requires Run(states, actions)
    requires var s := states[|actions|];
      Holds(s, r, k) && k in s.table && s.table[k].createdSec < Unix(s.now - DAY)
    ensures Run(states', actions')
    ensures var n := |actions'|;
      && n > 0 && (actions'[n - 1] == Conclude(r, true) || actions'[n - 1] == Put(r, true)) && q != r
      && Holds(states'[n - 1], q, k) && k in states'[n - 1].table && states'[n - 1].table[k].response.None?
      && !(k in states'[n].table && states'[n].table[k] == states'[n - 1].table[k])
  {
    states', actions', q := ReservedByAnother(states, actions, k, r);
    var phase := states'[|actions'|].requests[r].phase;
    if phase.Holding? {
      states', actions' := Extend(states', actions', Operate(r, 500, "", true));
      states', actions' := Extend(states', actions', Conclude(r, true));
    } else if phase.Ran? && phase.encodes && Success(phase.status) {
      states', actions' := Extend(states', actions', Conclude(r, true));
      assert Holds(states'[|actions'|], q, k) && k in states'[|actions'|].table;
      states', actions' := Extend(states', actions', Put(r, true));
    } else if phase.Ran? {
      states', actions' := Extend(states', actions', Conclude(r, true));
    } else {
      states', actions' := Extend(states', actions', Put(r, true));
    }
  }
}
