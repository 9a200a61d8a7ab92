/** Sending a text: a temporary row, the provider's answer, and the promotion of that row to
    the provider's id while the account's own socket may store the same message first. Any
    number of sends and echoes, interleaved one statement at a time; every statement may fail,
    and the account may be deleted with all its rows meanwhile. */
module SendText {
  import opened MessageIds
  import opened Options

  /** origin is the send a row stands for, when it stands for one. */
  datatype Row = Row(origin: Option<nat>, status: string)

  /** Where a send is between two store or provider calls. */
  datatype Phase =
    | Inserted
    | Accepted(id: nat)
    | Answered(id: nat)
    | Collided(id: nat)
    | Promoted(id: nat)
    | Marked(id: nat)
    | Refused
    | Created(id: nat)
    | Failed(status: int)

  /** stuck: sends whose temporary row could not be deleted; hurt: sends one of whose other
      statements failed. Both record what happened and decide nothing. gone: the account is. */
  datatype State = State(
    rows: map<MsgId, Row>,
    sends: map<nat, Phase>,
    owner: map<nat, nat>,
    stuck: set<nat>,
    hurt: set<nat>,
    gone: bool)

  datatype Action =
    | Start(send: nat, stored: bool)
    | Accept(send: nat, id: nat)
    | Return(send: nat, ok: bool)
    | Rename(send: nat, stored: bool)
    | Discard(send: nat, stored: bool)
    | Mark(send: nat, stored: bool)
    | Fetch(send: nat, readable: bool)
    | Echo(id: nat)
    | Touch(row: MsgId, status: string)
    | DeleteAccount

  const INIT: State := State(map[], map[], map[], {}, {}, false)

  /** Owner: which send the provider gave an id to. An id it gives out is new. A deleted account
      takes no rows any more. */
  predicate Enabled(s: State, a: Action) {
    match a
    case Start(i, stored) => i !in s.sends && !(stored && s.gone)
    case Accept(i, p) => i in s.sends && s.sends[i].Inserted? && p !in s.owner && Provider(p) !in s.rows
    case Return(i, ok) => i in s.sends && (s.sends[i].Accepted? || (s.sends[i].Inserted? && !ok))
    case Rename(i, _) => i in s.sends && s.sends[i].Answered?
    case Discard(i, _) => i in s.sends && (s.sends[i].Collided? || s.sends[i].Refused?)
    case Mark(i, _) => i in s.sends && s.sends[i].Promoted?
    case Fetch(i, _) => i in s.sends && s.sends[i].Marked?
    case Echo(_) => true
    case Touch(_, _) => true
    case DeleteAccount => true
  }

  function Moved(s: State, i: nat, p: Phase): State {
    s.(sends := s.sends[i := p])
  }

  function Hurt(s: State, i: nat, p: Phase): State {
    Moved(s, i, p).(hurt := s.hurt + {i})
  }

  /** INSERT ... ON CONFLICT DO NOTHING. */
  function Stored(rows: map<MsgId, Row>, id: MsgId, row: Row): map<MsgId, Row> {
    if id in rows then rows else rows[id := row]
  }

  function WithStatus(rows: map<MsgId, Row>, id: MsgId, status: string): map<MsgId, Row> {
    if id in rows then rows[id := rows[id].(status := status)] else rows
  }

  function Do(s: State, a: Action): State
    requires Enabled(s, a)
  {
    match a
    case Start(i, stored) =>
      if stored then Moved(s.(rows := Stored(s.rows, Tmp(i), Row(Some(i), "sending"))), i, Inserted)
      else Hurt(s, i, Failed(500))
    case Accept(i, p) => Moved(s.(owner := s.owner[p := i]), i, Accepted(p))
    case Return(i, ok) => Moved(s, i, if ok then Answered(s.sends[i].id) else Refused)
    case Rename(i, stored) =>
      var p := s.sends[i].id;
      if !stored then Hurt(s, i, Collided(p))
      else if Tmp(i) in s.rows && Provider(p) !in s.rows
      then Moved(s.(rows := (s.rows - {Tmp(i)})[Provider(p) := s.rows[Tmp(i)]]), i, Promoted(p))
      else Moved(s, i, Collided(p))
    case Discard(i, stored) =>
      var s' := if stored then s.(rows := s.rows - {Tmp(i)}) else s.(stuck := s.stuck + {i});
      if s.sends[i].Refused? then Moved(s', i, Failed(502)) else Moved(s', i, Promoted(s.sends[i].id))
    case Mark(i, stored) =>
      var p := s.sends[i].id;
      if stored then Moved(s.(rows := WithStatus(s.rows, Provider(p), "sent")), i, Marked(p))
      else Hurt(s, i, Failed(500))
    case Fetch(i, readable) =>
      if !readable then Hurt(s, i, Failed(500))
      else Moved(s, i, if Provider(s.sends[i].id) in s.rows then Created(s.sends[i].id) else Failed(500))
    case Echo(p) =>
      if s.gone then s
      else s.(rows := Stored(s.rows, Provider(p), Row(if p in s.owner then Some(s.owner[p]) else None, "sent")))
    case DeleteAccount => s.(rows := map[], gone := true)
    case Touch(row, status) => s.(rows := WithStatus(s.rows, row, status))
  }

  // ----------------------------------------------------------------- the steps

  /** A row comes when a send stores its temporary one, when that one is promoted to a free id, and
      when an echo finds none under its id; it tells which send it is of and how far that one is. */
  lemma RowsCome(s: State, a: Action, id: MsgId)
    requires Enabled(s, a) && id !in s.rows
    ensures id in Do(s, a).rows <==>
      || (a.Start? && a.stored && id == Tmp(a.send))
      || (a.Rename? && a.stored && id == Provider(s.sends[a.send].id) && Tmp(a.send) in s.rows)
      || (a.Echo? && !s.gone && id == Provider(a.id))
    ensures id in Do(s, a).rows ==>
      var row := Do(s, a).rows[id];
      && (a.Start? ==> row.origin == Some(a.send) && row.status == "sending")
      && (a.Rename? ==> row == s.rows[Tmp(a.send)])
      && (a.Echo? ==> row.status == "sent" && row.origin == if a.id in s.owner then Some(s.owner[a.id]) else None)
  {
  }

  /** A row goes with its account, when it is discarded, and when it is promoted. */
  lemma RowsGo(s: State, a: Action, id: MsgId)
    requires Enabled(s, a) && id in s.rows
    ensures id !in Do(s, a).rows <==>
      || a.DeleteAccount?
      || (a.Discard? && a.stored && id == Tmp(a.send))
      || (a.Rename? && a.stored && id == Tmp(a.send) && Provider(s.sends[a.send].id) !in s.rows)
  {
  }

  /** A row that stays keeps its origin, and its status but for the mark and the receipts. */
  lemma RowsStay(s: State, a: Action, id: MsgId)
    requires Enabled(s, a) && id in s.rows && id in Do(s, a).rows
    ensures Do(s, a).rows[id].origin == s.rows[id].origin
    ensures Do(s, a).rows[id].status ==
      if a.Mark? && a.stored && id == Provider(s.sends[a.send].id) then "sent"
      else if a.Touch? && id == a.row then a.status
      else s.rows[id].status
  {
  }

  /** How a send goes on: a refused one ends in a bad gateway; an accepted one is promoted, or
      meets a row of its own and discards the temporary one, is marked, and is answered with the
      row it finds. A statement that fails ends it in an internal error, but for the rename,
      which is taken for a row met, and the discard, which is let be. */
  lemma SendsGoOn(s: State, a: Action)
    requires Enabled(s, a) && !a.Echo? && !a.Touch? && !a.DeleteAccount?
    ensures a.send in Do(s, a).sends
    ensures var q := Do(s, a).sends[a.send];
      && (a.Start? ==> q == if a.stored then Inserted else Failed(500))
      && (a.Accept? ==> q == Accepted(a.id) && a.id in Do(s, a).owner && Do(s, a).owner[a.id] == a.send)
      && (a.Return? ==> q == if a.ok then Answered(s.sends[a.send].id) else Refused)
      && (a.Rename? ==> q == Promoted(s.sends[a.send].id) || q == Collided(s.sends[a.send].id))
      && (a.Rename? ==> (q.Promoted? <==> a.stored && Tmp(a.send) in s.rows && Provider(s.sends[a.send].id) !in s.rows))
      && (a.Discard? ==> q == if s.sends[a.send].Refused? then Failed(502) else Promoted(s.sends[a.send].id))
      && (a.Mark? ==> q == if a.stored then Marked(s.sends[a.send].id) else Failed(500))
      && (a.Fetch? ==> q == Created(s.sends[a.send].id) || q == Failed(500))
      && (a.Fetch? ==> (q.Created? <==> a.readable && Provider(s.sends[a.send].id) in s.rows))
    ensures forall i | i in s.sends && i != a.send :: i in Do(s, a).sends && Do(s, a).sends[i] == s.sends[i]
  {
  }

  /** Nothing keeps a send from going on, whatever the outcome of its next statement. */
  lemma SendsCanGoOn(s: State, i: nat, ok: bool)
    requires i in s.sends
    ensures match s.sends[i]
      case Inserted => Enabled(s, Return(i, false))
      case Accepted(_) => Enabled(s, Return(i, ok))
      case Answered(_) => Enabled(s, Rename(i, ok))
      case Collided(_) => Enabled(s, Discard(i, ok))
      case Refused => Enabled(s, Discard(i, ok))
      case Promoted(_) => Enabled(s, Mark(i, ok))
      case Marked(_) => Enabled(s, Fetch(i, ok))
      case Created(_) => true
      case Failed(_) => true
  {
  }

  ghost predicate Run(states: seq<State>, actions: seq<Action>) {
    && |states| == |actions| + 1
    && states[0] == INIT
    && forall i | 0 <= i < |actions| :: Enabled(states[i], actions[i]) && states[i + 1] == Do(states[i], actions[i])
  }

  /** The rows that stand for send i. */
  function RowsOf(s: State, i: nat): set<MsgId> {
    set id | id in s.rows && s.rows[id].origin == Some(i)
  }

  predicate Owns(s: State, i: nat, p: nat) {
    p in s.owner && s.owner[p] == i
  }

  /** What the send still needs is there, unless the account is gone or a statement failed. */
  ghost predicate SendOk(s: State, i: nat)
    requires i in s.sends
  {
    var tmp := Tmp(i) in s.rows;
    var theirs := forall p | p in s.owner :: s.owner[p] != i;
    match s.sends[i]
    case Inserted => (tmp || s.gone) && theirs && i !in s.stuck
    case Accepted(p) => (tmp || s.gone) && Owns(s, i, p) && i !in s.stuck
    case Answered(p) => (tmp || s.gone) && Owns(s, i, p) && i !in s.stuck
    case Collided(p) =>
      (tmp || s.gone) && i !in s.stuck && (Provider(p) in s.rows || i in s.hurt || s.gone) && Owns(s, i, p)
    case Promoted(p) => Cleared(s, i) && (Provider(p) in s.rows || i in s.hurt || s.gone) && Owns(s, i, p)
    case Marked(p) => Cleared(s, i) && (Provider(p) in s.rows || i in s.hurt || s.gone) && Owns(s, i, p)
    case Created(p) => Cleared(s, i) && (Provider(p) in s.rows || s.gone) && Owns(s, i, p)
    case Refused => (tmp || s.gone) && i !in s.stuck
    case Failed(status) => Cleared(s, i) && (status == 502 || (status == 500 && (i in s.hurt || s.gone)))
  }

  /** The temporary row is there exactly if its deletion failed, and not after the account's. */
  predicate Cleared(s: State, i: nat) {
    if s.gone then Tmp(i) !in s.rows else Tmp(i) in s.rows <==> i in s.stuck
  }

  ghost predicate RowOk(s: State, id: MsgId)
    requires id in s.rows
  {
    match id
    case Tmp(i) => i in s.sends && s.rows[id].origin == Some(i)
    case Provider(p) => s.rows[id].origin == if p in s.owner then Some(s.owner[p]) else None
  }

  ghost predicate OwnerOk(s: State, p: nat)
    requires p in s.owner
  {
    && s.owner[p] in s.sends
    && forall q | q in s.owner && s.owner[q] == s.owner[p] :: q == p
  }

  /** A send that has not started has no rows and no record; a deleted account has no rows. */
  ghost predicate NoTrace(s: State) {
    (forall i | i in s.stuck :: i in s.sends) && (s.gone ==> s.rows == map[])
  }

  ghost predicate Inv(s: State) {
    && (forall i | i in s.sends :: SendOk(s, i))
    && (forall id | id in s.rows :: RowOk(s, id))
    && (forall p | p in s.owner :: OwnerOk(s, p))
    && NoTrace(s)
  }

  lemma StartIsFresh(s: State, i: nat)
    requires Inv(s) && i !in s.sends
    ensures Tmp(i) !in s.rows && forall p | p in s.owner :: s.owner[p] != i
  {
    assert Tmp(i) in s.rows ==> RowOk(s, Tmp(i));
    forall p | p in s.owner
      ensures s.owner[p] != i
    {
      assert OwnerOk(s, p);
    }
  }

  lemma NewSendOk(s: State, i: nat, stored: bool)
    requires Inv(s) && i !in s.sends && !(stored && s.gone)
    ensures SendOk(Do(s, Start(i, stored)), i)
  {
    StartIsFresh(s, i);
  }

  /** The step of one send after its start. */
  predicate Of(a: Action, i: nat) {
    && (a.Accept? || a.Return? || a.Rename? || a.Discard? || a.Mark? || a.Fetch?)
    && a.send == i
  }

  lemma OwnKept(s: State, a: Action, i: nat)
    requires Enabled(s, a) && Of(a, i) && SendOk(s, i) && NoTrace(s)
    ensures SendOk(Do(s, a), i)
  {
  }

  /** What others leave of a send: its phase and records, */
  lemma OthersFrame(s: State, a: Action, i: nat)
    requires Enabled(s, a) && i in s.sends && !Of(a, i) && !a.DeleteAccount?
    ensures var s' := Do(s, a);
      && i in s'.sends && s'.sends[i] == s.sends[i] && s'.gone == s.gone
      && (i in s'.stuck <==> i in s.stuck) && (i in s'.hurt <==> i in s.hurt)
      && s'.owner == (if a.Accept? then s.owner[a.id := a.send] else s.owner)
      && (a.Accept? ==> a.send != i && a.id !in s.owner)
  {
  }

  /** its temporary row, and its row under the id. */
  lemma OthersRows(s: State, a: Action, i: nat, p: nat)
    requires Enabled(s, a) && i in s.sends && !Of(a, i) && !a.DeleteAccount?
    ensures Tmp(i) in Do(s, a).rows <==> Tmp(i) in s.rows
    ensures Provider(p) in s.rows ==> Provider(p) in Do(s, a).rows
  {
  }

  lemma OtherKept(s: State, a: Action, i: nat)
    requires Enabled(s, a) && i in s.sends && SendOk(s, i) && !Of(a, i) && !a.DeleteAccount?
    ensures i in Do(s, a).sends && SendOk(Do(s, a), i)
  {
    var phase := s.sends[i];
    OthersFrame(s, a, i);
    OthersRows(s, a, i, if phase.Collided? || phase.Promoted? || phase.Marked? || phase.Created? then phase.id else 0);
  }

  lemma SendKept(s: State, a: Action, i: nat)
    requires Enabled(s, a) && i in s.sends && SendOk(s, i) && NoTrace(s)
    ensures i in Do(s, a).sends && SendOk(Do(s, a), i)
  {
    if Of(a, i) { OwnKept(s, a, i); } else if !a.DeleteAccount? { OtherKept(s, a, i); }
  }

  lemma RowKept(s: State, a: Action, id: MsgId)
    requires Inv(s) && Enabled(s, a) && id in Do(s, a).rows
    ensures RowOk(Do(s, a), id)
  {
    if id in s.rows { assert RowOk(s, id); }
    if a.Rename? { assert SendOk(s, a.send) && (Tmp(a.send) in s.rows ==> RowOk(s, Tmp(a.send))); }
  }

  lemma OwnerKept(s: State, a: Action, p: nat)
    requires Inv(s) && Enabled(s, a) && p in Do(s, a).owner
    ensures OwnerOk(Do(s, a), p)
  {
    if p in s.owner { assert OwnerOk(s, p); }
    if a.Accept? { assert SendOk(s, a.send); }
  }

  lemma {:induction false} InvHolds(states: seq<State>, actions: seq<Action>, n: nat)
    requires Run(states, actions) && n < |states|
    ensures Inv(states[n])
  {
    if n > 0 {
      InvHolds(states, actions, n - 1);
      var s, a := states[n - 1], actions[n - 1];
      forall i | i in states[n].sends
        ensures SendOk(states[n], i)
      {
        if i in s.sends {
          assert SendOk(s, i);
          SendKept(s, a, i);
        } else {
          NewSendOk(s, i, a.stored);
        }
      }
      forall id | id in states[n].rows
        ensures RowOk(states[n], id)
      {
        RowKept(s, a, id);
      }
      forall p | p in states[n].owner
        ensures OwnerOk(states[n], p)
      {
        OwnerKept(s, a, p);
      }
    }
  }

  /** In every interleaving with its echoes, a send that reported success is exactly one row,
      under the provider's id, from then on until its account is deleted; beside it lies its
      temporary row exactly if that lost to an echo and could not be deleted. */
  lemma CreatedIsOneRow(states: seq<State>, actions: seq<Action>, n: nat, i: nat)
    requires Run(states, actions) && n < |states|
    requires i in states[n].sends && states[n].sends[i].Created? && !states[n].gone
    ensures RowsOf(states[n], i) ==
      {Provider(states[n].sends[i].id)} + if i in states[n].stuck then {Tmp(i)} else {}
  {
    var s := states[n];
    InvHolds(states, actions, n);
    assert SendOk(s, i);
    var p := s.sends[i].id;
    assert RowOk(s, Provider(p)) && OwnerOk(s, p);
    assert i in s.stuck ==> RowOk(s, Tmp(i));
    forall id | id in RowsOf(s, i)
      ensures id == Provider(p) || id == Tmp(i)
    {
      assert RowOk(s, id);
    }
  }

  /** A send that failed has a temporary row exactly if that could not be deleted, and no row at
      all if besides the provider took nothing; it is answered with an internal error only
      when one of its statements failed or its account was deleted. */
  lemma FailedLeavesNoTrace(states: seq<State>, actions: seq<Action>, n: nat, i: nat)
    requires Run(states, actions) && n < |states|
    requires i in states[n].sends && states[n].sends[i].Failed?
    ensures Tmp(i) in states[n].rows <==> i in states[n].stuck && !states[n].gone
    ensures states[n].sends[i].status != 502 ==>
      states[n].sends[i].status == 500 && (i in states[n].hurt || states[n].gone)
    ensures (forall p :: p in states[n].owner ==> states[n].owner[p] != i) ==>
      RowsOf(states[n], i) == if i in states[n].stuck && !states[n].gone then {Tmp(i)} else {}
  {
    var s := states[n];
    InvHolds(states, actions, n);
    assert SendOk(s, i);
    forall id | id in s.rows
      ensures RowOk(s, id)
    {
    }
  }

  /** A send is recorded as stuck or hurt by a failed statement of its own and nothing else. */
  lemma {:induction false} RecordsExactly(states: seq<State>, actions: seq<Action>, n: nat, i: nat)
    requires Run(states, actions) && n < |states|
    ensures i in states[n].stuck <==> exists k | 0 <= k < n :: actions[k] == Discard(i, false)
    ensures i in states[n].hurt <==> exists k | 0 <= k < n :: Fails(actions[k], i)
  {
    if n > 0 {
      var m := n - 1;
      RecordsExactly(states, actions, m, i);
      RecordStep(states[m], actions[m], i);
      assert states[n] == Do(states[m], actions[m]);
    }
  }

  lemma RecordStep(s: State, a: Action, i: nat)
    requires Enabled(s, a)
    ensures i in Do(s, a).stuck <==> i in s.stuck || a == Discard(i, false)
    ensures i in Do(s, a).hurt <==> i in s.hurt || Fails(a, i)
  {
  }

  predicate Fails(a: Action, i: nat) {
    a == Start(i, false) || a == Rename(i, false) || a == Mark(i, false) || a == Fetch(i, false)
  }

  /** A message is stored at most once however often it is echoed: rows that stand for a send
      are its temporary row and the one under the id the provider gave it, never both once
      the send is over. */
  lemma AtMostTwoRowsOnTheWay(states: seq<State>, actions: seq<Action>, n: nat, i: nat)
    requires Run(states, actions) && n < |states| && i in states[n].sends
    ensures forall p, q :: Provider(p) in RowsOf(states[n], i) && Provider(q) in RowsOf(states[n], i) ==> p == q
    ensures forall j :: Tmp(j) in RowsOf(states[n], i) ==> j == i
  {
    var s := states[n];
    InvHolds(states, actions, n);
    forall p, q | Provider(p) in RowsOf(s, i) && Provider(q) in RowsOf(s, i)
      ensures p == q
    {
      assert RowOk(s, Provider(p)) && RowOk(s, Provider(q));
      assert OwnerOk(s, p);
    }
    forall j | Tmp(j) in RowsOf(s, i)
      ensures j == i
    {
      assert RowOk(s, Tmp(j));
    }
  }
}
