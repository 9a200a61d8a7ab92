/** Fan-out of one event to its hooks: at most a pool's worth of attempts in flight, each
    ending whenever it likes, other writers of the table in between, and the decision to evict
    the event's content at the end. */
module FanOut {
  import opened Clock
  import opened DeliveryTable

  datatype Webhook = Webhook(id: Hook, kind: string, events: seq<string>, paused: bool)

  predicate Subscribes(h: Webhook, eventType: string) {
    h.events == [] || eventType in h.events || "*" in h.events
  }

  predicate DeliversFullPayload(kind: string) {
    kind == "webhook" || kind == ""
  }

  /** The hooks an event is for: subscribed and not paused. */
  predicate Eligible(h: Webhook, eventType: string) {
    Subscribes(h, eventType) && !h.paused
  }

  /** What the world does to one hook's delivery: whether its payload encodes, whether an
      id can be minted before the attempt and again when parking it, whether the
      subscriber answers 2xx and what its refusal says, whether the store takes the parked
      row, and whether the context is already done when the attempt asks for a worker. */
  datatype World = World(id: Id, payload: string, encodes: bool, mints: bool, mintsLater: bool,
                         accepts: bool, error: string, stores: bool, cut: bool)

  /** One event and everything its fan-out depends on. */
  datatype Job = Job(hooks: seq<Webhook>, world: seq<World>, account: string, eventType: string, now: int,
                     schedule: seq<nat>)
  {
    /** Minted ids never repeat. */
    ghost predicate Valid() {
      |world| == |hooks| && forall i, j | 0 <= i < j < |world| :: world[i].id != world[j].id
    }

    predicate For(i: nat)
      requires i < |hooks|
    {
      Eligible(hooks[i], eventType)
    }
  }

  /** What became of one hook. */
  datatype Fate = Untouched | NotEncoded | InFlight | Accepted | Parked | Lost

  predicate Failure(f: Fate) {
    f == NotEncoded || f == Parked || f == Lost
  }

  /** enqueue: the row a first failure parks. */
  function ParkedRow(j: Job, i: nat): Row
    requires i < |j.hooks| == |j.world|
  {
    var origin := Origin(j.hooks[i].id, j.account, j.eventType, j.world[i].payload, Unix(j.now));
    if |j.schedule| > 0 then Row(origin, 1, Unix(j.now + j.schedule[0]), j.world[i].error, false)
    else Row(origin, 1, ZERO_TIME_SEC, j.world[i].error, true)
  }

  predicate CanPark(w: World) {
    (w.mints || w.mintsLater) && w.stores
  }

  /** The fate the world alone gives a hook the walk reaches. */
  function FateOf(j: Job, i: nat): Fate
    requires i < |j.hooks| == |j.world|
  {
    var w := j.world[i];
    if !j.For(i) then Untouched
    else if !w.encodes then NotEncoded
    else if w.accepts then Accepted
    else if CanPark(w) then Parked
    else Lost
  }

  /** Hook i does not end the walk: only an eligible hook with a payload asks for a worker. */
  predicate Passes(j: Job, i: nat)
    requires i < |j.hooks| == |j.world|
  {
    j.For(i) && j.world[i].encodes ==> !j.world[i].cut
  }

  /** But for rows other writers have touched, the table keeps what it had and gains exactly the
      parked hooks' rows. */
  ghost predicate GainsParkedRows(j: Job, before: Rows, rows: Rows, fates: seq<Fate>, touched: set<Id>)
    requires |fates| == |j.hooks| == |j.world|
  {
    && (forall id | id in before && id !in touched :: id in rows && rows[id] == before[id])
    && (forall i | 0 <= i < |fates| && fates[i] == Parked && j.world[i].id !in touched ::
          j.world[i].id in rows && rows[j.world[i].id] == ParkedRow(j, i))
    && (forall id | id in rows && id !in before && id !in touched ::
          exists i :: 0 <= i < |fates| && fates[i] == Parked && j.world[i].id == id)
  }

  /** What other goroutines and statements do to the table: a retry, a redelivery or a purge of a
      parked row, the removal of a hook, another event's rows. */
  datatype Touch = Touch(ids: set<Id>, rows: Rows)

  /** Nobody else knows the id of a delivery that is not parked yet. */
  ghost predicate MayTouch(j: Job, fates: seq<Fate>, t: Touch)
    requires |fates| == |j.hooks| == |j.world|
  {
    forall i | 0 <= i < |fates| && fates[i] != Parked :: j.world[i].id !in t.ids
  }

  /** Every row the given writers are at. */
  function IdsOf(others: seq<Touch>): set<Id> {
    set t, id | t in others && id in t.ids :: id
  }

  function Touched(rows: Rows, t: Touch): Rows {
    map id | id in rows.Keys + t.rows.Keys && (if id in t.ids then id in t.rows else id in rows) ::
      if id in t.ids then t.rows[id] else rows[id]
  }

  ghost predicate AnyFailure(fates: seq<Fate>) {
    exists i :: 0 <= i < |fates| && Failure(fates[i])
  }

  /** How many of the first n hooks are eligible and receive the whole event. */
  function FullMatches(j: Job, n: nat): (count: nat)
    requires n <= |j.hooks|
  {
    if n == 0 then 0
    else FullMatches(j, n - 1) + if j.For(n - 1) && DeliversFullPayload(j.hooks[n - 1].kind) then 1 else 0
  }

  lemma {:induction false} SomeFullMatch(j: Job, n: nat)
    requires n <= |j.hooks|
    ensures FullMatches(j, n) > 0 <==> exists i :: 0 <= i < n && j.For(i) && DeliversFullPayload(j.hooks[i].kind)
  {
    if n > 0 {
      SomeFullMatch(j, n - 1);
      if j.For(n - 1) && DeliversFullPayload(j.hooks[n - 1].kind) { assert FullMatches(j, n) > 0; }
    }
  }

  // ------------------------------------------------------- the walk's invariant

  /** touched: the rows other writers have been at since the fan-out began. */
  datatype Walk = Walk(rows: Rows, failed: bool, matched: nat, reached: nat, cut: bool,
                       fates: seq<Fate>, inFlight: set<nat>, touched: set<Id>)

  ghost predicate Shape(j: Job, w: Walk) {
    && j.Valid()
    && |w.fates| == |j.hooks|
    && w.reached <= |j.hooks|
    && forall i | i in w.inFlight :: i < w.reached
  }

  ghost predicate FatesOk(j: Job, w: Walk)
    requires Shape(j, w)
  {
    && (forall i | 0 <= i < w.reached :: Passes(j, i))
    && (w.cut ==> w.reached < |j.hooks| && !Passes(j, w.reached))
    && (forall i | i in w.inFlight :: w.fates[i] == InFlight && j.For(i) && j.world[i].encodes)
    && (forall i | 0 <= i < w.reached && i !in w.inFlight :: w.fates[i] == FateOf(j, i))
    && (forall i | w.reached <= i < |j.hooks| :: w.fates[i] == Untouched)
  }

  ghost predicate WalkOk(j: Job, before: Rows, w: Walk) {
    && Shape(j, w)
    && FatesOk(j, w)
    && GainsParkedRows(j, before, w.rows, w.fates, w.touched)
    && MayTouch(j, w.fates, Touch(w.touched, map[]))
    && TallyOk(j, w)
  }

  ghost predicate TallyOk(j: Job, w: Walk)
    requires Shape(j, w)
  {
    && (w.failed <==> AnyFailure(w.fates))
    && (!w.cut ==> w.matched == FullMatches(j, w.reached))
  }

  lemma AnyFailureAfter(fates: seq<Fate>, k: nat, fate: Fate)
    requires k < |fates| && !Failure(fates[k])
    ensures AnyFailure(fates[k := fate]) <==> AnyFailure(fates) || Failure(fate)
  {
    var fates' := fates[k := fate];
    if AnyFailure(fates) {
      var i :| 0 <= i < |fates| && Failure(fates[i]);
      assert Failure(fates'[i]);
    }
    if Failure(fate) { assert Failure(fates'[k]); }
  }

  lemma GainAfter(j: Job, before: Rows, rows: Rows, fates: seq<Fate>, touched: set<Id>, k: nat, fate: Fate)
    requires j.Valid() && |fates| == |j.hooks| && k < |fates| && fates[k] != Parked
    requires j.world[k].id !in before && j.world[k].id !in touched
    requires GainsParkedRows(j, before, rows, fates, touched)
    ensures j.world[k].id !in rows
    ensures GainsParkedRows(j, before, if fate == Parked then rows[j.world[k].id := ParkedRow(j, k)] else rows,
                            fates[k := fate], touched)
  {
    var fates' := fates[k := fate];
    var rows' := if fate == Parked then rows[j.world[k].id := ParkedRow(j, k)] else rows;
    forall id | id in rows' && id !in before && id !in touched
      ensures exists i :: 0 <= i < |fates'| && fates'[i] == Parked && j.world[i].id == id
    {
      if id in rows {
        var i :| 0 <= i < |fates| && fates[i] == Parked && j.world[i].id == id;
        assert fates'[i] == Parked;
      } else {
        assert fates'[k] == Parked;
      }
    }
  }

  lemma TouchKeeps(j: Job, before: Rows, w: Walk, t: Touch)
    requires WalkOk(j, before, w) && MayTouch(j, w.fates, t)
    ensures WalkOk(j, before, w.(rows := Touched(w.rows, t), touched := w.touched + t.ids))
  {
    var rows, touched := Touched(w.rows, t), w.touched + t.ids;
    assert GainsParkedRows(j, before, rows, w.fates, touched);
  }

  function NoFates(n: nat): (fates: seq<Fate>)
    ensures |fates| == n && forall i | 0 <= i < n :: fates[i] == Untouched
  {
    seq(n, _ => Untouched)
  }

  lemma StartOk(j: Job, before: Rows)
    requires j.Valid()
    ensures WalkOk(j, before, Walk(before, false, 0, 0, false, NoFates(|j.hooks|), {}, {}))
  {
  }

  /** What one turn of the loop does when it picks up the next hook. */
  function Picked(j: Job, w: Walk): Walk
    requires w.reached < |j.hooks| == |j.world| == |w.fates|
  {
    var k := w.reached;
    var m := w.matched + if DeliversFullPayload(j.hooks[k].kind) then 1 else 0;
    if !j.For(k) then w.(reached := k + 1)
    else if !j.world[k].encodes then
      w.(reached := k + 1, matched := m, failed := true, fates := w.fates[k := NotEncoded])
    else if j.world[k].cut then w.(matched := m, cut := true)
    else w.(reached := k + 1, matched := m, fates := w.fates[k := InFlight], inFlight := w.inFlight + {k})
  }

  lemma PickedFates(j: Job, w: Walk)
    requires Shape(j, w) && FatesOk(j, w) && !w.cut && w.reached < |j.hooks|
    ensures Shape(j, Picked(j, w)) && FatesOk(j, Picked(j, w))
  {
  }

  lemma PickedTally(j: Job, w: Walk)
    requires Shape(j, w) && TallyOk(j, w) && !w.cut && w.reached < |j.hooks| && w.fates[w.reached] == Untouched
    ensures Shape(j, Picked(j, w)) && TallyOk(j, Picked(j, w))
  {
    var w' := Picked(j, w);
    if w'.fates != w.fates { AnyFailureAfter(w.fates, w.reached, w'.fates[w.reached]); }
  }

  lemma PickedTable(j: Job, before: Rows, w: Walk)
    requires Shape(j, w) && !w.cut && w.reached < |j.hooks| && w.fates[w.reached] == Untouched
    requires GainsParkedRows(j, before, w.rows, w.fates, w.touched) && MayTouch(j, w.fates, Touch(w.touched, map[]))
    requires forall i | 0 <= i < |j.world| :: j.world[i].id !in before
    ensures GainsParkedRows(j, before, Picked(j, w).rows, Picked(j, w).fates, w.touched)
    ensures MayTouch(j, Picked(j, w).fates, Touch(w.touched, map[]))
  {
    var w' := Picked(j, w);
    if w'.fates != w.fates { GainAfter(j, before, w.rows, w.fates, w.touched, w.reached, w'.fates[w.reached]); }
  }

  lemma PickedKeeps(j: Job, before: Rows, w: Walk)
    requires WalkOk(j, before, w) && !w.cut && w.reached < |j.hooks|
    requires forall i | 0 <= i < |j.world| :: j.world[i].id !in before
    ensures WalkOk(j, before, Picked(j, w))
  {
    PickedFates(j, w);
    PickedTally(j, w);
    PickedTable(j, before, w);
  }

  /** What it does when attempt k ends. */
  function Settled(j: Job, w: Walk, k: nat): Walk
    requires k < |j.hooks| == |j.world| == |w.fates|
  {
    var o := j.world[k];
    var fate := if o.accepts then Accepted else if CanPark(o) then Parked else Lost;
    w.(inFlight := w.inFlight - {k},
       failed := w.failed || !o.accepts,
       fates := w.fates[k := fate],
       rows := if fate == Parked then Saved(w.rows, o.id, ParkedRow(j, k)) else w.rows)
  }

  lemma SettledKeeps(j: Job, before: Rows, w: Walk, k: nat)
    requires WalkOk(j, before, w) && k in w.inFlight
    requires forall i | 0 <= i < |j.world| :: j.world[i].id !in before
    ensures WalkOk(j, before, Settled(j, w, k))
    ensures j.world[k].id !in w.rows
  {
    var w' := Settled(j, w, k);
    GainAfter(j, before, w.rows, w.fates, w.touched, k, w'.fates[k]);
    AnyFailureAfter(w.fates, k, w'.fates[k]);
    assert FatesOk(j, w');
  }

  /** Take up the next hook, attempt k ends, or other writers are at the table. */
  datatype Turn = Next | Ends(k: nat) | Others(touch: Touch)

  /** The walk after any sequence of turns; a turn that is not possible changes nothing. */
  ghost function Play(j: Job, before: Rows, turns: seq<Turn>): (w: Walk)
    requires |j.world| == |j.hooks|
    ensures |w.fates| == |j.hooks| && w.reached <= |j.hooks| && forall i | i in w.inFlight :: i < w.reached
  {
    if turns == [] then Walk(before, false, 0, 0, false, NoFates(|j.hooks|), {}, {})
    else
      var w := Play(j, before, turns[..|turns| - 1]);
      match turns[|turns| - 1]
      case Next => if !w.cut && w.reached < |j.hooks| then Picked(j, w) else w
      case Ends(k) => if k in w.inFlight then Settled(j, w, k) else w
      case Others(t) =>
        if MayTouch(j, w.fates, t) then w.(rows := Touched(w.rows, t), touched := w.touched + t.ids) else w
  }

  lemma {:induction false} PlayOk(j: Job, before: Rows, turns: seq<Turn>)
    requires j.Valid()
    requires forall i | 0 <= i < |j.world| :: j.world[i].id !in before
    ensures WalkOk(j, before, Play(j, before, turns))
  {
    if turns == [] {
      StartOk(j, before);
    } else {
      var w := Play(j, before, turns[..|turns| - 1]);
      PlayOk(j, before, turns[..|turns| - 1]);
      match turns[|turns| - 1] {
        case Next => if !w.cut && w.reached < |j.hooks| { PickedKeeps(j, before, w); }
        case Ends(k) => if k in w.inFlight { SettledKeeps(j, before, w, k); }
        case Others(t) => if MayTouch(j, w.fates, t) { TouchKeeps(j, before, w, t); }
      }
    }
  }

  /** What a finished delivery leaves behind: every hook the walk reached has one fate,
      decided by its own world and nobody else's; the walk stops short only at a hook that
      met a finished context; the table gained exactly the parked rows, but for what others
      have since done to them; and content is
      evicted exactly when the walk saw every hook, each eligible one accepted, and one of
      them received the whole event. */
  ghost predicate Delivered(
      j: Job, before: Rows, rows: Rows, fates: seq<Fate>, reached: nat, touched: set<Id>, evict: bool) {
    && j.Valid()
    && |fates| == |j.hooks|
    && reached <= |j.hooks|
    && (forall i | 0 <= i < reached :: Passes(j, i) && fates[i] == FateOf(j, i))
    && (forall i | reached <= i < |j.hooks| :: fates[i] == Untouched)
    && (reached < |j.hooks| ==> !Passes(j, reached))
    && GainsParkedRows(j, before, rows, fates, touched)
    && (evict <==>
          && reached == |j.hooks|
          && (forall i | 0 <= i < |j.hooks| && j.For(i) :: fates[i] == Accepted)
          && (exists i :: 0 <= i < |j.hooks| && j.For(i) && DeliversFullPayload(j.hooks[i].kind)))
  }

  /** A hook gets an event when it names its type, all types, or none, and is not paused. */
  predicate Gets(j: Job, i: nat)
    requires i < |j.hooks|
  {
    var h := j.hooks[i];
    !h.paused && (h.events == [] || "*" in h.events || exists k :: 0 <= k < |h.events| && h.events[k] == j.eventType)
  }

  /** The row of a delivery refused once: one attempt, its next due the first wait from now, or
      dead when there is no wait to come. */
  predicate WaitsItsFirst(j: Job, i: nat, row: Row)
    requires i < |j.hooks| == |j.world|
  {
    && row.attempts == 1 && row.lastError == j.world[i].error
    && row.dead == (j.schedule == [])
    && (j.schedule != [] ==> row.dueSec == Unix(j.now + j.schedule[0]))
    && row.origin.hook == j.hooks[i].id && row.origin.account == j.account
    && row.origin.eventType == j.eventType && row.origin.payload == j.world[i].payload
    && row.origin.createdSec == Unix(j.now)
  }

  /** The same in the event's own terms: who accepted, whose delivery waits in the table and as
      what row, who was lost and why, where the walk stopped, and when content may go. */
  ghost predicate AsPromised(
      j: Job, before: Rows, rows: Rows, fates: seq<Fate>, reached: nat, touched: set<Id>, evict: bool)
    requires |fates| == |j.hooks| == |j.world| && reached <= |j.hooks|
  {
    && (forall i | 0 <= i < reached && !Gets(j, i) :: fates[i] == Untouched)
    && (forall i | 0 <= i < reached && Gets(j, i) ::
          var w := j.world[i];
          && (fates[i] == NotEncoded <==> !w.encodes)
          && (fates[i] == Accepted <==> w.encodes && w.accepts)
          && (fates[i] == Parked <==> w.encodes && !w.accepts && (w.mints || w.mintsLater) && w.stores)
          && (fates[i] == Lost <==> w.encodes && !w.accepts && !((w.mints || w.mintsLater) && w.stores)))
    && (forall i | 0 <= i < reached :: !(Gets(j, i) && j.world[i].encodes && j.world[i].cut))
    && (forall i | reached <= i < |j.hooks| :: fates[i] == Untouched)
    && (reached < |j.hooks| ==> Gets(j, reached) && j.world[reached].encodes && j.world[reached].cut)
    && (forall i | 0 <= i < |j.hooks| && fates[i] == Parked && j.world[i].id !in touched ::
          j.world[i].id in rows && WaitsItsFirst(j, i, rows[j.world[i].id]))
    && (forall id | id in before && id !in touched :: id in rows && rows[id] == before[id])
    && (evict <==>
          && reached == |j.hooks|
          && (forall i | 0 <= i < |j.hooks| && Gets(j, i) :: j.world[i].encodes && j.world[i].accepts)
          && (exists i :: 0 <= i < |j.hooks| && Gets(j, i) && (j.hooks[i].kind == "webhook" || j.hooks[i].kind == "")))
  }

  lemma PromiseKept(
      j: Job, before: Rows, rows: Rows, fates: seq<Fate>, reached: nat, touched: set<Id>, evict: bool)
    requires Delivered(j, before, rows, fates, reached, touched, evict)
    ensures AsPromised(j, before, rows, fates, reached, touched, evict)
  {
    assert forall i | 0 <= i < |j.hooks| :: Gets(j, i) <==> j.For(i);
    EvictsAsPromised(j, before, rows, fates, reached, touched, evict);
  }

  lemma EvictsAsPromised(
      j: Job, before: Rows, rows: Rows, fates: seq<Fate>, reached: nat, touched: set<Id>, evict: bool)
    requires Delivered(j, before, rows, fates, reached, touched, evict)
    requires forall i | 0 <= i < |j.hooks| :: Gets(j, i) <==> j.For(i)
    ensures evict <==>
      && reached == |j.hooks|
      && (forall i | 0 <= i < |j.hooks| && Gets(j, i) :: j.world[i].encodes && j.world[i].accepts)
      && (exists i :: 0 <= i < |j.hooks| && Gets(j, i) && (j.hooks[i].kind == "webhook" || j.hooks[i].kind == ""))
  {
    if reached == |j.hooks| {
      assert forall i | 0 <= i < |j.hooks| && j.For(i) ::
        fates[i] == Accepted <==> j.world[i].encodes && j.world[i].accepts;
    }
  }

  /** Whatever the order of turns, a walk with nothing left to do has delivered. */
  lemma FinishedPlay(j: Job, before: Rows, turns: seq<Turn>)
    requires j.Valid()
    requires forall i | 0 <= i < |j.world| :: j.world[i].id !in before
    requires var w := Play(j, before, turns); w.inFlight == {} && (w.cut || w.reached == |j.hooks|)
    ensures var w := Play(j, before, turns);
            Delivered(j, before, w.rows, w.fates, w.reached, w.touched, !w.cut && w.matched > 0 && !w.failed)
  {
    PlayOk(j, before, turns);
    FinishedWalk(j, before, Play(j, before, turns));
  }

  lemma FinishedWalk(j: Job, before: Rows, w: Walk)
    requires WalkOk(j, before, w) && w.inFlight == {} && (w.cut || w.reached == |j.hooks|)
    ensures Delivered(j, before, w.rows, w.fates, w.reached, w.touched, !w.cut && w.matched > 0 && !w.failed)
  {
    SomeFullMatch(j, w.reached);
    if !w.cut && !w.failed {
      forall i | 0 <= i < |j.hooks| && j.For(i)
        ensures w.fates[i] == Accepted
      {
        assert w.fates[i] == FateOf(j, i) && !Failure(w.fates[i]);
      }
    }
    if w.reached == |j.hooks| && forall i | 0 <= i < |j.hooks| && j.For(i) :: w.fates[i] == Accepted {
      forall i | 0 <= i < |w.fates|
        ensures !Failure(w.fates[i])
      {
        assert w.fates[i] == FateOf(j, i);
      }
    }
  }

  // --------------------------------------------------------------- the dispatcher

  class Dispatcher {
    const workers: nat
    var rows: Rows
    var failed: bool

    constructor (workers: nat)
      ensures this.workers == if workers == 0 then 1 else workers
      ensures rows == map[] && !failed
    {
      this.workers := if workers == 0 then 1 else workers;
      rows := map[];
      failed := false;
    }

    /** deliver. Every interleaving of picking up the next hook with the attempts already in
        flight ending, and with what others do to the table meanwhile, is a choice of the loop. */
    method Deliver(j: Job, others: seq<Touch>)
      returns (fates: seq<Fate>, reached: nat, ghost touched: set<Id>, evict: bool)
      requires workers > 0 && j.Valid()
      requires forall i | 0 <= i < |j.world| :: j.world[i].id !in rows
      modifies this
      ensures Delivered(j, old(rows), rows, fates, reached, touched, evict)
      ensures AsPromised(j, old(rows), rows, fates, reached, touched, evict)
      ensures touched <= IdsOf(others)
    {
      var matched: nat, inFlight: set<nat>, cut, o: nat := 0, {}, false, 0;
      reached := 0;
      fates := NoFates(|j.hooks|);
      failed := false;
      touched := {};
      ghost var before := rows;
      ghost var turns: seq<Turn> := [];
      while (reached < |j.hooks| && !cut) || inFlight != {}
        invariant o <= |others|
        invariant Walk(rows, failed, matched, reached, cut, fates, inFlight, touched) == Play(j, before, turns)
        invariant touched <= IdsOf(others)
        decreases |j.hooks| - reached, !cut, |inFlight|, |others| - o
      {
        var pickNext, interfere := *, *;
        if o < |others| && interfere {
          turns := turns + [Others(others[o])];
          touched := Interfered(j, fates, others[o], touched);
          o := o + 1;
        } else if reached < |j.hooks| && !cut && (inFlight == {} || (|inFlight| < workers && pickNext)) {
          turns := turns + [Next];
          matched, reached, cut, fates, inFlight := PickUp(j, matched, reached, fates, inFlight, touched);
        } else {
          var k :| k in inFlight;
          turns := turns + [Ends(k)];
          inFlight := inFlight - {k};
          var fate := Settle(j, k);
          fates := fates[k := fate];
        }
      }
      FinishedPlay(j, before, turns);
      evict := !cut && matched > 0 && !failed;
      PromiseKept(j, before, rows, fates, reached, touched, evict);
    }

    /** Another writer's turn at the table. */
    method Interfered(j: Job, fates: seq<Fate>, t: Touch, ghost touched: set<Id>) returns (ghost touched': set<Id>)
      requires |fates| == |j.hooks| == |j.world|
      modifies this`rows
      ensures rows == if MayTouch(j, fates, t) then Touched(old(rows), t) else old(rows)
      ensures touched' == if MayTouch(j, fates, t) then touched + t.ids else touched
    {
      touched' := touched;
      var known := true;
      for i := 0 to |fates|
        invariant known <==> forall k | 0 <= k < i && fates[k] != Parked :: j.world[k].id !in t.ids
      {
        if fates[i] != Parked && j.world[i].id in t.ids { known := false; }
      }
      if known {
        rows := Touched(rows, t);
        touched' := touched + t.ids;
      }
    }

    /** One turn of the walk over the hooks. */
    method PickUp(j: Job, matched: nat, reached: nat, fates: seq<Fate>, inFlight: set<nat>, ghost touched: set<Id>)
      returns (matched': nat, reached': nat, cut: bool, fates': seq<Fate>, inFlight': set<nat>)
      requires reached < |j.hooks| == |j.world| == |fates|
      modifies this`failed
      ensures Walk(rows, failed, matched', reached', cut, fates', inFlight', touched)
              == Picked(j, Walk(rows, old(failed), matched, reached, false, fates, inFlight, touched))
      ensures var gets, w := Gets(j, reached), j.world[reached];
        && matched' == matched + (if gets && j.hooks[reached].kind in {"webhook", ""} then 1 else 0)
        && failed == (old(failed) || (gets && !w.encodes))
        && cut == (gets && w.encodes && w.cut)
        && reached' == (if cut then reached else reached + 1)
        && inFlight' == (if gets && w.encodes && !w.cut then inFlight + {reached} else inFlight)
    {
      matched', reached', cut, fates', inFlight' := matched, reached, false, fates, inFlight;
      var h := j.hooks[reached];
      if !Subscribes(h, j.eventType) || h.paused {
        reached' := reached + 1;
        return;
      }
      if DeliversFullPayload(h.kind) {
        matched' := matched + 1;
      }
      if !j.world[reached].encodes {
        failed := true;
        fates', reached' := fates[reached := NotEncoded], reached + 1;
        return;
      }
      if j.world[reached].cut {
        cut := true;
        return;
      }
      fates', inFlight', reached' := fates[reached := InFlight], inFlight + {reached}, reached + 1;
    }

    /** The end of one attempt: nothing more, or failed set and the delivery parked. */
    method Settle(j: Job, k: nat) returns (fate: Fate)
      requires k < |j.hooks| == |j.world|
      modifies this
      ensures fate == if j.world[k].accepts then Accepted else if CanPark(j.world[k]) then Parked else Lost
      ensures failed == (old(failed) || !j.world[k].accepts)
      ensures rows == if fate == Parked then Saved(old(rows), j.world[k].id, ParkedRow(j, k)) else old(rows)
      ensures fate == Parked && j.world[k].id !in old(rows) ==>
        rows == old(rows)[j.world[k].id := rows[j.world[k].id]] && WaitsItsFirst(j, k, rows[j.world[k].id])
      ensures fate == Parked <==>
        !j.world[k].accepts && (j.world[k].mints || j.world[k].mintsLater) && j.world[k].stores
    {
      var w := j.world[k];
      if w.accepts {
        return Accepted;
      }
      failed := true;
      if !w.mints && !w.mintsLater {
        return Lost;
      }
      if !w.stores {
        return Lost;
      }
      rows := Saved(rows, w.id, ParkedRow(j, k));
      return Parked;
    }
  }

  /** Conservation of hooks: when the walk has seen them all, an eligible hook has neither
      accepted nor had a row of its own put in the table exactly when its payload did not encode,
      or it refused and no id could be minted or the store turned the row away; and the row is
      there still, as it was put, unless others have been at it. */
  lemma EveryHookAccountedFor(j: Job, before: Rows, rows: Rows, fates: seq<Fate>, touched: set<Id>, i: nat)
    requires j.Valid() && |fates| == |j.hooks| && i < |j.hooks| && j.For(i)
    requires forall k | 0 <= k < |j.hooks| :: fates[k] == FateOf(j, k) && j.world[k].id !in before
    requires GainsParkedRows(j, before, rows, fates, touched)
    ensures fates[i] == Accepted || fates[i] == Parked <==>
            var w := j.world[i];
            w.encodes && (w.accepts || ((w.mints || w.mintsLater) && w.stores))
    ensures j.world[i].id !in touched ==> (fates[i] == Parked <==> j.world[i].id in rows)
    ensures j.world[i].id !in touched && fates[i] == Parked ==>
      rows[j.world[i].id] == ParkedRow(j, i) && WaitsItsFirst(j, i, rows[j.world[i].id])
  {
    if j.world[i].id in rows && j.world[i].id !in touched {
      var k :| 0 <= k < |fates| && fates[k] == Parked && j.world[k].id == j.world[i].id;
      assert k == i;
    }
  }
}
