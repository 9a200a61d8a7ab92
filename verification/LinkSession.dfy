/** One QR pairing attempt's session: a pump that emits codes, any number of goroutines that
    resolve, and one reader of the result. The two mutexed sections are taken apart into their
    statements, so that a send and a close can really meet. */
module LinkSession {
  import opened Options

  datatype Result = Paired | Expired | Cancelled | Rejected

  /** How far the one resolve that won has come. */
  datatype Stage = Open | Locking | Locked | Flagged | Shut | Torn | Cleaned | Done

  datatype Holder = Nobody | Resolver | Emitter

  /** Where the pump is inside emit. */
  datatype Emit = Resting | Looking | Sending

  datatype Session = Session(
    stage: Stage,
    winner: Option<Result>,
    mu: Holder,
    closed: bool,
    codesOpen: bool,
    emit: Emit,
    panicked: bool,
    buffer: Option<Result>,
    delivered: nat)

  datatype Event =
    | Win(result: Result)
    | Acquire
    | Flag
    | CloseCodes
    | Release
    | Clean
    | Deliver
    | EmitAcquire
    | EmitLook
    | EmitSend
    | Receive

  const FRESH: Session := Session(Open, None, Nobody, false, true, Resting, false, None, 0)

  /** once.Do: only the first caller runs, the others wait for it. */
  predicate Allowed(s: Session, e: Event) {
    match e
    case Win(_) => s.stage.Open?
    case Acquire => s.stage.Locking? && s.mu.Nobody?
    case Flag => s.stage.Locked?
    case CloseCodes => s.stage.Flagged?
    case Release => s.stage.Shut?
    case Clean => s.stage.Torn?
    case Deliver => s.stage.Cleaned? && s.buffer.None?
    case EmitAcquire => s.emit.Resting? && s.mu.Nobody?
    case EmitLook => s.emit.Looking?
    case EmitSend => s.emit.Sending?
    case Receive => s.buffer.Some?
  }

  function Next(s: Session, e: Event): Session
    requires Allowed(s, e)
  {
    match e
    case Win(r) => s.(stage := Locking, winner := Some(r))
    case Acquire => s.(stage := Locked, mu := Resolver)
    case Flag => s.(stage := Flagged, closed := true)
    case CloseCodes => s.(stage := Shut, codesOpen := false)
    case Release => s.(stage := Torn, mu := Nobody)
    case Clean => s.(stage := Cleaned)
    case Deliver => s.(stage := Done, buffer := s.winner, delivered := s.delivered + 1)
    case EmitAcquire => s.(emit := Looking, mu := Emitter)
    case EmitLook => if s.closed then s.(emit := Resting, mu := Nobody) else s.(emit := Sending)
    case EmitSend => s.(emit := Resting, mu := Nobody, panicked := s.panicked || !s.codesOpen)
    case Receive => s.(buffer := None)
  }

  /** The resolve that came first goes through its stages one by one, each with its own effect: the
      mutex taken, the session closed, the codes closed, the mutex given back, the device seen to,
      the result put where the reader finds it. */
  lemma ResolverSteps(s: Session, e: Event)
    requires Allowed(s, e)
    ensures var t := Next(s, e);
      && t.stage == (match e
           case Win(_) => Locking case Acquire => Locked case Flag => Flagged case CloseCodes => Shut
           case Release => Torn case Clean => Cleaned case Deliver => Done case _ => s.stage)
      && t.winner == (if e.Win? then Some(e.result) else s.winner)
      && (t.closed <==> s.closed || e.Flag?)
      && (t.codesOpen <==> s.codesOpen && !e.CloseCodes?)
      && t.buffer == (if e.Deliver? then s.winner else if e.Receive? then None else s.buffer)
      && t.delivered == s.delivered + (if e.Deliver? then 1 else 0)
  {
  }

  /** The pump takes the mutex, looks whether the session is closed, and sends only if it is not; a
      send that meets closed codes is the panic. */
  lemma EmitterSteps(s: Session, e: Event)
    requires Allowed(s, e)
    ensures var t := Next(s, e);
      && t.emit == (if e.EmitAcquire? then Looking
                    else if e.EmitLook? && !s.closed then Sending
                    else if e.EmitLook? || e.EmitSend? then Resting else s.emit)
      && t.mu == (if e.Acquire? then Resolver else if e.EmitAcquire? then Emitter
                  else if e.Release? || e.EmitSend? || (e.EmitLook? && s.closed) then Nobody else s.mu)
      && (t.panicked <==> s.panicked || (e.EmitSend? && !s.codesOpen))
  {
  }

  /** Who can go on: the winner at every stage, but for the mutex while the pump has it, and the pump
      when it has been let in. */
  lemma StepsOn(s: Session, r: Result)
    requires SessionOk(s)
    ensures match s.stage
      case Open => Allowed(s, Win(r))
      case Locking => Allowed(s, Acquire) || s.mu.Emitter?
      case Locked => Allowed(s, Flag)
      case Flagged => Allowed(s, CloseCodes)
      case Shut => Allowed(s, Release)
      case Torn => Allowed(s, Clean)
      case Cleaned => Allowed(s, Deliver)
      case Done => s.buffer.Some? ==> Allowed(s, Receive)
    ensures s.mu.Emitter? ==> Allowed(s, EmitLook) || Allowed(s, EmitSend)
    ensures s.emit.Resting? && !s.mu.Resolver? ==> Allowed(s, EmitAcquire)
  {
  }

  predicate LockOk(s: Session) {
    && (s.mu.Resolver? <==> s.stage.Locked? || s.stage.Flagged? || s.stage.Shut?)
    && (s.mu.Emitter? <==> !s.emit.Resting?)
    && (s.closed <==> !s.stage.Open? && !s.stage.Locking? && !s.stage.Locked?)
    && (s.codesOpen <==> s.stage.Open? || s.stage.Locking? || s.stage.Locked? || s.stage.Flagged?)
    && (s.emit.Sending? ==> !s.closed)
    && !s.panicked
  }

  predicate ResultOk(s: Session) {
    && (s.winner.None? <==> s.stage.Open?)
    && s.delivered == (if s.stage.Done? then 1 else 0)
    && (s.buffer.Some? ==> s.stage.Done? && s.buffer == s.winner)
  }

  predicate SessionOk(s: Session) {
    LockOk(s) && ResultOk(s)
  }

  lemma FreshOk()
    ensures SessionOk(FRESH)
  {
  }

  lemma LockKept(s: Session, e: Event)
    requires LockOk(s) && Allowed(s, e)
    ensures LockOk(Next(s, e))
  {
  }

  lemma ResultKept(s: Session, e: Event)
    requires ResultOk(s) && Allowed(s, e)
    ensures ResultOk(Next(s, e))
    ensures s.winner.Some? ==> Next(s, e).winner == s.winner
  {
  }

  ghost predicate Run(states: seq<Session>, events: seq<Event>) {
    && |states| == |events| + 1
    && states[0] == FRESH
    && forall i | 0 <= i < |events| :: Allowed(states[i], events[i]) && states[i + 1] == Next(states[i], events[i])
  }

  lemma {:induction false} SessionHolds(states: seq<Session>, events: seq<Event>, n: nat)
    requires Run(states, events) && n < |states|
    ensures SessionOk(states[n])
  {
    if n == 0 {
      FreshOk();
    } else {
      SessionHolds(states, events, n - 1);
      LockKept(states[n - 1], events[n - 1]);
      ResultKept(states[n - 1], events[n - 1]);
    }
  }

  /** However emits and resolves interleave, nothing is ever sent on the closed codes channel. */
  lemma NeverSendsOnClosed(states: seq<Session>, events: seq<Event>, n: nat)
    requires Run(states, events) && n < |states|
    ensures !states[n].panicked
    ensures n < |events| && events[n].EmitSend? ==> states[n].codesOpen
  {
    SessionHolds(states, events, n);
  }

  function Receives(events: seq<Event>, n: nat): nat
    requires n <= |events|
  {
    if n == 0 then 0 else Receives(events, n - 1) + if events[n - 1].Receive? then 1 else 0
  }

  lemma {:induction false} Delivered(states: seq<Session>, events: seq<Event>, n: nat)
    requires Run(states, events) && n < |states|
    ensures Receives(events, n) + (if states[n].buffer.Some? then 1 else 0) == states[n].delivered
  {
    if n > 0 {
      Delivered(states, events, n - 1);
      SessionHolds(states, events, n - 1);
    }
  }

  /** One value is delivered once the winner is through, and one reader gets it; the buffered
      send never blocks the goroutine that resolves. */
  lemma ResolvesOnce(states: seq<Session>, events: seq<Event>, n: nat)
    requires Run(states, events) && n < |states|
    ensures states[n].delivered == (if states[n].stage.Done? then 1 else 0)
    ensures Receives(events, n) <= 1
    ensures states[n].stage.Cleaned? ==> Allowed(states[n], Deliver)
    ensures states[n].stage.Done? && Receives(events, n) == 0 ==> states[n].buffer == states[n].winner
  {
    SessionHolds(states, events, n);
    Delivered(states, events, n);
  }

  /** The first resolve decides: the winner never changes. */
  lemma {:induction false} FirstResolveWins(states: seq<Session>, events: seq<Event>, i: nat, n: nat)
    requires Run(states, events) && i <= n < |states| && states[i].winner.Some?
    ensures states[n].winner == states[i].winner
  {
    if i < n {
      FirstResolveWins(states, events, i, n - 1);
      SessionHolds(states, events, n - 1);
      ResultKept(states[n - 1], events[n - 1]);
    }
  }

  // ---- the session object ----

  /** What whatsmeow's QR channel carries. */
  datatype Item = Code(code: nat) | Success | TimedOut | Failed | Passkey | Unexpected

  const CODES_SIZE: nat := 8

  predicate Verdict(item: Item) {
    item.TimedOut? || item.Failed? || item.Unexpected?
  }

  function ResultOf(item: Item): Result {
    if item.TimedOut? then Expired else Rejected
  }

  /** What the channel alone says: its first verdict, or an expired window when it just closes. */
  function Outcome(items: seq<Item>, n: nat): Result
    requires n <= |items|
    decreases |items| - n
  {
    if n == |items| then Expired
    else if Verdict(items[n]) then ResultOf(items[n])
    else Outcome(items, n + 1)
  }

  function CodesOf(items: seq<Item>, n: nat): seq<nat>
    requires n <= |items|
  {
    if n == 0 then []
    else CodesOf(items, n - 1) + if items[n - 1].Code? then [items[n - 1].code] else []
  }

  /** The codes among the items, one after another. */
  lemma CodesAre(items: seq<Item>, k: nat)
    requires k < |items|
    ensures CodesOf(items, 0) == []
    ensures items[k].Code? ==> CodesOf(items, k + 1) == CodesOf(items, k) + [items[k].code]
    ensures !items[k].Code? ==> CodesOf(items, k + 1) == CodesOf(items, k)
  {
  }

  /** The first of a timeout, a failure and an item nobody knows is the verdict. */
  predicate FirstVerdict(items: seq<Item>, n: nat) {
    && n <= |items|
    && (n < |items| ==> items[n].TimedOut? || items[n].Failed? || items[n].Unexpected?)
    && forall k | 0 <= k < n :: items[k].Code? || items[k].Success? || items[k].Passkey?
  }

  /** What a verdict says, or none: a timeout and a closed channel that the window is over, the others
      that the provider refused. */
  predicate Says(items: seq<Item>, n: nat, r: Result)
    requires n <= |items|
  {
    r == if n == |items| || items[n].TimedOut? then Expired else Rejected
  }

  lemma {:induction false} OutcomeIs(items: seq<Item>, i: nat, n: nat)
    requires i <= n && FirstVerdict(items, n)
    ensures Says(items, n, Outcome(items, i))
    decreases n - i
  {
    if i < n { OutcomeIs(items, i + 1, n); }
  }

  class LinkSession {
    var codes: seq<nat>
    var closed: bool
    var result: Option<Result>
    var device: bool

    constructor ()
      ensures codes == [] && !closed && result == None && !device
    {
      codes, closed, result, device := [], false, None, false;
    }

    ghost predicate Valid()
      reads this
    {
      (closed <==> result.Some?) && |codes| <= 8 && (result.Some? && result.value != Paired ==> !device)
    }

    /** A code nobody has room for is dropped. */
    method Emit(code: nat)
      requires Valid()
      modifies `codes
      ensures Valid()
      ensures codes == old(codes) + if closed || |old(codes)| == 8 then [] else [code]
    {
      if closed { return; }
      if |codes| < CODES_SIZE { codes := codes + [code]; }
    }

    /** Only the first resolve counts; any outcome but success deletes the candidate device. */
    method Resolve(r: Result)
      requires Valid()
      modifies `closed, `result, `device
      ensures Valid() && closed
      ensures result == if old(result).Some? then old(result) else Some(r)
      ensures device == (old(device) && (old(result).Some? || r == Paired))
    {
      if result.Some? { return; }
      closed := true;
      if r != Paired { device := false; }
      result := Some(r);
    }

    /** The pump: codes are forwarded until the channel closes or the session is over. */
    method Pump(items: seq<Item>)
      requires Valid()
      modifies this
      ensures Valid()
      ensures result == if old(result).Some? then old(result) else Some(Outcome(items, 0))
      ensures result.Some? && (old(result).Some? ==> result == old(result) && codes == old(codes))
      // The verdict is the first one, and the codes before it are there, as far as there was room.
      ensures old(result).None? ==> exists n ::
        && FirstVerdict(items, n) && Says(items, n, result.value)
        && (old(codes) == [] ==>
              codes == if |CodesOf(items, n)| <= 8 then CodesOf(items, n) else CodesOf(items, n)[..8])
    {
      var n := 0;
      while n < |items| && !closed
        invariant 0 <= n <= |items| && Valid()
        invariant old(result).Some? ==> result == old(result) && codes == old(codes)
        invariant old(result).None? && !closed ==> FirstVerdict(items[..n], n)
        invariant old(result).None? && !closed && old(codes) == [] ==>
          codes <= CodesOf(items, n) && (|codes| < 8 ==> codes == CodesOf(items, n))
        invariant old(result).None? && closed ==>
          n > 0 && FirstVerdict(items, n - 1) && Says(items, n - 1, result.value) && n - 1 < |items|
        invariant old(result).None? && closed && old(codes) == [] ==>
          n > 0 && codes <= CodesOf(items, n - 1) && (|codes| < 8 ==> codes == CodesOf(items, n - 1))
      {
        if items[n].Code? {
          Emit(items[n].code);
        } else if Verdict(items[n]) {
          Resolve(ResultOf(items[n]));
        }
        n := n + 1;
      }
      ghost var end := if closed && n > 0 then n - 1 else n;
      if !closed { Resolve(Expired); }
      if old(result).None? {
        assert FirstVerdict(items, end) && Says(items, end, result.value);
        OutcomeIs(items, 0, end);
      }
    }
  }
}
