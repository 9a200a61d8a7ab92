/** The connection lifecycle of one chat account: dial, serve, and decide whether another
    attempt is worth it. Time is in nanoseconds; the provider, the phone and the clock are a
    script of turns, one for each pass of the actor's loop. */
module Backoff {

  const SECOND: int := 1_000_000_000
  const MAX_BACKOFF: int := 300 * SECOND
  const STABLE_AFTER: int := 600 * SECOND
  const MAX_FAILURES: nat := 30

  // ---- the wait before one reconnect ----

  function Pow2(n: nat): (p: nat)
    ensures p > 0
  {
    if n == 0 then 1 else 2 * Pow2(n - 1)
  }

  /** The capped exponential, before jitter. The shift is clamped at nine. */
  function Base(attempt: int): int {
    var n := if attempt < 0 then 0 else if attempt > 9 then 9 else attempt;
    var d := SECOND * Pow2(n);
    if d > MAX_BACKOFF then MAX_BACKOFF else d
  }

  /** draw is the random number in [0, 1). */
  function Next(attempt: int, draw: real): int {
    var d := Base(attempt);
    var jittered := (d as real * (1.0 + (draw * 0.4 - 0.2))).Floor;
    if jittered > MAX_BACKOFF then MAX_BACKOFF else jittered
  }

  function Low(attempt: nat): int { Base(attempt) / 5 * 4 }

  function High(attempt: nat): int {
    if Base(attempt) / 5 * 6 > MAX_BACKOFF then MAX_BACKOFF else Base(attempt) / 5 * 6
  }

  /** The clamped shift loses nothing: the base is the true capped power. */
  lemma {:induction false} BaseIsCappedPower(attempt: nat)
    ensures Base(attempt) == if SECOND * Pow2(attempt) > MAX_BACKOFF then MAX_BACKOFF else SECOND * Pow2(attempt)
    ensures attempt >= 9 ==> Pow2(attempt) >= 512
  {
    if attempt > 9 {
      BaseIsCappedPower(attempt - 1);
    } else {
      assert Pow2(9) == 512;
    }
  }

  lemma NonNegative(a: real, b: real)
    requires a >= 0.0 && b >= 0.0
    ensures a * b >= 0.0
  {
  }

  /** Five fifths of y, scaled by a factor within a fifth of one. */
  lemma Scaled(x: real, y: real, factor: real)
    requires y >= 0.0 && x == 5.0 * y && 0.8 <= factor <= 1.2
    ensures 4.0 * y <= x * factor <= 6.0 * y
  {
    var low, high := 5.0 * factor - 4.0, 6.0 - 5.0 * factor;
    NonNegative(y, low);
    NonNegative(y, high);
    var scaled := y * factor;
    assert y * low == 5.0 * scaled - 4.0 * y;
    assert y * high == 6.0 * y - 5.0 * scaled;
    assert x * factor == 5.0 * scaled;
  }

  lemma Between(r: real, q: int)
    requires 4.0 * q as real <= r <= 6.0 * q as real
    ensures q * 4 <= r.Floor <= q * 6
  {
  }

  lemma JitteredFifths(x: real, q: int, factor: real)
    requires 0 <= q && x == 5.0 * q as real && 0.8 <= factor <= 1.2
    ensures q * 4 <= (x * factor).Floor <= q * 6
  {
    Scaled(x, q as real, factor);
    Between(x * factor, q);
  }

  lemma Jitter(d: int, q: int, factor: real)
    requires 0 <= q && d == q * 5 && 0.8 <= factor <= 1.2
    ensures q * 4 <= (d as real * factor).Floor <= q * 6
  {
    JitteredFifths(d as real, q, factor);
  }

  lemma BaseInFifths(attempt: nat) returns (q: int)
    ensures q > 0 && Base(attempt) == q * 5 && q == Base(attempt) / 5
  {
    q := Base(attempt) / 5;
    if Base(attempt) != MAX_BACKOFF {
      var n := if attempt > 9 then 9 else attempt;
      assert Base(attempt) == 200_000_000 * Pow2(n) * 5;
    }
  }

  /** A wait is within a fifth of the capped power, and never above five minutes. */
  lemma NextBounds(attempt: nat, draw: real)
    requires 0.0 <= draw < 1.0
    ensures Low(attempt) <= Next(attempt, draw) <= High(attempt) <= MAX_BACKOFF
    ensures Low(attempt) > 0
  {
    var q := BaseInFifths(attempt);
    var jitter := 1.0 + (draw * 0.4 - 0.2);
    Jitter(Base(attempt), q, jitter);
  }

  /** Which wait it is: the draw picks a point between a fifth below the capped power and a fifth
      above, in nanoseconds, and five minutes cut it off. */
  lemma NextIsJittered(attempt: int, draw: real)
    requires 0.0 <= draw < 1.0
    ensures var full := SECOND * Pow2(if attempt < 0 then 0 else attempt);
      var capped := if full > 300_000_000_000 then 300_000_000_000 else full;
      var exact := capped as real * (0.8 + draw * 0.4);
      if exact >= 300_000_000_001.0 then Next(attempt, draw) == 300_000_000_000
      else Next(attempt, draw) as real <= exact < Next(attempt, draw) as real + 1.0
  {
    BaseIsCappedPower(if attempt < 0 then 0 else attempt);
    Floored(Base(attempt), 1.0 + (draw * 0.4 - 0.2));
    assert 1.0 + (draw * 0.4 - 0.2) == 0.8 + draw * 0.4;
  }

  lemma Floored(d: int, factor: real)
    ensures var exact := d as real * factor;
      exact.Floor as real <= exact < exact.Floor as real + 1.0
  {
  }

  // ---- the lifecycle ----

  datatype Ending = Shutdown | LoggedOutByPhone | Drop

  /** early and late: the stability timer of this or an earlier connection resets the failure
      count just before, or just after, this turn's own failure is counted. */
  datatype Turn =
    | NoDevice
    | Refused(reauth: bool, early: bool, late: bool, draw: real, cancelled: bool)
    | Held(ending: Ending, duration: int, early: bool, late: bool, draw: real, cancelled: bool)

  datatype Status = Running | Stopped | LoggedOut(reason: string)

  datatype Snapshot = Snapshot(failures: nat, reconnects: nat, attempts: nat, waits: seq<int>, status: Status)

  const FRESH: Snapshot := Snapshot(0, 0, 0, [], Running)

  predicate Fails(t: Turn) {
    t.Refused? || (t.Held? && t.ending == Drop)
  }

  /** A failure was counted: give up, or wait. */
  function AfterFailure(s: Snapshot, n: nat, t: Turn): Snapshot
    requires n > 0 && Fails(t)
  {
    var s' := s.(failures := if t.late then 0 else n, attempts := s.attempts + 1);
    if n >= MAX_FAILURES then s'.(status := LoggedOut("unreachable"))
    else s'.(waits := s.waits + [Next(n - 1, t.draw)], status := if t.cancelled then Stopped else Running)
  }

  function Step(s: Snapshot, t: Turn): Snapshot {
    match t
    case NoDevice => s.(status := LoggedOut("no device"))
    case Refused(reauth, early, late, _, _) =>
      var n := (if early then 0 else s.failures) + 1;
      if reauth
      then s.(failures := if late then 0 else n, attempts := s.attempts + 1, status := LoggedOut("relink required"))
      else AfterFailure(s, n, t)
    case Held(ending, _, early, late, _, _) =>
      var f := if early then 0 else s.failures;
      match ending
      case Shutdown => s.(failures := if late then 0 else f, attempts := s.attempts + 1, status := Stopped)
      case LoggedOutByPhone =>
        s.(failures := if late then 0 else f, attempts := s.attempts + 1, status := LoggedOut("logged out by phone"))
      case Drop => AfterFailure(s.(reconnects := s.reconnects + 1), f + 1, t)
  }

  function After(script: seq<Turn>, n: nat): Snapshot
    requires n <= |script|
  {
    if n == 0 then FRESH else Step(After(script, n - 1), script[n - 1])
  }

  class Actor {
    var failures: nat
    var reconnects: nat
    var attempts: nat
    var waits: seq<int>
    var status: Status

    constructor ()
      ensures Health() == FRESH
    {
      failures, reconnects, attempts, waits, status := 0, 0, 0, [], Running;
    }

    function Health(): Snapshot
      reads this
    {
      Snapshot(failures, reconnects, attempts, waits, status)
    }

    /** The timer of a connection that held long enough. */
    method Stabilised(fires: bool)
      modifies `failures
      ensures failures == if fires then 0 else old(failures)
    {
      if fires { failures := 0; }
    }

    method Sleep(d: int, cancelled: bool)
      modifies `waits, `status
      ensures waits == old(waits) + [d]
      ensures status == if cancelled then Stopped else old(status)
    {
      waits := waits + [d];
      if cancelled { status := Stopped; }
    }

    method CountFailure(late: bool) returns (n: nat)
      modifies `failures
      ensures n == old(failures) + 1 && failures == if late then 0 else n
    {
      failures := failures + 1;
      n := failures;
      Stabilised(late);
    }

    /** One pass of the loop. */
    method Pass(t: Turn)
      requires status == Running
      modifies this
      ensures Health() == Step(old(Health()), t)
    {
      if t.NoDevice? {
        status := LoggedOut("no device");
        return;
      }
      attempts := attempts + 1;
      Stabilised(t.early);
      if t.Refused? {
        var n := CountFailure(t.late);
        if t.reauth {
          status := LoggedOut("relink required");
        } else if n >= MAX_FAILURES {
          status := LoggedOut("unreachable");
        } else {
          Sleep(Next(n - 1, t.draw), t.cancelled);
        }
        return;
      }
      match t.ending {
        case Shutdown =>
          Stabilised(t.late);
          status := Stopped;
        case LoggedOutByPhone =>
          Stabilised(t.late);
          status := LoggedOut("logged out by phone");
        case Drop =>
          reconnects := reconnects + 1;
          var n := CountFailure(t.late);
          if n >= MAX_FAILURES {
            status := LoggedOut("unreachable");
          } else {
            Sleep(Next(n - 1, t.draw), t.cancelled);
          }
      }
    }

    /** The whole lifecycle, for as long as the script lasts. */
    method Run(script: seq<Turn>) returns (n: nat)
      requires Health() == FRESH
      modifies this
      ensures n <= |script| && Health() == After(script, n)
      ensures forall i | 0 <= i < n :: After(script, i).status == Running
      ensures status == Running ==> n == |script|
    {
      n := 0;
      while n < |script| && status == Running
        invariant n <= |script| && Health() == After(script, n)
        invariant forall i | 0 <= i < n :: After(script, i).status == Running
      {
        Pass(script[n]);
        n := n + 1;
      }
    }
  }

  // ---- what a turn means ----

  /** How a turn ends a running actor, and that nothing else does. */
  lemma Endings(s: Snapshot, t: Turn)
    requires s.status == Running
    ensures var end := Step(s, t).status;
      && (t.NoDevice? <==> end == LoggedOut("no device"))
      && (t.Refused? && t.reauth <==> end == LoggedOut("relink required"))
      && (t.Held? && t.ending == LoggedOutByPhone <==> end == LoggedOut("logged out by phone"))
      && (end == LoggedOut("unreachable") <==>
            Fails(t) && !(t.Refused? && t.reauth) && (if t.early then 0 else s.failures) + 1 >= 30)
      && (end == Stopped <==>
            || (t.Held? && t.ending == Shutdown)
            || (Fails(t) && !(t.Refused? && t.reauth) && (if t.early then 0 else s.failures) + 1 < 30 && t.cancelled))
      && (end == Running <==>
            Fails(t) && !(t.Refused? && t.reauth) && (if t.early then 0 else s.failures) + 1 < 30 && !t.cancelled)
  {
  }

  /** What a turn counts: a dial, a dropped connection, and the wait before the next dial, as long as
      the failures in a row before this one make it. */
  lemma CountsOne(s: Snapshot, t: Turn)
    requires s.status == Running
    ensures var s' := Step(s, t);
      && s'.attempts == s.attempts + (if t.NoDevice? then 0 else 1)
      && s'.reconnects == s.reconnects + (if t.Held? && t.ending == Drop then 1 else 0)
      && s'.waits == s.waits + (if Fails(t) && !s'.status.LoggedOut?
                                then [Next(if t.early then 0 else s.failures, t.draw)] else [])
      && s'.failures == (if t.NoDevice? then s.failures
                         else if t.late then 0
                         else (if t.early then 0 else s.failures) + if Fails(t) then 1 else 0)
  {
  }

  /** How many of the first n turns are such turns. */
  function HowMany(script: seq<Turn>, n: nat, such: Turn -> bool): nat
    requires n <= |script|
  {
    if n == 0 then 0 else HowMany(script, n - 1, such) + if such(script[n - 1]) then 1 else 0
  }

  predicate Dialled(t: Turn) {
    !t.NoDevice?
  }

  predicate Dropped(t: Turn) {
    t.Held? && t.ending == Drop
  }

  /** Over a whole life the counters are what they are called. */
  lemma {:induction false} CountsAll(script: seq<Turn>, n: nat)
    requires n <= |script| && forall i | 0 <= i < n :: After(script, i).status == Running
    ensures After(script, n).attempts == HowMany(script, n, Dialled)
    ensures After(script, n).reconnects == HowMany(script, n, Dropped)
  {
    if n > 0 {
      CountsAll(script, n - 1);
      CountsOne(After(script, n - 1), script[n - 1]);
    }
  }

  // ---- when the actor gives up ----

  predicate Early(t: Turn) {
    !t.NoDevice? && t.early
  }

  predicate Late(t: Turn) {
    !t.NoDevice? && t.late
  }

  /** The last f turns all failed, and nothing forgave them. */
  predicate Streak(script: seq<Turn>, n: nat, f: nat)
    requires f <= n <= |script|
  {
    && (forall k | n - f <= k < n :: Fails(script[k]))
    && (forall k | n - f < k < n :: !Early(script[k]))
    && (forall k | n - f <= k < n - 1 :: !Late(script[k]))
  }

  /** Whether the turn before a streak of f forgave everything older. */
  predicate Forgiven(script: seq<Turn>, n: nat, f: nat)
    requires f <= n <= |script|
  {
    if f == 0 then n == 0 || Late(script[n - 1])
    else f == n || Early(script[n - f]) || Late(script[n - f - 1])
  }

  lemma {:induction false} FailuresAreAStreak(script: seq<Turn>, n: nat)
    requires n <= |script| && forall i | 0 <= i <= n :: After(script, i).status == Running
    ensures After(script, n).failures <= n && After(script, n).failures < MAX_FAILURES
    ensures Streak(script, n, After(script, n).failures)
    ensures After(script, n).failures > 0 ==> !Late(script[n - 1])
    ensures Forgiven(script, n, After(script, n).failures)
  {
    if n > 0 {
      FailuresAreAStreak(script, n - 1);
      CountStep(After(script, n - 1), script[n - 1]);
    }
  }

  lemma CountStep(s: Snapshot, t: Turn)
    requires Step(s, t).status == Running == s.status
    ensures Fails(t)
    ensures Step(s, t).failures == (if Late(t) then 0 else if Early(t) then 1 else s.failures + 1)
    ensures (if Early(t) then 0 else s.failures) + 1 < MAX_FAILURES
  {
  }

  lemma GiveUpStep(s: Snapshot, t: Turn)
    requires s.status == Running && s.failures < MAX_FAILURES
    ensures Step(s, t).status == LoggedOut("unreachable") <==>
      Fails(t) && !Early(t) && s.failures == 29 && !(t.Refused? && t.reauth)
    ensures Step(s, t).status == LoggedOut("unreachable") ==>
      Step(s, t).waits == s.waits && Step(s, t).attempts == s.attempts + 1
    ensures Step(s, t).attempts <= s.attempts + 1
  {
  }

  /** The actor gives the account up exactly when thirty turns in a row have failed with no
      forgiveness between them, the last not being a refusal that asks for a relink. */
  lemma GivesUpExactly(script: seq<Turn>, n: nat)
    requires 0 < n <= |script| && forall i | 0 <= i < n :: After(script, i).status == Running
    ensures After(script, n).status == LoggedOut("unreachable") <==>
      && n >= 30 && Streak(script, n, 30)
      && !(script[n - 1].Refused? && script[n - 1].reauth)
  {
    FailuresAreAStreak(script, n - 1);
    GiveUpStep(After(script, n - 1), script[n - 1]);
    var f := After(script, n - 1).failures;
    if f < n - 1 { assert f > 0 ==> Early(script[n - 1 - f]) || Late(script[n - 1 - f - 1]); }
  }

  /** Draws are random numbers; a reset needs an earlier connection that held ten minutes. */
  ghost predicate Possible(script: seq<Turn>) {
    forall k | 0 <= k < |script| :: TurnPossible(script, k)
  }

  predicate TurnPossible(script: seq<Turn>, k: nat)
    requires k < |script|
  {
    && (!script[k].NoDevice? ==> 0.0 <= script[k].draw < 1.0)
    && (Early(script[k]) || Late(script[k]) ==> exists j | 0 <= j <= k :: LongLived(script[j]))
  }

  predicate LongLived(t: Turn) {
    t.Held? && t.duration >= STABLE_AFTER
  }

  function Sum(waits: seq<int>, lo: nat, hi: nat): int
    requires lo <= hi <= |waits|
  {
    if lo == hi then 0 else Sum(waits, lo, hi - 1) + waits[hi - 1]
  }

  /** The most recent waits are those of the current streak, in order. */
  predicate WaitsOk(waits: seq<int>, f: nat) {
    && f <= |waits|
    && forall k | 0 <= k < f :: Low(k) <= waits[|waits| - f + k] <= High(k)
  }

  lemma OneMoreWait(waits: seq<int>, f: nat, w: int)
    requires WaitsOk(waits, f) && Low(f) <= w <= High(f)
    ensures WaitsOk(waits + [w], f + 1)
  {
    forall k | 0 <= k < f + 1
      ensures Low(k) <= (waits + [w])[|waits| + 1 - (f + 1) + k] <= High(k)
    {
      assert k < f ==> Low(k) <= waits[|waits| - f + k] <= High(k);
    }
  }

  lemma WaitStep(s: Snapshot, t: Turn)
    requires Step(s, t).status == Running == s.status
    requires WaitsOk(s.waits, s.failures) && 0.0 <= t.draw < 1.0
    ensures WaitsOk(Step(s, t).waits, Step(s, t).failures)
    ensures |Step(s, t).waits| == |s.waits| + 1 && Step(s, t).attempts == s.attempts + 1
  {
    CountStep(s, t);
    var f := if Early(t) then 0 else s.failures;
    NextBounds(f, t.draw);
    OneMoreWait(s.waits, f, Next(f, t.draw));
    assert Step(s, t).waits == s.waits + [Next(f, t.draw)];
  }

  lemma {:induction false} WaitsOfAStreak(script: seq<Turn>, n: nat)
    requires n <= |script| && forall i | 0 <= i <= n :: After(script, i).status == Running
    requires Possible(script)
    ensures WaitsOk(After(script, n).waits, After(script, n).failures)
    ensures |After(script, n).waits| == After(script, n).attempts == n
  {
    if n > 0 {
      WaitsOfAStreak(script, n - 1);
      assert TurnPossible(script, n - 1);
      assert After(script, n - 1).status == Running == After(script, n).status;
      CountStep(After(script, n - 1), script[n - 1]);
      WaitStep(After(script, n - 1), script[n - 1]);
    }
  }

  /** The waits of a streak of nine or more failures, summed. */
  lemma {:induction false} SumOfAStreak(waits: seq<int>, lo: nat, f: nat)
    requires 9 <= f && lo + f <= |waits|
    requires forall k | 0 <= k < f :: Low(k) <= waits[lo + k] <= High(k)
    ensures 4 * (SECOND / 5) * (511 + 300 * (f - 9)) <= Sum(waits, lo, lo + f)
    ensures Sum(waits, lo, lo + f) <= SECOND * (306 + 300 + 300 * (f - 9))
  {
    if f == 9 {
      FirstNine(waits, lo);
    } else {
      SumOfAStreak(waits, lo, f - 1);
      assert Pow2(9) == 512;
      assert Low(f - 1) <= waits[lo + (f - 1)] <= High(f - 1);
    }
  }

  lemma SmallBounds(k: nat)
    requires k < 9
    ensures Low(k) == 800_000_000 * Pow2(k)
    ensures High(k) == if k == 8 then MAX_BACKOFF else 1_200_000_000 * Pow2(k)
  {
    PowTable();
    assert Base(k) == SECOND * Pow2(k);
  }

  lemma PowTable()
    ensures Pow2(0) == 1 && Pow2(1) == 2 && Pow2(2) == 4 && Pow2(3) == 8 && Pow2(4) == 16
    ensures Pow2(5) == 32 && Pow2(6) == 64 && Pow2(7) == 128 && Pow2(8) == 256 && Pow2(9) == 512
  {
  }

  lemma Three(waits: seq<int>, lo: nat, k: nat)
    requires k <= 6 && lo + k + 3 <= |waits|
    requires forall i | 0 <= i < 9 && lo + i < |waits| :: Low(i) <= waits[lo + i] <= High(i)
    ensures 800_000_000 * (7 * Pow2(k)) <= Sum(waits, lo + k, lo + k + 3)
    ensures Sum(waits, lo + k, lo + k + 3) <= if k == 6 then SECOND * 530 + 400_000_000 else 1_200_000_000 * (7 * Pow2(k))
  {
    PowTable();
    SumByThree(waits, lo + k);
    SmallBounds(k);
    SmallBounds(k + 1);
    SmallBounds(k + 2);
    assert Low(k) <= waits[lo + k] <= High(k);
    assert Low(k + 1) <= waits[lo + (k + 1)] <= High(k + 1);
    assert Low(k + 2) <= waits[lo + (k + 2)] <= High(k + 2);
  }

  lemma FirstNine(waits: seq<int>, lo: nat)
    requires lo + 9 <= |waits|
    requires forall k | 0 <= k < 9 :: Low(k) <= waits[lo + k] <= High(k)
    ensures 4 * (SECOND / 5) * 511 <= Sum(waits, lo, lo + 9) <= SECOND * 606
  {
    PowTable();
    Three(waits, lo, 0);
    Three(waits, lo, 3);
    Three(waits, lo, 6);
    SumSplits(waits, lo, lo + 3, lo + 6);
    SumSplits(waits, lo, lo + 6, lo + 9);
  }

  lemma SumByThree(waits: seq<int>, lo: nat)
    requires lo + 3 <= |waits|
    ensures Sum(waits, lo, lo + 3) == waits[lo] + waits[lo + 1] + waits[lo + 2]
  {
    assert Sum(waits, lo, lo + 1) == waits[lo];
    assert Sum(waits, lo, lo + 2) == waits[lo] + waits[lo + 1];
  }

  lemma {:induction false} SumSplits(waits: seq<int>, lo: nat, mid: nat, hi: nat)
    requires lo <= mid <= hi <= |waits|
    ensures Sum(waits, lo, hi) == Sum(waits, lo, mid) + Sum(waits, mid, hi)
  {
    if mid < hi { SumSplits(waits, lo, mid, hi - 1); }
  }

  /** The last 29 waits: each within its bounds, between 5208.8 and 6606 seconds in all. */
  predicate FullWait(waits: seq<int>) {
    && WaitsOk(waits, 29)
    && 5_208_800_000_000 <= Sum(waits, |waits| - 29, |waits|) <= 6_606_000_000_000
  }

  lemma TotalOfAStreak(waits: seq<int>)
    requires WaitsOk(waits, 29)
    ensures FullWait(waits)
  {
    SumOfAStreak(waits, |waits| - 29, 29);
  }

  lemma GivenUp(s: Snapshot, t: Turn)
    requires s.status == Running && s.failures < MAX_FAILURES && WaitsOk(s.waits, s.failures)
    requires Step(s, t).status == LoggedOut("unreachable")
    ensures Step(s, t).attempts == s.attempts + 1 && Step(s, t).waits == s.waits && s.failures == 29
  {
    GiveUpStep(s, t);
  }

  /** An account given up as unreachable was tried thirty times in a row, with 29 waits between
      5208.8 and 6606 seconds in all, each at most five minutes. */
  lemma GivingUpTakesTime(script: seq<Turn>, n: nat)
    requires Possible(script)
    requires 0 < n <= |script| && forall i | 0 <= i < n :: After(script, i).status == Running
    requires After(script, n).status == LoggedOut("unreachable")
    ensures After(script, n).attempts == n >= 30
    ensures FullWait(After(script, n).waits) && |After(script, n).waits| == n - 1
  {
    Penultimate(script, n);
    GivenUp(After(script, n - 1), script[n - 1]);
    TotalOfAStreak(After(script, n - 1).waits);
  }

  lemma Penultimate(script: seq<Turn>, n: nat)
    requires Possible(script)
    requires 0 < n <= |script| && forall i | 0 <= i < n :: After(script, i).status == Running
    ensures After(script, n) == Step(After(script, n - 1), script[n - 1])
    ensures var s := After(script, n - 1);
      s.status == Running && s.failures < MAX_FAILURES && WaitsOk(s.waits, s.failures) && |s.waits| == s.attempts == n - 1
  {
    FailuresAreAStreak(script, n - 1);
    WaitsOfAStreak(script, n - 1);
  }

  lemma NothingForgiven(script: seq<Turn>, k: nat)
    requires Possible(script) && forall j | 0 <= j < |script| :: !LongLived(script[j])
    requires k < |script|
    ensures !Early(script[k]) && !Late(script[k])
  {
    assert TurnPossible(script, k);
  }

  /** With no connection that held ten minutes, the account is dialled at most thirty times. */
  lemma AtMostThirtyAttempts(script: seq<Turn>, n: nat)
    requires Possible(script)
    requires forall k | 0 <= k < |script| :: !(script[k].Held? && script[k].duration >= 600_000_000_000)
    requires 0 < n <= |script| && forall i | 0 <= i < n :: After(script, i).status == Running
    ensures After(script, n).attempts <= n <= 30
    ensures n == 30 ==> After(script, n).status != Running
  {
    FailuresAreAStreak(script, n - 1);
    WaitsOfAStreak(script, n - 1);
    GiveUpStep(After(script, n - 1), script[n - 1]);
    forall k | 0 <= k < n
      ensures !Early(script[k]) && !Late(script[k])
    {
      NothingForgiven(script, k);
    }
    if After(script, n).status == Running { CountStep(After(script, n - 1), script[n - 1]); }
  }
}
