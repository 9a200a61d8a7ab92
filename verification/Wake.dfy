/** How requests for a sync become sync runs: a bounded queue, an inflight set that keeps one
    run per account, and a pending set that folds every request made during a run into one
    follow-up. Each step is one mutex section or one channel operation of one goroutine. */
module Wake {

  const QUEUE_SIZE: nat := 256

  /** A goroutine: one that called Wake and has yet to post, or a worker. */
  datatype Thread =
    | Sending(account: nat)
    | Idle
    | Took(account: nat)
    | Running(account: nat)
    | Again(account: nat)
    | Rewaking(account: nat)
    | Reposting(account: nat)
    | Gone

  datatype State = State(
    queue: seq<nat>,
    inflight: set<nat>,
    pending: set<nat>,
    threads: map<nat, Thread>,
    cancelled: bool)

  datatype Action =
    | Request(thread: nat, account: nat)
    | Post(thread: nat)
    | StartWorker(thread: nat)
    | Take(thread: nat)
    | Begin(thread: nat)
    | End(thread: nat)
    | LookAtContext(thread: nat)
    | Rewake(thread: nat)
    | Quit(thread: nat)
    | Cancel

  const INIT: State := State([], {}, {}, map[], false)

  function Pc(s: State, t: nat): Thread {
    if t in s.threads then s.threads[t] else Gone
  }

  predicate Enabled(s: State, a: Action) {
    match a
    case Request(t, _) => t !in s.threads
    case StartWorker(t) => t !in s.threads
    case Post(t) => Pc(s, t).Sending? || Pc(s, t).Reposting?
    case Take(t) => Pc(s, t).Idle? && s.queue != []
    case Begin(t) => Pc(s, t).Took?
    case End(t) => Pc(s, t).Running?
    case LookAtContext(t) => Pc(s, t).Again?
    case Rewake(t) => Pc(s, t).Rewaking?
    case Quit(t) => Pc(s, t).Idle? && s.cancelled
    case Cancel => true
  }

  function Go(s: State, t: nat, pc: Thread): State {
    s.(threads := s.threads[t := pc])
  }

  function Do(s: State, a: Action): State
    requires Enabled(s, a)
  {
    match a
    case Request(t, x) =>
      if x in s.inflight then Go(s, t, Gone).(pending := s.pending + {x}) else Go(s, t, Sending(x))
    case Post(t) =>
      var s' := if |s.queue| < QUEUE_SIZE then s.(queue := s.queue + [Pc(s, t).account]) else s;
      Go(s', t, if Pc(s, t).Sending? then Gone else Idle)
    case StartWorker(t) => Go(s, t, Idle)
    case Take(t) => Go(s, t, Took(s.queue[0])).(queue := s.queue[1..])
    case Begin(t) =>
      var x := Pc(s, t).account;
      if x in s.inflight then Go(s, t, Idle).(pending := s.pending + {x})
      else Go(s, t, Running(x)).(inflight := s.inflight + {x})
    case End(t) =>
      var x := Pc(s, t).account;
      Go(s, t, if x in s.pending then Again(x) else Idle)
        .(inflight := s.inflight - {x}, pending := s.pending - {x})
    case LookAtContext(t) => Go(s, t, if s.cancelled then Idle else Rewaking(Pc(s, t).account))
    case Rewake(t) =>
      var x := Pc(s, t).account;
      if x in s.inflight then Go(s, t, Idle).(pending := s.pending + {x}) else Go(s, t, Reposting(x))
    case Quit(t) => Go(s, t, Gone)
    case Cancel => s.(cancelled := true)
  }

  ghost predicate Run(states: seq<State>, actions: seq<Action>) {
    && |states| == |actions| + 1
    && states[0] == INIT
    && forall i | 0 <= i < |actions| :: Enabled(states[i], actions[i]) && states[i + 1] == Do(states[i], actions[i])
  }

  // ---- what a step does ----

  /** The queue is first in, first out, and takes no more than 256: a post joins its end while there
      is room and is dropped otherwise; a worker takes its head. */
  lemma QueueAfter(s: State, a: Action)
    requires Enabled(s, a)
    ensures a.Post? ==> Pc(s, a.thread).Sending? || Pc(s, a.thread).Reposting?
    ensures a.Post? ==>
      Do(s, a).queue == s.queue + if |s.queue| < 256 then [Pc(s, a.thread).account] else []
    ensures a.Take? ==> s.queue != [] && [s.queue[0]] + Do(s, a).queue == s.queue
    ensures !a.Post? && !a.Take? ==> Do(s, a).queue == s.queue
    ensures Do(s, a).cancelled <==> s.cancelled || a.Cancel?
  {
  }

  /** An account is in flight from the turn of the worker that took it, finding it not so, to the end of
      that run; it is pending from the first request that finds it in flight to that end. */
  lemma SetsAfter(s: State, a: Action, x: nat)
    requires Enabled(s, a)
    ensures x in Do(s, a).inflight <==>
      (x in s.inflight && !(a.End? && Pc(s, a.thread) == Running(x))) || (a.Begin? && Pc(s, a.thread) == Took(x))
    ensures x in Do(s, a).pending <==>
      || (x in s.pending && !(a.End? && Pc(s, a.thread) == Running(x)))
      || (&& x in s.inflight
          && ((a.Request? && a.account == x) || (a.Begin? && Pc(s, a.thread) == Took(x))
              || (a.Rewake? && Pc(s, a.thread) == Rewaking(x))))
  {
  }

  /** Where a step takes the goroutine that makes it. */
  lemma ThreadsAfter(s: State, a: Action)
    requires Enabled(s, a) && !a.Cancel?
    ensures Pc(Do(s, a), a.thread) == (match a
      case Request(_, x) => if x in s.inflight then Gone else Sending(x)
      case Post(t) => if Pc(s, t).Sending? then Gone else Idle
      case StartWorker(_) => Idle
      case Take(_) => Took(s.queue[0])
      case Begin(t) => if Pc(s, t).account in s.inflight then Idle else Running(Pc(s, t).account)
      case End(t) => if Pc(s, t).account in s.pending then Again(Pc(s, t).account) else Idle
      case LookAtContext(t) => if s.cancelled then Idle else Rewaking(Pc(s, t).account)
      case Rewake(t) => if Pc(s, t).account in s.inflight then Idle else Reposting(Pc(s, t).account)
      case Quit(_) => Gone)
    ensures forall t | t != a.thread :: Pc(Do(s, a), t) == Pc(s, t)
  {
  }

  /** No goroutine is ever held up: a post goes through or is dropped, an idle worker waits only for the
      queue, and it may quit once the process is stopping. */
  lemma ThreadsGoOn(s: State, t: nat)
    requires t in s.threads
    ensures match s.threads[t]
      case Sending(_) => Enabled(s, Post(t))
      case Idle => (Enabled(s, Take(t)) <==> s.queue != []) && (Enabled(s, Quit(t)) <==> s.cancelled)
      case Took(_) => Enabled(s, Begin(t))
      case Running(_) => Enabled(s, End(t))
      case Again(_) => Enabled(s, LookAtContext(t))
      case Rewaking(_) => Enabled(s, Rewake(t))
      case Reposting(_) => Enabled(s, Post(t))
      case Gone => true
  {
  }

  // ---- what every step keeps ----

  predicate RunsAt(s: State, t: nat, x: nat) {
    Pc(s, t) == Running(x)
  }

  ghost predicate OneRun(s: State, x: nat) {
    && (x in s.inflight <==> exists t :: RunsAt(s, t, x))
    && (forall t, u :: RunsAt(s, t, x) && RunsAt(s, u, x) ==> t == u)
  }

  ghost predicate Inv(s: State) {
    && (forall x :: OneRun(s, x))
    && s.pending <= s.inflight
    && |s.queue| <= QUEUE_SIZE
  }

  predicate StartsRun(s: State, a: Action, x: nat) {
    a.Begin? && Pc(s, a.thread) == Took(x) && x !in s.inflight
  }

  predicate EndsRun(s: State, a: Action, x: nat) {
    a.End? && Pc(s, a.thread) == Running(x)
  }

  lemma RunsFrame(s: State, a: Action, t: nat, x: nat)
    requires Enabled(s, a)
    ensures RunsAt(Do(s, a), t, x) <==>
      (RunsAt(s, t, x) && !(EndsRun(s, a, x) && a.thread == t)) || (StartsRun(s, a, x) && a.thread == t)
    ensures x in Do(s, a).inflight <==> (x in s.inflight && !EndsRun(s, a, x)) || StartsRun(s, a, x)
  {
  }

  lemma OneRunKept(s: State, a: Action, x: nat)
    requires OneRun(s, x) && Enabled(s, a)
    ensures OneRun(Do(s, a), x)
  {
    var s' := Do(s, a);
    forall t
      ensures RunsAt(s', t, x) <==>
        (RunsAt(s, t, x) && !(EndsRun(s, a, x) && a.thread == t)) || (StartsRun(s, a, x) && a.thread == t)
    {
      RunsFrame(s, a, t, x);
    }
    RunsFrame(s, a, 0, x);
    if StartsRun(s, a, x) {
      assert RunsAt(s', a.thread, x);
    } else if EndsRun(s, a, x) {
      assert RunsAt(s, a.thread, x);
      assert forall t :: !RunsAt(s', t, x);
    } else {
      assert forall t :: RunsAt(s', t, x) <==> RunsAt(s, t, x);
    }
  }

  lemma SetsKept(s: State, a: Action)
    requires Enabled(s, a) && s.pending <= s.inflight && |s.queue| <= QUEUE_SIZE
    ensures Do(s, a).pending <= Do(s, a).inflight && |Do(s, a).queue| <= QUEUE_SIZE
  {
  }

  lemma {:induction false} InvHolds(states: seq<State>, actions: seq<Action>, n: nat)
    requires Run(states, actions) && n < |states|
    ensures Inv(states[n])
  {
    if n == 0 {
      forall x
        ensures OneRun(INIT, x)
      {
        assert forall t :: !RunsAt(INIT, t, x);
      }
    } else {
      InvHolds(states, actions, n - 1);
      forall x
        ensures OneRun(states[n], x)
      {
        OneRunKept(states[n - 1], actions[n - 1], x);
      }
      SetsKept(states[n - 1], actions[n - 1]);
    }
  }

  /** No account is ever synced by two workers at once, a follow-up is only ever owed to a run
      in progress, and the queue stays within its bound. */
  lemma OneRunPerAccount(states: seq<State>, actions: seq<Action>, n: nat, x: nat)
    requires Run(states, actions) && n < |states|
    ensures forall t, u :: RunsAt(states[n], t, x) && RunsAt(states[n], u, x) ==> t == u
    ensures x in states[n].pending ==> exists t :: RunsAt(states[n], t, x)
    ensures |states[n].queue| <= QUEUE_SIZE
  {
    InvHolds(states, actions, n);
    assert OneRun(states[n], x);
  }

  // ---- no lost wakeup ----

  /** Goroutine t is on its way to ask for, or to start, a run of x. */
  predicate Carries(s: State, t: nat, x: nat) {
    var pc := Pc(s, t);
    (pc.Sending? || pc.Took? || pc.Again? || pc.Rewaking? || pc.Reposting?) && pc.account == x
  }

  /** A run of x is still to come. */
  ghost predicate Owed(s: State, x: nat) {
    x in s.queue || x in s.pending || exists t :: Carries(s, t, x)
  }

  predicate Drops(s: State, a: Action, x: nat) {
    a.Post? && Carries(s, a.thread, x) && |s.queue| >= QUEUE_SIZE
  }

  /** The follow-up of x is given up because the process is stopping. */
  predicate Abandons(s: State, a: Action, x: nat) {
    a.LookAtContext? && Carries(s, a.thread, x) && s.cancelled
  }

  predicate Discharges(s: State, a: Action, x: nat) {
    StartsRun(s, a, x) || Drops(s, a, x) || Abandons(s, a, x)
  }

  lemma CarrierStep(s: State, a: Action, t: nat, x: nat)
    requires Enabled(s, a) && Carries(s, t, x) && !Discharges(s, a, x)
    ensures Carries(Do(s, a), t, x) || x in Do(s, a).queue || x in Do(s, a).pending
  {
    if a.Post? && a.thread == t { assert Do(s, a).queue[|s.queue|] == x; }
  }

  lemma PendingStep(s: State, a: Action, x: nat)
    requires Enabled(s, a) && x in s.pending && !Discharges(s, a, x)
    ensures x in Do(s, a).pending || (EndsRun(s, a, x) && Carries(Do(s, a), a.thread, x))
  {
  }

  lemma QueueStep(s: State, a: Action, x: nat)
    requires Enabled(s, a) && x in s.queue
    ensures x in Do(s, a).queue || (a.Take? && Carries(Do(s, a), a.thread, x))
  {
    var i :| 0 <= i < |s.queue| && s.queue[i] == x;
    if a.Take? && i > 0 { assert Do(s, a).queue[i - 1] == x; }
    if a.Post? { assert Do(s, a).queue[i] == x; }
  }

  lemma OwedStep(s: State, a: Action, x: nat)
    requires Enabled(s, a) && Owed(s, x) && !Discharges(s, a, x)
    ensures Owed(Do(s, a), x)
  {
    if x in s.queue {
      QueueStep(s, a, x);
    } else if x in s.pending {
      PendingStep(s, a, x);
    } else {
      var t :| Carries(s, t, x);
      CarrierStep(s, a, t, x);
    }
  }

  predicate Requests(a: Action, x: nat) {
    a.Request? && a.account == x
  }

  lemma RequestIsOwed(s: State, a: Action, x: nat)
    requires Enabled(s, a) && Requests(a, x)
    ensures Owed(Do(s, a), x)
  {
    assert x in Do(s, a).pending || Carries(Do(s, a), a.thread, x);
  }

  /** The last request for x still on its way meets a full queue or a shutdown: with it goes
      every wake it stood for. A drop while anything else of x is on its way is no loss. */
  ghost predicate Loses(s: State, a: Action, x: nat)
    requires Enabled(s, a)
  {
    (Drops(s, a, x) || Abandons(s, a, x)) && !Owed(Do(s, a), x)
  }

  ghost predicate SettledBetween(states: seq<State>, actions: seq<Action>, i: nat, n: nat, x: nat)
    requires Run(states, actions) && n <= |actions|
  {
    exists k | i < k < n :: StartsRun(states[k], actions[k], x) || Loses(states[k], actions[k], x)
  }

  /** After a wake, a run of the account is still to come for as long as none has started and
      the last request on its way was not dropped or given up. */
  lemma {:induction false} WakeIsCarried(states: seq<State>, actions: seq<Action>, i: nat, n: nat, x: nat)
    requires Run(states, actions) && i < n <= |actions| && Requests(actions[i], x)
    ensures Owed(states[n], x) || SettledBetween(states, actions, i, n, x)
  {
    if n == i + 1 {
      RequestIsOwed(states[i], actions[i], x);
    } else {
      WakeIsCarried(states, actions, i, n - 1, x);
      var s, a := states[n - 1], actions[n - 1];
      assert Enabled(s, a);
      if Owed(s, x) {
        if Discharges(s, a, x) {
          assert Owed(states[n], x) || StartsRun(s, a, x) || Loses(s, a, x);
        } else {
          OwedStep(s, a, x);
        }
      }
    }
  }

  predicate Quiet(s: State) {
    s.queue == [] && forall t | t in s.threads :: s.threads[t].Idle? || s.threads[t].Gone?
  }

  /** By the time the queue is empty and every goroutine rests, each wake was followed by a run
      that started after it, unless the last request on its way for the account, its own or its
      follow-up's included, met a full queue or a shutdown. */
  lemma NoLostWakeup(states: seq<State>, actions: seq<Action>, i: nat, n: nat, x: nat)
    requires Run(states, actions) && i < n <= |actions| && Requests(actions[i], x) && Quiet(states[n])
    ensures exists k | i < k < n :: StartsRun(states[k], actions[k], x) || Loses(states[k], actions[k], x)
  {
    WakeIsCarried(states, actions, i, n, x);
    InvHolds(states, actions, n);
    assert OneRun(states[n], x);
    assert forall t :: !RunsAt(states[n], t, x) && !Carries(states[n], t, x);
  }

  // ---- one follow-up per run ----

  /** A wake, or a second worker's turn, that finds the account in flight. */
  predicate Folds(s: State, a: Action, x: nat) {
    && x in s.inflight
    && (Requests(a, x) || ((a.Begin? || a.Rewake?) && Carries(s, a.thread, x)))
  }

  lemma FoldedStep(s: State, a: Action, x: nat)
    requires Enabled(s, a) && x in s.inflight && !EndsRun(s, a, x)
    ensures x in Do(s, a).inflight
    ensures x in Do(s, a).pending <==> x in s.pending || Folds(s, a, x)
    ensures Folds(s, a, x) ==> forall t :: Carries(Do(s, a), t, x) ==> Carries(s, t, x)
  {
  }

  /** During one run of x, folded requests leave exactly the one pending mark, and none of them
      posts; the run's end then asks again exactly when there was one. */
  lemma {:induction false} FoldedIntoOne(states: seq<State>, actions: seq<Action>, i: nat, n: nat, x: nat)
    requires Run(states, actions) && i < n <= |actions| && StartsRun(states[i], actions[i], x)
    requires forall k | i < k < n :: !EndsRun(states[k], actions[k], x)
    ensures x in states[n].inflight
    ensures x in states[n].pending <==> exists k | i < k < n :: Folds(states[k], actions[k], x)
  {
    if n == i + 1 {
      InvHolds(states, actions, i);
    } else {
      FoldedIntoOne(states, actions, i, n - 1, x);
      FoldedStep(states[n - 1], actions[n - 1], x);
    }
  }

  lemma OneFollowUp(states: seq<State>, actions: seq<Action>, i: nat, n: nat, x: nat)
    requires Run(states, actions) && i < n < |actions| && StartsRun(states[i], actions[i], x)
    requires forall k | i < k < n :: !EndsRun(states[k], actions[k], x)
    requires EndsRun(states[n], actions[n], x)
    ensures Pc(states[n + 1], actions[n].thread) ==
      if exists k | i < k < n :: Folds(states[k], actions[k], x) then Again(x) else Idle
    ensures x !in states[n + 1].pending && x !in states[n + 1].inflight && actions[n].thread == actions[i].thread
  {
    FoldedIntoOne(states, actions, i, n, x);
    SameWorker(states, actions, i, n, x);
    InvHolds(states, actions, n);
    assert OneRun(states[n], x) && RunsAt(states[n], actions[n].thread, x);
  }

  lemma {:induction false} SameWorker(states: seq<State>, actions: seq<Action>, i: nat, n: nat, x: nat)
    requires Run(states, actions) && i < n <= |actions| && StartsRun(states[i], actions[i], x)
    requires forall k | i < k < n :: !EndsRun(states[k], actions[k], x)
    ensures RunsAt(states[n], actions[i].thread, x)
  {
    if n > i + 1 {
      SameWorker(states, actions, i, n - 1, x);
      RunsFrame(states[n - 1], actions[n - 1], actions[i].thread, x);
    }
  }

  // ---- the syncer's methods ----

  class Syncer {
    var queue: seq<nat>
    var inflight: set<nat>
    var pending: set<nat>

    constructor ()
      ensures queue == [] && inflight == {} && pending == {}
    {
      queue, inflight, pending := [], {}, {};
    }

    method Wake(account: nat)
      modifies `queue, `pending
      ensures account in inflight ==> queue == old(queue) && pending == old(pending) + {account}
      ensures account !in inflight ==> pending == old(pending)
      ensures account !in inflight ==>
        queue == old(queue) + if |old(queue)| < 256 then [account] else []
    {
      if account in inflight {
        pending := pending + {account};
        return;
      }
      if |queue| < QUEUE_SIZE { queue := queue + [account]; }
    }

    /** A run of the account, during which the given wakes arrive. */
    method RunOnce(account: nat, arrivals: seq<nat>, stopping: bool)
      requires pending <= inflight && |queue| <= QUEUE_SIZE
      modifies this
      ensures account in old(inflight) ==>
        queue == old(queue) && inflight == old(inflight) && pending == old(pending) + {account}
      ensures account !in old(inflight) ==> inflight == old(inflight) && account !in pending
      ensures account !in old(inflight) && account !in old(queue) ==>
        Occurrences(queue, account) <= (if account in arrivals && !stopping then 1 else 0)
      ensures account !in old(inflight) && account !in old(queue) && |queue| < QUEUE_SIZE ==>
        Occurrences(queue, account) == (if account in arrivals && !stopping then 1 else 0)
      ensures pending <= inflight && |queue| <= QUEUE_SIZE
      // The wakes of the other accounts go their own way meanwhile.
      ensures account !in old(inflight) ==> old(queue) <= queue
      ensures account !in old(inflight) ==> forall x | x != account ::
        && (x in pending <==> x in old(pending) || (x in old(inflight) && x in arrivals))
        && (x in queue ==> x in old(queue) || (x in arrivals && x !in old(inflight)))
        && (|queue| < 256 && x in arrivals && x !in old(inflight) ==> x in queue)
    {
      if account in inflight {
        pending := pending + {account};
        return;
      }
      inflight := inflight + {account};
      NoOccurrence(queue, account);
      for i := 0 to |arrivals|
        invariant inflight == old(inflight) + {account}
        invariant pending <= inflight && |queue| <= QUEUE_SIZE
        invariant account in pending <==> account in arrivals[..i]
        invariant account !in old(queue) ==> account !in queue
        invariant old(queue) <= queue
        invariant forall x | x != account ::
          && (x in pending <==> x in old(pending) || (x in old(inflight) && x in arrivals[..i]))
          && (x in queue ==> x in old(queue) || (x in arrivals[..i] && x !in old(inflight)))
          && (|queue| < 256 && x in arrivals[..i] && x !in old(inflight) ==> x in queue)
      {
        Wake(arrivals[i]);
      }
      inflight := inflight - {account};
      assert inflight == old(inflight) && arrivals[..|arrivals|] == arrivals;
      var again := account in pending;
      pending := pending - {account};
      ghost var before := queue;
      if account !in old(queue) { NoOccurrence(queue, account); }
      if again && !stopping { Wake(account); }
      assert queue == before || queue == before + [account];
    }
  }

  function Occurrences(queue: seq<nat>, x: nat): nat {
    if queue == [] then 0
    else Occurrences(queue[..|queue| - 1], x) + if queue[|queue| - 1] == x then 1 else 0
  }

  lemma {:induction false} NoOccurrence(queue: seq<nat>, x: nat)
    ensures x !in queue ==> Occurrences(queue, x) == 0
  {
    if queue != [] { NoOccurrence(queue[..|queue| - 1], x); }
  }
}
