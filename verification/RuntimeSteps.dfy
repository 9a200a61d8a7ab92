/** What each step of the chat supervisor does to an entry, to an actor and to a caller, and what
    an attach that is turned away says of the ones before it. */
module RuntimeSteps {
  import opened Options
  import opened Runtime

  /** The actor is to stop, or the process is. */
  lemma TerminatingIs(s: State, id: nat)
    ensures Terminating(s, id) <==> s.cancelled || id !in s.actors || s.actors[id].flagged || s.actors[id].cancelled
    ensures forall account :: account in Live(s) <==>
      account in s.entries && !Terminating(s, s.entries[account])
  {
  }

  // -------------------------------------------------------------------- entries

  /** An account's entry goes by a detach, by its own actor's exit, and when an attach finds that
      actor terminating; and by nothing else. */
  lemma EntriesGo(max: nat, s: State, a: Action, account: nat)
    requires Enabled(s, a) && account in s.entries && MapOk(s)
    ensures account !in Do(max, s, a).entries <==>
      || a == Detach(account)
      || a == Remove(s.entries[account])
      || (a.ReadEntry? && s.callers[a.caller].account == account && Terminating(s, s.entries[account]))
    ensures account in Do(max, s, a).entries && !(a.Install? && s.callers[a.caller].account == account) ==>
      Do(max, s, a).entries[account] == s.entries[account]
  {
    assert EntryOk(s, account);
  }

  /** It comes when an actor is installed for the account. */
  lemma EntriesCome(max: nat, s: State, a: Action, account: nat)
    requires Enabled(s, a) && account !in s.entries
    ensures account in Do(max, s, a).entries <==> a.Install? && s.callers[a.caller].account == account
    ensures account in Do(max, s, a).entries ==> Do(max, s, a).entries[account] == a.actor
  {
  }

  // --------------------------------------------------------------------- actors

  /** A detached actor is to be stopped until it is. */
  lemma DetachedStop(max: nat, s: State, a: Action, id: nat)
    requires Enabled(s, a)
    ensures id in Do(max, s, a).stopping <==>
      (id in s.stopping && a != StopDetached(id)) || (a.Detach? && a.account in s.entries && s.entries[a.account] == id)
    ensures Do(max, s, a).cancelled <==> s.cancelled || a.Cancel?
    ensures Do(max, s, a).waited <==> s.waited || a.WaitReturns?
  {
  }

  /** How an actor changes: it is flagged by its own connection's end, cancelled by the detach that
      stops it or by its own exit, and goes from serving to done one stage at a time. */
  lemma ActorsGoOn(max: nat, s: State, a: Action, id: nat)
    requires Enabled(s, a) && id in s.actors
    ensures id in Do(max, s, a).actors
    ensures var p, p' := s.actors[id], Do(max, s, a).actors[id];
      && p'.account == p.account
      && (p'.flagged <==> p.flagged || a == Terminate(id))
      && (p'.cancelled <==> p.cancelled || a == StopDetached(id) || a == RunEnds(id))
      && p'.stage == (if a == RunEnds(id) then Ended else if a == Remove(id) then Removed
                      else if a == WgDone(id) then Finished else p.stage)
  {
    if a.Install? {
      Installs(max, s, a);
    } else if !a.StopDetached? && !a.Terminate? && !a.RunEnds? && !a.Remove? && !a.WgDone? {
      ActorsUntouched(max, s, a);
    } else {
      ActorMove(max, s, a);
    }
  }

  lemma ActorsStart(max: nat, s: State, a: Action, id: nat)
    requires Enabled(s, a) && id !in s.actors
    ensures id in Do(max, s, a).actors <==> a.Install? && a.actor == id
    ensures id in Do(max, s, a).actors ==>
      Do(max, s, a).actors[id] == Actor(s.callers[a.caller].account, false, false, Serving)
  {
  }

  /** Nothing but the mutex keeps an actor that is to stop from becoming done. */
  lemma ActorsCanGoOn(s: State, id: nat)
    requires id in s.actors
    ensures Enabled(s, RunEnds(id)) <==>
      s.actors[id].stage.Serving? && (s.cancelled || s.actors[id].flagged || s.actors[id].cancelled)
    ensures Enabled(s, Remove(id)) <==> s.actors[id].stage.Ended? && s.holder == None
    ensures Enabled(s, WgDone(id)) <==> s.actors[id].stage.Removed?
    ensures Enabled(s, Terminate(id)) <==> s.actors[id].stage.Serving?
    ensures Enabled(s, WaitReturns) <==> s.wg == 0
  {
  }

  // -------------------------------------------------------------------- callers

  /** Where a caller's own step takes it: the look at the context, the session resolved, the mutex,
      the entry read, the second look, the count, the install. */
  lemma CallersGoOn(max: nat, s: State, a: Action)
    requires Enabled(s, a) && CallerMove(a)
    ensures a.caller in Do(max, s, a).callers
    ensures Do(max, s, a).callers[a.caller].account == s.callers[a.caller].account
    ensures var pc, account := Do(max, s, a).callers[a.caller].pc, s.callers[a.caller].account;
      && (a.FirstCheck? ==> pc == if s.cancelled then Returned(ContextDone) else Checked)
      && (a.Resolve? ==> pc == if a.ok then Resolved else Returned(Unresolvable))
      && (a.Lock? ==> pc == Locked)
      && (a.ReadEntry? ==> pc == if account in s.entries && !Terminating(s, s.entries[account])
                                 then Returned(Attached(s.entries[account])) else Evicted)
      && (a.SecondCheck? ==> pc == if s.cancelled then Returned(ContextDone) else Counting(s.entries.Keys, 0))
      && (a.Install? ==> pc == Returned(Attached(a.actor)))
  {
  }

  /** The mutex is taken by the caller that locks it and given back when that one returns. */
  lemma MutexIs(max: nat, s: State, a: Action)
    requires Enabled(s, a)
    ensures Do(max, s, a).holder ==
      if a.Lock? then Some(a.caller)
      else if CallerMove(a) && !a.FirstCheck? && !a.Resolve? && Do(max, s, a).callers[a.caller].pc.Returned? then None
      else s.holder
  {
  }

  lemma CallersStart(max: nat, s: State, a: Action, i: nat)
    requires Enabled(s, a) && i !in s.callers
    ensures i in Do(max, s, a).callers <==> a.Attach? && a.caller == i
    ensures i in Do(max, s, a).callers ==> Do(max, s, a).callers[i] == Caller(a.account, Entered)
  {
  }

  /** Every caller has a step, or waits for the mutex, or has returned. */
  lemma CallersCanGoOn(s: State, i: nat)
    requires i in s.callers
    ensures match s.callers[i].pc
      case Entered => s.holder == None ==> Enabled(s, FirstCheck(i))
      case Checked => Enabled(s, Resolve(i, true)) && Enabled(s, Resolve(i, false))
      case Resolved => s.holder == None ==> Enabled(s, Lock(i))
      case Locked => Enabled(s, ReadEntry(i))
      case Evicted => Enabled(s, SecondCheck(i))
      case Counting(todo, _) =>
        if todo == {} then Enabled(s, Decide(i)) else exists x | x in todo :: Enabled(s, CountOne(i, x))
      case Admitted => forall id | id !in s.actors :: Enabled(s, Install(i, id))
      case Returned(_) => true
  {
    if s.callers[i].pc.Counting? && s.callers[i].pc.todo != {} {
      var x :| x in s.callers[i].pc.todo;
      assert Enabled(s, CountOne(i, x));
    }
  }

  // --------------------------------------------------- who is turned away, and why

  /** What a counting caller has counted, and the live accounts it still has to count. */
  function Counted(s: State, i: nat): nat
    requires i in s.callers && s.callers[i].pc.Counting?
  {
    s.callers[i].pc.live + |Live(s) * s.callers[i].pc.todo|
  }

  lemma CountedStart(max: nat, s: State, a: Action)
    requires Enabled(s, a) && a.SecondCheck? && !s.cancelled
    ensures var s' := Do(max, s, a);
      s'.callers[a.caller].pc.Counting? && Counted(s', a.caller) == |Live(s')|
  {
    var s' := Do(max, s, a);
    assert Live(s') * s'.entries.Keys == Live(s');
  }

  lemma CountedOwn(max: nat, s: State, a: Action)
    requires Enabled(s, a) && a.CountOne?
    ensures var s' := Do(max, s, a);
      s'.callers[a.caller].pc.Counting? && Counted(s', a.caller) == Counted(s, a.caller)
  {
    var s' := Do(max, s, a);
    SectionFrame(max, s, a);
    var was, now := Live(s) * s.callers[a.caller].pc.todo, Live(s') * s'.callers[a.caller].pc.todo;
    if a.account in Live(s) {
      assert was == now + {a.account};
    } else {
      assert was == now;
    }
  }

  lemma CountedOther(max: nat, s: State, a: Action, i: nat)
    requires Inv(max, s) && Enabled(s, a) && i in s.callers && s.callers[i].pc.Counting?
    requires CallerMove(a) ==> a.caller != i
    ensures var s' := Do(max, s, a);
      i in s'.callers && s'.callers[i].pc.Counting? && Counted(s', i) <= Counted(s, i)
  {
    var s' := Do(max, s, a);
    assert CallerOk(max, s, i) && (CallerMove(a) ==> CallerOk(max, s, a.caller));
    OthersFrame(max, s, a, i);
    CallersFrame(max, s, a);
    LiveShrinks(max, s, a);
    CardLe(Live(s') * s'.callers[i].pc.todo, Live(s) * s.callers[i].pc.todo);
  }

  predicate IsCounting(s: State, i: nat) {
    i in s.callers && s.callers[i].pc.Counting?
  }

  /** A caller that counts has the mutex; what it counts it counted before, or begins with. */
  ghost predicate CountsOn(s: State, s': State, i: nat) {
    IsCounting(s', i) ==>
      && s'.holder == Some(i)
      && (if IsCounting(s, i) then Counted(s', i) <= Counted(s, i) else Counted(s', i) <= |Live(s')|)
  }

  lemma CountsOnward(max: nat, states: seq<State>, actions: seq<Action>, n: nat, i: nat)
    requires Run(max, states, actions) && n < |actions|
    ensures CountsOn(states[n], states[n + 1], i)
  {
    InvHolds(max, states, actions, n);
    InvHolds(max, states, actions, n + 1);
    var s, a := states[n], actions[n];
    if IsCounting(states[n + 1], i) {
      assert CallerOk(max, states[n + 1], i);
      CountsStep(max, s, a, i);
    }
  }

  lemma CountsStep(max: nat, s: State, a: Action, i: nat)
    requires Inv(max, s) && Enabled(s, a) && IsCounting(Do(max, s, a), i)
    ensures if IsCounting(s, i) then Counted(Do(max, s, a), i) <= Counted(s, i)
            else Counted(Do(max, s, a), i) <= |Live(Do(max, s, a))|
  {
    if !IsCounting(s, i) {
      CameToCount(max, s, a, i);
      CountedStart(max, s, a);
    } else if CallerMove(a) && a.caller == i {
      CountedOwn(max, s, a);
    } else {
      CountedOther(max, s, a, i);
    }
  }

  /** Some state up to n in which caller i had the mutex had at least count live accounts. */
  predicate WasLive(states: seq<State>, n: nat, i: nat, count: nat)
    requires n < |states|
  {
    exists m | 0 <= m <= n :: states[m].holder == Some(i) && |Live(states[m])| >= count
  }

  lemma {:induction false} CountingSawThem(states: seq<State>, n: nat, i: nat)
    requires n < |states| && IsCounting(states[n], i) && !IsCounting(states[0], i)
    requires forall p | 0 <= p < n :: CountsOn(states[p], states[p + 1], i)
    ensures WasLive(states, n, i, Counted(states[n], i))
  {
    assert CountsOn(states[n - 1], states[(n - 1) + 1], i);
    if IsCounting(states[n - 1], i) { CountingSawThem(states, n - 1, i); }
  }

  lemma CameToCount(max: nat, s: State, a: Action, i: nat)
    requires Enabled(s, a) && !(i in s.callers && s.callers[i].pc.Counting?)
    requires i in Do(max, s, a).callers && Do(max, s, a).callers[i].pc.Counting?
    ensures a == SecondCheck(i) && !s.cancelled
  {
  }

  /** An attach is turned away for want of capacity only when, at some moment of its own time with
      the mutex, the process was serving as many accounts as it may. */
  lemma TurnedAwayWhenFull(max: nat, states: seq<State>, actions: seq<Action>, n: nat, i: nat)
    requires Run(max, states, actions) && n < |actions|
    requires !At(states[n], i, Returned(AtCapacity)) && At(states[n + 1], i, Returned(AtCapacity))
    ensures exists m | 0 <= m <= n :: states[m].holder == Some(i) && |Live(states[m])| == max
  {
    assert actions[n] == Decide(i);
    forall p | 0 <= p < n
      ensures CountsOn(states[p], states[p + 1], i)
    {
      CountsOnward(max, states, actions, p, i);
    }
    CountingSawThem(states, n, i);
    var m :| 0 <= m <= n && states[m].holder == Some(i) && |Live(states[m])| >= Counted(states[n], i);
    InvHolds(max, states, actions, m);
  }

  /** And one that is let through installs its actor while there is room. */
  lemma LetInWithRoom(max: nat, states: seq<State>, actions: seq<Action>, n: nat)
    requires Run(max, states, actions) && n < |actions| && actions[n].Install?
    ensures |Live(states[n])| < max && states[n].callers[actions[n].caller].account !in states[n].entries
  {
    InvHolds(max, states, actions, n);
    assert CallerOk(max, states[n], actions[n].caller);
  }

  /** Counting ends in one of the two. */
  lemma Decides(max: nat, s: State, i: nat)
    requires Enabled(s, Decide(i))
    ensures var pc := Do(max, s, Decide(i)).callers[i].pc; pc == Admitted || pc == Returned(AtCapacity)
  {
  }
}
