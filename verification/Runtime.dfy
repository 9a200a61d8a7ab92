/** The chat supervisor: a mutex-guarded map from account to actor, a WaitGroup, and actors that
    end on their own while others attach and detach. Each step is what one goroutine does
    between two points where another can interleave: the flags an attaching caller reads one
    after another under the mutex are set by actors that do not hold it. */
module Runtime {
  import opened FreshNames
  import opened Options

  /** Where an actor's goroutine is: serving, out of run, out of the map, done. */
  datatype Stage = Serving | Ended | Removed | Finished

  /** cancelled: the actor's own context; the supervisor's context counts for every actor. */
  datatype Actor = Actor(account: nat, flagged: bool, cancelled: bool, stage: Stage)

  datatype Outcome = Attached(actor: nat) | ContextDone | Unresolvable | AtCapacity

  datatype Pc =
    | Entered
    | Checked
    | Resolved
    | Locked
    | Evicted
    | Counting(todo: set<nat>, live: nat)
    | Admitted
    | Returned(outcome: Outcome)

  datatype Caller = Caller(account: nat, pc: Pc)

  datatype State = State(
    entries: map<nat, nat>,
    actors: map<nat, Actor>,
    callers: map<nat, Caller>,
    stopping: set<nat>,
    holder: Option<nat>,
    wg: int,
    cancelled: bool,
    waited: bool)

  datatype Action =
    | Attach(caller: nat, account: nat)
    | FirstCheck(caller: nat)
    | Resolve(caller: nat, ok: bool)
    | Lock(caller: nat)
    | ReadEntry(caller: nat)
    | SecondCheck(caller: nat)
    | CountOne(caller: nat, account: nat)
    | Decide(caller: nat)
    | Install(caller: nat, actor: nat)
    | Detach(account: nat)
    | StopDetached(actor: nat)
    | Terminate(actor: nat)
    | RunEnds(actor: nat)
    | Remove(actor: nat)
    | WgDone(actor: nat)
    | Cancel
    | WaitReturns

  const INIT: State := State(map[], map[], map[], {}, None, 0, false, false)
  const DEFAULT_MAX: nat := 200

  function MaxAccounts(configured: int): nat {
    if configured <= 0 then DEFAULT_MAX else configured
  }

  /** isTerminating. */
  predicate Terminating(s: State, id: nat) {
    s.cancelled || id !in s.actors || s.actors[id].flagged || s.actors[id].cancelled
  }

  predicate At(s: State, i: nat, pc: Pc) {
    i in s.callers && s.callers[i].pc == pc
  }

  predicate ActorAt(s: State, id: nat, stage: Stage) {
    id in s.actors && s.actors[id].stage == stage
  }

  predicate Enabled(s: State, a: Action) {
    match a
    case Attach(i, _) => i !in s.callers
    case FirstCheck(i) => At(s, i, Entered) && s.holder == None
    case Resolve(i, _) => At(s, i, Checked)
    case Lock(i) => At(s, i, Resolved) && s.holder == None
    case ReadEntry(i) => At(s, i, Locked)
    case SecondCheck(i) => At(s, i, Evicted)
    case CountOne(i, account) => i in s.callers && s.callers[i].pc.Counting? && account in s.callers[i].pc.todo
    case Decide(i) => i in s.callers && s.callers[i].pc.Counting? && s.callers[i].pc.todo == {}
    case Install(i, id) => At(s, i, Admitted) && id !in s.actors
    case Detach(_) => s.holder == None
    case StopDetached(id) => id in s.stopping
    case Terminate(id) => ActorAt(s, id, Serving)
    case RunEnds(id) => ActorAt(s, id, Serving) && Terminating(s, id)
    case Remove(id) => ActorAt(s, id, Ended) && s.holder == None
    case WgDone(id) => ActorAt(s, id, Removed)
    case Cancel => true
    case WaitReturns => s.wg == 0
  }

  function Go(s: State, i: nat, pc: Pc): State
    requires i in s.callers
  {
    s.(callers := s.callers[i := s.callers[i].(pc := pc)])
  }

  /** A caller leaves the mutex with an outcome. */
  function Leave(s: State, i: nat, outcome: Outcome): State
    requires i in s.callers
  {
    Go(s, i, Returned(outcome)).(holder := None)
  }

  function SetActor(s: State, id: nat, actor: Actor): State {
    s.(actors := s.actors[id := actor])
  }

  function Do(max: nat, s: State, a: Action): State
    requires Enabled(s, a)
  {
    match a
    case Attach(i, account) => s.(callers := s.callers[i := Caller(account, Entered)])
    case FirstCheck(i) => Go(s, i, if s.cancelled then Returned(ContextDone) else Checked)
    case Resolve(i, ok) => Go(s, i, if ok then Resolved else Returned(Unresolvable))
    case Lock(i) => Go(s, i, Locked).(holder := Some(i))
    case ReadEntry(i) =>
      var account := s.callers[i].account;
      if account in s.entries && !Terminating(s, s.entries[account])
      then Leave(s, i, Attached(s.entries[account]))
      else Go(s, i, Evicted).(entries := s.entries - {account})
    case SecondCheck(i) =>
      if s.cancelled then Leave(s, i, ContextDone) else Go(s, i, Counting(s.entries.Keys, 0))
    case CountOne(i, account) =>
      var pc := s.callers[i].pc;
      var isLive := account in s.entries && !Terminating(s, s.entries[account]);
      Go(s, i, Counting(pc.todo - {account}, pc.live + if isLive then 1 else 0))
    case Decide(i) =>
      if s.callers[i].pc.live >= max then Leave(s, i, AtCapacity) else Go(s, i, Admitted)
    case Install(i, id) =>
      var account := s.callers[i].account;
      Leave(SetActor(s, id, Actor(account, false, false, Serving)), i, Attached(id))
        .(entries := s.entries[account := id], wg := s.wg + 1)
    case Detach(account) =>
      if account in s.entries
      then s.(entries := s.entries - {account}, stopping := s.stopping + {s.entries[account]})
      else s
    case StopDetached(id) =>
      var s' := s.(stopping := s.stopping - {id});
      if id in s.actors then SetActor(s', id, s.actors[id].(cancelled := true)) else s'
    case Terminate(id) => SetActor(s, id, s.actors[id].(flagged := true))
    case RunEnds(id) => SetActor(s, id, s.actors[id].(cancelled := true, stage := Ended))
    case Remove(id) =>
      var account := s.actors[id].account;
      var s' := SetActor(s, id, s.actors[id].(stage := Removed));
      if account in s.entries && s.entries[account] == id then s'.(entries := s.entries - {account}) else s'
    case WgDone(id) => SetActor(s, id, s.actors[id].(stage := Finished)).(wg := s.wg - 1)
    case Cancel => s.(cancelled := true)
    case WaitReturns => s.(waited := true)
  }

  ghost predicate Run(max: nat, states: seq<State>, actions: seq<Action>) {
    && |states| == |actions| + 1
    && states[0] == INIT
    && forall i | 0 <= i < |actions| ::
      Enabled(states[i], actions[i]) && states[i + 1] == Do(max, states[i], actions[i])
  }

  // ---- what every step keeps ----

  /** The accounts this process is actually serving. */
  function Live(s: State): set<nat> {
    set account | account in s.entries && !Terminating(s, s.entries[account])
  }

  lemma LiveIs(s: State)
    ensures Live(s) == set account | account in s.entries && !(s.cancelled || s.entries[account] !in s.actors
                         || s.actors[s.entries[account]].flagged || s.actors[s.entries[account]].cancelled)
  {
  }

  function Unfinished(s: State): set<nat> {
    set id | id in s.actors && s.actors[id].stage != Finished
  }

  predicate InSection(pc: Pc) {
    pc.Locked? || pc.Evicted? || pc.Counting? || pc.Admitted?
  }

  /** Past the second look at the context. */
  predicate PastCheck(pc: Pc) {
    pc.Counting? || pc.Admitted?
  }

  predicate CallerOk(max: nat, s: State, i: nat)
    requires i in s.callers
  {
    var c := s.callers[i];
    && (InSection(c.pc) <==> s.holder == Some(i))
    && (c.pc.Evicted? || PastCheck(c.pc) ==> c.account !in s.entries)
    && (c.pc.Counting? ==> |Live(s) - c.pc.todo| <= c.pc.live)
    && (c.pc.Admitted? ==> |Live(s)| < max)
  }

  predicate EntryOk(s: State, account: nat)
    requires account in s.entries
  {
    var id := s.entries[account];
    id in s.actors && s.actors[id].account == account && (s.actors[id].stage.Serving? || s.actors[id].stage.Ended?)
  }

  predicate MapOk(s: State) {
    forall account | account in s.entries :: EntryOk(s, account)
  }

  ghost predicate Inv(max: nat, s: State) {
    && (forall i | i in s.callers :: CallerOk(max, s, i))
    && MapOk(s)
    && (s.holder.Some? ==> s.holder.value in s.callers)
    && |Live(s)| <= max
    && s.wg == |Unfinished(s)|
  }

  lemma CardLe(a: set<nat>, b: set<nat>)
    requires a <= b
    ensures |a| <= |b|
  {
    if a != {} {
      var x :| x in a;
      CardLe(a - {x}, b - {x});
    }
  }

  lemma CardAdd(a: set<nat>, b: set<nat>, x: nat)
    requires a <= b + {x}
    ensures |a| <= |b| + 1
  {
    CardLe(a, b + {x});
  }

  lemma LiveWithin(s: State, s': State, extra: set<nat>)
    requires forall account | account in s'.entries && account !in extra ::
      account in s.entries && s'.entries[account] == s.entries[account]
    requires forall account | account in s.entries && Terminating(s, s.entries[account]) ::
      Terminating(s', s.entries[account])
    ensures Live(s') <= Live(s) + extra
  {
  }

  lemma TerminatingStays(max: nat, s: State, a: Action, id: nat)
    requires Enabled(s, a) && id in s.actors && Terminating(s, id)
    ensures Terminating(Do(max, s, a), id)
  {
  }

  lemma EntriesShrink(max: nat, s: State, a: Action, account: nat)
    requires Enabled(s, a) && account in Do(max, s, a).entries
    requires a.Install? ==> account != s.callers[a.caller].account
    ensures account in s.entries && Do(max, s, a).entries[account] == s.entries[account]
  {
  }

  /** Only an install makes an account live. */
  lemma LiveShrinks(max: nat, s: State, a: Action)
    requires MapOk(s) && Enabled(s, a)
    ensures Live(Do(max, s, a)) <= if a.Install? then Live(s) + {s.callers[a.caller].account} else Live(s)
  {
    var s' := Do(max, s, a);
    var extra := if a.Install? then {s.callers[a.caller].account} else {};
    forall account | account in s'.entries && account !in extra
      ensures account in s.entries && s'.entries[account] == s.entries[account]
    {
      EntriesShrink(max, s, a, account);
    }
    forall account | account in s.entries && Terminating(s, s.entries[account])
      ensures Terminating(s', s.entries[account])
    {
      assert EntryOk(s, account);
      TerminatingStays(max, s, a, s.entries[account]);
    }
    LiveWithin(s, s', extra);
  }

  /** A caller's move that touches neither the map nor the actors. */
  predicate Bookkeeping(s: State, a: Action) {
    || a.Attach? || a.FirstCheck? || a.Resolve? || a.Lock? || a.SecondCheck? || a.CountOne? || a.Decide?
    || a.WaitReturns? || a.Cancel?
  }

  lemma BookkeepingFrame(max: nat, s: State, a: Action)
    requires Enabled(s, a) && Bookkeeping(s, a)
    ensures var s' := Do(max, s, a);
      s'.entries == s.entries && s'.actors == s.actors && s'.wg == s.wg && s'.stopping == s.stopping
  {
  }

  lemma EntryKept(max: nat, s: State, a: Action, account: nat)
    requires MapOk(s) && Enabled(s, a) && account in Do(max, s, a).entries
    ensures EntryOk(Do(max, s, a), account)
  {
    assert account in s.entries ==> EntryOk(s, account);
    if Bookkeeping(s, a) {
      BookkeepingFrame(max, s, a);
    } else if a.Install? || a.ReadEntry? || a.Detach? {
    } else {
      ActorMove(max, s, a);
    }
  }

  lemma ActorMove(max: nat, s: State, a: Action)
    requires Enabled(s, a)
    requires a.StopDetached? || a.Terminate? || a.RunEnds? || a.Remove? || a.WgDone?
    ensures var s' := Do(max, s, a);
      && s'.callers == s.callers && s'.holder == s.holder && s'.cancelled == s.cancelled
      && s'.actors.Keys == s.actors.Keys
      && (forall id | id in s.actors && id != a.actor :: s'.actors[id] == s.actors[id])
      && (a.actor in s.actors ==>
          s'.actors[a.actor].account == s.actors[a.actor].account &&
          s'.actors[a.actor].stage == (if a.RunEnds? then Ended else if a.Remove? then Removed
            else if a.WgDone? then Finished else s.actors[a.actor].stage))
      && (forall account | account in s'.entries :: account in s.entries && s'.entries[account] == s.entries[account])
      && (a.Remove? ==> forall account | account in s.entries && s.actors[a.actor].account == account ::
            account in s'.entries <==> s.entries[account] != a.actor)
      && (forall account | account in s.entries && !(a.Remove? && s.entries[account] == a.actor) :: account in s'.entries)
  {
  }

  predicate CallerMove(a: Action) {
    || a.FirstCheck? || a.Resolve? || a.Lock? || a.ReadEntry? || a.SecondCheck? || a.CountOne? || a.Decide? || a.Install?
  }

  /** What another goroutine's step leaves of caller i. */
  lemma OthersFrame(max: nat, s: State, a: Action, i: nat)
    requires Enabled(s, a) && i in s.callers
    requires CallerMove(a) ==> a.caller != i && CallerOk(max, s, a.caller)
    ensures Do(max, s, a).callers[i] == s.callers[i]
    ensures Do(max, s, a).holder == Some(i) <==> s.holder == Some(i)
    ensures s.holder == Some(i) ==> !a.Install? && Do(max, s, a).entries.Keys <= s.entries.Keys
  {
    if CallerMove(a) { OtherMove(max, s, a, i); } else { NoMove(max, s, a); }
  }

  lemma OtherMove(max: nat, s: State, a: Action, i: nat)
    requires Enabled(s, a) && i in s.callers && CallerMove(a) && a.caller != i && CallerOk(max, s, a.caller)
    ensures Do(max, s, a).callers[i] == s.callers[i]
    ensures Do(max, s, a).holder == Some(i) <==> s.holder == Some(i)
    ensures s.holder == Some(i) ==> !a.Install? && Do(max, s, a).entries == s.entries
  {
    if a.FirstCheck? || a.Resolve? || a.Lock? { OutsideMove(max, s, a, i); } else { InsideMove(max, s, a, i); }
  }

  /** Steps taken without the mutex, or to take it. */
  lemma OutsideMove(max: nat, s: State, a: Action, i: nat)
    requires Enabled(s, a) && i in s.callers && (a.FirstCheck? || a.Resolve? || a.Lock?) && a.caller != i
    requires CallerOk(max, s, a.caller)
    ensures Do(max, s, a).callers[i] == s.callers[i] && Do(max, s, a).entries == s.entries
    ensures Do(max, s, a).holder == Some(i) <==> s.holder == Some(i)
  {
  }

  /** Steps of the caller that holds it. */
  lemma InsideMove(max: nat, s: State, a: Action, i: nat)
    requires Enabled(s, a) && i in s.callers && CallerMove(a) && a.caller != i && CallerOk(max, s, a.caller)
    requires !a.FirstCheck? && !a.Resolve? && !a.Lock?
    ensures Do(max, s, a).callers[i] == s.callers[i]
    ensures s.holder == Some(a.caller) && Do(max, s, a).holder != Some(i)
  {
  }

  lemma NoMove(max: nat, s: State, a: Action)
    requires Enabled(s, a) && !CallerMove(a)
    ensures Do(max, s, a).holder == s.holder && Do(max, s, a).entries.Keys <= s.entries.Keys
    ensures forall i | i in s.callers :: i in Do(max, s, a).callers && Do(max, s, a).callers[i] == s.callers[i]
  {
  }

  /** Other callers stay where they are, and the map does not grow under a section's feet. */
  lemma OtherCallerKept(max: nat, s: State, a: Action, i: nat)
    requires MapOk(s) && Enabled(s, a) && i in s.callers && CallerOk(max, s, i)
    requires CallerMove(a) ==> a.caller != i && CallerOk(max, s, a.caller)
    ensures CallerOk(max, Do(max, s, a), i)
  {
    var s' := Do(max, s, a);
    OthersFrame(max, s, a, i);
    if InSection(s.callers[i].pc) {
      LiveShrinks(max, s, a);
      CardLe(Live(s'), Live(s));
      if s.callers[i].pc.Counting? { CardLe(Live(s') - s.callers[i].pc.todo, Live(s) - s.callers[i].pc.todo); }
    }
  }

  lemma OwnEdgeKept(max: nat, s: State, a: Action)
    requires Enabled(s, a) && CallerMove(a) && CallerOk(max, s, a.caller)
    requires !a.SecondCheck? && !a.CountOne? && !a.Decide?
    ensures CallerOk(max, Do(max, s, a), a.caller)
  {
  }

  lemma OwnCountKept(max: nat, s: State, a: Action)
    requires Enabled(s, a) && (a.SecondCheck? || a.CountOne? || a.Decide?) && CallerOk(max, s, a.caller)
    ensures CallerOk(max, Do(max, s, a), a.caller)
  {
    if a.CountOne? {
      CountOneKept(max, s, a);
      CountOneStays(max, s, a);
    } else if a.Decide? {
      DecideKept(max, s, a);
    } else {
      SecondCheckKept(max, s, a);
    }
  }

  lemma DecideKept(max: nat, s: State, a: Action)
    requires Enabled(s, a) && a.Decide? && CallerOk(max, s, a.caller)
    ensures CallerOk(max, Do(max, s, a), a.caller)
  {
    SectionFrame(max, s, a);
    assert Live(s) - {} == Live(s);
  }

  lemma SecondCheckKept(max: nat, s: State, a: Action)
    requires Enabled(s, a) && a.SecondCheck? && CallerOk(max, s, a.caller)
    ensures CallerOk(max, Do(max, s, a), a.caller)
  {
    SectionFrame(max, s, a);
    assert Live(s) - s.entries.Keys == {};
  }

  lemma CountOneStays(max: nat, s: State, a: Action)
    requires Enabled(s, a) && a.CountOne? && CallerOk(max, s, a.caller)
    ensures var s' := Do(max, s, a);
      s'.callers[a.caller].account == s.callers[a.caller].account && s'.entries == s.entries && s'.holder == s.holder
  {
  }

  /** Nothing the counting reads is changed by counting. */
  lemma SectionFrame(max: nat, s: State, a: Action)
    requires Enabled(s, a) && (a.SecondCheck? || a.CountOne? || a.Decide?)
    ensures Live(Do(max, s, a)) == Live(s)
  {
  }

  lemma CountOneKept(max: nat, s: State, a: Action)
    requires Enabled(s, a) && a.CountOne? && CallerOk(max, s, a.caller)
    ensures Do(max, s, a).callers[a.caller].pc.Counting?
    ensures |Live(Do(max, s, a)) - Do(max, s, a).callers[a.caller].pc.todo| <= Do(max, s, a).callers[a.caller].pc.live
  {
    var s' := Do(max, s, a);
    var was, now := Live(s) - s.callers[a.caller].pc.todo, Live(s') - s'.callers[a.caller].pc.todo;
    assert Live(s') == Live(s);
    if a.account in Live(s) { CardAdd(now, was, a.account); } else { CardLe(now, was); }
  }

  lemma LiveBounded(max: nat, s: State, a: Action)
    requires Inv(max, s) && Enabled(s, a)
    ensures |Live(Do(max, s, a))| <= max
  {
    LiveShrinks(max, s, a);
    if a.Install? {
      assert CallerOk(max, s, a.caller);
      CardAdd(Live(Do(max, s, a)), Live(s), s.callers[a.caller].account);
    } else {
      CardLe(Live(Do(max, s, a)), Live(s));
    }
  }

  lemma Installs(max: nat, s: State, a: Action)
    requires Enabled(s, a) && a.Install?
    ensures Do(max, s, a).actors == s.actors[a.actor := Actor(s.callers[a.caller].account, false, false, Serving)]
    ensures Do(max, s, a).wg == s.wg + 1 && Do(max, s, a).cancelled == s.cancelled
    ensures Do(max, s, a).entries == s.entries[s.callers[a.caller].account := a.actor]
  {
  }

  lemma UnfinishedSame(s: State, s': State)
    requires s.actors.Keys == s'.actors.Keys
    requires forall id | id in s.actors :: s.actors[id].stage.Finished? <==> s'.actors[id].stage.Finished?
    ensures Unfinished(s') == Unfinished(s)
  {
  }

  lemma UnfinishedLess(s: State, s': State, id: nat)
    requires s.actors.Keys == s'.actors.Keys && id in Unfinished(s) && s'.actors[id].stage.Finished?
    requires forall other | other in s.actors && other != id :: s'.actors[other] == s.actors[other]
    ensures |Unfinished(s')| == |Unfinished(s)| - 1
  {
    assert Unfinished(s') == Unfinished(s) - {id};
  }

  lemma UnfinishedMore(s: State, s': State, id: nat, actor: Actor)
    requires id !in s.actors && s'.actors == s.actors[id := actor] && !actor.stage.Finished?
    ensures |Unfinished(s')| == |Unfinished(s)| + 1
  {
    assert Unfinished(s') == Unfinished(s) + {id};
  }

  /** The WaitGroup moves only when an actor starts or is done. */
  lemma WgFrame(max: nat, s: State, a: Action)
    requires Enabled(s, a)
    ensures Do(max, s, a).wg == s.wg + if a.Install? then 1 else if a.WgDone? then -1 else 0
  {
  }

  lemma WgKept(max: nat, s: State, a: Action)
    requires s.wg == |Unfinished(s)| && Enabled(s, a)
    ensures Do(max, s, a).wg == |Unfinished(Do(max, s, a))|
  {
    var s' := Do(max, s, a);
    WgFrame(max, s, a);
    if a.Install? {
      Installs(max, s, a);
      UnfinishedMore(s, s', a.actor, Actor(s.callers[a.caller].account, false, false, Serving));
    } else if a.WgDone? {
      ActorMove(max, s, a);
      UnfinishedLess(s, s', a.actor);
    } else {
      StagesKept(max, s, a);
      UnfinishedSame(s, s');
    }
  }

  lemma StagesKept(max: nat, s: State, a: Action)
    requires Enabled(s, a) && !a.Install? && !a.WgDone?
    ensures Do(max, s, a).actors.Keys == s.actors.Keys
    ensures forall id | id in s.actors :: s.actors[id].stage.Finished? <==> Do(max, s, a).actors[id].stage.Finished?
  {
    if a.StopDetached? || a.Terminate? || a.RunEnds? || a.Remove? {
      ActorMove(max, s, a);
    } else {
      ActorsUntouched(max, s, a);
    }
  }

  lemma ActorsUntouched(max: nat, s: State, a: Action)
    requires Enabled(s, a) && !a.Install? && !a.StopDetached? && !a.Terminate? && !a.RunEnds? && !a.Remove? && !a.WgDone?
    ensures Do(max, s, a).actors == s.actors
  {
  }

  lemma CallersFrame(max: nat, s: State, a: Action)
    requires Enabled(s, a)
    ensures Do(max, s, a).callers.Keys == s.callers.Keys + if a.Attach? then {a.caller} else {}
    ensures a.Attach? ==> Do(max, s, a).callers[a.caller].pc == Entered && Do(max, s, a).holder == s.holder
  {
    if !CallerMove(a) && !a.Attach? { CallersUntouched(max, s, a); }
  }

  lemma CallersUntouched(max: nat, s: State, a: Action)
    requires Enabled(s, a) && !CallerMove(a) && !a.Attach?
    ensures Do(max, s, a).callers == s.callers
  {
  }

  lemma CallerKept(max: nat, s: State, a: Action, i: nat)
    requires MapOk(s) && Enabled(s, a) && i in s.callers && CallerOk(max, s, i)
    requires CallerMove(a) ==> CallerOk(max, s, a.caller)
    ensures CallerOk(max, Do(max, s, a), i)
  {
    if !CallerMove(a) || a.caller != i {
      OtherCallerKept(max, s, a, i);
    } else if a.SecondCheck? || a.CountOne? || a.Decide? {
      OwnCountKept(max, s, a);
    } else {
      OwnEdgeKept(max, s, a);
    }
  }

  lemma HolderKept(max: nat, s: State, a: Action)
    requires Inv(max, s) && Enabled(s, a)
    ensures Do(max, s, a).holder.Some? ==> Do(max, s, a).holder.value in Do(max, s, a).callers
  {
  }

  lemma StepKeeps(max: nat, s: State, a: Action)
    requires Inv(max, s) && Enabled(s, a)
    ensures Inv(max, Do(max, s, a))
  {
    var s' := Do(max, s, a);
    CallersFrame(max, s, a);
    forall i | i in s'.callers
      ensures CallerOk(max, s', i)
    {
      if i in s.callers {
        assert CallerOk(max, s, i) && (CallerMove(a) ==> CallerOk(max, s, a.caller));
        CallerKept(max, s, a, i);
      }
    }
    forall account | account in s'.entries
      ensures EntryOk(s', account)
    {
      EntryKept(max, s, a, account);
    }
    HolderKept(max, s, a);
    LiveBounded(max, s, a);
    WgKept(max, s, a);
  }

  lemma {:induction false} InvHolds(max: nat, states: seq<State>, actions: seq<Action>, n: nat)
    requires Run(max, states, actions) && n < |states|
    ensures Inv(max, states[n])
  {
    if n > 0 {
      InvHolds(max, states, actions, n - 1);
      StepKeeps(max, states[n - 1], actions[n - 1]);
    }
  }

  lemma LiveAfterStart(t: State, t': State, account: nat, id: nat)
    requires MapOk(t) && id !in t.actors && t'.cancelled == t.cancelled
    requires t'.entries == t.entries[account := id] && t'.actors == t.actors[id := Actor(account, false, false, Serving)]
    ensures |Live(t')| <= |Live(t)| + 1 && MapOk(t')
  {
    forall other | other in t'.entries
      ensures EntryOk(t', other)
      ensures other in Live(t') ==> other in Live(t) + {account}
    {
      assert other in t.entries ==> EntryOk(t, other);
    }
    CardAdd(Live(t'), Live(t), account);
  }

  // ---- the supervisor's methods, each holding the mutex ----

  class Supervisor {
    const max: nat
    var entries: map<nat, nat>
    var actors: map<nat, Actor>
    var next: nat
    var wg: int
    var cancelled: bool

    constructor (configured: int)
      ensures max == (if configured <= 0 then 200 else configured) && Table() == INIT && Valid()
    {
      max := MaxAccounts(configured);
      entries, actors, next, wg, cancelled := map[], map[], 0, 0, false;
    }

    function Table(): State
      reads this
    {
      State(entries, actors, map[], {}, None, wg, cancelled, false)
    }

    ghost predicate Valid()
      reads this
    {
      && MapOk(Table()) && |Live(Table())| <= max && wg == |Unfinished(Table())|
      && forall id | id in actors :: id < next
    }

    method IsTerminating(id: nat) returns (t: bool)
      ensures t == Terminating(Table(), id)
      ensures t <==> cancelled || id !in actors || actors[id].flagged || actors[id].cancelled
    {
      t := cancelled || id !in actors || actors[id].flagged || actors[id].cancelled;
    }

    /** How many accounts the process is serving. */
    method LiveCount() returns (n: nat)
      ensures n == |Live(Table())|
      ensures n == |set account | account in entries && !(cancelled || entries[account] !in actors
                                   || actors[entries[account]].flagged || actors[entries[account]].cancelled)|
    {
      n := 0;
      ghost var counted := {};
      var todo := entries.Keys;
      while todo != {}
        invariant todo <= entries.Keys && counted == Live(Table()) - todo && n == |counted|
        decreases |todo|
      {
        var account :| account in todo;
        var terminating := IsTerminating(entries[account]);
        if !terminating {
          n := n + 1;
          counted := counted + {account};
        }
        todo := todo - {account};
      }
      assert counted == Live(Table());
      LiveIs(Table());
    }

    method StartActor(account: nat) returns (outcome: Outcome)
      requires Valid() && !cancelled && account !in entries && |Live(Table())| < max
      modifies this
      ensures Valid()
      ensures outcome == Attached(old(next)) && outcome.actor !in old(actors)
      ensures var t := old(Table());
        Table() == t.(entries := t.entries[account := outcome.actor], wg := t.wg + 1,
                      actors := t.actors[outcome.actor := Actor(account, false, false, Serving)])
    {
      ghost var t := Table();
      outcome := Attached(next);
      actors := actors[next := Actor(account, false, false, Serving)];
      entries := entries[account := next];
      wg := wg + 1;
      next := next + 1;
      LiveAfterStart(t, Table(), account, next - 1);
      UnfinishedMore(t, Table(), next - 1, actors[next - 1]);
    }

    /** The second half of Attach: an entry still serving is left alone, one that gave up is
        evicted, and a new actor starts only below the ceiling and before shutdown. */
    method AttachSection(account: nat) returns (outcome: Outcome)
      requires Valid()
      modifies this
      ensures Valid()
      ensures var t := old(Table());
        if account in t.entries && !Terminating(t, t.entries[account]) then
          outcome == Attached(t.entries[account]) && Table() == t
        else if t.cancelled then
          outcome == ContextDone && Table() == t.(entries := t.entries - {account})
        else if |Live(t)| >= max then
          outcome == AtCapacity && Table() == t.(entries := t.entries - {account})
        else
          outcome.Attached? && outcome.actor !in t.actors && !Terminating(Table(), outcome.actor) &&
          Table() == t.(entries := t.entries[account := outcome.actor], wg := t.wg + 1,
                        actors := t.actors[outcome.actor := Actor(account, false, false, Serving)])
    {
      ghost var t := Table();
      if account in entries {
        var terminating := IsTerminating(entries[account]);
        if !terminating { return Attached(entries[account]); }
        entries := entries - {account};
      }
      assert entries == t.entries - {account};
      assert Live(Table()) == Live(t);
      if cancelled { return ContextDone; }
      var n := LiveCount();
      if n >= max { return AtCapacity; }
      outcome := StartActor(account);
      assert t.entries[account := outcome.actor] == (t.entries - {account})[account := outcome.actor];
    }

    /** The slot is free at once; the actor unwinds on its own time. */
    method Detach(account: nat)
      requires Valid()
      modifies `entries, `actors
      ensures Valid() && entries == old(entries) - {account}
      ensures account in old(entries) ==>
        var id := old(entries[account]);
        id in old(actors) && actors == old(actors)[id := old(actors[id]).(cancelled := true)]
      ensures account !in old(entries) ==> actors == old(actors)
      ensures forall id | id in old(actors) && !(account in old(entries) && old(entries[account]) == id) ::
        id in actors && actors[id] == old(actors[id])
      ensures forall id | id in old(actors) :: id in actors && actors[id].stage == old(actors[id].stage)
    {
      ghost var t := Table();
      if account in entries {
        assert EntryOk(t, account);
        var id := entries[account];
        entries := entries - {account};
        actors := actors[id := actors[id].(cancelled := true)];
        CardLe(Live(Table()), Live(t));
        UnfinishedSame(t, Table());
      } else {
        assert entries == entries - {account};
      }
    }

    /** An exiting actor clears the entry only if it is still its own. */
    method Remove(id: nat)
      requires Valid() && ActorAt(Table(), id, Ended)
      modifies `entries, `actors
      ensures Valid() && Table() == Do(max, old(Table()), Action.Remove(id))
      ensures actors == old(actors)[id := old(actors[id]).(stage := Removed)]
      ensures forall account ::
        account in entries <==>
          account in old(entries) && !(account == old(actors[id]).account && old(entries[account]) == id)
      ensures forall account | account in entries :: entries[account] == old(entries[account])
    {
      ghost var t := Table();
      var account := actors[id].account;
      if account in entries && entries[account] == id { entries := entries - {account}; }
      actors := actors[id := actors[id].(stage := Removed)];
      LiveShrinks(max, t, Action.Remove(id));
      CardLe(Live(Table()), Live(t));
      UnfinishedSame(t, Table());
    }
  }

  // ---- results over every run ----

  /** Live entries never exceed the ceiling, every entry is an actor that has not left the map,
      and the WaitGroup counts exactly the actors that are not done. */
  lemma CapacityAndCount(max: nat, states: seq<State>, actions: seq<Action>, n: nat)
    requires Run(max, states, actions) && n < |states|
    ensures |Live(states[n])| <= max
    ensures states[n].wg == |Unfinished(states[n])|
    ensures forall account | account in states[n].entries :: EntryOk(states[n], account)
  {
    InvHolds(max, states, actions, n);
  }

  /** When Wait returns, every actor ever started is done. */
  lemma WaitMeansDone(max: nat, states: seq<State>, actions: seq<Action>, n: nat)
    requires Run(max, states, actions) && n < |actions| && actions[n].WaitReturns?
    ensures forall id | id in states[n].actors :: states[n].actors[id].stage.Finished?
  {
    InvHolds(max, states, actions, n);
    assert Enabled(states[n], actions[n]) && Unfinished(states[n]) == {};
    forall id | id in states[n].actors
      ensures states[n].actors[id].stage.Finished?
    {
      assert id !in Unfinished(states[n]);
    }
  }

  predicate Holds(s: State, account: nat, id: nat) {
    account in s.entries && s.entries[account] == id
  }

  lemma LosesEntry(max: nat, s: State, a: Action, account: nat, id: nat)
    requires MapOk(s) && Enabled(s, a) && (a.Install? ==> CallerOk(max, s, a.caller))
    requires Holds(s, account, id) && !Holds(Do(max, s, a), account, id)
    ensures
      || a == Detach(account)
      || a == Remove(id)
      || (a.ReadEntry? && s.callers[a.caller].account == account && Terminating(s, id))
  {
    assert EntryOk(s, account);
  }

  /** An actor loses its entry only by its own exit, a detach of its account, or an attach that
      finds it terminating: another actor's exit never evicts it. */
  lemma ReplacementSurvives(max: nat, states: seq<State>, actions: seq<Action>, n: nat, account: nat, id: nat)
    requires Run(max, states, actions) && n < |actions|
    requires Holds(states[n], account, id) && !Holds(states[n + 1], account, id)
    ensures
      || actions[n] == Detach(account)
      || actions[n] == Remove(id)
      || (actions[n].ReadEntry? && states[n].callers[actions[n].caller].account == account && Terminating(states[n], id))
  {
    InvHolds(max, states, actions, n);
    var s, a := states[n], actions[n];
    assert a.Install? ==> CallerOk(max, s, a.caller);
    LosesEntry(max, s, a, account, id);
  }

  predicate ReturnedNil(s: State, i: nat, id: nat) {
    At(s, i, Returned(Attached(id)))
  }

  /** At the step that makes an attach return nil, its account is held by the actor it names,
      and that actor is serving unless the supervisor's context is already done. */
  lemma NilAttachIsLive(max: nat, states: seq<State>, actions: seq<Action>, n: nat, i: nat, id: nat)
    requires Run(max, states, actions) && n < |actions|
    requires !ReturnedNil(states[n], i, id) && ReturnedNil(states[n + 1], i, id)
    ensures Holds(states[n + 1], states[n + 1].callers[i].account, id)
    ensures !states[n + 1].cancelled ==> !Terminating(states[n + 1], id)
  {
    InvHolds(max, states, actions, n);
    var s, a := states[n], actions[n];
    NilStep(max, s, a, i, id);
  }

  lemma NilStep(max: nat, s: State, a: Action, i: nat, id: nat)
    requires Enabled(s, a) && !ReturnedNil(s, i, id) && ReturnedNil(Do(max, s, a), i, id)
    ensures var s' := Do(max, s, a);
      Holds(s', s'.callers[i].account, id) && (!s'.cancelled ==> !Terminating(s', id))
  {
  }

  // ---- shutdown: an actor started after Wait ----

  /** A caller that will still install its actor, whatever happens to the context now. */
  predicate WillSlip(max: nat, s: State, i: nat) {
    && i in s.callers
    && (s.callers[i].pc.Admitted? || (s.callers[i].pc.Counting? && s.callers[i].pc.live < max))
  }

  /** The supervisor's context is done and no caller is in the window. */
  ghost predicate Sealed(max: nat, s: State) {
    s.cancelled && forall i :: !WillSlip(max, s, i)
  }

  lemma NobodySlips(max: nat, s: State, a: Action)
    requires Enabled(s, a) && Sealed(max, s)
    ensures var s' := Do(max, s, a); Sealed(max, s') && s'.wg <= s.wg && s'.actors.Keys == s.actors.Keys
  {
    var s' := Do(max, s, a);
    if a.Install? { assert WillSlip(max, s, a.caller); }
    forall i
      ensures !WillSlip(max, s', i)
    {
      assert !WillSlip(max, s, i);
    }
  }

  /** A sealed state is followed by a sealed one, with no actor more and none back at work. */
  ghost predicate StaysSealed(max: nat, states: seq<State>, i: nat)
    requires i + 1 < |states|
  {
    Sealed(max, states[i]) ==>
      && Sealed(max, states[i + 1])
      && states[i + 1].wg <= states[i].wg && states[i + 1].actors.Keys == states[i].actors.Keys
  }

  lemma {:induction false} SealedChain(max: nat, states: seq<State>, c: nat, n: nat)
    requires c <= n < |states| && Sealed(max, states[c])
    requires forall i | c <= i < n :: StaysSealed(max, states, i)
    ensures Sealed(max, states[n])
    ensures states[n].wg <= states[c].wg && states[n].actors.Keys == states[c].actors.Keys
  {
    if c < n {
      SealedChain(max, states, c, n - 1);
      assert StaysSealed(max, states, n - 1);
    }
  }

  /** A cancel that finds no caller between its second look at the context and its install: no
      actor is ever started again, so a Wait that returns stays true. */
  lemma NoActorAfterCancel(max: nat, states: seq<State>, actions: seq<Action>, c: nat, n: nat)
    requires Run(max, states, actions) && c <= n < |states| && Sealed(max, states[c])
    ensures Sealed(max, states[n])
    ensures states[n].wg <= states[c].wg && states[n].actors.Keys == states[c].actors.Keys
  {
    forall i | c <= i < n
      ensures StaysSealed(max, states, i)
    {
      if Sealed(max, states[i]) { NobodySlips(max, states[i], actions[i]); }
    }
    SealedChain(max, states, c, n);
  }

  function Last(states: seq<State>): State
    requires |states| > 0
  {
    states[|states| - 1]
  }

  lemma Extend(max: nat, states: seq<State>, actions: seq<Action>, a: Action)
      returns (longer: seq<State>, more: seq<Action>)
    requires Run(max, states, actions) && Enabled(Last(states), a)
    ensures Run(max, longer, more) && states <= longer && actions <= more
    ensures Last(longer) == Do(max, Last(states), a)
  {
    longer, more := states + [Do(max, Last(states), a)], actions + [a];
  }

  /** Otherwise the run goes on to start an actor although the context is done. */
  lemma {:induction false} Slips(max: nat, states: seq<State>, actions: seq<Action>, i: nat)
      returns (longer: seq<State>, more: seq<Action>)
    requires Run(max, states, actions) && Last(states).cancelled && WillSlip(max, Last(states), i)
    ensures Run(max, longer, more) && states <= longer
    ensures Last(longer).wg == Last(states).wg + 1 && Last(longer).waited == Last(states).waited
    ensures Last(longer).cancelled
    decreases if Last(states).callers[i].pc.Counting? then 1 + |Last(states).callers[i].pc.todo| else 0
  {
    var s := Last(states);
    if s.callers[i].pc.Admitted? {
      var id := Unused(s.actors.Keys);
      longer, more := Extend(max, states, actions, Install(i, id));
    } else if s.callers[i].pc.todo == {} {
      var states', actions' := Extend(max, states, actions, Decide(i));
      longer, more := Slips(max, states', actions', i);
    } else {
      var account :| account in s.callers[i].pc.todo;
      var states', actions' := Extend(max, states, actions, CountOne(i, account));
      longer, more := Slips(max, states', actions', i);
    }
  }

  /** A caller on its way to the mutex. */
  lemma ToTheLock(max: nat, states: seq<State>, actions: seq<Action>, i: nat, account: nat)
      returns (longer: seq<State>, more: seq<Action>)
    requires Run(max, states, actions) && i !in Last(states).callers
    requires !Last(states).cancelled && Last(states).holder == None
    ensures Run(max, longer, more)
    ensures Last(longer) == Last(states).(callers := Last(states).callers[i := Caller(account, Resolved)])
  {
    longer, more := Extend(max, states, actions, Attach(i, account));
    longer, more := Extend(max, longer, more, FirstCheck(i));
    longer, more := Extend(max, longer, more, Resolve(i, true));
    assert Last(longer).callers == Last(states).callers[i := Caller(account, Resolved)];
  }

  /** Alone at an empty map it comes as far as the count. */
  lemma ToTheWindow(max: nat, states: seq<State>, actions: seq<Action>, i: nat, account: nat)
      returns (longer: seq<State>, more: seq<Action>)
    requires Run(max, states, actions) && i !in Last(states).callers
    requires !Last(states).cancelled && Last(states).holder == None && Last(states).entries == map[]
    ensures Run(max, longer, more)
    ensures Last(longer) == Last(states).(
      callers := Last(states).callers[i := Caller(account, Counting({}, 0))], holder := Some(i))
  {
    var s := Last(states);
    longer, more := ToTheLock(max, states, actions, i, account);
    longer, more := Extend(max, longer, more, Lock(i));
    longer, more := Extend(max, longer, more, ReadEntry(i));
    assert s.entries - {account} == map[] && s.entries.Keys == {};
    longer, more := Extend(max, longer, more, SecondCheck(i));
    assert Last(longer).callers == s.callers[i := Caller(account, Counting({}, 0))];
  }

  /** It does happen: the cancel lands after the second look, Wait returns on an empty group,
      and the actor is started behind it. */
  lemma ActorStartedAfterWait(max: nat) returns (states: seq<State>, actions: seq<Action>)
    requires max > 0
    ensures Run(max, states, actions) && |states| > 0
    ensures Last(states).cancelled && Last(states).waited && Last(states).wg == 1
  {
    states, actions := [INIT], [];
    states, actions := ToTheWindow(max, states, actions, 0, 7);
    states, actions := Extend(max, states, actions, Cancel);
    states, actions := Extend(max, states, actions, WaitReturns);
    states, actions := Slips(max, states, actions, 0);
  }

  lemma StartsServing(max: nat, states: seq<State>, actions: seq<Action>, i: nat, account: nat, id: nat)
      returns (longer: seq<State>, more: seq<Action>)
    requires max > 0 && Run(max, states, actions) && i !in Last(states).callers && id !in Last(states).actors
    requires !Last(states).cancelled && Last(states).holder == None && Last(states).entries == map[]
    ensures Run(max, longer, more)
    ensures Last(longer).actors == Last(states).actors[id := Actor(account, false, false, Serving)]
    ensures Last(longer).entries == map[account := id] && Last(longer).holder == None && !Last(longer).cancelled
    ensures Last(longer).callers.Keys == Last(states).callers.Keys + {i}
  {
    longer, more := ToTheWindow(max, states, actions, i, account);
    longer, more := Extend(max, longer, more, Decide(i));
    longer, more := Extend(max, longer, more, Install(i, id));
  }

  /** A reconnect is a Detach and an Attach, and neither waits for the old actor: it can still be
      serving the account, its context cancelled, when the new one is. */
  lemma ReconnectServesTwice(max: nat) returns (states: seq<State>, actions: seq<Action>)
    requires max > 0
    ensures Run(max, states, actions)
    ensures Last(states).actors == map[0 := Actor(7, false, true, Serving), 1 := Actor(7, false, false, Serving)]
    ensures Last(states).entries == map[7 := 1]
  {
    states, actions := [INIT], [];
    states, actions := StartsServing(max, states, actions, 0, 7, 0);
    assert Last(states).actors == map[0 := Actor(7, false, false, Serving)];
    states, actions := Extend(max, states, actions, Detach(7));
    assert Last(states).entries == map[] && 0 in Last(states).stopping;
    states, actions := Extend(max, states, actions, StopDetached(0));
    assert Last(states).actors == map[0 := Actor(7, false, true, Serving)];
    states, actions := StartsServing(max, states, actions, 1, 7, 1);
  }
}
