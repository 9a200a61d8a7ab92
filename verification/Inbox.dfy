/** The actors of one chat account. Provider callbacks queue closures on an actor's inbox and the
    actor's one goroutine runs them, statement by statement, while the HTTP handlers write to the
    same tables. A reconnect takes the account from an actor and starts another without waiting
    for the first to stop, so several may run side by side. */
module Inbox {
  import opened MessageIds
  import opened Options
  import opened Sink

  /** todo: what is left of the closure in progress; accepted: every closure taken into the inbox.
      Every connection has a sink of its own, all of them in front of the one inbox; serving: the
      serve loop of the latest connection is running; over: the goroutine has returned. */
  datatype Actor = Actor(
    inbox: seq<Callback>,
    accepted: seq<Callback>,
    todo: seq<Op>,
    connections: nat,
    serving: bool,
    stopping: bool,
    over: bool)

  /** served: every statement the tables have seen. */
  datatype State = State(tables: Tables, actors: map<nat, Actor>, served: seq<Op>)

  datatype Action =
    | Start(actor: nat)
    | Connect(actor: nat)
    | Enqueue(actor: nat, connection: nat, callback: Callback)
    | Drop(actor: nat, connection: nat, callback: Callback)
    | Serve(actor: nat)
    | Step(actor: nat)
    | Handle(op: Op)
    | Disconnect(actor: nat)
    | Stop(actor: nat)
    | Exit(actor: nat)

  const INBOX_SIZE: nat := 1024
  const FRESH: Actor := Actor([], [], [], 0, false, false, false)
  const INIT: State := State(EMPTY, map[], [])

  /** The adapter reports a message with its own chat, and chats without an unread count. */
  predicate FromAdapter(c: Callback) {
    match c
    case OnMessage(_, chat, _, _, _, info) => info.id == chat && info.unread == 0
    case OnReceipt(_, _, _) => true
    case OnRoster(batch) => forall info | info in batch :: info.unread == 0
  }

  /** A full inbox blocks its caller until there is room; only a stopping actor drops. The sink of
      an ended connection may still be called, and nothing is served between connections. */
  predicate Enabled(s: State, a: Action) {
    if a.Start? then a.actor !in s.actors
    else if a.Handle? then !FromActor(a.op)
    else a.actor in s.actors && ActorEnabled(s.actors[a.actor], a)
  }

  predicate ActorEnabled(x: Actor, a: Action) {
    match a
    case Start(_) => false
    case Connect(_) => !x.serving && !x.over
    case Enqueue(_, c, callback) => c < x.connections && FromAdapter(callback) && |x.inbox| < INBOX_SIZE
    case Drop(_, c, callback) => c < x.connections && FromAdapter(callback) && x.stopping
    case Serve(_) => x.serving && x.inbox != [] && x.todo == []
    case Step(_) => x.todo != []
    case Handle(_) => false
    case Disconnect(_) => x.serving && x.todo == []
    case Stop(_) => true
    case Exit(_) => !x.serving && x.todo == [] && !x.over
  }

  function Moved(x: Actor, a: Action): Actor
    requires ActorEnabled(x, a)
  {
    match a
    case Start(_) => x
    case Connect(_) => x.(connections := x.connections + 1, serving := true)
    case Enqueue(_, _, callback) => x.(inbox := x.inbox + [callback], accepted := x.accepted + [callback])
    case Drop(_, _, _) => x
    case Serve(b) => x.(inbox := x.inbox[1..], todo := Program(b, x.inbox[0]))
    case Step(_) => x.(todo := x.todo[1..])
    case Handle(_) => x
    case Disconnect(_) => x.(serving := false)
    case Stop(_) => x.(stopping := true)
    case Exit(_) => x.(stopping := true, over := true)
  }

  /** The statement a step runs, if it runs one. */
  function ServedBy(s: State, a: Action): seq<Op>
    requires Enabled(s, a)
  {
    if a.Step? then [s.actors[a.actor].todo[0]] else if a.Handle? then [a.op] else []
  }

  function Do(s: State, a: Action): State
    requires Enabled(s, a)
  {
    var ops := ServedBy(s, a);
    State(
      if ops == [] then s.tables else Apply(s.tables, ops[0]),
      if a.Start? then s.actors[a.actor := FRESH]
      else if a.Handle? then s.actors
      else s.actors[a.actor := Moved(s.actors[a.actor], a)],
      s.served + ops)
  }

  ghost predicate Run(states: seq<State>, actions: seq<Action>) {
    && |states| == |actions| + 1
    && states[0] == INIT
    && forall i | 0 <= i < |actions| :: Enabled(states[i], actions[i]) && states[i + 1] == Do(states[i], actions[i])
  }

  // ---- what a step does to one actor ----

  /** Only its own steps change an actor, and its start makes it. */
  lemma OthersStay(s: State, act: Action, a: nat)
    requires Enabled(s, act)
    ensures act.Handle? || act.actor != a ==>
      (a in Do(s, act).actors <==> a in s.actors) && (a in s.actors ==> Do(s, act).actors[a] == s.actors[a])
    ensures act == Start(a) ==>
      a !in s.actors && a in Do(s, act).actors && Do(s, act).actors[a] == Actor([], [], [], 0, false, false, false)
    ensures Do(s, act).served == s.served + (
      if act.Handle? then [act.op] else if act.Step? then [s.actors[act.actor].todo[0]] else [])
  {
  }

  /** A closure taken in joins the end of the inbox; the one served is its head, of which the actor
      then has all its statements to do, and it does them from the first on. */
  lemma Queues(s: State, act: Action)
    requires Enabled(s, act) && !act.Start? && !act.Handle?
    ensures act.actor in Do(s, act).actors
    ensures var x, x' := s.actors[act.actor], Do(s, act).actors[act.actor];
      && x'.accepted == (if act.Enqueue? then x.accepted + [act.callback] else x.accepted)
      && (if act.Enqueue? then x'.inbox == x.inbox + [act.callback]
          else if act.Serve? then x.inbox != [] && x.inbox == [x.inbox[0]] + x'.inbox
          else x'.inbox == x.inbox)
      && (if act.Serve? then x.todo == [] && x'.todo == Program(act.actor, x.inbox[0])
          else if act.Step? then x.todo != [] && x.todo == [x.todo[0]] + x'.todo
          else x'.todo == x.todo)
  {
  }

  /** One connection at a time, a sink more with each; told to stop an actor goes on until it exits. */
  lemma Lives(s: State, act: Action)
    requires Enabled(s, act) && !act.Start? && !act.Handle?
    ensures act.actor in Do(s, act).actors
    ensures var x, x' := s.actors[act.actor], Do(s, act).actors[act.actor];
      && x'.connections == x.connections + (if act.Connect? then 1 else 0)
      && (x'.serving <==> act.Connect? || (x.serving && !act.Disconnect?))
      && (x'.stopping <==> x.stopping || act.Stop? || act.Exit?)
      && (x'.over <==> x.over || act.Exit?)
  {
  }

  /** A callback of any sink so far is taken in while there is room for it, is dropped only once the
      actor is stopping, and otherwise waits: of 1024 closures none is lost to the size. */
  lemma TakesInOrWaits(s: State, a: nat, connection: nat, c: Callback)
    requires a in s.actors && FromAdapter(c)
    ensures Enabled(s, Enqueue(a, connection, c)) <==> connection < s.actors[a].connections && |s.actors[a].inbox| < 1024
    ensures Enabled(s, Action.Drop(a, connection, c)) <==> connection < s.actors[a].connections && s.actors[a].stopping
  {
  }

  /** A serving actor with something to do can do it, whatever the others do; one without can lose its
      connection, and without one connect again or exit. */
  lemma GoesOn(s: State, a: nat)
    requires a in s.actors
    ensures var x := s.actors[a];
      && (x.todo != [] ==> Enabled(s, Step(a)))
      && (x.serving && x.todo == [] && x.inbox != [] ==> Enabled(s, Serve(a)))
      && (x.serving && x.todo == [] ==> Enabled(s, Disconnect(a)))
      && (!x.serving && !x.over ==> Enabled(s, Connect(a)))
      && (!x.serving && !x.over && x.todo == [] ==> Enabled(s, Exit(a)))
      && Enabled(s, Stop(a))
  {
  }

  // ---- what every step keeps of one actor ----

  predicate By(op: Op, a: nat) {
    FromActor(op) && op.actor == a
  }

  function OpsBy(ops: seq<Op>, a: nat, n: nat): seq<Op>
    requires n <= |ops|
  {
    if n == 0 then [] else OpsBy(ops, a, n - 1) + if By(ops[n - 1], a) then [ops[n - 1]] else []
  }

  /** The first n closures as one sequence of statements. */
  function Flat(a: nat, closures: seq<Callback>, n: nat): seq<Op>
    requires n <= |closures|
  {
    if n == 0 then [] else Flat(a, closures, n - 1) + Program(a, closures[n - 1])
  }

  lemma {:induction false} Longer(ops: seq<Op>, more: seq<Op>, a: nat, n: nat)
    requires n <= |ops|
    ensures After(ops + more, n) == After(ops, n)
    ensures OpsBy(ops + more, a, n) == OpsBy(ops, a, n)
  {
    PlayedPrefix(EMPTY, ops, more, n);
    if n > 0 { Longer(ops, more, a, n - 1); }
  }

  lemma {:induction false} FlatPrefix(a: nat, x: seq<Callback>, y: seq<Callback>, n: nat)
    requires n <= |x|
    ensures Flat(a, x + y, n) == Flat(a, x, n)
  {
    if n > 0 { FlatPrefix(a, x, y, n - 1); }
  }

  /** What may be left of a closure. */
  predicate Proper(a: nat, todo: seq<Op>) {
    todo == [] ||
    var rest := todo[1..];
    && By(todo[0], a)
    && Proper(a, rest)
    && match todo[0]
       case Look(_, info) =>
         && info.unread == 0
         && rest != [] && rest[0].Write?
         && (|rest| > 1 && rest[1].Insert? ==> info.id == rest[1].chat)
       case Write(_) => rest == [] || rest[0].Look? || rest[0].Insert?
       case Insert(_, _, _, _, _, _) => rest == [Settle(a)]
       case _ => rest == []
  }

  /** What the actor holds agrees with what it is going to do. */
  predicate Held(t: Tables, a: nat, todo: seq<Op>) {
    && Proper(a, todo)
    && (a in t.due ==> todo == [Settle(a)])
    && (a in t.looked ==>
          && todo != [] && todo[0].Write?
          && t.looked[a].unread == 0
          && (|todo| > 1 && todo[1].Insert? ==> t.looked[a].id == todo[1].chat))
    && (todo != [] && todo[0].Write? ==> a in t.looked)
    && (todo != [] && todo[0].Insert? ==> todo[0].chat in t.chats)
  }

  lemma {:induction false} RosterProper(a: nat, batch: seq<ChatInfo>, n: nat, rest: seq<Op>)
    requires n <= |batch| && forall info | info in batch :: info.unread == 0
    requires Proper(a, rest) && (rest == [] || rest[0].Look?)
    ensures Proper(a, RosterOps(a, batch, n) + rest)
  {
    if n == 0 {
      assert RosterOps(a, batch, n) + rest == rest;
    } else {
      var two := [Look(a, batch[n - 1]), Write(a)];
      assert (two + rest)[1..] == [Write(a)] + rest;
      assert ([Write(a)] + rest)[1..] == rest;
      RosterProper(a, batch, n - 1, two + rest);
      assert RosterOps(a, batch, n - 1) + (two + rest) == RosterOps(a, batch, n) + rest;
    }
  }

  lemma MessageProper(a: nat, c: Callback)
    requires FromAdapter(c) && c.OnMessage?
    ensures Proper(a, Program(a, c)) && Program(a, c)[0].Look?
  {
    var ops := Program(a, c);
    assert ops[3..] == [Settle(a)] && Proper(a, ops[3..]);
    assert ops[2..][1..] == ops[3..] && Proper(a, ops[2..]);
    assert ops[1..][1..] == ops[2..] && Proper(a, ops[1..]);
  }

  lemma ProgramProper(a: nat, c: Callback)
    requires FromAdapter(c)
    ensures Proper(a, Program(a, c))
    ensures Program(a, c) == [] || Program(a, c)[0].Look? || Program(a, c)[0].Receipt?
  {
    match c
    case OnMessage(_, _, _, _, _, _) => MessageProper(a, c);
    case OnReceipt(_, _, _) =>
    case OnRoster(batch) =>
      RosterProper(a, batch, |batch|, []);
      assert RosterOps(a, batch, |batch|) + [] == RosterOps(a, batch, |batch|);
      RosterHead(a, batch, |batch|);
  }

  lemma {:induction false} RosterHead(a: nat, batch: seq<ChatInfo>, n: nat)
    requires n <= |batch|
    ensures n > 0 ==> RosterOps(a, batch, n) != [] && RosterOps(a, batch, n)[0].Look?
  {
    if n > 0 { RosterHead(a, batch, n - 1); }
  }

  lemma HeldOwn(t: Tables, a: nat, todo: seq<Op>)
    requires Held(t, a, todo) && todo != []
    ensures Held(Apply(t, todo[0]), a, todo[1..])
  {
    DueAfter(t, todo[0]);
    LookedAfter(t, todo[0], a);
  }

  lemma HeldFrame(t: Tables, a: nat, todo: seq<Op>, op: Op)
    requires Held(t, a, todo) && !By(op, a)
    ensures Held(Apply(t, op), a, todo)
  {
    DueAfter(t, op);
    LookedAfter(t, op, a);
    if todo != [] && todo[0].Insert? { ChatsStay(t, op, todo[0].chat); }
  }

  /** Of the closures accepted the last are in the inbox, and the others are the statements done
      and those left of the closure in progress. */
  ghost predicate Ordered(done: seq<Op>, a: nat, x: Actor) {
    && |x.inbox| <= INBOX_SIZE && |x.inbox| <= |x.accepted|
    && x.inbox == x.accepted[|x.accepted| - |x.inbox|..]
    && done + x.todo == Flat(a, x.accepted, |x.accepted| - |x.inbox|)
    && forall c | c in x.accepted :: FromAdapter(c)
  }

  ghost predicate ActorOk(served: seq<Op>, t: Tables, a: nat, x: Actor) {
    && Ordered(OpsBy(served, a, |served|), a, x)
    && Held(t, a, x.todo)
    && (x.todo != [] ==> x.serving)
    && (x.over ==> !x.serving && x.stopping)
  }

  /** What is so of a at any time, whether it has been started or not. */
  ghost predicate Ok(s: State, a: nat) {
    if a in s.actors then ActorOk(s.served, s.tables, a, s.actors[a])
    else OpsBy(s.served, a, |s.served|) == [] && Held(s.tables, a, [])
  }

  lemma EnqueuedOrdered(done: seq<Op>, a: nat, x: Actor, c: Callback)
    requires Ordered(done, a, x) && FromAdapter(c) && |x.inbox| < INBOX_SIZE
    ensures Ordered(done, a, x.(inbox := x.inbox + [c], accepted := x.accepted + [c]))
  {
    var m := |x.accepted| - |x.inbox|;
    FlatPrefix(a, x.accepted, [c], m);
    assert (x.accepted + [c])[m..] == x.inbox + [c];
  }

  lemma ServedOrdered(done: seq<Op>, a: nat, x: Actor)
    requires Ordered(done, a, x) && x.inbox != [] && x.todo == []
    ensures Ordered(done, a, x.(inbox := x.inbox[1..], todo := Program(a, x.inbox[0])))
    ensures FromAdapter(x.inbox[0])
  {
    var m := |x.accepted| - |x.inbox|;
    assert x.inbox[0] == x.accepted[m] && x.accepted[m] in x.accepted;
    assert done + x.todo == done;
    assert x.inbox[1..] == x.accepted[m + 1..];
  }

  lemma SteppedOrdered(done: seq<Op>, a: nat, x: Actor)
    requires Ordered(done, a, x) && x.todo != []
    ensures Ordered(done + [x.todo[0]], a, x.(todo := x.todo[1..]))
  {
    assert done + [x.todo[0]] + x.todo[1..] == done + x.todo;
  }

  lemma MovedOk(served: seq<Op>, t: Tables, b: nat, x: Actor, a: Action)
    requires ActorOk(served, t, b, x) && ActorEnabled(x, a) && !a.Step? && a.actor == b
    ensures ActorOk(served, t, b, Moved(x, a))
  {
    var done := OpsBy(served, b, |served|);
    if a.Serve? {
      ServedOrdered(done, b, x);
      ProgramProper(b, x.inbox[0]);
      assert Held(t, b, Program(b, x.inbox[0]));
    } else {
      if a.Enqueue? { EnqueuedOrdered(done, b, x, a.callback); }
      assert Moved(x, a).todo == x.todo && Ordered(done, b, Moved(x, a));
    }
  }

  lemma SteppedOk(served: seq<Op>, t: Tables, a: nat, x: Actor)
    requires ActorOk(served, t, a, x) && x.todo != []
    ensures ActorOk(served + [x.todo[0]], Apply(t, x.todo[0]), a, x.(todo := x.todo[1..]))
  {
    HeldOwn(t, a, x.todo);
    Longer(served, [x.todo[0]], a, |served|);
    SteppedOrdered(OpsBy(served, a, |served|), a, x);
  }

  lemma BesideOk(served: seq<Op>, t: Tables, a: nat, x: Actor, op: Op)
    requires ActorOk(served, t, a, x) && !By(op, a)
    ensures ActorOk(served + [op], Apply(t, op), a, x)
  {
    Longer(served, [op], a, |served|);
    assert OpsBy(served + [op], a, |served| + 1) == OpsBy(served, a, |served|);
    HeldFrame(t, a, x.todo, op);
  }

  lemma OtherOk(s: State, a: nat, op: Op, s': State)
    requires Ok(s, a) && !By(op, a)
    requires s'.tables == Apply(s.tables, op) && s'.served == s.served + [op]
    requires (a in s'.actors <==> a in s.actors) && (a in s.actors ==> s'.actors[a] == s.actors[a])
    ensures Ok(s', a)
  {
    if a in s.actors {
      BesideOk(s.served, s.tables, a, s.actors[a], op);
    } else {
      Longer(s.served, [op], a, |s.served|);
      HeldFrame(s.tables, a, [], op);
    }
  }

  /** A statement is its own actor's. */
  lemma OwnStatement(s: State, a: Action)
    requires Enabled(s, a) && a.Step? && Ok(s, a.actor)
    ensures By(s.actors[a.actor].todo[0], a.actor)
  {
  }

  lemma OkStep(s: State, act: Action, a: nat)
    requires Enabled(s, act) && Ok(s, a) && (act.Step? ==> Ok(s, act.actor))
    ensures Ok(Do(s, act), a)
  {
    if act.Handle? {
      OtherOk(s, a, act.op, Do(s, act));
    } else if act.Step? {
      OwnStatement(s, act);
      if act.actor == a { SteppedOk(s.served, s.tables, a, s.actors[a]); }
      else { OtherOk(s, a, s.actors[act.actor].todo[0], Do(s, act)); }
    } else {
      assert s.served + [] == s.served;
      if act.actor == a && !act.Start? { MovedOk(s.served, s.tables, a, s.actors[a], act); }
    }
  }

  /** The statements of each actor are the closures its sinks handed over, whole and in the order
      they were handed over, none lost and none twice: what is served of the inbox so far, less
      what is left of the closure in progress. What one connection leaves in the inbox waits
      there for the next. */
  lemma {:induction false} OneOrderedInbox(states: seq<State>, actions: seq<Action>, n: nat, a: nat)
    requires Run(states, actions) && n < |states|
    ensures Ok(states[n], a)
  {
    if n > 0 {
      OneOrderedInbox(states, actions, n - 1, a);
      if actions[n - 1].Step? { OneOrderedInbox(states, actions, n - 1, actions[n - 1].actor); }
      OkStep(states[n - 1], actions[n - 1], a);
    }
  }

  /** The tables are the result of all actors' and handlers' statements in one order. */
  lemma {:induction false} OneHistory(states: seq<State>, actions: seq<Action>, n: nat)
    requires Run(states, actions) && n < |states|
    ensures states[n].tables == After(states[n].served, |states[n].served|)
  {
    if n > 0 {
      var s := states[n - 1];
      var ops := ServedBy(s, actions[n - 1]);
      OneHistory(states, actions, n - 1);
      Longer(s.served, ops, 0, |s.served|);
      assert ops != [] ==> After(s.served + ops, |s.served| + 1) == Apply(s.tables, ops[0]);
    }
  }

  /** Between the two states a, over in the first, served nothing. */
  ghost predicate Abandoned(s: State, s': State, a: nat) {
    && a in s.actors && a in s'.actors && s.actors[a].over && s'.actors[a].over
    && s.actors[a].inbox <= s'.actors[a].inbox
    && OpsBy(s'.served, a, |s'.served|) == OpsBy(s.served, a, |s.served|)
  }

  lemma OverStep(s: State, act: Action, a: nat)
    requires Enabled(s, act) && a in s.actors && s.actors[a].over && Ok(s, a) && (act.Step? ==> Ok(s, act.actor))
    ensures Abandoned(s, Do(s, act), a)
  {
    if act.Step? { OwnStatement(s, act); }
    var ops := ServedBy(s, act);
    Longer(s.served, ops, a, |s.served|);
    if ops == [] { assert s.served + ops == s.served; }
  }

  lemma OverNow(states: seq<State>, actions: seq<Action>, m: nat, a: nat)
    requires Run(states, actions) && m < |actions| && a in states[m].actors && states[m].actors[a].over
    ensures Abandoned(states[m], states[m + 1], a)
  {
    OneOrderedInbox(states, actions, m, a);
    if actions[m].Step? { OneOrderedInbox(states, actions, m, actions[m].actor); }
    OverStep(states[m], actions[m], a);
  }

  /** What the inbox still holds when the actor's goroutine returns is never served. */
  lemma {:induction false} AbandonedInbox(states: seq<State>, actions: seq<Action>, i: nat, n: nat, a: nat)
    requires Run(states, actions) && i <= n < |states| && a in states[i].actors && states[i].actors[a].over
    ensures Abandoned(states[i], states[n], a)
  {
    if i < n {
      AbandonedInbox(states, actions, i, n - 1, a);
      OverNow(states, actions, n - 1, a);
    }
  }

  // ---- the unread count in reachable states ----

  /** The statement comes from an actor that has nothing else on its way, inserts into a chat
      that is there, and creates rows with a zero count. */
  predicate InTurn(t: Tables, op: Op) {
    && (FromActor(op) && op.actor in t.due ==> op.Settle?)
    && (op.Insert? ==> op.chat in t.chats)
    && Reported(t, op) == 0
  }

  /** A statement served is one served before, on the same tables, or the one of this step. */
  lemma ServedAt(states: seq<State>, actions: seq<Action>, m: nat, k: nat)
    requires Run(states, actions) && m < |actions| && k < |states[m + 1].served|
    ensures var was, now := states[m].served, states[m + 1].served;
      if k < |was| then now[k] == was[k] && After(now, k) == After(was, k)
      else now[k] in ServedBy(states[m], actions[m]) && After(now, k) == states[m].tables
  {
    var served, ops := states[m].served, ServedBy(states[m], actions[m]);
    assert states[m + 1].served == served + ops;
    Longer(served, ops, 0, if k < |served| then k else |served|);
    OneHistory(states, actions, m);
  }

  lemma InTurnNow(s: State, a: Action)
    requires Enabled(s, a) && (a.Step? ==> Ok(s, a.actor))
    ensures forall op | op in ServedBy(s, a) :: InTurn(s.tables, op)
  {
    if a.Step? { OwnStatement(s, a); }
  }

  /** An actor runs its callbacks one after another: its own receipts, in particular, never fall
      between the insert and the bump of one of its messages. */
  lemma {:induction false} CallbacksWait(states: seq<State>, actions: seq<Action>, n: nat, k: nat)
    requires Run(states, actions) && n < |states| && k < |states[n].served|
    ensures InTurn(After(states[n].served, k), states[n].served[k])
  {
    if n > 0 {
      var m := n - 1;
      ServedAt(states, actions, m, k);
      if k < |states[m].served| {
        CallbacksWait(states, actions, m, k);
      } else {
        if actions[m].Step? { OneOrderedInbox(states, actions, m, actions[m].actor); }
        InTurnNow(states[m], actions[m]);
      }
    }
  }

  lemma ServedIsRowed(states: seq<State>, actions: seq<Action>, n: nat)
    requires Run(states, actions) && n < |states|
    ensures Rowed(states[n].served)
    ensures forall k | 0 <= k < |states[n].served| ::
      Reported(After(states[n].served, k), states[n].served[k]) == 0
  {
    var ops := states[n].served;
    forall k | 0 <= k < |ops|
      ensures Reported(After(ops, k), ops[k]) == 0 && (ops[k].Insert? ==> ops[k].chat in After(ops, k).chats)
    {
      CallbacksWait(states, actions, n, k);
    }
  }

  /** In every reachable state, whatever number of actors there are, a chat's unread count and the
      messages not yet bumped are together the distinct messages of others first stored in it
      since it was read and those the last read came too early for; with nothing on its way the
      count is the number of the former if and only if that read was not early. */
  lemma ReachableUnread(states: seq<State>, actions: seq<Action>, n: nat, chat: nat)
    requires Run(states, actions) && n < |states| && chat in states[n].tables.chats
    ensures var ops := states[n].served;
      var unread := states[n].tables.chats[chat].unread;
      && unread + |DueSet(ops, |ops|, chat)| == |StoredSince(ops, |ops|, chat)| + |Early(ops, |ops|, chat)|
      && (DueSet(ops, |ops|, chat) == {} ==>
            (unread == |StoredSince(ops, |ops|, chat)| <==> Early(ops, |ops|, chat) == {}))
  {
    var ops := states[n].served;
    OneHistory(states, actions, n);
    ServedIsRowed(states, actions, n);
    NothingInherited(ops, |ops|, chat);
    UnreadIsStoredSince(ops, |ops|, chat);
  }

  /** Another actor has a message of others on its way in the chat when operation j is served. */
  predicate AnotherWaits(ops: seq<Op>, j: nat, chat: nat)
    requires j < |ops|
  {
    exists b | b in After(ops, j).due :: !By(ops[j], b) && Waits(After(ops, j).due[b], chat)
  }

  /** An early read is a handler's, or the receipt of an actor beside the one whose message it
      missed; it misses one message at most of each actor that was inside one. */
  lemma EarlyIsAnothers(states: seq<State>, actions: seq<Action>, n: nat, chat: nat) returns (j: nat)
    requires Run(states, actions) && n < |states|
    requires Early(states[n].served, |states[n].served|, chat) != {}
    ensures var ops := states[n].served;
      && j < |ops| && Clears(ops[j], chat) && AnotherWaits(ops, j, chat)
      && |Early(ops, |ops|, chat)| <= |After(ops, j).due|
  {
    var ops := states[n].served;
    j := EarlyIsARead(ops, |ops|, chat);
    CallbacksWait(states, actions, n, j);
    var x :| x in DueSet(ops, j, chat);
    var b :| b in After(ops, j).due && Waits(After(ops, j).due[b], chat) && After(ops, j).due[b].msg == x;
    assert !By(ops[j], b);
  }

  /** Every message is announced at most once, whatever the state. */
  lemma ReachableNews(states: seq<State>, actions: seq<Action>, n: nat, msg: nat)
    requires Run(states, actions) && n < |states|
    ensures Count(states[n].tables.emitted, msg) <= 1
  {
    OneHistory(states, actions, n);
    AnnouncedOnce(states[n].served, |states[n].served|, msg);
  }

  // ---- one actor at a time ----

  predicate AtMostOne(s: State) {
    forall a, b | a in s.actors && b in s.actors && !s.actors[a].over && !s.actors[b].over :: a == b
  }

  /** Up to step n no actor is started before the goroutine of the one before it has returned. */
  ghost predicate OneAtATime(states: seq<State>, n: nat)
    requires n < |states|
  {
    forall i | 0 <= i <= n :: AtMostOne(states[i])
  }

  /** What is due when a statement is served: one actor's message at most, and that actor's alone
      if an actor serves it. */
  predicate OneDue(t: Tables, op: Op) {
    && |t.due| <= 1
    && (FromActor(op) ==> forall a | a in t.due :: a == op.actor)
  }

  lemma DueAlone(states: seq<State>, actions: seq<Action>, n: nat)
    requires Run(states, actions) && n < |states| && OneAtATime(states, n)
    ensures |states[n].tables.due| <= 1
    ensures forall a, b | a in states[n].tables.due && b in states[n].actors && !states[n].actors[b].over :: a == b
  {
    var s := states[n];
    assert AtMostOne(s);
    forall a | a in s.tables.due ensures a in s.actors && !s.actors[a].over {
      OneOrderedInbox(states, actions, n, a);
    }
    if a :| a in s.tables.due {
      assert s.tables.due.Keys == {a};
      assert |s.tables.due| == |s.tables.due.Keys|;
    }
  }

  lemma OneDueNow(states: seq<State>, actions: seq<Action>, n: nat)
    requires Run(states, actions) && n < |actions| && OneAtATime(states, n)
    ensures forall op | op in ServedBy(states[n], actions[n]) :: OneDue(states[n].tables, op)
  {
    var s, a := states[n], actions[n];
    DueAlone(states, actions, n);
    if a.Step? {
      OneOrderedInbox(states, actions, n, a.actor);
      OwnStatement(s, a);
    }
  }

  lemma {:induction false} OneDueHolds(states: seq<State>, actions: seq<Action>, n: nat, k: nat)
    requires Run(states, actions) && n < |states| && OneAtATime(states, n) && k < |states[n].served|
    ensures OneDue(After(states[n].served, k), states[n].served[k])
  {
    if n > 0 {
      var m := n - 1;
      ServedAt(states, actions, m, k);
      if k < |states[m].served| { OneDueHolds(states, actions, m, k); } else { OneDueNow(states, actions, m); }
    }
  }

  /** With one actor at a time an early read is a handler's, and misses one message. */
  lemma EarlyIsAHandlers(states: seq<State>, actions: seq<Action>, n: nat, chat: nat) returns (j: nat)
    requires Run(states, actions) && n < |states| && OneAtATime(states, n)
    requires Early(states[n].served, |states[n].served|, chat) != {}
    ensures j < |states[n].served| && states[n].served[j] == ApiRead(chat)
    ensures |Early(states[n].served, |states[n].served|, chat)| == 1
  {
    j := EarlyIsAnothers(states, actions, n, chat);
    OneDueHolds(states, actions, n, j);
    assert |Early(states[n].served, |states[n].served|, chat)| != 0;
  }

  // ---- names ----

  lemma LookKept(ops: seq<Op>, op: Op, a: nat)
    ensures LookAt(ops + [op], |ops| + 1, a) ==
      if op.Look? && op.actor == a then Some(|ops|) else LookAt(ops, |ops|, a)
  {
    LookPrefix(ops, [op], |ops|, a);
  }

  lemma {:induction false} LookPrefix(ops: seq<Op>, more: seq<Op>, n: nat, a: nat)
    requires n <= |ops|
    ensures LookAt(ops + more, n, a) == LookAt(ops, n, a)
  {
    if n > 0 { LookPrefix(ops, more, n - 1, a); }
  }

  ghost predicate OnlyHandlersSince(ops: seq<Op>, a: nat) {
    var j := LookAt(ops, |ops|, a);
    j.Some? && forall m | j.value < m < |ops| :: !FromActor(ops[m])
  }

  /** The active actor is the only one that holds a looked-up chat. */
  lemma LookedAlone(states: seq<State>, actions: seq<Action>, n: nat, a: nat)
    requires Run(states, actions) && n < |actions| && OneAtATime(states, n) && a in states[n].tables.looked
    ensures forall op | op in ServedBy(states[n], actions[n]) && FromActor(op) :: op == Write(a)
  {
    var s, act := states[n], actions[n];
    assert AtMostOne(s);
    OneOrderedInbox(states, actions, n, a);
    if act.Step? {
      OneOrderedInbox(states, actions, n, act.actor);
      OwnStatement(s, act);
    }
  }

  lemma OnlyHandlersNow(states: seq<State>, actions: seq<Action>, n: nat, a: nat)
    requires Run(states, actions) && n < |actions| && OneAtATime(states, n)
    requires a in states[n].tables.looked ==> OnlyHandlersSince(states[n].served, a)
    requires a in states[n + 1].tables.looked
    ensures OnlyHandlersSince(states[n + 1].served, a)
  {
    var s, ops := states[n], ServedBy(states[n], actions[n]);
    assert states[n + 1].served == s.served + ops;
    if ops == [] {
      assert s.served + ops == s.served;
    } else {
      assert ops == [ops[0]] && ops[0] in ops;
      LookedAfter(s.tables, ops[0], a);
      LookKept(s.served, ops[0], a);
      if a in s.tables.looked { LookedAlone(states, actions, n, a); }
    }
  }

  /** Between an actor's lookup and its write, with one actor at a time, only handlers write. */
  lemma {:induction false} OnlyHandlers(states: seq<State>, actions: seq<Action>, n: nat, a: nat)
    requires Run(states, actions) && n < |states| && OneAtATime(states, n)
    requires a in states[n].tables.looked
    ensures OnlyHandlersSince(states[n].served, a)
  {
    if n > 0 {
      var m := n - 1;
      if a in states[m].tables.looked { OnlyHandlers(states, actions, m, a); }
      OnlyHandlersNow(states, actions, m, a);
      assert states[n] == states[m + 1];
    }
  }

  /** Handlers make nothing known but the kind of a chat they start. */
  lemma {:induction false} UnknownStays(ops: seq<Op>, i: nat, n: nat, chat: nat, p: Part)
    requires i <= n <= |ops| && !Known(After(ops, i), chat, p)
    requires forall m | i <= m < n :: !ops[m].Write? && !(p.Kind? && ops[m] == ApiStart(chat))
    ensures !Known(After(ops, n), chat, p)
  {
    if i < n {
      UnknownStays(ops, i, n - 1, chat, p);
      UnknownAfter(After(ops, n - 1), ops[n - 1], chat, p);
    }
  }

  lemma UnknownAfter(t: Tables, op: Op, chat: nat, p: Part)
    requires !Known(t, chat, p) && !op.Write? && !(p.Kind? && op == ApiStart(chat))
    ensures !Known(Apply(t, op), chat, p)
  {
  }

  /** The start-chat handler came between the lookup that operation k writes and operation k. */
  predicate StartedSince(ops: seq<Op>, k: nat, chat: nat)
    requires k < |ops|
  {
    && ops[k].Write?
    && var j := LookAt(ops, k, ops[k].actor);
       j.Some? && exists m | j.value < m < k :: ops[m] == ApiStart(chat)
  }

  lemma WriteOfUnknown(ops: seq<Op>, a: nat, chat: nat, p: Part)
    requires OnlyHandlersSince(ops, a) && WritesUnknown(ops + [Write(a)], |ops|, chat, p)
    requires Known(After(ops, |ops|), chat, p)
    ensures p.Kind? && StartedSince(ops + [Write(a)], |ops|, chat)
  {
    var all := ops + [Write(a)];
    LookPrefix(ops, [Write(a)], |ops|, a);
    var j := LookAt(ops, |ops|, a).value;
    Longer(ops, [Write(a)], a, j);
    if !(p.Kind? && exists m | j < m < |ops| :: all[m] == ApiStart(chat)) {
      assert forall m | j < m < |ops| :: all[m] == ops[m];
      UnknownStays(ops, j, |ops|, chat, p);
    }
  }

  lemma WriteStep(states: seq<State>, actions: seq<Action>, n: nat, chat: nat, p: Part)
    requires Run(states, actions) && 0 < n < |states| && OneAtATime(states, n - 1)
    requires actions[n - 1].Step?
    requires var ops := states[n].served;
      WritesUnknown(ops, |ops| - 1, chat, p) && Known(After(ops, |ops| - 1), chat, p)
    ensures p.Kind? && StartedSince(states[n].served, |states[n].served| - 1, chat)
  {
    var s, act := states[n - 1], actions[n - 1];
    OneOrderedInbox(states, actions, n - 1, act.actor);
    OnlyHandlers(states, actions, n - 1, act.actor);
    assert states[n].served == s.served + [Write(act.actor)];
    Longer(s.served, [Write(act.actor)], 0, |s.served|);
    WriteOfUnknown(s.served, act.actor, chat, p);
  }

  predicate BlankedByStart(ops: seq<Op>, k: nat, chat: nat, p: Part)
    requires k < |ops|
  {
    if p.Name? then ops[k] == ApiStart(chat) else StartedSince(ops, k, chat)
  }

  lemma StartKept(ops: seq<Op>, more: seq<Op>, k: nat, chat: nat, p: Part)
    requires k < |ops| && BlankedByStart(ops, k, chat, p)
    ensures BlankedByStart(ops + more, k, chat, p)
  {
    if p.Kind? {
      LookPrefix(ops, more, k, ops[k].actor);
      var m :| LookAt(ops, k, ops[k].actor).value < m < k && ops[m] == ApiStart(chat);
      assert (ops + more)[m] == ApiStart(chat);
    }
  }

  /** With one actor at a time a known name or kind is blanked by the start-chat handler alone:
      a name by its write, a kind by its falling between a lookup and the write of it. */
  lemma {:induction false} OnlyStartChatBlanks(
      states: seq<State>, actions: seq<Action>, n: nat, k: nat, chat: nat, p: Part)
    requires Run(states, actions) && n < |states| && OneAtATime(states, n) && k < |states[n].served|
    requires Known(After(states[n].served, k), chat, p) && !Known(After(states[n].served, k + 1), chat, p)
    ensures BlankedByStart(states[n].served, k, chat, p)
  {
    var m := n - 1;
    var served, ops := states[m].served, ServedBy(states[m], actions[m]);
    assert states[n].served == served + ops;
    if k < |served| {
      Longer(served, ops, 0, k);
      Longer(served, ops, 0, k + 1);
      OnlyStartChatBlanks(states, actions, m, k, chat, p);
      StartKept(served, ops, k, chat, p);
    } else {
      BlankedExactly(states[n].served, k, chat, p);
      if WritesUnknown(states[n].served, k, chat, p) { WriteStep(states, actions, n, chat, p); }
    }
  }

  // ---- a reconnect ----

  function Last(states: seq<State>): State
    requires |states| > 0
  {
    states[|states| - 1]
  }

  lemma Extend(states: seq<State>, actions: seq<Action>, a: Action) returns (longer: seq<State>, more: seq<Action>)
    requires Run(states, actions) && Enabled(Last(states), a)
    ensures Run(longer, more) && Last(longer) == Do(Last(states), a)
  {
    longer, more := states + [Do(Last(states), a)], actions + [a];
  }

  const THIN: ChatInfo := ChatInfo(3, "", "", 0, None)
  const NEWS: Callback := OnMessage(5, 3, false, "", 0, THIN)

  /** Actor 0 inside the closure, with the given statements served and left. */
  function Inside(t: Tables, served: seq<Op>, todo: seq<Op>): State {
    State(t, map[0 := Actor([], [NEWS], todo, 1, true, false, false)], served)
  }

  const LOOKED: Tables := EMPTY.(looked := map[0 := THIN])
  const WRITTEN: Tables := EMPTY.(chats := map[3 := Chat("", "", 0, None)])
  const INSERTED: Tables := WRITTEN.(
    messages := map[Provider(5) := Message(3, false, "")], due := map[0 := Arrival(5, 3, false, 0)])

  /** One statement of that closure. */
  lemma Onward(states: seq<State>, actions: seq<Action>, n: nat, t: Tables, t': Tables)
      returns (longer: seq<State>, more: seq<Action>)
    requires Run(states, actions) && n < 3
    requires Last(states) == Inside(t, Program(0, NEWS)[..n], Program(0, NEWS)[n..])
    requires t' == Apply(t, Program(0, NEWS)[n])
    ensures Run(longer, more) && Last(longer) == Inside(t', Program(0, NEWS)[..n + 1], Program(0, NEWS)[n + 1..])
  {
    longer, more := Extend(states, actions, Step(0));
    var p := Program(0, NEWS);
    assert p[..n] + [p[n]] == p[..n + 1] && p[n..][1..] == p[n + 1..];
  }

  function With(s: State, a: nat, x: Actor): State {
    s.(actors := s.actors[a := x])
  }

  /** One step of one actor that no statement belongs to. */
  lemma Turn(states: seq<State>, actions: seq<Action>, act: Action, s: State, a: nat, x: Actor)
      returns (longer: seq<State>, more: seq<Action>)
    requires Run(states, actions) && Last(states) == With(s, a, x)
    requires ActorEnabled(x, act) && act.actor == a && !act.Step?
    ensures Run(longer, more) && Last(longer) == With(s, a, Moved(x, act))
  {
    longer, more := Extend(states, actions, act);
    assert Last(longer).served == s.served;
    assert Last(longer).actors == s.actors[a := Moved(x, act)];
  }

  /** An actor starts, connects and takes one closure. */
  lemma Enters(states: seq<State>, actions: seq<Action>, a: nat, c: Callback)
      returns (longer: seq<State>, more: seq<Action>)
    requires Run(states, actions) && a !in Last(states).actors && FromAdapter(c)
    ensures Run(longer, more)
    ensures Last(longer) == With(Last(states), a, Actor([], [c], Program(a, c), 1, true, false, false))
  {
    var s := Last(states);
    longer, more := Extend(states, actions, Start(a));
    assert Last(longer).served == s.served;
    longer, more := Turn(longer, more, Connect(a), s, a, FRESH);
    longer, more := Turn(longer, more, Enqueue(a, 0, c), s, a, Moved(FRESH, Connect(a)));
    assert [] + [c] == [c];
    assert Moved(Moved(FRESH, Connect(a)), Enqueue(a, 0, c)) == Actor([c], [c], [], 1, true, false, false);
    longer, more := Turn(longer, more, Serve(a), s, a, Actor([c], [c], [], 1, true, false, false));
    assert [c][1..] == [];
  }

  /** An actor has stored a message and not yet bumped its chat. */
  lemma InsideAMessage() returns (states: seq<State>, actions: seq<Action>)
    ensures Run(states, actions)
    ensures Last(states) == Inside(INSERTED, Program(0, NEWS)[..3], Program(0, NEWS)[3..])
  {
    states, actions := [INIT], [];
    assert Last(states) == INIT && FromAdapter(NEWS);
    states, actions := Enters(states, actions, 0, NEWS);
    assert Program(0, NEWS)[..0] == [] && Program(0, NEWS)[0..] == Program(0, NEWS);
    states, actions := Onward(states, actions, 0, EMPTY, LOOKED);
    assert LOOKED.looked - {0} == map[];
    states, actions := Onward(states, actions, 1, LOOKED, WRITTEN);
    states, actions := Onward(states, actions, 2, WRITTEN, INSERTED);
  }

  /** The actor that replaces it. */
  function Beside(s: State, todo: seq<Op>): State {
    s.(actors := map[
      0 := Actor([], [NEWS], [Settle(0)], 1, true, true, false),
      1 := Actor([], [OnReceipt(3, [5], "read")], todo, 1, true, false, false)])
  }

  lemma Replaced(states: seq<State>, actions: seq<Action>) returns (longer: seq<State>, more: seq<Action>)
    requires Run(states, actions) && Last(states) == Inside(INSERTED, Program(0, NEWS)[..3], Program(0, NEWS)[3..])
    ensures Run(longer, more) && Last(longer) == Beside(Last(states), [Receipt(1, 3, [5], "read")])
  {
    var x := Actor([], [NEWS], Program(0, NEWS)[3..], 1, true, false, false);
    assert Last(states) == With(Last(states), 0, x);
    longer, more := Turn(states, actions, Stop(0), Last(states), 0, x);
    longer, more := Enters(longer, more, 1, OnReceipt(3, [5], "read"));
  }

  /** A reconnect: the old actor is told to stop inside a message, the new one serves a read
      receipt, and the old one goes on. The message was stored before the read and counts as
      unread after it, with no handler involved. */
  lemma ReconnectMissesAMessage() returns (states: seq<State>, actions: seq<Action>)
    ensures Run(states, actions)
    ensures Last(states).served ==
      [Look(0, THIN), Write(0), Insert(0, 5, 3, false, "", 0), Receipt(1, 3, [5], "read"), Settle(0)]
    ensures 3 in Last(states).tables.chats && Last(states).tables.chats[3].unread == 1
  {
    states, actions := InsideAMessage();
    states, actions := Replaced(states, actions);
    states, actions := Extend(states, actions, Step(1));
    assert Last(states).tables.due == INSERTED.due && Last(states).tables.chats == WRITTEN.chats;
    assert Last(states).actors[0].todo == [Settle(0)];
    states, actions := Extend(states, actions, Step(0));
  }
}
