/** The table of pairing attempts: a browser claims a connect state's entry, any number of its
    polls race to dial, a failed dial drops the entry so that the next poll starts afresh, and
    a sweep drops the stale. Each step is one mutex section of the table, or one step of a
    sync.Once: its look at the done flag, its lock, its second look, the end of its function. */
module LinkRegistry {
  import opened Options

  /** owner: the poll that went through the sync.Once. */
  datatype Dial = NotDialed | Dialing(owner: nat) | Dialed(owner: nat, ok: bool)

  /** once: who holds the mutex inside the sync.Once; its done flag is that the dial is over. */
  datatype Entry = Entry(
    state: nat, browser: nat, dial: Dial, dials: nat, pumps: nat, started: int, once: Option<nat>)

  /** Where one poll of the connect page is. */
  datatype Pc = AtOnce | AtLock | Locked | InDial | MustPump | MustDrop | Gone | TurnedAway

  /** past: it goes on with an entry it saw before its claim, which claimed another. */
  datatype Poll = Poll(entry: nat, browser: nat, pc: Pc, past: bool)

  /** entries: every link ever made; table: the one each connect state has now. */
  datatype State = State(table: map<nat, nat>, entries: map<nat, Entry>, polls: map<nat, Poll>)

  datatype Action =
    | Claim(poll: nat, state: nat, browser: nat, made: nat, now: int)
    | ClaimSeen(poll: nat, seen: nat, browser: nat, made: nat, now: int)
    | Look(poll: nat)
    | LockOnce(poll: nat)
    | LookAgain(poll: nat)
    | DialReturns(poll: nat, ok: bool)
    | Launch(poll: nat)
    | DropFailed(poll: nat)
    | Sweep(state: nat)

  const INIT: State := State(map[], map[], map[])

  predicate At(s: State, p: nat, pc: Pc) {
    p in s.polls && s.polls[p].pc == pc && s.polls[p].entry in s.entries
  }

  predicate Enabled(s: State, a: Action) {
    match a
    case Claim(p, _, _, made, _) => p !in s.polls && made !in s.entries
    case ClaimSeen(p, seen, _, made, _) =>
      p !in s.polls && made !in s.entries && seen in s.entries && s.entries[seen].dial.Dialed?
    case Look(p) => At(s, p, AtOnce)
    case LockOnce(p) => At(s, p, AtLock) && s.entries[s.polls[p].entry].once.None?
    case LookAgain(p) => At(s, p, Locked)
    case DialReturns(p, _) => At(s, p, InDial)
    case Launch(p) => At(s, p, MustPump)
    case DropFailed(p) => At(s, p, MustDrop)
    case Sweep(_) => true
  }

  function Go(s: State, p: nat, pc: Pc): State
    requires p in s.polls
  {
    s.(polls := s.polls[p := s.polls[p].(pc := pc)])
  }

  /** A poll that names no entry creates it; one from another browser is turned away. */
  function Claimed(s: State, a: Action): State
    requires a.Claim?
  {
    if a.state in s.table && s.table[a.state] in s.entries then
      var l := s.table[a.state];
      if s.entries[l].browser == a.browser
      then s.(polls := s.polls[a.poll := Poll(l, a.browser, AtOnce, false)])
      else s.(polls := s.polls[a.poll := Poll(l, a.browser, TurnedAway, false)])
    else
      State(s.table[a.state := a.made],
            s.entries[a.made := Entry(a.state, a.browser, NotDialed, 0, 0, a.now, None)],
            s.polls[a.poll := Poll(a.made, a.browser, AtOnce, false)])
  }

  /** A poll that saw an entry's dial over claims its state for the comparison alone, and goes on
      with what it saw: if that has been dropped meanwhile the claim leaves an inert entry. */
  function ClaimedSeen(s: State, a: Action): State
    requires Enabled(s, a) && a.ClaimSeen?
  {
    var state := s.entries[a.seen].state;
    if state in s.table && s.table[state] in s.entries then
      var l := s.table[state];
      if s.entries[l].browser == a.browser
      then s.(polls := s.polls[a.poll := Poll(a.seen, a.browser, Gone, l != a.seen)])
      else s.(polls := s.polls[a.poll := Poll(l, a.browser, TurnedAway, false)])
    else
      State(s.table[state := a.made],
            s.entries[a.made := Entry(state, a.browser, NotDialed, 0, 0, a.now, None)],
            s.polls[a.poll := Poll(a.seen, a.browser, Gone, true)])
  }

  function Do(s: State, a: Action): State
    requires Enabled(s, a)
  {
    match a
    case Claim(_, _, _, _, _) => Claimed(s, a)
    case ClaimSeen(_, _, _, _, _) => ClaimedSeen(s, a)
    case Look(p) => Go(s, p, if s.entries[s.polls[p].entry].dial.Dialed? then Gone else AtLock)
    case LockOnce(p) =>
      var l := s.polls[p].entry;
      Go(s, p, Locked).(entries := s.entries[l := s.entries[l].(once := Some(p))])
    case LookAgain(p) =>
      var l := s.polls[p].entry;
      var e := s.entries[l];
      if e.dial.Dialed? then Go(s, p, Gone).(entries := s.entries[l := e.(once := None)])
      else Go(s, p, InDial).(entries := s.entries[l := e.(dial := Dialing(p), dials := e.dials + 1)])
    case DialReturns(p, ok) =>
      var l := s.polls[p].entry;
      Go(s, p, if ok then MustPump else MustDrop)
        .(entries := s.entries[l := s.entries[l].(dial := Dialed(p, ok), once := None)])
    case Launch(p) =>
      var l := s.polls[p].entry;
      Go(s, p, Gone).(entries := s.entries[l := s.entries[l].(pumps := s.entries[l].pumps + 1)])
    case DropFailed(p) =>
      var l := s.polls[p].entry;
      var state := s.entries[l].state;
      if state in s.table && s.table[state] == l then Go(s, p, Gone).(table := s.table - {state}) else Go(s, p, Gone)
    case Sweep(state) => s.(table := s.table - {state})
  }

  ghost predicate Run(states: seq<State>, actions: seq<Action>) {
    && |states| == |actions| + 1
    && states[0] == INIT
    && forall i | 0 <= i < |actions| :: Enabled(states[i], actions[i]) && states[i + 1] == Do(states[i], actions[i])
  }

  // ---- what every step keeps ----

  predicate OnceHeld(s: State, l: nat, p: nat) {
    p in s.polls && s.polls[p].entry == l && (s.polls[p].pc.Locked? || s.polls[p].pc.InDial?)
  }

  predicate EntryOk(s: State, l: nat)
    requires l in s.entries
  {
    var e := s.entries[l];
    && e.dials == (if e.dial.NotDialed? then 0 else 1)
    && (!e.dial.NotDialed? ==> e.dial.owner in s.polls && s.polls[e.dial.owner].entry == l)
    && (e.dial.Dialing? ==> s.polls[e.dial.owner].pc.InDial? && e.once == Some(e.dial.owner))
    && (e.once.Some? ==> OnceHeld(s, l, e.once.value))
    && (e.dial.Dialed? ==> s.polls[e.dial.owner].pc == (if !e.dial.ok then s.polls[e.dial.owner].pc
          else if e.pumps == 0 then MustPump else Gone))
    && (e.dial.Dialed? && !e.dial.ok && !s.polls[e.dial.owner].pc.MustDrop? ==>
          s.polls[e.dial.owner].pc.Gone? && !(e.state in s.table && s.table[e.state] == l))
    && e.pumps <= (if e.dial.Dialed? && e.dial.ok then 1 else 0)
  }

  predicate PollOk(s: State, p: nat)
    requires p in s.polls
  {
    var l := s.polls[p].entry;
    && l in s.entries
    && (!s.polls[p].pc.TurnedAway? && !s.polls[p].past ==> s.polls[p].browser == s.entries[l].browser)
    && (s.polls[p].pc.Locked? || s.polls[p].pc.InDial? ==> s.entries[l].once == Some(p))
    && (s.polls[p].pc.InDial? ==> s.entries[l].dial == Dialing(p))
    && (s.polls[p].pc.MustPump? ==> s.entries[l].dial == Dialed(p, true))
    && (s.polls[p].pc.MustDrop? ==> s.entries[l].dial == Dialed(p, false))
  }

  predicate TableOk(s: State, state: nat)
    requires state in s.table
  {
    s.table[state] in s.entries && s.entries[s.table[state]].state == state
  }

  predicate Inv(s: State) {
    && (forall l | l in s.entries :: EntryOk(s, l))
    && (forall p | p in s.polls :: PollOk(s, p))
    && (forall state | state in s.table :: TableOk(s, state))
  }

  /** The step of a poll that has an entry. */
  predicate OfPoll(a: Action) {
    !a.Claim? && !a.ClaimSeen? && !a.Sweep?
  }

  lemma EntryKept(s: State, a: Action, l: nat)
    requires Enabled(s, a) && l in Do(s, a).entries && (l in s.entries ==> EntryOk(s, l))
    requires OfPoll(a) ==> PollOk(s, a.poll)
    requires a.Claim? && a.state in s.table ==> TableOk(s, a.state)
    requires a.ClaimSeen? && s.entries[a.seen].state in s.table ==> TableOk(s, s.entries[a.seen].state)
    ensures EntryOk(Do(s, a), l)
  {
    if InOnce(a) { OnceKept(s, a, l); }
  }

  predicate InOnce(a: Action) {
    a.Look? || a.LockOnce? || a.LookAgain? || a.DialReturns?
  }

  lemma OnceKept(s: State, a: Action, l: nat)
    requires Enabled(s, a) && InOnce(a) && l in s.entries && EntryOk(s, l) && PollOk(s, a.poll)
    ensures EntryOk(Do(s, a), l)
  {
  }

  lemma PollKept(s: State, a: Action, p: nat)
    requires Enabled(s, a) && p in Do(s, a).polls && (p in s.polls ==> PollOk(s, p))
    requires OfPoll(a) ==> PollOk(s, a.poll)
    ensures PollOk(Do(s, a), p)
  {
  }

  lemma TableKept(s: State, a: Action, state: nat)
    requires Enabled(s, a) && state in Do(s, a).table && (state in s.table ==> TableOk(s, state))
    ensures TableOk(Do(s, a), state)
  {
  }

  lemma {:induction false} InvHolds(states: seq<State>, actions: seq<Action>, n: nat)
    requires Run(states, actions) && n < |states|
    ensures Inv(states[n])
  {
    if n > 0 {
      InvHolds(states, actions, n - 1);
      var s, a, s' := states[n - 1], actions[n - 1], states[n];
      assert OfPoll(a) ==> PollOk(s, a.poll);
      assert a.Claim? && a.state in s.table ==> TableOk(s, a.state);
      assert a.ClaimSeen? && s.entries[a.seen].state in s.table ==> TableOk(s, s.entries[a.seen].state);
      forall l | l in s'.entries
        ensures EntryOk(s', l)
      {
        assert l in s.entries ==> EntryOk(s, l);
        EntryKept(s, a, l);
      }
      forall p | p in s'.polls
        ensures PollOk(s', p)
      {
        assert p in s.polls ==> PollOk(s, p);
        PollKept(s, a, p);
      }
      forall state | state in s'.table
        ensures TableOk(s', state)
      {
        assert state in s.table ==> TableOk(s, state);
        TableKept(s, a, state);
      }
    }
  }

  // ---- what a step does to a place, an entry and a poll ----

  /** The connect state a claim is of. */
  function StateOf(s: State, a: Action): nat
    requires Enabled(s, a) && (a.Claim? || a.ClaimSeen?)
  {
    if a.Claim? then a.state else s.entries[a.seen].state
  }

  /** A state's place goes with a sweep of it, and with the failed dial of the entry that has it; a
      claim of an empty place fills it with the entry it makes. */
  lemma PlacesAfter(s: State, a: Action, state: nat)
    requires Inv(s) && Enabled(s, a)
    ensures var t := Do(s, a).table;
      && (state in s.table ==>
            (state !in t <==> a == Sweep(state) || (a.DropFailed? && s.table[state] == s.polls[a.poll].entry)))
      && (state !in s.table ==> (state in t <==> (a.Claim? || a.ClaimSeen?) && StateOf(s, a) == state))
      && (state in t ==> t[state] == if state in s.table then s.table[state] else a.made)
  {
    assert state in s.table ==> TableOk(s, state);
    if OfPoll(a) { assert PollOk(s, a.poll) && EntryOk(s, s.polls[a.poll].entry); }
  }

  /** An entry is made by a claim of an empty place, of that state, of that browser, with nothing
      dialled. */
  lemma EntriesCome(s: State, a: Action, l: nat)
    requires Inv(s) && Enabled(s, a) && l !in s.entries
    ensures l in Do(s, a).entries <==>
      (a.Claim? || a.ClaimSeen?) && a.made == l && StateOf(s, a) !in s.table
    ensures l in Do(s, a).entries ==>
      Do(s, a).entries[l] == Entry(StateOf(s, a), a.browser, NotDialed, 0, 0, a.now, None)
  {
    if a.Claim? || a.ClaimSeen? { assert StateOf(s, a) in s.table ==> TableOk(s, StateOf(s, a)); }
  }

  /** A poll's step is on its own entry: it takes the once, finds the dial over or makes it, gives
      the once back, launches the pump. */
  lemma EntriesAfter(s: State, a: Action, l: nat)
    requires Inv(s) && Enabled(s, a) && l in s.entries
    ensures l in Do(s, a).entries
    ensures var e, e' := s.entries[l], Do(s, a).entries[l];
      var own := OfPoll(a) && s.polls[a.poll].entry == l;
      && e'.state == e.state && e'.browser == e.browser && e'.started == e.started
      && e'.dial == (if own && a.LookAgain? && !e.dial.Dialed? then Dialing(a.poll)
                     else if own && a.DialReturns? then Dialed(a.poll, a.ok) else e.dial)
      && e'.dials == e.dials + (if own && a.LookAgain? && !e.dial.Dialed? then 1 else 0)
      && e'.pumps == e.pumps + (if own && a.Launch? then 1 else 0)
      && e'.once == (if own && a.LockOnce? then Some(a.poll)
                     else if own && (a.DialReturns? || (a.LookAgain? && e.dial.Dialed?)) then None else e.once)
  {
  }

  /** Where a poll's own step takes it, */
  lemma PollsAfter(s: State, a: Action)
    requires Enabled(s, a) && OfPoll(a)
    ensures a.poll in Do(s, a).polls
    ensures var q, q' := s.polls[a.poll], Do(s, a).polls[a.poll];
      var over := s.entries[q.entry].dial.Dialed?;
      && q'.entry == q.entry && q'.browser == q.browser && q'.past == q.past
      && q'.pc == (match a
           case Look(_) => if over then Gone else AtLock
           case LockOnce(_) => Locked
           case LookAgain(_) => if over then Gone else InDial
           case DialReturns(_, ok) => if ok then MustPump else MustDrop
           case _ => Gone)
    ensures forall p | p in s.polls && p != a.poll :: p in Do(s, a).polls && Do(s, a).polls[p] == s.polls[p]
  {
  }

  /** and what its claim makes of it: it goes on with the entry in the place, or with the one it saw,
      if that entry is its own browser's, and is turned away if it is another's. */
  lemma PollsStart(s: State, a: Action)
    requires Inv(s) && Enabled(s, a) && (a.Claim? || a.ClaimSeen?)
    ensures a.poll !in s.polls && a.poll in Do(s, a).polls
    ensures var q, state := Do(s, a).polls[a.poll], StateOf(s, a);
      var other := state in s.table && s.entries[s.table[state]].browser != a.browser;
      && q.browser == a.browser
      && (q.pc == if other then TurnedAway else if a.Claim? then AtOnce else Gone)
      && (q.entry == if other then s.table[state] else if a.ClaimSeen? then a.seen
                     else if state in s.table then s.table[state] else a.made)
    ensures forall p | p in s.polls :: p in Do(s, a).polls && Do(s, a).polls[p] == s.polls[p]
  {
    assert StateOf(s, a) in s.table ==> TableOk(s, StateOf(s, a));
  }

  /** No poll is held up but by the one inside the once. */
  lemma PollsGoOn(s: State, p: nat, ok: bool)
    requires p in s.polls && s.polls[p].entry in s.entries
    ensures match s.polls[p].pc
      case AtOnce => Enabled(s, Look(p))
      case AtLock => Enabled(s, LockOnce(p)) <==> s.entries[s.polls[p].entry].once.None?
      case Locked => Enabled(s, LookAgain(p))
      case InDial => Enabled(s, DialReturns(p, ok))
      case MustPump => Enabled(s, Launch(p))
      case MustDrop => Enabled(s, DropFailed(p))
      case _ => true
  {
  }

  // ---- results over every run ----

  /** However many polls race, an entry dials at most once, and its pump is launched at most
      once, only after a dial that succeeded; when the poll that dialled is done, exactly once. */
  lemma DialsOnce(states: seq<State>, actions: seq<Action>, n: nat, l: nat)
    requires Run(states, actions) && n < |states| && l in states[n].entries
    ensures var e := states[n].entries[l];
      && e.dials <= 1 && e.pumps <= e.dials
      && (e.pumps > 0 ==> e.dial.Dialed? && e.dial.ok)
      && (e.dial.Dialed? && At(states[n], e.dial.owner, Gone) ==> e.pumps == if e.dial.ok then 1 else 0)
  {
    InvHolds(states, actions, n);
    assert EntryOk(states[n], l);
  }

  /** Every poll that got past the claim of the entry it goes on with, done or not, is of one
      browser; a poll goes on with another only if that one left the table before its claim. */
  lemma OneBrowserPerEntry(states: seq<State>, actions: seq<Action>, n: nat, p: nat, q: nat)
    requires Run(states, actions) && n < |states| && p in states[n].polls && q in states[n].polls
    requires states[n].polls[p].entry == states[n].polls[q].entry
    requires !states[n].polls[p].pc.TurnedAway? && !states[n].polls[q].pc.TurnedAway?
    requires !states[n].polls[p].past && !states[n].polls[q].past
    ensures states[n].polls[p].browser == states[n].polls[q].browser
  {
    InvHolds(states, actions, n);
    assert PollOk(states[n], p) && PollOk(states[n], q);
  }

  /** A poll is past exactly when its claim found the entry it saw no longer in its place; it has
      nothing to dial, and an entry its claim makes has been dialled by nobody. */
  lemma PastPolls(s: State, a: Action)
    requires Enabled(s, a) && a.ClaimSeen? && Inv(s)
    ensures var s', state := Do(s, a), s.entries[a.seen].state;
      && !s'.polls[a.poll].pc.AtOnce?
      && (!s'.polls[a.poll].pc.TurnedAway? ==>
            (s'.polls[a.poll].past <==> !(state in s.table && s.table[state] == a.seen)))
      && (a.made in s'.entries ==> s'.entries[a.made].dial.NotDialed? && s'.table[state] == a.made)
  {
    var state := s.entries[a.seen].state;
    assert state in s.table ==> TableOk(s, state);
  }

  /** A failed entry is gone from the table as soon as the poll that dialled is done, so the
      next claim of its state is a fresh start. */
  lemma FailureIsNotReplayed(states: seq<State>, actions: seq<Action>, n: nat, l: nat)
    requires Run(states, actions) && n < |states| && l in states[n].entries
    requires states[n].entries[l].dial.Dialed? && !states[n].entries[l].dial.ok
    requires !At(states[n], states[n].entries[l].dial.owner, MustDrop)
    ensures forall state | state in states[n].table :: states[n].table[state] != l
  {
    InvHolds(states, actions, n);
    assert EntryOk(states[n], l);
    forall state | state in states[n].table
      ensures states[n].table[state] != l
    {
      assert TableOk(states[n], state);
    }
  }

  lemma LosesPlace(s: State, a: Action, state: nat)
    requires Enabled(s, a) && state in s.table && s.table[state] in s.entries
    requires !(state in Do(s, a).table && Do(s, a).table[state] == s.table[state])
    requires OfPoll(a) ==> PollOk(s, a.poll)
    ensures a == Sweep(state) || (a.DropFailed? && s.polls[a.poll].entry == s.table[state] &&
      s.entries[s.table[state]].dial == Dialed(a.poll, false))
  {
  }

  /** An entry loses its place only to a sweep or to its own failed dial: a slow failure never
      drops the newer attempt that took its state over. */
  lemma NewerAttemptSurvives(states: seq<State>, actions: seq<Action>, n: nat, state: nat, l: nat)
    requires Run(states, actions) && n < |actions| && state in states[n].table && states[n].table[state] == l
    requires !(state in states[n + 1].table && states[n + 1].table[state] == l)
    ensures actions[n] == Sweep(state) || (actions[n].DropFailed? && l in states[n].entries &&
      states[n].entries[l].dial == Dialed(actions[n].poll, false))
  {
    InvHolds(states, actions, n);
    var s, a := states[n], actions[n];
    assert TableOk(s, state);
    assert OfPoll(a) ==> PollOk(s, a.poll);
    LosesPlace(s, a, state);
  }

  // ---- the registry's own methods ----

  class Registry {
    var table: map<nat, nat>
    var entries: map<nat, Entry>
    var next: nat

    constructor ()
      ensures table == map[] && entries == map[] && next == 0
    {
      table, entries, next := map[], map[], 0;
    }

    ghost predicate Valid()
      reads this
    {
      && (forall l | l in entries :: l < next)
      && forall state | state in table :: table[state] in entries && entries[table[state]].state == state
    }

    method Claim(state: nat, browser: nat, now: int) returns (l: nat, ok: bool)
      requires Valid()
      modifies this
      ensures Valid() && state in table && table[state] == l
      ensures state in old(table) ==>
        l == old(table[state]) && table == old(table) && entries == old(entries) &&
        ok == (entries[l].browser == browser)
      ensures state !in old(table) ==>
        ok && l !in old(entries) && table == old(table)[state := l] &&
        entries == old(entries)[l := Entry(state, browser, NotDialed, 0, 0, now, None)]
    {
      if state in table {
        l := table[state];
        ok := entries[l].browser == browser;
        return;
      }
      l, ok := next, true;
      entries := entries[l := Entry(state, browser, NotDialed, 0, 0, now, None)];
      table := table[state := l];
      next := next + 1;
    }

    /** Only the entry itself is dropped, never one that has taken its place. */
    method DropFailedEntry(l: nat)
      requires Valid() && l in entries
      modifies `table
      ensures Valid()
      ensures table == if entries[l].state in old(table) && old(table)[entries[l].state] == l
                       then old(table) - {entries[l].state} else old(table)
    {
      var state := entries[l].state;
      if state in table && table[state] == l { table := table - {state}; }
    }

    /** Every entry older than maxAge leaves the table and is handed back to be closed. */
    method SweepOlder(now: int, maxAge: int) returns (stale: set<nat>)
      requires Valid()
      modifies `table
      ensures Valid()
      ensures stale ==
        set state | state in old(table) && now - entries[old(table)[state]].started > maxAge :: old(table)[state]
      ensures table ==
        map state | state in old(table) && now - entries[old(table)[state]].started <= maxAge :: old(table)[state]
    {
      stale := {};
      var todo := table.Keys;
      while todo != {}
        invariant Valid() && todo <= table.Keys && table.Keys <= old(table).Keys
        invariant forall state | state in table :: table[state] == old(table)[state]
        invariant forall state | state in old(table) && state !in todo ::
          state in table <==> now - entries[old(table)[state]].started <= maxAge
        invariant stale == set state | state in old(table) && state !in table :: old(table)[state]
        decreases |todo|
      {
        var state :| state in todo;
        var l := table[state];
        if now - entries[l].started > maxAge {
          stale := stale + {l};
          table := table - {state};
        }
        todo := todo - {state};
      }
    }
  }
}
