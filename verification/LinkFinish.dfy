/** Pairing attempts of many browsers at once, from the session's result to an account that
    names the paired device: the pump that waits for the result or the window's end, the late
    result, finishLink, and ConnectLinked, one store statement or channel operation at a time;
    and beside them the two ways a name is taken away again, DeleteLinked and MarkLoggedOut.
    A device's id is its attempt's, for every pairing mints a new one. */
module LinkFinish {
  import opened LinkSession
  import opened Options

  /** An account id: whose number it was minted for, and which of its mints. */
  datatype Id = Id(number: nat, mint: nat)

  datatype Pc =
    | Selecting
    | AtClose
    | Waiting
    | Finishing
    | LookingUp
    | Upserting(relink: bool, id: Id)
    | Resolving(relink: bool)
    | ReadingOld(relink: bool, id: Id)
    | ForgettingOld(prior: nat, id: Id)
    | Saving(id: Id)
    | Saved(id: Id)
    | Forgetting
    | Over(ok: bool)

  /** number: the number it links. seen: the result finishLink was given. savedAs: the account
      under which it saved its session. The last four fields record what happened, and decide
      nothing. */
  datatype Link = Link(
    number: nat,
    session: Session,
    pc: Pc,
    seen: Option<Result>,
    stored: bool,
    savedAs: Option<Id>,
    lateLost: bool,
    missed: bool,
    overwritten: bool,
    unnamed: bool)

  datatype RemovalPc = Reading | Dropping(prior: nat) | Unnaming | Deleting | Gone

  /** DeleteLinked of an account, if whole, else MarkLoggedOut. read: the device it found named. */
  datatype Removal = Removal(id: Id, whole: bool, pc: RemovalPc, read: Option<nat>)

  /** accounts: the current id of each number that has an account; sessions: the device named by
      each account's session. */
  datatype State = State(
    links: map<nat, Link>,
    removals: map<nat, Removal>,
    devices: set<nat>,
    accounts: map<nat, nat>,
    sessions: map<Id, nat>,
    minted: set<Id>)

  datatype Action =
    | Begin(link: nat, number: nat)
    | Sess(link: nat, event: Event)
    | StoreDevice(link: nat)
    | GetResult(link: nat)
    | WindowElapses(link: nat)
    | CloseReturns(link: nat)
    | LateResult(link: nat)
    | LateTimer(link: nat)
    | TakeState(link: nat, ok: bool)
    | Lookup(link: nat, mint: nat)
    | Upsert(link: nat)
    | Resolve(link: nat)
    | ReadOld(link: nat, readable: bool)
    | ForgetOld(link: nat)
    | Save(link: nat)
    | ConnectFails(link: nat)
    | Connected(link: nat)
    | Forget(link: nat)
    | BeginRemoval(removal: nat, id: Id, whole: bool)
    | ReadName(removal: nat, readable: bool)
    | ForgetNamed(removal: nat)
    | DeleteSession(removal: nat, ok: bool)
    | DeleteAccount(removal: nat, ok: bool)

  const INIT: State := State(map[], map[], {}, map[], map[], {})

  function NewLink(number: nat): Link {
    Link(number, FRESH, Selecting, None, false, None, false, false, false, false)
  }

  predicate OfRemoval(a: Action) {
    a.ReadName? || a.ForgetNamed? || a.DeleteSession? || a.DeleteAccount?
  }

  predicate OfLink(a: Action) {
    !a.Begin? && !a.BeginRemoval? && !OfRemoval(a)
  }

  /** The accounts table has a row with this id. */
  predicate HasAccount(s: State, id: Id) {
    id.number in s.accounts && s.accounts[id.number] == id.mint
  }

  /** Success is only ever reported by the handler that runs after the device is stored; the
      result is received by the pump alone. */
  predicate SessAllowed(k: Link, e: Event) {
    && Allowed(k.session, e)
    && !e.Receive?
    && (e == Win(Paired) ==> k.stored)
  }

  /** A session needs its account's row, as a foreign key; a number looked up in vain gets an id
      not minted before; and ConnectLinked ends by reading its account. */
  predicate StoreAllows(s: State, k: Link, a: Action) {
    && (a.Lookup? ==> k.number in s.accounts || Id(k.number, a.mint) !in s.minted)
    && (a.Resolve? ==> k.number in s.accounts)
    && (a.Save? && k.pc.Saving? ==> HasAccount(s, k.pc.id))
    && (a.Connected? && k.pc.Saved? ==> HasAccount(s, k.pc.id))
  }

  predicate Enabled(s: State, a: Action) {
    if a.Begin? then a.link !in s.links
    else if a.BeginRemoval? then a.removal !in s.removals && HasAccount(s, a.id)
    else if OfRemoval(a) then a.removal in s.removals && RemovalEnabled(s.removals[a.removal], a)
    else a.link in s.links && LinkEnabled(s.links[a.link], a) && StoreAllows(s, s.links[a.link], a)
  }

  predicate RemovalEnabled(r: Removal, a: Action) {
    match a
    case ReadName(_, _) => r.pc.Reading?
    case ForgetNamed(_) => r.pc.Dropping?
    case DeleteSession(_, _) => r.pc.Unnaming?
    case DeleteAccount(_, _) => r.pc.Deleting?
    case _ => false
  }

  predicate LinkEnabled(k: Link, a: Action) {
    match a
    case Sess(_, e) => SessAllowed(k, e)
    case StoreDevice(_) => !k.stored
    case GetResult(_) => k.pc.Selecting? && k.session.buffer.Some?
    case WindowElapses(_) => k.pc.Selecting?
    case CloseReturns(_) => k.pc.AtClose? && k.session.stage.Done?
    case LateResult(_) => k.pc.Waiting? && k.session.buffer.Some?
    case LateTimer(_) => k.pc.Waiting?
    case TakeState(_, _) => k.pc.Finishing?
    case Lookup(_, _) => k.pc.LookingUp?
    case Upsert(_) => k.pc.Upserting?
    case Resolve(_) => k.pc.Resolving?
    case ReadOld(_, _) => k.pc.ReadingOld?
    case ForgetOld(_) => k.pc.ForgettingOld?
    case Save(_) => k.pc.Saving?
    case ConnectFails(_) => Connecting(k.pc)
    case Connected(_) => k.pc.Saved?
    case Forget(_) => k.pc.Forgetting?
    case _ => false
  }

  /** Between ConnectLinked's look at the accounts and its save. */
  predicate InConnect(pc: Pc) {
    pc.Upserting? || pc.Resolving? || pc.ReadingOld? || pc.ForgettingOld? || pc.Saving?
  }

  predicate Connecting(pc: Pc) {
    pc.LookingUp? || InConnect(pc) || pc.Saved?
  }

  /** The session's winner was a failure, and it has deleted what device there was. */
  predicate Discarded(s: Session) {
    s.winner.Some? && s.winner.value != Paired && (s.stage.Cleaned? || s.stage.Done?)
  }

  /** The attempt's own record after its step. */
  function Moved(s: State, k: Link, a: Action): Link
    requires LinkEnabled(k, a) && StoreAllows(s, k, a)
  {
    match a
    case Sess(_, e) => k.(session := Next(k.session, e))
    case StoreDevice(_) => k.(stored := true, missed := Discarded(k.session))
    case GetResult(_) => k.(pc := Finishing, seen := k.session.buffer, session := Next(k.session, Receive))
    case WindowElapses(_) => k.(pc := AtClose)
    case CloseReturns(_) => k.(pc := Waiting)
    case LateResult(_) =>
      var late := if k.session.buffer == Some(Paired) then Paired else Expired;
      k.(pc := Finishing, seen := Some(late), session := Next(k.session, Receive))
    case LateTimer(_) => k.(pc := Finishing, seen := Some(Expired), lateLost := k.session.buffer == Some(Paired))
    case TakeState(_, ok) =>
      if k.seen != Some(Paired) then k.(pc := Over(false))
      else k.(pc := if ok then LookingUp else Forgetting)
    case Lookup(_, mint) =>
      k.(pc := if k.number in s.accounts then Upserting(true, Id(k.number, s.accounts[k.number]))
               else Upserting(false, Id(k.number, mint)))
    case Upsert(_) => k.(pc := Resolving(k.pc.relink))
    case Resolve(_) => k.(pc := ReadingOld(k.pc.relink, Id(k.number, s.accounts[k.number])))
    case ReadOld(l, readable) =>
      var id := k.pc.id;
      k.(pc := if k.pc.relink && readable && id in s.sessions && s.sessions[id] != l
               then ForgettingOld(s.sessions[id], id) else Saving(id))
    case ForgetOld(_) => k.(pc := Saving(k.pc.id))
    case Save(_) => k.(pc := Saved(k.pc.id), savedAs := Some(k.pc.id))
    case ConnectFails(_) => k.(pc := Forgetting)
    case Connected(_) => k.(pc := Over(true))
    case Forget(_) => k.(pc := Over(false))
    case _ => k
  }

  function Devices(s: State, k: Link, a: Action): set<nat>
    requires LinkEnabled(k, a)
  {
    match a
    case StoreDevice(l) => s.devices + {l}
    case Sess(l, e) =>
      if e.Clean? && k.session.winner != Some(Paired) then s.devices - {l} else s.devices
    case ForgetOld(_) => s.devices - {k.pc.prior}
    case Forget(l) => s.devices - {l}
    case _ => s.devices
  }

  /** A save marks the attempt whose device it leaves without a name. */
  function Marked(s: State, k: Link, a: Action): map<nat, Link>
    requires LinkEnabled(k, a)
  {
    if a.Save? && k.pc.id in s.sessions && s.sessions[k.pc.id] != a.link && s.sessions[k.pc.id] in s.links
    then s.links[s.sessions[k.pc.id] := s.links[s.sessions[k.pc.id]].(overwritten := true)]
    else s.links
  }

  function DoLink(s: State, a: Action): State
    requires OfLink(a) && Enabled(s, a)
  {
    var k := s.links[a.link];
    State(Marked(s, k, a)[a.link := Moved(s, k, a)],
          s.removals,
          Devices(s, k, a),
          if a.Upsert? && k.number !in s.accounts then s.accounts[k.number := k.pc.id.mint] else s.accounts,
          if a.Save? then s.sessions[k.pc.id := a.link] else s.sessions,
          if a.Lookup? && k.number !in s.accounts then s.minted + {Id(k.number, a.mint)} else s.minted)
  }

  /** A failed DeleteChatSession ends DeleteLinked and is ignored by MarkLoggedOut; DeleteAccount
      takes the session with the account. */
  function RemovalMoved(s: State, r: Removal, a: Action): Removal
    requires RemovalEnabled(r, a)
  {
    match a
    case ReadName(_, readable) =>
      if readable && r.id in s.sessions
      then r.(pc := Dropping(s.sessions[r.id]), read := Some(s.sessions[r.id]))
      else r.(pc := Unnaming)
    case ForgetNamed(_) => r.(pc := Unnaming)
    case DeleteSession(_, ok) => r.(pc := if r.whole && ok then Deleting else Gone)
    case _ => r.(pc := Gone)
  }

  /** The step takes the account's session away. */
  predicate TakesName(s: State, r: Removal, a: Action) {
    r.id in s.sessions && ((a.DeleteSession? && a.ok) || (a.DeleteAccount? && a.ok && HasAccount(s, r.id)))
  }

  /** A removal marks the attempt whose device it leaves without a name, unread. */
  function Unmarked(s: State, r: Removal, a: Action): map<nat, Link> {
    if TakesName(s, r, a) && s.sessions[r.id] in s.links && r.read != Some(s.sessions[r.id])
    then s.links[s.sessions[r.id] := s.links[s.sessions[r.id]].(unnamed := true)]
    else s.links
  }

  function DoRemoval(s: State, a: Action): State
    requires OfRemoval(a) && Enabled(s, a)
  {
    var r := s.removals[a.removal];
    State(Unmarked(s, r, a),
          s.removals[a.removal := RemovalMoved(s, r, a)],
          if a.ForgetNamed? then s.devices - {r.pc.prior} else s.devices,
          if a.DeleteAccount? && a.ok && HasAccount(s, r.id) then s.accounts - {r.id.number} else s.accounts,
          if TakesName(s, r, a) then s.sessions - {r.id} else s.sessions,
          s.minted)
  }

  function Do(s: State, a: Action): State
    requires Enabled(s, a)
  {
    if a.Begin? then s.(links := s.links[a.link := NewLink(a.number)])
    else if a.BeginRemoval? then s.(removals := s.removals[a.removal := Removal(a.id, a.whole, Reading, None)])
    else if OfRemoval(a) then DoRemoval(s, a)
    else DoLink(s, a)
  }

  ghost predicate Steps(states: seq<State>, actions: seq<Action>) {
    && |states| == |actions| + 1
    && states[0] == INIT
    && forall i | 0 <= i < |actions| :: Enabled(states[i], actions[i]) && states[i + 1] == Do(states[i], actions[i])
  }

  // ---- what one attempt keeps, on its own ----

  /** The pump has handed a result to finishLink. */
  predicate PastPump(pc: Pc) {
    !pc.Selecting? && !pc.AtClose? && !pc.Waiting?
  }

  predicate PumpOk(k: Link) {
    && SessionOk(k.session)
    && (k.seen.Some? <==> PastPump(k.pc))
    && (k.seen.Some? ==> k.session.stage.Done?)
    && (k.seen.Some? ==> (k.seen.value == Paired <==> k.session.winner == Some(Paired) && !k.lateLost))
    && (k.seen.None? && k.session.stage.Done? ==> k.session.buffer == k.session.winner)
    && (k.pc.Waiting? ==> k.session.stage.Done?)
    && (k.lateLost ==> k.seen == Some(Expired) && k.session.winner == Some(Paired))
    && (k.session.winner == Some(Paired) ==> k.stored)
    && (Connecting(k.pc) || k.pc.Forgetting? || k.pc == Over(true) ==> k.seen == Some(Paired))
    && (k.missed ==> k.stored && Discarded(k.session))
  }

  lemma PumpKept(s: State, k: Link, a: Action)
    requires PumpOk(k) && LinkEnabled(k, a) && StoreAllows(s, k, a)
    ensures PumpOk(Moved(s, k, a))
    ensures k.seen.Some? ==> Moved(s, k, a).seen == k.seen
  {
    if a.Sess? {
      LockKept(k.session, a.event);
      ResultKept(k.session, a.event);
    } else if a.GetResult? || a.LateResult? {
      LockKept(k.session, Receive);
      ResultKept(k.session, Receive);
    }
  }

  // ---- the tables ----

  predicate Names(s: State, l: nat)
    requires l in s.links
  {
    var id := s.links[l].savedAs;
    id.Some? && id.value in s.sessions && s.sessions[id.value] == l
  }

  predicate RowOk(s: State, id: Id)
    requires id in s.sessions
  {
    HasAccount(s, id) && s.sessions[id] in s.links && s.links[s.sessions[id]].savedAs == Some(id)
  }

  predicate PastSave(k: Link) {
    k.seen == Some(Paired) && (k.pc.Saved? || k.pc.Forgetting? || k.pc.Over?)
  }

  predicate IdOk(k: Link) {
    && (k.pc.Upserting? ==> k.pc.id.number == k.number)
    && (k.pc.ReadingOld? ==> k.pc.id.number == k.number)
    && (k.pc.ForgettingOld? ==> k.pc.id.number == k.number)
    && (k.pc.Saving? ==> k.pc.id.number == k.number)
    && (k.savedAs.Some? ==> PastSave(k) && k.savedAs.value.number == k.number)
    && (k.pc.Saved? || k.pc == Over(true) ==> k.savedAs.Some?)
    && (k.overwritten || k.unnamed ==> k.savedAs.Some?)
  }

  predicate DeviceOk(s: State, l: nat)
    requires l in s.links
  {
    var k := s.links[l];
    && (l in s.devices ==> k.stored)
    && (l in s.devices && Discarded(k.session) ==> k.missed)
    && IdOk(k)
    && (Names(s, l) ==> !k.overwritten && !k.unnamed)
    && (k.savedAs.Some? && l in s.devices && !k.overwritten && !k.unnamed ==> Names(s, l))
    && (k.pc == Over(false) && k.seen == Some(Paired) ==> l !in s.devices)
  }

  /** A device that will not be registered again. */
  predicate Known(s: State, l: nat) {
    l in s.links && s.links[l].stored
  }

  /** What a removal has read is a stored device, and forgotten once it goes on. */
  predicate RemovalOk(s: State, d: nat)
    requires d in s.removals
  {
    var r := s.removals[d];
    && (r.pc.Reading? ==> r.read.None?)
    && (r.pc.Dropping? ==> r.read == Some(r.pc.prior))
    && (r.read.Some? ==> Known(s, r.read.value))
    && (r.read.Some? && !r.pc.Dropping? ==> r.read.value !in s.devices)
  }

  ghost predicate Inv(s: State) {
    && (forall l | l in s.links :: PumpOk(s.links[l]) && DeviceOk(s, l))
    && (forall id | id in s.sessions :: RowOk(s, id))
    && (forall d | d in s.removals :: RemovalOk(s, d))
    && s.devices <= s.links.Keys
  }

  /** One of an attempt's own steps after its beginning. */
  predicate Acts(s: State, a: Action) {
    OfLink(a) && Enabled(s, a)
  }

  predicate Overwrites(s: State, a: Action, l: nat) {
    && a.Save? && Enabled(s, a) && a.link != l
    && s.links[a.link].pc.id in s.sessions && s.sessions[s.links[a.link].pc.id] == l
  }

  /** A removal takes l's name without having read it. */
  predicate Unnames(s: State, a: Action, l: nat) {
    && OfRemoval(a) && Enabled(s, a)
    && TakesName(s, s.removals[a.removal], a)
    && s.sessions[s.removals[a.removal].id] == l
    && s.removals[a.removal].read != Some(l)
  }

  function SessionsAfter(s: State, a: Action): map<Id, nat>
    requires Acts(s, a)
  {
    if a.Save? then s.sessions[s.links[a.link].pc.id := a.link] else s.sessions
  }

  /** Another attempt's step can only overwrite this one's session row or forget its device. */
  lemma OthersFrame(s: State, a: Action, l: nat)
    requires Acts(s, a) && l in s.links && l != a.link
    ensures Do(s, a).links[l] == if Overwrites(s, a, l) then s.links[l].(overwritten := true) else s.links[l]
    ensures l in Do(s, a).devices <==> l in s.devices && !(a.ForgetOld? && s.links[a.link].pc.prior == l)
    ensures Do(s, a).sessions == SessionsAfter(s, a)
  {
  }

  lemma OtherKept(s: State, a: Action, l: nat)
    requires Acts(s, a) && l in s.links && l != a.link && DeviceOk(s, l) && PumpOk(s.links[l])
    requires Overwrites(s, a, l) ==> s.links[l].savedAs == Some(s.links[a.link].pc.id)
    ensures DeviceOk(Do(s, a), l) && PumpOk(Do(s, a).links[l])
  {
    OthersFrame(s, a, l);
  }

  /** The attempt's own step deletes its own device. */
  predicate Deletes(s: State, a: Action)
    requires Acts(s, a)
  {
    || a.Forget?
    || (a.ForgetOld? && s.links[a.link].pc.prior == a.link)
    || (a.Sess? && a.event.Clean? && s.links[a.link].session.winner != Some(Paired))
  }

  lemma OwnFrame(s: State, a: Action)
    requires Acts(s, a)
    ensures Do(s, a).links[a.link] == Moved(s, s.links[a.link], a)
    ensures a.link in Do(s, a).devices <==> a.StoreDevice? || (a.link in s.devices && !Deletes(s, a))
    ensures Do(s, a).sessions == SessionsAfter(s, a)
  {
  }

  lemma IdKept(s: State, k: Link, a: Action)
    requires IdOk(k) && PumpOk(k) && LinkEnabled(k, a) && StoreAllows(s, k, a)
    ensures IdOk(Moved(s, k, a))
  {
  }

  lemma OwnKept(s: State, a: Action)
    requires Acts(s, a) && DeviceOk(s, a.link) && PumpOk(s.links[a.link])
    ensures DeviceOk(Do(s, a), a.link) && PumpOk(Do(s, a).links[a.link])
  {
    OwnFrame(s, a);
    PumpKept(s, s.links[a.link], a);
    IdKept(s, s.links[a.link], a);
  }

  lemma BeginFrame(s: State, a: Action)
    requires Enabled(s, a) && a.Begin?
    ensures Do(s, a).(links := s.links) == s
    ensures Do(s, a).links == s.links[a.link := NewLink(a.number)] && a.link !in s.links
  {
  }

  lemma NewKept(s: State, a: Action)
    requires Inv(s) && Enabled(s, a) && a.Begin?
    ensures DeviceOk(Do(s, a), a.link) && PumpOk(Do(s, a).links[a.link])
    ensures forall l | l in s.links :: DeviceOk(Do(s, a), l) && PumpOk(Do(s, a).links[l])
  {
    BeginFrame(s, a);
    forall l | l in s.links
      ensures DeviceOk(Do(s, a), l) && PumpOk(Do(s, a).links[l])
    {
      assert DeviceOk(s, l) && PumpOk(s.links[l]);
    }
  }

  /** What a removal's step leaves of an attempt. */
  lemma RemovalFrame(s: State, a: Action, l: nat)
    requires OfRemoval(a) && Enabled(s, a) && l in s.links
    ensures Do(s, a).links.Keys == s.links.Keys
    ensures Do(s, a).links[l] == if Unnames(s, a, l) then s.links[l].(unnamed := true) else s.links[l]
    ensures l in Do(s, a).devices <==>
      l in s.devices && !(a.ForgetNamed? && s.removals[a.removal].pc.prior == l)
    ensures Do(s, a).sessions ==
      if TakesName(s, s.removals[a.removal], a) then s.sessions - {s.removals[a.removal].id} else s.sessions
  {
  }

  lemma UnnamedKept(s: State, a: Action, l: nat)
    requires OfRemoval(a) && Enabled(s, a) && l in s.links && DeviceOk(s, l) && PumpOk(s.links[l])
    requires RemovalOk(s, a.removal)
    requires TakesName(s, s.removals[a.removal], a) ==> RowOk(s, s.removals[a.removal].id)
    ensures DeviceOk(Do(s, a), l) && PumpOk(Do(s, a).links[l])
  {
    RemovalFrame(s, a, l);
  }

  lemma NoNewLinks(s: State, a: Action)
    requires Enabled(s, a) && !a.Begin?
    ensures Do(s, a).links.Keys == s.links.Keys
  {
  }

  predicate LinkOk(s: State, l: nat) {
    l in s.links && PumpOk(s.links[l]) && DeviceOk(s, l)
  }

  lemma LinkKeptByLink(s: State, a: Action, l: nat)
    requires Inv(s) && Acts(s, a) && LinkOk(s, l)
    ensures LinkOk(Do(s, a), l)
  {
    NoNewLinks(s, a);
    if l == a.link {
      OwnKept(s, a);
    } else {
      if Overwrites(s, a, l) { assert RowOk(s, s.links[a.link].pc.id); }
      OtherKept(s, a, l);
    }
  }

  lemma LinkKeptByRemoval(s: State, a: Action, l: nat)
    requires Inv(s) && OfRemoval(a) && Enabled(s, a) && LinkOk(s, l)
    ensures LinkOk(Do(s, a), l)
  {
    NoNewLinks(s, a);
    assert RemovalOk(s, a.removal);
    UnnamedKept(s, a, l);
  }

  lemma LinksKept(s: State, a: Action, l: nat)
    requires Inv(s) && Enabled(s, a) && l in Do(s, a).links
    ensures LinkOk(Do(s, a), l)
  {
    if a.Begin? {
      NewKept(s, a);
    } else {
      NoNewLinks(s, a);
      assert PumpOk(s.links[l]) && DeviceOk(s, l);
      if OfRemoval(a) { LinkKeptByRemoval(s, a, l); } else if OfLink(a) { LinkKeptByLink(s, a, l); }
    }
  }

  lemma RowKeptByLink(s: State, a: Action, id: Id)
    requires Acts(s, a) && id in Do(s, a).sessions && DeviceOk(s, a.link) && PumpOk(s.links[a.link])
    requires id in s.sessions ==> RowOk(s, id)
    ensures RowOk(Do(s, a), id)
  {
    OwnFrame(s, a);
    if id in s.sessions && s.sessions[id] != a.link { OthersFrame(s, a, s.sessions[id]); }
  }

  lemma RowKeptByRemoval(s: State, a: Action, id: Id)
    requires OfRemoval(a) && Enabled(s, a) && id in Do(s, a).sessions && id in s.sessions && RowOk(s, id)
    ensures RowOk(Do(s, a), id)
  {
    RemovalFrame(s, a, s.sessions[id]);
  }

  lemma RowKept(s: State, a: Action, id: Id)
    requires Inv(s) && Enabled(s, a) && id in Do(s, a).sessions
    ensures RowOk(Do(s, a), id)
  {
    if OfLink(a) {
      assert PumpOk(s.links[a.link]) && DeviceOk(s, a.link);
      RowKeptByLink(s, a, id);
    } else if OfRemoval(a) {
      assert RowOk(s, id);
      RowKeptByRemoval(s, a, id);
    } else {
      assert RowOk(s, id);
      if a.Begin? { BeginFrame(s, a); }
    }
  }

  lemma KnownStays(s: State, a: Action, l: nat)
    requires Enabled(s, a) && Known(s, l)
    ensures Known(Do(s, a), l)
    ensures l !in s.devices ==> l !in Do(s, a).devices
  {
    if OfRemoval(a) {
      RemovalFrame(s, a, l);
    } else if OfLink(a) {
      if l == a.link { OwnFrame(s, a); } else { OthersFrame(s, a, l); }
    }
  }

  lemma NamedIsKnown(s: State, id: Id)
    requires Inv(s) && id in s.sessions
    ensures Known(s, s.sessions[id])
  {
    assert RowOk(s, id);
    assert DeviceOk(s, s.sessions[id]) && PumpOk(s.links[s.sessions[id]]);
  }

  lemma OwnRemovalKept(s: State, a: Action)
    requires OfRemoval(a) && Enabled(s, a) && RemovalOk(s, a.removal)
    requires a.ReadName? && s.removals[a.removal].id in s.sessions ==> Known(s, s.sessions[s.removals[a.removal].id])
    ensures RemovalOk(Do(s, a), a.removal)
  {
    var r := s.removals[a.removal];
    assert Do(s, a).removals[a.removal] == RemovalMoved(s, r, a);
    if r.read.Some? { KnownStays(s, a, r.read.value); }
    if a.ReadName? && r.id in s.sessions { KnownStays(s, a, s.sessions[r.id]); }
  }

  lemma OtherRemovalKept(s: State, a: Action, d: nat)
    requires Enabled(s, a) && d in s.removals && RemovalOk(s, d) && !(OfRemoval(a) && a.removal == d)
    ensures d in Do(s, a).removals && Do(s, a).removals[d] == s.removals[d]
    ensures RemovalOk(Do(s, a), d)
  {
    var r := s.removals[d];
    if r.read.Some? { KnownStays(s, a, r.read.value); }
  }

  lemma RemovalKept(s: State, a: Action, d: nat)
    requires Inv(s) && Enabled(s, a) && d in Do(s, a).removals
    ensures RemovalOk(Do(s, a), d)
  {
    if d in s.removals {
      assert RemovalOk(s, d);
      if OfRemoval(a) && a.removal == d {
        if s.removals[d].id in s.sessions { NamedIsKnown(s, s.removals[d].id); }
        OwnRemovalKept(s, a);
      } else {
        OtherRemovalKept(s, a, d);
      }
    }
  }

  lemma StepKeeps(s: State, a: Action)
    requires Inv(s) && Enabled(s, a)
    ensures Inv(Do(s, a))
  {
    var s' := Do(s, a);
    forall id | id in s'.sessions ensures RowOk(s', id) { RowKept(s, a, id); }
    forall l | l in s'.links ensures LinkOk(s', l) { LinksKept(s, a, l); }
    forall d | d in s'.removals ensures RemovalOk(s', d) { RemovalKept(s, a, d); }
  }

  lemma {:induction false} InvHolds(states: seq<State>, actions: seq<Action>, n: nat)
    requires Steps(states, actions) && n < |states|
    ensures Inv(states[n])
  {
    if n > 0 {
      InvHolds(states, actions, n - 1);
      StepKeeps(states[n - 1], actions[n - 1]);
    }
  }

  // ---- results over every run ----

  /** Once a result is in finishLink's hands, it is the winning resolve's: success exactly when
      that was a success, unless the late timer gave up on a success already delivered. */
  lemma FinishSeesTheWinner(states: seq<State>, actions: seq<Action>, n: nat, l: nat)
    requires Steps(states, actions) && n < |states| && l in states[n].links && states[n].links[l].seen.Some?
    ensures var k := states[n].links[l];
      k.session.stage.Done? && (k.seen == Some(Paired) <==> k.session.winner == Some(Paired) && !k.lateLost)
  {
    InvHolds(states, actions, n);
    assert PumpOk(states[n].links[l]);
  }

  /** The step at which the pump's own timer beats a success. */
  predicate LosesLate(s: State, a: Action, l: nat) {
    a == LateTimer(l) && l in s.links && s.links[l].session.buffer == Some(Paired)
  }

  lemma MovedLate(s: State, k: Link, a: Action)
    requires PumpOk(k) && LinkEnabled(k, a) && StoreAllows(s, k, a)
    ensures Moved(s, k, a).lateLost <==> k.lateLost || (a.LateTimer? && k.session.buffer == Some(Paired))
  {
  }

  lemma MovedSeen(s: State, k: Link, a: Action)
    requires PumpOk(k) && LinkEnabled(k, a) && StoreAllows(s, k, a)
    ensures Moved(s, k, a).seen.Some? <==> k.seen.Some? || a.GetResult? || a.LateResult? || a.LateTimer?
    ensures k.seen.Some? ==> !a.GetResult? && !a.LateResult? && !a.LateTimer?
  {
  }

  lemma OwnLate(s: State, a: Action)
    requires Acts(s, a) && PumpOk(s.links[a.link])
    ensures a.link in Do(s, a).links
    ensures Do(s, a).links[a.link].lateLost <==> s.links[a.link].lateLost || LosesLate(s, a, a.link)
  {
    OwnFrame(s, a);
    MovedLate(s, s.links[a.link], a);
  }

  /** What a step that is not its own leaves of an attempt's record. */
  lemma RecordKept(s: State, a: Action, l: nat)
    requires Enabled(s, a) && l in s.links && !(OfLink(a) && l == a.link)
    ensures l in Do(s, a).links
    ensures Do(s, a).links[l].lateLost == s.links[l].lateLost && Do(s, a).links[l].seen == s.links[l].seen
  {
    if a.Begin? {
      BeginFrame(s, a);
    } else if OfRemoval(a) {
      RemovalFrame(s, a, l);
    } else if OfLink(a) {
      OthersFrame(s, a, l);
    }
  }

  lemma NewRecord(s: State, a: Action, l: nat)
    requires Enabled(s, a) && l !in s.links
    ensures l in Do(s, a).links ==> !Do(s, a).links[l].lateLost && Do(s, a).links[l].seen.None?
    ensures !HandsOver(a, l)
  {
    if a.Begin? { BeginFrame(s, a); } else { NoNewLinks(s, a); }
  }

  lemma LateStep(s: State, a: Action, l: nat)
    requires Inv(s) && Enabled(s, a)
    ensures l in Do(s, a).links && Do(s, a).links[l].lateLost <==>
      (l in s.links && s.links[l].lateLost) || LosesLate(s, a, l)
  {
    if l !in s.links {
      NewRecord(s, a, l);
    } else if OfLink(a) && a.link == l {
      assert PumpOk(s.links[l]);
      OwnLate(s, a);
    } else {
      RecordKept(s, a, l);
    }
  }

  lemma {:induction false} LateIsLost(states: seq<State>, actions: seq<Action>, n: nat, l: nat)
    requires Steps(states, actions) && n < |states|
    ensures l in states[n].links && states[n].links[l].lateLost <==>
      exists i | 0 <= i < n :: LosesLate(states[i], actions[i], l)
  {
    if n > 0 {
      var m := n - 1;
      LateIsLost(states, actions, m, l);
      InvHolds(states, actions, m);
      LateStep(states[m], actions[m], l);
      assert states[n] == Do(states[m], actions[m]);
    }
  }

  /** That happens only when the second is over before the pump looks at a result which has
      been there all along: whenever it waits, the result has been delivered. */
  lemma LateLostExactly(states: seq<State>, actions: seq<Action>, n: nat, l: nat)
    requires Steps(states, actions) && n < |states|
    ensures l in states[n].links && states[n].links[l].lateLost <==>
      exists i | 0 <= i < n :: LosesLate(states[i], actions[i], l)
    ensures l in states[n].links && states[n].links[l].pc.Waiting? ==> Enabled(states[n], LateResult(l))
  {
    LateIsLost(states, actions, n, l);
    InvHolds(states, actions, n);
    assert l in states[n].links ==> PumpOk(states[n].links[l]);
  }

  predicate HandsOver(a: Action, l: nat) {
    (a.GetResult? || a.LateResult? || a.LateTimer?) && a.link == l
  }

  predicate Seen(s: State, l: nat) {
    l in s.links && s.links[l].seen.Some?
  }

  lemma OwnSeen(s: State, a: Action)
    requires Acts(s, a) && PumpOk(s.links[a.link])
    ensures Seen(Do(s, a), a.link) <==> Seen(s, a.link) || HandsOver(a, a.link)
    ensures !(Seen(s, a.link) && HandsOver(a, a.link))
  {
    OwnFrame(s, a);
    MovedSeen(s, s.links[a.link], a);
  }

  lemma SeenStep(s: State, a: Action, l: nat)
    requires Inv(s) && Enabled(s, a)
    ensures Seen(Do(s, a), l) <==> Seen(s, l) || HandsOver(a, l)
    ensures !(Seen(s, l) && HandsOver(a, l))
  {
    if l !in s.links {
      NewRecord(s, a, l);
    } else if OfLink(a) && a.link == l {
      assert PumpOk(s.links[l]);
      OwnSeen(s, a);
    } else {
      RecordKept(s, a, l);
    }
  }

  function HandOvers(actions: seq<Action>, n: nat, l: nat): nat
    requires n <= |actions|
  {
    if n == 0 then 0 else HandOvers(actions, n - 1, l) + if HandsOver(actions[n - 1], l) then 1 else 0
  }

  lemma {:induction false} HandOversAreSeen(states: seq<State>, actions: seq<Action>, n: nat, l: nat)
    requires Steps(states, actions) && n < |states|
    ensures HandOvers(actions, n, l) == if Seen(states[n], l) then 1 else 0
  {
    if n > 0 {
      var m := n - 1;
      HandOversAreSeen(states, actions, m, l);
      InvHolds(states, actions, m);
      SeenStep(states[m], actions[m], l);
      assert states[n] == Do(states[m], actions[m]);
    }
  }

  /** finishLink runs at most once for an attempt, and has run exactly once when its pump is done. */
  lemma FinishesOnce(states: seq<State>, actions: seq<Action>, n: nat, l: nat)
    requires Steps(states, actions) && n < |states|
    ensures HandOvers(actions, n, l) == if Seen(states[n], l) then 1 else 0
    ensures l in states[n].links && PastPump(states[n].links[l].pc) ==> HandOvers(actions, n, l) == 1
  {
    HandOversAreSeen(states, actions, n, l);
    InvHolds(states, actions, n);
    assert l in states[n].links ==> PumpOk(states[n].links[l]);
  }

  /** The step that stores the device after the failing session looked for it. */
  predicate StoresTooLate(s: State, a: Action, l: nat) {
    a == StoreDevice(l) && l in s.links && Discarded(s.links[l].session)
  }

  /** The three records of l change with the three races alone. */
  predicate RacesMove(s: State, a: Action, l: nat)
    requires Enabled(s, a) && l in s.links
  {
    && l in Do(s, a).links
    && var k, k' := s.links[l], Do(s, a).links[l];
    && (k'.missed <==> k.missed || StoresTooLate(s, a, l))
    && (k'.overwritten <==> k.overwritten || Overwrites(s, a, l))
    && (k'.unnamed <==> k.unnamed || Unnames(s, a, l))
  }

  lemma OwnRace(s: State, a: Action)
    requires Acts(s, a) && PumpOk(s.links[a.link])
    ensures RacesMove(s, a, a.link)
  {
    OwnFrame(s, a);
  }

  lemma RemovalRace(s: State, a: Action, l: nat)
    requires OfRemoval(a) && Enabled(s, a) && l in s.links
    ensures RacesMove(s, a, l)
  {
    RemovalFrame(s, a, l);
  }

  lemma OtherRace(s: State, a: Action, l: nat)
    requires Acts(s, a) && l in s.links && l != a.link
    ensures RacesMove(s, a, l)
  {
    OthersFrame(s, a, l);
  }

  lemma StartRace(s: State, a: Action, l: nat)
    requires Enabled(s, a) && (a.Begin? || a.BeginRemoval?) && l in s.links
    ensures RacesMove(s, a, l)
  {
  }

  lemma RaceStep(s: State, a: Action, l: nat)
    requires Inv(s) && Enabled(s, a) && l in s.links
    ensures RacesMove(s, a, l)
  {
    if a.Begin? || a.BeginRemoval? {
      StartRace(s, a, l);
    } else if OfRemoval(a) {
      RemovalRace(s, a, l);
    } else if l != a.link {
      OtherRace(s, a, l);
    } else {
      assert PumpOk(s.links[l]);
      OwnRace(s, a);
    }
  }

  lemma NewRace(s: State, a: Action, l: nat)
    requires Enabled(s, a) && l !in s.links && l in Do(s, a).links
    ensures !Do(s, a).links[l].missed && !Do(s, a).links[l].overwritten && !Do(s, a).links[l].unnamed
  {
    if !a.Begin? { NoNewLinks(s, a); }
  }

  lemma NothingYet(s: State, a: Action, l: nat)
    requires Inv(s) && l !in s.links
    ensures !StoresTooLate(s, a, l) && !Overwrites(s, a, l) && !Unnames(s, a, l)
  {
    assert forall id | id in s.sessions :: RowOk(s, id);
  }

  /** The other three races are single steps of the run as well. */
  lemma {:induction false} RacesExactly(states: seq<State>, actions: seq<Action>, n: nat, l: nat)
    requires Steps(states, actions) && n < |states|
    ensures l in states[n].links && states[n].links[l].missed <==>
      exists i | 0 <= i < n :: StoresTooLate(states[i], actions[i], l)
    ensures l in states[n].links && states[n].links[l].overwritten <==>
      exists i | 0 <= i < n :: Overwrites(states[i], actions[i], l)
    ensures l in states[n].links && states[n].links[l].unnamed <==>
      exists i | 0 <= i < n :: Unnames(states[i], actions[i], l)
  {
    if n > 0 {
      RacesExactly(states, actions, n - 1, l);
      InvHolds(states, actions, n - 1);
      if l in states[n - 1].links {
        RaceStep(states[n - 1], actions[n - 1], l);
      } else {
        NothingYet(states[n - 1], actions[n - 1], l);
        if l in states[n].links { NewRace(states[n - 1], actions[n - 1], l); }
      }
    }
  }

  /** Some account's session names the device. */
  ghost predicate Named(s: State, l: nat) {
    exists id | id in s.sessions :: s.sessions[id] == l
  }

  /** When an attempt is over and its device is registered, an account session names that
      device, except after exactly four races: the late timer beat a delivered success, the
      device was stored after the failing session had looked for it, a later ConnectLinked of
      the same account saved over the session, or a deletion or logout took the name without
      having read it. */
  lemma RegisteredIsNamed(states: seq<State>, actions: seq<Action>, n: nat, l: nat)
    requires Steps(states, actions) && n < |states|
    requires l in states[n].links && states[n].links[l].pc.Over? && l in states[n].devices
    ensures var k := states[n].links[l];
      Named(states[n], l) <==> !k.lateLost && !k.missed && !k.overwritten && !k.unnamed
  {
    InvHolds(states, actions, n);
    var s := states[n];
    assert PumpOk(s.links[l]) && DeviceOk(s, l);
    if Named(s, l) {
      var id :| id in s.sessions && s.sessions[id] == l;
      assert RowOk(s, id);
    }
    if Names(s, l) { assert s.sessions[s.links[l].savedAs.value] == l; }
  }

  // ---- relinks and removals of one number that do not overlap ----

  predicate Connects(s: State, l: nat, number: nat) {
    l in s.links && s.links[l].number == number && InConnect(s.links[l].pc)
  }

  predicate Removes(s: State, d: nat, number: nat) {
    d in s.removals && s.removals[d].id.number == number && !s.removals[d].pc.Gone?
  }

  /** No two attempts are inside ConnectLinked for this number, nor one together with a deletion
      or logout; other numbers do as they like. */
  predicate Apart(s: State, number: nat) {
    && (forall l, m | l in s.links && m in s.links && l != m :: !(Connects(s, l, number) && Connects(s, m, number)))
    && (forall l, d | l in s.links && d in s.removals :: !(Connects(s, l, number) && Removes(s, d, number)))
  }

  /** The number's relink or removal fails to read the session that is there, and goes on. */
  predicate ReadsBlindly(s: State, a: Action, number: nat) {
    || (a.ReadOld? && !a.readable && Connects(s, a.link, number) && s.links[a.link].pc.ReadingOld? &&
        s.links[a.link].pc.id in s.sessions)
    || (a.ReadName? && !a.readable && Removes(s, a.removal, number) && s.removals[a.removal].id in s.sessions)
  }

  /** Up to step n, relinks and removals of the number neither overlap nor go on unread. */
  ghost predicate Orderly(states: seq<State>, actions: seq<Action>, n: nat, number: nat)
    requires n <= |actions| && |states| == |actions| + 1
  {
    forall i | 0 <= i < n :: Apart(states[i], number) && !ReadsBlindly(states[i], actions[i], number)
  }

  predicate ConnectOk(s: State, l: nat)
    requires l in s.links
  {
    var k := s.links[l];
    && (k.pc.Upserting? && !k.pc.relink ==> k.number !in s.accounts)
    && (k.pc.Resolving? && !k.pc.relink && k.number in s.accounts ==> Id(k.number, s.accounts[k.number]) !in s.sessions)
    && (k.pc.ReadingOld? && !k.pc.relink ==> k.pc.id !in s.sessions)
    && (k.pc.ForgettingOld? ==> k.pc.id in s.sessions && s.sessions[k.pc.id] == k.pc.prior)
    && (k.pc.Saving? && k.pc.id in s.sessions && s.sessions[k.pc.id] != l ==> s.sessions[k.pc.id] !in s.devices)
    && (k.overwritten || k.unnamed ==> l !in s.devices)
  }

  /** What a removal has read is still what the session names. */
  predicate ReadOk(s: State, d: nat)
    requires d in s.removals
  {
    var r := s.removals[d];
    !r.pc.Reading? && !r.pc.Gone? && r.id in s.sessions ==> r.read == Some(s.sessions[r.id])
  }

  ghost predicate ConnectInv(s: State, number: nat) {
    && (forall l | l in s.links && s.links[l].number == number :: ConnectOk(s, l))
    && (forall d | d in s.removals && s.removals[d].id.number == number :: ReadOk(s, d))
  }

  /** The step writes rows of the number. */
  predicate WritesRows(s: State, a: Action, number: nat)
    requires Enabled(s, a)
  {
    || (OfLink(a) && (a.Upsert? || a.Save?) && s.links[a.link].number == number)
    || (OfRemoval(a) && (a.DeleteSession? || a.DeleteAccount?) && s.removals[a.removal].id.number == number)
  }

  lemma RowsFrame(s: State, a: Action, id: Id)
    requires Enabled(s, a) && !WritesRows(s, a, id.number) && (OfLink(a) ==> IdOk(s.links[a.link]))
    ensures id in Do(s, a).sessions <==> id in s.sessions
    ensures id in s.sessions ==> Do(s, a).sessions[id] == s.sessions[id]
    ensures id.number in Do(s, a).accounts <==> id.number in s.accounts
    ensures id.number in s.accounts ==> Do(s, a).accounts[id.number] == s.accounts[id.number]
  {
  }

  /** Where an attempt inside ConnectLinked looks for its session, once it knows. */
  function LooksAt(s: State, k: Link): Id {
    if k.pc.Upserting? then k.pc.id
    else if k.pc.ReadingOld? then k.pc.id
    else if k.pc.ForgettingOld? then k.pc.id
    else if k.pc.Saving? then k.pc.id
    else Id(k.number, if k.number in s.accounts then s.accounts[k.number] else 0)
  }

  /** An attempt keeps its footing while nobody writes its rows and no device comes back. */
  lemma StandsStill(s: State, a: Action, l: nat)
    requires Enabled(s, a) && l in s.links && ConnectOk(s, l) && IdOk(s.links[l])
    requires !WritesRows(s, a, s.links[l].number) && (OfLink(a) ==> IdOk(s.links[a.link]))
    requires l in Do(s, a).links && Do(s, a).links[l].(unnamed := false, overwritten := false) ==
      s.links[l].(unnamed := false, overwritten := false)
    requires var id := LooksAt(s, s.links[l]); id in s.sessions ==> Known(s, s.sessions[id])
    requires Do(s, a).links[l].overwritten || Do(s, a).links[l].unnamed ==> l !in Do(s, a).devices
    ensures ConnectOk(Do(s, a), l)
  {
    var id := LooksAt(s, s.links[l]);
    RowsFrame(s, a, id);
    if id in s.sessions { KnownStays(s, a, s.sessions[id]); }
  }

  /** Outside ConnectLinked only the two records count. */
  lemma StandsAside(s: State, l: nat)
    requires l in s.links && !InConnect(s.links[l].pc)
    requires s.links[l].overwritten || s.links[l].unnamed ==> l !in s.devices
    ensures ConnectOk(s, l)
  {
  }

  lemma FlagsAreKnown(s: State, l: nat)
    requires LinkOk(s, l) && (s.links[l].overwritten || s.links[l].unnamed)
    ensures Known(s, l)
  {
  }

  /** With relinks apart, a save overwrites only a name whose device is already forgotten. */
  lemma OverwritesTheForgotten(s: State, a: Action, l: nat)
    requires Acts(s, a) && ConnectOk(s, a.link) && Overwrites(s, a, l)
    ensures l !in s.devices
  {
  }

  lemma FlagsByLink(s: State, a: Action, l: nat)
    requires Inv(s) && Acts(s, a) && LinkOk(s, l) && l != a.link && ConnectOk(s, l)
    requires s.links[a.link].number == s.links[l].number ==> ConnectOk(s, a.link)
    ensures l in Do(s, a).links
    ensures Do(s, a).links[l].overwritten || Do(s, a).links[l].unnamed ==> l !in Do(s, a).devices
  {
    OthersFrame(s, a, l);
    if Overwrites(s, a, l) {
      assert RowOk(s, s.links[a.link].pc.id) && LinkOk(s, a.link);
      OverwritesTheForgotten(s, a, l);
    }
  }

  lemma StandsBeside(s: State, a: Action, l: nat)
    requires Acts(s, a) && l in s.links && l != a.link && ConnectOk(s, l) && IdOk(s.links[l]) && IdOk(s.links[a.link])
    requires s.links[a.link].number == s.links[l].number ==> !InConnect(s.links[a.link].pc)
    requires var id := LooksAt(s, s.links[l]); id in s.sessions ==> Known(s, s.sessions[id])
    requires l in Do(s, a).links
    requires Do(s, a).links[l].overwritten || Do(s, a).links[l].unnamed ==> l !in Do(s, a).devices
    ensures ConnectOk(Do(s, a), l)
  {
    OthersFrame(s, a, l);
    StandsStill(s, a, l);
  }

  lemma OtherStands(s: State, a: Action, l: nat)
    requires Acts(s, a) && LinkOk(s, l) && LinkOk(s, a.link) && l != a.link && ConnectOk(s, l)
    requires InConnect(s.links[l].pc) ==>
      && (s.links[a.link].number == s.links[l].number ==> !InConnect(s.links[a.link].pc))
      && var id := LooksAt(s, s.links[l]); id in s.sessions ==> Known(s, s.sessions[id])
    requires l in Do(s, a).links
    requires Do(s, a).links[l].overwritten || Do(s, a).links[l].unnamed ==> l !in Do(s, a).devices
    ensures ConnectOk(Do(s, a), l)
  {
    if InConnect(s.links[l].pc) {
      StandsBeside(s, a, l);
    } else {
      OthersFrame(s, a, l);
      StandsAside(Do(s, a), l);
    }
  }

  lemma OneConnects(s: State, l: nat, m: nat, number: nat)
    requires Apart(s, number) && l in s.links && m in s.links && l != m && Connects(s, l, number)
    ensures !Connects(s, m, number)
  {
  }

  lemma OtherConnectStep(s: State, a: Action, l: nat, number: nat)
    requires Inv(s) && ConnectInv(s, number) && Apart(s, number) && Acts(s, a)
    requires LinkOk(s, l) && l != a.link && s.links[l].number == number
    ensures ConnectOk(Do(s, a), l)
  {
    assert ConnectOk(s, l) && LinkOk(s, a.link);
    FlagsByLink(s, a, l);
    if InConnect(s.links[l].pc) {
      OneConnects(s, l, a.link, number);
      var id := LooksAt(s, s.links[l]);
      if id in s.sessions { NamedIsKnown(s, id); }
    }
    OtherStands(s, a, l);
  }

  lemma FlagsByRemoval(s: State, a: Action, l: nat)
    requires Inv(s) && OfRemoval(a) && Enabled(s, a) && LinkOk(s, l) && ConnectOk(s, l)
    requires s.removals[a.removal].id.number == s.links[l].number ==> ReadOk(s, a.removal)
    ensures l in Do(s, a).links
    ensures Do(s, a).links[l].overwritten || Do(s, a).links[l].unnamed ==> l !in Do(s, a).devices
  {
    RemovalFrame(s, a, l);
    var id := s.removals[a.removal].id;
    assert id in s.sessions ==> RowOk(s, id);
  }

  lemma RemovalConnectStep(s: State, a: Action, l: nat, number: nat)
    requires Inv(s) && ConnectInv(s, number) && Apart(s, number) && OfRemoval(a) && Enabled(s, a)
    requires LinkOk(s, l) && s.links[l].number == number
    ensures ConnectOk(Do(s, a), l)
  {
    assert ConnectOk(s, l);
    FlagsByRemoval(s, a, l);
    RemovalFrame(s, a, l);
    if InConnect(s.links[l].pc) {
      assert Connects(s, l, number) && !Removes(s, a.removal, number);
      var id := LooksAt(s, s.links[l]);
      if id in s.sessions { NamedIsKnown(s, id); }
      StandsStill(s, a, l);
    } else {
      StandsAside(Do(s, a), l);
    }
  }

  /** What the attempt's own step reads of the tables. */
  predicate RowsFit(s: State, k: Link) {
    var id := LooksAt(s, k);
    id in s.sessions ==> HasAccount(s, id) && Known(s, s.sessions[id])
  }

  lemma OwnConnectKept(s: State, a: Action)
    requires Acts(s, a) && ConnectOk(s, a.link) && LinkOk(s, a.link) && RowsFit(s, s.links[a.link])
    requires !ReadsBlindly(s, a, s.links[a.link].number)
    ensures ConnectOk(Do(s, a), a.link)
  {
    var k := s.links[a.link];
    OwnFrame(s, a);
    if k.overwritten || k.unnamed { KnownStays(s, a, a.link); }
    var id := LooksAt(s, k);
    if id in s.sessions { KnownStays(s, a, s.sessions[id]); }
  }

  lemma OwnConnectStep(s: State, a: Action, number: nat)
    requires Inv(s) && ConnectInv(s, number) && Acts(s, a) && s.links[a.link].number == number
    requires !ReadsBlindly(s, a, number)
    ensures ConnectOk(Do(s, a), a.link)
  {
    var k := s.links[a.link];
    assert LinkOk(s, a.link) && ConnectOk(s, a.link);
    var id := LooksAt(s, k);
    if id in s.sessions {
      NamedIsKnown(s, id);
      assert RowOk(s, id);
    }
    OwnConnectKept(s, a);
  }

  lemma LinksConnect(s: State, a: Action, l: nat, number: nat)
    requires Inv(s) && ConnectInv(s, number) && Enabled(s, a)
    requires Apart(s, number) && !ReadsBlindly(s, a, number)
    requires l in Do(s, a).links && Do(s, a).links[l].number == number
    ensures ConnectOk(Do(s, a), l)
  {
    if a.Begin? {
      BeginFrame(s, a);
      assert l != a.link ==> ConnectOk(s, l);
    } else {
      NoNewLinks(s, a);
      assert LinkOk(s, l);
      NumberStays(s, a, l);
      if OfRemoval(a) {
        RemovalConnectStep(s, a, l, number);
      } else if a.BeginRemoval? {
        assert ConnectOk(s, l);
      } else if l == a.link {
        OwnConnectStep(s, a, number);
      } else {
        OtherConnectStep(s, a, l, number);
      }
    }
  }

  lemma NumberStays(s: State, a: Action, l: nat)
    requires Enabled(s, a) && l in s.links && l in Do(s, a).links && !a.Begin?
    ensures Do(s, a).links[l].number == s.links[l].number
  {
    if OfRemoval(a) {
      RemovalFrame(s, a, l);
    } else if OfLink(a) {
      if l == a.link { OwnFrame(s, a); } else { OthersFrame(s, a, l); }
    }
  }

  lemma OwnReadKept(s: State, a: Action, number: nat)
    requires OfRemoval(a) && Enabled(s, a) && s.removals[a.removal].id.number == number
    requires RemovalOk(s, a.removal) && ReadOk(s, a.removal) && !ReadsBlindly(s, a, number)
    ensures ReadOk(Do(s, a), a.removal)
  {
    assert Removes(s, a.removal, number);
  }

  lemma OtherReadKept(s: State, a: Action, d: nat, number: nat)
    requires Enabled(s, a) && !(OfRemoval(a) && a.removal == d)
    requires d in s.removals && s.removals[d].id.number == number && ReadOk(s, d)
    requires OfLink(a) && a.Save? && s.links[a.link].number == number ==> s.removals[d].pc.Gone?
    requires OfLink(a) ==> IdOk(s.links[a.link])
    ensures ReadOk(Do(s, a), d)
  {
    assert d in Do(s, a).removals && Do(s, a).removals[d] == s.removals[d];
  }

  lemma RemovalIdStays(s: State, a: Action, d: nat)
    requires Enabled(s, a) && d in s.removals
    ensures d in Do(s, a).removals && Do(s, a).removals[d].id == s.removals[d].id
  {
  }

  lemma RemovalsConnect(s: State, a: Action, d: nat, number: nat)
    requires Inv(s) && ConnectInv(s, number) && Enabled(s, a)
    requires Apart(s, number) && !ReadsBlindly(s, a, number)
    requires d in Do(s, a).removals && Do(s, a).removals[d].id.number == number
    ensures ReadOk(Do(s, a), d)
  {
    if d in s.removals {
      assert RemovalOk(s, d);
      RemovalIdStays(s, a, d);
      assert s.removals[d].id.number == number && ReadOk(s, d);
      if OfRemoval(a) && a.removal == d {
        OwnReadKept(s, a, number);
      } else {
        if OfLink(a) {
          assert LinkOk(s, a.link);
          assert a.Save? && s.links[a.link].number == number ==> Connects(s, a.link, number) && !Removes(s, d, number);
        }
        OtherReadKept(s, a, d, number);
      }
    }
  }

  lemma ConnectStep(s: State, a: Action, number: nat)
    requires Inv(s) && ConnectInv(s, number) && Enabled(s, a)
    requires Apart(s, number) && !ReadsBlindly(s, a, number)
    ensures ConnectInv(Do(s, a), number)
  {
    var s' := Do(s, a);
    forall l | l in s'.links && s'.links[l].number == number ensures ConnectOk(s', l) {
      LinksConnect(s, a, l, number);
    }
    forall d | d in s'.removals && s'.removals[d].id.number == number ensures ReadOk(s', d) {
      RemovalsConnect(s, a, d, number);
    }
  }

  lemma {:induction false} ConnectHolds(states: seq<State>, actions: seq<Action>, n: nat, number: nat)
    requires Steps(states, actions) && n < |states| && Orderly(states, actions, n, number)
    ensures ConnectInv(states[n], number)
  {
    if n > 0 {
      ConnectHolds(states, actions, n - 1, number);
      InvHolds(states, actions, n - 1);
      ConnectStep(states[n - 1], actions[n - 1], number);
    }
  }

  /** Relinks and removals of one number that never overlap and read the session that is there
      leave no device behind: one that is registered when its attempt is over is named, but for
      the late timer and the late store. */
  lemma ApartRelinksKeepDevices(states: seq<State>, actions: seq<Action>, n: nat, l: nat)
    requires Steps(states, actions) && n < |states| && l in states[n].links
    requires Orderly(states, actions, n, states[n].links[l].number)
    requires states[n].links[l].pc.Over? && l in states[n].devices
    ensures Named(states[n], l) <==> !states[n].links[l].lateLost && !states[n].links[l].missed
  {
    ConnectHolds(states, actions, n, states[n].links[l].number);
    assert ConnectOk(states[n], l);
    RegisteredIsNamed(states, actions, n, l);
  }

  // ---- each race happens ----

  function Last(states: seq<State>): State
    requires |states| > 0
  {
    states[|states| - 1]
  }

  lemma Extend(states: seq<State>, actions: seq<Action>, a: Action) returns (longer: seq<State>, more: seq<Action>)
    requires Steps(states, actions) && Enabled(Last(states), a)
    ensures Steps(longer, more) && Last(longer) == Do(Last(states), a)
  {
    longer, more := states + [Do(Last(states), a)], actions + [a];
  }

  function Resolved(r: Result): Session {
    Session(Done, Some(r), Nobody, true, false, Resting, false, Some(r), 1)
  }

  function WithSession(s: State, l: nat, session: Session): State
    requires l in s.links
  {
    s.(links := s.links[l := s.links[l].(session := session)])
  }

  /** One event of attempt l's session, the rest of the world standing at s. */
  lemma SessStep(states: seq<State>, actions: seq<Action>, s: State, l: nat, session: Session, e: Event)
      returns (longer: seq<State>, more: seq<Action>)
    requires Steps(states, actions) && l in s.links && Last(states) == WithSession(s, l, session)
    requires SessAllowed(s.links[l].(session := session), e)
    requires e.Clean? ==> session.winner == Some(Paired) || l !in s.devices
    ensures Steps(longer, more) && Last(longer) == WithSession(s, l, Next(session, e))
  {
    longer, more := Extend(states, actions, Sess(l, e));
    assert Last(longer).links == s.links[l := s.links[l].(session := Next(session, e))];
    assert Last(longer).devices == s.devices;
  }

  function TornDown(r: Result): Session {
    Session(Torn, Some(r), Nobody, true, false, Resting, false, None, 0)
  }

  function Holding(r: Result): Session {
    Session(Flagged, Some(r), Resolver, true, true, Resting, false, None, 0)
  }

  lemma ResolveToFlag(states: seq<State>, actions: seq<Action>, l: nat, r: Result)
      returns (longer: seq<State>, more: seq<Action>)
    requires Steps(states, actions) && l in Last(states).links && Last(states).links[l].session == FRESH
    requires r == Paired ==> Last(states).links[l].stored
    ensures Steps(longer, more) && Last(longer) == WithSession(Last(states), l, Holding(r))
  {
    var s := Last(states);
    assert s == WithSession(s, l, FRESH);
    longer, more := SessStep(states, actions, s, l, FRESH, Win(r));
    longer, more := SessStep(longer, more, s, l, FRESH.(stage := Locking, winner := Some(r)), Acquire);
    longer, more := SessStep(longer, more, s, l, FRESH.(stage := Locked, winner := Some(r), mu := Resolver), Flag);
  }

  lemma ResolveToTorn(states: seq<State>, actions: seq<Action>, s: State, l: nat, r: Result)
      returns (longer: seq<State>, more: seq<Action>)
    requires Steps(states, actions) && l in s.links && Last(states) == WithSession(s, l, Holding(r))
    ensures Steps(longer, more) && Last(longer) == WithSession(s, l, TornDown(r))
  {
    longer, more := SessStep(states, actions, s, l, Holding(r), CloseCodes);
    longer, more := SessStep(longer, more, s, l, Holding(r).(stage := Shut, codesOpen := false), Release);
  }

  /** One goroutine resolves a fresh session, undisturbed. */
  lemma ResolveAll(states: seq<State>, actions: seq<Action>, l: nat, r: Result)
      returns (longer: seq<State>, more: seq<Action>)
    requires Steps(states, actions) && l in Last(states).links && Last(states).links[l].session == FRESH
    requires if r == Paired then Last(states).links[l].stored else l !in Last(states).devices
    ensures Steps(longer, more) && Last(longer) == WithSession(Last(states), l, Resolved(r))
  {
    var s := Last(states);
    longer, more := ResolveToFlag(states, actions, l, r);
    longer, more := ResolveToTorn(longer, more, s, l, r);
    longer, more := SessStep(longer, more, s, l, TornDown(r), Clean);
    longer, more := SessStep(longer, more, s, l, TornDown(r).(stage := Cleaned), Deliver);
  }

  /** What LinkFinish knows of the world besides the attempts. */
  function World(links: map<nat, Link>, devices: set<nat>): State {
    State(links, map[], devices, map[], map[], {})
  }

  /** The pump's second is over before it looks: the device stays and nothing names it. */
  lemma LateTimerLosesADevice() returns (states: seq<State>, actions: seq<Action>)
    ensures Steps(states, actions) && |states| > 0 && 0 in Last(states).links
    ensures Last(states).links[0].pc.Over? && 0 in Last(states).devices && !Named(Last(states), 0)
    ensures Last(states).links[0].session.winner == Some(Paired)
  {
    states, actions := [INIT], [];
    states, actions := Extend(states, actions, Begin(0, 7));
    states, actions := Extend(states, actions, StoreDevice(0));
    states, actions := ResolveAll(states, actions, 0, Paired);
    assert Last(states) == World(map[0 := NewLink(7).(session := Resolved(Paired), stored := true)], {0});
    states, actions := TimedOut(states, actions);
  }

  lemma TimedOut(states: seq<State>, actions: seq<Action>) returns (longer: seq<State>, more: seq<Action>)
    requires Steps(states, actions)
    requires Last(states) == World(map[0 := NewLink(7).(session := Resolved(Paired), stored := true)], {0})
    ensures Steps(longer, more) && |longer| > 0 && 0 in Last(longer).links
    ensures Last(longer).links[0].pc.Over? && 0 in Last(longer).devices && !Named(Last(longer), 0)
    ensures Last(longer).links[0].session.winner == Some(Paired)
  {
    longer, more := Extend(states, actions, WindowElapses(0));
    longer, more := Extend(longer, more, CloseReturns(0));
    longer, more := Extend(longer, more, LateTimer(0));
    assert Last(longer).links[0].seen == Some(Expired) && Last(longer).sessions == map[];
    longer, more := Extend(longer, more, TakeState(0, true));
  }

  /** The phone's scan and the window's end are simultaneous: the failing session finds no
      device to delete, and the device is stored a moment later. */
  lemma LateStoreLosesADevice() returns (states: seq<State>, actions: seq<Action>)
    ensures Steps(states, actions) && |states| > 0 && 0 in Last(states).links
    ensures Last(states).links[0].pc.Over? && 0 in Last(states).devices && !Named(Last(states), 0)
    ensures Last(states).links[0].session.winner == Some(Cancelled) && !Last(states).links[0].lateLost
  {
    states, actions := [INIT], [];
    states, actions := Extend(states, actions, Begin(0, 7));
    states, actions := Extend(states, actions, WindowElapses(0));
    states, actions := ResolveAll(states, actions, 0, Cancelled);
    states, actions := StoredTooLate(states, actions);
  }

  lemma StoredTooLate(states: seq<State>, actions: seq<Action>) returns (longer: seq<State>, more: seq<Action>)
    requires Steps(states, actions)
    requires Last(states) == World(map[0 := NewLink(7).(session := Resolved(Cancelled), pc := AtClose)], {})
    ensures Steps(longer, more) && |longer| > 0 && 0 in Last(longer).links
    ensures Last(longer).links[0].pc.Over? && 0 in Last(longer).devices && !Named(Last(longer), 0)
    ensures Last(longer).links[0].session.winner == Some(Cancelled) && !Last(longer).links[0].lateLost
  {
    longer, more := Extend(states, actions, StoreDevice(0));
    longer, more := Extend(longer, more, CloseReturns(0));
    longer, more := Extend(longer, more, LateResult(0));
    assert Last(longer).links[0].seen == Some(Expired) && Last(longer).sessions == map[];
    longer, more := Extend(longer, more, TakeState(0, true));
  }

  /** An attempt at number 7 on its way through ConnectLinked. */
  function Linking(pc: Pc): Link {
    NewLink(7).(session := Resolved(Paired).(buffer := None), pc := pc, seen := Some(Paired), stored := true)
  }

  /** One step of attempt l that changes its place alone. */
  lemma Turn(states: seq<State>, actions: seq<Action>, a: Action, s: State, l: nat, k: Link)
      returns (longer: seq<State>, more: seq<Action>)
    requires Steps(states, actions) && Last(states) == s.(links := s.links[l := k])
    requires OfLink(a) && a.link == l && LinkEnabled(k, a) && StoreAllows(s, k, a)
    requires a.Upsert? ==> k.number in s.accounts
    requires a.Lookup? ==> k.number in s.accounts
    requires a.GetResult? || a.TakeState? || a.Lookup? || a.Upsert? || a.Resolve? || a.ReadOld? || a.Connected?
    ensures Steps(longer, more) && Last(longer) == s.(links := s.links[l := Moved(s, k, a)])
  {
    longer, more := Extend(states, actions, a);
    assert Last(longer).links == s.links[l := Moved(s, k, a)];
  }

  lemma ReachPaired(states: seq<State>, actions: seq<Action>, l: nat)
      returns (longer: seq<State>, more: seq<Action>)
    requires Steps(states, actions) && l !in Last(states).links
    ensures Steps(longer, more)
    ensures Last(longer) == Last(states).(
      links := Last(states).links[l := NewLink(7).(session := Resolved(Paired), stored := true)],
      devices := Last(states).devices + {l})
  {
    var s := Last(states);
    longer, more := Extend(states, actions, Begin(l, 7));
    longer, more := Extend(longer, more, StoreDevice(l));
    assert Last(longer) == s.(links := s.links[l := NewLink(7).(stored := true)], devices := s.devices + {l});
    longer, more := ResolveAll(longer, more, l, Paired);
    assert Last(longer).links == s.links[l := NewLink(7).(session := Resolved(Paired), stored := true)];
  }

  lemma ReachConnect(states: seq<State>, actions: seq<Action>, l: nat)
      returns (longer: seq<State>, more: seq<Action>)
    requires Steps(states, actions) && l !in Last(states).links
    ensures Steps(longer, more)
    ensures Last(longer) == Last(states).(links := Last(states).links[l := Linking(LookingUp)],
                                          devices := Last(states).devices + {l})
  {
    longer, more := ReachPaired(states, actions, l);
    var s := Last(longer);
    var k := s.links[l];
    assert s == s.(links := s.links[l := k]);
    longer, more := Turn(longer, more, GetResult(l), s, l, k);
    longer, more := Turn(longer, more, TakeState(l, true), s, l, Linking(Finishing));
    assert Last(longer).links == Last(states).links[l := Linking(LookingUp)];
  }

  const SEVEN: Id := Id(7, 0)

  /** Two browsers link the same number at once: both find no account, and the second save
      leaves the first device without a name. */
  lemma OverlapLosesADevice() returns (states: seq<State>, actions: seq<Action>)
    ensures Steps(states, actions) && |states| > 0 && 0 in Last(states).links
    ensures Last(states).links[0].pc == Over(true) && 0 in Last(states).devices && !Named(Last(states), 0)
    ensures !Last(states).links[0].lateLost && !Last(states).links[0].missed && !Last(states).links[0].unnamed
  {
    states, actions := BothPastLookup();
    states, actions := FirstSaves(states, actions);
    var s := Last(states);
    states, actions := Turn(states, actions, Upsert(1), s, 1, s.links[1]);
    states, actions := Turn(states, actions, Resolve(1), s, 1, s.links[1].(pc := Resolving(false)));
    states, actions := Turn(states, actions, ReadOld(1, true), s, 1, s.links[1].(pc := ReadingOld(false, SEVEN)));
    assert Last(states).links[1].pc == Saving(SEVEN) && Last(states).links[0] == s.links[0];
    states, actions := Extend(states, actions, Save(1));
    assert Last(states).sessions == map[SEVEN := 1];
  }

  lemma BothPastLookup() returns (states: seq<State>, actions: seq<Action>)
    ensures Steps(states, actions) && |states| > 0
    ensures Last(states) == World(
      map[0 := Linking(Upserting(false, SEVEN)), 1 := Linking(Upserting(false, Id(7, 1)))], {0, 1})
      .(minted := {SEVEN, Id(7, 1)})
  {
    states, actions := [INIT], [];
    states, actions := ReachConnect(states, actions, 0);
    states, actions := ReachConnect(states, actions, 1);
    assert Last(states) == World(map[0 := Linking(LookingUp), 1 := Linking(LookingUp)], {0, 1});
    states, actions := Extend(states, actions, Lookup(0, 0));
    assert Last(states).minted == {SEVEN};
    states, actions := Extend(states, actions, Lookup(1, 1));
    assert Last(states).minted == {SEVEN, Id(7, 1)};
  }

  /** Attempt 0, having found no account, goes through to its end beside whatever else there is. */
  lemma FirstSaves(states: seq<State>, actions: seq<Action>) returns (longer: seq<State>, more: seq<Action>)
    requires Steps(states, actions) && 0 in Last(states).links
    requires Last(states).links[0] == Linking(Upserting(false, SEVEN))
    requires Last(states).accounts == map[] && Last(states).sessions == map[]
    ensures Steps(longer, more)
    ensures Last(longer) == Last(states).(
      links := Last(states).links[0 := Linking(Over(true)).(savedAs := Some(SEVEN))],
      accounts := map[7 := 0], sessions := map[SEVEN := 0])
  {
    var s := Last(states);
    longer, more := Extend(states, actions, Upsert(0));
    var s1 := s.(accounts := map[7 := 0]);
    assert Last(longer) == s1.(links := s1.links[0 := Linking(Resolving(false))]);
    longer, more := Turn(longer, more, Resolve(0), s1, 0, Linking(Resolving(false)));
    longer, more := Turn(longer, more, ReadOld(0, true), s1, 0, Linking(ReadingOld(false, SEVEN)));
    assert Last(longer).links[0] == Linking(Saving(SEVEN));
    longer, more := Extend(longer, more, Save(0));
    var s2 := s1.(sessions := map[SEVEN := 0]);
    var k := Linking(Saved(SEVEN)).(savedAs := Some(SEVEN));
    assert Last(longer) == s2.(links := s2.links[0 := k]);
    longer, more := Turn(longer, more, Connected(0), s2, 0, k);
  }

  const LINKED: Link := Linking(Over(true)).(savedAs := Some(SEVEN))

  /** One attempt has linked the account, and another has come as far as given beside removals. */
  function Relinking(k: Link, removals: map<nat, Removal>): State {
    State(map[0 := LINKED, 1 := k], removals, {0, 1}, map[7 := 0], map[SEVEN := 0], {SEVEN})
  }

  lemma FirstLinked() returns (states: seq<State>, actions: seq<Action>)
    ensures Steps(states, actions) && |states| > 0
    ensures Last(states) == State(map[0 := LINKED], map[], {0}, map[7 := 0], map[SEVEN := 0], {SEVEN})
  {
    states, actions := [INIT], [];
    states, actions := ReachConnect(states, actions, 0);
    assert Last(states) == World(map[0 := Linking(LookingUp)], {0});
    states, actions := Extend(states, actions, Lookup(0, 0));
    assert Last(states).links == map[0 := Linking(Upserting(false, SEVEN))];
    states, actions := FirstSaves(states, actions);
    assert Last(states).links == map[0 := LINKED];
  }

  lemma RelinkTo(states: seq<State>, actions: seq<Action>, a: Action, removals: map<nat, Removal>, k: Link)
      returns (longer: seq<State>, more: seq<Action>)
    requires Steps(states, actions) && Last(states) == Relinking(k, removals) && k.number == 7
    requires (a.Lookup? || a.Upsert? || a.Resolve? || a.ReadOld?) && a.link == 1
    requires LinkEnabled(k, a)
    ensures StoreAllows(Relinking(k, removals), k, a)
    ensures Steps(longer, more) && Last(longer) == Relinking(Moved(Relinking(k, removals), k, a), removals)
  {
    var s := Relinking(k, removals);
    assert s == s.(links := s.links[1 := k]);
    longer, more := Turn(states, actions, a, s, 1, k);
    assert Last(longer).links == map[0 := LINKED, 1 := Moved(s, k, a)];
  }

  /** Another attempt comes as far as the old session. */
  lemma ReachRelink(states: seq<State>, actions: seq<Action>, removals: map<nat, Removal>)
      returns (longer: seq<State>, more: seq<Action>)
    requires Steps(states, actions)
    requires Last(states) == State(map[0 := LINKED], removals, {0}, map[7 := 0], map[SEVEN := 0], {SEVEN})
    ensures Steps(longer, more) && Last(longer) == Relinking(Linking(ReadingOld(true, SEVEN)), removals)
  {
    longer, more := ReachConnect(states, actions, 1);
    assert Last(longer) == Relinking(Linking(LookingUp), removals);
    longer, more := RelinkTo(longer, more, Lookup(1, 0), removals, Linking(LookingUp));
    longer, more := RelinkTo(longer, more, Upsert(1), removals, Linking(Upserting(true, SEVEN)));
    longer, more := RelinkTo(longer, more, Resolve(1), removals, Linking(Resolving(true)));
  }

  /** A relink that overlaps nothing but cannot read the old session saves over it. */
  lemma BlindRelinkLosesADevice() returns (states: seq<State>, actions: seq<Action>)
    ensures Steps(states, actions) && |states| > 0 && 0 in Last(states).links
    ensures Last(states).links[0].pc == Over(true) && 0 in Last(states).devices && !Named(Last(states), 0)
    ensures !Last(states).links[0].lateLost && !Last(states).links[0].missed && !Last(states).links[0].unnamed
  {
    states, actions := FirstLinked();
    states, actions := ReachRelink(states, actions, map[]);
    states, actions := RelinkTo(states, actions, ReadOld(1, false), map[], Linking(ReadingOld(true, SEVEN)));
    assert Last(states) == Relinking(Linking(Saving(SEVEN)), map[]);
    states, actions := Extend(states, actions, Save(1));
    assert Last(states).sessions == map[SEVEN := 1];
  }

  /** A deletion or logout that cannot read the session takes the name and leaves the device. */
  lemma BlindRemovalLosesADevice(whole: bool) returns (states: seq<State>, actions: seq<Action>)
    ensures Steps(states, actions) && |states| > 0 && 0 in Last(states).links
    ensures Last(states).links[0].pc == Over(true) && 0 in Last(states).devices && !Named(Last(states), 0)
    ensures Last(states).links.Keys == {0}
  {
    states, actions := FirstLinked();
    states, actions := Extend(states, actions, BeginRemoval(0, SEVEN, whole));
    states, actions := Extend(states, actions, ReadName(0, false));
    assert Last(states).removals[0] == Removal(SEVEN, whole, Unnaming, None);
    states, actions := Extend(states, actions, DeleteSession(0, true));
    assert Last(states).sessions == map[];
  }

  /** The state after the relink has saved. */
  function Relinked(first: Link, k: Link, r: Removal): State {
    State(map[0 := first, 1 := k], map[0 := r], {1}, map[7 := 0], map[SEVEN := 1], {SEVEN})
  }

  const SAVED: Link := Linking(Saved(SEVEN)).(savedAs := Some(SEVEN))

  lemma SavesOver(states: seq<State>, actions: seq<Action>, r: Removal)
      returns (longer: seq<State>, more: seq<Action>)
    requires Steps(states, actions)
    requires Last(states) == Relinking(Linking(Saving(SEVEN)), map[0 := r]).(devices := {1})
    ensures Steps(longer, more) && Last(longer) == Relinked(LINKED.(overwritten := true), SAVED, r)
  {
    longer, more := Extend(states, actions, Save(1));
    assert Last(longer).sessions == map[SEVEN := 1];
    assert Last(longer).links == map[0 := LINKED.(overwritten := true), 1 := SAVED];
  }

  /** The relink reads, forgets and overwrites the old name, beside a removal that has read it. */
  lemma RelinkInside(states: seq<State>, actions: seq<Action>, r: Removal)
      returns (longer: seq<State>, more: seq<Action>)
    requires Steps(states, actions) && Last(states) == Relinking(Linking(ReadingOld(true, SEVEN)), map[0 := r])
    ensures Steps(longer, more) && Last(longer) == Relinked(LINKED.(overwritten := true), SAVED, r)
  {
    longer, more := RelinkTo(states, actions, ReadOld(1, true), map[0 := r], Linking(ReadingOld(true, SEVEN)));
    assert Last(longer) == Relinking(Linking(ForgettingOld(0, SEVEN)), map[0 := r]);
    longer, more := Extend(longer, more, ForgetOld(1));
    assert Last(longer).links == map[0 := LINKED, 1 := Linking(Saving(SEVEN))] && Last(longer).devices == {1};
    longer, more := SavesOver(longer, more, r);
  }

  lemma UnnamesUnread(states: seq<State>, actions: seq<Action>, first: Link, whole: bool)
      returns (longer: seq<State>, more: seq<Action>)
    requires Steps(states, actions) && Last(states) == Relinked(first, SAVED, Removal(SEVEN, whole, Unnaming, Some(0)))
    ensures Steps(longer, more) && Last(longer).links == map[0 := first, 1 := SAVED.(unnamed := true)]
    ensures Last(longer).devices == {1} && Last(longer).sessions == map[] && Last(longer).accounts == map[7 := 0]
  {
    longer, more := Extend(states, actions, DeleteSession(0, true));
  }

  /** A removal has read the name that the first attempt saved. */
  lemma RemovalReads(whole: bool) returns (states: seq<State>, actions: seq<Action>)
    ensures Steps(states, actions) && |states| > 0
    ensures Last(states) == State(
      map[0 := LINKED], map[0 := Removal(SEVEN, whole, Dropping(0), Some(0))], {0},
      map[7 := 0], map[SEVEN := 0], {SEVEN})
  {
    states, actions := FirstLinked();
    states, actions := Extend(states, actions, BeginRemoval(0, SEVEN, whole));
    assert Last(states).removals == map[0 := Removal(SEVEN, whole, Reading, None)];
    states, actions := Extend(states, actions, ReadName(0, true));
    assert Last(states).removals == map[0 := Removal(SEVEN, whole, Dropping(0), Some(0))];
  }

  lemma ForgetsTheFirst(states: seq<State>, actions: seq<Action>, first: Link, whole: bool)
      returns (longer: seq<State>, more: seq<Action>)
    requires Steps(states, actions)
    requires Last(states) == Relinked(first, SAVED, Removal(SEVEN, whole, Dropping(0), Some(0)))
    ensures Steps(longer, more) && Last(longer) == Relinked(first, SAVED, Removal(SEVEN, whole, Unnaming, Some(0)))
  {
    longer, more := Extend(states, actions, ForgetNamed(0));
    assert Last(longer).devices == {1};
    assert Last(longer).removals == map[0 := Removal(SEVEN, whole, Unnaming, Some(0))];
  }

  lemma EndsUnnamed(states: seq<State>, actions: seq<Action>) returns (longer: seq<State>, more: seq<Action>)
    requires Steps(states, actions) && 1 in Last(states).links && Last(states).links[1] == SAVED.(unnamed := true)
    requires 1 in Last(states).devices && Last(states).sessions == map[] && Last(states).accounts == map[7 := 0]
    ensures Steps(longer, more) && |longer| > 0 && 1 in Last(longer).links
    ensures Last(longer).links[1] == Linking(Over(true)).(savedAs := Some(SEVEN), unnamed := true)
    ensures 1 in Last(longer).devices && Last(longer).sessions == map[]
  {
    longer, more := Extend(states, actions, Connected(1));
  }

  /** A deletion forgets the old device; a relink in between saves its own, and the deletion goes
      on to take that name, which it never read. */
  lemma RemovalLosesADevice(whole: bool) returns (states: seq<State>, actions: seq<Action>)
    ensures Steps(states, actions) && |states| > 0 && 1 in Last(states).links
    ensures Last(states).links[1].pc == Over(true) && 1 in Last(states).devices && !Named(Last(states), 1)
    ensures var k := Last(states).links[1]; !k.lateLost && !k.missed && !k.overwritten
  {
    states, actions := RemovalReads(whole);
    var r := Removal(SEVEN, whole, Dropping(0), Some(0));
    states, actions := ReachRelink(states, actions, map[0 := r]);
    states, actions := RelinkInside(states, actions, r);
    states, actions := ForgetsTheFirst(states, actions, LINKED.(overwritten := true), whole);
    states, actions := UnnamesUnread(states, actions, LINKED.(overwritten := true), whole);
    states, actions := EndsUnnamed(states, actions);
  }
}
