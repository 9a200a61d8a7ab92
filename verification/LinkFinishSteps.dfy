/** What each step of a pairing attempt, or of the removal of a paired account, does: to the attempt,
    to the devices, and to the rows of the accounts and their sessions. */
module LinkFinishSteps {
  import opened LinkFinish
  import opened LinkSession
  import opened Options

  // ---------------------------------------------------------------- the attempt

  /** From the session to finishLink: the pump takes the result when it comes in time; past the
      window it closes the session, waits for the result that the close resolves to, and takes a
      success it finds there; when that does not come either the window has expired. */
  lemma PumpsOn(s: State, a: Action)
    requires Enabled(s, a) && OfLink(a)
    ensures a.link in s.links && a.link in Do(s, a).links
    ensures var k, k' := s.links[a.link], Do(s, a).links[a.link];
      && (a.GetResult? ==> k.session.buffer.Some? && k'.pc == Finishing && k'.seen == k.session.buffer)
      && (a.WindowElapses? ==> k'.pc == AtClose)
      && (a.CloseReturns? ==> k'.pc == Waiting)
      && (a.LateResult? ==> k.session.buffer.Some? && k'.pc == Finishing
                            && k'.seen == Some(if k.session.buffer == Some(Paired) then Paired else Expired))
      && (a.LateTimer? ==> k'.pc == Finishing && k'.seen == Some(Expired))
      && (!a.GetResult? && !a.LateResult? && !a.LateTimer? ==> k'.seen == k.seen)
      && k'.number == k.number && (k'.stored <==> k.stored || a.StoreDevice?)
  {
  }

  /** From finishLink to ConnectLinked: only a success goes on, and only with a state that can be taken;
      a number that has an account is a relink of it, one that has none gets the id minted. */
  lemma FinishesOn(s: State, a: Action)
    requires Enabled(s, a) && OfLink(a)
    ensures a.link in s.links && a.link in Do(s, a).links
    ensures var k, pc := s.links[a.link], Do(s, a).links[a.link].pc;
      && (a.TakeState? ==>
            pc == if k.seen != Some(Paired) then Over(false) else if a.ok then LookingUp else Forgetting)
      && (a.Lookup? ==>
            pc == if k.number in s.accounts then Upserting(true, Id(k.number, s.accounts[k.number]))
                  else Upserting(false, Id(k.number, a.mint)))
      && (a.Upsert? ==> pc == Resolving(k.pc.relink))
      && (a.Resolve? ==> k.number in s.accounts && pc == ReadingOld(k.pc.relink, Id(k.number, s.accounts[k.number])))
  {
  }

  /** And through it: a relink that can read that its account names another device forgets that one
      first; then the account names the attempt's own; and whatever fails forgets the attempt's. */
  lemma ConnectsOn(s: State, a: Action)
    requires Enabled(s, a) && OfLink(a)
    ensures a.link in s.links && a.link in Do(s, a).links
    ensures var k, k' := s.links[a.link], Do(s, a).links[a.link];
      && (a.ReadOld? ==>
            var id := k.pc.id;
            k'.pc == if k.pc.relink && a.readable && id in s.sessions && s.sessions[id] != a.link
                     then ForgettingOld(s.sessions[id], id) else Saving(id))
      && (a.ForgetOld? ==> k'.pc == Saving(k.pc.id))
      && (a.Save? ==> k'.pc == Saved(k.pc.id) && k'.savedAs == Some(k.pc.id))
      && (a.ConnectFails? ==> k'.pc == Forgetting)
      && (a.Connected? ==> k'.pc == Over(true))
      && (a.Forget? ==> k'.pc == Over(false))
      && (a.Sess? || a.StoreDevice? ==> k'.pc == k.pc)
      && (!a.Save? ==> k'.savedAs == k.savedAs)
  {
  }

  /** What is noted of the races: a success that the late timer left behind, a device stored behind the
      back of a failure that had already discarded, a name saved over or deleted unread. */
  lemma NotesOf(s: State, a: Action)
    requires Enabled(s, a) && OfLink(a)
    ensures a.link in s.links && a.link in Do(s, a).links
    ensures var k, k' := s.links[a.link], Do(s, a).links[a.link];
      && (k'.lateLost <==> if a.LateTimer? then k.session.buffer == Some(Paired) else k.lateLost)
      && (k'.missed <==>
            (if a.StoreDevice? then k.session.winner.Some? && k.session.winner.value != Paired
                                    && (k.session.stage.Cleaned? || k.session.stage.Done?)
             else k.missed))
      && (k'.overwritten <==> k.overwritten) && (k'.unnamed <==> k.unnamed)
  {
  }

  lemma NotesOfOthers(s: State, a: Action, l: nat)
    requires Enabled(s, a) && l in s.links && !(OfLink(a) && a.link == l)
    ensures l in Do(s, a).links
    ensures var k, k' := s.links[l], Do(s, a).links[l];
      && (k'.overwritten <==>
            k.overwritten || (a.Save? && s.links[a.link].pc.id in s.sessions && s.sessions[s.links[a.link].pc.id] == l))
      && (k'.unnamed <==>
            || k.unnamed
            || (&& (a.DeleteSession? || (a.DeleteAccount? && HasAccount(s, s.removals[a.removal].id))) && a.ok
                && s.removals[a.removal].id in s.sessions && s.sessions[s.removals[a.removal].id] == l
                && s.removals[a.removal].read != Some(l)))
      && k'.pc == k.pc && k'.seen == k.seen && k'.stored == k.stored && k'.savedAs == k.savedAs && k'.session == k.session
  {
  }

  /** The session inside goes on by its own events and by what the pump receives. */
  lemma SessionsGoOn(s: State, a: Action)
    requires Enabled(s, a) && OfLink(a)
    ensures a.link in s.links && a.link in Do(s, a).links
    ensures var t, t' := s.links[a.link].session, Do(s, a).links[a.link].session;
      if a.Sess? then Allowed(t, a.event) && t' == Next(t, a.event)
      else if a.GetResult? || a.LateResult? then t' == t.(buffer := None)
      else t' == t
  {
  }

  /** Nothing but the session holds the pump up, */
  lemma PumpCanGoOn(s: State, l: nat)
    requires l in s.links
    ensures s.links[l].pc.Selecting? ==> Enabled(s, WindowElapses(l))
    ensures s.links[l].pc.Waiting? ==> Enabled(s, LateTimer(l))
    ensures s.links[l].session.buffer.Some? ==>
      (s.links[l].pc.Selecting? ==> Enabled(s, GetResult(l))) && (s.links[l].pc.Waiting? ==> Enabled(s, LateResult(l)))
    ensures s.links[l].pc.AtClose? && s.links[l].session.stage.Done? ==> Enabled(s, CloseReturns(l))
  {
  }

  /** and nothing but the accounts holds the attempt up after it, */
  lemma FinishCanGoOn(s: State, l: nat, ok: bool, mint: nat)
    requires l in s.links
    ensures var k := s.links[l];
      && (k.pc.Finishing? ==> Enabled(s, TakeState(l, ok)))
      && (k.pc.LookingUp? && (k.number in s.accounts || Id(k.number, mint) !in s.minted) ==> Enabled(s, Lookup(l, mint)))
      && (k.pc.Upserting? ==> Enabled(s, Upsert(l)))
      && (k.pc.Resolving? && k.number in s.accounts ==> Enabled(s, Action.Resolve(l)))
  {
  }

  /** to its end, or to a failure at any of its statements. */
  lemma ConnectCanGoOn(s: State, l: nat, ok: bool)
    requires l in s.links
    ensures var k := s.links[l];
      && (k.pc.ReadingOld? ==> Enabled(s, ReadOld(l, ok)))
      && (k.pc.ForgettingOld? ==> Enabled(s, ForgetOld(l)))
      && (k.pc.Saving? && HasAccount(s, k.pc.id) ==> Enabled(s, Save(l)))
      && (k.pc.Saved? && HasAccount(s, k.pc.id) ==> Enabled(s, Connected(l)))
      && (k.pc.Forgetting? ==> Enabled(s, Forget(l)))
  {
  }

  lemma CanFail(s: State, l: nat)
    requires l in s.links
    ensures var pc := s.links[l].pc;
      (|| pc.LookingUp? || pc.Upserting? || pc.Resolving? || pc.ReadingOld? || pc.ForgettingOld? || pc.Saving?
       || pc.Saved?)
      <==> Enabled(s, ConnectFails(l))
  {
  }

  /** The device is stored once; a session's event is its own but for the receive, which is the pump's,
      and for a success, which is reported only of a stored device. */
  lemma SessionCanGoOn(s: State, l: nat, e: Event)
    requires l in s.links
    ensures Enabled(s, StoreDevice(l)) <==> !s.links[l].stored
    ensures Enabled(s, Sess(l, e)) <==>
      Allowed(s.links[l].session, e) && !e.Receive? && (e == Win(Paired) ==> s.links[l].stored)
  {
  }

  // ----------------------------------------------------------------- the tables

  /** A device comes when its attempt stores it; it goes with a session that resolved to a failure, with
      the attempt that could not be finished, with a relink that found it named before, and with a
      removal that read it. */
  lemma DevicesAfter(s: State, a: Action, l: nat)
    requires Enabled(s, a)
    ensures l in Do(s, a).devices <==>
      || a == StoreDevice(l)
      || (&& l in s.devices
          && !(a == Sess(l, Clean) && s.links[l].session.winner != Some(Paired))
          && a != Forget(l)
          && !(a.ForgetOld? && s.links[a.link].pc.prior == l)
          && !(a.ForgetNamed? && s.removals[a.removal].pc.prior == l))
  {
  }

  /** A number's account comes with an upsert that finds none, under the id minted for it, and goes with
      a removal of that very id. */
  lemma AccountsAfter(s: State, a: Action, number: nat)
    requires Enabled(s, a)
    ensures var t := Do(s, a).accounts;
      && (number !in s.accounts ==>
            (number in t <==> a.Upsert? && s.links[a.link].number == number)
            && (number in t ==> t[number] == s.links[a.link].pc.id.mint))
      && (number in s.accounts ==>
            (number !in t <==> a.DeleteAccount? && a.ok && s.removals[a.removal].id == Id(number, s.accounts[number]))
            && (number in t ==> t[number] == s.accounts[number]))
  {
  }

  /** An account names the device of the attempt that saved last, until its session or the account
      itself is deleted. */
  lemma SessionsAfterStep(s: State, a: Action, id: Id)
    requires Enabled(s, a)
    ensures var t := Do(s, a).sessions;
      var saves := a.Save? && s.links[a.link].pc.id == id;
      var removes := (a.DeleteSession? || (a.DeleteAccount? && HasAccount(s, id))) && a.ok
        && s.removals[a.removal].id == id;
      && (id in t <==> saves || (id in s.sessions && !removes))
      && (id in t ==> t[id] == if saves then a.link else s.sessions[id])
  {
  }

  /** An id is minted by a look that finds no account, and for good. */
  lemma MintedAfter(s: State, a: Action, id: Id)
    requires Enabled(s, a)
    ensures id in Do(s, a).minted <==>
      id in s.minted || (a.Lookup? && s.links[a.link].number !in s.accounts && id == Id(s.links[a.link].number, a.mint))
  {
  }

  // ---------------------------------------------------------------- the removal

  /** DeleteLinked reads the name, forgets the device it read, deletes the session, and, if that went
      well, the account; MarkLoggedOut stops at the session. */
  lemma RemovalsGoOn(s: State, a: Action)
    requires Enabled(s, a) && OfRemoval(a)
    ensures a.removal in s.removals && a.removal in Do(s, a).removals
    ensures var r, r' := s.removals[a.removal], Do(s, a).removals[a.removal];
      && r'.id == r.id && r'.whole == r.whole
      && (a.ReadName? ==>
            if a.readable && r.id in s.sessions
            then r'.pc == Dropping(s.sessions[r.id]) && r'.read == Some(s.sessions[r.id])
            else r'.pc == Unnaming && r'.read == r.read)
      && (a.ForgetNamed? ==> r.pc.Dropping? && r'.pc == Unnaming && r'.read == r.read)
      && (a.DeleteSession? ==> r'.pc == (if r.whole && a.ok then Deleting else Gone) && r'.read == r.read)
      && (a.DeleteAccount? ==> r'.pc == Gone && r'.read == r.read)
  {
  }

  lemma RemovalsCanGoOn(s: State, d: nat, ok: bool)
    requires d in s.removals
    ensures match s.removals[d].pc
      case Reading => Enabled(s, ReadName(d, ok))
      case Dropping(_) => Enabled(s, ForgetNamed(d))
      case Unnaming => Enabled(s, DeleteSession(d, ok))
      case Deleting => Enabled(s, DeleteAccount(d, ok))
      case Gone => true
  {
  }

  /** Attempts and removals begin with nothing done, and a removal only of an account there is. */
  lemma Begins(s: State, a: Action)
    requires Enabled(s, a) && (a.Begin? || a.BeginRemoval?)
    ensures a.Begin? ==>
      && a.link !in s.links && a.link in Do(s, a).links
      && var k := Do(s, a).links[a.link];
         && k.number == a.number && k.session == FRESH && k.pc == Selecting
         && k.seen == None && !k.stored && k.savedAs == None
    ensures a.BeginRemoval? ==>
      && a.removal !in s.removals && a.removal in Do(s, a).removals
      && a.id.number in s.accounts && s.accounts[a.id.number] == a.id.mint
      && Do(s, a).removals[a.removal] == Removal(a.id, a.whole, Reading, None)
  {
  }
}
