/** What each statement against a chat account's tables does to a chat, to a message, to what an
    actor holds and to the events, and what is announced of a message. */
module SinkSteps {
  import opened MessageIds
  import opened Options
  import opened Sink

  // ---------------------------------------------------------------------- chats

  /** The statement writes the row of a chat an actor looked up. */
  predicate WritesLooked(t: Tables, op: Op, chat: nat) {
    op.Write? && op.actor in t.looked && t.looked[op.actor].id == chat
  }

  /** A chat's row comes with a report or with a chat that is started, and never goes. */
  lemma ChatsCome(t: Tables, op: Op, chat: nat)
    ensures chat in Apply(t, op).chats <==> chat in t.chats || WritesLooked(t, op, chat) || op == ApiStart(chat)
    ensures chat !in t.chats && WritesLooked(t, op, chat) ==>
      var c := t.looked[op.actor]; Apply(t, op).chats[chat] == Chat(c.kind, c.name, c.unread, c.lastAt)
    ensures chat !in t.chats && op == ApiStart(chat) ==> Apply(t, op).chats[chat] == Chat("direct", "", 0, None)
  {
  }

  /** What it is called is what was written last. */
  lemma NamesAfter(t: Tables, op: Op, chat: nat)
    requires chat in t.chats
    ensures chat in Apply(t, op).chats
    ensures Apply(t, op).chats[chat].name ==
      if WritesLooked(t, op, chat) then t.looked[op.actor].name
      else if op == ApiStart(chat) then "" else t.chats[chat].name
    ensures Apply(t, op).chats[chat].kind ==
      if WritesLooked(t, op, chat) then t.looked[op.actor].kind
      else if op == ApiStart(chat) then "direct" else t.chats[chat].kind
  {
  }

  /** Its activity is the time of the message bumped last, and its count goes up by one with a
      message of others, to none with a read, and is otherwise left. */
  lemma CountsAfter(t: Tables, op: Op, chat: nat)
    requires chat in t.chats
    ensures chat in Apply(t, op).chats
    ensures var bumps := op.Settle? && op.actor in t.due && t.due[op.actor].chat == chat;
      && Apply(t, op).chats[chat].lastAt ==
           (if bumps then Some(t.due[op.actor].sentAt)
            else if op.ApiBump? && op.chat == chat then Some(op.at) else t.chats[chat].lastAt)
      && Apply(t, op).chats[chat].unread ==
           (if op == ApiRead(chat) || (op.Receipt? && op.chat == chat && op.msgs != [] && op.status == "read") then 0
            else t.chats[chat].unread + if bumps && !t.due[op.actor].fromMe then 1 else 0)
  {
  }

  // ------------------------------------------------------------------- messages

  /** The statement renames a temporary row. */
  predicate Renames(t: Tables, op: Op) {
    op.ApiRename? && Tmp(op.send) in t.messages && Provider(op.msg) !in t.messages
  }

  lemma MessagesCome(t: Tables, op: Op, id: MsgId)
    requires id !in t.messages
    ensures id in Apply(t, op).messages <==>
      || (op.Insert? && op.actor !in t.due && id == Provider(op.msg))
      || (op.ApiInsert? && id == Tmp(op.send))
      || (Renames(t, op) && id == Provider(op.msg))
    ensures id in Apply(t, op).messages ==>
      Apply(t, op).messages[id] ==
        if op.Insert? then Message(op.chat, op.fromMe, op.status)
        else if op.ApiInsert? then Message(op.chat, true, "sending")
        else t.messages[Tmp(op.send)]
  {
  }

  lemma MessagesStay(t: Tables, op: Op, id: MsgId)
    requires id in t.messages
    ensures id in Apply(t, op).messages <==>
      !(op.ApiDiscard? && id == Tmp(op.send)) && !(Renames(t, op) && id == Tmp(op.send))
    ensures id in Apply(t, op).messages ==>
      Apply(t, op).messages[id] ==
        if op.Receipt? && id.Provider? && id.id in op.msgs then t.messages[id].(status := op.status) else t.messages[id]
  {
  }

  // ------------------------------------------------------------ what an actor holds

  /** A look fills what the report leaves out from the row, as it is then. */
  lemma LooksAt(t: Tables, op: Op, a: nat)
    ensures op.Look? && op.actor == a ==>
      && a in Apply(t, op).looked
      && var c, row := Apply(t, op).looked[a], op.info.id in t.chats;
         && c.id == op.info.id && c.unread == op.info.unread && c.lastAt == op.info.lastAt
         && c.name == (if op.info.name != "" || !row then op.info.name else t.chats[op.info.id].name)
         && c.kind == (if op.info.kind != "" || !row then op.info.kind else t.chats[op.info.id].kind)
    ensures op == Write(a) ==> a !in Apply(t, op).looked
    ensures !(op.Look? && op.actor == a) && op != Write(a) ==>
      (a in Apply(t, op).looked <==> a in t.looked) && (a in t.looked ==> Apply(t, op).looked[a] == t.looked[a])
  {
  }

  // --------------------------------------------------------------------- events

  /** A settled message is one event, of its kind; a receipt that names a message is one. */
  lemma EventsAfter(t: Tables, op: Op)
    ensures Apply(t, op).emitted ==
      if op.Settle? && op.actor in t.due then
        t.emitted + [if t.due[op.actor].fromMe then Sent(t.due[op.actor].msg) else Received(t.due[op.actor].msg)]
      else if op.Receipt? && op.msgs != [] then t.emitted + [Updated(op.msgs, op.status)]
      else t.emitted
  {
  }

  lemma {:induction false} AnnouncementsCount(events: seq<Event>, n: nat, msg: nat)
    requires n <= |events|
    ensures Announcements(events, n, msg) == multiset(events[..n])[Received(msg)] + multiset(events[..n])[Sent(msg)]
  {
    if n > 0 {
      AnnouncementsCount(events, n - 1, msg);
      assert events[..n] == events[..n - 1] + [events[n - 1]];
    }
  }

  // ------------------------------------------------ each message as what it is

  /** Every sink that stores the message first says the same of whose it is. */
  ghost predicate StoredAs(ops: seq<Op>, n: nat, msg: nat, own: bool)
    requires n <= |ops|
  {
    forall k | 0 <= k < n && SinkStores(ops, k) && ops[k].msg == msg :: ops[k].fromMe == own
  }

  lemma {:induction false} DueAsStored(ops: seq<Op>, n: nat, a: nat, own: bool)
    requires n <= |ops| && a in After(ops, n).due && StoredAs(ops, n, After(ops, n).due[a].msg, own)
    ensures After(ops, n).due[a].fromMe == own
  {
    if n > 0 {
      DueAfter(After(ops, n - 1), ops[n - 1]);
      if a in After(ops, n - 1).due {
        DueAsStored(ops, n - 1, a, own);
      } else {
        assert SinkStores(ops, n - 1);
      }
    }
  }

  lemma {:induction false} NeverAsTheOther(ops: seq<Op>, n: nat, msg: nat, own: bool)
    requires n <= |ops| && StoredAs(ops, n, msg, own)
    ensures (if own then Received(msg) else Sent(msg)) !in After(ops, n).emitted
  {
    if n > 0 {
      var t, op := After(ops, n - 1), ops[n - 1];
      NeverAsTheOther(ops, n - 1, msg, own);
      EventsAfter(t, op);
      if op.Settle? && op.actor in t.due && t.due[op.actor].msg == msg { DueAsStored(ops, n - 1, op.actor, own); }
    }
  }

  /** A message of the account's own is announced as sent and one of somebody else as received, once
      the sink that stored it first has settled it: exactly one event, and none of the other
      kind. */
  lemma AnnouncedAsItIs(ops: seq<Op>, n: nat, k: nat, msg: nat)
    requires k < n <= |ops| && SinkStores(ops, k) && ops[k].msg == msg && !OnItsWay(ops, n, msg)
    ensures var events := multiset(After(ops, n).emitted);
      && events[Sent(msg)] == (if ops[k].fromMe then 1 else 0)
      && events[Received(msg)] == (if ops[k].fromMe then 0 else 1)
  {
    var events := After(ops, n).emitted;
    forall j | 0 <= j < n && SinkStores(ops, j) && ops[j].msg == msg
      ensures j == k
    {
      if j < k { StoredStays(ops, j + 1, k, msg); }
      if k < j { StoredStays(ops, k + 1, j, msg); }
    }
    NeverAsTheOther(ops, n, msg, ops[k].fromMe);
    AnnouncedOnce(ops, n, msg);
    AnnouncementsCount(events, |events|, msg);
    assert events[..|events|] == events;
  }
}
