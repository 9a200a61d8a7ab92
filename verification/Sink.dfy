/** A chat account's mirror: the statements of the sink's closures and of the roster against the
    chats and chat_messages tables, and those of the HTTP handlers. An account has one actor as a
    rule and several while a reconnect replaces one that is still at work, so what an actor holds
    between two of its statements, a chat it looked up or a message it has inserted and not yet
    bumped, is kept by actor. */
module Sink {
  import opened MessageIds
  import opened Options

  datatype Chat = Chat(kind: string, name: string, unread: int, lastAt: Option<int>)
  datatype Message = Message(chat: nat, fromMe: bool, status: string)

  /** A chat as the provider reports it: a message event often carries only its id. */
  datatype ChatInfo = ChatInfo(id: nat, kind: string, name: string, unread: int, lastAt: Option<int>)

  datatype Event =
    | Received(msg: nat)
    | Sent(msg: nat)
    | Updated(msgs: seq<nat>, status: string)

  /** A message just inserted, as its actor holds it until it has bumped the chat. */
  datatype Arrival = Arrival(msg: nat, chat: nat, fromMe: bool, sentAt: int)

  datatype Tables = Tables(
    chats: map<nat, Chat>,
    messages: map<MsgId, Message>,
    emitted: seq<Event>,
    looked: map<nat, ChatInfo>,
    due: map<nat, Arrival>)

  /** What reaches the tables: an actor's statements and the handlers' own. */
  datatype Op =
    | Look(actor: nat, info: ChatInfo)
    | Write(actor: nat)
    | Insert(actor: nat, msg: nat, chat: nat, fromMe: bool, status: string, sentAt: int)
    | Settle(actor: nat)
    | Receipt(actor: nat, chat: nat, msgs: seq<nat>, status: string)
    | ApiStart(chat: nat)
    | ApiRead(chat: nat)
    | ApiInsert(send: nat, chat: nat)
    | ApiRename(send: nat, msg: nat)
    | ApiDiscard(send: nat)
    | ApiBump(chat: nat, at: int)

  /** The closures that the sink and the roster queue. */
  datatype Callback =
    | OnMessage(msg: nat, chat: nat, fromMe: bool, status: string, sentAt: int, info: ChatInfo)
    | OnReceipt(chat: nat, msgs: seq<nat>, status: string)
    | OnRoster(batch: seq<ChatInfo>)

  const EMPTY: Tables := Tables(map[], map[], [], map[], map[])
  const ROSTER_CHUNK: nat := 10

  predicate FromActor(op: Op) {
    op.Look? || op.Write? || op.Insert? || op.Settle? || op.Receipt?
  }

  // ---- the statements ----

  /** INSERT ... ON CONFLICT DO UPDATE of kind and name alone. */
  function UpsertChat(t: Tables, c: ChatInfo): Tables {
    if c.id in t.chats
    then t.(chats := t.chats[c.id := t.chats[c.id].(kind := c.kind, name := c.name)])
    else t.(chats := t.chats[c.id := Chat(c.kind, c.name, c.unread, c.lastAt)])
  }

  /** chatOrExisting: gaps are filled from the stored row. */
  function OrExisting(t: Tables, c: ChatInfo): ChatInfo {
    if c.id !in t.chats then c
    else c.(name := if c.name == "" then t.chats[c.id].name else c.name,
            kind := if c.kind == "" then t.chats[c.id].kind else c.kind)
  }

  function BumpChat(t: Tables, chat: nat, at: int, delta: int): Tables {
    if chat !in t.chats then t
    else t.(chats := t.chats[chat := t.chats[chat].(lastAt := Some(at), unread := t.chats[chat].unread + delta)])
  }

  function ClearUnread(t: Tables, chat: nat): Tables {
    if chat !in t.chats then t else t.(chats := t.chats[chat := t.chats[chat].(unread := 0)])
  }

  function SetStatus(t: Tables, msgs: seq<nat>, status: string): Tables {
    t.(messages := map id | id in t.messages ::
      if id.Provider? && id.id in msgs then t.messages[id].(status := status) else t.messages[id])
  }

  function Emit(t: Tables, e: Event): Tables {
    t.(emitted := t.emitted + [e])
  }

  /** A replayed or echoed id changes nothing and owes nothing. */
  function StoreInbound(t: Tables, m: Op): Tables
    requires m.Insert?
  {
    if m.actor in t.due || Provider(m.msg) in t.messages then t
    else t.(messages := t.messages[Provider(m.msg) := Message(m.chat, m.fromMe, m.status)],
            due := t.due[m.actor := Arrival(m.msg, m.chat, m.fromMe, m.sentAt)])
  }

  function Announcement(m: Arrival): Event {
    if m.fromMe then Sent(m.msg) else Received(m.msg)
  }

  /** What follows a new message: the chat's bump and one event. */
  function Settled(t: Tables, actor: nat): Tables {
    if actor !in t.due then t
    else
      var m := t.due[actor];
      Emit(BumpChat(t, m.chat, m.sentAt, if m.fromMe then 0 else 1), Announcement(m)).(due := t.due - {actor})
  }

  function Written(t: Tables, actor: nat): Tables {
    if actor !in t.looked then t
    else UpsertChat(t, t.looked[actor]).(looked := t.looked - {actor})
  }

  function Apply(t: Tables, op: Op): Tables {
    match op
    case Look(actor, info) => t.(looked := t.looked[actor := OrExisting(t, info)])
    case Write(actor) => Written(t, actor)
    case Insert(_, _, _, _, _, _) => StoreInbound(t, op)
    case Settle(actor) => Settled(t, actor)
    case Receipt(_, chat, msgs, status) =>
      if msgs == [] then t
      else
        var t' := SetStatus(t, msgs, status);
        Emit(if status == "read" then ClearUnread(t', chat) else t', Updated(msgs, status))
    case ApiStart(chat) => UpsertChat(t, ChatInfo(chat, "direct", "", 0, None))
    case ApiRead(chat) => ClearUnread(t, chat)
    case ApiInsert(i, chat) =>
      if Tmp(i) in t.messages then t else t.(messages := t.messages[Tmp(i) := Message(chat, true, "sending")])
    case ApiRename(i, id) =>
      if Tmp(i) in t.messages && Provider(id) !in t.messages
      then t.(messages := (t.messages - {Tmp(i)})[Provider(id) := t.messages[Tmp(i)]])
      else t
    case ApiDiscard(i) => t.(messages := t.messages - {Tmp(i)})
    case ApiBump(chat, at) => BumpChat(t, chat, at, 0)
  }

  /** The tables after the first n operations, from t on. */
  function Played(t: Tables, ops: seq<Op>, n: nat): Tables
    requires n <= |ops|
  {
    if n == 0 then t else Apply(Played(t, ops, n - 1), ops[n - 1])
  }

  function After(ops: seq<Op>, n: nat): Tables
    requires n <= |ops|
  {
    Played(EMPTY, ops, n)
  }

  /** The first n chats of a roster, each looked up and written. */
  function RosterOps(actor: nat, batch: seq<ChatInfo>, n: nat): seq<Op>
    requires n <= |batch|
  {
    if n == 0 then [] else RosterOps(actor, batch, n - 1) + [Look(actor, batch[n - 1]), Write(actor)]
  }

  /** A closure as the statements its actor runs, one after another. */
  function Program(actor: nat, c: Callback): seq<Op> {
    match c
    case OnMessage(msg, chat, fromMe, status, sentAt, info) =>
      [Look(actor, info), Write(actor), Insert(actor, msg, chat, fromMe, status, sentAt), Settle(actor)]
    case OnReceipt(chat, msgs, status) => [Receipt(actor, chat, msgs, status)]
    case OnRoster(batch) => RosterOps(actor, batch, |batch|)
  }

  lemma {:induction false} PlayedOn(t: Tables, a: seq<Op>, b: seq<Op>, n: nat)
    requires n <= |b|
    ensures Played(t, a + b, |a| + n) == Played(Played(t, a, |a|), b, n)
  {
    if n > 0 {
      PlayedOn(t, a, b, n - 1);
    } else {
      PlayedPrefix(t, a, b, |a|);
    }
  }

  lemma {:induction false} PlayedPrefix(t: Tables, a: seq<Op>, b: seq<Op>, n: nat)
    requires n <= |a|
    ensures Played(t, a + b, n) == Played(t, a, n)
  {
    if n > 0 { PlayedPrefix(t, a, b, n - 1); }
  }

  /** What a report of a chat leaves of the chats: that chat alone is new or changed, in its name
      and kind, and a name or kind the report leaves out stays as it was. */
  predicate Learnt(before: map<nat, Chat>, after: map<nat, Chat>, info: ChatInfo) {
    && after.Keys == before.Keys + {info.id}
    && (forall chat | chat in before && chat != info.id :: after[chat] == before[chat])
    && var row := after[info.id];
       if info.id in before then
         && row.name == (if info.name != "" then info.name else before[info.id].name)
         && row.kind == (if info.kind != "" then info.kind else before[info.id].kind)
         && row.unread == before[info.id].unread && row.lastAt == before[info.id].lastAt
       else row == Chat(info.kind, info.name, info.unread, info.lastAt)
  }

  /** The last name, and the last kind, that the first n reports of a batch tell of a chat. */
  function LastName(batch: seq<ChatInfo>, n: nat, chat: nat): string
    requires n <= |batch|
  {
    if n == 0 then ""
    else if batch[n - 1].id == chat && batch[n - 1].name != "" then batch[n - 1].name
    else LastName(batch, n - 1, chat)
  }

  function LastKind(batch: seq<ChatInfo>, n: nat, chat: nat): string
    requires n <= |batch|
  {
    if n == 0 then ""
    else if batch[n - 1].id == chat && batch[n - 1].kind != "" then batch[n - 1].kind
    else LastKind(batch, n - 1, chat)
  }

  predicate Mentioned(batch: seq<ChatInfo>, n: nat, chat: nat)
    requires n <= |batch|
  {
    exists i | 0 <= i < n :: batch[i].id == chat
  }

  /** What those reports leave of the chat: it is there, called what was told last or else what it
      was called, and a row that was there keeps its count and its time. */
  predicate LearntOf(before: map<nat, Chat>, after: map<nat, Chat>, batch: seq<ChatInfo>, n: nat, chat: nat)
    requires n <= |batch|
  {
    && (chat in after <==> chat in before || Mentioned(batch, n, chat))
    && (chat in before ==> after[chat].unread == before[chat].unread && after[chat].lastAt == before[chat].lastAt)
    && (chat in after ==>
          var held := if chat in before then before[chat] else Chat("", "", 0, None);
          && after[chat].name == (if LastName(batch, n, chat) != "" then LastName(batch, n, chat) else held.name)
          && after[chat].kind == (if LastKind(batch, n, chat) != "" then LastKind(batch, n, chat) else held.kind))
  }

  ghost predicate AllLearnt(before: map<nat, Chat>, after: map<nat, Chat>, batch: seq<ChatInfo>, n: nat)
    requires n <= |batch|
  {
    forall chat :: LearntOf(before, after, batch, n, chat)
  }

  lemma LearntOneOf(before: map<nat, Chat>, mid: map<nat, Chat>, after: map<nat, Chat>, batch: seq<ChatInfo>, n: nat,
                    chat: nat)
    requires n < |batch| && LearntOf(before, mid, batch, n, chat) && Learnt(mid, after, batch[n])
    ensures LearntOf(before, after, batch, n + 1, chat)
  {
    assert Mentioned(batch, n + 1, chat) <==> Mentioned(batch, n, chat) || batch[n].id == chat;
    if !Mentioned(batch, n, chat) { NothingTold(batch, n, chat); }
  }

  lemma {:induction false} NothingTold(batch: seq<ChatInfo>, n: nat, chat: nat)
    requires n <= |batch| && !Mentioned(batch, n, chat)
    ensures LastName(batch, n, chat) == LastKind(batch, n, chat) == ""
  {
    if n > 0 { NothingTold(batch, n - 1, chat); }
  }

  lemma LearntOneMore(before: map<nat, Chat>, mid: map<nat, Chat>, after: map<nat, Chat>, batch: seq<ChatInfo>, n: nat)
    requires n < |batch| && AllLearnt(before, mid, batch, n) && Learnt(mid, after, batch[n])
    ensures AllLearnt(before, after, batch, n + 1)
  {
    var m := n + 1;
    forall chat
      ensures LearntOf(before, after, batch, m, chat)
    {
      assert LearntOf(before, mid, batch, n, chat);
      LearntOneOf(before, mid, after, batch, n, chat);
    }
  }

  /** A message's chat has its time and one more unread, or none more, when it has a row. */
  predicate Bumped(before: map<nat, Chat>, after: map<nat, Chat>, chat: nat, at: int, more: nat) {
    && after.Keys == before.Keys
    && (forall c | c in before && c != chat :: after[c] == before[c])
    && (chat in before ==> after[chat] == before[chat].(lastAt := Some(at), unread := before[chat].unread + more))
  }

  /** What a new message and the report that comes with it leave of the chats. */
  ghost predicate Arrived(before: map<nat, Chat>, after: map<nat, Chat>, info: ChatInfo, chat: nat, at: int, more: nat) {
    exists learnt :: Learnt(before, learnt, info) && Bumped(learnt, after, chat, at, more)
  }

  // ---- an actor's goroutine ----

  /** The account's tables, and the closures as one actor runs them undisturbed. */
  class Account {
    const account: nat
    var chats: map<nat, Chat>
    var messages: map<MsgId, Message>
    var emitted: seq<Event>
    var looked: map<nat, ChatInfo>
    var due: map<nat, Arrival>

    constructor (account: nat)
      ensures this.account == account && Contents() == EMPTY
    {
      this.account := account;
      chats, messages, emitted, looked, due := map[], map[], [], map[], map[];
    }

    function Contents(): Tables
      reads this
    {
      Tables(chats, messages, emitted, looked, due)
    }

    method ChatOrExisting(info: ChatInfo) returns (full: ChatInfo)
      ensures full == OrExisting(Contents(), info)
      ensures full.id == info.id && full.unread == info.unread && full.lastAt == info.lastAt
      ensures full.name == if info.name != "" || info.id !in chats then info.name else chats[info.id].name
      ensures full.kind == if info.kind != "" || info.id !in chats then info.kind else chats[info.id].kind
    {
      full := info;
      if info.name != "" && info.kind != "" { return; }
      if info.id !in chats { return; }
      var existing := chats[info.id];
      if full.name == "" { full := full.(name := existing.name); }
      if full.kind == "" { full := full.(kind := existing.kind); }
    }

    method Upsert(info: ChatInfo)
      modifies `chats
      ensures Contents() == UpsertChat(old(Contents()), info)
      ensures chats == old(chats)[info.id := chats[info.id]]
      ensures chats[info.id].kind == info.kind && chats[info.id].name == info.name
      // A row that is there keeps what belongs to the messages.
      ensures var first := info.id !in old(chats);
        && chats[info.id].unread == (if first then info.unread else old(chats)[info.id].unread)
        && chats[info.id].lastAt == (if first then info.lastAt else old(chats)[info.id].lastAt)
    {
      if info.id in chats {
        chats := chats[info.id := chats[info.id].(kind := info.kind, name := info.name)];
      } else {
        chats := chats[info.id := Chat(info.kind, info.name, info.unread, info.lastAt)];
      }
    }

    /** UpsertChat of chatOrExisting, with nothing in between. */
    method WriteChat(actor: nat, info: ChatInfo)
      modifies `chats, `looked
      ensures Contents() == Apply(Apply(old(Contents()), Look(actor, info)), Write(actor))
      ensures Learnt(old(chats), chats, info)
    {
      var full := ChatOrExisting(info);
      Upsert(full);
      looked := looked - {actor};
    }

    method Bump(chat: nat, at: int, delta: int)
      modifies `chats
      ensures Contents() == BumpChat(old(Contents()), chat, at, delta)
      ensures chat in old(chats) ==>
        && chats == old(chats)[chat := chats[chat]] && chats[chat].lastAt == Some(at)
        && chats[chat].unread == old(chats)[chat].unread + delta
        && chats[chat].kind == old(chats)[chat].kind && chats[chat].name == old(chats)[chat].name
      ensures chat !in old(chats) ==> chats == old(chats)
    {
      if chat in chats {
        var c := chats[chat];
        chats := chats[chat := c.(lastAt := Some(at), unread := c.unread + delta)];
      }
    }

    method Clear(chat: nat)
      modifies `chats
      ensures Contents() == ClearUnread(old(Contents()), chat)
      ensures chat in old(chats) ==> chats == old(chats)[chat := old(chats)[chat].(unread := 0)]
      ensures chat !in old(chats) ==> chats == old(chats)
    {
      if chat in chats { chats := chats[chat := chats[chat].(unread := 0)]; }
    }

    method InsertMessage(actor: nat, msg: nat, chat: nat, fromMe: bool, status: string, sentAt: int)
        returns (inserted: bool)
      requires actor !in due
      modifies `messages, `due
      ensures Contents() == Apply(old(Contents()), Insert(actor, msg, chat, fromMe, status, sentAt))
      ensures inserted <==> actor in due
      ensures inserted <==> Provider(msg) !in old(messages)
      ensures messages == if inserted then old(messages)[Provider(msg) := Message(chat, fromMe, status)] else old(messages)
      ensures due == if inserted then old(due)[actor := Arrival(msg, chat, fromMe, sentAt)] else old(due)
    {
      inserted := Provider(msg) !in messages;
      if inserted {
        messages := messages[Provider(msg) := Message(chat, fromMe, status)];
        due := due[actor := Arrival(msg, chat, fromMe, sentAt)];
      }
    }

    /** What follows a new message. */
    method SettleNew(actor: nat, msg: nat, chat: nat, fromMe: bool, sentAt: int)
      requires actor in due && due[actor] == Arrival(msg, chat, fromMe, sentAt)
      modifies `chats, `emitted, `due
      ensures Contents() == Settled(old(Contents()), actor)
      ensures Bumped(old(chats), chats, chat, sentAt, if fromMe then 0 else 1)
      ensures emitted == old(emitted) + [if fromMe then Sent(msg) else Received(msg)]
    {
      Bump(chat, sentAt, if fromMe then 0 else 1);
      emitted := emitted + [if fromMe then Sent(msg) else Received(msg)];
      due := due - {actor};
    }

    /** The sink's Message callback and its closure. */
    method TakeMessage(called: nat, actor: nat, msg: nat, chat: nat, fromMe: bool, status: string, sentAt: int,
                       info: ChatInfo)
      requires actor !in due
      modifies this
      ensures Contents() == if called != account then old(Contents())
        else Played(old(Contents()), Program(actor, OnMessage(msg, chat, fromMe, status, sentAt, info)), 4)
      // The message is stored, its chat is bumped and the news is out, unless the id was there.
      ensures called == account ==>
        if Provider(msg) in old(messages) then
          messages == old(messages) && emitted == old(emitted) && Learnt(old(chats), chats, info)
        else
          && messages == old(messages)[Provider(msg) := Message(chat, fromMe, status)]
          && emitted == old(emitted) + [if fromMe then Sent(msg) else Received(msg)]
          && Arrived(old(chats), chats, info, chat, sentAt, if fromMe then 0 else 1)
    {
      if called != account { return; }
      ghost var was, ops := Contents(), Program(actor, OnMessage(msg, chat, fromMe, status, sentAt, info));
      WriteChat(actor, info);
      assert Contents() == Played(was, ops, 2) by { assert Played(was, ops, 1) == Apply(was, ops[0]); }
      var inserted := InsertMessage(actor, msg, chat, fromMe, status, sentAt);
      assert Contents() == Played(was, ops, 3);
      assert Played(was, ops, 4) == Settled(Contents(), actor);
      if !inserted { return; }
      SettleNew(actor, msg, chat, fromMe, sentAt);
    }

    /** The sink's Receipt callback and its closure. */
    method TakeReceipt(called: nat, actor: nat, chat: nat, msgs: seq<nat>, status: string)
      modifies this
      ensures Contents() == if called != account then old(Contents())
        else Played(old(Contents()), Program(actor, OnReceipt(chat, msgs, status)), 1)
      ensures called != account || msgs == [] ==> Contents() == old(Contents())
      ensures called == account && msgs != [] ==>
        && emitted == old(emitted) + [Updated(msgs, status)]
        && messages.Keys == old(messages).Keys
        && (forall id | id in messages :: messages[id] ==
              if id.Provider? && id.id in msgs then old(messages)[id].(status := status) else old(messages)[id])
        && chats == (if status == "read" && chat in old(chats)
                     then old(chats)[chat := old(chats)[chat].(unread := 0)] else old(chats))
    {
      if called != account || msgs == [] { return; }
      messages := map id | id in messages ::
        if id.Provider? && id.id in msgs then messages[id].(status := status) else messages[id];
      if status == "read" { Clear(chat); }
      emitted := emitted + [Updated(msgs, status)];
    }

    /** One chat of a roster turn. */
    method LearnNth(actor: nat, batch: seq<ChatInfo>, i: nat, ghost was: Tables)
      requires i < |batch|
      requires Contents() == Played(was, RosterOps(actor, batch, i), |RosterOps(actor, batch, i)|)
      requires AllLearnt(was.chats, chats, batch, i)
      modifies `chats, `looked
      ensures Contents() == Played(was, RosterOps(actor, batch, i + 1), |RosterOps(actor, batch, i + 1)|)
      ensures AllLearnt(was.chats, chats, batch, i + 1)
    {
      ghost var ops, two, mid := RosterOps(actor, batch, i), [Look(actor, batch[i]), Write(actor)], chats;
      PlayedOn(was, ops, two, 2);
      assert Played(Contents(), two, 1) == Apply(Contents(), two[0]);
      WriteChat(actor, batch[i]);
      LearntOneMore(was.chats, mid, chats, batch, i);
    }

    /** One roster turn: a batch of chats, in order. */
    method ApplyRoster(actor: nat, batch: seq<ChatInfo>)
      modifies `chats, `looked
      ensures Contents() ==
        Played(old(Contents()), Program(actor, OnRoster(batch)), |Program(actor, OnRoster(batch))|)
      ensures AllLearnt(old(chats), chats, batch, |batch|)
    {
      for i := 0 to |batch|
        invariant Contents() == Played(old(Contents()), RosterOps(actor, batch, i), |RosterOps(actor, batch, i)|)
        invariant AllLearnt(old(chats), chats, batch, i)
      {
        LearnNth(actor, batch, i, old(Contents()));
      }
    }
  }

  /** How the roster is cut into inbox turns. */
  method Chunks<T>(items: seq<T>) returns (chunks: seq<seq<T>>)
    ensures Joined(chunks, |chunks|) == items
    ensures forall i | 0 <= i < |chunks| :: 1 <= |chunks[i]| <= 10
    ensures forall i | 0 <= i < |chunks| - 1 :: |chunks[i]| == 10
  {
    chunks := [];
    var i := 0;
    while i < |items|
      invariant 0 <= i
      invariant Joined(chunks, |chunks|) == items[..if i < |items| then i else |items|]
      invariant forall k | 0 <= k < |chunks| :: 1 <= |chunks[k]| <= ROSTER_CHUNK
      invariant forall k | 0 <= k < |chunks| - 1 :: |chunks[k]| == ROSTER_CHUNK
      invariant i < |items| && chunks != [] ==> |chunks[|chunks| - 1]| == ROSTER_CHUNK
    {
      var end := if i + ROSTER_CHUNK < |items| then i + ROSTER_CHUNK else |items|;
      JoinedPrefix(chunks, [items[i..end]], |chunks|);
      chunks := chunks + [items[i..end]];
      i := i + ROSTER_CHUNK;
    }
  }

  function Joined<T>(chunks: seq<seq<T>>, n: nat): seq<T>
    requires n <= |chunks|
  {
    if n == 0 then [] else Joined(chunks, n - 1) + chunks[n - 1]
  }

  lemma {:induction false} JoinedPrefix<T>(a: seq<seq<T>>, b: seq<seq<T>>, n: nat)
    requires n <= |a|
    ensures Joined(a + b, n) == Joined(a, n)
  {
    if n > 0 { JoinedPrefix(a, b, n - 1); }
  }

  // ---- the unread count is the size of a set ----

  /** The message an operation inserts or counts. */
  function Subject(ops: seq<Op>, k: nat): nat
    requires k < |ops|
  {
    var t := After(ops, k);
    if ops[k].Insert? then ops[k].msg
    else if ops[k].Settle? && ops[k].actor in t.due then t.due[ops[k].actor].msg
    else 0
  }

  predicate Waits(m: Arrival, chat: nat) {
    m.chat == chat && !m.fromMe
  }

  predicate Counts(t: Tables, op: Op, chat: nat) {
    op.Settle? && op.actor in t.due && Waits(t.due[op.actor], chat) && chat in t.chats
  }

  /** Operation k counts a message, which somebody else wrote, into this chat. */
  predicate NewIn(ops: seq<Op>, k: nat, chat: nat)
    requires k < |ops|
  {
    Counts(After(ops, k), ops[k], chat)
  }

  /** Operation k is the first to store its message. */
  predicate SinkStores(ops: seq<Op>, k: nat)
    requires k < |ops|
  {
    ops[k].Insert? && ops[k].actor !in After(ops, k).due && Provider(ops[k].msg) !in After(ops, k).messages
  }

  predicate Clears(op: Op, chat: nat) {
    || (op.ApiRead? && op.chat == chat)
    || (op.Receipt? && op.chat == chat && op.msgs != [] && op.status == "read")
  }

  ghost predicate ClearedSince(ops: seq<Op>, k: nat, n: nat, chat: nat)
    requires n <= |ops|
  {
    exists j | k < j < n :: Clears(ops[j], chat)
  }

  /** The messages of others counted into the chat since it was last read. */
  ghost function Unseen(ops: seq<Op>, n: nat, chat: nat): set<nat>
    requires n <= |ops|
  {
    set k | 0 <= k < n && NewIn(ops, k, chat) && !ClearedSince(ops, k, n, chat) :: Subject(ops, k)
  }

  /** The count a chat's row is created with. */
  function Reported(t: Tables, op: Op): int {
    if op.Write? && op.actor in t.looked then t.looked[op.actor].unread else 0
  }

  /** What the provider reported when the chat's row was created, until the chat is read. */
  function Inherited(ops: seq<Op>, n: nat, chat: nat): int
    requires n <= |ops|
  {
    if n == 0 || Clears(ops[n - 1], chat) then 0
    else if chat !in After(ops, n - 1).chats && chat in After(ops, n).chats
    then Reported(After(ops, n - 1), ops[n - 1])
    else Inherited(ops, n - 1, chat)
  }

  /** The operation puts a row under the provider's id. */
  predicate Puts(t: Tables, op: Op, msg: nat) {
    || (op.Insert? && op.msg == msg && op.actor !in t.due)
    || (op.ApiRename? && op.msg == msg && Tmp(op.send) in t.messages)
  }

  lemma ProviderRows(t: Tables, op: Op, msg: nat)
    ensures Provider(msg) in Apply(t, op).messages <==> Provider(msg) in t.messages || Puts(t, op, msg)
  {
  }

  /** What an operation leaves of the messages on their way, actor by actor. */
  lemma DueAfter(t: Tables, op: Op)
    ensures Apply(t, op).due ==
      if op.Settle? then t.due - {op.actor}
      else if op.Insert? && op.actor !in t.due && Provider(op.msg) !in t.messages
      then t.due[op.actor := Arrival(op.msg, op.chat, op.fromMe, op.sentAt)]
      else t.due
  {
    if op.Settle? && op.actor !in t.due { assert t.due - {op.actor} == t.due; }
  }

  lemma {:induction false} StoredStays(ops: seq<Op>, k: nat, n: nat, msg: nat)
    requires k <= n <= |ops| && Provider(msg) in After(ops, k).messages
    ensures Provider(msg) in After(ops, n).messages
  {
    if k < n {
      StoredStays(ops, k, n - 1, msg);
      ProviderRows(After(ops, n - 1), ops[n - 1], msg);
    }
  }

  lemma {:induction false} DueIsStored(ops: seq<Op>, n: nat, a: nat)
    requires n <= |ops| && a in After(ops, n).due
    ensures Provider(After(ops, n).due[a].msg) in After(ops, n).messages
  {
    if n > 0 {
      var t := After(ops, n - 1);
      DueAfter(t, ops[n - 1]);
      if a in t.due { DueIsStored(ops, n - 1, a); }
      ProviderRows(t, ops[n - 1], After(ops, n).due[a].msg);
    }
  }

  /** No two actors have the same message on its way: only one of them inserted it. */
  lemma {:induction false} DueDiffers(ops: seq<Op>, n: nat, a: nat, b: nat)
    requires n <= |ops| && a != b && a in After(ops, n).due && b in After(ops, n).due
    ensures After(ops, n).due[a].msg != After(ops, n).due[b].msg
  {
    if n > 0 {
      var t := After(ops, n - 1);
      DueAfter(t, ops[n - 1]);
      if a in t.due { DueIsStored(ops, n - 1, a); }
      if b in t.due { DueIsStored(ops, n - 1, b); }
      if a in t.due && b in t.due { DueDiffers(ops, n - 1, a, b); }
    }
  }

  /** The message is inserted and not yet bumped. */
  predicate OnItsWay(ops: seq<Op>, n: nat, msg: nat)
    requires n <= |ops|
  {
    var due := After(ops, n).due;
    exists a | a in due :: due[a].msg == msg
  }

  lemma OnItsWayStep(ops: seq<Op>, n: nat, msg: nat)
    requires n < |ops|
    ensures OnItsWay(ops, n + 1, msg) <==>
      (OnItsWay(ops, n, msg) && !SettlesMsg(ops, n, msg)) || (SinkStores(ops, n) && ops[n].msg == msg)
    ensures SettlesMsg(ops, n, msg) ==> OnItsWay(ops, n, msg)
  {
    var t, t' := After(ops, n), After(ops, n + 1);
    DueAfter(t, ops[n]);
    if OnItsWay(ops, n, msg) {
      var a :| a in t.due && t.due[a].msg == msg;
      if ops[n].Settle? && ops[n].actor in t.due && ops[n].actor != a { DueDiffers(ops, n, a, ops[n].actor); }
      if ops[n].Settle? && ops[n].actor == a {
        forall b | b in t'.due ensures t'.due[b].msg != msg { DueDiffers(ops, n, a, b); }
      } else {
        assert a in t'.due && t'.due[a] == t.due[a];
      }
    }
    if SinkStores(ops, n) && ops[n].msg == msg { assert t'.due[ops[n].actor].msg == msg; }
  }

  /** Operation k bumps and announces the message. */
  predicate SettlesMsg(ops: seq<Op>, k: nat, msg: nat)
    requires k < |ops|
  {
    var due := After(ops, k).due;
    ops[k].Settle? && ops[k].actor in due && due[ops[k].actor].msg == msg
  }

  /** A message that has been counted is never on its way again. */
  lemma {:induction false} CountedOnce(ops: seq<Op>, k: nat, n: nat, msg: nat)
    requires k < n <= |ops| && SettlesMsg(ops, k, msg)
    ensures !OnItsWay(ops, n, msg)
  {
    DueIsStored(ops, k, ops[k].actor);
    StoredStays(ops, k, n - 1, msg);
    if k + 1 < n { CountedOnce(ops, k, n - 1, msg); }
    OnItsWayStep(ops, n - 1, msg);
  }

  lemma UnseenStep(ops: seq<Op>, n: nat, chat: nat)
    requires n < |ops|
    ensures Clears(ops[n], chat) ==> Unseen(ops, n + 1, chat) == {}
    ensures NewIn(ops, n, chat) ==>
      Subject(ops, n) !in Unseen(ops, n, chat) &&
      Unseen(ops, n + 1, chat) == Unseen(ops, n, chat) + {Subject(ops, n)}
    ensures !Clears(ops[n], chat) && !NewIn(ops, n, chat) ==> Unseen(ops, n + 1, chat) == Unseen(ops, n, chat)
  {
    forall k | 0 <= k < n && NewIn(ops, k, chat)
      ensures ClearedSince(ops, k, n + 1, chat) <==> ClearedSince(ops, k, n, chat) || Clears(ops[n], chat)
      ensures NewIn(ops, n, chat) ==> Subject(ops, k) != Subject(ops, n)
    {
      assert Clears(ops[n], chat) ==> ClearedSince(ops, k, n + 1, chat);
      CountedOnce(ops, k, n, Subject(ops, k));
    }
    assert !ClearedSince(ops, n, n + 1, chat);
  }

  /** One operation as one chat's row sees it. */
  lemma UnreadStep(t: Tables, op: Op, chat: nat)
    requires chat in Apply(t, op).chats
    ensures Counts(t, op, chat) ==> !Clears(op, chat)
    ensures Apply(t, op).chats[chat].unread ==
      if Clears(op, chat) then 0
      else (if Counts(t, op, chat) then 1 else 0) + if chat in t.chats then t.chats[chat].unread else Reported(t, op)
  {
  }

  lemma ChatsStay(t: Tables, op: Op, chat: nat)
    ensures chat in t.chats ==> chat in Apply(t, op).chats
  {
  }

  ghost predicate CountOk(ops: seq<Op>, n: nat, chat: nat)
    requires n <= |ops|
  {
    if chat in After(ops, n).chats
    then After(ops, n).chats[chat].unread == Inherited(ops, n, chat) + |Unseen(ops, n, chat)|
    else Unseen(ops, n, chat) == {}
  }

  lemma InheritedStep(ops: seq<Op>, n: nat, chat: nat)
    requires n < |ops|
    ensures Inherited(ops, n + 1, chat) ==
      if Clears(ops[n], chat) then 0
      else if chat !in After(ops, n).chats && chat in After(ops, n + 1).chats then Reported(After(ops, n), ops[n])
      else Inherited(ops, n, chat)
  {
  }

  lemma CountOkStep(ops: seq<Op>, n: nat, chat: nat)
    requires n < |ops| && CountOk(ops, n, chat)
    ensures CountOk(ops, n + 1, chat)
  {
    UnseenStep(ops, n, chat);
    InheritedStep(ops, n, chat);
    ChatsStay(After(ops, n), ops[n], chat);
    if chat in After(ops, n + 1).chats { UnreadStep(After(ops, n), ops[n], chat); }
  }

  /** A chat's unread count is what its row was created with, if the chat was not read since,
      plus the number of distinct messages of others counted into it since it was read. */
  lemma {:induction false} UnreadIsASet(ops: seq<Op>, n: nat, chat: nat)
    requires n <= |ops|
    ensures chat in After(ops, n).chats ==>
      After(ops, n).chats[chat].unread == Inherited(ops, n, chat) + |Unseen(ops, n, chat)|
    ensures chat !in After(ops, n).chats ==> Unseen(ops, n, chat) == {}
  {
    if n > 0 {
      var m := n - 1;
      UnreadIsASet(ops, m, chat);
      CountOkStep(ops, m, chat);
      assert CountOk(ops, m + 1, chat);
    }
  }

  /** When rows are created with a zero count, as the one chat provider does, the count is
      exactly that number. */
  lemma {:induction false} NothingInherited(ops: seq<Op>, n: nat, chat: nat)
    requires n <= |ops|
    requires forall k | 0 <= k < n :: Reported(After(ops, k), ops[k]) == 0
    ensures Inherited(ops, n, chat) == 0
  {
    if n > 0 { NothingInherited(ops, n - 1, chat); }
  }

  // ---- what is stored, and what is announced ----

  predicate PutsAt(ops: seq<Op>, k: nat, msg: nat)
    requires k < |ops|
  {
    Puts(After(ops, k), ops[k], msg)
  }

  lemma {:induction false} StoredExactly(ops: seq<Op>, n: nat, msg: nat)
    requires n <= |ops|
    ensures Provider(msg) in After(ops, n).messages <==> exists k | 0 <= k < n :: PutsAt(ops, k, msg)
  {
    if n > 0 {
      StoredExactly(ops, n - 1, msg);
      ProviderRows(After(ops, n - 1), ops[n - 1], msg);
      assert PutsAt(ops, n - 1, msg) <==> Puts(After(ops, n - 1), ops[n - 1], msg);
    }
  }

  function Announcements(events: seq<Event>, n: nat, msg: nat): nat
    requires n <= |events|
  {
    if n == 0 then 0
    else
      Announcements(events, n - 1, msg) + if events[n - 1] == Received(msg) || events[n - 1] == Sent(msg) then 1 else 0
  }

  /** How often the message was announced as received or as sent. */
  function Count(events: seq<Event>, msg: nat): nat {
    Announcements(events, |events|, msg)
  }

  lemma {:induction false} AnnouncementsPrefix(a: seq<Event>, e: Event, n: nat, msg: nat)
    requires n <= |a|
    ensures Announcements(a + [e], n, msg) == Announcements(a, n, msg)
  {
    if n > 0 { AnnouncementsPrefix(a, e, n - 1, msg); }
  }

  /** What an operation announces. */
  function News(t: Tables, op: Op): seq<Event> {
    if op.Settle? && op.actor in t.due then [Announcement(t.due[op.actor])]
    else if op.Receipt? && op.msgs != [] then [Updated(op.msgs, op.status)]
    else []
  }

  lemma EmittedStep(t: Tables, op: Op)
    ensures Apply(t, op).emitted == t.emitted + News(t, op)
  {
  }

  /** The sink was the first to store the message. */
  predicate Taken(ops: seq<Op>, n: nat, msg: nat)
    requires n <= |ops|
  {
    exists k | 0 <= k < n :: SinkStores(ops, k) && ops[k].msg == msg
  }

  lemma TakenIsStored(ops: seq<Op>, n: nat, msg: nat)
    requires n <= |ops| && Taken(ops, n, msg)
    ensures Provider(msg) in After(ops, n).messages
  {
    var k :| 0 <= k < n && SinkStores(ops, k) && ops[k].msg == msg;
    StoredStays(ops, k + 1, n, msg);
  }

  lemma TakenStep(ops: seq<Op>, n: nat, msg: nat)
    requires n < |ops|
    ensures Taken(ops, n + 1, msg) <==> Taken(ops, n, msg) || (SinkStores(ops, n) && ops[n].msg == msg)
    ensures SinkStores(ops, n) && ops[n].msg == msg ==> !Taken(ops, n, msg)
  {
    if Taken(ops, n, msg) { TakenIsStored(ops, n, msg); }
  }

  function CountAt(ops: seq<Op>, n: nat, msg: nat): nat
    requires n <= |ops|
  {
    Count(After(ops, n).emitted, msg)
  }

  lemma CountedStep(ops: seq<Op>, n: nat, msg: nat)
    requires n < |ops|
    ensures CountAt(ops, n + 1, msg) == CountAt(ops, n, msg) + if SettlesMsg(ops, n, msg) then 1 else 0
  {
    EmittedStep(After(ops, n), ops[n]);
    var was, news := After(ops, n).emitted, News(After(ops, n), ops[n]);
    if news == [] {
      assert was + news == was;
    } else {
      AnnouncementsPrefix(was, news[0], |was|, msg);
      assert was + news == was + [news[0]];
    }
  }

  predicate AnnouncedOk(ops: seq<Op>, n: nat, msg: nat)
    requires n <= |ops|
  {
    && (OnItsWay(ops, n, msg) ==> Taken(ops, n, msg))
    && CountAt(ops, n, msg) == if Taken(ops, n, msg) && !OnItsWay(ops, n, msg) then 1 else 0
  }

  lemma AnnouncedStep(ops: seq<Op>, n: nat, msg: nat)
    requires n < |ops| && AnnouncedOk(ops, n, msg)
    ensures AnnouncedOk(ops, n + 1, msg)
  {
    CountedStep(ops, n, msg);
    TakenStep(ops, n, msg);
    OnItsWayStep(ops, n, msg);
  }

  /** Every message a sink is first to store is announced exactly once, as received or as
      sent, as soon as it is no longer on its way; replays, echoes of a promoted row and
      everything else announce nothing, whatever number of actors there are. */
  lemma {:induction false} AnnouncedOnce(ops: seq<Op>, n: nat, msg: nat)
    requires n <= |ops|
    ensures Count(After(ops, n).emitted, msg) == if Taken(ops, n, msg) && !OnItsWay(ops, n, msg) then 1 else 0
    ensures AnnouncedOk(ops, n, msg)
  {
    if n > 0 {
      AnnouncedOnce(ops, n - 1, msg);
      AnnouncedStep(ops, n - 1, msg);
    }
  }

  // ---- counted since, stored since ----

  predicate StoresIn(ops: seq<Op>, k: nat, chat: nat)
    requires k < |ops|
  {
    SinkStores(ops, k) && ops[k].chat == chat && !ops[k].fromMe
  }

  /** The messages of others a sink was first to store in the chat since it was last read. */
  ghost function StoredSince(ops: seq<Op>, n: nat, chat: nat): set<nat>
    requires n <= |ops|
  {
    set k | 0 <= k < n && StoresIn(ops, k, chat) && !ClearedSince(ops, k, n, chat) :: Subject(ops, k)
  }

  function Waiting(due: map<nat, Arrival>, chat: nat): set<nat> {
    set a | a in due && Waits(due[a], chat) :: due[a].msg
  }

  /** The messages of others in the chat, inserted and not yet bumped. */
  function DueSet(ops: seq<Op>, n: nat, chat: nat): set<nat>
    requires n <= |ops|
  {
    Waiting(After(ops, n).due, chat)
  }

  /** A message is inserted into a chat that has a row. */
  ghost predicate Rowed(ops: seq<Op>) {
    forall k | 0 <= k < |ops| :: ops[k].Insert? ==> ops[k].chat in After(ops, k).chats
  }

  /** The messages that were due when the chat was last read: stored before the read, bumped, if
      at all, after it. */
  function Early(ops: seq<Op>, n: nat, chat: nat): set<nat>
    requires n <= |ops|
  {
    if n == 0 then {}
    else if Clears(ops[n - 1], chat) then DueSet(ops, n - 1, chat)
    else Early(ops, n - 1, chat)
  }

  lemma {:induction false} DueHasRow(ops: seq<Op>, n: nat, a: nat)
    requires n <= |ops| && a in After(ops, n).due && Rowed(ops)
    ensures After(ops, n).due[a].chat in After(ops, n).chats
  {
    if n > 0 {
      var t := After(ops, n - 1);
      DueAfter(t, ops[n - 1]);
      if a in t.due { DueHasRow(ops, n - 1, a); }
      ChatsStay(t, ops[n - 1], After(ops, n).due[a].chat);
    }
  }

  lemma StoredSinceStep(ops: seq<Op>, n: nat, chat: nat)
    requires n < |ops|
    ensures Clears(ops[n], chat) ==> StoredSince(ops, n + 1, chat) == {}
    ensures !Clears(ops[n], chat) ==>
      StoredSince(ops, n + 1, chat) ==
        StoredSince(ops, n, chat) + if StoresIn(ops, n, chat) then {Subject(ops, n)} else {}
  {
    forall k | 0 <= k < n
      ensures ClearedSince(ops, k, n + 1, chat) <==> ClearedSince(ops, k, n, chat) || Clears(ops[n], chat)
    {
      assert Clears(ops[n], chat) ==> ClearedSince(ops, k, n + 1, chat);
    }
    assert !ClearedSince(ops, n, n + 1, chat);
  }

  lemma DueSetCounts(ops: seq<Op>, n: nat, chat: nat)
    requires n < |ops| && NewIn(ops, n, chat)
    ensures Subject(ops, n) in DueSet(ops, n, chat)
    ensures DueSet(ops, n + 1, chat) == DueSet(ops, n, chat) - {Subject(ops, n)}
  {
    var t := After(ops, n);
    DueAfter(t, ops[n]);
    forall a | a in t.due && a != ops[n].actor ensures t.due[a].msg != Subject(ops, n) {
      DueDiffers(ops, n, a, ops[n].actor);
    }
    var t' := After(ops, n + 1);
    assert t'.due == t.due - {ops[n].actor};
    forall x | x in DueSet(ops, n, chat) && x != Subject(ops, n) ensures x in DueSet(ops, n + 1, chat) {
      var a :| a in t.due && Waits(t.due[a], chat) && t.due[a].msg == x;
      assert a in t'.due && t'.due[a] == t.due[a];
    }
  }

  lemma DueSetStores(ops: seq<Op>, n: nat, chat: nat)
    requires n < |ops| && StoresIn(ops, n, chat)
    ensures Subject(ops, n) !in DueSet(ops, n, chat)
    ensures DueSet(ops, n + 1, chat) == DueSet(ops, n, chat) + {Subject(ops, n)}
  {
    var t, t' := After(ops, n), After(ops, n + 1);
    DueAfter(t, ops[n]);
    forall a | a in t.due ensures t.due[a].msg != ops[n].msg { DueIsStored(ops, n, a); }
    forall x ensures x in DueSet(ops, n + 1, chat) <==> x in DueSet(ops, n, chat) + {ops[n].msg} {
      if x == ops[n].msg { assert ops[n].actor in t'.due; }
      if x in DueSet(ops, n, chat) {
        var a :| a in t.due && Waits(t.due[a], chat) && t.due[a].msg == x;
        assert a in t'.due && t'.due[a] == t.due[a];
      }
    }
  }

  lemma DueSetStays(ops: seq<Op>, n: nat, chat: nat)
    requires n < |ops| && Rowed(ops) && !NewIn(ops, n, chat) && !StoresIn(ops, n, chat)
    ensures DueSet(ops, n + 1, chat) == DueSet(ops, n, chat)
  {
    var t, t' := After(ops, n), After(ops, n + 1);
    DueAfter(t, ops[n]);
    forall a ensures a in t.due && Waits(t.due[a], chat) <==> a in t'.due && Waits(t'.due[a], chat) {
      if a in t.due { DueHasRow(ops, n, a); }
    }
    assert forall a | a in t.due && a in t'.due :: t.due[a] == t'.due[a];
  }

  /** A message stored only now has not been counted. */
  lemma NewIsUncounted(ops: seq<Op>, n: nat, chat: nat)
    requires n < |ops| && StoresIn(ops, n, chat)
    ensures Subject(ops, n) !in Unseen(ops, n, chat)
  {
    forall k | 0 <= k < n && NewIn(ops, k, chat)
      ensures Subject(ops, k) != ops[n].msg
    {
      DueIsStored(ops, k, ops[k].actor);
      StoredStays(ops, k, n, Subject(ops, k));
    }
  }

  /** counted and due against stored and early, as plain sets. */
  predicate Tally(counted: set<nat>, due: set<nat>, stored: set<nat>, early: set<nat>) {
    counted + due == stored + early && counted !! due && stored !! early
  }

  lemma TallyCards(counted: set<nat>, due: set<nat>, stored: set<nat>, early: set<nat>)
    requires Tally(counted, due, stored, early)
    ensures |counted| + |due| == |stored| + |early|
  {
    assert |counted + due| == |counted| + |due|;
    assert |stored + early| == |stored| + |early|;
  }

  ghost predicate TallyOk(ops: seq<Op>, n: nat, chat: nat)
    requires n <= |ops|
  {
    Tally(Unseen(ops, n, chat), DueSet(ops, n, chat), StoredSince(ops, n, chat), Early(ops, n, chat))
  }

  lemma TallyStart(ops: seq<Op>, chat: nat)
    ensures TallyOk(ops, 0, chat)
  {
    assert Unseen(ops, 0, chat) == {} && StoredSince(ops, 0, chat) == {};
  }

  /** How a step changes the four sets: a read empties the stored and the counted, a stored
      message becomes due, a due one is counted. */
  predicate Moves(c: set<nat>, d: set<nat>, s: set<nat>, e: set<nat>,
                  c': set<nat>, d': set<nat>, s': set<nat>, e': set<nat>, x: nat) {
    || (c' == {} && s' == {} && d' == d && e' == d)
    || (e' == e && c' == c && d' == d && s' == s)
    || (e' == e && c' == c && x !in c + d && d' == d + {x} && s' == s + {x})
    || (e' == e && s' == s && x in d && d' == d - {x} && c' == c + {x})
  }

  lemma SetsStep(ops: seq<Op>, n: nat, chat: nat)
    requires n < |ops| && Rowed(ops)
    ensures Moves(
      Unseen(ops, n, chat), DueSet(ops, n, chat), StoredSince(ops, n, chat), Early(ops, n, chat),
      Unseen(ops, n + 1, chat), DueSet(ops, n + 1, chat), StoredSince(ops, n + 1, chat), Early(ops, n + 1, chat),
      Subject(ops, n))
  {
    UnseenStep(ops, n, chat);
    StoredSinceStep(ops, n, chat);
    if NewIn(ops, n, chat) {
      DueSetCounts(ops, n, chat);
    } else if StoresIn(ops, n, chat) {
      NewIsUncounted(ops, n, chat);
      DueSetStores(ops, n, chat);
    } else {
      DueSetStays(ops, n, chat);
    }
  }

  lemma TallyMoves(c: set<nat>, d: set<nat>, s: set<nat>, e: set<nat>,
                   c': set<nat>, d': set<nat>, s': set<nat>, e': set<nat>, x: nat)
    requires Tally(c, d, s, e) && Moves(c, d, s, e, c', d', s', e', x)
    ensures Tally(c', d', s', e')
  {
  }

  lemma TallyStep(ops: seq<Op>, n: nat, chat: nat)
    requires n < |ops| && Rowed(ops) && TallyOk(ops, n, chat)
    ensures TallyOk(ops, n + 1, chat)
  {
    SetsStep(ops, n, chat);
    TallyMoves(
      Unseen(ops, n, chat), DueSet(ops, n, chat), StoredSince(ops, n, chat), Early(ops, n, chat),
      Unseen(ops, n + 1, chat), DueSet(ops, n + 1, chat), StoredSince(ops, n + 1, chat), Early(ops, n + 1, chat),
      Subject(ops, n));
  }

  /** The messages first stored since the chat was read, with those an early read missed, are
      those counted since, with those still due. */
  lemma {:induction false} CountedOrDue(ops: seq<Op>, n: nat, chat: nat)
    requires n <= |ops| && Rowed(ops)
    ensures TallyOk(ops, n, chat)
  {
    if n == 0 {
      TallyStart(ops, chat);
    } else {
      var m := n - 1;
      CountedOrDue(ops, m, chat);
      TallyStep(ops, m, chat);
      assert TallyOk(ops, m + 1, chat);
    }
  }

  /** With nothing due in the chat its unread count is the number of distinct messages of others
      first stored in it since it was read, exactly unless the last read came early, and then
      it is more by the messages that read missed. */
  lemma UnreadIsStoredSince(ops: seq<Op>, n: nat, chat: nat)
    requires n <= |ops| && Rowed(ops) && chat in After(ops, n).chats
    ensures After(ops, n).chats[chat].unread + |DueSet(ops, n, chat)| ==
      Inherited(ops, n, chat) + |StoredSince(ops, n, chat)| + |Early(ops, n, chat)|
    ensures DueSet(ops, n, chat) == {} ==>
      (After(ops, n).chats[chat].unread == Inherited(ops, n, chat) + |StoredSince(ops, n, chat)|
       <==> Early(ops, n, chat) == {})
  {
    UnreadIsASet(ops, n, chat);
    CountedOrDue(ops, n, chat);
    TallyCards(Unseen(ops, n, chat), DueSet(ops, n, chat), StoredSince(ops, n, chat), Early(ops, n, chat));
  }

  /** Each actor has at most one message on its way. */
  lemma {:induction false} WaitingWithin(due: map<nat, Arrival>, chat: nat)
    ensures |Waiting(due, chat)| <= |due|
  {
    if |due| > 0 {
      var a :| a in due;
      var rest := due - {a};
      WaitingWithin(rest, chat);
      var more := Waiting(rest, chat) + {due[a].msg};
      forall x | x in Waiting(due, chat) ensures x in more {
        var b :| b in due && Waits(due[b], chat) && due[b].msg == x;
        assert b == a || (b in rest && rest[b] == due[b]);
      }
      SubsetCard(Waiting(due, chat), more);
      assert due.Keys == rest.Keys + {a};
    }
  }

  lemma {:induction false} SubsetCard(a: set<nat>, b: set<nat>)
    requires a <= b
    ensures |a| <= |b|
  {
    assert b == a + (b - a);
  }

  /** An early read is one particular operation, the last read of the chat; the messages it
      missed are those the actors had on their way, one each at most. */
  lemma {:induction false} EarlyIsARead(ops: seq<Op>, n: nat, chat: nat) returns (j: nat)
    requires n <= |ops| && Early(ops, n, chat) != {}
    ensures j < n && Clears(ops[j], chat) && Early(ops, n, chat) == DueSet(ops, j, chat)
    ensures |Early(ops, n, chat)| <= |After(ops, j).due|
    ensures forall k | j < k < n :: !Clears(ops[k], chat)
  {
    if Clears(ops[n - 1], chat) {
      j := n - 1;
      WaitingWithin(After(ops, j).due, chat);
    } else {
      j := EarlyIsARead(ops, n - 1, chat);
    }
  }

  /** A handler's read between a message's insert and its bump comes too early: the message was
      stored before the read and still counts as unread after it. */
  lemma EarlyReadMissesAMessage(info: ChatInfo)
    requires info.unread == 0
    ensures var ops := [Look(0, info), Write(0), Insert(0, 5, info.id, false, "", 0), ApiRead(info.id), Settle(0)];
      var t := After(ops, 5);
      SinkStores(ops, 2) && Clears(ops[3], info.id) && info.id in t.chats && t.chats[info.id].unread == 1
  {
    var ops := [Look(0, info), Write(0), Insert(0, 5, info.id, false, "", 0), ApiRead(info.id), Settle(0)];
    assert After(ops, 0) == EMPTY;
    assert After(ops, 1) == Apply(EMPTY, ops[0]) == EMPTY.(looked := map[0 := info]);
    assert After(ops, 2) == Apply(After(ops, 1), ops[1]);
    assert After(ops, 2).due == map[] && After(ops, 2).messages == map[];
    assert After(ops, 3) == Apply(After(ops, 2), ops[2]);
    assert After(ops, 4) == Apply(After(ops, 3), ops[3]);
    assert After(ops, 5) == Apply(After(ops, 4), ops[4]);
  }

  // ---- names ----

  /** The two columns a thin report may leave blank. */
  datatype Part = Name | Kind

  function Told(c: ChatInfo, p: Part): string {
    if p.Name? then c.name else c.kind
  }

  /** The chat has a row with this column filled. */
  predicate Known(t: Tables, chat: nat, p: Part) {
    chat in t.chats && (if p.Name? then t.chats[chat].name else t.chats[chat].kind) != ""
  }

  /** Where the actor last looked a chat up. */
  function LookAt(ops: seq<Op>, n: nat, a: nat): (j: Option<nat>)
    requires n <= |ops|
    ensures j.Some? ==> j.value < n && ops[j.value].Look? && ops[j.value].actor == a
    ensures j.Some? ==> forall k | j.value < k < n :: !(ops[k].Look? && ops[k].actor == a)
    ensures j.None? ==> forall k | 0 <= k < n :: !(ops[k].Look? && ops[k].actor == a)
  {
    if n == 0 then None
    else if ops[n - 1].Look? && ops[n - 1].actor == a then Some(n - 1)
    else LookAt(ops, n - 1, a)
  }

  /** An actor's hold on a looked-up chat is its own to change. */
  lemma LookedAfter(t: Tables, op: Op, a: nat)
    ensures op.Look? && op.actor == a ==> Apply(t, op).looked == t.looked[a := OrExisting(t, op.info)]
    ensures op.Write? && op.actor == a ==> a !in Apply(t, op).looked
    ensures !(FromActor(op) && op.actor == a && (op.Look? || op.Write?)) ==>
      (a in Apply(t, op).looked <==> a in t.looked) &&
      (a in t.looked ==> Apply(t, op).looked[a] == t.looked[a])
  {
  }

  /** What an actor holds is what it found when it last looked. */
  lemma {:induction false} LookedThen(ops: seq<Op>, n: nat, a: nat)
    requires n <= |ops| && a in After(ops, n).looked
    ensures LookAt(ops, n, a).Some?
    ensures var j := LookAt(ops, n, a).value; After(ops, n).looked[a] == OrExisting(After(ops, j), ops[j].info)
  {
    LookedAfter(After(ops, n - 1), ops[n - 1], a);
    if !(ops[n - 1].Look? && ops[n - 1].actor == a) { LookedThen(ops, n - 1, a); }
  }

  /** Operation k writes a chat whose column was neither told nor known when it was looked up. */
  predicate WritesUnknown(ops: seq<Op>, k: nat, chat: nat, p: Part)
    requires k < |ops|
  {
    && ops[k].Write?
    && ops[k].actor in After(ops, k).looked
    && After(ops, k).looked[ops[k].actor].id == chat
    && var j := LookAt(ops, k, ops[k].actor);
       j.Some? && Told(ops[j.value].info, p) == "" && !Known(After(ops, j.value), chat, p)
  }

  lemma KnownAfter(t: Tables, op: Op, chat: nat, p: Part)
    requires Known(t, chat, p)
    ensures Known(Apply(t, op), chat, p) <==>
      !(p.Name? && op == ApiStart(chat))
      && !(op.Write? && op.actor in t.looked && t.looked[op.actor].id == chat && Told(t.looked[op.actor], p) == "")
  {
  }

  /** A known name or kind is blanked exactly by the start-chat handler, of names, and by a write
      whose lookup came before it was known. */
  lemma BlankedExactly(ops: seq<Op>, k: nat, chat: nat, p: Part)
    requires k < |ops| && Known(After(ops, k), chat, p)
    ensures Known(After(ops, k + 1), chat, p) <==>
      !(p.Name? && ops[k] == ApiStart(chat)) && !WritesUnknown(ops, k, chat, p)
  {
    KnownAfter(After(ops, k), ops[k], chat, p);
    if ops[k].Write? && ops[k].actor in After(ops, k).looked { LookedThen(ops, k, ops[k].actor); }
  }

  /** What is known stays known while neither happens. */
  lemma {:induction false} KnownStaysKnown(ops: seq<Op>, i: nat, n: nat, chat: nat, p: Part)
    requires i <= n <= |ops| && Known(After(ops, i), chat, p)
    requires forall k | i <= k < n :: !(p.Name? && ops[k] == ApiStart(chat)) && !WritesUnknown(ops, k, chat, p)
    ensures Known(After(ops, n), chat, p)
  {
    if i < n {
      KnownStaysKnown(ops, i, n - 1, chat, p);
      BlankedExactly(ops, n - 1, chat, p);
    }
  }
}
