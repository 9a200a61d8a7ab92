/** The mirrored content: emails and chat messages, every statement that writes them, and
    the retention policy's promise that what was evicted stays evicted. Times are whole
    seconds. */
module Mirror {
  import opened Options

  datatype Key = Key(account: string, id: string)

  // ----------------------------------------------------------------- emails

  /** The columns eviction blanks. The lists are the JSON text the columns hold. */
  datatype Content = Content(
    subject: string, fromName: string, fromEmail: string,
    to: string, cc: string, bcc: string, replyTo: string,
    snippet: string, body: string, bodyType: string, attachments: string)

  /** The columns every upsert overwrites. */
  datatype Meta = Meta(
    thread: string, folder: string, date: int, read: bool, flagged: bool, draft: bool,
    hasAttachments: bool, internetId: string)

  datatype Email = Email(content: Content, meta: Meta)

  datatype EmailRow = EmailRow(content: Content, meta: Meta, storedAt: int, evictedAt: Option<int>)

  const BLANK: Content := Content("", "", "", "[]", "[]", "[]", "[]", "", "", "", "[]")

  function Keep(held: string, given: string, omitted: string): string {
    if given == omitted then held else given
  }

  /** The CASE expressions of UpsertEmail: frozen once evicted; a body, its type and the
      attachments survive a page that leaves them out. */
  function MergedContent(row: EmailRow, c: Content): Content {
    if row.evictedAt.Some? then row.content
    else c.(body := Keep(row.content.body, c.body, ""),
            bodyType := Keep(row.content.bodyType, c.bodyType, ""),
            attachments := Keep(row.content.attachments, c.attachments, "[]"))
  }

  function Upserted(emails: map<Key, EmailRow>, k: Key, e: Email, now: int): map<Key, EmailRow> {
    emails[k := if k in emails
                then EmailRow(MergedContent(emails[k], e.content), e.meta, emails[k].storedAt, emails[k].evictedAt)
                else EmailRow(e.content, e.meta, now, None)]
  }

  function EvictedEmail(r: EmailRow, at: int): EmailRow {
    if r.evictedAt.Some? then r else r.(content := BLANK, evictedAt := Some(at))
  }

  // ---------------------------------------------------------- chat messages

  datatype Reaction = Reaction(attendee: string, emoji: string)

  datatype Message = Message(
    chat: string, sender: string, fromMe: bool, kind: string, text: string, quoted: string,
    sentAt: int, editedAt: Option<int>, deleted: bool, status: string, reactions: seq<Reaction>)

  datatype MessageRow = MessageRow(m: Message, storedAt: int, evictedAt: Option<int>)

  function EvictedMessage(r: MessageRow, at: int): MessageRow {
    if r.evictedAt.Some? then r else r.(m := r.m.(text := ""), evictedAt := Some(at))
  }

  /** ApplyReaction: the attendee's earlier reactions go, the new one is appended unless empty. */
  function Reacted(rs: seq<Reaction>, r: Reaction): (out: seq<Reaction>)
    ensures forall x: Reaction | x in out && x.attendee == r.attendee :: x == r && r.emoji != ""
    ensures forall x: Reaction | x.attendee != r.attendee :: x in out <==> x in rs
    ensures r.emoji != "" ==> r in out
  {
    Without(rs, r.attendee) + if r.emoji == "" then [] else [r]
  }

  function Without(rs: seq<Reaction>, attendee: string): (out: seq<Reaction>)
    ensures forall x: Reaction :: x in out <==> x in rs && x.attendee != attendee
  {
    if rs == [] then []
    else (if rs[0].attendee == attendee then [] else [rs[0]]) + Without(rs[1..], attendee)
  }

  // ------------------------------------------------------- the whole database

  datatype Db = Db(
    emails: map<Key, EmailRow>,
    messages: map<Key, MessageRow>,
    owner: map<string, string>,
    policy: map<string, int>)

  /** The developer's positive retention age over an account, if there is one. */
  function MaxAge(db: Db, account: string): Option<int> {
    if account in db.owner && db.owner[account] in db.policy && db.policy[db.owner[account]] > 0
    then Some(db.policy[db.owner[account]])
    else None
  }

  predicate Expired(db: Db, account: string, storedAt: int, now: int) {
    MaxAge(db, account).Some? && now - storedAt > MaxAge(db, account).value
  }

  function SweptEmails(db: Db, now: int): map<Key, EmailRow> {
    map k | k in db.emails ::
      if Expired(db, k.account, db.emails[k].storedAt, now) then EvictedEmail(db.emails[k], now) else db.emails[k]
  }

  function SweptMessages(db: Db, now: int): map<Key, MessageRow> {
    map k | k in db.messages ::
      if Expired(db, k.account, db.messages[k].storedAt, now) then EvictedMessage(db.messages[k], now) else db.messages[k]
  }

  datatype Op =
    | UpsertEmail(key: Key, email: Email, now: int)
    | EvictEmail(key: Key, now: int)
    | DeleteEmail(key: Key)
    | UpsertMessage(key: Key, message: Message, now: int)
    | RenameMessage(key: Key, newId: string)
    | DeleteMessage(key: Key)
    | SetStatus(account: string, ids: seq<string>, status: string)
    | React(key: Key, reaction: Reaction)
    | Edit(key: Key, text: string, at: int)
    | Revoke(key: Key)
    | EvictMessage(key: Key, now: int)
    | SweepEmails(now: int)
    | SweepMessages(now: int)
    | SetOwner(account: string, developer: string)
    | SetPolicy(developer: string, seconds: int)
    | DeleteAccount(account: string)

  function Apply(db: Db, op: Op): Db {
    match op
    case UpsertEmail(k, e, now) => db.(emails := Upserted(db.emails, k, e, now))
    case EvictEmail(k, now) =>
      if k in db.emails then db.(emails := db.emails[k := EvictedEmail(db.emails[k], now)]) else db
    case DeleteEmail(k) => db.(emails := db.emails - {k})
    case UpsertMessage(k, m, now) =>
      if k in db.messages then db else db.(messages := db.messages[k := MessageRow(m, now, None)])
    case RenameMessage(k, newId) =>
      var to := Key(k.account, newId);
      if k !in db.messages || (to in db.messages && to != k) then db
      else db.(messages := (db.messages - {k})[to := db.messages[k]])
    case DeleteMessage(k) => db.(messages := db.messages - {k})
    case SetStatus(account, ids, status) =>
      db.(messages := map k | k in db.messages ::
            if k.account == account && k.id in ids
            then db.messages[k].(m := db.messages[k].m.(status := status)) else db.messages[k])
    case React(k, r) =>
      if k !in db.messages then db
      else var row := db.messages[k];
           db.(messages := db.messages[k := row.(m := row.m.(reactions := Reacted(row.m.reactions, r)))])
    case Edit(k, text, at) =>
      if k in db.messages && db.messages[k].evictedAt.None? then
        var row := db.messages[k];
        db.(messages := db.messages[k := row.(m := row.m.(text := text, editedAt := Some(at)))])
      else db
    case Revoke(k) =>
      if k in db.messages then
        var row := db.messages[k];
        db.(messages := db.messages[k := row.(m := row.m.(deleted := true, text := ""))])
      else db
    case EvictMessage(k, now) =>
      if k in db.messages then db.(messages := db.messages[k := EvictedMessage(db.messages[k], now)]) else db
    case SweepEmails(now) => db.(emails := SweptEmails(db, now))
    case SweepMessages(now) => db.(messages := SweptMessages(db, now))
    case SetOwner(account, developer) => db.(owner := db.owner[account := developer])
    case SetPolicy(developer, seconds) => db.(policy := db.policy[developer := seconds])
    case DeleteAccount(account) =>
      db.(emails := map k | k in db.emails && k.account != account :: db.emails[k],
          messages := map k | k in db.messages && k.account != account :: db.messages[k],
          owner := db.owner - {account})
  }

  function Run(db: Db, ops: seq<Op>): Db {
    if ops == [] then db else Apply(Run(db, ops[..|ops| - 1]), ops[|ops| - 1])
  }

  const EMPTY: Db := Db(map[], map[], map[], map[])

  // ------------------------------------------------- what the statements mean

  /** content is now after a page brought given and before stood there: a body, its type or the
      attachments that the page leaves out stay, everything else is the page's. */
  predicate Refreshed(before: Content, given: Content, now: Content) {
    && now.body == (if given.body != "" then given.body else before.body)
    && now.bodyType == (if given.bodyType != "" then given.bodyType else before.bodyType)
    && now.attachments == (if given.attachments != "[]" then given.attachments else before.attachments)
    && now.subject == given.subject && now.snippet == given.snippet
    && now.fromName == given.fromName && now.fromEmail == given.fromEmail
    && now.to == given.to && now.cc == given.cc && now.bcc == given.bcc && now.replyTo == given.replyTo
  }

  /** No words, no people, no attachments. */
  predicate NothingLeft(c: Content) {
    && c.subject == c.snippet == c.body == c.bodyType == c.fromName == c.fromEmail == ""
    && c.to == c.cc == c.bcc == c.replyTo == c.attachments == "[]"
  }

  /** An eviction at the given second: an emptied row is stamped with it, one already stamped is
      left alone, and what sync depends on stays. */
  predicate EmptiedAt(before: EmailRow, after: EmailRow, at: int) {
    && after.meta == before.meta && after.storedAt == before.storedAt
    && if before.evictedAt.Some? then after == before
       else after.evictedAt == Some(at) && NothingLeft(after.content)
  }

  predicate MessageEmptiedAt(before: MessageRow, after: MessageRow, at: int) {
    && after.storedAt == before.storedAt && after.m.(text := "") == before.m.(text := "")
    && if before.evictedAt.Some? then after == before
       else after.evictedAt == Some(at) && after.m.text == ""
  }

  /** The statements without a method of their own, on any email, */
  lemma EmailsAfter(db: Db, op: Op, k: Key)
    requires op.DeleteEmail? || op.DeleteAccount? || op.SetOwner? || op.SetPolicy?
    ensures var emails := Apply(db, op).emails;
      && (k in emails <==>
            k in db.emails && !(op.DeleteEmail? && op.key == k) && !(op.DeleteAccount? && op.account == k.account))
      && (k in emails ==> emails[k] == db.emails[k])
  {
  }

  /** and on any message: which are there, */
  lemma MessagesAfter(db: Db, op: Op, k: Key)
    requires op.DeleteMessage? || op.DeleteAccount? || op.SetStatus? || op.React? || op.SetOwner? || op.SetPolicy?
    ensures k in Apply(db, op).messages <==>
      k in db.messages && !(op.DeleteMessage? && op.key == k) && !(op.DeleteAccount? && op.account == k.account)
    ensures k in Apply(db, op).messages && !op.SetStatus? && !op.React? ==> Apply(db, op).messages[k] == db.messages[k]
  {
  }

  /** their statuses, */
  lemma StatusAfter(db: Db, account: string, ids: seq<string>, status: string, k: Key)
    requires k in db.messages
    ensures var after := Apply(db, SetStatus(account, ids, status)).messages;
      && k in after
      && after[k].m.status == (if k.account == account && k.id in ids then status else db.messages[k].m.status)
      && after[k].(m := after[k].m.(status := "")) == db.messages[k].(m := db.messages[k].m.(status := ""))
  {
  }

  /** and their reactions: the attendee's is the one just given, or none, the others' stay. */
  lemma ReactionsAfter(db: Db, op: Op, k: Key)
    requires op.React? && k in db.messages
    ensures var after := Apply(db, op).messages;
      && k in after
      && after[k].(m := after[k].m.(reactions := [])) == db.messages[k].(m := db.messages[k].m.(reactions := []))
      && (op.key != k ==> after[k] == db.messages[k])
      && (op.key == k ==>
            && (op.reaction in after[k].m.reactions <==> op.reaction.emoji != "")
            && (forall r: Reaction | r.attendee == op.reaction.attendee && r != op.reaction :: r !in after[k].m.reactions)
            && (forall r: Reaction | r.attendee != op.reaction.attendee ::
                  r in after[k].m.reactions <==> r in db.messages[k].m.reactions))
  {
  }

  /** Owners and policies are what they were last set to, and a deleted account has none. */
  lemma PoliciesAfter(db: Db, op: Op)
    ensures Apply(db, op).owner ==
      if op.SetOwner? then db.owner[op.account := op.developer]
      else if op.DeleteAccount? then db.owner - {op.account} else db.owner
    ensures Apply(db, op).policy == if op.SetPolicy? then db.policy[op.developer := op.seconds] else db.policy
  {
  }

  /** A statement about one table leaves the other alone. */
  lemma TablesApart(db: Db, op: Op)
    ensures (op.UpsertEmail? || op.EvictEmail? || op.DeleteEmail? || op.SweepEmails?)
      ==> Apply(db, op).messages == db.messages
    ensures !(op.UpsertEmail? || op.EvictEmail? || op.DeleteEmail? || op.SweepEmails? || op.DeleteAccount?)
      ==> Apply(db, op).emails == db.emails
  {
  }

  // ---------------------------------------------------------------- the store

  class Store {
    var emails: map<Key, EmailRow>
    var messages: map<Key, MessageRow>
    var owner: map<string, string>
    var policy: map<string, int>

    function Contents(): Db
      reads this
    {
      Db(emails, messages, owner, policy)
    }

    constructor ()
      ensures Contents() == EMPTY
    {
      emails, messages, owner, policy := map[], map[], map[], map[];
    }

    method Upsert(k: Key, e: Email, now: int)
      modifies this`emails
      ensures Contents() == Apply(old(Contents()), UpsertEmail(k, e, now))
      ensures k in emails && emails[k].meta == e.meta
      ensures forall x | x in old(emails) && x != k :: x in emails && emails[x] == old(emails)[x]
      ensures k !in old(emails) ==>
        emails[k].content == e.content && emails[k].storedAt == now && emails[k].evictedAt == None
      ensures k in old(emails) ==>
        emails[k].storedAt == old(emails)[k].storedAt && emails[k].evictedAt == old(emails)[k].evictedAt
      ensures k in old(emails) && old(emails)[k].evictedAt.Some? ==> emails[k].content == old(emails)[k].content
      // Of a row not evicted, what this page leaves out stays, and the rest is this page's.
      ensures k in old(emails) && old(emails)[k].evictedAt.None? ==>
        Refreshed(old(emails)[k].content, e.content, emails[k].content)
    {
      if k !in emails {
        emails := emails[k := EmailRow(e.content, e.meta, now, None)];
        return;
      }
      var row := emails[k];
      var c := row.content;
      if row.evictedAt.None? {
        c := e.content;
        if e.content.body == "" { c := c.(body := row.content.body); }
        if e.content.bodyType == "" { c := c.(bodyType := row.content.bodyType); }
        if e.content.attachments == "[]" { c := c.(attachments := row.content.attachments); }
      }
      emails := emails[k := row.(content := c, meta := e.meta)];
    }

    method EvictEmailContent(k: Key, now: int)
      modifies this`emails
      ensures Contents() == Apply(old(Contents()), EvictEmail(k, now))
      ensures forall x | x in old(emails) :: x in emails && (x != k ==> emails[x] == old(emails)[x])
      ensures k in old(emails) ==> EmptiedAt(old(emails)[k], emails[k], now)
    {
      if k in emails && emails[k].evictedAt.None? {
        emails := emails[k := emails[k].(content := BLANK, evictedAt := Some(now))];
      }
    }

    method UpsertChatMessage(k: Key, m: Message, now: int) returns (inserted: bool)
      modifies this`messages
      ensures Contents() == Apply(old(Contents()), UpsertMessage(k, m, now))
      ensures inserted <==> k !in old(messages)
      ensures inserted ==> messages == old(messages)[k := messages[k]] && messages[k].m == m
      ensures inserted ==> messages[k].storedAt == now && messages[k].evictedAt == None
      ensures !inserted ==> messages == old(messages)
    {
      inserted := k !in messages;
      if inserted {
        messages := messages[k := MessageRow(m, now, None)];
      }
    }

    method EvictChatMessageContent(k: Key, now: int)
      modifies this`messages
      ensures Contents() == Apply(old(Contents()), EvictMessage(k, now))
      ensures forall x | x in old(messages) :: x in messages && (x != k ==> messages[x] == old(messages)[x])
      ensures k in old(messages) ==> MessageEmptiedAt(old(messages)[k], messages[k], now)
    {
      if k in messages && messages[k].evictedAt.None? {
        messages := messages[k := messages[k].(m := messages[k].m.(text := ""), evictedAt := Some(now))];
      }
    }

    /** A rename onto an id that is taken violates the primary key and changes nothing. */
    method RenameChatMessage(k: Key, newId: string) returns (ok: bool)
      modifies this`messages
      ensures Contents() == Apply(old(Contents()), RenameMessage(k, newId))
      ensures ok <==> k in old(messages) && (Key(k.account, newId) !in old(messages) || newId == k.id)
      ensures ok ==> Key(k.account, newId) in messages && messages[Key(k.account, newId)] == old(messages)[k]
      ensures ok && newId != k.id ==> k !in messages
      ensures forall x | x in old(messages) && (x != k || !ok) :: x in messages && messages[x] == old(messages)[x]
    {
      var to := Key(k.account, newId);
      ok := k in messages && (to !in messages || to == k);
      if ok {
        messages := (messages - {k})[to := messages[k]];
      }
    }

    method EditChatMessage(k: Key, text: string, at: int)
      modifies this`messages
      ensures Contents() == Apply(old(Contents()), Edit(k, text, at))
      ensures k in old(messages) && old(messages)[k].evictedAt.None? ==>
        messages == old(messages)[k := messages[k]] && messages[k].m.text == text && messages[k].m.editedAt == Some(at)
      ensures !(k in old(messages) && old(messages)[k].evictedAt.None?) ==> messages == old(messages)
    {
      if k in messages && messages[k].evictedAt.None? {
        messages := messages[k := messages[k].(m := messages[k].m.(text := text, editedAt := Some(at)))];
      }
    }

    method RevokeChatMessage(k: Key)
      modifies this`messages
      ensures Contents() == Apply(old(Contents()), Revoke(k))
      ensures k in old(messages) ==>
        messages == old(messages)[k := messages[k]] && messages[k].m.text == "" && messages[k].m.deleted
      ensures k !in old(messages) ==> messages == old(messages)
    {
      if k in messages {
        messages := messages[k := messages[k].(m := messages[k].m.(deleted := true, text := ""))];
      }
    }

    method EvictExpiredEmails(now: int) returns (n: nat)
      modifies this`emails
      ensures Contents() == Apply(old(Contents()), SweepEmails(now))
      ensures n == |ChangedEmails(old(Contents()), Contents())|
      ensures emails.Keys == old(emails).Keys
      ensures forall k | k in old(emails) :: emails[k].meta == old(emails)[k].meta
      // Older than a positive age of its owner, a row is empty afterwards; any other is as it was.
      ensures forall k | k in old(emails) ::
        if k.account in owner && owner[k.account] in policy && policy[owner[k.account]] > 0
           && now - old(emails)[k].storedAt > policy[owner[k.account]]
        then EmptiedAt(old(emails)[k], emails[k], now)
        else emails[k] == old(emails)[k]
      ensures n == |set k | k in old(emails) && old(emails)[k].evictedAt.None?
                      && k.account in owner && owner[k.account] in policy && policy[owner[k.account]] > 0
                      && now - old(emails)[k].storedAt > policy[owner[k.account]]|
    {
      var before := Contents();
      emails := SweptEmails(before, now);
      n := |NewlyEvicted(before, now)|;
      EmailSweepChanges(before, now);
      EmailSweepEmpties(before, now);
    }

    method EvictExpiredMessages(now: int) returns (n: nat)
      modifies this`messages
      ensures Contents() == Apply(old(Contents()), SweepMessages(now))
      ensures n == |ChangedMessages(old(Contents()), Contents())|
      ensures messages.Keys == old(messages).Keys
      ensures forall k | k in old(messages) ::
        if k.account in owner && owner[k.account] in policy && policy[owner[k.account]] > 0
           && now - old(messages)[k].storedAt > policy[owner[k.account]]
        then MessageEmptiedAt(old(messages)[k], messages[k], now)
        else messages[k] == old(messages)[k]
      ensures n == |set k | k in old(messages) && old(messages)[k].evictedAt.None?
                      && k.account in owner && owner[k.account] in policy && policy[owner[k.account]] > 0
                      && now - old(messages)[k].storedAt > policy[owner[k.account]]|
    {
      var before := Contents();
      messages := SweptMessages(before, now);
      n := |NewlyEvictedMessages(before, now)|;
      MessageSweepChanges(before, now);
      MessageSweepEmpties(before, now);
    }

    /** The two bulk updates and the running total of the rows they touched. succeeds is how many
        of the two statements go through before one fails. */
    method EvictExpiredContent(now: int, succeeds: nat) returns (total: nat, ok: bool)
      modifies this`emails, this`messages
      ensures ok == (succeeds >= 2)
      ensures Contents() == Swept(old(Contents()), now, succeeds)
      ensures total == |ChangedEmails(old(Contents()), Contents())| + |ChangedMessages(old(Contents()), Contents())|
    {
      var before := Contents();
      Unchanged(before, Contents());
      if succeeds == 0 {
        return 0, false;
      }
      total := EvictExpiredEmails(now);
      ghost var between := Contents();
      Unchanged(before, between);
      if succeeds == 1 {
        return total, false;
      }
      var n := EvictExpiredMessages(now);
      assert ChangedMessages(between, Contents()) == ChangedMessages(before, Contents());
      assert ChangedEmails(before, between) == ChangedEmails(before, Contents());
      return total + n, true;
    }
  }

  /** A sweep whose first so many statements go through. */
  function Swept(db: Db, now: int, succeeds: nat): Db {
    if succeeds == 0 then db
    else if succeeds == 1 then Apply(db, SweepEmails(now))
    else Apply(Apply(db, SweepEmails(now)), SweepMessages(now))
  }

  lemma Unchanged(before: Db, after: Db)
    ensures after.emails == before.emails ==> ChangedEmails(before, after) == {}
    ensures after.messages == before.messages ==> ChangedMessages(before, after) == {}
  {
  }

  function NewlyEvicted(db: Db, now: int): set<Key> {
    set k | k in db.emails && db.emails[k].evictedAt.None? && Expired(db, k.account, db.emails[k].storedAt, now)
  }

  function NewlyEvictedMessages(db: Db, now: int): set<Key> {
    set k | k in db.messages && db.messages[k].evictedAt.None? && Expired(db, k.account, db.messages[k].storedAt, now)
  }

  ghost function ChangedEmails(before: Db, after: Db): set<Key> {
    set k | k in before.emails && !(k in after.emails && after.emails[k] == before.emails[k])
  }

  ghost function ChangedMessages(before: Db, after: Db): set<Key> {
    set k | k in before.messages && !(k in after.messages && after.messages[k] == before.messages[k])
  }

  /** Each statement of a sweep changes exactly the expired rows of its table that still had
      their content. */
  lemma EmailSweepChanges(db: Db, now: int)
    ensures ChangedEmails(db, Apply(db, SweepEmails(now))) == NewlyEvicted(db, now)
  {
    var after := Apply(db, SweepEmails(now));
    assert forall k | k in db.emails :: after.emails[k] != db.emails[k] <==> k in NewlyEvicted(db, now);
  }

  lemma MessageSweepChanges(db: Db, now: int)
    ensures ChangedMessages(db, Apply(db, SweepMessages(now))) == NewlyEvictedMessages(db, now)
  {
    var after := Apply(db, SweepMessages(now));
    assert forall k | k in db.messages :: after.messages[k] != db.messages[k] <==> k in NewlyEvictedMessages(db, now);
  }

  /** Older than a positive age of its owner, a row is empty afterwards; any other is as it was. */
  lemma EmailSweepEmpties(db: Db, now: int)
    ensures forall k | k in db.emails ::
      if k.account in db.owner && db.owner[k.account] in db.policy && db.policy[db.owner[k.account]] > 0
         && now - db.emails[k].storedAt > db.policy[db.owner[k.account]]
      then EmptiedAt(db.emails[k], SweptEmails(db, now)[k], now)
      else SweptEmails(db, now)[k] == db.emails[k]
    ensures NewlyEvicted(db, now) ==
      set k | k in db.emails && db.emails[k].evictedAt.None?
        && k.account in db.owner && db.owner[k.account] in db.policy && db.policy[db.owner[k.account]] > 0
        && now - db.emails[k].storedAt > db.policy[db.owner[k.account]]
  {
  }

  lemma MessageSweepEmpties(db: Db, now: int)
    ensures forall k | k in db.messages ::
      if k.account in db.owner && db.owner[k.account] in db.policy && db.policy[db.owner[k.account]] > 0
         && now - db.messages[k].storedAt > db.policy[db.owner[k.account]]
      then MessageEmptiedAt(db.messages[k], SweptMessages(db, now)[k], now)
      else SweptMessages(db, now)[k] == db.messages[k]
    ensures NewlyEvictedMessages(db, now) ==
      set k | k in db.messages && db.messages[k].evictedAt.None?
        && k.account in db.owner && db.owner[k.account] in db.policy && db.policy[db.owner[k.account]] > 0
        && now - db.messages[k].storedAt > db.policy[db.owner[k.account]]
  {
  }

  // ------------------------------------------------------ eviction is absorbing

  predicate DeletesEmail(op: Op, k: Key) {
    op == DeleteEmail(k) || op == DeleteAccount(k.account)
  }

  predicate DeletesMessage(op: Op, k: Key) {
    op == DeleteMessage(k) || op == DeleteAccount(k.account)
  }

  lemma EmailStep(db: Db, op: Op, k: Key)
    requires k in db.emails && !DeletesEmail(op, k)
    ensures var after := Apply(db, op).emails;
      && k in after && after[k].storedAt == db.emails[k].storedAt
      && (db.emails[k].evictedAt.Some? ==>
            after[k].content == db.emails[k].content && after[k].evictedAt == db.emails[k].evictedAt)
  {
  }

  /** Over any run that does not delete it, an evicted email stays in the table with the
      content and the stamp it had. */
  lemma {:induction false} EvictedEmailFrozen(db: Db, ops: seq<Op>, k: Key)
    requires k in db.emails && db.emails[k].evictedAt.Some?
    requires forall i | 0 <= i < |ops| :: !DeletesEmail(ops[i], k)
    ensures var after := Run(db, ops).emails;
            && k in after
            && after[k].content == db.emails[k].content
            && after[k].evictedAt == db.emails[k].evictedAt
            && after[k].storedAt == db.emails[k].storedAt
  {
    if ops != [] {
      EvictedEmailFrozen(db, ops[..|ops| - 1], k);
      EmailStep(Run(db, ops[..|ops| - 1]), ops[|ops| - 1], k);
    }
  }

  /** No statement moves stored_at, evicted or not. */
  lemma {:induction false} StoredAtNeverMoves(db: Db, ops: seq<Op>, k: Key)
    requires k in db.emails
    requires forall i | 0 <= i < |ops| :: !DeletesEmail(ops[i], k)
    ensures k in Run(db, ops).emails && Run(db, ops).emails[k].storedAt == db.emails[k].storedAt
  {
    if ops != [] {
      StoredAtNeverMoves(db, ops[..|ops| - 1], k);
      EmailStep(Run(db, ops[..|ops| - 1]), ops[|ops| - 1], k);
    }
  }

  /** Where the row under key k is after one statement: a rename that goes through moves it. */
  function Follow(db: Db, op: Op, k: Key): Key {
    if op.RenameMessage? && op.key == k && k in db.messages && Key(k.account, op.newId) !in db.messages
    then Key(k.account, op.newId)
    else k
  }

  function FollowAll(db: Db, ops: seq<Op>, k: Key): Key {
    if ops == [] then k
    else Follow(Run(db, ops[..|ops| - 1]), ops[|ops| - 1], FollowAll(db, ops[..|ops| - 1], k))
  }

  lemma EvictedMessageStep(db: Db, op: Op, k: Key)
    requires k in db.messages && db.messages[k].evictedAt.Some? && db.messages[k].m.text == ""
    requires !DeletesMessage(op, k)
    ensures var after := Apply(db, op).messages;
            var k' := Follow(db, op, k);
            && k' in after && k'.account == k.account
            && after[k'].m.text == ""
            && after[k'].evictedAt == db.messages[k].evictedAt
            && after[k'].storedAt == db.messages[k].storedAt
  {
  }

  /** The chat side: text, stamp and age survive edits, reactions, status writes, revokes,
      sweeps, replays, and the rename that gives a sent message its final id. */
  lemma {:induction false} EvictedMessageFrozen(db: Db, ops: seq<Op>, k: Key)
    requires k in db.messages && db.messages[k].evictedAt.Some? && db.messages[k].m.text == ""
    requires forall i | 0 <= i < |ops| :: !DeletesMessage(ops[i], FollowAll(db, ops[..i], k))
    ensures var after := Run(db, ops).messages;
            var k' := FollowAll(db, ops, k);
            && k' in after && k'.account == k.account
            && after[k'].m.text == ""
            && after[k'].evictedAt == db.messages[k].evictedAt
            && after[k'].storedAt == db.messages[k].storedAt
  {
    if ops != [] {
      var head := ops[..|ops| - 1];
      forall i | 0 <= i < |head|
        ensures !DeletesMessage(head[i], FollowAll(db, head[..i], k))
      {
        assert head[..i] == ops[..i];
      }
      EvictedMessageFrozen(db, head, k);
      EvictedMessageStep(Run(db, head), ops[|ops| - 1], FollowAll(db, head, k));
    }
  }

  /** Every row that carries a stamp is blank. */
  ghost predicate StampMeansBlank(db: Db) {
    && (forall k | k in db.emails :: db.emails[k].evictedAt.Some? ==> db.emails[k].content == BLANK)
    && (forall k | k in db.messages :: db.messages[k].evictedAt.Some? ==> db.messages[k].m.text == "")
  }

  lemma {:induction false} StampedRowsAreBlank(ops: seq<Op>)
    ensures StampMeansBlank(Run(EMPTY, ops))
  {
    if ops != [] {
      StampedRowsAreBlank(ops[..|ops| - 1]);
      StampStep(Run(EMPTY, ops[..|ops| - 1]), ops[|ops| - 1]);
    }
  }

  lemma StampStep(db: Db, op: Op)
    requires StampMeansBlank(db)
    ensures StampMeansBlank(Apply(db, op))
  {
  }

  /** Row stored at storedAt is older at t than a positive age its account's owner has set. */
  predicate Outlived(db: Db, account: string, storedAt: int, t: int) {
    && account in db.owner && db.owner[account] in db.policy
    && db.policy[db.owner[account]] > 0
    && t - storedAt > db.policy[db.owner[account]]
  }

  /** What the policy promises a tenant: whatever was written before, once a sweep's statement
      over a table has run at time t, no row of that table older than its owner's positive age
      still has content, and every other row is as it was. */
  lemma NothingOutlivesASweep(ops: seq<Op>, t: int, k: Key)
    ensures var db := Run(EMPTY, ops);
            var emails := Run(EMPTY, ops + [SweepEmails(t)]).emails;
            var messages := Run(EMPTY, ops + [SweepMessages(t)]).messages;
            && (k in emails <==> k in db.emails) && (k in messages <==> k in db.messages)
            && (k in emails && Outlived(db, k.account, db.emails[k].storedAt, t) ==>
                  NothingLeft(emails[k].content) && emails[k].evictedAt.Some?)
            && (k in messages && Outlived(db, k.account, db.messages[k].storedAt, t) ==>
                  messages[k].m.text == "" && messages[k].evictedAt.Some?)
            && (k in emails && !Outlived(db, k.account, db.emails[k].storedAt, t) ==> emails[k] == db.emails[k])
            && (k in messages && !Outlived(db, k.account, db.messages[k].storedAt, t) ==> messages[k] == db.messages[k])
  {
    StampedRowsAreBlank(ops);
    assert (ops + [SweepEmails(t)])[..|ops|] == ops && (ops + [SweepMessages(t)])[..|ops|] == ops;
  }

  /** And it stays that way: nothing done after the statement, the sweep's other statement and
      whatever falls between them included, short of deleting the row, brings the content of such
      an email back. */
  lemma SweptStaysSwept(ops: seq<Op>, t: int, later: seq<Op>, k: Key)
    requires k in Run(EMPTY, ops).emails && Outlived(Run(EMPTY, ops), k.account, Run(EMPTY, ops).emails[k].storedAt, t)
    requires forall i | 0 <= i < |later| :: !DeletesEmail(later[i], k)
    ensures k in Run(Run(EMPTY, ops + [SweepEmails(t)]), later).emails
    ensures NothingLeft(Run(Run(EMPTY, ops + [SweepEmails(t)]), later).emails[k].content)
  {
    NothingOutlivesASweep(ops, t, k);
    assert (ops + [SweepEmails(t)])[..|ops|] == ops;
    EvictedEmailFrozen(Run(EMPTY, ops + [SweepEmails(t)]), later, k);
  }

  lemma SweptMessage(ops: seq<Op>, t: int, k: Key)
    requires var db := Run(EMPTY, ops); k in db.messages && Outlived(db, k.account, db.messages[k].storedAt, t)
    ensures var db := Run(EMPTY, ops + [SweepMessages(t)]);
      k in db.messages && db.messages[k].evictedAt.Some? && db.messages[k].m.text == ""
  {
    NothingOutlivesASweep(ops, t, k);
    assert (ops + [SweepMessages(t)])[..|ops|] == ops;
  }

  /** Nor that of such a message, wherever a rename takes its row. db: what the statement left. */
  lemma SweptMessageStaysSwept(ops: seq<Op>, t: int, db: Db, later: seq<Op>, k: Key)
    requires k in Run(EMPTY, ops).messages
    requires Outlived(Run(EMPTY, ops), k.account, Run(EMPTY, ops).messages[k].storedAt, t)
    requires db == Run(EMPTY, ops + [SweepMessages(t)])
    requires forall i | 0 <= i < |later| :: !DeletesMessage(later[i], FollowAll(db, later[..i], k))
    ensures FollowAll(db, later, k) in Run(db, later).messages
    ensures Run(db, later).messages[FollowAll(db, later, k)].m.text == ""
  {
    SweptMessage(ops, t, k);
    EvictedMessageFrozen(db, later, k);
  }

  // ------------------------------------------------------ a body, once given, stays

  /** Puts a body into, or takes the content of, the email. */
  predicate TouchesBody(op: Op, k: Key) {
    || DeletesEmail(op, k)
    || (op.UpsertEmail? && op.key == k && op.email.content.body != "")
    || (op.EvictEmail? && op.key == k)
    || op.SweepEmails?
  }

  /** A body that a page brought stays through every page that leaves it out. */
  lemma {:induction false} BodySurvives(db: Db, ops: seq<Op>, k: Key, e: Email, now: int)
    requires k in db.emails ==> db.emails[k].evictedAt.None?
    requires e.content.body != "" && forall i | 0 <= i < |ops| :: !TouchesBody(ops[i], k)
    ensures var after := Run(Apply(db, UpsertEmail(k, e, now)), ops).emails;
      k in after && after[k].evictedAt.None? && after[k].content.body == e.content.body
  {
    if ops != [] { BodySurvives(db, ops[..|ops| - 1], k, e, now); }
  }
}
