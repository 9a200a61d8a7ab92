# Verified model of the messaging service's delivery, mirror and chat protocols

This project models the concurrent protocols and the few algorithms the service rests on, and
proves what they keep over every run. A run is any sequence of atomic steps: one SQL statement,
one mutex section (or one statement inside it, where a lock is the point), one channel or
sync.Once operation, or the start or end of one call to a provider or a subscriber. The database
is finite maps; providers, subscribers, clocks and random draws choose freely. Code that one
goroutine runs alone is a class whose methods are proved against the function the protocol
uses for that step.

Every step is stated twice: as the function the protocols run on, and, in the `...Steps` modules
and beside the protocols, in words of its own, field by field and both ways: which rows come, go
and change at it, who moves and where to, and what it announces. These say nothing through the
functions they are about.

| file | what it is about |
|---|---|
| `DeliveryTable.dfy`, `DeliveryProtocol.dfy`, `DeliveryOf.dfy`, `DeliverySteps.dfy` | the webhook_deliveries table; fresh sends, retry ticks, manual redeliveries, purges and hook removals on it; the same for one delivery among any others; what each step does, and that an accepted delivery is over |
| `FanOut.dfy` | one event to its hooks, bounded by a worker pool, and the decision to evict its content |
| `Mirror.dfy`, `SyncRound.dfy` | mirrored emails and chat messages, retention, one scope's sync round and its cursor |
| `Idempotency.dfy`, `IdempotencySteps.dfy` | the Idempotency-Key reservation; what each step does, and what a second request is told |
| `SendText.dfy` | the temporary row of a sent text against the socket's echo |
| `Runtime.dfy`, `RuntimeSteps.dfy`, `Backoff.dfy` | the chat supervisor, what each of its steps does and whom it turns away; one actor's lifecycle |
| `Sink.dfy`, `SinkSteps.dfy`, `Inbox.dfy` | a chat account's mirror and unread counts; the inboxes of its actors, one as a rule and several during a reconnect |
| `LinkRegistry.dfy`, `LinkSession.dfy`, `LinkFinish.dfy`, `LinkFinishSteps.dfy` | QR pairing: claim and dial, the session, and the account that names the device, against deletions and logouts |
| `Wake.dfy` | coalescing of sync requests |
| `MissCache.dfy` | the lock-free negative cache |
| `Paging.dfy`, `LikeEscape.dfy`, `Dialect.dfy` | keyset paging, LIKE escaping, the SQL splitter and placeholder rewriter |
| `Clock.dfy`, `Options.dfy`, `MessageIds.dfy`, `FreshNames.dfy` | whole-second truncation, optional values, message ids, names not in use |

## Where the code does less than it says

Each of these is a lemma that builds a run ending in the bad state, next to the exact condition
under which the promise holds.

- `internal/chatsync/runtime.go:112-113` says that a cancel cannot slip an actor past Wait. It can,
  between the second look at the context and the install: `Runtime.ActorStartedAfterWait`. The
  exact window is `Runtime.WillSlip`; outside it no actor follows a cancel
  (`Runtime.NoActorAfterCancel`), inside it one always can (`Runtime.Slips`).
- `internal/api/handlers_link.go:556-565` takes either branch when a success is ready and the second
  is over: `LinkFinish.LateTimerLosesADevice`.
- `internal/provider/whatsapp/link.go:229-240` deletes only a device that is already stored; one
  stored a moment later stays: `LinkFinish.LateStoreLosesADevice`.
- `internal/accounts/accounts.go:210-280`: ConnectLinked, DeleteLinked and MarkLoggedOut are not one step
  each, and go on when they cannot read the old session. Two first links of one number
  (`LinkFinish.OverlapLosesADevice`), a relink or a removal with a failed read
  (`LinkFinish.BlindRelinkLosesADevice`, `LinkFinish.BlindRemovalLosesADevice`), or a relink inside
  a removal (`LinkFinish.RemovalLosesADevice`) leave a device without a name. A registered device
  is named exactly when neither its name was so overwritten or taken away nor one of the two
  races above happened to it (`LinkFinish.RegisteredIsNamed`).
- `internal/events/events.go:581` promises single sending only while a send is shorter than the
  lease. Up to the lease's second the delivery is sent once (`DeliveryOf.OneAttemptAtOnce`); from
  then on a tick can send it again (`DeliveryOf.LateSendCanOverlap`).
- `internal/api/handlers_chat.go:144-184` releases and stores by key, not by holder. While no holder's row
  is old enough to be purged only the holder takes it away (`Idempotency.OnlyTheHolderReleases`);
  from then on the run can go on until a late request takes another's (`Idempotency.ReleasesAnother`).
- `internal/chatsync/sink.go:76-95` stores a message and bumps its chat in two statements. A handler can mark
  the chat read between them (`Sink.EarlyReadMissesAMessage`), and so can a read receipt: a
  reconnect, `internal/api/handlers_misc.go:287-288`, does not wait for the old actor
  (`Runtime.ReconnectServesTwice`), and the new one serves its own inbox beside it
  (`Inbox.ReconnectMissesAMessage`). The unread count is what it should be exactly unless the last
  read came so, and then it is more by one message at most of each actor that was inside one
  (`Inbox.ReachableUnread`, `Inbox.EarlyIsAnothers`).
- `internal/chatsync/actor.go:359-375` looks a chat up and writes it in two statements, so a lookup from before
  a chat was named blanks the name: exactly so, or by the start-chat handler, and no other way
  (`Sink.BlankedExactly`).
- `internal/store/chat.go:339-379` finds a page's bound by the id of the last message seen; a row renamed or
  deleted in between turns the reader away, exactly then (`Paging.ReadsWhatStays`).
- `internal/api/handlers_chat.go:472-479` ignores a failed deletion of the temporary row, which then stays:
  `SendText.FailedLeavesNoTrace` says exactly when.
- `internal/store/dialect.go:60-97` cannot be undone on a query in which a live `$` is followed by the
  number whose turn it is, and on no other (`Dialect.RebindRoundTrip`); such a query shares its
  rewriting with another (`Dialect.ClashCollides`).

## Model

| member | source | states |
|---|---|---|
| `DeliveryTable.DeliveryStore.SaveDelivery` | internal/store/aux.go:288-302 | the upsert rewrites the attempt columns and never hook, account, payload or creation time |
| `DeliveryTable.DeliveryStore.DueDeliveries` | internal/store/aux.go:309-318 | distinct due rows of unpaused hooks, oldest first, one left out only when the page is full of rows no younger |
| `DeliveryTable.DeliveryStore.ClaimDeadDelivery` | internal/store/aux.go:350-359 | true exactly for a call that found the row dead, and then the row is alive with the lease as due time |
| `DeliveryTable.DeliveryStore.DeleteDelivery` | internal/store/aux.go:361-364 | the row is gone and nothing else |
| `DeliveryTable.DeliveryStore.PurgeDeadDeliveries` | internal/store/aux.go:377-392 | only dead rows past the global window or the owner's own age go, and their number is returned |
| `DeliveryProtocol.OnlyClaimRevives` | internal/store/aux.go:350-359 | no step but a claim of that id makes a dead row live |
| `DeliveryOf.OneAttemptAtOnce` | internal/events/events.go:415-477 | over every run in which this delivery's redeliveries keep their lease, whatever others do, two sends of it are the same send |
| `DeliveryOf.RevivedByOne` | internal/events/events.go:629-665 | a dead-to-live step is one caller's claim, after which that caller alone holds the delivery, and the claims count grows by one |
| `DeliveryOf.EachDeathIsSpentOnce` | internal/events/events.go:391-410 | deaths equal claims plus removals plus the death the row lies in now, over every such run |
| `DeliveryOf.DeadOnSchedule` | internal/events/events.go:388-410 | a dead row whose store calls went through had exactly one attempt more than the schedule has waits, no sooner than their sum less a second each |
| `DeliveryOf.IdleSpendsNothing` | internal/events/events.go:444-457 | while a row is alive and unsent its attempts are those really made, pauses and holds included |
| `DeliveryOf.OneDeliveryHolds` | internal/events/events.go:388-665 | row, goroutines' copies of it, ownership, attempts made and due time agree for the delivery in every reachable state |
| `DeliveryOf.Alone` | internal/events/events.go:415-477 | of every run there is a run without the other deliveries that agrees with it on this one, step by step |
| `DeliveryOf.DueWithTheLease` | internal/events/events.go:577-581 | a claimed row is due exactly from the second its lease ends |
| `DeliveryOf.LateSendCanOverlap` | internal/events/events.go:415-477 | from every state in which a redelivery is still sending at that second, the first lease of its delivery to be outlived, with its hook unpaused and a page of due rows at most, the run can go on to two sends of the delivery |
| `DeliveryProtocol.DefaultScheduleFloor` | internal/events/events.go:26-34 | for the default schedule that floor is 74,543 seconds after seven waits |
| `DeliveryProtocol.LateSendOverlaps` | internal/events/events.go:577-581 | such a state is reached: a run in which a redelivery outlives its lease and the same delivery is sent twice at once |
| `DeliverySteps.RowsGoExactly` | internal/events/events.go:415-477 | at a step of a run a row goes if and only if its hook is removed or found missing, a retry or redelivery of it was accepted and the deletion went through, or it is dead and either age is over |
| `DeliverySteps.RowsComeExactly` | internal/events/events.go:391-409 | a row is written by a stored refusal or a claim alone: refused after n attempts it falls due the n-th wait from now or, past the last wait, is dead; claimed it is alive until ten minutes from its reading |
| `DeliverySteps.SendsExactly` | internal/events/events.go:432-465 | an attempt goes out exactly when a fresh delivery starts, a listed row is come to whose hook is there and not paused, or a claim finds its row dead |
| `DeliverySteps.AttemptsAreNumbered` | internal/events/events.go:451-465 | it is numbered one, or one more than the row has had |
| `DeliverySteps.SendsEndWithAnAnswer` | internal/events/events.go:462-474 | it stays in flight unchanged until the subscriber has answered |
| `DeliverySteps.OthersMoveExactly` | internal/events/events.go:415-477 | who else comes, goes or changes at a step: a tick lists its page as the rows are, a redelivery holds what it read, a paused or missing hook drops its listed row, a claim that finds no dead row ends |
| `DeliverySteps.TicksListTheDue` | internal/events/events.go:416-420 | a tick lists live due rows of hooks not paused, all of them or a hundred |
| `DeliverySteps.RedeliversTheDead` | internal/events/events.go:629-645 | a redelivery goes on only with a dead row not past the retention age |
| `DeliverySteps.EpochsCountSends` | internal/events/events.go:451-465 | the attempts counted since a delivery was filed or last claimed are those that went out |
| `DeliverySteps.AcceptedIsSpent` | internal/events/events.go:469-473 | once an accepted retry or redelivery is so recorded, within the lease, no row and no goroutine is left of the delivery |
| `DeliverySteps.AcceptedIsOver` | internal/events/events.go:655-664 | and no later step of the run sends it or brings its row back |
| `FanOut.Dispatcher.Deliver` | internal/events/events.go:226-328 | under every interleaving of hooks and of other writers of the table each reached hook has the fate its own world gives it, the table gains exactly the parked rows but for those the others were at, and eviction is decided exactly when all accepted and one got the whole event |
| `FanOut.Dispatcher.PickUp` | internal/events/events.go:256-309 | one turn of the walk: filter, pause, count, encode, or stop at a finished context |
| `FanOut.Dispatcher.Settle` | internal/events/events.go:376-410 | a refusal sets failed and parks the delivery unless no id can be minted or the store fails |
| `FanOut.FinishedPlay` | internal/events/events.go:310-328 | whatever the order of turns, a walk with nothing left to do has delivered |
| `FanOut.EveryHookAccountedFor` | internal/events/events.go:226-387 | an eligible hook has accepted or had a row of its own stored exactly when its payload encoded and, on refusal, an id and the store were to be had; the row is there as stored unless others were at it |
| `FanOut.PromiseKept` | internal/events/events.go:226-387 | in words of its own: every hook a finished walk reached is refused, accepted or parked as its world says, and the row a parked one waits in has one attempt, the refusal's text, the job's hook, account, event, payload and second, and its first wait, or is dead exactly when there is no wait |
| `FanOut.EvictsAsPromised` | internal/events/events.go:310-328 | the event is evicted exactly when the walk saw every hook, every hook it is for encoded and accepted it, and one of them gets the whole event |
| `FanOut.SomeFullMatch` | internal/events/events.go:285-287 | the match counter is positive exactly when an eligible hook receives the whole event |
| `FanOut.PlayOk` | internal/events/events.go:256-328 | fates, counters and table agree after any sequence of turns, other writers' included |
| `Mirror.Store.Upsert` | internal/store/store.go:448-492 | insert, or update keeping old body, body type and attachments when omitted, and all content once evicted |
| `Mirror.Store.EvictEmailContent` | internal/store/store.go:502-514 | blanks and stamps a row only the first time |
| `Mirror.Store.UpsertChatMessage` | internal/store/chat.go:315-331 | a replayed id changes nothing and reports false |
| `Mirror.Store.RenameChatMessage` | internal/store/chat.go:383-392 | moves the row, or fails and changes nothing when the id is unknown or taken |
| `Mirror.Store.EditChatMessage` | internal/store/chat.go:457-463 | rewrites text only of a row not evicted |
| `Mirror.Store.RevokeChatMessage` | internal/store/chat.go:467-470 | marks and blanks the row, its stamp untouched |
| `Mirror.Store.EvictChatMessageContent` | internal/store/chat.go:476-482 | blanks and stamps a message only the first time |
| `Mirror.Store.EvictExpiredEmails` | internal/store/retention.go:20-37 | the first bulk update: emails older than their owner's positive age are emptied and stamped, others left, and n is how many still had content |
| `Mirror.Store.EvictExpiredMessages` | internal/store/retention.go:39-51 | the second, the same of messages |
| `Mirror.Store.EvictExpiredContent` | internal/store/retention.go:16-52 | both in turn up to the one that fails, with a total that counts exactly the rows changed |
| `Mirror.EmailSweepChanges` | internal/store/retention.go:20-37 | a sweep changes exactly the expired emails that still had content |
| `Mirror.MessageSweepChanges` | internal/store/retention.go:39-51 | and exactly the expired messages that still had text |
| `Mirror.EvictedEmailFrozen` | internal/store/store.go:448-514 | over any run without its deletion an evicted email keeps content, stamp and stored_at |
| `Mirror.StoredAtNeverMoves` | internal/store/store.go:448-492 | no statement moves an email's stored_at |
| `Mirror.EvictedMessageFrozen` | internal/store/chat.go:383-482 | an evicted message keeps blank text, stamp and stored_at through every statement, followed through renames |
| `Mirror.StampedRowsAreBlank` | internal/store/retention.go:20-50 | in every reachable database a stamped row is blank |
| `Mirror.NothingOutlivesASweep` | internal/store/retention.go:16-52 | after a sweep's statement over a table at t every row of it older than its owner's positive age is empty and stamped, and every other row is as it was |
| `Mirror.SweptStaysSwept` | internal/store/store.go:448-492 | nothing later, the sweep's other statement and writes between the two included, short of deletion, brings the content of such an email back |
| `Mirror.SweptMessageStaysSwept` | internal/store/chat.go:383-482 | nor the text of such a message, followed through renames |
| `Mirror.Reacted` | internal/store/chat.go:423-448 | an attendee ends with at most the new reaction, everybody else's stay |
| `Mirror.EmailSweepEmpties` | internal/store/retention.go:20-37 | with the arithmetic written out, which emails a sweep empties, which it leaves, and which it counts |
| `Mirror.MessageSweepEmpties` | internal/store/retention.go:39-51 | the same of messages |
| `Mirror.BodySurvives` | internal/store/store.go:448-492 | a body that a page brought stays through every page that leaves it out, until another body, an eviction or a deletion |
| `Mirror.EmailsAfter` | internal/store/store.go:527-530 | a deletion takes that email, an account's deletion its emails, and neither any other |
| `Mirror.MessagesAfter` | internal/store/chat.go:383-482 | the same of messages |
| `Mirror.StatusAfter` | internal/store/chat.go:399-412 | a receipt sets the status of the messages it names in its account and nothing else |
| `Mirror.ReactionsAfter` | internal/store/chat.go:423-448 | a reaction changes one message, in its own attendee's reaction alone |
| `SyncRound.Syncer.ApplyRound` | internal/syncer/syncer.go:328-424 | whichever write fails, a prefix of the round is applied and the cursor moves only after all of it; of every key, where it then stands and exactly how often it was announced as sent, received, updated and deleted |
| `SyncRound.Syncer.Change` | internal/syncer/syncer.go:364-402 | one upsert and its event: none when quiet, updated if held, else sent in Sent Items, else received unless a draft |
| `SyncRound.Syncer.Remove` | internal/syncer/syncer.go:404-418 | one deletion and its event |
| `SyncRound.ReplayAfterPrefix` | internal/syncer/syncer.go:328-424 | any prefix of a round and then the round leaves the mirror the round alone leaves, whatever was held or evicted before |
| `SyncRound.CursorNeverAhead` | internal/syncer/syncer.go:420-424 | over any failed and repeated attempts, with evictions and writes of other scopes' rows between them, every round behind the cursor is in the mirror in full, and finishing gives each round once and each eviction, also when a round brings no new cursor |
| `SyncRound.OnceIsWhole` | internal/syncer/syncer.go:328-424 | with nothing in between that is the rounds applied once each |
| `SyncRound.NoSecondNews` | internal/syncer/syncer.go:364-402 | a message a round does not remove is announced at most once over any number of attempts at it, and never if it was held before |
| `SyncRound.NewsExactly` | internal/syncer/syncer.go:364-402 | over any number of attempts, loud and quiet, a new message of a round is announced exactly once if the first attempt to come as far as its first upsert was not quiet and that upsert is no draft or the folder is Sent Items, and never otherwise |
| `SyncRound.OneRow` | internal/store/store.go:502-514 | an eviction empties its one row and another scope's write leaves its one row |
| `SyncRound.NetActs` | internal/store/store.go:448-492 | a sequence of writes acts on each key as its net effect |
| `Idempotency.KeyStore.ReserveIdempotency` | internal/store/chat.go:576-590 | true exactly for the call that created the row |
| `Idempotency.KeyStore.PutIdempotency` | internal/store/chat.go:550-558 | the response and a new creation time replace whatever was there |
| `Idempotency.KeyStore.DeleteIdempotency` | internal/store/chat.go:595-598 | exactly that key's row goes |
| `Idempotency.KeyStore.PurgeIdempotency` | internal/store/chat.go:602-604 | exactly the rows older than the cutoff go |
| `Idempotency.KeyStore.ReplayOrConflict` | internal/api/handlers_chat.go:189-214 | a replay of the row's status and body if and only if the row holds a finished response to the same operation, a conflict otherwise |
| `Idempotency.SucceedsAtMostOnce` | internal/api/handlers_chat.go:144-184 | between two purges of a key the operation succeeds at most once, whatever store calls fail and however long other keys' requests last |
| `Idempotency.AnswersAreTheWinners` | internal/api/handlers_chat.go:144-214 | every 2xx answer is the one winner's status and body, and a replay goes only to its operation hash |
| `IdempotencySteps.StoredIsReplayed` | internal/api/handlers_chat.go:189-214 | once a winner has stored its response, a request with its key that reads the row within a day gets that status and body if it asks for the same operation, and a conflict if not |
| `IdempotencySteps.ResponseStays` | internal/api/handlers_chat.go:171-184 | a stored response stays as it is for a day, whatever other requests do |
| `IdempotencySteps.LooksUp` | internal/api/handlers_chat.go:189-214 | a loser is answered with a replay if and only if it reads a row with a response to the same operation |
| `IdempotencySteps.SucceedsAgainOnlyAfterAPurge` | internal/api/handlers_chat.go:144-184 | told of the operations alone: of two that succeed under one key the second comes after the key's row was purged for its age |
| `IdempotencySteps.RowsCome` | internal/store/chat.go:550-590 | a key's row comes with a reservation or a stored response, exactly |
| `IdempotencySteps.RowsGo` | internal/api/handlers_chat.go:156-178 | it goes with a release after a failure, or with a success's purge when it is a day old, exactly |
| `IdempotencySteps.RowsHold` | internal/store/chat.go:550-590 | a new row is empty, a written one holds hash, status and body, any other is as it was |
| `IdempotencySteps.Reserves` | internal/store/chat.go:576-590 | the reservation is won exactly by the request that finds no row |
| `IdempotencySteps.GoesOn` | internal/api/handlers_chat.go:144-184 | a request goes through its phases in order and is answered with its own operation's outcome, stored or not |
| `Idempotency.OnlyTheHolderReleases` | internal/api/handlers_chat.go:165-183 | a reservation goes only by its single holder's step, or, held by nobody, by a purge of a row more than a day old |
| `Idempotency.ReleasesAnother` | internal/api/handlers_chat.go:144-184 | from every reachable state in which a request is not done with its key while its row is that old, the run can go on until it takes another's reservation away, releasing it or storing over it |
| `Idempotency.WithinADay` | internal/api/handlers_chat.go:171-174 | a request done within a day is never in that state |
| `Idempotency.LateOperationReleasesAnother` | internal/api/handlers_chat.go:144-184 | such a state is reached, in a run with three requests |
| `SendText.CreatedIsOneRow` | internal/api/handlers_chat.go:451-498 | in every interleaving a send that answered success is exactly one row, under the provider's id, until its account is deleted, and beside it its temporary row exactly if that could not be deleted |
| `SendText.FailedLeavesNoTrace` | internal/api/handlers_chat.go:472-479 | a failed send has a temporary row exactly if that could not be deleted, no other row if the provider took nothing, and is an internal error only if a statement failed or the account was deleted |
| `SendText.RecordsExactly` | internal/api/handlers_chat.go:461-498 | those failures are single statements of the send itself |
| `SendText.AtMostTwoRowsOnTheWay` | internal/store/chat.go:383-397 | on the way a send has at most its temporary row and one provider row |
| `SendText.RowsCome` | internal/api/handlers_chat.go:451-471 | a row comes exactly with a send's start, a promotion to a free id, or an echo that finds none, and tells whose it is |
| `SendText.RowsGo` | internal/store/chat.go:383-397 | it goes exactly with its account, a discard or its promotion |
| `SendText.RowsStay` | internal/store/chat.go:399-421 | otherwise it keeps its origin, and its status but for the mark and receipts |
| `SendText.SendsGoOn` | internal/api/handlers_chat.go:451-498 | where each step takes a send, and what it is answered |
| `SendText.InvHolds` | internal/chatsync/sink.go:76-91 | rows, sends and the ids given out agree in every reachable state |
| `Runtime.CapacityAndCount` | internal/chatsync/runtime.go:107-190 | live entries never exceed the ceiling although flags change while they are counted, every entry is an actor still to leave, and the WaitGroup counts the unfinished |
| `Runtime.WaitMeansDone` | internal/chatsync/runtime.go:226-226 | when Wait returns every actor ever started is done |
| `Runtime.ReplacementSurvives` | internal/chatsync/runtime.go:170-190 | an actor loses its entry only by its own exit, a detach, or an attach that finds it terminating |
| `Runtime.NilAttachIsLive` | internal/chatsync/runtime.go:133-167 | the step that makes an attach return nil leaves its account held by a serving actor unless the context is done |
| `Runtime.NoActorAfterCancel` | internal/chatsync/runtime.go:108-117 | a cancel that finds no caller in the window is never followed by a new actor, and the WaitGroup only falls |
| `Runtime.Slips` | internal/chatsync/runtime.go:147-157 | from any cancelled state with a caller in the window the run can go on to start an actor |
| `Runtime.ActorStartedAfterWait` | internal/chatsync/runtime.go:108-117 | a run in which Wait has returned and an actor is then started |
| `Runtime.ReconnectServesTwice` | internal/chatsync/runtime.go:167-180 | a run, a Detach and an Attach, that ends with two actors serving one account |
| `RuntimeSteps.TurnedAwayWhenFull` | internal/chatsync/runtime.go:147-157 | an attach is turned away for want of capacity only when at some moment of its own time with the mutex the process was serving the most it may |
| `RuntimeSteps.LetInWithRoom` | internal/chatsync/runtime.go:147-167 | one that installs its actor does so with room left and its account free |
| `RuntimeSteps.EntriesGo` | internal/chatsync/runtime.go:133-190 | an entry goes if and only if its account is detached, its own actor exits, or an attach finds that actor terminating |
| `RuntimeSteps.EntriesCome` | internal/chatsync/runtime.go:158-167 | and comes if and only if an actor is installed for the account |
| `RuntimeSteps.ActorsGoOn` | internal/chatsync/runtime.go:159-190 | an actor is flagged by its own end, cancelled by the detach or its exit, and goes from serving to done one stage at a time |
| `RuntimeSteps.CallersGoOn` | internal/chatsync/runtime.go:107-167 | where each step takes an attaching caller, and what it returns |
| `RuntimeSteps.MutexIs` | internal/chatsync/runtime.go:121-167 | the mutex is the caller's that locked it until that one returns |
| `Runtime.Supervisor.LiveCount` | internal/chatsync/runtime.go:210-218 | the number of entries not terminating |
| `Runtime.Supervisor.AttachSection` | internal/chatsync/runtime.go:133-157 | serving entry kept, terminating one evicted, then shutdown, capacity or a new actor, in that order |
| `Runtime.Supervisor.Detach` | internal/chatsync/runtime.go:170-180 | the entry is free at once, its actor is told to stop, every other actor is untouched |
| `Runtime.Supervisor.Remove` | internal/chatsync/runtime.go:184-190 | an exiting actor clears the entry only if it is still its own |
| `Runtime.Supervisor.constructor` | internal/chatsync/runtime.go:60-80 | a ceiling that is not positive means two hundred |
| `Backoff.NextBounds` | internal/chatsync/backoff.go:25-45 | for every draw a wait is within a fifth of the capped power and never above five minutes |
| `Backoff.BaseIsCappedPower` | internal/chatsync/backoff.go:29-34 | clamping the shift at nine loses nothing: the base is min(2^n, 300) seconds for every n |
| `Backoff.Actor.Pass` | internal/chatsync/actor.go:84-157 | one turn of the loop on failures, reconnects, attempts, waits and status |
| `Backoff.Actor.Run` | internal/chatsync/actor.go:74-158 | the whole lifecycle is the turns up to the first that ends it |
| `Backoff.FailuresAreAStreak` | internal/chatsync/actor.go:298-338 | the failure count is the length of the unforgiven streak of failing turns |
| `Backoff.GivesUpExactly` | internal/chatsync/actor.go:101-123 | the account is given up exactly after thirty unforgiven failing turns in a row, the last not asking for a relink |
| `Backoff.GivingUpTakesTime` | internal/chatsync/actor.go:144-157 | the last 29 waits before giving up total between 5208.8 and 6606 seconds, each within its own bounds |
| `Backoff.AtMostThirtyAttempts` | internal/chatsync/actor.go:74-158 | with no connection that held ten minutes there are at most thirty attempts, and the thirtieth turn ends the run |
| `Backoff.NextIsJittered` | internal/chatsync/backoff.go:25-45 | which wait a draw picks: the point it marks between a fifth below and a fifth above the capped power, to the nanosecond, cut off at five minutes |
| `Backoff.Endings` | internal/chatsync/actor.go:84-157 | how a turn ends the run, an iff for each ending |
| `Backoff.CountsAll` | internal/chatsync/actor.go:298-338 | over a whole life attempts are the dials and reconnects the dropped connections |
| `Sink.Account.TakeMessage` | internal/chatsync/sink.go:58-114 | a foreign account changes nothing; otherwise the closure is its statements in order: lookup, chat, insert, and for a new message its bump and one announcement |
| `Sink.Account.TakeReceipt` | internal/chatsync/sink.go:116-143 | statuses set, unread cleared exactly by a read receipt, one update announced |
| `Sink.Account.InsertMessage` | internal/store/chat.go:315-331 | stored, and a bump owed, exactly when the id is new |
| `Sink.Account.ChatOrExisting` | internal/chatsync/actor.go:359-375 | gaps are filled from the stored row |
| `Sink.Account.ApplyRoster` | internal/chatsync/actor.go:231-240 | a batch is its chats looked up and written in order: each is there, called what was told last or what it was called, its count and time kept |
| `Sink.Account.Bump` | internal/store/chat.go:175-180 | activity and unread count move together, and only on an existing chat |
| `Sink.Account.Upsert` | internal/store/chat.go:49-57 | kind and name are replaced, unread count and activity are left alone |
| `Sink.Chunks` | internal/chatsync/actor.go:220-256 | the turns joined are the roster, each has one to ten rows, all but the last have ten |
| `Sink.UnreadIsASet` | internal/chatsync/sink.go:58-143 | over any statements of any number of actors a chat's unread count is what its row was created with, until read, plus the number of distinct messages of others counted into it since it was read |
| `Sink.CountedOrDue` | internal/chatsync/sink.go:76-95 | the messages first stored since the last read, with those an early read missed, are those counted since, with those still due |
| `Sink.UnreadIsStoredSince` | internal/chatsync/sink.go:58-143 | with nothing due in the chat the count is the number of distinct messages of others first stored since it was read, if and only if that read was not early |
| `Sink.EarlyIsARead` | internal/chatsync/sink.go:128-137 | an early read is the chat's last read, and missed one message at most of each actor inside one |
| `Sink.EarlyReadMissesAMessage` | internal/chatsync/sink.go:76-95 | a run in which a handler's read falls between the two and a message stored before it stays unread |
| `Sink.NothingInherited` | internal/store/chat.go:49-57 | the first part is zero when rows are created with a zero count |
| `Sink.AnnouncedOnce` | internal/chatsync/sink.go:80-113 | a message a sink is first to store is announced exactly once, when it is no longer due, and any other never, however many actors |
| `SinkSteps.AnnouncedAsItIs` | internal/chatsync/sink.go:96-113 | a message of the account's own is announced as sent and one of somebody else as received, one event of its kind and none of the other |
| `SinkSteps.ChatsCome` | internal/store/chat.go:49-57 | a chat's row comes exactly with a report or a started chat, as reported |
| `SinkSteps.NamesAfter` | internal/store/chat.go:49-57 | its name and kind are what was written last |
| `SinkSteps.CountsAfter` | internal/store/chat.go:175-190 | its count goes up by one with a message of others and to none with a read, and its activity is that of the last message bumped |
| `SinkSteps.MessagesCome` | internal/store/chat.go:315-392 | a message's row comes exactly with an insert of a free id, a send's start, or a promotion, and holds what they say |
| `SinkSteps.MessagesStay` | internal/store/chat.go:399-421 | and stays but for a discard and a promotion, changed by receipts in its status alone |
| `SinkSteps.LooksAt` | internal/chatsync/actor.go:359-375 | a lookup holds what was told, with what was not told from the row as it was then |
| `SinkSteps.EventsAfter` | internal/chatsync/sink.go:96-143 | a settled message and a receipt are one event each, everything else none |
| `Sink.DueDiffers` | internal/store/chat.go:315-331 | no two actors ever have the same message on its way |
| `Sink.StoredExactly` | internal/store/chat.go:315-392 | a provider id is stored exactly when some statement inserted it or renamed a live temporary row to it |
| `Sink.BlankedExactly` | internal/chatsync/actor.go:359-375 | a known name or kind is blanked exactly by the start-chat handler, of names, and by a write whose lookup came before it was known |
| `Sink.KnownStaysKnown` | internal/chatsync/actor.go:359-375 | it stays known over any statements among which neither is |
| `Inbox.OneOrderedInbox` | internal/chatsync/actor.go:160-175 | each actor's statements are the closures its sinks handed over, whole and in order, none lost, none twice, up to the one in progress; what a connection leaves in the inbox waits for the next |
| `Inbox.AbandonedInbox` | internal/chatsync/actor.go:74-79 | what an inbox still holds when its actor's goroutine returns is never served |
| `Inbox.OneHistory` | internal/chatsync/actor.go:160-175 | the tables are the result of all actors' and handlers' statements in one order |
| `Inbox.CallbacksWait` | internal/chatsync/actor.go:160-175 | an actor runs its callbacks one after another, its own receipts never inside its own messages |
| `Inbox.ReachableUnread` | internal/chatsync/sink.go:45-143 | in every reachable state, with any number of actors, unread and due together are stored since and early, and with nothing due the count is the number stored since if and only if no read was early |
| `Inbox.EarlyIsAnothers` | internal/api/handlers_misc.go:287-288 | an early read is a handler's or the receipt of another actor than the one whose message it missed, and misses one at most of each |
| `Inbox.EarlyIsAHandlers` | internal/api/handlers_chat.go:395-398 | with one actor at a time an early read is a handler's and misses one message |
| `Inbox.OnlyStartChatBlanks` | internal/chatsync/actor.go:359-375 | with one actor at a time a known name is blanked by the start-chat handler alone, and a kind only if that came between a lookup and its write |
| `Inbox.ReconnectMissesAMessage` | internal/api/handlers_misc.go:287-288 | a run in which a reconnected actor serves a read receipt inside the old one's message, which stays unread |
| `Inbox.ReachableNews` | internal/chatsync/sink.go:80-113 | in every reachable state each message was announced at most once |
| `Inbox.Queues` | internal/chatsync/actor.go:160-175 | a closure taken in joins the end of the inbox, the one served is its head, and its statements are done from the first on |
| `Inbox.TakesInOrWaits` | internal/chatsync/sink.go:45-57 | a callback is taken in while there is room for 1024, dropped only when the actor is stopping, and otherwise waits |
| `LinkRegistry.DialsOnce` | internal/api/handlers_link.go:239-253 | however many polls race through the sync.Once's flag and lock, an entry dials at most once and its pump is launched exactly when that dial succeeded |
| `LinkRegistry.OneBrowserPerEntry` | internal/api/handlers_link.go:220-230 | all polls that ever got past the claim of the entry they go on with are of one browser |
| `LinkRegistry.PastPolls` | internal/api/handlers_link.go:383-475 | a poll goes on with another entry than it claimed exactly when the one it saw had left its place, dials nothing, and leaves the one it made undialled |
| `LinkRegistry.FailureIsNotReplayed` | internal/api/handlers_link.go:255-265 | a failed entry is nowhere in the table once the poll that dialled is done |
| `LinkRegistry.NewerAttemptSurvives` | internal/api/handlers_link.go:259-265 | an entry loses its place only to a sweep or its own failed dial |
| `LinkRegistry.PlacesAfter` | internal/api/handlers_link.go:220-295 | a state's place goes exactly with a sweep or its own entry's failed dial, and is filled exactly by a claim that finds it empty |
| `LinkRegistry.EntriesAfter` | internal/api/handlers_link.go:239-265 | what a poll's step does to its entry: the once taken and given back, one dial, one pump |
| `LinkRegistry.PollsAfter` | internal/api/handlers_link.go:239-265 | where it takes the poll |
| `LinkRegistry.PollsStart` | internal/api/handlers_link.go:220-230 | what a claim makes of a poll: on with the entry if it is its own browser's, turned away if not |
| `LinkRegistry.Registry.Claim` | internal/api/handlers_link.go:220-230 | the state's entry, made when there is none, and whether the browser is its own |
| `LinkRegistry.Registry.DropFailedEntry` | internal/api/handlers_link.go:259-265 | the table loses the entry exactly where it is still that entry |
| `LinkRegistry.Registry.SweepOlder` | internal/api/handlers_link.go:275-295 | exactly the entries older than the age leave the table and are handed back |
| `LinkSession.NeverSendsOnClosed` | internal/provider/whatsapp/link.go:176-201 | with emit and resolve taken apart into statements no send ever meets a closed channel |
| `LinkSession.ResolvesOnce` | internal/provider/whatsapp/link.go:195-227 | one result is delivered, one reader gets it, and the buffered send never blocks |
| `LinkSession.FirstResolveWins` | internal/provider/whatsapp/link.go:195-227 | once a resolve has begun the winner never changes |
| `LinkSession.ResolverSteps` | internal/provider/whatsapp/link.go:195-227 | what each stage of the winning resolve does to the session |
| `LinkSession.EmitterSteps` | internal/provider/whatsapp/link.go:176-187 | what each statement of an emit does |
| `LinkSession.OutcomeIs` | internal/provider/whatsapp/link.go:136-171 | the outcome is the first verdict's: expired for a timeout or a channel that just closes, rejected for any other |
| `LinkSession.LinkSession.Emit` | internal/provider/whatsapp/link.go:176-187 | a code is appended unless the session is over or the buffer is full |
| `LinkSession.LinkSession.Resolve` | internal/provider/whatsapp/link.go:195-240 | only the first counts, and any outcome but success leaves no stored device |
| `LinkSession.LinkSession.Pump` | internal/provider/whatsapp/link.go:136-171 | an unresolved session ends with the channel's first verdict, or as expired when it just closes, and the codes before that, up to eight, are those sent, in order |
| `LinkFinish.FinishSeesTheWinner` | internal/api/handlers_link.go:509-565 | finishLink is given success exactly when the winning resolve was one and the late timer did not beat it |
| `LinkFinish.LateLostExactly` | internal/api/handlers_link.go:532-565 | that loss is exactly the timer's step on a delivered success, and whenever the pump waits the result is already there |
| `LinkFinish.FinishesOnce` | internal/api/handlers_link.go:509-548 | an attempt is handed to finishLink at most once, and exactly once when its pump is done |
| `LinkFinish.RegisteredIsNamed` | internal/accounts/accounts.go:210-280 | a registered device of a finished attempt is named by an account's session exactly when the late timer, a late store, an overwriting save and a removal that had not read its name all missed it |
| `LinkFinish.RacesExactly` | internal/accounts/accounts.go:210-280 | the late store, the overwriting save and the unread removal are single steps of the run |
| `LinkFinish.ApartRelinksKeepDevices` | internal/accounts/accounts.go:210-280 | if relinks of this number overlap neither each other nor a deletion or logout, and all of them read the session that is there, only the first two can lose its device |
| `LinkFinishSteps.DevicesAfter` | internal/provider/whatsapp/link.go:229-240 | a device comes exactly when its attempt stores it, and goes exactly with a failed session's clean-up, an attempt that could not be finished, or a relink or removal that read its name |
| `LinkFinishSteps.AccountsAfter` | internal/accounts/accounts.go:210-280 | an account comes exactly with an upsert that finds none, and goes exactly with a removal of that very id |
| `LinkFinishSteps.SessionsAfterStep` | internal/accounts/accounts.go:240-280 | an account names the attempt that saved last until its session or itself is deleted |
| `LinkFinishSteps.PumpsOn` | internal/api/handlers_link.go:509-565 | how the pump comes to its result: in time, late, or by the timer |
| `LinkFinishSteps.FinishesOn` | internal/api/handlers_link.go:571-628 | only a success with a state to take goes on to ConnectLinked, as a relink exactly when its number has an account |
| `LinkFinishSteps.ConnectsOn` | internal/accounts/accounts.go:210-245 | a relink that can read another device's name forgets that one first; whatever fails forgets its own |
| `LinkFinishSteps.RemovalsGoOn` | internal/accounts/accounts.go:250-280 | a deletion reads the name, forgets that device, deletes the session and, if that went well, the account; a logout stops before |
| `LinkFinishSteps.NotesOf` | internal/api/handlers_link.go:556-565 | what is noted as a late loss and as a late store |
| `LinkFinishSteps.NotesOfOthers` | internal/accounts/accounts.go:210-280 | what is noted as an overwritten name and as an unread removal |
| `LinkFinish.LateTimerLosesADevice` | internal/api/handlers_link.go:556-565 | a run that ends with a paired device no session names |
| `LinkFinish.LateStoreLosesADevice` | internal/provider/whatsapp/link.go:229-240 | a run in which the device is stored after the cancelled session looked for it |
| `LinkFinish.OverlapLosesADevice` | internal/accounts/accounts.go:210-245 | a run in which two links of one number leave the first device unnamed |
| `LinkFinish.BlindRelinkLosesADevice` | internal/accounts/accounts.go:234-239 | a run in which one relink that cannot read the old session leaves its device unnamed |
| `LinkFinish.BlindRemovalLosesADevice` | internal/accounts/accounts.go:250-275 | a run in which a deletion or logout that cannot read the session takes the name and leaves the device |
| `LinkFinish.RemovalLosesADevice` | internal/accounts/accounts.go:250-275 | a run in which a relink inside a deletion or logout ends with its device unnamed |
| `Wake.NoLostWakeup` | internal/syncer/syncer.go:109-162 | when everything rests each wake was followed by a run that started after it, unless the last request on its way for the account met a full queue or a shutdown and nothing of it was left |
| `Wake.WakeIsCarried` | internal/syncer/syncer.go:109-162 | until then a run of the account is still queued, pending or in some goroutine's hands, whatever drops others meet |
| `Wake.OneRunPerAccount` | internal/syncer/syncer.go:136-144 | no account is synced twice at once, pending implies a run in progress, and the queue is bounded |
| `Wake.OneFollowUp` | internal/syncer/syncer.go:151-161 | the end of a run asks again exactly when a wake was folded into it |
| `Wake.FoldedIntoOne` | internal/syncer/syncer.go:109-116 | during a run folded wakes leave exactly the pending mark |
| `Wake.QueueAfter` | internal/syncer/syncer.go:109-123 | the queue is first in, first out, takes 256, and drops a post when full |
| `Wake.SetsAfter` | internal/syncer/syncer.go:136-161 | an account is in flight exactly from the start of its run to its end, and pending exactly from the first wake or turn that finds it so |
| `Wake.ThreadsAfter` | internal/syncer/syncer.go:109-162 | where each step takes its goroutine |
| `Wake.Syncer.Wake` | internal/syncer/syncer.go:109-123 | folded during a run, else queued, else dropped when the queue is full |
| `Wake.Syncer.RunOnce` | internal/syncer/syncer.go:136-162 | any number of wakes during a run leave one follow-up in the queue, none leave none; other accounts' wakes are folded or queued meanwhile |
| `MissCache.CounterLaw` | internal/api/api.go:688-738 | in every interleaving the counter is the map's size less pending increments plus pending decrements |
| `MissCache.QuietCacheWithinCap` | internal/api/api.go:712-768 | whenever no call is in progress the counter is the size and the map is within its cap |
| `MissCache.AlwaysGuarded` | internal/api/api.go:712-730 | a map over its cap always has a caller that is going to look at the counter |
| `MissCache.EntriesAfter` | internal/api/api.go:712-738 | a key comes with a swap and goes with a delete that finds it, and the counter moves by one at a time |
| `MissCache.RemembersOn` | internal/api/api.go:712-730 | a call counts, sweeps every thousandth time, loads the counter, sweeps and loads again, then evicts |
| `MissCache.DeletesOn` | internal/api/api.go:732-768 | a visited key is deleted and, if it was there, counted off; an eviction stops at the cap or at the end of its Range |
| `MissCache.Cache.Hit` | internal/api/api.go:696-707 | true exactly for a remembered miss that has not expired; a stale one is dropped |
| `MissCache.Cache.Remember` | internal/api/api.go:712-730 | the cache is back within its cap, the key is remembered for a minute, every thousandth call and one that overflows drops what has expired, and nothing unexpired is given up unless the unexpired alone overflow |
| `MissCache.Cache.Sweep` | internal/api/api.go:742-750 | exactly the expired entries go |
| `MissCache.Cache.EvictExcess` | internal/api/api.go:759-767 | entries go until exactly the cap is left, and none when within it |
| `Paging.MessageStore.ListChatMessages` | internal/store/chat.go:339-379 | an unknown cursor is not found; a page is of rows of the chat below the cursor, newest first, complete or full with a cursor exactly when something older is left |
| `Paging.PageFacts` | internal/store/chat.go:339-379 | a page is descending, within its limit, holds selected rows only, and misses only rows below its last |
| `Paging.PageMeans` | internal/store/chat.go:339-379 | in words of its own: newest first by time and then id, all below the cursor, fifty or as many as asked for up to a hundred, a cursor exactly when something older is left |
| `Paging.LessIs` | internal/store/chat.go:339-379 | ids are ordered by the first character that differs, or the shorter first |
| `Paging.ReadsWhatStays` | internal/store/chat.go:339-397 | however messages come, go and are renamed between pages, the reader goes newest to oldest, is turned away exactly when the row of the last message it saw was renamed or deleted in between, and at the end has seen all that stayed |
| `Paging.RenamedCursorIsLost` | internal/store/chat.go:383-392 | so it is when a temporary row that ends a page is promoted |
| `Paging.NothingMissedNothingTwice` | internal/store/chat.go:339-379 | with messages arriving between pages the reader sees each message at most once, newest to oldest, and at the end all that were there at the start |
| `Paging.Finishes` | internal/store/chat.go:339-379 | with no arrivals following the cursor ends |
| `Paging.ReadsWholeChat` | internal/store/chat.go:339-379 | and returns exactly the chat in order, for every page size |
| `LikeEscape.SearchFindsSubstrings` | internal/store/store.go:665-674 | a text matches the escaped pattern between percent signs exactly when it contains the search, for all texts |
| `LikeEscape.EscapedHead` | internal/store/store.go:671-674 | escaped text at the head of a pattern matches exactly itself |
| `LikeEscape.UnescapedFindsTooMuch` | internal/store/store.go:665-674 | without the escaping an underscore finds any text |
| `Dialect.SplitStatements` | internal/store/dialect.go:99-135 | the flag-driven loop computes the mode-driven split |
| `Dialect.SplitGivesStatements` | internal/store/dialect.go:99-135 | every piece is one trimmed statement |
| `Dialect.PieceIsOnePiece` | internal/store/dialect.go:99-135 | splitting a piece again gives it back alone |
| `Dialect.SplitJoinRoundTrip` | internal/store/dialect.go:99-135 | splitting the joined pieces gives the same pieces |
| `Dialect.SplitsInTwo` | internal/store/dialect.go:99-135 | a semicolon outside quotes and comments cuts a script into the statements before and those after it |
| `Dialect.SplitsWhole` | internal/store/dialect.go:99-135 | a script without one is one statement, its text without the white space around it, or none |
| `Dialect.QuoteLasts` | internal/store/dialect.go:66-90 | a quote opens a literal that the next quote closes |
| `Dialect.CommentLasts` | internal/store/dialect.go:66-90 | two dashes open a comment that the end of the line closes |
| `Dialect.PlainIsOutside` | internal/store/dialect.go:66-90 | text with neither stands outside |
| `Dialect.ItoaReads` | internal/store/dialect.go:85-92 | a placeholder's number is written in decimal |
| `Dialect.RebindDollar` | internal/store/dialect.go:60-97 | the loop, with its look one character ahead, computes the mode-driven rewriting |
| `Dialect.NumberedLeftToRight` | internal/store/dialect.go:60-97 | the k-th live placeholder becomes $k and every other character stays itself |
| `Dialect.RebindRoundTrip` | internal/store/dialect.go:60-97 | reading live $k back in turn undoes the rewriting exactly when no live $ is followed by the number whose turn it is |
| `Dialect.RebindInjective` | internal/store/dialect.go:60-97 | so two such queries are never rewritten alike |
| `Dialect.ClashCollides` | internal/store/dialect.go:60-97 | and every other query shares its rewriting with the one it is read back as |
| `Dialect.NoDollarReadsBack` | internal/store/dialect.go:60-97 | a query without a live $ is always read back |
| `Dialect.DollarCollides` | internal/store/dialect.go:60-97 | a query with a live $ may collide and may not: "$1" does, "$x" is read back |

## Left out

- HTTP parsing, cookies, templates, JSON, hashing, encryption and the provider libraries: their outcomes are free choices, ids and hashes are injective.
- Store failures in the chat runtime, the sink and the link flow up to ConnectLinked: those statements always succeed there; deliveries, sync rounds, idempotency keys, sends of texts, ConnectLinked and removals do model failing ones.
- Row locking and isolation of the two databases: each statement, and each transaction of reactions and members, is one step.
- `evictDelivered` itself decides, after fan-out, by event type and the developer's setting; FanOut stops at the decision to call it.
- DeliveryOf.OneAttemptAtOnce: assumes, as the code does, that redeliveries of this delivery end within the ten-minute lease; `DeliveryOf.LateSendCanOverlap` shows what happens otherwise.
- Idempotency.SucceedsAtMostOnce: for a key whose operations are shorter than the day after which keys are purged; `Idempotency.ReleasesAnother` shows what happens otherwise.
- Backoff.NextBounds: over the reals, so without the rounding of a float64 product.
- Runtime.NilAttachIsLive: reads the two halves of isTerminating as one step, since both only ever become true.
- Wake.NoLostWakeup: a safety statement; that the scheduler lets goroutines run is not part of this model.
- LinkFinish.RegisteredIsNamed: TakeOAuthState succeeds or fails freely, and discard and Forget succeed.
- Mirror.EvictedMessageFrozen: a revoke and a later edit of a message that is not evicted are modelled but nothing is claimed of them.
- FanOut.Dispatcher.Deliver: other writers are free, but do not know the id of a delivery before it is parked.
- Paging.ReadsWhatStays: ids are compared as strings of characters, and a renamed message counts as another one.
- SyncRound.CursorNeverAhead: a cursor is always answered with the same round, what happens in between falls between attempts and not inside one, other scopes keep to other messages, and a resync after an expired cursor is not part of this model.
- SyncRound.NewsExactly: like SyncRound.NoSecondNews it is about attempts with no other writer of the message between them.
- Sink.UnreadIsASet: a message's bump and its event, and a receipt's statuses, clear and event, are one step each, since no result over runs is about statuses or the order of different actors' events.
- Scope discovery of the syncer and attachment fetching: discovery has the same cursor-last shape as a round, on folders that are never evicted.
- Reactions, edits and deletions through the sink, attendees and group members: single statements with no counters to keep.
- The dispatcher's shutdown drain, the hourly tickers and the subscription renewal loop: they only repeat steps modelled here.
- The session object of LinkSession is read by nobody while its pump runs, so codes there pile up to the buffer's size; the protocol above it has a free reader of the result.
