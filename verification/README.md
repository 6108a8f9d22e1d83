# Delivery guarantees of the messaging platform, modelled and proved

This project models the stateful core of the messaging platform in Dafny and proves what it keeps over
whole runs. Its centre is the delivery path of one recipient device: accept, inbox rows, live feed, replay
scan, gate, outbound queue, the shipped client and its cumulative acknowledgements. Around it stand the
idempotent accept pipeline, group fan-out and its aggregate tick, the push circuit breaker, the versioned
membership cache, presence feeds, the flap damper, refresh-token rotation, the connection registry, the
media reference counts, the receipt coalescers and the mobile conversation cipher.

`dafny verify dfyconfig.toml` checks everything.

## How it is built

| file | what it models |
|---|---|
| `Ports`, `Fnv`, `Words` | what ports answer; the FNV-1a hash two components share; 32-bit numbers as four bytes |
| `Items`, `StableSort`, `ReplayGate` | items and their order; the stable sort; the replay gate as a class over an array buffer, and every interleaving of calls on it |
| `Client`, `Delivery`, `ConnOrder` | the client's batch planner and its local writes; the delivery path as a step system with failures; the order each connection sends in, and that its replay is complete |
| `ZeroLoss`, `Runs`, `Replays`, `Losing`, `ReliableFeed` | when nothing is lost, and that the condition is exact; putting runs together and replays that run on; runs that lose a message; what a reliable feed, a client that plans in turn and a reliable local database guarantee together |
| `Accept` | concurrent accepts under failing claims, commits and releases |
| `Fanout`, `Aggregate` | the fan-out worker and its retries; the aggregate receipt |
| `Breaker`, `Push` | the circuit breaker against its full history; the push pipeline that drives it |
| `Membership`, `Refresh` | versioned cache readers and refresh calls, each store access a step of its own |
| `Presence`, `Flap`, `Registry` | subscriptions and feeds; timers racing a lock; 256 shards as one map |
| `Media`, `Coalesce` | reference counts on a self-feeding subject; the twin receipt coalescers |
| `ConvCrypto` | digest, keystream and envelopes over bytes |

Objects that the source updates in place are classes whose methods are proved against a function of the
old state; the theorems are about those functions. Where calls interleave between store accesses or locked
sections, each access is one step of a state machine and a theorem covers every legal sequence of steps.

Environment, stated as steps or parameters rather than assumed away: every port call may answer, take effect
with its answer lost, or never run; acknowledgements may arrive late, repeatedly or never; publishes may be
lost, repeated or reordered; the client may come to plan received frames in any order, a local write may fail,
batches are written concurrently, and the app may restart at any time; a token holder presents its own cursors. Assigning a sequence number and writing
the rows is one transaction. New tokens are fresh and hashes are injective. Inbox rows do not expire within a
run; dedupe records may, and the bound counts it.

## What turned out not to hold

Each of these is a lemma with a witness, beside a lemma saying exactly when the property does hold.

- Zero loss, for the feed. The client acknowledges the highest sequence number of a batch even when a lower one
  never came (`clients/packages/client-core/src/db/messageStore.ts:59-86`), and the gateway ignores its request
  to pull the gap (`server/internal/gateway/server.go:408-446`). After one failed publish the next message
  deletes the missing row: `ReliableFeed.LostPublishLosesMessage`.
- Zero loss, for the order of planning. The web client opens every item of a frame before it plans the frame, and
  starts each frame's work without waiting for the one before (`clients/web/src/worker/db.worker.ts:82-96,173-183`),
  so a short live frame can be planned ahead of the replay page it arrived behind; the page is then skipped as
  duplicates and its rows are acknowledged: `ReliableFeed.EarlyPlanLosesMessage`, with a faultless feed and a
  faultless database. The mobile client plans before it waits (`clients/mobile/src/services/appServices.ts:152-165`).
- Zero loss, for the local database. The cursor in memory moves before anything is written
  (`clients/packages/client-core/src/db/messageStore.ts:198-231`), so a batch whose write fails is skipped as a
  duplicate when it is replayed, and acknowledged: `ReliableFeed.FailedWriteLosesMessage`, on a faultless feed.
  Frames are also handled concurrently (`clients/packages/client-core/src/wsClient.ts:159`), so a later batch can
  acknowledge an earlier one that is not written yet: `Losing.EarlyAckLoses`.
  Together: delivery stays safe exactly as long as no item overtakes a lower row, no frame is planned ahead of one,
  no batch acknowledges what another has yet to store, and no failing write gives a row up
  (`ZeroLoss.GaplessIsExact`); any other step can be followed by a loss (`Losing.UngaplessStepLoses`).
- Order after the flush. The opened gate frees its watermark, so a late duplicate goes out twice
  (`ReplayGate.DuplicateAfterOpening`, `ReplayGate.OpenGateOrderExact`).
- One sequence number per message. A commit whose success is not reported is released and retried
  (`Accept.UnreportedCommitSequencesTwice`). `Accept.SequencedAtMost` is the price, `Accept.BoundReached` shows it is
  reached for every number of such commits and expiries, and `Accept.SequencableExactly` says when one more is possible.
- A recorded message keeps its number until the record expires. A call left over from an earlier expiry can still give
  the claim back or record another number (`Accept.LeftoverReachable`); `Accept.RecordLastsExactly` says when the record lasts.
- A pushed dispatch is never dropped. A refused delivery is handed back at once and burns the stream's
  delivery limit (`Push.OutageStrandsPush`, `Push.StrandedExactly`).
- Half-open recovers. A probe that meets a dead token reports nothing and blocks the provider for good
  (`Push.HalfOpenWedges`, `Push.ProbeResolvesUnlessTokenDead`).
- The membership answered is that of the version answered. Version and members are two cache keys and two
  queries (`server/internal/groups/adapters/cache.go:26-39`, `server/internal/groups/adapters/pg.go:155-179`):
  `Membership.InvalidationTearsRead`, `Membership.StaleWarmIsWrong`, `Membership.CacheHitExactly`,
  `Membership.ExactWhenUnchanged`.
- The grace period. A timer body checks that a registration is there, not that it is its own, and does not stop the
  timer it takes it from (`Flap.StaleBodyFiresEarly`). A disconnect keeps its grace exactly if no stray timer of its
  key is about (`Flap.GraceKeptExactly`).
- Replaying a superseded refresh token kills the session. Only the immediate predecessor is recognised
  (`Refresh.OldReplayGoesUnnoticed`, `Refresh.ReuseDetectedExactly`).
- A failed dereference may be redelivered. The event is marked before the decrement, so a failure after the
  mark loses it (`Media.RedeliveryLosesDecrement`, `Media.DereferencedExactly`).
- The aggregate tick comes when all devices have it. Any device is counted, so a stranger's receipt can stand in for
  a target's (`Aggregate.StrangerTicksEarly`), and while only targets report a repeated device in the list means it
  never comes (`Aggregate.RepeatedTargetNeverTicks`). `Aggregate.TickMeansAllReached` is the exact condition.
- A concurrent count is some size the registry had. It need not be (`Registry.CountCanBeTorn`); `Registry.CountExactly`
  says what it is, and when that is such a size.

## Model

| member | source | states |
|---|---|---|
| `StableSort.SortInPlace` | server/internal/gateway/replay.go:71-77 | sorting the buffer in place yields the stable sort of what it held and touches nothing beyond |
| `StableSort.SortIsStable` | server/internal/gateway/replay.go:71-77 | the result is ordered by conversation then sequence number, with every key's items in arrival order |
| `StableSort.StableSortUnique` | server/internal/gateway/replay.go:71-77 | only one sequence is sorted and stable, so any stable sort returns it whatever its algorithm |
| `ReplayGate.Gate.HoldLive` | server/internal/gateway/replay.go:36-47 | an open gate passes an item on, a closed one holds it until 1024 are held and then reports overflow |
| `ReplayGate.ClosedGateHoldsAll` | server/internal/gateway/replay.go:36-47 | a closed gate holds every live item in arrival order up to 1024 of them, and meanwhile the queue receives the replayed rows, in order, and nothing else |
| `ReplayGate.HoldsExactly1024` | server/internal/gateway/replay.go:36-47 | from a new gate, after any batches and any n live items up to 1024, exactly those n are held and the connection stays; the next one ends it if and only if n is 1024, and is not held |
| `ReplayGate.OpenGateForwards` | server/internal/gateway/replay.go:39-41 | an open gate holds nothing: a live item goes straight to the queue, or ends the connection if that is full |
| `ReplayGate.Gate.Advance` | server/internal/gateway/replay.go:51-59 | a replayed batch raises the watermark of its conversations and nothing else changes |
| `ReplayGate.AdvancedCovers` | server/internal/gateway/replay.go:51-59 | the watermark is the maximum of what it was and the batch's numbers, per conversation |
| `ReplayGate.Compact` | server/internal/gateway/replay.go:78-85 | the in-place compaction leaves the walk's survivors in front and the rest of the array alone |
| `ReplayGate.Gate.Finish` | server/internal/gateway/replay.go:67-92 | the flush hands over exactly the specified items; it opens and empties the gate unless the queue refused them |
| `ReplayGate.ClosesExactly` | server/internal/gateway/server.go:162-207 | a call ends the connection if and only if the queue refuses something or a live item comes when 1024 are held; a finish with no held item above the watermark needs no room |
| `ReplayGate.FinishOpens` | server/internal/gateway/replay.go:86-91 | an accepted finish sends the flush behind everything sent, drops the buffer and the watermark, and the gate stays open on every continuation |
| `ReplayGate.WalkedWatermark` | server/internal/gateway/replay.go:78-85 | the walk leaves, per conversation, the maximum of the old watermark and the numbers walked over |
| `ReplayGate.FlushedMeans` | server/internal/gateway/replay.go:67-91 | the flush is strictly ascending, holds the first arrival of every buffered key above the watermark, and nothing else: each held item is flushed once or covered by replay |
| `ReplayGate.FlushUnique` | server/internal/gateway/replay.go:67-91 | that description has one solution |
| `ReplayGate.InterleaveKeepsOrder` | server/internal/gateway/server.go:363-394 | in every interleaving of live items, batches and finish, what is enqueued strictly increases per conversation, so no key twice, and the buffer stays bounded |
| `ReplayGate.OpenGateOrderExact` | server/internal/gateway/replay.go:89-91 | after opening, order holds if and only if the live item exceeds what its conversation already sent |
| `ReplayGate.DuplicateAfterOpening` | server/internal/gateway/replay.go:89-91 | a duplicate that arrives after the flush is enqueued twice |
| `Client.PlanInboxBatch` | clients/packages/client-core/src/db/messageStore.ts:59-86 | a batch plans new messages in strictly increasing order per conversation and all overlays, raises each cursor to the highest number received and will acknowledge it; unless two different items share a number, exactly the items above the cursor are planned |
| `Client.MessageStore.PersistInboxBatch` | clients/packages/client-core/src/db/messageStore.ts:198-231 | whatever write fails, the cursors in memory have moved; exactly the items written before it are stored; cursor rows are written only after all items, and only a batch written whole returns its watermark |
| `Client.InsertedOnceInOrder` | clients/packages/sync-engine/src/cursors.ts:20-26 | over every sequence of batches, with any duplicates, the inserted messages strictly increase per conversation |
| `Client.ValidCursors` | server/internal/chat/service.go:231-247 | the in-place filter keeps exactly the well-formed cursors, in order |
| `Client.WellFormedMeans` | server/internal/chat/service.go:231-247 | a cursor stays exactly if it names a conversation and a positive number, each judged on its own, in order |
| `Delivery.StepKeepsInv` | server/internal/gateway/server.go:162-207 | every step, frames planned out of turn, a failed local write and a restart among them, keeps: one item per sequence number, everything in transit was accepted, rows are deleted only by acks the client sent, no cursor on disk or in a replay runs ahead of memory |
| `Delivery.RunKeepsInv` | server/internal/chat/adapters/pg.go:232-319 | the same over every legal run of sends, losses, reconnects, replay pages, frames, plans in any order, local writes, restarts and acks |
| `Delivery.BoundsHold` | server/internal/gateway/server.go:363-394 | on every run at most 512 frames are queued and 1024 live items held; a page brings at most 100 rows, and exactly a shorter one is the last |
| `Delivery.CompletedSurvivesRestart` | clients/packages/client-core/src/db/messageStore.ts:198-231 | a batch written whole survives a restart: its items are stored, the cursors resume at its watermark, and it was acknowledged |
| `Delivery.ResumeHonoursCurrentToken` | server/internal/gateway/server.go:337-358 | cursors are honoured exactly if the token on record is presented, and the new token takes its place exactly if the store took it |
| `ConnOrder.ConnectionsSendInOrder` | server/internal/gateway/server.go:363-394 | on every legal run every connection sends each conversation in strictly increasing order, the replay scan's pages meeting the gate's condition by themselves, as long as live items after the flush exceed what was sent |
| `ConnOrder.ReplayIsComplete` | server/internal/gateway/server.go:363-394 | on every legal run, whatever the feed and the client do, an open gate means every row accepted before the connection attached was sent on it, is no longer in the inbox, or was covered by the cursors it resumed with |
| `ConnOrder.QueueIsTheTail` | server/internal/gateway/server.go:162-207 | on every legal run the queue holds the end of what was sent, in order: nothing is queued uncounted, counted unqueued, or dropped while the connection lasts |
| `ConnOrder.ConnectionEndsExactly` | server/internal/gateway/server.go:162-207 | a connection ends exactly by a refused frame, a live item beyond the 1024 held, a failed write, a restart or the peer |
| `ZeroLoss.HonestAcksLoseNothing` | server/internal/chat/chat.go:59-65 | on every run whatever, if the acknowledgements sent mean what they say, every accepted row is in the inbox or on the device |
| `ZeroLoss.MisackedRowIsOneAckAway` | server/internal/chat/adapters/pg.go:300-319 | a row an acknowledgement covers unstored is gone as soon as that acknowledgement arrives |
| `ZeroLoss.GaplessRunsLoseNothing` | server/internal/gateway/server.go:337-394 | on every run whose feed leaves no lower row behind, whose client plans no frame ahead of one and whose local database neither gives a row up nor acknowledges out of turn, nothing is lost, and an opened gate means all that was accepted before attaching is stored, being stored or on its way |
| `ZeroLoss.GaplessIsExact` | clients/packages/client-core/src/db/messageStore.ts:198-231 | a step, of the feed, of the client's planning or of the local database, keeps delivery safe if and only if it meets that condition |
| `ZeroLoss.OldestIsFirstInLine` | clients/mobile/src/services/appServices.ts:152-165 | planning frames in the order they arrived always meets it |
| `ZeroLoss.InboxShowsFit` | server/internal/gateway/server.go:162-207 | what the gateway can see is enough: an item fits if the lower rows still in the inbox are queued |
| `Losing.GapStepLoses` | server/internal/gateway/server.go:162-207 | any arrival or flush that leaves a gap extends, by steps on which nothing goes wrong, to a run that loses a message |
| `Losing.GapLosesMessage` | clients/packages/sync-engine/src/cursors.ts:20-36 | planning frames up to one behind a gap, storing everything in turn and one ack lose the skipped row |
| `Losing.EarlyPlanLoses` | clients/web/src/worker/db.worker.ts:82-96 | any frame planned ahead of a lower row extends, by steps on which nothing goes wrong, to a run that loses that row |
| `Losing.EarlyAckLoses` | clients/packages/client-core/src/wsClient.ts:155-160 | any acknowledgement of what another batch has yet to store loses it if the app is closed once it arrives |
| `Losing.SkippedIsLost` | clients/packages/client-core/src/db/messageStore.ts:59-86 | from any state, a message the cursor has passed unstored is lost after a reconnect on which nothing goes wrong |
| `Losing.OvertakenIsLost` | clients/packages/client-core/src/db/messageStore.ts:59-86 | from any state, any row the cursor has passed and nobody is storing, overlays included, can be lost by resuming with the client's own cursors and one more message |
| `Losing.AbandonedIsLost` | clients/packages/client-core/src/db/messageStore.ts:198-231 | a failed write that gives a message up extends, by steps on which nothing goes wrong, to a run that loses it |
| `Losing.UngaplessStepLoses` | clients/packages/client-core/src/db/messageStore.ts:198-231 | after every step that breaks the condition, whatever its kind, some run leaves a row neither in the inbox nor on the device |
| `Losing.LostForGood` | clients/packages/client-core/src/db/messageStore.ts:59-86 | a lost message stays lost while the app runs, even if its payload still arrives |
| `Losing.GoneForGood` | server/internal/chat/adapters/pg.go:232-319 | once no copy is in transit it stays lost on every run, restarts included |
| `ReliableFeed.ReliableIsGapless` | server/internal/gateway/server.go:162-207 | a feed in publication order without loss, a client that plans frames as they arrived and a local database that stores every batch in turn meet the condition at every step |
| `ReliableFeed.ReliableRunsDeliverEverything` | server/internal/gateway/server.go:363-394 | over every run on such a feed, client and database nothing is lost, and a quiet connection means the device holds every accepted message |
| `ReliableFeed.LostPublishLosesMessage` | server/internal/chat/service.go:184-212 | with client and database faultless, one failed publish followed by a good one loses a message |
| `ReliableFeed.EarlyPlanLosesMessage` | clients/web/src/worker/db.worker.ts:173-183 | with feed and database faultless, two frames planned in the wrong order lose a message |
| `ReliableFeed.FailedWriteLosesMessage` | clients/packages/client-core/src/wsClient.ts:234-238 | with feed and planning faultless, one failed local write loses a message although everything works from then on |
| `Accept.SequencedAtMost` | server/internal/chat/service.go:136-182 | in every interleaving a message is sequenced at most once, plus once per unreported commit or expired record |
| `Accept.IdenticalAcks` | server/internal/chat/service.go:136-182 | with neither of those, all successful acks of a message carry the one number it was given |
| `Accept.RetryIsAcked` | server/internal/chat/service.go:143-149 | on every run without an expiry, once the number is on record it stays, the message is never sequenced again, and every later answered claim of it is acknowledged with exactly that number |
| `Accept.RecordLastsExactly` | server/internal/chat/adapters/valkey.go:45-85 | from any state, expiries before it included, a record lasts on every continuation without an expiry if and only if no other call of the message can still give the claim back or record another number |
| `Accept.LeftoverReachable` | server/internal/chat/adapters/valkey.go:14-16 | a claim that expires under a slow call, and a retry, leave such a call behind |
| `Accept.AckIsFinal` | server/internal/chat/service.go:136-182 | nothing that happens later takes an ack back or changes it |
| `Accept.RejectedOnlyWithExcuse` | server/internal/chat/service.go:136-174 | on every run a call is turned down only by a claim that was not answered or found another at work, a store that failed it, or a crash |
| `Accept.AcceptSucceeds` | server/internal/chat/service.go:136-182 | with every port answering, an unclaimed message gets the conversation's next number, is acknowledged with it and put on record |
| `Accept.PortsMean` | server/internal/chat/service.go:136-182 | a port call that never ran changes nothing, one whose answer is lost has taken effect; a stored message is acknowledged and a failed one turned down whatever becomes of its record |
| `Accept.RunKeepsInv` | server/internal/chat/adapters/pg.go:33-123 | every number on record or acknowledged was really assigned, numbers go 1, 2, 3 per conversation in commit order without a gap, and the claim ledger balances |
| `Accept.UnreportedCommitSequencesTwice` | server/internal/chat/service.go:153-182 | one unreported commit and one retry give two numbers |
| `Accept.BoundReached` | server/internal/chat/service.go:153-182 | for every number of unreported commits and of expiries some run reaches the bound |
| `Accept.SequencableExactly` | server/internal/chat/service.go:136-182 | from any state, without a further unreported commit or expiry, a message can be sequenced once more if and only if it is unclaimed or its claim is still held |
| `Fanout.Worker.Fanout` | server/internal/fanout/fanout.go:95-147 | a run inserts exactly the rows of its good batches (and a failed batch that took effect) where their key is free, publishes exactly the good batches' rows in order and none before its insert, returns the committed prefix's length, and does nothing if members or devices cannot be resolved |
| `Fanout.TargetsMean` | server/internal/fanout/fanout.go:105-122 | the rows are those of the listed devices other than the sender's |
| `Fanout.InsertedCopies` | server/internal/fanout/fanout.go:60-64 | a key new to the table stands once after an insert, however often the batch repeats it, and every other key as often as before |
| `Fanout.RetriedCopies` | server/internal/fanout/fanout.go:130-147 | the same over any attempts: a new key stands once exactly if some attempt got as far as inserting it |
| `Fanout.RetriesConverge` | server/internal/fanout/fanout.go:95-147 | over any redeliveries of a message not in the table: at most one row per device, none for the sender or an unlisted device, exactly one for every other device once a run was clean, and nothing else changes |
| `Fanout.AbortedCountIsStored` | server/internal/fanout/fanout.go:130-147 | the count returned on error is a whole number of batches, all stored |
| `Fanout.RunInNumbers` | server/internal/fanout/fanout.go:130-147 | batches are of 500 rows, the last one short: what is counted and what is stored, in numbers |
| `Aggregate.AggregateReceipts.OnDeviceReceipt` | server/internal/fanout/receipts.go:37-46 | records the device, attempts the tick exactly when this receipt completes the expected count, and fails if the store or that attempt does |
| `Aggregate.TickExactlyOnce` | server/internal/fanout/receipts.go:37-46 | any sequence of receipts raises one tick if the count is reached and its completing answer was not lost, otherwise none |
| `Aggregate.TickMeansAllReached` | server/internal/fanout/fanout.go:124-128 | with the worker's own expectation and receipts from any device: when the tick comes, and that it means every target if and only if the strangers recorded by then are as many as the repeated entries of the list, so with none repeated if and only if there is no stranger |
| `Aggregate.RepeatedTargetNeverTicks` | server/internal/fanout/fanout.go:124-128 | while only targets report, a repeated entry means no tick ever |
| `Aggregate.StrangerTicksEarly` | server/internal/fanout/receipts.go:37-46 | a device that is no target completes the count while a target has not reported |
| `Breaker.Breaker.constructor` | server/internal/notify/breaker.go:39-50 | each non-positive setting falls back to its own default, so the configuration is always sane; starts closed |
| `Breaker.Breaker.Allow` | server/internal/notify/breaker.go:55-70 | admits when closed, or as the one probe once an open breaker has cooled down |
| `Breaker.Breaker.Record` | server/internal/notify/breaker.go:75-101 | an outcome moves the automaton as specified, filtering the failure list in place |
| `Breaker.Breaker.IsOpen` | server/internal/notify/breaker.go:104-111 | blocking if and only if open and still cooling down |
| `Breaker.PrunedWindowAgrees` | server/internal/notify/breaker.go:75-101 | with a monotone clock the pruned list gives the same mode and the same answers as scanning every failure since the last success |
| `Breaker.BackwardClockDisagrees` | server/internal/notify/breaker.go:75-101 | a clock that steps back makes them differ |
| `Breaker.ClosedHoldsFew` | server/internal/notify/breaker.go:88-101 | a closed breaker holds fewer than threshold failures over every history |
| `Breaker.SingleProbe` | server/internal/notify/breaker.go:55-70 | from opening to the next outcome exactly one caller is admitted if any asks after the cooldown, else none |
| `Breaker.HalfOpenAdmitsNobody` | server/internal/notify/breaker.go:55-70 | while the probe is out nobody else is admitted |
| `Push.Service.Handle` | server/internal/notify/service.go:54-102 | the verdict, the breaker's next state, the pruned token and whether a send happened, for every port answer |
| `Push.OutageOpens` | server/internal/notify/service.go:91-94 | from any closed breaker, threshold deliveries that reach the provider and fail within one window leave it open |
| `Push.OpenSendsNothing` | server/internal/notify/service.go:71-74 | whatever is delivered within an open breaker's cooldown, nothing is sent and the breaker stays as it is |
| `Push.FewFailuresPass` | server/internal/notify/service.go:91-94 | with fewer failures than the threshold a closed breaker stays closed and every delivery is sent |
| `Push.DeliveredClears` | server/internal/notify/service.go:76-80 | a delivered push closes the breaker with nothing counted against it |
| `Push.UnreachedLeavesBreaker` | server/internal/notify/service.go:55-74 | a delivery that does not reach the provider changes nothing about the breaker |
| `Push.TokenGoesExactly` | server/internal/notify/service.go:82-89 | over any deliveries a token goes if and only if a send for its device came back as dead and the delete worked: never on a provider failure |
| `Push.SettledExactly` | server/internal/notify/adapters/nats.go:102-135 | a delivery ends a dispatch as sent, undeliverable or dead-lettered, each exactly under its own condition |
| `Push.HalfOpenWedges` | server/internal/notify/service.go:84-89 | half-open with no probe outstanding blocks every later delivery for ever |
| `Push.ProbeResolvesUnlessTokenDead` | server/internal/notify/service.go:70-102 | a probe resolves the breaker unless its token was dead, and only then can anything be sent again |
| `Push.StrandedExactly` | server/internal/notify/adapters/nats.go:75-135 | after all deliveries a dispatch is settled, and stranded if and only if each was held up: below the service's ceiling by a failed lookup, a refusing breaker or a failing provider, from there on by a refusing breaker or a failing dead-letter write |
| `Push.OutageStrandsPush` | server/internal/notify/adapters/nats.go:102-135 | deliveries spent inside one cooldown strand the dispatch |
| `Membership.MembersAreFresh` | server/internal/groups/membership.go:35-52 | in every interleaving the answered version meets the minimum once the source had, and the set was the membership at that version or later unless the cache read was torn |
| `Membership.CacheHitExactly` | server/internal/groups/adapters/cache.go:26-39 | a cache hit's set is that fresh if and only if the announced version is not past the last one with that set, and so whenever the version key, looked up again, is no older |
| `Membership.ExactWhenUnchanged` | server/internal/groups/adapters/pg.go:155-179 | the set is the membership at exactly the announced version if no mutation in between, whatever else it changed, touched the members |
| `Membership.FailsOnlyBySource` | server/internal/groups/membership.go:35-45 | on every run a call fails only if one of its own queries to the source failed: cache trouble never fails it |
| `Membership.CacheUsedExactly` | server/internal/groups/membership.go:36-38 | the cache's answer is used if and only if both its reads worked, it had the group and its version is new enough; every other call goes to the source |
| `Membership.SourceAnswers` | server/internal/groups/membership.go:39-44 | a call sent to the source returns the group as it is if nothing changes in between, and leaves it in the cache if the cache takes it |
| `Membership.SourceFailureFails` | server/internal/groups/membership.go:39-42 | a failing query to the source fails the call |
| `Membership.InvalidatedGoesToSource` | server/internal/groups/membership.go:50-52 | after an invalidation the next reader asks the source |
| `Membership.InvalidationTearsRead` | server/internal/groups/adapters/cache.go:26-59 | an invalidation between the two cache reads makes a populated group answer nobody |
| `Membership.StaleWarmTearsRead` | server/internal/groups/adapters/cache.go:26-59 | a stale warm-up between the two cache reads pairs the announced version with the older set, which is right if and only if that set was still or again the membership |
| `Membership.StaleReachable` | server/internal/groups/membership.go:35-48 | a legal run reaches a state where that happens |
| `Membership.StaleWarmIsWrong` | server/internal/groups/adapters/cache.go:26-59 | from there a reader is told a membership that never was at the version it is given |
| `Presence.Subscriptions.Apply` | server/internal/presence/subscriptions.go:28-51 | returns who left and who joined, and tracks exactly the difference |
| `Presence.DroppedMeans` | server/internal/presence/subscriptions.go:28-51 | those removed are the tracked users asked to go, each once |
| `Presence.JoinedWithinCap` | server/internal/presence/subscriptions.go:28-51 | the tracked set never exceeds 50 |
| `Presence.JoinedAllBelowCap` | server/internal/presence/subscriptions.go:28-51 | below the cap every non-empty request is tracked |
| `Presence.ConnPresence.HandlePresenceSub` | server/internal/gateway/presence.go:97-108 | a frame closes, then opens feeds with the specified effect on set, feeds and upstream books |
| `Presence.ConnPresence.OpenFeed` | server/internal/gateway/presence.go:110-159 | privacy, presence and typing failures each revoke the subscription, and a half-open pair is closed |
| `Presence.ConnPresence.CloseAll` | server/internal/gateway/presence.go:45-53 | teardown closes every open feed, in some order, and clears the subscriptions |
| `Presence.FrameKeepsSound` | server/internal/gateway/presence.go:97-168 | after every frame the users with a feed are the tracked users, within the cap, each handle open once or closed once |
| `Presence.ConnectionSound` | server/internal/gateway/presence.go:97-168 | the same after any sequence of frames |
| `Presence.NothingLeaks` | server/internal/gateway/presence.go:45-53 | over any frames followed by teardown in any order every upstream handle ever issued was closed exactly once and none is left |
| `Flap.FlapDamper.Disconnected` | server/internal/presence/flap.go:32-50 | replaces any pending registration and arms a new timer |
| `Flap.FlapDamper.TimerBody` | server/internal/presence/flap.go:38-49 | a body announces if and only if some registration is pending for its key, and consumes it |
| `Flap.FlapDamper.Reconnected` | server/internal/presence/flap.go:54-63 | cancels the pending registration and reports whether there was one |
| `Flap.FlapDamper.StopAll` | server/internal/presence/flap.go:74-81 | the loop cancels every pending registration and no other |
| `Flap.FatesAreFinal` | server/internal/presence/flap.go:32-63 | under every race a registration is consumed at most once and its fate never changes |
| `Flap.DisconnectsAreConserved` | server/internal/presence/flap.go:32-63 | over every run the disconnects of a key equal its replacements, cancellations and firing bodies plus the one pending |
| `Flap.FiresNeverExceedDisconnects` | server/internal/presence/flap.go:32-63 | bodies that fire, plus the announcement pending, never exceed the disconnects of a run |
| `Flap.ReconnectSilences` | server/internal/presence/flap.go:52-63 | after a reconnect no body fires for the key until its next disconnect |
| `Flap.GraceKeptExactly` | server/internal/presence/flap.go:32-49 | a disconnect keeps its grace on every continuation if and only if no stray timer of its key is about at that moment: a body waiting for the lock, or an earlier timer that lost its registration without being stopped |
| `Flap.PromptBodiesLeaveNoStray` | server/internal/presence/flap.go:32-63 | on every run whose bodies get the lock as soon as they ask for it, every timer that lost its registration was stopped: after a reconnect none of the key's timers can run |
| `Flap.StopReachesArmed` | server/internal/presence/flap.go:32-81 | a disconnect, a reconnect and a stop of everything each stop the armed timer of the registration they end |
| `Flap.BodyRunsOnce` | server/internal/presence/flap.go:38-49 | a body runs once, whatever happens later |
| `Flap.StaleBodyFiresEarly` | server/internal/presence/flap.go:38-49 | a body that lost its registration announces the newer one at once and leaves its timer armed |
| `Refresh.RotationIsLinear` | server/internal/auth/service.go:449-504 | in every interleaving of refreshes, mints and logouts rotations are distinct consecutive links of one growing chain per session, and a revoked session never changes again |
| `Refresh.OneWinnerPerToken` | server/internal/auth/service.go:479-490 | of all calls presenting a token at most one is answered with a new one |
| `Refresh.ReuseDetectedExactly` | server/internal/auth/adapters/pg.go:163-199 | a past token is recognised as reuse if and only if it is the immediate predecessor of the current one |
| `Refresh.ReuseKillsSession` | server/internal/auth/service.go:455-461 | from any state that meets the invariant of all runs, presenting the immediate predecessor runs to an answer of reuse and a revoked session, whatever tokens it had |
| `Refresh.RevokedIsDead` | server/internal/auth/service.go:466-476 | on every continuation a revoked session's row and chain stay as they are, and no call presenting any token it ever had wins, not even one that loaded it before |
| `Refresh.LogoutIsFinal` | server/internal/auth/service.go:532-537 | after a logout no token of the session ever wins again |
| `Refresh.LoadDecides` | server/internal/auth/domain/token.go:36-44 | a revoked session is refused first, one past its time next, and neither call ever rotates; a session is live up to and including the moment it expires |
| `Refresh.RotateDecides` | server/internal/auth/service.go:479-490 | the session moves to a fresh token exactly if the one presented is still current and it is not revoked; the call wins it exactly if that was answered, and is told of a conflict otherwise |
| `Refresh.FailuresTurnDown` | server/internal/auth/service.go:453-464 | a failing store turns the call down and changes no session; a failing lookup of old tokens counts as unknown, an unreached revocation still answers reuse |
| `Refresh.RejectionIsFinal` | server/internal/auth/service.go:449-490 | a call that was turned down stays so |
| `Refresh.OldReplayGoesUnnoticed` | server/internal/auth/service.go:453-464 | an older token is answered as unknown and leaves the session alive |
| `Refresh.DoublySupersededReachable` | server/internal/auth/service.go:449-504 | two ordinary refreshes reach such a state |
| `Registry.Registry.Add` | server/internal/gateway/registry.go:50-60 | the one map gains the connection and the one it displaces is returned |
| `Registry.DisplacedExactly` | server/internal/gateway/registry.go:50-60 | what is handed back to be closed is the connection that was live for the device, if it is another one; the new one is then live and no other device is touched |
| `Registry.Registry.Remove` | server/internal/gateway/registry.go:65-74 | only the current connection goes; true if and only if it did |
| `Registry.Registry.Get` | server/internal/gateway/registry.go:77-83 | looks up the one map |
| `Registry.Registry.Count` | server/internal/gateway/registry.go:86-94 | is the size of the one map |
| `Registry.MergedLookup` | server/internal/gateway/registry.go:42-46 | a device is in the one map if and only if it is in the shard its hash names |
| `Registry.MergedSize` | server/internal/gateway/registry.go:86-94 | the shard sizes add up to the size of the one map |
| `Registry.EveryConnectionHasOneFate` | server/internal/gateway/registry.go:48-74 | over every run an added connection is exactly one of live, displaced or removed |
| `Registry.LiveExactly` | server/internal/gateway/server.go:527-536 | the live connection is the last registered one unless its own cleanup came since; other cleanups never evict it |
| `Registry.CountBounds` | server/internal/gateway/registry.go:86-94 | a count that runs beside other calls is off by at most the registrations and cleanups in between |
| `Registry.CountExactly` | server/internal/gateway/registry.go:86-94 | a count that runs beside other calls is the size of the one map after exactly those calls that reached their shard before the count did, and so a size the registry had whenever those are the calls up to some moment |
| `Registry.CountCanBeTorn` | server/internal/gateway/registry.go:86-94 | it can be zero although someone was connected throughout |
| `Media.Service.AddRef` | server/internal/media/service.go:258-268 | increments and announces, failing on a missing object |
| `Media.Service.DecRef` | server/internal/media/service.go:272-282 | decrements but not below zero and announces; a missing object is no error |
| `Media.Service.Handle` | server/internal/media/lifecycle.go:61-80 | ignores all but commands with a key, marks the event, then decrements; an error only from an unanswering store |
| `Media.DereferencedExactly` | server/internal/media/lifecycle.go:61-80 | for every run and event id, one attempt if the first marking delivery got its answer and none otherwise, effective if that attempt reached the store |
| `Media.SeenIsFinal` | server/internal/media/lifecycle.go:69-77 | a marked event is never attempted again |
| `Media.RedeliveryLosesDecrement` | server/internal/media/lifecycle.go:57-60 | a failure after the mark loses the decrement although the redelivery succeeds |
| `Media.CountFallsOncePerEvent` | server/internal/media/adapters/pg.go:68-90 | a count is at least what it was plus the references added less the distinct events not applied before |
| `Media.CountExactly` | server/internal/media/adapters/pg.go:68-90 | over every run a count is what it was plus the references added, less the decrements that reached the store and did not find it at zero |
| `Media.FactTellsChange` | server/internal/media/service.go:258-282 | a fact goes out if and only if an answered call added or dropped a reference to an object that exists, naming the change, the object and its new count |
| `Media.IgnoredExactly` | server/internal/media/lifecycle.go:61-80 | everything but a dereference that names an object is left alone, and each such dereference not seen before is attempted |
| `Media.DuplicateCountsTwice` | server/internal/media/lifecycle.go:38-44 | without the deduper a repeated event drops two references |
| `Media.TurnShrinks` | server/internal/media/lifecycle.go:8-25 | handling any pending message, facts fed back included, leaves strictly less work |
| `Media.LoopEnds` | server/internal/media/lifecycle.go:8-25 | no schedule of the self-feeding subject takes more turns than its initial weight |
| `Media.EchoesAreInert` | server/internal/media/lifecycle.go:62-64 | own facts and unknown kinds anywhere in a run change nothing |
| `Coalesce.Listed` | server/internal/chat/coalesce.go:44-47 | the drain loop lists every pending key exactly once with its number |
| `Coalesce.ChatCoalescer.Submit` | server/internal/chat/coalesce.go:27-34 | raises the key to the number if it is higher, a missing key counting as zero |
| `Coalesce.ChatCoalescer.Drain` | server/internal/chat/coalesce.go:38-50 | returns everything pending, one receipt per key, and clears it |
| `Coalesce.GatewayCoalescer.Submit` | server/internal/gateway/receipts.go:35-46 | the same after dropping junk |
| `Coalesce.GatewayCoalescer.Drain` | server/internal/gateway/receipts.go:49-61 | returns everything pending, one receipt per key, and clears it |
| `Coalesce.Lossless` | server/internal/chat/coalesce.go:5-9 | over every run the maximum of what was drained and what is pending is the maximum submitted, per key |
| `Coalesce.DrainCatchesUp` | server/internal/chat/coalesce.go:38-50 | a reader of the drains is up to date after each |
| `Coalesce.WindowExactly` | server/internal/chat/coalesce.go:27-50 | a window relays a key exactly if a positive number was submitted in it, and relays the highest |
| `Coalesce.GatewayIsChatFiltered` | server/internal/gateway/receipts.go:35-61 | on all input the gateway's twin is the chat one with junk keys left out, in every drain |
| `Coalesce.TwinsAgree` | server/internal/gateway/receipts.go:16-22 | the twins agree if and only if every positive number comes under a genuine key |
| `ConvCrypto.Hash` | clients/mobile/src/services/convCrypto.ts:14-31 | the two loops compute the FNV-1a seeded xorshift digest |
| `ConvCrypto.SeedMeans` | clients/mobile/src/services/convCrypto.ts:14-21 | the seed is the input's FNV-1a hash, and the fixed constant exactly for a hash of zero |
| `ConvCrypto.KnownAnswers` | clients/mobile/src/services/convCrypto.ts:14-31 | hashes, rounds and first digest bytes of two inputs, as numbers |
| `ConvCrypto.StateNeverZero` | clients/mobile/src/services/convCrypto.ts:21-29 | from any input the generator's state is never zero |
| `ConvCrypto.StatesNeverMerge` | clients/mobile/src/services/convCrypto.ts:22-27 | different seeds give different states after any number of rounds |
| `ConvCrypto.Cat` | clients/mobile/src/services/convCrypto.ts:33-43 | copying part by part at a running offset yields the concatenation |
| `Words.U32ReadBack` | clients/mobile/src/services/convCrypto.ts:45-47 | the four bytes of a number below 2^32, highest first, read back as that number |
| `ConvCrypto.KeyStream` | clients/mobile/src/services/convCrypto.ts:53-60 | the block loop yields, byte for byte, the prefix of the one endless keystream |
| `ConvCrypto.BlockInputsDiffer` | clients/mobile/src/services/convCrypto.ts:53-58 | for block numbers below 2^32 two blocks hash the same bytes if and only if key, nonce and number are the same |
| `ConvCrypto.StreamBlock` | clients/mobile/src/services/convCrypto.ts:53-60 | bytes 32k to 32k+32 of the stream are the digest of the key, the nonce and the four bytes of k, highest first |
| `ConvCrypto.KeyStreamPrefix` | clients/mobile/src/services/convCrypto.ts:53-60 | keystreams of different lengths are prefixes of one another |
| `ConvCrypto.Seal` | clients/mobile/src/services/convCrypto.ts:71-80 | the array loops produce nonce, tag and ciphertext |
| `ConvCrypto.EnvelopeLayout` | clients/mobile/src/services/convCrypto.ts:71-80 | an envelope is 12 bytes of nonce, 8 of tag and the ciphertext, each byte of which is the plaintext's under the stream |
| `ConvCrypto.TagInputsDiffer` | clients/mobile/src/services/convCrypto.ts:78-90 | the tag is the first 8 bytes of the digest of key, nonce and ciphertext, and what it is taken of differs whenever one of the three does |
| `ConvCrypto.KeyInputsDiffer` | clients/mobile/src/services/convCrypto.ts:49-51 | the key is the digest of the fixed prefix and the conversation, and different conversations hash different bytes |
| `ConvCrypto.Open` | clients/mobile/src/services/convCrypto.ts:84-96 | short envelopes and wrong tags are refused, in that order, otherwise the ciphertext is decrypted |
| `ConvCrypto.RoundTrip` | clients/mobile/src/services/convCrypto.ts:70-96 | for every conversation, nonce and plaintext, opening a sealed envelope returns it, and the envelope is 20 bytes longer |
| `ConvCrypto.OpensExactlySeals` | clients/mobile/src/services/convCrypto.ts:82-96 | an envelope opens to a plaintext if and only if it is that plaintext's seal under the nonce it carries |

## Left out

- HTTP handlers, protobuf encoding, NATS, Valkey and PostgreSQL plumbing, metrics and logging: only what their calls do to state is modelled.
- Delivery of several devices at once: the step system follows one recipient device; rows of others never meet its inbox.
- Registry.CloseAll, the closing handshake and cross-pod route ownership: claiming a route and registering are separate steps keyed by pod only, so the code decides no ownership invariant.
- Frame ids on the wire: taken before enqueueing by several goroutines, so their order is not guaranteed.
- The outbound channel and the resume-token store as objects of their own: their bounded queue, single writer and one current token per device are part of the delivery steps and would add only easy members.
- Expiry of inbox rows, resume tokens and event marks; the two cache keys of a group expiring separately.
- Accept's validation, rate limits and recipient resolution before the claim, and its overlay rules: straight-line checks.
- The client's local database beyond its cursors and stored items, and the order in which one batch writes its items; overlays count as stored once applied.
- Losing.LostForGood: asks that the app is not restarted, since the cursors on disk may lag behind an acknowledgement; Losing.GoneForGood covers restarts once no copy is in transit.
- Losing.AbandonedIsLost: is about messages; an overlay given up is applied when it is replayed, and is lost by the run of Losing.OvertakenIsLost.
- Membership.ExactWhenUnchanged: is one way, since members that change and change back give the right set too.
- Local storage that is itself not durable: the web client falls back to a database in memory, whose contents a restart loses.
- Message bodies: an item that cannot be opened is stored with a placeholder, and counts as stored.
- Fanout's table key is the port's (device, message id); the key of the stored table also has the conversation and sequence number, and the adapter is not part of this model.
- Group fan-out as part of the delivery path: accept writes every recipient's row in its own transaction, and the fan-out worker is modelled on its own.
- The fan-out pool, which drops a failed job instead of retrying it (server/internal/fanout/pool.go:49-60): the retry results describe a job that is redelivered.
- Accept, Membership, Refresh and the delivery path are state machines over values rather than classes, because their calls interleave between store accesses; updates in place inside one store call are not captured.
- Breaker.PrunedWindowAgrees: asks for a monotone clock, which the counterexample beside it shows is needed.
- ReplayGate.InterleaveKeepsOrder: asks that live items after opening exceed what was sent, which is exact by the lemma beside it.
- Accept.RetryIsAcked: asks for no expiry of the message's record before it either; RecordLastsExactly has the exact condition.
- Push.FewFailuresPass: is about failures alone, since a success clears the count.
- ConvCrypto.BlockInputsDiffer: is about what is hashed; two inputs may have the same digest, since 32 bits of seed decide it.
- Media.CountFallsOncePerEvent: asks that every command for the object carry an event id, since the source does not dedupe without one.
- ConvCrypto.RoundTrip: is over bytes; the text encoder and decoder around it are not part of this model.
- Go's 64-bit integers: sequence numbers, times and counts are unbounded here; the digest and counter use 32-bit words as the source does.
- JWT, OTP, PIN, OIDC and WebAuthn: library cryptography and validation.
- Calls, floor control, payments, communities, stories, polls, profile, search and analytics: mostly validation around one store call.
