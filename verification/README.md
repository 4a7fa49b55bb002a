# Verification of the broker's delivery protocols

The broker takes trading signals from a webhook, hands them to workers over NATS, and keeps one
Telegram message per trade and chat up to date. Two of its protocols are built by hand and must
survive crashes, lost replies and redeliveries at any point. This project models both as state
machines cut at every await, proves what they guarantee over all runs, and proves that the methods
of the code walk runs of those machines. Around them it models the in-memory backlog in front of
the stream, the per-cycle lock, the trades table under reordered reports, the links between chat
users and trading accounts, and the two number printers that must agree.

`dafny verify dfyconfig.toml` checks everything.

## How it is laid out

| file | what it holds |
|---|---|
| `SignalRows`, `SignalPipeline`, `SignalService` | `signals` rows and their transactions; worker and retry job as one state machine; the service, worker and job as methods |
| `DeferredBacklog`, `DeferredEnqueuer` | the backlog of webhook envelopes as a state machine; the class that implements it |
| `BroadcastStatus`, `TradeStatus` | the two status policies, and the status folding of the renderers |
| `BroadcastLog` | cycle, workers, chats and write log of one broadcast cycle, and the repository's transactions |
| `BroadcastDelivery`, `BroadcastDispatcher` | writers, passes, sweeper, crashes and Telegram as one state machine; the dispatcher as methods |
| `BroadcastTargets` | the targets of a pass, and settings that may fail to be read |
| `BroadcastServing` | what serving one chat does, by Telegram's answers, and which message a chat row names |
| `BroadcastLifecycle`, `BroadcastBounds`, `BroadcastBodies` | what every run of that machine keeps |
| `BroadcastReal` | DELIVERED means delivered: the exact list of steps that can break it |
| `BroadcastOnce`, `BroadcastRepeats`, `BroadcastNotices` | nothing reaches a chat twice: the exact list of steps that can break it, for bodies, posts and notices |
| `BroadcastPasses` | whole passes: convergence, parking, refused notices |
| `BroadcastLimits` | runs from the start that cross those lines, and entries stranded on their last attempt |
| `CycleLocks` | the counted per-cycle lock |
| `TradeLedger`, `TradeConsumer` | the trades table; the TRADES stream in front of it |
| `AccountLinks`, `AccountRepository` | links, tokens and active accounts; the repository's methods |
| `AccountRaces` | the same transactions where they overlap |
| `NumberPrinters` | the broker's and the bot's number formats |

A transaction is one atomic step and ends in one of three ways: it commits, it commits with the
reply lost, or it rolls back. That is so because its rows are locked (the writers of a broadcast
cycle, the claim of its log) or have one writer at a time (chat rows, signals, trades). A pass closes
and defers its entries without a lock, and the sweeper reclaims without one: a reclaim is modelled as
its read and its write, with anything in between. What a close writes does not depend on what a
reclaim may have changed, so it stays one step. The account transactions lock nothing and
the database isolates statements only, so `AccountRaces` takes them apart: there a commit may rest on
reads that are no longer true. A load of a cycle locks nothing either, and is modelled as its reads.
A crash drops what tasks hold in memory and nothing else. What NATS, Telegram, the
database and the clock answer is open in the machines and a parameter of the methods, which say what
they come to for every answer. Classes carry a ghost run of their state
machine; their methods are proved to extend it. One method call is an uninterrupted stretch of that
run: another task's steps between two awaits of one call are covered by the machines, whose runs
interleave all actors, and by the methods only where they take them as parameters (the webhooks in
`DeferredEnqueuer`, the other transactions in `AccountRepository`).

## What the guarantees rest on

Where a guarantee can be broken, the steps that can break it are listed as a predicate on the step
and the state it is taken in. The guarantee is proved for every run without such a step, and every
such step is proved to have a continuation, itself free of such steps, in which the guarantee is
broken. Telegram may answer anything, and may do what it is asked without answering, or answer with
an error.

- DELIVERED over a stale chat (`BroadcastReal.Harmful`): a failed load, which `load_cycle` answers
  like a cycle that is gone, while a posted message is older than a claimed entry; a pass whose
  targets leave such a message out; and a delivery that ends well but whose row write, whose result
  `_deliver` does not look at, fails while the stored row is that old and no later target is the
  same chat. The second kind needs no change of configuration: `get_many` answers a failed read like
  an empty table, and the pass then goes on to the private chats of the deployment only, with
  notices on and silence off (`BroadcastLimits.FailedSettingsReadLosesAnEdit`).
- A body shown or posted twice (`BroadcastOnce.Repeats`): a pass whose targets name a chat twice
  while it is behind; and a delivery that put its body in the chat and leaves the stored row behind
  it, when no newer change is recorded and some entry has an attempt left. The row stays behind when
  a crash or a failed write loses it, and when Telegram makes an edit without answering, which the
  code takes for a failure; that last repetition is the same edit once more, which Telegram answers
  with "message is not modified". And it stays behind when a message is posted but the send answered
  with an error: `send_message` calls that FAILED, which its caller takes to mean that nothing was
  posted (`BroadcastLimits.FailedSendIsPostedTwice`).
- A chat row that names an older message than the newest: a pass that names the chat twice, posts a new
  message the first time and edits the old one the second (`BroadcastServing.IdGoesBackIff`,
  `BroadcastLimits.RepeatedTargetForgetsTheNewMessage`).
- A notice announced twice: a pass whose targets name a chat twice with notices on for both; and a
  delivery that announced an event and leaves the stored count at or below it. The count stays there
  when a crash or a failed write loses it, and when Telegram posts a reply without answering.
  `reply_message` answers False then, as it does for a refusal, although the same error on a new
  message is told apart from one. No crash, failed transaction or repeated target is needed
  (`BroadcastLimits.UnansweredNoticeIsAnnouncedTwice`).
- A private body whose worker table is newer than its sequence number: a report recorded between two
  reads of one load (`BroadcastLimits.WorkersCanBeNewer`). Over runs in which no load is interrupted
  it is exactly as old (`BroadcastBodies.StoredBodyIsTheRender`).
- `_targets` drops repeated setting entries, not repeated chat ids. An entry and the same entry with
  its topic written `007` and `7` differ as text and are stored under one id. The targets are
  distinct exactly when no two entries do that (`BroadcastTargets.TargetsAreDistinctIff`).
- A DELIVERED or FAILED entry that opens again: the reclaim under way found it while the pass was
  still sending it, and writes after the pass closed it. Any other closed entry is final
  (`BroadcastLifecycle.ClosedIsFinalIff`). On its last attempt it then reads PENDING for good though
  it was delivered (`BroadcastLimits.ReclaimOvertakesDelivery`).
- The results on whole passes speak of passes whose calls answer well (`Healthy`) or of silenced
  ones whose transactions commit (`Quiet`), chat writes included, with writers and the sweeper at
  work meanwhile; `HandedBack` are the entries a sweep returned in that time.
  `SilenceOnlySpendsAttempts` says what silenced passes keep when anything but a load fails.
- A stored signal carries JetStream metadata, hence a delivery key. `KeylessMessageGetsTwoIds`
  shows the run without one.
- Every TRADE report names its gateway. `AddsARowIff` is the exact condition for a second row.
- A selection without a link. With account transactions one at a time, only the repair of a read
  overtaken by an unlink or a rotation leaves one (`OnlyAStaleHealDangles`). Where they overlap, the
  commits that do are exactly those in `AccountRaces.Overtaken`: a switch, too, an unlink that moves
  on to an account unlinked since, and a rotation that looked before a session was written. Two
  rotations can then leave two tokens open, and a link by the old token can commit after a rotation;
  `HoldersAfterRotationIff` says exactly who holds an account then.

## Where code and documentation differ

- A reply notice without a positive answer is documented to be retried on the next pass. The edit it
  belongs to is already recorded, so the next pass skips the chat. `NoticeRefused` is the run;
  `RefusedNoticeWaitsForAChange` proves that nothing is announced until the cycle changes, and
  `RefusedNoticeIsMadeUpForIff` that any healthy pass announces it if and only if the cycle it loaded
  has changed since: for the first time if it was refused, for the second if it got there unanswered.
  `RefusedNoticeIsMadeUpFor` goes on from both runs to such a pass.
- A send that answers FAILED is documented to have posted nothing. Every status but 200 and every
  exception not counted as unanswered reads as FAILED (`FailedSendIsPostedTwice`).
- `claim_pending_logs` leaves entries without attempts to `finish_logs`, which is to mark them
  FAILED. One that was reclaimed from its last attempt is never claimed again, so nothing finishes
  it: it stays PENDING. `StrandedOnTheLastAttempt` is the run; `StrandedForeverIff` proves that this
  happens if and only if no pass holds the entry any more when the reclaim is written.
- `DeferredEnqueuer.stop` is documented to try every envelope still owed. An envelope accepted
  while it drains is neither tried nor reported (`AcceptedWhileDraining`); `StopSettlesTheBacklog`
  says exactly how many.
- A REJECTED trade is documented as terminal. It has the lowest rank, so any other report about the
  same trade replaces it (`RejectedOnlyIfNothingElse`).
- Linking an account makes it active when the user has no selection. A dangling selection counts as
  one and stays (`LinkingLeavesADanglingSelection`).

## Model

| member | source | states |
|---|---|---|
| `SignalPipeline.NothingIsLost` | broker/services/signal_processing_service.py:498-669 | In every reachable state, crashes and lost replies anywhere included, an acked keyed message was published under its row's signal id, as the history of publishes shows, or its row is FAILED or owned by the retry job, or it was dropped by the gate; a row nobody confirmed or stamped still has its message in the stream unless the gate had dropped that message; only unreadable messages are terminated |
| `SignalPipeline.NothingIsLostBehindAnOpenGate` | broker/services/signal_processing_service.py:498-669 | Over every run whose gate was never closed nothing is dropped: every acked keyed message has a row that was published, is FAILED or is owned by the retry job, and every unconfirmed row has its open message |
| `SignalPipeline.DroppedOnlyAtAClosedGate` | broker/services/signal_processing_service.py:526-541 | A message is dropped at one step only: the gate could be read, is closed, and no row was found |
| `SignalPipeline.ClosedRowsAreNotPublished` | broker/services/signal_processing_service.py:558-597 | Once a row is PUBLISHED or FAILED no step of any run publishes it again |
| `SignalPipeline.OneSignalIdPerMessage` | broker/services/signal_processing_service.py:526-577 | Every publish one stored message ever causes, over redeliveries, in-place retries, lost replies and ticks, carries one signal id |
| `SignalPipeline.FanoutsNeverShareARow` | broker/services/signal_processing_service.py:377-379 | Without a lock, the worker's fan-out and the retry job's batch never hold the same row |
| `SignalPipeline.RowsOnlyMoveForward` | broker/db/repository/signal.py:99-227 | Over any continuation of any run no row disappears, changes its key or loses its stamp, PUBLISHED and FAILED stay, and PUBLISHED rows were published |
| `SignalPipeline.OpenMessageCanFinish` | broker/services/signal_processing_service.py:785-851 | From every reachable state a run exists, with the gate open, that settles any message still in the stream: terminated if unreadable, else acked and not dropped; the row of a keyed one is published, FAILED or owned by the retry job, and one whose fan-out never came to an end is published and marked PUBLISHED, or FAILED if its payload cannot be parsed |
| `SignalPipeline.RetryableRowCanFinish` | broker/services/signal_retry_job.py:84-95 | From every reachable state a run exists that publishes any stamped QUEUED row and marks it PUBLISHED, or FAILED if its payload cannot be parsed |
| `SignalPipeline.KeylessMessageGetsTwoIds` | broker/services/signal_processing_service.py:740-761 | A message without a delivery key and one crash: published under two signal ids |
| `SignalPipeline.FanoutStepSound` | broker/services/signal_processing_service.py:617-669 | Every await of a fan-out keeps the table sound, touches one row only, and returns only when that row is cared for |
| `SignalPipeline.FanoutStepDoes` | broker/services/signal_processing_service.py:617-669 | What each await of a fan-out does to the history and the columns of its row, for every answer |
| `SignalPipeline.FindByKey` | broker/db/repository/signal.py:126-138 | Finds the row carrying the key, and answers None only when no row carries it |
| `SignalRows.RetryableFrom` | broker/db/repository/signal.py:229-266 | Exactly the QUEUED, stamped rows with attempts left whose interval has passed, oldest first |
| `SignalRows.SignalRepository.LogSignal` | broker/db/repository/signal.py:28-97 | Returns an id if and only if no row carries the key and the commit was seen; the new row is QUEUED, unstamped, with all attempts |
| `SignalRows.SignalRepository.MarkPublished` | broker/db/repository/signal.py:99-124 | Unless it rolls back, that row is PUBLISHED afterwards, its other columns and all other rows are as they were |
| `SignalRows.SignalRepository.MarkFailed` | broker/db/repository/signal.py:140-166 | Unless it rolls back, that row is FAILED, stamped and without attempts, and all other rows are as they were |
| `SignalRows.SignalRepository.RecordAttemptFailure` | broker/db/repository/signal.py:188-227 | Unless it rolls back, that row is stamped and has one attempt less, FAILED at the last; all other rows are as they were |
| `SignalService.SignalProcessingService.HandleEnqueued` | broker/services/signal_processing_service.py:498-556 | Whatever the world answers: nothing happens before the gate was read; a closed gate, and only a closed gate, drops the message without a publish; behind an open one a message without a row gets one with all attempts, published once and marked, a row whose fan-out never ended is fanned out again under its id, and any other is left alone. Each outcome names what became of the row |
| `SignalService.SignalProcessingService.HandleRedelivery` | broker/services/signal_processing_service.py:558-579 | Fans out again exactly when the first fan-out was never confirmed; otherwise nothing changes at all |
| `SignalService.SignalProcessingService.DropBlocked` | broker/services/signal_processing_service.py:530-541 | Behind a closed gate an unconfirmed row is closed as FAILED before the message is acked |
| `SignalService.SignalProcessingService.Fanout` | broker/services/signal_processing_service.py:617-669 | Accepted if and only if the payload parses and the publish was answered, retry scheduled if and only if it was not and that was written down, invalid if and only if it cannot be parsed and that was; the row is then PUBLISHED, one attempt shorter, or FAILED; one publish at most |
| `SignalService.SignalProcessingService.GiveUp` | broker/services/signal_processing_service.py:630-638 | An unparseable payload closes its row as FAILED, or the call raises |
| `SignalService.SignalProcessingService.FindExisting` | broker/services/signal_processing_service.py:526-528 | Fails if and only if a lookup was due and failed; finds the row of a redelivered message, and none only if none carries its key |
| `SignalService.SignalProcessingService.PersistAndFanout` | broker/services/signal_processing_service.py:546-556 | Writes one row with all attempts and fans it out, or raises without a publish |
| `SignalService.SignalProcessingService.PublishSignal` | broker/services/signal_processing_service.py:696-717 | Published if and only if the payload parses and the network answered; it reached the workers unless the network took nothing |
| `SignalService.SignalProcessingService.RetrySignal` | broker/services/signal_processing_service.py:581-615 | One row of the tick is tried once: not found if and only if it could not be read, skipped if and only if it is no longer QUEUED with attempts, else fanned out, or one attempt spent on a payload that cannot be rebuilt |
| `SignalService.SignalWorker.HandleOne` | broker/services/signal_processing_service.py:785-851 | Ends idle; acked if and only if a try did not raise, terminated if unreadable; a first delivery whose calls answer well behind an open gate is published and marked PUBLISHED; blocked only if some try found the gate closed; at most one publish per in-place retry and one more |
| `SignalService.SignalWorker.TryInPlace` | broker/services/signal_processing_service.py:819-849 | Gives up only after all in-place retries, and not at all if the first try is answered well |
| `SignalService.SignalRetryJob.TickOnce` | broker/services/signal_retry_job.py:84-95 | Visits exactly the eligible rows, oldest first; each is PUBLISHED, FAILED or one attempt shorter afterwards as the world answered, all others are as they were, and the worker is not touched |
| `DeferredBacklog.NothingIsDroppedSilently` | broker/services/signal_processing_service.py:178-187 | At every step, cancellations included, each accepted envelope is in exactly one place, and unless settled it is found there unchanged |
| `DeferredBacklog.TriesAreBounded` | broker/services/signal_processing_service.py:310-358 | The publishes of an envelope are counted exactly and are at most the attempt limit and one more; a loss means all tries failed or the backlog was full |
| `DeferredBacklog.PublishesCarryTheirMessageId` | broker/services/signal_processing_service.py:313-319 | Every publish carries an accepted envelope as it was handed in, with its message id |
| `DeferredBacklog.QueueAccounting` | broker/services/signal_processing_service.py:293-308 | Unfinished work is what is queued and what the loop holds, so `task_done` never runs once too often |
| `DeferredBacklog.FatesAreEarned` | broker/services/signal_processing_service.py:231-358 | From every reachable state, an envelope is called published, given up, crowded out or lost exactly at the steps where that happens to it, and never otherwise afterwards |
| `DeferredBacklog.FirstInFirstTried` | broker/services/signal_processing_service.py:200-358 | What is handed in or comes back goes to the end of the queue, the loop takes its head, and a shutdown takes what the loop holds first |
| `DeferredBacklog.StopSettlesTheBacklog` | broker/services/signal_processing_service.py:200-264 | After a stop everything accepted before its collection is settled, and what is pending is exactly what was accepted since |
| `DeferredBacklog.AcceptedWhileDraining` | broker/services/signal_processing_service.py:200-229 | A run where an envelope accepted during the drain is left pending, untried and unreported |
| `DeferredBacklog.LoopRunsDry` | broker/services/signal_processing_service.py:293-358 | Without new webhooks the loop makes at most a number of steps given by the attempts left |
| `DeferredBacklog.LoopIsNeverStuck` | broker/services/signal_processing_service.py:293-308 | A running loop can move if and only if something is pending |
| `DeferredEnqueuer.DeferredEnqueuer.Start` | broker/services/signal_processing_service.py:189-198 | Launches the loop if it is not running; otherwise changes nothing |
| `DeferredEnqueuer.DeferredEnqueuer.Submit` | broker/services/signal_processing_service.py:266-291 | Takes the envelope to the end of the queue if and only if the backlog is unbounded or has room |
| `DeferredEnqueuer.DeferredEnqueuer.RunOnce` | broker/services/signal_processing_service.py:293-308 | Publishes the head of the queue once: answered, it is settled as published; the last failure settles it as given up; an earlier one puts it at the end again or, with no room, settles it as crowded out; a cancel keeps it in hand. Alone the round comes closer to the end |
| `DeferredEnqueuer.DeferredEnqueuer.Settle` | broker/services/signal_processing_service.py:310-358 | What a publish came to: acked is settled as published, the last failure as given up, an earlier one puts the envelope back at the end of a queue with room or settles it as crowded out of a full one, and a cancel keeps it in hand |
| `DeferredEnqueuer.DeferredEnqueuer.WaitAndRequeue` | broker/services/signal_processing_service.py:340-351 | Webhooks may fill the queue during the wait; the envelope goes to the end of the queue if there is room, is settled as crowded out if there is none, and a cancel keeps it in hand |
| `DeferredEnqueuer.DeferredEnqueuer.RunUntilIdle` | broker/services/signal_processing_service.py:293-308 | Left alone, the loop terminates with every accepted envelope settled; while JetStream answers it publishes the whole queue in order, once each |
| `DeferredEnqueuer.DeferredEnqueuer.Stop` | broker/services/signal_processing_service.py:200-229 | Collects what the loop holds and then the queue, settles it all, and reports exactly those the deadline or JetStream left unstored; with time enough each is published once, in order |
| `DeferredEnqueuer.DeferredEnqueuer.DrainAll` | broker/services/signal_processing_service.py:231-264 | Works off the list in order; lost are exactly those too late or not answered well |
| `DeferredEnqueuer.DeferredEnqueuer.DrainOne` | broker/services/signal_processing_service.py:242-263 | One publish if there is time; lost if and only if it was too late or not answered well |
| `BroadcastStatus.MergeIsJoin` | broker/domain/broadcast_status.py:62-78 | Merging is commutative, associative, idempotent, never goes back; it gives CLOSED if and only if either is CLOSED, and RUNNING if and only if both are |
| `BroadcastStatus.FoldedMeans` | broker/domain/broadcast_status.py:18-78 | A cycle is CLOSED if and only if one of its actions is TP2, SL, R_SL or FLAT, in whatever order, TP1 if and only if none is and one is TP1, else RUNNING |
| `BroadcastStatus.FoldedIsFurthest` | broker/db/repository/broadcast_message.py:89-141 | The stored status is the furthest any recorded action implies, and some action implies it |
| `BroadcastStatus.FoldedDependsOnSetOnly` | broker/domain/broadcast_status.py:62-78 | Order and repetition of the actions do not matter |
| `BroadcastStatus.FoldedIsMonotone` | broker/domain/broadcast_status.py:62-78 | More actions never take a cycle back |
| `BroadcastStatus.StatusThrough` | broker/helpers/message_formatter.py:319-334 | The loop computes the fold of the recognised actions up to the index, or the fallback when there is none |
| `BroadcastStatus.HeaderStatus` | broker/helpers/message_formatter.py:228-241 | CLOSED if and only if the row says so or an event is TP2, SL, R_SL or FLAT; TP1 if and only if it is not and the row or an event says TP1 |
| `BroadcastStatus.NoticeStatus` | broker/helpers/message_formatter.py:337-369 | The same of the events up to its own; the row's status when none of them is recognised; no notice for an index that names no event |
| `BroadcastStatus.NoticesNeverStepBack` | broker/helpers/message_formatter.py:337-369 | Notice statuses never go back as the index grows, once an action was recognised or when the row has not moved |
| `BroadcastStatus.HeaderAgreesWithLastNotice` | broker/helpers/message_formatter.py:228-241 | When the row holds the fold of its events, folding again changes nothing and the last notice equals the header |
| `BroadcastStatus.HeaderCatchesUp` | broker/helpers/message_formatter.py:228-241 | A row behind its events is caught up by the header, one ahead of them is kept |
| `BroadcastLog.TrailRoundTrip` | broker/db/repository/broadcast_message.py:89-185 | Splitting the stored action trail on commas gives the actions back, and extending it appends exactly one |
| `BroadcastLog.TrailTellsActions` | broker/db/repository/broadcast_message.py:133-137 | No two histories have one trail |
| `BroadcastLog.NamesNameActions` | broker/db/repository/broadcast_message.py:133-137 | An action is written under its own name and no other text is read as it |
| `BroadcastLog.RecordingTakes` | broker/db/repository/broadcast_message.py:89-270 | What the two writers do, on the columns: which signals and reports are taken over, numbered and logged, and that nothing else changes |
| `BroadcastLog.EventRecordedSound` | broker/db/repository/broadcast_message.py:85-185 | Recording a signal keeps log and cycle in step: numbering, events, trail, status, latest action |
| `BroadcastLog.ExecutionRecordedSound` | broker/db/repository/broadcast_message.py:213-284 | Recording a worker's report keeps log and cycle in step |
| `BroadcastLog.RecordingIsIdempotent` | broker/db/repository/broadcast_message.py:615-631 | Replaying a signal or a report just recorded changes nothing |
| `BroadcastLog.BroadcastRepository.RecordEvent` | broker/db/repository/broadcast_message.py:59-185 | A signal unlike the last in action or time is appended, numbered and logged, any other changes nothing; a writer that loses the insert race lands on the winner's row as if it had come second |
| `BroadcastLog.BroadcastRepository.RecordWorkerExecution` | broker/db/repository/broadcast_message.py:187-297 | With a cycle and a commit the worker's row is this one afterwards and no other changes; the number goes up and one entry with this change is logged if and only if the worker had no row or another one |
| `BroadcastLog.BroadcastRepository.ClaimPendingLogs` | broker/db/repository/broadcast_message.py:299-341 | Exactly the PENDING entries with attempts left go to SENDING with one attempt spent, and are returned if the commit was seen |
| `BroadcastLog.BroadcastRepository.FinishLogs` | broker/db/repository/broadcast_message.py:343-376 | The named entries become DELIVERED, or FAILED at the last attempt, or PENDING; no other changes |
| `BroadcastLog.BroadcastRepository.DeferLogs` | broker/db/repository/broadcast_message.py:378-401 | The named entries go back to PENDING with their attempt returned; no other changes |
| `BroadcastLog.BroadcastRepository.ReclaimStaleLogs` | broker/db/repository/broadcast_message.py:438-456 | What it found stale in SENDING goes back to PENDING, even if a pass has closed it in between; the count is how many it found |
| `BroadcastLog.BroadcastRepository.UpsertChat` | broker/db/repository/broadcast_message.py:499-565 | Message id and body are replaced exactly when given, sequence and notice count only grow, no other chat changes |
| `BroadcastLifecycle.LogDeterminesCycle` | broker/db/repository/broadcast_message.py:85-284 | In every reachable state sequence numbers are 1 to `last_seq`, and the log alone gives back events, trail, latest action and worker rows; no adjacent signal repeats |
| `BroadcastLifecycle.TablesHoldWhatWasRecorded` | broker/db/repository/broadcast_message.py:59-270 | Over every run the cycle's events are the recorded signals, in order, but for repetitions of the one before, and each worker's row is the last report about it since the cycle began |
| `BroadcastLifecycle.StatusMeans` | broker/domain/broadcast_status.py:18-78 | In every reachable state the cycle is CLOSED if and only if one of its events ended the trade, and TP1 if and only if part was taken off and none did |
| `BroadcastLifecycle.EndedForGood` | broker/domain/broadcast_status.py:62-78 | Over every run a CLOSED cycle stays CLOSED, and one that reached TP1 never reads RUNNING again |
| `BroadcastLifecycle.HeaderAndNoticeAgree` | broker/helpers/message_formatter.py:228-241 | In every reachable state the stored status is the fold of the stored events, so header and last notice agree |
| `BroadcastLifecycle.EntryLifeCycle` | broker/db/repository/broadcast_message.py:299-456 | Attempts are claims minus deferrals and within the limit; FAILED means all were used; PENDING at the limit only after a reclaim on the last attempt; the floor of a deferral never bites |
| `BroadcastLifecycle.ClosedIsFinalIff` | broker/db/repository/broadcast_message.py:343-456 | A DELIVERED or FAILED entry stays exactly as it is over every run, if and only if no reclaim under way has found it still being sent |
| `BroadcastLifecycle.ClaimsAreBounded` | broker/db/repository/broadcast_message.py:299-341 | Without writes and parking, at most as many claims find work as attempts are left in the log |
| `BroadcastDelivery.FirstRefused` | broker/services/broadcast_service.py:769-811 | The first refused index from a start, or the end; nothing before it is refused |
| `BroadcastServing.Verdict` | broker/services/broadcast_service.py:636-767 | When a delivery counts as well, and when its body is in the chat, by the answers: also after a send reported as failed, or an edit never answered |
| `BroadcastServing.RowWritten` | broker/services/broadcast_service.py:669-767 | What is written down: nothing for a chat that is up to date, the snapshot for one edited or posted to, with the id of its message as far as one is known, and no more than the attempt for one that failed |
| `BroadcastServing.NoticesSent` | broker/services/broadcast_service.py:769-811 | Notices go out under an answered edit, to an audience that gets them, from the stored count to the first without an answer; the count written is that of those answered |
| `BroadcastServing.StoredIdIsTheNewest` | broker/db/repository/broadcast_message.py:546-547 | Over every run whose passes name the chat at most once each, its row names the newest message posted there, answered with an id and written down |
| `BroadcastServing.IdGoesBackIff` | broker/services/broadcast_service.py:669-697 | From any state, a step leaves another id if and only if it writes down an edit answered well although the row has come to name another message since the load |
| `BroadcastBounds.NoChatIsAhead` | broker/db/repository/broadcast_message.py:499-565 | In every reachable state, whatever failed, no chat row is ahead of the cycle in sequence or in notices |
| `BroadcastBounds.RowsOnlyMoveForward` | broker/db/repository/broadcast_message.py:545-556 | Over every continuation of every run a chat keeps its row and message id, and neither sequence nor notice count goes back |
| `BroadcastBodies.StoredBodyIsTheRender` | broker/services/broadcast_service.py:560-619 | After every run the body stored for a chat has exactly the events and status of the first `delivered_seq` changes; a private one has the worker table of that many changes or more, of exactly that many if no load was interrupted; a public one never carries it |
| `BroadcastReal.DeliveredMeansDelivered` | broker/services/broadcast_service.py:416-767 | Over every run without a harmful step, every chat with a message shows a body at least as new as every DELIVERED entry |
| `BroadcastReal.HarmfulStepBreaks` | broker/services/broadcast_service.py:416-767 | From any reachable state a harmful step is followed, by nothing but a healthy rest of the pass, by an entry DELIVERED over a stale chat |
| `BroadcastReal.HarmfulIff` | broker/services/broadcast_service.py:425-460 | A step can lead, without another harmful one, to an entry DELIVERED over a stale chat if and only if it is harmful: a failed load or a pass leaving a chat out while that chat owes a claimed entry, or the last unwritten success for such a chat |
| `BroadcastOnce.NoStaleBodyNoDuplicatePost` | broker/services/broadcast_service.py:669-767 | Over every run without a repeating step, the sequences of bodies a chat is shown, and of those posted as new messages, are strictly increasing, unanswered sends and edits, and posts reported as failed, counted as in the chat |
| `BroadcastRepeats.RepeatingStepRepeats` | broker/services/broadcast_service.py:720-767 | From any reachable state, a delivery that leaves the stored row behind the body it put in the chat, or a chat named twice, is followed by a body reaching a chat twice |
| `BroadcastRepeats.RepeatsIff` | broker/services/broadcast_service.py:524-558 | A step can lead, without another repeating one, to a body shown or posted twice or out of order if and only if it is repeating: a chat named twice while behind, or a delivery, unanswered edits and posts reported as failed included, that leaves the stored row behind its body while no newer change is recorded and an attempt is left |
| `BroadcastNotices.NoticesAtMostOnce` | broker/services/broadcast_service.py:769-811 | Over every run without a repeating step, announcements, unanswered ones included, are strictly increasing; below the stored count everything was announced or excused, and nothing at or above it was announced |
| `BroadcastNotices.RepeatingStepAnnouncesTwice` | broker/services/broadcast_service.py:678-697 | From any reachable state, an announcement the stored count does not cover afterwards, unwritten or unanswered, or a chat named twice with notices on, is followed by the same event announced twice |
| `BroadcastNotices.AnnouncesTwiceIff` | broker/services/broadcast_service.py:769-811 | A step can lead, without another repeating one, to an event announced twice or out of order if and only if it is one of those |
| `BroadcastTargets.Targets` | broker/services/broadcast_service.py:524-558 | The loop keeps the first entry of each text, private ones first, as `KeptAreTheFirst` and `PrivateComesFirst` say without the loop |
| `BroadcastTargets.KeptAreTheFirst` | broker/services/broadcast_service.py:548-558 | The targets are the first entries of their texts, all of them, in order, each under the audience that lists it first |
| `BroadcastTargets.PrivateComesFirst` | broker/services/broadcast_service.py:548-558 | An entry listed for both audiences is a private target |
| `BroadcastTargets.KeptChats` | broker/services/broadcast_service.py:524-558 | Every chat listed is served, and no other |
| `BroadcastTargets.TargetsAreDistinctIff` | broker/services/broadcast_service.py:97-130 | The targets name no chat twice if and only if no two entries of different text are stored under one id |
| `BroadcastPasses.OneDispatchConverges` | broker/services/broadcast_service.py:416-460 | From any reachable state a healthy pass over distinct targets that claims something leaves each target at its snapshot, after at most one edit or post each and with its notices settled, every claimed entry DELIVERED and nothing it found claimable, but for what a sweep handed back; writers and sweeps interleave |
| `BroadcastPasses.RefusedNoticeIsMadeUpForIff` | broker/services/broadcast_service.py:769-811 | From any reachable state in which a chat is owed a notice as far as its row knows, a healthy pass that serves it, notices on, announces that event exactly once more if the cycle it loaded is newer than the row, and otherwise the chat sees nothing; whether the notice was refused or got there unanswered makes no difference |
| `BroadcastPasses.ParkingIsInvisible` | broker/services/broadcast_service.py:462-512 | Any number of silenced passes whose transactions commit, claims that fail included, leaves log, message ids, bodies, sequences and history as they were, but for entries a sweep handed back, and a complete one settles the chats behind on notices |
| `BroadcastPasses.SilenceOnlySpendsAttempts` | broker/services/broadcast_service.py:462-512 | Silenced passes in which claims, deferrals, chat writes and the process itself may fail close no entry, open none but what a reclaim under way had found, change no message, body or sequence and tell nobody anything; an attempt is spent exactly for each claim that was not handed back |
| `BroadcastPasses.UnparkingEditsOnce` | broker/services/broadcast_service.py:462-512 | The first healthy pass afterwards makes one edit per chat left behind that it serves, posts nothing, and announces only later events |
| `BroadcastLimits.FailedLoadLosesAnEdit` | broker/db/repository/broadcast_message.py:458-497 | A run from the start where a failed load marks an entry DELIVERED that its chat never saw |
| `BroadcastLimits.UnstoredEditLeavesAStaleRow` | broker/services/broadcast_service.py:678-697 | A run from the start where an edit lands, its row write fails unnoticed, and the entry is DELIVERED over a stale row |
| `BroadcastLimits.FailedSettingsReadLosesAnEdit` | broker/db/repository/setting.py:51-66 | A run from the start where the settings cannot be read, the pass serves the private chat only, and the entry is DELIVERED over a stale public one |
| `BroadcastLimits.DeathBeforeTheWriteRepeatsAPost` | broker/services/broadcast_service.py:720-767 | A run from the start where a crash between post and write repeats the post |
| `BroadcastLimits.RepeatedTargetForgetsTheNewMessage` | broker/services/broadcast_service.py:669-697 | A run from the start where a pass names a chat twice, posts a new message, and the row names the old one again |
| `BroadcastLimits.FailedSendIsPostedTwice` | broker/services/notification_service.py:406-455 | A run from the start where a message is posted, the send is answered with an error, and the next pass posts it again; no crash and no failed transaction |
| `BroadcastLimits.ParkedAndUnparked` | broker/services/broadcast_service.py:442-460 | A run from the start in which the situation of the results on whole passes arises: a chat left behind, a silenced pass, a healthy one |
| `BroadcastLimits.NoticeRefused` | broker/services/broadcast_service.py:797-810 | A run from the start where an edit lands, its notice is refused, and the entry is DELIVERED with the event still to be announced |
| `BroadcastLimits.NoticeUnanswered` | broker/services/notification_service.py:471-511 | A run from the start where the notice gets into the chat unanswered and the row is as if it had been refused |
| `BroadcastLimits.UnansweredNoticeIsAnnouncedTwice` | broker/services/broadcast_service.py:797-811 | And with the next change that event is announced again, on a run without a crash, a failed transaction or a repeated target |
| `BroadcastLimits.UnansweredEditIsRepeated` | broker/services/notification_service.py:513-558 | A run from the start where an edit made without an answer is made again by the next pass |
| `BroadcastLimits.WorkersCanBeNewer` | broker/db/repository/broadcast_message.py:458-497 | A run from the start where a report recorded during a load gives a private body a worker its sequence number does not cover |
| `BroadcastLimits.RefusedNoticeIsMadeUpFor` | broker/services/broadcast_service.py:797-811 | From both those runs, the next signal and a healthy pass announce the event once more |
| `BroadcastLimits.RefusedNoticeWaitsForAChange` | broker/services/broadcast_service.py:669-673 | From any reachable state with a refused notice, whatever passes run and whatever fails, nothing more is shown or announced in that chat until the cycle changes |
| `BroadcastLimits.StrandedOnTheLastAttempt` | broker/db/repository/broadcast_message.py:438-456 | A run from the start that leaves an entry PENDING without attempts and in nobody's hands |
| `BroadcastLimits.ReclaimOvertakesDelivery` | broker/db/repository/broadcast_message.py:438-456 | A run from the start where a reclaim finds an entry being sent on its only attempt, the pass delivers and closes it, and the reclaim then leaves it PENDING for good |
| `BroadcastLimits.StrandedEntryIsNeverFailed` | broker/db/repository/broadcast_message.py:299-341 | Such an entry stays exactly so over every run |
| `BroadcastLimits.StrandedForeverIff` | broker/db/repository/broadcast_message.py:343-456 | A reclaim written on the last attempt, whatever became of the entry since it was found, leaves it without any continuation that closes it if and only if no pass holds it |
| `BroadcastDispatcher.BroadcastDispatcher.NotifyUpdates` | broker/services/broadcast_service.py:769-811 | Replies from the stored count to the first without a positive answer and returns the count up to there, while the chat may have one more; silent for legacy rows and switched-off audiences |
| `BroadcastDispatcher.BroadcastDispatcher.SendFresh` | broker/services/broadcast_service.py:720-767 | A new post: recorded with its id, recorded without one when unanswered, not recorded as shown when it failed, in the chat or not |
| `BroadcastDispatcher.BroadcastDispatcher.Deliver` | broker/services/broadcast_service.py:636-767 | Result, chat row and what the chat saw agree with the machine's delivery, for every answer of Telegram and the database |
| `BroadcastDispatcher.BroadcastDispatcher.DeliverAll` | broker/services/broadcast_service.py:560-619 | Serves every target in order over one run; true if and only if every delivery went well, and if every row was written too, all targets are at the snapshot |
| `BroadcastDispatcher.BroadcastDispatcher.ParkPass` | broker/services/broadcast_service.py:462-512 | Ends the pass without any Telegram call: with no posted message owed an edit its entries are DELIVERED, otherwise they wait again with their attempt back, and of the chats only the notice counts of those owed one change |
| `BroadcastDispatcher.BroadcastDispatcher.LoadCycle` | broker/db/repository/broadcast_message.py:458-497 | Reads the cycle and its chats, then its workers, with a report possible in between; None when it is gone or any read fails |
| `BroadcastDispatcher.BroadcastDispatcher.DispatchLocked` | broker/services/broadcast_service.py:416-460 | A pass does nothing if and only if its claim failed or found nothing. Otherwise a failed load drops it, silence or the want of a target parks it, and else its targets are served; the claimed entries end DELIVERED, FAILED or waiting accordingly, no other entry changes, and an unserved pass shows no chat anything |
| `BroadcastDispatcher.BroadcastDispatcher.Sweep` | broker/services/broadcast_service.py:377-395 | Work is listed if and only if an entry with an attempt left waits or is stranded, and then a pass follows; otherwise only stranded entries change |
| `CycleLocks.MutualExclusion` | broker/services/broadcast_service.py:399-414 | Over every interleaving, cancellations in progress included, at most one dispatch of a cycle is critical, and all in flight share one entry |
| `CycleLocks.EntriesNeverLeak` | broker/services/broadcast_service.py:410-414 | An entry exists exactly while dispatches of its cycle are in flight, and its count is their number |
| `CycleLocks.SomebodyCanMove` | broker/services/broadcast_service.py:405-409 | Whoever is in flight, some dispatch of that cycle can wake, leave, or finish being cancelled |
| `CycleLocks.FirstComeFirstServed` | broker/services/broadcast_service.py:399-414 | From every reachable state dispatches of a cycle get in in the order they came |
| `CycleLocks.LockStateRuleBreaksExclusion` | broker/services/broadcast_service.py:316-321 | Dropping the entry when its lock reads as unlocked lets two dispatches into one cycle |
| `CycleLocks.DispatchLocks.Enter` | broker/services/broadcast_service.py:399-407 | Steps the machine; enters at once if and only if nobody of that cycle is inside or waits without having been cancelled |
| `CycleLocks.DispatchLocks.Leave` | broker/services/broadcast_service.py:410-414 | Steps the machine; the entry goes with its last user |
| `TradeLedger.TableTracksReports` | broker/db/repository/trade.py:84-188 | For every sequence of reports with gateways, the table has one row per reported trade, and it shows the furthest report |
| `TradeLedger.TradeStands` | broker/domain/trade_status.py:18-82 | Over every sequence of reports with gateways, a row is Closed or Flat if and only if some report of its trade ended it, else PartiallyClosed if and only if some took part off, and Rejected only if nothing but rejections arrived; it shows the latest report that nothing outdoes, with its price, volume and label |
| `TradeLedger.UpsertDoes` | broker/db/repository/trade.py:84-188 | The upsert on the columns: which row it takes, when it refuses, what it writes, and that no other row changes |
| `TradeLedger.FurthestIsLatestOfTheHighest` | broker/domain/trade_status.py:74-82 | That report is the latest of the highest rank: nothing ranks higher, nothing later ranks as high |
| `TradeLedger.FirstMatch` | broker/db/repository/trade.py:103-112 | The first row with the report's account, reference, market, and its gateway or none |
| `TradeLedger.OrderAndRepetitionDoNotMatter` | broker/domain/trade_status.py:50-56 | Any order and repetition of the same reports ends at the same rank, and the same status unless both closed and flat were reported |
| `TradeLedger.ClosedAndFlatDependOnOrder` | broker/domain/trade_status.py:50-56 | Closed and flat reported in the two orders end differently |
| `TradeLedger.RejectedOnlyIfNothingElse` | broker/domain/trade_status.py:22-56 | A trade is left rejected if and only if every understood report about it was a rejection |
| `TradeLedger.OverStaysOver` | broker/domain/trade_status.py:74-82 | A closed or flat trade never runs again, whatever is delivered afterwards |
| `TradeLedger.ColumnsAgree` | broker/domain/trade_status.py:58-74 | Running means opened or partially closed, and the last action maps back to the status |
| `TradeLedger.AddsARowIff` | broker/db/repository/trade.py:103-112 | A report adds a row if and only if it is understood and no row of its trade has its gateway or none |
| `TradeLedger.UnsetGatewaySplitsATrade` | broker/db/repository/trade.py:103-112 | Gateway unset, set, unset: one trade becomes two rows |
| `TradeConsumer.LeavesOnlyWhenSettled` | broker/services/nats_service.py:291-354 | A report leaves the stream only when its upsert was committed, it is unreadable, or its deliveries are used up |
| `TradeConsumer.EmptyStreamMeansEverythingCounted` | broker/services/nats_service.py:291-354 | With the stream empty and no report given up, the table has one row for each trade reported, at the rank of its furthest report and with its status unless both closed and flat were reported, whatever order the reports are put in |
| `TradeConsumer.TradeRepository.UpsertByPositionEvent` | broker/db/repository/trade.py:78-188 | Inserts, updates or refuses the downgrade in one transaction; unknown statuses return before the database |
| `TradeConsumer.TradeEventConsumer.Capture` | broker/services/nats_service.py:224-243 | The stream keeps a report from its arrival |
| `TradeConsumer.TradeEventConsumer.HandleSubjectTrade` | broker/services/nats_service.py:307-354 | Unreadable if and only if nobody can read it, persisted if and only if the upsert was committed or its position is unknown |
| `TradeConsumer.TradeEventConsumer.HandleOne` | broker/services/nats_service.py:291-305 | The report leaves the stream if and only if the settle gets through and it is persisted, unreadable or at its 720th delivery; unless it rolled back it is applied to the table |
| `AccountLinks.OnlyAStaleHealDangles` | broker/db/repository/account.py:305-347 | From any state, a transaction that nothing overlaps leaves a user with a selection they do not hold if and only if it is a repair with an account unlinked in between |
| `AccountLinks.ActiveIsAlwaysLinked` | broker/db/repository/account.py:267-738 | Over every run of such transactions without that race all active accounts are held by their users |
| `AccountLinks.AReadCanLoseTheRace` | broker/db/repository/account.py:305-347 | The race itself, over a run from the empty database: a read repairs a session with an account another client just unlinked |
| `AccountLinks.ResolvesToALinkedAccount` | broker/db/repository/account.py:267-347 | In any state a user with a link resolves to an account they hold, and one without to nothing |
| `AccountLinks.FirstIsHead` | broker/db/repository/account.py:238-258 | The order of the query, said of the columns: accounts that never traded first, then by latest trade, equals by age |
| `AccountLinks.NewAccountsAreClosed` | broker/db/repository/account.py:98-145 | A new account is opened by its token alone and held by nobody |
| `AccountLinks.LinkingLeavesADanglingSelection` | broker/db/repository/account.py:485-501 | Linking another account does not repair a dangling selection |
| `AccountLinks.DropTakesOneLink` | broker/db/repository/account.py:625-657 | An unlink removes one link of that user alone and leaves them a selection they hold, or none when none is left |
| `AccountLinks.RotationResetsOneAccount` | broker/db/repository/account.py:670-738 | After a rotation exactly the new token opens the account, nobody holds or selects it, and no other account is touched |
| `AccountLinks.AccessAfterRotation` | broker/db/repository/account.py:670-738 | Over every later run of such transactions whoever holds the account got it by an admin's link, the new token, or a later rotation |
| `AccountLinks.ReachableSound` | broker/db/repository/account.py:98-145 | Over every run of such transactions links and tokens name existing accounts, and an account has at most one token not revoked |
| `AccountRaces.IsolatedCommits` | broker/db/repository/account.py:349-738 | Every account transaction nothing overlaps is the commit of what it reads, and one whose check fails commits nothing |
| `AccountRaces.OnlyOvertakenCommitsDangle` | broker/db/repository/account.py:349-738 | From any state, a commit with whatever reads leaves a user with a selection they do not hold if and only if it was overtaken: it selects or moves on to an account unlinked since, ends the link of a session it had not seen, or rotates under a session written after it had looked |
| `AccountRaces.IsolatedIsNeverOvertaken` | broker/db/repository/account.py:349-738 | One that nothing overlaps is never overtaken, but for the repair of a read |
| `AccountRaces.ActiveStaysLinked` | broker/db/repository/account.py:349-738 | Over any sequence of commits none of which was overtaken, every selection stays one its user holds |
| `AccountRaces.OneTokenIff` | broker/db/repository/account.py:700-738 | A rotation leaves its token as the only open one if and only if it had found every other one open at its commit |
| `AccountRaces.LinkedIff` | broker/db/repository/account.py:417-738 | Over any sequence of commits with whatever reads, a link is there at the end if and only if it was there and none ended it, or one made it and none after it ended it |
| `AccountRaces.HoldersAfterRotationIff` | broker/db/repository/account.py:670-738 | After a rotation and any commits that follow, a user holds the account if and only if the rotation had not found their link and nobody ended it, or one made later was not ended again |
| `AccountRaces.SwitchOvertakenByRotation` | broker/db/repository/account.py:349-415 | A run from the empty database where a switch checks a link, a rotation commits, and the switch leaves a selection without a link |
| `AccountRaces.TwoRotationsLeaveTwoTokens` | broker/db/repository/account.py:670-738 | A run from the empty database where two overlapping rotations leave two tokens open |
| `AccountRaces.OldTokenLinksAfterRotation` | broker/db/repository/account.py:417-518 | A run from the empty database where a link by the old token commits after the rotation and gives access |
| `AccountRepository.SqlAlchemyAccountRepository.LinkTelegram` | broker/db/repository/account.py:417-518 | Links if and only if the token is known, not revoked, not expired and its account exists, and to that account; the account becomes active only for a user without a selection; otherwise nothing changes |
| `AccountRepository.SqlAlchemyAccountRepository.AdminLinkTelegram` | broker/db/repository/account.py:520-601 | Links to an existing account and answers with it; the account becomes active only for a user without a selection |
| `AccountRepository.SqlAlchemyAccountRepository.SetActiveAccount` | broker/db/repository/account.py:349-415 | Switches to an account the user holds, and refuses any other |
| `AccountRepository.SqlAlchemyAccountRepository.GetActiveAccount` | broker/db/repository/account.py:267-347 | A held selection is the answer and nothing changes. Without one, alone, the answer is the first of the held accounts in order, and the session selects it unless that write failed; None only without links or when a read failed |
| `AccountRepository.SqlAlchemyAccountRepository.UnlinkTelegram` | broker/db/repository/account.py:603-668 | Alone, takes the resolved account's link from this user only; changes nothing only without links or when a transaction failed |
| `AccountRepository.SqlAlchemyAccountRepository.DropLink` | broker/db/repository/account.py:625-657 | The writing half, whatever others did since the read: this link alone goes, and a session moves to the first of the accounts left, or to none when none is left |
| `AccountRepository.SqlAlchemyAccountRepository.RotateLinkToken` | broker/db/repository/account.py:670-738 | Rotates one account with that bare id, None only when there is none |
| `AccountRepository.SqlAlchemyAccountRepository.First` | broker/db/repository/account.py:249-258 | One that never traded if there is any, else the one that traded last; of equals the oldest |
| `NumberPrinters.PrintersAgree` | broker/helpers/message_formatter.py:32-54 | For every value a NUMERIC(20,8) column can hold, of either sign, broker and bot print the same text |
| `NumberPrinters.PrintersAgreeIff` | broker/helpers/message_formatter.py:32-54 | Over all decimals, the two programs print the same text if and only if the number has at most eight decimals |
| `NumberPrinters.BotRoundsToNearest` | bot/app/presenters/trade_card.py:58-73 | What the bot prints of a number with more decimals is off by at most half a hundred-millionth, and of two as near it is the even one |
| `NumberPrinters.PrintedNumberReadsBack` | bot/app/presenters/trade_card.py:58-73 | Parsing the text gives exactly the number back |
| `NumberPrinters.PrintsTidily` | bot/app/presenters/trade_card.py:58-73 | No exponent, no needless leading zero, no trailing zero or bare point |
| `NumberPrinters.FormatNumber` | broker/helpers/message_formatter.py:32-54 | The reassigning body computes the broker's text |
| `NumberPrinters.Num` | bot/app/presenters/trade_card.py:58-73 | For every decimal, stripping the signed text equals the sign and the stripped magnitude in rounded hundred-millionths, and the empty-text guard never applies |
| `NumberPrinters.StrippedIsText` | bot/app/presenters/trade_card.py:58-73 | Stripping zeros and then the point of a fixed writing gives the shortest plain writing |

## Left out

- Configuration, HTTP routes, wiring, settings, migrations and logging.
- Text layout, escaping, emoji, timezones and tables: a body is the cycle, its status and its workers, not its characters.
- Row columns without a part in a protocol: prices and levels of signals, `last_error`, reject reasons, comments, account balances and the `accounts` row a TRADE report refreshes.
- Parsing of chat-id settings: an entry is its text and the id its row is stored under.
- Broadcasting from inside a fan-out: best effort, it changes no signal row.
- JetStream's duplicate window: a deferred retry may fall outside it, so nothing is claimed about messages being stored once.
- The block gate as a global promise: the retry job does not consult it.
- Several broker processes: the per-cycle lock lives in one process.
- The sweeper's order over cycles and its limit of 50 a turn: a sweep is modelled for one cycle.
- A claim that skips a row a reclaim is writing at that very moment: the entry is then left to the next claim.
- A notice that cannot be rendered: the list holds one per event and never an empty one.
- Concurrent calls of the enqueuer's `start` and `stop`, and a `stop` that is itself cancelled.
- `Decimal` precision: coefficients beyond the context's 28 digits, which a NUMERIC(20,8) column cannot hold, and the binary rounding of floats.
- The fallback of the TRADE consumer to core NATS when the stream cannot be used: reports are then delivered at most once.
- A TRADE report whose market is none the schema knows: the schema makes it an unreadable one.
- TradeLedger.FirstMatch: takes table order where the query has none; with gateways set at most one row matches.
- AccountRepository.SqlAlchemyAccountRepository.LinkTelegram: `last_used_at` is not kept, and calls on one platform only.
- AccountRepository.SqlAlchemyAccountRepository.GetActiveAccount: with other transactions in between it only promises an account that exists, which is what the code gives.
