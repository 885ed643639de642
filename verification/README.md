# A verified model of the webhook delivery pipeline

The system accepts signed order webhooks, publishes each to a RabbitMQ work queue, processes it once in PostgreSQL,
retries transient failures through three TTL queues, and dead-letters what cannot be processed, from where an operator
can replay it. Its guarantees live in no single function: they come out of how the status column, the `x-attempt` header,
the broker's redelivered flag and two tables interact while workers crash, connections drop and messages are duplicated.
This project models that interaction and proves what it guarantees.

## How it is organised

| file | what it holds |
|---|---|
| `Messages`, `Tables`, `Messaging` | what messages say, the two tables and the committed transactions on them, the retry tiers |
| `Protocol` | the delivery protocol as a labelled transition system over any number of ids, messages and workers |
| `Invariants` | what every step keeps, hence what holds in every reachable state |
| `Guarantees` | nothing stranded, conservation, retry budget, accounting of effects, at most one effect |
| `Decisions` | what each transaction does, case by case on the fields of the message and the stored status |
| `Convergence` | a potential that every step of progress lowers, and what a finished state looks like |
| `Recovery` | every accepted event can still be processed; exactly when a replay or a database rejection lets an event take effect twice |
| `ReplayRaces` | exactly when a replay's message can be handled on top of another message's retry |
| `CalmRuns` | fault-free runs: one chain up the retry ladder, the whole budget used before an event dies, and the duplicate count |
| `Transactions`, `Refinement` | the statements of the three transactions under row locks, and the simulation of every history of such statements by a protocol run |
| `Store`, `IdempotentEventProcessor`, `OrderConsumer`, `DlqConsumer`, `DlqReplayService` | the services as classes that update the tables and the queues, each tied to the protocol |
| `WithTimeout`, `RabbitEventPublisher` | the promise raced against a timer, and the confirming publisher |
| `Telemetry`, `StageList`, `Reducer`, `Pipeline` | the demo page: the sorted stage list, the reducer, and the walk through the diagram |
| `Wrappers`, `Sums` | optional values, sums over maps |

## What to know before reading a theorem

* A step of `Protocol` is a commit, a publish, an ack, a delivery, a TTL expiry, or a fault. "Committed but not
  published" (`Decided`) and "published but not acked" (`Acking`, `Stored`) are separate phases. In each of them a crash
  or a nack may hand the message back with the redelivered flag set (`Requeue`), and a lost channel may hand it back while
  its consumer, whose transaction and publishes nothing cancels, goes on with it (`HandBack`). A replay that has
  committed but not published is `Redrive`, and its publish may reach the queue or be lost. A publish that times out at the
  API is a `Publish` step without a confirmation, or no step at all. Queues are unordered, which allows every order a
  FIFO queue could produce and more.
* Transactions are atomic steps in `Protocol`; `Transactions` takes them apart statement by statement. `Refinement` lets
  workers take messages off the queues and interleave those statements with everything else that happens to messages,
  and proves that each such history is a protocol run with the same tables and the same messages in the same phases. The
  phases `Ignored` and `Overlooked` are there because PostgreSQL reads committed rows: the DLQ consumer's insert may be
  ignored because of a letter that is discarded before the consumer commits, and its update may run before a claim of the
  same event commits, find no row, and record the letter only after. A replay that finds no row is a protocol step at
  the moment it looks, provided that it commits.
* The environment: durable at-least-once queues; requeueing or losing a channel sets the redelivered bit (AMQP 0-9-1,
  `basic.deliver`); an exception that escapes a subscriber requeues; `MAX_PROCESSING_ATTEMPTS >= 1`
  (`src/config/env.validation.ts:7-19`). Nothing is assumed about the handler: each run may succeed, fail transiently or
  fail permanently.
* The counters of a `Tally` are ghosts of the model. They record what happened, and no step reads them.
* A message text is represented by what parsing it yields. The text of a dead letter is represented by the fields its
  reader tests for; a dead letter whose text is the JSON literal `null` makes the DLQ consumer throw before its
  transaction, and the model does the same.

## Where the code does less than its documentation says

The repository's README promises that a repeated `event_id` takes effect exactly once. `DlqConsumer` sets `Dead`
unconditionally (`src/consumer/dlq-consumer.ts:83-89`), so a dead letter that is still outstanding can mark an event dead
after it was processed, and the event can then be replayed and processed again. `Recovery.OneEventCanTakeEffectTwice`
exhibits such a run. What does hold, and exactly when:

* Every effect is accounted for: effects of an id = (1 if its row is processed) + dead letters that hit its processed row.
* A replay keeps an event exactly-once if and only if no dead letter of that event is still outstanding (on its way to,
  in, or not yet acked from the dead queue).
* A database rejection that dead-letters a delivery keeps its event exactly-once if and only if that event was already
  failed or dead.
* In runs whose replays and rejections of an id are all of the safe kind there is at most one effect per id, and
  processed stays processed.

The comment at `src/dlq/dlq-replay.service.ts:27-31` says that replaying an event that is in flight is harmless, because
the extra message settles as a duplicate once the first one commits. A redrive carries `x-attempt: 0`, so it counts as a
continuation and settles as a duplicate only on a processed or dead row: of two continuations of an unfinished event the
second settles if and only if the first succeeds. On a row that is being retried it runs the handler and uses up an
attempt (`ReplayRaces.ARedriveCanBurnAnAttempt` exhibits that). When this can follow a replay:

* In a run without further input or faults, if and only if, when the replay is made, another message of the event is in
  flight already - a redrive, a continuation or, for an event without a row, any message on the work queue - and the
  attempt limit is at least 2.
* With crashes, if and only if the attempt limit is at least 2: one crash between the publish of its own retry and the ack
  brings the redrive back to the row it left being retried.

A discard that falls between a dead letter's ignored insert and its commit leaves the event dead without a letter.

The comment at `web/src/state/reducer.ts:225-228` says that the countdown no longer applies to a token that has got past
its retry. It is removed by every envelope but a retry: a retry envelope sets it whatever the token's stage is
(`web/src/state/reducer.ts:217-223`), so one that arrives after the event was processed puts a countdown on a finished
token (`Reducer.ALateRetryShowsACountdown`). A token at which an outcome has arrived shows a countdown if and only if the
last envelope to arrive for it is a retry.

On the demo page, the list of a token's stages is the same for every order of arrival that keeps the order of envelopes
with equal stage and attempts, if and only if no two of the arrived entries that survive share rank and timestamp. Ties
with entries that were there before do no harm.

## Model

| member | source | states |
|---|---|---|
| Guarantees.NoEventIsStranded | src/consumer/idempotent-event-processor.ts:76-169 | In every reachable state a processing event has a continuation or a dead letter on its way, a failed one has a redelivered message or a dead letter on its way, a received or dead one has its stored letter unless that was discarded, and a received one has a redrive, a continuation or a dead letter on its way unless a redrive was lost since its reset. |
| Guarantees.AcceptedIdsAreConserved | src/webhooks/rabbit-event-publisher.ts:49-94 | Once a message of an id is on the work queue the id always has an event row, a message still to be processed or recorded, or a stored letter, unless the letter was discarded. |
| Guarantees.RetryBudget | src/consumer/idempotent-event-processor.ts:134-160 | Committed handler runs never exceed max * (1 + resets) however many copies are in flight; `attempts` is the number of runs since the claim or last reset, and each status bounds it. |
| Guarantees.EffectsAreAccountedFor | src/consumer/idempotent-event-processor.ts:106-167 | Committed transitions to processed = (1 if the row is processed) + dead letters that overwrote a processed row. |
| Guarantees.StoredLettersAreReplayable | src/dlq/dlq-replay.service.ts:32-36 | A stored letter with an event id is the only one for that id and holds the message that died; its replay is prepared if and only if the event has no row or its row is dead, failed or received, and is refused with the row's status if that is processing or processed; the "not the original message" refusal never happens. |
| Guarantees.HandlerHearsOnlyProducers | src/consumer/order-consumer.ts:104-113 | Every event given to the handler is what the fields of some producer's body say: its id, its type or "unknown", its object or array payload or {}, and its correlation id if it carried one. |
| Guarantees.RowsHoldProducersWords | src/consumer/idempotent-event-processor.ts:76-93 | Every event row of every reachable state has in its columns the type, payload and correlation id that the fields of some producer's message for that id say. |
| Guarantees.AtMostOnce | src/consumer/dlq-consumer.ts:83-89 | In runs where the id is rejected by the database only once it has failed or died, and replayed only while no letter of it is outstanding, it takes effect at most once and every outstanding letter finds its row failed or dead. |
| Guarantees.SettledStaysSettled | src/consumer/idempotent-event-processor.ts:20-28 | In such runs a processed row stays processed. |
| Guarantees.GuardedRunsNeverOverwrite | src/consumer/dlq-consumer.ts:64-90 | In such runs no dead letter ever hits a processed row. |
| Decisions.DeliveriesInEveryState | src/consumer/idempotent-event-processor.ts:76-169 | What a delivery does for each stored status and each answer of the handler, in terms of the columns and of the message that follows; it touches no other row and no letter. |
| Decisions.TransientFailuresAreFinalAtTheLimit | src/consumer/idempotent-event-processor.ts:134-160 | In every reachable state a run that fails transiently leaves its event failed if and only if it was the run number max since the claim or the last replay; otherwise it goes on to the retry of that number. |
| Decisions.RunsOnlyWhenHandled | src/consumer/idempotent-event-processor.ts:95-133 | The handler runs exactly when the event is new, or unfinished and the delivery is a retry, a redrive or a redelivery. |
| Decisions.AnswersAgreeWithTheRow | src/consumer/idempotent-event-processor.ts:106-167 | What the consumer is told has the attempts and the failure reason that are stored, and is success, retry or death exactly as the stored status says. |
| Decisions.ReplayAnswers | src/dlq/dlq-replay.service.ts:114-174 | Each answer of a replay by what is stored: unknown letter, no event id, not a JSON object, event processing or processed, and otherwise the message to publish. |
| Decisions.ReplayResets | src/dlq/dlq-replay.service.ts:134-153 | A replay gives a dead, failed or received event a fresh budget, stamps its letter and changes nothing else; no replay ever touches a processing or processed row. |
| Decisions.LettersMark | src/consumer/dlq-consumer.ts:68-90 | Recording a letter marks its event dead, keeps its other columns and every other event, and stores the letter unless one with its message id is there. |
| Decisions.NonRecoverableCodes | src/consumer/processing-errors.ts:17-36 | A database failure is dead-lettered exactly for SQLSTATE classes 22 and 23 without 23505. |
| Invariants.InvKept | src/consumer/order-consumer.ts:114-245 | Every step, faults included, keeps all of: well-formed messages, unique genuine letters, nothing stranded, nothing lost, the budget, the accounting, and that no message says what no producer said. |
| Invariants.ReachableInv | src/consumer/order-consumer.ts:114-245 | Hence every reachable state satisfies them. |
| Invariants.UnstrandedKept | src/consumer/order-consumer.ts:200-245 | Each step keeps an unfinished event's finisher alive or replaces it. |
| Invariants.ExpectedKept | src/dlq/dlq-replay.service.ts:114-154 | Each step keeps a message on its way to every received row, unless the step loses its redrive. |
| Invariants.ExcusedKept | src/consumer/dlq-consumer.ts:69-82 | Each step keeps a stored (or discarded) letter for every event whose dead letter's insert was ignored. |
| Invariants.ConservedKept | src/consumer/dlq-consumer.ts:62-101 | Each step keeps an accepted id somewhere. |
| Invariants.BudgetKept | src/consumer/idempotent-event-processor.ts:134-160 | Each step keeps the relation between attempts, runs, resets and status. |
| Invariants.AccountedKept | src/consumer/dlq-consumer.ts:83-89 | Each step keeps the accounting identity of effects. |
| Invariants.NothingMadeUpKept | src/consumer/order-consumer.ts:204-233 | Each step only passes on meanings that some producer published, through retries, letters, rows and redrives. |
| Invariants.EventsSaidKept | src/consumer/idempotent-event-processor.ts:76-93 | Each step keeps that event rows hold what some producer's message says: they are written from the claiming message, and nothing rewrites their type, payload or correlation id. |
| Invariants.InsertKeepsDlqOk | src/events/entities/dlq-message.entity.ts:14-18 | Recording a letter keeps message ids unique, drops no letter, and leaves a letter for its event whether or not one was there. |
| Invariants.SendMakes | src/consumer/order-consumer.ts:204-233 | The message a decision publishes: a retry in the tier and with the attempt header of the decision, meaning what the delivery meant; or a letter storing the delivery's own body under its own id. |
| Convergence.StepsWork | src/messaging/messaging.module.ts:54-73 | Every step that is not new input, a fault or an operator's action strictly lowers a natural-number potential; the others raise it by at most a stated cost. |
| Convergence.RunsConverge | src/consumer/order-consumer.ts:200-245 | A run is no longer than the initial potential plus what its disturbances cost, so an undisturbed run has at most Work(s) steps. |
| Convergence.ProgressIsPossible | src/consumer/order-consumer.ts:70-245 | While any message is anywhere, a step of progress is enabled. |
| Convergence.QuiescentStatesAreFinished | src/dlq/dlq-replay.service.ts:27-36 | When progress has stopped nothing is in flight and every row is processed, or dead or received with a stored (or discarded) letter; a received row's redrive was lost since its reset; an accepted id without a row has its letter. |
| Convergence.CommitPays | src/consumer/idempotent-event-processor.ts:134-167 | A committing message and its row together get strictly lighter in every branch of the transaction. |
| Recovery.AcceptedEventsAreRecoverable | src/dlq/dlq-replay.service.ts:59-112 | From every reachable state, a run without new input or faults gets any accepted, undiscarded event processed, with no letter hitting it on the way. |
| Recovery.FromRow | src/dlq/dlq-replay.service.ts:114-154 | A stored letter whose event is replayable leads to the event being processed by replaying it. |
| Recovery.FromFailed | src/consumer/idempotent-event-processor.ts:116-122 | A redelivery of a failed event re-emits its letter, which is recorded and can be replayed to success. |
| Recovery.TwiceIffOverwritten | src/consumer/dlq-consumer.ts:83-89 | An undiscarded event can reach a second effect without a further overwrite if and only if a letter has overwritten its processed row. |
| Recovery.ReplayIsSafeIffNoLetterOutstanding | src/dlq/dlq-replay.service.ts:27-36 | After a replay the event cannot be overwritten in guarded runs if and only if no letter of it was outstanding. |
| Recovery.RejectionIsSafeIffFailedOrDead | src/consumer/order-consumer.ts:138-166 | After a database rejection is dead-lettered its event cannot be overwritten in guarded runs if and only if it was already failed or dead. |
| Recovery.OneEventCanTakeEffectTwice | src/consumer/dlq-consumer.ts:83-89 | For every well-formed first message and every attempt limit there is a reachable state with two effects of one event. |
| Recovery.StaleLettersOverwrite | src/consumer/dlq-consumer.ts:62-101 | Any outstanding letter, wherever it is, can mark a processed row dead. |
| ReplayRaces.ReplayBurnsIffInFlightAlready | src/dlq/dlq-replay.service.ts:27-36 | For every reachable state: in a run without further input or faults after a replay, its message can be handled on top of another message's retry if and only if another message of the event was in flight already and the limit is at least 2. |
| ReplayRaces.FaultsLetAnyReplayBurn | src/consumer/order-consumer.ts:204-226 | For every reachable state: with crashes after a replay, its message can be handled on a row being retried if and only if the limit is at least 2. |
| ReplayRaces.SoloRunsNeverBurn | src/consumer/idempotent-event-processor.ts:124-139 | With at most one message that will run the handler, no run of progress brings a replay's message to a row that is being retried. |
| ReplayRaces.ARedriveCanBurnAnAttempt | src/dlq/dlq-replay.service.ts:78-80 | For every well-formed first message and every limit of at least 2 there is a reachable state with a replay's message about to be handled on a row being retried. |
| ReplayRaces.BurningUsesAnAttempt | src/consumer/idempotent-event-processor.ts:134-139 | That commit is never a duplicate: it is one more run and one more attempt, whatever the handler answers. |
| ReplayRaces.ContinuationsSettleIffSettled | src/consumer/idempotent-event-processor.ts:106-139 | What a continuation's commit does in each state of its event; it settles as a duplicate if and only if the event is processed or dead. |
| ReplayRaces.SecondSettlesIffFirstSucceeds | src/dlq/dlq-replay.service.ts:27-31 | Of two continuations of an unfinished event the second settles as a duplicate if and only if the first succeeds. |
| CalmRuns.LadderIsASingleChain | src/consumer/order-consumer.ts:204-226 | In fault-free runs an event being processed has exactly one continuation, whose header is the row's attempts, in the tier those attempts select, and which has waited for the tiers below; other events have none. |
| CalmRuns.FinishedEventsClimbedTheirRungs | src/messaging/messaging.constants.ts:27-44 | In fault-free runs an event that is no longer being retried, whatever became of it, has waited for the tiers below its last attempt. |
| CalmRuns.ExhaustedEventsClimbedTheLadder | src/messaging/messaging.constants.ts:27-44 | A fault-free run in which the handler only fails transiently for a published event, and which ends with nothing live, leaves it dead after exactly max runs and without an effect, having waited 0, 5, 35 or 120n - 205 seconds for its n = max - 1 retries. |
| CalmRuns.DuplicatesAreCounted | src/consumer/idempotent-event-processor.ts:95-132 | In fault-free runs the decided producers' messages of an id = 1 claim + duplicateCount + re-emitted deaths, and the published ones are those plus the undecided. |
| CalmRuns.RacingCopiesProcessOnce | src/consumer/idempotent-event-processor.ts:95-132 | n racing copies of an event on which the handler succeeds end, whatever it does with other events and under every interleaving, as one processed row on its first attempt, one effect and duplicateCount n - 1. |
| CalmRuns.CommitMoves | src/consumer/idempotent-event-processor.ts:124-160 | A commit turns the claim or the one continuation into the next rung or into none, and leaves row and chain alone otherwise. |
| Messaging.TierIndex | src/messaging/messaging.constants.ts:41-44 | The tier index is always within the tiers, for every integer attempt. |
| Messaging.LadderClosedForm | src/messaging/messaging.constants.ts:27-44 | The summed TTL of the first n retries in closed form. |
| Messages.RetryKeepsMeaning | src/consumer/order-consumer.ts:204-224 | Re-serialising an event for a retry keeps its id, type, payload and correlation id. |
| Messages.HopKeepsMeaning | src/dlq/dlq-replay.service.ts:66-84 | So does every hop: redelivery, retry, and death, storage and replay. |
| Messages.LineageKeepsEvent | src/consumer/order-consumer.ts:255-273 | After any sequence of hops the handler is given what the fields of the first message say, with its correlation id if it carried one. |
| Messages.HandledAsTold | src/consumer/order-consumer.ts:104-113 | The event given to the handler, read off the fields of the body. |
| Messages.UsableIff | src/consumer/order-consumer.ts:75-80 | A body has a usable event id if and only if it is a JSON object whose event_id is a non-empty text. |
| Messages.CorrelationIsTheFirstGiven | src/consumer/order-consumer.ts:255-273 | The correlation id is the first of property, header and body field that is given and not empty, else the generated one. |
| Messages.ForeignLettersAreStored | src/consumer/dlq-consumer.ts:40-82 | The row stored for a letter of any origin, with the stand-ins for what is missing or not JSON. |
| Messages.LetterRowOk | src/consumer/order-consumer.ts:275-293 | Round trip: the row the DLQ consumer stores for a letter has the id, correlation id, reason, attempts and body the order consumer put in. |
| Messages.GenuineRowsAreReplayable | src/dlq/dlq-replay.service.ts:156-173 | A genuine row with an event id yields a redrive for that id, and the redrive is a continuation. |
| Transactions.CommitIsAtomic | src/consumer/idempotent-event-processor.ts:80-168 | However statements interleave, a commit acts as the whole transaction run at once on the tables as they are then, with the decision already computed; it leaves its event alone only if it looked for the row in vain. |
| Transactions.InterleavingsAreSerial | src/consumer/idempotent-event-processor.ts:80-168 | Any interleaving of any number of workers' statements, commits and aborts equals its transactions run one at a time in commit order; a transaction that leaves its event alone is preceded by its own look at a moment when the row was missing. |
| Transactions.MissesAreTrue | src/consumer/dlq-consumer.ts:83-89 | A statement finds no event row only when there is none. |
| Transactions.ClaimsAreExact | src/consumer/idempotent-event-processor.ts:81-104 | `claimed` holds exactly when no committed row exists, from the insert to the commit, and the row selected for update is never missing. |
| Transactions.WaitingGoesUp | src/dlq/dlq-replay.service.ts:118-152 | A transaction only waits for one that holds a later kind of lock. |
| Transactions.NoWaitingCircle | src/consumer/dlq-consumer.ts:68-90 | No set of processing, recording and replaying transactions waits in a circle. |
| Transactions.SomeoneCanGoOn | src/consumer/dlq-consumer.ts:68-90 | While a transaction is open, some transaction can make its next statement or commit. |
| Transactions.CommitLeavesKnowledge | src/consumer/idempotent-event-processor.ts:97-101 | What a transaction has read under its locks is still true after another's commit. |
| Transactions.InvKept | src/events/entities/event.entity.ts:16-18 | Every statement keeps locks disjoint and knowledge true. |
| Refinement.HistoriesAreProtocolRuns | src/consumer/idempotent-event-processor.ts:80-168 | However workers interleave their statements, commits and rollbacks with deliveries, publishes, acks, crashes, lost channels that leave the consumer running, expiries and discards, the protocol has a run from the same tables and messages to the same tables, messages, phases and decisions. |
| Refinement.TransactionsAreSteps | src/consumer/dlq-consumer.ts:68-90 | Each turn is one protocol step or none: an ignored insert is an ignore, an update that finds no row is an overlook, a replay that finds none and will commit is a prepare at its look, and a commit is its transaction's step. |
| Refinement.InvKept | src/dlq/dlq-replay.service.ts:118-152 | Every turn keeps the locks, what transactions know, and which message each worker is at. |
| Refinement.WorkersCanGoOn | src/consumer/order-consumer.ts:134-136 | A worker whose transaction can go on or commit can take that turn. |
| Refinement.DiscardUnderAnIgnoredInsert | src/consumer/dlq-consumer.ts:69-82 | A letter discarded between an ignored insert and its commit leaves the event dead without a letter. |
| Refinement.StampsCommute | src/dlq/dlq-replay.service.ts:134-152 | Stamping letters early commutes with recording a letter, with replaying another and with discarding another. |
| Processing.IdempotentEventProcessor.ClaimAndHandle | src/consumer/idempotent-event-processor.ts:76-169 | The statements of the transaction leave exactly the row, and return exactly the decision, of the protocol's atomic decision, and touch no other row. |
| Processing.IdempotentEventProcessor.Process | src/consumer/idempotent-event-processor.ts:47-54 | A failure before the commit leaves no trace. |
| Consuming.OrderConsumer.Handle | src/consumer/order-consumer.ts:70-245 | What one delivery commits, publishes and answers to the broker in every branch: both kinds of database failure, and a publish that is confirmed, lost, or reached its queue and threw. |
| Consuming.OrderConsumer.ToDeadLetter | src/consumer/order-consumer.ts:275-293 | Publishes exactly the letter, and throws unless it is confirmed. |
| Consuming.RejectedMessagesKeepTheirText | src/consumer/order-consumer.ts:76-166 | An unusable message, and one the database rejects, leaves the tables alone and becomes a letter with no attempt and its text as it came: the first without an id, the second under its own and with the database's message as the reason. |
| Consuming.ConsumerFollowsProtocol | src/consumer/order-consumer.ts:70-245 | Whatever the transaction throws and whatever becomes of the publish, the protocol has a run from the delivery to its ack or its requeue that ends with exactly the tables and queued messages of the consumer's contract. |
| DeadLettering.DlqConsumer.Handle | src/consumer/dlq-consumer.ts:40-102 | Letter and status change together or not at all, and what each becomes. |
| DeadLettering.RecordingIsIdempotent | src/events/entities/dlq-message.entity.ts:14-18 | Recording a letter a second time leaves the events alone, and the stored letters if and only if it has a message id. |
| DeadLettering.DlqConsumerFollowsProtocol | src/consumer/dlq-consumer.ts:68-90 | The handler's effect is the protocol's persist step. |
| Replaying.DlqReplayService.Prepare | src/dlq/dlq-replay.service.ts:114-154 | Each refusal in its order, and otherwise the reset event, the stamped letter and the message to publish. |
| Replaying.DlqReplayService.Replay | src/dlq/dlq-replay.service.ts:59-112 | The reset is kept whatever becomes of the publish, and the letter can then be replayed again. |
| Replaying.ReplayFollowsProtocol | src/dlq/dlq-replay.service.ts:59-112 | The service's effect is the protocol's prepare followed by the publish reaching the queue or being lost. |
| Timeouts.WithTimeout.PromiseSettles | src/common/with-timeout.ts:10-19 | The promise's callback disarms the timer and settles only if nothing has settled before, as a race of the publisher does. |
| Timeouts.WithTimeout.TimerFires | src/common/with-timeout.ts:7-9 | The timer rejects only if it is still armed, so never after the promise settled. |
| Publishing.RabbitEventPublisher.Publish | src/webhooks/rabbit-event-publisher.ts:56-60 | A publish registers its token and changes nothing else. |
| Publishing.RabbitEventPublisher.OnReturn | src/webhooks/rabbit-event-publisher.ts:38-47 | A basic.return flips the flag of the call its token names, or does nothing. |
| Publishing.RabbitEventPublisher.Finish | src/webhooks/rabbit-event-publisher.ts:83-94 | The token is forgotten on every way out, and how the call ends. |
| Publishing.TokensAlwaysMatch | src/webhooks/rabbit-event-publisher.ts:56-85 | In every interleaving the map's keys are exactly the tokens of the unfinished calls, each leading to its own. |
| Publishing.CallsAreIsolated | src/webhooks/rabbit-event-publisher.ts:14-17 | A call's state is determined by the events bearing its own name or token; the correlation id plays no part. |
| Publishing.SucceedsIff | src/webhooks/rabbit-event-publisher.ts:78-94 | A publish succeeds if and only if its first callback is the confirm and no return with its token arrived before its code resumed; it is unroutable if and only if such a return did; and it fails with the first callback's error, or as timed out if that is the timer. |
| StageLists.InsertStage | web/src/state/reducer.ts:97-111 | The filter, append and sort compute the stable sort of the list with the event's key replaced. |
| StageLists.SortInPlace | web/src/state/reducer.ts:103-109 | Sorting the array in place yields the stable sort of its contents. |
| StageLists.StableSortProperties | web/src/state/reducer.ts:103-109 | The sort is a sorted permutation. |
| StageLists.SortIsStable | web/src/state/reducer.ts:103-109 | Entries that compare equal keep their order. |
| StageLists.InsertedStageProperties | web/src/state/reducer.ts:97-111 | The new list is sorted, has no repeated key, holds the event, and keeps exactly the entries with other keys. |
| StageLists.ListHoldsTheLast | web/src/state/reducer.ts:97-111 | After any arrivals the list holds for each key the last event that arrived for it, or the entry it had. |
| StageLists.OrderIsIrrelevantIffNoTies | web/src/state/reducer.ts:97-111 | Every order of the same arrivals that agrees key by key gives the same list, if and only if no two arrivals that survive share rank and timestamp. |
| StageLists.ArrivalOrderIsIrrelevant | web/src/state/reducer.ts:97-111 | Two such orders give the same list when no two surviving arrivals tie, whatever ties the list had before. |
| StageLists.TiesShow | web/src/state/reducer.ts:103-109 | For any two surviving arrivals that tie there is an order of the same arrivals with another list. |
| StageLists.TiesOfInsertAll | web/src/state/reducer.ts:97-111 | Entries that tie stand in the order of filtering and appending alone. |
| StageLists.TiesShowTheArrivalOrder | web/src/state/reducer.ts:103-109 | The smallest such case: a processed and a dead stage of one timestamp, in either order. |
| Reducer.HighestIsLast | web/src/state/reducer.ts:113-117 | In a sorted list the highest stage is the last. |
| Reducer.ReduceKeeps | web/src/state/reducer.ts:131-242 | Every action keeps every token in order and never lowers a token's rank, except a reset or a new trigger of that id. |
| Reducer.EveryStateIsOk | web/src/state/reducer.ts:131-242 | After any actions each token's list is non-empty, sorted and free of repeated keys, its current stage is the last, and a token in retry shows the tier of one of its own attempts. |
| Reducer.CurrentByPrecedence | web/src/lib/telemetry.ts:33-47 | The current stage and the terminal flag by the names of the stages a token holds: an outcome over everything, retry over decision over consuming over what the API reported. |
| Reducer.CurrentIsTheLatest | web/src/state/reducer.ts:103-117 | Among outcomes, and among entries of the current stage, the one with the latest timestamp is current. |
| Reducer.StagesAreNeverLost | web/src/state/reducer.ts:97-111 | After any arrivals a list has an entry of a stage if and only if it had one or one arrived. |
| Reducer.OutcomesAreFinal | web/src/state/reducer.ts:113-128 | After any arrivals in any order: a token at which an outcome has arrived is terminal and shows an outcome; without one a retry is current over decisions, a decision over consuming, and the token is not terminal. |
| Reducer.CountdownShown | web/src/state/reducer.ts:217-236 | After any arrivals a token in retry shows the tier of the last retry to arrive, and the end of that queue's TTL counted from its arrival; any other shows a countdown only if the last envelope was a retry. |
| Reducer.FinishedTokensCountDownIffARetryIsLast | web/src/state/reducer.ts:217-236 | A token at which an outcome has arrived is terminal, and shows a countdown if and only if the last envelope to arrive for it is a retry. |
| Reducer.ALateRetryShowsACountdown | web/src/state/reducer.ts:217-223 | The two envelopes that put a countdown on a finished token. |
| Reducer.HttpResultEffects | web/src/state/reducer.ts:153-194 | What an API answer does to the counters, the latencies and its token, and that it leaves every other token, the attempts and the countdown alone. |
| Reducer.HttpResultStages | web/src/state/reducer.ts:153-170 | The stages it adds: signature and publish when published, its own with its status otherwise. |
| Reducer.TriggersStartOver | web/src/state/reducer.ts:132-152 | A trigger starts its token afresh, lists it once more and changes nothing else. |
| Reducer.TiersMatchTheQueues | web/src/state/reducer.ts:81-95 | The page's tiers are those of the broker topology, for every attempt. |
| Reducer.CountersCount | web/src/state/reducer.ts:198-210 | Each counter grows by the number of envelopes of its stage, known token or not. |
| Reducer.StagesAreIndependentIffNoTies | web/src/state/reducer.ts:195-216 | A token's stages are the same for every order of the same envelopes that keeps those of equal id, stage and attempts in order, if and only if no two of its surviving arrivals tie. |
| Reducer.EnvelopeOrderIsIrrelevant | web/src/state/reducer.ts:195-236 | Such orders give the same counters and attempts, and the same stages, current stage and terminal flag for every token whose surviving arrivals do not tie. |
| Pipeline.PathOf | web/src/components/Pipeline.tsx:127-174 | The loop computes the walk. |
| Pipeline.WalkOn | web/src/components/Pipeline.tsx:131-164 | One turn of the loop overwrites the tail's colour or splices in the skipped boxes and pushes. |
| Pipeline.WalksAreSound | web/src/components/Pipeline.tsx:118-126 | For every stage list the path is non-empty, never repeats a box, moves forward on the main row one box at a time, and passes the worker between a retry box and the database. |
| Pipeline.WalkEndsAtLast | web/src/components/Pipeline.tsx:127-174 | The last step is the box and colour of the last stage. |
| Pipeline.WalkEndsInTheStagesBox | web/src/lib/stages.ts:22-87 | Box and colour in which a token stands, by the name of its last stage. |
| Pipeline.TokensVisitTheirOwnBoxes | web/src/components/Pipeline.tsx:127-174 | A path passes the database if and only if some stage is processed, the dead-letter box if and only if some stage is dead, and the retry box of a TTL if and only if the broker routes one of the failed attempts to the queue of that TTL. |
| Pipeline.SuccessWalksTheMainRow | web/src/components/Pipeline.tsx:118-126 | A received, verified, published, consumed, decided and processed token walks the whole main row, each box once and in order. |
| Pipeline.FillersErased | web/src/components/Pipeline.tsx:146-163 | Erasing the filler steps leaves the boxes of the stages without repetitions. |
| Pipeline.FillersInheritTheColor | web/src/components/Pipeline.tsx:118-126 | Every filler step has the colour of the step before it, so the ball changes colour only at a stage. |

## Left out

- Wiring: Nest modules, controllers, DTO validation, Swagger, bootstrap, health checks, configuration parsing, logging, metrics and rate limiting.
- HMAC, SHA-256 and the timing-safe comparison are library cryptography.
- A concrete JSON parser and printer: bodies stand for what parsing them yields, and numbers in them are integers.
- PostgreSQL and RabbitMQ themselves: the model takes atomic commits, row locks, read-committed statements and durable at-least-once queues as given.
- The order of messages within a queue, and prefetch: any message of a queue may be delivered next.
- A dead letter that PostgreSQL refuses for good (for instance an event id longer than its column) is nacked forever; in the model this is an endless series of requeue steps, which `RunsConverge` charges as disturbances.
- `replayed_at`, `created_at` and `updated_at`: the first is a flag, the others are omitted; nothing reads them.
- Wall-clock time: waiting is the sum of nominal TTLs, and a timer is an event that may come at any point.
- The library's sort is an insertion sort here; timestamps are integers ordered as their texts are.
- The telemetry emitter, the WebSocket gateway and the demo handler's scenarios; the handler's outcome is arbitrary.
- `percentile`, `processingMs`, captions, animation, React components, and the token fields that only the page displays (scenario, label, colour, HTTP body, signed request).
