/** The two tables, and what each committed transaction does to them. */
module Tables {
  import opened Wrappers
  import opened Messages

  datatype Status = Received | Processing | Processed | Failed | Dead

  datatype EventRow = EventRow(
    eventType: string,
    correlationId: string,
    payload: Json,
    status: Status,
    attempts: nat,
    duplicateCount: nat,
    failureReason: Option<string>)

  datatype HandlerOutcome = Succeeds | FailsTransient(reason: string) | FailsPermanent(reason: string)

  datatype Decision =
    | Handled(attempts: nat)
    | Duplicate(attempts: nat)
    | Retry(attempts: nat)
    | Bury(attempts: nat, reason: string)

  type Events = map<string, EventRow>
  type DeadLetters = map<nat, DlqRow>

  predicate Settled(status: Status) {
    status == Processed || status == Dead
  }

  predicate Replayable(status: Status) {
    status == Dead || status == Failed || status == Received
  }

  function FreshRow(event: HandledEvent): EventRow {
    EventRow(event.eventType, event.correlationId, event.payload, Received, 0, 0, None)
  }

  /** The row the transaction locks: the committed one, or the one its own insert claimed. */
  function LockedRow(events: Events, event: HandledEvent): EventRow {
    if event.eventId in events then events[event.eventId] else FreshRow(event)
  }

  /** Whether the handler runs at all, given the locked row. */
  predicate HandlerRuns(row: EventRow, claimed: bool, continuation: bool) {
    !Settled(row.status) && row.status != Failed && (claimed || continuation)
  }

  /** The processing transaction, as one decision on the locked row. */
  function Decide(row: EventRow, claimed: bool, continuation: bool, maxAttempts: nat, outcome: HandlerOutcome)
    : (EventRow, Decision)
  {
    if row.status == Failed then
      (row, Bury(row.attempts, GetOr(row.failureReason, "previously failed")))
    else if !HandlerRuns(row, claimed, continuation) then
      (row.(duplicateCount := row.duplicateCount + 1), Duplicate(row.attempts))
    else
      var attempts := row.attempts + 1;
      match outcome
      case Succeeds =>
        (row.(status := Processed, attempts := attempts, failureReason := None), Handled(attempts))
      case FailsPermanent(reason) =>
        (row.(status := Failed, attempts := attempts, failureReason := Some(reason)), Bury(attempts, reason))
      case FailsTransient(reason) =>
        if attempts >= maxAttempts then
          (row.(status := Failed, attempts := attempts, failureReason := Some(reason)), Bury(attempts, reason))
        else
          (row.(status := Processing, attempts := attempts, failureReason := Some(reason)), Retry(attempts))
  }

  function ProcessRow(events: Events, event: HandledEvent, continuation: bool, maxAttempts: nat,
                      outcome: HandlerOutcome): (EventRow, Decision)
  {
    Decide(LockedRow(events, event), event.eventId !in events, continuation, maxAttempts, outcome)
  }

  predicate Recorded(dlq: DeadLetters, messageId: Option<string>) {
    messageId.Some? && exists rid :: rid in dlq && dlq[rid].messageId == messageId
  }

  /** Insert-or-ignore on the unique message id; rows without one never collide. */
  function InsertLetter(dlq: DeadLetters, rid: nat, row: DlqRow): DeadLetters {
    if Recorded(dlq, row.messageId) then dlq else dlq[rid := row]
  }

  function MarkDead(events: Events, eventId: Option<string>): Events {
    if eventId.Some? && eventId.value in events
    then events[eventId.value := events[eventId.value].(status := Dead)]
    else events
  }

  datatype ReplayRefusal = NotFound | NoEventId | NotTheOriginal | NotInAReplayableState(status: Status)
  datatype Prepared = Prepared(redrive: Delivery) | Refused(refusal: ReplayRefusal)

  /** Whether a replay of row `rid` may start, and the message it will publish. */
  function ReplayOf(events: Events, dlq: DeadLetters, rid: nat): Prepared {
    if rid !in dlq then Refused(NotFound)
    else if NonEmpty(dlq[rid].eventId).None? then Refused(NoEventId)
    else
      match RedriveOf(dlq[rid])
      case None => Refused(NotTheOriginal)
      case Some(redrive) =>
        var id := dlq[rid].eventId.value;
        if id in events && !Replayable(events[id].status) then Refused(NotInAReplayableState(events[id].status))
        else Prepared(redrive)
  }

  function ResetForReplay(events: Events, id: string): Events {
    if id in events
    then events[id := events[id].(status := Received, attempts := 0, failureReason := None)]
    else events
  }
}
