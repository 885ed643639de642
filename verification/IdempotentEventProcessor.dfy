/** The processing transaction, statement by statement. */
module Processing {
  import opened Wrappers
  import opened Messages
  import opened Tables
  import opened Store

  datatype Result = Committed(decision: Decision) | RolledBack(failure: Failure)

  class IdempotentEventProcessor {
    const db: Database
    const maxAttempts: nat
    const handler: (HandledEvent, nat) -> HandlerOutcome

    constructor (db: Database, maxAttempts: nat, handler: (HandledEvent, nat) -> HandlerOutcome)
      ensures this.db == db && this.maxAttempts == maxAttempts && this.handler == handler
    {
      this.db := db;
      this.maxAttempts := maxAttempts;
      this.handler := handler;
    }

    /** What the handler answers on the attempt this transaction would make. */
    ghost function Answer(events: Events, event: HandledEvent): HandlerOutcome {
      handler(event, LockedRow(events, event).attempts + 1)
    }

    method ClaimAndHandle(event: HandledEvent, isContinuation: bool) returns (decision: Decision)
      modifies db`events
      ensures var (row, d) := ProcessRow(old(db.events), event, isContinuation, maxAttempts,
                                         Answer(old(db.events), event));
              decision == d && db.events == old(db.events)[event.eventId := row]
    {
      var id := event.eventId;
      var claimed := id !in db.events;
      if claimed {
        db.events := db.events[id := FreshRow(event)];
      }
      var row := db.events[id];
      if Settled(row.status) {
        db.events := db.events[id := row.(duplicateCount := row.duplicateCount + 1)];
        return Duplicate(row.attempts);
      }
      if row.status == Failed {
        return Bury(row.attempts, GetOr(row.failureReason, "previously failed"));
      }
      if !claimed && !isContinuation {
        db.events := db.events[id := row.(duplicateCount := row.duplicateCount + 1)];
        return Duplicate(row.attempts);
      }
      var attempts := row.attempts + 1;
      db.events := db.events[id := row.(status := Status.Processing, attempts := attempts)];
      var outcome := handler(event, attempts);
      if !outcome.Succeeds? {
        if outcome.FailsPermanent? || attempts >= maxAttempts {
          db.events := db.events[id := db.events[id].(status := Failed, failureReason := Some(outcome.reason))];
          return Bury(attempts, outcome.reason);
        }
        db.events := db.events[id := db.events[id].(failureReason := Some(outcome.reason))];
        return Retry(attempts);
      }
      db.events := db.events[id := db.events[id].(status := Processed, failureReason := None)];
      return Handled(attempts);
    }

    /** The transaction around it: a failure anywhere before the commit leaves no trace. */
    method Process(event: HandledEvent, isContinuation: bool, failure: Option<Failure>) returns (result: Result)
      modifies db`events
      ensures failure.Some? ==> result == RolledBack(failure.value) && db.events == old(db.events)
      ensures failure.None? ==>
                var (row, d) := ProcessRow(old(db.events), event, isContinuation, maxAttempts,
                                           Answer(old(db.events), event));
                result == Committed(d) && db.events == old(db.events)[event.eventId := row]
    {
      var saved := db.events;
      var decision := ClaimAndHandle(event, isContinuation);
      if failure.Some? {
        db.events := saved;
        return RolledBack(failure.value);
      }
      return Committed(decision);
    }
  }
}
