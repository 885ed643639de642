/** The mutable world the services work on: the two tables and the broker's queues. */
module Store {
  import opened Tables
  import opened Protocol

  class Database {
    var events: Events
    var dlq: DeadLetters

    constructor ()
      ensures events == map[] && dlq == map[]
    {
      events := map[];
      dlq := map[];
    }
  }

  /** A publish whose confirm never came may or may not have reached its queue. */
  datatype PublishOutcome = Confirmed | Lost | Unconfirmed

  /** Messages at rest in the queues, each tagged with the queue it is in. */
  class Broker {
    var messages: seq<Phase>

    constructor ()
      ensures messages == []
    {
      messages := [];
    }

    /** A publish throws unless it is confirmed. */
    method Publish(message: Phase, outcome: PublishOutcome) returns (ok: bool)
      modifies this
      ensures ok == outcome.Confirmed?
      ensures messages == if outcome.Lost? then old(messages) else old(messages) + [message]
    {
      if !outcome.Lost? {
        messages := messages + [message];
      }
      ok := outcome.Confirmed?;
    }
  }

  /** How a subscriber ends: normally (ack), by asking for a requeue, or by an escaping exception, which requeues. */
  datatype Verdict = Acked | Nacked | Escaped

  datatype Failure = DbFailure(sqlState: string, message: string) | OtherFailure(message: string)

  /** SQLSTATE classes 22 and 23 fail identically on every redelivery, except a unique violation. */
  predicate IsNonRecoverable(f: Failure) {
    f.DbFailure? && ("22" <= f.sqlState || "23" <= f.sqlState) && f.sqlState != "23505"
  }
}
