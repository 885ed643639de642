/** Replay: reset the event, then republish the stored message. */
module Replaying {
  import opened Wrappers
  import opened Messages
  import opened Tables
  import opened Store
  import opened Protocol

  datatype Replay = Receipt(eventId: string, correlationId: string) | Refusal(refusal: ReplayRefusal) | Unavailable

  class DlqReplayService {
    const db: Database
    const broker: Broker

    constructor (db: Database, broker: Broker)
      ensures this.db == db && this.broker == broker
    {
      this.db := db;
      this.broker := broker;
    }

    /** The transaction: lock the letter, check it, lock and reset its event, stamp the letter. */
    method Prepare(rid: nat) returns (prepared: Prepared)
      modifies db
      ensures prepared == ReplayOf(old(db.events), old(db.dlq), rid)
      ensures prepared.Refused? ==> db.events == old(db.events) && db.dlq == old(db.dlq)
      ensures prepared.Prepared? ==>
                && db.events == ResetForReplay(old(db.events), old(db.dlq)[rid].eventId.value)
                && db.dlq == old(db.dlq)[rid := old(db.dlq)[rid].(replayed := true)]
    {
      if rid !in db.dlq {
        return Refused(NotFound);
      }
      var dead := db.dlq[rid];
      if NonEmpty(dead.eventId).None? {
        return Refused(NoEventId);
      }
      var body := RedriveOf(dead);
      if body.None? {
        return Refused(NotTheOriginal);
      }
      var id := dead.eventId.value;
      if id in db.events && !Replayable(db.events[id].status) {
        return Refused(NotInAReplayableState(db.events[id].status));
      }
      if id in db.events {
        db.events := db.events[id := db.events[id].(status := Received, attempts := 0, failureReason := None)];
      }
      db.dlq := db.dlq[rid := dead.(replayed := true)];
      return Prepared(body.value);
    }

    /** The reset is committed before the publish, so a lost publish leaves the event replayable. */
    method Replay(rid: nat, publish: PublishOutcome) returns (result: Replay)
      modifies db, broker
      ensures var was := ReplayOf(old(db.events), old(db.dlq), rid);
              match was
              case Refused(refusal) =>
                && result == Refusal(refusal) && broker.messages == old(broker.messages)
                && db.events == old(db.events) && db.dlq == old(db.dlq)
              case Prepared(redrive) =>
                var row := old(db.dlq)[rid];
                && result == (if publish.Confirmed? then Receipt(row.eventId.value, row.correlationId) else Unavailable)
                && broker.messages == old(broker.messages) + (if publish.Lost? then [] else [Queued(redrive)])
                && db.dlq == old(db.dlq)[rid := row.(replayed := true)]
                && db.events == ResetForReplay(old(db.events), row.eventId.value)
                && ReplayOf(db.events, db.dlq, rid) == was
    {
      var prepared := Prepare(rid);
      if prepared.Refused? {
        return Refusal(prepared.refusal);
      }
      var dead := db.dlq[rid];
      var _ := broker.Publish(Queued(prepared.redrive), publish);
      if !publish.Confirmed? {
        return Unavailable;
      }
      return Receipt(dead.eventId.value, dead.correlationId);
    }
  }

  /** The service's effect is the protocol's: prepare, then the publish reached the queue or was lost. */
  lemma ReplayFollowsProtocol(s: State, rid: nat, k: nat, lost: bool, maxAttempts: nat)
    requires ReplayOf(s.events, s.dlq, rid).Prepared? && k !in s.live
    ensures var last := if lost then RedriveLost(k) else Redriven(k);
            && Enabled(s, Prepare(rid, k)) && Enabled(Step(s, Prepare(rid, k), maxAttempts), last)
            && var t := Step(Step(s, Prepare(rid, k), maxAttempts), last, maxAttempts);
               && t.events == ResetForReplay(s.events, s.dlq[rid].eventId.value)
               && t.dlq == s.dlq[rid := s.dlq[rid].(replayed := true)]
               && t.live == if lost then s.live else s.live[k := Queued(ReplayOf(s.events, s.dlq, rid).redrive)]
  {
    var s' := Step(s, Prepare(rid, k), maxAttempts);
    assert s'.live - {k} == s.live;
  }
}
