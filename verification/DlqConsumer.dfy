/** The DLQ consumer: persist a dead letter and mark its event, in one transaction. */
module DeadLettering {
  import opened Messages
  import opened Tables
  import opened Store
  import opened Protocol

  class DlqConsumer {
    const db: Database

    constructor (db: Database)
      ensures this.db == db
    {
      this.db := db;
    }

    /** `rid` is the generated row id; `failure` is what the transaction throws, if anything. */
    method Handle(m: DeadMessage, rid: nat, failure: bool) returns (verdict: Verdict)
      requires rid !in db.dlq
      modifies db
      ensures m.body.NullLiteral? ==> verdict == Escaped
      ensures !m.body.NullLiteral? ==> verdict == if failure then Nacked else Acked
      ensures verdict != Acked ==> db.dlq == old(db.dlq) && db.events == old(db.events)
      ensures verdict == Acked ==>
                && db.dlq == InsertLetter(old(db.dlq), rid, RowOf(m))
                && db.events == MarkDead(old(db.events), RowOf(m).eventId)
    {
      if m.body.NullLiteral? {
        return Escaped;
      }
      var row := RowOf(m);
      var savedEvents, savedDlq := db.events, db.dlq;
      if !Recorded(db.dlq, row.messageId) {
        db.dlq := db.dlq[rid := row];
      }
      if row.eventId.Some? && row.eventId.value in db.events {
        var id := row.eventId.value;
        db.events := db.events[id := db.events[id].(status := Dead)];
      }
      if failure {
        db.events, db.dlq := savedEvents, savedDlq;
        return Nacked;
      }
      return Acked;
    }
  }

  /** Recording a letter again leaves the events alone, and the letters too if and only if it has a message id: a letter
      without one is stored again on every redelivery. */
  lemma RecordingIsIdempotent(events: Events, dlq: DeadLetters, rid: nat, rid': nat, m: DeadMessage)
    requires !m.body.NullLiteral? && rid !in dlq && rid' !in InsertLetter(dlq, rid, RowOf(m))
    ensures var dlq' := InsertLetter(dlq, rid, RowOf(m));
            var events' := MarkDead(events, RowOf(m).eventId);
            && (InsertLetter(dlq', rid', RowOf(m)) == dlq' <==> RowOf(m).messageId.Some?)
            && MarkDead(events', RowOf(m).eventId) == events'
  {
    var dlq' := InsertLetter(dlq, rid, RowOf(m));
    if !Recorded(dlq, RowOf(m).messageId) {
      assert dlq'[rid].messageId == RowOf(m).messageId;
    }
  }

  /** The handler's effect is the protocol's persist step. */
  lemma DlqConsumerFollowsProtocol(s: State, k: nat, rid: nat, maxAttempts: nat)
    requires k in s.live && s.live[k].Recording? && !s.live[k].m.body.NullLiteral? && rid !in s.dlq
    ensures var t := Step(s, Persist(k, rid), maxAttempts);
            var row := RowOf(s.live[k].m);
            t.dlq == InsertLetter(s.dlq, rid, row) && t.events == MarkDead(s.events, row.eventId)
  {
  }
}
