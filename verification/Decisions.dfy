/** What each transaction does, case by case on the message and on the stored status, in terms of the columns and the
    messages it leaves. */
module Decisions {
  import opened Wrappers
  import opened Messages
  import opened Tables
  import opened Protocol
  import opened Invariants
  import opened Guarantees
  import opened Store

  // ---------- a delivery ----------

  /** `t` is `s` but for the row of `id`. */
  ghost predicate OnlyRow(s: State, t: State, id: string) {
    && t.dlq == s.dlq && id in t.events
    && forall other :: other != id ==>
         && (other in t.events <==> other in s.events)
         && (other in s.events ==> t.events[other] == s.events[other])
  }

  /** The event of a delivery that is one duplicate more, and a message with nothing left to do. */
  ghost predicate CountsDuplicate(row: EventRow, row': EventRow, p: Phase) {
    row' == row.(duplicateCount := row.duplicateCount + 1) && p.Acking?
  }

  /** A run of the handler: one attempt more, and what its answer makes of the row and of the message. */
  ghost predicate RunsHandler(row: EventRow, row': EventRow, p: Phase, outcome: HandlerOutcome, maxAttempts: nat) {
    && row'.attempts == row.attempts + 1
    && row'.eventType == row.eventType && row'.correlationId == row.correlationId && row'.payload == row.payload
    && row'.duplicateCount == row.duplicateCount
    && match outcome
       case Succeeds => row'.status == Processed && row'.failureReason == None && p.Acking?
       case FailsPermanent(reason) =>
         && row'.status == Failed && row'.failureReason == Some(reason)
         && p.Decided? && p.decision == Bury(row.attempts + 1, reason)
       case FailsTransient(reason) =>
         && row'.failureReason == Some(reason) && p.Decided?
         && if row.attempts + 1 < maxAttempts
            then row'.status == Processing && p.decision == Retry(row.attempts + 1)
            else row'.status == Failed && p.decision == Bury(row.attempts + 1, reason)
  }

  /** Everything a delivery can meet: no row (it is claimed and handled), a processed or dead event (a duplicate), a
      failed one (its death is re-emitted), and an unfinished one (handled if the delivery continues it, else a
      duplicate). */
  lemma DeliveriesInEveryState(s: State, k: nat, outcome: HandlerOutcome, generated: string, maxAttempts: nat)
    requires Enabled(s, Commit(k, outcome, generated))
    ensures var d := s.live[k].d;
            var id := EventIdOf(d.body).value;
            var t := Step(s, Commit(k, outcome, generated), maxAttempts);
            && OnlyRow(s, t, id) && k in t.live && (t.live[k].Acking? || t.live[k].Decided?) && t.live[k].d == d
            && if id !in s.events then Claims(d, generated, t.events[id], t.live[k], outcome, maxAttempts)
               else
                 var row := s.events[id];
                 if row.status == Processed || row.status == Dead then CountsDuplicate(row, t.events[id], t.live[k])
                 else if row.status == Failed then
                   && t.events[id] == row && t.live[k].Decided?
                   && t.live[k].decision.Bury? && t.live[k].decision.attempts == row.attempts
                   && t.live[k].decision.reason ==
                        (if row.failureReason.Some? then row.failureReason.value else "previously failed")
                 else if d.attemptHeader.Some? || d.redelivered then
                   RunsHandler(row, t.events[id], t.live[k], outcome, maxAttempts)
                 else CountsDuplicate(row, t.events[id], t.live[k])
  {
    HandledAsTold(s.live[k].d, CorrelationOf(s.live[k].d, generated));
  }

  /** What the consumer is told agrees with what is stored: the attempts of the row, the reason of its failure, and
      success, retry or death exactly as the row's status says; a duplicate leaves all of them alone. */
  lemma AnswersAgreeWithTheRow(row: EventRow, claimed: bool, continuation: bool, maxAttempts: nat,
                               outcome: HandlerOutcome)
    ensures var (row', answer) := Decide(row, claimed, continuation, maxAttempts, outcome);
            && answer.attempts == row'.attempts
            && (answer.Handled? ==> row'.status == Processed)
            && (answer.Retry? ==> row'.status == Processing && answer.attempts < maxAttempts)
            && (answer.Bury? <==> row'.status == Failed)
            && (answer.Bury? && row'.failureReason.Some? ==> answer.reason == row'.failureReason.value)
            && (answer.Duplicate? ==> row'.status == row.status && row'.attempts == row.attempts
                                      && row'.failureReason == row.failureReason)
  {
  }

  /** A claim writes what the message tells and makes the first attempt. */
  ghost predicate Claims(d: Delivery, generated: string, row: EventRow, p: Phase, outcome: HandlerOutcome,
                         maxAttempts: nat)
  {
    && EventIdOf(d.body).Some? && Tells(d.body, EventIdOf(d.body).value, row.eventType, row.payload)
    && row.correlationId == CorrelationOf(d, generated)
    && RunsHandler(row.(status := Received, attempts := 0, failureReason := None, duplicateCount := 0), row, p, outcome,
                   maxAttempts)
  }

  /** The whole budget is used: a transient failure is final exactly when it is the last run the budget allows since the
      claim or the last replay; before that the event goes on to its next retry. */
  lemma TransientFailuresAreFinalAtTheLimit(s: State, k: nat, reason: string, generated: string, maxAttempts: nat)
    requires maxAttempts >= 1 && Reachable(s, maxAttempts)
    requires Enabled(s, Commit(k, FailsTransient(reason), generated))
    requires var id := EventIdOf(s.live[k].d.body).value;
             TallyOf(Step(s, Commit(k, FailsTransient(reason), generated), maxAttempts), id).runs > TallyOf(s, id).runs
    ensures var id := EventIdOf(s.live[k].d.body).value;
            var t := Step(s, Commit(k, FailsTransient(reason), generated), maxAttempts);
            && (t.events[id].status == Failed <==> TallyOf(t, id).sinceReset == maxAttempts)
            && (t.events[id].status != Failed <==> TallyOf(t, id).sinceReset < maxAttempts)
            && (t.events[id].status == Failed ==> t.live[k].Decided? && t.live[k].decision.Bury?)
            && (t.events[id].status != Failed ==>
                  t.events[id].status == Processing && t.live[k].Decided?
                  && t.live[k].decision == Retry(TallyOf(t, id).sinceReset))
  {
    var id := EventIdOf(s.live[k].d.body).value;
    var l := Commit(k, FailsTransient(reason), generated);
    RetryBudget(s, id, maxAttempts);
    DeliveriesInEveryState(s, k, FailsTransient(reason), generated, maxAttempts);
    NextBudget(s, l, maxAttempts, id);
    RunsOnlyWhenHandled(s, k, FailsTransient(reason), generated, maxAttempts);
  }

  lemma NextBudget(s: State, l: Label, maxAttempts: nat, id: string)
    requires maxAttempts >= 1 && Reachable(s, maxAttempts) && Enabled(s, l)
    ensures var t := Step(s, l, maxAttempts);
            id in t.events ==> t.events[id].attempts == TallyOf(t, id).sinceReset <= maxAttempts
  {
    ReachableInv(s, maxAttempts);
    InvKept(s, l, maxAttempts);
    assert PerId(Step(s, l, maxAttempts), id, maxAttempts);
  }

  /** The handler's runs are counted exactly when it runs. */
  lemma RunsOnlyWhenHandled(s: State, k: nat, outcome: HandlerOutcome, generated: string, maxAttempts: nat)
    requires Enabled(s, Commit(k, outcome, generated))
    ensures var d := s.live[k].d;
            var id := EventIdOf(d.body).value;
            var t := Step(s, Commit(k, outcome, generated), maxAttempts);
            TallyOf(t, id).runs == TallyOf(s, id).runs
              + (if id !in s.events || ((s.events[id].status == Received || s.events[id].status == Processing)
                                        && (d.attemptHeader.Some? || d.redelivered)) then 1 else 0)
  {
  }

  // ---------- a replay ----------

  /** Each answer of a replay, by what is stored: which refusal, and otherwise the message to publish. */
  lemma ReplayAnswers(events: Events, dlq: DeadLetters, rid: nat)
    ensures var answer := ReplayOf(events, dlq, rid);
            if rid !in dlq then answer == Refused(NotFound)
            else if dlq[rid].eventId == None || dlq[rid].eventId == Some("") then answer == Refused(NoEventId)
            else if !(dlq[rid].payload.Parses? && dlq[rid].payload.value.Object?) then answer == Refused(NotTheOriginal)
            else
              var id, row := dlq[rid].eventId.value, dlq[rid];
              if id in events && (events[id].status == Processing || events[id].status == Processed)
              then answer == Refused(NotInAReplayableState(events[id].status))
              else answer == Prepared(Delivery(row.payload, Some(row.correlationId), Some(row.correlationId), Some(0),
                                               false))
  {
  }

  /** A replay gives its event a fresh budget and leaves everything else; an event that is being retried or is processed
      is never touched. */
  lemma ReplayResets(s: State, rid: nat, k: nat, maxAttempts: nat)
    requires Enabled(s, Prepare(rid, k))
    ensures var id := s.dlq[rid].eventId.value;
            var t := Step(s, Prepare(rid, k), maxAttempts);
            && t.events.Keys == s.events.Keys
            && (forall other :: other in s.events && other != id ==> t.events[other] == s.events[other])
            && (id in s.events ==>
                  && (s.events[id].status == Dead || s.events[id].status == Failed || s.events[id].status == Received)
                  && t.events[id] == s.events[id].(status := Received, attempts := 0, failureReason := None))
            && t.dlq == s.dlq[rid := s.dlq[rid].(replayed := true)]
    ensures forall id :: id in s.events && (s.events[id].status == Processing || s.events[id].status == Processed) ==>
              Step(s, Prepare(rid, k), maxAttempts).events[id] == s.events[id]
  {
    ReplayAnswers(s.events, s.dlq, rid);
  }

  // ---------- a dead letter ----------

  /** Recording a letter marks its event dead, keeps the event's other columns and every other event, and stores the
      letter unless one with its message id is there. */
  lemma LettersMark(s: State, k: nat, rid: nat, maxAttempts: nat)
    requires Enabled(s, Persist(k, rid)) && s.live[k].Recording?
    ensures var row := RowOf(s.live[k].m);
            var t := Step(s, Persist(k, rid), maxAttempts);
            && t.events.Keys == s.events.Keys
            && (forall id :: id in s.events ==>
                  t.events[id] == if row.eventId == Some(id) then s.events[id].(status := Dead) else s.events[id])
            && (if row.messageId.Some? && exists r :: r in s.dlq && s.dlq[r].messageId == row.messageId
                then t.dlq == s.dlq else t.dlq == s.dlq[rid := row])
  {
  }

  // ---------- a database failure ----------

  /** A failed transaction is dead-lettered for SQLSTATE classes 22 and 23 but a unique violation; any other failure is
      handed back. */
  lemma NonRecoverableCodes(f: Failure)
    ensures IsNonRecoverable(f) <==>
              && f.DbFailure? && |f.sqlState| >= 2 && f.sqlState[0] == '2'
              && (f.sqlState[1] == '2' || f.sqlState[1] == '3') && f.sqlState != "23505"
    ensures IsNonRecoverable(DbFailure("22001", "value too long"))
    ensures IsNonRecoverable(DbFailure("23502", "null value"))
    ensures !IsNonRecoverable(DbFailure("23505", "duplicate key"))
    ensures !IsNonRecoverable(DbFailure("40P01", "deadlock detected"))
  {
    assert "40P01"[0] == '4' && "22"[0] == '2' && "23"[0] == '2';
    assert f.DbFailure? && |f.sqlState| >= 2 ==> f.sqlState[..2] == [f.sqlState[0], f.sqlState[1]];
  }
}
