/** The safety guarantees of the protocol, for every reachable state. */
module Guarantees {
  import opened Wrappers
  import opened Messages
  import opened Tables
  import opened Protocol
  import opened Invariants

  /** No event is ever stranded: whatever crashed, was lost or was replayed, an unfinished row has a message
      on its way that will finish it, a dead or reset row still has the dead letter it can be replayed from, and a reset
      row is waited for by a message unless its redrive was lost. */
  lemma NoEventIsStranded(s: State, id: string, maxAttempts: nat)
    requires maxAttempts >= 1 && Reachable(s, maxAttempts) && id in s.events
    ensures s.events[id].status == Processing ==>
              exists k :: k in s.live && (Is(s.live[k], id, Continuing) || Is(s.live[k], id, Dying))
    ensures s.events[id].status == Failed ==>
              exists k :: k in s.live && (Is(s.live[k], id, Returning) || Is(s.live[k], id, Dying))
    ensures (s.events[id].status == Received || s.events[id].status == Dead) && id !in s.discarded ==>
              exists rid :: rid in s.dlq && s.dlq[rid].eventId == Some(id)
    ensures s.events[id].status == Received && TallyOf(s, id).lost == 0 ==>
              exists k :: k in s.live
                && (Is(s.live[k], id, Redriving) || Is(s.live[k], id, Continuing) || Is(s.live[k], id, Dying))
  {
    ReachableInv(s, maxAttempts);
    assert PerId(s, id, maxAttempts);
    forall role: Role | role != Living && role != Outstanding && Has(s, id, role)
      ensures exists k :: k in s.live && Is(s.live[k], id, role)
    {
    }
  }

  /** An id that once reached the work queue is never forgotten, unless an operator discards its dead letter. */
  lemma AcceptedIdsAreConserved(s: State, id: string, maxAttempts: nat)
    requires maxAttempts >= 1 && Reachable(s, maxAttempts) && id in s.accepted && id !in s.discarded
    ensures id in s.events || Has(s, id, Living) || HasRow(s.dlq, id)
  {
    ReachableInv(s, maxAttempts);
    assert PerId(s, id, maxAttempts);
  }

  /** The handler never commits more than maxAttempts runs per claim or replay, however many copies are in
      flight; the attempts column counts exactly the runs since then. */
  lemma RetryBudget(s: State, id: string, maxAttempts: nat)
    requires maxAttempts >= 1 && Reachable(s, maxAttempts)
    ensures TallyOf(s, id).runs <= maxAttempts * (1 + TallyOf(s, id).resets)
    ensures id in s.events ==>
              var row := s.events[id];
              && row.attempts == TallyOf(s, id).sinceReset <= maxAttempts
              && (row.status == Received ==> row.attempts == 0)
              && (row.status == Processing ==> 1 <= row.attempts < maxAttempts)
              && (row.status == Failed || row.status == Processed ==> 1 <= row.attempts)
  {
    ReachableInv(s, maxAttempts);
    assert PerId(s, id, maxAttempts);
    var resets := TallyOf(s, id).resets;
    assert maxAttempts * (1 + resets) == maxAttempts * resets + maxAttempts;
  }

  /** Effects are conserved: each committed transition to processed is the row's present state or was
      overwritten by a dead letter that marked the processed row dead. */
  lemma EffectsAreAccountedFor(s: State, id: string, maxAttempts: nat)
    requires maxAttempts >= 1 && Reachable(s, maxAttempts)
    ensures TallyOf(s, id).effects
         == (if id in s.events && s.events[id].status == Processed then 1 else 0) + TallyOf(s, id).overwrites
  {
    ReachableInv(s, maxAttempts);
    assert PerId(s, id, maxAttempts);
  }

  /** Every dead letter filed under an event id stores the message that died, is the only one for that id, and can be
      turned back into a message for that id as long as its event is not being processed or processed; the refusal for a
      corrupted payload is never given. */
  lemma StoredLettersAreReplayable(s: State, rid: nat, maxAttempts: nat)
    requires maxAttempts >= 1 && Reachable(s, maxAttempts) && rid in s.dlq
    ensures s.dlq[rid].messageId == s.dlq[rid].eventId
    ensures s.dlq[rid].eventId.Some? ==>
              && EventIdOf(s.dlq[rid].payload) == s.dlq[rid].eventId
              && (forall other :: other in s.dlq && s.dlq[other].eventId == s.dlq[rid].eventId ==> other == rid)
              && var id := s.dlq[rid].eventId.value;
                 && (ReplayOf(s.events, s.dlq, rid).Prepared? <==>
                       id !in s.events || s.events[id].status == Dead || s.events[id].status == Failed
                       || s.events[id].status == Received)
                 && (id in s.events && (s.events[id].status == Processing || s.events[id].status == Processed) ==>
                       ReplayOf(s.events, s.dlq, rid) == Refused(NotInAReplayableState(s.events[id].status)))
    ensures s.dlq[rid].eventId.None? ==> ReplayOf(s.events, s.dlq, rid) == Refused(NoEventId)
  {
    ReachableInv(s, maxAttempts);
    assert RowOk(s.dlq[rid]);
    if s.dlq[rid].eventId.Some? {
      forall other | other in s.dlq && s.dlq[other].eventId == s.dlq[rid].eventId ensures other == rid {
        assert RowOk(s.dlq[other]);
      }
    }
  }

  /** The handler is only ever given what the fields of some producer's message say: its id, type and payload, and its
      correlation id whenever it carries one. */
  lemma HandlerHearsOnlyProducers(s: State, k: nat, outcome: HandlerOutcome, generated: string, maxAttempts: nat)
    requires maxAttempts >= 1 && Reachable(s, maxAttempts) && Enabled(s, Commit(k, outcome, generated))
    ensures var event := EventOf(s.live[k].d, CorrelationOf(s.live[k].d, generated));
            exists said :: said in s.inputs && Tells(said.body, event.eventId, event.eventType, event.payload)
              && forall other :: CarriedCorrelation(said).Some? ==> CorrelationOf(said, other) == event.correlationId
  {
    ReachableInv(s, maxAttempts);
    assert PhaseSaid(s.inputs, s.live[k]);
    var said :| said in s.inputs && EventIdOf(said.body).Some? && Descends(MeaningOf(s.live[k].d), MeaningOf(said));
    HandledAsTold(said, "");
  }

  /** Every event row holds what the fields of some producer's message say, under that message's correlation id whenever
      it carries one. */
  lemma RowsHoldProducersWords(s: State, id: string, maxAttempts: nat)
    requires maxAttempts >= 1 && Reachable(s, maxAttempts) && id in s.events
    ensures exists said :: said in s.inputs && Tells(said.body, id, s.events[id].eventType, s.events[id].payload)
              && forall other :: CarriedCorrelation(said).Some? ==>
                   CorrelationOf(said, other) == s.events[id].correlationId
  {
    ReachableInv(s, maxAttempts);
    var row := s.events[id];
    var m := Meaning(id, row.eventType, row.payload, Some(row.correlationId));
    assert EventSaid(s.inputs, id, row);
    var said :| said in s.inputs && EventIdOf(said.body).Some? && Descends(m, MeaningOf(said));
    HandledAsTold(said, "");
  }

  // ---------- at most once ----------

  ghost predicate FailedOrDead(s: State, id: string) {
    id in s.events && (s.events[id].status == Failed || s.events[id].status == Dead)
  }

  /** A step that keeps `id` exactly-once: no database rejection of it unless it has failed or died already, and no
      replay of it while a dead letter for it may still be recorded. */
  ghost predicate Guards(s: State, l: Label, id: string)
    requires Enabled(s, l)
  {
    && (l.DbError? && EventIdOf(s.live[l.k].d.body) == Some(id) ==> FailedOrDead(s, id))
    && (l.Prepare? && s.dlq[l.rid].eventId == Some(id) ==> !Has(s, id, Outstanding))
  }

  ghost predicate Guarded(s: State, ls: seq<Label>, id: string, maxAttempts: nat)
    requires Runs(s, ls, maxAttempts)
    decreases |ls|
  {
    ls == [] || (Guards(s, ls[0], id) && Guarded(Step(s, ls[0], maxAttempts), ls[1..], id, maxAttempts))
  }

  /** Every dead letter that may still be recorded finds its event failed or dead. */
  ghost predicate LettersFindTheFailed(s: State, id: string) {
    Has(s, id, Outstanding) ==> FailedOrDead(s, id)
  }

  lemma MovedLetterWasOutstanding(s: State, l: Label, maxAttempts: nat, id: string)
    requires Shape(s) && Enabled(s, l) && Guards(s, l, id) && !l.Commit?
    requires Has(Step(s, l, maxAttempts), id, Outstanding)
    ensures Has(s, id, Outstanding) || (l.DbError? && FailedOrDead(s, id))
  {
    var s' := Step(s, l, maxAttempts);
    var k :| k in s'.live && Is(s'.live[k], id, Outstanding);
    if (l.Send? || l.HandBack?) && k == l.k' {
      SentLetterWasOutstanding(s, l, maxAttempts, id);
    } else if !l.DbError? || k != l.k {
      assert k in s.live && Is(s.live[k], id, Outstanding);
    }
  }

  lemma SentLetterWasOutstanding(s: State, l: Label, maxAttempts: nat, id: string)
    requires Shape(s) && Enabled(s, l) && (l.Send? || l.HandBack?)
    requires l.k' in Step(s, l, maxAttempts).live && Is(Step(s, l, maxAttempts).live[l.k'], id, Outstanding)
    ensures Is(s.live[l.k], id, Outstanding)
  {
    if l.Send? {
      SendMakes(s, l.k, l.k');
    }
  }

  lemma MarkersAreOutstanding(s: State, l: Label, id: string)
    requires Enabled(s, l)
    ensures l.Persist? && Touches(s, l, id) ==> Has(s, id, Outstanding)
  {
    if l.Persist? && Touches(s, l, id) {
      assert Is(s.live[l.k], id, Outstanding);
    }
  }

  /** A commit that leaves a dead letter to publish leaves its event failed. */
  lemma CommitsFindTheFailed(s: State, l: Label, maxAttempts: nat, id: string)
    requires Enabled(s, l) && l.Commit? && LettersFindTheFailed(s, id)
    ensures LettersFindTheFailed(Step(s, l, maxAttempts), id)
  {
    var s' := Step(s, l, maxAttempts);
    if Has(s', id, Outstanding) {
      var k :| k in s'.live && Is(s'.live[k], id, Outstanding);
      if k != l.k {
        assert Is(s.live[k], id, Outstanding);
      }
    }
  }

  lemma OnlyMarkersOverwrite(s: State, l: Label, maxAttempts: nat, id: string)
    requires Enabled(s, l) && LettersFindTheFailed(s, id)
    ensures TallyOf(Step(s, l, maxAttempts), id).overwrites == TallyOf(s, id).overwrites
  {
    MarkersAreOutstanding(s, l, id);
  }

  /** No other step revives a failed or dead event, except a replay. */
  lemma FailedStaysFailed(s: State, l: Label, maxAttempts: nat, id: string)
    requires Enabled(s, l) && !l.Commit? && FailedOrDead(s, id) && !(l.Prepare? && s.dlq[l.rid].eventId == Some(id))
    ensures FailedOrDead(Step(s, l, maxAttempts), id)
  {
  }

  lemma LettersFindTheFailedKept(s: State, l: Label, maxAttempts: nat, id: string)
    requires Shape(s) && Enabled(s, l) && Guards(s, l, id) && LettersFindTheFailed(s, id)
    ensures LettersFindTheFailed(Step(s, l, maxAttempts), id)
    ensures TallyOf(Step(s, l, maxAttempts), id).overwrites == TallyOf(s, id).overwrites
  {
    OnlyMarkersOverwrite(s, l, maxAttempts, id);
    if l.Commit? {
      CommitsFindTheFailed(s, l, maxAttempts, id);
    } else if Has(Step(s, l, maxAttempts), id, Outstanding) {
      MovedLetterWasOutstanding(s, l, maxAttempts, id);
      FailedStaysFailed(s, l, maxAttempts, id);
    }
  }

  lemma {:induction false} GuardedRunsNeverOverwrite(s: State, ls: seq<Label>, id: string, maxAttempts: nat)
    requires Shape(s) && Runs(s, ls, maxAttempts) && Guarded(s, ls, id, maxAttempts) && LettersFindTheFailed(s, id)
    ensures LettersFindTheFailed(After(s, ls, maxAttempts), id)
    ensures TallyOf(After(s, ls, maxAttempts), id).overwrites == TallyOf(s, id).overwrites
    decreases |ls|
  {
    if ls != [] {
      ShapeKept(s, ls[0], maxAttempts);
      LettersFindTheFailedKept(s, ls[0], maxAttempts, id);
      GuardedRunsNeverOverwrite(Step(s, ls[0], maxAttempts), ls[1..], id, maxAttempts);
    }
  }

  /** In guarded runs an event takes effect at most once, through any crashes, duplicates, retries and replays,
      and a processed event stays processed. */
  lemma AtMostOnce(ls: seq<Label>, id: string, maxAttempts: nat)
    requires maxAttempts >= 1 && Runs(INIT, ls, maxAttempts) && Guarded(INIT, ls, id, maxAttempts)
    ensures var s := After(INIT, ls, maxAttempts);
            && TallyOf(s, id).effects == (if id in s.events && s.events[id].status == Processed then 1 else 0)
            && (Has(s, id, Outstanding) ==> FailedOrDead(s, id))
  {
    GuardedRunsNeverOverwrite(INIT, ls, id, maxAttempts);
    EffectsAreAccountedFor(After(INIT, ls, maxAttempts), id, maxAttempts);
  }

  lemma {:induction false} SettledStaysSettled(s: State, ls: seq<Label>, id: string, maxAttempts: nat)
    requires Shape(s) && Runs(s, ls, maxAttempts) && Guarded(s, ls, id, maxAttempts) && LettersFindTheFailed(s, id)
    requires id in s.events && s.events[id].status == Processed
    ensures var t := After(s, ls, maxAttempts); id in t.events && t.events[id].status == Processed
    decreases |ls|
  {
    if ls != [] {
      ShapeKept(s, ls[0], maxAttempts);
      LettersFindTheFailedKept(s, ls[0], maxAttempts, id);
      MarkersAreOutstanding(s, ls[0], id);
      SettledStaysSettled(Step(s, ls[0], maxAttempts), ls[1..], id, maxAttempts);
    }
  }
}
