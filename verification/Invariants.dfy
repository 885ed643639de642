/** What every step keeps, and therefore what holds in every reachable state of the protocol. */
module Invariants {
  import opened Wrappers
  import opened Messaging
  import opened Messages
  import opened Tables
  import opened Protocol

  // ---------- the shape of what is in flight and of what is stored ----------

  ghost predicate PhaseOk(p: Phase) {
    match p
    case Decided(d, correlation, decision) =>
      && correlation != ""
      && (CarriedCorrelation(d).Some? ==> CarriedCorrelation(d) == Some(correlation))
      && (decision.Bury? || (decision.Retry? && decision.attempts >= 1 && EventIdOf(d.body).Some?))
    case Waiting(d, tier) => EventIdOf(d.body).Some? && d.attemptHeader.Some? && tier < |RETRY_TIERS|
    case Buried(m) => !m.body.NullLiteral? && RowOk(RowOf(m))
    case Recording(m) => !m.body.NullLiteral? && RowOk(RowOf(m))
    case Ignored(m) => !m.body.NullLiteral? && RowOk(RowOf(m))
    case Overlooked(m) => !m.body.NullLiteral? && RowOk(RowOf(m))
    case Stored(m) => !m.body.NullLiteral? && RowOk(RowOf(m))
    case Redrive(d) => EventIdOf(d.body).Some? && d.attemptHeader.Some?
    case _ => true
  }

  ghost predicate DlqOk(dlq: DeadLetters) {
    && (forall rid :: rid in dlq ==> RowOk(dlq[rid]))
    && (forall a, b :: a in dlq && b in dlq && a != b && dlq[a].messageId.Some? ==>
          dlq[a].messageId != dlq[b].messageId)
  }

  ghost predicate Shape(s: State) {
    && (forall k :: k in s.live ==> PhaseOk(s.live[k]))
    && DlqOk(s.dlq)
  }

  lemma InsertKeepsDlqOk(dlq: DeadLetters, rid: nat, row: DlqRow)
    requires DlqOk(dlq) && RowOk(row) && rid !in dlq
    ensures DlqOk(InsertLetter(dlq, rid, row))
    ensures row.eventId.Some? ==> HasRow(InsertLetter(dlq, rid, row), row.eventId.value)
    ensures forall id :: HasRow(dlq, id) ==> HasRow(InsertLetter(dlq, rid, row), id)
  {
    var after := InsertLetter(dlq, rid, row);
    if Recorded(dlq, row.messageId) {
      var r :| r in dlq && dlq[r].messageId == row.messageId;
      assert dlq[r].eventId == row.eventId;
    } else {
      assert after[rid] == row;
      forall id | HasRow(dlq, id) ensures HasRow(after, id) {
        var r :| r in dlq && dlq[r].eventId == Some(id);
        assert after[r] == dlq[r];
      }
    }
  }

  ghost predicate HasRow(dlq: DeadLetters, id: string) {
    exists rid :: rid in dlq && dlq[rid].eventId == Some(id)
  }

  /** The message a publish of a decided outcome creates, and the id it is about. */
  lemma SendMakes(s: State, k: nat, k': nat)
    requires Shape(s) && Enabled(s, Send(k, k'))
    ensures var d := s.live[k].d;
            var p := AfterSend(s, k, k').live[k'];
            if s.live[k].decision.Retry?
            then
              && p.Waiting? && EventIdOf(p.d.body) == EventIdOf(d.body)
              && p.d.attemptHeader == Some(s.live[k].decision.attempts)
              && p.tier == TierIndex(s.live[k].decision.attempts)
              && Descends(MeaningOf(p.d), MeaningOf(d))
              && !p.d.redelivered
            else
              && p.Buried? && !p.m.body.NullLiteral? && RowOk(RowOf(p.m))
              && RowOf(p.m).eventId == EventIdOf(d.body)
              && RowOf(p.m).payload == d.body && RowOf(p.m).correlationId == s.live[k].correlation
  {
    var Decided(d, correlation, decision) := s.live[k];
    if decision.Retry? {
      RetryKeepsMeaning(d, correlation, decision.attempts);
    } else {
      LetterRowOk(d, correlation, decision.attempts, decision.reason);
    }
  }

  lemma DlqOkKept(s: State, l: Label, maxAttempts: nat)
    requires Shape(s) && Enabled(s, l)
    ensures DlqOk(Step(s, l, maxAttempts).dlq)
  {
    if l.Persist? {
      assert PhaseOk(s.live[l.k]);
      InsertKeepsDlqOk(s.dlq, l.rid, RowOf(s.live[l.k].m));
    } else if l.Prepare? {
      assert RowOk(s.dlq[l.rid]);
    }
  }

  lemma PublishedOk(s: State, l: Label, maxAttempts: nat)
    requires Shape(s) && Enabled(s, l) && (l.Send? || l.HandBack? || l.Prepare?)
    ensures var s' := Step(s, l, maxAttempts);
            var key := if l.Prepare? then l.k else l.k';
            key in s'.live && PhaseOk(s'.live[key])
  {
    if l.Send? {
      SendMakes(s, l.k, l.k');
    } else if l.HandBack? {
      assert PhaseOk(s.live[l.k]);
    } else {
      assert RowOk(s.dlq[l.rid]);
      GenuineRowsAreReplayable(s.dlq[l.rid]);
    }
  }

  lemma MovedOk(s: State, l: Label, maxAttempts: nat)
    requires Shape(s) && Enabled(s, l) && !l.Prepare? && !l.Discard?
    ensures var s' := Step(s, l, maxAttempts); l.k in s'.live ==> PhaseOk(s'.live[l.k])
  {
    if !l.Publish? {
      assert PhaseOk(s.live[l.k]);
    }
  }

  lemma ShapeKept(s: State, l: Label, maxAttempts: nat)
    requires Shape(s) && Enabled(s, l)
    ensures Shape(Step(s, l, maxAttempts))
  {
    var s' := Step(s, l, maxAttempts);
    DlqOkKept(s, l, maxAttempts);
    if l.Send? || l.HandBack? || l.Prepare? {
      PublishedOk(s, l, maxAttempts);
    }
    if !l.Prepare? && !l.Discard? {
      MovedOk(s, l, maxAttempts);
    }
    forall k | k in s'.live ensures PhaseOk(s'.live[k]) {
      if !l.Discard? && k != l.k && !((l.Send? || l.HandBack?) && k == l.k') {
        assert s'.live[k] == s.live[k];
      }
    }
  }

  // ---------- the parts a live message can play for an id ----------

  datatype Role =
    | Continuing       // on its way back to the handler as a continuation
    | Returning        // a redelivered work message
    | Dying            // a dead letter decided or on its way, its update still to come
    | Outstanding      // a dead letter that may still be recorded, again or for the first time
    | Living           // anything whose processing is still to come
    | Redriving        // a replay's message, still to be published

  ghost predicate Is(p: Phase, id: string, role: Role) {
    match p
    case Queued(d) =>
      && EventIdOf(d.body) == Some(id)
      && ((role.Continuing? && IsContinuation(d)) || (role.Returning? && d.redelivered) || role.Living?)
    case Running(d) =>
      && EventIdOf(d.body) == Some(id)
      && ((role.Continuing? && IsContinuation(d)) || (role.Returning? && d.redelivered) || role.Living?)
    case Decided(d, _, decision) =>
      && EventIdOf(d.body) == Some(id)
      && (if decision.Bury? then role.Dying? || role.Outstanding? || role.Living?
          else role.Continuing? || role.Living?)
    case Acking(d) => false
    case Waiting(d, _) => EventIdOf(d.body) == Some(id) && (role.Continuing? || role.Living?)
    case Buried(m) => LetterFor(m, id) && (role.Dying? || role.Outstanding? || role.Living?)
    case Recording(m) => LetterFor(m, id) && (role.Dying? || role.Outstanding? || role.Living?)
    case Ignored(m) => LetterFor(m, id) && (role.Dying? || role.Outstanding?)
    case Overlooked(m) => LetterFor(m, id) && (role.Outstanding? || role.Living?)
    case Stored(m) => LetterFor(m, id) && role.Outstanding?
    case Redrive(d) => EventIdOf(d.body) == Some(id) && role.Redriving?
  }

  ghost predicate LetterFor(m: DeadMessage, id: string) {
    !m.body.NullLiteral? && RowOf(m).eventId == Some(id)
  }

  ghost predicate Has(s: State, id: string, role: Role) {
    exists k :: k in s.live && Is(s.live[k], id, role)
  }

  function KeyOf(l: Label): nat {
    match l
    case Prepare(_, k) => k
    case Discard(rid) => 0
    case _ => l.k
  }

  /** A step moves one message; every other message keeps its place. */
  lemma OthersKept(s: State, l: Label, maxAttempts: nat, id: string, role: Role)
    requires Enabled(s, l) && Has(s, id, role)
    ensures Has(Step(s, l, maxAttempts), id, role) || (KeyOf(l) in s.live && Is(s.live[KeyOf(l)], id, role))
  {
    var k :| k in s.live && Is(s.live[k], id, role);
    var s' := Step(s, l, maxAttempts);
    if k != KeyOf(l) || l.Discard? || l.HandBack? {
      assert k in s'.live && s'.live[k] == s.live[k];
    }
  }

  // ---------- nothing is stranded ----------

  /** An unfinished event always has something that will finish it. */
  ghost predicate Unstranded(s: State, id: string) {
    id in s.events ==>
      match s.events[id].status
      case Processing => Has(s, id, Continuing) || Has(s, id, Dying)
      case Failed => Has(s, id, Returning) || Has(s, id, Dying)
      case Processed => true
      case _ => id in s.discarded || HasRow(s.dlq, id)
  }

  /** An accepted event is always somewhere. */
  ghost predicate Conserved(s: State, id: string) {
    id in s.accepted ==>
      id in s.events || Has(s, id, Living) || HasRow(s.dlq, id) || id in s.discarded
  }

  lemma RowsKept(s: State, l: Label, maxAttempts: nat, id: string)
    requires Shape(s) && Enabled(s, l) && (HasRow(s.dlq, id) || id in s.discarded)
    ensures var s' := Step(s, l, maxAttempts); HasRow(s'.dlq, id) || id in s'.discarded
  {
    var s' := Step(s, l, maxAttempts);
    if HasRow(s.dlq, id) {
      var r :| r in s.dlq && s.dlq[r].eventId == Some(id);
      match l {
        case Persist(k, rid) => InsertKeepsDlqOk(s.dlq, rid, RowOf(s.live[k].m));
        case Prepare(rid, k) => assert r in s'.dlq && s'.dlq[r].eventId == Some(id);
        case Discard(rid) =>
          if r != rid {
            assert r in s'.dlq && s'.dlq[r].eventId == Some(id);
          }
        case _ =>
      }
    }
  }

  /** A letter whose insert was ignored is stored already, unless it was discarded since. */
  ghost predicate Excused(s: State, id: string) {
    forall k :: k in s.live && s.live[k].Ignored? && LetterFor(s.live[k].m, id) ==>
      HasRow(s.dlq, id) || id in s.discarded
  }

  lemma RecordedHasRow(dlq: DeadLetters, row: DlqRow, id: string)
    requires DlqOk(dlq) && RowOk(row) && row.eventId == Some(id) && Recorded(dlq, row.messageId)
    ensures HasRow(dlq, id)
  {
    var r :| r in dlq && dlq[r].messageId == row.messageId;
    assert dlq[r].eventId == Some(id);
  }

  lemma IgnoringHasRow(s: State, l: Label, id: string)
    requires Shape(s) && Enabled(s, l) && l.Ignore? && LetterFor(s.live[l.k].m, id)
    ensures HasRow(s.dlq, id)
  {
    assert PhaseOk(s.live[l.k]);
    RecordedHasRow(s.dlq, RowOf(s.live[l.k].m), id);
  }

  lemma ExcusedKept(s: State, l: Label, maxAttempts: nat, id: string)
    requires Shape(s) && Enabled(s, l) && Excused(s, id)
    ensures Excused(Step(s, l, maxAttempts), id)
  {
    var s' := Step(s, l, maxAttempts);
    forall k | k in s'.live && s'.live[k].Ignored? && LetterFor(s'.live[k].m, id)
      ensures HasRow(s'.dlq, id) || id in s'.discarded
    {
      if l.Ignore? && k == l.k {
        IgnoringHasRow(s, l, id);
      } else {
        assert k in s.live && s.live[k] == s'.live[k];
        RowsKept(s, l, maxAttempts, id);
      }
    }
  }

  /** The role a moved message plays next, at its own key or at the key its publish created. */
  lemma MovedLives(s: State, l: Label, maxAttempts: nat, id: string)
    requires Shape(s) && Enabled(s, l) && !l.Discard?
    requires KeyOf(l) in s.live && Is(s.live[KeyOf(l)], id, Living)
    ensures var s' := Step(s, l, maxAttempts); Has(s', id, Living) || id in s'.events || HasRow(s'.dlq, id)
  {
    var s' := Step(s, l, maxAttempts);
    if l.Send? {
      SendMakes(s, l.k, l.k');
      assert Is(s'.live[l.k'], id, Living);
    } else if l.Persist? {
      InsertKeepsDlqOk(s.dlq, l.rid, RowOf(s.live[l.k].m));
    } else if l.Ignore? {
      IgnoringHasRow(s, l, id);
    } else if !l.Commit? {
      assert Is(s'.live[KeyOf(l)], id, Living);
    }
  }

  lemma ConservedKept(s: State, l: Label, maxAttempts: nat, id: string)
    requires Shape(s) && Enabled(s, l) && Conserved(s, id)
    ensures Conserved(Step(s, l, maxAttempts), id)
  {
    var s' := Step(s, l, maxAttempts);
    if id !in s.accepted {
      if id in s'.accepted {
        assert Is(s'.live[l.k], id, Living);
      }
    } else if id in s.events {
    } else if HasRow(s.dlq, id) || id in s.discarded {
      RowsKept(s, l, maxAttempts, id);
    } else {
      OthersKept(s, l, maxAttempts, id, Living);
      if !Has(s', id, Living) && !l.Discard? {
        MovedLives(s, l, maxAttempts, id);
      }
    }
  }

  /** A message that will finish an event still will after any step that leaves the event's row alone. */
  lemma MovedFinishes(s: State, l: Label, maxAttempts: nat, id: string, role: Role)
    requires Shape(s) && Enabled(s, l) && !l.Discard? && !l.Commit? && !l.Persist?
    requires id in s.events && (role.Continuing? || role.Returning? || role.Dying?)
    requires KeyOf(l) in s.live && Is(s.live[KeyOf(l)], id, role)
    ensures var s' := Step(s, l, maxAttempts);
            Has(s', id, Dying) || (Has(s', id, Continuing) && (role.Continuing? || Has(s', id, Returning)))
  {
    var s' := Step(s, l, maxAttempts);
    var key := if l.Send? then l.k' else KeyOf(l);
    if l.Send? {
      SendMakes(s, l.k, l.k');
    }
    var p := s'.live[key];
    assert Is(p, id, Dying) || (Is(p, id, Continuing) && (role.Continuing? || Is(p, id, Returning)));
  }

  /** Whether a step is a transaction on the row of `id`. */
  predicate Touches(s: State, l: Label, id: string)
    requires Enabled(s, l)
  {
    match l
    case Commit(k, _, _) => EventIdOf(s.live[k].d.body) == Some(id)
    case Persist(k, _) => !s.live[k].Overlooked? && RowOf(s.live[k].m).eventId == Some(id) && id in s.events
    case Prepare(rid, _) => s.dlq[rid].eventId == Some(id) && id in s.events
    case _ => false
  }

  lemma UntouchedRow(s: State, l: Label, maxAttempts: nat, id: string)
    requires Enabled(s, l) && !Touches(s, l, id)
    ensures var s' := Step(s, l, maxAttempts);
            (id in s'.events <==> id in s.events) && (id in s.events ==> s'.events[id] == s.events[id])
  {
  }

  lemma CommitFinishes(s: State, l: Label, maxAttempts: nat, id: string)
    requires Shape(s) && Enabled(s, l) && l.Commit? && Touches(s, l, id) && Unstranded(s, id)
    ensures Unstranded(Step(s, l, maxAttempts), id)
  {
    var s' := Step(s, l, maxAttempts);
    if s'.live[l.k].Decided? {
      assert Is(s'.live[l.k], id, if s'.live[l.k].decision.Retry? then Continuing else Dying);
    } else if id in s.events {
      if Has(s, id, Continuing) {
        OthersKept(s, l, maxAttempts, id, Continuing);
      }
      if Has(s, id, Dying) {
        OthersKept(s, l, maxAttempts, id, Dying);
      }
      if HasRow(s.dlq, id) || id in s.discarded {
        RowsKept(s, l, maxAttempts, id);
      }
    }
  }

  lemma UnstrandedKept(s: State, l: Label, maxAttempts: nat, id: string)
    requires Shape(s) && Enabled(s, l) && Unstranded(s, id) && Excused(s, id)
    ensures Unstranded(Step(s, l, maxAttempts), id)
  {
    var s' := Step(s, l, maxAttempts);
    if HasRow(s.dlq, id) || id in s.discarded {
      RowsKept(s, l, maxAttempts, id);
    }
    if Touches(s, l, id) {
      if l.Commit? {
        CommitFinishes(s, l, maxAttempts, id);
      } else if l.Persist? {
        InsertKeepsDlqOk(s.dlq, l.rid, RowOf(s.live[l.k].m));
      } else {
        assert s.dlq[l.rid].eventId == Some(id);
      }
    } else {
      UntouchedRow(s, l, maxAttempts, id);
      if id in s.events && (s.events[id].status == Processing || s.events[id].status == Failed) {
        PendingKept(s, l, maxAttempts, id);
      }
    }
  }

  lemma PendingKept(s: State, l: Label, maxAttempts: nat, id: string)
    requires Shape(s) && Enabled(s, l) && !Touches(s, l, id) && id in s.events
    requires Has(s, id, Continuing) || Has(s, id, Returning) || Has(s, id, Dying)
    ensures var s' := Step(s, l, maxAttempts);
            && (Has(s, id, Continuing) || Has(s, id, Dying) ==> Has(s', id, Continuing) || Has(s', id, Dying))
            && (Has(s, id, Returning) || Has(s, id, Dying) ==> Has(s', id, Returning) || Has(s', id, Dying))
  {
    forall role: Role | (role.Continuing? || role.Returning? || role.Dying?) && Has(s, id, role)
      ensures var s' := Step(s, l, maxAttempts);
              Has(s', id, role) || Has(s', id, Dying)
              || (Has(s', id, Continuing) && (role.Continuing? || Has(s', id, Returning)))
    {
      OthersKept(s, l, maxAttempts, id, role);
      if !Has(Step(s, l, maxAttempts), id, role) && !l.Discard? {
        MovedFinishes(s, l, maxAttempts, id, role);
      }
    }
  }

  /** A reset event is waited for: its redrive, a continuation or a dead letter is on its way, unless a redrive has been
      lost since the reset. */
  ghost predicate Expected(s: State, id: string) {
    id in s.events && s.events[id].status == Received ==>
      Has(s, id, Redriving) || Has(s, id, Continuing) || Has(s, id, Dying) || TallyOf(s, id).lost >= 1
  }

  lemma LostUntouched(s: State, l: Label, maxAttempts: nat, id: string)
    requires Enabled(s, l) && !Touches(s, l, id)
    ensures TallyOf(Step(s, l, maxAttempts), id).lost >= TallyOf(s, id).lost
  {
  }

  lemma RedriveKept(s: State, l: Label, maxAttempts: nat, id: string)
    requires Shape(s) && Enabled(s, l) && Has(s, id, Redriving)
    ensures var s' := Step(s, l, maxAttempts);
            Has(s', id, Redriving) || Has(s', id, Continuing) || (l.RedriveLost? && TallyOf(s', id).lost >= 1)
  {
    OthersKept(s, l, maxAttempts, id, Redriving);
    var s' := Step(s, l, maxAttempts);
    if !Has(s', id, Redriving) && l.Redriven? {
      assert PhaseOk(s.live[l.k]);
      assert Is(s'.live[l.k], id, Continuing);
    }
  }

  lemma ExpectedKept(s: State, l: Label, maxAttempts: nat, id: string)
    requires Shape(s) && Enabled(s, l) && Expected(s, id)
    ensures Expected(Step(s, l, maxAttempts), id)
  {
    var s' := Step(s, l, maxAttempts);
    if Touches(s, l, id) {
      if l.Prepare? {
        GenuineRowsAreReplayable(s.dlq[l.rid]);
        assert Is(s'.live[l.k], id, Redriving);
      } else if l.Commit? {
        CommitExpected(s, l, maxAttempts, id);
      }
    } else {
      UntouchedRow(s, l, maxAttempts, id);
      LostUntouched(s, l, maxAttempts, id);
      if Has(s, id, Redriving) {
        RedriveKept(s, l, maxAttempts, id);
      } else if id in s.events && (Has(s, id, Continuing) || Has(s, id, Dying)) {
        PendingKept(s, l, maxAttempts, id);
      }
    }
  }

  /** A commit that leaves a reset row reset counted a duplicate, which nothing waits for. */
  lemma CommitExpected(s: State, l: Label, maxAttempts: nat, id: string)
    requires Enabled(s, l) && l.Commit? && Touches(s, l, id) && Expected(s, id)
    ensures Expected(Step(s, l, maxAttempts), id)
  {
    var s' := Step(s, l, maxAttempts);
    if s'.events[id].status == Received {
      forall role: Role | (role.Redriving? || role.Continuing? || role.Dying?) && Has(s, id, role)
        ensures Has(s', id, role)
      {
        OthersKept(s, l, maxAttempts, id, role);
      }
    }
  }

  // ---------- the retry budget and the accounting of effects ----------

  ghost predicate Budget(s: State, id: string, maxAttempts: nat) {
    var t := TallyOf(s, id);
    if id !in s.events then t.runs == 0 && t.sinceReset == 0 && t.resets == 0 && t.effects == 0 && t.overwrites == 0
    else
      var row := s.events[id];
      && row.attempts == t.sinceReset <= maxAttempts
      && t.runs <= maxAttempts * t.resets + row.attempts
      && (row.status == Received ==> row.attempts == 0)
      && (row.status == Processing ==> 1 <= row.attempts < maxAttempts)
      && (row.status == Failed || row.status == Processed ==> 1 <= row.attempts)
  }

  /** Every committed effect is either the row's present state or was overwritten by a dead letter. */
  ghost predicate Accounted(s: State, id: string) {
    id in s.events ==>
      TallyOf(s, id).effects == (if s.events[id].status == Processed then 1 else 0) + TallyOf(s, id).overwrites
  }

  lemma TallyUntouched(s: State, l: Label, maxAttempts: nat, id: string)
    requires Enabled(s, l) && !Touches(s, l, id)
    ensures var t, t' := TallyOf(s, id), TallyOf(Step(s, l, maxAttempts), id);
            && t'.runs == t.runs && t'.sinceReset == t.sinceReset && t'.resets == t.resets
            && t'.effects == t.effects && t'.overwrites == t.overwrites
  {
  }

  lemma BudgetKept(s: State, l: Label, maxAttempts: nat, id: string)
    requires maxAttempts >= 1 && Enabled(s, l) && Budget(s, id, maxAttempts)
    ensures Budget(Step(s, l, maxAttempts), id, maxAttempts)
  {
    var t, t' := TallyOf(s, id), TallyOf(Step(s, l, maxAttempts), id);
    if !Touches(s, l, id) {
      UntouchedRow(s, l, maxAttempts, id);
      TallyUntouched(s, l, maxAttempts, id);
    } else if l.Prepare? {
      assert t'.resets == t.resets + 1 && t'.runs == t.runs;
      assert maxAttempts * (t.resets + 1) == maxAttempts * t.resets + maxAttempts;
    } else {
      assert t'.resets == t.resets;
      if l.Commit? && id !in s.events {
        assert maxAttempts * t.resets == 0;
      }
    }
  }

  lemma AccountedKept(s: State, l: Label, maxAttempts: nat, id: string)
    requires Enabled(s, l) && Budget(s, id, maxAttempts) && Accounted(s, id)
    ensures Accounted(Step(s, l, maxAttempts), id)
  {
    if !Touches(s, l, id) {
      UntouchedRow(s, l, maxAttempts, id);
      TallyUntouched(s, l, maxAttempts, id);
    }
  }

  // ---------- nobody's words are made up ----------

  ghost predicate SaidBy(inputs: set<Delivery>, m: Meaning) {
    exists d :: d in inputs && EventIdOf(d.body).Some? && Descends(m, MeaningOf(d))
  }

  ghost predicate RowSaid(inputs: set<Delivery>, r: DlqRow) {
    && r.correlationId != ""
    && (r.eventId.Some? && EventIdOf(r.payload).Some? ==>
          SaidBy(inputs, Meaning(EventIdOf(r.payload).value, EventTypeOf(r.payload), PayloadOf(r.payload),
                                 Some(r.correlationId))))
  }

  ghost predicate PhaseSaid(inputs: set<Delivery>, p: Phase) {
    match p
    case Buried(m) => !m.body.NullLiteral? && RowSaid(inputs, RowOf(m))
    case Recording(m) => !m.body.NullLiteral? && RowSaid(inputs, RowOf(m))
    case Ignored(m) => !m.body.NullLiteral? && RowSaid(inputs, RowOf(m))
    case Overlooked(m) => !m.body.NullLiteral? && RowSaid(inputs, RowOf(m))
    case Stored(m) => !m.body.NullLiteral? && RowSaid(inputs, RowOf(m))
    case _ => EventIdOf(p.d.body).Some? ==> SaidBy(inputs, MeaningOf(p.d))
  }

  ghost predicate NothingMadeUp(s: State) {
    && (forall k :: k in s.live ==> PhaseSaid(s.inputs, s.live[k]))
    && (forall rid :: rid in s.dlq ==> RowSaid(s.inputs, s.dlq[rid]))
    && (forall id :: id in s.events ==> EventSaid(s.inputs, id, s.events[id]))
  }

  ghost predicate EventSaid(inputs: set<Delivery>, id: string, row: EventRow) {
    row.correlationId != "" && SaidBy(inputs, Meaning(id, row.eventType, row.payload, Some(row.correlationId)))
  }

  lemma SaidByMore(inputs: set<Delivery>, more: set<Delivery>, p: Phase)
    requires PhaseSaid(inputs, p) && inputs <= more
    ensures PhaseSaid(more, p)
  {
  }

  lemma RowSaidByMore(inputs: set<Delivery>, more: set<Delivery>, r: DlqRow)
    requires RowSaid(inputs, r) && inputs <= more
    ensures RowSaid(more, r)
  {
  }

  lemma SendSaid(s: State, k: nat, k': nat)
    requires Shape(s) && NothingMadeUp(s) && Enabled(s, Send(k, k'))
    ensures PhaseSaid(s.inputs, AfterSend(s, k, k').live[k'])
  {
    SendMakes(s, k, k');
    var d := s.live[k].d;
    assert PhaseSaid(s.inputs, s.live[k]);
    if EventIdOf(d.body).Some? {
      var said :| said in s.inputs && EventIdOf(said.body).Some? && Descends(MeaningOf(d), MeaningOf(said));
      var origin := MeaningOf(said);
      var p := AfterSend(s, k, k').live[k'];
      if p.Waiting? {
        assert Descends(MeaningOf(p.d), origin);
      } else {
        assert Descends(MeaningOf(d).(correlation := Some(s.live[k].correlation)), origin);
      }
    }
  }

  lemma NewlySaid(s: State, l: Label, maxAttempts: nat)
    requires Shape(s) && NothingMadeUp(s) && Enabled(s, l) && (l.Publish? || l.Prepare?)
    ensures var s' := Step(s, l, maxAttempts); l.k in s'.live && PhaseSaid(s'.inputs, s'.live[l.k])
  {
    if l.Publish? {
      assert EventIdOf(l.d.body).Some? ==> Descends(MeaningOf(l.d), MeaningOf(l.d));
    } else {
      assert RowSaid(s.inputs, s.dlq[l.rid]);
      GenuineRowsAreReplayable(s.dlq[l.rid]);
    }
  }

  lemma MovedSaid(s: State, l: Label, maxAttempts: nat, k: nat)
    requires Shape(s) && NothingMadeUp(s) && Enabled(s, l) && k in Step(s, l, maxAttempts).live
    requires !l.Send? && !l.HandBack? && !l.Publish? && !l.Prepare?
    ensures k in s.live
    ensures PhaseSaid(s.inputs, Step(s, l, maxAttempts).live[k])
  {
    assert PhaseSaid(s.inputs, s.live[k]);
    if l.Commit? || l.DbError? || l.Reject? {
      DecidedSaid(s, l, maxAttempts, k);
    } else if l.Ignore? || l.Overlook? || l.Persist? {
      RecordedSaid(s, l, maxAttempts, k);
    }
  }

  lemma DecidedSaid(s: State, l: Label, maxAttempts: nat, k: nat)
    requires Shape(s) && NothingMadeUp(s) && Enabled(s, l) && k in Step(s, l, maxAttempts).live
    requires l.Commit? || l.DbError? || l.Reject?
    ensures k in s.live && PhaseSaid(s.inputs, Step(s, l, maxAttempts).live[k])
  {
    assert PhaseSaid(s.inputs, s.live[k]);
  }

  lemma RecordedSaid(s: State, l: Label, maxAttempts: nat, k: nat)
    requires Shape(s) && NothingMadeUp(s) && Enabled(s, l) && k in Step(s, l, maxAttempts).live
    requires l.Ignore? || l.Overlook? || l.Persist?
    ensures k in s.live && PhaseSaid(s.inputs, Step(s, l, maxAttempts).live[k])
  {
    LetterStays(s, l, maxAttempts, k);
    assert PhaseSaid(s.inputs, s.live[k]);
  }

  predicate IsRecorded(p: Phase) {
    p.Recording? || p.Ignored? || p.Overlooked? || p.Stored?
  }

  lemma LetterStays(s: State, l: Label, maxAttempts: nat, k: nat)
    requires Enabled(s, l) && k in Step(s, l, maxAttempts).live
    requires l.Ignore? || l.Overlook? || l.Persist?
    ensures k in s.live
    ensures var p, p' := s.live[k], Step(s, l, maxAttempts).live[k];
            p' == p || (IsRecorded(p) && IsRecorded(p') && p'.m == p.m)
  {
  }

  lemma SentSaid(s: State, l: Label, maxAttempts: nat, k: nat)
    requires Shape(s) && NothingMadeUp(s) && Enabled(s, l) && (l.Send? || l.HandBack?)
    requires k in Step(s, l, maxAttempts).live
    ensures PhaseSaid(s.inputs, Step(s, l, maxAttempts).live[k])
  {
    if l.Send? && k == l.k' {
      SendSaid(s, l.k, l.k');
    } else if k in s.live {
      assert PhaseSaid(s.inputs, s.live[k]);
    } else {
      assert PhaseSaid(s.inputs, s.live[l.k]);
    }
  }

  lemma PhasesSaidKept(s: State, l: Label, maxAttempts: nat, k: nat)
    requires Shape(s) && NothingMadeUp(s) && Enabled(s, l) && k in Step(s, l, maxAttempts).live
    ensures PhaseSaid(Step(s, l, maxAttempts).inputs, Step(s, l, maxAttempts).live[k])
  {
    var s' := Step(s, l, maxAttempts);
    if k in s.live && s'.live[k] == s.live[k] {
      SaidByMore(s.inputs, s'.inputs, s.live[k]);
    } else if l.Send? || l.HandBack? {
      SentSaid(s, l, maxAttempts, k);
    } else if l.Publish? || l.Prepare? {
      NewlySaid(s, l, maxAttempts);
    } else {
      MovedSaid(s, l, maxAttempts, k);
    }
  }

  lemma RowsSaidKept(s: State, l: Label, maxAttempts: nat, rid: nat)
    requires Shape(s) && NothingMadeUp(s) && Enabled(s, l) && rid in Step(s, l, maxAttempts).dlq
    ensures RowSaid(Step(s, l, maxAttempts).inputs, Step(s, l, maxAttempts).dlq[rid])
  {
    if rid in s.dlq {
      RowSaidByMore(s.inputs, Step(s, l, maxAttempts).inputs, s.dlq[rid]);
    } else {
      assert PhaseSaid(s.inputs, s.live[l.k]);
    }
  }

  /** A row is written from the message that claims it; nothing changes its type, payload or correlation id. */
  lemma EventsSaidKept(s: State, l: Label, maxAttempts: nat, id: string)
    requires NothingMadeUp(s) && Enabled(s, l) && id in Step(s, l, maxAttempts).events
    ensures EventSaid(Step(s, l, maxAttempts).inputs, id, Step(s, l, maxAttempts).events[id])
  {
    if id in s.events {
      ColumnsKept(s, l, maxAttempts, id);
    } else {
      ClaimSaid(s, l, maxAttempts, id);
    }
  }

  lemma ColumnsKept(s: State, l: Label, maxAttempts: nat, id: string)
    requires Enabled(s, l) && id in s.events
    ensures var s' := Step(s, l, maxAttempts);
            && s.inputs <= s'.inputs && id in s'.events
            && s'.events[id].eventType == s.events[id].eventType && s'.events[id].payload == s.events[id].payload
            && s'.events[id].correlationId == s.events[id].correlationId
  {
  }

  lemma ClaimWritesEvent(s: State, l: Label, maxAttempts: nat, id: string)
    requires Enabled(s, l) && id !in s.events && id in Step(s, l, maxAttempts).events
    ensures l.Commit? && EventIdOf(s.live[l.k].d.body) == Some(id) && Step(s, l, maxAttempts).inputs == s.inputs
    ensures var d, row := s.live[l.k].d, Step(s, l, maxAttempts).events[id];
            && row.eventType == EventTypeOf(d.body) && row.payload == PayloadOf(d.body)
            && row.correlationId == CorrelationOf(d, l.generated) && l.generated != ""
  {
  }

  lemma ClaimSaid(s: State, l: Label, maxAttempts: nat, id: string)
    requires NothingMadeUp(s) && Enabled(s, l) && id !in s.events && id in Step(s, l, maxAttempts).events
    ensures EventSaid(Step(s, l, maxAttempts).inputs, id, Step(s, l, maxAttempts).events[id])
  {
    ClaimWritesEvent(s, l, maxAttempts, id);
    var d := s.live[l.k].d;
    assert PhaseSaid(s.inputs, s.live[l.k]);
    CorrelationIsTheFirstGiven(d, l.generated);
    var said :| said in s.inputs && EventIdOf(said.body).Some? && Descends(MeaningOf(d), MeaningOf(said));
    var row := Step(s, l, maxAttempts).events[id];
    assert Descends(Meaning(id, row.eventType, row.payload, Some(row.correlationId)), MeaningOf(said));
  }

  lemma NothingMadeUpKept(s: State, l: Label, maxAttempts: nat)
    requires Shape(s) && NothingMadeUp(s) && Enabled(s, l)
    ensures NothingMadeUp(Step(s, l, maxAttempts))
  {
    forall k | k in Step(s, l, maxAttempts).live
      ensures PhaseSaid(Step(s, l, maxAttempts).inputs, Step(s, l, maxAttempts).live[k])
    {
      PhasesSaidKept(s, l, maxAttempts, k);
    }
    forall rid | rid in Step(s, l, maxAttempts).dlq
      ensures RowSaid(Step(s, l, maxAttempts).inputs, Step(s, l, maxAttempts).dlq[rid])
    {
      RowsSaidKept(s, l, maxAttempts, rid);
    }
    forall id | id in Step(s, l, maxAttempts).events
      ensures EventSaid(Step(s, l, maxAttempts).inputs, id, Step(s, l, maxAttempts).events[id])
    {
      EventsSaidKept(s, l, maxAttempts, id);
    }
  }

  // ---------- every reachable state ----------

  ghost predicate PerId(s: State, id: string, maxAttempts: nat) {
    && Unstranded(s, id) && Expected(s, id) && Conserved(s, id) && Excused(s, id)
    && Budget(s, id, maxAttempts) && Accounted(s, id)
  }

  ghost predicate Inv(s: State, maxAttempts: nat) {
    Shape(s) && NothingMadeUp(s) && forall id :: PerId(s, id, maxAttempts)
  }

  lemma InvKept(s: State, l: Label, maxAttempts: nat)
    requires maxAttempts >= 1 && Inv(s, maxAttempts) && Enabled(s, l)
    ensures Inv(Step(s, l, maxAttempts), maxAttempts)
  {
    ShapeKept(s, l, maxAttempts);
    NothingMadeUpKept(s, l, maxAttempts);
    forall id ensures PerId(Step(s, l, maxAttempts), id, maxAttempts) {
      assert PerId(s, id, maxAttempts);
      UnstrandedKept(s, l, maxAttempts, id);
      ExpectedKept(s, l, maxAttempts, id);
      ConservedKept(s, l, maxAttempts, id);
      ExcusedKept(s, l, maxAttempts, id);
      BudgetKept(s, l, maxAttempts, id);
      AccountedKept(s, l, maxAttempts, id);
    }
  }

  lemma {:induction false} InvOverRuns(s: State, ls: seq<Label>, maxAttempts: nat)
    requires maxAttempts >= 1 && Inv(s, maxAttempts) && Runs(s, ls, maxAttempts)
    ensures Inv(After(s, ls, maxAttempts), maxAttempts)
    decreases |ls|
  {
    if ls != [] {
      InvKept(s, ls[0], maxAttempts);
      InvOverRuns(Step(s, ls[0], maxAttempts), ls[1..], maxAttempts);
    }
  }

  ghost predicate Reachable(s: State, maxAttempts: nat) {
    exists ls :: Runs(INIT, ls, maxAttempts) && After(INIT, ls, maxAttempts) == s
  }

  lemma ReachableInv(s: State, maxAttempts: nat)
    requires maxAttempts >= 1 && Reachable(s, maxAttempts)
    ensures Inv(s, maxAttempts)
  {
    var ls :| Runs(INIT, ls, maxAttempts) && After(INIT, ls, maxAttempts) == s;
    InvOverRuns(INIT, ls, maxAttempts);
  }
}
