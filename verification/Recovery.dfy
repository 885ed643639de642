/** Recoverability: from every reachable state there is an orderly run that gets any accepted event processed;
    and the exact conditions under which one event can take effect twice. */
module Recovery {
  import opened Wrappers
  import opened Sums
  import opened Messages
  import opened Tables
  import opened Protocol
  import opened Invariants
  import opened Guarantees

  predicate InOrder(l: Label) {
    !l.Publish? && !l.Requeue? && !l.HandBack? && !l.DbError? && !l.RedriveLost? && !l.Discard?
  }

  /** A run without new input, faults or discards. */
  ghost predicate Orderly(ls: seq<Label>) {
    forall i | 0 <= i < |ls| ::
      InOrder(ls[i])
  }

  /** The run `ls` ends with `id` processed, and no dead letter marks it dead once it is. */
  ghost predicate Finishes(s: State, ls: seq<Label>, id: string, maxAttempts: nat) {
    && Orderly(ls) && Runs(s, ls, maxAttempts)
    && var t := After(s, ls, maxAttempts);
       && id in t.events && t.events[id].status == Processed
       && TallyOf(t, id).overwrites == TallyOf(s, id).overwrites
  }

  lemma FirstFinishes(s: State, l: Label, ls: seq<Label>, id: string, maxAttempts: nat)
    requires Enabled(s, l) && Orderly([l]) && Finishes(Step(s, l, maxAttempts), ls, id, maxAttempts)
    requires TallyOf(Step(s, l, maxAttempts), id).overwrites == TallyOf(s, id).overwrites
    ensures Finishes(s, [l] + ls, id, maxAttempts)
  {
    First(s, l, ls, maxAttempts);
    forall i | 0 <= i < |[l] + ls|
      ensures InOrder(([l] + ls)[i])
    {
      assert ([l] + ls)[i] == if i == 0 then [l][0] else ls[i - 1];
    }
  }

  /** Whether the handler will run for a delivery `d` of `id`. */
  ghost predicate WillRun(s: State, d: Delivery, id: string) {
    && EventIdOf(d.body) == Some(id)
    && (id in s.events ==>
          (s.events[id].status == Received || s.events[id].status == Processing) && IsContinuation(d))
  }

  lemma FromRunning(s: State, k: nat, id: string, maxAttempts: nat) returns (ls: seq<Label>)
    requires k in s.live && s.live[k].Running? && WillRun(s, s.live[k].d, id)
    ensures Finishes(s, ls, id, maxAttempts)
  {
    var l := Commit(k, Succeeds, "generated");
    assert Finishes(Step(s, l, maxAttempts), [], id, maxAttempts);
    FirstFinishes(s, l, [], id, maxAttempts);
    ls := [l] + [];
  }

  lemma FromQueued(s: State, k: nat, id: string, maxAttempts: nat) returns (ls: seq<Label>)
    requires k in s.live && s.live[k].Queued? && WillRun(s, s.live[k].d, id)
    ensures Finishes(s, ls, id, maxAttempts)
  {
    var rest := FromRunning(Step(s, Deliver(k), maxAttempts), k, id, maxAttempts);
    FirstFinishes(s, Deliver(k), rest, id, maxAttempts);
    ls := [Deliver(k)] + rest;
  }

  lemma FromWaiting(s: State, k: nat, id: string, maxAttempts: nat) returns (ls: seq<Label>)
    requires Shape(s) && k in s.live && s.live[k].Waiting? && WillRun(s, s.live[k].d, id)
    ensures Finishes(s, ls, id, maxAttempts)
  {
    assert PhaseOk(s.live[k]);
    var rest := FromQueued(Step(s, Expire(k), maxAttempts), k, id, maxAttempts);
    FirstFinishes(s, Expire(k), rest, id, maxAttempts);
    ls := [Expire(k)] + rest;
  }

  lemma FromRetry(s: State, k: nat, id: string, maxAttempts: nat) returns (ls: seq<Label>)
    requires Shape(s) && k in s.live && s.live[k].Decided? && s.live[k].decision.Retry?
    requires EventIdOf(s.live[k].d.body) == Some(id)
    requires id in s.events ==> s.events[id].status == Received || s.events[id].status == Processing
    ensures Finishes(s, ls, id, maxAttempts)
  {
    var k' := FreshKey(s.live);
    var l := Send(k, k');
    SendMakes(s, k, k');
    ShapeKept(s, l, maxAttempts);
    var rest := FromWaiting(Step(s, l, maxAttempts), k', id, maxAttempts);
    FirstFinishes(s, l, rest, id, maxAttempts);
    ls := [l] + rest;
  }

  /** A stored dead letter gets its event processed by a replay. */
  lemma FromRow(s: State, id: string, maxAttempts: nat) returns (ls: seq<Label>)
    requires Shape(s) && HasRow(s.dlq, id)
    requires id in s.events ==> Replayable(s.events[id].status)
    ensures Finishes(s, ls, id, maxAttempts)
  {
    var rid :| rid in s.dlq && s.dlq[rid].eventId == Some(id);
    assert RowOk(s.dlq[rid]);
    GenuineRowsAreReplayable(s.dlq[rid]);
    var k := FreshKey(s.live);
    var s1 := Step(s, Prepare(rid, k), maxAttempts);
    var s2 := Step(s1, Redriven(k), maxAttempts);
    var rest := FromQueued(s2, k, id, maxAttempts);
    FirstFinishes(s1, Redriven(k), rest, id, maxAttempts);
    FirstFinishes(s, Prepare(rid, k), [Redriven(k)] + rest, id, maxAttempts);
    ls := [Prepare(rid, k)] + ([Redriven(k)] + rest);
  }

  lemma FromRecording(s: State, k: nat, id: string, maxAttempts: nat) returns (ls: seq<Label>)
    requires Shape(s) && k in s.live
    requires s.live[k].Recording? || (s.live[k].Overlooked? && id !in s.events)
             || (s.live[k].Ignored? && HasRow(s.dlq, id))
    requires LetterFor(s.live[k].m, id)
    requires id in s.events ==> s.events[id].status != Processed
    ensures Finishes(s, ls, id, maxAttempts)
  {
    var rid := FreshKey(s.dlq);
    var l := Persist(k, rid);
    assert PhaseOk(s.live[k]);
    InsertKeepsDlqOk(s.dlq, rid, RowOf(s.live[k].m));
    ShapeKept(s, l, maxAttempts);
    var rest := FromRow(Step(s, l, maxAttempts), id, maxAttempts);
    FirstFinishes(s, l, rest, id, maxAttempts);
    ls := [l] + rest;
  }

  lemma FromBuried(s: State, k: nat, id: string, maxAttempts: nat) returns (ls: seq<Label>)
    requires Shape(s) && k in s.live && s.live[k].Buried? && LetterFor(s.live[k].m, id)
    requires id in s.events ==> s.events[id].status != Processed
    ensures Finishes(s, ls, id, maxAttempts)
  {
    ShapeKept(s, Deliver(k), maxAttempts);
    var rest := FromRecording(Step(s, Deliver(k), maxAttempts), k, id, maxAttempts);
    FirstFinishes(s, Deliver(k), rest, id, maxAttempts);
    ls := [Deliver(k)] + rest;
  }

  lemma FromBury(s: State, k: nat, id: string, maxAttempts: nat) returns (ls: seq<Label>)
    requires Shape(s) && k in s.live && s.live[k].Decided? && s.live[k].decision.Bury?
    requires EventIdOf(s.live[k].d.body) == Some(id)
    requires id in s.events ==> s.events[id].status != Processed
    ensures Finishes(s, ls, id, maxAttempts)
  {
    var k' := FreshKey(s.live);
    var l := Send(k, k');
    SendMakes(s, k, k');
    ShapeKept(s, l, maxAttempts);
    var rest := FromBuried(Step(s, l, maxAttempts), k', id, maxAttempts);
    FirstFinishes(s, l, rest, id, maxAttempts);
    ls := [l] + rest;
  }

  /** A redelivery of a failed event re-emits its dead letter. */
  lemma FromFailed(s: State, k: nat, id: string, maxAttempts: nat) returns (ls: seq<Label>)
    requires Shape(s) && k in s.live && s.live[k].Running? && EventIdOf(s.live[k].d.body) == Some(id)
    requires id in s.events && s.events[id].status == Failed
    ensures Finishes(s, ls, id, maxAttempts)
  {
    var l := Commit(k, Succeeds, "generated");
    ShapeKept(s, l, maxAttempts);
    var rest := FromBury(Step(s, l, maxAttempts), k, id, maxAttempts);
    FirstFinishes(s, l, rest, id, maxAttempts);
    ls := [l] + rest;
  }

  lemma FromDying(s: State, k: nat, id: string, maxAttempts: nat) returns (ls: seq<Label>)
    requires Shape(s) && Excused(s, id) && id !in s.discarded && k in s.live && Is(s.live[k], id, Dying)
    requires id in s.events ==> s.events[id].status != Processed
    ensures Finishes(s, ls, id, maxAttempts)
  {
    match s.live[k] {
      case Decided(_, _, _) => ls := FromBury(s, k, id, maxAttempts);
      case Buried(_) => ls := FromBuried(s, k, id, maxAttempts);
      case Recording(_) => ls := FromRecording(s, k, id, maxAttempts);
      case Ignored(_) => ls := FromRecording(s, k, id, maxAttempts);
    }
  }

  lemma FromContinuing(s: State, k: nat, id: string, maxAttempts: nat) returns (ls: seq<Label>)
    requires Shape(s) && k in s.live && Is(s.live[k], id, Continuing)
    requires id in s.events ==> s.events[id].status == Received || s.events[id].status == Processing
    ensures Finishes(s, ls, id, maxAttempts)
  {
    assert PhaseOk(s.live[k]);
    match s.live[k] {
      case Queued(_) => ls := FromQueued(s, k, id, maxAttempts);
      case Running(_) => ls := FromRunning(s, k, id, maxAttempts);
      case Decided(_, _, _) => ls := FromRetry(s, k, id, maxAttempts);
      case Waiting(_, _) => ls := FromWaiting(s, k, id, maxAttempts);
    }
  }

  lemma FromReturning(s: State, k: nat, id: string, maxAttempts: nat) returns (ls: seq<Label>)
    requires Shape(s) && k in s.live && Is(s.live[k], id, Returning)
    requires id in s.events && s.events[id].status == Failed
    ensures Finishes(s, ls, id, maxAttempts)
  {
    if s.live[k].Running? {
      ls := FromFailed(s, k, id, maxAttempts);
    } else {
      ShapeKept(s, Deliver(k), maxAttempts);
      var rest := FromFailed(Step(s, Deliver(k), maxAttempts), k, id, maxAttempts);
      FirstFinishes(s, Deliver(k), rest, id, maxAttempts);
      ls := [Deliver(k)] + rest;
    }
  }

  lemma FromLiving(s: State, k: nat, id: string, maxAttempts: nat) returns (ls: seq<Label>)
    requires Shape(s) && k in s.live && Is(s.live[k], id, Living) && id !in s.events
    ensures Finishes(s, ls, id, maxAttempts)
  {
    match s.live[k] {
      case Queued(_) => ls := FromQueued(s, k, id, maxAttempts);
      case Running(_) => ls := FromRunning(s, k, id, maxAttempts);
      case Waiting(_, _) => ls := FromWaiting(s, k, id, maxAttempts);
      case Overlooked(_) => ls := FromRecording(s, k, id, maxAttempts);
      case Decided(_, _, decision) =>
        assert PhaseOk(s.live[k]);
        if decision.Retry? {
          ls := FromRetry(s, k, id, maxAttempts);
        } else {
          ls := FromBury(s, k, id, maxAttempts);
        }
      case Buried(_) => ls := FromBuried(s, k, id, maxAttempts);
      case Recording(_) => ls := FromRecording(s, k, id, maxAttempts);
    }
  }

  /** Every accepted event whose dead letter was not discarded can still be processed, from every reachable state
      and whatever went wrong before. */
  lemma AcceptedEventsAreRecoverable(s: State, id: string, maxAttempts: nat) returns (ls: seq<Label>)
    requires maxAttempts >= 1 && Reachable(s, maxAttempts)
    requires (id in s.accepted || id in s.events) && id !in s.discarded
    ensures Finishes(s, ls, id, maxAttempts)
  {
    ReachableInv(s, maxAttempts);
    assert PerId(s, id, maxAttempts);
    if id !in s.events {
      if HasRow(s.dlq, id) {
        ls := FromRow(s, id, maxAttempts);
      } else {
        var k :| k in s.live && Is(s.live[k], id, Living);
        ls := FromLiving(s, k, id, maxAttempts);
      }
    } else {
      match s.events[id].status {
        case Processed =>
          ls := [];
        case Processing =>
          if Has(s, id, Continuing) {
            var k :| k in s.live && Is(s.live[k], id, Continuing);
            ls := FromContinuing(s, k, id, maxAttempts);
          } else {
            var k :| k in s.live && Is(s.live[k], id, Dying);
            ls := FromDying(s, k, id, maxAttempts);
          }
        case Failed =>
          if Has(s, id, Returning) {
            var k :| k in s.live && Is(s.live[k], id, Returning);
            ls := FromReturning(s, k, id, maxAttempts);
          } else {
            var k :| k in s.live && Is(s.live[k], id, Dying);
            ls := FromDying(s, k, id, maxAttempts);
          }
        case _ =>
          ls := FromRow(s, id, maxAttempts);
      }
    }
  }

  // ---------- exactly when an event can take effect twice ----------

  lemma StillReachable(s: State, ls: seq<Label>, maxAttempts: nat)
    requires Reachable(s, maxAttempts) && Runs(s, ls, maxAttempts)
    ensures Reachable(After(s, ls, maxAttempts), maxAttempts)
  {
    var past :| Runs(INIT, past, maxAttempts) && After(INIT, past, maxAttempts) == s;
    RunsConcat(INIT, past, ls, maxAttempts);
  }

  /** Some run takes `id` to a second effect without overwriting it (again) on the way. */
  ghost predicate CanTakeEffectTwice(s: State, id: string, maxAttempts: nat) {
    exists ls :: Runs(s, ls, maxAttempts)
      && TallyOf(After(s, ls, maxAttempts), id).overwrites == TallyOf(s, id).overwrites
      && TallyOf(After(s, ls, maxAttempts), id).effects >= 2
  }

  /** An event can come to a second effect without being overwritten again if and only if a dead letter has overwritten
      its processed row. */
  lemma TwiceIffOverwritten(s: State, id: string, maxAttempts: nat)
    requires maxAttempts >= 1 && Reachable(s, maxAttempts) && id in s.events && id !in s.discarded
    ensures CanTakeEffectTwice(s, id, maxAttempts) <==> TallyOf(s, id).overwrites >= 1
  {
    if CanTakeEffectTwice(s, id, maxAttempts) {
      var ls :| Runs(s, ls, maxAttempts)
        && TallyOf(After(s, ls, maxAttempts), id).overwrites == TallyOf(s, id).overwrites
        && TallyOf(After(s, ls, maxAttempts), id).effects >= 2;
      StillReachable(s, ls, maxAttempts);
      EffectsAreAccountedFor(After(s, ls, maxAttempts), id, maxAttempts);
    }
    if TallyOf(s, id).overwrites >= 1 {
      var ls := AcceptedEventsAreRecoverable(s, id, maxAttempts);
      StillReachable(s, ls, maxAttempts);
      EffectsAreAccountedFor(After(s, ls, maxAttempts), id, maxAttempts);
    }
  }

  /** Some otherwise guarded run marks the processed row of `id` dead. */
  ghost predicate CanBeOverwritten(s: State, id: string, maxAttempts: nat) {
    exists ls :: Runs(s, ls, maxAttempts) && Guarded(s, ls, id, maxAttempts)
      && TallyOf(After(s, ls, maxAttempts), id).overwrites > TallyOf(s, id).overwrites
  }

  ghost predicate Overwrites(s: State, ls: seq<Label>, id: string, maxAttempts: nat) {
    && Runs(s, ls, maxAttempts) && Guarded(s, ls, id, maxAttempts)
    && var t := After(s, ls, maxAttempts);
       && TallyOf(t, id).overwrites > TallyOf(s, id).overwrites
       && id in t.events && t.discarded == s.discarded
  }

  lemma FirstOverwrites(s: State, l: Label, ls: seq<Label>, id: string, maxAttempts: nat)
    requires Enabled(s, l) && !l.DbError? && !l.Prepare? && !l.Discard?
    requires Overwrites(Step(s, l, maxAttempts), ls, id, maxAttempts)
    requires TallyOf(Step(s, l, maxAttempts), id).overwrites >= TallyOf(s, id).overwrites
    ensures Overwrites(s, [l] + ls, id, maxAttempts)
  {
    assert ([l] + ls)[1..] == ls;
  }

  lemma RecordingOverwrites(s: State, k: nat, id: string, maxAttempts: nat) returns (ls: seq<Label>)
    requires k in s.live && (s.live[k].Recording? || s.live[k].Ignored?) && LetterFor(s.live[k].m, id)
    requires id in s.events && s.events[id].status == Processed
    ensures Overwrites(s, ls, id, maxAttempts)
  {
    var rid := FreshKey(s.dlq);
    var l := Persist(k, rid);
    assert Runs(Step(s, l, maxAttempts), [], maxAttempts);
    ls := [l];
    assert ls[1..] == [];
  }

  lemma BuriedOverwrites(s: State, k: nat, id: string, maxAttempts: nat) returns (ls: seq<Label>)
    requires k in s.live && s.live[k].Buried? && LetterFor(s.live[k].m, id)
    requires id in s.events && s.events[id].status == Processed
    ensures Overwrites(s, ls, id, maxAttempts)
  {
    var rest := RecordingOverwrites(Step(s, Deliver(k), maxAttempts), k, id, maxAttempts);
    FirstOverwrites(s, Deliver(k), rest, id, maxAttempts);
    ls := [Deliver(k)] + rest;
  }

  /** A dead letter that may still be recorded can overwrite a processed row. */
  lemma StaleLettersOverwrite(s: State, k: nat, id: string, maxAttempts: nat) returns (ls: seq<Label>)
    requires Shape(s) && k in s.live && Is(s.live[k], id, Outstanding)
    requires id in s.events && s.events[id].status == Processed
    ensures Overwrites(s, ls, id, maxAttempts)
  {
    if s.live[k].Recording? || s.live[k].Ignored? {
      ls := RecordingOverwrites(s, k, id, maxAttempts);
    } else if s.live[k].Buried? {
      ls := BuriedOverwrites(s, k, id, maxAttempts);
    } else if s.live[k].Decided? {
      var k' := FreshKey(s.live);
      SendMakes(s, k, k');
      var rest := BuriedOverwrites(Step(s, Send(k, k'), maxAttempts), k', id, maxAttempts);
      FirstOverwrites(s, Send(k, k'), rest, id, maxAttempts);
      ls := [Send(k, k')] + rest;
    } else {
      var rest := BuriedOverwrites(Step(s, Requeue(k), maxAttempts), k, id, maxAttempts);
      FirstOverwrites(s, Requeue(k), rest, id, maxAttempts);
      ls := [Requeue(k)] + rest;
    }
  }

  lemma RunningThenOverwrite(s: State, k: nat, k0: nat, id: string, maxAttempts: nat) returns (ls: seq<Label>)
    requires Shape(s) && k in s.live && s.live[k].Running? && WillRun(s, s.live[k].d, id)
    requires k0 in s.live && k0 != k && Is(s.live[k0], id, Outstanding)
    ensures Overwrites(s, ls, id, maxAttempts)
  {
    var l := Commit(k, Succeeds, "generated");
    ShapeKept(s, l, maxAttempts);
    var s' := Step(s, l, maxAttempts);
    assert s'.live[k0] == s.live[k0];
    var rest := StaleLettersOverwrite(s', k0, id, maxAttempts);
    FirstOverwrites(s, l, rest, id, maxAttempts);
    ls := [l] + rest;
  }

  lemma QueuedThenOverwrite(s: State, k: nat, k0: nat, id: string, maxAttempts: nat) returns (ls: seq<Label>)
    requires Shape(s) && k in s.live && s.live[k].Queued? && WillRun(s, s.live[k].d, id)
    requires k0 in s.live && k0 != k && Is(s.live[k0], id, Outstanding)
    ensures Overwrites(s, ls, id, maxAttempts)
  {
    ShapeKept(s, Deliver(k), maxAttempts);
    var rest := RunningThenOverwrite(Step(s, Deliver(k), maxAttempts), k, k0, id, maxAttempts);
    FirstOverwrites(s, Deliver(k), rest, id, maxAttempts);
    ls := [Deliver(k)] + rest;
  }

  lemma RedriveThenOverwrite(s: State, k: nat, k0: nat, id: string, maxAttempts: nat) returns (ls: seq<Label>)
    requires Shape(s) && k in s.live && s.live[k].Redrive? && WillRun(s, s.live[k].d, id)
    requires k0 in s.live && k0 != k && Is(s.live[k0], id, Outstanding)
    ensures Overwrites(s, ls, id, maxAttempts)
  {
    ShapeKept(s, Redriven(k), maxAttempts);
    var rest := QueuedThenOverwrite(Step(s, Redriven(k), maxAttempts), k, k0, id, maxAttempts);
    FirstOverwrites(s, Redriven(k), rest, id, maxAttempts);
    ls := [Redriven(k)] + rest;
  }

  /** After a replay, the redriven message is processed while the letter at `k0` is still outstanding. */
  lemma ReplayThenOverwrite(s: State, rid: nat, k: nat, k0: nat, id: string, maxAttempts: nat)
    returns (ls: seq<Label>)
    requires Shape(s) && Enabled(s, Prepare(rid, k)) && s.dlq[rid].eventId == Some(id)
    requires k0 in s.live && Is(s.live[k0], id, Outstanding)
    ensures Overwrites(Step(s, Prepare(rid, k), maxAttempts), ls, id, maxAttempts)
  {
    assert RowOk(s.dlq[rid]);
    GenuineRowsAreReplayable(s.dlq[rid]);
    ShapeKept(s, Prepare(rid, k), maxAttempts);
    var s' := Step(s, Prepare(rid, k), maxAttempts);
    assert s'.live[k0] == s.live[k0];
    ls := RedriveThenOverwrite(s', k, k0, id, maxAttempts);
  }

  /** A replay keeps its event exactly-once if and only if no dead letter for it is still outstanding. */
  lemma ReplayIsSafeIffNoLetterOutstanding(s: State, rid: nat, k: nat, id: string, maxAttempts: nat)
    requires maxAttempts >= 1 && Reachable(s, maxAttempts)
    requires Enabled(s, Prepare(rid, k)) && s.dlq[rid].eventId == Some(id)
    ensures !CanBeOverwritten(Step(s, Prepare(rid, k), maxAttempts), id, maxAttempts) <==> !Has(s, id, Outstanding)
  {
    ReachableInv(s, maxAttempts);
    var s' := Step(s, Prepare(rid, k), maxAttempts);
    ShapeKept(s, Prepare(rid, k), maxAttempts);
    if Has(s, id, Outstanding) {
      var k0 :| k0 in s.live && Is(s.live[k0], id, Outstanding);
      var ls := ReplayThenOverwrite(s, rid, k, k0, id, maxAttempts);
    } else if CanBeOverwritten(s', id, maxAttempts) {
      var ls :| Runs(s', ls, maxAttempts) && Guarded(s', ls, id, maxAttempts)
        && TallyOf(After(s', ls, maxAttempts), id).overwrites > TallyOf(s', id).overwrites;
      LettersFindTheFailedKept(s, Prepare(rid, k), maxAttempts, id);
      GuardedRunsNeverOverwrite(s', ls, id, maxAttempts);
    }
  }

  /** A crash after the letter's publish brings an unfinished event back to the handler, which processes it while the
      letter is still outstanding. */
  lemma CrashThenOverwrite(s: State, k: nat, id: string, maxAttempts: nat) returns (ls: seq<Label>)
    requires Shape(s) && k in s.live && s.live[k].Decided? && Is(s.live[k], id, Outstanding)
    requires id in s.events ==> s.events[id].status == Received || s.events[id].status == Processing
    ensures Overwrites(s, ls, id, maxAttempts)
  {
    var k1 := FreshKey(s.live);
    SendMakes(s, k, k1);
    ShapeKept(s, Send(k, k1), maxAttempts);
    var rest := RequeueThenOverwrite(Step(s, Send(k, k1), maxAttempts), k, k1, id, maxAttempts);
    FirstOverwrites(s, Send(k, k1), rest, id, maxAttempts);
    ls := [Send(k, k1)] + rest;
  }

  lemma RequeueThenOverwrite(s: State, k: nat, k0: nat, id: string, maxAttempts: nat) returns (ls: seq<Label>)
    requires Shape(s) && k in s.live && s.live[k].Acking? && EventIdOf(s.live[k].d.body) == Some(id)
    requires id in s.events ==> s.events[id].status == Received || s.events[id].status == Processing
    requires k0 in s.live && k0 != k && Is(s.live[k0], id, Outstanding)
    ensures Overwrites(s, ls, id, maxAttempts)
  {
    ShapeKept(s, Requeue(k), maxAttempts);
    var rest := QueuedThenOverwrite(Step(s, Requeue(k), maxAttempts), k, k0, id, maxAttempts);
    FirstOverwrites(s, Requeue(k), rest, id, maxAttempts);
    ls := [Requeue(k)] + rest;
  }

  /** A database rejection keeps its event exactly-once if and only if that event was already failed or dead. */
  lemma RejectionIsSafeIffFailedOrDead(s: State, k: nat, reason: string, generated: string, maxAttempts: nat)
    requires maxAttempts >= 1 && Reachable(s, maxAttempts) && Enabled(s, DbError(k, reason, generated))
    ensures var id := EventIdOf(s.live[k].d.body).value;
            !CanBeOverwritten(Step(s, DbError(k, reason, generated), maxAttempts), id, maxAttempts)
            <==> FailedOrDead(s, id)
  {
    var id := EventIdOf(s.live[k].d.body).value;
    ReachableInv(s, maxAttempts);
    var l := DbError(k, reason, generated);
    ShapeKept(s, l, maxAttempts);
    var s' := Step(s, l, maxAttempts);
    assert Is(s'.live[k], id, Outstanding);
    if id in s.events && s.events[id].status == Processed {
      var ls := StaleLettersOverwrite(s', k, id, maxAttempts);
    } else if id !in s.events || s.events[id].status == Received || s.events[id].status == Processing {
      var ls := CrashThenOverwrite(s', k, id, maxAttempts);
    } else if CanBeOverwritten(s', id, maxAttempts) {
      var ls :| Runs(s', ls, maxAttempts) && Guarded(s', ls, id, maxAttempts)
        && TallyOf(After(s', ls, maxAttempts), id).overwrites > TallyOf(s', id).overwrites;
      GuardedRunsNeverOverwrite(s', ls, id, maxAttempts);
    }
  }

  lemma NextReachable(s: State, l: Label, maxAttempts: nat)
    requires Reachable(s, maxAttempts) && Enabled(s, l)
    ensures Reachable(Step(s, l, maxAttempts), maxAttempts)
  {
    First(s, l, [], maxAttempts);
    StillReachable(s, [l] + [], maxAttempts);
  }

  /** A first delivery is claimed and fails for good. */
  lemma FirstFailure(d: Delivery, id: string, maxAttempts: nat) returns (s: State)
    requires EventIdOf(d.body) == Some(id) && !d.redelivered
    ensures Reachable(s, maxAttempts)
    ensures s.live.Keys == {0} && s.live[0].Decided? && s.live[0].d == d && s.live[0].decision.Bury?
    ensures id in s.events && s.events[id].status == Failed && s.dlq == map[] && s.discarded == {}
  {
    assert Runs(INIT, [], maxAttempts) && After(INIT, [], maxAttempts) == INIT;
    NextReachable(INIT, Publish(0, d), maxAttempts);
    var s1 := Step(INIT, Publish(0, d), maxAttempts);
    NextReachable(s1, Deliver(0), maxAttempts);
    var s2 := Step(s1, Deliver(0), maxAttempts);
    var claim := Commit(0, FailsPermanent("out of stock"), "generated");
    NextReachable(s2, claim, maxAttempts);
    s := Step(s2, claim, maxAttempts);
  }

  /** Its letter is published and delivered. */
  lemma FirstLetter(d: Delivery, id: string, maxAttempts: nat) returns (s: State)
    requires maxAttempts >= 1 && EventIdOf(d.body) == Some(id) && !d.redelivered
    ensures Reachable(s, maxAttempts) && s.discarded == {} && s.dlq == map[] && s.live.Keys == {0, 1}
    ensures id in s.events && s.live[1].Recording? && LetterFor(s.live[1].m, id)
  {
    var s0 := FirstFailure(d, id, maxAttempts);
    ReachableInv(s0, maxAttempts);
    NextReachable(s0, Send(0, 1), maxAttempts);
    SendMakes(s0, 0, 1);
    var s1 := Step(s0, Send(0, 1), maxAttempts);
    NextReachable(s1, Deliver(1), maxAttempts);
    s := Step(s1, Deliver(1), maxAttempts);
  }

  /** And recorded, but not yet acked. */
  lemma FirstDeath(d: Delivery, id: string, maxAttempts: nat) returns (s: State)
    requires maxAttempts >= 1 && EventIdOf(d.body) == Some(id) && !d.redelivered
    ensures Reachable(s, maxAttempts) && id !in s.discarded
    ensures id in s.events && s.events[id].status == Dead && 1 in s.live && Is(s.live[1], id, Outstanding)
    ensures 0 in s.dlq && s.dlq[0].eventId == Some(id) && 2 !in s.live && 3 !in s.live
  {
    var s0 := FirstLetter(d, id, maxAttempts);
    NextReachable(s0, Persist(1, 0), maxAttempts);
    s := Step(s0, Persist(1, 0), maxAttempts);
  }

  /** Without the guard the promise fails: an event that died once and is replayed before its letter is acked can be
      processed, marked dead by the redelivered letter, replayed and processed again. */
  lemma OneEventCanTakeEffectTwice(d: Delivery, id: string, maxAttempts: nat)
    requires maxAttempts >= 1 && EventIdOf(d.body) == Some(id) && !d.redelivered
    ensures exists s :: Reachable(s, maxAttempts) && TallyOf(s, id).effects >= 2
  {
    var s := FirstDeath(d, id, maxAttempts);
    ReachableInv(s, maxAttempts);
    assert RowOk(s.dlq[0]);
    GenuineRowsAreReplayable(s.dlq[0]);
    assert Enabled(s, Prepare(0, 2));
    var s' := Step(s, Prepare(0, 2), maxAttempts);
    NextReachable(s, Prepare(0, 2), maxAttempts);
    var ls := ReplayThenOverwrite(s, 0, 2, 1, id, maxAttempts);
    StillReachable(s', ls, maxAttempts);
    var t := After(s', ls, maxAttempts);
    ReachableInv(t, maxAttempts);
    assert PerId(t, id, maxAttempts);
    TwiceIffOverwritten(t, id, maxAttempts);
    var more :| Runs(t, more, maxAttempts) && TallyOf(After(t, more, maxAttempts), id).effects >= 2;
    StillReachable(t, more, maxAttempts);
  }
}
