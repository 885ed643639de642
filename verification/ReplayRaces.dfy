/** What becomes of a replay's message: exactly when it can be handled on top of a retry of its event, without and with
    faults after the replay, and what its commit does in each state of the event. */
module ReplayRaces {
  import opened Wrappers
  import opened Sums
  import opened Messages
  import opened Tables
  import opened Protocol
  import opened Invariants
  import opened Guarantees
  import opened Convergence
  import opened CalmRuns
  import opened Recovery

  ghost function DecisionAt(s: State, k: nat, outcome: HandlerOutcome, generated: string, maxAttempts: nat): Decision
    requires Enabled(s, Commit(k, outcome, generated))
  {
    var d := s.live[k].d;
    ProcessRow(s.events, EventOf(d, CorrelationOf(d, generated)), IsContinuation(d), maxAttempts, outcome).1
  }

  /** A continuation settles as a duplicate exactly when its event is settled; it re-emits the death of a failed event
      and is otherwise one more run of the handler. */
  lemma ContinuationsSettleIffSettled(s: State, k: nat, outcome: HandlerOutcome, generated: string, maxAttempts: nat)
    requires Enabled(s, Commit(k, outcome, generated)) && IsContinuation(s.live[k].d)
    ensures var id := EventIdOf(s.live[k].d.body).value;
            var decision := DecisionAt(s, k, outcome, generated, maxAttempts);
            var t := Step(s, Commit(k, outcome, generated), maxAttempts);
            && (decision.Duplicate? <==> id in s.events && Settled(s.events[id].status))
            && (id in s.events && s.events[id].status == Failed ==> decision.Bury? && t.events == s.events)
            && (id in s.events && (s.events[id].status == Received || s.events[id].status == Processing) ==>
                  t.events[id].attempts == s.events[id].attempts + 1
                  && TallyOf(t, id).runs == TallyOf(s, id).runs + 1)
            && (id !in s.events ==> t.events[id].attempts == 1 && TallyOf(t, id).runs == TallyOf(s, id).runs + 1)
  {
  }

  /** Of two continuations of an unfinished event the second settles as a duplicate if and only if the first
      succeeds. */
  lemma SecondSettlesIffFirstSucceeds(s: State, k: nat, k': nat, first: HandlerOutcome, second: HandlerOutcome,
                                      generated: string, maxAttempts: nat)
    requires Enabled(s, Commit(k, first, generated)) && Enabled(s, Commit(k', second, generated)) && k != k'
    requires IsContinuation(s.live[k].d) && IsContinuation(s.live[k'].d)
    requires EventIdOf(s.live[k].d.body) == EventIdOf(s.live[k'].d.body)
    requires var id := EventIdOf(s.live[k].d.body).value;
             id in s.events ==> s.events[id].status == Received || s.events[id].status == Processing
    ensures var t := Step(s, Commit(k, first, generated), maxAttempts);
            && Enabled(t, Commit(k', second, generated))
            && (DecisionAt(t, k', second, generated, maxAttempts).Duplicate? <==> first.Succeeds?)
  {
    var t := Step(s, Commit(k, first, generated), maxAttempts);
    assert t.live[k'] == s.live[k'];
    ContinuationsSettleIffSettled(t, k', second, generated, maxAttempts);
  }

  // ---------- handling a redrive on top of another message's retry ----------

  /** A replay's message about to be handled while its event is being retried. */
  ghost predicate Burns(s: State, j: nat, id: string) {
    && j in s.live && s.live[j].Running?
    && EventIdOf(s.live[j].d.body) == Some(id) && s.live[j].d.attemptHeader == Some(0)
    && id in s.events && s.events[id].status == Processing
  }

  /** A run of progress: no new input, fault or operator's action. */
  ghost predicate Progress(ls: seq<Label>) {
    forall i | 0 <= i < |ls| :: !Disturbs(ls[i])
  }

  /** Some run without further input or faults burns an attempt. */
  ghost predicate CanBurn(s: State, id: string, maxAttempts: nat) {
    exists ls, j :: Progress(ls) && Runs(s, ls, maxAttempts) && Burns(After(s, ls, maxAttempts), j, id)
  }

  /** A message that will still run the handler for `id`: a redrive, a continuation or, as long as the event has no row
      (`present` is false), any message on the work queue. */
  ghost predicate Races(p: Phase, present: bool, id: string) {
    Is(p, id, Redriving) || Is(p, id, Continuing) || (!present && (p.Queued? || p.Running?) && Is(p, id, Living))
  }

  ghost predicate InFlightAlready(s: State, id: string) {
    exists j :: j in s.live && Races(s.live[j], id in s.events, id)
  }

  ghost function Racer(present: bool, id: string): Phase -> nat {
    (p: Phase) => if Races(p, present, id) then 1 else 0
  }

  /** A replay's message that the handler has not seen. */
  ghost predicate Untried(p: Phase, id: string) {
    && (p.Redrive? || p.Waiting? || p.Queued? || p.Running?)
    && EventIdOf(p.d.body) == Some(id) && p.d.attemptHeader == Some(0)
  }

  /** At most one message will run the handler, and none is untried once the event is being retried. */
  ghost predicate Solo(s: State, id: string) {
    && Shape(s)
    && Sum(s.live, Racer(id in s.events, id)) <= 1
    && (id in s.events && s.events[id].status == Processing ==>
          forall j :: j in s.live ==> !Untried(s.live[j], id))
  }

  lemma RacersDoNotMultiply(s: State, l: Label, maxAttempts: nat, id: string)
    requires Shape(s) && Enabled(s, l) && !Disturbs(l)
    ensures var s' := Step(s, l, maxAttempts);
            var f := Racer(id in s.events, id);
            (if KeyOf(l) in s'.live then f(s'.live[KeyOf(l)]) else 0) + (if l.Send? then f(s'.live[l.k']) else 0)
            <= (if KeyOf(l) in s.live then f(s.live[KeyOf(l)]) else 0)
  {
    if l.Send? {
      SentRacers(s, l, maxAttempts, id);
    } else if l.Commit? {
      CommittedRacers(s, l, maxAttempts, id);
    } else {
      MovedRacers(s, l, maxAttempts, id);
    }
  }

  lemma MovedRacers(s: State, l: Label, maxAttempts: nat, id: string)
    requires Shape(s) && Enabled(s, l) && !Disturbs(l) && !l.Send? && !l.Commit?
    ensures var s' := Step(s, l, maxAttempts);
            var f := Racer(id in s.events, id);
            l.k in s.live && (l.k in s'.live ==> f(s'.live[l.k]) <= f(s.live[l.k]))
  {
    assert PhaseOk(s.live[l.k]);
  }

  lemma SentRacers(s: State, l: Label, maxAttempts: nat, id: string)
    requires Shape(s) && Enabled(s, l) && l.Send?
    ensures var s' := Step(s, l, maxAttempts);
            var f := Racer(id in s.events, id);
            l.k in s'.live && l.k' in s'.live && f(s'.live[l.k]) + f(s'.live[l.k']) <= f(s.live[l.k])
  {
    SendMakes(s, l.k, l.k');
  }

  lemma CommittedRacers(s: State, l: Label, maxAttempts: nat, id: string)
    requires Enabled(s, l) && l.Commit?
    ensures var s' := Step(s, l, maxAttempts);
            var f := Racer(id in s.events, id);
            l.k in s'.live && f(s'.live[l.k]) <= f(s.live[l.k])
  {
  }

  lemma FewRacersKept(s: State, l: Label, maxAttempts: nat, id: string)
    requires Shape(s) && Enabled(s, l) && !Disturbs(l)
    ensures var s' := Step(s, l, maxAttempts);
            Sum(s'.live, Racer(id in s'.events, id)) <= Sum(s.live, Racer(id in s.events, id))
  {
    var s' := Step(s, l, maxAttempts);
    SumsMove(s, l, maxAttempts, Racer(id in s.events, id));
    RacersDoNotMultiply(s, l, maxAttempts, id);
    RowsStay(s, l, maxAttempts, id);
    SumMonotone(s'.live, Racer(id in s'.events, id), Racer(id in s.events, id));
  }

  lemma RowsStay(s: State, l: Label, maxAttempts: nat, id: string)
    requires Enabled(s, l)
    ensures id in s.events ==> id in Step(s, l, maxAttempts).events
  {
  }

  lemma TwoRacers(s: State, id: string, present: bool, k: nat, j: nat)
    requires k in s.live && j in s.live && k != j && Races(s.live[k], present, id) && Races(s.live[j], present, id)
    ensures Sum(s.live, Racer(present, id)) >= 2
  {
    SumRemove(s.live, Racer(present, id), k);
    SumRemove(s.live - {k}, Racer(present, id), j);
  }

  /** Only a commit of a message that raced starts a retry, and the retry is that message's own. */
  lemma RetriesAreOwn(s: State, l: Label, maxAttempts: nat, id: string)
    requires Shape(s) && Enabled(s, l) && !Disturbs(l)
    requires var s' := Step(s, l, maxAttempts);
             && id in s'.events && s'.events[id].status == Processing
             && !(id in s.events && s.events[id].status == Processing)
    ensures l.Commit? && Is(Step(s, l, maxAttempts).live[l.k], id, Continuing)
  {
    if !Touches(s, l, id) {
      UntouchedRow(s, l, maxAttempts, id);
    }
  }

  lemma UntriedBefore(s: State, l: Label, maxAttempts: nat, id: string, j: nat)
    requires Shape(s) && Enabled(s, l) && !Disturbs(l)
    requires j in Step(s, l, maxAttempts).live && Untried(Step(s, l, maxAttempts).live[j], id)
    ensures j in s.live && Untried(s.live[j], id)
  {
    if l.Send? && j == l.k' {
      assert PhaseOk(s.live[l.k]);
      SendMakes(s, l.k, l.k');
    }
  }

  lemma SoloKept(s: State, l: Label, maxAttempts: nat, id: string)
    requires Solo(s, id) && Enabled(s, l) && !Disturbs(l)
    ensures Solo(Step(s, l, maxAttempts), id)
  {
    var s' := Step(s, l, maxAttempts);
    ShapeKept(s, l, maxAttempts);
    FewRacersKept(s, l, maxAttempts, id);
    if id in s'.events && s'.events[id].status == Processing {
      forall j | j in s'.live ensures !Untried(s'.live[j], id) {
        if Untried(s'.live[j], id) {
          UntriedBefore(s, l, maxAttempts, id, j);
          RetriesAreOwn(s, l, maxAttempts, id);
          UntriedRaces(s', j, id);
          TwoRacers(s', id, true, l.k, j);
        }
      }
    }
  }

  lemma UntriedRaces(s: State, j: nat, id: string)
    requires Shape(s) && j in s.live && Untried(s.live[j], id)
    ensures Races(s.live[j], true, id)
  {
    assert PhaseOk(s.live[j]);
  }

  lemma {:induction false} SoloRunsNeverBurn(s: State, ls: seq<Label>, maxAttempts: nat, id: string)
    requires Solo(s, id) && Runs(s, ls, maxAttempts) && Progress(ls)
    ensures Solo(After(s, ls, maxAttempts), id)
    decreases |ls|
  {
    if ls != [] {
      assert !Disturbs(ls[0]);
      assert forall i | 0 <= i < |ls[1..]| :: ls[1..][i] == ls[i + 1];
      SoloKept(s, ls[0], maxAttempts, id);
      SoloRunsNeverBurn(Step(s, ls[0], maxAttempts), ls[1..], maxAttempts, id);
    }
  }

  lemma LoneReplaysAreSolo(s: State, rid: nat, k: nat, id: string, maxAttempts: nat)
    requires Shape(s) && Enabled(s, Prepare(rid, k)) && s.dlq[rid].eventId == Some(id) && !InFlightAlready(s, id)
    ensures Solo(Step(s, Prepare(rid, k), maxAttempts), id)
  {
    var f := Racer(id in s.events, id);
    ShapeKept(s, Prepare(rid, k), maxAttempts);
    forall j | j in s.live ensures f(s.live[j]) == 0 {
    }
    SumZero(s.live, f);
    SumsMove(s, Prepare(rid, k), maxAttempts, f);
  }

  // ---------- the other way: a message in flight can be overtaken ----------

  /** The run `ls` brings a message of `id` other than the one at `k` to the handler and leaves that one alone. */
  ghost predicate Brings(s: State, ls: seq<Label>, c: nat, k: nat, id: string, maxAttempts: nat)
    requires k in s.live
  {
    && Progress(ls) && Runs(s, ls, maxAttempts)
    && var t := After(s, ls, maxAttempts);
       && t.events == s.events && Shape(t)
       && k in t.live && t.live[k] == s.live[k]
       && c in t.live && c != k && t.live[c].Running? && WillRun(t, t.live[c].d, id)
  }

  lemma FirstBrings(s: State, l: Label, ls: seq<Label>, c: nat, k: nat, id: string, maxAttempts: nat)
    requires Enabled(s, l) && !Disturbs(l) && k in s.live
    requires var s' := Step(s, l, maxAttempts);
             && s'.events == s.events && k in s'.live && s'.live[k] == s.live[k]
             && Brings(s', ls, c, k, id, maxAttempts)
    ensures Brings(s, [l] + ls, c, k, id, maxAttempts)
  {
    First(s, l, ls, maxAttempts);
    forall i | 0 <= i < |[l] + ls| ensures !Disturbs(([l] + ls)[i]) {
      assert ([l] + ls)[i] == if i == 0 then l else ls[i - 1];
    }
  }

  lemma BringQueued(s: State, j: nat, k: nat, id: string, maxAttempts: nat) returns (ls: seq<Label>)
    requires Shape(s) && k in s.live && j in s.live && j != k
    requires (s.live[j].Queued? || s.live[j].Running?) && WillRun(s, s.live[j].d, id)
    ensures Brings(s, ls, j, k, id, maxAttempts)
  {
    if s.live[j].Running? {
      ls := [];
    } else {
      var l := Deliver(j);
      ShapeKept(s, l, maxAttempts);
      assert Brings(Step(s, l, maxAttempts), [], j, k, id, maxAttempts);
      FirstBrings(s, l, [], j, k, id, maxAttempts);
      ls := [l] + [];
    }
  }

  lemma BringWaiting(s: State, j: nat, k: nat, id: string, maxAttempts: nat) returns (ls: seq<Label>)
    requires Shape(s) && k in s.live && j in s.live && j != k
    requires (s.live[j].Waiting? || s.live[j].Redrive?) && WillRun(s, s.live[j].d, id)
    ensures Brings(s, ls, j, k, id, maxAttempts)
  {
    assert PhaseOk(s.live[j]);
    var l := if s.live[j].Waiting? then Expire(j) else Redriven(j);
    ShapeKept(s, l, maxAttempts);
    var rest := BringQueued(Step(s, l, maxAttempts), j, k, id, maxAttempts);
    FirstBrings(s, l, rest, j, k, id, maxAttempts);
    ls := [l] + rest;
  }

  lemma BringRetry(s: State, j: nat, k: nat, id: string, maxAttempts: nat) returns (ls: seq<Label>, c: nat)
    requires Shape(s) && k in s.live && j in s.live && j != k && s.live[j].Decided? && Is(s.live[j], id, Continuing)
    requires id in s.events ==> s.events[id].status == Received
    ensures Brings(s, ls, c, k, id, maxAttempts)
  {
    assert PhaseOk(s.live[j]);
    c := FreshKey(s.live);
    var l := Send(j, c);
    SendMakes(s, j, c);
    ShapeKept(s, l, maxAttempts);
    var rest := BringWaiting(Step(s, l, maxAttempts), c, k, id, maxAttempts);
    FirstBrings(s, l, rest, c, k, id, maxAttempts);
    ls := [l] + rest;
  }

  lemma BringRacer(s: State, j: nat, k: nat, id: string, maxAttempts: nat) returns (ls: seq<Label>, c: nat)
    requires Shape(s) && k in s.live && j in s.live && j != k && Races(s.live[j], id in s.events, id)
    requires id in s.events ==> s.events[id].status == Received
    ensures Brings(s, ls, c, k, id, maxAttempts)
  {
    assert PhaseOk(s.live[j]);
    c := j;
    if s.live[j].Decided? {
      ls, c := BringRetry(s, j, k, id, maxAttempts);
    } else if s.live[j].Waiting? || s.live[j].Redrive? {
      ls := BringWaiting(s, j, k, id, maxAttempts);
    } else {
      ls := BringQueued(s, j, k, id, maxAttempts);
    }
  }

  /** Once the other message's handler has failed, the redrive can be delivered on top of its retry. */
  lemma FailureThenBurn(s: State, c: nat, k: nat, id: string, maxAttempts: nat) returns (ls: seq<Label>)
    requires maxAttempts >= 2 && k in s.live && Untried(s.live[k], id) && s.live[k].Redrive?
    requires c in s.live && c != k && s.live[c].Running? && WillRun(s, s.live[c].d, id)
    requires id in s.events ==> s.events[id].status == Received && s.events[id].attempts == 0
    ensures Progress(ls) && Runs(s, ls, maxAttempts) && Burns(After(s, ls, maxAttempts), k, id)
  {
    var fail := Commit(c, FailsTransient("out of reach"), "generated");
    var s1 := Step(s, fail, maxAttempts);
    assert s1.live[k] == s.live[k];
    var s2 := Step(s1, Redriven(k), maxAttempts);
    var s3 := Step(s2, Deliver(k), maxAttempts);
    assert Runs(s3, [], maxAttempts);
    First(s2, Deliver(k), [], maxAttempts);
    First(s1, Redriven(k), [Deliver(k)] + [], maxAttempts);
    First(s, fail, [Redriven(k)] + ([Deliver(k)] + []), maxAttempts);
    ls := [fail] + ([Redriven(k)] + ([Deliver(k)] + []));
    assert ls == [fail, Redriven(k), Deliver(k)];
  }

  lemma ProgressConcat(a: seq<Label>, b: seq<Label>)
    requires Progress(a) && Progress(b)
    ensures Progress(a + b)
  {
  }

  lemma RacedReplaysCanBurn(s: State, rid: nat, k: nat, id: string, maxAttempts: nat)
    requires maxAttempts >= 2 && Shape(s) && Enabled(s, Prepare(rid, k)) && s.dlq[rid].eventId == Some(id)
    requires InFlightAlready(s, id)
    ensures CanBurn(Step(s, Prepare(rid, k), maxAttempts), id, maxAttempts)
  {
    var j :| j in s.live && Races(s.live[j], id in s.events, id);
    var l := Prepare(rid, k);
    assert RowOk(s.dlq[rid]);
    GenuineRowsAreReplayable(s.dlq[rid]);
    ShapeKept(s, l, maxAttempts);
    var s' := Step(s, l, maxAttempts);
    assert s'.live[j] == s.live[j];
    var ls, c := BringRacer(s', j, k, id, maxAttempts);
    var more := FailureThenBurn(After(s', ls, maxAttempts), c, k, id, maxAttempts);
    ProgressConcat(ls, more);
    RunsConcat(s', ls, more, maxAttempts);
  }

  /** Without further input or faults: a replay's message can be handled on top of another message's retry - running the
      handler and using up an attempt instead of settling as a duplicate - if and only if, when the replay is made,
      another message of the event is in flight already and the limit allows a retry at all. */
  lemma ReplayBurnsIffInFlightAlready(s: State, rid: nat, k: nat, id: string, maxAttempts: nat)
    requires maxAttempts >= 1 && Reachable(s, maxAttempts)
    requires Enabled(s, Prepare(rid, k)) && s.dlq[rid].eventId == Some(id)
    ensures CanBurn(Step(s, Prepare(rid, k), maxAttempts), id, maxAttempts)
            <==> maxAttempts >= 2 && InFlightAlready(s, id)
  {
    ReachableInv(s, maxAttempts);
    var s' := Step(s, Prepare(rid, k), maxAttempts);
    NextReachable(s, Prepare(rid, k), maxAttempts);
    if maxAttempts >= 2 && InFlightAlready(s, id) {
      RacedReplaysCanBurn(s, rid, k, id, maxAttempts);
    } else if CanBurn(s', id, maxAttempts) {
      var ls, j :| Progress(ls) && Runs(s', ls, maxAttempts) && Burns(After(s', ls, maxAttempts), j, id);
      StillReachable(s', ls, maxAttempts);
      RetryBudget(After(s', ls, maxAttempts), id, maxAttempts);
      if maxAttempts >= 2 {
        LoneReplaysAreSolo(s, rid, k, id, maxAttempts);
        SoloRunsNeverBurn(s', ls, maxAttempts, id);
      }
    }
  }

  /** A run in which messages may be handed back, but without new input and without operator's actions. */
  ghost predicate Faulty(ls: seq<Label>) {
    forall i | 0 <= i < |ls| :: !ls[i].Publish? && !ls[i].Prepare? && !ls[i].Discard?
  }

  ghost predicate CanBurnWithFaults(s: State, id: string, maxAttempts: nat) {
    exists ls, j :: Faulty(ls) && Runs(s, ls, maxAttempts) && Burns(After(s, ls, maxAttempts), j, id)
  }

  lemma AckingThenBurn(s: State, k: nat, id: string, maxAttempts: nat) returns (ls: seq<Label>)
    requires k in s.live && s.live[k].Acking? && EventIdOf(s.live[k].d.body) == Some(id)
    requires s.live[k].d.attemptHeader == Some(0) && id in s.events && s.events[id].status == Processing
    ensures Faulty(ls) && Runs(s, ls, maxAttempts) && Burns(After(s, ls, maxAttempts), k, id)
  {
    var s1 := Step(s, Requeue(k), maxAttempts);
    var s2 := Step(s1, Deliver(k), maxAttempts);
    assert Runs(s2, [], maxAttempts);
    First(s1, Deliver(k), [], maxAttempts);
    First(s, Requeue(k), [Deliver(k)] + [], maxAttempts);
    ls := [Requeue(k)] + ([Deliver(k)] + []);
    assert ls == [Requeue(k), Deliver(k)];
  }

  lemma FirstFaulty(l: Label, ls: seq<Label>)
    requires !l.Publish? && !l.Prepare? && !l.Discard? && Faulty(ls)
    ensures Faulty([l] + ls)
  {
    forall i | 0 <= i < |[l] + ls| ensures var m := ([l] + ls)[i]; !m.Publish? && !m.Prepare? && !m.Discard? {
      assert ([l] + ls)[i] == if i == 0 then l else ls[i - 1];
    }
  }

  /** One crash between the publish of its own retry and its ack brings the redrive back to the handler. */
  lemma CrashThenBurn(s: State, k: nat, id: string, maxAttempts: nat) returns (ls: seq<Label>)
    requires maxAttempts >= 2 && k in s.live && s.live[k].Running? && WillRun(s, s.live[k].d, id)
    requires s.live[k].d.attemptHeader == Some(0)
    requires id in s.events ==> s.events[id].status == Received && s.events[id].attempts == 0
    ensures Faulty(ls) && Runs(s, ls, maxAttempts) && Burns(After(s, ls, maxAttempts), k, id)
  {
    var fail := Commit(k, FailsTransient("out of reach"), "generated");
    var k' := FreshKey(s.live);
    var s1 := Step(s, fail, maxAttempts);
    assert s1.live[k] == Decided(s.live[k].d, CorrelationOf(s.live[k].d, "generated"), Retry(1));
    ls := AckingThenBurn(Step(s1, Send(k, k'), maxAttempts), k, id, maxAttempts);
    First(s1, Send(k, k'), ls, maxAttempts);
    FirstFaulty(Send(k, k'), ls);
    First(s, fail, [Send(k, k')] + ls, maxAttempts);
    FirstFaulty(fail, [Send(k, k')] + ls);
    ls := [fail] + ([Send(k, k')] + ls);
  }

  lemma RedriveThenBurn(s: State, k: nat, id: string, maxAttempts: nat)
    requires maxAttempts >= 2 && k in s.live && s.live[k].Redrive? && WillRun(s, s.live[k].d, id)
    requires s.live[k].d.attemptHeader == Some(0)
    requires id in s.events ==> s.events[id].status == Received && s.events[id].attempts == 0
    ensures CanBurnWithFaults(s, id, maxAttempts)
  {
    var s1 := Step(s, Redriven(k), maxAttempts);
    var ls := CrashThenBurn(Step(s1, Deliver(k), maxAttempts), k, id, maxAttempts);
    First(s1, Deliver(k), ls, maxAttempts);
    FirstFaulty(Deliver(k), ls);
    First(s, Redriven(k), [Deliver(k)] + ls, maxAttempts);
    FirstFaulty(Redriven(k), [Deliver(k)] + ls);
    assert Faulty([Redriven(k)] + ([Deliver(k)] + ls));
  }

  /** With faults: any replay's message can be handled on top of a retry, be it its own, as soon as the limit allows a
      retry at all. */
  lemma FaultsLetAnyReplayBurn(s: State, rid: nat, k: nat, id: string, maxAttempts: nat)
    requires maxAttempts >= 1 && Reachable(s, maxAttempts)
    requires Enabled(s, Prepare(rid, k)) && s.dlq[rid].eventId == Some(id)
    ensures CanBurnWithFaults(Step(s, Prepare(rid, k), maxAttempts), id, maxAttempts) <==> maxAttempts >= 2
  {
    ReachableInv(s, maxAttempts);
    var s' := Step(s, Prepare(rid, k), maxAttempts);
    NextReachable(s, Prepare(rid, k), maxAttempts);
    if maxAttempts >= 2 {
      ShapeKept(s, Prepare(rid, k), maxAttempts);
      assert RowOk(s.dlq[rid]);
      GenuineRowsAreReplayable(s.dlq[rid]);
      RedriveThenBurn(s', k, id, maxAttempts);
    } else if CanBurnWithFaults(s', id, maxAttempts) {
      var ls, j :| Faulty(ls) && Runs(s', ls, maxAttempts) && Burns(After(s', ls, maxAttempts), j, id);
      StillReachable(s', ls, maxAttempts);
      RetryBudget(After(s', ls, maxAttempts), id, maxAttempts);
    }
  }

  /** What burning means: whatever the handler answers, the commit is one more run and one more attempt. */
  lemma BurningUsesAnAttempt(s: State, j: nat, id: string, outcome: HandlerOutcome, generated: string,
                             maxAttempts: nat)
    requires Burns(s, j, id) && generated != ""
    ensures Enabled(s, Commit(j, outcome, generated))
    ensures !DecisionAt(s, j, outcome, generated, maxAttempts).Duplicate?
    ensures var t := Step(s, Commit(j, outcome, generated), maxAttempts);
            && t.events[id].attempts == s.events[id].attempts + 1
            && TallyOf(t, id).runs == TallyOf(s, id).runs + 1
  {
    ContinuationsSettleIffSettled(s, j, outcome, generated, maxAttempts);
  }

  /** A replay can be repeated before its redrive is published, and then another message is in flight already. */
  lemma ReplaysMayRepeat(s: State, rid: nat, k: nat, k': nat, id: string, maxAttempts: nat)
    requires Shape(s) && Enabled(s, Prepare(rid, k)) && s.dlq[rid].eventId == Some(id) && id in s.events
    requires k' !in s.live && k' != k
    ensures var s' := Step(s, Prepare(rid, k), maxAttempts);
            && Enabled(s', Prepare(rid, k')) && s'.dlq[rid].eventId == Some(id)
            && s'.events[id].status == Received && InFlightAlready(s', id)
  {
    assert RowOk(s.dlq[rid]);
    GenuineRowsAreReplayable(s.dlq[rid]);
    assert Races(Step(s, Prepare(rid, k), maxAttempts).live[k], true, id);
  }

  /** An event that died has been replayed once, and its redrive is still to be published. */
  lemma FirstReplay(d: Delivery, id: string, maxAttempts: nat) returns (s: State)
    requires maxAttempts >= 1 && EventIdOf(d.body) == Some(id) && !d.redelivered
    ensures Reachable(s, maxAttempts) && id in s.events && s.events[id].status == Received
    ensures Enabled(s, Prepare(0, 3)) && s.dlq[0].eventId == Some(id) && InFlightAlready(s, id)
  {
    var s0 := FirstDeath(d, id, maxAttempts);
    ReachableInv(s0, maxAttempts);
    DeadIsReplayable(s0, 0, 2, id);
    ReplaysMayRepeat(s0, 0, 2, 3, id, maxAttempts);
    NextReachable(s0, Prepare(0, 2), maxAttempts);
    s := Step(s0, Prepare(0, 2), maxAttempts);
  }

  lemma DeadIsReplayable(s: State, rid: nat, k: nat, id: string)
    requires Shape(s) && rid in s.dlq && s.dlq[rid].eventId == Some(id) && k !in s.live
    requires id in s.events && s.events[id].status == Dead
    ensures Enabled(s, Prepare(rid, k))
  {
    assert RowOk(s.dlq[rid]);
    GenuineRowsAreReplayable(s.dlq[rid]);
  }

  /** It happens: an event that died is replayed twice, the second time while it is received; the handler fails one of
      the two messages, and then the other is about to be handled on top of the retry. */
  lemma ARedriveCanBurnAnAttempt(d: Delivery, id: string, maxAttempts: nat)
    requires maxAttempts >= 2 && EventIdOf(d.body) == Some(id) && !d.redelivered
    ensures exists s, j :: Reachable(s, maxAttempts) && Burns(s, j, id)
  {
    var s := FirstReplay(d, id, maxAttempts);
    NextReachable(s, Prepare(0, 3), maxAttempts);
    var s' := Step(s, Prepare(0, 3), maxAttempts);
    ReplayBurnsIffInFlightAlready(s, 0, 3, id, maxAttempts);
    var ls, j :| Progress(ls) && Runs(s', ls, maxAttempts) && Burns(After(s', ls, maxAttempts), j, id);
    StillReachable(s', ls, maxAttempts);
  }
}
