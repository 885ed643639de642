/** The system quiesces: only new input and faults can keep it busy, and each buys a bounded amount of work. */
module Convergence {
  import opened Wrappers
  import opened Sums
  import opened Messages
  import opened Tables
  import opened Protocol
  import opened Invariants

  // One rung of the retry ladder pays for publishing a retry and bringing it back to the handler.
  const RUNG: nat := 5

  function Rungs(attempts: nat, maxAttempts: nat): nat {
    if attempts <= maxAttempts then RUNG * (maxAttempts - attempts) else 0
  }

  function RowWeight(maxAttempts: nat): EventRow -> nat {
    (row: EventRow) => Rungs(row.attempts, maxAttempts)
  }

  /** A message whose event has no row yet may still climb the whole ladder. */
  function Unclaimed(events: Events, d: Delivery, maxAttempts: nat): nat {
    if EventIdOf(d.body).Some? && EventIdOf(d.body).value in events then 0 else RUNG * maxAttempts
  }

  function Weight(events: Events, maxAttempts: nat, p: Phase): nat {
    match p
    case Waiting(d, _) => 9 + Unclaimed(events, d, maxAttempts)
    case Redrive(d) => 9 + Unclaimed(events, d, maxAttempts)
    case Queued(d) => 8 + Unclaimed(events, d, maxAttempts)
    case Running(d) => 7 + Unclaimed(events, d, maxAttempts)
    case Decided(d, _, decision) => if decision.Bury? then 6 else 11 + Unclaimed(events, d, maxAttempts)
    case Buried(_) => 4
    case Recording(_) => 3
    case Ignored(_) => 2
    case Overlooked(_) => 2
    case Stored(_) => 1
    case Acking(_) => 1
  }

  function PhaseWeight(events: Events, maxAttempts: nat): Phase -> nat {
    (p: Phase) => Weight(events, maxAttempts, p)
  }

  ghost function LiveWeight(s: State, maxAttempts: nat): nat {
    Sum(s.live, PhaseWeight(s.events, maxAttempts))
  }

  ghost function Work(s: State, maxAttempts: nat): nat {
    Sum(s.events, RowWeight(maxAttempts)) + LiveWeight(s, maxAttempts)
  }

  /** New input, faults that hand a message back, and operator actions; every other step is progress. */
  predicate Disturbs(l: Label) {
    l.Publish? || l.Requeue? || l.HandBack? || l.Prepare? || l.Discard?
  }

  /** What a disturbance may add to the work left. */
  function Cost(l: Label, maxAttempts: nat): nat {
    match l
    case Publish(_, _) => 8 + RUNG * maxAttempts
    case Requeue(_) => 8 + RUNG * maxAttempts
    case HandBack(_, _) => 8 + RUNG * maxAttempts
    case Prepare(_, _) => 9 + 2 * RUNG * maxAttempts
    case _ => 0
  }

  /** A committed row lightens every message of its event. */
  lemma Claimed(live: map<nat, Phase>, events: Events, id: string, row: EventRow, maxAttempts: nat)
    ensures Sum(live, PhaseWeight(events[id := row], maxAttempts)) <= Sum(live, PhaseWeight(events, maxAttempts))
  {
    SumMonotone(live, PhaseWeight(events[id := row], maxAttempts), PhaseWeight(events, maxAttempts));
  }

  lemma SameClaims(live: map<nat, Phase>, events: Events, events': Events, maxAttempts: nat)
    requires events.Keys == events'.Keys
    ensures Sum(live, PhaseWeight(events', maxAttempts)) == Sum(live, PhaseWeight(events, maxAttempts))
  {
    assert forall id :: id in events <==> id in events.Keys;
    assert forall id :: id in events' <==> id in events'.Keys;
    SumMonotone(live, PhaseWeight(events', maxAttempts), PhaseWeight(events, maxAttempts));
    SumMonotone(live, PhaseWeight(events, maxAttempts), PhaseWeight(events', maxAttempts));
  }

  lemma CommitWorks(s: State, l: Label, maxAttempts: nat)
    requires Enabled(s, l) && l.Commit?
    ensures Work(Step(s, l, maxAttempts), maxAttempts) < Work(s, maxAttempts)
  {
    var s' := Step(s, l, maxAttempts);
    var id := EventIdOf(s.live[l.k].d.body).value;
    var old_, new_ := PhaseWeight(s.events, maxAttempts), PhaseWeight(s'.events, maxAttempts);
    SumMoves(s.events, RowWeight(maxAttempts), id, s'.events[id]);
    SumRemove(s.live, old_, l.k);
    SumUpdate(s.live, new_, l.k, s'.live[l.k]);
    Claimed(s.live - {l.k}, s.events, id, s'.events[id], maxAttempts);
    CommitPays(s, l, maxAttempts);
  }

  /** The committing message and its row together get strictly lighter. */
  lemma CommitPays(s: State, l: Label, maxAttempts: nat)
    requires Enabled(s, l) && l.Commit?
    ensures var s' := Step(s, l, maxAttempts);
            var id := EventIdOf(s.live[l.k].d.body).value;
            Weight(s'.events, maxAttempts, s'.live[l.k]) + Rungs(s'.events[id].attempts, maxAttempts)
            < Weight(s.events, maxAttempts, s.live[l.k])
              + (if id in s.events then Rungs(s.events[id].attempts, maxAttempts) else 0)
  {
    var s' := Step(s, l, maxAttempts);
    var id := EventIdOf(s.live[l.k].d.body).value;
    if id !in s.events {
      assert s'.events[id].attempts == 1;
      assert Rungs(1, maxAttempts) <= RUNG * maxAttempts;
    }
  }

  lemma ResetWorks(events: Events, id: string, maxAttempts: nat)
    ensures Sum(ResetForReplay(events, id), RowWeight(maxAttempts))
         <= Sum(events, RowWeight(maxAttempts)) + RUNG * maxAttempts
    ensures ResetForReplay(events, id).Keys == events.Keys
  {
    if id in events {
      SumMoves(events, RowWeight(maxAttempts), id,
               events[id].(status := Received, attempts := 0, failureReason := None));
    }
  }

  /** One message moves or joins while rows change but none appears: the work changes by the message's weight and by
      what the rows gained. */
  lemma OneMoves(s: State, t: State, k: nat, gain: nat, maxAttempts: nat)
    requires t.events.Keys == s.events.Keys && k in t.live && t.live == s.live[k := t.live[k]]
    requires Sum(t.events, RowWeight(maxAttempts)) <= Sum(s.events, RowWeight(maxAttempts)) + gain
    ensures Work(t, maxAttempts) + (if k in s.live then Weight(s.events, maxAttempts, s.live[k]) else 0)
         <= Work(s, maxAttempts) + Weight(s.events, maxAttempts, t.live[k]) + gain
  {
    SameClaims(t.live, s.events, t.events, maxAttempts);
    SumMoves(s.live, PhaseWeight(s.events, maxAttempts), k, t.live[k]);
  }

  lemma PrepareDoes(s: State, l: Label, maxAttempts: nat)
    requires Enabled(s, l) && l.Prepare?
    ensures var s' := Step(s, l, maxAttempts);
            && s'.events == ResetForReplay(s.events, s.dlq[l.rid].eventId.value)
            && l.k in s'.live && s'.live == s.live[l.k := s'.live[l.k]] && l.k !in s.live
            && Weight(s.events, maxAttempts, s'.live[l.k]) <= 9 + RUNG * maxAttempts
  {
  }

  /** A reset adds at most one ladder to the rows, and its message joins. */
  lemma ResetMoves(s: State, t: State, k: nat, id: string, maxAttempts: nat)
    requires t.events == ResetForReplay(s.events, id)
    requires k !in s.live && k in t.live && t.live == s.live[k := t.live[k]]
    ensures Work(t, maxAttempts) <= Work(s, maxAttempts) + Weight(s.events, maxAttempts, t.live[k]) + RUNG * maxAttempts
  {
    ResetWorks(s.events, id, maxAttempts);
    OneMoves(s, t, k, RUNG * maxAttempts, maxAttempts);
  }

  lemma PrepareWorks(s: State, l: Label, maxAttempts: nat)
    requires Enabled(s, l) && l.Prepare?
    ensures Work(Step(s, l, maxAttempts), maxAttempts) <= Work(s, maxAttempts) + Cost(l, maxAttempts)
  {
    PrepareDoes(s, l, maxAttempts);
    ResetMoves(s, Step(s, l, maxAttempts), l.k, s.dlq[l.rid].eventId.value, maxAttempts);
  }

  lemma MarkedWorks(events: Events, id: Option<string>, maxAttempts: nat)
    ensures Sum(MarkDead(events, id), RowWeight(maxAttempts)) == Sum(events, RowWeight(maxAttempts))
    ensures MarkDead(events, id).Keys == events.Keys
  {
    if id.Some? && id.value in events {
      SumMoves(events, RowWeight(maxAttempts), id.value, events[id.value].(status := Dead));
    }
  }

  lemma PersistDoes(s: State, l: Label, maxAttempts: nat)
    requires Enabled(s, l) && l.Persist?
    ensures var s' := Step(s, l, maxAttempts);
            && (s'.events == s.events || s'.events == MarkDead(s.events, RowOf(s.live[l.k].m).eventId))
            && s'.live == s.live[l.k := Stored(s.live[l.k].m)]
            && (s.live[l.k].Recording? || s.live[l.k].Ignored? || s.live[l.k].Overlooked?)
  {
  }

  lemma PersistWorks(s: State, l: Label, maxAttempts: nat)
    requires Enabled(s, l) && l.Persist?
    ensures Work(Step(s, l, maxAttempts), maxAttempts) < Work(s, maxAttempts)
  {
    var s' := Step(s, l, maxAttempts);
    PersistDoes(s, l, maxAttempts);
    MarkedWorks(s.events, RowOf(s.live[l.k].m).eventId, maxAttempts);
    OneMoves(s, s', l.k, 0, maxAttempts);
  }

  lemma SendDoes(s: State, l: Label, maxAttempts: nat)
    requires Shape(s) && Enabled(s, l) && l.Send?
    ensures var s' := Step(s, l, maxAttempts);
            && s'.events == s.events
            && s'.live == s.live[l.k := Acking(s.live[l.k].d)][l.k' := s'.live[l.k']]
            && Weight(s.events, maxAttempts, s'.live[l.k']) + 1 < Weight(s.events, maxAttempts, s.live[l.k])
  {
    SendMakes(s, l.k, l.k');
  }

  lemma SendWorks(s: State, l: Label, maxAttempts: nat)
    requires Shape(s) && Enabled(s, l) && l.Send?
    ensures Work(Step(s, l, maxAttempts), maxAttempts) < Work(s, maxAttempts)
  {
    SendDoes(s, l, maxAttempts);
    TwoMove(s, Step(s, l, maxAttempts), l.k, Acking(s.live[l.k].d), l.k', maxAttempts);
  }

  /** One message changes and another joins. */
  lemma TwoMove(s: State, t: State, k: nat, p: Phase, k': nat, maxAttempts: nat)
    requires t.events == s.events && k in s.live && k' !in s.live && k' in t.live
    requires t.live == s.live[k := p][k' := t.live[k']]
    ensures Work(t, maxAttempts) + Weight(s.events, maxAttempts, s.live[k])
         == Work(s, maxAttempts) + Weight(s.events, maxAttempts, p) + Weight(s.events, maxAttempts, t.live[k'])
  {
    SumMoves(s.live, PhaseWeight(s.events, maxAttempts), k, p);
    SumMoves(s.live[k := p], PhaseWeight(s.events, maxAttempts), k', t.live[k']);
  }

  /** The steps that only move one message along. */
  predicate OnlyMoves(l: Label) {
    OnlyAdvances(l) || l.Publish? || l.Requeue?
  }

  predicate OnlyAdvances(l: Label) {
    l.Deliver? || l.Reject? || l.DbError? || l.Expire? || l.Ignore? || l.Overlook? || l.Redriven?
  }

  lemma OnlyMovesOne(s: State, l: Label, maxAttempts: nat)
    requires Enabled(s, l) && OnlyMoves(l)
    ensures var s' := Step(s, l, maxAttempts);
            s'.events == s.events && l.k in s'.live && s'.live == s.live[l.k := s'.live[l.k]]
  {
  }

  lemma AdvancesLighten(s: State, l: Label, maxAttempts: nat)
    requires Enabled(s, l) && OnlyAdvances(l)
    ensures var s' := Step(s, l, maxAttempts);
            && l.k in s.live && l.k in s'.live
            && Weight(s.events, maxAttempts, s'.live[l.k]) < Weight(s.events, maxAttempts, s.live[l.k])
  {
  }

  lemma ReturnsWeigh(s: State, l: Label, maxAttempts: nat)
    requires Enabled(s, l) && (l.Publish? || l.Requeue?)
    ensures var s' := Step(s, l, maxAttempts);
            l.k in s'.live && Weight(s.events, maxAttempts, s'.live[l.k]) <= Cost(l, maxAttempts)
  {
  }

  lemma HandBackWorks(s: State, l: Label, maxAttempts: nat)
    requires Enabled(s, l) && l.HandBack?
    ensures Work(Step(s, l, maxAttempts), maxAttempts) <= Work(s, maxAttempts) + Cost(l, maxAttempts)
  {
    SumMoves(s.live, PhaseWeight(s.events, maxAttempts), l.k', Requeued(s.live[l.k]));
  }

  /** Every step of progress leaves strictly less work; a disturbance adds at most its cost. */
  lemma StepsWork(s: State, l: Label, maxAttempts: nat)
    requires Shape(s) && Enabled(s, l)
    ensures !Disturbs(l) ==> Work(Step(s, l, maxAttempts), maxAttempts) < Work(s, maxAttempts)
    ensures Disturbs(l) ==> Work(Step(s, l, maxAttempts), maxAttempts) <= Work(s, maxAttempts) + Cost(l, maxAttempts)
  {
    if l.Commit? {
      CommitWorks(s, l, maxAttempts);
    } else if l.Prepare? {
      PrepareWorks(s, l, maxAttempts);
    } else if l.Persist? {
      PersistWorks(s, l, maxAttempts);
    } else if l.Send? {
      SendWorks(s, l, maxAttempts);
    } else if l.Ack? || l.RedriveLost? {
      SumRemove(s.live, PhaseWeight(s.events, maxAttempts), l.k);
    } else if l.HandBack? {
      HandBackWorks(s, l, maxAttempts);
    } else if OnlyMoves(l) {
      OnlyMovesOne(s, l, maxAttempts);
      if OnlyAdvances(l) {
        AdvancesLighten(s, l, maxAttempts);
      } else {
        ReturnsWeigh(s, l, maxAttempts);
      }
      OneMoves(s, Step(s, l, maxAttempts), l.k, 0, maxAttempts);
    }
  }

  /** What all the disturbances of a run cost, counting one step for each of them. */
  function Disturbance(ls: seq<Label>, maxAttempts: nat): nat {
    if ls == [] then 0
    else (if Disturbs(ls[0]) then 1 + Cost(ls[0], maxAttempts) else 0) + Disturbance(ls[1..], maxAttempts)
  }

  /** A run is no longer than the work it started with and what its disturbances brought in. In particular a run
      without input or faults has at most Work(s) steps, and only endless disturbance makes a run endless. */
  lemma {:induction false} RunsConverge(s: State, ls: seq<Label>, maxAttempts: nat)
    requires Shape(s) && Runs(s, ls, maxAttempts)
    ensures |ls| + Work(After(s, ls, maxAttempts), maxAttempts) <= Work(s, maxAttempts) + Disturbance(ls, maxAttempts)
    decreases |ls|
  {
    if ls != [] {
      ShapeKept(s, ls[0], maxAttempts);
      StepsWork(s, ls[0], maxAttempts);
      RunsConverge(Step(s, ls[0], maxAttempts), ls[1..], maxAttempts);
    }
  }

  /** As long as any message is anywhere, some step of progress is possible. */
  lemma ProgressIsPossible(s: State, k: nat, maxAttempts: nat) returns (l: Label)
    requires Shape(s) && k in s.live
    ensures Enabled(s, l) && !Disturbs(l)
  {
    assert PhaseOk(s.live[k]);
    match s.live[k] {
      case Queued(_) => l := Deliver(k);
      case Running(d) =>
        l := if EventIdOf(d.body).Some? then Commit(k, Succeeds, "generated") else Reject(k, "generated");
      case Decided(_, _, _) =>
        var k' := FreshKey(s.live);
        l := Send(k, k');
      case Acking(_) => l := Ack(k);
      case Waiting(_, _) => l := Expire(k);
      case Buried(_) => l := Deliver(k);
      case Recording(_) =>
        var rid := FreshKey(s.dlq);
        l := Persist(k, rid);
      case Ignored(_) =>
        var rid := FreshKey(s.dlq);
        l := Persist(k, rid);
      case Overlooked(_) =>
        var rid := FreshKey(s.dlq);
        l := Persist(k, rid);
      case Stored(_) => l := Ack(k);
      case Redrive(_) => l := Redriven(k);
    }
  }

  /** A reachable state in which progress has stopped has nothing in flight, and every event is processed, dead, or
      was reset by a replay whose message was lost; the last two can be replayed unless their letter was discarded. */
  lemma QuiescentStatesAreFinished(s: State, id: string, maxAttempts: nat)
    requires maxAttempts >= 1 && Reachable(s, maxAttempts)
    requires forall l :: !Disturbs(l) ==> !Enabled(s, l)
    ensures s.live == map[]
    ensures id in s.events ==>
              || s.events[id].status == Processed
              || ((s.events[id].status == Dead || s.events[id].status == Received)
                  && (HasRow(s.dlq, id) || id in s.discarded))
    ensures id in s.events && s.events[id].status == Received ==> TallyOf(s, id).lost >= 1
    ensures id in s.accepted && id !in s.events ==> HasRow(s.dlq, id) || id in s.discarded
  {
    ReachableInv(s, maxAttempts);
    if s.live != map[] {
      var l := ProgressIsPossible(s, Pick(s.live), maxAttempts);
      assert false;
    }
    assert PerId(s, id, maxAttempts);
  }
}
