/** The delivery protocol as a labelled transition system: any number of events, messages and workers, every
    interleaving, with crashes, nacks, database errors, lost publishes, replays and discards. */
module Protocol {
  import opened Wrappers
  import opened Messaging
  import opened Messages
  import opened Tables

  /** Where one message is. Queues are unordered: any message of a queue may be the next one delivered. */
  datatype Phase =
    | Queued(d: Delivery)                                                // in the work queue
    | Running(d: Delivery)                                               // delivered, nothing committed
    | Decided(d: Delivery, correlation: string, decision: Decision)      // outcome still to be published
    | Acking(d: Delivery)                                                // nothing left to do but the ack
    | Waiting(d: Delivery, tier: nat)                                    // in the retry queue of a tier
    | Buried(m: DeadMessage)                                             // in the dead queue
    | Recording(m: DeadMessage)                                          // delivered to the DLQ consumer
    | Ignored(m: DeadMessage)                                            // its insert met a letter with its message id
    | Overlooked(m: DeadMessage)                                         // its update found no event row
    | Stored(m: DeadMessage)                                             // row committed, ack outstanding
    | Redrive(d: Delivery)                                               // replay committed, publish outstanding

  /** What has happened to one event id so far. */
  datatype Tally = Tally(
    effects: nat,       // committed transitions to processed
    runs: nat,          // committed handler runs
    sinceReset: nat,    // those since the claim or the last reset
    resets: nat,        // replays that reset the event row
    lost: nat,          // redrives lost since the last of them
    overwrites: nat,    // dead letters that marked a processed row dead
    published: nat,     // messages a producer put on the work queue
    decided: nat,       // committed decisions on deliveries that were not continuations
    reemitted: nat,     // those of them that found the row failed
    waited: nat)        // nominal milliseconds spent in retry queues

  const NO_TALLY := Tally(0, 0, 0, 0, 0, 0, 0, 0, 0, 0)

  datatype State = State(
    events: Events,
    dlq: DeadLetters,
    live: map<nat, Phase>,
    tally: map<string, Tally>,
    accepted: set<string>,       // ids some producer put on the work queue
    discarded: set<string>,      // ids whose dead letter an operator discarded
    inputs: set<Delivery>)       // the producers' messages

  const INIT := State(map[], map[], map[], map[], {}, {}, {})

  datatype Label =
    | Publish(k: nat, d: Delivery)                          // a producer's message reaches the work queue
    | Deliver(k: nat)
    | Reject(k: nat, generated: string)                     // unparseable body: no transaction
    | Commit(k: nat, outcome: HandlerOutcome, generated: string)
    | DbError(k: nat, reason: string, generated: string)    // non-recoverable database rejection
    | Requeue(k: nat)                                       // nack or crash in any in-flight phase
    | HandBack(k: nat, k': nat)                             // channel loss: the message is back, its consumer goes on
    | Send(k: nat, k': nat)                                 // the outcome's publish is confirmed
    | Ack(k: nat)
    | Expire(k: nat)
    | Ignore(k: nat)                                        // the DLQ insert runs and is ignored
    | Overlook(k: nat)                                      // the DLQ update runs and sees no event row
    | Persist(k: nat, rid: nat)
    | Prepare(rid: nat, k: nat)
    | Redriven(k: nat)
    | RedriveLost(k: nat)
    | Discard(rid: nat)

  function TallyOf(s: State, id: string): Tally {
    if id in s.tally then s.tally[id] else NO_TALLY
  }

  function IdSet(id: Option<string>): set<string> {
    if id.Some? then {id.value} else {}
  }

  predicate InFlight(p: Phase) {
    p.Running? || p.Decided? || p.Acking? || p.Recording? || p.Ignored? || p.Overlooked? || p.Stored?
  }

  predicate Enabled(s: State, l: Label) {
    match l
    case Publish(k, d) => k !in s.live && !d.redelivered
    case Deliver(k) => k in s.live && (s.live[k].Queued? || s.live[k].Buried?)
    case Reject(k, generated) =>
      k in s.live && s.live[k].Running? && EventIdOf(s.live[k].d.body).None? && generated != ""
    case Commit(k, outcome, generated) =>
      k in s.live && s.live[k].Running? && EventIdOf(s.live[k].d.body).Some? && generated != ""
    case DbError(k, reason, generated) =>
      k in s.live && s.live[k].Running? && EventIdOf(s.live[k].d.body).Some? && generated != ""
    case Requeue(k) => k in s.live && InFlight(s.live[k])
    case HandBack(k, k') => k in s.live && InFlight(s.live[k]) && k' !in s.live
    case Send(k, k') =>
      && k in s.live && s.live[k].Decided? && k' !in s.live
      && (s.live[k].decision.Bury? || (s.live[k].decision.Retry? && EventIdOf(s.live[k].d.body).Some?))
    case Ack(k) => k in s.live && (s.live[k].Acking? || s.live[k].Stored?)
    case Expire(k) => k in s.live && s.live[k].Waiting? && s.live[k].tier < |RETRY_TIERS|
    case Ignore(k) =>
      && k in s.live && s.live[k].Recording? && !s.live[k].m.body.NullLiteral?
      && Recorded(s.dlq, RowOf(s.live[k].m).messageId)
    case Overlook(k) =>
      && k in s.live && (s.live[k].Recording? || s.live[k].Ignored?) && !s.live[k].m.body.NullLiteral?
      && RowOf(s.live[k].m).eventId.Some? && RowOf(s.live[k].m).eventId.value !in s.events
    case Persist(k, rid) =>
      && k in s.live && (s.live[k].Recording? || s.live[k].Ignored? || s.live[k].Overlooked?)
      && !s.live[k].m.body.NullLiteral? && rid !in s.dlq
    case Prepare(rid, k) => ReplayOf(s.events, s.dlq, rid).Prepared? && k !in s.live
    case Redriven(k) => k in s.live && s.live[k].Redrive?
    case RedriveLost(k) => k in s.live && s.live[k].Redrive?
    case Discard(rid) => rid in s.dlq
  }

  function Requeued(p: Phase): Phase
    requires InFlight(p)
  {
    if p.Recording? || p.Ignored? || p.Overlooked? || p.Stored? then Buried(p.m)
    else Queued(p.d.(redelivered := true))
  }

  function AfterPublish(s: State, k: nat, d: Delivery): State {
    var queued := s.(live := s.live[k := Queued(d)]);
    match EventIdOf(d.body)
    case None => queued
    case Some(id) =>
      var t := TallyOf(s, id);
      queued.(accepted := s.accepted + {id},
              inputs := s.inputs + {d},
              tally := s.tally[id := t.(published := t.published + 1)])
  }

  function AfterCommit(s: State, k: nat, outcome: HandlerOutcome, generated: string, maxAttempts: nat): State
    requires Enabled(s, Commit(k, outcome, generated))
  {
    var d := s.live[k].d;
    var correlation := CorrelationOf(d, generated);
    var event := EventOf(d, correlation);
    var id := event.eventId;
    var before := LockedRow(s.events, event);
    var (row, decision) := ProcessRow(s.events, event, IsContinuation(d), maxAttempts, outcome);
    var t := TallyOf(s, id);
    var ran := if HandlerRuns(before, id !in s.events, IsContinuation(d)) then 1 else 0;
    s.(events := s.events[id := row],
       live := s.live[k := if decision.Handled? || decision.Duplicate? then Acking(d)
                           else Decided(d, correlation, decision)],
       tally := s.tally[id := t.(
         effects := t.effects + (if decision.Handled? then 1 else 0),
         runs := t.runs + ran,
         sinceReset := t.sinceReset + ran,
         decided := t.decided + (if IsContinuation(d) then 0 else 1),
         reemitted := t.reemitted + (if before.status == Failed && !IsContinuation(d) then 1 else 0))])
  }

  function AfterSend(s: State, k: nat, k': nat): State
    requires Enabled(s, Send(k, k'))
  {
    var Decided(d, correlation, decision) := s.live[k];
    var message :=
      if decision.Retry?
      then Waiting(RetryDelivery(EventOf(d, correlation), decision.attempts), TierIndex(decision.attempts))
      else Buried(DeadMessageOf(d, correlation, decision.attempts, decision.reason));
    s.(live := s.live[k := Acking(d)][k' := message])
  }

  function AfterExpire(s: State, k: nat): State
    requires Enabled(s, Expire(k))
  {
    var Waiting(d, tier) := s.live[k];
    var queued := s.(live := s.live[k := Queued(d)]);
    match EventIdOf(d.body)
    case None => queued
    case Some(id) =>
      var t := TallyOf(s, id);
      queued.(tally := s.tally[id := t.(waited := t.waited + RETRY_TIERS[tier].ttlMs)])
  }

  function AfterPersist(s: State, k: nat, rid: nat): State
    requires Enabled(s, Persist(k, rid))
  {
    var row := RowOf(s.live[k].m);
    var marks := !s.live[k].Overlooked? && row.eventId.Some? && row.eventId.value in s.events;
    var stored := s.(dlq := if s.live[k].Ignored? then s.dlq else InsertLetter(s.dlq, rid, row),
                     live := s.live[k := Stored(s.live[k].m)]);
    if marks then
      var id := row.eventId.value;
      var t := TallyOf(s, id);
      stored.(events := MarkDead(s.events, row.eventId),
              tally := s.tally[id := t.(overwrites := t.overwrites +
                                          (if s.events[id].status == Processed then 1 else 0))])
    else stored
  }

  function AfterPrepare(s: State, rid: nat, k: nat): State
    requires Enabled(s, Prepare(rid, k))
  {
    var id := s.dlq[rid].eventId.value;
    var t := TallyOf(s, id);
    s.(events := ResetForReplay(s.events, id),
       dlq := s.dlq[rid := s.dlq[rid].(replayed := true)],
       live := s.live[k := Redrive(ReplayOf(s.events, s.dlq, rid).redrive)],
       tally := if id in s.events then s.tally[id := t.(resets := t.resets + 1, sinceReset := 0, lost := 0)]
                else s.tally)
  }

  function AfterRedriveLost(s: State, k: nat): State
    requires Enabled(s, RedriveLost(k))
  {
    var dropped := s.(live := s.live - {k});
    match EventIdOf(s.live[k].d.body)
    case None => dropped
    case Some(id) =>
      var t := TallyOf(s, id);
      dropped.(tally := s.tally[id := t.(lost := t.lost + 1)])
  }

  function Step(s: State, l: Label, maxAttempts: nat): State
    requires Enabled(s, l)
  {
    match l
    case Publish(k, d) => AfterPublish(s, k, d)
    case Deliver(k) =>
      s.(live := s.live[k := if s.live[k].Queued? then Running(s.live[k].d) else Recording(s.live[k].m)])
    case Reject(k, generated) =>
      s.(live := s.live[k := Decided(s.live[k].d, CorrelationOf(s.live[k].d, generated),
                                     Bury(0, "unparseable payload or missing event_id"))])
    case Commit(k, outcome, generated) => AfterCommit(s, k, outcome, generated, maxAttempts)
    case DbError(k, reason, generated) =>
      s.(live := s.live[k := Decided(s.live[k].d, CorrelationOf(s.live[k].d, generated), Bury(0, reason))])
    case Requeue(k) => s.(live := s.live[k := Requeued(s.live[k])])
    case HandBack(k, k') => s.(live := s.live[k' := Requeued(s.live[k])])
    case Send(k, k') => AfterSend(s, k, k')
    case Ack(k) => s.(live := s.live - {k})
    case Expire(k) => AfterExpire(s, k)
    case Ignore(k) => s.(live := s.live[k := Ignored(s.live[k].m)])
    case Overlook(k) =>
      s.(live := s.live[k := if s.live[k].Recording? then Overlooked(s.live[k].m) else Stored(s.live[k].m)])
    case Persist(k, rid) => AfterPersist(s, k, rid)
    case Prepare(rid, k) => AfterPrepare(s, rid, k)
    case Redriven(k) => s.(live := s.live[k := Queued(s.live[k].d)])
    case RedriveLost(k) => AfterRedriveLost(s, k)
    case Discard(rid) => s.(dlq := s.dlq - {rid}, discarded := s.discarded + IdSet(s.dlq[rid].eventId))
  }

  // ---------- runs ----------

  ghost predicate Runs(s: State, ls: seq<Label>, maxAttempts: nat)
    decreases |ls|
  {
    ls == [] || (Enabled(s, ls[0]) && Runs(Step(s, ls[0], maxAttempts), ls[1..], maxAttempts))
  }

  ghost function After(s: State, ls: seq<Label>, maxAttempts: nat): State
    requires Runs(s, ls, maxAttempts)
    decreases |ls|
  {
    if ls == [] then s else After(Step(s, ls[0], maxAttempts), ls[1..], maxAttempts)
  }

  lemma {:induction false} RunsConcat(s: State, a: seq<Label>, b: seq<Label>, maxAttempts: nat)
    requires Runs(s, a, maxAttempts) && Runs(After(s, a, maxAttempts), b, maxAttempts)
    ensures Runs(s, a + b, maxAttempts)
    ensures After(s, a + b, maxAttempts) == After(After(s, a, maxAttempts), b, maxAttempts)
    decreases |a|
  {
    if a == [] {
      assert a + b == b;
    } else {
      RunsConcat(Step(s, a[0], maxAttempts), a[1..], b, maxAttempts);
      assert (a + b)[1..] == a[1..] + b;
    }
  }

  lemma First(s: State, l: Label, ls: seq<Label>, maxAttempts: nat)
    requires Enabled(s, l) && Runs(Step(s, l, maxAttempts), ls, maxAttempts)
    ensures Runs(s, [l] + ls, maxAttempts)
    ensures After(s, [l] + ls, maxAttempts) == After(Step(s, l, maxAttempts), ls, maxAttempts)
  {
    assert ([l] + ls)[1..] == ls;
  }
}
