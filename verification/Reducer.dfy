/** The state of the demo page, folded from user actions and telemetry envelopes that may arrive in any order. */
module Reducer {
  import opened Wrappers
  import opened Telemetry
  import opened StageLists
  import opened Messaging

  type ApiStage = s: Stage | !IsWorkerStage(s) witness StageReceived
  type WorkerStage = s: Stage | IsWorkerStage(s) witness Consuming

  datatype Token = Token(
    correlationId: string,
    eventId: Option<string>,
    eventType: string,
    stages: seq<StageEvent>,
    currentStage: Stage,
    terminal: bool,
    attempts: int,
    httpStatus: Option<int>,
    retryTier: Option<Tier>,
    retryDeadline: Option<int>)

  datatype Counters = Counters(processed: nat, duplicate: nat, retry: nat, dead: nat, rejected: nat)

  datatype DemoState = DemoState(
    tokens: map<string, Token>,
    order: seq<string>,
    counters: Counters,
    latencies: seq<int>)

  const INITIAL_STATE := DemoState(map[], [], Counters(0, 0, 0, 0, 0), [])

  datatype Envelope = Envelope(stage: WorkerStage, correlationId: string, status: string, attempts: int, ts: int)

  /** `ts` of an HTTP result is the browser's clock when it is reduced. */
  datatype Action =
    | TriggerStarted(correlationId: string, eventId: Option<string>, eventType: string, ts: int, injected: bool)
    | HttpResult(correlationId: string, apiStage: ApiStage, status: int, statusText: string, latencyMs: int, ts: int)
    | EnvelopeArrived(envelope: Envelope, now: int)
    | Reset

  /** The reduce over the list: a later event wins ties of rank. */
  function Highest(stages: seq<StageEvent>): StageEvent
    requires stages != []
  {
    if |stages| == 1 then stages[0]
    else
      var n := |stages| - 1;
      var top := Highest(stages[..n]);
      if StageRank(stages[n].stage) >= StageRank(top.stage) then stages[n] else top
  }

  function WithStage(token: Token, event: StageEvent): Token {
    var stages := InsertedStage(token.stages, event);
    var currentStage := Highest(stages).stage;
    token.(stages := stages,
           currentStage := currentStage,
           terminal := IsTerminal(currentStage),
           attempts := Max(token.attempts, if event.attempts.Some? then event.attempts.value else token.attempts))
  }

  function EventOf(e: Envelope): StageEvent {
    StageEvent(e.stage, e.ts, Some(e.status), Some(e.attempts))
  }

  function Counted(c: Counters, stage: Stage): Counters {
    match stage
    case StageProcessed => c.(processed := c.processed + 1)
    case StageDuplicate => c.(duplicate := c.duplicate + 1)
    case StageRetry => c.(retry := c.retry + 1)
    case StageDead => c.(dead := c.dead + 1)
    case _ => c
  }

  function WithEnvelope(existing: Token, e: Envelope, now: int): Token {
    var token := WithStage(existing, EventOf(e));
    if e.stage == StageRetry then
      var tier := TierOf(e.attempts);
      token.(retryTier := Some(tier), retryDeadline := Some(now + TierMs(tier)))
    else if token.currentStage != StageRetry then
      token.(retryDeadline := None, retryTier := None)
    else token
  }

  function WithHttpResult(existing: Token, apiStage: ApiStage, status: int, statusText: string, ts: int): Token {
    var token :=
      if apiStage == Published
      then WithStage(WithStage(existing, StageEvent(SignatureVerified, ts, None, None)),
                     StageEvent(Published, ts, None, None))
      else WithStage(existing, StageEvent(apiStage, ts, Some(statusText), None));
    token.(httpStatus := Some(status))
  }

  function Reduce(state: DemoState, action: Action): DemoState {
    match action
    case TriggerStarted(id, eventId, eventType, ts, injected) =>
      var initial := if injected then Injected else StageReceived;
      var token := Token(id, eventId, eventType, [StageEvent(initial, ts, None, None)], initial, false, 0,
                         None, None, None);
      state.(tokens := state.tokens[id := token], order := state.order + [id])
    case HttpResult(id, apiStage, status, statusText, latencyMs, ts) =>
      if id !in state.tokens then state
      else
        state.(tokens := state.tokens[id := WithHttpResult(state.tokens[id], apiStage, status, statusText, ts)],
               latencies := if status == 202 && apiStage != Injected then state.latencies + [latencyMs]
                            else state.latencies,
               counters := if status >= 400 then state.counters.(rejected := state.counters.rejected + 1)
                           else state.counters)
    case EnvelopeArrived(e, now) =>
      var counted := state.(counters := Counted(state.counters, e.stage));
      if e.correlationId !in state.tokens then counted
      else counted.(tokens := state.tokens[e.correlationId := WithEnvelope(state.tokens[e.correlationId], e, now)])
    case Reset => INITIAL_STATE
  }

  // ---------- what every state keeps ----------

  ghost predicate TokenOk(t: Token) {
    && t.stages != [] && Sorted(t.stages) && DistinctKeys(t.stages)
    && t.currentStage == t.stages[|t.stages| - 1].stage
    && t.terminal == IsTerminal(t.currentStage)
    && (t.currentStage == StageRetry ==> t.retryDeadline.Some? && ShowsItsTier(t))
  }

  /** The tier shown is that of one of the token's own failed attempts. */
  ghost predicate ShowsItsTier(t: Token) {
    exists x :: x in t.stages && x.stage == StageRetry && x.attempts.Some?
                && t.retryTier == Some(TierOf(x.attempts.value))
  }

  /** The page's tiers are the broker's: the countdown is the TTL of the queue the attempt was routed to. */
  lemma TiersMatchTheQueues(attempts: int)
    ensures TierMs(TierOf(attempts)) == RetryTierForAttempt(attempts).ttlMs
  {
  }

  ghost predicate StateOk(s: DemoState) {
    forall id :: id in s.tokens ==> TokenOk(s.tokens[id])
  }

  /** In a sorted list the highest stage is the last. */
  lemma {:induction false} HighestIsLast(stages: seq<StageEvent>)
    requires stages != [] && Sorted(stages)
    ensures Highest(stages) == stages[|stages| - 1]
  {
    if |stages| > 1 {
      var n := |stages| - 1;
      HighestIsLast(stages[..n]);
      assert Leq(stages[n - 1], stages[n]);
    }
  }

  lemma LastRankBounds(s: seq<StageEvent>, x: StageEvent)
    requires Sorted(s) && x in s
    ensures StageRank(x.stage) <= StageRank(s[|s| - 1].stage)
  {
    LastIsGreatest(s, x);
  }

  /** Adding a stage keeps a token's list in order, never lowers its rank, and makes it current only by outranking. */
  lemma WithStageKeeps(t: Token, e: StageEvent)
    requires t.stages != [] && Sorted(t.stages) && DistinctKeys(t.stages)
    requires t.currentStage == t.stages[|t.stages| - 1].stage
    ensures var u := WithStage(t, e);
            && u.stages == InsertedStage(t.stages, e)
            && u.stages != [] && Sorted(u.stages) && DistinctKeys(u.stages)
            && u.currentStage == u.stages[|u.stages| - 1].stage && u.terminal == IsTerminal(u.currentStage)
            && StageRank(u.currentStage) >= StageRank(t.currentStage)
            && (u.currentStage == e.stage || exists x :: x in t.stages && x.stage == u.currentStage)
            && u.retryTier == t.retryTier && u.retryDeadline == t.retryDeadline
  {
    InsertedStageProperties(t.stages, e);
    var r := InsertedStage(t.stages, e);
    HighestIsLast(r);
    var last := t.stages[|t.stages| - 1];
    assert last in t.stages;
    if SameKey(last, e) {
      LastRankBounds(r, e);
    } else {
      LastRankBounds(r, last);
    }
    assert r[|r| - 1] in r;
  }

  /** Nothing of retry rank hides below a lower current stage. */
  lemma RetryIsCurrent(t: Token, e: StageEvent)
    requires TokenOk(t) && e.stage != StageRetry
    ensures WithStage(t, e).currentStage == StageRetry ==> t.currentStage == StageRetry && ShowsItsTier(WithStage(t, e))
  {
    WithStageKeeps(t, e);
    if WithStage(t, e).currentStage == StageRetry {
      var x :| x in t.stages && x.stage == StageRetry;
      LastRankBounds(t.stages, x);
      var y :| y in t.stages && y.stage == StageRetry && y.attempts.Some?
               && t.retryTier == Some(TierOf(y.attempts.value));
      InsertedStageProperties(t.stages, e);
      assert y in WithStage(t, e).stages;
    }
  }

  ghost predicate Advances(t: Token, u: Token) {
    TokenOk(u) && StageRank(u.currentStage) >= StageRank(t.currentStage)
  }

  lemma EnvelopeAdvances(t: Token, e: Envelope, now: int)
    requires TokenOk(t)
    ensures Advances(t, WithEnvelope(t, e, now))
  {
    WithStageKeeps(t, EventOf(e));
    if e.stage != StageRetry {
      RetryIsCurrent(t, EventOf(e));
    } else {
      InsertedStageProperties(t.stages, EventOf(e));
      assert EventOf(e) in WithEnvelope(t, e, now).stages;
    }
  }

  lemma WithStageAdvances(t: Token, e: StageEvent)
    requires TokenOk(t) && e.stage != StageRetry
    ensures Advances(t, WithStage(t, e))
  {
    WithStageKeeps(t, e);
    RetryIsCurrent(t, e);
  }

  lemma HttpResultAdvances(t: Token, apiStage: ApiStage, status: int, statusText: string, ts: int)
    requires TokenOk(t)
    ensures Advances(t, WithHttpResult(t, apiStage, status, statusText, ts))
  {
    if apiStage == Published {
      WithStageAdvances(t, StageEvent(SignatureVerified, ts, None, None));
      WithStageAdvances(WithStage(t, StageEvent(SignatureVerified, ts, None, None)),
                        StageEvent(Published, ts, None, None));
    } else {
      WithStageAdvances(t, StageEvent(apiStage, ts, Some(statusText), None));
    }
  }

  /** Every action keeps every token in order; only a reset or a new trigger of the same id sets a token back. */
  lemma ReduceKeeps(s: DemoState, a: Action)
    requires StateOk(s)
    ensures StateOk(Reduce(s, a))
    ensures forall id :: id in s.tokens && !a.Reset? && !(a.TriggerStarted? && a.correlationId == id) ==>
              id in Reduce(s, a).tokens && Advances(s.tokens[id], Reduce(s, a).tokens[id])
  {
    match a {
      case HttpResult(id, apiStage, status, statusText, _, ts) =>
        if id in s.tokens {
          HttpResultAdvances(s.tokens[id], apiStage, status, statusText, ts);
        }
      case EnvelopeArrived(e, now) =>
        if e.correlationId in s.tokens {
          EnvelopeAdvances(s.tokens[e.correlationId], e, now);
        }
      case TriggerStarted(_, _, _, _, _) =>
      case Reset =>
    }
  }

  function ReduceAll(s: DemoState, actions: seq<Action>): DemoState {
    if actions == [] then s else Reduce(ReduceAll(s, actions[..|actions| - 1]), actions[|actions| - 1])
  }

  /** In every state the page can reach, each token's stages are non-empty, sorted and free of repeated keys, its
      current stage is the last of them, and a token waiting for a retry shows the tier of one of its own attempts. */
  lemma {:induction false} EveryStateIsOk(actions: seq<Action>)
    ensures StateOk(ReduceAll(INITIAL_STATE, actions))
  {
    if actions != [] {
      EveryStateIsOk(actions[..|actions| - 1]);
      ReduceKeeps(ReduceAll(INITIAL_STATE, actions[..|actions| - 1]), actions[|actions| - 1]);
    }
  }

  // ---------- which stage is current, by name ----------

  ghost predicate Holds(t: Token, stage: Stage) {
    exists x :: x in t.stages && x.stage == stage
  }

  predicate IsOutcome(stage: Stage) {
    stage == StageProcessed || stage == StageDuplicate || stage == StageDead
  }

  ghost predicate HoldsOutcome(t: Token) {
    Holds(t, StageProcessed) || Holds(t, StageDuplicate) || Holds(t, StageDead)
  }

  lemma HeldBelowCurrent(t: Token, stage: Stage)
    requires TokenOk(t) && Holds(t, stage)
    ensures StageRank(stage) <= StageRank(t.currentStage)
  {
    var x :| x in t.stages && x.stage == stage;
    LastRankBounds(t.stages, x);
  }

  /** An outcome is current over everything else, a retry over what is not an outcome, a decision over a consumption,
      any worker stage over what the API reported, and the API's answers over what came before them. */
  lemma CurrentByPrecedence(t: Token)
    requires TokenOk(t)
    ensures Holds(t, t.currentStage)
    ensures HoldsOutcome(t) <==> IsOutcome(t.currentStage)
    ensures !HoldsOutcome(t) ==>
              if Holds(t, StageRetry) then t.currentStage == StageRetry
              else if Holds(t, ProcessingDecision) then t.currentStage == ProcessingDecision
              else if Holds(t, Consuming) then t.currentStage == Consuming
              else if Holds(t, Published) || Holds(t, Injected) || Holds(t, Unavailable) then
                t.currentStage == Published || t.currentStage == Injected || t.currentStage == Unavailable
              else if Holds(t, SignatureVerified) || Holds(t, Rejected) || Holds(t, Malformed) then
                t.currentStage == SignatureVerified || t.currentStage == Rejected || t.currentStage == Malformed
              else t.currentStage == StageReceived
    ensures t.terminal <==>
              IsOutcome(t.currentStage) || t.currentStage == Rejected || t.currentStage == Malformed
              || t.currentStage == Unavailable
  {
    assert t.stages[|t.stages| - 1] in t.stages;
    forall stage | Holds(t, stage) ensures StageRank(stage) <= StageRank(t.currentStage) {
      HeldBelowCurrent(t, stage);
    }
  }

  /** Among outcomes, and among retries, the latest is current. */
  lemma CurrentIsTheLatest(t: Token, x: StageEvent)
    requires TokenOk(t) && x in t.stages
    requires x.stage == t.currentStage || (IsOutcome(x.stage) && IsOutcome(t.currentStage))
    ensures x.ts <= t.stages[|t.stages| - 1].ts
  {
    LastIsGreatest(t.stages, x);
  }

  // ---------- what the API's answer and a trigger do ----------

  /** The answer to a request changes its own token only and sets its status; it counts as rejected from 400 on and as
      a latency only when accepted through the API. */
  lemma HttpResultEffects(s: DemoState, id: string, apiStage: ApiStage, status: int, statusText: string,
                          latencyMs: int, ts: int)
    ensures var r := Reduce(s, HttpResult(id, apiStage, status, statusText, latencyMs, ts));
            if id !in s.tokens then r == s
            else
              && r.order == s.order && r.tokens.Keys == s.tokens.Keys
              && (forall other :: other in s.tokens && other != id ==> r.tokens[other] == s.tokens[other])
              && r.counters == s.counters.(rejected := s.counters.rejected + (if status >= 400 then 1 else 0))
              && r.latencies == s.latencies + (if status == 202 && apiStage != Injected then [latencyMs] else [])
              && r.tokens[id].httpStatus == Some(status) && r.tokens[id].attempts == s.tokens[id].attempts
              && r.tokens[id].retryTier == s.tokens[id].retryTier
              && r.tokens[id].retryDeadline == s.tokens[id].retryDeadline
              && r.tokens[id].stages == WithHttpResult(s.tokens[id], apiStage, status, statusText, ts).stages
  {
  }

  /** What the answer adds to its token: both the signature's and the publish's stage when it was published, else its
      own. */
  lemma HttpResultStages(t: Token, apiStage: ApiStage, status: int, statusText: string, ts: int)
    requires TokenOk(t)
    ensures forall x :: x in WithHttpResult(t, apiStage, status, statusText, ts).stages <==>
              if apiStage == Published then
                || x == StageEvent(SignatureVerified, ts, None, None) || x == StageEvent(Published, ts, None, None)
                || (x in t.stages && !(x.attempts == None && (x.stage == SignatureVerified || x.stage == Published)))
              else
                || x == StageEvent(apiStage, ts, Some(statusText), None)
                || (x in t.stages && !(x.attempts == None && x.stage == apiStage))
  {
    if apiStage == Published {
      var verified := StageEvent(SignatureVerified, ts, None, None);
      WithStageAdvances(t, verified);
      InsertedStageProperties(t.stages, verified);
      InsertedStageProperties(WithStage(t, verified).stages, StageEvent(Published, ts, None, None));
    } else {
      InsertedStageProperties(t.stages, StageEvent(apiStage, ts, Some(statusText), None));
    }
  }

  /** A trigger starts its token over, whatever was there, and lists it once more; it changes no other token. */
  lemma TriggersStartOver(s: DemoState, id: string, eventId: Option<string>, eventType: string, ts: int,
                          injected: bool)
    ensures var r := Reduce(s, TriggerStarted(id, eventId, eventType, ts, injected));
            && r.order == s.order + [id] && r.counters == s.counters && r.latencies == s.latencies
            && r.tokens.Keys == s.tokens.Keys + {id}
            && (forall other :: other in s.tokens && other != id ==> r.tokens[other] == s.tokens[other])
            && var t := r.tokens[id];
               && t.correlationId == id && t.eventId == eventId && t.eventType == eventType
               && t.currentStage == (if injected then Injected else StageReceived)
               && t.stages == [StageEvent(t.currentStage, ts, None, None)]
               && !t.terminal && t.attempts == 0
               && t.httpStatus == None && t.retryTier == None && t.retryDeadline == None
  {
  }

  // ---------- order independence of the whole page ----------

  datatype Arrival = Arrival(envelope: Envelope, now: int)

  function Receive(s: DemoState, arrivals: seq<Arrival>): DemoState {
    if arrivals == [] then s
    else
      var last := arrivals[|arrivals| - 1];
      Reduce(Receive(s, arrivals[..|arrivals| - 1]), EnvelopeArrived(last.envelope, last.now))
  }

  /** The stage events that arrived for one correlation id. */
  function EventsFor(arrivals: seq<Arrival>, id: string): seq<StageEvent> {
    if arrivals == [] then []
    else
      var last := arrivals[|arrivals| - 1].envelope;
      EventsFor(arrivals[..|arrivals| - 1], id) + (if last.correlationId == id then [EventOf(last)] else [])
  }

  function MostAttempts(least: int, es: seq<StageEvent>): int {
    if es == [] then least
    else
      var most := MostAttempts(least, es[..|es| - 1]);
      var a := es[|es| - 1].attempts;
      Max(most, if a.Some? then a.value else most)
  }

  /** What one arrival makes of one token. */
  lemma ReceiveOne(s: DemoState, last: Arrival, id: string)
    requires StateOk(s) && id in s.tokens
    ensures var r := Reduce(s, EnvelopeArrived(last.envelope, last.now));
            && id in r.tokens
            && if last.envelope.correlationId == id
               then
                 && r.tokens[id].stages == InsertedStage(s.tokens[id].stages, EventOf(last.envelope))
                 && r.tokens[id].attempts == Max(s.tokens[id].attempts, last.envelope.attempts)
               else r.tokens[id] == s.tokens[id]
  {
  }

  lemma {:induction false} ReceiveKeeps(s: DemoState, arrivals: seq<Arrival>)
    requires StateOk(s)
    ensures var r := Receive(s, arrivals);
            StateOk(r) && r.tokens.Keys == s.tokens.Keys
  {
    if arrivals != [] {
      var init, last := arrivals[..|arrivals| - 1], arrivals[|arrivals| - 1];
      ReceiveKeeps(s, init);
      ReduceKeeps(Receive(s, init), EnvelopeArrived(last.envelope, last.now));
    }
  }

  /** A token `t` that started as `start` and received the events `es`. */
  ghost predicate Received(start: Token, es: seq<StageEvent>, t: Token) {
    t.stages == InsertAll(start.stages, es) && t.attempts == MostAttempts(start.attempts, es)
  }

  lemma OneMore(start: Token, es: seq<StageEvent>, t: Token, e: Envelope, u: Token)
    requires Received(start, es, t)
    requires u.stages == InsertedStage(t.stages, EventOf(e)) && u.attempts == Max(t.attempts, e.attempts)
    ensures Received(start, es + [EventOf(e)], u)
  {
    assert (es + [EventOf(e)])[..|es|] == es;
  }

  /** What the arrivals make of one token: its stages and attempts depend on its own envelopes only. */
  lemma {:induction false} ReceiveByToken(s: DemoState, arrivals: seq<Arrival>, id: string)
    requires StateOk(s) && id in s.tokens
    ensures id in Receive(s, arrivals).tokens
    ensures Received(s.tokens[id], EventsFor(arrivals, id), Receive(s, arrivals).tokens[id])
  {
    if arrivals != [] {
      var init, last := arrivals[..|arrivals| - 1], arrivals[|arrivals| - 1];
      ReceiveByToken(s, init, id);
      ReceiveKeeps(s, init);
      ReceiveAnother(s, Receive(s, init), last, EventsFor(init, id), id);
    }
  }

  lemma ReceiveAnother(s: DemoState, r: DemoState, last: Arrival, es: seq<StageEvent>, id: string)
    requires StateOk(r) && id in s.tokens && id in r.tokens && Received(s.tokens[id], es, r.tokens[id])
    ensures var u := Reduce(r, EnvelopeArrived(last.envelope, last.now));
            && id in u.tokens
            && Received(s.tokens[id],
                        es + (if last.envelope.correlationId == id then [EventOf(last.envelope)] else []),
                        u.tokens[id])
  {
    ReceiveOne(r, last, id);
    if last.envelope.correlationId == id {
      OneMore(s.tokens[id], es, r.tokens[id], last.envelope,
              Reduce(r, EnvelopeArrived(last.envelope, last.now)).tokens[id]);
    } else {
      assert es + [] == es;
    }
  }

  // ---------- which stage is current after any arrivals ----------

  ghost predicate Arrives(arrivals: seq<Arrival>, id: string, stage: Stage) {
    exists i | 0 <= i < |arrivals| :: arrivals[i].envelope.correlationId == id && arrivals[i].envelope.stage == stage
  }

  lemma {:induction false} ArrivalsAreEvents(arrivals: seq<Arrival>, id: string, stage: Stage)
    ensures Arrives(arrivals, id, stage) <==> exists e :: e in EventsFor(arrivals, id) && e.stage == stage
    ensures forall e :: e in EventsFor(arrivals, id) ==> e.attempts.Some?
  {
    if arrivals != [] {
      var init, last := arrivals[..|arrivals| - 1], arrivals[|arrivals| - 1];
      ArrivalsAreEvents(init, id, stage);
      assert arrivals == init + [last];
      ArrivesOneMore(init, last, id, stage);
      var es, e := EventsFor(init, id), EventOf(last.envelope);
      if last.envelope.correlationId == id {
        assert e in es + [e] && forall x :: x in es + [e] <==> x in es || x == e;
      }
    }
  }

  lemma ArrivesOneMore(arrivals: seq<Arrival>, last: Arrival, id: string, stage: Stage)
    ensures Arrives(arrivals + [last], id, stage) <==>
              Arrives(arrivals, id, stage) || (last.envelope.correlationId == id && last.envelope.stage == stage)
  {
    var all := arrivals + [last];
    if Arrives(arrivals, id, stage) {
      var i :| 0 <= i < |arrivals| && arrivals[i].envelope.correlationId == id && arrivals[i].envelope.stage == stage;
      assert all[i] == arrivals[i];
    }
    assert all[|arrivals|] == last;
  }

  lemma {:induction false} LastForFinds(es: seq<StageEvent>, e: StageEvent)
    ensures e in es ==> LastFor(es, e.stage, e.attempts).Some?
    ensures forall stage, attempts :: LastFor(es, stage, attempts).Some? ==>
              var x := LastFor(es, stage, attempts).value; x in es && HasKey(x, stage, attempts)
  {
    if es != [] {
      LastForFinds(es[..|es| - 1], e);
      assert es == es[..|es| - 1] + [es[|es| - 1]];
    }
  }

  /** A stage is held after the arrivals if it was before or arrived, and never lost. */
  lemma StagesAreNeverLost(s: seq<StageEvent>, es: seq<StageEvent>, stage: Stage)
    requires Sorted(s) && DistinctKeys(s)
    ensures (exists x :: x in InsertAll(s, es) && x.stage == stage) <==>
              (exists x :: x in s && x.stage == stage) || (exists e :: e in es && e.stage == stage)
  {
    ListHoldsTheLast(s, es);
    if x :| x in s && x.stage == stage {
      LastForFinds(es, x);
      var y := if LastFor(es, x.stage, x.attempts).Some? then LastFor(es, x.stage, x.attempts).value else x;
      LastForIsItsKeys(es, x, y);
      assert y in InsertAll(s, es);
    }
    if e :| e in es && e.stage == stage {
      LastForFinds(es, e);
      var y := LastFor(es, e.stage, e.attempts).value;
      LastForIsItsKeys(es, e, y);
      assert y in InsertAll(s, es);
    }
    if x :| x in InsertAll(s, es) && x.stage == stage {
      LastForFinds(es, x);
    }
  }

  lemma LastForIsItsKeys(es: seq<StageEvent>, x: StageEvent, y: StageEvent)
    requires LastFor(es, x.stage, x.attempts) == Some(y) || (LastFor(es, x.stage, x.attempts).None? && y == x)
    ensures y.stage == x.stage && y.attempts == x.attempts
  {
    LastForFinds(es, x);
  }

  lemma HeldAfterArrivals(s: DemoState, arrivals: seq<Arrival>, id: string, stage: Stage)
    requires StateOk(s) && id in s.tokens
    ensures id in Receive(s, arrivals).tokens
    ensures Holds(Receive(s, arrivals).tokens[id], stage) <==>
              Holds(s.tokens[id], stage) || Arrives(arrivals, id, stage)
  {
    ReceiveByToken(s, arrivals, id);
    ArrivalsAreEvents(arrivals, id, stage);
    assert TokenOk(s.tokens[id]);
    StagesAreNeverLost(s.tokens[id].stages, EventsFor(arrivals, id), stage);
  }

  /** The token `id` held the stage already, or an envelope brought it. */
  ghost predicate Seen(s: DemoState, arrivals: seq<Arrival>, id: string, stage: Stage)
    requires id in s.tokens
  {
    Holds(s.tokens[id], stage) || Arrives(arrivals, id, stage)
  }

  ghost predicate SeenOutcome(s: DemoState, arrivals: seq<Arrival>, id: string)
    requires id in s.tokens
  {
    Seen(s, arrivals, id, StageProcessed) || Seen(s, arrivals, id, StageDuplicate) || Seen(s, arrivals, id, StageDead)
  }

  /** Whatever arrives before or after it, an outcome is final: the token is terminal and shows an outcome from then on.
      Without one, a retry is current over consuming and decision envelopes, a decision over consuming, and any of them
      over what the API reported. */
  lemma OutcomesAreFinal(s: DemoState, arrivals: seq<Arrival>, id: string)
    requires StateOk(s) && id in s.tokens
    ensures id in Receive(s, arrivals).tokens
    ensures var t := Receive(s, arrivals).tokens[id];
            if SeenOutcome(s, arrivals, id) then
              && t.terminal
              && (t.currentStage == StageProcessed || t.currentStage == StageDuplicate || t.currentStage == StageDead)
            else if Seen(s, arrivals, id, StageRetry) then !t.terminal && t.currentStage == StageRetry
            else if Seen(s, arrivals, id, ProcessingDecision) then !t.terminal && t.currentStage == ProcessingDecision
            else if Seen(s, arrivals, id, Consuming) then !t.terminal && t.currentStage == Consuming
            else t.currentStage == s.tokens[id].currentStage
  {
    ReceiveKeeps(s, arrivals);
    var t := Receive(s, arrivals).tokens[id];
    assert TokenOk(t);
    SeenIsHeld(s, arrivals, id);
    if !SeenOutcome(s, arrivals, id) && !Seen(s, arrivals, id, StageRetry)
       && !Seen(s, arrivals, id, ProcessingDecision) && !Seen(s, arrivals, id, Consuming) {
      NothingArrived(s, arrivals, id);
    } else {
      CurrentByPrecedence(t);
    }
  }

  lemma SeenIsHeld(s: DemoState, arrivals: seq<Arrival>, id: string)
    requires StateOk(s) && id in s.tokens
    ensures id in Receive(s, arrivals).tokens
    ensures HoldsOutcome(Receive(s, arrivals).tokens[id]) <==> SeenOutcome(s, arrivals, id)
    ensures forall stage :: Holds(Receive(s, arrivals).tokens[id], stage) <==> Seen(s, arrivals, id, stage)
  {
    forall stage ensures id in Receive(s, arrivals).tokens
                         && (Holds(Receive(s, arrivals).tokens[id], stage) <==> Seen(s, arrivals, id, stage))
    {
      HeldAfterArrivals(s, arrivals, id, stage);
    }
  }

  /** Envelopes carry worker stages only. */
  lemma NothingArrived(s: DemoState, arrivals: seq<Arrival>, id: string)
    requires StateOk(s) && id in s.tokens
    requires forall stage :: IsWorkerStage(stage) ==> !Arrives(arrivals, id, stage)
    ensures id in Receive(s, arrivals).tokens
    ensures Receive(s, arrivals).tokens[id].currentStage == s.tokens[id].currentStage
  {
    ReceiveByToken(s, arrivals, id);
    NoEventsArrived(arrivals, id);
    ReceiveKeeps(s, arrivals);
    assert TokenOk(Receive(s, arrivals).tokens[id]) && TokenOk(s.tokens[id]);
  }

  lemma {:induction false} NoEventsArrived(arrivals: seq<Arrival>, id: string)
    requires forall stage :: IsWorkerStage(stage) ==> !Arrives(arrivals, id, stage)
    ensures EventsFor(arrivals, id) == []
  {
    if arrivals != [] {
      var init, last := arrivals[..|arrivals| - 1], arrivals[|arrivals| - 1];
      assert arrivals == init + [last];
      forall stage | IsWorkerStage(stage) ensures !Arrives(init, id, stage) {
        ArrivesOneMore(init, last, id, stage);
      }
      ArrivesOneMore(init, last, id, last.envelope.stage);
      assert IsWorkerStage(last.envelope.stage);
      NoEventsArrived(init, id);
    }
  }

  // ---------- which countdown is shown ----------

  /** The last envelope to arrive for a token. */
  function LastArrival(arrivals: seq<Arrival>, id: string): Option<Arrival> {
    if arrivals == [] then None
    else
      var last := arrivals[|arrivals| - 1];
      if last.envelope.correlationId == id then Some(last) else LastArrival(arrivals[..|arrivals| - 1], id)
  }

  /** The last retry to arrive for a token. */
  function LastRetry(arrivals: seq<Arrival>, id: string): Option<Arrival> {
    if arrivals == [] then None
    else
      var last := arrivals[|arrivals| - 1];
      if last.envelope.correlationId == id && last.envelope.stage == StageRetry then Some(last)
      else LastRetry(arrivals[..|arrivals| - 1], id)
  }

  /** The token shows the tier of that retry, and the end of the TTL of the queue it was routed to. */
  predicate CountsDown(t: Token, retry: Arrival) {
    && t.retryTier == Some(TierOf(retry.envelope.attempts))
    && t.retryDeadline == Some(retry.now + RetryTierForAttempt(retry.envelope.attempts).ttlMs)
  }

  predicate SameCountdown(t: Token, u: Token) {
    t.retryTier == u.retryTier && t.retryDeadline == u.retryDeadline
  }

  predicate NoCountdown(t: Token) {
    t.retryTier == None && t.retryDeadline == None
  }

  /** While a retry is current the countdown is that of the last retry to arrive; on any other stage one is shown
      exactly when the very last envelope was a retry. */
  predicate ShowsCountdown(start: Token, arrivals: seq<Arrival>, id: string, t: Token) {
    match LastArrival(arrivals, id)
    case None => SameCountdown(t, start)
    case Some(last) =>
      if last.envelope.stage == StageRetry then CountsDown(t, last)
      else if t.currentStage != StageRetry then NoCountdown(t)
      else
        match LastRetry(arrivals, id)
        case None => SameCountdown(t, start)
        case Some(retry) => CountsDown(t, retry)
  }

  /** The countdown of a token in retry comes from the last retry to arrive, or was there before. */
  lemma RetryCountdown(start: Token, arrivals: seq<Arrival>, id: string, t: Token)
    requires ShowsCountdown(start, arrivals, id, t) && t.currentStage == StageRetry
    ensures var retry := LastRetry(arrivals, id);
            if retry.Some? then CountsDown(t, retry.value) else SameCountdown(t, start)
    decreases |arrivals|
  {
    if arrivals != [] {
      var init, last := arrivals[..|arrivals| - 1], arrivals[|arrivals| - 1];
      if last.envelope.correlationId != id {
        RetryCountdown(start, init, id, t);
      }
    }
  }

  /** What one envelope does to the countdown. */
  lemma EnvelopeCountdown(t: Token, last: Arrival)
    requires TokenOk(t)
    ensures var u := WithEnvelope(t, last.envelope, last.now);
            if last.envelope.stage == StageRetry then CountsDown(u, last)
            else if u.currentStage != StageRetry then NoCountdown(u)
            else t.currentStage == StageRetry && SameCountdown(u, t)
  {
    WithStageKeeps(t, EventOf(last.envelope));
    TiersMatchTheQueues(last.envelope.attempts);
    if last.envelope.stage != StageRetry {
      RetryIsCurrent(t, EventOf(last.envelope));
    }
  }

  lemma LastOfOneMore(arrivals: seq<Arrival>, last: Arrival, id: string)
    ensures LastArrival(arrivals + [last], id) ==
              if last.envelope.correlationId == id then Some(last) else LastArrival(arrivals, id)
    ensures LastRetry(arrivals + [last], id) ==
              if last.envelope.correlationId == id && last.envelope.stage == StageRetry then Some(last)
              else LastRetry(arrivals, id)
  {
    assert (arrivals + [last])[..|arrivals|] == arrivals;
  }

  lemma CountdownOneMore(start: Token, arrivals: seq<Arrival>, id: string, t: Token, last: Arrival)
    requires TokenOk(t) && ShowsCountdown(start, arrivals, id, t)
    ensures var u := if last.envelope.correlationId == id then WithEnvelope(t, last.envelope, last.now) else t;
            ShowsCountdown(start, arrivals + [last], id, u)
  {
    LastOfOneMore(arrivals, last, id);
    if last.envelope.correlationId == id {
      EnvelopeCountdown(t, last);
      if last.envelope.stage != StageRetry && t.currentStage == StageRetry {
        RetryCountdown(start, arrivals, id, t);
      }
    }
  }

  lemma ReceiveLast(s: DemoState, last: Arrival, id: string)
    requires id in s.tokens
    ensures var r := Reduce(s, EnvelopeArrived(last.envelope, last.now));
            id in r.tokens
            && r.tokens[id] == if last.envelope.correlationId == id
                               then WithEnvelope(s.tokens[id], last.envelope, last.now) else s.tokens[id]
  {
  }

  lemma {:induction false} CountdownShown(s: DemoState, arrivals: seq<Arrival>, id: string)
    requires StateOk(s) && id in s.tokens
    ensures id in Receive(s, arrivals).tokens
    ensures ShowsCountdown(s.tokens[id], arrivals, id, Receive(s, arrivals).tokens[id])
  {
    if arrivals != [] {
      var init, last := arrivals[..|arrivals| - 1], arrivals[|arrivals| - 1];
      CountdownShown(s, init, id);
      ReceiveKeeps(s, init);
      var r := Receive(s, init);
      CountdownOneMore(s.tokens[id], init, id, r.tokens[id], last);
      ReceiveLast(r, last, id);
      assert arrivals == init + [last];
    }
  }

  lemma {:induction false} LastArrivalArrives(arrivals: seq<Arrival>, id: string)
    ensures LastArrival(arrivals, id).Some? <==> exists stage :: Arrives(arrivals, id, stage)
  {
    if arrivals != [] {
      var init, last := arrivals[..|arrivals| - 1], arrivals[|arrivals| - 1];
      LastArrivalArrives(init, id);
      assert arrivals == init + [last];
      forall stage ensures Arrives(arrivals, id, stage) <==>
                             Arrives(init, id, stage)
                             || (last.envelope.correlationId == id && last.envelope.stage == stage)
      {
        ArrivesOneMore(init, last, id, stage);
      }
      assert last.envelope.correlationId == id ==> Arrives(arrivals, id, last.envelope.stage);
    }
  }

  /** A finished token shows a countdown if and only if the last envelope to arrive for it is a retry. */
  lemma FinishedTokensCountDownIffARetryIsLast(s: DemoState, arrivals: seq<Arrival>, id: string)
    requires StateOk(s) && id in s.tokens
    requires Arrives(arrivals, id, StageProcessed) || Arrives(arrivals, id, StageDuplicate)
             || Arrives(arrivals, id, StageDead)
    ensures id in Receive(s, arrivals).tokens && LastArrival(arrivals, id).Some?
    ensures var t, last := Receive(s, arrivals).tokens[id], LastArrival(arrivals, id).value;
            && t.terminal
            && if last.envelope.stage == StageRetry then CountsDown(t, last) else NoCountdown(t)
  {
    OutcomesAreFinal(s, arrivals, id);
    CountdownShown(s, arrivals, id);
    LastArrivalArrives(arrivals, id);
  }

  /** It happens: a retry that arrives after its event was processed puts a countdown on a finished token. */
  lemma ALateRetryShowsACountdown(s: DemoState, id: string, status: string, ts: int, now: int)
    requires StateOk(s) && id in s.tokens
    ensures var done := Arrival(Envelope(StageProcessed, id, status, 2, ts), now);
            var late := Arrival(Envelope(StageRetry, id, status, 1, ts), now);
            var r := Receive(s, [done, late]);
            id in r.tokens && r.tokens[id].terminal && r.tokens[id].retryTier == Some(FiveSeconds)
  {
    var done := Arrival(Envelope(StageProcessed, id, status, 2, ts), now);
    var late := Arrival(Envelope(StageRetry, id, status, 1, ts), now);
    assert [done, late][0].envelope.stage == StageProcessed;
    assert LastArrival([done, late], id) == Some(late);
    FinishedTokensCountDownIffARetryIsLast(s, [done, late], id);
  }

  lemma {:induction false} MostAttemptsBounds(least: int, es: seq<StageEvent>)
    ensures MostAttempts(least, es) >= least
    ensures forall e :: e in es && e.attempts.Some? ==> e.attempts.value <= MostAttempts(least, es)
    ensures MostAttempts(least, es) == least
         || exists e :: e in es && e.attempts == Some(MostAttempts(least, es))
  {
    if es != [] {
      var n := |es| - 1;
      MostAttemptsBounds(least, es[..n]);
      assert es == es[..n] + [es[n]];
    }
  }

  lemma {:induction false} InItsTrack(es: seq<StageEvent>, e: StageEvent)
    ensures e in es <==> e in Track(es, e.stage, e.attempts)
    ensures multiset(es)[e] == multiset(Track(es, e.stage, e.attempts))[e]
  {
    if es != [] {
      var n := |es| - 1;
      InItsTrack(es[..n], e);
      assert es == es[..n] + [es[n]];
    }
  }

  /** Two arrival orders of the same envelopes that keep the order of those with equal id, stage and attempts. */
  ghost predicate SameArrivals(first: seq<Arrival>, second: seq<Arrival>) {
    forall id :: SameTracks(EventsFor(first, id), EventsFor(second, id))
  }

  lemma SameAttempts(least: int, es: seq<StageEvent>, fs: seq<StageEvent>)
    requires SameTracks(es, fs)
    ensures MostAttempts(least, es) == MostAttempts(least, fs)
  {
    forall e ensures e in es <==> e in fs {
      assert Track(es, e.stage, e.attempts) == Track(fs, e.stage, e.attempts);
      InItsTrack(es, e);
      InItsTrack(fs, e);
    }
    MostAttemptsBounds(least, es);
    MostAttemptsBounds(least, fs);
  }

  // ---------- counters depend on what arrived, not on when ----------

  function Arrived(arrivals: seq<Arrival>, stage: Stage): nat {
    if arrivals == [] then 0
    else
      Arrived(arrivals[..|arrivals| - 1], stage)
      + (if arrivals[|arrivals| - 1].envelope.stage == stage then 1 else 0)
  }

  /** Each counter grows by the number of envelopes of its own stage, whether or not their token is known. */
  lemma {:induction false} CountersCount(s: DemoState, arrivals: seq<Arrival>)
    ensures var c, c' := s.counters, Receive(s, arrivals).counters;
            && c'.processed == c.processed + Arrived(arrivals, StageProcessed)
            && c'.duplicate == c.duplicate + Arrived(arrivals, StageDuplicate)
            && c'.retry == c.retry + Arrived(arrivals, StageRetry)
            && c'.dead == c.dead + Arrived(arrivals, StageDead)
            && c'.rejected == c.rejected
  {
    if arrivals != [] {
      CountersCount(s, arrivals[..|arrivals| - 1]);
    }
  }

  function Entries(arrivals: seq<Arrival>): seq<(string, StageEvent)> {
    seq(|arrivals|, i requires 0 <= i < |arrivals| =>
      (arrivals[i].envelope.correlationId, EventOf(arrivals[i].envelope)))
  }

  function CountEntries(entries: seq<(string, StageEvent)>, stage: Stage): nat {
    if entries == [] then 0
    else
      CountEntries(entries[..|entries| - 1], stage) + (if entries[|entries| - 1].1.stage == stage then 1 else 0)
  }

  lemma {:induction false} CountsByEntries(arrivals: seq<Arrival>, stage: Stage)
    ensures Arrived(arrivals, stage) == CountEntries(Entries(arrivals), stage)
  {
    if arrivals != [] {
      var n := |arrivals| - 1;
      CountsByEntries(arrivals[..n], stage);
      assert Entries(arrivals)[..n] == Entries(arrivals[..n]);
    }
  }

  lemma {:induction false} EntriesOf(arrivals: seq<Arrival>, id: string, e: StageEvent)
    ensures multiset(Entries(arrivals))[(id, e)] == multiset(EventsFor(arrivals, id))[e]
  {
    if arrivals != [] {
      var n := |arrivals| - 1;
      EntriesOf(arrivals[..n], id, e);
      assert Entries(arrivals) == Entries(arrivals[..n])
        + [(arrivals[n].envelope.correlationId, EventOf(arrivals[n].envelope))];
    }
  }

  lemma {:induction false} CountConcat(a: seq<(string, StageEvent)>, b: seq<(string, StageEvent)>, stage: Stage)
    ensures CountEntries(a + b, stage) == CountEntries(a, stage) + CountEntries(b, stage)
  {
    if b == [] {
      assert a + b == a;
    } else {
      var n := |b| - 1;
      assert (a + b)[..|a + b| - 1] == a + b[..n];
      CountConcat(a, b[..n], stage);
    }
  }

  /** Counting commutes: an entry may be counted last. */
  lemma CountLast(a: seq<(string, StageEvent)>, x: (string, StageEvent), b: seq<(string, StageEvent)>, stage: Stage)
    ensures CountEntries(a + [x] + b, stage) == CountEntries(a + b + [x], stage)
    ensures multiset(a + [x] + b) == multiset(a + b + [x])
  {
    CountConcat(a + [x], b, stage);
    CountConcat(a, [x], stage);
    CountConcat(a + b, [x], stage);
    CountConcat(a, b, stage);
  }

  lemma SplitAt<T>(s: seq<T>, x: T) returns (before: seq<T>, after: seq<T>)
    requires x in s
    ensures s == before + [x] + after
  {
    var i :| 0 <= i < |s| && s[i] == x;
    before, after := s[..i], s[i + 1..];
  }

  lemma SameButLast(a: seq<(string, StageEvent)>, b: seq<(string, StageEvent)>, x: (string, StageEvent))
    requires multiset(a + [x]) == multiset(b + [x])
    ensures multiset(a) == multiset(b)
  {
    assert multiset(a) == multiset(a + [x]) - multiset{x};
    assert multiset(b) == multiset(b + [x]) - multiset{x};
  }

  lemma {:induction false} CountsByMultiset(a: seq<(string, StageEvent)>, b: seq<(string, StageEvent)>, stage: Stage)
    requires multiset(a) == multiset(b)
    ensures CountEntries(a, stage) == CountEntries(b, stage)
    decreases |a|
  {
    if a == [] {
      assert |multiset(b)| == 0;
    } else {
      var init, x := a[..|a| - 1], a[|a| - 1];
      assert a == init + [x];
      assert x in multiset(b);
      var before, after := SplitAt(b, x);
      CountLast(before, x, after, stage);
      SameButLast(init, before + after, x);
      CountsByMultiset(init, before + after, stage);
      CountConcat(init, [x], stage);
      CountConcat(before + after, [x], stage);
    }
  }

  lemma SameEnvelopes(first: seq<Arrival>, second: seq<Arrival>)
    requires SameArrivals(first, second)
    ensures multiset(Entries(first)) == multiset(Entries(second))
  {
    var a, b := Entries(first), Entries(second);
    forall p: (string, StageEvent) ensures multiset(a)[p] == multiset(b)[p] {
      EntriesOf(first, p.0, p.1);
      EntriesOf(second, p.0, p.1);
      InItsTrack(EventsFor(first, p.0), p.1);
      InItsTrack(EventsFor(second, p.0), p.1);
      assert SameTracks(EventsFor(first, p.0), EventsFor(second, p.0));
      assert Track(EventsFor(first, p.0), p.1.stage, p.1.attempts)
          == Track(EventsFor(second, p.0), p.1.stage, p.1.attempts);
    }
  }

  lemma SameCounters(s: DemoState, first: seq<Arrival>, second: seq<Arrival>)
    requires SameArrivals(first, second)
    ensures Receive(s, first).counters == Receive(s, second).counters
  {
    SameEnvelopes(first, second);
    forall stage: Stage ensures Arrived(first, stage) == Arrived(second, stage) {
      CountsByEntries(first, stage);
      CountsByEntries(second, stage);
      CountsByMultiset(Entries(first), Entries(second), stage);
    }
    CountersCount(s, first);
    CountersCount(s, second);
  }

  /** Equal attempts and, if no two of the arrived events `es` that survive tie, the same stages and everything derived
      from them. */
  ghost predicate SameToken(t: Token, u: Token, es: seq<StageEvent>) {
    && t.attempts == u.attempts
    && (NoArrivalTies(es) ==>
          t.stages == u.stages && t.currentStage == u.currentStage && t.terminal == u.terminal)
  }

  lemma TokensAgree(s: DemoState, first: seq<Arrival>, second: seq<Arrival>, id: string)
    requires StateOk(s) && SameArrivals(first, second) && id in s.tokens
    ensures var r, t := Receive(s, first), Receive(s, second);
            && id in r.tokens && id in t.tokens
            && SameToken(r.tokens[id], t.tokens[id], EventsFor(first, id))
  {
    var es, fs := EventsFor(first, id), EventsFor(second, id);
    ReceiveByToken(s, first, id);
    ReceiveByToken(s, second, id);
    assert SameTracks(es, fs);
    SameAttempts(s.tokens[id].attempts, es, fs);
    assert TokenOk(s.tokens[id]);
    if NoArrivalTies(es) {
      ArrivalOrderIsIrrelevant(s.tokens[id].stages, es, fs);
    }
    ReceiveKeeps(s, first);
    ReceiveKeeps(s, second);
    assert TokenOk(Receive(s, first).tokens[id]) && TokenOk(Receive(s, second).tokens[id]);
  }

  /** Confluence: two arrival orders of the same envelopes that keep the order of those with equal id, stage and
      attempts give the same page - the same counters and, for every token whose surviving arrivals have distinct
      (rank, timestamp), the same stages, current stage, terminal flag and attempts - whenever they arrived. */
  lemma EnvelopeOrderIsIrrelevant(s: DemoState, first: seq<Arrival>, second: seq<Arrival>)
    requires StateOk(s) && SameArrivals(first, second)
    ensures var r, t := Receive(s, first), Receive(s, second);
            && r.counters == t.counters && r.tokens.Keys == t.tokens.Keys == s.tokens.Keys
            && forall id :: id in s.tokens ==> SameToken(r.tokens[id], t.tokens[id], EventsFor(first, id))
  {
    ReceiveKeeps(s, first);
    ReceiveKeeps(s, second);
    SameCounters(s, first, second);
    forall id | id in s.tokens
      ensures SameToken(Receive(s, first).tokens[id], Receive(s, second).tokens[id], EventsFor(first, id))
    {
      TokensAgree(s, first, second, id);
    }
  }

  // ---------- and exactly when ----------

  predicate IsFor(a: Arrival, id: string, e: StageEvent) {
    a.envelope.correlationId == id && SameKey(EventOf(a.envelope), e)
  }

  /** The arrivals for one key of one token, or all the others. */
  function Those(arrivals: seq<Arrival>, id: string, e: StageEvent, wanted: bool): seq<Arrival> {
    if arrivals == [] then []
    else
      var last := arrivals[|arrivals| - 1];
      Those(arrivals[..|arrivals| - 1], id, e, wanted) + (if IsFor(last, id, e) == wanted then [last] else [])
  }

  function KeyArrivesLast(arrivals: seq<Arrival>, id: string, e: StageEvent): seq<Arrival> {
    Those(arrivals, id, e, false) + Those(arrivals, id, e, true)
  }

  lemma {:induction false} EventsConcat(a: seq<Arrival>, b: seq<Arrival>, id: string)
    ensures EventsFor(a + b, id) == EventsFor(a, id) + EventsFor(b, id)
  {
    if b == [] {
      assert a + b == a;
    } else {
      assert (a + b)[..|a + b| - 1] == a + b[..|b| - 1];
      EventsConcat(a, b[..|b| - 1], id);
    }
  }

  lemma EventsOne(arrivals: seq<Arrival>, a: Arrival, id: string)
    ensures EventsFor(arrivals + [a], id)
         == if a.envelope.correlationId == id then EventsFor(arrivals, id) + [EventOf(a.envelope)]
            else EventsFor(arrivals, id)
  {
    assert (arrivals + [a])[..|arrivals|] == arrivals;
  }

  lemma WithoutOne(es: seq<StageEvent>, x: StageEvent, e: StageEvent)
    ensures Without(es + [x], e) == if SameKey(x, e) then Without(es, e) else Without(es, e) + [x]
  {
    assert (es + [x])[..|es|] == es;
  }

  lemma TrackOneMore(es: seq<StageEvent>, x: StageEvent, e: StageEvent)
    ensures Track(es + [x], e.stage, e.attempts)
         == if SameKey(x, e) then Track(es, e.stage, e.attempts) + [x] else Track(es, e.stage, e.attempts)
  {
    assert (es + [x])[..|es|] == es;
  }

  lemma ThoseOne(arrivals: seq<Arrival>, a: Arrival, id: string, e: StageEvent, wanted: bool)
    ensures Those(arrivals + [a], id, e, wanted)
         == if IsFor(a, id, e) == wanted then Those(arrivals, id, e, wanted) + [a] else Those(arrivals, id, e, wanted)
  {
    assert (arrivals + [a])[..|arrivals|] == arrivals;
  }

  lemma {:induction false} RestOfToken(arrivals: seq<Arrival>, id: string, e: StageEvent, other: string)
    ensures EventsFor(Those(arrivals, id, e, false), other)
         == if other == id then Without(EventsFor(arrivals, id), e) else EventsFor(arrivals, other)
  {
    if arrivals != [] {
      var init, last := arrivals[..|arrivals| - 1], arrivals[|arrivals| - 1];
      assert arrivals == init + [last];
      RestOfToken(init, id, e, other);
      ThoseOne(init, last, id, e, false);
      EventsOne(init, last, other);
      EventsOne(Those(init, id, e, false), last, other);
      WithoutOne(EventsFor(init, id), EventOf(last.envelope), e);
    }
  }

  lemma {:induction false} ThoseOfToken(arrivals: seq<Arrival>, id: string, e: StageEvent, other: string)
    ensures EventsFor(Those(arrivals, id, e, true), other)
         == if other == id then Track(EventsFor(arrivals, id), e.stage, e.attempts) else []
  {
    if arrivals != [] {
      var init, last := arrivals[..|arrivals| - 1], arrivals[|arrivals| - 1];
      assert arrivals == init + [last];
      ThoseOfToken(init, id, e, other);
      ThoseOne(init, last, id, e, true);
      EventsOne(init, last, other);
      EventsOne(Those(init, id, e, true), last, other);
      TrackOneMore(EventsFor(init, id), EventOf(last.envelope), e);
    }
  }

  lemma KeyArrivesLastOf(arrivals: seq<Arrival>, id: string, e: StageEvent, other: string)
    ensures EventsFor(KeyArrivesLast(arrivals, id, e), other)
         == if other == id then KeyLast(EventsFor(arrivals, id), e) else EventsFor(arrivals, other)
  {
    EventsConcat(Those(arrivals, id, e, false), Those(arrivals, id, e, true), other);
    RestOfToken(arrivals, id, e, other);
    ThoseOfToken(arrivals, id, e, other);
    if other != id {
      assert EventsFor(arrivals, other) + [] == EventsFor(arrivals, other);
    }
  }

  lemma KeyArrivesLastIsTheSame(arrivals: seq<Arrival>, id: string, e: StageEvent)
    ensures SameArrivals(arrivals, KeyArrivesLast(arrivals, id, e))
  {
    forall other ensures SameTracks(EventsFor(arrivals, other), EventsFor(KeyArrivesLast(arrivals, id, e), other)) {
      KeyArrivesLastOf(arrivals, id, e, other);
      if other == id {
        KeyLastKeepsTracks(EventsFor(arrivals, id), e);
      }
    }
  }

  /** A token's stages are the same for every such order if and only if no two of its surviving arrivals tie. */
  lemma StagesAreIndependentIffNoTies(s: DemoState, arrivals: seq<Arrival>, id: string)
    requires StateOk(s) && id in s.tokens
    ensures (forall other :: SameArrivals(arrivals, other) ==>
               id in Receive(s, other).tokens && id in Receive(s, arrivals).tokens
               && Receive(s, other).tokens[id].stages == Receive(s, arrivals).tokens[id].stages)
            <==> NoArrivalTies(EventsFor(arrivals, id))
  {
    var es := EventsFor(arrivals, id);
    assert TokenOk(s.tokens[id]);
    ReceiveByToken(s, arrivals, id);
    if NoArrivalTies(es) {
      forall other | SameArrivals(arrivals, other)
        ensures id in Receive(s, other).tokens
        ensures Receive(s, other).tokens[id].stages == Receive(s, arrivals).tokens[id].stages
      {
        TokensAgree(s, arrivals, other, id);
      }
    } else {
      var x, y :| Survives(es, x) && Survives(es, y) && x != y && Compare(x, y) == 0;
      var fs := TiesShow(s.tokens[id].stages, es, x, y);
      var e := if fs == KeyLast(es, x) then x else y;
      var other := KeyArrivesLast(arrivals, id, e);
      KeyArrivesLastOf(arrivals, id, e, id);
      KeyArrivesLastIsTheSame(arrivals, id, e);
      ReceiveByToken(s, other, id);
    }
  }
}
