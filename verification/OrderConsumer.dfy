/** The order consumer: one delivery from the work queue, from body to ack, and the protocol run it performs. */
module Consuming {
  import opened Wrappers
  import opened Messaging
  import opened Messages
  import opened Tables
  import opened Store
  import opened Protocol
  import opened Processing

  /** What a decision publishes. */
  function Sent(d: Delivery, correlation: string, decision: Decision): seq<Phase>
    requires decision.Retry? ==> EventIdOf(d.body).Some?
  {
    match decision
    case Retry(attempts) => [Waiting(RetryDelivery(EventOf(d, correlation), attempts), TierIndex(attempts))]
    case Bury(attempts, reason) => [Buried(DeadMessageOf(d, correlation, attempts, reason))]
    case _ => []
  }

  /** Whether the delivery is handed back because its transaction failed in a way that may pass. */
  predicate HandsBack(d: Delivery, failure: Option<Failure>) {
    EventIdOf(d.body).Some? && failure.Some? && !IsNonRecoverable(failure.value)
  }

  /** What consuming `d` commits and has to publish; `failure` is what its transaction throws, if anything. */
  function Consumed(events: Events, d: Delivery, generated: string, maxAttempts: nat, outcome: HandlerOutcome,
                    failure: Option<Failure>): (Events, seq<Phase>)
  {
    var correlation := CorrelationOf(d, generated);
    match EventIdOf(d.body)
    case None => (events, Sent(d, correlation, Bury(0, "unparseable payload or missing event_id")))
    case Some(id) =>
      if failure.Some? then (events, Sent(d, correlation, Bury(0, failure.value.message)))
      else
        var (row, decision) := ProcessRow(events, EventOf(d, correlation), IsContinuation(d), maxAttempts, outcome);
        (events[id := row], Sent(d, correlation, decision))
  }

  /** What a message that never got its transaction through leaves on the dead queue, as the row it will be stored in:
      an unusable one without an id, a rejected one under its own, both with no attempt and the text as it came. */
  lemma RejectedMessagesKeepTheirText(events: Events, d: Delivery, generated: string, maxAttempts: nat,
                                      outcome: HandlerOutcome, failure: Option<Failure>)
    requires EventIdOf(d.body).None? || failure.Some?
    ensures var correlation := CorrelationOf(d, generated);
            var (after, sent) := Consumed(events, d, generated, maxAttempts, outcome, failure);
            && after == events && |sent| == 1 && sent[0].Buried? && !sent[0].m.body.NullLiteral?
            && RowOf(sent[0].m) ==
                 if EventIdOf(d.body).None?
                 then DlqRow(None, correlation, None, "unparseable payload or missing event_id", 0, d.body, false)
                 else DlqRow(EventIdOf(d.body), correlation, EventIdOf(d.body), failure.value.message, 0, d.body, false)
  {
  }

  class OrderConsumer {
    const processor: IdempotentEventProcessor
    const broker: Broker

    constructor (processor: IdempotentEventProcessor, broker: Broker)
      ensures this.processor == processor && this.broker == broker
    {
      this.processor := processor;
      this.broker := broker;
    }

    ghost function Answer(events: Events, d: Delivery, generated: string): HandlerOutcome {
      if EventIdOf(d.body).Some? then processor.Answer(events, EventOf(d, CorrelationOf(d, generated))) else Succeeds
    }

    /** `failure` is what the transaction throws, if anything; `publish` what becomes of a publish. */
    method Handle(d: Delivery, generated: string, failure: Option<Failure>, publish: PublishOutcome)
      returns (verdict: Verdict)
      modifies processor.db`events, broker
      ensures HandsBack(d, failure) ==>
                verdict == Nacked && processor.db.events == old(processor.db.events)
                && broker.messages == old(broker.messages)
      ensures !HandsBack(d, failure) ==>
                var (events, sent) := Consumed(old(processor.db.events), d, generated, processor.maxAttempts,
                                               Answer(old(processor.db.events), d, generated), failure);
                && processor.db.events == events
                && verdict == (if sent == [] || publish.Confirmed? then Acked else Escaped)
                && broker.messages == old(broker.messages) + (if publish.Lost? then [] else sent)
    {
      var correlation := CorrelationOf(d, generated);
      var id := EventIdOf(d.body);
      if id.None? {
        verdict := ToDeadLetter(DeadMessageOf(d, correlation, 0, "unparseable payload or missing event_id"), publish);
        return;
      }
      var event := EventOf(d, correlation);
      var result := processor.Process(event, IsContinuation(d), failure);
      match result {
        case RolledBack(thrown) =>
          if !IsNonRecoverable(thrown) {
            return Nacked;
          }
          verdict := ToDeadLetter(DeadMessageOf(d, correlation, 0, thrown.message), publish);
        case Committed(decision) =>
          match decision {
            case Handled(_) => verdict := Acked;
            case Duplicate(_) => verdict := Acked;
            case Retry(attempts) =>
              var tier := TierIndex(attempts);
              var ok := broker.Publish(Waiting(RetryDelivery(event, attempts), tier), publish);
              verdict := if ok then Acked else Escaped;
            case Bury(attempts, reason) =>
              verdict := ToDeadLetter(DeadMessageOf(d, correlation, attempts, reason), publish);
          }
      }
    }

    method ToDeadLetter(letter: DeadMessage, publish: PublishOutcome) returns (verdict: Verdict)
      modifies broker
      ensures broker.messages == old(broker.messages) + (if publish.Lost? then [] else [Buried(letter)])
      ensures verdict == if publish.Confirmed? then Acked else Escaped
    {
      var ok := broker.Publish(Buried(letter), publish);
      verdict := if ok then Acked else Escaped;
    }
  }

  // ---------- the protocol run of one delivery ----------

  function DecisionStep(d: Delivery, k: nat, outcome: HandlerOutcome, generated: string, failure: Option<Failure>)
    : Label
  {
    if EventIdOf(d.body).None? then Reject(k, generated)
    else if failure.Some? then DbError(k, failure.value.message, generated)
    else Commit(k, outcome, generated)
  }

  /** The state right after the decision on the delivery at `k`. */
  ghost predicate DecidedAs(s: State, t: State, k: nat, events: Events, sent: seq<Phase>)
    requires k in s.live && s.live[k].Running?
  {
    var d := s.live[k].d;
    && t.events == events && t.dlq == s.dlq
    && if sent == [] then t.live == s.live[k := Acking(d)]
       else
         && k in t.live && t.live[k].Decided? && t.live == s.live[k := t.live[k]] && t.live[k].d == d
         && (t.live[k].decision.Bury? || (t.live[k].decision.Retry? && EventIdOf(d.body).Some?))
         && Sent(d, t.live[k].correlation, t.live[k].decision) == sent
  }

  lemma CommitMatches(s: State, k: nat, outcome: HandlerOutcome, generated: string, maxAttempts: nat)
    requires Enabled(s, Commit(k, outcome, generated))
    ensures var (events, sent) := Consumed(s.events, s.live[k].d, generated, maxAttempts, outcome, None);
            DecidedAs(s, AfterCommit(s, k, outcome, generated, maxAttempts), k, events, sent)
  {
  }

  lemma DecisionMatches(s: State, k: nat, outcome: HandlerOutcome, generated: string, failure: Option<Failure>,
                        maxAttempts: nat)
    requires k in s.live && s.live[k].Running? && generated != ""
    ensures var d := s.live[k].d;
            var (events, sent) := Consumed(s.events, d, generated, maxAttempts, outcome, failure);
            && Enabled(s, DecisionStep(d, k, outcome, generated, failure))
            && DecidedAs(s, Step(s, DecisionStep(d, k, outcome, generated, failure), maxAttempts), k, events, sent)
  {
    if EventIdOf(s.live[k].d.body).Some? && failure.None? {
      CommitMatches(s, k, outcome, generated, maxAttempts);
    }
  }

  /** Publishing a decided outcome sends what the decision says. */
  lemma SendMatches(t: State, k: nat, k': nat)
    requires k in t.live && t.live[k].Decided? && k' !in t.live && Enabled(t, Send(k, k'))
    ensures var Decided(d, correlation, decision) := t.live[k];
            AfterSend(t, k, k') == t.(live := t.live[k := Acking(d)][k' := Sent(d, correlation, decision)[0]])
  {
  }

  /** What is live once the consumer is done: the published message in place of an acked delivery, or beside the
      delivery that was handed back. */
  function LiveAfter(s: State, k: nat, k': nat, d: Delivery, sent: seq<Phase>, publish: PublishOutcome)
    : map<nat, Phase>
  {
    var delivery :=
      if sent == [] || publish.Confirmed? then s.live - {k} else s.live[k := Queued(d.(redelivered := true))];
    if sent == [] || publish.Lost? then delivery else delivery[k' := sent[0]]
  }

  lemma TwoSteps(s: State, a: Label, b: Label, maxAttempts: nat)
    requires Enabled(s, a) && Enabled(Step(s, a, maxAttempts), b)
    ensures Runs(s, [a] + ([b] + []), maxAttempts)
    ensures After(s, [a] + ([b] + []), maxAttempts) == Step(Step(s, a, maxAttempts), b, maxAttempts)
  {
    First(Step(s, a, maxAttempts), b, [], maxAttempts);
    First(s, a, [b] + [], maxAttempts);
  }

  /** From the decision on: publish what there is to publish and ack, or be handed back when the publish throws. */
  lemma DecidedRun(s: State, t: State, k: nat, k': nat, events: Events, sent: seq<Phase>, publish: PublishOutcome,
                   maxAttempts: nat) returns (ls: seq<Label>)
    requires k in s.live && s.live[k].Running? && k' !in s.live && DecidedAs(s, t, k, events, sent)
    ensures Runs(t, ls, maxAttempts)
    ensures var u := After(t, ls, maxAttempts);
            && u.events == events && u.dlq == s.dlq
            && u.live == LiveAfter(s, k, k', s.live[k].d, sent, publish)
  {
    if sent == [] || publish.Lost? {
      ls := UnsentRun(s, t, k, k', events, sent, maxAttempts);
    } else {
      var last := if publish.Confirmed? then Ack(k) else Requeue(k);
      SendMatches(t, k, k');
      TwoSteps(t, Send(k, k'), last, maxAttempts);
      ls := [Send(k, k')] + ([last] + []);
      assert t.live[k := Acking(t.live[k].d)][k' := sent[0]] - {k} == (s.live - {k})[k' := sent[0]];
    }
  }

  lemma UnsentRun(s: State, t: State, k: nat, k': nat, events: Events, sent: seq<Phase>, maxAttempts: nat)
    returns (ls: seq<Label>)
    requires k in s.live && s.live[k].Running? && DecidedAs(s, t, k, events, sent)
    ensures Runs(t, ls, maxAttempts)
    ensures var u := After(t, ls, maxAttempts);
            && u.events == events && u.dlq == s.dlq
            && u.live == LiveAfter(s, k, k', s.live[k].d, sent, Lost)
  {
    var last := if sent == [] then Ack(k) else Requeue(k);
    assert Runs(Step(t, last, maxAttempts), [], maxAttempts);
    First(t, last, [], maxAttempts);
    ls := [last] + [];
    assert t.live - {k} == s.live - {k};
  }

  /** The consumer performs the protocol's steps: whatever the transaction throws and whatever becomes of its publish,
      the protocol has a run from the delivery on that leaves exactly the tables and the queued messages of the
      consumer's contract. */
  lemma ConsumerFollowsProtocol(s: State, k: nat, k': nat, outcome: HandlerOutcome, generated: string,
                                failure: Option<Failure>, publish: PublishOutcome, maxAttempts: nat)
    returns (ls: seq<Label>)
    requires k in s.live && s.live[k].Queued? && k' !in s.live && generated != ""
    ensures Runs(s, ls, maxAttempts)
    ensures var d := s.live[k].d;
            var t := After(s, ls, maxAttempts);
            var (events, sent) := Consumed(s.events, d, generated, maxAttempts, outcome, failure);
            && t.dlq == s.dlq
            && if HandsBack(d, failure)
               then t.events == s.events && t.live == s.live[k := Queued(d.(redelivered := true))]
               else t.events == events && t.live == LiveAfter(s, k, k', d, sent, publish)
  {
    if HandsBack(s.live[k].d, failure) {
      TwoSteps(s, Deliver(k), Requeue(k), maxAttempts);
      ls := [Deliver(k)] + ([Requeue(k)] + []);
    } else {
      var s' := Step(s, Deliver(k), maxAttempts);
      assert s'.live - {k} == s.live - {k};
      ls := ConsumedRun(s', k, k', outcome, generated, failure, publish, maxAttempts);
      First(s, Deliver(k), ls, maxAttempts);
      ls := [Deliver(k)] + ls;
    }
  }

  lemma ConsumedRun(s: State, k: nat, k': nat, outcome: HandlerOutcome, generated: string, failure: Option<Failure>,
                    publish: PublishOutcome, maxAttempts: nat) returns (ls: seq<Label>)
    requires k in s.live && s.live[k].Running? && k' !in s.live && generated != ""
    ensures Runs(s, ls, maxAttempts)
    ensures var d := s.live[k].d;
            var t := After(s, ls, maxAttempts);
            var (events, sent) := Consumed(s.events, d, generated, maxAttempts, outcome, failure);
            t.dlq == s.dlq && t.events == events && t.live == LiveAfter(s, k, k', d, sent, publish)
  {
    var d := s.live[k].d;
    var decide := DecisionStep(d, k, outcome, generated, failure);
    var (events, sent) := Consumed(s.events, d, generated, maxAttempts, outcome, failure);
    DecisionMatches(s, k, outcome, generated, failure, maxAttempts);
    ls := DecidedRun(s, Step(s, decide, maxAttempts), k, k', events, sent, publish, maxAttempts);
    First(s, decide, ls, maxAttempts);
    ls := [decide] + ls;
  }
}
