/** The confirming publisher: concurrent publishes sharing one map from publish tokens to callbacks. */
module Publishing {
  import opened Wrappers
  import opened Timeouts

  datatype Verdict = Accepted | Unroutable | NotConfirmed(reason: string)

  /** One call of publish: its token, the flag its callback flips, its race, and how it ended. */
  datatype Call = Call(token: string, correlationId: string, returned: bool, race: Option<Settlement>,
                       verdict: Option<Verdict>)

  /** `pendingReturns` maps a token to the call whose callback it stores. */
  datatype State = State(pendingReturns: map<string, nat>, calls: map<nat, Call>)

  const IDLE := State(map[], map[])

  datatype Event =
    | Begin(call: nat, token: string, correlationId: string)
    | Return(header: Option<string>)               // basic.return, with the token header it echoes, if any
    | Race(call: nat, callback: Callback)          // the confirm, its failure or the timer
    | Resume(call: nat)                            // the code after the await runs

  predicate Enabled(s: State, e: Event) {
    match e
    case Begin(c, token, _) => c !in s.calls && forall other :: other in s.calls ==> s.calls[other].token != token
    case Return(_) => true
    case Race(c, _) => c in s.calls
    case Resume(c) => c in s.calls && s.calls[c].race.Some? && s.calls[c].verdict.None?
  }

  function VerdictOf(call: Call): Verdict
    requires call.race.Some?
  {
    match call.race.value
    case Failed(reason) => NotConfirmed(reason)
    case Resolved => if call.returned then Unroutable else Accepted
  }

  function Step(s: State, e: Event): State
    requires Enabled(s, e)
  {
    match e
    case Begin(c, token, correlationId) =>
      State(s.pendingReturns[token := c], s.calls[c := Call(token, correlationId, false, None, None)])
    case Return(header) =>
      if header.Some? && header.value in s.pendingReturns && s.pendingReturns[header.value] in s.calls then
        var c := s.pendingReturns[header.value];
        s.(calls := s.calls[c := s.calls[c].(returned := true)])
      else s
    case Race(c, callback) =>
      s.(calls := s.calls[c := s.calls[c].(race := Raced(s.calls[c].race, callback))])
    case Resume(c) =>
      State(s.pendingReturns - {s.calls[c].token},
            s.calls[c := s.calls[c].(verdict := Some(VerdictOf(s.calls[c])))])
  }

  /** The service itself: each method is one turn of the event loop. */
  class RabbitEventPublisher {
    var pendingReturns: map<string, nat>
    var calls: map<nat, Call>

    ghost function Model(): State
      reads this
    {
      State(pendingReturns, calls)
    }

    constructor ()
      ensures Model() == IDLE
    {
      pendingReturns := map[];
      calls := map[];
    }

    /** The start of publish, up to the await: the token is registered before the message is sent. */
    method Publish(call: nat, token: string, correlationId: string)
      requires Enabled(Model(), Begin(call, token, correlationId))
      modifies this
      ensures Model() == Step(old(Model()), Begin(call, token, correlationId))
    {
      calls := calls[call := Call(token, correlationId, false, None, None)];
      pendingReturns := pendingReturns[token := call];
    }

    /** The channel's return listener: look the token up and invoke the callback stored there. */
    method OnReturn(header: Option<string>)
      modifies this
      ensures Model() == Step(old(Model()), Return(header))
    {
      if header.Some? && header.value in pendingReturns {
        var call := pendingReturns[header.value];
        if call in calls {
          calls := calls[call := calls[call].(returned := true)];
        }
      }
    }

    method OnRace(call: nat, callback: Callback)
      requires Enabled(Model(), Race(call, callback))
      modifies `calls
      ensures Model() == Step(old(Model()), Race(call, callback))
    {
      calls := calls[call := calls[call].(race := Raced(calls[call].race, callback))];
    }

    /** The rest of publish: forget the token, then rethrow, reject a returned message, or succeed. */
    method Finish(call: nat) returns (verdict: Verdict)
      requires Enabled(Model(), Resume(call))
      modifies this
      ensures Model() == Step(old(Model()), Resume(call))
      ensures Model().calls[call].verdict == Some(verdict)
    {
      pendingReturns := pendingReturns - {calls[call].token};
      if calls[call].race.value.Failed? {
        verdict := NotConfirmed(calls[call].race.value.reason);
      } else if calls[call].returned {
        verdict := Unroutable;
      } else {
        verdict := Accepted;
      }
      calls := calls[call := calls[call].(verdict := Some(verdict))];
    }
  }

  // ---------- any interleaving ----------

  ghost predicate Runs(es: seq<Event>)
    decreases |es|, 0
  {
    es == [] || (Runs(es[..|es| - 1]) && Enabled(After(es[..|es| - 1]), es[|es| - 1]))
  }

  ghost function After(es: seq<Event>): State
    requires Runs(es)
    decreases |es|, 1
  {
    if es == [] then IDLE else Step(After(es[..|es| - 1]), es[|es| - 1])
  }

  /** The keys of the map are exactly the tokens of the calls that have not ended, each leading to its own call. */
  ghost predicate TokensAreOpenCalls(s: State) {
    && (forall token :: token in s.pendingReturns ==>
          && s.pendingReturns[token] in s.calls
          && s.calls[s.pendingReturns[token]].token == token
          && s.calls[s.pendingReturns[token]].verdict.None?)
    && (forall c :: c in s.calls && s.calls[c].verdict.None? ==>
          s.calls[c].token in s.pendingReturns && s.pendingReturns[s.calls[c].token] == c)
    && (forall c, d :: c in s.calls && d in s.calls && c != d ==> s.calls[c].token != s.calls[d].token)
  }

  lemma TokensKept(s: State, e: Event)
    requires TokensAreOpenCalls(s) && Enabled(s, e)
    ensures TokensAreOpenCalls(Step(s, e))
  {
  }

  lemma {:induction false} TokensAlwaysMatch(es: seq<Event>)
    requires Runs(es)
    ensures TokensAreOpenCalls(After(es))
    decreases |es|
  {
    if es != [] {
      TokensAlwaysMatch(es[..|es| - 1]);
      TokensKept(After(es[..|es| - 1]), es[|es| - 1]);
    }
  }

  /** Position `f` holds the first callback of call `c`. */
  ghost predicate FirstCallback(es: seq<Event>, c: nat, f: int) {
    && 0 <= f < |es| && es[f].Race? && es[f].call == c
    && forall j | 0 <= j < f :: es[j].Race? ==> es[j].call != c
  }

  ghost predicate ReturnedBetween(es: seq<Event>, from: int, to: int, token: string) {
    exists j | 0 <= from < j < to <= |es| :: es[j] == Return(Some(token))
  }

  /** The state of call `c`, begun at `b`, read off the events that bear its own name or token. */
  ghost predicate ReadOff(es: seq<Event>, b: int, c: nat, token: string, call: Call) {
    && call.token == token
    && (call.race.Some? <==> exists f :: FirstCallback(es, c, f))
    && (forall f :: FirstCallback(es, c, f) ==> call.race == Some(SettledBy(es[f].callback)))
    && (call.verdict.None? ==> (call.returned <==> ReturnedBetween(es, b, |es|, token)))
  }

  lemma FirstCallbackGrows(es: seq<Event>, e: Event, c: nat)
    ensures forall f :: FirstCallback(es + [e], c, f) <==>
              FirstCallback(es, c, f)
              || (f == |es| && e.Race? && e.call == c && forall g :: !FirstCallback(es, c, g))
  {
    var es' := es + [e];
    assert forall j | 0 <= j < |es| :: es'[j] == es[j];
    forall f ensures FirstCallback(es', c, f) <==>
              FirstCallback(es, c, f)
              || (f == |es| && e.Race? && e.call == c && forall g :: !FirstCallback(es, c, g))
    {
      if f == |es| && e.Race? && e.call == c && !FirstCallback(es', c, f) {
        var j :| 0 <= j < |es| && es[j].Race? && es[j].call == c;
        var g := EarliestCallback(es, c, j);
      }
    }
  }

  lemma {:induction false} EarliestCallback(es: seq<Event>, c: nat, j: int) returns (f: int)
    requires 0 <= j < |es| && es[j].Race? && es[j].call == c
    ensures FirstCallback(es, c, f)
    decreases j
  {
    if FirstCallback(es, c, j) {
      f := j;
    } else {
      var i :| 0 <= i < j && es[i].Race? && es[i].call == c;
      f := EarliestCallback(es, c, i);
    }
  }

  lemma ReturnedGrows(es: seq<Event>, e: Event, from: int, token: string)
    requires 0 <= from < |es|
    ensures ReturnedBetween(es + [e], from, |es| + 1, token) <==>
              ReturnedBetween(es, from, |es|, token) || e == Return(Some(token))
  {
    var es' := es + [e];
    if ReturnedBetween(es, from, |es|, token) {
      var j :| from < j < |es| && es[j] == Return(Some(token));
      assert es'[j] == es[j];
    }
    if e == Return(Some(token)) {
      assert es'[|es|] == e;
    }
  }

  /** What one event does to a call that has begun. */
  lemma StepOnCall(s: State, e: Event, c: nat)
    requires TokensAreOpenCalls(s) && Enabled(s, e) && c in s.calls
    ensures c in Step(s, e).calls
    ensures var call, call' := s.calls[c], Step(s, e).calls[c];
            && call'.token == call.token
            && call'.race == (if call.race.None? && e.Race? && e.call == c then Some(SettledBy(e.callback))
                              else call.race)
            && (call'.verdict.None? ==> call.verdict.None?)
            && (call.verdict.None? ==> call'.returned == (call.returned || e == Return(Some(call.token))))
  {
  }

  /** Isolation: whatever else is going on, a call's state is a function of the events bearing its own name or its
      own token; the correlation id plays no part. */
  lemma {:induction false} CallsAreIsolated(es: seq<Event>, b: int, c: nat, token: string, correlationId: string)
    requires Runs(es) && 0 <= b < |es| && es[b] == Begin(c, token, correlationId)
    ensures c in After(es).calls && ReadOff(es, b, c, token, After(es).calls[c])
    decreases |es|
  {
    var init, e := es[..|es| - 1], es[|es| - 1];
    assert es == init + [e];
    TokensAlwaysMatch(init);
    FirstCallbackGrows(init, e, c);
    if b == |es| - 1 {
      NoCallbackBefore(init, c);
    } else {
      assert init[b] == es[b];
      CallsAreIsolated(init, b, c, token, correlationId);
      StepOnCall(After(init), e, c);
      ReturnedGrows(init, e, b, token);
      ReadOffGrows(init, e, b, c, token, After(init).calls[c], After(es).calls[c]);
    }
  }

  lemma ReadOffGrows(es: seq<Event>, e: Event, b: int, c: nat, token: string, call: Call, call': Call)
    requires 0 <= b < |es| && ReadOff(es, b, c, token, call)
    requires forall f :: FirstCallback(es + [e], c, f) <==>
               FirstCallback(es, c, f)
               || (f == |es| && e.Race? && e.call == c && forall g :: !FirstCallback(es, c, g))
    requires ReturnedBetween(es + [e], b, |es| + 1, token) <==>
               ReturnedBetween(es, b, |es|, token) || e == Return(Some(token))
    requires call'.token == call.token && (call'.verdict.None? ==> call.verdict.None?)
    requires call'.race == if call.race.None? && e.Race? && e.call == c then Some(SettledBy(e.callback)) else call.race
    requires call.verdict.None? ==> call'.returned == (call.returned || e == Return(Some(token)))
    ensures ReadOff(es + [e], b, c, token, call')
  {
    var es' := es + [e];
    if call'.race.Some? {
      if call.race.Some? {
        var f :| FirstCallback(es, c, f);
        assert FirstCallback(es', c, f);
      } else {
        assert FirstCallback(es', c, |es|);
      }
    }
    forall f | FirstCallback(es', c, f) ensures call'.race == Some(SettledBy(es'[f].callback)) {
      if FirstCallback(es, c, f) {
        assert es'[f] == es[f];
      }
    }
  }

  /** Before a call begins there is no callback for it. */
  lemma {:induction false} NoCallbackBefore(es: seq<Event>, c: nat)
    requires Runs(es) && c !in After(es).calls
    ensures forall j | 0 <= j < |es| :: es[j].Race? ==> es[j].call != c
    decreases |es|
  {
    if es != [] {
      var init := es[..|es| - 1];
      NoCallbackBefore(init, c);
      assert forall j | 0 <= j < |init| :: init[j] == es[j];
    }
  }

  /** A publish succeeds if and only if the first callback of its race is the confirm and no basic.return bearing its
      own token arrived before its code resumed. */
  lemma SucceedsIff(es: seq<Event>, b: int, c: nat, token: string, correlationId: string)
    requires Runs(es) && 0 <= b < |es| && es[b] == Begin(c, token, correlationId)
    requires Enabled(After(es), Resume(c))
    ensures Runs(es + [Resume(c)])
    ensures After(es + [Resume(c)]).calls[c].verdict == Some(Accepted) <==>
              (exists f :: FirstCallback(es, c, f) && es[f].callback == OnValue)
              && !ReturnedBetween(es, b, |es|, token)
    ensures After(es + [Resume(c)]).calls[c].verdict == Some(Unroutable) <==>
              (exists f :: FirstCallback(es, c, f) && es[f].callback == OnValue)
              && ReturnedBetween(es, b, |es|, token)
    ensures forall reason :: After(es + [Resume(c)]).calls[c].verdict == Some(NotConfirmed(reason)) <==>
              exists f :: FirstCallback(es, c, f)
                && (es[f].callback == OnError(reason)
                    || (es[f].callback == OnTimer && reason == "publisher confirm timed out"))
  {
    var es' := es + [Resume(c)];
    assert es'[..|es'| - 1] == es;
    CallsAreIsolated(es, b, c, token, correlationId);
    var f :| FirstCallback(es, c, f);
  }
}
