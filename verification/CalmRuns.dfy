/** Runs without crash, nack, database error or replay: the retry ladder is a single chain, and every duplicate
    is counted. Messages may still be published in any number and overtake each other in any order. */
module CalmRuns {
  import opened Wrappers
  import opened Sums
  import opened Messaging
  import opened Messages
  import opened Tables
  import opened Protocol
  import opened Invariants
  import opened Guarantees
  import opened Decisions

  predicate Calm(l: Label) {
    !l.Requeue? && !l.HandBack? && !l.DbError? && !l.Prepare? && (l.Publish? ==> !IsContinuation(l.d))
  }

  ghost predicate CalmRun(ls: seq<Label>) {
    forall i | 0 <= i < |ls| :: Calm(ls[i])
  }

  predicate CarriesLetter(p: Phase) {
    p.Buried? || p.Recording? || p.Ignored? || p.Overlooked? || p.Stored?
  }

  ghost predicate NoneHandedBack(s: State) {
    forall k :: k in s.live ==>
      !s.live[k].Redrive? && (CarriesLetter(s.live[k]) || !s.live[k].d.redelivered)
  }

  ghost function Continuer(id: string): Phase -> nat {
    (p: Phase) => if Is(p, id, Continuing) then 1 else 0
  }

  /** A producer's message that is still to be decided. */
  ghost function Undecided(id: string): Phase -> nat {
    (p: Phase) =>
      if (p.Queued? || p.Running?) && EventIdOf(p.d.body) == Some(id) && !IsContinuation(p.d) then 1 else 0
  }

  ghost function Continuers(s: State, id: string): nat {
    Sum(s.live, Continuer(id))
  }

  /** The continuation `p` of an event with `attempts` failed attempts stands on the rung that attempt chose, and
      the event has waited exactly for the rungs below. */
  ghost predicate OnRung(p: Phase, attempts: nat, waited: nat) {
    && attempts >= 1
    && match p
       case Decided(_, _, decision) => decision.attempts == attempts && waited == LadderTtl(attempts - 1)
       case Waiting(d, tier) =>
         d.attemptHeader == Some(attempts) && tier == TierIndex(attempts) && waited == LadderTtl(attempts - 1)
       case _ => (p.Queued? || p.Running?) && p.d.attemptHeader == Some(attempts) && waited == LadderTtl(attempts)
  }

  ghost predicate SingleChain(s: State, id: string) {
    && Continuers(s, id) == (if id in s.events && s.events[id].status == Processing then 1 else 0)
    && (forall k :: k in s.live && Is(s.live[k], id, Continuing) ==>
          && id in s.events && s.events[id].status == Processing
          && OnRung(s.live[k], s.events[id].attempts, TallyOf(s, id).waited))
    && (id !in s.events ==> TallyOf(s, id).waited == 0)
    && (id in s.events && s.events[id].status != Processing ==>
          && s.events[id].status != Received && s.events[id].attempts >= 1
          && TallyOf(s, id).waited == LadderTtl(s.events[id].attempts - 1))
  }

  ghost predicate Counted(s: State, id: string) {
    var t := TallyOf(s, id);
    && t.decided == (if id in s.events then 1 + s.events[id].duplicateCount + t.reemitted else 0)
    && t.published == t.decided + Sum(s.live, Undecided(id))
    && (id !in s.events ==> t.reemitted == 0)
  }

  ghost predicate CalmInv(s: State, id: string) {
    && Shape(s) && NoneHandedBack(s) && LettersFindTheFailed(s, id)
    && SingleChain(s, id) && Counted(s, id)
  }

  lemma OnlyOne(s: State, id: string, k: nat, j: nat)
    requires Continuers(s, id) <= 1 && k in s.live && j in s.live && k != j && Is(s.live[k], id, Continuing)
    ensures !Is(s.live[j], id, Continuing)
  {
    SumRemove(s.live, Continuer(id), k);
    SumRemove(s.live - {k}, Continuer(id), j);
  }

  /** How a step changes the number of messages with some property: by the moved one, and the published one. */
  lemma SumsMove(s: State, l: Label, maxAttempts: nat, f: Phase -> nat)
    requires Enabled(s, l) && !l.Discard? && !l.HandBack?
    ensures var s' := Step(s, l, maxAttempts);
            Sum(s'.live, f) + (if KeyOf(l) in s.live then f(s.live[KeyOf(l)]) else 0)
            == Sum(s.live, f) + (if KeyOf(l) in s'.live then f(s'.live[KeyOf(l)]) else 0)
               + (if l.Send? then f(s'.live[l.k']) else 0)
  {
    var s' := Step(s, l, maxAttempts);
    if l.Send? {
      SumMoves(s.live, f, l.k, s'.live[l.k]);
      SumMoves(s.live[l.k := s'.live[l.k]], f, l.k', s'.live[l.k']);
    } else if l.Ack? || l.RedriveLost? {
      SumRemove(s.live, f, l.k);
    } else {
      assert s'.live == s.live[KeyOf(l) := s'.live[KeyOf(l)]];
      SumMoves(s.live, f, KeyOf(l), s'.live[KeyOf(l)]);
    }
  }

  lemma NoneHandedBackKept(s: State, l: Label, maxAttempts: nat)
    requires Shape(s) && NoneHandedBack(s) && Enabled(s, l) && Calm(l)
    ensures NoneHandedBack(Step(s, l, maxAttempts))
  {
    if l.Send? {
      SendMakes(s, l.k, l.k');
    }
  }

  // ---------- the ladder ----------

  /** What a commit's message becomes: the next continuation exactly when the row is left processing by this commit. */
  lemma CommitContinues(s: State, l: Label, maxAttempts: nat, id: string)
    requires Enabled(s, l) && l.Commit? && Touches(s, l, id)
    ensures var s' := Step(s, l, maxAttempts);
            var before := LockedRow(s.events, EventOf(s.live[l.k].d, CorrelationOf(s.live[l.k].d, l.generated)));
            var ran := HandlerRuns(before, id !in s.events, IsContinuation(s.live[l.k].d));
            && (Is(s.live[l.k], id, Continuing) <==> IsContinuation(s.live[l.k].d))
            && (Is(s'.live[l.k], id, Continuing) <==> ran && s'.events[id].status == Processing)
            && (Is(s'.live[l.k], id, Continuing) ==>
                  s'.live[l.k].Decided? && s'.live[l.k].decision.attempts == s'.events[id].attempts >= 1)
            && TallyOf(s', id).waited == TallyOf(s, id).waited
            && (ran ==> s'.events[id].attempts == before.attempts + 1 && s'.events[id].status != Received)
            && (!ran ==> s'.events[id].attempts == before.attempts && s'.events[id].status == before.status)
  {
  }

  /** A commit turns the one continuation of its event, or the claim, into the next one or into none. */
  lemma CommitMoves(s: State, l: Label, maxAttempts: nat, id: string)
    requires CalmInv(s, id) && Enabled(s, l) && l.Commit? && Touches(s, l, id)
    ensures var s' := Step(s, l, maxAttempts);
            var was, now := Is(s.live[l.k], id, Continuing), Is(s'.live[l.k], id, Continuing);
            && (was <==> IsContinuation(s.live[l.k].d))
            && TallyOf(s', id).waited == TallyOf(s, id).waited
            && (now ==> s'.events[id].status == Processing
                        && OnRung(s'.live[l.k], s'.events[id].attempts, TallyOf(s, id).waited))
            && (was || id !in s.events ==>
                  && s'.events[id].status != Received
                  && (now <==> s'.events[id].status == Processing)
                  && s'.events[id].attempts >= 1
                  && TallyOf(s, id).waited == LadderTtl(s'.events[id].attempts - 1))
            && (!was && id in s.events ==>
                  && !now && s'.events[id].status == s.events[id].status
                  && s'.events[id].attempts == s.events[id].attempts)
  {
    CommitContinues(s, l, maxAttempts, id);
  }

  lemma CommitStepsChain(s: State, l: Label, maxAttempts: nat, id: string)
    requires CalmInv(s, id) && Enabled(s, l) && l.Commit? && Touches(s, l, id)
    ensures SingleChain(Step(s, l, maxAttempts), id)
  {
    var s' := Step(s, l, maxAttempts);
    SumsMove(s, l, maxAttempts, Continuer(id));
    CommitMoves(s, l, maxAttempts, id);
    forall k | k in s'.live && Is(s'.live[k], id, Continuing)
      ensures s'.events[id].status == Processing
      ensures OnRung(s'.live[k], s'.events[id].attempts, TallyOf(s', id).waited)
    {
      CommitStepsRung(s, l, maxAttempts, id, k);
    }
  }

  lemma CommitStepsRung(s: State, l: Label, maxAttempts: nat, id: string, k: nat)
    requires CalmInv(s, id) && Enabled(s, l) && l.Commit? && Touches(s, l, id)
    requires k in Step(s, l, maxAttempts).live && Is(Step(s, l, maxAttempts).live[k], id, Continuing)
    ensures var s' := Step(s, l, maxAttempts);
            && s'.events[id].status == Processing
            && OnRung(s'.live[k], s'.events[id].attempts, TallyOf(s', id).waited)
  {
    CommitMoves(s, l, maxAttempts, id);
    if k != l.k {
      assert Is(s.live[k], id, Continuing);
      if Is(s.live[l.k], id, Continuing) {
        OnlyOne(s, id, k, l.k);
      }
    }
  }

  /** What the steps other than a commit do to the row and to the waiting time. */
  lemma OtherStepsRow(s: State, l: Label, maxAttempts: nat, id: string)
    requires CalmInv(s, id) && Enabled(s, l) && Calm(l) && !(l.Commit? && Touches(s, l, id))
    ensures var s' := Step(s, l, maxAttempts);
            && (id in s'.events <==> id in s.events)
            && (id in s.events ==>
                  && s'.events[id].attempts == s.events[id].attempts
                  && s'.events[id].duplicateCount == s.events[id].duplicateCount
                  && (s'.events[id].status == s.events[id].status
                      || (s'.events[id].status == Dead && s.events[id].status == Failed)))
            && TallyOf(s', id).waited == TallyOf(s, id).waited
                 + (if l.Expire? && EventIdOf(s.live[l.k].d.body) == Some(id)
                    then RETRY_TIERS[s.live[l.k].tier].ttlMs else 0)
            && TallyOf(s', id).decided == TallyOf(s, id).decided
            && TallyOf(s', id).reemitted == TallyOf(s, id).reemitted
  {
    OtherStepsStatus(s, l, maxAttempts, id);
    OtherStepsTally(s, l, maxAttempts, id);
  }

  lemma OtherStepsStatus(s: State, l: Label, maxAttempts: nat, id: string)
    requires LettersFindTheFailed(s, id) && Enabled(s, l) && Calm(l) && !(l.Commit? && Touches(s, l, id))
    ensures var s' := Step(s, l, maxAttempts);
            && (id in s'.events <==> id in s.events)
            && (id in s.events ==>
                  && s'.events[id].attempts == s.events[id].attempts
                  && s'.events[id].duplicateCount == s.events[id].duplicateCount
                  && (s'.events[id].status == s.events[id].status
                      || (s'.events[id].status == Dead && s.events[id].status == Failed)))
  {
    MarkersAreOutstanding(s, l, id);
    if !Touches(s, l, id) {
      UntouchedRow(s, l, maxAttempts, id);
    }
  }

  lemma OtherStepsTally(s: State, l: Label, maxAttempts: nat, id: string)
    requires Enabled(s, l) && Calm(l) && !(l.Commit? && Touches(s, l, id))
    ensures var t, t' := TallyOf(s, id), TallyOf(Step(s, l, maxAttempts), id);
            && t'.waited == t.waited + (if l.Expire? && EventIdOf(s.live[l.k].d.body) == Some(id)
                                        then RETRY_TIERS[s.live[l.k].tier].ttlMs else 0)
            && t'.decided == t.decided && t'.reemitted == t.reemitted
  {
  }

  /** They carry the continuation along. */
  lemma OtherStepsCarry(s: State, l: Label, maxAttempts: nat, id: string)
    requires Shape(s) && NoneHandedBack(s) && Enabled(s, l) && Calm(l)
    requires !(l.Commit? && Touches(s, l, id)) && !l.Discard?
    ensures var s' := Step(s, l, maxAttempts);
            var c := Continuer(id);
            (if KeyOf(l) in s'.live then c(s'.live[KeyOf(l)]) else 0) + (if l.Send? then c(s'.live[l.k']) else 0)
            == (if KeyOf(l) in s.live then c(s.live[KeyOf(l)]) else 0)
  {
    if l.Send? {
      SendsCarry(s, l, maxAttempts, id);
    } else {
      MovesCarry(s, l, maxAttempts, id);
    }
  }

  lemma MovesCarry(s: State, l: Label, maxAttempts: nat, id: string)
    requires Shape(s) && NoneHandedBack(s) && Enabled(s, l) && Calm(l)
    requires !(l.Commit? && Touches(s, l, id)) && !l.Discard? && !l.Send?
    ensures var s' := Step(s, l, maxAttempts);
            (if l.k in s'.live then Continuer(id)(s'.live[l.k]) else 0)
            == (if l.k in s.live then Continuer(id)(s.live[l.k]) else 0)
  {
    if l.k in s.live {
      assert PhaseOk(s.live[l.k]);
      if CarriesLetter(s.live[l.k]) {
        LettersDoNotContinue(s, l, maxAttempts, id);
      }
    }
  }

  lemma LettersDoNotContinue(s: State, l: Label, maxAttempts: nat, id: string)
    requires Enabled(s, l) && Calm(l) && !l.Discard? && !l.Send? && l.k in s.live && CarriesLetter(s.live[l.k])
    ensures var s' := Step(s, l, maxAttempts);
            !Is(s.live[l.k], id, Continuing) && (l.k in s'.live ==> !Is(s'.live[l.k], id, Continuing))
  {
  }

  lemma SendsCarry(s: State, l: Label, maxAttempts: nat, id: string)
    requires Shape(s) && Enabled(s, l) && l.Send?
    ensures var s' := Step(s, l, maxAttempts);
            && l.k in s'.live && l.k' in s'.live
            && Continuer(id)(s'.live[l.k]) + Continuer(id)(s'.live[l.k']) == Continuer(id)(s.live[l.k])
            && Undecided(id)(s'.live[l.k]) + Undecided(id)(s'.live[l.k']) == Undecided(id)(s.live[l.k]) == 0
  {
    SendMakes(s, l.k, l.k');
  }

  lemma RungMoves(s: State, l: Label, maxAttempts: nat, id: string, k: nat, attempts: nat, waited: nat)
    requires Shape(s) && NoneHandedBack(s) && Enabled(s, l) && Calm(l)
    requires !(l.Commit? && Touches(s, l, id)) && !l.Discard?
    requires var s' := Step(s, l, maxAttempts);
             k in s'.live && Is(s'.live[k], id, Continuing) && !(k in s.live && s'.live[k] == s.live[k])
    ensures KeyOf(l) in s.live && Is(s.live[KeyOf(l)], id, Continuing)
    ensures OnRung(s.live[KeyOf(l)], attempts, waited) ==>
              OnRung(Step(s, l, maxAttempts).live[k], attempts,
                     waited + (if l.Expire? then RETRY_TIERS[s.live[l.k].tier].ttlMs else 0))
  {
    if l.Send? {
      SentRung(s, l, maxAttempts, id, k, attempts, waited);
    }
  }

  lemma SentRung(s: State, l: Label, maxAttempts: nat, id: string, k: nat, attempts: nat, waited: nat)
    requires Shape(s) && Enabled(s, l) && l.Send?
    requires var s' := Step(s, l, maxAttempts);
             k in s'.live && Is(s'.live[k], id, Continuing) && !(k in s.live && s'.live[k] == s.live[k])
    ensures Is(s.live[l.k], id, Continuing)
    ensures OnRung(s.live[l.k], attempts, waited) ==> OnRung(Step(s, l, maxAttempts).live[k], attempts, waited)
  {
    SendMakes(s, l.k, l.k');
  }

  lemma OtherStepsChain(s: State, l: Label, maxAttempts: nat, id: string)
    requires CalmInv(s, id) && Enabled(s, l) && Calm(l) && !(l.Commit? && Touches(s, l, id)) && !l.Discard?
    ensures SingleChain(Step(s, l, maxAttempts), id)
  {
    var s' := Step(s, l, maxAttempts);
    SumsMove(s, l, maxAttempts, Continuer(id));
    OtherStepsCarry(s, l, maxAttempts, id);
    OtherStepsRow(s, l, maxAttempts, id);
    ExpiringContinues(s, l, id);
    forall k | k in s'.live && Is(s'.live[k], id, Continuing)
      ensures id in s'.events && s'.events[id].status == Processing
      ensures OnRung(s'.live[k], s'.events[id].attempts, TallyOf(s', id).waited)
    {
      OtherStepsRung(s, l, maxAttempts, id, k);
    }
  }

  lemma ExpiringContinues(s: State, l: Label, id: string)
    requires Shape(s) && Enabled(s, l)
    ensures l.Expire? && EventIdOf(s.live[l.k].d.body) == Some(id) ==> Is(s.live[l.k], id, Continuing)
  {
  }

  lemma OtherStepsRung(s: State, l: Label, maxAttempts: nat, id: string, k: nat)
    requires CalmInv(s, id) && Enabled(s, l) && Calm(l) && !(l.Commit? && Touches(s, l, id)) && !l.Discard?
    requires k in Step(s, l, maxAttempts).live && Is(Step(s, l, maxAttempts).live[k], id, Continuing)
    ensures var s' := Step(s, l, maxAttempts);
            && id in s'.events && s'.events[id].status == Processing
            && OnRung(s'.live[k], s'.events[id].attempts, TallyOf(s', id).waited)
  {
    var s' := Step(s, l, maxAttempts);
    OtherStepsRow(s, l, maxAttempts, id);
    ExpiringContinues(s, l, id);
    if k in s.live && s'.live[k] == s.live[k] {
      if l.Expire? && Is(s.live[l.k], id, Continuing) {
        OnlyOne(s, id, l.k, k);
      }
    } else {
      RungMoves(s, l, maxAttempts, id, k, if id in s.events then s.events[id].attempts else 0, TallyOf(s, id).waited);
    }
  }

  // ---------- the duplicates ----------

  lemma OtherStepsLeaveUndecided(s: State, l: Label, maxAttempts: nat, id: string)
    requires Shape(s) && Enabled(s, l) && Calm(l) && !(l.Commit? && Touches(s, l, id)) && !l.Discard?
    ensures var s' := Step(s, l, maxAttempts);
            var u := Undecided(id);
            (if KeyOf(l) in s'.live then u(s'.live[KeyOf(l)]) else 0) + (if l.Send? then u(s'.live[l.k']) else 0)
            == (if KeyOf(l) in s.live then u(s.live[KeyOf(l)]) else 0)
               + (TallyOf(s', id).published - TallyOf(s, id).published)
  {
    if l.Send? {
      SendsCarry(s, l, maxAttempts, id);
    } else {
      MovesLeaveUndecided(s, l, maxAttempts, id);
      PublishesAreCounted(s, l, maxAttempts, id);
    }
  }

  lemma MovesLeaveUndecided(s: State, l: Label, maxAttempts: nat, id: string)
    requires Shape(s) && Enabled(s, l) && Calm(l) && !(l.Commit? && Touches(s, l, id)) && !l.Discard? && !l.Send?
    ensures var s' := Step(s, l, maxAttempts);
            var u := Undecided(id);
            (if l.k in s'.live then u(s'.live[l.k]) else 0)
            == (if l.k in s.live then u(s.live[l.k]) else 0)
               + (if l.Publish? && EventIdOf(l.d.body) == Some(id) then 1 else 0)
  {
    if l.Expire? {
      assert PhaseOk(s.live[l.k]);
    }
  }

  lemma PublishesAreCounted(s: State, l: Label, maxAttempts: nat, id: string)
    requires Enabled(s, l)
    ensures TallyOf(Step(s, l, maxAttempts), id).published
         == TallyOf(s, id).published + (if l.Publish? && EventIdOf(l.d.body) == Some(id) then 1 else 0)
  {
  }

  lemma CountedKept(s: State, l: Label, maxAttempts: nat, id: string)
    requires CalmInv(s, id) && Enabled(s, l) && Calm(l) && !l.Discard?
    ensures Counted(Step(s, l, maxAttempts), id)
  {
    SumsMove(s, l, maxAttempts, Undecided(id));
    if l.Commit? && Touches(s, l, id) {
      CommitCounts(s, l, maxAttempts, id);
    } else {
      OtherStepsRow(s, l, maxAttempts, id);
      OtherStepsLeaveUndecided(s, l, maxAttempts, id);
    }
  }

  lemma CommitCounts(s: State, l: Label, maxAttempts: nat, id: string)
    requires CalmInv(s, id) && Enabled(s, l) && l.Commit? && Touches(s, l, id)
    ensures var s' := Step(s, l, maxAttempts);
            var t, t' := TallyOf(s, id), TallyOf(s', id);
            && t'.published == t.published && id in s'.events
            && t'.decided == t.decided + Undecided(id)(s.live[l.k]) && Undecided(id)(s'.live[l.k]) == 0
            && t'.decided == 1 + s'.events[id].duplicateCount + t'.reemitted
  {
    CommitTallies(s, l, maxAttempts, id);
    CommitDuplicates(s, l, maxAttempts, id);
    assert Is(s.live[l.k], id, Continuing) <==> IsContinuation(s.live[l.k].d);
  }

  lemma CommitTallies(s: State, l: Label, maxAttempts: nat, id: string)
    requires Enabled(s, l) && l.Commit? && Touches(s, l, id)
    ensures var s' := Step(s, l, maxAttempts);
            var t, t' := TallyOf(s, id), TallyOf(s', id);
            && t'.published == t.published
            && t'.decided == t.decided + Undecided(id)(s.live[l.k]) && Undecided(id)(s'.live[l.k]) == 0
            && t'.reemitted == t.reemitted
                 + (if id in s.events && s.events[id].status == Failed && !IsContinuation(s.live[l.k].d) then 1 else 0)
  {
  }

  /** A delivery that is not a continuation is the claim, a counted duplicate or a re-emitted death. */
  lemma CommitDuplicates(s: State, l: Label, maxAttempts: nat, id: string)
    requires Enabled(s, l) && l.Commit? && Touches(s, l, id)
    requires IsContinuation(s.live[l.k].d) ==> id in s.events && s.events[id].status == Processing
    ensures var s' := Step(s, l, maxAttempts);
            && id in s'.events
            && s'.events[id].duplicateCount ==
                 (if id in s.events then s.events[id].duplicateCount else 0)
                 + (if id in s.events && s.events[id].status != Failed && !IsContinuation(s.live[l.k].d) then 1 else 0)
  {
  }

  lemma CalmInvKept(s: State, l: Label, maxAttempts: nat, id: string)
    requires CalmInv(s, id) && Enabled(s, l) && Calm(l)
    ensures CalmInv(Step(s, l, maxAttempts), id)
  {
    ShapeKept(s, l, maxAttempts);
    NoneHandedBackKept(s, l, maxAttempts);
    LettersFindTheFailedKept(s, l, maxAttempts, id);
    if !l.Discard? {
      CountedKept(s, l, maxAttempts, id);
      if l.Commit? && Touches(s, l, id) {
        CommitStepsChain(s, l, maxAttempts, id);
      } else {
        OtherStepsChain(s, l, maxAttempts, id);
      }
    }
  }

  lemma {:induction false} CalmRunsKeep(s: State, ls: seq<Label>, maxAttempts: nat, id: string)
    requires CalmInv(s, id) && Runs(s, ls, maxAttempts) && CalmRun(ls)
    ensures CalmInv(After(s, ls, maxAttempts), id)
    decreases |ls|
  {
    if ls != [] {
      assert Calm(ls[0]);
      assert forall i | 0 <= i < |ls[1..]| :: ls[1..][i] == ls[i + 1];
      CalmInvKept(s, ls[0], maxAttempts, id);
      CalmRunsKeep(Step(s, ls[0], maxAttempts), ls[1..], maxAttempts, id);
    }
  }

  /** The ladder is one chain: an event being processed has exactly one continuation, whose x-attempt header is the
      row's attempt count, in the tier that count selects; any other event has none. */
  lemma LadderIsASingleChain(ls: seq<Label>, maxAttempts: nat, id: string)
    requires Runs(INIT, ls, maxAttempts) && CalmRun(ls)
    ensures var s := After(INIT, ls, maxAttempts);
            && Continuers(s, id) == (if id in s.events && s.events[id].status == Processing then 1 else 0)
            && (forall k :: k in s.live && Is(s.live[k], id, Continuing) ==>
                  && id in s.events && OnRung(s.live[k], s.events[id].attempts, TallyOf(s, id).waited))
  {
    CalmRunsKeep(INIT, ls, maxAttempts, id);
  }

  /** An event that is no longer being retried has waited for the tiers below its last attempt: 0, 5, 35 or 120n - 205
      seconds for its n retries. */
  lemma FinishedEventsClimbedTheirRungs(ls: seq<Label>, maxAttempts: nat, id: string)
    requires Runs(INIT, ls, maxAttempts) && CalmRun(ls)
    requires var s := After(INIT, ls, maxAttempts); id in s.events && s.events[id].status != Processing
    ensures var s := After(INIT, ls, maxAttempts);
            var n, waited := s.events[id].attempts - 1, TallyOf(s, id).waited;
            && n >= 0
            && waited == (if n == 0 then 0 else if n == 1 then 5_000 else if n == 2 then 35_000
                          else 120_000 * n - 205_000)
  {
    CalmRunsKeep(INIT, ls, maxAttempts, id);
    LadderClosedForm(After(INIT, ls, maxAttempts).events[id].attempts - 1);
  }

  /** Every commit of a delivery of `id` along the run finds a handler that fails for the time being. */
  ghost predicate FailsFor(s: State, ls: seq<Label>, maxAttempts: nat, id: string)
    requires Runs(s, ls, maxAttempts)
    decreases |ls|
  {
    ls == [] || (FailsOn(s, ls[0], id) && FailsFor(Step(s, ls[0], maxAttempts), ls[1..], maxAttempts, id))
  }

  ghost predicate FailsOn(s: State, l: Label, id: string)
    requires Enabled(s, l)
  {
    l.Commit? && Touches(s, l, id) ==> l.outcome.FailsTransient?
  }

  /** All the event's runs failed, and it is given up exactly when the budget is used. */
  ghost predicate Exhausting(s: State, id: string, maxAttempts: nat) {
    var t := TallyOf(s, id);
    && t.effects == 0
    && (id !in s.events ==> t.runs == 0)
    && (id in s.events ==>
          && t.runs == s.events[id].attempts
          && (s.events[id].status == Processing ==> s.events[id].attempts < maxAttempts)
          && (s.events[id].status != Processing ==>
                s.events[id].attempts == maxAttempts && (s.events[id].status == Failed || s.events[id].status == Dead)))
  }

  lemma ExhaustingCommit(s: State, l: Label, maxAttempts: nat, id: string)
    requires maxAttempts >= 1 && CalmInv(s, id) && Exhausting(s, id, maxAttempts) && Enabled(s, l)
    requires l.Commit? && Touches(s, l, id) && l.outcome.FailsTransient?
    ensures Exhausting(Step(s, l, maxAttempts), id, maxAttempts)
  {
    DeliveriesInEveryState(s, l.k, l.outcome, l.generated, maxAttempts);
    RunsOnlyWhenHandled(s, l.k, l.outcome, l.generated, maxAttempts);
    EffectsOnlyWhenHandled(s, l, maxAttempts, id);
  }

  lemma EffectsOnlyWhenHandled(s: State, l: Label, maxAttempts: nat, id: string)
    requires Enabled(s, l) && l.Commit? && l.outcome.FailsTransient?
    ensures TallyOf(Step(s, l, maxAttempts), id).effects == TallyOf(s, id).effects
  {
  }

  lemma OtherStepsRun(s: State, l: Label, maxAttempts: nat, id: string)
    requires Enabled(s, l) && !(l.Commit? && Touches(s, l, id))
    ensures var t, t' := TallyOf(s, id), TallyOf(Step(s, l, maxAttempts), id);
            t'.runs == t.runs && t'.effects == t.effects
  {
  }

  lemma ExhaustingStep(s: State, l: Label, maxAttempts: nat, id: string)
    requires maxAttempts >= 1 && CalmInv(s, id) && Exhausting(s, id, maxAttempts)
    requires Enabled(s, l) && Calm(l) && FailsOn(s, l, id)
    ensures Exhausting(Step(s, l, maxAttempts), id, maxAttempts)
  {
    if l.Commit? && Touches(s, l, id) {
      ExhaustingCommit(s, l, maxAttempts, id);
    } else {
      OtherStepsStatus(s, l, maxAttempts, id);
      OtherStepsRun(s, l, maxAttempts, id);
    }
  }

  lemma {:induction false} ExhaustingRuns(s: State, ls: seq<Label>, maxAttempts: nat, id: string)
    requires maxAttempts >= 1 && CalmInv(s, id) && Exhausting(s, id, maxAttempts)
    requires Runs(s, ls, maxAttempts) && CalmRun(ls) && FailsFor(s, ls, maxAttempts, id)
    ensures Exhausting(After(s, ls, maxAttempts), id, maxAttempts)
    decreases |ls|
  {
    if ls != [] {
      assert Calm(ls[0]);
      assert forall i | 0 <= i < |ls[1..]| :: ls[1..][i] == ls[i + 1];
      CalmInvKept(s, ls[0], maxAttempts, id);
      ExhaustingStep(s, ls[0], maxAttempts, id);
      ExhaustingRuns(Step(s, ls[0], maxAttempts), ls[1..], maxAttempts, id);
    }
  }

  /** A published event whose handler keeps failing for the time being is run exactly maxAttempts times, then dead, and
      has waited for each tier in turn: 0, 5, 35 or 120n - 205 seconds for its n = maxAttempts - 1 retries. */
  lemma ExhaustedEventsClimbedTheLadder(ls: seq<Label>, maxAttempts: nat, id: string)
    requires maxAttempts >= 1 && Runs(INIT, ls, maxAttempts) && CalmRun(ls) && FailsFor(INIT, ls, maxAttempts, id)
    requires var s := After(INIT, ls, maxAttempts); s.live == map[] && TallyOf(s, id).published >= 1
    ensures var s := After(INIT, ls, maxAttempts);
            var n := maxAttempts - 1;
            && id in s.events && s.events[id].status == Dead
            && s.events[id].attempts == TallyOf(s, id).runs == maxAttempts && TallyOf(s, id).effects == 0
            && TallyOf(s, id).waited == (if n == 0 then 0 else if n == 1 then 5_000 else if n == 2 then 35_000
                                         else 120_000 * n - 205_000)
  {
    CalmRunsKeep(INIT, ls, maxAttempts, id);
    ExhaustingRuns(INIT, ls, maxAttempts, id);
    FinishedEventsClimbedTheirRungs(ls, maxAttempts, id);
    NoEventIsStranded(After(INIT, ls, maxAttempts), id, maxAttempts);
  }

  /** Every producer's message of an event is the claim, a counted duplicate, a re-emitted death, or still to be
      decided; so once the queues are empty the published copies are all accounted for. */
  lemma DuplicatesAreCounted(ls: seq<Label>, maxAttempts: nat, id: string)
    requires Runs(INIT, ls, maxAttempts) && CalmRun(ls)
    ensures var s := After(INIT, ls, maxAttempts);
            var t := TallyOf(s, id);
            && t.published == t.decided + Sum(s.live, Undecided(id))
            && (id in s.events ==> t.decided == 1 + s.events[id].duplicateCount + t.reemitted)
            && (id !in s.events ==> t.decided == 0)
  {
    CalmRunsKeep(INIT, ls, maxAttempts, id);
  }

  // ---------- racing copies ----------

  /** Every commit of a delivery of `id` along the run finds a handler that succeeds. */
  ghost predicate SucceedsFor(s: State, ls: seq<Label>, maxAttempts: nat, id: string)
    requires Runs(s, ls, maxAttempts)
    decreases |ls|
  {
    ls == [] ||
    (SucceedsOn(s, ls[0], id) && SucceedsFor(Step(s, ls[0], maxAttempts), ls[1..], maxAttempts, id))
  }

  ghost predicate SucceedsOn(s: State, l: Label, id: string)
    requires Enabled(s, l)
  {
    l.Commit? && Touches(s, l, id) ==> l.outcome == Succeeds
  }

  ghost predicate AllProcessed(s: State, id: string) {
    && (id in s.events ==> s.events[id].status == Processed)
    && TallyOf(s, id).effects == (if id in s.events then 1 else 0)
    && TallyOf(s, id).reemitted == 0
  }

  lemma {:induction false} SuccessProcesses(s: State, ls: seq<Label>, maxAttempts: nat, id: string)
    requires CalmInv(s, id) && AllProcessed(s, id) && Runs(s, ls, maxAttempts) && CalmRun(ls)
    requires SucceedsFor(s, ls, maxAttempts, id)
    ensures AllProcessed(After(s, ls, maxAttempts), id)
    decreases |ls|
  {
    if ls != [] {
      assert Calm(ls[0]);
      assert forall i | 0 <= i < |ls[1..]| :: ls[1..][i] == ls[i + 1];
      CalmInvKept(s, ls[0], maxAttempts, id);
      SuccessStep(s, ls[0], maxAttempts, id);
      SuccessProcesses(Step(s, ls[0], maxAttempts), ls[1..], maxAttempts, id);
    }
  }

  lemma SuccessStep(s: State, l: Label, maxAttempts: nat, id: string)
    requires CalmInv(s, id) && AllProcessed(s, id) && Enabled(s, l) && Calm(l)
    requires SucceedsOn(s, l, id)
    ensures AllProcessed(Step(s, l, maxAttempts), id)
  {
    if !(l.Commit? && Touches(s, l, id)) {
      OtherStepsRow(s, l, maxAttempts, id);
      if !Touches(s, l, id) {
        TallyUntouched(s, l, maxAttempts, id);
      }
    }
  }

  /** n copies of one event racing through any interleaving of workers, with a handler that succeeds on it, end as one
      processed row, one effect and n - 1 counted duplicates. */
  lemma RacingCopiesProcessOnce(ls: seq<Label>, maxAttempts: nat, id: string)
    requires Runs(INIT, ls, maxAttempts) && CalmRun(ls) && SucceedsFor(INIT, ls, maxAttempts, id)
    requires var s := After(INIT, ls, maxAttempts); s.live == map[] && TallyOf(s, id).published >= 1
    ensures var s := After(INIT, ls, maxAttempts);
            && id in s.events && s.events[id].status == Processed && s.events[id].attempts == 1
            && TallyOf(s, id).effects == 1
            && s.events[id].duplicateCount == TallyOf(s, id).published - 1
  {
    CalmRunsKeep(INIT, ls, maxAttempts, id);
    SuccessProcesses(INIT, ls, maxAttempts, id);
    FirstTry(INIT, ls, maxAttempts, id);
  }

  ghost predicate OneAttempt(s: State, id: string) {
    id in s.events ==> s.events[id].attempts == 1
  }

  lemma OneAttemptStep(s: State, l: Label, maxAttempts: nat, id: string)
    requires CalmInv(s, id) && AllProcessed(s, id) && OneAttempt(s, id) && Enabled(s, l) && Calm(l)
    ensures OneAttempt(Step(s, l, maxAttempts), id)
  {
    if l.Commit? && Touches(s, l, id) {
      OneAttemptCommit(s, l, maxAttempts, id);
    } else {
      OtherStepsStatus(s, l, maxAttempts, id);
    }
  }

  lemma OneAttemptCommit(s: State, l: Label, maxAttempts: nat, id: string)
    requires AllProcessed(s, id) && OneAttempt(s, id) && Enabled(s, l) && l.Commit? && Touches(s, l, id)
    ensures OneAttempt(Step(s, l, maxAttempts), id)
  {
  }

  lemma {:induction false} FirstTry(s: State, ls: seq<Label>, maxAttempts: nat, id: string)
    requires CalmInv(s, id) && AllProcessed(s, id) && OneAttempt(s, id)
    requires Runs(s, ls, maxAttempts) && CalmRun(ls) && SucceedsFor(s, ls, maxAttempts, id)
    ensures OneAttempt(After(s, ls, maxAttempts), id)
    decreases |ls|
  {
    if ls != [] {
      assert Calm(ls[0]);
      assert forall i | 0 <= i < |ls[1..]| :: ls[1..][i] == ls[i + 1];
      CalmInvKept(s, ls[0], maxAttempts, id);
      SuccessStep(s, ls[0], maxAttempts, id);
      OneAttemptStep(s, ls[0], maxAttempts, id);
      FirstTry(Step(s, ls[0], maxAttempts), ls[1..], maxAttempts, id);
    }
  }
}
