/** The transaction layer meets the protocol: workers take messages off the queues and interleave the statements of
    their transactions, and every such history is a run of the protocol with the same tables and the same messages. */
module Refinement {
  import opened Wrappers
  import opened Sums
  import opened Messages
  import opened Tables
  import P = Protocol
  import T = Transactions

  /** What a worker is at: the message it holds, or the name of the one its replay will publish; `generated` is the
      correlation id generated for a message that carries none. */
  datatype Carrier = Carrier(key: nat, generated: string)

  /** The tables under row locks, the messages, and which worker is at which message. */
  datatype World = World(db: T.Database, live: map<nat, P.Phase>, carries: map<nat, Carrier>)

  datatype Turn =
    | Take(worker: nat, key: nat, generated: string)            // a delivered message's transaction begins
    | TakeReplay(worker: nat, key: nat, letter: nat)            // a replay's transaction begins
    | Next(worker: nat, outcome: HandlerOutcome, rid: nat)      // its next statement
    | Finish(worker: nat)                                       // commit
    | Quit(worker: nat)                                         // rollback
    | Other(step: P.Label)                                      // whatever needs no transaction

  /** The protocol's view of a world, for the steps that need no transaction. */
  function View(x: World): P.State {
    P.State(x.db.events, x.db.dlq, x.live, map[], {}, {}, {})
  }

  predicate NeedsNoTransaction(l: P.Label) {
    !l.Commit? && !l.Ignore? && !l.Overlook? && !l.Persist? && !l.Prepare?
  }

  predicate Held(x: World, key: nat) {
    exists w :: w in x.carries && x.carries[w].key == key
  }

  predicate Free(x: World, w: nat) {
    w !in x.carries && (w in x.db.workers ==> x.db.workers[w].Idle?)
  }

  /** A discard waits for the lock on its letter. */
  predicate Discardable(x: World, rid: nat) {
    forall w :: w in x.db.workers ==> T.LetterRowLock(rid) !in T.Holds(x.db.workers[w])
  }

  /** A message at a worker stays there until its transaction ends - unless its channel is lost: then it is also handed
      back, and the worker goes on all the same. */
  predicate Movable(x: World, l: P.Label) {
    && (if l.Discard? then Discardable(x, l.rid) else l.HandBack? || !Held(x, l.k))
    && (l.Send? || l.HandBack? ==> !Held(x, l.k'))
  }

  predicate Enabled(x: World, turn: Turn) {
    match turn
    case Take(w, key, generated) =>
      && Free(x, w) && key in x.live && !Held(x, key)
      && ((x.live[key].Running? && EventIdOf(x.live[key].d.body).Some? && generated != "")
          || (x.live[key].Recording? && !x.live[key].m.body.NullLiteral?))
    case TakeReplay(w, key, _) => Free(x, w) && key !in x.live && !Held(x, key)
    case Next(w, outcome, rid) => T.Enabled(x.db, w, T.Advance(outcome, rid)) && w in x.carries && Carried(x, w)
    case Finish(w) => T.Enabled(x.db, w, T.Commit) && w in x.carries && Carried(x, w)
    case Quit(w) => T.Enabled(x.db, w, T.Abort)
    case Other(l) =>
      NeedsNoTransaction(l) && P.Enabled(View(x), l) && Movable(x, l)
  }

  /** Where the message of a worker is: being processed, being recorded, or - for a replay - nowhere yet. */
  predicate Carried(x: World, w: nat)
    requires w in x.carries
  {
    var key := x.carries[w].key;
    w in x.db.workers &&
    match x.db.workers[w]
    case Idle => false
    case Claiming(event, continuation) => OnDelivery(x, w, event, continuation)
    case Claimed(event, continuation, _) => OnDelivery(x, w, event, continuation)
    case Locked(event, continuation, _, _) => OnDelivery(x, w, event, continuation)
    case Marked(event, continuation, _, _, _) => OnDelivery(x, w, event, continuation)
    case Decided(event, continuation, _, _, _, _, _) => OnDelivery(x, w, event, continuation)
    case Inserting(m) => key in x.live && x.live[key] == P.Recording(m)
    case Inserted(m, _) => key in x.live && x.live[key] == RecordedSoFar(x.db.workers[w])
    case Updated(m, _, _) => key in x.live && x.live[key] == RecordedSoFar(x.db.workers[w])
    case _ => key !in x.live
  }

  /** A dead letter whose insert was ignored has at most its event left to mark; if that was missing too, nothing. */
  function RecordedSoFar(pc: T.Pc): P.Phase
    requires pc.Inserted? || pc.Updated?
  {
    if pc.rid.None? then (if T.MissedBy(pc).Some? then P.Stored(pc.m) else P.Ignored(pc.m))
    else if T.MissedBy(pc).Some? then P.Overlooked(pc.m)
    else P.Recording(pc.m)
  }

  predicate OnDelivery(x: World, w: nat, event: HandledEvent, continuation: bool)
    requires w in x.carries
  {
    var c := x.carries[w];
    && c.key in x.live && x.live[c.key].Running? && c.generated != ""
    && EventIdOf(x.live[c.key].d.body).Some?
    && event == EventOf(x.live[c.key].d, CorrelationOf(x.live[c.key].d, c.generated))
    && continuation == IsContinuation(x.live[c.key].d)
  }

  function FirstStatement(p: P.Phase, generated: string): T.Pc
    requires p.Running? ==> EventIdOf(p.d.body).Some?
    requires p.Running? || p.Recording?
  {
    if p.Running? then T.Claiming(EventOf(p.d, CorrelationOf(p.d, generated)), IsContinuation(p.d))
    else T.Inserting(p.m)
  }

  /** What a commit makes of the worker's message. */
  function Committed(x: World, w: nat): P.Phase
    requires w in x.carries && Carried(x, w) && T.Committable(x.db.workers[w])
  {
    match x.db.workers[w]
    case Decided(event, _, _, _, _, _, decision) =>
      var d := x.live[x.carries[w].key].d;
      if decision.Handled? || decision.Duplicate? then P.Acking(d) else P.Decided(d, event.correlationId, decision)
    case Updated(m, _, _) => P.Stored(m)
    case Looked(_, stored, _) => RedriveBy(stored)
  }

  function Step(x: World, turn: Turn, maxAttempts: nat): World
    requires Enabled(x, turn)
  {
    match turn
    case Take(w, key, generated) =>
      World(T.Step(x.db, w, T.Begin(FirstStatement(x.live[key], generated)), maxAttempts), x.live,
            x.carries[w := Carrier(key, generated)])
    case TakeReplay(w, key, letter) =>
      World(T.Step(x.db, w, T.Begin(T.Opening(letter)), maxAttempts), x.live, x.carries[w := Carrier(key, "")])
    case Next(w, outcome, rid) =>
      var db := T.Step(x.db, w, T.Advance(outcome, rid), maxAttempts);
      var pc := db.workers[w];
      World(db,
            if pc.Inserted? || pc.Updated? then x.live[x.carries[w].key := RecordedSoFar(pc)] else x.live,
            if pc.Idle? then x.carries - {w} else x.carries)
    case Finish(w) =>
      World(T.Step(x.db, w, T.Commit, maxAttempts), x.live[x.carries[w].key := Committed(x, w)], x.carries - {w})
    case Quit(w) => World(T.Step(x.db, w, T.Abort, maxAttempts), x.live, x.carries - {w})
    case Other(l) =>
      var t := P.Step(View(x), l, maxAttempts);
      World(x.db.(dlq := t.dlq), t.live, x.carries)
  }

  ghost predicate Turns(x: World, turns: seq<Turn>, maxAttempts: nat)
    decreases |turns|
  {
    turns == [] || (Enabled(x, turns[0]) && Turns(Step(x, turns[0], maxAttempts), turns[1..], maxAttempts))
  }

  ghost function After(x: World, turns: seq<Turn>, maxAttempts: nat): World
    requires Turns(x, turns, maxAttempts)
    decreases |turns|
  {
    if turns == [] then x else After(Step(x, turns[0], maxAttempts), turns[1..], maxAttempts)
  }

  // ---------- what every turn keeps ----------

  ghost predicate Inv(x: World, maxAttempts: nat) {
    && T.Inv(x.db, maxAttempts)
    && (forall w :: w in x.carries ==> Carried(x, w))
    && (forall w :: w in x.db.workers && !x.db.workers[w].Idle? ==> w in x.carries)
    && (forall v, w :: v in x.carries && w in x.carries && v != w ==> x.carries[v].key != x.carries[w].key)
  }

  lemma TakeCarries(x: World, turn: Turn, maxAttempts: nat)
    requires Inv(x, maxAttempts) && Enabled(x, turn) && (turn.Take? || turn.TakeReplay?)
    ensures Inv(Step(x, turn, maxAttempts), maxAttempts)
  {
    var w, x' := turn.worker, Step(x, turn, maxAttempts);
    T.InvKept(x.db, w, T.Begin(x'.db.workers[w]), maxAttempts);
    TakeCarriesOwn(x, turn, maxAttempts);
    forall v | v in x'.carries ensures Carried(x', v) {
      if v != w {
        BystandersCarry(x, x', w, v);
      }
    }
  }

  lemma TakeCarriesOwn(x: World, turn: Turn, maxAttempts: nat)
    requires Enabled(x, turn) && (turn.Take? || turn.TakeReplay?)
    ensures var x' := Step(x, turn, maxAttempts); turn.worker in x'.carries && Carried(x', turn.worker)
  {
  }

  /** Worker `v` carries what it did when another's turn touches neither its transaction nor its message. */
  lemma BystandersCarry(x: World, x': World, w: nat, v: nat)
    requires v in x.carries && Carried(x, v) && v in x'.carries && x'.carries[v] == x.carries[v] && v != w
    requires v in x.db.workers && v in x'.db.workers && x'.db.workers[v] == x.db.workers[v]
    requires var key := x.carries[v].key;
             (key in x'.live <==> key in x.live) && (key in x.live ==> x'.live[key] == x.live[key])
    ensures Carried(x', v)
  {
  }

  lemma NextCarries(x: World, turn: Turn, maxAttempts: nat)
    requires Inv(x, maxAttempts) && Enabled(x, turn) && turn.Next?
    ensures Inv(Step(x, turn, maxAttempts), maxAttempts)
  {
    var w, x' := turn.worker, Step(x, turn, maxAttempts);
    T.InvKept(x.db, w, T.Advance(turn.outcome, turn.rid), maxAttempts);
    forall v | v in x'.carries ensures Carried(x', v) {
      if v != w {
        assert x.carries[v].key != x.carries[w].key;
        BystandersCarry(x, x', w, v);
      } else {
        NextCarriesOwn(x, turn, maxAttempts);
      }
    }
  }

  lemma NextCarriesOwn(x: World, turn: Turn, maxAttempts: nat)
    requires Inv(x, maxAttempts) && Enabled(x, turn) && turn.Next?
    requires turn.worker in Step(x, turn, maxAttempts).carries
    ensures Carried(Step(x, turn, maxAttempts), turn.worker)
  {
    var pc := x.db.workers[turn.worker];
    var pc' := T.Statement(x.db, pc, turn.outcome, turn.rid, maxAttempts);
    NextKeepsItsMessage(x.db, pc, turn.outcome, turn.rid, maxAttempts);
    assert Step(x, turn, maxAttempts).db.workers[turn.worker] == pc';
  }

  predicate Processes(pc: T.Pc) {
    pc.Claiming? || pc.Claimed? || pc.Locked? || pc.Marked? || pc.Decided?
  }

  predicate Records(pc: T.Pc) {
    pc.Inserting? || pc.Inserted? || pc.Updated?
  }

  /** A transaction keeps to its kind and to its message. */
  lemma NextKeepsItsMessage(db: T.Database, pc: T.Pc, outcome: HandlerOutcome, rid: nat, maxAttempts: nat)
    requires pc.Claimed? && !pc.claimed ==> pc.event.eventId in db.events
    ensures var pc' := T.Statement(db, pc, outcome, rid, maxAttempts);
            && (Processes(pc) ==> Processes(pc') && pc'.event == pc.event && pc'.continuation == pc.continuation)
            && (Records(pc) ==> Records(pc') && pc'.m == pc.m)
            && (!Processes(pc) && !Records(pc) ==> !Processes(pc') && !Records(pc'))
  {
  }

  lemma EndCarries(x: World, turn: Turn, maxAttempts: nat)
    requires Inv(x, maxAttempts) && Enabled(x, turn) && (turn.Finish? || turn.Quit?)
    ensures Inv(Step(x, turn, maxAttempts), maxAttempts)
  {
    var w, x' := turn.worker, Step(x, turn, maxAttempts);
    T.InvKept(x.db, w, if turn.Finish? then T.Commit else T.Abort, maxAttempts);
    forall v | v in x'.carries ensures Carried(x', v) {
      assert w in x.carries && x.carries[v].key != x.carries[w].key;
      BystandersCarry(x, x', w, v);
    }
  }

  /** A discard that waits for its lock takes nothing an open transaction knows. */
  lemma DiscardLeavesKnowledge(x: World, rid: nat, maxAttempts: nat)
    requires Inv(x, maxAttempts) && Discardable(x, rid)
    ensures T.Inv(x.db.(dlq := x.db.dlq - {rid}), maxAttempts)
  {
    var db' := x.db.(dlq := x.db.dlq - {rid});
    forall w | w in db'.workers ensures T.Knows(db', db'.workers[w], maxAttempts) {
      assert T.Knows(x.db, x.db.workers[w], maxAttempts);
      assert T.LetterRowLock(rid) !in T.Holds(x.db.workers[w]);
    }
  }

  lemma OtherTables(x: World, l: P.Label, maxAttempts: nat)
    requires NeedsNoTransaction(l) && P.Enabled(View(x), l)
    ensures var t := P.Step(View(x), l, maxAttempts);
            t.events == x.db.events && t.dlq == if l.Discard? then x.db.dlq - {l.rid} else x.db.dlq
  {
  }

  lemma OtherCarries(x: World, turn: Turn, maxAttempts: nat)
    requires Inv(x, maxAttempts) && Enabled(x, turn) && turn.Other?
    ensures Inv(Step(x, turn, maxAttempts), maxAttempts)
  {
    var l, x' := turn.step, Step(x, turn, maxAttempts);
    OtherTables(x, l, maxAttempts);
    if l.Discard? {
      DiscardLeavesKnowledge(x, l.rid, maxAttempts);
    }
    assert x'.db == if l.Discard? then x.db.(dlq := x.db.dlq - {l.rid}) else x.db;
    forall v | v in x'.carries ensures Carried(x', v) {
      assert Carried(x, v);
      OtherSpares(x, l, maxAttempts, x.carries[v].key);
    }
  }

  /** Such a step spares every message it does not name, and a hand-back the one it copies. */
  lemma OtherSpares(x: World, l: P.Label, maxAttempts: nat, key: nat)
    requires NeedsNoTransaction(l) && P.Enabled(View(x), l)
    requires l.Discard? || ((l.HandBack? || key != l.k) && (l.Send? || l.HandBack? ==> key != l.k'))
    ensures var t := P.Step(View(x), l, maxAttempts);
            (key in t.live <==> key in x.live) && (key in x.live ==> t.live[key] == x.live[key])
  {
  }

  lemma InvKept(x: World, turn: Turn, maxAttempts: nat)
    requires Inv(x, maxAttempts) && Enabled(x, turn)
    ensures Inv(Step(x, turn, maxAttempts), maxAttempts)
  {
    match turn {
      case Take(_, _, _) => TakeCarries(x, turn, maxAttempts);
      case TakeReplay(_, _, _) => TakeCarries(x, turn, maxAttempts);
      case Next(_, _, _) => NextCarries(x, turn, maxAttempts);
      case Finish(_) => EndCarries(x, turn, maxAttempts);
      case Quit(_) => EndCarries(x, turn, maxAttempts);
      case Other(_) => OtherCarries(x, turn, maxAttempts);
    }
  }

  /** No worker is ever kept from its turn by what it carries: if its transaction can go on, so can it. */
  lemma WorkersCanGoOn(x: World, w: nat, maxAttempts: nat)
    requires Inv(x, maxAttempts)
    ensures forall outcome, rid :: T.Enabled(x.db, w, T.Advance(outcome, rid)) ==> Enabled(x, Next(w, outcome, rid))
    ensures T.Enabled(x.db, w, T.Commit) ==> Enabled(x, Finish(w))
  {
    if w in x.carries {
      assert Carried(x, w);
    }
  }

  // ---------- replays that found no event row ----------

  /** Such a replay only stamps its letter when it commits; the protocol takes it at the moment it looked, so for a
      while its letter is stamped and its redrive live early. */
  datatype Early = Early(worker: nat, letter: nat, key: nat, redrive: P.Phase)

  ghost predicate Pending(x: World, w: nat) {
    w in x.carries && w in x.db.workers && x.db.workers[w].Looked? && x.db.workers[w].seen.None?
  }

  function RedriveBy(stored: DlqRow): P.Phase {
    P.Redrive(GetOr(RedriveOf(stored), Delivery(stored.payload, None, None, None, false)))
  }

  ghost function EarlyAt(x: World, w: nat): Early
    requires Pending(x, w)
  {
    Early(w, x.db.workers[w].letter, x.carries[w].key, RedriveBy(x.db.workers[w].stored))
  }

  ghost predicate AllPending(x: World, early: set<Early>) {
    forall e :: e in early ==> Pending(x, e.worker) && e == EarlyAt(x, e.worker)
  }

  function Letters(early: set<Early>): set<nat> {
    set e | e in early :: e.letter
  }

  function Stamp(dlq: DeadLetters, letters: set<nat>): DeadLetters {
    map rid | rid in dlq :: if rid in letters then dlq[rid].(replayed := true) else dlq[rid]
  }

  ghost predicate LiveMirrors(live: map<nat, P.Phase>, shown: map<nat, P.Phase>, early: set<Early>) {
    && (forall key :: key in live ==> key in shown && shown[key] == live[key])
    && (forall key :: key in shown && key !in live ==> exists e :: e in early && e.key == key)
    && (forall e :: e in early ==> e.key in shown && shown[e.key] == e.redrive)
  }

  /** The protocol shows the world as it is, but for the early replays. */
  ghost predicate Mirrors(x: World, p: P.State, early: set<Early>) {
    && p.events == x.db.events
    && p.dlq == Stamp(x.db.dlq, Letters(early))
    && LiveMirrors(x.live, p.live, early)
  }

  lemma LiveUpdated(live: map<nat, P.Phase>, shown: map<nat, P.Phase>, early: set<Early>, k: nat, phase: P.Phase)
    requires LiveMirrors(live, shown, early) && forall e :: e in early ==> e.key != k
    ensures LiveMirrors(live[k := phase], shown[k := phase], early)
    ensures LiveMirrors(live - {k}, shown - {k}, early)
  {
    var live', shown' := live[k := phase], shown[k := phase];
    forall key | key in shown' && key !in live' ensures exists e :: e in early && e.key == key {
      assert key in shown && key !in live;
    }
    forall key | key in shown - {k} && key !in live - {k} ensures exists e :: e in early && e.key == key {
      assert key in shown && key !in live;
    }
  }

  lemma LiveEarlier(live: map<nat, P.Phase>, shown: map<nat, P.Phase>, early: set<Early>, e: Early)
    requires LiveMirrors(live, shown, early) && e.key !in shown
    ensures LiveMirrors(live, shown[e.key := e.redrive], early + {e})
  {
    var shown' := shown[e.key := e.redrive];
    forall key | key in shown' && key !in live ensures exists f :: f in early + {e} && f.key == key {
      if key == e.key {
        assert e in early + {e};
      } else {
        var f :| f in early && f.key == key;
        assert f in early + {e};
      }
    }
  }

  lemma LiveOnTime(live: map<nat, P.Phase>, shown: map<nat, P.Phase>, early: set<Early>, e: Early)
    requires LiveMirrors(live, shown, early) && e in early && forall f :: f in early && f != e ==> f.key != e.key
    ensures LiveMirrors(live[e.key := e.redrive], shown, early - {e})
  {
    forall key | key in shown && key !in live[e.key := e.redrive] ensures exists f :: f in early - {e} && f.key == key {
      var f :| f in early && f.key == key;
      assert f in early - {e};
    }
  }

  lemma StampsKeepRecorded(dlq: DeadLetters, letters: set<nat>, messageId: Option<string>)
    ensures Recorded(Stamp(dlq, letters), messageId) <==> Recorded(dlq, messageId)
  {
    var stamped := Stamp(dlq, letters);
    if Recorded(dlq, messageId) {
      var r :| r in dlq && dlq[r].messageId == messageId;
      assert r in stamped && stamped[r].messageId == messageId;
    }
    if Recorded(stamped, messageId) {
      var r :| r in stamped && stamped[r].messageId == messageId;
      assert r in dlq && dlq[r].messageId == messageId;
    }
  }

  /** Early stamps commute with recording a letter, with another letter's replay and with a discard. */
  lemma StampsCommute(dlq: DeadLetters, letters: set<nat>, rid: nat, row: DlqRow)
    requires rid !in letters
    ensures InsertLetter(Stamp(dlq, letters), rid, row) == Stamp(InsertLetter(dlq, rid, row), letters)
    ensures Stamp(dlq, letters) - {rid} == Stamp(dlq - {rid}, letters)
    ensures rid in dlq ==>
              && Stamp(dlq, letters)[rid] == dlq[rid]
              && Stamp(dlq, letters)[rid := dlq[rid].(replayed := true)]
                 == Stamp(dlq[rid := dlq[rid].(replayed := true)], letters)
                 == Stamp(dlq, letters + {rid})
  {
    StampsKeepRecorded(dlq, letters, row.messageId);
  }

  // ---------- the early replays stand apart from everything else ----------

  lemma EarlyLetters(x: World, early: set<Early>, maxAttempts: nat)
    requires Inv(x, maxAttempts) && AllPending(x, early)
    ensures forall e :: e in early ==>
              && e.key !in x.live && e.letter in x.db.dlq && Held(x, e.key)
              && T.LetterRowLock(e.letter) in T.Holds(x.db.workers[e.worker])
  {
    forall e | e in early
      ensures e.key !in x.live && e.letter in x.db.dlq && Held(x, e.key)
      ensures T.LetterRowLock(e.letter) in T.Holds(x.db.workers[e.worker])
    {
      assert Carried(x, e.worker) && T.Knows(x.db, x.db.workers[e.worker], maxAttempts);
    }
  }

  lemma EarlyApart(x: World, early: set<Early>, w: nat, maxAttempts: nat)
    requires Inv(x, maxAttempts) && AllPending(x, early) && w in x.carries
    requires forall e :: e in early ==> e.worker != w
    ensures forall e :: e in early ==>
              && e.key != x.carries[w].key
              && T.LetterRowLock(e.letter) !in T.Holds(x.db.workers[w])
  {
    EarlyLetters(x, early, maxAttempts);
    assert Carried(x, w);
    forall e | e in early ensures T.LetterRowLock(e.letter) !in T.Holds(x.db.workers[w]) {
      assert T.Holds(x.db.workers[e.worker]) !! T.Holds(x.db.workers[w]);
    }
  }

  lemma LettersApart(early: set<Early>, letter: nat)
    requires forall e :: e in early ==> e.letter != letter
    ensures letter !in Letters(early)
  {
  }

  lemma LettersWith(early: set<Early>, e: Early)
    ensures Letters(early + {e}) == Letters(early) + {e.letter}
    ensures e in early ==> Letters(early) == Letters(early - {e}) + {e.letter}
  {
    if e in early {
      assert early == early - {e} + {e};
    }
  }

  // ---------- the protocol's steps on stamped tables ----------

  lemma PrepareShows(p: P.State, dlq: DeadLetters, letters: set<nat>, letter: nat, key: nat, maxAttempts: nat)
    requires p.dlq == Stamp(dlq, letters) && letter !in letters && letter in dlq && key !in p.live
    requires NonEmpty(dlq[letter].eventId).Some? && RedriveOf(dlq[letter]).Some?
    requires var id := dlq[letter].eventId.value; id in p.events ==> Replayable(p.events[id].status)
    ensures P.Enabled(p, P.Prepare(letter, key))
    ensures var q := P.Step(p, P.Prepare(letter, key), maxAttempts);
            && q.events == ResetForReplay(p.events, dlq[letter].eventId.value)
            && q.dlq == Stamp(dlq, letters + {letter})
            && q.dlq == Stamp(dlq[letter := dlq[letter].(replayed := true)], letters)
            && q.live == p.live[key := RedriveBy(dlq[letter])]
  {
    StampsCommute(dlq, letters, letter, dlq[letter]);
  }

  lemma PersistShows(p: P.State, dlq: DeadLetters, letters: set<nat>, key: nat, rid: nat, maxAttempts: nat)
    requires p.dlq == Stamp(dlq, letters) && rid !in letters && rid !in dlq
    requires key in p.live && (p.live[key].Recording? || p.live[key].Ignored? || p.live[key].Overlooked?)
    requires !p.live[key].m.body.NullLiteral?
    ensures P.Enabled(p, P.Persist(key, rid))
    ensures var m := p.live[key].m;
            var q := P.Step(p, P.Persist(key, rid), maxAttempts);
            && q.events == (if p.live[key].Overlooked? then p.events else MarkDead(p.events, RowOf(m).eventId))
            && q.dlq == Stamp(if p.live[key].Ignored? then dlq else InsertLetter(dlq, rid, RowOf(m)), letters)
            && q.live == p.live[key := P.Stored(m)]
  {
    StampsCommute(dlq, letters, rid, RowOf(p.live[key].m));
  }

  lemma IgnoreShows(p: P.State, key: nat, maxAttempts: nat)
    requires key in p.live && p.live[key].Recording? && !p.live[key].m.body.NullLiteral?
    requires Recorded(p.dlq, RowOf(p.live[key].m).messageId)
    ensures P.Enabled(p, P.Ignore(key))
    ensures P.Step(p, P.Ignore(key), maxAttempts) == p.(live := p.live[key := P.Ignored(p.live[key].m)])
  {
  }

  lemma OverlookShows(p: P.State, key: nat, maxAttempts: nat)
    requires key in p.live && (p.live[key].Recording? || p.live[key].Ignored?) && !p.live[key].m.body.NullLiteral?
    requires RowOf(p.live[key].m).eventId.Some? && RowOf(p.live[key].m).eventId.value !in p.events
    ensures P.Enabled(p, P.Overlook(key))
    ensures P.Step(p, P.Overlook(key), maxAttempts)
         == p.(live := p.live[key := if p.live[key].Recording? then P.Overlooked(p.live[key].m)
                                     else P.Stored(p.live[key].m)])
  {
  }

  lemma DiscardShows(p: P.State, dlq: DeadLetters, letters: set<nat>, rid: nat, maxAttempts: nat)
    requires p.dlq == Stamp(dlq, letters) && rid !in letters && rid in dlq
    ensures P.Enabled(p, P.Discard(rid))
    ensures var q := P.Step(p, P.Discard(rid), maxAttempts);
            q.events == p.events && q.dlq == Stamp(dlq - {rid}, letters) && q.live == p.live
  {
    StampsCommute(dlq, letters, rid, dlq[rid]);
  }

  lemma CommitShows(p: P.State, key: nat, outcome: HandlerOutcome, generated: string, maxAttempts: nat)
    requires P.Enabled(p, P.Commit(key, outcome, generated))
    ensures var q := P.Step(p, P.Commit(key, outcome, generated), maxAttempts);
            var d := p.live[key].d;
            var event := EventOf(d, CorrelationOf(d, generated));
            var (row, decision) := ProcessRow(p.events, event, IsContinuation(d), maxAttempts, outcome);
            && q.events == p.events[event.eventId := row] && q.dlq == p.dlq
            && q.live == p.live[key := if decision.Handled? || decision.Duplicate? then P.Acking(d)
                                       else P.Decided(d, event.correlationId, decision)]
  {
  }

  // ---------- each turn is a step or none ----------

  ghost predicate Ran(p: P.State, l: Option<P.Label>, q: P.State, maxAttempts: nat) {
    if l.None? then q == p else P.Enabled(p, l.value) && q == P.Step(p, l.value, maxAttempts)
  }

  /** The DLQ insert that is ignored is the protocol's ignore, and the update that finds no row its overlook: a letter
      with that message id is stored, or the row is absent, right then. */
  lemma RecordingStatement(x: World, turn: Turn, p: P.State, early: set<Early>, maxAttempts: nat)
    returns (l: Option<P.Label>, q: P.State)
    requires Inv(x, maxAttempts) && Enabled(x, turn) && Mirrors(x, p, early) && AllPending(x, early)
    requires turn.Next? && forall e :: e in early ==> e.worker != turn.worker
    requires Records(x.db.workers[turn.worker])
    ensures Ran(p, l, q, maxAttempts) && Mirrors(Step(x, turn, maxAttempts), q, early)
  {
    var key, x' := x.carries[turn.worker].key, Step(x, turn, maxAttempts);
    NextRecords(x, turn, maxAttempts);
    EarlyApart(x, early, turn.worker, maxAttempts);
    l, q := RecordingMirrors(x, x', p, early, key, RecordedSoFar(x'.db.workers[turn.worker]), maxAttempts);
  }

  lemma RecordingMirrors(x: World, x': World, p: P.State, early: set<Early>, key: nat, phase: P.Phase, maxAttempts: nat)
    returns (l: Option<P.Label>, q: P.State)
    requires Mirrors(x, p, early) && (forall e :: e in early ==> e.key != key) && key in x.live
    requires x'.db.events == x.db.events && x'.db.dlq == x.db.dlq && x'.live == x.live[key := phase]
    requires phase == x.live[key] || NextPhase(x, x.live[key], phase)
    ensures Ran(p, l, q, maxAttempts) && Mirrors(x', q, early)
  {
    LiveUpdated(x.live, p.live, early, key, phase);
    if phase == x.live[key] {
      assert p.live[key := phase] == p.live;
      l, q := None, p;
    } else if phase.Ignored? {
      StampsKeepRecorded(x.db.dlq, Letters(early), RowOf(phase.m).messageId);
      IgnoreShows(p, key, maxAttempts);
      l, q := Some(P.Ignore(key)), P.Step(p, P.Ignore(key), maxAttempts);
    } else {
      OverlookShows(p, key, maxAttempts);
      l, q := Some(P.Overlook(key)), P.Step(p, P.Overlook(key), maxAttempts);
    }
  }

  /** The insert was ignored because of a letter that is there, or the update found no row and there is none. */
  ghost predicate NextPhase(x: World, before: P.Phase, after: P.Phase) {
    && (before.Recording? || before.Ignored?) && !before.m.body.NullLiteral?
    && if after.Ignored? then
         before == P.Recording(after.m) && Recorded(x.db.dlq, RowOf(after.m).messageId)
       else
         && after == (if before.Recording? then P.Overlooked(before.m) else P.Stored(before.m))
         && RowOf(before.m).eventId.Some? && RowOf(before.m).eventId.value !in x.db.events
  }

  lemma NextRecords(x: World, turn: Turn, maxAttempts: nat)
    requires Inv(x, maxAttempts) && Enabled(x, turn) && turn.Next? && Records(x.db.workers[turn.worker])
    ensures var key := x.carries[turn.worker].key;
            var m := x.db.workers[turn.worker].m;
            var x' := Step(x, turn, maxAttempts);
            var pc := x'.db.workers[turn.worker];
            && (pc.Inserted? || pc.Updated?) && pc.m == m && !m.body.NullLiteral?
            && x'.db.events == x.db.events && x'.db.dlq == x.db.dlq
            && key in x.live && x'.live == x.live[key := RecordedSoFar(pc)]
            && (RecordedSoFar(pc) == x.live[key] || NextPhase(x, x.live[key], RecordedSoFar(pc)))
  {
    assert Carried(x, turn.worker) && T.Knows(x.db, x.db.workers[turn.worker], maxAttempts);
    T.MissesAreTrue(x.db, turn.worker, turn.outcome, turn.rid, maxAttempts);
  }

  /** The replay that finds no row is the protocol's prepare, taken early. */
  lemma LookTurn(x: World, turn: Turn, p: P.State, early: set<Early>, maxAttempts: nat) returns (l: P.Label)
    requires Inv(x, maxAttempts) && Enabled(x, turn) && Mirrors(x, p, early) && AllPending(x, early)
    requires turn.Next? && forall e :: e in early ==> e.worker != turn.worker
    requires Pending(Step(x, turn, maxAttempts), turn.worker)
    ensures P.Enabled(p, l)
    ensures var x' := Step(x, turn, maxAttempts);
            Mirrors(x', P.Step(p, l, maxAttempts), early + {EarlyAt(x', turn.worker)})
  {
    var e := EarlyAt(Step(x, turn, maxAttempts), turn.worker);
    NextLooks(x, turn, maxAttempts);
    EarlyApart(x, early, turn.worker, maxAttempts);
    LettersApart(early, e.letter);
    l := P.Prepare(e.letter, e.key);
    MirrorsEarlier(x, Step(x, turn, maxAttempts), p, early, e, maxAttempts);
  }

  lemma MirrorsEarlier(x: World, x': World, p: P.State, early: set<Early>, e: Early, maxAttempts: nat)
    requires Mirrors(x, p, early) && e.letter !in Letters(early) && e.letter in x.db.dlq && e.key !in x.live
    requires x'.live == x.live && x'.db.events == x.db.events && x'.db.dlq == x.db.dlq
    requires forall f :: f in early ==> f.key != e.key
    requires var stored := x.db.dlq[e.letter];
             && NonEmpty(stored.eventId).Some? && RedriveOf(stored).Some? && stored.eventId.value !in x.db.events
             && e.redrive == RedriveBy(stored)
    ensures P.Enabled(p, P.Prepare(e.letter, e.key))
    ensures Mirrors(x', P.Step(p, P.Prepare(e.letter, e.key), maxAttempts), early + {e})
  {
    PrepareShows(p, x.db.dlq, Letters(early), e.letter, e.key, maxAttempts);
    LiveEarlier(x.live, p.live, early, e);
    LettersWith(early, e);
  }

  lemma NextLooks(x: World, turn: Turn, maxAttempts: nat)
    requires Inv(x, maxAttempts) && Enabled(x, turn) && turn.Next?
    requires Pending(Step(x, turn, maxAttempts), turn.worker)
    ensures var x' := Step(x, turn, maxAttempts);
            var letter, stored := x'.db.workers[turn.worker].letter, x'.db.workers[turn.worker].stored;
            && x'.live == x.live && x'.db.events == x.db.events && x'.db.dlq == x.db.dlq && x'.carries == x.carries
            && T.LetterRowLock(letter) in T.Holds(x.db.workers[turn.worker])
            && x.carries[turn.worker].key !in x.live
            && letter in x.db.dlq && x.db.dlq[letter] == stored
            && NonEmpty(stored.eventId).Some? && RedriveOf(stored).Some? && stored.eventId.value !in x.db.events
            && T.MissedBy(x'.db.workers[turn.worker]) == stored.eventId
  {
    assert Carried(x, turn.worker) && T.Knows(x.db, x.db.workers[turn.worker], maxAttempts);
    T.MissesAreTrue(x.db, turn.worker, turn.outcome, turn.rid, maxAttempts);
    T.StatementKnows(x.db, turn.worker, turn.outcome, turn.rid, maxAttempts);
  }

  lemma ReplayCommits(x: World, turn: Turn, maxAttempts: nat)
    requires Inv(x, maxAttempts) && Enabled(x, turn) && turn.Finish? && x.db.workers[turn.worker].Looked?
    ensures var pc := x.db.workers[turn.worker];
            var x' := Step(x, turn, maxAttempts);
            && pc.letter in x.db.dlq && x.db.dlq[pc.letter] == pc.stored
            && NonEmpty(pc.stored.eventId).Some? && RedriveOf(pc.stored).Some?
            && (pc.seen.Some? ==> var id := pc.stored.eventId.value;
                                  id in x.db.events && Replayable(x.db.events[id].status))
            && x'.db.events == (if pc.seen.Some? then ResetForReplay(x.db.events, pc.stored.eventId.value)
                                else x.db.events)
            && x'.db.dlq == x.db.dlq[pc.letter := pc.stored.(replayed := true)]
            && x'.live == x.live[x.carries[turn.worker].key := RedriveBy(pc.stored)]
            && x.carries[turn.worker].key !in x.live
            && T.LetterRowLock(pc.letter) in T.Holds(pc)
  {
    assert T.Knows(x.db, x.db.workers[turn.worker], maxAttempts);
  }

  /** Its commit shows what the protocol has shown since. */
  lemma OnTimeTurn(x: World, turn: Turn, p: P.State, early: set<Early>, maxAttempts: nat)
    requires Inv(x, maxAttempts) && Enabled(x, turn) && Mirrors(x, p, early) && AllPending(x, early)
    requires turn.Finish? && Pending(x, turn.worker) && EarlyAt(x, turn.worker) in early
    ensures Mirrors(Step(x, turn, maxAttempts), p, early - {EarlyAt(x, turn.worker)})
  {
    var e := EarlyAt(x, turn.worker);
    EarlyApart(x, early - {e}, turn.worker, maxAttempts);
    ReplayCommits(x, turn, maxAttempts);
    MirrorsOnTime(x, Step(x, turn, maxAttempts), p, early, e);
  }

  lemma MirrorsOnTime(x: World, x': World, p: P.State, early: set<Early>, e: Early)
    requires Mirrors(x, p, early) && e in early && e.letter in x.db.dlq
    requires forall f :: f in early - {e} ==> f.key != e.key && f.letter != e.letter
    requires x'.live == x.live[e.key := e.redrive] && x'.db.events == x.db.events
    requires x'.db.dlq == x.db.dlq[e.letter := x.db.dlq[e.letter].(replayed := true)]
    ensures Mirrors(x', p, early - {e})
  {
    LettersApart(early - {e}, e.letter);
    LettersWith(early, e);
    StampsCommute(x.db.dlq, Letters(early - {e}), e.letter, x.db.dlq[e.letter]);
    assert forall f :: f in early && f != e ==> f in early - {e};
    LiveOnTime(x.live, p.live, early, e);
  }

  /** Every other commit is the protocol's atomic step at that moment, or none if it has nothing left to change. */
  lemma FinishTurn(x: World, turn: Turn, p: P.State, early: set<Early>, maxAttempts: nat)
    returns (l: Option<P.Label>, q: P.State)
    requires Inv(x, maxAttempts) && Enabled(x, turn) && Mirrors(x, p, early) && AllPending(x, early)
    requires turn.Finish? && !Pending(x, turn.worker)
    ensures Ran(p, l, q, maxAttempts) && Mirrors(Step(x, turn, maxAttempts), q, early)
  {
    var w, key := turn.worker, x.carries[turn.worker].key;
    EarlyApart(x, early, w, maxAttempts);
    LiveUpdated(x.live, p.live, early, key, Committed(x, w));
    if x.db.workers[w].Updated? && RecordedSoFar(x.db.workers[w]).Stored? {
      IdleCommit(x, turn, p, early, maxAttempts);
      l, q := None, p;
    } else {
      var step: P.Label;
      if x.db.workers[w].Decided? {
        step := ProcessTurn(x, turn, p, early, maxAttempts);
      } else if x.db.workers[w].Updated? {
        step := RecordTurn(x, turn, p, early, maxAttempts);
      } else {
        step := ReplayTurn(x, turn, p, early, maxAttempts);
      }
      l, q := Some(step), P.Step(p, step, maxAttempts);
    }
  }

  lemma ProcessingCommits(x: World, turn: Turn, maxAttempts: nat)
    requires Inv(x, maxAttempts) && Enabled(x, turn) && turn.Finish? && x.db.workers[turn.worker].Decided?
    ensures var pc, c := x.db.workers[turn.worker], x.carries[turn.worker];
            var x' := Step(x, turn, maxAttempts);
            && OnDelivery(x, turn.worker, pc.event, pc.continuation)
            && (pc.write, pc.decision) == ProcessRow(x.db.events, pc.event, pc.continuation, maxAttempts, pc.outcome)
            && x'.db.events == x.db.events[pc.event.eventId := pc.write] && x'.db.dlq == x.db.dlq
            && x'.live == x.live[c.key := Committed(x, turn.worker)]
  {
    assert T.Knows(x.db, x.db.workers[turn.worker], maxAttempts);
  }

  lemma ProcessTurn(x: World, turn: Turn, p: P.State, early: set<Early>, maxAttempts: nat) returns (l: P.Label)
    requires Inv(x, maxAttempts) && Enabled(x, turn) && Mirrors(x, p, early)
    requires turn.Finish? && x.db.workers[turn.worker].Decided?
    requires var key := x.carries[turn.worker].key;
             LiveMirrors(x.live[key := Committed(x, turn.worker)], p.live[key := Committed(x, turn.worker)], early)
    ensures P.Enabled(p, l) && Mirrors(Step(x, turn, maxAttempts), P.Step(p, l, maxAttempts), early)
  {
    var pc, c := x.db.workers[turn.worker], x.carries[turn.worker];
    ProcessingCommits(x, turn, maxAttempts);
    l := P.Commit(c.key, pc.outcome, c.generated);
    CommitShows(p, c.key, pc.outcome, c.generated, maxAttempts);
  }

  lemma RecordingCommits(x: World, turn: Turn, maxAttempts: nat)
    requires Inv(x, maxAttempts) && Enabled(x, turn) && turn.Finish? && x.db.workers[turn.worker].Updated?
    ensures var pc := x.db.workers[turn.worker];
            var key := x.carries[turn.worker].key;
            var x' := Step(x, turn, maxAttempts);
            && !pc.m.body.NullLiteral? && key in x.live && x.live[key] == RecordedSoFar(pc)
            && x'.db.events
               == (if T.MissedBy(pc).Some? then x.db.events else MarkDead(x.db.events, RowOf(pc.m).eventId))
            && x'.live == x.live[key := P.Stored(pc.m)]
  {
    assert T.Knows(x.db, x.db.workers[turn.worker], maxAttempts);
  }

  lemma RecordingInserts(x: World, turn: Turn, maxAttempts: nat)
    requires Inv(x, maxAttempts) && Enabled(x, turn) && turn.Finish? && x.db.workers[turn.worker].Updated?
    ensures var pc := x.db.workers[turn.worker];
            && !pc.m.body.NullLiteral? && (pc.rid.Some? ==> pc.rid.value !in x.db.dlq)
            && Step(x, turn, maxAttempts).db.dlq
               == if pc.rid.None? then x.db.dlq else InsertLetter(x.db.dlq, pc.rid.value, RowOf(pc.m))
  {
    assert T.Knows(x.db, x.db.workers[turn.worker], maxAttempts);
  }

  /** An ignored insert and an update that found no row leave a commit nothing to do. */
  lemma IdleCommit(x: World, turn: Turn, p: P.State, early: set<Early>, maxAttempts: nat)
    requires Inv(x, maxAttempts) && Enabled(x, turn) && Mirrors(x, p, early)
    requires turn.Finish? && x.db.workers[turn.worker].Updated? && RecordedSoFar(x.db.workers[turn.worker]).Stored?
    ensures Mirrors(Step(x, turn, maxAttempts), p, early)
  {
    RecordingCommits(x, turn, maxAttempts);
    RecordingInserts(x, turn, maxAttempts);
    assert x.live[x.carries[turn.worker].key := P.Stored(x.db.workers[turn.worker].m)] == x.live;
  }

  lemma RecordTurn(x: World, turn: Turn, p: P.State, early: set<Early>, maxAttempts: nat) returns (l: P.Label)
    requires Inv(x, maxAttempts) && Enabled(x, turn) && Mirrors(x, p, early) && AllPending(x, early)
    requires turn.Finish? && x.db.workers[turn.worker].Updated? && !RecordedSoFar(x.db.workers[turn.worker]).Stored?
    requires var key := x.carries[turn.worker].key;
             LiveMirrors(x.live[key := Committed(x, turn.worker)], p.live[key := Committed(x, turn.worker)], early)
    ensures P.Enabled(p, l) && Mirrors(Step(x, turn, maxAttempts), P.Step(p, l, maxAttempts), early)
  {
    var key, pc := x.carries[turn.worker].key, x.db.workers[turn.worker];
    var unused := FreshKey(x.db.dlq);
    var rid := if pc.rid.Some? then pc.rid.value else unused;
    RecordingCommits(x, turn, maxAttempts);
    RecordingInserts(x, turn, maxAttempts);
    EarlyLetters(x, early, maxAttempts);
    LettersApart(early, rid);
    PersistShows(p, x.db.dlq, Letters(early), key, rid, maxAttempts);
    l := P.Persist(key, rid);
  }

  lemma ReplayTurn(x: World, turn: Turn, p: P.State, early: set<Early>, maxAttempts: nat) returns (l: P.Label)
    requires Inv(x, maxAttempts) && Enabled(x, turn) && Mirrors(x, p, early) && AllPending(x, early)
    requires turn.Finish? && x.db.workers[turn.worker].Looked? && !Pending(x, turn.worker)
    requires var key := x.carries[turn.worker].key;
             LiveMirrors(x.live[key := Committed(x, turn.worker)], p.live[key := Committed(x, turn.worker)], early)
    ensures P.Enabled(p, l) && Mirrors(Step(x, turn, maxAttempts), P.Step(p, l, maxAttempts), early)
  {
    var key, pc := x.carries[turn.worker].key, x.db.workers[turn.worker];
    ReplayCommits(x, turn, maxAttempts);
    EarlyApart(x, early, turn.worker, maxAttempts);
    LettersApart(early, pc.letter);
    PrepareShows(p, x.db.dlq, Letters(early), pc.letter, key, maxAttempts);
    l := P.Prepare(pc.letter, key);
  }

  // ---------- the turns that need no transaction ----------

  lemma OtherTurn(x: World, turn: Turn, p: P.State, early: set<Early>, maxAttempts: nat)
    requires Inv(x, maxAttempts) && Enabled(x, turn) && Mirrors(x, p, early) && AllPending(x, early) && turn.Other?
    ensures P.Enabled(p, turn.step)
    ensures Mirrors(Step(x, turn, maxAttempts), P.Step(p, turn.step, maxAttempts), early)
  {
    var l := turn.step;
    EarlyLetters(x, early, maxAttempts);
    OtherTables(x, l, maxAttempts);
    if l.Discard? {
      DiscardTurn(x, turn, p, early, maxAttempts);
    } else {
      assert forall e :: e in early && (l.Send? || l.HandBack?) ==> e.key != l.k';
      assert forall e :: e in early && !l.HandBack? ==> e.key != l.k;
      if l.Ack? || l.RedriveLost? {
        Drops(x, l, p, early, maxAttempts);
      } else if l.Send? {
        Sends(x, l, p, early, maxAttempts);
      } else if l.HandBack? {
        HandsBack(x, l, p, early, maxAttempts);
      } else {
        Moves(x, l, p, early, maxAttempts);
      }
    }
  }

  lemma Drops(x: World, l: P.Label, p: P.State, early: set<Early>, maxAttempts: nat)
    requires (l.Ack? || l.RedriveLost?) && P.Enabled(View(x), l) && LiveMirrors(x.live, p.live, early)
    requires forall e :: e in early ==> e.key != l.k
    ensures P.Enabled(p, l)
    ensures var q := P.Step(p, l, maxAttempts);
            && q.events == p.events && q.dlq == p.dlq
            && LiveMirrors(P.Step(View(x), l, maxAttempts).live, q.live, early)
  {
    LiveUpdated(x.live, p.live, early, l.k, x.live[l.k]);
  }

  lemma Sends(x: World, l: P.Label, p: P.State, early: set<Early>, maxAttempts: nat)
    requires l.Send? && P.Enabled(View(x), l) && LiveMirrors(x.live, p.live, early)
    requires forall e :: e in early ==> e.key != l.k && e.key != l.k'
    ensures P.Enabled(p, l)
    ensures var q := P.Step(p, l, maxAttempts);
            && q.events == p.events && q.dlq == p.dlq
            && LiveMirrors(P.Step(View(x), l, maxAttempts).live, q.live, early)
  {
    var t := P.Step(View(x), l, maxAttempts);
    LiveUpdated(x.live, p.live, early, l.k, t.live[l.k]);
    LiveUpdated(x.live[l.k := t.live[l.k]], p.live[l.k := t.live[l.k]], early, l.k', t.live[l.k']);
  }

  lemma HandsBack(x: World, l: P.Label, p: P.State, early: set<Early>, maxAttempts: nat)
    requires l.HandBack? && P.Enabled(View(x), l) && LiveMirrors(x.live, p.live, early)
    requires forall e :: e in early ==> e.key != l.k'
    ensures P.Enabled(p, l)
    ensures var q := P.Step(p, l, maxAttempts);
            && q.events == p.events && q.dlq == p.dlq
            && LiveMirrors(P.Step(View(x), l, maxAttempts).live, q.live, early)
  {
    LiveUpdated(x.live, p.live, early, l.k', P.Requeued(x.live[l.k]));
  }

  predicate MovesOne(l: P.Label) {
    l.Publish? || l.Deliver? || l.Reject? || l.DbError? || l.Requeue? || l.Expire? || l.Redriven?
  }

  /** Such a step depends on the tables and on the other messages in nothing. */
  lemma MovesOnlyThat(p: P.State, l: P.Label, maxAttempts: nat)
    requires MovesOne(l) && P.Enabled(p, l)
    ensures var q := P.Step(p, l, maxAttempts);
            q.events == p.events && q.dlq == p.dlq && l.k in q.live && q.live == p.live[l.k := q.live[l.k]]
  {
  }

  lemma EnabledAlike(p: P.State, q: P.State, l: P.Label)
    requires MovesOne(l) && P.Enabled(p, l)
    requires if l.k in p.live then l.k in q.live && q.live[l.k] == p.live[l.k] else l.k !in q.live
    ensures P.Enabled(q, l)
  {
  }

  lemma MovesAlike(p: P.State, q: P.State, l: P.Label, maxAttempts: nat)
    requires MovesOne(l) && P.Enabled(p, l) && P.Enabled(q, l)
    requires l.k in p.live ==> l.k in q.live && q.live[l.k] == p.live[l.k]
    ensures l.k in P.Step(p, l, maxAttempts).live && l.k in P.Step(q, l, maxAttempts).live
    ensures P.Step(p, l, maxAttempts).live[l.k] == P.Step(q, l, maxAttempts).live[l.k]
  {
  }

  lemma Moves(x: World, l: P.Label, p: P.State, early: set<Early>, maxAttempts: nat)
    requires MovesOne(l) && P.Enabled(View(x), l) && LiveMirrors(x.live, p.live, early)
    requires forall e :: e in early ==> e.key != l.k
    ensures P.Enabled(p, l)
    ensures var q := P.Step(p, l, maxAttempts);
            && q.events == p.events && q.dlq == p.dlq
            && LiveMirrors(P.Step(View(x), l, maxAttempts).live, q.live, early)
  {
    EnabledAlike(View(x), p, l);
    MovesAlike(View(x), p, l, maxAttempts);
    MovesOnlyThat(View(x), l, maxAttempts);
    MovesOnlyThat(p, l, maxAttempts);
    LiveUpdated(x.live, p.live, early, l.k, P.Step(View(x), l, maxAttempts).live[l.k]);
  }

  lemma DiscardTurn(x: World, turn: Turn, p: P.State, early: set<Early>, maxAttempts: nat)
    requires Inv(x, maxAttempts) && Enabled(x, turn) && Mirrors(x, p, early) && AllPending(x, early)
    requires turn.Other? && turn.step.Discard?
    ensures P.Enabled(p, turn.step)
    ensures Mirrors(Step(x, turn, maxAttempts), P.Step(p, turn.step, maxAttempts), early)
  {
    var rid := turn.step.rid;
    EarlyLetters(x, early, maxAttempts);
    forall e | e in early ensures e.letter != rid {
      assert T.LetterRowLock(rid) !in T.Holds(x.db.workers[e.worker]);
    }
    LettersApart(early, rid);
    OtherTables(x, turn.step, maxAttempts);
    DiscardShows(View(x), x.db.dlq, {}, rid, maxAttempts);
    DiscardShows(p, x.db.dlq, Letters(early), rid, maxAttempts);
  }

  // ---------- every history is a run of the protocol ----------

  /** Whether the transaction a worker has open is committed in the rest of the history. */
  predicate WillFinish(turns: seq<Turn>, w: nat) {
    turns != [] &&
    if turns[0].Other? || turns[0].worker != w then WillFinish(turns[1..], w) else turns[0].Finish?
  }

  /** The replays that have looked in vain and will commit. */
  ghost function EarlyOf(x: World, turns: seq<Turn>): set<Early> {
    set w | w in x.carries && Pending(x, w) && WillFinish(turns, w) :: EarlyAt(x, w)
  }

  /** The other workers' early replays are what they were. */
  lemma EarlyElsewhere(x: World, turns: seq<Turn>, maxAttempts: nat)
    requires turns != [] && Inv(x, maxAttempts) && Enabled(x, turns[0])
    ensures var x', rest := Step(x, turns[0], maxAttempts), turns[1..];
            && (turns[0].Other? ==> EarlyOf(x', rest) == EarlyOf(x, turns))
            && (!turns[0].Other? ==>
                  var w := turns[0].worker;
                  && (forall e :: e in EarlyOf(x, turns) && e.worker != w ==> e in EarlyOf(x', rest))
                  && (forall e :: e in EarlyOf(x', rest) && e.worker != w ==> e in EarlyOf(x, turns)))
  {
    var x', rest := Step(x, turns[0], maxAttempts), turns[1..];
    forall v | turns[0].Other? || v != turns[0].worker
      ensures Pending(x, v) <==> Pending(x', v)
      ensures Pending(x, v) ==> EarlyAt(x, v) == EarlyAt(x', v)
      ensures WillFinish(turns, v) == WillFinish(rest, v)
    {
      BystandersStay(x, turns[0], v, maxAttempts);
    }
  }

  lemma BystandersStay(x: World, turn: Turn, v: nat, maxAttempts: nat)
    requires Inv(x, maxAttempts) && Enabled(x, turn) && (turn.Other? || v != turn.worker)
    ensures var x' := Step(x, turn, maxAttempts);
            && (v in x'.carries <==> v in x.carries) && (v in x.carries ==> x'.carries[v] == x.carries[v])
            && (v in x'.db.workers <==> v in x.db.workers)
            && (v in x.db.workers ==> x'.db.workers[v] == x.db.workers[v])
  {
  }

  /** What a turn of its own makes of a worker's early replay. */
  lemma EarlyHere(x: World, turns: seq<Turn>, maxAttempts: nat)
    requires turns != [] && Inv(x, maxAttempts) && Enabled(x, turns[0]) && !turns[0].Other?
    ensures var x', rest, w := Step(x, turns[0], maxAttempts), turns[1..], turns[0].worker;
            && (forall e :: e in EarlyOf(x, turns) && e.worker == w ==>
                  turns[0].Finish? && Pending(x, w) && e == EarlyAt(x, w))
            && (turns[0].Finish? && Pending(x, w) ==> EarlyAt(x, w) in EarlyOf(x, turns))
            && (forall e :: e in EarlyOf(x', rest) && e.worker == w ==>
                  turns[0].Next? && Pending(x', w) && e == EarlyAt(x', w))
  {
  }

  /** How the early replays change: one more when a replay looks in vain and will commit, one fewer when it does. */
  lemma EarlyAfter(x: World, turns: seq<Turn>, maxAttempts: nat)
    requires turns != [] && Inv(x, maxAttempts) && Enabled(x, turns[0])
    ensures var turn, x' := turns[0], Step(x, turns[0], maxAttempts);
            var early, late := EarlyOf(x, turns), EarlyOf(x', turns[1..]);
            if turn.Other? then late == early
            else if turn.Finish? && Pending(x, turn.worker) then
              EarlyAt(x, turn.worker) in early && late == early - {EarlyAt(x, turn.worker)}
            else
              && (forall e :: e in early ==> e.worker != turn.worker)
              && if turn.Next? && Pending(x', turn.worker) && WillFinish(turns[1..], turn.worker)
                 then late == early + {EarlyAt(x', turn.worker)} else late == early
  {
    EarlyElsewhere(x, turns, maxAttempts);
    if !turns[0].Other? {
      EarlyHere(x, turns, maxAttempts);
    }
  }

  predicate RecordsNow(x: World, turn: Turn)
    requires Enabled(x, turn) && turn.Next?
  {
    Records(x.db.workers[turn.worker])
  }

  /** A turn that changes no table and no message. */
  predicate Quiet(x: World, turn: Turn)
    requires Enabled(x, turn)
  {
    turn.Take? || turn.TakeReplay? || turn.Quit? || (turn.Next? && !RecordsNow(x, turn))
  }

  lemma QuietTurn(x: World, turn: Turn, p: P.State, early: set<Early>, maxAttempts: nat)
    requires Enabled(x, turn) && Mirrors(x, p, early) && Quiet(x, turn)
    ensures Mirrors(Step(x, turn, maxAttempts), p, early)
  {
    if turn.Next? {
      NextKeepsItsMessage(x.db, x.db.workers[turn.worker], turn.outcome, turn.rid, maxAttempts);
    }
  }

  lemma OwnTurn(x: World, p: P.State, turn: Turn, early: set<Early>, maxAttempts: nat)
    returns (l: Option<P.Label>, q: P.State)
    requires Inv(x, maxAttempts) && Enabled(x, turn) && Mirrors(x, p, early) && AllPending(x, early)
    requires !turn.Other? && !(turn.Finish? && Pending(x, turn.worker))
    requires forall e :: e in early ==> e.worker != turn.worker
    ensures Ran(p, l, q, maxAttempts) && Mirrors(Step(x, turn, maxAttempts), q, early)
  {
    if turn.Finish? {
      l, q := FinishTurn(x, turn, p, early, maxAttempts);
    } else if Quiet(x, turn) {
      QuietTurn(x, turn, p, early, maxAttempts);
      l, q := None, p;
    } else {
      l, q := RecordingStatement(x, turn, p, early, maxAttempts);
    }
  }

  /** Every turn is simulated by one protocol step or by none: a statement that finds no row by an overlook or by a
      prepare, a commit by the transaction's own step, and whatever needs no transaction by itself. */
  lemma TransactionsAreSteps(x: World, p: P.State, turns: seq<Turn>, maxAttempts: nat)
    returns (l: Option<P.Label>, q: P.State)
    requires turns != [] && Inv(x, maxAttempts) && Enabled(x, turns[0]) && Mirrors(x, p, EarlyOf(x, turns))
    ensures Ran(p, l, q, maxAttempts)
    ensures Mirrors(Step(x, turns[0], maxAttempts), q, EarlyOf(Step(x, turns[0], maxAttempts), turns[1..]))
  {
    var turn := turns[0];
    var early := EarlyOf(x, turns);
    EarlyAfter(x, turns, maxAttempts);
    if turn.Other? {
      OtherTurn(x, turn, p, early, maxAttempts);
      l, q := Some(turn.step), P.Step(p, turn.step, maxAttempts);
    } else if turn.Finish? && Pending(x, turn.worker) {
      OnTimeTurn(x, turn, p, early, maxAttempts);
      l, q := None, p;
    } else if turn.Next? && Pending(Step(x, turn, maxAttempts), turn.worker) && WillFinish(turns[1..], turn.worker) {
      var step := LookTurn(x, turn, p, early, maxAttempts);
      l, q := Some(step), P.Step(p, step, maxAttempts);
    } else {
      l, q := OwnTurn(x, p, turn, early, maxAttempts);
    }
  }

  /** With nothing open to commit, the protocol shows the world exactly. */
  lemma NothingEarly(x: World, p: P.State)
    ensures Mirrors(x, p, {}) <==> p.events == x.db.events && p.dlq == x.db.dlq && p.live == x.live
  {
    assert Letters({}) == {};
    assert Stamp(x.db.dlq, {}) == x.db.dlq;
  }

  lemma {:induction false} HistoriesAreMirrored(x: World, p: P.State, turns: seq<Turn>, maxAttempts: nat)
    returns (ls: seq<P.Label>)
    requires Inv(x, maxAttempts) && Turns(x, turns, maxAttempts) && Mirrors(x, p, EarlyOf(x, turns))
    ensures P.Runs(p, ls, maxAttempts)
    ensures Inv(After(x, turns, maxAttempts), maxAttempts)
    ensures Mirrors(After(x, turns, maxAttempts), P.After(p, ls, maxAttempts), {})
    decreases |turns|
  {
    if turns == [] {
      assert EarlyOf(x, []) == {};
      ls := [];
    } else {
      var l, q := TransactionsAreSteps(x, p, turns, maxAttempts);
      InvKept(x, turns[0], maxAttempts);
      ls := HistoriesAreMirrored(Step(x, turns[0], maxAttempts), q, turns[1..], maxAttempts);
      if l.Some? {
        P.First(p, l.value, ls, maxAttempts);
        ls := [l.value] + ls;
      }
    }
  }

  /** Simulation: however workers interleave the statements, commits and rollbacks of their transactions with
      deliveries, publishes, acks, crashes, expiries and discards, the protocol has a run from the same tables and
      messages to the same tables and the same messages in the same phases, and so with the same decisions. */
  lemma HistoriesAreProtocolRuns(x: World, p: P.State, turns: seq<Turn>, maxAttempts: nat) returns (ls: seq<P.Label>)
    requires x.db.workers == map[] && x.carries == map[] && Turns(x, turns, maxAttempts)
    requires p.events == x.db.events && p.dlq == x.db.dlq && p.live == x.live
    ensures P.Runs(p, ls, maxAttempts)
    ensures var t, y := P.After(p, ls, maxAttempts), After(x, turns, maxAttempts);
            t.events == y.db.events && t.dlq == y.db.dlq && t.live == y.live
  {
    NothingEarly(x, p);
    assert EarlyOf(x, turns) == {};
    ls := HistoriesAreMirrored(x, p, turns, maxAttempts);
    NothingEarly(After(x, turns, maxAttempts), P.After(p, ls, maxAttempts));
  }

  lemma IgnoredMarks(x: World, w: nat, maxAttempts: nat)
    requires Inv(x, maxAttempts) && w in x.db.workers && x.db.workers[w].Updated? && T.HasIgnored(x.db.workers[w])
    requires x.db.workers[w].seen.Some?
    ensures Enabled(x, Finish(w))
    ensures var m, z := x.db.workers[w].m, Step(x, Finish(w), maxAttempts);
            && RowOf(m).eventId.Some? && RowOf(m).eventId.value in z.db.events
            && z.db.events[RowOf(m).eventId.value].status == Dead
            && z.db.dlq == x.db.dlq
  {
    assert Carried(x, w) && T.Knows(x.db, x.db.workers[w], maxAttempts);
  }

  /** What a discard can do that falls between an ignored insert and its commit: the event is marked dead and no letter
      is left for it. */
  lemma DiscardUnderAnIgnoredInsert(x: World, w: nat, rid: nat, maxAttempts: nat)
    requires Inv(x, maxAttempts) && w in x.db.workers && x.db.workers[w].Updated? && T.HasIgnored(x.db.workers[w])
    requires x.db.workers[w].seen.Some? && Enabled(x, Turn.Other(P.Discard(rid)))
    requires forall r :: r in x.db.dlq && x.db.dlq[r].messageId == RowOf(x.db.workers[w].m).messageId ==> r == rid
    ensures var y := Step(x, Turn.Other(P.Discard(rid)), maxAttempts);
            && Enabled(y, Finish(w))
            && var m, z := x.db.workers[w].m, Step(y, Finish(w), maxAttempts);
               && RowOf(m).eventId.Some? && RowOf(m).eventId.value in z.db.events
               && z.db.events[RowOf(m).eventId.value].status == Dead
               && !Recorded(z.db.dlq, RowOf(m).messageId)
  {
    var y := Step(x, Turn.Other(P.Discard(rid)), maxAttempts);
    InvKept(x, Turn.Other(P.Discard(rid)), maxAttempts);
    IgnoredMarks(y, w, maxAttempts);
  }
}
