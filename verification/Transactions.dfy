/** The transaction layer below the protocol: any number of workers interleave the statements of their transactions
    under row locks, and every commit is one atomic decision on the committed tables. */
module Transactions {
  import opened Wrappers
  import opened Messages
  import opened Tables
  import opened Sums

  /** How far a worker's transaction has come. Uncommitted writes live here until the commit. */
  datatype Pc =
    | Idle
    // processing: insert-or-ignore, lock and read, update, handle, update
    | Claiming(event: HandledEvent, continuation: bool)
    | Claimed(event: HandledEvent, continuation: bool, claimed: bool)
    | Locked(event: HandledEvent, continuation: bool, claimed: bool, row: EventRow)
    | Marked(event: HandledEvent, continuation: bool, claimed: bool, row: EventRow, write: EventRow)
    | Decided(event: HandledEvent, continuation: bool, claimed: bool, row: EventRow, outcome: HandlerOutcome,
              write: EventRow, decision: Decision)
    // recording a dead letter: insert-or-ignore, update the event
    | Inserting(m: DeadMessage)
    | Inserted(m: DeadMessage, rid: Option<nat>)
    | Updated(m: DeadMessage, rid: Option<nat>, seen: Option<EventRow>)
    // replaying: lock the letter, lock the event, reset
    | Opening(letter: nat)
    | Opened(letter: nat, stored: DlqRow)
    | Looked(letter: nat, stored: DlqRow, seen: Option<EventRow>)

  datatype Database = Database(events: Events, dlq: DeadLetters, workers: map<nat, Pc>)

  datatype Resource = EventRowLock(id: string) | LetterKeyLock(messageId: string) | LetterRowLock(rid: nat)

  function LetterLocks(m: DeadMessage, rid: Option<nat>): set<Resource> {
    if rid.Some? && !m.body.NullLiteral? && RowOf(m).messageId.Some?
    then {LetterKeyLock(RowOf(m).messageId.value)} else {}
  }

  /** The locks a transaction holds: what it inserted without committing and what it selected for update. */
  function Holds(pc: Pc): set<Resource> {
    match pc
    case Claimed(event, _, claimed) => if claimed then {EventRowLock(event.eventId)} else {}
    case Locked(event, _, _, _) => {EventRowLock(event.eventId)}
    case Marked(event, _, _, _, _) => {EventRowLock(event.eventId)}
    case Decided(event, _, _, _, _, _, _) => {EventRowLock(event.eventId)}
    case Inserted(m, rid) => LetterLocks(m, rid)
    case Updated(m, rid, seen) =>
      LetterLocks(m, rid) +
      (if seen.Some? && !m.body.NullLiteral? && RowOf(m).eventId.Some?
       then {EventRowLock(RowOf(m).eventId.value)} else {})
    case Opened(letter, _) => {LetterRowLock(letter)}
    case Looked(letter, stored, seen) =>
      {LetterRowLock(letter)}
      + (if seen.Some? && stored.eventId.Some? then {EventRowLock(stored.eventId.value)} else {})
    case _ => {}
  }

  /** The lock the next statement of a transaction needs. An insert that finds a committed row ignores it without
      waiting; one that meets another transaction's uncommitted row waits. An update or a select for update sees
      committed rows only. */
  function Wants(s: Database, pc: Pc): Option<Resource> {
    match pc
    case Claiming(event, _) => if event.eventId in s.events then None else Some(EventRowLock(event.eventId))
    case Claimed(event, _, claimed) => if claimed then None else Some(EventRowLock(event.eventId))
    case Inserting(m) =>
      if m.body.NullLiteral? || RowOf(m).messageId.None? || Recorded(s.dlq, RowOf(m).messageId) then None
      else Some(LetterKeyLock(RowOf(m).messageId.value))
    case Inserted(m, _) =>
      if !m.body.NullLiteral? && RowOf(m).eventId.Some? && RowOf(m).eventId.value in s.events
      then Some(EventRowLock(RowOf(m).eventId.value)) else None
    case Opening(letter) => if letter in s.dlq then Some(LetterRowLock(letter)) else None
    case Opened(_, stored) =>
      if stored.eventId.Some? && stored.eventId.value in s.events
      then Some(EventRowLock(stored.eventId.value)) else None
    case _ => None
  }

  predicate HeldByAnother(s: Database, w: nat, r: Resource) {
    exists v :: v in s.workers && v != w && r in Holds(s.workers[v])
  }

  predicate Blocked(s: Database, w: nat)
    requires w in s.workers
  {
    Wants(s, s.workers[w]).Some? && HeldByAnother(s, w, Wants(s, s.workers[w]).value)
  }

  datatype Action =
    | Begin(pc: Pc)
    | Advance(outcome: HandlerOutcome, rid: nat)   // the next statement; the handler's answer, the generated row id
    | Commit
    | Abort

  predicate Unused(s: Database, rid: nat) {
    rid !in s.dlq &&
    forall w :: w in s.workers && (s.workers[w].Inserted? || s.workers[w].Updated?) ==> s.workers[w].rid != Some(rid)
  }

  predicate Enabled(s: Database, w: nat, a: Action) {
    match a
    case Begin(pc) =>
      && (w in s.workers ==> s.workers[w].Idle?)
      && (pc.Claiming? || (pc.Inserting? && !pc.m.body.NullLiteral?) || pc.Opening?)
    case Advance(_, rid) =>
      && w in s.workers && !s.workers[w].Idle? && !Committable(s.workers[w]) && !Blocked(s, w)
      && (s.workers[w].Inserting? ==> Unused(s, rid))
      && (s.workers[w].Claimed? && !s.workers[w].claimed ==> s.workers[w].event.eventId in s.events)
    case Commit => w in s.workers && Committable(s.workers[w])
    case Abort => w in s.workers && !s.workers[w].Idle?
  }

  predicate Committable(pc: Pc) {
    pc.Decided? || (pc.Updated? && !pc.m.body.NullLiteral?) || (pc.Looked? && pc.stored.eventId.Some?)
  }

  /** One statement. The processing statements follow the service line by line. */
  function Statement(s: Database, pc: Pc, outcome: HandlerOutcome, rid: nat, maxAttempts: nat): Pc
    requires pc.Claimed? && !pc.claimed ==> pc.event.eventId in s.events
  {
    match pc
    case Claiming(event, continuation) => Claimed(event, continuation, event.eventId !in s.events)
    case Claimed(event, continuation, claimed) =>
      Locked(event, continuation, claimed, if claimed then FreshRow(event) else s.events[event.eventId])
    case Locked(event, continuation, claimed, row) =>
      var duplicate := row.(duplicateCount := row.duplicateCount + 1);
      if Settled(row.status) then
        Decided(event, continuation, claimed, row, outcome, duplicate, Duplicate(row.attempts))
      else if row.status == Failed then
        Decided(event, continuation, claimed, row, outcome, row,
                Bury(row.attempts, GetOr(row.failureReason, "previously failed")))
      else if !claimed && !continuation then
        Decided(event, continuation, claimed, row, outcome, duplicate, Duplicate(row.attempts))
      else
        Marked(event, continuation, claimed, row, row.(status := Processing, attempts := row.attempts + 1))
    case Marked(event, continuation, claimed, row, write) =>
      if outcome.Succeeds? then
        Decided(event, continuation, claimed, row, outcome,
                write.(status := Processed, failureReason := None), Handled(write.attempts))
      else if outcome.FailsPermanent? || write.attempts >= maxAttempts then
        Decided(event, continuation, claimed, row, outcome,
                write.(status := Failed, failureReason := Some(outcome.reason)), Bury(write.attempts, outcome.reason))
      else
        Decided(event, continuation, claimed, row, outcome,
                write.(failureReason := Some(outcome.reason)), Retry(write.attempts))
    case Inserting(m) =>
      Inserted(m, if !m.body.NullLiteral? && Recorded(s.dlq, RowOf(m).messageId) then None else Some(rid))
    case Inserted(m, r) =>
      Updated(m, r,
              if !m.body.NullLiteral? && RowOf(m).eventId.Some? && RowOf(m).eventId.value in s.events
              then Some(s.events[RowOf(m).eventId.value]) else None)
    case Opening(letter) => if letter in s.dlq then Opened(letter, s.dlq[letter]) else Idle
    case Opened(letter, stored) =>
      if NonEmpty(stored.eventId).None? || RedriveOf(stored).None? then Idle
      else if stored.eventId.value !in s.events then Looked(letter, stored, None)
      else if !Replayable(s.events[stored.eventId.value].status) then Idle
      else Looked(letter, stored, Some(s.events[stored.eventId.value]))
    case _ => pc
  }

  function CommittedTables(s: Database, pc: Pc): (Events, DeadLetters)
    requires Committable(pc)
  {
    match pc
    case Decided(event, _, _, _, _, write, _) => (s.events[event.eventId := write], s.dlq)
    case Updated(m, rid, seen) =>
      (if seen.Some? && RowOf(m).eventId.Some?
       then s.events[RowOf(m).eventId.value := seen.value.(status := Dead)] else s.events,
       if rid.Some? then s.dlq[rid.value := RowOf(m)] else s.dlq)
    case Looked(letter, stored, seen) =>
      (if seen.Some?
       then s.events[stored.eventId.value := seen.value.(status := Received, attempts := 0, failureReason := None)]
       else s.events,
       s.dlq[letter := stored.(replayed := true)])
  }

  function Step(s: Database, w: nat, a: Action, maxAttempts: nat): Database
    requires Enabled(s, w, a)
  {
    match a
    case Begin(pc) => s.(workers := s.workers[w := pc])
    case Advance(outcome, rid) =>
      s.(workers := s.workers[w := Statement(s, s.workers[w], outcome, rid, maxAttempts)])
    case Commit =>
      var (events, dlq) := CommittedTables(s, s.workers[w]);
      Database(events, dlq, s.workers[w := Idle])
    case Abort => s.(workers := s.workers[w := Idle])
  }

  // ---------- what the locks guarantee ----------

  /** What a worker knows about its event's committed row, from its claim or its lock. */
  ghost predicate KnowsRow(s: Database, event: HandledEvent, claimed: bool, row: EventRow) {
    && (claimed <==> event.eventId !in s.events)
    && row == LockedRow(s.events, event)
  }

  ghost predicate Knows(s: Database, pc: Pc, maxAttempts: nat) {
    match pc
    case Claimed(event, _, claimed) => claimed <==> event.eventId !in s.events
    case Locked(event, _, claimed, row) => KnowsRow(s, event, claimed, row)
    case Marked(event, continuation, claimed, row, write) =>
      && KnowsRow(s, event, claimed, row) && HandlerRuns(row, claimed, continuation)
      && write == row.(status := Processing, attempts := row.attempts + 1)
    case Decided(event, continuation, claimed, row, outcome, write, decision) =>
      && KnowsRow(s, event, claimed, row)
      && (write, decision) == Decide(row, claimed, continuation, maxAttempts, outcome)
    case Inserting(m) => !m.body.NullLiteral?
    case Inserted(m, rid) => !m.body.NullLiteral? && KnowsInsert(s, m, rid)
    case Updated(m, rid, seen) =>
      && !m.body.NullLiteral? && KnowsInsert(s, m, rid)
      && (seen.Some? ==>
            && RowOf(m).eventId.Some? && RowOf(m).eventId.value in s.events
            && s.events[RowOf(m).eventId.value] == seen.value)
    case Opened(letter, stored) => letter in s.dlq && s.dlq[letter] == stored
    case Looked(letter, stored, seen) =>
      && letter in s.dlq && s.dlq[letter] == stored
      && NonEmpty(stored.eventId).Some? && RedriveOf(stored).Some?
      && (seen.Some? ==>
            && stored.eventId.value in s.events && s.events[stored.eventId.value] == seen.value
            && Replayable(seen.value.status))
    case _ => true
  }

  ghost predicate KnowsInsert(s: Database, m: DeadMessage, rid: Option<nat>)
    requires !m.body.NullLiteral?
  {
    match rid
    case None => true
    case Some(r) => r !in s.dlq && !Recorded(s.dlq, RowOf(m).messageId)
  }

  predicate HasIgnored(pc: Pc) {
    (pc.Inserted? || pc.Updated?) && pc.rid.None? && !pc.m.body.NullLiteral?
  }

  /** The letters that made inserts be ignored are still there; among these transactions nothing removes one. */
  ghost predicate StillRecorded(s: Database) {
    forall w :: w in s.workers && HasIgnored(s.workers[w]) ==> Recorded(s.dlq, RowOf(s.workers[w].m).messageId)
  }

  ghost predicate SameRowId(a: Pc, b: Pc) {
    && (a.Inserted? || a.Updated?) && (b.Inserted? || b.Updated?) && a.rid.Some? && a.rid == b.rid
  }

  ghost predicate Inv(s: Database, maxAttempts: nat) {
    && (forall w :: w in s.workers ==> Knows(s, s.workers[w], maxAttempts))
    && (forall v, w :: v in s.workers && w in s.workers && v != w ==>
          Holds(s.workers[v]) !! Holds(s.workers[w]) && !SameRowId(s.workers[v], s.workers[w]))
  }

  /** A statement adds at most the lock it wanted. */
  lemma StatementTakesWanted(s: Database, w: nat, outcome: HandlerOutcome, rid: nat, maxAttempts: nat)
    requires Inv(s, maxAttempts) && Enabled(s, w, Advance(outcome, rid))
    ensures forall r :: r in Holds(Statement(s, s.workers[w], outcome, rid, maxAttempts)) ==>
              r in Holds(s.workers[w]) || Wants(s, s.workers[w]) == Some(r)
  {
  }

  lemma StatementKnows(s: Database, w: nat, outcome: HandlerOutcome, rid: nat, maxAttempts: nat)
    requires Inv(s, maxAttempts) && Enabled(s, w, Advance(outcome, rid))
    ensures Knows(s, Statement(s, s.workers[w], outcome, rid, maxAttempts), maxAttempts)
  {
    assert Knows(s, s.workers[w], maxAttempts);
  }

  /** What a transaction knows survives another's commit, because it holds the locks on what it knows. */
  lemma CommitLeavesKnowledge(s: Database, w: nat, v: nat, maxAttempts: nat)
    requires Inv(s, maxAttempts) && Enabled(s, w, Commit) && v in s.workers && v != w
    ensures Knows(Step(s, w, Commit, maxAttempts), s.workers[v], maxAttempts)
  {
    var s' := Step(s, w, Commit, maxAttempts);
    var pc, other := s.workers[w], s.workers[v];
    assert Knows(s, pc, maxAttempts) && Knows(s, other, maxAttempts);
    CommitOnlyTouchesHeld(s, w, maxAttempts);
    assert Holds(pc) !! Holds(other);
    if other.Inserted? || other.Updated? {
      assert !SameRowId(pc, other);
      RecordedAfterCommit(s, w, RowOf(other.m).messageId, maxAttempts);
      assert other.rid.Some? && RowOf(other.m).messageId.Some? ==>
               LetterKeyLock(RowOf(other.m).messageId.value) in Holds(other);
    }
  }

  /** A commit changes only rows its transaction has locked, and never removes one. */
  lemma CommitOnlyTouchesHeld(s: Database, w: nat, maxAttempts: nat)
    requires Inv(s, maxAttempts) && Enabled(s, w, Commit)
    ensures var s' := Step(s, w, Commit, maxAttempts);
            && s.events.Keys <= s'.events.Keys && s.dlq.Keys <= s'.dlq.Keys
            && (forall id :: id in s'.events && EventRowLock(id) !in Holds(s.workers[w]) ==>
                  id in s.events && s'.events[id] == s.events[id])
            && (forall rid :: rid in s.dlq && LetterRowLock(rid) !in Holds(s.workers[w]) ==> s'.dlq[rid] == s.dlq[rid])
            && (forall rid :: rid in s'.dlq && rid !in s.dlq ==>
                  s.workers[w].Updated? && s.workers[w].rid == Some(rid))
  {
    assert Knows(s, s.workers[w], maxAttempts);
  }

  lemma RecordedAfterCommit(s: Database, w: nat, messageId: Option<string>, maxAttempts: nat)
    requires Inv(s, maxAttempts) && Enabled(s, w, Commit)
    ensures Recorded(s.dlq, messageId) ==> Recorded(Step(s, w, Commit, maxAttempts).dlq, messageId)
    ensures Recorded(Step(s, w, Commit, maxAttempts).dlq, messageId) ==>
              Recorded(s.dlq, messageId) || LetterKeyLock(messageId.value) in Holds(s.workers[w])
  {
    var s' := Step(s, w, Commit, maxAttempts);
    var pc := s.workers[w];
    assert Knows(s, pc, maxAttempts);
    if Recorded(s.dlq, messageId) {
      var r :| r in s.dlq && s.dlq[r].messageId == messageId;
      assert r in s'.dlq && s'.dlq[r].messageId == messageId;
    }
    if Recorded(s'.dlq, messageId) {
      var r :| r in s'.dlq && s'.dlq[r].messageId == messageId;
      if r in s.dlq {
        assert s.dlq[r].messageId == messageId;
      }
    }
  }

  lemma StillRecordedKept(s: Database, w: nat, a: Action, maxAttempts: nat)
    requires Inv(s, maxAttempts) && Enabled(s, w, a) && StillRecorded(s)
    ensures StillRecorded(Step(s, w, a, maxAttempts))
  {
    var s' := Step(s, w, a, maxAttempts);
    forall v | v in s'.workers && HasIgnored(s'.workers[v])
      ensures Recorded(s'.dlq, RowOf(s'.workers[v].m).messageId)
    {
      if a.Commit? {
        RecordedAfterCommit(s, w, RowOf(s'.workers[v].m).messageId, maxAttempts);
      }
    }
  }

  lemma KnowledgeKept(s: Database, w: nat, a: Action, v: nat, maxAttempts: nat)
    requires Inv(s, maxAttempts) && Enabled(s, w, a) && v in Step(s, w, a, maxAttempts).workers
    ensures Knows(Step(s, w, a, maxAttempts), Step(s, w, a, maxAttempts).workers[v], maxAttempts)
  {
    if a.Advance? && v == w {
      StatementKnows(s, w, a.outcome, a.rid, maxAttempts);
    } else if a.Commit? && v != w {
      CommitLeavesKnowledge(s, w, v, maxAttempts);
    } else if v != w {
      assert Knows(s, s.workers[v], maxAttempts);
    }
  }

  lemma LocksStayApart(s: Database, w: nat, a: Action, v: nat, maxAttempts: nat)
    requires Inv(s, maxAttempts) && Enabled(s, w, a) && v in s.workers && v != w
    ensures var s' := Step(s, w, a, maxAttempts);
            Holds(s'.workers[v]) !! Holds(s'.workers[w]) && !SameRowId(s'.workers[v], s'.workers[w])
  {
    if a.Advance? {
      StatementTakesWanted(s, w, a.outcome, a.rid, maxAttempts);
      assert Holds(s.workers[v]) !! Holds(s.workers[w]) && !SameRowId(s.workers[v], s.workers[w]);
      assert Wants(s, s.workers[w]).Some? ==> Wants(s, s.workers[w]).value !in Holds(s.workers[v]);
    }
  }

  lemma InvKept(s: Database, w: nat, a: Action, maxAttempts: nat)
    requires Inv(s, maxAttempts) && Enabled(s, w, a)
    ensures Inv(Step(s, w, a, maxAttempts), maxAttempts)
  {
    var s' := Step(s, w, a, maxAttempts);
    forall v | v in s'.workers ensures Knows(s', s'.workers[v], maxAttempts) {
      KnowledgeKept(s, w, a, v, maxAttempts);
    }
    forall u, v | u in s'.workers && v in s'.workers && u != v
      ensures Holds(s'.workers[u]) !! Holds(s'.workers[v]) && !SameRowId(s'.workers[u], s'.workers[v])
    {
      if u == w {
        LocksStayApart(s, w, a, v, maxAttempts);
      } else if v == w {
        LocksStayApart(s, w, a, u, maxAttempts);
      } else {
        assert s'.workers[u] == s.workers[u] && s'.workers[v] == s.workers[v];
      }
    }
  }

  // ---------- every commit is one atomic decision ----------

  /** The atomic transactions of the protocol, as they act on the committed tables, and two entries that leave the
      tables alone: a statement that looks for an event row and finds none, and a rollback. */
  datatype Tx =
    | ProcessTx(event: HandledEvent, continuation: bool, outcome: HandlerOutcome, decision: Decision)
    | RecordTx(m: DeadMessage, rid: nat, overlooked: bool)
    | ReplayTx(letter: nat, overlooked: bool)
    | MissTx(id: string)
    | RollbackTx

  /** What `tx` may find when its worker has `missed` this event. Only a transaction that looked for its event in vain
      may leave an event alone; a letter without an event id has none to look for. */
  ghost predicate Possible(events: Events, dlq: DeadLetters, missed: Option<string>, tx: Tx, maxAttempts: nat) {
    match tx
    case ProcessTx(event, continuation, outcome, decision) =>
      decision == ProcessRow(events, event, continuation, maxAttempts, outcome).1
    case RecordTx(m, rid, overlooked) =>
      && !m.body.NullLiteral? && (rid !in dlq || Recorded(dlq, RowOf(m).messageId))
      && (if overlooked then RowOf(m).eventId == missed
          else RowOf(m).eventId.Some? && RowOf(m).eventId.value in events)
    case ReplayTx(letter, overlooked) =>
      && letter in dlq && NonEmpty(dlq[letter].eventId).Some? && RedriveOf(dlq[letter]).Some?
      && (if overlooked then dlq[letter].eventId == missed
          else ReplayOf(events, dlq, letter).Prepared? && dlq[letter].eventId.value in events)
    case MissTx(id) => id !in events
    case RollbackTx => true
  }

  ghost function Effect(events: Events, dlq: DeadLetters, tx: Tx, maxAttempts: nat): (Events, DeadLetters)
    requires tx.RecordTx? ==> !tx.m.body.NullLiteral?
    requires tx.ReplayTx? ==> tx.letter in dlq && dlq[tx.letter].eventId.Some?
  {
    match tx
    case ProcessTx(event, continuation, outcome, _) =>
      (events[event.eventId := ProcessRow(events, event, continuation, maxAttempts, outcome).0], dlq)
    case RecordTx(m, rid, overlooked) =>
      (if overlooked then events else MarkDead(events, RowOf(m).eventId), InsertLetter(dlq, rid, RowOf(m)))
    case ReplayTx(letter, overlooked) =>
      (if overlooked then events else ResetForReplay(events, dlq[letter].eventId.value),
       dlq[letter := dlq[letter].(replayed := true)])
    case _ => (events, dlq)
  }

  /** The atomic transaction a committable worker is about to perform. */
  ghost function TxOf(pc: Pc): Tx
    requires Committable(pc)
  {
    match pc
    case Decided(event, continuation, _, _, outcome, _, decision) => ProcessTx(event, continuation, outcome, decision)
    case Updated(m, rid, seen) => RecordTx(m, if rid.Some? then rid.value else 0, seen.None?)
    case Looked(letter, stored, seen) => ReplayTx(letter, seen.None?)
  }

  /** The event a transaction has looked for in vain. */
  function MissedBy(pc: Pc): Option<string> {
    match pc
    case Updated(m, _, seen) => if seen.None? && !m.body.NullLiteral? then RowOf(m).eventId else None
    case Looked(_, stored, seen) => if seen.None? then stored.eventId else None
    case _ => None
  }

  function Lookup(missed: map<nat, string>, w: nat): Option<string> {
    if w in missed then Some(missed[w]) else None
  }

  /** `missed` is what the open transactions have looked for in vain. */
  ghost predicate Misses(s: Database, missed: map<nat, string>) {
    forall w :: Lookup(missed, w) == if w in s.workers then MissedBy(s.workers[w]) else None
  }

  /** However the statements interleave, a commit acts as the whole transaction run at once on the tables as they
      are at the commit, with the decision the transaction already returned. */
  lemma CommitIsAtomic(s: Database, w: nat, missed: map<nat, string>, maxAttempts: nat)
    requires Inv(s, maxAttempts) && StillRecorded(s) && Enabled(s, w, Commit) && Misses(s, missed)
    ensures var s' := Step(s, w, Commit, maxAttempts);
            var tx := TxOf(s.workers[w]);
            && Possible(s.events, s.dlq, Lookup(missed, w), tx, maxAttempts)
            && (s'.events, s'.dlq) == Effect(s.events, s.dlq, tx, maxAttempts)
  {
    assert Knows(s, s.workers[w], maxAttempts);
    assert Lookup(missed, w) == MissedBy(s.workers[w]);
  }

  datatype Move = Move(worker: nat, action: Action)

  ghost predicate Interleaves(s: Database, moves: seq<Move>, maxAttempts: nat)
    decreases |moves|
  {
    moves == [] ||
    (Enabled(s, moves[0].worker, moves[0].action)
     && Interleaves(Step(s, moves[0].worker, moves[0].action, maxAttempts), moves[1..], maxAttempts))
  }

  ghost function Outcome(s: Database, moves: seq<Move>, maxAttempts: nat): Database
    requires Interleaves(s, moves, maxAttempts)
    decreases |moves|
  {
    if moves == [] then s
    else Outcome(Step(s, moves[0].worker, moves[0].action, maxAttempts), moves[1..], maxAttempts)
  }

  datatype Entry = Entry(worker: nat, tx: Tx)

  /** What one move adds to the history. */
  ghost function EntryOf(s: Database, move: Move, maxAttempts: nat): Option<Tx>
    requires Enabled(s, move.worker, move.action)
  {
    match move.action
    case Commit => Some(TxOf(s.workers[move.worker]))
    case Abort => Some(RollbackTx)
    case Advance(_, _) =>
      var missed := MissedBy(Step(s, move.worker, move.action, maxAttempts).workers[move.worker]);
      if missed.Some? then Some(MissTx(missed.value)) else None
    case Begin(_) => None
  }

  /** The history of an interleaving: commits, misses and rollbacks in the order in which they happen. */
  ghost function History(s: Database, moves: seq<Move>, maxAttempts: nat): seq<Entry>
    requires Interleaves(s, moves, maxAttempts)
    decreases |moves|
  {
    if moves == [] then []
    else
      var entry := EntryOf(s, moves[0], maxAttempts);
      (if entry.Some? then [Entry(moves[0].worker, entry.value)] else [])
      + History(Step(s, moves[0].worker, moves[0].action, maxAttempts), moves[1..], maxAttempts)
  }

  function MissedAfter(missed: map<nat, string>, e: Entry): map<nat, string> {
    if e.tx.MissTx? then missed[e.worker := e.tx.id] else missed - {e.worker}
  }

  /** Running the entries one after the other, each at once, takes the tables from the first pair to the second. */
  ghost predicate Serially(events: Events, dlq: DeadLetters, missed: map<nat, string>, entries: seq<Entry>,
                           events': Events, dlq': DeadLetters, maxAttempts: nat)
    decreases |entries|
  {
    if entries == [] then events == events' && dlq == dlq'
    else
      && Possible(events, dlq, Lookup(missed, entries[0].worker), entries[0].tx, maxAttempts)
      && var (e, d) := Effect(events, dlq, entries[0].tx, maxAttempts);
         Serially(e, d, MissedAfter(missed, entries[0]), entries[1..], events', dlq', maxAttempts)
  }

  /** A statement that finds no event row was run when there was none. */
  lemma MissesAreTrue(s: Database, w: nat, outcome: HandlerOutcome, rid: nat, maxAttempts: nat)
    requires Inv(s, maxAttempts) && Enabled(s, w, Advance(outcome, rid))
    ensures MissedBy(s.workers[w]) == None
    ensures var pc := Statement(s, s.workers[w], outcome, rid, maxAttempts);
            MissedBy(pc).Some? ==> MissedBy(pc).value !in s.events
  {
    assert Knows(s, s.workers[w], maxAttempts);
  }

  lemma MissesKept(s: Database, move: Move, missed: map<nat, string>, maxAttempts: nat)
    requires Inv(s, maxAttempts) && Enabled(s, move.worker, move.action) && Misses(s, missed)
    ensures var entry := EntryOf(s, move, maxAttempts);
            Misses(Step(s, move.worker, move.action, maxAttempts),
                   if entry.Some? then MissedAfter(missed, Entry(move.worker, entry.value)) else missed)
  {
    var Move(w, a) := move;
    assert Lookup(missed, w) == if w in s.workers then MissedBy(s.workers[w]) else None;
    if a.Advance? {
      MissesAreTrue(s, w, a.outcome, a.rid, maxAttempts);
    }
    var entry := EntryOf(s, move, maxAttempts);
    var missed' := if entry.Some? then MissedAfter(missed, Entry(w, entry.value)) else missed;
    var s' := Step(s, w, a, maxAttempts);
    forall v ensures Lookup(missed', v) == if v in s'.workers then MissedBy(s'.workers[v]) else None {
      assert Lookup(missed, v) == if v in s.workers then MissedBy(s.workers[v]) else None;
    }
  }

  /** Refinement: any interleaving of any number of workers' statements, commits and aborts leaves the tables as its
      transactions would, run one at a time in commit order, with the same decisions; and a transaction leaves its event
      alone only if the row was missing when it looked. */
  lemma {:induction false} InterleavingsAreSerial(s: Database, moves: seq<Move>, missed: map<nat, string>,
                                                  maxAttempts: nat)
    requires Inv(s, maxAttempts) && StillRecorded(s) && Interleaves(s, moves, maxAttempts) && Misses(s, missed)
    ensures var t := Outcome(s, moves, maxAttempts);
            && Inv(t, maxAttempts) && StillRecorded(t)
            && Serially(s.events, s.dlq, missed, History(s, moves, maxAttempts), t.events, t.dlq, maxAttempts)
    decreases |moves|
  {
    if moves != [] {
      var Move(w, a) := moves[0];
      var s' := Step(s, w, a, maxAttempts);
      var entry := EntryOf(s, moves[0], maxAttempts);
      InvKept(s, w, a, maxAttempts);
      StillRecordedKept(s, w, a, maxAttempts);
      MissesKept(s, moves[0], missed, maxAttempts);
      if entry.Some? {
        InterleavingsAreSerial(s', moves[1..], MissedAfter(missed, Entry(w, entry.value)), maxAttempts);
        assert History(s, moves, maxAttempts)[1..] == History(s', moves[1..], maxAttempts);
        EntryActs(s, moves[0], missed, maxAttempts);
      } else {
        InterleavingsAreSerial(s', moves[1..], missed, maxAttempts);
        assert History(s, moves, maxAttempts) == History(s', moves[1..], maxAttempts);
      }
    }
  }

  lemma EntryActs(s: Database, move: Move, missed: map<nat, string>, maxAttempts: nat)
    requires Inv(s, maxAttempts) && StillRecorded(s) && Enabled(s, move.worker, move.action) && Misses(s, missed)
    requires EntryOf(s, move, maxAttempts).Some?
    ensures var tx := EntryOf(s, move, maxAttempts).value;
            var s' := Step(s, move.worker, move.action, maxAttempts);
            && Possible(s.events, s.dlq, Lookup(missed, move.worker), tx, maxAttempts)
            && (s'.events, s'.dlq) == Effect(s.events, s.dlq, tx, maxAttempts)
  {
    if move.action.Commit? {
      CommitIsAtomic(s, move.worker, missed, maxAttempts);
    } else if move.action.Advance? {
      MissesAreTrue(s, move.worker, move.action.outcome, move.action.rid, maxAttempts);
    }
  }

  /** Starting from idle workers, a claim has succeeded exactly when no committed row exists for its event, from the
      insert to the commit; and the row a transaction then selects for update is never missing. */
  lemma ClaimsAreExact(s: Database, moves: seq<Move>, w: nat, maxAttempts: nat)
    requires s.workers == map[] && Interleaves(s, moves, maxAttempts)
    requires var t := Outcome(s, moves, maxAttempts);
             && w in t.workers
             && (t.workers[w].Claimed? || t.workers[w].Locked? || t.workers[w].Marked? || t.workers[w].Decided?)
    ensures var t := Outcome(s, moves, maxAttempts);
            && (t.workers[w].claimed <==> t.workers[w].event.eventId !in t.events)
            && (t.workers[w].Claimed? && !Blocked(t, w) ==>
                  forall outcome, rid :: Enabled(t, w, Advance(outcome, rid)))
  {
    InterleavingsAreSerial(s, moves, map[], maxAttempts);
    var t := Outcome(s, moves, maxAttempts);
    assert Knows(t, t.workers[w], maxAttempts);
  }

  // ---------- deadlock freedom ----------

  ghost predicate Waits(s: Database, u: nat, v: nat) {
    && u in s.workers && v in s.workers && u != v
    && Wants(s, s.workers[u]).Some? && Wants(s, s.workers[u]).value in Holds(s.workers[v])
  }

  /** Letters are locked before events: a transaction's rank is the last kind of lock it holds. */
  ghost function Rank(pc: Pc): nat {
    if exists id :: EventRowLock(id) in Holds(pc) then 2
    else if Holds(pc) != {} then 1
    else 0
  }

  lemma WaitingGoesUp(s: Database, u: nat, v: nat, maxAttempts: nat)
    requires Inv(s, maxAttempts) && Waits(s, u, v)
    ensures Rank(s.workers[u]) < Rank(s.workers[v])
  {
    var r := Wants(s, s.workers[u]).value;
    assert Knows(s, s.workers[u], maxAttempts) && Knows(s, s.workers[v], maxAttempts);
    assert r in Holds(s.workers[v]);
    if r.EventRowLock? {
      assert Rank(s.workers[v]) == 2;
    }
    assert forall id :: EventRowLock(id) !in Holds(s.workers[u]);
  }

  /** No set of transactions waits in a circle. */
  lemma NoWaitingCircle(s: Database, ws: seq<nat>, maxAttempts: nat)
    requires Inv(s, maxAttempts) && |ws| >= 1
    requires forall i | 0 <= i < |ws| - 1 :: Waits(s, ws[i], ws[i + 1])
    ensures !Waits(s, ws[|ws| - 1], ws[0])
  {
    if Waits(s, ws[|ws| - 1], ws[0]) {
      RanksRise(s, ws, maxAttempts);
      WaitingGoesUp(s, ws[|ws| - 1], ws[0], maxAttempts);
    }
  }

  lemma {:induction false} RanksRise(s: Database, ws: seq<nat>, maxAttempts: nat)
    requires Inv(s, maxAttempts) && |ws| >= 1 && ws[0] in s.workers
    requires forall i | 0 <= i < |ws| - 1 :: Waits(s, ws[i], ws[i + 1])
    ensures ws[|ws| - 1] in s.workers
    ensures Rank(s.workers[ws[|ws| - 1]]) >= Rank(s.workers[ws[0]]) + |ws| - 1
  {
    if |ws| > 1 {
      var init := ws[..|ws| - 1];
      assert forall i | 0 <= i < |init| - 1 :: Waits(s, ws[i], ws[i + 1]);
      RanksRise(s, init, maxAttempts);
      assert Waits(s, ws[|ws| - 2], ws[|ws| - 1]);
      WaitingGoesUp(s, ws[|ws| - 2], ws[|ws| - 1], maxAttempts);
    }
  }

  /** Whenever a transaction is open, one can make its next statement or commit: the one at the end of the line. */
  lemma {:induction false} SomeoneCanGoOn(s: Database, w: nat, maxAttempts: nat) returns (v: nat, a: Action)
    requires Inv(s, maxAttempts) && w in s.workers && !s.workers[w].Idle?
    ensures Enabled(s, v, a) && (a.Advance? || a.Commit?)
    decreases 2 - Rank(s.workers[w])
  {
    var pc := s.workers[w];
    assert Knows(s, pc, maxAttempts);
    if Committable(pc) {
      v, a := w, Commit;
    } else if Blocked(s, w) {
      var u :| u in s.workers && u != w && Wants(s, pc).value in Holds(s.workers[u]);
      WaitingGoesUp(s, w, u, maxAttempts);
      v, a := SomeoneCanGoOn(s, u, maxAttempts);
    } else {
      var rid := UnusedRowId(s);
      v, a := w, Advance(Succeeds, rid);
    }
  }

  lemma UnusedRowId(s: Database) returns (rid: nat)
    ensures Unused(s, rid)
  {
    var pending := set w | w in s.workers && (s.workers[w].Inserted? || s.workers[w].Updated?)
                           && s.workers[w].rid.Some? :: s.workers[w].rid.value;
    rid := Bounded(s.dlq.Keys + pending);
    forall w | w in s.workers && (s.workers[w].Inserted? || s.workers[w].Updated?)
      ensures s.workers[w].rid != Some(rid)
    {
      assert s.workers[w].rid.Some? ==> s.workers[w].rid.value in pending;
    }
  }
}
