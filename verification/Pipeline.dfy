/** The walk of a token through the pipeline diagram, derived from its stage history. */
module Pipeline {
  import opened Wrappers
  import opened Messaging
  import opened Telemetry

  datatype Node =
    | Post | Guard | Validate | Exchange | WorkQueue | Worker | Postgres | Retry5s | Retry30s | Retry2min | Dlq

  datatype Color =
    | ColorReceived | ColorSignature | ColorRejected | ColorMalformed | ColorPublished | ColorUnavailable
    | ColorConsuming | ColorDecision | ColorProcessed | ColorDuplicate | ColorRetry | ColorDead

  datatype StageMark = StageMark(stage: Stage, attempts: Option<int>)

  datatype PathStep = PathStep(node: Node, color: Color)

  const MAIN_ROW: seq<Node> := [Post, Guard, Validate, Exchange, WorkQueue, Worker, Postgres]

  function MainIndex(n: Node): (i: int)
    ensures -1 <= i < |MAIN_ROW|
    ensures i >= 0 ==> MAIN_ROW[i] == n
  {
    match n
    case Post => 0
    case Guard => 1
    case Validate => 2
    case Exchange => 3
    case WorkQueue => 4
    case Worker => 5
    case Postgres => 6
    case _ => -1
  }

  predicate IsRetryNode(n: Node) {
    n.Retry5s? || n.Retry30s? || n.Retry2min?
  }

  function RetryNode(t: Tier): Node {
    match t
    case FiveSeconds => Retry5s
    case ThirtySeconds => Retry30s
    case TwoMinutes => Retry2min
  }

  function NodeOf(e: StageMark): Node {
    match e.stage
    case StageReceived => Post
    case SignatureVerified => Guard
    case Rejected => Guard
    case Malformed => Validate
    case Published => Exchange
    case Injected => Exchange
    case Unavailable => Exchange
    case Consuming => Worker
    case ProcessingDecision => Worker
    case StageProcessed => Postgres
    case StageDuplicate => Worker
    case StageDead => Dlq
    case StageRetry => RetryNode(TierOf(if e.attempts.Some? then e.attempts.value else 1))
  }

  function ColorOf(s: Stage): Color {
    match s
    case StageReceived => ColorReceived
    case SignatureVerified => ColorSignature
    case Rejected => ColorRejected
    case Malformed => ColorMalformed
    case Published => ColorPublished
    case Injected => ColorPublished
    case Unavailable => ColorUnavailable
    case Consuming => ColorConsuming
    case ProcessingDecision => ColorDecision
    case StageProcessed => ColorProcessed
    case StageDuplicate => ColorDuplicate
    case StageRetry => ColorRetry
    case StageDead => ColorDead
  }

  predicate SkipsBoxes(from: Node, to: Node) {
    MainIndex(from) != -1 && MainIndex(to) > MainIndex(from) + 1
  }

  /** The nodes a token passes between two of its stages without a stage of its own there. */
  function Fillers(from: Node, to: Node): seq<Node> {
    if SkipsBoxes(from, to) then MAIN_ROW[MainIndex(from) + 1..MainIndex(to)]
    else if IsRetryNode(from) && to == Postgres then [Worker]
    else []
  }

  function Painted(nodes: seq<Node>, color: Color): seq<PathStep> {
    seq(|nodes|, i requires 0 <= i < |nodes| => PathStep(nodes[i], color))
  }

  lemma PaintOne(row: seq<Node>, lo: nat, hi: nat, color: Color)
    requires lo <= hi < |row|
    ensures Painted(row[lo..hi + 1], color) == Painted(row[lo..hi], color) + [PathStep(row[hi], color)]
  {
  }

  /** The path once one more stage has been walked. */
  function Extend(path: seq<PathStep>, e: StageMark): seq<PathStep> {
    var step := PathStep(NodeOf(e), ColorOf(e.stage));
    if path == [] then [step]
    else
      var tail := path[|path| - 1];
      if tail.node == step.node then path[..|path| - 1] + [step]
      else path + Painted(Fillers(tail.node, step.node), tail.color) + [step]
  }

  function Walk(stages: seq<StageMark>): seq<PathStep> {
    if stages == [] then [] else Extend(Walk(stages[..|stages| - 1]), stages[|stages| - 1])
  }

  function PathSpec(stages: seq<StageMark>): seq<PathStep> {
    if stages == [] then [PathStep(Post, ColorReceived)] else Walk(stages)
  }

  /** One turn of the loop: overwrite the tail, or splice in the skipped boxes and push. */
  method WalkOn(path: seq<PathStep>, event: StageMark) returns (longer: seq<PathStep>)
    ensures longer == Extend(path, event)
  {
    var node, color := NodeOf(event), ColorOf(event.stage);
    if path == [] {
      return [PathStep(node, color)];
    }
    var tail := path[|path| - 1];
    if tail.node == node {
      return path[|path| - 1 := PathStep(node, color)];
    }
    longer := path;
    var from, to := MainIndex(tail.node), MainIndex(node);
    if from != -1 && to > from + 1 {
      var k := from + 1;
      while k < to
        invariant from + 1 <= k <= to
        invariant longer == path + Painted(MAIN_ROW[from + 1..k], tail.color)
      {
        PaintOne(MAIN_ROW, from + 1, k, tail.color);
        longer := longer + [PathStep(MAIN_ROW[k], tail.color)];
        k := k + 1;
      }
    } else if IsRetryNode(tail.node) && node == Postgres {
      longer := longer + [PathStep(Worker, tail.color)];
    }
    assert longer == path + Painted(Fillers(tail.node, node), tail.color);
    longer := longer + [PathStep(node, color)];
  }

  method PathOf(stages: seq<StageMark>) returns (path: seq<PathStep>)
    ensures path == PathSpec(stages)
  {
    path := [];
    for n := 0 to |stages|
      invariant path == Walk(stages[..n])
    {
      assert stages[..n + 1][..n] == stages[..n];
      path := WalkOn(path, stages[n]);
    }
    assert stages[..|stages|] == stages;
    if path == [] {
      path := [PathStep(Post, ColorReceived)];
    }
  }

  // ---------- what a path is ----------

  lemma WalkEndsAtLast(stages: seq<StageMark>)
    requires stages != []
    ensures Walk(stages) != []
    ensures var last := stages[|stages| - 1];
            Walk(stages)[|Walk(stages)| - 1] == PathStep(NodeOf(last), ColorOf(last.stage))
  {
  }

  /** A move between two neighbours of a path: to another node, never forward over a main-row node, and never from a
      retry box to the database without passing the worker. */
  ghost predicate SoundMove(a: Node, b: Node) {
    && a != b
    && (MainIndex(a) != -1 && MainIndex(b) > MainIndex(a) ==> MainIndex(b) == MainIndex(a) + 1)
    && (IsRetryNode(a) ==> b != Postgres)
  }

  ghost predicate Sound(path: seq<PathStep>) {
    forall i | 0 < i < |path| :: SoundMove(path[i - 1].node, path[i].node)
  }

  lemma MainRowIndices(j: nat)
    requires j < |MAIN_ROW|
    ensures MainIndex(MAIN_ROW[j]) == j
  {
  }

  lemma RowSlice(lo: nat, hi: nat, j: nat)
    requires lo + j < hi <= |MAIN_ROW|
    ensures MainIndex(MAIN_ROW[lo..hi][j]) == lo + j
  {
    MainRowIndices(lo + j);
  }

  /** Across a gap on the main row the fillers and both ends stand at consecutive indices. */
  lemma FillersAreConsecutive(from: Node, to: Node, i: nat)
    requires SkipsBoxes(from, to) && i <= |Fillers(from, to)| + 1
    ensures MainIndex(([from] + Fillers(from, to) + [to])[i]) == MainIndex(from) + i
  {
    var fill := Fillers(from, to);
    if i == 0 {
      assert ([from] + fill + [to])[i] == from;
    } else if i <= |fill| {
      assert ([from] + fill + [to])[i] == fill[i - 1];
      RowSlice(MainIndex(from) + 1, MainIndex(to), i - 1);
    } else {
      assert ([from] + fill + [to])[i] == to;
    }
  }

  /** Between two different nodes, every move over the fillers is sound. */
  lemma FillersAreSound(from: Node, to: Node, i: nat)
    requires from != to && 0 < i <= |Fillers(from, to)| + 1
    ensures var hops := [from] + Fillers(from, to) + [to]; SoundMove(hops[i - 1], hops[i])
  {
    var hops := [from] + Fillers(from, to) + [to];
    if SkipsBoxes(from, to) {
      FillersAreConsecutive(from, to, i - 1);
      FillersAreConsecutive(from, to, i);
    } else if IsRetryNode(from) && to == Postgres {
      assert hops == [from, Worker, Postgres];
    } else {
      assert hops == [from, to];
    }
  }

  /** Two sound walks that meet in a step are sound as one. */
  lemma WalksJoin(path: seq<PathStep>, more: seq<PathStep>)
    requires Sound(path) && Sound(more) && path != [] && more != [] && path[|path| - 1] == more[0]
    ensures Sound(path + more[1..])
  {
    var joined := path + more[1..];
    forall i | 0 < i < |joined| ensures SoundMove(joined[i - 1].node, joined[i].node) {
      if i < |path| {
        assert SoundMove(path[i - 1].node, path[i].node);
      } else {
        var j := i - |path| + 1;
        assert joined[i] == more[j] && joined[i - 1] == more[j - 1];
        assert SoundMove(more[j - 1].node, more[j].node);
      }
    }
  }

  lemma HopIsSound(tail: PathStep, step: PathStep)
    requires tail.node != step.node
    ensures Sound([tail] + Painted(Fillers(tail.node, step.node), tail.color) + [step])
  {
    var fill := Fillers(tail.node, step.node);
    var hops, walk := [tail.node] + fill + [step.node], [tail] + Painted(fill, tail.color) + [step];
    forall i | 0 < i < |walk| ensures SoundMove(walk[i - 1].node, walk[i].node) {
      FillersAreSound(tail.node, step.node, i);
      assert walk[i - 1].node == hops[i - 1] && walk[i].node == hops[i];
    }
  }

  lemma ExtendIsSound(path: seq<PathStep>, e: StageMark)
    requires Sound(path)
    ensures Sound(Extend(path, e))
  {
    if path != [] {
      var tail, step := path[|path| - 1], PathStep(NodeOf(e), ColorOf(e.stage));
      if tail.node != step.node {
        var hop := [tail] + Painted(Fillers(tail.node, step.node), tail.color) + [step];
        HopIsSound(tail, step);
        WalksJoin(path, hop);
        assert path + hop[1..] == Extend(path, e);
      } else {
        var same := Extend(path, e);
        forall i | 0 < i < |same| ensures SoundMove(same[i - 1].node, same[i].node) {
          assert SoundMove(path[i - 1].node, path[i].node);
        }
      }
    }
  }

  /** The walk is gap-free: it never stands still, and on the main row it moves forward one box at a time. */
  lemma {:induction false} WalksAreSound(stages: seq<StageMark>)
    ensures Sound(PathSpec(stages)) && PathSpec(stages) != []
  {
    if stages != [] {
      var init := stages[..|stages| - 1];
      WalksAreSound(init);
      ExtendIsSound(Walk(init), stages[|stages| - 1]);
    }
  }

  // ---------- nothing but fillers is added ----------

  /** A path node sequence with one more node, unless it is already there. */
  function Visit(ns: seq<Node>, n: Node): seq<Node> {
    if ns != [] && ns[|ns| - 1] == n then ns else ns + [n]
  }

  /** A sequence without its immediate repetitions. */
  function Destutter(ns: seq<Node>): seq<Node> {
    if ns == [] then [] else Visit(Destutter(ns[..|ns| - 1]), ns[|ns| - 1])
  }

  function NodesOf(stages: seq<StageMark>): seq<Node> {
    seq(|stages|, i requires 0 <= i < |stages| => NodeOf(stages[i]))
  }

  /** Which steps of an extended path are stages of the token's own rather than fillers. */
  function OwnExtended(path: seq<PathStep>, own: seq<bool>, e: StageMark): seq<bool> {
    if path == [] then [true]
    else if path[|path| - 1].node == NodeOf(e) then own
    else own + seq(|Fillers(path[|path| - 1].node, NodeOf(e))|, _ => false) + [true]
  }

  function Own(stages: seq<StageMark>): seq<bool> {
    if stages == [] then []
    else
      var init := stages[..|stages| - 1];
      OwnExtended(Walk(init), Own(init), stages[|stages| - 1])
  }

  function Keep(path: seq<PathStep>, own: seq<bool>): seq<Node>
    requires |path| == |own|
  {
    if path == [] then []
    else
      Keep(path[..|path| - 1], own[..|path| - 1]) + (if own[|path| - 1] then [path[|path| - 1].node] else [])
  }

  lemma {:induction false} KeepConcat(a: seq<PathStep>, ra: seq<bool>, b: seq<PathStep>, rb: seq<bool>)
    requires |a| == |ra| && |b| == |rb|
    ensures Keep(a + b, ra + rb) == Keep(a, ra) + Keep(b, rb)
  {
    if b == [] {
      assert a + b == a && ra + rb == ra;
    } else {
      var n := |b| - 1;
      assert (a + b)[..|a + b| - 1] == a + b[..n] && (ra + rb)[..|a + b| - 1] == ra + rb[..n];
      KeepConcat(a, ra, b[..n], rb[..n]);
    }
  }

  lemma {:induction false} KeepNone(path: seq<PathStep>)
    ensures Keep(path, seq(|path|, _ => false)) == []
  {
    if path != [] {
      var n := |path| - 1;
      assert seq(|path|, _ => false)[..n] == seq(n, _ => false);
      KeepNone(path[..n]);
    }
  }

  lemma {:induction false} KeepSameNodes(a: seq<PathStep>, b: seq<PathStep>, own: seq<bool>)
    requires |a| == |b| == |own| && forall i | 0 <= i < |a| :: a[i].node == b[i].node
    ensures Keep(a, own) == Keep(b, own)
  {
    if a != [] {
      KeepSameNodes(a[..|a| - 1], b[..|a| - 1], own[..|a| - 1]);
    }
  }

  lemma KeepExtended(path: seq<PathStep>, own: seq<bool>, fill: seq<PathStep>, step: PathStep)
    requires |path| == |own|
    ensures var none := seq(|fill|, _ => false);
            Keep(path + fill + [step], own + none + [true]) == Keep(path, own) + [step.node]
  {
    var none := seq(|fill|, _ => false);
    KeepConcat(path + fill, own + none, [step], [true]);
    KeepConcat(path, own, fill, none);
    KeepNone(fill);
    assert [step][..0] == [];
    assert Keep([step], [true]) == [] + [step.node];
  }

  lemma ExtendKeeps(path: seq<PathStep>, own: seq<bool>, e: StageMark)
    requires |path| == |own|
    requires path != [] ==> Keep(path, own) != [] && Keep(path, own)[|Keep(path, own)| - 1] == path[|path| - 1].node
    ensures |Extend(path, e)| == |OwnExtended(path, own, e)|
    ensures Keep(Extend(path, e), OwnExtended(path, own, e)) == Visit(Keep(path, own), NodeOf(e))
  {
    var step := PathStep(NodeOf(e), ColorOf(e.stage));
    if path == [] {
      KeepExtended([], [], [], step);
      assert [] + [] + [step] == [step] && [] + seq(0, _ => false) + [true] == [true];
    } else {
      var tail := path[|path| - 1];
      if tail.node == step.node {
        KeepSameNodes(Extend(path, e), path, own);
      } else {
        KeepExtended(path, own, Painted(Fillers(tail.node, step.node), tail.color), step);
      }
    }
  }

  /** A filler step keeps the colour of the step before it: the ball changes colour only where a stage says so. */
  ghost predicate FillersInherit(path: seq<PathStep>, own: seq<bool>) {
    && |path| == |own|
    && (path != [] ==> own[0] && own[|own| - 1])
    && forall i | 0 < i < |path| :: !own[i] ==> path[i].color == path[i - 1].color
  }

  lemma ExtendInherits(path: seq<PathStep>, own: seq<bool>, e: StageMark)
    requires FillersInherit(path, own)
    ensures FillersInherit(Extend(path, e), OwnExtended(path, own, e))
  {
    if path != [] && path[|path| - 1].node != NodeOf(e) {
      var tail := path[|path| - 1];
      var fill := Painted(Fillers(tail.node, NodeOf(e)), tail.color);
      var longer := Extend(path, e);
      assert forall i | |path| - 1 <= i < |path| + |fill| :: longer[i].color == tail.color;
    }
  }

  lemma {:induction false} FillersInheritTheColor(stages: seq<StageMark>)
    ensures FillersInherit(Walk(stages), Own(stages))
  {
    if stages != [] {
      var init := stages[..|stages| - 1];
      FillersInheritTheColor(init);
      ExtendInherits(Walk(init), Own(init), stages[|stages| - 1]);
    }
  }

  lemma DestutterOne(stages: seq<StageMark>)
    requires stages != []
    ensures Destutter(NodesOf(stages))
         == Visit(Destutter(NodesOf(stages[..|stages| - 1])), NodeOf(stages[|stages| - 1]))
  {
    assert NodesOf(stages)[..|stages| - 1] == NodesOf(stages[..|stages| - 1]);
  }

  lemma DestutterEnds(stages: seq<StageMark>)
    requires stages != []
    ensures var ns := Destutter(NodesOf(stages)); ns != [] && ns[|ns| - 1] == NodeOf(stages[|stages| - 1])
  {
    DestutterOne(stages);
  }

  /** Erasing the filler steps of a walk leaves the token's own stages, each box once per visit. */
  lemma {:induction false} FillersErased(stages: seq<StageMark>)
    ensures |Own(stages)| == |Walk(stages)|
    ensures Keep(Walk(stages), Own(stages)) == Destutter(NodesOf(stages))
  {
    if stages != [] {
      var n := |stages| - 1;
      var init := stages[..n];
      FillersErased(init);
      if init != [] {
        WalkEndsAtLast(init);
        DestutterEnds(init);
      }
      ExtendKeeps(Walk(init), Own(init), stages[n]);
      DestutterOne(stages);
    }
  }

  // ---------- which boxes a token visits ----------

  function PathNodes(path: seq<PathStep>): seq<Node> {
    seq(|path|, i requires 0 <= i < |path| => path[i].node)
  }

  /** The boxes of an extended walk depend on those of the walk only. */
  lemma NodesOfExtended(path: seq<PathStep>, e: StageMark)
    requires path != []
    ensures var tail := path[|path| - 1].node;
            PathNodes(Extend(path, e)) ==
              if tail == NodeOf(e) then PathNodes(path)
              else PathNodes(path) + Fillers(tail, NodeOf(e)) + [NodeOf(e)]
  {
  }

  predicate Visits(path: seq<PathStep>, n: Node) {
    n in PathNodes(path)
  }

  ghost predicate Reaches(stages: seq<StageMark>, n: Node) {
    exists i | 0 <= i < |stages| :: NodeOf(stages[i]) == n
  }

  /** The boxes that no token passes without a stage of its own there. */
  predicate IsOwnBox(n: Node) {
    n == Postgres || n == Dlq || n == Retry5s || n == Retry30s || n == Retry2min
  }

  lemma FillersAvoidOwnBoxes(from: Node, to: Node)
    ensures forall n :: n in Fillers(from, to) ==> !IsOwnBox(n)
  {
    if SkipsBoxes(from, to) {
      forall i | 0 <= i < |Fillers(from, to)| ensures !IsOwnBox(Fillers(from, to)[i]) {
        RowSlice(MainIndex(from) + 1, MainIndex(to), i);
      }
    }
  }

  lemma VisitsMore(path: seq<PathStep>, e: StageMark, n: Node)
    requires path != [] && IsOwnBox(n)
    ensures Visits(Extend(path, e), n) <==> Visits(path, n) || NodeOf(e) == n
  {
    NodesOfExtended(path, e);
    var tail := path[|path| - 1].node;
    FillersAvoidOwnBoxes(tail, NodeOf(e));
    assert PathNodes(path)[|path| - 1] == tail;
  }

  lemma ReachesMore(stages: seq<StageMark>, e: StageMark, n: Node)
    ensures Reaches(stages + [e], n) <==> Reaches(stages, n) || NodeOf(e) == n
  {
    var all := stages + [e];
    if Reaches(stages, n) {
      var i :| 0 <= i < |stages| && NodeOf(stages[i]) == n;
      assert all[i] == stages[i];
    }
    assert all[|stages|] == e;
  }

  lemma FirstBox(e: StageMark)
    ensures PathNodes(Walk([e])) == [NodeOf(e)]
  {
    assert [e][..0] == [];
  }

  lemma {:induction false} WalkVisits(stages: seq<StageMark>, n: Node)
    requires IsOwnBox(n)
    ensures Visits(Walk(stages), n) <==> Reaches(stages, n)
  {
    if stages != [] {
      var init, last := stages[..|stages| - 1], stages[|stages| - 1];
      assert stages == init + [last];
      WalkVisits(init, n);
      ReachesMore(init, last, n);
      if init == [] {
        FirstBox(last);
      } else {
        WalkEndsAtLast(init);
        VisitsMore(Walk(init), last, n);
      }
    }
  }

  lemma PathVisits(stages: seq<StageMark>, n: Node)
    requires IsOwnBox(n)
    ensures Visits(PathSpec(stages), n) <==> Reaches(stages, n)
  {
    WalkVisits(stages, n);
  }

  ghost predicate HasStage(stages: seq<StageMark>, stage: Stage) {
    exists i | 0 <= i < |stages| :: stages[i].stage == stage
  }

  /** Some attempt of the token was routed to a queue of that TTL. */
  ghost predicate HasRetryOf(stages: seq<StageMark>, ttlMs: nat) {
    exists i | 0 <= i < |stages| ::
      stages[i].stage == StageRetry
      && RetryTierForAttempt(if stages[i].attempts.Some? then stages[i].attempts.value else 1).ttlMs == ttlMs
  }

  /** A token visits the database if and only if it was processed, the dead-letter box if and only if it died, and a
      retry box if and only if one of its attempts was routed to the queue of that TTL. */
  lemma TokensVisitTheirOwnBoxes(stages: seq<StageMark>)
    ensures Visits(PathSpec(stages), Postgres) <==> HasStage(stages, StageProcessed)
    ensures Visits(PathSpec(stages), Dlq) <==> HasStage(stages, StageDead)
    ensures Visits(PathSpec(stages), Retry5s) <==> HasRetryOf(stages, 5_000)
    ensures Visits(PathSpec(stages), Retry30s) <==> HasRetryOf(stages, 30_000)
    ensures Visits(PathSpec(stages), Retry2min) <==> HasRetryOf(stages, 120_000)
  {
    PathVisits(stages, Postgres);
    PathVisits(stages, Dlq);
    PathVisits(stages, Retry5s);
    PathVisits(stages, Retry30s);
    PathVisits(stages, Retry2min);
    forall i | 0 <= i < |stages| ensures StageOfItsBox(stages[i]) {
    }
    ReachedByStage(stages, Postgres, StageProcessed);
    ReachedByStage(stages, Dlq, StageDead);
    ReachedByRetry(stages, Retry5s, 5_000);
    ReachedByRetry(stages, Retry30s, 30_000);
    ReachedByRetry(stages, Retry2min, 120_000);
  }

  predicate SelectsTtl(e: StageMark, ttlMs: nat) {
    e.stage == StageRetry && RetryTierForAttempt(if e.attempts.Some? then e.attempts.value else 1).ttlMs == ttlMs
  }

  predicate StageOfItsBox(e: StageMark) {
    && (NodeOf(e) == Postgres <==> e.stage == StageProcessed)
    && (NodeOf(e) == Dlq <==> e.stage == StageDead)
    && (NodeOf(e) == Retry5s <==> SelectsTtl(e, 5_000))
    && (NodeOf(e) == Retry30s <==> SelectsTtl(e, 30_000))
    && (NodeOf(e) == Retry2min <==> SelectsTtl(e, 120_000))
  }

  lemma ReachedByStage(stages: seq<StageMark>, n: Node, stage: Stage)
    requires forall i | 0 <= i < |stages| :: NodeOf(stages[i]) == n <==> stages[i].stage == stage
    ensures Reaches(stages, n) <==> HasStage(stages, stage)
  {
  }

  lemma ReachedByRetry(stages: seq<StageMark>, n: Node, ttlMs: nat)
    requires forall i | 0 <= i < |stages| :: NodeOf(stages[i]) == n <==> SelectsTtl(stages[i], ttlMs)
    ensures Reaches(stages, n) <==> HasRetryOf(stages, ttlMs)
  {
  }

  /** Where a token stands, and in which colour, after its last stage. */
  lemma WalkEndsInTheStagesBox(stages: seq<StageMark>)
    requires stages != []
    ensures var last, end := stages[|stages| - 1].stage, Walk(stages)[|Walk(stages)| - 1];
            && (last == StageReceived ==> end == PathStep(Post, ColorReceived))
            && (last == SignatureVerified ==> end == PathStep(Guard, ColorSignature))
            && (last == Rejected ==> end == PathStep(Guard, ColorRejected))
            && (last == Malformed ==> end == PathStep(Validate, ColorMalformed))
            && (last == Published || last == Injected ==> end == PathStep(Exchange, ColorPublished))
            && (last == Unavailable ==> end == PathStep(Exchange, ColorUnavailable))
            && (last == Consuming ==> end == PathStep(Worker, ColorConsuming))
            && (last == ProcessingDecision ==> end == PathStep(Worker, ColorDecision))
            && (last == StageDuplicate ==> end == PathStep(Worker, ColorDuplicate))
            && (last == StageProcessed ==> end == PathStep(Postgres, ColorProcessed))
            && (last == StageDead ==> end == PathStep(Dlq, ColorDead))
            && (last == StageRetry ==> IsRetryNode(end.node) && end.color == ColorRetry)
  {
    WalkEndsAtLast(stages);
  }

  /** One more stage of a walk along known boxes: `e` stands in `to`, and `between` lies on the way there. */
  lemma OneBoxOn(stages: seq<StageMark>, e: StageMark, nodes: seq<Node>, between: seq<Node>)
    requires nodes != [] && PathNodes(Walk(stages)) == nodes
    requires between == Fillers(nodes[|nodes| - 1], NodeOf(e))
    ensures PathNodes(Walk(stages + [e])) ==
              if nodes[|nodes| - 1] == NodeOf(e) then nodes else nodes + between + [NodeOf(e)]
  {
    assert (stages + [e])[..|stages|] == stages;
    NodesOfExtended(Walk(stages), e);
    assert Walk(stages)[|nodes| - 1].node == nodes[|nodes| - 1];
  }

  lemma MainRowFillers()
    ensures Fillers(Post, Guard) == [] && Fillers(Guard, Exchange) == [Validate]
    ensures Fillers(Exchange, Worker) == [WorkQueue] && Fillers(Worker, Postgres) == []
  {
    assert MAIN_ROW[2..3] == [Validate] && MAIN_ROW[4..5] == [WorkQueue];
  }

  lemma AcceptedWalksToTheExchange(a: StageMark, b: StageMark, c: StageMark)
    requires a.stage == StageReceived && b.stage == SignatureVerified && c.stage == Published
    ensures PathNodes(Walk([a, b, c])) == [Post, Guard, Validate, Exchange]
  {
    MainRowFillers();
    FirstBox(a);
    OneBoxOn([a], b, [Post], []);
    assert [a] + [b] == [a, b];
    OneBoxOn([a, b], c, [Post, Guard], [Validate]);
    assert [a, b] + [c] == [a, b, c];
  }

  lemma ConsumedWalksToTheWorker(a: StageMark, b: StageMark, c: StageMark, d: StageMark)
    requires a.stage == StageReceived && b.stage == SignatureVerified && c.stage == Published && d.stage == Consuming
    ensures PathNodes(Walk([a, b, c, d])) == [Post, Guard, Validate, Exchange, WorkQueue, Worker]
  {
    MainRowFillers();
    AcceptedWalksToTheExchange(a, b, c);
    OneBoxOn([a, b, c], d, [Post, Guard, Validate, Exchange], [WorkQueue]);
    assert [a, b, c] + [d] == [a, b, c, d];
  }

  /** A token that is received, verified, published, consumed, decided and processed walks the whole main row, each box
      once and in order. */
  lemma SuccessWalksTheMainRow(a: StageMark, b: StageMark, c: StageMark, d: StageMark, e: StageMark, f: StageMark)
    requires a.stage == StageReceived && b.stage == SignatureVerified && c.stage == Published
    requires d.stage == Consuming && e.stage == ProcessingDecision && f.stage == StageProcessed
    ensures PathNodes(PathSpec([a, b, c, d, e, f])) == [Post, Guard, Validate, Exchange, WorkQueue, Worker, Postgres]
  {
    var toWorker := [Post, Guard, Validate, Exchange, WorkQueue, Worker];
    MainRowFillers();
    ConsumedWalksToTheWorker(a, b, c, d);
    OneBoxOn([a, b, c, d], e, toWorker, []);
    assert [a, b, c, d] + [e] == [a, b, c, d, e];
    OneBoxOn([a, b, c, d, e], f, toWorker, []);
    assert [a, b, c, d, e] + [f] == [a, b, c, d, e, f];
  }
}
