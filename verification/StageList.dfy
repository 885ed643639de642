/** The sorted, deduplicated stage list of a token. */
module StageLists {
  import opened Wrappers
  import opened Telemetry

  /** `ts` stands for the timestamp, as the order of its text. */
  datatype StageEvent = StageEvent(stage: Stage, ts: int, status: Option<string>, attempts: Option<int>)

  predicate SameKey(a: StageEvent, b: StageEvent) {
    a.stage == b.stage && a.attempts == b.attempts
  }

  predicate HasKey(x: StageEvent, stage: Stage, attempts: Option<int>) {
    x.stage == stage && x.attempts == attempts
  }

  /** The comparator of the sort: rank first, then timestamp. */
  function Compare(a: StageEvent, b: StageEvent): int {
    var delta := StageRank(a.stage) - StageRank(b.stage);
    if delta != 0 then delta else if a.ts < b.ts then -1 else if a.ts > b.ts then 1 else 0
  }

  predicate Leq(a: StageEvent, b: StageEvent) {
    Compare(a, b) <= 0
  }

  ghost predicate Sorted(s: seq<StageEvent>) {
    forall i, j | 0 <= i < j < |s| :: Leq(s[i], s[j])
  }

  ghost predicate DistinctKeys(s: seq<StageEvent>) {
    forall i, j | 0 <= i < j < |s| :: !SameKey(s[i], s[j])
  }

  /** Insert after everything that does not compare greater: the stable place. */
  function Insert(s: seq<StageEvent>, e: StageEvent): (r: seq<StageEvent>)
    ensures |r| == |s| + 1
  {
    if s == [] then [e]
    else if Leq(s[|s| - 1], e) then s + [e]
    else Insert(s[..|s| - 1], e) + [s[|s| - 1]]
  }

  function StableSort(s: seq<StageEvent>): (r: seq<StageEvent>)
    ensures |r| == |s|
  {
    if s == [] then [] else Insert(StableSort(s[..|s| - 1]), s[|s| - 1])
  }

  function Without(s: seq<StageEvent>, e: StageEvent): seq<StageEvent> {
    if s == [] then []
    else Without(s[..|s| - 1], e) + (if SameKey(s[|s| - 1], e) then [] else [s[|s| - 1]])
  }

  function InsertedStage(s: seq<StageEvent>, e: StageEvent): seq<StageEvent> {
    StableSort(Without(s, e) + [e])
  }

  lemma {:induction false} InsertAdds(s: seq<StageEvent>, e: StageEvent)
    ensures multiset(Insert(s, e)) == multiset(s) + multiset{e}
  {
    if s != [] {
      var n := |s| - 1;
      assert s == s[..n] + [s[n]];
      if !Leq(s[n], e) {
        InsertAdds(s[..n], e);
      }
    }
  }

  lemma AppendSorts(r: seq<StageEvent>, x: StageEvent)
    requires Sorted(r) && forall i | 0 <= i < |r| :: Leq(r[i], x)
    ensures Sorted(r + [x])
  {
  }

  lemma LeqIsTransitive(a: StageEvent, b: StageEvent, c: StageEvent)
    requires Leq(a, b) && Leq(b, c)
    ensures Leq(a, c)
  {
  }

  lemma {:induction false} InsertSorts(s: seq<StageEvent>, e: StageEvent)
    requires Sorted(s)
    ensures Sorted(Insert(s, e))
  {
    if s != [] {
      var n := |s| - 1;
      if Leq(s[n], e) {
        forall i | 0 <= i < |s| ensures Leq(s[i], e) {
          LeqIsTransitive(s[i], s[n], e);
        }
        AppendSorts(s, e);
      } else {
        var r := Insert(s[..n], e);
        InsertSorts(s[..n], e);
        InsertAdds(s[..n], e);
        forall i | 0 <= i < |r| ensures Leq(r[i], s[n]) {
          assert r[i] in multiset(r);
          assert r[i] == e || r[i] in s[..n];
        }
        AppendSorts(r, s[n]);
      }
    }
  }

  lemma SortOneMore(s: seq<StageEvent>, e: StageEvent)
    ensures StableSort(s + [e]) == Insert(StableSort(s), e)
  {
    assert (s + [e])[..|s|] == s;
  }

  /** The sort yields a sorted permutation. */
  lemma {:induction false} StableSortProperties(s: seq<StageEvent>)
    ensures Sorted(StableSort(s))
    ensures multiset(StableSort(s)) == multiset(s)
  {
    if s != [] {
      var init, e := s[..|s| - 1], s[|s| - 1];
      assert s == init + [e];
      StableSortProperties(init);
      SortOneMore(init, e);
      InsertSorts(StableSort(init), e);
      InsertAdds(StableSort(init), e);
    }
  }

  /** The entries that compare equal to `x`, in order. */
  function Ties(s: seq<StageEvent>, x: StageEvent): seq<StageEvent> {
    if s == [] then [] else Ties(s[..|s| - 1], x) + (if Compare(s[|s| - 1], x) == 0 then [s[|s| - 1]] else [])
  }

  lemma {:induction false} InsertIsStable(s: seq<StageEvent>, e: StageEvent, x: StageEvent)
    requires Sorted(s)
    ensures Ties(Insert(s, e), x) == Ties(s + [e], x)
  {
    assert (s + [e])[..|s|] == s;
    if s != [] {
      var n := |s| - 1;
      if !Leq(s[n], e) {
        InsertIsStable(s[..n], e, x);
        var r := Insert(s[..n], e);
        assert (r + [s[n]])[..|r|] == r;
        assert (s[..n] + [e])[..n] == s[..n];
      }
    }
  }

  /** And it is stable: entries that compare equal keep their order. */
  lemma {:induction false} SortIsStable(s: seq<StageEvent>, x: StageEvent)
    ensures Ties(StableSort(s), x) == Ties(s, x)
  {
    if s != [] {
      var n := |s| - 1;
      SortIsStable(s[..n], x);
      StableSortProperties(s[..n]);
      InsertIsStable(StableSort(s[..n]), s[n], x);
      var r := StableSort(s[..n]);
      assert (r + [s[n]])[..|r|] == r;
    }
  }

  // ---------- the code: filter, append, sort in place ----------

  lemma {:induction false} InsertSplits(s: seq<StageEvent>, e: StageEvent, p: nat)
    requires p <= |s|
    requires forall i | p <= i < |s| :: !Leq(s[i], e)
    requires p > 0 ==> Leq(s[p - 1], e)
    ensures Insert(s, e) == s[..p] + [e] + s[p..]
  {
    if p < |s| {
      var n := |s| - 1;
      InsertSplits(s[..n], e, p);
      assert s[..n][..p] == s[..p] && s[..n][p..] + [s[n]] == s[p..];
    }
  }

  /** Slide the entry at `n` left past everything that compares greater. */
  method SlideLeft(a: array<StageEvent>, n: nat)
    requires n < a.Length && Sorted(a[..n])
    modifies a
    ensures a[..n + 1] == Insert(old(a[..n]), old(a[n]))
    ensures a[n + 1..] == old(a[n + 1..])
  {
    ghost var done := a[..n];
    var e := a[n];
    var p := n;
    while p > 0 && !Leq(a[p - 1], e)
      invariant 0 <= p <= n
      invariant forall i | 0 <= i < p :: a[i] == done[i]
      invariant forall i | p < i <= n :: a[i] == done[i - 1]
      invariant forall i | p <= i < n :: !Leq(done[i], e)
      invariant a[n + 1..] == old(a[n + 1..])
    {
      a[p] := a[p - 1];
      p := p - 1;
    }
    a[p] := e;
    InsertSplits(done, e, p);
    assert a[..n + 1] == done[..p] + [e] + done[p..];
  }

  /** The library's stable sort, as an insertion sort of the array. */
  method SortInPlace(a: array<StageEvent>)
    modifies a
    ensures a[..] == StableSort(old(a[..]))
  {
    ghost var was := a[..];
    for n := 0 to a.Length
      invariant a[..n] == StableSort(was[..n])
      invariant a[n..] == was[n..]
    {
      StableSortProperties(was[..n]);
      assert a[n] == a[n..][0] == was[n];
      assert a[n + 1..] == a[n..][1..] == was[n + 1..];
      assert was[..n + 1][..n] == was[..n];
      SlideLeft(a, n);
    }
    assert a[..a.Length] == a[..] && was[..a.Length] == was;
  }

  method InsertStage(stages: seq<StageEvent>, event: StageEvent) returns (next: seq<StageEvent>)
    ensures next == InsertedStage(stages, event)
  {
    var withoutSame: seq<StageEvent> := [];
    for i := 0 to |stages|
      invariant withoutSame == Without(stages[..i], event)
    {
      assert stages[..i + 1][..i] == stages[..i];
      if !SameKey(stages[i], event) {
        withoutSame := withoutSame + [stages[i]];
      }
    }
    assert stages[..|stages|] == stages;
    var appended := withoutSame + [event];
    var a := new StageEvent[|appended|](i requires 0 <= i < |appended| => appended[i]);
    assert a[..] == appended;
    SortInPlace(a);
    next := a[..];
  }

  // ---------- what the list is ----------

  lemma {:induction false} WithoutProperties(s: seq<StageEvent>, e: StageEvent)
    ensures forall x :: x in Without(s, e) <==> x in s && !SameKey(x, e)
    ensures DistinctKeys(s) ==> DistinctKeys(Without(s, e))
  {
    if s != [] {
      var n := |s| - 1;
      WithoutProperties(s[..n], e);
      assert s == s[..n] + [s[n]];
      if DistinctKeys(s) {
        forall x | x in Without(s[..n], e) ensures !SameKey(x, s[n]) {
          var i :| 0 <= i < n && s[i] == x;
        }
      }
    }
  }

  lemma OnceByKeys(s: seq<StageEvent>, a: nat)
    requires DistinctKeys(s) && a < |s|
    ensures multiset(s)[s[a]] == 1
  {
    assert s == s[..a] + [s[a]] + s[a + 1..];
    assert s[a] !in s[..a] && s[a] !in s[a + 1..];
  }

  lemma TwiceByIndex(t: seq<StageEvent>, i: nat, j: nat)
    requires i < j < |t|
    ensures t[i] == t[j] ==> multiset(t)[t[i]] >= 2
  {
    assert t == t[..i] + [t[i]] + t[i + 1..j] + [t[j]] + t[j + 1..];
  }

  /** In a list without repeated keys every key has one entry; a permutation of such a list has none either. */
  lemma DistinctByCount(s: seq<StageEvent>, t: seq<StageEvent>)
    requires multiset(s) == multiset(t) && DistinctKeys(s)
    ensures DistinctKeys(t)
  {
    forall i, j | 0 <= i < j < |t| ensures !SameKey(t[i], t[j]) {
      TwiceByIndex(t, i, j);
      assert t[i] in multiset(s) && t[j] in multiset(s);
      var a :| 0 <= a < |s| && s[a] == t[i];
      var b :| 0 <= b < |s| && s[b] == t[j];
      OnceByKeys(s, a);
    }
  }

  lemma ReplacedKeys(before: seq<StageEvent>, e: StageEvent)
    requires DistinctKeys(before)
    ensures DistinctKeys(Without(before, e) + [e])
    ensures forall x :: x in Without(before, e) + [e] <==> x == e || (x in before && !SameKey(x, e))
  {
    WithoutProperties(before, e);
    var kept := Without(before, e);
    assert forall i | 0 <= i < |kept| :: kept[i] in kept;
  }

  /** Inserting a stage keeps the list sorted and free of repeated keys, replaces the entry with the event's key and
      keeps every other. */
  lemma InsertedStageProperties(s: seq<StageEvent>, e: StageEvent)
    requires DistinctKeys(s)
    ensures Sorted(InsertedStage(s, e)) && DistinctKeys(InsertedStage(s, e)) && InsertedStage(s, e) != []
    ensures forall x :: x in InsertedStage(s, e) <==> x == e || (x in s && !SameKey(x, e))
  {
    var all := Without(s, e) + [e];
    ReplacedKeys(s, e);
    StableSortProperties(all);
    DistinctByCount(all, StableSort(all));
    forall x ensures x in StableSort(all) <==> x in all {
      assert x in StableSort(all) <==> x in multiset(StableSort(all));
      assert x in all <==> x in multiset(all);
    }
  }

  // ---------- the entry that survives for a key ----------

  /** The last event with a given key. */
  function LastFor(s: seq<StageEvent>, stage: Stage, attempts: Option<int>): Option<StageEvent> {
    if s == [] then None
    else if HasKey(s[|s| - 1], stage, attempts) then Some(s[|s| - 1])
    else LastFor(s[..|s| - 1], stage, attempts)
  }

  function InsertAll(s: seq<StageEvent>, es: seq<StageEvent>): seq<StageEvent> {
    if es == [] then s else InsertedStage(InsertAll(s, es[..|es| - 1]), es[|es| - 1])
  }

  /** The events with a given key, in order of arrival. */
  function Track(es: seq<StageEvent>, stage: Stage, attempts: Option<int>): seq<StageEvent> {
    if es == [] then []
    else
      Track(es[..|es| - 1], stage, attempts)
      + (if HasKey(es[|es| - 1], stage, attempts) then [es[|es| - 1]] else [])
  }

  lemma {:induction false} LastOfTrack(es: seq<StageEvent>, stage: Stage, attempts: Option<int>)
    ensures var t := Track(es, stage, attempts);
            LastFor(es, stage, attempts) == if t == [] then None else Some(t[|t| - 1])
  {
    if es != [] {
      LastOfTrack(es[..|es| - 1], stage, attempts);
    }
  }

  /** After any arrivals the list holds, for each key, the last event that arrived for it, or the entry it had. */
  lemma {:induction false} ListHoldsTheLast(s: seq<StageEvent>, es: seq<StageEvent>)
    requires Sorted(s) && DistinctKeys(s)
    ensures var r := InsertAll(s, es);
            && Sorted(r) && DistinctKeys(r)
            && forall x :: x in r <==>
                 LastFor(es, x.stage, x.attempts) == Some(x) || (LastFor(es, x.stage, x.attempts).None? && x in s)
  {
    if es != [] {
      var n := |es| - 1;
      ListHoldsTheLast(s, es[..n]);
      InsertedStageProperties(InsertAll(s, es[..n]), es[n]);
    }
  }

  // ---------- order independence ----------

  /** Two arrival orders that agree, key by key, on the order of the events with that key. */
  ghost predicate SameTracks(es: seq<StageEvent>, fs: seq<StageEvent>) {
    forall stage, attempts :: Track(es, stage, attempts) == Track(fs, stage, attempts)
  }

  /** `x` is the last event to arrive for its key, so it is in the list afterwards. */
  predicate Survives(es: seq<StageEvent>, x: StageEvent) {
    LastFor(es, x.stage, x.attempts) == Some(x)
  }

  /** No two of the events that survive have the same rank and timestamp. */
  ghost predicate NoArrivalTies(es: seq<StageEvent>) {
    forall x, y :: Survives(es, x) && Survives(es, y) && x != y ==> Compare(x, y) != 0
  }

  /** The list without the sorting: filter and append only. */
  function Unsorted(s: seq<StageEvent>, es: seq<StageEvent>): seq<StageEvent> {
    if es == [] then s else Without(Unsorted(s, es[..|es| - 1]), es[|es| - 1]) + [es[|es| - 1]]
  }

  /** The entries that were there before and that no arrival replaces. */
  function Untouched(s: seq<StageEvent>, es: seq<StageEvent>): seq<StageEvent> {
    if s == [] then []
    else
      var x := s[|s| - 1];
      Untouched(s[..|s| - 1], es) + (if LastFor(es, x.stage, x.attempts).None? then [x] else [])
  }

  lemma {:induction false} TiesConcat(a: seq<StageEvent>, b: seq<StageEvent>, x: StageEvent)
    ensures Ties(a + b, x) == Ties(a, x) + Ties(b, x)
  {
    if b == [] {
      assert a + b == a;
    } else {
      assert (a + b)[..|a + b| - 1] == a + b[..|b| - 1];
      TiesConcat(a, b[..|b| - 1], x);
    }
  }

  lemma TiesOne(s: seq<StageEvent>, e: StageEvent, x: StageEvent)
    ensures Ties(s + [e], x) == Ties(s, x) + (if Compare(e, x) == 0 then [e] else [])
  {
    assert (s + [e])[..|s|] == s;
  }

  lemma {:induction false} WithoutConcat(a: seq<StageEvent>, b: seq<StageEvent>, e: StageEvent)
    ensures Without(a + b, e) == Without(a, e) + Without(b, e)
  {
    if b == [] {
      assert a + b == a;
    } else {
      assert (a + b)[..|a + b| - 1] == a + b[..|b| - 1];
      WithoutConcat(a, b[..|b| - 1], e);
    }
  }

  /** Filtering and picking out ties commute. */
  lemma {:induction false} TiesWithout(s: seq<StageEvent>, e: StageEvent, x: StageEvent)
    ensures Ties(Without(s, e), x) == Without(Ties(s, x), e)
  {
    if s != [] {
      var n := |s| - 1;
      TiesWithout(s[..n], e, x);
      TiesConcat(Without(s[..n], e), if SameKey(s[n], e) then [] else [s[n]], x);
      TieOfOne(s[n], e, x);
      WithoutConcat(Ties(s[..n], x), if Compare(s[n], x) == 0 then [s[n]] else [], e);
    }
  }

  lemma TieOfOne(y: StageEvent, e: StageEvent, x: StageEvent)
    ensures Ties(if SameKey(y, e) then [] else [y], x) == Without(if Compare(y, x) == 0 then [y] else [], e)
  {
    assert [y][..0] == [];
  }

  /** Sorting only arranges the ties: the entries that tie are those of the unsorted list, in its order. */
  lemma {:induction false} TiesOfInsertAll(s: seq<StageEvent>, es: seq<StageEvent>, x: StageEvent)
    ensures Ties(InsertAll(s, es), x) == Ties(Unsorted(s, es), x)
  {
    if es != [] {
      var n := |es| - 1;
      var before, plain := InsertAll(s, es[..n]), Unsorted(s, es[..n]);
      TiesOfInsertAll(s, es[..n], x);
      SortIsStable(Without(before, es[n]) + [es[n]], x);
      TiesOne(Without(before, es[n]), es[n], x);
      TiesOne(Without(plain, es[n]), es[n], x);
      TiesWithout(before, es[n], x);
      TiesWithout(plain, es[n], x);
    }
  }

  lemma {:induction false} UntouchedShrinks(s: seq<StageEvent>, es: seq<StageEvent>, e: StageEvent)
    ensures Untouched(s, es + [e]) == Without(Untouched(s, es), e)
  {
    if s != [] {
      var x := s[|s| - 1];
      UntouchedShrinks(s[..|s| - 1], es, e);
      assert (es + [e])[..|es|] == es;
      WithoutConcat(Untouched(s[..|s| - 1], es), if LastFor(es, x.stage, x.attempts).None? then [x] else [], e);
      assert [x][..0] == [];
    }
  }

  lemma {:induction false} UntouchedAll(s: seq<StageEvent>)
    ensures Untouched(s, []) == s
  {
    if s != [] {
      UntouchedAll(s[..|s| - 1]);
      assert s == s[..|s| - 1] + [s[|s| - 1]];
    }
  }

  lemma UnsortedOne(s: seq<StageEvent>, es: seq<StageEvent>, e: StageEvent)
    ensures Unsorted(s, es + [e]) == Without(Unsorted(s, es), e) + [e]
  {
    assert (es + [e])[..|es|] == es;
  }

  lemma Regroup(old_: seq<StageEvent>, new_: seq<StageEvent>, e: StageEvent)
    ensures Without(old_ + new_, e) + [e] == Without(old_, e) + (Without(new_, e) + [e])
  {
    WithoutConcat(old_, new_, e);
    assert Without(old_, e) + Without(new_, e) + [e] == Without(old_, e) + (Without(new_, e) + [e]);
  }

  /** The unsorted list is what was there, then what arrived. */
  lemma {:induction false} UnsortedSplits(s: seq<StageEvent>, es: seq<StageEvent>)
    ensures Unsorted(s, es) == Untouched(s, es) + Unsorted([], es)
  {
    if es == [] {
      UntouchedAll(s);
      assert s + [] == s;
    } else {
      var init, e := es[..|es| - 1], es[|es| - 1];
      assert es == init + [e];
      UnsortedSplits(s, init);
      UnsortedOne(s, init, e);
      UnsortedOne([], init, e);
      UntouchedShrinks(s, init, e);
      Regroup(Untouched(s, init), Unsorted([], init), e);
    }
  }

  lemma SurvivesOneMore(es: seq<StageEvent>, e: StageEvent, x: StageEvent)
    ensures Survives(es + [e], x) <==> x == e || (Survives(es, x) && !SameKey(x, e))
  {
    assert (es + [e])[..|es|] == es;
  }

  lemma {:induction false} ArrivalsAreSurvivors(es: seq<StageEvent>)
    ensures DistinctKeys(Unsorted([], es))
    ensures forall x :: x in Unsorted([], es) <==> Survives(es, x)
  {
    if es != [] {
      var init, e := es[..|es| - 1], es[|es| - 1];
      assert es == init + [e];
      ArrivalsAreSurvivors(init);
      UnsortedOne([], init, e);
      ReplacedKeys(Unsorted([], init), e);
      forall x ensures x in Unsorted([], es) <==> Survives(es, x) {
        SurvivesOneMore(init, e, x);
      }
    }
  }

  lemma {:induction false} UntouchedByTracks(s: seq<StageEvent>, es: seq<StageEvent>, fs: seq<StageEvent>)
    requires SameTracks(es, fs)
    ensures Untouched(s, es) == Untouched(s, fs)
  {
    if s != [] {
      var x := s[|s| - 1];
      UntouchedByTracks(s[..|s| - 1], es, fs);
      SameLast(es, fs, x);
    }
  }

  lemma SameLast(es: seq<StageEvent>, fs: seq<StageEvent>, x: StageEvent)
    requires SameTracks(es, fs)
    ensures LastFor(es, x.stage, x.attempts) == LastFor(fs, x.stage, x.attempts)
  {
    LastOfTrack(es, x.stage, x.attempts);
    LastOfTrack(fs, x.stage, x.attempts);
    assert Track(es, x.stage, x.attempts) == Track(fs, x.stage, x.attempts);
  }

  lemma {:induction false} InTies(s: seq<StageEvent>, x: StageEvent, y: StageEvent)
    ensures y in Ties(s, x) <==> y in s && Compare(y, x) == 0
  {
    if s != [] {
      InTies(s[..|s| - 1], x, y);
      assert s == s[..|s| - 1] + [s[|s| - 1]];
    }
  }

  lemma {:induction false} TiesKeepKeys(s: seq<StageEvent>, x: StageEvent)
    requires DistinctKeys(s)
    ensures DistinctKeys(Ties(s, x))
  {
    if s != [] {
      var n := |s| - 1;
      TiesKeepKeys(s[..n], x);
      var t := Ties(s[..n], x);
      forall i | 0 <= i < |t| ensures !SameKey(t[i], s[n]) {
        InTies(s[..n], x, t[i]);
        var j :| 0 <= j < n && s[j] == t[i];
      }
    }
  }

  lemma TwoTies(es: seq<StageEvent>, x: StageEvent)
    requires |Ties(Unsorted([], es), x)| > 1
    ensures var t := Ties(Unsorted([], es), x);
            Survives(es, t[0]) && Survives(es, t[1]) && t[0] != t[1] && Compare(t[0], t[1]) == 0
  {
    var t := Ties(Unsorted([], es), x);
    ArrivalsAreSurvivors(es);
    TiesKeepKeys(Unsorted([], es), x);
    InTies(Unsorted([], es), x, t[0]);
    InTies(Unsorted([], es), x, t[1]);
    assert !SameKey(t[0], t[1]);
  }

  /** At most one survivor ties with `x`. */
  lemma FewTies(es: seq<StageEvent>, x: StageEvent)
    requires NoArrivalTies(es)
    ensures |Ties(Unsorted([], es), x)| <= 1
  {
    if |Ties(Unsorted([], es), x)| > 1 {
      TwoTies(es, x);
    }
  }

  lemma SameTies(s: seq<StageEvent>, es: seq<StageEvent>, fs: seq<StageEvent>, x: StageEvent)
    requires SameTracks(es, fs) && NoArrivalTies(es)
    ensures Ties(Unsorted(s, es), x) == Ties(Unsorted(s, fs), x)
  {
    UnsortedSplits(s, es);
    UnsortedSplits(s, fs);
    UntouchedByTracks(s, es, fs);
    TiesConcat(Untouched(s, es), Unsorted([], es), x);
    TiesConcat(Untouched(s, es), Unsorted([], fs), x);
    SameArrivalTies(es, fs, x);
  }

  lemma SameArrivalTies(es: seq<StageEvent>, fs: seq<StageEvent>, x: StageEvent)
    requires SameTracks(es, fs) && NoArrivalTies(es)
    ensures Ties(Unsorted([], es), x) == Ties(Unsorted([], fs), x)
  {
    forall y ensures Survives(es, y) <==> Survives(fs, y) {
      SameLast(es, fs, y);
    }
    var t, u := Ties(Unsorted([], es), x), Ties(Unsorted([], fs), x);
    FewTies(es, x);
    FewTies(fs, x);
    forall y ensures y in t <==> y in u {
      ArrivalsAreSurvivors(es);
      ArrivalsAreSurvivors(fs);
      InTies(Unsorted([], es), x, y);
      InTies(Unsorted([], fs), x, y);
    }
    FewAreEqual(t, u);
  }

  lemma Inhabited(t: seq<StageEvent>)
    ensures t != [] ==> exists x :: x in t
  {
    if t != [] {
      assert t[0] in t;
    }
  }

  lemma FewAreEqual(t: seq<StageEvent>, u: seq<StageEvent>)
    requires |t| <= 1 && |u| <= 1 && forall y :: y in t <==> y in u
    ensures t == u
  {
    if t == [] {
      Inhabited(u);
    } else {
      assert t[0] in t;
    }
  }

  lemma TiesEnd(s: seq<StageEvent>, x: StageEvent)
    requires s != [] && Compare(s[|s| - 1], x) == 0
    ensures Ties(s, x) != [] && Ties(s, x)[|Ties(s, x)| - 1] == s[|s| - 1]
    ensures Ties(s, x)[..|Ties(s, x)| - 1] == Ties(s[..|s| - 1], x)
  {
  }

  lemma NothingTies(s: seq<StageEvent>)
    requires forall x :: Ties(s, x) == []
    ensures s == []
  {
    if s != [] {
      TiesEnd(s, s[|s| - 1]);
    }
  }

  /** A sorted list is determined by its ties. */
  lemma {:induction false} SortedByTies(s: seq<StageEvent>, t: seq<StageEvent>)
    requires Sorted(s) && Sorted(t) && forall x :: Ties(s, x) == Ties(t, x)
    ensures s == t
    decreases |s|
  {
    if s == [] {
      NothingTies(t);
    } else {
      var m := |s| - 1;
      SameEnd(s, t);
      var n := |t| - 1;
      forall x ensures Ties(s[..m], x) == Ties(t[..n], x) {
        assert Ties(s, x) == Ties(t, x);
        ShorterTies(s, t, x);
      }
      SortedByTies(s[..m], t[..n]);
      assert s == s[..m] + [s[m]] && t == t[..n] + [t[n]];
    }
  }

  lemma TiesSkip(s: seq<StageEvent>, x: StageEvent)
    requires s != [] && Compare(s[|s| - 1], x) != 0
    ensures Ties(s[..|s| - 1], x) == Ties(s, x)
  {
  }

  lemma ShorterTies(s: seq<StageEvent>, t: seq<StageEvent>, x: StageEvent)
    requires s != [] && t != [] && s[|s| - 1] == t[|t| - 1] && Ties(s, x) == Ties(t, x)
    ensures Ties(s[..|s| - 1], x) == Ties(t[..|t| - 1], x)
  {
    if Compare(s[|s| - 1], x) == 0 {
      TiesEnd(s, x);
      TiesEnd(t, x);
    } else {
      TiesSkip(s, x);
      TiesSkip(t, x);
    }
  }

  lemma SomeTie(s: seq<StageEvent>, t: seq<StageEvent>)
    requires s != [] && forall x :: Ties(s, x) == Ties(t, x)
    ensures t != [] && s[|s| - 1] in t
  {
    var a := s[|s| - 1];
    TiesEnd(s, a);
    assert Ties(t, a) == Ties(s, a);
    InTies(t, a, a);
  }

  lemma SameEnd(s: seq<StageEvent>, t: seq<StageEvent>)
    requires Sorted(s) && Sorted(t) && s != [] && forall x :: Ties(s, x) == Ties(t, x)
    ensures t != [] && s[|s| - 1] == t[|t| - 1]
  {
    SomeTie(s, t);
    SomeTie(t, s);
    var a, b := s[|s| - 1], t[|t| - 1];
    LastIsGreatest(s, b);
    LastIsGreatest(t, a);
    assert Ties(s, a) == Ties(t, a);
    SameTiesEnd(s, t);
  }

  lemma SameTiesEnd(s: seq<StageEvent>, t: seq<StageEvent>)
    requires s != [] && t != []
    requires Leq(s[|s| - 1], t[|t| - 1]) && Leq(t[|t| - 1], s[|s| - 1])
    requires Ties(s, s[|s| - 1]) == Ties(t, s[|s| - 1])
    ensures s[|s| - 1] == t[|t| - 1]
  {
    LastTie(s, s[|s| - 1]);
    LastTie(t, s[|s| - 1]);
  }

  lemma LastTie(s: seq<StageEvent>, x: StageEvent)
    requires s != [] && Leq(s[|s| - 1], x) && Leq(x, s[|s| - 1])
    ensures Ties(s, x) != [] && Ties(s, x)[|Ties(s, x)| - 1] == s[|s| - 1]
  {
    TiesEnd(s, x);
  }

  lemma LastIsGreatest(s: seq<StageEvent>, x: StageEvent)
    requires Sorted(s) && x in s
    ensures Leq(x, s[|s| - 1])
  {
    var i :| 0 <= i < |s| && s[i] == x;
  }

  /** Two arrival orders that agree key by key give the same list when no two survivors tie; ties with or among the
      entries that were there already do no harm. */
  lemma ArrivalOrderIsIrrelevant(s: seq<StageEvent>, es: seq<StageEvent>, fs: seq<StageEvent>)
    requires Sorted(s) && DistinctKeys(s) && SameTracks(es, fs) && NoArrivalTies(es)
    ensures InsertAll(s, es) == InsertAll(s, fs)
  {
    ListHoldsTheLast(s, es);
    ListHoldsTheLast(s, fs);
    forall x ensures Ties(InsertAll(s, es), x) == Ties(InsertAll(s, fs), x) {
      TiesOfInsertAll(s, es, x);
      TiesOfInsertAll(s, fs, x);
      SameTies(s, es, fs, x);
    }
    SortedByTies(InsertAll(s, es), InsertAll(s, fs));
  }

  // ---------- and otherwise it is not ----------

  /** The same arrivals with those of the key of `e` last. */
  function KeyLast(es: seq<StageEvent>, e: StageEvent): seq<StageEvent> {
    Without(es, e) + Track(es, e.stage, e.attempts)
  }

  lemma {:induction false} TrackConcat(a: seq<StageEvent>, b: seq<StageEvent>, stage: Stage, attempts: Option<int>)
    ensures Track(a + b, stage, attempts) == Track(a, stage, attempts) + Track(b, stage, attempts)
  {
    if b == [] {
      assert a + b == a;
    } else {
      assert (a + b)[..|a + b| - 1] == a + b[..|b| - 1];
      TrackConcat(a, b[..|b| - 1], stage, attempts);
    }
  }

  lemma TrackOne(x: StageEvent, stage: Stage, attempts: Option<int>)
    ensures Track([x], stage, attempts) == if HasKey(x, stage, attempts) then [x] else []
  {
    assert [x][..0] == [];
  }

  lemma {:induction false} TrackOfTrack(es: seq<StageEvent>, e: StageEvent, stage: Stage, attempts: Option<int>)
    ensures Track(Track(es, e.stage, e.attempts), stage, attempts)
         == if HasKey(e, stage, attempts) then Track(es, stage, attempts) else []
  {
    if es != [] {
      var init, x := es[..|es| - 1], es[|es| - 1];
      TrackOfTrack(init, e, stage, attempts);
      if SameKey(x, e) {
        TrackConcat(Track(init, e.stage, e.attempts), [x], stage, attempts);
        TrackOne(x, stage, attempts);
      } else {
        assert Track(es, e.stage, e.attempts) == Track(init, e.stage, e.attempts);
      }
    }
  }

  lemma {:induction false} TrackWithout(es: seq<StageEvent>, e: StageEvent, stage: Stage, attempts: Option<int>)
    ensures Track(Without(es, e), stage, attempts)
         == if HasKey(e, stage, attempts) then [] else Track(es, stage, attempts)
  {
    if es != [] {
      var init, x := es[..|es| - 1], es[|es| - 1];
      TrackWithout(init, e, stage, attempts);
      if SameKey(x, e) {
        assert Without(es, e) == Without(init, e);
      } else {
        TrackConcat(Without(init, e), [x], stage, attempts);
        TrackOne(x, stage, attempts);
      }
    }
  }

  lemma KeyLastKeepsTracks(es: seq<StageEvent>, e: StageEvent)
    ensures SameTracks(es, KeyLast(es, e))
  {
    forall stage, attempts ensures Track(es, stage, attempts) == Track(KeyLast(es, e), stage, attempts) {
      TrackConcat(Without(es, e), Track(es, e.stage, e.attempts), stage, attempts);
      TrackOfTrack(es, e, stage, attempts);
      TrackWithout(es, e, stage, attempts);
    }
  }

  lemma KeyLastEnds(es: seq<StageEvent>, e: StageEvent)
    requires Survives(es, e)
    ensures var fs := KeyLast(es, e); fs != [] && fs[|fs| - 1] == e
  {
    LastOfTrack(es, e.stage, e.attempts);
  }

  lemma LastOfUnsorted(s: seq<StageEvent>, es: seq<StageEvent>, x: StageEvent)
    requires es != [] && Compare(es[|es| - 1], x) == 0
    ensures var t := Ties(Unsorted(s, es), x); t != [] && t[|t| - 1] == es[|es| - 1]
  {
    TiesEnd(Unsorted(s, es), x);
  }

  predicate EndsTies(s: seq<StageEvent>, x: StageEvent, e: StageEvent) {
    Ties(s, x) != [] && Ties(s, x)[|Ties(s, x)| - 1] == e
  }

  lemma DifferentEnds(s: seq<StageEvent>, t: seq<StageEvent>, x: StageEvent, e: StageEvent, f: StageEvent)
    requires EndsTies(s, x, e) && EndsTies(t, x, f) && e != f
    ensures s != t
  {
  }

  /** Then the survivor of that key comes last among its ties. */
  lemma LastAmongTies(s: seq<StageEvent>, es: seq<StageEvent>, e: StageEvent, x: StageEvent)
    requires Survives(es, e) && Compare(e, x) == 0
    ensures EndsTies(InsertAll(s, KeyLast(es, e)), x, e)
  {
    KeyLastEnds(es, e);
    TiesOfInsertAll(s, KeyLast(es, e), x);
    LastOfUnsorted(s, KeyLast(es, e), x);
  }

  lemma TwoOrdersDiffer(s: seq<StageEvent>, es: seq<StageEvent>, x: StageEvent, y: StageEvent)
    requires Survives(es, x) && Survives(es, y) && x != y && Compare(x, y) == 0
    ensures InsertAll(s, KeyLast(es, x)) != InsertAll(s, KeyLast(es, y))
  {
    LastAmongTies(s, es, x, y);
    LastAmongTies(s, es, y, y);
    DifferentEnds(InsertAll(s, KeyLast(es, x)), InsertAll(s, KeyLast(es, y)), y, x, y);
  }

  /** If two survivors tie, some order of the same arrivals gives another list. */
  lemma TiesShow(s: seq<StageEvent>, es: seq<StageEvent>, x: StageEvent, y: StageEvent) returns (fs: seq<StageEvent>)
    requires Survives(es, x) && Survives(es, y) && x != y && Compare(x, y) == 0
    ensures fs == KeyLast(es, x) || fs == KeyLast(es, y)
    ensures SameTracks(es, fs) && InsertAll(s, fs) != InsertAll(s, es)
  {
    TwoOrdersDiffer(s, es, x, y);
    fs := if InsertAll(s, KeyLast(es, x)) != InsertAll(s, es) then KeyLast(es, x) else KeyLast(es, y);
    KeyLastKeepsTracks(es, x);
    KeyLastKeepsTracks(es, y);
  }

  /** Exactly: every order of the same arrivals gives the same list if and only if no two survivors tie. */
  lemma OrderIsIrrelevantIffNoTies(s: seq<StageEvent>, es: seq<StageEvent>)
    requires Sorted(s) && DistinctKeys(s)
    ensures (forall fs :: SameTracks(es, fs) ==> InsertAll(s, fs) == InsertAll(s, es)) <==> NoArrivalTies(es)
  {
    if NoArrivalTies(es) {
      forall fs | SameTracks(es, fs) ensures InsertAll(s, fs) == InsertAll(s, es) {
        ArrivalOrderIsIrrelevant(s, es, fs);
      }
    } else {
      var x, y :| Survives(es, x) && Survives(es, y) && x != y && Compare(x, y) == 0;
      var fs := TiesShow(s, es, x, y);
    }
  }

  /** The smallest case: two stages of one rank and timestamp, in either order. */
  lemma TiesShowTheArrivalOrder(ts: int)
    ensures var a := StageEvent(StageProcessed, ts, None, Some(1));
            var b := StageEvent(StageDead, ts, None, Some(1));
            && SameTracks([a, b], [b, a])
            && InsertAll([], [a, b]) == [a, b] && InsertAll([], [b, a]) == [b, a]
  {
    var a := StageEvent(StageProcessed, ts, None, Some(1));
    var b := StageEvent(StageDead, ts, None, Some(1));
    TwoInsertions(a, b);
    TwoInsertions(b, a);
    forall stage, attempts ensures Track([a, b], stage, attempts) == Track([b, a], stage, attempts) {
      TwoTracks(a, b, stage, attempts);
      TwoTracks(b, a, stage, attempts);
    }
  }

  lemma TwoTracks(a: StageEvent, b: StageEvent, stage: Stage, attempts: Option<int>)
    requires !SameKey(a, b)
    ensures Track([a, b], stage, attempts) ==
              if a.stage == stage && a.attempts == attempts then [a]
              else if b.stage == stage && b.attempts == attempts then [b] else []
  {
    assert [a, b][..1] == [a] && [a][..0] == [];
    assert Track([a], stage, attempts) == if a.stage == stage && a.attempts == attempts then [a] else [];
  }

  lemma TwoInsertions(a: StageEvent, b: StageEvent)
    requires Compare(a, b) == 0 && !SameKey(a, b)
    ensures InsertAll([], [a, b]) == [a, b]
  {
    assert [a, b][..1] == [a] && [a][..0] == [];
    assert StableSort([a]) == [a];
    assert Without([], a) + [a] == [a];
    assert InsertAll([], [a]) == [a];
    assert Without([a], b) == Without([], b) + [a] == [a];
    assert [a] + [b] == [a, b];
    assert StableSort([a, b]) == Insert(StableSort([a]), b);
  }
}
