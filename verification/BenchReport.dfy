/**
 From the recorder to the report: what the post-processing does with the tables of any
 complete session, and with those of `run_bench` in particular.
 */
module BenchReport {
  import opened Text
  import opened Paths
  import opened PyDict
  import opened PerfRecorder
  import opened RecorderRuns
  import opened NestedRuns
  import opened RunBench
  import ST = StatTree
  import U = Unflatten
  import W = WarmUp
  import I = ItemTotals
  import B = BatchStats

  /** The recorder's tables with any measured times filled in. */
  ghost predicate Measured(s: State, t: U.Tables) {
    && t.batches == s.batchInfo && t.inside == s.insideInfo && t.totalBatches == s.totals
    && t.data.Valid() && t.data.keys == Survivors(s.timing, s.deleted).keys
  }

  /** No recorded range has a statistic's name. */
  ghost predicate PlainKeys(t: U.Tables) {
    forall k :: k in t.data.keys ==> ST.PlainPath(Split(k))
  }

  ghost predicate BatchesIndexed(s: State) {
    forall k :: k in s.batchInfo.vals ==> s.batchInfo.vals[k].idx.Some?
  }

  lemma StepIndexed(s: State, op: Op)
    requires s.benchmark && BatchesIndexed(s) && Sensible(s, op) && Disciplined(s, op)
    ensures BatchesIndexed(Do(s, op)) && Do(s, op).benchmark
  {
    hide Dirname, Join, Decimal;
  }

  lemma {:induction false} RunIndexed(root: Path, s: State, ops: seq<Op>, seen: set<Path>)
    requires s.benchmark && BatchesIndexed(s) && GoodRun(root, s, ops, seen)
    ensures BatchesIndexed(RunAll(s, ops))
    decreases |ops|
  {
    hide BatchesIndexed, Sensible, Disciplined, Fresh, Opened, Do;
    if ops != [] {
      StepIndexed(s, ops[0]);
      RunIndexed(root, Do(s, ops[0]), ops[1..], Opened(root, s, ops[0], seen));
    }
  }

  /** Any complete good session: the post-processing returns iff every surviving batch lies directly in a range that was itself recorded with a total. */
  lemma SessionReturnsIff(root: Path, ops: seq<Op>, t: U.Tables, warmup: int)
    requires Components(root) && GoodRun(root, Initial(Render(root), true), ops, {})
    requires RunAll(Initial(Render(root), true), ops).stack == []
    requires Measured(RunAll(Initial(Render(root), true), ops), t) && PlainKeys(t)
    ensures U.Usable(t)
    ensures W.Unflattened(t, warmup).Ok? <==> forall k :: k in t.data.keys && k in t.batches.vals ==> I.Reported(t, Dirname(k))
  {
    assert root != [];
    hide *;
    var s0 := Initial(Render(root), true);
    CompleteRunWellRecorded(root, ops);
    InitialIndexed(Render(root));
    RunIndexed(root, s0, ops, {});
    TablesFine(root, RunAll(s0, ops), t);
    I.ReturnsIff(root, t, warmup);
  }

  lemma InitialIndexed(name: string)
    ensures BatchesIndexed(Initial(name, true)) && Initial(name, true).benchmark
  {
  }

  lemma TablesFine(root: Path, s: State, t: U.Tables)
    requires Measured(s, t) && PlainKeys(t) && BatchesIndexed(s)
    requires WellRecorded(root, Survivors(s.timing, s.deleted).keys, s.batchInfo, s.insideInfo, s.totals)
    ensures I.FromRecorder(root, t) && U.Usable(t) && I.Indexed(t)
  {
    hide Split, Survivors, DescendantsFirst, PositiveBelow, ST.PlainPath, Components, TotalAt;
  }

  // ------------------------------------------------------------- the batches of run_bench

  /** The iterations of an operator that completed. */
  function Done(op: Operator, n: nat): nat {
    if FailsWithin(op, n) then op.failsAt.value else n
  }

  function IterKey(root: Path, op: Operator, j: nat): string {
    Render(root + [op.name, RUN, Named(ITER, Some(j))])
  }

  function RunKey(root: Path, op: Operator): string {
    Render(root + [op.name, RUN])
  }

  lemma KeyTexts(root: Path, op: Operator, j: nat)
    requires root != []
    ensures RunKey(root, op) == Render(root) + "/" + op.name + "/run_op"
    ensures IterKey(root, op, j) == Render(root) + "/" + op.name + "/run_op/iter_" + Decimal(j)
  {
    hide Render, Decimal;
    RunText(root, op);
    IterText(root, op, j);
    assert root + [op.name, RUN] + [Named(ITER, Some(j))] == root + [op.name, RUN, Named(ITER, Some(j))];
  }

  lemma {:induction false} IterationBatches(at: Path, op: Operator, count: nat, batchSize: int, k: string)
    requires at != []
    ensures var m := BatchMap(at, Iterations(op, count, batchSize));
            && (k in m <==> exists j: nat :: j < count && op.failsAt != Some(j) && k == Render(at + [Named(ITER, Some(j))]))
            && (k in m ==> exists j: nat :: j < count && op.failsAt != Some(j) && k == Render(at + [Named(ITER, Some(j))]) && m[k] == Batch(Some(j), batchSize))
  {
    hide Render, Named, BatchMap, Iterations;
    if count == 0 {
      NoBatches(at, op, batchSize);
    } else {
      IterationBatches(at, op, count - 1, batchSize, k);
      LastBatch(at, op, count, batchSize);
      var m := BatchMap(at, Iterations(op, count - 1, batchSize));
      if k in m {
        var j: nat :| j < count - 1 && op.failsAt != Some(j) && k == Render(at + [Named(ITER, Some(j))]) && m[k] == Batch(Some(j), batchSize);
        assert j < count;
      }
      if j: nat :| j < count && op.failsAt != Some(j) && k == Render(at + [Named(ITER, Some(j))]) {
        if j < count - 1 { assert k in m; }
      }
    }
  }

  lemma NoBatches(at: Path, op: Operator, batchSize: int)
    requires at != []
    ensures BatchMap(at, Iterations(op, 0, batchSize)) == map[]
  {
  }

  lemma LastBatch(at: Path, op: Operator, count: nat, batchSize: int)
    requires at != [] && count > 0
    ensures var name := Render(at + [Named(ITER, Some(count - 1))]);
            var entry: map<string, Batch> := if op.failsAt != Some(count - 1) then map[name := Batch(Some(count - 1), batchSize)] else map[];
            BatchMap(at, Iterations(op, count, batchSize)) == BatchMap(at, Iterations(op, count - 1, batchSize)) + entry
  {
    hide Render, Named;
    var f := Iterations(op, count, batchSize);
    assert f.Name() == Named(ITER, Some(count - 1));
    assert BatchMap(at + [f.Name()], Nil) == map[];
    assert BatchMap(at, f.before) + map[] == BatchMap(at, f.before);
  }

  lemma LeafBatches(at: Path, before: Forest, message: string, delete: bool)
    requires at != []
    ensures BatchMap(at, Leaf(before, message, delete)) == BatchMap(at, before)
  {
    hide Render, Named;
    var f := Leaf(before, message, delete);
    assert BatchMap(at + [f.Name()], Nil) == map[];
    assert BatchMap(at, before) + map[] == BatchMap(at, before);
  }

  lemma NodeBatches(at: Path, before: Forest, message: string, delete: bool, inner: Forest)
    requires at != []
    ensures BatchMap(at, Then(before, message, None, None, delete, inner)) == BatchMap(at, before) + BatchMap(at + [message], inner)
  {
    hide Render;
    assert Then(before, message, None, None, delete, inner).Name() == message;
    var m := BatchMap(at, before) + BatchMap(at + [message], inner);
    assert m + map[] == m;
  }

  lemma EmptyBatches(at: Path)
    requires at != []
    ensures BatchMap(at, Nil) == map[]
    ensures forall m: map<string, Batch> :: map[] + m == m && m + map[] == m
  {
  }

  /** The batches of one operator are its completed iterations. */
  lemma InsideBatches(at: Path, op: Operator, n: nat, batchSize: int)
    requires at != []
    ensures BatchMap(at, Inside(op, n, batchSize))
         == if op.initOk then BatchMap(at + [RUN], Iterations(op, Started(op, n), batchSize)) else map[]
  {
    hide BatchMap, Iterations, Started;
    EmptyBatches(at);
    EmptyBatches(at + [PARAMS]);
    LeafBatches(at, Nil, INIT, false);
    LeafBatches(at, Nil, INIT, true);
    NodeBatches(at, Leaf(Nil, INIT, false), RUN, FailsWithin(op, n), Iterations(op, Started(op, n), batchSize));
    LeafBatches(at + [PARAMS], Nil, op.params, false);
    NodeBatches(at, Timed(op, n, batchSize), PARAMS, false, Leaf(Nil, op.params, false));
  }

  /** Iteration `j` of the `i`-th operator was recorded as a batch. */
  predicate IsIteration(ops: seq<Operator>, n: nat, i: nat, j: nat) {
    i < |ops| && ops[i].initOk && j < Done(ops[i], n)
  }

  lemma OperatorBatches(root: Path, op: Operator, n: nat, batchSize: int, k: string)
    requires root != []
    ensures var m := BatchMap(root + [op.name], Inside(op, n, batchSize));
            && (k in m <==> op.initOk && exists j: nat :: j < Done(op, n) && k == IterKey(root, op, j))
            && (k in m ==> exists j: nat :: j < Done(op, n) && k == IterKey(root, op, j) && m[k] == Batch(Some(j), batchSize))
  {
    hide Render, Named, BatchMap, Iterations;
    var at := root + [op.name];
    InsideBatches(at, op, n, batchSize);
    IterationBatches(at + [RUN], op, Started(op, n), batchSize, k);
    forall j: nat ensures j < Started(op, n) && op.failsAt != Some(j) <==> j < Done(op, n) {
    }
    forall j: nat ensures Render(at + [RUN] + [Named(ITER, Some(j))]) == IterKey(root, op, j) {
      assert at + [RUN] + [Named(ITER, Some(j))] == root + [op.name, RUN, Named(ITER, Some(j))];
    }
  }

  /** The batches of the whole loop. */
  lemma {:induction false} ProgramBatches(root: Path, ops: seq<Operator>, n: nat, batchSize: int, k: string)
    requires root != []
    ensures var m := BatchMap(root, Program(ops, n, batchSize));
            && (k in m <==> exists i: nat, j: nat :: IsIteration(ops, n, i, j) && k == IterKey(root, ops[i], j))
            && (k in m ==> exists i: nat, j: nat :: IsIteration(ops, n, i, j) && k == IterKey(root, ops[i], j) && m[k] == Batch(Some(j), batchSize))
  {
    hide Inside, BatchMap, IterKey, Done;
    if ops == [] {
      EmptyBatches(root);
    } else {
      var init, op := ops[..|ops| - 1], ops[|ops| - 1];
      ProgramBatches(root, init, n, batchSize, k);
      OperatorBatches(root, op, n, batchSize, k);
      NodeBatches(root, Program(init, n, batchSize), op.name, !Succeeds(op, n), Inside(op, n, batchSize));
      forall i: nat, j: nat | IsIteration(init, n, i, j) ensures IsIteration(ops, n, i, j) && ops[i] == init[i] {
      }
      forall i: nat, j: nat | IsIteration(ops, n, i, j) && i < |init| ensures IsIteration(init, n, i, j) && ops[i] == init[i] {
      }
      var m1, m2 := BatchMap(root, Program(init, n, batchSize)), BatchMap(root + [op.name], Inside(op, n, batchSize));
      if k in m2 {
        var j: nat :| j < Done(op, n) && k == IterKey(root, op, j) && m2[k] == Batch(Some(j), batchSize);
        assert IsIteration(ops, n, |init|, j);
      } else if k in m1 {
        var i: nat, j: nat :| IsIteration(init, n, i, j) && k == IterKey(root, init[i], j) && m1[k] == Batch(Some(j), batchSize);
        assert IsIteration(ops, n, i, j);
      }
      if i: nat, j: nat :| IsIteration(ops, n, i, j) && k == IterKey(root, ops[i], j) {
        if i < |init| { assert IsIteration(init, n, i, j); }
      }
    }
  }

  // ------------------------------------------------------------- a session of run_bench

  /** A run of `run_bench`: it starts from the recorder state `s` and its tables, with any measured times, are `t`. */
  datatype Bench = Bench(root: Path, s: State, keys: seq<string>, seen: set<Path>, ops: seq<Operator>, n: nat, batchSize: int, t: U.Tables) {
    /** The recorder is idle, has no batches yet and has opened no range named like an operator. */
    ghost predicate Valid() {
      && At(root, s, [], keys, 0, []) && AllInv(root, s, seen) && s.stack == [] && s.batchInfo == PyDict.Empty()
      && CleanOps(ops, n) && DistinctOps(ops)
      && (forall i, q :: 0 <= i < |ops| && q in seen ==> !(root + [ops[i].name] <= q))
      && Measured(After(s, ops, n, batchSize), t) && PlainKeys(t)
    }
  }

  /** A new recorder is a valid start. */
  lemma NewRecorderIsValid(root: Path, ops: seq<Operator>, n: nat, batchSize: int, t: U.Tables)
    requires Components(root) && CleanOps(ops, n) && DistinctOps(ops)
    requires Measured(After(Initial(Render(root), true), ops, n, batchSize), t) && PlainKeys(t)
    ensures Bench(root, Initial(Render(root), true), [], {}, ops, n, batchSize, t).Valid()
  {
    InitialAll(root);
    AtInitial(root);
    hide At, AllInv, CleanOps, DistinctOps, Measured, PlainKeys, After, Render;
  }

  lemma BenchTables(b: Bench)
    requires b.Valid()
    ensures I.FromRecorder(b.root, b.t) && U.Usable(b.t) && I.Indexed(b.t) && Components(b.root)
  {
    BenchWellRecorded(b.root, b.s, b.seen, b.ops, b.n, b.batchSize);
    AllComponents(b.root, b.s, b.seen);
    var s' := After(b.s, b.ops, b.n, b.batchSize);
    forall k | k in b.t.batches.vals ensures b.t.batches.vals[k].idx.Some? {
      BenchBatch(b, k);
    }
    hide AllInv, At, Program, RunAll, Calls, After, CleanOps, DistinctOps, WellRecorded;
    TablesFine(b.root, s', b.t);
  }

  lemma AllComponents(root: Path, s: State, seen: set<Path>)
    requires AllInv(root, s, seen)
    ensures Components(root)
  {
  }

  /** The batch table holds exactly the completed iterations. */
  lemma BenchBatch(b: Bench, k: string)
    requires b.Valid()
    ensures b.root != []
    ensures k in b.t.batches.vals <==> exists i: nat, j: nat :: IsIteration(b.ops, b.n, i, j) && k == IterKey(b.root, b.ops[i], j)
    ensures k in b.t.batches.vals ==>
              exists i: nat, j: nat :: IsIteration(b.ops, b.n, i, j) && k == IterKey(b.root, b.ops[i], j) && b.t.batches.vals[k] == Batch(Some(j), b.batchSize)
  {
    assert b.root != [] by { AllComponents(b.root, b.s, b.seen); }
    ProgramMatched(b.ops, b.n, b.batchSize);
    ProgramFine(b.ops, b.n, b.batchSize);
    hide At, AllInv, Program, RunAll, Calls, BatchMap, IterKey, CleanOps, DistinctOps, PlainKeys, IsIteration, Survivors;
    CallsBatches(b.root, b.s, [], b.keys, 0, [], Program(b.ops, b.n, b.batchSize));
    assert b.root + [] == b.root;
    NoBatchesYet(BatchMap(b.root, Program(b.ops, b.n, b.batchSize)));
    ProgramBatches(b.root, b.ops, b.n, b.batchSize, k);
  }

  lemma NoBatchesYet(m: map<string, Batch>)
    ensures PyDict.Empty<Batch>().vals + m == m
  {
  }

  /** The operator succeeded and no failed operator's name is a prefix of its name. */
  ghost predicate Lasting(ops: seq<Operator>, n: nat, i: nat) {
    i < |ops| && Succeeds(ops[i], n) && !exists j :: 0 <= j < |ops| && !Succeeds(ops[j], n) && ops[j].name <= ops[i].name
  }

  lemma IterPath(root: Path, op: Operator, j: nat)
    requires Components(root) && Component(op.name)
    ensures var p := root + [op.name, RUN, Named(ITER, Some(j))];
            && Components(p) && IterKey(root, op, j) == Render(p) && Split(IterKey(root, op, j)) == p
            && Dirname(IterKey(root, op, j)) == RunKey(root, op)
    ensures Components(root + [op.name, RUN]) && Split(RunKey(root, op)) == root + [op.name, RUN]
  {
    FixedNames();
    IterName(j);
    hide Render, Split, Dirname, Component, Named;
    var r := root + [op.name, RUN];
    assert Components(r);
    JoinAppends(r, Named(ITER, Some(j)));
    assert r + [Named(ITER, Some(j))] == root + [op.name, RUN, Named(ITER, Some(j))];
    SplitRender(r);
    SplitRender(r + [Named(ITER, Some(j))]);
  }

  lemma IterIsKept(root: Path, op: Operator, n: nat, j: nat)
    requires root != [] && j < n
    ensures IterKey(root, op, j) in Kept(root, op, n) && RunKey(root, op) in Kept(root, op, n)
  {
    InIterKeys(root + [op.name, RUN], n, j);
    assert root + [op.name, RUN] + [Named(ITER, Some(j))] == root + [op.name, RUN, Named(ITER, Some(j))];
    hide Render, IterKeys, Named;
  }

  lemma {:induction false} InIterKeys(at: Path, n: nat, j: nat)
    requires j < n
    ensures Render(at + [Named(ITER, Some(j))]) in IterKeys(at, n)
  {
    hide Render, Named;
    if j < n - 1 { InIterKeys(at, n - 1, j); }
  }

  /** A surviving path at or below an operator's range belongs to that operator, which lasts. */
  lemma SurvivorLasts(b: Bench, i: nat, k: string)
    requires b.Valid() && i < |b.ops|
    requires k in b.t.data.keys && b.root + [b.ops[i].name] <= Split(k)
    ensures Lasting(b.ops, b.n, i)
  {
    assert b.root != [] by { AllComponents(b.root, b.s, b.seen); }
    AllComponents(b.root, b.s, b.seen);
    OldKeyElsewhere(b.root, b.s, b.keys, b.seen, b.ops, i, k);
    hide AllInv, At, RunAll, Calls, Program, Kept, Survivors, CleanOps, DistinctOps, Succeeds, PlainKeys;
    SurvivorsExact(b.root, b.s, b.keys, b.ops, b.n, b.batchSize, k);
    var i' :| 0 <= i' < |b.ops| && Succeeds(b.ops[i'], b.n) && k in Kept(b.root, b.ops[i'], b.n);
    SameOperator(b.root, b.ops, b.n, i, i', k);
    SuccessSurvives(b.root, b.s, b.keys, b.ops, b.n, b.batchSize, i, k);
  }

  lemma OldKeyElsewhere(root: Path, s: State, keys: seq<string>, seen: set<Path>, ops: seq<Operator>, i: nat, k: string)
    requires At(root, s, [], keys, 0, []) && AllInv(root, s, seen) && i < |ops| && root + [ops[i].name] <= Split(k)
    requires forall i, q :: 0 <= i < |ops| && q in seen ==> !(root + [ops[i].name] <= q)
    ensures k !in keys
  {
    assert k in keys ==> Split(k) in seen by {
      if k in keys { KeyOpened(root, s, seen, k); }
    }
  }

  lemma KeyOpened(root: Path, s: State, seen: set<Path>, k: string)
    requires AllInv(root, s, seen) && k in s.timing.keys
    ensures Split(k) in seen
  {
    hide Split, DescendantsFirst, Render, InsideInfoRight, TotalsRight, Counts, FollowsStack;
    SelfPrefix(Split(k));
  }

  lemma SameOperator(root: Path, ops: seq<Operator>, n: nat, i: nat, i': nat, k: string)
    requires Components(root) && CleanOps(ops, n) && DistinctOps(ops) && i < |ops| && i' < |ops| && Succeeds(ops[i'], n)
    requires k in Kept(root, ops[i'], n) && root + [ops[i].name] <= Split(k)
    ensures i' == i
  {
    assert CleanOps([ops[i']], n) by { assert [ops[i']][0] == ops[i']; }
    var p := KeptBelow(root, ops[i'], n, k);
    hide Kept, Render, Split, Succeeds, CleanOps, Component;
    SplitRender(p);
    assert p[|root|] == (root + [ops[i'].name])[|root|] == ops[i'].name;
    assert p[|root|] == (root + [ops[i].name])[|root|] == ops[i].name;
  }

  lemma LastingSurvives(b: Bench, i: nat, k: string)
    requires b.Valid() && Lasting(b.ops, b.n, i) && b.root != [] && k in Kept(b.root, b.ops[i], b.n)
    ensures k in b.t.data.keys
  {
    hide AllInv, At, RunAll, Calls, Program, Kept, Survivors, CleanOps, DistinctOps, Succeeds, PlainKeys;
    SuccessSurvives(b.root, b.s, b.keys, b.ops, b.n, b.batchSize, i, k);
  }

  /** The level of an operator's iterations lies outside all batches. */
  lemma RunIsOutside(b: Bench, i: nat)
    requires b.Valid() && i < |b.ops|
    ensures b.root != [] && RunKey(b.root, b.ops[i]) !in b.t.batches.vals
    ensures RunKey(b.root, b.ops[i]) in b.t.data.keys ==> RunKey(b.root, b.ops[i]) !in b.t.inside
  {
    AllComponents(b.root, b.s, b.seen);
    var k := RunKey(b.root, b.ops[i]);
    NameClean(b.ops, b.n, i);
    IterPath(b.root, b.ops[i], 0);
    forall k' | k' in b.t.batches.vals ensures !(Split(k') <= Split(k)) {
      BenchBatch(b, k');
      var i': nat, j: nat :| IsIteration(b.ops, b.n, i', j) && k' == IterKey(b.root, b.ops[i'], j);
      NameClean(b.ops, b.n, i');
      IterPath(b.root, b.ops[i'], j);
    }
    BenchTables(b);
    InsideMeans(b.root, b.t, k);
    hide *;
    SelfPrefix(Split(k));
  }

  lemma SelfPrefix(p: Path)
    ensures p <= p
  {
  }

  lemma NameClean(ops: seq<Operator>, n: nat, i: nat)
    requires CleanOps(ops, n) && i < |ops|
    ensures Component(ops[i].name)
  {
  }

  lemma InsideMeans(root: Path, t: U.Tables, k: string)
    requires I.FromRecorder(root, t)
    ensures k in t.data.keys && k in t.inside ==> exists b :: b in t.batches.vals && Split(b) <= Split(k)
  {
    hide Split, DescendantsFirst, PositiveBelow, U.Usable;
  }

  /** Whatever failed, the expanded tree of a session is built without an exception. */
  lemma BenchUnflattens(b: Bench, warmup: int)
    requires b.Valid()
    ensures U.Usable(b.t) && W.Unflattened(b.t, warmup).Ok?
  {
    hide *;
    BenchTables(b);
    forall k | k in b.t.data.keys && k in b.t.batches.vals ensures I.Reported(b.t, Dirname(k)) {
      LevelReported(b, k);
    }
    I.ReturnsIff(b.root, b.t, warmup);
  }

  lemma LevelReported(b: Bench, k: string)
    requires b.Valid() && k in b.t.data.keys && k in b.t.batches.vals
    ensures I.Reported(b.t, Dirname(k))
  {
    AllComponents(b.root, b.s, b.seen);
    BenchBatch(b, k);
    var i: nat, j: nat :| IsIteration(b.ops, b.n, i, j) && k == IterKey(b.root, b.ops[i], j);
    NameClean(b.ops, b.n, i);
    IterPath(b.root, b.ops[i], j);
    hide Bench.Valid, Kept, Render, Split, IterKey, RunKey, I.Around, Component, Dirname, Done, Lasting;
    assert b.root + [b.ops[i].name] <= Split(k);
    SurvivorLasts(b, i, k);
    LastingDone(b.ops, b.n, i);
    IterIsKept(b.root, b.ops[i], b.n, j);
    LastingSurvives(b, i, RunKey(b.root, b.ops[i]));
    RunIsOutside(b, i);
  }

  lemma LastingDone(ops: seq<Operator>, n: nat, i: nat)
    requires Lasting(ops, n, i)
    ensures i < |ops| && ops[i].initOk && Done(ops[i], n) == n
  {
  }

  // ------------------------------------------------------------- the statistics of a session

  /** The level's iterations in order. */
  ghost function LevelKeys(root: Path, op: Operator, m: nat): (bs: seq<string>)
    requires root != []
    ensures |bs| == m && forall j :: 0 <= j < m ==> bs[j] == IterKey(root, op, j)
  {
    seq(m, j requires 0 <= j < m => IterKey(root, op, j))
  }

  lemma IterKeysDiffer(root: Path, op: Operator, op': Operator, j: nat, j': nat)
    requires Components(root) && Component(op.name) && Component(op'.name)
    ensures IterKey(root, op, j) == IterKey(root, op', j') <==> op.name == op'.name && j == j'
    ensures Dirname(IterKey(root, op, j)) == RunKey(root, op')  <==> op.name == op'.name
  {
    IterPath(root, op, j);
    IterPath(root, op', j');
    hide IterKey, Render, Split, Dirname, Named, RunKey;
    var p, p' := root + [op.name, RUN, Named(ITER, Some(j))], root + [op'.name, RUN, Named(ITER, Some(j'))];
    assert p[|root|] == op.name && p'[|root|] == op'.name && p[|root| + 2] == Named(ITER, Some(j)) && p'[|root| + 2] == Named(ITER, Some(j'));
    var r, r' := root + [op.name, RUN], root + [op'.name, RUN];
    assert r[|root|] == op.name && r'[|root|] == op'.name;
    if Named(ITER, Some(j)) == Named(ITER, Some(j')) { SameIter(j, j'); }
  }

  /** An operator's level holds its completed iterations, numbered from 0, ... */
  lemma LevelBatch(b: Bench, i: nat, j: nat)
    requires b.Valid() && i < |b.ops| && b.ops[i].initOk && j < Done(b.ops[i], b.n) && b.root != []
    ensures var k := IterKey(b.root, b.ops[i], j); k in b.t.batches.vals && b.t.batches.vals[k] == Batch(Some(j), b.batchSize) && Dirname(k) == RunKey(b.root, b.ops[i])
  {
    AllComponents(b.root, b.s, b.seen);
    NameClean(b.ops, b.n, i);
    var k := IterKey(b.root, b.ops[i], j);
    IterPath(b.root, b.ops[i], j);
    BenchBatch(b, k);
    hide Bench.Valid, IterKey, RunKey, Dirname, Component, Components;
    assert IsIteration(b.ops, b.n, i, j);
    var i': nat, j': nat :| IsIteration(b.ops, b.n, i', j') && k == IterKey(b.root, b.ops[i'], j') && b.t.batches.vals[k] == Batch(Some(j'), b.batchSize);
    NamesOf(b, i');
    IterKeysDiffer(b.root, b.ops[i], b.ops[i'], j, j');
  }

  lemma NamesOf(b: Bench, i: nat)
    requires b.Valid() && i < |b.ops|
    ensures Components(b.root) && Component(b.ops[i].name)
    ensures forall j :: 0 <= j < |b.ops| && b.ops[j].name == b.ops[i].name ==> j == i
  {
    AllComponents(b.root, b.s, b.seen);
    NameClean(b.ops, b.n, i);
    hide AllInv, At, Measured, PlainKeys, CleanOps, Component;
  }

  /** ... and nothing else. */
  lemma BatchOfLevel(b: Bench, i: nat, k: string)
    requires b.Valid() && i < |b.ops| && b.ops[i].initOk && b.root != []
    requires k in b.t.batches.vals && Dirname(k) == RunKey(b.root, b.ops[i])
    ensures exists j: nat :: j < Done(b.ops[i], b.n) && k == IterKey(b.root, b.ops[i], j)
  {
    BenchBatch(b, k);
    hide Bench.Valid, IterKey, RunKey, Dirname, Component, Components;
    var i': nat, j: nat :| IsIteration(b.ops, b.n, i', j) && k == IterKey(b.root, b.ops[i'], j);
    NamesOf(b, i');
    NamesOf(b, i);
    IterKeysDiffer(b.root, b.ops[i'], b.ops[i], j, j);
    assert i' == i;
  }

  /** The recorder's count of positive batches at an operator's level. */
  lemma LevelCount(b: Bench, i: nat)
    requires b.Valid() && i < |b.ops| && b.ops[i].initOk && b.batchSize > 0
    ensures b.root != [] && TotalAt(b.t.totalBatches, RunKey(b.root, b.ops[i])) == Done(b.ops[i], b.n)
  {
    hide *;
    BenchTables(b);
    NamesOf(b, i);
    RootThere(b.root);
    var level := RunKey(b.root, b.ops[i]);
    TotalIsBelow(b.root, b.t, level);
    var below, bs := PositiveBelow(b.t.batches, level), LevelKeys(b.root, b.ops[i], Done(b.ops[i], b.n));
    IterationsDiffer(b.root, b.ops[i], Done(b.ops[i], b.n));
    I.SetOfDistinct(bs);
    forall k ensures k in below <==> k in bs {
      InPositiveBelow(b.t.batches, level, k);
      if k in bs {
        var j: nat :| j < |bs| && bs[j] == k;
        LevelBatch(b, i, j);
      }
      if k in below {
        BatchOfLevel(b, i, k);
        var j: nat :| j < Done(b.ops[i], b.n) && k == IterKey(b.root, b.ops[i], j);
        assert bs[j] == k;
      }
    }
    assert below == set k | k in bs;
  }

  lemma RootThere(root: Path)
    requires Components(root)
    ensures root != []
  {
  }

  lemma IterationsDiffer(root: Path, op: Operator, m: nat)
    requires Components(root) && Component(op.name)
    ensures var bs := LevelKeys(root, op, m); forall a, b :: 0 <= a < b < |bs| ==> bs[a] != bs[b]
  {
    hide *;
    RootThere(root);
    var bs := LevelKeys(root, op, m);
    forall a, b | 0 <= a < b < |bs| ensures bs[a] != bs[b] {
      IterKeysDiffer(root, op, op, a, b);
    }
  }

  lemma InPositiveBelow(batches: PyDict.Dict<Batch>, level: string, k: string)
    ensures k in PositiveBelow(batches, level) <==> k in batches.vals && batches.vals[k].items > 0 && Dirname(k) == level
  {
    hide Dirname;
  }

  lemma TotalIsBelow(root: Path, t: U.Tables, level: string)
    requires I.FromRecorder(root, t)
    ensures TotalAt(t.totalBatches, level) == |PositiveBelow(t.batches, level)|
  {
    hide DescendantsFirst, PositiveBelow, U.Usable, TotalAt;
  }

  /** An iteration is gathered iff it is positive and lies outside the warm-up at both ends of those completed. */
  lemma IterationGathered(b: Bench, warmup: nat, i: nat, j: nat)
    requires b.Valid() && IsIteration(b.ops, b.n, i, j) && b.root != []
    ensures var k := IterKey(b.root, b.ops[i], j);
            && k in b.t.batches.vals
            && B.Gathered(b.t, warmup, k) == Ok(b.batchSize > 0 && warmup <= j < Done(b.ops[i], b.n) - warmup)
  {
    LevelBatch(b, i, j);
    if b.batchSize > 0 { LevelCount(b, i); }
    hide Bench.Valid, IterKey, RunKey, Dirname, Done;
  }

  /** The subtree of an iteration is there iff its operator lasts. */
  lemma IterationThere(b: Bench, warmup: int, i: nat, j: nat)
    requires b.Valid() && IsIteration(b.ops, b.n, i, j) && b.root != []
    ensures U.Usable(b.t) && W.Unflattened(b.t, warmup).Ok?
    ensures var p := Split(IterKey(b.root, b.ops[i], j));
            ST.PlainPath(p) ==> (ST.IsNode(W.Unflattened(b.t, warmup).value, p) <==> Lasting(b.ops, b.n, i))
  {
    BenchUnflattens(b, warmup);
    NamesOf(b, i);
    IterPath(b.root, b.ops[i], j);
    var k := IterKey(b.root, b.ops[i], j);
    var p := Split(k);
    hide Bench.Valid, IterKey, RunKey, Dirname, Split, Render, Lasting, Component, Components, U.Usable, W.Unflattened, ST.IsNode, ST.PlainPath, Named, Kept;
    assert b.root + [b.ops[i].name] <= p;
    if ST.PlainPath(p) {
      I.TreeIsPrefixClosure(b.t, warmup, p);
      if x :| x in b.t.data.keys && p <= Split(x) {
        Longer(b.root + [b.ops[i].name], p, Split(x));
        SurvivorLasts(b, i, x);
      }
      if Lasting(b.ops, b.n, i) {
        LastingDone(b.ops, b.n, i);
        IterIsKept(b.root, b.ops[i], b.n, j);
        LastingSurvives(b, i, k);
        SelfPrefix(p);
      }
    }
  }

  lemma Longer(a: Path, b: Path, c: Path)
    requires a <= b && b <= c
    ensures a <= c
  {
  }

  /** `iter_j` is not a statistic's name. */
  lemma IterPlain(j: nat)
    ensures ST.Plain(Named(ITER, Some(j))) && ST.Plain(RUN)
  {
    assert Named(ITER, Some(j))[0] == 'i' && RUN[0] == 'r';
    hide Named;
    forall s: ST.Stat ensures ST.KeyOf(s)[0] != 'i' && ST.KeyOf(s)[0] != 'r' && ST.KeyOf(s) != "" {
    }
  }

  /** The statistics of a session can be collected iff every operator that lost its ranges, by failing or through the
      prefix of a failed one, completed at most `2 * warmup` iterations; one more and the lookup of a deleted batch raises. */
  lemma BenchCollectsIff(b: Bench, warmup: nat)
    requires b.Valid()
    requires ST.PlainPath(b.root) && forall i :: 0 <= i < |b.ops| ==> ST.Plain(b.ops[i].name)
    ensures U.Usable(b.t) && W.Unflattened(b.t, warmup).Ok? && b.t.batches.Valid()
    ensures B.Stats(b.t, warmup, W.Unflattened(b.t, warmup).value, |b.t.batches.keys|).Ok?
       <==> b.batchSize <= 0 || forall i :: 0 <= i < |b.ops| && b.ops[i].initOk ==> Lasting(b.ops, b.n, i) || Done(b.ops[i], b.n) <= 2 * warmup
  {
    BenchUnflattens(b, warmup);
    BenchTables(b);
    BatchesValid(b.root, b.t);
    assert b.root != [];
    hide *;
    var tree := W.Unflattened(b.t, warmup).value;
    UnflattenedShaped(b.t, warmup);
    BatchesClassified(b, warmup);
    B.CollectsIff(b.t, warmup, tree);
    if b.batchSize > 0 && exists i :: 0 <= i < |b.ops| && b.ops[i].initOk && !Lasting(b.ops, b.n, i) && Done(b.ops[i], b.n) > 2 * warmup {
      var i :| 0 <= i < |b.ops| && b.ops[i].initOk && !Lasting(b.ops, b.n, i) && Done(b.ops[i], b.n) > 2 * warmup;
      MiddleIteration(b.ops, b.n, i, warmup);
      IterationGathered(b, warmup, i, warmup);
      IterationPlain(b, i, warmup);
      IterationThere(b, warmup, i, warmup);
    } else {
      forall k | k in b.t.batches.vals && B.Gathered(b.t, warmup, k) == Ok(true) ensures ST.IsNode(tree, Split(k)) {
        var i, j := FindIteration(b, k);
        IterationGathered(b, warmup, i, j);
        IterationPlain(b, i, j);
        IterationThere(b, warmup, i, j);
        IsIterationOf(b.ops, b.n, i, j);
      }
    }
  }

  lemma BatchesClassified(b: Bench, warmup: nat)
    requires b.Valid()
    requires ST.PlainPath(b.root) && forall i :: 0 <= i < |b.ops| ==> ST.Plain(b.ops[i].name)
    ensures forall k :: k in b.t.batches.vals ==> B.Gathered(b.t, warmup, k).Ok? && ST.PlainPath(Split(k))
  {
    hide *;
    forall k | k in b.t.batches.vals ensures B.Gathered(b.t, warmup, k).Ok? && ST.PlainPath(Split(k)) {
      var i, j := FindIteration(b, k);
      IterationGathered(b, warmup, i, j);
      IterationPlain(b, i, j);
    }
  }

  lemma BatchesValid(root: Path, t: U.Tables)
    requires I.FromRecorder(root, t)
    ensures t.batches.Valid()
  {
    hide DescendantsFirst, PositiveBelow, U.Usable, TotalAt, Split;
  }

  lemma UnflattenedShaped(t: U.Tables, warmup: int)
    requires U.Usable(t) && W.Unflattened(t, warmup).Ok?
    ensures ST.Shaped(W.Unflattened(t, warmup).value)
  {
    hide U.Pass, W.Finish, ST.Shaped, U.Usable;
  }

  lemma MiddleIteration(ops: seq<Operator>, n: nat, i: nat, warmup: nat)
    requires i < |ops| && ops[i].initOk && Done(ops[i], n) > 2 * warmup
    ensures IsIteration(ops, n, i, warmup) && warmup < Done(ops[i], n) - warmup
  {
  }

  lemma IsIterationOf(ops: seq<Operator>, n: nat, i: nat, j: nat)
    requires IsIteration(ops, n, i, j)
    ensures i < |ops| && ops[i].initOk && j < Done(ops[i], n)
  {
  }

  lemma FindIteration(b: Bench, k: string)
      returns (i: nat, j: nat)
    requires b.Valid() && k in b.t.batches.vals
    ensures b.root != [] && IsIteration(b.ops, b.n, i, j) && k == IterKey(b.root, b.ops[i], j)
  {
    BenchBatch(b, k);
    hide Bench.Valid, IsIteration, IterKey;
    i, j :| IsIteration(b.ops, b.n, i, j) && k == IterKey(b.root, b.ops[i], j);
  }

  lemma IterationPlain(b: Bench, i: nat, j: nat)
    requires b.Valid() && IsIteration(b.ops, b.n, i, j) && b.root != []
    requires ST.PlainPath(b.root) && forall i :: 0 <= i < |b.ops| ==> ST.Plain(b.ops[i].name)
    ensures ST.PlainPath(Split(IterKey(b.root, b.ops[i], j)))
  {
    NamesOf(b, i);
    IterPath(b.root, b.ops[i], j);
    IterPlain(j);
    hide *;
    PlainThree(b.root, b.ops[i].name, RUN, Named(ITER, Some(j)));
  }

  lemma PlainThree(root: Path, a: string, b: string, c: string)
    requires ST.PlainPath(root) && ST.Plain(a) && ST.Plain(b) && ST.Plain(c)
    ensures ST.PlainPath(root + [a, b, c])
  {
    hide ST.Plain;
  }

  // ------------------------------------------------------------- what an operator reports

  /** A lasting operator's `run_op` reports all its iterations' items, and without the warm-up those of the middle ones. */
  lemma OperatorItems(b: Bench, warmup: nat, i: nat)
    requires b.Valid() && Lasting(b.ops, b.n, i) && b.n >= 1 && b.batchSize > 0
    ensures U.Usable(b.t) && W.Unflattened(b.t, warmup).Ok? && b.root != []
    ensures var tree, p := W.Unflattened(b.t, warmup).value, b.root + [b.ops[i].name, RUN];
            && ST.StatAt(tree, p, ST.Total) == Some((b.n * b.batchSize) as real)
            && ST.StatAt(tree, p, ST.Minus) == Some(((if 2 * warmup <= b.n then b.n - 2 * warmup else 0) * b.batchSize) as real)
  {
    hide *;
    LastingDone(b.ops, b.n, i);
    BenchUnflattens(b, warmup);
    BenchTables(b);
    NamesOf(b, i);
    RunIsOutside(b, i);
    var level := RunKey(b.root, b.ops[i]);
    LevelNumbered(b, i);
    var bs := LevelKeys(b.root, b.ops[i], b.n);
    I.RecorderOrder(b.root, b.t);
    I.UniformLevel(b.t, warmup, level, bs, b.batchSize);
    FirstIteration(b.t, level, bs);
    IterPath(b.root, b.ops[i], 0);
    IterIsKept(b.root, b.ops[i], b.n, 0);
    LastingSurvives(b, i, level);
    I.ItemsConserved(b.root, b.t, warmup, level);
  }

  lemma FirstIteration(t: U.Tables, level: string, bs: seq<string>)
    requires I.NumberedBatches(t, level, bs) && bs != []
    ensures U.HasBatch(t, |t.data.keys|, level)
  {
    var k := bs[0];
    var j :| 0 <= j < |t.data.keys| && t.data.keys[j] == k;
    I.BatchHasLevel(t, |t.data.keys|, j);
    hide U.HasBatch, Dirname;
  }

  lemma LevelNumbered(b: Bench, i: nat)
    requires b.Valid() && Lasting(b.ops, b.n, i) && b.n >= 1 && b.batchSize > 0
    ensures b.root != []
    ensures var level, bs := RunKey(b.root, b.ops[i]), LevelKeys(b.root, b.ops[i], b.n);
            && I.NumberedBatches(b.t, level, bs)
            && level in b.t.totalBatches && b.t.totalBatches[level] == |bs|
            && forall k :: k in b.t.data.keys && k in b.t.batches.vals && Dirname(k) == level ==> b.t.batches.vals[k].items == b.batchSize
  {
    hide *;
    LastingDone(b.ops, b.n, i);
    BenchTables(b);
    RootThere(b.root);
    LevelCount(b, i);
    var level, bs := RunKey(b.root, b.ops[i]), LevelKeys(b.root, b.ops[i], b.n);
    TotalThere(b.t.totalBatches, level);
    forall j: nat | j < b.n
      ensures bs[j] in b.t.data.keys && bs[j] in b.t.batches.vals && Dirname(bs[j]) == level && b.t.batches.vals[bs[j]] == Batch(Some(j), b.batchSize)
    {
      IterIsKept(b.root, b.ops[i], b.n, j);
      LastingSurvives(b, i, bs[j]);
      LevelBatch(b, i, j);
    }
    forall k | k in b.t.batches.vals && Dirname(k) == level ensures k in bs && b.t.batches.vals[k].items == b.batchSize {
      BatchOfLevel(b, i, k);
      var j: nat :| j < b.n && k == IterKey(b.root, b.ops[i], j);
      assert bs[j] == k;
    }
    NumberedIntro(b.t, level, bs, b.batchSize);
  }

  lemma TotalThere(totals: map<string, int>, level: string)
    requires TotalAt(totals, level) >= 1
    ensures level in totals && totals[level] == TotalAt(totals, level)
  {
  }

  lemma NumberedIntro(t: U.Tables, level: string, bs: seq<string>, batchSize: int)
    requires batchSize > 0
    requires forall j: nat :: j < |bs| ==> bs[j] in t.data.keys && bs[j] in t.batches.vals && Dirname(bs[j]) == level && t.batches.vals[bs[j]] == Batch(Some(j), batchSize)
    requires forall k :: k in t.batches.vals && Dirname(k) == level ==> k in bs
    ensures I.NumberedBatches(t, level, bs)
  {
    hide Dirname;
  }
}
