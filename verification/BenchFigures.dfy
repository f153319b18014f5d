/**
 What the report of `run_bench` says operator by operator.  The order in which the
 recorder lists keys decides two things: whether an operator's own range takes in the
 items of another one, and which measured times a level's record is made of.
 */
module BenchFigures {
  import opened Text
  import opened Paths
  import opened PyDict
  import opened PerfRecorder
  import opened RecorderRuns
  import opened NestedRuns
  import opened RunBench
  import RunPaths
  import opened BenchReport
  import ST = StatTree
  import U = Unflatten
  import W = WarmUp
  import I = ItemTotals
  import B = BatchStats
  import G = GatherStats
  import R = Report

  // ------------------------------------------------------------- the order of the keys

  lemma {:induction false} AddAllPrefix(keys: seq<string>, ks: seq<string>)
    ensures keys <= AddAll(keys, ks)
  {
    if ks != [] { AddAllPrefix(keys, ks[..|ks| - 1]); }
  }

  /** The keys in the timing table after the first `m` operators, nothing deleted yet. */
  function KeysAfter(root: Path, keys: seq<string>, ops: seq<Operator>, n: nat, batchSize: int, m: nat): seq<string>
    requires root != [] && m <= |ops|
  {
    AddAll(keys, Recorded(root, Program(ops[..m], n, batchSize)))
  }

  lemma KeysStep(root: Path, keys: seq<string>, ops: seq<Operator>, n: nat, batchSize: int, m: nat)
    requires root != [] && m < |ops|
    ensures KeysAfter(root, keys, ops, n, batchSize, m + 1)
         == AddAll(KeysAfter(root, keys, ops, n, batchSize, m), OpRecords(root, ops[m], n, batchSize))
  {
    hide AddAll, Recorded, Program, OpRecords;
    assert ops[..m + 1][..m] == ops[..m];
    RecordsSnoc(root, ops[..m + 1], n, batchSize);
    AddAllAppend(keys, Recorded(root, Program(ops[..m], n, batchSize)), OpRecords(root, ops[m], n, batchSize));
  }

  lemma {:induction false} KeysPrefix(root: Path, keys: seq<string>, ops: seq<Operator>, n: nat, batchSize: int, m: nat, m': nat)
    requires root != [] && m <= m' <= |ops|
    ensures KeysAfter(root, keys, ops, n, batchSize, m) <= KeysAfter(root, keys, ops, n, batchSize, m')
    decreases m'
  {
    hide *;
    if m == m' {
      SelfPrefix(KeysAfter(root, keys, ops, n, batchSize, m));
    } else {
      KeysPrefix(root, keys, ops, n, batchSize, m, m' - 1);
      KeysStep(root, keys, ops, n, batchSize, m' - 1);
      AddAllPrefix(KeysAfter(root, keys, ops, n, batchSize, m' - 1), OpRecords(root, ops[m' - 1], n, batchSize));
      PrefixTrans(KeysAfter(root, keys, ops, n, batchSize, m), KeysAfter(root, keys, ops, n, batchSize, m' - 1), KeysAfter(root, keys, ops, n, batchSize, m'));
    }
  }

  lemma PrefixTrans(a: seq<string>, b: seq<string>, c: seq<string>)
    requires a <= b && b <= c
    ensures a <= c
  {
  }

  lemma KeysMembers(root: Path, keys: seq<string>, ops: seq<Operator>, n: nat, batchSize: int, m: nat, k: string)
    requires Components(root) && CleanOps(ops, n) && m <= |ops|
    ensures root != []
    ensures k in KeysAfter(root, keys, ops, n, batchSize, m)
       <==> k in keys || exists i :: 0 <= i < m && k in OpRecords(root, ops[i], n, batchSize)
  {
    var init := ops[..m];
    hide AddAll, Recorded, Program, OpRecords, Component, Succeeds;
    assert CleanOps(init, n);
    AddAllMembers(keys, Recorded(root, Program(init, n, batchSize)), k);
    ProgramRecords(root, init, n, batchSize, k);
    if i :| 0 <= i < m && k in OpRecords(root, ops[i], n, batchSize) {
      assert k in OpRecords(root, init[i], n, batchSize);
    }
    if i :| 0 <= i < |init| && k in OpRecords(root, init[i], n, batchSize) {
      assert k in OpRecords(root, ops[i], n, batchSize);
    }
  }

  /** In a list without repetition, what is in a prefix comes before what is not. */
  lemma PrefixFirst(a: seq<string>, c: seq<string>, i: nat, j: nat)
    requires a <= c && forall p, q :: 0 <= p < q < |c| ==> c[p] != c[q]
    requires i < |c| && j < |c| && c[i] in a && c[j] !in a
    ensures i < j
  {
    var p :| 0 <= p < |a| && a[p] == c[i];
    assert c[p] == c[i];
    forall q | 0 <= q < |a| ensures c[q] in a {
      assert a[q] == c[q];
    }
  }

  /** The timing table of a session before the deletion pass. */
  lemma TimingTable(b: Bench)
    requires b.Valid()
    ensures b.root != []
    ensures var s := After(b.s, b.ops, b.n, b.batchSize);
            && s.timing.Valid() && s.timing.keys == KeysAfter(b.root, b.keys, b.ops, b.n, b.batchSize, |b.ops|)
            && b.t.data.keys == Survivors(s.timing, s.deleted).keys
  {
    AllComponents(b.root, b.s, b.seen);
    EndsWhereItBegan(b.root, b.s, b.keys, b.ops, b.n, b.batchSize);
    assert b.ops[..|b.ops|] == b.ops;
    hide At, AllInv, After, Program, Recorded, Gone, AddAll, CleanOps, DistinctOps, PlainKeys, Survivors;
    var p := Program(b.ops, b.n, b.batchSize);
    AtKeys(b.root, After(b.s, b.ops, b.n, b.batchSize), [], AddAll(b.keys, Recorded(b.root, p)), 0, Gone(b.root, p));
  }

  lemma SurvivorsKeepOrder(timing: Dict<(int, int)>, deleted: seq<string>, i: nat, j: nat) returns (i': nat, j': nat)
    requires timing.Valid() && i < j < |Survivors(timing, deleted).keys|
    ensures i' < j' < |timing.keys| && timing.keys[i'] == Survivors(timing, deleted).keys[i] && timing.keys[j'] == Survivors(timing, deleted).keys[j]
  {
    hide Spared;
    var keep := k => Spared(k, deleted);
    assert Filter(timing.keys, keep) == Survivors(timing, deleted).keys;
    i', j' := FilterKeepsOrder(timing.keys, keep, i, j);
  }

  /** A key of a successful operator is recorded with that operator and not before. */
  lemma RecordedThen(b: Bench, i: nat, k: string)
    requires b.Valid() && b.root != [] && i < |b.ops| && Succeeds(b.ops[i], b.n) && k in Kept(b.root, b.ops[i], b.n)
    ensures k !in KeysAfter(b.root, b.keys, b.ops, b.n, b.batchSize, i)
    ensures k in KeysAfter(b.root, b.keys, b.ops, b.n, b.batchSize, i + 1)
  {
    NamesOf(b, i);
    KeptPath(b, i, k);
    OldKeyElsewhere(b.root, b.s, b.keys, b.seen, b.ops, i, k);
    hide AllInv, At, Measured, PlainKeys, DistinctOps, KeysAfter, OpRecords, Kept, Component, Split;
    KeysMembers(b.root, b.keys, b.ops, b.n, b.batchSize, i, k);
    KeysMembers(b.root, b.keys, b.ops, b.n, b.batchSize, i + 1, k);
    RecordsOrFails(b.root, b.ops, i, b.n, b.batchSize, k);
    if i' :| 0 <= i' < i && k in OpRecords(b.root, b.ops[i'], b.n, b.batchSize) {
      NamesOf(b, i');
      RecordsBelow(b, i', k);
      TwoNames(b.root, b.ops[i].name, b.ops[i'].name, Split(k));
    }
  }

  lemma TwoNames(root: Path, x: string, y: string, p: Path)
    requires root + [x] <= p && root + [y] <= p
    ensures x == y
  {
    assert p[|root|] == (root + [x])[|root|] == x && p[|root|] == (root + [y])[|root|] == y;
  }

  lemma KeptPath(b: Bench, i: nat, k: string)
    requires b.Valid() && b.root != [] && i < |b.ops| && Succeeds(b.ops[i], b.n) && k in Kept(b.root, b.ops[i], b.n)
    ensures b.root + [b.ops[i].name] <= Split(k)
  {
    AllComponents(b.root, b.s, b.seen);
    assert CleanOps([b.ops[i]], b.n) by { assert [b.ops[i]][0] == b.ops[i]; }
    hide Bench.Valid, CleanOps, Kept, Succeeds, Split;
    var p := KeptBelow(b.root, b.ops[i], b.n, k);
    SplitRender(p);
  }

  lemma RecordsBelow(b: Bench, i: nat, k: string)
    requires b.Valid() && b.root != [] && i < |b.ops| && k in OpRecords(b.root, b.ops[i], b.n, b.batchSize)
    ensures b.root + [b.ops[i].name] <= Split(k)
  {
    AllComponents(b.root, b.s, b.seen);
    NamesOf(b, i);
    RecordsOrFails(b.root, b.ops, i, b.n, b.batchSize, k);
    if Succeeds(b.ops[i], b.n) {
      hide Bench.Valid, OpRecords, Kept, Succeeds, Split;
      KeptPath(b, i, k);
    } else {
      InsideFine(b.ops[i], b.n, b.batchSize);
      hide Bench.Valid, Inside, Succeeds, Split, Render, Component, Components;
      var p := AllBelow(b.root + [b.ops[i].name], Inside(b.ops[i], b.n, b.batchSize), k);
      SplitRender(p);
    }
  }

  /** Of two lasting operators, all that survives of the earlier one is listed before all that survives of the later one. */
  lemma EarlierFirst(b: Bench, j: nat, i: nat, p: nat, q: nat)
    requires b.Valid() && b.root != [] && j < i && Lasting(b.ops, b.n, j) && Lasting(b.ops, b.n, i)
    requires p < |b.t.data.keys| && b.t.data.keys[p] in Kept(b.root, b.ops[j], b.n)
    requires q < |b.t.data.keys| && b.t.data.keys[q] in Kept(b.root, b.ops[i], b.n)
    ensures p < q
  {
    hide *;
    var x, y := b.t.data.keys[p], b.t.data.keys[q];
    LastingSucceeds(b.ops, b.n, j);
    LastingSucceeds(b.ops, b.n, i);
    RecordedThen(b, j, x);
    RecordedThen(b, i, y);
    TimingTable(b);
    KeysPrefix(b.root, b.keys, b.ops, b.n, b.batchSize, j + 1, i);
    KeysPrefix(b.root, b.keys, b.ops, b.n, b.batchSize, i, |b.ops|);
    var before, all := KeysAfter(b.root, b.keys, b.ops, b.n, b.batchSize, i), KeysAfter(b.root, b.keys, b.ops, b.n, b.batchSize, |b.ops|);
    assert x in before;
    if q < p {
      var s := After(b.s, b.ops, b.n, b.batchSize);
      var q', p' := SurvivorsKeepOrder(s.timing, s.deleted, q, p);
      NoRepetition(s.timing);
      PrefixFirst(before, all, p', q');
    }
  }

  lemma NoRepetition<V>(d: Dict<V>)
    requires d.Valid()
    ensures forall i, j :: 0 <= i < j < |d.keys| ==> d.keys[i] != d.keys[j]
  {
  }

  lemma LastingSucceeds(ops: seq<Operator>, n: nat, i: nat)
    requires Lasting(ops, n, i)
    ensures i < |ops| && Succeeds(ops[i], n)
  {
  }

  // ------------------------------------------------------------- an operator's own range

  function OpKey(root: Path, op: Operator): string {
    Render(root + [op.name])
  }

  lemma OpPath(root: Path, op: Operator)
    requires Components(root) && Component(op.name)
    ensures Split(OpKey(root, op)) == root + [op.name]
  {
    hide Render, Split, Component;
    SplitRender(root + [op.name]);
  }

  /** The level of an iteration continues another operator's path inside its last component iff its operator's name continues the other's. */
  lemma NameContinues(root: Path, op: Operator, op': Operator, j: nat)
    requires Components(root) && Component(op.name) && Component(op'.name)
    ensures ExtendsInside(root + [op.name], I.LevelParts(IterKey(root, op', j))) <==> op.name < op'.name
  {
    IterPath(root, op', j);
    hide IterKey, Split, Component, Named;
    var q, l := root + [op.name], I.LevelParts(IterKey(root, op', j));
    assert l == root + [op'.name, RUN];
    assert q[..|q| - 1] == root == l[..|q| - 1];
  }

  /** No batch is at, directly below, or around an operator's own range. */
  lemma OwnRangeIsOuter(b: Bench, i: nat)
    requires b.Valid() && i < |b.ops| && b.root != []
    ensures var k := OpKey(b.root, b.ops[i]);
            && k !in b.t.batches.vals && !U.HasBatch(b.t, |b.t.data.keys|, k)
            && (k in b.t.data.keys ==> k !in b.t.inside)
  {
    BenchTables(b);
    NamesOf(b, i);
    OpPath(b.root, b.ops[i]);
    var k := OpKey(b.root, b.ops[i]);
    forall x | x in b.t.batches.vals ensures !(Split(x) <= Split(k)) && Dirname(x) != k {
      var i', j := FindIteration(b, x);
      IsIterationOf(b.ops, b.n, i', j);
      NamesOf(b, i');
      IterPath(b.root, b.ops[i'], j);
      hide Bench.Valid, OpKey, IterKey, Dirname, Component, Components, Named, Split;
      assert |Split(x)| == |b.root| + 3 && |Split(RunKey(b.root, b.ops[i']))| == |b.root| + 2;
    }
    InsideMeans(b.root, b.t, k);
    hide *;
    SelfPrefix(Split(k));
    if U.HasBatch(b.t, |b.t.data.keys|, k) { SomeBatch(b.t, |b.t.data.keys|, k); }
  }

  lemma {:induction false} SomeBatch(t: U.Tables, n: nat, level: string)
    requires n <= |t.data.keys| && U.HasBatch(t, n, level)
    ensures exists k :: k in t.batches.vals && Dirname(k) == level
  {
    hide Dirname;
    if n > 0 && !U.BatchAt(t, n - 1, level) { SomeBatch(t, n - 1, level); }
  }

  /** What lies beneath an operator's range is what lies directly in its run level. */
  lemma {:induction false} BeneathIsRun(b: Bench, i: nat, m: nat)
    requires b.Valid() && i < |b.ops| && b.ops[i].initOk && b.root != [] && m <= |b.t.data.keys|
    ensures I.Beneath(b.t, m, b.root + [b.ops[i].name]) == U.Direct(b.t, m, RunKey(b.root, b.ops[i]))
  {
    hide *;
    if m == 0 {
      NothingBeneath(b.t, b.root + [b.ops[i].name], RunKey(b.root, b.ops[i]));
    } else {
      BeneathIsRun(b, i, m - 1);
      BelowIsRun(b, i, b.t.data.keys[m - 1]);
      SumsStep(b.t, m, b.root + [b.ops[i].name], RunKey(b.root, b.ops[i]));
    }
  }

  lemma NothingBeneath(t: U.Tables, q: Path, level: string)
    ensures I.Beneath(t, 0, q) == 0 == U.Direct(t, 0, level)
  {
  }

  lemma SumsStep(t: U.Tables, m: nat, q: Path, level: string)
    requires 0 < m <= |t.data.keys|
    requires var k := t.data.keys[m - 1]; k in t.batches.vals ==> (q < Split(k) <==> Dirname(k) == level)
    ensures I.Beneath(t, m, q) - I.Beneath(t, m - 1, q) == U.Direct(t, m, level) - U.Direct(t, m - 1, level)
  {
    hide Split, Dirname;
  }

  lemma BelowIsRun(b: Bench, i: nat, k: string)
    requires b.Valid() && i < |b.ops| && b.root != []
    ensures k in b.t.batches.vals ==> (b.root + [b.ops[i].name] < Split(k) <==> Dirname(k) == RunKey(b.root, b.ops[i]))
  {
    hide *;
    if k in b.t.batches.vals {
      var i', j := FindIteration(b, k);
      IsIterationOf(b.ops, b.n, i', j);
      NamesOf(b, i);
      NamesOf(b, i');
      IterPath(b.root, b.ops[i'], j);
      IterKeysDiffer(b.root, b.ops[i'], b.ops[i], j, j);
      BelowName(b.root, b.ops[i].name, b.ops[i'].name, RUN, Named(ITER, Some(j)));
    }
  }

  lemma BelowName(root: Path, x: string, a: string, b: string, c: string)
    ensures root + [x] < root + [a, b, c] <==> x == a
  {
    var p := root + [a, b, c];
    assert p[..|root| + 1] == root + [a];
    if root + [x] < p { TwoNames(root, x, a, p); }
  }

  /** A lasting operator that is listed earlier and whose name properly continues that of the `i`-th. */
  ghost predicate LongerNameBefore(ops: seq<Operator>, n: nat, i: nat)
    requires i < |ops|
  {
    exists j :: 0 <= j < i && Lasting(ops, n, j) && ops[i].name < ops[j].name
  }

  lemma OwnKeyIndex(b: Bench, i: nat) returns (pos: nat)
    requires b.Valid() && b.root != [] && Lasting(b.ops, b.n, i)
    ensures i < |b.ops| && pos < |b.t.data.keys| && b.t.data.keys[pos] == OpKey(b.root, b.ops[i])
    ensures OpKey(b.root, b.ops[i]) in Kept(b.root, b.ops[i], b.n)
  {
    KeptSelf(b.root, b.ops[i], b.n);
    hide Bench.Valid, Kept, Lasting, Render;
    LastingSurvives(b, i, OpKey(b.root, b.ops[i]));
    pos :| 0 <= pos < |b.t.data.keys| && b.t.data.keys[pos] == OpKey(b.root, b.ops[i]);
  }

  lemma LookAlikeIff(b: Bench, i: nat, pos: nat)
    requires b.Valid() && b.root != [] && Lasting(b.ops, b.n, i) && b.n >= 1 && b.batchSize > 0
    requires pos < |b.t.data.keys| && b.t.data.keys[pos] == OpKey(b.root, b.ops[i]) && OpKey(b.root, b.ops[i]) in Kept(b.root, b.ops[i], b.n)
    ensures I.LookAlikeBefore(b.t, pos, b.root + [b.ops[i].name]) <==> LongerNameBefore(b.ops, b.n, i)
  {
    hide *;
    LastingDone(b.ops, b.n, i);
    NamesOf(b, i);
    var q := b.root + [b.ops[i].name];
    if LongerNameBefore(b.ops, b.n, i) {
      var j := TheLonger(b.ops, b.n, i);
      LastingDone(b.ops, b.n, j);
      NamesOf(b, j);
      IterIsKept(b.root, b.ops[j], b.n, 0);
      var k := IterKey(b.root, b.ops[j], 0);
      LastingSurvives(b, j, k);
      var p :| 0 <= p < |b.t.data.keys| && b.t.data.keys[p] == k;
      EarlierFirst(b, j, i, p, pos);
      LevelBatch(b, j, 0);
      NameContinues(b.root, b.ops[i], b.ops[j], 0);
      LookAlikeIntro(b.t, pos, p, q);
    }
    if I.LookAlikeBefore(b.t, pos, q) {
      var p := TheLookAlike(b.t, pos, q);
      var k := b.t.data.keys[p];
      var j, m := FindIteration(b, k);
      IsIterationOf(b.ops, b.n, j, m);
      NamesOf(b, j);
      IterPath(b.root, b.ops[j], m);
      NameContinues(b.root, b.ops[i], b.ops[j], m);
      BelowOwn(b.root, b.ops[j].name, RUN, Named(ITER, Some(m)));
      SurvivorLasts(b, j, k);
      IterIsKept(b.root, b.ops[j], b.n, m) by { LastingDone(b.ops, b.n, j); }
      if i < j { EarlierFirst(b, i, j, pos, p); }
      LongerIntro(b.ops, b.n, i, j);
    }
  }

  lemma BelowOwn(root: Path, a: string, b: string, c: string)
    ensures root + [a] <= root + [a, b, c]
  {
  }

  lemma TheLonger(ops: seq<Operator>, n: nat, i: nat) returns (j: nat)
    requires i < |ops| && LongerNameBefore(ops, n, i)
    ensures j < i && Lasting(ops, n, j) && ops[i].name < ops[j].name
  {
    hide Lasting;
    j :| 0 <= j < i && Lasting(ops, n, j) && ops[i].name < ops[j].name;
  }

  lemma LongerIntro(ops: seq<Operator>, n: nat, i: nat, j: nat)
    requires i < |ops| && j <= i && Lasting(ops, n, j) && ops[i].name < ops[j].name
    ensures LongerNameBefore(ops, n, i)
  {
    hide Lasting;
    assert j != i;
  }

  lemma TheLookAlike(t: U.Tables, n: nat, q: Path) returns (p: nat)
    requires n <= |t.data.keys| && q != [] && I.LookAlikeBefore(t, n, q)
    ensures p < n && t.data.keys[p] in t.batches.vals && ExtendsInside(q, I.LevelParts(t.data.keys[p]))
  {
    hide ExtendsInside, I.LevelParts;
    p :| 0 <= p < n && I.LooksAlike(t, t.data.keys[p], q);
  }

  lemma LookAlikeIntro(t: U.Tables, n: nat, p: nat, q: Path)
    requires p < n <= |t.data.keys| && q != []
    requires t.data.keys[p] in t.batches.vals && t.batches.vals[t.data.keys[p]].items > 0 && ExtendsInside(q, I.LevelParts(t.data.keys[p]))
    ensures I.LookAlikeBefore(t, n, q)
  {
    hide ExtendsInside, I.LevelParts;
    assert I.LooksAlike(t, t.data.keys[p], q);
  }

  /** A lasting operator's own range reports the items of its iterations iff no lasting operator listed earlier has a name that
      properly continues its own. */
  lemma OperatorTotalIff(b: Bench, warmup: nat, i: nat)
    requires b.Valid() && Lasting(b.ops, b.n, i) && b.n >= 1 && b.batchSize > 0
    ensures U.Usable(b.t) && W.Unflattened(b.t, warmup).Ok? && b.root != []
    ensures ST.StatAt(W.Unflattened(b.t, warmup).value, b.root + [b.ops[i].name], ST.Total) == Some((b.n * b.batchSize) as real)
       <==> !LongerNameBefore(b.ops, b.n, i)
  {
    hide *;
    LastingDone(b.ops, b.n, i);
    BenchUnflattens(b, warmup);
    BenchTables(b);
    RootThere(b.root);
    NamesOf(b, i);
    var pos := OwnKeyIndex(b, i);
    OpPath(b.root, b.ops[i]);
    OwnRangeIsOuter(b, i);
    I.OuterTotalExactIff(b.root, b.t, warmup, pos);
    NoNegativeSize(b);
    BeneathIsRun(b, i, |b.t.data.keys|);
    LevelNumbered(b, i);
    I.RecorderOrder(b.root, b.t);
    I.UniformLevel(b.t, warmup, RunKey(b.root, b.ops[i]), LevelKeys(b.root, b.ops[i], b.n), b.batchSize);
    LookAlikeIff(b, i, pos);
  }

  lemma NoNegativeSize(b: Bench)
    requires b.Valid() && b.batchSize > 0
    ensures I.SizesNotNegative(b.t)
  {
    forall k | k in b.t.batches.vals ensures b.t.batches.vals[k].items >= 0 {
      BenchBatch(b, k);
    }
    hide Bench.Valid, IterKey, IsIteration;
  }

  // ------------------------------------------------------------- runs that fail

  /** The recorder's tables with one second measured everywhere. */
  ghost function OneSecond(s: State): U.Tables {
    var keys := Survivors(s.timing, s.deleted).keys;
    U.Tables(Dict(keys, map k | k in keys :: (1.0, 1.0)), s.batchInfo, s.insideInfo, s.totals)
  }

  lemma OneSecondMeasured(s: State)
    requires s.timing.Valid()
    ensures Measured(s, OneSecond(s))
  {
    var keys := Survivors(s.timing, s.deleted).keys;
    hide Survivors;
    forall i, j | 0 <= i < j < |keys| ensures keys[i] != keys[j] {
      var i', j' := SurvivorsKeepOrder(s.timing, s.deleted, i, j);
    }
  }

  /** No range of the program has a statistic's name. */
  ghost predicate PlainForest(f: Forest) {
    f.Then? ==> ST.Plain(f.Name()) && PlainForest(f.before) && PlainForest(f.inner)
  }

  lemma {:induction false} RecordedPlain(at: Path, f: Forest, k: string)
    requires Components(at) && ST.PlainPath(at) && Clean(f) && PlainForest(f) && k in Recorded(at, f)
    ensures ST.PlainPath(Split(k))
    decreases f
  {
    var here := at + [f.Name()];
    hide ST.Plain, Named, Component, Render, Split;
    if k in Recorded(at, f.before) {
      RecordedPlain(at, f.before, k);
    } else if k in Recorded(here, f.inner) {
      RecordedPlain(here, f.inner, k);
    } else {
      SplitRender(here);
    }
  }

  /** A clean program with distinct sibling names is a complete good session of a new recorder. */
  lemma ForestSession(root: Path, f: Forest)
    requires Components(root) && ST.PlainPath(root) && Matched(f) && Clean(f) && Distinct(f) && PlainForest(f)
    ensures var s0 := Initial(Render(root), true); var s := RunAll(s0, Calls(f));
            && GoodRun(root, s0, Calls(f), {}) && s.stack == [] && Measured(s, OneSecond(s)) && PlainKeys(OneSecond(s))
            && s.timing.keys == AddAll([], Recorded(root, f)) && s.deleted == Gone(root, f)
            && s.batchInfo.vals == BatchMap(root, f)
  {
    hide *;
    RootThere(root);
    var s0 := Initial(Render(root), true);
    AtInitial(root);
    NewRecorder(root, f);
    CallsGood(root, s0, f, {});
    CallsBalanced(s0, f);
    CallsAt(root, s0, [], [], 0, [], f);
    CallsBatches(root, s0, [], [], 0, [], f);
    var s := RunAll(s0, Calls(f));
    AtKeys(root, s, [], AddAll([], Recorded(root, f)), 0, [] + Gone(root, f));
    NothingBefore(Gone(root, f));
    OneSecondMeasured(s);
    SessionPlain(root, s, f);
  }

  lemma NewRecorder(root: Path, f: Forest)
    requires root != []
    ensures var s0 := Initial(Render(root), true);
            && s0.stack == [] && s0.benchmark && s0.timing.Valid() && s0.inside == 0
            && Unseen(Cur(root, s0), Tops(f), {}) && s0.batchInfo.vals + BatchMap(root, f) == BatchMap(root, f)
    ensures root + [] == root
  {
    hide Render, Tops, BatchMap;
    var s0 := Initial(Render(root), true);
    assert map[] + BatchMap(root, f) == BatchMap(root, f);
  }

  lemma SessionPlain(root: Path, s: State, f: Forest)
    requires Components(root) && ST.PlainPath(root) && Clean(f) && PlainForest(f) && s.timing.keys == AddAll([], Recorded(root, f))
    ensures PlainKeys(OneSecond(s))
  {
    forall k | k in OneSecond(s).data.keys ensures ST.PlainPath(Split(k)) {
      SurvivorKeys(s, k);
      AddAllMembers([], Recorded(root, f), k);
      RecordedPlain(root, f, k);
    }
    hide *;
    PlainKeysIntro(OneSecond(s));
  }

  lemma PlainKeysIntro(t: U.Tables)
    requires forall k :: k in t.data.keys ==> ST.PlainPath(Split(k))
    ensures PlainKeys(t)
  {
    hide ST.PlainPath, Split;
  }

  /** One batch directly below the recorder's own range: a good complete session, and expanding its tables raises. */
  lemma BatchUnderRootFails(root: Path, size: int, warmup: int)
    requires Components(root) && ST.PlainPath(root)
    ensures var calls := [PushOp(ITER, Some(0)), PopOp(Some(size), false)]; var s0 := Initial(Render(root), true);
            && GoodRun(root, s0, calls, {}) && RunAll(s0, calls).stack == []
            && Measured(RunAll(s0, calls), OneSecond(RunAll(s0, calls)))
            && U.Usable(OneSecond(RunAll(s0, calls))) && W.Unflattened(OneSecond(RunAll(s0, calls)), warmup).Err?
  {
    var f := Then(Nil, ITER, Some(0), Some(size), false, Nil);
    var k, s0 := Render(root + [f.Name()]), Initial(Render(root), true);
    OneBatch(root, f, size);
    IterPlain(0);
    IterName(0);
    JoinAppends(root, f.Name());
    hide *;
    ForestSession(root, f);
    var s := RunAll(s0, Calls(f));
    InOneSecond(s, k);
    SessionReturnsIff(root, Calls(f), OneSecond(s), warmup);
    RootNotReported(root, Calls(f), OneSecond(s));
  }

  lemma OneBatch(root: Path, f: Forest, size: int)
    requires root != [] && f == Then(Nil, ITER, Some(0), Some(size), false, Nil)
    ensures Calls(f) == [PushOp(ITER, Some(0)), PopOp(Some(size), false)] && Matched(f) && Distinct(f)
    ensures f.Name() == Named(ITER, Some(0)) && (Component(f.Name()) ==> Clean(f)) && (ST.Plain(f.Name()) ==> PlainForest(f))
    ensures Recorded(root, f) == [Render(root + [f.Name()])] && Gone(root, f) == []
    ensures AddAll([], Recorded(root, f)) == [Render(root + [f.Name()])]
    ensures Render(root + [f.Name()]) in BatchMap(root, f)
  {
    hide Named, Render, Component, ST.Plain;
    assert Calls(Nil) == [];
    assert Recorded(root, Nil) == [] && Recorded(root + [f.Name()], Nil) == [] && Gone(root, Nil) == [] && Gone(root + [f.Name()], Nil) == [];
  }

  lemma InOneSecond(s: State, k: string)
    requires s.timing.keys == [k] && s.deleted == [] && k in s.batchInfo.vals
    ensures k in OneSecond(s).data.keys && k in OneSecond(s).batches.vals
  {
    SurvivorKeys(s, k);
  }

  /** The recorder's own range is never recorded. */
  lemma RootNotReported(root: Path, ops: seq<Op>, t: U.Tables)
    requires Components(root) && GoodRun(root, Initial(Render(root), true), ops, {})
    requires RunAll(Initial(Render(root), true), ops).stack == []
    requires Measured(RunAll(Initial(Render(root), true), ops), t)
    ensures !I.Reported(t, Render(root))
  {
    SplitRender(root);
    CompleteRunWellRecorded(root, ops);
    hide GoodRun, RunAll, DescendantsFirst, PositiveBelow, Split, Render, I.Around, Survivors, Components;
  }

  lemma FixedPlain(j: nat)
    ensures ST.Plain(INIT) && ST.Plain(RUN) && ST.Plain(PARAMS) && ST.Plain(Named(ITER, Some(j)))
  {
    IterPlain(j);
    hide Named;
    assert INIT[0] == 'i' && PARAMS[0] == 'o';
    forall s: ST.Stat ensures ST.KeyOf(s)[0] != 'i' && ST.KeyOf(s)[0] != 'o' {
    }
  }

  lemma {:induction false} IterationsPlain(op: Operator, count: nat, batchSize: int)
    ensures PlainForest(Iterations(op, count, batchSize))
  {
    hide ST.Plain, Named;
    if count > 0 {
      IterationsPlain(op, count - 1, batchSize);
      FixedPlain(count - 1);
    }
  }

  lemma InsidePlain(op: Operator, n: nat, batchSize: int)
    requires ST.Plain(op.params)
    ensures PlainForest(Inside(op, n, batchSize))
  {
    FixedPlain(0);
    IterationsPlain(op, Started(op, n), batchSize);
    hide ST.Plain, Iterations, Started, Decimal;
    assert PlainForest(Leaf(Nil, INIT, false)) && PlainForest(Leaf(Nil, INIT, true)) && PlainForest(Leaf(Nil, op.params, false));
    assert PlainForest(Timed(op, n, batchSize));
  }

  lemma {:induction false} ProgramPlain(ops: seq<Operator>, n: nat, batchSize: int)
    requires forall i :: 0 <= i < |ops| ==> ST.Plain(ops[i].name) && ST.Plain(ops[i].params)
    ensures PlainForest(Program(ops, n, batchSize))
  {
    hide ST.Plain, Inside;
    if ops != [] {
      ProgramPlain(ops[..|ops| - 1], n, batchSize);
      InsidePlain(ops[|ops| - 1], n, batchSize);
    }
  }

  /** Any list of distinct, clean operators whose names are no statistics', on a new recorder. */
  lemma BenchSession(root: Path, ops: seq<Operator>, n: nat, batchSize: int) returns (b: Bench)
    requires Components(root) && ST.PlainPath(root) && CleanOps(ops, n) && DistinctOps(ops)
    requires forall i :: 0 <= i < |ops| ==> ST.Plain(ops[i].name) && ST.Plain(ops[i].params)
    ensures b.Valid() && b.root == root && b.ops == ops && b.n == n && b.batchSize == batchSize
    ensures b.s == Initial(Render(root), true) && b.t == OneSecond(After(b.s, ops, n, batchSize))
    ensures GoodRun(root, b.s, Calls(Program(ops, n, batchSize)), {}) && After(b.s, ops, n, batchSize).stack == []
  {
    RootThere(root);
    hide *;
    var s0 := Initial(Render(root), true);
    ProgramMatched(ops, n, batchSize);
    ProgramFine(ops, n, batchSize);
    ProgramPlain(ops, n, batchSize);
    ForestSession(root, Program(ops, n, batchSize));
    RunPaths.AfterIs(s0, ops, n, batchSize);
    var t := OneSecond(After(s0, ops, n, batchSize));
    NewRecorderIsValid(root, ops, n, batchSize, t);
    b := Bench(root, s0, [], {}, ops, n, batchSize, t);
  }

  /** Two operators succeed, and the name of the first continues that of the second, as in `OpFlipXY` and `OpFlipX`: a good
      complete session of a new recorder in which the second one's range does not report its own items. */
  lemma LongerNameTakenIn(root: Path, first: Operator, second: Operator, n: nat, batchSize: int, warmup: nat)
    requires Components(root) && ST.PlainPath(root) && CleanOps([first, second], n) && n >= 1 && batchSize > 0
    requires Succeeds(first, n) && Succeeds(second, n) && second.name < first.name
    requires ST.Plain(first.name) && ST.Plain(first.params) && ST.Plain(second.name) && ST.Plain(second.params)
    ensures var s0, ops := Initial(Render(root), true), [first, second];
            var t := OneSecond(After(s0, ops, n, batchSize));
            && GoodRun(root, s0, Calls(Program(ops, n, batchSize)), {}) && After(s0, ops, n, batchSize).stack == []
            && U.Usable(t) && W.Unflattened(t, warmup).Ok?
            && ST.StatAt(W.Unflattened(t, warmup).value, root + [second.name], ST.Total) != Some((n * batchSize) as real)
  {
    var ops := [first, second];
    TwoLasting(ops, n);
    hide *;
    var b := BenchSession(root, ops, n, batchSize);
    OperatorTotalIff(b, warmup, 1);
  }

  lemma TwoLasting(ops: seq<Operator>, n: nat)
    requires |ops| == 2 && Succeeds(ops[0], n) && Succeeds(ops[1], n) && ops[1].name < ops[0].name
    ensures DistinctOps(ops) && Lasting(ops, n, 1) && LongerNameBefore(ops, n, 1)
  {
    hide Succeeds;
    assert Lasting(ops, n, 0);
  }

  // ------------------------------------------------------------- the order of the batches

  /** The batches that one operator adds to the batch table. */
  ghost function OpBatchKeys(root: Path, op: Operator, n: nat): seq<string>
    requires root != []
  {
    if op.initOk then LevelKeys(root, op, Done(op, n)) else []
  }

  lemma {:induction false} IterationBatchKeys(root: Path, op: Operator, count: nat, batchSize: int)
    requires root != [] && (op.failsAt.Some? ==> count <= op.failsAt.value)
    ensures BatchKeys(root + [op.name, RUN], Iterations(op, count, batchSize)) == LevelKeys(root, op, count)
  {
    hide Render, Named, IterKey;
    var at := root + [op.name, RUN];
    if count > 0 {
      IterationBatchKeys(root, op, count - 1, batchSize);
      LeafBatchKeys(at, Iterations(op, count - 1, batchSize), count - 1, batchSize, false);
      IterKeyAt(root, op, count - 1);
      assert LevelKeys(root, op, count) == LevelKeys(root, op, count - 1) + [IterKey(root, op, count - 1)];
    }
  }

  lemma IterKeyAt(root: Path, op: Operator, j: nat)
    ensures Render(root + [op.name, RUN] + [Named(ITER, Some(j))]) == IterKey(root, op, j)
  {
    hide Render, Named;
    assert root + [op.name, RUN] + [Named(ITER, Some(j))] == root + [op.name, RUN, Named(ITER, Some(j))];
  }

  lemma LeafBatchKeys(at: Path, before: Forest, j: nat, batchSize: int, delete: bool)
    requires at != []
    ensures BatchKeys(at, Then(before, ITER, Some(j), Some(batchSize), delete, Nil))
         == BatchKeys(at, before) + if delete then [] else [Render(at + [Named(ITER, Some(j))])]
  {
    hide Render, Named;
    var f := Then(before, ITER, Some(j), Some(batchSize), delete, Nil);
    assert f.Name() == Named(ITER, Some(j)) && BatchKeys(at + [f.Name()], Nil) == [];
  }

  /** The last iteration that starts is no batch if it fails. */
  lemma StartedBatchKeys(root: Path, op: Operator, n: nat, batchSize: int)
    requires root != []
    ensures BatchKeys(root + [op.name, RUN], Iterations(op, Started(op, n), batchSize)) == LevelKeys(root, op, Done(op, n))
  {
    hide Render, Named, IterKey, LevelKeys;
    IterationBatchKeys(root, op, Done(op, n), batchSize);
    if FailsWithin(op, n) {
      var at := root + [op.name, RUN];
      LeafBatchKeys(at, Iterations(op, Done(op, n), batchSize), Done(op, n), batchSize, true);
      assert LevelKeys(root, op, Done(op, n)) + [] == LevelKeys(root, op, Done(op, n));
    }
  }

  lemma NodeBatchKeys(at: Path, before: Forest, message: string, delete: bool, inner: Forest)
    requires at != []
    ensures BatchKeys(at, Then(before, message, None, None, delete, inner)) == BatchKeys(at, before) + BatchKeys(at + [message], inner)
  {
    hide Render;
    assert Then(before, message, None, None, delete, inner).Name() == message;
  }

  lemma NilBatchKeys(at: Path)
    requires at != []
    ensures BatchKeys(at, Nil) == []
    ensures forall ks: seq<string> :: [] + ks == ks && ks + [] == ks
  {
  }

  lemma InsideBatchKeys(root: Path, op: Operator, n: nat, batchSize: int)
    requires root != []
    ensures BatchKeys(root + [op.name], Inside(op, n, batchSize)) == OpBatchKeys(root, op, n)
  {
    hide BatchKeys, Iterations, Started, LevelKeys, Done, Render;
    var at := root + [op.name];
    assert at + [RUN] == root + [op.name, RUN];
    NilBatchKeys(at);
    NilBatchKeys(at + [INIT]);
    NilBatchKeys(at + [PARAMS]);
    NilBatchKeys(at + [PARAMS] + [op.params]);
    NodeBatchKeys(at, Nil, INIT, true, Nil);
    NodeBatchKeys(at, Nil, INIT, false, Nil);
    NodeBatchKeys(at, Leaf(Nil, INIT, false), RUN, FailsWithin(op, n), Iterations(op, Started(op, n), batchSize));
    NodeBatchKeys(at + [PARAMS], Nil, op.params, false, Nil);
    NodeBatchKeys(at, Timed(op, n, batchSize), PARAMS, false, Leaf(Nil, op.params, false));
    StartedBatchKeys(root, op, n, batchSize);
  }

  /** The batch table's keys after the first `m` operators. */
  ghost function TableAfter(root: Path, ops: seq<Operator>, n: nat, m: nat): seq<string>
    requires root != [] && m <= |ops|
  {
    if m == 0 then [] else AddAll(TableAfter(root, ops, n, m - 1), OpBatchKeys(root, ops[m - 1], n))
  }

  lemma {:induction false} ProgramBatchKeys(root: Path, ops: seq<Operator>, n: nat, batchSize: int, m: nat)
    requires root != [] && m <= |ops|
    ensures AddAll([], BatchKeys(root, Program(ops[..m], n, batchSize))) == TableAfter(root, ops, n, m)
  {
    hide BatchKeys, Inside, OpBatchKeys, Succeeds;
    if m == 0 {
      NilBatchKeys(root);
    } else {
      var init, op := ops[..m - 1], ops[m - 1];
      assert ops[..m][..m - 1] == init;
      ProgramBatchKeys(root, ops, n, batchSize, m - 1);
      NodeBatchKeys(root, Program(init, n, batchSize), op.name, !Succeeds(op, n), Inside(op, n, batchSize));
      InsideBatchKeys(root, op, n, batchSize);
      AddAllAppend([], BatchKeys(root, Program(init, n, batchSize)), OpBatchKeys(root, op, n));
      hide AddAll;
    }
  }

  lemma BatchTable(b: Bench)
    requires b.Valid()
    ensures b.root != [] && b.t.batches.Valid() && b.t.batches.keys == TableAfter(b.root, b.ops, b.n, |b.ops|)
  {
    AllComponents(b.root, b.s, b.seen);
    ProgramMatched(b.ops, b.n, b.batchSize);
    ProgramFine(b.ops, b.n, b.batchSize);
    assert b.ops[..|b.ops|] == b.ops;
    assert PyDict.Empty<Batch>().Valid() && b.root + [] == b.root;
    hide At, AllInv, Program, RunAll, Calls, BatchMap, BatchKeys, AddAll, TableAfter, CleanOps, DistinctOps, PlainKeys, Survivors;
    CallsBatches(b.root, b.s, [], b.keys, 0, [], Program(b.ops, b.n, b.batchSize));
    ProgramBatchKeys(b.root, b.ops, b.n, b.batchSize, |b.ops|);
  }

  // ------------------------------------------------------------- the times of a level's record

  /** The batch is gathered under the level. */
  predicate Wanted(t: U.Tables, warmup: int, level: string, k: string) {
    k in t.batches.vals && Dirname(k) == level && B.Gathered(t, warmup, k) == Ok(true)
  }

  function Picked(t: U.Tables, warmup: int, level: string, ks: seq<string>): seq<string> {
    if ks == [] then []
    else
      var k := ks[|ks| - 1];
      Picked(t, warmup, level, ks[..|ks| - 1]) + if Wanted(t, warmup, level, k) then [k] else []
  }

  lemma {:induction false} CountedArePicked(t: U.Tables, warmup: int, level: string, n: nat)
    requires t.batches.Valid() && n <= |t.batches.keys|
    ensures B.CountedOf(t, warmup, level, n) == Picked(t, warmup, level, t.batches.keys[..n])
  {
    hide Dirname, B.Gathered;
    if n > 0 {
      CountedArePicked(t, warmup, level, n - 1);
      assert t.batches.keys[..n][..n - 1] == t.batches.keys[..n - 1];
      assert t.batches.keys[n - 1] in t.batches.keys;
    }
  }

  lemma {:induction false} PickedNone(t: U.Tables, warmup: int, level: string, ks: seq<string>, more: seq<string>)
    requires forall i :: 0 <= i < |more| ==> !Wanted(t, warmup, level, more[i])
    ensures Picked(t, warmup, level, AddAll(ks, more)) == Picked(t, warmup, level, ks)
  {
    hide Wanted;
    if more != [] {
      PickedNone(t, warmup, level, ks, more[..|more| - 1]);
      var all, k := AddAll(ks, more[..|more| - 1]), more[|more| - 1];
      if k !in all { assert (all + [k])[..|all|] == all; }
    }
  }

  lemma {:induction false} AllNew(ks: seq<string>, more: seq<string>)
    requires (forall i, j :: 0 <= i < j < |more| ==> more[i] != more[j]) && (forall i :: 0 <= i < |more| ==> more[i] !in ks)
    ensures AddAll(ks, more) == ks + more
  {
    if more == [] {
      assert ks + more == ks;
    } else {
      var init, k := more[..|more| - 1], more[|more| - 1];
      AllNew(ks, init);
      assert k !in init && k !in ks + init;
      assert ks + more == (ks + init) + [k];
    }
  }

  function Slice(ks: seq<string>, lo: nat, hi: nat): seq<string>
    requires lo <= hi
  {
    if |ks| <= lo then [] else ks[lo..if |ks| <= hi then |ks| else hi]
  }

  lemma SliceStep(ks: seq<string>, lo: nat, hi: nat)
    requires lo <= hi && ks != []
    ensures Slice(ks, lo, hi) == Slice(ks[..|ks| - 1], lo, hi) + if lo <= |ks| - 1 < hi then [ks[|ks| - 1]] else []
  {
  }

  lemma PickedSnoc(t: U.Tables, warmup: int, level: string, ks: seq<string>, more: seq<string>)
    requires more != []
    ensures Picked(t, warmup, level, ks + more)
         == Picked(t, warmup, level, ks + more[..|more| - 1]) + if Wanted(t, warmup, level, more[|more| - 1]) then [more[|more| - 1]] else []
  {
    hide Wanted;
    assert (ks + more)[..|ks + more| - 1] == ks + more[..|more| - 1];
  }

  /** Batches of which exactly those from `lo` up to `hi` are wanted. */
  lemma {:induction false} PickedMiddle(t: U.Tables, warmup: int, level: string, ks: seq<string>, more: seq<string>, lo: nat, hi: nat)
    requires lo <= hi && forall i :: 0 <= i < |more| ==> (Wanted(t, warmup, level, more[i]) <==> lo <= i < hi)
    ensures Picked(t, warmup, level, ks + more) == Picked(t, warmup, level, ks) + Slice(more, lo, hi)
  {
    hide Wanted, Picked, Slice;
    if more == [] {
      assert ks + more == ks;
      NoSlice(Picked(t, warmup, level, ks), lo, hi);
    } else {
      PickedMiddle(t, warmup, level, ks, more[..|more| - 1], lo, hi);
      PickedSnoc(t, warmup, level, ks, more);
      SliceStep(more, lo, hi);
    }
  }

  lemma NoSlice(ks: seq<string>, lo: nat, hi: nat)
    requires lo <= hi
    ensures ks + Slice([], lo, hi) == ks
  {
  }

  /** The iterations of an operator between the warm-up ones. */
  ghost function MiddleKeys(root: Path, op: Operator, n: nat, warmup: nat): seq<string>
    requires root != []
  {
    if 2 * warmup <= n then LevelKeys(root, op, n)[warmup..n - warmup] else []
  }

  lemma {:induction false} TableMembers(root: Path, ops: seq<Operator>, n: nat, m: nat, k: string)
    requires root != [] && m <= |ops| && k in TableAfter(root, ops, n, m)
    ensures exists i :: 0 <= i < m && k in OpBatchKeys(root, ops[i], n)
  {
    hide OpBatchKeys;
    if m > 0 {
      AddAllMembers(TableAfter(root, ops, n, m - 1), OpBatchKeys(root, ops[m - 1], n), k);
      if k in TableAfter(root, ops, n, m - 1) { TableMembers(root, ops, n, m - 1, k); }
    }
  }

  lemma OpBatchIndex(root: Path, op: Operator, n: nat, k: string) returns (j: nat)
    requires root != [] && k in OpBatchKeys(root, op, n)
    ensures op.initOk && j < Done(op, n) && k == IterKey(root, op, j)
  {
    hide IterKey, Done;
    var bs := LevelKeys(root, op, Done(op, n));
    j :| 0 <= j < |bs| && bs[j] == k;
  }

  /** Batches of other operators are gathered under other levels. */
  lemma OthersNotWanted(b: Bench, warmup: nat, i: nat, m: nat)
    requires b.Valid() && b.root != [] && i < |b.ops| && m < |b.ops| && m != i
    ensures var more := OpBatchKeys(b.root, b.ops[m], b.n);
            forall j :: 0 <= j < |more| ==> !Wanted(b.t, warmup, RunKey(b.root, b.ops[i]), more[j])
  {
    NamesOf(b, i);
    NamesOf(b, m);
    hide Bench.Valid, OpBatchKeys, IterKey, RunKey, Dirname, Component, Components, B.Gathered;
    var more := OpBatchKeys(b.root, b.ops[m], b.n);
    forall j | 0 <= j < |more| ensures Dirname(more[j]) != RunKey(b.root, b.ops[i]) {
      var j' := OpBatchIndex(b.root, b.ops[m], b.n, more[j]);
      IterKeysDiffer(b.root, b.ops[m], b.ops[i], j', j');
    }
  }

  /** Of the operator's own batches the middle ones are. */
  lemma OwnWanted(b: Bench, warmup: nat, i: nat, j: nat)
    requires b.Valid() && b.root != [] && i < |b.ops| && b.ops[i].initOk && j < Done(b.ops[i], b.n) && b.batchSize > 0
    ensures Wanted(b.t, warmup, RunKey(b.root, b.ops[i]), IterKey(b.root, b.ops[i], j)) <==> warmup <= j < Done(b.ops[i], b.n) - warmup
  {
    LevelBatch(b, i, j);
    assert IsIteration(b.ops, b.n, i, j);
    hide Bench.Valid, IterKey, RunKey, Dirname, Done, B.Gathered;
    IterationGathered(b, warmup, i, j);
  }

  lemma OwnAreNew(b: Bench, i: nat, j: nat)
    requires b.Valid() && b.root != [] && i < |b.ops|
    ensures IterKey(b.root, b.ops[i], j) !in TableAfter(b.root, b.ops, b.n, i)
  {
    hide *;
    var k := IterKey(b.root, b.ops[i], j);
    NamesOf(b, i);
    if k in TableAfter(b.root, b.ops, b.n, i) {
      TableMembers(b.root, b.ops, b.n, i, k);
      var i' :| 0 <= i' < i && k in OpBatchKeys(b.root, b.ops[i'], b.n);
      var j' := OpBatchIndex(b.root, b.ops[i'], b.n, k);
      NamesOf(b, i');
      IterKeysDiffer(b.root, b.ops[i], b.ops[i'], j, j');
    }
  }

  /** The batches of a lasting operator that are gathered under its level, in table order: the middle iterations in order. */
  lemma {:induction false} PickedSoFar(b: Bench, warmup: nat, i: nat, m: nat)
    requires b.Valid() && b.root != [] && Lasting(b.ops, b.n, i) && b.batchSize > 0 && m <= |b.ops|
    ensures i < |b.ops|
    ensures Picked(b.t, warmup, RunKey(b.root, b.ops[i]), TableAfter(b.root, b.ops, b.n, m))
         == if m <= i then [] else MiddleKeys(b.root, b.ops[i], b.n, warmup)
  {
    hide *;
    LastingDone(b.ops, b.n, i);
    TableStep(b.root, b.ops, b.n, m);
    NothingPicked(b.t, warmup, RunKey(b.root, b.ops[i]));
    if m > 0 {
      PickedSoFar(b, warmup, i, m - 1);
      if m - 1 == i {
        PickedOwn(b, warmup, i);
      } else {
        OthersNotWanted(b, warmup, i, m - 1);
        PickedNone(b.t, warmup, RunKey(b.root, b.ops[i]), TableAfter(b.root, b.ops, b.n, m - 1), OpBatchKeys(b.root, b.ops[m - 1], b.n));
      }
    }
  }

  lemma NothingPicked(t: U.Tables, warmup: int, level: string)
    ensures Picked(t, warmup, level, []) == []
  {
  }

  lemma TableStep(root: Path, ops: seq<Operator>, n: nat, m: nat)
    requires root != [] && m <= |ops|
    ensures m == 0 ==> TableAfter(root, ops, n, m) == []
    ensures m > 0 ==> TableAfter(root, ops, n, m) == AddAll(TableAfter(root, ops, n, m - 1), OpBatchKeys(root, ops[m - 1], n))
  {
    hide AddAll, OpBatchKeys;
  }

  lemma PickedOwn(b: Bench, warmup: nat, i: nat)
    requires b.Valid() && b.root != [] && Lasting(b.ops, b.n, i) && b.batchSize > 0 && i < |b.ops|
    requires Picked(b.t, warmup, RunKey(b.root, b.ops[i]), TableAfter(b.root, b.ops, b.n, i)) == []
    ensures Picked(b.t, warmup, RunKey(b.root, b.ops[i]), AddAll(TableAfter(b.root, b.ops, b.n, i), OpBatchKeys(b.root, b.ops[i], b.n)))
         == MiddleKeys(b.root, b.ops[i], b.n, warmup)
  {
    hide *;
    LastingDone(b.ops, b.n, i);
    NamesOf(b, i);
    var level, before, bs := RunKey(b.root, b.ops[i]), TableAfter(b.root, b.ops, b.n, i), LevelKeys(b.root, b.ops[i], b.n);
    OwnBatchKeys(b.root, b.ops[i], b.n);
    IterationsDiffer(b.root, b.ops[i], b.n);
    forall j | 0 <= j < |bs| ensures bs[j] !in before && (Wanted(b.t, warmup, level, bs[j]) <==> warmup <= j < b.n - warmup) {
      OwnAreNew(b, i, j);
      OwnWanted(b, warmup, i, j);
    }
    var hi := if warmup <= b.n - warmup then b.n - warmup else warmup;
    AllNew(before, bs);
    PickedMiddle(b.t, warmup, level, before, bs, warmup, hi);
    MiddleIs(b.root, b.ops[i], b.n, warmup);
  }

  lemma OwnBatchKeys(root: Path, op: Operator, n: nat)
    requires root != [] && op.initOk && Done(op, n) == n
    ensures OpBatchKeys(root, op, n) == LevelKeys(root, op, n)
  {
    hide LevelKeys, Done;
  }

  lemma MiddleIs(root: Path, op: Operator, n: nat, warmup: nat)
    requires root != []
    ensures var bs, hi := LevelKeys(root, op, n), if warmup <= n - warmup then n - warmup else warmup;
            [] + Slice(bs, warmup, hi) == MiddleKeys(root, op, n, warmup)
  {
    hide IterKey;
  }

  /** The gathered batches of a lasting operator's level are its middle iterations in order. */
  lemma LevelGathers(b: Bench, warmup: nat, i: nat)
    requires b.Valid() && Lasting(b.ops, b.n, i) && b.batchSize > 0
    ensures b.root != [] && i < |b.ops| && b.t.batches.Valid()
    ensures B.CountedOf(b.t, warmup, RunKey(b.root, b.ops[i]), |b.t.batches.keys|) == MiddleKeys(b.root, b.ops[i], b.n, warmup)
  {
    hide *;
    BatchTable(b);
    LastingDone(b.ops, b.n, i);
    PickedSoFar(b, warmup, i, |b.ops|);
    CountedArePicked(b.t, warmup, RunKey(b.root, b.ops[i]), |b.t.batches.keys|);
    assert b.t.batches.keys[..|b.t.batches.keys|] == b.t.batches.keys;
  }

  /** The times measured for some paths. */
  ghost function TimesOf(t: U.Tables, ks: seq<string>, gpu: bool): seq<real> {
    R.Vals(ks, R.TimeOf(t, gpu))
  }

  function Shares(xs: seq<real>, size: int): (ys: seq<real>)
    requires size > 0
    ensures |ys| == |xs| && forall i :: 0 <= i < |ys| ==> ys[i] == xs[i] / size as real
  {
    seq(|xs|, i requires 0 <= i < |xs| => xs[i] / size as real)
  }

  lemma {:induction false} TimesRead(t: U.Tables, warmup: int, ks: seq<string>, gpu: bool)
    requires U.Usable(t) && W.Unflattened(t, warmup).Ok? && forall j :: 0 <= j < |ks| ==> ks[j] in t.data.keys
    ensures B.StatsIn(W.Unflattened(t, warmup).value, ks, [], if gpu then ST.Gpu else ST.Cpu) == TimesOf(t, ks, gpu)
  {
    hide W.Unflattened, ST.StatAt, U.Usable, Split;
    if ks != [] {
      TimesRead(t, warmup, ks[..|ks| - 1], gpu);
      OwnTimes(t, warmup, ks[|ks| - 1]);
      assert TimesOf(t, ks, gpu)[..|ks| - 1] == TimesOf(t, ks[..|ks| - 1], gpu);
      assert Split(ks[|ks| - 1]) + [] == Split(ks[|ks| - 1]);
    }
  }

  /** Batches of one size: the time per item of each is its time divided by that size. */
  lemma {:induction false} SharesRead(root: Path, t: U.Tables, warmup: int, ks: seq<string>, gpu: bool, size: int)
    requires I.FromRecorder(root, t) && U.Usable(t) && W.Unflattened(t, warmup).Ok? && size > 0
    requires forall j :: 0 <= j < |ks| ==> ks[j] in t.data.keys && ks[j] in t.batches.vals && t.batches.vals[ks[j]].items == size
    ensures B.StatsIn(W.Unflattened(t, warmup).value, ks, [], if gpu then ST.GpuPer else ST.CpuPer) == Shares(TimesOf(t, ks, gpu), size)
  {
    hide W.Unflattened, ST.StatAt, U.Usable, Split, I.FromRecorder, Shares, TimesOf;
    if ks == [] {
      NoShares(t, gpu, size);
    } else {
      var init, k := ks[..|ks| - 1], ks[|ks| - 1];
      SharesRead(root, t, warmup, init, gpu, size);
      OwnShare(root, t, warmup, k, size);
      SharesSnoc(t, init, k, gpu, size);
      assert ks == init + [k];
      assert Split(k) + [] == Split(k);
    }
  }

  lemma NoShares(t: U.Tables, gpu: bool, size: int)
    requires size > 0
    ensures Shares(TimesOf(t, [], gpu), size) == []
  {
  }

  lemma SharesSnoc(t: U.Tables, ks: seq<string>, k: string, gpu: bool, size: int)
    requires size > 0
    ensures Shares(TimesOf(t, ks + [k], gpu), size) == Shares(TimesOf(t, ks, gpu), size) + [R.TimeOf(t, gpu)(k) / size as real]
  {
    var f := R.TimeOf(t, gpu);
    hide R.TimeOf;
    assert R.Vals(ks + [k], f) == R.Vals(ks, f) + [f(k)];
  }

  lemma OwnShare(root: Path, t: U.Tables, warmup: int, k: string, size: int)
    requires I.FromRecorder(root, t) && U.Usable(t) && W.Unflattened(t, warmup).Ok? && size > 0
    requires k in t.data.keys && k in t.batches.vals && t.batches.vals[k].items == size
    ensures var tree := W.Unflattened(t, warmup).value;
            && ST.StatAt(tree, Split(k), ST.CpuPer) == Some(R.TimeOf(t, false)(k) / size as real)
            && ST.StatAt(tree, Split(k), ST.GpuPer) == Some(R.TimeOf(t, true)(k) / size as real)
  {
    var tree := W.Unflattened(t, warmup).value;
    I.BatchTotals(root, t, warmup, k);
    OwnTimes(t, warmup, k);
    I.UsableKey(t, k);
    I.BatchPathIs(t, k);
    I.PerItemTimes(t, warmup, Split(k));
    hide W.Unflattened, ST.StatAt, U.Usable, Split, I.FromRecorder, I.BatchPath, ST.PlainPath;
    assert I.SizeOf(t, k) == size;
  }

  lemma OwnTimes(t: U.Tables, warmup: int, k: string)
    requires U.Usable(t) && W.Unflattened(t, warmup).Ok? && k in t.data.keys
    ensures var tree := W.Unflattened(t, warmup).value;
            && k in t.data.vals && ST.StatAt(tree, Split(k), ST.Cpu) == Some(t.data.vals[k].0) && ST.StatAt(tree, Split(k), ST.Gpu) == Some(t.data.vals[k].1)
  {
    hide *;
    I.UsableKey(t, k);
    RenderSplit(k);
    I.FlattenUndoesUnflatten(t, warmup, Split(k));
  }

  lemma MiddleSurvive(b: Bench, warmup: nat, i: nat)
    requires b.Valid() && b.root != [] && Lasting(b.ops, b.n, i) && i < |b.ops|
    ensures var ks := MiddleKeys(b.root, b.ops[i], b.n, warmup); forall j :: 0 <= j < |ks| ==> ks[j] in b.t.data.keys
    ensures |MiddleKeys(b.root, b.ops[i], b.n, warmup)| == if 2 * warmup <= b.n then b.n - 2 * warmup else 0
  {
    hide Bench.Valid, Lasting, IterKey, Kept;
    var ks := MiddleKeys(b.root, b.ops[i], b.n, warmup);
    forall j | 0 <= j < |ks| ensures ks[j] in b.t.data.keys {
      IterIsKept(b.root, b.ops[i], b.n, warmup + j);
      LastingSurvives(b, i, ks[j]);
    }
  }

  /** The four time records of one level in the reduced statistics. */
  ghost predicate TimeRecords(r: G.Res, cpu: seq<real>, gpu: seq<real>, size: int, meanOnly: bool)
    requires size > 0
  {
    && G.RecordOf(G.WalkRes(r, ["cpu_time"]), cpu, meanOnly)
    && G.RecordOf(G.WalkRes(r, ["gpu_time"]), gpu, meanOnly)
    && G.RecordOf(G.WalkRes(r, ["cpu_time_per_item"]), Shares(cpu, size), meanOnly)
    && G.RecordOf(G.WalkRes(r, ["gpu_time_per_item"]), Shares(gpu, size), meanOnly)
  }

  /** The statistics of a lasting operator's run level: there are any iff the warm-up leaves an iteration over, and then its time records
      are made of exactly the times recorded for the iterations from `warmup` up to `n - warmup`, in order, and of these times divided
      by the batch size. */
  lemma OperatorRecords(b: Bench, warmup: nat, i: nat, meanOnly: bool)
    requires b.Valid() && Lasting(b.ops, b.n, i) && b.batchSize > 0
    requires ST.PlainPath(b.root) && forall i :: 0 <= i < |b.ops| ==> ST.Plain(b.ops[i].name)
    requires forall i :: 0 <= i < |b.ops| && b.ops[i].initOk ==> Lasting(b.ops, b.n, i) || Done(b.ops[i], b.n) <= 2 * warmup
    ensures U.Usable(b.t) && W.Unflattened(b.t, warmup).Ok? && b.t.batches.Valid() && b.root != [] && i < |b.ops|
    ensures var stats := B.Stats(b.t, warmup, W.Unflattened(b.t, warmup).value, |b.t.batches.keys|);
            var level, ks := RunKey(b.root, b.ops[i]), MiddleKeys(b.root, b.ops[i], b.n, warmup);
            && stats.Ok? && (level in stats.value <==> 2 * warmup < b.n)
            && (2 * warmup < b.n ==>
                 && |ks| == b.n - 2 * warmup && (forall j :: 0 <= j < |ks| ==> ks[j] == IterKey(b.root, b.ops[i], warmup + j))
                 && G.Calc(stats.value[level], meanOnly).Some?
                 && TimeRecords(G.Calc(stats.value[level], meanOnly).value, TimesOf(b.t, ks, false), TimesOf(b.t, ks, true), b.batchSize, meanOnly))
  {
    hide *;
    BenchCollectsIff(b, warmup);
    BenchTables(b);
    LevelGathers(b, warmup, i);
    MiddleSurvive(b, warmup, i);
    MiddleAt(b.root, b.ops[i], b.n, warmup);
    MiddleSizes(b, warmup, i);
    UnflattenedShaped(b.t, warmup);
    BatchesClassified(b, warmup);
    var tree, n, level := W.Unflattened(b.t, warmup).value, |b.t.batches.keys|, RunKey(b.root, b.ops[i]);
    var ks := MiddleKeys(b.root, b.ops[i], b.n, warmup);
    B.CollectsIff(b.t, warmup, tree);
    PresentIntro(b.t, warmup, tree);
    B.StatsAre(b.t, warmup, tree, n, level);
    if 2 * warmup < b.n {
      forall gpu: bool
        ensures B.StatsIn(tree, ks, [], if gpu then ST.Gpu else ST.Cpu) == TimesOf(b.t, ks, gpu)
        ensures B.StatsIn(tree, ks, [], if gpu then ST.GpuPer else ST.CpuPer) == Shares(TimesOf(b.t, ks, gpu), b.batchSize)
      {
        TimesRead(b.t, warmup, ks, gpu);
        SharesRead(b.root, b.t, warmup, ks, gpu, b.batchSize);
      }
      LevelTimes(b.t, warmup, tree, level, ks, b.batchSize, meanOnly);
    }
  }

  lemma MiddleAt(root: Path, op: Operator, n: nat, warmup: nat)
    requires root != []
    ensures var ks := MiddleKeys(root, op, n, warmup); forall j :: 0 <= j < |ks| ==> ks[j] == IterKey(root, op, warmup + j)
  {
    hide IterKey;
  }

  lemma MiddleSizes(b: Bench, warmup: nat, i: nat)
    requires b.Valid() && b.root != [] && Lasting(b.ops, b.n, i) && i < |b.ops|
    ensures var ks := MiddleKeys(b.root, b.ops[i], b.n, warmup);
            forall j :: 0 <= j < |ks| ==> ks[j] in b.t.batches.vals && b.t.batches.vals[ks[j]].items == b.batchSize
  {
    hide *;
    LastingDone(b.ops, b.n, i);
    MiddleAt(b.root, b.ops[i], b.n, warmup);
    MiddleSurvive(b, warmup, i);
    var ks := MiddleKeys(b.root, b.ops[i], b.n, warmup);
    forall j | 0 <= j < |ks| ensures ks[j] in b.t.batches.vals && b.t.batches.vals[ks[j]].items == b.batchSize {
      LevelBatch(b, i, warmup + j);
    }
  }

  /** The records of one level, from what is read in its batches. */
  lemma LevelTimes(t: U.Tables, warmup: int, tree: ST.Val, level: string, ks: seq<string>, size: int, meanOnly: bool)
    requires t.batches.Valid() && ST.Shaped(tree) && B.BatchesPresent(t, warmup, tree) && size > 0 && ks != []
    requires B.Stats(t, warmup, tree, |t.batches.keys|).Ok? && level in B.Stats(t, warmup, tree, |t.batches.keys|).value
    requires ks == B.CountedOf(t, warmup, level, |t.batches.keys|)
    requires forall gpu: bool :: B.StatsIn(tree, ks, [], if gpu then ST.Gpu else ST.Cpu) == TimesOf(t, ks, gpu)
    requires forall gpu: bool :: B.StatsIn(tree, ks, [], if gpu then ST.GpuPer else ST.CpuPer) == Shares(TimesOf(t, ks, gpu), size)
    ensures var c := G.Calc(B.Stats(t, warmup, tree, |t.batches.keys|).value[level], meanOnly);
            c.Some? && TimeRecords(c.value, TimesOf(t, ks, false), TimesOf(t, ks, true), size, meanOnly)
  {
    hide *;
    assert B.StatsIn(tree, ks, [], if true then ST.Gpu else ST.Cpu) == TimesOf(t, ks, true);
    assert B.StatsIn(tree, ks, [], if false then ST.Gpu else ST.Cpu) == TimesOf(t, ks, false);
    assert B.StatsIn(tree, ks, [], if true then ST.GpuPer else ST.CpuPer) == Shares(TimesOf(t, ks, true), size);
    assert B.StatsIn(tree, ks, [], if false then ST.GpuPer else ST.CpuPer) == Shares(TimesOf(t, ks, false), size);
    TimesNotEmpty(t, ks, size);
    TimeKept();
    B.LevelRecords(t, warmup, tree, level, [], ST.Cpu, meanOnly);
    B.LevelRecords(t, warmup, tree, level, [], ST.Gpu, meanOnly);
    B.LevelRecords(t, warmup, tree, level, [], ST.CpuPer, meanOnly);
    B.LevelRecords(t, warmup, tree, level, [], ST.GpuPer, meanOnly);
    var r := G.Calc(B.Stats(t, warmup, tree, |t.batches.keys|).value[level], meanOnly).value;
    RecordsIntro(r, TimesOf(t, ks, false), TimesOf(t, ks, true), size, meanOnly);
  }

  lemma TimesNotEmpty(t: U.Tables, ks: seq<string>, size: int)
    requires ks != [] && size > 0
    ensures TimesOf(t, ks, false) != [] && TimesOf(t, ks, true) != []
    ensures Shares(TimesOf(t, ks, false), size) != [] && Shares(TimesOf(t, ks, true), size) != []
  {
    hide R.TimeOf;
  }

  lemma RecordsIntro(r: G.Res, cpu: seq<real>, gpu: seq<real>, size: int, meanOnly: bool)
    requires size > 0
    requires G.RecordOf(G.WalkRes(r, [] + [ST.KeyOf(ST.Cpu)]), cpu, meanOnly) && G.RecordOf(G.WalkRes(r, [] + [ST.KeyOf(ST.Gpu)]), gpu, meanOnly)
    requires G.RecordOf(G.WalkRes(r, [] + [ST.KeyOf(ST.CpuPer)]), Shares(cpu, size), meanOnly)
    requires G.RecordOf(G.WalkRes(r, [] + [ST.KeyOf(ST.GpuPer)]), Shares(gpu, size), meanOnly)
    ensures TimeRecords(r, cpu, gpu, size, meanOnly)
  {
    hide G.RecordOf, G.WalkRes, Shares;
    assert [] + [ST.KeyOf(ST.Cpu)] == ["cpu_time"] && [] + [ST.KeyOf(ST.Gpu)] == ["gpu_time"];
    assert [] + [ST.KeyOf(ST.CpuPer)] == ["cpu_time_per_item"] && [] + [ST.KeyOf(ST.GpuPer)] == ["gpu_time_per_item"];
  }

  lemma PresentIntro(t: U.Tables, warmup: int, tree: ST.Val)
    requires forall k :: k in t.batches.vals ==> B.Gathered(t, warmup, k).Ok? && ST.PlainPath(Split(k))
    requires forall k :: k in t.batches.vals && B.Gathered(t, warmup, k) == Ok(true) ==> ST.IsNode(tree, Split(k))
    ensures B.BatchesPresent(t, warmup, tree)
  {
    hide B.Gathered, ST.PlainPath, ST.IsNode, Split;
  }

  lemma TimeKept()
    ensures forall s :: s in [ST.Cpu, ST.Gpu, ST.CpuPer, ST.GpuPer] ==> G.Kept([] + [ST.KeyOf(s)])
  {
    forall s | s in [ST.Cpu, ST.Gpu, ST.CpuPer, ST.GpuPer] ensures G.Kept([] + [ST.KeyOf(s)]) {
      assert ST.KeyOf(s)[0] == 'c' || ST.KeyOf(s)[0] == 'g';
    }
  }

  // ------------------------------------------------------------- an operator's figures

  /** Everything the run level of a lasting operator reports, name by name: its times and items, those without the first and the last
      `warmup` iterations, and both per item. */
  lemma OperatorFigures(b: Bench, warmup: nat, i: nat)
    requires b.Valid() && Lasting(b.ops, b.n, i) && b.n >= 1 && b.batchSize > 0
    ensures U.Usable(b.t) && W.Unflattened(b.t, warmup).Ok? && b.root != [] && i < |b.ops| && RunKey(b.root, b.ops[i]) in b.t.data.vals
    ensures var tree, p, bs := W.Unflattened(b.t, warmup).value, b.root + [b.ops[i].name, RUN], LevelKeys(b.root, b.ops[i], b.n);
            var times, middle := b.t.data.vals[RunKey(b.root, b.ops[i])], if 2 * warmup <= b.n then b.n - 2 * warmup else 0;
            && R.NumberAt(tree, p + ["cpu_time"]) == Some(times.0)
            && R.NumberAt(tree, p + ["gpu_time"]) == Some(times.1)
            && R.NumberAt(tree, p + ["total_items"]) == Some((b.n * b.batchSize) as real)
            && R.PerItemReport(tree, p, times, false)
            && R.LevelReport(tree, p, middle * b.batchSize, R.SumOf(R.Ends(bs, warmup), R.CpuOf(b.t)), R.SumOf(R.Ends(bs, warmup), R.GpuOf(b.t)))
  {
    hide *;
    LastingDone(b.ops, b.n, i);
    BenchTables(b);
    NamesOf(b, i);
    RootThere(b.root);
    OperatorItems(b, warmup, i);
    var level, bs, p := RunKey(b.root, b.ops[i]), LevelKeys(b.root, b.ops[i], b.n), b.root + [b.ops[i].name, RUN];
    IterPath(b.root, b.ops[i], 0);
    IterIsKept(b.root, b.ops[i], b.n, 0);
    LastingSurvives(b, i, level);
    LevelNumbered(b, i);
    FirstIteration(b.t, level, bs);
    I.RecorderOrder(b.root, b.t);
    I.UniformLevel(b.t, warmup, level, bs, b.batchSize);
    RunIsOutside(b, i);
    OperatorReports(b.t, warmup, level, bs, p);
    ReadTotal(W.Unflattened(b.t, warmup).value, p, (b.n * b.batchSize) as real);
  }

  lemma ReadTotal(tree: ST.Val, p: Path, x: real)
    requires ST.StatAt(tree, p, ST.Total) == Some(x)
    ensures R.NumberAt(tree, p + ["total_items"]) == Some(x)
  {
    hide ST.StatAt, R.NumberAt;
    R.NamedStat(tree, p, ST.Total);
  }

  lemma OperatorReports(t: U.Tables, warmup: nat, level: string, bs: seq<string>, p: Path)
    requires U.Usable(t) && I.Nested(t) && W.Unflattened(t, warmup).Ok? && U.HasBatch(t, |t.data.keys|, level) && level in t.data.keys
    requires level !in t.batches.vals && Split(level) == p
    requires I.NumberedBatches(t, level, bs) && level in t.totalBatches && t.totalBatches[level] == |bs|
    ensures level in t.data.vals
    ensures var tree, times := W.Unflattened(t, warmup).value, t.data.vals[level];
            && R.NumberAt(tree, p + ["cpu_time"]) == Some(times.0)
            && R.NumberAt(tree, p + ["gpu_time"]) == Some(times.1)
            && R.PerItemReport(tree, p, times, false)
            && R.LevelReport(tree, p, U.Counted(t, warmup, |t.data.keys|, level),
                             R.SumOf(R.Ends(bs, warmup), R.CpuOf(t)), R.SumOf(R.Ends(bs, warmup), R.GpuOf(t)))
  {
    hide *;
    I.UsableKey(t, level);
    RenderSplit(level);
    R.ReportedTimes(t, warmup, p);
    R.ReportedPerItem(t, warmup, level);
    R.ReportedLevel(t, warmup, level);
    R.FiguresNumbered(t, warmup, level, bs, false);
    R.FiguresNumbered(t, warmup, level, bs, true);
    TimeOfIs(t);
  }

  lemma TimeOfIs(t: U.Tables)
    ensures R.TimeOf(t, false) == R.CpuOf(t) && R.TimeOf(t, true) == R.GpuOf(t)
  {
  }
}
