/**
 The single pass of `unflatten_process_benchmark_dict`: it visits the recorded paths in
 order, builds the tree, and totals items per batch level on the way.
 */
module Unflatten {
  import opened Text
  import opened Paths
  import opened PyDict
  import opened PerfRecorder
  import opened StatTree

  datatype Error = KeyError | TypeError

  /** The recorder's output with the measured times filled in. */
  datatype Tables = Tables(data: PyDict.Dict<(real, real)>, batches: PyDict.Dict<Batch>, inside: seq<string>, totalBatches: map<string, int>)

  /** What is counted per batch level; the four dicts of the source always have the same keys. */
  datatype Level = Level(items: int, minus: int, warmCpu: real, warmGpu: real)

  datatype Acc = Acc(tree: Val, levels: PyDict.Dict<Level>, batchDicts: PyDict.Dict<Path>)

  /** Distinct paths made of components that are no statistic's name. */
  ghost predicate Usable(t: Tables) {
    && t.data.Valid()
    && forall k :: k in t.data.keys ==> Components(Split(k)) && PlainPath(Split(k))
  }

  // ------------------------------------------------------------- one path

  /** Whether a batch lies outside the warm-up at both ends. */
  function IsCounted(t: Tables, warmup: int, b: Batch, level: string): Result<bool, Error> {
    if b.idx.None? then Err(TypeError)
    else if b.idx.value + 1 <= warmup then Ok(false)
    else if level !in t.totalBatches then Err(KeyError)
    else Ok(b.idx.value + 1 + warmup <= t.totalBatches[level])
  }

  function LevelOf(levels: PyDict.Dict<Level>, level: string): Level {
    if level in levels.vals then levels.vals[level] else Level(0, 0, 0.0, 0.0)
  }

  /** The counts of a batch's level after the batch. */
  function Tally(t: Tables, warmup: int, was: Level, b: Batch, level: string, cpu: real, gpu: real): Result<Level, Error> {
    var l := was.(items := was.items + b.items);
    if b.items <= 0 then Ok(l)
    else match IsCounted(t, warmup, b, level)
      case Err(e) => Err(e)
      case Ok(counted) =>
        if counted then Ok(l.(minus := l.minus + b.items))
        else Ok(l.(warmCpu := l.warmCpu + cpu, warmGpu := l.warmGpu + gpu))
  }

  /** The totals of all levels that start with the path as a string. */
  function SumStarting(keys: seq<string>, vals: map<string, Level>, path: string): int
    requires forall k :: k in keys ==> k in vals
  {
    if keys == [] then 0
    else
      var k := keys[|keys| - 1];
      SumStarting(keys[..|keys| - 1], vals, path) + if path <= k then vals[k].items else 0
  }

  /** The items reported for a range outside all batches. */
  function OuterTotal(levels: PyDict.Dict<Level>, path: string): int
    requires levels.Valid()
  {
    if path in levels.vals then levels.vals[path].items else SumStarting(levels.keys, levels.vals, path)
  }

  /** The dict at a path once the path has been visited. */
  function NewNode(t: Tables, levels: PyDict.Dict<Level>, path: string, node: Val): (n: Val)
    requires path in t.data.vals && Shaped(node) && levels.Valid()
    ensures n.Dict?
  {
    var (cpu, gpu) := t.data.vals[path];
    if path in t.batches.vals then BatchNode(node, cpu, gpu, t.batches.vals[path].items)
    else if path in t.inside then WithTimes(node, cpu, gpu)
    else OuterNode(node, cpu, gpu, OuterTotal(levels, path))
  }

  /** The level counts once the path has been visited. */
  function NewLevels(t: Tables, warmup: int, levels: PyDict.Dict<Level>, path: string): Result<PyDict.Dict<Level>, Error>
    requires path in t.data.vals
  {
    if path !in t.batches.vals then Ok(levels)
    else
      var (cpu, gpu) := t.data.vals[path];
      var level := Dirname(path);
      match Tally(t, warmup, LevelOf(levels, level), t.batches.vals[path], level, cpu, gpu)
      case Err(e) => Err(e)
      case Ok(l) => Ok(levels.Put(level, l))
  }

  /** Where the dict of a batch's level is kept for later. */
  function NewBatchDicts(t: Tables, batchDicts: PyDict.Dict<Path>, path: string): PyDict.Dict<Path> {
    if path in t.batches.vals then batchDicts.Put(Dirname(path), Split(path)[..|Split(path)| - 1]) else batchDicts
  }

  function Visit(t: Tables, warmup: int, acc: Acc, path: string): Result<Acc, Error>
    requires Usable(t) && path in t.data.keys && Shaped(acc.tree) && acc.levels.Valid()
  {
    var parts := Split(path);
    WalkShaped(acc.tree, parts);
    var node := NewNode(t, acc.levels, path, NodeAt(acc.tree, parts));
    match NewLevels(t, warmup, acc.levels, path)
    case Err(e) => Err(e)
    case Ok(levels) => Ok(Acc(StatTree.Put(acc.tree, parts, node), levels, NewBatchDicts(t, acc.batchDicts, path)))
  }

  lemma NewNodeShaped(t: Tables, levels: PyDict.Dict<Level>, path: string, node: Val)
    requires path in t.data.vals && Shaped(node) && levels.Valid()
    ensures Shaped(NewNode(t, levels, path, node))
  {
    var (cpu, gpu) := t.data.vals[path];
    if path in t.batches.vals {
      BatchNodeIsShaped(node, cpu, gpu, t.batches.vals[path].items);
    } else if path in t.inside {
      ShapedWithTimes(node, cpu, gpu);
    } else {
      OuterNodeHere(node, cpu, gpu, OuterTotal(levels, path), Cpu);
    }
    hide BatchNode, OuterNode, WithTimes, Shaped, SumStarting;
  }

  lemma NewLevelsValid(t: Tables, warmup: int, levels: PyDict.Dict<Level>, batchDicts: PyDict.Dict<Path>, path: string)
    requires path in t.data.vals && levels.Valid() && batchDicts.Valid()
    ensures var r := NewLevels(t, warmup, levels, path); r.Ok? ==> r.value.Valid()
    ensures NewBatchDicts(t, batchDicts, path).Valid()
  {
    hide Split, Dirname, Tally;
  }

  lemma VisitShaped(t: Tables, warmup: int, acc: Acc, path: string)
    requires Usable(t) && path in t.data.keys && Shaped(acc.tree) && acc.levels.Valid() && acc.batchDicts.Valid()
    ensures var r := Visit(t, warmup, acc, path); r.Ok? ==> Shaped(r.value.tree) && r.value.levels.Valid() && r.value.batchDicts.Valid()
  {
    hide Split, Dirname, StatTree.Put, NewNode, NewLevels, NewBatchDicts, Shaped, PlainPath, NodeAt;
    var parts := Split(path);
    WalkShaped(acc.tree, parts);
    NewNodeShaped(t, acc.levels, path, NodeAt(acc.tree, parts));
    NewLevelsValid(t, warmup, acc.levels, acc.batchDicts, path);
    ShapedPut(acc.tree, parts, NewNode(t, acc.levels, path, NodeAt(acc.tree, parts)));
  }

  /** The first `n` paths in order. */
  function Pass(t: Tables, warmup: int, n: nat): (r: Result<Acc, Error>)
    requires Usable(t) && n <= |t.data.keys|
    ensures r.Ok? ==> Shaped(r.value.tree) && r.value.levels.Valid() && r.value.batchDicts.Valid()
  {
    hide Visit, Shaped;
    if n == 0 then
      EmptyShaped();
      Ok(Acc(EMPTY, PyDict.Empty(), PyDict.Empty()))
    else match Pass(t, warmup, n - 1)
      case Err(e) => Err(e)
      case Ok(acc) =>
        VisitShaped(t, warmup, acc, t.data.keys[n - 1]);
        Visit(t, warmup, acc, t.data.keys[n - 1])
  }

  // ------------------------------------------------------------- what one visit changes

  lemma NewNodeHere(t: Tables, levels: PyDict.Dict<Level>, path: string, node: Val)
    requires path in t.data.vals && Shaped(node) && levels.Valid()
    ensures var n := NewNode(t, levels, path, node);
            && Here(n, Cpu) == Some(t.data.vals[path].0) && Here(n, Gpu) == Some(t.data.vals[path].1)
            && Here(n, Total) == if path in t.batches.vals then Some(t.batches.vals[path].items as real)
                                 else if path in t.inside then Here(node, Total)
                                 else Some(OuterTotal(levels, path) as real)
  {
    hide *;
    NewNodeHereAt(t, levels, path, node, Cpu);
    NewNodeHereAt(t, levels, path, node, Gpu);
    NewNodeHereAt(t, levels, path, node, Total);
  }

  lemma NewNodeHereAt(t: Tables, levels: PyDict.Dict<Level>, path: string, node: Val, s: Stat)
    requires path in t.data.vals && Shaped(node) && levels.Valid()
    ensures var n := NewNode(t, levels, path, node);
            && (s == Cpu ==> Here(n, s) == Some(t.data.vals[path].0))
            && (s == Gpu ==> Here(n, s) == Some(t.data.vals[path].1))
            && (s == Total ==> Here(n, s) == if path in t.batches.vals then Some(t.batches.vals[path].items as real)
                                             else if path in t.inside then Here(node, Total)
                                             else Some(OuterTotal(levels, path) as real))
  {
    var (cpu, gpu) := t.data.vals[path];
    if path in t.batches.vals {
      BatchNodeHere(node, cpu, gpu, t.batches.vals[path].items, s);
    } else if path in t.inside {
      TimesHere(node, cpu, gpu, s);
    } else {
      OuterNodeHere(node, cpu, gpu, OuterTotal(levels, path), s);
    }
    hide BatchNode, OuterNode, WithTimes, Shaped, SumStarting, Here;
  }

  /** The pass stores no warm-up figure. */
  lemma NewNodeOther(t: Tables, levels: PyDict.Dict<Level>, path: string, node: Val, s: Stat)
    requires path in t.data.vals && Shaped(node) && levels.Valid() && s !in [Cpu, Gpu, Total, CpuPer, GpuPer]
    ensures Here(NewNode(t, levels, path, node), s) == Here(node, s)
  {
    var (cpu, gpu) := t.data.vals[path];
    if path in t.batches.vals {
      BatchNodeHere(node, cpu, gpu, t.batches.vals[path].items, s);
    } else if path in t.inside {
      TimesHere(node, cpu, gpu, s);
    } else {
      OuterNodeHere(node, cpu, gpu, OuterTotal(levels, path), s);
    }
    hide BatchNode, OuterNode, WithTimes, Shaped, SumStarting, Here;
  }

  /** The path is that of a batch of positive size. */
  predicate SpreadsAt(t: Tables, path: string) {
    path in t.batches.vals && t.batches.vals[path].items > 0
  }

  lemma NewNodeBelow(t: Tables, levels: PyDict.Dict<Level>, path: string, node: Val, r: Path, s: Stat)
    requires path in t.data.vals && Shaped(node) && levels.Valid() && PlainPath(r) && r != []
    ensures var n := NewNode(t, levels, path, node);
            && StatAt(n, r, s) == (if SpreadsAt(t, path) then Given(node, r, t.batches.vals[path].items, s) else StatAt(node, r, s))
            && (IsNode(n, r) <==> IsNode(node, r))
  {
    var (cpu, gpu) := t.data.vals[path];
    if path in t.batches.vals {
      BatchNodeBelow(node, cpu, gpu, t.batches.vals[path].items, r, s);
    } else if path in t.inside {
      WithBelow(node, Cpu, cpu, r);
      WithBelow(With(node, Cpu, cpu), Gpu, gpu, r);
    } else {
      OuterNodeBelow(node, cpu, gpu, OuterTotal(levels, path), r);
    }
    hide BatchNode, OuterNode, With, Shaped, SumStarting, Walk, Given;
  }

  lemma Suffix(p: Path, q: Path)
    requires p <= q && PlainPath(q)
    ensures PlainPath(q[|p|..]) && (q != p ==> q[|p|..] != [])
  {
  }

  /** One visit, seen from a path `q`. */
  lemma VisitStat(t: Tables, acc: Acc, path: string, q: Path, s: Stat)
    requires Usable(t) && path in t.data.keys && Shaped(acc.tree) && acc.levels.Valid() && PlainPath(q)
    ensures var p := Split(path);
            var node := NewNode(t, acc.levels, path, NodeAtOf(acc.tree, p));
            var tree := StatTree.Put(acc.tree, p, node);
            && (p == q ==> StatAt(tree, q, s) == Here(node, s))
            && (p < q ==> StatAt(tree, q, s) == if SpreadsAt(t, path) then Given(acc.tree, q, t.batches.vals[path].items, s) else StatAt(acc.tree, q, s))
            && (!(p <= q) ==> StatAt(tree, q, s) == StatAt(acc.tree, q, s))
            && (IsNode(tree, q) <==> q <= p || IsNode(acc.tree, q))
  {
    var p := Split(path);
    var was := NodeAtOf(acc.tree, p);
    var node := NewNode(t, acc.levels, path, was);
    StatPut(acc.tree, p, node, q, s);
    NodePut(acc.tree, p, node, q);
    if p == q {
      assert q[|p|..] == [];
      ReadHere(node, s);
    } else if p < q {
      Suffix(p, q);
      NewNodeBelow(t, acc.levels, path, was, q[|p|..], s);
      StatBelow(acc.tree, p, q, s);
      StatBelow(acc.tree, p, q, Cpu);
      StatBelow(acc.tree, p, q, Gpu);
      StatBelow(acc.tree, p, q, Total);
    }
    hide StatAt, StatTree.Put, NewNode, Shaped, PlainPath, Split, IsNode, NodeAt, Here;
  }

  lemma ReadHere(n: Val, s: Stat)
    requires n.Dict?
    ensures StatAt(n, [], s) == Here(n, s) && IsNode(n, [])
  {
  }

  ghost function NodeAtOf(tree: Val, p: Path): (n: Val)
    requires Shaped(tree) && PlainPath(p)
    ensures Shaped(n) && n == NodeAt(tree, p)
  {
    WalkShaped(tree, p);
    NodeAt(tree, p)
  }

  lemma PassStep(t: Tables, warmup: int, n: nat)
    requires Usable(t) && 0 < n <= |t.data.keys| && Pass(t, warmup, n).Ok?
    ensures var path := t.data.keys[n - 1];
            && path in t.data.vals && PlainPath(Split(path)) && Components(Split(path)) && Pass(t, warmup, n - 1).Ok?
            && var acc := Pass(t, warmup, n - 1).value;
               var r := NewLevels(t, warmup, acc.levels, path);
               && r.Ok?
               && Pass(t, warmup, n).value
               == Acc(StatTree.Put(acc.tree, Split(path), NewNode(t, acc.levels, path, NodeAtOf(acc.tree, Split(path)))),
                      r.value, NewBatchDicts(t, acc.batchDicts, path))
  {
    hide NewNode, NewLevels, NewBatchDicts, StatTree.Put, Shaped, Split, NodeAt, PlainPath, Components;
    assert t.data.keys[n - 1] in t.data.keys;
  }

  // ------------------------------------------------------------- times and nodes

  predicate Visited(t: Tables, n: nat, q: Path)
    requires n <= |t.data.keys|
  {
    n > 0 && (Split(t.data.keys[n - 1]) == q || Visited(t, n - 1, q))
  }

  lemma {:induction false} VisitedIff(t: Tables, n: nat, q: Path)
    requires n <= |t.data.keys|
    ensures Visited(t, n, q) <==> exists i :: 0 <= i < n && Split(t.data.keys[i]) == q
  {
    hide Split;
    if n > 0 { VisitedIff(t, n - 1, q); }
  }

  /** A dict has times iff its path was visited. */
  lemma {:induction false} TimesIff(t: Tables, warmup: int, n: nat, q: Path)
    requires Usable(t) && n <= |t.data.keys| && Pass(t, warmup, n).Ok? && PlainPath(q)
    ensures var tree := Pass(t, warmup, n).value.tree;
            (StatAt(tree, q, Cpu).Some? <==> Visited(t, n, q)) && (StatAt(tree, q, Gpu).Some? <==> Visited(t, n, q))
  {
    hide Split, NewNode, NewLevels, NewBatchDicts, Shaped, PlainPath, Here, StatAt, Usable, SpreadsAt;
    if n == 0 {
      EmptyReads(q, Cpu);
      EmptyReads(q, Gpu);
    } else {
      PassStep(t, warmup, n);
      var acc := Pass(t, warmup, n - 1).value;
      var path := t.data.keys[n - 1];
      VisitStat(t, acc, path, q, Cpu);
      VisitStat(t, acc, path, q, Gpu);
      NewNodeHere(t, acc.levels, path, NodeAtOf(acc.tree, Split(path)));
      TimesIff(t, warmup, n - 1, q);
      hide NodeAtOf, StatTree.Put;
    }
  }

  /** Reading back: every visited path holds its own times. */
  lemma {:induction false} TimesBack(t: Tables, warmup: int, n: nat, i: nat)
    requires Usable(t) && i < n <= |t.data.keys| && Pass(t, warmup, n).Ok?
    ensures t.data.keys[i] in t.data.vals
    ensures var tree := Pass(t, warmup, n).value.tree; var k := t.data.keys[i];
            StatAt(tree, Split(k), Cpu) == Some(t.data.vals[k].0) && StatAt(tree, Split(k), Gpu) == Some(t.data.vals[k].1)
  {
    hide Split, NewNode, NewLevels, NewBatchDicts, Shaped, PlainPath, Here, StatAt, SpreadsAt, Components, NodeAtOf, StatTree.Put;
    assert t.data.keys[i] in t.data.keys && t.data.keys[n - 1] in t.data.keys;
    PassStep(t, warmup, n);
    var acc := Pass(t, warmup, n - 1).value;
    var path, k := t.data.keys[n - 1], t.data.keys[i];
    VisitStat(t, acc, path, Split(k), Cpu);
    VisitStat(t, acc, path, Split(k), Gpu);
    NewNodeHere(t, acc.levels, path, NodeAtOf(acc.tree, Split(path)));
    SplitInjective(path, k);
    if i < n - 1 { TimesBack(t, warmup, n - 1, i); }
  }

  lemma SplitInjective(a: string, b: string)
    ensures Split(a) == Split(b) <==> a == b
  {
    RenderSplit(a);
    RenderSplit(b);
  }

  /** The dicts of the tree are exactly the prefixes of the visited paths. */
  lemma {:induction false} NodesArePrefixes(t: Tables, warmup: int, n: nat, q: Path)
    requires Usable(t) && n <= |t.data.keys| && Pass(t, warmup, n).Ok? && PlainPath(q)
    ensures IsNode(Pass(t, warmup, n).value.tree, q) <==> q == [] || exists i :: 0 <= i < n && q <= Split(t.data.keys[i])
  {
    hide Split, NewNode, NewLevels, NewBatchDicts, Shaped, PlainPath, Here, StatAt, Usable, SpreadsAt, IsNode, NodeAtOf, StatTree.Put;
    if n == 0 {
      EmptyNodes(q);
    } else {
      PassStep(t, warmup, n);
      var acc := Pass(t, warmup, n - 1).value;
      VisitStat(t, acc, t.data.keys[n - 1], q, Cpu);
      NodesArePrefixes(t, warmup, n - 1, q);
    }
  }

  lemma EmptyNodes(q: Path)
    ensures IsNode(EMPTY, q) <==> q == []
  {
  }

  // ------------------------------------------------------------- level totals

  /** The `i`-th path is a batch directly below the level. */
  predicate BatchAt(t: Tables, i: nat, level: string)
    requires i < |t.data.keys|
  {
    t.data.keys[i] in t.batches.vals && Dirname(t.data.keys[i]) == level
  }

  function SizeAt(t: Tables, i: nat): int
    requires i < |t.data.keys| && t.data.keys[i] in t.batches.vals
  {
    t.batches.vals[t.data.keys[i]].items
  }

  predicate HasBatch(t: Tables, n: nat, level: string)
    requires n <= |t.data.keys|
  {
    n > 0 && (BatchAt(t, n - 1, level) || HasBatch(t, n - 1, level))
  }

  /** The sizes of the visited batches directly below a level. */
  function Direct(t: Tables, n: nat, level: string): int
    requires n <= |t.data.keys|
  {
    if n == 0 then 0 else Direct(t, n - 1, level) + if BatchAt(t, n - 1, level) then SizeAt(t, n - 1) else 0
  }

  /** A positive batch of the level that is not part of the warm-up. */
  predicate CountedAt(t: Tables, warmup: int, i: nat, level: string)
    requires i < |t.data.keys|
  {
    BatchAt(t, i, level) && SizeAt(t, i) > 0 && IsCounted(t, warmup, t.batches.vals[t.data.keys[i]], level) == Ok(true)
  }

  function Counted(t: Tables, warmup: int, n: nat, level: string): int
    requires n <= |t.data.keys|
  {
    if n == 0 then 0 else Counted(t, warmup, n - 1, level) + if CountedAt(t, warmup, n - 1, level) then SizeAt(t, n - 1) else 0
  }

  /** The sizes of the visited batches directly below a level that are not counted. */
  function Excluded(t: Tables, warmup: int, n: nat, level: string): int
    requires n <= |t.data.keys|
  {
    if n == 0 then 0
    else Excluded(t, warmup, n - 1, level)
         + if BatchAt(t, n - 1, level) && !CountedAt(t, warmup, n - 1, level) then SizeAt(t, n - 1) else 0
  }

  /** The CPU or GPU time of the positive batches that are not counted. */
  function WarmTime(t: Tables, warmup: int, n: nat, level: string, gpu: bool): real
    requires Usable(t) && n <= |t.data.keys|
  {
    if n == 0 then 0.0
    else
      WarmTime(t, warmup, n - 1, level, gpu)
      + if BatchAt(t, n - 1, level) && SizeAt(t, n - 1) > 0 && !CountedAt(t, warmup, n - 1, level) then
          TimeAt(t, n - 1, gpu)
        else 0.0
  }

  function TimeAt(t: Tables, i: nat, gpu: bool): real
    requires Usable(t) && i < |t.data.keys|
  {
    assert t.data.keys[i] in t.data.keys;
    var (c, g) := t.data.vals[t.data.keys[i]];
    if gpu then g else c
  }

  /** Every batch is counted or excluded. */
  lemma {:induction false} CountedAndExcluded(t: Tables, warmup: int, n: nat, level: string)
    requires n <= |t.data.keys|
    ensures Direct(t, n, level) == Counted(t, warmup, n, level) + Excluded(t, warmup, n, level)
  {
    hide CountedAt, BatchAt;
    if n > 0 {
      CountedAndExcluded(t, warmup, n - 1, level);
      assert CountedAt(t, warmup, n - 1, level) ==> BatchAt(t, n - 1, level) by { CountedIsBatch(t, warmup, n - 1, level); }
      assert BatchAt(t, n - 1, level) ==> t.data.keys[n - 1] in t.batches.vals by { BatchIsBatch(t, n - 1, level); }
    }
  }

  lemma CountedIsBatch(t: Tables, warmup: int, i: nat, level: string)
    requires i < |t.data.keys|
    ensures CountedAt(t, warmup, i, level) ==> BatchAt(t, i, level)
  {
  }

  lemma BatchIsBatch(t: Tables, i: nat, level: string)
    requires i < |t.data.keys|
    ensures BatchAt(t, i, level) ==> t.data.keys[i] in t.batches.vals
  {
  }

  /** The level counts of the pass are the sums over the visited batches. */
  lemma {:induction false} LevelsRight(t: Tables, warmup: int, n: nat, level: string)
    requires Usable(t) && n <= |t.data.keys| && Pass(t, warmup, n).Ok?
    ensures var levels := Pass(t, warmup, n).value.levels;
            && (level in levels.vals <==> HasBatch(t, n, level))
            && LevelOf(levels, level) == Level(Direct(t, n, level), Counted(t, warmup, n, level),
                                               WarmTime(t, warmup, n, level, false), WarmTime(t, warmup, n, level, true))
  {
    hide *;
    if n == 0 {
      NothingVisited(t, warmup, level);
    } else {
      PassStep(t, warmup, n);
      LevelsRight(t, warmup, n - 1, level);
      LevelStep(t, warmup, n, Pass(t, warmup, n - 1).value.levels, level);
    }
  }

  lemma NothingVisited(t: Tables, warmup: int, level: string)
    requires Usable(t)
    ensures var r := Pass(t, warmup, 0);
            && r.Ok? && r.value.levels == PyDict.Empty() && r.value.batchDicts == PyDict.Empty() && r.value.tree == EMPTY
            && level !in r.value.levels.vals && !HasBatch(t, 0, level)
            && LevelOf(r.value.levels, level) == Level(Direct(t, 0, level), Counted(t, warmup, 0, level),
                                                       WarmTime(t, warmup, 0, level, false), WarmTime(t, warmup, 0, level, true))
            && (forall path :: SumStarting(r.value.levels.keys, r.value.levels.vals, path) == Starting(t, 0, path))
  {
  }

  /** The tally of a batch whose level could be classified. */
  lemma TallyIs(t: Tables, warmup: int, was: Level, b: Batch, level: string, cpu: real, gpu: real)
    requires Tally(t, warmup, was, b, level, cpu, gpu).Ok?
    ensures var counted := b.items > 0 && IsCounted(t, warmup, b, level) == Ok(true);
            var l := Level(was.items + b.items, was.minus + (if counted then b.items else 0),
                           was.warmCpu + (if b.items > 0 && !counted then cpu else 0.0), was.warmGpu + (if b.items > 0 && !counted then gpu else 0.0));
            Tally(t, warmup, was, b, level, cpu, gpu).value == l
  {
  }

  lemma LevelStep(t: Tables, warmup: int, n: nat, levels: PyDict.Dict<Level>, level: string)
    requires Usable(t) && 0 < n <= |t.data.keys| && t.data.keys[n - 1] in t.data.vals
    requires NewLevels(t, warmup, levels, t.data.keys[n - 1]).Ok?
    requires level in levels.vals <==> HasBatch(t, n - 1, level)
    requires LevelOf(levels, level) == Level(Direct(t, n - 1, level), Counted(t, warmup, n - 1, level),
                                             WarmTime(t, warmup, n - 1, level, false), WarmTime(t, warmup, n - 1, level, true))
    ensures var r := NewLevels(t, warmup, levels, t.data.keys[n - 1]).value;
            && (level in r.vals <==> HasBatch(t, n, level))
            && LevelOf(r, level) == Level(Direct(t, n, level), Counted(t, warmup, n, level),
                                          WarmTime(t, warmup, n, level, false), WarmTime(t, warmup, n, level, true))
  {
    var k := t.data.keys[n - 1];
    if k in t.batches.vals {
      TallyIs(t, warmup, LevelOf(levels, Dirname(k)), t.batches.vals[k], Dirname(k), t.data.vals[k].0, t.data.vals[k].1);
    }
    hide Dirname, Split, Shaped, PlainPath, Tally, IsCounted, Usable;
  }

  // ------------------------------------------------------------- totals of outer ranges

  /** The sizes of the visited batches whose level starts with the path as a string. */
  function Starting(t: Tables, n: nat, path: string): int
    requires n <= |t.data.keys|
  {
    if n == 0 then 0
    else Starting(t, n - 1, path)
         + if t.data.keys[n - 1] in t.batches.vals && path <= Dirname(t.data.keys[n - 1]) then SizeAt(t, n - 1) else 0
  }

  lemma {:induction false} SumSame(keys: seq<string>, a: map<string, Level>, b: map<string, Level>, path: string)
    requires forall k :: k in keys ==> k in a && k in b && a[k].items == b[k].items
    ensures SumStarting(keys, a, path) == SumStarting(keys, b, path)
  {
    if keys != [] {
      assert keys[|keys| - 1] in keys;
      SumSame(keys[..|keys| - 1], a, b, path);
    }
  }

  lemma {:induction false} SumChange(keys: seq<string>, vals: map<string, Level>, level: string, l: Level, path: string)
    requires forall k :: k in keys ==> k in vals
    requires level in keys && forall i, j :: 0 <= i < j < |keys| ==> keys[i] != keys[j]
    ensures SumStarting(keys, vals[level := l], path)
         == SumStarting(keys, vals, path) + if path <= level then l.items - vals[level].items else 0
  {
    var init, k := keys[..|keys| - 1], keys[|keys| - 1];
    if k == level {
      SumSame(init, vals[level := l], vals, path);
    } else {
      SumChange(init, vals, level, l, path);
    }
  }

  lemma SumPut(levels: PyDict.Dict<Level>, level: string, l: Level, path: string)
    requires levels.Valid()
    ensures levels.Put(level, l).Valid()
    ensures SumStarting(levels.Put(level, l).keys, levels.Put(level, l).vals, path)
         == SumStarting(levels.keys, levels.vals, path) + if path <= level then l.items - LevelOf(levels, level).items else 0
  {
    PutValid(levels, level, l);
    if level in levels.vals {
      SumChange(levels.keys, levels.vals, level, l, path);
    } else {
      var keys := levels.keys + [level];
      assert keys[..|keys| - 1] == levels.keys;
      SumSame(levels.keys, levels.vals, levels.vals[level := l], path);
    }
  }

  lemma {:induction false} StartingRight(t: Tables, warmup: int, n: nat, path: string)
    requires Usable(t) && n <= |t.data.keys| && Pass(t, warmup, n).Ok?
    ensures var levels := Pass(t, warmup, n).value.levels;
            SumStarting(levels.keys, levels.vals, path) == Starting(t, n, path)
  {
    hide *;
    if n == 0 {
      NothingVisited(t, warmup, path);
    } else {
      PassStep(t, warmup, n);
      StartingRight(t, warmup, n - 1, path);
      StartingStep(t, warmup, n, Pass(t, warmup, n - 1).value.levels, path);
    }
  }

  lemma StartingStep(t: Tables, warmup: int, n: nat, levels: PyDict.Dict<Level>, path: string)
    requires Usable(t) && 0 < n <= |t.data.keys| && t.data.keys[n - 1] in t.data.vals && levels.Valid()
    requires NewLevels(t, warmup, levels, t.data.keys[n - 1]).Ok?
    requires SumStarting(levels.keys, levels.vals, path) == Starting(t, n - 1, path)
    ensures var r := NewLevels(t, warmup, levels, t.data.keys[n - 1]).value;
            r.Valid() && SumStarting(r.keys, r.vals, path) == Starting(t, n, path)
  {
    hide Dirname, Split, Shaped, PlainPath, Tally, IsCounted, SumStarting;
    var k := t.data.keys[n - 1];
    if k in t.batches.vals {
      TallyIs(t, warmup, LevelOf(levels, Dirname(k)), t.batches.vals[k], Dirname(k), t.data.vals[k].0, t.data.vals[k].1);
      SumPut(levels, Dirname(k), NewLevels(t, warmup, levels, k).value.vals[Dirname(k)], path);
    }
    hide Usable;
  }

  // ------------------------------------------------------------- the total at a path

  /** What an outer range reports when it is the `i`-th path. */
  function OuterAt(t: Tables, i: nat, path: string): int
    requires i <= |t.data.keys|
  {
    if HasBatch(t, i, path) then Direct(t, i, path) else Starting(t, i, path)
  }

  /** The `total_items` at a path after `n` visits: set when it is visited, or given by the first later batch around it. */
  function TotalAfter(t: Tables, n: nat, q: Path): Option<int>
    requires n <= |t.data.keys|
  {
    if n == 0 then None
    else
      var k, was := t.data.keys[n - 1], TotalAfter(t, n - 1, q);
      if Split(k) == q then
        if k in t.batches.vals then Some(t.batches.vals[k].items)
        else if k in t.inside then was
        else Some(OuterAt(t, n - 1, k))
      else if Split(k) < q && SpreadsAt(t, k) && was.None? && Visited(t, n - 1, q) then Some(t.batches.vals[k].items)
      else was
  }

  function AsReal(x: Option<int>): Option<real> {
    if x.Some? then Some(x.value as real) else None
  }

  /** The tree holds exactly these totals. */
  lemma {:induction false} TreeTotal(t: Tables, warmup: int, n: nat, q: Path)
    requires Usable(t) && n <= |t.data.keys| && Pass(t, warmup, n).Ok? && PlainPath(q)
    ensures StatAt(Pass(t, warmup, n).value.tree, q, Total) == AsReal(TotalAfter(t, n, q))
  {
    hide *;
    if n == 0 {
      NoTotalYet(t, warmup, q);
    } else {
      PassStep(t, warmup, n);
      TreeTotal(t, warmup, n - 1, q);
      TimesIff(t, warmup, n - 1, q);
      var acc, k := Pass(t, warmup, n - 1).value, t.data.keys[n - 1];
      KeysIn(t, n - 1);
      VisitStat(t, acc, k, q, Total);
      NewNodeHere(t, acc.levels, k, NodeAtOf(acc.tree, Split(k)));
      LevelsRight(t, warmup, n - 1, k);
      StartingRight(t, warmup, n - 1, k);
      TotalStep(t, n, q, acc);
    }
  }

  lemma KeysIn(t: Tables, i: nat)
    requires i < |t.data.keys|
    ensures t.data.keys[i] in t.data.keys
  {
  }

  lemma NoTotalYet(t: Tables, warmup: int, q: Path)
    requires Usable(t)
    ensures Pass(t, warmup, 0).Ok? && StatAt(Pass(t, warmup, 0).value.tree, q, Total) == AsReal(TotalAfter(t, 0, q))
  {
    EmptyReads(q, Total);
  }

  lemma TotalStep(t: Tables, n: nat, q: Path, acc: Acc)
    requires Usable(t) && 0 < n <= |t.data.keys| && Shaped(acc.tree) && acc.levels.Valid() && PlainPath(q)
    requires t.data.keys[n - 1] in t.data.keys
    requires var k := t.data.keys[n - 1];
             && (k in acc.levels.vals <==> HasBatch(t, n - 1, k))
             && LevelOf(acc.levels, k).items == Direct(t, n - 1, k)
             && SumStarting(acc.levels.keys, acc.levels.vals, k) == Starting(t, n - 1, k)
    requires StatAt(acc.tree, q, Total) == AsReal(TotalAfter(t, n - 1, q))
    requires (StatAt(acc.tree, q, Cpu).Some? <==> Visited(t, n - 1, q)) && (StatAt(acc.tree, q, Gpu).Some? <==> Visited(t, n - 1, q))
    ensures var k := t.data.keys[n - 1];
            var node := NewNode(t, acc.levels, k, NodeAtOf(acc.tree, Split(k)));
            var tree := StatTree.Put(acc.tree, Split(k), node);
            StatAt(tree, q, Total) == AsReal(TotalAfter(t, n, q))
  {
    var k := t.data.keys[n - 1];
    var was := NodeAtOf(acc.tree, Split(k));
    VisitStat(t, acc, k, q, Total);
    NewNodeHere(t, acc.levels, k, was);
    HereAt(acc.tree, Split(k));
    hide NewNode, NodeAtOf, StatAt, Here, Shaped, PlainPath, Split, HasBatch, Direct, Starting, SumStarting, Visited, StatTree.Put, Usable;
  }

  lemma HereAt(tree: Val, p: Path)
    requires Shaped(tree) && PlainPath(p)
    ensures Here(NodeAtOf(tree, p), Total) == StatAt(tree, p, Total)
  {
    StatBelow(tree, p, p, Total);
    assert p[|p|..] == [];
    ReadHere(NodeAtOf(tree, p), Total);
    hide Here, Shaped, Walk;
  }
}
