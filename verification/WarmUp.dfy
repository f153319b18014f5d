/**
 The second half of `unflatten_process_benchmark_dict`: the warm-up figures of every batch
 level, and the whole function with its loops.
 */
module WarmUp {
  import opened Text
  import opened Paths
  import opened PyDict
  import opened PerfRecorder
  import opened StatTree
  import opened Unflatten

  /** The warm-up figures of a level, from its total, its times and its counts; other statistics stay. */
  function Figure(total: real, cpu: real, gpu: real, l: Level, s: Stat, other: Option<real>): Option<real> {
    match s
    case Warm => Some(total - l.minus as real)
    case Minus => Some(l.minus as real)
    case CpuMinus => Some(cpu - l.warmCpu)
    case GpuMinus => Some(gpu - l.warmGpu)
    case CpuMinusPer => Some(if l.minus > 0 then (cpu - l.warmCpu) / l.minus as real else 0.0)
    case GpuMinusPer => Some(if l.minus > 0 then (gpu - l.warmGpu) / l.minus as real else 0.0)
    case _ => other
  }

  function WithFigures(v: Val, warm: real, minus: real, cpu: real, gpu: real, cpuPer: real, gpuPer: real): (n: Val)
    requires v.Dict?
    ensures n.Dict?
  {
    With(With(With(With(With(With(v, Warm, warm), Minus, minus), CpuMinus, cpu), GpuMinus, gpu), CpuMinusPer, cpuPer), GpuMinusPer, gpuPer)
  }

  /** The six warm-up entries of a level's dict. */
  function WarmNode(v: Val, l: Level): (n: Val)
    requires Here(v, Total).Some? && Here(v, Cpu).Some? && Here(v, Gpu).Some?
    ensures n.Dict?
  {
    var cpu, gpu := Here(v, Cpu).value - l.warmCpu, Here(v, Gpu).value - l.warmGpu;
    WithFigures(v, Here(v, Total).value - l.minus as real, l.minus as real, cpu, gpu,
                if l.minus > 0 then cpu / l.minus as real else 0.0, if l.minus > 0 then gpu / l.minus as real else 0.0)
  }

  lemma WarmNodeHere(v: Val, l: Level, s: Stat)
    requires Shaped(v) && Here(v, Total).Some? && Here(v, Cpu).Some? && Here(v, Gpu).Some?
    ensures Shaped(WarmNode(v, l))
    ensures Here(WarmNode(v, l), s) == Figure(Here(v, Total).value, Here(v, Cpu).value, Here(v, Gpu).value, l, s, Here(v, s))
  {
    hide With, WithFigures, Here, Shaped;
    var cpu, gpu := Here(v, Cpu).value - l.warmCpu, Here(v, Gpu).value - l.warmGpu;
    FiguresHere(v, Here(v, Total).value - l.minus as real, l.minus as real, cpu, gpu,
                if l.minus > 0 then cpu / l.minus as real else 0.0, if l.minus > 0 then gpu / l.minus as real else 0.0, s);
  }

  lemma FiguresHere(v: Val, warm: real, minus: real, cpu: real, gpu: real, cpuPer: real, gpuPer: real, s: Stat)
    requires Shaped(v) && Here(v, Cpu).Some?
    ensures var n := WithFigures(v, warm, minus, cpu, gpu, cpuPer, gpuPer);
            && Shaped(n)
            && Here(n, s) == match s { case Warm => Some(warm) case Minus => Some(minus) case CpuMinus => Some(cpu)
                                       case GpuMinus => Some(gpu) case CpuMinusPer => Some(cpuPer) case GpuMinusPer => Some(gpuPer)
                                       case _ => Here(v, s) }
  {
    assert v.Dict?;
    hide With, Here, Shaped;
    var n1 := With(v, Warm, warm);
    var n2 := With(n1, Minus, minus);
    var n3 := With(n2, CpuMinus, cpu);
    var n4 := With(n3, GpuMinus, gpu);
    var n5 := With(n4, CpuMinusPer, cpuPer);
    AddStat(v, Warm, warm, s);
    AddStat(n1, Minus, minus, s);
    AddStat(n2, CpuMinus, cpu, s);
    AddStat(n3, GpuMinus, gpu, s);
    AddStat(n4, CpuMinusPer, cpuPer, s);
    AddStat(n5, GpuMinusPer, gpuPer, s);
  }

  lemma AddStat(v: Val, s: Stat, x: real, r: Stat)
    requires Shaped(v) && Here(v, Cpu).Some? && s != Cpu && s != Gpu
    ensures Shaped(With(v, s, x)) && Here(With(v, s, x), Cpu).Some?
    ensures Here(With(v, s, x), r) == if r == s then Some(x) else Here(v, r)
  {
    assert v.Dict?;
    hide With, Here, Shaped;
    ShapedWith(v, s, x);
    HereWith(v, s, x, r);
    HereWith(v, s, x, Cpu);
  }

  lemma WarmNodeBelow(v: Val, l: Level, r: Path)
    requires Here(v, Total).Some? && Here(v, Cpu).Some? && Here(v, Gpu).Some? && PlainPath(r) && r != []
    ensures Walk(WarmNode(v, l), r) == Walk(v, r)
  {
    var cpu, gpu := Here(v, Cpu).value - l.warmCpu, Here(v, Gpu).value - l.warmGpu;
    var w := Here(v, Total).value - l.minus as real;
    var m := l.minus as real;
    var n2 := With(With(v, Warm, w), Minus, m);
    var n4 := With(With(n2, CpuMinus, cpu), GpuMinus, gpu);
    var cpuPer, gpuPer := if l.minus > 0 then cpu / m else 0.0, if l.minus > 0 then gpu / m else 0.0;
    WithBelow(v, Warm, w, r);
    WithBelow(With(v, Warm, w), Minus, m, r);
    WithBelow(n2, CpuMinus, cpu, r);
    WithBelow(With(n2, CpuMinus, cpu), GpuMinus, gpu, r);
    WithBelow(n4, CpuMinusPer, cpuPer, r);
    WithBelow(With(n4, CpuMinusPer, cpuPer), GpuMinusPer, gpuPer, r);
    hide With, Walk, PlainPath;
  }

  /** Whether the pass can read what it needs at a level: the level was itself recorded and given a total. */
  predicate Readable(tree: Val, p: Path) {
    StatAt(tree, p, Total).Some? && StatAt(tree, p, Cpu).Some? && StatAt(tree, p, Gpu).Some?
  }

  /** One level; `KeyError` when its dict has no total or no times. */
  function FinishLevel(tree: Val, l: Level, p: Path): (r: Result<Val, Error>)
    requires Shaped(tree) && PlainPath(p)
    ensures r.Ok? <==> Readable(tree, p)
    ensures r.Ok? ==> Shaped(r.value)
  {
    hide Shaped, Here, StatTree.Put, WarmNode, PlainPath;
    if Readable(tree, p) then
      ReadNode(tree, p);
      WarmNodeHere(NodeAt(tree, p), l, Cpu);
      ShapedPut(tree, p, WarmNode(NodeAt(tree, p), l));
      Ok(StatTree.Put(tree, p, WarmNode(NodeAt(tree, p), l)))
    else Err(KeyError)
  }

  lemma ReadNode(tree: Val, p: Path)
    requires Shaped(tree) && PlainPath(p)
    ensures Shaped(NodeAt(tree, p)) && forall s :: Here(NodeAt(tree, p), s) == StatAt(tree, p, s)
  {
    hide Shaped, Here, PlainPath;
    WalkShaped(tree, p);
    forall s ensures Here(NodeAt(tree, p), s) == StatAt(tree, p, s) {
      StatBelow(tree, p, p, s);
      assert p[|p|..] == [];
      ReadHere(NodeAt(tree, p), s);
    }
  }

  /** What one level changes. */
  lemma FinishStat(tree: Val, l: Level, p: Path, q: Path, s: Stat)
    requires Shaped(tree) && PlainPath(p) && PlainPath(q) && Readable(tree, p)
    ensures var after := FinishLevel(tree, l, p).value;
            && StatAt(after, q, s) == (if q == p then Here(WarmNode(NodeAtOf(tree, p), l), s) else StatAt(tree, q, s))
            && (IsNode(after, q) <==> IsNode(tree, q))
  {
    hide Shaped, Here, StatTree.Put, WarmNode, PlainPath, NodeAt, Walk;
    ReadNode(tree, p);
    var n := WarmNode(NodeAt(tree, p), l);
    StatPut(tree, p, n, q, s);
    NodePut(tree, p, n, q);
    if q == p {
      assert q[|p|..] == [];
      ReadHere(n, s);
      NodeOfStat(tree, p);
    } else if p <= q {
      Suffix(p, q);
      WarmNodeBelow(NodeAt(tree, p), l, q[|p|..]);
      StatBelow(tree, p, q, s);
    } else if q <= p {
      assert q < p;
      NodeAbove(tree, q, p);
    }
  }

  lemma NodeOfStat(tree: Val, p: Path)
    requires StatAt(tree, p, Total).Some?
    ensures IsNode(tree, p)
  {
    hide Walk;
  }

  lemma NodeAbove(tree: Val, q: Path, p: Path)
    requires q < p && StatAt(tree, p, Total).Some?
    ensures IsNode(tree, q)
  {
    WalkSome(tree, q, p[|q|..]);
    assert q + p[|q|..] == p;
    var n := Walk(tree, q);
    assert p[|q|..] != [];
  }

  ghost predicate DictsUsable(levels: PyDict.Dict<Level>, dicts: PyDict.Dict<Path>) {
    && dicts.Valid() && levels.Valid()
    && (forall k :: k in dicts.vals ==> k in levels.vals && PlainPath(dicts.vals[k]))
    && (forall a, b :: a in dicts.vals && b in dicts.vals && a != b ==> dicts.vals[a] != dicts.vals[b])
  }

  /** The first `n` levels in the order in which they were first met. */
  function Finish(tree: Val, levels: PyDict.Dict<Level>, dicts: PyDict.Dict<Path>, n: nat): (r: Result<Val, Error>)
    requires Shaped(tree) && DictsUsable(levels, dicts) && n <= |dicts.keys|
    ensures r.Ok? ==> Shaped(r.value)
  {
    hide FinishLevel, Shaped;
    if n == 0 then Ok(tree)
    else match Finish(tree, levels, dicts, n - 1)
      case Err(e) => Err(e)
      case Ok(done) =>
        assert dicts.keys[n - 1] in dicts.keys;
        FinishLevel(done, levels.vals[dicts.keys[n - 1]], dicts.vals[dicts.keys[n - 1]])
  }

  /** Times, totals and dicts stay what they were; a level already finished stays finished. */
  lemma {:induction false} FinishKeeps(tree: Val, levels: PyDict.Dict<Level>, dicts: PyDict.Dict<Path>, n: nat, q: Path, s: Stat)
    requires Shaped(tree) && DictsUsable(levels, dicts) && n <= |dicts.keys| && PlainPath(q) && Finish(tree, levels, dicts, n).Ok?
    ensures var done := Finish(tree, levels, dicts, n).value;
            && (IsNode(done, q) <==> IsNode(tree, q))
            && (s in [Cpu, Gpu, Total, CpuPer, GpuPer] ==> StatAt(done, q, s) == StatAt(tree, q, s))
            && ((forall i :: 0 <= i < n && dicts.keys[i] in dicts.vals ==> dicts.vals[dicts.keys[i]] != q) ==> StatAt(done, q, s) == StatAt(tree, q, s))
  {
    hide FinishLevel, Shaped, PlainPath, StatAt, IsNode, WarmNode, NodeAtOf;
    if n > 0 {
      FinishKeeps(tree, levels, dicts, n - 1, q, s);
      assert dicts.keys[n - 1] in dicts.keys;
      var before, k := Finish(tree, levels, dicts, n - 1).value, dicts.keys[n - 1];
      FinishStat(before, levels.vals[k], dicts.vals[k], q, s);
      ReadNodeOf(before, dicts.vals[k]);
      WarmNodeHere(NodeAtOf(before, dicts.vals[k]), levels.vals[k], s);
    }
  }

  lemma ReadNodeOf(tree: Val, p: Path)
    requires Shaped(tree) && PlainPath(p)
    ensures Shaped(NodeAtOf(tree, p)) && forall s :: Here(NodeAtOf(tree, p), s) == StatAt(tree, p, s)
  {
    hide Shaped, Here, PlainPath, NodeAt, StatAt;
    ReadNode(tree, p);
  }

  /** The `i`-th level was not itself recorded with a total. */
  ghost predicate Blocks(tree: Val, dicts: PyDict.Dict<Path>, i: nat)
    requires i < |dicts.keys|
  {
    dicts.keys[i] in dicts.vals && !Readable(tree, dicts.vals[dicts.keys[i]])
  }

  /** Finishing raises iff some level blocks it. */
  lemma {:induction false} FinishFailsIff(tree: Val, levels: PyDict.Dict<Level>, dicts: PyDict.Dict<Path>, n: nat)
    requires Shaped(tree) && DictsUsable(levels, dicts) && n <= |dicts.keys|
    ensures Finish(tree, levels, dicts, n).Err? <==> exists i :: 0 <= i < n && Blocks(tree, dicts, i)
  {
    hide *;
    if n == 0 {
      FinishNone(tree, levels, dicts);
    } else {
      FinishFailsIff(tree, levels, dicts, n - 1);
      FinishOne(tree, levels, dicts, n);
    }
  }

  /** What finishing raises is `KeyError`. */
  lemma {:induction false} FinishRaises(tree: Val, levels: PyDict.Dict<Level>, dicts: PyDict.Dict<Path>, n: nat)
    requires Shaped(tree) && DictsUsable(levels, dicts) && n <= |dicts.keys| && Finish(tree, levels, dicts, n).Err?
    ensures Finish(tree, levels, dicts, n) == Err(KeyError)
  {
    hide Shaped, PlainPath, StatAt;
    assert n > 0 && dicts.keys[n - 1] in dicts.keys;
    if Finish(tree, levels, dicts, n - 1).Err? { FinishRaises(tree, levels, dicts, n - 1); }
  }

  lemma FinishNone(tree: Val, levels: PyDict.Dict<Level>, dicts: PyDict.Dict<Path>)
    requires Shaped(tree) && DictsUsable(levels, dicts)
    ensures Finish(tree, levels, dicts, 0) == Ok(tree)
  {
  }

  lemma FinishOne(tree: Val, levels: PyDict.Dict<Level>, dicts: PyDict.Dict<Path>, n: nat)
    requires Shaped(tree) && DictsUsable(levels, dicts) && 0 < n <= |dicts.keys|
    ensures Finish(tree, levels, dicts, n).Err? <==> Finish(tree, levels, dicts, n - 1).Err? || Blocks(tree, dicts, n - 1)
  {
    hide FinishLevel, Shaped, PlainPath, StatAt;
    assert dicts.keys[n - 1] in dicts.keys;
    if Finish(tree, levels, dicts, n - 1).Ok? {
      var p := dicts.vals[dicts.keys[n - 1]];
      FinishKeeps(tree, levels, dicts, n - 1, p, Cpu);
      FinishKeeps(tree, levels, dicts, n - 1, p, Gpu);
      FinishKeeps(tree, levels, dicts, n - 1, p, Total);
    }
  }

  /** The warm-up figures of a level. */
  lemma {:induction false} FinishFigures(tree: Val, levels: PyDict.Dict<Level>, dicts: PyDict.Dict<Path>, n: nat, i: nat, s: Stat)
    requires Shaped(tree) && DictsUsable(levels, dicts) && i < n <= |dicts.keys| && Finish(tree, levels, dicts, n).Ok?
    ensures dicts.keys[i] in dicts.vals && Readable(tree, dicts.vals[dicts.keys[i]])
    ensures var l, p := levels.vals[dicts.keys[i]], dicts.vals[dicts.keys[i]];
            var figure := Figure(StatAt(tree, p, Total).value, StatAt(tree, p, Cpu).value, StatAt(tree, p, Gpu).value, l, s, StatAt(tree, p, s));
            StatAt(Finish(tree, levels, dicts, n).value, p, s) == figure
  {
    hide FinishLevel, Shaped, PlainPath, StatAt, IsNode, WarmNode, NodeAtOf, Here, Figure;
    assert dicts.keys[i] in dicts.keys && dicts.keys[n - 1] in dicts.keys;
    FinishFailsIff(tree, levels, dicts, n);
    assert !Blocks(tree, dicts, i);
    var before, k := Finish(tree, levels, dicts, n - 1).value, dicts.keys[n - 1];
    var p := dicts.vals[dicts.keys[i]];
    if i < n - 1 {
      FinishFigures(tree, levels, dicts, n - 1, i, s);
      assert k != dicts.keys[i] && dicts.vals[k] != p;
      FinishStat(before, levels.vals[k], dicts.vals[k], p, s);
    } else {
      FinishKeeps(tree, levels, dicts, n - 1, p, s);
      FinishKeeps(tree, levels, dicts, n - 1, p, Cpu);
      FinishKeeps(tree, levels, dicts, n - 1, p, Gpu);
      FinishKeeps(tree, levels, dicts, n - 1, p, Total);
      FinishStat(before, levels.vals[k], p, p, s);
      ReadNodeOf(before, p);
      WarmNodeHere(NodeAtOf(before, p), levels.vals[k], s);
      Untouched(tree, levels, dicts, n - 1, p, s);
    }
  }

  lemma Untouched(tree: Val, levels: PyDict.Dict<Level>, dicts: PyDict.Dict<Path>, n: nat, p: Path, s: Stat)
    requires Shaped(tree) && DictsUsable(levels, dicts) && n < |dicts.keys| && Finish(tree, levels, dicts, n).Ok?
    requires dicts.keys[n] in dicts.vals && p == dicts.vals[dicts.keys[n]]
    ensures StatAt(Finish(tree, levels, dicts, n).value, p, s) == StatAt(tree, p, s)
  {
    hide Finish, Shaped, PlainPath, StatAt, IsNode;
    FinishKeeps(tree, levels, dicts, n, p, s);
    forall i | 0 <= i < n && dicts.keys[i] in dicts.vals ensures dicts.vals[dicts.keys[i]] != p {
      assert dicts.keys[i] != dicts.keys[n];
    }
  }

  // ------------------------------------------------------------- both halves

  /** A level's name is the path of its dict. */
  ghost predicate DictOk(level: string, p: Path) {
    PlainPath(p) && if p == [] then level == "" else Components(p) && level == Render(p)
  }

  lemma LevelPath(k: string)
    requires Components(Split(k)) && PlainPath(Split(k))
    ensures DictOk(Dirname(k), Split(k)[..|Split(k)| - 1])
  {
    RenderSplit(k);
    var ps := Split(k);
    var init, c := ps[..|ps| - 1], ps[|ps| - 1];
    assert ps == init + [c];
    hide Dirname, Render, Split, Plain;
    if init == [] {
      DirnameOne(c);
      RenderOne(c);
      assert ps == [c];
    } else {
      assert Components(init);
      JoinAppends(init, c);
    }
  }

  lemma RenderOne(c: string)
    ensures Render([c]) == c
  {
  }

  lemma DirnameOne(c: string)
    requires Component(c)
    ensures Dirname(c) == ""
  {
    LastSlash("", c);
  }

  lemma {:induction false} DictsRight(t: Tables, warmup: int, n: nat)
    requires Usable(t) && n <= |t.data.keys| && Pass(t, warmup, n).Ok?
    ensures var acc := Pass(t, warmup, n).value;
            && (forall l :: l in acc.batchDicts.vals <==> l in acc.levels.vals)
            && (forall l :: l in acc.batchDicts.vals ==> DictOk(l, acc.batchDicts.vals[l]))
  {
    hide *;
    if n == 0 {
      NothingVisited(t, warmup, "");
      EmptyHas<Level>();
      EmptyHas<Path>();
    } else {
      PassStep(t, warmup, n);
      DictsRight(t, warmup, n - 1);
      KeysIn(t, n - 1);
      LevelPath(t.data.keys[n - 1]);
      DictStep(t, warmup, Pass(t, warmup, n - 1).value, t.data.keys[n - 1]);
    }
  }

  lemma EmptyHas<V>()
    ensures forall k :: k !in PyDict.Empty<V>().vals
  {
  }

  lemma DictStep(t: Tables, warmup: int, acc: Acc, k: string)
    requires k in t.data.vals && NewLevels(t, warmup, acc.levels, k).Ok? && Components(Split(k)) && DictOk(Dirname(k), Split(k)[..|Split(k)| - 1])
    requires (forall l :: l in acc.batchDicts.vals <==> l in acc.levels.vals) && (forall l :: l in acc.batchDicts.vals ==> DictOk(l, acc.batchDicts.vals[l]))
    ensures var levels, dicts := NewLevels(t, warmup, acc.levels, k).value, NewBatchDicts(t, acc.batchDicts, k);
            && (forall l :: l in dicts.vals <==> l in levels.vals)
            && (forall l :: l in dicts.vals ==> DictOk(l, dicts.vals[l]))
  {
    hide Tally, Dirname, Split, DictOk, Components, LevelOf;
  }

  lemma PassDictsUsable(t: Tables, warmup: int, n: nat)
    requires Usable(t) && n <= |t.data.keys| && Pass(t, warmup, n).Ok?
    ensures var acc := Pass(t, warmup, n).value; Shaped(acc.tree) && DictsUsable(acc.levels, acc.batchDicts)
  {
    DictsRight(t, warmup, n);
    hide Pass, Shaped, Render, PlainPath, Component, Usable;
  }

  /** The whole function: the expanded data, or the exception it raises. */
  function Unflattened(t: Tables, warmup: int): Result<Val, Error>
    requires Usable(t)
  {
    hide Pass, Finish, Usable, DictsUsable;
    match Pass(t, warmup, |t.data.keys|)
    case Err(e) => Err(e)
    case Ok(acc) =>
      PassDictsUsable(t, warmup, |t.data.keys|);
      Finish(acc.tree, acc.levels, acc.batchDicts, |acc.batchDicts.keys|)
  }

  method OuterItems(levels: PyDict.Dict<Level>, path: string) returns (total: int)
    requires levels.Valid()
    ensures total == OuterTotal(levels, path)
  {
    if path in levels.vals {
      return levels.vals[path].items;
    }
    total := 0;
    for i := 0 to |levels.keys|
      invariant total == SumStarting(levels.keys[..i], levels.vals, path)
    {
      assert levels.keys[..i + 1][..i] == levels.keys[..i];
      if path <= levels.keys[i] {
        total := total + levels.vals[levels.keys[i]].items;
      }
    }
    assert levels.keys[..|levels.keys|] == levels.keys;
  }

  /** What the dict of a path is filled with: at a batch, inside one, or outside all of them. */
  method FillDict(t: Tables, levels: PyDict.Dict<Level>, path: string, below: Val) returns (node: Val)
    requires path in t.data.vals && Shaped(below) && levels.Valid()
    ensures node == NewNode(t, levels, path, below)
  {
    assert below.Dict?;
    hide Shaped, With, Spread, SumStarting;
    var (cpu, gpu) := t.data.vals[path];
    node := WithTimes(below, cpu, gpu);
    if path in t.batches.vals {
      var size := t.batches.vals[path].items;
      BatchNodeShaped(below, cpu, gpu, size);
      node := With(node, Total, size as real);
      if size > 0 {
        node := Spread(PerItem(node, cpu, gpu, size), size);
      }
    } else if path !in t.inside {
      node := With(With(node, CpuPer, 0.0), GpuPer, 0.0);
      var total := OuterItems(levels, path);
      if total > 0 {
        node := PerItem(node, cpu, gpu, total);
      }
      node := With(node, Total, total as real);
    }
  }

  /** The counts of a batch's level. */
  method TallyBatch(t: Tables, warmup: int, was: Level, b: Batch, level: string, cpu: real, gpu: real) returns (r: Result<Level, Error>)
    ensures r == Tally(t, warmup, was, b, level, cpu, gpu)
  {
    hide IsCounted;
    var l := was.(items := was.items + b.items);
    if b.items > 0 {
      var counted := IsCounted(t, warmup, b, level);
      match counted
      case Err(e) => return Err(e);
      case Ok(true) => l := l.(minus := l.minus + b.items);
      case Ok(false) => l := l.(warmCpu := l.warmCpu + cpu, warmGpu := l.warmGpu + gpu);
    }
    r := Ok(l);
  }

  /** The body of the loop over the paths. */
  method VisitPath(t: Tables, warmup: int, tree: Val, levels: PyDict.Dict<Level>, batchDicts: PyDict.Dict<Path>, path: string)
      returns (r: Result<Acc, Error>)
    requires Usable(t) && path in t.data.keys && Shaped(tree) && levels.Valid()
    ensures r == Visit(t, warmup, Acc(tree, levels, batchDicts), path)
  {
    assert tree.Dict?;
    hide Split, Dirname, StatTree.Put, Shaped, PlainPath, NodeAt, NewNode, Tally;
    var parts := Split(path);
    WalkShaped(tree, parts);
    var node := FillDict(t, levels, path, NodeAt(tree, parts));
    var newLevels, newDicts := levels, batchDicts;
    if path in t.batches.vals {
      var level := Dirname(path);
      newDicts := newDicts.Put(level, parts[..|parts| - 1]);
      var l := TallyBatch(t, warmup, LevelOf(levels, level), t.batches.vals[path], level, t.data.vals[path].0, t.data.vals[path].1);
      if l.Err? {
        return Err(l.error);
      }
      newLevels := newLevels.Put(level, l.value);
    }
    r := Ok(Acc(StatTree.Put(tree, parts, node), newLevels, newDicts));
  }

  method UnflattenData(t: Tables, warmup: int) returns (r: Result<Val, Error>)
    requires Usable(t)
    ensures r == Unflattened(t, warmup)
  {
    hide Visit, Shaped, Usable, FinishLevel, DictsUsable;
    EmptyShaped();
    var tree, levels, batchDicts := EMPTY, PyDict.Empty(), PyDict.Empty();
    for n := 0 to |t.data.keys|
      invariant Pass(t, warmup, n) == Ok(Acc(tree, levels, batchDicts))
    {
      KeysIn(t, n);
      var acc := VisitPath(t, warmup, tree, levels, batchDicts, t.data.keys[n]);
      match acc
      case Err(e) =>
        PassStops(t, warmup, n + 1, |t.data.keys|);
        return Err(e);
      case Ok(a) =>
        tree, levels, batchDicts := a.tree, a.levels, a.batchDicts;
    }
    PassDictsUsable(t, warmup, |t.data.keys|);
    ghost var built := tree;
    for n := 0 to |batchDicts.keys|
      invariant Finish(built, levels, batchDicts, n) == Ok(tree)
    {
      LevelKnown(levels, batchDicts, n);
      var level := batchDicts.keys[n];
      assert Shaped(Finish(built, levels, batchDicts, n).value);
      var done := FinishLevel(tree, levels.vals[level], batchDicts.vals[level]);
      if done.Err? {
        FinishStops(built, levels, batchDicts, n + 1, |batchDicts.keys|);
        return done;
      }
      tree := done.value;
    }
    r := Ok(tree);
  }

  lemma LevelKnown(levels: PyDict.Dict<Level>, dicts: PyDict.Dict<Path>, n: nat)
    requires DictsUsable(levels, dicts) && n < |dicts.keys|
    ensures dicts.keys[n] in dicts.vals && dicts.keys[n] in levels.vals && PlainPath(dicts.vals[dicts.keys[n]])
  {
  }

  /** An exception ends the pass. */
  lemma {:induction false} PassStops(t: Tables, warmup: int, n: nat, m: nat)
    requires Usable(t) && n <= m <= |t.data.keys| && Pass(t, warmup, n).Err?
    ensures Pass(t, warmup, m) == Pass(t, warmup, n)
    decreases m
  {
    hide Visit, Shaped, Usable;
    if n < m { PassStops(t, warmup, n, m - 1); }
  }

  lemma {:induction false} FinishStops(tree: Val, levels: PyDict.Dict<Level>, dicts: PyDict.Dict<Path>, n: nat, m: nat)
    requires Shaped(tree) && DictsUsable(levels, dicts) && n <= m <= |dicts.keys| && Finish(tree, levels, dicts, n).Err?
    ensures Finish(tree, levels, dicts, m) == Finish(tree, levels, dicts, n)
    decreases m
  {
    hide FinishLevel, Shaped, DictsUsable;
    if n < m { FinishStops(tree, levels, dicts, n, m - 1); }
  }
}
