/**
 The expanded tree as its readers see it: numbers found by walking down to literal names.
 And the sums in a level's figures spelled out: which batches of the level they run over.
 */
module Report {
  import opened Text
  import opened Paths
  import opened PyDict
  import opened PerfRecorder
  import opened StatTree
  import opened Unflatten
  import opened WarmUp
  import opened ItemTotals
  import Summary

  /** The number that is stored at a path of names. */
  function NumberAt(v: Val, p: Path): Option<real> {
    match Walk(v, p)
    case Some(Num(x)) => Some(x)
    case _ => None
  }

  lemma NamedStat(v: Val, p: Path, s: Stat)
    ensures StatAt(v, p, s) == NumberAt(v, p + [KeyOf(s)])
  {
    hide KeyOf;
    WalkSome(v, p, [KeyOf(s)]);
    assert [KeyOf(s)][1..] == [];
    if Walk(v, p).Some? {
      assert Walk(Walk(v, p).value, [KeyOf(s)]) == if Walk(v, p).value.Dict? && KeyOf(s) in Walk(v, p).value.m then Some(Walk(v, p).value.m[KeyOf(s)]) else None;
    }
  }

  /** Under "cpu_time" and "gpu_time" the result has the recorded times, exactly at the recorded paths. */
  lemma ReportedTimes(t: Tables, warmup: int, q: Path)
    requires Usable(t) && Unflattened(t, warmup).Ok? && Components(q) && PlainPath(q)
    ensures var tree, k := Unflattened(t, warmup).value, Render(q);
            && NumberAt(tree, q + ["cpu_time"]) == (if k in t.data.vals then Some(t.data.vals[k].0) else None)
            && NumberAt(tree, q + ["gpu_time"]) == (if k in t.data.vals then Some(t.data.vals[k].1) else None)
  {
    var tree := Unflattened(t, warmup).value;
    FlattenUndoesUnflatten(t, warmup, q);
    NamedStat(tree, q, Cpu);
    NamedStat(tree, q, Gpu);
    hide Usable, Unflattened, StatAt, NumberAt, Render;
  }

  /** Under "total_items" a batch has its size, and a range outside all batches the batches directly below it or else
      everything beneath it with the look-alikes listed before it. */
  lemma ReportedItems(root: Path, t: Tables, warmup: int, i: nat)
    requires FromRecorder(root, t) && Unflattened(t, warmup).Ok? && i < |t.data.keys|
    ensures var tree, n, k := Unflattened(t, warmup).value, |t.data.keys|, t.data.keys[i]; var q := Split(k);
            && (k in t.batches.vals ==> NumberAt(tree, q + ["total_items"]) == Some(t.batches.vals[k].items as real))
            && (k !in t.batches.vals && k !in t.inside ==>
                  NumberAt(tree, q + ["total_items"]) == Some((if HasBatch(t, n, k) then Direct(t, n, k) else Beneath(t, n, q) + LookAlike(t, i, q)) as real))
  {
    var k := t.data.keys[i];
    NamedStat(Unflattened(t, warmup).value, Split(k), Total);
    hide Usable, Unflattened, StatAt, NumberAt, Split, FromRecorder;
    if k in t.batches.vals {
      BatchTotals(root, t, warmup, k);
    } else if k !in t.inside {
      OuterTotals(root, t, warmup, i);
    }
  }

  /** The per-item times of a dict at `p`, from its times: divided by a positive total; without one nothing for a batch, and 0 for
      a range outside all batches; nothing without a total. */
  ghost predicate PerItemReport(tree: Val, p: Path, times: (real, real), batch: bool) {
    var total, cpu, gpu := NumberAt(tree, p + ["total_items"]), NumberAt(tree, p + ["cpu_time_per_item"]), NumberAt(tree, p + ["gpu_time_per_item"]);
    && (total.Some? && total.value > 0.0 ==> cpu == Some(times.0 / total.value) && gpu == Some(times.1 / total.value))
    && (total.Some? && total.value <= 0.0 ==> cpu == gpu == if batch then None else Some(0.0))
    && (total.None? ==> cpu == None && gpu == None)
  }

  lemma PerItemReports(tree: Val, p: Path, times: (real, real), batch: bool)
    requires PerItemAt(tree, p, batch) && StatAt(tree, p, Cpu) == Some(times.0) && StatAt(tree, p, Gpu) == Some(times.1)
    ensures PerItemReport(tree, p, times, batch)
  {
    hide StatAt, NumberAt;
    NamedStat(tree, p, Total);
    NamedStat(tree, p, CpuPer);
    NamedStat(tree, p, GpuPer);
  }

  /** Every recorded path reports its per-item times under their names. */
  lemma ReportedPerItem(t: Tables, warmup: int, k: string)
    requires Usable(t) && Unflattened(t, warmup).Ok? && k in t.data.keys
    ensures k in t.data.vals && PerItemReport(Unflattened(t, warmup).value, Split(k), t.data.vals[k], k in t.batches.vals)
  {
    hide *;
    var tree, q := Unflattened(t, warmup).value, Split(k);
    UsableKey(t, k);
    RenderSplit(k);
    BatchPathIs(t, k);
    PerItemTimes(t, warmup, q);
    FlattenUndoesUnflatten(t, warmup, q);
    PerItemReports(tree, q, t.data.vals[k], k in t.batches.vals);
  }

  /** The six names that the dict of a batch level at `p` gets: the items that are counted and those that are not, the times less
      those of the batches that are not counted, and these times per counted item. */
  ghost predicate LevelReport(tree: Val, p: Path, counted: int, cpuWarm: real, gpuWarm: real) {
    var total, cpu, gpu := NumberAt(tree, p + ["total_items"]), NumberAt(tree, p + ["cpu_time"]), NumberAt(tree, p + ["gpu_time"]);
    && total.Some? && cpu.Some? && gpu.Some?
    && NumberAt(tree, p + ["total_items_minus_warmup"]) == Some(counted as real)
    && NumberAt(tree, p + ["total_items_warmup"]) == Some(total.value - counted as real)
    && NumberAt(tree, p + ["cpu_time_minus_warmup"]) == Some(cpu.value - cpuWarm)
    && NumberAt(tree, p + ["gpu_time_minus_warmup"]) == Some(gpu.value - gpuWarm)
    && NumberAt(tree, p + ["cpu_time_minus_warmup_per_item"]) == Some(if counted > 0 then (cpu.value - cpuWarm) / counted as real else 0.0)
    && NumberAt(tree, p + ["gpu_time_minus_warmup_per_item"]) == Some(if counted > 0 then (gpu.value - gpuWarm) / counted as real else 0.0)
  }

  lemma LevelReports(tree: Val, p: Path, counted: int, cpuWarm: real, gpuWarm: real)
    requires Readable(tree, p)
    requires StatAt(tree, p, Minus) == Some(counted as real) && StatAt(tree, p, Warm) == Some(StatAt(tree, p, Total).value - counted as real)
    requires StatAt(tree, p, CpuMinus) == Some(StatAt(tree, p, Cpu).value - cpuWarm)
    requires StatAt(tree, p, GpuMinus) == Some(StatAt(tree, p, Gpu).value - gpuWarm)
    requires StatAt(tree, p, CpuMinusPer) == Some(PerCounted(StatAt(tree, p, Cpu).value - cpuWarm, counted))
    requires StatAt(tree, p, GpuMinusPer) == Some(PerCounted(StatAt(tree, p, Gpu).value - gpuWarm, counted))
    ensures LevelReport(tree, p, counted, cpuWarm, gpuWarm)
  {
    hide StatAt, NumberAt;
    NamedStat(tree, p, Total);
    NamedStat(tree, p, Cpu);
    NamedStat(tree, p, Gpu);
    NamedStat(tree, p, Warm);
    NamedStat(tree, p, Minus);
    NamedStat(tree, p, CpuMinus);
    NamedStat(tree, p, GpuMinus);
    NamedStat(tree, p, CpuMinusPer);
    NamedStat(tree, p, GpuMinusPer);
  }

  /** Every level that batches lie in reports its figures under their names. */
  lemma ReportedLevel(t: Tables, warmup: int, level: string)
    requires Usable(t) && Nested(t) && Unflattened(t, warmup).Ok? && HasBatch(t, |t.data.keys|, level)
    ensures var n := |t.data.keys|;
            LevelReport(Unflattened(t, warmup).value, Split(level), Counted(t, warmup, n, level),
                        WarmTime(t, warmup, n, level, false), WarmTime(t, warmup, n, level, true))
  {
    hide *;
    var n := |t.data.keys|;
    LevelFigures(t, warmup, level);
    LevelReports(Unflattened(t, warmup).value, Split(level), Counted(t, warmup, n, level),
                 WarmTime(t, warmup, n, level, false), WarmTime(t, warmup, n, level, true));
  }

  /** None of the six names. */
  ghost predicate NoLevelReport(tree: Val, p: Path) {
    && NumberAt(tree, p + ["total_items_minus_warmup"]) == None
    && NumberAt(tree, p + ["total_items_warmup"]) == None
    && NumberAt(tree, p + ["cpu_time_minus_warmup"]) == None
    && NumberAt(tree, p + ["gpu_time_minus_warmup"]) == None
    && NumberAt(tree, p + ["cpu_time_minus_warmup_per_item"]) == None
    && NumberAt(tree, p + ["gpu_time_minus_warmup_per_item"]) == None
  }

  lemma NoLevelReports(tree: Val, p: Path)
    requires forall s :: s !in [Cpu, Gpu, Total, CpuPer, GpuPer] ==> StatAt(tree, p, s) == None
    ensures NoLevelReport(tree, p)
  {
    hide StatAt, NumberAt;
    NamedStat(tree, p, Warm);
    NamedStat(tree, p, Minus);
    NamedStat(tree, p, CpuMinus);
    NamedStat(tree, p, GpuMinus);
    NamedStat(tree, p, CpuMinusPer);
    NamedStat(tree, p, GpuMinusPer);
  }

  /** No other path has any of the six. */
  lemma OnlyLevelsReport(t: Tables, warmup: int, q: Path)
    requires Usable(t) && Nested(t) && Unflattened(t, warmup).Ok? && PlainPath(q)
    requires q == [] || !HasBatch(t, |t.data.keys|, Render(q))
    ensures NoLevelReport(Unflattened(t, warmup).value, q)
  {
    hide *;
    var tree := Unflattened(t, warmup).value;
    forall s | s !in [Cpu, Gpu, Total, CpuPer, GpuPer] ensures StatAt(tree, q, s) == None {
      FiguresOnlyAtLevels(t, warmup, q, s);
    }
    NoLevelReports(tree, q);
  }

  // ------------------------------------------------------------- sums over keys

  function Vals(ks: seq<string>, f: string -> real): seq<real> {
    seq(|ks|, i requires 0 <= i < |ks| => f(ks[i]))
  }

  function SumOf(ks: seq<string>, f: string -> real): real {
    Summary.Sum(Vals(ks, f))
  }

  lemma SumSnoc(ks: seq<string>, k: string, f: string -> real)
    ensures SumOf(ks + [k], f) == SumOf(ks, f) + f(k)
  {
    assert Vals(ks + [k], f)[..|ks|] == Vals(ks, f);
  }

  lemma {:induction false} SumAppend(a: seq<string>, b: seq<string>, f: string -> real)
    ensures SumOf(a + b, f) == SumOf(a, f) + SumOf(b, f)
  {
    if b == [] {
      assert a + b == a;
      SumNothing(f);
    } else {
      var init, k := b[..|b| - 1], b[|b| - 1];
      SumAppend(a, init, f);
      SumSnoc(a + init, k, f);
      SumSnoc(init, k, f);
      assert a + b == (a + init) + [k] && b == init + [k];
    }
  }

  lemma SumNothing(f: string -> real)
    ensures SumOf([], f) == 0.0
  {
  }

  /** A sum does not depend on the order. */
  lemma {:induction false} SumOfSame(a: seq<string>, b: seq<string>, f: string -> real)
    requires multiset(a) == multiset(b)
    ensures SumOf(a, f) == SumOf(b, f)
    decreases |a|
  {
    hide SumOf;
    assert |a| == |multiset(a)| && |b| == |multiset(b)|;
    if a != [] {
      var init, k := a[..|a| - 1], a[|a| - 1];
      assert a == init + [k];
      assert k in multiset(b);
      var i :| 0 <= i < |b| && b[i] == k;
      var before, after := b[..i], b[i + 1..];
      assert b == before + [k] + after;
      TakenOut(init, before, after, k);
      SumOfSame(init, before + after, f);
      SumSnoc(init, k, f);
      SumSnoc(before, k, f);
      SumAppend(before + [k], after, f);
      SumAppend(before, after, f);
    } else {
      assert b == [];
    }
  }

  lemma TakenOut(init: seq<string>, before: seq<string>, after: seq<string>, k: string)
    requires multiset(init + [k]) == multiset(before + [k] + after)
    ensures multiset(init) == multiset(before + after)
  {
    assert multiset(init + [k]) == multiset(init) + multiset{k};
    assert multiset(before + [k] + after) == multiset(before) + multiset{k} + multiset(after);
    assert multiset(before + after) == multiset(before) + multiset(after);
    var a, b := multiset(init), multiset(before + after);
    assert a + multiset{k} == b + multiset{k};
    forall x ensures a[x] == b[x] {
      assert (a + multiset{k})[x] == (b + multiset{k})[x];
    }
  }

  predicate NoRepeats(ks: seq<string>) {
    forall i, j :: 0 <= i < j < |ks| ==> ks[i] != ks[j]
  }

  /** Two lists without repetition with the same members. */
  lemma {:induction false} SameMembers(a: seq<string>, b: seq<string>)
    requires NoRepeats(a) && NoRepeats(b) && forall k :: k in a <==> k in b
    ensures multiset(a) == multiset(b)
  {
    forall k ensures multiset(a)[k] == multiset(b)[k] {
      OnlyOnce(a, k);
      OnlyOnce(b, k);
    }
  }

  lemma {:induction false} OnlyOnce(a: seq<string>, k: string)
    requires NoRepeats(a)
    ensures multiset(a)[k] == if k in a then 1 else 0
  {
    if a != [] {
      var init := a[..|a| - 1];
      OnlyOnce(init, k);
      assert a == init + [a[|a| - 1]];
    }
  }

  // ------------------------------------------------------------- which batches the figures run over

  function CpuOf(t: Tables): string -> real {
    k => if k in t.data.vals then t.data.vals[k].0 else 0.0
  }

  function GpuOf(t: Tables): string -> real {
    k => if k in t.data.vals then t.data.vals[k].1 else 0.0
  }

  function ItemsOf(t: Tables): string -> real {
    k => if k in t.batches.vals then t.batches.vals[k].items as real else 0.0
  }

  function TimeOf(t: Tables, gpu: bool): string -> real {
    if gpu then GpuOf(t) else CpuOf(t)
  }

  /** The visited batches of the level with items, counted or not. */
  ghost function Visits(t: Tables, warmup: int, n: nat, level: string, counted: bool): seq<string>
    requires n <= |t.data.keys|
  {
    if n == 0 then []
    else
      Visits(t, warmup, n - 1, level, counted)
      + if BatchAt(t, n - 1, level) && SizeAt(t, n - 1) > 0 && CountedAt(t, warmup, n - 1, level) == counted then [t.data.keys[n - 1]] else []
  }

  lemma {:induction false} VisitsMembers(t: Tables, warmup: int, n: nat, level: string, counted: bool)
    requires t.data.Valid() && n <= |t.data.keys|
    ensures var ks := Visits(t, warmup, n, level, counted);
            && NoRepeats(ks)
            && forall k :: k in ks <==>
                 exists i :: 0 <= i < n && t.data.keys[i] == k && BatchAt(t, i, level) && SizeAt(t, i) > 0 && CountedAt(t, warmup, i, level) == counted
  {
    hide BatchAt, CountedAt, SizeAt;
    if n > 0 {
      VisitsMembers(t, warmup, n - 1, level, counted);
      assert t.data.keys[n - 1] !in Visits(t, warmup, n - 1, level, counted);
    }
  }

  lemma {:induction false} SumsOverVisits(t: Tables, warmup: int, n: nat, level: string, gpu: bool)
    requires Usable(t) && n <= |t.data.keys|
    ensures WarmTime(t, warmup, n, level, gpu) == SumOf(Visits(t, warmup, n, level, false), TimeOf(t, gpu))
    ensures Counted(t, warmup, n, level) as real == SumOf(Visits(t, warmup, n, level, true), ItemsOf(t))
  {
    hide Usable, SumOf, BatchAt, SizeAt, CountedAt, TimeOf, ItemsOf;
    if n == 0 {
      SumNothing(TimeOf(t, gpu));
      SumNothing(ItemsOf(t));
    } else {
      SumsOverVisits(t, warmup, n - 1, level, gpu);
      SumsStep(t, warmup, n, level, gpu);
      SumSnoc(Visits(t, warmup, n - 1, level, false), t.data.keys[n - 1], TimeOf(t, gpu));
      SumSnoc(Visits(t, warmup, n - 1, level, true), t.data.keys[n - 1], ItemsOf(t));
      assert Visits(t, warmup, n - 1, level, false) + [] == Visits(t, warmup, n - 1, level, false);
      assert Visits(t, warmup, n - 1, level, true) + [] == Visits(t, warmup, n - 1, level, true);
    }
  }

  lemma SumsStep(t: Tables, warmup: int, n: nat, level: string, gpu: bool)
    requires Usable(t) && 0 < n <= |t.data.keys|
    ensures var k := t.data.keys[n - 1];
            var ends := BatchAt(t, n - 1, level) && SizeAt(t, n - 1) > 0 && !CountedAt(t, warmup, n - 1, level);
            var counts := CountedAt(t, warmup, n - 1, level);
            && WarmTime(t, warmup, n, level, gpu) == WarmTime(t, warmup, n - 1, level, gpu) + (if ends then TimeOf(t, gpu)(k) else 0.0)
            && Counted(t, warmup, n, level) as real == Counted(t, warmup, n - 1, level) as real + (if counts then ItemsOf(t)(k) else 0.0)
            && Visits(t, warmup, n, level, false) == Visits(t, warmup, n - 1, level, false) + (if ends then [k] else [])
            && Visits(t, warmup, n, level, true) == Visits(t, warmup, n - 1, level, true) + (if counts then [k] else [])
  {
    KeysIn(t, n - 1);
    hide Split, Dirname, IsCounted, PlainPath, Components;
  }

  /** Without the first and the last `w`. */
  function Middle(bs: seq<string>, w: nat): seq<string> {
    if 2 * w <= |bs| then bs[w..|bs| - w] else []
  }

  /** The first and the last `w`. */
  function Ends(bs: seq<string>, w: nat): seq<string> {
    if 2 * w <= |bs| then bs[..w] + bs[|bs| - w..] else bs
  }

  /** Of batches numbered from 0 the figures count those without the first and last `warmup`, and subtract the times of those. */
  lemma FiguresNumbered(t: Tables, warmup: nat, level: string, bs: seq<string>, gpu: bool)
    requires Usable(t) && NumberedBatches(t, level, bs) && level in t.totalBatches && t.totalBatches[level] == |bs|
    ensures WarmTime(t, warmup, |t.data.keys|, level, gpu) == SumOf(Ends(bs, warmup), TimeOf(t, gpu))
    ensures Counted(t, warmup, |t.data.keys|, level) as real == SumOf(Middle(bs, warmup), ItemsOf(t))
  {
    hide *;
    var n := |t.data.keys|;
    UsableValid(t);
    SumsOverVisits(t, warmup, n, level, gpu);
    VisitsNumbered(t, warmup, level, bs);
    SumOfSame(Visits(t, warmup, n, level, false), Ends(bs, warmup), TimeOf(t, gpu));
    SumOfSame(Visits(t, warmup, n, level, true), Middle(bs, warmup), ItemsOf(t));
  }

  lemma UsableValid(t: Tables)
    requires Usable(t)
    ensures t.data.Valid()
  {
  }

  lemma VisitsNumbered(t: Tables, warmup: nat, level: string, bs: seq<string>)
    requires t.data.Valid() && NumberedBatches(t, level, bs) && level in t.totalBatches && t.totalBatches[level] == |bs|
    ensures multiset(Visits(t, warmup, |t.data.keys|, level, false)) == multiset(Ends(bs, warmup))
    ensures multiset(Visits(t, warmup, |t.data.keys|, level, true)) == multiset(Middle(bs, warmup))
  {
    var n := |t.data.keys|;
    NumberedDistinct(t, level, bs);
    EndsMembers(bs, warmup);
    forall counted: bool, k: string
      ensures k in Visits(t, warmup, n, level, counted) <==> exists i :: 0 <= i < |bs| && bs[i] == k && (warmup <= i < |bs| - warmup) == counted
    {
      VisitsMembers(t, warmup, n, level, counted);
      VisitsIff(t, warmup, level, bs, counted, k);
    }
    VisitsMembers(t, warmup, n, level, false);
    VisitsMembers(t, warmup, n, level, true);
    hide Visits, Ends, Middle, NumberedBatches;
    SameMembers(Visits(t, warmup, n, level, false), Ends(bs, warmup));
    SameMembers(Visits(t, warmup, n, level, true), Middle(bs, warmup));
  }

  lemma NumberedDistinct(t: Tables, level: string, bs: seq<string>)
    requires NumberedBatches(t, level, bs)
    ensures NoRepeats(bs)
  {
    hide Dirname;
    forall i, j | 0 <= i < j < |bs| ensures bs[i] != bs[j] {
      assert t.batches.vals[bs[i]].idx == Some(i) && t.batches.vals[bs[j]].idx == Some(j);
    }
  }

  lemma EndsMembers(bs: seq<string>, w: nat)
    requires NoRepeats(bs)
    ensures NoRepeats(Ends(bs, w)) && NoRepeats(Middle(bs, w))
    ensures forall k :: k in Ends(bs, w) <==> exists i :: 0 <= i < |bs| && bs[i] == k && !(w <= i < |bs| - w)
    ensures forall k :: k in Middle(bs, w) <==> exists i :: 0 <= i < |bs| && bs[i] == k && w <= i < |bs| - w
  {
    EndsOnce(bs, w);
    hide Ends, Middle, NoRepeats;
    forall k ensures k in Ends(bs, w) <==> exists i :: 0 <= i < |bs| && bs[i] == k && !(w <= i < |bs| - w) {
      EndsHave(bs, w, k);
    }
    forall k ensures k in Middle(bs, w) <==> exists i :: 0 <= i < |bs| && bs[i] == k && w <= i < |bs| - w {
      MiddleHas(bs, w, k);
    }
  }

  lemma EndsOnce(bs: seq<string>, w: nat)
    requires NoRepeats(bs)
    ensures NoRepeats(Ends(bs, w)) && NoRepeats(Middle(bs, w))
  {
  }

  lemma EndsHave(bs: seq<string>, w: nat, k: string)
    ensures k in Ends(bs, w) <==> exists i :: 0 <= i < |bs| && bs[i] == k && !(w <= i < |bs| - w)
  {
    var n := |bs|;
    if 2 * w <= n {
      if k in bs[..w] {
        var j :| 0 <= j < w && bs[..w][j] == k;
        assert bs[j] == k;
      }
      if k in bs[n - w..] {
        var j :| 0 <= j < w && bs[n - w..][j] == k;
        assert bs[n - w + j] == k;
      }
      if i :| 0 <= i < n && bs[i] == k && !(w <= i < n - w) {
        if i < w { assert bs[..w][i] == k; } else { assert bs[n - w..][i - (n - w)] == k; }
      }
    }
  }

  lemma MiddleHas(bs: seq<string>, w: nat, k: string)
    ensures k in Middle(bs, w) <==> exists i :: 0 <= i < |bs| && bs[i] == k && w <= i < |bs| - w
  {
    var n := |bs|;
    if 2 * w <= n {
      if j :| 0 <= j < n - 2 * w && Middle(bs, w)[j] == k { assert bs[w + j] == k; }
      if i :| 0 <= i < n && bs[i] == k && w <= i < n - w { assert Middle(bs, w)[i - w] == k; }
    }
  }

  lemma VisitsIff(t: Tables, warmup: nat, level: string, bs: seq<string>, counted: bool, k: string)
    requires t.data.Valid() && NumberedBatches(t, level, bs) && level in t.totalBatches && t.totalBatches[level] == |bs|
    ensures (exists i :: 0 <= i < |t.data.keys| && t.data.keys[i] == k && BatchAt(t, i, level) && SizeAt(t, i) > 0 && CountedAt(t, warmup, i, level) == counted)
       <==> (exists i :: 0 <= i < |bs| && bs[i] == k && (warmup <= i < |bs| - warmup) == counted)
  {
    hide Dirname;
    if i :| 0 <= i < |t.data.keys| && t.data.keys[i] == k && BatchAt(t, i, level) && SizeAt(t, i) > 0 && CountedAt(t, warmup, i, level) == counted {
      assert k in t.data.keys && k in bs;
      var j :| 0 <= j < |bs| && bs[j] == k;
      assert t.batches.vals[k].idx == Some(j);
    }
    if j :| 0 <= j < |bs| && bs[j] == k && (warmup <= j < |bs| - warmup) == counted {
      var i :| 0 <= i < |t.data.keys| && t.data.keys[i] == k;
      assert BatchAt(t, i, level) && SizeAt(t, i) > 0 && t.batches.vals[k].idx == Some(j);
    }
  }
}
