/**
 What the expanded data says, given tables that the recorder handed on: times read back,
 ranges inside batches, ranges around batches, and the warm-up figures.
 */
module ItemTotals {
  import opened Text
  import opened Paths
  import opened PyDict
  import opened PerfRecorder
  import opened StatTree
  import opened Unflatten
  import opened WarmUp
  import R = RecorderRuns

  /** Tables from the recorder, with names that are no statistic's. */
  ghost predicate FromRecorder(root: Path, t: Tables) {
    Usable(t) && R.WellRecorded(root, t.data.keys, t.batches, t.inside, t.totalBatches)
  }

  lemma RecorderOrder(root: Path, t: Tables)
    requires FromRecorder(root, t)
    ensures Usable(t) && InOrder(t) && Nested(t)
  {
    hide Usable, Split;
  }

  /** At least two components, so that the level has a name. */
  ghost predicate Nested(t: Tables) {
    forall k :: k in t.data.keys ==> |Split(k)| >= 2
  }

  /** Distinct paths, none listed before one of its descendants. */
  ghost predicate InOrder(t: Tables) {
    && (forall i, j :: 0 <= i < j < |t.data.keys| ==> t.data.keys[i] != t.data.keys[j])
    && R.DescendantsFirst(t.data.keys)
  }

  // ------------------------------------------------------------- round trip

  lemma BuiltTree(t: Tables, warmup: int) returns (acc: Acc)
    requires Usable(t) && Unflattened(t, warmup).Ok?
    ensures Pass(t, warmup, |t.data.keys|) == Ok(acc) && Shaped(acc.tree) && DictsUsable(acc.levels, acc.batchDicts)
    ensures Finish(acc.tree, acc.levels, acc.batchDicts, |acc.batchDicts.keys|) == Unflattened(t, warmup)
  {
    hide Pass, Finish, Usable, DictsUsable, Shaped;
    acc := Pass(t, warmup, |t.data.keys|).value;
    PassDictsUsable(t, warmup, |t.data.keys|);
  }

  /** The finished tree agrees with the pass on times, totals and dicts. */
  lemma FinishedReads(t: Tables, warmup: int, q: Path, s: Stat)
    requires Usable(t) && Unflattened(t, warmup).Ok? && PlainPath(q) && s in [Cpu, Gpu, Total, CpuPer, GpuPer]
    ensures Pass(t, warmup, |t.data.keys|).Ok?
    ensures StatAt(Unflattened(t, warmup).value, q, s) == StatAt(Pass(t, warmup, |t.data.keys|).value.tree, q, s)
    ensures IsNode(Unflattened(t, warmup).value, q) <==> IsNode(Pass(t, warmup, |t.data.keys|).value.tree, q)
  {
    hide *;
    var acc := BuiltTree(t, warmup);
    FinishKeeps(acc.tree, acc.levels, acc.batchDicts, |acc.batchDicts.keys|, q, s);
  }

  /** Flattening the tree gives the data back: the times at a path are those recorded for it, and there are none elsewhere. */
  lemma FlattenUndoesUnflatten(t: Tables, warmup: int, q: Path)
    requires Usable(t) && Unflattened(t, warmup).Ok? && Components(q) && PlainPath(q)
    ensures var tree := Unflattened(t, warmup).value; var k := Render(q);
            if k in t.data.vals then StatAt(tree, q, Cpu) == Some(t.data.vals[k].0) && StatAt(tree, q, Gpu) == Some(t.data.vals[k].1)
            else StatAt(tree, q, Cpu) == None && StatAt(tree, q, Gpu) == None
  {
    assert q != [];
    hide *;
    var k, n := Render(q), |t.data.keys|;
    SplitRender(q);
    FinishedReads(t, warmup, q, Cpu);
    FinishedReads(t, warmup, q, Gpu);
    TimesIff(t, warmup, n, q);
    VisitedIff(t, n, q);
    if k in t.data.vals {
      var i := KeyIndex(t, k);
      TimesBack(t, warmup, n, i);
    } else {
      NoIndex(t, q);
    }
  }

  lemma KeyIndex(t: Tables, k: string) returns (i: nat)
    requires Usable(t) && k in t.data.vals
    ensures i < |t.data.keys| && t.data.keys[i] == k
  {
    assert k in t.data.keys;
    i :| 0 <= i < |t.data.keys| && t.data.keys[i] == k;
  }

  lemma NoIndex(t: Tables, q: Path)
    requires Usable(t) && Components(q) && Render(q) !in t.data.vals
    ensures !exists i :: 0 <= i < |t.data.keys| && Split(t.data.keys[i]) == q
  {
    hide Split, Render;
    forall i | 0 <= i < |t.data.keys| ensures Split(t.data.keys[i]) != q {
      RenderSplit(t.data.keys[i]);
      KeysIn(t, i);
    }
  }

  /** The dicts of the result are exactly the component prefixes of the recorded paths. */
  lemma TreeIsPrefixClosure(t: Tables, warmup: int, q: Path)
    requires Usable(t) && Unflattened(t, warmup).Ok? && PlainPath(q)
    ensures IsNode(Unflattened(t, warmup).value, q) <==> q == [] || exists k :: k in t.data.keys && q <= Split(k)
  {
    hide *;
    FinishedReads(t, warmup, q, Cpu);
    NodesArePrefixes(t, warmup, |t.data.keys|, q);
    if k :| k in t.data.keys && q <= Split(k) {
      var i :| 0 <= i < |t.data.keys| && t.data.keys[i] == k;
    }
  }

  // ------------------------------------------------------------- ranges inside batches

  /** The `j`-th path is a batch of positive size strictly around `q`. */
  predicate Covers(t: Tables, j: nat, q: Path)
    requires j < |t.data.keys|
  {
    SpreadsAt(t, t.data.keys[j]) && Split(t.data.keys[j]) < q
  }

  /** The first of the first `n` paths that covers `q`, or `n`. */
  function FirstCover(t: Tables, n: nat, q: Path): (j: nat)
    requires n <= |t.data.keys|
    ensures j <= n
    ensures j < n ==> Covers(t, j, q)
    ensures forall i :: 0 <= i < j ==> !Covers(t, i, q)
  {
    if n == 0 then 0
    else
      var j := FirstCover(t, n - 1, q);
      if j < n - 1 || Covers(t, n - 1, q) then j else n
  }

  lemma {:induction false} UnvisitedHasNoTotal(t: Tables, n: nat, q: Path)
    requires n <= |t.data.keys| && !Visited(t, n, q)
    ensures TotalAfter(t, n, q) == None
  {
    hide Split, HasBatch, Direct, Starting;
    if n > 0 { UnvisitedHasNoTotal(t, n - 1, q); }
  }

  lemma NotVisitedBefore(t: Tables, i: nat)
    requires InOrder(t) && i < |t.data.keys|
    ensures !Visited(t, i, Split(t.data.keys[i]))
  {
    hide Split, Visited;
    VisitedIff(t, i, Split(t.data.keys[i]));
    forall j | 0 <= j < i ensures Split(t.data.keys[j]) != Split(t.data.keys[i]) {
      SplitInjective(t.data.keys[j], t.data.keys[i]);
    }
  }

  lemma VisitedSince(t: Tables, i: nat, n: nat)
    requires i < n <= |t.data.keys|
    ensures Visited(t, n, Split(t.data.keys[i]))
  {
    VisitedIff(t, n, Split(t.data.keys[i]));
  }

  /** A range inside a batch gets its total from the first batch around it that is visited. */
  lemma {:induction false} InsideTotalIs(t: Tables, n: nat, i: nat)
    requires InOrder(t) && i < n <= |t.data.keys|
    requires t.data.keys[i] !in t.batches.vals && t.data.keys[i] in t.inside
    ensures var q := Split(t.data.keys[i]); var j := FirstCover(t, n, q);
            TotalAfter(t, n, q) == if j < n then Some(SizeOf(t, t.data.keys[j])) else None
  {
    hide Split, HasBatch, Direct, Starting, Visited;
    var q, k := Split(t.data.keys[i]), t.data.keys[n - 1];
    SplitInjective(k, t.data.keys[i]);
    if i == n - 1 {
      NotVisitedBefore(t, i);
      UnvisitedHasNoTotal(t, i, q);
      assert FirstCover(t, n, q) == n by {
        assert forall j :: 0 <= j < n ==> !Covers(t, j, q);
      }
    } else {
      InsideTotalIs(t, n - 1, i);
      VisitedSince(t, i, n - 1);
    }
  }

  /** The size recorded for a batch; 0 for any other path. */
  function SizeOf(t: Tables, k: string): int {
    if k in t.batches.vals then t.batches.vals[k].items else 0
  }

  /** A recorded batch of positive size strictly around the path. */
  ghost predicate Around(t: Tables, b: string, q: Path) {
    b in t.data.keys && SpreadsAt(t, b) && Split(b) < q
  }

  /** The deepest such batch. */
  ghost predicate Innermost(t: Tables, b: string, q: Path) {
    Around(t, b, q) && forall o :: Around(t, o, q) ==> Split(o) <= Split(b)
  }

  lemma FirstIsInnermost(t: Tables, q: Path)
    requires InOrder(t)
    ensures var j := FirstCover(t, |t.data.keys|, q);
            if j < |t.data.keys| then Innermost(t, t.data.keys[j], q) else forall b :: !Around(t, b, q)
  {
    hide Split, SpreadsAt;
    var n := |t.data.keys|;
    var j := FirstCover(t, n, q);
    forall b | Around(t, b, q) ensures j < n && Split(b) <= Split(t.data.keys[j]) {
      var i :| 0 <= i < n && t.data.keys[i] == b;
      assert Covers(t, i, q);
      var x, y := Split(b), Split(t.data.keys[j]);
      assert i == j || (i > j && !(y < x));
      assert x < q && y < q;
      Comparable(x, y, q);
    }
  }

  lemma Comparable(x: Path, y: Path, q: Path)
    requires x <= q && y <= q
    ensures x <= y || y < x
  {
    assert x == q[..|x|] && y == q[..|y|];
  }

  /** Every range inside a batch reports the size of the innermost batch of positive size around it; none if there is no such batch. */
  lemma InsideTotals(root: Path, t: Tables, warmup: int, k: string)
    requires FromRecorder(root, t) && Unflattened(t, warmup).Ok?
    requires k in t.data.keys && k in t.inside && k !in t.batches.vals
    ensures match StatAt(Unflattened(t, warmup).value, Split(k), Total)
            case None => forall b :: !Around(t, b, Split(k))
            case Some(x) => exists b :: Innermost(t, b, Split(k)) && x == SizeOf(t, b) as real
  {
    hide *;
    RecorderOrder(root, t);
    var n, q := |t.data.keys|, Split(k);
    var i :| 0 <= i < n && t.data.keys[i] == k;
    UsableKey(t, k);
    FinishedReads(t, warmup, q, Total);
    TreeTotal(t, warmup, n, q);
    InsideTotalIs(t, n, i);
    FirstIsInnermost(t, q);
    AsRealIs(TotalAfter(t, n, q));
  }

  lemma AsRealIs(x: Option<int>)
    ensures AsReal(x) == if x.Some? then Some(x.value as real) else None
  {
  }

  lemma UsableKey(t: Tables, k: string)
    requires Usable(t) && k in t.data.keys
    ensures k in t.data.vals && Components(Split(k)) && PlainPath(Split(k))
  {
  }

  // ------------------------------------------------------------- batches and outer ranges

  /** Once given, a total stays. */
  lemma {:induction false} TotalStays(t: Tables, i: nat, n: nat)
    requires InOrder(t) && i < n <= |t.data.keys| && TotalAfter(t, i + 1, Split(t.data.keys[i])).Some?
    ensures TotalAfter(t, n, Split(t.data.keys[i])) == TotalAfter(t, i + 1, Split(t.data.keys[i]))
    decreases n
  {
    if i + 1 < n {
      TotalStays(t, i, n - 1);
      SplitInjective(t.data.keys[n - 1], t.data.keys[i]);
    }
    hide Split, HasBatch, Direct, Starting, Visited, SpreadsAt;
  }

  /** A batch reports its own size. */
  lemma BatchTotals(root: Path, t: Tables, warmup: int, k: string)
    requires FromRecorder(root, t) && Unflattened(t, warmup).Ok? && k in t.data.keys && k in t.batches.vals
    ensures StatAt(Unflattened(t, warmup).value, Split(k), Total) == Some(SizeOf(t, k) as real)
  {
    hide *;
    RecorderOrder(root, t);
    var n, q := |t.data.keys|, Split(k);
    var i :| 0 <= i < n && t.data.keys[i] == k;
    UsableKey(t, k);
    FinishedReads(t, warmup, q, Total);
    TreeTotal(t, warmup, n, q);
    OwnVisit(t, i);
    TotalStays(t, i, n);
    AsRealIs(TotalAfter(t, n, q));
  }

  lemma OwnVisit(t: Tables, i: nat)
    requires i < |t.data.keys|
    ensures var k := t.data.keys[i];
            && (k in t.batches.vals ==> TotalAfter(t, i + 1, Split(k)) == Some(SizeOf(t, k)))
            && (k !in t.batches.vals && k !in t.inside ==> TotalAfter(t, i + 1, Split(k)) == Some(OuterAt(t, i, k)))
  {
    hide Split, HasBatch, Direct, Starting, Visited;
  }

  /** The sizes of the batches among the first `n` paths that lie strictly below a path. */
  function Beneath(t: Tables, n: nat, q: Path): int
    requires n <= |t.data.keys|
  {
    if n == 0 then 0 else Beneath(t, n - 1, q) + if q < Split(t.data.keys[n - 1]) then SizeOf(t, t.data.keys[n - 1]) else 0
  }

  /** The sizes of those whose level only looks like something at or below the path: it continues the path inside a component. */
  function LookAlike(t: Tables, n: nat, q: Path): int
    requires n <= |t.data.keys|
  {
    if n == 0 then 0
    else
      var k := t.data.keys[n - 1];
      LookAlike(t, n - 1, q) + if q != [] && ExtendsInside(q, LevelParts(k)) then SizeOf(t, k) else 0
  }

  /** The components of the level a path lies in. */
  function LevelParts(k: string): Path {
    Split(k)[..|Split(k)| - 1]
  }

  lemma LevelOfPath(t: Tables, i: nat)
    requires Usable(t) && Nested(t) && i < |t.data.keys|
    ensures var k := t.data.keys[i];
            Components(LevelParts(k)) && Dirname(k) == Render(LevelParts(k)) && Split(k) == LevelParts(k) + [Split(k)[|Split(k)| - 1]]
  {
    KeysIn(t, i);
    UsableKey(t, t.data.keys[i]);
    LevelPath(t.data.keys[i]);
    hide Split, Dirname, Render, PlainPath;
  }

  /** Comparing level names as strings adds the look-alikes to what lies beneath. */
  lemma {:induction false} StartingSplits(t: Tables, n: nat, k: string)
    requires Usable(t) && Nested(t) && n <= |t.data.keys| && k in t.data.keys
    ensures Starting(t, n, k) == Beneath(t, n, Split(k)) + LookAlike(t, n, Split(k))
  {
    hide Split, Dirname, Usable, Nested, ExtendsInside, LevelParts, Render, SizeOf;
    if n > 0 {
      StartingSplits(t, n - 1, k);
      StartsIff(t, n - 1, k);
      StartingStep(t, n, k);
    }
  }

  lemma StartingStep(t: Tables, n: nat, k: string)
    requires 0 < n <= |t.data.keys|
    ensures Starting(t, n, k) == Starting(t, n - 1, k) + if k <= Dirname(t.data.keys[n - 1]) then SizeOf(t, t.data.keys[n - 1]) else 0
  {
    hide Dirname;
  }

  lemma StartsIff(t: Tables, i: nat, k: string)
    requires Usable(t) && Nested(t) && i < |t.data.keys| && k in t.data.keys
    ensures var b := t.data.keys[i];
            && Split(k) != []
            && (k <= Dirname(b) <==> Split(k) < Split(b) || ExtendsInside(Split(k), LevelParts(b)))
            && !(Split(k) < Split(b) && ExtendsInside(Split(k), LevelParts(b)))
  {
    LevelOfPath(t, i);
    UsableKey(t, k);
    RenderSplit(k);
    var b := t.data.keys[i];
    var q, l, c := Split(k), LevelParts(b), Split(b)[|Split(b)| - 1];
    hide Split, Dirname, Render, LevelParts, Nested, Usable;
    PrefixMeaning(q, l);
    BelowLevel(q, l, c);
  }

  lemma BelowLevel(q: Path, l: Path, c: string)
    requires q != [] && l != []
    ensures q < l + [c] <==> q <= l
    ensures q <= l ==> !ExtendsInside(q, l)
  {
    assert q < l + [c] ==> q == (l + [c])[..|q|] && |q| <= |l|;
    assert |q| <= |l| ==> (l + [c])[..|q|] == l[..|q|];
    assert q <= l ==> q == l[..|q|] && q[|q| - 1] == l[|q| - 1];
  }

  /** Everything beneath a path is visited before it. */
  lemma {:induction false} BeneathComplete(t: Tables, i: nat, n: nat)
    requires InOrder(t) && i <= n <= |t.data.keys| && i < |t.data.keys|
    ensures Beneath(t, n, Split(t.data.keys[i])) == Beneath(t, i, Split(t.data.keys[i]))
    decreases n
  {
    hide Split;
    if i < n { BeneathComplete(t, i, n - 1); }
  }

  /** Every batch directly below a path is visited before it. */
  lemma {:induction false} DirectComplete(t: Tables, i: nat, n: nat)
    requires InOrder(t) && Usable(t) && Nested(t) && i <= n <= |t.data.keys| && i < |t.data.keys|
    ensures Direct(t, n, t.data.keys[i]) == Direct(t, i, t.data.keys[i])
    ensures HasBatch(t, n, t.data.keys[i]) <==> HasBatch(t, i, t.data.keys[i])
    decreases n
  {
    hide Split, Dirname, Usable, Nested, LevelParts;
    if i < n {
      DirectComplete(t, i, n - 1);
      NotDirectlyBelow(t, i, n - 1);
    }
  }

  lemma NotDirectlyBelow(t: Tables, i: nat, j: nat)
    requires InOrder(t) && Usable(t) && Nested(t) && i <= j < |t.data.keys|
    ensures Dirname(t.data.keys[j]) != t.data.keys[i]
  {
    var a, b := t.data.keys[i], t.data.keys[j];
    LevelOfPath(t, j);
    SplitRender(LevelParts(b));
    hide Split, Dirname, Render, LevelParts, Usable, Nested, Components;
    assert Dirname(b) == a ==> Split(a) < Split(b);
    assert i == j ==> a == b;
  }

  /** A range outside all batches reports the sizes of the batches directly below it; if there are none, those of
      all batches beneath it and, by mistake, of those visited before it whose level continues its name. */
  lemma OuterTotals(root: Path, t: Tables, warmup: int, i: nat)
    requires FromRecorder(root, t) && Unflattened(t, warmup).Ok? && i < |t.data.keys|
    requires t.data.keys[i] !in t.batches.vals && t.data.keys[i] !in t.inside
    ensures var n, k := |t.data.keys|, t.data.keys[i]; var q := Split(k);
            var total := if HasBatch(t, n, k) then Direct(t, n, k) else Beneath(t, n, q) + LookAlike(t, i, q);
            StatAt(Unflattened(t, warmup).value, q, Total) == Some(total as real)
  {
    hide *;
    RecorderOrder(root, t);
    var n, k := |t.data.keys|, t.data.keys[i];
    var q := Split(k);
    KeysIn(t, i);
    UsableKey(t, k);
    FinishedReads(t, warmup, q, Total);
    TreeTotal(t, warmup, n, q);
    OwnVisit(t, i);
    TotalStays(t, i, n);
    DirectComplete(t, i, n);
    BeneathComplete(t, i, n);
    StartingSplits(t, i, k);
    OuterIs(t, i, k);
    AsRealIs(TotalAfter(t, n, q));
  }

  lemma OuterIs(t: Tables, i: nat, k: string)
    requires i <= |t.data.keys|
    ensures OuterAt(t, i, k) == if HasBatch(t, i, k) then Direct(t, i, k) else Starting(t, i, k)
  {
  }

  /** No batch level continues the path inside one of its components. */
  ghost predicate NoLookAlikes(t: Tables, q: Path)
    requires q != []
  {
    forall k :: k in t.data.keys && k in t.batches.vals ==> !ExtendsInside(q, LevelParts(k))
  }

  lemma {:induction false} LookAlikeZero(t: Tables, n: nat, q: Path)
    requires n <= |t.data.keys| && q != [] && NoLookAlikes(t, q)
    ensures LookAlike(t, n, q) == 0
  {
    hide ExtendsInside, LevelParts;
    if n > 0 {
      LookAlikeZero(t, n - 1, q);
      KeysIn(t, n - 1);
    }
  }

  /** A batch with items is listed among the first `n` paths, in a level that continues the path inside one of its components. */
  ghost predicate LookAlikeBefore(t: Tables, n: nat, q: Path)
    requires n <= |t.data.keys| && q != []
  {
    exists j :: 0 <= j < n && LooksAlike(t, t.data.keys[j], q)
  }

  predicate LooksAlike(t: Tables, k: string, q: Path)
    requires q != []
  {
    SizeOf(t, k) != 0 && ExtendsInside(q, LevelParts(k))
  }

  predicate SizesNotNegative(t: Tables) {
    forall k :: k in t.batches.vals ==> t.batches.vals[k].items >= 0
  }

  lemma {:induction false} LookAlikeZeroIff(t: Tables, n: nat, q: Path)
    requires n <= |t.data.keys| && q != [] && SizesNotNegative(t)
    ensures LookAlike(t, n, q) >= 0 && (LookAlike(t, n, q) == 0 <==> !LookAlikeBefore(t, n, q))
  {
    hide ExtendsInside, LevelParts;
    if n > 0 {
      LookAlikeZeroIff(t, n - 1, q);
      var k := t.data.keys[n - 1];
      assert SizeOf(t, k) >= 0;
      if LooksAlike(t, k, q) {
        assert LookAlikeBefore(t, n, q);
      } else if j :| 0 <= j < n && LooksAlike(t, t.data.keys[j], q) {
        assert j < n - 1;
      }
    }
  }

  /** A range outside all batches, with none directly below it, reports exactly what lies beneath it iff the look-alikes listed
      before it sum to nothing; when no size is negative, iff no batch with items is listed before it in a level that continues
      its name. */
  lemma OuterTotalExactIff(root: Path, t: Tables, warmup: int, i: nat)
    requires FromRecorder(root, t) && Unflattened(t, warmup).Ok? && i < |t.data.keys|
    requires t.data.keys[i] !in t.batches.vals && t.data.keys[i] !in t.inside && !HasBatch(t, |t.data.keys|, t.data.keys[i])
    ensures var q := Split(t.data.keys[i]);
            var exact := StatAt(Unflattened(t, warmup).value, q, Total) == Some(Beneath(t, |t.data.keys|, q) as real);
            && q != []
            && (exact <==> LookAlike(t, i, q) == 0)
            && (SizesNotNegative(t) ==> (exact <==> !LookAlikeBefore(t, i, q)))
            && (NoLookAlikes(t, q) ==> exact)
  {
    hide *;
    RecorderOrder(root, t);
    OuterTotals(root, t, warmup, i);
    var q := Split(t.data.keys[i]);
    if SizesNotNegative(t) { LookAlikeZeroIff(t, i, q); }
    if NoLookAlikes(t, q) { LookAlikeZero(t, i, q); }
  }

  // ------------------------------------------------------------- per-item times

  /** The time per item that goes with a total: none without a total; with one that is not positive, none for a batch and 0 for an outer range. */
  function PerOf(total: Option<real>, time: Option<real>, batch: bool): Option<real> {
    if total.None? || time.None? then None
    else if total.value > 0.0 then Some(time.value / total.value)
    else if batch then None else Some(0.0)
  }

  lemma NewNodePer(t: Tables, levels: PyDict.Dict<Level>, path: string, node: Val)
    requires path in t.data.vals && Shaped(node) && levels.Valid() && Here(node, Total).None?
    requires Here(node, CpuPer).None? && Here(node, GpuPer).None?
    ensures PerItemHere(NewNode(t, levels, path, node), path in t.batches.vals)
  {
    var (cpu, gpu) := t.data.vals[path];
    hide BatchNode, OuterNode, WithTimes, Shaped, SumStarting, Here;
    NewNodeHere(t, levels, path, node);
    if path in t.batches.vals {
      BatchNodeHere(node, cpu, gpu, t.batches.vals[path].items, CpuPer);
      BatchNodeHere(node, cpu, gpu, t.batches.vals[path].items, GpuPer);
    } else if path in t.inside {
      TimesHere(node, cpu, gpu, CpuPer);
      TimesHere(node, cpu, gpu, GpuPer);
    } else {
      OuterNodeHere(node, cpu, gpu, OuterTotal(levels, path), CpuPer);
      OuterNodeHere(node, cpu, gpu, OuterTotal(levels, path), GpuPer);
    }
  }

  ghost predicate PerItemHere(v: Val, batch: bool) {
    && Here(v, CpuPer) == PerOf(Here(v, Total), Here(v, Cpu), batch)
    && Here(v, GpuPer) == PerOf(Here(v, Total), Here(v, Gpu), batch)
  }

  ghost predicate PerItemAt(v: Val, q: Path, batch: bool) {
    && StatAt(v, q, CpuPer) == PerOf(StatAt(v, q, Total), StatAt(v, q, Cpu), batch)
    && StatAt(v, q, GpuPer) == PerOf(StatAt(v, q, Total), StatAt(v, q, Gpu), batch)
  }

  predicate BatchPath(t: Tables, q: Path) {
    q != [] && Render(q) in t.batches.vals
  }

  lemma {:induction false} PerItemPass(t: Tables, warmup: int, n: nat, q: Path)
    requires Usable(t) && n <= |t.data.keys| && Pass(t, warmup, n).Ok? && PlainPath(q)
    ensures PerItemAt(Pass(t, warmup, n).value.tree, q, BatchPath(t, q))
  {
    hide *;
    if n == 0 {
      NothingVisited(t, warmup, "");
      EmptyPerItem(q, BatchPath(t, q));
    } else {
      PassStep(t, warmup, n);
      PerItemPass(t, warmup, n - 1, q);
      PerItemStep(t, warmup, n, q);
    }
  }

  lemma EmptyPerItem(q: Path, batch: bool)
    ensures PerItemAt(EMPTY, q, batch)
  {
    EmptyReads(q, Total);
    EmptyReads(q, CpuPer);
    EmptyReads(q, GpuPer);
    hide StatAt;
  }

  lemma NoTotalBefore(t: Tables, warmup: int, n: nat)
    requires Usable(t) && 0 < n <= |t.data.keys| && Pass(t, warmup, n - 1).Ok? && PlainPath(Split(t.data.keys[n - 1]))
    ensures Here(NodeAtOf(Pass(t, warmup, n - 1).value.tree, Split(t.data.keys[n - 1])), Total) == None
  {
    hide *;
    var q := Split(t.data.keys[n - 1]);
    DistinctKeys(t, n - 1);
    UnvisitedHasNoTotal(t, n - 1, q);
    TreeTotal(t, warmup, n - 1, q);
    AsRealIs(TotalAfter(t, n - 1, q));
    HereAt(Pass(t, warmup, n - 1).value.tree, q);
  }

  lemma DistinctKeys(t: Tables, i: nat)
    requires Usable(t) && i < |t.data.keys|
    ensures !Visited(t, i, Split(t.data.keys[i]))
  {
    hide Split, Visited;
    VisitedIff(t, i, Split(t.data.keys[i]));
    forall j | 0 <= j < i ensures Split(t.data.keys[j]) != Split(t.data.keys[i]) {
      SplitInjective(t.data.keys[j], t.data.keys[i]);
    }
  }

  lemma PerItemStep(t: Tables, warmup: int, n: nat, q: Path)
    requires Usable(t) && 0 < n <= |t.data.keys| && Pass(t, warmup, n).Ok? && Pass(t, warmup, n - 1).Ok? && PlainPath(q)
    requires PerItemAt(Pass(t, warmup, n - 1).value.tree, q, BatchPath(t, q))
    ensures PerItemAt(Pass(t, warmup, n).value.tree, q, BatchPath(t, q))
  {
    PassStep(t, warmup, n);
    KeysIn(t, n - 1);
    hide Pass, NewNode, NewLevels, NewBatchDicts, Shaped, PlainPath, Here, StatAt, Usable, Split, NodeAtOf, StatTree.Put, Components, PerItemHere, PerItemAt;
    var acc, path := Pass(t, warmup, n - 1).value, t.data.keys[n - 1];
    VisitStat(t, acc, path, q, Cpu);
    VisitStat(t, acc, path, q, Gpu);
    VisitStat(t, acc, path, q, Total);
    VisitStat(t, acc, path, q, CpuPer);
    VisitStat(t, acc, path, q, GpuPer);
    hide Given;
    var after := Pass(t, warmup, n).value.tree;
    if Split(path) == q {
      PerItemOfNew(t, warmup, n);
      PerItemOfHere(after, q, NewNode(t, acc.levels, path, NodeAtOf(acc.tree, Split(path))), BatchPath(t, q));
    } else if Split(path) < q && SpreadsAt(t, path) {
      PerItemOfGiven(after, acc.tree, q, t.batches.vals[path].items, BatchPath(t, q));
    } else {
      PerItemOfSame(after, acc.tree, q, BatchPath(t, q));
    }
  }

  lemma PerItemOfNew(t: Tables, warmup: int, n: nat)
    requires Usable(t) && 0 < n <= |t.data.keys| && Pass(t, warmup, n - 1).Ok? && t.data.keys[n - 1] in t.data.vals
    requires var q := Split(t.data.keys[n - 1]); PlainPath(q) && PerItemAt(Pass(t, warmup, n - 1).value.tree, q, BatchPath(t, q))
    ensures var acc, path := Pass(t, warmup, n - 1).value, t.data.keys[n - 1]; var q := Split(path);
            && Shaped(NodeAtOf(acc.tree, q))
            && PerItemHere(NewNode(t, acc.levels, path, NodeAtOf(acc.tree, q)), BatchPath(t, q))
  {
    hide *;
    var acc, path := Pass(t, warmup, n - 1).value, t.data.keys[n - 1];
    var q := Split(path);
    NoTotalBefore(t, warmup, n);
    RenderSplit(path);
    ReadNodeOf(acc.tree, q);
    NoTotalNoPer(acc.tree, q, BatchPath(t, q));
    NewNodePer(t, acc.levels, path, NodeAtOf(acc.tree, q));
    BatchPathIs(t, path);
  }

  lemma NoTotalNoPer(v: Val, q: Path, batch: bool)
    requires PerItemAt(v, q, batch) && StatAt(v, q, Total).None?
    ensures StatAt(v, q, CpuPer).None? && StatAt(v, q, GpuPer).None?
  {
    hide StatAt;
  }

  lemma BatchPathIs(t: Tables, path: string)
    ensures BatchPath(t, Split(path)) <==> path in t.batches.vals
  {
    RenderSplit(path);
    hide Split, Render;
  }

  lemma PerItemOfHere(v: Val, q: Path, n: Val, batch: bool)
    requires PerItemHere(n, batch)
    requires StatAt(v, q, Cpu) == Here(n, Cpu) && StatAt(v, q, Gpu) == Here(n, Gpu) && StatAt(v, q, Total) == Here(n, Total)
    requires StatAt(v, q, CpuPer) == Here(n, CpuPer) && StatAt(v, q, GpuPer) == Here(n, GpuPer)
    ensures PerItemAt(v, q, batch)
  {
    hide StatAt, Here;
  }

  lemma PerItemOfSame(v: Val, w: Val, q: Path, batch: bool)
    requires PerItemAt(w, q, batch)
    requires StatAt(v, q, Cpu) == StatAt(w, q, Cpu) && StatAt(v, q, Gpu) == StatAt(w, q, Gpu) && StatAt(v, q, Total) == StatAt(w, q, Total)
    requires StatAt(v, q, CpuPer) == StatAt(w, q, CpuPer) && StatAt(v, q, GpuPer) == StatAt(w, q, GpuPer)
    ensures PerItemAt(v, q, batch)
  {
    hide StatAt;
  }

  lemma PerItemOfGiven(v: Val, w: Val, q: Path, size: int, batch: bool)
    requires PerItemAt(w, q, batch) && size > 0
    requires StatAt(v, q, Cpu) == Given(w, q, size, Cpu) && StatAt(v, q, Gpu) == Given(w, q, size, Gpu) && StatAt(v, q, Total) == Given(w, q, size, Total)
    requires StatAt(v, q, CpuPer) == Given(w, q, size, CpuPer) && StatAt(v, q, GpuPer) == Given(w, q, size, GpuPer)
    ensures PerItemAt(v, q, batch)
  {
    hide StatAt;
  }

  /** Everywhere in the result the per-item times are those that go with the total: the time divided by it when it is positive. */
  lemma PerItemTimes(t: Tables, warmup: int, q: Path)
    requires Usable(t) && Unflattened(t, warmup).Ok? && PlainPath(q)
    ensures PerItemAt(Unflattened(t, warmup).value, q, BatchPath(t, q))
  {
    FinishedReads(t, warmup, q, Cpu);
    FinishedReads(t, warmup, q, Gpu);
    FinishedReads(t, warmup, q, Total);
    FinishedReads(t, warmup, q, CpuPer);
    FinishedReads(t, warmup, q, GpuPer);
    PerItemPass(t, warmup, |t.data.keys|, q);
    hide Usable, Unflattened, Pass, StatAt;
  }

  // ------------------------------------------------------------- where the warm-up figures are

  lemma {:induction false} NoFiguresYet(t: Tables, warmup: int, n: nat, q: Path, s: Stat)
    requires Usable(t) && n <= |t.data.keys| && Pass(t, warmup, n).Ok? && PlainPath(q) && s !in [Cpu, Gpu, Total, CpuPer, GpuPer]
    ensures StatAt(Pass(t, warmup, n).value.tree, q, s) == None
  {
    hide *;
    if n == 0 {
      NothingVisited(t, warmup, "");
      EmptyReads(q, s);
    } else {
      PassStep(t, warmup, n);
      NoFiguresYet(t, warmup, n - 1, q, s);
      NoFiguresStep(t, warmup, n, q, s);
    }
  }

  lemma NoFiguresStep(t: Tables, warmup: int, n: nat, q: Path, s: Stat)
    requires Usable(t) && 0 < n <= |t.data.keys| && Pass(t, warmup, n).Ok? && Pass(t, warmup, n - 1).Ok? && PlainPath(q)
    requires s !in [Cpu, Gpu, Total, CpuPer, GpuPer] && StatAt(Pass(t, warmup, n - 1).value.tree, q, s) == None
    ensures StatAt(Pass(t, warmup, n).value.tree, q, s) == None
  {
    PassStep(t, warmup, n);
    KeysIn(t, n - 1);
    var acc, path := Pass(t, warmup, n - 1).value, t.data.keys[n - 1];
    hide Pass, NewNode, NewLevels, NewBatchDicts, Shaped, PlainPath, Here, StatAt, Usable, Split, NodeAtOf, StatTree.Put, Components;
    VisitStat(t, acc, path, q, s);
    if Split(path) == q {
      ReadNodeOf(acc.tree, q);
      NewNodeOther(t, acc.levels, path, NodeAtOf(acc.tree, q), s);
    }
  }

  /** Only the levels that batches lie in have warm-up figures. */
  lemma FiguresOnlyAtLevels(t: Tables, warmup: int, q: Path, s: Stat)
    requires Usable(t) && Nested(t) && Unflattened(t, warmup).Ok? && PlainPath(q) && s !in [Cpu, Gpu, Total, CpuPer, GpuPer]
    requires q == [] || !HasBatch(t, |t.data.keys|, Render(q))
    ensures StatAt(Unflattened(t, warmup).value, q, s) == None
  {
    hide *;
    var n := |t.data.keys|;
    var acc := BuiltTree(t, warmup);
    NoFiguresYet(t, warmup, n, q, s);
    forall i | 0 <= i < |acc.batchDicts.keys| && acc.batchDicts.keys[i] in acc.batchDicts.vals
      ensures acc.batchDicts.vals[acc.batchDicts.keys[i]] != q
    {
      var level := acc.batchDicts.keys[i];
      DictsRight(t, warmup, n);
      LevelsRight(t, warmup, n, level);
      var j := LevelDict(t, warmup, level);
      RenderSplit(level);
    }
    FinishKeeps(acc.tree, acc.levels, acc.batchDicts, |acc.batchDicts.keys|, q, s);
  }

  // ------------------------------------------------------------- when the function returns

  /** Every batch was pushed with an index. */
  predicate Indexed(t: Tables) {
    forall k :: k in t.batches.vals ==> t.batches.vals[k].idx.Some?
  }

  lemma LevelCounted(root: Path, t: Tables, k: string)
    requires FromRecorder(root, t) && k in t.batches.vals && t.batches.vals[k].items > 0
    ensures Dirname(k) in t.totalBatches
  {
    var below := R.PositiveBelow(t.batches, Dirname(k));
    assert k in below;
    assert R.TotalAt(t.totalBatches, Dirname(k)) == |below|;
    hide Dirname, R.DescendantsFirst, Usable;
  }

  lemma VisitFine(root: Path, t: Tables, warmup: int, levels: PyDict.Dict<Level>, k: string)
    requires FromRecorder(root, t) && Indexed(t) && k in t.data.vals
    ensures NewLevels(t, warmup, levels, k).Ok?
  {
    if k in t.batches.vals && t.batches.vals[k].items > 0 { LevelCounted(root, t, k); }
    hide Dirname, FromRecorder;
  }

  /** The pass over the paths never raises on what the recorder hands on. */
  lemma {:induction false} PassFine(root: Path, t: Tables, warmup: int, n: nat)
    requires FromRecorder(root, t) && Indexed(t) && n <= |t.data.keys|
    ensures Usable(t) && Pass(t, warmup, n).Ok?
  {
    hide *;
    RecorderOrder(root, t);
    if n == 0 {
      NothingVisited(t, warmup, "");
    } else {
      PassFine(root, t, warmup, n - 1);
      KeysIn(t, n - 1);
      UsableKey(t, t.data.keys[n - 1]);
      VisitFine(root, t, warmup, Pass(t, warmup, n - 1).value.levels, t.data.keys[n - 1]);
      PassOn(t, warmup, n);
    }
  }

  lemma PassOn(t: Tables, warmup: int, n: nat)
    requires Usable(t) && 0 < n <= |t.data.keys| && Pass(t, warmup, n - 1).Ok? && t.data.keys[n - 1] in t.data.vals
    requires NewLevels(t, warmup, Pass(t, warmup, n - 1).value.levels, t.data.keys[n - 1]).Ok?
    ensures Pass(t, warmup, n).Ok?
  {
    hide NewLevels, NewNode, Shaped, Split, NewBatchDicts, StatTree.Put, PlainPath, NodeAt;
  }

  /** The level was itself recorded and got a total: it is a batch, lies outside all batches, or inside one of positive size. */
  ghost predicate Reported(t: Tables, level: string) {
    level in t.data.keys
    && (level in t.batches.vals || level !in t.inside || exists b :: Around(t, b, Split(level)))
  }

  lemma TotalIffReported(t: Tables, level: string)
    requires Usable(t) && InOrder(t) && Components(Split(level))
    ensures TotalAfter(t, |t.data.keys|, Split(level)).Some? <==> Reported(t, level)
  {
    hide TotalAfter, Visited, Split, Usable, FirstCover, InOrder, Around, Innermost, OuterAt, SizeOf;
    var n, q := |t.data.keys|, Split(level);
    if level in t.data.keys {
      var i :| 0 <= i < n && t.data.keys[i] == level;
      if level !in t.batches.vals && level in t.inside {
        InsideTotalIs(t, n, i);
        FirstIsInnermost(t, q);
        if b :| Innermost(t, b, q) { InnermostIsAround(t, b, q); }
      } else {
        OwnVisit(t, i);
        TotalStays(t, i, n);
      }
    } else {
      VisitedIff(t, n, q);
      forall i | 0 <= i < n ensures Split(t.data.keys[i]) != q {
        SplitInjective(t.data.keys[i], level);
        KeysIn(t, i);
      }
      UnvisitedHasNoTotal(t, n, q);
    }
  }

  lemma InnermostIsAround(t: Tables, b: string, q: Path)
    requires Innermost(t, b, q)
    ensures Around(t, b, q)
  {
  }

  /** Where a level's dict is kept. */
  lemma LevelDict(t: Tables, warmup: int, level: string) returns (i: nat)
    requires Usable(t) && Nested(t) && Pass(t, warmup, |t.data.keys|).Ok? && HasBatch(t, |t.data.keys|, level)
    ensures Components(Split(level)) && PlainPath(Split(level))
    ensures var acc := Pass(t, warmup, |t.data.keys|).value;
            && i < |acc.batchDicts.keys| && acc.batchDicts.keys[i] == level
            && level in acc.batchDicts.vals && acc.batchDicts.vals[level] == Split(level) && level in acc.levels.vals
            && acc.batchDicts.Valid()
  {
    hide *;
    var n := |t.data.keys|;
    var acc := Pass(t, warmup, n).value;
    LevelsRight(t, warmup, n, level);
    DictsRight(t, warmup, n);
    LevelNotEmpty(t, n, level);
    DictIsSplit(level, acc.batchDicts.vals[level]);
    assert acc.batchDicts.Valid();
    i := KeyAt(acc.batchDicts, level);
  }

  lemma KeyAt<V>(d: PyDict.Dict<V>, k: string) returns (i: nat)
    requires d.Valid() && k in d.vals
    ensures i < |d.keys| && d.keys[i] == k
  {
    assert k in d.keys;
    i :| 0 <= i < |d.keys| && d.keys[i] == k;
  }

  lemma DictIsSplit(level: string, p: Path)
    requires DictOk(level, p) && level != ""
    ensures p == Split(level) && Components(p) && PlainPath(p)
  {
    hide PlainPath, Render, Split;
    SplitRender(p);
  }

  lemma {:induction false} LevelNotEmpty(t: Tables, n: nat, level: string)
    requires Usable(t) && Nested(t) && n <= |t.data.keys| && HasBatch(t, n, level)
    ensures level != ""
    ensures exists i :: 0 <= i < n && t.data.keys[i] in t.batches.vals && Dirname(t.data.keys[i]) == level
  {
    hide Dirname, Usable, Nested, Split, LevelParts, Render;
    if BatchAt(t, n - 1, level) {
      LevelOfPath(t, n - 1);
      RenderEnds(LevelParts(t.data.keys[n - 1]));
    } else {
      LevelNotEmpty(t, n - 1, level);
    }
  }

  lemma {:induction false} BatchHasLevel(t: Tables, n: nat, i: nat)
    requires i < n <= |t.data.keys| && t.data.keys[i] in t.batches.vals
    ensures HasBatch(t, n, Dirname(t.data.keys[i]))
  {
    hide Dirname;
    if i < n - 1 { BatchHasLevel(t, n - 1, i); }
  }

  lemma ReadableIff(tree: Val, p: Path)
    requires Shaped(tree) && PlainPath(p)
    ensures Readable(tree, p) <==> StatAt(tree, p, Total).Some?
  {
    hide Shaped, PlainPath, Here, NodeAt, StatAt;
    ReadNode(tree, p);
    HereShaped(NodeAt(tree, p), Total);
  }

  /** On what the recorder hands on, the function returns iff every batch lies directly in a range that was itself recorded with a total. */
  lemma ReturnsIff(root: Path, t: Tables, warmup: int)
    requires FromRecorder(root, t) && Indexed(t)
    ensures Usable(t)
    ensures Unflattened(t, warmup).Ok? <==> forall k :: k in t.data.keys && k in t.batches.vals ==> Reported(t, Dirname(k))
    ensures Unflattened(t, warmup).Err? ==> Unflattened(t, warmup) == Err(KeyError)
  {
    hide *;
    RecorderOrder(root, t);
    var n := |t.data.keys|;
    PassFine(root, t, warmup, n);
    var acc := Pass(t, warmup, n).value;
    PassDictsUsable(t, warmup, n);
    var m := |acc.batchDicts.keys|;
    FinishFailsIff(acc.tree, acc.levels, acc.batchDicts, m);
    UnflattenedIs(t, warmup);
    if Unflattened(t, warmup).Ok? {
      forall k | k in t.data.keys && k in t.batches.vals ensures Reported(t, Dirname(k)) {
        var j :| 0 <= j < n && t.data.keys[j] == k;
        BatchHasLevel(t, n, j);
        var i := LevelDict(t, warmup, Dirname(k));
        BlocksIs(acc.tree, acc.batchDicts, i);
        assert !Blocks(acc.tree, acc.batchDicts, i);
        ReportedIff(t, warmup, Dirname(k));
      }
    } else {
      FinishRaises(acc.tree, acc.levels, acc.batchDicts, m);
      var i :| 0 <= i < m && Blocks(acc.tree, acc.batchDicts, i);
      BlocksIs(acc.tree, acc.batchDicts, i);
      var level := acc.batchDicts.keys[i];
      DictsRight(t, warmup, n);
      LevelsRight(t, warmup, n, level);
      var i' := LevelDict(t, warmup, level);
      ReportedIff(t, warmup, level);
      LevelNotEmpty(t, n, level);
      var j :| 0 <= j < n && t.data.keys[j] in t.batches.vals && Dirname(t.data.keys[j]) == level;
      KeysIn(t, j);
    }
  }

  lemma BlocksIs(tree: Val, dicts: PyDict.Dict<Path>, i: nat)
    requires i < |dicts.keys|
    ensures Blocks(tree, dicts, i) <==> dicts.keys[i] in dicts.vals && !Readable(tree, dicts.vals[dicts.keys[i]])
  {
  }

  lemma ReportedIff(t: Tables, warmup: int, level: string)
    requires Usable(t) && InOrder(t) && Components(Split(level)) && PlainPath(Split(level)) && Pass(t, warmup, |t.data.keys|).Ok?
    ensures Readable(Pass(t, warmup, |t.data.keys|).value.tree, Split(level)) <==> Reported(t, level)
  {
    hide *;
    var n := |t.data.keys|;
    TreeTotal(t, warmup, n, Split(level));
    AsRealIs(TotalAfter(t, n, Split(level)));
    TotalIffReported(t, level);
    ReadableIff(Pass(t, warmup, n).value.tree, Split(level));
  }

  lemma UnflattenedIs(t: Tables, warmup: int)
    requires Usable(t) && Pass(t, warmup, |t.data.keys|).Ok?
    ensures var acc := Pass(t, warmup, |t.data.keys|).value;
            Shaped(acc.tree) && DictsUsable(acc.levels, acc.batchDicts)
            && Unflattened(t, warmup) == Finish(acc.tree, acc.levels, acc.batchDicts, |acc.batchDicts.keys|)
  {
    hide Pass, Finish, Usable, DictsUsable, Shaped;
    PassDictsUsable(t, warmup, |t.data.keys|);
  }

  /** A batch directly under the object's own range, which is never recorded, makes the function raise. */
  lemma BatchUnderRootRaises(root: Path, t: Tables, warmup: int, k: string)
    requires FromRecorder(root, t) && Indexed(t)
    requires k in t.data.keys && k in t.batches.vals && Dirname(k) == Render(root)
    ensures Usable(t) && Unflattened(t, warmup) == Err(KeyError)
  {
    RecorderOrder(root, t);
    ReturnsIff(root, t, warmup);
    assert Components(root);
    SplitRender(root);
    hide Usable, Unflattened, Split, Render, Nested, Dirname;
    assert Render(root) !in t.data.keys;
    assert !Reported(t, Dirname(k));
  }

  // ------------------------------------------------------------- warm-up

  /** A time per counted item; 0 when none is counted. */
  function PerCounted(time: real, counted: int): real {
    if counted > 0 then time / counted as real else 0.0
  }

  /** A level's figures: its dict holds the counted items, what the total and the times are without the warm-up, and these times per counted item. */
  lemma LevelFigures(t: Tables, warmup: int, level: string)
    requires Usable(t) && Nested(t) && Unflattened(t, warmup).Ok? && HasBatch(t, |t.data.keys|, level)
    ensures var tree, n, p := Unflattened(t, warmup).value, |t.data.keys|, Split(level);
            && Readable(tree, p)
            && StatAt(tree, p, Minus) == Some(Counted(t, warmup, n, level) as real)
            && StatAt(tree, p, Warm) == Some(StatAt(tree, p, Total).value - Counted(t, warmup, n, level) as real)
            && StatAt(tree, p, CpuMinus) == Some(StatAt(tree, p, Cpu).value - WarmTime(t, warmup, n, level, false))
            && StatAt(tree, p, GpuMinus) == Some(StatAt(tree, p, Gpu).value - WarmTime(t, warmup, n, level, true))
            && StatAt(tree, p, CpuMinusPer) == Some(PerCounted(StatAt(tree, p, Cpu).value - WarmTime(t, warmup, n, level, false), Counted(t, warmup, n, level)))
            && StatAt(tree, p, GpuMinusPer) == Some(PerCounted(StatAt(tree, p, Gpu).value - WarmTime(t, warmup, n, level, true), Counted(t, warmup, n, level)))
  {
    hide *;
    var acc := BuiltTree(t, warmup);
    var n, p := |t.data.keys|, Split(level);
    LevelsRight(t, warmup, n, level);
    var i := LevelDict(t, warmup, level);
    LevelThere(acc.levels, level);
    var m := |acc.batchDicts.keys|;
    FinishFigures(acc.tree, acc.levels, acc.batchDicts, m, i, Warm);
    FinishFigures(acc.tree, acc.levels, acc.batchDicts, m, i, Minus);
    FinishFigures(acc.tree, acc.levels, acc.batchDicts, m, i, CpuMinus);
    FinishFigures(acc.tree, acc.levels, acc.batchDicts, m, i, GpuMinus);
    FinishFigures(acc.tree, acc.levels, acc.batchDicts, m, i, CpuMinusPer);
    FinishFigures(acc.tree, acc.levels, acc.batchDicts, m, i, GpuMinusPer);
    FinishedReads(t, warmup, p, Cpu);
    FinishedReads(t, warmup, p, Gpu);
    FinishedReads(t, warmup, p, Total);
    SameReadable(acc.tree, Unflattened(t, warmup).value, p);
    FigureIs(StatAt(acc.tree, p, Total).value, StatAt(acc.tree, p, Cpu).value, StatAt(acc.tree, p, Gpu).value, acc.levels.vals[level]);
  }

  lemma LevelThere(levels: PyDict.Dict<Level>, level: string)
    ensures level in levels.vals ==> LevelOf(levels, level) == levels.vals[level]
  {
  }

  lemma SameReadable(a: Val, b: Val, p: Path)
    requires Readable(a, p) && StatAt(a, p, Total) == StatAt(b, p, Total) && StatAt(a, p, Cpu) == StatAt(b, p, Cpu) && StatAt(a, p, Gpu) == StatAt(b, p, Gpu)
    ensures Readable(b, p) && StatAt(b, p, Total).Some? && StatAt(b, p, Cpu).Some? && StatAt(b, p, Gpu).Some?
  {
  }

  lemma FigureIs(total: real, cpu: real, gpu: real, l: Level)
    ensures forall other :: Figure(total, cpu, gpu, l, Warm, other) == Some(total - l.minus as real)
    ensures forall other :: Figure(total, cpu, gpu, l, Minus, other) == Some(l.minus as real)
    ensures forall other :: Figure(total, cpu, gpu, l, CpuMinus, other) == Some(cpu - l.warmCpu)
    ensures forall other :: Figure(total, cpu, gpu, l, GpuMinus, other) == Some(gpu - l.warmGpu)
    ensures forall other :: Figure(total, cpu, gpu, l, CpuMinusPer, other) == Some(PerCounted(cpu - l.warmCpu, l.minus))
    ensures forall other :: Figure(total, cpu, gpu, l, GpuMinusPer, other) == Some(PerCounted(gpu - l.warmGpu, l.minus))
  {
  }

  /** Items are conserved at a batch level outside all batches: the total is the sum of the batches directly below;
      the counted ones and the excluded ones add up to it. */
  lemma ItemsConserved(root: Path, t: Tables, warmup: int, level: string)
    requires FromRecorder(root, t) && Unflattened(t, warmup).Ok? && HasBatch(t, |t.data.keys|, level)
    requires level !in t.batches.vals && level !in t.inside
    ensures var tree, n, p := Unflattened(t, warmup).value, |t.data.keys|, Split(level);
            && StatAt(tree, p, Total) == Some(Direct(t, n, level) as real)
            && StatAt(tree, p, Minus) == Some(Counted(t, warmup, n, level) as real)
            && StatAt(tree, p, Warm) == Some(Excluded(t, warmup, n, level) as real)
            && Direct(t, n, level) == Counted(t, warmup, n, level) + Excluded(t, warmup, n, level)
  {
    hide *;
    RecorderOrder(root, t);
    var n, p := |t.data.keys|, Split(level);
    LevelFigures(t, warmup, level);
    CountedAndExcluded(t, warmup, n, level);
    var i := RecordedLevel(t, warmup, level);
    OuterTotals(root, t, warmup, i);
  }

  /** A level whose figures could be read was recorded. */
  lemma RecordedLevel(t: Tables, warmup: int, level: string) returns (i: nat)
    requires Usable(t) && InOrder(t) && Nested(t) && Unflattened(t, warmup).Ok? && HasBatch(t, |t.data.keys|, level)
    requires Readable(Unflattened(t, warmup).value, Split(level))
    ensures i < |t.data.keys| && t.data.keys[i] == level
  {
    hide *;
    var acc := BuiltTree(t, warmup);
    var p := Split(level);
    var j := LevelDict(t, warmup, level);
    FinishedReads(t, warmup, p, Total);
    SomeTotal(Unflattened(t, warmup).value, p);
    ReadableIff(acc.tree, p);
    ReportedIff(t, warmup, level);
    assert level in t.data.keys by { ReportedIn(t, level); }
    i :| 0 <= i < |t.data.keys| && t.data.keys[i] == level;
  }

  lemma SomeTotal(tree: Val, p: Path)
    requires Readable(tree, p)
    ensures StatAt(tree, p, Total).Some?
  {
  }

  lemma ReportedIn(t: Tables, level: string)
    requires Reported(t, level)
    ensures level in t.data.keys
  {
  }

  // ------------------------------------------------------------- how many batches are counted

  /** The batches of a level that are counted. */
  ghost function CountedSet(t: Tables, warmup: int, level: string): set<string> {
    set k | k in t.data.keys && k in t.batches.vals && Dirname(k) == level
            && t.batches.vals[k].items > 0 && IsCounted(t, warmup, t.batches.vals[k], level) == Ok(true)
  }

  /** The positive batches of a level are `bs`, pushed with the indices 0, 1, ... */
  ghost predicate NumberedBatches(t: Tables, level: string, bs: seq<string>) {
    && (forall i :: 0 <= i < |bs| ==> bs[i] in t.data.keys && bs[i] in t.batches.vals && Dirname(bs[i]) == level
                                       && t.batches.vals[bs[i]].items > 0 && t.batches.vals[bs[i]].idx == Some(i))
    && (forall k :: k in t.data.keys && k in t.batches.vals && Dirname(k) == level && t.batches.vals[k].items > 0 ==> k in bs)
  }

  lemma {:induction false} SetOfDistinct(bs: seq<string>)
    requires forall i, j :: 0 <= i < j < |bs| ==> bs[i] != bs[j]
    ensures |set k | k in bs| == |bs|
  {
    if bs != [] {
      var init, last := bs[..|bs| - 1], bs[|bs| - 1];
      SetOfDistinct(init);
      assert (set k | k in bs) == (set k | k in init) + {last};
    }
  }

  lemma InTheMiddle(t: Tables, warmup: nat, level: string, bs: seq<string>, i: nat)
    requires NumberedBatches(t, level, bs) && level in t.totalBatches && t.totalBatches[level] == |bs| && i < |bs|
    ensures bs[i] in CountedSet(t, warmup, level) <==> warmup <= i < |bs| - warmup
    ensures forall j :: 0 <= j < |bs| && bs[j] == bs[i] ==> j == i
  {
    hide Dirname;
  }

  lemma CountedAreNumbered(t: Tables, warmup: nat, level: string, bs: seq<string>)
    requires NumberedBatches(t, level, bs)
    ensures forall k :: k in CountedSet(t, warmup, level) ==> k in bs
  {
    hide Dirname, IsCounted;
  }

  /** Of `n` numbered batches exactly those from `warmup` up to `n - warmup` are counted: `max(0, n - 2 * warmup)` of them. */
  lemma CountedAreTheMiddle(t: Tables, warmup: nat, level: string, bs: seq<string>)
    requires NumberedBatches(t, level, bs) && level in t.totalBatches && t.totalBatches[level] == |bs|
    ensures forall i :: 0 <= i < |bs| ==> (bs[i] in CountedSet(t, warmup, level) <==> warmup <= i < |bs| - warmup)
    ensures |CountedSet(t, warmup, level)| == if 2 * warmup <= |bs| then |bs| - 2 * warmup else 0
  {
    forall i | 0 <= i < |bs|
      ensures (bs[i] in CountedSet(t, warmup, level) <==> warmup <= i < |bs| - warmup) && forall j :: 0 <= j < |bs| && bs[j] == bs[i] ==> j == i
    {
      InTheMiddle(t, warmup, level, bs, i);
    }
    CountedAreNumbered(t, warmup, level, bs);
    hide *;
    MiddleCard(CountedSet(t, warmup, level), bs, warmup);
  }

  lemma MiddleCard(s: set<string>, bs: seq<string>, w: nat)
    requires forall i, j :: 0 <= i < j < |bs| ==> bs[i] != bs[j]
    requires forall i :: 0 <= i < |bs| ==> (bs[i] in s <==> w <= i < |bs| - w)
    requires forall k :: k in s ==> k in bs
    ensures |s| == if 2 * w <= |bs| then |bs| - 2 * w else 0
  {
    var middle := if 2 * w <= |bs| then bs[w..|bs| - w] else [];
    forall i, j | 0 <= i < j < |middle| ensures middle[i] != middle[j] {
      assert middle[i] == bs[w + i] && middle[j] == bs[w + j];
    }
    SetOfDistinct(middle);
    MiddleMembers(s, bs, w, middle);
    hide *;
  }

  lemma MiddleMembers(s: set<string>, bs: seq<string>, w: nat, middle: seq<string>)
    requires forall i :: 0 <= i < |bs| ==> (bs[i] in s <==> w <= i < |bs| - w)
    requires forall k :: k in s ==> k in bs
    requires middle == if 2 * w <= |bs| then bs[w..|bs| - w] else []
    ensures s == set k | k in middle
  {
    forall k ensures k in s <==> k in middle {
      if k in s {
        var i :| 0 <= i < |bs| && bs[i] == k;
        assert middle[i - w] == k;
      }
      if k in middle {
        var i :| 0 <= i < |middle| && middle[i] == k;
        assert bs[w + i] == k;
      }
    }
  }

  // ------------------------------------------------------------- batches of one size

  /** The visited batches of a level. */
  ghost function DirectSet(t: Tables, n: nat, level: string): set<string>
    requires n <= |t.data.keys|
  {
    if n == 0 then {} else DirectSet(t, n - 1, level) + if BatchAt(t, n - 1, level) then {t.data.keys[n - 1]} else {}
  }

  ghost function CountedUpTo(t: Tables, warmup: int, n: nat, level: string): set<string>
    requires n <= |t.data.keys|
  {
    if n == 0 then {} else CountedUpTo(t, warmup, n - 1, level) + if CountedAt(t, warmup, n - 1, level) then {t.data.keys[n - 1]} else {}
  }

  lemma {:induction false} DirectSetMembers(t: Tables, warmup: int, n: nat, level: string, k: string)
    requires n <= |t.data.keys|
    ensures k in DirectSet(t, n, level) <==> exists i :: 0 <= i < n && t.data.keys[i] == k && BatchAt(t, i, level)
    ensures k in CountedUpTo(t, warmup, n, level) <==> exists i :: 0 <= i < n && t.data.keys[i] == k && CountedAt(t, warmup, i, level)
  {
    hide BatchAt, CountedAt;
    if n > 0 { DirectSetMembers(t, warmup, n - 1, level, k); }
  }

  /** Batches of equal size: the sums are the size times the number of batches. */
  lemma {:induction false} UniformSums(t: Tables, warmup: int, n: nat, level: string, size: int)
    requires InOrder(t) && n <= |t.data.keys|
    requires forall i :: 0 <= i < n && BatchAt(t, i, level) ==> SizeAt(t, i) == size
    ensures Direct(t, n, level) == |DirectSet(t, n, level)| * size
    ensures Counted(t, warmup, n, level) == |CountedUpTo(t, warmup, n, level)| * size
  {
    hide *;
    if n == 0 {
      NothingSummed(t, warmup, level, size);
    } else {
      UniformSums(t, warmup, n - 1, level, size);
      UniformStep(t, warmup, n, level, size);
      OneMore(|DirectSet(t, n - 1, level)|, size);
      OneMore(|CountedUpTo(t, warmup, n - 1, level)|, size);
    }
  }

  lemma NothingSummed(t: Tables, warmup: int, level: string, size: int)
    ensures Direct(t, 0, level) == |DirectSet(t, 0, level)| * size && Counted(t, warmup, 0, level) == |CountedUpTo(t, warmup, 0, level)| * size
  {
  }

  lemma UniformStep(t: Tables, warmup: int, n: nat, level: string, size: int)
    requires InOrder(t) && 0 < n <= |t.data.keys| && (BatchAt(t, n - 1, level) ==> SizeAt(t, n - 1) == size)
    ensures BatchAt(t, n - 1, level) ==> Direct(t, n, level) == Direct(t, n - 1, level) + size && |DirectSet(t, n, level)| == |DirectSet(t, n - 1, level)| + 1
    ensures !BatchAt(t, n - 1, level) ==> Direct(t, n, level) == Direct(t, n - 1, level) && |DirectSet(t, n, level)| == |DirectSet(t, n - 1, level)|
    ensures CountedAt(t, warmup, n - 1, level) ==>
              Counted(t, warmup, n, level) == Counted(t, warmup, n - 1, level) + size && |CountedUpTo(t, warmup, n, level)| == |CountedUpTo(t, warmup, n - 1, level)| + 1
    ensures !CountedAt(t, warmup, n - 1, level) ==>
              Counted(t, warmup, n, level) == Counted(t, warmup, n - 1, level) && |CountedUpTo(t, warmup, n, level)| == |CountedUpTo(t, warmup, n - 1, level)|
  {
    hide BatchAt, SizeAt, CountedAt, R.DescendantsFirst;
    var k := t.data.keys[n - 1];
    DirectSetMembers(t, warmup, n - 1, level, k);
    assert k !in DirectSet(t, n - 1, level) && k !in CountedUpTo(t, warmup, n - 1, level);
    CountedIsBatch(t, warmup, n - 1, level);
    BatchIsBatch(t, n - 1, level);
    assert DirectSet(t, n - 1, level) + {} == DirectSet(t, n - 1, level);
    assert CountedUpTo(t, warmup, n - 1, level) + {} == CountedUpTo(t, warmup, n - 1, level);
  }

  lemma OneMore(n: nat, size: int)
    ensures (n + 1) * size == n * size + size
  {
  }

  lemma CountedUpToAll(t: Tables, warmup: int, level: string)
    ensures CountedUpTo(t, warmup, |t.data.keys|, level) == CountedSet(t, warmup, level)
  {
    hide Dirname, IsCounted;
    var n := |t.data.keys|;
    forall k ensures k in CountedUpTo(t, warmup, n, level) <==> k in CountedSet(t, warmup, level) {
      DirectSetMembers(t, warmup, n, level, k);
      if k in CountedSet(t, warmup, level) {
        var i :| 0 <= i < n && t.data.keys[i] == k;
        assert CountedAt(t, warmup, i, level);
      }
      if k in CountedUpTo(t, warmup, n, level) {
        var i :| 0 <= i < n && t.data.keys[i] == k && CountedAt(t, warmup, i, level);
        KeysIn(t, i);
      }
    }
  }

  lemma DirectSetNumbered(t: Tables, level: string, bs: seq<string>)
    requires NumberedBatches(t, level, bs)
    requires forall k :: k in t.data.keys && k in t.batches.vals && Dirname(k) == level ==> t.batches.vals[k].items > 0
    ensures |DirectSet(t, |t.data.keys|, level)| == |bs|
  {
    hide Dirname;
    var n := |t.data.keys|;
    forall i, j | 0 <= i < j < |bs| ensures bs[i] != bs[j] {
      assert t.batches.vals[bs[i]].idx == Some(i) && t.batches.vals[bs[j]].idx == Some(j);
    }
    SetOfDistinct(bs);
    forall k ensures k in DirectSet(t, n, level) <==> k in bs {
      DirectSetMembers(t, 0, n, level, k);
      if k in bs {
        var j :| 0 <= j < |bs| && bs[j] == k;
        var i :| 0 <= i < n && t.data.keys[i] == k;
        assert BatchAt(t, i, level);
      }
      if k in DirectSet(t, n, level) {
        var i :| 0 <= i < n && t.data.keys[i] == k && BatchAt(t, i, level);
        KeysIn(t, i);
      }
    }
    assert DirectSet(t, n, level) == set k | k in bs;
  }

  /** `n` numbered batches of one positive size, no others: the level totals `n` times the size, of which the middle `n - 2 * warmup` batches are counted. */
  lemma UniformLevel(t: Tables, warmup: nat, level: string, bs: seq<string>, size: int)
    requires InOrder(t) && NumberedBatches(t, level, bs) && level in t.totalBatches && t.totalBatches[level] == |bs| && size > 0
    requires forall k :: k in t.data.keys && k in t.batches.vals && Dirname(k) == level ==> t.batches.vals[k].items == size
    ensures Direct(t, |t.data.keys|, level) == |bs| * size
    ensures Counted(t, warmup, |t.data.keys|, level) == (if 2 * warmup <= |bs| then |bs| - 2 * warmup else 0) * size
  {
    var n := |t.data.keys|;
    forall i | 0 <= i < n && BatchAt(t, i, level) ensures SizeAt(t, i) == size {
      KeysIn(t, i);
    }
    DirectSetNumbered(t, level, bs);
    CountedAreTheMiddle(t, warmup, level, bs);
    CountedUpToAll(t, warmup, level);
    UniformSums(t, warmup, n, level, size);
    hide *;
  }
}
