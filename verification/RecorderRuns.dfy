/**
 What the recorder keeps over whole runs of pushes and pops: the path follows the stack,
 the batch counter follows the open batches, ranges are listed after all their recorded
 descendants, and the batch tables agree with the paths.
 */
module RecorderRuns {
  import opened Text
  import opened Paths
  import opened PyDict
  import opened PerfRecorder

  datatype Op = PushOp(message: string, batchIdx: Option<int>) | PopOp(total: Option<int>, delete: bool)

  type Path = seq<string>

  function Do(s: State, op: Op): State {
    match op
    case PushOp(message, batchIdx) => Push(s, message, batchIdx)
    case PopOp(total, delete) => Pop(s, total, delete).0
  }

  function Names(stack: seq<Frame>): (ns: seq<string>)
    ensures |ns| == |stack| && forall i :: 0 <= i < |ns| ==> ns[i] == stack[i].message
  {
    seq(|stack|, i requires 0 <= i < |stack| => stack[i].message)
  }

  /** The current range as components: the root, then what is on the stack. */
  function Cur(root: Path, s: State): Path {
    root + Names(s.stack)
  }

  /** Messages are slash-free and not empty, and there is something to pop. */
  predicate Sensible(s: State, op: Op) {
    match op
    case PushOp(message, batchIdx) => Component(Named(message, batchIdx))
    case PopOp(_, _) => s.stack != []
  }

  /** Batch ranges, and only they, are popped with `total_items`. */
  predicate Disciplined(s: State, op: Op) {
    op.PopOp? && s.stack != [] ==> (op.total.Some? <==> s.stack[|s.stack| - 1].batchIdx.Some?)
  }

  // ------------------------------------------------------------- path and stack

  ghost predicate FollowsStack(root: Path, s: State) {
    && s.benchmark && Components(root)
    && s.objName == Render(root)
    && Components(Cur(root, s))
    && s.stackPath == Render(Cur(root, s))
  }

  lemma PushCur(root: Path, s: State, message: string, batchIdx: Option<int>)
    requires s.benchmark
    ensures Cur(root, Push(s, message, batchIdx)) == Cur(root, s) + [Named(message, batchIdx)]
  {
  }

  /** The stack, path and counter after a pop; `Fine` unless the counter refuses it. */
  lemma PopShape(root: Path, s: State, total: Option<int>, delete: bool)
    requires s.benchmark && s.stack != []
    ensures var (s', r) := Pop(s, total, delete);
            && s'.benchmark && s'.objName == s.objName
            && s'.stack == s.stack[..|s.stack| - 1]
            && Cur(root, s) == Cur(root, s') + [s.stack[|s.stack| - 1].message]
            && (r == Fine <==> total.None? || s.inside > 0)
            && (r == Fine ==> s'.stackPath == Dirname(s.stackPath))
            && (r == Fine ==> s'.inside == s.inside - if total.Some? then 1 else 0)
            && s'.timing == (if delete then s.timing else s.timing.Put(s.stackPath, PLACEHOLDER))
            && s'.deleted == (if delete then s.deleted + [s.stackPath] else s.deleted)
            && s'.insideInfo == (if s.inside > 0 && !delete then s.insideInfo + [s.stackPath] else s.insideInfo)
  {
    hide Dirname;
  }

  /** A push in full: one more slash and name on the path, one more frame, and one more open batch if there is an index. */
  lemma PushIs(root: Path, s: State, message: string, idx: Option<int>)
    requires FollowsStack(root, s) && Component(if idx.Some? then message + "_" + Decimal(idx.value) else message)
    ensures var name := if idx.Some? then message + "_" + Decimal(idx.value) else message;
            Push(s, message, idx)
            == s.(stack := s.stack + [Frame(name, idx)], stackPath := s.stackPath + "/" + name,
                  inside := s.inside + if idx.Some? then 1 else 0)
  {
    var name := if idx.Some? then message + "_" + Decimal(idx.value) else message;
    JoinAppends(Cur(root, s), name);
    Append(Cur(root, s), name);
    hide Join, Render, Decimal, FollowsStack;
  }

  /** The path ends with the name on top of the stack. */
  lemma TopOfPath(root: Path, s: State)
    requires FollowsStack(root, s) && s.stack != []
    ensures var up := Render(Cur(root, s)[..|root| + |s.stack| - 1]);
            s.stackPath == up + "/" + s.stack[|s.stack| - 1].message && Dirname(s.stackPath) == up
  {
    var c, n := Cur(root, s), |root| + |s.stack| - 1;
    assert c == c[..n] + [c[n]] && c[n] == s.stack[|s.stack| - 1].message;
    JoinAppends(c[..n], c[n]);
    Append(c[..n], c[n]);
    hide Join, Dirname, Render;
  }

  /** How a pop ends: refused outside a batch when items are given, with the frame gone and the path not unwound; otherwise
      the path loses its last slash and name, and the counter goes down if items are given. */
  lemma PopUnwinds(root: Path, s: State, total: Option<int>, delete: bool)
    requires FollowsStack(root, s) && s.stack != []
    ensures var (s', r) := Pop(s, total, delete);
            var up := Render(Cur(root, s)[..|root| + |s.stack| - 1]);
            && s.stackPath == up + "/" + s.stack[|s.stack| - 1].message
            && s'.stack == s.stack[..|s.stack| - 1]
            && s'.objName == s.objName && s'.benchmark
            && (total.Some? && s.inside <= 0 ==> r == ValueError && s'.stackPath == s.stackPath && s'.inside == s.inside)
            && (total.Some? && s.inside > 0 ==> r == Fine && s'.stackPath == up && s'.inside == s.inside - 1)
            && (total.None? ==> r == Fine && s'.stackPath == up && s'.inside == s.inside)
  {
    TopOfPath(root, s);
    PopShape(root, s, total, delete);
    PopCounts(s, total, delete);
    assert s.benchmark;
    hide *;
  }

  /** What a pop enters in the tables: the range with its placeholder, or in the deleted list; a batch that is kept with the
      index it was opened with; and, if it has items, one more batch of its level. */
  lemma PopEnters(root: Path, s: State, up: string, total: Option<int>, delete: bool)
    requires FollowsStack(root, s) && s.stack != [] && s.stackPath == up + "/" + s.stack[|s.stack| - 1].message
    ensures var s', p := Pop(s, total, delete).0, s.stackPath;
            var kept := total.Some? && s.inside > 0 && !delete;
            && s'.timing == (if delete then s.timing else s.timing.Put(p, (0, 0)))
            && s'.deleted == (if delete then s.deleted + [p] else s.deleted)
            && s'.insideInfo == (if s.inside > 0 && !delete then s.insideInfo + [p] else s.insideInfo)
            && s'.batchInfo == (if kept then s.batchInfo.Put(p, Batch(s.stack[|s.stack| - 1].batchIdx, total.value)) else s.batchInfo)
            && s'.totals == if kept && total.value > 0 then s.totals[up := if up in s.totals then s.totals[up] + 1 else 1] else s.totals
  {
    LevelIs(root, s, up);
    PopEntries(s, total, delete);
    hide *;
  }

  lemma LevelIs(root: Path, s: State, up: string)
    requires FollowsStack(root, s) && s.stack != [] && s.stackPath == up + "/" + s.stack[|s.stack| - 1].message
    ensures s.benchmark && Dirname(s.stackPath) == up
  {
    TopOfPath(root, s);
    var front := Render(Cur(root, s)[..|root| + |s.stack| - 1]);
    assert s.stackPath[..|front|] == front && s.stackPath[..|up|] == up;
    hide Dirname, Render;
  }

  lemma PopEntries(s: State, total: Option<int>, delete: bool)
    requires s.benchmark && s.stack != []
    ensures var s', p, up := Pop(s, total, delete).0, s.stackPath, Dirname(s.stackPath);
            var kept := total.Some? && s.inside > 0 && !delete;
            && s'.timing == (if delete then s.timing else s.timing.Put(p, (0, 0)))
            && s'.deleted == (if delete then s.deleted + [p] else s.deleted)
            && s'.insideInfo == (if s.inside > 0 && !delete then s.insideInfo + [p] else s.insideInfo)
            && s'.batchInfo == (if kept then s.batchInfo.Put(p, Batch(s.stack[|s.stack| - 1].batchIdx, total.value)) else s.batchInfo)
            && s'.totals == if kept && total.value > 0 then s.totals[up := if up in s.totals then s.totals[up] + 1 else 1] else s.totals
  {
    hide Dirname, PyDict.Dict.Put;
  }

  /** What a pop does to the counter. */
  lemma PopCounts(s: State, total: Option<int>, delete: bool)
    requires s.benchmark && s.stack != []
    ensures var (s', r) := Pop(s, total, delete);
            && r == (if total.Some? && s.inside <= 0 then ValueError else Fine)
            && (r == ValueError ==> s'.stackPath == s.stackPath)
            && s'.inside == if total.Some? && s.inside > 0 then s.inside - 1 else s.inside
  {
    hide Dirname, PyDict.Dict.Put;
  }

  /** With nothing to pop the call raises and changes nothing; outside benchmark mode a pop does nothing. */
  lemma PopNothing(s: State, total: Option<int>, delete: bool)
    ensures s.benchmark && s.stack == [] ==> Pop(s, total, delete) == (s, IndexError)
    ensures !s.benchmark ==> Pop(s, total, delete) == (s, Fine)
    ensures Pop(s, total, delete).1 == IndexError <==> s.benchmark && s.stack == []
  {
  }

  /** Every time that any run records is the placeholder (0, 0). */
  lemma {:induction false} RunPlaceholders(s: State, ops: seq<Op>)
    requires forall k :: k in s.timing.vals ==> s.timing.vals[k] == (0, 0)
    ensures forall k :: k in RunAll(s, ops).timing.vals ==> RunAll(s, ops).timing.vals[k] == (0, 0)
    decreases |ops|
  {
    hide Join, Dirname, Named;
    if ops != [] {
      RunPlaceholders(Do(s, ops[0]), ops[1..]);
    }
  }

  lemma StepFollowsStack(root: Path, s: State, op: Op)
    requires FollowsStack(root, s) && Sensible(s, op)
    requires op.PopOp? ==> op.total.None? || s.inside > 0
    ensures FollowsStack(root, Do(s, op))
  {
    hide Join, Dirname, Pop, Render;
    var c := Cur(root, s);
    match op
    case PushOp(message, batchIdx) =>
      PushCur(root, s, message, batchIdx);
      JoinAppends(c, Named(message, batchIdx));
    case PopOp(total, delete) =>
      PopShape(root, s, total, delete);
      var c' := Cur(root, Do(s, op));
      assert Components(c') by {
        assert forall i :: 0 <= i < |c'| ==> c'[i] == c[i];
      }
      assert Component(c[|c'|]) && c[|c'|] == s.stack[|s.stack| - 1].message;
      JoinAppends(c', s.stack[|s.stack| - 1].message);
  }

  // ------------------------------------------------------------- batch counter

  function OpenBatches(stack: seq<Frame>): nat {
    if stack == [] then 0
    else OpenBatches(stack[..|stack| - 1]) + if stack[|stack| - 1].batchIdx.Some? then 1 else 0
  }

  lemma {:induction false} OpenBatchAt(stack: seq<Frame>, i: nat)
    requires i < |stack| && stack[i].batchIdx.Some?
    ensures OpenBatches(stack) > 0
  {
    if i < |stack| - 1 { OpenBatchAt(stack[..|stack| - 1], i); }
  }

  lemma {:induction false} SomeOpenBatch(stack: seq<Frame>) returns (i: nat)
    requires OpenBatches(stack) > 0
    ensures i < |stack| && stack[i].batchIdx.Some?
  {
    i := |stack| - 1;
    if stack[i].batchIdx.None? { i := SomeOpenBatch(stack[..|stack| - 1]); }
  }

  ghost predicate Counts(s: State) {
    s.inside == OpenBatches(s.stack)
  }

  lemma StepCounts(s: State, op: Op)
    requires s.benchmark && Counts(s) && Sensible(s, op) && Disciplined(s, op)
    ensures op.PopOp? ==> op.total.None? || s.inside > 0
    ensures Counts(Do(s, op))
  {
    hide Join, Dirname, Pop;
    match op
    case PushOp(message, batchIdx) =>
      assert Do(s, op).stack[..|s.stack|] == s.stack;
    case PopOp(total, delete) =>
      PopShape([], s, total, delete);
      if total.Some? { OpenBatchAt(s.stack, |s.stack| - 1); }
  }

  // --------------------------------------------------------- descendants come first

  /** No range is listed before one of its descendants. */
  ghost predicate DescendantsFirst(keys: seq<string>) {
    forall i, j :: 0 <= i < j < |keys| ==> !(Split(keys[i]) < Split(keys[j]))
  }

  /** `q` is the current range or one of the open ranges around it. */
  ghost predicate IsOpen(root: Path, s: State, q: Path) {
    |root| < |q| <= |Cur(root, s)| && q <= Cur(root, s)
  }

  /** Every recorded path is a proper path below the root, and it and the ranges around it were opened. */
  ghost predicate KeysOpened(root: Path, keys: seq<string>, seen: set<Path>) {
    forall k :: k in keys ==>
      && Components(Split(k)) && root < Split(k)
      && forall q: Path :: |root| < |q| && q <= Split(k) ==> q in seen
  }

  ghost predicate Ordered(root: Path, s: State, seen: set<Path>) {
    && s.timing.Valid()
    && (forall q :: IsOpen(root, s, q) ==> q in seen && Render(q) !in s.timing.keys)
    && KeysOpened(root, s.timing.keys, seen)
    && DescendantsFirst(s.timing.keys)
  }

  /** A push opens a path that was not opened before. */
  predicate Fresh(root: Path, s: State, op: Op, seen: set<Path>) {
    op.PushOp? ==> Cur(root, s) + [Named(op.message, op.batchIdx)] !in seen
  }

  function Opened(root: Path, s: State, op: Op, seen: set<Path>): set<Path> {
    if op.PushOp? then seen + {Cur(root, s) + [Named(op.message, op.batchIdx)]} else seen
  }

  lemma PushOrdered(root: Path, s: State, op: Op, seen: set<Path>)
    requires FollowsStack(root, s) && Ordered(root, s, seen) && Sensible(s, op) && op.PushOp? && Fresh(root, s, op, seen)
    ensures Ordered(root, Do(s, op), Opened(root, s, op, seen))
  {
    hide Join, Split, DescendantsFirst;
    var s' := Do(s, op);
    var name := Named(op.message, op.batchIdx);
    var c, c' := Cur(root, s), Cur(root, s) + [name];
    PushCur(root, s, op.message, op.batchIdx);
    JoinAppends(c, name);
    forall q | IsOpen(root, s', q) ensures q in Opened(root, s, op, seen) && Render(q) !in s.timing.keys {
      if q == c' {
        NotRecorded(root, s.timing.keys, seen, c');
      } else {
        assert q <= c by { assert |q| <= |c|; assert q == c'[..|q|] == c[..|q|]; }
        assert IsOpen(root, s, q);
      }
    }
  }

  lemma NotRecorded(root: Path, keys: seq<string>, seen: set<Path>, p: Path)
    requires Components(p) && |root| < |p| && p !in seen && KeysOpened(root, keys, seen)
    ensures Render(p) !in keys
    ensures forall k :: k in keys ==> !(p <= Split(k))
  {
    SplitRender(p);
  }

  /** Adding the current path: nothing recorded so far is an ancestor of it. */
  lemma NoAncestorRecorded(root: Path, s: State, seen: set<Path>, k: string)
    requires FollowsStack(root, s) && Ordered(root, s, seen) && k in s.timing.keys
    ensures !(Split(k) <= Cur(root, s))
  {
    var q := Split(k);
    if q <= Cur(root, s) {
      RenderSplit(k);
      assert IsOpen(root, s, q);
      assert false;
    }
  }

  lemma OrderedAppend(keys: seq<string>, k: string)
    requires DescendantsFirst(keys) && forall i :: 0 <= i < |keys| ==> !(Split(keys[i]) < Split(k))
    ensures DescendantsFirst(keys + [k])
  {
  }

  /** A range that is still open after a pop is not the one that was popped. */
  lemma StillOpen(root: Path, s: State, op: Op, q: Path)
    requires FollowsStack(root, s) && Sensible(s, op) && op.PopOp? && IsOpen(root, Do(s, op), q)
    ensures IsOpen(root, s, q) && Render(q) != s.stackPath
  {
    hide Dirname, Pop, Render;
    var c := Cur(root, s);
    PopShape(root, s, op.total, op.delete);
    assert q < c;
    assert Components(q) by { assert forall i :: 0 <= i < |q| ==> q[i] == c[i]; }
    RenderInjective(q, c);
  }

  lemma PopOrdered(root: Path, s: State, op: Op, seen: set<Path>)
    requires FollowsStack(root, s) && Ordered(root, s, seen) && Sensible(s, op) && op.PopOp?
    ensures Ordered(root, Do(s, op), seen)
    ensures s.stackPath !in s.timing.keys
  {
    hide Dirname, Pop, DescendantsFirst, KeysOpened, Split;
    var s', p, c := Do(s, op), s.stackPath, Cur(root, s);
    PopShape(root, s, op.total, op.delete);
    SplitRender(c);
    assert IsOpen(root, s, c);
    PutValid(s.timing, p, PLACEHOLDER);
    forall q | IsOpen(root, s', q) ensures q in seen && Render(q) !in s'.timing.keys {
      StillOpen(root, s, op, q);
    }
    if !op.delete {
      forall i | 0 <= i < |s.timing.keys| ensures !(Split(s.timing.keys[i]) < Split(p)) {
        NoAncestorRecorded(root, s, seen, s.timing.keys[i]);
      }
      OrderedAppend(s.timing.keys, p);
      assert s'.timing.keys == s.timing.keys + [p];
      KeysOpenedAppend(root, s, seen);
    }
  }

  lemma KeysOpenedAppend(root: Path, s: State, seen: set<Path>)
    requires FollowsStack(root, s) && Ordered(root, s, seen) && s.stack != []
    ensures KeysOpened(root, s.timing.keys + [s.stackPath], seen)
  {
    var c := Cur(root, s);
    SplitRender(c);
    forall q: Path | |root| < |q| && q <= c ensures q in seen {
      assert IsOpen(root, s, q);
    }
  }

  // ------------------------------------------------------------- batch tables

  /** An open range that was pushed with a batch index. */
  ghost predicate IsOpenBatch(root: Path, s: State, q: Path) {
    IsOpen(root, s, q) && s.stack[|q| - |root| - 1].batchIdx.Some?
  }

  /** `q` is an open batch or a recorded one. */
  ghost predicate IsBatch(root: Path, s: State, q: Path) {
    |root| < |q| && (IsOpenBatch(root, s, q) || Render(q) in s.batchInfo.vals)
  }

  /** The inside-a-batch list holds every recorded range at or below a batch; each of its entries is at or below a batch, or a range that was deleted. */
  ghost predicate InsideInfoRight(root: Path, s: State) {
    && (forall k :: k in s.insideInfo ==> k in s.timing.keys)
    && (forall k, q: Path :: k in s.timing.keys && IsBatch(root, s, q) && q <= Split(k) ==> k in s.insideInfo)
    && (forall k :: k in s.insideInfo ==> Accounted(root, s, k))
  }

  /** Some batch or deleted range is at or above the key. */
  ghost predicate Accounted(root: Path, s: State, k: string) {
    exists q: Path :: |root| < |q| && q <= Split(k) && (IsBatch(root, s, q) || Render(q) in s.deleted)
  }

  /** The recorded batches of positive size directly below a level. */
  ghost function PositiveBelow(batches: Dict<Batch>, level: string): set<string> {
    set b | b in batches.vals && batches.vals[b].items > 0 && Dirname(b) == level
  }

  function TotalAt(totals: map<string, int>, level: string): int {
    if level in totals then totals[level] else 0
  }

  ghost predicate TotalsRight(s: State) {
    && s.batchInfo.Valid()
    && (forall b :: b in s.batchInfo.keys ==> b in s.timing.keys)
    && (forall level :: TotalAt(s.totals, level) == |PositiveBelow(s.batchInfo, level)|)
  }

  ghost predicate Tables(root: Path, s: State) {
    InsideInfoRight(root, s) && TotalsRight(s)
  }

  /** A push changes nothing about the batches around older keys. */
  lemma PushBatches(root: Path, s: State, op: Op, q: Path)
    requires FollowsStack(root, s) && Sensible(s, op) && op.PushOp?
    requires q != Cur(root, s) + [Named(op.message, op.batchIdx)]
    ensures IsBatch(root, Do(s, op), q) <==> IsBatch(root, s, q)
    ensures Do(s, op).deleted == s.deleted && Do(s, op).insideInfo == s.insideInfo && Do(s, op).timing == s.timing
    ensures Do(s, op).batchInfo == s.batchInfo && Do(s, op).totals == s.totals
  {
    hide Join, Split, Render, Dirname;
    PushCur(root, s, op.message, op.batchIdx);
    var c, c' := Cur(root, s), Cur(root, Do(s, op));
    if |q| <= |c| { assert c'[..|q|] == c[..|q|]; }
  }

  lemma PushTables(root: Path, s: State, op: Op, seen: set<Path>)
    requires FollowsStack(root, s) && Ordered(root, s, seen) && Sensible(s, op) && op.PushOp? && Fresh(root, s, op, seen)
    requires Tables(root, s)
    ensures Tables(root, Do(s, op))
  {
    var s', c' := Do(s, op), Cur(root, s) + [Named(op.message, op.batchIdx)];
    JoinAppends(Cur(root, s), Named(op.message, op.batchIdx));
    NotRecorded(root, s.timing.keys, seen, c');
    PushBatches(root, s, op, root);
    hide Do, Join, Split, Render, Dirname, PositiveBelow, DescendantsFirst, IsBatch, FollowsStack;
    forall k, q: Path | k in s.timing.keys && IsBatch(root, s', q) && q <= Split(k) ensures k in s.insideInfo {
      PushBatches(root, s, op, q);
    }
    forall k | k in s.insideInfo ensures Accounted(root, s', k) {
      var q: Path :| |root| < |q| && q <= Split(k) && (IsBatch(root, s, q) || Render(q) in s.deleted);
      PushBatches(root, s, op, q);
    }
  }

  /** What a disciplined pop does to the batch tables. */
  lemma PopBatches(root: Path, s: State, op: Op)
    requires s.benchmark && Counts(s) && Sensible(s, op) && Disciplined(s, op) && op.PopOp?
    ensures var s' := Do(s, op);
            if op.total.None? || op.delete then s'.batchInfo == s.batchInfo && s'.totals == s.totals
            else
              && s'.batchInfo == s.batchInfo.Put(s.stackPath, Batch(s.stack[|s.stack| - 1].batchIdx, op.total.value))
              && s'.totals == if op.total.value > 0
                              then s.totals[Dirname(s.stackPath) := TotalAt(s.totals, Dirname(s.stackPath)) + 1]
                              else s.totals
  {
    hide Dirname;
    if op.total.Some? { OpenBatchAt(s.stack, |s.stack| - 1); }
  }

  lemma PopTotals(root: Path, s: State, op: Op, seen: set<Path>)
    requires FollowsStack(root, s) && Ordered(root, s, seen) && Counts(s) && Sensible(s, op) && Disciplined(s, op) && op.PopOp?
    requires TotalsRight(s)
    ensures TotalsRight(Do(s, op))
  {
    PopOrdered(root, s, op, seen);
    PopBatches(root, s, op);
    PopShape(root, s, op.total, op.delete);
    hide Do, Pop, Dirname, Ordered, FollowsStack, Counts;
    var s', p := Do(s, op), s.stackPath;
    if op.total.Some? && !op.delete {
      var batch := Batch(s.stack[|s.stack| - 1].batchIdx, op.total.value);
      PutValid(s.batchInfo, p, batch);
      forall level ensures TotalAt(s'.totals, level) == |PositiveBelow(s'.batchInfo, level)| {
        AddBatch(s.batchInfo, p, batch, level);
      }
    }
  }

  lemma AddBatch(batches: Dict<Batch>, p: string, batch: Batch, level: string)
    requires p !in batches.vals
    ensures |PositiveBelow(batches.Put(p, batch), level)|
         == |PositiveBelow(batches, level)| + if batch.items > 0 && Dirname(p) == level then 1 else 0
  {
    hide Dirname;
    var now := PositiveBelow(batches.Put(p, batch), level);
    if batch.items > 0 && Dirname(p) == level {
      assert now == PositiveBelow(batches, level) + {p};
    } else {
      assert now == PositiveBelow(batches, level);
    }
  }

  lemma BatchPopped(root: Path, s: State, op: Op)
    requires FollowsStack(root, s) && Counts(s) && Sensible(s, op) && Disciplined(s, op) && op.PopOp?
    requires IsOpenBatch(root, s, Cur(root, s))
    ensures IsBatch(root, Do(s, op), Cur(root, s)) || Render(Cur(root, s)) in Do(s, op).deleted
  {
    PopShape(root, s, op.total, op.delete);
    PopBatches(root, s, op);
    hide Do, Pop, Dirname, Render, Counts;
  }

  lemma OuterBatchStays(root: Path, s: State, op: Op, q: Path)
    requires FollowsStack(root, s) && Sensible(s, op) && op.PopOp?
    requires IsOpenBatch(root, s, q) && |q| < |Cur(root, s)|
    ensures IsOpenBatch(root, Do(s, op), q)
  {
    PopShape(root, s, op.total, op.delete);
    assert Do(s, op).stack == s.stack[..|s.stack| - 1];
    hide *;
    StillOpenBatch(root, s, Do(s, op), q);
  }

  lemma StillOpenBatch(root: Path, s: State, s': State, q: Path)
    requires IsOpenBatch(root, s, q) && |q| < |Cur(root, s)| && s.stack != [] && s'.stack == s.stack[..|s.stack| - 1]
    ensures IsOpenBatch(root, s', q)
  {
    assert Cur(root, s') == Cur(root, s)[..|Cur(root, s)| - 1];
  }

  /** A batch seen from a key: popping turns the open batch into a recorded or a deleted one. */
  lemma PopAccounts(root: Path, s: State, op: Op, q: Path)
    requires FollowsStack(root, s) && Counts(s) && Sensible(s, op) && Disciplined(s, op) && op.PopOp?
    requires |root| < |q| && (IsBatch(root, s, q) || Render(q) in s.deleted)
    ensures IsBatch(root, Do(s, op), q) || Render(q) in Do(s, op).deleted
  {
    var c := Cur(root, s);
    if IsOpenBatch(root, s, q) {
      if |q| == |c| {
        assert q == c;
        BatchPopped(root, s, op);
      } else {
        OuterBatchStays(root, s, op, q);
      }
    } else {
      PopShape(root, s, op.total, op.delete);
      PopBatches(root, s, op);
      hide Do, Pop, Dirname, Render, FollowsStack, Counts, Disciplined, IsOpen;
    }
  }

  /** After a pop every batch at or above an older key was one before. */
  lemma PopNoNewBatch(root: Path, s: State, op: Op, q: Path)
    requires FollowsStack(root, s) && Counts(s) && Sensible(s, op) && Disciplined(s, op) && op.PopOp?
    requires Components(q) && IsBatch(root, Do(s, op), q)
    ensures IsBatch(root, s, q)
  {
    PopShape(root, s, op.total, op.delete);
    PopBatches(root, s, op);
    hide Do, Pop, Dirname, Render;
    var s', c := Do(s, op), Cur(root, s);
    if IsOpenBatch(root, s', q) {
      assert IsOpenBatch(root, s, q);
    } else if Render(q) !in s.batchInfo.vals {
      assert Render(q) == s.stackPath;
      RenderInjective(q, c);
      assert IsOpenBatch(root, s, c);
    }
  }

  /** The popped range is in the inside-a-batch list iff it is at or below a batch. */
  lemma PopInside(root: Path, s: State, seen: set<Path>, q: Path)
    requires FollowsStack(root, s) && Ordered(root, s, seen) && Counts(s) && TotalsRight(s)
    requires Components(q) && IsBatch(root, s, q) && q <= Cur(root, s)
    ensures s.inside > 0
  {
    if IsOpenBatch(root, s, q) {
      OpenBatchAt(s.stack, |q| - |root| - 1);
    } else {
      SplitRender(q);
      NoAncestorRecorded(root, s, seen, Render(q));
      assert false;
    }
  }

  lemma PopInsideWitness(root: Path, s: State) returns (q: Path)
    requires FollowsStack(root, s) && Counts(s) && s.inside > 0
    ensures IsOpenBatch(root, s, q) && q <= Cur(root, s)
  {
    hide Render;
    var i := SomeOpenBatch(s.stack);
    q := Cur(root, s)[..|root| + i + 1];
  }

  lemma PrefixComponents(q: Path, p: Path)
    requires Components(p) && q != [] && q <= p
    ensures Components(q)
  {
    assert forall i :: 0 <= i < |q| ==> q[i] == p[i];
  }

  lemma PopTables(root: Path, s: State, op: Op, seen: set<Path>)
    requires FollowsStack(root, s) && Ordered(root, s, seen) && Counts(s) && Sensible(s, op) && Disciplined(s, op) && op.PopOp?
    requires Tables(root, s)
    ensures Tables(root, Do(s, op))
  {
    PopTotals(root, s, op, seen);
    PopShape(root, s, op.total, op.delete);
    PopOrdered(root, s, op, seen);
    var s', p, c := Do(s, op), s.stackPath, Cur(root, s);
    SplitRender(c);
    forall k, q: Path | k in s'.timing.keys && IsBatch(root, s', q) && q <= Split(k) ensures k in s'.insideInfo {
      PopCovers(root, s, op, seen, k, q);
    }
    forall k | k in s'.insideInfo ensures Accounted(root, s', k) {
      PopAccounted(root, s, op, seen, k);
    }
  }

  lemma PopCovers(root: Path, s: State, op: Op, seen: set<Path>, k: string, q: Path)
    requires FollowsStack(root, s) && Ordered(root, s, seen) && Counts(s) && Sensible(s, op) && Disciplined(s, op) && op.PopOp?
    requires Tables(root, s)
    requires k in Do(s, op).timing.keys && IsBatch(root, Do(s, op), q) && q <= Split(k)
    ensures k in Do(s, op).insideInfo
  {
    PopShape(root, s, op.total, op.delete);
    SplitRender(Cur(root, s));
    hide Do, Pop, Dirname, Render, Split, DescendantsFirst, IsBatch, Accounted, TotalsRight, InsideInfoRight;
    if k in s.timing.keys {
      KeyComponents(root, s, seen, k);
      PrefixComponents(q, Split(k));
      PopNoNewBatch(root, s, op, q);
      InsideAlready(root, s, k, q);
    } else {
      KeyIsPopped(s, op, k);
      PrefixComponents(q, Cur(root, s));
      PopNoNewBatch(root, s, op, q);
      PopInside(root, s, seen, q);
    }
  }

  lemma InsideAlready(root: Path, s: State, k: string, q: Path)
    requires InsideInfoRight(root, s) && k in s.timing.keys && IsBatch(root, s, q) && q <= Split(k)
    ensures k in s.insideInfo
  {
  }

  lemma KeyComponents(root: Path, s: State, seen: set<Path>, k: string)
    requires Ordered(root, s, seen) && k in s.timing.keys
    ensures Components(Split(k))
  {
  }

  lemma KeyIsPopped(s: State, op: Op, k: string)
    requires s.benchmark && op.PopOp? && s.stack != []
    requires k in Do(s, op).timing.keys && k !in s.timing.keys
    ensures k == s.stackPath && !op.delete
  {
    PopShape([], s, op.total, op.delete);
    hide Pop;
  }

  lemma PopAccounted(root: Path, s: State, op: Op, seen: set<Path>, k: string)
    requires FollowsStack(root, s) && Ordered(root, s, seen) && Counts(s) && Sensible(s, op) && Disciplined(s, op) && op.PopOp?
    requires Tables(root, s)
    requires k in Do(s, op).insideInfo
    ensures Accounted(root, Do(s, op), k)
  {
    PopShape(root, s, op.total, op.delete);
    SplitRender(Cur(root, s));
    hide Do, Pop, Dirname, DescendantsFirst, IsBatch, TotalsRight, Sensible, Disciplined;
    if k in s.insideInfo {
      var q: Path :| |root| < |q| && q <= Split(k) && (IsBatch(root, s, q) || Render(q) in s.deleted);
      PopAccounts(root, s, op, q);
    } else {
      var q := PopInsideWitness(root, s);
      PopAccounts(root, s, op, q);
    }
  }

  // ----------------------------------------------------------------- whole runs

  /** A run of sensible calls none of which raises. */
  ghost predicate SensibleRun(s: State, ops: seq<Op>)
    decreases |ops|
  {
    ops == [] ||
    (&& Sensible(s, ops[0]) && (ops[0].PopOp? ==> ops[0].total.None? || s.inside > 0)
     && SensibleRun(Do(s, ops[0]), ops[1..]))
  }

  /** A run of sensible, disciplined calls that opens no path twice. */
  ghost predicate GoodRun(root: Path, s: State, ops: seq<Op>, seen: set<Path>)
    decreases |ops|
  {
    ops == [] ||
    (&& Sensible(s, ops[0]) && Disciplined(s, ops[0]) && Fresh(root, s, ops[0], seen)
     && GoodRun(root, Do(s, ops[0]), ops[1..], Opened(root, s, ops[0], seen)))
  }

  ghost function RunAll(s: State, ops: seq<Op>): State
    decreases |ops|
  {
    if ops == [] then s else RunAll(Do(s, ops[0]), ops[1..])
  }

  ghost function OpenedAll(root: Path, s: State, ops: seq<Op>, seen: set<Path>): set<Path>
    decreases |ops|
  {
    if ops == [] then seen else OpenedAll(root, Do(s, ops[0]), ops[1..], Opened(root, s, ops[0], seen))
  }

  /** After any sensible run the path is the object name joined with the stacked messages. */
  lemma {:induction false} RunFollowsStack(root: Path, s: State, ops: seq<Op>)
    requires FollowsStack(root, s) && SensibleRun(s, ops)
    ensures FollowsStack(root, RunAll(s, ops))
    decreases |ops|
  {
    hide FollowsStack, Sensible, Do;
    if ops != [] {
      StepFollowsStack(root, s, ops[0]);
      RunFollowsStack(root, Do(s, ops[0]), ops[1..]);
    }
  }

  ghost predicate AllInv(root: Path, s: State, seen: set<Path>) {
    FollowsStack(root, s) && Counts(s) && Ordered(root, s, seen) && Tables(root, s)
  }

  lemma StepKeepsAll(root: Path, s: State, op: Op, seen: set<Path>)
    requires AllInv(root, s, seen) && Sensible(s, op) && Disciplined(s, op) && Fresh(root, s, op, seen)
    ensures AllInv(root, Do(s, op), Opened(root, s, op, seen))
  {
    StepCounts(s, op);
    StepFollowsStack(root, s, op);
    if op.PushOp? {
      PushOrdered(root, s, op, seen);
      PushTables(root, s, op, seen);
    } else {
      PopOrdered(root, s, op, seen);
      PopTables(root, s, op, seen);
    }
  }

  lemma {:induction false} RunKeepsAll(root: Path, s: State, ops: seq<Op>, seen: set<Path>)
    requires AllInv(root, s, seen) && GoodRun(root, s, ops, seen)
    ensures AllInv(root, RunAll(s, ops), OpenedAll(root, s, ops, seen))
    decreases |ops|
  {
    hide AllInv, Sensible, Disciplined, Fresh, Do, Opened;
    if ops != [] {
      StepKeepsAll(root, s, ops[0], seen);
      RunKeepsAll(root, Do(s, ops[0]), ops[1..], Opened(root, s, ops[0], seen));
    }
  }

  lemma InitialAll(root: Path)
    requires Components(root)
    ensures AllInv(root, Initial(Render(root), true), {})
  {
    var s := Initial(Render(root), true);
    assert Cur(root, s) == root;
    forall level ensures |PositiveBelow(s.batchInfo, level)| == 0 {
      assert PositiveBelow(s.batchInfo, level) == {};
    }
  }

  /** For every good run: path, counter, order and tables are right at the end, and so after every call on the way. */
  lemma GoodRunInv(root: Path, ops: seq<Op>)
    requires Components(root) && GoodRun(root, Initial(Render(root), true), ops, {})
    ensures var s := RunAll(Initial(Render(root), true), ops);
            && s.stackPath == Render(root + Names(s.stack))
            && s.inside == OpenBatches(s.stack)
            && DescendantsFirst(s.timing.keys)
            && Tables(root, s)
  {
    InitialAll(root);
    RunKeepsAll(root, Initial(Render(root), true), ops, {});
  }

  // ---------------------------------------------------------------- what finalize hands on

  /** What the post-processing may rely on. */
  ghost predicate WellRecorded(root: Path, keys: seq<string>, batches: Dict<Batch>, insideInfo: seq<string>, totals: map<string, int>) {
    && Components(root)
    && (forall i, j :: 0 <= i < j < |keys| ==> keys[i] != keys[j])
    && (forall k :: k in keys ==> Components(Split(k)) && root < Split(k))
    && DescendantsFirst(keys)
    && batches.Valid()
    && (forall k :: k in keys ==> (k in insideInfo <==> exists b :: b in batches.keys && Split(b) <= Split(k)))
    && (forall level :: TotalAt(totals, level) == |PositiveBelow(batches, level)|)
  }

  /** A complete good run hands on well-recorded tables, whatever was deleted on the way. */
  lemma CompleteRunWellRecorded(root: Path, ops: seq<Op>)
    requires Components(root) && GoodRun(root, Initial(Render(root), true), ops, {})
    requires RunAll(Initial(Render(root), true), ops).stack == []
    ensures var s := RunAll(Initial(Render(root), true), ops);
            WellRecorded(root, Survivors(s.timing, s.deleted).keys, s.batchInfo, s.insideInfo, s.totals)
  {
    InitialAll(root);
    RunKeepsAll(root, Initial(Render(root), true), ops, {});
    EmptyStackWellRecorded(root, RunAll(Initial(Render(root), true), ops), OpenedAll(root, Initial(Render(root), true), ops, {}));
  }

  lemma EmptyStackWellRecorded(root: Path, s: State, seen: set<Path>)
    requires AllInv(root, s, seen) && s.stack == []
    ensures WellRecorded(root, Survivors(s.timing, s.deleted).keys, s.batchInfo, s.insideInfo, s.totals)
  {
    SurvivorsInOrder(s.timing, s.deleted);
    hide Survivors, DescendantsFirst, InsideInfoRight, PositiveBelow, Split, Dirname, Spared;
    forall k | k in Survivors(s.timing, s.deleted).keys
      ensures k in s.insideInfo <==> exists b :: b in s.batchInfo.keys && Split(b) <= Split(k)
    {
      InsideIffBatch(root, s, seen, k);
    }
  }

  lemma SurvivorsInOrder(timing: Dict<(int, int)>, deleted: seq<string>)
    requires timing.Valid() && DescendantsFirst(timing.keys)
    ensures var keys := Survivors(timing, deleted).keys;
            && DescendantsFirst(keys)
            && (forall i, j :: 0 <= i < j < |keys| ==> keys[i] != keys[j])
            && (forall k :: k in keys <==> k in timing.keys && Spared(k, deleted))
  {
    var keep := k => Spared(k, deleted);
    var keys := Filter(timing.keys, keep);
    forall i, j | 0 <= i < j < |keys| ensures keys[i] != keys[j] && !(Split(keys[i]) < Split(keys[j])) {
      var i', j' := FilterKeepsOrder(timing.keys, keep, i, j);
    }
  }

  lemma InsideHasBatch(root: Path, s: State, k: string)
    requires InsideInfoRight(root, s) && s.stack == [] && k in s.insideInfo && Spared(k, s.deleted) && Components(Split(k))
    ensures exists b :: b in s.batchInfo.vals && Split(b) <= Split(k)
  {
    assert Accounted(root, s, k);
    var q: Path :| |root| < |q| && q <= Split(k) && (IsBatch(root, s, q) || Render(q) in s.deleted);
    PrefixComponents(q, Split(k));
    SplitRender(q);
    if Render(q) in s.deleted {
      RenderPrefix(q, Split(k));
      RenderSplit(k);
      SparedByMember(k, s.deleted);
      assert false;
    }
    assert Render(q) in s.batchInfo.vals;
  }

  lemma BatchMeansInside(root: Path, s: State, k: string, b: string)
    requires InsideInfoRight(root, s) && k in s.timing.keys
    requires b in s.batchInfo.vals && root < Split(b) && Split(b) <= Split(k)
    ensures k in s.insideInfo
  {
    RenderSplit(b);
    assert IsBatch(root, s, Split(b));
  }

  lemma InsideIffBatch(root: Path, s: State, seen: set<Path>, k: string)
    requires Ordered(root, s, seen) && Tables(root, s) && s.stack == [] && k in s.timing.keys && Spared(k, s.deleted)
    ensures k in s.insideInfo <==> exists b :: b in s.batchInfo.keys && Split(b) <= Split(k)
  {
    if k in s.insideInfo {
      InsideHasBatch(root, s, k);
    }
    if b :| b in s.batchInfo.keys && Split(b) <= Split(k) {
      assert b in s.timing.keys;
      BatchMeansInside(root, s, k, b);
    }
  }

  // ---------------------------------------------------------------- sharp conditions

  lemma OrderBroken(keys: seq<string>, p: string, k: string)
    requires k in keys && Split(k) < Split(p)
    ensures !DescendantsFirst(keys + [p])
  {
    var i :| 0 <= i < |keys| && keys[i] == k;
    assert (keys + [p])[i] == k && (keys + [p])[|keys|] == p;
  }

  /** A recording pop keeps the order iff the range was recorded before or no range around it was. */
  lemma PopKeepsOrderIff(root: Path, s: State, total: Option<int>)
    requires FollowsStack(root, s) && s.stack != [] && s.timing.Valid() && DescendantsFirst(s.timing.keys)
    ensures DescendantsFirst(Pop(s, total, false).0.timing.keys)
        <==> (s.stackPath in s.timing.keys || forall k :: k in s.timing.keys ==> !(Split(k) < Cur(root, s)))
  {
    PopShape(root, s, total, false);
    SplitRender(Cur(root, s));
    var keys, p := s.timing.keys, s.stackPath;
    hide Pop, DescendantsFirst, Split;
    if p !in keys {
      if k :| k in keys && Split(k) < Cur(root, s) {
        OrderBroken(keys, p, k);
      } else {
        OrderedAppend(keys, p);
      }
    }
  }

  // ------------------------------------------------------- following a fixed run

  /** Where a run stands: open messages, recorded keys, batch counter and deleted ranges. */
  ghost predicate At(root: Path, s: State, names: seq<string>, keys: seq<string>, inside: int, deleted: seq<string>) {
    && FollowsStack(root, s) && Names(s.stack) == names
    && s.timing.Valid() && s.timing.keys == keys && s.inside == inside && s.deleted == deleted
  }

  lemma AtPush(root: Path, s: State, names: seq<string>, keys: seq<string>, inside: int, deleted: seq<string>, m: string, idx: Option<int>)
    requires At(root, s, names, keys, inside, deleted) && Component(Named(m, idx))
    ensures At(root, Push(s, m, idx), names + [Named(m, idx)], keys, inside + if idx.Some? then 1 else 0, deleted)
  {
    StepFollowsStack(root, s, PushOp(m, idx));
    PushCur([], s, m, idx);
    hide FollowsStack, Join;
  }

  lemma AtPop(root: Path, s: State, names: seq<string>, keys: seq<string>, inside: int, deleted: seq<string>, total: Option<int>, delete: bool)
    requires At(root, s, names, keys, inside, deleted) && names != [] && (total.None? || inside > 0)
    ensures Pop(s, total, delete).1 == Fine
    ensures var p := Render(root + names);
            At(root, Pop(s, total, delete).0, names[..|names| - 1], if delete then keys else WithKey(keys, p),
               inside - (if total.Some? then 1 else 0), if delete then deleted + [p] else deleted)
  {
    AtKeys(root, s, names, keys, inside, deleted);
    StepFollowsStack(root, s, PopOp(total, delete));
    PopShape(root, s, total, delete);
    PutKeys(s.timing, s.stackPath, PLACEHOLDER);
    var s' := Pop(s, total, delete).0;
    assert Do(s, PopOp(total, delete)) == s';
    assert Names(s'.stack) == Names(s.stack)[..|names| - 1];
    assert Names(s.stack) == names;
    hide *;
    AtIntro(root, s', names[..|names| - 1], if delete then keys else WithKey(keys, s.stackPath),
            inside - (if total.Some? then 1 else 0), if delete then deleted + [s.stackPath] else deleted);
  }

  lemma AtIntro(root: Path, s: State, names: seq<string>, keys: seq<string>, inside: int, deleted: seq<string>)
    requires FollowsStack(root, s) && Names(s.stack) == names
    requires s.timing.Valid() && s.timing.keys == keys && s.inside == inside && s.deleted == deleted
    ensures At(root, s, names, keys, inside, deleted)
  {
  }

  lemma AtInitial(root: Path)
    requires Components(root)
    ensures At(root, Initial(Render(root), true), [], [], 0, [])
  {
    InitialAll(root);
  }

  /** Opening and closing one range from an idle recorder. */
  lemma AtOneRange(root: Path, s: State, keys: seq<string>, a: string)
    requires At(root, s, [], keys, 0, []) && Component(a)
    ensures At(root, Pop(Push(s, a, None), None, false).0, [], WithKey(keys, Render(root + [a])), 0, [])
  {
    assert Named(a, None) == a && [] + [a] == [a] && [a][..0] == [];
    hide At, Push, Pop, Render, WithKey, Named;
    AtPush(root, s, [], keys, 0, [], a, None);
    AtPop(root, Push(s, a, None), [a], keys, 0, [], None, false);
  }

  /** Opening a range and closing a range inside it. */
  lemma AtInnerRange(root: Path, s: State, keys: seq<string>, a: string, b: string)
    requires At(root, s, [], keys, 0, []) && Component(a) && Component(b)
    ensures At(root, Pop(Push(Push(s, a, None), b, None), None, false).0, [a], WithKey(keys, Render(root + [a, b])), 0, [])
  {
    assert Named(a, None) == a && Named(b, None) == b && [] + [a] == [a] && [a] + [b] == [a, b] && [a, b][..1] == [a];
    hide At, Push, Pop, Render, WithKey, Named;
    AtPush(root, s, [], keys, 0, [], a, None);
    AtPush(root, Push(s, a, None), [a], keys, 0, [], b, None);
    AtPop(root, Push(Push(s, a, None), b, None), [a, b], keys, 0, [], None, false);
  }

  /** A range that is recorded, opened again and given a child is listed before that child. */
  lemma ReopenedRangeOutOfOrder(root: Path, a: string, b: string)
    requires Components(root) && Component(a) && Component(b)
    ensures var s2 := Pop(Push(Initial(Render(root), true), a, None), None, false).0;
            var s5 := Pop(Push(Push(s2, a, None), b, None), None, false).0;
            s5.timing.keys == [Render(root + [a]), Render(root + [a, b])] && !DescendantsFirst(s5.timing.keys)
  {
    var s0 := Initial(Render(root), true);
    var p, q := Render(root + [a]), Render(root + [a, b]);
    var s2 := Pop(Push(s0, a, None), None, false).0;
    PathsDiffer(root, a, b);
    assert WithKey([], p) == [p] && WithKey([p], q) == [p] + [q];
    AtInitial(root);
    AtOneRange(root, s0, [], a);
    AtInnerRange(root, s2, [p], a, b);
    hide At, Push, Pop, Render, Split, DescendantsFirst, Initial, WithKey;
    AtKeys(root, Pop(Push(Push(s2, a, None), b, None), None, false).0, [a], [p] + [q], 0, []);
    OrderBroken([p], q, p);
  }

  lemma PathsDiffer(root: Path, a: string, b: string)
    requires Components(root) && Component(a) && Component(b)
    ensures Render(root + [a]) != Render(root + [a, b])
    ensures Split(Render(root + [a])) < Split(Render(root + [a, b]))
  {
    hide Split, Render, Component;
    SplitRender(root + [a]);
    SplitRender(root + [a, b]);
    assert root + [a] < root + [a, b];
  }

  lemma AtKeys(root: Path, s: State, names: seq<string>, keys: seq<string>, inside: int, deleted: seq<string>)
    requires At(root, s, names, keys, inside, deleted)
    ensures s.timing.keys == keys && s.timing.Valid() && s.deleted == deleted && s.inside == inside
    ensures |s.stack| == |names| && s.stackPath == Render(root + names) && s.objName == Render(root) && s.benchmark
  {
  }

  /** Popping undoes pushing on the path iff the message has no slash. */
  lemma PushPopRestores(root: Path, s: State, m: string)
    requires FollowsStack(root, s)
    ensures Pop(Push(s, m, None), None, true).0.stackPath == s.stackPath <==> '/' !in m
  {
    RenderEnds(Cur(root, s));
    DirnameUndoesJoin(s.stackPath, m);
    hide Join, Dirname, Render;
  }

  // ------------------------------------------------------------------- deletion

  /** At or below some deleted range. */
  ghost predicate BelowDeleted(k: string, deleted: seq<string>) {
    exists d :: d in deleted && Split(d) <= Split(k)
  }

  /** Continues some deleted range inside one of its components. */
  ghost predicate LooksDeleted(k: string, deleted: seq<string>) {
    exists d :: d in deleted && ExtendsInside(Split(d), Split(k))
  }

  lemma SparedByMember(k: string, deleted: seq<string>)
    ensures Spared(k, deleted) <==> forall d :: d in deleted ==> !(d <= k)
  {
    if Spared(k, deleted) {
      forall d | d in deleted ensures !(d <= k) {
        var i :| 0 <= i < |deleted| && deleted[i] == d;
      }
    } else {
      var i :| 0 <= i < |deleted| && deleted[i] <= k;
      assert deleted[i] in deleted;
    }
  }

  lemma SparedMeaning(k: string, deleted: seq<string>)
    requires Components(Split(k)) && forall d :: d in deleted ==> Components(Split(d))
    ensures Spared(k, deleted) <==> !BelowDeleted(k, deleted) && !LooksDeleted(k, deleted)
  {
    RenderSplit(k);
    forall d | d in deleted ensures d <= k <==> Split(d) <= Split(k) || ExtendsInside(Split(d), Split(k)) {
      RenderSplit(d);
      PrefixMeaning(Split(d), Split(k));
    }
    SparedByMember(k, deleted);
  }

  /** `finalize` deletes exactly the deleted ranges and their descendants iff no other recorded range continues one inside a component. */
  lemma FinalizeExact(timing: Dict<(int, int)>, deleted: seq<string>)
    requires timing.Valid()
    requires forall k :: k in timing.keys ==> Components(Split(k))
    requires forall d :: d in deleted ==> Components(Split(d))
    ensures (forall k :: k in timing.keys ==> (k in Survivors(timing, deleted).keys <==> !BelowDeleted(k, deleted)))
       <==> (forall k :: k in timing.keys && !BelowDeleted(k, deleted) ==> !LooksDeleted(k, deleted))
  {
    hide BelowDeleted, LooksDeleted, Spared, Split;
    forall k | k in timing.keys
      ensures k in Survivors(timing, deleted).keys <==> !BelowDeleted(k, deleted) && !LooksDeleted(k, deleted)
    {
      SparedMeaning(k, deleted);
    }
  }
}
