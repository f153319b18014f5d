/**
 Well-nested clients of the recorder: every range is closed by the function that opened
 it.  A `Forest` is the shape of such a program, `Calls` the recorder calls it makes.
 */
module NestedRuns {
  import opened Text
  import opened Paths
  import opened PyDict
  import opened PerfRecorder
  import opened RecorderRuns

  /** Ranges one after another; each is pushed, runs the ranges inside it, and is popped. */
  datatype Forest = Nil | Then(before: Forest, message: string, idx: Option<int>, total: Option<int>, delete: bool, inner: Forest) {
    function Name(): string
      requires Then?
    {
      Named(message, idx)
    }
  }

  function Calls(f: Forest): seq<Op> {
    if f.Nil? then []
    else Calls(f.before) + [PushOp(f.message, f.idx)] + Calls(f.inner) + [PopOp(f.total, f.delete)]
  }

  /** Batch ranges, and only they, are popped with `total_items`. */
  predicate Matched(f: Forest) {
    f.Then? ==> (f.idx.Some? <==> f.total.Some?) && Matched(f.before) && Matched(f.inner)
  }

  /** Every message is slash-free and not empty. */
  predicate Clean(f: Forest) {
    f.Then? ==> Component(f.Name()) && Clean(f.before) && Clean(f.inner)
  }

  function Tops(f: Forest): set<string> {
    if f.Nil? then {} else Tops(f.before) + {f.Name()}
  }

  /** No two ranges directly inside one range have the same name. */
  predicate Distinct(f: Forest) {
    f.Then? ==> f.Name() !in Tops(f.before) && Distinct(f.before) && Distinct(f.inner)
  }

  /** The ranges recorded under `at`, each after what is inside it. */
  function Recorded(at: Path, f: Forest): seq<string>
    requires at != []
    decreases f
  {
    if f.Nil? then []
    else Recorded(at, f.before) + Recorded(at + [f.Name()], f.inner) + if f.delete then [] else [Render(at + [f.Name()])]
  }

  /** The ranges deleted under `at`. */
  function Gone(at: Path, f: Forest): seq<string>
    requires at != []
    decreases f
  {
    if f.Nil? then []
    else Gone(at, f.before) + Gone(at + [f.Name()], f.inner) + if f.delete then [Render(at + [f.Name()])] else []
  }

  /** The ranges opened under `at`. */
  function Opens(at: Path, f: Forest): set<Path>
    decreases f
  {
    if f.Nil? then {} else Opens(at, f.before) + {at + [f.Name()]} + Opens(at + [f.Name()], f.inner)
  }

  function AddAll(keys: seq<string>, ks: seq<string>): seq<string> {
    if ks == [] then keys else WithKey(AddAll(keys, ks[..|ks| - 1]), ks[|ks| - 1])
  }

  lemma {:induction false} AddAllAppend(keys: seq<string>, a: seq<string>, b: seq<string>)
    ensures AddAll(keys, a + b) == AddAll(AddAll(keys, a), b)
  {
    hide WithKey;
    if b == [] {
      assert a + b == a;
    } else {
      assert (a + b)[..|a + b| - 1] == a + b[..|b| - 1];
      AddAllAppend(keys, a, b[..|b| - 1]);
    }
  }

  lemma {:induction false} AddAllMembers(keys: seq<string>, ks: seq<string>, k: string)
    ensures k in AddAll(keys, ks) <==> k in keys || k in ks
  {
    if ks != [] {
      AddAllMembers(keys, ks[..|ks| - 1], k);
      assert ks == ks[..|ks| - 1] + [ks[|ks| - 1]];
    }
  }

  // ------------------------------------------------------------- appending calls

  lemma {:induction false} RunAppend(s: State, a: seq<Op>, b: seq<Op>)
    ensures RunAll(s, a + b) == RunAll(RunAll(s, a), b)
    decreases |a|
  {
    hide Do;
    if a == [] {
      assert a + b == b;
    } else {
      assert (a + b)[1..] == a[1..] + b;
      RunAppend(Do(s, a[0]), a[1..], b);
    }
  }

  lemma RunSnoc(s: State, a: seq<Op>, op: Op)
    ensures RunAll(s, a + [op]) == Do(RunAll(s, a), op)
  {
    hide Do;
    RunAppend(s, a, [op]);
    assert [op][1..] == [];
  }

  /** The four legs of a non-empty forest. */
  lemma CallsRun(s: State, f: Forest)
    requires f.Then?
    ensures RunAll(s, Calls(f))
         == Do(RunAll(Do(RunAll(s, Calls(f.before)), PushOp(f.message, f.idx)), Calls(f.inner)), PopOp(f.total, f.delete))
  {
    var a := Calls(f.before);
    var b := a + [PushOp(f.message, f.idx)];
    hide Do, Calls;
    RunSnoc(s, a, PushOp(f.message, f.idx));
    RunAppend(s, b, Calls(f.inner));
    RunSnoc(s, b + Calls(f.inner), PopOp(f.total, f.delete));
    assert Calls(f) == b + Calls(f.inner) + [PopOp(f.total, f.delete)] by { CallsOf(f); }
  }

  lemma CallsOf(f: Forest)
    requires f.Then?
    ensures Calls(f) == Calls(f.before) + [PushOp(f.message, f.idx)] + Calls(f.inner) + [PopOp(f.total, f.delete)]
  {
  }

  // ------------------------------------------------------------- any messages

  /** Whatever the messages are, a matched program leaves stack and batch counter as they were, and nothing raises. */
  lemma {:induction false} CallsBalanced(s: State, f: Forest)
    requires s.benchmark && s.timing.Valid() && s.inside >= 0 && Matched(f)
    ensures var s' := RunAll(s, Calls(f));
            s'.benchmark && s'.timing.Valid() && s'.stack == s.stack && s'.inside == s.inside && s'.objName == s.objName
    decreases f
  {
    hide Do, Join, Named;
    if f.Nil? {
    } else {
      CallsRun(s, f);
      CallsBalanced(s, f.before);
      var s1 := RunAll(s, Calls(f.before));
      var s2 := Do(s1, PushOp(f.message, f.idx));
      PushBalance(s1, f.message, f.idx);
      CallsBalanced(s2, f.inner);
      PopBalance(RunAll(s2, Calls(f.inner)), f.total, f.delete);
      hide *;
      assert s2.stack[..|s1.stack|] == s1.stack;
    }
  }

  /** The batch ranges that are pushed. */
  function BatchPushes(f: Forest): nat {
    if f.Nil? then 0 else BatchPushes(f.before) + BatchPushes(f.inner) + if f.idx.Some? then 1 else 0
  }

  /** Outside benchmark mode nothing is recorded, and the batch counter goes up with every batch but never down. */
  lemma {:induction false} CallsIdle(s: State, f: Forest)
    requires !s.benchmark
    ensures RunAll(s, Calls(f)) == s.(inside := s.inside + BatchPushes(f))
    decreases f
  {
    hide Join, Named, Calls, RunAll;
    if f.Nil? {
      NilTables([""], s, []);
    } else {
      CallsRun(s, f);
      CallsIdle(s, f.before);
      var s1 := RunAll(s, Calls(f.before));
      CallsIdle(Do(s1, PushOp(f.message, f.idx)), f.inner);
    }
  }

  lemma PushBalance(s: State, message: string, idx: Option<int>)
    requires s.benchmark
    ensures var s' := Do(s, PushOp(message, idx));
            && s'.benchmark && s'.timing == s.timing && s'.objName == s.objName
            && s'.stack == s.stack + [Frame(Named(message, idx), idx)]
            && s'.inside == s.inside + if idx.Some? then 1 else 0
  {
  }

  lemma PopBalance(s: State, total: Option<int>, delete: bool)
    requires s.benchmark && s.stack != [] && s.timing.Valid() && (total.Some? ==> s.inside > 0)
    ensures Pop(s, total, delete).1 == Fine
    ensures var s' := Do(s, PopOp(total, delete));
            && s'.benchmark && s'.timing.Valid() && s'.objName == s.objName
            && s'.stack == s.stack[..|s.stack| - 1]
            && s'.inside == s.inside - if total.Some? then 1 else 0
  {
    PopShape([], s, total, delete);
    PutValid(s.timing, s.stackPath, PLACEHOLDER);
    hide Pop;
  }

  // ------------------------------------------------------------- clean messages

  /** A clean program ends where it began, having recorded and deleted exactly its ranges. */
  lemma {:induction false} CallsAt(root: Path, s: State, names: seq<string>, keys: seq<string>, inside: int, deleted: seq<string>, f: Forest)
    requires At(root, s, names, keys, inside, deleted) && inside >= 0 && Matched(f) && Clean(f) && root != []
    ensures At(root, RunAll(s, Calls(f)), names, AddAll(keys, Recorded(root + names, f)), inside, deleted + Gone(root + names, f))
    decreases f
  {
    hide At, Do, Named, AddAll, Component, WithKey, Calls, Recorded, Gone, RunAll;
    if f.Nil? {
      NilTables(root + names, s, keys);
      assert deleted + [] == deleted;
    } else {
      var at := root + names;
      CallsRun(s, f);
      CallsAt(root, s, names, keys, inside, deleted, f.before);
      var s1, keys1, deleted1 := RunAll(s, Calls(f.before)), AddAll(keys, Recorded(at, f.before)), deleted + Gone(at, f.before);
      var names2, inside2 := names + [f.Name()], inside + if f.idx.Some? then 1 else 0;
      EnterAt(root, s1, names, keys1, inside, deleted1, f);
      var s2 := Do(s1, PushOp(f.message, f.idx));
      CallsAt(root, s2, names2, keys1, inside2, deleted1, f.inner);
      LeaveAt(root, RunAll(s2, Calls(f.inner)), names, keys, inside, deleted, f);
    }
  }

  lemma NilTables(at: Path, s: State, keys: seq<string>)
    requires at != []
    ensures RunAll(s, Calls(Nil)) == s && AddAll(keys, Recorded(at, Nil)) == keys && Gone(at, Nil) == []
  {
  }

  lemma EnterAt(root: Path, s: State, names: seq<string>, keys: seq<string>, inside: int, deleted: seq<string>, f: Forest)
    requires f.Then? && Clean(f) && At(root, s, names, keys, inside, deleted)
    ensures At(root, Do(s, PushOp(f.message, f.idx)), names + [f.Name()], keys, inside + if f.idx.Some? then 1 else 0, deleted)
  {
    DoIs(s, PushOp(f.message, f.idx));
    hide At, Do, Named, Component;
    AtPush(root, s, names, keys, inside, deleted, f.message, f.idx);
  }

  lemma LeaveAt(root: Path, s: State, names: seq<string>, keys: seq<string>, inside: int, deleted: seq<string>, f: Forest)
    requires f.Then? && Matched(f) && inside >= 0 && root != []
    requires At(root, s, names + [f.Name()], AddAll(AddAll(keys, Recorded(root + names, f.before)), Recorded(root + (names + [f.Name()]), f.inner)),
                inside + (if f.idx.Some? then 1 else 0),
                deleted + Gone(root + names, f.before) + Gone(root + (names + [f.Name()]), f.inner))
    ensures At(root, Do(s, PopOp(f.total, f.delete)), names, AddAll(keys, Recorded(root + names, f)), inside, deleted + Gone(root + names, f))
  {
    var at, names2 := root + names, names + [f.Name()];
    assert root + names2 == at + [f.Name()];
    assert names2[..|names2| - 1] == names;
    TableLegs(at, f, keys, deleted);
    DoIs(s, PopOp(f.total, f.delete));
    hide At, Do, Named, AddAll, WithKey, Recorded, Gone, Pop, Render;
    AtPop(root, s, names2, AddAll(AddAll(keys, Recorded(at, f.before)), Recorded(root + names2, f.inner)),
          inside + (if f.idx.Some? then 1 else 0), deleted + Gone(at, f.before) + Gone(root + names2, f.inner), f.total, f.delete);
  }

  lemma DoIs(s: State, op: Op)
    ensures Do(s, op) == if op.PushOp? then Push(s, op.message, op.batchIdx) else Pop(s, op.total, op.delete).0
  {
  }

  /** The tables of a forest, leg by leg. */
  lemma TableLegs(at: Path, f: Forest, keys: seq<string>, deleted: seq<string>)
    requires f.Then? && at != []
    ensures var here := at + [f.Name()];
            var keys3 := AddAll(AddAll(keys, Recorded(at, f.before)), Recorded(here, f.inner));
            var deleted3 := deleted + Gone(at, f.before) + Gone(here, f.inner);
            && AddAll(keys, Recorded(at, f)) == (if f.delete then keys3 else WithKey(keys3, Render(here)))
            && deleted + Gone(at, f) == (if f.delete then deleted3 + [Render(here)] else deleted3)
  {
    var here := at + [f.Name()];
    hide Named, Render, AddAll, WithKey;
    Legs(keys, deleted, Recorded(at, f.before), Recorded(here, f.inner), Gone(at, f.before), Gone(here, f.inner), Render(here));
    hide *;
  }

  lemma Legs(keys: seq<string>, deleted: seq<string>, a: seq<string>, b: seq<string>, c: seq<string>, d: seq<string>, p: string)
    ensures AddAll(keys, a + b + []) == AddAll(AddAll(keys, a), b)
    ensures AddAll(keys, a + b + [p]) == WithKey(AddAll(AddAll(keys, a), b), p)
    ensures deleted + (c + d + []) == deleted + c + d
    ensures deleted + (c + d + [p]) == deleted + c + d + [p]
  {
    hide *;
    AddAllAppend(keys, a, b);
    AddLast(keys, a + b, p);
    assert a + b + [] == a + b;
  }

  lemma AddLast(keys: seq<string>, ks: seq<string>, k: string)
    ensures AddAll(keys, ks + [k]) == WithKey(AddAll(keys, ks), k)
  {
    assert (ks + [k])[..|ks|] == ks;
  }

  // ------------------------------------------------------------- distinct names

  lemma {:induction false} GoodAppend(root: Path, s: State, a: seq<Op>, b: seq<Op>, seen: set<Path>)
    requires GoodRun(root, s, a, seen) && GoodRun(root, RunAll(s, a), b, OpenedAll(root, s, a, seen))
    ensures GoodRun(root, s, a + b, seen)
    ensures OpenedAll(root, s, a + b, seen) == OpenedAll(root, RunAll(s, a), b, OpenedAll(root, s, a, seen))
    decreases |a|
  {
    hide Do, Sensible, Disciplined, Fresh, Opened;
    if a == [] {
      assert a + b == b;
    } else {
      assert (a + b)[1..] == a[1..] + b;
      GoodAppend(root, Do(s, a[0]), a[1..], b, Opened(root, s, a[0], seen));
    }
  }

  lemma GoodSnoc(root: Path, s: State, a: seq<Op>, op: Op, seen: set<Path>)
    requires GoodRun(root, s, a, seen)
    requires var s' := RunAll(s, a); Sensible(s', op) && Disciplined(s', op) && Fresh(root, s', op, OpenedAll(root, s, a, seen))
    ensures GoodRun(root, s, a + [op], seen)
    ensures OpenedAll(root, s, a + [op], seen) == Opened(root, RunAll(s, a), op, OpenedAll(root, s, a, seen))
  {
    hide Do, Sensible, Disciplined, Fresh, Opened;
    assert [op][1..] == [];
    GoodAppend(root, s, a, [op], seen);
  }

  /** Nothing opened so far is at or below a range the forest opens first. */
  ghost predicate Unseen(at: Path, tops: set<string>, seen: set<Path>) {
    forall q, n :: q in seen && n in tops ==> !(at + [n] <= q)
  }

  lemma {:induction false} OpensBelow(at: Path, f: Forest)
    ensures forall q :: q in Opens(at, f) ==> exists n :: n in Tops(f) && at + [n] <= q
    decreases f
  {
    if f.Then? {
      OpensBelow(at, f.before);
      OpensBelow(at + [f.Name()], f.inner);
      forall q | q in Opens(at, f) ensures exists n :: n in Tops(f) && at + [n] <= q {
        if q in Opens(at, f.before) {
        } else {
          if q in Opens(at + [f.Name()], f.inner) {
            var n :| n in Tops(f.inner) && at + [f.Name()] + [n] <= q;
            assert at + [f.Name()] == (at + [f.Name()] + [n])[..|at| + 1];
          }
          assert f.Name() in Tops(f) && at + [f.Name()] <= q;
        }
      }
    }
  }

  /** A clean, matched program with distinct sibling names is a good run. */
  lemma {:induction false} CallsGood(root: Path, s: State, f: Forest, seen: set<Path>)
    requires s.benchmark && s.timing.Valid() && s.inside >= 0
    requires Matched(f) && Clean(f) && Distinct(f) && Unseen(Cur(root, s), Tops(f), seen)
    ensures GoodRun(root, s, Calls(f), seen)
    ensures OpenedAll(root, s, Calls(f), seen) == seen + Opens(Cur(root, s), f)
    decreases f
  {
    hide Do, Cur, Named, Component;
    if f.Then? {
      var at, name := Cur(root, s), f.Name();
      var push, pop := PushOp(f.message, f.idx), PopOp(f.total, f.delete);
      var a := Calls(f.before);
      var s1 := RunAll(s, a);
      var s2 := Do(s1, push);
      var s3 := RunAll(s2, Calls(f.inner));
      CallsGood(root, s, f.before, seen);
      CallsBalanced(s, f.before);
      CurIs(root, s, s1);
      var seen1 := seen + Opens(at, f.before);
      NameUnseen(at, f, seen);
      GoodPush(root, s, a, push, seen);
      PushBalance(s1, f.message, f.idx);
      CurPushed(root, s1, f.message, f.idx);
      var seen2 := seen1 + {at + [name]};
      InnerUnseen(at + [name], Tops(f.inner), seen1);
      CallsGood(root, s2, f.inner, seen2);
      CallsBalanced(s2, f.inner);
      RunSnoc(s, a, push);
      GoodAppend(root, s, a + [push], Calls(f.inner), seen);
      RunAppend(s, a + [push], Calls(f.inner));
      GoodPop(root, s, a + [push] + Calls(f.inner), pop, seen, f.idx);
      assert seen + Opens(at, f) == seen2 + Opens(at + [name], f.inner);
    }
  }

  lemma CurIs(root: Path, s: State, s': State)
    requires s.stack == s'.stack
    ensures Cur(root, s) == Cur(root, s')
  {
  }

  lemma CurPushed(root: Path, s: State, message: string, idx: Option<int>)
    requires s.benchmark
    ensures Cur(root, Do(s, PushOp(message, idx))) == Cur(root, s) + [Named(message, idx)]
  {
    PushCur(root, s, message, idx);
  }

  lemma NameUnseen(at: Path, f: Forest, seen: set<Path>)
    requires f.Then? && Unseen(at, Tops(f), seen) && Distinct(f)
    ensures forall q :: q in seen + Opens(at, f.before) ==> !(at + [f.Name()] <= q)
  {
    OpensBelow(at, f.before);
    forall q | q in Opens(at, f.before) ensures !(at + [f.Name()] <= q) {
      var n :| n in Tops(f.before) && at + [n] <= q;
      assert (at + [n])[|at|] == n == q[|at|] && (at + [f.Name()])[|at|] == f.Name();
    }
  }

  lemma InnerUnseen(here: Path, tops: set<string>, seen: set<Path>)
    requires forall q :: q in seen ==> !(here <= q)
    ensures Unseen(here, tops, seen + {here})
  {
    forall q, n | q in seen + {here} && n in tops ensures !(here + [n] <= q) {
      assert here + [n] <= q ==> here <= q && q != here by { assert here == (here + [n])[..|here|]; }
    }
  }

  lemma GoodPush(root: Path, s: State, a: seq<Op>, push: Op, seen: set<Path>)
    requires GoodRun(root, s, a, seen) && push.PushOp? && Component(Named(push.message, push.batchIdx))
    requires Cur(root, RunAll(s, a)) + [Named(push.message, push.batchIdx)] !in OpenedAll(root, s, a, seen)
    ensures GoodRun(root, s, a + [push], seen)
    ensures OpenedAll(root, s, a + [push], seen)
         == OpenedAll(root, s, a, seen) + {Cur(root, RunAll(s, a)) + [Named(push.message, push.batchIdx)]}
  {
    hide GoodRun, OpenedAll, RunAll, Cur, Named;
    GoodSnoc(root, s, a, push, seen);
  }

  lemma GoodPop(root: Path, s: State, a: seq<Op>, pop: Op, seen: set<Path>, idx: Option<int>)
    requires GoodRun(root, s, a, seen) && pop.PopOp? && (idx.Some? <==> pop.total.Some?)
    requires var stack := RunAll(s, a).stack; stack != [] && stack[|stack| - 1].batchIdx == idx
    ensures GoodRun(root, s, a + [pop], seen)
    ensures OpenedAll(root, s, a + [pop], seen) == OpenedAll(root, s, a, seen)
  {
    hide GoodRun, OpenedAll, RunAll;
    GoodSnoc(root, s, a, pop, seen);
  }

  // ------------------------------------------------------------- the batch table

  /** The undeleted batches under `at`, in the order in which they are recorded. */
  function BatchKeys(at: Path, f: Forest): seq<string>
    requires at != []
    decreases f
  {
    if f.Nil? then []
    else
      BatchKeys(at, f.before) + BatchKeys(at + [f.Name()], f.inner)
      + if f.total.Some? && !f.delete then [Render(at + [f.Name()])] else []
  }

  /** The batches recorded under `at`. */
  function BatchMap(at: Path, f: Forest): map<string, Batch>
    requires at != []
    decreases f
  {
    if f.Nil? then map[]
    else
      BatchMap(at, f.before) + BatchMap(at + [f.Name()], f.inner)
      + if f.total.Some? && !f.delete then map[Render(at + [f.Name()]) := Batch(f.idx, f.total.value)] else map[]
  }

  /** What a pop adds to the batch table. */
  lemma PopBatchInfo(s: State, total: Option<int>, delete: bool)
    requires s.benchmark && s.stack != [] && (total.Some? ==> s.inside > 0)
    ensures Do(s, PopOp(total, delete)).batchInfo
         == if total.Some? && !delete then s.batchInfo.Put(s.stackPath, Batch(s.stack[|s.stack| - 1].batchIdx, total.value)) else s.batchInfo
  {
    hide Dirname;
  }

  lemma PopBatchMap(s: State, total: Option<int>, delete: bool)
    requires s.benchmark && s.stack != [] && (total.Some? ==> s.inside > 0)
    ensures Do(s, PopOp(total, delete)).batchInfo.vals
         == s.batchInfo.vals + if total.Some? && !delete then map[s.stackPath := Batch(s.stack[|s.stack| - 1].batchIdx, total.value)] else map[]
  {
    PopBatchInfo(s, total, delete);
    MergeOne(s.batchInfo.vals, s.stackPath, Batch(s.stack[|s.stack| - 1].batchIdx, if total.Some? then total.value else 0));
    hide *;
  }

  lemma MergeOne(m: map<string, Batch>, k: string, b: Batch)
    ensures m[k := b] == m + map[k := b] && m == m + map[]
  {
  }

  lemma PopBatchKeys(s: State, total: Option<int>, delete: bool)
    requires s.benchmark && s.stack != [] && (total.Some? ==> s.inside > 0) && s.batchInfo.Valid()
    ensures var d := Do(s, PopOp(total, delete)).batchInfo;
            d.Valid() && d.keys == if total.Some? && !delete then WithKey(s.batchInfo.keys, s.stackPath) else s.batchInfo.keys
  {
    PopBatchInfo(s, total, delete);
    hide *;
    if total.Some? && !delete {
      PutKeys(s.batchInfo, s.stackPath, Batch(s.stack[|s.stack| - 1].batchIdx, total.value));
    }
  }

  /** A clean program adds exactly its batches to the batch table. */
  lemma {:induction false} CallsBatches(root: Path, s: State, names: seq<string>, keys: seq<string>, inside: int, deleted: seq<string>, f: Forest)
    requires At(root, s, names, keys, inside, deleted) && inside >= 0 && Matched(f) && Clean(f) && root != []
    ensures var d := RunAll(s, Calls(f)).batchInfo;
            && d.vals == s.batchInfo.vals + BatchMap(root + names, f)
            && (s.batchInfo.Valid() ==> d.Valid() && d.keys == AddAll(s.batchInfo.keys, BatchKeys(root + names, f)))
    decreases f
  {
    hide At, Do, Named, AddAll, Component, WithKey, Calls, Recorded, Gone, RunAll, BatchMap, BatchKeys, PyDict.Dict.Valid;
    if f.Nil? {
      NilBatches(root + names, s);
    } else {
      var at := root + names;
      CallsRun(s, f);
      CallsAt(root, s, names, keys, inside, deleted, f.before);
      CallsBatches(root, s, names, keys, inside, deleted, f.before);
      var s1, keys1, deleted1 := RunAll(s, Calls(f.before)), AddAll(keys, Recorded(at, f.before)), deleted + Gone(at, f.before);
      var names2, inside2 := names + [f.Name()], inside + if f.idx.Some? then 1 else 0;
      EnterAt(root, s1, names, keys1, inside, deleted1, f);
      var s2 := Do(s1, PushOp(f.message, f.idx));
      AtKeys(root, s1, names, keys1, inside, deleted1);
      PushBatchMap(s1, f.message, f.idx);
      CallsBatches(root, s2, names2, keys1, inside2, deleted1, f.inner);
      CallsAt(root, s2, names2, keys1, inside2, deleted1, f.inner);
      AtKeys(root, s2, names2, keys1, inside2, deleted1);
      CallsBalanced(s2, f.inner);
      var s3 := RunAll(s2, Calls(f.inner));
      AtKeys(root, s3, names2, AddAll(keys1, Recorded(root + names2, f.inner)), inside2, deleted1 + Gone(root + names2, f.inner));
      PopBatchMap(s3, f.total, f.delete);
      if s3.batchInfo.Valid() { PopBatchKeys(s3, f.total, f.delete); }
      assert root + names2 == at + [f.Name()];
      BatchLegs(at, f, s.batchInfo.vals);
      KeyLegs(at, f, s.batchInfo.keys);
    }
  }

  lemma NilBatches(at: Path, s: State)
    requires at != []
    ensures RunAll(s, Calls(Nil)).batchInfo == s.batchInfo && s.batchInfo.vals == s.batchInfo.vals + BatchMap(at, Nil)
    ensures AddAll(s.batchInfo.keys, BatchKeys(at, Nil)) == s.batchInfo.keys
  {
    assert s.batchInfo.vals + map[] == s.batchInfo.vals;
  }

  lemma PushBatchMap(s: State, message: string, idx: Option<int>)
    requires s.benchmark
    ensures Do(s, PushOp(message, idx)).batchInfo == s.batchInfo
    ensures Do(s, PushOp(message, idx)).stack == s.stack + [Frame(Named(message, idx), idx)]
  {
  }

  lemma KeyLegs(at: Path, f: Forest, was: seq<string>)
    requires f.Then? && at != []
    ensures var keys := AddAll(AddAll(was, BatchKeys(at, f.before)), BatchKeys(at + [f.Name()], f.inner));
            AddAll(was, BatchKeys(at, f)) == if f.total.Some? && !f.delete then WithKey(keys, Render(at + [f.Name()])) else keys
  {
    var here := at + [f.Name()];
    hide Named, Render, AddAll, WithKey;
    Legs(was, [], BatchKeys(at, f.before), BatchKeys(here, f.inner), [], [], Render(here));
    hide *;
  }

  lemma BatchLegs(at: Path, f: Forest, was: map<string, Batch>)
    requires f.Then? && at != []
    ensures was + BatchMap(at, f)
         == was + BatchMap(at, f.before) + BatchMap(at + [f.Name()], f.inner)
            + if f.total.Some? && !f.delete then map[Render(at + [f.Name()]) := Batch(f.idx, f.total.value)] else map[]
  {
    hide Render, Named;
    var a, b := BatchMap(at, f.before), BatchMap(at + [f.Name()], f.inner);
    var entry: map<string, Batch> := if f.total.Some? && !f.delete then map[Render(at + [f.Name()]) := Batch(f.idx, f.total.value)] else map[];
    assert BatchMap(at, f) == a + b + entry;
    hide *;
    MergeAssociates(was, a, b, entry);
  }

  lemma MergeAssociates<V>(a: map<string, V>, b: map<string, V>, c: map<string, V>, d: map<string, V>)
    ensures a + (b + c + d) == a + b + c + d
  {
  }
}
