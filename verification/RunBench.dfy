/**
 `run_bench`: the loop that drives the recorder over all operators.  `Program` is the nest
 of ranges it opens and closes; the method below makes the calls one by one.
 */
module RunBench {
  import opened Text
  import opened Paths
  import opened PyDict
  import opened PerfRecorder
  import opened RecorderRuns
  import opened NestedRuns

  /** One operator and how it behaves: whether it initialises, and the first iteration that fails. */
  datatype Operator = Operator(name: string, initOk: bool, failsAt: Option<nat>, params: string)

  datatype Ending = Completed | NotFinalized | UnboundLocalError

  const INIT := "init_op"
  const RUN := "run_op"
  const ITER := "iter"
  const PARAMS := "op_params"

  /** The operator fails in one of the first `n` iterations. */
  predicate FailsWithin(op: Operator, n: nat) {
    op.failsAt.Some? && op.failsAt.value < n
  }

  predicate Succeeds(op: Operator, n: nat) {
    op.initOk && !FailsWithin(op, n)
  }

  /** How many iterations start. */
  function Started(op: Operator, n: nat): nat {
    if FailsWithin(op, n) then op.failsAt.value + 1 else n
  }

  function Leaf(before: Forest, message: string, delete: bool): Forest {
    Then(before, message, None, None, delete, Nil)
  }

  function Iterations(op: Operator, count: nat, batchSize: int): Forest {
    if count == 0 then Nil
    else Then(Iterations(op, count - 1, batchSize), ITER, Some(count - 1), Some(batchSize), op.failsAt == Some(count - 1), Nil)
  }

  /** The ranges up to and including `run_op`. */
  function Timed(op: Operator, n: nat, batchSize: int): Forest {
    Then(Leaf(Nil, INIT, false), RUN, None, None, FailsWithin(op, n), Iterations(op, Started(op, n), batchSize))
  }

  /** The ranges inside one operator's range. */
  function Inside(op: Operator, n: nat, batchSize: int): Forest {
    if !op.initOk then Leaf(Nil, INIT, true)
    else if FailsWithin(op, n) then Timed(op, n, batchSize)
    else Then(Timed(op, n, batchSize), PARAMS, None, None, false, Leaf(Nil, op.params, false))
  }

  function Program(ops: seq<Operator>, n: nat, batchSize: int): Forest {
    if ops == [] then Nil
    else
      var op := ops[|ops| - 1];
      Then(Program(ops[..|ops| - 1], n, batchSize), op.name, None, None, !Succeeds(op, n), Inside(op, n, batchSize))
  }

  /** The state in which reading the unset `success` raises: `run_op` is still open. */
  ghost function InRunOp(s: State, op: Operator): State {
    Push(RunAll(Push(s, op.name, None), Calls(Leaf(Nil, INIT, false))), RUN, None)
  }

  // ------------------------------------------------------------- the method

  lemma LeafRun(s: State, before: Forest, message: string, idx: Option<int>, total: Option<int>, delete: bool)
    ensures RunAll(s, Calls(Then(before, message, idx, total, delete, Nil)))
         == Pop(Push(RunAll(s, Calls(before)), message, idx), total, delete).0
  {
    hide Push, Pop, RunAll;
    CallsRun(s, Then(before, message, idx, total, delete, Nil));
    NoCalls(Push(RunAll(s, Calls(before)), message, idx));
  }

  lemma NoCalls(s: State)
    ensures RunAll(s, Calls(Nil)) == s
  {
  }

  lemma InnerRun(s: State, before: Forest, message: string, delete: bool, inner: Forest)
    ensures RunAll(s, Calls(Then(before, message, None, None, delete, inner)))
         == Pop(RunAll(Push(RunAll(s, Calls(before)), message, None), Calls(inner)), None, delete).0
  {
    hide Push, Pop, RunAll;
    CallsRun(s, Then(before, message, None, None, delete, inner));
  }

  /** Step 2: the iterations, with `success` as the loop leaves it. */
  method Iterate(perf: CvCudaPerf, op: Operator, numIters: int, batchSize: int, before: Option<bool>) returns (success: Option<bool>)
    modifies perf
    ensures perf.View() == RunAll(old(perf.View()), Calls(Iterations(op, Started(op, if numIters < 0 then 0 else numIters), batchSize)))
    ensures success == if numIters <= 0 then before else Some(!FailsWithin(op, numIters))
  {
    hide Push, Pop, RunAll, Calls, Iterations;
    ghost var s := perf.View();
    success := before;
    NoIterations(s, op, batchSize);
    var i := 0;
    while i < numIters
      invariant 0 <= i && (i == 0 || i <= numIters)
      invariant !FailsWithin(op, i)
      invariant success == if i == 0 then before else Some(true)
      invariant perf.View() == RunAll(s, Calls(Iterations(op, i, batchSize)))
    {
      var ok := op.failsAt != Some(i);
      OneIteration(s, op, i, batchSize);
      perf.PushRange(ITER, Some(i));
      success := Some(ok);
      var r := perf.PopRange(Some(batchSize), !ok);
      if !ok {
        return;
      }
      i := i + 1;
    }
  }

  lemma NoIterations(s: State, op: Operator, batchSize: int)
    ensures RunAll(s, Calls(Iterations(op, 0, batchSize))) == s
  {
  }

  lemma OneIteration(s: State, op: Operator, i: nat, batchSize: int)
    ensures RunAll(s, Calls(Iterations(op, i + 1, batchSize)))
         == Pop(Push(RunAll(s, Calls(Iterations(op, i, batchSize))), ITER, Some(i)), Some(batchSize), op.failsAt == Some(i)).0
  {
    hide Push, Pop, RunAll, Calls;
    LeafRun(s, Iterations(op, i, batchSize), ITER, Some(i), Some(batchSize), op.failsAt == Some(i));
  }

  /** One operator; `bound` says that `success` had a value where it was read. */
  method RunOperator(perf: CvCudaPerf, op: Operator, numIters: int, batchSize: int, before: Option<bool>)
      returns (success: Option<bool>, bound: bool)
    requires numIters <= 0 ==> before == None
    modifies perf
    ensures bound <==> numIters > 0 || !op.initOk
    ensures numIters <= 0 ==> success == None
    ensures var n: nat := if numIters < 0 then 0 else numIters; var s := old(perf.View());
            perf.View() == if bound then Pop(RunAll(Push(s, op.name, None), Calls(Inside(op, n, batchSize))), None, !Succeeds(op, n)).0
                           else InRunOp(s, op)
  {
    ghost var n: nat := if numIters < 0 then 0 else numIters;
    success, bound := before, true;
    perf.PushRange(op.name, None);
    ghost var s := perf.View();
    perf.PushRange(INIT, None);
    if !op.initOk {
      var r := perf.PopRange(None, true);
      r := perf.PopRange(None, true);
      FailedInit(s, op, n, batchSize);
      return;
    }
    var r := perf.PopRange(None, false);
    perf.PushRange(RUN, None);
    ghost var s1 := perf.View();
    success := Iterate(perf, op, numIters, batchSize, before);
    match success
    case None =>
      bound := false;
      RunOpOpen(s, op, batchSize);
    case Some(ok) =>
      r := perf.PopRange(None, !ok);
      if ok {
        perf.PushRange(PARAMS, None);
        perf.PushRange(op.params, None);
        r := perf.PopRange(None, false);
        r := perf.PopRange(None, false);
        r := perf.PopRange(None, false);
      } else {
        r := perf.PopRange(None, true);
      }
      RanOperator(s, op, n, batchSize);
  }

  lemma FailedInit(s: State, op: Operator, n: nat, batchSize: int)
    requires !op.initOk
    ensures RunAll(s, Calls(Inside(op, n, batchSize))) == Pop(Push(s, INIT, None), None, true).0
  {
    hide Push, Pop, RunAll, Calls;
    LeafRun(s, Nil, INIT, None, None, true);
    NoCalls(s);
  }

  lemma RunOpOpen(s: State, op: Operator, batchSize: int)
    ensures RunAll(s, Calls(Leaf(Nil, INIT, false))) == Pop(Push(s, INIT, None), None, false).0
    ensures forall s' :: RunAll(s', Calls(Iterations(op, Started(op, 0), batchSize))) == s'
  {
    hide Push, Pop, RunAll, Calls;
    LeafRun(s, Nil, INIT, None, None, false);
    NoCalls(s);
    forall s' ensures RunAll(s', Calls(Iterations(op, Started(op, 0), batchSize))) == s' {
      NoIterations(s', op, batchSize);
    }
  }

  lemma RanOperator(s: State, op: Operator, n: nat, batchSize: int)
    requires op.initOk
    ensures var s1 := Push(Pop(Push(s, INIT, None), None, false).0, RUN, None);
            var s2 := Pop(RunAll(s1, Calls(Iterations(op, Started(op, n), batchSize))), None, FailsWithin(op, n)).0;
            var s3 := Pop(Pop(Push(Push(s2, PARAMS, None), op.params, None), None, false).0, None, false).0;
            RunAll(s, Calls(Inside(op, n, batchSize))) == (if FailsWithin(op, n) then s2 else s3)
  {
    hide Push, Pop, RunAll, Calls, Started;
    LeafRun(s, Nil, INIT, None, None, false);
    NoCalls(s);
    InnerRun(s, Leaf(Nil, INIT, false), RUN, FailsWithin(op, n), Iterations(op, Started(op, n), batchSize));
    if !FailsWithin(op, n) {
      InnerRun(s, Timed(op, n, batchSize), PARAMS, false, Leaf(Nil, op.params, false));
      var s3 := Push(RunAll(s, Calls(Timed(op, n, batchSize))), PARAMS, None);
      LeafRun(s3, Nil, op.params, None, None, false);
      NoCalls(s3);
    }
  }

  /** The first operator that initialises, or the number of operators. */
  function FirstInit(ops: seq<Operator>): (k: nat)
    ensures k <= |ops|
    ensures forall i :: 0 <= i < k ==> !ops[i].initOk
    ensures k < |ops| ==> ops[k].initOk
  {
    if ops == [] || ops[0].initOk then 0 else 1 + FirstInit(ops[1..])
  }

  /** Stops at the first operator that initialises iff no iteration was asked for.  Otherwise everything that was opened is
      closed, and the recorder is finalized, or refuses to be because it was entered with something open; outside benchmark
      mode it only counts the iterations that started. */
  method RunBench(perf: CvCudaPerf, ops: seq<Operator>, numIters: int, batchSize: int) returns (r: Ending)
    requires perf.isInsideBatch >= 0 && perf.timingInfo.Valid()
    modifies perf
    ensures r == UnboundLocalError <==> numIters <= 0 && exists i :: 0 <= i < |ops| && ops[i].initOk
    ensures r == UnboundLocalError ==>
              var k := FirstInit(ops);
              k < |ops| && perf.View() == InRunOp(RunAll(old(perf.View()), Calls(Program(ops[..k], 0, batchSize))), ops[k])
    ensures r != UnboundLocalError ==>
              var f := Program(ops, if numIters < 0 then 0 else numIters, batchSize);
              var s0, s := old(perf.View()), RunAll(old(perf.View()), Calls(f));
              && (r == NotFinalized <==> s0.benchmark && s0.stack != [])
              && s.stack == s0.stack && (s0.benchmark ==> s.inside == s0.inside)
              && (!s0.benchmark ==> s == s0.(inside := s0.inside + BatchPushes(f)))
              && perf.View() == if r == Completed && s0.benchmark then s.(timing := Survivors(s.timing, s.deleted)) else s
  {
    hide Push, Pop, RunAll, Calls, Inside, InRunOp, Survivors;
    ghost var n: nat := if numIters < 0 then 0 else numIters;
    ghost var s0 := perf.View();
    var success: Option<bool> := None;
    NoCalls(s0);
    for k := 0 to |ops|
      invariant perf.View() == RunAll(s0, Calls(Program(ops[..k], n, batchSize)))
      invariant numIters <= 0 ==> success == None && forall i :: 0 <= i < k ==> !ops[i].initOk
    {
      var bound;
      ghost var was := ops[..k];
      success, bound := RunOperator(perf, ops[k], numIters, batchSize, success);
      if !bound {
        assert ops[k].initOk && FirstInit(ops) == k && n == 0;
        assert perf.View() == InRunOp(RunAll(s0, Calls(Program(was, 0, batchSize))), ops[k]);
        return UnboundLocalError;
      }
      assert ops[..k + 1][..k] == ops[..k];
      InnerRun(s0, Program(ops[..k], n, batchSize), ops[k].name, !Succeeds(ops[k], n), Inside(ops[k], n, batchSize));
    }
    assert ops[..|ops|] == ops;
    ProgramMatched(ops, n, batchSize);
    if s0.benchmark {
      CallsBalanced(s0, Program(ops, n, batchSize));
    } else {
      CallsIdle(s0, Program(ops, n, batchSize));
    }
    var ok := perf.FinalizeDeletions();
    r := Completed;
    if !ok {
      r := NotFinalized;
    }
  }

  lemma {:induction false} ProgramMatched(ops: seq<Operator>, n: nat, batchSize: int)
    ensures Matched(Program(ops, n, batchSize))
  {
    if ops != [] {
      ProgramMatched(ops[..|ops| - 1], n, batchSize);
      IterationsFine(ops[|ops| - 1], Started(ops[|ops| - 1], n), batchSize);
      InsideFine(ops[|ops| - 1], n, batchSize);
    }
  }

  /** The iterations are matched, clean and distinct. */
  lemma {:induction false} IterationsFine(op: Operator, count: nat, batchSize: int)
    ensures var f := Iterations(op, count, batchSize); Matched(f) && Clean(f) && Distinct(f)
    ensures forall i: nat :: Named(ITER, Some(i)) in Tops(Iterations(op, count, batchSize)) ==> i < count
  {
    hide Decimal;
    if count > 0 {
      IterationsFine(op, count - 1, batchSize);
      IterName(count - 1);
      forall i: nat | Named(ITER, Some(i)) in Tops(Iterations(op, count, batchSize)) ensures i < count {
        if Named(ITER, Some(i)) == Named(ITER, Some(count - 1)) { SameIter(i, count - 1); }
      }
    }
  }

  lemma IterName(i: nat)
    ensures Component(Named(ITER, Some(i)))
  {
    DecimalChars(i, '/');
    hide Decimal;
  }

  lemma SameIter(i: nat, j: nat)
    requires Named(ITER, Some(i)) == Named(ITER, Some(j))
    ensures i == j
  {
    hide Decimal;
    assert (ITER + "_" + Decimal(i))[5..] == Decimal(i) && (ITER + "_" + Decimal(j))[5..] == Decimal(j);
    DecimalInjective(i, j);
  }

  lemma InsideFine(op: Operator, n: nat, batchSize: int)
    ensures Matched(Inside(op, n, batchSize)) && Distinct(Inside(op, n, batchSize))
    ensures Succeeds(op, n) ==> Component(op.params) ==> Clean(Inside(op, n, batchSize))
    ensures !Succeeds(op, n) ==> Clean(Inside(op, n, batchSize))
  {
    IterationsFine(op, Started(op, n), batchSize);
    FixedNames();
    var iters := Iterations(op, Started(op, n), batchSize);
    hide Iterations, Started, Decimal, Component;
    var init := Leaf(Nil, INIT, false);
    assert Matched(init) && Clean(init) && Distinct(init) && Tops(init) == {INIT};
    var timed := Timed(op, n, batchSize);
    assert Matched(timed) && Clean(timed) && Distinct(timed) && Tops(timed) == {INIT, RUN};
    assert Distinct(Leaf(Nil, op.params, false));
  }

  lemma FixedNames()
    ensures Component(INIT) && Component(RUN) && Component(PARAMS)
    ensures INIT != RUN && INIT != PARAMS && RUN != PARAMS
  {
    assert INIT[0] != RUN[0] && INIT[0] != PARAMS[0] && RUN[0] != PARAMS[0];
  }

  // ------------------------------------------------------------- which keys survive

  /** Operator names, and the parameter texts that get recorded, are slash-free and not empty. */
  predicate CleanOps(ops: seq<Operator>, n: nat) {
    forall i :: 0 <= i < |ops| ==> Component(ops[i].name) && (Succeeds(ops[i], n) ==> Component(ops[i].params))
  }

  predicate DistinctOps(ops: seq<Operator>) {
    forall i, j :: 0 <= i < j < |ops| ==> ops[i].name != ops[j].name
  }

  lemma {:induction false} ProgramFine(ops: seq<Operator>, n: nat, batchSize: int)
    requires CleanOps(ops, n)
    ensures Clean(Program(ops, n, batchSize))
    ensures DistinctOps(ops) ==> Distinct(Program(ops, n, batchSize))
    ensures forall x :: x in Tops(Program(ops, n, batchSize)) <==> exists i :: 0 <= i < |ops| && ops[i].name == x
  {
    hide Inside, Component, Succeeds;
    if ops != [] {
      var init, op := ops[..|ops| - 1], ops[|ops| - 1];
      ProgramFine(init, n, batchSize);
      InsideFine(op, n, batchSize);
      assert Named(op.name, None) == op.name;
      forall x ensures x in Tops(Program(ops, n, batchSize)) <==> exists i :: 0 <= i < |ops| && ops[i].name == x {
        if i :| 0 <= i < |ops| && ops[i].name == x {
          if i < |init| { assert init[i].name == x; }
        }
        if x in Tops(Program(init, n, batchSize)) {
          var i :| 0 <= i < |init| && init[i].name == x;
          assert ops[i].name == x;
        }
      }
    }
  }

  /** The keys of an operator that fully succeeded: init, iterations in order, run, parameters, the operator. */
  function Kept(root: Path, op: Operator, n: nat): seq<string>
    requires root != []
  {
    [Render(root + [op.name, INIT])] + IterKeys(root + [op.name, RUN], n) + [Render(root + [op.name, RUN])]
    + [Render(root + [op.name, PARAMS, op.params])] + [Render(root + [op.name, PARAMS])] + [Render(root + [op.name])]
  }

  function IterKeys(at: Path, n: nat): seq<string> {
    if n == 0 then [] else IterKeys(at, n - 1) + [Render(at + [Named(ITER, Some(n - 1))])]
  }

  lemma {:induction false} IterationKeys(at: Path, op: Operator, count: nat, batchSize: int)
    requires at != [] && !FailsWithin(op, count)
    ensures Recorded(at, Iterations(op, count, batchSize)) == IterKeys(at, count)
    ensures Gone(at, Iterations(op, count, batchSize)) == []
  {
    hide Render, Named, Recorded, Gone, Iterations, IterKeys;
    if count == 0 {
      NoIterationKeys(at, op, batchSize);
    } else {
      IterationKeys(at, op, count - 1, batchSize);
      LastIteration(at, op, count, batchSize);
    }
  }

  lemma NoIterationKeys(at: Path, op: Operator, batchSize: int)
    requires at != []
    ensures Recorded(at, Iterations(op, 0, batchSize)) == IterKeys(at, 0) && Gone(at, Iterations(op, 0, batchSize)) == []
  {
  }

  lemma LastIteration(at: Path, op: Operator, count: nat, batchSize: int)
    requires at != [] && count > 0 && !FailsWithin(op, count)
    ensures var name := Render(at + [Named(ITER, Some(count - 1))]);
            && Recorded(at, Iterations(op, count, batchSize)) == Recorded(at, Iterations(op, count - 1, batchSize)) + [name]
            && Gone(at, Iterations(op, count, batchSize)) == Gone(at, Iterations(op, count - 1, batchSize)) + []
            && IterKeys(at, count) == IterKeys(at, count - 1) + [name]
  {
    hide Render, Named, Recorded, Gone;
    LeafTables(at, Iterations(op, count - 1, batchSize), ITER, Some(count - 1), Some(batchSize), false);
  }

  lemma LeafTables(at: Path, before: Forest, message: string, idx: Option<int>, total: Option<int>, delete: bool)
    requires at != []
    ensures var f := Then(before, message, idx, total, delete, Nil);
            && Recorded(at, f) == Recorded(at, before) + (if delete then [] else [Render(at + [Named(message, idx)])])
            && Gone(at, f) == Gone(at, before) + if delete then [Render(at + [Named(message, idx)])] else []
  {
    hide Render, Named;
    var f := Then(before, message, idx, total, delete, Nil);
    assert f.Name() == Named(message, idx);
    assert Recorded(at + [Named(message, idx)], Nil) == [] && Gone(at + [Named(message, idx)], Nil) == [];
  }

  lemma NodeTables(at: Path, before: Forest, message: string, inner: Forest)
    requires at != []
    ensures var f := Then(before, message, None, None, false, inner);
            && Recorded(at, f) == Recorded(at, before) + Recorded(at + [message], inner) + [Render(at + [message])]
            && Gone(at, f) == Gone(at, before) + Gone(at + [message], inner)
  {
    hide Render;
    assert Then(before, message, None, None, false, inner).Name() == message;
  }

  /** An operator that succeeds records exactly `Kept`, in that order, and deletes nothing. */
  lemma SuccessRecords(root: Path, op: Operator, n: nat, batchSize: int)
    requires root != [] && Succeeds(op, n)
    ensures Recorded(root + [op.name], Inside(op, n, batchSize)) + [Render(root + [op.name])] == Kept(root, op, n)
    ensures Gone(root + [op.name], Inside(op, n, batchSize)) == []
  {
    var at := root + [op.name];
    IterationKeys(at + [RUN], op, n, batchSize);
    var init, timed, params := Leaf(Nil, INIT, false), Timed(op, n, batchSize), Leaf(Nil, op.params, false);
    LeafTables(at, Nil, INIT, None, None, false);
    NodeTables(at, init, RUN, Iterations(op, n, batchSize));
    LeafTables(at + [PARAMS], Nil, op.params, None, None, false);
    NodeTables(at, timed, PARAMS, params);
    assert Recorded(at, Nil) == [] == Gone(at, Nil) && Recorded(at + [PARAMS], Nil) == [] == Gone(at + [PARAMS], Nil);
    assert at + [RUN] == root + [op.name, RUN] && at + [INIT] == root + [op.name, INIT];
    assert at + [PARAMS] == root + [op.name, PARAMS] && at + [PARAMS] + [op.params] == root + [op.name, PARAMS, op.params];
    hide Render, Iterations, IterKeys, Recorded, Gone, Inside;
    NothingBefore([Render(at + [INIT])]);
    NothingBefore([Render(at + [PARAMS] + [op.params])]);
    assert Inside(op, n, batchSize) == Then(timed, PARAMS, None, None, false, params) by { InsideSuccess(op, n, batchSize); }
    assert Gone(at + [RUN], Iterations(op, n, batchSize)) == [];
    hide *;
  }

  lemma NothingBefore(s: seq<string>)
    ensures [] + s == s
  {
  }

  lemma InsideSuccess(op: Operator, n: nat, batchSize: int)
    requires Succeeds(op, n)
    ensures Inside(op, n, batchSize) == Then(Timed(op, n, batchSize), PARAMS, None, None, false, Leaf(Nil, op.params, false))
  {
  }

  // ------------------------------------------------------------- the tables as texts

  /** The first `n` iterations of the operator at `at`. */
  lemma {:induction false} IterTexts(root: Path, op: Operator, n: nat)
    requires root != []
    ensures IterKeys(root + [op.name, RUN], n) == seq(n, j requires 0 <= j < n => Render(root) + "/" + op.name + "/run_op/iter_" + Decimal(j))
  {
    hide Render, Decimal;
    if n > 0 {
      IterTexts(root, op, n - 1);
      IterText(root, op, n - 1);
    }
  }

  /** The keys of an operator, spelled out. */
  lemma IterText(root: Path, op: Operator, j: nat)
    requires root != []
    ensures Render(root + [op.name, RUN] + [Named(ITER, Some(j))]) == Render(root) + "/" + op.name + "/run_op/iter_" + Decimal(j)
  {
    hide Render, Decimal;
    RunText(root, op);
    Append(root + [op.name, RUN], Named(ITER, Some(j)));
    var base := Render(root) + "/" + op.name;
    assert base + "/run_op" + "/" + ("iter" + "_" + Decimal(j)) == base + "/run_op/iter_" + Decimal(j);
  }

  lemma RunText(root: Path, op: Operator)
    requires root != []
    ensures Render(root + [op.name]) == Render(root) + "/" + op.name
    ensures Render(root + [op.name, INIT]) == Render(root) + "/" + op.name + "/init_op"
    ensures Render(root + [op.name, RUN]) == Render(root) + "/" + op.name + "/run_op"
    ensures Render(root + [op.name, PARAMS]) == Render(root) + "/" + op.name + "/op_params"
    ensures Render(root + [op.name, PARAMS, op.params]) == Render(root) + "/" + op.name + "/op_params/" + op.params
  {
    hide Render;
    var at := root + [op.name];
    Append(root, op.name);
    Append(at, INIT);
    Append(at, RUN);
    Append(at, PARAMS);
    Append(at + [PARAMS], op.params);
    assert at + [INIT] == root + [op.name, INIT] && at + [RUN] == root + [op.name, RUN] && at + [PARAMS] == root + [op.name, PARAMS];
    assert at + [PARAMS] + [op.params] == root + [op.name, PARAMS, op.params];
    var base := Render(root) + "/" + op.name;
    assert base + "/" + "init_op" == base + "/init_op" && base + "/" + "run_op" == base + "/run_op";
    assert base + "/" + "op_params" == base + "/op_params";
    assert base + "/op_params" + "/" + op.params == base + "/op_params/" + op.params;
  }

  /** What one operator leaves in the timing table and in the deleted list.  One that does not initialise records nothing.
      One that fails in an iteration records its initialisation and the iterations before, and deletes that iteration,
      `run_op` and itself. One that succeeds records everything and deletes nothing. */
  lemma OperatorTables(root: Path, op: Operator, n: nat, batchSize: int)
    requires root != []
    ensures var base := Render(root) + "/" + op.name;
            var recorded, gone := OpRecords(root, op, n, batchSize), OpGone(root, op, n, batchSize);
            && (!op.initOk ==> recorded == [] && gone == [base + "/init_op", base])
            && (op.initOk && op.failsAt.Some? && op.failsAt.value < n ==>
                 && recorded == [base + "/init_op"]
                                + seq(op.failsAt.value, j requires 0 <= j < op.failsAt.value => base + "/run_op/iter_" + Decimal(j))
                 && gone == [base + "/run_op/iter_" + Decimal(op.failsAt.value), base + "/run_op", base])
            && (op.initOk && (op.failsAt.None? || op.failsAt.value >= n) ==>
                 && recorded == [base + "/init_op"] + seq(n, j requires 0 <= j < n => base + "/run_op/iter_" + Decimal(j))
                                + [base + "/run_op", base + "/op_params/" + op.params, base + "/op_params", base]
                 && gone == [])
  {
    if !op.initOk {
      NoInitTables(root, op, n, batchSize);
    } else if op.failsAt.Some? && op.failsAt.value < n {
      FailureTexts(root, op, n, batchSize);
    } else {
      SuccessTexts(root, op, n, batchSize);
    }
    hide *;
  }

  lemma SuccessTexts(root: Path, op: Operator, n: nat, batchSize: int)
    requires root != [] && op.initOk && (op.failsAt.None? || op.failsAt.value >= n)
    ensures var base := Render(root) + "/" + op.name;
            && OpRecords(root, op, n, batchSize)
               == [base + "/init_op"] + seq(n, j requires 0 <= j < n => base + "/run_op/iter_" + Decimal(j))
                  + [base + "/run_op", base + "/op_params/" + op.params, base + "/op_params", base]
            && OpGone(root, op, n, batchSize) == []
  {
    SuccessTables(root, op, n, batchSize);
    KeptIs(root, op, n);
    RunText(root, op);
    IterTexts(root, op, n);
    hide *;
  }

  lemma SuccessTables(root: Path, op: Operator, n: nat, batchSize: int)
    requires root != [] && Succeeds(op, n)
    ensures OpRecords(root, op, n, batchSize) == Kept(root, op, n) && OpGone(root, op, n, batchSize) == []
  {
    SuccessRecords(root, op, n, batchSize);
    hide Render, Decimal, Recorded, Gone, Inside, Kept;
  }

  lemma KeptIs(root: Path, op: Operator, n: nat)
    requires root != []
    ensures Kept(root, op, n)
         == [Render(root + [op.name, INIT])] + IterKeys(root + [op.name, RUN], n)
            + [Render(root + [op.name, RUN]), Render(root + [op.name, PARAMS, op.params]), Render(root + [op.name, PARAMS]), Render(root + [op.name])]
  {
    hide Render, IterKeys;
    var front := [Render(root + [op.name, INIT])] + IterKeys(root + [op.name, RUN], n);
    FourLast(front, Render(root + [op.name, RUN]), Render(root + [op.name, PARAMS, op.params]), Render(root + [op.name, PARAMS]), Render(root + [op.name]));
  }

  lemma FourLast(s: seq<string>, a: string, b: string, c: string, d: string)
    ensures s + [a] + [b] + [c] + [d] == s + [a, b, c, d]
  {
  }

  lemma FailureTexts(root: Path, op: Operator, n: nat, batchSize: int)
    requires root != [] && op.initOk && op.failsAt.Some? && op.failsAt.value < n
    ensures var base, i := Render(root) + "/" + op.name, op.failsAt.value;
            && OpRecords(root, op, n, batchSize) == [base + "/init_op"] + seq(i, j requires 0 <= j < i => base + "/run_op/iter_" + Decimal(j))
            && OpGone(root, op, n, batchSize) == [base + "/run_op/iter_" + Decimal(i), base + "/run_op", base]
  {
    FailureTables(root, op, n, batchSize);
    RunText(root, op);
    IterTexts(root, op, op.failsAt.value);
    IterText(root, op, op.failsAt.value);
    hide *;
  }

  lemma NoInitTables(root: Path, op: Operator, n: nat, batchSize: int)
    requires root != [] && !op.initOk
    ensures var base := Render(root) + "/" + op.name;
            OpRecords(root, op, n, batchSize) == [] && OpGone(root, op, n, batchSize) == [base + "/init_op", base]
  {
    RunText(root, op);
    LeafTables(root + [op.name], Nil, INIT, None, None, true);
    assert root + [op.name] + [INIT] == root + [op.name, INIT];
    hide Render;
  }

  lemma FailureTables(root: Path, op: Operator, n: nat, batchSize: int)
    requires root != [] && op.initOk && FailsWithin(op, n)
    ensures var i, run := op.failsAt.value, root + [op.name, RUN];
            && OpRecords(root, op, n, batchSize) == [Render(root + [op.name, INIT])] + IterKeys(run, i)
            && OpGone(root, op, n, batchSize) == [Render(run + [Named(ITER, Some(i))]), Render(run), Render(root + [op.name])]
  {
    var i, at, run := op.failsAt.value, root + [op.name], root + [op.name, RUN];
    var init, iters := Leaf(Nil, INIT, false), Iterations(op, op.failsAt.value + 1, batchSize);
    FailedShape(op, n, batchSize);
    IterationKeys(run, op, i, batchSize);
    LeafTables(at, Nil, INIT, None, None, false);
    LeafTables(run, Iterations(op, i, batchSize), ITER, Some(i), Some(batchSize), true);
    assert at + [INIT] == root + [op.name, INIT] && at + [RUN] == run;
    DeletedTables(at, init, RUN, iters);
    NilTable(at);
    OpTables(root, op, n, batchSize);
    Glue(Render(at + [INIT]), IterKeys(run, i), Render(run + [Named(ITER, Some(i))]), Render(run), Render(at));
    hide *;
  }

  lemma OpTables(root: Path, op: Operator, n: nat, batchSize: int)
    requires root != [] && !Succeeds(op, n)
    ensures OpRecords(root, op, n, batchSize) == Recorded(root + [op.name], Inside(op, n, batchSize)) + []
    ensures OpGone(root, op, n, batchSize) == Gone(root + [op.name], Inside(op, n, batchSize)) + [Render(root + [op.name])]
  {
    hide Render, Inside, Recorded, Gone;
  }

  lemma Glue(a: string, ks: seq<string>, b: string, c: string, d: string)
    ensures [] + [a] + (ks + []) + [] == [a] + ks
    ensures [] + [] + ([] + [b]) + [c] + [d] == [b, c, d]
  {
  }

  lemma NilTable(at: Path)
    requires at != []
    ensures Recorded(at, Nil) == [] && Gone(at, Nil) == []
  {
  }

  /** The ranges of an operator that initialises and fails. */
  lemma FailedShape(op: Operator, n: nat, batchSize: int)
    requires op.initOk && FailsWithin(op, n)
    ensures var i, iters := op.failsAt.value, Iterations(op, op.failsAt.value + 1, batchSize);
            && iters == Then(Iterations(op, i, batchSize), ITER, Some(i), Some(batchSize), true, Nil)
            && Leaf(Nil, INIT, false) == Then(Nil, INIT, None, None, false, Nil)
            && Inside(op, n, batchSize) == Then(Leaf(Nil, INIT, false), RUN, None, None, true, iters)
            && !Succeeds(op, n)
  {
  }

  lemma DeletedTables(at: Path, before: Forest, message: string, inner: Forest)
    requires at != []
    ensures var f := Then(before, message, None, None, true, inner);
            && Recorded(at, f) == Recorded(at, before) + Recorded(at + [message], inner)
            && Gone(at, f) == Gone(at, before) + Gone(at + [message], inner) + [Render(at + [message])]
  {
    hide Render;
    var f := Then(before, message, None, None, true, inner);
    assert f.Name() == message;
    assert Recorded(at, before) + Recorded(at + [message], inner) + [] == Recorded(at, before) + Recorded(at + [message], inner);
  }

  /** Where the loop stands when it reads the unset `success`: the operator and `run_op` are open, and the initialisation is recorded. */
  lemma OpenAtError(root: Path, s: State, keys: seq<string>, deleted: seq<string>, op: Operator)
    requires At(root, s, [], keys, 0, deleted) && Component(op.name)
    ensures At(root, InRunOp(s, op), [op.name, "run_op"], WithKey(keys, Render(root) + "/" + op.name + "/init_op"), 0, deleted)
  {
    FixedNames();
    var s1 := Push(s, op.name, None);
    LeafRun(s1, Nil, INIT, None, None, false);
    NoCalls(s1);
    assert Components(root);
    RunText(root, op);
    PlainNames(op);
    assert root + [op.name, INIT] == root + ([op.name] + [INIT]);
    hide *;
    AtPush(root, s, [], keys, 0, deleted, op.name, None);
    AtPush(root, s1, [op.name], keys, 0, deleted, INIT, None);
    AtPop(root, Push(s1, INIT, None), [op.name, INIT], keys, 0, deleted, None, false);
    AtPush(root, Pop(Push(s1, INIT, None), None, false).0, [op.name], WithKey(keys, Render(root + [op.name, INIT])), 0, deleted, RUN, None);
    InRunOpIs(s, op);
  }

  lemma PlainNames(op: Operator)
    ensures Named(op.name, None) == op.name && Named(INIT, None) == INIT && Named(RUN, None) == RUN && RUN == "run_op"
    ensures [] + [op.name] == [op.name] && [op.name] + [INIT] == [op.name, INIT] && [op.name] + [RUN] == [op.name, RUN]
    ensures [op.name, INIT][..|[op.name, INIT]| - 1] == [op.name]
  {
  }

  lemma InRunOpIs(s: State, op: Operator)
    ensures InRunOp(s, op) == Push(RunAll(Push(s, op.name, None), Calls(Leaf(Nil, INIT, false))), RUN, None)
    ensures Leaf(Nil, INIT, false) == Then(Nil, INIT, None, None, false, Nil)
  {
    hide Push, RunAll;
  }

  /** Everything a clean program records or deletes lies strictly below where it starts. */
  lemma {:induction false} AllBelow(at: Path, f: Forest, k: string) returns (p: Path)
    requires Components(at) && Clean(f) && (k in Recorded(at, f) || k in Gone(at, f))
    ensures Components(p) && at < p && k == Render(p)
    decreases f
  {
    hide Render, Named, Component;
    var here := at + [f.Name()];
    if k in Recorded(at, f.before) || k in Gone(at, f.before) {
      p := AllBelow(at, f.before, k);
    } else if k in Recorded(here, f.inner) || k in Gone(here, f.inner) {
      p := AllBelow(here, f.inner, k);
    } else {
      p := here;
    }
  }

  /** Below operator `b`, the prefix left by a failed operator `a` matches iff `a`'s name is a prefix of `b`'s. */
  lemma PrefixOfName(root: Path, a: string, b: string, p: Path)
    requires Components(root) && Component(a) && Components(p) && root + [b] <= p
    ensures Render(root + [a]) <= Render(p) <==> a <= b
  {
    hide Render;
    var q := root + [a];
    PrefixMeaning(q, p);
    assert p[|root|] == (root + [b])[|root|] == b;
    assert p[..|root|] == (root + [b])[..|root|] == root == q[..|root|];
    if a == b { assert p[..|q|] == q; }
    if q <= p { assert q[|root|] == p[|root|]; }
  }

  lemma {:induction false} ProgramRecords(root: Path, ops: seq<Operator>, n: nat, batchSize: int, k: string)
    requires Components(root) && CleanOps(ops, n)
    ensures k in Recorded(root, Program(ops, n, batchSize)) <==>
            exists i :: 0 <= i < |ops| && k in OpRecords(root, ops[i], n, batchSize)
  {
    if ops == [] {
      NothingRecorded(root, n, batchSize);
    } else {
      hide *;
      var init, op := ops[..|ops| - 1], ops[|ops| - 1];
      ProgramRecords(root, init, n, batchSize, k) by { CleanInit(ops, n); }
      RecordsSnoc(root, ops, n, batchSize);
      OneMoreOperator(root, ops, init, n, batchSize, k);
    }
  }

  lemma OneMoreOperator(root: Path, ops: seq<Operator>, init: seq<Operator>, n: nat, batchSize: int, k: string)
    requires root != [] && ops != [] && init == ops[..|ops| - 1]
    ensures (exists i :: 0 <= i < |ops| && k in OpRecords(root, ops[i], n, batchSize))
       <==> (exists i :: 0 <= i < |init| && k in OpRecords(root, init[i], n, batchSize)) || k in OpRecords(root, ops[|ops| - 1], n, batchSize)
  {
    hide *;
    if i :| 0 <= i < |ops| && k in OpRecords(root, ops[i], n, batchSize) {
      if i < |init| { assert k in OpRecords(root, init[i], n, batchSize); }
    }
    if i :| 0 <= i < |init| && k in OpRecords(root, init[i], n, batchSize) {
      assert k in OpRecords(root, ops[i], n, batchSize);
    }
  }

  lemma CleanInit(ops: seq<Operator>, n: nat)
    requires ops != [] && CleanOps(ops, n)
    ensures CleanOps(ops[..|ops| - 1], n)
  {
    hide Component, Succeeds;
  }

  lemma NothingRecorded(root: Path, n: nat, batchSize: int)
    requires root != []
    ensures Recorded(root, Program([], n, batchSize)) == []
  {
  }

  lemma RecordsSnoc(root: Path, ops: seq<Operator>, n: nat, batchSize: int)
    requires root != [] && ops != []
    ensures Recorded(root, Program(ops, n, batchSize))
         == Recorded(root, Program(ops[..|ops| - 1], n, batchSize)) + OpRecords(root, ops[|ops| - 1], n, batchSize)
    ensures Gone(root, Program(ops, n, batchSize))
         == Gone(root, Program(ops[..|ops| - 1], n, batchSize)) + OpGone(root, ops[|ops| - 1], n, batchSize)
  {
    hide Inside, Render, Succeeds;
    assert Named(ops[|ops| - 1].name, None) == ops[|ops| - 1].name;
  }

  /** What one operator records, whether or not it is deleted later. */
  function OpRecords(root: Path, op: Operator, n: nat, batchSize: int): seq<string>
    requires root != []
  {
    Recorded(root + [op.name], Inside(op, n, batchSize)) + if Succeeds(op, n) then [Render(root + [op.name])] else []
  }

  function OpGone(root: Path, op: Operator, n: nat, batchSize: int): seq<string>
    requires root != []
  {
    Gone(root + [op.name], Inside(op, n, batchSize)) + if Succeeds(op, n) then [] else [Render(root + [op.name])]
  }

  lemma {:induction false} ProgramDeletes(root: Path, ops: seq<Operator>, n: nat, batchSize: int, d: string)
    requires Components(root) && CleanOps(ops, n)
    ensures d in Gone(root, Program(ops, n, batchSize)) <==>
            exists i :: 0 <= i < |ops| && d in OpGone(root, ops[i], n, batchSize)
  {
    hide Inside, Render, Component, Succeeds;
    if ops != [] {
      var init, op := ops[..|ops| - 1], ops[|ops| - 1];
      ProgramDeletes(root, init, n, batchSize, d);
      assert Named(op.name, None) == op.name;
      if i :| 0 <= i < |ops| && d in OpGone(root, ops[i], n, batchSize) {
        if i < |init| { assert d in OpGone(root, init[i], n, batchSize); }
      }
      if i :| 0 <= i < |init| && d in OpGone(root, init[i], n, batchSize) {
        assert d in OpGone(root, ops[i], n, batchSize);
      }
    }
  }

  /** The ranges an operator deletes all start with its own path, and a failed operator deletes that path itself. */
  lemma OpGoneMeaning(root: Path, op: Operator, n: nat, batchSize: int, d: string)
    requires Components(root) && CleanOps([op], n)
    ensures d in OpGone(root, op, n, batchSize) ==> !Succeeds(op, n) && Render(root + [op.name]) <= d
    ensures !Succeeds(op, n) ==> Render(root + [op.name]) in OpGone(root, op, n, batchSize)
  {
    assert [op][0] == op;
    if Succeeds(op, n) {
      SuccessRecords(root, op, n, batchSize);
      hide Inside, Succeeds, Render;
    } else if d in Gone(root + [op.name], Inside(op, n, batchSize)) {
      InsideFine(op, n, batchSize);
      hide Inside, Succeeds, Render;
      var p := AllBelow(root + [op.name], Inside(op, n, batchSize), d);
      RenderPrefix(root + [op.name], p);
    }
  }

  /** A key is spared iff it does not start with the path of an operator that failed. */
  lemma SparedByFailures(root: Path, ops: seq<Operator>, n: nat, batchSize: int, k: string)
    requires Components(root) && CleanOps(ops, n)
    ensures Spared(k, Gone(root, Program(ops, n, batchSize)))
       <==> forall j :: 0 <= j < |ops| && !Succeeds(ops[j], n) ==> !(Render(root + [ops[j].name]) <= k)
  {
    hide Program, OpGone, Render, Component, Spared, Succeeds;
    var gone := Gone(root, Program(ops, n, batchSize));
    SparedByMember(k, gone);
    if d :| d in gone && d <= k {
      ProgramDeletes(root, ops, n, batchSize, d);
      var i :| 0 <= i < |ops| && d in OpGone(root, ops[i], n, batchSize);
      OpGoneMeaning(root, ops[i], n, batchSize, d);
    }
    if j :| 0 <= j < |ops| && !Succeeds(ops[j], n) && Render(root + [ops[j].name]) <= k {
      var d := Render(root + [ops[j].name]);
      OpGoneMeaning(root, ops[j], n, batchSize, d);
      ProgramDeletes(root, ops, n, batchSize, d);
    }
  }

  /** The recorder after the whole loop, just before it finalizes. */
  ghost function After(s: State, ops: seq<Operator>, n: nat, batchSize: int): State {
    RunAll(s, Calls(Program(ops, n, batchSize)))
  }

  /** The loop ends at the object's own path with nothing open, whatever failed. */
  lemma EndsWhereItBegan(root: Path, s: State, keys: seq<string>, ops: seq<Operator>, n: nat, batchSize: int)
    requires At(root, s, [], keys, 0, []) && CleanOps(ops, n)
    ensures var s' := After(s, ops, n, batchSize);
            && At(root, s', [], AddAll(keys, Recorded(root, Program(ops, n, batchSize))), 0, Gone(root, Program(ops, n, batchSize)))
            && s'.stack == [] && s'.inside == 0 && s'.stackPath == s'.objName == Render(root)
  {
    ProgramMatched(ops, n, batchSize);
    ProgramFine(ops, n, batchSize);
    assert root != [];
    assert root + [] == root;
    assert [] + Gone(root, Program(ops, n, batchSize)) == Gone(root, Program(ops, n, batchSize));
    hide Program, At, RunAll, Calls, Clean, Matched, Recorded, Gone, AddAll, Render;
    CallsAt(root, s, [], keys, 0, [], Program(ops, n, batchSize));
    AtKeys(root, After(s, ops, n, batchSize), [], AddAll(keys, Recorded(root, Program(ops, n, batchSize))), 0, Gone(root, Program(ops, n, batchSize)));
  }

  /** The key belongs to an operator that fully succeeded. */
  ghost predicate OfSuccess(root: Path, ops: seq<Operator>, n: nat, k: string)
    requires root != []
  {
    exists i :: 0 <= i < |ops| && Succeeds(ops[i], n) && k in Kept(root, ops[i], n)
  }

  /** The key starts with the path of an operator that failed. */
  ghost predicate UnderFailure(root: Path, ops: seq<Operator>, n: nat, k: string)
  {
    exists j :: 0 <= j < |ops| && !Succeeds(ops[j], n) && Render(root + [ops[j].name]) <= k
  }

  /** Exactly these keys survive: those of earlier ranges and of successful operators that no failed operator's path is a string prefix of. */
  lemma SurvivorsExact(root: Path, s: State, keys: seq<string>, ops: seq<Operator>, n: nat, batchSize: int, k: string)
    requires At(root, s, [], keys, 0, []) && CleanOps(ops, n)
    ensures root != []
    ensures var s' := After(s, ops, n, batchSize);
            (k in Survivors(s'.timing, s'.deleted).keys <==>
               (k in keys || OfSuccess(root, ops, n, k)) && !UnderFailure(root, ops, n, k))
  {
    EndsWhereItBegan(root, s, keys, ops, n, batchSize);
    assert Components(root);
    var p := Program(ops, n, batchSize);
    SurvivorKeys(After(s, ops, n, batchSize), k);
    AtKeys(root, After(s, ops, n, batchSize), [], AddAll(keys, Recorded(root, p)), 0, Gone(root, p));
    hide Program, At, RunAll, Calls, Spared, Component, After, Kept, OpRecords, Render, Succeeds, AddAll, Survivors, CleanOps;
    AddAllMembers(keys, Recorded(root, p), k);
    SparedByFailures(root, ops, n, batchSize, k);
    ProgramRecords(root, ops, n, batchSize, k);
    if i :| 0 <= i < |ops| && k in OpRecords(root, ops[i], n, batchSize) {
      RecordsOrFails(root, ops, i, n, batchSize, k);
    }
    if i :| 0 <= i < |ops| && Succeeds(ops[i], n) && k in Kept(root, ops[i], n) {
      RecordsOrFails(root, ops, i, n, batchSize, k);
    }
  }

  lemma SurvivorKeys(s: State, k: string)
    ensures k in Survivors(s.timing, s.deleted).keys <==> k in s.timing.keys && Spared(k, s.deleted)
  {
    hide Spared;
  }

  lemma RecordsOrFails(root: Path, ops: seq<Operator>, i: nat, n: nat, batchSize: int, k: string)
    requires Components(root) && CleanOps(ops, n) && i < |ops|
    ensures var op := ops[i];
            && (Succeeds(op, n) ==> (k in OpRecords(root, op, n, batchSize) <==> k in Kept(root, op, n)))
            && (!Succeeds(op, n) && k in OpRecords(root, op, n, batchSize) ==> Render(root + [op.name]) <= k)
  {
    var op := ops[i];
    if Succeeds(op, n) {
      SuccessRecords(root, op, n, batchSize);
    } else if k in OpRecords(root, op, n, batchSize) {
      InsideFine(op, n, batchSize);
      hide Inside, Render;
      var p := AllBelow(root + [op.name], Inside(op, n, batchSize), k);
      RenderPrefix(root + [op.name], p);
    }
  }

  lemma KeptBelow(root: Path, op: Operator, n: nat, k: string) returns (p: Path)
    requires Components(root) && CleanOps([op], n) && Succeeds(op, n) && k in Kept(root, op, n)
    ensures Components(p) && root + [op.name] <= p && k == Render(p)
  {
    assert [op][0] == op;
    SuccessRecords(root, op, n, 0);
    InsideFine(op, n, 0);
    hide Inside, Render, Kept;
    if k == Render(root + [op.name]) {
      p := root + [op.name];
    } else {
      p := AllBelow(root + [op.name], Inside(op, n, 0), k);
    }
  }

  /** All keys of a successful operator survive if no failed operator's name is a string prefix of its name, and none does otherwise. */
  lemma SuccessSurvives(root: Path, s: State, keys: seq<string>, ops: seq<Operator>, n: nat, batchSize: int, i: nat, k: string)
    requires At(root, s, [], keys, 0, []) && CleanOps(ops, n)
    requires i < |ops| && Succeeds(ops[i], n) && root != [] && k in Kept(root, ops[i], n)
    ensures var s' := After(s, ops, n, batchSize);
            k in Survivors(s'.timing, s'.deleted).keys <==> !exists j :: 0 <= j < |ops| && !Succeeds(ops[j], n) && ops[j].name <= ops[i].name
  {
    SurvivorsExact(root, s, keys, ops, n, batchSize, k);
    assert Components(root);
    hide Program, At, RunAll, Calls, Spared, After, Kept, Render, Succeeds, Survivors;
    var p := KeptBelow(root, ops[i], n, k);
    assert OfSuccess(root, ops, n, k);
    forall j | 0 <= j < |ops| ensures Render(root + [ops[j].name]) <= k <==> ops[j].name <= ops[i].name {
      PrefixOfName(root, ops[j].name, ops[i].name, p);
    }
  }

  /** The surviving keys are exactly the earlier ones and those of the successful operators iff no failed operator's path is a string prefix of one of them. */
  lemma SurvivorsAreSuccessesIff(root: Path, s: State, keys: seq<string>, ops: seq<Operator>, n: nat, batchSize: int)
    requires At(root, s, [], keys, 0, []) && CleanOps(ops, n) && root != []
    ensures var s' := After(s, ops, n, batchSize);
            ((forall k :: k in Survivors(s'.timing, s'.deleted).keys <==> k in keys || OfSuccess(root, ops, n, k)) <==>
             (forall j :: 0 <= j < |ops| && !Succeeds(ops[j], n) ==>
               && (forall i :: 0 <= i < |ops| && Succeeds(ops[i], n) ==> !(ops[j].name <= ops[i].name))
               && (forall k :: k in keys ==> !(Render(root + [ops[j].name]) <= k))))
  {
    var s' := After(s, ops, n, batchSize);
    var kept := Survivors(s'.timing, s'.deleted).keys;
    hide Program, At, RunAll, Calls, Spared, After, Kept, Render, Succeeds, Survivors, CleanOps, OfSuccess, UnderFailure;
    forall k ensures k in kept <==> (k in keys || OfSuccess(root, ops, n, k)) && !UnderFailure(root, ops, n, k) {
      SurvivorsExact(root, s, keys, ops, n, batchSize, k);
    }
    if forall j :: 0 <= j < |ops| && !Succeeds(ops[j], n) ==>
               && (forall i :: 0 <= i < |ops| && Succeeds(ops[i], n) ==> !(ops[j].name <= ops[i].name))
               && (forall k :: k in keys ==> !(Render(root + [ops[j].name]) <= k))
    {
      forall k | k in keys || OfSuccess(root, ops, n, k) ensures !UnderFailure(root, ops, n, k) {
        NotUnderFailure(root, s, keys, ops, n, batchSize, k);
      }
    } else {
      var j :| 0 <= j < |ops| && !Succeeds(ops[j], n)
            && ((exists i :: 0 <= i < |ops| && Succeeds(ops[i], n) && ops[j].name <= ops[i].name)
                || (exists k :: k in keys && Render(root + [ops[j].name]) <= k));
      var k := FailureHits(root, s, keys, ops, n, batchSize, j);
    }
  }

  lemma NotUnderFailure(root: Path, s: State, keys: seq<string>, ops: seq<Operator>, n: nat, batchSize: int, k: string)
    requires At(root, s, [], keys, 0, []) && CleanOps(ops, n) && root != []
    requires k in keys || OfSuccess(root, ops, n, k)
    requires forall j :: 0 <= j < |ops| && !Succeeds(ops[j], n) ==>
               && (forall i :: 0 <= i < |ops| && Succeeds(ops[i], n) ==> !(ops[j].name <= ops[i].name))
               && (forall k :: k in keys ==> !(Render(root + [ops[j].name]) <= k))
    ensures !UnderFailure(root, ops, n, k)
  {
    if k !in keys {
      var i :| 0 <= i < |ops| && Succeeds(ops[i], n) && k in Kept(root, ops[i], n);
      SuccessSurvives(root, s, keys, ops, n, batchSize, i, k);
      SurvivorsExact(root, s, keys, ops, n, batchSize, k);
      hide *;
    }
  }

  lemma FailureHits(root: Path, s: State, keys: seq<string>, ops: seq<Operator>, n: nat, batchSize: int, j: nat) returns (k: string)
    requires At(root, s, [], keys, 0, []) && CleanOps(ops, n) && root != []
    requires j < |ops| && !Succeeds(ops[j], n)
    requires (exists i :: 0 <= i < |ops| && Succeeds(ops[i], n) && ops[j].name <= ops[i].name)
          || (exists k :: k in keys && Render(root + [ops[j].name]) <= k)
    ensures (k in keys || OfSuccess(root, ops, n, k)) && UnderFailure(root, ops, n, k)
  {
    hide At, CleanOps, Succeeds, Render;
    if k0 :| k0 in keys && Render(root + [ops[j].name]) <= k0 {
      k := k0;
    } else {
      var i :| 0 <= i < |ops| && Succeeds(ops[i], n) && ops[j].name <= ops[i].name;
      k := Render(root + [ops[i].name]);
      KeptSelf(root, ops[i], n);
      SuccessSurvives(root, s, keys, ops, n, batchSize, i, k);
      SurvivorsExact(root, s, keys, ops, n, batchSize, k);
    }
  }

  lemma KeptSelf(root: Path, op: Operator, n: nat)
    requires root != []
    ensures Render(root + [op.name]) in Kept(root, op, n)
  {
    var k := Kept(root, op, n);
    assert k[|k| - 1] == Render(root + [op.name]);
  }

  // ------------------------------------------------------------- names that interfere

  /** A failed operator takes with it every operator whose name continues its own: nothing of `b` is left. */
  lemma FailureErasesLongerName(root: Path, a: Operator, b: Operator, n: nat, batchSize: int, k: string)
    requires Components(root) && CleanOps([a, b], n) && !Succeeds(a, n) && Succeeds(b, n) && a.name <= b.name
    ensures var s' := After(Initial(Render(root), true), [a, b], n, batchSize);
            k !in Survivors(s'.timing, s'.deleted).keys
  {
    var s := Initial(Render(root), true);
    var ops := [a, b];
    AtInitial(root);
    assert ops[0] == a && ops[1] == b;
    hide At, After, Survivors, Kept, Succeeds, Initial, Render;
    SurvivorsExact(root, s, [], ops, n, batchSize, k);
    if OfSuccess(root, ops, n, k) {
      var i :| 0 <= i < |ops| && Succeeds(ops[i], n) && k in Kept(root, ops[i], n);
      SuccessSurvives(root, s, [], ops, n, batchSize, i, k);
    }
  }

  // ------------------------------------------------------------- a good run

  /** With distinct clean names the loop hands well-recorded tables to the post-processing. */
  lemma BenchWellRecorded(root: Path, s: State, seen: set<Path>, ops: seq<Operator>, n: nat, batchSize: int)
    requires AllInv(root, s, seen) && s.stack == [] && CleanOps(ops, n) && DistinctOps(ops)
    requires forall i, q :: 0 <= i < |ops| && q in seen ==> !(root + [ops[i].name] <= q)
    ensures var s' := After(s, ops, n, batchSize);
            WellRecorded(root, Survivors(s'.timing, s'.deleted).keys, s'.batchInfo, s'.insideInfo, s'.totals)
  {
    ProgramMatched(ops, n, batchSize);
    ProgramFine(ops, n, batchSize);
    var p := Program(ops, n, batchSize);
    IdleStart(root, s, seen);
    hide AllInv, Program, Matched, Clean, Distinct, WellRecorded, Cur;
    assert Unseen(root, Tops(p), seen);
    CallsGood(root, s, p, seen);
    CallsBalanced(s, p);
    RunKeepsAll(root, s, Calls(p), seen);
    EmptyStackWellRecorded(root, After(s, ops, n, batchSize), OpenedAll(root, s, Calls(p), seen));
  }

  lemma IdleStart(root: Path, s: State, seen: set<Path>)
    requires AllInv(root, s, seen) && s.stack == []
    ensures s.benchmark && s.timing.Valid() && s.inside == 0 && Cur(root, s) == root
  {
  }
}
