/**
 Where `stack_path` goes when messages contain slashes: the path after a well-nested
 program is a function of the path before it, and `run_bench` ends at the object's own
 path iff no parameter text that it pushes has a slash.
 */
module RunPaths {
  import opened Text
  import opened Paths
  import opened PerfRecorder
  import opened RecorderRuns
  import opened NestedRuns
  import opened RunBench

  /** The path after the calls of a forest: join on the way in, dirname on the way out. */
  function PathAfter(p: string, f: Forest): string
    decreases f
  {
    if f.Nil? then p else Dirname(PathAfter(Join(PathAfter(p, f.before), f.Name()), f.inner))
  }

  lemma {:induction false} PathOfRun(s: State, f: Forest)
    requires s.benchmark && s.timing.Valid() && s.inside >= 0 && Matched(f)
    ensures RunAll(s, Calls(f)).stackPath == PathAfter(s.stackPath, f)
    decreases f
  {
    hide Do, Join, Dirname, Named, Calls;
    if f.Nil? {
      NoCalls(s);
    } else {
      CallsRun(s, f);
      CallsBalanced(s, f.before);
      PathOfRun(s, f.before);
      var s1 := RunAll(s, Calls(f.before));
      var s2 := Do(s1, PushOp(f.message, f.idx));
      PushBalance(s1, f.message, f.idx);
      PushPath(s1, f.message, f.idx);
      CallsBalanced(s2, f.inner);
      PathOfRun(s2, f.inner);
      PopPath(RunAll(s2, Calls(f.inner)), f.total, f.delete);
    }
  }

  lemma PushPath(s: State, message: string, idx: Option<int>)
    requires s.benchmark
    ensures Do(s, PushOp(message, idx)).stackPath == Join(s.stackPath, Named(message, idx))
  {
    hide Join, Named;
  }

  lemma PopPath(s: State, total: Option<int>, delete: bool)
    requires s.benchmark && s.stack != [] && (total.Some? ==> s.inside > 0)
    ensures Do(s, PopOp(total, delete)).stackPath == Dirname(s.stackPath)
  {
    PopShape([], s, total, delete);
    DoIs(s, PopOp(total, delete));
    hide Pop, Dirname;
  }

  // ------------------------------------------------------------- kinds of paths

  predicate Absolute(p: string) {
    p != "" && p[0] == '/'
  }

  /** Neither starts nor ends with a slash. */
  predicate Inner(p: string) {
    p != "" && p[0] != '/' && p[|p| - 1] != '/'
  }

  /** A path that starts with a slash stays such a path, whatever is pushed and popped. */
  lemma {:induction false} StaysAbsolute(p: string, f: Forest)
    requires Absolute(p)
    ensures Absolute(PathAfter(p, f))
    decreases f
  {
    hide Dirname, Named;
    if f.Then? {
      StaysAbsolute(p, f.before);
      var q := Join(PathAfter(p, f.before), f.Name());
      StaysAbsolute(q, f.inner);
      DirnameKeepsSlash(PathAfter(q, f.inner));
    }
  }

  /** Clean messages are taken off again. */
  lemma {:induction false} CleanRestores(p: string, f: Forest)
    requires Inner(p) && Clean(f)
    ensures PathAfter(p, f) == p
    decreases f
  {
    hide Dirname, Named;
    if f.Then? {
      CleanRestores(p, f.before);
      JoinInner(p, f.Name());
      CleanRestores(Join(p, f.Name()), f.inner);
      DirnameUndoesJoin(p, f.Name());
    }
  }

  lemma JoinInner(p: string, c: string)
    requires Inner(p) && Component(c)
    ensures Join(p, c) == p + "/" + c && Inner(Join(p, c))
  {
    assert c[0] in c && c[|c| - 1] in c;
  }

  /** Below `p`, strictly. */
  predicate Below(p: string, q: string) {
    p + "/" <= q
  }

  /** `dirname` of what lies below a path lies at or below the path, and is again no path that ends with a slash. */
  lemma DirnameBelow(p: string, q: string)
    requires Inner(p) && Below(p, q)
    ensures p <= Dirname(q) && Inner(Dirname(q))
  {
    hide AfterLastSlash, StripSlashes;
    var i := AfterLastSlash(q);
    assert q[|p|] == '/' && i > |p|;
    var head := q[..i];
    assert head[0] == p[0] && head[|p| - 1] == p[|p| - 1];
    StripKeeps(head, |p| - 1);
    assert Dirname(q) == StripSlashes(head);
    assert Dirname(q) <= head && p <= head;
  }

  /** A relative message with a slash leaves something below the path. */
  lemma SlashStaysBelow(p: string, m: string)
    requires Inner(p) && '/' in m && m[0] != '/'
    ensures Below(p, Dirname(Join(p, m))) && Inner(Dirname(Join(p, m)))
  {
    hide AfterLastSlash, StripSlashes;
    var q := Join(p, m);
    assert q == p + "/" + m;
    var k :| 0 <= k < |m| && m[k] == '/';
    assert q[|p| + 1 + k] == '/';
    var head := q[..AfterLastSlash(q)];
    assert head[0] == p[0] && head[|p| + 1] == m[0];
    StripKeeps(head, |p| + 1);
    assert Dirname(q) == StripSlashes(head);
    assert Dirname(q) <= head && p + "/" <= head;
  }

  // ------------------------------------------------------------- one operator

  /** What one operator does to the path. */
  function OverOperator(p: string, op: Operator, n: nat, batchSize: int): string {
    Dirname(PathAfter(Join(p, op.name), Inside(op, n, batchSize)))
  }

  /** The operator succeeds, so its parameter text is pushed, and the text has a slash. */
  predicate Slashed(op: Operator, n: nat) {
    Succeeds(op, n) && '/' in op.params
  }

  lemma TimedClean(op: Operator, n: nat, batchSize: int)
    ensures Clean(Timed(op, n, batchSize))
  {
    IterationsFine(op, Started(op, n), batchSize);
    FixedNames();
    hide Iterations, Started, Component;
    assert Clean(Leaf(Nil, INIT, false));
  }

  /** The three pops after the parameter text. */
  lemma ParamsPath(p: string, op: Operator, n: nat, batchSize: int)
    requires Inner(p) && Component(op.name) && Succeeds(op, n)
    ensures OverOperator(p, op, n, batchSize) == Dirname(Dirname(Dirname(Join(p + "/" + op.name + "/" + PARAMS, op.params))))
  {
    JoinInner(p, op.name);
    var q := Join(p, op.name);
    FixedNames();
    JoinInner(q, PARAMS);
    TimedClean(op, n, batchSize);
    InsideSuccess(op, n, batchSize);
    hide Inside, Timed, Dirname, Join, Component;
    CleanRestores(q, Timed(op, n, batchSize));
    assert PathAfter(Join(q, PARAMS), Leaf(Nil, op.params, false)) == Dirname(Join(Join(q, PARAMS), op.params));
    assert Join(q, PARAMS) == p + "/" + op.name + "/" + PARAMS;
  }

  /** Nothing is left behind without a slash. */
  lemma PlainOperator(p: string, op: Operator, n: nat, batchSize: int)
    requires Inner(p) && Component(op.name) && !Slashed(op, n)
    ensures OverOperator(p, op, n, batchSize) == p
  {
    JoinInner(p, op.name);
    var q := Join(p, op.name);
    DirnameUndoesJoin(p, op.name);
    if Succeeds(op, n) {
      ParamsPath(p, op, n, batchSize);
      FixedNames();
      JoinInner(q, PARAMS);
      DirnameUndoesJoin(Join(q, PARAMS), op.params);
      DirnameUndoesJoin(q, PARAMS);
    } else {
      InsideFine(op, n, batchSize);
      hide Dirname, Inside;
      CleanRestores(q, Inside(op, n, batchSize));
    }
  }

  /** A slash leaves a path below the operator's own, or an absolute one. */
  lemma SlashedOperator(p: string, op: Operator, n: nat, batchSize: int)
    requires Inner(p) && Component(op.name) && Slashed(op, n)
    ensures var r := OverOperator(p, op, n, batchSize); Absolute(r) || (Inner(r) && |r| > |p|)
  {
    JoinInner(p, op.name);
    var q := Join(p, op.name);
    FixedNames();
    JoinInner(q, PARAMS);
    ParamsPath(p, op, n, batchSize);
    var at := Join(q, PARAMS);
    var r := Dirname(Join(at, op.params));
    hide Dirname, OverOperator;
    if op.params[0] == '/' {
      DirnameKeepsSlash(Join(at, op.params));
      DirnameKeepsSlash(r);
      DirnameKeepsSlash(Dirname(r));
    } else {
      SlashStaysBelow(at, op.params);
      DirnameBelow(at, r);
      assert Below(q, Dirname(r));
      DirnameBelow(q, Dirname(r));
    }
  }

  // ------------------------------------------------------------- the whole loop

  lemma {:induction false} ProgramPath(p: string, ops: seq<Operator>, n: nat, batchSize: int)
    requires Inner(p) && forall i :: 0 <= i < |ops| ==> Component(ops[i].name)
    ensures var r := PathAfter(p, Program(ops, n, batchSize));
            && (r == p || Absolute(r) || (Inner(r) && |r| > |p|))
            && (r == p <==> NoneSlashed(ops, n))
  {
    hide Dirname, PathAfter, Program, OverOperator, Component, Slashed;
    if ops == [] {
      NoOperators(p, n, batchSize);
    } else {
      var init, op := ops[..|ops| - 1], ops[|ops| - 1];
      ProgramPath(p, init, n, batchSize);
      ProgramSnoc(p, ops, n, batchSize);
      SlashedSnoc(ops, n);
      hide NoneSlashed;
      OneMoreOperator(PathAfter(p, Program(init, n, batchSize)), op, n, batchSize);
    }
  }

  ghost predicate NoneSlashed(ops: seq<Operator>, n: nat) {
    forall i :: 0 <= i < |ops| ==> !Slashed(ops[i], n)
  }

  lemma SlashedSnoc(ops: seq<Operator>, n: nat)
    requires ops != []
    ensures NoneSlashed(ops, n) <==> NoneSlashed(ops[..|ops| - 1], n) && !Slashed(ops[|ops| - 1], n)
  {
    hide Slashed;
    var init := ops[..|ops| - 1];
    forall i | 0 <= i < |init| ensures init[i] == ops[i] {
    }
  }

  lemma NoOperators(p: string, n: nat, batchSize: int)
    ensures PathAfter(p, Program([], n, batchSize)) == p
  {
  }

  lemma OneMoreOperator(p: string, op: Operator, n: nat, batchSize: int)
    requires Component(op.name) && (Absolute(p) || Inner(p))
    ensures var r := OverOperator(p, op, n, batchSize);
            && (Absolute(p) ==> Absolute(r))
            && (Inner(p) ==> r == p || Absolute(r) || (Inner(r) && |r| > |p|))
            && (Inner(p) ==> (r == p <==> !Slashed(op, n)))
  {
    hide OverOperator, Component, Slashed;
    if Absolute(p) {
      AbsoluteOperator(p, op, n, batchSize);
    } else if Slashed(op, n) {
      SlashedOperator(p, op, n, batchSize);
    } else {
      PlainOperator(p, op, n, batchSize);
    }
  }

  lemma ProgramSnoc(p: string, ops: seq<Operator>, n: nat, batchSize: int)
    requires ops != []
    ensures PathAfter(p, Program(ops, n, batchSize)) == OverOperator(PathAfter(p, Program(ops[..|ops| - 1], n, batchSize)), ops[|ops| - 1], n, batchSize)
  {
    hide Inside, Join, Dirname;
  }

  lemma AbsoluteOperator(p: string, op: Operator, n: nat, batchSize: int)
    requires Absolute(p)
    ensures Absolute(OverOperator(p, op, n, batchSize))
  {
    hide Dirname, Inside;
    var q := Join(p, op.name);
    StaysAbsolute(q, Inside(op, n, batchSize));
    DirnameKeepsSlash(PathAfter(q, Inside(op, n, batchSize)));
  }

  /** For every list of operators with clean names and every parameter text: the loop ends with nothing open,
      and at the object's own path iff no operator that succeeds has a slash in its parameter text. */
  lemma SlashInParams(root: Path, s: State, ops: seq<Operator>, n: nat, batchSize: int)
    requires Components(root) && s.benchmark && s.timing.Valid() && s.stack == [] && s.inside == 0
    requires s.stackPath == s.objName == Render(root)
    requires forall i :: 0 <= i < |ops| ==> Component(ops[i].name)
    ensures var s' := After(s, ops, n, batchSize);
            && s'.stack == [] && s'.inside == 0
            && (s'.stackPath == s'.objName <==> forall i :: 0 <= i < |ops| && Succeeds(ops[i], n) ==> '/' !in ops[i].params)
  {
    RenderEnds(root);
    ProgramMatched(ops, n, batchSize);
    hide Program, PathAfter, Render, Component;
    CallsBalanced(s, Program(ops, n, batchSize));
    PathOfRun(s, Program(ops, n, batchSize));
    ProgramPath(Render(root), ops, n, batchSize);
  }

  // ------------------------------------------------------------- where it ends

  lemma {:induction false} RenderJoin(ps: Path, cs: Path)
    requires ps != [] && cs != []
    ensures Render(ps + cs) == Render(ps) + "/" + Render(cs)
  {
    var init, c := cs[..|cs| - 1], cs[|cs| - 1];
    if |cs| == 1 {
      assert cs == [c];
      Append(ps, c);
    } else {
      RenderJoin(ps, init);
      Append(ps + init, c);
      assert ps + cs == ps + init + [c];
    }
  }

  /** `dirname` takes the last component off. */
  lemma DirnameTail(all: Path, m: nat)
    requires Components(all) && 2 <= m <= |all|
    ensures Dirname(Render(all[..m])) == Render(all[..m - 1])
  {
    hide Dirname, Render, Component;
    assert Components(all[..m - 1]);
    assert all[..m] == all[..m - 1] + [all[m - 1]];
    JoinAppends(all[..m - 1], all[m - 1]);
  }

  lemma RenderParams(root: Path, name: string, cs: Path)
    requires Components(root) && Component(name) && Components(cs)
    ensures var at, all := root + [name, PARAMS], root + [name, PARAMS] + cs;
            && Components(all) && Render(root) + "/" + name + "/" + PARAMS == Render(at) && Join(Render(at), Render(cs)) == Render(all)
  {
    var at := root + [name, PARAMS];
    FixedNames();
    hide Render, Component;
    assert Components(at);
    Append(root, name);
    Append(root + [name], PARAMS);
    assert at == root + [name] + [PARAMS];
    RenderJoin(at, cs);
    RenderEnds(at);
    RenderEnds(cs);
  }

  /** A parameter text of `m` components leaves the path `m - 1` components below the object's own. */
  lemma SlashesLeave(root: Path, s: State, op: Operator, n: nat, batchSize: int, cs: Path, all: Path)
    requires Components(root) && s.benchmark && s.timing.Valid() && s.stack == [] && s.inside == 0 && s.stackPath == Render(root)
    requires Succeeds(op, n) && Component(op.name) && Components(cs) && op.params == Render(cs)
    requires all == root + [op.name, PARAMS] + cs
    ensures |root| < |all| - 2 && After(s, [op], n, batchSize).stackPath == Render(all[..|root| + |cs| - 1])
  {
    RenderEnds(root);
    NotEmpty(root);
    NotEmpty(cs);
    RenderParams(root, op.name, cs);
    assert |all| == |root| + |cs| + 2;
    hide *;
    ProgramMatched([op], n, batchSize);
    AfterIs(s, [op], n, batchSize);
    PathOfRun(s, Program([op], n, batchSize));
    OneOperator(Render(root), op, n, batchSize);
    InnerIs(Render(root));
    ParamsPath(Render(root), op, n, batchSize);
    ThreeTails(all);
  }

  lemma NotEmpty(p: Path)
    requires Components(p)
    ensures p != []
  {
  }

  lemma ThreeTails(all: Path)
    requires Components(all) && |all| >= 4
    ensures Dirname(Dirname(Dirname(Render(all)))) == Render(all[..|all| - 3])
  {
    hide *;
    var m := |all|;
    assert all[..m] == all;
    DirnameTail(all, m);
    DirnameTail(all, m - 1);
    DirnameTail(all, m - 2);
  }

  lemma InnerIs(p: string)
    ensures Inner(p) <==> p != "" && p[0] != '/' && p[|p| - 1] != '/'
  {
  }

  lemma AfterIs(s: State, ops: seq<Operator>, n: nat, batchSize: int)
    ensures After(s, ops, n, batchSize) == RunAll(s, Calls(Program(ops, n, batchSize)))
  {
    hide RunAll, Calls, Program;
  }

  lemma OneOperator(p: string, op: Operator, n: nat, batchSize: int)
    ensures PathAfter(p, Program([op], n, batchSize)) == OverOperator(p, op, n, batchSize)
  {
    ProgramSnoc(p, [op], n, batchSize);
    hide OverOperator;
    assert [op][..0] == [];
  }
}
