/**
 The nested dict that the post-processing builds: a dict maps range names to dicts and
 statistic names to numbers.
 */
module StatTree {
  import opened Text
  import opened Paths

  type Path = seq<string>

  datatype Val = Num(x: real) | Dict(m: map<string, Val>)

  datatype Stat = Cpu | Gpu | Total | CpuPer | GpuPer | Warm | Minus | CpuMinus | GpuMinus | CpuMinusPer | GpuMinusPer

  function KeyOf(s: Stat): string {
    match s
    case Cpu => "cpu_time"
    case Gpu => "gpu_time"
    case Total => "total_items"
    case CpuPer => "cpu_time_per_item"
    case GpuPer => "gpu_time_per_item"
    case Warm => "total_items_warmup"
    case Minus => "total_items_minus_warmup"
    case CpuMinus => "cpu_time_minus_warmup"
    case GpuMinus => "gpu_time_minus_warmup"
    case CpuMinusPer => "cpu_time_minus_warmup_per_item"
    case GpuMinusPer => "gpu_time_minus_warmup_per_item"
  }

  lemma KeysDiffer(a: Stat, b: Stat)
    ensures KeyOf(a) == KeyOf(b) <==> a == b
  {
    if KeyOf(a) == KeyOf(b) {
      assert |KeyOf(a)| == |KeyOf(b)| && KeyOf(a)[0] == KeyOf(b)[0];
    }
  }

  ghost predicate IsStat(k: string) {
    exists s :: KeyOf(s) == k
  }

  /** A name that no statistic is stored under. */
  ghost predicate Plain(c: string) {
    !IsStat(c)
  }

  ghost predicate PlainPath(p: Path) {
    forall i :: 0 <= i < |p| ==> Plain(p[i])
  }

  /** Statistics are numbers, everything else is a dict, and a dict with any statistic has both times. */
  ghost predicate Shaped(v: Val)
    decreases v
  {
    && v.Dict?
    && (forall k :: k in v.m ==> if IsStat(k) then v.m[k].Num? else Shaped(v.m[k]))
    && ((exists k :: k in v.m && IsStat(k)) ==> KeyOf(Cpu) in v.m && KeyOf(Gpu) in v.m)
  }

  const EMPTY := Dict(map[])

  // ------------------------------------------------------------- reading

  /** `d[p0][p1]...` */
  function Walk(v: Val, p: Path): Option<Val>
    decreases |p|
  {
    if p == [] then Some(v)
    else if v.Dict? && p[0] in v.m then Walk(v.m[p[0]], p[1..])
    else None
  }

  /** The dict reached so far, or a new one. */
  function NodeAt(v: Val, p: Path): (n: Val)
    ensures n.Dict?
  {
    match Walk(v, p)
    case Some(Dict(m)) => Dict(m)
    case _ => EMPTY
  }

  predicate IsNode(v: Val, p: Path) {
    Walk(v, p).Some? && Walk(v, p).value.Dict?
  }

  function Here(v: Val, s: Stat): Option<real> {
    if v.Dict? && KeyOf(s) in v.m && v.m[KeyOf(s)].Num? then Some(v.m[KeyOf(s)].x) else None
  }

  /** The number stored under a statistic at a path. */
  function StatAt(v: Val, p: Path, s: Stat): Option<real> {
    match Walk(v, p)
    case Some(n) => Here(n, s)
    case None => None
  }

  // ------------------------------------------------------------- writing

  function Child(v: Val, c: string): (n: Val)
    requires v.Dict?
    ensures n.Dict?
  {
    if c in v.m && v.m[c].Dict? then v.m[c] else EMPTY
  }

  /** Walks down, adding the missing dicts, and stores `n` at the end. */
  function Put(v: Val, p: Path, n: Val): Val
    requires v.Dict?
    decreases |p|
  {
    if p == [] then n else Dict(v.m[p[0] := Put(Child(v, p[0]), p[1..], n)])
  }

  function With(v: Val, s: Stat, x: real): (n: Val)
    requires v.Dict?
    ensures n.Dict?
  {
    Dict(v.m[KeyOf(s) := Num(x)])
  }

  lemma HereWith(v: Val, s: Stat, x: real, s': Stat)
    requires v.Dict?
    ensures Here(With(v, s, x), s') == if s' == s then Some(x) else Here(v, s')
  {
    KeysDiffer(s, s');
    hide KeyOf;
  }

  lemma ShapedWith(v: Val, s: Stat, x: real)
    requires Shaped(v) && (s == Cpu || s == Gpu || Here(v, Cpu).Some?)
    requires s == Cpu || s == Gpu ==> Here(v, if s == Cpu then Gpu else Cpu).Some?
    ensures Shaped(With(v, s, x))
  {
    hide KeyOf;
    var w := With(v, s, x);
    assert IsStat(KeyOf(s));
    assert IsStat(KeyOf(Cpu)) && IsStat(KeyOf(Gpu));
  }

  /** A dict that gets both times at once. */
  function WithTimes(v: Val, cpu: real, gpu: real): (n: Val)
    requires v.Dict?
    ensures n.Dict?
  {
    With(With(v, Cpu, cpu), Gpu, gpu)
  }

  lemma ShapedWithTimes(v: Val, cpu: real, gpu: real)
    requires Shaped(v)
    ensures Shaped(WithTimes(v, cpu, gpu))
  {
    KeysDiffer(Cpu, Gpu);
    hide KeyOf;
    assert IsStat(KeyOf(Cpu)) && IsStat(KeyOf(Gpu));
    var w := WithTimes(v, cpu, gpu);
    forall k | k in w.m ensures if IsStat(k) then w.m[k].Num? else Shaped(w.m[k]) {
      if !IsStat(k) { assert k in v.m && w.m[k] == v.m[k]; }
    }
  }

  // ------------------------------------------------------------- reading what was written

  lemma {:induction false} WalkSome(v: Val, p: Path, q: Path)
    ensures Walk(v, p + q) == match Walk(v, p) { case Some(n) => Walk(n, q) case None => None }
    decreases |p|
  {
    if p == [] {
      assert p + q == q;
    } else {
      assert (p + q)[1..] == p[1..] + q;
      if v.Dict? && p[0] in v.m { WalkSome(v.m[p[0]], p[1..], q); }
    }
  }

  lemma {:induction false} PutAtOrBelow(v: Val, p: Path, n: Val, q: Path)
    requires v.Dict? && p <= q
    ensures Walk(Put(v, p, n), q) == Walk(n, q[|p|..])
    decreases |p|
  {
    if p != [] {
      PutAtOrBelow(Child(v, p[0]), p[1..], n, q[1..]);
      assert q[1..][|p| - 1..] == q[|p|..];
    } else {
      assert q[0..] == q;
    }
  }

  lemma {:induction false} PutElsewhere(v: Val, p: Path, n: Val, q: Path)
    requires Shaped(v) && PlainPath(p) && !(p <= q) && !(q <= p)
    ensures Walk(Put(v, p, n), q) == Walk(v, q)
    decreases |p|
  {
    hide KeyOf, IsStat;
    if p[0] == q[0] {
      assert Plain(p[0]);
      ChildShaped(v, p[0]);
      assert p[1..] <= q[1..] ==> p <= q by { assert p == [p[0]] + p[1..] && q == [q[0]] + q[1..]; }
      assert q[1..] <= p[1..] ==> q <= p by { assert p == [p[0]] + p[1..] && q == [q[0]] + q[1..]; }
      PutElsewhere(Child(v, p[0]), p[1..], n, q[1..]);
    }
  }

  lemma ChildShaped(v: Val, c: string)
    requires Shaped(v) && Plain(c)
    ensures Shaped(Child(v, c)) && (c in v.m ==> v.m[c] == Child(v, c))
  {
  }

  /** Above the place of writing only dicts change. */
  lemma {:induction false} PutAbove(v: Val, p: Path, n: Val, q: Path, s: Stat)
    requires Shaped(v) && PlainPath(p) && q < p
    ensures IsNode(Put(v, p, n), q)
    ensures StatAt(Put(v, p, n), q, s) == StatAt(v, q, s)
    decreases |p|
  {
    hide KeyOf;
    assert Plain(p[0]);
    if q == [] {
      PutTop(v, p, n, s);
    } else {
      ChildShaped(v, p[0]);
      PlainTail(p);
      hide Shaped, Plain, PlainPath, Here;
      PutAbove(Child(v, p[0]), p[1..], n, q[1..], s);
    }
  }

  lemma PlainTail(p: Path)
    requires PlainPath(p) && p != []
    ensures PlainPath(p[1..])
  {
  }

  lemma PutTop(v: Val, p: Path, n: Val, s: Stat)
    requires v.Dict? && p != [] && Plain(p[0])
    ensures Put(v, p, n).Dict? && Here(Put(v, p, n), s) == Here(v, s)
  {
    hide KeyOf;
    assert IsStat(KeyOf(s));
  }

  /** Writing at `p` changes a statistic only at or below `p`. */
  lemma StatPut(v: Val, p: Path, n: Val, q: Path, s: Stat)
    requires Shaped(v) && PlainPath(p)
    ensures StatAt(Put(v, p, n), q, s) == if p <= q then StatAt(n, q[|p|..], s) else StatAt(v, q, s)
  {
    assert v.Dict?;
    hide KeyOf, Shaped, PlainPath, Walk, Put;
    if p <= q {
      PutAtOrBelow(v, p, n, q);
    } else if q <= p {
      assert q != p;
      PutAbove(v, p, n, q, s);
    } else {
      PutElsewhere(v, p, n, q);
    }
  }

  lemma NodePut(v: Val, p: Path, n: Val, q: Path)
    requires Shaped(v) && PlainPath(p)
    ensures IsNode(Put(v, p, n), q) <==> if p <= q then IsNode(n, q[|p|..]) else q < p || IsNode(v, q)
  {
    assert v.Dict?;
    hide KeyOf, Shaped, PlainPath, Walk, Put;
    if p <= q {
      PutAtOrBelow(v, p, n, q);
    } else if q <= p {
      assert q != p;
      PutAbove(v, p, n, q, Cpu);
    } else {
      PutElsewhere(v, p, n, q);
    }
  }

  lemma {:induction false} ShapedPut(v: Val, p: Path, n: Val)
    requires Shaped(v) && PlainPath(p) && Shaped(n)
    ensures Shaped(Put(v, p, n))
    decreases |p|
  {
    hide KeyOf;
    if p != [] {
      assert Plain(p[0]);
      ChildShaped(v, p[0]);
      ShapedPut(Child(v, p[0]), p[1..], n);
      var w := Put(v, p, n);
      forall k | k in w.m ensures if IsStat(k) then w.m[k].Num? else Shaped(w.m[k]) {
      }
    }
  }

  lemma EmptyShaped()
    ensures Shaped(EMPTY)
  {
  }

  lemma {:induction false} WalkShaped(v: Val, p: Path)
    requires Shaped(v) && PlainPath(p)
    ensures Shaped(NodeAt(v, p))
    ensures Walk(v, p).Some? ==> Walk(v, p).value == NodeAt(v, p)
    decreases |p|
  {
    hide KeyOf;
    if p != [] {
      assert Plain(p[0]);
      if p[0] in v.m { WalkShaped(v.m[p[0]], p[1..]); }
    }
  }

  /** Reading below a node. */
  lemma StatBelow(v: Val, p: Path, q: Path, s: Stat)
    requires p <= q && Shaped(v) && PlainPath(p)
    ensures StatAt(NodeAt(v, p), q[|p|..], s) == StatAt(v, q, s)
    ensures q != p ==> (IsNode(NodeAt(v, p), q[|p|..]) <==> IsNode(v, q))
  {
    hide KeyOf, Shaped;
    WalkShaped(v, p);
    WalkSome(v, p, q[|p|..]);
    assert p + q[|p|..] == q;
    if Walk(v, p).None? { EmptyReads(q[|p|..], s); }
    hide Walk, PlainPath;
  }

  lemma EmptyReads(q: Path, s: Stat)
    ensures StatAt(EMPTY, q, s) == None
    ensures q != [] ==> !IsNode(EMPTY, q)
  {
  }

  // ------------------------------------------------------------- spreading a batch size

  /** Below a batch: every dict that holds a number and no total gets the batch's total. */
  function Spread(v: Val, size: int): (w: Val)
    requires Shaped(v) && size > 0
    ensures w.Dict?
    decreases v
  {
    hide KeyOf;
    var m := map k | k in v.m :: if v.m[k].Dict? then SpreadKid(v, k, size) else v.m[k];
    if (exists k :: k in v.m && v.m[k].Num?) && KeyOf(Total) !in v.m then
      NumbersMeanTimes(v);
      PerItem(Dict(m[KeyOf(Total) := Num(size as real)]), v.m[KeyOf(Cpu)].x, v.m[KeyOf(Gpu)].x, size)
    else Dict(m)
  }

  function SpreadKid(v: Val, k: string, size: int): (w: Val)
    requires Shaped(v) && size > 0 && k in v.m && v.m[k].Dict?
    ensures w.Dict?
    decreases v, 0
  {
    KidShaped(v, k);
    Spread(v.m[k], size)
  }

  lemma KidShaped(v: Val, k: string)
    requires Shaped(v) && k in v.m && v.m[k].Dict?
    ensures Shaped(v.m[k]) && v.m[k] < v && Plain(k)
  {
  }

  lemma NumbersMeanTimes(v: Val)
    requires Shaped(v) && exists k :: k in v.m && v.m[k].Num?
    ensures KeyOf(Cpu) in v.m && KeyOf(Gpu) in v.m && v.m[KeyOf(Cpu)].Num? && v.m[KeyOf(Gpu)].Num?
  {
    hide KeyOf;
    var k :| k in v.m && v.m[k].Num?;
    assert IsStat(k);
    assert IsStat(KeyOf(Cpu)) && IsStat(KeyOf(Gpu));
  }

  function PerItem(v: Val, cpu: real, gpu: real, size: int): (n: Val)
    requires v.Dict? && size > 0
    ensures n.Dict?
  {
    With(With(v, CpuPer, cpu / size as real), GpuPer, gpu / size as real)
  }

  /** What spreading makes of one dict's statistic. */
  function Given(v: Val, q: Path, size: int, s: Stat): Option<real>
    requires size > 0
  {
    if StatAt(v, q, Cpu).Some? && StatAt(v, q, Total).None? && StatAt(v, q, Gpu).Some? then
      match s
      case Total => Some(size as real)
      case CpuPer => Some(StatAt(v, q, Cpu).value / size as real)
      case GpuPer => Some(StatAt(v, q, Gpu).value / size as real)
      case _ => StatAt(v, q, s)
    else StatAt(v, q, s)
  }

  /** The numbers of a shaped dict are its statistics. */
  lemma HereShaped(v: Val, s: Stat)
    requires Shaped(v)
    ensures Here(v, s).Some? <==> KeyOf(s) in v.m
    ensures Here(v, Cpu).Some? <==> exists k :: k in v.m && v.m[k].Num?
    ensures Here(v, s).Some? ==> Here(v, Cpu).Some? && Here(v, Gpu).Some?
  {
    hide KeyOf;
    assert IsStat(KeyOf(s)) && IsStat(KeyOf(Cpu)) && IsStat(KeyOf(Gpu));
    if k :| k in v.m && v.m[k].Num? {
      assert IsStat(k);
    }
  }

  /** The dicts below stay where they are, each spread in turn. */
  lemma SpreadKids(v: Val, size: int, c: string)
    requires Shaped(v) && size > 0 && Plain(c)
    ensures c in Spread(v, size).m <==> c in v.m
    ensures c in v.m ==> v.m[c].Dict? && Shaped(v.m[c]) && Spread(v, size).m[c] == Spread(v.m[c], size)
  {
    hide KeyOf;
    assert forall s :: IsStat(KeyOf(s));
  }

  lemma SpreadHere(v: Val, size: int, s: Stat)
    requires Shaped(v) && size > 0
    ensures Here(Spread(v, size), s) == Given(v, [], size, s)
  {
    HereShaped(v, s);
    HereShaped(v, Total);
    HereShaped(v, Cpu);
    KeysDiffer(s, Total);
    KeysDiffer(s, CpuPer);
    KeysDiffer(s, GpuPer);
    hide KeyOf, Shaped, SpreadKid;
  }

  lemma {:induction false} SpreadStat(v: Val, size: int, q: Path, s: Stat)
    requires Shaped(v) && size > 0 && PlainPath(q)
    ensures StatAt(Spread(v, size), q, s) == Given(v, q, size, s)
    ensures IsNode(Spread(v, size), q) <==> IsNode(v, q)
    decreases |q|
  {
    hide KeyOf, Spread, Here;
    if q == [] {
      SpreadHere(v, size, s);
    } else {
      assert Plain(q[0]);
      SpreadKids(v, size, q[0]);
      if q[0] in v.m { SpreadStat(v.m[q[0]], size, q[1..], s); }
    }
  }

  lemma {:induction false} SpreadShaped(v: Val, size: int)
    requires Shaped(v) && size > 0
    ensures Shaped(Spread(v, size))
    decreases v
  {
    hide KeyOf;
    var w := Spread(v, size);
    SpreadKeeps(v, size);
    forall k | k in w.m && !IsStat(k) ensures Shaped(w.m[k]) {
      SpreadKids(v, size, k);
      SpreadShaped(v.m[k], size);
    }
    hide Spread;
  }

  lemma SpreadKeeps(v: Val, size: int)
    requires Shaped(v) && size > 0
    ensures var w := Spread(v, size);
            && (forall k :: k in w.m && IsStat(k) ==> w.m[k].Num?)
            && (forall k :: k in v.m ==> k in w.m)
            && ((exists k :: k in w.m && IsStat(k)) ==> KeyOf(Cpu) in w.m && KeyOf(Gpu) in w.m)
  {
    hide KeyOf, SpreadKid;
    HereShaped(v, Cpu);
    assert forall s :: IsStat(KeyOf(s));
    var w := Spread(v, size);
    if k :| k in w.m && IsStat(k) {
      if k in v.m { assert v.m[k].Num?; }
    }
  }

  // ------------------------------------------------------------- the node of one path

  /** Statistics of a dict do not show below it. */
  lemma WithBelow(v: Val, s: Stat, x: real, r: Path)
    requires v.Dict? && PlainPath(r) && r != []
    ensures Walk(With(v, s, x), r) == Walk(v, r)
  {
    hide KeyOf;
    assert Plain(r[0]) && IsStat(KeyOf(s));
  }

  /** The dict of a batch: its times, its size as the total, and the size spread below it. */
  function BatchNode(v: Val, cpu: real, gpu: real, size: int): (n: Val)
    requires Shaped(v)
    ensures n.Dict?
  {
    var n1 := With(WithTimes(v, cpu, gpu), Total, size as real);
    if size > 0 then
      BatchNodeShaped(v, cpu, gpu, size);
      Spread(PerItem(n1, cpu, gpu, size), size)
    else n1
  }

  /** The dict of a range outside all batches. */
  function OuterNode(v: Val, cpu: real, gpu: real, total: int): (n: Val)
    requires v.Dict?
    ensures n.Dict?
  {
    var n1 := With(With(WithTimes(v, cpu, gpu), CpuPer, 0.0), GpuPer, 0.0);
    var n2 := if total > 0 then PerItem(n1, cpu, gpu, total) else n1;
    With(n2, Total, total as real)
  }

  lemma TimesHere(v: Val, cpu: real, gpu: real, s: Stat)
    requires v.Dict?
    ensures Here(WithTimes(v, cpu, gpu), s) == match s { case Cpu => Some(cpu) case Gpu => Some(gpu) case _ => Here(v, s) }
  {
    HereWith(v, Cpu, cpu, s);
    HereWith(With(v, Cpu, cpu), Gpu, gpu, s);
    hide With, Here;
  }

  lemma PerItemHere(v: Val, cpu: real, gpu: real, size: int, s: Stat)
    requires v.Dict? && size > 0
    ensures Here(PerItem(v, cpu, gpu, size), s)
         == match s { case CpuPer => Some(cpu / size as real) case GpuPer => Some(gpu / size as real) case _ => Here(v, s) }
  {
    HereWith(v, CpuPer, cpu / size as real, s);
    HereWith(With(v, CpuPer, cpu / size as real), GpuPer, gpu / size as real, s);
    hide With, Here;
  }

  lemma PerItemShaped(v: Val, cpu: real, gpu: real, size: int)
    requires Shaped(v) && size > 0 && Here(v, Cpu).Some?
    ensures Shaped(PerItem(v, cpu, gpu, size))
  {
    ShapedWith(v, CpuPer, cpu / size as real);
    HereWith(v, CpuPer, cpu / size as real, Cpu);
    ShapedWith(With(v, CpuPer, cpu / size as real), GpuPer, gpu / size as real);
    hide With, Here, Shaped;
  }

  lemma BatchNodeShaped(v: Val, cpu: real, gpu: real, size: int)
    requires Shaped(v)
    ensures var n1 := With(WithTimes(v, cpu, gpu), Total, size as real);
            Shaped(n1) && (size > 0 ==> Shaped(PerItem(n1, cpu, gpu, size)))
  {
    var n0 := WithTimes(v, cpu, gpu);
    ShapedWithTimes(v, cpu, gpu);
    TimesHere(v, cpu, gpu, Cpu);
    ShapedWith(n0, Total, size as real);
    HereWith(n0, Total, size as real, Cpu);
    if size > 0 { PerItemShaped(With(n0, Total, size as real), cpu, gpu, size); }
    hide With, Here, Shaped, WithTimes, PerItem;
  }

  lemma BatchNodeHere(v: Val, cpu: real, gpu: real, size: int, s: Stat)
    requires Shaped(v)
    ensures var n := BatchNode(v, cpu, gpu, size);
            && (s == Cpu ==> Here(n, s) == Some(cpu)) && (s == Gpu ==> Here(n, s) == Some(gpu))
            && (s == Total ==> Here(n, s) == Some(size as real))
            && (s == CpuPer && size > 0 ==> Here(n, s) == Some(cpu / size as real))
            && (s == GpuPer && size > 0 ==> Here(n, s) == Some(gpu / size as real))
            && (s in [CpuPer, GpuPer] && size <= 0 ==> Here(n, s) == Here(v, s))
            && (s !in [Cpu, Gpu, Total, CpuPer, GpuPer] ==> Here(n, s) == Here(v, s))
  {
    var n0 := WithTimes(v, cpu, gpu);
    var n1 := With(n0, Total, size as real);
    BatchNodeShaped(v, cpu, gpu, size);
    TimesHere(v, cpu, gpu, s);
    HereWith(n0, Total, size as real, s);
    if size > 0 {
      var n2 := PerItem(n1, cpu, gpu, size);
      HereWith(n0, Total, size as real, Total);
      PerItemHere(n1, cpu, gpu, size, s);
      PerItemHere(n1, cpu, gpu, size, Total);
      SpreadHere(n2, size, s);
    }
    hide With, Here, Shaped, WithTimes, PerItem, Spread;
  }

  lemma BatchNodeBelow(v: Val, cpu: real, gpu: real, size: int, r: Path, s: Stat)
    requires Shaped(v) && PlainPath(r) && r != []
    ensures var n := BatchNode(v, cpu, gpu, size);
            && StatAt(n, r, s) == (if size > 0 then Given(v, r, size, s) else StatAt(v, r, s))
            && (IsNode(n, r) <==> IsNode(v, r))
  {
    assert v.Dict?;
    BatchNodeShaped(v, cpu, gpu, size);
    hide With, PerItem, WithTimes, Here, Shaped, Spread, Walk, StatAt, IsNode, Given, PlainPath;
    var n1 := With(WithTimes(v, cpu, gpu), Total, size as real);
    WithTimesBelow(v, cpu, gpu, r);
    WithBelow(WithTimes(v, cpu, gpu), Total, size as real, r);
    SameBelow(v, n1, r, size, s);
    if size > 0 {
      var n2 := PerItem(n1, cpu, gpu, size);
      PerItemBelow(n1, cpu, gpu, size, r);
      SameBelow(v, n2, r, size, s);
      SpreadStat(n2, size, r, s);
    }
  }

  lemma WithTimesBelow(v: Val, cpu: real, gpu: real, r: Path)
    requires v.Dict? && PlainPath(r) && r != []
    ensures Walk(WithTimes(v, cpu, gpu), r) == Walk(v, r)
  {
    WithBelow(v, Cpu, cpu, r);
    WithBelow(With(v, Cpu, cpu), Gpu, gpu, r);
    hide With, Walk, PlainPath;
  }

  lemma PerItemBelow(v: Val, cpu: real, gpu: real, size: int, r: Path)
    requires v.Dict? && size > 0 && PlainPath(r) && r != []
    ensures Walk(PerItem(v, cpu, gpu, size), r) == Walk(v, r)
  {
    WithBelow(v, CpuPer, cpu / size as real, r);
    WithBelow(With(v, CpuPer, cpu / size as real), GpuPer, gpu / size as real, r);
    hide With, Walk, PlainPath;
  }

  /** What is read at a path depends only on what is there. */
  lemma SameBelow(v: Val, w: Val, r: Path, size: int, s: Stat)
    requires Walk(v, r) == Walk(w, r)
    ensures StatAt(v, r, s) == StatAt(w, r, s) && (IsNode(v, r) <==> IsNode(w, r))
    ensures size > 0 ==> Given(v, r, size, s) == Given(w, r, size, s)
  {
    hide Walk, Here;
  }

  lemma BatchNodeIsShaped(v: Val, cpu: real, gpu: real, size: int)
    requires Shaped(v)
    ensures Shaped(BatchNode(v, cpu, gpu, size))
  {
    BatchNodeShaped(v, cpu, gpu, size);
    if size > 0 { SpreadShaped(PerItem(With(WithTimes(v, cpu, gpu), Total, size as real), cpu, gpu, size), size); }
    hide With, Here, Shaped, WithTimes, PerItem, Spread;
  }

  lemma OuterNodeHere(v: Val, cpu: real, gpu: real, total: int, s: Stat)
    requires Shaped(v)
    ensures var n := OuterNode(v, cpu, gpu, total);
            && Shaped(n)
            && (s == Cpu ==> Here(n, s) == Some(cpu)) && (s == Gpu ==> Here(n, s) == Some(gpu))
            && (s == Total ==> Here(n, s) == Some(total as real))
            && (s == CpuPer ==> Here(n, s) == Some(if total > 0 then cpu / total as real else 0.0))
            && (s == GpuPer ==> Here(n, s) == Some(if total > 0 then gpu / total as real else 0.0))
            && (s !in [Cpu, Gpu, Total, CpuPer, GpuPer] ==> Here(n, s) == Here(v, s))
  {
    var n0 := WithTimes(v, cpu, gpu);
    var n1 := With(n0, CpuPer, 0.0);
    var n2 := With(n1, GpuPer, 0.0);
    var n3 := if total > 0 then PerItem(n2, cpu, gpu, total) else n2;
    ShapedWithTimes(v, cpu, gpu);
    forall s' ensures Here(n3, s') == match s' { case Cpu => Some(cpu) case Gpu => Some(gpu)
                                                 case CpuPer => Some(if total > 0 then cpu / total as real else 0.0)
                                                 case GpuPer => Some(if total > 0 then gpu / total as real else 0.0)
                                                 case _ => Here(v, s') }
    {
      TimesHere(v, cpu, gpu, s');
      HereWith(n0, CpuPer, 0.0, s');
      HereWith(n1, GpuPer, 0.0, s');
      if total > 0 { PerItemHere(n2, cpu, gpu, total, s'); }
      hide With, Here, Shaped, WithTimes, PerItem;
    }
    TimesHere(v, cpu, gpu, Cpu);
    HereWith(n0, CpuPer, 0.0, Cpu);
    HereWith(n1, GpuPer, 0.0, Cpu);
    ShapedWith(n0, CpuPer, 0.0);
    ShapedWith(n1, GpuPer, 0.0);
    if total > 0 { PerItemShaped(n2, cpu, gpu, total); }
    ShapedWith(n3, Total, total as real);
    HereWith(n3, Total, total as real, s);
    hide With, Here, Shaped, WithTimes, PerItem;
  }

  lemma OuterNodeBelow(v: Val, cpu: real, gpu: real, total: int, r: Path)
    requires v.Dict? && PlainPath(r) && r != []
    ensures Walk(OuterNode(v, cpu, gpu, total), r) == Walk(v, r)
  {
    var n0 := WithTimes(v, cpu, gpu);
    WithBelow(v, Cpu, cpu, r);
    WithBelow(With(v, Cpu, cpu), Gpu, gpu, r);
    var n1 := With(n0, CpuPer, 0.0);
    var n2 := With(n1, GpuPer, 0.0);
    WithBelow(n0, CpuPer, 0.0, r);
    WithBelow(n1, GpuPer, 0.0, r);
    var n3 := if total > 0 then PerItem(n2, cpu, gpu, total) else n2;
    if total > 0 {
      WithBelow(n2, CpuPer, cpu / total as real, r);
      WithBelow(With(n2, CpuPer, cpu / total as real), GpuPer, gpu / total as real, r);
    }
    WithBelow(n3, Total, total as real, r);
    hide With, Walk;
  }
}
