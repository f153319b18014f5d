/**
 The last part of `unflatten_process_benchmark_dict`: the subtrees of all counted batches of
 a level are gathered, in the order of the batch table, and reduced to statistics.
 */
module BatchStats {
  import opened Text
  import opened Paths
  import opened PyDict
  import opened PerfRecorder
  import ST = StatTree
  import opened Unflatten
  import opened GatherStats

  /** An expanded tree as input for gathering. */
  function Data(v: ST.Val): (r: Inp)
    ensures r.Obj? <==> v.Dict?
    decreases v
  {
    match v
    case Num(x) => Inp.Num(x)
    case Dict(m) => Obj(map k | k in m :: Data(m[k]))
  }

  lemma {:induction false} DataWalk(v: ST.Val, p: Path)
    ensures WalkIn(Data(v), p) == match ST.Walk(v, p) { case None => None case Some(n) => Some(Data(n)) }
    decreases |p|
  {
    if p != [] && v.Dict? && p[0] in v.m { DataWalk(v.m[p[0]], p[1..]); }
  }

  lemma {:induction false} DataNumeric(v: ST.Val)
    ensures Numeric(Data(v))
    decreases v
  {
    if v.Dict? {
      forall k | k in v.m ensures Numeric(Data(v.m[k])) {
        DataNumeric(v.m[k]);
      }
    }
  }

  /** Whether the batch is gathered, or what classifying it raises. */
  function Gathered(t: Tables, warmup: int, k: string): Result<bool, Error>
    requires k in t.batches.vals
  {
    if t.batches.vals[k].items <= 0 then Ok(false) else IsCounted(t, warmup, t.batches.vals[k], Dirname(k))
  }

  /** A batch is gathered iff it has items and neither the first nor the last `warmup` of its level's batches is it; one with
      items raises `TypeError` without an index, and `KeyError` past the first `warmup` when its level has no count. */
  lemma GatheredMeans(t: Tables, warmup: int, k: string)
    requires k in t.batches.vals
    ensures var b, level := t.batches.vals[k], Dirname(k);
            && (Gathered(t, warmup, k) == Ok(true) <==>
                  b.items > 0 && b.idx.Some? && level in t.totalBatches && warmup <= b.idx.value < t.totalBatches[level] - warmup)
            && (Gathered(t, warmup, k) == Err(TypeError) <==> b.items > 0 && b.idx.None?)
            && (Gathered(t, warmup, k) == Err(KeyError) <==>
                  b.items > 0 && b.idx.Some? && b.idx.value >= warmup && level !in t.totalBatches)
  {
    hide Dirname;
  }

  /** One batch: looked up in the tree and gathered under its level. */
  function AddBatch(t: Tables, warmup: int, tree: ST.Val, stats: map<string, Gat>, k: string): Result<map<string, Gat>, Error>
    requires k in t.batches.vals && forall l :: l in stats ==> stats[l].Tree?
  {
    match Gathered(t, warmup, k)
    case Err(e) => Err(e)
    case Ok(false) => Ok(stats)
    case Ok(true) =>
      match ST.Walk(tree, Split(k))
      case None => Err(KeyError)
      case Some(Num(_)) => Err(TypeError)
      case Some(node) =>
        var level := Dirname(k);
        match Gather(Data(node), if level in stats then stats[level] else NOTHING)
        case None => Err(TypeError)
        case Some(g) => Ok(stats[level := g])
  }

  /** The first `n` batches of the batch table. */
  function Stats(t: Tables, warmup: int, tree: ST.Val, n: nat): (r: Result<map<string, Gat>, Error>)
    requires t.batches.Valid() && n <= |t.batches.keys|
    ensures r.Ok? ==> forall l :: l in r.value ==> r.value[l].Tree?
  {
    hide Gathered, Data, Gather, Split, Dirname;
    if n == 0 then Ok(map[])
    else match Stats(t, warmup, tree, n - 1)
      case Err(e) => Err(e)
      case Ok(stats) =>
        assert t.batches.keys[n - 1] in t.batches.keys;
        AddBatch(t, warmup, tree, stats, t.batches.keys[n - 1])
  }

  method CollectStats(t: Tables, warmup: int, tree: ST.Val) returns (r: Result<map<string, Gat>, Error>)
    requires t.batches.Valid()
    ensures r == Stats(t, warmup, tree, |t.batches.keys|)
  {
    hide Split, Dirname, IsCounted, Data, Gather;
    var stats: map<string, Gat> := map[];
    for n := 0 to |t.batches.keys|
      invariant Stats(t, warmup, tree, n) == Ok(stats)
    {
      var k := t.batches.keys[n];
      assert k in t.batches.keys;
      var b, level := t.batches.vals[k], Dirname(k);
      if b.items > 0 {
        var counted := IsCounted(t, warmup, b, level);
        if counted.Err? {
          StatsStop(t, warmup, tree, n + 1, |t.batches.keys|);
          return Err(counted.error);
        }
        if counted.value {
          var source := ST.Walk(tree, Split(k));
          if source.None? || source.value.Num? {
            StatsStop(t, warmup, tree, n + 1, |t.batches.keys|);
            return Err(if source.None? then KeyError else TypeError);
          }
          var g := GatherInto(Data(source.value), if level in stats then stats[level] else NOTHING);
          if g.None? {
            StatsStop(t, warmup, tree, n + 1, |t.batches.keys|);
            return Err(TypeError);
          }
          stats := stats[level := g.value];
        }
      }
    }
    r := Ok(stats);
  }

  lemma {:induction false} StatsStop(t: Tables, warmup: int, tree: ST.Val, n: nat, m: nat)
    requires t.batches.Valid() && n <= m <= |t.batches.keys| && Stats(t, warmup, tree, n).Err?
    ensures Stats(t, warmup, tree, m) == Stats(t, warmup, tree, n)
    decreases m
  {
    hide AddBatch;
    if n < m { StatsStop(t, warmup, tree, n, m - 1); }
  }

  // ------------------------------------------------------------- what is gathered

  /** The counted batches of a level among the first `n` of the batch table, in order. */
  function CountedOf(t: Tables, warmup: int, level: string, n: nat): (ks: seq<string>)
    requires t.batches.Valid() && n <= |t.batches.keys|
    ensures forall i :: 0 <= i < |ks| ==> ks[i] in t.batches.vals && Dirname(ks[i]) == level && Gathered(t, warmup, ks[i]) == Ok(true)
  {
    hide Dirname;
    if n == 0 then []
    else
      var k := t.batches.keys[n - 1];
      assert k in t.batches.keys;
      CountedOf(t, warmup, level, n - 1) + if Dirname(k) == level && Gathered(t, warmup, k) == Ok(true) then [k] else []
  }

  /** The subtrees of some batches. */
  function Sources(tree: ST.Val, ks: seq<string>): (vs: seq<Inp>)
    ensures |vs| == |ks| && forall i :: 0 <= i < |ks| ==> vs[i] == Data(ST.NodeAt(tree, Split(ks[i])))
  {
    seq(|ks|, i requires 0 <= i < |ks| => Data(ST.NodeAt(tree, Split(ks[i]))))
  }

  lemma SourcesNumeric(tree: ST.Val, ks: seq<string>)
    ensures NumericTrees(Sources(tree, ks))
  {
    hide Split, ST.NodeAt;
    forall i | 0 <= i < |ks| ensures Sources(tree, ks)[i].Obj? && Numeric(Sources(tree, ks)[i]) {
      DataNumeric(ST.NodeAt(tree, Split(ks[i])));
    }
  }

  /** In a shaped tree a name holds a number exactly if it is a statistic's: no two subtrees clash. */
  lemma ShapedNeverClash(tree: ST.Val, ks: seq<string>)
    requires ST.Shaped(tree) && forall i :: 0 <= i < |ks| ==> ST.PlainPath(Split(ks[i]))
    ensures GatherAll(Sources(tree, ks)).Some?
  {
    var vs := Sources(tree, ks);
    SourcesNumeric(tree, ks);
    NumbersFailIff(vs);
    hide Split, ST.NodeAt, Data, ST.Shaped, ST.PlainPath;
    forall p | Kept(p) ensures !(DictAt(vs, p) && ValuesAt(vs, p) != []) {
      KeptNotEmpty(p);
      forall i | 0 <= i < |vs| && WalkIn(vs[i], p).Some?
        ensures WalkIn(vs[i], p).value.Num? <==> ST.IsStat(p[|p| - 1])
      {
        ST.WalkShaped(tree, Split(ks[i]));
        ShapeAt(ST.NodeAt(tree, Split(ks[i])), p);
      }
      ValuesSomewhere(vs, p);
    }
  }

  lemma {:induction false} ShapeAt(v: ST.Val, p: Path)
    requires ST.Shaped(v) && p != [] && WalkIn(Data(v), p).Some?
    ensures WalkIn(Data(v), p).value.Num? <==> ST.IsStat(p[|p| - 1])
    decreases |p|
  {
    hide ST.KeyOf, ST.IsStat;
    var k, q := p[0], p[1..];
    assert k in v.m && WalkIn(Data(v), p) == WalkIn(Data(v.m[k]), q);
    if q == [] {
      assert p[|p| - 1] == k;
    } else {
      assert v.m[k].Dict?;
      ShapeAt(v.m[k], q);
    }
  }

  lemma {:induction false} ValuesSomewhere(vs: seq<Inp>, p: Path)
    ensures ValuesAt(vs, p) != [] <==> exists i :: 0 <= i < |vs| && WalkIn(vs[i], p).Some? && WalkIn(vs[i], p).value.Num?
  {
    hide WalkIn;
    if vs != [] {
      var init := vs[..|vs| - 1];
      ValuesSomewhere(init, p);
      if i :| 0 <= i < |init| && WalkIn(init[i], p).Some? && WalkIn(init[i], p).value.Num? {
        assert vs[i] == init[i];
      }
      if i :| 0 <= i < |vs| && WalkIn(vs[i], p).Some? && WalkIn(vs[i], p).value.Num? {
        if i < |init| { assert init[i] == vs[i]; }
      }
    }
  }

  /** Every batch can be classified. */
  ghost predicate Classified(t: Tables, warmup: int) {
    forall k :: k in t.batches.vals ==> Gathered(t, warmup, k).Ok? && ST.PlainPath(Split(k))
  }

  /** If the batch is to be gathered, it is in the tree. */
  ghost predicate Present(t: Tables, warmup: int, tree: ST.Val, k: string) {
    k in t.batches.vals && (Gathered(t, warmup, k) == Ok(true) ==> ST.IsNode(tree, Split(k)))
  }

  /** Every batch can be classified, and those that are gathered are in the tree. */
  ghost predicate BatchesPresent(t: Tables, warmup: int, tree: ST.Val) {
    Classified(t, warmup) && forall k :: k in t.batches.vals ==> Present(t, warmup, tree, k)
  }

  /** Collecting never raises, and each level holds what gathering its counted batches gives. */
  lemma StatsAre(t: Tables, warmup: int, tree: ST.Val, n: nat, level: string)
    requires t.batches.Valid() && n <= |t.batches.keys| && ST.Shaped(tree) && BatchesPresent(t, warmup, tree)
    ensures Stats(t, warmup, tree, n).Ok?
    ensures var stats, ks := Stats(t, warmup, tree, n).value, CountedOf(t, warmup, level, n);
            && (level in stats <==> ks != [])
            && GatherAll(Sources(tree, ks)) == Some(if level in stats then stats[level] else NOTHING)
  {
    assert forall i :: 0 <= i < n ==> t.batches.keys[i] in t.batches.keys;
    hide *;
    StatsUpTo(t, warmup, tree, n, level) by { PresentHere(t, warmup, tree, n); }
  }

  lemma PresentHere(t: Tables, warmup: int, tree: ST.Val, n: nat)
    requires t.batches.Valid() && n <= |t.batches.keys| && BatchesPresent(t, warmup, tree)
    ensures Classified(t, warmup) && forall i :: 0 <= i < n ==> Present(t, warmup, tree, t.batches.keys[i])
  {
    hide Classified, Present;
    assert forall i :: 0 <= i < n ==> t.batches.keys[i] in t.batches.keys;
  }

  lemma {:induction false} StatsUpTo(t: Tables, warmup: int, tree: ST.Val, n: nat, level: string)
    requires t.batches.Valid() && n <= |t.batches.keys| && ST.Shaped(tree) && Classified(t, warmup)
    requires forall i :: 0 <= i < n ==> Present(t, warmup, tree, t.batches.keys[i])
    ensures Stats(t, warmup, tree, n).Ok?
    ensures var stats, ks := Stats(t, warmup, tree, n).value, CountedOf(t, warmup, level, n);
            && (level in stats <==> ks != [])
            && GatherAll(Sources(tree, ks)) == Some(if level in stats then stats[level] else NOTHING)
  {
    hide *;
    if n == 0 {
      NoStats(t, warmup, tree, level);
    } else {
      StatsUpTo(t, warmup, tree, n - 1, level);
      var k := BatchKey(t, n - 1);
      StatsUpTo(t, warmup, tree, n - 1, Dirname(k));
      PlainCounted(t, warmup, tree, CountedOf(t, warmup, Dirname(k), n - 1));
      AddBatchIs(t, warmup, tree, Stats(t, warmup, tree, n - 1).value, k, CountedOf(t, warmup, Dirname(k), n - 1));
      StatsSnoc(t, warmup, tree, level, n);
      SourcesSnoc(tree, CountedOf(t, warmup, level, n - 1), k);
      if Gathered(t, warmup, k).value {
        assert Gathered(t, warmup, k) == Ok(true);
      } else {
        assert Gathered(t, warmup, k) == Ok(false);
      }
      assert CountedOf(t, warmup, level, n - 1) + [] == CountedOf(t, warmup, level, n - 1);
    }
  }

  lemma NoStats(t: Tables, warmup: int, tree: ST.Val, level: string)
    requires t.batches.Valid()
    ensures Stats(t, warmup, tree, 0) == Ok(map[]) && CountedOf(t, warmup, level, 0) == [] && GatherAll(Sources(tree, [])) == Some(NOTHING)
    ensures level !in Stats(t, warmup, tree, 0).value
  {
  }

  lemma BatchKey(t: Tables, i: nat) returns (k: string)
    requires t.batches.Valid() && i < |t.batches.keys|
    ensures k == t.batches.keys[i] && k in t.batches.vals
  {
    k := t.batches.keys[i];
    assert k in t.batches.keys;
  }

  lemma PlainCounted(t: Tables, warmup: int, tree: ST.Val, ks: seq<string>)
    requires Classified(t, warmup) && forall i :: 0 <= i < |ks| ==> ks[i] in t.batches.vals
    ensures forall i :: 0 <= i < |ks| ==> ST.PlainPath(Split(ks[i]))
  {
    hide ST.PlainPath, Split, ST.IsNode, Gathered;
  }

  lemma SourcesSnoc(tree: ST.Val, ks: seq<string>, k: string)
    ensures Sources(tree, ks + [k]) == Sources(tree, ks) + [Data(ST.NodeAt(tree, Split(k)))]
    ensures Sources(tree, ks + []) == Sources(tree, ks)
  {
    assert ks + [] == ks;
    hide Split, Data, ST.NodeAt;
  }

  lemma GatherSnoc(vs: seq<Inp>, v: Inp)
    requires (forall i :: 0 <= i < |vs| ==> vs[i].Obj?) && v.Obj? && GatherAll(vs).Some?
    ensures GatherAll(vs + [v]) == Gather(v, GatherAll(vs).value)
  {
    assert (vs + [v])[..|vs|] == vs;
    hide Gather;
  }

  lemma AddBatchIs(t: Tables, warmup: int, tree: ST.Val, stats: map<string, Gat>, k: string, ks: seq<string>)
    requires t.batches.Valid() && ST.Shaped(tree) && Classified(t, warmup) && Present(t, warmup, tree, k)
    requires forall l :: l in stats ==> stats[l].Tree?
    requires forall i :: 0 <= i < |ks| ==> ST.PlainPath(Split(ks[i]))
    requires GatherAll(Sources(tree, ks)) == Some(if Dirname(k) in stats then stats[Dirname(k)] else NOTHING)
    ensures Gathered(t, warmup, k).Ok?
    ensures Gathered(t, warmup, k) == Ok(false) ==> AddBatch(t, warmup, tree, stats, k) == Ok(stats)
    ensures Gathered(t, warmup, k) == Ok(true) ==>
              var g := GatherAll(Sources(tree, ks + [k]));
              g.Some? && AddBatch(t, warmup, tree, stats, k) == Ok(stats[Dirname(k) := g.value])
  {
    var node := ST.NodeAt(tree, Split(k));
    assert Gathered(t, warmup, k) == Ok(true) ==> ST.Walk(tree, Split(k)) == Some(node);
    SourcesSnoc(tree, ks, k);
    SourcesNumeric(tree, ks);
    GatherSnoc(Sources(tree, ks), Data(node));
    assert forall i :: 0 <= i < |ks + [k]| ==> ST.PlainPath(Split((ks + [k])[i]));
    ShapedNeverClash(tree, ks + [k]);
    hide Gather, GatherAll, Sources, Split, Dirname, ST.Walk, ST.NodeAt, ST.Shaped, ST.PlainPath, Gathered, Classified, Present;
  }

  lemma StatsSnoc(t: Tables, warmup: int, tree: ST.Val, level: string, n: nat)
    requires t.batches.Valid() && 0 < n <= |t.batches.keys| && Stats(t, warmup, tree, n - 1).Ok?
    requires t.batches.keys[n - 1] in t.batches.vals && Gathered(t, warmup, t.batches.keys[n - 1]).Ok?
    ensures var k := t.batches.keys[n - 1];
            && Stats(t, warmup, tree, n) == AddBatch(t, warmup, tree, Stats(t, warmup, tree, n - 1).value, k)
            && CountedOf(t, warmup, level, n)
            == CountedOf(t, warmup, level, n - 1) + if Dirname(k) == level && Gathered(t, warmup, k) == Ok(true) then [k] else []
  {
    hide AddBatch, Gathered, Dirname;
  }

  /** Collecting raises iff a batch that is to be gathered is missing from the tree, and then `KeyError`. */
  lemma CollectsIff(t: Tables, warmup: int, tree: ST.Val)
    requires t.batches.Valid() && ST.Shaped(tree)
    requires forall k :: k in t.batches.vals ==> Gathered(t, warmup, k).Ok? && ST.PlainPath(Split(k))
    ensures Stats(t, warmup, tree, |t.batches.keys|).Ok?
       <==> forall k :: k in t.batches.vals && Gathered(t, warmup, k) == Ok(true) ==> ST.IsNode(tree, Split(k))
    ensures Stats(t, warmup, tree, |t.batches.keys|).Err? ==> Stats(t, warmup, tree, |t.batches.keys|) == Err(KeyError)
  {
    hide Stats, Gathered, ST.IsNode, ST.PlainPath, ST.Shaped, Split;
    if Stats(t, warmup, tree, |t.batches.keys|).Ok? {
      forall k | k in t.batches.vals && Gathered(t, warmup, k) == Ok(true) ensures ST.IsNode(tree, Split(k)) {
        assert k in t.batches.keys;
        var i :| 0 <= i < |t.batches.keys| && t.batches.keys[i] == k;
        CollectedWasThere(t, warmup, tree, |t.batches.keys|, i);
      }
    } else {
      if BatchesPresent(t, warmup, tree) {
        StatsAre(t, warmup, tree, |t.batches.keys|, "");
      }
      CollectRaises(t, warmup, tree, |t.batches.keys|);
    }
  }

  /** The first batch that is missing raises `KeyError`. */
  lemma {:induction false} CollectRaises(t: Tables, warmup: int, tree: ST.Val, n: nat)
    requires t.batches.Valid() && n <= |t.batches.keys| && ST.Shaped(tree) && Classified(t, warmup)
    requires Stats(t, warmup, tree, n).Err?
    ensures Stats(t, warmup, tree, n) == Err(KeyError)
  {
    hide *;
    if n == 0 {
      NoStats(t, warmup, tree, "");
      assert false;
    } else if Stats(t, warmup, tree, n - 1).Err? {
      CollectRaises(t, warmup, tree, n - 1);
      StatsStop(t, warmup, tree, n - 1, n);
    } else {
      forall i | 0 <= i < n - 1 ensures Present(t, warmup, tree, t.batches.keys[i]) {
        CollectedWasThere(t, warmup, tree, n - 1, i);
        PresentIs(t, warmup, tree, t.batches.keys[i]);
      }
      var k := BatchKey(t, n - 1);
      if Present(t, warmup, tree, k) {
        StatsUpTo(t, warmup, tree, n, "");
        assert false;
      }
      MissingRaises(t, warmup, tree, n);
    }
  }

  lemma PresentIs(t: Tables, warmup: int, tree: ST.Val, k: string)
    requires k in t.batches.vals
    ensures Present(t, warmup, tree, k) <==> (Gathered(t, warmup, k) == Ok(true) ==> ST.IsNode(tree, Split(k)))
  {
    hide Gathered, ST.IsNode, Split;
  }

  lemma MissingRaises(t: Tables, warmup: int, tree: ST.Val, n: nat)
    requires t.batches.Valid() && 0 < n <= |t.batches.keys| && ST.Shaped(tree) && Classified(t, warmup)
    requires Stats(t, warmup, tree, n - 1).Ok? && !Present(t, warmup, tree, t.batches.keys[n - 1])
    ensures Stats(t, warmup, tree, n) == Err(KeyError)
  {
    hide *;
    var k := BatchKey(t, n - 1);
    StatsNext(t, warmup, tree, n);
    NotPresent(t, warmup, tree, k);
    NotThere(tree, Split(k));
    AddMissing(t, warmup, tree, Stats(t, warmup, tree, n - 1).value, k);
  }

  lemma NotPresent(t: Tables, warmup: int, tree: ST.Val, k: string)
    requires Classified(t, warmup) && k in t.batches.vals && !Present(t, warmup, tree, k)
    ensures Gathered(t, warmup, k) == Ok(true) && ST.PlainPath(Split(k)) && !ST.IsNode(tree, Split(k))
  {
    hide Gathered, ST.IsNode, ST.PlainPath, Split;
  }

  lemma NotThere(tree: ST.Val, p: Path)
    requires ST.Shaped(tree) && ST.PlainPath(p)
    ensures ST.IsNode(tree, p) || ST.Walk(tree, p) == None
  {
    ST.WalkShaped(tree, p);
    hide ST.Shaped, ST.PlainPath, ST.Walk;
  }

  lemma AddMissing(t: Tables, warmup: int, tree: ST.Val, stats: map<string, Gat>, k: string)
    requires k in t.batches.vals && (forall l :: l in stats ==> stats[l].Tree?)
    requires Gathered(t, warmup, k) == Ok(true) && ST.Walk(tree, Split(k)) == None
    ensures AddBatch(t, warmup, tree, stats, k) == Err(KeyError)
  {
    hide Gathered, Gather, Data, Split, Dirname, ST.Walk;
  }

  lemma StatsNext(t: Tables, warmup: int, tree: ST.Val, n: nat)
    requires t.batches.Valid() && 0 < n <= |t.batches.keys| && Stats(t, warmup, tree, n - 1).Ok?
    ensures t.batches.keys[n - 1] in t.batches.vals
    ensures Stats(t, warmup, tree, n) == AddBatch(t, warmup, tree, Stats(t, warmup, tree, n - 1).value, t.batches.keys[n - 1])
  {
    var k := BatchKey(t, n - 1);
    hide AddBatch;
  }

  lemma {:induction false} CollectedWasThere(t: Tables, warmup: int, tree: ST.Val, n: nat, i: nat)
    requires t.batches.Valid() && i < n <= |t.batches.keys| && Stats(t, warmup, tree, n).Ok?
    ensures t.batches.keys[i] in t.batches.vals
    ensures Gathered(t, warmup, t.batches.keys[i]) == Ok(true) ==> ST.IsNode(tree, Split(t.batches.keys[i]))
  {
    hide Gathered, Gather, Data, Split, Dirname;
    var k := BatchKey(t, n - 1);
    if i < n - 1 {
      CollectedWasThere(t, warmup, tree, n - 1, i);
    }
  }

  // ------------------------------------------------------------- the records

  /** A statistic of some batches, or of the same range inside each of them, where it exists. */
  function StatsIn(tree: ST.Val, ks: seq<string>, q: Path, s: ST.Stat): seq<real> {
    if ks == [] then []
    else
      var before, last := StatsIn(tree, ks[..|ks| - 1], q, s), ks[|ks| - 1];
      match ST.StatAt(tree, Split(last) + q, s)
      case Some(x) => before + [x]
      case None => before
  }

  lemma DataStat(tree: ST.Val, k: string, q: Path, s: ST.Stat)
    requires ST.Shaped(tree) && ST.PlainPath(Split(k)) && ST.IsNode(tree, Split(k))
    ensures var v := Data(ST.NodeAt(tree, Split(k)));
            match ST.StatAt(tree, Split(k) + q, s)
            case Some(x) => WalkIn(v, q + [ST.KeyOf(s)]) == Some(Inp.Num(x))
            case None => WalkIn(v, q + [ST.KeyOf(s)]) == None || !WalkIn(v, q + [ST.KeyOf(s)]).value.Num?
  {
    hide Split, ST.KeyOf, ST.Shaped, ST.PlainPath;
    var p, node := Split(k), ST.NodeAt(tree, Split(k));
    assert ST.Walk(tree, p) == Some(node);
    ST.WalkSome(tree, p, q);
    DataWalk(node, q + [ST.KeyOf(s)]);
    ST.WalkSome(node, q, [ST.KeyOf(s)]);
    if ST.Walk(node, q).Some? { OneStep(ST.Walk(node, q).value, ST.KeyOf(s)); }
    hide ST.Walk, ST.NodeAt;
  }

  lemma OneStep(v: ST.Val, k: string)
    ensures ST.Walk(v, [k]) == if v.Dict? && k in v.m then Some(v.m[k]) else None
  {
    assert [k][1..] == [];
  }

  lemma {:induction false} StatsAreValues(tree: ST.Val, ks: seq<string>, q: Path, s: ST.Stat)
    requires ST.Shaped(tree) && forall i :: 0 <= i < |ks| ==> ST.PlainPath(Split(ks[i])) && ST.IsNode(tree, Split(ks[i]))
    ensures ValuesAt(Sources(tree, ks), q + [ST.KeyOf(s)]) == StatsIn(tree, ks, q, s)
  {
    hide Split, ST.KeyOf, ST.Shaped, ST.PlainPath, ST.IsNode, WalkIn, Data, ST.NodeAt, ST.StatAt;
    if ks != [] {
      var init, last := ks[..|ks| - 1], ks[|ks| - 1];
      assert Sources(tree, ks)[..|ks| - 1] == Sources(tree, init);
      StatsAreValues(tree, init, q, s);
      DataStat(tree, last, q, s);
    }
  }

  /** The reduced statistics of a level: at every range below its counted batches, each time's record is made of that time in those batches, in order. */
  lemma LevelRecords(t: Tables, warmup: int, tree: ST.Val, level: string, q: Path, s: ST.Stat, meanOnly: bool)
    requires t.batches.Valid() && ST.Shaped(tree) && BatchesPresent(t, warmup, tree) && Kept(q + [ST.KeyOf(s)])
    requires var n := |t.batches.keys|; Stats(t, warmup, tree, n).Ok? && level in Stats(t, warmup, tree, n).value
    ensures var n, p := |t.batches.keys|, q + [ST.KeyOf(s)];
            var reduced := Calc(Stats(t, warmup, tree, n).value[level], meanOnly);
            var xs := StatsIn(tree, CountedOf(t, warmup, level, n), q, s);
            && reduced.Some?
            && (xs != [] ==> WalkRes(reduced.value, p) == Some(StatsOf(xs, meanOnly)) && RecordOf(WalkRes(reduced.value, p), xs, meanOnly))
            && (xs == [] ==> WalkRes(reduced.value, p).None? || WalkRes(reduced.value, p).value.Sub?)
  {
    hide *;
    var n := |t.batches.keys|;
    StatsAre(t, warmup, tree, n, level);
    var ks := CountedOf(t, warmup, level, n);
    PresentCounted(t, warmup, tree, ks);
    SourcesNumeric(tree, ks);
    StatsAreValues(tree, ks, q, s);
    KeptThenCalc(Sources(tree, ks), meanOnly, q + [ST.KeyOf(s)]);
    if StatsIn(tree, ks, q, s) != [] {
      SomeFigures(StatsIn(tree, ks, q, s), meanOnly);
      StatsAreRecord(StatsIn(tree, ks, q, s), meanOnly);
    }
  }

  lemma PresentCounted(t: Tables, warmup: int, tree: ST.Val, ks: seq<string>)
    requires BatchesPresent(t, warmup, tree)
    requires forall i :: 0 <= i < |ks| ==> ks[i] in t.batches.vals && Gathered(t, warmup, ks[i]) == Ok(true)
    ensures forall i :: 0 <= i < |ks| ==> ST.PlainPath(Split(ks[i])) && ST.IsNode(tree, Split(ks[i]))
  {
    hide ST.PlainPath, Split, ST.IsNode, Gathered;
  }
}
