/**
 `recurse_gather_dict` and `recurse_calc_stats_dict`: many nested dicts are gathered into
 one nested dict of lists, and every list is reduced to a record of statistics.
 */
module GatherStats {
  import opened Text
  import opened Summary

  type Path = seq<string>

  /** What is gathered: nested dicts with numbers and lists of numbers at the leaves. */
  datatype Inp = Num(x: real) | Lst(xs: seq<real>) | Obj(m: map<string, Inp>)

  /** A gathered list holds numbers, or the lists that a list leaf is spread over. */
  datatype Item = One(x: real) | Many(xs: seq<real>)

  datatype Gat = Items(items: seq<Item>) | Tree(m: map<string, Gat>)

  const NOTHING := Tree(map[])

  /** The item counts, which are not gathered. */
  predicate Skipped(k: string) {
    k == "total_items" || k == "total_items_warmup" || k == "total_items_minus_warmup"
  }

  // ------------------------------------------------------------- gathering

  /** Adds a leaf to what is stored under its key; `None` when Python raises. */
  function AddLeaf(v: Inp, cur: Option<Gat>): Option<Gat>
    requires !v.Obj?
  {
    match v
    case Num(x) =>
      (match cur
       case None => Some(Items([One(x)]))
       case Some(Items(l)) => Some(Items(l + [One(x)]))
       case Some(Tree(_)) => None)
    case Lst(xs) =>
      match cur
      case None => Some(Items(seq(|xs|, i requires 0 <= i < |xs| => Many([xs[i]]))))
      case Some(g) =>
        if xs == [] then Some(g)
        else if g.Tree? || |xs| > |g.items| || exists i :: 0 <= i < |xs| && !g.items[i].Many? then None
        else Some(Items(seq(|g.items|, i requires 0 <= i < |g.items| =>
                    if i < |xs| && g.items[i].Many? then Many(g.items[i].xs + [xs[i]]) else g.items[i])))
  }

  function Under(t: Gat, k: string): Option<Gat>
    requires t.Tree?
  {
    if k in t.m then Some(t.m[k]) else None
  }

  /** What one key of the input makes of the entry in the target. */
  function GatherKey(v: Inp, k: string, cur: Option<Gat>): (r: Option<Gat>)
    requires v.Obj? && k in v.m
    decreases v, 0
  {
    if !v.m[k].Obj? then AddLeaf(v.m[k], cur)
    else match cur
      case None => Gather(v.m[k], NOTHING)
      case Some(Tree(m)) => Gather(v.m[k], Tree(m))
      case Some(Items(_)) => None
  }

  /** The target after one more input; `None` when Python raises. */
  function Gather(v: Inp, t: Gat): (r: Option<Gat>)
    requires v.Obj? && t.Tree?
    ensures r.Some? ==> r.value.Tree?
    decreases v
  {
    if forall k :: k in v.m ==> Skipped(k) || GatherKey(v, k, Under(t, k)).Some? then
      Some(Tree(map k | k in (set x | x in v.m && !Skipped(x)) + t.m.Keys ::
                  if k in v.m && !Skipped(k) then GatherKey(v, k, Under(t, k)).value else t.m[k]))
    else None
  }

  lemma GatherIs(v: Inp, t: Gat)
    requires v.Obj? && t.Tree?
    ensures Gather(v, t).None? <==> exists k :: k in v.m && !Skipped(k) && GatherKey(v, k, Under(t, k)).None?
    ensures Gather(v, t).Some? ==>
              var r := Gather(v, t).value;
              && r.Tree? && (forall k :: k in r.m <==> k in t.m || (k in v.m && !Skipped(k)))
              && (forall k :: k in r.m ==> r.m[k] == if k in v.m && !Skipped(k) then GatherKey(v, k, Under(t, k)).value else t.m[k])
    ensures forall k :: Under(t, k) == if k in t.m then Some(t.m[k]) else None
  {
    hide Skipped, GatherKey;
  }

  /** The body of the loop: one key of the input. */
  method GatherOne(input: Inp, key: string, cur: Option<Gat>) returns (r: Option<Gat>)
    requires input.Obj? && key in input.m
    ensures r == GatherKey(input, key, cur)
    decreases input, 0
  {
    var value := input.m[key];
    if value.Obj? {
      var below := if cur.Some? then cur.value else NOTHING;
      if below.Items? {
        return None;
      }
      r := GatherInto(value, below);
    } else {
      r := AddLeaf(value, cur);
    }
  }

  /** The target as it is when the loop has seen the keys in `done`. */
  ghost predicate SoFar(v: Inp, target: Gat, t: map<string, Gat>, done: set<string>)
    requires v.Obj? && target.Tree?
  {
    && (forall k :: k in done ==> k in v.m && (Skipped(k) || GatherKey(v, k, Under(target, k)).Some?))
    && (forall k :: k in t <==> k in target.m || (k in done && !Skipped(k)))
    && (forall k :: k in t ==> t[k] == if k in done && !Skipped(k) then GatherKey(v, k, Under(target, k)).value else target.m[k])
  }

  lemma SoFarStart(v: Inp, target: Gat)
    requires v.Obj? && target.Tree?
    ensures SoFar(v, target, target.m, {})
  {
    hide Skipped, GatherKey;
  }

  lemma SoFarSkip(v: Inp, target: Gat, t: map<string, Gat>, done: set<string>, key: string)
    requires v.Obj? && target.Tree? && SoFar(v, target, t, done) && key in v.m && Skipped(key)
    ensures SoFar(v, target, t, done + {key})
  {
    hide Skipped, GatherKey;
  }

  /** An entry is computed from what the target had there before the loop. */
  lemma SoFarEntry(v: Inp, target: Gat, t: map<string, Gat>, done: set<string>, key: string)
    requires v.Obj? && target.Tree? && SoFar(v, target, t, done) && key in v.m && key !in done && !Skipped(key)
    ensures Under(target, key) == if key in t then Some(t[key]) else None
    ensures GatherKey(v, key, Under(target, key)).None? ==> Gather(v, target).None?
  {
    GatherIs(v, target);
    hide Skipped, GatherKey, Gather;
  }

  lemma SoFarPut(v: Inp, target: Gat, t: map<string, Gat>, done: set<string>, key: string, g: Gat)
    requires v.Obj? && target.Tree? && SoFar(v, target, t, done) && key in v.m && !Skipped(key)
    requires GatherKey(v, key, Under(target, key)) == Some(g)
    ensures SoFar(v, target, t[key := g], done + {key})
  {
    hide Skipped, GatherKey, Under;
  }

  lemma SoFarAll(v: Inp, target: Gat, t: map<string, Gat>)
    requires v.Obj? && target.Tree? && SoFar(v, target, t, v.m.Keys)
    ensures Gather(v, target) == Some(Tree(t))
  {
    GatherIs(v, target);
    hide Skipped, GatherKey, Gather;
    assert Gather(v, target).value.m == t;
  }

  /** The loop over the keys, in whatever order the dict has them. */
  method GatherInto(input: Inp, target: Gat) returns (r: Option<Gat>)
    requires input.Obj? && target.Tree?
    ensures r == Gather(input, target)
    decreases input
  {
    hide *;
    var t, rest := target.m, input.m.Keys;
    ghost var done: set<string> := {};
    SoFarStart(input, target);
    while rest != {}
      invariant done + rest == input.m.Keys && done !! rest
      invariant SoFar(input, target, t, done)
      decreases |rest|
    {
      var key :| key in rest;
      rest := rest - {key};
      if Skipped(key) {
        SoFarSkip(input, target, t, done, key);
      } else {
        SoFarEntry(input, target, t, done, key);
        var entry := GatherOne(input, key, if key in t then Some(t[key]) else None);
        if entry.None? {
          return None;
        }
        SoFarPut(input, target, t, done, key, entry.value);
        t := t[key := entry.value];
      }
      done := done + {key};
    }
    SoFarAll(input, target, t) by { assert done == input.m.Keys; }
    r := Some(Tree(t));
  }

  // ------------------------------------------------------------- paths

  function WalkIn(v: Inp, p: Path): Option<Inp>
    decreases |p|
  {
    if p == [] then Some(v) else if v.Obj? && p[0] in v.m then WalkIn(v.m[p[0]], p[1..]) else None
  }

  function WalkOut(t: Gat, p: Path): Option<Gat>
    decreases |p|
  {
    if p == [] then Some(t) else if t.Tree? && p[0] in t.m then WalkOut(t.m[p[0]], p[1..]) else None
  }

  /** No component is an item count. */
  predicate Kept(p: Path) {
    p != [] && forall i :: 0 <= i < |p| ==> !Skipped(p[i])
  }

  /** Which paths are kept, name by name. */
  lemma KeptMeans(p: Path)
    ensures Kept(p) <==>
              p != [] && forall i :: 0 <= i < |p| ==> p[i] != "total_items" && p[i] != "total_items_warmup" && p[i] != "total_items_minus_warmup"
  {
  }

  lemma NothingThere(p: Path)
    requires p != []
    ensures WalkOut(NOTHING, p) == None
  {
  }

  lemma GatherHead(v: Inp, t: Gat, k: string)
    requires v.Obj? && t.Tree? && Gather(v, t).Some?
    ensures var r := Gather(v, t).value;
            if k in v.m && !Skipped(k) then k in r.m && GatherKey(v, k, Under(t, k)) == Some(r.m[k])
            else Under(r, k) == Under(t, k)
  {
    hide Skipped, AddLeaf;
  }

  /** One input, seen from a path: a leaf is added there, a dict leaves a dict, anything else changes nothing. */
  lemma {:induction false} GatherAt(v: Inp, t: Gat, p: Path)
    requires v.Obj? && t.Tree? && Gather(v, t).Some? && Kept(p)
    ensures var r := WalkOut(Gather(v, t).value, p);
            match WalkIn(v, p)
            case None => r == WalkOut(t, p)
            case Some(Obj(_)) => r.Some? && r.value.Tree? && (WalkOut(t, p).None? || WalkOut(t, p).value.Tree?)
            case Some(leaf) => r == AddLeaf(leaf, WalkOut(t, p)) && r.Some?
    decreases |p|
  {
    hide Skipped, AddLeaf, Gather;
    var k, q := p[0], p[1..];
    GatherHead(v, t, k);
    if k in v.m {
      if q == [] {
        ReadOne(v, t, p);
        ReadOut(Gather(v, t).value, p);
      } else if v.m[k].Obj? {
        var below := if k in t.m then t.m[k] else NOTHING;
        NothingThere(q);
        GatherAt(v.m[k], below, q);
      } else {
        AddLeafShape(v.m[k], Under(t, k), q);
      }
    }
  }

  lemma ReadOne(v: Inp, t: Gat, p: Path)
    requires v.Obj? && t.Tree? && |p| == 1
    ensures WalkIn(v, p) == (if p[0] in v.m then Some(v.m[p[0]]) else None)
    ensures WalkOut(t, p) == Under(t, p[0])
  {
    assert p[1..] == [];
  }

  lemma ReadOut(t: Gat, p: Path)
    requires t.Tree? && |p| == 1
    ensures WalkOut(t, p) == Under(t, p[0])
  {
    assert p[1..] == [];
  }

  /** A leaf under a dict key leaves nothing new below it. */
  lemma AddLeafShape(v: Inp, cur: Option<Gat>, q: Path)
    requires !v.Obj? && q != [] && AddLeaf(v, cur).Some?
    ensures WalkOut(AddLeaf(v, cur).value, q) == if cur.Some? then WalkOut(cur.value, q) else None
  {
  }

  lemma {:induction false} SkippedStay(v: Inp, t: Gat, p: Path)
    requires v.Obj? && t.Tree? && Gather(v, t).Some? && p != [] && !Kept(p)
    ensures WalkOut(Gather(v, t).value, p) == WalkOut(t, p)
    decreases |p|
  {
    hide Skipped, AddLeaf, Gather;
    var k, q := p[0], p[1..];
    GatherHead(v, t, k);
    if k in v.m && !Skipped(k) {
      assert q != [] && !Kept(q);
      if v.m[k].Obj? {
        NothingThere(q);
        SkippedStay(v.m[k], if k in t.m then t.m[k] else NOTHING, q);
      } else {
        AddLeafShape(v.m[k], Under(t, k), q);
      }
    }
  }

  /** Under the names of the three item counts the target stays as it was. */
  lemma GatherSkips(v: Inp, t: Gat, p: Path, i: nat)
    requires v.Obj? && t.Tree? && Gather(v, t).Some? && i < |p|
    requires p[i] == "total_items" || p[i] == "total_items_warmup" || p[i] == "total_items_minus_warmup"
    ensures WalkOut(Gather(v, t).value, p) == WalkOut(t, p)
  {
    KeptMeans(p);
    hide Kept, Gather, WalkOut;
    SkippedStay(v, t, p);
  }

  // ------------------------------------------------------------- many inputs

  function GatherAll(vs: seq<Inp>): (r: Option<Gat>)
    requires forall i :: 0 <= i < |vs| ==> vs[i].Obj?
    ensures r.Some? ==> r.value.Tree?
  {
    if vs == [] then Some(NOTHING)
    else
      var before := GatherAll(vs[..|vs| - 1]);
      if before.None? then None else Gather(vs[|vs| - 1], before.value)
  }

  /** What is stored at a path. */
  datatype Slot = Empty | Branch | List(items: seq<Item>)

  function SlotOf(t: Option<Gat>): Slot {
    match t
    case None => Empty
    case Some(Tree(_)) => Branch
    case Some(Items(l)) => List(l)
  }

  /** What one entry of an input makes of what is stored at its path; `None` when Python raises. */
  function Enter(v: Inp, s: Slot): Option<Slot> {
    if v.Obj? then (if s.List? then None else Some(Branch))
    else match s
      case Branch => if v == Lst([]) then Some(Branch) else None
      case _ =>
        var r := AddLeaf(v, if s.List? then Some(Items(s.items)) else None);
        if r.None? then None else Some(SlotOf(r))
  }

  lemma EnterLeaf(v: Inp, cur: Option<Gat>)
    requires !v.Obj?
    ensures AddLeaf(v, cur).None? <==> Enter(v, SlotOf(cur)).None?
    ensures AddLeaf(v, cur).Some? ==> Enter(v, SlotOf(cur)) == Some(SlotOf(AddLeaf(v, cur)))
  {
  }

  /** What the inputs in turn make of it. */
  function SlotAt(vs: seq<Inp>, p: Path): Option<Slot> {
    if vs == [] then Some(Empty)
    else match SlotAt(vs[..|vs| - 1], p)
      case None => None
      case Some(s) =>
        match WalkIn(vs[|vs| - 1], p)
        case None => Some(s)
        case Some(v) => Enter(v, s)
  }

  predicate Dicts(vs: seq<Inp>) {
    forall i :: 0 <= i < |vs| ==> vs[i].Obj?
  }

  lemma {:induction false} GatheredSlot(vs: seq<Inp>, p: Path)
    requires Dicts(vs) && GatherAll(vs).Some? && p != []
    ensures Kept(p) ==> SlotAt(vs, p) == Some(SlotOf(WalkOut(GatherAll(vs).value, p)))
    ensures !Kept(p) ==> WalkOut(GatherAll(vs).value, p) == None
  {
    hide Skipped, AddLeaf, Gather, Kept;
    if vs == [] {
      NothingThere(p);
    } else {
      var init, v := vs[..|vs| - 1], vs[|vs| - 1];
      GatheredSlot(init, p);
      var before := GatherAll(init).value;
      if Kept(p) {
        GatherAt(v, before, p);
        if WalkIn(v, p).Some? && !WalkIn(v, p).value.Obj? { EnterLeaf(WalkIn(v, p).value, WalkOut(before, p)); }
      } else {
        SkippedStay(v, before, p);
      }
    }
  }

  /** At every path that names no item count: what the entries there make of it in turn; and nothing at any other. */
  lemma GatheredAt(vs: seq<Inp>, p: Path)
    requires Dicts(vs) && GatherAll(vs).Some? && p != []
    ensures (forall i :: 0 <= i < |p| ==> p[i] != "total_items" && p[i] != "total_items_warmup" && p[i] != "total_items_minus_warmup") ==>
              SlotAt(vs, p) == Some(SlotOf(WalkOut(GatherAll(vs).value, p)))
    ensures forall i :: 0 <= i < |p| && (p[i] == "total_items" || p[i] == "total_items_warmup" || p[i] == "total_items_minus_warmup") ==>
              WalkOut(GatherAll(vs).value, p) == None
  {
    KeptMeans(p);
    hide Kept, GatherAll, WalkOut, SlotAt, SlotOf;
    GatheredSlot(vs, p);
  }

  // ------------------------------------------------------------- lists only

  /** The lists at a path, in the order of the inputs. */
  function ListsAt(vs: seq<Inp>, p: Path): seq<seq<real>> {
    if vs == [] then []
    else
      var before := ListsAt(vs[..|vs| - 1], p);
      match WalkIn(vs[|vs| - 1], p)
      case Some(Lst(xs)) => before + [xs]
      case _ => before
  }

  predicate OnlyLists(vs: seq<Inp>, p: Path) {
    forall i :: 0 <= i < |vs| && WalkIn(vs[i], p).Some? ==> WalkIn(vs[i], p).value.Lst?
  }

  /** The `i`-th numbers of the lists that have one. */
  function Column(ls: seq<seq<real>>, i: nat): seq<real> {
    if ls == [] then []
    else
      var last := ls[|ls| - 1];
      Column(ls[..|ls| - 1], i) + if i < |last| then [last[i]] else []
  }

  function Columns(ls: seq<seq<real>>, n: nat): (l: seq<Item>)
    ensures |l| == n && forall i :: 0 <= i < n ==> l[i] == Many(Column(ls, i))
  {
    seq(n, i requires 0 <= i < n => Many(Column(ls, i)))
  }

  /** No list is longer than the first. */
  predicate FirstLongest(ls: seq<seq<real>>) {
    forall j :: 0 <= j < |ls| ==> |ls[j]| <= |ls[0]|
  }

  lemma FirstColumns(xs: seq<real>)
    ensures Enter(Lst(xs), Empty) == Some(List(Columns([xs], |xs|)))
  {
    forall i | 0 <= i < |xs| ensures Column([xs], i) == [xs[i]] {
      assert [xs][..0] == [];
    }
    assert Columns([xs], |xs|) == seq(|xs|, i requires 0 <= i < |xs| => Many([xs[i]]));
  }

  lemma NextColumns(ls: seq<seq<real>>, xs: seq<real>, n: nat)
    ensures Enter(Lst(xs), List(Columns(ls, n))) == if |xs| <= n then Some(List(Columns(ls + [xs], n))) else None
  {
    assert (ls + [xs])[..|ls|] == ls;
    forall i: nat ensures Column(ls + [xs], i) == Column(ls, i) + if i < |xs| then [xs[i]] else [] {
    }
    hide Column;
    var old_, new_ := Columns(ls, n), Columns(ls + [xs], n);
    if xs == [] {
      forall i | 0 <= i < n ensures old_[i] == new_[i] {
        assert Column(ls, i) + [] == Column(ls, i);
      }
      assert old_ == new_;
    } else if |xs| <= n {
      var out := seq(n, i requires 0 <= i < n => if i < |xs| && old_[i].Many? then Many(old_[i].xs + [xs[i]]) else old_[i]);
      forall i | 0 <= i < n ensures out[i] == new_[i] {
        assert Column(ls, i) + [] == Column(ls, i);
      }
      assert out == new_;
    }
  }

  lemma LastList(vs: seq<Inp>, p: Path)
    requires vs != [] && OnlyLists(vs, p)
    ensures OnlyLists(vs[..|vs| - 1], p)
    ensures WalkIn(vs[|vs| - 1], p).Some? ==> WalkIn(vs[|vs| - 1], p).value.Lst?
  {
    hide WalkIn;
    var init := vs[..|vs| - 1];
    forall i | 0 <= i < |init| ensures init[i] == vs[i] {
    }
  }

  lemma {:induction false} ListSlots(vs: seq<Inp>, p: Path)
    requires OnlyLists(vs, p)
    ensures var ls := ListsAt(vs, p);
            SlotAt(vs, p) == if ls == [] then Some(Empty) else if FirstLongest(ls) then Some(List(Columns(ls, |ls[0]|))) else None
  {
    if vs != [] {
      hide WalkIn, Columns, OnlyLists, FirstLongest, Enter;
      var init := vs[..|vs| - 1];
      LastList(vs, p);
      ListSlots(init, p);
      match WalkIn(vs[|vs| - 1], p)
      case Some(Lst(xs)) =>
        var ls := ListsAt(init, p);
        FirstColumns(xs);
        LongestSnoc(ls, xs);
        assert ls == [] ==> ls + [xs] == [xs];
        if ls != [] { NextColumns(ls, xs, |ls[0]|); }
      case _ =>
    }
  }

  lemma LongestSnoc(ls: seq<seq<real>>, xs: seq<real>)
    ensures FirstLongest([xs])
    ensures ls != [] ==> (FirstLongest(ls + [xs]) <==> FirstLongest(ls) && |xs| <= |ls[0]|)
  {
    if ls != [] {
      var all := ls + [xs];
      assert all[|ls|] == xs && all[0] == ls[0];
      assert forall j :: 0 <= j < |ls| ==> all[j] == ls[j];
    }
  }

  /** Lists are gathered into one list per place: its numbers in input order. */
  lemma GatheredRows(vs: seq<Inp>, p: Path)
    requires Dicts(vs) && GatherAll(vs).Some? && p != [] && OnlyLists(vs, p) && ListsAt(vs, p) != []
    requires forall i :: 0 <= i < |p| ==> p[i] != "total_items" && p[i] != "total_items_warmup" && p[i] != "total_items_minus_warmup"
    ensures var ls, r := ListsAt(vs, p), WalkOut(GatherAll(vs).value, p);
            && FirstLongest(ls) && r.Some? && r.value.Items? && |r.value.items| == |ls[0]|
            && forall i :: 0 <= i < |ls[0]| ==> r.value.items[i] == Many(Column(ls, i))
  {
    hide GatherAll, WalkOut, SlotAt, OnlyLists, ListsAt, FirstLongest, Columns, Column;
    GatheredAt(vs, p);
    ListSlots(vs, p);
  }

  /** A list that is longer than the first one at its path makes gathering raise. */
  lemma LongerListFails(vs: seq<Inp>, p: Path)
    requires Dicts(vs) && Kept(p) && OnlyLists(vs, p) && ListsAt(vs, p) != [] && !FirstLongest(ListsAt(vs, p))
    ensures GatherAll(vs).None?
  {
    ListSlots(vs, p);
    hide Kept, OnlyLists, ListsAt, FirstLongest, GatherAll, SlotAt;
    GatherAllFailsIff(vs);
  }

  // ------------------------------------------------------------- dicts and numbers only

  /** Only dicts and numbers, as in one expanded benchmark tree. */
  predicate Numeric(v: Inp)
    decreases v
  {
    match v
    case Num(_) => true
    case Lst(_) => false
    case Obj(m) => forall k :: k in m ==> Numeric(m[k])
  }

  predicate NumericTrees(vs: seq<Inp>) {
    forall i :: 0 <= i < |vs| ==> vs[i].Obj? && Numeric(vs[i])
  }

  lemma {:induction false} NumericWalk(v: Inp, p: Path)
    requires Numeric(v)
    ensures WalkIn(v, p).Some? ==> Numeric(WalkIn(v, p).value)
    decreases |p|
  {
    if p != [] && v.Obj? && p[0] in v.m { NumericWalk(v.m[p[0]], p[1..]); }
  }

  /** The numbers at a path, in the order of the inputs. */
  function ValuesAt(vs: seq<Inp>, p: Path): seq<real> {
    if vs == [] then []
    else
      var before := ValuesAt(vs[..|vs| - 1], p);
      match WalkIn(vs[|vs| - 1], p)
      case Some(Num(x)) => before + [x]
      case _ => before
  }

  predicate DictAt(vs: seq<Inp>, p: Path) {
    exists i :: 0 <= i < |vs| && WalkIn(vs[i], p).Some? && WalkIn(vs[i], p).value.Obj?
  }

  function Ones(xs: seq<real>): (l: seq<Item>)
    ensures |l| == |xs| && forall i :: 0 <= i < |l| ==> l[i] == One(xs[i])
  {
    seq(|xs|, i requires 0 <= i < |xs| => One(xs[i]))
  }

  lemma DictAtSnoc(vs: seq<Inp>, p: Path)
    requires vs != []
    ensures DictAt(vs, p) <==> DictAt(vs[..|vs| - 1], p) || (WalkIn(vs[|vs| - 1], p).Some? && WalkIn(vs[|vs| - 1], p).value.Obj?)
  {
    hide WalkIn;
    var init := vs[..|vs| - 1];
    if i :| 0 <= i < |init| && WalkIn(init[i], p).Some? && WalkIn(init[i], p).value.Obj? {
      assert vs[i] == init[i];
    }
    if i :| 0 <= i < |vs| && WalkIn(vs[i], p).Some? && WalkIn(vs[i], p).value.Obj? {
      if i < |init| { assert init[i] == vs[i]; }
    }
  }

  /** Numbers pile up in a list, dicts make a dict, and the two exclude each other. */
  function NumericSlot(xs: seq<real>, dict: bool): Option<Slot> {
    if xs == [] then Some(if dict then Branch else Empty) else if dict then None else Some(List(Ones(xs)))
  }

  lemma EnterNumber(x: real, xs: seq<real>)
    ensures Enter(Inp.Num(x), if xs == [] then Empty else List(Ones(xs))) == Some(List(Ones(xs + [x])))
    ensures Enter(Inp.Num(x), Branch) == None
  {
    assert Ones(xs + [x]) == Ones(xs) + [One(x)];
    assert xs == [] ==> Ones(xs + [x]) == [One(x)];
  }

  lemma {:induction false} NumericSlots(vs: seq<Inp>, p: Path)
    requires NumericTrees(vs)
    ensures SlotAt(vs, p) == NumericSlot(ValuesAt(vs, p), DictAt(vs, p))
  {
    if vs != [] {
      hide Numeric, Ones, WalkIn;
      var init, v := vs[..|vs| - 1], vs[|vs| - 1];
      NumericSlots(init, p);
      DictAtSnoc(vs, p);
      NumericWalk(v, p);
      LeafIsNumber(WalkIn(v, p));
      hide DictAt;
      match WalkIn(v, p)
      case Some(Num(x)) => EnterNumber(x, ValuesAt(init, p));
      case _ =>
    }
  }

  lemma LeafIsNumber(v: Option<Inp>)
    requires v.Some? ==> Numeric(v.value)
    ensures v.Some? && !v.value.Obj? ==> v.value.Num?
  {
  }

  /** Of numeric trees, at every path that names no item count: the list of its numbers in order, a dict where some input has one,
      nothing else; and nothing at any other path. */
  lemma GatheredNumbers(vs: seq<Inp>, p: Path)
    requires NumericTrees(vs) && GatherAll(vs).Some? && p != []
    ensures var r := WalkOut(GatherAll(vs).value, p);
            (forall i :: 0 <= i < |p| ==> p[i] != "total_items" && p[i] != "total_items_warmup" && p[i] != "total_items_minus_warmup") ==>
              && (r.Some? && r.value.Items? <==> ValuesAt(vs, p) != [])
              && (r.Some? && r.value.Items? ==> r.value.items == Ones(ValuesAt(vs, p)))
              && (r.Some? && r.value.Tree? <==> DictAt(vs, p))
    ensures forall i :: 0 <= i < |p| && (p[i] == "total_items" || p[i] == "total_items_warmup" || p[i] == "total_items_minus_warmup") ==>
              WalkOut(GatherAll(vs).value, p) == None
  {
    KeptMeans(p);
    hide Kept, GatherAll, WalkOut, ValuesAt, DictAt, Ones;
    GatheredKept(vs, p);
  }

  lemma GatheredKept(vs: seq<Inp>, p: Path)
    requires NumericTrees(vs) && GatherAll(vs).Some? && p != []
    ensures var r := WalkOut(GatherAll(vs).value, p);
            && (r.Some? && r.value.Items? <==> Kept(p) && ValuesAt(vs, p) != [])
            && (r.Some? && r.value.Items? ==> r.value.items == Ones(ValuesAt(vs, p)))
            && (r.Some? && r.value.Tree? <==> Kept(p) && DictAt(vs, p))
  {
    hide WalkOut, WalkIn, Kept, ValuesAt, DictAt, GatherAll, SlotAt, Ones;
    GatheredSlot(vs, p);
    if Kept(p) { NumericSlots(vs, p); }
  }

  // ------------------------------------------------------------- when gathering succeeds

  /** What the input has at some path cannot enter what the target has there. */
  ghost predicate Clash(v: Inp, t: Gat, p: Path) {
    Kept(p) && WalkIn(v, p).Some? && Enter(WalkIn(v, p).value, SlotOf(WalkOut(t, p))).None?
  }

  /** Gathering raises iff the input and the target clash somewhere. */
  lemma {:induction false} GatherFailsIff(v: Inp, t: Gat)
    requires v.Obj? && t.Tree?
    ensures Gather(v, t).None? <==> exists p :: Clash(v, t, p)
    decreases v
  {
    hide Skipped, AddLeaf, Gather, Clash;
    FailsAtKey(v, t);
    forall k | k in v.m && !Skipped(k) ensures GatherKey(v, k, Under(t, k)).None? <==> exists p :: p != [] && p[0] == k && Clash(v, t, p) {
      KeyFailsIff(v, t, k);
    }
    if p :| Clash(v, t, p) {
      ClashKey(v, t, p);
    }
  }

  lemma FailsAtKey(v: Inp, t: Gat)
    requires v.Obj? && t.Tree?
    ensures Gather(v, t).None? <==> exists k :: k in v.m && !Skipped(k) && GatherKey(v, k, Under(t, k)).None?
  {
    hide Skipped;
  }

  lemma ClashKey(v: Inp, t: Gat, p: Path)
    requires v.Obj? && Clash(v, t, p)
    ensures p != [] && p[0] in v.m && !Skipped(p[0])
  {
    hide Skipped;
  }

  lemma KeyFailsIff(v: Inp, t: Gat, k: string)
    requires v.Obj? && t.Tree? && k in v.m && !Skipped(k)
    ensures GatherKey(v, k, Under(t, k)).None? <==> exists p :: p != [] && p[0] == k && Clash(v, t, p)
    decreases v, 0
  {
    hide Skipped, Gather, Clash;
    var cur := Under(t, k);
    ClashHere(v, t, k);
    if v.m[k].Obj? && (cur.None? || cur.value.Tree?) {
      var below := if cur.None? then NOTHING else cur.value;
      GatherFailsIff(v.m[k], below);
      forall q ensures Clash(v, t, [k] + q) <==> q != [] && Clash(v.m[k], below, q) {
        ClashBelow(v, t, k, q);
      }
      if p :| p != [] && p[0] == k && Clash(v, t, p) {
        assert p == [k] + p[1..];
      }
      if q :| Clash(v.m[k], below, q) {
        ClashBelow(v, t, k, q);
        assert ([k] + q)[0] == k;
      }
    } else {
      if p :| p != [] && p[0] == k && Clash(v, t, p) {
        ClashShort(v, t, k, p);
      }
    }
  }

  lemma ClashHere(v: Inp, t: Gat, k: string)
    requires v.Obj? && t.Tree? && k in v.m && !Skipped(k)
    ensures Clash(v, t, [k]) <==> Enter(v.m[k], SlotOf(Under(t, k))).None?
    ensures !v.m[k].Obj? ==> (GatherKey(v, k, Under(t, k)).None? <==> Clash(v, t, [k]))
    ensures v.m[k].Obj? && Under(t, k).Some? && Under(t, k).value.Items? ==> GatherKey(v, k, Under(t, k)).None? && Clash(v, t, [k])
    ensures [k] != [] && [k][0] == k
  {
    hide Skipped, AddLeaf;
    ReadOne(v, t, [k]);
    assert Kept([k]);
    if !v.m[k].Obj? { EnterLeaf(v.m[k], Under(t, k)); }
    hide WalkIn, WalkOut, Gather;
  }

  lemma ClashBelow(v: Inp, t: Gat, k: string, q: Path)
    requires v.Obj? && t.Tree? && k in v.m && !Skipped(k) && v.m[k].Obj? && (Under(t, k).None? || Under(t, k).value.Tree?)
    ensures Clash(v, t, [k] + q) <==> q != [] && Clash(v.m[k], if k in t.m then t.m[k] else NOTHING, q)
    ensures Clash(v.m[k], if k in t.m then t.m[k] else NOTHING, q) ==> q != []
  {
    hide Skipped;
    var p := [k] + q;
    assert p[1..] == q && p[0] == k;
    assert WalkIn(v, p) == WalkIn(v.m[k], q) && WalkOut(t, p) == if k in t.m then WalkOut(t.m[k], q) else None;
    hide WalkOut;
    if q != [] {
      NothingThere(q);
      assert Kept(p) <==> Kept(q) by {
        assert forall i :: 0 <= i < |q| ==> p[i + 1] == q[i];
        assert forall i :: 0 < i < |p| ==> p[i] == q[i - 1];
      }
    } else {
      WalkHere(v.m[k], if k in t.m then t.m[k] else NOTHING);
    }
  }

  lemma WalkHere(v: Inp, t: Gat)
    ensures WalkIn(v, []) == Some(v) && WalkOut(t, []) == Some(t)
  {
  }

  lemma LeafEnds(v: Inp, q: Path)
    ensures q != [] && !v.Obj? ==> WalkIn(v, q) == None
  {
  }

  lemma ListEnds(t: Gat, q: Path)
    ensures q != [] && !t.Tree? ==> WalkOut(t, q) == None
  {
  }

  /** Nothing clashes below a leaf of the input or of the target. */
  lemma ClashShort(v: Inp, t: Gat, k: string, p: Path)
    requires v.Obj? && t.Tree? && k in v.m && p != [] && p[0] == k && Clash(v, t, p)
    requires !(v.m[k].Obj? && (Under(t, k).None? || Under(t, k).value.Tree?))
    ensures Clash(v, t, [k])
  {
    hide Skipped;
    LeafEnds(v.m[k], p[1..]);
    if Under(t, k).Some? { ListEnds(Under(t, k).value, p[1..]); }
    assert p[1..] == [];
    assert |p| == 1;
    assert p == [k];
  }

  /** Gathering raises iff at some path an entry cannot enter what the earlier ones made there. */
  lemma {:induction false} GatherAllFailsIff(vs: seq<Inp>)
    requires Dicts(vs)
    ensures GatherAll(vs).None? <==> exists p :: Kept(p) && SlotAt(vs, p).None?
  {
    hide Skipped, AddLeaf, Gather, Kept, Clash, WalkIn, WalkOut, Enter;
    if vs != [] {
      var init, v := vs[..|vs| - 1], vs[|vs| - 1];
      GatherAllFailsIff(init);
      if GatherAll(init).Some? {
        var t := GatherAll(init).value;
        GatherFailsIff(v, t);
        forall p | Kept(p) ensures Clash(v, t, p) <==> SlotAt(vs, p).None? {
          ClashMeans(vs, p);
        }
        if p :| Clash(v, t, p) { ClashKept(v, t, p); }
      } else {
        var p :| Kept(p) && SlotAt(init, p).None?;
        assert SlotAt(vs, p).None?;
      }
    }
  }

  lemma ClashKept(v: Inp, t: Gat, p: Path)
    requires Clash(v, t, p)
    ensures Kept(p)
  {
  }

  lemma ClashMeans(vs: seq<Inp>, p: Path)
    requires vs != [] && Dicts(vs) && GatherAll(vs[..|vs| - 1]).Some? && Kept(p)
    ensures Clash(vs[|vs| - 1], GatherAll(vs[..|vs| - 1]).value, p) <==> SlotAt(vs, p).None?
  {
    var init := vs[..|vs| - 1];
    assert p != [] by { KeptNotEmpty(p); }
    assert Dicts(init);
    GatheredSlot(init, p);
    hide Skipped, Kept, WalkIn, WalkOut, Gather, AddLeaf, Enter;
  }

  /** Gathering numeric trees raises iff some path holds a dict in one of them and a number in another. */
  lemma NumbersFailIff(vs: seq<Inp>)
    requires NumericTrees(vs)
    ensures GatherAll(vs).None? <==> exists p :: Kept(p) && DictAt(vs, p) && ValuesAt(vs, p) != []
  {
    GatherAllFailsIff(vs);
    hide Kept, DictAt, ValuesAt, SlotAt, GatherAll;
    forall p ensures SlotAt(vs, p).None? <==> DictAt(vs, p) && ValuesAt(vs, p) != [] {
      NumericSlots(vs, p);
    }
  }

  lemma KeptNotEmpty(p: Path)
    requires Kept(p)
    ensures p != []
  {
  }

  // ------------------------------------------------------------- reducing

  /** What is computed beside the mean; `variance` is the square of the standard deviation. */
  datatype Spread = Spread(min: real, max: real, variance: real, median: real, percentile16: real, percentile84: real, percentile95: real)

  /** The figures of one list of numbers; the mean of an empty list is not a number. */
  datatype Figures = Figures(mean: Option<real>, spread: Option<Spread>)

  /** A record of one list, or of each row of a list of lists, or a dict of records. */
  datatype Res = Record(total: nat, figures: Figures) | Rows(count: nat, rows: seq<Figures>) | Sub(m: map<string, Res>)

  /** The numbers of a list that holds only numbers. */
  predicate AllOnes(l: seq<Item>) {
    forall i :: 0 <= i < |l| ==> l[i].One?
  }

  /** A list of lists of one length. */
  predicate Rectangular(l: seq<Item>) {
    forall i :: 0 <= i < |l| ==> l[i].Many? && |l[i].xs| == (if l[0].Many? then |l[0].xs| else 0)
  }

  function Numbers(l: seq<Item>): (xs: seq<real>)
    requires AllOnes(l)
    ensures |xs| == |l| && forall i :: 0 <= i < |xs| ==> l[i] == One(xs[i])
  {
    seq(|l|, i requires 0 <= i < |l| => l[i].x)
  }

  /** Only the mean of an empty list can be asked for. */
  predicate HasFigures(xs: seq<real>, meanOnly: bool) {
    xs != [] || meanOnly
  }

  function FiguresOf(xs: seq<real>, meanOnly: bool): Figures
    requires HasFigures(xs, meanOnly)
  {
    if xs == [] then Figures(None, None)
    else
      Figures(Some(Mean(xs)),
              if meanOnly then None
              else Some(Spread(Min(xs), Max(xs), Variance(xs), Median(xs), Percentile(xs, 16), Percentile(xs, 84), Percentile(xs, 95))))
  }

  /** What the figures beside the mean mean, for a list that is not empty. */
  ghost predicate SpreadOf(d: Spread, mean: real, xs: seq<real>)
    requires xs != []
  {
    && d.min in xs && d.max in xs && (forall i :: 0 <= i < |xs| ==> d.min <= xs[i] <= d.max)
    && d.min <= d.percentile16 <= d.median <= d.percentile84 <= d.percentile95 <= d.max
    && d.variance >= 0.0 && (d.variance == 0.0 <==> forall i :: 0 <= i < |xs| ==> xs[i] == mean)
    && d.variance * |xs| as real == Sum(Squares(xs, 0.0)) - |xs| as real * (mean * mean)
  }

  /** The percentiles are elements of the sorted list when its length allows it. */
  ghost predicate ElementsOf(d: Spread, xs: seq<real>)
    requires xs != [] && |Sort(xs)| == |xs|
  {
    var s, n := Sort(xs), |xs|;
    && (n % 100 == 1 ==> var m := n / 100; d.percentile16 == s[16 * m] && d.percentile84 == s[84 * m] && d.percentile95 == s[95 * m])
    && (n % 2 == 1 ==> d.median == s[n / 2])
    && (n % 2 == 0 ==> d.median == (s[n / 2 - 1] + s[n / 2]) / 2.0)
  }

  /** What the figures of a list mean; those of an empty one are no numbers. */
  ghost predicate Describes(f: Figures, xs: seq<real>, meanOnly: bool) {
    && (f.mean.None? <==> xs == []) && (f.spread.None? <==> meanOnly)
    && (f.mean.Some? ==> f.mean.value * |xs| as real == Sum(xs))
    && (f.mean.Some? && f.spread.Some? ==> |Sort(xs)| == |xs| && SpreadOf(f.spread.value, f.mean.value, xs) && ElementsOf(f.spread.value, xs))
  }

  /** A record of a list: its length, and figures that mean what they should. */
  ghost predicate RecordOf(r: Option<Res>, xs: seq<real>, meanOnly: bool) {
    r.Some? && r.value.Record? && r.value.total == |xs| && Describes(r.value.figures, xs, meanOnly)
  }

  lemma SomeFigures(xs: seq<real>, meanOnly: bool)
    requires xs != []
    ensures HasFigures(xs, meanOnly)
  {
  }

  lemma StatsAreRecord(xs: seq<real>, meanOnly: bool)
    requires HasFigures(xs, meanOnly)
    ensures RecordOf(Some(StatsOf(xs, meanOnly)), xs, meanOnly)
  {
    hide Describes, FiguresOf;
    FiguresDescribe(xs, meanOnly);
  }

  lemma SpreadMeans(xs: seq<real>)
    requires xs != []
    ensures SpreadOf(Spread(Min(xs), Max(xs), Variance(xs), Median(xs), Percentile(xs, 16), Percentile(xs, 84), Percentile(xs, 95)), Mean(xs), xs)
  {
    hide *;
    BoundsOf(xs);
    FiguresOrdered(xs);
    VarianceSign(xs);
    VarianceIs(xs);
    SpreadIntro(xs, Min(xs), Max(xs), Variance(xs), Median(xs), Percentile(xs, 16), Percentile(xs, 84), Percentile(xs, 95), Mean(xs));
  }

  lemma BoundsOf(xs: seq<real>)
    requires xs != []
    ensures Min(xs) in xs && Max(xs) in xs && forall i :: 0 <= i < |xs| ==> Min(xs) <= xs[i] <= Max(xs)
  {
    hide *;
  }

  lemma SpreadIntro(xs: seq<real>, min: real, max: real, variance: real, median: real, p16: real, p84: real, p95: real, mean: real)
    requires xs != [] && min in xs && max in xs && forall i :: 0 <= i < |xs| ==> min <= xs[i] <= max
    requires min <= p16 <= median <= p84 <= p95 <= max
    requires variance >= 0.0 && (variance == 0.0 <==> forall i :: 0 <= i < |xs| ==> xs[i] == mean)
    requires variance * |xs| as real == Sum(Squares(xs, 0.0)) - |xs| as real * (mean * mean)
    ensures SpreadOf(Spread(min, max, variance, median, p16, p84, p95), mean, xs)
  {
    hide Sum, Squares;
  }

  lemma ElementsMean(xs: seq<real>)
    requires xs != []
    ensures |Sort(xs)| == |xs|
    ensures ElementsOf(Spread(Min(xs), Max(xs), Variance(xs), Median(xs), Percentile(xs, 16), Percentile(xs, 84), Percentile(xs, 95)), xs)
  {
    hide Min, Max, Variance, Percentile, Sort;
    SortSorts(xs);
    if |xs| % 100 == 1 {
      var m := |xs| / 100;
      PercentileIsElement(xs, m, 16);
      PercentileIsElement(xs, m, 84);
      PercentileIsElement(xs, m, 95);
    }
  }

  lemma FiguresDescribe(xs: seq<real>, meanOnly: bool)
    requires HasFigures(xs, meanOnly)
    ensures Describes(FiguresOf(xs, meanOnly), xs, meanOnly)
  {
    hide SpreadOf, ElementsOf, Min, Max, Mean, Variance, Median, Percentile, Sort, Sum;
    if xs != [] {
      MeanTimes(xs);
      if !meanOnly {
        SpreadMeans(xs);
        ElementsMean(xs);
      }
    }
  }

  /** Percentiles interpolate: when the sorted list has equal steps they lie that part of the way along it. */
  lemma EvenFigures(xs: seq<real>, s: seq<real>, a: real, d: real)
    requires xs != [] && s == Sort(xs) && EvenSteps(s, a, d)
    ensures var f, n := FiguresOf(xs, false), (|xs| - 1) as real;
            && f.spread.Some?
            && f.spread.value.percentile16 == a + d * (16.0 * n / 100.0)
            && f.spread.value.percentile84 == a + d * (84.0 * n / 100.0)
            && f.spread.value.percentile95 == a + d * (95.0 * n / 100.0)
  {
    hide EvenSteps, Sort, Min, Max, Mean, Variance, Median, Percentile;
    PercentileOfEvenSteps(xs, s, a, d, 16, 16 * (|xs| - 1));
    PercentileOfEvenSteps(xs, s, a, d, 84, 84 * (|xs| - 1));
    PercentileOfEvenSteps(xs, s, a, d, 95, 95 * (|xs| - 1));
  }

  function StatsOf(xs: seq<real>, meanOnly: bool): Res
    requires HasFigures(xs, meanOnly)
  {
    Record(|xs|, FiguresOf(xs, meanOnly))
  }

  /** The list is neither one of numbers nor one of lists of one length, or an extreme of nothing is asked for. */
  predicate BadList(l: seq<Item>, meanOnly: bool) {
    if AllOnes(l) then l == [] && !meanOnly else !Rectangular(l) || (l[0].xs == [] && !meanOnly)
  }

  /** The record of a list, along its last axis. */
  function ListStats(l: seq<Item>, meanOnly: bool): Res
    requires !BadList(l, meanOnly)
  {
    if AllOnes(l) then StatsOf(Numbers(l), meanOnly)
    else Rows(|l|, seq(|l|, i requires 0 <= i < |l| => FiguresOf(l[i].xs, meanOnly)))
  }

  /** Every list is replaced by its record; `None` when Python raises. */
  function Calc(g: Gat, meanOnly: bool): (r: Option<Res>)
    decreases g
  {
    match g
    case Items(l) => if BadList(l, meanOnly) then None else Some(ListStats(l, meanOnly))
    case Tree(m) =>
      if forall k :: k in m ==> Calc(m[k], meanOnly).Some? then Some(Sub(map k | k in m :: Calc(m[k], meanOnly).value))
      else None
  }

  /** One value: a dict is reduced in turn, a list becomes its record. */
  method CalcOne(value: Gat, meanOnly: bool) returns (r: Option<Res>)
    ensures r == Calc(value, meanOnly)
    decreases value, 1
  {
    hide BadList, ListStats;
    if value.Tree? {
      r := CalcStats(value, meanOnly);
    } else if BadList(value.items, meanOnly) {
      r := None;
    } else {
      r := Some(ListStats(value.items, meanOnly));
    }
  }

  /** The loop over the keys, which replaces each value in place. */
  method CalcStats(g: Gat, meanOnly: bool) returns (r: Option<Res>)
    requires g.Tree?
    ensures r == Calc(g, meanOnly)
    decreases g, 0
  {
    CalcTree(g.m, meanOnly);
    hide Calc;
    var out: map<string, Res>, rest := map[], g.m.Keys;
    while rest != {}
      invariant rest <= g.m.Keys
      invariant forall k :: k in g.m && k !in rest ==> Calc(g.m[k], meanOnly).Some?
      invariant forall k :: k in out <==> k in g.m && k !in rest
      invariant forall k :: k in out ==> out[k] == Calc(g.m[k], meanOnly).value
      decreases |rest|
    {
      var key :| key in rest;
      rest := rest - {key};
      var value := CalcOne(g.m[key], meanOnly);
      if value.None? {
        return None;
      }
      out := out[key := value.value];
    }
    assert Calc(g, meanOnly).value.m == out;
    r := Some(Sub(out));
  }

  lemma CalcList(l: seq<Item>, meanOnly: bool)
    ensures Calc(Items(l), meanOnly).Some? ==> !Calc(Items(l), meanOnly).value.Sub?
  {
    hide BadList;
  }

  lemma CalcTree(m: map<string, Gat>, meanOnly: bool)
    ensures Calc(Tree(m), meanOnly).None? <==> exists k :: k in m && Calc(m[k], meanOnly).None?
    ensures Calc(Tree(m), meanOnly).Some? ==>
              var r := Calc(Tree(m), meanOnly).value;
              r.Sub? && r.m.Keys == m.Keys && forall k :: k in m ==> Calc(m[k], meanOnly).Some? && r.m[k] == Calc(m[k], meanOnly).value
  {
    hide ListStats, BadList;
  }

  function WalkRes(r: Res, p: Path): Option<Res>
    decreases |p|
  {
    if p == [] then Some(r) else if r.Sub? && p[0] in r.m then WalkRes(r.m[p[0]], p[1..]) else None
  }

  /** Reduced and gathered trees have the same paths; a list and its record face each other. */
  lemma {:induction false} CalcAt(g: Gat, meanOnly: bool, p: Path)
    requires Calc(g, meanOnly).Some?
    ensures WalkRes(Calc(g, meanOnly).value, p) == match WalkOut(g, p) { case None => None case Some(h) => Calc(h, meanOnly) }
    ensures WalkOut(g, p).Some? ==> Calc(WalkOut(g, p).value, meanOnly).Some?
    decreases |p|
  {
    hide Calc, ListStats, BadList;
    if p != [] && g.Tree? {
      assert g == Tree(g.m);
      CalcTree(g.m, meanOnly);
      if p[0] in g.m { CalcAt(g.m[p[0]], meanOnly, p[1..]); }
    } else if p != [] {
      CalcList(g.items, meanOnly);
    }
  }

  /** A path to a list that has no record. */
  ghost predicate BadAt(g: Gat, meanOnly: bool, p: Path) {
    WalkOut(g, p).Some? && WalkOut(g, p).value.Items? && BadList(WalkOut(g, p).value.items, meanOnly)
  }

  /** Reducing raises iff there is such a list. */
  lemma {:induction false} CalcFailsIff(g: Gat, meanOnly: bool)
    ensures Calc(g, meanOnly).None? <==> exists p :: BadAt(g, meanOnly, p)
    decreases g
  {
    hide ListStats, BadList, BadAt;
    match g
    case Items(l) =>
      BadHere(g, meanOnly);
      assert Calc(g, meanOnly).None? <==> BadList(l, meanOnly);
      if p :| BadAt(g, meanOnly, p) { BadOnlyHere(g, meanOnly, p); }
    case Tree(m) =>
      CalcTree(m, meanOnly);
      if k :| k in m && Calc(m[k], meanOnly).None? {
        CalcFailsIff(m[k], meanOnly);
        var q :| BadAt(m[k], meanOnly, q);
        BadBelow(m, meanOnly, k, q);
      }
      if p :| BadAt(g, meanOnly, p) {
        BadTree(m, meanOnly, p);
        CalcFailsIff(m[p[0]], meanOnly);
        BadBelow(m, meanOnly, p[0], p[1..]);
      }
    hide Calc;
  }

  lemma BadHere(g: Gat, meanOnly: bool)
    requires g.Items?
    ensures BadAt(g, meanOnly, []) <==> BadList(g.items, meanOnly)
  {
    hide BadList;
  }

  lemma BadOnlyHere(g: Gat, meanOnly: bool, p: Path)
    requires g.Items? && BadAt(g, meanOnly, p)
    ensures p == [] && BadList(g.items, meanOnly)
  {
    hide BadList;
  }

  lemma BadBelow(m: map<string, Gat>, meanOnly: bool, k: string, q: Path)
    requires k in m
    ensures BadAt(Tree(m), meanOnly, [k] + q) <==> BadAt(m[k], meanOnly, q)
  {
    assert ([k] + q)[1..] == q && ([k] + q)[0] == k;
    assert WalkOut(Tree(m), [k] + q) == WalkOut(m[k], q);
    hide WalkOut, BadList;
  }

  lemma BadTree(m: map<string, Gat>, meanOnly: bool, p: Path)
    requires BadAt(Tree(m), meanOnly, p)
    ensures p != [] && p[0] in m && p == [p[0]] + p[1..]
  {
    hide BadList;
  }

  lemma OnesHaveRecord(xs: seq<real>, meanOnly: bool)
    ensures BadList(Ones(xs), meanOnly) <==> !HasFigures(xs, meanOnly)
    ensures HasFigures(xs, meanOnly) ==> ListStats(Ones(xs), meanOnly) == StatsOf(xs, meanOnly)
  {
    assert Numbers(Ones(xs)) == xs;
    hide FiguresOf;
  }

  /** No record, item by item: more than the mean of nothing is asked for, or a number meets a list, or lists differ in length. */
  lemma NoRecordIff(l: seq<Item>, meanOnly: bool)
    ensures Calc(Items(l), meanOnly).None? <==>
              || (!meanOnly && (l == [] || exists i :: 0 <= i < |l| && l[i] == Many([])))
              || (exists i, j :: 0 <= i < |l| && 0 <= j < |l| && l[i].One? && l[j].Many?)
              || (exists i, j :: 0 <= i < |l| && 0 <= j < |l| && l[i].Many? && l[j].Many? && |l[i].xs| != |l[j].xs|)
  {
    if BadList(l, meanOnly) && !AllOnes(l) {
      var j :| 0 <= j < |l| && l[j].Many?;
      if !Rectangular(l) {
        var i :| 0 <= i < |l| && !(l[i].Many? && |l[i].xs| == (if l[0].Many? then |l[0].xs| else 0));
        if l[i].Many? && l[0].Many? {
          assert |l[i].xs| != |l[0].xs|;
        } else if l[i].Many? {
          assert l[0].One? && l[j].Many?;
        } else {
          assert l[i].One? && l[j].Many?;
        }
      } else {
        assert l[0] == Many([]);
      }
    }
  }

  /** A list of numbers is reduced to a record of its figures. */
  lemma NumbersReduced(xs: seq<real>, meanOnly: bool)
    requires HasFigures(xs, meanOnly)
    ensures Calc(Items(Ones(xs)), meanOnly).Some?
    ensures var r := Calc(Items(Ones(xs)), meanOnly).value;
            RecordOf(Some(r), xs, meanOnly)
  {
    hide RecordOf, StatsOf, BadList, ListStats, Ones;
    OnesHaveRecord(xs, meanOnly);
    StatsAreRecord(xs, meanOnly);
  }

  /** A list of lists is reduced row by row; all rows have figures, or none has. */
  lemma RowsReduced(l: seq<Item>, meanOnly: bool)
    requires Rectangular(l) && l != []
    ensures Calc(Items(l), meanOnly).None? <==> !HasFigures(l[0].xs, meanOnly)
    ensures Calc(Items(l), meanOnly).Some? ==>
              var r := Calc(Items(l), meanOnly).value;
              && r.Rows? && r.count == |l| && |r.rows| == |l|
              && forall i :: 0 <= i < |l| ==> r.rows[i] == FiguresOf(l[i].xs, meanOnly) && Describes(r.rows[i], l[i].xs, meanOnly)
  {
    hide FiguresOf, Describes;
    assert !l[0].One?;
    forall i | 0 <= i < |l| && HasFigures(l[i].xs, meanOnly) ensures Describes(FiguresOf(l[i].xs, meanOnly), l[i].xs, meanOnly) {
      FiguresDescribe(l[i].xs, meanOnly);
    }
  }

  /** Gathering numeric trees and reducing: a record at exactly the paths that hold numbers and name no item count, with their number
      and the figures of those numbers in order. */
  lemma GatherThenCalc(vs: seq<Inp>, meanOnly: bool, p: Path)
    requires NumericTrees(vs) && GatherAll(vs).Some? && p != []
    ensures Calc(GatherAll(vs).value, meanOnly).Some?
    ensures var r, xs := WalkRes(Calc(GatherAll(vs).value, meanOnly).value, p), ValuesAt(vs, p);
            (forall i :: 0 <= i < |p| ==> p[i] != "total_items" && p[i] != "total_items_warmup" && p[i] != "total_items_minus_warmup") ==>
              && (r.Some? && !r.value.Sub? <==> xs != [])
              && (xs != [] ==> r == Some(StatsOf(xs, meanOnly)) && RecordOf(r, xs, meanOnly))
    ensures forall i :: 0 <= i < |p| && (p[i] == "total_items" || p[i] == "total_items_warmup" || p[i] == "total_items_minus_warmup") ==>
              WalkRes(Calc(GatherAll(vs).value, meanOnly).value, p) == None
  {
    KeptMeans(p);
    hide Kept, GatherAll, WalkRes, ValuesAt, Calc, RecordOf, StatsOf, WalkOut;
    KeptThenCalc(vs, meanOnly, p);
    if ValuesAt(vs, p) != [] { StatsAreRecord(ValuesAt(vs, p), meanOnly); }
    CalcAt(GatherAll(vs).value, meanOnly, p);
    GatheredSlot(vs, p);
  }

  lemma KeptThenCalc(vs: seq<Inp>, meanOnly: bool, p: Path)
    requires NumericTrees(vs) && GatherAll(vs).Some? && p != []
    ensures Calc(GatherAll(vs).value, meanOnly).Some?
    ensures var r := WalkRes(Calc(GatherAll(vs).value, meanOnly).value, p);
            && (r.Some? && !r.value.Sub? <==> Kept(p) && ValuesAt(vs, p) != [])
            && (Kept(p) && ValuesAt(vs, p) != [] ==> r == Some(StatsOf(ValuesAt(vs, p), meanOnly)))
  {
    hide WalkOut, WalkIn, WalkRes, GatherAll, Calc, Kept, DictAt, StatsOf, Ones;
    var g := GatherAll(vs).value;
    CalcFailsIff(g, meanOnly);
    forall q ensures !BadAt(g, meanOnly, q) {
      NoBadList(vs, meanOnly, q);
    }
    CalcAt(g, meanOnly, p);
    GatheredKept(vs, p);
    CalcShape(WalkOut(g, p), meanOnly, ValuesAt(vs, p));
  }

  /** Every gathered list holds numbers and is not empty. */
  lemma NoBadList(vs: seq<Inp>, meanOnly: bool, p: Path)
    requires NumericTrees(vs) && GatherAll(vs).Some?
    ensures !BadAt(GatherAll(vs).value, meanOnly, p)
  {
    if p == [] {
      assert GatherAll(vs).value.Tree?;
    } else {
      hide GatherAll, WalkOut, ValuesAt, Ones, BadList;
      GatheredKept(vs, p);
      OnesHaveRecord(ValuesAt(vs, p), meanOnly);
    }
  }

  lemma CalcShape(g: Option<Gat>, meanOnly: bool, xs: seq<real>)
    requires g.Some? ==> Calc(g.value, meanOnly).Some?
    ensures g.Some? ==> (Calc(g.value, meanOnly).value.Sub? <==> g.value.Tree?)
    ensures g.Some? && xs != [] && g.value == Items(Ones(xs)) ==> Calc(g.value, meanOnly).value == StatsOf(xs, meanOnly)
  {
    hide ListStats, BadList, StatsOf, Ones;
    if g.Some? && g.value.Items? { CalcList(g.value.items, meanOnly); }
    if g.Some? && xs != [] { OnesHaveRecord(xs, meanOnly); }
  }
}
