/**
 `expand_nvtx_range_names`: the ranges of one thread carry the id of their parent; the pass
 renames them in place, in the order they are listed, to the full path from the root.
 */
module NvtxNames {
  import opened Text
  import opened Paths
  import opened PyDict

  /** A parent is `None`, the text "None", or an id; id 0 counts as no parent. */
  datatype ParentId = Absent | NoneText | Id(id: int)

  class NvtxRange {
    var flatName: string
    const parentId: ParentId

    constructor (flatName: string, parentId: ParentId)
      ensures this.flatName == flatName && this.parentId == parentId
    {
      this.flatName, this.parentId := flatName, parentId;
    }
  }

  /** `range_info[process_id][thread_id]` */
  datatype Thread = Thread(ids: seq<int>, ranges: map<int, NvtxRange>) {
    /** A dict of distinct objects. */
    ghost predicate Valid() {
      && (forall i, j :: 0 <= i < j < |ids| ==> ids[i] != ids[j])
      && (forall i :: 0 <= i < |ids| ==> ids[i] in ranges)
      && (forall id :: id in ranges ==> id in ids)
      && (forall i, j :: 0 <= i < j < |ids| ==> ranges[ids[i]] != ranges[ids[j]])
    }

    function Range(i: nat): (r: NvtxRange)
      requires Valid() && i < |ids|
      ensures r in ranges.Values
    {
      ranges[ids[i]]
    }
  }

  // ------------------------------------------------------------- on values

  datatype Row = Row(id: int, parent: ParentId, name: string)

  predicate IsRoot(r: Row) {
    r.parent.Absent? || r.parent.NoneText? || r.parent.id == 0
  }

  /** Where an id is listed, or the number of rows. */
  function IndexOf(rows: seq<Row>, id: int): (i: nat)
    ensures i <= |rows|
    ensures i < |rows| ==> rows[i].id == id
    ensures forall k :: 0 <= k < i ==> rows[k].id != id
  {
    if rows == [] || rows[0].id == id then 0 else 1 + IndexOf(rows[1..], id)
  }

  function ParentAt(rows: seq<Row>, i: nat): (j: nat)
    requires i < |rows| && !IsRoot(rows[i])
    ensures j <= |rows|
    ensures j < |rows| ==> rows[j].id == rows[i].parent.id
  {
    IndexOf(rows, rows[i].parent.id)
  }

  /** Each of the first `n` ranges is a root or has a listed parent. */
  predicate ParentsListed(rows: seq<Row>, n: nat)
    requires n <= |rows|
  {
    forall i :: 0 <= i < n && !IsRoot(rows[i]) ==> ParentAt(rows, i) < |rows|
  }

  /** The name a range ends up with: below its parent's final name if the parent is listed first, below its bare name if not. */
  function FinalName(rows: seq<Row>, i: nat): string
    requires i < |rows| && ParentsListed(rows, i + 1)
  {
    if IsRoot(rows[i]) then rows[i].name
    else
      var j := ParentAt(rows, i);
      Join(if j < i then FinalName(rows, j) else rows[j].name, rows[i].name)
  }

  predicate DistinctIds(rows: seq<Row>) {
    forall i, j :: 0 <= i < j < |rows| ==> rows[i].id != rows[j].id
  }

  /** The dict of final names so far; on equal names the last range wins. */
  function LastWithName(rows: seq<Row>, n: nat, name: string): (r: int)
    requires n <= |rows| && ParentsListed(rows, n)
    ensures -1 <= r < n
    ensures r >= 0 ==> FinalName(rows, r) == name
    ensures forall k :: r < k < n ==> FinalName(rows, k) != name
  {
    if n == 0 then -1 else if FinalName(rows, n - 1) == name then n - 1 else LastWithName(rows, n - 1, name)
  }

  /** The first range whose parent is not listed, or the number of rows. */
  function FirstOrphan(rows: seq<Row>, n: nat): (k: nat)
    requires n <= |rows|
    ensures k <= n && ParentsListed(rows, k)
    ensures k < n ==> !IsRoot(rows[k]) && ParentAt(rows, k) == |rows|
  {
    if n == 0 then 0
    else
      var k := FirstOrphan(rows, n - 1);
      if k < n - 1 || (!IsRoot(rows[n - 1]) && ParentAt(rows, n - 1) == |rows|) then k else n
  }

  /** The rows once the first `n` have their final names. */
  ghost function Renamed(rows: seq<Row>, n: nat): (r: seq<Row>)
    requires n <= |rows| && ParentsListed(rows, n)
    ensures |r| == |rows|
    ensures forall i :: 0 <= i < n ==> r[i] == Row(rows[i].id, rows[i].parent, FinalName(rows, i))
    ensures forall i :: n <= i < |rows| ==> r[i] == rows[i]
  {
    if n == 0 then rows else Renamed(rows, n - 1)[n - 1 := Row(rows[n - 1].id, rows[n - 1].parent, FinalName(rows, n - 1))]
  }

  // ------------------------------------------------------------- in place

  /** The ranges of a thread as they stand, in order. */
  ghost function Rows(t: Thread): (rows: seq<Row>)
    requires t.Valid()
    reads t.ranges.Values
    ensures |rows| == |t.ids| && DistinctIds(rows)
    ensures forall i :: 0 <= i < |rows| ==> rows[i] == Row(t.ids[i], t.Range(i).parentId, t.Range(i).flatName)
  {
    seq(|t.ids|, i requires t.Valid() && 0 <= i < |t.ids| reads t.ranges.Values => Row(t.ids[i], t.Range(i).parentId, t.Range(i).flatName))
  }

  method Rename(t: Thread, k: nat, newName: string)
    requires t.Valid() && k < |t.ids|
    modifies t.ranges.Values
    ensures Rows(t) == old(Rows(t))[k := old(Rows(t))[k].(name := newName)]
  {
    var range := t.Range(k);
    range.flatName := newName;
  }

  /** The result dict holds exactly the first `n` final names, each with the last range of that name. */
  ghost predicate Collected(t: Thread, rows: seq<Row>, n: nat, d: Dict<NvtxRange>)
    requires t.Valid() && n <= |rows| == |t.ids| && ParentsListed(rows, n)
  {
    && d.Valid()
    && (forall name :: name in d.vals <==> LastWithName(rows, n, name) >= 0)
    && (forall name :: name in d.vals ==> d.vals[name] == t.Range(LastWithName(rows, n, name)))
  }

  /** The full name of range `k` once those before it are renamed; `None` is the `KeyError` of a parent that is not listed. */
  method FullName(t: Thread, k: nat, ghost rows: seq<Row>) returns (r: Option<string>)
    requires t.Valid() && k < |rows| == |t.ids| && ParentsListed(rows, k) && Rows(t) == Renamed(rows, k)
    ensures r.None? <==> !IsRoot(rows[k]) && ParentAt(rows, k) == |rows|
    ensures r.Some? ==> ParentsListed(rows, k + 1) && r.value == FinalName(rows, k)
  {
    hide IndexOf, Join, FinalName, Renamed;
    var range := t.Range(k);
    assert Rows(t)[k] == rows[k] && SameIds(t, rows);
    if range.parentId.Id? && range.parentId.id != 0 {
      ParentRow(rows, k);
      if range.parentId.id !in t.ranges {
        NoSuchId(t, rows, range.parentId.id);
        return None;
      }
      HasId(t, rows, k);
      var parent := t.ranges[range.parentId.id];
      ghost var j := ParentAt(rows, k);
      assert parent == t.Range(j) && Rows(t)[j].name == parent.flatName;
      NameHere(rows, k);
      r := Some(Join(parent.flatName, range.flatName));
    } else {
      NameHere(rows, k);
      r := Some(range.flatName);
    }
  }

  /** Ranges `0..k` have been renamed as in `rows` and collected in `final`. */
  ghost predicate Progress(t: Thread, rows: seq<Row>, k: nat, final: Dict<NvtxRange>)
    requires t.Valid()
    reads t.ranges.Values
  {
    k <= |rows| == |t.ids| && ParentsListed(rows, k) && Rows(t) == Renamed(rows, k) && Collected(t, rows, k, final)
  }

  /** The body of the loop over the ranges of a thread. */
  method ExpandRange(t: Thread, k: nat, final: Dict<NvtxRange>, ghost rows: seq<Row>) returns (r: Option<Dict<NvtxRange>>)
    requires t.Valid() && Progress(t, rows, k, final) && k < |t.ids|
    modifies t.ranges.Values
    ensures r.None? <==> !IsRoot(rows[k]) && ParentAt(rows, k) == |rows|
    ensures r.None? ==> |rows| == |t.ids| && ParentsListed(rows, k) && Rows(t) == Renamed(rows, k)
    ensures r.Some? ==> Progress(t, rows, k + 1, r.value)
  {
    hide *;
    assert ParentsListed(rows, k) && Rows(t) == Renamed(rows, k) && Collected(t, rows, k, final) && |rows| == |t.ids| by {
      ProgressIs(t, rows, k, final);
    }
    var newName := FullName(t, k, rows);
    if newName.None? {
      return None;
    }
    // A root gets the name it has.
    Rename(t, k, newName.value);
    RenamedStep(rows, k);
    CollectOne(t, rows, k, final);
    r := Some(final.Put(newName.value, t.Range(k)));
    ProgressIs(t, rows, k + 1, r.value);
  }

  lemma ProgressIs(t: Thread, rows: seq<Row>, k: nat, final: Dict<NvtxRange>)
    requires t.Valid()
    ensures Progress(t, rows, k, final) <==>
            k <= |rows| == |t.ids| && ParentsListed(rows, k) && Rows(t) == Renamed(rows, k) && Collected(t, rows, k, final)
  {
  }

  /** How the pass ends: renamed and collected up to the first range whose parent is not listed, which makes it raise. */
  ghost predicate Expanded(t: Thread, rows: seq<Row>, r: Option<Dict<NvtxRange>>)
    requires t.Valid()
    reads t.ranges.Values
  {
    var n := FirstOrphan(rows, |rows|);
    && |rows| == |t.ids|
    && Rows(t) == Renamed(rows, n)
    && (r.Some? <==> n == |rows|)
    && (r.Some? ==> Collected(t, rows, n, r.value))
  }

  method ExpandThread(t: Thread) returns (r: Option<Dict<NvtxRange>>)
    requires t.Valid()
    modifies t.ranges.Values
    ensures Expanded(t, old(Rows(t)), r)
  {
    hide *;
    ghost var rows := Rows(t);
    var final: Dict<NvtxRange> := Empty();
    StartExpanding(t, rows);
    for k := 0 to |t.ids|
      invariant k <= FirstOrphan(rows, |rows|)
      invariant Progress(t, rows, k, final)
    {
      OrphanHere(rows, k);
      var next := ExpandRange(t, k, final, rows);
      if next.None? {
        StopExpanding(t, rows, k, final);
        return None;
      }
      final := next.value;
    }
    DoneExpanding(t, rows, final);
    r := Some(final);
  }

  lemma StartExpanding(t: Thread, rows: seq<Row>)
    requires t.Valid() && rows == Rows(t)
    ensures Progress(t, rows, 0, Empty())
  {
    EmptyCollected(t, rows);
    NothingCollected(rows);
  }

  lemma StopExpanding(t: Thread, rows: seq<Row>, k: nat, final: Dict<NvtxRange>)
    requires t.Valid() && k < |rows| && FirstOrphan(rows, |rows|) == k && |rows| == |t.ids| && Rows(t) == Renamed(rows, k)
    ensures Expanded(t, rows, None)
  {
  }

  lemma DoneExpanding(t: Thread, rows: seq<Row>, final: Dict<NvtxRange>)
    requires t.Valid() && Progress(t, rows, |t.ids|, final) && FirstOrphan(rows, |rows|) >= |t.ids|
    ensures Expanded(t, rows, Some(final))
  {
    hide Renamed, Collected, FirstOrphan, Rows, ParentsListed, FinalName, LastWithName, IndexOf, ParentAt;
  }

  lemma RenamedStep(rows: seq<Row>, k: nat)
    requires k < |rows| && ParentsListed(rows, k + 1)
    ensures ParentsListed(rows, k)
    ensures Renamed(rows, k + 1) == Renamed(rows, k)[k := Renamed(rows, k)[k].(name := FinalName(rows, k))]
  {
    hide FinalName, IndexOf;
  }

  ghost predicate SameIds(t: Thread, rows: seq<Row>) {
    |rows| == |t.ids| && forall i :: 0 <= i < |rows| ==> rows[i].id == t.ids[i]
  }

  lemma NoSuchId(t: Thread, rows: seq<Row>, id: int)
    requires t.Valid() && SameIds(t, rows) && id !in t.ranges
    ensures forall i :: 0 <= i < |rows| ==> rows[i].id != id
  {
  }

  lemma HasId(t: Thread, rows: seq<Row>, k: nat)
    requires t.Valid() && SameIds(t, rows) && k < |rows| && !IsRoot(rows[k]) && rows[k].parent.id in t.ranges
    ensures var j := ParentAt(rows, k); j < |rows| && t.ids[j] == rows[k].parent.id
  {
    var i :| 0 <= i < |t.ids| && t.ids[i] == rows[k].parent.id;
    assert rows[i].id == rows[k].parent.id;
  }

  lemma EmptyCollected(t: Thread, rows: seq<Row>)
    requires t.Valid() && |rows| == |t.ids|
    ensures ParentsListed(rows, 0) && Collected(t, rows, 0, Empty())
  {
  }

  lemma NothingCollected(rows: seq<Row>)
    ensures ParentsListed(rows, 0) && Renamed(rows, 0) == rows && forall name :: LastWithName(rows, 0, name) == -1
  {
  }

  lemma {:induction false} OrphanStops(rows: seq<Row>, n: nat, k: nat)
    requires k < n <= |rows| && FirstOrphan(rows, n) >= k
    ensures FirstOrphan(rows, n) == k <==> !IsRoot(rows[k]) && ParentAt(rows, k) == |rows|
  {
    if FirstOrphan(rows, n) > k {
      assert ParentsListed(rows, FirstOrphan(rows, n));
    }
  }

  lemma OrphanHere(rows: seq<Row>, k: nat)
    requires k < |rows| && FirstOrphan(rows, |rows|) >= k
    ensures FirstOrphan(rows, |rows|) == k <==> !IsRoot(rows[k]) && ParentAt(rows, k) == |rows|
    ensures FirstOrphan(rows, |rows|) > k ==> ParentsListed(rows, k + 1)
  {
    OrphanStops(rows, |rows|, k);
    if FirstOrphan(rows, |rows|) > k {
      assert ParentsListed(rows, FirstOrphan(rows, |rows|));
    }
  }

  lemma ParentRow(rows: seq<Row>, k: nat)
    requires k < |rows| && !IsRoot(rows[k])
    ensures ParentAt(rows, k) == |rows| <==> forall i :: 0 <= i < |rows| ==> rows[i].id != rows[k].parent.id
  {
  }

  lemma NameHere(rows: seq<Row>, k: nat)
    requires k < |rows| && ParentsListed(rows, k + 1)
    ensures IsRoot(rows[k]) ==> FinalName(rows, k) == rows[k].name
    ensures !IsRoot(rows[k]) ==> var j := ParentAt(rows, k);
              FinalName(rows, k) == Join(if j < k then FinalName(rows, j) else rows[j].name, rows[k].name)
  {
  }

  lemma CollectOne(t: Thread, rows: seq<Row>, k: nat, d: Dict<NvtxRange>)
    requires t.Valid() && k < |rows| == |t.ids| && ParentsListed(rows, k + 1) && ParentsListed(rows, k)
    requires Collected(t, rows, k, d)
    ensures Collected(t, rows, k + 1, d.Put(FinalName(rows, k), t.Range(k)))
  {
    var name := FinalName(rows, k);
    PutValid(d, name, t.Range(k));
    forall x ensures LastWithName(rows, k + 1, x) == if x == name then k else LastWithName(rows, k, x) {
    }
    hide FinalName, LastWithName, IndexOf;
  }

  // ------------------------------------------------------------- the result, spelled out

  /** The range names a parent, by an id that is not 0, and nobody has that id. */
  predicate Orphan(rows: seq<Row>, i: nat)
    requires i < |rows|
  {
    rows[i].parent.Id? && rows[i].parent.id != 0 && forall j :: 0 <= j < |rows| ==> rows[j].id != rows[i].parent.id
  }

  lemma OrphanIs(rows: seq<Row>, i: nat)
    requires i < |rows|
    ensures Orphan(rows, i) <==> !IsRoot(rows[i]) && ParentAt(rows, i) == |rows|
  {
    if !IsRoot(rows[i]) { ParentRow(rows, i); }
  }

  /** The pass raises iff some range is an orphan, and then the first of them and everything after it keep their names. */
  lemma ExpandRaisesIff(t: Thread, rows: seq<Row>, r: Option<Dict<NvtxRange>>)
    requires t.Valid() && Expanded(t, rows, r)
    ensures r.None? <==> exists i :: 0 <= i < |rows| && Orphan(rows, i)
    ensures r.None? ==> exists k :: 0 <= k < |rows| && Orphan(rows, k) && (forall i :: 0 <= i < k ==> !Orphan(rows, i))
                                    && Rows(t)[k..] == rows[k..]
  {
    hide Collected, Rows, FinalName, ParentAt, IndexOf;
    var n := FirstOrphan(rows, |rows|);
    forall i | 0 <= i < |rows| ensures Orphan(rows, i) <==> !IsRoot(rows[i]) && ParentAt(rows, i) == |rows| {
      OrphanIs(rows, i);
    }
    if n < |rows| {
      assert Orphan(rows, n) && Rows(t)[n..] == rows[n..];
    } else {
      assert ParentsListed(rows, |rows|);
    }
  }

  /** A range without a parent keeps its name; any other ends as its parent's name, a slash and its own: the parent's new name if
      the parent is listed earlier, and its old one if it is not. */
  lemma NamesAfter(t: Thread, rows: seq<Row>, d: Dict<NvtxRange>, i: nat, j: nat)
    requires t.Valid() && Expanded(t, rows, Some(d)) && CleanNames(rows) && DistinctIds(rows) && i < |rows| && j < |rows|
    ensures var now, p := Rows(t), rows[i].parent;
            && |now| == |rows|
            && (p.Absent? || p.NoneText? || p.id == 0 ==> now[i].name == rows[i].name)
            && (p.Id? && p.id != 0 && rows[j].id == p.id ==>
                  now[i].name == (if j < i then now[j].name else rows[j].name) + "/" + rows[i].name)
  {
    ExpandedRows(t, rows, d);
    hide *;
    NameSpelled(rows, i, j);
  }

  lemma ExpandedRows(t: Thread, rows: seq<Row>, d: Dict<NvtxRange>)
    requires t.Valid() && Expanded(t, rows, Some(d))
    ensures ParentsListed(rows, |rows|) && |Rows(t)| == |rows|
    ensures forall i :: 0 <= i < |rows| ==> Rows(t)[i].name == FinalName(rows, i)
  {
    hide Collected, FinalName, ParentAt, IndexOf;
  }

  /** The result has an entry for each name that is left, with the last range of that name. */
  lemma DictAfter(t: Thread, rows: seq<Row>, d: Dict<NvtxRange>, name: string)
    requires t.Valid() && Expanded(t, rows, Some(d))
    ensures |Rows(t)| == |t.ids|
    ensures name in d.vals <==> exists i :: 0 <= i < |Rows(t)| && Rows(t)[i].name == name
    ensures forall i :: 0 <= i < |Rows(t)| && Rows(t)[i].name == name && (forall j :: i < j < |Rows(t)| ==> Rows(t)[j].name != name) ==>
              name in d.vals && d.vals[name] == t.Range(i)
  {
    ExpandedRows(t, rows, d);
    ExpandedAll(t, rows, d, name);
    LastNamed(rows, name);
    hide *;
  }

  lemma LastNamed(rows: seq<Row>, name: string)
    requires ParentsListed(rows, |rows|)
    ensures LastWithName(rows, |rows|, name) >= 0 <==> exists i :: 0 <= i < |rows| && FinalName(rows, i) == name
    ensures forall i :: 0 <= i < |rows| && FinalName(rows, i) == name && (forall j :: i < j < |rows| ==> FinalName(rows, j) != name) ==>
              LastWithName(rows, |rows|, name) == i
  {
    hide FinalName, IsRoot, ParentAt, IndexOf;
    LastIs(rows, |rows|, name);
    hide LastWithName;
  }

  lemma LastIs(rows: seq<Row>, n: nat, name: string)
    requires n <= |rows| && ParentsListed(rows, n)
    ensures var r := LastWithName(rows, n, name);
            (r >= 0 ==> FinalName(rows, r) == name) && forall k :: r < k < n ==> FinalName(rows, k) != name
  {
    hide FinalName, IsRoot, ParentAt, IndexOf;
    var r := LastWithName(rows, n, name);
  }

  lemma NameSpelled(rows: seq<Row>, i: nat, j: nat)
    requires ParentsListed(rows, |rows|) && CleanNames(rows) && DistinctIds(rows) && i < |rows| && j < |rows|
    ensures var p := rows[i].parent;
            && (p.Absent? || p.NoneText? || p.id == 0 ==> FinalName(rows, i) == rows[i].name)
            && (p.Id? && p.id != 0 && rows[j].id == p.id ==>
                  FinalName(rows, i) == (if j < i then FinalName(rows, j) else rows[j].name) + "/" + rows[i].name)
  {
    NameHere(rows, i);
    NameEnds(rows, j);
    LastChar(rows[j].name);
    hide FinalName, IndexOf, Join;
    if !IsRoot(rows[i]) && rows[j].id == rows[i].parent.id {
      var p := if j < i then FinalName(rows, j) else rows[j].name;
      JoinLonger(p, rows[i].name);
      hide *;
    }
  }

  lemma LastChar(name: string)
    requires Component(name)
    ensures name[|name| - 1] != '/'
  {
    assert name[|name| - 1] in name;
  }

  // ------------------------------------------------------------- what the names mean

  /** Every parent is listed before its children. */
  predicate ParentsFirst(rows: seq<Row>) {
    forall i :: 0 <= i < |rows| && !IsRoot(rows[i]) ==> ParentAt(rows, i) < i
  }

  /** The names from the root down to a range. */
  function Chain(rows: seq<Row>, i: nat): (c: seq<string>)
    requires i < |rows| && ParentsFirst(rows)
    ensures c != []
  {
    if IsRoot(rows[i]) then [rows[i].name] else Chain(rows, ParentAt(rows, i)) + [rows[i].name]
  }

  predicate CleanNames(rows: seq<Row>) {
    forall i :: 0 <= i < |rows| ==> Component(rows[i].name)
  }

  /** Parents first and clean names: every range ends with its whole root-to-node chain as its path. */
  lemma {:induction false} FinalNameIsChain(rows: seq<Row>, i: nat)
    requires i < |rows| && ParentsFirst(rows) && CleanNames(rows)
    ensures ParentsListed(rows, |rows|) && Components(Chain(rows, i))
    ensures FinalName(rows, i) == Render(Chain(rows, i))
    decreases i
  {
    hide IndexOf, Join;
    if !IsRoot(rows[i]) {
      var j := ParentAt(rows, i);
      FinalNameIsChain(rows, j);
      JoinAppends(Chain(rows, j), rows[i].name);
    }
  }

  /** Two ranges share a final name iff they share their chains. */
  lemma SameNameIffSameChain(rows: seq<Row>, i: nat, j: nat)
    requires i < |rows| && j < |rows| && ParentsFirst(rows) && CleanNames(rows)
    ensures ParentsListed(rows, |rows|)
    ensures FinalName(rows, i) == FinalName(rows, j) <==> Chain(rows, i) == Chain(rows, j)
  {
    FinalNameIsChain(rows, i);
    FinalNameIsChain(rows, j);
    RenderInjective(Chain(rows, i), Chain(rows, j));
  }

  /** The result has exactly one entry per distinct chain. */
  lemma KeysAreChains(t: Thread, rows: seq<Row>, d: Dict<NvtxRange>, name: string)
    requires t.Valid() && |rows| == |t.ids| && ParentsFirst(rows) && CleanNames(rows) && Expanded(t, rows, Some(d))
    ensures name in d.vals <==> exists i :: 0 <= i < |rows| && name == Render(Chain(rows, i))
  {
    hide *;
    ExpandedAll(t, rows, d, name);
    LastChain(rows, name);
  }

  /** Of the ranges with the same chain, the last one is kept. */
  lemma LastRangeWins(t: Thread, rows: seq<Row>, d: Dict<NvtxRange>, i: nat)
    requires t.Valid() && i < |rows| == |t.ids| && ParentsFirst(rows) && CleanNames(rows) && Expanded(t, rows, Some(d))
    requires forall j :: i < j < |rows| ==> Chain(rows, j) != Chain(rows, i)
    ensures var name := Render(Chain(rows, i)); name in d.vals && d.vals[name] == t.Range(i)
  {
    hide *;
    var name := Render(Chain(rows, i));
    ExpandedAll(t, rows, d, name);
    LastOfChain(rows, name, i);
  }

  lemma ExpandedAll(t: Thread, rows: seq<Row>, d: Dict<NvtxRange>, name: string)
    requires t.Valid() && |rows| == |t.ids| && Expanded(t, rows, Some(d))
    ensures ParentsListed(rows, |rows|)
    ensures name in d.vals <==> LastWithName(rows, |rows|, name) >= 0
    ensures name in d.vals ==> d.vals[name] == t.Range(LastWithName(rows, |rows|, name))
  {
    hide Renamed, FirstOrphan, Rows, FinalName, LastWithName, IndexOf, ParentAt;
  }

  lemma LastChain(rows: seq<Row>, name: string)
    requires ParentsFirst(rows) && CleanNames(rows)
    ensures ParentsListed(rows, |rows|)
    ensures LastWithName(rows, |rows|, name) >= 0 <==> exists i :: 0 <= i < |rows| && name == Render(Chain(rows, i))
  {
    hide IndexOf, FinalName, LastWithName, Chain, Render;
    forall i | 0 <= i < |rows| ensures ParentsListed(rows, |rows|) && FinalName(rows, i) == Render(Chain(rows, i)) {
      FinalNameIsChain(rows, i);
    }
    var last := LastWithName(rows, |rows|, name);
    if last >= 0 { assert name == Render(Chain(rows, last)); }
  }

  lemma LastOfChain(rows: seq<Row>, name: string, i: nat)
    requires ParentsFirst(rows) && CleanNames(rows) && i < |rows| && name == Render(Chain(rows, i))
    requires forall j :: i < j < |rows| ==> Chain(rows, j) != Chain(rows, i)
    ensures ParentsListed(rows, |rows|) && LastWithName(rows, |rows|, name) == i
  {
    hide IndexOf, FinalName, LastWithName, Chain, Render;
    FinalNameIsChain(rows, i);
    var last := LastWithName(rows, |rows|, name);
    SameNameIffSameChain(rows, i, last);
  }

  function Parent(rows: seq<Row>, i: nat): nat
    requires i < |rows| && ParentsListed(rows, |rows|)
  {
    if IsRoot(rows[i]) then i else ParentAt(rows, i)
  }

  function Ancestor(rows: seq<Row>, i: nat, steps: nat): nat
    requires i < |rows| && ParentsListed(rows, |rows|)
    ensures Ancestor(rows, i, steps) < |rows|
  {
    if steps == 0 then i else Parent(rows, Ancestor(rows, i, steps - 1))
  }

  /** Parents first means no cycles: going up comes to a root after at most `i` steps. */
  lemma {:induction false} NoCycles(rows: seq<Row>, i: nat, steps: nat)
    requires i < |rows| && ParentsFirst(rows)
    ensures ParentsListed(rows, |rows|)
    ensures var a := Ancestor(rows, i, steps); IsRoot(rows[a]) || a + steps <= i
  {
    hide IndexOf;
    if steps > 0 { NoCycles(rows, i, steps - 1); }
  }

  /** Every name is its parent's final name and its own. */
  ghost predicate NamesNest(rows: seq<Row>)
    requires ParentsListed(rows, |rows|)
  {
    forall i :: 0 <= i < |rows| && !IsRoot(rows[i]) ==> FinalName(rows, i) == Join(FinalName(rows, ParentAt(rows, i)), rows[i].name)
  }

  /** A parent that is not listed before its child has no parent of its own. */
  predicate LateParentsAreRoots(rows: seq<Row>)
    requires ParentsListed(rows, |rows|)
  {
    forall i :: 0 <= i < |rows| && !IsRoot(rows[i]) && ParentAt(rows, i) >= i ==> IsRoot(rows[ParentAt(rows, i)])
  }

  /** In any order: the names nest iff every parent listed too late is a root. */
  lemma NamesNestIff(rows: seq<Row>)
    requires ParentsListed(rows, |rows|) && CleanNames(rows)
    ensures NamesNest(rows) <==> LateParentsAreRoots(rows)
  {
    hide IndexOf, Join, FinalName;
    forall i | 0 <= i < |rows| && !IsRoot(rows[i])
      ensures FinalName(rows, i) == Join(FinalName(rows, ParentAt(rows, i)), rows[i].name)
         <==> (ParentAt(rows, i) < i || IsRoot(rows[ParentAt(rows, i)]))
    {
      NestsIff(rows, i);
    }
  }

  lemma NestsIff(rows: seq<Row>, i: nat)
    requires ParentsListed(rows, |rows|) && CleanNames(rows) && i < |rows| && !IsRoot(rows[i])
    ensures FinalName(rows, i) == Join(FinalName(rows, ParentAt(rows, i)), rows[i].name)
       <==> (ParentAt(rows, i) < i || IsRoot(rows[ParentAt(rows, i)]))
  {
    hide IndexOf, FinalName, Join;
    var j, name := ParentAt(rows, i), rows[i].name;
    NameHere(rows, i);
    NameHere(rows, j);
    NameEnds(rows, j);
    JoinLonger(rows[j].name, name);
    JoinLonger(FinalName(rows, j), name);
  }

  /** A name starts and ends without a slash, and a child's is longer than its own last part. */
  lemma {:induction false} NameEnds(rows: seq<Row>, i: nat)
    requires ParentsListed(rows, |rows|) && CleanNames(rows) && i < |rows|
    ensures var f := FinalName(rows, i); f != "" && f[|f| - 1] != '/'
    ensures !IsRoot(rows[i]) ==> |FinalName(rows, i)| > |rows[i].name|
    decreases i
  {
    hide IndexOf, FinalName, Join;
    NameHere(rows, i);
    var name := rows[i].name;
    assert name[0] in name && name[|name| - 1] in name;
    if !IsRoot(rows[i]) {
      var j := ParentAt(rows, i);
      var p := rows[j].name;
      assert p[|p| - 1] in p;
      if j < i { NameEnds(rows, j); }
      JoinLonger(if j < i then FinalName(rows, j) else p, name);
    }
  }

  lemma JoinLonger(p: string, name: string)
    requires Component(name)
    ensures p != "" && p[|p| - 1] != '/' ==> Join(p, name) == p + "/" + name
    ensures p != "" && p[|p| - 1] != '/' ==> Join(p, name)[|Join(p, name)| - 1] != '/'
    ensures |Join(p, name)| >= |name|
  {
    assert name[0] in name && name[|name| - 1] in name;
  }

  /** A grandchild listed before its parent loses the grandparent's name. */
  lemma GrandchildFirst(a: string, b: string, c: string, x: int, y: int, z: int)
    requires x != 0 && y != 0 && z != 0 && x != y && y != z && x != z
    ensures var rows := [Row(z, Id(y), c), Row(x, Absent, a), Row(y, Id(x), b)];
            && ParentsListed(rows, 3)
            && FinalName(rows, 0) == Join(b, c) && FinalName(rows, 2) == Join(a, b)
  {
    var rows := [Row(z, Id(y), c), Row(x, Absent, a), Row(y, Id(x), b)];
    assert rows[0].id == z && rows[1].id == x && rows[2].id == y && rows[0].parent == Id(y) && rows[2].parent == Id(x);
    hide IndexOf, FinalName, Join;
    assert ParentAt(rows, 0) == 2 && ParentAt(rows, 2) == 1;
    NameHere(rows, 0);
    NameHere(rows, 1);
    NameHere(rows, 2);
  }
}
