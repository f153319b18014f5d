/**
 `RandomMinMax`: in every row of every sample the first places are overwritten with the
 type's minimum, the next ones with its maximum, and the row is shuffled.  Elements are
 their bytes; the shuffle is any sequence of in-row swaps.
 */
module MinMax {
  import opened Strided
  import opened FillBuffer

  type Elem = seq<byte>

  // ------------------------------------------------------------- a row of elements

  /** The `n` elements of `size` bytes that start at byte `base`. */
  ghost function Row(buf: seq<byte>, base: int, n: nat, size: nat): (row: seq<Elem>)
    requires 0 <= base && base + n * size <= |buf|
    ensures |row| == n
  {
    seq(n, z requires 0 <= z < n => MulStep(z, n, size); Slot(buf, base + z * size, size))
  }

  /** Nothing outside the row has changed. */
  ghost predicate SameOutside(a: seq<byte>, b: seq<byte>, base: int, n: nat, size: nat)
    requires |a| == |b|
  {
    forall p :: 0 <= p < |a| && !(base <= p < base + n * size) ==> a[p] == b[p]
  }

  /** Elements `k` and `z` of a row do not meet. */
  lemma PlacesApart(n: nat, size: nat, k: nat, z: nat)
    requires k < n && z < n && k != z
    ensures k * size + size <= n * size && z * size + size <= n * size
    ensures k * size + size <= z * size || z * size + size <= k * size
  {
    MulStep(k, n, size);
    MulStep(z, n, size);
    if k < z { MulStep(k, z, size); } else { MulStep(z, k, size); }
  }

  lemma SlotKept(buf: seq<byte>, at: int, v: Elem, q: int, size: nat)
    requires 0 <= at && at + |v| <= |buf| && 0 <= q && q + size <= |buf|
    requires q + size <= at || at + |v| <= q
    ensures Slot(Splice(buf, at, v), q, size) == Slot(buf, q, size)
  {
  }

  lemma RowElem(buf: seq<byte>, base: int, n: nat, size: nat, z: nat)
    requires 0 <= base && base + n * size <= |buf| && z < n
    ensures 0 <= z * size && z * size + size <= n * size
    ensures Row(buf, base, n, size)[z] == Slot(buf, base + z * size, size)
  {
    MulStep(z, n, size);
    hide Slot;
  }

  lemma SpliceHere(buf: seq<byte>, at: int, v: Elem)
    requires 0 <= at && at + |v| <= |buf|
    ensures |Splice(buf, at, v)| == |buf| && Slot(Splice(buf, at, v), at, |v|) == v
    ensures forall p :: 0 <= p < |buf| && !(at <= p < at + |v|) ==> Splice(buf, at, v)[p] == buf[p]
  {
  }

  /** Storing element `k` of a row updates just that element of the row. */
  lemma StoreInRow(buf: seq<byte>, base: int, n: nat, size: nat, k: nat, v: Elem)
    requires 0 <= base && base + n * size <= |buf| && k < n && |v| == size
    ensures 0 <= k * size && k * size + size <= n * size
    ensures |Splice(buf, base + k * size, v)| == |buf|
    ensures Row(Splice(buf, base + k * size, v), base, n, size) == Row(buf, base, n, size)[k := v]
    ensures SameOutside(buf, Splice(buf, base + k * size, v), base, n, size)
  {
    MulStep(k, n, size);
    hide Row, Slot, Splice;
    var at := base + k * size;
    var after := Splice(buf, at, v);
    SpliceHere(buf, at, v);
    forall z | 0 <= z < n ensures Row(after, base, n, size)[z] == Row(buf, base, n, size)[k := v][z] {
      RowElem(after, base, n, size, z);
      RowElem(buf, base, n, size, z);
      if z != k {
        PlacesApart(n, size, k, z);
        SlotKept(buf, at, v, base + z * size, size);
      }
    }
  }

  method StoreElem(vec: array<byte>, base: int, ghost n: nat, size: nat, k: nat, v: Elem)
    requires 0 <= base && base + n * size <= vec.Length && k < n && |v| == size
    modifies vec
    ensures Row(vec[..], base, n, size) == old(Row(vec[..], base, n, size))[k := v]
    ensures SameOutside(old(vec[..]), vec[..], base, n, size)
  {
    StoreInRow(vec[..], base, n, size, k, v);
    Store(vec, base + k * size, v);
  }

  /** The random draws of one shuffle: a place not after `i`. */
  type Draws = nat -> nat

  ghost predicate Fair(draws: Draws) {
    forall i :: draws(i) <= i
  }

  /** The draws of the shuffle of each row. */
  type Rng = (int, int) -> Draws

  ghost predicate FairAll(rng: Rng) {
    forall x, y :: Fair(rng(x, y))
  }

  lemma SwapKeepsMultiset(s: seq<Elem>, i: nat, j: nat)
    requires i < |s| && j < |s|
    ensures multiset(s[i := s[j]][j := s[i]]) == multiset(s)
  {
    var t := s[i := s[j]];
    assert multiset(t) == multiset(s) - multiset{s[i]} + multiset{s[j]};
    assert t[j] == s[j];
    assert multiset(t[j := s[i]]) == multiset(t) - multiset{s[j]} + multiset{s[i]};
  }

  /** The row with elements `i` and `j` exchanged. */
  ghost function Swapped(row: seq<Elem>, i: nat, j: nat): (r: seq<Elem>)
    requires i < |row| && j < |row|
    ensures |r| == |row|
  {
    row[i := row[j]][j := row[i]]
  }

  /** The row after `k` steps of the shuffle: step `i` exchanges places `i` and `draws(i)`. */
  ghost function Shuffled(row: seq<Elem>, k: nat, draws: Draws): (r: seq<Elem>)
    requires k <= |row| && Fair(draws)
    ensures |r| == |row|
  {
    if k == 0 then row else Swapped(Shuffled(row, k - 1, draws), k - 1, draws(k - 1))
  }

  lemma {:induction false} ShuffleKeepsMultiset(row: seq<Elem>, k: nat, draws: Draws)
    requires k <= |row| && Fair(draws)
    ensures multiset(Shuffled(row, k, draws)) == multiset(row)
  {
    hide *;
    if k > 0 {
      ShuffleKeepsMultiset(row, k - 1, draws);
      ShuffleStep(row, k, draws);
    } else {
      ShuffleNone(row, draws);
    }
  }

  lemma ShuffleNone(row: seq<Elem>, draws: Draws)
    requires Fair(draws)
    ensures Shuffled(row, 0, draws) == row
  {
  }

  lemma ShuffleStep(row: seq<Elem>, k: nat, draws: Draws)
    requires 0 < k <= |row| && Fair(draws)
    ensures multiset(Shuffled(row, k, draws)) == multiset(Shuffled(row, k - 1, draws))
  {
    hide Swapped;
    SwapKeeps(Shuffled(row, k - 1, draws), k - 1, draws(k - 1));
  }

  lemma SwapKeeps(row: seq<Elem>, i: nat, j: nat)
    requires i < |row| && j < |row|
    ensures multiset(Swapped(row, i, j)) == multiset(row)
  {
    SwapKeepsMultiset(row, i, j);
  }

  /** A shuffle of the first places leaves the others alone and does not look at them. */
  lemma {:induction false} ShufflePrefix(row: seq<Elem>, k: nat, n: nat, draws: Draws)
    requires k <= n <= |row| && Fair(draws)
    ensures Shuffled(row, k, draws) == Shuffled(row[..n], k, draws) + row[n..]
  {
    if k > 0 {
      ShufflePrefix(row, k - 1, n, draws);
    } else {
      assert row == row[..n] + row[n..];
    }
  }

  lemma {:induction false} SameDraws(row: seq<Elem>, k: nat, d: Draws, e: Draws)
    requires k <= |row| && Fair(d) && Fair(e) && forall i :: 0 <= i < k ==> d(i) == e(i)
    ensures Shuffled(row, k, d) == Shuffled(row, k, e)
  {
    if k > 0 { SameDraws(row, k - 1, d, e); }
  }

  /** Every order of the row comes out for some draws. */
  lemma {:induction false} ShuffleReaches(row: seq<Elem>, t: seq<Elem>) returns (draws: Draws)
    requires multiset(row) == multiset(t)
    ensures Fair(draws) && |t| == |row| && Shuffled(row, |row|, draws) == t
    decreases |row|
  {
    assert |t| == |row| by { assert |multiset(row)| == |row| && |multiset(t)| == |t|; }
    if row == [] {
      draws := i => i;
    } else {
      var n := |row| - 1;
      var j: nat := WhereIs(t, row[n]) by { assert row[n] in multiset(row); }
      var r := Swapped(t, j, n);
      LastInPlace(row, t, j);
      var d := ShuffleReaches(row[..n], r[..n]);
      draws := i => if i == n then j else d(i);
      hide Swapped, Shuffled;
      assert Fair(draws);
      ShufflePrefix(row, n, n, d);
      SameDraws(row, n, d, draws);
      LastStep(row, t, j, draws);
    }
  }

  /** The last element of the row is put back to the end of the wanted order. */
  lemma LastInPlace(row: seq<Elem>, t: seq<Elem>, j: nat)
    requires |row| == |t| > 0 && multiset(row) == multiset(t) && j < |t| && t[j] == row[|row| - 1]
    ensures var n, r := |row| - 1, Swapped(t, j, |row| - 1);
            r == r[..n] + [row[n]] && row[n..] == [row[n]] && multiset(row[..n]) == multiset(r[..n])
  {
    var n, r := |row| - 1, Swapped(t, j, |row| - 1);
    SwapKeeps(t, j, n);
    assert r[n] == row[n];
    hide Swapped;
    SameFront(row, r, n);
  }

  lemma SameFront(a: seq<Elem>, b: seq<Elem>, n: nat)
    requires |a| == |b| == n + 1 && multiset(a) == multiset(b) && a[n] == b[n]
    ensures b == b[..n] + [a[n]] && a[n..] == [a[n]] && multiset(a[..n]) == multiset(b[..n])
  {
    assert a == a[..n] + [a[n]] && b == b[..n] + [b[n]];
    Cancel(multiset(a[..n]), multiset(b[..n]), a[n]);
  }

  lemma Cancel(a: multiset<Elem>, b: multiset<Elem>, x: Elem)
    requires a + multiset{x} == b + multiset{x}
    ensures a == b
  {
    assert a == a + multiset{x} - multiset{x} && b == b + multiset{x} - multiset{x};
  }

  lemma LastStep(row: seq<Elem>, t: seq<Elem>, j: nat, draws: Draws)
    requires |row| == |t| > 0 && j < |t| && Fair(draws) && draws(|row| - 1) == j
    requires Shuffled(row, |row| - 1, draws) == Swapped(t, j, |row| - 1)
    ensures Shuffled(row, |row|, draws) == t
  {
    SwapBack(t, j, |row| - 1);
    hide Swapped;
  }

  lemma SwapBack(t: seq<Elem>, i: nat, j: nat)
    requires i < |t| && j < |t|
    ensures Swapped(Swapped(t, i, j), j, i) == t
  {
  }

  lemma WhereIs(t: seq<Elem>, v: Elem) returns (j: nat)
    requires v in multiset(t)
    ensures j < |t| && t[j] == v
  {
    assert v in t;
    j :| 0 <= j < |t| && t[j] == v;
  }

  /** Exchanges two elements of a row. */
  method SwapElems(vec: array<byte>, base: int, n: nat, size: nat, i: nat, j: nat)
    requires 0 <= base && base + n * size <= vec.Length && i < n && j < n
    modifies vec
    ensures Row(vec[..], base, n, size) == Swapped(old(Row(vec[..], base, n, size)), i, j)
    ensures SameOutside(old(vec[..]), vec[..], base, n, size)
  {
    ghost var row := Row(vec[..], base, n, size);
    MulStep(i, n, size);
    MulStep(j, n, size);
    var a, b := vec[base + i * size..base + i * size + size], vec[base + j * size..base + j * size + size];
    assert a == row[i] && b == row[j];
    StoreElem(vec, base, n, size, i, b);
    StoreElem(vec, base, n, size, j, a);
  }

  /** `std::shuffle` on one packed row. */
  method Shuffle(vec: array<byte>, base: int, n: nat, size: nat, draws: Draws)
    requires 0 <= base && base + n * size <= vec.Length && Fair(draws)
    modifies vec
    ensures Row(vec[..], base, n, size) == Shuffled(old(Row(vec[..], base, n, size)), n, draws)
    ensures multiset(Row(vec[..], base, n, size)) == multiset(old(Row(vec[..], base, n, size)))
    ensures SameOutside(old(vec[..]), vec[..], base, n, size)
  {
    ghost var row := Row(vec[..], base, n, size);
    for i := 0 to n
      invariant Row(vec[..], base, n, size) == Shuffled(row, i, draws)
      invariant SameOutside(old(vec[..]), vec[..], base, n, size)
    {
      SwapElems(vec, base, n, size, i, draws(i));
    }
    ShuffleKeepsMultiset(row, n, draws);
  }

  /** The row with `v` written at places `a` up to `b`. */
  ghost function Over(row: seq<Elem>, a: nat, b: nat, v: Elem): seq<Elem> {
    seq(|row|, i requires 0 <= i < |row| => if a <= i < b then v else row[i])
  }

  /** A row with `k` minima and then `k` maxima written over its front. */
  ghost function Planted(row: seq<Elem>, k: nat, lo: Elem, hi: Elem): seq<Elem> {
    Over(Over(row, 0, k, lo), k, 2 * k, hi)
  }

  lemma {:induction false} CountRepeat(k: nat, v: Elem, u: Elem)
    ensures multiset(seq(k, _ => v))[u] == if u == v then k else 0
  {
    if k > 0 {
      CountRepeat(k - 1, v, u);
      assert seq(k, _ => v) == seq(k - 1, _ => v) + [v];
    }
  }

  /** On a row that avoids both extremes, planting makes exactly `k` of each. */
  lemma PlantedCounts(row: seq<Elem>, k: nat, lo: Elem, hi: Elem)
    requires 2 * k <= |row| && lo != hi && lo !in row && hi !in row
    ensures multiset(Planted(row, k, lo, hi))[lo] == k == multiset(Planted(row, k, lo, hi))[hi]
  {
    CountRepeat(k, lo, lo);
    CountRepeat(k, lo, hi);
    CountRepeat(k, hi, lo);
    CountRepeat(k, hi, hi);
    var rest := row[2 * k..];
    assert Planted(row, k, lo, hi) == seq(k, _ => lo) + seq(k, _ => hi) + rest;
    assert lo !in rest && hi !in rest;
    assert lo !in multiset(rest) && hi !in multiset(rest);
  }

  // ------------------------------------------------------------------- the whole fill

  /** C++ division, which truncates toward zero. */
  function TruncDiv(a: int, b: int): int
    requires b > 0
  {
    if a >= 0 then a / b else -(-a / b)
  }

  /** The extrema planted in one row. */
  function PerRow(locs: int, height: int): (k: nat)
    requires height > 0
    ensures locs >= 0 ==> height * k <= locs
  {
    if locs >= 0 then locs / height else 0
  }

  /** `numLocs` of row `y`, as the loop computes it from the running count. */
  function NumLocs(locs: int, height: int, y: nat): int
    requires height > 0
  {
    var h := TruncDiv(locs, height);
    if y * h + h > locs then locs - y * h else h
  }

  lemma ClampNonNegative(locs: nat, height: int, y: nat)
    requires height > 0 && y < height
    ensures y * (locs / height) + locs / height <= locs
    ensures NumLocs(locs, height, y) == locs / height
  {
    var h := locs / height;
    MulStep(y, height, h);
    assert height * h <= locs;
  }

  lemma ClampNegative(locs: int, height: int, y: nat)
    requires locs < 0 && height > 0 && y < height
    ensures NumLocs(locs, height, y) <= 0
  {
    var g := -locs / height;
    MulStep(y, height, g);
    assert height * g <= -locs;
    assert y * (-g) == -(y * g);
  }

  /** The clamp never fires for a sensible request, and for a negative one nothing is planted. */
  lemma ClampNeverFires(locs: int, height: int, y: nat)
    requires height > 0 && y < height
    ensures locs >= 0 ==> NumLocs(locs, height, y) == locs / height && y * (locs / height) + locs / height <= locs
    ensures locs < 0 ==> NumLocs(locs, height, y) <= 0
  {
    if locs >= 0 { ClampNonNegative(locs, height, y); } else { ClampNegative(locs, height, y); }
  }

  /** Where row (x, y) starts. */
  function Base(strides: seq<int>, x: int, y: int): int
    requires |strides| == 3
  {
    x * strides[0] + y * strides[1]
  }

  /** A dense buffer of `shape` samples, rows and pixels; pixels of a row are packed. */
  ghost predicate Layout(len: int, shape: seq<int>, strides: seq<int>, size: int) {
    && |shape| == |strides| == 3
    && (forall i :: 0 <= i < 3 ==> shape[i] >= 0)
    && size > 0
    && strides[0] >= shape[1] * strides[1]
    && strides[1] >= shape[2] * strides[2]
    && strides[2] == size
    && len >= shape[0] * strides[0]
  }

  /** Rows are inside the buffer, and distinct rows do not meet. */
  lemma RowInside(len: int, shape: seq<int>, strides: seq<int>, size: int, x: int, y: int)
    requires Layout(len, shape, strides, size) && 0 <= x < shape[0] && 0 <= y < shape[1]
    ensures 0 <= Base(strides, x, y) && Base(strides, x, y) + shape[2] * size <= len
  {
    assert strides[1] >= shape[2] * size >= 0;
    MulStep(y, shape[1], strides[1]);
    assert strides[0] >= shape[1] * strides[1] >= 0;
    MulStep(x, shape[0], strides[0]);
    assert 0 <= y * strides[1] && 0 <= x * strides[0];
  }

  lemma RowsApart(len: int, shape: seq<int>, strides: seq<int>, size: int, x: int, y: int, x': int, y': int)
    requires Layout(len, shape, strides, size)
    requires 0 <= x < shape[0] && 0 <= y < shape[1] && 0 <= x' < shape[0] && 0 <= y' < shape[1]
    requires x < x' || (x == x' && y < y')
    ensures Base(strides, x, y) + shape[2] * size <= Base(strides, x', y')
  {
    assert strides[1] >= shape[2] * size >= 0;
    assert strides[0] >= shape[1] * strides[1] >= 0;
    MulStep(y, shape[1], strides[1]);
    assert y' * strides[1] >= 0;
    if x < x' {
      MulStep(x, x', strides[0]);
    } else {
      MulStep(y, y', strides[1]);
    }
  }

  ghost function RowAt(buf: seq<byte>, shape: seq<int>, strides: seq<int>, size: int, x: int, y: int): (row: seq<Elem>)
    requires Layout(|buf|, shape, strides, size) && 0 <= x < shape[0] && 0 <= y < shape[1]
    ensures |row| == shape[2]
  {
    RowInside(|buf|, shape, strides, size, x, y);
    Row(buf, Base(strides, x, y), shape[2], size)
  }

  lemma RowKept(a: seq<byte>, b: seq<byte>, n: nat, size: nat, at: int, base: int)
    requires |a| == |b| && SameOutside(a, b, at, n, size)
    requires 0 <= base && base + n * size <= |a|
    requires base + n * size <= at || at + n * size <= base
    ensures Row(a, base, n, size) == Row(b, base, n, size)
  {
    forall z | 0 <= z < n ensures Row(a, base, n, size)[z] == Row(b, base, n, size)[z] {
      MulStep(z, n, size);
      assert Slot(a, base + z * size, size) == Slot(b, base + z * size, size);
    }
  }

  /** A change inside one row leaves every other row alone. */
  lemma OtherRowsKept(a: seq<byte>, b: seq<byte>, shape: seq<int>, strides: seq<int>, size: int, x: int, y: int, x': int, y': int)
    requires |a| == |b| && Layout(|a|, shape, strides, size)
    requires 0 <= x < shape[0] && 0 <= y < shape[1] && 0 <= x' < shape[0] && 0 <= y' < shape[1]
    requires x != x' || y != y'
    requires SameOutside(a, b, Base(strides, x, y), shape[2], size)
    ensures RowAt(a, shape, strides, size, x', y') == RowAt(b, shape, strides, size, x', y')
  {
    RowInside(|a|, shape, strides, size, x', y');
    if x < x' || (x == x' && y < y') {
      RowsApart(|a|, shape, strides, size, x, y, x', y');
    } else {
      RowsApart(|a|, shape, strides, size, x', y', x, y);
    }
    RowKept(a, b, shape[2], size, Base(strides, x, y), Base(strides, x', y'));
  }

  /** Row (x, y) comes before (x', y') in loop order. */
  ghost predicate RowBefore(x: int, y: int, x': int, y': int) {
    x < x' || (x == x' && y < y')
  }

  /** The rows before (x, y) are shuffled planted rows, the others are as they were, and so is the padding. */
  ghost predicate Done(buf: seq<byte>, before: seq<byte>, shape: seq<int>, strides: seq<int>, size: int,
                       k: nat, lo: Elem, hi: Elem, rng: Rng, x: int, y: int)
    requires Layout(|before|, shape, strides, size) && 2 * k <= shape[2] && FairAll(rng)
  {
    && |buf| == |before|
    && (forall i, j :: 0 <= i < shape[0] && 0 <= j < shape[1] ==>
          if RowBefore(i, j, x, y)
          then RowAt(buf, shape, strides, size, i, j)
               == Shuffled(Planted(RowAt(before, shape, strides, size, i, j), k, lo, hi), shape[2], rng(i, j))
          else RowAt(buf, shape, strides, size, i, j) == RowAt(before, shape, strides, size, i, j))
    && (forall p :: 0 <= p < |buf| && OutsideRows(p, shape, strides, size) ==> buf[p] == before[p])
  }

  ghost predicate OutsideRows(p: int, shape: seq<int>, strides: seq<int>, size: int)
    requires |shape| == |strides| == 3
  {
    forall i, j :: 0 <= i < shape[0] && 0 <= j < shape[1] ==> !(Base(strides, i, j) <= p < Base(strides, i, j) + shape[2] * size)
  }

  /** One of the two writing loops. */
  method PlantRun(vec: array<byte>, base: int, ghost n: nat, size: nat, from: int, to: int, v: Elem)
    requires 0 <= base && base + n * size <= vec.Length && |v| == size
    requires from < to ==> 0 <= from && to <= n
    modifies vec
    ensures Row(vec[..], base, n, size)
         == if from < to then Over(old(Row(vec[..], base, n, size)), from, to, v) else old(Row(vec[..], base, n, size))
    ensures SameOutside(old(vec[..]), vec[..], base, n, size)
  {
    ghost var row := Row(vec[..], base, n, size);
    var z := from;
    while z < to
      invariant from < to ==> z <= to
      invariant from <= z
      invariant from < to ==> Row(vec[..], base, n, size) == Over(row, from, z, v)
      invariant from >= to ==> Row(vec[..], base, n, size) == row
      invariant SameOutside(old(vec[..]), vec[..], base, n, size)
    {
      StoreElem(vec, base, n, size, z, v);
      assert Over(row, from, z, v)[z := v] == Over(row, from, z + 1, v);
      z := z + 1;
    }
  }

  /** The body of the row loop: write the extrema of one row and shuffle it. */
  method PlantRow(vec: array<byte>, base: int, n: nat, size: nat, num: int, lo: Elem, hi: Elem, draws: Draws)
    requires 0 <= base && base + n * size <= vec.Length && Fair(draws)
    requires |lo| == size == |hi| && 2 * num <= n
    modifies vec
    ensures Row(vec[..], base, n, size)
         == Shuffled(Planted(old(Row(vec[..], base, n, size)), if num > 0 then num else 0, lo, hi), n, draws)
    ensures SameOutside(old(vec[..]), vec[..], base, n, size)
  {
    hide Shuffled;
    ghost var row := Row(vec[..], base, n, size);
    PlantRun(vec, base, n, size, 0, num, lo);
    PlantRun(vec, base, n, size, num, num * 2, hi);
    if num <= 0 {
      assert Planted(row, 0, lo, hi) == row;
    }
    Shuffle(vec, base, n, size, draws);
  }

  /** One turn of the row loop, seen on the whole buffer. */
  method PlantOneRow(vec: array<byte>, shape: seq<int>, strides: seq<int>, size: nat, ghost k: nat, num: int, lo: Elem, hi: Elem,
                     rng: Rng, x: int, y: int, ghost before: seq<byte>)
    requires Layout(vec.Length, shape, strides, size) && 0 <= x < shape[0] && 0 <= y < shape[1] && |before| == vec.Length
    requires |lo| == size == |hi| && FairAll(rng)
    requires 2 * k <= shape[2] && k == if num > 0 then num else 0
    requires Done(vec[..], before, shape, strides, size, k, lo, hi, rng, x, y)
    modifies vec
    ensures Done(vec[..], before, shape, strides, size, k, lo, hi, rng, x, y + 1)
  {
    RowInside(vec.Length, shape, strides, size, x, y);
    ghost var prev := vec[..];
    PlantRow(vec, Base(strides, x, y), shape[2], size, num, lo, hi, rng(x, y));
    RowDone(vec[..], prev, before, shape, strides, size, k, lo, hi, rng, x, y);
  }

  /** The row loop of one sample. */
  method PlantSample(vec: array<byte>, shape: seq<int>, strides: seq<int>, size: nat, locs: int, lo: Elem, hi: Elem,
                     rng: Rng, x: int, ghost before: seq<byte>)
    requires Layout(vec.Length, shape, strides, size) && 0 <= x < shape[0] && shape[1] > 0 && |before| == vec.Length
    requires |lo| == size == |hi| && FairAll(rng)
    requires TruncDiv(locs, shape[1]) * 2 < shape[2]
    requires 2 * PerRow(locs, shape[1]) <= shape[2]
    requires Done(vec[..], before, shape, strides, size, PerRow(locs, shape[1]), lo, hi, rng, x, 0)
    modifies vec
    ensures Done(vec[..], before, shape, strides, size, PerRow(locs, shape[1]), lo, hi, rng, x + 1, 0)
  {
    ghost var k := PerRow(locs, shape[1]);
    var locsPerHeight := TruncDiv(locs, shape[1]);
    var countLocs := 0;
    for y := 0 to shape[1]
      invariant countLocs == y * locsPerHeight
      invariant Done(vec[..], before, shape, strides, size, k, lo, hi, rng, x, y)
    {
      var numLocs := if countLocs + locsPerHeight > locs then locs - countLocs else locsPerHeight;
      ClampNeverFires(locs, shape[1], y);
      PlantOneRow(vec, shape, strides, size, k, numLocs, lo, hi, rng, x, y, before);
      CountStep(y, locsPerHeight);
      countLocs := countLocs + locsPerHeight;
    }
    SampleDone(vec[..], before, shape, strides, size, k, lo, hi, rng, x);
  }

  lemma CountStep(y: int, h: int)
    ensures (y + 1) * h == y * h + h
  {
  }

  lemma SampleDone(buf: seq<byte>, before: seq<byte>, shape: seq<int>, strides: seq<int>, size: int,
                   k: nat, lo: Elem, hi: Elem, rng: Rng, x: int)
    requires Layout(|before|, shape, strides, size) && 2 * k <= shape[2] && FairAll(rng)
    requires Done(buf, before, shape, strides, size, k, lo, hi, rng, x, shape[1])
    ensures Done(buf, before, shape, strides, size, k, lo, hi, rng, x + 1, 0)
  {
    forall i, j | 0 <= i < shape[0] && 0 <= j < shape[1]
      ensures RowBefore(i, j, x, shape[1]) <==> RowBefore(i, j, x + 1, 0)
    {
    }
  }

  /** `RandomMinMax`, loop for loop; `rng` gives the draws of the shuffle of each row. */
  method RandomMinMax(vec: array<byte>, shape: seq<int>, strides: seq<int>, size: nat, locs: int, lo: Elem, hi: Elem,
                      rng: Rng)
      returns (ok: bool)
    requires Layout(vec.Length, shape, strides, size) && shape[1] > 0
    requires |lo| == size == |hi| && FairAll(rng)
    modifies vec
    ensures ok <==> TruncDiv(locs, shape[1]) * 2 < shape[2]
    ensures !ok ==> vec[..] == old(vec[..])
    ensures ok ==> 2 * PerRow(locs, shape[1]) <= shape[2]
                   && Done(vec[..], old(vec[..]), shape, strides, size, PerRow(locs, shape[1]), lo, hi, rng, shape[0], 0)
  {
    var locsPerHeight := TruncDiv(locs, shape[1]);
    if locsPerHeight * 2 >= shape[2] {
      return false;
    }
    ok := true;
    ghost var before := vec[..];
    for x := 0 to shape[0]
      invariant Done(vec[..], before, shape, strides, size, PerRow(locs, shape[1]), lo, hi, rng, x, 0)
    {
      PlantSample(vec, shape, strides, size, locs, lo, hi, rng, x, before);
    }
  }

  lemma RowDone(buf: seq<byte>, prev: seq<byte>, before: seq<byte>, shape: seq<int>, strides: seq<int>, size: int,
                k: nat, lo: Elem, hi: Elem, rng: Rng, x: int, y: int)
    requires Layout(|before|, shape, strides, size) && 2 * k <= shape[2] && FairAll(rng)
    requires 0 <= x < shape[0] && 0 <= y < shape[1] && |buf| == |prev|
    requires Done(prev, before, shape, strides, size, k, lo, hi, rng, x, y)
    requires SameOutside(prev, buf, Base(strides, x, y), shape[2], size)
    requires RowAt(buf, shape, strides, size, x, y)
          == Shuffled(Planted(RowAt(prev, shape, strides, size, x, y), k, lo, hi), shape[2], rng(x, y))
    ensures Done(buf, before, shape, strides, size, k, lo, hi, rng, x, y + 1)
  {
    forall i, j | 0 <= i < shape[0] && 0 <= j < shape[1] && (i != x || j != y)
      ensures RowAt(buf, shape, strides, size, i, j) == RowAt(prev, shape, strides, size, i, j)
    {
      OtherRowsKept(prev, buf, shape, strides, size, x, y, i, j);
    }
    forall p | 0 <= p < |buf| && OutsideRows(p, shape, strides, size) ensures buf[p] == before[p] {
      assert !(Base(strides, x, y) <= p < Base(strides, x, y) + shape[2] * size);
    }
  }

  // --------------------------------------------------------------------- the counts

  ghost function Sum(s: seq<nat>): nat {
    if s == [] then 0 else Sum(s[..|s| - 1]) + s[|s| - 1]
  }

  lemma {:induction false} SumOfEqual(s: seq<nat>, k: nat)
    requires forall i :: 0 <= i < |s| ==> s[i] == k
    ensures Sum(s) == |s| * k
  {
    if s != [] {
      SumOfEqual(s[..|s| - 1], k);
      CountStep(|s| - 1, k);
    }
  }

  /** Pixels of value `v` in each row of sample `x`. */
  ghost function RowTallies(buf: seq<byte>, shape: seq<int>, strides: seq<int>, size: int, x: int, v: Elem): (s: seq<nat>)
    requires Layout(|buf|, shape, strides, size) && 0 <= x < shape[0]
    ensures |s| == shape[1]
  {
    seq(shape[1], y requires 0 <= y < shape[1] => multiset(RowAt(buf, shape, strides, size, x, y))[v])
  }

  /** Pixels of sample `x` with value `v`. */
  ghost function SampleCount(buf: seq<byte>, shape: seq<int>, strides: seq<int>, size: int, x: int, v: Elem): nat
    requires Layout(|buf|, shape, strides, size) && 0 <= x < shape[0]
  {
    Sum(RowTallies(buf, shape, strides, size, x, v))
  }

  /** No pixel has either extreme value: what the fill before the planting guarantees. */
  ghost predicate Avoids(buf: seq<byte>, shape: seq<int>, strides: seq<int>, size: int, lo: Elem, hi: Elem)
    requires Layout(|buf|, shape, strides, size)
  {
    forall x, y :: 0 <= x < shape[0] && 0 <= y < shape[1] ==>
      lo !in RowAt(buf, shape, strides, size, x, y) && hi !in RowAt(buf, shape, strides, size, x, y)
  }

  lemma RowCounts(buf: seq<byte>, before: seq<byte>, shape: seq<int>, strides: seq<int>, size: int,
                  k: nat, lo: Elem, hi: Elem, rng: Rng, x: int, y: int)
    requires Layout(|before|, shape, strides, size) && 2 * k <= shape[2] && lo != hi && FairAll(rng)
    requires Done(buf, before, shape, strides, size, k, lo, hi, rng, shape[0], 0)
    requires Avoids(before, shape, strides, size, lo, hi)
    requires 0 <= x < shape[0] && 0 <= y < shape[1]
    ensures multiset(RowAt(buf, shape, strides, size, x, y))[lo] == k == multiset(RowAt(buf, shape, strides, size, x, y))[hi]
  {
    assert RowBefore(x, y, shape[0], 0);
    PlantedCounts(RowAt(before, shape, strides, size, x, y), k, lo, hi);
    ShuffleKeepsMultiset(Planted(RowAt(before, shape, strides, size, x, y), k, lo, hi), shape[2], rng(x, y));
  }

  /** After the run every sample has `height * (locs div height)` minima and as many maxima, never more than asked for. */
  lemma SampleTotals(buf: seq<byte>, before: seq<byte>, shape: seq<int>, strides: seq<int>, size: int,
                     locs: nat, lo: Elem, hi: Elem, rng: Rng, x: int)
    requires FairAll(rng) && Layout(|before|, shape, strides, size) && shape[1] > 0 && 2 * PerRow(locs, shape[1]) <= shape[2] && lo != hi
    requires Done(buf, before, shape, strides, size, PerRow(locs, shape[1]), lo, hi, rng, shape[0], 0)
    requires Avoids(before, shape, strides, size, lo, hi) && 0 <= x < shape[0]
    ensures SampleCount(buf, shape, strides, size, x, lo) == shape[1] * (locs / shape[1]) <= locs
    ensures SampleCount(buf, shape, strides, size, x, hi) == shape[1] * (locs / shape[1])
  {
    var k := PerRow(locs, shape[1]);
    var mins, maxs := RowTallies(buf, shape, strides, size, x, lo), RowTallies(buf, shape, strides, size, x, hi);
    forall y | 0 <= y < shape[1] ensures mins[y] == k == maxs[y] {
      RowCounts(buf, before, shape, strides, size, k, lo, hi, rng, x, y);
    }
    SumOfEqual(mins, k);
    SumOfEqual(maxs, k);
  }

  // ------------------------------------------------------- the fill and the planting

  /** What `RandomValuesWithoutMinMax` promises of its values. */
  ghost predicate GeneratorAvoids(gen: Generator, lo: Elem, hi: Elem) {
    forall x, y, z, w :: gen(x, y, z, w) != lo && gen(x, y, z, w) != hi
  }

  lemma LayoutNested(len: int, shape: seq<int>, strides: seq<int>, size: int)
    requires Layout(len, shape, strides, size)
    ensures Nested(shape, strides, size)
  {
    assert shape[1..][1] == shape[2] && strides[1..][1] == strides[2];
    assert Nested(shape[1..][1..], strides[1..][1..], size);
    assert Nested(shape[1..], strides[1..], size);
  }

  /** Place `z` of row (x, y) is the element at coordinate (x, y, z). */
  lemma PlaceAddress(strides: seq<int>, x: int, y: int, z: int)
    requires |strides| == 3
    ensures Dot([x, y, z], strides) == Base(strides, x, y) + z * strides[2]
  {
    assert [x, y, z][1..] == [y, z] && [y, z][1..] == [z] && [z][1..] == [];
    assert Dot([z], strides[1..][1..]) == z * strides[2] + 0;
    assert Dot([y, z], strides[1..]) == y * strides[1] + Dot([z], strides[1..][1..]);
  }

  lemma PlaceReads(buf: seq<byte>, shape: seq<int>, strides: seq<int>, size: int, gen: Generator, x: int, y: int, z: int)
    requires Layout(|buf|, shape, strides, size) && Fits(buf, shape, strides, size)
    requires 0 <= x < shape[0] && 0 <= y < shape[1] && 0 <= z < shape[2]
    requires forall c :: InShape(c, shape) ==> Reads(buf, c, shape, strides, size, gen)
    ensures RowAt(buf, shape, strides, size, x, y)[z] == gen(x, y, z, 0)
  {
    var c := [x, y, z];
    PlaceAddress(strides, x, y, z);
    assert InShape(c, shape);
    assert Reads(buf, c, shape, strides, size, gen);
  }

  /** A buffer filled by such a generator avoids both extremes everywhere. */
  lemma FilledAvoids(buf: seq<byte>, before: seq<byte>, shape: seq<int>, strides: seq<int>, size: int,
                     gen: Generator, lo: Elem, hi: Elem)
    requires Layout(|before|, shape, strides, size) && Fits(before, shape, strides, size) && Fits(buf, shape, strides, size)
    requires Filled(buf, before, shape, strides, size, gen) && GeneratorAvoids(gen, lo, hi)
    ensures Avoids(buf, shape, strides, size, lo, hi)
  {
    forall x, y | 0 <= x < shape[0] && 0 <= y < shape[1]
      ensures lo !in RowAt(buf, shape, strides, size, x, y) && hi !in RowAt(buf, shape, strides, size, x, y)
    {
      var row := RowAt(buf, shape, strides, size, x, y);
      forall z | 0 <= z < shape[2] ensures row[z] != lo && row[z] != hi {
        PlaceReads(buf, shape, strides, size, gen, x, y, z);
      }
    }
  }

  /** A planted row, place by place. */
  lemma PlantedPlaces(row: seq<Elem>, k: nat, lo: Elem, hi: Elem, gen: Generator, x: int, y: int)
    requires 2 * k <= |row|
    requires forall z :: 0 <= z < |row| ==> row[z] == gen(x, y, z, 0)
    ensures Planted(row, k, lo, hi) == seq(|row|, z => if z < k then lo else if z < 2 * k then hi else gen(x, y, z, 0))
  {
    var t := Planted(row, k, lo, hi);
    forall z | 0 <= z < |row| ensures t[z] == if z < k then lo else if z < 2 * k then hi else gen(x, y, z, 0) {
    }
  }

  /** A row of the filled and planted buffer. */
  lemma PlantedRow(buf: seq<byte>, filled: seq<byte>, shape: seq<int>, strides: seq<int>, size: int, gen: Generator,
                   k: nat, lo: Elem, hi: Elem, rng: Rng, x: int, y: int)
    requires FairAll(rng) && Layout(|filled|, shape, strides, size) && Fits(filled, shape, strides, size) && 2 * k <= shape[2]
    requires Filled(filled, Zeros(|filled|), shape, strides, size, gen)
    requires Done(buf, filled, shape, strides, size, k, lo, hi, rng, shape[0], 0)
    requires 0 <= x < shape[0] && 0 <= y < shape[1]
    ensures var row := seq(shape[2], z => if z < k then lo else if z < 2 * k then hi else gen(x, y, z, 0));
            && RowAt(buf, shape, strides, size, x, y) == Shuffled(row, shape[2], rng(x, y))
            && multiset(RowAt(buf, shape, strides, size, x, y)) == multiset(row)
  {
    var row := RowAt(filled, shape, strides, size, x, y);
    forall z | 0 <= z < shape[2] ensures row[z] == gen(x, y, z, 0) {
      PlaceReads(filled, shape, strides, size, gen, x, y, z);
    }
    PlantedPlaces(row, k, lo, hi, gen, x, y);
    assert RowBefore(x, y, shape[0], 0);
    ShuffleKeepsMultiset(Planted(row, k, lo, hi), shape[2], rng(x, y));
  }

  /** No element of the tensor has a byte outside the rows. */
  lemma OutsideUncovered(p: int, shape: seq<int>, strides: seq<int>, size: int, c: seq<int>)
    requires |shape| == |strides| == 3 && size > 0 && strides[2] == size
    requires OutsideRows(p, shape, strides, size)
    ensures !Covers(c, p, shape, strides, size)
  {
    if InShape(c, shape) {
      assert c == [c[0], c[1], c[2]];
      PlaceAddress(strides, c[0], c[1], c[2]);
      MulStep(c[2], shape[2], size);
      RowStart(c[2], size);
    }
  }

  lemma RowStart(z: nat, size: nat)
    ensures z * size >= 0
  {
  }

  /** Padding stays zero. */
  lemma OutsideZero(buf: seq<byte>, filled: seq<byte>, shape: seq<int>, strides: seq<int>, size: int, gen: Generator,
                    k: nat, lo: Elem, hi: Elem, rng: Rng, p: int)
    requires FairAll(rng) && Layout(|filled|, shape, strides, size) && Fits(filled, shape, strides, size) && 2 * k <= shape[2]
    requires Filled(filled, Zeros(|filled|), shape, strides, size, gen)
    requires Done(buf, filled, shape, strides, size, k, lo, hi, rng, shape[0], 0)
    requires 0 <= p < |buf| && OutsideRows(p, shape, strides, size)
    ensures buf[p] == 0
  {
    forall c ensures !Covers(c, p, shape, strides, size) {
      OutsideUncovered(p, shape, strides, size, c);
    }
  }

  /** `FillTensorWithMinMax` up to the copy to the device. */
  method FillTensorWithMinMax(tensorShape: seq<int>, tensorStrides: seq<int>, size: nat, gen: Generator, locs: nat,
                              lo: Elem, hi: Elem, rng: Rng)
      returns (ok: bool, vec: array<byte>)
    requires |tensorShape| == |tensorStrides|
    requires 3 <= |tensorShape| <= 4 ==>
               Layout(tensorStrides[0] * tensorShape[0], tensorShape[..3], tensorStrides[..3], size) && tensorShape[1] > 0
               && tensorStrides[0] * tensorShape[0] >= 0
    requires Sized(gen, size) && GeneratorAvoids(gen, lo, hi)
    requires |lo| == size == |hi| && lo != hi && FairAll(rng)
    ensures fresh(vec)
    ensures ok <==> 3 <= |tensorShape| <= 4 && locs / tensorShape[1] * 2 < tensorShape[2]
    ensures ok ==> vec.Length == tensorStrides[0] * tensorShape[0]
                   && forall x :: 0 <= x < tensorShape[0] ==>
                        && SampleCount(vec[..], tensorShape[..3], tensorStrides[..3], size, x, lo) == tensorShape[1] * (locs / tensorShape[1]) <= locs
                        && SampleCount(vec[..], tensorShape[..3], tensorStrides[..3], size, x, hi) == tensorShape[1] * (locs / tensorShape[1])
    ensures ok ==> forall x, y :: 0 <= x < tensorShape[0] && 0 <= y < tensorShape[1] ==>
                     var k := locs / tensorShape[1];
                     var row := seq(tensorShape[2], z => if z < k then lo else if z < 2 * k then hi else gen(x, y, z, 0));
                     && RowAt(vec[..], tensorShape[..3], tensorStrides[..3], size, x, y) == Shuffled(row, |row|, rng(x, y))
                     && multiset(RowAt(vec[..], tensorShape[..3], tensorStrides[..3], size, x, y)) == multiset(row)
    ensures ok ==> forall p :: 0 <= p < vec.Length && OutsideRows(p, tensorShape[..3], tensorStrides[..3], size) ==> vec[p] == 0
  {
    if |tensorShape| != 3 && |tensorShape| != 4 {
      ok, vec := false, new byte[0];
      return;
    }
    var strides, shape := tensorStrides[..3], tensorShape[..3];
    vec := new byte[strides[0] * shape[0]](_ => 0);
    LayoutNested(vec.Length, shape, strides, size);
    Fill(vec, shape, strides, size, gen);
    ghost var filled := vec[..];
    FilledAvoids(filled, Zeros(vec.Length), shape, strides, size, gen, lo, hi);
    ok := RandomMinMax(vec, shape, strides, size, locs, lo, hi, rng);
    if ok {
      forall x | 0 <= x < shape[0]
        ensures && SampleCount(vec[..], shape, strides, size, x, lo) == shape[1] * (locs / shape[1]) <= locs
                && SampleCount(vec[..], shape, strides, size, x, hi) == shape[1] * (locs / shape[1])
      {
        SampleTotals(vec[..], filled, shape, strides, size, locs, lo, hi, rng, x);
      }
      var k := PerRow(locs, shape[1]);
      forall x, y | 0 <= x < shape[0] && 0 <= y < shape[1]
        ensures var row := seq(shape[2], z => if z < k then lo else if z < 2 * k then hi else gen(x, y, z, 0));
                && RowAt(vec[..], shape, strides, size, x, y) == Shuffled(row, |row|, rng(x, y))
                && multiset(RowAt(vec[..], shape, strides, size, x, y)) == multiset(row)
      {
        PlantedRow(vec[..], filled, shape, strides, size, gen, k, lo, hi, rng, x, y);
      }
      forall p | 0 <= p < vec.Length && OutsideRows(p, shape, strides, size) ensures vec[p] == 0 {
        OutsideZero(vec[..], filled, shape, strides, size, gen, k, lo, hi, rng, p);
      }
    }
  }
}
