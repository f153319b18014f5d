/**
 `FillBuffer`: four nested loops that write one generated value at each coordinate of
 a strided byte buffer of rank one to four.  The final buffer is determined byte by byte.
 */
module FillBuffer {
  import opened Strided

  /** A value generator; a value of the element type is given by its bytes. */
  type Generator = (int, int, int, int) -> seq<byte>

  /** Component `i` of a coordinate widened to four components. */
  function At(c: seq<int>, i: nat): int {
    if i < |c| then c[i] else 0
  }

  function ValueOf(gen: Generator, c: seq<int>): seq<byte> {
    gen(At(c, 0), At(c, 1), At(c, 2), At(c, 3))
  }

  /** Every value has the element size. */
  ghost predicate Sized(gen: Generator, size: int) {
    forall x, y, z, w :: |gen(x, y, z, w)| == size
  }

  ghost predicate Covers(c: seq<int>, p: int, shape: seq<int>, strides: seq<int>, size: int)
    requires |shape| == |strides|
  {
    InShape(c, shape) && Dot(c, strides) <= p < Dot(c, strides) + size
  }

  ghost predicate Fits(buf: seq<byte>, shape: seq<int>, strides: seq<int>, size: int) {
    Nested(shape, strides, size) && |shape| <= 4 && |buf| >= shape[0] * strides[0]
  }

  /** All coordinates hold their generated value; every other byte is as in `before`. */
  ghost predicate Filled(buf: seq<byte>, before: seq<byte>, shape: seq<int>, strides: seq<int>, size: int, gen: Generator)
    requires Fits(before, shape, strides, size)
  {
    && |buf| == |before|
    && (forall c :: InShape(c, shape) ==> Reads(buf, c, shape, strides, size, gen))
    && (forall p :: 0 <= p < |buf| && (forall c :: !Covers(c, p, shape, strides, size)) ==> buf[p] == before[p])
  }

  ghost predicate Reads(buf: seq<byte>, c: seq<int>, shape: seq<int>, strides: seq<int>, size: int, gen: Generator)
    requires Fits(buf, shape, strides, size) && InShape(c, shape)
  {
    DotInside(c, shape, strides, size);
    Slot(buf, Dot(c, strides), size) == ValueOf(gen, c)
  }

  /** `Filled` leaves no freedom: it determines the buffer. */
  lemma FilledUnique(a: seq<byte>, b: seq<byte>, before: seq<byte>, shape: seq<int>, strides: seq<int>, size: int, gen: Generator)
    requires Fits(before, shape, strides, size)
    requires Filled(a, before, shape, strides, size, gen) && Filled(b, before, shape, strides, size, gen)
    ensures a == b
  {
    forall p | 0 <= p < |a| ensures a[p] == b[p] {
      if c :| Covers(c, p, shape, strides, size) {
        DotInside(c, shape, strides, size);
        assert Reads(a, c, shape, strides, size, gen) && Reads(b, c, shape, strides, size, gen);
        var o := Dot(c, strides);
        assert Slot(a, o, size)[p - o] == a[p] && Slot(b, o, size)[p - o] == b[p];
      }
    }
  }

  /** The offset of a coordinate, written out. */
  lemma DotIs(c: seq<int>, strides: seq<int>)
    requires 1 <= |c| == |strides| <= 4
    ensures |c| == 1 ==> Dot(c, strides) == c[0] * strides[0]
    ensures |c| == 2 ==> Dot(c, strides) == c[0] * strides[0] + c[1] * strides[1]
    ensures |c| == 3 ==> Dot(c, strides) == c[0] * strides[0] + c[1] * strides[1] + c[2] * strides[2]
    ensures |c| == 4 ==> Dot(c, strides) == c[0] * strides[0] + c[1] * strides[1] + c[2] * strides[2] + c[3] * strides[3]
  {
    assert Dot([], []) == 0;
    var c1, s1 := c[1..], strides[1..];
    assert Dot(c, strides) == c[0] * strides[0] + Dot(c1, s1);
    if |c| > 1 {
      assert c1[0] == c[1] && s1[0] == strides[1];
      var c2, s2 := c1[1..], s1[1..];
      assert Dot(c1, s1) == c[1] * strides[1] + Dot(c2, s2);
      if |c| > 2 {
        assert c2[0] == c[2] && s2[0] == strides[2];
        var c3, s3 := c2[1..], s2[1..];
        assert Dot(c2, s2) == c[2] * strides[2] + Dot(c3, s3);
        if |c| > 3 {
          assert c3[0] == c[3] && s3[0] == strides[3];
          assert Dot(c3, s3) == c[3] * strides[3] + Dot(c3[1..], s3[1..]);
        }
      }
    }
  }

  /** At each rank: the element of a filled buffer at its byte offset is the value generated for its coordinate, missing ones taken as 0. */
  lemma FilledAt(buf: seq<byte>, before: seq<byte>, shape: seq<int>, strides: seq<int>, size: int, gen: Generator, c: seq<int>)
    requires Fits(before, shape, strides, size) && Filled(buf, before, shape, strides, size, gen)
    requires |c| == |shape| && forall i :: 0 <= i < |c| ==> 0 <= c[i] < shape[i]
    ensures |c| == 1 ==> HasAt(buf, c[0] * strides[0], size, gen(c[0], 0, 0, 0))
    ensures |c| == 2 ==> HasAt(buf, c[0] * strides[0] + c[1] * strides[1], size, gen(c[0], c[1], 0, 0))
    ensures |c| == 3 ==> HasAt(buf, c[0] * strides[0] + c[1] * strides[1] + c[2] * strides[2], size, gen(c[0], c[1], c[2], 0))
    ensures |c| == 4 ==> HasAt(buf, c[0] * strides[0] + c[1] * strides[1] + c[2] * strides[2] + c[3] * strides[3], size,
                               gen(c[0], c[1], c[2], c[3]))
  {
    assert InShape(c, shape);
    assert Reads(buf, c, shape, strides, size, gen);
    DotInside(c, shape, strides, size);
    DotIs(c, strides);
    hide Dot, Nested, Filled;
  }

  /** The `size` bytes at `at` are `v`. */
  predicate HasAt(buf: seq<byte>, at: int, size: int, v: seq<byte>) {
    0 <= at <= at + size <= |buf| && buf[at..at + size] == v
  }

  /** `c` comes before (x, y, z, w) in loop order. */
  ghost predicate Before(c: seq<int>, x: int, y: int, z: int, w: int) {
    || At(c, 0) < x
    || (At(c, 0) == x && (At(c, 1) < y || (At(c, 1) == y && (At(c, 2) < z || (At(c, 2) == z && At(c, 3) < w)))))
  }

  ghost predicate Reached(c: seq<int>, p: int, shape: seq<int>, strides: seq<int>, size: int, x: int, y: int, z: int, w: int)
    requires |shape| == |strides|
  {
    Covers(c, p, shape, strides, size) && Before(c, x, y, z, w)
  }

  /** No coordinate before (x, y, z, w) owns byte `p`. */
  ghost predicate Untouched(p: int, shape: seq<int>, strides: seq<int>, size: int, x: int, y: int, z: int, w: int)
    requires |shape| == |strides|
  {
    forall c :: !Reached(c, p, shape, strides, size, x, y, z, w)
  }

  /** The loops have filled exactly the coordinates before (x, y, z, w). */
  ghost predicate FilledTo(buf: seq<byte>, before: seq<byte>, shape: seq<int>, strides: seq<int>, size: int, gen: Generator,
                           x: int, y: int, z: int, w: int)
    requires Fits(before, shape, strides, size)
  {
    && |buf| == |before|
    && (forall c :: InShape(c, shape) && Before(c, x, y, z, w) ==> Reads(buf, c, shape, strides, size, gen))
    && (forall p :: 0 <= p < |buf| && Untouched(p, shape, strides, size, x, y, z, w) ==> buf[p] == before[p])
  }

  /** Iterations of loop `i`: the extent of the dimension, or one when the rank has no such dimension. */
  function Extent(shape: seq<int>, i: nat): (n: nat) {
    if i >= |shape| then 1 else if shape[i] < 0 then 0 else shape[i]
  }

  /** A store at `c` leaves the element at any other coordinate alone. */
  lemma StoreKeeps(buf: seq<byte>, shape: seq<int>, strides: seq<int>, size: int, c: seq<int>, d: seq<int>, v: seq<byte>)
    requires Fits(buf, shape, strides, size) && InShape(c, shape) && InShape(d, shape) && c != d && |v| == size
    ensures 0 <= Dot(c, strides) && Dot(c, strides) + size <= |buf|
    ensures 0 <= Dot(d, strides) && Dot(d, strides) + size <= |buf|
    ensures Slot(Splice(buf, Dot(c, strides), v), Dot(d, strides), size) == Slot(buf, Dot(d, strides), size)
  {
    DotInside(c, shape, strides, size);
    DotInside(d, shape, strides, size);
    ElementsDisjoint(c, d, shape, strides, size);
  }

  /** One store moves the front by one coordinate. */
  lemma FillStep(buf: seq<byte>, before: seq<byte>, shape: seq<int>, strides: seq<int>, size: int, gen: Generator,
                 x: int, y: int, z: int, w: int, c: seq<int>)
    requires Fits(before, shape, strides, size) && Sized(gen, size)
    requires FilledTo(buf, before, shape, strides, size, gen, x, y, z, w)
    requires InShape(c, shape) && c == [x, y, z, w][..|shape|] && ValueOf(gen, c) == gen(x, y, z, w)
    requires Before(c, x, y, z, w + 1)
    ensures 0 <= Dot(c, strides) && Dot(c, strides) + size <= |buf|
    ensures FilledTo(Splice(buf, Dot(c, strides), gen(x, y, z, w)), before, shape, strides, size, gen, x, y, z, w + 1)
  {
    DotInside(c, shape, strides, size);
    var o, v := Dot(c, strides), gen(x, y, z, w);
    var after := Splice(buf, o, v);
    forall d | InShape(d, shape) && Before(d, x, y, z, w + 1) ensures Reads(after, d, shape, strides, size, gen) {
      if d == c {
        assert Slot(after, o, size) == v;
      } else {
        if !Before(d, x, y, z, w) { NextIsThis(shape, d, x, y, z, w); assert false; }
        StoreKeeps(buf, shape, strides, size, c, d, v);
        assert Reads(buf, d, shape, strides, size, gen);
      }
    }
    forall p | 0 <= p < |buf| && Untouched(p, shape, strides, size, x, y, z, w + 1)
      ensures after[p] == before[p]
    {
      assert !Reached(c, p, shape, strides, size, x, y, z, w + 1);
      forall d ensures !Reached(d, p, shape, strides, size, x, y, z, w) {
        assert !Reached(d, p, shape, strides, size, x, y, z, w + 1);
      }
      assert Untouched(p, shape, strides, size, x, y, z, w);
      assert buf[p] == before[p];
    }
  }

  /** Fronts that pass the same coordinates are the same. */
  lemma FrontSame(buf: seq<byte>, before: seq<byte>, shape: seq<int>, strides: seq<int>, size: int, gen: Generator,
                  x: int, y: int, z: int, w: int, x': int, y': int, z': int, w': int)
    requires Fits(before, shape, strides, size)
    requires FilledTo(buf, before, shape, strides, size, gen, x, y, z, w)
    requires forall c :: InShape(c, shape) ==> (Before(c, x, y, z, w) <==> Before(c, x', y', z', w'))
    ensures FilledTo(buf, before, shape, strides, size, gen, x', y', z', w')
  {
    forall p | 0 <= p < |buf| && Untouched(p, shape, strides, size, x', y', z', w')
      ensures buf[p] == before[p]
    {
      forall c ensures !Reached(c, p, shape, strides, size, x, y, z, w) {
        assert !Reached(c, p, shape, strides, size, x', y', z', w');
      }
    }
  }

  lemma Components(shape: seq<int>)
    requires |shape| <= 4
    ensures forall c :: InShape(c, shape) ==>
              && 0 <= At(c, 0) < Extent(shape, 0) && 0 <= At(c, 1) < Extent(shape, 1)
              && 0 <= At(c, 2) < Extent(shape, 2) && 0 <= At(c, 3) < Extent(shape, 3)
  {
  }

  /** Between (x, y, z, w) and (x, y, z, w + 1) there is just that coordinate. */
  lemma NextIsThis(shape: seq<int>, d: seq<int>, x: int, y: int, z: int, w: int)
    requires 0 < |shape| <= 4 && InShape(d, shape)
    requires Before(d, x, y, z, w + 1) && !Before(d, x, y, z, w)
    ensures d == [x, y, z, w][..|shape|]
  {
  }

  lemma FilledAtStart(buf: seq<byte>, shape: seq<int>, strides: seq<int>, size: int, gen: Generator)
    requires Fits(buf, shape, strides, size)
    ensures FilledTo(buf, buf, shape, strides, size, gen, 0, 0, 0, 0)
  {
    Components(shape);
  }

  lemma FilledToEnd(buf: seq<byte>, before: seq<byte>, shape: seq<int>, strides: seq<int>, size: int, gen: Generator)
    requires Fits(before, shape, strides, size)
    requires FilledTo(buf, before, shape, strides, size, gen, Extent(shape, 0), 0, 0, 0)
    ensures Filled(buf, before, shape, strides, size, gen)
  {
    Components(shape);
    forall c | InShape(c, shape) ensures Reads(buf, c, shape, strides, size, gen) {
      assert Before(c, Extent(shape, 0), 0, 0, 0);
    }
    forall p | 0 <= p < |buf| && (forall c :: !Covers(c, p, shape, strides, size)) ensures buf[p] == before[p] {
      forall c ensures !Reached(c, p, shape, strides, size, Extent(shape, 0), 0, 0, 0) {
        assert !Covers(c, p, shape, strides, size);
      }
    }
  }

  /** `FillBuffer`, loop for loop. */
  method Fill(vec: array<byte>, shape: seq<int>, strides: seq<int>, size: int, gen: Generator)
    requires Fits(vec[..], shape, strides, size) && Sized(gen, size)
    modifies vec
    ensures Filled(vec[..], old(vec[..]), shape, strides, size, gen)
  {
    ghost var before := vec[..];
    Components(shape);
    FilledAtStart(before, shape, strides, size, gen);
    hide FilledTo, Filled;
    for x := 0 to Extent(shape, 0)
      invariant FilledTo(vec[..], before, shape, strides, size, gen, x, 0, 0, 0)
    {
      for y := 0 to Extent(shape, 1)
        invariant FilledTo(vec[..], before, shape, strides, size, gen, x, y, 0, 0)
      {
        for z := 0 to Extent(shape, 2)
          invariant FilledTo(vec[..], before, shape, strides, size, gen, x, y, z, 0)
        {
          for w := 0 to Extent(shape, 3)
            invariant FilledTo(vec[..], before, shape, strides, size, gen, x, y, z, w)
          {
            var coord := [x, y, z, w][..|shape|];
            FillStep(vec[..], before, shape, strides, size, gen, x, y, z, w, coord);
            Store(vec, Dot(coord, strides), gen(x, y, z, w));
          }
          FrontSame(vec[..], before, shape, strides, size, gen, x, y, z, Extent(shape, 3), x, y, z + 1, 0);
        }
        FrontSame(vec[..], before, shape, strides, size, gen, x, y, Extent(shape, 2), 0, x, y + 1, 0, 0);
      }
      FrontSame(vec[..], before, shape, strides, size, gen, x, Extent(shape, 1), 0, 0, x + 1, 0, 0, 0);
    }
    FilledToEnd(vec[..], before, shape, strides, size, gen);
  }

  ghost function Zeros(n: nat): seq<byte> {
    seq(n, _ => 0)
  }

  /** `FillTensor` up to the copy to the device: a zeroed buffer of outermost extent times stride is filled, or the rank is refused. */
  method FillTensor(shape: seq<int>, strides: seq<int>, size: int, gen: Generator) returns (ok: bool, vec: array<byte>)
    requires |shape| == |strides| && Sized(gen, size)
    requires 1 <= |shape| <= 4 ==> Nested(shape, strides, size) && shape[0] >= 0 && strides[0] >= 0
    ensures ok <==> 1 <= |shape| <= 4
    ensures fresh(vec)
    ensures ok ==> vec.Length == strides[0] * shape[0]
    ensures ok ==> Fits(Zeros(vec.Length), shape, strides, size)
                   && Filled(vec[..], Zeros(vec.Length), shape, strides, size, gen)
  {
    ok := 1 <= |shape| <= 4;
    if !ok {
      vec := new byte[0];
      return;
    }
    vec := new byte[strides[0] * shape[0]](_ => 0);
    assert vec[..] == Zeros(vec.Length);
    Fill(vec, shape, strides, size, gen);
  }
}
