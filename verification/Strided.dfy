/**
 Addresses of strided tensors.  A coordinate is mapped to the dot product of the
 coordinate and the byte strides; when every stride leaves room for all of the next
 inner dimension, that map keeps elements apart and inside the buffer, at any rank.
 */
module Strided {

  newtype byte = b: int | 0 <= b < 256

  function Dot(coord: seq<int>, strides: seq<int>): int
    requires |coord| == |strides|
  {
    if coord == [] then 0 else coord[0] * strides[0] + Dot(coord[1..], strides[1..])
  }

  predicate InShape(coord: seq<int>, shape: seq<int>) {
    |coord| == |shape| && forall i :: 0 <= i < |coord| ==> 0 <= coord[i] < shape[i]
  }

  /** Each stride is at least the inner extent times the inner stride, the innermost at least an element. */
  predicate Nested(shape: seq<int>, strides: seq<int>, size: int)
    decreases |shape|
  {
    && |shape| == |strides| > 0
    && size > 0
    && if |shape| == 1 then strides[0] >= size
       else strides[0] >= shape[1] * strides[1] && Nested(shape[1..], strides[1..], size)
  }

  /** Row-major order of coordinates. */
  predicate Precedes(c: seq<int>, d: seq<int>)
    requires |c| == |d|
  {
    c != [] && (c[0] < d[0] || (c[0] == d[0] && Precedes(c[1..], d[1..])))
  }

  lemma MulStep(a: int, b: int, s: int)
    requires a < b && s >= 0
    ensures a * s + s <= b * s
  {
    assert (b - a - 1) * s >= 0;
  }

  /** Every element lies inside the first `shape[0] * strides[0]` bytes. */
  lemma {:induction false} DotInside(c: seq<int>, shape: seq<int>, strides: seq<int>, size: int)
    requires Nested(shape, strides, size) && InShape(c, shape)
    ensures 0 <= Dot(c, strides) && Dot(c, strides) + size <= shape[0] * strides[0]
    ensures Dot(c[1..], strides[1..]) >= 0 && Dot(c[1..], strides[1..]) + size <= strides[0]
    decreases |shape|
  {
    if |shape| > 1 {
      DotInside(c[1..], shape[1..], strides[1..], size);
    }
    MulStep(c[0], shape[0], strides[0]);
    assert c[0] * strides[0] >= 0;
  }

  /** Row-major order of coordinates is address order, with room for an element in between. */
  lemma {:induction false} DotMonotone(c: seq<int>, d: seq<int>, shape: seq<int>, strides: seq<int>, size: int)
    requires Nested(shape, strides, size) && InShape(c, shape) && InShape(d, shape) && Precedes(c, d)
    ensures Dot(c, strides) + size <= Dot(d, strides)
    decreases |shape|
  {
    DotInside(c, shape, strides, size);
    DotInside(d, shape, strides, size);
    if c[0] < d[0] {
      MulStep(c[0], d[0], strides[0]);
    } else if |shape| > 1 {
      DotMonotone(c[1..], d[1..], shape[1..], strides[1..], size);
    }
  }

  lemma {:induction false} PrecedesTotal(c: seq<int>, d: seq<int>)
    requires |c| == |d|
    ensures c == d || Precedes(c, d) || Precedes(d, c)
  {
    if c != [] && c[0] == d[0] {
      PrecedesTotal(c[1..], d[1..]);
      assert c == [c[0]] + c[1..] && d == [d[0]] + d[1..];
    }
  }

  /** Distinct coordinates own disjoint bytes. */
  lemma ElementsDisjoint(c: seq<int>, d: seq<int>, shape: seq<int>, strides: seq<int>, size: int)
    requires Nested(shape, strides, size) && InShape(c, shape) && InShape(d, shape) && c != d
    ensures Dot(c, strides) + size <= Dot(d, strides) || Dot(d, strides) + size <= Dot(c, strides)
  {
    PrecedesTotal(c, d);
    if Precedes(c, d) {
      DotMonotone(c, d, shape, strides, size);
    } else {
      DotMonotone(d, c, shape, strides, size);
    }
  }

  /** C-contiguous strides: what a tensor without explicit strides means. */
  function Contiguous(shape: seq<int>, size: int): (strides: seq<int>)
    ensures |strides| == |shape|
  {
    if shape == [] then []
    else
      var inner := Contiguous(shape[1..], size);
      [if inner == [] then size else shape[1] * inner[0]] + inner
  }

  /** Contiguous strides are nested, with no padding anywhere. */
  lemma {:induction false} ContiguousNested(shape: seq<int>, size: int)
    requires shape != [] && size > 0
    ensures Nested(shape, Contiguous(shape, size), size)
    decreases |shape|
  {
    if |shape| > 1 {
      ContiguousNested(shape[1..], size);
    }
  }

  // -------------------------------------------------------------- bytes of a buffer

  ghost function Slot(buf: seq<byte>, at: int, size: int): seq<byte>
    requires 0 <= at && 0 <= size && at + size <= |buf|
  {
    buf[at..at + size]
  }

  ghost function Splice(buf: seq<byte>, at: int, v: seq<byte>): seq<byte>
    requires 0 <= at && at + |v| <= |buf|
  {
    buf[..at] + v + buf[at + |v|..]
  }

  /** `*reinterpret_cast<VT *>(&vec[at]) = v` */
  method Store(vec: array<byte>, at: int, v: seq<byte>)
    requires 0 <= at && at + |v| <= vec.Length
    modifies vec
    ensures vec[..] == Splice(old(vec[..]), at, v)
  {
    for k := 0 to |v|
      invariant vec[..] == Splice(old(vec[..]), at, v[..k])
    {
      vec[at + k] := v[k];
      assert v[..k + 1] == v[..k] + [v[k]];
    }
    assert v[..|v|] == v;
  }
}
