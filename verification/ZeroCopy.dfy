/** `zero_copy_split`: per-image views of a batch tensor by pointer offset (CUDA Array Interface, version 3). */
module ZeroCopy {
  import opened Strided
  import opened Text

  /** What the loop puts into the interface of one view: shape (height, width, channels), pointer, strides if explicit. */
  datatype Interface = Interface(shape: seq<int>, ptr: int, strides: Option<seq<int>>)

  type View = v: Interface | |v.shape| == 3 && (v.strides.Some? ==> |v.strides.value| == 3)
    witness Interface([0, 0, 0], 0, None)

  /** Absent strides mean a C-contiguous layout. */
  function Effective(shape: seq<int>, strides: Option<seq<int>>, itemsize: int): (s: seq<int>)
    requires strides.Some? ==> |strides.value| == |shape|
    ensures |s| == |shape|
  {
    if strides.Some? then strides.value else Contiguous(shape, itemsize)
  }

  function Address(ptr: int, strides: seq<int>, c: seq<int>): int
    requires |c| == |strides|
  {
    ptr + Dot(c, strides)
  }

  ghost predicate ViewOf(v: View, i: int, ptr: int, shape: seq<int>, strides: Option<seq<int>>, itemsize: int)
    requires |shape| == 4 && (strides.Some? ==> |strides.value| == 4)
  {
    && v.shape == shape[1..]
    && forall c: seq<int> :: |c| == 3 ==>
         Address(v.ptr, Effective(v.shape, v.strides, itemsize), c)
         == Address(ptr, Effective(shape, strides, itemsize), [i] + c)
  }

  lemma ContiguousBatch(shape: seq<int>, itemsize: int)
    requires |shape| == 4
    ensures Contiguous(shape, itemsize)[0] == shape[1] * shape[2] * shape[3] * itemsize
    ensures Contiguous(shape, itemsize)[1..] == Contiguous(shape[1..], itemsize)
  {
    var s1, s2, s3 := shape[1..], shape[1..][1..], shape[1..][1..][1..];
    assert s1[1] == shape[2] && s2[1] == shape[3];
    assert Contiguous(s3, itemsize) == [itemsize] + Contiguous(s3[1..], itemsize);
    assert Contiguous(s2, itemsize)[0] == shape[3] * itemsize;
    assert Contiguous(s1, itemsize)[0] == shape[2] * (shape[3] * itemsize);
    MulAssoc(shape[1], shape[2], shape[3], itemsize);
  }

  lemma MulAssoc(a: int, b: int, c: int, d: int)
    ensures a * (b * (c * d)) == a * b * c * d
  {
    assert b * (c * d) == b * c * d;
    assert a * (b * c * d) == a * (b * c) * d;
    assert a * (b * c) == a * b * c;
  }

  /** For every view and coordinate the view's address is the batch's; a tensor that is not four-dimensional is refused. */
  method ZeroCopySplit(ptr: int, shape: seq<int>, strides: Option<seq<int>>, itemsize: int)
      returns (ok: bool, views: seq<View>)
    requires strides.Some? ==> |strides.value| == |shape|
    ensures ok <==> |shape| == 4
    ensures ok ==> |views| == (if shape[0] > 0 then shape[0] else 0)
    ensures ok ==> forall i :: 0 <= i < |views| ==> ViewOf(views[i], i, ptr, shape, strides, itemsize)
  {
    if |shape| != 4 {
      return false, [];
    }
    ok := true;
    var height, width, channels := shape[1], shape[2], shape[3];
    assert [height, width, channels] == shape[1..];
    var batchStride: int;
    var itemStrides: Option<seq<int>>;
    match strides {
      case None =>
        batchStride := height * width * channels * itemsize;
        itemStrides := None;
      case Some(s) =>
        batchStride := s[0];
        itemStrides := Some(s[1..]);
    }
    ContiguousBatch(shape, itemsize);
    views := [];
    for i := 0 to (if shape[0] > 0 then shape[0] else 0)
      invariant |views| == i
      invariant forall j :: 0 <= j < i ==> ViewOf(views[j], j, ptr, shape, strides, itemsize)
    {
      var offsetPtr := ptr + i * batchStride;
      var v: View := Interface([height, width, channels], offsetPtr, itemStrides);
      forall c: seq<int> | |c| == 3
        ensures Address(v.ptr, Effective(v.shape, v.strides, itemsize), c)
             == Address(ptr, Effective(shape, strides, itemsize), [i] + c)
      {
        assert ([i] + c)[1..] == c;
      }
      views := views + [v];
    }
  }

  /** The views cover the batch: view `c[0]` has the element at coordinate `c`, and nothing else is in any view. */
  lemma ViewsCover(views: seq<View>, ptr: int, shape: seq<int>, strides: Option<seq<int>>, itemsize: int, c: seq<int>)
    requires |shape| == 4 && (strides.Some? ==> |strides.value| == 4)
    requires |views| == shape[0]
    requires forall i :: 0 <= i < |views| ==> ViewOf(views[i], i, ptr, shape, strides, itemsize)
    requires |c| == 4
    ensures InShape(c, shape) <==> 0 <= c[0] < |views| && InShape(c[1..], views[c[0]].shape)
    ensures InShape(c, shape) ==>
              Address(views[c[0]].ptr, Effective(views[c[0]].shape, views[c[0]].strides, itemsize), c[1..])
              == Address(ptr, Effective(shape, strides, itemsize), c)
  {
    assert c == [c[0]] + c[1..];
    if InShape(c, shape) {
      assert ViewOf(views[c[0]], c[0], ptr, shape, strides, itemsize);
    }
    if 0 <= c[0] < |views| && InShape(c[1..], views[c[0]].shape) {
      assert ViewOf(views[c[0]], c[0], ptr, shape, strides, itemsize);
      forall k | 0 <= k < 4 ensures 0 <= c[k] < shape[k] {
        if k > 0 { assert c[k] == c[1..][k - 1] && shape[k] == shape[1..][k - 1]; }
      }
    }
  }

  /** Elements of different views never share a byte, when the batch's strides do not overlap. */
  lemma ViewsDisjoint(views: seq<View>, ptr: int, shape: seq<int>, strides: Option<seq<int>>, itemsize: int,
                      i: int, c: seq<int>, j: int, d: seq<int>)
    requires |shape| == 4 && (strides.Some? ==> |strides.value| == 4)
    requires |views| == shape[0]
    requires forall i :: 0 <= i < |views| ==> ViewOf(views[i], i, ptr, shape, strides, itemsize)
    requires itemsize > 0 && (strides.Some? ==> Nested(shape, strides.value, itemsize))
    requires 0 <= i < |views| && 0 <= j < |views| && i != j
    requires InShape(c, views[i].shape) && InShape(d, views[j].shape)
    ensures var a := Address(views[i].ptr, Effective(views[i].shape, views[i].strides, itemsize), c);
            var b := Address(views[j].ptr, Effective(views[j].shape, views[j].strides, itemsize), d);
            a + itemsize <= b || b + itemsize <= a
  {
    var s := Effective(shape, strides, itemsize);
    if strides.None? { ContiguousNested(shape, itemsize); }
    assert ViewOf(views[i], i, ptr, shape, strides, itemsize) && ViewOf(views[j], j, ptr, shape, strides, itemsize);
    ViewsCover(views, ptr, shape, strides, itemsize, [i] + c);
    ViewsCover(views, ptr, shape, strides, itemsize, [j] + d);
    assert ([i] + c)[1..] == c && ([j] + d)[1..] == d;
    assert ([i] + c)[0] != ([j] + d)[0];
    ElementsDisjoint([i] + c, [j] + d, shape, s, itemsize);
  }
}
