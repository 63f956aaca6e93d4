/** The index arithmetic of the Sort and ArgSort operators: where, in the
    row-major tensor, the one-dimensional slice along the sort axis starts and
    how far apart its elements are. */
module SortIndex {

  /** Product of the extents, folded from the outermost axis inwards. */
  function Product(s: seq<int>): int
  {
    if |s| == 0 then 1 else Product(s[..|s| - 1]) * s[|s| - 1]
  }

  /** The row-major (C order) linear position of the element at `idx`. */
  function RowMajor(shape: seq<int>, idx: seq<int>): int
    requires |idx| == |shape|
  {
    if |shape| == 0 then 0
    else RowMajor(shape[..|shape| - 1], idx[..|idx| - 1]) * shape[|shape| - 1] + idx[|idx| - 1]
  }

  /** `idx` addresses an element of a tensor of this shape. */
  predicate InBounds(shape: seq<int>, idx: seq<int>)
  {
    |idx| == |shape| && forall k :: 0 <= k < |shape| ==> 0 <= idx[k] < shape[k]
  }

  /** The loop that feeds the runtime sort helpers: `offset` is the position of
      the slice's first element (the index with the sort-axis coordinate set to
      0) and `stride` the distance between consecutive elements along the
      axis (the product of the inner extents). */
  method OffsetStride(shape: seq<int>, indices: seq<int>, axis: int) returns (offset: int, stride: int)
    requires |indices| == |shape|
    requires 0 <= axis < |shape|
    ensures offset == RowMajor(shape, indices[axis := 0])
    ensures stride == Product(shape[axis + 1..])
  {
    ghost var base := indices[axis := 0];
    offset, stride := 0, 1;
    var i := 0;
    while i < |indices|
      invariant 0 <= i <= |indices|
      invariant offset == RowMajor(shape[..i], base[..i])
      invariant stride == if i <= axis then 1 else Product(shape[axis + 1..i])
    {
      assert shape[..i + 1][..i] == shape[..i] && base[..i + 1][..i] == base[..i];
      if i < axis {
        offset := offset * shape[i] + indices[i];
      } else if i == axis {
        offset := offset * shape[i];
      } else {
        offset := offset * shape[i] + indices[i];
        assert shape[axis + 1..i + 1][..i - axis - 1] == shape[axis + 1..i];
        stride := stride * shape[i];
      }
      i := i + 1;
    }
    assert shape[..i] == shape && base[..i] == base;
  }

  /** Changing one coordinate by d moves the linear position by d times the
      product of the extents inside that axis. */
  lemma {:induction false} RowMajorDiffAt(shape: seq<int>, a: seq<int>, b: seq<int>, k: int)
    requires |a| == |shape| && |b| == |shape| && 0 <= k < |shape|
    requires forall j :: 0 <= j < |shape| && j != k ==> a[j] == b[j]
    ensures RowMajor(shape, a) - RowMajor(shape, b) == (a[k] - b[k]) * Product(shape[k + 1..])
  {
    var n := |shape|;
    var s', a', b' := shape[..n - 1], a[..n - 1], b[..n - 1];
    if k == n - 1 {
      assert a' == b';
      assert shape[k + 1..] == [];
    } else {
      RowMajorDiffAt(s', a', b', k);
      var d := a[k] - b[k];
      var inner := shape[k + 1..];
      assert inner[..|inner| - 1] == s'[k + 1..];
      calc {
        RowMajor(shape, a) - RowMajor(shape, b);
        (RowMajor(s', a') - RowMajor(s', b')) * shape[n - 1];
        (d * Product(s'[k + 1..])) * shape[n - 1];
        d * (Product(s'[k + 1..]) * shape[n - 1]);
        d * Product(inner);
      }
    }
  }

  /** The slice start plus the axis coordinate times the stride is the
      element's own linear position. */
  lemma OffsetPlusAxisIsRowMajor(shape: seq<int>, indices: seq<int>, axis: int)
    requires |indices| == |shape| && 0 <= axis < |shape|
    ensures RowMajor(shape, indices[axis := 0]) + indices[axis] * Product(shape[axis + 1..])
            == RowMajor(shape, indices)
  {
    RowMajorDiffAt(shape, indices, indices[axis := 0], axis);
  }

  lemma MulMonotone(x: int, y: int, c: int)
    requires x <= y && 0 <= c
    ensures x * c <= y * c
  {
    assert (y - x) * c >= 0;
  }

  /** An in-bounds index addresses a position inside the tensor's storage. */
  lemma {:induction false} RowMajorBounds(shape: seq<int>, idx: seq<int>)
    requires InBounds(shape, idx)
    ensures 0 <= RowMajor(shape, idx) < Product(shape)
  {
    var n := |shape|;
    if n > 0 {
      var s', i' := shape[..n - 1], idx[..n - 1];
      RowMajorBounds(s', i');
      var r', p', d, x := RowMajor(s', i'), Product(s'), shape[n - 1], idx[n - 1];
      MulMonotone(r', p' - 1, d);
      MulMonotone(0, r', d);
      assert RowMajor(shape, idx) == r' * d + x;
      assert Product(shape) == p' * d;
    }
  }

  /** Every element of the slice the runtime walks, from coordinate 0 to
      shape[axis] - 1, lies inside the tensor. */
  lemma SliceElementInRange(shape: seq<int>, indices: seq<int>, axis: int, c: int)
    requires InBounds(shape, indices) && 0 <= axis < |shape|
    requires 0 <= c < shape[axis]
    ensures 0 <= RowMajor(shape, indices[axis := 0]) + c * Product(shape[axis + 1..]) < Product(shape)
  {
    var moved := indices[axis := c];
    assert moved[axis := 0] == indices[axis := 0];
    OffsetPlusAxisIsRowMajor(shape, moved, axis);
    RowMajorBounds(shape, moved);
  }
}
