/**
 * The memory layout of the input tensor. It is allocated as a dense tensor
 * of dimensions (width, height, channels) with the row-major flag, so cell
 * (x, y, c) lives at flat offset (x * height + y) * channels + c.
 */
module TensorLayout {

  /** The dimensions of the tensor, in allocation order. */
  datatype Shape = Shape(width: nat, height: nat, channels: nat)

  /** A position (x, y, c) in the tensor. */
  datatype Index = Index(x: nat, y: nat, c: nat)

  /** The number of cells of a tensor of shape `s`. */
  function Size(s: Shape): nat
  {
    s.width * s.height * s.channels
  }

  /** `i` lies inside the index box of `s`. */
  predicate InBox(s: Shape, i: Index)
  {
    i.x < s.width && i.y < s.height && i.c < s.channels
  }

  /** The row-major flat offset of `i`. */
  function FlatIndex(s: Shape, i: Index): nat
  {
    (i.x * s.height + i.y) * s.channels + i.c
  }

  /** The position stored at flat offset `k`: the inverse of FlatIndex. */
  function Unflatten(s: Shape, k: nat): Index
    requires s.height > 0 && s.channels > 0
  {
    Index(k / s.channels / s.height, k / s.channels % s.height, k % s.channels)
  }

  /** Euclidean division recovers quotient and remainder. */
  lemma DivModOf(q: nat, r: nat, d: nat)
    requires r < d
    ensures (q * d + r) / d == q && (q * d + r) % d == r
  {
    var n := q * d + r;
    var q', r' := n / d, n % d;
    assert n == q' * d + r';
    if q' < q {
      MulLess(q', q, d);
    } else if q < q' {
      MulLess(q, q', d);
    }
  }

  lemma {:induction false} MulLess(a: nat, b: nat, d: nat)
    requires a < b
    ensures a * d + d <= b * d
    decreases b - a
  {
    if a + 1 < b {
      MulLess(a + 1, b, d);
    }
    assert (a + 1) * d == a * d + d;
  }

  lemma MulMonotone(a: nat, b: nat, d: nat)
    requires a <= b
    ensures a * d <= b * d
  {
    if a < b { MulLess(a, b, d); }
  }

  /** Moving one pixel along y moves one pixel's worth of channels forward. */
  lemma NextPixel(s: Shape, x: nat, y: nat)
    ensures FlatIndex(s, Index(x, y + 1, 0)) == FlatIndex(s, Index(x, y, 0)) + s.channels
  {
    var row := x * s.height + y;
    assert (row + 1) * s.channels == row * s.channels + s.channels;
  }

  /** The pixel after the last of column x is the first of column x + 1. */
  lemma NextColumn(s: Shape, x: nat)
    ensures FlatIndex(s, Index(x, s.height, 0)) == FlatIndex(s, Index(x + 1, 0, 0))
  {
    assert x * s.height + s.height == (x + 1) * s.height;
  }

  /** Every position of the box has its flat offset inside the tensor. */
  lemma FlatIndexInRange(s: Shape, i: Index)
    requires InBox(s, i)
    ensures FlatIndex(s, i) < Size(s)
  {
    var row := i.x * s.height + i.y;
    MulLess(i.x, s.width, s.height);
    assert row < s.width * s.height;
    MulLess(row, s.width * s.height, s.channels);
  }

  /** Unflatten undoes FlatIndex on the box. */
  lemma UnflattenFlatIndex(s: Shape, i: Index)
    requires InBox(s, i)
    ensures Unflatten(s, FlatIndex(s, i)) == i
  {
    var row := i.x * s.height + i.y;
    DivModOf(row, i.c, s.channels);
    DivModOf(i.x, i.y, s.height);
  }

  /** FlatIndex undoes Unflatten on the offsets of the tensor. */
  lemma FlatIndexUnflatten(s: Shape, k: nat)
    requires k < Size(s)
    ensures s.height > 0 && s.channels > 0
    ensures InBox(s, Unflatten(s, k)) && FlatIndex(s, Unflatten(s, k)) == k
  {
    assert s.height > 0 && s.channels > 0;
    var row := k / s.channels;
    assert k == row * s.channels + k % s.channels;
    if row >= s.width * s.height {
      MulMonotone(s.width * s.height, row, s.channels);
      assert false;
    }
    var x := row / s.height;
    assert row == x * s.height + row % s.height;
    if x >= s.width {
      MulMonotone(s.width, x, s.height);
      assert false;
    }
  }

  /** Different positions of the box never share a cell. */
  lemma FlatIndexInjective(s: Shape, i: Index, j: Index)
    requires InBox(s, i) && InBox(s, j)
    requires FlatIndex(s, i) == FlatIndex(s, j)
    ensures i == j
  {
    UnflattenFlatIndex(s, i);
    UnflattenFlatIndex(s, j);
  }

  /** Every cell of the tensor is the cell of a position of the box. */
  lemma FlatIndexSurjective(s: Shape, k: nat)
    requires k < Size(s)
    ensures exists i :: InBox(s, i) && FlatIndex(s, i) == k
  {
    FlatIndexUnflatten(s, k);
  }
}
