/**
 * Image-to-tensor preprocessing (`ConvertImageToTensorData` and
 * `NormalizeRGB`). The bitmap is the image after the bicubic resize to the
 * model's (width, height); decoding and resizing belong to the image library.
 */
module ImageTensor {
  import opened Wrappers
  import opened TensorLayout

  type Byte = b: int | 0 <= b < 256

  /** A pixel as `GetPixel` returns it; alpha is never read. */
  datatype Color = Color(R: Byte, G: Byte, B: Byte)

  /** A bitmap indexed as `image[x][y]`, that is `GetPixel(x, y)`. */
  type Bitmap = seq<seq<Color>>

  /** `image` is a grid of `width` columns of `height` pixels each. */
  predicate IsGrid(image: Bitmap, width: nat, height: nat)
  {
    |image| == width && forall x :: 0 <= x < |image| ==> |image[x]| == height
  }

  /** The affine map from a channel byte into [-1, 1]. */
  function NormalizeRGB(value: real): (r: real)
    ensures 0.0 <= value <= 255.0 ==> -1.0 <= r <= 1.0
  {
    var maxValue := 255.0;
    var mean := 2.0 / maxValue;
    mean * (value - maxValue) + 1.0
  }

  lemma NormalizeRGBEndpoints()
    ensures NormalizeRGB(0.0) == -1.0 && NormalizeRGB(255.0) == 1.0
  {
  }

  lemma NormalizeRGBStrictlyIncreasing(a: real, b: real)
    requires a < b
    ensures NormalizeRGB(a) < NormalizeRGB(b)
  {
  }

  /** The same map in the direct form (2/255) * v - 1. */
  lemma NormalizeRGBIsLinearRescale(v: real)
    ensures NormalizeRGB(v) == (2.0 / 255.0) * v - 1.0
  {
  }

  /** The map is invertible: the channel value is recovered from the tensor cell. */
  lemma NormalizeRGBInverse(v: real)
    ensures (NormalizeRGB(v) + 1.0) * (255.0 / 2.0) == v
  {
  }

  /** Why the shape or the fill is refused. */
  datatype TensorError =
    | ShapeTooShort     // fewer than three dimensions: `Dimensions[2]` is out of range
    | InvalidImageSize  // width or height not positive: the resize target bitmap cannot be built
    | NegativeChannels  // the dense tensor refuses a negative dimension
    | ChannelOutOfRange // fewer than three channels: a write of channel 0, 1 or 2 falls outside the tensor

  /**
   * Reads channels, width and height from the input shape, in that order,
   * and reports the first step of the conversion that would throw.
   */
  function ReadShape(dims: seq<int>): (r: Result<Shape, TensorError>)
    ensures r.Success? <==> |dims| >= 3 && dims[0] >= 3 && dims[1] > 0 && dims[2] > 0
    ensures r.Success? ==> r.value == Shape(dims[1], dims[2], dims[0])
    ensures |dims| < 3 ==> r == Failure(ShapeTooShort)
    ensures |dims| >= 3 && (dims[1] <= 0 || dims[2] <= 0) ==> r == Failure(InvalidImageSize)
    ensures |dims| >= 3 && dims[1] > 0 && dims[2] > 0 && dims[0] < 0 ==> r == Failure(NegativeChannels)
    ensures |dims| >= 3 && dims[1] > 0 && dims[2] > 0 && 0 <= dims[0] < 3 ==> r == Failure(ChannelOutOfRange)
  {
    if |dims| < 3 then Failure(ShapeTooShort)
    else if dims[1] <= 0 || dims[2] <= 0 then Failure(InvalidImageSize)
    else if dims[0] < 0 then Failure(NegativeChannels)
    else if dims[0] < 3 then Failure(ChannelOutOfRange)
    else Success(Shape(dims[1], dims[2], dims[0]))
  }

  /** The resized bitmap has the dimensions the accepted shape asks for. */
  predicate FitsShape(image: Bitmap, dims: seq<int>)
  {
    ReadShape(dims).Success? ==> IsGrid(image, ReadShape(dims).value.width, ReadShape(dims).value.height)
  }

  /** Channel `c` of a pixel: 0 is red, 1 green, 2 blue. */
  function ChannelValue(color: Color, c: nat): Byte
    requires c < 3
  {
    if c == 0 then color.R else if c == 1 then color.G else color.B
  }

  /** What the conversion leaves in flat cell `k`. */
  function Cell(image: Bitmap, s: Shape, k: nat): real
    requires IsGrid(image, s.width, s.height) && k < Size(s)
  {
    FlatIndexUnflatten(s, k);
    var i := Unflatten(s, k);
    if i.c < 3 then NormalizeRGB(ChannelValue(image[i.x][i.y], i.c) as real) else 0.0
  }

  /** The whole tensor the conversion produces, as its flat row-major buffer. */
  function ExpectedTensor(image: Bitmap, s: Shape): (t: seq<real>)
    requires IsGrid(image, s.width, s.height)
    ensures |t| == Size(s)
  {
    seq(Size(s), k requires 0 <= k < Size(s) => Cell(image, s, k))
  }

  /** Cell (x, y, c) holds channel c of pixel (x, y), normalized, for c < 3, and 0 otherwise. */
  lemma ExpectedTensorAt(image: Bitmap, s: Shape, i: Index)
    requires IsGrid(image, s.width, s.height) && InBox(s, i)
    ensures FlatIndex(s, i) < Size(s)
    ensures ExpectedTensor(image, s)[FlatIndex(s, i)]
         == if i.c < 3 then NormalizeRGB(ChannelValue(image[i.x][i.y], i.c) as real) else 0.0
  {
    FlatIndexInRange(s, i);
    UnflattenFlatIndex(s, i);
  }

  /** Cells (x, y, 0), (x, y, 1) and (x, y, 2) hold the normalized R, G and B of pixel (x, y). */
  lemma ExpectedTensorPixel(image: Bitmap, s: Shape, x: nat, y: nat)
    requires IsGrid(image, s.width, s.height) && 3 <= s.channels
    requires x < s.width && y < s.height
    ensures FlatIndex(s, Index(x, y, 2)) < Size(s)
    ensures var t, p := ExpectedTensor(image, s), image[x][y];
      && t[FlatIndex(s, Index(x, y, 0))] == NormalizeRGB(p.R as real)
      && t[FlatIndex(s, Index(x, y, 1))] == NormalizeRGB(p.G as real)
      && t[FlatIndex(s, Index(x, y, 2))] == NormalizeRGB(p.B as real)
  {
    ExpectedTensorAt(image, s, Index(x, y, 0));
    ExpectedTensorAt(image, s, Index(x, y, 1));
    ExpectedTensorAt(image, s, Index(x, y, 2));
  }

  /** The first `n` flat cells of `data` are final and the rest still hold their initial 0. */
  ghost predicate FilledUpTo(data: seq<real>, expected: seq<real>, n: nat)
  {
    |data| == |expected| && n <= |data| &&
    forall k :: 0 <= k < |data| ==> data[k] == if k < n then expected[k] else 0.0
  }

  /** `writes` is strictly increasing, so no cell appears twice in it. */
  ghost predicate Increasing(writes: seq<nat>)
  {
    forall i, j :: 0 <= i < j < |writes| ==> writes[i] < writes[j]
  }

  /** The cells written so far are exactly those below `n` of channel 0, 1 or 2, each once. */
  ghost predicate LoggedUpTo(writes: seq<nat>, channels: nat, n: nat)
    requires channels > 0
  {
    Increasing(writes) &&
    (forall i :: 0 <= i < |writes| ==> writes[i] < n) &&
    forall k: nat :: k in writes <==> k < n && k % channels < 3
  }

  /** Writing three values at `p` and keeping `channels - 3` zeros after them extends the finished prefix. */
  lemma FillBlock(data: seq<real>, expected: seq<real>, p: nat, channels: nat, v0: real, v1: real, v2: real)
    requires FilledUpTo(data, expected, p) && 3 <= channels && p + channels <= |data|
    requires expected[p] == v0 && expected[p + 1] == v1 && expected[p + 2] == v2
    requires forall k :: p + 3 <= k < p + channels ==> expected[k] == 0.0
    ensures FilledUpTo(data[p := v0][p + 1 := v1][p + 2 := v2], expected, p + channels)
  {
  }

  /** The cells of pixel (x, y) are the `channels` consecutive cells from (x, y, 0). */
  lemma PixelBlock(image: Bitmap, s: Shape, x: nat, y: nat)
    requires IsGrid(image, s.width, s.height) && 3 <= s.channels
    requires x < s.width && y < s.height
    ensures var p, t := FlatIndex(s, Index(x, y, 0)), ExpectedTensor(image, s);
      && p + s.channels <= |t|
      && t[p] == NormalizeRGB(image[x][y].R as real)
      && t[p + 1] == NormalizeRGB(image[x][y].G as real)
      && t[p + 2] == NormalizeRGB(image[x][y].B as real)
      && forall k :: p + 3 <= k < p + s.channels ==> t[k] == 0.0
  {
    var p := FlatIndex(s, Index(x, y, 0));
    FlatIndexInRange(s, Index(x, y, s.channels - 1));
    ExpectedTensorPixel(image, s, x, y);
    forall k | p + 3 <= k < p + s.channels
      ensures ExpectedTensor(image, s)[k] == 0.0
    {
      assert FlatIndex(s, Index(x, y, k - p)) == k;
      ExpectedTensorAt(image, s, Index(x, y, k - p));
    }
  }

  /** Logging the three writes of a pixel keeps the write log exact. */
  lemma LogPixel(s: Shape, x: nat, y: nat, writes: seq<nat>)
    requires 3 <= s.channels && LoggedUpTo(writes, s.channels, FlatIndex(s, Index(x, y, 0)))
    ensures var p := FlatIndex(s, Index(x, y, 0));
      LoggedUpTo(writes + [p, p + 1, p + 2], s.channels, FlatIndex(s, Index(x, y + 1, 0)))
  {
    var q := x * s.height + y;
    var p := q * s.channels;
    NextPixel(s, x, y);
    var w := writes + [p, p + 1, p + 2];
    forall k: nat | p <= k < p + s.channels
      ensures k % s.channels == k - p
    {
      DivModOf(q, k - p, s.channels);
    }
    forall k: nat ensures k in w <==> k < p + s.channels && k % s.channels < 3 {
      if p <= k < p + s.channels {
        assert k % s.channels == k - p;
      }
    }
  }

  /** Writing the three channels of pixel (x, y) finishes the tensor up to the next pixel. */
  lemma FillPixel(image: Bitmap, s: Shape, x: nat, y: nat, data: seq<real>)
    requires IsGrid(image, s.width, s.height) && 3 <= s.channels
    requires x < s.width && y < s.height
    requires FilledUpTo(data, ExpectedTensor(image, s), FlatIndex(s, Index(x, y, 0)))
    ensures FlatIndex(s, Index(x, y, 0)) + 2 < |data|
    ensures var p, color := FlatIndex(s, Index(x, y, 0)), image[x][y];
      FilledUpTo(data[p := NormalizeRGB(color.R as real)][p + 1 := NormalizeRGB(color.G as real)]
                     [p + 2 := NormalizeRGB(color.B as real)],
                 ExpectedTensor(image, s), FlatIndex(s, Index(x, y + 1, 0)))
  {
    var p, color := FlatIndex(s, Index(x, y, 0)), image[x][y];
    PixelBlock(image, s, x, y);
    NextPixel(s, x, y);
    FillBlock(data, ExpectedTensor(image, s), p, s.channels,
              NormalizeRGB(color.R as real), NormalizeRGB(color.G as real), NormalizeRGB(color.B as real));
  }

  /** The three indexer writes of one pixel: cells p, p + 1 and p + 2 get its normalized R, G and B. */
  method WritePixel(imageData: array<real>, p: nat, color: Color)
    requires p + 2 < imageData.Length
    modifies imageData
    ensures imageData[..] == old(imageData[..])[p := NormalizeRGB(color.R as real)]
                             [p + 1 := NormalizeRGB(color.G as real)][p + 2 := NormalizeRGB(color.B as real)]
  {
    imageData[p] := NormalizeRGB(color.R as real);
    imageData[p + 1] := NormalizeRGB(color.G as real);
    imageData[p + 2] := NormalizeRGB(color.B as real);
  }

  /**
   * `ConvertImageToTensorData` on the resized bitmap: allocates a zeroed
   * (width, height, channels) row-major tensor and, for every pixel in x-then-y
   * order, writes its normalized R, G and B into channels 0, 1 and 2.
   * The ghost `writes` records the flat offset of every cell write in order.
   */
  method ConvertImageToTensorData(image: Bitmap, dims: seq<int>)
      returns (r: Result<array<real>, TensorError>, ghost writes: seq<nat>)
    requires FitsShape(image, dims)
    ensures r.Failure? ==> ReadShape(dims).Failure? && r.error == ReadShape(dims).error && writes == []
    ensures r.Success? ==> ReadShape(dims).Success?
    ensures r.Success? ==>
      var s := ReadShape(dims).value;
      && fresh(r.value)
      && r.value[..] == ExpectedTensor(image, s)
      && Increasing(writes)
      && forall k: nat :: k in writes <==> k < Size(s) && k % s.channels < 3
  {
    writes := [];
    var shape := ReadShape(dims);
    // A refused shape is refused before the loop starts. With 1 or 2 channels
    // the source's loop writes some cells before its out-of-range write throws;
    // the half-filled tensor is lost with the exception, so the log stays empty.
    if shape.Failure? {
      return Failure(shape.error), writes;
    }
    var s := shape.value;
    var width, height, channels := s.width, s.height, s.channels;
    var imageData := new real[Size(s)](_ => 0.0);
    ghost var expected := ExpectedTensor(image, s);
    var x := 0;
    while x < width
      invariant 0 <= x <= width
      invariant FilledUpTo(imageData[..], expected, FlatIndex(s, Index(x, 0, 0)))
      invariant LoggedUpTo(writes, channels, FlatIndex(s, Index(x, 0, 0)))
    {
      var y := 0;
      while y < height
        invariant 0 <= y <= height
        invariant FilledUpTo(imageData[..], expected, FlatIndex(s, Index(x, y, 0)))
        invariant LoggedUpTo(writes, channels, FlatIndex(s, Index(x, y, 0)))
      {
        var color := image[x][y];
        var p := FlatIndex(s, Index(x, y, 0));
        FillPixel(image, s, x, y, imageData[..]);
        LogPixel(s, x, y, writes);
        WritePixel(imageData, p, color);
        writes := writes + [p, p + 1, p + 2];
        y := y + 1;
      }
      NextColumn(s, x);
      x := x + 1;
    }
    assert imageData[..] == expected;
    r := Success(imageData);
  }
}
