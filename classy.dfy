/** `CollectFrames` of the classification sample: the resized image, bytes
    interleaved per pixel, is copied into a planar buffer with the channel
    order reversed (BGR to RGB), one running write index over three nested
    loops. */
module Classy {

  newtype byte = b: int | 0 <= b < 256

  /** The write position of element `(c, i, j)` when the loops run
      `c < channels`, `i < n`, `j < m` and the index goes up by one per
      write. */
  function Pos(c: nat, i: nat, j: nat, n: nat, m: nat): nat
  {
    (c * n + i) * m + j
  }

  /** `(c, i, j)` comes before `(c2, i2, j2)` in loop order. */
  predicate Before(c: nat, i: nat, j: nat, c2: nat, i2: nat, j2: nat)
  {
    c < c2 || (c == c2 && (i < i2 || (i == i2 && j < j2)))
  }

  lemma MulMono(a: nat, b: nat, k: nat)
    requires a <= b
    ensures a * k <= b * k
  {
    if a < b {
      MulMono(a, b - 1, k);
      assert b * k == (b - 1) * k + k;
    }
  }

  /** Positions grow in loop order. */
  lemma BeforeBelow(c: nat, i: nat, j: nat, c2: nat, i2: nat, j2: nat, n: nat, m: nat)
    requires i < n && j < m && i2 <= n && j2 <= m
    requires Before(c, i, j, c2, i2, j2)
    ensures Pos(c, i, j, n, m) < Pos(c2, i2, j2, n, m)
  {
    if c < c2 {
      assert c * n + i < c2 * n + i2 by {
        MulMono(c + 1, c2, n);
        assert (c + 1) * n == c * n + n;
      }
    } else if i < i2 {
      assert c * n + i < c * n + i2;
    }
    if c * n + i < c2 * n + i2 {
      MulMono(c * n + i + 1, c2 * n + i2, m);
      assert (c * n + i + 1) * m == (c * n + i) * m + m;
    }
  }

  /** Distinct loop iterations write distinct cells, all below
      `channels * n * m`. */
  lemma PosInjective(c: nat, i: nat, j: nat, c2: nat, i2: nat, j2: nat, n: nat, m: nat, channels: nat)
    requires c < channels && i < n && j < m && c2 < channels && i2 < n && j2 < m
    ensures Pos(c, i, j, n, m) < channels * n * m
    ensures Pos(c, i, j, n, m) == Pos(c2, i2, j2, n, m) ==> c == c2 && i == i2 && j == j2
  {
    BeforeBelow(c, i, j, channels, 0, 0, n, m);
    assert Pos(channels, 0, 0, n, m) == channels * n * m;
    if Before(c, i, j, c2, i2, j2) {
      BeforeBelow(c, i, j, c2, i2, j2, n, m);
    } else if Before(c2, i2, j2, c, i, j) {
      BeforeBelow(c2, i2, j2, c, i, j, n, m);
    }
  }

  /** The write position stays below the length of the output, in either
      order of the two sizes. */
  lemma PosBelowLength(c: nat, i: nat, j: nat, n: nat, m: nat, channels: nat)
    requires c < channels && i < n && j < m
    ensures Pos(c, i, j, n, m) < n * m * channels && Pos(c, i, j, n, m) < m * n * channels
  {
    PosInjective(c, i, j, c, i, j, n, m, channels);
    assert channels * n * m == (n * m) * channels;
    assert n * m == m * n;
  }

  /** The loop iteration that writes cell `k`: its channel, its outer
      index and its inner index, the inverse of `Pos`. */
  function PosChannel(k: nat, n: nat, m: nat): nat
  {
    if n == 0 || m == 0 then 0 else k / m / n
  }

  function PosOuter(k: nat, n: nat, m: nat): nat
  {
    if n == 0 || m == 0 then 0 else (k / m) % n
  }

  function PosInner(k: nat, n: nat, m: nat): nat
  {
    if m == 0 then 0 else k % m
  }

  /** Putting the quotients and remainders of two divisions back together
      gives a write position. */
  lemma PosOfParts(k: nat, q: nat, j: nat, c: nat, i: nat, n: nat, m: nat)
    requires k == q * m + j && q == c * n + i
    ensures k == Pos(c, i, j, n, m)
  {
  }

  /** A position below `channels * n * m` belongs to a channel below
      `channels`. */
  lemma PosChannelBelow(c: nat, i: nat, j: nat, n: nat, m: nat, channels: nat)
    requires Pos(c, i, j, n, m) < channels * n * m
    ensures c < channels
  {
    if c >= channels {
      MulMono(channels, c, n);
      MulMono(channels * n, c * n + i, m);
      assert false;
    }
  }

  /** Every cell below `channels * n * m` is written by some iteration of
      the three loops: the one `PosChannel`, `PosOuter`, `PosInner` name. */
  lemma PosOnto(k: nat, n: nat, m: nat, channels: nat)
    requires k < channels * n * m
    ensures n > 0 && m > 0
    ensures PosChannel(k, n, m) < channels && PosOuter(k, n, m) < n && PosInner(k, n, m) < m
    ensures k == Pos(PosChannel(k, n, m), PosOuter(k, n, m), PosInner(k, n, m), n, m)
  {
    assert n > 0 && m > 0;
    var q := k / m;
    PosOfParts(k, q, k % m, q / n, q % n, n, m);
    PosChannelBelow(q / n, q % n, k % m, n, m, channels);
  }

  lemma PosNextRow(c: nat, i: nat, n: nat, m: nat)
    ensures Pos(c, i, m, n, m) == Pos(c, i + 1, 0, n, m)
    ensures Pos(c, n, 0, n, m) == Pos(c + 1, 0, 0, n, m)
  {
    assert (c * n + i) * m + m == (c * n + i + 1) * m;
    assert c * n + n == (c + 1) * n;
  }

  // ---------------------------------------------------------------------
  // As written
  // ---------------------------------------------------------------------

  /** The byte the code reads for channel `c` at loop position `(x, y)`:
      `data[channels * (y + x*width) + (channels - 1) - c]`. */
  function AsWrittenSource(c: nat, x: nat, y: nat, width: nat, channels: nat): int
  {
    channels * (y + x * width) + (channels - 1) - c
  }

  /** The sizes for which every read of the code stays inside the image
      buffer of `width * height * channels` bytes. */
  predicate ReadsInBounds(width: nat, height: nat, channels: nat)
  {
    channels == 0 || height == 0 || width <= 1 || width <= height
  }

  /** Every read lies inside the buffer exactly when `ReadsInBounds`
      holds: for the read at the last `x` and `y` of channel 0 this needs
      `(width - 1) * (width - height) < 1`. */
  lemma ReadBounds(width: nat, height: nat, channels: nat)
    ensures ReadsInBounds(width, height, channels) ==>
      forall c: nat, x: nat, y: nat :: c < channels && x < width && y < height ==>
        0 <= AsWrittenSource(c, x, y, width, channels) < width * height * channels
    ensures !ReadsInBounds(width, height, channels) ==>
      AsWrittenSource(0, width - 1, height - 1, width, channels) >= width * height * channels
  {
    if ReadsInBounds(width, height, channels) {
      forall c: nat, x: nat, y: nat | c < channels && x < width && y < height
        ensures 0 <= AsWrittenSource(c, x, y, width, channels) < width * height * channels
      {
        SourceInBounds(c, x, y, width, height, channels);
      }
    } else {
      var w, h := width, height;
      assert (w - 1) * w == (w - 1) * (w - h) + (w - 1) * h;
      MulMono(1, w - 1, w - h);
      assert (h - 1) + (w - 1) * w >= w * h;
      MulMono(w * h, (h - 1) + (w - 1) * w, channels);
      assert w * h * channels == channels * (w * h);
    }
  }

  /** The pixel offset `y + x*width` stays below `width * height`. */
  lemma OffsetInBounds(x: nat, y: nat, width: nat, height: nat)
    requires x < width && y < height && (width <= 1 || width <= height)
    ensures y + x * width + 1 <= width * height
  {
    if width <= 1 {
      assert x == 0;
    } else {
      MulMono(x, width - 1, width);
      MulMono(width, height, width - 1);
      assert (width - 1) * width + width == width * width;
    }
  }

  /** Scaling an offset below `cells` by the channel count and adding a
      channel stays below `cells * channels`. */
  lemma ScaledInBounds(k: nat, cells: nat, c: nat, channels: nat)
    requires k + 1 <= cells && c < channels
    ensures 0 <= channels * k + (channels - 1) - c < cells * channels
  {
    MulMono(k + 1, cells, channels);
  }

  lemma SourceInBounds(c: nat, x: nat, y: nat, width: nat, height: nat, channels: nat)
    requires c < channels && x < width && y < height && ReadsInBounds(width, height, channels)
    ensures 0 <= AsWrittenSource(c, x, y, width, channels) < width * height * channels
  {
    OffsetInBounds(x, y, width, height);
    ScaledInBounds(y + x * width, width * height, c, channels);
  }

  /** The first wide shape already reads past the buffer: width 2, height
      1, one channel reads byte 2 of a 2-byte image. */
  lemma WideImageReadsPastEnd()
    ensures !ReadsInBounds(2, 1, 1)
    ensures AsWrittenSource(0, 1, 0, 2, 1) == 2 == 2 * 1 * 1
  {
  }

  /** Every iteration before `(c, x, y)` has copied its byte. */
  ghost predicate CopiedAsWritten(output: seq<byte>, image: seq<byte>, width: nat, height: nat, channels: nat,
                                  c: nat, x: nat, y: nat)
  {
    forall c': nat, x': nat, y': nat :: c' < channels && x' < width && y' < height && Before(c', x', y', c, x, y) ==>
      0 <= Pos(c', x', y', width, height) < |output| &&
      0 <= AsWrittenSource(c', x', y', width, channels) < |image| &&
      output[Pos(c', x', y', width, height)] == image[AsWrittenSource(c', x', y', width, channels)]
  }

  /** One iteration of the innermost loop keeps `CopiedAsWritten`: the
      cell it writes lies beyond every cell written before. */
  lemma CopyAsWrittenStep(output: seq<byte>, image: seq<byte>, width: nat, height: nat, channels: nat,
                          c: nat, x: nat, y: nat)
    requires |image| == width * height * channels && |output| == height * width * channels
    requires ReadsInBounds(width, height, channels) && c < channels && x < width && y < height
    requires CopiedAsWritten(output, image, width, height, channels, c, x, y)
    ensures Pos(c, x, y, width, height) < |output|
    ensures 0 <= AsWrittenSource(c, x, y, width, channels) < |image|
    ensures CopiedAsWritten(output[Pos(c, x, y, width, height) := image[AsWrittenSource(c, x, y, width, channels)]],
                            image, width, height, channels, c, x, y + 1)
  {
    PosBelowLength(c, x, y, width, height, channels);
    SourceInBounds(c, x, y, width, height, channels);
    var idx := Pos(c, x, y, width, height);
    var next := output[idx := image[AsWrittenSource(c, x, y, width, channels)]];
    forall c': nat, x': nat, y': nat | c' < channels && x' < width && y' < height && Before(c', x', y', c, x, y + 1)
      ensures 0 <= Pos(c', x', y', width, height) < |next|
      ensures 0 <= AsWrittenSource(c', x', y', width, channels) < |image|
      ensures next[Pos(c', x', y', width, height)] == image[AsWrittenSource(c', x', y', width, channels)]
    {
      if Before(c', x', y', c, x, y) {
        BeforeBelow(c', x', y', c, x, y, width, height);
      } else {
        assert c' == c && x' == x && y' == y;
      }
    }
  }

  /** Once all channels are copied, every cell of the output holds the byte
      its writing iteration reads. */
  lemma AsWrittenEveryCell(output: seq<byte>, image: seq<byte>, width: nat, height: nat, channels: nat)
    requires |output| == height * width * channels
    requires CopiedAsWritten(output, image, width, height, channels, channels, 0, 0)
    ensures forall k :: 0 <= k < |output| ==>
      0 <= AsWrittenSource(PosChannel(k, width, height), PosOuter(k, width, height), PosInner(k, width, height),
                           width, channels) < |image| &&
      output[k] == image[AsWrittenSource(PosChannel(k, width, height), PosOuter(k, width, height),
                                         PosInner(k, width, height), width, channels)]
  {
    forall k | 0 <= k < |output|
      ensures 0 <= AsWrittenSource(PosChannel(k, width, height), PosOuter(k, width, height), PosInner(k, width, height),
                                   width, channels) < |image|
      ensures output[k] == image[AsWrittenSource(PosChannel(k, width, height), PosOuter(k, width, height),
                                                 PosInner(k, width, height), width, channels)]
    {
      assert height * width * channels == channels * width * height;
      PosOnto(k, width, height, channels);
      var c, x, y := PosChannel(k, width, height), PosOuter(k, width, height), PosInner(k, width, height);
      assert Before(c, x, y, channels, 0, 0);
    }
  }

  /** The innermost loop of `CollectFrames`: the `height` bytes of channel
      `c` at `x`. */
  method CopyAsWrittenRun(image: array<byte>, output: array<byte>, width: nat, height: nat, channels: nat,
                          c: nat, x: nat, idx0: nat) returns (idx: nat)
    requires image.Length == width * height * channels && output.Length == height * width * channels
    requires image != output && ReadsInBounds(width, height, channels) && c < channels && x < width
    requires idx0 == Pos(c, x, 0, width, height)
    requires CopiedAsWritten(output[..], image[..], width, height, channels, c, x, 0)
    modifies output
    ensures idx == Pos(c, x + 1, 0, width, height)
    ensures CopiedAsWritten(output[..], image[..], width, height, channels, c, x + 1, 0)
  {
    idx := idx0;
    for y := 0 to height
      invariant idx == Pos(c, x, y, width, height)
      invariant CopiedAsWritten(output[..], image[..], width, height, channels, c, x, y)
    {
      ghost var before := output[..];
      CopyAsWrittenStep(before, image[..], width, height, channels, c, x, y);
      output[idx] := image[AsWrittenSource(c, x, y, width, channels)];
      assert output[..] == before[idx := image[AsWrittenSource(c, x, y, width, channels)]];
      idx := idx + 1;
    }
    PosNextRow(c, x, width, height);
  }

  /** `CollectFrames` as written, on the already resized image: for every
      channel `c`, `x < width`, `y < height` it writes
      `output[idx++] = data[channels*(y + x*width) + channels-1-c]`. The
      reads need `ReadsInBounds`; the 224 x 224 call meets it. */
  method CollectFrames(image: array<byte>, width: nat, height: nat, channels: nat)
    returns (output: array<byte>)
    requires image.Length == width * height * channels
    requires ReadsInBounds(width, height, channels)
    ensures fresh(output) && output.Length == height * width * channels
    ensures forall c: nat, x: nat, y: nat :: c < channels && x < width && y < height ==>
      0 <= Pos(c, x, y, width, height) < output.Length &&
      0 <= AsWrittenSource(c, x, y, width, channels) < image.Length &&
      output[Pos(c, x, y, width, height)] == image[AsWrittenSource(c, x, y, width, channels)]
    ensures forall k :: 0 <= k < output.Length ==>
      0 <= AsWrittenSource(PosChannel(k, width, height), PosOuter(k, width, height), PosInner(k, width, height),
                           width, channels) < image.Length &&
      output[k] == image[AsWrittenSource(PosChannel(k, width, height), PosOuter(k, width, height),
                                         PosInner(k, width, height), width, channels)]
  {
    output := new byte[height * width * channels];
    var idx := 0;
    for c := 0 to channels
      invariant idx == Pos(c, 0, 0, width, height)
      invariant CopiedAsWritten(output[..], image[..], width, height, channels, c, 0, 0)
    {
      for x := 0 to width
        invariant idx == Pos(c, x, 0, width, height)
        invariant CopiedAsWritten(output[..], image[..], width, height, channels, c, x, 0)
      {
        idx := CopyAsWrittenRun(image, output, width, height, channels, c, x, idx);
      }
      PosNextRow(c, width, width, height);
    }
    AsWrittenEveryCell(output[..], image[..], width, height, channels);
  }

  // ---------------------------------------------------------------------
  // Corrected: NCHW
  // ---------------------------------------------------------------------

  /** The byte of channel `channels-1-c` of the pixel at row `row`, column
      `col` of an interleaved image. */
  function PixelSource(c: nat, row: nat, col: nat, width: nat, channels: nat): int
  {
    channels * (col + row * width) + (channels - 1) - c
  }

  lemma PixelInBounds(c: nat, row: nat, col: nat, width: nat, height: nat, channels: nat)
    requires c < channels && row < height && col < width
    ensures 0 <= PixelSource(c, row, col, width, channels) < width * height * channels
  {
    MulMono(row, height - 1, width);
    assert (height - 1) * width + width == height * width;
    ScaledInBounds(col + row * width, width * height, c, channels);
  }

  /** Every iteration before `(c, row, col)` has copied its pixel byte. */
  ghost predicate CopiedNchw(output: seq<byte>, image: seq<byte>, width: nat, height: nat, channels: nat,
                             c: nat, row: nat, col: nat)
  {
    forall c': nat, r': nat, k': nat :: c' < channels && r' < height && k' < width && Before(c', r', k', c, row, col) ==>
      0 <= Pos(c', r', k', height, width) < |output| &&
      0 <= PixelSource(c', r', k', width, channels) < |image| &&
      output[Pos(c', r', k', height, width)] == image[PixelSource(c', r', k', width, channels)]
  }

  /** One iteration of the innermost NCHW loop keeps `CopiedNchw`. */
  lemma CopyNchwStep(output: seq<byte>, image: seq<byte>, width: nat, height: nat, channels: nat,
                     c: nat, row: nat, col: nat)
    requires |image| == width * height * channels && |output| == height * width * channels
    requires c < channels && row < height && col < width
    requires CopiedNchw(output, image, width, height, channels, c, row, col)
    ensures Pos(c, row, col, height, width) < |output|
    ensures 0 <= PixelSource(c, row, col, width, channels) < |image|
    ensures CopiedNchw(output[Pos(c, row, col, height, width) := image[PixelSource(c, row, col, width, channels)]],
                       image, width, height, channels, c, row, col + 1)
  {
    PosBelowLength(c, row, col, height, width, channels);
    PixelInBounds(c, row, col, width, height, channels);
    var idx := Pos(c, row, col, height, width);
    var next := output[idx := image[PixelSource(c, row, col, width, channels)]];
    forall c': nat, r': nat, k': nat | c' < channels && r' < height && k' < width && Before(c', r', k', c, row, col + 1)
      ensures 0 <= Pos(c', r', k', height, width) < |next|
      ensures 0 <= PixelSource(c', r', k', width, channels) < |image|
      ensures next[Pos(c', r', k', height, width)] == image[PixelSource(c', r', k', width, channels)]
    {
      if Before(c', r', k', c, row, col) {
        BeforeBelow(c', r', k', c, row, col, height, width);
      } else {
        assert c' == c && r' == row && k' == col;
      }
    }
  }

  /** Once all channels are copied, every cell of the NCHW output holds
      its pixel byte. */
  lemma NchwEveryCell(output: seq<byte>, image: seq<byte>, width: nat, height: nat, channels: nat)
    requires |output| == height * width * channels
    requires CopiedNchw(output, image, width, height, channels, channels, 0, 0)
    ensures forall k :: 0 <= k < |output| ==>
      0 <= PixelSource(PosChannel(k, height, width), PosOuter(k, height, width), PosInner(k, height, width),
                       width, channels) < |image| &&
      output[k] == image[PixelSource(PosChannel(k, height, width), PosOuter(k, height, width),
                                     PosInner(k, height, width), width, channels)]
  {
    forall k | 0 <= k < |output|
      ensures 0 <= PixelSource(PosChannel(k, height, width), PosOuter(k, height, width), PosInner(k, height, width),
                               width, channels) < |image|
      ensures output[k] == image[PixelSource(PosChannel(k, height, width), PosOuter(k, height, width),
                                             PosInner(k, height, width), width, channels)]
    {
      assert height * width * channels == channels * height * width;
      PosOnto(k, height, width, channels);
      var c, row, col := PosChannel(k, height, width), PosOuter(k, height, width), PosInner(k, height, width);
      assert Before(c, row, col, channels, 0, 0);
    }
  }

  /** The innermost loop of the NCHW copy: the `width` bytes of channel `c`
      in row `row`. */
  method CopyNchwRow(image: array<byte>, output: array<byte>, width: nat, height: nat, channels: nat,
                     c: nat, row: nat, idx0: nat) returns (idx: nat)
    requires image.Length == width * height * channels && output.Length == height * width * channels
    requires image != output && c < channels && row < height
    requires idx0 == Pos(c, row, 0, height, width)
    requires CopiedNchw(output[..], image[..], width, height, channels, c, row, 0)
    modifies output
    ensures idx == Pos(c, row + 1, 0, height, width)
    ensures CopiedNchw(output[..], image[..], width, height, channels, c, row + 1, 0)
  {
    idx := idx0;
    for col := 0 to width
      invariant idx == Pos(c, row, col, height, width)
      invariant CopiedNchw(output[..], image[..], width, height, channels, c, row, col)
    {
      ghost var before := output[..];
      CopyNchwStep(before, image[..], width, height, channels, c, row, col);
      output[idx] := image[PixelSource(c, row, col, width, channels)];
      assert output[..] == before[idx := image[PixelSource(c, row, col, width, channels)]];
      idx := idx + 1;
    }
    PosNextRow(c, row, height, width);
  }

  /** The evidently intended `CollectFrames`: rows run to `height` and
      columns to `width`, so every read is in bounds for every size, and
      cell `(c * height + row) * width + col` holds channel `channels-1-c`
      of pixel `(row, col)`: planar NCHW with the channels reversed. */
  method CollectFramesNchw(image: array<byte>, width: nat, height: nat, channels: nat)
    returns (output: array<byte>)
    requires image.Length == width * height * channels
    ensures fresh(output) && output.Length == height * width * channels
    ensures forall c: nat, row: nat, col: nat :: c < channels && row < height && col < width ==>
      0 <= Pos(c, row, col, height, width) < output.Length &&
      0 <= PixelSource(c, row, col, width, channels) < image.Length &&
      output[Pos(c, row, col, height, width)] == image[PixelSource(c, row, col, width, channels)]
    ensures forall k :: 0 <= k < output.Length ==>
      0 <= PixelSource(PosChannel(k, height, width), PosOuter(k, height, width), PosInner(k, height, width),
                       width, channels) < image.Length &&
      output[k] == image[PixelSource(PosChannel(k, height, width), PosOuter(k, height, width),
                                     PosInner(k, height, width), width, channels)]
  {
    output := new byte[height * width * channels];
    var idx := 0;
    for c := 0 to channels
      invariant idx == Pos(c, 0, 0, height, width)
      invariant CopiedNchw(output[..], image[..], width, height, channels, c, 0, 0)
    {
      for row := 0 to height
        invariant idx == Pos(c, row, 0, height, width)
        invariant CopiedNchw(output[..], image[..], width, height, channels, c, row, 0)
      {
        idx := CopyNchwRow(image, output, width, height, channels, c, row, idx);
      }
      PosNextRow(c, height, height, width);
    }
    NchwEveryCell(output[..], image[..], width, height, channels);
  }

  /** On a square image, the 224 x 224 call of the sample, the code as
      written reads and writes the same cells as the NCHW version. */
  lemma SquareAgrees(c: nat, x: nat, y: nat, side: nat, channels: nat)
    ensures ReadsInBounds(side, side, channels)
    ensures AsWrittenSource(c, x, y, side, channels) == PixelSource(c, x, y, side, channels)
  {
  }
}
