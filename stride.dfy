/**
 * A row-aware luminance extraction, beside the source's contiguous one.
 * A locked bitmap's rows are `stride` bytes apart, and stride may exceed the
 * bytes a row's pixels occupy (rows are padded to a multiple of four bytes).
 * CalculateLuminance walks the buffer contiguously and never consults
 * stride, so on a padded buffer row y > 0 starts inside the previous row's
 * padding.
 *
 * Products are written Times(a, n), repeated addition (TimesIsProduct shows
 * it is a * n), which keeps the offset arithmetic linear for the solver.
 */
module RowStride {
  import opened Wrappers
  import opened Luminance

  function BytesPerPixel(f: PixelFormat): (n: nat)
    requires !f.Other?
    ensures 1 <= n <= 4
  {
    match f
    case Format32bppRgb | Format32bppArgb => 4
    case Format24bppRgb => 3
    case Format8bppIndexed => 1
  }

  function Zeros(n: nat): (z: seq<byte>)
    ensures |z| == n && forall k :: 0 <= k < n ==> z[k] == 0
  {
    seq(n, _ => 0)
  }

  function Times(a: nat, n: nat): nat
  {
    if n == 0 then 0 else Times(a, n - 1) + a
  }

  lemma {:induction false} TimesIsProduct(a: nat, n: nat)
    ensures Times(a, n) == a * n
  {
    if n > 0 {
      TimesIsProduct(a, n - 1);
      assert a * n == a * (n - 1) + a;
    }
  }

  lemma {:induction false} TimesMonotone(a: nat, m: nat, n: nat)
    requires m <= n
    ensures Times(a, m) <= Times(a, n)
  {
    if m < n {
      TimesMonotone(a, m, n - 1);
    }
  }

  lemma {:induction false} TimesAdd(a: nat, m: nat, n: nat)
    ensures Times(a, m + n) == Times(a, m) + Times(a, n)
  {
    if n > 0 {
      TimesAdd(a, m, n - 1);
    }
  }

  lemma {:induction false} TimesAssociates(a: nat, b: nat, c: nat)
    ensures Times(Times(a, b), c) == Times(a, Times(b, c))
  {
    if c > 0 {
      TimesAssociates(a, b, c - 1);
      TimesAdd(a, Times(b, c - 1), b);
    }
  }

  /** The luminance of the pixel whose bytes start at raw[offset]. */
  function PixelSample(raw: seq<byte>, f: PixelFormat, offset: nat): byte
    requires !f.Other? && offset + BytesPerPixel(f) <= |raw|
  {
    if f.Format8bppIndexed? then raw[offset]
    else PixelLuminance(raw[offset], raw[offset + 1], raw[offset + 2])
  }

  /** The luminances of n consecutive pixels, the first starting at raw[start]. */
  function Run(raw: seq<byte>, f: PixelFormat, n: nat, start: nat): (r: seq<byte>)
    requires !f.Other? && start + Times(BytesPerPixel(f), n) <= |raw|
    ensures |r| == n
  {
    if n == 0 then []
    else Run(raw, f, n - 1, start) + [PixelSample(raw, f, start + Times(BytesPerPixel(f), n - 1))]
  }

  /** Entry x of a run is the pixel bpp * x bytes past its start. */
  lemma {:induction false} RunAt(raw: seq<byte>, f: PixelFormat, n: nat, start: nat, x: nat)
    requires !f.Other? && start + Times(BytesPerPixel(f), n) <= |raw| && x < n
    ensures start + Times(BytesPerPixel(f), x) + BytesPerPixel(f) <= |raw|
    ensures Run(raw, f, n, start)[x] == PixelSample(raw, f, start + Times(BytesPerPixel(f), x))
  {
    TimesMonotone(BytesPerPixel(f), x + 1, n);
    if x < n - 1 {
      RunAt(raw, f, n - 1, start, x);
    }
  }

  /** The first m pixels of a run of m + n are a run of m. */
  lemma {:induction false} RunFront(raw: seq<byte>, f: PixelFormat, m: nat, n: nat, start: nat, x: nat)
    requires !f.Other? && start + Times(BytesPerPixel(f), m + n) <= |raw| && x < m
    ensures start + Times(BytesPerPixel(f), m) <= |raw|
    ensures Run(raw, f, m + n, start)[x] == Run(raw, f, m, start)[x]
  {
    TimesMonotone(BytesPerPixel(f), m, m + n);
    RunAt(raw, f, m + n, start, x);
    RunAt(raw, f, m, start, x);
  }

  /** The last n pixels of a run of m + n are a run of n starting bpp * m bytes later. */
  lemma {:induction false} RunBack(raw: seq<byte>, f: PixelFormat, m: nat, n: nat, start: nat, x: nat)
    requires !f.Other? && start + Times(BytesPerPixel(f), m + n) <= |raw| && x < n
    ensures start + Times(BytesPerPixel(f), m) + Times(BytesPerPixel(f), n) <= |raw|
    ensures Run(raw, f, m + n, start)[m + x] == Run(raw, f, n, start + Times(BytesPerPixel(f), m))[x]
  {
    var bpp := BytesPerPixel(f);
    TimesAdd(bpp, m, n);
    TimesAdd(bpp, m, x);
    SampleIn(raw, f, m + n, start, m + x, start + Times(bpp, m) + Times(bpp, x));
    SampleIn(raw, f, n, start + Times(bpp, m), x, start + Times(bpp, m) + Times(bpp, x));
  }

  /** RunAt, naming the entry's offset o. */
  lemma {:induction false} SampleIn(raw: seq<byte>, f: PixelFormat, n: nat, start: nat, x: nat, o: nat)
    requires !f.Other? && start + Times(BytesPerPixel(f), n) <= |raw| && x < n
    requires o == start + Times(BytesPerPixel(f), x)
    ensures o + BytesPerPixel(f) <= |raw|
    ensures Run(raw, f, n, start)[x] == PixelSample(raw, f, o)
  {
    RunAt(raw, f, n, start, x);
  }

  /** A run of m + n pixels is a run of m followed by a run of n starting bpp * m bytes later. */
  lemma {:induction false} RunSplit(raw: seq<byte>, f: PixelFormat, m: nat, n: nat, start: nat)
    requires !f.Other? && start + Times(BytesPerPixel(f), m + n) <= |raw|
    ensures start + Times(BytesPerPixel(f), m) + Times(BytesPerPixel(f), n) <= |raw|
    ensures Run(raw, f, m + n, start)
         == Run(raw, f, m, start) + Run(raw, f, n, start + Times(BytesPerPixel(f), m))
  {
    TimesAdd(BytesPerPixel(f), m, n);
    var whole := Run(raw, f, m + n, start);
    var front := Run(raw, f, m, start);
    var back := Run(raw, f, n, start + Times(BytesPerPixel(f), m));
    forall x | 0 <= x < m
      ensures whole[x] == front[x]
    {
      RunFront(raw, f, m, n, start, x);
    }
    forall x | 0 <= x < n
      ensures whole[m + x] == back[x]
    {
      RunBack(raw, f, m, n, start, x);
    }
    assert whole == front + back;
  }

  /**
   * The source's extraction as written: a single run over the whole buffer,
   * pixel k at bpp * k whatever the row.
   */
  function Contiguous(raw: seq<byte>, f: PixelFormat, n: nat): (r: seq<byte>)
    requires !f.Other? && Times(BytesPerPixel(f), n) <= |raw|
    ensures |r| == n
  {
    Run(raw, f, n, 0)
  }

  /**
   * The luminance grid of a bitmap of `height` rows of `width` pixels whose
   * rows start `stride` bytes apart: row y is a run starting at y * stride.
   */
  function StridedLuminance(raw: seq<byte>, f: PixelFormat, width: nat, height: nat, stride: nat): (r: seq<byte>)
    requires !f.Other? && stride >= Times(BytesPerPixel(f), width) && Times(stride, height) <= |raw|
    ensures |r| == Times(width, height)
  {
    if height == 0 then []
    else
      StridedLuminance(raw, f, width, height - 1, stride)
      + Run(raw, f, width, Times(stride, height - 1))
  }

  /** The grid's entries before its last row are the grid of the rows before it. */
  lemma {:induction false} EarlierRows(raw: seq<byte>, f: PixelFormat, width: nat, height: nat, stride: nat, i: nat)
    requires !f.Other? && stride >= Times(BytesPerPixel(f), width) && Times(stride, height) <= |raw|
    requires 0 < height && i < Times(width, height - 1)
    ensures Times(stride, height - 1) <= |raw|
    ensures StridedLuminance(raw, f, width, height, stride)[i]
         == StridedLuminance(raw, f, width, height - 1, stride)[i]
  {
  }

  /** The grid's last row, row y = height - 1, is the run of width pixels starting y * stride bytes in. */
  lemma {:induction false} LastRow(raw: seq<byte>, f: PixelFormat, width: nat, height: nat, stride: nat, y: nat, x: nat)
    requires !f.Other? && stride >= Times(BytesPerPixel(f), width) && Times(stride, height) <= |raw|
    requires y == height - 1 && x < width
    ensures Times(stride, y) + Times(BytesPerPixel(f), width) <= |raw|
    ensures Times(width, y) + x < Times(width, height)
    ensures StridedLuminance(raw, f, width, height, stride)[Times(width, y) + x]
         == Run(raw, f, width, Times(stride, y))[x]
  {
    var front := StridedLuminance(raw, f, width, y, stride);
    var row := Run(raw, f, width, Times(stride, y));
    assert StridedLuminance(raw, f, width, height, stride) == front + row;
    assert (front + row)[|front| + x] == row[x];
  }

  /** Pixel x of the grid's last row. */
  lemma {:induction false} LastRowPixel(raw: seq<byte>, f: PixelFormat, width: nat, height: nat, stride: nat, y: nat, x: nat)
    requires !f.Other? && stride >= Times(BytesPerPixel(f), width) && Times(stride, height) <= |raw|
    requires y == height - 1 && x < width
    ensures Times(width, y) + x < Times(width, height)
    ensures Times(stride, y) + Times(BytesPerPixel(f), x) + BytesPerPixel(f) <= |raw|
    ensures StridedLuminance(raw, f, width, height, stride)[Times(width, y) + x]
         == PixelSample(raw, f, Times(stride, y) + Times(BytesPerPixel(f), x))
  {
    LastRow(raw, f, width, height, stride, y, x);
    RunAt(raw, f, width, Times(stride, y), x);
  }

  /**
   * The corrected extraction: pixel (y, x) of the grid, at index
   * y * width + x, is the luminance of the bytes at y * stride + bpp * x.
   */
  lemma {:induction false} StridedPixel(raw: seq<byte>, f: PixelFormat, width: nat, height: nat, stride: nat, y: nat, x: nat)
    requires !f.Other? && stride >= Times(BytesPerPixel(f), width) && Times(stride, height) <= |raw|
    requires y < height && x < width
    ensures Times(width, y) + x < Times(width, height)
    ensures Times(stride, y) + Times(BytesPerPixel(f), x) + BytesPerPixel(f) <= |raw|
    ensures StridedLuminance(raw, f, width, height, stride)[Times(width, y) + x]
         == PixelSample(raw, f, Times(stride, y) + Times(BytesPerPixel(f), x))
  {
    PixelFits(BytesPerPixel(f), width, height, stride, y, x);
    if y == height - 1 {
      LastRowPixel(raw, f, width, height, stride, y, x);
    } else {
      TimesMonotone(stride, height - 1, height);
      StridedPixel(raw, f, width, height - 1, stride, y, x);
      EarlierRows(raw, f, width, height, stride, Times(width, y) + x);
    }
  }

  /** Pixel (y, x) of a grid whose rows do not overlap lies inside the grid and its height * stride bytes. */
  lemma {:induction false} PixelFits(bpp: nat, width: nat, height: nat, stride: nat, y: nat, x: nat)
    requires stride >= Times(bpp, width) && y < height && x < width
    ensures Times(width, y) + x < Times(width, height)
    ensures Times(stride, y) + Times(bpp, x) + bpp <= Times(stride, height)
  {
    TimesMonotone(width, y + 1, height);
    TimesMonotone(bpp, x + 1, width);
    TimesMonotone(stride, y + 1, height);
  }

  predicate IsRgbStep(f: PixelFormat, step: Step)
  {
    (f.Format24bppRgb? && step == 3) || ((f.Format32bppRgb? || f.Format32bppArgb?) && step == 4)
  }

  lemma {:induction false} PixelAtIsSample(raw: seq<byte>, f: PixelFormat, step: Step, k: nat, offset: nat)
    requires IsRgbStep(f, step) && offset == step * k && offset + step <= |raw|
    ensures Complete(|raw|, step, k)
    ensures PixelAt(raw, step, k) == PixelSample(raw, f, offset)
  {
  }

  /** The RGB layouts: entry k of the filled array is pixel k's luminance, and it starts at step * k. */
  lemma {:induction false} ConvertedAt(raw: seq<byte>, f: PixelFormat, lum: seq<byte>, step: Step, k: nat)
    requires IsRgbStep(f, step)
    requires Times(step, |lum|) <= |raw| && k < |lum|
    ensures Times(step, k) + step <= |raw|
    ensures Filled(raw, f, lum)[k] == PixelSample(raw, f, Times(step, k))
  {
    TimesMonotone(step, k + 1, |lum|);
    TimesIsProduct(step, |lum|);
    TimesIsProduct(step, k);
    RoomyEntry(raw, lum, step, k);
    PixelAtIsSample(raw, f, step, k, Times(step, k));
    assert Filled(raw, f, lum) == Converted(raw, lum, step);
  }

  /** With room for every pixel, entry k of the source's extraction is pixel k of the contiguous walk. */
  lemma {:induction false} FilledAt(raw: seq<byte>, f: PixelFormat, lum: seq<byte>, k: nat)
    requires !f.Other? && Times(BytesPerPixel(f), |lum|) <= |raw| && k < |lum|
    ensures Times(BytesPerPixel(f), k) + BytesPerPixel(f) <= |raw|
    ensures Filled(raw, f, lum)[k] == PixelSample(raw, f, Times(BytesPerPixel(f), k))
  {
    if f.Format24bppRgb? {
      ConvertedAt(raw, f, lum, 3, k);
    } else if f.Format8bppIndexed? {
      TimesIsProduct(1, k);
      TimesIsProduct(1, |lum|);
    } else {
      ConvertedAt(raw, f, lum, 4, k);
    }
  }

  /** As written, the source's extraction is the contiguous walk over the first |lum| pixels. */
  lemma {:induction false} FilledIsContiguous(raw: seq<byte>, f: PixelFormat, lum: seq<byte>)
    requires !f.Other? && Times(BytesPerPixel(f), |lum|) <= |raw|
    ensures Extract(raw, f, lum) == Success(Contiguous(raw, f, |lum|))
  {
    TimesIsProduct(BytesPerPixel(f), |lum|);
    LargeBufferExtracts(raw, f, lum);
    FilledIsRun(raw, f, lum);
  }

  lemma {:induction false} FilledIsRun(raw: seq<byte>, f: PixelFormat, lum: seq<byte>)
    requires !f.Other? && Times(BytesPerPixel(f), |lum|) <= |raw|
    ensures Filled(raw, f, lum) == Contiguous(raw, f, |lum|)
  {
    var filled := Filled(raw, f, lum);
    var walk := Contiguous(raw, f, |lum|);
    forall k | 0 <= k < |lum|
      ensures filled[k] == walk[k]
    {
      FilledAt(raw, f, lum, k);
      RunAt(raw, f, |lum|, 0, k);
    }
    assert filled == walk;
  }

  /** Extending the walk by w pixels appends the run of w pixels that follows it. */
  lemma {:induction false} ContiguousGrows(raw: seq<byte>, f: PixelFormat, n: nat, w: nat)
    requires !f.Other? && Times(BytesPerPixel(f), n + w) <= |raw|
    ensures Times(BytesPerPixel(f), n) + Times(BytesPerPixel(f), w) <= |raw|
    ensures Contiguous(raw, f, n + w) == Contiguous(raw, f, n) + Run(raw, f, w, Times(BytesPerPixel(f), n))
  {
    RunSplit(raw, f, n, w, 0);
  }

  /** Without padding, the last row of the grid starts where the pixels of the rows before it end. */
  lemma {:induction false} UnpaddedLastRow(raw: seq<byte>, f: PixelFormat, width: nat, height: nat)
    requires !f.Other? && Times(Times(BytesPerPixel(f), width), height) <= |raw| && 0 < height
    ensures Times(BytesPerPixel(f), Times(width, height - 1)) + Times(BytesPerPixel(f), width) <= |raw|
    ensures Times(Times(BytesPerPixel(f), width), height - 1) <= |raw|
    ensures StridedLuminance(raw, f, width, height, Times(BytesPerPixel(f), width))
         == StridedLuminance(raw, f, width, height - 1, Times(BytesPerPixel(f), width))
          + Run(raw, f, width, Times(BytesPerPixel(f), Times(width, height - 1)))
  {
    TimesAssociates(BytesPerPixel(f), width, height - 1);
  }

  /** Without row padding the contiguous walk and the row-aware extraction agree. */
  lemma {:induction false} UnpaddedAgrees(raw: seq<byte>, f: PixelFormat, width: nat, height: nat)
    requires !f.Other? && Times(BytesPerPixel(f), Times(width, height)) <= |raw|
    ensures Times(Times(BytesPerPixel(f), width), height) <= |raw|
    ensures StridedLuminance(raw, f, width, height, Times(BytesPerPixel(f), width))
         == Contiguous(raw, f, Times(width, height))
  {
    TimesAssociates(BytesPerPixel(f), width, height);
    if height > 0 {
      var n := Times(width, height - 1);
      TimesMonotone(BytesPerPixel(f), n, Times(width, height));
      UnpaddedAgrees(raw, f, width, height - 1);
      UnpaddedLastRow(raw, f, width, height);
      ContiguousGrows(raw, f, n, width);
    }
  }

  /**
   * A 1 x 2 grey bitmap with 4-byte rows (three bytes of padding each): the
   * source yields [10, 0], taking row 0's padding for pixel (1, 0); the
   * row-aware extraction yields [10, 20].
   */
  lemma {:induction false} StrideIgnoredSkewsRows()
    ensures Extract([10, 0, 0, 0, 20, 0, 0, 0], Format8bppIndexed, Zeros(2)) == Success([10, 0])
    ensures StridedLuminance([10, 0, 0, 0, 20, 0, 0, 0], Format8bppIndexed, 1, 2, 4) == [10, 20]
  {
    var raw: seq<byte> := [10, 0, 0, 0, 20, 0, 0, 0];
    assert Filled(raw, Format8bppIndexed, Zeros(2)) == [10, 0];
    assert Times(4, 2) == 8 && Times(4, 1) == 4 && Times(1, 1) == 1 && Times(1, 2) == 2;
    assert StridedLuminance(raw, Format8bppIndexed, 1, 1, 4) == [10];
  }
}
