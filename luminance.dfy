/**
 * The luminance extraction of BitmapLuminanceSource: a locked bitmap's raw
 * pixel bytes become one luminance byte per pixel, by a 16-bit fixed-point
 * weighted sum of the red, green and blue samples.
 */
module Luminance {
  import opened Wrappers

  type byte = x: int | 0 <= x < 256

  /**
   * The System.Drawing pixel layouts the extractor knows; Other(name) stands for
   * any other layout, named as PixelFormat.ToString() names it. Nothing stops
   * Other from carrying one of the four known names, which no real layout
   * outside the four would have.
   */
  datatype PixelFormat =
    | Format32bppRgb
    | Format32bppArgb
    | Format24bppRgb
    | Format8bppIndexed
    | Other(name: string)

  /** PixelFormat.ToString(), which the NotSupportedException message embeds. */
  function PixelFormatName(f: PixelFormat): string
  {
    match f
    case Format32bppRgb => "Format32bppRgb"
    case Format32bppArgb => "Format32bppArgb"
    case Format24bppRgb => "Format24bppRgb"
    case Format8bppIndexed => "Format8bppIndexed"
    case Other(name) => name
  }

  /** The exceptions CalculateLuminance can raise. */
  datatype Fault = NotSupported(format: PixelFormat) | IndexOutOfRange

  function FaultMessage(e: Fault): string
  {
    match e
    case NotSupported(f) => "Pixel format " + PixelFormatName(f) + " is not supported"
    case IndexOutOfRange => "Index was outside the bounds of the array."
  }

  // Channel weights out of 2^16 (about 0.2985, 0.5882 and 0.1133, summing to
  // exactly 2^16), and the shift back.
  const RChannelWeight: int := 19562
  const GChannelWeight: int := 38550
  const BChannelWeight: int := 7424
  const ChannelWeight: nat := 16

  function Pow2(n: nat): (p: nat)
    ensures p > 0
  {
    if n == 0 then 1 else 2 * Pow2(n - 1)
  }

  /** C#'s `>>` on an int: an arithmetic shift, that is, division rounding toward minus infinity. */
  function ShiftRight(x: int, amount: nat): int
  {
    x / Pow2(amount)
  }

  /** C#'s unchecked `(byte)` cast: the low eight bits of the two's-complement value. */
  function ToByte(x: int): byte
  {
    x % 256
  }

  function WeightedSum(b: byte, g: byte, r: byte): int
  {
    RChannelWeight * r + GChannelWeight * g + BChannelWeight * b
  }

  /** The luminance of one pixel, as the extraction loops compute it. */
  function PixelLuminance(b: byte, g: byte, r: byte): byte
  {
    ToByte(ShiftRight(WeightedSum(b, g, r), ChannelWeight))
  }

  lemma {:induction false} WeightsSumToOne()
    ensures RChannelWeight + GChannelWeight + BChannelWeight == Pow2(ChannelWeight) == 65536
  {
    assert Pow2(4) == 16;
    assert Pow2(8) == 256;
    assert Pow2(12) == 4096;
  }

  /**
   * The weighted sum fits in a 32-bit int, and the cast to byte never wraps:
   * the luminance is the floor of the sum divided by 2^16, within [0, 255].
   */
  lemma {:induction false} LuminanceNeverWraps(b: byte, g: byte, r: byte)
    ensures 0 <= WeightedSum(b, g, r) <= 255 * 65536 < 0x8000_0000
    ensures PixelLuminance(b, g, r) == WeightedSum(b, g, r) / 65536
  {
    WeightsSumToOne();
    var s := WeightedSum(b, g, r);
    assert s / 65536 <= 255;
  }

  /** Because the weights sum to 2^16, a grey pixel keeps its value. */
  lemma {:induction false} GreyIsFixed(v: byte)
    ensures PixelLuminance(v, v, v) == v
  {
    LuminanceNeverWraps(v, v, v);
    assert WeightedSum(v, v, v) == 65536 * v;
  }

  lemma {:induction false} WhiteAndBlack()
    ensures PixelLuminance(255, 255, 255) == 255
    ensures PixelLuminance(0, 0, 0) == 0
  {
    GreyIsFixed(255);
    GreyIsFixed(0);
  }

  /**
   * The shift truncates rather than rounds: a pure red sample of 2 has a
   * weighted sum above half of 2^16, yet its luminance is 0.
   */
  lemma {:induction false} ShiftTruncates()
    ensures 2 * WeightedSum(0, 0, 2) > Pow2(ChannelWeight)
    ensures PixelLuminance(0, 0, 2) == 0
  {
    WeightsSumToOne();
  }

  /** A brighter sample in any channel never gives a darker luminance. */
  lemma {:induction false} LuminanceMonotone(b: byte, g: byte, r: byte, b': byte, g': byte, r': byte)
    requires b <= b' && g <= g' && r <= r'
    ensures PixelLuminance(b, g, r) <= PixelLuminance(b', g', r')
  {
    LuminanceNeverWraps(b, g, r);
    LuminanceNeverWraps(b', g', r');
  }

  // ---------------------------------------------------------------------
  // The two RGB loops, as functions of the buffer lengths and contents.

  /** Bytes per pixel of the two RGB layouts: the stride of the loop's `index`. */
  type Step = s: nat | s == 3 || s == 4 witness 3

  /** Iteration k reads raw[step*k], raw[step*k+1] and raw[step*k+2]: all three exist. */
  predicate Complete(rawLen: nat, step: Step, k: nat)
  {
    step * k + 2 < rawLen
  }

  /** Iteration k is entered (its first byte exists) but cannot read all three samples. */
  predicate Torn(rawLen: nat, step: Step, k: nat)
  {
    step * k < rawLen && !Complete(rawLen, step, k)
  }

  /**
   * The number of luminance entries the loop writes, counting from iteration k:
   * it runs while the luminance array has room and the pixel's bytes exist.
   */
  function WrittenFrom(rawLen: nat, lumLen: nat, step: Step, k: nat): (w: nat)
    requires k <= lumLen
    decreases lumLen - k
    ensures k <= w <= lumLen
    ensures forall j :: k <= j < w ==> Complete(rawLen, step, j)
    ensures w == lumLen || !Complete(rawLen, step, w)
  {
    if k < lumLen && Complete(rawLen, step, k) then WrittenFrom(rawLen, lumLen, step, k + 1) else k
  }

  function Written(rawLen: nat, lumLen: nat, step: Step): nat
  {
    WrittenFrom(rawLen, lumLen, step, 0)
  }

  /** The three facts that characterise Written pin it down. */
  lemma {:induction false} WrittenIs(rawLen: nat, lumLen: nat, step: Step, w: nat)
    requires w <= lumLen
    requires forall j :: 0 <= j < w ==> Complete(rawLen, step, j)
    requires w == lumLen || !Complete(rawLen, step, w)
    ensures Written(rawLen, lumLen, step) == w
  {
  }

  /** The loop stops inside an iteration: the next pixel's first byte exists but not its last. */
  predicate Faults(rawLen: nat, lumLen: nat, step: Step)
  {
    var w := Written(rawLen, lumLen, step);
    w < lumLen && step * w < rawLen
  }

  function PixelAt(raw: seq<byte>, step: Step, k: nat): byte
    requires Complete(|raw|, step, k)
  {
    PixelLuminance(raw[step * k], raw[step * k + 1], raw[step * k + 2])
  }

  /** The luminance array after an RGB loop: the written prefix holds pixel luminances, the rest is as before. */
  function Converted(raw: seq<byte>, lum: seq<byte>, step: Step): (r: seq<byte>)
    ensures |r| == |lum|
  {
    var w := Written(|raw|, |lum|, step);
    seq(|lum|, k requires 0 <= k < |lum| => if k < w then PixelAt(raw, step, k) else lum[k])
  }

  /**
   * With at least step bytes per luminance entry, every read is in bounds,
   * the loop never faults and every entry is written with its pixel's luminance.
   */
  lemma {:induction false} LargeBufferConvertsAll(raw: seq<byte>, lum: seq<byte>, step: Step)
    requires |raw| >= step * |lum|
    ensures Written(|raw|, |lum|, step) == |lum| && !Faults(|raw|, |lum|, step)
    ensures forall k :: 0 <= k < |lum| ==>
      Complete(|raw|, step, k) && Converted(raw, lum, step)[k] == PixelAt(raw, step, k)
  {
    forall k | 0 <= k < |lum|
      ensures Complete(|raw|, step, k)
    {
      if step == 3 {
        assert 3 * k + 3 <= 3 * |lum|;
      } else {
        assert 4 * k + 4 <= 4 * |lum|;
      }
    }
    WrittenIs(|raw|, |lum|, step, |lum|);
  }

  /** Entry k of a loop over a large enough buffer holds pixel k's luminance. */
  lemma {:induction false} RoomyEntry(raw: seq<byte>, lum: seq<byte>, step: Step, k: nat)
    requires |raw| >= step * |lum| && k < |lum|
    ensures Complete(|raw|, step, k) && Converted(raw, lum, step)[k] == PixelAt(raw, step, k)
  {
    LargeBufferConvertsAll(raw, lum, step);
  }

  /** The loop faults exactly when some pixel within the luminance array's reach is torn. */
  lemma {:induction false} FaultsIffTornPixel(rawLen: nat, lumLen: nat, step: Step)
    ensures Faults(rawLen, lumLen, step) <==> exists k :: 0 <= k < lumLen && Torn(rawLen, step, k)
  {
    var w := Written(rawLen, lumLen, step);
    if Faults(rawLen, lumLen, step) {
      assert Torn(rawLen, step, w);
    } else {
      forall k | 0 <= k < lumLen
        ensures !Torn(rawLen, step, k)
      {
        if k >= w {
          assert step * w <= step * k by {
            if step == 3 { assert 3 * w <= 3 * k; } else { assert 4 * w <= 4 * k; }
          }
        }
      }
    }
  }

  /** Luminance k reads raw bytes step*k .. step*k+2 and nothing else: rows are never skipped. */
  lemma {:induction false} PixelDependsOnlyOnItsBytes(raw1: seq<byte>, raw2: seq<byte>, lum: seq<byte>, step: Step, k: nat)
    requires |raw1| == |raw2| && k < |lum| && Complete(|raw1|, step, k)
    requires forall i :: step * k <= i < step * k + 3 ==> raw1[i] == raw2[i]
    ensures Converted(raw1, lum, step)[k] == Converted(raw2, lum, step)[k]
  {
    assert raw1[step * k + 1] == raw2[step * k + 1];
    assert raw1[step * k + 2] == raw2[step * k + 2];
  }

  // ---------------------------------------------------------------------
  // The format dispatch.

  function ExtractFault(raw: seq<byte>, format: PixelFormat, lumLen: nat): Option<Fault>
  {
    match format
    case Format32bppRgb | Format32bppArgb =>
      if Faults(|raw|, lumLen, 4) then Some(IndexOutOfRange) else None
    case Format24bppRgb =>
      if Faults(|raw|, lumLen, 3) then Some(IndexOutOfRange) else None
    case Format8bppIndexed => None
    case Other(_) => Some(NotSupported(format))
  }

  /** The luminance array after CalculateLuminance, whether or not it raised. */
  function Filled(raw: seq<byte>, format: PixelFormat, lum: seq<byte>): (r: seq<byte>)
    ensures |r| == |lum|
  {
    match format
    case Format32bppRgb | Format32bppArgb => Converted(raw, lum, 4)
    case Format24bppRgb => Converted(raw, lum, 3)
    case Format8bppIndexed =>
      var m := Min(|raw|, |lum|);
      raw[..m] + lum[m..]
    case Other(_) => lum
  }

  /** Either the filled luminance array or the exception CalculateLuminance raises. */
  function Extract(raw: seq<byte>, format: PixelFormat, lum: seq<byte>): Result<seq<byte>, Fault>
  {
    match ExtractFault(raw, format, |lum|)
    case Some(e) => Failure(e)
    case None => Success(Filled(raw, format, lum))
  }

  /** The 8-bit indexed path copies the raw samples verbatim, never faults, and leaves the tail alone. */
  lemma {:induction false} IndexedCopies(raw: seq<byte>, lum: seq<byte>)
    ensures Extract(raw, Format8bppIndexed, lum).Success?
    ensures forall k :: 0 <= k < |lum| ==>
      Filled(raw, Format8bppIndexed, lum)[k] == if k < |raw| then raw[k] else lum[k]
  {
  }

  /** Exactly the four supported layouts are accepted; any other fails with NotSupported and writes nothing. */
  lemma {:induction false} OnlyFourFormats(raw: seq<byte>, format: PixelFormat, lum: seq<byte>)
    ensures ExtractFault(raw, format, |lum|) == Some(NotSupported(format)) <==> format.Other?
    ensures format.Other? ==> Filled(raw, format, lum) == lum
  {
  }

  /** A buffer with enough bytes for every pixel of the layout is always extracted without fault. */
  lemma {:induction false} LargeBufferExtracts(raw: seq<byte>, format: PixelFormat, lum: seq<byte>)
    requires !format.Other?
    requires format.Format8bppIndexed? || |raw| >= (if format.Format24bppRgb? then 3 else 4) * |lum|
    ensures Extract(raw, format, lum).Success?
  {
    if format.Format24bppRgb? {
      LargeBufferConvertsAll(raw, lum, 3);
    } else if !format.Format8bppIndexed? {
      LargeBufferConvertsAll(raw, lum, 4);
    }
  }

  // ---------------------------------------------------------------------
  // The imperative source.

  /** BitmapLuminanceSource: its luminance array is filled in place from the raw bytes. */
  class BitmapLuminanceSource {
    const width: nat
    const height: nat
    const luminances: array<byte>

    /** The base constructor: a zeroed array of width * height luminances. */
    constructor (width: nat, height: nat)
      ensures this.width == width && this.height == height
      ensures fresh(luminances) && luminances.Length == width * height
      ensures forall k :: 0 <= k < luminances.Length ==> luminances[k] == 0
    {
      this.width := width;
      this.height := height;
      luminances := new byte[width * height](_ => 0);
    }

    /** The stride parameter is accepted and, as in the source, never used. */
    method CalculateLuminance(rgbRawBytes: seq<byte>, pixelFormat: PixelFormat, stride: int)
      returns (fault: Option<Fault>)
      modifies luminances
      ensures fault == ExtractFault(rgbRawBytes, pixelFormat, luminances.Length)
      ensures luminances[..] == Filled(rgbRawBytes, pixelFormat, old(luminances[..]))
    {
      match pixelFormat
      case Format32bppRgb | Format32bppArgb =>
        fault := ConvertRgb(rgbRawBytes, 4);
      case Format24bppRgb =>
        fault := ConvertRgb(rgbRawBytes, 3);
      case Format8bppIndexed =>
        var m := Min(|rgbRawBytes|, luminances.Length);
        forall k | 0 <= k < m {
          luminances[k] := rgbRawBytes[k];
        }
        assert luminances[..] == rgbRawBytes[..m] + old(luminances[..])[m..];
        fault := None;
      case Other(_) =>
        fault := Some(NotSupported(pixelFormat));
    }

    /** One of the two luminance loops: `index` walks the raw bytes by step, `luminanceIndex` the array. */
    method ConvertRgb(raw: seq<byte>, step: Step) returns (fault: Option<Fault>)
      modifies luminances
      ensures fault == if Faults(|raw|, luminances.Length, step) then Some(IndexOutOfRange) else None
      ensures luminances[..] == Converted(raw, old(luminances[..]), step)
    {
      ghost var before := luminances[..];
      var index, luminanceIndex := 0, 0;
      while index < |raw| && luminanceIndex < luminances.Length
        invariant index == step * luminanceIndex && luminanceIndex <= luminances.Length
        invariant forall j :: 0 <= j < luminanceIndex ==> Complete(|raw|, step, j)
        invariant forall k :: 0 <= k < luminanceIndex ==> luminances[k] == PixelAt(raw, step, k)
        invariant forall k :: luminanceIndex <= k < luminances.Length ==> luminances[k] == before[k]
      {
        var b := raw[index];
        if index + 1 >= |raw| || index + 2 >= |raw| {
          // raw[index + 1] or raw[index + 2] throws IndexOutOfRangeException
          WrittenIs(|raw|, luminances.Length, step, luminanceIndex);
          SameAsConverted(raw, before, step, luminanceIndex);
          return Some(IndexOutOfRange);
        }
        var g := raw[index + 1];
        var r := raw[index + 2];
        luminances[luminanceIndex] := PixelLuminance(b, g, r);
        index, luminanceIndex := index + step, luminanceIndex + 1;
      }
      WrittenIs(|raw|, luminances.Length, step, luminanceIndex);
      SameAsConverted(raw, before, step, luminanceIndex);
      fault := None;
    }

    /** The array's state once the loop has written exactly w entries. */
    lemma {:induction false} SameAsConverted(raw: seq<byte>, before: seq<byte>, step: Step, w: nat)
      requires |before| == luminances.Length && w == Written(|raw|, |before|, step)
      requires forall k :: 0 <= k < w ==> Complete(|raw|, step, k) && luminances[k] == PixelAt(raw, step, k)
      requires forall k :: w <= k < luminances.Length ==> luminances[k] == before[k]
      ensures luminances[..] == Converted(raw, before, step)
    {
    }
  }
}
