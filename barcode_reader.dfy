/**
 * BarcodeReader.ReadBarcode: a bitmap's luminances go to the ZXing decoder,
 * and whatever the decoder does (return a symbol, return nothing, throw) is
 * mapped onto a BarcodeResult; only a null bitmap escapes as an exception.
 * The decoder is a parameter: any total function of the luminance grid.
 */
module BarcodeReading {
  import opened Wrappers
  import opened Luminance
  import opened RowStride

  /** The symbologies the reader's DecodingOptions.PossibleFormats admit. */
  datatype BarcodeFormat =
    | UpcA | UpcE | Ean8 | Ean13 | Code39 | Code128
    | Itf | QrCode | DataMatrix | Aztec | Pdf417 | Codabar

  /** BarcodeFormat.ToString(): the ZXing enumeration member's name. */
  function FormatName(f: BarcodeFormat): string
  {
    match f
    case UpcA => "UPC_A"
    case UpcE => "UPC_E"
    case Ean8 => "EAN_8"
    case Ean13 => "EAN_13"
    case Code39 => "CODE_39"
    case Code128 => "CODE_128"
    case Itf => "ITF"
    case QrCode => "QR_CODE"
    case DataMatrix => "DATA_MATRIX"
    case Aztec => "AZTEC"
    case Pdf417 => "PDF_417"
    case Codabar => "CODABAR"
  }

  /** The parts of a ZXing Result the reader copies; RawBytes may be null. */
  datatype Decoded = Decoded(text: string, format: BarcodeFormat, rawBytes: Option<seq<byte>>)

  /** What one call of the decoder does: return a result, return null, or throw. */
  datatype DecodeOutcome = Found(result: Decoded) | NotFound | Threw(message: string)

  /** The decoder, given the luminance source's width, height and luminances. */
  type Decoder = (nat, nat, seq<byte>) -> DecodeOutcome

  /**
   * A System.Drawing bitmap as the luminance source sees it: its size, its
   * pixel layout, the locked data's stride, and the stride * height bytes
   * copied out of the locked data.
   */
  datatype Bitmap = Bitmap(width: nat, height: nat, format: PixelFormat, stride: int, pixels: seq<byte>)

  /** BarcodeResult; a null property is None. */
  datatype BarcodeResult = BarcodeResult(
    success: bool,
    text: Option<string>,
    format: Option<string>,
    rawBytes: Option<seq<byte>>,
    errorMessage: Option<string>)

  /** The ArgumentNullException thrown for a null bitmap. */
  datatype ArgumentNull = ArgumentNull(paramName: string, message: string)

  /** The not-found message; the two pieces together form the literal of the source. */
  const NoBarcodeMessage: string := "No barcode " + "could be detected in the provided image"
  const ErrorPrefix: string := "Error reading barcode: "

  function Failed(message: string): BarcodeResult
  {
    BarcodeResult(false, None, None, None, Some(message))
  }

  /**
   * What the luminance source's constructor produces: ZXing's base class
   * allocates width * height zeroed luminances, then CalculateLuminance
   * fills them or throws.
   */
  function Luminances(b: Bitmap): (r: Result<seq<byte>, Fault>)
    ensures r.Success? ==> |r.value| == b.width * b.height
  {
    Extract(b.pixels, b.format, Zeros(b.width * b.height))
  }

  /** The source's constructor BitmapLuminanceSource(bitmap), with its exception as a Failure. */
  method NewLuminanceSource(bitmap: Bitmap) returns (r: Result<BitmapLuminanceSource, Fault>)
    ensures r.Failure? <==> Luminances(bitmap).Failure?
    ensures r.Failure? ==> r.error == Luminances(bitmap).error
    ensures r.Success? ==>
      fresh(r.value) && r.value.width == bitmap.width && r.value.height == bitmap.height
      && r.value.luminances[..] == Luminances(bitmap).value
  {
    var source := new BitmapLuminanceSource(bitmap.width, bitmap.height);
    assert source.luminances[..] == Zeros(bitmap.width * bitmap.height);
    var stride := if bitmap.stride < 0 then -bitmap.stride else bitmap.stride;
    var fault := source.CalculateLuminance(bitmap.pixels, bitmap.format, stride);
    if fault.Some? {
      r := Failure(fault.value);
    } else {
      r := Success(source);
    }
  }

  /**
   * BarcodeReader.ReadBarcode. A null bitmap is the only failure; otherwise
   * the result reports success exactly when it carries no error message.
   */
  function ReadBarcode(bitmap: Option<Bitmap>, decode: Decoder): (r: Result<BarcodeResult, ArgumentNull>)
    ensures r.Failure? <==> bitmap.None?
    ensures r.Failure? ==> r.error == ArgumentNull("bitmap", "Bitmap cannot be null")
    ensures r.Success? ==> (r.value.success <==> r.value.errorMessage.None?)
    ensures r.Success? ==> (r.value.success <==> r.value.text.Some?)
  {
    match bitmap
    case None => Failure(ArgumentNull("bitmap", "Bitmap cannot be null"))
    case Some(b) =>
      Success(
        match Luminances(b)
        case Failure(e) => Failed(ErrorPrefix + FaultMessage(e))
        case Success(lum) =>
          match decode(b.width, b.height, lum)
          case Found(d) => BarcodeResult(true, Some(d.text), Some(FormatName(d.format)), d.rawBytes, None)
          case NotFound => Failed(NoBarcodeMessage)
          case Threw(message) => Failed(ErrorPrefix + message))
  }

  /** A read succeeds exactly when the luminances were extracted and the decoder found a symbol, whose fields it copies. */
  lemma {:induction false} SuccessIffFound(b: Bitmap, decode: Decoder)
    ensures var r := ReadBarcode(Some(b), decode).value;
      r.success <==> Luminances(b).Success? && decode(b.width, b.height, Luminances(b).value).Found?
    ensures var r := ReadBarcode(Some(b), decode).value;
      r.success ==>
        var d := decode(b.width, b.height, Luminances(b).value).result;
        r.text == Some(d.text) && r.format == Some(FormatName(d.format)) && r.rawBytes == d.rawBytes
  {
  }

  /**
   * A failed read carries nothing but its message, and the message tells the
   * cases apart: the fixed one exactly when the decoder returned null,
   * otherwise the error prefix and the exception's message.
   */
  lemma {:induction false} FailureMessages(b: Bitmap, decode: Decoder)
    ensures var r := ReadBarcode(Some(b), decode).value;
      !r.success ==> r.text.None? && r.format.None? && r.rawBytes.None? && r.errorMessage.Some?
    ensures var r := ReadBarcode(Some(b), decode).value;
      r.errorMessage == Some(NoBarcodeMessage)
      <==> Luminances(b).Success? && decode(b.width, b.height, Luminances(b).value).NotFound?
    ensures var r := ReadBarcode(Some(b), decode).value;
      r.errorMessage.Some? && r.errorMessage != Some(NoBarcodeMessage) ==>
        ErrorPrefix <= r.errorMessage.value
        && (Luminances(b).Failure? ==> r.errorMessage.value == ErrorPrefix + FaultMessage(Luminances(b).error))
    ensures var r := ReadBarcode(Some(b), decode).value;
      Luminances(b).Success? && decode(b.width, b.height, Luminances(b).value).Threw? ==>
        r.errorMessage == Some(ErrorPrefix + decode(b.width, b.height, Luminances(b).value).message)
  {
    // The message's first character is readable because it starts a short piece.
    assert NoBarcodeMessage[0] == 'N';
  }

  /** The fixed message never carries the error prefix, so no exception message is mistaken for it. */
  lemma {:induction false} NotFoundIsNotAnError(message: string)
    ensures ErrorPrefix + message != NoBarcodeMessage
    ensures !(ErrorPrefix <= NoBarcodeMessage)
  {
    assert NoBarcodeMessage[0] == 'N';
    assert (ErrorPrefix + message)[0] == ErrorPrefix[0];
  }

  /** A bitmap of an unsupported layout fails before the decoder runs, whatever the decoder would do. */
  lemma {:induction false} UnsupportedFormatSkipsDecoder(b: Bitmap, decode1: Decoder, decode2: Decoder)
    requires b.format.Other?
    ensures ReadBarcode(Some(b), decode1) == ReadBarcode(Some(b), decode2)
    ensures ReadBarcode(Some(b), decode1).value
         == Failed(ErrorPrefix + "Pixel format " + b.format.name + " is not supported")
  {
    assert ErrorPrefix + ("Pixel format " + b.format.name + " is not supported")
        == ErrorPrefix + "Pixel format " + b.format.name + " is not supported";
  }

  /**
   * A buffer holding bpp bytes for each of the width * height pixels always
   * reaches the decoder, as the contiguous walk over its first width * height
   * pixels.
   */
  lemma {:induction false} RoomyBitmapReachesDecoder(b: Bitmap, decode: Decoder)
    requires !b.format.Other? && Times(BytesPerPixel(b.format), b.width * b.height) <= |b.pixels|
    ensures Luminances(b) == Success(Contiguous(b.pixels, b.format, b.width * b.height))
    ensures ReadBarcode(Some(b), decode).value.success
        <==> decode(b.width, b.height, Contiguous(b.pixels, b.format, b.width * b.height)).Found?
  {
    FilledIsContiguous(b.pixels, b.format, Zeros(b.width * b.height));
  }

  /**
   * When rows carry no padding, the decoder is handed exactly the row-aware
   * grid, the one whose pixel (y, x) StridedPixel locates.
   */
  lemma {:induction false} UnpaddedBitmapReadsRows(b: Bitmap, decode: Decoder)
    requires !b.format.Other? && Times(BytesPerPixel(b.format), Times(b.width, b.height)) <= |b.pixels|
    ensures Times(Times(BytesPerPixel(b.format), b.width), b.height) <= |b.pixels|
    ensures Luminances(b)
         == Success(StridedLuminance(b.pixels, b.format, b.width, b.height, Times(BytesPerPixel(b.format), b.width)))
    ensures ReadBarcode(Some(b), decode).value.success
        <==> decode(b.width, b.height,
                    StridedLuminance(b.pixels, b.format, b.width, b.height, Times(BytesPerPixel(b.format), b.width))).Found?
  {
    TimesIsProduct(b.width, b.height);
    UnpaddedAgrees(b.pixels, b.format, b.width, b.height);
    RoomyBitmapReachesDecoder(b, decode);
  }

}
