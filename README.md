# Barsnip barcode core in Dafny

Barsnip reads barcodes from images. This project models two of its parts.

- **The reader** (`BarcodeReader.cs`). `BarcodeReader.ReadBarcode`:
  - turns a System.Drawing bitmap into a ZXing luminance source, one byte per pixel;
  - hands it to the ZXing decoder;
  - folds whatever the decoder does into a `BarcodeResult`: a symbol, nothing found, or an exception.

  The luminance source, `BitmapLuminanceSource.CalculateLuminance`, fills its luminance array in place. For 32- and 24-bit RGB layouts it runs a loop over the raw bytes using 16-bit fixed-point channel weights. For 8-bit indexed layouts it copies the bytes. Any other layout is rejected.
- **The preprocessor** (`ImagePreprocessor.cs`). `PreprocessImage` runs five stages, each returning a fresh OpenCV `Mat` handle:
  1. grey conversion;
  2. non-local-means denoising, with the strength clamped to [0, 30];
  3. optional unsharp masking;
  4. deskewing by the angle of the first largest contour;
  5. optional snapping to a quarter turn.

  At the end it disposes every intermediate handle it owns.

## How the model is built

Five modules, plus `Wrappers` for `Option` and `Result`:

| module | file | contents |
|---|---|---|
| `Luminance` | `luminance.dfy` | The luminance arithmetic and the class `BitmapLuminanceSource`. It holds a `luminances: array<byte>` that `CalculateLuminance` and its loop `ConvertRgb` fill in place. Each is proved against the specification functions `ExtractFault`, `Filled` and `Converted`. A `Written` count shows where the loop stops. An `IndexOutOfRange` fault is raised when a pixel's first byte exists but not both of the other two. |
| `RowStride` | `stride.dfy` | The contiguous walk the code performs (`Contiguous`). Beside it, the row-aware extraction `StridedLuminance`, which reads row `y` at `y * stride`. Lemmas relate the two. |
| `BarcodeReading` | `barcode_reader.dfy` | `ReadBarcode`, as a function of an optional bitmap and a decoder. |
| `OpenCv` | `imaging.dfy` | The library the preprocessor calls. Pixels are terms recording the operations that made them. `Mat` is a class holding such a term plus a disposal counter. Each primitive writes its destination handle. |
| `Preprocessing` | `preprocessing.dfy` | Each stage as a method on handles. Each method is proved against a function giving the stage's result (`GrayscaleOf`, `DenoisedOf`, `SharpenedOf`, `DeskewedOf`, `AutoRotatedOf`). The deskew loop and the angle-voting loop are `for` loops with invariants. |

Some things are inputs to the model:

- **The decoder.** The ZXing decoder, with its options (`AutoRotate`, `TryInverted`, `TryHarder`, the twelve formats), is a parameter. It is any function from width, height and luminances to `Found`, `NotFound` or `Threw(message)`.
- **Measurements.** The contours and segment angles the preprocessor measures come from a `Detector` parameter. That means `FindContours` with `ContourArea` and `MinAreaRect`, and `HoughLinesP` with `Atan2`.
- **Arithmetic.** Doubles are modelled as `real`. C# `int` arithmetic is modelled as unbounded integers. `LuminanceNeverWraps` shows that the luminance sum stays below 2^31 and that the byte cast never wraps.

The model records these behaviours of the code, some of which a reader might not expect:

- **Rounding.** The luminance is floored by `>> 16` rather than rounded (`Luminance.ShiftTruncates`).
- **Stride.** `CalculateLuminance` never reads its `stride` argument (see Findings).
- **Rotation sign.** Deskewing passes the found angle to `GetRotationMatrix2D` as it is, un-negated.
- **Handle lifetime.** Intermediates are disposed only at the end of `PreprocessImage`, so every stage's handle is alive until then. There is no `try`/`finally`, so a library exception would leak them; such exceptions are not modelled.
- **Null input.** `ReadBarcode` itself checks only for a null bitmap. The model admits bitmaps with width·height = 0, which System.Drawing does not create; for them it yields an empty luminance array.
- **Weights.** The source's comments describe the channel weights as 0.299, 0.587 and 0.114 of 2^16. The constants are 19562, 38550 and 7424, which sum to exactly 2^16 (`Luminance.WeightsSumToOne`).

## Model

| member | source | states |
|---|---|---|
| Luminance.WeightsSumToOne | BarcodeReader.cs:142-145 | The three channel weights sum to 2^16, the divisor of the 16-bit shift. |
| Luminance.LuminanceNeverWraps | BarcodeReader.cs:122 | For every pixel, the weighted sum lies in [0, 255·2^16] and fits a 32-bit int. The byte cast never wraps, so the luminance equals the sum divided by 2^16, rounded down. |
| Luminance.GreyIsFixed | BarcodeReader.cs:122 | A grey pixel (b = g = r = v) has luminance v. |
| Luminance.WhiteAndBlack | BarcodeReader.cs:122 | White maps to 255 and black to 0. |
| Luminance.ShiftTruncates | BarcodeReader.cs:122 | The shift truncates: a pixel whose weighted sum exceeds half of 2^16 can still have luminance 0. |
| Luminance.LuminanceMonotone | BarcodeReader.cs:119-122 | Raising any channel never lowers the luminance. |
| Luminance.WrittenFrom | BarcodeReader.cs:116 | The loop stops at w ≤ the array length. Every pixel before w has all three of its bytes. Either w is the array length or pixel w lacks a byte. |
| Luminance.WrittenIs | BarcodeReader.cs:116 | Those three facts determine the number of entries written. |
| Luminance.LargeBufferConvertsAll | BarcodeReader.cs:116-123 | With at least step bytes per luminance entry, the loop writes every entry with its pixel's luminance and never faults. |
| Luminance.FaultsIffTornPixel | BarcodeReader.cs:116-121 | The loop throws IndexOutOfRange exactly when some pixel within reach of the array has its first byte but not its third. |
| Luminance.PixelDependsOnlyOnItsBytes | BarcodeReader.cs:119-122 | Entry k depends only on raw bytes step·k to step·k+2, so rows are never skipped. |
| Luminance.IndexedCopies | BarcodeReader.cs:134-135 | The 8-bit indexed path never faults. It copies min(raw, array) bytes verbatim and leaves the rest of the array unchanged. |
| Luminance.OnlyFourFormats | BarcodeReader.cs:112-138 | The NotSupported fault occurs exactly for layouts other than the four, and then nothing is written. |
| Luminance.LargeBufferExtracts | BarcodeReader.cs:112-136 | A supported layout with enough bytes per pixel is always extracted without fault. |
| Luminance.BitmapLuminanceSource.constructor | BarcodeReader.cs:80-81 | The base constructor allocates a fresh, zeroed array of width·height luminances. |
| Luminance.BitmapLuminanceSource.CalculateLuminance | BarcodeReader.cs:110-140 | The format dispatch returns the fault ExtractFault predicts. The array afterwards equals Filled of its old contents, on the fault path too. |
| Luminance.BitmapLuminanceSource.ConvertRgb | BarcodeReader.cs:116-123 | The RGB loop: the fault occurs exactly when Faults holds, and the array afterwards equals Converted of the old array. |
| RowStride.StridedPixel | BarcodeReader.cs:88-91 | In the row-aware grid, entry y·width + x is the luminance of the bytes at y·stride + bpp·x. Both indices lie in range. |
| RowStride.FilledIsContiguous | BarcodeReader.cs:114-136 | On a buffer with bpp bytes per entry, the source's extraction succeeds and is the contiguous walk over the first width·height pixels. |
| RowStride.UnpaddedAgrees | BarcodeReader.cs:88-91 | When stride = bpp·width, the contiguous walk and the row-aware grid coincide. |
| RowStride.StrideIgnoredSkewsRows | BarcodeReader.cs:110-136 | A padded 1×2 indexed bitmap: the source's extraction gives [10, 0], the row-aware one [10, 20]. |
| BarcodeReading.Luminances | BarcodeReader.cs:80-91 | On success, the source built from a bitmap holds width·height luminances. |
| BarcodeReading.NewLuminanceSource | BarcodeReader.cs:80-97 | The constructor fails exactly when the extraction fails, and with the same fault. Otherwise it returns a fresh source of the bitmap's size holding the extracted luminances. |
| BarcodeReading.ReadBarcode | BarcodeReader.cs:41-76 | It throws ArgumentNull("bitmap", "Bitmap cannot be null") exactly for a null bitmap. Otherwise success holds exactly when there is no error message, and exactly when there is a text. |
| BarcodeReading.SuccessIffFound | BarcodeReader.cs:46-60 | A read succeeds exactly when the luminances were extracted and the decoder returned a result. It then copies the text, the format's name and the raw bytes. |
| BarcodeReading.FailureMessages | BarcodeReader.cs:62-75 | A failed read carries only a message. The fixed "No barcode …" message appears exactly when the decoder returned null. Every other message starts with "Error reading barcode: ". It is that prefix plus the extractor's fault message when extraction failed, and that prefix plus the decoder's exception message when the decoder threw. |
| BarcodeReading.NotFoundIsNotAnError | BarcodeReader.cs:65-73 | No exception message, once prefixed, equals the fixed not-found message. |
| BarcodeReading.UnsupportedFormatSkipsDecoder | BarcodeReader.cs:137-138 | Any decoder gives the same result for an unsupported layout: the NotSupported message under the error prefix. |
| BarcodeReading.RoomyBitmapReachesDecoder | BarcodeReader.cs:46-51 | A supported bitmap with bpp bytes per pixel always reaches the decoder, with the contiguous walk. The read succeeds exactly when the decoder finds a symbol in it. |
| BarcodeReading.UnpaddedBitmapReadsRows | BarcodeReader.cs:86-91 | On an unpadded bitmap, the decoder receives exactly the row-aware grid. |
| Preprocessing.ClampStrength | ImagePreprocessor.cs:55 | The strength is in [0, 30]: unchanged within that range, 0 below, 30 above. |
| Preprocessing.ClampIdempotent | ImagePreprocessor.cs:55 | Clamping twice is clamping once. |
| Preprocessing.GrayscaleIsSingleChannel | ImagePreprocessor.cs:38-50 | The grey stage always yields one channel, and applying it again changes nothing. |
| Preprocessing.ConvertToGrayscale | ImagePreprocessor.cs:38-50 | It returns a fresh live handle. A one-channel input is copied; any other is converted from BGR. |
| Preprocessing.DenoiseImage | ImagePreprocessor.cs:52-63 | It returns a fresh live handle holding the input denoised with the clamped strength and windows 7 and 21. |
| Preprocessing.SharpenImage | ImagePreprocessor.cs:65-73 | It returns a fresh live handle holding 1.5·input − 0.5·blur(input, σ = 3). The blur temporary is disposed exactly once. |
| Preprocessing.LargestContourAngle | ImagePreprocessor.cs:84-101 | The loop's final angle equals DeskewAngle of the contours. |
| Preprocessing.ScanFindsFirstLargest | ImagePreprocessor.cs:84-101 | After n contours: maxArea ≥ 0 and bounds every area seen. It stays (0, 0) until some area is positive. From then on the pair belongs to the first contour of greatest area, with its adjusted angle. |
| Preprocessing.DeskewUsesFirstLargest | ImagePreprocessor.cs:84-101 | The deskew angle is 0 if no contour has positive area. Otherwise it is the adjusted angle of the first largest contour. |
| Preprocessing.FirstLargestUnique | ImagePreprocessor.cs:90 | The strict comparison breaks ties in favour of the earliest contour: no other index qualifies. |
| Preprocessing.DeskewGate | ImagePreprocessor.cs:103-127 | The image is rotated exactly when \|angle\| > 1, and then by that angle. |
| Preprocessing.Rotate | ImagePreprocessor.cs:104-112 | It returns a fresh live handle holding the input warped by the angle at scale 1. The rotation matrix is a fresh temporary disposed exactly once. The same `using` block appears at ImagePreprocessor.cs:184-191. |
| Preprocessing.DeskewImage | ImagePreprocessor.cs:75-128 | It returns a fresh live handle holding DeskewedOf. The binary image, the hierarchy and the contour vector are fresh temporaries, each disposed exactly once. |
| Preprocessing.KeptAnglesFilter | ImagePreprocessor.cs:158 | An angle is kept exactly when it is among the segments and its magnitude is below 30 or above 60. |
| Preprocessing.AllKeptWhenAllPass | ImagePreprocessor.cs:155-163 | When every segment passes the filter, all are kept, in order. |
| Preprocessing.SumKeptAngles | ImagePreprocessor.cs:152-163 | The loop returns the sum and the number of the kept angles. |
| Preprocessing.AverageWithin | ImagePreprocessor.cs:174 | The average of a non-empty sequence of angles lies within any bounds that hold for all of them; ShallowSegmentsNoTurn applies it to the kept angles. |
| Preprocessing.ShallowSegmentsNoTurn | ImagePreprocessor.cs:174-180 | When every kept angle has magnitude at most 45, the chosen rotation is 0. |
| Preprocessing.SnapAngle | ImagePreprocessor.cs:175-180 | The result is 90 exactly when the average is above 45, −90 exactly when it is below −45, and 0 otherwise. |
| Preprocessing.AutoRotateGate | ImagePreprocessor.cs:144-193 | The rotation is always ±90 or 0. The image turns exactly when some segment was kept and the average exceeds 45° in magnitude. |
| Preprocessing.AutoRotateImage | ImagePreprocessor.cs:130-198 | It returns a fresh live handle holding AutoRotatedOf. The edge map is disposed exactly once on each of the four paths. |
| Preprocessing.PreprocessImage | ImagePreprocessor.cs:12-36 | The stages run in order, and a stage switched off passes on the same handle. Every intermediate is fresh and disposed exactly once. The returned handle is never disposed, and the input is unchanged. |
| Preprocessing.StagesKeepChannels | ImagePreprocessor.cs:18-27 | Denoising, sharpening, deskewing and auto-rotation keep the channel count. |
| Preprocessing.PipelineIsSingleChannel | ImagePreprocessor.cs:12-36 | Whatever the input and flags, the pipeline yields a single-channel image. |

## Findings

| source | as written | input that shows it | evidently intended | confidence | as-written member | corrected member |
|---|---|---|---|---|---|---|
| BarcodeReader.cs:110-136 | The constructor computes the absolute stride and passes it in. CalculateLuminance never reads it: both RGB loops and the indexed copy treat the buffer as one contiguous run of pixels. | Format8bppIndexed, width 1, height 2, stride 4, bytes [10,0,0,0,20,0,0,0]: the luminances are [10, 0]. Pixel (1, 0) is taken from row 0's padding. | Pixel (y, x) is read at y·stride + bpp·x, giving [10, 20]. | not executed | RowStride.StrideIgnoredSkewsRows | RowStride.StridedPixel |

`BarcodeReading.ReadBarcode` and `NewLuminanceSource` keep the code's contiguous extraction, so that they model the program as it behaves. `RowStride.StridedLuminance` is the corrected extraction, and `RowStride.StridedPixel` proves pixel location for it. `RowStride.UnpaddedAgrees` and `BarcodeReading.UnpaddedBitmapReadsRows` show that the two agree whenever rows carry no padding.

## Left out

- OpenCV and ZXing internals are left out; they are foreign code. The OpenCV results (`CvtColor`, `FastNlMeansDenoising`, `GaussianBlur`, `AddWeighted` with saturation, `Threshold` with Otsu, `Canny`, `WarpAffine`) are symbolic terms, not pixels.
- The ZXing decoder is a parameter, so its options (`AutoRotate`, `TryInverted`, `TryHarder`, the `PossibleFormats` list) only appear through `BarcodeFormat`.
- `LockBits`, `Marshal.Copy` and `UnlockBits` are I/O on native memory. The model takes the copied `stride * height` bytes as the bitmap's `pixels`, with the unlock implied.
- The private constructor `BitmapLuminanceSource(byte[], int, int)` and `CreateLuminanceSource` are left out. ZXing calls them for derived sources (crop or rotate), and the constructor's body copies its argument onto itself.
- Exceptions raised inside OpenCV calls, and the handles such a failure would leak, are not modelled. Only the reader's exceptions are: the null check, NotSupported, IndexOutOfRange and the decoder's `Threw`.
- The `HoughLinesP` parameters (rho 1, theta π/180, threshold 100, `minLineLength` of half the image width) are left out. So are each segment's reduction to an angle with `Atan2`, the rotation centre (`Cols / 2f`, `Rows / 2f`) and the output size. These are measurements of pixels, which the model does not hold; the `Detector` supplies their results.
- Preprocessing.LargestContourAngle: the areas and angles are `real`, not IEEE doubles. A NaN area is therefore not modelled.
- Preprocessing.SumKeptAngles: `count` is unbounded, not a 32-bit `int`. More than 2^31 segments cannot occur in practice.
- Preprocessing.PreprocessImage: the parameters' default values (10, true, true) are a C# calling convenience, not modelled.
