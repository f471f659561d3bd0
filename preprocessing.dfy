/**
 * ImagePreprocessor: grey conversion, denoising, optional sharpening,
 * deskewing and optional rotation to the nearest quarter turn, each stage
 * producing a fresh Mat, and the pipeline releasing every intermediate
 * handle it owns.
 */
module Preprocessing {
  import opened Wrappers
  import opened OpenCv

  // ---------------------------------------------------------------------
  // Constants of the stages.

  const MaxDenoiseStrength: int := 30
  const TemplateWindowSize: nat := 7
  const SearchWindowSize: nat := 21
  const SharpenSigma: real := 3.0
  const SharpenAlpha: real := 1.5
  const SharpenBeta: real := -0.5
  const BinaryMaxValue: real := 255.0
  const CannyThreshold1: real := 50.0
  const CannyThreshold2: real := 150.0
  /** Rotations of at most this many degrees are not worth applying. */
  const RotateThreshold: real := 1.0

  // ---------------------------------------------------------------------
  // What each stage makes of its input's pixels.

  /** The strength DenoiseImage passes on: Math.Max(0, Math.Min(30, strength)). */
  function ClampStrength(strength: int): (h: int)
    ensures 0 <= h <= MaxDenoiseStrength
    ensures 0 <= strength <= MaxDenoiseStrength ==> h == strength
    ensures strength < 0 ==> h == 0
    ensures strength > MaxDenoiseStrength ==> h == MaxDenoiseStrength
  {
    Max(0, Min(MaxDenoiseStrength, strength))
  }

  lemma {:induction false} ClampIdempotent(strength: int)
    ensures ClampStrength(ClampStrength(strength)) == ClampStrength(strength)
  {
  }

  /** A single-channel image is copied as it is; any other is converted from BGR. */
  function GrayscaleOf(img: Image): Image
  {
    if Channels(img) == 1 then img else Bgr2Gray(img)
  }

  function DenoisedOf(img: Image, strength: int): Image
  {
    NlMeansDenoised(img, ClampStrength(strength), TemplateWindowSize, SearchWindowSize)
  }

  /** Unsharp masking: 1.5 * img - 0.5 * blur(img). */
  function SharpenedOf(img: Image): Image
  {
    Weighted(img, SharpenAlpha, GaussianBlurred(img, SharpenSigma), SharpenBeta, 0.0)
  }

  /** The angle DeskewImage takes from a rectangle, +90 degrees when it is taller than wide. */
  function RectAngle(r: RotatedRect): real
  {
    if r.width < r.height then r.angle + 90.0 else r.angle
  }

  /** The (maxArea, maxAngle) pair after the deskew loop has seen the first n contours. */
  datatype Largest = Largest(area: real, angle: real)

  function ScanContours(contours: seq<Contour>, n: nat): Largest
    requires n <= |contours|
  {
    if n == 0 then Largest(0.0, 0.0)
    else
      var best := ScanContours(contours, n - 1);
      var c := contours[n - 1];
      if c.area > best.area then Largest(c.area, RectAngle(c.rect)) else best
  }

  function DeskewAngle(contours: seq<Contour>): real
  {
    ScanContours(contours, |contours|).angle
  }

  /**
   * Contour i is the one the deskew loop settles on among the first n: it has
   * positive area, strictly more than every contour before it, and at least
   * as much as every contour after it.
   */
  predicate FirstLargestIn(contours: seq<Contour>, n: nat, i: int)
    requires n <= |contours|
  {
    0 <= i < n && contours[i].area > 0.0
    && (forall j :: 0 <= j < i ==> contours[j].area < contours[i].area)
    && (forall j :: i < j < n ==> contours[j].area <= contours[i].area)
  }

  /** DeskewImage's rotation in degrees, or the image itself when the angle is within the threshold. */
  function DeskewedOf(img: Image, detector: Detector): Image
  {
    var angle := DeskewAngle(detector.contours(OtsuBinary(img, BinaryMaxValue)));
    if Abs(angle) > RotateThreshold then Warped(img, angle, 1.0) else img
  }

  /**
   * The vote's filter on a segment angle in degrees: its magnitude is below 30
   * or above 60, so near-diagonal angles (30 to 60 degrees in magnitude) are dropped.
   */
  predicate Kept(angle: real)
  {
    Abs(angle) < 30.0 || Abs(angle) > 60.0
  }

  /** The kept angles in order. */
  function KeptAngles(angles: seq<real>): (kept: seq<real>)
    ensures |kept| <= |angles|
  {
    if |angles| == 0 then []
    else
      var last := angles[|angles| - 1];
      KeptAngles(angles[..|angles| - 1]) + (if Kept(last) then [last] else [])
  }

  function Sum(s: seq<real>): real
  {
    if |s| == 0 then 0.0 else Sum(s[..|s| - 1]) + s[|s| - 1]
  }

  /** The rotation chosen for an average angle: a quarter turn towards it beyond 45 degrees, otherwise none. */
  function SnapAngle(average: real): (rotation: real)
    ensures rotation == 90.0 <==> average > 45.0
    ensures rotation == -90.0 <==> average < -45.0
    ensures rotation == 0.0 <==> Abs(average) <= 45.0
  {
    if Abs(average) > 45.0 then (if average > 0.0 then 90.0 else -90.0) else 0.0
  }

  /** AutoRotateImage's rotation for the given segment angles: 0 with no kept segment. */
  function RotationAngle(angles: seq<real>): real
  {
    var kept := KeptAngles(angles);
    if |kept| == 0 then 0.0 else SnapAngle(Sum(kept) / (|kept| as real))
  }

  function AutoRotatedOf(img: Image, detector: Detector): Image
  {
    var rotation := RotationAngle(detector.segmentAngles(CannyEdges(img, CannyThreshold1, CannyThreshold2)));
    if Abs(rotation) > RotateThreshold then Warped(img, rotation, 1.0) else img
  }

  // ---------------------------------------------------------------------
  // Properties of the stages.

  /** Whatever its input, the grey stage gives a single-channel image, and applying it again changes nothing. */
  lemma {:induction false} GrayscaleIsSingleChannel(img: Image)
    ensures Channels(GrayscaleOf(img)) == 1
    ensures GrayscaleOf(GrayscaleOf(img)) == GrayscaleOf(img)
  {
  }

  /**
   * The deskew loop's state after n contours: maxArea bounds every area seen
   * and is 0, with angle 0, until some contour has positive area; from then
   * on the pair is that of the first largest contour so far.
   */
  lemma {:induction false} ScanFindsFirstLargest(contours: seq<Contour>, n: nat)
    requires n <= |contours|
    ensures 0.0 <= ScanContours(contours, n).area
    ensures forall j :: 0 <= j < n ==> contours[j].area <= ScanContours(contours, n).area
    ensures ScanContours(contours, n).area == 0.0 ==> ScanContours(contours, n) == Largest(0.0, 0.0)
    ensures ScanContours(contours, n).area > 0.0 ==>
      exists i :: FirstLargestIn(contours, n, i)
        && ScanContours(contours, n) == Largest(contours[i].area, RectAngle(contours[i].rect))
  {
    if n > 0 {
      ScanFindsFirstLargest(contours, n - 1);
      var best := ScanContours(contours, n - 1);
      if contours[n - 1].area > best.area {
        TakesLead(contours, n, best.area);
      } else if best.area > 0.0 {
        var i :| FirstLargestIn(contours, n - 1, i)
          && best == Largest(contours[i].area, RectAngle(contours[i].rect));
        KeepsLead(contours, n, i);
      }
    }
  }

  /** A contour larger than every one before it, and than 0, is the first largest so far. */
  lemma {:induction false} TakesLead(contours: seq<Contour>, n: nat, bound: real)
    requires 0 < n <= |contours|
    requires forall j :: 0 <= j < n - 1 ==> contours[j].area <= bound
    requires 0.0 <= bound < contours[n - 1].area
    ensures FirstLargestIn(contours, n, n - 1)
  {
  }

  /** A contour no larger than the first largest so far leaves it in the lead. */
  lemma {:induction false} KeepsLead(contours: seq<Contour>, n: nat, i: int)
    requires 0 < n <= |contours| && FirstLargestIn(contours, n - 1, i)
    requires contours[n - 1].area <= contours[i].area
    ensures FirstLargestIn(contours, n, i)
  {
  }

  /**
   * The deskew angle is 0 when no contour has positive area; otherwise it is
   * the adjusted angle of the first contour of greatest area.
   */
  lemma {:induction false} DeskewUsesFirstLargest(contours: seq<Contour>)
    ensures (forall j :: 0 <= j < |contours| ==> contours[j].area <= 0.0) ==> DeskewAngle(contours) == 0.0
    ensures (exists j :: 0 <= j < |contours| && contours[j].area > 0.0) ==>
      exists i :: FirstLargestIn(contours, |contours|, i) && DeskewAngle(contours) == RectAngle(contours[i].rect)
  {
    ScanFindsFirstLargest(contours, |contours|);
  }

  /** No other contour is the first largest: ties go to the earliest. */
  lemma {:induction false} FirstLargestUnique(contours: seq<Contour>, n: nat, i: nat, k: nat)
    requires n <= |contours| && FirstLargestIn(contours, n, i) && k < n && k != i
    ensures !FirstLargestIn(contours, n, k)
  {
    if k < i {
      assert contours[k].area < contours[i].area;
    } else {
      assert contours[k].area <= contours[i].area;
    }
  }

  /** A rotation is applied exactly when the angle exceeds the threshold, by exactly that angle. */
  lemma {:induction false} DeskewGate(img: Image, detector: Detector)
    ensures var angle := DeskewAngle(detector.contours(OtsuBinary(img, BinaryMaxValue)));
      (DeskewedOf(img, detector) == img <==> Abs(angle) <= RotateThreshold)
      && (DeskewedOf(img, detector) != img ==> DeskewedOf(img, detector) == Warped(img, angle, 1.0))
  {
    var angle := DeskewAngle(detector.contours(OtsuBinary(img, BinaryMaxValue)));
    if Abs(angle) > RotateThreshold {
      NotItsOwnRotation(img, angle);
    }
  }

  lemma {:induction false} NotItsOwnRotation(img: Image, angle: real)
    ensures Warped(img, angle, 1.0) != img
  {
    assert img < Warped(img, angle, 1.0);
  }

  /** An angle is among the kept ones exactly when it is among the input and passes the filter. */
  lemma {:induction false} KeptAnglesFilter(angles: seq<real>, x: real)
    ensures x in KeptAngles(angles) <==> x in angles && Kept(x)
  {
    if |angles| > 0 {
      var front := angles[..|angles| - 1];
      KeptAnglesFilter(front, x);
      assert angles == front + [angles[|angles| - 1]];
    }
  }

  /** Every angle passing the filter is kept, so none is dropped. */
  lemma {:induction false} AllKeptWhenAllPass(angles: seq<real>)
    requires forall k :: 0 <= k < |angles| ==> Kept(angles[k])
    ensures KeptAngles(angles) == angles
  {
    if |angles| > 0 {
      var front := angles[..|angles| - 1];
      AllKeptWhenAllPass(front);
      assert angles == front + [angles[|angles| - 1]];
    }
  }

  lemma {:induction false} SumBounds(s: seq<real>, lo: real, hi: real)
    requires forall k :: 0 <= k < |s| ==> lo <= s[k] <= hi
    ensures lo * (|s| as real) <= Sum(s) <= hi * (|s| as real)
  {
    if |s| > 0 {
      SumBounds(s[..|s| - 1], lo, hi);
      assert lo * (|s| as real) == lo * ((|s| - 1) as real) + lo;
      assert hi * (|s| as real) == hi * ((|s| - 1) as real) + hi;
    }
  }

  /** The average of the kept angles lies within any bounds on them. */
  lemma {:induction false} AverageWithin(kept: seq<real>, lo: real, hi: real)
    requires |kept| > 0
    requires forall k :: 0 <= k < |kept| ==> lo <= kept[k] <= hi
    ensures lo <= Sum(kept) / (|kept| as real) <= hi
  {
    SumBounds(kept, lo, hi);
    var n := |kept| as real;
    assert Sum(kept) / n * n == Sum(kept);
  }

  /** When every kept angle is within 45 degrees of 0, their average is too, and no turn is chosen. */
  lemma {:induction false} ShallowSegmentsNoTurn(angles: seq<real>)
    requires forall k :: 0 <= k < |KeptAngles(angles)| ==> Abs(KeptAngles(angles)[k]) <= 45.0
    ensures RotationAngle(angles) == 0.0
  {
    var kept := KeptAngles(angles);
    if |kept| > 0 {
      AverageWithin(kept, -45.0, 45.0);
    }
  }

  /**
   * The auto-rotation is always a quarter turn or nothing, and it turns the image
   * exactly when some segment was kept and their average is beyond 45 degrees.
   */
  lemma {:induction false} AutoRotateGate(img: Image, detector: Detector)
    ensures var angles := detector.segmentAngles(CannyEdges(img, CannyThreshold1, CannyThreshold2));
      var kept := KeptAngles(angles);
      var rotation := RotationAngle(angles);
      (rotation == 90.0 || rotation == 0.0 || rotation == -90.0)
      && (AutoRotatedOf(img, detector) != img <==> |kept| > 0 && Abs(Sum(kept) / (|kept| as real)) > 45.0)
      && (AutoRotatedOf(img, detector) != img ==> AutoRotatedOf(img, detector) == Warped(img, rotation, 1.0))
  {
    var angles := detector.segmentAngles(CannyEdges(img, CannyThreshold1, CannyThreshold2));
    var rotation := RotationAngle(angles);
    if Abs(rotation) > RotateThreshold {
      NotItsOwnRotation(img, rotation);
    }
  }

  // ---------------------------------------------------------------------
  // The stages on handles.

  method ConvertToGrayscale(inputImage: Mat) returns (grayImage: Mat)
    requires inputImage.Live()
    ensures fresh(grayImage) && grayImage.Live()
    ensures grayImage.image == GrayscaleOf(inputImage.image)
  {
    grayImage := new Mat();
    if Channels(inputImage.image) == 1 {
      inputImage.CopyTo(grayImage);
    } else {
      CvtColorBgr2Gray(inputImage, grayImage);
    }
  }

  method DenoiseImage(grayImage: Mat, strength: int) returns (denoisedImage: Mat)
    requires grayImage.Live()
    ensures fresh(denoisedImage) && denoisedImage.Live()
    ensures denoisedImage.image == DenoisedOf(grayImage.image, strength)
  {
    denoisedImage := new Mat();
    var h := Max(0, Min(MaxDenoiseStrength, strength));
    FastNlMeansDenoising(grayImage, denoisedImage, h, TemplateWindowSize, SearchWindowSize);
  }

  /** The blurred copy is a temporary, disposed once before returning. */
  method SharpenImage(inputImage: Mat) returns (sharpenedImage: Mat, ghost blurred: Mat)
    requires inputImage.Live()
    ensures fresh(sharpenedImage) && sharpenedImage.Live()
    ensures sharpenedImage.image == SharpenedOf(inputImage.image)
    ensures fresh(blurred) && blurred != sharpenedImage && blurred.disposals == 1
  {
    sharpenedImage := new Mat();
    var b := new Mat();
    GaussianBlur(inputImage, b, SharpenSigma);
    AddWeighted(inputImage, SharpenAlpha, b, SharpenBeta, 0.0, sharpenedImage);
    b.Dispose();
    blurred := b;
  }

  /** The deskew loop: the angle of the first contour of greatest positive area. */
  method LargestContourAngle(contours: seq<Contour>) returns (maxAngle: real)
    ensures maxAngle == DeskewAngle(contours)
  {
    maxAngle := 0.0;
    var maxArea := 0.0;
    for i := 0 to |contours|
      invariant ScanContours(contours, i) == Largest(maxArea, maxAngle)
    {
      var area := contours[i].area;
      if area > maxArea {
        maxArea := area;
        var rect := contours[i].rect;
        maxAngle := rect.angle;
        if rect.width < rect.height {
          maxAngle := maxAngle + 90.0;
        }
      }
    }
  }

  /** A fresh handle holding src turned by angle about its centre; the matrix is disposed on leaving its scope. */
  method Rotate(src: Mat, angle: real) returns (rotated: Mat, ghost rotationMatrix: Mat)
    requires src.Live()
    ensures fresh(rotated) && rotated.Live() && rotated.image == Warped(src.image, angle, 1.0)
    ensures fresh(rotationMatrix) && rotationMatrix != rotated && rotationMatrix.disposals == 1
  {
    rotated := new Mat();
    var m := new Mat();
    GetRotationMatrix2D(angle, 1.0, m);
    WarpAffine(src, rotated, m);
    m.Dispose();
    rotationMatrix := m;
  }

  /**
   * The binary image, the contour vector and the hierarchy are temporaries,
   * disposed once on either path; the rotation matrix is released by Rotate.
   */
  method DeskewImage(grayImage: Mat, detector: Detector)
    returns (result: Mat, ghost binary: Mat, ghost hierarchy: Mat, ghost contourVector: ContourVector)
    requires grayImage.Live()
    ensures fresh(result) && result.Live()
    ensures result.image == DeskewedOf(grayImage.image, detector)
    ensures fresh(binary) && fresh(hierarchy) && fresh(contourVector)
    ensures binary != result && hierarchy != result
    ensures binary.disposals == 1 && hierarchy.disposals == 1 && contourVector.disposals == 1
  {
    var binaryImage := new Mat();
    ThresholdOtsu(grayImage, binaryImage, BinaryMaxValue);
    var contours := new ContourVector();
    var hierarchyImage := new Mat();
    assert hierarchyImage != binaryImage && hierarchyImage != grayImage && binaryImage != grayImage;
    assert contours as object != grayImage as object && contours as object != binaryImage as object;
    assert contours as object != hierarchyImage as object;
    FindContours(binaryImage, contours, hierarchyImage, detector);
    var maxAngle := LargestContourAngle(contours.items);
    binary, hierarchy, contourVector := binaryImage, hierarchyImage, contours;
    if Abs(maxAngle) > RotateThreshold {
      ghost var rotationMatrix;
      result, rotationMatrix := Rotate(grayImage, maxAngle);
      assert result != binaryImage && result != hierarchyImage && result != grayImage;
      assert result as object != contours as object;
      binaryImage.Dispose();
      contours.Dispose();
      hierarchyImage.Dispose();
      return;
    }
    binaryImage.Dispose();
    contours.Dispose();
    hierarchyImage.Dispose();
    result := new Mat();
    assert result != binaryImage && result != hierarchyImage && result != grayImage;
    grayImage.CopyTo(result);
  }

  /** The foreach over the segments: the sum and number of the kept angles. */
  method SumKeptAngles(lines: seq<real>) returns (totalAngle: real, count: nat)
    ensures totalAngle == Sum(KeptAngles(lines)) && count == |KeptAngles(lines)|
  {
    totalAngle, count := 0.0, 0;
    for i := 0 to |lines|
      invariant totalAngle == Sum(KeptAngles(lines[..i])) && count == |KeptAngles(lines[..i])|
    {
      var angle := lines[i];
      KeptStep(lines, i);
      if Abs(angle) < 30.0 || Abs(angle) > 60.0 {
        totalAngle := totalAngle + angle;
        count := count + 1;
      }
    }
    assert lines[..|lines|] == lines;
  }

  /** One more segment: the kept angles grow by it exactly when it passes the filter. */
  lemma {:induction false} KeptStep(lines: seq<real>, i: nat)
    requires i < |lines|
    ensures KeptAngles(lines[..i + 1])
         == KeptAngles(lines[..i]) + (if Kept(lines[i]) then [lines[i]] else [])
    ensures Sum(KeptAngles(lines[..i + 1]))
         == Sum(KeptAngles(lines[..i])) + (if Kept(lines[i]) then lines[i] else 0.0)
  {
    assert lines[..i + 1][..i] == lines[..i];
    var kept := KeptAngles(lines[..i]);
    if Kept(lines[i]) {
      assert (kept + [lines[i]])[..|kept|] == kept;
    } else {
      assert kept + [] == kept;
    }
  }

  /** The edge map is a temporary, disposed once on every path; the rotation matrix is released by Rotate. */
  method AutoRotateImage(grayImage: Mat, detector: Detector) returns (result: Mat, ghost edges: Mat)
    requires grayImage.Live()
    ensures fresh(result) && result.Live()
    ensures result.image == AutoRotatedOf(grayImage.image, detector)
    ensures fresh(edges) && edges != result && edges.disposals == 1
  {
    var edgesImage := new Mat();
    Canny(grayImage, edgesImage, CannyThreshold1, CannyThreshold2);
    var lines := HoughLinesP(edgesImage, detector);
    edges := edgesImage;
    if |lines| == 0 {
      edgesImage.Dispose();
      result := new Mat();
      grayImage.CopyTo(result);
      return;
    }
    var totalAngle, count := SumKeptAngles(lines);
    edgesImage.Dispose();
    if count == 0 {
      result := new Mat();
      grayImage.CopyTo(result);
      return;
    }
    var avgAngle := totalAngle / (count as real);
    var rotationAngle := 0.0;
    if Abs(avgAngle) > 45.0 {
      rotationAngle := if avgAngle > 0.0 then 90.0 else -90.0;
    }
    if Abs(rotationAngle) > RotateThreshold {
      ghost var rotationMatrix;
      result, rotationMatrix := Rotate(grayImage, rotationAngle);
      return;
    }
    result := new Mat();
    grayImage.CopyTo(result);
  }

  /**
   * PreprocessImage. The stages run in order; a stage switched off passes its
   * input on as the same handle. Every intermediate handle the pipeline owns
   * is disposed exactly once, the returned one never, and the input is left
   * alone.
   */
  method PreprocessImage(inputImage: Mat, denoiseStrength: int, sharpen: bool, autoRotate: bool, detector: Detector)
    returns (finalImage: Mat, ghost gray: Mat, ghost denoised: Mat, ghost sharpened: Mat, ghost deskewed: Mat)
    requires inputImage.Live()
    ensures gray.image == GrayscaleOf(old(inputImage.image))
    ensures denoised.image == DenoisedOf(gray.image, denoiseStrength)
    ensures sharpened.image == if sharpen then SharpenedOf(denoised.image) else denoised.image
    ensures deskewed.image == DeskewedOf(sharpened.image, detector)
    ensures finalImage.image == if autoRotate then AutoRotatedOf(deskewed.image, detector) else deskewed.image
    ensures fresh(gray) && fresh(denoised) && fresh(sharpened) && fresh(deskewed) && fresh(finalImage)
    ensures gray != denoised && gray != sharpened && gray != deskewed && gray != finalImage
    ensures denoised != deskewed && denoised != finalImage && sharpened != deskewed && sharpened != finalImage
    ensures (sharpened == denoised) == !sharpen
    ensures (finalImage == deskewed) == !autoRotate
    ensures gray.disposals == 1 && denoised.disposals == 1 && sharpened.disposals == 1
    ensures deskewed.disposals == (if autoRotate then 1 else 0)
    ensures finalImage.disposals == 0
    ensures unchanged(inputImage)
  {
    var grayImage := ConvertToGrayscale(inputImage);
    assert grayImage != inputImage;
    var denoisedImage := DenoiseImage(grayImage, denoiseStrength);
    assert denoisedImage != grayImage && denoisedImage != inputImage;
    var sharpenedImage;
    if sharpen {
      ghost var blurred;
      sharpenedImage, blurred := SharpenImage(denoisedImage);
      assert sharpenedImage != grayImage && sharpenedImage != denoisedImage && sharpenedImage != inputImage;
    } else {
      sharpenedImage := denoisedImage;
    }
    ghost var binary, hierarchy, contourVector;
    var deskewedImage;
    deskewedImage, binary, hierarchy, contourVector := DeskewImage(sharpenedImage, detector);
    assert deskewedImage != grayImage && deskewedImage != denoisedImage && deskewedImage != sharpenedImage;
    assert deskewedImage != inputImage;
    if autoRotate {
      ghost var edges;
      finalImage, edges := AutoRotateImage(deskewedImage, detector);
      assert finalImage != grayImage && finalImage != denoisedImage && finalImage != sharpenedImage;
      assert finalImage != deskewedImage;
    } else {
      finalImage := deskewedImage;
    }

    grayImage.Dispose();
    denoisedImage.Dispose();
    if sharpenedImage != denoisedImage {
      sharpenedImage.Dispose();
    }
    if deskewedImage != finalImage {
      deskewedImage.Dispose();
    }
    gray, denoised, sharpened, deskewed := grayImage, denoisedImage, sharpenedImage, deskewedImage;
  }

  /** Every stage after the grey one keeps its input's channel count. */
  lemma {:induction false} StagesKeepChannels(img: Image, strength: int, detector: Detector)
    ensures Channels(DenoisedOf(img, strength)) == Channels(img)
    ensures Channels(SharpenedOf(img)) == Channels(img)
    ensures Channels(DeskewedOf(img, detector)) == Channels(img)
    ensures Channels(AutoRotatedOf(img, detector)) == Channels(img)
  {
  }

  /** Whatever its input and flags, the pipeline yields a single-channel image. */
  lemma {:induction false} PipelineIsSingleChannel(input: Image, strength: int, sharpen: bool, autoRotate: bool, detector: Detector)
    ensures var gray := GrayscaleOf(input);
      var denoised := DenoisedOf(gray, strength);
      var sharpened := if sharpen then SharpenedOf(denoised) else denoised;
      var deskewed := DeskewedOf(sharpened, detector);
      Channels(if autoRotate then AutoRotatedOf(deskewed, detector) else deskewed) == 1
  {
    var gray := GrayscaleOf(input);
    GrayscaleIsSingleChannel(input);
    StagesKeepChannels(gray, strength, detector);
    var denoised := DenoisedOf(gray, strength);
    StagesKeepChannels(denoised, strength, detector);
    var sharpened := if sharpen then SharpenedOf(denoised) else denoised;
    StagesKeepChannels(sharpened, strength, detector);
    StagesKeepChannels(DeskewedOf(sharpened, detector), strength, detector);
  }
}
