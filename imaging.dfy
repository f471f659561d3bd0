/**
 * The OpenCV layer the preprocessor calls into, reduced to what it does to
 * handles. An image's pixels are a term recording the operations that
 * produced them; a Mat is a handle holding such a term and counting how many
 * times it has been disposed. The measurements the preprocessor takes from
 * an image (contours, line segments) come from a Detector supplied from
 * outside.
 */
module OpenCv {

  /** Pixel contents, as the sequence of library operations that produced them. */
  datatype Image =
    | Blank
    | Picture(id: nat, channels: nat)
    | Bgr2Gray(src: Image)
    | NlMeansDenoised(src: Image, h: int, templateWindowSize: nat, searchWindowSize: nat)
    | GaussianBlurred(src: Image, sigmaX: real)
    | Weighted(src1: Image, alpha: real, src2: Image, beta: real, gamma: real)
    | OtsuBinary(src: Image, maxValue: real)
    | ContourHierarchy(src: Image)
    | CannyEdges(src: Image, threshold1: real, threshold2: real)
    | RotationMatrix(angle: real, scale: real)
    | Warped(src: Image, angle: real, scale: real)

  /**
   * The channel count of a non-empty result: colour conversion to grey and
   * the detectors give one channel, filters keep their source's count.
   */
  function Channels(img: Image): nat
  {
    match img
    case Blank => 0
    case Picture(_, c) => c
    case Bgr2Gray(_) => 1
    case NlMeansDenoised(src, _, _, _) => Channels(src)
    case GaussianBlurred(src, _) => Channels(src)
    case Weighted(src1, _, _, _, _) => Channels(src1)
    case OtsuBinary(_, _) => 1
    case ContourHierarchy(_) => 4
    case CannyEdges(_, _, _) => 1
    case RotationMatrix(_, _) => 1
    case Warped(src, _, _) => Channels(src)
  }

  /** MinAreaRect of a contour: its angle in degrees and its size. */
  datatype RotatedRect = RotatedRect(angle: real, width: real, height: real)

  /** One contour, as ContourArea and MinAreaRect measure it. */
  datatype Contour = Contour(area: real, rect: RotatedRect)

  /**
   * FindContours on an image, and the angle in degrees (Atan2 of the end
   * points) of each segment HoughLinesP finds in an edge map.
   */
  datatype Detector = Detector(contours: Image -> seq<Contour>, segmentAngles: Image -> seq<real>)

  /** A Mat handle: what it holds and how often Dispose was called on it. */
  class Mat {
    var image: Image
    var disposals: nat

    /** new Mat(): an empty, live handle. */
    constructor ()
      ensures image == Blank && disposals == 0
    {
      image := Blank;
      disposals := 0;
    }

    /** A live handle on an image from outside the preprocessor. */
    constructor Holding(img: Image)
      ensures image == img && disposals == 0
    {
      image := img;
      disposals := 0;
    }

    predicate Live()
      reads this
    {
      disposals == 0
    }

    method Dispose()
      modifies this
      ensures image == old(image) && disposals == old(disposals) + 1
    {
      disposals := disposals + 1;
    }

    method CopyTo(dst: Mat)
      requires Live() && dst.Live()
      modifies dst
      ensures dst.image == image && dst.disposals == 0
    {
      dst.image := image;
    }
  }

  /** VectorOfVectorOfPoint: the contours FindContours writes. */
  class ContourVector {
    var items: seq<Contour>
    var disposals: nat

    constructor ()
      ensures items == [] && disposals == 0
    {
      items := [];
      disposals := 0;
    }

    method Dispose()
      modifies this
      ensures items == old(items) && disposals == old(disposals) + 1
    {
      disposals := disposals + 1;
    }
  }

  method CvtColorBgr2Gray(src: Mat, dst: Mat)
    requires src.Live() && dst.Live() && src != dst
    modifies dst
    ensures dst.image == Bgr2Gray(src.image) && dst.disposals == 0
  {
    dst.image := Bgr2Gray(src.image);
  }

  method FastNlMeansDenoising(src: Mat, dst: Mat, h: int, templateWindowSize: nat, searchWindowSize: nat)
    requires src.Live() && dst.Live() && src != dst
    modifies dst
    ensures dst.image == NlMeansDenoised(src.image, h, templateWindowSize, searchWindowSize) && dst.disposals == 0
  {
    dst.image := NlMeansDenoised(src.image, h, templateWindowSize, searchWindowSize);
  }

  /** GaussianBlur with kernel size (0, 0): the kernel follows from sigmaX. */
  method GaussianBlur(src: Mat, dst: Mat, sigmaX: real)
    requires src.Live() && dst.Live() && src != dst
    modifies dst
    ensures dst.image == GaussianBlurred(src.image, sigmaX) && dst.disposals == 0
  {
    dst.image := GaussianBlurred(src.image, sigmaX);
  }

  method AddWeighted(src1: Mat, alpha: real, src2: Mat, beta: real, gamma: real, dst: Mat)
    requires src1.Live() && src2.Live() && dst.Live() && src1 != dst && src2 != dst
    modifies dst
    ensures dst.image == Weighted(src1.image, alpha, src2.image, beta, gamma) && dst.disposals == 0
  {
    dst.image := Weighted(src1.image, alpha, src2.image, beta, gamma);
  }

  /** Threshold with Otsu | Binary: the threshold argument is ignored, Otsu's method picks it. */
  method ThresholdOtsu(src: Mat, dst: Mat, maxValue: real)
    requires src.Live() && dst.Live() && src != dst
    modifies dst
    ensures dst.image == OtsuBinary(src.image, maxValue) && dst.disposals == 0
  {
    dst.image := OtsuBinary(src.image, maxValue);
  }

  /** FindContours with RetrType.External and ChainApproxSimple. */
  method FindContours(src: Mat, contours: ContourVector, hierarchy: Mat, detector: Detector)
    requires src.Live() && contours.disposals == 0 && hierarchy.Live() && src != hierarchy
    modifies contours, hierarchy
    ensures contours.items == detector.contours(src.image) && contours.disposals == 0
    ensures hierarchy.image == ContourHierarchy(src.image) && hierarchy.disposals == 0
  {
    contours.items := detector.contours(src.image);
    hierarchy.image := ContourHierarchy(src.image);
  }

  method Canny(src: Mat, dst: Mat, threshold1: real, threshold2: real)
    requires src.Live() && dst.Live() && src != dst
    modifies dst
    ensures dst.image == CannyEdges(src.image, threshold1, threshold2) && dst.disposals == 0
  {
    dst.image := CannyEdges(src.image, threshold1, threshold2);
  }

  /** HoughLinesP with the preprocessor's parameters, each segment reduced to its angle in degrees. */
  method HoughLinesP(edges: Mat, detector: Detector) returns (angles: seq<real>)
    requires edges.Live()
    ensures angles == detector.segmentAngles(edges.image)
  {
    angles := detector.segmentAngles(edges.image);
  }

  /** GetRotationMatrix2D about the image centre. */
  method GetRotationMatrix2D(angle: real, scale: real, dst: Mat)
    requires dst.Live()
    modifies dst
    ensures dst.image == RotationMatrix(angle, scale) && dst.disposals == 0
  {
    dst.image := RotationMatrix(angle, scale);
  }

  /** WarpAffine by a rotation matrix, same size, linear interpolation, replicated border. */
  method WarpAffine(src: Mat, dst: Mat, matrix: Mat)
    requires src.Live() && dst.Live() && matrix.Live() && src != dst && matrix != dst
    requires matrix.image.RotationMatrix?
    modifies dst
    ensures dst.image == Warped(src.image, matrix.image.angle, matrix.image.scale) && dst.disposals == 0
  {
    dst.image := Warped(src.image, matrix.image.angle, matrix.image.scale);
  }
}
