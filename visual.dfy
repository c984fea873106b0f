/** The visual checkers: the bitmap comparison of ScreenshotComparator (mean
    squared error on 8-bit samples, similarity, count of differing samples),
    its verdict, and ElementDetector's per-element status and `verify` loop.
    Decoding, resizing and colour conversion are not modelled: an image is
    already the RGB grid the comparison reads, and the two grids compared
    have the same size. */
module Visual {
  import opened Wrappers
  import opened Core
  import Arith

  // ---------------------------------------------------------------------------
  // Images and the per-sample terms

  /** An RGB image as the array the comparison reads: `width * height * 3`
      channel samples, row by row. */
  datatype RgbImage = RgbImage(width: nat, height: nat, samples: seq<nat>)

  predicate WellFormed(img: RgbImage)
  {
    |img.samples| == img.width * img.height * 3
    && forall i :: 0 <= i < |img.samples| ==> img.samples[i] < 256
  }

  /** Two non-empty grids of the same size, as the comparison receives them
      once the second image has been resized and both converted to RGB. */
  predicate Comparable(img1: RgbImage, img2: RgbImage)
  {
    WellFormed(img1) && WellFormed(img2) && img1.width == img2.width && img1.height == img2.height
    && img1.width > 0 && img1.height > 0
  }

  predicate Bytes(s: seq<nat>) { forall i :: 0 <= i < |s| ==> s[i] < 256 }

  /** The squared error of one sample as the source computes it: the
      difference of two `uint8` arrays wraps modulo 256, and so does its
      square. */
  function WrappedSquaredError(x: nat, y: nat): (e: nat)
    ensures e < 256
  {
    var d := (x as int - y as int) % 256;
    (d * d) % 256
  }

  /** The squared error of one sample in exact integer arithmetic. */
  function ExactSquaredError(x: nat, y: nat): (e: nat)
    ensures x < 256 && y < 256 ==> e <= 65025
    ensures e == 0 <==> x == y
  {
    var d := x as int - y as int;
    SquareBound(d);
    d * d
  }

  lemma SquareBound(d: int)
    ensures d * d >= 0
    ensures d * d == 0 <==> d == 0
    ensures -255 <= d <= 255 ==> d * d <= 65025
  {
    var e := Abs(d);
    assert d * d == e * e by {
      if d < 0 {
        assert d * d == (-d) * (-d);
      }
    }
    if e > 0 {
      ProductPositive(e, e);
    }
    if e <= 255 {
      ProductAtMost(e, e, 255);
      ProductAtMost(255, e, 255);
    }
  }

  lemma ProductPositive(x: nat, y: nat)
    requires x > 0 && y > 0
    ensures x * y > 0
  {
  }

  lemma ProductAtMost(x: nat, y: nat, k: nat)
    requires x <= k
    ensures x * y <= k * y
  {
  }

  /** The sum of a per-sample term over two equally long sample arrays. */
  function SumErrors(a: seq<nat>, b: seq<nat>, term: (nat, nat) -> nat): nat
    requires |a| == |b|
  {
    if a == [] then 0
    else SumErrors(a[..|a| - 1], b[..|b| - 1], term) + term(a[|a| - 1], b[|b| - 1])
  }

  function Abs(x: int): nat { if x < 0 then -x else x }

  /** `np.sum(diff_array > tolerance)`: the samples whose absolute
      difference (computed without wrap-around) exceeds the tolerance. */
  function CountDifferent(a: seq<nat>, b: seq<nat>, tolerance: int): (n: nat)
    requires |a| == |b|
    ensures n <= |a|
  {
    if a == [] then 0
    else CountDifferent(a[..|a| - 1], b[..|b| - 1], tolerance)
         + (if Abs(a[|a| - 1] as int - b[|b| - 1] as int) > tolerance then 1 else 0)
  }

  /** `np.mean` of the per-sample terms. */
  function Mse(sum: nat, n: nat): real
    requires n > 0
  {
    sum as real / n as real
  }

  /** `1 - mse / 255 ** 2` */
  function Similarity(mse: real): real
  {
    1.0 - mse / 65025.0
  }

  // ---------------------------------------------------------------------------
  // The comparison

  datatype Differences = Differences(mse: real, differentPixels: nat, totalPixels: nat, percentage: real)

  /** One pass over the samples: the sum of the terms and the count of
      differing samples. */
  method Accumulate(a: seq<nat>, b: seq<nat>, tolerance: int, term: (nat, nat) -> nat)
    returns (sum: nat, count: nat)
    requires |a| == |b|
    ensures sum == SumErrors(a, b, term)
    ensures count == CountDifferent(a, b, tolerance)
  {
    sum, count := 0, 0;
    var i := 0;
    while i < |a|
      invariant 0 <= i <= |a|
      invariant sum == SumErrors(a[..i], b[..i], term)
      invariant count == CountDifferent(a[..i], b[..i], tolerance)
    {
      assert a[..i + 1][..i] == a[..i] && b[..i + 1][..i] == b[..i];
      sum := sum + term(a[i], b[i]);
      if Abs(a[i] as int - b[i] as int) > tolerance {
        count := count + 1;
      }
      i := i + 1;
    }
    assert a[..i] == a && b[..i] == b;
  }

  /** The comparison with a given per-sample term: the mean of the terms,
      the similarity it gives, and the differing-sample count against the
      total `width * height * 3`. */
  method CompareWith(img1: RgbImage, img2: RgbImage, tolerance: int, term: (nat, nat) -> nat)
    returns (similarity: real, d: Differences)
    requires Comparable(img1, img2)
    ensures d.totalPixels == img1.width * img1.height * 3 && d.totalPixels > 0
    ensures d.mse == Mse(SumErrors(img1.samples, img2.samples, term), d.totalPixels)
    ensures similarity == Similarity(d.mse)
    ensures d.differentPixels == CountDifferent(img1.samples, img2.samples, tolerance)
    ensures d.differentPixels <= d.totalPixels
    ensures d.percentage == d.differentPixels as real / d.totalPixels as real * 100.0
  {
    var total := |img1.samples|;
    var sum, count := Accumulate(img1.samples, img2.samples, tolerance, term);
    var mse := Mse(sum, total);
    similarity := Similarity(mse);
    d := Differences(mse, count, total, count as real / total as real * 100.0);
  }

  /** `ScreenshotComparator._compare_images` as written: the squared error
      wraps modulo 256. */
  method CompareImages(img1: RgbImage, img2: RgbImage, tolerance: int)
    returns (similarity: real, d: Differences)
    requires Comparable(img1, img2)
    ensures d.totalPixels == img1.width * img1.height * 3
    ensures d.mse == Mse(SumErrors(img1.samples, img2.samples, WrappedSquaredError), d.totalPixels)
    ensures d.mse <= 255.0 && similarity >= 1.0 - 1.0 / 255.0
    ensures similarity == Similarity(d.mse)
    ensures d.differentPixels == CountDifferent(img1.samples, img2.samples, tolerance)
    ensures d.differentPixels <= d.totalPixels
    ensures d.percentage == d.differentPixels as real / d.totalPixels as real * 100.0
  {
    similarity, d := CompareWith(img1, img2, tolerance, WrappedSquaredError);
    WrappedMseAtMost255(img1.samples, img2.samples);
  }

  /** The comparison with the squared error in exact arithmetic. */
  method CompareImagesExact(img1: RgbImage, img2: RgbImage, tolerance: int)
    returns (similarity: real, d: Differences)
    requires Comparable(img1, img2)
    ensures d.totalPixels == img1.width * img1.height * 3
    ensures d.mse == Mse(SumErrors(img1.samples, img2.samples, ExactSquaredError), d.totalPixels)
    ensures 0.0 <= similarity <= 1.0
    ensures similarity == 1.0 <==> img1.samples == img2.samples
    ensures d.differentPixels == CountDifferent(img1.samples, img2.samples, tolerance)
  {
    similarity, d := CompareWith(img1, img2, tolerance, ExactSquaredError);
    ExactMseBounds(img1.samples, img2.samples);
  }

  // ---------------------------------------------------------------------------
  // What the comparison promises

  lemma {:induction false} WrappedSumBound(a: seq<nat>, b: seq<nat>)
    requires |a| == |b|
    ensures SumErrors(a, b, WrappedSquaredError) <= 255 * |a|
  {
    if a != [] {
      WrappedSumBound(a[..|a| - 1], b[..|b| - 1]);
    }
  }

  /** Every wrapped term is below 256, so the mean is at most 255 and the
      similarity never drops below `1 - 1/255`. */
  lemma WrappedMseAtMost255(a: seq<nat>, b: seq<nat>)
    requires |a| == |b| && |a| > 0
    ensures Mse(SumErrors(a, b, WrappedSquaredError), |a|) <= 255.0
    ensures Similarity(Mse(SumErrors(a, b, WrappedSquaredError), |a|)) >= 1.0 - 1.0 / 255.0
  {
    WrappedSumBound(a, b);
    var s := SumErrors(a, b, WrappedSquaredError);
    Arith.QuotientCompare(s as real, |a| as real, 255.0);
  }

  lemma {:induction false} ExactSumBounds(a: seq<nat>, b: seq<nat>)
    requires |a| == |b| && Bytes(a) && Bytes(b)
    ensures SumErrors(a, b, ExactSquaredError) <= 65025 * |a|
    ensures SumErrors(a, b, ExactSquaredError) == 0 <==> a == b
  {
    if a != [] {
      var a', b' := a[..|a| - 1], b[..|b| - 1];
      ExactSumBounds(a', b');
      assert a == a' + [a[|a| - 1]] && b == b' + [b[|b| - 1]];
    }
  }

  /** In exact arithmetic the mean lies in [0, 65025], so the similarity
      lies in [0, 1], and it is 1 exactly for identical samples. */
  lemma ExactMseBounds(a: seq<nat>, b: seq<nat>)
    requires |a| == |b| && |a| > 0 && Bytes(a) && Bytes(b)
    ensures 0.0 <= Similarity(Mse(SumErrors(a, b, ExactSquaredError), |a|)) <= 1.0
    ensures Similarity(Mse(SumErrors(a, b, ExactSquaredError), |a|)) == 1.0 <==> a == b
  {
    ExactSumBounds(a, b);
    var s := SumErrors(a, b, ExactSquaredError);
    Arith.QuotientCompare(s as real, |a| as real, 65025.0);
    Arith.QuotientCompare(s as real, |a| as real, 0.0);
  }

  lemma {:induction false} IdenticalSums(a: seq<nat>, tolerance: int)
    requires tolerance >= 0
    ensures SumErrors(a, a, WrappedSquaredError) == 0
    ensures CountDifferent(a, a, tolerance) == 0
  {
    if a != [] {
      IdenticalSums(a[..|a| - 1], tolerance);
    }
  }

  /** Identical images: mean squared error 0, similarity 1, no differing
      samples (for a non-negative tolerance). */
  lemma IdenticalImages(img: RgbImage, tolerance: int)
    requires WellFormed(img) && |img.samples| > 0 && tolerance >= 0
    ensures Mse(SumErrors(img.samples, img.samples, WrappedSquaredError), |img.samples|) == 0.0
    ensures Similarity(Mse(SumErrors(img.samples, img.samples, WrappedSquaredError), |img.samples|)) == 1.0
    ensures CountDifferent(img.samples, img.samples, tolerance) == 0
  {
    IdenticalSums(img.samples, tolerance);
  }

  predicate Solid(s: seq<nat>, v: nat) { forall i :: 0 <= i < |s| ==> s[i] == v }

  lemma {:induction false} BlackWhiteSums(a: seq<nat>, b: seq<nat>)
    requires |a| == |b| && Solid(a, 0) && Solid(b, 255)
    ensures SumErrors(a, b, WrappedSquaredError) == |a|
    ensures SumErrors(a, b, ExactSquaredError) == 65025 * |a|
  {
    if a != [] {
      BlackWhiteSums(a[..|a| - 1], b[..|b| - 1]);
      assert WrappedSquaredError(0, 255) == 1;
    }
  }

  /** Solid black against solid white, as the source computes it: each
      wrapped term is `(-255 mod 256)^2 mod 256 = 1`, so the mean is 1 and
      the similarity `1 - 1/65025` clears the default 0.95 threshold. */
  lemma BlackWhiteLooksSimilar(a: seq<nat>, b: seq<nat>)
    requires |a| == |b| && |a| > 0 && Solid(a, 0) && Solid(b, 255)
    ensures Mse(SumErrors(a, b, WrappedSquaredError), |a|) == 1.0
    ensures Similarity(Mse(SumErrors(a, b, WrappedSquaredError), |a|)) >= DefaultThreshold
  {
    BlackWhiteSums(a, b);
    Arith.QuotientCompare(|a| as real, |a| as real, 1.0);
  }

  /** In exact arithmetic the same pair has mean 65025 and similarity 0, so
      it fails every positive threshold. */
  lemma BlackWhiteExactDiffers(a: seq<nat>, b: seq<nat>)
    requires |a| == |b| && |a| > 0 && Solid(a, 0) && Solid(b, 255)
    ensures Mse(SumErrors(a, b, ExactSquaredError), |a|) == 65025.0
    ensures Similarity(Mse(SumErrors(a, b, ExactSquaredError), |a|)) == 0.0
  {
    BlackWhiteSums(a, b);
    Arith.QuotientCompare((65025 * |a|) as real, |a| as real, 65025.0);
  }

  // ---------------------------------------------------------------------------
  // ScreenshotComparator.verify

  const DefaultThreshold: real := 0.95
  const DefaultTolerance: int := 5

  datatype ScreenshotDetails = ScreenshotDetails(similarity: real, differences: Differences, threshold: real)

  /** `ScreenshotComparator.verify`. `referenceGiven`/`screenshotGiven` say
      whether a reference path and a screenshot were passed; `current` is the
      decoded screenshot (or the driver's) or the exception decoding raised;
      `reference` the opened reference image or its exception. Nothing given:
      FAIL. The current image is loaded before the reference path is
      checked, so its exception wins over a missing reference. Otherwise the
      images are compared, and the verdict is PASS exactly when the
      similarity reaches the threshold. The similarity printed in the
      message is not modelled. */
  method ScreenshotVerify(referenceGiven: bool, screenshotGiven: bool,
                          current: Outcome<RgbImage>, reference: Outcome<RgbImage>,
                          threshold: real, tolerance: int)
    returns (r: VerificationResult<ScreenshotDetails>)
    requires current.Ok? && reference.Ok? ==> Comparable(reference.value, current.value)
    ensures r.checkName == "ScreenshotComparator" && r.durationMs == None
    ensures !referenceGiven && !screenshotGiven ==>
              r.status == Fail && r.message == "No reference image or current screenshot provided"
              && r.details == None
    ensures (referenceGiven || screenshotGiven) && current.Raised? ==>
              r.status == Fail && r.message == "Screenshot comparison failed: " + current.error
    ensures screenshotGiven && !referenceGiven && current.Ok? ==>
              r.status == Fail && r.message == "No reference image provided"
    ensures referenceGiven && current.Ok? && reference.Raised? ==>
              r.status == Fail && r.message == "Screenshot comparison failed: " + reference.error
    ensures referenceGiven && current.Ok? && reference.Ok? ==>
              r.details.Some? && r.details.value.threshold == threshold
              && r.details.value.similarity == Similarity(r.details.value.differences.mse)
              && r.details.value.differences.mse
                 == Mse(SumErrors(reference.value.samples, current.value.samples, WrappedSquaredError),
                        |reference.value.samples|)
              && r.details.value.differences.totalPixels == reference.value.width * reference.value.height * 3
              && r.details.value.differences.differentPixels
                 == CountDifferent(reference.value.samples, current.value.samples, tolerance)
              && r.details.value.differences.percentage
                 == r.details.value.differences.differentPixels as real
                    / r.details.value.differences.totalPixels as real * 100.0
              && (r.status == Pass <==> r.details.value.similarity >= threshold)
    ensures r.status == Pass || r.status == Fail
  {
    if !referenceGiven && !screenshotGiven {
      return VerificationResult("ScreenshotComparator", Fail,
                                "No reference image or current screenshot provided", None, None);
    }
    if current.Raised? {
      return VerificationResult("ScreenshotComparator", Fail,
                                "Screenshot comparison failed: " + current.error, None, None);
    }
    if !referenceGiven {
      return VerificationResult("ScreenshotComparator", Fail, "No reference image provided", None, None);
    }
    if reference.Raised? {
      return VerificationResult("ScreenshotComparator", Fail,
                                "Screenshot comparison failed: " + reference.error, None, None);
    }
    var similarity, differences := CompareImages(reference.value, current.value, tolerance);
    var status := if similarity >= threshold then Pass else Fail;
    var message := if similarity >= threshold then "Screenshot matches reference"
                   else "Screenshot differs from reference";
    r := VerificationResult("ScreenshotComparator", status, message,
                            Some(ScreenshotDetails(similarity, differences, threshold)), None);
  }

  // ---------------------------------------------------------------------------
  // ElementDetector

  /** An element spec: its selector (a spec without one makes the check
      raise), the expected text, and the expected visibility (`True` unless
      the spec says otherwise; None skips the check). */
  datatype DetectionSpec = DetectionSpec(selector: Option<string>, expectedText: Option<string>,
                                         expectedVisible: Option<bool>)

  /** What the check reads from a found element. */
  datatype ElementState = ElementState(displayed: bool, enabled: bool, text: string, tagName: string)

  datatype DetectionStatus =
    | Found
    | VisibilityMismatch
    | TextMismatch
    | NotFound(error: string)
    | Error(error: string)

  datatype Detection = Detection(selector: string, status: DetectionStatus, state: Option<ElementState>)

  /** `ElementDetector._check_element` (and the error entry its `verify`
      writes when the spec has no selector): not found when the lookup
      raised; otherwise `found`, overwritten by a visibility mismatch and
      then by a text mismatch (an empty expected text is not checked). */
  function Detect(spec: DetectionSpec, lookup: Outcome<ElementState>): (d: Detection)
    ensures d.status == Found <==>
              spec.selector.Some? && lookup.Ok?
              && (spec.expectedVisible.None? || lookup.value.displayed == spec.expectedVisible.value)
              && (spec.expectedText.None? || spec.expectedText.value == "" || lookup.value.text == spec.expectedText.value)
  {
    if spec.selector.None? then Detection("unknown", Error("'selector'"), None)
    else if lookup.Raised? then Detection(spec.selector.value, NotFound(lookup.error), None)
    else
      var st := lookup.value;
      var textWrong := spec.expectedText.Some? && spec.expectedText.value != "" && st.text != spec.expectedText.value;
      var visibilityWrong := spec.expectedVisible.Some? && st.displayed != spec.expectedVisible.value;
      Detection(spec.selector.value,
                if textWrong then TextMismatch else if visibilityWrong then VisibilityMismatch else Found,
                Some(st))
  }

  /** The imperative check: the status starts as `found` and each failed
      expectation overwrites it, the text check last. */
  method CheckElement(spec: DetectionSpec, lookup: Outcome<ElementState>) returns (d: Detection)
    ensures d == Detect(spec, lookup)
  {
    if spec.selector.None? {
      return Detection("unknown", Error("'selector'"), None);
    }
    if lookup.Raised? {
      return Detection(spec.selector.value, NotFound(lookup.error), None);
    }
    var st := lookup.value;
    var status := Found;
    if spec.expectedVisible.Some? && st.displayed != spec.expectedVisible.value {
      status := VisibilityMismatch;
    }
    if spec.expectedText.Some? && spec.expectedText.value != "" && st.text != spec.expectedText.value {
      status := TextMismatch;
    }
    d := Detection(spec.selector.value, status, Some(st));
  }

  /** When both expectations fail, the text mismatch is the one reported. */
  lemma TextMismatchWins(spec: DetectionSpec, st: ElementState)
    requires spec.selector.Some?
    requires spec.expectedVisible.Some? && st.displayed != spec.expectedVisible.value
    requires spec.expectedText.Some? && spec.expectedText.value != "" && st.text != spec.expectedText.value
    ensures Detect(spec, Ok(st)).status == TextMismatch
  {
  }

  predicate IsFound(d: Detection) { d.status == Found }

  /** `ElementDetector.verify`: WARNING with no specs; otherwise every spec
      is checked in order, PASS exactly when every element was found, and
      the message counts the found ones. */
  method DetectorVerify(checks: seq<(DetectionSpec, Outcome<ElementState>)>)
    returns (r: VerificationResult<seq<Detection>>)
    ensures checks == [] ==>
              r == VerificationResult("ElementDetector", Warning, "No elements specified for detection", None, None)
    ensures checks != [] ==>
              r.checkName == "ElementDetector" && r.details.Some? && |r.details.value| == |checks|
              && (forall i :: 0 <= i < |checks| ==> r.details.value[i] == Detect(checks[i].0, checks[i].1))
              && (r.status == Pass <==> forall i :: 0 <= i < |checks| ==> IsFound(r.details.value[i]))
              && (r.status == Pass || r.status == Fail)
              && r.message == CountMessage("Element detection: ", CountWhere(r.details.value, IsFound),
                                           |checks|, " elements found")
  {
    if checks == [] {
      return VerificationResult("ElementDetector", Warning, "No elements specified for detection", None, None);
    }
    var results: seq<Detection> := [];
    var i := 0;
    while i < |checks|
      invariant 0 <= i <= |checks|
      invariant |results| == i
      invariant forall k :: 0 <= k < i ==> results[k] == Detect(checks[k].0, checks[k].1)
    {
      var d := CheckElement(checks[i].0, checks[i].1);
      results := results + [d];
      i := i + 1;
    }
    r := Conclude("ElementDetector", "Element detection: ", " elements found", results, IsFound);
  }
}
