/** The verdict of a quality analysis: the two threshold tiers that pick
    the level, the penalty score, the ordered list of reasons, and the
    whole `analyzeFromImageData` pass that measures the pixels and judges
    them. Global and per-crop analyses differ only in whether resolution
    data comes along. */
module QualityAnalysis {
  import opened Types
  import opened ImageAnalysis

  const GLOBAL_MAX_SIDE: real := 1024.0
  const SLIDE_SAMPLE_SIZE: int := 256

  // ------------------------------------------------------------ metrics

  /** How far a crop is enlarged to reach the 1080-pixel export. */
  datatype Resolution = Resolution(sourceCropPixels: real, upsampleRatio: real)

  /** Every number the analysis reports besides level, score and reasons. */
  datatype Metrics = Metrics(
    overexposedPct: real,
    clippedHighlightsPct: real,
    underexposedPct: real,
    p5: int,
    p95: int,
    dynamicRangeNorm: real,
    laplacianVariance: real,
    resolution: Option<Resolution>)

  datatype Level = Ok | Warning | Critical

  /** One bound per check; which side of it trips is fixed per check. */
  datatype Thresholds = Thresholds(over: real, clipped: real, under: real, range: real, sharpness: real, upsample: real)

  const CRITICAL: Thresholds := Thresholds(12.0, 6.0, 15.0, 0.2, 70.0, 1.4)
  const WARNING: Thresholds := Thresholds(4.0, 2.0, 6.0, 0.3, 120.0, 1.15)

  /** The six checks, in the order their reasons are listed. */
  datatype Check = Overexposure | Clipping | Shadows | Contrast | Sharpness | Upscaling

  const CHECKS: seq<Check> := [Overexposure, Clipping, Shadows, Contrast, Sharpness, Upscaling]

  function Rank(c: Check): nat
  {
    match c
    case Overexposure => 0
    case Clipping => 1
    case Shadows => 2
    case Contrast => 3
    case Sharpness => 4
    case Upscaling => 5
  }

  /** Whether check `c` trips under thresholds `t`. The upscaling check
      needs resolution data. */
  predicate Trips(c: Check, m: Metrics, t: Thresholds)
  {
    match c
    case Overexposure => m.overexposedPct >= t.over
    case Clipping => m.clippedHighlightsPct >= t.clipped
    case Shadows => m.underexposedPct >= t.under
    case Contrast => m.dynamicRangeNorm < t.range
    case Sharpness => m.laplacianVariance < t.sharpness
    case Upscaling => m.resolution.Some? && m.resolution.value.upsampleRatio > t.upsample
  }

  /** Some check of the tier trips. */
  predicate Tripped(m: Metrics, t: Thresholds)
  {
    Trips(Overexposure, m, t) || Trips(Clipping, m, t) || Trips(Shadows, m, t)
    || Trips(Contrast, m, t) || Trips(Sharpness, m, t) || Trips(Upscaling, m, t)
  }

  /** Each critical threshold is stricter than its warning counterpart. */
  lemma CriticalImpliesWarning(c: Check, m: Metrics)
    ensures Trips(c, m, CRITICAL) ==> Trips(c, m, WARNING)
  {
  }

  // -------------------------------------------------------------- level

  /** The level: critical when a critical threshold trips, else warning
      when a warning threshold trips, else ok. */
  function LevelOf(m: Metrics): (l: Level)
    ensures l == Critical <==> Tripped(m, CRITICAL)
    ensures l == Warning <==> !Tripped(m, CRITICAL) && Tripped(m, WARNING)
    ensures l == Ok <==> !Tripped(m, WARNING)
  {
    var upsample := if m.resolution.Some? then m.resolution.value.upsampleRatio else 0.0;
    var critical :=
      m.overexposedPct >= 12.0 || m.clippedHighlightsPct >= 6.0 || m.underexposedPct >= 15.0
      || m.dynamicRangeNorm < 0.2 || m.laplacianVariance < 70.0
      || (m.resolution.Some? && upsample > 1.4);
    var warning :=
      m.overexposedPct >= 4.0 || m.clippedHighlightsPct >= 2.0 || m.underexposedPct >= 6.0
      || m.dynamicRangeNorm < 0.3 || m.laplacianVariance < 120.0
      || (m.resolution.Some? && upsample > 1.15);
    if critical then Critical else if warning then Warning else Ok
  }

  /** The thresholds `buildReasons` uses for a level. */
  function ThresholdsFor(level: Level): Thresholds
  {
    if level == Critical then CRITICAL else WARNING
  }

  // -------------------------------------------------------------- score

  function ExposurePenalty(m: Metrics): (p: real)
    ensures p <= 35.0
    ensures m.overexposedPct >= 0.0 && m.clippedHighlightsPct >= 0.0 && m.underexposedPct >= 0.0 ==> p >= 0.0
  {
    Min(35.0, m.overexposedPct * 2.0 + m.clippedHighlightsPct * 3.0 + m.underexposedPct * 1.2)
  }

  function ContrastPenalty(m: Metrics): (p: real)
    ensures 0.0 <= p <= 20.0
    ensures p == 0.0 <==> m.dynamicRangeNorm >= 0.3
  {
    if m.dynamicRangeNorm < 0.3 then Min(20.0, (0.3 - m.dynamicRangeNorm) * 100.0) else 0.0
  }

  function SharpnessPenalty(m: Metrics): (p: real)
    ensures 0.0 <= p <= 30.0
    ensures p == 0.0 <==> m.laplacianVariance >= 120.0
  {
    if m.laplacianVariance < 120.0 then Min(30.0, (120.0 - m.laplacianVariance) / 2.0) else 0.0
  }

  /** Only an enlarged crop is penalised; without resolution data there
      is no penalty. */
  function ResolutionPenalty(m: Metrics): (p: real)
    ensures 0.0 <= p <= 15.0
    ensures p == 0.0 <==> m.resolution == None || m.resolution.value.upsampleRatio <= 1.0
  {
    if m.resolution.Some? && m.resolution.value.upsampleRatio > 1.0
    then Min(15.0, (m.resolution.value.upsampleRatio - 1.0) * 30.0)
    else 0.0
  }

  /** 100 less the penalties, clamped to `[0, 100]` and rounded. */
  function Score(m: Metrics): (s: int)
    ensures 0 <= s <= 100
  {
    var penalty := ExposurePenalty(m) + ContrastPenalty(m) + SharpnessPenalty(m) + ResolutionPenalty(m);
    Round(Clamp(100.0 - penalty, 0.0, 100.0))
  }

  /** No clipping, enough contrast and edges, and no enlargement score 100. */
  lemma CleanImageScoresFull(m: Metrics)
    requires m.overexposedPct == 0.0 && m.clippedHighlightsPct == 0.0 && m.underexposedPct == 0.0
    requires m.dynamicRangeNorm >= 0.3 && m.laplacianVariance >= 120.0
    requires m.resolution == None || m.resolution.value.upsampleRatio <= 1.0
    ensures Score(m) == 100
  {
  }

  /** Every image judged ok scores at least 74: below the warning tier
      the penalties add up to less than 25.7. */
  lemma OkScoresAtLeast74(m: Metrics)
    requires m.overexposedPct >= 0.0 && m.clippedHighlightsPct >= 0.0 && m.underexposedPct >= 0.0
    requires LevelOf(m) == Ok
    ensures Score(m) >= 74
  {
    assert ExposurePenalty(m) < 21.2;
    assert ResolutionPenalty(m) <= 4.5;
  }

  // ------------------------------------------------------------ reasons

  /** The reason strings as tags: each carries the number its text shows. */
  datatype Reason =
    | HighOverexposure(pct: real)
    | ClippedHighlights(pct: real)
    | DeepShadows(pct: real)
    | LowContrast(range: real)
    | LowSharpness(edgeVariance: real)
    | UpscaledCrop(ratio: real)
    | NoIssues

  function ReasonOf(c: Check, m: Metrics): Reason
  {
    match c
    case Overexposure => HighOverexposure(m.overexposedPct)
    case Clipping => ClippedHighlights(m.clippedHighlightsPct)
    case Shadows => DeepShadows(m.underexposedPct)
    case Contrast => LowContrast(m.dynamicRangeNorm)
    case Sharpness => LowSharpness(m.laplacianVariance)
    case Upscaling => UpscaledCrop(if m.resolution.Some? then m.resolution.value.upsampleRatio else 0.0)
  }

  /** The check a reason reports, `NoIssues` ranking after all of them. */
  function ReasonRank(r: Reason): nat
  {
    match r
    case HighOverexposure(_) => 0
    case ClippedHighlights(_) => 1
    case DeepShadows(_) => 2
    case LowContrast(_) => 3
    case LowSharpness(_) => 4
    case UpscaledCrop(_) => 5
    case NoIssues => 6
  }

  /** The check a reason reports. */
  function CheckOf(x: Reason): Check
    requires !x.NoIssues?
  {
    match x
    case HighOverexposure(_) => Overexposure
    case ClippedHighlights(_) => Clipping
    case DeepShadows(_) => Shadows
    case LowContrast(_) => Contrast
    case LowSharpness(_) => Sharpness
    case UpscaledCrop(_) => Upscaling
  }

  /** The reason for check `c` when it trips, else nothing. */
  function Flag(c: Check, m: Metrics, t: Thresholds): seq<Reason>
  {
    if Trips(c, m, t) then [ReasonOf(c, m)] else []
  }

  /** The reasons of the first `n` checks, in check order. */
  function ReasonsUpTo(m: Metrics, t: Thresholds, n: nat): seq<Reason>
    requires n <= |CHECKS|
  {
    if n == 0 then [] else ReasonsUpTo(m, t, n - 1) + Flag(CHECKS[n - 1], m, t)
  }

  /** A reason tag names its check and ranks as that check. */
  lemma ReasonOfTags(c: Check, m: Metrics)
    ensures !ReasonOf(c, m).NoIssues? && CheckOf(ReasonOf(c, m)) == c && ReasonRank(ReasonOf(c, m)) == Rank(c)
    ensures Rank(c) < |CHECKS| && CHECKS[Rank(c)] == c
  {
  }

  /** Every reason of the first `n` checks belongs to one of them that
      tripped, and ranks as that check. */
  lemma {:induction false} ReasonsUpToSound(m: Metrics, t: Thresholds, n: nat)
    requires n <= |CHECKS|
    ensures forall x :: x in ReasonsUpTo(m, t, n) ==>
      && !x.NoIssues? && Rank(CheckOf(x)) < n && Trips(CheckOf(x), m, t)
      && x == ReasonOf(CheckOf(x), m) && ReasonRank(x) == Rank(CheckOf(x))
  {
    if n > 0 {
      ReasonsUpToSound(m, t, n - 1);
      var c := CHECKS[n - 1];
      ReasonOfTags(c, m);
      assert ReasonsUpTo(m, t, n) == ReasonsUpTo(m, t, n - 1) + Flag(c, m, t);
    }
  }

  /** Every tripped check among the first `n` contributes its reason. */
  lemma {:induction false} ReasonsUpToComplete(m: Metrics, t: Thresholds, n: nat)
    requires n <= |CHECKS|
    ensures forall c :: Rank(c) < n && Trips(c, m, t) ==> ReasonOf(c, m) in ReasonsUpTo(m, t, n)
  {
    if n > 0 {
      ReasonsUpToComplete(m, t, n - 1);
      var r := ReasonsUpTo(m, t, n);
      assert r == ReasonsUpTo(m, t, n - 1) + Flag(CHECKS[n - 1], m, t);
      forall c | Rank(c) < n && Trips(c, m, t)
        ensures ReasonOf(c, m) in r
      {
        ReasonOfTags(c, m);
        if Rank(c) < n - 1 {
          assert ReasonOf(c, m) in ReasonsUpTo(m, t, n - 1);
        } else {
          assert Flag(CHECKS[n - 1], m, t) == [ReasonOf(c, m)];
        }
      }
    }
  }

  /** The reasons of the first `n` checks come in strictly increasing
      rank, so none repeats. */
  lemma {:induction false} ReasonsUpToIncreasing(m: Metrics, t: Thresholds, n: nat)
    requires n <= |CHECKS|
    ensures forall i, j :: 0 <= i < j < |ReasonsUpTo(m, t, n)| ==>
      ReasonRank(ReasonsUpTo(m, t, n)[i]) < ReasonRank(ReasonsUpTo(m, t, n)[j])
  {
    if n > 0 {
      ReasonsUpToIncreasing(m, t, n - 1);
      ReasonsUpToSound(m, t, n - 1);
      var c := CHECKS[n - 1];
      ReasonOfTags(c, m);
      var before := ReasonsUpTo(m, t, n - 1);
      var r := ReasonsUpTo(m, t, n);
      assert r == before + Flag(c, m, t);
      forall i, j | 0 <= i < j < |r|
        ensures ReasonRank(r[i]) < ReasonRank(r[j])
      {
        assert r[i] == before[i];
        if j >= |before| {
          assert before[i] in before;
          assert r[j] == ReasonOf(c, m);
        } else {
          assert r[j] == before[j];
        }
      }
    }
  }

  /** The reasons under thresholds `t`: exactly the tripped checks, each
      once, in the fixed order over, clipped, shadows, contrast,
      sharpness, resolution. */
  function ReasonsFor(m: Metrics, t: Thresholds): (r: seq<Reason>)
    ensures forall c :: ReasonOf(c, m) in r <==> Trips(c, m, t)
    ensures forall x :: x in r ==> !x.NoIssues? && Trips(CheckOf(x), m, t) && x == ReasonOf(CheckOf(x), m)
    ensures forall i, j :: 0 <= i < j < |r| ==> ReasonRank(r[i]) < ReasonRank(r[j])
  {
    ReasonsUpToSound(m, t, |CHECKS|);
    ReasonsUpToComplete(m, t, |CHECKS|);
    ReasonsUpToIncreasing(m, t, |CHECKS|);
    ReasonsUpTo(m, t, |CHECKS|)
  }

  /** A tier that trips lists at least one reason. */
  lemma TrippedHasReason(m: Metrics, t: Thresholds)
    requires Tripped(m, t)
    ensures |ReasonsFor(m, t)| >= 1 && NoIssues !in ReasonsFor(m, t)
  {
    var r := ReasonsFor(m, t);
    if Trips(Overexposure, m, t) {
      assert ReasonOf(Overexposure, m) in r;
    } else if Trips(Clipping, m, t) {
      assert ReasonOf(Clipping, m) in r;
    } else if Trips(Shadows, m, t) {
      assert ReasonOf(Shadows, m) in r;
    } else if Trips(Contrast, m, t) {
      assert ReasonOf(Contrast, m) in r;
    } else if Trips(Sharpness, m, t) {
      assert ReasonOf(Sharpness, m) in r;
    } else {
      assert ReasonOf(Upscaling, m) in r;
    }
  }

  /** `buildReasons`: one push per tripped check, under the thresholds of
      the level. */
  method BuildReasons(m: Metrics, level: Level) returns (reasons: seq<Reason>)
    ensures reasons == ReasonsFor(m, ThresholdsFor(level))
  {
    var isCritical := level == Critical;
    var overThreshold := if isCritical then 12.0 else 4.0;
    var clippedThreshold := if isCritical then 6.0 else 2.0;
    var underThreshold := if isCritical then 15.0 else 6.0;
    var rangeThreshold := if isCritical then 0.2 else 0.3;
    var sharpnessThreshold := if isCritical then 70.0 else 120.0;
    var resolutionThreshold := if isCritical then 1.4 else 1.15;
    ghost var t := ThresholdsFor(level);

    reasons := [];
    if m.overexposedPct >= overThreshold {
      reasons := reasons + [HighOverexposure(m.overexposedPct)];
    }
    assert reasons == ReasonsUpTo(m, t, 1);
    if m.clippedHighlightsPct >= clippedThreshold {
      reasons := reasons + [ClippedHighlights(m.clippedHighlightsPct)];
    }
    assert reasons == ReasonsUpTo(m, t, 2);
    if m.underexposedPct >= underThreshold {
      reasons := reasons + [DeepShadows(m.underexposedPct)];
    }
    assert reasons == ReasonsUpTo(m, t, 3);
    if m.dynamicRangeNorm < rangeThreshold {
      reasons := reasons + [LowContrast(m.dynamicRangeNorm)];
    }
    assert reasons == ReasonsUpTo(m, t, 4);
    if m.laplacianVariance < sharpnessThreshold {
      reasons := reasons + [LowSharpness(m.laplacianVariance)];
    }
    assert reasons == ReasonsUpTo(m, t, 5);
    if m.resolution.Some? && m.resolution.value.upsampleRatio > resolutionThreshold {
      reasons := reasons + [UpscaledCrop(m.resolution.value.upsampleRatio)];
    }
    assert reasons == ReasonsUpTo(m, t, 6);
  }

  // ----------------------------------------------------------- analysis

  /** The result of one analysis. */
  datatype Analysis = Analysis(level: Level, score: int, reasons: seq<Reason>, metrics: Metrics)

  /** Level, score and reasons for measured metrics. */
  function Assess(m: Metrics): (a: Analysis)
    ensures a.metrics == m && a.level == LevelOf(m)
    ensures 0 <= a.score <= 100
    ensures a.level == Ok <==> a.reasons == [NoIssues]
    ensures a.level != Ok ==> |a.reasons| >= 1 && a.reasons == ReasonsFor(m, ThresholdsFor(a.level))
  {
    var level := LevelOf(m);
    if level == Ok then Analysis(level, Score(m), [NoIssues], m)
    else
      TrippedHasReason(m, ThresholdsFor(level));
      Analysis(level, Score(m), ReasonsFor(m, ThresholdsFor(level)), m)
  }

  /** `count / total * 100`. */
  function Pct(n: int, total: int): (p: real)
    requires total > 0
    ensures 0 <= n <= total ==> 0.0 <= p <= 100.0
    ensures n == total ==> p == 100.0
    ensures n == 0 ==> p == 0.0
  {
    n as real / total as real * 100.0
  }

  /** The metrics of a `w x h` image, whose pixels come row by row. */
  function Measure(ps: seq<Pixel>, w: int, h: int, resolution: Option<Resolution>): (m: Metrics)
    requires w >= 1 && h >= 1 && |ps| == w * h
    ensures 0.0 <= m.overexposedPct <= 100.0
    ensures 0.0 <= m.clippedHighlightsPct <= 100.0
    ensures 0.0 <= m.underexposedPct <= 100.0
    ensures 0 <= m.p5 <= m.p95 <= 255
    ensures 0.0 <= m.dynamicRangeNorm <= 1.0
    ensures m.laplacianVariance >= 0.0
    ensures m.resolution == resolution
  {
    var total := w * h;
    var hist := Histogram(ps);
    var p5 := Quantile(hist, total as real * 0.05);
    var p95 := Quantile(hist, total as real * 0.95);
    QuantileFromMonotone(hist, total as real * 0.05, total as real * 0.95, 0);
    Metrics(
      Pct(Count(ps, Overexposed), total),
      Pct(Count(ps, ClippedHighlight), total),
      Pct(Count(ps, Underexposed), total),
      p5, p95, (p95 - p5) as real / 255.0,
      LaplacianVariance(Grayscale(ps), w, h),
      resolution)
  }

  function Analyze(ps: seq<Pixel>, w: int, h: int, resolution: Option<Resolution>): (a: Analysis)
    requires w >= 1 && h >= 1 && |ps| == w * h
    ensures a.metrics == Measure(ps, w, h, resolution)
    ensures 0 <= a.score <= 100
  {
    Assess(Measure(ps, w, h, resolution))
  }

  /** The pixel loop of `analyzeFromImageData`: fills the histogram and
      the grayscale plane and counts the exposure tests. */
  method ScanPixels(pixels: seq<Pixel>)
    returns (histogram: array<int>, grayscale: array<real>,
             overexposed: int, clippedHighlights: int, underexposed: int)
    ensures fresh(histogram) && fresh(grayscale)
    ensures histogram[..] == Histogram(pixels)
    ensures grayscale[..] == Grayscale(pixels)
    ensures overexposed == Count(pixels, Overexposed)
    ensures clippedHighlights == Count(pixels, ClippedHighlight)
    ensures underexposed == Count(pixels, Underexposed)
  {
    histogram := new int[256](_ => 0);
    assert histogram[..] == Histogram([]);
    grayscale := new real[|pixels|](_ => 0.0);
    overexposed, clippedHighlights, underexposed := 0, 0, 0;
    for i := 0 to |pixels|
      invariant histogram[..] == Histogram(pixels[..i])
      invariant forall k :: 0 <= k < i ==> grayscale[k] == Luma(pixels[k])
      invariant overexposed == Count(pixels[..i], Overexposed)
      invariant clippedHighlights == Count(pixels[..i], ClippedHighlight)
      invariant underexposed == Count(pixels[..i], Underexposed)
    {
      overexposed, clippedHighlights, underexposed :=
        ScanPixel(pixels, i, histogram, grayscale, overexposed, clippedHighlights, underexposed);
    }
    assert pixels[..|pixels|] == pixels;
  }

  /** The body of the pixel loop for pixel `i`: its luma goes into the
      grayscale plane and its bin, and each exposure test it passes adds
      one to its counter. */
  method ScanPixel(pixels: seq<Pixel>, i: int, histogram: array<int>, grayscale: array<real>,
                   overexposed0: int, clippedHighlights0: int, underexposed0: int)
    returns (overexposed: int, clippedHighlights: int, underexposed: int)
    requires 0 <= i < |pixels| && grayscale.Length == |pixels|
    requires histogram[..] == Histogram(pixels[..i])
    requires overexposed0 == Count(pixels[..i], Overexposed)
    requires clippedHighlights0 == Count(pixels[..i], ClippedHighlight)
    requires underexposed0 == Count(pixels[..i], Underexposed)
    modifies histogram, grayscale
    ensures histogram[..] == Histogram(pixels[..i + 1])
    ensures grayscale[..] == old(grayscale[..])[i := Luma(pixels[i])]
    ensures overexposed == Count(pixels[..i + 1], Overexposed)
    ensures clippedHighlights == Count(pixels[..i + 1], ClippedHighlight)
    ensures underexposed == Count(pixels[..i + 1], Underexposed)
  {
    var p := pixels[i];
    var luminance := LUMA_R * p.r as real + LUMA_G * p.g as real + LUMA_B * p.b as real;
    assert luminance == Luma(pixels[i]);
    var bin := Round(Clamp(luminance, 0.0, 255.0));
    AddToHistogram(histogram, pixels, i, bin);
    grayscale[i] := luminance;
    CountStep(pixels, i, Overexposed);
    overexposed := CountIf(overexposed0, luminance >= 245.0);
    CountStep(pixels, i, ClippedHighlight);
    clippedHighlights := CountIf(clippedHighlights0, p.r >= 250 || p.g >= 250 || p.b >= 250);
    CountStep(pixels, i, Underexposed);
    underexposed := CountIf(underexposed0, luminance <= 15.0);
  }

  /** `if (hit) n++`. */
  method CountIf(n: int, hit: bool) returns (n': int)
    ensures n' == n + (if hit then 1 else 0)
  {
    n' := n;
    if hit {
      n' := n' + 1;
    }
  }

  /** `histogram[bin]++` for pixel `i`, whose luma falls in `bin`. */
  method AddToHistogram(histogram: array<int>, ghost ps: seq<Pixel>, ghost i: int, bin: int)
    requires 0 <= i < |ps| && bin == Bin(Luma(ps[i])) && histogram[..] == Histogram(ps[..i])
    modifies histogram
    ensures histogram[..] == Histogram(ps[..i + 1])
  {
    HistogramStep(ps, i, bin);
    histogram[bin] := histogram[bin] + 1;
  }

  /** One more pixel adds one to its own bin and nothing elsewhere. */
  lemma HistogramStep(ps: seq<Pixel>, i: int, bin: int)
    requires 0 <= i < |ps| && bin == Bin(Luma(ps[i]))
    ensures Histogram(ps[..i + 1]) == Histogram(ps[..i])[bin := Histogram(ps[..i])[bin] + 1]
  {
    forall b | 0 <= b < 256
      ensures Histogram(ps[..i + 1])[b] == Histogram(ps[..i])[b] + (if b == bin then 1 else 0)
    {
      CountStep(ps, i, InBin(b));
    }
  }

  /** `analyzeFromImageData` on a `width x height` image. */
  method AnalyzeFromImageData(pixels: seq<Pixel>, width: int, height: int, resolution: Option<Resolution>)
    returns (a: Analysis)
    requires width >= 1 && height >= 1 && |pixels| == width * height
    ensures a == Analyze(pixels, width, height, resolution)
  {
    var totalPixels := width * height;
    var histogram, grayscale, overexposed, clippedHighlights, underexposed := ScanPixels(pixels);

    var overexposedPct := Pct(overexposed, totalPixels);
    var clippedHighlightsPct := Pct(clippedHighlights, totalPixels);
    var underexposedPct := Pct(underexposed, totalPixels);

    var p5 := QuantileFromHistogram(histogram, totalPixels, 0.05);
    var p95 := QuantileFromHistogram(histogram, totalPixels, 0.95);
    var dynamicRangeNorm := (p95 - p5) as real / 255.0;
    var laplacianVariance := ComputeLaplacianVariance(grayscale, width, height);

    var m := Metrics(overexposedPct, clippedHighlightsPct, underexposedPct,
                     p5, p95, dynamicRangeNorm, laplacianVariance, resolution);
    assert m == Measure(pixels, width, height, resolution);
    var level := LevelOf(m);
    var score := Score(m);
    var reasons: seq<Reason>;
    if level == Ok {
      reasons := [NoIssues];
    } else {
      reasons := BuildReasons(m, level);
    }
    a := Analysis(level, score, reasons, m);
  }

  // ------------------------------------------------- global and per crop

  datatype SampleSize = SampleSize(width: int, height: int)

  /** `Math.min(1, 1024 / Math.max(nw, nh))`; for a 0 x 0 image the ratio
      is `Infinity` and the scale 1. */
  function GlobalScale(nw: nat, nh: nat): (scale: real)
    ensures 0.0 < scale <= 1.0
    ensures nw as real * scale <= GLOBAL_MAX_SIDE && nh as real * scale <= GLOBAL_MAX_SIDE
    ensures nw as real <= GLOBAL_MAX_SIDE && nh as real <= GLOBAL_MAX_SIDE ==> scale == 1.0
  {
    if nw == 0 && nh == 0 then 1.0
    else if nw >= nh then
      RatioAtLeastOne(GLOBAL_MAX_SIDE, nw as real);
      Min(1.0, GLOBAL_MAX_SIDE / nw as real)
    else
      RatioAtLeastOne(GLOBAL_MAX_SIDE, nh as real);
      Min(1.0, GLOBAL_MAX_SIDE / nh as real)
  }

  /** The sample of the global analysis: the image shrunk so that its
      longer side is at most 1024, each side at least 1. */
  function GlobalSample(nw: nat, nh: nat): (s: SampleSize)
    ensures 1 <= s.width <= 1024 && 1 <= s.height <= 1024
    ensures 1 <= nw && 1 <= nh && nw as real <= GLOBAL_MAX_SIDE && nh as real <= GLOBAL_MAX_SIDE
            ==> s == SampleSize(nw, nh)
  {
    var scale := GlobalScale(nw, nh);
    var w := Round(nw as real * scale);
    var h := Round(nh as real * scale);
    SampleSize(if w < 1 then 1 else w, if h < 1 then 1 else h)
  }

  /** `analyzeGlobalQuality` on its sample: no resolution data, so no
      resolution penalty and no upscaling reason. */
  function GlobalAnalysis(ps: seq<Pixel>, w: int, h: int): (a: Analysis)
    requires w >= 1 && h >= 1 && |ps| == w * h
    ensures a.metrics.resolution == None && ResolutionPenalty(a.metrics) == 0.0
    ensures forall x :: x in a.reasons ==> !x.UpscaledCrop?
  {
    Analyze(ps, w, h, None)
  }

  /** The resolution data of a crop: its side in natural pixels and the
      enlargement to the 1080-pixel export. */
  function CropResolution(sq: Square, scaleFactor: real): (r: Resolution)
    requires sq.size * scaleFactor > 0.0
    ensures r.sourceCropPixels == sq.size * scaleFactor
    ensures r.upsampleRatio * r.sourceCropPixels == EXPORT_SIZE
  {
    var cropSize := sq.size * scaleFactor;
    Resolution(cropSize, EXPORT_SIZE / cropSize)
  }

  /** `analyzeSquareQuality` on its 256 x 256 sample of the crop. */
  function SquareAnalysis(ps: seq<Pixel>, sq: Square, scaleFactor: real): (a: Analysis)
    requires |ps| == SLIDE_SAMPLE_SIZE * SLIDE_SAMPLE_SIZE && sq.size * scaleFactor > 0.0
    ensures a.metrics.resolution == Some(CropResolution(sq, scaleFactor))
  {
    Analyze(ps, SLIDE_SAMPLE_SIZE, SLIDE_SAMPLE_SIZE, Some(CropResolution(sq, scaleFactor)))
  }

  /** Enlargement above 1.4 is critical whatever the pixels. */
  lemma UpsampleForcesCritical(m: Metrics)
    requires m.resolution.Some? && m.resolution.value.upsampleRatio > 1.4
    ensures LevelOf(m) == Critical
    ensures UpscaledCrop(m.resolution.value.upsampleRatio) in Assess(m).reasons
  {
    assert Trips(Upscaling, m, CRITICAL);
    assert ReasonOf(Upscaling, m) in ReasonsFor(m, CRITICAL);
  }

  /** A crop is enlarged more than 1.4 times exactly when it is narrower
      than 1080 / 1.4 natural pixels. */
  lemma UpsampleCriticalIffSmall(sq: Square, scaleFactor: real)
    requires sq.size * scaleFactor > 0.0
    ensures CropResolution(sq, scaleFactor).upsampleRatio > 1.4 <==> sq.size * scaleFactor * 1.4 < EXPORT_SIZE
  {
    var r := CropResolution(sq, scaleFactor);
    var c := r.sourceCropPixels;
    if r.upsampleRatio > 1.4 {
      assert r.upsampleRatio * c > 1.4 * c;
    } else {
      assert r.upsampleRatio * c <= 1.4 * c;
    }
  }

  /** Crops narrower than 1080 / 1.4 natural pixels are always critical. */
  lemma SmallCropCritical(ps: seq<Pixel>, sq: Square, scaleFactor: real)
    requires |ps| == SLIDE_SAMPLE_SIZE * SLIDE_SAMPLE_SIZE
    requires sq.size * scaleFactor > 0.0 && sq.size * scaleFactor * 1.4 < EXPORT_SIZE
    ensures SquareAnalysis(ps, sq, scaleFactor).level == Critical
  {
    UpsampleCriticalIffSmall(sq, scaleFactor);
    UpsampleForcesCritical(SquareAnalysis(ps, sq, scaleFactor).metrics);
  }

  // ----------------------------------------------- the documented images

  /** An all-white image is critical: every pixel is overexposed. */
  lemma UniformWhiteCritical(ps: seq<Pixel>, w: int, h: int, resolution: Option<Resolution>)
    requires w >= 1 && h >= 1 && |ps| == w * h
    requires forall k :: 0 <= k < |ps| ==> ps[k] == Gray(255)
    ensures Measure(ps, w, h, resolution).overexposedPct == 100.0
    ensures Analyze(ps, w, h, resolution).level == Critical
  {
    LumaRange(Gray(255));
    CountAll(ps, Overexposed);
  }

  /** An all-black image is critical: every pixel is in deep shadow. */
  lemma UniformBlackCritical(ps: seq<Pixel>, w: int, h: int, resolution: Option<Resolution>)
    requires w >= 1 && h >= 1 && |ps| == w * h
    requires forall k :: 0 <= k < |ps| ==> ps[k] == Gray(0)
    ensures Measure(ps, w, h, resolution).underexposedPct == 100.0
    ensures Analyze(ps, w, h, resolution).level == Critical
  {
    LumaRange(Gray(0));
    CountAll(ps, Underexposed);
  }

  /** An image of one gray tone has no dynamic range at all (both
      quantiles fall in its one bin), so it is critical, never ok. */
  lemma UniformGrayNoContrast(ps: seq<Pixel>, w: int, h: int, v: Channel, resolution: Option<Resolution>)
    requires w >= 1 && h >= 1 && |ps| == w * h
    requires forall k :: 0 <= k < |ps| ==> ps[k] == Gray(v)
    ensures Measure(ps, w, h, resolution).p5 == v == Measure(ps, w, h, resolution).p95
    ensures Measure(ps, w, h, resolution).dynamicRangeNorm == 0.0
    ensures Analyze(ps, w, h, resolution).level == Critical
  {
    PositiveProduct(w, h);
    UniformHistogram(ps, v);
    var total := w * h;
    QuantileOfSpike(Histogram(ps), v, total, total as real * 0.05);
    QuantileOfSpike(Histogram(ps), v, total, total as real * 0.95);
    assert Trips(Contrast, Measure(ps, w, h, resolution), CRITICAL);
  }

  /** A two-tone checkerboard has a larger Laplacian variance than any
      flat image of the same size. */
  lemma CheckerboardSharper(detailed: seq<Pixel>, flat: seq<Pixel>, w: int, h: int,
                            a: Channel, b: Channel, c: Channel)
    requires PixelCheckerboard(detailed, w, h, a, b) && a != b && w >= 4 && w % 2 == 0 && h >= 3
    requires |flat| == w * h && forall k :: 0 <= k < |flat| ==> flat[k] == Gray(c)
    ensures Measure(detailed, w, h, None).laplacianVariance > Measure(flat, w, h, None).laplacianVariance
  {
    CheckerboardSharperThanFlat(detailed, flat, w, h, a, b, c);
  }
}
