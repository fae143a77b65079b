/** The signal path of the heart-rate engine (src/hooks/useRppg.ts): the
    skin-pixel extractor, the moving-average detrend the source calls
    `bandpassFilter`, the zero-crossing heart-rate estimator and the
    variance-based quality score. Sample values are exact reals. */
module RppgSignal {

  /** One byte of RGBA image data. */
  type Byte = x: int | 0 <= x < 256

  /** Engine parameters: samples per second, seconds of history kept, and
      the heart-rate bounds in beats per minute. */
  datatype Config = Config(sampleRate: int, windowSize: int, minHeartRate: int, maxHeartRate: int)

  const DefaultConfig := Config(30, 10, 40, 180)

  predicate ValidConfig(c: Config) {
    c.sampleRate > 0 && c.windowSize > 0 && 0 < c.minHeartRate <= c.maxHeartRate
  }

  function Max(a: int, b: int): int { if a >= b then a else b }
  function Min(a: int, b: int): int { if a <= b then a else b }
  function MaxReal(a: real, b: real): real { if a >= b then a else b }
  function MinReal(a: real, b: real): real { if a <= b then a else b }

  // ---------------------------------------------------------------------
  // Region of interest and skin-pixel extraction
  // ---------------------------------------------------------------------

  /** A pixel rectangle: top-left corner and size. */
  datatype Rect = Rect(x: int, y: int, width: int, height: int)

  /** The region read from each frame: from 30% of the width and 20% of the
      height, 40% of each dimension in size, all rounded down. It always
      lies inside the frame. */
  function RegionOfInterest(frameWidth: nat, frameHeight: nat): (r: Rect)
    ensures 0 <= r.x && 0 <= r.width && r.x + r.width <= frameWidth
    ensures 0 <= r.y && 0 <= r.height && r.y + r.height <= frameHeight
  {
    Rect(3 * frameWidth / 10, 2 * frameHeight / 10, 4 * frameWidth / 10, 4 * frameHeight / 10)
  }

  /** The skin-tone test applied to one pixel's red, green and blue bytes. */
  predicate IsSkin(r: int, g: int, b: int)
    ensures IsSkin(r, g, b) ==> 40 < g && 20 < b < r
    ensures r == b ==> !IsSkin(r, g, b)
  {
    r > 60 && g > 40 && b > 20 && r > b && r - g < 100
  }

  /** Pixel `p` of the RGBA data (bytes 4p, 4p+1, 4p+2) passes the skin test.
      A pixel cut short by the end of the data reads undefined channels,
      which fail every comparison, so it never matches. */
  predicate SkinPixel(data: seq<Byte>, p: nat) {
    4 * p + 2 < |data| && IsSkin(data[4 * p], data[4 * p + 1], data[4 * p + 2])
  }

  /** Number of pixel positions the stride-4 scan visits. */
  function PixelsVisited(data: seq<Byte>): nat {
    (|data| + 3) / 4
  }

  /** Number of skin pixels among the first `k` pixels. */
  function SkinCount(data: seq<Byte>, k: nat): nat {
    if k == 0 then 0 else SkinCount(data, k - 1) + (if SkinPixel(data, k - 1) then 1 else 0)
  }

  /** Sum of the green bytes of the skin pixels among the first `k` pixels. */
  function SkinGreenSum(data: seq<Byte>, k: nat): int {
    if k == 0 then 0
    else SkinGreenSum(data, k - 1) + (if SkinPixel(data, k - 1) then data[4 * (k - 1) + 1] else 0)
  }

  /** The extractor's value for a region: mean green over skin pixels, or 0
      when no pixel matched ("no usable signal this frame"). */
  function MeanSkinGreen(data: seq<Byte>): (m: real)
    ensures m == 0.0 || 40.0 < m <= 255.0
  {
    var k := PixelsVisited(data);
    var count := SkinCount(data, k);
    if count > 0 then
      SkinGreenSumBounds(data, k);
      QuotientBetween(SkinGreenSum(data, k) as real, count as real, 41.0, 255.0);
      SkinGreenSum(data, k) as real / count as real
    else 0.0
  }

  /** Every skin pixel has green above 40 and at most 255, so the green sum
      lies between 41 and 255 times the count. */
  lemma {:induction false} SkinGreenSumBounds(data: seq<Byte>, k: nat)
    ensures 41 * SkinCount(data, k) <= SkinGreenSum(data, k) <= 255 * SkinCount(data, k)
  {
    if k > 0 {
      SkinGreenSumBounds(data, k - 1);
    }
  }

  /** Some of the first `k` pixels is skin exactly when the count is positive. */
  lemma {:induction false} SkinCountPositive(data: seq<Byte>, k: nat)
    ensures SkinCount(data, k) > 0 <==> exists p :: 0 <= p < k && SkinPixel(data, p)
  {
    if k > 0 {
      SkinCountPositive(data, k - 1);
    }
  }

  /** The extractor returns a positive value exactly when some visited pixel
      is skin, and a positive value is a mean green strictly above 40 and at
      most 255. */
  lemma MeanSkinGreenRange(data: seq<Byte>)
    ensures MeanSkinGreen(data) > 0.0 <==> exists p :: 0 <= p < PixelsVisited(data) && SkinPixel(data, p)
    ensures MeanSkinGreen(data) == 0.0 || 40.0 < MeanSkinGreen(data) <= 255.0
  {
    var k := PixelsVisited(data);
    SkinCountPositive(data, k);
    SkinGreenSumBounds(data, k);
    var c := SkinCount(data, k);
    if c > 0 {
      QuotientBetween(SkinGreenSum(data, k) as real, c as real, 41.0, 255.0);
    }
  }

  /** An all-black region (every byte 0) has no skin pixel, so the frame
      is dropped. */
  lemma BlackFrameYieldsNoSample(data: seq<Byte>)
    requires forall i :: 0 <= i < |data| ==> data[i] == 0
    ensures MeanSkinGreen(data) == 0.0
  {
    SkinCountPositive(data, PixelsVisited(data));
  }

  lemma QuotientBetween(s: real, c: real, lo: real, hi: real)
    requires c > 0.0 && lo * c <= s <= hi * c
    ensures lo <= s / c <= hi
  {
    assert (s / c) * c == s;
  }

  /** `extractGreenChannel`: scans the region's RGBA bytes with stride 4,
      accumulating the green sum and count of skin pixels. */
  method ExtractGreenChannel(data: seq<Byte>) returns (mean: real)
    ensures mean == MeanSkinGreen(data)
  {
    var greenSum: int := 0;
    var count: nat := 0;
    var i := 0;
    while i < |data|
      invariant i % 4 == 0 && 0 <= i < |data| + 4
      invariant greenSum == SkinGreenSum(data, i / 4)
      invariant count == SkinCount(data, i / 4)
    {
      // Bytes past the end read as undefined, which fails the test.
      if i + 2 < |data| && IsSkin(data[i], data[i + 1], data[i + 2]) {
        greenSum := greenSum + data[i + 1];
        count := count + 1;
      }
      i := i + 4;
    }
    assert i / 4 == PixelsVisited(data);
    mean := if count > 0 then greenSum as real / count as real else 0.0;
  }

  // ---------------------------------------------------------------------
  // Moving-average detrend (the source's `bandpassFilter`)
  // ---------------------------------------------------------------------

  /** Left-to-right sum, as `reduce((a, b) => a + b, 0)` computes it. */
  function Sum(s: seq<real>): real {
    if s == [] then 0.0 else Sum(s[..|s| - 1]) + s[|s| - 1]
  }

  /** Extending a slice by one element adds that element to its sum. */
  lemma SumExtend(s: seq<real>, a: nat, j: nat)
    requires a <= j < |s|
    ensures Sum(s[a..j + 1]) == Sum(s[a..j]) + s[j]
  {
    assert s[a..j + 1][..j - a] == s[a..j];
  }

  /** Half-width of the averaging window for sampling rate `fs`:
      floor(2 fs). */
  function WindowRadius(fs: real): int {
    (fs * 2.0).Floor
  }

  /** The averaging window around sample `i` is [WindowStart, WindowEnd):
      clamped at both ends, and exclusive on the right, so it reaches `w`
      samples back but only `w - 1` forward. */
  function WindowStart(i: int, w: int): int { Max(0, i - w) }
  function WindowEnd(i: int, n: int, w: int): int { Min(n, i + w) }

  /** The window around any sample is non-empty and contains that sample
      exactly when the radius is at least 1; with a smaller radius it is
      empty, and its mean divides by zero. */
  lemma WindowContainsSample(i: int, n: int, w: int)
    requires 0 <= i < n
    ensures w >= 1 <==> WindowStart(i, w) <= i < WindowEnd(i, n, w)
    ensures w < 1 <==> WindowEnd(i, n, w) - WindowStart(i, w) <= 0
  {
  }

  /** Mean of the signal over the window around sample `i`. */
  function WindowMean(s: seq<real>, i: nat, w: int): real
    requires i < |s| && w >= 1
  {
    var a := WindowStart(i, w);
    var b := WindowEnd(i, |s|, w);
    Sum(s[a..b]) / (b - a) as real
  }

  /** The detrended signal: unchanged below 4 samples, otherwise each sample
      minus the mean of its window. */
  function Detrended(s: seq<real>, w: int): (r: seq<real>)
    requires |s| < 4 || w >= 1
    ensures |r| == |s|
  {
    if |s| < 4 then s
    else seq(|s|, i requires 0 <= i < |s| => s[i] - WindowMean(s, i, w))
  }

  /** `bandpassFilter`. Despite its name and its cut-off parameters (which
      it ignores) it only subtracts a moving average. */
  method BandpassFilter(signal: seq<real>, lowCut: real, highCut: real, fs: real)
    returns (detrended: seq<real>)
    requires |signal| < 4 || WindowRadius(fs) >= 1
    ensures detrended == Detrended(signal, WindowRadius(fs))
  {
    var n := |signal|;
    if n < 4 {
      return signal;
    }
    var w := (fs * 2.0).Floor;
    detrended := [];
    var i := 0;
    while i < n
      invariant 0 <= i <= n && |detrended| == i
      invariant forall k :: 0 <= k < i ==> detrended[k] == signal[k] - WindowMean(signal, k, w)
    {
      var start := Max(0, i - w);
      var end := Min(n, i + w);
      var sum := WindowSum(signal, start, end);
      assert signal[i] - sum / (end - start) as real == signal[i] - WindowMean(signal, i, w);
      detrended := detrended + [signal[i] - sum / (end - start) as real];
      i := i + 1;
    }
    DetrendedPointwise(signal, w, detrended);
  }

  /** The inner loop of `bandpassFilter`: the sum over [start, end). */
  method WindowSum(signal: seq<real>, start: nat, end: nat) returns (sum: real)
    requires start <= end <= |signal|
    ensures sum == Sum(signal[start..end])
  {
    sum := 0.0;
    var j := start;
    while j < end
      invariant start <= j <= end
      invariant sum == Sum(signal[start..j])
    {
      SumExtend(signal, start, j);
      sum := sum + signal[j];
      j := j + 1;
    }
  }

  /** A sequence that agrees with the detrended signal sample by sample is
      the detrended signal. */
  lemma DetrendedPointwise(s: seq<real>, w: int, d: seq<real>)
    requires |s| >= 4 && w >= 1 && |d| == |s|
    requires forall k :: 0 <= k < |s| ==> d[k] == s[k] - WindowMean(s, k, w)
    ensures d == Detrended(s, w)
  {
    var spec := Detrended(s, w);
    assert forall k :: 0 <= k < |s| ==> spec[k] == d[k];
  }

  /** The signal with `c` added to every sample. */
  function Offset(s: seq<real>, c: real): (r: seq<real>)
    ensures |r| == |s|
  {
    seq(|s|, i requires 0 <= i < |s| => s[i] + c)
  }

  lemma {:induction false} SumOffset(s: seq<real>, c: real)
    ensures Sum(Offset(s, c)) == Sum(s) + c * |s| as real
  {
    if s != [] {
      assert Offset(s, c)[..|s| - 1] == Offset(s[..|s| - 1], c);
      SumOffset(s[..|s| - 1], c);
    }
  }

  /** The detrend removes a constant baseline: adding the same offset to
      every sample leaves its output unchanged (for four samples or more). */
  lemma DetrendIgnoresOffset(s: seq<real>, w: int, c: real)
    requires |s| >= 4 && w >= 1
    ensures Detrended(Offset(s, c), w) == Detrended(s, w)
  {
    var t := Offset(s, c);
    forall i | 0 <= i < |s|
      ensures Detrended(t, w)[i] == Detrended(s, w)[i]
    {
      WindowMeanOffset(s, i, w, c);
    }
  }

  lemma WindowMeanOffset(s: seq<real>, i: nat, w: int, c: real)
    requires i < |s| && w >= 1
    ensures WindowMean(Offset(s, c), i, w) == WindowMean(s, i, w) + c
  {
    var a := WindowStart(i, w);
    var b := WindowEnd(i, |s|, w);
    assert 0 <= a < b <= |s|;
    SliceSumOffset(s, c, a, b);
    MeanShift(Sum(Offset(s, c)[a..b]), Sum(s[a..b]), c, (b - a) as real);
  }

  lemma SliceSumOffset(s: seq<real>, c: real, a: nat, b: nat)
    requires a <= b <= |s|
    ensures Sum(Offset(s, c)[a..b]) == Sum(s[a..b]) + c * (b - a) as real
  {
    OffsetSlice(s, c, a, b);
    SumOffset(s[a..b], c);
  }

  lemma OffsetSlice(s: seq<real>, c: real, a: nat, b: nat)
    requires a <= b <= |s|
    ensures Offset(s, c)[a..b] == Offset(s[a..b], c)
  {
  }

  lemma MeanShift(shifted: real, total: real, c: real, len: real)
    requires len > 0.0 && shifted == total + c * len
    ensures shifted / len == total / len + c
  {
  }

  // ---------------------------------------------------------------------
  // Zero crossings
  // ---------------------------------------------------------------------

  /** An adjacent pair counts as a crossing when exactly one of the two
      values is negative; zero counts as non-negative. */
  predicate Crosses(a: real, b: real)
  {
    (a < 0.0 && b >= 0.0) || (a >= 0.0 && b < 0.0)
  }

  lemma CrossesIffSignsDiffer(a: real, b: real)
    ensures Crosses(a, b) <==> ((a < 0.0) != (b < 0.0))
    ensures !Crosses(0.0, b) <==> b >= 0.0
  {
  }

  /** Crossings among the pairs (i - 1, i) with 1 <= i < k: at most one per
      pair, so at most k - 1. */
  function CrossingsUpTo(f: seq<real>, k: nat): (c: nat)
    requires k <= |f|
    ensures c <= Max(0, k - 1)
  {
    if k <= 1 then 0
    else CrossingsUpTo(f, k - 1) + (if Crosses(f[k - 2], f[k - 1]) then 1 else 0)
  }

  function ZeroCrossings(f: seq<real>): (c: nat)
    ensures c <= Max(0, |f| - 1)
  {
    CrossingsUpTo(f, |f|)
  }

  /** The zero-crossing count loop of `estimateHeartRate`. */
  method CountZeroCrossings(filtered: seq<real>) returns (count: nat)
    ensures count == ZeroCrossings(filtered)
    ensures count <= Max(0, |filtered| - 1)
  {
    count := 0;
    var i := 1;
    while i < |filtered|
      invariant 1 <= i <= Max(1, |filtered|)
      invariant count == CrossingsUpTo(filtered, Min(i, |filtered|))
    {
      if (filtered[i - 1] < 0.0 && filtered[i] >= 0.0) || (filtered[i - 1] >= 0.0 && filtered[i] < 0.0) {
        count := count + 1;
      }
      i := i + 1;
    }
  }

  // ---------------------------------------------------------------------
  // Heart-rate and quality estimation
  // ---------------------------------------------------------------------

  /** The estimator's result: beats per minute and a 0-100 quality score. */
  datatype Estimate = Estimate(hr: int, quality: real)

  /** Math.round on exact reals: halves round up. */
  function Round(x: real): int {
    (x + 0.5).Floor
  }

  /** Math.max(lo, Math.min(hi, x)). */
  function Clamp(x: real, lo: real, hi: real): real {
    MaxReal(lo, MinReal(hi, x))
  }

  /** Sum of squared deviations from `m`, left to right. */
  function SquaredDeviations(s: seq<real>, m: real): real {
    if s == [] then 0.0 else SquaredDeviations(s[..|s| - 1], m) + (s[|s| - 1] - m) * (s[|s| - 1] - m)
  }

  /** Seconds from the first to the last timestamp (milliseconds). */
  function Duration(timestamps: seq<real>): real
    requires |timestamps| > 0
  {
    (timestamps[|timestamps| - 1] - timestamps[0]) / 1000.0
  }

  /** The sampling rate the estimator derives, as written: samples per
      second of buffered time. */
  function ActualRate(n: nat, duration: real): (fs: real)
    requires duration > 0.0
    ensures n > 0 ==> fs > 0.0
  {
    n as real / duration
  }

  /** The rate handed to the filter, corrected: the derived rate floored at
      0.5 Hz, so the window radius is always at least 1; it agrees with the
      derived rate whenever that already gives a non-empty window. */
  function FilterRate(n: nat, duration: real): (fs: real)
    requires duration > 0.0
    ensures WindowRadius(fs) >= 1
    ensures WindowRadius(ActualRate(n, duration)) >= 1 ==> fs == ActualRate(n, duration)
  {
    var actual := ActualRate(n, duration);
    if actual < 0.5 then 0.5 else actual
  }

  /** Quality: ten times the standard deviation of the detrended signal,
      clamped to [0, 100]. `sqrt` stands for Math.sqrt. */
  function Quality(filtered: seq<real>, sqrt: real -> real): (q: real)
    requires |filtered| > 0
    ensures 0.0 <= q <= 100.0
  {
    var n := |filtered| as real;
    var mean := Sum(filtered) / n;
    var variance := SquaredDeviations(filtered, mean) / n;
    MinReal(100.0, MaxReal(0.0, sqrt(variance) * 10.0))
  }

  /** The buffers `estimateHeartRate` may be given: parallel, and with
      increasing end timestamps once there are enough samples to estimate. */
  predicate EstimableBuffers(signal: seq<real>, timestamps: seq<real>) {
    |signal| == |timestamps| &&
    (|signal| >= 64 ==> timestamps[0] < timestamps[|signal| - 1])
  }

  /** Beats per minute from the zero crossings counted over `duration`
      seconds: two crossings per beat. */
  function RawHeartRate(crossings: nat, duration: real): real
    requires duration != 0.0
  {
    crossings as real / 2.0 / duration * 60.0
  }

  /** `estimateHeartRate`: below 64 samples {0, 0}; otherwise half the zero
      crossings per second of the detrended signal, in beats per minute,
      clamped to the configured bounds and rounded, with the quality score. */
  function EstimateOf(signal: seq<real>, timestamps: seq<real>, cfg: Config, sqrt: real -> real): (e: Estimate)
    requires EstimableBuffers(signal, timestamps)
    ensures |signal| < 64 ==> e == Estimate(0, 0.0)
    ensures 0.0 <= e.quality <= 100.0
  {
    var n := |signal|;
    if n < 64 then Estimate(0, 0.0)
    else
      var duration := Duration(timestamps);
      var filtered := Detrended(signal, WindowRadius(FilterRate(n, duration)));
      var heartRate := RawHeartRate(ZeroCrossings(filtered), duration);
      var clamped := Clamp(heartRate, cfg.minHeartRate as real, cfg.maxHeartRate as real);
      Estimate(Round(clamped), Quality(filtered, sqrt))
  }

  /** Clamping to two integer bounds and rounding stays between them. */
  lemma RoundBetween(x: real, lo: int, hi: int)
    requires lo <= hi
    ensures lo <= Round(Clamp(x, lo as real, hi as real)) <= hi
  {
    var c := Clamp(x, lo as real, hi as real);
    assert lo as real <= c <= hi as real;
  }

  /** The output range of the estimator: fewer than 64 samples give exactly
      {0, 0}; otherwise the heart rate lies within the configured bounds; the
      quality always lies in [0, 100], whatever `sqrt` returns. */
  lemma EstimateInRange(signal: seq<real>, timestamps: seq<real>, cfg: Config, sqrt: real -> real)
    requires EstimableBuffers(signal, timestamps)
    requires cfg.minHeartRate <= cfg.maxHeartRate
    ensures var e := EstimateOf(signal, timestamps, cfg, sqrt);
      && 0.0 <= e.quality <= 100.0
      && (|signal| < 64 ==> e == Estimate(0, 0.0))
      && (|signal| >= 64 ==> cfg.minHeartRate <= e.hr <= cfg.maxHeartRate)
      && (cfg.minHeartRate > 0 ==> (e.hr == 0 <==> |signal| < 64))
  {
    if |signal| >= 64 {
      var duration := Duration(timestamps);
      var filtered := Detrended(signal, WindowRadius(FilterRate(|signal|, duration)));
      var heartRate := RawHeartRate(ZeroCrossings(filtered), duration);
      var lo, hi := cfg.minHeartRate, cfg.maxHeartRate;
      RoundBetween(heartRate, lo, hi);
      assert EstimateOf(signal, timestamps, cfg, sqrt)
        == Estimate(Round(Clamp(heartRate, lo as real, hi as real)), Quality(filtered, sqrt));
    }
  }

  /** `estimateHeartRate`, step by step as the source runs it, with the
      corrected filter rate. */
  method EstimateHeartRate(signal: seq<real>, timestamps: seq<real>, cfg: Config, sqrt: real -> real)
    returns (e: Estimate)
    requires EstimableBuffers(signal, timestamps)
    ensures e == EstimateOf(signal, timestamps, cfg, sqrt)
  {
    var n := |signal|;
    if n < 64 {
      return Estimate(0, 0.0);
    }
    var duration := (timestamps[|timestamps| - 1] - timestamps[0]) / 1000.0;
    var fs := FilterRate(n, duration);
    var filtered := BandpassFilter(signal, 0.7, 3.0, fs);
    var zeroCrossings := CountZeroCrossings(filtered);
    var frequency := zeroCrossings as real / 2.0 / duration;
    var heartRate := frequency * 60.0;
    var mean := Sum(filtered) / n as real;
    var variance := SquaredDeviations(filtered, mean) / n as real;
    var quality := MinReal(100.0, MaxReal(0.0, sqrt(variance) * 10.0));
    var clampedHr := MaxReal(cfg.minHeartRate as real, MinReal(cfg.maxHeartRate as real, heartRate));
    e := Estimate(Round(clampedHr), quality);
  }

  // ---------------------------------------------------------------------
  // The estimator as written, with NaN
  // ---------------------------------------------------------------------

  /** A JavaScript number as the as-written estimator can produce it: an
      exact real, or NaN. */
  datatype Num = Finite(value: real) | NaN

  /** `x - m`: NaN when `m` is. */
  function Minus(x: real, m: Num): Num {
    match m
    case Finite(v) => Finite(x - v)
    case NaN => NaN
  }

  /** The window mean as the source computes it: with an empty window the
      sum is 0 and 0 / 0 is NaN. */
  function WindowMeanAsWritten(s: seq<real>, i: nat, w: nat): (m: Num)
    requires i < |s|
    ensures m == NaN <==> w == 0
    ensures w >= 1 ==> m == Finite(WindowMean(s, i, w))
  {
    var a := WindowStart(i, w);
    var b := WindowEnd(i, |s|, w);
    if b - a == 0 then NaN else Finite(Sum(s[a..b]) / (b - a) as real)
  }

  /** `bandpassFilter` as written: the input below 4 samples, otherwise each
      sample minus its window mean. With a radius of at least 1 it is the
      detrended signal; with radius 0 every value is NaN. */
  function DetrendedAsWritten(s: seq<real>, w: nat): (r: seq<Num>)
    ensures |r| == |s|
    ensures |s| < 4 || w >= 1 ==> forall i :: 0 <= i < |s| ==> r[i] == Finite(Detrended(s, w)[i])
    ensures |s| >= 4 && w == 0 ==> forall i :: 0 <= i < |s| ==> r[i] == NaN
  {
    if |s| < 4 then seq(|s|, i requires 0 <= i < |s| => Finite(s[i]))
    else seq(|s|, i requires 0 <= i < |s| => Minus(s[i], WindowMeanAsWritten(s, i, w)))
  }

  /** `x < 0` and `x >= 0` on JavaScript numbers: both false for NaN. */
  predicate BelowZero(x: Num) { x.Finite? && x.value < 0.0 }
  predicate AtLeastZero(x: Num) { x.Finite? && x.value >= 0.0 }

  /** The crossing test of line 80 on JavaScript numbers. */
  predicate CrossesAsWritten(a: Num, b: Num) {
    (BelowZero(a) && AtLeastZero(b)) || (AtLeastZero(a) && BelowZero(b))
  }

  /** A pair of finite values crosses exactly as the real test says; a pair
      holding NaN never crosses. */
  lemma CrossesAsWrittenOnNumbers(a: Num, b: Num)
    ensures a.Finite? && b.Finite? ==> (CrossesAsWritten(a, b) <==> Crosses(a.value, b.value))
    ensures a == NaN || b == NaN ==> !CrossesAsWritten(a, b)
  {
  }

  /** Crossings among the pairs (i - 1, i) with 1 <= i < k. */
  function CrossingsAsWrittenUpTo(f: seq<Num>, k: nat): nat
    requires k <= |f|
  {
    if k <= 1 then 0
    else CrossingsAsWrittenUpTo(f, k - 1) + (if CrossesAsWritten(f[k - 2], f[k - 1]) then 1 else 0)
  }

  /** The values of a sequence with no NaN. */
  function Values(f: seq<Num>): (r: seq<real>)
    requires forall i :: 0 <= i < |f| ==> f[i].Finite?
    ensures |r| == |f| && forall i :: 0 <= i < |f| ==> f[i] == Finite(r[i])
  {
    seq(|f|, i requires 0 <= i < |f| => f[i].value)
  }

  /** With no NaN the as-written count is the count on the values. */
  lemma {:induction false} CrossingsAsWrittenFinite(f: seq<Num>, k: nat)
    requires k <= |f| && forall i :: 0 <= i < |f| ==> f[i].Finite?
    ensures CrossingsAsWrittenUpTo(f, k) == CrossingsUpTo(Values(f), k)
  {
    if k > 1 {
      CrossingsAsWrittenFinite(f, k - 1);
    }
  }

  /** A signal of NaN has no crossing. */
  lemma {:induction false} CrossingsAsWrittenNaN(f: seq<Num>, k: nat)
    requires k <= |f| && forall i :: 0 <= i < |f| ==> f[i] == NaN
    ensures CrossingsAsWrittenUpTo(f, k) == 0
  {
    if k > 1 {
      CrossingsAsWrittenNaN(f, k - 1);
    }
  }

  /** The quality as written: a NaN anywhere makes the mean, the variance,
      `Math.sqrt`, `Math.max` and `Math.min` NaN in turn. */
  function QualityAsWritten(f: seq<Num>, sqrt: real -> real): (q: Num)
    requires |f| > 0
    ensures q == NaN <==> exists i :: 0 <= i < |f| && f[i] == NaN
  {
    if forall i :: 0 <= i < |f| ==> f[i].Finite? then Finite(Quality(Values(f), sqrt)) else NaN
  }

  /** What the as-written estimator returns: the heart rate, and a quality
      that may be NaN. */
  datatype EstimateAsWritten = EstimateAsWritten(hr: int, quality: Num)

  /** `estimateHeartRate` as written: the filter is given the derived rate
      n / duration itself. */
  function EstimateOfAsWritten(signal: seq<real>, timestamps: seq<real>, cfg: Config, sqrt: real -> real): (e: EstimateAsWritten)
    requires EstimableBuffers(signal, timestamps)
    ensures |signal| < 64 ==> e == EstimateAsWritten(0, Finite(0.0))
    ensures e.quality.Finite? ==> 0.0 <= e.quality.value <= 100.0
  {
    var n := |signal|;
    if n < 64 then EstimateAsWritten(0, Finite(0.0))
    else
      var duration := Duration(timestamps);
      var w: nat := WindowRadius(ActualRate(n, duration));
      var filtered := DetrendedAsWritten(signal, w);
      var heartRate := RawHeartRate(CrossingsAsWrittenUpTo(filtered, n), duration);
      var clamped := Clamp(heartRate, cfg.minHeartRate as real, cfg.maxHeartRate as real);
      EstimateAsWritten(Round(clamped), QualityAsWritten(filtered, sqrt))
  }

  /** The correction changes nothing whenever the source's own window is
      non-empty: the as-written estimator then returns the corrected
      estimate, with a finite quality. */
  lemma AsWrittenAgreesWhenWindowNonEmpty(signal: seq<real>, timestamps: seq<real>, cfg: Config, sqrt: real -> real)
    requires EstimableBuffers(signal, timestamps)
    requires |signal| >= 64 ==> WindowRadius(ActualRate(|signal|, Duration(timestamps))) >= 1
    ensures var e := EstimateOf(signal, timestamps, cfg, sqrt);
      EstimateOfAsWritten(signal, timestamps, cfg, sqrt) == EstimateAsWritten(e.hr, Finite(e.quality))
  {
    var n := |signal|;
    if n >= 64 {
      var duration := Duration(timestamps);
      var w := WindowRadius(ActualRate(n, duration));
      assert FilterRate(n, duration) == ActualRate(n, duration);
      var filtered := Detrended(signal, w);
      var filteredJs := DetrendedAsWritten(signal, w);
      assert Values(filteredJs) == filtered;
      CrossingsAsWrittenFinite(filteredJs, n);
    }
  }

  /** As written, a buffer of 64 or more samples spread over more than 2n
      seconds gives window radius 0: every filtered value is NaN, no
      crossing is counted, the raw rate is 0, and the source returns the
      lower bound clamped and rounded with a NaN quality. */
  lemma {:induction false} LongGapPublishesFloorAndNaN(signal: seq<real>, timestamps: seq<real>, cfg: Config, sqrt: real -> real)
    requires EstimableBuffers(signal, timestamps) && |signal| >= 64
    requires Duration(timestamps) > 2.0 * |signal| as real
    ensures WindowRadius(ActualRate(|signal|, Duration(timestamps))) == 0
    ensures var e := EstimateOfAsWritten(signal, timestamps, cfg, sqrt);
      && e.quality == NaN
      && e.hr == Round(Clamp(0.0, cfg.minHeartRate as real, cfg.maxHeartRate as real))
      && (0 <= cfg.minHeartRate <= cfg.maxHeartRate ==> e.hr == cfg.minHeartRate)
  {
    var n := |signal|;
    var duration := Duration(timestamps);
    var fs := ActualRate(n, duration);
    RateBelowHalf(n, duration);
    var filtered := DetrendedAsWritten(signal, 0);
    CrossingsAsWrittenNaN(filtered, n);
    assert filtered[0] == NaN;
    assert RawHeartRate(0, duration) == 0.0;
  }

  /** More than 2n seconds for n samples is a rate below 0.5 Hz, so the
      radius floor(2 fs) is 0. */
  lemma RateBelowHalf(n: nat, duration: real)
    requires n > 0 && duration > 2.0 * n as real
    ensures WindowRadius(ActualRate(n, duration)) == 0
  {
    var fs := ActualRate(n, duration);
    assert fs * duration == n as real;
    assert fs * 2.0 < 1.0;
  }

  /** The long-gap input: 91 samples whose first and last timestamps lie
      183 s apart (the face out of view for three minutes). Whatever the
      samples, the window radius is 0, every window is empty, and the source
      returns the configured minimum heart rate with a NaN quality. */
  lemma LongGapEmptiesWindow(signal: seq<real>, timestamps: seq<real>, cfg: Config, sqrt: real -> real)
    requires |signal| == |timestamps| == 91
    requires timestamps[90] - timestamps[0] == 183000.0
    requires 0 <= cfg.minHeartRate <= cfg.maxHeartRate
    ensures WindowRadius(ActualRate(91, 183.0)) == 0
    ensures forall i :: 0 <= i < 91 ==> WindowEnd(i, 91, 0) - WindowStart(i, 0) == 0
    ensures EstimateOfAsWritten(signal, timestamps, cfg, sqrt) == EstimateAsWritten(cfg.minHeartRate, NaN)
  {
    assert Duration(timestamps) == 183.0;
    LongGapPublishesFloorAndNaN(signal, timestamps, cfg, sqrt);
  }
}
