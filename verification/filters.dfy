/**
 * The filtering chain of core/filters.py: a bounded-window outlier gate with
 * a median smoother (`DistanceFilter`), a one-dimensional Kalman filter and
 * a plain or linearly weighted moving average.
 */
module Filters {
  import opened Wrappers
  import opened Stats
  import Bounded

  /** Makes the MAD comparable to a Gaussian standard deviation. */
  const MadScale: real := 1.4826
  /** Below this the MAD counts as zero and the gate falls back to the standard deviation. */
  const MadFloor: real := 0.000001
  /** Below this the standard deviation counts as zero and nothing is rejected. */
  const StdFloor: real := 0.000001

  // ---------------------------------------------------------------------
  // Outlier gate and median smoother of DistanceFilter

  /**
   * Decides `dev > k * std` for `std = sqrt(variance) > 0` and `dev >= 0`
   * without a square root: a negative factor makes the bound negative, and
   * otherwise both sides are non-negative and may be squared.
   */
  function ExceedsScaledStd(dev: real, k: real, variance: real): bool
  {
    if k < 0.0 then true else dev * dev > k * k * variance
  }

  /** `ExceedsScaledStd` agrees with the comparison against the square root. */
  lemma ExceedsScaledStdCorrect(dev: real, k: real, std: real)
    requires dev >= 0.0 && std > 0.0
    ensures ExceedsScaledStd(dev, k, std * std) <==> dev > k * std
  {
    if k >= 0.0 {
      var b := k * std;
      MulMonotone(k, 0.0, std);
      assert k * k * (std * std) == b * b;
      if dev > b {
        MulMonotone(b, b, dev);
        MulStrictMonotone(dev, b, dev);
      } else {
        MulMonotone(dev, dev, b);
        MulMonotone(b, dev, b);
      }
    } else {
      MulStrictMonotone(std, k, 0.0);
    }
  }

  /** `std < 1e-6` decided on the variance. */
  lemma StdFloorOnVariance(std: real)
    requires std >= 0.0
    ensures std < StdFloor <==> std * std < StdFloor * StdFloor
  {
    if std < StdFloor {
      MulMonotone(std, std, StdFloor);
      MulStrictMonotone(StdFloor, std, StdFloor);
    } else {
      MulMonotone(std, StdFloor, std);
      MulMonotone(StdFloor, StdFloor, std);
    }
  }

  /**
   * `_is_outlier`: with at least three stored values, reject a value whose
   * distance from the window median exceeds `threshold * 1.4826 * MAD`; when
   * the MAD is below 1e-6 use `threshold * std` instead, and reject nothing
   * when the standard deviation is below 1e-6 as well.
   */
  function IsOutlier(window: seq<real>, threshold: real, value: real): (r: bool)
    ensures r ==> |window| >= 3
    ensures r && threshold >= 0.0 ==> value != Median(window)
  {
    if |window| < 3 then false
    else
      var median := Median(window);
      var mad := Mad(window);
      var dev := Abs(value - median);
      if mad < MadFloor then
        var variance := Variance(window);
        if variance < StdFloor * StdFloor then false
        else ExceedsScaledStd(dev, threshold, variance)
      else
        dev > threshold * MadScale * mad
  }

  /** A stricter threshold never rejects a value that a looser one accepts. */
  lemma OutlierMonotoneInThreshold(window: seq<real>, t1: real, t2: real, value: real)
    requires 0.0 <= t1 <= t2
    requires IsOutlier(window, t2, value)
    ensures IsOutlier(window, t1, value)
  {
    var median := Median(window);
    var mad := Mad(window);
    var dev := Abs(value - median);
    MadNonNegative(window);
    if mad < MadFloor {
      var variance := Variance(window);
      VarianceNonNegative(window);
      assert dev * dev > t2 * t2 * variance;
      assert t1 * t1 <= t2 * t2;
      assert t1 * t1 * variance <= t2 * t2 * variance;
    } else {
      assert t1 * MadScale * mad <= t2 * MadScale * mad;
    }
  }

  lemma SortStableSeries()
    ensures Sort([1.0, 1.02, 0.98, 1.01, 1.0]) == [0.98, 1.0, 1.0, 1.01, 1.02]
  {
    assert Sort([1.01, 1.0]) == Insert(1.01, [1.0]) == [1.0, 1.01];
    assert Sort([0.98, 1.01, 1.0]) == Insert(0.98, [1.0, 1.01]) == [0.98, 1.0, 1.01];
    assert Sort([1.02, 0.98, 1.01, 1.0]) == Insert(1.02, [0.98, 1.0, 1.01]) == [0.98, 1.0, 1.01, 1.02];
    assert Insert(1.0, [0.98, 1.0, 1.01, 1.02]) == [0.98, 1.0, 1.0, 1.01, 1.02];
  }

  lemma SortStableDeviations()
    ensures Sort([0.0, 0.02, 0.02, 0.01, 0.0]) == [0.0, 0.0, 0.01, 0.02, 0.02]
  {
    assert Sort([0.01, 0.0]) == Insert(0.01, [0.0]) == [0.0, 0.01];
    assert Sort([0.02, 0.01, 0.0]) == Insert(0.02, [0.0, 0.01]) == [0.0, 0.01, 0.02];
    assert Sort([0.02, 0.02, 0.01, 0.0]) == Insert(0.02, [0.0, 0.01, 0.02]) == [0.0, 0.01, 0.02, 0.02];
    assert Insert(0.0, [0.0, 0.01, 0.02, 0.02]) == [0.0, 0.0, 0.01, 0.02, 0.02];
  }

  lemma StableSeriesMedian()
    ensures Median([1.0, 1.02, 0.98, 1.01, 1.0]) == 1.0
  {
    SortStableSeries();
  }

  lemma StableSeriesDeviations()
    ensures AbsDeviations([1.0, 1.02, 0.98, 1.01, 1.0], 1.0) == [0.0, 0.02, 0.02, 0.01, 0.0]
  {
  }

  /** A stable five-value window: its median is 1.0 and its MAD 0.01. */
  lemma StableSeriesSummary()
    ensures Median([1.0, 1.02, 0.98, 1.01, 1.0]) == 1.0
    ensures Mad([1.0, 1.02, 0.98, 1.01, 1.0]) == 0.01
  {
    StableSeriesMedian();
    StableSeriesDeviations();
    SortStableDeviations();
    assert Median([0.0, 0.02, 0.02, 0.01, 0.0]) == 0.01;
  }

  /**
   * Against the stable window, a spike to 5.0 is rejected at the default
   * threshold 2.0 while a value at the median is accepted.
   */
  lemma StableSeriesRejectsSpike()
    ensures IsOutlier([1.0, 1.02, 0.98, 1.01, 1.0], 2.0, 5.0)
    ensures !IsOutlier([1.0, 1.02, 0.98, 1.01, 1.0], 2.0, 1.0)
  {
    StableSeriesSummary();
  }

  /** `_apply_filter`: 0.0 for an empty window, the single value, or the median. */
  function ApplyFilter(window: seq<real>): (r: real)
    ensures window == [] ==> r == 0.0
    ensures |window| == 1 ==> r == window[0]
    ensures |window| > 0 ==> MinOf(window) <= r <= MaxOf(window)
  {
    if |window| == 0 then 0.0
    else if |window| == 1 then window[0]
    else
      MedianInRange(window, MinOf(window), MaxOf(window));
      Median(window)
  }

  class DistanceFilter {
    const windowSize: nat
    const outlierThreshold: real
    var measurements: seq<real>
    var filteredValues: seq<real>

    ghost predicate Valid()
      reads this
    {
      |measurements| <= windowSize && |filteredValues| <= windowSize
    }

    constructor (windowSize: nat, outlierThreshold: real)
      ensures Valid()
      ensures this.windowSize == windowSize && this.outlierThreshold == outlierThreshold
      ensures measurements == [] && filteredValues == []
    {
      this.windowSize := windowSize;
      this.outlierThreshold := outlierThreshold;
      measurements := [];
      filteredValues := [];
    }

    /**
     * `add_measurement`: an outlier is dropped and changes nothing; an
     * accepted value enters the window (evicting the oldest when full) and
     * the window's filtered value is returned and recorded.
     */
    method AddMeasurement(value: real) returns (r: Option<real>)
      requires Valid()
      modifies this
      ensures Valid()
      ensures r.None? <==> IsOutlier(old(measurements), outlierThreshold, value)
      ensures |old(measurements)| < 3 ==> r.Some?
      ensures r.None? ==> measurements == old(measurements) && filteredValues == old(filteredValues)
      ensures r.Some? ==>
                measurements == Bounded.Append(old(measurements), value, windowSize)
                && r.value == ApplyFilter(measurements)
                && filteredValues == Bounded.Append(old(filteredValues), r.value, windowSize)
    {
      if |measurements| >= 3 {
        if IsOutlier(measurements, outlierThreshold, value) {
          return None;
        }
      }
      measurements := Bounded.Append(measurements, value, windowSize);
      var filtered := ApplyFilter(measurements);
      filteredValues := Bounded.Append(filteredValues, filtered, windowSize);
      return Some(filtered);
    }

    method Reset()
      requires Valid()
      modifies this
      ensures Valid()
      ensures measurements == [] && filteredValues == []
    {
      measurements := [];
      filteredValues := [];
    }

    /** The `count` of `get_statistics`. */
    function StatisticsCount(): (n: nat)
      reads this
      requires Valid()
      ensures n <= windowSize
      ensures n == 0 <==> filteredValues == []
    {
      |filteredValues|
    }
  }

  // ---------------------------------------------------------------------
  // Kalman filter

  datatype KalmanState = KalmanState(estimate: real, estimateError: real)

  function KalmanGain(predictionError: real, measurementVariance: real): (g: real)
    requires predictionError + measurementVariance != 0.0
    ensures predictionError > 0.0 && measurementVariance > 0.0 ==> 0.0 < g < 1.0
  {
    predictionError / (predictionError + measurementVariance)
  }

  /** One predict-and-correct step from an initialised state. */
  function KalmanStep(s: KalmanState, processVariance: real, measurementVariance: real,
                      measurement: real): (t: KalmanState)
    requires s.estimateError + processVariance + measurementVariance != 0.0
    ensures t.estimate - s.estimate
            == KalmanGain(s.estimateError + processVariance, measurementVariance) * Innovation(measurement, s.estimate)
  {
    var prediction := s.estimate;
    var predictionError := s.estimateError + processVariance;
    var gain := KalmanGain(predictionError, measurementVariance);
    KalmanState(prediction + gain * Innovation(measurement, prediction),
                PosteriorError(predictionError, measurementVariance))
  }

  /** The estimate error left after correcting with the Kalman gain. */
  function PosteriorError(predictionError: real, measurementVariance: real): real
    requires predictionError + measurementVariance != 0.0
  {
    (1.0 - KalmanGain(predictionError, measurementVariance)) * predictionError
  }

  /** How far the measurement lies from the prediction. */
  function Innovation(measurement: real, prediction: real): real
  {
    measurement - prediction
  }

  /** The gain of a positive prediction error against a positive variance lies in (0, 1). */
  lemma GainBounds(pe: real, mv: real)
    requires pe > 0.0 && mv > 0.0
    ensures 0.0 < KalmanGain(pe, mv) < 1.0
    ensures (1.0 - KalmanGain(pe, mv)) * pe == KalmanGain(pe, mv) * mv
  {
    var g := KalmanGain(pe, mv);
    DivBelowOne(pe, pe + mv);
    assert g * (pe + mv) == pe;
  }

  /**
   * With a positive prediction error and measurement variance, the
   * posterior error is positive and below both of them.
   */
  lemma PosteriorErrorBounds(pe: real, mv: real)
    requires pe > 0.0 && mv > 0.0
    ensures 0.0 < PosteriorError(pe, mv) < pe
    ensures PosteriorError(pe, mv) < mv
  {
    var g := KalmanGain(pe, mv);
    GainBounds(pe, mv);
    MulStrictMonotone(pe, g, 1.0);
    MulStrictMonotone(mv, g, 1.0);
  }

  /** Moving `p` by a fraction `g` in (0, 1) of `d` lands between `p` and `p + d`. */
  lemma FractionalStep(p: real, d: real, g: real)
    requires 0.0 < g < 1.0
    ensures d >= 0.0 ==> p <= p + g * d <= p + d
    ensures d <= 0.0 ==> p + d <= p + g * d <= p
    ensures d != 0.0 ==> p + g * d != p && p + g * d != p + d
  {
    assert d - g * d == d * (1.0 - g);
  }

  /**
   * With positive prediction error and measurement variance, a step moves the
   * estimate to between the prediction and the measurement (strictly, when
   * they differ) and leaves an error that is positive, below the prediction
   * error and below the measurement variance.
   */
  lemma KalmanStepContracts(s: KalmanState, processVariance: real, measurementVariance: real,
                            measurement: real)
    requires s.estimateError + processVariance > 0.0 && measurementVariance > 0.0
    ensures var t := KalmanStep(s, processVariance, measurementVariance, measurement);
            && 0.0 < t.estimateError < s.estimateError + processVariance
            && t.estimateError < measurementVariance
            && (s.estimate <= measurement ==> s.estimate <= t.estimate <= measurement)
            && (measurement <= s.estimate ==> measurement <= t.estimate <= s.estimate)
            && (s.estimate != measurement ==> t.estimate != s.estimate && t.estimate != measurement)
  {
    var pe := s.estimateError + processVariance;
    var mv := measurementVariance;
    var gain := KalmanGain(pe, mv);
    var t := KalmanStep(s, processVariance, measurementVariance, measurement);
    assert t.estimate == s.estimate + gain * Innovation(measurement, s.estimate);
    assert t.estimateError == PosteriorError(pe, mv);
    GainBounds(pe, mv);
    PosteriorErrorBounds(pe, mv);
    FractionalStep(s.estimate, Innovation(measurement, s.estimate), gain);
  }

  class KalmanFilter {
    const processVariance: real
    const measurementVariance: real
    var estimate: real
    var estimateError: real
    var isInitialized: bool

    ghost predicate Valid()
      reads this
    {
      && processVariance >= 0.0 && measurementVariance > 0.0 && estimateError > 0.0
      && (!isInitialized ==> estimateError == 1.0)
    }

    constructor (processVariance: real, measurementVariance: real)
      requires processVariance >= 0.0 && measurementVariance > 0.0
      ensures Valid()
      ensures this.processVariance == processVariance && this.measurementVariance == measurementVariance
      ensures estimate == 0.0 && estimateError == 1.0 && !isInitialized
    {
      this.processVariance := processVariance;
      this.measurementVariance := measurementVariance;
      estimate := 0.0;
      estimateError := 1.0;
      isInitialized := false;
    }

    /**
     * `update`: the first measurement is taken as is; later ones move the
     * estimate towards the measurement by the Kalman gain.
     */
    method Update(measurement: real) returns (e: real)
      requires Valid()
      modifies this
      ensures Valid() && isInitialized && e == estimate
      ensures !old(isInitialized) ==> e == measurement && estimateError == 1.0
      ensures old(isInitialized) ==>
                KalmanState(estimate, estimateError)
                == KalmanStep(KalmanState(old(estimate), old(estimateError)), processVariance, measurementVariance, measurement)
    {
      if !isInitialized {
        estimate := measurement;
        isInitialized := true;
        return estimate;
      }
      var prediction := estimate;
      var predictionError := estimateError + processVariance;
      var gain := KalmanGain(predictionError, measurementVariance);
      estimate := prediction + gain * Innovation(measurement, prediction);
      estimateError := PosteriorError(predictionError, measurementVariance);
      KalmanStepContracts(KalmanState(prediction, old(estimateError)), processVariance, measurementVariance, measurement);
      return estimate;
    }

    method Reset()
      requires Valid()
      modifies this
      ensures Valid()
      ensures estimate == 0.0 && estimateError == 1.0 && !isInitialized
    {
      estimate := 0.0;
      estimateError := 1.0;
      isInitialized := false;
    }
  }

  // ---------------------------------------------------------------------
  // Moving average

  function Dot(v: seq<real>, w: seq<real>): real
    requires |v| == |w|
  {
    if v == [] then 0.0 else v[0] * w[0] + Dot(v[1..], w[1..])
  }

  /** Every value divided by `k`. */
  function Scale(w: seq<real>, k: real): (r: seq<real>)
    requires k != 0.0
    ensures |r| == |w|
  {
    seq(|w|, i requires 0 <= i < |w| => w[i] / k)
  }

  /** `np.arange(1, n + 1)` as reals. */
  function Ramp(n: nat): (r: seq<real>)
    ensures |r| == n
  {
    seq(n, i requires 0 <= i < n => (i + 1) as real)
  }

  /** `weights = np.arange(1, n + 1); weights / np.sum(weights)`. */
  function LinearWeights(windowSize: nat): (w: seq<real>)
    ensures |w| == windowSize
  {
    if windowSize == 0 then []
    else
      RampSumPositive(windowSize);
      Scale(Ramp(windowSize), Sum(Ramp(windowSize)))
  }

  /**
   * The weights applied to `n` stored values: the last `n` of the linear
   * weights, divided by their sum.
   */
  function WindowWeights(windowSize: nat, n: nat): (w: seq<real>)
    requires 1 <= n <= windowSize
    ensures |w| == n
  {
    var tail := WeightsTail(windowSize, n);
    PositiveSum(tail);
    Scale(tail, Sum(tail))
  }

  /** `MovingAverageFilter.update`'s result for the stored values. */
  function MovingAverage(values: seq<real>, windowSize: nat, weighted: bool): (r: real)
    requires |values| <= windowSize
    ensures values == [] ==> r == 0.0
    ensures |values| > 0 ==> MinOf(values) <= r <= MaxOf(values)
  {
    if |values| == 0 then 0.0
    else if weighted && |values| > 1 then
      var w := WindowWeights(windowSize, |values|);
      WindowWeightsConvex(windowSize, |values|);
      DotInRange(values, w, MinOf(values), MaxOf(values));
      Dot(values, w)
    else
      MeanInRange(values, MinOf(values), MaxOf(values));
      Mean(values)
  }

  lemma {:induction false} PositiveSum(w: seq<real>)
    requires |w| > 0
    requires forall i :: 0 <= i < |w| ==> w[i] > 0.0
    ensures Sum(w) > 0.0
  {
    if |w| > 1 {
      PositiveSum(w[1..]);
    }
  }

  lemma RampSumPositive(n: nat)
    requires n > 0
    ensures Sum(Ramp(n)) > 0.0
  {
    PositiveSum(Ramp(n));
  }

  lemma {:induction false} SumScale(w: seq<real>, k: real)
    requires k != 0.0
    ensures Sum(Scale(w, k)) == Sum(w) / k
  {
    if w != [] {
      assert Scale(w, k)[1..] == Scale(w[1..], k);
      SumScale(w[1..], k);
    }
  }

  /** The linear weights are `(k + 1) / total` for the ramp's positive total. */
  lemma LinearWeightsValues(windowSize: nat)
    requires windowSize > 0
    ensures Sum(Ramp(windowSize)) > 0.0
    ensures forall k :: 0 <= k < windowSize ==>
              LinearWeights(windowSize)[k] == (k + 1) as real / Sum(Ramp(windowSize))
  {
    RampSumPositive(windowSize);
  }

  lemma WeightsTailPositive(windowSize: nat, n: nat)
    requires 1 <= n <= windowSize
    ensures forall i :: windowSize - n <= i < windowSize ==> LinearWeights(windowSize)[i] > 0.0
  {
    LinearWeightsValues(windowSize);
    var total := Sum(Ramp(windowSize));
    forall i | windowSize - n <= i < windowSize
      ensures LinearWeights(windowSize)[i] > 0.0
    {
      DivMonotone(0.0, (i + 1) as real, total);
    }
  }

  /** Later linear weights are larger. */
  lemma LinearWeightsIncreasing(windowSize: nat)
    ensures forall i, j :: 0 <= i < j < windowSize ==> LinearWeights(windowSize)[i] < LinearWeights(windowSize)[j]
  {
    if windowSize > 0 {
      LinearWeightsValues(windowSize);
      var total := Sum(Ramp(windowSize));
      forall i, j | 0 <= i < j < windowSize
        ensures LinearWeights(windowSize)[i] < LinearWeights(windowSize)[j]
      {
        DivMonotone((i + 1) as real, (j + 1) as real, total);
      }
    }
  }

  /** The stored values' share of the linear weights, before renormalising. */
  function WeightsTail(windowSize: nat, n: nat): (tail: seq<real>)
    requires 1 <= n <= windowSize
    ensures |tail| == n
    ensures forall i :: 0 <= i < n ==> tail[i] > 0.0
    ensures forall i, j :: 0 <= i < j < n ==> tail[i] < tail[j]
  {
    var tail := LinearWeights(windowSize)[windowSize - n..];
    WeightsTailPositive(windowSize, n);
    LinearWeightsIncreasing(windowSize);
    assert forall i, j :: 0 <= i < j < n ==> tail[i] < tail[j] by {
      forall i, j | 0 <= i < j < n
        ensures tail[i] < tail[j]
      {
        assert tail[i] == LinearWeights(windowSize)[windowSize - n + i];
        assert tail[j] == LinearWeights(windowSize)[windowSize - n + j];
      }
    }
    tail
  }

  /**
   * The weights used for `n` stored values are positive, strictly increasing
   * (newer values weigh more) and sum to one.
   */
  lemma WindowWeightsConvex(windowSize: nat, n: nat)
    requires 1 <= n <= windowSize
    ensures var w := WindowWeights(windowSize, n);
            && (forall i :: 0 <= i < n ==> w[i] > 0.0)
            && (forall i, j :: 0 <= i < j < n ==> w[i] < w[j])
            && Sum(w) == 1.0
  {
    var tail := WeightsTail(windowSize, n);
    PositiveSum(tail);
    var s := Sum(tail);
    assert WindowWeights(windowSize, n) == Scale(tail, s);
    SumScale(tail, s);
    DivSelf(s);
    ScalePositive(tail, s);
    ScaleIncreasing(tail, s);
  }

  lemma ScalePositive(w: seq<real>, k: real)
    requires k > 0.0
    requires forall i :: 0 <= i < |w| ==> w[i] > 0.0
    ensures forall i :: 0 <= i < |w| ==> Scale(w, k)[i] > 0.0
  {
    forall i | 0 <= i < |w|
      ensures Scale(w, k)[i] > 0.0
    {
      DivMonotone(0.0, w[i], k);
    }
  }

  lemma ScaleIncreasing(w: seq<real>, k: real)
    requires k > 0.0
    requires forall i, j :: 0 <= i < j < |w| ==> w[i] < w[j]
    ensures forall i, j :: 0 <= i < j < |w| ==> Scale(w, k)[i] < Scale(w, k)[j]
  {
    forall i, j | 0 <= i < j < |w|
      ensures Scale(w, k)[i] < Scale(w, k)[j]
    {
      DivMonotone(w[i], w[j], k);
    }
  }

  /** One step of `DotLowerBound`: adding a weighted value of at least `lo`. */
  lemma LowerStep(v0: real, w0: real, dot: real, sum: real, total: real, combined: real, lo: real)
    requires w0 >= 0.0 && lo <= v0
    requires lo * sum <= dot
    requires total == w0 + sum && combined == v0 * w0 + dot
    ensures lo * total <= combined
  {
    MulMonotone(w0, lo, v0);
    assert lo * total == lo * w0 + lo * sum;
  }

  /** One step of `DotUpperBound`: adding a weighted value of at most `hi`. */
  lemma UpperStep(v0: real, w0: real, dot: real, sum: real, total: real, combined: real, hi: real)
    requires w0 >= 0.0 && v0 <= hi
    requires dot <= hi * sum
    requires total == w0 + sum && combined == v0 * w0 + dot
    ensures combined <= hi * total
  {
    MulMonotone(w0, v0, hi);
    assert hi * total == hi * w0 + hi * sum;
  }

  /** Non-negative weights on values of at least `lo` give at least `lo * Sum(w)`. */
  lemma {:induction false} DotLowerBound(v: seq<real>, w: seq<real>, lo: real)
    requires |v| == |w|
    requires forall i :: 0 <= i < |v| ==> lo <= v[i]
    requires forall i :: 0 <= i < |w| ==> w[i] >= 0.0
    ensures lo * Sum(w) <= Dot(v, w)
  {
    if v != [] {
      DotLowerBound(v[1..], w[1..], lo);
      LowerStep(v[0], w[0], Dot(v[1..], w[1..]), Sum(w[1..]), Sum(w), Dot(v, w), lo);
    }
  }

  /** Non-negative weights on values of at most `hi` give at most `hi * Sum(w)`. */
  lemma {:induction false} DotUpperBound(v: seq<real>, w: seq<real>, hi: real)
    requires |v| == |w|
    requires forall i :: 0 <= i < |v| ==> v[i] <= hi
    requires forall i :: 0 <= i < |w| ==> w[i] >= 0.0
    ensures Dot(v, w) <= hi * Sum(w)
  {
    if v != [] {
      DotUpperBound(v[1..], w[1..], hi);
      UpperStep(v[0], w[0], Dot(v[1..], w[1..]), Sum(w[1..]), Sum(w), Dot(v, w), hi);
    }
  }

  /** Non-negative weights combine values in [lo, hi] to within [lo * Sum(w), hi * Sum(w)]. */
  lemma DotBounds(v: seq<real>, w: seq<real>, lo: real, hi: real)
    requires |v| == |w|
    requires InRange(v, lo, hi)
    requires forall i :: 0 <= i < |w| ==> w[i] >= 0.0
    ensures lo * Sum(w) <= Dot(v, w) <= hi * Sum(w)
  {
    DotLowerBound(v, w, lo);
    DotUpperBound(v, w, hi);
  }

  /** A convex combination of values in [lo, hi] lies in [lo, hi]. */
  lemma DotInRange(v: seq<real>, w: seq<real>, lo: real, hi: real)
    requires |v| == |w|
    requires InRange(v, lo, hi)
    requires forall i :: 0 <= i < |w| ==> w[i] > 0.0
    requires Sum(w) == 1.0
    ensures lo <= Dot(v, w) <= hi
  {
    DotBounds(v, w, lo, hi);
  }

  class MovingAverageFilter {
    const windowSize: nat
    const weighted: bool
    var values: seq<real>

    ghost predicate Valid()
      reads this
    {
      |values| <= windowSize
    }

    constructor (windowSize: nat, weighted: bool)
      ensures Valid()
      ensures this.windowSize == windowSize && this.weighted == weighted && values == []
    {
      this.windowSize := windowSize;
      this.weighted := weighted;
      values := [];
    }

    /** `update`: store the value (evicting the oldest when full) and average the window. */
    method Update(value: real) returns (r: real)
      requires Valid()
      modifies this
      ensures Valid()
      ensures values == Bounded.Append(old(values), value, windowSize)
      ensures r == MovingAverage(values, windowSize, weighted)
    {
      values := Bounded.Append(values, value, windowSize);
      if |values| == 0 {
        return 0.0;
      }
      if weighted && |values| > 1 {
        var w := WindowWeights(windowSize, |values|);
        return Dot(values, w);
      }
      return Mean(values);
    }

    method Reset()
      requires Valid()
      modifies this
      ensures Valid()
      ensures values == []
    {
      values := [];
    }
  }
}
