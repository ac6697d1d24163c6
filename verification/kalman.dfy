/**
 * `KalmanRtt`: a scalar Kalman filter over round-trip times with a one-sided
 * CUSUM that widens it again when the path has become slower. Times in
 * milliseconds, over the reals.
 */
module Kalman {
  import opened Reals

  const WIDE_P: real := 1000.0
  const CUSUM_DELTA_MS: real := 50.0
  const CUSUM_H: real := 200.0

  /** The share of the predicted variance in the whole: the Kalman gain. */
  ghost function Share(predicted: real, r: real): (g: real)
    requires predicted > 0.0 && r > 0.0
    ensures 0.0 < g < 1.0
  {
    ShareMeaning(predicted, r);
    predicted / (predicted + r)
  }

  lemma ShareMeaning(p: real, r: real)
    requires p > 0.0 && r > 0.0
    ensures var g := p / (p + r); 0.0 < g < 1.0 && g * (p + r) == p
  {
  }

  lemma ShareIsUnique(p: real, r: real, g: real)
    requires p > 0.0 && r > 0.0 && g * (p + r) == p
    ensures g == Share(p, r)
  {
  }

  lemma ProductSign(x: real, y: real)
    requires x >= 0.0 && y >= 0.0
    ensures x * y >= 0.0
  {
  }

  lemma StableLarge(p: real, r: real)
    requires p > 0.0 && r > 0.0
    ensures var g := 1.0 / (1.0 + r / p); 0.0 < g < 1.0 && g * (p + r) == p
  {
  }

  lemma StableSmall(p: real, r: real)
    requires p > 0.0 && r > 0.0
    ensures var a := p / r; var g := a / (1.0 + a); 0.0 < g < 1.0 && g * (p + r) == p
  {
  }

  /** The gain, computed in the form that is stable at either extreme. */
  function Gain(predicted: real, r: real): (g: real)
    requires predicted > 0.0 && r > 0.0
    ensures g == Share(predicted, r)
  {
    if predicted > r then
      StableLarge(predicted, r);
      ShareIsUnique(predicted, r, 1.0 / (1.0 + r / predicted));
      1.0 / (1.0 + r / predicted)
    else
      StableSmall(predicted, r);
      var ratio := predicted / r;
      ShareIsUnique(predicted, r, ratio / (1.0 + ratio));
      ratio / (1.0 + ratio)
  }

  datatype Filter = Filter(mean: real, variance: real, q: real, r: real, cusum: real, initialized: bool)

  predicate Sane(f: Filter) {
    f.q >= 0.0 && f.r > 0.0 && f.variance > 0.0
  }

  function New(q: real, r: real): Filter {
    Filter(0.0, WIDE_P, q, r, 0.0, false)
  }

  function Accumulated(f: Filter, obs: real): real {
    Max(f.cusum + (obs - f.mean) - CUSUM_DELTA_MS / 2.0, 0.0)
  }

  /** Whether observing `obs` raises the alarm. */
  predicate Alarms(f: Filter, obs: real) {
    f.initialized && Accumulated(f, obs) > CUSUM_H
  }

  function Predicted(f: Filter, obs: real): (p: real)
    requires Sane(f)
    ensures p > 0.0 && p >= f.variance + f.q
  {
    (if Alarms(f, obs) then Max(f.variance, WIDE_P) else f.variance) + f.q
  }

  ghost function Updated(f: Filter, obs: real): (f': Filter)
    requires Sane(f)
    ensures Sane(f') && f'.q == f.q && f'.r == f.r && f'.initialized
  {
    if !f.initialized then f.(mean := obs, variance := f.r, initialized := true)
    else
      var gain := Share(Predicted(f, obs), f.r);
      assert f.r * gain > 0.0;
      f.(mean := f.mean + gain * (obs - f.mean), variance := f.r * gain,
         cusum := if Alarms(f, obs) then 0.0 else Accumulated(f, obs))
  }

  class KalmanRtt {
    var mean_ms: real
    var variance: real
    const q: real
    const r: real
    var cusum: real
    var initialized: bool

    function State(): Filter
      reads this
    {
      Filter(mean_ms, variance, q, r, cusum, initialized)
    }

    constructor (q: real, r: real)
      ensures State() == New(q, r)
    {
      mean_ms, variance, cusum, initialized := 0.0, WIDE_P, 0.0, false;
      this.q, this.r := q, r;
    }

    method Update(obs: real) returns (alarm: bool)
      requires Sane(State())
      modifies this
      ensures State() == Updated(old(State()), obs)
      ensures alarm == Alarms(old(State()), obs)
    {
      if !initialized {
        mean_ms, variance, initialized := obs, r, true;
        return false;
      }
      var innovation := obs - mean_ms;
      cusum := Max(cusum + innovation - CUSUM_DELTA_MS / 2.0, 0.0);
      alarm := cusum > CUSUM_H;
      if alarm {
        cusum := 0.0;
        variance := Max(variance, WIDE_P);
      }
      var gain := Gain(variance + q, r);
      mean_ms := mean_ms + gain * innovation;
      variance := r * gain;
    }
  }

  // ---------------------------------------------------------------------
  // Every run
  // ---------------------------------------------------------------------

  /** The filter after a series of observations. */
  ghost function After(q: real, r: real, obs: seq<real>): (f: Filter)
    requires q >= 0.0 && r > 0.0
    ensures Sane(f) && f.q == q && f.r == r && (f.initialized <==> obs != [])
  {
    if obs == [] then New(q, r)
    else Updated(After(q, r, obs[..|obs| - 1]), obs[|obs| - 1])
  }

  lemma AfterFirst(q: real, r: real, obs: seq<real>)
    requires q >= 0.0 && r > 0.0 && |obs| == 1
    ensures After(q, r, obs) == Filter(obs[0], r, q, r, 0.0, true)
  {
  }

  /** One more observation, in terms of the gain alone. */
  lemma AfterOneMore(q: real, r: real, obs: seq<real>) returns (f: Filter, x: real, predicted: real, g: real)
    requires q >= 0.0 && r > 0.0 && |obs| >= 2
    ensures f == After(q, r, obs[..|obs| - 1]) && x == obs[|obs| - 1]
    ensures predicted >= f.variance + q && predicted > 0.0 && 0.0 < g < 1.0 && g == Share(predicted, r)
    ensures !Alarms(f, x) ==> predicted == f.variance + q
    ensures After(q, r, obs).mean == f.mean + g * (x - f.mean) && After(q, r, obs).variance == r * g
  {
    hide Share;
    f, x := After(q, r, obs[..|obs| - 1]), obs[|obs| - 1];
    predicted := Predicted(f, x);
    g := Share(predicted, r);
  }

  /** At most the variance the filter settles on, the non-negative fixed point of
      the update p -> r (p + q) / (p + q + r), which is the root of p^2 + q p = q r. */
  ghost predicate AtMostSteady(p: real, q: real, r: real) {
    p >= 0.0 && p * p + q * p <= q * r
  }

  lemma SteadyIsAtMostR(p: real, q: real, r: real)
    requires AtMostSteady(p, q, r) && q >= 0.0 && r > 0.0
    ensures p <= r
  {
  }

  /** One update, from a variance at least `p`, with `p` at most the steady one, stays
      at least `p` and at most `r`. */
  lemma VarianceStaysInTheEnvelope(p: real, predicted: real, q: real, r: real, g: real, variance: real)
    requires AtMostSteady(p, q, r) && q >= 0.0 && r > 0.0
    requires predicted > 0.0 && predicted >= p + q && g == Share(predicted, r) && variance == r * g
    ensures p <= variance <= r
  {
    ShareMeaning(predicted, r);
    SteadyIsAtMostR(p, q, r);
    calc {
      r * g * (predicted + r) - p * (predicted + r);
    ==  { assert r * g * (predicted + r) == r * (g * (predicted + r)) == r * predicted; }
      (r - p) * predicted - p * r;
    >=  { assert (r - p) * predicted >= (r - p) * (p + q); }
      (r - p) * (p + q) - p * r;
    >=
      0.0;
    }
    NonNegativeFactor(r * g - p, predicted + r);
    assert r * g <= r;
  }

  /** In every run, alarms included, the variance lies between the steady one and
      the noise of a single observation. */
  lemma {:induction false} VarianceEnvelope(q: real, r: real, obs: seq<real>, p: real)
    requires q >= 0.0 && r > 0.0 && AtMostSteady(p, q, r) && obs != []
    ensures p <= After(q, r, obs).variance <= r
  {
    hide Share, Updated;
    SteadyIsAtMostR(p, q, r);
    if |obs| >= 2 {
      VarianceEnvelope(q, r, obs[..|obs| - 1], p);
      var f, x, predicted, g := AfterOneMore(q, r, obs);
      VarianceStaysInTheEnvelope(p, predicted, q, r, g, After(q, r, obs).variance);
    } else {
      AfterFirst(q, r, obs);
    }
  }

  lemma ConvexStep(mean: real, obs: real, g: real, lo: real, hi: real)
    requires 0.0 < g < 1.0 && lo <= mean <= hi && lo <= obs <= hi
    ensures lo <= mean + g * (obs - mean) <= hi
  {
    var m := mean + g * (obs - mean);
    assert m - lo == (1.0 - g) * (mean - lo) + g * (obs - lo);
    assert hi - m == (1.0 - g) * (hi - mean) + g * (hi - obs);
    ProductSign(1.0 - g, mean - lo);
    ProductSign(g, obs - lo);
    ProductSign(1.0 - g, hi - mean);
    ProductSign(g, hi - obs);
  }

  /** The estimate never leaves the range of what was observed. */
  lemma {:induction false} MeanStaysInTheObservedRange(q: real, r: real, obs: seq<real>, lo: real, hi: real)
    requires q >= 0.0 && r > 0.0 && obs != [] && Within(obs, lo, hi)
    ensures lo <= After(q, r, obs).mean <= hi
  {
    hide Share, Updated;
    if |obs| >= 2 {
      MeanStaysInTheObservedRange(q, r, obs[..|obs| - 1], lo, hi);
      var f, x, predicted, g := AfterOneMore(q, r, obs);
      ConvexStep(f.mean, x, g, lo, hi);
    } else {
      AfterFirst(q, r, obs);
    }
  }

  function Abs(x: real): real {
    if x < 0.0 then -x else x
  }

  /** Each repetition of a constant observation shrinks the error by at least the
      factor 1 - p/r, for any `p` at most the steady variance. */
  lemma ConstantInputContracts(q: real, r: real, obs: seq<real>, c: real, p: real)
    requires q >= 0.0 && r > 0.0 && AtMostSteady(p, q, r) && obs != []
    ensures r * Abs(After(q, r, obs + [c]).mean - c) <= (r - p) * Abs(After(q, r, obs).mean - c)
  {
    hide Share, Updated;
    var f, x, predicted, g := AfterOneMore(q, r, obs + [c]);
    assert (obs + [c])[..|obs + [c]| - 1] == obs;
    VarianceEnvelope(q, r, obs, p);
    VarianceStaysInTheEnvelope(p, predicted, q, r, g, After(q, r, obs + [c]).variance);
    ErrorShrinks(f.mean, c, g, After(q, r, obs + [c]).mean, r, p, After(q, r, obs + [c]).variance);
  }

  lemma ErrorShrinks(mean: real, c: real, g: real, mean': real, r: real, p: real, variance: real)
    requires 0.0 < g < 1.0 && r > 0.0 && p <= variance == r * g && mean' == mean + g * (c - mean)
    ensures r * Abs(mean' - c) <= (r - p) * Abs(mean - c)
  {
    var e := mean - c;
    assert mean' - c == (1.0 - g) * e;
    ProductSign(1.0 - g, Abs(e));
    assert Abs((1.0 - g) * e) == (1.0 - g) * Abs(e);
    ProductSign(r * g - p, Abs(e));
    assert r * ((1.0 - g) * Abs(e)) == (r - p) * Abs(e) - (r * g - p) * Abs(e);
  }

  ghost predicate NoAlarm(q: real, r: real, obs: seq<real>)
    requires q >= 0.0 && r > 0.0
  {
    forall n :: 0 <= n < |obs| ==> !Alarms(After(q, r, obs[..n]), obs[n])
  }

  lemma RunningMean(
    mean: real, variance: real, r: real, n: real, total: real, x: real, g: real, mean': real, variance': real)
    requires n >= 1.0 && r > 0.0 && variance > 0.0 && variance * n == r && mean * n == total
    requires g == Share(variance, r) && mean' == mean + g * (x - mean) && variance' == r * g
    ensures mean' * (n + 1.0) == total + x && variance' * (n + 1.0) == r
  {
  }

  /** Without process noise and without an alarm the estimate is the arithmetic
      mean of all samples, and the variance that of such a mean. */
  lemma {:induction false} NoiselessFilterIsTheMean(r: real, obs: seq<real>)
    requires r > 0.0 && obs != [] && NoAlarm(0.0, r, obs)
    ensures var f := After(0.0, r, obs);
      f.mean * (|obs| as real) == Sum(obs) && f.variance * (|obs| as real) == r
  {
    hide Share, Updated, After, Alarms, NoAlarm;
    var n := |obs| - 1;
    var init := obs[..n];
    if n == 0 {
      AfterFirst(0.0, r, obs);
      assert Sum(init) == 0.0;
    } else {
      NoAlarmBefore(0.0, r, obs);
      NoiselessFilterIsTheMean(r, init);
      var f, x, predicted, g := AfterOneMore(0.0, r, obs);
      assert predicted == f.variance;
      var f' := After(0.0, r, obs);
      RunningMean(f.mean, f.variance, r, n as real, Sum(init), x, g, f'.mean, f'.variance);
      assert |obs| as real == n as real + 1.0;
    }
  }

  lemma NoAlarmBefore(q: real, r: real, obs: seq<real>)
    requires q >= 0.0 && r > 0.0 && obs != [] && NoAlarm(q, r, obs)
    ensures NoAlarm(q, r, obs[..|obs| - 1]) && !Alarms(After(q, r, obs[..|obs| - 1]), obs[|obs| - 1])
  {
    hide Share, Updated, After, Alarms;
    var init := obs[..|obs| - 1];
    forall k | 0 <= k < |init| ensures !Alarms(After(q, r, init[..k]), init[k]) {
      assert init[..k] == obs[..k];
    }
  }

  // ---------------------------------------------------------------------
  // The CUSUM against its definition
  // ---------------------------------------------------------------------

  /** The excesses (innovation less the allowance) since the last alarm. */
  ghost function Excesses(q: real, r: real, obs: seq<real>): seq<real>
    requires q >= 0.0 && r > 0.0
  {
    if |obs| <= 1 then []
    else
      var init, last := obs[..|obs| - 1], obs[|obs| - 1];
      var f := After(q, r, init);
      if Alarms(f, last) then []
      else Excesses(q, r, init) + [last - f.mean - CUSUM_DELTA_MS / 2.0]
  }

  /** `m` is the greatest sum of a suffix of `s`, the empty one included. */
  ghost predicate IsGreatestSuffixSum(m: real, s: seq<real>) {
    && (forall k :: 0 <= k <= |s| ==> Sum(s[k..]) <= m)
    && (exists k :: 0 <= k <= |s| && Sum(s[k..]) == m)
  }

  lemma SuffixSumsGrow(s: seq<real>, x: real, k: nat)
    requires k <= |s|
    ensures Sum((s + [x])[k..]) == Sum(s[k..]) + x
  {
    assert (s + [x])[k..][..|s| - k] == s[k..];
  }

  lemma GreatestSuffixSumGrows(m: real, s: seq<real>, x: real)
    requires IsGreatestSuffixSum(m, s)
    ensures IsGreatestSuffixSum(Max(m + x, 0.0), s + [x])
  {
    var t, m' := s + [x], Max(m + x, 0.0);
    forall k | 0 <= k <= |t| ensures Sum(t[k..]) <= m' {
      if k <= |s| {
        SuffixSumsGrow(s, x, k);
      }
    }
    assert Sum(t[|t|..]) == 0.0;
    var k :| 0 <= k <= |s| && Sum(s[k..]) == m;
    SuffixSumsGrow(s, x, k);
  }

  /** In every run the accumulator is the greatest suffix sum of the excesses
      since the last alarm. */
  lemma {:induction false} CusumIsTheGreatestSuffixSum(q: real, r: real, obs: seq<real>)
    requires q >= 0.0 && r > 0.0
    ensures IsGreatestSuffixSum(After(q, r, obs).cusum, Excesses(q, r, obs))
  {
    hide Share;
    assert Sum([][0..]) == 0.0;
    if |obs| > 0 {
      var init, last := obs[..|obs| - 1], obs[|obs| - 1];
      CusumIsTheGreatestSuffixSum(q, r, init);
      var f := After(q, r, init);
      if init == [] {
        assert f.cusum == 0.0;
      } else if !Alarms(f, last) {
        GreatestSuffixSumGrows(f.cusum, Excesses(q, r, init), last - f.mean - CUSUM_DELTA_MS / 2.0);
      }
    }
  }

  /** The alarm fires exactly when some run of recent excesses sums past the
      threshold. */
  lemma AlarmMeansALongExcess(q: real, r: real, obs: seq<real>, x: real)
    requires q >= 0.0 && r > 0.0 && obs != []
    ensures var f := After(q, r, obs);
      var s := Excesses(q, r, obs) + [x - f.mean - CUSUM_DELTA_MS / 2.0];
      Alarms(f, x) <==> exists k :: 0 <= k <= |s| && Sum(s[k..]) > CUSUM_H
  {
    hide Share;
    var f := After(q, r, obs);
    var excess := x - f.mean - CUSUM_DELTA_MS / 2.0;
    CusumIsTheGreatestSuffixSum(q, r, obs);
    GreatestSuffixSumGrows(f.cusum, Excesses(q, r, obs), excess);
  }

  /** Observations within a band of 25 ms never raise the alarm. */
  lemma {:induction false} NarrowBandNeverAlarms(q: real, r: real, obs: seq<real>, lo: real)
    requires q >= 0.0 && r > 0.0 && Within(obs, lo, lo + CUSUM_DELTA_MS / 2.0)
    ensures NoAlarm(q, r, obs) && After(q, r, obs).cusum == 0.0
  {
    hide Share;
    if obs != [] {
      var n := |obs| - 1;
      NarrowBandNeverAlarms(q, r, obs[..n], lo);
      forall k | 0 <= k < |obs| ensures !Alarms(After(q, r, obs[..k]), obs[k]) {
        if k < n {
          assert obs[..n][..k] == obs[..k];
          assert !Alarms(After(q, r, obs[..n][..k]), obs[..n][k]);
        } else if n > 0 {
          MeanStaysInTheObservedRange(q, r, obs[..n], lo, lo + CUSUM_DELTA_MS / 2.0);
        }
      }
      if n > 0 {
        MeanStaysInTheObservedRange(q, r, obs[..n], lo, lo + CUSUM_DELTA_MS / 2.0);
      }
    }
  }
}
