/**
 * `NigThroughput`: a discounted Normal-Inverse-Gamma posterior over the
 * logarithm of a transfer rate, over the reals.
 */
module Throughput {
  import opened Reals

  const MIN_THROUGHPUT_BPS: real := 1.0 / 100_000_000_000_000_000_000.0
  const MAX_THROUGHPUT_BPS: real := 1_000_000_000_000_000_000_000_000_000_000.0

  function Clamp(x: real, lo: real, hi: real): real {
    if x < lo then lo else if x > hi then hi else x
  }

  datatype Prior = Prior(mu: real, kappa: real, alpha: real, beta: real)

  datatype Posterior = Posterior(mu: real, kappa: real, alpha: real, beta: real)

  predicate Proper(p: Prior) {
    p.kappa > 0.0 && p.alpha > 0.0 && p.beta > 0.0
  }

  predicate AtLeastPrior(p: Prior, s: Posterior) {
    s.kappa >= p.kappa && s.alpha >= p.alpha && s.beta >= p.beta
  }

  /** Old evidence faded by the discount, never below the prior. */
  function Faded(p: Prior, s: Posterior, gamma: real): Posterior {
    Posterior(s.mu, Fade(s.kappa, gamma, p.kappa), Fade(s.alpha, gamma, p.alpha), Fade(s.beta, gamma, p.beta))
  }

  function Fade(v: real, gamma: real, prior: real): real {
    Max(v * gamma, prior)
  }

  function MuAfter(mu: real, kn: real, diff: real): real
    requires kn > 0.0
  {
    mu + diff / kn
  }

  function BetaAfter(beta: real, kappa: real, kn: real, diff: real): real
    requires kn > 0.0
  {
    beta + (kappa / kn) * diff * diff / 2.0
  }

  /** One conjugate update by the log rate `x`. */
  function Absorbed(s: Posterior, x: real): Posterior
    requires s.kappa > 0.0
  {
    var kn, diff := s.kappa + 1.0, x - s.mu;
    Posterior(MuAfter(s.mu, kn, diff), kn, s.alpha + 0.5, BetaAfter(s.beta, s.kappa, kn, diff))
  }

  function Observed(p: Prior, s: Posterior, x: real, gamma: real): Posterior
    requires Proper(p)
  {
    Absorbed(Faded(p, s, gamma), x)
  }

  class NigThroughput {
    var mu: real
    var kappa: real
    var alpha: real
    var beta: real
    const prior: Prior

    function State(): Posterior
      reads this
    {
      Posterior(mu, kappa, alpha, beta)
    }

    constructor (p: Prior)
      ensures prior == p && State() == Posterior(p.mu, p.kappa, p.alpha, p.beta)
    {
      prior := p;
      mu, kappa, alpha, beta := p.mu, p.kappa, p.alpha, p.beta;
    }

    /** Fold one transfer rate in; `ln` is the natural logarithm. */
    method Observe(bps: real, gamma: real, ln: real -> real)
      requires Proper(prior)
      modifies this
      ensures bps <= 0.0 ==> State() == old(State())
      ensures bps > 0.0 ==>
        State() == Observed(prior, old(State()), ln(Clamp(bps, MIN_THROUGHPUT_BPS, MAX_THROUGHPUT_BPS)), gamma)
    {
      hide MuAfter, BetaAfter, Clamp;
      if bps <= 0.0 {
        return;
      }
      var x := ln(Clamp(bps, MIN_THROUGHPUT_BPS, MAX_THROUGHPUT_BPS));
      kappa := Max(kappa * gamma, prior.kappa);
      alpha := Max(alpha * gamma, prior.alpha);
      beta := Max(beta * gamma, prior.beta);
      assert State() == Faded(prior, old(State()), gamma);
      var kn := kappa + 1.0;
      var diff := x - mu;
      mu := MuAfter(mu, kn, diff);
      alpha := alpha + 0.5;
      beta := BetaAfter(beta, kappa, kn, diff);
      kappa := kn;
    }
  }

  // ---------------------------------------------------------------------
  // Every run
  // ---------------------------------------------------------------------

  /** The posterior after the log rates `xs`, all under one discount. */
  function After(p: Prior, xs: seq<real>, gamma: real): Posterior
    requires Proper(p)
  {
    if xs == [] then Posterior(p.mu, p.kappa, p.alpha, p.beta)
    else Observed(p, After(p, xs[..|xs| - 1], gamma), xs[|xs| - 1], gamma)
  }

  function Square(x: real): real { x * x }

  function Squares(s: seq<real>): real {
    if s == [] then 0.0 else Squares(s[..|s| - 1]) + Square(s[|s| - 1])
  }

  /** One conjugate update without a quotient in sight. */
  lemma AbsorbedMeaning(s: Posterior, x: real)
    requires s.kappa > 0.0
    ensures var t := Absorbed(s, x);
      && t.kappa == s.kappa + 1.0 && t.alpha == s.alpha + 0.5
      && t.mu * t.kappa == s.mu * s.kappa + x
      && (t.beta - s.beta) * t.kappa * 2.0 == s.kappa * ((x - s.mu) * (x - s.mu))
  {
  }

  /** The quantity the batch formula calls beta: twice the excess over `beta0`. */
  lemma SpreadGrows(mu: real, k: real, x: real, mu': real, delta: real)
    requires k > 0.0 && mu' * (k + 1.0) == mu * k + x
    requires delta * (k + 1.0) == k * ((x - mu) * (x - mu))
    ensures delta == k * (mu * mu) + x * x - (k + 1.0) * (mu' * mu')
  {
  }

  /**
   * Without discount the sequential posterior is the batch posterior of all the
   * observations: it depends on them only through their number, sum and sum of
   * squares.
   */
  lemma {:induction false} SequentialIsBatch(p: Prior, xs: seq<real>)
    requires Proper(p)
    ensures IsBatch(p, After(p, xs, 1.0), |xs| as real, Sum(xs), Squares(xs)) && AtLeastPrior(p, After(p, xs, 1.0))
  {
    hide Absorbed, Faded, IsBatch, MuAfter, BetaAfter;
    if xs != [] {
      var init, x := xs[..|xs| - 1], xs[|xs| - 1];
      SequentialIsBatch(p, init);
      var s, t := After(p, init, 1.0), After(p, xs, 1.0);
      NothingFades(p, s);
      AbsorbingStaysBatch(p, s, |init| as real, Sum(init), Squares(init), x);
      assert t == Absorbed(s, x);
      assert |xs| as real == |init| as real + 1.0;
      assert Sum(xs) == Sum(init) + x;
      assert Squares(xs) == Squares(init) + x * x;
      assert IsBatch(p, t, |xs| as real, Sum(xs), Squares(xs));
    } else {
      PriorIsBatch(p);
    }
  }

  lemma PriorIsBatch(p: Prior)
    ensures IsBatch(p, Posterior(p.mu, p.kappa, p.alpha, p.beta), 0.0, 0.0, 0.0)
  {
  }

  lemma NothingFades(p: Prior, s: Posterior)
    requires AtLeastPrior(p, s)
    ensures Faded(p, s, 1.0) == s
  {
  }

  ghost predicate IsBatch(p: Prior, s: Posterior, n: real, sum: real, squares: real) {
    && s.kappa == p.kappa + n
    && s.alpha == p.alpha + n / 2.0
    && s.mu * s.kappa == p.kappa * p.mu + sum
    && s.beta == p.beta + (squares + p.kappa * (p.mu * p.mu) - s.kappa * (s.mu * s.mu)) / 2.0
  }

  lemma AbsorbingStaysBatch(p: Prior, s: Posterior, n: real, sum: real, squares: real, x: real)
    requires s.kappa > 0.0 && IsBatch(p, s, n, sum, squares) && AtLeastPrior(p, s)
    ensures IsBatch(p, Absorbed(s, x), n + 1.0, sum + x, squares + x * x) && AtLeastPrior(p, Absorbed(s, x))
  {
    hide Absorbed, IsBatch;
    AbsorbedMeaning(s, x);
    BatchStep(p, s, Absorbed(s, x), n, sum, squares, x);
  }

  lemma BatchStep(p: Prior, s: Posterior, t: Posterior, n: real, sum: real, squares: real, x: real)
    requires s.kappa > 0.0 && IsBatch(p, s, n, sum, squares) && AtLeastPrior(p, s)
    requires t.kappa == s.kappa + 1.0 && t.alpha == s.alpha + 0.5 && t.mu * t.kappa == s.mu * s.kappa + x
    requires (t.beta - s.beta) * t.kappa * 2.0 == s.kappa * ((x - s.mu) * (x - s.mu))
    ensures IsBatch(p, t, n + 1.0, sum + x, squares + x * x) && AtLeastPrior(p, t)
  {
    var delta := (t.beta - s.beta) * 2.0;
    assert delta * (s.kappa + 1.0) == s.kappa * ((x - s.mu) * (x - s.mu));
    SpreadGrows(s.mu, s.kappa, x, t.mu, delta);
    SpreadIsNonNegative(s.kappa, x - s.mu, delta);
  }

  lemma SpreadIsNonNegative(k: real, d: real, growth: real)
    requires k > 0.0 && growth * (k + 1.0) == k * (d * d)
    ensures growth >= 0.0
  {
  }

  lemma NonNegativeProduct(x: real, y: real)
    requires (x >= 0.0 && y >= 0.0) || x == y
    ensures x * y >= 0.0
  {
  }

  /** `s` without its element at `k`. */
  function Removed<T>(s: seq<T>, k: nat): seq<T>
    requires k < |s|
  {
    s[..k] + s[k + 1..]
  }

  lemma RemovingBeforeLast<T>(s: seq<T>, k: nat)
    requires k < |s| - 1
    ensures Removed(s, k) == Removed(s[..|s| - 1], k) + [s[|s| - 1]]
  {
  }

  lemma {:induction false} RemovingOne(s: seq<real>, k: nat)
    requires k < |s|
    ensures Sum(s) == Sum(Removed(s, k)) + s[k]
    ensures Squares(s) == Squares(Removed(s, k)) + Square(s[k])
  {
    hide Square;
    var last := |s| - 1;
    if k == last {
      assert Removed(s, k) == s[..last];
    } else {
      RemovingOne(s[..last], k);
      RemovingBeforeLast(s, k);
      hide Removed;
      var less := Removed(s[..last], k);
      assert (less + [s[last]])[..|less|] == less;
    }
  }

  lemma RemovingFromBag<T>(s: seq<T>, k: nat)
    requires k < |s|
    ensures multiset(Removed(s, k)) == multiset(s) - multiset{s[k]}
  {
    assert s == s[..k] + [s[k]] + s[k + 1..];
  }

  lemma {:induction false} SumsIgnoreOrder(s: seq<real>, t: seq<real>)
    requires multiset(s) == multiset(t)
    ensures Sum(s) == Sum(t) && Squares(s) == Squares(t) && |s| == |t|
  {
    hide Sum, Squares;
    assert |s| == |multiset(s)| == |multiset(t)| == |t|;
    if s != [] {
      var last := |s| - 1;
      assert s[last] in multiset(t);
      var k :| 0 <= k < |t| && t[k] == s[last];
      var less := Removed(t, k);
      assert Removed(s, last) == s[..last];
      RemovingFromBag(s, last);
      RemovingOne(s, last);
      RemovingFromBag(t, k);
      RemovingOne(t, k);
      SumsIgnoreOrder(s[..last], less);
    }
  }

  /** The order in which transfers complete does not matter without discount. */
  lemma OrderOfObservationsIsIrrelevant(p: Prior, xs: seq<real>, ys: seq<real>)
    requires Proper(p) && multiset(xs) == multiset(ys)
    ensures After(p, xs, 1.0) == After(p, ys, 1.0)
  {
    hide Absorbed, IsBatch, After;
    SequentialIsBatch(p, xs);
    SequentialIsBatch(p, ys);
    SumsIgnoreOrder(xs, ys);
    BatchIsUnique(p, After(p, xs, 1.0), After(p, ys, 1.0), |xs| as real, Sum(xs), Squares(xs));
  }

  lemma BatchIsUnique(p: Prior, s: Posterior, t: Posterior, n: real, sum: real, squares: real)
    requires IsBatch(p, s, n, sum, squares) && IsBatch(p, t, n, sum, squares) && s.kappa > 0.0
    ensures s == t
  {
  }

  // ---------------------------------------------------------------------
  // Discounting
  // ---------------------------------------------------------------------

  /** The geometric sum of one unit of evidence per step under the discount. */
  function Horizon(gamma: real): real
    requires gamma < 1.0
  {
    1.0 / (1.0 - gamma)
  }

  lemma HorizonMeaning(gamma: real)
    requires 0.0 < gamma < 1.0
    ensures Horizon(gamma) == Horizon(gamma) * gamma + 1.0 && Horizon(gamma) >= 1.0
  {
  }

  lemma PulledMeanStays(mu: real, kappa: real, x: real, mu': real, lo: real, hi: real)
    requires kappa > 0.0 && lo <= mu <= hi && lo <= x <= hi && mu' * (kappa + 1.0) == mu * kappa + x
    ensures lo <= mu' <= hi
  {
    NonNegativeProduct(mu - lo, kappa);
    NonNegativeProduct(hi - mu, kappa);
    assert (mu' - lo) * (kappa + 1.0) == (mu - lo) * kappa + (x - lo);
    assert (hi - mu') * (kappa + 1.0) == (hi - mu) * kappa + (hi - x);
    NonNegativeFactor(mu' - lo, kappa + 1.0);
    NonNegativeFactor(hi - mu', kappa + 1.0);
  }

  /** The most one observation can add to beta when both it and the mean lie in
      a range of width `w`. */
  lemma GrowthIsBounded(k: real, d: real, growth: real, w: real)
    requires k > 0.0 && -w <= d <= w && w >= 0.0 && growth * (k + 1.0) * 2.0 == k * (d * d)
    ensures 0.0 <= growth <= HalfSquare(w)
  {
  }

  /** What holds of a discounted posterior, whatever the length of the run. */
  ghost predicate Bounded(p: Prior, s: Posterior, gamma: real, lo: real, hi: real)
    requires gamma < 1.0
  {
    && lo <= s.mu <= hi
    && Accrued(p.kappa, s.kappa, 1.0, Horizon(gamma))
    && Accrued(p.alpha, s.alpha, 0.5, Horizon(gamma))
    && Accrued(p.beta, s.beta, HalfSquare(hi - lo), Horizon(gamma))
  }

  /** At least the prior, and at most `unit` above it per step of the horizon. */
  predicate Accrued(prior: real, v: real, unit: real, horizon: real) {
    prior <= v <= prior + unit * horizon
  }

  function HalfSquare(w: real): real {
    w * w / 2.0
  }

  /** One conjugate update from a mean in range: the mean stays, and each
      evidence count grows by at most its unit. */
  lemma AbsorbingIsTame(f: Posterior, x: real, lo: real, hi: real) returns (t: Posterior, w: real)
    requires f.kappa > 0.0 && lo <= x <= hi && lo <= f.mu <= hi
    ensures t == Absorbed(f, x) && w == HalfSquare(hi - lo)
    ensures lo <= t.mu <= hi && t.kappa == f.kappa + 1.0 && t.alpha == f.alpha + 0.5
    ensures f.beta <= t.beta <= f.beta + w
  {
    AbsorbedMeaning(f, x);
    hide Absorbed;
    t, w := Absorbed(f, x), HalfSquare(hi - lo);
    PulledMeanStays(f.mu, f.kappa, x, t.mu, lo, hi);
    GrowthIsBounded(f.kappa, x - f.mu, t.beta - f.beta, hi - lo);
  }

  lemma StepStaysBounded(p: Prior, s: Posterior, x: real, gamma: real, lo: real, hi: real)
    requires Proper(p) && 0.0 < gamma < 1.0 && lo <= x <= hi
    requires Bounded(p, s, gamma, lo, hi)
    ensures Bounded(p, Observed(p, s, x, gamma), gamma, lo, hi)
  {
    hide Absorbed, Horizon, Accrued, HalfSquare, Fade;
    var f, h := Faded(p, s, gamma), Horizon(gamma);
    FadedIsAtLeastPrior(p, s, gamma);
    var t, w := AbsorbingIsTame(f, x, lo, hi);
    HorizonMeaning(gamma);
    EvidenceIsBounded(s.kappa, p.kappa, 1.0, gamma, h, f.kappa, t.kappa);
    EvidenceIsBounded(s.alpha, p.alpha, 0.5, gamma, h, f.alpha, t.alpha);
    EvidenceIsBounded(s.beta, p.beta, w, gamma, h, f.beta, t.beta);
  }

  lemma FadedIsAtLeastPrior(p: Prior, s: Posterior, gamma: real)
    ensures AtLeastPrior(p, Faded(p, s, gamma))
  {
  }

  lemma EvidenceIsBounded(v: real, prior: real, unit: real, gamma: real, h: real, faded: real, next: real)
    requires 0.0 < gamma < 1.0 && h == h * gamma + 1.0 && h >= 1.0 && prior > 0.0
    requires Accrued(prior, v, unit, h) && faded == Fade(v, gamma, prior) && faded <= next <= faded + unit
    ensures Accrued(prior, next, unit, h)
  {
  }

  /**
   * With a discount below one the mean stays in the clamp range, no parameter
   * falls below the prior, and each is bounded above independently of how long
   * the run is.
   */
  lemma {:induction false} DiscountedPosteriorIsBounded(p: Prior, xs: seq<real>, gamma: real, lo: real, hi: real)
    requires Proper(p) && 0.0 < gamma < 1.0 && lo <= p.mu <= hi && Within(xs, lo, hi)
    ensures Bounded(p, After(p, xs, gamma), gamma, lo, hi)
  {
    hide Absorbed, Bounded, Faded;
    if xs == [] {
      PriorIsBounded(p, gamma, lo, hi);
    } else {
      DiscountedPosteriorIsBounded(p, xs[..|xs| - 1], gamma, lo, hi);
      StepStaysBounded(p, After(p, xs[..|xs| - 1], gamma), xs[|xs| - 1], gamma, lo, hi);
    }
  }

  lemma PriorIsBounded(p: Prior, gamma: real, lo: real, hi: real)
    requires 0.0 < gamma < 1.0 && lo <= p.mu <= hi
    ensures Bounded(p, Posterior(p.mu, p.kappa, p.alpha, p.beta), gamma, lo, hi)
  {
  }

  /** The prior every endpoint starts from. */
  function DefaultPrior(ln: real -> real): Prior {
    Prior(ln(262144.0), 0.5, 1.5, 1.0)
  }

  ghost predicate Increasing(ln: real -> real) {
    forall x, y :: 0.0 < x <= y ==> ln(x) <= ln(y)
  }

  function LogRates(rates: seq<real>, ln: real -> real): (xs: seq<real>)
    ensures |xs| == |rates|
  {
    seq(|rates|, i requires 0 <= i < |rates| => ln(Clamp(rates[i], MIN_THROUGHPUT_BPS, MAX_THROUGHPUT_BPS)))
  }

  /** In particular whatever rates transfers reach, from the default prior, for
      any logarithm that increases. */
  lemma AnyTransfersStayBounded(rates: seq<real>, gamma: real, ln: real -> real)
    requires 0.0 < gamma < 1.0 && Increasing(ln)
    ensures Bounded(DefaultPrior(ln), After(DefaultPrior(ln), LogRates(rates, ln), gamma), gamma,
                    ln(MIN_THROUGHPUT_BPS), ln(MAX_THROUGHPUT_BPS))
  {
    hide After, Bounded;
    var lo, hi, xs := ln(MIN_THROUGHPUT_BPS), ln(MAX_THROUGHPUT_BPS), LogRates(rates, ln);
    forall i | 0 <= i < |xs| ensures lo <= xs[i] <= hi {
      assert 0.0 < MIN_THROUGHPUT_BPS <= Clamp(rates[i], MIN_THROUGHPUT_BPS, MAX_THROUGHPUT_BPS) <= MAX_THROUGHPUT_BPS;
    }
    assert MIN_THROUGHPUT_BPS <= 262144.0 <= MAX_THROUGHPUT_BPS;
    DiscountedPosteriorIsBounded(DefaultPrior(ln), xs, gamma, lo, hi);
  }
}
