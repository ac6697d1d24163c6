/** `Health`: when an endpoint counts as degraded, and how its probes back off. */
module EndpointHealth {
  import opened Naturals

  const U32_MAX: nat := 0xFFFF_FFFF

  function SaturatingSucc(n: nat): nat {
    if n < U32_MAX then n + 1 else n
  }

  /** A pool's probe timing: failures tolerated, healthy interval, base delay. */
  datatype Timing = Timing(threshold: nat, interval: nat, base: nat)

  /** The probe state of one endpoint. `delay` is what was added to the clock. */
  datatype Probe = Probe(failures: nat, degraded: bool, measured: bool, backoff: nat, delay: nat)

  function New(t: Timing): Probe {
    Probe(0, false, false, t.base, 0)
  }

  class Health {
    var consecutiveFailures: nat
    var degraded: bool
    var measured: bool
    var backoff: nat
    var nextProbe: nat
    ghost var delay: nat

    ghost function State(): Probe
      reads this
    {
      Probe(consecutiveFailures, degraded, measured, backoff, delay)
    }

    constructor (now: nat, t: Timing)
      ensures State() == New(t) && nextProbe == now
    {
      consecutiveFailures, degraded, measured, backoff, nextProbe := 0, false, false, t.base, now;
      delay := 0;
    }

    method RecordSuccess(t: Timing, now: nat)
      modifies this
      ensures State() == Succeeded(t) && nextProbe == now + delay
    {
      measured := true;
      consecutiveFailures := 0;
      degraded := false;
      backoff := t.base;
      nextProbe := now + t.interval;
      delay := t.interval;
    }

    method RecordFailure(t: Timing, now: nat)
      modifies this
      ensures State() == Failed(old(State()), t) && nextProbe == now + delay
    {
      consecutiveFailures := SaturatingSucc(consecutiveFailures);
      var newlyDegraded := !degraded && consecutiveFailures >= t.threshold;
      if newlyDegraded {
        degraded := true;
        backoff := t.base;
      } else if degraded {
        backoff := Min(backoff * 2, t.interval);
      }
      var wait := if degraded then backoff else t.base;
      nextProbe := now + wait;
      delay := wait;
    }
  }

  function Succeeded(t: Timing): Probe {
    Probe(0, false, true, t.base, t.interval)
  }

  function Failed(p: Probe, t: Timing): Probe {
    var failures := SaturatingSucc(p.failures);
    var newly := !p.degraded && failures >= t.threshold;
    var degraded := p.degraded || newly;
    var backoff := if newly then t.base else if p.degraded then Min(p.backoff * 2, t.interval) else p.backoff;
    Probe(failures, degraded, p.measured, backoff, if degraded then backoff else t.base)
  }

  // ---------------------------------------------------------------------
  // Every run of probe outcomes
  // ---------------------------------------------------------------------

  /** The state after the outcomes `run`, each true for an answered probe. */
  function After(run: seq<bool>, t: Timing): Probe {
    if run == [] then New(t)
    else if run[|run| - 1] then Succeeded(t)
    else Failed(After(run[..|run| - 1], t), t)
  }

  /** The failures since the last answer. */
  function Streak(run: seq<bool>): nat {
    if run == [] || run[|run| - 1] then 0 else Streak(run[..|run| - 1]) + 1
  }

  /** The delay after `k` failures past the one that degraded the endpoint: the
      base at first, then doubling up to the healthy interval. */
  function Backoff(k: nat, t: Timing): nat {
    if k == 0 then t.base else Min(t.base * Pow2(k), t.interval)
  }

  lemma BackoffDoubles(k: nat, t: Timing)
    ensures Min(Backoff(k, t) * 2, t.interval) == Backoff(k + 1, t)
  {
  }

  /**
   * In every run the whole probe state is a function of the current streak of
   * failures: degraded exactly from the threshold on, with the closed form of
   * the backoff, and measured exactly when some probe was ever answered.
   */
  lemma {:induction false} ProbeStateFollowsTheStreak(run: seq<bool>, t: Timing)
    requires 1 <= t.threshold <= U32_MAX
    ensures var p, n := After(run, t), Streak(run);
      && p.failures == Min(n, U32_MAX)
      && (p.degraded <==> n >= t.threshold)
      && (p.measured <==> true in run)
      && p.backoff == (if n < t.threshold then t.base else Backoff(n - t.threshold, t))
  {
    if run != [] {
      var init := run[..|run| - 1];
      assert run == init + [run[|run| - 1]];
      ProbeStateFollowsTheStreak(init, t);
      if !run[|run| - 1] && Streak(init) >= t.threshold {
        BackoffDoubles(Streak(init) - t.threshold, t);
      }
    }
  }

  /** No wait exceeds the larger of the two configured delays, and a degraded
      endpoint is never probed more rarely than the healthy interval allows. */
  lemma WaitsAreBounded(run: seq<bool>, t: Timing)
    requires 1 <= t.threshold <= U32_MAX && run != []
    ensures After(run, t).delay <= Max(t.base, t.interval)
    ensures Streak(run) > t.threshold ==> After(run, t).delay <= t.interval
  {
    ProbeStateFollowsTheStreak(run, t);
  }

  /** A dead endpoint settles at the healthy interval: from some failure on, every
      wait is exactly it. */
  lemma DeadEndpointsSettle(run: seq<bool>, t: Timing)
    requires 1 <= t.threshold <= U32_MAX && t.base > 0
    requires Streak(run) > t.threshold + t.interval
    ensures After(run, t).delay == t.interval && After(run, t).degraded
  {
    ProbeStateFollowsTheStreak(run, t);
    DegradedWaitsItsBackoff(run, t);
    hide Streak, After, Backoff;
    BackoffReachesTheInterval(Streak(run) - t.threshold, t);
  }

  lemma DegradedWaitsItsBackoff(run: seq<bool>, t: Timing)
    requires After(run, t).degraded
    ensures After(run, t).delay == After(run, t).backoff
  {
  }

  lemma BackoffReachesTheInterval(k: nat, t: Timing)
    requires k > t.interval && t.base > 0
    ensures Backoff(k, t) == t.interval
  {
    Pow2Exceeds(k);
    hide Pow2;
    assert (t.base - 1) * Pow2(k) >= 0;
  }

  lemma {:induction false} Pow2Exceeds(k: nat)
    ensures Pow2(k) > k
  {
    if k > 0 {
      Pow2Exceeds(k - 1);
    }
  }
}
