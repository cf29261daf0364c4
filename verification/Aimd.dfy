/**
  Additive-increase, multiplicative-decrease admission targets
  (worker/domain/admission.py).  Rates, thresholds and factors are reals;
  `int(...)` of a nonnegative real is its floor.
*/
module Aimd {
  import opened Prelude

  datatype Policy = Policy(
    minSamples: nat, stable: real, decrease: real, break_: real, factor: real, minInflight: nat, maxPerInstance: nat)

  /** What `validate_runtime_invariants` admits. */
  predicate ValidPolicy(p: Policy) {
    && p.minSamples >= 1
    && p.stable < p.decrease < p.break_
    && 0.0 < p.factor < 1.0
    && 1 <= p.minInflight <= p.maxPerInstance
  }

  datatype Observation = Observation(total: nat, failures: nat, retryAfter: Option<real>)

  function FailureRate(o: Observation): real {
    if o.total == 0 then 0.0 else o.failures as real / o.total as real
  }

  datatype Decision = Decision(target: int, rate: real, enterCooldown: bool)

  function Min(a: int, b: int): int { if a < b then a else b }

  function Max(a: int, b: int): int { if a < b then b else a }

  /** What a window calls for. */
  datatype Verdict = Keep | Grow | Shrink | Collapse

  function Judge(o: Observation, p: Policy): Verdict {
    if o.total == 0 then Keep
    else if o.total < p.minSamples then if o.failures == 0 then Grow else Keep
    else if FailureRate(o) > p.break_ then Collapse
    else if FailureRate(o) > p.decrease then Shrink
    else if FailureRate(o) < p.stable then Grow
    else Keep
  }

  function Obey(current: int, v: Verdict, p: Policy, step: int): int {
    match v
    case Keep => current
    case Grow => Min(current + step, p.maxPerInstance)
    case Shrink => Max(p.minInflight, (current as real * p.factor).Floor)
    case Collapse => p.minInflight
  }

  function DecideAimd(current: int, o: Observation, p: Policy, step: int): Decision {
    Decision(Obey(current, Judge(o, p), p, step), FailureRate(o), Judge(o, p) == Collapse)
  }

  /** Enough attempts, too many of them failed. */
  predicate Degraded(o: Observation, p: Policy) {
    o.total >= p.minSamples && FailureRate(o) > p.decrease
  }

  /** A window that calls for an increase: healthy, or too small to judge but without failures. */
  predicate Healthy(o: Observation, p: Policy) {
    o.total > 0 && (if o.total < p.minSamples then o.failures == 0 else FailureRate(o) < p.stable)
  }

  /** The rate is the part of the attempts that failed. */
  lemma RateIsShare(o: Observation, threshold: real)
    requires o.total > 0
    ensures FailureRate(o) > threshold <==> o.failures as real > threshold * o.total as real
    ensures FailureRate(o) < threshold <==> (o.failures as real) < threshold * o.total as real
  {
    var f, n, rate := o.failures as real, o.total as real, FailureRate(o);
    assert rate * n == f;
    assert rate * n - threshold * n == (rate - threshold) * n;
  }

  /**
    What each window does to the target, by its attempts and failures alone:
    nothing when it is empty, too small and not clean, or between the
    thresholds; and a cooldown is entered exactly on a large enough window whose
    failures exceed the breaking share.
  */
  lemma WindowsDecide(current: int, o: Observation, p: Policy, step: nat)
    requires ValidPolicy(p)
    ensures var d := DecideAimd(current, o, p, step);
            var n, failed := o.total as real, o.failures as real;
            && (d.enterCooldown <==> o.total >= p.minSamples && failed > p.break_ * n)
            && (o.total == 0 ==> d.target == current)
            && (0 < o.total < p.minSamples ==> d.target == if o.failures > 0 then current else Min(current + step, p.maxPerInstance))
            && (o.total >= p.minSamples ==>
                  && (failed > p.break_ * n ==> d.target == p.minInflight)
                  && (p.decrease * n < failed <= p.break_ * n ==> d.target == Max(p.minInflight, (current as real * p.factor).Floor))
                  && (p.stable * n <= failed <= p.decrease * n ==> d.target == current)
                  && (failed < p.stable * n ==> d.target == Min(current + step, p.maxPerInstance)))
  {
    if o.total >= p.minSamples {
      RateIsShare(o, p.break_);
      RateIsShare(o, p.decrease);
      RateIsShare(o, p.stable);
      ThresholdsInOrder(p, o.total as real);
    }
    hide FailureRate;
  }

  lemma ThresholdsInOrder(p: Policy, n: real)
    requires p.stable < p.decrease < p.break_ && n > 0.0
    ensures p.stable * n < p.decrease * n < p.break_ * n
  {
    assert p.decrease * n - p.stable * n == (p.decrease - p.stable) * n;
    assert p.break_ * n - p.decrease * n == (p.break_ - p.decrease) * n;
  }

  /** One observed window and the increase step drawn for it. */
  datatype Window = Window(observation: Observation, step: nat)

  /** The target after a sequence of windows. */
  function TargetAfter(start: int, windows: seq<Window>, p: Policy): int {
    if windows == [] then start
    else
      var last := windows[|windows| - 1];
      DecideAimd(TargetAfter(start, windows[..|windows| - 1], p), last.observation, p, last.step).target
  }

  predicate InEnvelope(target: int, p: Policy) { p.minInflight <= target <= p.maxPerInstance }

  lemma ObeyingStaysInEnvelope(current: int, v: Verdict, p: Policy, step: nat)
    requires 0.0 < p.factor < 1.0 && InEnvelope(current, p)
    ensures InEnvelope(Obey(current, v, p, step), p)
  {
    match v
    case Keep =>
    case Grow =>
    case Shrink => ScalingRoundsDown(current, p.factor);
    case Collapse =>
  }

  lemma ScalingRoundsDown(n: nat, factor: real)
    requires 0.0 < factor < 1.0
    ensures (n as real * factor).Floor <= n
  {
    var scaled := n as real * factor;
    ScalingIsMonotone(n as real, n as real, factor);
    assert scaled.Floor as real <= scaled <= n as real;
  }

  /** Whatever the windows, the target stays between its floor and its cap. */
  lemma {:induction false} TargetStaysInEnvelope(start: int, windows: seq<Window>, p: Policy)
    requires ValidPolicy(p) && InEnvelope(start, p)
    ensures InEnvelope(TargetAfter(start, windows, p), p)
  {
    if windows != [] {
      TargetStaysInEnvelope(start, windows[..|windows| - 1], p);
      var last := windows[|windows| - 1];
      ObeyingStaysInEnvelope(TargetAfter(start, windows[..|windows| - 1], p), Judge(last.observation, p), p, last.step);
    }
  }

  function Power(x: real, k: nat): real { if k == 0 then 1.0 else x * Power(x, k - 1) }

  /** `start` scaled `k` times: factor^k of it, by DecayedIsPower. */
  function Decayed(start: real, factor: real, k: nat): real {
    if k == 0 then start else Decayed(start, factor, k - 1) * factor
  }

  lemma {:induction false} DecayedIsPower(start: real, factor: real, k: nat)
    ensures Decayed(start, factor, k) == Power(factor, k) * start
  {
    if k > 0 {
      DecayedIsPower(start, factor, k - 1);
      var power := Power(factor, k - 1);
      assert power * start * factor == factor * power * start;
    }
  }

  lemma ScalingIsMonotone(a: real, b: real, factor: real)
    requires 0.0 < factor < 1.0 && a <= b
    ensures a * factor <= b * factor
    ensures a >= 0.0 ==> a * factor <= a
  {
  }

  /** One window of a lowering verdict multiplies by the factor at least, or ends at the floor. */
  lemma LoweringStep(current: int, v: Verdict, p: Policy, step: nat, bound: real, scaled: real)
    requires 0.0 < p.factor < 1.0 && v in {Shrink, Collapse} && p.minInflight <= current
    requires current as real <= bound || current == p.minInflight
    requires scaled == bound * p.factor
    ensures var target := Obey(current, v, p, step);
            target as real <= scaled || target == p.minInflight
  {
    ScalingIsMonotone(current as real, if current as real <= bound then bound else current as real, p.factor);
  }

  /** One degraded window likewise. */
  lemma DegradedStep(current: int, o: Observation, p: Policy, step: nat, bound: real, scaled: real)
    requires ValidPolicy(p) && InEnvelope(current, p) && Degraded(o, p)
    requires current as real <= bound || current == p.minInflight
    requires scaled == bound * p.factor
    ensures var target := DecideAimd(current, o, p, step).target;
            target as real <= scaled || target == p.minInflight
  {
    LoweringStep(current, Judge(o, p), p, step, bound, scaled);
  }

  /**
    Multiplicative decrease despite truncation: after k degraded windows the
    target is at most factor^k times where it started, or at its floor.
  */
  lemma {:induction false} DegradedWindowsDecay(start: int, windows: seq<Window>, p: Policy)
    requires ValidPolicy(p) && InEnvelope(start, p)
    requires forall w :: w in windows ==> Degraded(w.observation, p)
    ensures var target := TargetAfter(start, windows, p);
            target as real <= Decayed(start as real, p.factor, |windows|) || target == p.minInflight
  {
    if windows != [] {
      var before := windows[..|windows| - 1];
      var last := windows[|windows| - 1];
      assert last in windows;
      DegradedWindowsDecay(start, before, p);
      TargetStaysInEnvelope(start, before, p);
      DegradedStep(TargetAfter(start, before, p), last.observation, p, last.step,
                   Decayed(start as real, p.factor, |before|), Decayed(start as real, p.factor, |windows|));
    }
  }

  function SumOfSteps(windows: seq<Window>): nat {
    if windows == [] then 0 else SumOfSteps(windows[..|windows| - 1]) + windows[|windows| - 1].step
  }

  /** Additive increase: healthy windows add exactly their steps, up to the cap. */
  lemma {:induction false} HealthyWindowsAdd(start: int, windows: seq<Window>, p: Policy)
    requires ValidPolicy(p) && InEnvelope(start, p)
    requires forall w :: w in windows ==> Healthy(w.observation, p)
    ensures TargetAfter(start, windows, p) == Min(start + SumOfSteps(windows), p.maxPerInstance)
  {
    if windows != [] {
      var last := windows[|windows| - 1];
      assert last in windows;
      HealthyWindowsAdd(start, windows[..|windows| - 1], p);
    }
  }

  lemma {:induction false} EqualStepsSum(windows: seq<Window>, step: nat)
    requires forall w :: w in windows ==> w.step == step
    ensures SumOfSteps(windows) == |windows| * step
  {
    if windows != [] {
      assert windows[|windows| - 1] in windows;
      EqualStepsSum(windows[..|windows| - 1], step);
      assert |windows| * step == (|windows| - 1) * step + step;
    }
  }

  /** ceil(a / b) for a nonnegative `a`. */
  function CeilDiv(a: nat, b: nat): nat
    requires b > 0
  {
    (a + b - 1) / b
  }

  /** The cap is reached after exactly ceil(gap / step) healthy windows, and not one earlier. */
  lemma {:induction false} CapReachedInCeilGapOverStep(start: int, windows: seq<Window>, p: Policy, step: nat)
    requires ValidPolicy(p) && InEnvelope(start, p) && step > 0
    requires forall w :: w in windows ==> Healthy(w.observation, p) && w.step == step
    ensures TargetAfter(start, windows, p) == p.maxPerInstance <==> |windows| >= CeilDiv(p.maxPerInstance - start, step)
  {
    HealthyWindowsAdd(start, windows, p);
    EqualStepsSum(windows, step);
    CoveredIffEnoughSteps(p.maxPerInstance - start, |windows|, step);
  }

  lemma CoveredIffEnoughSteps(gap: nat, n: nat, step: nat)
    requires step > 0
    ensures n * step >= gap <==> n >= CeilDiv(gap, step)
  {
    var q, r := (gap + step - 1) / step, (gap + step - 1) % step;
    assert gap + step - 1 == q * step + r;
    if n >= q {
      assert n * step >= q * step;
    } else {
      assert n * step <= (q - 1) * step == q * step - step;
    }
  }

  // --------------------------------------------------------------- counters

  datatype Attempt = Attempt(failed: bool, retryAfter: Option<real>)

  function LargestRetryAfter(attempts: seq<Attempt>): Option<real> {
    if attempts == [] then None
    else
      var before := LargestRetryAfter(attempts[..|attempts| - 1]);
      var last := attempts[|attempts| - 1];
      if last.failed && last.retryAfter.Some?
      then Some(MaxTime(if before.Some? then before.value else 0.0, last.retryAfter.value))
      else before
  }

  function Failures(attempts: seq<Attempt>): nat {
    if attempts == [] then 0
    else Failures(attempts[..|attempts| - 1]) + if attempts[|attempts| - 1].failed then 1 else 0
  }

  function ObservationOf(attempts: seq<Attempt>): Observation {
    Observation(|attempts|, Failures(attempts), LargestRetryAfter(attempts))
  }

  lemma {:induction false} FailuresAreAttempts(attempts: seq<Attempt>)
    ensures Failures(attempts) <= |attempts|
    ensures 0.0 <= FailureRate(ObservationOf(attempts)) <= 1.0
  {
    if attempts != [] {
      FailuresAreAttempts(attempts[..|attempts| - 1]);
      var f, t := Failures(attempts) as real, |attempts| as real;
      assert 0.0 <= f <= t;
      assert f / t <= 1.0 by {
        assert t * (f / t) == f;
      }
    }
  }

  /** One attempt more. */
  lemma OneMore(attempts: seq<Attempt>, last: Attempt)
    ensures var before, after := ObservationOf(attempts), ObservationOf(attempts + [last]);
            && after.total == before.total + 1
            && after.failures == before.failures + (if last.failed then 1 else 0)
            && after.retryAfter == if last.failed && last.retryAfter.Some?
                                   then Some(MaxTime(if before.retryAfter.Some? then before.retryAfter.value else 0.0,
                                                     last.retryAfter.value))
                                   else before.retryAfter
  {
    assert (attempts + [last])[..|attempts|] == attempts;
  }

  class WindowCounters {
    var total: nat
    var failures: nat
    var retryAfter: Option<real>
    ghost var attempts: seq<Attempt>   // recorded since the last snapshot

    ghost predicate Valid()
      reads this
    {
      Observation(total, failures, retryAfter) == ObservationOf(attempts)
    }

    constructor ()
      ensures Valid() && attempts == []
    {
      total, failures, retryAfter, attempts := 0, 0, None, [];
    }

    method Record(failed: bool, retryAfterSeconds: Option<real>)
      requires Valid()
      modifies this
      ensures Valid() && attempts == old(attempts) + [Attempt(failed, retryAfterSeconds)]
    {
      OneMore(attempts, Attempt(failed, retryAfterSeconds));
      attempts := attempts + [Attempt(failed, retryAfterSeconds)];
      total := total + 1;
      if !failed {
        return;
      }
      failures := failures + 1;
      if retryAfterSeconds.Some? {
        var current := if retryAfter.Some? then retryAfter.value else 0.0;
        retryAfter := Some(MaxTime(current, retryAfterSeconds.value));
      }
    }

    /** Each attempt is in exactly one window: the snapshot holds all since the last, and none remains. */
    method SnapshotAndReset() returns (o: Observation)
      requires Valid()
      modifies this
      ensures Valid() && attempts == []
      ensures o == ObservationOf(old(attempts))
    {
      o := Observation(total, failures, retryAfter);
      total, failures, retryAfter, attempts := 0, 0, None, [];
    }
  }
}
