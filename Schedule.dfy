/**
 * The learning-rate schedule `get_lr`: linear warmup, cosine decay to the floor,
 * then the floor. Arithmetic is over `real`; the cosine is a parameter, and the
 * lemmas that need its shape say which properties of it they use.
 */
module Schedule {
  import opened Common

  /** `max_lr`, `min_lr`, `warmup_steps` and `max_steps` of a run. */
  datatype LrConfig = LrConfig(maxLr: real, minLr: real, warmupSteps: nat, maxSteps: nat)

  /** The run's constants: max_lr = 6e-4, min_lr = max_lr * 0.1, 10 warmup steps, 50 steps. */
  const Configured: LrConfig := LrConfig(0.0006, 0.0006 * 0.1, 10, 50)

  /** `math.pi`: the shortest decimal that reads back as the double nearest pi (not that double's exact value). */
  const Pi: real := 3.141592653589793

  /** A cosine stand-in: its values lie in [-1, 1]. */
  ghost predicate CosBounded(cos: real -> real) {
    forall x :: -1.0 <= cos(x) <= 1.0
  }

  /** A cosine stand-in that does not increase on [0, pi]. */
  ghost predicate CosNonIncreasing(cos: real -> real) {
    forall x, y :: 0.0 <= x <= y <= Pi ==> cos(y) <= cos(x)
  }

  /**
   * `get_lr(it)`. It fails only when the decay phase is a single step with a
   * zero-width span (`it == warmup_steps == max_steps`), and then by
   * ZeroDivisionError: the assertion on `decay_ratio` never fires.
   */
  function GetLr(c: LrConfig, cos: real -> real, it: nat): (r: Result<real>)
    ensures r.Err? <==> it == c.warmupSteps == c.maxSteps
    ensures r.Err? ==> r.error == ZeroDivision
  {
    if it < c.warmupSteps then
      Ok(WarmupLr(c, it))
    else if it > c.maxSteps then
      Ok(c.minLr)
    else
      var span := c.maxSteps - c.warmupSteps;
      if span == 0 then Err(ZeroDivision)
      else
        var decayRatio := DecayRatio(c, it);
        if !(0.0 <= decayRatio <= 1.0) then Err(AssertionFailed)
        else
          Ok(CosineRate(c, cos, decayRatio))
  }

  /** `max_lr * (it+1) / warmup_steps`: the warmup ramp. */
  function WarmupLr(c: LrConfig, it: nat): real
    requires c.warmupSteps > 0
  {
    c.maxLr * (it + 1) as real / c.warmupSteps as real
  }

  /** Multiplication by a non-negative factor preserves order. */
  lemma ScalePreservesOrder(x: real, y: real, k: real)
    requires 0.0 <= k && x <= y
    ensures x * k <= y * k && k * x <= k * y
  {
    assert y * k - x * k == (y - x) * k;
  }

  /** Multiplication by a positive factor preserves strict order. */
  lemma ScaleStrict(x: real, y: real, k: real)
    requires 0.0 < k && x < y
    ensures x * k < y * k && k * x < k * y
  {
    assert y * k - x * k == (y - x) * k;
  }

  /** Multiplying and then dividing by the same non-zero factor is the identity. */
  lemma CancelFactor(x: real, w: real)
    requires w != 0.0
    ensures x * w / w == x
  {
    var q := x * w / w;
    assert q * w == x * w;
    assert (q - x) * w == 0.0;
  }

  /** Multiplication by a positive factor reflects strict order. */
  lemma ScaleReflectsStrict(x: real, y: real, k: real)
    requires k > 0.0 && x * k < y * k
    ensures x < y
  {
    assert y * k - x * k == (y - x) * k;
  }

  /** The cosine phase: `coeff` runs from 1 to 0 as the ratio runs from 0 to 1, interpolating max_lr to min_lr. */
  function CosineRate(c: LrConfig, cos: real -> real, ratio: real): real {
    var coeff := 0.5 * (1.0 + cos(Pi * ratio));
    c.minLr + coeff * (c.maxLr - c.minLr)
  }

  /** With a cosine bounded by 1, the interpolation stays between the floor and the peak. */
  lemma CosineRateBounds(c: LrConfig, cos: real -> real, ratio: real)
    requires CosBounded(cos) && c.minLr <= c.maxLr
    ensures c.minLr <= CosineRate(c, cos, ratio) <= c.maxLr
  {
    var y := cos(Pi * ratio);
    assert -1.0 <= y <= 1.0;
    var coeff, d := 0.5 * (1.0 + y), c.maxLr - c.minLr;
    ScaleWithinUnit(coeff, d);
    assert CosineRate(c, cos, ratio) == c.minLr + coeff * d;
  }

  /** `decay_ratio` of a step in the decay phase. */
  function DecayRatio(c: LrConfig, it: nat): (r: real)
    requires c.warmupSteps < c.maxSteps
    requires c.warmupSteps <= it <= c.maxSteps
    ensures 0.0 <= r <= 1.0
    ensures it == c.warmupSteps <==> r == 0.0
    ensures it == c.maxSteps <==> r == 1.0
  {
    var r := (it - c.warmupSteps) as real / (c.maxSteps - c.warmupSteps) as real;
    assert r * (c.maxSteps - c.warmupSteps) as real == (it - c.warmupSteps) as real;
    r
  }

  /** Scaling by a factor in [0, 1] keeps a non-negative quantity between 0 and itself. */
  lemma ScaleWithinUnit(x: real, d: real)
    requires 0.0 <= x <= 1.0 && 0.0 <= d
    ensures 0.0 <= x * d <= d
  {
    assert d - x * d == (1.0 - x) * d;
  }

  /** Multiplication by a positive factor reflects order. */
  lemma ScaleReflectsOrder(x: real, y: real, k: real)
    requires k > 0.0 && x * k <= y * k
    ensures x <= y
  {
    assert y * k - x * k == (y - x) * k;
  }

  /** Every step the training loop runs (`it < max_steps`) gets a rate. */
  lemma GetLrDefinedBeforeMaxSteps(c: LrConfig, cos: real -> real, it: nat)
    requires it < c.maxSteps
    ensures GetLr(c, cos, it).Ok?
  {
  }

  /** Warmup: every warmup step gets a rate in (0, max_lr]. */
  lemma WarmupRate(c: LrConfig, cos: real -> real, it: nat)
    requires it < c.warmupSteps && c.maxLr > 0.0
    ensures GetLr(c, cos, it) == Ok(WarmupLr(c, it))
    ensures 0.0 < WarmupLr(c, it) <= c.maxLr
  {
    var q, k, w := WarmupLr(c, it), (it + 1) as real, c.warmupSteps as real;
    assert q * w == c.maxLr * k;
    ScalePreservesOrder(k, w, c.maxLr);
    ScaleReflectsOrder(q, c.maxLr, w);
    ScaleStrict(0.0, k, c.maxLr);
    assert 0.0 * w < q * w;
    ScaleReflectsStrict(0.0, q, w);
  }

  /** Warmup is strictly increasing. */
  lemma WarmupIncreasing(c: LrConfig, cos: real -> real, i: nat, j: nat)
    requires i < j < c.warmupSteps && c.maxLr > 0.0
    ensures GetLr(c, cos, i) == Ok(WarmupLr(c, i)) && GetLr(c, cos, j) == Ok(WarmupLr(c, j))
    ensures WarmupLr(c, i) < WarmupLr(c, j)
  {
    var qi, qj, w := WarmupLr(c, i), WarmupLr(c, j), c.warmupSteps as real;
    assert qi * w == c.maxLr * (i + 1) as real;
    assert qj * w == c.maxLr * (j + 1) as real;
    ScaleStrict((i + 1) as real, (j + 1) as real, c.maxLr);
    assert qi * w < qj * w;
    ScaleReflectsStrict(qi, qj, w);
  }

  /** After `max_steps` the rate is the floor `min_lr`. */
  lemma FloorAfterMaxSteps(c: LrConfig, cos: real -> real, it: nat)
    requires it > c.maxSteps && it >= c.warmupSteps
    ensures GetLr(c, cos, it) == Ok(c.minLr)
  {
  }

  /** Decay: step `it` gets the cosine interpolation at its `decay_ratio`. */
  lemma DecayBranch(c: LrConfig, cos: real -> real, it: nat)
    requires c.warmupSteps <= it <= c.maxSteps && c.warmupSteps < c.maxSteps
    ensures GetLr(c, cos, it) == Ok(CosineRate(c, cos, DecayRatio(c, it)))
  {
    var r := DecayRatio(c, it);
  }

  /** With a cosine bounded by 1, every decay-phase rate lies in [min_lr, max_lr]. */
  lemma DecayRate(c: LrConfig, cos: real -> real, it: nat)
    requires c.warmupSteps <= it <= c.maxSteps && c.warmupSteps < c.maxSteps
    requires CosBounded(cos) && c.minLr <= c.maxLr
    ensures GetLr(c, cos, it).Ok?
    ensures c.minLr <= GetLr(c, cos, it).value <= c.maxLr
  {
    DecayBranch(c, cos, it);
    CosineRateBounds(c, cos, DecayRatio(c, it));
  }

  /** With a positive floor below the peak, every rate the schedule produces is in (0, max_lr]. */
  lemma RateBounds(c: LrConfig, cos: real -> real, it: nat)
    requires CosBounded(cos) && 0.0 < c.minLr <= c.maxLr
    requires GetLr(c, cos, it).Ok?
    ensures 0.0 < GetLr(c, cos, it).value <= c.maxLr
  {
    if it < c.warmupSteps {
      WarmupRate(c, cos, it);
    } else if it <= c.maxSteps {
      DecayRate(c, cos, it);
    }
  }

  /**
   * The run's schedule: the floor is max_lr / 10, no step fails, the first step
   * gets a tenth of max_lr and the last warmup step (step 9) reaches it.
   */
  lemma ConfiguredSchedule(cos: real -> real)
    ensures Configured.minLr == 0.00006
    ensures forall it :: GetLr(Configured, cos, it).Ok?
    ensures GetLr(Configured, cos, 0) == Ok(0.00006)
    ensures GetLr(Configured, cos, 9) == Ok(0.0006)
  {
    WarmupEndsAtPeak(Configured, cos);
  }

  /** The first step gets `max_lr / warmup_steps`. */
  lemma FirstStepRate(c: LrConfig, cos: real -> real)
    requires c.warmupSteps > 0
    ensures GetLr(c, cos, 0) == Ok(c.maxLr / c.warmupSteps as real)
  {
  }

  /** The last warmup step reaches `max_lr`. */
  lemma WarmupEndsAtPeak(c: LrConfig, cos: real -> real)
    requires 0 < c.warmupSteps
    ensures GetLr(c, cos, c.warmupSteps - 1) == Ok(c.maxLr)
  {
    var last: nat := c.warmupSteps - 1;
    var w := c.warmupSteps as real;
    assert (last + 1) as real == w;
    assert WarmupLr(c, last) == c.maxLr * w / w;
    CancelFactor(c.maxLr, w);
    assert GetLr(c, cos, last) == Ok(WarmupLr(c, last));
    assert WarmupLr(c, last) == c.maxLr;
    assert GetLr(c, cos, last) == Ok(c.maxLr);
  }

  /** With cos(0) = 1 the first decay step is also at `max_lr`: the schedule is continuous there. */
  lemma DecayStartsAtPeak(c: LrConfig, cos: real -> real)
    requires c.warmupSteps < c.maxSteps
    requires cos(0.0) == 1.0
    ensures GetLr(c, cos, c.warmupSteps) == Ok(c.maxLr)
  {
    DecayBranch(c, cos, c.warmupSteps);
    assert Pi * DecayRatio(c, c.warmupSteps) == 0.0;
  }

  /** With cos(pi) = -1 the decay ends exactly at `min_lr` at `max_steps`, where the floor takes over. */
  lemma ContinuousAtMaxSteps(c: LrConfig, cos: real -> real)
    requires c.warmupSteps < c.maxSteps
    requires cos(Pi) == -1.0
    ensures GetLr(c, cos, c.maxSteps) == Ok(c.minLr)
    ensures GetLr(c, cos, c.maxSteps + 1) == Ok(c.minLr)
  {
    assert DecayRatio(c, c.maxSteps) == 1.0;
  }

  /** With a cosine that does not increase on [0, pi], the decay phase does not increase. */
  lemma DecayNonIncreasing(c: LrConfig, cos: real -> real, i: nat, j: nat)
    requires c.warmupSteps <= i <= j <= c.maxSteps && c.warmupSteps < c.maxSteps
    requires CosNonIncreasing(cos) && c.minLr <= c.maxLr
    ensures GetLr(c, cos, i).Ok? && GetLr(c, cos, j).Ok?
    ensures GetLr(c, cos, j).value <= GetLr(c, cos, i).value
  {
    var span := (c.maxSteps - c.warmupSteps) as real;
    var ri, rj := DecayRatio(c, i), DecayRatio(c, j);
    assert ri <= rj by {
      assert ri * span == (i - c.warmupSteps) as real;
      assert rj * span == (j - c.warmupSteps) as real;
      assert (i - c.warmupSteps) as real <= (j - c.warmupSteps) as real;
      assert ri * span <= rj * span;
      ScaleReflectsOrder(ri, rj, span);
    }
    assert 0.0 <= Pi * ri <= Pi * rj <= Pi;
    assert cos(Pi * rj) <= cos(Pi * ri);
    var d := c.maxLr - c.minLr;
    assert (1.0 + cos(Pi * rj)) * d <= (1.0 + cos(Pi * ri)) * d;
  }
}
