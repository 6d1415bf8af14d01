/** The two pieces of arithmetic that turn volumes and rates into time. */
module Timing {
  import opened PumpConfig

  /** getBasalIntervalMs: the gap between basal pulses at `rate` mU/h.
      The firmware computes 3600000 / (rate / 0.5) in floating point and
      truncates; with the rate in milli-units that is the floor of
      3600000 * 500 / rate. The contract says what the gap means: it is the
      longest whole number of milliseconds at which one 500 mU pulse per gap
      still delivers at least `rate` per hour. */
  function BasalIntervalMs(rate: int): (ms: nat)
    ensures rate <= 0 ==> ms == NO_BASAL_INTERVAL
    ensures rate > 0 ==> ms * rate <= MS_PER_HOUR * DOSE_INCREMENT < (ms + 1) * rate
    ensures ms <= NO_BASAL_INTERVAL
  {
    if rate <= 0 then NO_BASAL_INTERVAL
    else
      var ms := MS_PER_HOUR * DOSE_INCREMENT / rate;
      MulAtLeastFactor(ms, rate);
      ms
  }

  lemma MulAtLeastFactor(x: nat, k: int)
    requires k >= 1
    ensures x <= x * k
  {
    assert x * k == x + x * (k - 1);
  }

  lemma MulMonotone(x: nat, a: int, b: int)
    requires a <= b
    ensures x * a <= x * b
  {
    assert x * b - x * a == x * (b - a);
  }

  /** A faster rate never gets a longer gap between pulses (the floor makes
      neighbouring rates share a gap, so the order is not strict). */
  lemma IntervalNonIncreasing(a: int, b: int)
    requires a <= b
    ensures BasalIntervalMs(b) <= BasalIntervalMs(a)
  {
    if a > 0 {
      var x, y := BasalIntervalMs(a), BasalIntervalMs(b);
      MulMonotone(y, a, b);
      if y >= x + 1 {
        MulMonotone(a, x + 1, y);
        assert false;
      }
    }
  }

  /** A positive rate always gets a finite gap, shorter than the sentinel. */
  lemma PositiveRateHasFiniteInterval(rate: int)
    requires rate > 0
    ensures BasalIntervalMs(rate) < NO_BASAL_INTERVAL
  {
    MulAtLeastFactor(BasalIntervalMs(rate), rate);
  }

  /** The rewind time computed by the reset command: (delivered / 0.5) pulses
      of 55 ms each, truncated to whole milliseconds. For a whole number of
      increments it is exactly one pulse time per increment delivered. */
  function RewindDurationMs(delivered: nat): (ms: nat)
    ensures delivered % DOSE_INCREMENT == 0 ==>
              ms == delivered / DOSE_INCREMENT * TICK_DURATION_MS
    ensures ms == 0 <==> delivered * TICK_DURATION_MS < DOSE_INCREMENT
  {
    WholeIncrementsRewind(delivered);
    delivered * TICK_DURATION_MS / DOSE_INCREMENT
  }

  lemma WholeIncrementsRewind(delivered: nat)
    ensures delivered % DOSE_INCREMENT == 0 ==>
              delivered * TICK_DURATION_MS / DOSE_INCREMENT == delivered / DOSE_INCREMENT * TICK_DURATION_MS
  {
    if delivered % DOSE_INCREMENT == 0 {
      var k := delivered / DOSE_INCREMENT;
      assert delivered * TICK_DURATION_MS == (k * TICK_DURATION_MS) * DOSE_INCREMENT;
    }
  }

  /** Rewinding more delivered volume never takes less time. */
  lemma RewindMonotone(a: nat, b: nat)
    requires a <= b
    ensures RewindDurationMs(a) <= RewindDurationMs(b)
  {
    MulMonotone(TICK_DURATION_MS, a, b);
  }
}
