/** Physical and timing constants of the pump.

    Volumes are counted in milli-units (0.001 U of insulin) so that the
    firmware's float quantities become exact integers: one motor pulse moves
    500 mU, the reservoir holds 315000 mU, and the 0.01 U tolerance that the
    firmware uses in its float comparisons is 10 mU. Rates are in milli-units
    per hour and times in milliseconds. */
module PumpConfig {
  /** Full reservoir: 315 U (40 mm stroke through a 40:1 worm drive). */
  const TOTAL_UNITS: int := 315_000
  /** Volume moved by one forward motor pulse: 0.5 U. */
  const DOSE_INCREMENT: int := 500
  /** Tolerance of the firmware's float comparisons: 0.01 U. */
  const EPSILON: int := 10
  /** Motor run time for one dose increment. */
  const TICK_DURATION_MS: nat := 55
  /** Minimum gap between two bolus pulses. */
  const TICK_INTERVAL_MS: nat := 1000
  /** Debounce window of the periodic flash save. */
  const SAVE_INTERVAL_MS: nat := 30_000
  /** Pause after a manual prime pulse. */
  const PRIME_DELAY_MS: nat := 200
  /** While a bolus runs, a basal pulse waits until the bolus clock was
      stamped more than this long ago. */
  const BASAL_YIELD_MS: nat := 200
  const MS_PER_HOUR: nat := 3_600_000
  const MS_PER_MINUTE: nat := 60_000
  /** The interval reported for a non-positive rate (the largest unsigned long). */
  const NO_BASAL_INTERVAL: nat := 0xFFFF_FFFF
}
