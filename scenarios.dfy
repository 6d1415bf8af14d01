/** Properties of the dosing state machine over several commands and passes of
    the main loop: whole boluses, the rewind job from start to end, the
    temporary rate's lifetime, suspension, the debounced save and restarts. */
module Scenarios {
  import opened PumpConfig
  import opened Timing
  import opened Nvs
  import opened Dosing

  /** What one pass of loop() reads from the outside: millis() at its start
      and the prime button's level. */
  datatype Sample = Sample(now: nat, buttonLow: bool)

  /** The main loop run once per sample. */
  function Run(s: PumpState, samples: seq<Sample>): (r: PumpState)
    ensures Inv(s) ==> Inv(r)
    ensures r.suspended == s.suspended
    decreases |samples|
  {
    if samples == [] then s
    else Run(Tick(s, samples[0].now, samples[0].buttonLow), samples[1..])
  }

  /** Every reachable state, however long the loop has run, keeps the
      reservoir's books: delivered + remaining is the full 315 U. */
  lemma RunConservesVolume(s: PumpState, samples: seq<Sample>)
    requires Inv(s)
    ensures Run(s, samples).delivered + Run(s, samples).remaining == TOTAL_UNITS
    ensures 0 <= Run(s, samples).remaining <= TOTAL_UNITS
  {
  }

  // ---------------------------------------------------------------------
  // Boluses

  /** How many pulses the bolus step fires for `pending` milli-units: it
      keeps pulsing while more than 0.01 U is pending. The count is the
      request less the tolerance, rounded up to whole increments. */
  function BolusPulses(pending: int): (n: nat)
    ensures pending <= EPSILON ==> n == 0
    ensures pending > EPSILON ==>
              pending - EPSILON <= n * DOSE_INCREMENT < pending - EPSILON + DOSE_INCREMENT
    decreases pending
  {
    if pending <= EPSILON then 0 else 1 + BolusPulses(pending - DOSE_INCREMENT)
  }

  /** A request of whole increments is delivered exactly. */
  lemma WholeIncrementBolus(k: nat)
    ensures BolusPulses(k * DOSE_INCREMENT) == k
  {
  }

  /** The samples come at least one bolus interval after the end of the
      previous bolus pulse (which ended at `last`). */
  ghost predicate Paced(last: int, samples: seq<Sample>)
    decreases |samples|
  {
    samples == [] ||
    (samples[0].now >= last + TICK_INTERVAL_MS && Paced(samples[0].now + TICK_DURATION_MS, samples[1..]))
  }

  /** Neither the base nor the temporary rate would fire a basal pulse. */
  ghost predicate NoBasal(s: PumpState) {
    s.basalRate <= EPSILON && s.tempRate <= EPSILON
  }

  /** One pass of the loop during a bolus that is due fires exactly one bolus
      pulse and nothing else. */
  lemma BolusTickFires(s: PumpState, x: Sample)
    requires Inv(s) && s.pumping && s.pending > EPSILON && s.remaining > 0 && NoBasal(s)
    requires x.now >= s.lastBolusTick + TICK_INTERVAL_MS
    ensures var r := Tick(s, x.now, x.buttonLow);
            && r.delivered == s.delivered + DOSE_INCREMENT
            && r.remaining == s.remaining - DOSE_INCREMENT
            && r.pumping == (s.pending - DOSE_INCREMENT > EPSILON)
            && r.pending == (if r.pumping then s.pending - DOSE_INCREMENT else 0)
            && r.lastBolusTick == x.now + TICK_DURATION_MS
            && NoBasal(r) && Inv(r)
  {
    var s1 := ExpireTempBasal(s, x.now);
    var s2 := FinishRewind(s1, x.now);
    assert s2 == s1;
    var p := PrimeEdge(s2, x.now, x.buttonLow);
    assert p.1 == x.now && Actuates(p.0);
    var b := BolusStep(p.0, p.1);
    assert !BasalDue(b.0, b.1);
  }

  /** A bolus that the reservoir can cover, left to run with one loop pass
      per bolus interval, fires BolusPulses(pending) pulses, then ends with
      nothing pending. */
  lemma {:induction false} BolusRunDelivers(s: PumpState, samples: seq<Sample>)
    requires Inv(s) && s.pumping && s.pending > EPSILON && NoBasal(s)
    requires |samples| == BolusPulses(s.pending)
    requires s.remaining >= |samples| * DOSE_INCREMENT
    requires Paced(s.lastBolusTick, samples)
    ensures var r := Run(s, samples);
            && r.delivered == s.delivered + |samples| * DOSE_INCREMENT
            && r.remaining == s.remaining - |samples| * DOSE_INCREMENT
            && !r.pumping && r.pending == 0
    decreases |samples|
  {
    var x := samples[0];
    BolusTickFires(s, x);
    var r1 := Tick(s, x.now, x.buttonLow);
    assert Run(s, samples) == Run(r1, samples[1..]);
    if r1.pumping {
      BolusRunDelivers(r1, samples[1..]);
    }
  }

  /** The 200 ms basal yield does not cover a bolus's final pulse: the pass
      that fires it also ends the bolus, so a due basal pulse follows it in
      the same pass and the pass delivers two increments. */
  lemma FinalBolusPulseNoYield(s: PumpState, x: Sample)
    requires Inv(s) && s.pumping && EPSILON < s.pending <= DOSE_INCREMENT + EPSILON
    requires s.remaining >= 2 * DOSE_INCREMENT && !x.buttonLow
    requires x.now >= s.lastBolusTick + TICK_INTERVAL_MS
    requires !s.tempActive && s.basalRate > EPSILON
    requires x.now + TICK_DURATION_MS >= s.lastBasalTick + BasalIntervalMs(s.basalRate)
    ensures Tick(s, x.now, x.buttonLow).delivered == s.delivered + 2 * DOSE_INCREMENT
  {
    var s1 := ExpireTempBasal(s, x.now);
    assert FinishRewind(s1, x.now) == s1;
    var p := PrimeEdge(s1, x.now, x.buttonLow);
    var b := BolusStep(p.0, p.1);
    assert !b.0.pumping && b.1 == x.now + TICK_DURATION_MS;
    assert BasalDue(b.0, b.1) && Actuates(b.0);
  }

  /** A 5 U bolus accepted by an idle pump with at least 5 U left: ten
      pulses, one per bolus interval, deliver exactly 5 U and end the bolus. */
  lemma FiveUnitBolus(s: PumpState, now: nat, samples: seq<Sample>)
    requires Inv(s) && !s.suspended && !s.rewinding && !s.empty && !s.pumping && NoBasal(s)
    requires s.remaining >= 5000 && |samples| == 10 && Paced(now, samples)
    ensures Bolus(s, now, 5000).1 == Accepted
    ensures var r := Run(Bolus(s, now, 5000).0, samples);
            && r.delivered == s.delivered + 5000 && r.remaining == s.remaining - 5000
            && !r.pumping && r.pending == 0
  {
    WholeIncrementBolus(10);
    BolusRunDelivers(Bolus(s, now, 5000).0, samples);
  }

  /** The empty flag is latched lazily: a bolus that drains the reservoir to
      exactly zero leaves it clear, so the next bolus is accepted, and its
      first due pass delivers nothing, latches the reservoir empty and ends
      the bolus. */
  lemma BolusAcceptedOnDrainedReservoir(s: PumpState, now: nat, units: int, x: Sample)
    requires Inv(s) && s.remaining == 0 && !s.empty
    requires !s.pumping && !s.suspended && !s.rewinding
    requires units > EPSILON && x.now >= now + TICK_INTERVAL_MS
    ensures Bolus(s, now, units).1 == Accepted
    ensures var r := Tick(Bolus(s, now, units).0, x.now, x.buttonLow);
            r.delivered == s.delivered && r.empty && !r.pumping
  {
    var b := Bolus(s, now, units).0;
    var s1 := ExpireTempBasal(b, x.now);
    var s2 := FinishRewind(s1, x.now);
    assert s2 == s1;
    var p := PrimeEdge(s2, x.now, x.buttonLow);
    assert p.0.remaining == 0 && p.1 == x.now;
  }

  // ---------------------------------------------------------------------
  // Suspension, stop and the rewind

  /** While suspended or rewinding (and the rewind does not end in this
      pass) the loop fires no pulse at all. */
  lemma InhibitedTickDeliversNothing(s: PumpState, now: nat, buttonLow: bool)
    requires s.suspended || s.rewinding
    requires !RewindDone(s, now)
    ensures Tick(s, now, buttonLow).delivered == s.delivered
    ensures Tick(s, now, buttonLow).remaining == s.remaining
  {
    var s1 := ExpireTempBasal(s, now);
    assert FinishRewind(s1, now) == s1;
  }

  /** A suspension forces every pulse of a pass to be refused, whatever the
      other flags say; only the refill of a rewind ending in that pass moves
      the delivered count (back to zero). */
  lemma SuspendedNeverPulses(s: PumpState, now: nat, buttonLow: bool)
    requires s.suspended
    ensures Tick(s, now, buttonLow).delivered == (if RewindDone(s, now) then 0 else s.delivered)
  {
    assert FinishRewind(ExpireTempBasal(s, now), now).suspended;
  }

  /** A suspend right after a bolus is accepted cancels it before any pulse:
      nothing is pending, and the next pass delivers nothing. */
  lemma SuspendCancelsBolus(s: PumpState, now: nat, units: int, x: Sample)
    requires Inv(s) && Bolus(s, now, units).1 == Accepted
    ensures var c := Suspend(Bolus(s, now, units).0);
            && c.suspended && !c.pumping && c.pending == 0 && c.delivered == s.delivered
            && Tick(c, x.now, x.buttonLow).delivered == s.delivered
  {
    var c := Suspend(Bolus(s, now, units).0);
    InhibitedTickDeliversNothing(c, x.now, x.buttonLow);
  }

  /** A resume does not revive the bolus a suspend cancelled. */
  lemma ResumeDoesNotRestartBolus(s: PumpState)
    ensures var r := Resume(Suspend(s));
            !r.suspended && !r.pumping && r.pending == 0 && r.delivered == s.delivered
  {
  }

  /** After a stop, a pass without a button press that ends no rewind
      delivers nothing: the bolus, the temporary rate and the base rate are
      all gone. */
  lemma StopHaltsDelivery(s: PumpState, x: Sample)
    requires !RewindDone(s, x.now) && !x.buttonLow
    ensures Tick(Stop(s), x.now, x.buttonLow).delivered == s.delivered
  {
    var c := Stop(s);
    var s1 := ExpireTempBasal(c, x.now);
    assert FinishRewind(s1, x.now) == s1;
    var p := PrimeEdge(s1, x.now, x.buttonLow);
    var b := BolusStep(p.0, p.1);
    assert ActiveBasalRate(b.0) == 0;
  }

  /** The reset of a pump that has delivered something starts a rewind whose
      length is 55 ms per increment delivered; a pass before that time
      delivers nothing and leaves it rewinding, and the first pass at or after
      it refills the reservoir and saves it at once. */
  lemma RewindLifecycle(s: PumpState, now: nat, early: Sample, late: Sample)
    requires Inv(s) && !s.pumping && !s.rewinding && !s.suspended && s.delivered > 0
    requires NoBasal(s) && !late.buttonLow && now <= early.now
    requires early.now < now + s.delivered / DOSE_INCREMENT * TICK_DURATION_MS
    requires late.now >= now + s.delivered / DOSE_INCREMENT * TICK_DURATION_MS
    ensures var (r, reply) := Reset(s, now);
            && reply == Accepted && r.rewinding
            && r.rewindDuration == s.delivered / DOSE_INCREMENT * TICK_DURATION_MS
    ensures var r := Tick(Reset(s, now).0, early.now, early.buttonLow);
            r.rewinding && r.delivered == s.delivered
    ensures var r := Tick(Reset(s, now).0, late.now, late.buttonLow);
            && !r.rewinding && r.delivered == 0 && r.remaining == TOTAL_UNITS && !r.empty
            && Load(r.nvs) == Persisted(r) && !r.dirty
  {
    ResetDurationIsProportional(s);
    var r := Reset(s, now).0;
    InhibitedTickDeliversNothing(r, early.now, early.buttonLow);
    var s1 := ExpireTempBasal(r, late.now);
    var s2 := FinishRewind(s1, late.now);
    var p := PrimeEdge(s2, late.now, late.buttonLow);
    assert p.0 == s2.(buttonWasHigh := true);
    var b := BolusStep(p.0, p.1);
    assert b.0 == p.0;
    assert !BasalDue(b.0, b.1);
  }

  /** A reset of a pump that has delivered nothing is answered at once with a
      full, saved reservoir and no rewind. */
  lemma ResetWithNothingDelivered(s: PumpState, now: nat)
    requires Inv(s) && !s.pumping && !s.rewinding && !s.suspended && s.delivered == 0
    ensures var (r, reply) := Reset(s, now);
            reply == Accepted && !r.rewinding && r.remaining == TOTAL_UNITS && !r.dirty
            && Load(r.nvs) == Persisted(r)
  {
    ResetDurationIsProportional(s);
  }

  // ---------------------------------------------------------------------
  // The temporary rate

  /** The temporary rate holds through its end time and is gone on the first
      pass strictly after it; a zero-minute override is gone one millisecond
      later. */
  lemma TempBasalLifetime(s: PumpState, now: nat, rate: int, mins: int, x: Sample)
    ensures var r := Tick(TempBasal(s, now, rate, mins), x.now, x.buttonLow);
            && (x.now <= now + mins * MS_PER_MINUTE ==> r.tempActive && ActiveBasalRate(r) == rate)
            && (x.now > now + mins * MS_PER_MINUTE ==> !r.tempActive && ActiveBasalRate(r) == s.basalRate)
  {
  }

  /** While the override is active the base rate has no say in the basal
      step: the override replaces it, it is not added to it. */
  lemma TempOverrideReplacesBase(s: PumpState, base: int, t: nat)
    requires s.tempActive
    ensures ActiveBasalRate(s.(basalRate := base)) == s.tempRate
    ensures BasalStep(s.(basalRate := base), t).0 == BasalStep(s, t).0.(basalRate := base)
  {
  }

  // ---------------------------------------------------------------------
  // Persistence

  /** The longest a pass of the loop can block: a prime pulse and its pause,
      a bolus pulse and a basal pulse. */
  const MAX_TICK_MS: nat := 3 * TICK_DURATION_MS + PRIME_DELAY_MS

  /** Within the debounce window the flash is left alone, unless a rewind
      ends in this pass. */
  lemma DebouncedSave(s: PumpState, now: nat, buttonLow: bool)
    requires !RewindDone(s, now)
    requires now + MAX_TICK_MS < s.lastSaveTime + SAVE_INTERVAL_MS
    ensures Tick(s, now, buttonLow).nvs == s.nvs
    ensures Tick(s, now, buttonLow).lastSaveTime == s.lastSaveTime
  {
    var s1 := ExpireTempBasal(s, now);
    assert FinishRewind(s1, now) == s1;
    assert s1.nvs == s.nvs && s1.lastSaveTime == s.lastSaveTime;
    var p := PrimeEdge(s1, now, buttonLow);
    assert p.0.nvs == s.nvs && p.0.lastSaveTime == s.lastSaveTime;
    var b := BolusStep(p.0, p.1);
    assert b.0.nvs == s.nvs && b.0.lastSaveTime == s.lastSaveTime;
    var d := BasalStep(b.0, b.1);
    assert d.0.nvs == s.nvs && d.0.lastSaveTime == s.lastSaveTime;
    assert d.1 <= now + MAX_TICK_MS;
    assert !SaveDue(d.0, d.1);
  }

  /** Once latched, the empty flag survives every pass of the loop that does
      not end a rewind, and no pass starts a rewind. */
  lemma EmptyStaysLatched(s: PumpState, now: nat, buttonLow: bool)
    requires s.empty && !RewindDone(s, now)
    ensures Tick(s, now, buttonLow).empty
    ensures !s.rewinding ==> !Tick(s, now, buttonLow).rewinding
  {
    var s1 := ExpireTempBasal(s, now);
    assert FinishRewind(s1, now) == s1;
  }

  /** So, left to itself, a pump latched empty with no rewind running stays
      empty however long the loop runs: only a reset refills it. */
  lemma {:induction false} EmptyStaysLatchedOverRun(s: PumpState, samples: seq<Sample>)
    requires s.empty && !s.rewinding
    ensures Run(s, samples).empty && !Run(s, samples).rewinding
    decreases |samples|
  {
    if samples != [] {
      EmptyStaysLatched(s, samples[0].now, samples[0].buttonLow);
      EmptyStaysLatchedOverRun(Tick(s, samples[0].now, samples[0].buttonLow), samples[1..]);
    }
  }

  /** A pass that is not ending a rewind only adds to the delivered volume,
      by at most three increments (prime, bolus and basal). */
  lemma TickDeliveryBounds(s: PumpState, now: nat, buttonLow: bool)
    requires !RewindDone(s, now)
    ensures s.delivered <= Tick(s, now, buttonLow).delivered <= s.delivered + 3 * DOSE_INCREMENT
  {
    var s1 := ExpireTempBasal(s, now);
    assert FinishRewind(s1, now) == s1;
  }

  /** A power loss at any moment restarts into a consistent pump, and one
      that strikes while nothing is dirty loses nothing. */
  lemma PowerLossRecovers(s: PumpState)
    requires Inv(s)
    ensures Inv(Boot(s.nvs))
    ensures !s.dirty ==> Persisted(Boot(s.nvs)) == Persisted(s)
    ensures Persisted(Boot(SaveState(s).nvs)) == Persisted(s)
  {
  }
}
