/** The firmware's globals as the fields of one controller object, with one
    method per command handler and a Tick method for loop(). Every method
    updates the fields in place, as the firmware does, and promises that the
    resulting state is the one the matching function of module Dosing
    computes from the old state. */
module Controller {
  import opened PumpConfig
  import opened Timing
  import opened Nvs
  import opened Dosing

  class Pump {
    var unitsDelivered: int
    var unitsRemaining: int
    var basalRateUph: int
    var lastBolusAmount: int
    var isReservoirEmpty: bool
    var isPumping: bool
    var pendingUnits: int
    var lastBolusTick: nat
    var isSuspended: bool
    var isTempBasalActive: bool
    var tempBasalRate: int
    var tempBasalEndMillis: int
    var lastBasalTick: nat
    var isRewinding: bool
    var rewindStartTime: nat
    var rewindDuration: nat
    var stateDirty: bool
    var lastSaveTime: nat
    /** The flash namespace. */
    var preferences: Store
    /** loop()'s static lastBtnState, HIGH being true. */
    var lastBtnHigh: bool

    /** The fields as one value. */
    function State(): PumpState
      reads this
    {
      PumpState(unitsDelivered, unitsRemaining, basalRateUph, lastBolusAmount, isReservoirEmpty,
                isPumping, pendingUnits, lastBolusTick, isSuspended,
                isTempBasalActive, tempBasalRate, tempBasalEndMillis, lastBasalTick,
                isRewinding, rewindStartTime, rewindDuration,
                stateDirty, lastSaveTime, preferences, lastBtnHigh)
    }

    ghost predicate Valid()
      reads this
    {
      Inv(State())
    }

    /** The controller's timestamps all lie in the past of `now`. This records
        the firmware's assumption that millis() only moves forward (its 32-bit
        wrap-around is not modelled), under which the unsigned differences of
        loop() equal the model's integer differences; no proof step needs it. */
    predicate ClockNotBefore(now: nat)
      reads this
    {
      lastBolusTick <= now && lastBasalTick <= now && rewindStartTime <= now && lastSaveTime <= now
    }

    /** setup(): the globals start at their initialisers, then the persisted
        record is loaded from `stored`. */
    constructor (stored: Store)
      ensures State() == Boot(stored)
      ensures ReservoirOk(Load(stored)) ==> Valid()
    {
      unitsDelivered, unitsRemaining, basalRateUph, lastBolusAmount := 0, TOTAL_UNITS, 0, 0;
      isReservoirEmpty, isPumping, pendingUnits, lastBolusTick := false, false, 0, 0;
      isSuspended, isTempBasalActive, tempBasalRate, tempBasalEndMillis := false, false, 0, 0;
      lastBasalTick, isRewinding, rewindStartTime, rewindDuration := 0, false, 0, 0;
      stateDirty, lastSaveTime, preferences, lastBtnHigh := false, 0, stored, true;
      new;
      LoadStateFromNvs();
    }

    /** loadStateFromNVS. */
    method LoadStateFromNvs()
      modifies this
      ensures Persisted(State()) == Load(preferences)
      ensures State() == old(State()).(delivered := unitsDelivered, remaining := unitsRemaining,
                                       basalRate := basalRateUph, lastBolus := lastBolusAmount,
                                       empty := isReservoirEmpty)
    {
      var r := Load(preferences);
      unitsDelivered := r.delivered;
      unitsRemaining := r.remaining;
      basalRateUph := r.basalRate;
      lastBolusAmount := r.lastBolus;
      isReservoirEmpty := r.empty;
    }

    /** saveStateToNVS. */
    method SaveStateToNvs()
      modifies this
      ensures State() == SaveState(old(State()))
    {
      preferences := Saved(Record(unitsDelivered, unitsRemaining, basalRateUph, lastBolusAmount,
                                  isReservoirEmpty));
      stateDirty := false;
    }

    /** triggerSingleTick; `actuated` says whether the motor ran (and so
        whether the call blocked for one pulse time). */
    method TriggerSingleTick() returns (actuated: bool)
      modifies this
      ensures State() == Pulse(old(State()))
      ensures actuated == Actuates(old(State()))
    {
      if isReservoirEmpty || unitsRemaining <= 0 || isRewinding || isSuspended {
        if unitsRemaining <= 0 && !isReservoirEmpty {
          isReservoirEmpty := true;
          isPumping := false;
          stateDirty := true;
        }
        return false;
      }
      unitsDelivered := unitsDelivered + DOSE_INCREMENT;
      unitsRemaining := unitsRemaining - DOSE_INCREMENT;
      stateDirty := true;
      return true;
    }

    /** The bolus handler, given the request's volume in milli-units. */
    method Bolus(now: nat, units: int) returns (reply: Reply)
      requires Valid()
      modifies this
      ensures (State(), reply) == Dosing.Bolus(old(State()), now, units)
      ensures Valid()
    {
      if isSuspended || isRewinding || isReservoirEmpty || isPumping {
        return Busy;
      }
      pendingUnits := units;
      lastBolusAmount := pendingUnits;
      isPumping := true;
      lastBolusTick := now;
      stateDirty := true;
      return Accepted;
    }

    /** The temp-basal handler. The request's duration is a C `int` that is
        multiplied by 60000 in `int` and added to the unsigned clock; neither
        may overflow. */
    method SetTempBasal(now: nat, rate: int, durationMins: int)
      requires Valid()
      requires -0x8000_0000 <= durationMins * MS_PER_MINUTE < 0x8000_0000
      requires 0 <= now + durationMins * MS_PER_MINUTE
      modifies this
      ensures State() == TempBasal(old(State()), now, rate, durationMins)
      ensures Valid()
    {
      isTempBasalActive := true;
      tempBasalRate := rate;
      tempBasalEndMillis := now + durationMins * MS_PER_MINUTE;
    }

    /** The suspend handler. */
    method Suspend()
      requires Valid()
      modifies this
      ensures State() == Dosing.Suspend(old(State()))
      ensures Valid()
    {
      isSuspended := true;
      isPumping := false;
      pendingUnits := 0;
    }

    /** The resume handler. */
    method Resume()
      requires Valid()
      modifies this
      ensures State() == Dosing.Resume(old(State()))
      ensures Valid()
    {
      isSuspended := false;
    }

    /** The stop handler. */
    method Stop()
      requires Valid()
      modifies this
      ensures State() == Dosing.Stop(old(State()))
      ensures Valid()
    {
      isPumping := false;
      pendingUnits := 0;
      basalRateUph := 0;
      isTempBasalActive := false;
      stateDirty := true;
    }

    /** The reset handler (the mechanical rewind). */
    method Reset(now: nat) returns (reply: Reply)
      requires Valid()
      modifies this
      ensures (State(), reply) == Dosing.Reset(old(State()), now)
      ensures Valid()
    {
      if isPumping || isRewinding || isSuspended {
        return Busy;
      }
      ghost var before := State();
      rewindDuration := RewindDurationMs(unitsDelivered);
      if rewindDuration > 0 {
        isRewinding := true;
        rewindStartTime := now;
        assert State() == before.(rewindDuration := rewindDuration, rewinding := true, rewindStart := now);
      } else {
        unitsRemaining := TOTAL_UNITS;
        unitsDelivered := 0;
        isReservoirEmpty := false;
        assert State() == Refilled(before.(rewindDuration := rewindDuration));
        SaveStateToNvs();
      }
      reply := Accepted;
    }

    /** loop(), entered at time `now` with the prime button reading
        `buttonLow`. The local clock `t` advances by the time the motor and
        the prime pause block the loop. */
    method Tick(now: nat, buttonLow: bool)
      requires Valid() && ClockNotBefore(now)
      modifies this
      ensures State() == Dosing.Tick(old(State()), now, buttonLow)
      ensures Valid()
    {
      ExpireTempBasal(now);
      FinishRewind(now);
      var t := PrimeEdge(now, buttonLow);
      t := BolusStep(t);
      t := BasalStep(t);
      PeriodicSave(t);
    }

    /** loop() step 1. */
    method ExpireTempBasal(t: nat)
      modifies this
      ensures State() == Dosing.ExpireTempBasal(old(State()), t)
    {
      if isTempBasalActive && t > tempBasalEndMillis {
        isTempBasalActive := false;
      }
    }

    /** loop() step 2. */
    method FinishRewind(t: nat)
      modifies this
      ensures State() == Dosing.FinishRewind(old(State()), t)
    {
      if isRewinding && t - rewindStartTime >= rewindDuration {
        isRewinding := false;
        unitsRemaining := TOTAL_UNITS;
        unitsDelivered := 0;
        isReservoirEmpty := false;
        SaveStateToNvs();
      }
    }

    /** loop() step 3; returns the clock after the prime pulse and pause. */
    method PrimeEdge(t: nat, buttonLow: bool) returns (t': nat)
      modifies this
      ensures (State(), t') == Dosing.PrimeEdge(old(State()), t, buttonLow)
    {
      t' := t;
      if lastBtnHigh && buttonLow && !isPumping && !isRewinding && !isSuspended {
        var actuated := TriggerSingleTick();
        if actuated {
          t' := t' + TICK_DURATION_MS;
        }
        t' := t' + PRIME_DELAY_MS;
      }
      lastBtnHigh := !buttonLow;
    }

    /** loop() step 4; returns the clock after the bolus pulse. */
    method BolusStep(t: nat) returns (t': nat)
      modifies this
      ensures (State(), t') == Dosing.BolusStep(old(State()), t)
    {
      t' := t;
      if isPumping && !isRewinding && !isSuspended && t - lastBolusTick >= TICK_INTERVAL_MS {
        if pendingUnits > EPSILON && !isReservoirEmpty {
          var actuated := TriggerSingleTick();
          if actuated {
            t' := t' + TICK_DURATION_MS;
          }
          pendingUnits := pendingUnits - DOSE_INCREMENT;
          lastBolusTick := t';
        }
        if pendingUnits <= EPSILON {
          pendingUnits := 0;
          isPumping := false;
        }
      }
    }

    /** loop() step 5; returns the clock after the basal pulse. */
    method BasalStep(t: nat) returns (t': nat)
      modifies this
      ensures (State(), t') == Dosing.BasalStep(old(State()), t)
    {
      t' := t;
      var rate := ActiveBasalRate(State());
      if rate > EPSILON && !isReservoirEmpty && !isRewinding && !isSuspended {
        var basalInterval := BasalIntervalMs(rate);
        if t - lastBasalTick >= basalInterval {
          if !isPumping || t - lastBolusTick > BASAL_YIELD_MS {
            var actuated := TriggerSingleTick();
            if actuated {
              t' := t' + TICK_DURATION_MS;
            }
            lastBasalTick := t';
          }
        }
      }
    }

    /** loop() step 6. */
    method PeriodicSave(t: nat)
      modifies this
      ensures State() == Dosing.PeriodicSave(old(State()), t)
    {
      if stateDirty && t - lastSaveTime >= SAVE_INTERVAL_MS {
        SaveStateToNvs();
        lastSaveTime := t;
      }
    }
  }
}
