/** The dosing state machine of the pump firmware, as functions on a record of
    its global variables. Each command handler and each step of the main loop
    is a function from the state before to the state after; the controller
    class (controller.dfy) performs the same updates in place and is proved to
    agree with these functions. */
module Dosing {
  import opened PumpConfig
  import opened Timing
  import opened Nvs

  /** What a command handler answers: success, or HTTP 409 "Device busy or
      suspended". */
  datatype Reply = Accepted | Busy

  /** getDeviceStatus; `Priming` is the firmware's name for rewinding. */
  datatype Status = Priming | Suspended | DeliveringBolus | DeliveringBasal | Error | Idle

  /** The firmware's globals (volumes in milli-units, rates in milli-units per
      hour, times in milliseconds), the contents of its flash namespace, and
      the button level the main loop remembers from its previous pass. */
  datatype PumpState = PumpState(
    delivered: int, remaining: int, basalRate: int, lastBolus: int, empty: bool,
    pumping: bool, pending: int, lastBolusTick: nat,
    suspended: bool,
    tempActive: bool, tempRate: int, tempEnd: int, lastBasalTick: nat,
    rewinding: bool, rewindStart: nat, rewindDuration: nat,
    dirty: bool, lastSaveTime: nat, nvs: Store,
    buttonWasHigh: bool)

  /** Two states agree on the base rate and the temporary override. */
  predicate SameRates(r: PumpState, s: PumpState) {
    r.basalRate == s.basalRate && r.tempActive == s.tempActive && r.tempRate == s.tempRate
    && r.tempEnd == s.tempEnd
  }

  /** The part of the state that saveStateToNVS writes. */
  function Persisted(s: PumpState): Record {
    Record(s.delivered, s.remaining, s.basalRate, s.lastBolus, s.empty)
  }

  /** A reservoir reachable from a full one by whole pulses: nothing is lost
      (delivered + remaining is the capacity), nothing is negative, and the
      empty latch is only ever set on a drained reservoir. */
  ghost predicate ReservoirOk(r: Record) {
    && 0 <= r.delivered <= TOTAL_UNITS
    && r.delivered % DOSE_INCREMENT == 0
    && r.delivered + r.remaining == TOTAL_UNITS
    && (r.empty ==> r.remaining == 0)
  }

  /** Mutual exclusion of the delivery modes, and the rewind job's duration
      tied to the volume it winds back. */
  ghost predicate ModesOk(s: PumpState) {
    && !(s.pumping && s.rewinding)
    && !(s.pumping && s.suspended)
    && (s.pumping ==> !s.empty)
    && (s.rewinding ==> 0 <= s.delivered && s.rewindDuration == RewindDurationMs(s.delivered) > 0)
  }

  /** The flash record is a valid reservoir, and it is up to date whenever the
      dirty flag is clear. */
  ghost predicate Synced(s: PumpState) {
    && ReservoirOk(Load(s.nvs))
    && (!s.dirty ==> Load(s.nvs) == Persisted(s))
  }

  ghost predicate Inv(s: PumpState) {
    ReservoirOk(Persisted(s)) && ModesOk(s) && Synced(s)
  }

  /** setup(): the globals' initial values, then loadStateFromNVS. A restart
      keeps only the persisted record; every delivery mode starts off. */
  function Boot(st: Store): (s: PumpState)
    ensures Persisted(s) == Load(st) && s.nvs == st
    ensures !s.pumping && !s.rewinding && !s.suspended && !s.tempActive && !s.dirty && s.pending == 0
    ensures s.lastBolusTick == 0 && s.lastBasalTick == 0 && s.lastSaveTime == 0
    ensures s.tempRate == 0 && s.tempEnd == 0 && s.rewindStart == 0 && s.rewindDuration == 0
    ensures s.buttonWasHigh
    ensures ReservoirOk(Load(st)) ==> Inv(s)
  {
    var r := Load(st);
    PumpState(r.delivered, r.remaining, r.basalRate, r.lastBolus, r.empty,
              false, 0, 0, false, false, 0, 0, 0, false, 0, 0, false, 0, st, true)
  }

  /** getDeviceStatus: the first of rewinding, suspended, bolus, basal,
      empty that holds decides the status. */
  function DeviceStatus(s: PumpState): (st: Status)
    ensures st == Priming <==> s.rewinding
    ensures st == Suspended <==> !s.rewinding && s.suspended
    ensures st == DeliveringBolus <==> !s.rewinding && !s.suspended && s.pumping
    ensures st == DeliveringBasal <==>
              !s.rewinding && !s.suspended && !s.pumping && (s.basalRate > 0 || s.tempActive)
    ensures st == Error <==>
              !s.rewinding && !s.suspended && !s.pumping && !(s.basalRate > 0 || s.tempActive) && s.empty
  {
    if s.rewinding then Priming
    else if s.suspended then Suspended
    else if s.pumping then DeliveringBolus
    else if s.basalRate > 0 || s.tempActive then DeliveringBasal
    else if s.empty then Error
    else Idle
  }

  /** In a reachable state an error status means a drained reservoir and a
      bolus status means one that is not latched empty. */
  lemma StatusMatchesReservoir(s: PumpState)
    requires Inv(s)
    ensures DeviceStatus(s) == Error ==> s.remaining == 0
    ensures DeviceStatus(s) == DeliveringBolus ==> !s.empty
  {
  }

  /** getActiveBasalRate: an active temporary rate replaces the base rate
      (it is not added to it). */
  function ActiveBasalRate(s: PumpState): (r: int)
    ensures s.tempActive ==> r == s.tempRate
    ensures !s.tempActive ==> r == s.basalRate
  {
    if s.tempActive then s.tempRate else s.basalRate
  }

  // ---------------------------------------------------------------------
  // The pulse primitive

  /** triggerSingleTick moves the motor only when the reservoir is not
      latched empty, has something left, and no rewind or suspension holds. */
  predicate Actuates(s: PumpState) {
    !(s.empty || s.remaining <= 0 || s.rewinding || s.suspended)
  }

  /** How long triggerSingleTick blocks the loop. */
  function PulseTime(s: PumpState): nat {
    if Actuates(s) then TICK_DURATION_MS else 0
  }

  /** triggerSingleTick: one increment moves from remaining to delivered, or
      the pulse is refused; a refusal on a drained reservoir latches it empty
      and cancels any bolus. */
  function Pulse(s: PumpState): (r: PumpState)
    ensures r.delivered + r.remaining == s.delivered + s.remaining
    ensures Actuates(s) ==> r.delivered == s.delivered + DOSE_INCREMENT && r.dirty
    ensures !Actuates(s) ==> r.delivered == s.delivered && r.remaining == s.remaining
    ensures r.empty != s.empty <==> !s.empty && s.remaining <= 0
    ensures r.empty != s.empty ==> !r.pumping && r.dirty
    ensures r.pumping != s.pumping ==> r.empty != s.empty
    ensures r.dirty != s.dirty ==> r.delivered != s.delivered || r.empty != s.empty
    ensures r.rewinding == s.rewinding && r.suspended == s.suspended && r.pending == s.pending
    ensures r.basalRate == s.basalRate && r.lastBolus == s.lastBolus && r.nvs == s.nvs
    ensures r == s.(delivered := r.delivered, remaining := r.remaining, empty := r.empty,
                    pumping := r.pumping, dirty := r.dirty)
    ensures Inv(s) ==> Inv(r)
  {
    if !Actuates(s) then
      if s.remaining <= 0 && !s.empty then s.(empty := true, pumping := false, dirty := true)
      else s
    else
      s.(delivered := s.delivered + DOSE_INCREMENT, remaining := s.remaining - DOSE_INCREMENT,
         dirty := true)
  }

  /** saveStateToNVS: the flash record becomes the current one and the dirty
      flag clears; nothing else changes. */
  function SaveState(s: PumpState): (r: PumpState)
    ensures Load(r.nvs) == Persisted(s) && !r.dirty
    ensures r == s.(nvs := r.nvs, dirty := false)
    ensures ReservoirOk(Persisted(s)) && ModesOk(s) ==> Inv(r)
  {
    s.(nvs := Saved(Persisted(s)), dirty := false)
  }

  /** A full cartridge: what the zero-length reset and the end of a rewind
      restore. */
  function Refilled(s: PumpState): (r: PumpState)
    ensures ReservoirOk(Persisted(r))
    ensures r.delivered == 0 && r.remaining == TOTAL_UNITS && !r.empty
    ensures r == s.(delivered := r.delivered, remaining := r.remaining, empty := r.empty)
  {
    s.(remaining := TOTAL_UNITS, delivered := 0, empty := false)
  }

  // ---------------------------------------------------------------------
  // Command handlers

  /** POST /api/command/bolus. */
  function Bolus(s: PumpState, now: nat, units: int): (r: (PumpState, Reply))
    ensures r.1 == Accepted <==> !s.suspended && !s.rewinding && !s.empty && !s.pumping
    ensures r.1 == Busy ==> r.0 == s
    ensures r.1 == Accepted ==>
              r.0.pumping && r.0.pending == units && r.0.lastBolus == units
              && r.0.lastBolusTick == now && r.0.dirty
    ensures r.1 == Accepted ==>
              r.0 == s.(pending := r.0.pending, lastBolus := r.0.lastBolus, pumping := true,
                        lastBolusTick := r.0.lastBolusTick, dirty := true)
    ensures Persisted(r.0).(lastBolus := s.lastBolus) == Persisted(s)
    ensures r.0.rewinding == s.rewinding && r.0.suspended == s.suspended
    ensures Inv(s) ==> Inv(r.0)
  {
    if s.suspended || s.rewinding || s.empty || s.pumping then (s, Busy)
    else
      (s.(pending := units, lastBolus := units, pumping := true, lastBolusTick := now,
          dirty := true), Accepted)
  }

  /** POST /api/command/temp-basal: unconditionally overrides the base rate
      for `mins` minutes from `now`. Temporary settings are not persisted. */
  function TempBasal(s: PumpState, now: nat, rate: int, mins: int): (r: PumpState)
    ensures r.tempActive && ActiveBasalRate(r) == rate && r.tempEnd == now + mins * MS_PER_MINUTE
    ensures Persisted(r) == Persisted(s) && r.dirty == s.dirty && r.nvs == s.nvs
    ensures r.pumping == s.pumping && r.pending == s.pending
    ensures r == s.(tempActive := true, tempRate := r.tempRate, tempEnd := r.tempEnd)
    ensures Inv(s) ==> Inv(r)
  {
    s.(tempActive := true, tempRate := rate, tempEnd := now + mins * MS_PER_MINUTE)
  }

  /** POST /api/command/suspend: inhibits delivery and cancels the bolus in
      flight, but lets a rewind run on. */
  function Suspend(s: PumpState): (r: PumpState)
    ensures r.suspended && !r.pumping && r.pending == 0 && !Actuates(r)
    ensures r.rewinding == s.rewinding && r.rewindDuration == s.rewindDuration
    ensures Persisted(r) == Persisted(s) && r.dirty == s.dirty && r.nvs == s.nvs
    ensures ActiveBasalRate(r) == ActiveBasalRate(s)
    ensures r == s.(suspended := true, pumping := r.pumping, pending := r.pending)
    ensures Inv(s) ==> Inv(r)
  {
    s.(suspended := true, pumping := false, pending := 0)
  }

  /** POST /api/command/resume: lifts the suspension only. */
  function Resume(s: PumpState): (r: PumpState)
    ensures !r.suspended
    ensures r.pumping == s.pumping && r.pending == s.pending && r.rewinding == s.rewinding
    ensures Persisted(r) == Persisted(s) && r.dirty == s.dirty && r.nvs == s.nvs
    ensures ActiveBasalRate(r) == ActiveBasalRate(s)
    ensures r == s.(suspended := r.suspended)
    ensures Inv(s) ==> Inv(r)
  {
    s.(suspended := false)
  }

  /** POST /api/command/stop: cancels the bolus, the temporary rate and the
      base rate. */
  function Stop(s: PumpState): (r: PumpState)
    ensures !r.pumping && r.pending == 0 && !r.tempActive && ActiveBasalRate(r) == 0 && r.dirty
    ensures Persisted(r) == Persisted(s).(basalRate := 0)
    ensures r.suspended == s.suspended && r.rewinding == s.rewinding && r.nvs == s.nvs
    ensures r == s.(pumping := r.pumping, pending := r.pending, basalRate := r.basalRate,
                    tempActive := r.tempActive, dirty := r.dirty)
    ensures Inv(s) ==> Inv(r)
  {
    s.(pumping := false, pending := 0, basalRate := 0, tempActive := false, dirty := true)
  }

  /** POST /api/command/reset: rejected during a bolus, a rewind or a
      suspension. Otherwise the rewind time is computed from the delivered
      volume; a positive time starts a rewind, a zero time refills the
      reservoir at once and saves it. */
  function Reset(s: PumpState, now: nat): (r: (PumpState, Reply))
    requires 0 <= s.delivered
    ensures r.1 == Accepted <==> !s.pumping && !s.rewinding && !s.suspended
    ensures r.1 == Busy ==> r.0 == s
    ensures r.1 == Accepted && RewindDurationMs(s.delivered) > 0 ==>
              r.0.rewinding && r.0.rewindStart == now
              && r.0.rewindDuration == RewindDurationMs(s.delivered)
              && Persisted(r.0) == Persisted(s) && !Actuates(r.0)
              && r.0 == s.(rewindDuration := r.0.rewindDuration, rewinding := true, rewindStart := now)
    ensures r.1 == Accepted && RewindDurationMs(s.delivered) == 0 ==>
              !r.0.rewinding && r.0.delivered == 0 && r.0.remaining == TOTAL_UNITS && !r.0.empty
              && Load(r.0.nvs) == Persisted(r.0) && !r.0.dirty
              && r.0 == s.(rewindDuration := 0, delivered := 0, remaining := TOTAL_UNITS,
                           empty := false, nvs := r.0.nvs, dirty := false)
    ensures Inv(s) ==> Inv(r.0)
  {
    if s.pumping || s.rewinding || s.suspended then (s, Busy)
    else
      var duration := RewindDurationMs(s.delivered);
      if duration > 0 then
        (s.(rewindDuration := duration, rewinding := true, rewindStart := now), Accepted)
      else
        (SaveState(Refilled(s.(rewindDuration := duration))), Accepted)
  }

  /** In a reachable state the reset takes the immediate path exactly when
      nothing has been delivered, and otherwise rewinds for 55 ms per
      increment delivered. */
  lemma ResetDurationIsProportional(s: PumpState)
    requires Inv(s)
    ensures RewindDurationMs(s.delivered) == s.delivered / DOSE_INCREMENT * TICK_DURATION_MS
    ensures RewindDurationMs(s.delivered) == 0 <==> s.delivered == 0
  {
  }

  // ---------------------------------------------------------------------
  // The steps of the main loop, in the order loop() runs them. The clock is
  // threaded through: a pulse that moves the motor takes 55 ms and a prime
  // edge pauses a further 200 ms, so later steps read a later millis().

  /** Step 1: the temporary rate ends once the clock is strictly past its end. */
  function ExpireTempBasal(s: PumpState, t: nat): (r: PumpState)
    ensures r.tempActive == (s.tempActive && t <= s.tempEnd)
    ensures r == s.(tempActive := r.tempActive)
    ensures Inv(s) ==> Inv(r)
  {
    if s.tempActive && t > s.tempEnd then s.(tempActive := false) else s
  }

  /** The rewind job has run for its full duration. */
  predicate RewindDone(s: PumpState, t: nat) {
    s.rewinding && t - s.rewindStart >= s.rewindDuration
  }

  /** Step 2: a finished rewind stops, refills the reservoir and saves at
      once, bypassing the debounce. */
  function FinishRewind(s: PumpState, t: nat): (r: PumpState)
    ensures RewindDone(s, t) ==>
              !r.rewinding && r.delivered == 0 && r.remaining == TOTAL_UNITS && !r.empty
              && Load(r.nvs) == Persisted(r) && !r.dirty
    ensures RewindDone(s, t) ==>
              r == s.(rewinding := false, delivered := 0, remaining := TOTAL_UNITS, empty := false,
                      nvs := r.nvs, dirty := false)
    ensures !RewindDone(s, t) ==> r == s
    ensures r.suspended == s.suspended && r.pumping == s.pumping && r.pending == s.pending
    ensures SameRates(r, s)
    ensures Inv(s) ==> Inv(r)
  {
    if RewindDone(s, t) then SaveState(Refilled(s.(rewinding := false))) else s
  }

  /** A falling edge of the (pulled-up) prime button while no bolus, rewind or
      suspension is active. */
  predicate PrimeEdgeFires(s: PumpState, buttonLow: bool) {
    s.buttonWasHigh && buttonLow && !s.pumping && !s.rewinding && !s.suspended
  }

  /** Step 3: the manual prime; the button level is remembered either way. */
  function PrimeEdge(s: PumpState, t: nat, buttonLow: bool): (r: (PumpState, nat))
    ensures r.0.buttonWasHigh == !buttonLow
    ensures r.0.delivered + r.0.remaining == s.delivered + s.remaining
    ensures r.0.delivered != s.delivered ==>
              PrimeEdgeFires(s, buttonLow) && r.0.delivered == s.delivered + DOSE_INCREMENT
    ensures PrimeEdgeFires(s, buttonLow) && Actuates(s) ==> r.0.delivered == s.delivered + DOSE_INCREMENT
    ensures t <= r.1 <= t + TICK_DURATION_MS + PRIME_DELAY_MS
    ensures r.0.suspended == s.suspended && r.0.rewinding == s.rewinding && r.0.pending == s.pending
    ensures SameRates(r.0, s)
    ensures !PrimeEdgeFires(s, buttonLow) ==> r.0 == s.(buttonWasHigh := !buttonLow) && r.1 == t
    ensures PrimeEdgeFires(s, buttonLow) ==> r.0 == Pulse(s).(buttonWasHigh := !buttonLow)
    ensures PrimeEdgeFires(s, buttonLow) ==> r.1 == t + PulseTime(s) + PRIME_DELAY_MS
    ensures r.0.nvs == s.nvs && r.0.lastSaveTime == s.lastSaveTime
    ensures Inv(s) ==> Inv(r.0)
  {
    if PrimeEdgeFires(s, buttonLow) then
      (Pulse(s).(buttonWasHigh := !buttonLow), t + PulseTime(s) + PRIME_DELAY_MS)
    else (s.(buttonWasHigh := !buttonLow), t)
  }

  /** The bolus step acts: a bolus runs, no rewind or suspension holds, and a
      full bolus interval has passed since the last bolus pulse. */
  predicate BolusDue(s: PumpState, t: nat) {
    s.pumping && !s.rewinding && !s.suspended && t - s.lastBolusTick >= TICK_INTERVAL_MS
  }

  /** Step 4: one bolus pulse while more than 0.01 U is pending; the bolus
      ends once no more than 0.01 U is pending. */
  function BolusStep(s: PumpState, t: nat): (r: (PumpState, nat))
    ensures r.0.delivered + r.0.remaining == s.delivered + s.remaining
    ensures r.0.delivered != s.delivered ==>
              BolusDue(s, t) && s.pending > EPSILON && r.0.delivered == s.delivered + DOSE_INCREMENT
    ensures BolusDue(s, t) && s.pending > EPSILON && Actuates(s) ==>
              && r.0.delivered == s.delivered + DOSE_INCREMENT
              && r.0.pumping == (s.pending - DOSE_INCREMENT > EPSILON)
              && r.0.pending == (if r.0.pumping then s.pending - DOSE_INCREMENT else 0)
              && r.0.lastBolusTick == r.1 == t + TICK_DURATION_MS
    ensures BolusDue(s, t) && s.pending <= EPSILON ==>
              !r.0.pumping && r.0.pending == 0 && r.0.delivered == s.delivered && r.1 == t
    ensures BolusDue(s, t) && s.pending <= EPSILON ==> r == (s.(pending := 0, pumping := false), t)
    ensures BolusDue(s, t) && s.pending > EPSILON && !s.empty ==>
              var p := Pulse(s).(pending := s.pending - DOSE_INCREMENT, lastBolusTick := t + PulseTime(s));
              r == (if p.pending <= EPSILON then p.(pending := 0, pumping := false) else p,
                    t + PulseTime(s))
    ensures !BolusDue(s, t) ==> r == (s, t)
    ensures t <= r.1 <= t + TICK_DURATION_MS
    ensures r.0.suspended == s.suspended && r.0.rewinding == s.rewinding
    ensures SameRates(r.0, s)
    ensures r.0.lastBasalTick == s.lastBasalTick && r.0.buttonWasHigh == s.buttonWasHigh
    ensures r.0 == s.(delivered := r.0.delivered, remaining := r.0.remaining, empty := r.0.empty,
                      pumping := r.0.pumping, pending := r.0.pending,
                      lastBolusTick := r.0.lastBolusTick, dirty := r.0.dirty)
    ensures r.0.nvs == s.nvs && r.0.lastSaveTime == s.lastSaveTime
    ensures Inv(s) ==> Inv(r.0)
  {
    if !BolusDue(s, t) then (s, t)
    else
      var stepped :=
        if s.pending > EPSILON && !s.empty then
          var t' := t + PulseTime(s);
          (Pulse(s).(pending := s.pending - DOSE_INCREMENT, lastBolusTick := t'), t')
        else (s, t);
      if stepped.0.pending <= EPSILON then (stepped.0.(pending := 0, pumping := false), stepped.1)
      else stepped
  }

  /** The basal step acts: a rate above 0.01 U/h, a reservoir not latched
      empty, no rewind or suspension, the rate's interval has passed since the
      last basal pulse, and either no bolus is running or the bolus clock was
      stamped more than 200 ms ago. The pass that fires a bolus's final pulse
      also ends the bolus, so a basal pulse may follow that pulse at once. */
  predicate BasalDue(s: PumpState, t: nat) {
    var rate := ActiveBasalRate(s);
    && rate > EPSILON && !s.empty && !s.rewinding && !s.suspended
    && t - s.lastBasalTick >= BasalIntervalMs(rate)
    && (!s.pumping || t - s.lastBolusTick > BASAL_YIELD_MS)
  }

  /** Step 5: one basal pulse when due. */
  function BasalStep(s: PumpState, t: nat): (r: (PumpState, nat))
    ensures r.0.delivered + r.0.remaining == s.delivered + s.remaining
    ensures r.0.delivered != s.delivered ==> BasalDue(s, t) && r.0.delivered == s.delivered + DOSE_INCREMENT
    ensures BasalDue(s, t) ==> r.0.lastBasalTick == r.1 == t + PulseTime(s)
    ensures BasalDue(s, t) ==> r.0 == Pulse(s).(lastBasalTick := r.1)
    ensures BasalDue(s, t) && Actuates(s) ==> r.0.delivered == s.delivered + DOSE_INCREMENT
    ensures !BasalDue(s, t) ==> r == (s, t)
    ensures r.0.nvs == s.nvs && r.0.lastSaveTime == s.lastSaveTime
    ensures t <= r.1 <= t + TICK_DURATION_MS
    ensures r.0.suspended == s.suspended && r.0.rewinding == s.rewinding && r.0.pending == s.pending
    ensures SameRates(r.0, s)
    ensures Inv(s) ==> Inv(r.0)
  {
    if BasalDue(s, t) then
      var t' := t + PulseTime(s);
      (Pulse(s).(lastBasalTick := t'), t')
    else (s, t)
  }

  /** The periodic save is due: something changed and the debounce window
      has passed. */
  predicate SaveDue(s: PumpState, t: nat) {
    s.dirty && t - s.lastSaveTime >= SAVE_INTERVAL_MS
  }

  /** Step 6: the debounced flash save. */
  function PeriodicSave(s: PumpState, t: nat): (r: PumpState)
    ensures SaveDue(s, t) ==> Load(r.nvs) == Persisted(s) && !r.dirty && r.lastSaveTime == t
    ensures SaveDue(s, t) ==> r == s.(nvs := r.nvs, dirty := false, lastSaveTime := t)
    ensures !SaveDue(s, t) ==> r == s
    ensures Persisted(r) == Persisted(s) && SameRates(r, s)
    ensures r.nvs != s.nvs ==> s.dirty && t >= s.lastSaveTime + SAVE_INTERVAL_MS
    ensures Inv(s) ==> Inv(r)
  {
    if SaveDue(s, t) then SaveState(s).(lastSaveTime := t) else s
  }

  /** One pass of loop() that starts at time `now` with the button reading
      `buttonLow`. */
  function Tick(s: PumpState, now: nat, buttonLow: bool): (r: PumpState)
    ensures r.suspended == s.suspended
    ensures r.basalRate == s.basalRate && r.tempRate == s.tempRate
    ensures r.tempActive == (s.tempActive && now <= s.tempEnd)
    ensures Inv(s) ==> Inv(r)
  {
    var s1 := ExpireTempBasal(s, now);
    var s2 := FinishRewind(s1, now);
    var p := PrimeEdge(s2, now, buttonLow);
    var b := BolusStep(p.0, p.1);
    var d := BasalStep(b.0, b.1);
    PeriodicSave(d.0, d.1)
  }
}
