# Dosing controller of an ESP32 insulin pump prototype

This project models the dosing state machine of the pump firmware in
`src/main.cpp`. The firmware meters insulin from a 315 U reservoir in pulses.
Each pulse is 55 ms of forward motor drive and moves 0.5 U. Four things drive
the pulses: a quantity-bounded bolus, a continuous basal rate, a time-bounded
temporary basal override, and a manual prime button. A reset command winds
the mechanism back over a time proportional to the volume delivered. A
suspend command inhibits all delivery. Delivered volume, remaining volume,
base rate, last bolus and the empty latch are kept in flash. They are saved
by a debounced periodic save, and the end of a reset saves them at once.

Units: volumes are integers in milli-units (0.001 U). A pulse is 500 mU and
the reservoir is 315000 mU. The firmware's 0.01 U float tolerance is 10 mU.
Rates are in milli-units per hour and times are in milliseconds.

Files:

- `config.dfy` (module `PumpConfig`): the firmware's constants.
- `timing.dfy` (module `Timing`): the basal interval (`getBasalIntervalMs`)
  and the rewind duration.
- `nvs.dfy` (module `Nvs`): the flash namespace. Each key may be absent,
  `Load` reads every key with its default, and `Saved` writes all five.
- `dosing.dfy` (module `Dosing`): the globals as a record `PumpState` and the
  reachability invariant `Inv`. It has one function per command handler, one
  for the pulse primitive and one per step of `loop()`. Each of these
  transitions' contracts states what the firmware changes, that every other
  field keeps its value, and that `Inv` is preserved. `SaveState` keeps `Inv`
  given a valid record and consistent modes, and `Refilled` only promises a
  valid reservoir. It is completed into a reachable state by the reset
  and rewind paths that use it. `DeviceStatus` and `ActiveBasalRate` are
  queries.
- `controller.dfy` (module `Controller`): class `Pump`. Its fields are the
  firmware's globals. Its methods update those fields in place, step by step
  as the firmware does. Each method's contract ties the new fields to the
  matching `Dosing` function of the old fields.
- `scenarios.dfy` (module `Scenarios`): properties over several commands and
  loop passes. They cover whole boluses, the rewind from reset to refill,
  the temporary rate's lifetime, suspension and stop, the debounced save,
  and restarts.

`Inv` says five things:

- Delivered plus remaining is always the full 315 U.
- Delivered is a whole number of increments between 0 and 315 U.
- The empty latch is set only on a drained reservoir.
- A bolus never runs together with a rewind or a suspension, nor on a
  reservoir latched empty.
- A rewind's duration is 55 ms per increment delivered, and is positive.

The flash record is always a valid reservoir, and it equals the current
record whenever the dirty flag is clear.

Some of the firmware's behaviour is easy to misread. The model follows the
code:

- The temporary rate ends only once the clock is strictly past its end time
  (src/main.cpp:630).
- A bolus is also refused while the reservoir is latched empty
  (src/main.cpp:412).
- The reset takes its immediate path when the computed rewind time is zero
  (src/main.cpp:542). Under `Inv`, that is exactly when nothing has been
  delivered (`ResetDurationIsProportional`).
- The basal interval is the floor of a division, so it never increases with
  the rate but does not strictly decrease (src/main.cpp:238).
- The empty flag is latched lazily (src/main.cpp:343-351). A bolus that drains
  the reservoir to exactly zero leaves it clear. The next bolus is then
  accepted and delivers nothing (`BolusAcceptedOnDrainedReservoir`).
- The 200 ms basal yield applies only while a bolus is running
  (src/main.cpp:683). The pass that fires a bolus's final pulse also ends the
  bolus (src/main.cpp:670-672), so a due basal pulse can follow it at once,
  in the same pass (`FinalBolusPulseNoYield`).

## Model

| member | source | states |
|---|---|---|
| `Timing.BasalIntervalMs` | src/main.cpp:235-239 | a non-positive rate gets 0xFFFFFFFF; a positive rate gets the longest whole-ms gap at which one 0.5 U pulse per gap still delivers the rate per hour |
| `Timing.IntervalNonIncreasing` | src/main.cpp:235-239 | a higher rate never gets a longer basal interval |
| `Timing.PositiveRateHasFiniteInterval` | src/main.cpp:237-238 | every positive rate gets an interval below the "never" sentinel |
| `Timing.RewindDurationMs` | src/main.cpp:539-540 | rewind time is 55 ms per 0.5 U delivered, and is zero only for less than one increment's worth |
| `Timing.RewindMonotone` | src/main.cpp:539-540 | more delivered volume never rewinds for less time |
| `Nvs.Load` | src/main.cpp:317-323 | each key is read on its own: a present key gives its stored value, an absent one its own default (deliv 0, rem 315 U, basal 0, l_bolus 0, empty false) |
| `Nvs.Saved` | src/main.cpp:307-312 | all five keys are written, and loading them gives back exactly the saved record |
| `Nvs.SaveLoadFixpoint` | src/main.cpp:307-323 | re-saving what a fully written namespace loads leaves it unchanged |
| `Dosing.Boot` | src/main.cpp:574-579 | a restart restores exactly the persisted record; every delivery mode starts off and nothing is dirty; every timer, the temporary rate and the rewind time start at their initialisers (0, src/main.cpp:58-75) and the button level at HIGH; a valid flash record gives a state satisfying the invariant |
| `Dosing.DeviceStatus` | src/main.cpp:222-229 | status priority rewinding ("PRIMING") > suspended > bolus > basal (base rate > 0 or override) > empty ("ERROR") > idle, each as an if-and-only-if |
| `Dosing.ActiveBasalRate` | src/main.cpp:231-233 | an active temporary rate is the rate in force, otherwise the base rate is; the override replaces the base rate rather than adding to it (`Scenarios.TempOverrideReplacesBase`) |
| `Dosing.StatusMatchesReservoir` | src/main.cpp:222-229 | in a reachable state, ERROR means a drained reservoir and DELIVERING_BOLUS means one not latched empty |
| `Dosing.Pulse` | src/main.cpp:342-364 | delivered + remaining is conserved; an actuating pulse moves exactly one increment and sets dirty; a refused one moves nothing; empty latches only on a drained, unlatched reservoir, and the latch cancels the bolus and sets dirty; the invariant is preserved; no other field changes |
| `Dosing.SaveState` | src/main.cpp:307-315 | the flash then loads as the current record, dirty clears, nothing else changes |
| `Dosing.Refilled` | src/main.cpp:549-551 | the refilled reservoir is full (0 delivered, 315 U remaining, not empty) and valid; no other field changes |
| `Dosing.Bolus` | src/main.cpp:412-421 | accepted if and only if not suspended, rewinding, latched empty or already pumping; a refusal changes nothing; acceptance sets pending and last bolus to the request, starts pumping, stamps the bolus clock and sets dirty; no volume moves; invariant preserved; on acceptance no other field changes |
| `Dosing.TempBasal` | src/main.cpp:437-442 | the override is active at the requested rate until now + minutes·60000; the persisted record, dirty flag and bolus are untouched; only the three override fields change, so a suspension or rewind stays as it was |
| `Dosing.Suspend` | src/main.cpp:461-463 | suspended, bolus cancelled (not pumping, nothing pending), no pulse can actuate; the rewind and reservoir are untouched; only the suspension and the bolus fields change |
| `Dosing.Resume` | src/main.cpp:480 | only the suspension lifts, and every other field keeps its value; a cancelled bolus stays cancelled |
| `Dosing.Stop` | src/main.cpp:497-501 | bolus, override and base rate all cancelled (active rate 0), dirty set, reservoir untouched; no other field changes |
| `Dosing.Reset` | src/main.cpp:533-553 | refused if and only if pumping, rewinding or suspended, with no change; a positive rewind time starts a rewind of that length at `now` with the reservoir untouched; a zero time refills and saves at once; each accepted path changes only the rewind fields, or only the reservoir, the flash and the dirty flag |
| `Dosing.ResetDurationIsProportional` | src/main.cpp:538-542 | in a reachable state the rewind takes 55 ms per increment delivered and is zero exactly when nothing was delivered |
| `Dosing.ExpireTempBasal` | src/main.cpp:630-634 | the override survives the step if and only if the clock is not past its end; nothing else changes |
| `Dosing.FinishRewind` | src/main.cpp:637-651 | once the rewind has run its duration: rewinding clears, the reservoir is full and not empty, the flash is written at once and dirty clears; otherwise nothing changes; no other field changes, and the save time is not stamped |
| `Dosing.PrimeEdge` | src/main.cpp:653-660 | volume moves only on a falling button edge while no bolus, rewind or suspension, and then exactly one increment; the button level is remembered; a firing edge is exactly one `Pulse` and advances the clock by that pulse's time plus the 200 ms pause; otherwise the clock does not move |
| `Dosing.BolusStep` | src/main.cpp:662-677 | at most one increment, and only when a bolus is due (1000 ms since the last bolus pulse) with more than 0.01 U pending; with more than 0.01 U pending and no empty latch, it is exactly one `Pulse`, then pending drops by one increment and the bolus clock is stamped after the pulse (on a drained reservoir that pulse latches it empty and cancels the bolus); the bolus ends, and nothing else changes, once no more than 0.01 U is left; only the reservoir, bolus and dirty fields change |
| `Dosing.BasalStep` | src/main.cpp:679-688 | at most one increment, only when the active rate exceeds 0.01 U/h, nothing inhibits, its interval has passed, and either no bolus is running or the bolus clock was stamped more than 200 ms ago; then it is exactly one `Pulse` with the basal clock stamped after it, and otherwise nothing changes |
| `Dosing.PeriodicSave` | src/main.cpp:690-694 | the flash is written only when dirty and 30000 ms have passed since the last save; then dirty clears and the save time is stamped; nothing else changes |
| `Dosing.Tick` | src/main.cpp:628-704 | one pass of the loop keeps the invariant, never changes the suspension or the rates, and drops the override exactly when the clock is past its end |
| `Controller.Pump.constructor` | src/main.cpp:574-579 | the fields start at their initialisers, then the flash record is loaded: the boot state |
| `Controller.Pump.LoadStateFromNvs` | src/main.cpp:317-323 | the five persisted fields become the loaded record; nothing else changes |
| `Controller.Pump.SaveStateToNvs` | src/main.cpp:307-315 | the fields after the save are those of `Dosing.SaveState` |
| `Controller.Pump.TriggerSingleTick` | src/main.cpp:342-364 | the fields after the call are those of `Dosing.Pulse`; the result says whether the motor ran |
| `Controller.Pump.Bolus` | src/main.cpp:412-421 | fields and reply are those of `Dosing.Bolus`; the invariant is kept |
| `Controller.Pump.SetTempBasal` | src/main.cpp:437-442 | fields are those of `Dosing.TempBasal`, given that the minute product and the end time do not overflow; the invariant is kept |
| `Controller.Pump.Suspend` | src/main.cpp:461-463 | fields are those of `Dosing.Suspend`; the invariant is kept |
| `Controller.Pump.Resume` | src/main.cpp:480 | fields are those of `Dosing.Resume`; the invariant is kept |
| `Controller.Pump.Stop` | src/main.cpp:497-501 | fields are those of `Dosing.Stop`; the invariant is kept |
| `Controller.Pump.Reset` | src/main.cpp:533-553 | fields and reply are those of `Dosing.Reset`; the invariant is kept |
| `Controller.Pump.Tick` | src/main.cpp:628-704 | with a clock not behind any stored timestamp, the fields after the pass are those of `Dosing.Tick`; the invariant is kept |
| `Controller.Pump.ExpireTempBasal` | src/main.cpp:630-634 | fields are those of `Dosing.ExpireTempBasal` |
| `Controller.Pump.FinishRewind` | src/main.cpp:637-651 | fields are those of `Dosing.FinishRewind` |
| `Controller.Pump.PrimeEdge` | src/main.cpp:653-660 | fields and the advanced clock are those of `Dosing.PrimeEdge` |
| `Controller.Pump.BolusStep` | src/main.cpp:662-677 | fields and the advanced clock are those of `Dosing.BolusStep` |
| `Controller.Pump.BasalStep` | src/main.cpp:679-688 | fields and the advanced clock are those of `Dosing.BasalStep` |
| `Controller.Pump.PeriodicSave` | src/main.cpp:690-694 | fields are those of `Dosing.PeriodicSave` |
| `Scenarios.Run` | src/main.cpp:628-704 | any number of loop passes keeps the invariant and the suspension |
| `Scenarios.RunConservesVolume` | src/main.cpp:353-354 | after any number of passes, delivered + remaining is 315 U and remaining stays within 0..315 U |
| `Scenarios.BolusPulses` | src/main.cpp:665-672 | the bolus fires the request less 0.01 U, rounded up to whole 0.5 U increments, and none for 0.01 U or less |
| `Scenarios.WholeIncrementBolus` | src/main.cpp:665-672 | a request of k whole increments fires exactly k pulses |
| `Scenarios.BolusTickFires` | src/main.cpp:662-677 | a due pass during a coverable bolus fires exactly one pulse, lowers pending by one increment, ends the bolus when no more than 0.01 U is left, and stamps the bolus clock after the pulse |
| `Scenarios.BolusRunDelivers` | src/main.cpp:662-677 | a bolus run with one pass per interval delivers `BolusPulses(pending)` increments and ends with nothing pending |
| `Scenarios.FinalBolusPulseNoYield` | src/main.cpp:662-688 | a pass that fires a bolus's final pulse, with a basal pulse due, delivers two increments: the 200 ms yield does not hold back the basal pulse |
| `Scenarios.FiveUnitBolus` | src/main.cpp:412-421 | a 5 U bolus on an idle pump is accepted, and ten paced passes deliver exactly 5 U and end it |
| `Scenarios.BolusAcceptedOnDrainedReservoir` | src/main.cpp:343-351 | with 0 U left but the latch clear, a bolus is accepted, and its first due pass delivers nothing, latches empty and ends the bolus |
| `Scenarios.SuspendedNeverPulses` | src/main.cpp:343 | while suspended a pass fires no pulse at all; the delivered count changes only when a rewind ending in that pass refills the reservoir |
| `Scenarios.InhibitedTickDeliversNothing` | src/main.cpp:653-688 | no pulse in a pass while suspended, or while rewinding and the rewind does not end in that pass |
| `Scenarios.SuspendCancelsBolus` | src/main.cpp:461-463 | a suspend right after an accepted bolus leaves nothing pending, and the next pass delivers nothing |
| `Scenarios.ResumeDoesNotRestartBolus` | src/main.cpp:480 | suspend then resume leaves no bolus running and nothing pending |
| `Scenarios.StopHaltsDelivery` | src/main.cpp:497-501 | after a stop, a pass without a button press that ends no rewind delivers nothing |
| `Scenarios.RewindLifecycle` | src/main.cpp:637-651 | a reset with volume delivered rewinds for 55 ms per increment; a pass after the reset but before that time delivers nothing and keeps rewinding; the first pass at or after the end refills to 315 U and saves at once |
| `Scenarios.ResetWithNothingDelivered` | src/main.cpp:548-553 | a reset with nothing delivered refills and saves at once, without a rewind |
| `Scenarios.TempBasalLifetime` | src/main.cpp:629-634 | the override holds through its end time and is gone on the first pass after it, reverting to the base rate; a zero-minute override is gone a millisecond later |
| `Scenarios.TempOverrideReplacesBase` | src/main.cpp:231-233 | while the override is active the base rate has no effect on the basal step |
| `Scenarios.DebouncedSave` | src/main.cpp:690-694 | within the 30 s window, and with no rewind ending, a pass leaves the flash untouched |
| `Scenarios.EmptyStaysLatched` | src/main.cpp:343-351 | a pass that ends no rewind keeps a latched empty flag set and never starts a rewind |
| `Scenarios.EmptyStaysLatchedOverRun` | src/main.cpp:628-704 | a pump latched empty with no rewind running stays empty for any number of passes; only a reset refills it |
| `Scenarios.TickDeliveryBounds` | src/main.cpp:653-688 | a pass that ends no rewind never lowers the delivered volume and adds at most three increments |
| `Scenarios.PowerLossRecovers` | src/main.cpp:317-323 | a restart at any moment yields a state satisfying the invariant; with nothing dirty, or right after a save, it loses nothing |

## Left out

- Concurrency: the HTTP handlers run on the web server's task, alongside `loop()`. Each handler is modelled as one atomic step between two loop passes, and interleavings inside a handler are not modelled. For example, the reset handler sets `isRewinding` before `rewindStartTime` (src/main.cpp:543-544), and a loop pass between the two is not covered.
- Network and web layer: WiFi bring-up, the HTTP and server-sent-event transport, JSON parsing and replies, the embedded dashboard, and `getEpochMs`/NTP. The handlers' state effects are modelled; a rejection is the `Busy` reply.
- Display, buzzer and logging: `updateDisplay`, `updateClients`, `tone` and serial output are output-only side effects with no state. The beep handler only sounds the buzzer, so it is not modelled.
- Keep-alive UI refresh (loop step 7) and the final `delay(10)`: UI only. The next pass's start time is an input.
- Hardware: servo writes are not modelled. Their `delay` calls are modelled as the loop's clock advancing by 55 ms per actuating pulse and 200 ms after a prime edge. The time spent in serial, display and flash calls is taken as zero. `digitalRead` of the prime button is an input of `Tick`.
- Flash library: a save writes the five keys as one step. A power loss between two key writes, and write failures, are not modelled.
- Floating point: volumes and rates are exact milli-unit integers, and requests are taken as already converted. Float rounding in `pendingUnits -= 0.5` or in the interval division is not modelled.
- Clock width: `millis()` is an unbounded natural number, and `Controller.Pump.Tick` requires it not to be behind any stored timestamp. The 32-bit wrap-around after about 49.7 days is not modelled.
- `Controller.Pump.SetTempBasal`: requires that `durationMins * 60000` fits a 32-bit `int` and that the end time is not negative. The firmware has undefined or wrapping behaviour in those cases.
- `totalCapacity` (src/main.cpp:48) is never read by the core, so it is not modelled.
- The GET info and status endpoints only report `getDeviceStatus` and the remaining volume, so they are not modelled.
- The Blender CAD scripts under `blender_python/` are not part of this model. They are geometry generation over an external library.
