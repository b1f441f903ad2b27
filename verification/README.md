# Relay board firmware: verified model

A Dafny model of the state machines and codecs of an eight-channel relay board: relay control with
its interlocks, pulses and maximum on-times over an unreliable output expander, the calendar and
real-time clock, publishing to SignalK, the CAN transmit slots, input debouncing and overrides,
run-time counters, NMEA 2000 alerts, schedules, and the text formats between them. Check it with
`dafny verify dfyconfig.toml`.

## How it is built

Where the firmware changes a record in place there are two layers. A specification (`RelaySpec`,
`InputSpec`, `CounterSpec`, `AlertSpec`, ...) says what one call does as a function of the old
state, the request and what the environment answers. A class or method (`RelayCtrl`, `InputSense`,
`Counters`, `AlertTracker`, `AlertPayload`, ...) does it the firmware's way, with loops over
channels, buffers filled in place and wrapped 32-bit times, and is proved to compute that function.
The properties of single calls and of whole runs are then proved about the function.

* **Runs.** A run is any sequence of operations, from any source, with any environment answers.
  `StateAt` and its like give the state after the first k of them. Concurrent code (publishing, CAN
  slots) is a set of steps; a run is any interleaving.
* **Environment.** Bus answers (a write may land or not, be acknowledged or not, read back right,
  wrong or not at all), clock readings and the store's answers are parameters of each call. Every
  value sent to the output register is in the chip's log, whether it landed or not.
* **Time.** Specifications carry true, unbounded milliseconds, but every comparison goes through
  the 32-bit arithmetic the firmware uses. Classes store the wrapped words, a ghost field the true
  times.
* **Masks.** A channel mask is the set of its channels. The register byte of the relays is taken as
  the mask itself (relays are active high).

Files: `Common`, `Board` and `Timers` are shared. Relay control is `RelayConfig`, `Expander`,
`RelaySpec`, `RelayLoops`, `RelayCtrl`; its properties are `RelayInvariant` (single operations),
`RelayRuns` (interlock safety), `RelayService` (requests are carried out), `RelayCause` (why a relay
comes on), `RelayPins` (what the expander drives), `RelayTiming` (bounded on-time), `RelayDuration`
(on for its time), `RelayEvents` (notifications) and `RelayHold` (stored state). `CounterStore` and
`AlertSends` say what survives a restart and what goes out for a live alert. The rest is named after
what it models.

## Where the code does not do the obvious thing

The model follows the code. Each of these is stated as it is and, where it is a broken promise,
with the exact condition.

* **Settings saves and interlocks** (`components/relay_ctrl/src/relay_ctrl.c:326-337`). The guard
  `SaveAllowed` of a save has two parts: its conflict-clearing write succeeds, and it pairs up no
  two relays that are both waiting out a dead time. `SaveKeepsIffAllowed` shows that the interlock
  invariant survives a save exactly under that guard; `UnguardedSaveBreaksInterlock` is a run on a
  perfect bus in which a save outside it makes the next tick write both coils on, and
  `FailedClearBreaksInterlock` one in which a failed clearing write does, at the next command.
* **Chip and mask may differ** (`components/relay_ctrl/src/relay_ctrl.c:166-188`). After a write that
  landed but was not confirmed, the register differs from the mask, and a later commit of the same
  mask is skipped. Interlock safety is therefore stated over the values written. `RelayPins` says
  what holds at the coils: fail-safe on a working bus may leave a default-safe coil on
  (`FailSafeLeavesCoilOn`), an off may (`OffLeavesCoilOn`), and an off of another relay may switch a
  coil on (`OffOfAnotherEnergises`); `FailSafeDrivesIff`, `OffDrivesIff`, `CommandDrivesMaskIff` and
  `EnergisedByCauseIff` give the exact conditions, and `EnergisedHasLiveCause` is what follows for
  runs. Elsewhere on and off are meant as in the confirmed mask.
* **Relays both on and waiting**, after a save outside its guard, are reported again by the tick that
  fires them although they did not flip: `TickExactIff` gives the condition and `RelayReportedAgain` a
  run from power-on. Listeners still end up right (`EventsLead`).
* **Rewiring to NC at run time** notifies nobody (`RewiringIsSilent`). A save's events lead listeners
  right, and the save is a commit of the publishing protocol, exactly when it switches the coil of
  every relay it rewires (`EventsLeadIff`, `RelayOpCommits`); they are one for each flipped bit exactly
  when it rewires none (`EventsExactIff`).
* **Failed store read at start-up.** A hold relay that the store has on comes up off, the store is
  left as it is, and no save is pending; `BootAgreesIff` gives the condition, `FailedLoadForgets` a run from
  an empty store.
* **Late inputs.** The header promises every input a start-up override; an input that first
  settles at the level already reported for it gets none (`LateOverrideIff`, and
  `LateInputDrivesNothing` for a run from start-up).
* **Overnight schedules on some weekdays** are also active from 00:00 to their off time on an
  enabled day that follows a disabled one (`ClockActiveIsWindows`, `MaskedDayStartsEarly`).
* **Clock set outside 2000 to 2099.** The chip's year is clamped, so the instant does not come back
  (`SetThenGetIff`).
* **An earlier trip's response** is taken for the present one exactly when a multiple of 255 raises
  lie between (`EarlierTripIff`, and `StaleResponseTaken` for a run in which it happens).
* **Frequent counter resets put folding off** (`components/counters/src/counters.c:137-162`): a saved
  reset restarts the save interval without folding. With one every five minutes the run time of a
  relay that stays on wraps (`FrequentResetsHideRuntime`). A report is right exactly when the relay's
  off-reports since its last reset, and the read, each found it folded less than 2^32 ms before
  (`ReportRightIff`; `ReportsExactly` says what is reported otherwise), and that is so exactly when its
  last fold, reset or switching on is recent enough (`InTimeIffRefreshed`); `FoldedInTimeWhenPaced`
  says how rare resets must be to make it so in every run.
* **A frame without data** is printed as a candump line that is not accepted back
  (`LineReadsBack`).

## Model

| member | source | states |
|---|---|---|
| `RelayRuns.InterlockSafety` | components/relay_ctrl/src/relay_ctrl.c:231-579 | From power-on, through any start-up and any run of commands, fail-safes, ticks and guarded settings saves, whatever the expander answers, no value sent to the output register has both coils of a pair of the settings in force on, and the interlock and timer invariants hold in every state |
| `RelayRuns.InterlockSafetyFixedSettings` | components/relay_ctrl/src/relay_ctrl.c:231-579 | With settings left alone, no value in the whole register log since power-on has a relay on together with the one its setting names |
| `RelayRuns.RunKeeps` | components/relay_ctrl/src/relay_ctrl.c:289-579 | Every state of a run keeps both invariants, and every write of its last step is safe under the settings in force |
| `RelayRuns.PairedWaitersFireTogether` | components/relay_ctrl/src/relay_ctrl.c:326-337 | Why a save needs its guard: two waiting relays that a save pairs up are both written on by one tick |
| `RelayRuns.UnguardedSaveBreaksInterlock` | components/relay_ctrl/src/relay_ctrl.c:289-343 | A concrete run from any start-up, on a bus that never fails, in which a save outside the guard makes the next tick write both coils of the new pair |
| `RelayRuns.FailedClearBreaksInterlock` | components/relay_ctrl/src/relay_ctrl.c:326-337 | A concrete run from any start-up in which the clearing write of a save fails and a later command of a third relay writes both coils of the new pair on |
| `RelayInvariant.CommandKeeps` | components/relay_ctrl/src/relay_ctrl.c:353-420 | A set or toggle from any source, with any bus answers, keeps the invariants and writes only safe values |
| `RelayInvariant.SkLostKeeps` | components/relay_ctrl/src/relay_ctrl.c:470-492 | Fail-safe keeps the invariants and writes only safe values |
| `RelayInvariant.TickKeeps` | components/relay_ctrl/src/relay_ctrl.c:494-579 | A tick keeps the invariants and writes only safe values, including relays that fire together |
| `RelayInvariant.SaveKeepsIffAllowed` | components/relay_ctrl/src/relay_ctrl.c:289-343 | A settings save keeps the interlock invariant exactly when its conflict-clearing write succeeds (or none is needed) and it pairs up no two waiting relays |
| `RelayInvariant.BootEstablishes` | components/relay_ctrl/src/relay_ctrl.c:231-287 | Start-up, successful or not, establishes both invariants, writes only safe values and puts none but hold relays in the mask |
| `RelayInvariant.CommitFacts` | components/relay_ctrl/src/relay_ctrl.c:166-188 | A commit reaches its target or leaves the confirmed mask alone, and a changed hold relay always leaves a save pending |
| `RelayConfig.ClearedIsConflictFree` | components/relay_ctrl/src/relay_ctrl.c:110-124 | Dropping the conflicting channels leaves no pair on, and there is nothing to drop exactly when there was none |
| `RelayService.CommandErrors` | components/relay_ctrl/src/relay_ctrl.c:353-420 | A request is refused exactly for a channel that does not exist and fails exactly when neither write attempt was confirmed; then the confirmed mask stays and nobody is told |
| `RelayService.ReportsWhatWasAsked` | components/relay_ctrl/src/relay_ctrl.c:353-420 | Whatever the wiring: after a command that succeeds a relay that does not wait reports what was asked (on, off, or the opposite of what it reported); it waits exactly when that energises its coil while its partner is on, or while it waits already |
| `RelayService.CommandTakesEffect` | components/relay_ctrl/src/relay_ctrl.c:353-420 | In the confirmed mask, every successful command leaves its relay, by the coil level that reports what was asked, off and not waiting, or on, or waiting out the dead time with its partner off; no other relay is touched |
| `RelayService.WaitingFires` | components/relay_ctrl/src/relay_ctrl.c:522-556 | A waiting relay whose dead time is over is on in the confirmed mask after the next tick whose write succeeds, unless its partner is |
| `RelayService.BreakBeforeMake` | components/relay_ctrl/src/relay_ctrl.c:373-400 | Asking for a relay whose partner is on switches the partner off at once and this one on at the first tick after the dead time |
| `RelayService.FailSafeSparesHold` | components/relay_ctrl/src/relay_ctrl.c:470-492 | Fail-safe leaves every latching hold relay as it was in the confirmed mask, waiting or not |
| `RelayService.SaveTouchesOnlyConflicts` | components/relay_ctrl/src/relay_ctrl.c:322-343 | A settings save takes exactly the relays newly in conflict out of the mask, and none when its write fails |
| `RelayCause.TurnOnHasLiveCause` | components/relay_ctrl/src/relay_ctrl.c:289-579 | In any run, whatever bus and saves of loaded settings do: a relay that an operation puts on in the confirmed mask was commanded on by it, or the operation is a tick carrying out a command for that relay that nothing cancelled since |
| `RelayCause.StepCause` | components/relay_ctrl/src/relay_ctrl.c:289-579 | One step, in any state: a relay comes on in the mask only by its own command or at a tick that finds it waiting and due, and starts waiting only by its own command |
| `RelayCause.StepCancels` | components/relay_ctrl/src/relay_ctrl.c:366-409 | Under any loaded settings a relay that is cancelled (its own off, its partner put on, fail-safe) waits no more |
| `RelayCause.WaitingHasCause` | components/relay_ctrl/src/relay_ctrl.c:373-400 | In any run, a waiting relay has a command that put it there and that nothing cancelled since, and carries its source |
| `RelayCause.StaysOffUntilCommanded` | components/relay_ctrl/src/relay_ctrl.c:289-579 | In any run from any state, a relay that is off in the mask and not waiting stays so until commanded on |
| `RelayCause.FailSafeHolds` | components/relay_ctrl/src/relay_ctrl.c:470-492 | After a fail-safe whose write is confirmed (or that has none to do) every momentary or default-safe relay is off in the mask and stays off, through any run, until commanded |
| `RelayPins.FailSafeDarkens` | components/relay_ctrl/src/relay_ctrl.c:470-492 | At the coils: on a working bus, if fail-safe has something to write or the register has no default-safe coil on, every default-safe coil is de-energised and stays so through any run on any bus until commanded |
| `RelayPins.FailSafeDrivesIff` | components/relay_ctrl/src/relay_ctrl.c:470-492 | Fail-safe on a working bus de-energises every default-safe coil exactly under that condition |
| `RelayPins.FailSafeDarkensPhysical` | components/relay_ctrl/src/relay_ctrl.c:470-492 | In particular whenever the coils are as the mask says |
| `RelayPins.FailSafeLeavesCoilOn` | components/relay_ctrl/src/relay_ctrl.c:166-188 | A concrete failure: an on that landed unconfirmed, then fail-safe on a perfect bus, and the default-safe coil is still driven |
| `RelayPins.EnergisedByCauseIff` | components/relay_ctrl/src/relay_ctrl.c:166-188 | At the coils, in any state of the invariant, on any bus: a coil newly energised was commanded on by that operation or is due at that tick exactly when the mask did not have it on |
| `RelayPins.EnergisedHasLiveCause` | components/relay_ctrl/src/relay_ctrl.c:289-579 | So in any run on any bus: a coil newly energised that the mask had off was commanded on by that operation, or by a command not cancelled since that a tick carries out |
| `RelayPins.OffOfAnotherEnergises` | components/relay_ctrl/src/relay_ctrl.c:166-188 | The exception is real: after an off that landed unconfirmed, the off of another relay energises the coil again |
| `RelayPins.DarkUntilCommanded` | components/relay_ctrl/src/relay_ctrl.c:166-188 | A relay off in mask and register and not waiting stays de-energised through any run, whatever the bus does, until commanded on |
| `RelayPins.StepPins` | components/relay_ctrl/src/relay_ctrl.c:166-188 | One step on any bus: the register has a coil on only if it had, the mask has, it is commanded on now, or a tick finds it waiting and due |
| `RelayPins.StepPhysical` | components/relay_ctrl/src/relay_ctrl.c:166-188 | Where every commit gets through, at the first attempt or at the second unless the first falsely confirmed, every operation keeps the coils as the mask says |
| `RelayPins.CommandCommits` | components/relay_ctrl/src/relay_ctrl.c:353-420 | A command commits one mask, with its own or its partner's coil switched, and writes nothing else |
| `RelayPins.CommandDrivesMaskIff` | components/relay_ctrl/src/relay_ctrl.c:353-420 | After a command on a working bus the coils are as the mask says exactly when it had something to write or they were so before |
| `RelayPins.OffDrivesIff` | components/relay_ctrl/src/relay_ctrl.c:366-374 | An off on a working bus de-energises its coil exactly when the mask had it on or the register had it off |
| `RelayPins.OffLeavesCoilOn` | components/relay_ctrl/src/relay_ctrl.c:366-374 | A concrete failure: an off that succeeds with nothing to write and leaves the coil driven |
| `RelayPins.FailedCommandPins` | components/relay_ctrl/src/relay_ctrl.c:166-188 | A failed command leaves the register as it was when neither write landed, and at the mask it tried for when one did |
| `RelayTiming.TimersAlwaysMatch` | components/relay_ctrl/src/relay_ctrl.c:190-205 | In every state of every run, bus failures and saves included, running pulses are exactly the momentary relays on in the mask and running limits exactly those on with a maximum on-time |
| `RelayTiming.OnTimeBounded` | components/relay_ctrl/src/relay_ctrl.c:494-520 | On a working bus (a second attempt being enough unless the first falsely confirmed a write that never landed) with ticks at most d apart, the expander drives exactly the mask, no momentary coil has been driven longer than its own pulse plus d since its last on, and no limited one longer than its own limit plus d, in the settings in force at that on, in true time |
| `RelayTiming.OnTimeBoundedFixedSettings` | components/relay_ctrl/src/relay_ctrl.c:494-520 | With settings left alone: no longer than the coil's own pulse, or its own maximum on-time, plus d |
| `RelayTiming.RunInTime` | components/relay_ctrl/src/relay_ctrl.c:289-579 | Over a run the deadlines of a coil lie between the last tick and its last on plus its own length in the settings in force then |
| `RelayDuration.StaysOnItsTime` | components/relay_ctrl/src/relay_ctrl.c:494-520 | In any run from start-up, on any bus: a coil that comes on, or is commanded on again, is still on after every operation, ticks included, that begins before its start plus its pulse or maximum on-time, unless its own off, an on for its partner, fail-safe or a save took it off |
| `RelayDuration.StepTurnsOff` | components/relay_ctrl/src/relay_ctrl.c:289-579 | One step, in any state and on any bus: a coil goes off only by one of those or at a tick that finds its pulse or maximum on-time over |
| `RelayDuration.TickTurnsOff` | components/relay_ctrl/src/relay_ctrl.c:498-520 | In any state and on any bus a tick takes off no coil whose running deadlines have not passed |
| `RelayDuration.TickOffIff` | components/relay_ctrl/src/relay_ctrl.c:498-520 | On a working bus a tick takes a coil that does not wait off exactly when its pulse or maximum on-time is over |
| `RelayDuration.TickWaitIff` | components/relay_ctrl/src/relay_ctrl.c:522-556 | A wait ends at a tick exactly when its dead time is over and either its partner is on or it fires with a confirmed write; a failed write leaves it waiting |
| `RelayDuration.WaitEndsOnlyBy` | components/relay_ctrl/src/relay_ctrl.c:289-579 | In any state a wait ends only when it is called off or at a tick that finds it due |
| `Clock32.DeadlineAgrees` | components/relay_ctrl/src/relay_ctrl.c:151-154 | The signed 32-bit deadline test agrees with unbounded time while the two are less than 2^31 ms apart |
| `Clock32.ElapsedBound` | components/relay_ctrl/src/relay_ctrl.c:559-564 | An unsigned 32-bit age never exceeds the true age, and equals it below 2^32 ms |
| `RelayEvents.NotifyExact` | components/relay_ctrl/src/relay_ctrl.c:210-229 | One notification per flipped bit, and replaying them takes the old reported mask to the new one |
| `RelayEvents.EventsExactIff` | components/relay_ctrl/src/relay_ctrl.c:210-229 | In any state, an operation's events are one for each flipped reported bit and replay the old reported mask to the new one exactly when it is no tick that fires a relay already on and no save that rewires a relay |
| `RelayEvents.EventsLeadIff` | components/relay_ctrl/src/relay_ctrl.c:210-229 | In any state, they lead a listener from the old reported mask to the new one exactly when the operation is no save that rewires a relay without switching its coil |
| `RelayEvents.EventsReplay` | components/relay_ctrl/src/relay_ctrl.c:210-229 | Measured under the wiring in force afterwards, the events of every operation are exact unless it is a tick that fires a relay already on, and only then not |
| `RelayEvents.EventsLead` | components/relay_ctrl/src/relay_ctrl.c:210-229 | Measured under the wiring in force afterwards, they lead every listener right in any state, whatever the operation |
| `RelayEvents.EventsNameCause` | components/relay_ctrl/src/relay_ctrl.c:210-229 | In any state every event names what caused it (the source of the command, also of one that waited; SignalK lost; a save's interlock; the end of a pulse or of a maximum on-time) and agrees with the mask it carries; the last one carries the mask reported from then on |
| `RelayEvents.TickExactIff` | components/relay_ctrl/src/relay_ctrl.c:494-579 | The events of the three phases of a tick together are exact if and only if no relay on and waiting is due, finds its partner off and fires with a confirmed write |
| `RelayEvents.RelayReportedAgain` | components/relay_ctrl/src/relay_ctrl.c:494-579 | A concrete run from any start-up in which a tick reports a relay as coming on that was on |
| `RelayEvents.SaveLeadsIff` | components/relay_ctrl/src/relay_ctrl.c:289-343 | A save's events lead listeners right exactly when the relays it rewires are among those its conflict-clearing write switches off |
| `RelayEvents.RewiringIsSilent` | components/relay_ctrl/src/relay_ctrl.c:289-343 | A concrete save, from any start-up, that rewires a relay to NC: what is reported flips, and there is no event |
| `RelayHold.BootAgreesIff` | components/relay_ctrl/src/relay_ctrl.c:231-287 | A successful start-up makes store and mask agree on hold relays exactly when it was warm, could read the store, or the store had no hold relay on |
| `RelayHold.FailedLoadForgets` | components/relay_ctrl/src/relay_ctrl.c:231-287 | A concrete run from an empty store: a hold relay is switched on and stored, the power is cut, the store cannot be read, and the relay comes up off with the store saying on and no save pending |
| `RelayHold.StoreAlwaysAgrees` | components/relay_ctrl/src/relay_ctrl.c:183-186 | In every state of every run, whenever no save is pending the store agrees with the mask on every hold relay |
| `RelayHold.HoldSurvivesPowerCut` | components/relay_ctrl/src/relay_ctrl.c:231-287 | In any state of any run with no save pending, cutting the power and starting up again restores the hold relays that were on without those in interlocked pairs: all of them exactly when there is no such pair |
| `RelayHold.WarmStartKeepsHeld` | components/relay_ctrl/src/relay_ctrl.c:231-287 | A start-up that finds the chip driving leaves on exactly the hold relays it drove, without those in interlocked pairs, and makes a save pending |
| `RelayHold.BootSucceedsIff` | components/relay_ctrl/src/relay_ctrl.c:231-287 | With reads right or failed and writes good or refused, start-up succeeds exactly when every one it needs does; the store is not among them |
| `RelayHold.StoredIsHeld` | components/relay_ctrl/src/relay_ctrl.c:558-571 | Only ticks write the store, and what they write is exactly the hold relays that are on |
| `RelayHold.PendingIffHeldChanged` | components/relay_ctrl/src/relay_ctrl.c:166-188 | Unless a tick writes it, a save is pending exactly when one was or a hold relay was switched or which relays are hold relays has changed |
| `RelayHold.TickStoresHold` | components/relay_ctrl/src/relay_ctrl.c:558-571 | A tick 5 s or more (and less than 2^32 ms) after the last attempt, the store taking the save, leaves the store with exactly the hold relays that are on |
| `RelayHold.SavesFiveSecondsApart` | components/relay_ctrl/src/relay_ctrl.c:559-571 | Two store writes made by ticks are never less than 5 s apart in true time, however often the clock wraps |
| `RelayCtrl.Controller.Init` | components/relay_ctrl/src/relay_ctrl.c:231-287 | The start-up as run on the controller and its bus is the specified one |
| `RelayCtrl.Controller.SetOrToggle` | components/relay_ctrl/src/relay_ctrl.c:353-420 | The command as run, on in-place masks and wrapped timers, is the specified one: new state, error and events |
| `RelayCtrl.Controller.SkLost` | components/relay_ctrl/src/relay_ctrl.c:470-492 | Fail-safe as run is the specified one |
| `RelayCtrl.Controller.Tick` | components/relay_ctrl/src/relay_ctrl.c:494-579 | The tick as run, with its loops over channels, is the specified one |
| `RelayCtrl.Controller.UpdateConfig` | components/relay_ctrl/src/relay_ctrl.c:289-343 | The settings save as run is the specified one |
| `RelayCtrl.Controller.CommitLocked` | components/relay_ctrl/src/relay_ctrl.c:166-188 | The commit as run is the specified one |
| `RelayLoops.ClearInterlockConflicts` | components/relay_ctrl/src/relay_ctrl.c:110-124 | The loop finds exactly the conflicting channels and clears exactly those |
| `RelayLoops.TrackLoop` | components/relay_ctrl/src/relay_ctrl.c:193-205 | The loop starts, keeps and drops exactly the limits it should |
| `RelayLoops.CollectNotify` | components/relay_ctrl/src/relay_ctrl.c:210-222 | The loop calls the listeners for exactly the changed channels, in order |
| `RelayLoops.FireLoop` | components/relay_ctrl/src/relay_ctrl.c:527-541 | The loop splits the due relays into those that fire and those dropped for an active partner |
| `RelayLoops.ModeLoop` | components/relay_ctrl/src/relay_ctrl.c:300-309 | The loop drops and starts exactly the pulses the new modes call for |
| `Timers.WrappedTimes.Start` | components/relay_ctrl/src/relay_ctrl.c:190-205 | A 32-bit deadline stands for the true time it was set to |
| `Timers.WrappedTimes.HasPassed` | components/relay_ctrl/src/relay_ctrl.c:151-154 | The 32-bit test is the specified deadline test |
| `Expander.VerifiedWrite` | components/relay_ctrl/src/tca9554.c:18-30 | A verified write on an honest bus is in the register; any other leaves the old or the new value there |
| `Expander.InitDrivesOnlyTarget` | components/relay_ctrl/src/tca9554.c:32-39 | Outputs before direction: a chip fresh from power-on energises nothing until its directions are set, and then nothing or exactly the relays asked for, unless a wrong read-back confirmed a write that never landed, directions were set, and the register was not empty |
| `Expander.Tca9554.WriteOutputs` | components/relay_ctrl/src/tca9554.c:18-30 | The write-then-verify transaction as run is the specified one |
| `Expander.Tca9554.InitialiseOutputs` | components/relay_ctrl/src/tca9554.c:32-39 | The initialisation as run is the specified one |
| `DeviceConfig.DerivePairs` | components/device_config/src/device_config.c:310-337 | The in-place loop over the raw settings yields the effective pairs and flags the ignored ones, for any number of relays |
| `DeviceConfig.EffectiveIsInvolution` | components/device_config/src/device_config.c:310-337 | The effective interlock map is a fixed-point-free involution on its support |
| `DeviceConfig.KeepsExactlyMutual` | components/device_config/src/device_config.c:310-337 | Exactly the mutually named pairs are kept and exactly the other nonzero settings flagged; deriving again changes nothing |
| `DeviceConfig.LoadedPairsAreValid` | components/device_config/src/device_config.c:310-337 | Loaded settings are what relay control requires of its pairs, whatever was stored |
| `DeviceConfig.RemoveConflicts` | components/device_config/src/device_config.c:286-308 | The in-place schedule loop disables exactly the entries that share a relay, and reports those relays |
| `DeviceConfig.SharedIffCounted` | components/device_config/src/device_config.c:286-308 | Counting a relay twice in the snapshot is the same as an entry sharing its relay |
| `DeviceConfig.SchedulesDoNotFight` | components/device_config/src/device_config.c:286-308 | Afterwards no two enabled entries name one relay, and only entries that shared one were disabled |
| `Calendar.DaysFromCivilExact` | components/rtc_pcf85063/src/rtc_pcf85063.c:16-24 | days_from_civil equals a naive day count built from the Gregorian leap rule, for every valid date of every year |
| `Calendar.CivilThenDays` | components/rtc_pcf85063/src/rtc_pcf85063.c:26-38 | civil_from_days of every integer day is a valid date that days_from_civil takes back to that day |
| `Calendar.DaysThenCivil` | components/rtc_pcf85063/src/rtc_pcf85063.c:16-38 | days_from_civil then civil_from_days gives back every valid date |
| `Calendar.DaysInjective` | components/rtc_pcf85063/src/rtc_pcf85063.c:16-24 | Two valid dates have one day number exactly when they are equal |
| `Calendar.WeekdayAdvances` | components/rtc_pcf85063/src/rtc_pcf85063.c:41-48 | The weekday advances by one each day, negatives included, and day 0 is a Thursday |
| `Calendar.WdayIsFloorMod` | components/rtc_pcf85063/src/rtc_pcf85063.c:41-48 | The truncating remainder with its correction is the floored one |
| `Calendar.EraIsFloor` | components/rtc_pcf85063/src/rtc_pcf85063.c:16-38 | The truncating division with its correction is the floored one |
| `Rtc.BcdRoundTrip` | components/rtc_pcf85063/src/pcf85063.c:3-11 | BCD is exact up to 99 |
| `Rtc.RegistersRoundTrip` | components/rtc_pcf85063/src/pcf85063.c:19-59 | Registers give back the fields written to them, masks included, with the year clamped to the chip's century |
| `Rtc.StoppedIsNoTime` | components/rtc_pcf85063/src/pcf85063.c:19-59 | Registers give no time exactly when the oscillator-stopped flag is set, and no write sets it |
| `Rtc.FieldsExact` | components/rtc_pcf85063/src/rtc_pcf85063.c:81-109 | The fields computed from an instant are in range and stand for it in whole seconds |
| `Rtc.CenturyDays` | components/rtc_pcf85063/src/rtc_pcf85063.c:81-109 | The days of 2000-01-01 to 2099-12-31 are exactly 10957 to 47481 |
| `Rtc.SetThenGetIff` | components/rtc_pcf85063/src/rtc_pcf85063.c:61-109 | Set then get returns the instant in whole seconds exactly for instants from 2000-01-01 to 2099-12-31 |
| `Rtc.Clock.SetTime` | components/rtc_pcf85063/src/rtc_pcf85063.c:81-109 | The write as run, with its error cases, puts the specified registers on the chip |
| `Rtc.Clock.GetTime` | components/rtc_pcf85063/src/rtc_pcf85063.c:61-79 | The read as run returns the instant of the registers, or the specified error |
| `Rtc.Clock.SetThenGet` | components/rtc_pcf85063/src/rtc_pcf85063.c:61-109 | The two together on the chip: the instant in whole seconds |
| `SkPublish.PublishingConverges` | components/switch_bank/src/sk_bridge.c:410-425 | Under every interleaving of commits, notifications and full republishes, each channel's last published value is its reported state, or a notification for it is still owed or being handled; when nothing is owed all agree |
| `SkPublish.StepKeeps` | components/switch_bank/src/sk_bridge.c:206-256 | Every single step keeps that invariant |
| `SkPublish.Drains` | components/switch_bank/src/sk_bridge.c:410-425 | While no relay changes and no republish begins every step uses up work, and while work is left a step is enabled |
| `SkPublish.RepublishPublishesAll` | components/switch_bank/src/sk_bridge.c:206-256 | A full publish, run to its end, has put every channel's reported state on every enabled tree, and the bridge is started |
| `SkPublish.NotificationPublishesIts` | components/switch_bank/src/sk_bridge.c:410-425 | A notification, run to its end, has put its channel's reported state on every enabled tree and nothing else anywhere; nothing before the bridge is started |
| `SkPublish.RelayOpCommits` | components/relay_ctrl/src/relay_ctrl.c:210-229 | A relay operation, in any state, is a commit of the protocol exactly when it is no save that rewires a relay without switching its coil |
| `SkOutage.LostOncePerOutage` | components/switch_bank/src/sk_bridge.c:472-494 | SignalK is reported lost at most once per outage, after a connection and a full grace period down in true time |
| `SkOutage.OutageIsReported` | components/switch_bank/src/sk_bridge.c:452-494 | From power-on: a stream that was up, is lost, and is not back by a tick between the grace period and 2^32 ms later has by then been reported lost exactly once for that outage, with a tree published; all said of the events alone |
| `SkOutage.RecordFollowsEvents` | components/switch_bank/src/sk_bridge.c:452-470 | In every run from power-on the record is down exactly when the stream has been up and the last news of it is that it is not |
| `SkOutage.RepublishIff` | components/switch_bank/src/sk_bridge.c:452-494 | Everything is published again exactly, once started, at every connection and at every tick that finds the stream up and the interval over |
| `SkOutage.RepublishEveryInterval` | components/switch_bank/src/sk_bridge.c:472-494 | In true time: never before the interval is over, and at the first tick when it is, below 2^32 ms |
| `SkOutage.DownHasOutage` | components/switch_bank/src/sk_bridge.c:452-470 | A stream that is down went down at an event of the run, and that is the time counted from |
| `SkOutage.RepublishOnlyWhileUp` | components/switch_bank/src/sk_bridge.c:452-494 | Nothing is republished to a server that is not there |
| `SkOutage.Bridge.StreamChanged` | components/switch_bank/src/sk_bridge.c:452-470 | The stream callback as run, on wrapped times, is the specified one |
| `SkOutage.Bridge.OnTick` | components/switch_bank/src/sk_bridge.c:472-494 | The tick as run, on wrapped times, is the specified one |
| `TxSlots.FramesUncorrupted` | components/signalk-espos__espos_n2k/src/twai_node.cpp:201-242 | Under every interleaving of transmit steps, driver answers, interrupts and silent drops, a slot the driver holds is marked in use and still has its frame, and the wire carries an in-order subsequence of the accepted frames |
| `TxSlots.FramesAccounted` | components/signalk-espos__espos_n2k/src/twai_node.cpp:201-316 | In every run each accepted frame is on the wire, with the driver, or was reported failed or dropped; as long as none was, the wire has exactly the frames accepted first, in order |
| `TxSlots.NoSlotMeansBusy` | components/signalk-espos__espos_n2k/src/twai_node.cpp:201-242 | A transmit gives up for want of a slot only while the driver holds a frame, and, if none was ever dropped, only when every slot is held |
| `TxSlots.IdleDriverHasSlots` | components/signalk-espos__espos_n2k/src/twai_node.cpp:215-226 | With an idle driver a transmit always ends up with a slot to choose, if need be by reclaiming all |
| `TxSlots.StepKeeps` | components/signalk-espos__espos_n2k/src/twai_node.cpp:201-316 | Every single step keeps the slot invariant |
| `TxSlots.TwaiNode.Transmit` | components/signalk-espos__espos_n2k/src/twai_node.cpp:201-242 | The transmit as run, without interrupts between its steps: its errors, a closed node included, the slot it fills and what it leaves alone |
| `TxSlots.TwaiNode.OnTxDone` | components/signalk-espos__espos_n2k/src/twai_node.cpp:303-316 | The tx-done callback as run is the specified step |
| `InputRuns.SuffixIsLongestConstant` | components/input_sense/src/input_sense.c:115-135 | The suffix used below is the longest one on which the pin did not change |
| `InputRuns.DebounceDescribesHistory` | components/input_sense/src/input_sense.c:115-135 | In every state of every run the candidate is the last sample and its time the start of the longest constant suffix of samples, invert changes notwithstanding |
| `InputRuns.FlipsOnlyWhenSteady` | components/input_sense/src/input_sense.c:115-185 | After start-up a reported level, seen through invert, changes only at a poll that finds the pin steady for the debounce time, and then to its level |
| `InputRuns.SteadyIsReported` | components/input_sense/src/input_sense.c:115-185 | And a pin steady for that long (and less than 2^32 ms) is reported at its level |
| `InputRuns.ReadyIff` | components/input_sense/src/input_sense.c:137-158 | The inputs become ready exactly at the first poll that finds every pin steady for the debounce time or comes 1000 ms and the debounce time after start-up; steady pins then read their level, the others off |
| `InputRuns.ReportsExactlyAsChanged` | components/input_sense/src/input_sense.c:71-185 | Every event tells the listeners of exactly the channels whose reported state flips, or of all when the inputs become ready, each once with its new state and the new mask |
| `InputRuns.ReportsComeFirst` | components/input_sense/src/input_sense.c:137-185 | An input is reported before any relay it drives is switched |
| `InputRuns.SavesFireNothing` | components/input_sense/src/input_sense.c:90-113 | No sequence of invert, debounce and override saves over steady, settled pins ever fires an override |
| `InputRuns.OverridesExactlyAsDemanded` | components/input_sense/src/input_sense.c:55-69 | Every event fires exactly the overrides its inputs demand, each once |
| `InputRuns.ToggleOncePerPress` | components/input_sense/src/input_sense.c:55-69 | A toggle link fires exactly once per off-to-on report of a poll that is not a first reading, and never otherwise |
| `InputRuns.LateOverrideIff` | components/input_sense/src/input_sense.c:160-183 | A late input drives its follow-linked relay when it settles exactly if its level differs from the one reported meanwhile |
| `InputRuns.LateInputDrivesNothing` | components/input_sense/src/input_sense.c:115-185 | A concrete run from start-up in which a late input settles at its reported level and its follow-linked relay is told nothing |
| `InputSense.Inputs.constructor` | components/input_sense/src/input_sense.c:71-88 | Start-up as run is the specified one |
| `InputSense.Inputs.Poll` | components/input_sense/src/input_sense.c:115-185 | The poll as run, on in-place arrays and wrapped times, is the specified one: state, reports and overrides |
| `InputSense.Inputs.UpdateConfig` | components/input_sense/src/input_sense.c:90-113 | The settings save as run is the specified one |
| `CounterRuns.ReportsExactly` | components/counters/src/counters.c:36-135 | In any run from start-up, with any times at all: what is read is the stored base plus the whole seconds of each closed on-period and of the running one, less those that late off-reports since the last reset and a late read leave out, and the stored cycles plus the off-to-on edges after the first report |
| `CounterRuns.ReportRightIff` | components/counters/src/counters.c:36-135 | With events in order and within 136 years of start-up, the read is right, nothing left out, if and only if every off-report of the channel since its last reset, and the read, came less than 2^32 ms after the channel was folded |
| `CounterRuns.FoldingIsInvisible` | components/counters/src/counters.c:36-135 | Where the channel's off-reports and the read are in time, the read is right however ticks, flushes, resets of others and other channels' events are placed |
| `CounterPacing.InTimeIffRefreshed` | components/counters/src/counters.c:36-188 | Exactly when a time is in time: folds so far having been, if and only if the channel's last fold, reset or switching on, less the part of a second it left over, is less than 2^32 ms ago |
| `CounterPacing.PacedFoldingIsInvisible` | components/counters/src/counters.c:164-188 | Reads are right in every run with events in order, ticks at most d apart and at most r saved resets in any 2^32 ms, as long as r + 1 intervals and tick spacings fit in 2^32 ms |
| `CounterPacing.FoldedInTimeWhenPaced` | components/counters/src/counters.c:164-188 | In such a run every event finds every channel folded less than 2^32 ms before |
| `CounterPacing.FrequentResetsHideRuntime` | components/counters/src/counters.c:137-162 | Resets must be rare: a concrete run, ticked all along, with another channel reset every five minutes, in which no tick ever folds and 4295100 s are reported as 132 |
| `CounterRuns.FoldTracks` | components/counters/src/counters.c:36-49 | A fold, however late, moves whole seconds and loses none: what its 32-bit age leaves out stays in the running period |
| `CounterRuns.FlushSurvivesRestart` | components/counters/src/counters.c:190-210 | A flush that was stored, then a restart, reports the same numbers, in time or not |
| `CounterStore.TickSurvivesRestart` | components/counters/src/counters.c:164-188 | In any run from a start-up that could read the store: after a tick that ends an interval and whose save is taken, a restart reports of every channel what was reported at the tick |
| `CounterStore.ResetSurvivesRestart` | components/counters/src/counters.c:137-162 | After a saved reset a restart reads zero for the channel, and for every other what it read without the seconds not yet folded |
| `CounterStore.StartIsCurrentIff` | components/counters/src/counters.c:51-81 | After start-up the store has the counters' numbers exactly when it could be read or counted nothing |
| `CounterStore.SavedIsClean` | components/counters/src/counters.c:137-210 | A flush, a valid reset or a tick that ends an interval leaves nothing unsaved once its save is taken |
| `CounterStore.NothingCountedNothingWritten` | components/counters/src/counters.c:83-188 | With no channel on and nothing counted, ticks and reports neither write the store nor mark anything unsaved |
| `CounterRuns.TickWritesRarely` | components/counters/src/counters.c:164-188 | A tick that changes what is stored comes a full interval of true time after the last save |
| `CounterPacing.TickWritesTenMinutesApart` | components/counters/src/counters.c:164-188 | Over any run, two store writes by ticks, successful or not, are never less than the interval apart in true time |
| `Counters.Store.OnChange` | components/counters/src/counters.c:83-109 | The change callback as run is the specified one |
| `Counters.Store.Get` | components/counters/src/counters.c:111-135 | The read as run is the specified one |
| `Counters.Store.Reset` | components/counters/src/counters.c:137-162 | The reset as run is the specified one |
| `Counters.Store.Tick` | components/counters/src/counters.c:164-188 | The tick as run is the specified one |
| `Counters.Store.FlushNow` | components/counters/src/counters.c:190-210 | The flush as run is the specified one |
| `AlertRuns.ActiveIffWanted` | components/switch_bank/src/n2k_alerts.c:112-142 | After a tick a channel's alert is active, at its level, exactly when input and settings want it |
| `AlertRuns.OneChannelPerTick` | components/switch_bank/src/n2k_alerts.c:144-176 | A tick sends for at most one channel, text before status, the old Normal before the new state |
| `AlertSends.LowestDueIsSent` | components/switch_bank/src/n2k_alerts.c:144-176 | The lowest channel with something due sends its status exactly once, Active until acknowledged and Acknowledged then, with its own identity and type, and its text with its message, each exactly if it is due |
| `AlertSends.CalledForGoesOut` | components/switch_bank/src/n2k_alerts.c:112-176 | A raise, the end of a period, an acknowledgement or a changed message makes the status or text go out within eight ticks at which nothing else falls due |
| `AlertSends.OwedPartGoesOut` | components/switch_bank/src/n2k_alerts.c:144-176 | Whatever status or text of a live alert is due goes out within such a round |
| `AlertSends.AcknowledgementGoesOut` | components/switch_bank/src/n2k_alerts.c:144-202 | A response that is taken is answered within eight ticks by Acknowledged with its identity and the responder's name |
| `AlertSends.SentHasCause` | components/switch_bank/src/n2k_alerts.c:77-202 | From start-up no live status or text goes out that was not called for since the last one of its channel |
| `AlertSends.PeriodsApart` | components/switch_bank/src/n2k_alerts.c:112-121 | Statuses repeat every 1000 ms and texts every 10000 ms of true time: no two ends of periods are closer, and a tick that long after one is or follows the next |
| `AlertClears.ThreeNormals` | components/switch_bank/src/n2k_alerts.c:90-176 | A clear, followed by a quiet round, and the ends of two later status periods, each followed by one, with no further clear: from then on exactly three Normals have gone out, each with the type and occurrence of the cleared alert, and none is owed |
| `AlertClears.ThreeNormalsHappen` | components/switch_bank/src/n2k_alerts.c:90-176 | A concrete run of 25 ticks that does it |
| `AlertClears.OwedNormalGoesOut` | components/switch_bank/src/n2k_alerts.c:144-176 | A Normal owed and due is sent within eight ticks at which nothing new falls due |
| `AlertClears.PeriodPaysOne` | components/switch_bank/src/n2k_alerts.c:112-176 | The end of a status period makes an owed Normal due again, and one is sent within such a round |
| `AlertRuns.NormalsAddUp` | components/switch_bank/src/n2k_alerts.c:90-176 | Over any run, the Normals sent since a clear with the full identity of the cleared alert and those still owed make three; occurrences count raises from 1 to 255 and around |
| `AlertRuns.NormalsNameTheCleared` | components/switch_bank/src/n2k_alerts.c:47-64 | No other Normal ever goes out: each names the alert of its channel last cleared |
| `AlertRuns.SilentWhenDone` | components/switch_bank/src/n2k_alerts.c:112-176 | A channel neither active nor owing a Normal sends nothing at a tick that does not raise it |
| `AlertRuns.TickShrinksBacklog` | components/switch_bank/src/n2k_alerts.c:144-176 | A tick takes exactly the lowest due channel off the backlog |
| `AlertRuns.BacklogEmpties` | components/switch_bank/src/n2k_alerts.c:144-176 | With nothing new falling due, n ticks leave at most 8 - n channels due |
| `AlertRuns.AcknowledgedByMatchingResponse` | components/switch_bank/src/n2k_alerts.c:178-202 | An alert reads acknowledged only since a response naming its own type and occurrence |
| `AlertRuns.AcknowledgedReportIsAnswered` | components/switch_bank/src/n2k_alerts.c:47-64 | Acknowledged goes out only for an alert so answered, with the responder's name |
| `AlertRuns.OccurrenceRepeats` | components/switch_bank/src/n2k_alerts.c:101-110 | Two raises have one occurrence number exactly when they are a multiple of 255 apart |
| `AlertRuns.EarlierTripRejected` | components/switch_bank/src/n2k_alerts.c:178-202 | Whatever else it says, a response with the occurrence of an earlier trip changes nothing unless it is a multiple of 255 raises old |
| `AlertRuns.EarlierTripIff` | components/switch_bank/src/n2k_alerts.c:178-202 | An acknowledgement of ours with the occurrence of raise m is taken at raise n exactly when the alert is active, unacknowledged and of its type, and n - m is a multiple of 255 |
| `AlertClears.StaleResponseTaken` | components/switch_bank/src/n2k_alerts.c:178-202 | A concrete run: the answer to the first trip is taken for the 256th |
| `AlertTracker.N2kAlerts.OnTick` | components/switch_bank/src/n2k_alerts.c:112-176 | The tick as run, on records changed in place and wrapped times, is the specified one |
| `AlertTracker.N2kAlerts.OnResponse` | components/switch_bank/src/n2k_alerts.c:178-202 | The response handler as run is the specified one |
| `AlertTracker.N2kAlerts.SetConfig` | components/switch_bank/src/n2k_alerts.c:77-88 | The settings change as run is the specified one |
| `AlertText.HeaderRoundTrip` | components/switch_bank/src/n2k_alert_pgn.c:29-52 | A header reads back as the identity it was made from, type and category cut to four bits |
| `AlertText.HeaderIsExact` | components/switch_bank/src/n2k_alert_pgn.c:29-52 | Every 16 bytes are the header of the identity read from them |
| `AlertText.NextCodePoint` | components/switch_bank/src/n2k_alert_pgn.c:68-99 | Any bytes, well formed or not: a code point always makes progress and never passes the end |
| `AlertText.WellFormedDecodes` | components/switch_bank/src/n2k_alert_pgn.c:68-99 | Well-formed UTF-8 decodes to its own code points (a question mark beyond UCS-2), whatever bytes come before it |
| `AlertText.CodePointsSplit` | components/switch_bank/src/n2k_alert_pgn.c:68-99 | Decoding is self-synchronising at character boundaries |
| `AlertText.Lau` | components/switch_bank/src/n2k_alert_pgn.c:104-133 | A string takes at most its room, and its length byte says what it takes |
| `AlertText.LauParsesBack` | components/switch_bank/src/n2k_alert_pgn.c:104-133 | It reads back as the longest run of whole characters that fits |
| `AlertText.TextParsesBack` | components/switch_bank/src/n2k_alert_pgn.c:135-151 | For every pair of strings and every size of at least 21, at most min(size, 223) bytes that read back as the identity, English, the longest description that leaves room for an empty location, and the longest location in the rest |
| `AlertText.NothingBelowTheSmallest` | components/switch_bank/src/n2k_alert_pgn.c:138-144 | A buffer gets nothing exactly when it is smaller than 21 bytes |
| `AlertText.ResponseReadsBack` | components/switch_bank/src/n2k_alert_pgn.c:153-162 | A response reads back as the identity, name and two-bit command laid out in it |
| `AlertPayload.ReadCodePoint` | components/switch_bank/src/n2k_alert_pgn.c:68-99 | The decoder as run over a NUL-terminated string, every read within it, is the specified one |
| `AlertPayload.PutString` | components/switch_bank/src/n2k_alert_pgn.c:104-133 | The string as written into the buffer is the specified one; nothing else is written |
| `AlertPayload.PutText` | components/switch_bank/src/n2k_alert_pgn.c:135-151 | The payload as written into the buffer is the specified one; absent strings are empty |
| `AlertPayload.ReadResponse` | components/switch_bank/src/n2k_alert_pgn.c:153-162 | The response decoder as run is the specified one |
| `ScheduleRuns.ClockActiveIsWindows` | components/schedule/src/schedule_eval.c:84-108 | A clock entry is active exactly inside a window started on an enabled day, plus, across midnight, in the minutes before off of an enabled day that follows a disabled one |
| `ScheduleRuns.ClockEntryIsWindows` | components/schedule/src/schedule_eval.c:79-173 | So for what an entry demands, on its own on and off boundaries, from the clock or the sun |
| `ScheduleRuns.BoundaryMinute` | components/schedule/src/schedule_eval.c:33-77 | A clock boundary is its minute; sunrise and sunset are the local minute of that instant plus the offset, modulo the day; on polar days a boundary is at 0 or never |
| `ScheduleRuns.PolarDays` | components/schedule/src/schedule_eval.c:33-108 | From sunrise to sunset is all of an enabled day when the sun stays up and none when it stays down; from sunset to sunrise the other way round |
| `ScheduleRuns.MaskedDayStartsEarly` | components/schedule/src/schedule_eval.c:95-98 | A concrete minute of that extra stretch, in no window at all |
| `ScheduleRuns.ResolvedInDay` | components/schedule/src/schedule_eval.c:33-77 | Every boundary resolves to a minute of the day, or to 1440 when the sun never gives it |
| `ScheduleRuns.DutyCycleOfDay` | components/schedule/src/schedule_eval.c:110-121 | A repeat entry demands its relay on for (1440/period)*on + min(1440 mod period, on) minutes of an enabled day, none of a disabled one |
| `ScheduleRuns.CommandsAreChanges` | components/schedule/src/schedule_eval.c:123-173 | The commands an entry sends are its demands with repeats removed, a gap starting afresh |
| `ScheduleEval.Evaluator.Tick` | components/schedule/src/schedule_eval.c:123-173 | The tick as run, entry by entry, is the specified one |
| `ScheduleEval.Evaluator.NeedsSun` | components/schedule/src/schedule_eval.c:144-153 | Sun times are looked up exactly when an entry in use refers to them |
| `Morse.DecodesToMessage` | components/indicator/src/indicator_logic.c:72-97 | A listener who goes by gaps of 1, 3 and 7 writes down the letters in upper case, unknown characters dropped, spaces collapsed and trimmed |
| `Morse.SoundTheSameIff` | components/indicator/src/indicator_logic.c:72-97 | Two texts sound the same exactly when they are the same message |
| `Morse.TableIsTree` | components/indicator/src/indicator_logic.c:53-70 | The code table says the same as the Morse tree |
| `Morse.CarriedIff` | components/indicator/src/indicator_logic.c:53-97 | Exactly the letters in either case and the digits have a code |
| `Morse.SegmentsAlternate` | components/indicator/src/indicator_logic.c:72-97 | Segments alternate, begin and end with a tone, and have the lengths of Morse |
| `Morse.ToneIsPeriodic` | components/indicator/src/indicator_logic.c:129-153 | For a message that fits the clock, the tone at t is that of the segment t falls into, modulo message and pause |
| `MorseBuffer.EncodeInto` | components/indicator/src/indicator_logic.c:72-97 | The encoder as run fills the buffer with the message, or as much of it as fits, and writes nothing else |
| `MorseBuffer.DurationMs` | components/indicator/src/indicator_logic.c:129-136 | The duration as summed is the specified one |
| `MorseBuffer.IsToneAt` | components/indicator/src/indicator_logic.c:138-153 | The lookup as run is the specified one |
| `Candump.LineReadsBack` | components/signalk-espos__espos_n2k/src/candump_format.cpp:27-138 | For every 32-bit identifier, every frame of up to eight bytes and every interface name without spaces, a line reads back as the frame and the time, clamped past 4000000000 s; only a frame without data is refused |
| `Candump.BytesAreWholePairs` | components/signalk-espos__espos_n2k/src/candump_format.cpp:109-135 | On any text the bytes taken are whole pairs of hex digits from the start, as many as there are up to eight; a lone digit is never taken |
| `Candump.Decode` | components/signalk-espos__espos_n2k/src/candump_format.cpp:59-138 | Whatever the text, what is decoded is an extended frame of 1 to 8 bytes with a 32-bit identifier and a time that fits |
| `Candump.StampReads` | components/signalk-espos__espos_n2k/src/candump_format.cpp:66-94 | A printed time reads back, clamped |
| `Candump.AnyStampReads` | components/signalk-espos__espos_n2k/src/candump_format.cpp:66-94 | A time of any whole numbers reads with its seconds cut to 4000000000 and its microseconds to 999999 |
| `Candump.StampIsClock` | components/signalk-espos__espos_n2k/src/candump_format.cpp:27-44 | A line carries the wall clock once it is past 2020, else the time since start, exactly |
| `Candump.AnyIdReads` | components/signalk-espos__espos_n2k/src/candump_format.cpp:95-108 | An identifier with or without sign and 0x is read as it is, past 32 bits as the largest, with a minus sign as its 32-bit negative |
| `CandumpLine.EncodeLine` | components/signalk-espos__espos_n2k/src/candump_format.cpp:27-57 | The line as printed is the specified one, or -1 exactly when it and its NUL do not fit |
| `CandumpLine.HexText` | components/signalk-espos__espos_n2k/src/candump_format.cpp:45-52 | The data digits never overrun their buffer, whatever the length field says |
| `CandumpLine.DecodeInto` | components/signalk-espos__espos_n2k/src/candump_format.cpp:59-138 | The parser as run, every look within the line and its NUL, is the specified one; the rest of the frame stays |
| `SwitchBank.EncodeStatus` | components/switch_bank/src/switch_bank_pgn.c:7-16 | The payload as built says exactly the state of every channel, and unavailable beyond them |
| `SwitchBank.StatusIsUnique` | components/switch_bank/src/switch_bank_pgn.c:7-16 | Only one payload says so |
| `SwitchBank.StatusRoundTrip` | components/switch_bank/src/switch_bank_pgn.c:7-36 | For every channel count and mask, a status read as a control gives on = the mask and off = its complement, within the channels |
| `SwitchBank.CommandIsConsistent` | components/switch_bank/src/switch_bank_pgn.c:18-36 | For any payload: refused exactly when short or for another instance; on and off disjoint and in range; left out exactly the fields 2 and 3 |
| `SwitchBank.ReadControl` | components/switch_bank/src/switch_bank_pgn.c:18-36 | The decoder as run is the specified one |

## Left out

- `Morse.ToneIsPeriodic`: needs a message and pause that together fit the 32-bit clock; past that the sums wrap. `IsToneAt` is proved for every message whose wrapped period is not zero, where the division is undefined.
- `RelayTiming.OnTimeBounded`: for a pulse, limit and tick spacing below 2^31 ms, the range of the signed deadline test; on a working bus, since a coil whose off-write fails stays on; and for saves that pair up no two waiting relays.
- `RelayDuration.StaysOnItsTime`: for pulses and maximum on-times below 2^31 ms, the range of the signed deadline test.
- `RelayHold.BootSucceedsIff`: for reads that are right or fail and writes that are good or refused; a wrong read-back is in the model of start-up and covered by `Expander.InitDrivesOnlyTarget`.
- `AlertSends.CalledForGoesOut`: within rounds of eight ticks at which nothing new falls due; under a steady stream of new alerts of lower channels a higher one waits.
- `CounterRuns.FoldingIsInvisible`: for off-reports and reads in time, the exact condition within 136 years of start-up being `ReportRightIff`; each call is atomic, while the firmware saves a snapshot outside the lock and clears the dirty flag after it.
- `InputRuns.SteadyIsReported`: for a pin steady for less than 2^32 ms, where its 32-bit age has not wrapped.
- `Calendar.DaysFromCivilExact`: on unbounded integers; the 64-bit overflow at the ends of the range is not modelled.
- `Candump.LineReadsBack`: for non-negative times and microseconds below a million, as a clock gives them; `long` is taken as 32 bits wide, as on the chip.
- `TxSlots.FramesUncorrupted`: the driver is a line of held frames that it completes in order or drops silently; "idle" means it holds none. Opening, closing and recovering the node, and reception, are not modelled.
- `TxSlots.TwaiNode.Transmit`: shown without interrupts between its steps; the interleavings are the runs of `TxSlots`.
- `SkPublish.PublishingConverges`: relay states only; inputs, names, descriptions, counters and notification paths are published the same way and not modelled. A save that rewires a relay is a step of it only where it also switches the coil (`RelayOpCommits`).
- The sun: its times are an input to the schedules, its formulas are not modelled.
- Parsing of stored settings texts (times of day, minutes): the derivations start from the stored numbers.
- The alert status message bytes: the tracker keeps its type, occurrence, condition and responder; constant fields (category, trigger, threshold, supported flags) are not modelled.
- Health messages, logging and chirps: reports to people, no state depends on them.
- Relay tones, colours, buttons, path building, JSON escaping, web pages: they would only add easy members.
- The candump server's sockets and its resynchronisation after a partial send: the bytes already sent stay in the stream, so no property of whole lines holds of it.
- Drivers (I2C, NVS, GPIO, CAN controller), task creation, update and debug consoles: replaced by the environment's answers.
