# Sweep2wake gesture engine and proximity cache, modelled in Dafny

This project models the sweep-to-wake engine of a touchscreen driver. It also models the small proximity-sensor cache that sits beside it.

- **Recognizer** (`detect_sweep2wake`, `sweep2wake_reset`). While the screen is suspended, it recognises a left-to-right sweep across two trigger bands and then asks for a power-key press. While the screen is on, it does the same for a right-to-left sweep. After one press it asks for no other until the contact is lifted.
- **Coalescer** (`s2w_input_event`). It merges separate X and Y multi-touch events into complete samples. It also recognises the three contact-lift signals that reset the recognizer.
- **Configuration.** The two sysfs switch stores, the `s2w=` boot argument and the device-name filter.
- **Proximity cache** (`ps_is_close`). It gives a time-windowed answer over a sensor read, and it has two sysfs setters.

Files:

- `wrappers.dfy`: an `Option` type.
- `sweep2wake.dfy`: module `Sweep2Wake`. It holds the globals as values (`DriverState`), one function per operation (`Evaluate`, `Coalesce`, `SysfsDigit`, `CmdlineDigit`, `InputDevFilter`, `Apply`) and traces of actions (`Run`). The lemmas relate several steps.
- `sweep2wake_driver.dfy`: module `Sweep2WakeDriver`. Class `Driver` keeps the module globals as fields, with `barrier` as a two-element array. Each method updates them in place as the C function does, and each is proved against the matching function of `Sweep2Wake`. A press of the power key is an append to the ghost log `fired`.
- `nasa_proximity.dfy`: module `NasaProximity`. It has the `Query` specification, the setter functions, and class `Proximity`, whose methods update the cache in place.

The work-queue hop is modelled as a synchronous call. `InputEvent` calls `InputCallback` at once, and `InputCallback` evaluates `(touchX, touchY)` with `single_touch` set. Two behaviours a reader might not expect are modelled as the code has them. First, `sweep2wake_reset` leaves the ready flags alone, so a pending half-sample survives a reset (`PendingAxisSurvivesLift`). Second, every band bound is strict, so x = 60 and x = 420 belong to no band (`Evaluate`).

## Model

| member | source | states |
|---|---|---|
| `Sweep2Wake.Evaluate` | drivers/input/touchscreen/sweep2wake.c:118-188 | The new state, band by band. barrier[0] gets set by an in-bounds sample in the first band of the active direction. barrier[1] gets set only by a middle-band sample (60,420) after barrier[0] was already set. PowerOn fires exactly when wake mode holds, exec_count is true, both barriers were already set and the sample has x > 420 with 0 < y < 854. PowerOff is the mirror image, with x < 60. exec_count drops exactly when a trigger fires. The barrier order is kept. A sample with y out of bounds changes no barrier and fires nothing. With neither mode active, nothing changes. |
| `Sweep2Wake.Coalesce` | drivers/input/touchscreen/sweep2wake.c:204-263 | A lift code (ABS_MT_SLOT; ABS_MT_TRACKING_ID with -1; 330 with 0) clears the recognizer and leaves the coordinates and ready flags alone. A sample is emitted exactly on the event that leaves both axes ready; it carries the stored coordinates, clears both flags, and the recognizer's new state is what it makes of that sample. When no sample is completed, an X or Y update marks its own axis ready and keeps the other flag. Only the matching axis code moves a coordinate. At most one axis is left pending. The switches are never touched. |
| `Sweep2Wake.EventTypeIgnored` | drivers/input/touchscreen/sweep2wake.c:204-263 | The event type never changes the outcome; only the code and the value do. |
| `Sweep2Wake.PairDeliversSample` | drivers/input/touchscreen/sweep2wake.c:248-262 | With nothing pending, an X update alone evaluates nothing. The following Y update delivers exactly the sample (x, y) to the recognizer. |
| `Sweep2Wake.PendingAxisSurvivesLift` | drivers/input/touchscreen/sweep2wake.c:110-115 | A half-sample pending before a lift survives it: the next Y update completes the sample with the old X. |
| `Sweep2Wake.SysfsDigit` | drivers/input/touchscreen/sweep2wake.c:373-385 | A store gives a value only for '0' or '1' followed by a newline at index 1, and that value is the digit written. Every other write gives none. |
| `Sweep2Wake.CmdlineExact` | drivers/input/touchscreen/sweep2wake.c:73-85 | The boot argument gives a value exactly for the strings "0" and "1", and that value is the digit. |
| `Sweep2Wake.SysfsAgreesWithCmdline` | drivers/input/touchscreen/sweep2wake.c:373-385 | A one-character sysfs write followed by a newline is accepted exactly as the boot argument of that character is. |
| `Sweep2Wake.ContainsIffOccurs` | drivers/input/touchscreen/sweep2wake.c:266-267 | The left-to-right substring scan used for strstr finds the needle exactly when the needle occurs at some index of the name. |
| `Sweep2Wake.InputDevFilter` | drivers/input/touchscreen/sweep2wake.c:265-272 | The result is 0 or 1. It is 0 (keep the device) exactly when the name contains "touch" or "mtk-tpd". |
| `Sweep2Wake.Apply` | drivers/input/touchscreen/sweep2wake.c:204-263 | Any step (input event, screen change, switch write) fires only when exec_count was true, and then clears it. Only a lift turns exec_count back on. The barrier order is kept. Screen changes and switch writes leave the recognizer and pending sample untouched. Without a lift, no barrier is cleared. |
| `Sweep2Wake.TriggersBoundedByLifts` | drivers/input/touchscreen/sweep2wake.c:145-153 | Along any trace, the triggers fired are at most the number of lifts, plus one if exec_count was true at the start. This holds whatever screen and switch changes occur in between. |
| `Sweep2Wake.NoSecondTriggerBeforeLift` | drivers/input/touchscreen/sweep2wake.c:148-151 | Once exec_count is false, no trace without a lift fires anything. |
| `Sweep2Wake.RunKeepsOrder` | drivers/input/touchscreen/sweep2wake.c:130-144 | barrier[1] implies barrier[0] in every state a trace reaches from one where it held. |
| `Sweep2Wake.ProgressKeptWithoutLift` | drivers/input/touchscreen/sweep2wake.c:110-115 | Without a lift, a barrier that is set stays set along any trace, including one that switches the feature off and back on. |
| `Sweep2Wake.WakeSweep` | drivers/input/touchscreen/sweep2wake.c:127-155 | In wake mode from a reset, the samples (10,400), (70,400), (430,400) fire PowerOn on the third sample only. A further (450,400) fires nothing. |
| `Sweep2Wake.SleepSweep` | drivers/input/touchscreen/sweep2wake.c:157-186 | In sleep mode from a reset, the samples (470,400), (410,400), (50,400) fire PowerOff on the third sample only, and then exec_count is false. |
| `Sweep2Wake.NoTriggerWithinTwoSamples` | drivers/input/touchscreen/sweep2wake.c:130-184 | After a reset, no trigger fires on the first two samples, whatever the samples and the configuration. |
| `Sweep2Wake.HoldThenComplete` | drivers/input/touchscreen/sweep2wake.c:145-147 | An out-of-bounds y in the trigger zone holds: nothing fires, and the next in-bounds sample there still completes the sweep. |
| `Sweep2Wake.WakeOffAtBoot` | drivers/input/touchscreen/sweep2wake.c:38-39 | With the boot switch values, wake sweeps are off and sleep sweeps are on. |
| `Sweep2WakeDriver.Driver.constructor` | drivers/input/touchscreen/sweep2wake.c:50-55 | The globals start at their static initial values and no press has been requested. |
| `Sweep2WakeDriver.Driver.ReadCmdline` | drivers/input/touchscreen/sweep2wake.c:73-85 | The switch changes only for the exact argument "0" or "1". The result is always 1. |
| `Sweep2WakeDriver.Driver.Sweep2WakeReset` | drivers/input/touchscreen/sweep2wake.c:110-115 | The recognizer becomes the cleared state. Coordinates, ready flags and switches stay as they were. |
| `Sweep2WakeDriver.Driver.DetectSweep2Wake` | drivers/input/touchscreen/sweep2wake.c:118-188 | The in-place update of barrier[], exec_count and scr_on_touch, and the press requests, are exactly what `Evaluate` specifies. |
| `Sweep2WakeDriver.Driver.InputCallback` | drivers/input/touchscreen/sweep2wake.c:190-202 | The queued work evaluates the stored coordinates as a single touch. |
| `Sweep2WakeDriver.Driver.InputEvent` | drivers/input/touchscreen/sweep2wake.c:204-263 | The globals after an event, and the presses requested, are exactly what `Coalesce` specifies. |
| `Sweep2WakeDriver.Driver.Sweep2WakeDump` | drivers/input/touchscreen/sweep2wake.c:373-385 | s2w_switch takes the parsed digit if there is one and is otherwise unchanged. The result is always `count`. |
| `Sweep2WakeDriver.Driver.S2sOnlyDump` | drivers/input/touchscreen/sweep2wake.c:400-412 | s2w_s2sonly takes the parsed digit if there is one and is otherwise unchanged. The result is always `count`. |
| `NasaProximity.Query` | drivers/misc/nasa_proximity.c:50-77 | Guarded (switch 0, no sensor, or screen on): returns 0 and changes nothing. Cache hit (timeout > 0 and now - read_time_pre < timeout): returns prev_res, changes nothing and does not read the sensor. The sensor is read exactly in the remaining cases. A read returns 0 if the sensor reports 1 and 1 otherwise. It stores that result in prev_res. Only when timeout > 0 does it move read_time_pre, to the second clock reading (taken after the one compared with the window). If prev_res was 0 or 1, the result and the new prev_res are 0 or 1. |
| `NasaProximity.RepeatWithinWindow` | drivers/misc/nasa_proximity.c:59-72 | Right after a sensor read with a non-zero window, a query inside the window (counted from the stored time) returns the same value without reading. |
| `NasaProximity.ZeroTimeoutAlwaysReads` | drivers/misc/nasa_proximity.c:59-63 | With timeout 0, every unguarded query reads the sensor, and read_time_pre never moves. |
| `NasaProximity.StoreEnable` | drivers/misc/nasa_proximity.c:85-96 | An unparseable write sets the switch to 0. A parsed 0 or 1 is stored. Any other parsed value leaves the switch unchanged. |
| `NasaProximity.StoreEnableKeepsBoolean` | drivers/misc/nasa_proximity.c:88-93 | A switch that is 0 or 1 stays 0 or 1 under every write. |
| `NasaProximity.StoreTimeout` | drivers/misc/nasa_proximity.c:107-117 | A parsed value of any size becomes the window. A failed parse leaves it unchanged. |
| `NasaProximity.Proximity.constructor` | drivers/misc/nasa_proximity.c:35-48 | Initial values: the switch from the build option, timeout 600, an empty cache, no reads yet; prev_res and the switch start as 0 or 1. |
| `NasaProximity.Proximity.PsIsClose` | drivers/misc/nasa_proximity.c:50-77 | The result, the in-place update of read_time_pre and prev_res, and the count of sensor reads are exactly what `Query` specifies. The object invariant (prev_res is 0 or 1, the switch is 0 or 1) is kept, so the result is always 0 or 1. |
| `NasaProximity.Proximity.NasaProximitySet` | drivers/misc/nasa_proximity.c:85-96 | The switch becomes `StoreEnable` of the old value and the parse. The result is always `size`. |
| `NasaProximity.Proximity.NasaProximityTimeoutSet` | drivers/misc/nasa_proximity.c:107-117 | The window becomes `StoreTimeout` of the old value and the parse. The result is always `size`. |

## Left out

- Power-key dispatcher (`sweep2wake_presspwr`, `sweep2wake_pwrtrigger`). It relies on a try-lock, sleeps and key emission, so it is concurrency and timing. A request for a press is an append to the ghost log `fired`, so dropped presses while one is in flight are not modelled.
- Work queue (`queue_work_on`, `create_workqueue`). Samples are evaluated synchronously. The real queue evaluates the coordinates current when the work runs, and re-queueing pending work coalesces, so samples can be skipped. The model does not show that.
- Input-handler plumbing (`s2w_input_connect`, `s2w_input_disconnect`, handle registration), `sweep2wake_setdev`, and module init/exit. These are kernel registration and allocation.
- The LCD-notifier and early-suspend hooks are compiled out by `WAKE_HOOKS_DEFINED`. `scrSuspended` is a field written from outside, and the `ScreenSuspended` trace action stands for those writes.
- The sysfs show functions, the version attribute, kobject and sysfs creation in both files, and debug output. They are output formatting and registration.
- The proximity hook in the work callback is commented out, so the two parts are not connected. include/linux/nasa_proximity.h holds only declarations.
- `ktime_get`/`ktime_to_ms` and `epl2182_proximity_check` are foreign calls. The two clock readings of `ps_is_close` become the parameters `now` (compared with the window) and `stored` (saved as read_time_pre), with `stored >= now`; the sensor's answer becomes `reading`. `sensor_check` being set is the boolean `sensorPresent`. `sscanf("%u")` is an abstract `Option<u32>` parse result.
- NasaProximity.Query: requires `now >= read_time_pre` and `stored >= now`, that is, a clock that does not run backwards between and across calls. The 64-bit unsigned wrap-around of `now - read_time_pre` for an earlier `now` is not modelled. The same applies to NasaProximity.Proximity.PsIsClose.
- Sweep2Wake.SysfsDigit: a sysfs buffer is a zero-filled page, so a write shorter than two characters has no newline at index 1. The model treats a sequence shorter than two as not matching, rather than reading beyond it.
- C `int` coordinates are unbounded integers here. The engine only compares them and never does arithmetic on them, so no overflow is lost.
