# Barbell tracker firmware: a Dafny model

This project models the decision logic of a barbell velocity tracker. The
tracker is an ESP32 board with a QMI8658 accelerometer, a CST816 touch
panel, an ST7789 display, an AXP2101 power chip, an ES8311 audio codec and
a Bluetooth LE link. The device counts repetitions from the vertical
velocity of the bar. It shows the count, the elapsed time and the battery
state, and on request it streams its workout log to a phone.

It has one Dafny module per firmware source file, plus two shared modules:

- `Workout` (workout.cpp) is the three-state repetition detector
  (idle, moving up, moving down) with its debounce. It also covers the
  session lifecycle: reset, start, stop and the seconds timer.
- `Imu` (imu.cpp) averages fifty accelerometer polls into a gravity
  vector. It then integrates the Z axis into a velocity that decays by 2%
  per sample and snaps to zero inside a 0.02 m/s band. The time-step gate
  and the calibration flag are modelled too.
- `Touch` (touch.cpp) decodes 12-bit coordinates from the controller's
  registers. A gesture recogniser turns polled samples into taps, swipes up
  and down, and long presses. `touchInButton` and `touchReset` are
  modelled too.
- `Slider` (slider.cpp, slider.h) is the settings-screen value editor.
  It clamps the value to its range and steps it on each tap.
- `Battery` (battery.cpp) covers the 14-bit VBAT reading, the voltage
  conversion with its plausibility fallback, the percent and charging
  registers, and the ADC-enable bit.
- `Power` (power.cpp) is the long-press sleep button and the wake flag.
- `Display` (display.cpp) covers the panel's sleep and wake commands,
  the battery icon's fill and colour, and the START/STOP button face. It
  also has the clamped counters, the settings back button and the touch
  dispatch between the two settings sliders.
- `Ble` (ble.cpp) covers 20-byte notification chunking, the log framing
  (BEGIN_LOG, lines, END_LOG), the SYNC and PING commands and the
  advertising flags.
- `Sound` (sound.cpp) covers the volume rule and the sample counts that
  the silence and tone loops stream in 256-sample buffers.
- `Config` holds the constants of config.h, the 32-bit `millis()`
  clock with wrap-around differences, Arduino's `constrain` and C's
  truncating division. `Wrappers` holds `Option`.

Code that updates static variables in place is a Dafny class holding
those statics, and its methods update them. For the state machines
(workout, touch, power), each class method is proved equal to a pure
transition function: `Workout.Step`, `Touch.Step`, `Power.Poll`. The
properties are proved about that function, and about sequences of steps
(`Run`, `Events`, `Sleeps`). Loops in the source are loops in the model:
calibration, the BLE send loop, and the sample loops of the sounds. Each is
proved against a specification function.

Everything the firmware reads from hardware or the clock is an input to
the model:

- accelerometer polls;
- register bytes, where a failed I2C transfer reads as 0;
- the button level;
- `millis()`;
- whether the log file exists, and its lines.

Velocities and accelerations are `real`.

Several names are not defined in config.h. They are parameters of the model:

- `BUTTON_LONG_PRESS_MS` (`Power.SleepButton.longPressMs`);
- `AUDIO_SAMPLE_RATE` and `AUDIO_VOLUME` (the `Sound.Audio` constructor);
- whether `bleInit` created the TX characteristic (`Ble.Link.txReady`).

The repetition detector uses the fixed thresholds of config.h (0.15 m/s
to start a rep, 0.05 m/s to end and settle it, 500 ms between reps), and
calibration is a single average of fifty polls. The set-active,
sensitivity, rest and save functions that workout.h declares have no
implementation (see "Left out").

The battery conversion holds a surprise, proved in
`Battery.FourteenBitVoltage` and `Battery.VoltageJumpsAtFallbackEdge`. For
every genuine 14-bit reading the nominal conversion is at most 4399 mV. The
fallback to the raw reading is therefore taken exactly below reading 9310.
Readings from 4501 to 9309 report a full 4200 mV, and reading 9310 reports
2500 mV.

## Model

| member | source | states |
|---|---|---|
| Config.Since | workout.cpp:68 | `now - then` on a 32-bit `unsigned long`: the true distance without a wrap, the distance across the wrap with one |
| Config.Constrain | slider.cpp:22 | Arduino's `constrain`: the result lies in [low, high], is the input when the input is inside, `low` below it and `high` above it; with an empty range it is `low` below `low` and `high` otherwise |
| Config.CDiv | slider.cpp:92 | C's division truncates toward zero: it is Euclidean division for non-negative operands and mirrored for negative ones |
| Workout.Started | workout.cpp:23-28 | `workoutStart` leaves a cleared session that runs from `now`, differing from the reset state only in isRunning and startTime |
| Workout.Step | workout.cpp:36-87 | a stopped workout ignores samples. From idle a rep starts iff v > 0.15, with v as its peak. Lifting keeps the peak at the maximum and ends iff v < 0.05. Descending, an unsettled sample changes nothing and a settled one always returns to idle with peak 0. A rep is counted (count + 1, lastRepTime := now, best peak := max) iff CountsRep holds, including the strict > 500 ms debounce. The best peak never falls, and the field relations are preserved |
| Workout.Tick | workout.cpp:89-97 | `workoutUpdateTime` is a no-op when stopped. Otherwise only elapsedTime changes, to the whole seconds since the start |
| Workout.LifecycleIsConsistent | workout.cpp:23-34 | reset, start, stop and the timer all leave a consistent session |
| Workout.RunWhileStopped | workout.cpp:37 | any number of samples fed to a stopped workout change nothing |
| Workout.RunKeepsConsistent | workout.cpp:36-87 | every reachable session keeps the field relations: an idle detector has no rep peak, a rep in progress has a peak above 0.15, and the best peak is 0 exactly until the first counted rep |
| Workout.RunPeakNeverFalls | workout.cpp:73-76 | over any run, the best peak and the rep count never decrease |
| Workout.RunCountsAtMostOneRepPerThreeSamples | workout.cpp:42-85 | a rep takes a start, an end and a settling sample, so n samples from idle count at most n/3 reps |
| Workout.RunWithoutSettlingCountsNothing | workout.cpp:66-70 | without a sample with \|v\| < 0.05, no rep is counted and the best peak is unchanged |
| Workout.Tracker.constructor | workout.cpp:19-21 | `workoutInit` leaves the cleared session |
| Workout.Tracker.Reset | workout.cpp:107-121 | every field is zeroed, the workout stopped and the detector idle |
| Workout.Tracker.Start | workout.cpp:23-28 | the state becomes `Started(now)` |
| Workout.Tracker.Stop | workout.cpp:30-34 | only isRunning is cleared; counts and peaks are kept |
| Workout.Tracker.IsRunning | workout.cpp:103-105 | returns the running flag |
| Workout.Tracker.ProcessVelocity | workout.cpp:36-87 | the in-place switch leaves exactly the state `Step` computes |
| Workout.Tracker.UpdateTime | workout.cpp:89-97 | the in-place update leaves exactly the state `Tick` computes |
| Imu.SumOfSteadyPolls | imu.cpp:59-69 | when every successful poll reads g, the sum is (number of successes) copies of g |
| Imu.CalibrationOfSteadyDevice | imu.cpp:71-73 | the gravity estimate is successes × g / 50, because the divisor is always 50; with all fifty polls successful it is exactly g |
| Imu.Integrate | imu.cpp:105-118 | the next velocity is 0.98·v + (az − gravityZ)·9.81·dt, which does not depend on X or Y. It is stored as exactly 0 iff its magnitude is below 0.02, so a stored velocity is 0 or at least 0.02 in magnitude |
| Imu.CoastSettles | imu.cpp:113-118 | drift is bounded: with the Z axis reading the calibrated gravity, the velocity reaches exactly 0 within \|v\| / 0.0004 samples |
| Imu.Imu.constructor | imu.cpp:10-14 | gravity 0, not calibrated, velocity 0 |
| Imu.Imu.Calibrate | imu.cpp:53-83 | the accumulating loop stores `GravityOf(polls)` (the sum of the successful reads divided by 50), sets calibrated and zeroes the velocity |
| Imu.Imu.IsCalibrated | imu.cpp:85-87 | returns the calibration flag |
| Imu.Imu.Process | imu.cpp:89-122 | returns true iff calibrated, the read succeeded and 0 < dt ≤ 0.1. When it returns true, the stored and reported velocity are `Integrate` of the old one. Otherwise the velocity state and the caller's variable are unchanged |
| Imu.Imu.Reset | imu.cpp:124-128 | clears calibration, velocity and gravity |
| Imu.Imu.Wake | imu.cpp:137-144 | clears calibration and velocity and leaves the gravity estimate alone |
| Touch.DecodeCoordinate | touch.cpp:61-62 | the coordinate is the low nibble of the high register times 256 plus the low register, so it is below 4096 |
| Touch.Position | touch.cpp:61-62 | both decoded coordinates lie in [0, 4096) |
| Touch.Step | touch.cpp:92-143 | lastTouchState follows the poll. A touched poll reports and remembers its position, and its first poll records start time and place without an event. A held touch keeps its start time and place, and a long press fires iff it is not yet handled and down more than 2000 ms. A release emits swipe up, else swipe down, else a tap iff more than 300 ms passed since the last tap. A tap reports the last position and restarts the debounce; an untouched poll that is not a tap leaves the caller's x, y alone. A release after a long press, or an idle poll, emits nothing |
| Touch.ResetThenLiftTaps | touch.cpp:150-154 | after `touchReset`, the next untouched poll takes the release branch with the pre-reset coordinates and reports a tap there when they are no swipe and the debounce has passed |
| Touch.ResetThenHoldLongPresses | touch.cpp:150-154 | after `touchReset` with a finger down, the touch counts from time 0, so a poll after 2000 ms is a long press |
| Touch.AfterIntendedReset | touch.cpp:150-154 | the corrected `touchReset`: the touch believed down is also marked handled |
| Touch.HandledTouchStaysSilent | touch.cpp:113-120 | a touch that is down and handled emits nothing while held or when it lifts |
| Touch.IntendedResetNeverTriggers | touch.cpp:151 | after the corrected reset, holding the finger and lifting it report nothing, as the comment "prevent immediate re-trigger" intends |
| Touch.OneLongPressPerTouch | touch.cpp:113-117 | a continuous touch yields at most one long press, and none when its long press was already reported |
| Touch.HoldingNeverTaps | touch.cpp:101-117 | while the finger stays down only long presses are reported, never a tap or a swipe |
| Touch.InButton | touch.cpp:145-148 | the inclusive start/stop button rectangle is x ∈ [60, 180], y ∈ [40, 100] |
| Touch.TouchPanel.constructor | touch.cpp:19-25 | all statics zero or false |
| Touch.TouchPanel.Update | touch.cpp:92-143 | the in-place update leaves exactly `Step`'s state and event. It writes the caller's x, y exactly when `Step` reports a point |
| Touch.TouchPanel.Reset | touch.cpp:150-154 | sets lastTouchState true, longPressHandled false and touchStartTime 0, and nothing else |
| Slider.Nudge | slider.cpp:94-110 | one step keeps the value in range. Lowering moves down by at most one step and stops only at the minimum; raising is the mirror. With a positive step and room, the value strictly moves |
| Slider.Slider.constructor | display.cpp:11-12 | a zero-initialised static slider |
| Slider.Slider.Init | slider.cpp:11-26 | x = 8, width = 224, height 42, and the start value clamped into [minVal, maxVal] |
| Slider.Slider.HandleTouch | slider.cpp:83-113 | returns true iff the touch reaches the slider (widened by 8 on every side) and the value is not at the bound in the chosen direction; left of x + width/2 lowers. The value then becomes `Nudge` of the old one, and is unchanged otherwise. With a positive step, true iff the value changed (slider.h:35). The range invariant is preserved |
| Slider.Slider.GetValue | slider.cpp:115-117 | returns the stored value |
| Slider.Slider.SetValue | slider.cpp:119-121 | stores the value clamped into the range, so the invariant holds |
| Battery.AdcValue | battery.cpp:71 | (H << 6) \| (L & 0x3F) equals H·64 + L mod 64 and is below 16384 |
| Battery.Voltage | battery.cpp:77-89 | the nominal conversion when it lies in [2500, 4500]; otherwise the raw reading, raised to 3000 below 2500 and lowered to 4200 above 4500; always in [2500, 4500] |
| Battery.FourteenBitVoltage | battery.cpp:77-87 | for a 14-bit reading the nominal conversion is at most 4399 mV, so the fallback is taken exactly below 9310. Readings 4501..9309 report 4200 mV |
| Battery.VoltageJumpsAtFallbackEdge | battery.cpp:80-87 | reading 9309 reports 4200 mV and reading 9310 reports 2500 mV |
| Battery.Percent | battery.cpp:96-101 | the percent register capped at 100 |
| Battery.Charging | battery.cpp:111 | charging iff bit 5 of STATUS1 is set |
| Battery.EnableVbatAdc | battery.cpp:53-54 | bit 0 is set and bits 1..7 are kept |
| Battery.FailedReadsLookEmpty | battery.cpp:22-33 | failed transfers read 0, which reports 3000 mV, 0% and not charging |
| Battery.Monitor.Init | battery.cpp:43-59 | fails without the chip. Otherwise it writes ADC_ENABLE back with bit 0 set and becomes initialised |
| Battery.Monitor.GetVoltage | battery.cpp:61-90 | 0 before initialisation, `Voltage` of the reading afterwards, which lies in [2500, 4500] |
| Battery.Monitor.GetPercent | battery.cpp:92-102 | 50 before initialisation, the capped register afterwards; always in [0, 100] |
| Battery.Monitor.IsCharging | battery.cpp:104-112 | true iff initialised and bit 5 of STATUS1 is set |
| Power.Woken | power.cpp:105-129 | the statics that `powerEnterLightSleep` leaves: wake flag set, button taken as released and unhandled |
| Power.PollAsWritten | power.cpp:32-62 | `powerUpdate` as written: it sleeps exactly when the corrected poll does, and its state differs only in the level that line 60 stores after a sleep |
| Power.Poll | power.cpp:32-62 | corrected (see Findings): sleeps iff the button is LOW, the press is not handled and it has been down at least the long-press time (inclusive). A release changes only the stored level. A HIGH→LOW edge records the start and clears handled. A held press that is not yet due changes nothing. An unhandled state stays unhandled. A sleep leaves the button released, unhandled and the wake flag set |
| Power.NoSleepRightAfterWaking | power.cpp:127-128 | with the wake's reset kept, the poll right after a sleep never sleeps, whatever it reads |
| Power.AsWrittenResleepsAfterWaking | power.cpp:60 | as written, a LOW read right after a sleep re-enters sleep as soon as the stale press start lies far enough back |
| Power.AsWrittenCounterexample | power.cpp:32-62 | from boot, LOW at 0, 2000 and 5000 ms with a 2000 ms threshold: as written the third poll sleeps again; corrected it starts a fresh press at 5000 ms |
| Power.AtMostEveryOtherPollSleeps | power.cpp:43-49 | corrected: no two polls in a row sleep, so at most about half of any poll sequence sleeps |
| Power.HandledNeverSet | power.cpp:39-47 | as written and corrected, no state reached from boot has longPressHandled set, so the test at line 43 never fails |
| Power.FirstSleepEndsAHold | power.cpp:36-49 | corrected: the first sleep of a run ends either the press under way when it began, or a LOW stretch that began with a HIGH→LOW edge and lasted the long-press time |
| Power.EverySleepNeedsAFreshPress | power.cpp:36-49 | corrected: from boot or after a sleep, a poll sleeps only at the end of a new press, a HIGH→LOW edge followed by LOW polls for at least the long-press time |
| Power.SleepButton.constructor | power.cpp:11-16 | the boot state: released, press start 0, unhandled, not woken |
| Power.SleepButton.Init | power.cpp:18-30 | sets the wake flag when the GPIO caused the wake-up |
| Power.SleepButton.Update | power.cpp:32-62 | the in-place poll leaves exactly the state and sleep decision of the corrected `Poll` |
| Power.SleepButton.EnterLightSleep | power.cpp:105-129 | leaves `Woken` of the old statics |
| Power.SleepButton.JustWoke | power.cpp:134-136 | returns the wake flag |
| Power.SleepButton.ClearWokeFlag | power.cpp:138-140 | clears the wake flag |
| Display.ToUint8 | display.cpp:353 | the value passed as `uint8_t` lies in [0, 256) and is unchanged when it fits |
| Display.BatteryIconFor | display.cpp:260-303 | percent is clamped to [0, 100]. The fill is 20·p div 100, so it lies in [0, 20]; it is 0 iff p < 5 (not drawn) and 20 iff p = 100. The colour is green above 60, red below 20 and yellow otherwise |
| Display.BatteryIconMonotone | display.cpp:272-300 | a fuller battery never shows a shorter fill or a more alarming colour |
| Display.ShownCount | display.cpp:212 | reps and seconds are printed clamped to [0, 999] |
| Display.FaceFor | display.cpp:148-168 | STOP on red with white text while running, START on green with black text otherwise; the caption is centred on the button in both directions and fits inside it |
| Display.BackButtonBounds | display.cpp:345-348 | the back button is the inclusive rectangle x ∈ [10, 70], y ∈ [10, 40] |
| Display.Display.constructor | display.cpp:10 | the panel starts on; the sliders are distinct and zero |
| Display.Display.Sleep | display.cpp:77-90 | a panel that is on gets backlight 0, DISPOFF, SLPIN and is off; an off panel gets nothing. So sleeping twice sends the commands once |
| Display.Display.Wake | display.cpp:92-110 | the mirror: SLPOUT, DISPON, backlight 255 only when off; afterwards on |
| Display.Display.IsOn | display.cpp:112-114 | returns the flag |
| Display.Display.ShowSettings | display.cpp:319-343 | brightness slider at y 60 over [25, 255] step 5 starting at 255, sensitivity at y 140 over [25, 100] step 25 starting at 75; both valid, and the back button lies outside both sliders' reach |
| Display.Display.SettingsHandleTouch | display.cpp:350-364 | the brightness slider sees the touch first and, when it changes, the backlight is set to its value; only otherwise the sensitivity slider is tried and its value handed on; true iff one of them changed |
| Ble.CStr | ble.cpp:132 | `strlen` sees the prefix before the first NUL, and all of a NUL-free string |
| Ble.Chunks | ble.cpp:133-145 | every piece is 1 to 20 bytes, all but the last exactly 20, ceil(len/20) pieces, none for the empty string |
| Ble.ChunksReassemble | ble.cpp:136-145 | the pieces concatenate to the data |
| Ble.FramesDeliver | ble.cpp:129-148 | any sequence of NUL-free sends reaches a concatenating client intact and in order |
| Ble.Terminated | ble.cpp:169-171 | each line is sent followed by a newline |
| Ble.NewlineIndex | ble.cpp:169-171 | the client's line end: the first newline, or the end of the text |
| Ble.SplitTerminated | ble.cpp:167-173 | the framing round trip: splitting the received log text at newlines gives back exactly the file's lines, when no line holds a newline |
| Ble.LogStream | ble.cpp:154-177 | a log transfer delivers BEGIN_LOG, each line with its newline, and END_LOG |
| Ble.OnlyKnownCommandsAnswered | ble.cpp:30-38 | only SYNC and PING are answered, and PING with exactly PONG and a newline |
| Ble.Link.constructor | ble.cpp:9-11 | all flags false, nothing notified |
| Ble.Link.OnConnect | ble.cpp:15-18 | connected |
| Ble.Link.OnDisconnect | ble.cpp:20-23 | disconnected |
| Ble.Link.Start | ble.cpp:96-109 | advertises only when inactive; afterwards active |
| Ble.Link.Stop | ble.cpp:111-119 | a no-op when inactive; otherwise clears active and connected |
| Ble.Link.IsActive | ble.cpp:121-123 | returns the active flag |
| Ble.Link.IsConnected | ble.cpp:125-127 | returns the connected flag |
| Ble.Link.Send | ble.cpp:129-148 | returns 0 and notifies nothing when disconnected or without TX; otherwise the loop notifies exactly `Chunks` of the string and returns its length |
| Ble.Link.SendLines | ble.cpp:169-171 | each line is sent with its newline, in order |
| Ble.Link.SendWorkoutLog | ble.cpp:154-177 | false and nothing sent when disconnected; NO_DATA and false without a file; otherwise BEGIN_LOG, the lines, END_LOG and the read's result |
| Ble.Link.OnWrite | ble.cpp:27-40 | notifies exactly the frames of the command's response |
| Ble.Link.Update | ble.cpp:179-187 | restarts advertising iff the client was connected, is gone and BLE is active; always records the connection state |
| Sound.ClampVolume | sound.cpp:19-34 | at most 30 mutes, above 100 caps at 100, otherwise kept; so the volume is 0 or in (30, 100] |
| Sound.ClampVolumeIdempotent | sound.cpp:10-21 | setting again a volume that `setVolume` stored changes nothing; the volumes left unchanged are exactly 0 and 31..100, so an initial AUDIO_VOLUME outside them changes on `setVolume(getVolume())` |
| Sound.Samples | sound.cpp:57 | rate·ms div 1000 stored in 32 bits, exact when it fits |
| Sound.Pieces | sound.cpp:57-67 | the buffers are 1 to 256 samples, all but the last full, ceil(total/256) of them |
| Sound.PiecesSum | sound.cpp:87-111 | the buffers carry exactly the samples asked for |
| Sound.SoundLengths | sound.cpp:141-169 | each of the four sounds streams exactly its tones and pauses, in samples |
| Sound.Audio.constructor | sound.cpp:10 | the volume starts at AUDIO_VOLUME unclamped; nothing written |
| Sound.Audio.GetVolume | sound.cpp:15-17 | returns the stored volume |
| Sound.Audio.SetVolume | sound.cpp:19-34 | stores `ClampVolume` of the input; the amplifier is enabled iff the volume is not 0 |
| Sound.Audio.WriteSilenceMs | sound.cpp:56-68 | the loop writes exactly `Pieces` of the sample count |
| Sound.Audio.PlayToneHz | sound.cpp:71-112 | nothing when muted or when the count is 0; otherwise the loop writes exactly `Pieces` of the count |
| Sound.Audio.BellHit | sound.cpp:115-123 | the tone and its harmonic, each of the full length, nothing when muted |
| Sound.Audio.PlayPowerOnSound | sound.cpp:141-146 | nothing when muted, otherwise two bells around a 40 ms pause |
| Sound.Audio.PlayPowerOffSound | sound.cpp:148-153 | nothing when muted, otherwise two bells around a 40 ms pause |
| Sound.Audio.PlayStartWorkoutSound | sound.cpp:155-161 | nothing when muted, otherwise two tones around a 25 ms pause |
| Sound.Audio.PlayStopWorkoutSound | sound.cpp:163-169 | nothing when muted, otherwise two tones around a 30 ms pause |

## Left out

- Hardware bring-up is left out because it only configures drivers: `imuInit`, `touchInit`, `displayInit`, `audioInit` with the ES8311 setup, `bleInit` and the NimBLE objects. Register reads, sensor polls and the button level are inputs instead.
- Rendering is left out because it has no decision of its own: every gfx fill, draw and print, `displaySplashScreen`, `sliderDraw` and `sliderUpdateValue`. `displayError` is out because its text-fitting loop depends on the graphics library's `getTextBounds`.
- The mechanics of `powerEnterLightSleep` are left out because they are GPIO busy-waits, `esp_light_sleep_start` and the re-initialisation of other components. Sleeping is one event that leaves the statics `Power.Woken` describes.
- Tone synthesis is left out because it is floating-point audio: the sine phase accumulator, the attack and release envelope, and the frequency and amplitude arguments. Only the sample counts are modelled. `setVolume`'s write to the codec is out because it is a driver call.
- IEEE float rounding is left out because velocities, accelerations and gravity are `real`.
- storage.cpp and rtc.cpp are not part of this model because they wrap LittleFS and the RTC driver. The log file's existence and lines are inputs.
- BLE concurrency is left out because callbacks run on the NimBLE host task. Connect, disconnect and writes are sequential events here. The 10 ms and 500 ms delays and all `Serial` output are left out.
- workout.h:13 and workout.h:22-45 are left out because they declare functions with no implementation in the source: set-active, sensitivity, rest time and save. `workoutSetSensitivity`, called at display.cpp:359, is represented only by the value `Display.Display.SettingsHandleTouch` hands to it. `workoutGetData` is a read of the fields `Workout.Tracker` exposes.
- Slider.Slider.HandleTouch: the `int16_t` fields are unbounded integers, so a value that overflows 16 bits when a step is added is not modelled.
- Workout.Step: repCount and elapsedTime are unbounded, so wrap-around of their C types is not modelled. The clock's own 32-bit wrap is modelled by `Config.Since`.
- Sound.Samples: the product rate·ms is computed in 64 bits and the result kept in 32, so only the 32-bit truncation is modelled.
- Imu.Imu.Calibrate: the poll pattern (`getDataReady`, then the read) collapses into one `Option` per poll. The 10 ms delay is left out.
- Power.SleepButton.Update: it returns right after the sleep, following the intent at power.cpp:127. The as-written statics are `Power.PollAsWritten` (see Findings).
- Power.Poll: it models power.cpp with line 60 corrected, so its sleep branch leaves the wake's HIGH in place; the source as written stores LOW there (`Power.PollAsWritten`).
- Power.AtMostEveryOtherPollSleeps: it holds for the corrected poll only. As written, a LOW poll right after a sleep can sleep again (`Power.AsWrittenResleepsAfterWaking`).
- Power.FirstSleepEndsAHold: it is proved for the corrected poll only.
- Power.EverySleepNeedsAFreshPress: it is proved for the corrected poll only. As written, the first LOW after a sleep is not an edge and is measured from the old press's start.
- The mapping of `Display.Display.SettingsHandleTouch`'s brightness value to `uint8_t` never wraps in practice, because the slider's range is [25, 255].

## Findings

| source | as written | input that shows it | evidently intended | confidence | as-written member | corrected member |
|---|---|---|---|---|---|---|
| power.cpp:60 | after `powerEnterLightSleep` returns, `lastButtonState = currentState` stores the LOW read before sleeping, over the HIGH written at power.cpp:128 "to prevent retriggering"; buttonPressStart keeps the old press's time | with BUTTON_LONG_PRESS_MS = 2000: LOW at 0 ms, LOW at 2000 ms (sleeps), the wake-up press is released before `powerEnterLightSleep` returns (lines 107-110), and a new press begun during the restore (lines 113-125) reads LOW at the next poll at 5000 ms: that poll sees no edge, finds the stale start 5000 ms back and sleeps again at once | the button counts as released after a wake, so a LOW is a new press measured from its own start | medium, not executed | Power.AsWrittenCounterexample | Power.NoSleepRightAfterWaking |
| power.cpp:43-45 | longPressHandled is set at line 45 only right before `powerEnterLightSleep`, which clears it at line 129 before `powerUpdate` goes on, so `!longPressHandled` at line 43 always holds and the flag never blocks a sleep | any sequence of polls from boot: the flag is false in every state reached | each press sleeps at most once; this rests on the release waits (lines 90-92, 107-110) and the reset of lastButtonState at line 128, so every sleep needs a new HIGH→LOW edge and a full hold | high, not executed | Power.HandledNeverSet | Power.EverySleepNeedsAFreshPress |
| touch.cpp:150-154 | `touchReset` sets lastTouchState true and longPressHandled false, so the next untouched poll takes the release branch and reports a tap at the old coordinates, and a held finger counts from time 0; no file of this model calls it | after a reset, lift the finger more than 300 ms after the last tap, away from the swipe zones: a tap is reported | "prevent immediate re-trigger after wake": the touch believed down is also marked handled, so neither lifting nor holding reports anything | low, not executed | Touch.ResetThenLiftTaps | Touch.IntendedResetNeverTriggers |
