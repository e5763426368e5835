# rcesc — a Dafny model of the duty-clamping ESC wrapper

The `rcesc` crate wraps a PWM output that drives an RC electronic speed
controller (ESC). The library type `Esc` (src/lib.rs) owns the output and
four public duties: `arm_duty`, `disarm_duty`, `min_duty` and `max_duty`.
It offers two kinds of operations:

- presets that write one stored duty (`arm`, `disarm`, `set_max_duty`,
  `set_min_duty`, each with a channel form);
- `calibrate` and `calibrate_channels`, which write the maximum, wait,
  write the minimum and wait again.

`Esc` also implements the `Pwm` and `PwmPin` traits itself. Those
implementations forward everything to the wrapped output, except that
`set_duty` clamps its duty to `[min_duty, max_duty]` first. The binary
(src/main.rs) holds an older single-pin variant, `RcEsc`. It stores a stop
duty and the calibration delay, and it does not clamp anything.

The model has four modules:

- `Pwm` (pwm.dfy) models the wrapped output and the caller's delay provider.
  They appear as one append-only trace of events: `Write(channel, duty)`,
  `Delay(ms)`, `Enable(channel)`, `Disable(channel)` and `SetPeriod(period)`.
  The duty the output reports on a channel is the last duty written to it, or
  the output's initial duty. The reported period works the same way.
- `Duty` (duty.dfy) holds the clamp `duty.min(max_duty).max(min_duty)` on
  integers, with Rust's `Ord::min` and `Ord::max`.
- `Esc` (esc.dfy) models the library wrapper. Each operation is a pure
  function from the wrapper before the call to the wrapper after it. The only
  part that ever changes is the output's trace; the predicate `Appends` states
  exactly which events were added. The single-pin (`PwmPin`) forms use the
  unit channel `()`. `calibrate_channels` is a method with the source's two
  loops. It is checked against a separate definition of the expected trace,
  `CalibrationEvents`.
- `RcEsc` (rc_esc.dfy) models the binary's wrapper. It is also related to the
  library wrapper: both make the same requests of the pin.

**Presets are not clamped.** The clamp applies only on the two `set_duty`
paths (src/lib.rs:162-167, src/lib.rs:200-203). The presets call `set_duty`
on the inner output (src/lib.rs:34, src/lib.rs:69 and the others), so they
write their stored duty as it is. `Esc.ArmBelowRangeIsNotClamped` shows the
effect: with bounds [1000, 2000] and an arm duty of 500, `arm` writes 500,
whereas `set_duty(500)` would write 1000. The binary's own `RcEsc` has no
clamp at all and arms at 500, below its [1000, 2000] bounds
(src/main.rs:82-91); example/src/main.rs:32-36 gives the library `Esc` the
same bounds and arm duty but only calibrates.
`Esc.ArmChannelAgreesWithSetDutyIff` and `Esc.ArmAgreesWithSetPinDutyIff`
state exactly when the two agree. `Esc.ExtremePresetsVersusClamp` shows that
the maximum and minimum presets agree with the clamp whenever the bounds are
ordered, and that with inverted bounds the maximum preset does not. Nothing
checks that `disarm_duty`/`stop_duty` were set before use; an unset one is 0
and is written as 0.

## Model

| member | source | states |
|---|---|---|
| `Esc.New` | src/lib.rs:15-26 | the wrapped output is kept as given (no event is emitted); arm, disarm, min and max duty all start at 0 |
| `Esc.NewClampsEverythingToZero` | src/lib.rs:15-26 | a freshly built wrapper has bounds [0, 0], so its `set_duty` writes 0 whatever duty it is given |
| `Esc.Arm` | src/lib.rs:29-35 | single pin: exactly one write of `arm_duty`, unclamped, and no stored duty changes |
| `Esc.ArmChannel` | src/lib.rs:38-44 | exactly one write of `arm_duty` to the given channel, unclamped, and no stored duty changes |
| `Esc.Disarm` | src/lib.rs:47-53 | single pin: exactly one write of `disarm_duty`, unclamped, and no stored duty changes |
| `Esc.DisarmChannel` | src/lib.rs:56-62 | exactly one write of `disarm_duty` to the given channel, unclamped, and no stored duty changes |
| `Esc.SetMaxDuty` | src/lib.rs:64-70 | single pin: exactly one write of `max_duty`, and no stored duty changes |
| `Esc.SetChannelMaxDuty` | src/lib.rs:72-78 | exactly one write of `max_duty` to the given channel, and no stored duty changes |
| `Esc.SetMinDuty` | src/lib.rs:80-86 | single pin: exactly one write of `min_duty`, and no stored duty changes |
| `Esc.SetChannelMinDuty` | src/lib.rs:88-94 | exactly one write of `min_duty` to the given channel, and no stored duty changes |
| `Esc.ArmBelowRangeIsNotClamped` | src/lib.rs:29-35 | with bounds [1000, 2000] and arm duty 500, `arm` appends a write of 500 and the pin reports 500; `set_duty(500)` would leave it reporting 1000 |
| `Esc.ArmChannelAgreesWithSetDutyIff` | src/lib.rs:38-44 | with ordered bounds, `arm_channel` has the same effect as `set_duty` of the arm duty if and only if the arm duty lies within the bounds |
| `Esc.ArmAgreesWithSetPinDutyIff` | src/lib.rs:29-35 | with ordered bounds, `arm` on the pin has the same effect as `PwmPin::set_duty` of the arm duty if and only if the arm duty lies within the bounds |
| `Esc.PinFormsAreChannelForms` | src/lib.rs:29-203 | every single-pin operation (presets, calibrate, enable, disable, set_duty and the reads) has the same effect as its channel form applied to the one channel, so the channel lemmas cover the pin forms |
| `Esc.DisarmChannelAgreesWithSetDutyIff` | src/lib.rs:56-62 | with ordered bounds, `disarm_channel` has the same effect as `set_duty` of the disarm duty if and only if the disarm duty lies within the bounds |
| `Esc.ExtremePresetsVersusClamp` | src/lib.rs:72-94 | with ordered bounds, the max and min presets have the same effect as `set_duty` of the bound; with inverted bounds the max preset does not |
| `Esc.SetMaxDutyTwice` | src/lib.rs:72-78 | writing the maximum twice leaves the channel reporting the same duty as writing it once, namely `max_duty` |
| `Esc.Calibrate` | src/lib.rs:96-107 | appends exactly write(max), delay(ms), write(min), delay(ms), in that order with equal delays, and nothing else changes |
| `Esc.CalibrateExample` | src/lib.rs:96-107 | with bounds [1000, 2000], calibration writes 2000, waits, writes 1000, waits the same time |
| `Esc.CalibrateEndsAtMinDuty` | src/lib.rs:96-107 | after `calibrate` the pin reports `min_duty` |
| `Esc.CalibrateIsOneChannelCalibration` | src/lib.rs:96-128 | single-pin calibration appends the same events as multi-channel calibration of the one channel |
| `Esc.WriteAll` | src/lib.rs:119-121 | one write of the duty per channel, in slice order, and nothing more |
| `Esc.CalibrateChannels` | src/lib.rs:109-128 | appends the max-duty write for each channel in order, one delay, the min-duty write for each channel in order, one delay: 2·n + 2 events, only the two delays for an empty slice; afterwards every listed channel reports `min_duty` and every other channel reports what it did before |
| `Esc.CalibrationEventsLayout` | src/lib.rs:109-128 | the calibration events are n max-duty writes in channel order, a delay, n min-duty writes in channel order, then a delay of the same length: 2·n + 2 events |
| `Esc.CalibrationObserved` | src/lib.rs:109-128 | after the calibration events the listed channels report the minimum and unlisted channels keep their reported duty |
| `Esc.Disable` | src/lib.rs:142-144 | `Pwm::disable` forwards the channel unchanged as the only new event |
| `Esc.Enable` | src/lib.rs:146-148 | `Pwm::enable` forwards the channel unchanged as the only new event |
| `Esc.GetPeriod` | src/lib.rs:150-152 | returns the period the wrapped output reports, unmodified |
| `Esc.GetDuty` | src/lib.rs:154-156 | returns the duty the wrapped output reports for the channel, unmodified and unclamped |
| `Esc.GetMaxDuty` | src/lib.rs:158-160 | returns the wrapped output's maximum duty, unmodified |
| `Esc.ReadsIgnoreStoredDuties` | src/lib.rs:150-160 | the getters give the same answers whatever the four stored duties are |
| `Esc.SetDuty` | src/lib.rs:162-167 | `Pwm::set_duty` appends exactly one write, to the given channel, of `max(min(d, max_duty), min_duty)`; the written duty is at least `min_duty`, at most `max_duty` when the bounds are ordered, equal to `d` when `d` is in range, and equal to `min_duty` when the bounds are inverted |
| `Esc.SetDutyObserved` | src/lib.rs:162-167 | after `set_duty` the channel reports the clamped duty, which lies within ordered bounds, and every other channel is unaffected |
| `Esc.WriteObserved` | src/lib.rs:34 | a write to the wrapped output makes the channel report that duty and leaves other channels' reports unchanged |
| `Esc.SetPeriod` | src/lib.rs:169-174 | `set_period` forwards the period unchanged as the only new event |
| `Esc.PassThroughObserved` | src/lib.rs:142-174 | enable, disable and set_period change no reported duty; enable leaves the period as it was; after `set_period(p)` the output reports `p` |
| `Esc.DisablePin` | src/lib.rs:184-186 | `PwmPin::disable` is the only new event |
| `Esc.EnablePin` | src/lib.rs:188-190 | `PwmPin::enable` is the only new event |
| `Esc.GetPinDuty` | src/lib.rs:192-194 | returns the duty the pin reports, unmodified |
| `Esc.GetPinMaxDuty` | src/lib.rs:196-198 | returns the pin's maximum duty, unmodified |
| `Esc.SetPinDuty` | src/lib.rs:200-203 | `PwmPin::set_duty` appends exactly one write of the clamped duty, which is at least `min_duty`, within ordered bounds, `d` itself when in range, and `min_duty` when the bounds are inverted |
| `Esc.SetPinDutyObserved` | src/lib.rs:200-203 | after `set_duty` the pin reports the clamped duty, inside ordered bounds |
| `Duty.Clamp` | src/lib.rs:162-167 | the clamp is never below the lower bound; with ordered bounds it is never above the upper bound; it is the value itself when in range, the lower bound below the range, the upper bound above it, and the lower bound whenever the bounds are inverted |
| `Duty.ClampIdempotent` | src/lib.rs:200-203 | clamping an already clamped duty returns it unchanged, even with inverted bounds |
| `Duty.ClampMonotone` | src/lib.rs:162-167 | clamping preserves the order of duties |
| `Duty.ClampFixedIff` | src/lib.rs:162-167 | a duty passes the clamp unchanged if and only if it lies in range, or equals the lower bound when the bounds are inverted |
| `Duty.ClampIsNearest` | src/lib.rs:162-167 | with ordered bounds the clamped duty is the point of the range nearest to the requested duty |
| `RcEsc.New` | src/main.rs:26-38 | the pin is kept as given; arm, stop, min and max duty and the calibration delay all start at 0 |
| `RcEsc.Arm` | src/main.rs:40-42 | exactly one write of `arm_duty`, unclamped, and none of the five fields changes |
| `RcEsc.Stop` | src/main.rs:44-46 | exactly one write of `stop_duty`, unclamped, and none of the five fields changes |
| `RcEsc.SetMaxDuty` | src/main.rs:48-50 | exactly one write of `max_duty`, and none of the five fields changes |
| `RcEsc.SetMinDuty` | src/main.rs:52-54 | exactly one write of `min_duty`, and none of the five fields changes |
| `RcEsc.Calibrate` | src/main.rs:56-62 | appends exactly write(max), delay(calibration_ms), write(min), delay(calibration_ms), both delays taken from the stored field |
| `RcEsc.PresetsObserved` | src/main.rs:40-46 | after `arm` or `stop` the pin reports the stored duty itself, in range or not |
| `RcEsc.SetMaxDutyTwice` | src/main.rs:48-50 | calling `set_max_duty` twice leaves the pin reporting the same duty as calling it once, namely `max_duty` |
| `RcEsc.CalibrateEndsAtMinDuty` | src/main.rs:56-62 | after `calibrate` the pin reports `min_duty` |
| `RcEsc.AgreesWithEsc` | src/main.rs:40-62 | arm, stop, set_max_duty, set_min_duty and calibrate make the same requests of the pin as the library's arm, disarm, set_max_duty, set_min_duty and calibrate with the stored delay |
| `RcEsc.CalibrateThenArmExample` | src/main.rs:40-62 | with bounds [1000, 2000], arm and stop duty 500 and an 8000 ms delay, calibrating then arming makes the pin see 2000, a wait, 1000, a wait, then 500, and it ends up reporting 500 |

## Left out

- The `main` entry points (src/main.rs:65-94 and example/src/main.rs). They only bring up the STM32 clocks, GPIO and timers, and have no logic of their own.
- The embedded_hal traits and the stm32f1xx_hal implementations are foreign code. They appear only as trace events. The model assumes what they report back: the last duty written to a channel (else one initial duty shared by all channels), the last period set (else an initial period), and a fixed maximum duty.
- Blocking time is not modelled. A `delay_ms` call is recorded as a `Delay` event in the same trace as the PWM writes, so the order of writes and waits is observable.
- The `Time` type is an opaque type parameter. The `Into<Time>` conversion in `set_period` is not modelled: the period arrives already converted.
- The generic `Duty` type and the delay type `M` are unbounded integers. The hardware duty width (for example 16 bits) plays no part in the clamp or the presets, so no wrap-around is modelled.
- Rust's generic trait machinery is not modelled: duties are integers, `Clone` is the identity and `Default` is 0. Only `Ord::min` and `Ord::max` on integers are modelled, in `Duty`.
- Direct assignment to the public fields (`esc.min_duty = 1000`) is a record update of the Dafny datatype. It needs no operation of its own.
