/**
 `RcEsc` of the binary crate: the older single-pin wrapper. It stores a stop
 duty instead of a disarm duty, keeps the calibration delay as a field, and
 has no clamp at all: every operation writes a stored duty to the pin as is.
 */
module RcEsc {
  import Pwm
  import Esc

  datatype RcEsc<P> = RcEsc(
    pwm: Pwm.Output<(), P>,
    armDuty: int,
    stopDuty: int,
    minDuty: int,
    maxDuty: int,
    calibrationMs: int)

  /** `r` is `e` with exactly `suffix` appended to the pin's trace: the five
      stored fields and everything else about the pin are as before. This is
      `Esc.Appends` with the calibration delay added, which `AsEsc` drops. */
  predicate Appends<P(==)>(e: RcEsc<P>, r: RcEsc<P>, suffix: seq<Pwm.Event<(), P>>) {
    r == e.(pwm := e.pwm.(events := e.pwm.events + suffix))
  }

  /** `RcEsc::new`: takes the pin as it is and defaults all five fields. */
  function New<P>(pwm: Pwm.Output<(), P>): (e: RcEsc<P>)
    ensures e.pwm == pwm
    ensures e.armDuty == 0 && e.stopDuty == 0
    ensures e.minDuty == 0 && e.maxDuty == 0
    ensures e.calibrationMs == 0
  {
    RcEsc(pwm, 0, 0, 0, 0, 0)
  }

  /** The pin's own `set_duty`. */
  function WritePin<P(==)>(e: RcEsc<P>, d: int): (r: RcEsc<P>)
    ensures Appends(e, r, [Pwm.Write((), d)])
  {
    e.(pwm := e.pwm.Emit(Pwm.Write((), d)))
  }

  /** `delay.delay_ms(calibration_ms)`. */
  function DelayCalibration<P(==)>(e: RcEsc<P>): (r: RcEsc<P>)
    ensures Appends(e, r, [Pwm.Delay(e.calibrationMs)])
  {
    e.(pwm := e.pwm.Emit(Pwm.Delay(e.calibrationMs)))
  }

  function Arm<P(==)>(e: RcEsc<P>): (r: RcEsc<P>)
    ensures Appends(e, r, [Pwm.Write((), e.armDuty)])
  {
    WritePin(e, e.armDuty)
  }

  function Stop<P(==)>(e: RcEsc<P>): (r: RcEsc<P>)
    ensures Appends(e, r, [Pwm.Write((), e.stopDuty)])
  {
    WritePin(e, e.stopDuty)
  }

  function SetMaxDuty<P(==)>(e: RcEsc<P>): (r: RcEsc<P>)
    ensures Appends(e, r, [Pwm.Write((), e.maxDuty)])
  {
    WritePin(e, e.maxDuty)
  }

  function SetMinDuty<P(==)>(e: RcEsc<P>): (r: RcEsc<P>)
    ensures Appends(e, r, [Pwm.Write((), e.minDuty)])
  {
    WritePin(e, e.minDuty)
  }

  /** `calibrate`: maximum, wait the stored delay, minimum, wait it again. */
  function Calibrate<P(==)>(e: RcEsc<P>): (r: RcEsc<P>)
    ensures Appends(e, r, [Pwm.Write((), e.maxDuty), Pwm.Delay(e.calibrationMs),
                           Pwm.Write((), e.minDuty), Pwm.Delay(e.calibrationMs)])
  {
    DelayCalibration(SetMinDuty(DelayCalibration(SetMaxDuty(e))))
  }

  /** The library wrapper holding the same duties, the stop duty as its
      disarm duty. */
  function AsEsc<P>(e: RcEsc<P>): (r: Esc.Esc<(), P>) {
    Esc.Esc(e.pwm, e.armDuty, e.stopDuty, e.minDuty, e.maxDuty)
  }

  /** The duty the pin reports: what the library wrapper's `get_duty` reads. */
  function PinDuty<P>(e: RcEsc<P>): (d: int) {
    Esc.GetPinDuty(AsEsc(e))
  }

  /** The presets and calibration of the two wrappers make the same requests
      of the pin; `RcEsc::calibrate` is the library's `calibrate` with the
      stored delay. */
  lemma AgreesWithEsc<P>(e: RcEsc<P>)
    ensures Arm(e).pwm == Esc.Arm(AsEsc(e)).pwm
    ensures Stop(e).pwm == Esc.Disarm(AsEsc(e)).pwm
    ensures SetMaxDuty(e).pwm == Esc.SetMaxDuty(AsEsc(e)).pwm
    ensures SetMinDuty(e).pwm == Esc.SetMinDuty(AsEsc(e)).pwm
    ensures Calibrate(e).pwm == Esc.Calibrate(AsEsc(e), e.calibrationMs).pwm
  {
  }

  /** Writing the maximum twice leaves the pin reporting what writing it once
      does: the maximum. */
  lemma SetMaxDutyTwice<P>(e: RcEsc<P>)
    ensures PinDuty(SetMaxDuty(SetMaxDuty(e))) == PinDuty(SetMaxDuty(e))
    ensures PinDuty(SetMaxDuty(e)) == e.maxDuty
  {
    Pwm.LastDutyAppendOne(e.pwm.events, Pwm.Write((), e.maxDuty), (), e.pwm.initialDuty);
    Pwm.LastDutyAppendOne(SetMaxDuty(e).pwm.events, Pwm.Write((), e.maxDuty), (), e.pwm.initialDuty);
  }

  /** After `calibrate` the pin reports the minimum duty. */
  lemma CalibrateEndsAtMinDuty<P>(e: RcEsc<P>)
    ensures PinDuty(Calibrate(e)) == e.minDuty
  {
    AgreesWithEsc(e);
    Esc.CalibrateEndsAtMinDuty(AsEsc(e), e.calibrationMs);
  }

  /** Arming and stopping make the pin report the stored duty even when it
      lies outside [min_duty, max_duty]: nothing is clamped. */
  lemma PresetsObserved<P>(e: RcEsc<P>)
    ensures PinDuty(Arm(e)) == e.armDuty
    ensures PinDuty(Stop(e)) == e.stopDuty
  {
    Pwm.LastDutyAppendOne(e.pwm.events, Pwm.Write((), e.armDuty), (), e.pwm.initialDuty);
    Pwm.LastDutyAppendOne(e.pwm.events, Pwm.Write((), e.stopDuty), (), e.pwm.initialDuty);
  }

  /** The configuration the binary sets up (bounds [1000, 2000], arm and stop
      duty 500, 8000 ms), then `calibrate` and `arm`: the pin sees 2000, a
      wait, 1000, a wait, then 500, and ends up reporting 500. */
  lemma CalibrateThenArmExample<P>(pwm: Pwm.Output<(), P>)
    ensures var e := New(pwm).(minDuty := 1000, maxDuty := 2000, armDuty := 500,
                               calibrationMs := 8000, stopDuty := 500);
      && Arm(Calibrate(e)).pwm.events
         == pwm.events + [Pwm.Write((), 2000), Pwm.Delay(8000), Pwm.Write((), 1000),
                          Pwm.Delay(8000), Pwm.Write((), 500)]
      && PinDuty(Arm(Calibrate(e))) == 500
  {
    var e := New(pwm).(minDuty := 1000, maxDuty := 2000, armDuty := 500,
                       calibrationMs := 8000, stopDuty := 500);
    PresetsObserved(Calibrate(e));
  }
}
