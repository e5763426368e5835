/**
 The `Esc` wrapper of the library crate: an owned PWM output plus four
 stored duties. Its `Pwm` and `PwmPin` implementations clamp every duty
 passed to `set_duty`; its own preset operations (`arm`, `disarm`,
 `set_max_duty`, `set_min_duty` and their channel forms) write the stored
 duty straight to the wrapped output, without the clamp.

 Every operation is a pure function from the controller to the controller
 after the call; the only thing any of them changes is the wrapped output's
 event trace. The single-pin forms use the unit channel `()`.
 */
module Esc {
  import Pwm
  import opened Duty

  datatype Esc<C, P> = Esc(
    pwm: Pwm.Output<C, P>,
    armDuty: int,
    disarmDuty: int,
    minDuty: int,
    maxDuty: int)

  /** `r` is `e` with exactly `suffix` appended to the output's trace: the
      stored duties and everything else about the output are as before. */
  predicate Appends<C(==), P(==)>(e: Esc<C, P>, r: Esc<C, P>, suffix: seq<Pwm.Event<C, P>>) {
    r == e.(pwm := e.pwm.(events := e.pwm.events + suffix))
  }

  /** The most recent event of the output's trace. */
  function LastEvent<C, P>(e: Esc<C, P>): (ev: Pwm.Event<C, P>)
    requires |e.pwm.events| > 0
  {
    e.pwm.events[|e.pwm.events| - 1]
  }

  // ---------------------------------------------------------------------
  // Construction

  /** `Esc::new`: takes the output as it is and defaults all four duties. */
  function New<C, P>(pwm: Pwm.Output<C, P>): (e: Esc<C, P>)
    ensures e.pwm == pwm
    ensures e.armDuty == 0 && e.disarmDuty == 0
    ensures e.minDuty == 0 && e.maxDuty == 0
  {
    Esc(pwm, 0, 0, 0, 0)
  }

  // ---------------------------------------------------------------------
  // Requests made of the wrapped output and of the delay provider

  /** The wrapped output's own `set_duty`: no clamp. */
  function WriteInner<C(==), P(==)>(e: Esc<C, P>, ch: C, d: int): (r: Esc<C, P>)
    ensures Appends(e, r, [Pwm.Write(ch, d)])
  {
    e.(pwm := e.pwm.Emit(Pwm.Write(ch, d)))
  }

  /** `delay.delay_ms(ms)` on the caller's delay provider. */
  function DelayFor<C(==), P(==)>(e: Esc<C, P>, ms: int): (r: Esc<C, P>)
    ensures Appends(e, r, [Pwm.Delay(ms)])
  {
    e.(pwm := e.pwm.Emit(Pwm.Delay(ms)))
  }

  // ---------------------------------------------------------------------
  // Presets (inherent methods): one unclamped write of a stored duty

  function Arm<P(==)>(e: Esc<(), P>): (r: Esc<(), P>)
    ensures Appends(e, r, [Pwm.Write((), e.armDuty)])
  {
    WriteInner(e, (), e.armDuty)
  }

  function ArmChannel<C(==), P(==)>(e: Esc<C, P>, ch: C): (r: Esc<C, P>)
    ensures Appends(e, r, [Pwm.Write(ch, e.armDuty)])
  {
    WriteInner(e, ch, e.armDuty)
  }

  function Disarm<P(==)>(e: Esc<(), P>): (r: Esc<(), P>)
    ensures Appends(e, r, [Pwm.Write((), e.disarmDuty)])
  {
    WriteInner(e, (), e.disarmDuty)
  }

  function DisarmChannel<C(==), P(==)>(e: Esc<C, P>, ch: C): (r: Esc<C, P>)
    ensures Appends(e, r, [Pwm.Write(ch, e.disarmDuty)])
  {
    WriteInner(e, ch, e.disarmDuty)
  }

  function SetMaxDuty<P(==)>(e: Esc<(), P>): (r: Esc<(), P>)
    ensures Appends(e, r, [Pwm.Write((), e.maxDuty)])
  {
    WriteInner(e, (), e.maxDuty)
  }

  function SetChannelMaxDuty<C(==), P(==)>(e: Esc<C, P>, ch: C): (r: Esc<C, P>)
    ensures Appends(e, r, [Pwm.Write(ch, e.maxDuty)])
  {
    WriteInner(e, ch, e.maxDuty)
  }

  function SetMinDuty<P(==)>(e: Esc<(), P>): (r: Esc<(), P>)
    ensures Appends(e, r, [Pwm.Write((), e.minDuty)])
  {
    WriteInner(e, (), e.minDuty)
  }

  function SetChannelMinDuty<C(==), P(==)>(e: Esc<C, P>, ch: C): (r: Esc<C, P>)
    ensures Appends(e, r, [Pwm.Write(ch, e.minDuty)])
  {
    WriteInner(e, ch, e.minDuty)
  }

  // ---------------------------------------------------------------------
  // Calibration

  /** `calibrate` on a single pin: maximum, wait, minimum, wait. */
  function Calibrate<P(==)>(e: Esc<(), P>, ms: int): (r: Esc<(), P>)
    ensures Appends(e, r, [Pwm.Write((), e.maxDuty), Pwm.Delay(ms), Pwm.Write((), e.minDuty), Pwm.Delay(ms)])
  {
    DelayFor(SetMinDuty(DelayFor(SetMaxDuty(e), ms)), ms)
  }

  /** One write of `d` to each channel of `chs`, in order. */
  function WriteAll<C, P>(chs: seq<C>, d: int): (w: seq<Pwm.Event<C, P>>)
    ensures |w| == |chs|
    ensures forall i :: 0 <= i < |chs| ==> w[i] == Pwm.Write(chs[i], d)
  {
    if |chs| == 0 then [] else [Pwm.Write(chs[0], d)] + WriteAll(chs[1..], d)
  }

  /** What multi-channel calibration asks of the output and the delay. */
  function CalibrationEvents<C, P>(chs: seq<C>, hi: int, lo: int, ms: int): (ev: seq<Pwm.Event<C, P>>) {
    WriteAll(chs, hi) + [Pwm.Delay(ms)] + WriteAll(chs, lo) + [Pwm.Delay(ms)]
  }

  /** Where each request sits in the calibration events. */
  lemma CalibrationEventsLayout<C, P>(chs: seq<C>, hi: int, lo: int, ms: int)
    ensures var ev := CalibrationEvents<C, P>(chs, hi, lo, ms);
      && |ev| == 2 * |chs| + 2
      && (forall i :: 0 <= i < |chs| ==> ev[i] == Pwm.Write(chs[i], hi))
      && ev[|chs|] == Pwm.Delay(ms)
      && (forall i :: 0 <= i < |chs| ==> ev[|chs| + 1 + i] == Pwm.Write(chs[i], lo))
      && ev[2 * |chs| + 1] == Pwm.Delay(ms)
  {
  }

  /** `calibrate_channels`: every channel to the maximum, wait, every channel
      to the minimum, wait. */
  method CalibrateChannels<C(==), P(==)>(e: Esc<C, P>, ms: int, chs: seq<C>) returns (r: Esc<C, P>)
    ensures Appends(e, r, CalibrationEvents(chs, e.maxDuty, e.minDuty, ms))
    ensures |r.pwm.events| == |e.pwm.events| + 2 * |chs| + 2
    ensures forall i :: 0 <= i < |chs| ==> r.pwm.events[|e.pwm.events| + i] == Pwm.Write(chs[i], e.maxDuty)
    ensures r.pwm.events[|e.pwm.events| + |chs|] == Pwm.Delay(ms)
    ensures forall i :: 0 <= i < |chs| ==> r.pwm.events[|e.pwm.events| + |chs| + 1 + i] == Pwm.Write(chs[i], e.minDuty)
    ensures r.pwm.events[|r.pwm.events| - 1] == Pwm.Delay(ms)
    ensures chs == [] ==> r.pwm.events == e.pwm.events + [Pwm.Delay(ms), Pwm.Delay(ms)]
    ensures forall c :: c in chs ==> GetDuty(r, c) == e.minDuty
    ensures forall c :: c !in chs ==> GetDuty(r, c) == GetDuty(e, c)
  {
    r := e;
    var i := 0;
    while i < |chs|
      invariant 0 <= i <= |chs|
      invariant Appends(e, r, WriteAll(chs[..i], e.maxDuty))
    {
      WriteAllSnoc<C, P>(chs, i, e.maxDuty);
      var r' := SetChannelMaxDuty(r, chs[i]);
      AppendsTrans(e, r, r', WriteAll(chs[..i], e.maxDuty), [Pwm.Write(chs[i], e.maxDuty)]);
      r := r';
      i := i + 1;
    }
    assert chs[..i] == chs;
    var mid := DelayFor(r, ms);
    AppendsTrans(e, r, mid, WriteAll(chs, e.maxDuty), [Pwm.Delay(ms)]);
    r := mid;
    i := 0;
    while i < |chs|
      invariant 0 <= i <= |chs|
      invariant Appends(mid, r, WriteAll(chs[..i], e.minDuty))
    {
      WriteAllSnoc<C, P>(chs, i, e.minDuty);
      var r' := SetChannelMinDuty(r, chs[i]);
      AppendsTrans(mid, r, r', WriteAll(chs[..i], e.minDuty), [Pwm.Write(chs[i], e.minDuty)]);
      r := r';
      i := i + 1;
    }
    assert chs[..i] == chs;
    var last := DelayFor(r, ms);
    AppendsTrans(mid, r, last, WriteAll(chs, e.minDuty), [Pwm.Delay(ms)]);
    AppendsTrans(e, mid, last, WriteAll(chs, e.maxDuty) + [Pwm.Delay(ms)], WriteAll(chs, e.minDuty) + [Pwm.Delay(ms)]);
    assert (WriteAll<C, P>(chs, e.maxDuty) + [Pwm.Delay(ms)]) + (WriteAll(chs, e.minDuty) + [Pwm.Delay(ms)])
        == CalibrationEvents(chs, e.maxDuty, e.minDuty, ms);
    r := last;
    assert r.pwm.events == e.pwm.events + CalibrationEvents(chs, e.maxDuty, e.minDuty, ms);
    CalibrationEventsLayout<C, P>(chs, e.maxDuty, e.minDuty, ms);
    forall c | c in chs ensures GetDuty(r, c) == e.minDuty {
      CalibrationObserved(e.pwm.events, chs, e.maxDuty, e.minDuty, ms, c, e.pwm.initialDuty);
    }
    forall c | c !in chs ensures GetDuty(r, c) == GetDuty(e, c) {
      CalibrationObserved(e.pwm.events, chs, e.maxDuty, e.minDuty, ms, c, e.pwm.initialDuty);
    }
  }

  /** Appending in two steps is appending the concatenation. */
  lemma AppendsTrans<C, P>(a: Esc<C, P>, b: Esc<C, P>, c: Esc<C, P>, s1: seq<Pwm.Event<C, P>>, s2: seq<Pwm.Event<C, P>>)
    requires Appends(a, b, s1) && Appends(b, c, s2)
    ensures Appends(a, c, s1 + s2)
  {
  }

  /** Writing to one more channel appends one more write. */
  lemma WriteAllSnoc<C, P>(chs: seq<C>, i: int, d: int)
    requires 0 <= i < |chs|
    ensures WriteAll<C, P>(chs[..i + 1], d) == WriteAll(chs[..i], d) + [Pwm.Write(chs[i], d)]
  {
  }

  // ---------------------------------------------------------------------
  // `impl Pwm for Esc`: delegation, with the clamp on `set_duty`

  function Disable<C(==), P(==)>(e: Esc<C, P>, ch: C): (r: Esc<C, P>)
    ensures Appends(e, r, [Pwm.Disable(ch)])
  {
    e.(pwm := e.pwm.Emit(Pwm.Disable(ch)))
  }

  function Enable<C(==), P(==)>(e: Esc<C, P>, ch: C): (r: Esc<C, P>)
    ensures Appends(e, r, [Pwm.Enable(ch)])
  {
    e.(pwm := e.pwm.Emit(Pwm.Enable(ch)))
  }

  function GetPeriod<C, P>(e: Esc<C, P>): (p: P)
    ensures p == Pwm.ReportedPeriod(e.pwm)
  {
    Pwm.ReportedPeriod(e.pwm)
  }

  function GetDuty<C(==), P>(e: Esc<C, P>, ch: C): (d: int)
    ensures d == Pwm.ReportedDuty(e.pwm, ch)
  {
    Pwm.ReportedDuty(e.pwm, ch)
  }

  function GetMaxDuty<C, P>(e: Esc<C, P>): (d: int)
    ensures d == e.pwm.maxDuty
  {
    e.pwm.maxDuty
  }

  /** `Pwm::set_duty`: exactly one write, of the clamped duty. */
  function SetDuty<C(==), P(==)>(e: Esc<C, P>, ch: C, d: int): (r: Esc<C, P>)
    ensures Appends(e, r, [Pwm.Write(ch, Clamp(d, e.minDuty, e.maxDuty))])
    ensures LastEvent(r).Write? && LastEvent(r).channel == ch
    ensures LastEvent(r).duty >= e.minDuty
    ensures e.minDuty <= e.maxDuty ==> LastEvent(r).duty <= e.maxDuty
    ensures e.minDuty <= d <= e.maxDuty ==> LastEvent(r).duty == d
    ensures e.maxDuty < e.minDuty ==> LastEvent(r).duty == e.minDuty
  {
    WriteInner(e, ch, Clamp(d, e.minDuty, e.maxDuty))
  }

  function SetPeriod<C(==), P(==)>(e: Esc<C, P>, p: P): (r: Esc<C, P>)
    ensures Appends(e, r, [Pwm.SetPeriod(p)])
  {
    e.(pwm := e.pwm.Emit(Pwm.SetPeriod(p)))
  }

  // ---------------------------------------------------------------------
  // `impl PwmPin for Esc`: the same, on the single pin

  function DisablePin<P(==)>(e: Esc<(), P>): (r: Esc<(), P>)
    ensures Appends(e, r, [Pwm.Disable(())])
  {
    e.(pwm := e.pwm.Emit(Pwm.Disable(())))
  }

  function EnablePin<P(==)>(e: Esc<(), P>): (r: Esc<(), P>)
    ensures Appends(e, r, [Pwm.Enable(())])
  {
    e.(pwm := e.pwm.Emit(Pwm.Enable(())))
  }

  function GetPinDuty<P>(e: Esc<(), P>): (d: int)
    ensures d == Pwm.ReportedDuty(e.pwm, ())
  {
    Pwm.ReportedDuty(e.pwm, ())
  }

  function GetPinMaxDuty<P>(e: Esc<(), P>): (d: int)
    ensures d == e.pwm.maxDuty
  {
    e.pwm.maxDuty
  }

  /** `PwmPin::set_duty`: exactly one write, of the clamped duty. */
  function SetPinDuty<P(==)>(e: Esc<(), P>, d: int): (r: Esc<(), P>)
    ensures Appends(e, r, [Pwm.Write((), Clamp(d, e.minDuty, e.maxDuty))])
    ensures LastEvent(r).duty >= e.minDuty
    ensures e.minDuty <= e.maxDuty ==> LastEvent(r).duty <= e.maxDuty
    ensures e.minDuty <= d <= e.maxDuty ==> LastEvent(r).duty == d
    ensures e.maxDuty < e.minDuty ==> LastEvent(r).duty == e.minDuty
  {
    WriteInner(e, (), Clamp(d, e.minDuty, e.maxDuty))
  }

  // ---------------------------------------------------------------------
  // What the output reports after these operations

  /** After a write of `d` to `ch`, the output reports `d` on `ch` and its
      old duty on every other channel. */
  lemma WriteObserved<C, P>(e: Esc<C, P>, ch: C, d: int, other: C)
    ensures GetDuty(WriteInner(e, ch, d), ch) == d
    ensures other != ch ==> GetDuty(WriteInner(e, ch, d), other) == GetDuty(e, other)
  {
    Pwm.LastDutyAppendOne(e.pwm.events, Pwm.Write(ch, d), ch, e.pwm.initialDuty);
    Pwm.LastDutyAppendOne(e.pwm.events, Pwm.Write(ch, d), other, e.pwm.initialDuty);
  }

  /** The duty the output reports after `set_duty` is the clamped duty, so
      with ordered bounds it lies in them; other channels are untouched. */
  lemma SetDutyObserved<C, P>(e: Esc<C, P>, ch: C, d: int, other: C)
    ensures GetDuty(SetDuty(e, ch, d), ch) == Clamp(d, e.minDuty, e.maxDuty)
    ensures e.minDuty <= e.maxDuty ==> e.minDuty <= GetDuty(SetDuty(e, ch, d), ch) <= e.maxDuty
    ensures other != ch ==> GetDuty(SetDuty(e, ch, d), other) == GetDuty(e, other)
  {
    WriteObserved(e, ch, Clamp(d, e.minDuty, e.maxDuty), other);
  }

  /** The same for the single pin. */
  lemma SetPinDutyObserved<P>(e: Esc<(), P>, d: int)
    ensures GetPinDuty(SetPinDuty(e, d)) == Clamp(d, e.minDuty, e.maxDuty)
    ensures e.minDuty <= e.maxDuty ==> e.minDuty <= GetPinDuty(SetPinDuty(e, d)) <= e.maxDuty
  {
    WriteObserved(e, (), Clamp(d, e.minDuty, e.maxDuty), ());
  }

  /** Enabling, disabling and setting the period change no reported duty,
      and the period reported after `set_period(p)` is `p`. */
  lemma PassThroughObserved<C, P>(e: Esc<C, P>, ch: C, p: P, other: C)
    ensures GetDuty(Enable(e, ch), other) == GetDuty(e, other)
    ensures GetDuty(Disable(e, ch), other) == GetDuty(e, other)
    ensures GetDuty(SetPeriod(e, p), other) == GetDuty(e, other)
    ensures GetPeriod(Enable(e, ch)) == GetPeriod(e)
    ensures GetPeriod(SetPeriod(e, p)) == p
  {
    Pwm.LastDutyAppendOne(e.pwm.events, Pwm.Enable(ch), other, e.pwm.initialDuty);
    Pwm.LastDutyAppendOne(e.pwm.events, Pwm.Disable(ch), other, e.pwm.initialDuty);
    Pwm.LastDutyAppendOne(e.pwm.events, Pwm.SetPeriod(p), other, e.pwm.initialDuty);
    Pwm.LastPeriodAppendOther(e.pwm.events, [Pwm.Enable(ch)], e.pwm.initialPeriod);
    assert (e.pwm.events + [Pwm.SetPeriod(p)])[..|e.pwm.events|] == e.pwm.events;
  }

  /** The reads report the output's values whatever the stored duties are. */
  lemma ReadsIgnoreStoredDuties<C, P>(e: Esc<C, P>, arm: int, disarm: int, lo: int, hi: int, ch: C)
    ensures var e' := e.(armDuty := arm, disarmDuty := disarm, minDuty := lo, maxDuty := hi);
      && GetDuty(e', ch) == GetDuty(e, ch)
      && GetPeriod(e') == GetPeriod(e)
      && GetMaxDuty(e') == GetMaxDuty(e)
  {
  }

  // ---------------------------------------------------------------------
  // Presets versus the clamp

  /** With ordered bounds, arming a channel writes what `set_duty` of the
      arm duty would write exactly when the arm duty is in range. */
  lemma ArmChannelAgreesWithSetDutyIff<C, P>(e: Esc<C, P>, ch: C)
    requires e.minDuty <= e.maxDuty
    ensures ArmChannel(e, ch) == SetDuty(e, ch, e.armDuty) <==> e.minDuty <= e.armDuty <= e.maxDuty
  {
    if ArmChannel(e, ch) == SetDuty(e, ch, e.armDuty) {
      assert LastEvent(ArmChannel(e, ch)) == LastEvent(SetDuty(e, ch, e.armDuty));
    }
  }

  /** With ordered bounds, arming the pin writes what `PwmPin::set_duty` of
      the arm duty would write exactly when the arm duty is in range. */
  lemma ArmAgreesWithSetPinDutyIff<P>(e: Esc<(), P>)
    requires e.minDuty <= e.maxDuty
    ensures Arm(e) == SetPinDuty(e, e.armDuty) <==> e.minDuty <= e.armDuty <= e.maxDuty
  {
    if Arm(e) == SetPinDuty(e, e.armDuty) {
      assert LastEvent(Arm(e)) == LastEvent(SetPinDuty(e, e.armDuty));
    }
  }

  /** The single-pin forms are the channel forms on the one channel `()`. */
  lemma PinFormsAreChannelForms<P>(e: Esc<(), P>, d: int, ms: int)
    ensures Arm(e) == ArmChannel(e, ())
    ensures Disarm(e) == DisarmChannel(e, ())
    ensures SetMaxDuty(e) == SetChannelMaxDuty(e, ())
    ensures SetMinDuty(e) == SetChannelMinDuty(e, ())
    ensures DisablePin(e) == Disable(e, ())
    ensures EnablePin(e) == Enable(e, ())
    ensures SetPinDuty(e, d) == SetDuty(e, (), d)
    ensures GetPinDuty(e) == GetDuty(e, ())
    ensures GetPinMaxDuty(e) == GetMaxDuty(e)
    ensures Appends(e, Calibrate(e, ms), CalibrationEvents([()], e.maxDuty, e.minDuty, ms))
  {
    CalibrateIsOneChannelCalibration(e, ms);
  }

  /** The same for disarming. */
  lemma DisarmChannelAgreesWithSetDutyIff<C, P>(e: Esc<C, P>, ch: C)
    requires e.minDuty <= e.maxDuty
    ensures DisarmChannel(e, ch) == SetDuty(e, ch, e.disarmDuty) <==> e.minDuty <= e.disarmDuty <= e.maxDuty
  {
    if DisarmChannel(e, ch) == SetDuty(e, ch, e.disarmDuty) {
      assert LastEvent(DisarmChannel(e, ch)) == LastEvent(SetDuty(e, ch, e.disarmDuty));
    }
  }

  /** With ordered bounds the extreme presets write what the clamp would;
      with inverted bounds the maximum preset writes something the clamp
      never would. */
  lemma ExtremePresetsVersusClamp<C, P>(e: Esc<C, P>, ch: C)
    ensures e.minDuty <= e.maxDuty ==> SetChannelMaxDuty(e, ch) == SetDuty(e, ch, e.maxDuty)
    ensures e.minDuty <= e.maxDuty ==> SetChannelMinDuty(e, ch) == SetDuty(e, ch, e.minDuty)
    ensures e.maxDuty < e.minDuty ==> SetChannelMaxDuty(e, ch) != SetDuty(e, ch, e.maxDuty)
  {
    if e.maxDuty < e.minDuty {
      assert LastEvent(SetChannelMaxDuty(e, ch)).duty != LastEvent(SetDuty(e, ch, e.maxDuty)).duty;
    }
  }

  /** Bounds [1000, 2000] and arm duty 500: `arm` makes the pin report 500,
      below the range, where `set_duty(500)` would have made it report 1000. */
  lemma ArmBelowRangeIsNotClamped<P>(pwm: Pwm.Output<(), P>)
    ensures var e := New(pwm).(minDuty := 1000, maxDuty := 2000, armDuty := 500);
      && Arm(e).pwm.events == pwm.events + [Pwm.Write((), 500)]
      && GetPinDuty(Arm(e)) == 500
      && GetPinDuty(SetPinDuty(e, 500)) == 1000
  {
    var e := New(pwm).(minDuty := 1000, maxDuty := 2000, armDuty := 500);
    WriteObserved(e, (), 500, ());
    SetPinDutyObserved(e, 500);
  }

  /** A freshly constructed wrapper has bounds [0, 0], so `set_duty` writes 0
      whatever it is asked to write. */
  lemma NewClampsEverythingToZero<C, P>(pwm: Pwm.Output<C, P>, ch: C, d: int)
    ensures SetDuty(New(pwm), ch, d).pwm.events == pwm.events + [Pwm.Write(ch, 0)]
  {
  }

  /** Writing the maximum twice leaves the output reporting what writing it
      once does: the maximum. */
  lemma SetMaxDutyTwice<C, P>(e: Esc<C, P>, ch: C)
    ensures GetDuty(SetChannelMaxDuty(SetChannelMaxDuty(e, ch), ch), ch) == GetDuty(SetChannelMaxDuty(e, ch), ch)
    ensures GetDuty(SetChannelMaxDuty(e, ch), ch) == e.maxDuty
  {
    WriteObserved(e, ch, e.maxDuty, ch);
    WriteObserved(SetChannelMaxDuty(e, ch), ch, e.maxDuty, ch);
  }

  // ---------------------------------------------------------------------
  // Calibration facts

  /** After the calibration events the channels calibrated report the
      minimum, and every other channel reports what it did before. */
  lemma CalibrationObserved<C, P>(s: seq<Pwm.Event<C, P>>, chs: seq<C>, hi: int, lo: int, ms: int, c: C, initial: int)
    ensures c in chs ==> Pwm.LastDuty(s + CalibrationEvents(chs, hi, lo, ms), c, initial) == lo
    ensures c !in chs ==> Pwm.LastDuty(s + CalibrationEvents(chs, hi, lo, ms), c, initial) == Pwm.LastDuty(s, c, initial)
  {
    var ev := CalibrationEvents<C, P>(chs, hi, lo, ms);
    var head := s + WriteAll(chs, hi) + [Pwm.Delay(ms)];
    var tail := WriteAll<C, P>(chs, lo) + [Pwm.Delay(ms)];
    assert s + ev == head + tail;
    if c in chs {
      var k :| 0 <= k < |chs| && chs[k] == c;
      assert Pwm.WritesTo(tail[k], c);
      Pwm.LastDutyUniformWrites(head, tail, c, lo, initial);
    } else {
      assert Pwm.NoWriteTo(ev, c) by {
        forall i | 0 <= i < |ev| ensures !Pwm.WritesTo(ev[i], c) {
          if i < |chs| {
            assert ev[i] == Pwm.Write(chs[i], hi);
          } else if i == |chs| {
          } else if i < 2 * |chs| + 1 {
            assert ev[i] == Pwm.Write(chs[i - |chs| - 1], lo);
          }
        }
      }
      Pwm.LastDutyAppendNoWrite(s, ev, c, initial);
    }
  }

  /** Single-pin calibration is multi-channel calibration of the one pin. */
  lemma CalibrateIsOneChannelCalibration<P>(e: Esc<(), P>, ms: int)
    ensures Appends(e, Calibrate(e, ms), CalibrationEvents([()], e.maxDuty, e.minDuty, ms))
  {
    assert WriteAll<(), P>([()], e.maxDuty) == [Pwm.Write((), e.maxDuty)];
    assert WriteAll<(), P>([()], e.minDuty) == [Pwm.Write((), e.minDuty)];
  }

  /** After `calibrate` the pin reports the minimum duty. */
  lemma CalibrateEndsAtMinDuty<P>(e: Esc<(), P>, ms: int)
    ensures GetPinDuty(Calibrate(e, ms)) == e.minDuty
  {
    CalibrateIsOneChannelCalibration(e, ms);
    CalibrationObserved(e.pwm.events, [()], e.maxDuty, e.minDuty, ms, (), e.pwm.initialDuty);
  }

  /** Bounds [1000, 2000]: `calibrate` writes 2000, waits, writes 1000, waits. */
  lemma CalibrateExample<P>(e: Esc<(), P>, ms: int)
    requires e.minDuty == 1000 && e.maxDuty == 2000
    ensures Calibrate(e, ms).pwm.events
      == e.pwm.events + [Pwm.Write((), 2000), Pwm.Delay(ms), Pwm.Write((), 1000), Pwm.Delay(ms)]
  {
  }
}
