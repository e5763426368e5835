/**
 The wrapped PWM output and the blocking delay, both foreign capabilities,
 seen only through what they are asked to do: an append-only trace of
 events. What the output reports back (its current duty on a channel, its
 period) is modelled as the last value the trace wrote, or the value it
 started with.
 */
module Pwm {

  /** One request made of the wrapped output or of the delay provider.
      `C` is the channel identifier, `P` the output's period (time) type. */
  datatype Event<C, P> =
    | Write(channel: C, duty: int)
    | Delay(ms: int)
    | Enable(channel: C)
    | Disable(channel: C)
    | SetPeriod(period: P)

  /** The wrapped output: the events requested so far, what it reports
      before anything was written, and its fixed maximum duty. */
  datatype Output<C, P> = Output(
    events: seq<Event<C, P>>,
    initialDuty: int,
    initialPeriod: P,
    maxDuty: int)
  {
    /** The output after one more request. */
    function Emit(ev: Event<C, P>): (o: Output<C, P>)
      ensures o.events == events + [ev]
      ensures o.initialDuty == initialDuty && o.initialPeriod == initialPeriod
      ensures o.maxDuty == maxDuty
    {
      this.(events := events + [ev])
    }
  }

  /** The duty last written to `ch` in `events`, or `initial` if none was. */
  function LastDuty<C(==), P>(events: seq<Event<C, P>>, ch: C, initial: int): (d: int)
    decreases |events|
  {
    if |events| == 0 then initial
    else
      var ev := events[|events| - 1];
      if ev.Write? && ev.channel == ch then ev.duty
      else LastDuty(events[..|events| - 1], ch, initial)
  }

  /** The period last set in `events`, or `initial` if none was. */
  function LastPeriod<C, P>(events: seq<Event<C, P>>, initial: P): (p: P)
    decreases |events|
  {
    if |events| == 0 then initial
    else
      var ev := events[|events| - 1];
      if ev.SetPeriod? then ev.period
      else LastPeriod(events[..|events| - 1], initial)
  }

  /** The duty the output reports for `ch`. */
  function ReportedDuty<C(==), P>(o: Output<C, P>, ch: C): (d: int) {
    LastDuty(o.events, ch, o.initialDuty)
  }

  /** The period the output reports. */
  function ReportedPeriod<C, P>(o: Output<C, P>): (p: P) {
    LastPeriod(o.events, o.initialPeriod)
  }

  /** True when `ev` writes a duty to channel `ch`. */
  predicate WritesTo<C(==), P>(ev: Event<C, P>, ch: C) {
    ev.Write? && ev.channel == ch
  }

  /** `events` does not write to `ch` at all. */
  predicate NoWriteTo<C(==), P>(events: seq<Event<C, P>>, ch: C) {
    forall i :: 0 <= i < |events| ==> !WritesTo(events[i], ch)
  }

  /** Appending a write to `ch` makes it the reported duty of `ch`;
      appending any other event leaves that reported duty alone. */
  lemma LastDutyAppendOne<C, P>(s: seq<Event<C, P>>, ev: Event<C, P>, ch: C, initial: int)
    ensures WritesTo(ev, ch) ==> LastDuty(s + [ev], ch, initial) == ev.duty
    ensures !WritesTo(ev, ch) ==> LastDuty(s + [ev], ch, initial) == LastDuty(s, ch, initial)
  {
    assert (s + [ev])[..|s|] == s;
  }

  /** A suffix that never writes to `ch` does not change its reported duty. */
  lemma {:induction false} LastDutyAppendNoWrite<C, P>(
    s: seq<Event<C, P>>, t: seq<Event<C, P>>, ch: C, initial: int)
    requires NoWriteTo(t, ch)
    ensures LastDuty(s + t, ch, initial) == LastDuty(s, ch, initial)
    decreases |t|
  {
    if |t| > 0 {
      var t' := t[..|t| - 1];
      var ev := t[|t| - 1];
      assert s + t == (s + t') + [ev];
      assert !WritesTo(ev, ch);
      LastDutyAppendOne(s + t', ev, ch, initial);
      assert NoWriteTo(t', ch) by {
        forall i | 0 <= i < |t'| ensures !WritesTo(t'[i], ch) {
          assert t'[i] == t[i];
        }
      }
      LastDutyAppendNoWrite(s, t', ch, initial);
    } else {
      assert s + t == s;
    }
  }

  /** If `t` writes to `ch`, and every such write is of `d`, then `ch`
      reports `d` after `t`. */
  lemma {:induction false} LastDutyUniformWrites<C, P>(
    s: seq<Event<C, P>>, t: seq<Event<C, P>>, ch: C, d: int, initial: int)
    requires !NoWriteTo(t, ch)
    requires forall i :: 0 <= i < |t| && WritesTo(t[i], ch) ==> t[i].duty == d
    ensures LastDuty(s + t, ch, initial) == d
    decreases |t|
  {
    var t' := t[..|t| - 1];
    var ev := t[|t| - 1];
    assert s + t == (s + t') + [ev];
    LastDutyAppendOne(s + t', ev, ch, initial);
    if !WritesTo(ev, ch) {
      assert !NoWriteTo(t', ch) by {
        var i :| 0 <= i < |t| && WritesTo(t[i], ch);
        assert i < |t'| && t'[i] == t[i];
      }
      forall i | 0 <= i < |t'| && WritesTo(t'[i], ch) ensures t'[i].duty == d {
        assert t'[i] == t[i];
      }
      LastDutyUniformWrites(s, t', ch, d, initial);
    }
  }

  /** A suffix that never sets the period does not change the reported period. */
  lemma {:induction false} LastPeriodAppendOther<C, P>(
    s: seq<Event<C, P>>, t: seq<Event<C, P>>, initial: P)
    requires forall i :: 0 <= i < |t| ==> !t[i].SetPeriod?
    ensures LastPeriod(s + t, initial) == LastPeriod(s, initial)
    decreases |t|
  {
    if |t| > 0 {
      var t' := t[..|t| - 1];
      assert (s + t)[..|s + t| - 1] == s + t';
      LastPeriodAppendOther(s, t', initial);
    } else {
      assert s + t == s;
    }
  }
}
