/** The periodic timer of makeguns: it accumulates elapsed time and raises a
    flag on the step in which a full period has gone by. Seconds are `real`
    (the source uses `float`; rounding is not modelled). */
module Timers {

  /** The three fields of a timer, as a value. */
  datatype TimerState = TimerState(length: real, time: real, timeout: bool)

  /** What `step(dt)` does to a timer: clear the flag, add `dt`, and when the
      period is reached take ONE period off and raise the flag. */
  function Stepped(s: TimerState, dt: real): TimerState
  {
    var t := s.time + dt;
    if t >= s.length then TimerState(s.length, t - s.length, true)
    else TimerState(s.length, t, false)
  }

  /** What `reset()` does: time back to zero, flag down, length kept. */
  function Cleared(s: TimerState): TimerState
  {
    TimerState(s.length, 0.0, false)
  }

  /** Several calls of `step`, one per element of `dts`, in order. */
  function SteppedAll(s: TimerState, dts: seq<real>): TimerState
    decreases |dts|
  {
    if dts == [] then s else SteppedAll(Stepped(s, dts[0]), dts[1..])
  }

  function Sum(dts: seq<real>): real
    decreases |dts|
  {
    if dts == [] then 0.0 else dts[0] + Sum(dts[1..])
  }

  /** The range a well-behaved timer keeps its time in. */
  predicate InRange(s: TimerState)
  {
    0.0 <= s.time < s.length
  }

  class Timer {
    /** `length` has no setter: it is fixed by the constructor. */
    const length: real
    var time: real
    var timeout: bool

    function State(): TimerState
      reads this
    {
      TimerState(length, time, timeout)
    }

    /** The default constructor: a zero-length timer, at zero, not fired. */
    constructor ()
      ensures length == 0.0 && time == 0.0 && !timeout
    {
      length := 0.0;
      time := 0.0;
      timeout := false;
    }

    /** The length constructor sets `length` and `time` and leaves `timeout`
        uninitialised, so nothing is promised about it. */
    constructor WithLength(length: real)
      ensures this.length == length && time == 0.0
    {
      this.length := length;
      time := 0.0;
    }

    method Step(deltaTime: real)
      modifies this
      ensures State() == Stepped(old(State()), deltaTime)
      ensures timeout <==> old(time) + deltaTime >= length
    {
      timeout := false;
      time := time + deltaTime;
      if time >= length {
        time := time - length;
        timeout := true;
      }
    }

    method HasTimedOut() returns (fired: bool)
      ensures fired == timeout
    {
      fired := timeout;
    }

    method GetTime() returns (t: real)
      ensures t == time
    {
      t := time;
    }

    method GetLength() returns (l: real)
      ensures l == length
    {
      l := length;
    }

    method Reset()
      modifies this
      ensures State() == Cleared(old(State()))
      ensures time == 0.0 && !timeout
    {
      time := 0.0;
      timeout := false;
    }
  }

  // ---------------------------------------------------------------------
  // One step

  /** The flag is raised exactly when the accumulated time reaches the
      length; otherwise the time simply grows by `dt`. */
  lemma StepFiresIff(s: TimerState, dt: real)
    ensures Stepped(s, dt).timeout <==> s.time + dt >= s.length
    ensures !Stepped(s, dt).timeout ==> Stepped(s, dt).time == s.time + dt
    ensures Stepped(s, dt).timeout ==> Stepped(s, dt).time == s.time + dt - s.length
    ensures Stepped(s, dt).length == s.length
  {
  }

  /** One period is taken off per step, never more: a step of at least two
      periods leaves the time at or beyond the length. */
  lemma StepWrapsOnce(s: TimerState, dt: real)
    requires 0.0 <= s.time && 0.0 <= s.length
    requires dt >= 2.0 * s.length
    ensures Stepped(s, dt).timeout
    ensures Stepped(s, dt).time >= s.length
  {
  }

  /** A step no longer than one period keeps the time in `[0, length)`. */
  lemma StepKeepsRange(s: TimerState, dt: real)
    requires InRange(s)
    requires 0.0 <= dt <= s.length
    ensures InRange(Stepped(s, dt))
  {
  }

  /** A zero-length timer (the default one) fires on every non-negative step
      and its time just accumulates. */
  lemma ZeroLengthStepFires(s: TimerState, dt: real)
    requires s.length == 0.0 && 0.0 <= s.time && 0.0 <= dt
    ensures Stepped(s, dt).timeout
    ensures Stepped(s, dt).time == s.time + dt
  {
  }

  /** From zero, one step of a full period fires and lands back on zero. */
  lemma FullPeriodFromZero(length: real, flag: bool)
    ensures Stepped(TimerState(length, 0.0, flag), length) == TimerState(length, 0.0, true)
  {
  }

  /** From zero, two steps of half a period fire on the second call only. */
  lemma HalfPeriodTwice(length: real, flag: bool)
    requires length > 0.0
    ensures !Stepped(TimerState(length, 0.0, flag), length / 2.0).timeout
    ensures Stepped(Stepped(TimerState(length, 0.0, flag), length / 2.0), length / 2.0)
            == TimerState(length, 0.0, true)
  {
  }

  /** `reset` keeps the length, clears time and flag, and is idempotent. */
  lemma ResetIdempotent(s: TimerState)
    ensures Cleared(s).length == s.length
    ensures Cleared(s).time == 0.0 && !Cleared(s).timeout
    ensures Cleared(Cleared(s)) == Cleared(s)
  {
  }

  // ---------------------------------------------------------------------
  // Many steps

  /** No sequence of steps changes the length. */
  lemma {:induction false} SteppedAllKeepsLength(s: TimerState, dts: seq<real>)
    ensures SteppedAll(s, dts).length == s.length
    decreases |dts|
  {
    if dts != [] {
      SteppedAllKeepsLength(Stepped(s, dts[0]), dts[1..]);
    }
  }

  /** The range invariant survives any number of steps, each no longer than
      one period. */
  lemma {:induction false} SteppedAllKeepsRange(s: TimerState, dts: seq<real>)
    requires InRange(s)
    requires forall i :: 0 <= i < |dts| ==> 0.0 <= dts[i] <= s.length
    ensures InRange(SteppedAll(s, dts))
    decreases |dts|
  {
    if dts != [] {
      StepKeepsRange(s, dts[0]);
      SteppedAllKeepsRange(Stepped(s, dts[0]), dts[1..]);
    }
  }

  /** With the default length of zero, every step fires and the time is the
      running total of the steps. */
  lemma {:induction false} ZeroLengthAccumulates(s: TimerState, dts: seq<real>)
    requires s.length == 0.0 && 0.0 <= s.time
    requires forall i :: 0 <= i < |dts| ==> 0.0 <= dts[i]
    ensures SteppedAll(s, dts).time == s.time + Sum(dts)
    ensures dts != [] ==> SteppedAll(s, dts).timeout
    decreases |dts|
  {
    if dts != [] {
      ZeroLengthStepFires(s, dts[0]);
      ZeroLengthAccumulates(Stepped(s, dts[0]), dts[1..]);
    }
  }
}
