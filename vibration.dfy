/**
 * The coin vibration motor: a PWM output with a 20 ms period whose duty
 * cycle is set in percent, driven through finite patterns by a delayable
 * work item. Each handler run sets the duty for the current step and
 * either reschedules itself or lets the pattern end.
 */
module Vibration {
  import opened Types
  import Arith

  /** enum vib_pattern */
  datatype VibPattern = Off | GentleTap | DoubleTap | SoftPulse

  /**
   * The driver's state: the pattern and step the next run sees, the duty
   * (in percent) last written to the PWM, and the delay in milliseconds of
   * the queued handler run, None when nothing is queued.
   */
  datatype VibState = VibState(pattern: VibPattern, step: nat, duty: uint8, pending: Option<nat>)

  /** PWM_MSEC(20) in nanoseconds. */
  const VIB_PERIOD_NS: uint32 := 20_000_000
  const TAP_DUTY: uint8 := 60
  const GENTLE_MS: nat := 80
  const DOUBLE_ON_MS: nat := 60
  const DOUBLE_GAP_MS: nat := 80
  const SOFT_STEP_MS: nat := 60

  /** The state before vibration_init: zeroed statics and a motor at 0 %. */
  const Idle: VibState := VibState(Off, 0, 0, None)

  /**
   * The pulse width vib_set_intensity writes for pct: the product is formed
   * in 32-bit unsigned arithmetic (it wraps from pct = 215 on), then divided by 100.
   */
  function PulseNs(pct: uint8): uint32
  {
    ((VIB_PERIOD_NS * pct) % 0x1_0000_0000) / 100
  }

  /** Every percentage up to 100 gives exactly pct % of the period, never more than the period. */
  lemma PulseIsPercentOfPeriod(pct: uint8)
    requires pct <= 100
    ensures PulseNs(pct) == 200_000 * pct
    ensures PulseNs(pct) <= VIB_PERIOD_NS
    ensures pct == 0 <==> PulseNs(pct) == 0
  {
    assert VIB_PERIOD_NS * pct == 200_000 * pct * 100;
    Arith.MulDivCancel(200_000 * pct, 100);
  }

  /** vib_set_intensity: only the duty changes. */
  function Powered(s: VibState, pct: uint8): VibState
  {
    s.(duty := pct)
  }

  /** vibration_play: cancel the queued run, motor off, restart p at step 0 with no delay. */
  function Played(s: VibState, p: VibPattern): VibState
  {
    Powered(s.(pending := None), 0).(pattern := p, step := 0, pending := Some(0))
  }

  /** vibration_stop: cancel the queued run, pattern OFF, motor off; the step is kept. */
  function Stopped(s: VibState): VibState
  {
    Powered(s.(pending := None, pattern := Off), 0)
  }

  /** The duty SOFT_PULSE writes at step k (0 <= k <= 8): up 10..50, then down 40..10. */
  function Ramp(k: nat): uint8
    requires k <= 8
  {
    if k <= 4 then (k + 1) * 10 else (9 - k) * 10
  }

  /** One run of vib_handler. The run that starts has left the queue. */
  function Handled(s: VibState): VibState
  {
    var t := s.(pending := None);
    var k := s.step;
    match s.pattern
    case Off => Powered(t, 0)
    case GentleTap =>
      if k == 0 then Powered(t, TAP_DUTY).(step := 1, pending := Some(GENTLE_MS))
      else Powered(t, 0)
    case DoubleTap =>
      if k == 0 then Powered(t, TAP_DUTY).(step := 1, pending := Some(DOUBLE_ON_MS))
      else if k == 1 then Powered(t, 0).(step := 2, pending := Some(DOUBLE_GAP_MS))
      else if k == 2 then Powered(t, TAP_DUTY).(step := 3, pending := Some(DOUBLE_ON_MS))
      else Powered(t, 0)
    case SoftPulse =>
      if k <= 8 then Powered(t, Ramp(k)).(step := k + 1, pending := Some(SOFT_STEP_MS))
      else Powered(t, 0)
  }

  /** The state after n consecutive handler runs. */
  function Runs(s: VibState, n: nat): VibState
  {
    if n == 0 then s else Handled(Runs(s, n - 1))
  }

  /** Running once and then n times is running n + 1 times. */
  lemma {:induction false} RunsShift(s: VibState, n: nat)
    ensures Runs(s, n + 1) == Runs(Handled(s), n)
  {
    if n > 0 {
      RunsShift(s, n - 1);
    }
  }

  /** The motor never runs harder than 60 %, so the pulse never exceeds the period. */
  lemma DutyBounded(s: VibState, p: VibPattern)
    ensures Handled(s).duty <= TAP_DUTY
    ensures PulseNs(Handled(s).duty) <= VIB_PERIOD_NS
    ensures Played(s, p).duty == 0 && Stopped(s).duty == 0
  {
    PulseIsPercentOfPeriod(Handled(s).duty);
  }

  /** How many more handler runs the pattern takes, counting the one that ends it. */
  function Remaining(s: VibState): (n: nat)
    ensures n >= 1
  {
    match s.pattern
    case Off => 1
    case GentleTap => if s.step == 0 then 2 else 1
    case DoubleTap => if s.step <= 2 then 4 - s.step else 1
    case SoftPulse => if s.step <= 8 then 10 - s.step else 1
  }

  /**
   * Every pattern ends, from any state: each of the first Remaining(s) - 1
   * runs queues another, and the run after them queues nothing and leaves
   * the motor at 0 %.
   */
  lemma {:induction false} PatternEnds(s: VibState)
    ensures Runs(s, Remaining(s)).pending == None
    ensures Runs(s, Remaining(s)).duty == 0
    ensures forall k :: 1 <= k < Remaining(s) ==> Runs(s, k).pending.Some?
    decreases Remaining(s)
  {
    if Remaining(s) == 1 {
      assert Runs(s, 1) == Handled(Runs(s, 0));
    } else {
      var t := Handled(s);
      assert Remaining(t) == Remaining(s) - 1;
      PatternEnds(t);
      RunsShift(s, Remaining(t));
      forall k | 1 <= k < Remaining(s)
        ensures Runs(s, k).pending.Some?
      {
        RunsShift(s, k - 1);
      }
    }
  }

  /** The patterns vibration_play starts take 1, 2, 4 and 10 handler runs. */
  lemma PlayedLength(s: VibState)
    ensures Remaining(Played(s, Off)) == 1
    ensures Remaining(Played(s, GentleTap)) == 2
    ensures Remaining(Played(s, DoubleTap)) == 4
    ensures Remaining(Played(s, SoftPulse)) == 10
  {
  }

  /** GENTLE_TAP: 60 % for 80 ms, then off. */
  lemma GentleTapTrace(s: VibState)
    ensures Runs(Played(s, GentleTap), 1) == VibState(GentleTap, 1, TAP_DUTY, Some(GENTLE_MS))
    ensures Runs(Played(s, GentleTap), 2) == VibState(GentleTap, 1, 0, None)
  {
    var s0 := Played(s, GentleTap);
    assert Runs(s0, 2) == Handled(Handled(s0));
  }

  /** DOUBLE_TAP: 60 % for 60 ms, off for 80 ms, 60 % for 60 ms, then off. */
  lemma DoubleTapTrace(s: VibState)
    ensures Runs(Played(s, DoubleTap), 1) == VibState(DoubleTap, 1, TAP_DUTY, Some(DOUBLE_ON_MS))
    ensures Runs(Played(s, DoubleTap), 2) == VibState(DoubleTap, 2, 0, Some(DOUBLE_GAP_MS))
    ensures Runs(Played(s, DoubleTap), 3) == VibState(DoubleTap, 3, TAP_DUTY, Some(DOUBLE_ON_MS))
    ensures Runs(Played(s, DoubleTap), 4) == VibState(DoubleTap, 3, 0, None)
  {
    var s0 := Played(s, DoubleTap);
    assert Runs(s0, 2) == Handled(Handled(s0));
    assert Runs(s0, 3) == Handled(Runs(s0, 2));
    assert Runs(s0, 4) == Handled(Runs(s0, 3));
  }

  /**
   * SOFT_PULSE: runs 1 to 9 write 10, 20, 30, 40, 50, 40, 30, 20, 10 % at
   * 60 ms intervals; the tenth writes 0 and queues nothing.
   */
  lemma {:induction false} SoftPulseRamp(s: VibState, k: nat)
    requires 1 <= k <= 9
    ensures Runs(Played(s, SoftPulse), k) == VibState(SoftPulse, k, Ramp(k - 1), Some(SOFT_STEP_MS))
    ensures k == 9 ==> Runs(Played(s, SoftPulse), 10) == VibState(SoftPulse, 9, 0, None)
  {
    if k > 1 {
      SoftPulseRamp(s, k - 1);
    }
  }

  /** The ramp peaks at 50 % on the fifth run and is symmetric around it. */
  lemma RampShape(k: nat)
    requires k <= 8
    ensures Ramp(k) <= Ramp(4) == 50
    ensures Ramp(k) == Ramp(8 - k)
    ensures k < 4 ==> Ramp(k) < Ramp(k + 1)
    ensures 4 <= k < 8 ==> Ramp(k) > Ramp(k + 1)
  {
  }

  /** After vibration_stop the motor is off and a late handler run keeps it off and queues nothing. */
  lemma StopIsFinal(s: VibState)
    ensures Stopped(s).pattern == Off && Stopped(s).duty == 0 && Stopped(s).pending == None
    ensures Handled(Stopped(s)) == Stopped(s)
  {
  }

  /** The driver's statics and the PWM channel, updated in place. */
  class VibrationDriver {
    var activeVib: VibPattern
    var vibStep: nat
    /** Percentage last passed to vib_set_intensity. */
    var duty: uint8
    /** Pulse width last written to the PWM, in nanoseconds. */
    var pulseNs: uint32
    /** Delay of the queued vib_work item, if any. */
    var pending: Option<nat>

    function State(): VibState
      reads this
    {
      VibState(activeVib, vibStep, duty, pending)
    }

    /** The PWM output matches the last duty written. */
    predicate Valid()
      reads this
    {
      pulseNs == PulseNs(duty)
    }

    /** Zeroed statics and vibration_init's motor-off write. */
    constructor ()
      ensures Valid() && State() == Idle
    {
      activeVib, vibStep, pending := Off, 0, None;
      duty, pulseNs := 0, PulseNs(0);
    }

    /** vib_set_intensity */
    method SetIntensity(pct: uint8)
      modifies this
      ensures Valid() && State() == Powered(old(State()), pct)
    {
      var pulse := ((VIB_PERIOD_NS * pct) % 0x1_0000_0000) / 100;
      duty := pct;
      pulseNs := pulse;
    }

    /** vibration_play */
    method Play(pattern: VibPattern)
      modifies this
      ensures Valid() && State() == Played(old(State()), pattern)
    {
      pending := None;
      SetIntensity(0);
      activeVib := pattern;
      vibStep := 0;
      pending := Some(0);
    }

    /** vibration_stop */
    method Stop()
      modifies this
      ensures Valid() && State() == Stopped(old(State()))
    {
      pending := None;
      activeVib := Off;
      SetIntensity(0);
    }

    /** vib_handler: one run of the queued work item. */
    method Handler()
      modifies this
      ensures Valid() && State() == Handled(old(State()))
    {
      pending := None;
      var pat := activeVib;
      var step := vibStep;
      match pat
      case Off =>
        SetIntensity(0);
      case GentleTap =>
        if step == 0 {
          SetIntensity(TAP_DUTY);
          vibStep := 1;
          pending := Some(GENTLE_MS);
        } else {
          SetIntensity(0);
        }
      case DoubleTap =>
        if step == 0 {
          SetIntensity(TAP_DUTY);
          vibStep := 1;
          pending := Some(DOUBLE_ON_MS);
        } else if step == 1 {
          SetIntensity(0);
          vibStep := 2;
          pending := Some(DOUBLE_GAP_MS);
        } else if step == 2 {
          SetIntensity(TAP_DUTY);
          vibStep := 3;
          pending := Some(DOUBLE_ON_MS);
        } else {
          SetIntensity(0);
        }
      case SoftPulse =>
        if step <= 4 {
          SetIntensity((step + 1) * 10);
          vibStep := step + 1;
          pending := Some(SOFT_STEP_MS);
        } else if step <= 8 {
          SetIntensity((9 - step) * 10);
          vibStep := step + 1;
          pending := Some(SOFT_STEP_MS);
        } else {
          SetIntensity(0);
        }
    }
  }
}
