/**
 * The onboard RGB LED driver: a pattern engine that runs as a delayable
 * work item. Each run of the handler looks at the active pattern and the
 * step counter, drives at most one colour, and reschedules itself.
 *
 * The model is a state record (pattern, step, the three pin levels and the
 * delay of the scheduled next run) with one pure function per operation,
 * and a class whose methods update the same fields in place.
 */
module Led {
  import opened Types

  /** enum led_pattern */
  datatype LedPattern = Off | PulseWarm | BreatheGreen | FlashBlue

  /**
   * The driver's state. A pin is true when the colour is lit (the active-low
   * wiring is the GPIO layer's business). `pending` is the delay in
   * milliseconds of the scheduled handler run, None when nothing is queued.
   */
  datatype LedState = LedState(pattern: LedPattern, step: nat,
                               red: bool, green: bool, blue: bool,
                               pending: Option<nat>)

  const PULSE_WARM_MS: nat := 250
  const BREATHE_ON_MS: nat := 700
  const BREATHE_OFF_MS: nat := 300
  const FLASH_MS: nat := 100
  const FLASH_STEPS: nat := 6
  const FLASH_RETURN_MS: nat := 200

  /** The state before led_init: zeroed statics, pins inactive, nothing queued. */
  const Idle: LedState := LedState(Off, 0, false, false, false, None)

  /** The level `gpio_pin_set_dt(pin, step % 2)` writes. */
  function Odd(step: nat): bool
  {
    step % 2 == 1
  }

  /** leds_all_off: every pin low, nothing else touched. */
  function Dark(s: LedState): LedState
  {
    s.(red := false, green := false, blue := false)
  }

  /** led_set_pattern: cancel the queued run, all off, restart p at step 0 with no delay. */
  function Selected(s: LedState, p: LedPattern): LedState
  {
    Dark(s.(pending := None)).(pattern := p, step := 0, pending := Some(0))
  }

  /** One run of pattern_handler. The run that starts has left the queue. */
  function Handled(s: LedState): LedState
  {
    var t := s.(pending := None);
    var k := s.step;
    match s.pattern
    case Off => Dark(t)
    case PulseWarm => t.(red := Odd(k), step := k + 1, pending := Some(PULSE_WARM_MS))
    case BreatheGreen =>
      if k % 2 == 0 then t.(green := true, step := k + 1, pending := Some(BREATHE_ON_MS))
      else t.(green := false, step := k + 1, pending := Some(BREATHE_OFF_MS))
    case FlashBlue =>
      if k < FLASH_STEPS then t.(blue := Odd(k), step := k + 1, pending := Some(FLASH_MS))
      else t.(blue := false, pattern := BreatheGreen, step := 0, pending := Some(FLASH_RETURN_MS))
  }

  /** The state after n consecutive handler runs. */
  function Runs(s: LedState, n: nat): LedState
  {
    if n == 0 then s else Handled(Runs(s, n - 1))
  }

  /**
   * Changing the pattern discards everything about the old one: the
   * pins are dark, and the next handler run sees p at step 0 whatever ran before.
   */
  lemma SelectForgetsPrevious(s1: LedState, s2: LedState, p: LedPattern)
    ensures Selected(s1, p) == Selected(s2, p)
    ensures Handled(Selected(s1, p)) == Handled(Selected(s2, p))
    ensures !Selected(s1, p).red && !Selected(s1, p).green && !Selected(s1, p).blue
    ensures Selected(s1, p).pattern == p && Selected(s1, p).step == 0
    ensures Selected(s1, p).pending == Some(0)
  {
  }

  /** Each run drives only its own pattern's colour; OFF drives all three low. */
  lemma OnlyOwnColour(s: LedState)
    ensures s.pattern == PulseWarm ==> Handled(s).green == s.green && Handled(s).blue == s.blue
    ensures s.pattern == BreatheGreen ==> Handled(s).red == s.red && Handled(s).blue == s.blue
    ensures s.pattern == FlashBlue ==> Handled(s).red == s.red && Handled(s).green == s.green
    ensures s.pattern == Off ==> !Handled(s).red && !Handled(s).green && !Handled(s).blue
    ensures s.pattern == Off <==> Handled(s).pending == None
  {
  }

  /**
   * PULSE_WARM never ends: after n >= 1 runs the red pin shows the parity of
   * the last step taken, the run is 250 ms away again, green and blue are as
   * they were, and the pattern is still PULSE_WARM.
   */
  lemma {:induction false} PulseWarmForever(s: LedState, n: nat)
    requires s.pattern == PulseWarm
    ensures Runs(s, n).pattern == PulseWarm
    ensures Runs(s, n).step == s.step + n
    ensures Runs(s, n).green == s.green && Runs(s, n).blue == s.blue
    ensures n > 0 ==> Runs(s, n).red == Odd(s.step + n - 1)
    ensures n > 0 ==> Runs(s, n).pending == Some(PULSE_WARM_MS)
  {
    if n > 0 {
      PulseWarmForever(s, n - 1);
    }
  }

  /**
   * BREATHE_GREEN alternates forever: green lit for 700 ms after an even
   * step, dark for 300 ms after an odd one; red and blue are untouched.
   */
  lemma {:induction false} BreatheGreenCycle(s: LedState, n: nat)
    requires s.pattern == BreatheGreen
    ensures Runs(s, n).pattern == BreatheGreen
    ensures Runs(s, n).step == s.step + n
    ensures Runs(s, n).red == s.red && Runs(s, n).blue == s.blue
    ensures n > 0 ==> Runs(s, n).green == ((s.step + n - 1) % 2 == 0)
    ensures n > 0 ==> Runs(s, n).pending ==
                      Some(if (s.step + n - 1) % 2 == 0 then BREATHE_ON_MS else BREATHE_OFF_MS)
  {
    if n > 0 {
      BreatheGreenCycle(s, n - 1);
    }
  }

  /**
   * FLASH_BLUE after led_set_pattern: six 100 ms runs write blue
   * 0,1,0,1,0,1 (three flashes), the seventh turns blue off and hands over
   * to BREATHE_GREEN at step 0 after 200 ms, whose first run lights green
   * for 700 ms. Red and green stay dark throughout the flashes.
   */
  lemma FlashBlueThenBreathe(s: LedState)
    ensures forall k :: 1 <= k <= 6 ==>
              Runs(Selected(s, FlashBlue), k) == LedState(FlashBlue, k, false, false, Odd(k - 1), Some(FLASH_MS))
    ensures Runs(Selected(s, FlashBlue), 7) == LedState(BreatheGreen, 0, false, false, false, Some(FLASH_RETURN_MS))
    ensures Runs(Selected(s, FlashBlue), 8) == LedState(BreatheGreen, 1, false, true, false, Some(BREATHE_ON_MS))
  {
    var s0 := Selected(s, FlashBlue);
    assert s0 == LedState(FlashBlue, 0, false, false, false, Some(0));
    forall k | 1 <= k <= 6
      ensures Runs(s0, k) == LedState(FlashBlue, k, false, false, Odd(k - 1), Some(FLASH_MS))
    {
      FlashPhase(s0, k);
    }
    FlashPhase(s0, 6);
    assert Runs(s0, 7) == Handled(Runs(s0, 6));
  }

  lemma {:induction false} FlashPhase(s0: LedState, k: nat)
    requires s0 == LedState(FlashBlue, 0, false, false, false, Some(0))
    requires 1 <= k <= 6
    ensures Runs(s0, k) == LedState(FlashBlue, k, false, false, Odd(k - 1), Some(FLASH_MS))
  {
    if k > 1 {
      FlashPhase(s0, k - 1);
    }
  }

  /** The driver's statics, updated in place by the public API and the work handler. */
  class LedDriver {
    var activePattern: LedPattern
    var patternStep: nat
    var red: bool
    var green: bool
    var blue: bool
    /** Delay of the queued pattern_work item, if any. */
    var pending: Option<nat>

    function State(): LedState
      reads this
    {
      LedState(activePattern, patternStep, red, green, blue, pending)
    }

    /** Zeroed statics and led_init's inactive pins. */
    constructor ()
      ensures State() == Idle
    {
      activePattern, patternStep := Off, 0;
      red, green, blue := false, false, false;
      pending := None;
    }

    /** leds_all_off */
    method AllOff()
      modifies this
      ensures State() == Dark(old(State()))
    {
      red := false;
      green := false;
      blue := false;
    }

    /** led_set_pattern */
    method SetPattern(pattern: LedPattern)
      modifies this
      ensures State() == Selected(old(State()), pattern)
    {
      pending := None;
      AllOff();
      activePattern := pattern;
      patternStep := 0;
      pending := Some(0);
    }

    /** pattern_handler: one run of the queued work item. */
    method Handler()
      modifies this
      ensures State() == Handled(old(State()))
    {
      pending := None;
      var pat := activePattern;
      var step := patternStep;
      match pat
      case Off =>
        AllOff();
      case PulseWarm =>
        red := step % 2 == 1;
        patternStep := step + 1;
        pending := Some(PULSE_WARM_MS);
      case BreatheGreen =>
        if step % 2 == 0 {
          green := true;
          patternStep := step + 1;
          pending := Some(BREATHE_ON_MS);
        } else {
          green := false;
          patternStep := step + 1;
          pending := Some(BREATHE_OFF_MS);
        }
      case FlashBlue =>
        if step < FLASH_STEPS {
          blue := step % 2 == 1;
          patternStep := step + 1;
          pending := Some(FLASH_MS);
        } else {
          blue := false;
          activePattern := BreatheGreen;
          patternStep := 0;
          pending := Some(FLASH_RETURN_MS);
        }
    }
  }
}
