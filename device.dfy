/**
 * One monitor-loop iteration carried out on the rest of the firmware: the
 * effects the monitor returns are applied, in order, to the sample
 * history, the LED driver and the vibration driver.
 */
module Device {
  import opened Types
  import SoundLevel
  import DataCache
  import Led
  import Vibration
  import opened Monitor

  /** One effect on the LED driver: SetLed is a led_set_pattern call. */
  function LedApplied(s: Led.LedState, e: Effect): Led.LedState
  {
    if e.SetLed? then Led.Selected(s, e.pattern) else s
  }

  /** One effect on the vibration driver: vibration_play or vibration_stop. */
  function VibApplied(s: Vibration.VibState, e: Effect): Vibration.VibState
  {
    match e
    case PlayVibration(p) => Vibration.Played(s, p)
    case StopVibration => Vibration.Stopped(s)
    case _ => s
  }

  /** One effect on the history: PushAverage is a data_cache_push at the given uptime. */
  function CacheApplied(contents: seq<DataCache.Sample>, e: Effect, uptime: nat): (r: seq<DataCache.Sample>)
    requires |contents| <= DataCache.CACHE_MAX_SAMPLES
    ensures |r| <= DataCache.CACHE_MAX_SAMPLES
  {
    if e.PushAverage? then
      DataCache.PushedKeepsNewest(contents, DataCache.Sample(uptime % 0x1_0000_0000, e.avg));
      DataCache.Pushed(contents, DataCache.Sample(uptime % 0x1_0000_0000, e.avg))
    else contents
  }

  /** The LED driver after the effects, in order. */
  function LedAfter(s: Led.LedState, effects: seq<Effect>): Led.LedState
  {
    if effects == [] then s else LedApplied(LedAfter(s, effects[..|effects| - 1]), effects[|effects| - 1])
  }

  /** The vibration driver after the effects, in order. */
  function VibAfter(s: Vibration.VibState, effects: seq<Effect>): Vibration.VibState
  {
    if effects == [] then s else VibApplied(VibAfter(s, effects[..|effects| - 1]), effects[|effects| - 1])
  }

  /** The history after the effects, in order. */
  function CacheAfter(contents: seq<DataCache.Sample>, effects: seq<Effect>, uptime: nat): (r: seq<DataCache.Sample>)
    requires |contents| <= DataCache.CACHE_MAX_SAMPLES
    ensures |r| <= DataCache.CACHE_MAX_SAMPLES
  {
    if effects == [] then contents
    else CacheApplied(CacheAfter(contents, effects[..|effects| - 1], uptime), effects[|effects| - 1], uptime)
  }

  lemma {:induction false} LedAfterConcat(l: Led.LedState, a: seq<Effect>, b: seq<Effect>)
    ensures LedAfter(l, a + b) == LedAfter(LedAfter(l, a), b)
    decreases |b|
  {
    if b == [] {
      assert a + b == a;
    } else {
      LedAfterConcat(l, a, b[..|b| - 1]);
      assert (a + b)[..|a + b| - 1] == a + b[..|b| - 1];
    }
  }

  lemma {:induction false} VibAfterConcat(v: Vibration.VibState, a: seq<Effect>, b: seq<Effect>)
    ensures VibAfter(v, a + b) == VibAfter(VibAfter(v, a), b)
    decreases |b|
  {
    if b == [] {
      assert a + b == a;
    } else {
      VibAfterConcat(v, a, b[..|b| - 1]);
      assert (a + b)[..|a + b| - 1] == a + b[..|b| - 1];
    }
  }

  /** The effects of one iteration apart from the feedback touch neither driver. */
  lemma LeadIsInert(l: Led.LedState, v: Vibration.VibState, m: MonitorState, db: uint8)
    ensures LedAfter(l, [NotifyLevel(db)] + Accumulated(m, db).1) == l
    ensures VibAfter(v, [NotifyLevel(db)] + Accumulated(m, db).1) == v
  {
    var pushed := Accumulated(m, db).1;
    assert [NotifyLevel(db)][..0] == [];
    LedAfterConcat(l, [NotifyLevel(db)], pushed);
    VibAfterConcat(v, [NotifyLevel(db)], pushed);
    if pushed != [] {
      assert pushed[..0] == [];
    }
  }

  /** The switch-on calls, per mode bit. */
  lemma OnEffectsReachDrivers(l: Led.LedState, v: Vibration.VibState, mode: uint8)
    ensures LedAfter(l, OnEffects(mode)) == if LedEnabled(mode) then Led.Selected(l, Led.PulseWarm) else l
    ensures VibAfter(v, OnEffects(mode)) == if VibrationEnabled(mode) then Vibration.Played(v, Vibration.GentleTap) else v
  {
    var a: seq<Effect> := if LedEnabled(mode) then [SetLed(Led.PulseWarm)] else [];
    var b: seq<Effect> := if VibrationEnabled(mode) then [PlayVibration(Vibration.GentleTap)] else [];
    assert OnEffects(mode) == a + b;
    LedAfterConcat(l, a, b);
    VibAfterConcat(v, a, b);
    if a != [] {
      assert a[..0] == [];
    }
    if b != [] {
      assert b[..0] == [];
    }
  }

  /** The switch-off calls. */
  lemma OffEffectsReachDrivers(l: Led.LedState, v: Vibration.VibState)
    ensures LedAfter(l, [SetLed(Led.BreatheGreen), StopVibration]) == Led.Selected(l, Led.BreatheGreen)
    ensures VibAfter(v, [SetLed(Led.BreatheGreen), StopVibration]) == Vibration.Stopped(v)
  {
    var e := [SetLed(Led.BreatheGreen), StopVibration];
    assert e[..1] == [SetLed(Led.BreatheGreen)];
    assert e[..1][..0] == [];
    assert VibAfter(v, e[..1]) == v;
    assert VibAfter(v, e) == VibApplied(v, StopVibration);
  }

  /**
   * The iteration that switches feedback on with the LED bit set leaves
   * the LED restarted on PULSE_WARM; with the vibration bit set, the motor
   * restarted on GENTLE_TAP; a clear bit leaves that driver alone. The
   * iteration that switches feedback off leaves the LED restarted on
   * BREATHE_GREEN and the motor stopped, whatever the mode. Any other
   * iteration leaves both drivers alone.
   */
  lemma FeedbackReachesDrivers(m: MonitorState, db: uint8, cfg: Config,
                               l: Led.LedState, v: Vibration.VibState)
    ensures var r := Stepped(m, db, cfg).0;
      !m.feedbackActive && r.feedbackActive ==>
        && LedAfter(l, Stepped(m, db, cfg).1) ==
           (if LedEnabled(cfg.feedbackMode) then Led.Selected(l, Led.PulseWarm) else l)
        && VibAfter(v, Stepped(m, db, cfg).1) ==
           (if VibrationEnabled(cfg.feedbackMode) then Vibration.Played(v, Vibration.GentleTap) else v)
    ensures var r := Stepped(m, db, cfg).0;
      m.feedbackActive && !r.feedbackActive ==>
        && LedAfter(l, Stepped(m, db, cfg).1) == Led.Selected(l, Led.BreatheGreen)
        && VibAfter(v, Stepped(m, db, cfg).1) == Vibration.Stopped(v)
    ensures var r := Stepped(m, db, cfg).0;
      m.feedbackActive == r.feedbackActive ==>
        LedAfter(l, Stepped(m, db, cfg).1) == l && VibAfter(v, Stepped(m, db, cfg).1) == v
  {
    var s1 := Accumulated(m, db).0;
    var feedback := Compared(s1, db, cfg).1;
    var lead := [NotifyLevel(db)] + Accumulated(m, db).1;
    var e := Stepped(m, db, cfg).1;
    assert e == lead + feedback;
    assert Stepped(m, db, cfg).0 == Compared(s1, db, cfg).0;
    assert s1.feedbackActive == m.feedbackActive;
    LeadIsInert(l, v, m, db);
    LedAfterConcat(l, lead, feedback);
    VibAfterConcat(v, lead, feedback);
    if db >= cfg.thresholdDb && !m.feedbackActive && s1.overCount + 1 >= HYSTERESIS_COUNT {
      assert feedback == OnEffects(cfg.feedbackMode);
      OnEffectsReachDrivers(l, v, cfg.feedbackMode);
    } else if db < cfg.thresholdDb && m.feedbackActive && s1.underCount + 1 >= HYSTERESIS_COUNT {
      assert feedback == [SetLed(Led.BreatheGreen), StopVibration];
      OffEffectsReachDrivers(l, v);
    } else {
      assert feedback == [];
    }
  }

  /** The firmware's stateful components, as the monitor thread drives them. */
  class Firmware {
    const monitor: MonitorThread
    const cache: DataCache.Cache
    const led: Led.LedDriver
    const vib: Vibration.VibrationDriver

    ghost predicate Valid()
      reads this, cache, cache.cache, vib
    {
      cache.Valid() && vib.Valid()
    }

    /**
     * Boot up to monitor_start: the drivers initialised, the idle
     * BREATHE_GREEN pattern selected on the LED, the history empty.
     */
    constructor ()
      ensures Valid()
      ensures monitor.State() == Start && cache.Contents == []
      ensures led.State() == Led.Selected(Led.Idle, Led.BreatheGreen)
      ensures vib.State() == Vibration.Idle
    {
      monitor := new MonitorThread();
      cache := new DataCache.Cache();
      var l := new Led.LedDriver();
      l.SetPattern(Led.BreatheGreen);
      led := l;
      vib := new Vibration.VibrationDriver();
    }

    /** Carry out one effect; the level notification goes to BLE, which is not part of this model. */
    method Apply(e: Effect, uptime: nat)
      requires Valid()
      modifies cache, cache.cache, led, vib
      ensures Valid()
      ensures led.State() == LedApplied(old(led.State()), e)
      ensures vib.State() == VibApplied(old(vib.State()), e)
      ensures cache.Contents == CacheApplied(old(cache.Contents), e, uptime)
    {
      match e
      case NotifyLevel(_) =>
      case PushAverage(avg) =>
        cache.Push(avg, uptime);
      case SetLed(p) =>
        led.SetPattern(p);
      case PlayVibration(p) =>
        vib.Play(p);
      case StopVibration =>
        vib.Stop();
    }

    /** Carry out the effects in order. */
    method ApplyAll(effects: seq<Effect>, uptime: nat)
      requires Valid()
      modifies cache, cache.cache, led, vib
      ensures Valid()
      ensures led.State() == LedAfter(old(led.State()), effects)
      ensures vib.State() == VibAfter(old(vib.State()), effects)
      ensures cache.Contents == CacheAfter(old(cache.Contents), effects, uptime)
    {
      var i := 0;
      while i < |effects|
        invariant 0 <= i <= |effects|
        invariant Valid()
        invariant led.State() == LedAfter(old(led.State()), effects[..i])
        invariant vib.State() == VibAfter(old(vib.State()), effects[..i])
        invariant cache.Contents == CacheAfter(old(cache.Contents), effects[..i], uptime)
      {
        Apply(effects[i], uptime);
        assert effects[..i + 1][..i] == effects[..i];
        i := i + 1;
      }
      assert effects[..|effects|] == effects;
    }

    /**
     * One pass of the monitor loop (lines 46-102 of monitor.c) with the
     * calls it makes; uptime is the k_uptime_get value at the push.
     */
    method Iteration(read: BlockRead, cfg: Config, uptime: nat) returns (effects: seq<Effect>)
      requires Valid()
      requires read.Block? ==> |read.samples| < 0x1_0000_0000
      modifies monitor, cache, cache.cache, led, vib
      ensures Valid()
      ensures read.ReadFailed? ==> effects == [] && monitor.State() == old(monitor.State())
      ensures read.Block? ==>
                (monitor.State(), effects) == Stepped(old(monitor.State()), SoundLevel.BlockLevel(read.samples), cfg)
      ensures led.State() == LedAfter(old(led.State()), effects)
      ensures vib.State() == VibAfter(old(vib.State()), effects)
      ensures cache.Contents == CacheAfter(old(cache.Contents), effects, uptime)
    {
      effects := monitor.Iterate(read, cfg);
      ApplyAll(effects, uptime);
    }
  }
}
