/**
 * The monitor thread's loop body: read a block, reduce it to a level in
 * dB, notify the level, average every ten levels into the history, and
 * compare the level with the configured threshold using a three-block
 * hysteresis that switches the LED and vibration feedback on and off.
 *
 * The side effects of one iteration are returned as an ordered list of
 * Effect values; Firmware in device.dfy carries them out on the
 * cache, LED and vibration drivers.
 */
module Monitor {
  import opened Types
  import SoundLevel
  import Led
  import Vibration
  import Arith

  /** Consecutive blocks on one side of the threshold needed to switch. */
  const HYSTERESIS_COUNT: nat := 3
  /** Levels averaged into one history entry. */
  const AVERAGE_BLOCKS: nat := 10

  /** struct app_config, as app_config_get returns it. */
  datatype Config = Config(thresholdDb: uint8, feedbackMode: uint8)

  /** FEEDBACK_MODE_LED = BIT(0). */
  predicate LedEnabled(mode: uint8)
  {
    mode % 2 == 1
  }

  /** FEEDBACK_MODE_VIBRATION = BIT(1). */
  predicate VibrationEnabled(mode: uint8)
  {
    (mode / 2) % 2 == 1
  }

  /** What one iteration asks of the rest of the firmware, in call order. */
  datatype Effect =
    | NotifyLevel(db: uint8)              // config_service_notify_level
    | PushAverage(avg: uint8)             // data_cache_push
    | SetLed(pattern: Led.LedPattern)    // led_set_pattern
    | PlayVibration(vib: Vibration.VibPattern) // vibration_play
    | StopVibration                       // vibration_stop

  /** The outcome of pdm_capture_read: an error, or one block of samples. */
  datatype BlockRead = ReadFailed | Block(samples: seq<int16>)

  /** The thread's counters and flag. */
  datatype MonitorState = MonitorState(overCount: nat, underCount: nat, feedbackActive: bool,
                                       blockCount: nat, dbAccum: uint32)

  /** The values the thread starts with. */
  const Start: MonitorState := MonitorState(0, 0, false, 0, 0)

  /**
   * Lines 61-68: add db to the uint32 accumulator, and on the tenth block
   * push the truncated average and reset both.
   */
  function Accumulated(s: MonitorState, db: uint8): (MonitorState, seq<Effect>)
  {
    var acc: uint32 := (s.dbAccum + db) % 0x1_0000_0000;
    var n := s.blockCount + 1;
    if n >= AVERAGE_BLOCKS then (s.(blockCount := 0, dbAccum := 0), [PushAverage((acc / n) % 0x100)])
    else (s.(blockCount := n, dbAccum := acc), [])
  }

  /** The feedback started when the level has been high long enough, per the mode bits. */
  function OnEffects(mode: uint8): seq<Effect>
  {
    (if LedEnabled(mode) then [SetLed(Led.PulseWarm)] else [])
    + (if VibrationEnabled(mode) then [PlayVibration(Vibration.GentleTap)] else [])
  }

  /** Lines 74-102: the threshold comparison with hysteresis. */
  function Compared(s: MonitorState, db: uint8, cfg: Config): (MonitorState, seq<Effect>)
  {
    if db >= cfg.thresholdDb then
      var s1 := s.(overCount := s.overCount + 1, underCount := 0);
      if !s1.feedbackActive && s1.overCount >= HYSTERESIS_COUNT then
        (s1.(feedbackActive := true), OnEffects(cfg.feedbackMode))
      else (s1, [])
    else
      var s1 := s.(underCount := s.underCount + 1, overCount := 0);
      if s1.feedbackActive && s1.underCount >= HYSTERESIS_COUNT then
        (s1.(feedbackActive := false), [SetLed(Led.BreatheGreen), StopVibration])
      else (s1, [])
  }

  /** The iteration after a successful read, given the block's level. */
  function Stepped(s: MonitorState, db: uint8, cfg: Config): (MonitorState, seq<Effect>)
  {
    var (s1, pushed) := Accumulated(s, db);
    var (s2, feedback) := Compared(s1, db, cfg);
    (s2, [NotifyLevel(db)] + pushed + feedback)
  }

  /** Consecutive successful iterations with levels dbs and a fixed configuration. */
  function Run(s: MonitorState, dbs: seq<uint8>, cfg: Config): (MonitorState, seq<Effect>)
    decreases |dbs|
  {
    if dbs == [] then (s, [])
    else
      var (s1, e1) := Stepped(s, dbs[0], cfg);
      var (s2, e2) := Run(s1, dbs[1..], cfg);
      (s2, e1 + e2)
  }

  /** The averages an effect list pushes, in order. */
  function Averages(effects: seq<Effect>): seq<uint8>
  {
    if effects == [] then []
    else (if effects[0].PushAverage? then [effects[0].avg] else []) + Averages(effects[1..])
  }

  /** The states the loop reaches: at most one counter is positive, the averaging window is open. */
  ghost predicate Reachable(s: MonitorState)
  {
    && (s.overCount == 0 || s.underCount == 0)
    && s.blockCount < AVERAGE_BLOCKS
    && s.dbAccum <= 255 * s.blockCount
  }

  /** Sum of a run of levels. */
  function Sum(dbs: seq<uint8>): nat
  {
    if dbs == [] then 0 else dbs[0] + Sum(dbs[1..])
  }

  lemma {:induction false} SumBound(dbs: seq<uint8>, m: nat)
    requires forall i :: 0 <= i < |dbs| ==> dbs[i] <= m
    ensures Sum(dbs) <= m * |dbs|
  {
    if dbs != [] {
      SumBound(dbs[1..], m);
    }
  }

  /** Where an effect may appear in one iteration's list: notify, then push, then feedback. */
  function Rank(e: Effect): nat
  {
    match e
    case NotifyLevel(_) => 0
    case PushAverage(_) => 1
    case _ => 2
  }

  /**
   * After any block exactly one counter is positive: the over-counter
   * grows while the level is at or above the threshold and the
   * under-counter otherwise, and each resets the other.
   */
  lemma CountersOnOneSide(s: MonitorState, db: uint8, cfg: Config)
    ensures Stepped(s, db, cfg).0.overCount == if db >= cfg.thresholdDb then s.overCount + 1 else 0
    ensures Stepped(s, db, cfg).0.underCount == if db >= cfg.thresholdDb then 0 else s.underCount + 1
    ensures (Stepped(s, db, cfg).0.overCount > 0) != (Stepped(s, db, cfg).0.underCount > 0)
  {
  }

  /** The loop keeps its state reachable, and its uint32 accumulator never wraps. */
  lemma ReachablePreserved(s: MonitorState, db: uint8, cfg: Config)
    requires Reachable(s)
    ensures Reachable(Stepped(s, db, cfg).0)
    ensures s.dbAccum + db < 0x1_0000_0000
    ensures Reachable(Start)
  {
  }

  /**
   * Feedback switches on exactly when it was off, the level is at or above
   * the threshold and this is the third such block in a row; it switches
   * off exactly when it was on, the level is below and this is the third
   * such block in a row. It changes in no other case.
   */
  lemma SwitchConditions(s: MonitorState, db: uint8, cfg: Config)
    ensures var r := Stepped(s, db, cfg).0;
      (!s.feedbackActive && r.feedbackActive) <==>
      (!s.feedbackActive && db >= cfg.thresholdDb && s.overCount + 1 >= HYSTERESIS_COUNT)
    ensures var r := Stepped(s, db, cfg).0;
      (s.feedbackActive && !r.feedbackActive) <==>
      (s.feedbackActive && db < cfg.thresholdDb && s.underCount + 1 >= HYSTERESIS_COUNT)
  {
  }

  /**
   * The feedback calls of one iteration: the warm pulse and the gentle tap
   * are started on the switch-on, each only when its mode bit is set;
   * the switch-off restores the green breathe and stops the motor whatever
   * the mode, in that order, as the last two calls. The level is notified
   * first and only once, and no effect kind appears before one of lower rank.
   */
  lemma FeedbackEffects(s: MonitorState, db: uint8, cfg: Config)
    ensures var (r, e) := Stepped(s, db, cfg);
      && (SetLed(Led.PulseWarm) in e <==> !s.feedbackActive && r.feedbackActive && LedEnabled(cfg.feedbackMode))
      && (PlayVibration(Vibration.GentleTap) in e <==>
           !s.feedbackActive && r.feedbackActive && VibrationEnabled(cfg.feedbackMode))
      && (SetLed(Led.BreatheGreen) in e <==> s.feedbackActive && !r.feedbackActive)
      && (StopVibration in e <==> s.feedbackActive && !r.feedbackActive)
    ensures var e := Stepped(s, db, cfg).1;
      && e[0] == NotifyLevel(db)
      && (forall i :: 1 <= i < |e| ==> !e[i].NotifyLevel?)
      && forall i, j :: 0 <= i < j < |e| ==> Rank(e[i]) <= Rank(e[j])
    ensures var (r, e) := Stepped(s, db, cfg);
      s.feedbackActive && !r.feedbackActive ==>
        e[|e| - 2] == SetLed(Led.BreatheGreen) && e[|e| - 1] == StopVibration
  {
    var (s1, pushed) := Accumulated(s, db);
    var (r, feedback) := Compared(s1, db, cfg);
    var e := Stepped(s, db, cfg).1;
    assert e == [NotifyLevel(db)] + pushed + feedback;
    assert forall k :: 0 <= k < |pushed| ==> Rank(pushed[k]) == 1;
    assert forall k :: 0 <= k < |feedback| ==> Rank(feedback[k]) == 2;
  }

  /**
   * A run of blocks at or above the threshold: the over-counter rises by
   * one per block and feedback is on at the end exactly when it was on
   * before or the over-count has reached three.
   */
  lemma {:induction false} LoudRun(s: MonitorState, dbs: seq<uint8>, cfg: Config)
    requires |dbs| > 0
    requires forall i :: 0 <= i < |dbs| ==> dbs[i] >= cfg.thresholdDb
    ensures Run(s, dbs, cfg).0.overCount == s.overCount + |dbs|
    ensures Run(s, dbs, cfg).0.underCount == 0
    ensures Run(s, dbs, cfg).0.feedbackActive == (s.feedbackActive || s.overCount + |dbs| >= HYSTERESIS_COUNT)
    decreases |dbs|
  {
    var s1 := Stepped(s, dbs[0], cfg).0;
    if |dbs| > 1 {
      LoudRun(s1, dbs[1..], cfg);
    }
  }

  /**
   * A run of blocks below the threshold: the under-counter rises by one
   * per block and feedback is on at the end exactly when it was on before
   * and the under-count is still below three.
   */
  lemma {:induction false} QuietRun(s: MonitorState, dbs: seq<uint8>, cfg: Config)
    requires |dbs| > 0
    requires forall i :: 0 <= i < |dbs| ==> dbs[i] < cfg.thresholdDb
    ensures Run(s, dbs, cfg).0.underCount == s.underCount + |dbs|
    ensures Run(s, dbs, cfg).0.overCount == 0
    ensures Run(s, dbs, cfg).0.feedbackActive == (s.feedbackActive && s.underCount + |dbs| < HYSTERESIS_COUNT)
    decreases |dbs|
  {
    var s1 := Stepped(s, dbs[0], cfg).0;
    if |dbs| > 1 {
      QuietRun(s1, dbs[1..], cfg);
    }
  }

  lemma {:induction false} AveragesConcat(a: seq<Effect>, b: seq<Effect>)
    ensures Averages(a + b) == Averages(a) + Averages(b)
    decreases |a|
  {
    if a == [] {
      assert a + b == b;
    } else {
      var h := if a[0].PushAverage? then [a[0].avg] else [];
      assert (a + b)[0] == a[0];
      assert (a + b)[1..] == a[1..] + b;
      assert Averages(a + b) == h + Averages(a[1..] + b);
      AveragesConcat(a[1..], b);
      assert Averages(a) == h + Averages(a[1..]);
    }
  }

  /** The averages one iteration pushes are those of its accumulation step. */
  lemma SteppedAverages(s: MonitorState, db: uint8, cfg: Config)
    ensures Averages(Stepped(s, db, cfg).1) == Averages(Accumulated(s, db).1)
    ensures Stepped(s, db, cfg).0.blockCount == Accumulated(s, db).0.blockCount
    ensures Stepped(s, db, cfg).0.dbAccum == Accumulated(s, db).0.dbAccum
  {
    var (s1, pushed) := Accumulated(s, db);
    var (r, feedback) := Compared(s1, db, cfg);
    AveragesConcat([NotifyLevel(db)] + pushed, feedback);
    AveragesConcat([NotifyLevel(db)], pushed);
    assert Averages(feedback) == [] by {
      if |feedback| == 2 {
        assert feedback[1..][1..] == [];
      } else if |feedback| == 1 {
        assert feedback[1..] == [];
      }
    }
  }

  /** Lines 61-68 on a reachable state, without the wrap-arounds that cannot happen there. */
  lemma AccumulatedExactly(s: MonitorState, db: uint8)
    requires s.blockCount < AVERAGE_BLOCKS && s.dbAccum <= 255 * s.blockCount
    ensures s.blockCount + 1 < AVERAGE_BLOCKS ==>
              && Accumulated(s, db).0.blockCount == s.blockCount + 1
              && Accumulated(s, db).0.dbAccum == s.dbAccum + db
              && Averages(Accumulated(s, db).1) == []
    ensures s.blockCount + 1 == AVERAGE_BLOCKS ==>
              && Accumulated(s, db).0.blockCount == 0
              && Accumulated(s, db).0.dbAccum == 0
              && Averages(Accumulated(s, db).1) == [(s.dbAccum + db) / AVERAGE_BLOCKS]
  {
    if s.blockCount + 1 == AVERAGE_BLOCKS {
      Arith.DivBelow(s.dbAccum + db, AVERAGE_BLOCKS, 255);
      var e := Accumulated(s, db).1;
      assert e[1..] == [];
    }
  }

  /** Run unfolded once, on the part of the state and effects the averaging concerns. */
  lemma RunHead(s: MonitorState, dbs: seq<uint8>, cfg: Config)
    requires dbs != []
    ensures var s1 := Stepped(s, dbs[0], cfg).0;
      && Run(s, dbs, cfg).0 == Run(s1, dbs[1..], cfg).0
      && Averages(Run(s, dbs, cfg).1) == Averages(Stepped(s, dbs[0], cfg).1) + Averages(Run(s1, dbs[1..], cfg).1)
  {
    var s1 := Stepped(s, dbs[0], cfg).0;
    AveragesConcat(Stepped(s, dbs[0], cfg).1, Run(s1, dbs[1..], cfg).1);
  }

  /**
   * The averaging window: blocks accumulate until the tenth of the window,
   * which pushes the accumulated sum divided by ten (exactly, since the
   * sum neither wraps nor exceeds a byte after division) and resets.
   */
  lemma {:induction false} AverageWindow(s: MonitorState, dbs: seq<uint8>, cfg: Config)
    requires s.blockCount + |dbs| <= AVERAGE_BLOCKS
    requires s.dbAccum <= 255 * s.blockCount
    ensures s.blockCount + |dbs| < AVERAGE_BLOCKS ==>
              && Run(s, dbs, cfg).0.blockCount == s.blockCount + |dbs|
              && Run(s, dbs, cfg).0.dbAccum == s.dbAccum + Sum(dbs)
              && Averages(Run(s, dbs, cfg).1) == []
    ensures s.blockCount + |dbs| == AVERAGE_BLOCKS && |dbs| > 0 ==>
              && Run(s, dbs, cfg).0.blockCount == 0
              && Run(s, dbs, cfg).0.dbAccum == 0
              && Averages(Run(s, dbs, cfg).1) == [(s.dbAccum + Sum(dbs)) / AVERAGE_BLOCKS]
    decreases |dbs|
  {
    if dbs != [] {
      var s1 := Stepped(s, dbs[0], cfg).0;
      RunHead(s, dbs, cfg);
      SteppedAverages(s, dbs[0], cfg);
      AccumulatedExactly(s, dbs[0]);
      if s.blockCount + 1 == AVERAGE_BLOCKS {
        assert dbs[1..] == [];
        assert Sum(dbs) == dbs[0];
        assert Run(s1, dbs[1..], cfg) == (s1, []);
        assert Averages(Run(s, dbs, cfg).1) == Averages(Accumulated(s, dbs[0]).1) + [];
      } else {
        AverageWindow(s1, dbs[1..], cfg);
        assert s.blockCount + |dbs| == s1.blockCount + |dbs[1..]|;
        assert s.dbAccum + Sum(dbs) == s1.dbAccum + Sum(dbs[1..]);
      }
    }
  }

  /**
   * Ten blocks from an empty window push one history entry, the truncated
   * mean of their levels, which is no louder than the loudest of them: in
   * particular at most 90 dB, the ceiling of the level conversion.
   */
  lemma TenBlockAverage(s: MonitorState, dbs: seq<uint8>, cfg: Config, m: nat)
    requires s.blockCount == 0 && s.dbAccum == 0
    requires |dbs| == AVERAGE_BLOCKS
    requires forall i :: 0 <= i < |dbs| ==> dbs[i] <= m
    ensures Averages(Run(s, dbs, cfg).1) == [Sum(dbs) / AVERAGE_BLOCKS]
    ensures Sum(dbs) / AVERAGE_BLOCKS <= m
  {
    AverageWindow(s, dbs, cfg);
    SumBound(dbs, m);
    Arith.DivBelow(Sum(dbs), AVERAGE_BLOCKS, m);
  }

  /** Stepped(s, db, cfg) is the state s1 with the effects e. */
  predicate Yields(s: MonitorState, db: uint8, cfg: Config, s1: MonitorState, e: seq<Effect>)
  {
    Stepped(s, db, cfg).0 == s1 && Stepped(s, db, cfg).1 == e
  }

  /** The configuration of the threshold scenario: 70 dB, LED and vibration enabled. */
  const ScenarioConfig: Config := Config(70, 3)

  /**
   * Threshold 70 dB, both feedback kinds enabled, levels
   * 65, 68, 71, 72, 73, 69, 60, 58 from the start, block by block: the
   * fifth block (the third at or above 70) starts the warm pulse and the
   * tap, the eighth (the third below) restores the breathe and stops the
   * motor; every other block only notifies its level.
   */
  lemma ThresholdScenario()
    ensures Yields(Start, 65, ScenarioConfig,
            MonitorState(0, 1, false, 1, 65), [NotifyLevel(65)])
    ensures Yields(MonitorState(0, 1, false, 1, 65), 68, ScenarioConfig,
            MonitorState(0, 2, false, 2, 133), [NotifyLevel(68)])
    ensures Yields(MonitorState(0, 2, false, 2, 133), 71, ScenarioConfig,
            MonitorState(1, 0, false, 3, 204), [NotifyLevel(71)])
    ensures Yields(MonitorState(1, 0, false, 3, 204), 72, ScenarioConfig,
            MonitorState(2, 0, false, 4, 276), [NotifyLevel(72)])
    ensures Yields(MonitorState(2, 0, false, 4, 276), 73, ScenarioConfig,
            MonitorState(3, 0, true, 5, 349),
             [NotifyLevel(73), SetLed(Led.PulseWarm), PlayVibration(Vibration.GentleTap)])
    ensures Yields(MonitorState(3, 0, true, 5, 349), 69, ScenarioConfig,
            MonitorState(0, 1, true, 6, 418), [NotifyLevel(69)])
    ensures Yields(MonitorState(0, 1, true, 6, 418), 60, ScenarioConfig,
            MonitorState(0, 2, true, 7, 478), [NotifyLevel(60)])
    ensures Yields(MonitorState(0, 2, true, 7, 478), 58, ScenarioConfig,
            MonitorState(0, 3, false, 8, 536),
             [NotifyLevel(58), SetLed(Led.BreatheGreen), StopVibration])
  {
  }

  /** The scenario as one run: its final state and the whole ordered effect list. */
  lemma ThresholdScenarioRun()
    ensures Run(Start, [65, 68, 71, 72, 73, 69, 60, 58], ScenarioConfig).0 == MonitorState(0, 3, false, 8, 536)
    ensures Run(Start, [65, 68, 71, 72, 73, 69, 60, 58], ScenarioConfig).1 ==
            [NotifyLevel(65), NotifyLevel(68), NotifyLevel(71), NotifyLevel(72),
             NotifyLevel(73), SetLed(Led.PulseWarm), PlayVibration(Vibration.GentleTap),
             NotifyLevel(69), NotifyLevel(60),
             NotifyLevel(58), SetLed(Led.BreatheGreen), StopVibration]
  {
    ThresholdScenario();
    var c := ScenarioConfig;
    RunCons(MonitorState(0, 2, true, 7, 478), [58], c, MonitorState(0, 3, false, 8, 536), [NotifyLevel(58), SetLed(Led.BreatheGreen), StopVibration]);
    RunCons(MonitorState(0, 1, true, 6, 418), [60, 58], c, MonitorState(0, 2, true, 7, 478), [NotifyLevel(60)]);
    RunCons(MonitorState(3, 0, true, 5, 349), [69, 60, 58], c, MonitorState(0, 1, true, 6, 418), [NotifyLevel(69)]);
    RunCons(MonitorState(2, 0, false, 4, 276), [73, 69, 60, 58], c, MonitorState(3, 0, true, 5, 349), [NotifyLevel(73), SetLed(Led.PulseWarm), PlayVibration(Vibration.GentleTap)]);
    RunCons(MonitorState(1, 0, false, 3, 204), [72, 73, 69, 60, 58], c, MonitorState(2, 0, false, 4, 276), [NotifyLevel(72)]);
    RunCons(MonitorState(0, 2, false, 2, 133), [71, 72, 73, 69, 60, 58], c, MonitorState(1, 0, false, 3, 204), [NotifyLevel(71)]);
    RunCons(MonitorState(0, 1, false, 1, 65), [68, 71, 72, 73, 69, 60, 58], c, MonitorState(0, 2, false, 2, 133), [NotifyLevel(68)]);
    RunCons(Start, [65, 68, 71, 72, 73, 69, 60, 58], c, MonitorState(0, 1, false, 1, 65), [NotifyLevel(65)]);
  }

  /** One iteration with a known outcome, followed by the rest of the run. */
  lemma RunCons(s: MonitorState, dbs: seq<uint8>, cfg: Config, s1: MonitorState, e1: seq<Effect>)
    requires dbs != []
    requires Yields(s, dbs[0], cfg, s1, e1)
    ensures Run(s, dbs, cfg).0 == Run(s1, dbs[1..], cfg).0
    ensures Run(s, dbs, cfg).1 == e1 + Run(s1, dbs[1..], cfg).1
  {
  }

  class MonitorThread {
    var overCount: nat
    var underCount: nat
    var feedbackActive: bool
    var blockCount: nat
    var dbAccum: uint32

    function State(): MonitorState
      reads this
    {
      MonitorState(overCount, underCount, feedbackActive, blockCount, dbAccum)
    }

    constructor ()
      ensures State() == Start
    {
      overCount, underCount, feedbackActive := 0, 0, false;
      blockCount, dbAccum := 0, 0;
    }

    /** One iteration after a successful read whose block measured db. */
    method Step(db: uint8, cfg: Config) returns (effects: seq<Effect>)
      modifies this
      ensures (State(), effects) == Stepped(old(State()), db, cfg)
    {
      ghost var s0 := State();
      effects := [NotifyLevel(db)];

      dbAccum := (dbAccum + db) % 0x1_0000_0000;
      blockCount := blockCount + 1;
      if blockCount >= AVERAGE_BLOCKS {
        var avgDb: uint8 := (dbAccum / blockCount) % 0x100;
        effects := effects + [PushAverage(avgDb)];
        blockCount := 0;
        dbAccum := 0;
      }
      ghost var s1 := State();
      ghost var pushed := effects[1..];
      assert s1 == Accumulated(s0, db).0;
      assert pushed == Accumulated(s0, db).1;
      assert effects == [NotifyLevel(db)] + pushed;

      var feedback: seq<Effect> := [];
      if db >= cfg.thresholdDb {
        overCount := overCount + 1;
        underCount := 0;
        if !feedbackActive && overCount >= HYSTERESIS_COUNT {
          feedbackActive := true;
          if LedEnabled(cfg.feedbackMode) {
            feedback := feedback + [SetLed(Led.PulseWarm)];
          }
          if VibrationEnabled(cfg.feedbackMode) {
            feedback := feedback + [PlayVibration(Vibration.GentleTap)];
          }
        }
      } else {
        underCount := underCount + 1;
        overCount := 0;
        if feedbackActive && underCount >= HYSTERESIS_COUNT {
          feedbackActive := false;
          feedback := [SetLed(Led.BreatheGreen), StopVibration];
        }
      }
      assert State() == Compared(s1, db, cfg).0;
      assert feedback == Compared(s1, db, cfg).1;
      effects := effects + feedback;
    }

    /**
     * Lines 46-102 of monitor.c: a failed read changes nothing (the thread
     * sleeps and retries); otherwise the block's RMS and level are computed
     * and the iteration proceeds with that level.
     */
    method Iterate(read: BlockRead, cfg: Config) returns (effects: seq<Effect>)
      requires read.Block? ==> |read.samples| < 0x1_0000_0000
      modifies this
      ensures read.ReadFailed? ==> effects == [] && State() == old(State())
      ensures read.Block? ==> (State(), effects) == Stepped(old(State()), SoundLevel.BlockLevel(read.samples), cfg)
    {
      match read
      case ReadFailed =>
        effects := [];
      case Block(samples) =>
        var rms := SoundLevel.Rms(samples);
        var db := SoundLevel.RmsToDb(rms);
        effects := Step(db, cfg);
    }
  }
}
