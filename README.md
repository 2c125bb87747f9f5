# inside_voice firmware core, modelled in Dafny

inside_voice is a wearable that listens through a PDM microphone. It
estimates how loud the last block of audio was and nudges its wearer with
an LED pattern and a vibration when they stay too loud. This project
models the firmware's core and proves properties of that model:

- **Sound level** (`sound_level.dfy`, module `SoundLevel`):
  - The integer RMS amplitude of a block of signed 16-bit samples, with
    the sum of squares in a 64-bit accumulator and Newton's integer square
    root.
  - The 4.4 fixed-point base-2 logarithm `ilog2_fixed4` and its lookup
    table.
  - The conversion of an RMS amplitude to a pseudo-SPL decibel value
    clamped to 0..90.
  - The two loops are methods: `Rms` and `NewtonSqrt` for the square root,
    `ILog2Fixed4` for the shift loop. Each is proved equal to a reference
    function: `BlockRms`/`FloorSqrt` and `Log2Fixed4`.
- **Sample history** (`data_cache.dfy`, module `DataCache`):
  - The 8000-entry ring of `(uptime_ms, db)` samples, written as a class
    over an `array`.
  - A ghost sequence `Contents` holds the retained samples, oldest first.
  - The class invariant ties the array, `head`, `tail` and `count` to that
    sequence.
  - `Push` is proved to leave the newest 8000 pushes (`Pushed`, `PushAll`).
  - `Get` is proved to read logical index `idx` from slot
    `(tail + idx) % 8000`.
- **LED driver** (`led.dfy`, module `Led`):
  - The work-item pattern engine (`pattern_handler`), `led_set_pattern`
    and `leds_all_off`.
  - Modelled as a state record with one pure function per operation, plus
    a class whose methods update the same fields in place.
  - The state includes the delay of the queued handler run.
- **Vibration driver** (`vibration.dfy`, module `Vibration`):
  - `vib_set_intensity` with its 32-bit pulse computation, the pattern
    handler `vib_handler`, `vibration_play` and `vibration_stop`, built the
    same way as the LED driver.
- **Monitor loop** (`monitor.dfy`, module `Monitor`):
  - One pass of the monitor thread's loop (`monitor.c` lines 46-102). A
    failed read does nothing. Otherwise the pass computes the level,
    notifies it, averages every ten levels into the history, and applies
    the three-block hysteresis that switches feedback on and off.
  - The pure function `Stepped` returns the new thread state together with
    the ordered list of calls the pass makes (`Effect` values).
  - The class `MonitorThread` updates the thread's counters in place.
- **Putting it together** (`device.dfy`, module `Device`):
  - `Firmware.Iteration` runs one pass and carries out its effects, in
    order, on the history, the LED driver and the vibration driver.
  - `FeedbackReachesDrivers` states what a pass does to the two drivers.

`types.dfy` holds the C integer types as subset types and an `Option` type.
`arith.dfy` holds small arithmetic lemmas (division, squares).

### How the code and its comments differ (the model follows the code)

- `firmware/src/audio/sound_level.c:108`: the comment expects
  `ilog2_fixed4(32767)` to be about 240. The code gives
  `14 << 4 | 15 = 239`, so a full-scale RMS maps to exactly 90 dB
  (`SoundLevel.ReferenceLog`).
- `firmware/src/audio/sound_level.h:12`: the header promises an RMS of
  0..32767. A block of -32768 samples has RMS 32768
  (`SoundLevel.FullScaleNegativeRms`). The clamp to `UINT16_MAX` never
  takes effect (`SoundLevel.BlockRms` ensures `r <= 0x8000`). The level
  conversion is correct for that value as well.
- `firmware/src/audio/sound_level.h:21`: the header calls 30..90 dB the
  practical range. The lower clamp of `sound_level_rms_to_db` never takes
  effect: an RMS of 1 gives exactly 0 dB (`SoundLevel.RmsToDbUnclampedBelow`).
- `firmware/src/audio/sound_level.c:91` combines the integer and fraction
  parts with `|`. The model adds them instead; the two agree because the
  low nibble of `int_part << 4` is zero.
- `firmware/src/audio/sound_level.c:114` shifts a possibly negative
  product right by 4. The model reads this as an arithmetic shift, which
  is floor division by 16 (Dafny's `/` with a positive divisor).

## Model

| member | source | states |
|---|---|---|
| SoundLevel.FloorSqrt | firmware/src/audio/sound_level.c:31-45 | the integer square root of n: r*r <= n < (r+1)*(r+1) |
| SoundLevel.BlockRms | firmware/src/audio/sound_level.c:16-48 | RMS of a block: the floor square root of the floor mean of squares (0 for an empty block), never above 0x8000 |
| SoundLevel.NewtonSqrt | firmware/src/audio/sound_level.c:36-45 | Newton's iteration from x, stepping while (y + x/y)/2 decreases, ends on the floor square root of x without uint32 overflow |
| SoundLevel.Rms | firmware/src/audio/sound_level.c:16-48 | the accumulate-then-Newton procedure returns BlockRms; the int32 squares and the uint64 sum never overflow |
| SoundLevel.FullScaleNegativeRms | firmware/src/audio/sound_level.c:16-48 | a non-empty block of -32768 samples has RMS exactly 32768 |
| SoundLevel.SilenceRms | firmware/src/audio/sound_level.c:29-34 | a block of zeros has RMS 0 |
| SoundLevel.Mantissa | firmware/src/audio/sound_level.c:81-88 | the leading one and the four bits below it, as a number in 16..31 |
| SoundLevel.FracBitsByRightShift | firmware/src/audio/sound_level.c:84-85 | for a leading one at bit k >= 4, (val >> (k-4)) & 0x0F is the four bits below it |
| SoundLevel.FracBitsByLeftShift | firmware/src/audio/sound_level.c:86-88 | for a leading one at bit k < 4, (val << (4-k)) & 0x0F is the four bits below it |
| SoundLevel.ILog2Fixed4 | firmware/src/audio/sound_level.c:62-92 | the shift-count loop and the table lookup return Log2Fixed4(val) |
| SoundLevel.Log2Fixed4Meaning | firmware/src/audio/sound_level.c:67-92 | for v > 0 the high nibble is floor(log2 v) and the low nibble f puts 16v between 2^k(16+f) and 2^k(17+f) |
| SoundLevel.Log2Fixed4Mono | firmware/src/audio/sound_level.c:67-92 | the fixed-point log2 never decreases as its argument grows |
| SoundLevel.RmsToDb | firmware/src/audio/sound_level.c:94-120 | the level is at most 90 dB |
| SoundLevel.ReferenceLog | firmware/src/audio/sound_level.c:107-111 | the reference log of 32767 is 239, and RMS 32767 reads exactly 90 dB |
| SoundLevel.RmsToDbMono | firmware/src/audio/sound_level.c:94-120 | a larger RMS never reads fewer decibels |
| SoundLevel.RmsToDbUnclampedBelow | firmware/src/audio/sound_level.c:110-119 | for rms > 0 the unclamped value is never negative, so only the upper clamp can apply |
| SoundLevel.BlockLevel | firmware/src/app/monitor.c:52-54 | a block's level is at most 90 dB |
| SoundLevel.SilenceLevel | firmware/src/audio/sound_level.c:96-98 | a silent block reads 0 dB |
| SoundLevel.BlockLevelMono | firmware/src/app/monitor.c:53-54 | of two blocks, the one with the larger RMS never reads fewer decibels |
| DataCache.PushedKeepsNewest | firmware/src/app/data_cache.c:20-36 | one push leaves the newest 8000 entries of the old history followed by the new sample |
| DataCache.PushAllKeepsNewest | firmware/src/app/data_cache.c:20-36 | any run of pushes leaves the newest 8000 entries of the old history followed by the pushed samples |
| DataCache.OverflowEvictsOldest | firmware/src/app/data_cache.c:24-27 | after 8000 + k pushes into an empty history, it is full and starts with the k-th pushed sample |
| DataCache.ModIsWrap | firmware/src/app/data_cache.c:26-33 | on ring indices below 16000, % CACHE_MAX_SAMPLES subtracts 8000 at most once |
| DataCache.HoldsPushed | firmware/src/app/data_cache.c:24-33 | storing at the slot after the last entry, and moving tail on when full, makes the ring hold the pushed history |
| DataCache.Cache.constructor | firmware/src/app/data_cache.c:4-7 | the zeroed static storage is a valid, empty history |
| DataCache.Cache.Init | firmware/src/app/data_cache.c:11-18 | head, tail and count are 0 and the history is empty |
| DataCache.Cache.Push | firmware/src/app/data_cache.c:20-36 | the history becomes Pushed(old history, (uptime mod 2^32, db)); count grows, or tail advances when full; head advances modulo 8000 |
| DataCache.Cache.Count | firmware/src/app/data_cache.c:38-44 | the number of retained samples |
| DataCache.Cache.Get | firmware/src/app/data_cache.c:46-60 | found exactly when idx < count; the sample is the idx-th oldest, read from slot (tail + idx) % 8000; otherwise *out is unchanged |
| DataCache.Cache.Clear | firmware/src/app/data_cache.c:62-69 | head, tail and count are 0 and the history is empty |
| Led.SelectForgetsPrevious | firmware/src/feedback/led.c:106-117 | led_set_pattern leaves the same state whatever ran before: all dark, pattern p at step 0, run due immediately |
| Led.OnlyOwnColour | firmware/src/feedback/led.c:33-78 | a handler run drives only its own pattern's colour; OFF drives all three low and is the only pattern that queues no run |
| Led.PulseWarmForever | firmware/src/feedback/led.c:43-48 | after n runs PULSE_WARM is still active, red shows the parity of the last step, the next run is 250 ms away |
| Led.BreatheGreenCycle | firmware/src/feedback/led.c:50-61 | BREATHE_GREEN alternates forever: green lit for 700 ms after an even step, dark for 300 ms after an odd one |
| Led.FlashBlueThenBreathe | firmware/src/feedback/led.c:63-76 | FLASH_BLUE writes blue 0,1,0,1,0,1 at 100 ms, then hands over to BREATHE_GREEN after 200 ms, whose first run lights green for 700 ms |
| Led.FlashPhase | firmware/src/feedback/led.c:65-68 | the k-th FLASH_BLUE run (k <= 6) leaves step k, blue = odd(k-1), next run in 100 ms |
| Led.LedDriver.constructor | firmware/src/feedback/led.c:93-98 | pins inactive, pattern OFF at step 0, nothing queued |
| Led.LedDriver.AllOff | firmware/src/feedback/led.c:26-31 | all three pins low, nothing else changed |
| Led.LedDriver.SetPattern | firmware/src/feedback/led.c:106-117 | the state becomes Selected(old state, pattern) |
| Led.LedDriver.Handler | firmware/src/feedback/led.c:33-78 | the state becomes Handled(old state) |
| Vibration.PulseIsPercentOfPeriod | firmware/src/feedback/vibration.c:17-24 | for pct <= 100 the 32-bit pulse width is exactly pct per cent of the 20 ms period, and zero only for pct = 0 |
| Vibration.DutyBounded | firmware/src/feedback/vibration.c:26-86 | no handler run drives the motor above 60 %, so the pulse never exceeds the period; play and stop write 0 % |
| Vibration.PatternEnds | firmware/src/feedback/vibration.c:26-86 | every pattern ends from any state: Remaining(s) - 1 runs each queue another, and the next queues nothing and leaves 0 % |
| Vibration.PlayedLength | firmware/src/feedback/vibration.c:104-113 | the patterns vibration_play starts take 1, 2, 4 and 10 handler runs |
| Vibration.GentleTapTrace | firmware/src/feedback/vibration.c:36-45 | GENTLE_TAP: 60 % for 80 ms, then off with nothing queued |
| Vibration.DoubleTapTrace | firmware/src/feedback/vibration.c:47-69 | DOUBLE_TAP: 60 % for 60 ms, 0 % for 80 ms, 60 % for 60 ms, then off with nothing queued |
| Vibration.SoftPulseRamp | firmware/src/feedback/vibration.c:71-84 | SOFT_PULSE: runs 1..9 write 10,20,30,40,50,40,30,20,10 % 60 ms apart, the tenth writes 0 % and queues nothing |
| Vibration.RampShape | firmware/src/feedback/vibration.c:72-80 | the soft ramp peaks at 50 % on step 4, is symmetric, rising before and falling after |
| Vibration.StopIsFinal | firmware/src/feedback/vibration.c:115-120 | after vibration_stop the motor is off, nothing is queued, and a late handler run changes nothing |
| Vibration.VibrationDriver.constructor | firmware/src/feedback/vibration.c:95-96 | motor at 0 % with the matching PWM pulse, pattern OFF, nothing queued |
| Vibration.VibrationDriver.SetIntensity | firmware/src/feedback/vibration.c:19-24 | only the duty changes, and the PWM pulse is the 32-bit formula for it |
| Vibration.VibrationDriver.Play | firmware/src/feedback/vibration.c:104-113 | the state becomes Played(old state, pattern) |
| Vibration.VibrationDriver.Stop | firmware/src/feedback/vibration.c:115-120 | the state becomes Stopped(old state) |
| Vibration.VibrationDriver.Handler | firmware/src/feedback/vibration.c:26-86 | the state becomes Handled(old state) |
| Monitor.CountersOnOneSide | firmware/src/app/monitor.c:74-102 | at or above threshold the over-count grows and the under-count resets, below it the reverse; exactly one is positive afterwards |
| Monitor.ReachablePreserved | firmware/src/app/monitor.c:61-102 | a pass keeps at most one counter positive and the window below ten blocks, and the uint32 accumulator never wraps |
| Monitor.SwitchConditions | firmware/src/app/monitor.c:74-102 | feedback switches on exactly on the third block in a row at or above the threshold while off, and off exactly on the third below while on |
| Monitor.FeedbackEffects | firmware/src/app/monitor.c:58-102 | warm pulse and gentle tap are started exactly on switch-on with their mode bit set; breathe and stop exactly on switch-off, as the last two calls in that order; the level is notified first and exactly once, then the push, then the feedback |
| Monitor.LoudRun | firmware/src/app/monitor.c:74-89 | over a run of loud blocks the over-count rises by one per block and feedback ends on iff it was on or the count reached three |
| Monitor.QuietRun | firmware/src/app/monitor.c:90-102 | over a run of quiet blocks the under-count rises by one per block and feedback ends on iff it was on and the count stayed below three |
| Monitor.AccumulatedExactly | firmware/src/app/monitor.c:61-68 | on a reachable state a block adds its level to the accumulator, and the tenth pushes the exact mean and resets |
| Monitor.AverageWindow | firmware/src/app/monitor.c:61-68 | blocks accumulate their sum until the tenth of the window, which pushes that sum divided by ten and resets both counters |
| Monitor.TenBlockAverage | firmware/src/app/monitor.c:61-68 | ten blocks from an empty window push one entry, their truncated mean, which is no louder than the loudest block |
| Monitor.ThresholdScenario | firmware/src/app/monitor.c:46-102 | threshold 70 dB, both modes: levels 65,68,71,72,73,69,60,58 switch feedback on at the fifth block and off at the eighth |
| Monitor.ThresholdScenarioRun | firmware/src/app/monitor.c:42-103 | the same scenario as one run: final state and the whole ordered call list |
| Monitor.MonitorThread.constructor | firmware/src/app/monitor.c:27-31 | counters zero, feedback off, empty window |
| Monitor.MonitorThread.Step | firmware/src/app/monitor.c:58-102 | the new state and the calls made are Stepped(old state, db, cfg) |
| Monitor.MonitorThread.Iterate | firmware/src/app/monitor.c:46-102 | a failed read changes nothing and calls nothing; a block proceeds as Stepped with the block's level |
| Device.LeadIsInert | firmware/src/app/monitor.c:58-68 | the level notification and the history push touch neither the LED nor the vibration driver |
| Device.FeedbackReachesDrivers | firmware/src/app/monitor.c:78-101 | switch-on restarts the LED on PULSE_WARM and the motor on GENTLE_TAP per mode bit; switch-off restarts BREATHE_GREEN and stops the motor; any other pass leaves both drivers alone |
| Device.Firmware.constructor | firmware/src/main.c:34-64 | when the monitor thread starts: LED and motor initialised, the LED restarted on BREATHE_GREEN, the motor idle, the monitor at its start values and the history empty |
| Device.Firmware.Apply | firmware/src/app/monitor.c:59-100 | one call reaches the driver it names: push, led_set_pattern, vibration_play or vibration_stop |
| Device.Firmware.ApplyAll | firmware/src/app/monitor.c:59-101 | the calls of a pass, in order, leave each driver and the history as the ordered fold of those calls |
| Device.Firmware.Iteration | firmware/src/app/monitor.c:46-102 | one pass: the monitor state and calls are Stepped on the block's level, and every driver ends in the state those calls give |

## Left out

- Audio capture (`pdm_capture_start`, `pdm_capture_read`, `pdm_capture_buf_free`): `pdm_capture.c` is not part of this model. A read is a `BlockRead` value, either `ReadFailed` or a block of samples. The conversion of the byte size to a sample count (`size / sizeof(int16_t)`) is not modelled.
- `k_sleep(K_MSEC(100))` after a failed read is not modelled: the pass does nothing and the loop continues.
- `config_service_notify_level` (BLE notify) is not modelled. It appears only as the `NotifyLevel` effect, which `Device.Firmware.Apply` does nothing with.
- `app_config_get` is not modelled: `config.c` and the BLE configuration service are not part of this model. The configuration is a parameter of each pass.
- `k_uptime_get` is not modelled: the clock is the `uptime` parameter of `Push`, stored modulo 2^32 as the `uint32_t` cast does.
- Concurrency is not modelled: the cache mutex, the work queue running the LED and vibration handlers beside the API calls, and the monitor thread's creation and priority (`monitor_start`, `main.c`). Each call is modelled as atomic. `pending` records only the delay of the queued handler run; time itself is not modelled.
- `led_init` and `vibration_init` are not modelled: their device-readiness checks and `-ENODEV` or configure-error returns are left out. The constructors model only the state after a successful init.
- The GPIO wiring is not modelled: a pin is `true` when lit, and the active-low polarity of the LED pins is left out.
- Integer widths are not modelled: `over_count`, `under_count`, `block_count`, `pattern_step`, `vib_step`, `head`, `tail` and `count` are unbounded naturals here. The C `int` steps of a never-ending LED pattern could wrap only after 2^31 runs.
- `SoundLevel.Rms`: requires fewer than 2^32 samples (a 32-bit `size_t`), so the 64-bit sum of squares never wraps; larger buffers are not modelled.
- Logging (`LOG_INF`, `LOG_ERR`) is not modelled.
- The rest of `main.c` is not modelled: the capture, BLE and configuration initialisation and their error returns. Of its calls, only `led_set_pattern(LED_PATTERN_BREATHE_GREEN)` before `monitor_start` is reflected, in `Device.Firmware.constructor`.
- `Led.LedDriver.Handler`, `Vibration.VibrationDriver.Handler`: they do not require a queued run (`pending.Some?`). A run with nothing queued stands for a handler run already in progress when a cancel happens, which the work queue allows. `Led.Runs`, `Vibration.Runs` and the late run in `Vibration.StopIsFinal` include such runs.
