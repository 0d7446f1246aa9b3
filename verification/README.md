# Reading debouncer, modelled in Dafny

The two instruments of this repository (an ultrasonic height meter and a pulse
oximeter) each pass their noisy sensor samples through a *debouncer*: a small state
machine that is fed `(reading, timestamp)` pairs and decides when the readings have
stayed within a tolerance of one another for long enough to be reported as a stable
value. There are two near-copies of it:

- `ReadingDebouncer<T>`, the header-only template of the pulse oximeter, with an
  inclusive valid range `[minValid, maxValid]`; an out-of-range sample resets it.
  "No reading" is the default value `T()`, which is 0 for the integer readings
  modelled here.
- `HeightDebouncer`, the `int` class of the height meter, with no range gate, `-1` as
  the "no reading" sentinel, a `getStableDuration()` accessor and a default
  constructor taking tolerance 2 cm, duration 3000 ms and interval 100 ms from
  `include/config.h`.

Each is a Dafny `class` with the same fields as the C++ one. The configuration
fields are `const`, so nothing can change them after construction. `Update` and
`Reset` are the only methods with `modifies this`. Every `update` call is specified
by a pure function `Step` over a `State` datatype that mirrors the fields. The class
exposes it through a ghost `Snapshot()`. `Step` keeps an invariant `Inv` that holds
in every reachable state:

- stable implies a reading exists;
- stable implies the stable value is the last reading;
- stable implies the window has lasted at least the stability duration;
- no reading implies the initial state;
- in the template only: a reading exists implies it lies in the valid range, and the
  last-reading-valid flag always equals `hasValidReading()`.

`Run` folds `Step` over a sequence of samples. The multi-step lemmas are about
`Run`. Every test of both C++ test files is replayed on the classes as a method whose
postconditions are that test's assertions.

Modules: `ReadingDebouncing`, `ReadingDebouncerProperties` and
`ReadingDebouncerScenarios` model the template. `DebounceConfig`, `HeightDebouncing`,
`HeightDebouncerProperties` and `HeightDebouncerScenarios` model the height
debouncer. `VariantCorrespondence` proves that the height debouncer is the template
with the range gate removed.

Timestamps are unbounded `nat` milliseconds. `Update` requires
`lastSampleTime <= currentTimeMs`. When the debouncer has no reading, this always
holds (its `lastSampleTime` is then 0). When it has one, it is exactly the condition
under which the C++ `unsigned long` subtraction in the interval gate does not wrap
around. Backward timestamps would make the `unsigned long` subtractions wrap; the
model excludes them by precondition.

A sample arriving too soon changes no field, the validity flag included: the early
return at `reading_debouncer.h:48-50` comes before the flag is set at line 56
(`ReadingDebouncerProperties.TooSoonIsNoOp`).

## Model

| member | source | states |
|---|---|---|
| `ReadingDebouncing.IsValidReading` | instruments/pulse_oximeter/include/reading_debouncer.h:167-169 | the range test is inclusive: a valid reading implies a non-empty range, and each bound is valid exactly when the range is non-empty |
| `ReadingDebouncing.IsWithinTolerance` | instruments/pulse_oximeter/include/reading_debouncer.h:174-178 | the sign-flip absolute difference is within tolerance exactly when the reading lies in `[other - tolerance, other + tolerance]` (inclusive at both ends) |
| `ReadingDebouncing.Step` | instruments/pulse_oximeter/include/reading_debouncer.h:46-89 | one `update` call, gate by gate; from a state satisfying the invariant (stable ⇒ has reading, stable value = last reading, window ≥ duration; no reading ⇒ initial state; reading in range; validity flag = has reading) it yields a state satisfying it, and never moves the last sample time past `t` |
| `ReadingDebouncing.Run` | instruments/pulse_oximeter/include/reading_debouncer.h:46-89 | any chronological sequence of `update` calls preserves the invariant |
| `ReadingDebouncing.ReadingDebouncer.constructor` | instruments/pulse_oximeter/include/reading_debouncer.h:24-39 | a fresh debouncer is in the initial state: not stable, no reading, last-valid flag false, stable reading `T()`; the configuration getters return the constructor arguments |
| `ReadingDebouncing.ReadingDebouncer.Update` | instruments/pulse_oximeter/include/reading_debouncer.h:46-89 | the new state is `Step` of the old one, and the invariant is kept |
| `ReadingDebouncing.ReadingDebouncer.Reset` | instruments/pulse_oximeter/include/reading_debouncer.h:130-138 | restores exactly the constructor's state (so a second reset changes nothing) and touches no configuration |
| `ReadingDebouncing.ReadingDebouncer.IsStable` | instruments/pulse_oximeter/include/reading_debouncer.h:94-96 | true only with a reading whose window has lasted at least the stability duration |
| `ReadingDebouncing.ReadingDebouncer.GetStableReading` | instruments/pulse_oximeter/include/reading_debouncer.h:102-104 | when stable, the latest accepted reading, which is in range; otherwise `T()` |
| `ReadingDebouncing.ReadingDebouncer.GetLastReading` | instruments/pulse_oximeter/include/reading_debouncer.h:109-111 | an in-range value when there is a reading, `T()` otherwise |
| `ReadingDebouncing.ReadingDebouncer.IsLastReadingValid` | instruments/pulse_oximeter/include/reading_debouncer.h:116-118 | always equal to `hasValidReading()` |
| `ReadingDebouncing.ReadingDebouncer.HasValidReading` | instruments/pulse_oximeter/include/reading_debouncer.h:123-125 | false only in the initial state; when true, the last reading is in range |
| `ReadingDebouncerProperties.TooSoonIsNoOp` | instruments/pulse_oximeter/include/reading_debouncer.h:48-50 | with a reading and `t - lastSampleTime < sampleInterval`, no field changes, the validity flag included |
| `ReadingDebouncerProperties.OutOfRangeResets` | instruments/pulse_oximeter/include/reading_debouncer.h:55-62 | an accepted sample outside `[minValid, maxValid]` leaves the initial state: no reading, not stable, last-valid false |
| `ReadingDebouncerProperties.BoundsAreValid` | instruments/pulse_oximeter/include/reading_debouncer.h:167-169 | `minValid` and `maxValid` themselves are valid readings |
| `ReadingDebouncerProperties.AcceptedReadingBecomesLast` | instruments/pulse_oximeter/include/reading_debouncer.h:64-88 | an in-range reading that is not too soon is accepted, sets the validity flag and becomes the last reading with `t` as sample time |
| `ReadingDebouncerProperties.FirstReadingBootstraps` | instruments/pulse_oximeter/include/reading_debouncer.h:65-71 | the first valid reading sets the reading, starts the window and the sample time at `t`, and is not stable |
| `ReadingDebouncerProperties.StabilityDecision` | instruments/pulse_oximeter/include/reading_debouncer.h:74-88 | after an accepted valid non-first reading: stable if and only if the reading is within tolerance (inclusive) and the window age is at least the duration; the stable value is then the new reading; the new reading is always the last one |
| `ReadingDebouncerProperties.OutsideToleranceRestarts` | instruments/pulse_oximeter/include/reading_debouncer.h:82-86 | a reading beyond tolerance restarts the window at `t`, clears stability and leaves the stored stable value untouched |
| `ReadingDebouncerProperties.ConstantRunStableIff` | instruments/pulse_oximeter/include/reading_debouncer.h:74-88 | feeding a constant in-range reading keeps the window start; the debouncer is stable exactly when the last accepted sample is at least the duration after the window start, with that reading as stable value |
| `ReadingDebouncerProperties.NoStabilityBeforeDuration` | instruments/pulse_oximeter/include/reading_debouncer.h:74-86 | after a window starts at `t0`, no samples taken before `t0 + duration` make the debouncer stable, whatever their values |
| `ReadingDebouncerScenarios.BpmInitialState` | test/test_reading_debouncer.cpp:59-65 | fresh debouncer: not stable, no reading, stable reading 0 |
| `ReadingDebouncerScenarios.BpmBelowRangeIsInvalid` | test/test_reading_debouncer.cpp:67-78 | readings 0 and 30 with range 40..200 leave no reading and the last-valid flag false |
| `ReadingDebouncerScenarios.BpmAboveRangeIsInvalid` | test/test_reading_debouncer.cpp:80-87 | reading 250 is rejected |
| `ReadingDebouncerScenarios.BpmStableAfterDuration` | test/test_reading_debouncer.cpp:89-105 | readings 72..74 every 200 ms become stable at 1000 ms with value 72, not at 800 ms |
| `ReadingDebouncerScenarios.BpmJumpNeedsFullDuration` | test/test_reading_debouncer.cpp:107-124 | the jump to 90 at 600 ms clears stability; stable again at 1600 ms with 90 |
| `ReadingDebouncerScenarios.BpmInvalidReadingResets` | test/test_reading_debouncer.cpp:126-142 | an out-of-range 0 after a stable run clears stability and the reading |
| `ReadingDebouncerScenarios.Spo2InitialState` | test/test_reading_debouncer.cpp:148-153 | fresh SpO2 debouncer: not stable, no reading |
| `ReadingDebouncerScenarios.Spo2BelowRangeIsInvalid` | test/test_reading_debouncer.cpp:155-165 | readings 0 and 40 with range 50..100 leave no reading |
| `ReadingDebouncerScenarios.Spo2StableAfterDuration` | test/test_reading_debouncer.cpp:167-183 | after 98 at 0 ms there is a reading and it is not stable; not stable at 800 ms; stable at 1000 ms with 98 |
| `ReadingDebouncerScenarios.Spo2DropNeedsFullDuration` | test/test_reading_debouncer.cpp:185-199 | the drop to 92 at 400 ms clears stability; stable again at 1400 ms |
| `ReadingDebouncerScenarios.Spo2RangeBoundsAreValid` | test/test_reading_debouncer.cpp:201-215 | 50 and 100 are accepted with range 50..100, also after a reset |
| `ReadingDebouncerScenarios.SampleIntervalRespected` | test/test_reading_debouncer.cpp:221-238 | samples at 50 and 80 ms are ignored; stable at 1000 ms |
| `ReadingDebouncerScenarios.ResetClearsState` | test/test_reading_debouncer.cpp:244-259 | reset after a stable run: not stable, no reading, stable reading 0 |
| `ReadingDebouncerScenarios.StableValueTracksLatest` | test/test_reading_debouncer.cpp:265-284 | stability survives 97 and 99 and the stable value becomes 99 |
| `ReadingDebouncerScenarios.ToleranceBoundaryIsInclusive` | test/test_reading_debouncer.cpp:286-295 | steps of exactly the tolerance (5) keep the run and it stabilises |
| `ReadingDebouncerScenarios.JustOutsideToleranceRestarts` | test/test_reading_debouncer.cpp:297-306 | a step of 6 with tolerance 5 leaves it unstable |
| `HeightDebouncing.IsWithinTolerance` | instruments/height_meter/src/height_debouncer.cpp:88-90 | `abs(a - b) <= tolerance` exactly when `a` lies in `[b - tolerance, b + tolerance]` |
| `HeightDebouncing.Step` | instruments/height_meter/src/height_debouncer.cpp:23-56 | one `update` call without range gate; keeps the invariant (stable ⇒ has reading, stable value = last reading, window ≥ duration; no reading ⇒ initial state) and never moves the last sample time past `t` |
| `HeightDebouncing.Run` | instruments/height_meter/src/height_debouncer.cpp:23-56 | any chronological sequence of `update` calls preserves the invariant |
| `HeightDebouncing.HeightDebouncer.constructor` | instruments/height_meter/src/height_debouncer.cpp:5-16 | `-1` sentinels, zero timers, not stable, no reading; the configuration getters return the arguments |
| `HeightDebouncing.HeightDebouncer.Default` | instruments/height_meter/src/height_debouncer.cpp:18-21 | the initial state with tolerance 2, duration 3000 and interval 100 |
| `HeightDebouncing.HeightDebouncer.Update` | instruments/height_meter/src/height_debouncer.cpp:23-56 | the new state is `Step` of the old one, and the invariant is kept |
| `HeightDebouncing.HeightDebouncer.Reset` | instruments/height_meter/src/height_debouncer.cpp:79-86 | restores the `-1` sentinels, zero timers, not stable and no reading |
| `HeightDebouncing.HeightDebouncer.IsStable` | include/height_debouncer.h:34-38 | true only when readings have been stable for the required duration |
| `HeightDebouncing.HeightDebouncer.GetStableReading` | include/height_debouncer.h:40-44 | the stable height (the latest reading) when stable, `-1` otherwise |
| `HeightDebouncing.HeightDebouncer.GetLastReading` | include/height_debouncer.h:46-50 | `-1` before any reading |
| `HeightDebouncing.HeightDebouncer.GetStableDuration` | instruments/height_meter/src/height_debouncer.cpp:70-77 | the stability duration when stable, 0 otherwise, and never more than the age of the current window |
| `HeightDebouncing.Abs` | instruments/height_meter/src/height_debouncer.cpp:89 | the non-negative one of `x` and `-x` |
| `HeightDebouncerProperties.TooSoonIsNoOp` | instruments/height_meter/src/height_debouncer.cpp:25-27 | with a reading and `t - lastSampleTime < sampleInterval`, nothing changes |
| `HeightDebouncerProperties.AcceptedReadingBecomesLast` | instruments/height_meter/src/height_debouncer.cpp:29-55 | every reading, 0 included, is accepted when not too soon and becomes the last reading |
| `HeightDebouncerProperties.FirstReadingBootstraps` | instruments/height_meter/src/height_debouncer.cpp:32-38 | the first reading starts the window at `t` and is not stable; the stable reading stays `-1` |
| `HeightDebouncerProperties.StabilityDecision` | instruments/height_meter/src/height_debouncer.cpp:41-53 | after an accepted non-first reading: stable if and only if within tolerance (inclusive) and the window age is at least the duration; the stable value is then the new reading |
| `HeightDebouncerProperties.OutsideToleranceRestarts` | instruments/height_meter/src/height_debouncer.cpp:49-53 | a reading beyond tolerance restarts the window at `t` and clears stability |
| `HeightDebouncerProperties.NoStabilityBeforeDuration` | instruments/height_meter/src/height_debouncer.cpp:41-53 | after a window starts at `t0`, no samples before `t0 + duration` make it stable: a break needs a full new duration |
| `HeightDebouncerProperties.AlwaysJumpingNeverStable` | instruments/height_meter/src/height_debouncer.cpp:49-53 | samples spaced by the interval that each jump beyond tolerance never stabilise |
| `HeightDebouncerScenarios.ConstructorKeepsParameters` | instruments/height_meter/test/test_height_debouncer.cpp:45-50 | getters return 5, 2000, 50 |
| `HeightDebouncerScenarios.DefaultConstructorUsesConfig` | include/config.h:9-15 | the default debouncer has tolerance 2, duration 3000, interval 100 |
| `HeightDebouncerScenarios.InitialState` | instruments/height_meter/test/test_height_debouncer.cpp:52-57 | not stable, stable and last readings `-1` |
| `HeightDebouncerScenarios.FirstReadingNotStable` | instruments/height_meter/test/test_height_debouncer.cpp:59-65 | after 100 at 0 ms: not stable, last 100, stable `-1` |
| `HeightDebouncerScenarios.StableAfterDuration` | instruments/height_meter/test/test_height_debouncer.cpp:67-87 | not stable at 0, 200, 500, 800 ms; stable with 100 at 1000 ms |
| `HeightDebouncerScenarios.WithinToleranceStabilises` | instruments/height_meter/test/test_height_debouncer.cpp:89-100 | readings within 3 cm stabilise at 1000 ms |
| `HeightDebouncerScenarios.OutsideToleranceNeedsFullDuration` | instruments/height_meter/test/test_height_debouncer.cpp:102-126 | the jump to 110 at 900 ms needs until 1900 ms to be stable with 110 |
| `HeightDebouncerScenarios.SampleIntervalRespected` | instruments/height_meter/test/test_height_debouncer.cpp:128-145 | samples at 50 and 80 ms are ignored; stable at 500 ms |
| `HeightDebouncerScenarios.ResetClearsState` | instruments/height_meter/test/test_height_debouncer.cpp:147-163 | reset after a stable run gives not stable and `-1` readings |
| `HeightDebouncerScenarios.ZeroReadingsStabilise` | instruments/height_meter/test/test_height_debouncer.cpp:165-176 | zero readings are accepted and stabilise with value 0 |
| `HeightDebouncerScenarios.FluctuatingNeverStabilises` | instruments/height_meter/test/test_height_debouncer.cpp:178-191 | readings jumping 10-15 cm never stabilise |
| `HeightDebouncerScenarios.SmallVariationsStabilise` | instruments/height_meter/test/test_height_debouncer.cpp:193-204 | steps up to 5 cm with tolerance 5 stabilise |
| `HeightDebouncerScenarios.ToleranceBoundaryIsInclusive` | instruments/height_meter/test/test_height_debouncer.cpp:206-215 | steps of exactly 5 cm keep the run and it stabilises |
| `HeightDebouncerScenarios.JustOutsideToleranceRestarts` | instruments/height_meter/test/test_height_debouncer.cpp:217-226 | a step of 6 cm with tolerance 5 leaves it unstable |
| `HeightDebouncerScenarios.StableValueTracksLatest` | instruments/height_meter/test/test_height_debouncer.cpp:228-248 | stability survives 101 and 99 and the stable value becomes 99 |
| `HeightDebouncerScenarios.LargeValuesStabilise` | instruments/height_meter/test/test_height_debouncer.cpp:250-260 | readings 198..200 stabilise with 199 |
| `HeightDebouncerScenarios.StableDurationReport` | instruments/height_meter/src/height_debouncer.cpp:70-77 | `getStableDuration()` is 0 before any reading and after the first, and the duration once stable |
| `VariantCorrespondence.InitialStatesCorrespond` | instruments/height_meter/src/height_debouncer.cpp:5-16 | the two fresh states agree on every flag and timer |
| `VariantCorrespondence.StepsCorrespond` | instruments/height_meter/src/height_debouncer.cpp:23-56 | for a reading in the template's valid range, one update of each variant keeps them agreeing on flags, timers, the last reading and the stable reading when stable |
| `VariantCorrespondence.RunsCorrespond` | instruments/height_meter/src/height_debouncer.cpp:23-56 | on any chronological run of in-range readings the two variants are stable at the same moments with the same stable value |

## Left out

- The `float` instantiation `ReadingDebouncer<float>`: readings are `int`, so the floating-point BPM tests appear as integer-valued scenarios.
- The `unsigned long` wrap-around of `currentTimeMs - lastSampleTime_` and `currentTimeMs - stabilityStartTime_`: timestamps are unbounded `nat`. `Update` requires timestamps that never go behind the last accepted one. Under that precondition no subtraction wraps.
- Signed overflow in `reading1 - reading2` and in `std::abs`: readings are unbounded `int`.
- The Arduino sketches `src/pulse_oximeter.cpp` and `instruments/height_meter/src/height_meter.cpp`. They only do sensor I/O, display drawing, serial logging and `millis`/`delay` timing through foreign libraries. The clock reading becomes the `currentTimeMs` parameter.
- The rest of `include/config.h`: pin numbers, I2C addresses and display sizes. Only the three debounce constants are modelled, in `DebounceConfig`.
- The configuration getters of both classes (`getTolerance`, `getToleranceCm`, `getMinValid` and so on) have no contracts of their own. They return `const` fields, and the constructors state their values.
- ReadingDebouncing.ReadingDebouncer.GetLastReading: its contract gives only the in-range and `T()` cases. That the value is the most recent accepted reading is stated about `Step` by `ReadingDebouncerProperties.AcceptedReadingBecomesLast`, `FirstReadingBootstraps` and `StabilityDecision`.
- HeightDebouncing.HeightDebouncer.GetLastReading: its contract only gives the `-1` case. That the value is the most recent accepted reading is stated about `Step` by `HeightDebouncerProperties.AcceptedReadingBecomesLast`.
