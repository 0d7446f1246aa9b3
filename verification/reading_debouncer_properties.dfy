/** Properties of one update and of runs of updates of the range-gated debouncer. */
module ReadingDebouncerProperties {
  import opened ReadingDebouncing

  /** A sample arriving sooner than the sample interval changes no field at all,
      not even the validity flag. */
  lemma TooSoonIsNoOp(c: Config, s: State, reading: int, t: nat)
    requires Inv(c, s) && s.lastSampleTime <= t
    requires s.hasReading && t - s.lastSampleTime < c.sampleIntervalMs
    ensures Step(c, s, reading, t) == s
  {
  }

  /** An accepted reading outside [minValid, maxValid] leaves the debouncer reset. */
  lemma OutOfRangeResets(c: Config, s: State, reading: int, t: nat)
    requires Inv(c, s) && s.lastSampleTime <= t && !TooSoon(c, s, t)
    requires reading < c.minValid || reading > c.maxValid
    ensures var r := Step(c, s, reading, t);
      r == Initial() && !r.hasReading && !r.isStable && !r.lastReadingValid
  {
  }

  /** Both bounds of the range are themselves valid readings. */
  lemma BoundsAreValid(c: Config, s: State, t: nat)
    requires Inv(c, s) && !s.hasReading && c.minValid <= c.maxValid
    ensures Step(c, s, c.minValid, t).lastReadingValid
    ensures Step(c, s, c.maxValid, t).lastReadingValid
  {
  }

  /** Every in-range reading that is not too soon is accepted and becomes the
      last reading, with `t` as the last sample time. */
  lemma AcceptedReadingBecomesLast(c: Config, s: State, reading: int, t: nat)
    requires Inv(c, s) && s.lastSampleTime <= t && !TooSoon(c, s, t)
    requires IsValidReading(c, reading)
    ensures var r := Step(c, s, reading, t);
      r.hasReading && r.lastReadingValid && r.lastReading == reading && r.lastSampleTime == t
  {
  }

  /** The first valid reading starts a window at `t` and is never stable on its own. */
  lemma FirstReadingBootstraps(c: Config, s: State, reading: int, t: nat)
    requires Inv(c, s) && !s.hasReading
    requires IsValidReading(c, reading)
    ensures var r := Step(c, s, reading, t);
      r.hasReading && r.lastReadingValid && !r.isStable &&
      r.lastReading == reading && r.stabilityStartTime == t && r.lastSampleTime == t
  {
  }

  /** For an accepted valid reading that is not the first, the debouncer is stable
      afterwards exactly when the reading is within tolerance of the previous one and
      the window is at least the stability duration old; the stable value is then the
      new reading, and the new reading becomes the last one in every case. */
  lemma StabilityDecision(c: Config, s: State, reading: int, t: nat)
    requires Inv(c, s) && s.lastSampleTime <= t && !TooSoon(c, s, t)
    requires s.hasReading && IsValidReading(c, reading)
    ensures var r := Step(c, s, reading, t);
      (r.isStable <==>
        s.lastReading - c.tolerance <= reading <= s.lastReading + c.tolerance &&
        t - s.stabilityStartTime >= c.stabilityDurationMs) &&
      (r.isStable ==> r.stableReading == reading) &&
      r.lastReading == reading && r.lastSampleTime == t
  {
  }

  /** A reading more than `tolerance` away restarts the window at `t` and clears
      stability, but keeps the stored stable value. */
  lemma OutsideToleranceRestarts(c: Config, s: State, reading: int, t: nat)
    requires Inv(c, s) && s.lastSampleTime <= t && !TooSoon(c, s, t)
    requires s.hasReading && IsValidReading(c, reading)
    requires reading < s.lastReading - c.tolerance || reading > s.lastReading + c.tolerance
    ensures var r := Step(c, s, reading, t);
      r.stabilityStartTime == t && !r.isStable && r.stableReading == s.stableReading &&
      r.lastReading == reading
  {
  }

  /** Feeding a constant reading keeps the window where it is, and the debouncer is
      stable exactly when the last accepted sample is at least the stability duration
      after the window start: it becomes stable at the first accepted timestamp that
      reaches the duration, and not before. */
  lemma {:induction false} ConstantRunStableIff(c: Config, s: State, x: int, samples: seq<Sample>)
    requires Inv(c, s) && Chronological(s, samples)
    requires s.hasReading && s.lastReading == x && c.tolerance >= 0
    requires s.isStable <==> s.lastSampleTime - s.stabilityStartTime >= c.stabilityDurationMs
    requires forall i :: 0 <= i < |samples| ==> samples[i].reading == x
    ensures var r := Run(c, s, samples);
      r.hasReading && r.lastReading == x && r.stabilityStartTime == s.stabilityStartTime &&
      (r.isStable <==> r.lastSampleTime - r.stabilityStartTime >= c.stabilityDurationMs) &&
      (r.isStable ==> r.stableReading == x)
    decreases |samples|
  {
    if samples != [] {
      var next := Step(c, s, x, samples[0].time);
      assert samples[0].reading == x;
      assert Chronological(next, samples[1..]) by {
        forall i | 0 <= i < |samples[1..]| ensures next.lastSampleTime <= samples[1..][i].time {
          assert samples[1..][i] == samples[i + 1];
        }
      }
      ConstantRunStableIff(c, next, x, samples[1..]);
    }
  }

  /** Once a window starts at or after `t0`, no sequence of samples all taken
      before `t0 + stabilityDurationMs` can make the debouncer stable, whatever the
      readings: stability always needs a full window. */
  lemma {:induction false} NoStabilityBeforeDuration(c: Config, s: State, t0: nat, samples: seq<Sample>)
    requires Inv(c, s) && Chronological(s, samples)
    requires !s.isStable && (s.hasReading ==> s.stabilityStartTime >= t0)
    requires forall i :: 0 <= i < |samples| ==> t0 <= samples[i].time < t0 + c.stabilityDurationMs
    ensures var r := Run(c, s, samples);
      !r.isStable && (r.hasReading ==> r.stabilityStartTime >= t0)
    decreases |samples|
  {
    if samples != [] {
      var next := Step(c, s, samples[0].reading, samples[0].time);
      assert Chronological(next, samples[1..]) by {
        forall i | 0 <= i < |samples[1..]| ensures next.lastSampleTime <= samples[1..][i].time {
          assert samples[1..][i] == samples[i + 1];
        }
      }
      NoStabilityBeforeDuration(c, next, t0, samples[1..]);
    }
  }
}
