/** Properties of one update and of runs of updates of the height debouncer. */
module HeightDebouncerProperties {
  import opened HeightDebouncing

  /** A sample arriving sooner than the sample interval changes nothing. */
  lemma TooSoonIsNoOp(c: Config, s: State, reading: int, t: nat)
    requires Inv(c, s) && s.lastSampleTime <= t
    requires s.hasReading && t - s.lastSampleTime < c.sampleIntervalMs
    ensures Step(c, s, reading, t) == s
  {
  }

  /** There is no range gate: every reading, 0 and negative ones included, is
      accepted when it is not too soon, and becomes the last reading. */
  lemma AcceptedReadingBecomesLast(c: Config, s: State, reading: int, t: nat)
    requires Inv(c, s) && s.lastSampleTime <= t && !TooSoon(c, s, t)
    ensures var r := Step(c, s, reading, t);
      r.hasReading && r.lastReading == reading && r.lastSampleTime == t
  {
  }

  /** The first reading starts a window at `t` and is never stable on its own. */
  lemma FirstReadingBootstraps(c: Config, s: State, reading: int, t: nat)
    requires Inv(c, s) && !s.hasReading
    ensures var r := Step(c, s, reading, t);
      r.hasReading && !r.isStable && r.lastReading == reading &&
      r.stabilityStartTime == t && r.stableReading == NoReading
  {
  }

  /** For an accepted reading that is not the first, the debouncer is stable
      afterwards exactly when the reading is within tolerance of the previous one
      and the window is at least the stability duration old; the stable value is
      then the new reading. */
  lemma StabilityDecision(c: Config, s: State, reading: int, t: nat)
    requires Inv(c, s) && s.lastSampleTime <= t && !TooSoon(c, s, t) && s.hasReading
    ensures var r := Step(c, s, reading, t);
      (r.isStable <==>
        s.lastReading - c.toleranceCm <= reading <= s.lastReading + c.toleranceCm &&
        t - s.stabilityStartTime >= c.stabilityDurationMs) &&
      (r.isStable ==> r.stableReading == reading)
  {
  }

  /** A reading more than the tolerance away restarts the window at `t` and
      clears stability. */
  lemma OutsideToleranceRestarts(c: Config, s: State, reading: int, t: nat)
    requires Inv(c, s) && s.lastSampleTime <= t && !TooSoon(c, s, t) && s.hasReading
    requires reading < s.lastReading - c.toleranceCm || reading > s.lastReading + c.toleranceCm
    ensures var r := Step(c, s, reading, t);
      r.stabilityStartTime == t && !r.isStable && r.stableReading == s.stableReading
  {
  }

  /** Once a window starts at or after `t0`, no sequence of samples all taken
      before `t0 + stabilityDurationMs` can make the debouncer stable: after a
      reading outside tolerance, stability needs a full new duration. */
  lemma {:induction false} NoStabilityBeforeDuration(c: Config, s: State, t0: nat, samples: seq<Sample>)
    requires Inv(c, s) && Chronological(s, samples)
    requires !s.isStable && (s.hasReading ==> s.stabilityStartTime >= t0)
    requires forall i :: 0 <= i < |samples| ==> t0 <= samples[i].time < t0 + c.stabilityDurationMs
    ensures var r := Run(c, s, samples);
      !r.isStable && (r.hasReading ==> r.stabilityStartTime >= t0)
    decreases |samples|
  {
    if samples != [] {
      var next := Step(c, s, samples[0].reading, samples[0].time);
      assert Chronological(next, samples[1..]) by {
        forall i | 0 <= i < |samples[1..]| ensures next.lastSampleTime <= samples[1..][i].time {
          assert samples[1..][i] == samples[i + 1];
        }
      }
      NoStabilityBeforeDuration(c, next, t0, samples[1..]);
    }
  }

  /** Readings that are each at least a sample interval after the previous one and
      each more than the tolerance away from it never stabilise: every sample after
      the first restarts the window. */
  lemma {:induction false} AlwaysJumpingNeverStable(c: Config, s: State, samples: seq<Sample>)
    requires Inv(c, s) && Chronological(s, samples) && !s.isStable
    requires forall i :: 0 < i < |samples| ==>
      samples[i - 1].time + c.sampleIntervalMs <= samples[i].time
    requires s.hasReading && |samples| > 0 ==>
      s.lastSampleTime + c.sampleIntervalMs <= samples[0].time
    requires forall i :: 0 < i < |samples| ==>
      !IsWithinTolerance(c.toleranceCm, samples[i].reading, samples[i - 1].reading)
    requires s.hasReading && |samples| > 0 ==>
      !IsWithinTolerance(c.toleranceCm, samples[0].reading, s.lastReading)
    requires s.hasReading ==> s.stabilityStartTime == s.lastSampleTime
    ensures var r := Run(c, s, samples);
      !r.isStable && (r.hasReading ==> r.stabilityStartTime == r.lastSampleTime)
    decreases |samples|
  {
    if samples != [] {
      var next := Step(c, s, samples[0].reading, samples[0].time);
      assert Chronological(next, samples[1..]) by {
        forall i | 0 <= i < |samples[1..]| ensures next.lastSampleTime <= samples[1..][i].time {
          assert samples[1..][i] == samples[i + 1];
        }
      }
      AlwaysJumpingNeverStable(c, next, samples[1..]);
    }
  }
}
