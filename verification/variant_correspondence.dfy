/** The height debouncer behaves as the range-gated debouncer with the range gate
    taken away: on readings that the range admits, the two agree on every
    observable field except the "no reading" sentinel. */
module VariantCorrespondence {
  import R = ReadingDebouncing
  import H = HeightDebouncing

  /** The two configurations share tolerance and timing. */
  predicate SameTiming(hc: H.Config, rc: R.Config) {
    hc.toleranceCm == rc.tolerance &&
    hc.stabilityDurationMs == rc.stabilityDurationMs &&
    hc.sampleIntervalMs == rc.sampleIntervalMs
  }

  /** The two states agree on flags, timers, the last reading when there is one and
      the stable reading when stable. */
  predicate Corresponds(h: H.State, r: R.State) {
    h.hasReading == r.hasReading && h.isStable == r.isStable &&
    h.stabilityStartTime == r.stabilityStartTime && h.lastSampleTime == r.lastSampleTime &&
    (h.hasReading ==> h.lastReading == r.lastReading) &&
    (h.isStable ==> h.stableReading == r.stableReading)
  }

  /** The same samples, submitted to either variant. */
  predicate SameSamples(hs: seq<H.Sample>, rs: seq<R.Sample>) {
    |hs| == |rs| &&
    forall i :: 0 <= i < |hs| ==> hs[i].reading == rs[i].reading && hs[i].time == rs[i].time
  }

  lemma InitialStatesCorrespond()
    ensures Corresponds(H.Initial(), R.Initial())
  {
  }

  /** One update with an in-range reading keeps the two variants in step. */
  lemma StepsCorrespond(hc: H.Config, rc: R.Config, h: H.State, r: R.State, reading: int, t: nat)
    requires SameTiming(hc, rc) && H.Inv(hc, h) && R.Inv(rc, r) && Corresponds(h, r)
    requires h.lastSampleTime <= t && R.IsValidReading(rc, reading)
    ensures Corresponds(H.Step(hc, h, reading, t), R.Step(rc, r, reading, t))
  {
  }

  /** Any run of in-range readings keeps the two variants in step: both are stable
      at the same moments, with the same stable value. */
  lemma {:induction false} RunsCorrespond(hc: H.Config, rc: R.Config, h: H.State, r: R.State,
                                          hs: seq<H.Sample>, rs: seq<R.Sample>)
    requires SameTiming(hc, rc) && H.Inv(hc, h) && R.Inv(rc, r) && Corresponds(h, r)
    requires H.Chronological(h, hs) && SameSamples(hs, rs)
    requires forall i :: 0 <= i < |rs| ==> R.IsValidReading(rc, rs[i].reading)
    ensures R.Chronological(r, rs)
    ensures Corresponds(H.Run(hc, h, hs), R.Run(rc, r, rs))
    decreases |hs|
  {
    if hs != [] {
      var h' := H.Step(hc, h, hs[0].reading, hs[0].time);
      var r' := R.Step(rc, r, rs[0].reading, rs[0].time);
      StepsCorrespond(hc, rc, h, r, hs[0].reading, hs[0].time);
      assert H.Chronological(h', hs[1..]) by {
        forall i | 0 <= i < |hs[1..]| ensures h'.lastSampleTime <= hs[1..][i].time {
          assert hs[1..][i] == hs[i + 1];
        }
      }
      assert SameSamples(hs[1..], rs[1..]) by {
        forall i | 0 <= i < |hs[1..]|
          ensures hs[1..][i].reading == rs[1..][i].reading && hs[1..][i].time == rs[1..][i].time
        {
          assert hs[1..][i] == hs[i + 1] && rs[1..][i] == rs[i + 1];
        }
      }
      assert forall i :: 0 <= i < |rs[1..]| ==> R.IsValidReading(rc, rs[1..][i].reading) by {
        forall i | 0 <= i < |rs[1..]| ensures R.IsValidReading(rc, rs[1..][i].reading) {
          assert rs[1..][i] == rs[i + 1];
        }
      }
      RunsCorrespond(hc, rc, h', r', hs[1..], rs[1..]);
      assert R.Run(rc, r, rs) == R.Run(rc, r', rs[1..]);
    }
  }
}
