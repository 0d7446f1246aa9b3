/** The range-gated reading debouncer (ReadingDebouncer<T>), over integer readings.
    Readings are `int`, timestamps `nat` milliseconds; the default value T() is 0. */
module ReadingDebouncing {

  /** The value-initialised reading T() that stands for "no reading". */
  const ZeroReading: int := 0

  /** The fixed configuration of one debouncer. */
  datatype Config = Config(
    tolerance: int,
    stabilityDurationMs: nat,
    sampleIntervalMs: nat,
    minValid: int,
    maxValid: int)

  /** The mutable state of one debouncer, field for field. */
  datatype State = State(
    lastReading: int,
    stableReading: int,
    stabilityStartTime: nat,
    lastSampleTime: nat,
    isStable: bool,
    hasReading: bool,
    lastReadingValid: bool)

  /** A submitted sample: a reading and the caller's timestamp. */
  datatype Sample = Sample(reading: int, time: nat)

  /** The state a fresh or reset debouncer is in. */
  function Initial(): State {
    State(ZeroReading, ZeroReading, 0, 0, false, false, false)
  }

  /** The inclusive valid-range test. */
  predicate IsValidReading(c: Config, reading: int): (r: bool)
    ensures r ==> c.minValid <= c.maxValid
    ensures reading == c.minValid || reading == c.maxValid ==> (r <==> c.minValid <= c.maxValid)
  {
    reading >= c.minValid && reading <= c.maxValid
  }

  /** The tolerance test, computing the absolute difference by a sign flip. */
  function IsWithinTolerance(tolerance: int, reading1: int, reading2: int): (r: bool)
    ensures r <==> reading2 - tolerance <= reading1 <= reading2 + tolerance
  {
    var diff := reading1 - reading2;
    var magnitude := if diff < ZeroReading then -diff else diff;
    magnitude <= tolerance
  }

  /** Every state a debouncer can reach satisfies this invariant. */
  ghost predicate Inv(c: Config, s: State) {
    (s.lastReadingValid == s.hasReading) &&
    (!s.hasReading ==> s == Initial()) &&
    (s.hasReading ==> IsValidReading(c, s.lastReading) && s.stabilityStartTime <= s.lastSampleTime) &&
    (s.isStable ==>
      s.hasReading && s.stableReading == s.lastReading &&
      s.lastSampleTime - s.stabilityStartTime >= c.stabilityDurationMs)
  }

  /** True when the sample interval gate turns the call into a no-op. */
  predicate TooSoon(c: Config, s: State, t: nat) {
    s.hasReading && t - s.lastSampleTime < c.sampleIntervalMs
  }

  /** The effect of one `update(reading, t)` call on the state. */
  function Step(c: Config, s: State, reading: int, t: nat): (r: State)
    requires Inv(c, s) && s.lastSampleTime <= t
    ensures Inv(c, r)
    ensures r.lastSampleTime <= t
  {
    if TooSoon(c, s, t) then s
    else if !IsValidReading(c, reading) then Initial()
    else if !s.hasReading then
      s.(lastReading := reading, stabilityStartTime := t, lastSampleTime := t,
         hasReading := true, isStable := false, lastReadingValid := true)
    else if IsWithinTolerance(c.tolerance, reading, s.lastReading) then
      if t - s.stabilityStartTime >= c.stabilityDurationMs then
        s.(isStable := true, stableReading := reading, lastReading := reading,
           lastSampleTime := t, lastReadingValid := true)
      else
        s.(lastReading := reading, lastSampleTime := t, lastReadingValid := true)
    else
      s.(stabilityStartTime := t, isStable := false, lastReading := reading,
         lastSampleTime := t, lastReadingValid := true)
  }

  /** Samples a caller may submit from state `s`: no timestamp is earlier than
      the last accepted one, and the timestamps never decrease. */
  ghost predicate Chronological(s: State, samples: seq<Sample>) {
    (forall i :: 0 <= i < |samples| ==> s.lastSampleTime <= samples[i].time) &&
    (forall i, j :: 0 <= i < j < |samples| ==> samples[i].time <= samples[j].time)
  }

  /** The state after submitting `samples` in order, starting from `s`. */
  function Run(c: Config, s: State, samples: seq<Sample>): (r: State)
    requires Inv(c, s) && Chronological(s, samples)
    ensures Inv(c, r)
    decreases |samples|
  {
    if samples == [] then s
    else Run(c, Step(c, s, samples[0].reading, samples[0].time), samples[1..])
  }

  class ReadingDebouncer {
    // Configuration: fixed at construction.
    const tolerance: int
    const stabilityDurationMs: nat
    const sampleIntervalMs: nat
    const minValid: int
    const maxValid: int

    // State.
    var lastReading: int
    var stableReading: int
    var stabilityStartTime: nat
    var lastSampleTime: nat
    var isStable: bool
    var hasReading: bool
    var lastReadingValid: bool

    function Cfg(): Config {
      Config(tolerance, stabilityDurationMs, sampleIntervalMs, minValid, maxValid)
    }

    ghost function Snapshot(): State
      reads this
    {
      State(lastReading, stableReading, stabilityStartTime, lastSampleTime,
            isStable, hasReading, lastReadingValid)
    }

    ghost predicate Valid()
      reads this
    {
      Inv(Cfg(), Snapshot())
    }

    constructor (tolerance: int, stabilityDurationMs: nat, sampleIntervalMs: nat,
                 minValid: int, maxValid: int)
      ensures Valid() && Snapshot() == Initial()
      ensures GetTolerance() == tolerance && GetStabilityDurationMs() == stabilityDurationMs
      ensures GetSampleIntervalMs() == sampleIntervalMs
      ensures GetMinValid() == minValid && GetMaxValid() == maxValid
      ensures !IsStable() && !HasValidReading() && !IsLastReadingValid()
      ensures GetStableReading() == ZeroReading
    {
      this.tolerance := tolerance;
      this.stabilityDurationMs := stabilityDurationMs;
      this.sampleIntervalMs := sampleIntervalMs;
      this.minValid := minValid;
      this.maxValid := maxValid;
      lastReading := ZeroReading;
      stableReading := ZeroReading;
      stabilityStartTime := 0;
      lastSampleTime := 0;
      isStable := false;
      hasReading := false;
      lastReadingValid := false;
    }

    /** Submits one reading taken at `currentTimeMs`. */
    method Update(currentReading: int, currentTimeMs: nat)
      requires Valid()
      requires lastSampleTime <= currentTimeMs
      modifies this
      ensures Valid()
      ensures Snapshot() == Step(Cfg(), old(Snapshot()), currentReading, currentTimeMs)
    {
      if hasReading && currentTimeMs - lastSampleTime < sampleIntervalMs {
        return;
      }

      lastSampleTime := currentTimeMs;

      var isValid := IsValidReading(Cfg(), currentReading);
      lastReadingValid := isValid;

      if !isValid {
        Reset();
        return;
      }

      if !hasReading {
        lastReading := currentReading;
        stabilityStartTime := currentTimeMs;
        hasReading := true;
        isStable := false;
        return;
      }

      if IsWithinTolerance(tolerance, currentReading, lastReading) {
        var stableDuration := currentTimeMs - stabilityStartTime;
        if stableDuration >= stabilityDurationMs {
          isStable := true;
          stableReading := currentReading;
        }
      } else {
        stabilityStartTime := currentTimeMs;
        isStable := false;
      }

      lastReading := currentReading;
    }

    /** True only when the current run has lasted the stability duration. */
    function IsStable(): (r: bool)
      reads this
      requires Valid()
      ensures r ==> hasReading && lastSampleTime - stabilityStartTime >= stabilityDurationMs
    {
      isStable
    }

    /** The stable value, which is the latest accepted reading; T() when not stable. */
    function GetStableReading(): (r: int)
      reads this
      requires Valid()
      ensures isStable ==> r == lastReading && minValid <= r <= maxValid
      ensures !isStable ==> r == ZeroReading
    {
      if isStable then stableReading else ZeroReading
    }

    /** The latest accepted reading: in range when there is one, T() otherwise. */
    function GetLastReading(): (r: int)
      reads this
      requires Valid()
      ensures hasReading ==> minValid <= r <= maxValid
      ensures !hasReading ==> r == ZeroReading
    {
      lastReading
    }

    /** The flag always agrees with HasValidReading(). */
    function IsLastReadingValid(): (r: bool)
      reads this
      requires Valid()
      ensures r == hasReading
    {
      lastReadingValid
    }

    /** Without a valid reading the debouncer is in its initial state. */
    function HasValidReading(): (r: bool)
      reads this
      requires Valid()
      ensures !r ==> Snapshot() == Initial()
      ensures r ==> minValid <= lastReading <= maxValid
    {
      hasReading
    }

    /** Restores the initial state; the configuration is untouched. */
    method Reset()
      modifies this
      ensures Valid() && Snapshot() == Initial()
    {
      lastReading := ZeroReading;
      stableReading := ZeroReading;
      stabilityStartTime := 0;
      lastSampleTime := 0;
      isStable := false;
      hasReading := false;
      lastReadingValid := false;
    }

    function GetTolerance(): int { tolerance }
    function GetStabilityDurationMs(): nat { stabilityDurationMs }
    function GetSampleIntervalMs(): nat { sampleIntervalMs }
    function GetMinValid(): int { minValid }
    function GetMaxValid(): int { maxValid }
  }
}
