/** The default debounce constants of the height meter. */
module DebounceConfig {
  /** Readings this many centimetres apart are considered equal. */
  const DebounceToleranceCm: int := 2
  /** How long readings must stay within tolerance before they are stable. */
  const DebounceStabilityDurationMs: nat := 3000
  /** Minimum time between accepted samples. */
  const DebounceSampleIntervalMs: nat := 100
}

/** The integer height debouncer (HeightDebouncer): no valid-range gate, and -1
    as the "no reading" sentinel. Timestamps are `nat` milliseconds. */
module HeightDebouncing {
  import DebounceConfig

  /** The value that stands for "no reading" and "not stable". */
  const NoReading: int := -1

  /** The fixed configuration of one debouncer. */
  datatype Config = Config(toleranceCm: int, stabilityDurationMs: nat, sampleIntervalMs: nat)

  /** The six state fields of one debouncer. */
  datatype State = State(
    lastReading: int,
    stableReading: int,
    stabilityStartTime: nat,
    lastSampleTime: nat,
    isStable: bool,
    hasReading: bool)

  /** A submitted sample: a height in centimetres and the caller's timestamp. */
  datatype Sample = Sample(reading: int, time: nat)

  /** The state a fresh or reset debouncer is in. */
  function Initial(): State {
    State(NoReading, NoReading, 0, 0, false, false)
  }

  function Abs(x: int): (r: nat)
    ensures r == x || r == -x
  {
    if x < 0 then -x else x
  }

  /** The tolerance test on the absolute difference of two readings. */
  function IsWithinTolerance(toleranceCm: int, reading1: int, reading2: int): (r: bool)
    ensures r <==> reading2 - toleranceCm <= reading1 <= reading2 + toleranceCm
  {
    Abs(reading1 - reading2) <= toleranceCm
  }

  /** Every state a debouncer can reach satisfies this invariant. */
  ghost predicate Inv(c: Config, s: State) {
    (!s.hasReading ==> s == Initial()) &&
    (s.hasReading ==> s.stabilityStartTime <= s.lastSampleTime) &&
    (s.isStable ==>
      s.hasReading && s.stableReading == s.lastReading &&
      s.lastSampleTime - s.stabilityStartTime >= c.stabilityDurationMs)
  }

  /** True when the sample interval gate turns the call into a no-op. */
  predicate TooSoon(c: Config, s: State, t: nat) {
    s.hasReading && t - s.lastSampleTime < c.sampleIntervalMs
  }

  /** The effect of one `update(reading, t)` call on the state. */
  function Step(c: Config, s: State, reading: int, t: nat): (r: State)
    requires Inv(c, s) && s.lastSampleTime <= t
    ensures Inv(c, r)
    ensures r.lastSampleTime <= t
  {
    if TooSoon(c, s, t) then s
    else if !s.hasReading then
      s.(lastReading := reading, stabilityStartTime := t, lastSampleTime := t,
         hasReading := true, isStable := false)
    else if IsWithinTolerance(c.toleranceCm, reading, s.lastReading) then
      if t - s.stabilityStartTime >= c.stabilityDurationMs then
        s.(isStable := true, stableReading := reading, lastReading := reading, lastSampleTime := t)
      else
        s.(lastReading := reading, lastSampleTime := t)
    else
      s.(stabilityStartTime := t, isStable := false, lastReading := reading, lastSampleTime := t)
  }

  /** Samples a caller may submit from state `s`: no timestamp is earlier than
      the last accepted one, and the timestamps never decrease. */
  ghost predicate Chronological(s: State, samples: seq<Sample>) {
    (forall i :: 0 <= i < |samples| ==> s.lastSampleTime <= samples[i].time) &&
    (forall i, j :: 0 <= i < j < |samples| ==> samples[i].time <= samples[j].time)
  }

  /** The state after submitting `samples` in order, starting from `s`. */
  function Run(c: Config, s: State, samples: seq<Sample>): (r: State)
    requires Inv(c, s) && Chronological(s, samples)
    ensures Inv(c, r)
    decreases |samples|
  {
    if samples == [] then s
    else Run(c, Step(c, s, samples[0].reading, samples[0].time), samples[1..])
  }

  class HeightDebouncer {
    // Configuration: fixed at construction.
    const toleranceCm: int
    const stabilityDurationMs: nat
    const sampleIntervalMs: nat

    // State.
    var lastReading: int
    var stableReading: int
    var stabilityStartTime: nat
    var lastSampleTime: nat
    var isStable: bool
    var hasReading: bool

    function Cfg(): Config {
      Config(toleranceCm, stabilityDurationMs, sampleIntervalMs)
    }

    ghost function Snapshot(): State
      reads this
    {
      State(lastReading, stableReading, stabilityStartTime, lastSampleTime, isStable, hasReading)
    }

    ghost predicate Valid()
      reads this
    {
      Inv(Cfg(), Snapshot())
    }

    constructor (toleranceCm: int, stabilityDurationMs: nat, sampleIntervalMs: nat)
      ensures Valid() && Snapshot() == Initial()
      ensures GetToleranceCm() == toleranceCm
      ensures GetStabilityDurationMs() == stabilityDurationMs
      ensures GetSampleIntervalMs() == sampleIntervalMs
      ensures !IsStable() && GetStableReading() == NoReading && GetLastReading() == NoReading
    {
      this.toleranceCm := toleranceCm;
      this.stabilityDurationMs := stabilityDurationMs;
      this.sampleIntervalMs := sampleIntervalMs;
      lastReading := NoReading;
      stableReading := NoReading;
      stabilityStartTime := 0;
      lastSampleTime := 0;
      isStable := false;
      hasReading := false;
    }

    /** The debouncer configured with the height meter's default constants. */
    constructor Default()
      ensures Valid() && Snapshot() == Initial()
      ensures GetToleranceCm() == DebounceConfig.DebounceToleranceCm == 2
      ensures GetStabilityDurationMs() == DebounceConfig.DebounceStabilityDurationMs == 3000
      ensures GetSampleIntervalMs() == DebounceConfig.DebounceSampleIntervalMs == 100
    {
      toleranceCm := DebounceConfig.DebounceToleranceCm;
      stabilityDurationMs := DebounceConfig.DebounceStabilityDurationMs;
      sampleIntervalMs := DebounceConfig.DebounceSampleIntervalMs;
      lastReading := NoReading;
      stableReading := NoReading;
      stabilityStartTime := 0;
      lastSampleTime := 0;
      isStable := false;
      hasReading := false;
    }

    /** Submits one height reading taken at `currentTimeMs`. */
    method Update(currentReading: int, currentTimeMs: nat)
      requires Valid()
      requires lastSampleTime <= currentTimeMs
      modifies this
      ensures Valid()
      ensures Snapshot() == Step(Cfg(), old(Snapshot()), currentReading, currentTimeMs)
    {
      if hasReading && currentTimeMs - lastSampleTime < sampleIntervalMs {
        return;
      }

      lastSampleTime := currentTimeMs;

      if !hasReading {
        lastReading := currentReading;
        stabilityStartTime := currentTimeMs;
        hasReading := true;
        isStable := false;
        return;
      }

      if IsWithinTolerance(toleranceCm, currentReading, lastReading) {
        var stableDuration := currentTimeMs - stabilityStartTime;
        if stableDuration >= stabilityDurationMs {
          isStable := true;
          stableReading := currentReading;
        }
      } else {
        stabilityStartTime := currentTimeMs;
        isStable := false;
      }

      lastReading := currentReading;
    }

    /** True only when readings have stayed within tolerance for the stability duration. */
    function IsStable(): (r: bool)
      reads this
      requires Valid()
      ensures r ==> hasReading && lastSampleTime - stabilityStartTime >= stabilityDurationMs
    {
      isStable
    }

    /** The stable height, which is the latest accepted reading; -1 when not stable. */
    function GetStableReading(): (r: int)
      reads this
      requires Valid()
      ensures isStable ==> r == lastReading
      ensures !isStable ==> r == NoReading
    {
      if isStable then stableReading else NoReading
    }

    /** The most recent accepted reading regardless of stability; -1 before any. */
    function GetLastReading(): (r: int)
      reads this
      requires Valid()
      ensures !hasReading ==> r == NoReading
    {
      lastReading
    }

    /** The stability duration while stable and 0 otherwise: never more than the
        age of the current window. */
    function GetStableDuration(): (r: nat)
      reads this
      requires Valid()
      ensures r == (if isStable then stabilityDurationMs else 0)
      ensures hasReading ==> r <= lastSampleTime - stabilityStartTime
    {
      if !hasReading then 0
      else if isStable then stabilityDurationMs else 0
    }

    /** Restores the initial state; the configuration is untouched. */
    method Reset()
      modifies this
      ensures Valid() && Snapshot() == Initial()
    {
      lastReading := NoReading;
      stableReading := NoReading;
      stabilityStartTime := 0;
      lastSampleTime := 0;
      isStable := false;
      hasReading := false;
    }

    function GetToleranceCm(): int { toleranceCm }
    function GetStabilityDurationMs(): nat { stabilityDurationMs }
    function GetSampleIntervalMs(): nat { sampleIntervalMs }
  }
}
