/** The timelines of the range-gated debouncer's unit tests, replayed on the class.
    The float (BPM) cases use integer-valued readings. */
module ReadingDebouncerScenarios {
  import opened ReadingDebouncing

  method BpmInitialState() returns (stable: bool, hasReading: bool, value: int)
    ensures !stable && !hasReading && value == 0
  {
    var d := new ReadingDebouncer(5, 2000, 200, 40, 200);
    stable, hasReading, value := d.IsStable(), d.HasValidReading(), d.GetStableReading();
  }

  method BpmBelowRangeIsInvalid() returns (hasAfterZero: bool, validAfterZero: bool, hasAfterThirty: bool)
    ensures !hasAfterZero && !validAfterZero && !hasAfterThirty
  {
    var d := new ReadingDebouncer(5, 1000, 100, 40, 200);
    d.Update(0, 0);
    hasAfterZero, validAfterZero := d.HasValidReading(), d.IsLastReadingValid();
    d.Update(30, 200);
    hasAfterThirty := d.HasValidReading();
  }

  method BpmAboveRangeIsInvalid() returns (hasReading: bool, valid: bool)
    ensures !hasReading && !valid
  {
    var d := new ReadingDebouncer(5, 1000, 100, 40, 200);
    d.Update(250, 0);
    hasReading, valid := d.HasValidReading(), d.IsLastReadingValid();
  }

  method BpmStableAfterDuration() returns (firstHas: bool, firstStable: bool, earlyStable: bool,
                                           stable: bool, value: int)
    ensures firstHas && !firstStable && !earlyStable && stable && value == 72
  {
    var d := new ReadingDebouncer(5, 1000, 100, 40, 200);
    d.Update(72, 0);
    firstHas, firstStable := d.HasValidReading(), d.IsStable();
    d.Update(73, 200);
    d.Update(71, 400);
    d.Update(72, 600);
    d.Update(74, 800);
    earlyStable := d.IsStable();
    d.Update(72, 1000);
    stable, value := d.IsStable(), d.GetStableReading();
  }

  method BpmJumpNeedsFullDuration() returns (afterJump: bool, stable: bool, value: int)
    ensures !afterJump && stable && value == 90
  {
    var d := new ReadingDebouncer(5, 1000, 100, 40, 200);
    d.Update(72, 0);
    d.Update(73, 200);
    d.Update(74, 400);
    d.Update(90, 600);
    afterJump := d.IsStable();
    d.Update(90, 800);
    d.Update(91, 1000);
    d.Update(89, 1200);
    d.Update(90, 1400);
    d.Update(90, 1600);
    stable, value := d.IsStable(), d.GetStableReading();
  }

  method BpmInvalidReadingResets() returns (stableBefore: bool, stableAfter: bool, hasAfter: bool)
    ensures stableBefore && !stableAfter && !hasAfter
  {
    var d := new ReadingDebouncer(5, 1000, 100, 40, 200);
    d.Update(72, 0);
    d.Update(72, 200);
    d.Update(72, 400);
    d.Update(72, 600);
    d.Update(72, 800);
    d.Update(72, 1000);
    stableBefore := d.IsStable();
    d.Update(0, 1200);
    stableAfter, hasAfter := d.IsStable(), d.HasValidReading();
  }

  method Spo2InitialState() returns (stable: bool, hasReading: bool)
    ensures !stable && !hasReading
  {
    var d := new ReadingDebouncer(2, 2000, 200, 50, 100);
    stable, hasReading := d.IsStable(), d.HasValidReading();
  }

  method Spo2BelowRangeIsInvalid() returns (hasAfterZero: bool, hasAfterForty: bool)
    ensures !hasAfterZero && !hasAfterForty
  {
    var d := new ReadingDebouncer(2, 1000, 100, 50, 100);
    d.Update(0, 0);
    hasAfterZero := d.HasValidReading();
    d.Update(40, 200);
    hasAfterForty := d.HasValidReading();
  }

  method Spo2StableAfterDuration() returns (firstHas: bool, firstStable: bool, earlyStable: bool,
                                            stable: bool, value: int)
    ensures firstHas && !firstStable && !earlyStable && stable && value == 98
  {
    var d := new ReadingDebouncer(2, 1000, 100, 50, 100);
    d.Update(98, 0);
    firstHas, firstStable := d.HasValidReading(), d.IsStable();
    d.Update(97, 200);
    d.Update(99, 400);
    d.Update(98, 600);
    d.Update(98, 800);
    earlyStable := d.IsStable();
    d.Update(98, 1000);
    stable, value := d.IsStable(), d.GetStableReading();
  }

  method Spo2DropNeedsFullDuration() returns (afterDrop: bool, stable: bool)
    ensures !afterDrop && stable
  {
    var d := new ReadingDebouncer(2, 1000, 100, 50, 100);
    d.Update(98, 0);
    d.Update(98, 200);
    d.Update(92, 400);
    afterDrop := d.IsStable();
    d.Update(92, 600);
    d.Update(93, 800);
    d.Update(92, 1000);
    d.Update(92, 1200);
    d.Update(91, 1400);
    stable := d.IsStable();
  }

  method Spo2RangeBoundsAreValid() returns (lowHas: bool, lowValid: bool, highHas: bool, highValid: bool)
    ensures lowHas && lowValid && highHas && highValid
  {
    var d := new ReadingDebouncer(2, 500, 100, 50, 100);
    d.Update(50, 0);
    lowHas, lowValid := d.HasValidReading(), d.IsLastReadingValid();
    d.Reset();
    d.Update(100, 0);
    highHas, highValid := d.HasValidReading(), d.IsLastReadingValid();
  }

  method SampleIntervalRespected() returns (earlyStable: bool, stable: bool)
    ensures !earlyStable && stable
  {
    var d := new ReadingDebouncer(2, 500, 200, 50, 100);
    d.Update(98, 0);
    d.Update(98, 50);
    d.Update(98, 80);
    earlyStable := d.IsStable();
    d.Update(98, 200);
    d.Update(98, 400);
    d.Update(98, 600);
    d.Update(98, 800);
    d.Update(98, 1000);
    stable := d.IsStable();
  }

  method ResetClearsState() returns (stableBefore: bool, stable: bool, hasReading: bool, value: int)
    ensures stableBefore && !stable && !hasReading && value == 0
  {
    var d := new ReadingDebouncer(5, 500, 200, 40, 200);
    d.Update(72, 0);
    d.Update(72, 200);
    d.Update(72, 400);
    d.Update(72, 600);
    stableBefore := d.IsStable();
    d.Reset();
    stable, hasReading, value := d.IsStable(), d.HasValidReading(), d.GetStableReading();
  }

  method StableValueTracksLatest() returns (s1: bool, s2: bool, s3: bool, value: int)
    ensures s1 && s2 && s3 && value == 99
  {
    var d := new ReadingDebouncer(2, 500, 200, 50, 100);
    d.Update(98, 0);
    d.Update(98, 200);
    d.Update(98, 400);
    d.Update(98, 600);
    s1 := d.IsStable();
    d.Update(97, 800);
    s2 := d.IsStable();
    d.Update(99, 1000);
    s3, value := d.IsStable(), d.GetStableReading();
  }

  method ToleranceBoundaryIsInclusive() returns (stable: bool)
    ensures stable
  {
    var d := new ReadingDebouncer(5, 500, 200, 50, 100);
    d.Update(95, 0);
    d.Update(100, 200);
    d.Update(95, 400);
    d.Update(100, 600);
    stable := d.IsStable();
  }

  method JustOutsideToleranceRestarts() returns (stable: bool)
    ensures !stable
  {
    var d := new ReadingDebouncer(5, 500, 200, 50, 100);
    d.Update(90, 0);
    d.Update(90, 200);
    d.Update(90, 400);
    d.Update(96, 600);
    stable := d.IsStable();
  }
}
