/** The timelines of the height debouncer's unit tests, replayed on the class. */
module HeightDebouncerScenarios {
  import opened HeightDebouncing

  method ConstructorKeepsParameters() returns (tolerance: int, duration: nat, interval: nat)
    ensures tolerance == 5 && duration == 2000 && interval == 50
  {
    var d := new HeightDebouncer(5, 2000, 50);
    tolerance, duration, interval := d.GetToleranceCm(), d.GetStabilityDurationMs(), d.GetSampleIntervalMs();
  }

  method DefaultConstructorUsesConfig() returns (tolerance: int, duration: nat, interval: nat, stable: bool)
    ensures tolerance == 2 && duration == 3000 && interval == 100 && !stable
  {
    var d := new HeightDebouncer.Default();
    tolerance, duration, interval := d.GetToleranceCm(), d.GetStabilityDurationMs(), d.GetSampleIntervalMs();
    stable := d.IsStable();
  }

  method InitialState() returns (stable: bool, stableValue: int, last: int)
    ensures !stable && stableValue == -1 && last == -1
  {
    var d := new HeightDebouncer(2, 3000, 100);
    stable, stableValue, last := d.IsStable(), d.GetStableReading(), d.GetLastReading();
  }

  method FirstReadingNotStable() returns (stable: bool, last: int, stableValue: int)
    ensures !stable && last == 100 && stableValue == -1
  {
    var d := new HeightDebouncer(2, 3000, 100);
    d.Update(100, 0);
    stable, last, stableValue := d.IsStable(), d.GetLastReading(), d.GetStableReading();
  }

  method StableAfterDuration() returns (s0: bool, s1: bool, s2: bool, s3: bool, stable: bool, value: int)
    ensures !s0 && !s1 && !s2 && !s3 && stable && value == 100
  {
    var d := new HeightDebouncer(2, 1000, 100);
    d.Update(100, 0);
    s0 := d.IsStable();
    d.Update(100, 200);
    s1 := d.IsStable();
    d.Update(100, 500);
    s2 := d.IsStable();
    d.Update(100, 800);
    s3 := d.IsStable();
    d.Update(100, 1000);
    stable, value := d.IsStable(), d.GetStableReading();
  }

  method WithinToleranceStabilises() returns (stable: bool)
    ensures stable
  {
    var d := new HeightDebouncer(3, 1000, 100);
    d.Update(100, 0);
    d.Update(101, 200);
    d.Update(99, 400);
    d.Update(102, 600);
    d.Update(100, 800);
    d.Update(101, 1000);
    stable := d.IsStable();
  }

  method OutsideToleranceNeedsFullDuration() returns (s0: bool, s1: bool, s2: bool, stable: bool, value: int)
    ensures !s0 && !s1 && !s2 && stable && value == 110
  {
    var d := new HeightDebouncer(2, 1000, 100);
    d.Update(100, 0);
    d.Update(100, 200);
    d.Update(100, 400);
    d.Update(100, 600);
    d.Update(100, 800);
    d.Update(110, 900);
    s0 := d.IsStable();
    d.Update(110, 1100);
    s1 := d.IsStable();
    d.Update(110, 1500);
    s2 := d.IsStable();
    d.Update(110, 1900);
    stable, value := d.IsStable(), d.GetStableReading();
  }

  method SampleIntervalRespected() returns (earlyStable: bool, stable: bool)
    ensures !earlyStable && stable
  {
    var d := new HeightDebouncer(2, 500, 100);
    d.Update(100, 0);
    d.Update(100, 50);
    d.Update(100, 80);
    earlyStable := d.IsStable();
    d.Update(100, 100);
    d.Update(100, 200);
    d.Update(100, 300);
    d.Update(100, 400);
    d.Update(100, 500);
    stable := d.IsStable();
  }

  method ResetClearsState() returns (stableBefore: bool, stable: bool, stableValue: int, last: int)
    ensures stableBefore && !stable && stableValue == -1 && last == -1
  {
    var d := new HeightDebouncer(2, 500, 100);
    d.Update(100, 0);
    d.Update(100, 200);
    d.Update(100, 400);
    d.Update(100, 600);
    stableBefore := d.IsStable();
    d.Reset();
    stable, stableValue, last := d.IsStable(), d.GetStableReading(), d.GetLastReading();
  }

  method ZeroReadingsStabilise() returns (stable: bool, value: int)
    ensures stable && value == 0
  {
    var d := new HeightDebouncer(2, 500, 100);
    d.Update(0, 0);
    d.Update(0, 200);
    d.Update(0, 400);
    d.Update(0, 600);
    stable, value := d.IsStable(), d.GetStableReading();
  }

  method FluctuatingNeverStabilises() returns (stable: bool)
    ensures !stable
  {
    var d := new HeightDebouncer(2, 1000, 100);
    d.Update(100, 0);
    d.Update(110, 200);
    d.Update(95, 400);
    d.Update(105, 600);
    d.Update(90, 800);
    d.Update(100, 1000);
    d.Update(85, 1200);
    stable := d.IsStable();
  }

  method SmallVariationsStabilise() returns (stable: bool)
    ensures stable
  {
    var d := new HeightDebouncer(5, 1000, 100);
    d.Update(100, 0);
    d.Update(102, 200);
    d.Update(98, 400);
    d.Update(103, 600);
    d.Update(99, 800);
    d.Update(101, 1000);
    stable := d.IsStable();
  }

  method ToleranceBoundaryIsInclusive() returns (stable: bool)
    ensures stable
  {
    var d := new HeightDebouncer(5, 500, 100);
    d.Update(100, 0);
    d.Update(105, 200);
    d.Update(100, 400);
    d.Update(105, 600);
    stable := d.IsStable();
  }

  method JustOutsideToleranceRestarts() returns (stable: bool)
    ensures !stable
  {
    var d := new HeightDebouncer(5, 500, 100);
    d.Update(100, 0);
    d.Update(100, 200);
    d.Update(100, 400);
    d.Update(106, 600);
    stable := d.IsStable();
  }

  method StableValueTracksLatest() returns (s0: bool, v0: int, s1: bool, s2: bool, value: int)
    ensures s0 && v0 == 100 && s1 && s2 && value == 99
  {
    var d := new HeightDebouncer(2, 500, 100);
    d.Update(100, 0);
    d.Update(100, 200);
    d.Update(100, 400);
    d.Update(100, 600);
    s0, v0 := d.IsStable(), d.GetStableReading();
    d.Update(101, 800);
    s1 := d.IsStable();
    d.Update(99, 1000);
    s2, value := d.IsStable(), d.GetStableReading();
  }

  method LargeValuesStabilise() returns (stable: bool, value: int)
    ensures stable && value == 199
  {
    var d := new HeightDebouncer(2, 500, 100);
    d.Update(199, 0);
    d.Update(200, 200);
    d.Update(198, 400);
    d.Update(199, 600);
    stable, value := d.IsStable(), d.GetStableReading();
  }

  method StableDurationReport() returns (before: nat, afterFirst: nat, whenStable: nat)
    ensures before == 0 && afterFirst == 0 && whenStable == 500
  {
    var d := new HeightDebouncer(2, 500, 100);
    before := d.GetStableDuration();
    d.Update(100, 0);
    afterFirst := d.GetStableDuration();
    d.Update(100, 200);
    d.Update(100, 400);
    d.Update(100, 600);
    whenStable := d.GetStableDuration();
  }
}
