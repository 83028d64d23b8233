/** The behaviour the test suite asserts, stated on the specification
    functions with concrete readings and times, plus two substitution
    examples for the failure branches of the refresh. */
module Scenarios {
  import opened Readings
  import opened CoordinatorSpec
  import Const

  const Morning := Timestamp(19657 * SecondsPerDay + 36000)
  const Noon := Timestamp(19657 * SecondsPerDay + 43200)
  const NextMorning := Timestamp(19658 * SecondsPerDay + 36000)

  /** Period 10 s, no cache, two timeouts: each raises `UpdateFailed` and the
      period goes 10 s, 20 s, 40 s. */
  lemma TwoTimeoutsWithoutCache()
    ensures var (s1, r1) := RefreshStep(Initial(10, None), Failed(Timeout), Morning, Saved);
            var (s2, r2) := RefreshStep(s1, Failed(Timeout), Noon, Saved);
            && r1 == UpdateFailed(Transport(Timeout)) && s1.interval == 20
            && r2 == UpdateFailed(Transport(Timeout)) && s2.interval == 40
  {
  }

  /** A period of four minutes backs off to five, not eight. */
  lemma BackoffCapsAtFiveMinutes()
    ensures var (s1, r1) := RefreshStep(Initial(10, None).(interval := 240), Failed(Timeout), Morning, Saved);
            s1.interval == 300 && r1.UpdateFailed?
  {
  }

  /** One timeout raises the period to 20 s; the next successful refresh puts
      it back to 10 s and returns the reading. */
  lemma SuccessResetsPeriod()
    ensures var (s1, _) := RefreshStep(Initial(10, None), Failed(Timeout), Morning, Saved);
            var reading := map["Mac" := Text("11:22:33:44:55:66")];
            var (s2, r2) := RefreshStep(s1, Received(Object(reading)), Noon, Saved);
            && s1.interval == 20
            && s2.interval == 10
            && r2 == Data(reading)
  {
  }

  /** Loading a stored record seeds cache and time; the next successful
      refresh writes the new reading, with a time, back to storage. */
  lemma LoadThenSave()
    ensures var earlier := map["Mac" := Text("AA:BB:CC:DD:EE:FF")];
            var latest := map["Mac" := Text("11:22:33:44:55:66")];
            var s1 := Loaded(Initial(10, Some(StoredRecord(earlier, Some(Morning)))), true);
            var (s2, _) := RefreshStep(s1, Received(Object(latest)), Noon, Saved);
            && s1.lastData == Some(earlier) && s1.lastTime == Some(Morning)
            && s2.stored.Some? && s2.stored.value.data == latest && s2.stored.value.timestamp.Some?
  {
  }

  /** A cache from earlier today keeps today's energy and zeroes the power. */
  lemma SameDayCacheKeepsEnergy()
    ensures var cache := map["TodayGenerateEnergy" := Float(5.2), "InputPower" := Int(300)];
            var s := Initial(10, None).(lastData := Some(cache), lastTime := Some(Morning));
            RefreshStep(s, Failed(ClientError), Noon, Saved).1
              == Data(map["TodayGenerateEnergy" := Float(5.2), "InputPower" := Zero])
  {
    var cache := map["TodayGenerateEnergy" := Float(5.2), "InputPower" := Int(300)];
    assert "InputPower" in cache;
    assert "TodayGenerateEnergy" in Const.DailySensors && "InputPower" !in Const.DailySensors;
    assert SameDaySubstitute(cache) == map["TodayGenerateEnergy" := Float(5.2), "InputPower" := Zero];
  }

  /** The same cache from yesterday zeroes every field. */
  lemma NewDayCacheZeroesAll()
    ensures var cache := map["TodayGenerateEnergy" := Float(5.2), "InputPower" := Int(300)];
            var s := Initial(10, None).(lastData := Some(cache), lastTime := Some(Morning));
            RefreshStep(s, Failed(ClientError), NextMorning, Saved).1
              == Data(map["TodayGenerateEnergy" := Zero, "InputPower" := Zero])
  {
    var cache := map["TodayGenerateEnergy" := Float(5.2), "InputPower" := Int(300)];
    assert "InputPower" in cache;
    assert AllZeroSubstitute(cache) == map["TodayGenerateEnergy" := Zero, "InputPower" := Zero];
  }

  /** A reading fetched at 23:59:55 whose save is cut off at 00:00:05 is
      cached with the earlier time, yet the caller gets its all-zero
      substitute, because the failure branch reads the clock after midnight. */
  lemma SaveTimeoutAcrossMidnight()
    ensures var reading := map["TodayGenerateEnergy" := Float(5.2)];
            var (s1, r1) := RefreshStep(Initial(10, None), Received(Object(reading)),
                                        Timestamp(19658 * SecondsPerDay - 5),
                                        SaveTimedOut(false, Timestamp(19658 * SecondsPerDay + 5)));
            && s1.lastData == Some(reading) && s1.lastTime == Some(Timestamp(19658 * SecondsPerDay - 5))
            && s1.interval == 20
            && r1 == Data(map["TodayGenerateEnergy" := Zero])
  {
    var reading := map["TodayGenerateEnergy" := Float(5.2)];
    assert "TodayGenerateEnergy" in reading;
    assert DayOf(Timestamp(19658 * SecondsPerDay - 5)) == 19657;
    assert DayOf(Timestamp(19658 * SecondsPerDay + 5)) == 19658;
    assert AllZeroSubstitute(reading) == map["TodayGenerateEnergy" := Zero];
  }
}
