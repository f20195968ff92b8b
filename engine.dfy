/**
  The composition of src/index.ts: one per-sensor store and one all-sensors
  record (the "local db", src/index.ts:28-39), a reading recorded into both with
  the same date key (src/index.ts:60-63), and the daily timer body that
  recomputes both weekly rollups (src/index.ts:46-49). Transport, timers and
  clocks are outside the model: the date key and `today` are parameters.
*/
module Engine {
  import opened Wrappers
  import opened Stats
  import opened Tally
  import opened Window
  import opened Stores

  /** What one sensor's bucket for day `d` contributes to the global bucket of that day. */
  ghost function Contribution(e: SensorEntry, d: Day): Totals
  {
    if d in e.statisticsByDate then TallyOf(e.statisticsByDate[d].statistics) else NoTotals
  }

  ghost function DayContributions(sensors: map<SensorName, SensorEntry>, d: Day): map<SensorName, Totals>
  {
    map n | n in sensors :: Contribution(sensors[n], d)
  }

  ghost predicate HasDay(sensors: map<SensorName, SensorEntry>, d: Day)
  {
    exists n :: n in sensors && d in sensors[n].statisticsByDate
  }

  /**
    The global store agrees with the per-sensor store: it has a bucket for exactly
    the days some sensor has, and each global bucket's count and sum are the
    totals over all sensors of their buckets for that day.
  */
  ghost predicate Consistent(sensors: map<SensorName, SensorEntry>, byDate: map<Day, Statistics>)
  {
    && (forall d :: d in byDate ==> HasDay(sensors, d))
    && (forall d :: HasDay(sensors, d) ==> d in byDate)
    && (forall d :: d in byDate ==> TallyOf(byDate[d]) == Total(DayContributions(sensors, d)))
  }

  /** A new entry contributes (1, v) on its day and nothing on any other. */
  lemma NewEntryContribution(v: Value, d: Day, d': Day)
    ensures Contribution(NewEntry(v, d), d') == if d' == d then Totals(1, v) else NoTotals
  {
  }

  /** Ingesting `v` on day `d` adds (1, v) to the entry's contribution on `d` and leaves the others. */
  lemma IngestEntryContribution(e: SensorEntry, v: Value, d: Day, d': Day)
    ensures Contribution(IngestEntry(e, v, d), d') == if d' == d then Plus(Contribution(e, d'), Totals(1, v)) else Contribution(e, d')
  {
  }

  /** Replacing one sensor's entry replaces just that sensor's contribution. */
  lemma ReplaceContribution(sensors: map<SensorName, SensorEntry>, name: SensorName, e: SensorEntry, d: Day)
    ensures DayContributions(sensors[name := e], d) == DayContributions(sensors, d)[name := Contribution(e, d)]
  {
  }

  /** Recording `v` for `name` on day `d` adds exactly (1, v) to day `d`'s totals over sensors, nothing to other days. */
  lemma IngestContribution(sensors: map<SensorName, SensorEntry>, name: SensorName, v: Value, d: Day, d': Day)
    ensures d' == d ==> Total(DayContributions(IngestSensor(sensors, name, v, d), d')) == Plus(Total(DayContributions(sensors, d')), Totals(1, v))
    ensures d' != d ==> Total(DayContributions(IngestSensor(sensors, name, v, d), d')) == Total(DayContributions(sensors, d'))
  {
    var c := DayContributions(sensors, d');
    var before := if name in c then c[name] else NoTotals;
    var delta := if d' == d then Totals(1, v) else NoTotals;
    var e;
    if name in sensors {
      e := IngestEntry(sensors[name], v, d);
      IngestEntryContribution(sensors[name], v, d, d');
    } else {
      e := NewEntry(v, d);
      NewEntryContribution(v, d, d');
    }
    assert IngestSensor(sensors, name, v, d) == sensors[name := e];
    if d' != d {
      PlusZero(before);
    }
    assert Contribution(e, d') == Plus(before, delta);
    ReplaceContribution(sensors, name, e, d');
    TotalShift(c, DayContributions(sensors[name := e], d'), name, delta);
    if d' != d {
      PlusZero(Total(c));
    }
  }

  /** `Record` keeps the two stores consistent. */
  lemma RecordKeepsConsistent(sensors: map<SensorName, SensorEntry>, byDate: map<Day, Statistics>, name: SensorName, v: Value, d: Day)
    requires Consistent(sensors, byDate)
    ensures Consistent(IngestSensor(sensors, name, v, d), IngestDay(byDate, v, d))
  {
    var s', g' := IngestSensor(sensors, name, v, d), IngestDay(byDate, v, d);
    forall d' | d' in g' ensures HasDay(s', d') {
      if d' == d {
        assert name in s' && d in s'[name].statisticsByDate;
      } else {
        var n :| n in sensors && d' in sensors[n].statisticsByDate;
        assert n in s' && d' in s'[n].statisticsByDate;
      }
    }
    forall d' | HasDay(s', d') ensures d' in g' {
      var n :| n in s' && d' in s'[n].statisticsByDate;
      if d' != d {
        assert n in sensors && d' in sensors[n].statisticsByDate;
      }
    }
    forall d' | d' in g' ensures TallyOf(g'[d']) == Total(DayContributions(s', d')) {
      IngestContribution(sensors, name, v, d, d');
      if d' == d && d !in byDate {
        forall n | n in sensors ensures DayContributions(sensors, d)[n] == NoTotals {
          assert !(n in sensors && d in sensors[n].statisticsByDate);
        }
        TotalOfZeros(DayContributions(sensors, d));
      }
    }
  }

  /** The recompute touches no day bucket, so the stores stay consistent. */
  lemma RecomputeKeepsConsistent(sensors: map<SensorName, SensorEntry>, byDate: map<Day, Statistics>, today: Day)
    requires Consistent(sensors, byDate)
    ensures Consistent(RecomputeAll(sensors, today), byDate)
  {
    var s' := RecomputeAll(sensors, today);
    forall d ensures DayContributions(s', d) == DayContributions(sensors, d) && (HasDay(s', d) <==> HasDay(sensors, d)) {
      if HasDay(sensors, d) {
        var n :| n in sensors && d in sensors[n].statisticsByDate;
        assert n in s' && d in s'[n].statisticsByDate;
      }
    }
  }

  class Engine {
    const perSensor: SensorStore
    const allSensors: AllSensorsData

    ghost predicate Valid()
      reads perSensor, allSensors
    {
      && perSensor.Valid()
      && allSensors.Valid()
      && Consistent(perSensor.sensors, allSensors.statisticsByDate)
    }

    /** Both stores empty, the global rollup zero/null (src/index.ts:29-39). */
    constructor ()
      ensures Valid() && fresh(perSensor) && fresh(allSensors)
      ensures perSensor.sensors == map[]
      ensures allSensors.statisticsByDate == map[] && allSensors.weekStatistics == Zero()
    {
      perSensor := new SensorStore();
      allSensors := new AllSensorsData();
    }

    /** A reading of sensor `sensorName` on day `dateNow`, recorded into both stores (src/index.ts:60-63). */
    method Record(sensorName: SensorName, value: Value, dateNow: Day)
      requires Valid()
      modifies perSensor, allSensors
      ensures Valid()
      ensures perSensor.sensors == IngestSensor(old(perSensor.sensors), sensorName, value, dateNow)
      ensures allSensors.statisticsByDate == IngestDay(old(allSensors.statisticsByDate), value, dateNow)
      ensures allSensors.weekStatistics == Update(old(allSensors.weekStatistics), value)
    {
      RecordKeepsConsistent(perSensor.sensors, allSensors.statisticsByDate, sensorName, value, dateNow);
      perSensor.UpdateSensorData(sensorName, value, dateNow);
      allSensors.UpdateAllSensorsData(value, dateNow);
    }

    /** The body of the daily timer (src/index.ts:46-49), with the current day as `today`. */
    method UpdateWeekStatistics(today: Day)
      requires Valid()
      modifies perSensor, allSensors
      ensures Valid()
      ensures perSensor.sensors == RecomputeAll(old(perSensor.sensors), today)
      ensures allSensors.statisticsByDate == old(allSensors.statisticsByDate)
      ensures allSensors.weekStatistics == WeekOf(allSensors.statisticsByDate, today)
    {
      RecomputeKeepsConsistent(perSensor.sensors, allSensors.statisticsByDate, today);
      perSensor.UpdateWeekStatisticsForEachSensor(today);
      allSensors.UpdateWeekStatisticsForAllSensors(today);
    }
  }

  /** The day-0 bucket of tempA after the readings 10 and 30. */
  function TempADay(): SensorDayRecord
  {
    SensorDayRecord(Statistics(2, 40.0, Some(10.0), Some(30.0)), [10.0, 30.0])
  }

  /** The global day-0 bucket after the readings 10, 30 (tempA) and 5 (tempB). */
  function AllDay(): Statistics
  {
    Statistics(3, 45.0, Some(5.0), Some(30.0))
  }

  /** Recording tempA 10, tempA 30 and tempB 5 on day 0 into empty stores. */
  lemma ScenarioIngest()
    ensures var s1 := IngestSensor(map[], "tempA", 10.0, 0);
      var s2 := IngestSensor(s1, "tempA", 30.0, 0);
      var s3 := IngestSensor(s2, "tempB", 5.0, 0);
      && s3["tempA"] == SensorEntry(map[0 := TempADay()], TempADay().statistics)
      && IngestDay(IngestDay(IngestDay(map[], 10.0, 0), 30.0, 0), 5.0, 0) == map[0 := AllDay()]
      && Update(Update(Update(Zero(), 10.0), 30.0), 5.0) == AllDay()
  {
    var s1 := IngestSensor(map[], "tempA", 10.0, 0);
    assert s1 == map["tempA" := SensorEntry(map[0 := FirstRecord(10.0)], Init(10.0))];
    assert [10.0] + [30.0] == TempADay().allDataOfSensor;
    var s2 := IngestSensor(s1, "tempA", 30.0, 0);
    assert s2["tempA"] == SensorEntry(map[0 := TempADay()], TempADay().statistics);
    assert "tempA" != "tempB";
  }

  /** The recompute on day 7 still sees day 0; on day 8 it no longer does. */
  lemma ScenarioRecompute()
    ensures WeekOf(map[0 := AllDay()], 7) == AllDay()
    ensures WeekOf(DayStatistics(map[0 := TempADay()]), 7) == TempADay().statistics
    ensures WeekOf(map[0 := AllDay()], 8) == Zero()
  {
    assert InWindow(map[0 := AllDay()], 7, WeekLength).Keys == {0};
    SingleBucketWeek(map[0 := AllDay()], 7, 0);
    assert DayStatistics(map[0 := TempADay()]) == map[0 := TempADay().statistics];
    assert InWindow(map[0 := TempADay().statistics], 7, WeekLength).Keys == {0};
    SingleBucketWeek(map[0 := TempADay().statistics], 7, 0);
    assert InWindow(map[0 := AllDay()], 8, WeekLength) == map[];
    EmptyWindowWeek(map[0 := AllDay()], 8, WeekLength);
  }

  /**
    A client of the engine: three readings on day 0, then the recompute on day 7
    (day 0 is inside the window) and on day 8 (it has left the window).
  */
  method ThreeReadingsScenario() returns (ingested: Statistics, onDay7: Statistics, tempAOnDay7: Statistics, onDay8: Statistics)
    ensures ingested == AllDay() && onDay7 == AllDay()
    ensures tempAOnDay7 == TempADay().statistics
    ensures onDay8 == Zero()
  {
    ScenarioIngest();
    ScenarioRecompute();
    var engine := new Engine();
    engine.Record("tempA", 10.0, 0);
    engine.Record("tempA", 30.0, 0);
    engine.Record("tempB", 5.0, 0);
    ingested := engine.allSensors.weekStatistics;

    engine.UpdateWeekStatistics(7);
    onDay7 := engine.allSensors.weekStatistics;
    tempAOnDay7 := engine.perSensor.sensors["tempA"].weekStatistics;

    engine.UpdateWeekStatistics(8);
    onDay8 := engine.allSensors.weekStatistics;
  }
}
