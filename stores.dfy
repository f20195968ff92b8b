/**
  The two in-memory stores of src/utils.ts and the operations that change them:
  `updateSensorData` and `updateWeekStatisticsForEachSensor` on the per-sensor
  map, `updateAllSensorsData` and `updateWeekStatisticsForAllSensors` on the
  all-sensors record. The shapes follow src/types.ts:14-31.
*/
module Stores {
  import opened Wrappers
  import opened Stats
  import opened Window

  type SensorName = string

  /** One sensor's statistics for one day, with every raw reading of that day in arrival order. */
  datatype SensorDayRecord = SensorDayRecord(statistics: Statistics, allDataOfSensor: seq<Value>)

  /** One sensor's day buckets and its weekly rollup. */
  datatype SensorEntry = SensorEntry(statisticsByDate: map<Day, SensorDayRecord>, weekStatistics: Statistics)

  /** The bucket created for the first reading `v` of a day. */
  function FirstRecord(v: Value): (r: SensorDayRecord)
    ensures RecordValid(r) && r.allDataOfSensor == [v]
  {
    SensorDayRecord(Init(v), [v])
  }

  /** A per-sensor bucket is the statistics of its (non-empty) raw readings. */
  ghost predicate RecordValid(r: SensorDayRecord)
  {
    |r.allDataOfSensor| > 0 && Summarizes(r.statistics, r.allDataOfSensor)
  }

  ghost predicate SensorsValid(sensors: map<SensorName, SensorEntry>)
  {
    forall n, d :: n in sensors && d in sensors[n].statisticsByDate ==> RecordValid(sensors[n].statisticsByDate[d])
  }

  /** A global bucket is well formed and holds at least one reading. */
  ghost predicate DaysValid(byDate: map<Day, Statistics>)
  {
    forall d :: d in byDate ==> Wellformed(byDate[d]) && byDate[d].count > 0
  }

  /** The entry created for a sensor's first reading `v`, on day `d`. */
  function NewEntry(v: Value, d: Day): SensorEntry
  {
    SensorEntry(map[d := FirstRecord(v)], Init(v))
  }

  /** A known sensor's entry after its reading `v` on day `d`. */
  function IngestEntry(e: SensorEntry, v: Value, d: Day): SensorEntry
  {
    var day :=
      if d in e.statisticsByDate then
        var r := e.statisticsByDate[d];
        SensorDayRecord(Update(r.statistics, v), r.allDataOfSensor + [v])
      else FirstRecord(v);
    SensorEntry(e.statisticsByDate[d := day], Update(e.weekStatistics, v))
  }

  /** The per-sensor map after `updateSensorData(sensors, name, v, d)`. */
  function IngestSensor(sensors: map<SensorName, SensorEntry>, name: SensorName, v: Value, d: Day): map<SensorName, SensorEntry>
  {
    sensors[name := if name in sensors then IngestEntry(sensors[name], v, d) else NewEntry(v, d)]
  }

  /** The global day map after `updateAllSensorsData(g, v, d)` (its weekly rollup is `Update(week, v)`). */
  function IngestDay(byDate: map<Day, Statistics>, v: Value, d: Day): map<Day, Statistics>
  {
    byDate[d := if d in byDate then Update(byDate[d], v) else Init(v)]
  }

  /** The statistics of each per-sensor day bucket, without the raw readings. */
  function DayStatistics(byDate: map<Day, SensorDayRecord>): map<Day, Statistics>
  {
    map d | d in byDate :: byDate[d].statistics
  }

  /** A sensor entry after the per-sensor recompute. */
  function WithRecomputedWeek(e: SensorEntry, today: Day): SensorEntry
  {
    e.(weekStatistics := WeekOf(DayStatistics(e.statisticsByDate), today))
  }

  /** The per-sensor map after `updateWeekStatisticsForEachSensor` run on day `today`. */
  function RecomputeAll(sensors: map<SensorName, SensorEntry>, today: Day): map<SensorName, SensorEntry>
  {
    map n | n in sensors :: WithRecomputedWeek(sensors[n], today)
  }

  /**
    The case split of updateSensorData. An unseen sensor gets an entry whose rollup
    and only bucket hold just `v`; a known sensor has `v` folded into its rollup and
    into the `d` bucket (created when missing), with `v` appended to that bucket's
    raw readings. No other day and no other sensor changes.
  */
  lemma IngestSensorEffect(sensors: map<SensorName, SensorEntry>, name: SensorName, v: Value, d: Day)
    ensures var r := IngestSensor(sensors, name, v, d);
      && r.Keys == sensors.Keys + {name}
      && (forall n :: n in sensors && n != name ==> r[n] == sensors[n])
      && (name !in sensors ==>
            && r[name].weekStatistics == Init(v)
            && r[name].statisticsByDate.Keys == {d}
            && r[name].statisticsByDate[d] == FirstRecord(v))
      && (name in sensors ==>
            var old_ := sensors[name].statisticsByDate;
            && r[name].weekStatistics == Update(sensors[name].weekStatistics, v)
            && r[name].statisticsByDate.Keys == old_.Keys + {d}
            && (forall d' :: d' in old_ && d' != d ==> r[name].statisticsByDate[d'] == old_[d'])
            && (d !in old_ ==> r[name].statisticsByDate[d] == FirstRecord(v))
            && (d in old_ ==>
                  && r[name].statisticsByDate[d].statistics == Update(old_[d].statistics, v)
                  && r[name].statisticsByDate[d].allDataOfSensor == old_[d].allDataOfSensor + [v]))
  {
  }

  /** Every per-sensor bucket stays the exact statistics of its raw readings. */
  lemma IngestSensorKeepsValid(sensors: map<SensorName, SensorEntry>, name: SensorName, v: Value, d: Day)
    requires SensorsValid(sensors)
    ensures SensorsValid(IngestSensor(sensors, name, v, d))
  {
    if name in sensors && d in sensors[name].statisticsByDate {
      var r := sensors[name].statisticsByDate[d];
      UpdateSummarizes(r.statistics, r.allDataOfSensor, v);
    }
  }

  /**
    Between recomputes the weekly rollup of a sensor is the statistics of every
    reading ever recorded for it: if it summarized `history`, it now summarizes
    `history + [v]` (and just `[v]` for a new sensor).
  */
  lemma IngestSensorWeek(sensors: map<SensorName, SensorEntry>, name: SensorName, v: Value, d: Day, history: seq<Value>)
    requires name in sensors ==> Summarizes(sensors[name].weekStatistics, history)
    ensures Summarizes(IngestSensor(sensors, name, v, d)[name].weekStatistics, (if name in sensors then history else []) + [v])
  {
    if name in sensors {
      UpdateSummarizes(sensors[name].weekStatistics, history, v);
    } else {
      assert [] + [v] == [v];
    }
  }

  /**
    The case split of updateAllSensorsData on the day buckets: a missing bucket is
    created from `v` alone, an existing one has `v` folded in by updateStatistics
    (count, sum, min and max alike), and every other day is unchanged.
  */
  lemma IngestDayEffect(byDate: map<Day, Statistics>, v: Value, d: Day)
    ensures var r := IngestDay(byDate, v, d);
      && r.Keys == byDate.Keys + {d}
      && (forall d' :: d' in byDate && d' != d ==> r[d'] == byDate[d'])
      && (d !in byDate ==> Summarizes(r[d], [v]))
      && (d in byDate ==> r[d] == Update(byDate[d], v))
  {
  }

  /** Global buckets stay well formed and non-empty. */
  lemma IngestDayKeepsValid(byDate: map<Day, Statistics>, v: Value, d: Day)
    requires DaysValid(byDate)
    ensures DaysValid(IngestDay(byDate, v, d))
  {
    if d in byDate {
      UpdateWellformed(byDate[d], v);
    } else {
      SummarizesWellformed(Init(v), [v]);
    }
  }

  /** Valid global buckets meet the precondition of `Window.WeekFoldExtremes`. */
  lemma DaysValidNonEmpty(byDate: map<Day, Statistics>)
    requires DaysValid(byDate)
    ensures NonEmptyBuckets(byDate)
  {
  }

  /** A valid sensor's day buckets meet the precondition of `Window.WeekFoldExtremes`. */
  lemma SensorsValidNonEmpty(sensors: map<SensorName, SensorEntry>, name: SensorName)
    requires SensorsValid(sensors) && name in sensors
    ensures NonEmptyBuckets(DayStatistics(sensors[name].statisticsByDate))
  {
    var byDate := sensors[name].statisticsByDate;
    forall d | d in DayStatistics(byDate)
      ensures DayStatistics(byDate)[d].min.Some? && DayStatistics(byDate)[d].max.Some?
    {
      assert RecordValid(byDate[d]);
      SummarizesWellformed(byDate[d].statistics, byDate[d].allDataOfSensor);
    }
  }

  /**
    The per-sensor recompute leaves the set of sensors and every day bucket as it
    was, sets each rollup from that sensor's buckets only, and so running it twice
    on the same day changes nothing more.
  */
  lemma RecomputeAllEffect(sensors: map<SensorName, SensorEntry>, today: Day)
    ensures var r := RecomputeAll(sensors, today);
      && r.Keys == sensors.Keys
      && (forall n :: n in r ==> r[n].statisticsByDate == sensors[n].statisticsByDate)
      && (forall n :: n in r ==> r[n].weekStatistics == WeekOf(DayStatistics(sensors[n].statisticsByDate), today))
      && RecomputeAll(r, today) == r
  {
  }

  /** The recompute keeps every per-sensor bucket valid. */
  lemma RecomputeAllKeepsValid(sensors: map<SensorName, SensorEntry>, today: Day)
    requires SensorsValid(sensors)
    ensures SensorsValid(RecomputeAll(sensors, today))
  {
  }

  /** The inner loop of updateWeekStatisticsForEachSensor (src/utils.ts:109-134) for one sensor. */
  method WeekStatisticsOf(statisticsByDate: map<Day, SensorDayRecord>, today: Day) returns (weekStatistics: Statistics)
    ensures weekStatistics == WeekOf(DayStatistics(statisticsByDate), today)
  {
    ghost var buckets := DayStatistics(statisticsByDate);
    weekStatistics := Zero();
    for i := 1 to WeekLength + 1
      invariant weekStatistics == WeekFold(buckets, today, i - 1)
    {
      var key := today - i;
      if key in statisticsByDate {
        weekStatistics := MergeBucket(weekStatistics, statisticsByDate[key].statistics);
      }
    }
  }

  /** The per-sensor store: the `Map<SensorName, SensorStatisticsByDateAndWeek>` of src/index.ts:29. */
  class SensorStore {
    var sensors: map<SensorName, SensorEntry>

    ghost predicate Valid()
      reads this
    {
      SensorsValid(sensors)
    }

    constructor ()
      ensures Valid() && sensors == map[]
    {
      sensors := map[];
    }

    /** updateSensorData (src/utils.ts:57-93). */
    method UpdateSensorData(sensorName: SensorName, newSensorData: Value, dateNow: Day)
      requires Valid()
      modifies this
      ensures Valid()
      ensures sensors == IngestSensor(old(sensors), sensorName, newSensorData, dateNow)
    {
      IngestSensorKeepsValid(sensors, sensorName, newSensorData, dateNow);
      if sensorName !in sensors {
        var dataByDate := map[dateNow := FirstRecord(newSensorData)];
        sensors := sensors[sensorName := SensorEntry(dataByDate, Init(newSensorData))];
      } else {
        var sensorData := sensors[sensorName];
        var weekStatistics := Update(sensorData.weekStatistics, newSensorData);
        var statisticsByDate := sensorData.statisticsByDate;
        if dateNow !in statisticsByDate {
          statisticsByDate := statisticsByDate[dateNow := FirstRecord(newSensorData)];
        } else {
          var day := statisticsByDate[dateNow];
          statisticsByDate := statisticsByDate[dateNow :=
            SensorDayRecord(Update(day.statistics, newSensorData), day.allDataOfSensor + [newSensorData])];
        }
        sensors := sensors[sensorName := SensorEntry(statisticsByDate, weekStatistics)];
      }
    }

    /** updateWeekStatisticsForEachSensor (src/utils.ts:103-136), with `new Date()` as `today`. */
    method UpdateWeekStatisticsForEachSensor(today: Day)
      requires Valid()
      modifies this
      ensures Valid()
      ensures sensors == RecomputeAll(old(sensors), today)
    {
      RecomputeAllKeepsValid(sensors, today);
      ghost var before := sensors;
      var pending := sensors.Keys;
      while pending != {}
        invariant pending <= before.Keys && sensors.Keys == before.Keys
        invariant forall n :: n in pending ==> sensors[n] == before[n]
        invariant forall n :: n in sensors && n !in pending ==> sensors[n] == WithRecomputedWeek(before[n], today)
        decreases pending
      {
        var name :| name in pending;
        var value := sensors[name];
        var weekStatistics := WeekStatisticsOf(value.statisticsByDate, today);
        sensors := sensors[name := value.(weekStatistics := weekStatistics)];
        pending := pending - {name};
      }
    }
  }

  /** The all-sensors record `AllSensorsData` (src/types.ts:27-31). */
  class AllSensorsData {
    var statisticsByDate: map<Day, Statistics>
    var weekStatistics: Statistics

    ghost predicate Valid()
      reads this
    {
      DaysValid(statisticsByDate)
    }

    /** The initial global state of src/index.ts:31-39. */
    constructor ()
      ensures Valid() && statisticsByDate == map[] && weekStatistics == Zero()
    {
      statisticsByDate := map[];
      weekStatistics := Zero();
    }

    /** updateAllSensorsData (src/utils.ts:40-54). */
    method UpdateAllSensorsData(newSensorData: Value, dateNow: Day)
      requires Valid()
      modifies this
      ensures Valid()
      ensures weekStatistics == Update(old(weekStatistics), newSensorData)
      ensures statisticsByDate == IngestDay(old(statisticsByDate), newSensorData, dateNow)
    {
      IngestDayKeepsValid(statisticsByDate, newSensorData, dateNow);
      weekStatistics := Update(weekStatistics, newSensorData);
      if dateNow !in statisticsByDate {
        statisticsByDate := statisticsByDate[dateNow := Init(newSensorData)];
      } else {
        statisticsByDate := statisticsByDate[dateNow := Update(statisticsByDate[dateNow], newSensorData)];
      }
    }

    /** updateWeekStatisticsForAllSensors (src/utils.ts:139-167), with `new Date()` as `today`. */
    method UpdateWeekStatisticsForAllSensors(today: Day)
      requires Valid()
      modifies this
      ensures Valid()
      ensures statisticsByDate == old(statisticsByDate)
      ensures weekStatistics == WeekOf(statisticsByDate, today)
    {
      weekStatistics := Zero();
      for i := 1 to WeekLength + 1
        invariant statisticsByDate == old(statisticsByDate)
        invariant weekStatistics == WeekFold(statisticsByDate, today, i - 1)
      {
        var key := today - i;
        if key in statisticsByDate {
          weekStatistics := MergeBucket(weekStatistics, statisticsByDate[key]);
        }
      }
    }
  }
}
