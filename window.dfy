/**
  The weekly recompute of src/utils.ts:103-167, shared by the per-sensor and the
  all-sensors version: reset the rollup, then fold in the day buckets dated
  today-1 .. today-7 that exist. `new Date()` becomes the parameter `today`, and
  calendar dates are day numbers, so "i days before today" is `today - i`.
*/
module Window {
  import opened Wrappers
  import opened Stats
  import opened Tally

  /** A calendar date without time of day, as a day number. */
  type Day = int

  /** The number of days the recompute looks back (the loop bound at src/utils.ts:113 and 145). */
  const WeekLength: nat := 7

  /**
    One loop step of the recompute (src/utils.ts:119-132, 151-164). The comparisons
    are kept as written: a null rollup min takes the bucket's, otherwise the bucket's
    min replaces it only when it is LARGER, and the bucket's max only when it is SMALLER.
  */
  function MergeBucket(week: Statistics, bucket: Statistics): (r: Statistics)
    ensures r.count == week.count + bucket.count && r.sum == week.sum + bucket.sum
    ensures week.min.None? ==> r.min == bucket.min
    ensures week.min.Some? && bucket.min.None? ==> r.min == week.min
    ensures week.min.Some? && bucket.min.Some? ==> r.min == Some(Greatest(week.min.value, bucket.min.value))
    ensures week.max.None? ==> r.max == bucket.max
    ensures week.max.Some? && bucket.max.None? ==> r.max == week.max
    ensures week.max.Some? && bucket.max.Some? ==> r.max == Some(Least(week.max.value, bucket.max.value))
  {
    Statistics(week.count + bucket.count, week.sum + bucket.sum,
      if week.min.None? || (bucket.min.Some? && week.min.value < bucket.min.value) then bucket.min else week.min,
      if week.max.None? || (bucket.max.Some? && bucket.max.value < week.max.value) then bucket.max else week.max)
  }

  /** The rollup after the loop iterations i = 1 .. n over the day buckets `b`. */
  function WeekFold(b: map<Day, Statistics>, today: Day, n: nat): Statistics
    decreases n
  {
    if n == 0 then Zero()
    else
      var acc := WeekFold(b, today, n - 1);
      if today - n in b then MergeBucket(acc, b[today - n]) else acc
  }

  /** The rollup the recompute assigns: the seven days before `today`. */
  function WeekOf(b: map<Day, Statistics>, today: Day): Statistics
  {
    WeekFold(b, today, WeekLength)
  }

  /** The buckets dated `today - n` .. `today - 1` that exist. */
  function InWindow(b: map<Day, Statistics>, today: Day, n: nat): map<Day, Statistics>
  {
    map d | d in b && today - n <= d < today :: b[d]
  }

  function TallyOf(s: Statistics): Totals
  {
    Totals(s.count, s.sum)
  }

  function Tallies(b: map<Day, Statistics>): map<Day, Totals>
  {
    map d | d in b :: TallyOf(b[d])
  }

  ghost predicate NonEmptyBuckets(b: map<Day, Statistics>)
  {
    forall d :: d in b ==> b[d].min.Some? && b[d].max.Some?
  }

  lemma WindowStep(b: map<Day, Statistics>, today: Day, n: nat)
    requires n > 0
    ensures today - n in b ==> InWindow(b, today, n) == InWindow(b, today, n - 1)[today - n := b[today - n]]
    ensures today - n !in b ==> InWindow(b, today, n) == InWindow(b, today, n - 1)
  {
  }

  /**
    Count and sum of the rollup are the totals of exactly the existing buckets in
    the window; missing days add nothing.
  */
  lemma {:induction false} WeekFoldTotals(b: map<Day, Statistics>, today: Day, n: nat)
    ensures TallyOf(WeekFold(b, today, n)) == Total(Tallies(InWindow(b, today, n)))
  {
    if n == 0 {
      assert InWindow(b, today, 0) == map[];
      assert Tallies(map[]) == map[];
    } else {
      WeekFoldTotals(b, today, n - 1);
      WindowStep(b, today, n);
      var prev := Tallies(InWindow(b, today, n - 1));
      if today - n in b {
        assert today - n !in prev;
        assert Tallies(InWindow(b, today, n)) == prev[today - n := TallyOf(b[today - n])];
        TotalUpdate(prev, today - n, TallyOf(b[today - n]));
        assert prev - {today - n} == prev;
      }
    }
  }

  /** The rollup depends on nothing but the buckets inside the window. */
  lemma {:induction false} WeekFoldLocal(b: map<Day, Statistics>, b': map<Day, Statistics>, today: Day, n: nat)
    requires InWindow(b, today, n) == InWindow(b', today, n)
    ensures WeekFold(b, today, n) == WeekFold(b', today, n)
  {
    if n > 0 {
      WindowStep(b, today, n);
      WindowStep(b', today, n);
      var w := InWindow(b, today, n);
      assert today - n in b <==> today - n in w;
      assert today - n in b' <==> today - n in w;
      var w1, w2 := InWindow(b, today, n - 1), InWindow(b', today, n - 1);
      assert w1 == w2 by {
        assert w1 == map d | d in w && d != today - n :: w[d];
        assert w2 == map d | d in w && d != today - n :: w[d];
      }
      WeekFoldLocal(b, b', today, n - 1);
    }
  }

  /** A bucket for today, or one older than seven days, never reaches the rollup. */
  lemma OutsideWindowIgnored(b: map<Day, Statistics>, today: Day, d: Day, s: Statistics)
    requires d >= today || d < today - WeekLength
    ensures WeekOf(b[d := s], today) == WeekOf(b, today)
  {
    assert InWindow(b[d := s], today, WeekLength) == InWindow(b, today, WeekLength);
    WeekFoldLocal(b[d := s], b, today, WeekLength);
  }

  /**
    The min and max as written: with non-empty buckets, both stay null exactly when
    no bucket lies in the window; otherwise `min` is the GREATEST bucket min and
    `max` the LEAST bucket max of the window.
  */
  lemma {:induction false} WeekFoldExtremes(b: map<Day, Statistics>, today: Day, n: nat)
    requires NonEmptyBuckets(b)
    ensures var r, w := WeekFold(b, today, n), InWindow(b, today, n);
      && (r.min.Some? <==> w != map[])
      && (r.max.Some? <==> w != map[])
      && (r.min.Some? ==> (exists d :: d in w && w[d].min == r.min) && forall d :: d in w ==> w[d].min.value <= r.min.value)
      && (r.max.Some? ==> (exists d :: d in w && w[d].max == r.max) && forall d :: d in w ==> r.max.value <= w[d].max.value)
  {
    if n == 0 {
      assert InWindow(b, today, 0) == map[];
    } else {
      WeekFoldExtremes(b, today, n - 1);
      WindowStep(b, today, n);
      var prev := InWindow(b, today, n - 1);
      var acc := WeekFold(b, today, n - 1);
      if today - n in b {
        var k := today - n;
        var w := InWindow(b, today, n);
        assert k in w && w[k] == b[k];
        var r := WeekFold(b, today, n);
        assert r == MergeBucket(acc, b[k]);
        if acc.min.Some? {
          var d0 :| d0 in prev && prev[d0].min == acc.min;
          if r.min == acc.min { assert d0 in w && w[d0].min == r.min; } else { assert w[k].min == r.min; }
          if r.max == acc.max {
            var d1 :| d1 in prev && prev[d1].max == acc.max;
            assert d1 in w && w[d1].max == r.max;
          } else {
            assert w[k].max == r.max;
          }
        } else {
          assert prev == map[];
          assert w == map[k := b[k]];
        }
      }
    }
  }

  /** With no bucket in the window the rollup is the zero/null statistics. */
  lemma {:induction false} EmptyWindowWeek(b: map<Day, Statistics>, today: Day, n: nat)
    requires InWindow(b, today, n) == map[]
    ensures WeekFold(b, today, n) == Zero()
  {
    if n > 0 {
      WindowStep(b, today, n);
      assert today - n !in b by {
        assert today - n in b ==> today - n in InWindow(b, today, n);
      }
      EmptyWindowWeek(b, today, n - 1);
    }
  }

  /** A single non-empty bucket in the window is reproduced exactly by the recompute. */
  lemma SingleBucketWeek(b: map<Day, Statistics>, today: Day, d: Day)
    requires InWindow(b, today, WeekLength).Keys == {d}
    requires b[d].min.Some? && b[d].max.Some?
    ensures WeekOf(b, today) == b[d]
  {
    var w := InWindow(b, today, WeekLength);
    var only := map[d := b[d]];
    assert w == only;
    WeekFoldLocal(b, only, today, WeekLength);
    assert InWindow(only, today, WeekLength) == only;
    WeekFoldTotals(only, today, WeekLength);
    assert Tallies(only) == map[d := TallyOf(b[d])];
    TotalRemove(Tallies(only), d);
    assert Tallies(only) - {d} == map[];
    WeekFoldExtremes(only, today, WeekLength);
  }

  /**
    The rollup a recompute produces may have min > max although every bucket has
    min <= max: buckets [1, 2] and [5, 6] in the window give min 5 and max 2.
  */
  lemma RecomputeCanInvertMinMax()
    ensures var b := map[-1 := Statistics(2, 3.0, Some(1.0), Some(2.0)), -2 := Statistics(2, 11.0, Some(5.0), Some(6.0))];
      && Wellformed(b[-1]) && Wellformed(b[-2])
      && WeekOf(b, 0) == Statistics(4, 14.0, Some(5.0), Some(2.0))
  {
  }
}
