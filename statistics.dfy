/**
  The `Statistics` record of src/types.ts and the two value operations of
  src/utils.ts that build and extend it: `initStatistics` and `updateStatistics`.
  Readings are JavaScript numbers, modelled here as exact reals.
*/
module Stats {
  import opened Wrappers

  /** One reading of a sensor. */
  type Value = real

  /** Running count, sum, least and greatest reading; `min`/`max` are null while nothing was folded in. */
  datatype Statistics = Statistics(count: nat, sum: Value, min: Option<Value>, max: Option<Value>)

  function Least(a: Value, b: Value): Value { if a <= b then a else b }

  function Greatest(a: Value, b: Value): Value { if a <= b then b else a }

  /** The arithmetic sum of a sequence of readings. */
  function Sum(vs: seq<Value>): Value
  {
    if vs == [] then 0.0 else Sum(vs[..|vs| - 1]) + vs[|vs| - 1]
  }

  ghost predicate IsLeastOf(m: Value, vs: seq<Value>)
  {
    m in vs && forall i :: 0 <= i < |vs| ==> m <= vs[i]
  }

  ghost predicate IsGreatestOf(m: Value, vs: seq<Value>)
  {
    m in vs && forall i :: 0 <= i < |vs| ==> vs[i] <= m
  }

  /** `s` is exactly the statistics of the readings `vs`. */
  ghost predicate Summarizes(s: Statistics, vs: seq<Value>)
  {
    && s.count == |vs|
    && s.sum == Sum(vs)
    && if vs == [] then s.min.None? && s.max.None?
       else s.min.Some? && s.max.Some? && IsLeastOf(s.min.value, vs) && IsGreatestOf(s.max.value, vs)
  }

  /** The shape invariant of a statistics value: empty with nulls, or non-empty with min <= max. */
  ghost predicate Wellformed(s: Statistics)
  {
    && (s.count == 0 ==> s.min.None? && s.max.None? && s.sum == 0.0)
    && (s.count > 0 ==> s.min.Some? && s.max.Some? && s.min.value <= s.max.value)
  }

  /** The zero/null statistics a weekly rollup is reset to (src/index.ts:33-38, src/utils.ts:109-112). */
  function Zero(): (r: Statistics)
    ensures Summarizes(r, [])
  {
    Statistics(0, 0.0, None, None)
  }

  /** initStatistics: the statistics of the single reading `v`. */
  function Init(v: Value): (r: Statistics)
    ensures Summarizes(r, [v])
  {
    Statistics(1, v, Some(v), Some(v))
  }

  /** updateStatistics: fold one more reading into `s`. */
  function Update(s: Statistics, v: Value): (r: Statistics)
    ensures r.count == s.count + 1 && r.sum == s.sum + v
    ensures r.min.Some? && r.max.Some? && r.min.value <= v <= r.max.value
    ensures r.min == Some(if s.min.Some? then Least(s.min.value, v) else v)
    ensures r.max == Some(if s.max.Some? then Greatest(s.max.value, v) else v)
  {
    Statistics(s.count + 1, s.sum + v,
      if s.min.None? || v < s.min.value then Some(v) else s.min,
      if s.max.None? || s.max.value < v then Some(v) else s.max)
  }

  /** Repeated `updateStatistics`: fold the readings `vs`, in order, into `s`. */
  function FoldValues(s: Statistics, vs: seq<Value>): Statistics
    decreases |vs|
  {
    if vs == [] then s else Update(FoldValues(s, vs[..|vs| - 1]), vs[|vs| - 1])
  }

  /** Updating keeps a statistics value well formed: once non-empty, min <= max. */
  lemma UpdateWellformed(s: Statistics, v: Value)
    requires Wellformed(s)
    ensures Wellformed(Update(s, v)) && Update(s, v).count > 0
  {
  }

  /** Anything that summarizes some readings is well formed. */
  lemma SummarizesWellformed(s: Statistics, vs: seq<Value>)
    requires Summarizes(s, vs)
    ensures Wellformed(s)
  {
    if vs != [] {
      assert s.min.value <= vs[0] <= s.max.value;
    }
  }

  /** Folding `v` into the statistics of `vs` gives the statistics of `vs + [v]`. */
  lemma UpdateSummarizes(s: Statistics, vs: seq<Value>, v: Value)
    requires Summarizes(s, vs)
    ensures Summarizes(Update(s, v), vs + [v])
  {
    var ws := vs + [v];
    assert ws[..|ws| - 1] == vs;
    var r := Update(s, v);
    assert v == ws[|vs|];
    if vs != [] {
      assert s.min.value in ws && s.max.value in ws by {
        assert forall x :: x in vs ==> x in ws;
      }
      assert IsLeastOf(r.min.value, ws) by {
        forall i | 0 <= i < |ws| ensures r.min.value <= ws[i] {
          if i < |vs| { assert ws[i] == vs[i]; }
        }
      }
      assert IsGreatestOf(r.max.value, ws) by {
        forall i | 0 <= i < |ws| ensures ws[i] <= r.max.value {
          if i < |vs| { assert ws[i] == vs[i]; }
        }
      }
    }
  }

  /** Folding readings one by one into the statistics of `ws` gives the statistics of `ws + vs`. */
  lemma {:induction false} FoldSummarizes(s: Statistics, ws: seq<Value>, vs: seq<Value>)
    requires Summarizes(s, ws)
    ensures Summarizes(FoldValues(s, vs), ws + vs)
    decreases |vs|
  {
    if vs == [] {
      assert ws + vs == ws;
    } else {
      var front, last := vs[..|vs| - 1], vs[|vs| - 1];
      FoldSummarizes(s, ws, front);
      UpdateSummarizes(FoldValues(s, front), ws + front, last);
      assert ws + front + [last] == ws + vs;
    }
  }

  /**
    Folding v1..vn into initStatistics(v0) yields count n+1, the sum of all the
    readings and their least and greatest element.
  */
  lemma FoldFromInit(v0: Value, vs: seq<Value>)
    ensures Summarizes(FoldValues(Init(v0), vs), [v0] + vs)
  {
    FoldSummarizes(Init(v0), [v0], vs);
  }
}
