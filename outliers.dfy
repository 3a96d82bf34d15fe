/** `remove_outliers`: the inclusive IQR fence around the 25th and 75th
    percentiles (linear interpolation, over the non-null lead times), applied
    as a boolean mask that null lead times never pass. */
module Outliers {
  import opened Tables
  import opened LeadTime

  /** The non-null lead times, in row order (what `quantile` looks at). */
  function LeadTimes(rows: seq<LeadRow>): (v: seq<real>)
    ensures |v| <= |rows|
    ensures forall x :: x in v <==> exists i :: 0 <= i < |rows| && rows[i].leadTime == Some(x)
  {
    if rows == [] then []
    else
      var rest := LeadTimes(rows[1..]);
      assert forall i :: 1 <= i < |rows| ==> rows[i] == rows[1..][i - 1];
      match rows[0].leadTime
      case None => rest
      case Some(x) => [x] + rest
  }

  predicate HasLeadTime(r: LeadRow) {
    r.leadTime.Some?
  }

  /** `LeadTimes` keeps order and multiplicity: its k-th value is the lead
      time of the k-th row that has one. */
  lemma {:induction false} LeadTimesInRowOrder(rows: seq<LeadRow>)
    ensures |LeadTimes(rows)| == |Filter(rows, HasLeadTime)|
    ensures forall k :: 0 <= k < |LeadTimes(rows)| ==>
      Filter(rows, HasLeadTime)[k].leadTime == Some(LeadTimes(rows)[k])
  {
    if rows != [] {
      LeadTimesInRowOrder(rows[1..]);
    }
  }

  // ---------------------------------------------------------------------
  // Sorting the values
  // ---------------------------------------------------------------------

  predicate SortedReals(v: seq<real>) {
    forall i, j :: 0 <= i < j < |v| ==> v[i] <= v[j]
  }

  function InsertReal(x: real, v: seq<real>): (r: seq<real>)
    ensures |r| == |v| + 1
    ensures multiset(r) == multiset(v) + multiset{x}
    ensures forall y :: y in r <==> y == x || y in v
  {
    if v == [] || x <= v[0] then [x] + v
    else
      assert v == [v[0]] + v[1..];
      [v[0]] + InsertReal(x, v[1..])
  }

  lemma {:induction false} InsertRealKeepsSorted(x: real, v: seq<real>)
    requires SortedReals(v)
    ensures SortedReals(InsertReal(x, v))
  {
    if v != [] && !(x <= v[0]) {
      var rest := InsertReal(x, v[1..]);
      InsertRealKeepsSorted(x, v[1..]);
      forall y | y in rest ensures v[0] <= y {
        if y != x {
          var j :| 0 <= j < |v[1..]| && v[1..][j] == y;
          assert v[j + 1] == y;
        }
      }
      SortedCons(v[0], rest);
    }
  }

  /** A value no greater than any of a sorted sequence can go in front of it. */
  lemma SortedCons(a: real, v: seq<real>)
    requires SortedReals(v)
    requires forall y :: y in v ==> a <= y
    ensures SortedReals([a] + v)
  {
    forall i, j | 0 <= i < j < |[a] + v| ensures ([a] + v)[i] <= ([a] + v)[j] {
      assert ([a] + v)[j] == v[j - 1];
      if i > 0 {
        assert ([a] + v)[i] == v[i - 1];
      } else {
        assert v[j - 1] in v;
      }
    }
  }

  /** The values in ascending order. */
  function SortReals(v: seq<real>): (r: seq<real>)
    ensures |r| == |v|
    ensures multiset(r) == multiset(v)
    ensures forall y :: y in r <==> y in v
    ensures SortedReals(r)
  {
    if v == [] then []
    else
      assert v == [v[0]] + v[1..];
      var rest := SortReals(v[1..]);
      InsertRealKeepsSorted(v[0], rest);
      InsertReal(v[0], rest)
  }

  /** Sortedness follows from each value being at most the next one. */
  lemma {:induction false} StepwiseSorted(v: seq<real>)
    requires forall i :: 0 < i < |v| ==> v[i - 1] <= v[i]
    ensures SortedReals(v)
  {
    if v != [] {
      StepwiseSorted(v[1..]);
      forall j | 0 < j < |v| ensures v[0] <= v[j] {
        if j > 1 {
          assert v[1..][0] <= v[1..][j - 1];
        }
      }
      forall i, j | 0 < i < j < |v| ensures v[i] <= v[j] {
        assert v[1..][i - 1] <= v[1..][j - 1];
      }
    }
  }

  lemma {:induction false} SortRealsOfSorted(v: seq<real>)
    requires SortedReals(v)
    ensures SortReals(v) == v
  {
    if v != [] {
      SortRealsOfSorted(v[1..]);
    }
  }

  // ---------------------------------------------------------------------
  // Linear-interpolation quantiles
  // ---------------------------------------------------------------------

  /** Four times the interpolation position (m − 1)·k/4 of the quartile
      k/4 among `m` values. */
  function QuarterPosition(m: nat, k: nat): (h: nat)
    requires 0 < m && k <= 4
    ensures h <= 4 * (m - 1)
  {
    assert (m - 1) * k <= 4 * (m - 1) by {
      if k == 0 {} else if k == 1 {} else if k == 2 {} else if k == 3 {} else {}
    }
    (m - 1) * k
  }

  /** The quartile k/4 of the ascending values `v` (k = 1 for Q1, 3 for
      Q3): pandas' default linear interpolation between the order
      statistics at ⌊(m − 1)·k/4⌋ and the one after it. */
  function Quartile(v: seq<real>, k: nat): (x: real)
    requires |v| > 0 && SortedReals(v) && k <= 4
    ensures v[0] <= x <= v[|v| - 1]
    ensures v[QuarterPosition(|v|, k) / 4] <= x
    ensures QuarterPosition(|v|, k) / 4 + 1 < |v| ==> x <= v[QuarterPosition(|v|, k) / 4 + 1]
  {
    var h := QuarterPosition(|v|, k);
    var lo := h / 4;
    var f := (h % 4) as real / 4.0;
    if lo + 1 < |v| then
      var gap := v[lo + 1] - v[lo];
      assert 0.0 <= f * gap <= gap by {
        assert gap >= 0.0;
        assert f == 0.0 || f == 0.25 || f == 0.5 || f == 0.75;
      }
      v[lo] + f * gap
    else v[lo]
  }

  /** Q1 is never above Q3, so the interquartile range is never negative. */
  lemma QuartilesOrdered(v: seq<real>)
    requires |v| > 0 && SortedReals(v)
    ensures Quartile(v, 1) <= Quartile(v, 3)
  {
    var m := |v|;
    if m == 2 {
      assert QuarterPosition(2, 1) == 1 && QuarterPosition(2, 3) == 3;
      assert Quartile(v, 1) == v[0] + 0.25 * (v[1] - v[0]);
      assert Quartile(v, 3) == v[0] + 0.75 * (v[1] - v[0]);
    } else if m > 2 {
      var l1, l3 := QuarterPosition(m, 1) / 4, QuarterPosition(m, 3) / 4;
      assert l1 + 1 <= l3 by {
        assert QuarterPosition(m, 1) == m - 1 && QuarterPosition(m, 3) == 3 * (m - 1);
      }
      assert Quartile(v, 1) <= v[l1 + 1] <= v[l3] <= Quartile(v, 3);
    }
  }

  // ---------------------------------------------------------------------
  // The fence and the filter
  // ---------------------------------------------------------------------

  /** The first and third quartiles of a batch. */
  datatype Quartiles = Quartiles(q1: real, q3: real)

  function Low(q: Quartiles): real {
    q.q1 - 1.5 * (q.q3 - q.q1)
  }

  function High(q: Quartiles): real {
    q.q3 + 1.5 * (q.q3 - q.q1)
  }

  /** The mask of src/preprocessing.py:33: a null lead time compares false. */
  predicate InFence(q: Quartiles, t: Option<real>) {
    t.Some? && Low(q) <= t.value <= High(q)
  }

  /** Q1 and Q3 of the non-null lead times; none when every lead time is
      null (pandas then gives NaN, which every comparison rejects). */
  function BatchQuartiles(rows: seq<LeadRow>): (q: Option<Quartiles>)
    ensures q.None? <==> forall i :: 0 <= i < |rows| ==> rows[i].leadTime.None?
    ensures q.Some? ==> q.value.q1 <= q.value.q3
    ensures q.Some? ==> exists i :: 0 <= i < |rows| && rows[i].leadTime.Some? && rows[i].leadTime.value <= q.value.q1
    ensures q.Some? ==> exists i :: 0 <= i < |rows| && rows[i].leadTime.Some? && q.value.q3 <= rows[i].leadTime.value
  {
    var v := SortReals(LeadTimes(rows));
    if v == [] then None
    else
      assert v[0] in LeadTimes(rows) && v[|v| - 1] in LeadTimes(rows);
      Some(QuartilesOf(v))
  }

  /** Q1 and Q3 of ascending values: between the least and the greatest. */
  function QuartilesOf(v: seq<real>): (q: Quartiles)
    requires |v| > 0 && SortedReals(v)
    ensures v[0] <= q.q1 <= q.q3 <= v[|v| - 1]
  {
    QuartilesOrdered(v);
    Quartiles(Quartile(v, 1), Quartile(v, 3))
  }

  /** `remove_outliers`. */
  function RemoveOutliers(rows: seq<LeadRow>): (kept: seq<LeadRow>)
    ensures Subsequence(kept, rows)
    ensures forall r :: r in kept <==> r in rows && BatchQuartiles(rows).Some? && InFence(BatchQuartiles(rows).value, r.leadTime)
    ensures forall r :: r in kept ==> r.leadTime.Some?
    ensures (forall i :: 0 <= i < |rows| ==> rows[i].leadTime.None?) ==> kept == []
    ensures forall r ::
      multiset(kept)[r] == (if BatchQuartiles(rows).Some? && InFence(BatchQuartiles(rows).value, r.leadTime) then multiset(rows)[r] else 0)
  {
    match BatchQuartiles(rows)
    case None => []
    case Some(q) =>
      FilterCount(rows, (r: LeadRow) => InFence(q, r.leadTime));
      Filter(rows, (r: LeadRow) => InFence(q, r.leadTime))
  }

  /** When Q1 = Q3 the fence is that single value: exactly the rows whose
      lead time equals it survive. */
  lemma CollapsedFence(rows: seq<LeadRow>, q: Quartiles)
    requires BatchQuartiles(rows) == Some(q) && q.q1 == q.q3
    ensures forall r :: r in RemoveOutliers(rows) <==> r in rows && r.leadTime == Some(q.q1)
  {
    KeptByFence(rows, q);
    forall t ensures InFence(q, t) <==> t == Some(q.q1) {
      CollapsedInFence(q, t);
    }
  }

  /** The rows `RemoveOutliers` keeps, for a known fence. */
  lemma KeptByFence(rows: seq<LeadRow>, q: Quartiles)
    requires BatchQuartiles(rows) == Some(q)
    ensures forall r :: r in RemoveOutliers(rows) <==> r in rows && InFence(q, r.leadTime)
  {
  }

  lemma CollapsedInFence(q: Quartiles, t: Option<real>)
    requires q.q1 == q.q3
    ensures InFence(q, t) <==> t == Some(q.q1)
  {
    assert Low(q) == q.q1 && High(q) == q.q1;
    if InFence(q, t) {
      assert q.q1 <= t.value <= q.q1;
    }
  }

  /** A batch whose lead times take a single value keeps every row that has
      one, and drops only the null ones. */
  lemma SingleValueKeepsAllTargets(rows: seq<LeadRow>, c: real)
    requires exists i :: 0 <= i < |rows| && rows[i].leadTime.Some?
    requires forall i :: 0 <= i < |rows| && rows[i].leadTime.Some? ==> rows[i].leadTime.value == c
    ensures forall r :: r in RemoveOutliers(rows) <==> r in rows && r.leadTime == Some(c)
  {
    var v := SortReals(LeadTimes(rows));
    forall x | x in v ensures x == c {
      assert x in multiset(LeadTimes(rows));
      assert x in LeadTimes(rows);
    }
    assert v[0] in v && v[|v| - 1] in v;
    var q := BatchQuartiles(rows).value;
    assert q.q1 == c && q.q3 == c;
  }

  // ---------------------------------------------------------------------
  // Worked examples
  // ---------------------------------------------------------------------

  /** Rows of vessel 1 labelled 0, 1, 2, ... with lead times `ts`. */
  function Targets(ts: seq<real>): (rows: seq<LeadRow>)
    ensures |rows| == |ts|
    ensures forall i :: 0 <= i < |ts| ==> rows[i] == LeadRow(Report(i, 0, 1, 0, None), Some(ts[i]))
    ensures LeadTimes(rows) == ts
  {
    var rows := seq(|ts|, i requires 0 <= i < |ts| => LeadRow(Report(i, 0, 1, 0, None), Some(ts[i])));
    LeadTimesOfTargets(rows, ts);
    rows
  }

  /** The lead times of rows that all carry one. */
  lemma {:induction false} LeadTimesOfTargets(rows: seq<LeadRow>, v: seq<real>)
    requires |rows| == |v|
    requires forall i :: 0 <= i < |rows| ==> rows[i].leadTime == Some(v[i])
    ensures LeadTimes(rows) == v
  {
    if rows != [] {
      LeadTimesOfTargets(rows[1..], v[1..]);
    }
  }

  /** The fence keeps exactly the first `n` rows when they are inside it
      and the rest are outside. */
  lemma {:induction false} FilterByFence(rows: seq<LeadRow>, q: Quartiles, n: nat)
    requires n <= |rows|
    requires forall i :: 0 <= i < n ==> InFence(q, rows[i].leadTime)
    requires forall i :: n <= i < |rows| ==> !InFence(q, rows[i].leadTime)
    ensures Filter(rows, (r: LeadRow) => InFence(q, r.leadTime)) == rows[..n]
    decreases |rows|
  {
    if rows == [] {
    } else if n == 0 {
      FilterByFence(rows[1..], q, 0);
    } else {
      FilterByFence(rows[1..], q, n - 1);
      assert rows[..n] == [rows[0]] + rows[1..][..n - 1];
    }
  }

  /** With six ascending values, Q1 lies a quarter of the way from the 2nd
      to the 3rd and Q3 three quarters of the way from the 4th to the 5th. */
  lemma QuartilesOfSix(rows: seq<LeadRow>, v: seq<real>)
    requires |v| == 6 && LeadTimes(rows) == v
    requires forall i :: 0 < i < |v| ==> v[i - 1] <= v[i]
    ensures BatchQuartiles(rows) == Some(Quartiles(v[1] + 0.25 * (v[2] - v[1]), v[3] + 0.75 * (v[4] - v[3])))
  {
    StepwiseSorted(v);
    SortRealsOfSorted(v);
    assert BatchQuartiles(rows) == Some(QuartilesOf(v));
    QuartilesAtSix(v);
  }

  lemma QuartilesAtSix(v: seq<real>)
    requires |v| == 6 && SortedReals(v)
    ensures QuartilesOf(v) == Quartiles(v[1] + 0.25 * (v[2] - v[1]), v[3] + 0.75 * (v[4] - v[3]))
  {
    assert QuarterPosition(6, 1) == 5 && QuarterPosition(6, 3) == 15;
    assert Quartile(v, 1) == v[1] + 0.25 * (v[2] - v[1]);
    assert Quartile(v, 3) == v[3] + 0.75 * (v[4] - v[3]);
  }

  /** With five ascending values, Q1 and Q3 are the 2nd and the 4th. */
  lemma QuartilesOfFive(rows: seq<LeadRow>, v: seq<real>)
    requires |v| == 5 && LeadTimes(rows) == v
    requires forall i :: 0 < i < |v| ==> v[i - 1] <= v[i]
    ensures BatchQuartiles(rows) == Some(Quartiles(v[1], v[3]))
  {
    StepwiseSorted(v);
    SortRealsOfSorted(v);
    assert BatchQuartiles(rows) == Some(QuartilesOf(v));
    QuartilesAtFive(v);
  }

  lemma QuartilesAtFive(v: seq<real>)
    requires |v| == 5 && SortedReals(v)
    ensures QuartilesOf(v) == Quartiles(v[1], v[3])
  {
    assert QuarterPosition(5, 1) == 4 && QuarterPosition(5, 3) == 12;
    assert Quartile(v, 1) == v[1] && Quartile(v, 3) == v[3];
  }

  /** Lead times 1, 2, 3, 4, 5, 100. */
  predicate FenceSample(ts: seq<real>) {
    |ts| == 6 && ts[0] == 1.0 && ts[1] == 2.0 && ts[2] == 3.0 && ts[3] == 4.0 && ts[4] == 5.0 && ts[5] == 100.0
  }

  /** Lead times 1, 2, 3, 4, 5, 100: Q1 = 2.25, Q3 = 4.75, the fence is
      [−1.5, 8.5], and only the row with 100 is dropped. */
  lemma FenceExample(ts: seq<real>)
    requires FenceSample(ts)
    ensures BatchQuartiles(Targets(ts)) == Some(Quartiles(2.25, 4.75))
    ensures Low(Quartiles(2.25, 4.75)) == -1.5 && High(Quartiles(2.25, 4.75)) == 8.5
    ensures RemoveOutliers(Targets(ts)) == Targets(ts)[..5]
  {
    FenceSampleQuartiles(ts);
    FenceSampleBounds(ts);
    KeepFirst(Targets(ts), ts, Quartiles(2.25, 4.75), 5);
  }

  lemma FenceSampleQuartiles(ts: seq<real>)
    requires FenceSample(ts)
    ensures BatchQuartiles(Targets(ts)) == Some(Quartiles(2.25, 4.75))
  {
    QuartilesOfSix(Targets(ts), ts);
  }

  lemma FenceSampleBounds(ts: seq<real>)
    requires FenceSample(ts)
    ensures forall i :: 0 <= i < 5 ==> Low(Quartiles(2.25, 4.75)) <= ts[i] <= High(Quartiles(2.25, 4.75))
    ensures forall i :: 5 <= i < |ts| ==> !(Low(Quartiles(2.25, 4.75)) <= ts[i] <= High(Quartiles(2.25, 4.75)))
  {}

  /** Lead times 1, 1, 1, 1, 2, 10. */
  predicate RepeatSample(ts: seq<real>) {
    |ts| == 6 && ts[0] == 1.0 && ts[1] == 1.0 && ts[2] == 1.0 && ts[3] == 1.0 && ts[4] == 2.0 && ts[5] == 10.0
  }

  /** Lead times 1, 1, 1, 1, 2: what the first pass over `RepeatSample` keeps. */
  predicate SurvivorSample(w: seq<real>) {
    |w| == 5 && w[0] == 1.0 && w[1] == 1.0 && w[2] == 1.0 && w[3] == 1.0 && w[4] == 2.0
  }

  /** Applying the filter to its own output can drop more rows, because the
      fence is recomputed from what is left: lead times 1, 1, 1, 1, 2, 10
      lose 10 (fence [−0.125, 2.875]); the remaining 1, 1, 1, 1, 2 have
      Q1 = Q3 = 1 and lose 2. */
  lemma NotIdempotentExample(ts: seq<real>)
    requires RepeatSample(ts)
    ensures RemoveOutliers(Targets(ts)) == Targets(ts)[..5]
    ensures RemoveOutliers(RemoveOutliers(Targets(ts))) == Targets(ts)[..4]
  {
    RepeatSampleFirstPass(ts);
    RepeatSampleSecondPass(ts);
  }

  lemma RepeatSampleFirstPass(ts: seq<real>)
    requires RepeatSample(ts)
    ensures RemoveOutliers(Targets(ts)) == Targets(ts)[..5]
  {
    RepeatSampleQuartiles(ts);
    RepeatSampleBounds(ts);
    KeepFirst(Targets(ts), ts, Quartiles(1.0, 1.75), 5);
  }

  lemma RepeatSampleQuartiles(ts: seq<real>)
    requires RepeatSample(ts)
    ensures BatchQuartiles(Targets(ts)) == Some(Quartiles(1.0, 1.75))
  {
    QuartilesOfSix(Targets(ts), ts);
  }

  lemma RepeatSampleBounds(ts: seq<real>)
    requires RepeatSample(ts)
    ensures forall i :: 0 <= i < 5 ==> Low(Quartiles(1.0, 1.75)) <= ts[i] <= High(Quartiles(1.0, 1.75))
    ensures forall i :: 5 <= i < |ts| ==> !(Low(Quartiles(1.0, 1.75)) <= ts[i] <= High(Quartiles(1.0, 1.75)))
  {}

  /** The second pass runs over the first five example rows. */
  lemma RepeatSampleSecondPass(ts: seq<real>)
    requires RepeatSample(ts)
    ensures RemoveOutliers(Targets(ts)[..5]) == Targets(ts)[..4]
  {
    var once := Targets(ts)[..5];
    RepeatSampleSurvivors(ts);
    SurvivorPass(once, ts[..5]);
    assert once[..4] == Targets(ts)[..4];
  }

  lemma RepeatSampleSurvivors(ts: seq<real>)
    requires RepeatSample(ts)
    ensures SurvivorSample(ts[..5])
    ensures |Targets(ts)[..5]| == 5
    ensures forall i :: 0 <= i < 5 ==> Targets(ts)[..5][i].leadTime == Some(ts[..5][i])
  {
  }

  /** Rows with lead times 1, 1, 1, 1, 2 lose the last one. */
  lemma SurvivorPass(rows: seq<LeadRow>, w: seq<real>)
    requires SurvivorSample(w) && |rows| == 5
    requires forall i :: 0 <= i < 5 ==> rows[i].leadTime == Some(w[i])
    ensures RemoveOutliers(rows) == rows[..4]
  {
    LeadTimesOfTargets(rows, w);
    QuartilesOfFive(rows, w);
    SurvivorSampleBounds(w);
    KeepFirst(rows, w, Quartiles(1.0, 1.0), 4);
  }

  lemma SurvivorSampleBounds(w: seq<real>)
    requires SurvivorSample(w)
    ensures forall i :: 0 <= i < 4 ==> Low(Quartiles(1.0, 1.0)) <= w[i] <= High(Quartiles(1.0, 1.0))
    ensures forall i :: 4 <= i < |w| ==> !(Low(Quartiles(1.0, 1.0)) <= w[i] <= High(Quartiles(1.0, 1.0)))
  {}

  /** `RemoveOutliers` with fence `q` keeps the first `n` rows when their
      lead times `ts` are inside it and the others are outside. */
  lemma KeepFirst(rows: seq<LeadRow>, ts: seq<real>, q: Quartiles, n: nat)
    requires n <= |rows| == |ts| && BatchQuartiles(rows) == Some(q)
    requires forall i :: 0 <= i < |rows| ==> rows[i].leadTime == Some(ts[i])
    requires forall i :: 0 <= i < n ==> Low(q) <= ts[i] <= High(q)
    requires forall i :: n <= i < |ts| ==> !(Low(q) <= ts[i] <= High(q))
    ensures RemoveOutliers(rows) == rows[..n]
  {
    FilterByFence(rows, q, n);
  }
}
