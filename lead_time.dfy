/** `calculate_lead_time`: a stable sort by (mmsi, timestamp), a per-navCode
    difference of timestamps over the sorted rows, and a shift of that whole
    column one row up, converted from milliseconds to minutes. */
module LeadTime {
  import opened Tables

  /** A report with its navigational status code attached. */
  datatype Report = Report(id: nat, epochMillis: int, mmsi: int, timestamp: int, navCode: Cell)

  /** A report with the `lead_time` column (minutes, nullable). */
  datatype LeadRow = LeadRow(report: Report, leadTime: Option<real>)

  function Reports(rows: seq<LeadRow>): (reports: seq<Report>)
    ensures |reports| == |rows|
    ensures forall i :: 0 <= i < |rows| ==> reports[i] == rows[i].report
  {
    seq(|rows|, i requires 0 <= i < |rows| => rows[i].report)
  }

  // ---------------------------------------------------------------------
  // Sorting by (mmsi, timestamp)
  // ---------------------------------------------------------------------

  /** The sort key order: by vessel, then by time. */
  predicate VesselTimeLe(a: Report, b: Report) {
    a.mmsi < b.mmsi || (a.mmsi == b.mmsi && a.timestamp <= b.timestamp)
  }

  predicate SortedByVesselTime(s: seq<Report>) {
    forall i, j :: 0 <= i < j < |s| ==> VesselTimeLe(s[i], s[j])
  }

  /** The sort key order with ties broken by index label. */
  predicate VesselTimeIdLt(a: Report, b: Report) {
    a.mmsi < b.mmsi || (a.mmsi == b.mmsi && (a.timestamp < b.timestamp || (a.timestamp == b.timestamp && a.id < b.id)))
  }

  predicate StrictlyOrdered(s: seq<Report>) {
    forall i, j :: 0 <= i < j < |s| ==> VesselTimeIdLt(s[i], s[j])
  }

  /** Puts `x` in front of the first row whose key is not smaller, so that
      it stays ahead of the rows with an equal key that came after it. */
  function Insert(x: Report, s: seq<Report>): (r: seq<Report>)
    ensures |r| == |s| + 1
    ensures multiset(r) == multiset(s) + multiset{x}
  {
    if s == [] || VesselTimeLe(x, s[0]) then [x] + s
    else
      assert s == [s[0]] + s[1..];
      [s[0]] + Insert(x, s[1..])
  }

  lemma {:induction false} InsertKeepsSorted(x: Report, s: seq<Report>)
    requires SortedByVesselTime(s)
    ensures SortedByVesselTime(Insert(x, s))
  {
    if s != [] && !VesselTimeLe(x, s[0]) {
      var rest := Insert(x, s[1..]);
      InsertKeepsSorted(x, s[1..]);
      forall y | y in rest ensures VesselTimeLe(s[0], y) {
        assert y in multiset(rest);
        if y != x {
          assert y in s[1..];
        }
      }
      var r := [s[0]] + rest;
      assert Insert(x, s) == r;
      forall i, j | 0 <= i < j < |r| ensures VesselTimeLe(r[i], r[j]) {
        assert r[j] == rest[j - 1];
        if i > 0 {
          assert r[i] == rest[i - 1];
        } else {
          assert rest[j - 1] in rest;
        }
      }
    }
  }

  /** The stable sort `sort_values(by=['mmsi', 'timestamp'])` performs. */
  function SortByVesselTime(s: seq<Report>): (r: seq<Report>)
    ensures |r| == |s|
    ensures multiset(r) == multiset(s)
    ensures SortedByVesselTime(r)
  {
    if s == [] then []
    else
      assert s == [s[0]] + s[1..];
      var rest := SortByVesselTime(s[1..]);
      InsertKeepsSorted(s[0], rest);
      Insert(s[0], rest)
  }

  lemma {:induction false} InsertKeepsStrictOrder(x: Report, s: seq<Report>)
    requires StrictlyOrdered(s)
    requires forall y :: y in s ==> x.id < y.id
    ensures StrictlyOrdered(Insert(x, s))
  {
    if s == [] || VesselTimeLe(x, s[0]) {
    } else {
      var rest := Insert(x, s[1..]);
      InsertKeepsStrictOrder(x, s[1..]);
      forall y | y in rest ensures VesselTimeIdLt(s[0], y) {
        assert y in multiset(rest);
      }
    }
  }

  /** Stability: when the labels arrive in increasing order (as they do from
      the loaded file), rows with equal (mmsi, timestamp) keep that order, so
      the sorted rows are strictly ordered by (mmsi, timestamp, label). */
  lemma {:induction false} SortIsStable(s: seq<Report>)
    requires forall i, j :: 0 <= i < j < |s| ==> s[i].id < s[j].id
    ensures StrictlyOrdered(SortByVesselTime(s))
  {
    if s != [] {
      SortIsStable(s[1..]);
      var sorted := SortByVesselTime(s[1..]);
      forall y | y in sorted ensures s[0].id < y.id {
        assert y in multiset(sorted);
        assert y in s[1..];
      }
      InsertKeepsStrictOrder(s[0], sorted);
    }
  }

  // ---------------------------------------------------------------------
  // groupby('navCode')['timestamp'].diff()
  // ---------------------------------------------------------------------

  /** The latest position before `j` whose navCode is `c`: the previous
      member of `c`'s group in the current row order. */
  function PrevSameCode(rows: seq<Report>, j: nat, c: Value): (q: Option<nat>)
    requires j <= |rows|
    ensures q.Some? ==> q.value < j && rows[q.value].navCode == Some(c)
    ensures q.Some? ==> forall k :: q.value < k < j ==> rows[k].navCode != Some(c)
    ensures q.None? <==> forall k :: 0 <= k < j ==> rows[k].navCode != Some(c)
    decreases j
  {
    if j == 0 then None
    else if rows[j - 1].navCode == Some(c) then Some(j - 1)
    else PrevSameCode(rows, j - 1, c)
  }

  /** The group difference at position `j`, in milliseconds: null for a row
      without a navCode (such rows belong to no group) and for the first row
      of its group. */
  function GroupDiff(rows: seq<Report>, j: nat): Option<int>
    requires j < |rows|
  {
    match rows[j].navCode
    case None => None
    case Some(c) =>
      match PrevSameCode(rows, j, c)
      case None => None
      case Some(q) => Some(rows[j].timestamp - rows[q].timestamp)
  }

  /** `last` holds, for every code seen among the first `i` rows, the
      timestamp of the latest of them. */
  ghost predicate LastSeen(rows: seq<Report>, i: nat, last: map<Value, int>)
    requires i <= |rows|
  {
    forall c ::
      && (c in last <==> PrevSameCode(rows, i, c).Some?)
      && (c in last ==> last[c] == rows[PrevSameCode(rows, i, c).value].timestamp)
  }

  /** One pass over the rows from position `i`, remembering the last
      timestamp of each group. */
  function DiffFrom(rows: seq<Report>, i: nat, last: map<Value, int>): (d: seq<Option<int>>)
    requires i <= |rows|
    ensures |d| == |rows| - i
    decreases |rows| - i
  {
    if i == |rows| then []
    else
      match rows[i].navCode
      case None => [None] + DiffFrom(rows, i + 1, last)
      case Some(c) =>
        [if c in last then Some(rows[i].timestamp - last[c]) else None]
        + DiffFrom(rows, i + 1, last[c := rows[i].timestamp])
  }

  lemma {:induction false} DiffFromMatchesGroupDiff(rows: seq<Report>, i: nat, last: map<Value, int>)
    requires i <= |rows| && LastSeen(rows, i, last)
    ensures forall j :: i <= j < |rows| ==> DiffFrom(rows, i, last)[j - i] == GroupDiff(rows, j)
    decreases |rows| - i
  {
    if i < |rows| {
      var next := match rows[i].navCode case None => last case Some(c) => last[c := rows[i].timestamp];
      forall c ensures
        && (c in next <==> PrevSameCode(rows, i + 1, c).Some?)
        && (c in next ==> next[c] == rows[PrevSameCode(rows, i + 1, c).value].timestamp)
      {
        assert PrevSameCode(rows, i + 1, c) == if rows[i].navCode == Some(c) then Some(i) else PrevSameCode(rows, i, c);
      }
      DiffFromMatchesGroupDiff(rows, i + 1, next);
      assert DiffFrom(rows, i, last) == [DiffFrom(rows, i, last)[0]] + DiffFrom(rows, i + 1, next);
    }
  }

  /** The whole group-difference column, computed in one pass. */
  function GroupDiffs(rows: seq<Report>): (d: seq<Option<int>>)
    ensures |d| == |rows|
    ensures forall j :: 0 <= j < |rows| ==> d[j] == GroupDiff(rows, j)
  {
    DiffFromMatchesGroupDiff(rows, 0, map[]);
    DiffFrom(rows, 0, map[])
  }

  // ---------------------------------------------------------------------
  // shift(-1) and the conversion to minutes
  // ---------------------------------------------------------------------

  /** A millisecond duration in minutes (`dt.total_seconds() / 60`). */
  function Minutes(ms: int): real {
    ms as real / 60000.0
  }

  function MinutesOf(ms: Option<int>): Option<real> {
    match ms
    case None => None
    case Some(d) => Some(Minutes(d))
  }

  /** The lead time the code gives sorted position `p`: the group difference
      of the row AFTER it (whatever its group), in minutes; null for the
      last row. */
  function ShiftedLeadTime(sorted: seq<Report>, p: nat): Option<real>
    requires p < |sorted|
  {
    if p + 1 == |sorted| then None else MinutesOf(GroupDiff(sorted, p + 1))
  }

  /** `calculate_lead_time`. */
  function CalculateLeadTime(rows: seq<Report>): (r: seq<LeadRow>)
    ensures |r| == |rows|
    ensures Reports(r) == SortByVesselTime(rows)
    ensures multiset(Reports(r)) == multiset(rows)
    ensures SortedByVesselTime(Reports(r))
    ensures forall p :: 0 <= p < |r| ==> r[p].leadTime == ShiftedLeadTime(Reports(r), p)
  {
    var sorted := SortByVesselTime(rows);
    var diffs := GroupDiffs(sorted);
    var r := seq(|sorted|, p requires 0 <= p < |sorted| =>
      LeadRow(sorted[p], if p + 1 < |sorted| then MinutesOf(diffs[p + 1]) else None));
    assert Reports(r) == sorted;
    r
  }

  /** The last sorted row never has a lead time. */
  lemma LastRowHasNoLeadTime(rows: seq<Report>)
    requires rows != []
    ensures CalculateLeadTime(rows)[|rows| - 1].leadTime.None?
  {
  }

  /** Read on the sorted rows `s`: position `p` has a lead time exactly when
      row `p + 1` has a navCode that some earlier row shares, and it then
      measures, in minutes, from the latest such row `q` to row `p + 1`. */
  lemma ShiftedLeadTimeMeaning(s: seq<Report>, p: nat)
    requires p + 1 < |s|
    ensures ShiftedLeadTime(s, p).Some? <==>
      (s[p + 1].navCode.Some? && exists q :: 0 <= q < p + 1 && s[q].navCode == s[p + 1].navCode)
    ensures ShiftedLeadTime(s, p).Some? ==> exists q ::
      && 0 <= q < p + 1
      && s[q].navCode == s[p + 1].navCode
      && (forall k :: q < k < p + 1 ==> s[k].navCode != s[p + 1].navCode)
      && ShiftedLeadTime(s, p).value == Minutes(s[p + 1].timestamp - s[q].timestamp)
  {
    if s[p + 1].navCode.Some? {
      var c := s[p + 1].navCode.value;
      var q := PrevSameCode(s, p + 1, c);
      if q.Some? {
        assert s[q.value].navCode == s[p + 1].navCode;
      }
    }
  }

  // ---------------------------------------------------------------------
  // Worked examples
  // ---------------------------------------------------------------------

  /** Reports of vessel 1 at 0 s (navCode 0), 600 s (navCode 0) and 300 s
      (navCode 5): after sorting, the row at 0 s gets null, the navCode-5 row
      at 300 s gets 10 minutes (the 0 s to 600 s gap of navCode 0, which ends
      at the row after it) and the row at 600 s gets null. */
  lemma ShiftedGroupExample()
    ensures
      var a := Some(Int(0));
      var b := Some(Int(5));
      var r := CalculateLeadTime([Report(0, 0, 1, 0, a), Report(1, 600000, 1, 600000, a), Report(2, 300000, 1, 300000, b)]);
      && Reports(r) == [Report(0, 0, 1, 0, a), Report(2, 300000, 1, 300000, b), Report(1, 600000, 1, 600000, a)]
      && r[0].leadTime == None && r[1].leadTime == Some(10.0) && r[2].leadTime == None
  {
    var a := Some(Int(0));
    var b := Some(Int(5));
    var x, y, z := Report(0, 0, 1, 0, a), Report(1, 600000, 1, 600000, a), Report(2, 300000, 1, 300000, b);
    ShiftedGroupSort(x, y, z);
    ShiftedGroupDiffs([x, z, y]);
    var r := CalculateLeadTime([x, y, z]);
    assert r[0].leadTime == ShiftedLeadTime([x, z, y], 0);
    assert r[1].leadTime == ShiftedLeadTime([x, z, y], 1);
  }

  lemma ShiftedGroupSort(x: Report, y: Report, z: Report)
    requires x == Report(0, 0, 1, 0, Some(Int(0)))
    requires y == Report(1, 600000, 1, 600000, Some(Int(0)))
    requires z == Report(2, 300000, 1, 300000, Some(Int(5)))
    ensures SortByVesselTime([x, y, z]) == [x, z, y]
  {
    calc {
      SortByVesselTime([x, y, z]);
      Insert(x, SortByVesselTime([y, z]));
      { assert [x, y, z][1..] == [y, z]; }
      Insert(x, Insert(y, SortByVesselTime([z])));
      { assert [y, z][1..] == [z]; }
      Insert(x, Insert(y, Insert(z, [])));
      [x, z, y];
    }
  }

  lemma ShiftedGroupDiffs(s: seq<Report>)
    requires s == [Report(0, 0, 1, 0, Some(Int(0))), Report(2, 300000, 1, 300000, Some(Int(5))), Report(1, 600000, 1, 600000, Some(Int(0)))]
    ensures GroupDiff(s, 1) == None && GroupDiff(s, 2) == Some(600000)
  {
    assert PrevSameCode(s, 1, Int(5)) == None;
    assert PrevSameCode(s, 2, Int(0)) == Some(0);
  }

  /** A group spans vessels, so a lead time can be negative: vessel 1's
      navCode-0 report at 1 s is followed, in sorted order, by vessel 2's
      navCode-0 report at 0 s. */
  lemma NegativeLeadTimeExample()
    ensures
      var a := Some(Int(0));
      var r := CalculateLeadTime([Report(0, 1000, 1, 1000, a), Report(1, 0, 2, 0, a)]);
      r[0].leadTime == Some(-1.0 / 60.0)
  {
    var a := Some(Int(0));
    var x, y := Report(0, 1000, 1, 1000, a), Report(1, 0, 2, 0, a);
    assert Insert(y, []) == [y];
    assert Insert(x, [y]) == [x, y];
    assert PrevSameCode([x, y], 1, Int(0)) == Some(0);
  }
}
