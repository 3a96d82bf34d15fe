/** `merge_details`: the vessel type, navigation description, course and
    speed of each kept report, read from the detail frames by index label,
    followed by dropping the rows without a lead time. */
module Merge {
  import opened Tables
  import opened LeadTime

  /** A row of the preprocessed table. */
  datatype MergedRow = MergedRow(
    report: Report,
    leadTime: Option<real>,
    typeName: Cell,
    navDesc: Cell,
    courseOverGround: Cell,
    speedOverGround: Cell)

  /** The four assignments of src/preprocessing.py:40-43 for one row: pandas
      aligns the assigned column on the index, so the row labelled `id`
      receives the detail row labelled `id` (null when the detail frame has
      no such label), whatever the row's position. */
  function Attach(row: LeadRow, nav: Frame, vessel: Frame): (m: MergedRow)
    ensures m.report == row.report && m.leadTime == row.leadTime
    ensures m.typeName == At(vessel, row.report.id, "typeName")
    ensures m.navDesc == At(nav, row.report.id, "navDesc")
    ensures m.courseOverGround == At(nav, row.report.id, "courseOverGround")
    ensures m.speedOverGround == At(nav, row.report.id, "speedOverGround")
  {
    var id := row.report.id;
    MergedRow(row.report, row.leadTime,
      At(vessel, id, "typeName"), At(nav, id, "navDesc"),
      At(nav, id, "courseOverGround"), At(nav, id, "speedOverGround"))
  }

  /** The row without its attached details. */
  function Detach(m: MergedRow): LeadRow {
    LeadRow(m.report, m.leadTime)
  }

  /** Every column the merge reads is present. */
  predicate HasDetailColumns(nav: Frame, vessel: Frame) {
    && "typeName" in vessel.columns
    && "navDesc" in nav.columns
    && "courseOverGround" in nav.columns
    && "speedOverGround" in nav.columns
  }

  /** `merge_details`. Selecting an absent column raises `KeyError`, in the
      order the assignments are written. */
  function MergeDetails(df: seq<LeadRow>, nav: Frame, vessel: Frame): (out: Result<seq<MergedRow>, KeyError>)
    ensures out.Err? <==> !HasDetailColumns(nav, vessel)
    ensures out == Err(MissingColumn("typeName")) <==> "typeName" !in vessel.columns
    ensures out == Err(MissingColumn("navDesc")) <==>
      "typeName" in vessel.columns && "navDesc" !in nav.columns
    ensures out == Err(MissingColumn("courseOverGround")) <==>
      "typeName" in vessel.columns && "navDesc" in nav.columns && "courseOverGround" !in nav.columns
    ensures out == Err(MissingColumn("speedOverGround")) <==>
      "typeName" in vessel.columns && "navDesc" in nav.columns &&
      "courseOverGround" in nav.columns && "speedOverGround" !in nav.columns
    ensures out.Ok? ==> |out.value| <= |df|
    ensures out.Ok? ==> forall m :: m in out.value <==>
      exists i :: 0 <= i < |df| && df[i].leadTime.Some? && m == Attach(df[i], nav, vessel)
    ensures out.Ok? ==> Subsequence(MapSeq(out.value, Detach), df)
    ensures out.Ok? ==> forall r ::
      multiset(MapSeq(out.value, Detach))[r] == (if r.leadTime.Some? then multiset(df)[r] else 0)
  {
    if "typeName" !in vessel.columns then Err(MissingColumn("typeName"))
    else if "navDesc" !in nav.columns then Err(MissingColumn("navDesc"))
    else if "courseOverGround" !in nav.columns then Err(MissingColumn("courseOverGround"))
    else if "speedOverGround" !in nav.columns then Err(MissingColumn("speedOverGround"))
    else
      var attached := MapSeq(df, (r: LeadRow) => Attach(r, nav, vessel));
      var kept := Filter(attached, (m: MergedRow) => m.leadTime.Some?);
      SubsequenceMap(kept, attached, Detach);
      assert MapSeq(attached, Detach) == df;
      FilterCount(df, (r: LeadRow) => r.leadTime.Some?);
      FilterMap(attached, (m: MergedRow) => m.leadTime.Some?, Detach, (r: LeadRow) => r.leadTime.Some?);
      Ok(kept)
  }

  /** What the merged rows hold: a lead time, and the details the detail
      frames carry under the row's label. */
  lemma MergedRowsCarryDetails(df: seq<LeadRow>, nav: Frame, vessel: Frame)
    requires MergeDetails(df, nav, vessel).Ok?
    ensures forall m :: m in MergeDetails(df, nav, vessel).value ==>
      && m.leadTime.Some?
      && Detach(m) in df
      && m.typeName == At(vessel, m.report.id, "typeName")
      && m.navDesc == At(nav, m.report.id, "navDesc")
      && m.courseOverGround == At(nav, m.report.id, "courseOverGround")
      && m.speedOverGround == At(nav, m.report.id, "speedOverGround")
  {
    forall m | m in MergeDetails(df, nav, vessel).value
      ensures m.leadTime.Some? && Detach(m) in df
    {
      var i :| 0 <= i < |df| && df[i].leadTime.Some? && m == Attach(df[i], nav, vessel);
      assert Detach(m) == df[i];
    }
  }

  /** When every row already has a lead time, as after `remove_outliers`,
      the merged output loses no row to the `dropna` of
      src/preprocessing.py:45: every row is kept, in order, with its details
      attached. */
  lemma {:induction false} DropnaKeepsAll(df: seq<LeadRow>, nav: Frame, vessel: Frame)
    requires HasDetailColumns(nav, vessel)
    requires forall i :: 0 <= i < |df| ==> df[i].leadTime.Some?
    ensures MergeDetails(df, nav, vessel) == Ok(MapSeq(df, (r: LeadRow) => Attach(r, nav, vessel)))
  {
    var attached := MapSeq(df, (r: LeadRow) => Attach(r, nav, vessel));
    FilterKeepsAll(attached, (m: MergedRow) => m.leadTime.Some?);
  }
}
