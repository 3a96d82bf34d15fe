/** `preprocess_data`: the whole preprocessing pipeline, from the loaded
    reports to the table of reports with a plausible lead time and their
    vessel and navigation details. */
module Preprocessing {
  import opened Tables
  import opened Extraction
  import opened MainDetails
  import opened LeadTime
  import opened Outliers
  import opened Merge

  /** src/preprocessing.py:55: the navigation code of the row labelled `id`
      joins the main details; without a `navCode` column the selection
      raises `KeyError`. */
  function AttachNavCode(main: seq<MainRecord>, nav: Frame): (r: Result<seq<Report>, KeyError>)
    ensures r.Err? <==> "navCode" !in nav.columns
    ensures r.Err? ==> r.error == MissingColumn("navCode")
    ensures r.Ok? ==> |r.value| == |main|
    ensures r.Ok? ==> forall i :: 0 <= i < |main| ==>
      && r.value[i].id == main[i].id
      && r.value[i].epochMillis == main[i].epochMillis
      && r.value[i].mmsi == main[i].mmsi
      && r.value[i].timestamp == main[i].timestamp
      && r.value[i].navCode == At(nav, main[i].id, "navCode")
  {
    if "navCode" !in nav.columns then Err(MissingColumn("navCode"))
    else
      Ok(seq(|main|, i requires 0 <= i < |main| =>
        Report(main[i].id, main[i].epochMillis, main[i].mmsi, main[i].timestamp, At(nav, main[i].id, "navCode"))))
  }

  /** src/preprocessing.py:51-57: the reports with their navigation codes,
      sorted by vessel and time, with their lead times. */
  function TimedReports(records: seq<RawRecord>): (r: Result<seq<LeadRow>, KeyError>)
    ensures r.Err? <==> !InSomeNavigation(records, "navCode")
    ensures r.Err? ==> r.error == MissingColumn("navCode")
    ensures r.Ok? ==> |r.value| == |records|
    ensures r.Ok? ==> SortedByVesselTime(Reports(r.value))
    ensures r.Ok? ==> forall p :: 0 <= p < |r.value| ==>
      r.value[p].leadTime == ShiftedLeadTime(Reports(r.value), p)
    ensures r.Ok? ==> multiset(Reports(r.value)) == multiset(LoadedReports(records))
    ensures r.Ok? ==> forall i :: 0 <= i < |records| ==> ReportOf(records, i) in Reports(r.value)
    ensures r.Ok? ==> StrictlyOrdered(Reports(r.value))
  {
    var nav := ExtractNavigationDetails(records);
    assert "navCode" in nav.columns <==> InSomeNavigation(records, "navCode");
    match AttachNavCode(PreprocessMainDetails(records), nav)
    case Err(e) => Err(e)
    case Ok(reports) =>
      ReportsAreLabelled(records);
      assert reports == LoadedReports(records);
      SortIsStable(reports);
      var rows := CalculateLeadTime(reports);
      assert forall i :: 0 <= i < |records| ==> ReportOf(records, i) in multiset(Reports(rows)) by {
        forall i | 0 <= i < |records| ensures ReportOf(records, i) in multiset(reports) {
          assert reports[i] == ReportOf(records, i);
        }
      }
      Ok(rows)
  }

  /** The loaded reports as src/preprocessing.py:55 leaves them, in file order. */
  function LoadedReports(records: seq<RawRecord>): (reports: seq<Report>)
    ensures |reports| == |records|
    ensures forall i :: 0 <= i < |records| ==> reports[i] == ReportOf(records, i)
  {
    seq(|records|, i requires 0 <= i < |records| => ReportOf(records, i))
  }

  /** src/preprocessing.py:58: the timed reports with the outliers removed. */
  function LeadTable(records: seq<RawRecord>): (r: Result<seq<LeadRow>, KeyError>)
    ensures r.Err? <==> !InSomeNavigation(records, "navCode")
    ensures r.Err? ==> r.error == MissingColumn("navCode")
    ensures r.Ok? ==> |r.value| <= |records|
    ensures r.Ok? ==> Subsequence(r.value, TimedReports(records).value)
    ensures r.Ok? ==> forall row :: row in r.value ==>
      && BatchQuartiles(TimedReports(records).value).Some?
      && InFence(BatchQuartiles(TimedReports(records).value).value, row.leadTime)
    ensures r.Ok? ==> forall row ::
      && row in TimedReports(records).value
      && BatchQuartiles(TimedReports(records).value).Some?
      && InFence(BatchQuartiles(TimedReports(records).value).value, row.leadTime)
      ==> row in r.value
  {
    match TimedReports(records)
    case Err(e) => Err(e)
    case Ok(rows) => Ok(RemoveOutliers(rows))
  }

  /** `preprocess_data`, with the loaded reports given as a sequence. */
  function PreprocessData(records: seq<RawRecord>): (r: Result<seq<MergedRow>, KeyError>)
    ensures r.Err? <==>
      || !InSomeNavigation(records, "navCode")
      || !HasDetailColumns(ExtractNavigationDetails(records), ExtractVesselDetails(records))
    ensures r.Ok? ==> |r.value| <= |records|
    ensures r.Ok? ==> Subsequence(MapSeq(r.value, Detach), LeadTable(records).value)
  {
    match LeadTable(records)
    case Err(e) => Err(e)
    case Ok(kept) => MergeDetails(kept, ExtractNavigationDetails(records), ExtractVesselDetails(records))
  }

  /** Some report's navigation structure carries field `key`. */
  predicate InSomeNavigation(records: seq<RawRecord>, key: string) {
    exists i :: 0 <= i < |records| && key in records[i].navigation
  }

  /** Some report's vessel structure carries field `key`. */
  predicate InSomeVesselDetails(records: seq<RawRecord>, key: string) {
    exists i :: 0 <= i < |records| && key in records[i].vesselDetails
  }

  /** The pipeline fails exactly when a field it reads is carried by no
      report, and it names the first such field in the order the pipeline
      reads them. */
  lemma PipelineFailure(records: seq<RawRecord>)
    ensures PreprocessData(records).Err? <==>
      || !InSomeNavigation(records, "navCode")
      || !InSomeVesselDetails(records, "typeName")
      || !InSomeNavigation(records, "navDesc")
      || !InSomeNavigation(records, "courseOverGround")
      || !InSomeNavigation(records, "speedOverGround")
    ensures PreprocessData(records) == Err(MissingColumn("navCode")) <==>
      !InSomeNavigation(records, "navCode")
    ensures PreprocessData(records) == Err(MissingColumn("typeName")) <==>
      InSomeNavigation(records, "navCode") && !InSomeVesselDetails(records, "typeName")
  {
    var nav := ExtractNavigationDetails(records);
    var vessel := ExtractVesselDetails(records);
    assert "navCode" in nav.columns <==> InSomeNavigation(records, "navCode");
    assert "typeName" in vessel.columns <==> InSomeVesselDetails(records, "typeName");
    assert "navDesc" in nav.columns <==> InSomeNavigation(records, "navDesc");
    assert "courseOverGround" in nav.columns <==> InSomeNavigation(records, "courseOverGround");
    assert "speedOverGround" in nav.columns <==> InSomeNavigation(records, "speedOverGround");
  }

  /** An empty batch flattens to a frame with no columns at all
      (`pd.DataFrame([])` at src/preprocessing.py:9), so the selection at
      src/preprocessing.py:55 raises. */
  lemma EmptyInputFails()
    ensures PreprocessData([]) == Err(MissingColumn("navCode"))
  {
    PipelineFailure([]);
  }

  /** Every output row is one of the loaded reports, under its own label,
      with the fields that report carries: its identity columns, its
      timestamp, and its navigation and vessel details (null where it has
      none); and it has a lead time. */
  lemma OutputRowsComeFromTheirReport(records: seq<RawRecord>)
    requires PreprocessData(records).Ok?
    ensures forall m :: m in PreprocessData(records).value ==>
      && m.report.id < |records|
      && m.report.epochMillis == records[m.report.id].epochMillis
      && m.report.mmsi == records[m.report.id].mmsi
      && m.report.timestamp == records[m.report.id].epochMillis
      && m.report.navCode == Field(records[m.report.id].navigation, "navCode")
      && m.typeName == Field(records[m.report.id].vesselDetails, "typeName")
      && m.navDesc == Field(records[m.report.id].navigation, "navDesc")
      && m.courseOverGround == Field(records[m.report.id].navigation, "courseOverGround")
      && m.speedOverGround == Field(records[m.report.id].navigation, "speedOverGround")
      && m.leadTime.Some?
  {
    var nav := ExtractNavigationDetails(records);
    var vessel := ExtractVesselDetails(records);
    var kept := LeadTable(records).value;
    MergedRowsCarryDetails(kept, nav, vessel);
    LeadRowsComeFromTheirReport(records);
    forall m | m in PreprocessData(records).value
      ensures m.report.id < |records| && m.report == ReportOf(records, m.report.id)
    {
      assert Detach(m) in kept;
    }
  }

  /** Every row that survives the fence is a loaded report under its own label. */
  lemma LeadRowsComeFromTheirReport(records: seq<RawRecord>)
    requires LeadTable(records).Ok?
    ensures forall r :: r in LeadTable(records).value ==>
      r.report.id < |records| && r.report == ReportOf(records, r.report.id)
  {
    SubsequenceMembers(LeadTable(records).value, TimedReports(records).value);
    TimedRowsComeFromTheirReport(records);
  }

  /** Every timed row is a loaded report under its own label. */
  lemma TimedRowsComeFromTheirReport(records: seq<RawRecord>)
    requires TimedReports(records).Ok?
    ensures forall r :: r in TimedReports(records).value ==>
      r.report.id < |records| && r.report == ReportOf(records, r.report.id)
  {
    var rows := TimedReports(records).value;
    var loaded := LoadedReports(records);
    forall r | r in rows ensures r.report.id < |records| && r.report == ReportOf(records, r.report.id) {
      var p :| 0 <= p < |rows| && rows[p] == r;
      assert Reports(rows)[p] == r.report;
      assert r.report in multiset(Reports(rows));
      assert r.report in multiset(loaded);
      var i :| 0 <= i < |loaded| && loaded[i] == r.report;
    }
  }

  /** src/preprocessing.py:55 leaves report `i` under label `i`. */
  lemma ReportsAreLabelled(records: seq<RawRecord>)
    requires AttachNavCode(PreprocessMainDetails(records), ExtractNavigationDetails(records)).Ok?
    ensures forall i :: 0 <= i < |records| ==>
      AttachNavCode(PreprocessMainDetails(records), ExtractNavigationDetails(records)).value[i] == ReportOf(records, i)
    ensures forall i, j :: 0 <= i < j < |records| ==>
      AttachNavCode(PreprocessMainDetails(records), ExtractNavigationDetails(records)).value[i].id <
      AttachNavCode(PreprocessMainDetails(records), ExtractNavigationDetails(records)).value[j].id
  {
  }

  /** The report with label `id` as src/preprocessing.py:55 leaves it. */
  function ReportOf(records: seq<RawRecord>, id: nat): Report
    requires id < |records|
  {
    Report(id, records[id].epochMillis, records[id].mmsi, records[id].epochMillis,
      Field(records[id].navigation, "navCode"))
  }

  /** src/preprocessing.py:23 sorts by vessel and time; since the sort is
      stable and the labels start out ascending, the output is ordered by
      vessel, then time, then label, and no report appears twice. */
  lemma OutputIsOrdered(records: seq<RawRecord>)
    requires PreprocessData(records).Ok?
    ensures forall i, j :: 0 <= i < j < |PreprocessData(records).value| ==>
      VesselTimeIdLt(PreprocessData(records).value[i].report, PreprocessData(records).value[j].report)
  {
    var nav := ExtractNavigationDetails(records);
    var vessel := ExtractVesselDetails(records);
    var reports := AttachNavCode(PreprocessMainDetails(records), nav).value;
    var rows := CalculateLeadTime(reports);
    var kept := RemoveOutliers(rows);
    var out := PreprocessData(records).value;
    var before := (a: LeadRow, b: LeadRow) => VesselTimeIdLt(a.report, b.report);
    SortIsStable(reports);
    assert Chain(rows, before) by {
      forall i, j | 0 <= i < j < |rows| ensures before(rows[i], rows[j]) {
        assert Reports(rows)[i] == rows[i].report && Reports(rows)[j] == rows[j].report;
      }
    }
    SubsequenceKeepsChain(kept, rows, before);
    var detached := MapSeq(out, Detach);
    SubsequenceKeepsChain(detached, kept, before);
    forall i, j | 0 <= i < j < |out| ensures VesselTimeIdLt(out[i].report, out[j].report) {
      assert before(detached[i], detached[j]);
    }
  }

  /** After `remove_outliers` every row has a lead time, so dropping the
      rows without one takes nothing from the output: the output is exactly
      the rows that survive the fence, in order, with their details
      attached. */
  lemma OutputIsTheFencedRows(records: seq<RawRecord>)
    requires LeadTable(records).Ok?
    ensures PreprocessData(records).Ok? <==>
      HasDetailColumns(ExtractNavigationDetails(records), ExtractVesselDetails(records))
    ensures PreprocessData(records).Ok? ==>
      |PreprocessData(records).value| == |LeadTable(records).value|
    ensures PreprocessData(records).Ok? ==> forall i :: 0 <= i < |LeadTable(records).value| ==>
      Detach(PreprocessData(records).value[i]) == LeadTable(records).value[i]
  {
    var nav := ExtractNavigationDetails(records);
    var vessel := ExtractVesselDetails(records);
    var kept := LeadTable(records).value;
    if HasDetailColumns(nav, vessel) {
      forall i | 0 <= i < |kept| ensures kept[i].leadTime.Some? {
        assert kept[i] in kept;
      }
      DropnaKeepsAll(kept, nav, vessel);
      assert PreprocessData(records) == MergeDetails(kept, nav, vessel);
    }
  }

  /** Every output row's lead time lies inside the fence computed from the
      lead times of all the timed reports, nulls excluded. */
  lemma OutputWithinFence(records: seq<RawRecord>)
    requires PreprocessData(records).Ok?
    ensures TimedReports(records).Ok?
    ensures forall m :: m in PreprocessData(records).value ==>
      && BatchQuartiles(TimedReports(records).value).Some?
      && InFence(BatchQuartiles(TimedReports(records).value).value, m.leadTime)
  {
    var kept := LeadTable(records).value;
    MergedRowsCarryDetails(kept, ExtractNavigationDetails(records), ExtractVesselDetails(records));
  }
}
