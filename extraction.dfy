/** Flattening a column of nested structures into a frame of its own
    (`pd.DataFrame(df[col].tolist())`): one row per report, in report order,
    one column per field name seen in any report. */
module Extraction {
  import opened Tables

  /** Every field name carried by some structure of `records`. */
  function Keys(records: seq<Struct>): (keys: set<string>)
    ensures forall k :: k in keys <==> exists i :: 0 <= i < |records| && k in records[i]
  {
    if records == [] then {}
    else
      var rest := Keys(records[1..]);
      assert forall i :: 1 <= i < |records| ==> records[i] == records[1..][i - 1];
      records[0].Keys + rest
  }

  /** The frame pandas builds from a list of structures. */
  function Flatten(records: seq<Struct>): (f: Frame)
    ensures |f.rows| == |records|
    ensures f.columns == Keys(records)
    ensures forall i :: 0 <= i < |f.rows| ==> f.rows[i].Keys == f.columns
  {
    var columns := Keys(records);
    Frame(columns, seq(|records|, i requires 0 <= i < |records| => map k | k in columns :: Field(records[i], k)))
  }

  /** Nothing is lost or invented: reading any field of row `i` of the frame
      gives what structure `i` holds for it, and null where it has none. */
  lemma FlattenReadsBack(records: seq<Struct>, i: nat, key: string)
    requires i < |records|
    ensures At(Flatten(records), i, key) == Field(records[i], key)
  {
    var f := Flatten(records);
    if key in records[i] {
      assert key in f.columns;
    }
  }

  /** `extract_navigation_details`: one row per report, in report order. */
  function ExtractNavigationDetails(records: seq<RawRecord>): (nav: Frame)
    ensures |nav.rows| == |records|
    ensures forall k :: k in nav.columns <==> exists i :: 0 <= i < |records| && k in records[i].navigation
    ensures forall i, k :: 0 <= i < |records| ==> At(nav, i, k) == Field(records[i].navigation, k)
  {
    var structs := MapSeq(records, (r: RawRecord) => r.navigation);
    var nav := Flatten(structs);
    forall i, k | 0 <= i < |records| ensures At(nav, i, k) == Field(records[i].navigation, k) {
      FlattenReadsBack(structs, i, k);
    }
    nav
  }

  /** `extract_vessel_details`: one row per report, in report order. */
  function ExtractVesselDetails(records: seq<RawRecord>): (vessel: Frame)
    ensures |vessel.rows| == |records|
    ensures forall k :: k in vessel.columns <==> exists i :: 0 <= i < |records| && k in records[i].vesselDetails
    ensures forall i, k :: 0 <= i < |records| ==> At(vessel, i, k) == Field(records[i].vesselDetails, k)
  {
    var structs := MapSeq(records, (r: RawRecord) => r.vesselDetails);
    var vessel := Flatten(structs);
    forall i, k | 0 <= i < |records| ensures At(vessel, i, k) == Field(records[i].vesselDetails, k) {
      FlattenReadsBack(structs, i, k);
    }
    vessel
  }
}
