/** `preprocess_main_details`: the identity columns of each report and the
    timestamp derived from its epoch milliseconds. */
module MainDetails {
  import opened Tables

  /** A report reduced to its identity columns. `timestamp` is the instant
      `epochMillis` denotes, kept as milliseconds since the Unix epoch; `id`
      is the report's index label. */
  datatype MainRecord = MainRecord(id: nat, epochMillis: int, mmsi: int, timestamp: int)

  /** Keeps `epochMillis` and `mmsi`, adds `timestamp`, and keeps every row
      with its label and in its place. */
  function PreprocessMainDetails(records: seq<RawRecord>): (main: seq<MainRecord>)
    ensures |main| == |records|
    ensures forall i :: 0 <= i < |records| ==>
      && main[i].id == i
      && main[i].epochMillis == records[i].epochMillis
      && main[i].mmsi == records[i].mmsi
      && main[i].timestamp == records[i].epochMillis
  {
    seq(|records|, i requires 0 <= i < |records| =>
      MainRecord(i, records[i].epochMillis, records[i].mmsi, records[i].epochMillis))
  }
}
