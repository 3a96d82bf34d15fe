/** `feature_engineering`: the model inputs (course, speed, and one-hot
    indicators of the navigation description and the vessel type) and the
    lead-time target of each preprocessed row. */
module FeatureEngineering {
  import opened Tables
  import opened Merge

  /** One row of the design matrix. Each indicator map has one entry per
      category seen in the batch; the entry is true for the row's own value. */
  datatype FeatureRow = FeatureRow(
    id: nat,
    courseOverGround: Cell,
    speedOverGround: Cell,
    navDesc: map<Value, bool>,
    typeName: map<Value, bool>)

  /** The design matrix with its indicator categories, and the target. */
  datatype Features = Features(
    navDescCategories: set<Value>,
    typeNameCategories: set<Value>,
    x: seq<FeatureRow>,
    y: seq<Option<real>>)

  /** The distinct non-null values of a column: the categories `get_dummies`
      makes a column for. */
  function Observed(cells: seq<Cell>): (categories: set<Value>)
    ensures forall v :: v in categories <==> exists i :: 0 <= i < |cells| && cells[i] == Some(v)
  {
    if cells == [] then {}
    else
      var rest := Observed(cells[1..]);
      assert forall i :: 1 <= i < |cells| ==> cells[i] == cells[1..][i - 1];
      match cells[0]
      case None => rest
      case Some(v) => {v} + rest
  }

  /** The indicators of one cell: true in the column of its own value, false
      in every other one; a null cell is false everywhere. */
  function OneHot(categories: set<Value>, cell: Cell): (indicators: map<Value, bool>)
    ensures indicators.Keys == categories
    ensures forall v :: v in categories ==> (indicators[v] <==> cell == Some(v))
  {
    map v | v in categories :: cell == Some(v)
  }

  /** The value a row of indicators stands for: the one whose indicator is
      set, or null when none is. */
  ghost function Decode(indicators: map<Value, bool>): Cell {
    if exists v :: v in indicators && indicators[v] then
      var v :| v in indicators && indicators[v];
      Some(v)
    else None
  }

  /** Encoding a cell against a set of categories that covers it and
      decoding it gives the cell back, so the indicators lose nothing. */
  lemma DecodeOneHot(categories: set<Value>, cell: Cell)
    requires cell.Some? ==> cell.value in categories
    ensures Decode(OneHot(categories, cell)) == cell
  {
    var indicators := OneHot(categories, cell);
    if cell.Some? {
      assert cell.value in indicators && indicators[cell.value];
    }
  }

  /** A set cell raises exactly one indicator, a null one none. */
  lemma ExactlyOneIndicator(categories: set<Value>, cell: Cell)
    requires cell.Some? ==> cell.value in categories
    ensures cell.Some? ==> (set v | v in categories && OneHot(categories, cell)[v]) == {cell.value}
    ensures cell.None? ==> (set v | v in categories && OneHot(categories, cell)[v]) == {}
  {
  }

  /** The navigation descriptions of the rows, in order. */
  function NavDescColumn(df: seq<MergedRow>): (column: seq<Cell>)
    ensures |column| == |df| && forall i :: 0 <= i < |df| ==> column[i] == df[i].navDesc
  {
    MapSeq(df, (m: MergedRow) => m.navDesc)
  }

  /** The vessel types of the rows, in order. */
  function TypeNameColumn(df: seq<MergedRow>): (column: seq<Cell>)
    ensures |column| == |df| && forall i :: 0 <= i < |df| ==> column[i] == df[i].typeName
  {
    MapSeq(df, (m: MergedRow) => m.typeName)
  }

  /** `feature_engineering`: the categories are fitted on the whole batch, so
      every row gets a column for every value any row of the batch has. */
  function FeatureEngineering(df: seq<MergedRow>): (f: Features)
    ensures |f.x| == |df| && |f.y| == |df|
    ensures forall v :: v in f.navDescCategories <==> exists i :: 0 <= i < |df| && df[i].navDesc == Some(v)
    ensures forall v :: v in f.typeNameCategories <==> exists i :: 0 <= i < |df| && df[i].typeName == Some(v)
    ensures forall i :: 0 <= i < |df| ==>
      && f.y[i] == df[i].leadTime
      && f.x[i].id == df[i].report.id
      && f.x[i].courseOverGround == df[i].courseOverGround
      && f.x[i].speedOverGround == df[i].speedOverGround
      && f.x[i].navDesc.Keys == f.navDescCategories
      && f.x[i].typeName.Keys == f.typeNameCategories
      && (forall v :: v in f.navDescCategories ==> (f.x[i].navDesc[v] <==> df[i].navDesc == Some(v)))
      && (forall v :: v in f.typeNameCategories ==> (f.x[i].typeName[v] <==> df[i].typeName == Some(v)))
  {
    var navDescs := Observed(NavDescColumn(df));
    var typeNames := Observed(TypeNameColumn(df));
    var x := MapSeq(df, (m: MergedRow) =>
      FeatureRow(m.report.id, m.courseOverGround, m.speedOverGround, OneHot(navDescs, m.navDesc), OneHot(typeNames, m.typeName)));
    var y := MapSeq(df, (m: MergedRow) => m.leadTime);
    Features(navDescs, typeNames, x, y)
  }

  /** The one-hot columns give back each row's navigation description and
      vessel type. */
  lemma FeaturesDecode(df: seq<MergedRow>, i: nat)
    requires i < |df|
    ensures Decode(FeatureEngineering(df).x[i].navDesc) == df[i].navDesc
    ensures Decode(FeatureEngineering(df).x[i].typeName) == df[i].typeName
  {
    var f := FeatureEngineering(df);
    DecodeOneHot(f.navDescCategories, df[i].navDesc);
    DecodeOneHot(f.typeNameCategories, df[i].typeName);
  }
}
