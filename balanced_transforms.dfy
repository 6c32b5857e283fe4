/**
 * The per-dataset transforms of the balanced collection, each
 * `Normalise.Normalize` applied to one record of arguments (arcene's record
 * depends on the input's columns).
 */
module BalancedTransforms {
  import opened Wrappers
  import opened Frame
  import opened Normalise
  import opened ImbalancedTransforms

  /** The number of arcene's feature columns; every column from this position on is dropped. */
  const ArceneWidth: nat := 1500

  /** `data.columns[1500:]`: empty when there are no more than 1500 columns. */
  function Arcene(data: Table): (o: Options)
    ensures o.targetCol.None? && o.targetVals.None?
    ensures |data.columns| > ArceneWidth ==> DropsOf(o) == data.columns[ArceneWidth..]
    ensures |data.columns| <= ArceneWidth ==> DropsOf(o) == []
  {
    Options(Some(if |data.columns| > ArceneWidth then data.columns[ArceneWidth..] else []), None, None)
  }

  const Audit: Options := Options(Some([Name("LOCATION_ID")]), Some(Name("Risk")), None)
  const BreastCancer: Options := Options(Some([Name("0")]), Some(Name("1")), Some([Text("M")]))
  const Ionosphere: Options := Options(Some([Name("0"), Name("1")]), None, Some([Text("b")]))
  const Parkinsons: Options := Options(Some([Name("name")]), Some(Name("status")), Some([Num(0.0)]))

  /**
   * With more than 1500 columns, the features are exactly the first 1500
   * input columns, in order: the last column is the target, and it is also
   * among the dropped ones.
   */
  lemma ArceneFeatures(data: Table)
    requires WellFormed(data)
    ensures |data.columns| > ArceneWidth ==> KeptOf(data, Arcene(data)) == Range(ArceneWidth)
  {
    if |data.columns| > ArceneWidth {
      var cols := data.columns;
      var keys := [TargetOf(data, Arcene(data))] + DropsOf(Arcene(data));
      forall j | 0 <= j < |cols| ensures Unlisted(keys)(cols[j]) <==> 0 <= j < ArceneWidth {
        if j < ArceneWidth {
          assert cols[j] !in cols[ArceneWidth..];
        } else {
          assert cols[j] == cols[ArceneWidth..][j - ArceneWidth];
        }
      }
      WhereInterval(cols, Unlisted(keys), 0, ArceneWidth);
    }
  }

  /** transform_arcene: 1 in the last column is positive and only the first 1500 columns are features. */
  function TransformArcene(data: Table, cast: Cast): (r: Result<Table, Error>)
    requires WellFormed(data)
    ensures r.Ok? ==> |data.columns| >= 1
    ensures r.Ok? && |data.columns| > ArceneWidth ==> |r.value.columns| == ArceneWidth + 1
    ensures r.Ok? && |data.columns| <= ArceneWidth ==> |r.value.columns| == |data.columns|
    ensures r.Ok? ==> LabelledFrom(data, r.value, Survivors(data, Arcene(data), cast), LastColumn(data), [Num(1.0)])
  {
    var r := Normalize(data, Arcene(data), cast);
    NormalizeLabelled(data, Arcene(data), cast);
    if r.Ok? then
      NormalizeColumns(data, Arcene(data), cast);
      ArceneFeatures(data);
      r
    else
      r
  }

  /** transform_audit: 'LOCATION_ID' is dropped; 1 in 'Risk' is positive. */
  function TransformAudit(data: Table, cast: Cast): (r: Result<Table, Error>)
    requires WellFormed(data)
    ensures r.Ok? ==> Name("Risk") in data.columns && Name("LOCATION_ID") in data.columns
    ensures r.Ok? ==> |r.value.columns| == |data.columns| - 1
    ensures r.Ok? ==> LabelledFrom(data, r.value, Survivors(data, Audit, cast), Name("Risk"), [Num(1.0)])
  {
    assert Name("LOCATION_ID") in DropsOf(Audit);
    NamedTarget(data, Audit, cast);
    Normalize(data, Audit, cast)
  }

  /** transform_breast_cancer: column '0' (the id) is dropped; 'M' in column '1' is positive. */
  function TransformBreastCancer(data: Table, cast: Cast): (r: Result<Table, Error>)
    requires WellFormed(data)
    ensures r.Ok? ==> Name("1") in data.columns && Name("0") in data.columns
    ensures r.Ok? ==> |r.value.columns| == |data.columns| - 1
    ensures r.Ok? ==> LabelledFrom(data, r.value, Survivors(data, BreastCancer, cast), Name("1"), [Text("M")])
  {
    assert Name("0") in DropsOf(BreastCancer);
    NamedTarget(data, BreastCancer, cast);
    Normalize(data, BreastCancer, cast)
  }

  /** transform_ionosphere: columns '0' and '1' are dropped; 'b' in the last column is positive. */
  function TransformIonosphere(data: Table, cast: Cast): (r: Result<Table, Error>)
    requires WellFormed(data)
    ensures r.Ok? ==> |data.columns| >= 1 && Name("0") in data.columns && Name("1") in data.columns
    ensures r.Ok? && LastColumn(data) != Name("0") && LastColumn(data) != Name("1") ==>
      |r.value.columns| == |data.columns| - 2
    ensures r.Ok? ==> LabelledFrom(data, r.value, Survivors(data, Ionosphere, cast), LastColumn(data), [Text("b")])
  {
    assert Name("0") in DropsOf(Ionosphere);
    assert Name("1") in DropsOf(Ionosphere);
    LastTarget(data, Ionosphere, cast);
    Normalize(data, Ionosphere, cast)
  }

  /** transform_parkinsons: 'name' is dropped; status 0 (healthy) is positive. */
  function TransformParkinsons(data: Table, cast: Cast): (r: Result<Table, Error>)
    requires WellFormed(data)
    ensures r.Ok? ==> Name("status") in data.columns && Name("name") in data.columns
    ensures r.Ok? ==> |r.value.columns| == |data.columns| - 1
    ensures r.Ok? ==> LabelledFrom(data, r.value, Survivors(data, Parkinsons, cast), Name("status"), [Num(0.0)])
  {
    assert Name("name") in DropsOf(Parkinsons);
    NamedTarget(data, Parkinsons, cast);
    Normalize(data, Parkinsons, cast)
  }

  /** transform_parkinsons inverts the source's class: status 1 becomes 0 and status 0 becomes 1. */
  lemma ParkinsonsInverted(data: Table, cast: Cast)
    requires WellFormed(data) && TransformParkinsons(data, cast).Ok?
    ensures var out := TransformParkinsons(data, cast).value;
      var src := Survivors(data, Parkinsons, cast);
      var si := PositionOf(data.columns, Name("status"));
      forall m :: 0 <= m < |src| ==>
        && (data.rows[src[m]].cells[si] == Num(1.0) ==> out.rows[m].cells[|out.columns| - 1] == Num(0.0))
        && (data.rows[src[m]].cells[si] == Num(0.0) ==> out.rows[m].cells[|out.columns| - 1] == Num(1.0))
  {
  }
}
