/**
 * The per-dataset transforms of the imbalanced collection: each applies
 * `Normalise.Normalize` to one fixed record of arguments. Each function
 * states what its record means for the result: which columns the input must
 * have, how wide the result is, and which cells of which column make a row
 * positive.
 */
module ImbalancedTransforms {
  import opened Wrappers
  import opened Frame
  import opened Normalise

  // ---------------------------------------------------------------------
  // The argument records
  // ---------------------------------------------------------------------

  const BreastTissue: Options := Options(Some([Name("Case #")]), Some(Name("Class")), Some([Text("car"), Text("fad")]))
  const Ecoli: Options := Options(Some([Name("0")]), Some(Name("8")), Some([Text("pp")]))
  const EucalyptusDrops: seq<Key> :=
    [Name("Abbrev"), Name("Rep"), Name("Locality"), Name("Map_Ref"), Name("Latitude"),
     Name("Altitude"), Name("Frosts"), Name("Sp"), Name("PMCno")]
  const Eucalyptus: Options := Options(Some(EucalyptusDrops), Some(Name("Utility")), Some([Text("best")]))
  const Glass: Options := Options(Some([Name("0")]), Some(Name("10")), Some([Num(1.0)]))
  const Haberman: Options := Options(None, Some(Name("3")), Some([Num(2.0)]))
  const Heart: Options := Options(None, None, Some([Num(2.0)]))
  const Iris: Options := Options(None, None, Some([Text("Iris-setosa")]))
  const Madelon: Options := Options(Some([Name("500")]), None, Some([Num(-1.0)]))
  /** Libras and liver pass `[1]` explicitly, which is also the default. */
  const OneIsPositive: Options := Options(None, None, Some([Num(1.0)]))
  const Wine: Options := Options(None, Some(Name("0")), Some([Num(2.0)]))
  /** The KEEL files mark the minority class with the word `positive`. */
  const Keel: Options := Options(None, None, Some([Text("positive")]))
  /** The vowel and yeast-1 files keep the space that follows the comma. */
  const KeelPadded: Options := Options(None, None, Some([Text(" positive")]))

  // ---------------------------------------------------------------------
  // Explicit target column
  // ---------------------------------------------------------------------

  /** transform_breast_tissue: 'Case #' is dropped; 'car' and 'fad' in 'Class' are positive. */
  function TransformBreastTissue(data: Table, cast: Cast): (r: Result<Table, Error>)
    requires WellFormed(data)
    ensures r.Ok? ==> Name("Class") in data.columns && Name("Case #") in data.columns
    ensures r.Ok? ==> |r.value.columns| == |data.columns| - 1
    ensures r.Ok? ==>
      LabelledFrom(data, r.value, Survivors(data, BreastTissue, cast), Name("Class"), [Text("car"), Text("fad")])
  {
    assert Name("Case #") in DropsOf(BreastTissue);
    NamedTarget(data, BreastTissue, cast);
    Normalize(data, BreastTissue, cast)
  }

  /** transform_ecoli: column '0' (the sequence name) is dropped; 'pp' in column '8' is positive. */
  function TransformEcoli(data: Table, cast: Cast): (r: Result<Table, Error>)
    requires WellFormed(data)
    ensures r.Ok? ==> Name("8") in data.columns && Name("0") in data.columns
    ensures r.Ok? ==> |r.value.columns| == |data.columns| - 1
    ensures r.Ok? ==> LabelledFrom(data, r.value, Survivors(data, Ecoli, cast), Name("8"), [Text("pp")])
  {
    assert Name("0") in DropsOf(Ecoli);
    NamedTarget(data, Ecoli, cast);
    Normalize(data, Ecoli, cast)
  }

  /** Every cell holding exactly `marker` becomes missing (`DataFrame.replace(marker, np.nan)`). */
  function ReplaceWithMissing(t: Table, marker: string): (r: Table)
    requires WellFormed(t)
    ensures WellFormed(r) && r.columns == t.columns && |r.rows| == |t.rows|
    ensures forall i :: 0 <= i < |t.rows| ==> r.rows[i].index == t.rows[i].index
    ensures forall i, j :: 0 <= i < |t.rows| && 0 <= j < |t.columns| ==>
      && (r.rows[i].cells[j] == Missing <==> t.rows[i].cells[j] == Missing || t.rows[i].cells[j] == Text(marker))
      && (r.rows[i].cells[j] != Missing ==> r.rows[i].cells[j] == t.rows[i].cells[j])
  {
    Table(t.columns, seq(|t.rows|, i requires 0 <= i < |t.rows| =>
      Row(t.rows[i].index, seq(|t.rows[i].cells|, j requires 0 <= j < |t.rows[i].cells| =>
        if t.rows[i].cells[j] == Text(marker) then Missing else t.rows[i].cells[j]))))
  }

  /** The nine dropped columns are distinct and the target is not one of them. */
  lemma EucalyptusRecord()
    ensures Distinct(DropsOf(Eucalyptus)) && Name("Utility") !in DropsOf(Eucalyptus)
    ensures |DropsOf(Eucalyptus)| == 9
  {
    var d := DropsOf(Eucalyptus);
    assert d == EucalyptusDrops;
    forall i, j | 0 <= i < j < |d| ensures d[i] != d[j] {
      assert d[i].name != d[j].name;
    }
  }

  /**
   * transform_eucalyptus: '?' becomes missing first; nine descriptive
   * columns are dropped; 'best' in 'Utility' is positive.
   */
  function TransformEucalyptus(data: Table, cast: Cast): (r: Result<Table, Error>)
    requires WellFormed(data)
    ensures r.Ok? ==> Name("Utility") in data.columns && forall d :: d in EucalyptusDrops ==> d in data.columns
    ensures r.Ok? ==> |r.value.columns| == |data.columns| - 9
    ensures r.Ok? ==>
      LabelledFrom(ReplaceWithMissing(data, "?"), r.value, Survivors(ReplaceWithMissing(data, "?"), Eucalyptus, cast),
                   Name("Utility"), [Text("best")])
  {
    var replaced := ReplaceWithMissing(data, "?");
    EucalyptusRecord();
    NamedTarget(replaced, Eucalyptus, cast);
    Normalize(replaced, Eucalyptus, cast)
  }

  /** transform_glass: column '0' (the id) is dropped; type 1 in column '10' is positive. */
  function TransformGlass(data: Table, cast: Cast): (r: Result<Table, Error>)
    requires WellFormed(data)
    ensures r.Ok? ==> Name("10") in data.columns && Name("0") in data.columns
    ensures r.Ok? ==> |r.value.columns| == |data.columns| - 1
    ensures r.Ok? ==> LabelledFrom(data, r.value, Survivors(data, Glass, cast), Name("10"), [Num(1.0)])
  {
    assert Name("0") in DropsOf(Glass);
    NamedTarget(data, Glass, cast);
    Normalize(data, Glass, cast)
  }

  /** transform_haberman: nothing else is dropped; status 2 in column '3' is positive. */
  function TransformHaberman(data: Table, cast: Cast): (r: Result<Table, Error>)
    requires WellFormed(data)
    ensures r.Ok? ==> Name("3") in data.columns
    ensures r.Ok? ==> |r.value.columns| == |data.columns|
    ensures r.Ok? ==> LabelledFrom(data, r.value, Survivors(data, Haberman, cast), Name("3"), [Num(2.0)])
  {
    NamedTarget(data, Haberman, cast);
    Normalize(data, Haberman, cast)
  }

  /** transform_wine: the first column '0' is the target and class 2 is positive. */
  function TransformWine(data: Table, cast: Cast): (r: Result<Table, Error>)
    requires WellFormed(data)
    ensures r.Ok? ==> Name("0") in data.columns
    ensures r.Ok? ==> |r.value.columns| == |data.columns|
    ensures r.Ok? ==> LabelledFrom(data, r.value, Survivors(data, Wine, cast), Name("0"), [Num(2.0)])
  {
    NamedTarget(data, Wine, cast);
    Normalize(data, Wine, cast)
  }

  // ---------------------------------------------------------------------
  // Default target column (the last one)
  // ---------------------------------------------------------------------

  /** transform_heart: class 2 in the last column is positive. */
  function TransformHeart(data: Table, cast: Cast): (r: Result<Table, Error>)
    requires WellFormed(data)
    ensures r.Ok? ==> |data.columns| >= 1 && |r.value.columns| == |data.columns|
    ensures r.Ok? ==> LabelledFrom(data, r.value, Survivors(data, Heart, cast), LastColumn(data), [Num(2.0)])
  {
    LastTarget(data, Heart, cast);
    Normalize(data, Heart, cast)
  }

  /** transform_iris: 'Iris-setosa' in the last column is positive. */
  function TransformIris(data: Table, cast: Cast): (r: Result<Table, Error>)
    requires WellFormed(data)
    ensures r.Ok? ==> |data.columns| >= 1 && |r.value.columns| == |data.columns|
    ensures r.Ok? ==> LabelledFrom(data, r.value, Survivors(data, Iris, cast), LastColumn(data), [Text("Iris-setosa")])
  {
    LastTarget(data, Iris, cast);
    Normalize(data, Iris, cast)
  }

  /** transform_madelon: column '500' is dropped and -1 in the last column is positive. */
  function TransformMadelon(data: Table, cast: Cast): (r: Result<Table, Error>)
    requires WellFormed(data)
    ensures r.Ok? ==> |data.columns| >= 1 && Name("500") in data.columns
    ensures r.Ok? && LastColumn(data) != Name("500") ==> |r.value.columns| == |data.columns| - 1
    ensures r.Ok? ==> LabelledFrom(data, r.value, Survivors(data, Madelon, cast), LastColumn(data), [Num(-1.0)])
  {
    assert Name("500") in DropsOf(Madelon);
    LastTarget(data, Madelon, cast);
    Normalize(data, Madelon, cast)
  }

  /** transform_pima and transform_vehicle: all defaults, so 1 in the last column is positive. */
  function TransformDefaults(data: Table, cast: Cast): (r: Result<Table, Error>)
    requires WellFormed(data)
    ensures r.Ok? ==> |data.columns| >= 1 && |r.value.columns| == |data.columns|
    ensures r.Ok? ==> LabelledFrom(data, r.value, Survivors(data, Defaults, cast), LastColumn(data), [Num(1.0)])
  {
    LastTarget(data, Defaults, cast);
    Normalize(data, Defaults, cast)
  }

  /** transform_libras and transform_liver: `[1]` passed explicitly is the default, so they are the same transform. */
  lemma OneIsDefault(data: Table, cast: Cast)
    requires WellFormed(data)
    ensures Normalize(data, OneIsPositive, cast) == TransformDefaults(data, cast)
  {
    assert ValsOf(OneIsPositive) == ValsOf(Defaults);
  }

  /** The six KEEL transforms: 'positive' in the last column is positive. */
  function TransformKeel(data: Table, cast: Cast): (r: Result<Table, Error>)
    requires WellFormed(data)
    ensures r.Ok? ==> |data.columns| >= 1 && |r.value.columns| == |data.columns|
    ensures r.Ok? ==> LabelledFrom(data, r.value, Survivors(data, Keel, cast), LastColumn(data), [Text("positive")])
  {
    LastTarget(data, Keel, cast);
    Normalize(data, Keel, cast)
  }

  /** transform_vowel and transform_yeast_1: ' positive', with its leading space, is positive. */
  function TransformKeelPadded(data: Table, cast: Cast): (r: Result<Table, Error>)
    requires WellFormed(data)
    ensures r.Ok? ==> |data.columns| >= 1 && |r.value.columns| == |data.columns|
    ensures r.Ok? ==> LabelledFrom(data, r.value, Survivors(data, KeelPadded, cast), LastColumn(data), [Text(" positive")])
  {
    LastTarget(data, KeelPadded, cast);
    Normalize(data, KeelPadded, cast)
  }

  // ---------------------------------------------------------------------
  // Consequences of the records
  // ---------------------------------------------------------------------

  /**
   * transform_eucalyptus keeps an input row exactly when none of its kept
   * feature cells is missing, '?', or text that reads as NaN.
   */
  lemma EucalyptusQuestionMarks(data: Table, cast: Cast)
    requires WellFormed(data)
    ensures var kept := KeptOf(data, Eucalyptus);
      var src := Survivors(ReplaceWithMissing(data, "?"), Eucalyptus, cast);
      forall p :: 0 <= p < |data.rows| ==>
        (p in src <==>
         forall m :: 0 <= m < |kept| ==> !Blank(data.rows[p].cells[kept[m]], cast) && data.rows[p].cells[kept[m]] != Text("?"))
  {
    var replaced := ReplaceWithMissing(data, "?");
    var kept := KeptOf(data, Eucalyptus);
    assert KeptOf(replaced, Eucalyptus) == kept;
    var src := Survivors(replaced, Eucalyptus, cast);
    forall p | 0 <= p < |data.rows|
      ensures p in src <==>
        forall m :: 0 <= m < |kept| ==> !Blank(data.rows[p].cells[kept[m]], cast) && data.rows[p].cells[kept[m]] != Text("?")
    {
      assert p in src <==> Survives(kept, cast)(replaced.rows[p]);
      ReplacedSurvives(data, kept, p, cast);
    }
  }

  /** After replacing '?', a row survives exactly when no kept cell was missing, '?' or NaN text. */
  lemma ReplacedSurvives(data: Table, kept: seq<nat>, p: nat, cast: Cast)
    requires WellFormed(data) && p < |data.rows|
    requires forall m :: 0 <= m < |kept| ==> kept[m] < |data.columns|
    ensures Survives(kept, cast)(ReplaceWithMissing(data, "?").rows[p]) <==>
      forall m :: 0 <= m < |kept| ==> !Blank(data.rows[p].cells[kept[m]], cast) && data.rows[p].cells[kept[m]] != Text("?")
  {
    var r := ReplaceWithMissing(data, "?").rows[p];
    assert |r.cells| == |data.columns|;
    forall m | 0 <= m < |kept|
      ensures !Blank(r.cells[kept[m]], cast) <==> !Blank(data.rows[p].cells[kept[m]], cast) && data.rows[p].cells[kept[m]] != Text("?")
    {
    }
  }

  /**
   * The label of a transform_eucalyptus row can be read from the original
   * 'Utility' cell: '?' there, like a missing value, is not 'best' and gives 0.
   */
  lemma EucalyptusLabels(data: Table, cast: Cast)
    requires WellFormed(data) && TransformEucalyptus(data, cast).Ok?
    ensures LabelledFrom(data, TransformEucalyptus(data, cast).value, Survivors(ReplaceWithMissing(data, "?"), Eucalyptus, cast),
                         Name("Utility"), [Text("best")])
  {
    var replaced := ReplaceWithMissing(data, "?");
    BestUnreplaced(data);
    LabelledTransfer(data, replaced, TransformEucalyptus(data, cast).value, Survivors(replaced, Eucalyptus, cast),
                     Name("Utility"), [Text("best")]);
  }

  /** Replacing '?' by a missing value does not change whether a cell is 'best'. */
  lemma BestUnreplaced(data: Table)
    requires WellFormed(data)
    ensures var replaced := ReplaceWithMissing(data, "?");
      forall i, j :: 0 <= i < |data.rows| && 0 <= j < |data.columns| ==>
        (replaced.rows[i].cells[j] in [Text("best")] <==> data.rows[i].cells[j] in [Text("best")])
  {
  }

  /**
   * transform_wine: when the target '0' is the first column, feature i of
   * the result is input column i + 1.
   */
  lemma WineFeatures(data: Table)
    requires WellFormed(data) && |data.columns| >= 1 && data.columns[0] == Name("0")
    ensures |KeptOf(data, Wine)| == |data.columns| - 1
    ensures forall i :: 0 <= i < |data.columns| - 1 ==> KeptOf(data, Wine)[i] == i + 1
  {
    WhereInterval(data.columns, Unlisted([Name("0")] + DropsOf(Wine)), 1, |data.columns|);
  }

  /** transform_vowel and transform_yeast_1: a target cell 'positive' without the space is labelled 0. */
  lemma UnpaddedIsNegative(data: Table, cast: Cast)
    requires WellFormed(data) && TransformKeelPadded(data, cast).Ok?
    ensures var out := TransformKeelPadded(data, cast).value;
      var src := Survivors(data, KeelPadded, cast);
      var ti := PositionOf(data.columns, LastColumn(data));
      forall m :: 0 <= m < |src| && data.rows[src[m]].cells[ti] == Text("positive") ==>
        out.rows[m].cells[|out.columns| - 1] == Negative
  {
  }
}
