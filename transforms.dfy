/**
 * The transform every dataset's node runs, as one table: the argument
 * record its `transform_*` function passes to
 * `transform_numeric_features_binary_target`. Each named `transform_*`
 * member is proved to be that call for the datasets that use it.
 */
module Transforms {
  import opened Wrappers
  import opened Frame
  import opened Datasets
  import opened Normalise
  import opened ImbalancedTransforms
  import opened BalancedTransforms

  /**
   * The keyword arguments each `transform_*` function passes; arcene's
   * depend on the input's columns. No record lists a column twice, and a
   * named target is never also dropped, so each dropped column narrows the
   * result by one.
   */
  function Record(d: Dataset, data: Table): (o: Options)
    ensures WellFormed(data) ==> Distinct(DropsOf(o))
    ensures o.targetCol.Some? ==> o.targetCol.value !in DropsOf(o)
  {
    EucalyptusRecord();
    match d
    case Arcene => BalancedTransforms.Arcene(data)
    case Audit => BalancedTransforms.Audit
    case BanknoteAuthentication => Defaults
    case BreastCancer => BalancedTransforms.BreastCancer
    case BreastTissue => ImbalancedTransforms.BreastTissue
    case Cleveland => Keel
    case Dermatology => Keel
    case Ecoli => ImbalancedTransforms.Ecoli
    case Eucalyptus => ImbalancedTransforms.Eucalyptus
    case Glass => ImbalancedTransforms.Glass
    case Haberman => ImbalancedTransforms.Haberman
    case Heart => ImbalancedTransforms.Heart
    case Ionosphere => BalancedTransforms.Ionosphere
    case Iris => ImbalancedTransforms.Iris
    case Led => Keel
    case Libras => OneIsPositive
    case Liver => OneIsPositive
    case Madelon => ImbalancedTransforms.Madelon
    case NewThyroid1 => Keel
    case NewThyroid2 => Keel
    case PageBlocks13 => Keel
    case Parkinsons => BalancedTransforms.Parkinsons
    case Pima => Defaults
    case Spambase => Defaults
    case Vehicle => Defaults
    case Vowel => KeelPadded
    case Wine => ImbalancedTransforms.Wine
    case Yeast1 => KeelPadded
  }

  /** The table the call receives: transform_eucalyptus first turns '?' into a missing value. */
  function Prepared(d: Dataset, data: Table): (t: Table)
    requires WellFormed(data)
    ensures WellFormed(t) && t.columns == data.columns && |t.rows| == |data.rows|
  {
    if d == Dataset.Eucalyptus then ReplaceWithMissing(data, "?") else data
  }

  /** The transform a node for `d` runs: the normalisation of the prepared input under the dataset's record. */
  function Transform(d: Dataset, data: Table, cast: Cast): Result<Table, Error>
    requires WellFormed(data)
  {
    Normalize(Prepared(d, data), Record(d, data), cast)
  }

  /** The arcene node runs `transform_arcene`. */
  lemma RunsArcene(data: Table, cast: Cast)
    requires WellFormed(data)
    ensures Transform(Dataset.Arcene, data, cast) == TransformArcene(data, cast)
  {
    assert Record(Dataset.Arcene, data) == BalancedTransforms.Arcene(data);
    assert Prepared(Dataset.Arcene, data) == data;
  }

  /** The audit node runs `transform_audit`. */
  lemma RunsAudit(data: Table, cast: Cast)
    requires WellFormed(data)
    ensures Transform(Dataset.Audit, data, cast) == TransformAudit(data, cast)
  {
    assert Record(Dataset.Audit, data) == BalancedTransforms.Audit;
    assert Prepared(Dataset.Audit, data) == data;
  }

  /** The breast_cancer node runs `transform_breast_cancer`. */
  lemma RunsBreastCancer(data: Table, cast: Cast)
    requires WellFormed(data)
    ensures Transform(Dataset.BreastCancer, data, cast) == TransformBreastCancer(data, cast)
  {
    assert Record(Dataset.BreastCancer, data) == BalancedTransforms.BreastCancer;
    assert Prepared(Dataset.BreastCancer, data) == data;
  }

  /** The ionosphere node runs `transform_ionosphere`. */
  lemma RunsIonosphere(data: Table, cast: Cast)
    requires WellFormed(data)
    ensures Transform(Dataset.Ionosphere, data, cast) == TransformIonosphere(data, cast)
  {
    assert Record(Dataset.Ionosphere, data) == BalancedTransforms.Ionosphere;
    assert Prepared(Dataset.Ionosphere, data) == data;
  }

  /** The parkinsons node runs `transform_parkinsons`. */
  lemma RunsParkinsons(data: Table, cast: Cast)
    requires WellFormed(data)
    ensures Transform(Dataset.Parkinsons, data, cast) == TransformParkinsons(data, cast)
  {
    assert Record(Dataset.Parkinsons, data) == BalancedTransforms.Parkinsons;
    assert Prepared(Dataset.Parkinsons, data) == data;
  }

  /** The breast_tissue node runs `transform_breast_tissue`. */
  lemma RunsBreastTissue(data: Table, cast: Cast)
    requires WellFormed(data)
    ensures Transform(Dataset.BreastTissue, data, cast) == TransformBreastTissue(data, cast)
  {
    assert Record(Dataset.BreastTissue, data) == ImbalancedTransforms.BreastTissue;
    assert Prepared(Dataset.BreastTissue, data) == data;
  }

  /** The ecoli node runs `transform_ecoli`. */
  lemma RunsEcoli(data: Table, cast: Cast)
    requires WellFormed(data)
    ensures Transform(Dataset.Ecoli, data, cast) == TransformEcoli(data, cast)
  {
    assert Record(Dataset.Ecoli, data) == ImbalancedTransforms.Ecoli;
    assert Prepared(Dataset.Ecoli, data) == data;
  }

  /** The eucalyptus node runs `transform_eucalyptus`. */
  lemma RunsEucalyptus(data: Table, cast: Cast)
    requires WellFormed(data)
    ensures Transform(Dataset.Eucalyptus, data, cast) == TransformEucalyptus(data, cast)
  {
    assert Record(Dataset.Eucalyptus, data) == ImbalancedTransforms.Eucalyptus;
    assert Prepared(Dataset.Eucalyptus, data) == ReplaceWithMissing(data, "?");
  }

  /** The glass node runs `transform_glass`. */
  lemma RunsGlass(data: Table, cast: Cast)
    requires WellFormed(data)
    ensures Transform(Dataset.Glass, data, cast) == TransformGlass(data, cast)
  {
    assert Record(Dataset.Glass, data) == ImbalancedTransforms.Glass;
    assert Prepared(Dataset.Glass, data) == data;
  }

  /** The haberman node runs `transform_haberman`. */
  lemma RunsHaberman(data: Table, cast: Cast)
    requires WellFormed(data)
    ensures Transform(Dataset.Haberman, data, cast) == TransformHaberman(data, cast)
  {
    assert Record(Dataset.Haberman, data) == ImbalancedTransforms.Haberman;
    assert Prepared(Dataset.Haberman, data) == data;
  }

  /** The heart node runs `transform_heart`. */
  lemma RunsHeart(data: Table, cast: Cast)
    requires WellFormed(data)
    ensures Transform(Dataset.Heart, data, cast) == TransformHeart(data, cast)
  {
    assert Record(Dataset.Heart, data) == ImbalancedTransforms.Heart;
    assert Prepared(Dataset.Heart, data) == data;
  }

  /** The iris node runs `transform_iris`. */
  lemma RunsIris(data: Table, cast: Cast)
    requires WellFormed(data)
    ensures Transform(Dataset.Iris, data, cast) == TransformIris(data, cast)
  {
    assert Record(Dataset.Iris, data) == ImbalancedTransforms.Iris;
    assert Prepared(Dataset.Iris, data) == data;
  }

  /** The madelon node runs `transform_madelon`. */
  lemma RunsMadelon(data: Table, cast: Cast)
    requires WellFormed(data)
    ensures Transform(Dataset.Madelon, data, cast) == TransformMadelon(data, cast)
  {
    assert Record(Dataset.Madelon, data) == ImbalancedTransforms.Madelon;
    assert Prepared(Dataset.Madelon, data) == data;
  }

  /** The wine node runs `transform_wine`. */
  lemma RunsWine(data: Table, cast: Cast)
    requires WellFormed(data)
    ensures Transform(Dataset.Wine, data, cast) == TransformWine(data, cast)
  {
    assert Record(Dataset.Wine, data) == ImbalancedTransforms.Wine;
    assert Prepared(Dataset.Wine, data) == data;
  }

  /** The six KEEL datasets' nodes run the shared KEEL transform. */
  lemma RunsKeel(d: Dataset, data: Table, cast: Cast)
    requires WellFormed(data)
    requires d in {Cleveland, Dermatology, Led, NewThyroid1, NewThyroid2, PageBlocks13}
    ensures Transform(d, data, cast) == TransformKeel(data, cast)
  {
    assert Record(d, data) == Keel;
  }

  /** The vowel and yeast_1 nodes run the transform with ' positive'. */
  lemma RunsKeelPadded(d: Dataset, data: Table, cast: Cast)
    requires WellFormed(data)
    requires d in {Vowel, Yeast1}
    ensures Transform(d, data, cast) == TransformKeelPadded(data, cast)
  {
    assert Record(d, data) == KeelPadded;
  }

  /** banknote_authentication, pima, spambase and vehicle pass no argument at all. */
  lemma RunsDefaults(d: Dataset, data: Table, cast: Cast)
    requires WellFormed(data)
    requires d in {BanknoteAuthentication, Pima, Spambase, Vehicle}
    ensures Transform(d, data, cast) == TransformDefaults(data, cast)
  {
    assert Record(d, data) == Defaults;
  }

  /** libras and liver pass `[1]`, which makes theirs the all-defaults transform too. */
  lemma RunsOneIsPositive(d: Dataset, data: Table, cast: Cast)
    requires WellFormed(data)
    requires d in {Libras, Liver}
    ensures Transform(d, data, cast) == TransformDefaults(data, cast)
  {
    assert Record(d, data) == OneIsPositive;
    OneIsDefault(data, cast);
  }

  /**
   * Whatever the dataset, a successful transform is a normalised table,
   * and re-running the defaults on it leaves it unchanged.
   */
  lemma TransformSettled(d: Dataset, data: Table, cast: Cast)
    requires WellFormed(data) && Transform(d, data, cast).Ok?
    ensures Canonical(Transform(d, data, cast).value)
    ensures Normalize(Transform(d, data, cast).value, Defaults, cast) == Transform(d, data, cast)
  {
    NormalizeCanonical(Prepared(d, data), Record(d, data), cast);
    CanonicalFixed(Transform(d, data, cast).value, cast);
  }
}
