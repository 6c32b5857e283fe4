/**
 * The imbalance step: `make_data_imbalanced` turns a dataset's class counts
 * into a requested count per class (the positive class divided by a factor,
 * every other class unchanged) and hands it to imblearn's `make_imbalance`;
 * `generate_process_funcs` pairs every dataset of `FACTOR_MAPPING` with each
 * of its factors.
 */
module Processing {
  import opened Wrappers
  import opened Frame
  import Normalise
  import opened Datasets

  // ---------------------------------------------------------------------
  // Samples and class counts
  // ---------------------------------------------------------------------

  /** One row split at the target column: its other cells in order, and its target. */
  datatype Sample = Sample(features: seq<Cell>, target: Cell)

  /**
   * How the step can fail. The last four are the checks `make_imbalance`
   * makes: the target must have two classes at least, then the requested
   * counts are checked.
   */
  datatype Failure =
    | MissingColumn(key: Key)
    | MissingParameter(name: string)
    | ZeroDivision
    | SingleClass
    | ClassNotPresent
    | NegativeCount
    | TooManyRequested

  /** The positive class: the label 1 written by the normalisation. */
  const Positive: Cell := Normalise.Positive

  const RandomState: string := "random_state"

  /** `data.drop(columns='target')` and `data['target']`, row by row. */
  function Samples(t: Table, ti: nat): (ss: seq<Sample>)
    requires WellFormed(t) && ti < |t.columns|
    ensures |ss| == |t.rows|
    ensures forall i :: 0 <= i < |ss| ==>
      && |ss[i].features| == |t.columns| - 1
      && ss[i].target == t.rows[i].cells[ti]
      && ss[i].features + [ss[i].target] == Features(t.rows[i].cells, ti) + [t.rows[i].cells[ti]]
  {
    seq(|t.rows|, i requires 0 <= i < |t.rows| => Sample(Features(t.rows[i].cells, ti), t.rows[i].cells[ti]))
  }

  /** A list without its element at position `ti`. */
  function Features<T>(s: seq<T>, ti: nat): (r: seq<T>)
    requires ti < |s|
    ensures |r| == |s| - 1
    ensures forall j :: 0 <= j < ti ==> r[j] == s[j]
    ensures forall j :: ti <= j < |r| ==> r[j] == s[j + 1]
  {
    s[..ti] + s[ti + 1..]
  }

  /** The number of samples labelled `c`. */
  function LabelCount(ss: seq<Sample>, c: Cell): (n: nat)
    ensures n <= |ss|
    ensures n == 0 <==> forall i :: 0 <= i < |ss| ==> ss[i].target != c
    decreases |ss|
  {
    if ss == [] then 0
    else LabelCount(ss[..|ss| - 1], c) + (if ss[|ss| - 1].target == c then 1 else 0)
  }

  lemma LabelCountAppend(ss: seq<Sample>, s: Sample, c: Cell)
    ensures LabelCount(ss + [s], c) == LabelCount(ss, c) + (if s.target == c then 1 else 0)
  {
    assert (ss + [s])[..|ss|] == ss;
  }

  /** `Counter(data['target'])`: the labels that occur, each with its number of rows. */
  function ClassCounts(ss: seq<Sample>): (counts: map<Cell, nat>)
    ensures forall c :: c in counts <==> LabelCount(ss, c) > 0
    ensures forall c :: c in counts ==> counts[c] == LabelCount(ss, c)
    decreases |ss|
  {
    if ss == [] then map[]
    else
      var counts := ClassCounts(ss[..|ss| - 1]);
      var c := ss[|ss| - 1].target;
      counts[c := (if c in counts then counts[c] else 0) + 1]
  }

  /** A `Counter` answers 0 for a label it has not seen. */
  function CounterGet(counts: map<Cell, nat>, c: Cell): nat {
    if c in counts then counts[c] else 0
  }

  /** Euclidean division of a count by a positive divisor. */
  lemma DivBounds(a: nat, d: int)
    requires d > 0
    ensures 0 <= (a / d) * d <= a < (a / d) * d + d
    ensures 0 <= a / d <= a
    ensures a / d == 0 <==> a < d
  {
    var q := a / d;
    assert a == q * d + a % d;
    MulAtLeast(q, d);
  }

  /** A non-negative multiple of a positive number is at least the multiplier, and at least d once positive. */
  lemma MulAtLeast(q: int, d: int)
    requires q >= 0 && d > 0
    ensures q * d >= q
    ensures q > 0 ==> q * d >= d
  {
    assert q * d == q + q * (d - 1);
    assert q * (d - 1) >= 0;
  }

  /**
   * `int(a / b)` for a count `a`: Python divides exactly and `int`
   * truncates toward zero. Dividing the magnitudes and restoring the sign
   * gives that quotient; the two cases only make the bounds easy to prove.
   */
  function TruncDiv(a: nat, b: int): (q: int)
    requires b != 0
    ensures 0 <= q * b <= a
    ensures a - q * b < if b > 0 then b else -b
    ensures q >= 0 <==> b > 0 || a < -b
    ensures q >= 0 ==> q <= a
  {
    var d := if b > 0 then b else -b;
    DivBounds(a, d);
    var q := a / d;
    assert b < 0 ==> (-q) * b == q * d;
    if b > 0 then q else -q
  }

  /** The request `make_data_imbalanced` passes on: the positive count divided by `factor`, the rest as counted. */
  function Requested(ss: seq<Sample>, factor: int): (strategy: map<Cell, int>)
    requires factor != 0
    ensures forall c :: c in strategy <==> c == Positive || LabelCount(ss, c) > 0
    ensures forall c :: c in strategy && c != Positive ==> strategy[c] == LabelCount(ss, c)
    ensures Positive in strategy && strategy[Positive] == TruncDiv(LabelCount(ss, Positive), factor)
  {
    var counts: map<Cell, int> := ClassCounts(ss);
    counts[Positive := TruncDiv(CounterGet(ClassCounts(ss), Positive), factor)]
  }

  // ---------------------------------------------------------------------
  // make_imbalance
  // ---------------------------------------------------------------------

  /** Two samples with different labels: the target has more than one class. */
  predicate Mixed(xs: seq<Sample>) {
    exists i, j :: 0 <= i < |xs| && 0 <= j < |xs| && xs[i].target != xs[j].target
  }

  /** The `Counter` of the labels has more than one entry exactly when two samples differ in label. */
  lemma ClassNumber(xs: seq<Sample>)
    ensures |ClassCounts(xs)| > 1 <==> Mixed(xs)
  {
    if Mixed(xs) {
      var i, j :| 0 <= i < |xs| && 0 <= j < |xs| && xs[i].target != xs[j].target;
      TwoClasses(xs, i, j);
    } else if xs != [] {
      OneClass(xs);
    }
  }

  lemma TwoClasses(xs: seq<Sample>, i: nat, j: nat)
    requires i < |xs| && j < |xs| && xs[i].target != xs[j].target
    ensures |ClassCounts(xs)| > 1
  {
    var both := {xs[i].target, xs[j].target};
    assert |both| == 2;
    assert LabelCount(xs, xs[i].target) > 0 && LabelCount(xs, xs[j].target) > 0;
    SubsetCard(both, ClassCounts(xs).Keys);
  }

  lemma OneClass(xs: seq<Sample>)
    requires xs != [] && !Mixed(xs)
    ensures |ClassCounts(xs)| <= 1
  {
    var keys := ClassCounts(xs).Keys;
    forall c | c in keys ensures c == xs[0].target {
      assert LabelCount(xs, c) > 0;
      var k :| 0 <= k < |xs| && xs[k].target == c;
    }
    SubsetCard(keys, {xs[0].target});
  }

  lemma SubsetCard<T>(a: set<T>, b: set<T>)
    requires a <= b
    ensures |a| <= |b|
  {
    assert b == a + (b - a);
  }

  /**
   * The first check that fails, in the order imblearn makes them: a target
   * with a single class (or none), then a requested class that does not
   * occur, a negative count, a count above the class size.
   */
  function Rejection(xs: seq<Sample>, strategy: map<Cell, int>): (f: Option<Failure>)
    ensures f.None? <==> Mixed(xs) && forall c :: c in strategy ==> 0 < LabelCount(xs, c) && 0 <= strategy[c] <= LabelCount(xs, c)
    ensures f == Some(SingleClass) <==> !Mixed(xs)
    ensures f == Some(ClassNotPresent) <==> Mixed(xs) && exists c :: c in strategy && LabelCount(xs, c) == 0
  {
    ClassNumber(xs);
    if |ClassCounts(xs)| <= 1 then Some(SingleClass)
    else if exists c :: c in strategy && LabelCount(xs, c) == 0 then Some(ClassNotPresent)
    else if exists c :: c in strategy && strategy[c] < 0 then Some(NegativeCount)
    else if exists c :: c in strategy && strategy[c] > LabelCount(xs, c) then Some(TooManyRequested)
    else None
  }

  /** The number of rows of class `c` a valid request leaves. */
  function Kept(xs: seq<Sample>, strategy: map<Cell, int>, c: Cell): int {
    if c in strategy then strategy[c] else LabelCount(xs, c)
  }

  /**
   * The rows of class `c` kept from the first `n` of that class when the
   * request is honoured in input order; a negative request keeps none.
   */
  function Capped(strategy: map<Cell, int>, c: Cell, n: nat): nat {
    if c !in strategy || n <= strategy[c] then n
    else if strategy[c] < 0 then 0
    else strategy[c]
  }

  /**
   * The part of `make_imbalance` the pipeline relies on: it refuses an
   * invalid request, and otherwise returns some of the samples, with exactly
   * the requested number of each listed class and every sample of the
   * others. Which samples of a listed class are kept is imblearn's random
   * choice; this body keeps the first ones.
   */
  method MakeImbalance(xs: seq<Sample>, strategy: map<Cell, int>) returns (r: Result<seq<Sample>, Failure>)
    ensures r.Err? <==> Rejection(xs, strategy).Some?
    ensures r.Err? ==> r.error == Rejection(xs, strategy).value
    ensures r.Ok? ==> multiset(r.value) <= multiset(xs)
    ensures r.Ok? ==> forall c :: LabelCount(r.value, c) == Kept(xs, strategy, c)
  {
    var rejection := Rejection(xs, strategy);
    if rejection.Some? {
      return Err(rejection.value);
    }
    var chosen := ChooseInOrder(xs, strategy);
    FinalCounts(xs, chosen, strategy);
    return Ok(chosen);
  }

  /**
   * The selection itself: walking the samples in order, keep a sample of a
   * listed class while fewer than the requested number are kept, and every
   * sample of the other classes.
   */
  method ChooseInOrder(xs: seq<Sample>, strategy: map<Cell, int>) returns (chosen: seq<Sample>)
    ensures multiset(chosen) <= multiset(xs)
    ensures forall c :: LabelCount(chosen, c) == Capped(strategy, c, LabelCount(xs, c))
  {
    chosen := [];
    var i := 0;
    while i < |xs|
      invariant i <= |xs|
      invariant multiset(chosen) <= multiset(xs[..i])
      invariant forall c :: LabelCount(chosen, c) == Capped(strategy, c, LabelCount(xs[..i], c))
    {
      var s := xs[i];
      var keep := s.target !in strategy || LabelCount(chosen, s.target) < strategy[s.target];
      ChooseStep(xs[..i], s, chosen, strategy, keep);
      assert xs[..i + 1] == xs[..i] + [s];
      if keep {
        chosen := chosen + [s];
      }
      i := i + 1;
    }
    assert xs[..i] == xs;
  }

  /** One step of the selection loop keeps the per-class counts capped by the request. */
  lemma ChooseStep(seen: seq<Sample>, s: Sample, chosen: seq<Sample>, strategy: map<Cell, int>, keep: bool)
    requires forall c :: LabelCount(chosen, c) == Capped(strategy, c, LabelCount(seen, c))
    requires keep == (s.target !in strategy || LabelCount(chosen, s.target) < strategy[s.target])
    ensures forall c :: LabelCount(if keep then chosen + [s] else chosen, c) == Capped(strategy, c, LabelCount(seen + [s], c))
  {
    forall c ensures LabelCount(if keep then chosen + [s] else chosen, c) == Capped(strategy, c, LabelCount(seen + [s], c)) {
      ChooseClass(seen, s, chosen, strategy, keep, c);
    }
  }

  /** The same step, for the count of one class. */
  lemma ChooseClass(seen: seq<Sample>, s: Sample, chosen: seq<Sample>, strategy: map<Cell, int>, keep: bool, c: Cell)
    requires LabelCount(chosen, c) == Capped(strategy, c, LabelCount(seen, c))
    requires LabelCount(chosen, s.target) == Capped(strategy, s.target, LabelCount(seen, s.target))
    requires keep == (s.target !in strategy || LabelCount(chosen, s.target) < strategy[s.target])
    ensures LabelCount(if keep then chosen + [s] else chosen, c) == Capped(strategy, c, LabelCount(seen + [s], c))
  {
    LabelCountAppend(seen, s, c);
    LabelCountAppend(chosen, s, c);
  }

  /** Once every sample is seen, a valid request is met exactly. */
  lemma FinalCounts(xs: seq<Sample>, chosen: seq<Sample>, strategy: map<Cell, int>)
    requires Rejection(xs, strategy).None?
    requires forall c :: LabelCount(chosen, c) == Capped(strategy, c, LabelCount(xs, c))
    ensures forall c :: LabelCount(chosen, c) == Kept(xs, strategy, c)
  {
    forall c ensures LabelCount(chosen, c) == Kept(xs, strategy, c) {
      if c in strategy {
        assert strategy[c] <= LabelCount(xs, c);
      }
    }
  }

  // ---------------------------------------------------------------------
  // make_data_imbalanced
  // ---------------------------------------------------------------------

  /** The samples of a table that has a `target` column. */
  function Labelled(t: Table): (ss: seq<Sample>)
    requires WellFormed(t) && Normalise.TargetKey in t.columns
    ensures |ss| == |t.rows|
  {
    Samples(t, PositionOf(t.columns, Normalise.TargetKey))
  }

  /** `pd.concat([X_imb, y_imb], axis=1).reset_index(drop=True)`. */
  function Reassembled(columns: seq<Key>, ss: seq<Sample>): (t: Table)
    requires forall i :: 0 <= i < |ss| ==> |ss[i].features| == |columns|
    ensures |t.rows| == |ss| && t.columns == columns + [Normalise.TargetKey]
    ensures forall i :: 0 <= i < |ss| ==> t.rows[i].index == i
  {
    Table(columns + [Normalise.TargetKey],
          seq(|ss|, i requires 0 <= i < |ss| => Row(i, ss[i].features + [ss[i].target])))
  }

  /** Splitting a reassembled table at its last column gives the samples back. */
  lemma ReassembledSamples(columns: seq<Key>, ss: seq<Sample>)
    requires forall i :: 0 <= i < |ss| ==> |ss[i].features| == |columns|
    requires Normalise.TargetKey !in columns
    ensures WellFormed(Reassembled(columns, ss)) == Distinct(columns)
    ensures Distinct(columns) ==> Labelled(Reassembled(columns, ss)) == ss
  {
    var t := Reassembled(columns, ss);
    if Distinct(columns) {
      assert WellFormed(t);
      var ti := PositionOf(t.columns, Normalise.TargetKey);
      assert ti == |columns|;
      forall i | 0 <= i < |ss| ensures Samples(t, ti)[i] == ss[i] {
        assert t.rows[i].cells[..ti] == ss[i].features;
      }
    } else {
      var a, b :| 0 <= a < b < |columns| && columns[a] == columns[b];
      assert t.columns[a] == t.columns[b];
    }
  }

  /**
   * `make_data_imbalanced(data, params, factor)`. The `target` column moves
   * to the end, the index restarts at 0, the positive class keeps
   * int(count / factor) of its rows and every other class all of its rows.
   */
  method MakeDataImbalanced(data: Table, params: map<string, int>, factor: int) returns (r: Result<Table, Failure>)
    requires WellFormed(data)
    ensures Normalise.TargetKey !in data.columns ==> r == Err(MissingColumn(Normalise.TargetKey))
    ensures Normalise.TargetKey in data.columns && factor == 0 ==> r == Err(ZeroDivision)
    ensures Normalise.TargetKey in data.columns && factor != 0 && RandomState !in params ==>
      r == Err(MissingParameter(RandomState))
    ensures Normalise.TargetKey in data.columns && factor != 0 && RandomState in params ==>
      && (r.Err? <==> Rejection(Labelled(data), Requested(Labelled(data), factor)).Some?)
      && (r.Err? ==> r.error == Rejection(Labelled(data), Requested(Labelled(data), factor)).value)
    ensures r.Ok? ==>
      && Normalise.TargetKey in data.columns && factor != 0
      && WellFormed(r.value)
      && r.value.columns == Features(data.columns, PositionOf(data.columns, Normalise.TargetKey)) + [Normalise.TargetKey]
      && (forall i :: 0 <= i < |r.value.rows| ==> r.value.rows[i].index == i)
      && multiset(Labelled(r.value)) <= multiset(Labelled(data))
      && LabelCount(Labelled(r.value), Positive) == TruncDiv(LabelCount(Labelled(data), Positive), factor)
      && forall c :: c != Positive ==> LabelCount(Labelled(r.value), c) == LabelCount(Labelled(data), c)
  {
    if Normalise.TargetKey !in data.columns {
      return Err(MissingColumn(Normalise.TargetKey));
    }
    var ti := PositionOf(data.columns, Normalise.TargetKey);
    var xs := Samples(data, ti);
    var ratio: map<Cell, int> := ClassCounts(xs);
    if factor == 0 {
      return Err(ZeroDivision);
    }
    ratio := ratio[Positive := TruncDiv(CounterGet(ClassCounts(xs), Positive), factor)];
    assert ratio == Requested(xs, factor);
    if RandomState !in params {
      return Err(MissingParameter(RandomState));
    }
    var resampled := MakeImbalance(xs, ratio);
    if resampled.Err? {
      return Err(resampled.error);
    }
    var chosen := resampled.value;
    Reassembly(data, chosen);
    r := Ok(Reassembled(Features(data.columns, ti), chosen));
  }

  /** Dropping one element of a list of distinct keys leaves distinct keys. */
  lemma FeaturesDistinct(cols: seq<Key>, ti: nat)
    requires Distinct(cols) && ti < |cols|
    ensures Distinct(Features(cols, ti)) && cols[ti] !in Features(cols, ti)
  {
    var fs := Features(cols, ti);
    forall a, b | 0 <= a < b < |fs| ensures fs[a] != fs[b] {
      var a', b' := if a < ti then a else a + 1, if b < ti then b else b + 1;
      assert fs[a] == cols[a'] && fs[b] == cols[b'];
    }
    forall a | 0 <= a < |fs| ensures fs[a] != cols[ti] {
      var a' := if a < ti then a else a + 1;
      assert fs[a] == cols[a'];
    }
  }

  /**
   * Samples drawn from a table, put back together behind its feature
   * columns, form a well-formed table whose samples are exactly those drawn.
   */
  lemma Reassembly(data: Table, chosen: seq<Sample>)
    requires WellFormed(data) && Normalise.TargetKey in data.columns
    requires multiset(chosen) <= multiset(Labelled(data))
    ensures var ti := PositionOf(data.columns, Normalise.TargetKey);
      && (forall i :: 0 <= i < |chosen| ==> |chosen[i].features| == |Features(data.columns, ti)|)
      && WellFormed(Reassembled(Features(data.columns, ti), chosen))
      && Labelled(Reassembled(Features(data.columns, ti), chosen)) == chosen
  {
    var ti := PositionOf(data.columns, Normalise.TargetKey);
    var xs := Labelled(data);
    forall i | 0 <= i < |chosen| ensures |chosen[i].features| == |data.columns| - 1 {
      assert chosen[i] in multiset(xs);
      var k :| 0 <= k < |xs| && xs[k] == chosen[i];
    }
    FeaturesDistinct(data.columns, ti);
    ReassembledSamples(Features(data.columns, ti), chosen);
  }

  /** With factor 1 every class, the positive one included, is requested at its current count. */
  lemma RequestedFactorOne(ss: seq<Sample>)
    requires LabelCount(ss, Positive) > 0
    ensures Requested(ss, 1) == ClassCounts(ss)
  {
  }

  /**
   * With no positive row the request still names the positive class, with
   * 0 rows, so it is rejected: for having one class if that is all there
   * is, otherwise for naming a class that does not occur.
   */
  lemma RequestedNoPositives(ss: seq<Sample>, factor: int)
    requires factor != 0 && LabelCount(ss, Positive) == 0
    ensures Requested(ss, factor)[Positive] == 0
    ensures Mixed(ss) ==> Rejection(ss, Requested(ss, factor)) == Some(ClassNotPresent)
    ensures !Mixed(ss) ==> Rejection(ss, Requested(ss, factor)) == Some(SingleClass)
  {
  }

  /**
   * When the request passes imblearn's checks: exactly when the target has
   * two classes at least, some row is positive and int(count / factor) is
   * not negative. A positive factor never asks for more rows than there are.
   */
  lemma RequestAccepted(ss: seq<Sample>, factor: int)
    requires factor != 0
    ensures Rejection(ss, Requested(ss, factor)).None? <==>
      Mixed(ss) && LabelCount(ss, Positive) > 0 && TruncDiv(LabelCount(ss, Positive), factor) >= 0
  {
    var strategy := Requested(ss, factor);
    var n := LabelCount(ss, Positive);
    var q := TruncDiv(n, factor);
    assert Positive in strategy && strategy[Positive] == q;
    if Mixed(ss) && n > 0 && q >= 0 {
      forall c | c in strategy ensures 0 < LabelCount(ss, c) && 0 <= strategy[c] <= LabelCount(ss, c) {
        if c != Positive {
          assert strategy[c] == LabelCount(ss, c);
        }
      }
    }
  }

  // ---------------------------------------------------------------------
  // FACTOR_MAPPING and generate_process_funcs
  // ---------------------------------------------------------------------

  /** The imbalance factors tried per dataset, in the dictionary's insertion order. */
  const FactorMapping: seq<(Dataset, seq<int>)> := [
    (BreastTissue, [1, 2, 3, 4]),
    (Cleveland, [1]),
    (Dermatology, [1, 2]),
    (Ecoli, [1, 2, 3, 4, 5]),
    (Eucalyptus, [1, 2, 3, 4, 5]),
    (Glass, [1, 2, 3, 4, 5]),
    (Haberman, [1, 2, 3, 4, 5]),
    (Heart, [1, 2, 3, 4, 5]),
    (Iris, [1, 2, 3, 4, 5]),
    (Led, [1, 2, 3, 4]),
    (Libras, [1, 2, 3]),
    (Liver, [1, 2, 3, 4, 5]),
    (Madelon, [1, 2, 3, 4, 5]),
    (NewThyroid1, [1, 2, 3, 4]),
    (NewThyroid2, [1, 2, 3, 4]),
    (PageBlocks13, [1, 2, 3]),
    (Pima, [1, 2, 3, 4, 5]),
    (Vehicle, [1, 2, 3, 4, 5]),
    (Vowel, [1, 2, 3, 4, 5]),
    (Wine, [1, 2, 3, 4, 5]),
    (Yeast1, [1, 2, 3, 4, 5])
  ]

  /** `lambda data, params, factor=factor: make_data_imbalanced(data, params, factor)`: its only state is the bound factor. */
  datatype Imbalancer = Imbalancer(factor: int)

  /** One entry of the list `generate_process_funcs` returns. */
  datatype ProcessFunc = ProcessFunc(dataset: Dataset, factor: int, func: Imbalancer)

  /** The entries one dataset contributes, one per factor, in the listed order. */
  function EntryFuncs(dataset: Dataset, factors: seq<int>): (fs: seq<ProcessFunc>)
    ensures |fs| == |factors|
    ensures forall j :: 0 <= j < |fs| ==> fs[j].dataset == dataset && fs[j].factor == factors[j]
    ensures forall j :: 0 <= j < |fs| ==> fs[j].func.factor == fs[j].factor
  {
    seq(|factors|, j requires 0 <= j < |factors| => ProcessFunc(dataset, factors[j], Imbalancer(factors[j])))
  }

  /** The whole list: the datasets' entries one after the other, in mapping order. */
  function ProcessFuncs(mapping: seq<(Dataset, seq<int>)>): (fs: seq<ProcessFunc>)
    ensures |fs| == TotalFactors(mapping)
    ensures forall i :: 0 <= i < |fs| ==> fs[i].func.factor == fs[i].factor
    decreases |mapping|
  {
    if mapping == [] then []
    else
      var last := mapping[|mapping| - 1];
      ProcessFuncs(mapping[..|mapping| - 1]) + EntryFuncs(last.0, last.1)
  }

  /** The number of (dataset, factor) pairs. */
  function TotalFactors(mapping: seq<(Dataset, seq<int>)>): nat
    decreases |mapping|
  {
    if mapping == [] then 0 else TotalFactors(mapping[..|mapping| - 1]) + |mapping[|mapping| - 1].1|
  }

  /** `generate_process_funcs()`: the list built from `FACTOR_MAPPING`. */
  method GenerateProcessFuncs() returns (funcs: seq<ProcessFunc>)
    ensures funcs == ProcessFuncs(FactorMapping)
  {
    funcs := Flatten(FactorMapping);
  }

  /** The nested loop of `generate_process_funcs`, over the mapping's items and each item's factors. */
  method Flatten(mapping: seq<(Dataset, seq<int>)>) returns (funcs: seq<ProcessFunc>)
    ensures funcs == ProcessFuncs(mapping)
  {
    funcs := [];
    var k := 0;
    while k < |mapping|
      invariant k <= |mapping|
      invariant funcs == ProcessFuncs(mapping[..k])
    {
      var (dataset, factors) := mapping[k];
      var j := 0;
      while j < |factors|
        invariant j <= |factors|
        invariant funcs == ProcessFuncs(mapping[..k]) + EntryFuncs(dataset, factors[..j])
      {
        var factor := factors[j];
        assert EntryFuncs(dataset, factors[..j + 1]) == EntryFuncs(dataset, factors[..j]) + [ProcessFunc(dataset, factor, Imbalancer(factor))];
        funcs := funcs + [ProcessFunc(dataset, factor, Imbalancer(factor))];
        j := j + 1;
      }
      assert factors[..j] == factors;
      assert mapping[..k + 1][..k] == mapping[..k];
      k := k + 1;
    }
    assert mapping[..k] == mapping;
  }

  /** Dataset names are unique, as dictionary keys are. */
  predicate UniqueKeys(mapping: seq<(Dataset, seq<int>)>) {
    forall a, b :: 0 <= a < b < |mapping| ==> mapping[a].0 != mapping[b].0
  }

  /** The factors 1, 2, ..., n. */
  function Upto(n: nat): (fs: seq<int>)
    ensures |fs| == n && forall i :: 0 <= i < n ==> fs[i] == i + 1
  {
    seq(n, i requires 0 <= i < n => i + 1)
  }

  /** The number of factors listed for each dataset. */
  function Lengths(mapping: seq<(Dataset, seq<int>)>): (ls: seq<nat>)
    ensures |ls| == |mapping| && forall k :: 0 <= k < |mapping| ==> ls[k] == |mapping[k].1|
  {
    seq(|mapping|, k requires 0 <= k < |mapping| => |mapping[k].1|)
  }

  /** Every factor list of the mapping counts up from 1. */
  lemma FactorListsCount()
    ensures forall k :: 0 <= k < |FactorMapping| ==> FactorMapping[k].1 == Upto(|FactorMapping[k].1|)
  {
  }

  /** How many factors each of the 21 datasets has, in order. */
  lemma FactorCounts()
    ensures Lengths(FactorMapping) == Counts
  {
  }

  /**
   * There are 21 datasets, and every factor list starts at 1, increases
   * strictly and stays a single digit.
   */
  lemma FactorMappingShape()
    ensures |FactorMapping| == 21
    ensures forall k :: 0 <= k < |FactorMapping| ==>
      var factors := FactorMapping[k].1;
      && |factors| >= 1 && factors[0] == 1
      && (forall j :: 0 <= j < |factors| ==> 1 <= factors[j] <= 9)
      && (forall i, j :: 0 <= i < j < |factors| ==> factors[i] < factors[j])
  {
    FactorListsCount();
    FactorCounts();
    forall k | 0 <= k < |FactorMapping|
      ensures 1 <= |FactorMapping[k].1| <= 5
    {
      assert Lengths(FactorMapping)[k] == |FactorMapping[k].1|;
    }
  }

  /**
   * The entries of dataset k come right after those of datasets 0..k-1, one
   * per factor in the listed order, each binding its own factor.
   */
  lemma {:induction false} ProcessFuncsLayout(mapping: seq<(Dataset, seq<int>)>, k: nat, j: nat)
    requires k < |mapping| && j < |mapping[k].1|
    ensures TotalFactors(mapping[..k]) + j < |ProcessFuncs(mapping)|
    ensures ProcessFuncs(mapping)[TotalFactors(mapping[..k]) + j] ==
      ProcessFunc(mapping[k].0, mapping[k].1[j], Imbalancer(mapping[k].1[j]))
    decreases |mapping|
  {
    var init := mapping[..|mapping| - 1];
    if k < |mapping| - 1 {
      assert init[..k] == mapping[..k];
      assert init[k] == mapping[k];
      ProcessFuncsLayout(init, k, j);
    } else {
      assert mapping[..k] == init;
    }
  }

  /** Every entry belongs to one of the mapping's datasets and names one of its factors. */
  lemma {:induction false} ProcessFuncsFrom(mapping: seq<(Dataset, seq<int>)>, i: nat)
    requires i < |ProcessFuncs(mapping)|
    ensures exists k :: (0 <= k < |mapping| && ProcessFuncs(mapping)[i].dataset == mapping[k].0 &&
                         ProcessFuncs(mapping)[i].factor in mapping[k].1)
    decreases |mapping|
  {
    var init := mapping[..|mapping| - 1];
    var last := |mapping| - 1;
    if i < |ProcessFuncs(init)| {
      ProcessFuncsFrom(init, i);
      var k :| 0 <= k < |init| && ProcessFuncs(init)[i].dataset == init[k].0 && ProcessFuncs(init)[i].factor in init[k].1;
      assert mapping[k] == init[k];
    } else {
      var j := i - |ProcessFuncs(init)|;
      assert ProcessFuncs(mapping)[i] == EntryFuncs(mapping[last].0, mapping[last].1)[j];
      assert mapping[last].1[j] in mapping[last].1;
    }
  }

  /**
   * The (dataset, factor) pairs are pairwise distinct when the datasets are
   * and each factor list has no repeats.
   */
  lemma {:induction false} ProcessFuncsDistinct(mapping: seq<(Dataset, seq<int>)>)
    requires UniqueKeys(mapping)
    requires forall k :: 0 <= k < |mapping| ==> Distinct(mapping[k].1)
    ensures forall a, b :: 0 <= a < b < |ProcessFuncs(mapping)| ==>
      ProcessFuncs(mapping)[a].dataset != ProcessFuncs(mapping)[b].dataset ||
      ProcessFuncs(mapping)[a].factor != ProcessFuncs(mapping)[b].factor
    decreases |mapping|
  {
    if mapping != [] {
      var init := mapping[..|mapping| - 1];
      var last := mapping[|mapping| - 1];
      var fs := ProcessFuncs(mapping);
      var n := |ProcessFuncs(init)|;
      ProcessFuncsDistinct(init);
      forall a, b | 0 <= a < b < |fs|
        ensures fs[a].dataset != fs[b].dataset || fs[a].factor != fs[b].factor
      {
        if b >= n {
          assert fs[b] == EntryFuncs(last.0, last.1)[b - n];
          if a < n {
            ProcessFuncsFrom(init, a);
            assert fs[a] == ProcessFuncs(init)[a];
          } else {
            assert fs[a] == EntryFuncs(last.0, last.1)[a - n];
          }
        } else {
          assert fs[a] == ProcessFuncs(init)[a] && fs[b] == ProcessFuncs(init)[b];
        }
      }
    }
  }

  /** `generate_process_funcs()` returns 90 entries. */
  lemma ProcessFuncsCount()
    ensures |ProcessFuncs(FactorMapping)| == 90
  {
    TotalIsSum(FactorMapping);
    FactorCounts();
    CountsSum();
  }

  const Counts: seq<nat> := [4, 1, 2, 5, 5, 5, 5, 5, 5, 4, 3, 5, 5, 4, 4, 3, 5, 5, 5, 5, 5]

  /** The factor-list lengths add up to 90, counted seven datasets at a time. */
  lemma CountsSum()
    ensures SumTo(Counts, 21) == 90
  {
    var counts := Counts;
    CountsSum14();
    assert SumTo(counts, 15) == 62;
    assert SumTo(counts, 16) == 65;
    assert SumTo(counts, 17) == 70;
    assert SumTo(counts, 18) == 75;
    assert SumTo(counts, 19) == 80;
    assert SumTo(counts, 20) == 85;
    assert SumTo(counts, 21) == 90;
  }

  lemma CountsSum14()
    ensures SumTo(Counts, 14) == 58
  {
    var counts := Counts;
    CountsSum7();
    assert SumTo(counts, 8) == 32;
    assert SumTo(counts, 9) == 37;
    assert SumTo(counts, 10) == 41;
    assert SumTo(counts, 11) == 44;
    assert SumTo(counts, 12) == 49;
    assert SumTo(counts, 13) == 54;
    assert SumTo(counts, 14) == 58;
  }

  lemma CountsSum7()
    ensures SumTo(Counts, 7) == 27
  {
    var counts := Counts;
    assert SumTo(counts, 1) == 4;
    assert SumTo(counts, 2) == 5;
    assert SumTo(counts, 3) == 7;
    assert SumTo(counts, 4) == 12;
    assert SumTo(counts, 5) == 17;
    assert SumTo(counts, 6) == 22;
    assert SumTo(counts, 7) == 27;
  }

  /** The sum of the first n numbers of a list. */
  function SumTo(xs: seq<nat>, n: nat): nat
    requires n <= |xs|
  {
    if n == 0 then 0 else SumTo(xs, n - 1) + xs[n - 1]
  }

  /** Lists that agree on their first n numbers have the same sum of them. */
  lemma {:induction false} SumToAgree(xs: seq<nat>, ys: seq<nat>, n: nat)
    requires n <= |xs| && n <= |ys|
    requires forall i :: 0 <= i < n ==> xs[i] == ys[i]
    ensures SumTo(xs, n) == SumTo(ys, n)
  {
    if n > 0 {
      SumToAgree(xs, ys, n - 1);
    }
  }

  /** The number of pairs is the sum of the list lengths. */
  lemma {:induction false} TotalIsSum(mapping: seq<(Dataset, seq<int>)>)
    ensures TotalFactors(mapping) == SumTo(Lengths(mapping), |mapping|)
    decreases |mapping|
  {
    if mapping != [] {
      var n := |mapping|;
      var init := mapping[..n - 1];
      TotalIsSum(init);
      SumToAgree(Lengths(mapping), Lengths(init), n - 1);
    }
  }
}
