/**
 * `transform_numeric_features_binary_target` (src/ial_datasets/utils.py):
 * turn a raw table into numeric features named 0..k-1 followed by a 0/1
 * `target` column, dropping the rows with a missing feature.
 *
 * The source is a chain of DataFrame expressions; each step is one function
 * below, and `Normalize` chains them in the source's order, so a failing
 * step decides which error is raised.
 */
module Normalise {
  import opened Wrappers
  import opened Frame

  /** The keyword arguments; `None` stands for the source's `None` default. */
  datatype Options = Options(dropCols: Option<seq<Key>>, targetCol: Option<Key>, targetVals: Option<seq<Cell>>)

  const Defaults: Options := Options(None, None, None)

  /**
   * The exceptions pandas raises: `columns[-1]` of a table without columns
   * (IndexError), a column that is not there (KeyError, naming the absent
   * keys), and a feature that does not convert to float (ValueError).
   */
  datatype Error = NoColumns | KeyNotFound(keys: seq<Key>) | NotCastable

  /** What Python's `float(text)` makes of text it accepts: a number, or NaN ("nan", "NaN", ...). */
  datatype Parsed = Number(value: real) | NotANumber

  /** Python's `float(text)`: what a piece of text denotes, if anything. */
  type Cast = string -> Option<Parsed>

  const TargetKey: Key := Name("target")
  const Positive: Cell := Num(1.0)
  const Negative: Cell := Num(0.0)

  /** The feature keys 0, 1, ..., k - 1. */
  function Positions(k: nat): (cols: seq<Key>)
    ensures |cols| == k && forall i :: 0 <= i < k ==> cols[i] == Pos(i)
  {
    seq(k, i requires 0 <= i < k => Pos(i))
  }

  /** The columns of a normalised table with k features. */
  function Header(k: nat): (cols: seq<Key>)
    ensures |cols| == k + 1 && cols[k] == TargetKey
    ensures forall i :: 0 <= i < k ==> cols[i] == Pos(i)
    ensures Distinct(cols)
  {
    Positions(k) + [TargetKey]
  }

  // ---------------------------------------------------------------------
  // The steps, in the order of the source
  // ---------------------------------------------------------------------

  /** `isin(vals).astype(int)` on one cell: 1 for a listed value, else 0. */
  function Label(c: Cell, vals: seq<Cell>): (y: Cell)
    ensures y == Positive <==> c in vals
    ensures y == Negative <==> c !in vals
  {
    if c in vals then Positive else Negative
  }

  /** `data[key].rename('target').isin(vals).astype(int)`. */
  function TargetLabels(t: Table, key: Key, vals: seq<Cell>): (r: Result<seq<Cell>, Error>)
    requires WellFormed(t)
    ensures r.Err? <==> key !in t.columns
    ensures r.Err? ==> r.error == KeyNotFound([key])
    ensures r.Ok? ==> |r.value| == |t.rows|
    ensures r.Ok? ==> forall i :: 0 <= i < |t.rows| ==>
      (r.value[i] == Positive <==> t.rows[i].cells[PositionOf(t.columns, key)] in vals) &&
      (r.value[i] == Positive || r.value[i] == Negative)
  {
    if key !in t.columns then Err(KeyNotFound([key]))
    else
      var j := PositionOf(t.columns, key);
      Ok(seq(|t.rows|, i requires 0 <= i < |t.rows| => Label(t.rows[i].cells[j], vals)))
  }

  /** The listed keys that are not columns of the table, in list order. */
  function Absent(keys: seq<Key>, cols: seq<Key>): (r: seq<Key>)
    ensures forall k :: k in r <==> k in keys && k !in cols
    ensures r == [] <==> forall k :: k in keys ==> k in cols
  {
    if keys == [] then []
    else (if keys[0] in cols then [] else [keys[0]]) + Absent(keys[1..], cols)
  }

  /** `data.drop(columns=keys)`: every listed key must be a column. */
  function Drop(t: Table, keys: seq<Key>): (r: Result<Table, Error>)
    requires WellFormed(t)
    ensures r.Err? <==> Absent(keys, t.columns) != []
    ensures r.Err? ==> r.error == KeyNotFound(Absent(keys, t.columns))
    ensures r.Ok? ==> WellFormed(r.value) && |r.value.rows| == |t.rows|
    ensures r.Ok? ==>
      var ps := Where(t.columns, Unlisted(keys));
      && r.value.columns == Select(t.columns, ps)
      && forall i :: 0 <= i < |t.rows| ==>
           r.value.rows[i] == Row(t.rows[i].index, Select(t.rows[i].cells, ps))
  {
    var absent := Absent(keys, t.columns);
    if absent != [] then
      Err(KeyNotFound(absent))
    else
      var ps := Where(t.columns, Unlisted(keys));
      SelectDistinct(t.columns, ps);
      Ok(Table(Select(t.columns, ps), seq(|t.rows|, i requires 0 <= i < |t.rows| => Row(t.rows[i].index, Select(t.rows[i].cells, ps)))))
  }

  /** The columns that survive `drop` are exactly the unlisted ones, in their input order. */
  lemma DropKeeps(t: Table, keys: seq<Key>)
    requires WellFormed(t) && Drop(t, keys).Ok?
    ensures forall k :: k in Drop(t, keys).value.columns <==> k in t.columns && k !in keys
  {
    var ps := Where(t.columns, Unlisted(keys));
    var kept := Select(t.columns, ps);
    forall k | k in t.columns && k !in keys ensures k in kept {
      var j := PositionOf(t.columns, k);
      assert Unlisted(keys)(t.columns[j]);
      var m :| 0 <= m < |ps| && ps[m] == j;
      assert kept[m] == k;
    }
  }

  /** A cell `astype(float)` accepts: anything but text that is not a number. */
  predicate Castable(c: Cell, cast: Cast) {
    c.Text? ==> cast(c.text).Some?
  }

  /** A cell that is NaN once cast: missing already, or text that reads as NaN. */
  predicate Blank(c: Cell, cast: Cast) {
    c.Missing? || (c.Text? && cast(c.text) == Some(NotANumber))
  }

  /** `astype(float)` on one cell: NaN stays NaN, numbers stay, text is parsed. */
  function CastValue(c: Cell, cast: Cast): (v: Cell)
    requires Castable(c, cast)
    ensures v.Missing? <==> Blank(c, cast)
    ensures !v.Text?
    ensures c.Num? ==> v == c
    ensures v.Num? && c.Text? ==> cast(c.text) == Some(Number(v.value))
  {
    match c
    case Text(s) => (match cast(s).value case Number(x) => Num(x) case NotANumber => Missing)
    case _ => c
  }

  function CastAll(cells: seq<Cell>, cast: Cast): (r: seq<Cell>)
    requires forall j :: 0 <= j < |cells| ==> Castable(cells[j], cast)
    ensures |r| == |cells|
  {
    seq(|cells|, j requires 0 <= j < |cells| => CastValue(cells[j], cast))
  }

  /** `astype(float)` on a whole table: one text cell that is not a number fails it. */
  function AsFloat(t: Table, cast: Cast): (r: Result<Table, Error>)
    requires WellFormed(t)
    ensures r.Err? <==> exists i, j :: 0 <= i < |t.rows| && 0 <= j < |t.columns| && !Castable(t.rows[i].cells[j], cast)
    ensures r.Err? ==> r.error == NotCastable
    ensures r.Ok? ==> WellFormed(r.value) && r.value.columns == t.columns && |r.value.rows| == |t.rows|
    ensures r.Ok? ==> forall i :: 0 <= i < |t.rows| ==>
      r.value.rows[i] == Row(t.rows[i].index, CastAll(t.rows[i].cells, cast))
  {
    if exists i, j :: 0 <= i < |t.rows| && 0 <= j < |t.columns| && !Castable(t.rows[i].cells[j], cast) then
      Err(NotCastable)
    else
      Ok(Table(t.columns, seq(|t.rows|, i requires 0 <= i < |t.rows| => Row(t.rows[i].index, CastAll(t.rows[i].cells, cast)))))
  }

  /** `rename(columns=dict(zip(X.columns, range(X.shape[1]))))`. */
  function Renumber(t: Table): (r: Table)
    requires WellFormed(t)
    ensures WellFormed(r) && r.rows == t.rows
    ensures |r.columns| == |t.columns| && forall i :: 0 <= i < |t.columns| ==> r.columns[i] == Pos(i)
  {
    Table(Positions(|t.columns|), t.rows)
  }

  /** `pd.concat([X, y], axis=1)`: `y` becomes the last column, row by row. */
  function AppendColumn(t: Table, key: Key, col: seq<Cell>): (r: Table)
    requires WellFormed(t) && key !in t.columns && |col| == |t.rows|
    ensures WellFormed(r) && r.columns == t.columns + [key] && |r.rows| == |t.rows|
    ensures forall i :: 0 <= i < |t.rows| ==>
      r.rows[i].index == t.rows[i].index && r.rows[i].cells[..|t.columns|] == t.rows[i].cells &&
      r.rows[i].cells[|t.columns|] == col[i]
  {
    Table(t.columns + [key], seq(|t.rows|, i requires 0 <= i < |t.rows| => Row(t.rows[i].index, t.rows[i].cells + [col[i]])))
  }

  /** A row without a missing cell. */
  predicate Complete(r: Row) {
    Missing !in r.cells
  }

  /** `dropna()`: keep, in order and with their index labels, the rows without a missing cell. */
  function DropNa(t: Table): (r: Table)
    requires WellFormed(t)
    ensures WellFormed(r) && r.columns == t.columns
    ensures forall i :: 0 <= i < |r.rows| ==> Complete(r.rows[i])
    ensures r.rows == Select(t.rows, Where(t.rows, Complete))
  {
    Table(t.columns, Select(t.rows, Where(t.rows, Complete)))
  }

  /**
   * The whole of `transform_numeric_features_binary_target`. At a glance:
   * only a table without columns and no named target raises IndexError, and
   * a result never has more rows than the input and always ends in
   * `target`. The lemmas below state the rest.
   */
  function Normalize(data: Table, o: Options, cast: Cast): (r: Result<Table, Error>)
    requires WellFormed(data)
    ensures r == Err(NoColumns) <==> o.targetCol.None? && |data.columns| == 0
    ensures r.Ok? ==> WellFormed(r.value) && |r.value.rows| <= |data.rows|
    ensures r.Ok? ==> |r.value.columns| >= 1 && r.value.columns[|r.value.columns| - 1] == TargetKey
  {
    var dropCols := o.dropCols.GetOr([]);
    var targetCol :- if o.targetCol.Some? then Ok(o.targetCol.value)
                     else if |data.columns| == 0 then Err(NoColumns)
                     else Ok(data.columns[|data.columns| - 1]);
    var targetVals := o.targetVals.GetOr([Positive]);
    var y :- TargetLabels(data, targetCol, targetVals);
    var x :- Drop(data, [targetCol] + dropCols);
    var x :- AsFloat(x, cast);
    var x := Renumber(x);
    Ok(DropNa(AppendColumn(x, TargetKey, y)))
  }

  // ---------------------------------------------------------------------
  // What the result means, stated on the input table
  // ---------------------------------------------------------------------

  /** Whether the target column can be named at all (`columns[-1]` needs a column). */
  predicate HasTarget(t: Table, o: Options) {
    o.targetCol.Some? || |t.columns| > 0
  }

  function TargetOf(t: Table, o: Options): Key
    requires HasTarget(t, o)
  {
    if o.targetCol.Some? then o.targetCol.value else t.columns[|t.columns| - 1]
  }

  function DropsOf(o: Options): seq<Key> {
    o.dropCols.GetOr([])
  }

  function ValsOf(o: Options): seq<Cell> {
    o.targetVals.GetOr([Positive])
  }

  /** Positions of the input columns that become features, in order. */
  function KeptOf(t: Table, o: Options): (kept: seq<nat>)
    requires HasTarget(t, o)
    ensures forall m :: 0 <= m < |kept| ==> kept[m] < |t.columns|
  {
    Where(t.columns, Unlisted([TargetOf(t, o)] + DropsOf(o)))
  }

  /** Every kept feature cell of every row converts to float. */
  predicate AllCastable(t: Table, kept: seq<nat>, cast: Cast)
    requires WellFormed(t)
    requires forall m :: 0 <= m < |kept| ==> kept[m] < |t.columns|
  {
    forall i, m :: 0 <= i < |t.rows| && 0 <= m < |kept| ==> Castable(t.rows[i].cells[kept[m]], cast)
  }

  /** The conditions under which the source returns a table instead of raising. */
  predicate Accepts(t: Table, o: Options, cast: Cast)
    requires WellFormed(t)
  {
    && HasTarget(t, o)
    && TargetOf(t, o) in t.columns
    && (forall k :: k in DropsOf(o) ==> k in t.columns)
    && AllCastable(t, KeptOf(t, o), cast)
  }

  /** A row survives `dropna` when none of its kept feature cells is NaN once cast. */
  function Survives(kept: seq<nat>, cast: Cast): Row -> bool {
    (r: Row) => forall m :: 0 <= m < |kept| && kept[m] < |r.cells| ==> !Blank(r.cells[kept[m]], cast)
  }

  /** The positions of the input rows that reach the output, in order. */
  function Survivors(t: Table, o: Options, cast: Cast): (src: seq<nat>)
    requires HasTarget(t, o)
    ensures forall m :: 0 <= m < |src| ==> src[m] < |t.rows|
  {
    Where(t.rows, Survives(KeptOf(t, o), cast))
  }

  /**
   * `out` holds one row per position of `src`, keeping that input row's
   * index label and ending in 1 exactly when the input row's `key` cell is
   * one of `vals`, and in 0 otherwise.
   */
  predicate LabelledFrom(t: Table, out: Table, src: seq<nat>, key: Key, vals: seq<Cell>)
    requires key in t.columns
  {
    && |out.columns| >= 1
    && |out.rows| == |src|
    && forall m :: 0 <= m < |src| ==>
         && src[m] < |t.rows|
         && |t.rows[src[m]].cells| == |t.columns|
         && |out.rows[m].cells| == |out.columns|
         && out.rows[m].index == t.rows[src[m]].index
         && (out.rows[m].cells[|out.columns| - 1] == Positive <==> t.rows[src[m]].cells[PositionOf(t.columns, key)] in vals)
         && (out.rows[m].cells[|out.columns| - 1] == Negative <==> t.rows[src[m]].cells[PositionOf(t.columns, key)] !in vals)
  }

  /** Row labels read from a table with the same shape and the same verdict on every key cell are the same. */
  lemma LabelledTransfer(t: Table, u: Table, out: Table, src: seq<nat>, key: Key, vals: seq<Cell>)
    requires WellFormed(t) && key in t.columns
    requires WellFormed(u) && u.columns == t.columns && |u.rows| == |t.rows|
    requires forall i :: 0 <= i < |t.rows| ==> u.rows[i].index == t.rows[i].index
    requires forall i, j :: 0 <= i < |t.rows| && 0 <= j < |t.columns| ==>
      (u.rows[i].cells[j] in vals <==> t.rows[i].cells[j] in vals)
    requires LabelledFrom(u, out, src, key, vals)
    ensures LabelledFrom(t, out, src, key, vals)
  {
  }

  /** The normalised form of one input row: its kept features as floats, then its label. */
  function NormalRow(r: Row, ti: nat, kept: seq<nat>, vals: seq<Cell>, cast: Cast): Row
    requires ti < |r.cells|
    requires forall m :: 0 <= m < |kept| ==> kept[m] < |r.cells| && Castable(r.cells[kept[m]], cast)
  {
    Row(r.index, CastAll(Select(r.cells, kept), cast) + [Label(r.cells[ti], vals)])
  }

  /** A normalised table: features 0..k-1 holding numbers, then `target` holding 0 or 1. */
  predicate Canonical(t: Table) {
    && WellFormed(t)
    && |t.columns| >= 1
    && t.columns == Header(|t.columns| - 1)
    && forall i :: 0 <= i < |t.rows| ==>
         && (forall j :: 0 <= j < |t.columns| - 1 ==> t.rows[i].cells[j].Num?)
         && (t.rows[i].cells[|t.columns| - 1] == Positive || t.rows[i].cells[|t.columns| - 1] == Negative)
  }

  // ---------------------------------------------------------------------
  // Lemmas
  // ---------------------------------------------------------------------

  /** With no arguments: the last column is the target, 1 is positive, nothing else is dropped. */
  lemma NormalizeDefaults(t: Table, cast: Cast)
    requires WellFormed(t)
    ensures |t.columns| == 0 ==> Normalize(t, Defaults, cast) == Err(NoColumns)
    ensures |t.columns| > 0 ==>
      Normalize(t, Defaults, cast) ==
      Normalize(t, Options(Some([]), Some(t.columns[|t.columns| - 1]), Some([Num(1.0)])), cast)
  {
  }

  /** The normalised row has a missing cell exactly when a kept feature of the input row is NaN once cast. */
  lemma NormalRowComplete(r: Row, ti: nat, kept: seq<nat>, vals: seq<Cell>, cast: Cast)
    requires ti < |r.cells|
    requires forall m :: 0 <= m < |kept| ==> kept[m] < |r.cells| && Castable(r.cells[kept[m]], cast)
    ensures Complete(NormalRow(r, ti, kept, vals, cast)) == Survives(kept, cast)(r)
  {
    var cells := NormalRow(r, ti, kept, vals, cast).cells;
    if !Survives(kept, cast)(r) {
      var m :| 0 <= m < |kept| && kept[m] < |r.cells| && Blank(r.cells[kept[m]], cast);
      assert cells[m] == CastValue(r.cells[kept[m]], cast);
      assert cells[m] == Missing;
    } else {
      forall j | 0 <= j < |cells| ensures cells[j] != Missing {
        if j < |kept| {
          assert cells[j] == CastValue(r.cells[kept[j]], cast);
        }
      }
    }
  }

  /** `astype(float)` after `drop` fails exactly when a kept cell of the input does not convert. */
  lemma CastableAfterDrop(t: Table, keys: seq<Key>, cast: Cast)
    requires WellFormed(t) && Drop(t, keys).Ok?
    ensures AsFloat(Drop(t, keys).value, cast).Ok? <==> AllCastable(t, Where(t.columns, Unlisted(keys)), cast)
  {
    var kept := Where(t.columns, Unlisted(keys));
    var x := Drop(t, keys).value;
    assert |x.columns| == |kept|;
    forall i, m | 0 <= i < |t.rows| && 0 <= m < |kept|
      ensures x.rows[i].cells[m] == t.rows[i].cells[kept[m]]
    {
    }
  }

  /**
   * The source raises exactly when the target cannot be named, the target
   * or a dropped column is absent, or a kept feature holds text that is not
   * a number; the error raised is the first of these, in that order.
   */
  lemma NormalizeFails(t: Table, o: Options, cast: Cast)
    requires WellFormed(t)
    ensures Normalize(t, o, cast).Err? <==> !Accepts(t, o, cast)
    ensures !HasTarget(t, o) ==> Normalize(t, o, cast) == Err(NoColumns)
    ensures HasTarget(t, o) && TargetOf(t, o) !in t.columns ==>
      Normalize(t, o, cast) == Err(KeyNotFound([TargetOf(t, o)]))
    ensures HasTarget(t, o) && TargetOf(t, o) in t.columns && Absent(DropsOf(o), t.columns) != [] ==>
      Normalize(t, o, cast) == Err(KeyNotFound(Absent(DropsOf(o), t.columns)))
    ensures (HasTarget(t, o) && TargetOf(t, o) in t.columns && Absent(DropsOf(o), t.columns) == []
             && !AllCastable(t, KeptOf(t, o), cast)) ==>
      Normalize(t, o, cast) == Err(NotCastable)
  {
    if !HasTarget(t, o) {
    } else if TargetOf(t, o) !in t.columns {
    } else if Absent(DropsOf(o), t.columns) != [] {
      MissingDrop(t, o, cast);
    } else {
      FeatureCast(t, o, cast);
    }
  }

  /** With the target present, a dropped column that is absent raises first. */
  lemma MissingDrop(t: Table, o: Options, cast: Cast)
    requires WellFormed(t) && HasTarget(t, o) && TargetOf(t, o) in t.columns
    requires Absent(DropsOf(o), t.columns) != []
    ensures !Accepts(t, o, cast)
    ensures Normalize(t, o, cast) == Err(KeyNotFound(Absent(DropsOf(o), t.columns)))
  {
    var drops := DropsOf(o);
    assert Absent([TargetOf(t, o)] + drops, t.columns) == Absent(drops, t.columns);
    assert Absent(drops, t.columns)[0] in drops;
  }

  /** With every named column present, the source fails only on a cell it cannot cast. */
  lemma FeatureCast(t: Table, o: Options, cast: Cast)
    requires WellFormed(t) && HasTarget(t, o) && TargetOf(t, o) in t.columns
    requires Absent(DropsOf(o), t.columns) == []
    ensures Normalize(t, o, cast).Err? <==> !AllCastable(t, KeptOf(t, o), cast)
    ensures !AllCastable(t, KeptOf(t, o), cast) ==> Normalize(t, o, cast) == Err(NotCastable)
  {
    var keys := [TargetOf(t, o)] + DropsOf(o);
    assert Absent(keys, t.columns) == Absent(DropsOf(o), t.columns);
    CastableAfterDrop(t, keys, cast);
  }

  /** Dropping the target and some present columns leaves the others, counted without repeats. */
  lemma {:induction false} KeptWidth(cols: seq<Key>, target: Key, drops: seq<Key>)
    requires Distinct(cols) && target in cols
    requires forall d :: d in drops ==> d in cols
    ensures |Where(cols, Unlisted([target] + drops))| == |cols| - 1 - |set d | d in drops && d != target|
  {
    var keys := [target] + drops;
    KeptCount(cols, keys);
    DistinctCard(cols);
    var others := set d | d in drops && d != target;
    KeysSplit(cols, target, drops);
    assert |{target} + others| == 1 + |others| by {
      assert target !in others;
    }
  }

  /** The distinct keys are the unlisted ones plus the target plus the other dropped ones. */
  lemma KeysSplit(cols: seq<Key>, target: Key, drops: seq<Key>)
    requires target in cols
    requires forall d :: d in drops ==> d in cols
    ensures var removed := {target} + set d | d in drops && d != target;
      && (set c | c in cols) == (set c | c in cols && c !in [target] + drops) + removed
      && (set c | c in cols && c !in [target] + drops) !! removed
  {
  }

  /**
   * On success the columns are 0..k-1 then `target`, where k is the number
   * of input columns minus the target minus the distinct dropped columns
   * other than the target.
   */
  lemma NormalizeColumns(t: Table, o: Options, cast: Cast)
    requires WellFormed(t) && Normalize(t, o, cast).Ok?
    ensures HasTarget(t, o)
    ensures var k := |Normalize(t, o, cast).value.columns| - 1;
      && Normalize(t, o, cast).value.columns == Header(k)
      && k == |KeptOf(t, o)|
      && k == |t.columns| - 1 - |set d | d in DropsOf(o) && d != TargetOf(t, o)|
  {
    NormalizeFails(t, o, cast);
    NormalizeStaged(t, o, cast);
    StagedRows(t, o, cast);
    KeptWidth(t.columns, TargetOf(t, o), DropsOf(o));
  }

  /** An accepted input passes every step of the chain. */
  lemma AcceptedSteps(t: Table, o: Options, cast: Cast)
    requires WellFormed(t) && Accepts(t, o, cast)
    ensures TargetLabels(t, TargetOf(t, o), ValsOf(o)).Ok?
    ensures Drop(t, [TargetOf(t, o)] + DropsOf(o)).Ok?
    ensures AsFloat(Drop(t, [TargetOf(t, o)] + DropsOf(o)).value, cast).Ok?
  {
    var keys := [TargetOf(t, o)] + DropsOf(o);
    assert Absent(keys, t.columns) == Absent(DropsOf(o), t.columns);
    CastableAfterDrop(t, keys, cast);
  }

  /** The table just before `dropna`, for an accepted input. */
  function Staged(t: Table, o: Options, cast: Cast): (s: Table)
    requires WellFormed(t) && Accepts(t, o, cast)
    ensures WellFormed(s)
  {
    AcceptedSteps(t, o, cast);
    var target := TargetOf(t, o);
    var x := AsFloat(Drop(t, [target] + DropsOf(o)).value, cast).value;
    AppendColumn(Renumber(x), TargetKey, TargetLabels(t, target, ValsOf(o)).value)
  }

  lemma NormalizeStaged(t: Table, o: Options, cast: Cast)
    requires WellFormed(t) && Accepts(t, o, cast)
    ensures Normalize(t, o, cast) == Ok(DropNa(Staged(t, o, cast)))
  {
    AcceptedSteps(t, o, cast);
  }

  /** Before `dropna`, row i is the normalised form of input row i. */
  lemma StagedRows(t: Table, o: Options, cast: Cast)
    requires WellFormed(t) && Accepts(t, o, cast)
    ensures var s := Staged(t, o, cast);
      && s.columns == Header(|KeptOf(t, o)|)
      && |s.rows| == |t.rows|
      && forall i :: 0 <= i < |t.rows| ==>
           s.rows[i] == NormalRow(t.rows[i], PositionOf(t.columns, TargetOf(t, o)), KeptOf(t, o), ValsOf(o), cast)
  {
    AcceptedSteps(t, o, cast);
    var target := TargetOf(t, o);
    var ti := PositionOf(t.columns, target);
    var kept := KeptOf(t, o);
    var vals := ValsOf(o);
    var y := TargetLabels(t, target, vals).value;
    var x1 := Drop(t, [target] + DropsOf(o)).value;
    var x2 := AsFloat(x1, cast).value;
    var s := Staged(t, o, cast);
    assert s == AppendColumn(Renumber(x2), TargetKey, y);
    forall i | 0 <= i < |t.rows|
      ensures s.rows[i] == NormalRow(t.rows[i], ti, kept, vals, cast)
    {
      assert x1.rows[i].cells == Select(t.rows[i].cells, kept);
      assert s.rows[i].cells == x2.rows[i].cells + [y[i]];
      assert y[i] == Label(t.rows[i].cells[ti], vals);
    }
  }

  /**
   * What the source returns for an accepted input, row by row: the
   * surviving input rows in their order, each in its normalised form.
   */
  function Expected(t: Table, o: Options, cast: Cast): (rows: seq<Row>)
    requires WellFormed(t) && Accepts(t, o, cast)
    ensures |rows| == |Survivors(t, o, cast)|
  {
    var src := Survivors(t, o, cast);
    var ti := PositionOf(t.columns, TargetOf(t, o));
    var kept := KeptOf(t, o);
    seq(|src|, m requires 0 <= m < |src| => NormalRow(t.rows[src[m]], ti, kept, ValsOf(o), cast))
  }

  /**
   * On success the input was accepted, and the rows are, in their input
   * order and with their index labels, exactly the input rows with no
   * missing kept feature, each normalised: feature m is the m-th kept input
   * column cast to float, and the last cell is the row's label.
   */
  lemma NormalizeRows(t: Table, o: Options, cast: Cast)
    requires WellFormed(t) && Normalize(t, o, cast).Ok?
    ensures Accepts(t, o, cast)
    ensures var kept := KeptOf(t, o);
      var src := Survivors(t, o, cast);
      && Increasing(src) && |src| <= |t.rows|
      && (forall p :: 0 <= p < |t.rows| ==> (p in src <==> Survives(kept, cast)(t.rows[p])))
    ensures Normalize(t, o, cast).value.rows == Expected(t, o, cast)
  {
    NormalizeFails(t, o, cast);
    NormalizeStaged(t, o, cast);
    SurvivingRows(t, o, cast);
  }

  /** `dropna` on the staged table keeps exactly the surviving rows. */
  lemma SurvivingRows(t: Table, o: Options, cast: Cast)
    requires WellFormed(t) && Accepts(t, o, cast)
    ensures DropNa(Staged(t, o, cast)).rows == Expected(t, o, cast)
  {
    StagedRows(t, o, cast);
    var ti := PositionOf(t.columns, TargetOf(t, o));
    var kept := KeptOf(t, o);
    var s := Staged(t, o, cast);
    forall i | 0 <= i < |t.rows| ensures Complete(s.rows[i]) == Survives(kept, cast)(t.rows[i]) {
      NormalRowComplete(t.rows[i], ti, kept, ValsOf(o), cast);
    }
    WhereCongruent(s.rows, Complete, t.rows, Survives(kept, cast));
    var out := DropNa(s);
    var src := Survivors(t, o, cast);
    forall m | 0 <= m < |src| ensures out.rows[m] == Expected(t, o, cast)[m] {
      assert out.rows[m] == s.rows[src[m]];
    }
  }

  /** Each surviving row's `target` is 1 exactly when its input target cell is a listed value, else 0. */
  lemma NormalizeTarget(t: Table, o: Options, cast: Cast)
    requires WellFormed(t) && Normalize(t, o, cast).Ok?
    ensures Accepts(t, o, cast)
    ensures |Normalize(t, o, cast).value.rows| == |Where(t.rows, Survives(KeptOf(t, o), cast))|
    ensures
      var out := Normalize(t, o, cast).value;
      var k := |KeptOf(t, o)|;
      var ti := PositionOf(t.columns, TargetOf(t, o));
      var src := Where(t.rows, Survives(KeptOf(t, o), cast));
      forall m :: 0 <= m < |out.rows| ==>
        && src[m] < |t.rows|
        && |out.rows[m].cells| == k + 1
        && (out.rows[m].cells[k] == Positive <==> t.rows[src[m]].cells[ti] in ValsOf(o))
        && (out.rows[m].cells[k] == Negative <==> t.rows[src[m]].cells[ti] !in ValsOf(o))
  {
    NormalizeRows(t, o, cast);
    var out := Normalize(t, o, cast).value;
    var kept := KeptOf(t, o);
    var ti := PositionOf(t.columns, TargetOf(t, o));
    var src := Survivors(t, o, cast);
    forall m | 0 <= m < |out.rows|
      ensures |out.rows[m].cells| == |kept| + 1
      ensures out.rows[m].cells[|kept|] == Label(t.rows[src[m]].cells[ti], ValsOf(o))
    {
      assert out.rows[m] == Expected(t, o, cast)[m] == NormalRow(t.rows[src[m]], ti, kept, ValsOf(o), cast);
    }
  }

  /**
   * When the source returns a table, its input was accepted and its rows
   * are the surviving input rows, each labelled by its target cell.
   */
  lemma NormalizeLabelled(t: Table, o: Options, cast: Cast)
    requires WellFormed(t)
    ensures Normalize(t, o, cast).Ok? ==>
      && Accepts(t, o, cast)
      && LabelledFrom(t, Normalize(t, o, cast).value, Survivors(t, o, cast), TargetOf(t, o), ValsOf(o))
  {
    if Normalize(t, o, cast).Ok? {
      NormalizeColumns(t, o, cast);
      NormalizeRows(t, o, cast);
      NormalizeTarget(t, o, cast);
    }
  }

  /**
   * Everything a caller with fixed arguments needs: besides the above, the
   * result has one column per input column less the dropped columns other
   * than the target (counted once each).
   */
  lemma NormalizeShape(t: Table, o: Options, cast: Cast)
    requires WellFormed(t)
    ensures Normalize(t, o, cast).Ok? ==>
      && Accepts(t, o, cast)
      && |Normalize(t, o, cast).value.columns| == |t.columns| - |set d | d in DropsOf(o) && d != TargetOf(t, o)|
      && LabelledFrom(t, Normalize(t, o, cast).value, Survivors(t, o, cast), TargetOf(t, o), ValsOf(o))
  {
    NormalizeLabelled(t, o, cast);
    if Normalize(t, o, cast).Ok? {
      NormalizeColumns(t, o, cast);
    }
  }

  /** Distinct dropped columns that are not the target each narrow the result by one. */
  lemma DropCount(t: Table, o: Options)
    requires Distinct(DropsOf(o))
    ensures HasTarget(t, o) && TargetOf(t, o) !in DropsOf(o) ==>
      |set d | d in DropsOf(o) && d != TargetOf(t, o)| == |DropsOf(o)|
  {
    if HasTarget(t, o) && TargetOf(t, o) !in DropsOf(o) {
      DistinctCard(DropsOf(o));
      assert (set d | d in DropsOf(o) && d != TargetOf(t, o)) == set k | k in DropsOf(o);
    }
  }

  /**
   * For a record naming its target and listing distinct other columns to
   * drop: on success both were present, the result is one column narrower
   * per dropped column, and it is labelled by the named target.
   */
  lemma NamedTarget(t: Table, o: Options, cast: Cast)
    requires WellFormed(t) && o.targetCol.Some?
    requires Distinct(DropsOf(o)) && o.targetCol.value !in DropsOf(o)
    ensures Normalize(t, o, cast).Ok? ==>
      && o.targetCol.value in t.columns
      && (forall d :: d in DropsOf(o) ==> d in t.columns)
      && |Normalize(t, o, cast).value.columns| == |t.columns| - |DropsOf(o)|
      && LabelledFrom(t, Normalize(t, o, cast).value, Survivors(t, o, cast), o.targetCol.value, ValsOf(o))
  {
    NormalizeShape(t, o, cast);
    DropCount(t, o);
  }

  /**
   * For a record leaving the target to default: on success the input has
   * columns, every dropped column was present, the result is labelled by the
   * last column, and it is one column narrower per dropped column when the
   * last column is not among them.
   */
  lemma LastTarget(t: Table, o: Options, cast: Cast)
    requires WellFormed(t) && o.targetCol.None? && Distinct(DropsOf(o))
    ensures Normalize(t, o, cast).Ok? ==>
      && |t.columns| >= 1
      && (forall d :: d in DropsOf(o) ==> d in t.columns)
      && (LastColumn(t) !in DropsOf(o) ==> |Normalize(t, o, cast).value.columns| == |t.columns| - |DropsOf(o)|)
      && LabelledFrom(t, Normalize(t, o, cast).value, Survivors(t, o, cast), LastColumn(t), ValsOf(o))
  {
    NormalizeShape(t, o, cast);
    DropCount(t, o);
  }

  /** Whatever the input, a successful result is a normalised table. */
  lemma NormalizeCanonical(t: Table, o: Options, cast: Cast)
    requires WellFormed(t) && Normalize(t, o, cast).Ok?
    ensures Canonical(Normalize(t, o, cast).value)
  {
    NormalizeRows(t, o, cast);
    NormalizeColumns(t, o, cast);
    var out := Normalize(t, o, cast).value;
    var kept := KeptOf(t, o);
    var ti := PositionOf(t.columns, TargetOf(t, o));
    var src := Survivors(t, o, cast);
    var k := |kept|;
    forall i | 0 <= i < |out.rows|
      ensures |out.rows[i].cells| == k + 1
      ensures forall j :: 0 <= j < k ==> out.rows[i].cells[j].Num?
      ensures out.rows[i].cells[k] == Positive || out.rows[i].cells[k] == Negative
    {
      var r := t.rows[src[i]];
      assert out.rows[i] == Expected(t, o, cast)[i] == NormalRow(r, ti, kept, ValsOf(o), cast);
      NormalRowCanonical(r, ti, kept, ValsOf(o), cast);
    }
  }

  /** A surviving row's normalised form holds numbers, then 0 or 1. */
  lemma NormalRowCanonical(r: Row, ti: nat, kept: seq<nat>, vals: seq<Cell>, cast: Cast)
    requires ti < |r.cells|
    requires forall m :: 0 <= m < |kept| ==> kept[m] < |r.cells| && Castable(r.cells[kept[m]], cast)
    requires Survives(kept, cast)(r)
    ensures var cells := NormalRow(r, ti, kept, vals, cast).cells;
      && |cells| == |kept| + 1
      && (forall j :: 0 <= j < |kept| ==> cells[j].Num?)
      && (cells[|kept|] == Positive || cells[|kept|] == Negative)
  {
    var cells := NormalRow(r, ti, kept, vals, cast).cells;
    forall j | 0 <= j < |kept| ensures cells[j].Num? {
      assert cells[j] == CastValue(r.cells[kept[j]], cast);
    }
  }

  /** A normalised table names `target` last and keeps every feature column, in order. */
  lemma CanonicalAccepted(t: Table, cast: Cast)
    requires Canonical(t)
    ensures TargetOf(t, Defaults) == TargetKey
    ensures PositionOf(t.columns, TargetKey) == |t.columns| - 1
    ensures KeptOf(t, Defaults) == Range(|t.columns| - 1)
    ensures Accepts(t, Defaults, cast)
  {
    var k := |t.columns| - 1;
    var keys := [TargetKey];
    assert [TargetOf(t, Defaults)] + DropsOf(Defaults) == keys;
    WhereAll(t.columns[..k], Unlisted(keys));
    assert !Unlisted(keys)(t.columns[k]);
    assert KeptOf(t, Defaults) == Where(t.columns[..k], Unlisted(keys));
  }

  /** A normalised row is its own normalised form under the defaults. */
  lemma CanonicalRowFixed(r: Row, k: nat, cast: Cast)
    requires |r.cells| == k + 1
    requires forall j :: 0 <= j < k ==> r.cells[j].Num?
    requires r.cells[k] == Positive || r.cells[k] == Negative
    ensures NormalRow(r, k, Range(k), [Positive], cast) == r
  {
    assert Select(r.cells, Range(k)) == r.cells[..k];
    assert CastAll(r.cells[..k], cast) == r.cells[..k];
    assert r.cells == r.cells[..k] + [r.cells[k]];
  }

  /** Before `dropna`, the default call has rebuilt a normalised table unchanged. */
  lemma StagedFixed(t: Table, cast: Cast)
    requires Canonical(t)
    ensures Accepts(t, Defaults, cast) && Staged(t, Defaults, cast) == t
  {
    CanonicalAccepted(t, cast);
    StagedColumnsFixed(t, cast);
    StagedRowsFixed(t, cast);
  }

  lemma StagedColumnsFixed(t: Table, cast: Cast)
    requires Canonical(t) && Accepts(t, Defaults, cast)
    ensures Staged(t, Defaults, cast).columns == t.columns
  {
    CanonicalAccepted(t, cast);
    StagedRows(t, Defaults, cast);
  }

  lemma StagedRowsFixed(t: Table, cast: Cast)
    requires Canonical(t) && Accepts(t, Defaults, cast)
    ensures Staged(t, Defaults, cast).rows == t.rows
  {
    CanonicalAccepted(t, cast);
    StagedRows(t, Defaults, cast);
    CanonicalRowsFixed(t, cast);
    assert ValsOf(Defaults) == [Positive];
    assert |Staged(t, Defaults, cast).rows| == |t.rows|;
  }

  lemma CanonicalRowsFixed(t: Table, cast: Cast)
    requires Canonical(t)
    ensures var k := |t.columns| - 1;
      forall i :: 0 <= i < |t.rows| ==> NormalRow(t.rows[i], k, Range(k), [Positive], cast) == t.rows[i]
  {
    var k := |t.columns| - 1;
    forall i | 0 <= i < |t.rows| ensures NormalRow(t.rows[i], k, Range(k), [Positive], cast) == t.rows[i] {
      CanonicalRowFixed(t.rows[i], k, cast);
    }
  }

  /** `dropna` leaves a table without missing cells as it is. */
  lemma DropNaComplete(t: Table)
    requires WellFormed(t)
    requires forall i :: 0 <= i < |t.rows| ==> Complete(t.rows[i])
    ensures DropNa(t) == t
  {
    WhereAll(t.rows, Complete);
    SelectRange(t.rows);
  }

  /** A normalised table is left as it is by the default call. */
  lemma CanonicalFixed(t: Table, cast: Cast)
    requires Canonical(t)
    ensures Normalize(t, Defaults, cast) == Ok(t)
  {
    StagedFixed(t, cast);
    NormalizeStaged(t, Defaults, cast);
    CanonicalComplete(t);
    DropNaComplete(t);
  }

  /** A normalised table has no missing cell. */
  lemma CanonicalComplete(t: Table)
    requires Canonical(t)
    ensures forall i :: 0 <= i < |t.rows| ==> Complete(t.rows[i])
  {
    forall i | 0 <= i < |t.rows| ensures Complete(t.rows[i]) {
      var cells := t.rows[i].cells;
      forall j | 0 <= j < |cells| ensures cells[j] != Missing {
        if j < |cells| - 1 {
          assert cells[j].Num?;
        }
      }
    }
  }

  /** Normalising a normalised table again with the defaults changes nothing. */
  lemma NormalizeIdempotent(t: Table, o: Options, cast: Cast)
    requires WellFormed(t) && Normalize(t, o, cast).Ok?
    ensures Normalize(Normalize(t, o, cast).value, Defaults, cast) == Normalize(t, o, cast)
  {
    NormalizeCanonical(t, o, cast);
    CanonicalFixed(Normalize(t, o, cast).value, cast);
  }
}
