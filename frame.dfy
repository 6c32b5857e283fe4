/**
 * A row-wise model of the pandas DataFrames the pipelines pass around:
 * an ordered list of column keys, and rows that keep their index label
 * and hold one cell per column.
 */
module Frame {

  /** A column key: pandas allows both names ('Class') and integers (0). */
  datatype Key = Name(name: string) | Pos(pos: int)

  /** A cell: a missing value (NaN), a number, or a piece of text. */
  datatype Cell = Missing | Num(value: real) | Text(text: string)

  /** A row keeps its index label (pandas keeps it through filtering). */
  datatype Row = Row(index: int, cells: seq<Cell>)

  datatype Table = Table(columns: seq<Key>, rows: seq<Row>)

  predicate Distinct<T(==)>(s: seq<T>) {
    forall i, j :: 0 <= i < j < |s| ==> s[i] != s[j]
  }

  /** Column keys are unique and every row has one cell per column. */
  predicate WellFormed(t: Table) {
    && Distinct(t.columns)
    && forall i :: 0 <= i < |t.rows| ==> |t.rows[i].cells| == |t.columns|
  }

  predicate Increasing(ps: seq<nat>) {
    forall i, j :: 0 <= i < j < |ps| ==> ps[i] < ps[j]
  }

  /** The positions 0, 1, ..., n - 1. */
  function Range(n: nat): (ps: seq<nat>)
    ensures |ps| == n && forall i :: 0 <= i < n ==> ps[i] == i
  {
    seq(n, i requires 0 <= i < n => i)
  }

  /** The positions a, a + 1, ..., b - 1. */
  function Interval(a: nat, b: nat): (ps: seq<nat>)
    requires a <= b
    ensures |ps| == b - a && forall i :: 0 <= i < b - a ==> ps[i] == a + i
  {
    seq(b - a, i requires 0 <= i < b - a => a + i)
  }

  /** The positions, in ascending order, of the elements of `s` that `keep` accepts. */
  function Where<T>(s: seq<T>, keep: T -> bool): (ps: seq<nat>)
    ensures |ps| <= |s|
    ensures Increasing(ps)
    ensures forall i :: 0 <= i < |ps| ==> ps[i] < |s| && keep(s[ps[i]])
    ensures forall j :: 0 <= j < |s| && keep(s[j]) ==> j in ps
    decreases |s|
  {
    if s == [] then []
    else
      var ps := Where(s[..|s| - 1], keep);
      if keep(s[|s| - 1]) then ps + [|s| - 1] else ps
  }

  /** The elements of `s` at the positions `ps`, in the order of `ps`. */
  function Select<T>(s: seq<T>, ps: seq<nat>): (r: seq<T>)
    requires forall i :: 0 <= i < |ps| ==> ps[i] < |s|
    ensures |r| == |ps|
  {
    seq(|ps|, i requires 0 <= i < |ps| => s[ps[i]])
  }

  /** The key filter of `DataFrame.drop(columns=removed)`. */
  function Unlisted(removed: seq<Key>): Key -> bool {
    k => k !in removed
  }

  /** The position of a key in a column list. */
  function PositionOf(cols: seq<Key>, k: Key): (j: nat)
    requires k in cols
    ensures j < |cols| && cols[j] == k
    ensures forall i :: 0 <= i < j ==> cols[i] != k
  {
    if cols[0] == k then 0 else 1 + PositionOf(cols[1..], k)
  }

  /** The last column of a table that has one (`data.columns[-1]`). */
  function LastColumn(t: Table): (k: Key)
    requires |t.columns| >= 1
    ensures k in t.columns
  {
    t.columns[|t.columns| - 1]
  }

  /** When every element is accepted, nothing is filtered out. */
  lemma {:induction false} WhereAll<T>(s: seq<T>, keep: T -> bool)
    requires forall j :: 0 <= j < |s| ==> keep(s[j])
    ensures Where(s, keep) == Range(|s|)
    decreases |s|
  {
    if s != [] {
      WhereAll(s[..|s| - 1], keep);
    }
  }

  /** When exactly the positions a..b-1 are accepted, those are the positions kept. */
  lemma {:induction false} WhereInterval<T>(s: seq<T>, keep: T -> bool, a: nat, b: nat)
    requires a <= b <= |s|
    requires forall j :: 0 <= j < |s| ==> (keep(s[j]) <==> a <= j < b)
    ensures Where(s, keep) == Interval(a, b)
    decreases |s|
  {
    if s == [] {
    } else if a < |s| && b == |s| {
      WhereInterval(s[..|s| - 1], keep, a, |s| - 1);
      IntervalSnoc(a, |s| - 1);
    } else if b < |s| {
      WhereInterval(s[..|s| - 1], keep, a, b);
    } else {
      WhereInterval(s[..|s| - 1], keep, |s| - 1, |s| - 1);
    }
  }

  lemma IntervalSnoc(a: nat, b: nat)
    requires a <= b
    ensures Interval(a, b) + [b] == Interval(a, b + 1)
  {
  }

  /** Filters that agree element by element keep the same positions. */
  lemma {:induction false} WhereCongruent<T, U>(a: seq<T>, f: T -> bool, b: seq<U>, g: U -> bool)
    requires |a| == |b|
    requires forall i :: 0 <= i < |a| ==> f(a[i]) == g(b[i])
    ensures Where(a, f) == Where(b, g)
    decreases |a|
  {
    if a != [] {
      WhereCongruent(a[..|a| - 1], f, b[..|b| - 1], g);
    }
  }

  /** Picking increasing positions out of distinct elements gives distinct elements. */
  lemma SelectDistinct<T>(s: seq<T>, ps: seq<nat>)
    requires Distinct(s) && Increasing(ps)
    requires forall i :: 0 <= i < |ps| ==> ps[i] < |s|
    ensures Distinct(Select(s, ps))
  {
  }

  /** Selecting every position in order gives the sequence back. */
  lemma SelectRange<T>(s: seq<T>)
    ensures Select(s, Range(|s|)) == s
  {
  }

  /** Distinct keys: there are as many keys in the set as in the list. */
  lemma {:induction false} DistinctCard(cols: seq<Key>)
    requires Distinct(cols)
    ensures |set k | k in cols| == |cols|
    decreases |cols|
  {
    if cols != [] {
      var init := cols[..|cols| - 1];
      var x := cols[|cols| - 1];
      DistinctCard(init);
      assert (set k | k in cols) == (set k | k in init) + {x} by {
        assert cols == init + [x];
      }
      assert x !in (set k | k in init);
    }
  }

  /**
   * The number of columns that survive dropping `removed` is the number of
   * distinct keys of the table that are not listed.
   */
  lemma {:induction false} KeptCount(cols: seq<Key>, removed: seq<Key>)
    requires Distinct(cols)
    ensures |Where(cols, Unlisted(removed))| == |set k | k in cols && k !in removed|
    decreases |cols|
  {
    if cols != [] {
      var init := cols[..|cols| - 1];
      var x := cols[|cols| - 1];
      KeptCount(init, removed);
      KeptSnoc(cols, removed);
      UnlistedCountSnoc(cols, removed);
    }
  }

  lemma KeptSnoc(cols: seq<Key>, removed: seq<Key>)
    requires |cols| > 0
    ensures |Where(cols, Unlisted(removed))| ==
      |Where(cols[..|cols| - 1], Unlisted(removed))| + (if cols[|cols| - 1] in removed then 0 else 1)
  {
  }

  lemma UnlistedCountSnoc(cols: seq<Key>, removed: seq<Key>)
    requires Distinct(cols) && |cols| > 0
    ensures |set k | k in cols && k !in removed| ==
      |set k | k in cols[..|cols| - 1] && k !in removed| + (if cols[|cols| - 1] in removed then 0 else 1)
  {
    var init := cols[..|cols| - 1];
    var x := cols[|cols| - 1];
    assert cols == init + [x];
    LastIsNew(cols);
    UnlistedSnoc(init, x, removed);
    if x !in removed {
      assert x !in set k | k in init && k !in removed;
    }
  }

  /** The last key of a list of distinct keys does not occur before it. */
  lemma LastIsNew(cols: seq<Key>)
    requires Distinct(cols) && |cols| > 0
    ensures cols[|cols| - 1] !in cols[..|cols| - 1]
  {
    var init := cols[..|cols| - 1];
    forall i | 0 <= i < |init| ensures init[i] != cols[|cols| - 1] {
      assert init[i] == cols[i];
    }
  }

  /** Appending one key adds it to the unlisted keys exactly when it is not listed. */
  lemma UnlistedSnoc(init: seq<Key>, x: Key, removed: seq<Key>)
    ensures (set k | k in init + [x] && k !in removed) ==
      (set k | k in init && k !in removed) + (if x in removed then {} else {x})
  {
  }
}
