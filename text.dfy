/**
 * The string operations the pipeline definitions use to build dataset and
 * node names: Python's `str.replace` and the decimal rendering of a factor
 * inside an f-string.
 */
module Text {

  predicate StartsWith(s: string, p: string) {
    |p| <= |s| && s[..|p|] == p
  }

  /**
   * `s.replace(pat, rep)`: every leftmost, non-overlapping occurrence of a
   * non-empty `pat`, scanning left to right, is replaced by `rep`.
   */
  function ReplaceAll(s: string, pat: string, rep: string): (r: string)
    requires |pat| > 0
    ensures StartsWith(s, pat) ==> StartsWith(r, rep)
    ensures !StartsWith(s, pat) && |s| > 0 ==> |r| > 0 && r[0] == s[0]
    decreases |s|
  {
    if |s| < |pat| then s
    else if s[..|pat|] == pat then rep + ReplaceAll(s[|pat|..], pat, rep)
    else [s[0]] + ReplaceAll(s[1..], pat, rep)
  }

  /** A string lacking one of the pattern's characters holds no occurrence and comes back unchanged. */
  lemma {:induction false} ReplaceAbsent(s: string, pat: string, rep: string, c: char)
    requires |pat| > 0 && c in pat && c !in s
    ensures ReplaceAll(s, pat, rep) == s
    decreases |s|
  {
    if |s| >= |pat| {
      assert c !in s[..|pat|];
      ReplaceAbsent(s[1..], pat, rep, c);
      assert [s[0]] + s[1..] == s;
    }
  }

  /**
   * Removing a prefix with `replace(prefix, '')` gives back the rest, when
   * the rest lacks one of the prefix's characters.
   */
  lemma StripPrefix(prefix: string, s: string, c: char)
    requires |prefix| > 0 && c in prefix && c !in s
    ensures ReplaceAll(prefix + s, prefix, "") == s
  {
    assert (prefix + s)[..|prefix|] == prefix;
    assert (prefix + s)[|prefix|..] == s;
    ReplaceAbsent(s, prefix, "", c);
  }

  /** The decimal digits of `n`, as an f-string renders an int. */
  function Decimal(n: nat): (s: string)
    ensures |s| >= 1
    ensures forall i :: 0 <= i < |s| ==> '0' <= s[i] <= '9'
    ensures n < 10 <==> |s| == 1
  {
    if n < 10 then [('0' as int + n) as char]
    else Decimal(n / 10) + Decimal(n % 10)
  }

  /** Distinct numbers are rendered differently. */
  lemma {:induction false} DecimalInjective(m: nat, n: nat)
    requires Decimal(m) == Decimal(n)
    ensures m == n
    decreases m
  {
    if m >= 10 {
      var s := Decimal(m);
      assert n >= 10;
      assert |Decimal(m % 10)| == 1 && |Decimal(n % 10)| == 1;
      assert s[|s| - 1..] == Decimal(m % 10) == Decimal(n % 10);
      assert s[..|s| - 1] == Decimal(m / 10) == Decimal(n / 10);
      DecimalInjective(m / 10, n / 10);
    } else {
      assert n < 10;
    }
  }

  /** Strings that agree once the same suffix is appended were equal. */
  lemma AppendInjective(a: string, b: string, suffix: string)
    requires a + suffix == b + suffix
    ensures a == b
  {
    assert |a| == |b|;
    assert a == (a + suffix)[..|a|];
    assert b == (b + suffix)[..|b|];
  }

  /** Appending the same string keeps distinct strings distinct. */
  lemma AppendDistinct(a: string, b: string, suffix: string)
    requires a != b
    ensures a + suffix != b + suffix
  {
    if a + suffix == b + suffix {
      AppendInjective(a, b, suffix);
    }
  }

  /** Strings that agree once the same prefix is prepended were equal. */
  lemma PrependInjective(prefix: string, a: string, b: string)
    requires prefix + a == prefix + b
    ensures a == b
  {
    assert a == (prefix + a)[|prefix|..];
    assert b == (prefix + b)[|prefix|..];
  }

  /** How an f-string renders an int: a minus sign for a negative one, then its digits. */
  function IntText(n: int): (s: string)
    ensures |s| >= 1 && '0' <= s[|s| - 1] <= '9'
    ensures forall i :: 0 <= i < |s| ==> s[i] == '-' || '0' <= s[i] <= '9'
    ensures s[0] == '-' <==> n < 0
  {
    if n < 0 then "-" + Decimal(-n) else Decimal(n)
  }

  /** Distinct ints are rendered differently. */
  lemma IntTextInjective(m: int, n: int)
    requires IntText(m) == IntText(n)
    ensures m == n
  {
    if m < 0 {
      PrependInjective("-", Decimal(-m), Decimal(-n));
      DecimalInjective(-m, -n);
    } else {
      DecimalInjective(m, n);
    }
  }

  /**
   * Two strings that each end in `sep` followed by a tail without `sep`
   * split there the same way: the tails agree, and so do the heads.
   */
  lemma SplitAtLast(a: string, x: string, b: string, y: string, sep: char)
    requires sep !in x && sep !in y
    requires a + [sep] + x == b + [sep] + y
    ensures a == b && x == y
  {
    var s := a + [sep] + x;
    TailAfterSplit(a, x, sep);
    TailAfterSplit(b, y, sep);
    assert x == s[|s| - |x|..] == y;
    assert a + [sep] + x == a + ([sep] + x);
    assert b + [sep] + y == b + ([sep] + y);
    AppendInjective(a, b, [sep] + x);
  }

  /** The number of characters after the last `sep` of `s` (all of them when there is none). */
  function TailAfter(s: string, sep: char): (n: nat)
    ensures n <= |s|
  {
    if s == [] || s[|s| - 1] == sep then 0 else 1 + TailAfter(s[..|s| - 1], sep)
  }

  lemma {:induction false} TailAfterSplit(a: string, x: string, sep: char)
    requires sep !in x
    ensures TailAfter(a + [sep] + x, sep) == |x|
    decreases |x|
  {
    if x != [] {
      var init := x[..|x| - 1];
      assert (a + [sep] + x)[..|a + [sep] + x| - 1] == a + [sep] + init;
      TailAfterSplit(a, init, sep);
    }
  }
}
