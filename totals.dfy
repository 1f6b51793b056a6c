/** Sums and counts over table rows: what SQL's `SUM` and `COUNT(*)` return
    for a column, with the bookkeeping lemmas the ledger proofs use when a row
    is appended, replaced or removed. */
module Totals {
  import opened Seqs

  /** The sum of `f` over the rows of `s` (0 for no rows, like `COALESCE(SUM(…), 0)`). */
  function Sum<T>(s: seq<T>, f: T -> real): real
  {
    if s == [] then 0.0 else Sum(s[..|s| - 1], f) + f(s[|s| - 1])
  }

  /** The number of rows of `s` satisfying `p`. */
  function Count<T>(s: seq<T>, p: T -> bool): (r: nat)
    ensures r <= |s|
  {
    if s == [] then 0 else Count(s[..|s| - 1], p) + (if p(s[|s| - 1]) then 1 else 0)
  }

  lemma SumAppend<T>(s: seq<T>, x: T, f: T -> real)
    ensures Sum(s + [x], f) == Sum(s, f) + f(x)
  {
    assert (s + [x])[..|s|] == s;
  }

  lemma {:induction false} SumConcat<T>(a: seq<T>, b: seq<T>, f: T -> real)
    ensures Sum(a + b, f) == Sum(a, f) + Sum(b, f)
    decreases |b|
  {
    if b != [] {
      var b' := b[..|b| - 1];
      assert (a + b)[..|a + b| - 1] == a + b';
      SumConcat(a, b', f);
    } else {
      assert a + b == a;
    }
  }

  /** The sum around one row: the rows before it, the row, the rows after it. */
  lemma SumAround<T>(s: seq<T>, k: nat, f: T -> real)
    requires k < |s|
    ensures Sum(s, f) == Sum(s[..k], f) + f(s[k]) + Sum(s[k + 1..], f)
  {
    assert s[..k + 1] == s[..k] + [s[k]];
    assert s[..k + 1] + s[k + 1..] == s;
    SumConcat(s[..k + 1], s[k + 1..], f);
    SumAppend(s[..k], s[k], f);
  }

  /** Replacing one row changes the sum by the difference of the two rows. */
  lemma SumUpdate<T>(s: seq<T>, k: nat, x: T, f: T -> real)
    requires k < |s|
    ensures Sum(s[k := x], f) == Sum(s, f) - f(s[k]) + f(x)
  {
    var t := s[k := x];
    assert t[..k] == s[..k] && t[k + 1..] == s[k + 1..];
    SumAround(s, k, f);
    SumAround(t, k, f);
  }

  /** Removing one row takes that row out of the sum. */
  lemma SumRemoveAt<T>(s: seq<T>, k: nat, f: T -> real)
    requires k < |s|
    ensures Sum(RemoveAt(s, k), f) == Sum(s, f) - f(s[k])
  {
    assert RemoveAt(s, k) == s[..k] + s[k + 1..];
    SumAround(s, k, f);
    SumConcat(s[..k], s[k + 1..], f);
  }

  /** Shrinking row `k` by `d` (keeping a smaller row, or dropping a row
      worth exactly `d`) lowers the sum by `d`. */
  lemma SumShrinkAt<T>(s: seq<T>, k: nat, kept: bool, x: T, f: T -> real, d: real)
    requires k < |s|
    requires kept ==> f(x) == f(s[k]) - d
    requires !kept ==> f(s[k]) == d
    ensures Sum(if kept then s[k := x] else RemoveAt(s, k), f) == Sum(s, f) - d
  {
    if kept {
      SumUpdate(s, k, x, f);
    } else {
      SumRemoveAt(s, k, f);
    }
  }

  /** A sum of row-wise sums is the sum of the two sums. */
  lemma {:induction false} SumSplit<T>(s: seq<T>, f: T -> real, g: T -> real, h: T -> real)
    requires forall i :: 0 <= i < |s| ==> f(s[i]) == g(s[i]) + h(s[i])
    ensures Sum(s, f) == Sum(s, g) + Sum(s, h)
  {
    if s != [] {
      SumSplit(s[..|s| - 1], f, g, h);
    }
  }

  lemma {:induction false} SumNonNegative<T>(s: seq<T>, f: T -> real)
    requires forall i :: 0 <= i < |s| ==> f(s[i]) >= 0.0
    ensures Sum(s, f) >= 0.0
  {
    if s != [] {
      SumNonNegative(s[..|s| - 1], f);
    }
  }

  lemma {:induction false} SumNonPositive<T>(s: seq<T>, f: T -> real)
    requires forall i :: 0 <= i < |s| ==> f(s[i]) <= 0.0
    ensures Sum(s, f) <= 0.0
  {
    if s != [] {
      SumNonPositive(s[..|s| - 1], f);
    }
  }
}
