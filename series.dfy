/**
 * Time series as they travel through the summary: one real value per
 * time step, index-aligned with the shared time axis. Raw per-well
 * tables are row-major: one row per time step, one column per channel.
 */
module Series {

  /** A zero-initialised series of length `n` (`np.zeros`). */
  function Zeros(n: nat): (z: seq<real>)
    ensures |z| == n
    ensures forall i :: 0 <= i < n ==> z[i] == 0.0
  {
    seq(n, _ => 0.0)
  }

  /** Elementwise sum of two series of equal length (numpy `+`). */
  function Add(a: seq<real>, b: seq<real>): (c: seq<real>)
    requires |a| == |b|
    ensures |c| == |a|
    ensures forall i :: 0 <= i < |a| ==> c[i] == a[i] + b[i]
  {
    seq(|a|, i requires 0 <= i < |a| => a[i] + b[i])
  }

  /** True when every row of `table` has a column `k`. */
  ghost predicate HasColumn(table: seq<seq<real>>, k: nat)
  {
    forall i :: 0 <= i < |table| ==> k < |table[i]|
  }

  /** True when every row of `table` has at least `w` columns. */
  ghost predicate MinWidth(table: seq<seq<real>>, w: nat)
  {
    forall i :: 0 <= i < |table| ==> w <= |table[i]|
  }

  /** Column `k` of a row-major table: `[row[k] for row in table]`. */
  function Column(table: seq<seq<real>>, k: nat): (c: seq<real>)
    requires HasColumn(table, k)
    ensures |c| == |table|
    ensures forall i :: 0 <= i < |table| ==> c[i] == table[i][k]
  {
    seq(|table|, i requires 0 <= i < |table| => table[i][k])
  }

  /** The last element, `s[-1]`. */
  function Last(s: seq<real>): real
    requires |s| > 0
  {
    s[|s| - 1]
  }

  ghost predicate NonDecreasing(t: seq<real>)
  {
    forall i, j :: 0 <= i <= j < |t| ==> t[i] <= t[j]
  }

  ghost predicate NonNegative(s: seq<real>)
  {
    forall i :: 0 <= i < |s| ==> 0.0 <= s[i]
  }

  // Prefix facts stated once for any element type, so that proofs over
  // lists of perforations or wells do not compare those records.

  lemma WholePrefix<T>(xs: seq<T>)
    ensures xs[..|xs|] == xs
  {
  }

  lemma PrefixOfPrefix<T>(xs: seq<T>, k: nat)
    requires k < |xs|
    ensures xs[..k + 1][..k] == xs[..k]
  {
  }

  lemma PrefixOfAppend<T>(xs: seq<T>, x: T)
    ensures (xs + [x])[..|xs|] == xs
  {
  }
}
