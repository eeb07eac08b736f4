/**
 * Tabular data as the two Python scripts see it: a pandas DataFrame is a
 * map from column name to its column of numeric cells, every column having
 * the same number of rows. Column order is not part of this model.
 */
module Table {

  type Column = seq<real>

  /** A data frame: column name to column. */
  type Frame = map<string, Column>

  /** A record (one row, or the dictionary of one patient): column name to value. */
  type Record = map<string, real>

  /** Every column of `df` has exactly `n` rows. */
  predicate Rectangular(df: Frame, n: nat)
  {
    forall c :: c in df ==> |df[c]| == n
  }

  /** No column name occurs twice in `names`. */
  predicate Distinct(names: seq<string>)
  {
    forall i, j :: 0 <= i < j < |names| ==> names[i] != names[j]
  }

  /** Row `r` of a frame as a record. */
  function Row(df: Frame, r: nat): (rec: Record)
    requires forall c :: c in df ==> r < |df[c]|
    ensures rec.Keys == df.Keys
    ensures forall c :: c in df ==> rec[c] == df[c][r]
  {
    map c | c in df :: df[c][r]
  }

  /** Elementwise product of two columns of the same length (pandas `a * b`). */
  function Times(a: Column, b: Column): (r: Column)
    requires |a| == |b|
    ensures |r| == |a|
    ensures forall i :: 0 <= i < |r| ==> r[i] == a[i] * b[i]
  {
    seq(|a|, i requires 0 <= i < |a| => a[i] * b[i])
  }

  /** a / b for 0 <= a and b > 0: non-negative, at most 1 when a <= b, 0 exactly for a == 0, 1 exactly for a == b. */
  lemma Ratio(a: real, b: real)
    requires b > 0.0 && 0.0 <= a
    ensures 0.0 <= a / b
    ensures a <= b ==> a / b <= 1.0
    ensures a / b == 0.0 <==> a == 0.0
    ensures a / b == 1.0 <==> a == b
  {
    var q := a / b;
    assert q * b == a;
  }
}
