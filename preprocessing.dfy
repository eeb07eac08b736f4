/**
 * The cleaning rules of the diabetes data preprocessing script: counting
 * medically implausible zeros, replacing them by the median of the column's
 * non-zero values, the completeness figure of the before/after chart, and
 * IQR outlier detection. Quartiles come from pandas and enter as parameters;
 * the median is specified over an insertion-sorted copy of the values.
 */
module Preprocessing {
  import opened Wrappers
  import opened Table

  /** The columns in which a zero is a missing measurement; Pregnancies and Outcome are not among them. */
  const ZeroColumns: seq<string> := ["Glucose", "BloodPressure", "SkinThickness", "Insulin", "BMI"]

  /** The five names are different, so each column is cleaned once. */
  lemma ZeroColumnsDistinct()
    ensures Distinct(ZeroColumns)
  {
  }

  predicate HasZeroColumns(df: Frame)
  {
    forall i :: 0 <= i < |ZeroColumns| ==> ZeroColumns[i] in df
  }

  /**
   * The index of the first of cols that df lacks, or |cols| when it has them
   * all: in a loop over cols, the column whose df[col] raises KeyError.
   */
  function FirstMissing(df: Frame, cols: seq<string>): (k: nat)
    ensures k <= |cols|
    ensures forall j :: 0 <= j < k ==> cols[j] in df
    ensures k < |cols| ==> cols[k] !in df
  {
    if cols == [] then 0
    else if cols[0] !in df then 0
    else 1 + FirstMissing(df, cols[1..])
  }

  /** The KeyError of a pass over the five columns of a frame that lacks one of them. */
  function MissingColumn(df: Frame): (e: Error)
    requires !HasZeroColumns(df)
    ensures e.KeyError? && e.key in ZeroColumns && e.key !in df
  {
    KeyError(ZeroColumns[FirstMissing(df, ZeroColumns)])
  }

  // ==================== Zero counting ====================

  /** (col == 0).sum() */
  function CountZeros(col: Column): (k: nat)
    ensures k <= |col|
    ensures k == 0 <==> forall i :: 0 <= i < |col| ==> col[i] != 0.0
  {
    if col == [] then 0
    else
      var front := col[..|col| - 1];
      assert forall i :: 0 <= i < |front| ==> front[i] == col[i];
      CountZeros(front) + (if col[|col| - 1] == 0.0 then 1 else 0)
  }

  /** Counting one more row of a column adds one exactly when that row is zero. */
  lemma CountZerosPrefix(col: Column, r: nat)
    requires r < |col|
    ensures CountZeros(col[..r + 1]) == CountZeros(col[..r]) + (if col[r] == 0.0 then 1 else 0)
  {
    assert col[..r + 1][..r] == col[..r];
  }

  /** count / len * 100 */
  function Percentage(count: nat, n: nat): (p: real)
    requires n > 0
    ensures 0.0 <= p
    ensures count <= n ==> p <= 100.0
    ensures p == 0.0 <==> count == 0
    ensures p == 100.0 <==> count == n
  {
    Ratio(count as real, n as real);
    count as real / n as real * 100.0
  }

  /** The per-column record of analyze_data_quality. */
  datatype ZeroStat = ZeroStat(count: nat, percentage: real)

  /**
   * analyze_data_quality's zero statistics: for each of the five columns, the
   * number of zeros and their share of the rows, in percent. The first of the
   * five columns the frame lacks raises KeyError.
   */
  method AnalyzeDataQuality(df: Frame, n: nat) returns (res: Result<map<string, ZeroStat>, Error>)
    requires Rectangular(df, n) && n > 0
    ensures !HasZeroColumns(df) ==> res == Failure(MissingColumn(df))
    ensures HasZeroColumns(df) ==> res.Success? && res.value.Keys == set c | c in ZeroColumns
    ensures res.Success? ==> forall c :: c in res.value ==>
              c in df && res.value[c].count == CountZeros(df[c])
              && res.value[c].percentage == Percentage(CountZeros(df[c]), n)
              && 0.0 <= res.value[c].percentage <= 100.0
  {
    var stats: map<string, ZeroStat> := map[];
    var i := 0;
    while i < |ZeroColumns|
      invariant 0 <= i <= |ZeroColumns|
      invariant forall j :: 0 <= j < i ==> ZeroColumns[j] in df
      invariant stats.Keys == set j | 0 <= j < i :: ZeroColumns[j]
      invariant forall c :: c in stats ==>
                  c in df && stats[c].count == CountZeros(df[c])
                  && stats[c].percentage == Percentage(CountZeros(df[c]), n)
    {
      var name := ZeroColumns[i];
      if name !in df {
        return Failure(KeyError(name));
      }
      var zeroCount := CountZeros(df[name]);
      stats := stats[name := ZeroStat(zeroCount, Percentage(zeroCount, n))];
      i := i + 1;
    }
    assert (set j | 0 <= j < |ZeroColumns| :: ZeroColumns[j]) == set c | c in ZeroColumns;
    return Success(stats);
  }

  // ==================== Median ====================

  predicate Sorted(s: seq<real>)
  {
    forall i, j :: 0 <= i <= j < |s| ==> s[i] <= s[j]
  }

  /** Putting a lower bound of a sorted sequence in front keeps it sorted. */
  lemma SortedCons(a: real, t: seq<real>)
    requires Sorted(t)
    requires forall i :: 0 <= i < |t| ==> a <= t[i]
    ensures Sorted([a] + t)
  {
    var r := [a] + t;
    forall i, j | 0 <= i <= j < |r| ensures r[i] <= r[j] {
      if i > 0 {
        assert r[i] == t[i - 1] && r[j] == t[j - 1];
      }
    }
  }

  /** A lower bound of x and of the values of t bounds every value drawn from them. */
  lemma LowerBoundKept(a: real, x: real, t: seq<real>, r: seq<real>)
    requires a <= x
    requires forall i :: 0 <= i < |t| ==> a <= t[i]
    requires forall i :: 0 <= i < |r| ==> r[i] == x || r[i] in t
    ensures forall i :: 0 <= i < |r| ==> a <= r[i]
  {
  }

  /** Inserts x into a sorted sequence. */
  function Insert(x: real, s: seq<real>): (r: seq<real>)
    requires Sorted(s)
    ensures Sorted(r)
    ensures multiset(r) == multiset(s) + multiset{x}
    ensures forall i :: 0 <= i < |r| ==> r[i] == x || r[i] in s
  {
    if s == [] then [x]
    else if x <= s[0] then
      SortedCons(x, s);
      [x] + s
    else
      var tail := Insert(x, s[1..]);
      assert s == [s[0]] + s[1..];
      LowerBoundKept(s[0], x, s[1..], tail);
      SortedCons(s[0], tail);
      [s[0]] + tail
  }

  /** An ascending copy of s. */
  function SortAscending(s: seq<real>): (r: seq<real>)
    ensures Sorted(r)
    ensures multiset(r) == multiset(s)
  {
    if s == [] then []
    else
      assert s == [s[0]] + s[1..];
      Insert(s[0], SortAscending(s[1..]))
  }

  /**
   * Series.median(): the middle value of the sorted values, or the mean of the
   * two middle values for an even count; None (pandas' NaN) for no values.
   */
  function Median(s: seq<real>): (m: Option<real>)
    ensures m == None <==> s == []
  {
    if s == [] then None
    else
      var t := SortAscending(s);
      var k := |t| / 2;
      Some(if |t| % 2 == 1 then t[k] else (t[k - 1] + t[k]) / 2.0)
  }

  /** Every value of the sorted copy is a value of s. */
  lemma SortedValuesComeFromInput(s: seq<real>, i: nat)
    requires i < |SortAscending(s)|
    ensures SortAscending(s)[i] in s
  {
    var t := SortAscending(s);
    assert t[i] in multiset(t);
  }

  /** The median lies between any lower and upper bound of the values. */
  lemma MedianWithinBounds(s: seq<real>, lo: real, hi: real)
    requires s != []
    requires forall i :: 0 <= i < |s| ==> lo <= s[i] <= hi
    ensures lo <= Median(s).value <= hi
  {
    var t := SortAscending(s);
    var k := |t| / 2;
    SortedValuesComeFromInput(s, k);
    if |t| % 2 == 0 {
      SortedValuesComeFromInput(s, k - 1);
    }
  }

  /** The median of positive values is positive. */
  lemma MedianOfPositivesIsPositive(s: seq<real>)
    requires s != []
    requires forall i :: 0 <= i < |s| ==> s[i] > 0.0
    ensures Median(s).value > 0.0
  {
    var t := SortAscending(s);
    var k := |t| / 2;
    SortedValuesComeFromInput(s, k);
    if |t| % 2 == 0 {
      SortedValuesComeFromInput(s, k - 1);
    }
  }

  // ==================== Zero imputation ====================

  /** df[df[col] != 0][col]: the non-zero values, in order. */
  function NonZero(col: Column): (r: seq<real>)
    ensures |r| + CountZeros(col) == |col|
    ensures forall i :: 0 <= i < |r| ==> r[i] != 0.0 && r[i] in col
  {
    if col == [] then []
    else
      var front := col[..|col| - 1];
      var last := col[|col| - 1];
      var rest := NonZero(front);
      assert forall y :: y in front ==> y in col;
      rest + (if last != 0.0 then [last] else [])
  }

  /** The non-zero values are exactly the column's values with every zero taken out. */
  lemma {:induction false} NonZeroIsColumnWithoutZeros(col: Column)
    ensures multiset(NonZero(col)) == multiset(col)[0.0 := 0]
  {
    if col != [] {
      var front := col[..|col| - 1];
      var last := col[|col| - 1];
      NonZeroIsColumnWithoutZeros(front);
      assert col == front + [last];
    }
  }

  /**
   * A column handle_zero_values can clean without producing NaN: if it has a
   * zero, it also has a non-zero value whose median can replace it.
   */
  predicate Imputable(col: Column)
  {
    CountZeros(col) > 0 ==> NonZero(col) != []
  }

  /** col with every zero replaced by v; the other rows unchanged. */
  function ZerosReplaced(col: Column, v: real): (r: Column)
    ensures |r| == |col|
    ensures forall i :: 0 <= i < |col| ==> r[i] == if col[i] == 0.0 then v else col[i]
  {
    seq(|col|, i requires 0 <= i < |col| => if col[i] == 0.0 then v else col[i])
  }

  /** The cleaned column: each zero replaced by the median of the non-zero values. */
  function Imputed(col: Column): (r: Column)
    requires Imputable(col)
    ensures |r| == |col|
    ensures forall i :: 0 <= i < |col| && col[i] != 0.0 ==> r[i] == col[i]
    ensures forall i :: 0 <= i < |col| && col[i] == 0.0 ==> r[i] == Median(NonZero(col)).value
  {
    match Median(NonZero(col))
    case None => col
    case Some(m) => ZerosReplaced(col, m)
  }

  /** The frame handle_zero_values produces: the five columns imputed, every other column as it was. */
  function CleanedFrame(df: Frame): (r: Frame)
    requires forall i :: 0 <= i < |ZeroColumns| ==> ZeroColumns[i] in df && Imputable(df[ZeroColumns[i]])
    ensures r.Keys == df.Keys
  {
    map c | c in df :: if c in ZeroColumns then Imputed(df[c]) else df[c]
  }

  /** Cleaning keeps the row count. */
  lemma CleanedFrameRectangular(df: Frame, n: nat)
    requires Rectangular(df, n)
    requires forall i :: 0 <= i < |ZeroColumns| ==> ZeroColumns[i] in df && Imputable(df[ZeroColumns[i]])
    ensures Rectangular(CleanedFrame(df), n)
  {
  }

  /**
   * For non-negative data with at least one non-zero value, no zero is left
   * after imputation (the median of positive values is positive).
   */
  lemma ImputedHasNoZeros(col: Column)
    requires forall i :: 0 <= i < |col| ==> col[i] >= 0.0
    requires NonZero(col) != []
    ensures CountZeros(Imputed(col)) == 0
  {
    var nz := NonZero(col);
    forall i | 0 <= i < |nz| ensures nz[i] > 0.0 {
      var y := nz[i];
      assert y in col;
    }
    MedianOfPositivesIsPositive(nz);
  }

  /**
   * Without non-negativity the claim fails: the non-zero values -1 and 1 have
   * median 0, so the zero stays.
   */
  lemma NegativeValuesCanLeaveAZero()
    ensures CountZeros(Imputed([-1.0, 1.0, 0.0])) == 1
  {
    ImputedExample();
    CountZerosExample();
  }

  lemma ImputedExample()
    ensures Imputable([-1.0, 1.0, 0.0]) && Imputed([-1.0, 1.0, 0.0]) == [-1.0, 1.0, 0.0]
  {
    NonZeroOfExample();
    MedianOfExample();
  }

  lemma CountZerosExample()
    ensures CountZeros([-1.0, 1.0, 0.0]) == 1
  {
    assert [-1.0, 1.0, 0.0][..2] == [-1.0, 1.0] && [-1.0, 1.0][..1] == [-1.0] && [-1.0][..0] == [];
    assert CountZeros([-1.0]) == 0;
    assert CountZeros([-1.0, 1.0]) == 0;
  }

  lemma NonZeroOfExample()
    ensures NonZero([-1.0, 1.0, 0.0]) == [-1.0, 1.0]
  {
    assert [-1.0, 1.0, 0.0][..2] == [-1.0, 1.0] && [-1.0, 1.0][..1] == [-1.0] && [-1.0][..0] == [];
    assert NonZero([-1.0]) == [-1.0];
    assert NonZero([-1.0, 1.0]) == [-1.0, 1.0];
  }

  lemma MedianOfExample()
    ensures Median([-1.0, 1.0]) == Some(0.0)
  {
    assert [-1.0, 1.0][1..] == [1.0] && [1.0][1..] == [];
    assert SortAscending([1.0]) == Insert(1.0, []) == [1.0];
    assert Insert(-1.0, [1.0]) == [-1.0, 1.0];
    assert SortAscending([-1.0, 1.0]) == [-1.0, 1.0];
  }

  /**
   * df_cleaned.loc[zero_mask, col] = median_value on one column, and
   * zero_mask.sum(): the imputed column and the number of zeros replaced.
   */
  method ReplaceZeros(column: Column, median: Option<real>) returns (written: Column, count: nat)
    requires CountZeros(column) > 0 ==> median.Some?
    ensures written == if median.Some? then ZerosReplaced(column, median.value) else column
    ensures count == CountZeros(column)
  {
    written := column;
    count := 0;
    var r := 0;
    while r < |column|
      invariant 0 <= r <= |column| && |written| == |column|
      invariant forall k :: 0 <= k < r && column[k] == 0.0 ==> median.Some? && written[k] == median.value
      invariant forall k :: 0 <= k < |column| && (k >= r || column[k] != 0.0) ==> written[k] == column[k]
      invariant count == CountZeros(column[..r])
    {
      CountZerosPrefix(column, r);
      if column[r] == 0.0 {
        written := written[r := median.value];
        count := count + 1;
      }
      r := r + 1;
    }
    assert column[..r] == column;
    if median.Some? {
      var replaced := ZerosReplaced(column, median.value);
      forall k | 0 <= k < |column| ensures written[k] == replaced[k] {
      }
    }
  }

  /** The copy of df with the columns cols cleaned and every other column as it was. */
  ghost function CleanedOn(df: Frame, cols: seq<string>): Frame
    requires forall c :: c in cols ==> c in df && Imputable(df[c])
  {
    map c | c in df :: if c in cols then Imputed(df[c]) else df[c]
  }

  /** Cleaning one more column x is one update of the copy. */
  lemma CleanedOnAppend(df: Frame, cols: seq<string>, x: string)
    requires forall c :: c in cols + [x] ==> c in df && Imputable(df[c])
    requires x !in cols
    ensures CleanedOn(df, cols)[x] == df[x]
    ensures CleanedOn(df, cols + [x]) == CleanedOn(df, cols)[x := Imputed(df[x])]
  {
  }

  /** The entries of values for the columns cols: what a column-by-column report holds once cols are done. */
  function Report<V>(values: map<string, V>, cols: seq<string>): (r: map<string, V>)
    requires forall c :: c in cols ==> c in values
    ensures forall c :: c in r ==> c in cols && r[c] == values[c]
  {
    map c | c in cols :: values[c]
  }

  /** Reporting one more column x is one update of the report. */
  lemma ReportAppend<V>(values: map<string, V>, cols: seq<string>, x: string)
    requires forall c :: c in cols + [x] ==> c in values
    ensures Report(values, cols + [x]) == Report(values, cols)[x := values[x]]
  {
    var longer := Report(values, cols + [x]);
    var updated := Report(values, cols)[x := values[x]];
    assert longer.Keys == updated.Keys;
  }

  /** The median of the non-zero values of every column. */
  function Medians(df: Frame): (r: map<string, Option<real>>)
    ensures r.Keys == df.Keys
    ensures forall c :: c in r ==> r[c] == Median(NonZero(df[c]))
  {
    map c | c in df :: Median(NonZero(df[c]))
  }

  /** The number of zeros of every column. */
  function ZeroCounts(df: Frame): (r: map<string, nat>)
    ensures r.Keys == df.Keys
    ensures forall c :: c in r ==> r[c] == CountZeros(df[c])
  {
    map c | c in df :: CountZeros(df[c])
  }

  /** The first i + 1 of distinct names are the first i and then a name not among them. */
  lemma PrefixSnoc(cols: seq<string>, i: nat)
    requires Distinct(cols) && i < |cols|
    ensures cols[..i + 1] == cols[..i] + [cols[i]]
    ensures cols[i] !in cols[..i]
  {
    assert cols[..i + 1] == cols[..i] + [cols[i]];
  }

  /**
   * The state of the cleaning loop after the first i columns of cols: the
   * copy has those columns cleaned and the reports hold their entries.
   */
  ghost predicate CleanedUpTo(df: Frame, cols: seq<string>, i: nat,
                              medians: map<string, Option<real>>, zeros: map<string, nat>,
                              cleaned: Frame, values: map<string, Option<real>>, counts: map<string, nat>)
  {
    && i <= |cols|
    && (forall c :: c in cols[..i] ==> c in df && Imputable(df[c]) && c in medians && c in zeros)
    && cleaned == CleanedOn(df, cols[..i])
    && values == Report(medians, cols[..i])
    && counts == Report(zeros, cols[..i])
  }

  /** One round of the cleaning loop: cleans and reports the column cols[i]. */
  method CleanColumn(df: Frame, cols: seq<string>, i: nat, cleaned: Frame,
                     values: map<string, Option<real>>, counts: map<string, nat>,
                     ghost medians: map<string, Option<real>>, ghost zeros: map<string, nat>)
    returns (cleaned': Frame, values': map<string, Option<real>>, counts': map<string, nat>)
    requires Distinct(cols) && i < |cols|
    requires cols[i] in df && Imputable(df[cols[i]]) && cols[i] in medians && cols[i] in zeros
    requires medians[cols[i]] == Median(NonZero(df[cols[i]])) && zeros[cols[i]] == CountZeros(df[cols[i]])
    requires CleanedUpTo(df, cols, i, medians, zeros, cleaned, values, counts)
    ensures CleanedUpTo(df, cols, i + 1, medians, zeros, cleaned', values', counts')
  {
    var name := cols[i];
    PrefixSnoc(cols, i);
    CleanedOnAppend(df, cols[..i], name);
    ReportAppend(medians, cols[..i], name);
    ReportAppend(zeros, cols[..i], name);
    var column := cleaned[name];
    var median := Median(NonZero(column));
    values' := values[name := median];
    var written, count := ReplaceZeros(column, median);
    cleaned' := cleaned[name := written];
    counts' := counts[name := count];
  }

  /**
   * The loop of handle_zero_values over the columns cols: each column is
   * cleaned on the copy, and its median and zero count are reported.
   */
  method CleanColumns(df: Frame, cols: seq<string>, ghost medians: map<string, Option<real>>, ghost zeros: map<string, nat>)
    returns (cleaned: Frame, values: map<string, Option<real>>, counts: map<string, nat>)
    requires Distinct(cols)
    requires forall j :: 0 <= j < |cols| ==> cols[j] in df && Imputable(df[cols[j]])
    requires medians.Keys == zeros.Keys == df.Keys
    requires forall c :: c in medians ==> medians[c] == Median(NonZero(df[c]))
    requires forall c :: c in zeros ==> zeros[c] == CountZeros(df[c])
    ensures CleanedUpTo(df, cols, |cols|, medians, zeros, cleaned, values, counts)
  {
    cleaned := df;
    values := map[];
    counts := map[];
    var i := 0;
    assert cols[..0] == [];
    while i < |cols|
      invariant CleanedUpTo(df, cols, i, medians, zeros, cleaned, values, counts)
    {
      cleaned, values, counts := CleanColumn(df, cols, i, cleaned, values, counts, medians, zeros);
      i := i + 1;
    }
  }

  /** What the rounds for all of cols add up to. */
  lemma CleanedAll(df: Frame, cols: seq<string>, medians: map<string, Option<real>>, zeros: map<string, nat>,
                   cleaned: Frame, values: map<string, Option<real>>, counts: map<string, nat>)
    requires forall c :: c in cols ==> c in df && Imputable(df[c])
    requires CleanedUpTo(df, cols, |cols|, medians, zeros, cleaned, values, counts)
    ensures cleaned == map c | c in df :: if c in cols then Imputed(df[c]) else df[c]
    ensures values.Keys == counts.Keys == set c | c in cols
    ensures forall c :: c in values ==> values[c] == medians[c] && counts[c] == zeros[c]
  {
    assert cols[..|cols|] == cols;
  }

  /** What handle_zero_values hands back: the cleaned copy, the median used per column, and the zeros replaced per column. */
  datatype Cleaning = Cleaning(cleaned: Frame, replacementValues: map<string, Option<real>>, replacedCounts: map<string, nat>)

  /**
   * handle_zero_values on a copy of df: for each of the five columns, the
   * median of its non-zero values replaces each zero; reports the median used
   * and how many zeros were replaced. When the loop reaches a column the
   * frame lacks it raises KeyError, and the partly cleaned copy is lost, so
   * the outcome is that KeyError whatever the earlier rounds did.
   */
  method HandleZeroValues(df: Frame, n: nat) returns (res: Result<Cleaning, Error>)
    requires Rectangular(df, n)
    requires HasZeroColumns(df) ==> forall i :: 0 <= i < |ZeroColumns| ==> Imputable(df[ZeroColumns[i]])
    ensures !HasZeroColumns(df) ==> res == Failure(MissingColumn(df))
    ensures HasZeroColumns(df) ==>
              && res.Success?
              && res.value.cleaned == CleanedFrame(df)
              && Rectangular(res.value.cleaned, n)
              && res.value.replacementValues.Keys == res.value.replacedCounts.Keys == set c | c in ZeroColumns
              && forall c :: c in res.value.replacementValues ==>
                   c in df && res.value.replacementValues[c] == Median(NonZero(df[c]))
                   && res.value.replacedCounts[c] == CountZeros(df[c])
  {
    var k := FirstMissing(df, ZeroColumns);
    if k < |ZeroColumns| {
      return Failure(KeyError(ZeroColumns[k]));
    }
    var cleaned, replacementValues, replacedCounts := CleanZeroColumns(df, n);
    return Success(Cleaning(cleaned, replacementValues, replacedCounts));
  }

  /** The loop of handle_zero_values over the five columns, on a frame that has them all. */
  method CleanZeroColumns(df: Frame, n: nat)
    returns (cleaned: Frame, replacementValues: map<string, Option<real>>, replacedCounts: map<string, nat>)
    requires Rectangular(df, n) && HasZeroColumns(df)
    requires forall i :: 0 <= i < |ZeroColumns| ==> Imputable(df[ZeroColumns[i]])
    ensures cleaned == CleanedFrame(df)
    ensures Rectangular(cleaned, n)
    ensures replacementValues.Keys == replacedCounts.Keys == set c | c in ZeroColumns
    ensures forall c :: c in replacementValues ==>
              c in df && replacementValues[c] == Median(NonZero(df[c])) && replacedCounts[c] == CountZeros(df[c])
  {
    ZeroColumnsDistinct();
    cleaned, replacementValues, replacedCounts := CleanColumns(df, ZeroColumns, Medians(df), ZeroCounts(df));
    CleanedAll(df, ZeroColumns, Medians(df), ZeroCounts(df), cleaned, replacementValues, replacedCounts);
    CleanedFrameRectangular(df, n);
  }

  // ==================== Completeness ====================

  /** Some of the five columns is zero in row r. */
  predicate RowHasZero(df: Frame, r: nat)
    requires HasZeroColumns(df) && forall i :: 0 <= i < |ZeroColumns| ==> r < |df[ZeroColumns[i]]|
  {
    exists i :: 0 <= i < |ZeroColumns| && df[ZeroColumns[i]][r] == 0.0
  }

  /** (df[zero_columns] == 0).any(axis=1).sum() over the first k rows. */
  function RowsWithZero(df: Frame, n: nat, k: nat): (count: nat)
    requires Rectangular(df, n) && HasZeroColumns(df) && k <= n
    ensures count <= k
  {
    if k == 0 then 0 else RowsWithZero(df, n, k - 1) + (if RowHasZero(df, k - 1) then 1 else 0)
  }

  /**
   * The pre-cleaning completeness: 100 minus the percentage of rows with a
   * zero in any of the five columns. Selecting the five columns raises
   * KeyError when the frame lacks one; on an empty frame the division gives
   * NaN, here None.
   */
  function Completeness(df: Frame, n: nat): (c: Result<Option<real>, Error>)
    requires Rectangular(df, n)
    ensures !HasZeroColumns(df) ==> c == Failure(MissingColumn(df))
    ensures c.Success? ==> HasZeroColumns(df)
    ensures HasZeroColumns(df) ==> c.Success? && (c.value.None? <==> n == 0)
    ensures c.Success? && c.value.Some? ==>
              && 0.0 <= c.value.value <= 100.0
              && (c.value.value == 100.0 <==> RowsWithZero(df, n, n) == 0)
              && (c.value.value == 0.0 <==> RowsWithZero(df, n, n) == n)
  {
    if !HasZeroColumns(df) then Failure(MissingColumn(df))
    else if n == 0 then Success(None)
    else Success(Some(100.0 - Percentage(RowsWithZero(df, n, n), n)))
  }

  /** No row has a zero when none of the five columns has one. */
  lemma {:induction false} NoZeroRows(df: Frame, n: nat, k: nat)
    requires Rectangular(df, n) && HasZeroColumns(df) && k <= n
    requires forall i :: 0 <= i < |ZeroColumns| ==> CountZeros(df[ZeroColumns[i]]) == 0
    ensures RowsWithZero(df, n, k) == 0
  {
    if k > 0 {
      NoZeroRows(df, n, k - 1);
      assert !RowHasZero(df, k - 1);
    }
  }

  /**
   * The after-cleaning bar of the chart: for non-negative data whose five
   * columns each hold a non-zero value, cleaning leaves no zero and the
   * cleaned frame is 100% complete.
   */
  lemma CleanedFrameIsComplete(df: Frame, n: nat)
    requires Rectangular(df, n) && HasZeroColumns(df) && n > 0
    requires forall i :: 0 <= i < |ZeroColumns| ==> NonZero(df[ZeroColumns[i]]) != []
    requires forall i, r :: 0 <= i < |ZeroColumns| && 0 <= r < n ==> df[ZeroColumns[i]][r] >= 0.0
    ensures HasZeroColumns(CleanedFrame(df)) && Rectangular(CleanedFrame(df), n)
    ensures forall i :: 0 <= i < |ZeroColumns| ==> CountZeros(CleanedFrame(df)[ZeroColumns[i]]) == 0
    ensures Completeness(CleanedFrame(df), n) == Success(Some(100.0))
  {
    var cleaned := CleanedFrame(df);
    forall i | 0 <= i < |ZeroColumns|
      ensures CountZeros(cleaned[ZeroColumns[i]]) == 0
    {
      ImputedHasNoZeros(df[ZeroColumns[i]]);
    }
    NoZeroRows(cleaned, n, n);
  }

  // ==================== Outliers ====================

  /** The IQR fences: Q1 - 1.5 IQR and Q3 + 1.5 IQR. */
  function IqrBounds(q1: real, q3: real): (b: (real, real))
    ensures q1 <= q3 ==> b.0 <= q1 && q3 <= b.1
    ensures b.1 - b.0 == 4.0 * (q3 - q1)
    ensures b.0 == q1 - 1.5 * (q3 - q1) && b.1 == q3 + 1.5 * (q3 - q1)
  {
    var iqr := q3 - q1;
    (q1 - 1.5 * iqr, q3 + 1.5 * iqr)
  }

  /** A value strictly outside the fences. */
  predicate IsOutlier(v: real, lower: real, upper: real)
  {
    v < lower || v > upper
  }

  /** A value between the quartiles is never an outlier. */
  lemma InterquartileValueIsNotOutlier(q1: real, q3: real, v: real)
    requires q1 <= v <= q3
    ensures !IsOutlier(v, IqrBounds(q1, q3).0, IqrBounds(q1, q3).1)
  {
  }

  /** The number of rows of col outside the fences. */
  function OutlierCount(col: Column, lower: real, upper: real): (k: nat)
    ensures k <= |col|
    ensures k == 0 <==> forall i :: 0 <= i < |col| ==> !IsOutlier(col[i], lower, upper)
  {
    if col == [] then 0
    else
      var front := col[..|col| - 1];
      assert forall i :: 0 <= i < |front| ==> front[i] == col[i];
      OutlierCount(front, lower, upper) + (if IsOutlier(col[|col| - 1], lower, upper) then 1 else 0)
  }

  /** A column whose values all lie between its quartiles has no outliers. */
  lemma {:induction false} NoOutliersInsideQuartiles(col: Column, q1: real, q3: real)
    requires forall i :: 0 <= i < |col| ==> q1 <= col[i] <= q3
    ensures OutlierCount(col, IqrBounds(q1, q3).0, IqrBounds(q1, q3).1) == 0
  {
    forall i | 0 <= i < |col|
      ensures !IsOutlier(col[i], IqrBounds(q1, q3).0, IqrBounds(q1, q3).1)
    {
      InterquartileValueIsNotOutlier(q1, q3, col[i]);
    }
  }

  /** The per-column entry of outlier_report. */
  datatype OutlierReport = OutlierReport(count: nat, percentage: real, lowerBound: real, upperBound: real)

  /** One iteration of detect_outliers, for a column with quartiles q1 and q3. */
  function ColumnReport(col: Column, q1: real, q3: real): (rep: OutlierReport)
    requires |col| > 0
    ensures rep.count <= |col| && 0.0 <= rep.percentage <= 100.0
    ensures (rep.lowerBound, rep.upperBound) == IqrBounds(q1, q3)
    ensures rep.count == OutlierCount(col, rep.lowerBound, rep.upperBound)
  {
    var (lower, upper) := IqrBounds(q1, q3);
    var count := OutlierCount(col, lower, upper);
    OutlierReport(count, Percentage(count, |col|), lower, upper)
  }

  /** The exceptions the preprocessing steps can raise. */
  datatype Error =
    | KeyError(key: string)  // df[col] for a column the frame lacks
    | ValueError             // numeric_columns.remove('Outcome') without an Outcome column
    | ZeroDivisionError      // outlier_count / len(df) on an empty frame

  /**
   * detect_outliers: for every column except Outcome, the IQR fences from the
   * column's quartiles (quartiles[c], computed by pandas) and the number and
   * share of rows outside them.
   */
  method DetectOutliers(df: Frame, n: nat, quartiles: map<string, (real, real)>)
    returns (res: Result<map<string, OutlierReport>, Error>)
    requires Rectangular(df, n)
    requires forall c :: c in df && c != "Outcome" ==> c in quartiles
    ensures "Outcome" !in df <==> res == Failure(ValueError)
    ensures res == Failure(ZeroDivisionError) <==> "Outcome" in df && n == 0 && df.Keys != {"Outcome"}
    ensures res.Failure? ==> !res.error.KeyError?
    ensures res.Success? ==> res.value.Keys == df.Keys - {"Outcome"}
    ensures res.Success? ==> forall c :: c in res.value ==>
              n > 0 && res.value[c] == ColumnReport(df[c], quartiles[c].0, quartiles[c].1)
  {
    if "Outcome" !in df {
      return Failure(ValueError);
    }
    var numericColumns := df.Keys - {"Outcome"};
    var report: map<string, OutlierReport> := map[];
    var remaining := numericColumns;
    while remaining != {}
      invariant remaining <= numericColumns
      invariant report.Keys == numericColumns - remaining
      invariant forall c :: c in report ==> n > 0 && report[c] == ColumnReport(df[c], quartiles[c].0, quartiles[c].1)
      decreases remaining
    {
      var c :| c in remaining;
      if n == 0 {
        assert df.Keys != {"Outcome"};
        return Failure(ZeroDivisionError);
      }
      report := report[c := ColumnReport(df[c], quartiles[c].0, quartiles[c].1)];
      remaining := remaining - {c};
    }
    assert n == 0 ==> numericColumns == {};
    if n == 0 {
      assert df.Keys == {"Outcome"};
    }
    res := Success(report);
  }
}
