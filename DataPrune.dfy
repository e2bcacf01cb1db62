/** Row pruning of src/data_prune.py: a row is dropped when the share of its cells
    that are missing is strictly above a threshold given in percent. The column
    shares the source computes are only printed, so they have no counterpart here. */
module DataPrune {
  import opened Wrappers
  import opened Seqs
  import opened Tables

  /** `row_threshold`'s default. */
  const DefaultRowThreshold: real := 50.0

  /** `df.isnull().sum(axis=1)` for one row: how many of its cells are missing. */
  function NullCount(columns: seq<string>, row: Row): (n: nat)
    ensures n <= |columns|
  {
    if columns == [] then 0
    else
      var c := columns[|columns| - 1];
      NullCount(columns[..|columns| - 1], row) + (if c in row && IsNull(row[c]) then 1 else 0)
  }

  /** The columns in which the row's cell is missing. */
  function NullColumns(columns: seq<string>, row: Row): set<string> {
    set c | c in columns && c in row && IsNull(row[c])
  }

  /** With unique column labels the count is the number of columns whose cell is missing. */
  lemma {:induction false} NullCountIsNullColumns(columns: seq<string>, row: Row)
    requires Distinct(columns)
    ensures NullCount(columns, row) == |NullColumns(columns, row)|
  {
    if columns != [] {
      var front, c := columns[..|columns| - 1], columns[|columns| - 1];
      assert columns == front + [c];
      NullCountIsNullColumns(front, row);
      assert c !in front;
      if c in row && IsNull(row[c]) {
        assert NullColumns(columns, row) == NullColumns(front, row) + {c};
      } else {
        assert NullColumns(columns, row) == NullColumns(front, row);
      }
    }
  }

  /** `missing_percentage_per_row` for one row: its null count over the number of
      columns, times 100. With no columns this is `0 / 0`, which pandas gives as NaN. */
  function MissingPercent(columns: seq<string>, row: Row): (r: Option<real>)
    ensures r.None? <==> |columns| == 0
  {
    if |columns| == 0 then None
    else Some((NullCount(columns, row) as real) * 100.0 / (|columns| as real))
  }

  /** Whether `missing_percentage_per_row > row_threshold` selects the row; NaN
      compares false, so a frame without columns loses no row. */
  predicate Dropped(columns: seq<string>, row: Row, threshold: real)
    ensures Dropped(columns, row, threshold) ==> |columns| > 0
    ensures threshold >= 100.0 ==> !Dropped(columns, row, threshold)
  {
    MissingPercentInRange(columns, row);
    match MissingPercent(columns, row)
    case Some(p) => p > threshold
    case None => false
  }

  /** `prune_missing_values(df, row_threshold)`: the same columns and the rows that are
      not dropped, in their order (row labels are assumed unique, so dropping by label
      is dropping by position). */
  function Prune(t: Table, threshold: real): (r: Table)
    ensures r.columns == t.columns
    ensures IsSubsequence(r.rows, t.rows)
    ensures forall i :: 0 <= i < |r.rows| ==> !Dropped(t.columns, r.rows[i], threshold)
  {
    FilterSubsequence(t.rows, row => !Dropped(t.columns, row, threshold));
    FilterPasses(t.rows, row => !Dropped(t.columns, row, threshold));
    Table(t.columns, Filter(t.rows, row => !Dropped(t.columns, row, threshold)))
  }

  /** The missing share is a percentage: it exists exactly when the frame has columns,
      and then lies between 0 and 100. */
  lemma MissingPercentInRange(columns: seq<string>, row: Row)
    ensures MissingPercent(columns, row).None? <==> |columns| == 0
    ensures MissingPercent(columns, row).Some? ==> 0.0 <= MissingPercent(columns, row).value <= 100.0
  {
    if |columns| > 0 {
      var a, c := (NullCount(columns, row) as real) * 100.0, |columns| as real;
      assert MissingPercent(columns, row) == Some(a / c);
      assert a <= 100.0 * c;
      ShareAbove(a, c, 100.0);
      if a > 0.0 {
        ShareAbove(a, c, 0.0);
      } else {
        assert a == 0.0;
      }
    }
  }

  /** A quotient by a positive number is above `b` exactly when the dividend is above `b` times it. */
  lemma ShareAbove(a: real, c: real, b: real)
    requires c > 0.0
    ensures a / c > b <==> a > b * c
  {
    var q := a / c;
    assert q * c == a;
    assert q * c - b * c == (q - b) * c;
    if q > b {
      assert (q - b) * c > 0.0;
    } else {
      assert (b - q) * c >= 0.0;
    }
  }

  /** The result keeps the columns; a row survives exactly when it is not dropped,
      as many times as it occurs, and the survivors keep their order. */
  lemma PruneKeepsUndropped(t: Table, threshold: real, row: Row)
    ensures Prune(t, threshold).columns == t.columns
    ensures row in Prune(t, threshold).rows <==> row in t.rows && !Dropped(t.columns, row, threshold)
    ensures multiset(Prune(t, threshold).rows)[row]
            == if Dropped(t.columns, row, threshold) then 0 else multiset(t.rows)[row]
    ensures IsSubsequence(Prune(t, threshold).rows, t.rows)
  {
    var keep := r => !Dropped(t.columns, r, threshold);
    FilterMembership(t.rows, keep, row);
    FilterCount(t.rows, keep, row);
    FilterSubsequence(t.rows, keep);
  }

  /** At a threshold of 100 or more no row can be dropped. */
  lemma PruneAtLeast100KeepsAll(t: Table, threshold: real)
    requires threshold >= 100.0
    ensures Prune(t, threshold) == t
  {
    var keep := r => !Dropped(t.columns, r, threshold);
    forall k | 0 <= k < |t.rows| ensures keep(t.rows[k]) {
      MissingPercentInRange(t.columns, t.rows[k]);
    }
    FilterKeepsAll(t.rows, keep);
  }

  /** Raising the threshold never removes a row a lower threshold kept. */
  lemma PruneMonotone(t: Table, lower: real, higher: real)
    requires lower <= higher
    ensures IsSubsequence(Prune(t, lower).rows, Prune(t, higher).rows)
    ensures forall r :: r in Prune(t, lower).rows ==> r in Prune(t, higher).rows
  {
    var strict := r => !Dropped(t.columns, r, lower);
    var loose := r => !Dropped(t.columns, r, higher);
    FilterMonotone(t.rows, strict, loose);
    forall r | r in Prune(t, lower).rows ensures r in Prune(t, higher).rows {
      FilterMembership(t.rows, strict, r);
      FilterMembership(t.rows, loose, r);
    }
  }

  /** Six missing cells out of eight are 75%: dropped at 50, kept at 80, and kept at
      exactly 75 because only a share strictly above the threshold is dropped. */
  lemma SixOfEightMissing(columns: seq<string>, row: Row)
    requires |columns| == 8 && NullCount(columns, row) == 6
    ensures MissingPercent(columns, row) == Some(75.0)
    ensures Dropped(columns, row, DefaultRowThreshold)
    ensures !Dropped(columns, row, 80.0)
    ensures !Dropped(columns, row, 75.0)
  {
  }
}
