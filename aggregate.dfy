/**
 * `df.groupby(group_col, as_index=False)[measure].sum()`: one entry per
 * distinct non-empty value of the group column, keys in ascending order (the
 * default `sort=True`), each carrying the sum of the measure over the rows with
 * that key. Rows whose key cell is empty are dropped (`dropna=True`); empty
 * measure cells add nothing to a sum.
 */
module Aggregate {
  import opened Frames

  /** One (group key, summed measure) pair of an aggregated series. */
  type Point = (int, int)

  predicate StrictlySorted(xs: seq<int>) {
    forall i, j :: 0 <= i < j < |xs| ==> xs[i] < xs[j]
  }

  /** The value a row contributes to a sum of column `m`: an empty cell counts as nothing. */
  function MeasureOf(row: Row, m: string): int {
    if m in row then row[m] else 0
  }

  /** Some row has `k` in its group column `g`. */
  ghost predicate HasKey(rows: seq<Row>, g: string, k: int) {
    exists i :: 0 <= i < |rows| && g in rows[i] && rows[i][g] == k
  }

  /** Inserts `k` into an ascending list of distinct keys, keeping it so. */
  function Insert(xs: seq<int>, k: int): (r: seq<int>)
    requires StrictlySorted(xs)
    ensures StrictlySorted(r)
    ensures forall x :: x in r <==> x in xs || x == k
    ensures |r| > 0 && r[0] == if xs != [] && xs[0] < k then xs[0] else k
  {
    if xs == [] || k < xs[0] then [k] + xs
    else if k == xs[0] then xs
    else [xs[0]] + Insert(xs[1..], k)
  }

  /** The distinct keys of group column `g`, ascending. */
  function GroupKeys(rows: seq<Row>, g: string): (r: seq<int>)
    ensures StrictlySorted(r)
    ensures forall k :: k in r <==> HasKey(rows, g, k)
  {
    if rows == [] then []
    else
      var rest := GroupKeys(rows[1..], g);
      assert forall k :: HasKey(rows[1..], g, k) ==> HasKey(rows, g, k) by {
        forall k | HasKey(rows[1..], g, k) ensures HasKey(rows, g, k) {
          var i :| 0 <= i < |rows[1..]| && g in rows[1..][i] && rows[1..][i][g] == k;
          assert rows[i + 1] == rows[1..][i];
        }
      }
      assert forall k :: HasKey(rows, g, k) ==> HasKey(rows[1..], g, k) || (g in rows[0] && rows[0][g] == k) by {
        forall k | HasKey(rows, g, k) ensures HasKey(rows[1..], g, k) || (g in rows[0] && rows[0][g] == k) {
          var i :| 0 <= i < |rows| && g in rows[i] && rows[i][g] == k;
          if i > 0 { assert rows[1..][i - 1] == rows[i]; }
        }
      }
      if g in rows[0] then Insert(rest, rows[0][g]) else rest
  }

  /** The sum of measure `m` over the rows whose group column `g` holds `k`. */
  function SumWhere(rows: seq<Row>, g: string, k: int, m: string): int {
    if rows == [] then 0
    else (if g in rows[0] && rows[0][g] == k then MeasureOf(rows[0], m) else 0) + SumWhere(rows[1..], g, k, m)
  }

  /** The sum of measure `m` over every row that has a group key, which is what grouping can distribute. */
  function Total(rows: seq<Row>, g: string, m: string): int {
    if rows == [] then 0
    else (if g in rows[0] then MeasureOf(rows[0], m) else 0) + Total(rows[1..], g, m)
  }

  /** The series over the given keys: each key paired with its group sum. */
  function Series(keys: seq<int>, rows: seq<Row>, g: string, m: string): (r: seq<Point>)
    ensures |r| == |keys|
    ensures forall i :: 0 <= i < |r| ==> r[i] == (keys[i], SumWhere(rows, g, keys[i], m))
  {
    if keys == [] then [] else [(keys[0], SumWhere(rows, g, keys[0], m))] + Series(keys[1..], rows, g, m)
  }

  /** `df.groupby(g, as_index=False)[m].sum()`. */
  function GroupSum(rows: seq<Row>, g: string, m: string): (r: seq<Point>)
  {
    Series(GroupKeys(rows, g), rows, g, m)
  }

  /** The sum of the values of a series. */
  function SeriesTotal(s: seq<Point>): int {
    if s == [] then 0 else s[0].1 + SeriesTotal(s[1..])
  }

  /**
   * The grouped series has exactly one entry per distinct key, in ascending
   * key order, and each entry is the sum of the measure over its key's rows.
   */
  lemma GroupSumShape(rows: seq<Row>, g: string, m: string)
    ensures var r := GroupSum(rows, g, m);
      && (forall i, j :: 0 <= i < j < |r| ==> r[i].0 < r[j].0)
      && (forall k :: HasKey(rows, g, k) <==> exists i :: 0 <= i < |r| && r[i].0 == k)
      && (forall i :: 0 <= i < |r| ==> r[i].1 == SumWhere(rows, g, r[i].0, m))
  {
    var keys := GroupKeys(rows, g);
    var r := GroupSum(rows, g, m);
    forall k | HasKey(rows, g, k) ensures exists i :: 0 <= i < |r| && r[i].0 == k {
      var i :| 0 <= i < |keys| && keys[i] == k;
      assert r[i].0 == k;
    }
  }

  /** The sum over no key at all is zero. */
  lemma {:induction false} SeriesOverNoRows(keys: seq<int>, g: string, m: string)
    ensures SeriesTotal(Series(keys, [], g, m)) == 0
  {
    if keys != [] {
      SeriesOverNoRows(keys[1..], g, m);
    }
  }

  /** What one row adds to the series over `keys`. */
  function Hit(keys: seq<int>, row: Row, g: string, m: string): int {
    if g in row && row[g] in keys then MeasureOf(row, m) else 0
  }

  /** Adding a row in front adds that row's measure to the one group whose key it carries. */
  lemma {:induction false} SeriesSplit(keys: seq<int>, row: Row, rest: seq<Row>, g: string, m: string)
    requires StrictlySorted(keys)
    ensures SeriesTotal(Series(keys, [row] + rest, g, m)) == Hit(keys, row, g, m) + SeriesTotal(Series(keys, rest, g, m))
  {
    if keys != [] {
      SeriesSplit(keys[1..], row, rest, g, m);
      assert ([row] + rest)[0] == row && ([row] + rest)[1..] == rest;
      if g in row && row[g] == keys[0] {
        assert row[g] !in keys[1..];
      }
    }
  }

  lemma {:induction false} SeriesTotalIsTotal(keys: seq<int>, rows: seq<Row>, g: string, m: string)
    requires StrictlySorted(keys)
    requires forall i :: 0 <= i < |rows| && g in rows[i] ==> rows[i][g] in keys
    ensures SeriesTotal(Series(keys, rows, g, m)) == Total(rows, g, m)
  {
    if rows == [] {
      SeriesOverNoRows(keys, g, m);
    } else {
      assert rows == [rows[0]] + rows[1..];
      SeriesSplit(keys, rows[0], rows[1..], g, m);
      SeriesTotalIsTotal(keys, rows[1..], g, m);
    }
  }

  /** Grouping neither loses nor invents anything: the grouped values sum to the column total. */
  lemma GroupSumPreservesTotal(rows: seq<Row>, g: string, m: string)
    ensures SeriesTotal(GroupSum(rows, g, m)) == Total(rows, g, m)
  {
    var keys := GroupKeys(rows, g);
    forall i | 0 <= i < |rows| && g in rows[i] ensures rows[i][g] in keys {
      assert HasKey(rows, g, rows[i][g]);
    }
    SeriesTotalIsTotal(keys, rows, g, m);
  }

  /**
   * Grouping reads only the group keys and the measure contributions: two
   * tables that agree on both, row by row, group to the same series.
   */
  lemma {:induction false} GroupSumDependsOnKeysAndMeasures(rows1: seq<Row>, rows2: seq<Row>, g: string, m1: string, m2: string)
    requires |rows1| == |rows2|
    requires forall i :: 0 <= i < |rows1| ==> Cell(rows1[i], g) == Cell(rows2[i], g)
    requires forall i :: 0 <= i < |rows1| ==> MeasureOf(rows1[i], m1) == MeasureOf(rows2[i], m2)
    ensures GroupKeys(rows1, g) == GroupKeys(rows2, g)
    ensures GroupSum(rows1, g, m1) == GroupSum(rows2, g, m2)
  {
    SameKeysAndSums(rows1, rows2, g, m1, m2);
    var keys := GroupKeys(rows1, g);
    var s1, s2 := Series(keys, rows1, g, m1), Series(keys, rows2, g, m2);
    assert forall i :: 0 <= i < |s1| ==> s1[i] == s2[i];
  }

  lemma {:induction false} SameKeysAndSums(rows1: seq<Row>, rows2: seq<Row>, g: string, m1: string, m2: string)
    requires |rows1| == |rows2|
    requires forall i :: 0 <= i < |rows1| ==> Cell(rows1[i], g) == Cell(rows2[i], g)
    requires forall i :: 0 <= i < |rows1| ==> MeasureOf(rows1[i], m1) == MeasureOf(rows2[i], m2)
    ensures GroupKeys(rows1, g) == GroupKeys(rows2, g)
    ensures forall k :: SumWhere(rows1, g, k, m1) == SumWhere(rows2, g, k, m2)
  {
    if rows1 != [] {
      assert Cell(rows1[0], g) == Cell(rows2[0], g);
      SameKeysAndSums(rows1[1..], rows2[1..], g, m1, m2);
    }
  }
}
