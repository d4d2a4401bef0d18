/**
 * The in-memory table that `pd.read_csv` produces, reduced to what the
 * visualizer uses: the header names and the rows. A cell that is absent from a
 * row's map is empty (NaN). Text columns are represented by integer codes that
 * preserve equality and order.
 */
module Frames {
  import opened Wrappers

  type Row = map<string, int>

  datatype Table = Table(columns: seq<string>, rows: seq<Row>)

  /** The cell of `row` under column `c`; `None` is an empty (NaN) cell. */
  function Cell(row: Row, c: string): Option<int> {
    if c in row then Some(row[c]) else None
  }

  /** Stores `v` as the cell of `row` under `c`: a `None` leaves the cell empty. */
  function SetCell(row: Row, c: string, v: Option<int>): (r: Row)
    ensures Cell(r, c) == v
    ensures forall d :: d != c ==> Cell(r, d) == Cell(row, d)
  {
    match v
    case Some(x) => row[c := x]
    case None => row - {c}
  }

  /**
   * `df[name] = values`: the column is replaced in place when it exists and
   * appended after the others when it does not; every other cell is kept.
   */
  function WithColumn(t: Table, name: string, values: seq<Option<int>>): (r: Table)
    requires |values| == |t.rows|
    ensures r.columns == if name in t.columns then t.columns else t.columns + [name]
    ensures |r.rows| == |t.rows|
  {
    var cols := if name in t.columns then t.columns else t.columns + [name];
    Table(cols, seq(|t.rows|, i requires 0 <= i < |t.rows| => SetCell(t.rows[i], name, values[i])))
  }

  /** Every row of the new column holds its value, and every other cell is kept. */
  lemma WithColumnCells(t: Table, name: string, values: seq<Option<int>>)
    requires |values| == |t.rows|
    ensures var r := WithColumn(t, name, values);
      && (forall i :: 0 <= i < |r.rows| ==> Cell(r.rows[i], name) == values[i])
      && (forall i, c :: 0 <= i < |r.rows| && c != name ==> Cell(r.rows[i], c) == Cell(t.rows[i], c))
  {
  }

  /** A DataFrame that the pipeline updates in place when it adds the synthetic measure column. */
  class DataFrame {
    var columns: seq<string>
    var rows: seq<Row>

    function Value(): Table
      reads this
    {
      Table(columns, rows)
    }

    constructor (t: Table)
      ensures Value() == t
    {
      columns := t.columns;
      rows := t.rows;
    }

    /** Column assignment `df[name] = values`. */
    method SetColumn(name: string, values: seq<Option<int>>)
      requires |values| == |rows|
      modifies this
      ensures Value() == WithColumn(old(Value()), name, values)
    {
      if name !in columns {
        columns := columns + [name];
      }
      var before := rows;
      rows := seq(|before|, i requires 0 <= i < |before| => SetCell(before[i], name, values[i]));
    }
  }
}
