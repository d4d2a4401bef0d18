/**
 * Measure-column resolution: the `columns` field of a config entry names one
 * column or a list of columns; the list form keeps the names present in the
 * table and sums them row by row, the single form copies the column. The
 * result also carries the y-axis label.
 */
module Columns {
  import opened Wrappers
  import opened Json
  import opened Frames

  /** The synthetic column that holds the plotted measure. */
  const PlotColumn := "calculated_value"

  /** The separator of the default label of a list of measures. */
  const LabelSeparator := " + "

  /** `[c for c in names if c in columns]`, for names that are all hashable. */
  function Available(names: seq<JValue>, columns: seq<string>): (r: seq<string>)
    ensures forall c :: c in r <==> JStr(c) in names && c in columns
    ensures |r| <= |names|
  {
    if names == [] then []
    else
      var rest := Available(names[1..], columns);
      assert forall v :: v in names <==> v == names[0] || v in names[1..];
      if names[0].JStr? && names[0].s in columns then [names[0].s] + rest else rest
  }

  /** Filtering keeps the list's order: the names kept from `a + b` are those kept from `a`, then those kept from `b`. */
  lemma {:induction false} AvailableKeepsOrder(a: seq<JValue>, b: seq<JValue>, columns: seq<string>)
    ensures Available(a + b, columns) == Available(a, columns) + Available(b, columns)
  {
    if a == [] {
      assert a + b == b;
    } else {
      assert (a + b)[0] == a[0] && (a + b)[1..] == a[1..] + b;
      AvailableKeepsOrder(a[1..], b, columns);
    }
  }

  /** `df[names].sum(axis=1)` for one row: empty cells add nothing, and a name listed twice counts twice. */
  function RowSum(row: Row, names: seq<string>): int {
    if names == [] then 0 else (if names[0] in row then row[names[0]] else 0) + RowSum(row, names[1..])
  }

  /** The row sum over a concatenation of name lists is the sum of the two row sums. */
  lemma {:induction false} RowSumAppend(row: Row, a: seq<string>, b: seq<string>)
    ensures RowSum(row, a + b) == RowSum(row, a) + RowSum(row, b)
  {
    if a == [] {
      assert a + b == b;
    } else {
      assert (a + b)[0] == a[0] && (a + b)[1..] == a[1..] + b;
      RowSumAppend(row, a[1..], b);
    }
  }

  /** `sep.join(parts)`. */
  function Join(parts: seq<string>, sep: string): (r: string)
    ensures parts == [] ==> r == ""
    ensures |parts| == 1 ==> r == parts[0]
  {
    if parts == [] then ""
    else if |parts| == 1 then parts[0]
    else parts[0] + sep + Join(parts[1..], sep)
  }

  /** Joining appends one separator and the next part for each further part. */
  lemma {:induction false} JoinSnoc(parts: seq<string>, last: string, sep: string)
    requires parts != []
    ensures Join(parts + [last], sep) == Join(parts, sep) + sep + last
  {
    if |parts| > 1 {
      assert (parts + [last])[1..] == parts[1..] + [last];
      JoinSnoc(parts[1..], last, sep);
    }
  }

  /** The resolved measure: one cell per row of the table and the y-axis label. */
  datatype Measure = Measure(values: seq<Option<int>>, yLabel: JValue)

  /** Why a file produces no chart at the column step. */
  datatype ColumnFailure =
    | NoneOfColumnsFound  // a list none of whose names is a column
    | ColumnNotFound      // a single name that is not a column
    | UnhashableName      // a list or dict tested for membership: `TypeError`

  /**
   * Resolves the `columns` field against the table; `chartLabel` is the entry's
   * `chart_label` member when it has one.
   */
  function Resolve(field: JValue, chartLabel: Option<JValue>, t: Table): (r: Result<Measure, ColumnFailure>)
    ensures r.Ok? ==> |r.value.values| == |t.rows|
    ensures !field.JArray? && !field.JStr? ==> r.Err?
  {
    match field
    case JArray(items) =>
      if exists i :: 0 <= i < |items| && !Hashable(items[i]) then Err(UnhashableName)
      else
        var avail := Available(items, t.columns);
        if avail == [] then Err(NoneOfColumnsFound)
        else
          var values := seq(|t.rows|, i requires 0 <= i < |t.rows| => Some(RowSum(t.rows[i], avail)));
          Ok(Measure(values, chartLabel.GetOr(JStr(Join(avail, LabelSeparator)))))
    case JStr(name) =>
      if name !in t.columns then Err(ColumnNotFound)
      else
        var values := seq(|t.rows|, i requires 0 <= i < |t.rows| => Cell(t.rows[i], name));
        Ok(Measure(values, chartLabel.GetOr(field)))
    case JObject(_) => Err(UnhashableName)
    case _ => Err(ColumnNotFound)
  }

  /**
   * A list of names is accepted when every name is hashable and at least one
   * is a column, and plots the row-wise sum of the present ones under the
   * joined label; a single name is accepted when it is a column and plots a
   * copy of it under its own name; `chart_label` overrides either label.
   */
  lemma ResolveMeasure(field: JValue, chartLabel: Option<JValue>, t: Table)
    ensures var r := Resolve(field, chartLabel, t);
      field.JArray? ==>
        var avail := Available(field.items, t.columns);
        && (r.Ok? <==> (forall i :: 0 <= i < |field.items| ==> Hashable(field.items[i])) && avail != [])
        && (r.Ok? ==> forall i :: 0 <= i < |t.rows| ==> r.value.values[i] == Some(RowSum(t.rows[i], avail)))
        && (r.Ok? ==> r.value.yLabel == chartLabel.GetOr(JStr(Join(avail, LabelSeparator))))
    ensures var r := Resolve(field, chartLabel, t);
      field.JStr? ==>
        && (r.Ok? <==> field.s in t.columns)
        && (r.Ok? ==> forall i :: 0 <= i < |t.rows| ==> r.value.values[i] == Cell(t.rows[i], field.s))
        && (r.Ok? ==> r.value.yLabel == chartLabel.GetOr(field))
  {
  }

  /**
   * A one-element list and the bare name describe the same measure: both are
   * accepted exactly when the column exists, carry the same label, and differ
   * only where the cell is empty, which the list form sums to 0.
   */
  lemma SingletonListIsName(name: string, chartLabel: Option<JValue>, t: Table)
    ensures Resolve(JArray([JStr(name)]), chartLabel, t).Ok? <==> Resolve(JStr(name), chartLabel, t).Ok?
    ensures Resolve(JStr(name), chartLabel, t).Ok? ==>
      var a, b := Resolve(JArray([JStr(name)]), chartLabel, t).value, Resolve(JStr(name), chartLabel, t).value;
      && a.yLabel == b.yLabel
      && forall i :: 0 <= i < |t.rows| ==> a.values[i] == Some(b.values[i].GetOr(0))
  {
    assert Available([JStr(name)], t.columns) == if name in t.columns then [name] else [];
    forall row: Row ensures RowSum(row, [name]) == Cell(row, name).GetOr(0) {
      assert [name][1..] == [];
    }
  }
}
