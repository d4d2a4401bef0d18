/**
 * The repository's end-to-end scenarios, replayed on the model: a configured
 * entry, the files its pattern matches and the tables they parse to, and the
 * charts the run writes.
 */
module Scenarios {
  import opened Wrappers
  import opened Json
  import opened Frames
  import opened Aggregate
  import opened Charts
  import opened Config
  import opened Pipeline

  /** Yearly amounts in two categories; the category texts 'A' and 'B' are coded as 0 and 1. */
  function Financials(): Table {
    Table(["Year", "Category", "Amount"],
          [map["Year" := 2023, "Category" := 0, "Amount" := 100],
           map["Year" := 2023, "Category" := 1, "Amount" := 200],
           map["Year" := 2024, "Category" := 0, "Amount" := 150],
           map["Year" := 2024, "Category" := 1, "Amount" := 250]])
  }

  /** Grouping the amounts by year sums each year's two rows. */
  lemma AmountByYear()
    ensures GroupSum(Financials().rows, "Year", "Amount") == [(2023, 300), (2024, 400)]
  {
    var rows := Financials().rows;
    assert GroupKeys(rows[3..], "Year") == [2024];
    assert GroupKeys(rows[2..], "Year") == [2024];
    assert GroupKeys(rows[1..], "Year") == [2023, 2024];
    assert GroupKeys(rows, "Year") == [2023, 2024];
    assert SumWhere(rows, "Year", 2023, "Amount") == 300;
    assert SumWhere(rows, "Year", 2024, "Amount") == 400;
  }

  function SingleColumnEntry(): JValue {
    JObject([Member("directory", JStr("data/*.csv")), Member("columns", JStr("Amount")),
             Member("groupby", JStr("Year")), Member("chart_type", JStr("bar")),
             Member("chart_label", JStr("Total Amount"))])
  }

  function FinancialsEnv(): Env {
    Env(map["data/*.csv" := [FileEntry(Path("data", "test_financials.csv"), false)]],
        map[Path("data", "test_financials.csv") := Financials()])
  }

  /** The resolved measure is a copy of `Amount`, so grouping it by year gives the same sums. */
  lemma MeasureByYear()
    ensures GroupSum(WithColumn(Financials(), Columns.PlotColumn, AmountMeasureValues()).rows, "Year", Columns.PlotColumn)
            == [(2023, 300), (2024, 400)]
  {
    var t, values := Financials(), AmountMeasureValues();
    var t1 := WithColumn(t, Columns.PlotColumn, values);
    WithColumnCells(t, Columns.PlotColumn, values);
    forall i | 0 <= i < |t.rows| ensures MeasureOf(t1.rows[i], Columns.PlotColumn) == MeasureOf(t.rows[i], "Amount") {
      assert Cell(t1.rows[i], Columns.PlotColumn) == values[i];
      assert values[i] == Some(t.rows[i]["Amount"]);
    }
    GroupSumDependsOnKeysAndMeasures(t1.rows, t.rows, "Year", Columns.PlotColumn, "Amount");
    AmountByYear();
  }

  lemma FinancialsStem()
    ensures Stem("test_financials.csv") == "test_financials"
  {
    StemDropsExtension("test_financials", "csv");
    assert "test_financials" + "." + "csv" == "test_financials.csv";
  }

  lemma SingleColumnEntryFields()
    ensures SingleColumnEntry().JObject?
    ensures var members := SingleColumnEntry().members;
      && Get(members, "directory") == Some(JStr("data/*.csv"))
      && Get(members, "columns") == Some(JStr("Amount"))
      && Get(members, "groupby") == Some(JStr("Year"))
      && Get(members, "chart_type") == Some(JStr("bar"))
      && Get(members, "chart_label") == Some(JStr("Total Amount"))
  {
    var members := SingleColumnEntry().members;
    var front, back := members[..2], members[2..];
    assert front == [Member("directory", JStr("data/*.csv")), Member("columns", JStr("Amount"))];
    assert members == front + back;
    assert Get(front, "directory") == Some(JStr("data/*.csv")) by {
      assert front[..1] == [Member("directory", JStr("data/*.csv"))];
    }
    GetIgnoresOtherKeys(front, back, "directory");
    GetIgnoresOtherKeys(front, back, "columns");
  }

  function BarChart(): Chart {
    Chart(Path("data", "test_financials_Year_bar.png"), Bar, "Year", JStr("Total Amount"), [(2023, 300), (2024, 400)])
  }

  /** `columns: "Amount"` with a `chart_label` resolves to a copy of the `Amount` column under that label. */
  lemma AmountMeasure()
    ensures Columns.Resolve(JStr("Amount"), Some(JStr("Total Amount")), Financials())
      == Ok(Columns.Measure(AmountMeasureValues(), JStr("Total Amount")))
  {
    var t := Financials();
    var r := Columns.Resolve(JStr("Amount"), Some(JStr("Total Amount")), t);
    assert "Amount" in t.columns;
    assert r.Ok? && r.value.yLabel == JStr("Total Amount");
    assert r.value.values == AmountMeasureValues();
  }

  /** The measure of the single-column entry, after `OneGroupFileChart`. */
  function AmountMeasureValues(): seq<Option<int>> {
    [Some(100), Some(200), Some(150), Some(250)]
  }

  lemma SingleColumnFileChartsGeneric()
    ensures FileCharts(Path("data", "test_financials.csv"), SingleColumnEntry().members, FinancialsEnv()) ==
      [Chart(Path("data", OutputName(Stem("test_financials.csv"), "Year", Bar)), Bar, "Year", JStr("Total Amount"),
             GroupSum(WithColumn(Financials(), Columns.PlotColumn, AmountMeasureValues()).rows, "Year", Columns.PlotColumn))]
  {
    var env, file := FinancialsEnv(), Path("data", "test_financials.csv");
    SingleColumnEntryFields();
    AmountMeasure();
    assert env.csv[file] == Financials();
    assert "Year" in Financials().columns;
    OneGroupFileChart(file, SingleColumnEntry().members, env, "Year", Bar,
                      Columns.Measure(AmountMeasureValues(), JStr("Total Amount")));
  }

  lemma SingleColumnFileCharts()
    ensures FileCharts(Path("data", "test_financials.csv"), SingleColumnEntry().members, FinancialsEnv()) == [BarChart()]
  {
    SingleColumnFileChartsGeneric();
    MeasureByYear();
    FinancialsStem();
    BarChartName();
  }

  lemma BarChartName()
    ensures OutputName("test_financials", "Year", Bar) == "test_financials_Year_bar.png"
  {
    assert KindName(Bar) == "bar";
    assert "test_financials" + "_" == "test_financials_";
    assert "test_financials_" + "Year" == "test_financials_Year";
    assert "test_financials_Year" + "_" == "test_financials_Year_";
    assert "test_financials_Year_" + "bar" == "test_financials_Year_bar";
    assert "test_financials_Year_bar" + ".png" == "test_financials_Year_bar.png";
  }

  lemma SingleColumnEntryCharts()
    ensures EntryResult(SingleColumnEntry(), FinancialsEnv()) == Ok([BarChart()])
  {
    var members, env := SingleColumnEntry().members, FinancialsEnv();
    var file := Path("data", "test_financials.csv");
    SingleColumnEntryFields();
    PatternEntryCharts(members, env, "data/*.csv");
    assert Glob(env, "data/*.csv") == [FileEntry(file, false)];
    SingleFileCharts(file, members, env);
    SingleColumnFileCharts();
  }

  /** A bar chart of the yearly amounts, written beside the CSV file as `test_financials_Year_bar.png`. */
  lemma SingleColumnBarChart()
    ensures Run([SingleColumnEntry()], FinancialsEnv()) == Outcome([BarChart()], None)
  {
    SingleColumnEntryCharts();
    RunOneEntry(SingleColumnEntry(), FinancialsEnv());
  }

  /** The repository's end-to-end run, through the `Visualizer` class. */
  method EndToEnd() returns (charts: seq<Chart>, fault: Option<Fault>)
    ensures fault == None
    ensures charts == [Chart(Path("data", "test_financials_Year_bar.png"), Bar, "Year", JStr("Total Amount"),
                             [(2023, 300), (2024, 400)])]
  {
    var viz := new Visualizer();
    var err := viz.LoadConfig(Parsed(JArray([SingleColumnEntry()])));
    charts, fault := viz.ProcessAll(FinancialsEnv());
    SingleColumnBarChart();
  }

  /** Two measure columns per year. */
  function Payroll(): Table {
    Table(["Year", "Salary", "Bonus"],
          [map["Year" := 2023, "Salary" := 50000, "Bonus" := 5000],
           map["Year" := 2024, "Salary" := 52000, "Bonus" := 6000]])
  }

  /** An entry summing two columns, with no `chart_label`. */
  function MultiColumnEntry(): JValue {
    JObject([Member("directory", JStr("data_multi/*.csv")), Member("columns", JArray([JStr("Salary"), JStr("Bonus")])),
             Member("groupby", JStr("Year")), Member("chart_type", JStr("line"))])
  }

  function PayrollEnv(): Env {
    Env(map["data_multi/*.csv" := [FileEntry(Path("data_multi", "multi_col.csv"), false)]],
        map[Path("data_multi", "multi_col.csv") := Payroll()])
  }

  function LineChart(): Chart {
    Chart(Path("data_multi", "multi_col_Year_line.png"), Line, "Year", JStr("Salary + Bonus"), [(2023, 55000), (2024, 58000)])
  }

  function PayrollMeasureValues(): seq<Option<int>> {
    [Some(55000), Some(58000)]
  }

  lemma MultiColumnEntryFields()
    ensures MultiColumnEntry().JObject?
    ensures var members := MultiColumnEntry().members;
      && Get(members, "directory") == Some(JStr("data_multi/*.csv"))
      && Get(members, "columns") == Some(JArray([JStr("Salary"), JStr("Bonus")]))
      && Get(members, "groupby") == Some(JStr("Year"))
      && Get(members, "chart_type") == Some(JStr("line"))
      && Get(members, "chart_label") == None
  {
    var members := MultiColumnEntry().members;
    var front, back := members[..2], members[2..];
    assert front == [Member("directory", JStr("data_multi/*.csv")), Member("columns", JArray([JStr("Salary"), JStr("Bonus")]))];
    assert members == front + back;
    assert Get(front, "directory") == Some(JStr("data_multi/*.csv")) by {
      assert front[..1] == [Member("directory", JStr("data_multi/*.csv"))];
    }
    GetIgnoresOtherKeys(front, back, "directory");
    GetIgnoresOtherKeys(front, back, "columns");
  }

  /** `columns: ["Salary", "Bonus"]` without a `chart_label` sums both columns under the label "Salary + Bonus". */
  lemma PayrollMeasure()
    ensures Columns.Resolve(JArray([JStr("Salary"), JStr("Bonus")]), None, Payroll())
      == Ok(Columns.Measure(PayrollMeasureValues(), JStr("Salary + Bonus")))
  {
    var t, names := Payroll(), [JStr("Salary"), JStr("Bonus")];
    assert names[1..] == [JStr("Bonus")] && names[1..][1..] == [];
    assert Columns.Available(names, t.columns) == ["Salary", "Bonus"];
    var avail := ["Salary", "Bonus"];
    assert avail[1..] == ["Bonus"] && avail[1..][1..] == [];
    assert Columns.Join(avail, Columns.LabelSeparator) == "Salary" + " + " + "Bonus";
    assert "Salary" + " + " + "Bonus" == "Salary + Bonus";
    assert Columns.RowSum(t.rows[0], avail) == 55000;
    assert Columns.RowSum(t.rows[1], avail) == 58000;
    var r := Columns.Resolve(JArray(names), None, t);
    assert r.Ok?;
    assert r.value.values == PayrollMeasureValues();
  }

  /** Grouping the summed measure by year gives one point per year. */
  lemma PayrollByYear()
    ensures GroupSum(WithColumn(Payroll(), Columns.PlotColumn, PayrollMeasureValues()).rows, "Year", Columns.PlotColumn)
            == [(2023, 55000), (2024, 58000)]
  {
    var t1 := WithColumn(Payroll(), Columns.PlotColumn, PayrollMeasureValues());
    var rows := t1.rows;
    WithColumnCells(Payroll(), Columns.PlotColumn, PayrollMeasureValues());
    assert rows[0]["Year"] == 2023 && rows[1]["Year"] == 2024;
    assert MeasureOf(rows[0], Columns.PlotColumn) == 55000 && MeasureOf(rows[1], Columns.PlotColumn) == 58000;
    assert GroupKeys(rows[1..], "Year") == [2024];
    assert GroupKeys(rows, "Year") == [2023, 2024];
    assert rows[1..][0] == rows[1] && rows[1..][1..] == [];
    assert SumWhere(rows[1..], "Year", 2023, Columns.PlotColumn) == 0;
    assert SumWhere(rows[1..], "Year", 2024, Columns.PlotColumn) == 58000;
    assert SumWhere(rows, "Year", 2023, Columns.PlotColumn) == 55000;
    assert SumWhere(rows, "Year", 2024, Columns.PlotColumn) == 58000;
  }

  lemma LineChartName()
    ensures OutputName(Stem("multi_col.csv"), "Year", Line) == "multi_col_Year_line.png"
  {
    StemDropsExtension("multi_col", "csv");
    assert "multi_col" + "." + "csv" == "multi_col.csv";
    assert KindName(Line) == "line";
    assert "multi_col" + "_" + "Year" + "_" + "line" + ".png" == "multi_col_Year_line.png";
  }

  lemma MultiColumnFileChartsGeneric()
    ensures FileCharts(Path("data_multi", "multi_col.csv"), MultiColumnEntry().members, PayrollEnv()) ==
      [Chart(Path("data_multi", OutputName(Stem("multi_col.csv"), "Year", Line)), Line, "Year", JStr("Salary + Bonus"),
             GroupSum(WithColumn(Payroll(), Columns.PlotColumn, PayrollMeasureValues()).rows, "Year", Columns.PlotColumn))]
  {
    var env, file := PayrollEnv(), Path("data_multi", "multi_col.csv");
    MultiColumnEntryFields();
    PayrollMeasure();
    assert env.csv[file] == Payroll();
    assert "Year" in Payroll().columns;
    OneGroupFileChart(file, MultiColumnEntry().members, env, "Year", Line,
                      Columns.Measure(PayrollMeasureValues(), JStr("Salary + Bonus")));
  }

  lemma MultiColumnFileCharts()
    ensures FileCharts(Path("data_multi", "multi_col.csv"), MultiColumnEntry().members, PayrollEnv()) == [LineChart()]
  {
    MultiColumnFileChartsGeneric();
    PayrollByYear();
    LineChartName();
  }

  lemma MultiColumnEntryCharts()
    ensures EntryResult(MultiColumnEntry(), PayrollEnv()) == Ok([LineChart()])
  {
    var members, env := MultiColumnEntry().members, PayrollEnv();
    var file := Path("data_multi", "multi_col.csv");
    MultiColumnEntryFields();
    PatternEntryCharts(members, env, "data_multi/*.csv");
    assert Glob(env, "data_multi/*.csv") == [FileEntry(file, false)];
    SingleFileCharts(file, members, env);
    MultiColumnFileCharts();
  }

  /** A line chart of the yearly salary-plus-bonus sums, written as `multi_col_Year_line.png` with the joined label. */
  lemma MultiColumnLineChart()
    ensures Run([MultiColumnEntry()], PayrollEnv()) == Outcome([LineChart()], None)
  {
    MultiColumnEntryCharts();
    RunOneEntry(MultiColumnEntry(), PayrollEnv());
  }

  /** The repository's multi-column run, through the `Visualizer` class. */
  method MultiColumnEndToEnd() returns (charts: seq<Chart>, fault: Option<Fault>)
    ensures fault == None
    ensures charts == [Chart(Path("data_multi", "multi_col_Year_line.png"), Line, "Year", JStr("Salary + Bonus"),
                             [(2023, 55000), (2024, 58000)])]
  {
    var viz := new Visualizer();
    var err := viz.LoadConfig(Parsed(JArray([MultiColumnEntry()])));
    charts, fault := viz.ProcessAll(PayrollEnv());
    MultiColumnLineChart();
  }
}
