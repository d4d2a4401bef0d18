/**
 * The `Visualizer` orchestration: it keeps the loaded configuration list and
 * walks entries, matched files and group columns, producing the charts the
 * renderer would write. File matching (`glob.glob`), `Path.is_dir` and
 * `pd.read_csv` are answers of an environment given as input.
 */
module Pipeline {
  import opened Wrappers
  import opened Json
  import opened Frames
  import opened Columns
  import opened Aggregate
  import opened Charts
  import opened Config

  const KeyDirectory := "directory"
  const KeyColumns := "columns"
  const KeyGroupBy := "groupby"
  const KeyChartType := "chart_type"
  const KeyChartLabel := "chart_label"

  /** A path returned by file matching, and whether it names a directory. */
  datatype FileEntry = FileEntry(path: Path, isDir: bool)

  /**
   * The outside world: the paths each pattern matches, in enumeration order,
   * and the table each readable CSV file parses to. A pattern absent from
   * `glob` matches nothing; a path absent from `csv` fails to parse.
   */
  datatype Env = Env(glob: map<string, seq<FileEntry>>, csv: map<Path, Table>)

  function Glob(env: Env, pattern: string): seq<FileEntry> {
    if pattern in env.glob then env.glob[pattern] else []
  }

  /** The exceptions that escape `process_all` and end the run. */
  datatype Fault =
    | EntryNotAnObject   // `config.get` on a list entry that is not a dict: AttributeError
    | PatternNotAString  // a truthy `directory` that is not a string: glob raises TypeError

  /** The charts written, in order, and the exception that ended the run early, if any. */
  datatype Outcome = Outcome(charts: seq<Chart>, fault: Option<Fault>)

  /**
   * `groupby` as the group loop iterates it: a string is one column, a list
   * its elements, a dict its keys; a number or boolean is not iterable.
   */
  function GroupItems(v: JValue): (r: Option<seq<JValue>>)
    ensures r.Some? <==> v.JStr? || v.JArray? || v.JObject?
    ensures v.JStr? ==> r == Some([v])
    ensures v.JArray? ==> r == Some(v.items)
  {
    match v
    case JStr(_) => Some([v])
    case JArray(items) => Some(items)
    case JObject(members) =>
      var keys := Keys(members);
      Some(seq(|keys|, i requires 0 <= i < |keys| => JStr(keys[i])))
    case _ => None
  }

  /** A dict as `groupby` is iterated over its keys: each key once, in insertion order. */
  lemma GroupItemsOfObject(members: seq<Member>)
    ensures var items := GroupItems(JObject(members)).value;
      && |items| == |Keys(members)|
      && (forall i :: 0 <= i < |items| ==> items[i] == JStr(Keys(members)[i]))
      && (forall k :: JStr(k) in items <==> exists i :: 0 <= i < |members| && members[i].key == k)
      && (forall i, j :: 0 <= i < j < |items| ==> items[i] != items[j])
  {
    var keys := Keys(members);
    var items := GroupItems(JObject(members)).value;
    forall k ensures JStr(k) in items <==> k in keys {
      if k in keys {
        var i :| 0 <= i < |keys| && keys[i] == k;
        assert items[i] == JStr(k);
      }
    }
  }

  /** The chart of one group column of table `t`: nothing when the column is absent or the kind unsupported. */
  function GroupChart(item: JValue, t: Table, kind: JValue, yLabel: JValue, file: Path): seq<Chart> {
    if item.JStr? && item.s in t.columns then
      match GenerateChart(GroupSum(t.rows, item.s, PlotColumn), item.s, yLabel, kind, file)
      case Some(c) => [c]
      case None => []
    else []
  }

  /** What a chart of the group loop over table `t` is: named after the file, its column and its kind, plotting that column's group sums. */
  predicate WellFormedChart(c: Chart, t: Table, kind: JValue, yLabel: JValue, file: Path) {
    && kind == JStr(KindName(c.kind))
    && c.path == Path(file.parent, OutputName(Stem(file.name), c.xColumn, c.kind))
    && c.xColumn in t.columns
    && c.series == GroupSum(t.rows, c.xColumn, PlotColumn)
    && c.yLabel == yLabel
  }

  /**
   * The group-column loop: each present column yields one chart, in list
   * order; an absent one is skipped; an unhashable one raises `TypeError`,
   * which ends the file's loop and keeps the charts already written.
   */
  function GroupCharts(items: seq<JValue>, t: Table, kind: JValue, yLabel: JValue, file: Path): seq<Chart>
  {
    if items == [] || !Hashable(items[0]) then []
    else GroupChart(items[0], t, kind, yLabel, file) + GroupCharts(items[1..], t, kind, yLabel, file)
  }

  /** `_process_single_file`: the charts one matched file produces; a file that fails to parse produces none. */
  function FileCharts(file: Path, entry: seq<Member>, env: Env): seq<Chart> {
    if file !in env.csv then [] else TableCharts(env.csv[file], entry, file)
  }

  /** The charts of a parsed table: nothing unless `columns`, `groupby` and `chart_type` are all truthy. */
  function TableCharts(t: Table, entry: seq<Member>, file: Path): seq<Chart> {
    var columns, groupBy, kind := Get(entry, KeyColumns), Get(entry, KeyGroupBy), Get(entry, KeyChartType);
    if !Present(columns) || !Present(groupBy) || !Present(kind) then []
    else
      match Resolve(columns.value, Get(entry, KeyChartLabel), t)
      case Err(_) => []
      case Ok(m) =>
        match GroupItems(groupBy.value)
        case None => []
        case Some(items) => GroupCharts(items, WithColumn(t, PlotColumn, m.values), kind.value, m.yLabel, file)
  }

  /** The file loop of `_process_config_entry`: directories are passed over, `step` is applied to the other matches in order. */
  function Collect(files: seq<FileEntry>, step: Path -> seq<Chart>): seq<Chart> {
    if files == [] then []
    else (if files[0].isDir then [] else step(files[0].path)) + Collect(files[1..], step)
  }

  /** `_process_single_file` of an entry, as the step of its file loop. */
  function FileStep(entry: seq<Member>, env: Env): Path -> seq<Chart> {
    file => FileCharts(file, entry, env)
  }

  /** The charts of every file an entry's pattern matched. */
  function FilesCharts(files: seq<FileEntry>, entry: seq<Member>, env: Env): seq<Chart> {
    Collect(files, FileStep(entry, env))
  }

  /** `_process_config_entry`: the charts of one entry, or the exception it raises. */
  function EntryResult(entry: JValue, env: Env): Result<seq<Chart>, Fault>
  {
    if !entry.JObject? then Err(EntryNotAnObject)
    else
      var directory := Get(entry.members, KeyDirectory);
      if !Present(directory) then Ok([])
      else if !directory.value.JStr? then Err(PatternNotAString)
      else Ok(FilesCharts(Glob(env, directory.value.s), entry.members, env))
  }

  /** `process_all`: the entries in list order; an escaping exception ends the run. */
  function Run(entries: seq<JValue>, env: Env): Outcome {
    if entries == [] then Outcome([], None)
    else
      match EntryResult(entries[0], env)
      case Err(f) => Outcome([], Some(f))
      case Ok(charts) =>
        var rest := Run(entries[1..], env);
        Outcome(charts + rest.charts, rest.fault)
  }

  /**
   * An entry raises exactly when it is not a dict or its truthy `directory`
   * is not a string; an entry without a truthy `directory` produces nothing.
   */
  lemma EntryOutcomes(entry: JValue, env: Env)
    ensures EntryResult(entry, env) == Err(EntryNotAnObject) <==> !entry.JObject?
    ensures EntryResult(entry, env) == Err(PatternNotAString) <==>
      entry.JObject? && Present(Get(entry.members, KeyDirectory)) && !Get(entry.members, KeyDirectory).value.JStr?
    ensures entry.JObject? && !Present(Get(entry.members, KeyDirectory)) ==> EntryResult(entry, env) == Ok([])
  {
  }

  /** Every chart of the group loop is named after the file, its group column and its kind, and plots that column's group sums. */
  lemma {:induction false} GroupChartsWellFormed(items: seq<JValue>, t: Table, kind: JValue, yLabel: JValue, file: Path)
    ensures |GroupCharts(items, t, kind, yLabel, file)| <= |items|
    ensures forall c :: c in GroupCharts(items, t, kind, yLabel, file) ==> WellFormedChart(c, t, kind, yLabel, file)
  {
    if items != [] && Hashable(items[0]) {
      GroupChartsWellFormed(items[1..], t, kind, yLabel, file);
    }
  }

  /** A `chart_type` other than "line" or "bar" produces no chart for any group column, and raises nothing. */
  lemma {:induction false} UnsupportedKindWritesNothing(items: seq<JValue>, t: Table, kind: JValue, yLabel: JValue, file: Path)
    requires kind != JStr("line") && kind != JStr("bar")
    ensures GroupCharts(items, t, kind, yLabel, file) == []
  {
    if items != [] && Hashable(items[0]) {
      UnsupportedKindWritesNothing(items[1..], t, kind, yLabel, file);
    }
  }

  /** With a supported kind and every group column present, each group column yields exactly one chart, in list order. */
  lemma {:induction false} GroupFanOut(items: seq<JValue>, t: Table, kind: JValue, yLabel: JValue, file: Path)
    requires kind == JStr("line") || kind == JStr("bar")
    requires forall i :: 0 <= i < |items| ==> items[i].JStr? && items[i].s in t.columns
    ensures |GroupCharts(items, t, kind, yLabel, file)| == |items|
    ensures forall i :: 0 <= i < |items| ==> GroupCharts(items, t, kind, yLabel, file)[i].xColumn == items[i].s
  {
    if items != [] {
      GroupFanOut(items[1..], t, kind, yLabel, file);
      var head, rest := GroupChart(items[0], t, kind, yLabel, file), GroupCharts(items[1..], t, kind, yLabel, file);
      assert items[0].JStr? && items[0].s in t.columns;
      assert |head| == 1 && head[0].xColumn == items[0].s;
      assert GroupCharts(items, t, kind, yLabel, file) == head + rest;
      forall i | 0 <= i < |items| ensures (head + rest)[i].xColumn == items[i].s {
        if i > 0 {
          assert (head + rest)[i] == rest[i - 1] && items[1..][i - 1] == items[i];
        }
      }
    }
  }

  /** An absent group column is skipped without affecting the columns before or after it. */
  lemma {:induction false} AbsentGroupSkipped(a: seq<JValue>, x: JValue, b: seq<JValue>, t: Table, kind: JValue, yLabel: JValue, file: Path)
    requires forall i :: 0 <= i < |a| ==> Hashable(a[i])
    requires Hashable(x) && !(x.JStr? && x.s in t.columns)
    ensures GroupCharts(a + [x] + b, t, kind, yLabel, file) == GroupCharts(a + b, t, kind, yLabel, file)
  {
    if a == [] {
      assert a + [x] + b == [x] + b && ([x] + b)[1..] == b && a + b == b;
    } else {
      assert (a + [x] + b)[1..] == a[1..] + [x] + b && (a + b)[1..] == a[1..] + b;
      AbsentGroupSkipped(a[1..], x, b, t, kind, yLabel, file);
    }
  }

  /** An unhashable group column raises in the middle of the loop: the charts before it are kept, none after it is made. */
  lemma {:induction false} UnhashableGroupStops(a: seq<JValue>, x: JValue, b: seq<JValue>, t: Table, kind: JValue, yLabel: JValue, file: Path)
    requires forall i :: 0 <= i < |a| ==> Hashable(a[i])
    requires !Hashable(x)
    ensures GroupCharts(a + [x] + b, t, kind, yLabel, file) == GroupCharts(a, t, kind, yLabel, file)
  {
    if a == [] {
      assert (a + [x] + b)[0] == x;
    } else {
      assert (a + [x] + b)[1..] == a[1..] + [x] + b;
      UnhashableGroupStops(a[1..], x, b, t, kind, yLabel, file);
    }
  }

  /**
   * Summing a one-element list of measures and copying the bare column chart
   * alike: the list form turns empty cells into 0, which no group sum can
   * tell apart, so every group column other than the synthetic one gets the
   * same chart.
   */
  lemma {:induction false} SingletonListChartsLikeName(items: seq<JValue>, t: Table, v1: seq<Option<int>>, v2: seq<Option<int>>,
                                                       kind: JValue, yLabel: JValue, file: Path)
    requires |v1| == |v2| == |t.rows|
    requires forall i :: 0 <= i < |t.rows| ==> v1[i] == Some(v2[i].GetOr(0))
    requires JStr(PlotColumn) !in items
    ensures GroupCharts(items, WithColumn(t, PlotColumn, v1), kind, yLabel, file)
            == GroupCharts(items, WithColumn(t, PlotColumn, v2), kind, yLabel, file)
  {
    if items != [] && Hashable(items[0]) {
      var t1, t2 := WithColumn(t, PlotColumn, v1), WithColumn(t, PlotColumn, v2);
      if items[0].JStr? && items[0].s in t1.columns {
        var g := items[0].s;
        forall i | 0 <= i < |t1.rows| ensures MeasureOf(t1.rows[i], PlotColumn) == MeasureOf(t2.rows[i], PlotColumn) {
          assert Cell(t1.rows[i], PlotColumn) == v1[i] && Cell(t2.rows[i], PlotColumn) == v2[i];
        }
        GroupSumDependsOnKeysAndMeasures(t1.rows, t2.rows, g, PlotColumn, PlotColumn);
      }
      SingletonListChartsLikeName(items[1..], t, v1, v2, kind, yLabel, file);
    }
  }

  /** The file loop keeps match order: its charts over `a + b` are those over `a`, then those over `b`. */
  lemma {:induction false} CollectInOrder(a: seq<FileEntry>, b: seq<FileEntry>, step: Path -> seq<Chart>)
    ensures Collect(a + b, step) == Collect(a, step) + Collect(b, step)
  {
    if a == [] {
      assert a + b == b;
    } else {
      assert (a + b)[0] == a[0] && (a + b)[1..] == a[1..] + b;
      CollectInOrder(a[1..], b, step);
    }
  }

  /** One turn of the file loop: the match at `i` is handled, then the rest. */
  lemma CollectStep(files: seq<FileEntry>, i: nat, step: Path -> seq<Chart>)
    requires i < |files|
    ensures Collect(files[i..], step) == (if files[i].isDir then [] else step(files[i].path)) + Collect(files[i + 1..], step)
  {
    assert files[i..][0] == files[i] && files[i..][1..] == files[i + 1..];
  }

  /** Files are processed in match order: the charts of `a + b` are those of `a`, then those of `b`. */
  lemma FilesInOrder(a: seq<FileEntry>, b: seq<FileEntry>, entry: seq<Member>, env: Env)
    ensures FilesCharts(a + b, entry, env) == FilesCharts(a, entry, env) + FilesCharts(b, entry, env)
  {
    CollectInOrder(a, b, FileStep(entry, env));
  }

  /** A matched directory is skipped and changes nothing for the other matches. */
  lemma DirectoriesSkipped(a: seq<FileEntry>, d: FileEntry, b: seq<FileEntry>, entry: seq<Member>, env: Env)
    requires d.isDir
    ensures FilesCharts(a + [d] + b, entry, env) == FilesCharts(a + b, entry, env)
  {
    assert [d][1..] == [];
    assert Collect([d], FileStep(entry, env)) == [];
    CollectInOrder(a + [d], b, FileStep(entry, env));
    CollectInOrder(a, [d], FileStep(entry, env));
    CollectInOrder(a, b, FileStep(entry, env));
  }

  /**
   * A file produces nothing when it fails to parse, when its entry lacks a
   * truthy `columns`, `groupby` or `chart_type`, when its measure does not
   * resolve (no listed name is a column, the single name is not a column, or
   * a name is unhashable), or when `groupby` cannot be iterated.
   */
  lemma FileSkipped(file: Path, entry: seq<Member>, env: Env)
    requires || file !in env.csv
             || !Present(Get(entry, KeyColumns)) || !Present(Get(entry, KeyGroupBy)) || !Present(Get(entry, KeyChartType))
             || (file in env.csv && Present(Get(entry, KeyColumns))
                 && Resolve(Get(entry, KeyColumns).value, Get(entry, KeyChartLabel), env.csv[file]).Err?)
             || (Present(Get(entry, KeyGroupBy)) && GroupItems(Get(entry, KeyGroupBy).value).None?)
    ensures FileCharts(file, entry, env) == []
  {
  }

  /**
   * Every chart of a file lies beside it, is named `{stem}_{group}_{kind}.png`
   * and has the entry's `chart_type` as its kind.
   */
  lemma FileChartsNamed(file: Path, entry: seq<Member>, env: Env)
    ensures forall c :: c in FileCharts(file, entry, env) ==>
      && c.path == Path(file.parent, OutputName(Stem(file.name), c.xColumn, c.kind))
      && Get(entry, KeyChartType) == Some(JStr(KindName(c.kind)))
  {
    if file in env.csv {
      var t := env.csv[file];
      var columns, groupBy, kind := Get(entry, KeyColumns), Get(entry, KeyGroupBy), Get(entry, KeyChartType);
      if Present(columns) && Present(groupBy) && Present(kind) {
        var m := Resolve(columns.value, Get(entry, KeyChartLabel), t);
        var items := GroupItems(groupBy.value);
        if m.Ok? && items.Some? {
          GroupChartsWellFormed(items.value, WithColumn(t, PlotColumn, m.value.values), kind.value, m.value.yLabel, file);
        }
      }
    }
  }

  /** One present group column with a supported kind yields exactly one chart: that column's group sums, named after the file. */
  lemma OneGroupChart(g: string, t: Table, k: ChartKind, yLabel: JValue, file: Path)
    requires g in t.columns
    ensures GroupCharts([JStr(g)], t, JStr(KindName(k)), yLabel, file) ==
      [Chart(Path(file.parent, OutputName(Stem(file.name), g, k)), k, g, yLabel, GroupSum(t.rows, g, PlotColumn))]
  {
    var chart := Chart(Path(file.parent, OutputName(Stem(file.name), g, k)), k, g, yLabel, GroupSum(t.rows, g, PlotColumn));
    assert GenerateChart(GroupSum(t.rows, g, PlotColumn), g, yLabel, JStr(KindName(k)), file) == Some(chart);
    assert GroupChart(JStr(g), t, JStr(KindName(k)), yLabel, file) == [chart];
    assert [JStr(g)][1..] == [];
  }

  /**
   * A file whose entry resolves its measure and names one present group
   * column with a supported kind gets exactly one chart: that column's group
   * sums of the measure, named `{stem}_{group}_{kind}.png` beside the file.
   */
  lemma OneGroupFileChart(file: Path, entry: seq<Member>, env: Env, g: string, k: ChartKind, m: Measure)
    requires file in env.csv
    requires Present(Get(entry, KeyColumns))
    requires Resolve(Get(entry, KeyColumns).value, Get(entry, KeyChartLabel), env.csv[file]) == Ok(m)
    requires g != "" && g in env.csv[file].columns && Get(entry, KeyGroupBy) == Some(JStr(g))
    requires Get(entry, KeyChartType) == Some(JStr(KindName(k)))
    ensures FileCharts(file, entry, env) ==
      [Chart(Path(file.parent, OutputName(Stem(file.name), g, k)), k, g, m.yLabel,
             GroupSum(WithColumn(env.csv[file], PlotColumn, m.values).rows, g, PlotColumn))]
  {
    var t := env.csv[file];
    OneGroupTableCharts(t, entry, file, g, k, m);
    var t1 := WithColumn(t, PlotColumn, m.values);
    assert g in t1.columns;
    OneGroupChart(g, t1, k, m.yLabel, file);
  }

  /** The step of `OneGroupFileChart` from the entry's members to the group loop over the one column. */
  lemma OneGroupTableCharts(t: Table, entry: seq<Member>, file: Path, g: string, k: ChartKind, m: Measure)
    requires Present(Get(entry, KeyColumns))
    requires Resolve(Get(entry, KeyColumns).value, Get(entry, KeyChartLabel), t) == Ok(m)
    requires g != "" && Get(entry, KeyGroupBy) == Some(JStr(g))
    requires Get(entry, KeyChartType) == Some(JStr(KindName(k)))
    ensures TableCharts(t, entry, file) == GroupCharts([JStr(g)], WithColumn(t, PlotColumn, m.values), JStr(KindName(k)), m.yLabel, file)
  {
    assert GroupItems(JStr(g)) == Some([JStr(g)]);
  }

  /** An entry whose truthy `directory` is a pattern string produces the charts of the files it matches. */
  lemma PatternEntryCharts(members: seq<Member>, env: Env, pattern: string)
    requires pattern != "" && Get(members, KeyDirectory) == Some(JStr(pattern))
    ensures EntryResult(JObject(members), env) == Ok(FilesCharts(Glob(env, pattern), members, env))
  {
  }

  /** A single matched file that is not a directory produces its own charts. */
  lemma SingleFileCharts(file: Path, entry: seq<Member>, env: Env)
    ensures FilesCharts([FileEntry(file, false)], entry, env) == FileCharts(file, entry, env)
  {
    assert [FileEntry(file, false)][1..] == [];
    assert FileStep(entry, env)(file) == FileCharts(file, entry, env);
    assert Collect([FileEntry(file, false)], FileStep(entry, env)) == FileStep(entry, env)(file) + [];
  }

  /** A one-entry configuration yields that entry's charts, or the exception it raises. */
  lemma RunOneEntry(entry: JValue, env: Env)
    ensures Run([entry], env) == match EntryResult(entry, env)
      case Ok(charts) => Outcome(charts, None)
      case Err(f) => Outcome([], Some(f))
  {
    assert [entry][1..] == [];
    if EntryResult(entry, env).Ok? {
      assert EntryResult(entry, env).value + [] == EntryResult(entry, env).value;
    }
  }

  lemma AppendAssociative(a: seq<Chart>, b: seq<Chart>, c: seq<Chart>)
    ensures a + (b + c) == (a + b) + c
  {
  }

  /**
   * Entries are processed in list order: the run over `a + b` is the run
   * over `a`, and, unless an exception ended it, the run over `b` after it.
   */
  lemma {:induction false} RunInOrder(a: seq<JValue>, b: seq<JValue>, env: Env)
    ensures Run(a + b, env) ==
      if Run(a, env).fault.Some? then Run(a, env)
      else Outcome(Run(a, env).charts + Run(b, env).charts, Run(b, env).fault)
  {
    if a == [] {
      assert a + b == b;
    } else {
      assert (a + b)[0] == a[0] && (a + b)[1..] == a[1..] + b;
      var e := EntryResult(a[0], env);
      if e.Ok? {
        RunInOrder(a[1..], b, env);
        var ra, rb := Run(a[1..], env), Run(b, env);
        assert Run(a, env) == Outcome(e.value + ra.charts, ra.fault);
        if ra.fault.None? {
          AppendAssociative(e.value, ra.charts, rb.charts);
        }
      }
    }
  }

  class Visualizer {
    var configData: seq<JValue>

    constructor ()
      ensures configData == []
    {
      configData := [];
    }

    /** `load_config`: stores the normalised list, or reports the error and keeps the previous list. */
    method LoadConfig(src: ConfigSource) returns (err: Option<LoadError>)
      modifies this
      ensures Load(src).Ok? ==> err == None && configData == Load(src).value
      ensures Load(src).Err? ==> err == Some(Load(src).error) && configData == old(configData)
    {
      match src {
        case Missing => return Some(NotFound);
        case Unreadable => return Some(ReadFailed);
        case Undecodable => return Some(DecodeFailed);
        case Parsed(root) =>
          var config: seq<JValue>;
          if root.JArray? {
            config := root.items;
          } else if root.JObject? {
            config := [root];
          } else {
            return Some(NotAList);
          }
          if config == [] {
            return Some(NoConfigData);
          }
          configData := config;
          return None;
      }
    }

    /** `process_all`. */
    method ProcessAll(env: Env) returns (charts: seq<Chart>, fault: Option<Fault>)
      ensures Outcome(charts, fault) == Run(configData, env)
    {
      if configData == [] {
        return [], None;
      }
      charts, fault := [], None;
      var i := 0;
      assert configData[i..] == configData;
      while i < |configData|
        invariant 0 <= i <= |configData|
        invariant Run(configData, env) == Outcome(charts + Run(configData[i..], env).charts, Run(configData[i..], env).fault)
      {
        assert configData[i..][0] == configData[i] && configData[i..][1..] == configData[i + 1..];
        ghost var rest := Run(configData[i + 1..], env);
        var result := ProcessConfigEntry(configData[i], env);
        if result.Err? {
          assert charts + [] == charts;
          fault := Some(result.error);
          return;
        }
        AppendAssociative(charts, result.value, rest.charts);
        charts := charts + result.value;
        i := i + 1;
      }
    }

    /** `_process_config_entry`. */
    method ProcessConfigEntry(entry: JValue, env: Env) returns (r: Result<seq<Chart>, Fault>)
      ensures r == EntryResult(entry, env)
    {
      if !entry.JObject? {
        return Err(EntryNotAnObject);
      }
      var pattern := Get(entry.members, KeyDirectory);
      if !Present(pattern) {
        return Ok([]);
      }
      if !pattern.value.JStr? {
        return Err(PatternNotAString);
      }
      var charts := ProcessFiles(Glob(env, pattern.value.s), entry.members, env);
      return Ok(charts);
    }

    /** The file loop of `_process_config_entry`: directories are passed over, files processed in match order. */
    method ProcessFiles(files: seq<FileEntry>, entry: seq<Member>, env: Env) returns (charts: seq<Chart>)
      ensures charts == FilesCharts(files, entry, env)
    {
      ghost var step := FileStep(entry, env);
      charts := [];
      var i := 0;
      assert files[i..] == files;
      while i < |files|
        invariant 0 <= i <= |files|
        invariant Collect(files, step) == charts + Collect(files[i..], step)
      {
        CollectStep(files, i, step);
        ghost var rest := Collect(files[i + 1..], step);
        var fileCharts: seq<Chart> := [];
        if !files[i].isDir {
          fileCharts := ProcessSingleFile(files[i].path, entry, env);
          assert fileCharts == step(files[i].path);
        }
        AppendAssociative(charts, fileCharts, rest);
        charts := charts + fileCharts;
        i := i + 1;
      }
      assert files[i..] == [];
      assert charts + Collect(files[i..], step) == charts;
    }

    /** `_process_single_file`. */
    method ProcessSingleFile(file: Path, entry: seq<Member>, env: Env) returns (charts: seq<Chart>)
      ensures charts == FileCharts(file, entry, env)
    {
      if file !in env.csv {
        return [];
      }
      var columns := Get(entry, KeyColumns);
      var groupBy := Get(entry, KeyGroupBy);
      var kind := Get(entry, KeyChartType);
      if !Present(columns) || !Present(groupBy) || !Present(kind) {
        return [];
      }
      var df := new DataFrame(env.csv[file]);
      var measure := Resolve(columns.value, Get(entry, KeyChartLabel), df.Value());
      if measure.Err? {
        return [];
      }
      df.SetColumn(PlotColumn, measure.value.values);
      var items := GroupItems(groupBy.value);
      if items.None? {
        return [];
      }
      charts := ChartGroups(items.value, df, kind.value, measure.value.yLabel, file);
    }

    /** The group-column loop of `_process_single_file` over the DataFrame with its measure column. */
    method ChartGroups(groups: seq<JValue>, df: DataFrame, kind: JValue, yLabel: JValue, file: Path) returns (charts: seq<Chart>)
      ensures charts == GroupCharts(groups, df.Value(), kind, yLabel, file)
    {
      var t := df.Value();
      charts := [];
      var todo := groups;
      while todo != [] && Hashable(todo[0])
        invariant GroupCharts(groups, t, kind, yLabel, file) == charts + GroupCharts(todo, t, kind, yLabel, file)
      {
        var g := todo[0];
        ghost var rest := GroupCharts(todo[1..], t, kind, yLabel, file);
        var produced: seq<Chart> := [];
        if g.JStr? && g.s in t.columns {
          var chart := GenerateChart(GroupSum(t.rows, g.s, PlotColumn), g.s, yLabel, kind, file);
          if chart.Some? {
            produced := [chart.value];
          }
        }
        assert produced == GroupChart(g, t, kind, yLabel, file);
        AppendAssociative(charts, produced, rest);
        charts := charts + produced;
        todo := todo[1..];
      }
      assert charts + [] == charts;
    }
  }
}
