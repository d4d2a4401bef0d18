# finance-visualizer, modelled in Dafny

The finance visualizer reads a JSON configuration listing chart jobs. Each job
(an "entry") names a file pattern (`directory`), one measure column or a list
of them (`columns`), one or more group columns (`groupby`), a chart kind
(`chart_type`, "line" or "bar") and optionally a y-axis label (`chart_label`).
For every CSV file the pattern matches, the `Visualizer` class:

1. resolves the measure into a synthetic column `calculated_value`: a copy of
   the one column, or the row-wise sum of the listed columns that exist;
2. for each group column that exists, groups the table by it and sums the
   measure;
3. draws a line or bar chart and saves it beside the source file as
   `{stem}_{group}_{kind}.png`.

This project models that core, `visualizer/core.py`, down to the charts the
run writes and the exceptions that end it. Each written chart is a `Chart`
value: its output path, kind, x column, y label and the grouped series.

Modules, one per file:

- `Wrappers`: `Option` and `Result`.
- `Json`: decoded JSON values and the Python operations the visualizer
  applies to them. These are truthiness, `dict.get` (the last duplicate key
  wins, as in `json.load`), key iteration and hashability.
- `Frames`: the table `pd.read_csv` yields. A cell missing from a row's map
  is an empty (NaN) cell. `DataFrame` is the in-place table that gains the
  measure column.
- `Aggregate`: `groupby(g, as_index=False)[m].sum()`. Keys come out distinct
  and ascending. Rows with an empty key are dropped, and empty measure cells
  add nothing.
- `Columns`: measure resolution and the y-axis label.
- `Charts`: the `chart_type` dispatch and the output file name, including
  `PurePath.stem` and `PurePath.suffix`.
- `Config`: what `load_config` stores or raises.
- `Pipeline`: the `Visualizer` class. Its methods are the source's loops, and
  each is proved equal to a pure specification function (`Run`,
  `EntryResult`, `FilesCharts`, `FileCharts`, `GroupCharts`). The lemmas
  about those functions state what the run does.
- `Scenarios`: the repository's two end-to-end tests, replayed through the
  class. They are the single-column bar chart and the two-column line chart.

The outside world is an input. `Env` gives the paths each pattern matches
(`glob.glob`), whether each is a directory (`Path.is_dir`), and the table each
readable CSV parses to (`pd.read_csv`; an absent path fails to parse).
`ConfigSource` is the outcome of opening and decoding the configuration file.

Three behaviours of the code are easy to miss, and the model keeps them:

- **Entry errors end the run.** `process_all` has no per-entry `try`, so an
  exception from `_process_config_entry` ends the run:
  - a list entry that is not a dict fails on `config.get`;
  - a truthy `directory` that is not a string makes `glob` raise.

  Either one ends the run. The charts of the earlier entries stay written
  (`Fault`, `Run`).
- **A list root is stored as it is.** `load_config` keeps any non-empty list
  root, whatever its elements are.
- **A bad group column ends the file, not just that column.** An unhashable
  group column (a list or a dict inside `groupby`) raises inside the group
  loop. The exception is caught per file, so the file's remaining group
  columns are not charted, but the charts already written stay
  (`UnhashableGroupStops`).

## Model

| member | source | states |
|---|---|---|
| Json.Get | visualizer/core.py:80 | `dict.get`: absent exactly when no member has the key; otherwise the value of a member with that key |
| Json.GetLastWins | visualizer/core.py:111-113 | a later duplicate key overrides earlier ones and leaves the other keys' lookups unchanged |
| Json.GetIgnoresOtherKeys | visualizer/core.py:111-113 | members with other keys placed after a key do not change its lookup |
| Json.Truthy | visualizer/core.py:81 | Python truthiness: `not v` holds exactly for null, false, 0, "", [] and {}; characterised by its definition |
| Json.Hashable | visualizer/core.py:125 | lists and dicts are unhashable, so `v in df.columns` raises `TypeError` for them; characterised by its definition |
| Json.Keys | visualizer/core.py:144 | iterating a dict yields exactly its keys, each once |
| Json.KeysSnoc | visualizer/core.py:144 | keys come in order of first appearance: a new key is added last and a repeated key adds nothing |
| Frames.SetCell | visualizer/core.py:131 | storing a cell sets exactly that cell, and an empty value leaves it NaN |
| Frames.WithColumn | visualizer/core.py:131 | `df[name] = values` replaces an existing column in place or appends it last, and keeps the row count |
| Frames.WithColumnCells | visualizer/core.py:137 | after the assignment each row holds its value in the new column and every other cell is unchanged |
| Frames.DataFrame.constructor | visualizer/core.py:106 | the DataFrame holds the parsed table |
| Frames.DataFrame.SetColumn | visualizer/core.py:131 | the in-place column assignment leaves the frame equal to `WithColumn` of its old value |
| Aggregate.Insert | visualizer/core.py:150 | inserting a key into an ascending distinct key list keeps it ascending and distinct and adds exactly that key |
| Aggregate.GroupKeys | visualizer/core.py:150 | the group keys are strictly ascending and are exactly the non-empty values of the group column |
| Aggregate.Series | visualizer/core.py:150 | one entry per key, each the sum of the measure over that key's rows |
| Aggregate.GroupSum | visualizer/core.py:150 | `groupby(g, as_index=False)[m].sum()`; what it yields is stated by `GroupSumShape`, `GroupSumPreservesTotal` and `GroupSumDependsOnKeysAndMeasures` |
| Aggregate.GroupSumShape | visualizer/core.py:150 | the grouped series is ascending by key, has an entry for a key iff some row carries it, and each entry is its key's sum |
| Aggregate.SeriesTotalIsTotal | visualizer/core.py:150 | a series over keys covering every keyed row sums to the measure total of those rows |
| Aggregate.GroupSumPreservesTotal | visualizer/core.py:150 | grouping neither loses nor invents measure: the grouped values sum to the total over keyed rows |
| Aggregate.GroupSumDependsOnKeysAndMeasures | visualizer/core.py:150 | two tables that agree row by row on group keys and measure contributions group to the same series |
| Columns.Available | visualizer/core.py:125 | a name is kept iff it is a string naming a column, and no more names are kept than were listed |
| Columns.AvailableKeepsOrder | visualizer/core.py:125 | the filter keeps list order: filtering `a + b` gives the kept names of `a`, then those of `b` |
| Columns.RowSum | visualizer/core.py:131 | `df[names].sum(axis=1)` for one row, skipping empty cells; its behaviour is stated by `RowSumAppend` and `SingletonListIsName` |
| Columns.RowSumAppend | visualizer/core.py:131 | the row-wise sum over concatenated name lists is the sum of the two row sums |
| Columns.Join | visualizer/core.py:132 | `' + '.join`: the empty list gives "" and a single name gives itself |
| Columns.JoinSnoc | visualizer/core.py:132 | each further name adds one separator and that name to the label |
| Columns.Resolve | visualizer/core.py:123-138 | a resolved measure has one cell per row; a `columns` value that is neither a list nor a string is refused |
| Columns.ResolveMeasure | visualizer/core.py:123-138 | a list is accepted iff every name is hashable and one is a column, and then plots the row sums of the present names under `chart_label` or the joined names; a string is accepted iff it is a column, and then plots a copy under `chart_label` or its own name |
| Columns.SingletonListIsName | visualizer/core.py:123-138 | `["c"]` and `"c"` are accepted alike, get the same label, and differ only where a cell is empty, which the list form sums to 0 |
| Charts.Dispatch | visualizer/core.py:176-191 | a renderer is chosen iff `chart_type` is exactly "line" or "bar", and its name is that string |
| Charts.LastDot | visualizer/core.py:159 | the index of the last '.' in the name, or -1 when there is none |
| Charts.Suffix | visualizer/core.py:159 | the suffix is empty or a single dot followed by at least one character and no further dot; it is empty when the only dot leads the name or there is none |
| Charts.Stem | visualizer/core.py:159 | `PurePath.stem`; what it yields is stated by `StemThenSuffix`, `StemDropsExtension`, `LeadingDotIsStem` and `TrailingDotIsStem` |
| Charts.StemThenSuffix | visualizer/core.py:159 | the stem followed by the suffix gives back the file name |
| Charts.StemDropsExtension | visualizer/core.py:159 | the stem of `base.ext` is `base` and its suffix `.ext`, whatever dots `base` holds |
| Charts.LeadingDotIsStem | visualizer/core.py:159 | a name whose only dot leads it, like `.csv`, is all stem and has no suffix |
| Charts.TrailingDotIsStem | visualizer/core.py:159 | a name ending in a dot is all stem and has no suffix |
| Charts.OutputName | visualizer/core.py:206 | `{stem}_{group}_{kind}.png`; its shape and injectivity are stated by `OutputNameSplits` and `OutputNameInjective` |
| Charts.OutputNameSplits | visualizer/core.py:206 | the output name is the stem and '_', then the group column, then the kind's `_kind.png` tail |
| Charts.OutputNameInjective | visualizer/core.py:206-207 | for one source file, distinct (group column, kind) pairs never share an output name |
| Charts.GenerateChart | visualizer/core.py:163-191 | a chart is written iff the kind is "line" or "bar"; it lies beside the source as `{stem}_{group}_{kind}.png` and plots the given series and label |
| Config.Normalize | visualizer/core.py:50-55 | a list root is kept, a dict root becomes a one-element list, anything else is refused as not a list |
| Config.Load | visualizer/core.py:42-64 | loading succeeds iff the decoded root is a dict or a non-empty list, and then yields a non-empty list; each failure (missing, unreadable, undecodable, not a list, empty) is reported in its own case only |
| Config.ObjectIsOneElementList | visualizer/core.py:50-53 | a dict root loads exactly like the list holding only that dict |
| Pipeline.GroupItems | visualizer/core.py:141-144 | `groupby` is iterable iff it is a string, list or dict; a string is one column and a list its elements |
| Pipeline.GroupItemsOfObject | visualizer/core.py:144 | a dict `groupby` yields its keys in order of first appearance (`Keys`), each once, and no other item |
| Pipeline.EntryOutcomes | visualizer/core.py:76-86 | an entry raises iff it is not a dict or has a truthy non-string `directory`; an entry without a truthy `directory` produces nothing |
| Pipeline.GroupChart | visualizer/core.py:145-161 | one group column's chart: none when the column is absent or the kind unsupported; stated by `OneGroupChart` and `AbsentGroupSkipped` |
| Pipeline.GroupCharts | visualizer/core.py:144-161 | the group loop; stated by `GroupChartsWellFormed`, `GroupFanOut`, `AbsentGroupSkipped`, `UnhashableGroupStops` and `UnsupportedKindWritesNothing` |
| Pipeline.TableCharts | visualizer/core.py:111-161 | the charts of a parsed table; stated by `FileSkipped`, `OneGroupTableCharts` and `FileChartsNamed` |
| Pipeline.FileCharts | visualizer/core.py:99-161 | `_process_single_file`, where a file that fails to parse produces nothing; stated by `FileSkipped`, `FileChartsNamed` and `OneGroupFileChart` |
| Pipeline.Collect | visualizer/core.py:90-97 | the file loop over any per-file step; stated by `CollectInOrder` and `CollectStep` |
| Pipeline.FilesCharts | visualizer/core.py:90-97 | the charts of every match of an entry; stated by `FilesInOrder`, `DirectoriesSkipped` and `SingleFileCharts` |
| Pipeline.EntryResult | visualizer/core.py:76-97 | `_process_config_entry`; stated by `EntryOutcomes` and `PatternEntryCharts` |
| Pipeline.Run | visualizer/core.py:66-74 | `process_all`; stated by `RunOneEntry` and `RunInOrder` |
| Pipeline.GroupChartsWellFormed | visualizer/core.py:144-161 | the group loop makes at most one chart per entry of `groupby` (a column listed twice is charted twice, to the same path), each named after the file, column and kind, with that column's group sums and the entry's label |
| Pipeline.UnsupportedKindWritesNothing | visualizer/core.py:188-191 | a `chart_type` other than "line" or "bar" writes no chart for any group column |
| Pipeline.GroupFanOut | visualizer/core.py:144-161 | with a supported kind and every group column present, there is exactly one chart per group column, in list order |
| Pipeline.AbsentGroupSkipped | visualizer/core.py:145-147 | an absent group column is skipped without changing the charts of the columns around it |
| Pipeline.UnhashableGroupStops | visualizer/core.py:144-145 | an unhashable group column ends the file's loop: the charts before it are kept and none after it is made |
| Pipeline.SingletonListChartsLikeName | visualizer/core.py:123-150 | a one-name list and the bare name produce the same charts for every group column other than the synthetic one |
| Pipeline.CollectInOrder | visualizer/core.py:90-97 | the file loop over `a + b` yields the charts of `a`, then those of `b` |
| Pipeline.FilesInOrder | visualizer/core.py:90-97 | matched files are processed in match order |
| Pipeline.DirectoriesSkipped | visualizer/core.py:91-92 | a matched directory is passed over and changes nothing for the other matches |
| Pipeline.FileSkipped | visualizer/core.py:105-144 | a file produces nothing when it fails to parse, when its entry lacks a truthy `columns`, `groupby` or `chart_type`, when its measure does not resolve (no listed name is a column, the single name is not a column, or a name is unhashable), or when `groupby` cannot be iterated |
| Pipeline.FileChartsNamed | visualizer/core.py:153-161 | every chart of a file lies beside it, is named `{stem}_{group}_{kind}.png`, and has the entry's `chart_type` as its kind |
| Pipeline.OneGroupChart | visualizer/core.py:144-161 | one present group column with a supported kind yields exactly one chart of that column's group sums |
| Pipeline.OneGroupTableCharts | visualizer/core.py:111-144 | an entry with a resolved measure and one string group column runs the group loop over that one column of the table with the measure column |
| Pipeline.OneGroupFileChart | visualizer/core.py:99-161 | such a file gets exactly one chart, the grouped measure named `{stem}_{group}_{kind}.png` beside it |
| Pipeline.PatternEntryCharts | visualizer/core.py:80-90 | an entry with a pattern string produces the charts of the files the pattern matches |
| Pipeline.SingleFileCharts | visualizer/core.py:90-95 | a single matched file that is not a directory produces its own charts |
| Pipeline.RunOneEntry | visualizer/core.py:72-74 | a one-entry configuration yields that entry's charts, or ends with the exception it raises |
| Pipeline.RunInOrder | visualizer/core.py:72-74 | entries run in list order: the run over `a + b` is the run over `a` and, unless that raised, the run over `b` after it |
| Pipeline.Visualizer.constructor | visualizer/core.py:28-29 | a new visualizer holds no configuration |
| Pipeline.Visualizer.LoadConfig | visualizer/core.py:42-64 | stores the loaded list on success; on failure reports `Load`'s error and keeps the previous list |
| Pipeline.Visualizer.ProcessAll | visualizer/core.py:66-74 | the charts written and the ending exception are those of `Run` over the stored list |
| Pipeline.Visualizer.ProcessConfigEntry | visualizer/core.py:76-97 | returns what `EntryResult` gives the entry: its charts or its exception |
| Pipeline.Visualizer.ProcessFiles | visualizer/core.py:90-97 | the file loop's charts are `FilesCharts` of the matches |
| Pipeline.Visualizer.ProcessSingleFile | visualizer/core.py:99-161 | the file's charts are `FileCharts` of the file |
| Pipeline.Visualizer.ChartGroups | visualizer/core.py:141-161 | the group loop over the frame with its measure column yields `GroupCharts` of the frame's table |
| Scenarios.AmountByYear | tests/test_core.py:75-79 | the test table's amounts grouped by year are (2023, 300) and (2024, 400) |
| Scenarios.SingleColumnEntryFields | tests/test_core.py:86-92 | the test entry's fields read back as written |
| Scenarios.AmountMeasure | tests/test_core.py:86-92 | `columns: "Amount"` with a `chart_label` is a copy of `Amount` under "Total Amount" |
| Scenarios.MeasureByYear | tests/test_core.py:75-92 | the measure column grouped by year gives the same sums as `Amount` |
| Scenarios.FinancialsStem | tests/test_core.py:72 | the stem of `test_financials.csv` is `test_financials` |
| Scenarios.BarChartName | tests/test_core.py:104-105 | the bar chart is named `test_financials_Year_bar.png` |
| Scenarios.SingleColumnFileCharts | tests/test_core.py:63-110 | the test file produces exactly the expected bar chart |
| Scenarios.SingleColumnEntryCharts | tests/test_core.py:63-110 | the test entry produces exactly the expected bar chart |
| Scenarios.SingleColumnBarChart | tests/test_core.py:63-110 | the run writes the bar chart `data/test_financials_Year_bar.png` and ends without an exception |
| Scenarios.EndToEnd | tests/test_core.py:98-107 | loading and processing through the class writes exactly that bar chart |
| Scenarios.MultiColumnEntryFields | tests/test_core.py:127-132 | the multi-column entry's fields read back as written, with no `chart_label` |
| Scenarios.PayrollMeasure | tests/test_core.py:118-132 | summing Salary and Bonus gives 55000 and 58000 under the label "Salary + Bonus" |
| Scenarios.PayrollByYear | tests/test_core.py:118-132 | the summed measure grouped by year is (2023, 55000) and (2024, 58000) |
| Scenarios.LineChartName | tests/test_core.py:142 | the line chart is named `multi_col_Year_line.png` |
| Scenarios.MultiColumnFileCharts | tests/test_core.py:113-143 | the test file produces exactly the expected line chart |
| Scenarios.MultiColumnEntryCharts | tests/test_core.py:113-143 | the test entry produces exactly the expected line chart |
| Scenarios.MultiColumnLineChart | tests/test_core.py:113-143 | the run writes the line chart `data_multi/multi_col_Year_line.png` and ends without an exception |
| Scenarios.MultiColumnEndToEnd | tests/test_core.py:138-143 | loading and processing through the class writes exactly that line chart |

## Left out

- File matching, directory tests and CSV parsing (`glob.glob` with `recursive=True`, `Path.is_dir`, `pd.read_csv`) are inputs (`Env`), not modelled. Which paths a pattern matches, and in what order, is whatever the input says.
- Opening and decoding the configuration file are inputs (`ConfigSource`). JSON floats, NaN and infinities are not modelled; numbers are integers.
- Drawing is not modelled: matplotlib figures, colours, titles, axis labels, legends, the integer tick locator and the `int(y)` data labels. A chart is the file it is saved to and the data it plots.
- A failing `savefig` is not modelled. The source logs it and carries on, and the model counts every chart with a supported kind as written.
- Logging and warning messages are not modelled.
- Table cells are integers. Floating-point measures, and `int()` truncation in the data labels, are not modelled. Text columns are integer codes that keep equality and order, which is faithful for text group columns only.
- Cell and sum width is not modelled. pandas sums int64 columns with wrap-around past 2^63-1, and float64 columns (any integer column with an empty cell) with rounding past 2^53. The model's integers are unbounded, so `RowSum`, `SumWhere` and `GroupSum` hold the exact sums.
- Text measure columns are not modelled. The model sums their codes and writes charts. The source behaves differently. In the list form, `df[available_cols].sum(axis=1)` fails on text mixed with numbers, so the file is skipped. In the single-name form, the group sum concatenates strings, and a line chart's `int(y)` label then raises, which ends the file's group loop.
- Duplicate CSV header names are not modelled: pandas renames them (`a`, `a.1`), and the model assumes distinct headers.
- Pipeline.GroupChart: a group column equal to the synthetic `calculated_value` column is not modelled. pandas would use the column as both key and measure.
- Pipeline.FileCharts: an unexpected exception during one file (anything other than those named above) is not modelled. The source logs it and moves on.
- Path parsing of the matched file names is not modelled. A path is given already split into its parent and its final component.
- Python-version differences in `PurePath.suffix` are not modelled. The model follows the rule for a final component that is not empty and not `.`/`..`.
- `main.py` (argument parsing and the process exit code) is not part of this model.
