/**
 * Chart-kind dispatch and output naming. Drawing and saving are not modelled:
 * a `Chart` records the file the renderer writes and the data it plots.
 */
module Charts {
  import opened Wrappers
  import opened Json
  import opened Aggregate

  datatype ChartKind = Line | Bar

  /** The `chart_type` spelling of a kind, which is also the last part of the file name. */
  function KindName(k: ChartKind): string {
    match k
    case Line => "line"
    case Bar => "bar"
  }

  /** The `chart_type` comparison: only the exact strings "line" and "bar" select a renderer. */
  function Dispatch(v: JValue): (r: Option<ChartKind>)
    ensures r.Some? <==> v == JStr("line") || v == JStr("bar")
    ensures r.Some? ==> v == JStr(KindName(r.value))
  {
    if v == JStr("line") then Some(Line)
    else if v == JStr("bar") then Some(Bar)
    else None
  }

  /** A file path split into its parent directory and its final component. */
  datatype Path = Path(parent: string, name: string)

  /** The index of the last '.' of `name`, or -1 (`name.rfind('.')`). */
  function LastDot(name: string): (r: int)
    ensures -1 <= r < |name|
    ensures r >= 0 ==> name[r] == '.'
    ensures forall j :: r < j < |name| ==> name[j] != '.'
  {
    if name == [] then -1
    else if name[|name| - 1] == '.' then |name| - 1
    else LastDot(name[..|name| - 1])
  }

  /** `PurePath.suffix`: from the last dot on, unless that dot leads the name or ends it. */
  function Suffix(name: string): (r: string)
    ensures r == "" || (|r| >= 2 && r[0] == '.' && '.' !in r[1..])
    ensures LastDot(name) <= 0 ==> r == ""
  {
    var i := LastDot(name);
    if 0 < i < |name| - 1 then name[i..] else ""
  }

  /** `PurePath.stem`: the name without its suffix. */
  function Stem(name: string): string {
    var i := LastDot(name);
    if 0 < i < |name| - 1 then name[..i] else name
  }

  /** The stem followed by the suffix gives back the name. */
  lemma StemThenSuffix(name: string)
    ensures Stem(name) + Suffix(name) == name
  {
    var i := LastDot(name);
    if 0 < i < |name| - 1 {
      assert name[..i] + name[i..] == name;
    } else {
      assert name + "" == name;
    }
  }

  /** Characters without a dot, appended to a name, leave its last dot where it was. */
  lemma {:induction false} LastDotSkips(s: string, t: string)
    requires '.' !in t
    ensures LastDot(s + t) == LastDot(s)
  {
    if t == [] {
      assert s + t == s;
    } else {
      var init := t[..|t| - 1];
      assert (s + t)[..|s + t| - 1] == s + init;
      assert t[|t| - 1] in t;
      LastDotSkips(s, init);
    }
  }

  /** The stem of `base.ext` is `base`, whatever dots `base` itself contains. */
  lemma StemDropsExtension(base: string, ext: string)
    requires base != [] && ext != [] && '.' !in ext
    ensures Stem(base + "." + ext) == base
    ensures Suffix(base + "." + ext) == "." + ext
  {
    LastDotSkips(base + ".", ext);
    assert (base + ".")[..|base|] == base;
    assert (base + "." + ext)[..|base|] == base;
  }

  /** A name whose only dot leads it, like `.csv`, has no suffix: its stem is the whole name. */
  lemma LeadingDotIsStem(ext: string)
    requires '.' !in ext
    ensures Stem("." + ext) == "." + ext
    ensures Suffix("." + ext) == ""
  {
    LastDotSkips(".", ext);
  }

  /** A name ending in a dot, like `data.`, has no suffix either. */
  lemma TrailingDotIsStem(base: string)
    ensures Stem(base + ".") == base + "."
    ensures Suffix(base + ".") == ""
  {
    assert (base + ".")[|base + "."| - 1] == '.';
  }

  /** `f"{base_filename}_{x_col}_{chart_type}.png"`. */
  function OutputName(base: string, group: string, kind: ChartKind): string {
    base + "_" + group + "_" + KindName(kind) + ".png"
  }

  /** The part of an output name after the group column. */
  function Tail(k: ChartKind): string {
    match k
    case Line => "_line.png"
    case Bar => "_bar.png"
  }

  /** The output name splits after the stem's '_' into the group column and the kind's tail. */
  lemma OutputNameSplits(base: string, group: string, kind: ChartKind)
    ensures OutputName(base, group, kind) == (base + "_") + (group + Tail(kind))
  {
    var b, k := base + "_", KindName(kind);
    assert Tail(kind) == "_" + k + ".png";
    assert b + group + "_" + k + ".png" == b + (group + ("_" + k + ".png"));
  }

  lemma PrefixCancel(a: string, x: string, y: string)
    requires a + x == a + y
    ensures x == y
  {
    assert x == (a + x)[|a|..];
    assert y == (a + y)[|a|..];
  }

  /** No name ends both in "_line.png" and in "_bar.png" after a group column. */
  lemma LineTailIsNotBarTail(a: string, b: string)
    ensures a + Tail(Line) != b + Tail(Bar)
  {
    var x, y := a + Tail(Line), b + Tail(Bar);
    if |x| == |y| {
      assert x[|a| + 1] == 'l';
      assert y[|a| + 1] == '_';
    }
  }

  /** A group column followed by a kind's tail determines both. */
  lemma TailDetermines(g1: string, k1: ChartKind, g2: string, k2: ChartKind)
    requires g1 + Tail(k1) == g2 + Tail(k2)
    ensures g1 == g2 && k1 == k2
  {
    var s := g1 + Tail(k1);
    if k1 == Line && k2 == Bar {
      LineTailIsNotBarTail(g1, g2);
    } else if k1 == Bar && k2 == Line {
      LineTailIsNotBarTail(g2, g1);
    }
    assert g1 == s[..|g1|];
    assert g2 == s[..|g2|];
  }

  /**
   * For one source file, different group columns or kinds never share an
   * output name, so the charts of one file never overwrite one another.
   */
  lemma OutputNameInjective(base: string, g1: string, k1: ChartKind, g2: string, k2: ChartKind)
    requires OutputName(base, g1, k1) == OutputName(base, g2, k2)
    ensures g1 == g2 && k1 == k2
  {
    OutputNameSplits(base, g1, k1);
    OutputNameSplits(base, g2, k2);
    PrefixCancel(base + "_", g1 + Tail(k1), g2 + Tail(k2));
    TailDetermines(g1, k1, g2, k2);
  }

  /** A chart file written by the renderer: where it goes and what it plots. */
  datatype Chart = Chart(path: Path, kind: ChartKind, xColumn: string, yLabel: JValue, series: seq<Point>)

  /**
   * `_generate_chart` without the drawing: a "line" or "bar" kind yields the
   * chart written as `{stem}_{x_col}_{kind}.png` beside the source file; any
   * other kind yields nothing and raises nothing.
   */
  function GenerateChart(series: seq<Point>, xColumn: string, yLabel: JValue, kind: JValue, source: Path): (r: Option<Chart>)
    ensures r.Some? <==> kind == JStr("line") || kind == JStr("bar")
    ensures r.Some? ==>
      && kind == JStr(KindName(r.value.kind))
      && r.value.path == Path(source.parent, OutputName(Stem(source.name), xColumn, r.value.kind))
      && r.value.xColumn == xColumn && r.value.yLabel == yLabel && r.value.series == series
  {
    match Dispatch(kind)
    case Some(k) => Some(Chart(Path(source.parent, OutputName(Stem(source.name), xColumn, k)), k, xColumn, yLabel, series))
    case None => None
  }
}
