/**
 * The visualization section: per chosen column, the totals of the filtered view for
 * each label chosen at the comparison level, drawn as stacked bars, lines or pies
 * with one palette colour per column.
 */
module Charts {
  import opened Wrappers
  import opened Collections
  import opened Dataset
  import opened Filters

  datatype ChartKind = BarChart | LineChart | PieChart

  /**
   * The chart data: the labels chosen at the comparison level and, per chosen column,
   * one total per label (`data`) and a title (`titles`).
   */
  datatype Series = Series(labels: seq<string>, data: seq<seq<real>>, titles: seq<Heading>)

  /**
   * A heading shown with chart data; `Text` spells it out. Bar traces are named after
   * their column; the titles kept per column name the level as "Province", the line
   * and pie figures as "PROVINCE".
   */
  datatype Heading =
    | ColumnHeading(column: Column)
    | SeriesHeading(column: Column, level: Level)
    | ChartHeading(column: Column, level: Level)
  {
    function Text(): string {
      match this
      case ColumnHeading(c) => c.Name()
      case SeriesHeading(c, level) => "Sum of " + c.Name() + " by " + level.Title()
      case ChartHeading(c, level) => "Sum of " + c.Name() + " by " + level.Name()
    }
  }

  /** The per-label totals of each column in `cs`, in column order. */
  function ColumnSeries(view: Table, level: Level, labels: seq<string>, cs: seq<Column>): seq<seq<real>> {
    if cs == [] then []
    else ColumnSeries(view, level, labels, cs[..|cs| - 1]) + [LabelSums(view, level, labels, cs[|cs| - 1])]
  }

  /** The title of each column in `cs`, in column order. */
  function ColumnTitles(cs: seq<Column>, level: Level): seq<Heading> {
    if cs == [] then [] else ColumnTitles(cs[..|cs| - 1], level) + [SeriesHeading(cs[|cs| - 1], level)]
  }

  /** Column j's list holds, for each label in order, column j's total over the rows carrying it. */
  lemma {:induction false} ColumnSeriesEntries(view: Table, level: Level, labels: seq<string>, cs: seq<Column>)
    ensures |ColumnSeries(view, level, labels, cs)| == |cs|
    ensures forall j :: 0 <= j < |cs| ==> ColumnSeries(view, level, labels, cs)[j] == LabelSums(view, level, labels, cs[j])
  {
    if cs != [] {
      ColumnSeriesEntries(view, level, labels, cs[..|cs| - 1]);
    }
  }

  /**
   * The shape of the chart data: one list per column, one entry per label, and entry i
   * of column j's list is column j's total over the rows carrying label i.
   */
  lemma SeriesShape(view: Table, level: Level, labels: seq<string>, cs: seq<Column>)
    ensures |ColumnSeries(view, level, labels, cs)| == |cs|
    ensures forall j :: 0 <= j < |cs| ==> |ColumnSeries(view, level, labels, cs)[j]| == |labels|
    ensures forall j, i :: 0 <= j < |cs| && 0 <= i < |labels| ==>
      ColumnSeries(view, level, labels, cs)[j][i] == ColumnSum(Where(view, level, labels[i]), cs[j])
  {
    ColumnSeriesEntries(view, level, labels, cs);
  }

  /** Column j's title is "Sum of <column j> by <Level>". */
  lemma {:induction false} ColumnTitlesEntries(cs: seq<Column>, level: Level)
    ensures |ColumnTitles(cs, level)| == |cs|
    ensures forall j :: 0 <= j < |cs| ==> ColumnTitles(cs, level)[j] == SeriesHeading(cs[j], level)
  {
    if cs != [] {
      ColumnTitlesEntries(cs[..|cs| - 1], level);
    }
  }

  /**
   * Builds the chart data when columns are chosen and the view has rows (`None`
   * otherwise: the "no columns selected" message): the labels chosen at the comparison
   * level, and per chosen column its per-label totals and its title.
   */
  method BuildSeries(view: Table, s: Selection, level: Level, choices: seq<Column>)
    returns (series: Option<Series>)
    ensures series.None? <==> choices == [] || view == []
    ensures series.Some? ==>
      series.value == Series(s.At(level), ColumnSeries(view, level, s.At(level), choices), ColumnTitles(choices, level))
  {
    if choices == [] || view == [] {
      return None;
    }
    var labels := s.At(level);
    var chartData: seq<seq<real>> := [];
    var chartTitles: seq<Heading> := [];
    for idx := 0 to |choices|
      invariant chartData == ColumnSeries(view, level, labels, choices[..idx])
      invariant chartTitles == ColumnTitles(choices[..idx], level)
    {
      assert choices[..idx + 1][..idx] == choices[..idx];
      var summedData := SumPerLabel(view, level, labels, choices[idx]);
      chartTitles := chartTitles + [SeriesHeading(choices[idx], level)];
      chartData := chartData + [summedData];
    }
    assert choices[..|choices|] == choices;
    return Some(Series(labels, chartData, chartTitles));
  }

  /** One column's list: for each label at the comparison level, the total over its rows. */
  method SumPerLabel(view: Table, level: Level, labels: seq<string>, c: Column) returns (summed: seq<real>)
    ensures summed == LabelSums(view, level, labels, c)
  {
    summed := [];
    for i := 0 to |labels|
      invariant |summed| == i
      invariant forall k :: 0 <= k < i ==> summed[k] == ColumnSum(Where(view, level, labels[k]), c)
    {
      var levelData := Where(view, level, labels[i]);
      summed := summed + [ColumnSum(levelData, c)];
    }
  }

  /**
   * When something is chosen at the comparison level, and nothing twice, the totals for
   * the chosen labels add up to the column's total over the whole filtered view: the
   * stacked bars (and, at the province level, the per-province sums) account for every
   * row once.
   */
  lemma LevelTotalsCoverView(t: Table, s: Selection, level: Level, c: Column)
    requires s.At(level) != [] && NoDuplicates(s.At(level))
    ensures Total(LabelSums(Filtered(t, s), level, s.At(level), c)) == ColumnSum(Filtered(t, s), c)
  {
    var view := Filtered(t, s);
    forall r | r in view ensures Field(r, level) in s.At(level) {
      assert Matches(r, s);
    }
    LabelsPartitionTotal(view, level, s.At(level), c);
  }

  /** A palette colour: column `idx` takes `palette[idx mod |palette|]`, cycling through the palette. */
  function ColorFor<C>(palette: seq<C>, idx: nat): (color: C)
    requires |palette| > 0
    ensures color in palette
    ensures idx < |palette| ==> color == palette[idx]
  {
    palette[idx % |palette|]
  }

  /** Columns whose positions differ by a multiple of the palette length share a colour. */
  lemma {:induction false} ColorsCycle<C>(palette: seq<C>, idx: nat, k: nat)
    requires |palette| > 0
    ensures ColorFor(palette, idx + k * |palette|) == ColorFor(palette, idx)
  {
    var n := |palette|;
    ModOfShift(idx, k, n);
  }

  /** Adding a multiple of `n` does not change the remainder modulo `n`. */
  lemma ModOfShift(a: nat, k: nat, n: nat)
    requires n > 0
    ensures (a + k * n) % n == a % n
  {
    var q, r := a / n, a % n;
    assert a == q * n + r;
    assert a + k * n == (q + k) * n + r;
    ModUnique(a + k * n, n, q + k, r);
  }

  /** The remainder is determined by any division of `a` into a multiple of `n` and a rest below `n`. */
  lemma ModUnique(a: int, n: int, q: int, r: int)
    requires n > 0 && a == q * n + r && 0 <= r < n
    ensures a % n == r
  {
    var q', r' := a / n, a % n;
    assert a == q' * n + r';
    var d := q - q';
    assert d * n == r' - r;
    SmallMultipleIsZero(d, n);
  }

  /** The only multiple of `n` strictly between `-n` and `n` is 0. */
  lemma SmallMultipleIsZero(d: int, n: int)
    requires n > 0 && -n < d * n < n
    ensures d == 0
  {
    if d >= 1 {
      MultipleAtLeast(d, n);
    } else if d <= -1 {
      MultipleAtLeast(-d, n);
    }
  }

  /** A positive multiple of `n` is at least `n`. */
  lemma {:induction false} MultipleAtLeast(d: int, n: int)
    requires d >= 1 && n > 0
    ensures d * n >= n
  {
    if d > 1 {
      MultipleAtLeast(d - 1, n);
      assert d * n == (d - 1) * n + n;
    }
  }

  /** Scenario: with five columns and three colours, the fourth column reuses the first one's colour. */
  lemma FourthColumnReusesFirstColour<C>(palette: seq<C>)
    requires |palette| == 3
    ensures ColorFor(palette, 3) == ColorFor(palette, 0)
  {
    ColorsCycle(palette, 0, 1);
  }

  /** How far each pie slice is pulled out of the pie. */
  const SlicePull: real := 0.1

  /** One trace of a figure: categories, values, its name or title, its colour, the pie's pull-outs. */
  datatype Trace<C> = Trace(x: seq<string>, y: seq<real>, title: Heading, color: Option<C>, pull: seq<real>)

  /**
   * The trace for chart data `data` of the column `c` at position `idx`: bars are named
   * after their column, line and pie figures get a chart title; bars and lines take the
   * palette colour of the position, and every pie slice is pulled out by the same offset.
   */
  function MakeTrace<C>(kind: ChartKind, level: Level, labels: seq<string>, data: seq<real>,
                        c: Column, idx: nat, palette: seq<C>): (trace: Trace<C>)
    requires |palette| > 0
    ensures trace.x == labels && trace.y == data
    ensures trace.title == if kind == BarChart then ColumnHeading(c) else ChartHeading(c, level)
    ensures trace.color == if kind == PieChart then None else Some(palette[idx % |palette|])
    ensures kind == PieChart ==> |trace.pull| == |data| && forall k :: 0 <= k < |data| ==> trace.pull[k] == SlicePull
    ensures kind != PieChart ==> trace.pull == []
  {
    match kind
    case BarChart => Trace(labels, data, ColumnHeading(c), Some(ColorFor(palette, idx)), [])
    case LineChart => Trace(labels, data, ChartHeading(c, level), Some(ColorFor(palette, idx)), [])
    case PieChart => Trace(labels, data, ChartHeading(c, level), None, seq(|data|, _ => SlicePull))
  }

  /** The traces of the first `n` column lists of `series`, in column order. */
  function TracesUpTo<C>(kind: ChartKind, level: Level, series: Series, choices: seq<Column>, palette: seq<C>, n: nat): seq<Trace<C>>
    requires |palette| > 0 && n <= |series.data| && n <= |choices|
  {
    if n == 0 then []
    else TracesUpTo(kind, level, series, choices, palette, n - 1) +
         [MakeTrace(kind, level, series.labels, series.data[n - 1], choices[n - 1], n - 1, palette)]
  }

  /** Trace i is built from column i's list, column i and position i. */
  lemma {:induction false} TracesUpToEntries<C>(kind: ChartKind, level: Level, series: Series, choices: seq<Column>, palette: seq<C>, n: nat)
    requires |palette| > 0 && n <= |series.data| && n <= |choices|
    ensures |TracesUpTo(kind, level, series, choices, palette, n)| == n
    ensures forall i :: 0 <= i < n ==>
      TracesUpTo(kind, level, series, choices, palette, n)[i] ==
      MakeTrace(kind, level, series.labels, series.data[i], choices[i], i, palette)
  {
    if n > 0 {
      TracesUpToEntries(kind, level, series, choices, palette, n - 1);
    }
  }

  /**
   * The figures for the chosen chart type: one trace per column's list of totals, over
   * the comparison level's labels, in column order.
   */
  method BuildTraces<C>(kind: ChartKind, level: Level, series: Series, choices: seq<Column>, palette: seq<C>)
    returns (traces: seq<Trace<C>>)
    requires |palette| > 0
    requires |series.data| <= |choices|
    ensures traces == TracesUpTo(kind, level, series, choices, palette, |series.data|)
  {
    traces := [];
    for idx := 0 to |series.data|
      invariant traces == TracesUpTo(kind, level, series, choices, palette, idx)
    {
      traces := traces + [MakeTrace(kind, level, series.labels, series.data[idx], choices[idx], idx, palette)];
    }
  }
}
