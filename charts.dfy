/**
 * `recommendCharts` of `DataReasoningEngine` (lib/data-reasoning.ts): up to
 * six charts chosen from the numeric, date and string columns, numbered by
 * a priority counter that starts at 10 and drops by one per chart, then
 * sorted by priority.
 */
module Charts {
  import opened Wrappers
  import opened Seqs
  import opened Records
  import opened TypeInference
  import opened KeywordRules
  import opened ColumnStats

  datatype ChartType = LineChart | BarChart | PieChart | AreaChart | ScatterChart | HeatmapChart | HistogramChart | FunnelChart

  /** What a recommendation plots; its title, description and reasoning text are not modelled. */
  datatype Plot = Plot(kind: ChartType, xAxis: string, yAxis: string, groupBy: Option<string>, aggregation: Aggregation)

  datatype Chart = Chart(plot: Plot, priority: int)

  /** The y-axis label of the histogram. */
  const Frequency: string := "frequency"

  /** The trend lines, one per given numeric column, over the given date column. */
  function LinePlots(cols: seq<string>, date: string): (ps: seq<Plot>)
    ensures |ps| == |cols|
    ensures forall i :: 0 <= i < |cols| ==> ps[i] == Plot(LineChart, date, cols[i], None, AggregationFor(cols[i]))
  {
    if cols == [] then []
    else
      var c := cols[|cols| - 1];
      LinePlots(cols[..|cols| - 1], date) + [Plot(LineChart, date, c, None, AggregationFor(c))]
  }

  /** The category chart: a pie for at most 8 distinct values of the first string column, otherwise a bar. */
  function CategoryPlot(numeric: seq<string>, cats: seq<string>, topUnique: nat): Plot
    requires |numeric| > 0 && |cats| > 0
  {
    Plot(if topUnique <= 8 then PieChart else BarChart, cats[0], numeric[0], None, AggregationFor(numeric[0]))
  }

  function ScatterPlot(numeric: seq<string>): Plot
    requires |numeric| >= 2
  {
    Plot(ScatterChart, numeric[0], numeric[1], None, Sum)
  }

  function HistogramPlot(numeric: seq<string>): Plot
    requires |numeric| > 0
  {
    Plot(HistogramChart, numeric[0], Frequency, None, CountOf)
  }

  function GroupedBarPlot(numeric: seq<string>, cats: seq<string>): Plot
    requires |numeric| > 0 && |cats| >= 2
  {
    Plot(BarChart, cats[0], numeric[0], Some(cats[1]), AggregationFor(numeric[0]))
  }

  function TrendPart(numeric: seq<string>, dates: seq<string>): seq<Plot>
  {
    if |dates| > 0 && |numeric| > 0 then LinePlots(Take(numeric, 2), dates[0]) else []
  }

  function CategoryPart(numeric: seq<string>, cats: seq<string>, topUnique: nat): seq<Plot>
  {
    if |cats| > 0 && |numeric| > 0 then [CategoryPlot(numeric, cats, topUnique)] else []
  }

  function ScatterPart(numeric: seq<string>): seq<Plot>
  {
    if |numeric| >= 2 then [ScatterPlot(numeric)] else []
  }

  function HistogramPart(numeric: seq<string>): seq<Plot>
  {
    if |numeric| > 0 then [HistogramPlot(numeric)] else []
  }

  function GroupedPart(numeric: seq<string>, cats: seq<string>): seq<Plot>
  {
    if |cats| >= 2 && |numeric| > 0 then [GroupedBarPlot(numeric, cats)] else []
  }

  /** The plots in the order the five blocks of `recommendCharts` push them. */
  function Plots(numeric: seq<string>, dates: seq<string>, cats: seq<string>, topUnique: nat): seq<Plot>
  {
    TrendPart(numeric, dates) + CategoryPart(numeric, cats, topUnique) + ScatterPart(numeric)
    + HistogramPart(numeric) + GroupedPart(numeric, cats)
  }

  /** The charts of `ps`, the `i`-th taking priority `start - i` from the decreasing counter. */
  function Numbered(ps: seq<Plot>, start: int): (cs: seq<Chart>)
    ensures |cs| == |ps|
    ensures forall i :: 0 <= i < |ps| ==> cs[i] == Chart(ps[i], start - i)
  {
    seq(|ps|, i requires 0 <= i < |ps| => Chart(ps[i], start - i))
  }

  lemma NumberedSnoc(ps: seq<Plot>, p: Plot, start: int)
    ensures Numbered(ps + [p], start) == Numbered(ps, start) + [Chart(p, start - |ps|)]
  {
  }

  /** The sort key, `b.priority - a.priority`. */
  function PriorityOf(c: Chart): real
  {
    c.priority as real
  }

  /** The distinct-value count of the first string column, when there is one. */
  function TopUnique(headers: seq<string>, rows: seq<seq<Cell>>, cats: seq<string>): nat
  {
    if |cats| > 0 then UniqueValueCount(headers, rows, cats[0]) else 0
  }

  /** What `recommendCharts` returns for a dataset. */
  function RecommendedCharts(headers: seq<string>, rows: seq<seq<Cell>>, types: map<string, ColumnType>): seq<Chart>
  {
    var cats := CategoryColumns(headers, types);
    Numbered(Plots(NumericColumns(headers, types), DateColumns(headers, types), cats, TopUnique(headers, rows, cats)), 10)
  }

  /** One `charts.push({…, priority: priority--})`. */
  method Push(charts: seq<Chart>, priority: int, ghost plots: seq<Plot>, p: Plot)
    returns (charts': seq<Chart>, priority': int, ghost plots': seq<Plot>)
    requires charts == Numbered(plots, 10) && priority == 10 - |plots|
    ensures plots' == plots + [p]
    ensures charts' == Numbered(plots', 10) && priority' == 10 - |plots'|
  {
    charts' := charts + [Chart(p, priority)];
    priority' := priority - 1;
    plots' := plots + [p];
    NumberedSnoc(plots, p, 10);
  }

  /** The time-series block: a line per each of the first two numeric columns, when there is a date column. */
  method PushTrendLines(numeric: seq<string>, dates: seq<string>)
    returns (charts: seq<Chart>, priority: int, ghost plots: seq<Plot>)
    ensures plots == TrendPart(numeric, dates)
    ensures charts == Numbered(plots, 10) && priority == 10 - |plots|
  {
    charts, priority, plots := [], 10, [];
    if |dates| > 0 && |numeric| > 0 {
      var lines := Take(numeric, 2);
      for i := 0 to |lines|
        invariant plots == LinePlots(lines[..i], dates[0])
        invariant charts == Numbered(plots, 10) && priority == 10 - |plots|
      {
        assert lines[..i + 1][..i] == lines[..i];
        charts, priority, plots := Push(charts, priority, plots, Plot(LineChart, dates[0], lines[i], None, AggregationFor(lines[i])));
      }
      assert lines[..|lines|] == lines;
    }
  }

  /** The five conditional blocks of `recommendCharts`, over the column lists. */
  method PushCharts(headers: seq<string>, rows: seq<seq<Cell>>, numeric: seq<string>, dates: seq<string>, cats: seq<string>)
    returns (charts: seq<Chart>)
    ensures charts == Numbered(Plots(numeric, dates, cats, TopUnique(headers, rows, cats)), 10)
  {
    var priority;
    ghost var plots;
    charts, priority, plots := PushTrendLines(numeric, dates);
    if |cats| > 0 && |numeric| > 0 {
      var topUnique := UniqueValueCount(headers, rows, cats[0]);
      if topUnique <= 8 {
        charts, priority, plots := Push(charts, priority, plots, Plot(PieChart, cats[0], numeric[0], None, AggregationFor(numeric[0])));
      } else {
        charts, priority, plots := Push(charts, priority, plots, Plot(BarChart, cats[0], numeric[0], None, AggregationFor(numeric[0])));
      }
    }
    ghost var head := plots;
    assert head == TrendPart(numeric, dates) + CategoryPart(numeric, cats, TopUnique(headers, rows, cats));
    if |numeric| >= 2 {
      charts, priority, plots := Push(charts, priority, plots, Plot(ScatterChart, numeric[0], numeric[1], None, Sum));
    }
    assert plots == head + ScatterPart(numeric);
    ghost var withScatter := plots;
    if |numeric| > 0 {
      charts, priority, plots := Push(charts, priority, plots, Plot(HistogramChart, numeric[0], Frequency, None, CountOf));
    }
    assert plots == withScatter + HistogramPart(numeric);
    ghost var withHistogram := plots;
    if |cats| >= 2 && |numeric| > 0 {
      charts, priority, plots := Push(charts, priority, plots, Plot(BarChart, cats[0], numeric[0], Some(cats[1]), AggregationFor(numeric[0])));
    }
    assert plots == withHistogram + GroupedPart(numeric, cats);
  }

  /** `recommendCharts`: the five conditional blocks, then the sort by priority. */
  method RecommendCharts(headers: seq<string>, rows: seq<seq<Cell>>, types: map<string, ColumnType>)
    returns (charts: seq<Chart>)
    ensures charts == RecommendedCharts(headers, rows, types)
  {
    var numeric := NumericColumns(headers, types);
    var dates := DateColumns(headers, types);
    var cats := CategoryColumns(headers, types);
    var built := PushCharts(headers, rows, numeric, dates, cats);
    NumberedOrdered(Plots(numeric, dates, cats, TopUnique(headers, rows, cats)), 10);
    SortDescOfOrdered(built, PriorityOf);
    charts := SortDesc(built, PriorityOf);
  }

  // ----- Properties -----

  /** Numbering by a decreasing counter gives strictly decreasing priorities, so the sort changes nothing. */
  lemma NumberedOrdered(ps: seq<Plot>, start: int)
    ensures NonIncreasing(Numbered(ps, start), PriorityOf)
    ensures forall i, j :: 0 <= i < j < |ps| ==> Numbered(ps, start)[i].priority > Numbered(ps, start)[j].priority
  {
  }

  /** There are at most six plots, and at most two from the trend block. */
  lemma PlotCount(numeric: seq<string>, dates: seq<string>, cats: seq<string>, topUnique: nat)
    ensures |TrendPart(numeric, dates)| <= 2
    ensures |Plots(numeric, dates, cats, topUnique)| <= 6
  {
  }

  /**
   * The charts in order: priorities 10, 9, … in construction order (so at
   * most six charts, none below priority 5); line charts only in the first
   * two places, only with a date column, and all over the first date column;
   * and no chart at all without a numeric column.
   */
  lemma ChartsInOrder(numeric: seq<string>, dates: seq<string>, cats: seq<string>, topUnique: nat)
    ensures var cs := Numbered(Plots(numeric, dates, cats, topUnique), 10);
      && |cs| <= 6
      && (forall i :: 0 <= i < |cs| ==> cs[i].priority == 10 - i && cs[i].priority >= 5)
      && (forall i, j :: 0 <= i < j < |cs| ==> cs[i].priority > cs[j].priority)
      && (forall i :: 0 <= i < |cs| && cs[i].plot.kind == LineChart ==>
            i < 2 && |dates| > 0 && cs[i].plot.xAxis == dates[0] && cs[i].plot.yAxis in numeric)
      && (|numeric| == 0 ==> cs == [])
  {
    var ps := Plots(numeric, dates, cats, topUnique);
    PlotCount(numeric, dates, cats, topUnique);
    NumberedOrdered(ps, 10);
    LinesFirst(numeric, dates, cats, topUnique);
  }

  /** Only the trend block makes line charts, all over the first date column. */
  lemma LinesFirst(numeric: seq<string>, dates: seq<string>, cats: seq<string>, topUnique: nat)
    ensures var ps := Plots(numeric, dates, cats, topUnique);
      forall i :: 0 <= i < |ps| && ps[i].kind == LineChart ==>
        i < |TrendPart(numeric, dates)| && |dates| > 0 && ps[i].xAxis == dates[0] && ps[i].yAxis in numeric
  {
    var ps := Plots(numeric, dates, cats, topUnique);
    var trend := TrendPart(numeric, dates);
    var rest := LaterParts(numeric, cats, topUnique);
    assert ps == trend + rest;
    TrendLines(numeric, dates);
    NoLaterLines(numeric, cats, topUnique);
    forall i | 0 <= i < |ps| && ps[i].kind == LineChart
      ensures i < |trend| && |dates| > 0 && ps[i].xAxis == dates[0] && ps[i].yAxis in numeric
    {
      if i >= |trend| {
        assert false;
      }
      assert ps[i] == trend[i];
    }
  }

  /** The blocks after the trend lines. */
  function LaterParts(numeric: seq<string>, cats: seq<string>, topUnique: nat): seq<Plot>
  {
    CategoryPart(numeric, cats, topUnique) + ScatterPart(numeric) + HistogramPart(numeric) + GroupedPart(numeric, cats)
  }

  lemma TrendLines(numeric: seq<string>, dates: seq<string>)
    ensures forall i :: 0 <= i < |TrendPart(numeric, dates)| ==>
      TrendPart(numeric, dates)[i].kind == LineChart && |dates| > 0 && TrendPart(numeric, dates)[i].xAxis == dates[0] && TrendPart(numeric, dates)[i].yAxis in numeric
  {
    if |dates| > 0 && |numeric| > 0 {
      var lines := Take(numeric, 2);
      var trend := LinePlots(lines, dates[0]);
      assert TrendPart(numeric, dates) == trend;
      forall i | 0 <= i < |TrendPart(numeric, dates)|
        ensures TrendPart(numeric, dates)[i].kind == LineChart && TrendPart(numeric, dates)[i].xAxis == dates[0] && TrendPart(numeric, dates)[i].yAxis in numeric
      {
        assert TrendPart(numeric, dates)[i] == trend[i];
        assert trend[i].yAxis == lines[i] == numeric[i];
      }
    } else {
      assert TrendPart(numeric, dates) == [];
    }
  }

  lemma NoLaterLines(numeric: seq<string>, cats: seq<string>, topUnique: nat)
    ensures forall i :: 0 <= i < |LaterParts(numeric, cats, topUnique)| ==> LaterParts(numeric, cats, topUnique)[i].kind != LineChart
  {
    var rest := LaterParts(numeric, cats, topUnique);
    forall i | 0 <= i < |rest|
      ensures rest[i].kind != LineChart
    {
      var c, sc, h := CategoryPart(numeric, cats, topUnique), ScatterPart(numeric), HistogramPart(numeric);
      if i < |c| {
        assert rest[i] == c[i];
      } else if i < |c| + |sc| {
        assert rest[i] == sc[i - |c|];
      } else if i < |c| + |sc| + |h| {
        assert rest[i] == h[i - |c| - |sc|];
      } else {
        assert rest[i] == GroupedPart(numeric, cats)[i - |c| - |sc| - |h|];
      }
    }
  }

  /**
   * With a numeric and a string column, the chart after the trend lines is
   * a pie exactly when the first string column has at most 8 distinct
   * values, and a bar otherwise; it plots the first numeric column over the
   * first string column. Without both kinds of column there is no pie.
   */
  lemma PieOrBar(numeric: seq<string>, dates: seq<string>, cats: seq<string>, topUnique: nat)
    ensures var cs := Numbered(Plots(numeric, dates, cats, topUnique), 10);
      var k := |TrendPart(numeric, dates)|;
      && (|cats| > 0 && |numeric| > 0 ==>
            k < |cs| && cs[k].plot.xAxis == cats[0] && cs[k].plot.yAxis == numeric[0]
            && cs[k].plot.groupBy.None?
            && (cs[k].plot.kind == PieChart <==> topUnique <= 8)
            && (cs[k].plot.kind == BarChart <==> topUnique > 8))
      && ((exists i :: 0 <= i < |cs| && cs[i].plot.kind == PieChart) <==> |cats| > 0 && |numeric| > 0 && topUnique <= 8)
  {
    var ps := Plots(numeric, dates, cats, topUnique);
    var trend := TrendPart(numeric, dates);
    var cat := CategoryPart(numeric, cats, topUnique);
    var rest := ScatterPart(numeric) + HistogramPart(numeric) + GroupedPart(numeric, cats);
    assert ps == trend + cat + rest;
    forall i | 0 <= i < |ps|
      ensures ps[i].kind == PieChart ==> |cats| > 0 && |numeric| > 0 && topUnique <= 8
    {
      if i < |trend| {
      } else if i < |trend| + |cat| {
        assert ps[i] == cat[i - |trend|];
      } else {
        assert ps[i] == rest[i - |trend| - |cat|];
      }
    }
    if |cats| > 0 && |numeric| > 0 {
      assert ps[|trend|] == cat[0];
    }
  }

  /** The kinds `recommendCharts` can produce. */
  predicate Emittable(k: ChartType)
  {
    k == LineChart || k == BarChart || k == PieChart || k == ScatterChart || k == HistogramChart
  }

  predicate AllEmittable(ps: seq<Plot>)
  {
    forall i :: 0 <= i < |ps| ==> Emittable(ps[i].kind)
  }

  lemma EmittableAppend(a: seq<Plot>, b: seq<Plot>)
    requires AllEmittable(a) && AllEmittable(b)
    ensures AllEmittable(a + b)
  {
    forall i | 0 <= i < |a + b|
      ensures Emittable((a + b)[i].kind)
    {
      if i >= |a| {
        assert (a + b)[i] == b[i - |a|];
      }
    }
  }

  /** Every emitted chart is a line, pie, bar, scatter or histogram chart. */
  lemma EmittedKinds(numeric: seq<string>, dates: seq<string>, cats: seq<string>, topUnique: nat)
    ensures AllEmittable(Plots(numeric, dates, cats, topUnique))
  {
    PartsEmittable(numeric, dates, cats, topUnique);
    var head := TrendPart(numeric, dates) + CategoryPart(numeric, cats, topUnique);
    EmittableAppend(TrendPart(numeric, dates), CategoryPart(numeric, cats, topUnique));
    EmittableAppend(head, ScatterPart(numeric));
    EmittableAppend(head + ScatterPart(numeric), HistogramPart(numeric));
    EmittableAppend(head + ScatterPart(numeric) + HistogramPart(numeric), GroupedPart(numeric, cats));
  }

  lemma PartsEmittable(numeric: seq<string>, dates: seq<string>, cats: seq<string>, topUnique: nat)
    ensures AllEmittable(TrendPart(numeric, dates)) && AllEmittable(CategoryPart(numeric, cats, topUnique))
    ensures AllEmittable(ScatterPart(numeric)) && AllEmittable(HistogramPart(numeric)) && AllEmittable(GroupedPart(numeric, cats))
  {
    TrendLines(numeric, dates);
    SinglePartsEmittable(numeric, cats);
  }

  lemma SinglePartsEmittable(numeric: seq<string>, cats: seq<string>)
    ensures AllEmittable(ScatterPart(numeric)) && AllEmittable(HistogramPart(numeric)) && AllEmittable(GroupedPart(numeric, cats))
  {
  }

  /** A dataset without integer or float columns gets no chart at all. */
  lemma NoNumericNoCharts(headers: seq<string>, rows: seq<seq<Cell>>, types: map<string, ColumnType>)
    requires forall h :: h in headers ==> !IsNumericType(TypeOf(types, h))
    ensures RecommendedCharts(headers, rows, types) == []
  {
    var numeric := NumericColumns(headers, types);
    var cats := CategoryColumns(headers, types);
    ChartsInOrder(numeric, DateColumns(headers, types), cats, TopUnique(headers, rows, cats));
  }

  /**
   * For a dataset with a numeric and a string column, some chart is a pie
   * exactly when the first string column has at most 8 distinct values
   * other than null, undefined and ''.
   */
  lemma PieForFewCategories(headers: seq<string>, rows: seq<seq<Cell>>, types: map<string, ColumnType>)
    requires |NumericColumns(headers, types)| > 0 && |CategoryColumns(headers, types)| > 0
    ensures var cs := RecommendedCharts(headers, rows, types);
      (exists i :: 0 <= i < |cs| && cs[i].plot.kind == PieChart)
      <==> UniqueValueCount(headers, rows, CategoryColumns(headers, types)[0]) <= 8
  {
    var numeric := NumericColumns(headers, types);
    var dates := DateColumns(headers, types);
    var cats := CategoryColumns(headers, types);
    var t := TopUnique(headers, rows, cats);
    assert t == UniqueValueCount(headers, rows, cats[0]);
    assert RecommendedCharts(headers, rows, types) == Numbered(Plots(numeric, dates, cats, t), 10);
    PieOrBar(numeric, dates, cats, t);
  }
}
