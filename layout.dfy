/**
 * `designDashboardStructure` of `DataReasoningEngine` (lib/data-reasoning.ts):
 * the sections at fixed positions, the filters with their priorities, and
 * the layout choice.
 */
module Layout {
  import opened Seqs
  import opened Records
  import opened TypeInference
  import opened ColumnStats

  datatype SectionKind = KpiRow | ChartGrid | DetailedTable | TrendAnalysis

  /** A section; its title and description are fixed per kind and not modelled. */
  datatype Section = Section(kind: SectionKind, position: int)

  datatype FilterKind = Dropdown | DateRange | MultiSelect | SearchBox | Slider

  datatype DashboardFilter = DashboardFilter(column: string, kind: FilterKind, priority: int)

  datatype LayoutKind = SingleColumn | TwoColumn | Grid | Mixed

  datatype Structure = Structure(layout: LayoutKind, sections: seq<Section>, filters: seq<DashboardFilter>)

  // ----- Sections -----

  /** The sections: kpi-row at 1, trend-analysis at 2 with a date column, chart-grid at 3, detailed-table at 4 beyond 8 headers. */
  function SectionsOf(hasDates: bool, manyHeaders: bool): seq<Section>
  {
    [Section(KpiRow, 1)] + (if hasDates then [Section(TrendAnalysis, 2)] else [])
    + [Section(ChartGrid, 3)] + (if manyHeaders then [Section(DetailedTable, 4)] else [])
  }

  /** The section pushes of `designDashboardStructure`. */
  method DesignSections(headers: seq<string>, dates: seq<string>) returns (sections: seq<Section>)
    ensures sections == SectionsOf(|dates| > 0, |headers| > 8)
  {
    sections := [Section(KpiRow, 1)];
    if |dates| > 0 {
      sections := sections + [Section(TrendAnalysis, 2)];
    }
    sections := sections + [Section(ChartGrid, 3)];
    if |headers| > 8 {
      sections := sections + [Section(DetailedTable, 4)];
    }
  }

  predicate HasSection(sections: seq<Section>, kind: SectionKind)
  {
    exists i :: 0 <= i < |sections| && sections[i].kind == kind
  }

  /**
   * The sections' positions strictly increase and each kind occurs at most
   * once, at its fixed position: the KPI row first at 1 and the chart grid at
   * 3 always, the trend analysis at 2 exactly with a date column, the
   * detailed table at 4 exactly with more than 8 headers.
   */
  lemma SectionPositions(hasDates: bool, manyHeaders: bool)
    ensures var ss := SectionsOf(hasDates, manyHeaders);
      && ss[0] == Section(KpiRow, 1)
      && (forall i, j :: 0 <= i < j < |ss| ==> ss[i].position < ss[j].position)
      && (forall i :: 0 <= i < |ss| ==> ss[i].position == PositionOf(ss[i].kind))
      && HasSection(ss, ChartGrid)
      && (HasSection(ss, TrendAnalysis) <==> hasDates)
      && (HasSection(ss, DetailedTable) <==> manyHeaders)
  {
    var ss := SectionsOf(hasDates, manyHeaders);
    assert ss[if hasDates then 2 else 1].kind == ChartGrid;
    if hasDates {
      assert ss[1].kind == TrendAnalysis;
    }
    if manyHeaders {
      assert ss[|ss| - 1].kind == DetailedTable;
    }
  }

  function PositionOf(kind: SectionKind): int
  {
    match kind
    case KpiRow => 1
    case TrendAnalysis => 2
    case ChartGrid => 3
    case DetailedTable => 4
  }

  // ----- Filters -----

  /** The filter of the `index`-th string column: a dropdown for at most 20 distinct values, a search box otherwise. */
  function CategoryFilter(col: string, uniqueCount: nat, index: int): DashboardFilter
  {
    DashboardFilter(col, if uniqueCount <= 20 then Dropdown else SearchBox, 9 - index)
  }

  /** The filters of the given string columns, `uniq` giving each column's distinct-value count. */
  function CategoryFilters(cols: seq<string>, uniq: string -> nat): (fs: seq<DashboardFilter>)
    ensures |fs| == |cols|
    ensures forall i :: 0 <= i < |cols| ==> fs[i] == CategoryFilter(cols[i], uniq(cols[i]), i)
  {
    seq(|cols|, i requires 0 <= i < |cols| => CategoryFilter(cols[i], uniq(cols[i]), i))
  }

  /** The filters in push order: the date range over the first date column, then the first three string columns. */
  function FiltersOf(dates: seq<string>, cats: seq<string>, uniq: string -> nat): seq<DashboardFilter>
  {
    (if |dates| > 0 then [DashboardFilter(dates[0], DateRange, 10)] else [])
    + CategoryFilters(Take(cats, 3), uniq)
  }

  /** The sort key, `b.priority - a.priority`. */
  function FilterPriority(f: DashboardFilter): real
  {
    f.priority as real
  }

  /** The `forEach` over the first three string columns; `uniq` is `getUniqueValueCount`. */
  method CategoryFilterLoop(first: seq<string>, uniq: string -> nat) returns (filters: seq<DashboardFilter>)
    ensures filters == CategoryFilters(first, uniq)
  {
    filters := [];
    for index := 0 to |first|
      invariant |filters| == index
      invariant forall k :: 0 <= k < index ==> filters[k] == CategoryFilter(first[k], uniq(first[k]), k)
    {
      var col := first[index];
      var uniqueCount := uniq(col);
      filters := filters + [DashboardFilter(col, if uniqueCount <= 20 then Dropdown else SearchBox, 9 - index)];
    }
  }

  /** The filter pushes of `designDashboardStructure`. */
  method DesignFilters(headers: seq<string>, rows: seq<seq<Cell>>, dates: seq<string>, cats: seq<string>)
    returns (filters: seq<DashboardFilter>)
    ensures filters == FiltersOf(dates, cats, UniqueCounts(headers, rows))
  {
    var dateFilter := if |dates| > 0 then [DashboardFilter(dates[0], DateRange, 10)] else [];
    var categoryFilters := CategoryFilterLoop(Take(cats, 3), UniqueCounts(headers, rows));
    filters := dateFilter + categoryFilters;
  }

  /**
   * There are at most four filters, in strictly decreasing priority: 10, 9,
   * 8, 7 with a date column and 9, 8, 7 without, so the sort keeps them as
   * pushed.
   */
  lemma FilterPriorities(dates: seq<string>, cats: seq<string>, uniq: string -> nat)
    ensures |FiltersOf(dates, cats, uniq)| == (if |dates| > 0 then 1 else 0) + |Take(cats, 3)| <= 4
    ensures var fs := FiltersOf(dates, cats, uniq);
      forall i :: 0 <= i < |fs| ==> fs[i].priority == (if |dates| > 0 then 10 else 9) - i
    ensures var fs := FiltersOf(dates, cats, uniq);
      forall i, j :: 0 <= i < j < |fs| ==> fs[i].priority > fs[j].priority
  {
    var fs := FiltersOf(dates, cats, uniq);
    var d := if |dates| > 0 then 1 else 0;
    var catFilters := CategoryFilters(Take(cats, 3), uniq);
    assert forall i :: d <= i < |fs| ==> fs[i] == catFilters[i - d];
  }

  /** A date-range filter exists exactly when there is a date column; it is then first, over the first date column, at priority 10. */
  lemma DateRangeFilter(dates: seq<string>, cats: seq<string>, uniq: string -> nat)
    ensures var fs := FiltersOf(dates, cats, uniq);
      (exists i :: 0 <= i < |fs| && fs[i].kind == DateRange) <==> |dates| > 0
    ensures |dates| > 0 ==> FiltersOf(dates, cats, uniq)[0] == DashboardFilter(dates[0], DateRange, 10)
  {
    var fs := FiltersOf(dates, cats, uniq);
    var d := if |dates| > 0 then 1 else 0;
    var catFilters := CategoryFilters(Take(cats, 3), uniq);
    assert forall i :: d <= i < |fs| ==> fs[i] == catFilters[i - d];
    if |dates| > 0 {
      assert fs[0].kind == DateRange;
    }
  }

  /**
   * After the date range, the first up to three string columns follow in
   * order at priorities 9, 8, 7, each a dropdown exactly when it has at most
   * 20 distinct values and a search box otherwise.
   */
  lemma CategoryFilterKinds(dates: seq<string>, cats: seq<string>, uniq: string -> nat, i: nat)
    requires i < |cats| && i < 3
    ensures var fs := FiltersOf(dates, cats, uniq);
      var d := if |dates| > 0 then 1 else 0;
      && d + i < |fs| && fs[d + i].column == cats[i] && fs[d + i].priority == 9 - i
      && (fs[d + i].kind == Dropdown <==> uniq(cats[i]) <= 20)
      && (fs[d + i].kind == SearchBox <==> uniq(cats[i]) > 20)
  {
    var fs := FiltersOf(dates, cats, uniq);
    var d := if |dates| > 0 then 1 else 0;
    var catFilters := CategoryFilters(Take(cats, 3), uniq);
    assert fs[d + i] == catFilters[i];
    assert Take(cats, 3)[i] == cats[i];
  }

  /** Sorting the filters by priority leaves them as pushed. */
  lemma FiltersSorted(dates: seq<string>, cats: seq<string>, uniq: string -> nat)
    ensures SortDesc(FiltersOf(dates, cats, uniq), FilterPriority) == FiltersOf(dates, cats, uniq)
  {
    FilterPriorities(dates, cats, uniq);
    SortDescOfOrdered(FiltersOf(dates, cats, uniq), FilterPriority);
  }

  // ----- The structure -----

  /** 'grid' beyond four numeric columns, otherwise 'two-column'. */
  function LayoutFor(numericCount: nat): (l: LayoutKind)
    ensures l == Grid <==> numericCount > 4
    ensures l == TwoColumn <==> numericCount <= 4
  {
    if numericCount > 4 then Grid else TwoColumn
  }

  /** What `designDashboardStructure` returns for a dataset. */
  function StructureOf(headers: seq<string>, rows: seq<seq<Cell>>, types: map<string, ColumnType>): Structure
  {
    var dates := DateColumns(headers, types);
    Structure(LayoutFor(|NumericColumns(headers, types)|), SectionsOf(|dates| > 0, |headers| > 8),
              FiltersOf(dates, CategoryColumns(headers, types), UniqueCounts(headers, rows)))
  }

  /** `designDashboardStructure`: sections, filters sorted by priority, and the layout. */
  method DesignDashboardStructure(headers: seq<string>, rows: seq<seq<Cell>>, types: map<string, ColumnType>)
    returns (s: Structure)
    ensures s == StructureOf(headers, rows, types)
  {
    var numeric := NumericColumns(headers, types);
    var cats := CategoryColumns(headers, types);
    var dates := DateColumns(headers, types);
    var sections := DesignSections(headers, dates);
    var filters := DesignFilters(headers, rows, dates, cats);
    FiltersSorted(dates, cats, UniqueCounts(headers, rows));
    s := Structure(LayoutFor(|numeric|), sections, SortDesc(filters, FilterPriority));
  }
}
