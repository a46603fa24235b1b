/**
 * The two validators of lib/dashboard-rules.ts and the chart-type lists of
 * its `DASHBOARD_RULES.CHARTS`. Both validators test substring containment
 * only, so they are monotone in the text.
 */
module DashboardRules {
  import opened Text
  import opened Records
  import opened TypeInference
  import opened Charts

  /** `DASHBOARD_RULES.CHARTS.ALLOWED_TYPES`. */
  const AllowedTypes: seq<string> := ["line", "bar", "pie", "area", "scatter", "heatmap", "histogram", "funnel"]

  /** `DASHBOARD_RULES.CHARTS.FORBIDDEN_TYPES`. */
  const ForbiddenTypes: seq<string> := ["progress", "gauge", "speedometer"]

  /** `validateDashboardStructure`: a header, KPI cards, charts and a grid are each mentioned (case-sensitively). */
  predicate ValidateDashboardStructure(component: string)
  {
    var hasHeader := Contains(component, "header") || Contains(component, "Header");
    var hasKpiCards := Contains(component, "KPI") || Contains(component, "Card");
    var hasCharts := Contains(component, "Chart") || Contains(component, "Recharts");
    var hasGrid := Contains(component, "Grid") || Contains(component, "grid");
    hasHeader && hasKpiCards && hasCharts && hasGrid
  }

  /** `types.some(type => text.includes(type.toLowerCase()))`. */
  predicate SomeIncluded(text: string, types: seq<string>)
  {
    types != [] && (Contains(text, Lower(types[0])) || SomeIncluded(text, types[1..]))
  }

  /** `validateChartTypes`: no forbidden type occurs in the lowercased component. */
  predicate ValidateChartTypes(component: string)
  {
    !SomeIncluded(Lower(component), ForbiddenTypes)
  }

  /** The chart-type check passes exactly when none of the three forbidden words occurs in the lowercased text. */
  lemma ChartTypesExactly(component: string)
    ensures ValidateChartTypes(component)
            <==> !Contains(Lower(component), "progress") && !Contains(Lower(component), "gauge")
                 && !Contains(Lower(component), "speedometer")
  {
    var text := Lower(component);
    var rest := ForbiddenTypes[1..];
    assert rest == ["gauge", "speedometer"] && rest[1..] == ["speedometer"] && rest[1..][1..] == [];
    assert Lower("progress") == "progress" && Lower("gauge") == "gauge" && Lower("speedometer") == "speedometer";
    assert SomeIncluded(text, ForbiddenTypes) <==> Contains(text, "progress") || SomeIncluded(text, rest);
    assert SomeIncluded(text, rest) <==> Contains(text, "gauge") || SomeIncluded(text, rest[1..]);
    assert SomeIncluded(text, rest[1..]) <==> Contains(text, "speedometer");
  }

  /** Substrings of `s` stay substrings of `s + t`. */
  lemma SomeIncludedAppend(s: string, t: string, types: seq<string>)
    requires SomeIncluded(s, types)
    ensures SomeIncluded(s + t, types)
  {
    if Contains(s, Lower(types[0])) {
      ContainsAppend(s, t, Lower(types[0]));
    } else {
      SomeIncludedAppend(s, t, types[1..]);
    }
  }

  /** Appending text keeps a valid structure valid. */
  lemma StructureMonotone(component: string, more: string)
    requires ValidateDashboardStructure(component)
    ensures ValidateDashboardStructure(component + more)
  {
    forall w | Contains(component, w)
      ensures Contains(component + more, w)
    {
      ContainsAppend(component, more, w);
    }
  }

  /** Appending text never turns a failed chart-type check into a pass. */
  lemma ChartTypesMonotone(component: string, more: string)
    requires !ValidateChartTypes(component)
    ensures !ValidateChartTypes(component + more)
  {
    LowerConcat(component, more);
    SomeIncludedAppend(Lower(component), Lower(more), ForbiddenTypes);
  }

  /** The type name that a chart recommendation carries. */
  function ChartTypeName(k: ChartType): string
  {
    match k
    case LineChart => "line"
    case BarChart => "bar"
    case PieChart => "pie"
    case AreaChart => "area"
    case ScatterChart => "scatter"
    case HeatmapChart => "heatmap"
    case HistogramChart => "histogram"
    case FunnelChart => "funnel"
  }

  /** No type is both allowed and forbidden. */
  lemma AllowedForbiddenDisjoint()
    ensures forall i, j :: 0 <= i < |AllowedTypes| && 0 <= j < |ForbiddenTypes| ==> AllowedTypes[i] != ForbiddenTypes[j]
  {
    forall i, j | 0 <= i < |AllowedTypes| && 0 <= j < |ForbiddenTypes|
      ensures AllowedTypes[i] != ForbiddenTypes[j]
    {
      assert AllowedTypes[i][0] != ForbiddenTypes[j][0] || |AllowedTypes[i]| != |ForbiddenTypes[j]|;
    }
  }

  /** Every type a chart recommendation can carry is allowed, and none is forbidden. */
  lemma ChartTypesAllowed(k: ChartType)
    ensures ChartTypeName(k) in AllowedTypes && ChartTypeName(k) !in ForbiddenTypes
  {
    AllowedForbiddenDisjoint();
    var i := match k
      case LineChart => 0
      case BarChart => 1
      case PieChart => 2
      case AreaChart => 3
      case ScatterChart => 4
      case HeatmapChart => 5
      case HistogramChart => 6
      case FunnelChart => 7;
    assert AllowedTypes[i] == ChartTypeName(k);
  }

  /** Every chart `recommendCharts` emits has an allowed type, and one of line, bar, pie, scatter and histogram. */
  lemma RecommendedChartsAllowed(headers: seq<string>, rows: seq<seq<Cell>>, types: map<string, ColumnType>, i: nat)
    requires i < |RecommendedCharts(headers, rows, types)|
    ensures var k := RecommendedCharts(headers, rows, types)[i].plot.kind;
      ChartTypeName(k) in AllowedTypes && ChartTypeName(k) !in ForbiddenTypes && ChartTypeName(k) in ["line", "bar", "pie", "scatter", "histogram"]
  {
    var cats := CategoryColumns(headers, types);
    var numeric := NumericColumns(headers, types);
    var dates := DateColumns(headers, types);
    var ps := Plots(numeric, dates, cats, TopUnique(headers, rows, cats));
    EmittedKinds(numeric, dates, cats, TopUnique(headers, rows, cats));
    assert RecommendedCharts(headers, rows, types)[i].plot == ps[i];
    ChartTypesAllowed(ps[i].kind);
  }
}
