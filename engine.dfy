/**
 * The `DataReasoningEngine` class itself (lib/data-reasoning.ts): the
 * constructor runs the whole analysis once and keeps it, and
 * `generateIntelligentPrompt` lays the analysis out as prompt lines, at most
 * four KPIs, four charts and three filters.
 */
module Engine {
  import opened Seqs
  import opened TypeInference
  import opened KeywordRules
  import opened Kpis
  import opened Charts
  import opened Layout
  import opened Insights
  import opened Quality
  import DataParser

  /** `DataInsights`: everything `analyzeData` derives from a dataset. */
  datatype DataInsights = DataInsights(
    businessContext: BusinessContext,
    keyMetrics: seq<Kpi>,
    chartRecommendations: seq<Chart>,
    analyticalInsights: seq<Insight>,
    dashboardStructure: Structure,
    dataQualityIssues: seq<QualityIssue>)

  /** What `analyzeData` returns for a dataset. */
  function AnalysisOf(data: DataParser.ParsedData): DataInsights
  {
    DataInsights(
      InferBusinessContext(data.headers),
      SortDesc(KpiCandidates(data.headers, data.dataTypes), Rank),
      RecommendedCharts(data.headers, data.rows, data.dataTypes),
      InsightsOf(data.headers, |data.rows|, data.dataTypes),
      StructureOf(data.headers, data.rows, data.dataTypes),
      QualityIssues(data.headers, data.rows, data.dataTypes))
  }

  /** `analyzeData`: the six analyses, each over the same dataset. */
  method AnalyzeData(data: DataParser.ParsedData) returns (ins: DataInsights)
    ensures ins == AnalysisOf(data)
  {
    var businessContext := InferBusinessContext(data.headers);
    var keyMetrics := IdentifyKeyMetrics(data.headers, data.dataTypes);
    var chartRecommendations := RecommendCharts(data.headers, data.rows, data.dataTypes);
    var analyticalInsights := GenerateAnalyticalInsights(data.headers, |data.rows|, data.dataTypes);
    var dashboardStructure := DesignDashboardStructure(data.headers, data.rows, data.dataTypes);
    var dataQualityIssues := AssessDataQuality(data.headers, data.rows, data.dataTypes);
    ins := DataInsights(businessContext, keyMetrics, chartRecommendations, analyticalInsights,
                        dashboardStructure, dataQualityIssues);
  }

  // ----- Prompt lines -----

  /** A line (or block of lines) of the enhanced prompt; the wording around the values is not modelled. */
  datatype PromptLine =
    | Request(text: string)
    | AnalysisHeading
    | ContextLine(description: string)
    | KpiHeading
    | KpiLine(number: nat, kpi: Kpi)
    | ChartHeading
    | ChartLine(number: nat, chart: Chart)
    | StructureHeading
    | SectionLine(number: nat, section: Section)
    | FilterHeading
    | FilterLine(filter: DashboardFilter)
    | InsightHeading
    | InsightLine(insight: Insight)
    | QualityHeading
    | QualityLine(issue: QualityIssue)
    | Instructions(headers: seq<string>)
    | Closing

  function KpiItem(number: nat, k: Kpi): PromptLine { KpiLine(number, k) }
  function ChartItem(number: nat, c: Chart): PromptLine { ChartLine(number, c) }
  function SectionItem(number: nat, s: Section): PromptLine { SectionLine(number, s) }
  function FilterItem(number: nat, f: DashboardFilter): PromptLine { FilterLine(f) }
  function InsightItem(number: nat, i: Insight): PromptLine { InsightLine(i) }
  function IssueItem(number: nat, q: QualityIssue): PromptLine { QualityLine(q) }

  /** A `forEach((x, index) => …)`: one line per element, numbered from 1. */
  function Listed<T>(xs: seq<T>, item: (nat, T) -> PromptLine): (ls: seq<PromptLine>)
    ensures |ls| == |xs|
    ensures forall i :: 0 <= i < |xs| ==> ls[i] == item(i + 1, xs[i])
  {
    seq(|xs|, i requires 0 <= i < |xs| => item(i + 1, xs[i]))
  }

  /** The loop of one `forEach`. */
  method ListLoop<T>(xs: seq<T>, item: (nat, T) -> PromptLine) returns (ls: seq<PromptLine>)
    ensures ls == Listed(xs, item)
  {
    ls := [];
    for index := 0 to |xs|
      invariant |ls| == index
      invariant forall k :: 0 <= k < index ==> ls[k] == item(k + 1, xs[k])
    {
      ls := ls + [item(index + 1, xs[index])];
    }
  }

  /** The block that is written only for a non-empty list: its heading, then its lines. */
  function Optional<T>(heading: PromptLine, xs: seq<T>, item: (nat, T) -> PromptLine): seq<PromptLine>
  {
    if |xs| > 0 then [heading] + Listed(xs, item) else []
  }

  /** The prompt, given the already capped lists. */
  function PromptFrom(userPrompt: string, description: string, kpis: seq<Kpi>, charts: seq<Chart>,
                      sections: seq<Section>, filters: seq<DashboardFilter>, insights: seq<Insight>,
                      issues: seq<QualityIssue>, headers: seq<string>): seq<PromptLine>
  {
    [Request(userPrompt), AnalysisHeading, ContextLine(description), KpiHeading] + Listed(kpis, KpiItem)
    + [ChartHeading] + Listed(charts, ChartItem)
    + [StructureHeading] + Listed(sections, SectionItem)
    + Optional(FilterHeading, filters, FilterItem)
    + [InsightHeading] + Listed(insights, InsightItem)
    + Optional(QualityHeading, issues, IssueItem)
    + [Instructions(headers), Closing]
  }

  /** What `generateIntelligentPrompt` writes for an analysis of a dataset with these headers. */
  function IntelligentPrompt(userPrompt: string, ins: DataInsights, headers: seq<string>): seq<PromptLine>
  {
    PromptFrom(userPrompt, ContextDescription(ins.businessContext), Take(ins.keyMetrics, 4),
               Take(ins.chartRecommendations, 4), ins.dashboardStructure.sections,
               Take(ins.dashboardStructure.filters, 3), ins.analyticalInsights, ins.dataQualityIssues, headers)
  }

  class DataReasoningEngine {
    const data: DataParser.ParsedData
    const insights: DataInsights

    /** The constructor: keeps the dataset and analyses it once. */
    constructor(data: DataParser.ParsedData)
      ensures this.data == data && insights == AnalysisOf(data)
    {
      var ins := AnalyzeData(data);
      this.data := data;
      this.insights := ins;
    }

    function GetInsights(): DataInsights { insights }
    function GetRecommendedCharts(): seq<Chart> { insights.chartRecommendations }
    function GetKeyMetrics(): seq<Kpi> { insights.keyMetrics }
    function GetDashboardStructure(): Structure { insights.dashboardStructure }

    /** `generateIntelligentPrompt`: the request, then the analysis section by section. */
    method GenerateIntelligentPrompt(userPrompt: string) returns (lines: seq<PromptLine>)
      ensures lines == IntelligentPrompt(userPrompt, insights, data.headers)
    {
      var ins := GetInsights();
      lines := [Request(userPrompt), AnalysisHeading, ContextLine(ContextDescription(ins.businessContext)), KpiHeading];
      var kpiLines := ListLoop(Take(ins.keyMetrics, 4), KpiItem);
      lines := lines + kpiLines + [ChartHeading];
      var chartLines := ListLoop(Take(ins.chartRecommendations, 4), ChartItem);
      lines := lines + chartLines + [StructureHeading];
      var sectionLines := ListLoop(ins.dashboardStructure.sections, SectionItem);
      lines := lines + sectionLines;
      if |ins.dashboardStructure.filters| > 0 {
        var filterLines := ListLoop(Take(ins.dashboardStructure.filters, 3), FilterItem);
        lines := lines + [FilterHeading] + filterLines;
      }
      lines := lines + [InsightHeading];
      var insightLines := ListLoop(ins.analyticalInsights, InsightItem);
      lines := lines + insightLines;
      if |ins.dataQualityIssues| > 0 {
        var issueLines := ListLoop(ins.dataQualityIssues, IssueItem);
        lines := lines + [QualityHeading] + issueLines;
      }
      lines := lines + [Instructions(data.headers), Closing];
    }
  }

  /** `createDataReasoningEngine`. */
  method CreateDataReasoningEngine(data: DataParser.ParsedData) returns (engine: DataReasoningEngine)
    ensures fresh(engine) && engine.data == data && engine.insights == AnalysisOf(data)
  {
    engine := new DataReasoningEngine(data);
  }

  // ----- Properties of the prompt -----

  /** Each listed block holds lines of its own kind only. */
  lemma ListedKinds(kpis: seq<Kpi>, charts: seq<Chart>, sections: seq<Section>, filters: seq<DashboardFilter>,
                    insights: seq<Insight>, issues: seq<QualityIssue>)
    ensures forall l :: l in Listed(kpis, KpiItem) ==> l.KpiLine?
    ensures forall l :: l in Listed(charts, ChartItem) ==> l.ChartLine?
    ensures forall l :: l in Listed(sections, SectionItem) ==> l.SectionLine?
    ensures forall l :: l in Optional(FilterHeading, filters, FilterItem) ==> l.FilterHeading? || l.FilterLine?
    ensures forall l :: l in Listed(insights, InsightItem) ==> l.InsightLine?
    ensures forall l :: l in Optional(QualityHeading, issues, IssueItem) ==> l.QualityHeading? || l.QualityLine?
  {
  }

  /** A line of the prompt is a fixed line or a line of one of the blocks. */
  lemma InPrompt(userPrompt: string, description: string, kpis: seq<Kpi>, charts: seq<Chart>,
                 sections: seq<Section>, filters: seq<DashboardFilter>, insights: seq<Insight>,
                 issues: seq<QualityIssue>, headers: seq<string>, l: PromptLine)
    ensures l in PromptFrom(userPrompt, description, kpis, charts, sections, filters, insights, issues, headers)
      <==> l in [Request(userPrompt), AnalysisHeading, ContextLine(description), KpiHeading, ChartHeading,
                 StructureHeading, InsightHeading, Instructions(headers), Closing]
           || l in Listed(kpis, KpiItem) || l in Listed(charts, ChartItem) || l in Listed(sections, SectionItem)
           || l in Optional(FilterHeading, filters, FilterItem) || l in Listed(insights, InsightItem)
           || l in Optional(QualityHeading, issues, IssueItem)
  {
  }

  /** The prompt opens with the user's request and ends with the closing sentence. */
  lemma PromptEnds(userPrompt: string, ins: DataInsights, headers: seq<string>)
    ensures var p := IntelligentPrompt(userPrompt, ins, headers);
      |p| >= 8 && p[0] == Request(userPrompt) && p[|p| - 1] == Closing && p[|p| - 2] == Instructions(headers)
  {
  }

  /** The KPI lines are exactly the first up to four KPIs, numbered 1, 2, … in order. */
  lemma PromptKpis(userPrompt: string, ins: DataInsights, headers: seq<string>, j: nat, k: Kpi)
    ensures KpiLine(j, k) in IntelligentPrompt(userPrompt, ins, headers)
            <==> 1 <= j <= 4 && j <= |ins.keyMetrics| && ins.keyMetrics[j - 1] == k
  {
    var s := ins.dashboardStructure;
    var kpis := Take(ins.keyMetrics, 4);
    ListedKinds(kpis, Take(ins.chartRecommendations, 4), s.sections, Take(s.filters, 3), ins.analyticalInsights, ins.dataQualityIssues);
    InPrompt(userPrompt, ContextDescription(ins.businessContext), kpis, Take(ins.chartRecommendations, 4), s.sections,
             Take(s.filters, 3), ins.analyticalInsights, ins.dataQualityIssues, headers, KpiLine(j, k));
    if 1 <= j <= |kpis| && kpis[j - 1] == k {
      assert Listed(kpis, KpiItem)[j - 1] == KpiLine(j, k);
    }
  }

  /** The chart lines are exactly the first up to four recommended charts, numbered 1, 2, … in order. */
  lemma PromptCharts(userPrompt: string, ins: DataInsights, headers: seq<string>, j: nat, c: Chart)
    ensures ChartLine(j, c) in IntelligentPrompt(userPrompt, ins, headers)
            <==> 1 <= j <= 4 && j <= |ins.chartRecommendations| && ins.chartRecommendations[j - 1] == c
  {
    var s := ins.dashboardStructure;
    var kpis := Take(ins.keyMetrics, 4);
    var charts := Take(ins.chartRecommendations, 4);
    var filters := Take(s.filters, 3);
    ListedKinds(kpis, charts, s.sections, filters, ins.analyticalInsights, ins.dataQualityIssues);
    InPrompt(userPrompt, ContextDescription(ins.businessContext), kpis, charts, s.sections,
             filters, ins.analyticalInsights, ins.dataQualityIssues, headers, ChartLine(j, c));
    ListedChartLine(charts, j, c);
  }

  /** The chart line numbered `j` is listed exactly for the `j`-th chart. */
  lemma ListedChartLine(charts: seq<Chart>, j: nat, c: Chart)
    ensures ChartLine(j, c) in Listed(charts, ChartItem) <==> 1 <= j <= |charts| && charts[j - 1] == c
  {
    if 1 <= j <= |charts| && charts[j - 1] == c {
      assert Listed(charts, ChartItem)[j - 1] == ChartLine(j, c);
    }
  }

  /** The filters heading is written exactly when there are filters. */
  lemma PromptFilterHeading(userPrompt: string, ins: DataInsights, headers: seq<string>)
    ensures FilterHeading in IntelligentPrompt(userPrompt, ins, headers) <==> |ins.dashboardStructure.filters| > 0
  {
    var s := ins.dashboardStructure;
    var kpis := Take(ins.keyMetrics, 4);
    var charts := Take(ins.chartRecommendations, 4);
    var filters := Take(s.filters, 3);
    ListedKinds(kpis, charts, s.sections, filters, ins.analyticalInsights, ins.dataQualityIssues);
    InPrompt(userPrompt, ContextDescription(ins.businessContext), kpis, charts, s.sections,
             filters, ins.analyticalInsights, ins.dataQualityIssues, headers, FilterHeading);
  }

  /** The filter lines are exactly the first up to three filters. */
  lemma PromptFilters(userPrompt: string, ins: DataInsights, headers: seq<string>, f: DashboardFilter)
    ensures FilterLine(f) in IntelligentPrompt(userPrompt, ins, headers) <==> f in Take(ins.dashboardStructure.filters, 3)
  {
    var s := ins.dashboardStructure;
    var kpis := Take(ins.keyMetrics, 4);
    var charts := Take(ins.chartRecommendations, 4);
    var filters := Take(s.filters, 3);
    ListedKinds(kpis, charts, s.sections, filters, ins.analyticalInsights, ins.dataQualityIssues);
    InPrompt(userPrompt, ContextDescription(ins.businessContext), kpis, charts, s.sections,
             filters, ins.analyticalInsights, ins.dataQualityIssues, headers, FilterLine(f));
    if f in filters {
      var i :| 0 <= i < |filters| && filters[i] == f;
      assert Listed(filters, FilterItem)[i] == FilterLine(f);
    }
  }

  /** Every analytical insight has its line, and no other insight does. */
  lemma PromptInsights(userPrompt: string, ins: DataInsights, headers: seq<string>, x: Insight)
    ensures InsightLine(x) in IntelligentPrompt(userPrompt, ins, headers) <==> x in ins.analyticalInsights
  {
    var s := ins.dashboardStructure;
    var kpis := Take(ins.keyMetrics, 4);
    var charts := Take(ins.chartRecommendations, 4);
    var filters := Take(s.filters, 3);
    ListedKinds(kpis, charts, s.sections, filters, ins.analyticalInsights, ins.dataQualityIssues);
    InPrompt(userPrompt, ContextDescription(ins.businessContext), kpis, charts, s.sections,
             filters, ins.analyticalInsights, ins.dataQualityIssues, headers, InsightLine(x));
    if x in ins.analyticalInsights {
      var i :| 0 <= i < |ins.analyticalInsights| && ins.analyticalInsights[i] == x;
      assert Listed(ins.analyticalInsights, InsightItem)[i] == InsightLine(x);
    }
  }

  /** The data quality notes are written exactly when there are issues. */
  lemma PromptQualityHeading(userPrompt: string, ins: DataInsights, headers: seq<string>)
    ensures QualityHeading in IntelligentPrompt(userPrompt, ins, headers) <==> |ins.dataQualityIssues| > 0
  {
    var s := ins.dashboardStructure;
    var kpis := Take(ins.keyMetrics, 4);
    var charts := Take(ins.chartRecommendations, 4);
    var filters := Take(s.filters, 3);
    ListedKinds(kpis, charts, s.sections, filters, ins.analyticalInsights, ins.dataQualityIssues);
    InPrompt(userPrompt, ContextDescription(ins.businessContext), kpis, charts, s.sections,
             filters, ins.analyticalInsights, ins.dataQualityIssues, headers, QualityHeading);
  }

  /** Every quality issue has its line, and no other issue does. */
  lemma PromptQuality(userPrompt: string, ins: DataInsights, headers: seq<string>, q: QualityIssue)
    ensures QualityLine(q) in IntelligentPrompt(userPrompt, ins, headers) <==> q in ins.dataQualityIssues
  {
    var s := ins.dashboardStructure;
    var kpis := Take(ins.keyMetrics, 4);
    var charts := Take(ins.chartRecommendations, 4);
    var filters := Take(s.filters, 3);
    ListedKinds(kpis, charts, s.sections, filters, ins.analyticalInsights, ins.dataQualityIssues);
    InPrompt(userPrompt, ContextDescription(ins.businessContext), kpis, charts, s.sections,
             filters, ins.analyticalInsights, ins.dataQualityIssues, headers, QualityLine(q));
    if q in ins.dataQualityIssues {
      var i :| 0 <= i < |ins.dataQualityIssues| && ins.dataQualityIssues[i] == q;
      assert Listed(ins.dataQualityIssues, IssueItem)[i] == QualityLine(q);
    }
  }
}
