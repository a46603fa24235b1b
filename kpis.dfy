/**
 * `identifyKeyMetrics` of `DataReasoningEngine` (lib/data-reasoning.ts): the
 * KPI cards built from the column names and types, then stably sorted by
 * importance.
 */
module Kpis {
  import opened Seqs
  import opened TypeInference
  import opened KeywordRules

  datatype Importance = High | Medium | Low
  datatype CardType = NumberCard | PercentageCard | CurrencyCard | TrendCard | ComparisonCard

  /** Which KPI a card shows; its title, description and formula text follow from it. */
  datatype Metric = Total(column: string) | Growth(column: string) | TotalRecords | Average(column: string) | ConversionRate

  datatype Kpi = Kpi(metric: Metric, importance: Importance, cardType: CardType, columns: seq<string>)

  const RevenueKeywords: seq<string> := ["revenue", "sales", "income", "earnings"]
  const ConversionKeywords: seq<string> := ["conversion", "success", "completed"]

  function TotalKpi(col: string): Kpi { Kpi(Total(col), High, CurrencyCard, [col]) }
  function GrowthKpi(col: string, date: string): Kpi { Kpi(Growth(col), High, PercentageCard, [col, date]) }
  const TotalRecordsKpi: Kpi := Kpi(TotalRecords, Medium, NumberCard, [])
  function AverageKpi(col: string): Kpi { Kpi(Average(col), Medium, NumberCard, [col]) }
  function ConversionKpi(cols: seq<string>): Kpi { Kpi(ConversionRate, High, PercentageCard, cols) }

  /** `importanceOrder` of the sort's comparator. */
  function Rank(k: Kpi): real
  {
    match k.importance
    case High => 3.0
    case Medium => 2.0
    case Low => 1.0
  }

  /** The cards of the revenue columns: a total each, and a growth card when there is a date column. */
  function RevenueKpis(cols: seq<string>, dates: seq<string>): (ks: seq<Kpi>)
    ensures forall i :: 0 <= i < |ks| ==> ks[i].importance == High && !ks[i].metric.TotalRecords?
    ensures forall i :: 0 <= i < |ks| ==>
      (exists c :: c in cols && (ks[i] == TotalKpi(c) || (|dates| > 0 && ks[i] == GrowthKpi(c, dates[0]))))
    ensures forall c :: c in cols ==> TotalKpi(c) in ks
  {
    if cols == [] then []
    else
      var c := cols[|cols| - 1];
      RevenueKpis(cols[..|cols| - 1], dates) + [TotalKpi(c)] + (if |dates| > 0 then [GrowthKpi(c, dates[0])] else [])
  }

  /** The average cards of the given numeric columns that are not revenue columns. */
  function AverageKpis(cols: seq<string>, revenue: seq<string>): (ks: seq<Kpi>)
    ensures |ks| <= |cols|
    ensures forall i :: 0 <= i < |ks| ==> ks[i].importance == Medium && ks[i].metric.Average?
    ensures forall i :: 0 <= i < |ks| ==> exists c :: c in cols && c !in revenue && ks[i] == AverageKpi(c)
  {
    if cols == [] then []
    else
      var c := cols[|cols| - 1];
      AverageKpis(cols[..|cols| - 1], revenue) + (if c !in revenue then [AverageKpi(c)] else [])
  }

  function ConversionKpis(cols: seq<string>): seq<Kpi>
  {
    if |cols| > 0 then [ConversionKpi(cols)] else []
  }

  /** The cards in construction order, given the column lists they are built from. */
  function CandidatesOf(revenue: seq<string>, dates: seq<string>, numeric3: seq<string>, conversion: seq<string>): seq<Kpi>
  {
    RevenueKpis(revenue, dates) + [TotalRecordsKpi] + AverageKpis(numeric3, revenue) + ConversionKpis(conversion)
  }

  /** The cards in construction order, before the sort. */
  function KpiCandidates(headers: seq<string>, types: map<string, ColumnType>): seq<Kpi>
  {
    CandidatesOf(FindColumnsByKeywords(headers, RevenueKeywords), DateColumns(headers, types),
                 Take(NumericColumns(headers, types), 3), FindColumnsByKeywords(headers, ConversionKeywords))
  }

  /** The two `forEach` loops and the conditional pushes of `identifyKeyMetrics`. */
  method BuildKpis(revenue: seq<string>, dates: seq<string>, numeric3: seq<string>, conversion: seq<string>)
    returns (metrics: seq<Kpi>)
    ensures metrics == CandidatesOf(revenue, dates, numeric3, conversion)
  {
    metrics := RevenueLoop(revenue, dates);
    metrics := metrics + [TotalRecordsKpi];
    var averages := AverageLoop(numeric3, revenue);
    metrics := metrics + averages;
    if |conversion| > 0 {
      metrics := metrics + [ConversionKpi(conversion)];
    }
  }

  /** The `forEach` over the revenue columns. */
  method RevenueLoop(revenue: seq<string>, dates: seq<string>) returns (metrics: seq<Kpi>)
    ensures metrics == RevenueKpis(revenue, dates)
  {
    metrics := [];
    for i := 0 to |revenue|
      invariant metrics == RevenueKpis(revenue[..i], dates)
    {
      metrics := metrics + [TotalKpi(revenue[i])];
      if |dates| > 0 {
        metrics := metrics + [GrowthKpi(revenue[i], dates[0])];
      }
      assert revenue[..i + 1][..i] == revenue[..i];
    }
    assert revenue[..|revenue|] == revenue;
  }

  /** The `forEach` over the first three numeric columns. */
  method AverageLoop(numeric3: seq<string>, revenue: seq<string>) returns (metrics: seq<Kpi>)
    ensures metrics == AverageKpis(numeric3, revenue)
  {
    metrics := [];
    for i := 0 to |numeric3|
      invariant metrics == AverageKpis(numeric3[..i], revenue)
    {
      if numeric3[i] !in revenue {
        metrics := metrics + [AverageKpi(numeric3[i])];
      }
      assert numeric3[..i + 1][..i] == numeric3[..i];
    }
    assert numeric3[..|numeric3|] == numeric3;
  }

  /** `identifyKeyMetrics`: builds the cards in the source's order, then sorts them stably by importance. */
  method IdentifyKeyMetrics(headers: seq<string>, types: map<string, ColumnType>) returns (kpis: seq<Kpi>)
    ensures kpis == SortDesc(KpiCandidates(headers, types), Rank)
    ensures kpis == GroupedKpis(FindColumnsByKeywords(headers, RevenueKeywords), DateColumns(headers, types),
                                Take(NumericColumns(headers, types), 3), FindColumnsByKeywords(headers, ConversionKeywords))
  {
    var numeric := NumericColumns(headers, types);
    var dates := DateColumns(headers, types);
    var revenue := FindColumnsByKeywords(headers, RevenueKeywords);
    var conversion := FindColumnsByKeywords(headers, ConversionKeywords);
    var metrics := BuildKpis(revenue, dates, Take(numeric, 3), conversion);
    kpis := SortDesc(metrics, Rank);
    SortedKpisGrouped(revenue, dates, Take(numeric, 3), conversion);
  }

  /** The 'high' cards in construction order, then the 'medium' cards in construction order. */
  function GroupedKpis(revenue: seq<string>, dates: seq<string>, numeric3: seq<string>, conversion: seq<string>): seq<Kpi>
  {
    RevenueKpis(revenue, dates) + ConversionKpis(conversion) + [TotalRecordsKpi] + AverageKpis(numeric3, revenue)
  }

  /**
   * The sorted cards are all the 'high' cards in construction order (revenue
   * totals and growth, then the conversion rate) followed by all the 'medium'
   * cards in construction order (the record count, then the averages).
   */
  lemma SortedKpisGrouped(revenue: seq<string>, dates: seq<string>, numeric3: seq<string>, conversion: seq<string>)
    ensures SortDesc(CandidatesOf(revenue, dates, numeric3, conversion), Rank) == GroupedKpis(revenue, dates, numeric3, conversion)
  {
    var rev := RevenueKpis(revenue, dates);
    var avg := AverageKpis(numeric3, revenue);
    var conv := ConversionKpis(conversion);
    assert AllKeyed(rev, Rank, 3.0);
    assert AllKeyed([TotalRecordsKpi], Rank, 2.0);
    assert AllKeyed(avg, Rank, 2.0);
    assert AllKeyed(conv, Rank, 3.0);
    SortTwoKeyRuns(rev, [TotalRecordsKpi], avg, conv, Rank, 3.0, 2.0);
  }

  predicate IsTotalRecords(k: Kpi) { k.metric.TotalRecords? }
  predicate IsAverage(k: Kpi) { k.metric.Average? }
  predicate IsConversion(k: Kpi) { k.metric.ConversionRate? }

  /** Every sorted card comes from one of the four runs of construction. */
  lemma SortedKpiOrigin(revenue: seq<string>, dates: seq<string>, numeric3: seq<string>, conversion: seq<string>, k: Kpi)
    requires k in GroupedKpis(revenue, dates, numeric3, conversion)
    ensures k in RevenueKpis(revenue, dates) || k in ConversionKpis(conversion) || k == TotalRecordsKpi
            || k in AverageKpis(numeric3, revenue)
  {
  }

  /**
   * What the cards say: every revenue column has its 'Total' card; growth
   * cards exist only if there is a date column and pair their column with the
   * first date column; every card is high or medium.
   */
  lemma KpiCards(revenue: seq<string>, dates: seq<string>, numeric3: seq<string>, conversion: seq<string>)
    ensures var kpis := GroupedKpis(revenue, dates, numeric3, conversion);
      && (forall c :: c in revenue ==> TotalKpi(c) in kpis)
      && (forall i :: 0 <= i < |kpis| && kpis[i].metric.Growth? ==>
            |dates| > 0 && kpis[i].columns == [kpis[i].metric.column, dates[0]])
      && (forall i :: 0 <= i < |kpis| ==> kpis[i].importance != Low)
  {
    var kpis := GroupedKpis(revenue, dates, numeric3, conversion);
    var rev := RevenueKpis(revenue, dates);
    assert forall c :: c in revenue ==> TotalKpi(c) in rev;
    forall i | 0 <= i < |kpis|
      ensures kpis[i].importance != Low
      ensures kpis[i].metric.Growth? ==> |dates| > 0 && kpis[i].columns == [kpis[i].metric.column, dates[0]]
    {
      SortedKpiOrigin(revenue, dates, numeric3, conversion, kpis[i]);
    }
  }

  /** No 'high' card comes after a 'medium' one. */
  lemma HighBeforeMedium(revenue: seq<string>, dates: seq<string>, numeric3: seq<string>, conversion: seq<string>)
    ensures var kpis := GroupedKpis(revenue, dates, numeric3, conversion);
      forall i, j :: 0 <= i < j < |kpis| && kpis[i].importance == Medium ==> kpis[j].importance == Medium
  {
    KpiCards(revenue, dates, numeric3, conversion);
    SortedKpisGrouped(revenue, dates, numeric3, conversion);
    SortDescOrders(CandidatesOf(revenue, dates, numeric3, conversion), Rank);
  }

  /** The number of cards of each kind among the sorted cards. */
  lemma KpiKindCounts(revenue: seq<string>, dates: seq<string>, numeric3: seq<string>, conversion: seq<string>, p: Kpi -> bool)
    ensures var kpis := GroupedKpis(revenue, dates, numeric3, conversion);
      |Filter(p, kpis)| == |Filter(p, RevenueKpis(revenue, dates))| + |Filter(p, ConversionKpis(conversion))|
                          + |Filter(p, [TotalRecordsKpi])| + |Filter(p, AverageKpis(numeric3, revenue))|
  {
    var rev := RevenueKpis(revenue, dates);
    var avg := AverageKpis(numeric3, revenue);
    var conv := ConversionKpis(conversion);
    FilterConcat(p, rev + conv + [TotalRecordsKpi], avg);
    FilterConcat(p, rev + conv, [TotalRecordsKpi]);
    FilterConcat(p, rev, conv);
  }

  /** Exactly one card is 'Total Records'. */
  lemma OneTotalRecordsCard(revenue: seq<string>, dates: seq<string>, numeric3: seq<string>, conversion: seq<string>)
    ensures |Filter(IsTotalRecords, GroupedKpis(revenue, dates, numeric3, conversion))| == 1
  {
    KpiKindCounts(revenue, dates, numeric3, conversion, IsTotalRecords);
    RevenueRunKinds(revenue, dates);
    FilterNone(IsTotalRecords, ConversionKpis(conversion));
    AverageRunKinds(numeric3, revenue);
    assert Filter(IsTotalRecords, [TotalRecordsKpi]) == [TotalRecordsKpi];
  }

  /** The revenue run holds no record count, average or conversion card. */
  lemma RevenueRunKinds(revenue: seq<string>, dates: seq<string>)
    ensures Filter(IsTotalRecords, RevenueKpis(revenue, dates)) == []
    ensures Filter(IsAverage, RevenueKpis(revenue, dates)) == []
    ensures Filter(IsConversion, RevenueKpis(revenue, dates)) == []
  {
    FilterNone(IsTotalRecords, RevenueKpis(revenue, dates));
    FilterNone(IsAverage, RevenueKpis(revenue, dates));
    FilterNone(IsConversion, RevenueKpis(revenue, dates));
  }

  /** The average run holds no record count or conversion card. */
  lemma AverageRunKinds(numeric3: seq<string>, revenue: seq<string>)
    ensures Filter(IsTotalRecords, AverageKpis(numeric3, revenue)) == []
    ensures Filter(IsConversion, AverageKpis(numeric3, revenue)) == []
  {
    FilterNone(IsTotalRecords, AverageKpis(numeric3, revenue));
    FilterNone(IsConversion, AverageKpis(numeric3, revenue));
  }

  /** At most one card is the conversion rate. */
  lemma AtMostOneConversionCard(revenue: seq<string>, dates: seq<string>, numeric3: seq<string>, conversion: seq<string>)
    ensures |Filter(IsConversion, GroupedKpis(revenue, dates, numeric3, conversion))| <= 1
  {
    KpiKindCounts(revenue, dates, numeric3, conversion, IsConversion);
    RevenueRunKinds(revenue, dates);
    AverageRunKinds(numeric3, revenue);
    assert Filter(IsConversion, [TotalRecordsKpi]) == [];
    assert |Filter(IsConversion, ConversionKpis(conversion))| <= |ConversionKpis(conversion)| <= 1;
  }

  /** There are at most as many average cards as the (at most three) numeric columns they come from. */
  lemma AverageCardCount(revenue: seq<string>, dates: seq<string>, numeric3: seq<string>, conversion: seq<string>)
    ensures |Filter(IsAverage, GroupedKpis(revenue, dates, numeric3, conversion))| <= |numeric3|
  {
    KpiKindCounts(revenue, dates, numeric3, conversion, IsAverage);
    RevenueRunKinds(revenue, dates);
    assert Filter(IsAverage, ConversionKpis(conversion)) == [];
    assert Filter(IsAverage, [TotalRecordsKpi]) == [];
    assert |Filter(IsAverage, AverageKpis(numeric3, revenue))| <= |AverageKpis(numeric3, revenue)| <= |numeric3|;
  }

  /** Every average card shows one of the numeric columns it comes from, and that column is not a revenue column. */
  lemma AverageCardColumns(revenue: seq<string>, dates: seq<string>, numeric3: seq<string>, conversion: seq<string>)
    ensures var kpis := GroupedKpis(revenue, dates, numeric3, conversion);
      forall i :: 0 <= i < |kpis| && kpis[i].metric.Average? ==>
        kpis[i].columns == [kpis[i].metric.column]
        && kpis[i].metric.column in numeric3 && kpis[i].metric.column !in revenue
  {
    var kpis := GroupedKpis(revenue, dates, numeric3, conversion);
    forall i | 0 <= i < |kpis| && kpis[i].metric.Average?
      ensures kpis[i].columns == [kpis[i].metric.column]
      ensures kpis[i].metric.column in numeric3 && kpis[i].metric.column !in revenue
    {
      SortedKpiOrigin(revenue, dates, numeric3, conversion, kpis[i]);
    }
  }

  /** Every header that mentions a revenue keyword has its 'Total' card. */
  lemma RevenueHeadersHaveTotals(headers: seq<string>, types: map<string, ColumnType>, h: string)
    requires h in headers && MentionsAny(h, RevenueKeywords)
    ensures TotalKpi(h) in SortDesc(KpiCandidates(headers, types), Rank)
  {
    var revenue := FindColumnsByKeywords(headers, RevenueKeywords);
    var dates := DateColumns(headers, types);
    var numeric3 := Take(NumericColumns(headers, types), 3);
    var conversion := FindColumnsByKeywords(headers, ConversionKeywords);
    assert h in revenue;
    KpiCards(revenue, dates, numeric3, conversion);
    SortedKpisGrouped(revenue, dates, numeric3, conversion);
  }
}
