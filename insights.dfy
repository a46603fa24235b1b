/**
 * `generateAnalyticalInsights` of `DataReasoningEngine` (lib/data-reasoning.ts):
 * the volume line, a line per kind of column present (counted over the type
 * map's values), the advice for the business context, and the rich-numeric
 * line beyond five numeric columns.
 */
module Insights {
  import opened TypeInference
  import opened KeywordRules

  /** The four contexts with their own advice, and the default branch of the `switch`. */
  datatype Advice = SalesAdvice | WebAdvice | WorkforceAdvice | MarketingAdvice | GeneralAdvice

  /** An insight line; the wording around its numbers is not modelled. */
  datatype Insight =
    | VolumeInsight(records: nat, dimensions: nat)
    | NumericInsight(count: nat)
    | DateInsight(count: nat)
    | CategoryInsight(count: nat)
    | ContextInsight(advice: Advice)
    | RichNumericInsight

  /** The `switch (businessContext)`: every other context takes the default branch. */
  function AdviceFor(ctx: BusinessContext): Advice
  {
    match ctx
    case SalesCommerce => SalesAdvice
    case WebAnalytics => WebAdvice
    case HumanResources => WorkforceAdvice
    case Marketing => MarketingAdvice
    case _ => GeneralAdvice
  }

  /** `typeCount[t] || 0`: a type that was never counted has no entry. */
  function Tally(counts: map<ColumnType, nat>, t: ColumnType): nat
  {
    if t in counts then counts[t] else 0
  }

  /** The `reduce` over `Object.values(dataTypes)` that counts each type. */
  method CountTypes(vals: seq<ColumnType>) returns (counts: map<ColumnType, nat>)
    ensures forall t :: Tally(counts, t) == Count(vals, t)
  {
    counts := map[];
    for i := 0 to |vals|
      invariant forall t :: Tally(counts, t) == Count(vals[..i], t)
    {
      var t := vals[i];
      counts := counts[t := Tally(counts, t) + 1];
      assert vals[..i + 1] == vals[..i] + [vals[i]];
      forall u
        ensures Tally(counts, u) == Count(vals[..i + 1], u)
      {
        CountSnoc(vals[..i], vals[i], u);
      }
    }
    assert vals[..|vals|] == vals;
  }

  /** The insight lines, in push order, from the counts they report. */
  function InsightLinesFrom(records: nat, dimensions: nat, numeric: nat, dates: nat, categories: nat, advice: Advice, rich: bool)
    : seq<Insight>
  {
    [VolumeInsight(records, dimensions)]
      + KindLines(numeric, dates, categories)
      + [ContextInsight(advice)]
      + (if rich then [RichNumericInsight] else [])
  }

  /** The three lines about the kinds of column, each only for a non-zero count. */
  function KindLines(numeric: nat, dates: nat, categories: nat): seq<Insight>
  {
    (if numeric > 0 then [NumericInsight(numeric)] else [])
      + (if dates > 0 then [DateInsight(dates)] else [])
      + (if categories > 0 then [CategoryInsight(categories)] else [])
  }

  /** The insight lines for a dataset, in push order. */
  function InsightsOf(headers: seq<string>, rows: nat, types: map<string, ColumnType>): seq<Insight>
  {
    var vals := TypeValues(headers, types);
    InsightLinesFrom(rows, |headers|, Count(vals, IntegerType) + Count(vals, FloatType), Count(vals, DateType),
                     Count(vals, StringType), AdviceFor(InferBusinessContext(headers)), |NumericColumns(headers, types)| > 5)
  }

  /** `generateAnalyticalInsights`: the pushes in the source's order. */
  method GenerateAnalyticalInsights(headers: seq<string>, rows: nat, types: map<string, ColumnType>)
    returns (insights: seq<Insight>)
    ensures insights == InsightsOf(headers, rows, types)
  {
    insights := [VolumeInsight(rows, |headers|)];
    var kinds := TypeCountInsights(TypeValues(headers, types));
    insights := insights + kinds;
    insights := insights + [ContextInsight(AdviceFor(InferBusinessContext(headers)))];
    var numericColumns := NumericColumns(headers, types);
    if |numericColumns| > 5 {
      insights := insights + [RichNumericInsight];
    }
  }

  /** The type count, then the three pushes that report it. */
  method TypeCountInsights(vals: seq<ColumnType>) returns (kinds: seq<Insight>)
    ensures kinds == KindLines(Count(vals, IntegerType) + Count(vals, FloatType), Count(vals, DateType), Count(vals, StringType))
  {
    var typeCount := CountTypes(vals);
    kinds := KindInsights(typeCount);
  }

  /** The three type-count pushes. */
  method KindInsights(typeCount: map<ColumnType, nat>) returns (ws: seq<Insight>)
    ensures ws == KindLines(Tally(typeCount, IntegerType) + Tally(typeCount, FloatType),
                            Tally(typeCount, DateType), Tally(typeCount, StringType))
  {
    ws := [];
    if Tally(typeCount, IntegerType) > 0 || Tally(typeCount, FloatType) > 0 {
      ws := ws + [NumericInsight(Tally(typeCount, IntegerType) + Tally(typeCount, FloatType))];
    }
    if Tally(typeCount, DateType) > 0 {
      ws := ws + [DateInsight(Tally(typeCount, DateType))];
    }
    if Tally(typeCount, StringType) > 0 {
      ws := ws + [CategoryInsight(Tally(typeCount, StringType))];
    }
  }

  // ----- Properties -----

  /** Counting a type over the type map's values counts the headers of that type. */
  lemma {:induction false} CountIsColumnsOfType(headers: seq<string>, types: map<string, ColumnType>, t: ColumnType)
    ensures Count(TypeValues(headers, types), t) == |ColumnsOfType(headers, types, t)|
  {
    if headers != [] {
      var vals := TypeValues(headers, types);
      assert vals[1..] == TypeValues(headers[1..], types);
      CountIsColumnsOfType(headers[1..], types, t);
    }
  }

  /** The integer and float counts together count the numeric columns. */
  lemma {:induction false} NumericCountIsNumericColumns(headers: seq<string>, types: map<string, ColumnType>)
    ensures Count(TypeValues(headers, types), IntegerType) + Count(TypeValues(headers, types), FloatType)
         == |NumericColumns(headers, types)|
  {
    if headers != [] {
      var vals := TypeValues(headers, types);
      assert vals[1..] == TypeValues(headers[1..], types);
      NumericCountIsNumericColumns(headers[1..], types);
    }
  }

  /**
   * The lines start with the volume line; a line about a kind of column is there
   * exactly for its non-zero count, the advice line exactly once, and the
   * rich-numeric line exactly when asked for.
   */
  lemma InsightLinesMembers(records: nat, dimensions: nat, numeric: nat, dates: nat, categories: nat, advice: Advice, rich: bool,
                            n: nat, a: Advice)
    ensures var ws := InsightLinesFrom(records, dimensions, numeric, dates, categories, advice, rich);
      && ws[0] == VolumeInsight(records, dimensions)
      && (NumericInsight(n) in ws <==> n == numeric && n > 0)
      && (DateInsight(n) in ws <==> n == dates && n > 0)
      && (CategoryInsight(n) in ws <==> n == categories && n > 0)
      && (ContextInsight(a) in ws <==> a == advice)
      && (RichNumericInsight in ws <==> rich)
  {
    var ks := KindLines(numeric, dates, categories);
    KindLinesMembers(numeric, dates, categories, n);
    var ws := InsightLinesFrom(records, dimensions, numeric, dates, categories, advice, rich);
    var rest := [ContextInsight(advice)] + (if rich then [RichNumericInsight] else []);
    assert ws == [VolumeInsight(records, dimensions)] + ks + rest;
    assert forall i :: 0 <= i < |rest| ==> rest[i].ContextInsight? || rest[i].RichNumericInsight?;
  }

  lemma KindLinesMembers(numeric: nat, dates: nat, categories: nat, n: nat)
    ensures var ks := KindLines(numeric, dates, categories);
      && (forall i :: 0 <= i < |ks| ==> ks[i].NumericInsight? || ks[i].DateInsight? || ks[i].CategoryInsight?)
      && (NumericInsight(n) in ks <==> n == numeric && n > 0)
      && (DateInsight(n) in ks <==> n == dates && n > 0)
      && (CategoryInsight(n) in ks <==> n == categories && n > 0)
  {
  }

  /**
   * The insights start with the volume line; a numeric, date or categorical
   * line for `n` columns is there exactly when the dataset has `n > 0`
   * columns of that kind; there is exactly one advice line, the one of the
   * business context; the rich-numeric line is there exactly beyond five
   * numeric columns.
   */
  lemma InsightsShape(headers: seq<string>, rows: nat, types: map<string, ColumnType>, n: nat, a: Advice)
    ensures InsightsOf(headers, rows, types)[0] == VolumeInsight(rows, |headers|)
    ensures NumericInsight(n) in InsightsOf(headers, rows, types) <==> n == |NumericColumns(headers, types)| && n > 0
    ensures DateInsight(n) in InsightsOf(headers, rows, types) <==> n == |DateColumns(headers, types)| && n > 0
    ensures CategoryInsight(n) in InsightsOf(headers, rows, types) <==> n == |CategoryColumns(headers, types)| && n > 0
    ensures ContextInsight(a) in InsightsOf(headers, rows, types) <==> a == AdviceFor(InferBusinessContext(headers))
    ensures RichNumericInsight in InsightsOf(headers, rows, types) <==> |NumericColumns(headers, types)| > 5
  {
    var vals := TypeValues(headers, types);
    NumericCountIsNumericColumns(headers, types);
    CountIsColumnsOfType(headers, types, DateType);
    CountIsColumnsOfType(headers, types, StringType);
    InsightLinesMembers(rows, |headers|, Count(vals, IntegerType) + Count(vals, FloatType), Count(vals, DateType),
                        Count(vals, StringType), AdviceFor(InferBusinessContext(headers)), |NumericColumns(headers, types)| > 5, n, a);
  }

  /** Only the sales, web-analytics, human-resources and marketing contexts get advice of their own. */
  lemma GeneralAdviceOtherwise(ctx: BusinessContext)
    ensures AdviceFor(ctx) == GeneralAdvice
        <==> ctx in {InventoryManagement, CustomerSupport, Financial, ProjectManagement, GeneralBusiness}
  {
  }
}
