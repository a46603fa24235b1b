/**
 * The keyword helpers of `DataReasoningEngine` (lib/data-reasoning.ts): the
 * first-match rule tables for the business context and the aggregation,
 * keyword column search, and column-name formatting.
 */
module KeywordRules {
  import opened Seqs
  import opened Text

  /** `keywords.some(keyword => columnNames.some(col => col.includes(keyword)))`. */
  predicate HasColumns(columnNames: seq<string>, keywords: seq<string>)
    ensures HasColumns(columnNames, keywords) ==> keywords != [] && columnNames != []
    ensures columnNames != [] && "" in keywords ==> HasColumns(columnNames, keywords)
  {
    assert columnNames != [] ==> StartsWith(columnNames[0], "");
    exists k, c :: 0 <= k < |keywords| && 0 <= c < |columnNames| && Contains(columnNames[c], keywords[k])
  }

  /** `some` over two keyword lists: the joined list matches exactly when one of them does. */
  lemma HasColumnsConcat(columnNames: seq<string>, a: seq<string>, b: seq<string>)
    ensures HasColumns(columnNames, a + b) <==> HasColumns(columnNames, a) || HasColumns(columnNames, b)
  {
    var ab := a + b;
    if HasColumns(columnNames, a) {
      var k, c :| 0 <= k < |a| && 0 <= c < |columnNames| && Contains(columnNames[c], a[k]);
      assert ab[k] == a[k];
    }
    if HasColumns(columnNames, a + b) {
      var k, c :| 0 <= k < |ab| && 0 <= c < |columnNames| && Contains(columnNames[c], ab[k]);
      if k >= |a| {
        assert ab[k] == b[k - |a|];
      }
    }
    if HasColumns(columnNames, b) {
      var k, c :| 0 <= k < |b| && 0 <= c < |columnNames| && Contains(columnNames[c], b[k]);
      assert ab[|a| + k] == b[k];
    }
  }

  /** The position of the first rule whose keywords occur in `names`; `|rules|` when none does. */
  function FirstMatch<T>(rules: seq<(T, seq<string>)>, names: seq<string>): (i: nat)
    ensures i <= |rules|
    ensures i < |rules| ==> HasColumns(names, rules[i].1)
    ensures forall k :: 0 <= k < i ==> !HasColumns(names, rules[k].1)
  {
    if rules == [] then 0
    else if HasColumns(names, rules[0].1) then 0
    else 1 + FirstMatch(rules[1..], names)
  }

  /** The value of the first matching rule, or `otherwise`. */
  function FirstRule<T>(rules: seq<(T, seq<string>)>, names: seq<string>, otherwise: T): T
  {
    var i := FirstMatch(rules, names);
    if i < |rules| then rules[i].0 else otherwise
  }

  // ----- Business context -----

  datatype BusinessContext =
    | SalesCommerce | WebAnalytics | HumanResources | InventoryManagement
    | CustomerSupport | Marketing | Financial | ProjectManagement | GeneralBusiness

  /** The `if … else if` chain of `inferBusinessContext`, in its order. */
  const ContextRules: seq<(BusinessContext, seq<string>)> := [
    (SalesCommerce, ["revenue", "sales", "profit", "orders"]),
    (WebAnalytics, ["users", "sessions", "pageviews", "clicks"]),
    (HumanResources, ["employee", "salary", "department", "hire"]),
    (InventoryManagement, ["inventory", "stock", "product", "warehouse"]),
    (CustomerSupport, ["customer", "ticket", "support", "issue"]),
    (Marketing, ["campaign", "impressions", "ctr", "conversion"]),
    (Financial, ["expense", "budget", "cost", "accounting"]),
    (ProjectManagement, ["project", "task", "milestone", "deadline"])
  ]

  function LowerAll(headers: seq<string>): (names: seq<string>)
    ensures |names| == |headers| && forall i :: 0 <= i < |headers| ==> names[i] == Lower(headers[i])
  {
    seq(|headers|, i requires 0 <= i < |headers| => Lower(headers[i]))
  }

  /**
   * `inferBusinessContext`: the context of the first group, in the fixed
   * order, with a keyword inside some lowercased header; 'general-business'
   * when no group has one.
   */
  function InferBusinessContext(headers: seq<string>): (ctx: BusinessContext)
    ensures ctx == GeneralBusiness <==> forall i :: 0 <= i < |ContextRules| ==> !HasColumns(LowerAll(headers), ContextRules[i].1)
    ensures ctx != GeneralBusiness ==>
      exists i :: 0 <= i < |ContextRules| && ContextRules[i].0 == ctx
                  && HasColumns(LowerAll(headers), ContextRules[i].1)
                  && forall k :: 0 <= k < i ==> !HasColumns(LowerAll(headers), ContextRules[k].1)
  {
    FirstRule(ContextRules, LowerAll(headers), GeneralBusiness)
  }

  /** A header containing 'revenue' classifies the data as sales, whatever the other headers say. */
  lemma RevenueMeansSales(headers: seq<string>, j: nat)
    requires j < |headers| && Contains(Lower(headers[j]), "revenue")
    ensures InferBusinessContext(headers) == SalesCommerce
  {
    assert ContextRules[0].1[0] == "revenue";
    assert HasColumns(LowerAll(headers), ContextRules[0].1);
  }

  /** The description of `general-business`, which is also the fallback of the lookup. */
  const GeneralDescription := "General Business Data - Comprehensive overview with key insights"

  /**
   * `getBusinessContextDescription`: a fixed text per context. The
   * `|| descriptions['general-business']` fallback never applies, since every
   * context of the model has its entry.
   */
  function ContextDescription(ctx: BusinessContext): string
  {
    match ctx
    case SalesCommerce => "E-commerce/Sales data - Focus on revenue optimization and customer insights"
    case WebAnalytics => "Web Analytics - Emphasize user behavior and conversion optimization"
    case HumanResources => "Human Resources - Highlight workforce analytics and performance metrics"
    case InventoryManagement => "Inventory Management - Focus on stock levels and supply chain efficiency"
    case CustomerSupport => "Customer Support - Emphasize ticket resolution and satisfaction metrics"
    case Marketing => "Marketing Analytics - Focus on campaign performance and ROI"
    case Financial => "Financial Data - Emphasize budgets, expenses, and financial health"
    case ProjectManagement => "Project Management - Focus on timelines, resources, and deliverables"
    case GeneralBusiness => GeneralDescription
  }

  // ----- Keyword column search -----

  /** The header mentions one of the keywords, ignoring case. */
  predicate MentionsAny(header: string, keywords: seq<string>)
  {
    exists k :: 0 <= k < |keywords| && Contains(Lower(header), Lower(keywords[k]))
  }

  /** `findColumnsByKeywords`: the headers that mention a keyword, in header order. */
  function FindColumnsByKeywords(headers: seq<string>, keywords: seq<string>): (cols: seq<string>)
    ensures |cols| <= |headers|
    ensures forall i :: 0 <= i < |cols| ==> cols[i] in headers && MentionsAny(cols[i], keywords)
    ensures forall h :: h in headers && MentionsAny(h, keywords) ==> h in cols
  {
    Filter(h => MentionsAny(h, keywords), headers)
  }

  // ----- Aggregation -----

  datatype Aggregation = Sum | Avg | CountOf | Max | Min | Median

  const AggregationRules: seq<(Aggregation, seq<string>)> := [
    (Sum, ["revenue", "sales", "total"]),
    (Avg, ["rate", "average", "score"]),
    (CountOf, ["count", "number"])
  ]

  /**
   * `getAppropriateAggregation`, first match wins: 'sum' for
   * revenue/sales/total, else 'avg' for rate/average/score, else 'count' for
   * count/number, else 'sum'. It never chooses max, min or median.
   */
  function AggregationFor(column: string): (agg: Aggregation)
    ensures agg == Sum || agg == Avg || agg == CountOf
  {
    FirstRule(AggregationRules, [Lower(column)], Sum)
  }

  /** The rules apply in order: 'avg' only without a 'sum' keyword, 'count' only without either. */
  lemma AggregationByFirstMatch(column: string)
    ensures AggregationFor(column) == Avg <==>
      !HasColumns([Lower(column)], AggregationRules[0].1) && HasColumns([Lower(column)], AggregationRules[1].1)
    ensures AggregationFor(column) == CountOf <==>
      !HasColumns([Lower(column)], AggregationRules[0].1) && !HasColumns([Lower(column)], AggregationRules[1].1)
      && HasColumns([Lower(column)], AggregationRules[2].1)
  {
  }

  /** A column whose name mentions 'revenue', 'sales' or 'total' is summed. */
  lemma AggregationOfTotals(column: string, w: string)
    requires w in ["revenue", "sales", "total"] && Contains(Lower(column), w)
    ensures AggregationFor(column) == Sum
  {
    var k :| 0 <= k < 3 && AggregationRules[0].1[k] == w;
    assert Contains([Lower(column)][0], AggregationRules[0].1[k]);
  }

  // ----- Column names -----

  /** The characters of the separator class `[-_\s]`. */
  predicate IsWordSeparator(c: char)
  {
    c == '-' || c == '_' || c == ' ' || c == '\t' || c == '\n' || c == '\r'
    || c == '\U{000B}' || c == '\U{000C}' || c == '\U{00A0}' || c == '\U{1680}'
    || ('\U{2000}' <= c <= '\U{200A}') || c == '\U{2028}' || c == '\U{2029}'
    || c == '\U{202F}' || c == '\U{205F}' || c == '\U{3000}' || c == '\U{FEFF}'
  }

  /** `word.charAt(0).toUpperCase() + word.slice(1).toLowerCase()`. */
  function Capitalize(w: string): (r: string)
    ensures |r| == |w|
  {
    if w == [] then [] else [UpperChar(w[0])] + Lower(w[1..])
  }

  function MapCapitalize(ws: seq<string>): (rs: seq<string>)
    ensures |rs| == |ws| && forall i :: 0 <= i < |ws| ==> rs[i] == Capitalize(ws[i])
  {
    seq(|ws|, i requires 0 <= i < |ws| => Capitalize(ws[i]))
  }

  /** `formatColumnName`: split at separators, capitalize each word, join with single spaces. */
  function FormatColumnName(column: string): (r: string)
    ensures |r| == |column|
    ensures forall i :: 0 <= i < |column| ==> r[i] == TitleChar(column, i, true)
  {
    FormatIsTitleCase(column);
    TitleCasePointwise(column, true);
    Join(MapCapitalize(SplitAt(column, IsWordSeparator)), " ")
  }

  /** A word begins at `s[i]`: at a separator's right, or at the start when `atStart`. */
  predicate StartsWord(s: string, i: nat, atStart: bool)
    requires i < |s|
  {
    if i == 0 then atStart else IsWordSeparator(s[i - 1])
  }

  /**
   * What the formatting does to the character at `i`: a separator becomes
   * a space, the first character of a word is upper-cased, the rest lower-cased.
   */
  function TitleChar(s: string, i: nat, atStart: bool): char
    requires i < |s|
  {
    if IsWordSeparator(s[i]) then ' '
    else if StartsWord(s, i, atStart) then UpperChar(s[i])
    else LowerChar(s[i])
  }

  /** Character-by-character form of the formatting; `atStart` says a word begins at `s[0]`. */
  function TitleCase(s: string, atStart: bool): (r: string)
    ensures |r| == |s|
  {
    if s == [] then []
    else if IsWordSeparator(s[0]) then [' '] + TitleCase(s[1..], true)
    else [if atStart then UpperChar(s[0]) else LowerChar(s[0])] + TitleCase(s[1..], false)
  }

  lemma {:induction false} TitleCasePointwise(s: string, atStart: bool)
    ensures forall i :: 0 <= i < |s| ==> TitleCase(s, atStart)[i] == TitleChar(s, i, atStart)
  {
    if s != [] {
      var next := IsWordSeparator(s[0]);
      TitleCasePointwise(s[1..], next);
      forall i | 1 <= i < |s| ensures TitleCase(s, atStart)[i] == TitleChar(s, i, atStart) {
        assert TitleCase(s, atStart)[i] == TitleCase(s[1..], next)[i - 1];
        assert s[1..][i - 1] == s[i];
        if i > 1 {
          assert s[1..][i - 2] == s[i - 1];
        }
      }
    }
  }

  lemma JoinPrefixFirst(x: string, w: string, ws: seq<string>, sep: string)
    ensures Join([x + w] + ws, sep) == x + Join([w] + ws, sep)
  {
    if ws != [] {
      assert ([x + w] + ws)[1..] == ws;
      assert ([w] + ws)[1..] == ws;
    }
  }

  lemma JoinEmptyFirst(ws: seq<string>, sep: string)
    requires ws != []
    ensures Join([""] + ws, sep) == sep + Join(ws, sep)
  {
    assert ([""] + ws)[1..] == ws;
  }

  /** Splitting, capitalising and joining is the character-by-character form. */
  lemma {:induction false} FormatIsTitleCase(s: string)
    ensures Join(MapCapitalize(SplitAt(s, IsWordSeparator)), " ") == TitleCase(s, true)
    ensures Join([Lower(SplitAt(s, IsWordSeparator)[0])] + MapCapitalize(SplitAt(s, IsWordSeparator)[1..]), " ")
            == TitleCase(s, false)
  {
    if s != [] {
      FormatIsTitleCase(s[1..]);
      if IsWordSeparator(s[0]) {
        SeparatorStep(s);
      } else {
        WordStep(s);
      }
    }
  }

  /** The inductive step of `FormatIsTitleCase` at a separator: it ends an (empty) word and becomes a space. */
  lemma SeparatorStep(s: string)
    requires s != [] && IsWordSeparator(s[0])
    requires Join(MapCapitalize(SplitAt(s[1..], IsWordSeparator)), " ") == TitleCase(s[1..], true)
    ensures Join(MapCapitalize(SplitAt(s, IsWordSeparator)), " ") == TitleCase(s, true)
    ensures Join([Lower(SplitAt(s, IsWordSeparator)[0])] + MapCapitalize(SplitAt(s, IsWordSeparator)[1..]), " ")
            == TitleCase(s, false)
  {
    var words := SplitAt(s, IsWordSeparator);
    var rest := SplitAt(s[1..], IsWordSeparator);
    assert words == [""] + rest;
    assert MapCapitalize(words) == [""] + MapCapitalize(rest);
    JoinEmptyFirst(MapCapitalize(rest), " ");
    assert [Lower(words[0])] + MapCapitalize(words[1..]) == [""] + MapCapitalize(rest);
  }

  /** The inductive step of `FormatIsTitleCase` at a word character: it joins the first word of the rest. */
  lemma WordStep(s: string)
    requires s != [] && !IsWordSeparator(s[0])
    requires Join([Lower(SplitAt(s[1..], IsWordSeparator)[0])] + MapCapitalize(SplitAt(s[1..], IsWordSeparator)[1..]), " ")
             == TitleCase(s[1..], false)
    ensures Join(MapCapitalize(SplitAt(s, IsWordSeparator)), " ") == TitleCase(s, true)
    ensures Join([Lower(SplitAt(s, IsWordSeparator)[0])] + MapCapitalize(SplitAt(s, IsWordSeparator)[1..]), " ")
            == TitleCase(s, false)
  {
    var words := SplitAt(s, IsWordSeparator);
    var rest := SplitAt(s[1..], IsWordSeparator);
    var c := s[0];
    var tail := MapCapitalize(rest[1..]);
    WordStepWords(s);
    calc {
      TitleCase(s, true);
      [UpperChar(c)] + TitleCase(s[1..], false);
      [UpperChar(c)] + Join([Lower(rest[0])] + tail, " ");
      { JoinPrefixFirst([UpperChar(c)], Lower(rest[0]), tail, " "); }
      Join([[UpperChar(c)] + Lower(rest[0])] + tail, " ");
      Join(MapCapitalize(words), " ");
    }
    calc {
      TitleCase(s, false);
      [LowerChar(c)] + TitleCase(s[1..], false);
      [LowerChar(c)] + Join([Lower(rest[0])] + tail, " ");
      { JoinPrefixFirst([LowerChar(c)], Lower(rest[0]), tail, " "); }
      Join([[LowerChar(c)] + Lower(rest[0])] + tail, " ");
      Join([Lower(words[0])] + MapCapitalize(words[1..]), " ");
    }
  }

  /** The words of `s` when it starts with a word character: that character joins the first word of the rest. */
  lemma WordStepWords(s: string)
    requires s != [] && !IsWordSeparator(s[0])
    ensures var words := SplitAt(s, IsWordSeparator);
      var rest := SplitAt(s[1..], IsWordSeparator);
      && MapCapitalize(words) == [[UpperChar(s[0])] + Lower(rest[0])] + MapCapitalize(rest[1..])
      && Lower(words[0]) == [LowerChar(s[0])] + Lower(rest[0])
      && words[1..] == rest[1..]
  {
    var words := SplitAt(s, IsWordSeparator);
    var rest := SplitAt(s[1..], IsWordSeparator);
    var c := s[0];
    var w0 := [c] + rest[0];
    assert words == [w0] + rest[1..];
    assert Capitalize(w0) == [UpperChar(c)] + Lower(rest[0]) by {
      assert w0[0] == c && w0[1..] == rest[0];
    }
    MapCapitalizeCons(w0, rest[1..]);
    LowerConcat([c], rest[0]);
  }

  lemma MapCapitalizeCons(w: string, ws: seq<string>)
    ensures MapCapitalize([w] + ws) == [Capitalize(w)] + MapCapitalize(ws)
  {
  }
}
