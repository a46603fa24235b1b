/**
 * The pattern memory (lib/memory.ts): the weighted Jaccard similarity between
 * the current schema and a stored one, the ranking of fetched patterns, the
 * memory-enhanced prompt, and the keyword extraction of successful elements
 * and common mistakes.
 */
module Memory {
  import opened Wrappers
  import opened Seqs
  import opened Text
  import opened Kpis
  import opened Charts
  import opened KeywordRules
  import Engine

  /** `MemoryContext`; the optional fields are only set from reasoning insights. */
  datatype MemoryContext = MemoryContext(
    dataColumns: seq<string>,
    dataTypes: map<string, string>,
    userPrompt: string,
    businessContext: Option<BusinessContext>,
    recommendedCharts: Option<seq<Chart>>,
    recommendedKpis: Option<seq<Kpi>>)

  /** A stored schema, as the column names and the type record it was stored with. */
  datatype Schema = Schema(columns: seq<string>, types: map<string, string>)

  /** A stored pattern, its JSON fields already decoded. */
  datatype Pattern = Pattern(
    id: string,
    schema: Schema,
    userIntent: string,
    successfulElements: seq<string>,
    commonMistakes: seq<string>,
    bestPractices: seq<string>,
    createdAt: int)

  // ----- Similarity -----

  /**
   * `|a ∩ b| / |a ∪ b|`. With both sets empty the source divides 0 by 0 and
   * gets NaN, which is `None` here.
   */
  function Jaccard<T>(a: set<T>, b: set<T>): (r: Option<real>)
    ensures r.None? <==> a == {} && b == {}
    ensures r.Some? ==> 0.0 <= r.value <= 1.0
  {
    if a + b == {} then None
    else
      SubsetSize(a * b, a + b);
      RatioAtMostOne(|a * b|, |a + b|);
      Some(|a * b| as real / |a + b| as real)
  }

  /** A count over a larger non-zero count is a ratio in [0, 1]. */
  lemma RatioAtMostOne(n: nat, d: nat)
    requires n <= d && d > 0
    ensures 0.0 <= n as real / d as real <= 1.0
  {
    assert n as real <= d as real;
  }

  /** Two sets, not both empty, have similarity 1 exactly when they are equal. */
  lemma JaccardOne<T>(a: set<T>, b: set<T>)
    ensures Jaccard(a, b) == Some(1.0) <==> a == b && a != {}
  {
    if a == b && a != {} {
      assert a * b == a + b;
      assert |a + b| > 0;
      assert (|a * b| as real) / (|a + b| as real) == 1.0;
    }
    if Jaccard(a, b) == Some(1.0) {
      var n, d := |a * b|, |a + b|;
      assert d > 0;
      assert n as real / d as real == 1.0;
      assert n == d;
      var rest := (a + b) - (a * b);
      assert a + b == (a * b) + rest;
      assert (a * b) * rest == {};
      assert |rest| == 0;
      assert a + b == a * b;
    }
  }

  /** Two sets, not both empty, have similarity 0 exactly when they are disjoint. */
  lemma JaccardZero<T>(a: set<T>, b: set<T>)
    requires a + b != {}
    ensures Jaccard(a, b) == Some(0.0) <==> a * b == {}
  {
  }

  /** `new Set(cols.map(col => col.toLowerCase()))`. */
  function LowerSet(cols: seq<string>): set<string>
  {
    set i | 0 <= i < |cols| :: Lower(cols[i])
  }

  /** `Object.values(types)` as a set. */
  function TypeValues(types: map<string, string>): set<string>
  {
    types.Values
  }

  /** `calculateArraySimilarity` of the two type records' values. */
  function TypeSimilarity(current: map<string, string>, stored: map<string, string>): Option<real>
  {
    Jaccard(TypeValues(current), TypeValues(stored))
  }

  /** The Jaccard similarity of the lowercased column names. */
  function ColumnSimilarity(current: seq<string>, stored: seq<string>): Option<real>
  {
    Jaccard(LowerSet(current), LowerSet(stored))
  }

  /**
   * `calculateSimilarity`: 0.7 times the column similarity plus 0.3 times the
   * type similarity, NaN when either is.
   */
  function Similarity(ctx: MemoryContext, stored: Schema): (r: Option<real>)
    ensures r.None? <==> ColumnSimilarity(ctx.dataColumns, stored.columns).None?
                         || TypeSimilarity(ctx.dataTypes, stored.types).None?
    ensures r.Some? ==> 0.0 <= r.value <= 1.0
  {
    var columns := ColumnSimilarity(ctx.dataColumns, stored.columns);
    var types := TypeSimilarity(ctx.dataTypes, stored.types);
    if columns.Some? && types.Some? then Some(columns.value * 0.7 + types.value * 0.3) else None
  }

  lemma ValuesNonEmpty(types: map<string, string>)
    requires types != map[]
    ensures TypeValues(types) != {}
  {
    var k :| k in types;
    assert types[k] in types.Values;
  }

  /** The similarity is NaN exactly when both column lists or both type records are empty. */
  lemma SimilarityDefined(ctx: MemoryContext, stored: Schema)
    ensures Similarity(ctx, stored).None?
            <==> (ctx.dataColumns == [] && stored.columns == []) || (ctx.dataTypes == map[] && stored.types == map[])
  {
    if ctx.dataColumns != [] {
      assert Lower(ctx.dataColumns[0]) in LowerSet(ctx.dataColumns);
    }
    if stored.columns != [] {
      assert Lower(stored.columns[0]) in LowerSet(stored.columns);
    }
    if ctx.dataTypes != map[] {
      ValuesNonEmpty(ctx.dataTypes);
    }
    if stored.types != map[] {
      ValuesNonEmpty(stored.types);
    }
  }

  /** A schema with columns and types compared with itself has similarity exactly 1. */
  lemma SelfSimilarity(ctx: MemoryContext)
    requires ctx.dataColumns != [] && ctx.dataTypes != map[]
    ensures Similarity(ctx, Schema(ctx.dataColumns, ctx.dataTypes)) == Some(1.0)
  {
    assert Lower(ctx.dataColumns[0]) in LowerSet(ctx.dataColumns);
    ValuesNonEmpty(ctx.dataTypes);
    JaccardOne(LowerSet(ctx.dataColumns), LowerSet(ctx.dataColumns));
    JaccardOne(TypeValues(ctx.dataTypes), TypeValues(ctx.dataTypes));
  }

  /** The similarity is exactly 1 only when the lowercased names and the type values agree as sets. */
  lemma SimilarityOne(ctx: MemoryContext, stored: Schema)
    requires Similarity(ctx, stored) == Some(1.0)
    ensures LowerSet(ctx.dataColumns) == LowerSet(stored.columns)
    ensures TypeValues(ctx.dataTypes) == TypeValues(stored.types)
  {
    var columns := ColumnSimilarity(ctx.dataColumns, stored.columns);
    var types := TypeSimilarity(ctx.dataTypes, stored.types);
    WeightedOne(columns.value, types.value);
    JaccardOne(LowerSet(ctx.dataColumns), LowerSet(stored.columns));
    JaccardOne(TypeValues(ctx.dataTypes), TypeValues(stored.types));
  }

  /** Weights 0.7 and 0.3 of two values in [0, 1] sum to 1 only when both are 1. */
  lemma WeightedOne(c: real, t: real)
    requires 0.0 <= c <= 1.0 && 0.0 <= t <= 1.0 && c * 0.7 + t * 0.3 == 1.0
    ensures c == 1.0 && t == 1.0
  {
  }

  /** With no lowercased column name in common the similarity is at most 0.3, so the pattern is never relevant. */
  lemma DisjointColumnsIrrelevant(ctx: MemoryContext, p: Pattern)
    requires LowerSet(ctx.dataColumns) * LowerSet(p.schema.columns) == {}
    ensures Similarity(ctx, p.schema).None? || Similarity(ctx, p.schema).value <= 0.3
    ensures !Relevant(Score(ctx, p))
  {
    var a, b := LowerSet(ctx.dataColumns), LowerSet(p.schema.columns);
    if a + b != {} {
      JaccardZero(a, b);
      assert ColumnSimilarity(ctx.dataColumns, p.schema.columns) == Some(0.0);
    }
  }

  // ----- Ranking -----

  /** A fetched pattern with its similarity. */
  datatype Scored = Scored(pattern: Pattern, similarity: Option<real>)

  function Score(ctx: MemoryContext, p: Pattern): Scored
  {
    Scored(p, Similarity(ctx, p.schema))
  }

  /** `.map(pattern => ({pattern, similarity}))`. */
  function Scores(ctx: MemoryContext, fetched: seq<Pattern>): (ss: seq<Scored>)
    ensures |ss| == |fetched| && forall i :: 0 <= i < |fetched| ==> ss[i] == Score(ctx, fetched[i])
  {
    seq(|fetched|, i requires 0 <= i < |fetched| => Score(ctx, fetched[i]))
  }

  /** `similarity > 0.3`, which NaN fails. */
  predicate Relevant(s: Scored)
  {
    s.similarity.Some? && s.similarity.value > 0.3
  }

  /** The sort key `b.similarity - a.similarity`; only relevant patterns, which have one, are sorted. */
  function SimilarityKey(s: Scored): real
  {
    if s.similarity.Some? then s.similarity.value else 0.0
  }

  /** The filter, the stable sort by similarity and the top five. */
  function Ranked(ctx: MemoryContext, fetched: seq<Pattern>): seq<Scored>
  {
    Take(SortDesc(Filter(Relevant, Scores(ctx, fetched)), SimilarityKey), 5)
  }

  /** The `.map(({pattern}) => …)` back to the patterns. */
  function Unscored(ss: seq<Scored>): (ps: seq<Pattern>)
    ensures |ps| == |ss| && forall i :: 0 <= i < |ss| ==> ps[i] == ss[i].pattern
  {
    seq(|ss|, i requires 0 <= i < |ss| => ss[i].pattern)
  }

  /**
   * `getRelevantPatterns`, given what the query fetched: `None` when the
   * database failed, and then no patterns; otherwise the ranked patterns.
   */
  function RelevantPatterns(ctx: MemoryContext, fetched: Option<seq<Pattern>>): (ps: seq<Pattern>)
    ensures fetched.None? ==> ps == []
  {
    match fetched
    case None => []
    case Some(rows) => Unscored(Ranked(ctx, rows))
  }

  /** A ranked entry is a relevant score of a fetched pattern. */
  lemma RankedFrom(ctx: MemoryContext, fetched: seq<Pattern>, i: nat)
    requires i < |Ranked(ctx, fetched)|
    ensures var s := Ranked(ctx, fetched)[i];
      s.pattern in fetched && s == Score(ctx, s.pattern) && Relevant(s)
  {
    var relevant := Filter(Relevant, Scores(ctx, fetched));
    var sorted := SortDesc(relevant, SimilarityKey);
    SortDescMembers(relevant, SimilarityKey);
    assert Ranked(ctx, fetched)[i] == sorted[i];
    var s := sorted[i];
    assert s in relevant;
    var k :| 0 <= k < |Scores(ctx, fetched)| && Scores(ctx, fetched)[k] == s;
    assert s.pattern == fetched[k];
  }

  /**
   * The ranking returns at most five of the fetched patterns, each with a
   * similarity above 0.3, in non-increasing similarity.
   */
  lemma RankingBounds(ctx: MemoryContext, fetched: seq<Pattern>)
    ensures var ps := RelevantPatterns(ctx, Some(fetched));
      && |ps| <= 5
      && (forall i :: 0 <= i < |ps| ==> ps[i] in fetched)
      && (forall i :: 0 <= i < |ps| ==> Similarity(ctx, ps[i].schema).Some? && Similarity(ctx, ps[i].schema).value > 0.3)
  {
    var r := Ranked(ctx, fetched);
    forall i | 0 <= i < |r|
      ensures r[i].pattern in fetched && Relevant(Score(ctx, r[i].pattern))
    {
      RankedFrom(ctx, fetched, i);
    }
  }

  /** The ranked patterns come in non-increasing similarity. */
  lemma RankingOrdered(ctx: MemoryContext, fetched: seq<Pattern>)
    ensures var ps := RelevantPatterns(ctx, Some(fetched));
      forall i, j :: 0 <= i < j < |ps| ==>
        SimilarityKey(Score(ctx, ps[i])) >= SimilarityKey(Score(ctx, ps[j]))
  {
    var r := Ranked(ctx, fetched);
    var ps := Unscored(r);
    var sorted := SortDesc(Filter(Relevant, Scores(ctx, fetched)), SimilarityKey);
    SortDescOrders(Filter(Relevant, Scores(ctx, fetched)), SimilarityKey);
    forall i, j | 0 <= i < j < |ps|
      ensures SimilarityKey(Score(ctx, ps[i])) >= SimilarityKey(Score(ctx, ps[j]))
    {
      RankedFrom(ctx, fetched, i);
      RankedFrom(ctx, fetched, j);
      assert r[i] == sorted[i] && r[j] == sorted[j];
      assert SimilarityKey(sorted[i]) >= SimilarityKey(sorted[j]);
      assert Score(ctx, ps[i]) == r[i] && Score(ctx, ps[j]) == r[j];
    }
  }

  lemma {:induction false} WithKeyPrefix<T>(s: seq<T>, n: nat, key: T -> real, k: real)
    requires n <= |s|
    ensures WithKey(s[..n], key, k) <= WithKey(s, key, k)
  {
    assert s == s[..n] + s[n..];
    WithKeyConcat(s[..n], s[n..], key, k);
  }

  /**
   * Ties keep the fetched (most recent first) order: for every similarity, the
   * ranked entries with it are a prefix of the relevant fetched entries with it.
   */
  lemma RankingStable(ctx: MemoryContext, fetched: seq<Pattern>, k: real)
    ensures WithKey(Ranked(ctx, fetched), SimilarityKey, k)
            <= WithKey(Filter(Relevant, Scores(ctx, fetched)), SimilarityKey, k)
  {
    var relevant := Filter(Relevant, Scores(ctx, fetched));
    var sorted := SortDesc(relevant, SimilarityKey);
    SortDescStable(relevant, SimilarityKey, k);
    WithKeyPrefix(sorted, |Ranked(ctx, fetched)|, SimilarityKey, k);
  }

  /** With at most five relevant patterns fetched, every one of them is returned. */
  lemma RankingComplete(ctx: MemoryContext, fetched: seq<Pattern>, p: Pattern)
    requires |Filter(Relevant, Scores(ctx, fetched))| <= 5
    requires p in fetched && Relevant(Score(ctx, p))
    ensures p in RelevantPatterns(ctx, Some(fetched))
  {
    var relevant := Filter(Relevant, Scores(ctx, fetched));
    var i :| 0 <= i < |fetched| && fetched[i] == p;
    assert Scores(ctx, fetched)[i] == Score(ctx, p);
    assert Score(ctx, p) in relevant;
    SortDescMembers(relevant, SimilarityKey);
    var r := Ranked(ctx, fetched);
    assert r == SortDesc(relevant, SimilarityKey);
    var j :| 0 <= j < |r| && r[j] == Score(ctx, p);
    assert Unscored(r)[j] == p;
  }

  // ----- Storing -----

  /** The `dashboardMemory` table. */
  class PatternStore {
    var rows: seq<Pattern>

    constructor()
      ensures rows == []
    {
      rows := [];
    }

    /**
     * `storeDashboardPattern`: the schema is the context's columns and
     * types, the intent its prompt. A failed write (`written` false) is
     * swallowed: the call returns normally and nothing is stored.
     */
    method StoreDashboardPattern(context: MemoryContext, successfulElements: seq<string>,
                                 commonMistakes: seq<string>, bestPractices: seq<string>,
                                 id: string, createdAt: int, written: bool)
      modifies this
      ensures written ==> rows == old(rows) + [Pattern(id, Schema(context.dataColumns, context.dataTypes),
                                                       context.userPrompt, successfulElements, commonMistakes,
                                                       bestPractices, createdAt)]
      ensures !written ==> rows == old(rows)
    {
      if written {
        var dataSchema := Schema(context.dataColumns, context.dataTypes);
        rows := rows + [Pattern(id, dataSchema, context.userPrompt, successfulElements, commonMistakes,
                                bestPractices, createdAt)];
      }
    }
  }

  // ----- The memory-enhanced prompt -----

  /** The three lists a pattern contributes. */
  datatype Part = Successes | Mistakes | Practices

  function PartOf(p: Pattern, part: Part): seq<string>
  {
    match part
    case Successes => p.successfulElements
    case Mistakes => p.commonMistakes
    case Practices => p.bestPractices
  }

  /** How many items of each list are written: 5 components, 3 issues, 3 practices. */
  function Cap(part: Part): nat
  {
    match part
    case Successes => 5
    case Mistakes => 3
    case Practices => 3
  }

  /** A line of the memory-enhanced prompt; the wording is not modelled. */
  datatype MemoryLine =
    | OriginalPrompt(text: string)
    | Recommendations
    | Heading(part: Part)
    | Item(part: Part, text: string)
    | Incorporate

  /** `patterns.flatMap(p => p.<part>)`. */
  function FlatMap(ps: seq<Pattern>, part: Part): seq<string>
  {
    if ps == [] then [] else FlatMap(ps[..|ps| - 1], part) + PartOf(ps[|ps| - 1], part)
  }

  /** An item occurs in the flattened list exactly when some pattern lists it. */
  lemma {:induction false} FlatMapMembers(ps: seq<Pattern>, part: Part, x: string)
    ensures x in FlatMap(ps, part) <==> exists i :: 0 <= i < |ps| && x in PartOf(ps[i], part)
  {
    if ps != [] {
      var init := ps[..|ps| - 1];
      FlatMapMembers(init, part, x);
      if x in FlatMap(ps, part) && x !in PartOf(ps[|ps| - 1], part) {
        var i :| 0 <= i < |init| && x in PartOf(init[i], part);
        assert ps[i] == init[i];
      }
      if exists i :: 0 <= i < |ps| && x in PartOf(ps[i], part) {
        var i :| 0 <= i < |ps| && x in PartOf(ps[i], part);
        if i < |init| {
          assert init[i] == ps[i];
        }
      }
    }
  }

  function Items(part: Part, xs: seq<string>): (ls: seq<MemoryLine>)
    ensures |ls| == |xs| && forall i :: 0 <= i < |xs| ==> ls[i] == Item(part, xs[i])
  {
    seq(|xs|, i requires 0 <= i < |xs| => Item(part, xs[i]))
  }

  /** The block of one list: written only when the deduplicated list is non-empty, then its first `Cap` items. */
  function Block(part: Part, all: seq<string>): seq<MemoryLine>
  {
    var unique := Dedup(all);
    if |unique| > 0 then [Heading(part)] + Items(part, Take(unique, Cap(part))) else []
  }

  /** What `generateMemoryEnhancedPrompt` writes. */
  function MemoryPrompt(originalPrompt: string, ps: seq<Pattern>): seq<MemoryLine>
  {
    if |ps| == 0 then [OriginalPrompt(originalPrompt)]
    else
      [OriginalPrompt(originalPrompt), Recommendations]
      + Block(Successes, FlatMap(ps, Successes))
      + Block(Mistakes, FlatMap(ps, Mistakes))
      + Block(Practices, FlatMap(ps, Practices))
      + [Incorporate]
  }

  /** The `flatMap` as a loop over the patterns. */
  method Collect(ps: seq<Pattern>, part: Part) returns (all: seq<string>)
    ensures all == FlatMap(ps, part)
  {
    all := [];
    for i := 0 to |ps|
      invariant all == FlatMap(ps[..i], part)
    {
      assert ps[..i + 1][..i] == ps[..i];
      all := all + PartOf(ps[i], part);
    }
    assert ps[..|ps|] == ps;
  }

  /** The `forEach` over the capped items. */
  method ItemLoop(part: Part, xs: seq<string>) returns (ls: seq<MemoryLine>)
    ensures ls == Items(part, xs)
  {
    ls := [];
    for i := 0 to |xs|
      invariant |ls| == i && forall k :: 0 <= k < i ==> ls[k] == Item(part, xs[k])
    {
      ls := ls + [Item(part, xs[i])];
    }
  }

  /** One of the three blocks. */
  method WriteBlock(ps: seq<Pattern>, part: Part) returns (block: seq<MemoryLine>)
    ensures block == Block(part, FlatMap(ps, part))
  {
    var all := Collect(ps, part);
    var unique := Dedup(all);
    block := [];
    if |unique| > 0 {
      var items := ItemLoop(part, Take(unique, Cap(part)));
      block := [Heading(part)] + items;
    }
  }

  /** `generateMemoryEnhancedPrompt`. */
  method GenerateMemoryEnhancedPrompt(originalPrompt: string, patterns: seq<Pattern>) returns (lines: seq<MemoryLine>)
    ensures lines == MemoryPrompt(originalPrompt, patterns)
  {
    if |patterns| == 0 {
      return [OriginalPrompt(originalPrompt)];
    }
    lines := [OriginalPrompt(originalPrompt), Recommendations];
    var successes := WriteBlock(patterns, Successes);
    lines := lines + successes;
    var mistakes := WriteBlock(patterns, Mistakes);
    lines := lines + mistakes;
    var practices := WriteBlock(patterns, Practices);
    lines := lines + practices + [Incorporate];
  }

  /** Without patterns the prompt is the original one; otherwise it starts with it and ends with the closing request. */
  lemma MemoryPromptEnds(originalPrompt: string, ps: seq<Pattern>)
    ensures ps == [] ==> MemoryPrompt(originalPrompt, ps) == [OriginalPrompt(originalPrompt)]
    ensures var p := MemoryPrompt(originalPrompt, ps);
      ps != [] ==> |p| >= 3 && p[0] == OriginalPrompt(originalPrompt) && p[|p| - 1] == Incorporate
  {
  }

  /** A block lists distinct items, at most its cap. */
  lemma BlockBounds(part: Part, all: seq<string>)
    ensures |Block(part, all)| <= Cap(part) + 1
    ensures var b := Block(part, all);
      forall i, j :: 1 <= i < j < |b| ==> b[i].Item? && b[j].Item? && b[i].text != b[j].text
  {
    var unique := Dedup(all);
    var t := Take(unique, Cap(part));
    assert forall i, j :: 0 <= i < j < |t| ==> t[i] == unique[i] && t[j] == unique[j];
  }

  /** A block holds its heading and items of its own part only. */
  lemma BlockParts(part: Part, all: seq<string>)
    ensures forall l :: l in Block(part, all) ==> l == Heading(part) || (l.Item? && l.part == part)
  {
  }

  /** An item is in a block exactly when it is among the first `Cap(part)` distinct items. */
  lemma BlockItems(part: Part, all: seq<string>, x: string)
    ensures Item(part, x) in Block(part, all) <==> x in Take(Dedup(all), Cap(part))
  {
    var t := Take(Dedup(all), Cap(part));
    ItemsMembers(part, t, x);
    if |Dedup(all)| > 0 {
      assert Block(part, all) == [Heading(part)] + Items(part, t);
    }
  }

  /** An item line is among the lines of a list exactly when the item is in the list. */
  lemma ItemsMembers(part: Part, xs: seq<string>, x: string)
    ensures Item(part, x) in Items(part, xs) <==> x in xs
  {
    if x in xs {
      var i :| 0 <= i < |xs| && xs[i] == x;
      assert Items(part, xs)[i] == Item(part, x);
    }
  }

  /**
   * An item line of a part appears exactly when the item is among the first
   * `Cap(part)` distinct items the patterns list for that part, in order of
   * first occurrence.
   */
  lemma MemoryPromptItems(originalPrompt: string, ps: seq<Pattern>, part: Part, x: string)
    ensures Item(part, x) in MemoryPrompt(originalPrompt, ps)
            <==> ps != [] && x in Take(Dedup(FlatMap(ps, part)), Cap(part))
  {
    if ps != [] {
      var b1 := Block(Successes, FlatMap(ps, Successes));
      var b2 := Block(Mistakes, FlatMap(ps, Mistakes));
      var b3 := Block(Practices, FlatMap(ps, Practices));
      assert MemoryPrompt(originalPrompt, ps) == [OriginalPrompt(originalPrompt), Recommendations] + b1 + b2 + b3 + [Incorporate];
      BlockParts(Successes, FlatMap(ps, Successes));
      BlockParts(Mistakes, FlatMap(ps, Mistakes));
      BlockParts(Practices, FlatMap(ps, Practices));
      BlockItems(part, FlatMap(ps, part), x);
    }
  }

  /** Every listed item was listed by some pattern. */
  lemma MemoryItemsFromPatterns(originalPrompt: string, ps: seq<Pattern>, part: Part, x: string)
    requires Item(part, x) in MemoryPrompt(originalPrompt, ps)
    ensures exists i :: 0 <= i < |ps| && x in PartOf(ps[i], part)
  {
    MemoryPromptItems(originalPrompt, ps, part, x);
    FlatMapMembers(ps, part, x);
  }

  // ----- Extraction -----

  /** A keyword test of the extractors: one substring, both of two, or either of two. */
  datatype Test = Has(word: string) | Both(first: string, second: string) | Either(first: string, second: string)

  predicate Holds(t: Test, text: string)
  {
    match t
    case Has(w) => Contains(text, w)
    case Both(a, b) => Contains(text, a) && Contains(text, b)
    case Either(a, b) => Contains(text, a) || Contains(text, b)
  }

  /** `if (test) elements.push(message)`. */
  datatype Rule = Rule(test: Test, message: string)

  /** The messages of the rules whose test holds, in rule order. */
  function Matching(rules: seq<Rule>, text: string): (r: seq<string>)
    ensures |r| <= |rules|
  {
    if rules == [] then []
    else
      var last := rules[|rules| - 1];
      Matching(rules[..|rules| - 1], text) + (if Holds(last.test, text) then [last.message] else [])
  }

  /** A message is produced exactly when one of its rules holds. */
  lemma {:induction false} MatchingMembers(rules: seq<Rule>, text: string, m: string)
    ensures m in Matching(rules, text) <==> exists i :: 0 <= i < |rules| && rules[i].message == m && Holds(rules[i].test, text)
  {
    if rules != [] {
      var init := rules[..|rules| - 1];
      MatchingMembers(init, text, m);
      assert forall i :: 0 <= i < |init| ==> rules[i] == init[i];
    }
  }

  /** No two rules share a message. */
  predicate DistinctMessages(rules: seq<Rule>)
  {
    forall i, j :: 0 <= i < j < |rules| ==> rules[i].message != rules[j].message
  }

  /** With distinct messages, no message is produced twice. */
  lemma {:induction false} MatchingNoDups(rules: seq<Rule>, text: string)
    requires DistinctMessages(rules)
    ensures NoDups(Matching(rules, text))
  {
    if rules != [] {
      var init := rules[..|rules| - 1];
      var last := rules[|rules| - 1];
      assert DistinctMessages(init);
      MatchingNoDups(init, text);
      MatchingMembers(init, text, last.message);
      assert forall i :: 0 <= i < |init| ==> rules[i] == init[i];
      assert last.message !in Matching(init, text);
    }
  }

  /** The rules of `extractSuccessfulElements` that look for chart components. */
  const ChartRules: seq<Rule> := [
    Rule(Has("LineChart"), "Line charts for trends"),
    Rule(Has("BarChart"), "Bar charts for comparisons"),
    Rule(Has("PieChart"), "Pie charts for distributions"),
    Rule(Has("AreaChart"), "Area charts for cumulative data"),
    Rule(Has("ScatterChart"), "Scatter plots for correlations")
  ]

  /** Its rules that look for metric cards and dropdown filters. */
  const CardRules: seq<Rule> := [
    Rule(Both("Card", "metric"), "Metric cards for KPIs"),
    Rule(Both("Select", "filter"), "Dropdown filters")
  ]

  /** Its rules that look for date pickers, grids and responsive design. */
  const LayoutRules: seq<Rule> := [
    Rule(Either("DatePicker", "date"), "Date range selectors"),
    Rule(Either("Grid", "grid"), "Grid layouts"),
    Rule(Has("responsive"), "Responsive design patterns")
  ]

  /** Its rules that look for data patterns. */
  const DataRules: seq<Rule> := [
    Rule(Either("aggregate", "group"), "Data aggregation"),
    Rule(Either("sort", "filter"), "Data filtering and sorting"),
    Rule(Both("useState", "filter"), "Interactive filtering")
  ]

  /** The rules of `extractSuccessfulElements`, in the order of its `if`s. */
  const SuccessRules: seq<Rule> := ChartRules + CardRules + LayoutRules + DataRules

  /** The rules of `extractCommonMistakes` about data access. */
  const AccessRules: seq<Rule> := [
    Rule(Both("undefined", "map"), "Check data arrays before mapping"),
    Rule(Both("Cannot read property", "data"), "Validate data structure before use")
  ]

  /** Its rules about chart setup. */
  const SetupRules: seq<Rule> := [
    Rule(Has("ResponsiveContainer"), "Wrap charts in ResponsiveContainer"),
    Rule(Has("dataKey"), "Verify dataKey matches actual column names"),
    Rule(Either("height", "width"), "Set explicit dimensions for charts")
  ]

  /** The rules applied to each error by `extractCommonMistakes`, in the order of its `if`s. */
  const MistakeRules: seq<Rule> := AccessRules + SetupRules

  lemma SuccessRulesDistinct()
    ensures DistinctMessages(SuccessRules)
  {
    forall i, j | 0 <= i < j < |SuccessRules|
      ensures SuccessRules[i].message != SuccessRules[j].message
    {
      assert SuccessRules[i].message[0] != SuccessRules[j].message[0]
             || SuccessRules[i].message[1] != SuccessRules[j].message[1]
             || |SuccessRules[i].message| != |SuccessRules[j].message|;
    }
  }

  lemma MistakeRulesDistinct()
    ensures DistinctMessages(MistakeRules)
  {
    forall i, j | 0 <= i < j < |MistakeRules|
      ensures MistakeRules[i].message != MistakeRules[j].message
    {
      assert MistakeRules[i].message[0] != MistakeRules[j].message[0]
             || MistakeRules[i].message[1] != MistakeRules[j].message[1];
    }
  }

  /** `extractSuccessfulElements`: the chart, user-interface and data rules in turn, pushing into one list. */
  method ExtractSuccessfulElements(code: string) returns (elements: seq<string>)
    ensures elements == Matching(SuccessRules, code)
  {
    var charts := ChartElements(code);
    var cards := CardElements(code);
    var layout := LayoutElements(code);
    var data := DataElements(code);
    elements := charts + cards + layout + data;
    MatchingConcat(ChartRules, CardRules, code);
    MatchingConcat(ChartRules + CardRules, LayoutRules, code);
    MatchingConcat(ChartRules + CardRules + LayoutRules, DataRules, code);
  }

  /** Unfolds one rule, `Rule(t, m)`, at the end of a prefix of the rules. */
  lemma MatchingSnoc(rules: seq<Rule>, n: nat, text: string, t: Test, m: string)
    requires 0 < n <= |rules| && rules[n - 1] == Rule(t, m)
    ensures Matching(rules[..n], text) == Matching(rules[..n - 1], text) + (if Holds(t, text) then [m] else [])
  {
    assert rules[..n][..n - 1] == rules[..n - 1];
  }

  /** The rules of two lists in turn produce the messages of each in turn. */
  lemma {:induction false} MatchingConcat(a: seq<Rule>, b: seq<Rule>, text: string)
    ensures Matching(a + b, text) == Matching(a, text) + Matching(b, text)
  {
    if b == [] {
      assert a + b == a;
    } else {
      var init := b[..|b| - 1];
      MatchingConcat(a, init, text);
      assert (a + b)[..|a + b| - 1] == a + init;
    }
  }

  /** The `if`s that look for chart components. */
  method ChartElements(code: string) returns (found: seq<string>)
    ensures found == Matching(ChartRules, code)
  {
    found := [];
    assert ChartRules[..0] == [];
    if Contains(code, "LineChart") {
      found := found + ["Line charts for trends"];
    }
    MatchingSnoc(ChartRules, 1, code, Has("LineChart"), "Line charts for trends");
    assert found == Matching(ChartRules[..1], code);
    if Contains(code, "BarChart") {
      found := found + ["Bar charts for comparisons"];
    }
    MatchingSnoc(ChartRules, 2, code, Has("BarChart"), "Bar charts for comparisons");
    assert found == Matching(ChartRules[..2], code);
    if Contains(code, "PieChart") {
      found := found + ["Pie charts for distributions"];
    }
    MatchingSnoc(ChartRules, 3, code, Has("PieChart"), "Pie charts for distributions");
    assert found == Matching(ChartRules[..3], code);
    if Contains(code, "AreaChart") {
      found := found + ["Area charts for cumulative data"];
    }
    MatchingSnoc(ChartRules, 4, code, Has("AreaChart"), "Area charts for cumulative data");
    assert found == Matching(ChartRules[..4], code);
    if Contains(code, "ScatterChart") {
      found := found + ["Scatter plots for correlations"];
    }
    MatchingSnoc(ChartRules, 5, code, Has("ScatterChart"), "Scatter plots for correlations");
    assert ChartRules[..5] == ChartRules;
  }

  /** The `if`s that look for metric cards and dropdown filters. */
  method CardElements(code: string) returns (found: seq<string>)
    ensures found == Matching(CardRules, code)
  {
    found := [];
    assert CardRules[..0] == [];
    if Contains(code, "Card") && Contains(code, "metric") {
      found := found + ["Metric cards for KPIs"];
    }
    MatchingSnoc(CardRules, 1, code, Both("Card", "metric"), "Metric cards for KPIs");
    assert found == Matching(CardRules[..1], code);
    if Contains(code, "Select") && Contains(code, "filter") {
      found := found + ["Dropdown filters"];
    }
    MatchingSnoc(CardRules, 2, code, Both("Select", "filter"), "Dropdown filters");
    assert CardRules[..2] == CardRules;
  }

  /** The `if`s that look for date pickers, grids and responsive design. */
  method LayoutElements(code: string) returns (found: seq<string>)
    ensures found == Matching(LayoutRules, code)
  {
    found := [];
    assert LayoutRules[..0] == [];
    if Contains(code, "DatePicker") || Contains(code, "date") {
      found := found + ["Date range selectors"];
    }
    MatchingSnoc(LayoutRules, 1, code, Either("DatePicker", "date"), "Date range selectors");
    assert found == Matching(LayoutRules[..1], code);
    if Contains(code, "Grid") || Contains(code, "grid") {
      found := found + ["Grid layouts"];
    }
    MatchingSnoc(LayoutRules, 2, code, Either("Grid", "grid"), "Grid layouts");
    assert found == Matching(LayoutRules[..2], code);
    if Contains(code, "responsive") {
      found := found + ["Responsive design patterns"];
    }
    MatchingSnoc(LayoutRules, 3, code, Has("responsive"), "Responsive design patterns");
    assert LayoutRules[..3] == LayoutRules;
  }

  /** The `if`s that look for data patterns. */
  method DataElements(code: string) returns (found: seq<string>)
    ensures found == Matching(DataRules, code)
  {
    found := [];
    assert DataRules[..0] == [];
    if Contains(code, "aggregate") || Contains(code, "group") {
      found := found + ["Data aggregation"];
    }
    MatchingSnoc(DataRules, 1, code, Either("aggregate", "group"), "Data aggregation");
    assert found == Matching(DataRules[..1], code);
    if Contains(code, "sort") || Contains(code, "filter") {
      found := found + ["Data filtering and sorting"];
    }
    MatchingSnoc(DataRules, 2, code, Either("sort", "filter"), "Data filtering and sorting");
    assert found == Matching(DataRules[..2], code);
    if Contains(code, "useState") && Contains(code, "filter") {
      found := found + ["Interactive filtering"];
    }
    MatchingSnoc(DataRules, 3, code, Both("useState", "filter"), "Interactive filtering");
    assert DataRules[..3] == DataRules;
  }

  /**
   * The successful elements are distinct, at most 13, and a message is
   * present exactly when its keyword test holds on the code.
   */
  lemma SuccessfulElementsFacts(code: string, m: string)
    ensures |Matching(SuccessRules, code)| <= 13
    ensures NoDups(Matching(SuccessRules, code))
    ensures m in Matching(SuccessRules, code)
            <==> exists i :: 0 <= i < |SuccessRules| && SuccessRules[i].message == m && Holds(SuccessRules[i].test, code)
  {
    SuccessRulesDistinct();
    MatchingNoDups(SuccessRules, code);
    MatchingMembers(SuccessRules, code, m);
  }

  /** The mistakes of each error in turn, before deduplication. */
  function MistakesOf(errors: seq<string>): seq<string>
  {
    if errors == [] then [] else MistakesOf(errors[..|errors| - 1]) + Matching(MistakeRules, errors[|errors| - 1])
  }

  /** The five `if`s of the `forEach` body. */
  method MistakesOfError(error: string) returns (mistakes: seq<string>)
    ensures mistakes == Matching(MistakeRules, error)
  {
    var access := AccessMistakes(error);
    var setup := SetupMistakes(error);
    mistakes := access + setup;
    MatchingConcat(AccessRules, SetupRules, error);
  }

  /** Its `if`s about data access. */
  method AccessMistakes(error: string) returns (found: seq<string>)
    ensures found == Matching(AccessRules, error)
  {
    found := [];
    assert AccessRules[..0] == [];
    if Contains(error, "undefined") && Contains(error, "map") {
      found := found + ["Check data arrays before mapping"];
    }
    MatchingSnoc(AccessRules, 1, error, Both("undefined", "map"), "Check data arrays before mapping");
    assert found == Matching(AccessRules[..1], error);
    if Contains(error, "Cannot read property") && Contains(error, "data") {
      found := found + ["Validate data structure before use"];
    }
    MatchingSnoc(AccessRules, 2, error, Both("Cannot read property", "data"), "Validate data structure before use");
    assert AccessRules[..2] == AccessRules;
  }

  /** Its `if`s about chart setup. */
  method SetupMistakes(error: string) returns (found: seq<string>)
    ensures found == Matching(SetupRules, error)
  {
    found := [];
    assert SetupRules[..0] == [];
    if Contains(error, "ResponsiveContainer") {
      found := found + ["Wrap charts in ResponsiveContainer"];
    }
    MatchingSnoc(SetupRules, 1, error, Has("ResponsiveContainer"), "Wrap charts in ResponsiveContainer");
    assert found == Matching(SetupRules[..1], error);
    if Contains(error, "dataKey") {
      found := found + ["Verify dataKey matches actual column names"];
    }
    MatchingSnoc(SetupRules, 2, error, Has("dataKey"), "Verify dataKey matches actual column names");
    assert found == Matching(SetupRules[..2], error);
    if Contains(error, "height") || Contains(error, "width") {
      found := found + ["Set explicit dimensions for charts"];
    }
    MatchingSnoc(SetupRules, 3, error, Either("height", "width"), "Set explicit dimensions for charts");
    assert SetupRules[..3] == SetupRules;
  }

  /** `extractCommonMistakes`: the messages of every error, then `[...new Set(mistakes)]`. */
  method ExtractCommonMistakes(errors: seq<string>) returns (mistakes: seq<string>)
    ensures mistakes == Dedup(MistakesOf(errors))
  {
    var all := [];
    for i := 0 to |errors|
      invariant all == MistakesOf(errors[..i])
    {
      assert errors[..i + 1][..i] == errors[..i];
      var ms := MistakesOfError(errors[i]);
      all := all + ms;
    }
    assert errors[..|errors|] == errors;
    mistakes := Dedup(all);
  }

  lemma {:induction false} MistakesOfMembers(errors: seq<string>, m: string)
    ensures m in MistakesOf(errors) <==> exists e :: e in errors && m in Matching(MistakeRules, e)
  {
    if errors != [] {
      var init := errors[..|errors| - 1];
      var last := errors[|errors| - 1];
      MistakesOfMembers(init, m);
      assert errors == init + [last];
      if m in Matching(MistakeRules, last) {
        assert last in errors;
      }
      if m in MistakesOf(init) {
        var e :| e in init && m in Matching(MistakeRules, e);
        assert e in errors;
      }
      if exists e :: e in errors && m in Matching(MistakeRules, e) {
        var e :| e in errors && m in Matching(MistakeRules, e);
        if e != last {
          assert e in init;
        }
      }
    }
  }

  /**
   * The common mistakes are distinct, at most five, and a message is present
   * exactly when its test holds on some error.
   */
  lemma CommonMistakesFacts(errors: seq<string>, m: string)
    ensures |Dedup(MistakesOf(errors))| <= 5
    ensures NoDups(Dedup(MistakesOf(errors)))
    ensures m in Dedup(MistakesOf(errors))
            <==> exists e, i :: e in errors && 0 <= i < |MistakeRules| && MistakeRules[i].message == m && Holds(MistakeRules[i].test, e)
  {
    var r := Dedup(MistakesOf(errors));
    var messages := seq(|MistakeRules|, i requires 0 <= i < |MistakeRules| => MistakeRules[i].message);
    forall k | 0 <= k < |r|
      ensures r[k] in messages
    {
      MistakesOfMembers(errors, r[k]);
      var e :| e in errors && r[k] in Matching(MistakeRules, e);
      MatchingMembers(MistakeRules, e, r[k]);
      var i :| 0 <= i < |MistakeRules| && MistakeRules[i].message == r[k] && Holds(MistakeRules[i].test, e);
      assert messages[i] == r[k];
    }
    NoDupsWithin(r, messages);
    MistakesOfMembers(errors, m);
    if m in MistakesOf(errors) {
      var e :| e in errors && m in Matching(MistakeRules, e);
      MatchingMembers(MistakeRules, e, m);
    }
    if exists e, i :: e in errors && 0 <= i < |MistakeRules| && MistakeRules[i].message == m && Holds(MistakeRules[i].test, e) {
      var e, i :| e in errors && 0 <= i < |MistakeRules| && MistakeRules[i].message == m && Holds(MistakeRules[i].test, e);
      MatchingMembers(MistakeRules, e, m);
    }
  }

  // ----- The enhanced context -----

  /**
   * `createEnhancedMemoryContext`: the columns, types and prompt, and with
   * reasoning insights also their business context, charts and KPIs (the
   * `type: title` and `metric (cardType)` labels are represented by the
   * recommendations themselves).
   */
  method CreateEnhancedMemoryContext(dataColumns: seq<string>, dataTypes: map<string, string>, userPrompt: string,
                                     reasoningInsights: Option<Engine.DataInsights>)
    returns (context: MemoryContext)
    ensures context.dataColumns == dataColumns && context.dataTypes == dataTypes && context.userPrompt == userPrompt
    ensures reasoningInsights.None? ==>
      context.businessContext.None? && context.recommendedCharts.None? && context.recommendedKpis.None?
    ensures reasoningInsights.Some? ==>
      && context.businessContext == Some(reasoningInsights.value.businessContext)
      && context.recommendedCharts == Some(reasoningInsights.value.chartRecommendations)
      && context.recommendedKpis == Some(reasoningInsights.value.keyMetrics)
  {
    context := MemoryContext(dataColumns, dataTypes, userPrompt, None, None, None);
    if reasoningInsights.Some? {
      var ins := reasoningInsights.value;
      context := context.(businessContext := Some(ins.businessContext),
                          recommendedCharts := Some(ins.chartRecommendations),
                          recommendedKpis := Some(ins.keyMetrics));
    }
  }
}
