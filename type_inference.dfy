/**
 * Column-type inference (`analyzeDataTypes`) and the dataset summary
 * (`generateDataSummary`). The two functions appear verbatim in both
 * lib/data-parser.ts and app/api/import-data/route.ts; they are modelled
 * once here.
 */
module TypeInference {
  import opened Wrappers
  import opened Seqs
  import opened Text
  import opened Records

  datatype ColumnType = IntegerType | FloatType | DateType | BooleanType | StringType | UnknownType

  /** The name the source stores in its type record. */
  function TypeName(t: ColumnType): string
  {
    match t
    case IntegerType => "integer"
    case FloatType => "float"
    case DateType => "date"
    case BooleanType => "boolean"
    case StringType => "string"
    case UnknownType => "unknown"
  }

  lemma TypeNameInjective(s: ColumnType, t: ColumnType)
    ensures TypeName(s) == TypeName(t) ==> s == t
  {
  }

  /**
   * JavaScript's coercions, whose engine-specific rules are not modelled:
   * `isNumeric(v)` is `!isNaN(Number(v))` and `isDate(v)` is
   * `!isNaN(Date.parse(v))`.
   */
  datatype Coercion = Coercion(isNumeric: Cell -> bool, isDate: Cell -> bool)

  /** The values that are not `null`, `undefined` or `''`, in order. */
  function Present(values: seq<Cell>): (r: seq<Cell>)
    ensures |r| <= |values|
    ensures forall i :: 0 <= i < |r| ==> !IsBlank(r[i]) && r[i] in values
  {
    if values == [] then []
    else (if IsBlank(values[0]) then [] else [values[0]]) + Present(values[1..])
  }

  lemma {:induction false} PresentConcat(a: seq<Cell>, b: seq<Cell>)
    ensures Present(a + b) == Present(a) + Present(b)
  {
    if a == [] {
      assert a + b == b;
    } else {
      assert (a + b)[1..] == a[1..] + b;
      PresentConcat(a[1..], b);
    }
  }

  lemma {:induction false} PresentEmpty(values: seq<Cell>)
    ensures Present(values) == [] <==> forall i :: 0 <= i < |values| ==> IsBlank(values[i])
  {
    if values != [] {
      PresentEmpty(values[1..]);
      assert forall i :: 1 <= i < |values| ==> values[i] == values[1..][i - 1];
    }
  }

  /** The sample the rules look at: the first 100 present values. */
  function Sample(values: seq<Cell>): (s: seq<Cell>)
    ensures |s| <= 100
  {
    Take(Present(values), 100)
  }

  /** `String(val).toLowerCase()` is one of the six boolean spellings. */
  predicate BooleanLike(v: Cell)
  {
    Lower(CellText(v)) in ["true", "false", "1", "0", "yes", "no"]
  }

  predicate HasDot(v: Cell)
  {
    Contains(CellText(v), ".")
  }

  /**
   * The rule order of `analyzeDataTypes`, first match wins: no present value
   * gives unknown; all samples numeric gives float when one of them shows a
   * '.', else integer; some sample a date gives date; all samples
   * boolean-like gives boolean; otherwise string.
   */
  function InferColumnType(values: seq<Cell>, co: Coercion): ColumnType
  {
    RuleFor(Sample(values), co)
  }

  /** The outcomes of the rule order, each stated as a condition on the column and its sample. */
  lemma InferenceRules(values: seq<Cell>, co: Coercion)
    ensures InferColumnType(values, co) == UnknownType <==> forall i :: 0 <= i < |values| ==> IsBlank(values[i])
    ensures var s := Sample(values);
      InferColumnType(values, co) == FloatType <==>
      s != [] && (forall i :: 0 <= i < |s| ==> co.isNumeric(s[i])) && exists i :: 0 <= i < |s| && HasDot(s[i])
    ensures var s := Sample(values);
      InferColumnType(values, co) == IntegerType <==>
      s != [] && (forall i :: 0 <= i < |s| ==> co.isNumeric(s[i])) && forall i :: 0 <= i < |s| ==> !HasDot(s[i])
    ensures var s := Sample(values);
      InferColumnType(values, co) == DateType <==>
      (exists i :: 0 <= i < |s| && !co.isNumeric(s[i])) && exists i :: 0 <= i < |s| && co.isDate(s[i])
    ensures var s := Sample(values);
      InferColumnType(values, co) == BooleanType <==>
      (exists i :: 0 <= i < |s| && !co.isNumeric(s[i])) && (forall i :: 0 <= i < |s| ==> !co.isDate(s[i]))
      && forall i :: 0 <= i < |s| ==> BooleanLike(s[i])
    ensures var s := Sample(values);
      InferColumnType(values, co) == StringType <==>
      (exists i :: 0 <= i < |s| && !co.isNumeric(s[i])) && (forall i :: 0 <= i < |s| ==> !co.isDate(s[i]))
      && exists i :: 0 <= i < |s| && !BooleanLike(s[i])
  {
    PresentEmpty(values);
  }

  /** The rules applied to a sample; an empty sample means no present value at all. */
  function RuleFor(sample: seq<Cell>, co: Coercion): ColumnType
  {
    if sample == [] then UnknownType
    else if forall i | 0 <= i < |sample| :: co.isNumeric(sample[i]) then
      (if exists i | 0 <= i < |sample| :: HasDot(sample[i]) then FloatType else IntegerType)
    else if exists i | 0 <= i < |sample| :: co.isDate(sample[i]) then DateType
    else if forall i | 0 <= i < |sample| :: BooleanLike(sample[i]) then BooleanType
    else StringType
  }

  /** Only the first 100 present values matter: values appended after them never change the type. */
  lemma InferIgnoresLaterValues(values: seq<Cell>, more: seq<Cell>, co: Coercion)
    requires |Present(values)| >= 100
    ensures InferColumnType(values + more, co) == InferColumnType(values, co)
  {
    SampleIgnoresLaterValues(values, more);
  }

  lemma SampleIgnoresLaterValues(values: seq<Cell>, more: seq<Cell>)
    requires |Present(values)| >= 100
    ensures Sample(values + more) == Sample(values)
  {
    PresentConcat(values, more);
    assert Present(values + more)[..100] == Present(values)[..100];
  }

  /** The type map `analyzeDataTypes` returns, as a whole. */
  function TypeMap(data: seq<Record>, headers: seq<string>, co: Coercion): map<string, ColumnType>
  {
    map h | h in headers :: InferColumnType(Column(data, h), co)
  }

  /** A header's entry in the type map is 'unknown' exactly when every record's value for it is blank. */
  lemma TypeMapUnknown(data: seq<Record>, headers: seq<string>, co: Coercion, h: string)
    ensures TypeMap(data, headers, co).Keys == set k | k in headers
    ensures h in headers ==>
      (TypeMap(data, headers, co)[h] == UnknownType <==> forall i :: 0 <= i < |data| ==> IsBlank(Get(data[i], h)))
  {
    var col := Column(data, h);
    InferenceRules(col, co);
    assert forall i :: 0 <= i < |data| ==> col[i] == Get(data[i], h);
  }

  /**
   * `analyzeDataTypes`: fills the type record header by header. Every header
   * gets exactly one entry, the inferred type of its column.
   */
  method AnalyzeDataTypes(data: seq<Record>, headers: seq<string>, co: Coercion) returns (types: map<string, ColumnType>)
    ensures types.Keys == set h | h in headers
    ensures forall h :: h in types ==> types[h] == InferColumnType(Column(data, h), co)
    ensures types == TypeMap(data, headers, co)
  {
    types := map[];
    for j := 0 to |headers|
      invariant types == TypeMap(data, headers[..j], co)
    {
      var values := Column(data, headers[j]);
      types := types[headers[j] := InferColumnType(values, co)];
      assert headers[..j + 1] == headers[..j] + [headers[j]];
      TypeMapSnoc(data, headers[..j], headers[j], co);
    }
    assert headers[..|headers|] == headers;
  }

  lemma TypeMapSnoc(data: seq<Record>, hs: seq<string>, h: string, co: Coercion)
    ensures TypeMap(data, hs + [h], co) == TypeMap(data, hs, co)[h := InferColumnType(Column(data, h), co)]
  {
  }

  /** `dataTypes[h]`, with a missing entry treated like 'unknown' (neither numeric, date nor string). */
  function TypeOf(types: map<string, ColumnType>, h: string): ColumnType
  {
    if h in types then types[h] else UnknownType
  }

  predicate IsNumericType(t: ColumnType)
  {
    t == IntegerType || t == FloatType
  }

  /** `headers.filter(h => ['integer', 'float'].includes(dataTypes[h]))`. */
  function NumericColumns(headers: seq<string>, types: map<string, ColumnType>): (r: seq<string>)
    ensures |r| <= |headers|
    ensures forall i :: 0 <= i < |r| ==> r[i] in headers && IsNumericType(TypeOf(types, r[i]))
    ensures forall h :: h in headers && IsNumericType(TypeOf(types, h)) ==> h in r
  {
    if headers == [] then []
    else (if IsNumericType(TypeOf(types, headers[0])) then [headers[0]] else []) + NumericColumns(headers[1..], types)
  }

  /** `headers.filter(h => dataTypes[h] === t)` for a single type. */
  function ColumnsOfType(headers: seq<string>, types: map<string, ColumnType>, t: ColumnType): (r: seq<string>)
    ensures |r| <= |headers|
    ensures forall i :: 0 <= i < |r| ==> r[i] in headers && TypeOf(types, r[i]) == t
    ensures forall h :: h in headers && TypeOf(types, h) == t ==> h in r
  {
    if headers == [] then []
    else (if TypeOf(types, headers[0]) == t then [headers[0]] else []) + ColumnsOfType(headers[1..], types, t)
  }

  function DateColumns(headers: seq<string>, types: map<string, ColumnType>): seq<string>
  {
    ColumnsOfType(headers, types, DateType)
  }

  function CategoryColumns(headers: seq<string>, types: map<string, ColumnType>): seq<string>
  {
    ColumnsOfType(headers, types, StringType)
  }

  // ----- The summary -----

  /** `Object.values(dataTypes)` for a record filled in header order. */
  function TypeValues(headers: seq<string>, types: map<string, ColumnType>): (vs: seq<ColumnType>)
    ensures |vs| == |headers|
  {
    seq(|headers|, j requires 0 <= j < |headers| => TypeOf(types, headers[j]))
  }

  /** How often `x` occurs in `s`. */
  function Count<T(==)>(s: seq<T>, x: T): nat
  {
    if s == [] then 0 else (if s[0] == x then 1 else 0) + Count(s[1..], x)
  }

  lemma {:induction false} CountSnoc<T>(s: seq<T>, x: T, t: T)
    ensures Count(s + [x], t) == Count(s, t) + (if x == t then 1 else 0)
  {
    if s != [] {
      assert (s + [x])[1..] == s[1..] + [x];
      CountSnoc(s[1..], x, t);
    } else {
      assert [] + [x] == [x];
    }
  }

  /**
   * The `reduce` that counts each type: one entry per distinct type, in the
   * order of first appearance (a JavaScript object keeps insertion order).
   */
  function Distribution(vals: seq<ColumnType>): (d: seq<(ColumnType, nat)>)
    ensures |d| == |Dedup(vals)|
    ensures forall i :: 0 <= i < |d| ==> d[i] == (Dedup(vals)[i], Count(vals, Dedup(vals)[i]))
  {
    var kinds := Dedup(vals);
    seq(|kinds|, i requires 0 <= i < |kinds| => (kinds[i], Count(vals, kinds[i])))
  }

  function SumCounts(d: seq<(ColumnType, nat)>): nat
  {
    if d == [] then 0 else d[0].1 + SumCounts(d[1..])
  }

  /** The sum over the types in `ks` of their counts in `vals`. */
  function CountOver(ks: seq<ColumnType>, vals: seq<ColumnType>): nat
  {
    if ks == [] then 0 else Count(vals, ks[0]) + CountOver(ks[1..], vals)
  }

  lemma {:induction false} CountOfNoDups<T>(s: seq<T>, x: T)
    requires NoDups(s)
    ensures Count(s, x) == if x in s then 1 else 0
  {
    if s != [] {
      assert NoDups(s[1..]);
      CountOfNoDups(s[1..], x);
      if s[0] == x {
        assert x !in s[1..];
      }
    }
  }

  lemma {:induction false} CountOverCons(ks: seq<ColumnType>, v: ColumnType, rest: seq<ColumnType>)
    ensures CountOver(ks, [v] + rest) == Count(ks, v) + CountOver(ks, rest)
  {
    assert ([v] + rest)[1..] == rest;
    if ks != [] {
      CountOverCons(ks[1..], v, rest);
    }
  }

  /** Summing the counts over a duplicate-free list of all the values gives the number of values. */
  lemma {:induction false} CountOverAll(ks: seq<ColumnType>, vals: seq<ColumnType>)
    requires NoDups(ks)
    requires forall i :: 0 <= i < |vals| ==> vals[i] in ks
    ensures CountOver(ks, vals) == |vals|
  {
    if vals == [] {
      CountOverNone(ks);
    } else {
      assert vals == [vals[0]] + vals[1..];
      CountOverCons(ks, vals[0], vals[1..]);
      CountOfNoDups(ks, vals[0]);
      CountOverAll(ks, vals[1..]);
    }
  }

  lemma {:induction false} CountOverNone(ks: seq<ColumnType>)
    ensures CountOver(ks, []) == 0
  {
    if ks != [] {
      CountOverNone(ks[1..]);
    }
  }

  lemma {:induction false} SumCountsIsCountOver(vals: seq<ColumnType>, ks: seq<ColumnType>)
    ensures SumCounts(seq(|ks|, i requires 0 <= i < |ks| => (ks[i], Count(vals, ks[i])))) == CountOver(ks, vals)
  {
    var d := seq(|ks|, i requires 0 <= i < |ks| => (ks[i], Count(vals, ks[i])));
    if ks != [] {
      SumCountsIsCountOver(vals, ks[1..]);
      assert d[1..] == seq(|ks[1..]|, i requires 0 <= i < |ks[1..]| => (ks[1..][i], Count(vals, ks[1..][i])));
    }
  }

  /** The counts of the type distribution add up to the number of values counted. */
  lemma DistributionSums(vals: seq<ColumnType>)
    ensures SumCounts(Distribution(vals)) == |vals|
  {
    var ks := Dedup(vals);
    assert Distribution(vals) == seq(|ks|, i requires 0 <= i < |ks| => (ks[i], Count(vals, ks[i])));
    SumCountsIsCountOver(vals, ks);
    CountOverAll(ks, vals);
  }

  /** A line of the summary text; the wording around the numbers is not modelled. */
  datatype SummaryLine =
    | SizeLine(rows: nat, columns: nat)        // 'Dataset contains R rows and C columns.'
    | ColumnsLine(names: seq<string>)          // 'Columns: a, b, c'
    | TypeCountLine(t: ColumnType, count: nat) // '- N T column(s)'
    | NumericLine(count: nat)
    | DateLine(count: nat)
    | CategoryLine(count: nat)

  function TypeCountLines(d: seq<(ColumnType, nat)>): (ls: seq<SummaryLine>)
    ensures |ls| == |d|
    ensures forall i :: 0 <= i < |d| ==> ls[i] == TypeCountLine(d[i].0, d[i].1)
  {
    seq(|d|, i requires 0 <= i < |d| => TypeCountLine(d[i].0, d[i].1))
  }

  /** The "key insights" lines: one per kind of column, present only when there is such a column. */
  function InsightLines(headers: seq<string>, types: map<string, ColumnType>): seq<SummaryLine>
  {
    var n := |NumericColumns(headers, types)|;
    var d := |DateColumns(headers, types)|;
    var c := |CategoryColumns(headers, types)|;
    (if n > 0 then [NumericLine(n)] else []) + (if d > 0 then [DateLine(d)] else []) + (if c > 0 then [CategoryLine(c)] else [])
  }

  /** The summary as a list of lines. */
  function SummaryOf(headers: seq<string>, rows: seq<seq<Cell>>, types: map<string, ColumnType>): seq<SummaryLine>
  {
    [SizeLine(|rows|, |headers|), ColumnsLine(headers)]
      + TypeCountLines(Distribution(TypeValues(headers, types)))
      + InsightLines(headers, types)
  }

  /** `generateDataSummary`: appends the size, the columns, one line per type and the insight lines. */
  method GenerateDataSummary(headers: seq<string>, rows: seq<seq<Cell>>, types: map<string, ColumnType>)
    returns (summary: seq<SummaryLine>)
    ensures summary == SummaryOf(headers, rows, types)
  {
    var dist := Distribution(TypeValues(headers, types));
    var typeLines := TypeCountLoop(dist);
    summary := [SizeLine(|rows|, |headers|), ColumnsLine(headers)] + typeLines;
    var numeric := NumericColumns(headers, types);
    var dates := DateColumns(headers, types);
    var categories := CategoryColumns(headers, types);
    var insights := [];
    if |numeric| > 0 {
      insights := insights + [NumericLine(|numeric|)];
    }
    if |dates| > 0 {
      insights := insights + [DateLine(|dates|)];
    }
    if |categories| > 0 {
      insights := insights + [CategoryLine(|categories|)];
    }
    summary := summary + insights;
  }

  /** The `forEach` over the type counts, one line each. */
  method TypeCountLoop(dist: seq<(ColumnType, nat)>) returns (lines: seq<SummaryLine>)
    ensures lines == TypeCountLines(dist)
  {
    lines := [];
    for i := 0 to |dist|
      invariant |lines| == i
      invariant forall k :: 0 <= k < i ==> lines[k] == TypeCountLine(dist[k].0, dist[k].1)
    {
      lines := lines + [TypeCountLine(dist[i].0, dist[i].1)];
    }
  }

  /**
   * The summary starts with the size line, and has an insight line for a kind
   * of column exactly when the dataset has a column of that kind.
   */
  lemma SummaryShape(headers: seq<string>, rows: seq<seq<Cell>>, types: map<string, ColumnType>)
    ensures SummaryOf(headers, rows, types)[0] == SizeLine(|rows|, |headers|)
    ensures NumericLine(|NumericColumns(headers, types)|) in SummaryOf(headers, rows, types) <==> |NumericColumns(headers, types)| > 0
    ensures DateLine(|DateColumns(headers, types)|) in SummaryOf(headers, rows, types) <==> |DateColumns(headers, types)| > 0
    ensures CategoryLine(|CategoryColumns(headers, types)|) in SummaryOf(headers, rows, types) <==> |CategoryColumns(headers, types)| > 0
  {
    var d := TypeCountLines(Distribution(TypeValues(headers, types)));
    var prefix := [SizeLine(|rows|, |headers|), ColumnsLine(headers)] + d;
    var insights := InsightLines(headers, types);
    assert SummaryOf(headers, rows, types) == prefix + insights;
    assert forall i :: 0 <= i < |prefix| ==> prefix[i].SizeLine? || prefix[i].ColumnsLine? || prefix[i].TypeCountLine?;
    NotInPrefix(prefix, insights, NumericLine(|NumericColumns(headers, types)|));
    NotInPrefix(prefix, insights, DateLine(|DateColumns(headers, types)|));
    NotInPrefix(prefix, insights, CategoryLine(|CategoryColumns(headers, types)|));
    InsightLinesKinds(headers, types);
  }

  lemma NotInPrefix(prefix: seq<SummaryLine>, rest: seq<SummaryLine>, x: SummaryLine)
    requires forall i :: 0 <= i < |prefix| ==> prefix[i] != x
    ensures x in prefix + rest <==> x in rest
  {
  }

  lemma InsightLinesKinds(headers: seq<string>, types: map<string, ColumnType>)
    ensures NumericLine(|NumericColumns(headers, types)|) in InsightLines(headers, types) <==> |NumericColumns(headers, types)| > 0
    ensures DateLine(|DateColumns(headers, types)|) in InsightLines(headers, types) <==> |DateColumns(headers, types)| > 0
    ensures CategoryLine(|CategoryColumns(headers, types)|) in InsightLines(headers, types) <==> |CategoryColumns(headers, types)| > 0
  {
  }

  /** The type lines of the summary count every header once. */
  lemma SummaryCountsHeaders(headers: seq<string>, types: map<string, ColumnType>)
    ensures SumCounts(Distribution(TypeValues(headers, types))) == |headers|
  {
    DistributionSums(TypeValues(headers, types));
  }
}
