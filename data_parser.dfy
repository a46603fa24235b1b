/**
 * The browser-side importer (lib/data-parser.ts): extension dispatch, the
 * common tail of the three format parsers (headers from the first record,
 * aligned rows, the type map and the summary) and the data prompt.
 */
module DataParser {
  import opened Wrappers
  import opened Seqs
  import opened Text
  import opened Records
  import opened TypeInference

  datatype ParsedData = ParsedData(
    headers: seq<string>,
    rows: seq<seq<Cell>>,
    summary: seq<SummaryLine>,
    dataTypes: map<string, ColumnType>)

  /** What the common tail of `parseCSV`, `parseJSON` and `parseExcel` computes from non-empty records. */
  function Tabulated(data: seq<Record>, co: Coercion): ParsedData
    requires |data| > 0
  {
    var headers := Keys(data[0]);
    var rows := AlignRows(data, headers);
    var types := TypeMap(data, headers, co);
    ParsedData(headers, rows, SummaryOf(headers, rows, types), types)
  }

  /** The common tail: headers, aligned rows, `analyzeDataTypes`, then `generateDataSummary`. */
  method Tabulate(data: seq<Record>, co: Coercion) returns (p: ParsedData)
    requires |data| > 0
    ensures p == Tabulated(data, co)
  {
    var headers := Keys(data[0]);
    var rows := AlignRows(data, headers);
    var types := AnalyzeDataTypes(data, headers, co);
    var summary := GenerateDataSummary(headers, rows, types);
    p := ParsedData(headers, rows, summary, types);
  }

  /**
   * The rows of a tabulated dataset: the headers are the first record's keys,
   * each once; there is one row per record, each with one cell per header
   * holding that record's value (undefined when it has none).
   */
  lemma TabulatedRows(data: seq<Record>, co: Coercion)
    requires |data| > 0
    ensures Tabulated(data, co).headers == Keys(data[0]) && NoDups(Tabulated(data, co).headers)
    ensures |Tabulated(data, co).rows| == |data|
    ensures forall i :: 0 <= i < |data| ==> |Tabulated(data, co).rows[i]| == |Keys(data[0])|
    ensures forall i, j :: 0 <= i < |data| && 0 <= j < |Keys(data[0])| ==>
      Tabulated(data, co).rows[i][j] == Get(data[i], Keys(data[0])[j])
  {
  }

  /**
   * The type map of a tabulated dataset has exactly one entry per header,
   * 'unknown' exactly for a column in which every record's value is blank.
   */
  lemma TabulatedTypes(data: seq<Record>, co: Coercion, h: string)
    requires |data| > 0
    ensures Tabulated(data, co).dataTypes.Keys == set k | k in Keys(data[0])
    ensures h in Tabulated(data, co).dataTypes ==>
      (Tabulated(data, co).dataTypes[h] == UnknownType <==> forall i :: 0 <= i < |data| ==> IsBlank(Get(data[i], h)))
  {
    TypeMapUnknown(data, Keys(data[0]), co, h);
  }

  /** The records `parseDataFile` tabulates, or the error it throws. */
  function FileRecords(name: string, content: Bytes, dec: Decoders): (r: Result<seq<Record>, ImportError>)
    ensures r.Success? ==> |r.value| > 0
  {
    var ext := FileExtension(name);
    match KindOf(ext)
    case None => Failure(UnsupportedFileType(ext))
    case Some(kind) => DecodeRecords(kind, content, dec)
  }

  /** `parseDataFile`: dispatch on the extension, decode, then tabulate. */
  method ParseDataFile(name: string, content: Bytes, dec: Decoders, co: Coercion) returns (r: Result<ParsedData, ImportError>)
    ensures FileRecords(name, content, dec).Failure? ==> r == Failure(FileRecords(name, content, dec).error)
    ensures FileRecords(name, content, dec).Success? ==> r == Success(Tabulated(FileRecords(name, content, dec).value, co))
  {
    var records := FileRecords(name, content, dec);
    match records
    case Failure(e) =>
      r := Failure(e);
    case Success(data) =>
      var p := Tabulate(data, co);
      r := Success(p);
  }

  /** Only csv, json, xlsx and xls are dispatched; any other extension is 'Unsupported file type'. */
  lemma DispatchByExtension(name: string, content: Bytes, dec: Decoders)
    ensures FileRecords(name, content, dec) == Failure(UnsupportedFileType(FileExtension(name)))
            <==> FileExtension(name) !in ["csv", "json", "xlsx", "xls"]
  {
    var ext := FileExtension(name);
    if ext in ["csv", "json", "xlsx", "xls"] {
      var kind := KindOf(ext).value;
      match kind
      case Csv =>
        assert FileRecords(name, content, dec) == DecodeRecords(Csv, content, dec);
      case Json =>
        assert FileRecords(name, content, dec) == DecodeRecords(Json, content, dec);
      case Excel =>
        assert FileRecords(name, content, dec) == DecodeRecords(Excel, content, dec);
    }
  }

  /**
   * A JSON file holding a non-empty top-level array is tabulated from that
   * array's items; an object whose `data` member is a non-empty array from
   * that member's items. A `null` first item, or a `null` item under a first
   * item with properties, makes the import fail with the TypeError.
   */
  lemma JsonArraysAreTheData(name: string, content: Bytes, dec: Decoders)
    requires FileExtension(name) == "json"
    requires dec.json(content).Success?
    ensures var doc := dec.json(content).value;
      doc.ArrayDoc? && |doc.items| > 0 ==> FileRecords(name, content, dec) == ItemRecords(doc.items)
    ensures var doc := dec.json(content).value;
      doc.ObjectDoc? && FindMember(doc.members, "data").Some? && FindMember(doc.members, "data").value.RecordArray?
      && |FindMember(doc.members, "data").value.items| > 0
      ==> FileRecords(name, content, dec) == ItemRecords(FindMember(doc.members, "data").value.items)
  {
  }

  /** A JSON array whose first item is `null`, or whose first item has properties and some item is `null`, is not imported. */
  lemma JsonNullItemFails(name: string, content: Bytes, dec: Decoders)
    requires FileExtension(name) == "json"
    requires dec.json(content).Success? && dec.json(content).value.ArrayDoc?
    requires var items := dec.json(content).value.items;
      |items| > 0 && (items[0].NullItem? || (Keys(RecordOf(items[0])) != [] && NullItem in items))
    ensures FileRecords(name, content, dec) == Failure(NullRecord)
  {
    JsonArraysAreTheData(name, content, dec);
  }

  /**
   * A plain JSON object with distinct member names and no array under `data`
   * becomes one row per member, with headers `key` and `value`.
   */
  lemma JsonObjectBecomesKeyValueRows(ms: seq<(string, Member)>, co: Coercion)
    requires |ms| > 0 && NoDups(Names(ms))
    requires FindMember(ms, "data").None? || FindMember(ms, "data").value.Plain?
    ensures JsonRecords(ObjectDoc(ms)).Success?
    ensures var p := Tabulated(JsonRecords(ObjectDoc(ms)).value, co);
      p.headers == ["key", "value"] && |p.rows| == |ms|
      && forall i :: 0 <= i < |ms| ==> p.rows[i][0] == Str(ms[i].0)
  {
    KeyValueRowCount(ms);
    var rows := KeyValueRows(ms);
    DedupOfNoDups(Names(ms));
    var k0 := Dedup(Names(ms))[0];
    assert rows[0] == [("key", Str(k0)), ("value", MemberValue(FindMember(ms, k0).value))];
    KeyValueKeys(Str(k0), MemberValue(FindMember(ms, k0).value));
    TabulatedRows(rows, co);
    forall i | 0 <= i < |ms| ensures Get(rows[i], "key") == Str(ms[i].0) {
      assert rows[i][0] == ("key", Str(ms[i].0));
    }
  }

  // ----- The data prompt -----

  /** The `filter(val => val !== null && val !== undefined)` of the prompt's samples; '' is kept. */
  predicate Shown(v: Cell)
  {
    !v.Null? && !v.Undefined?
  }

  /** The sample values of the column at `index`: from the first three rows, without null and undefined. */
  function SampleValues(rows: seq<seq<Cell>>, index: int): (vs: seq<Cell>)
    ensures |vs| <= 3 && |vs| <= |rows|
    ensures forall i :: 0 <= i < |vs| ==> Shown(vs[i])
  {
    var first := Take(rows, 3);
    Filter(Shown, seq(|first|, i requires 0 <= i < |first| => At(first[i], index)))
  }

  /** One part of the data prompt; the fixed wording around the values is not modelled. */
  datatype PromptPart =
    | UserRequest(text: string)
    | DatasetSummary(lines: seq<SummaryLine>)
    // '- header (type): v1, v2, v3...' with the '...' when fewer samples than rows are shown
    | ColumnDetail(header: string, dataType: Option<ColumnType>, samples: seq<Cell>, truncated: bool)
    | ChartGuidance

  function DetailOf(p: ParsedData, header: string): PromptPart
  {
    var samples := SampleValues(p.rows, IndexOf(p.headers, header));
    ColumnDetail(header, if header in p.dataTypes then Some(p.dataTypes[header]) else None, samples, |samples| < |p.rows|)
  }

  function Details(p: ParsedData, hs: seq<string>): (ds: seq<PromptPart>)
    ensures |ds| == |hs|
    ensures forall j :: 0 <= j < |hs| ==> ds[j] == DetailOf(p, hs[j])
  {
    seq(|hs|, j requires 0 <= j < |hs| => DetailOf(p, hs[j]))
  }

  /** `generateDataPrompt`: the request, the summary, one detail line per header, then the guidance. */
  method GenerateDataPrompt(p: ParsedData, userPrompt: string) returns (parts: seq<PromptPart>)
    ensures parts == [UserRequest(userPrompt), DatasetSummary(p.summary)] + Details(p, p.headers) + [ChartGuidance]
  {
    var details := DetailLines(p);
    parts := [UserRequest(userPrompt), DatasetSummary(p.summary)] + details + [ChartGuidance];
  }

  /** The `forEach` over the headers that appends one detail line each. */
  method DetailLines(p: ParsedData) returns (ds: seq<PromptPart>)
    ensures ds == Details(p, p.headers)
  {
    ds := [];
    for j := 0 to |p.headers|
      invariant |ds| == j
      invariant forall k :: 0 <= k < j ==> ds[k] == DetailOf(p, p.headers[k])
    {
      ds := ds + [DetailOf(p, p.headers[j])];
    }
  }

  /**
   * With distinct headers, the prompt has exactly one detail per header, in
   * header order, whose samples are the shown values of that header's own
   * column in the first three rows.
   */
  lemma PromptDetailsFollowHeaders(p: ParsedData, j: nat)
    requires NoDups(p.headers) && j < |p.headers|
    ensures var d := Details(p, p.headers)[j];
      && d.header == p.headers[j]
      && d.samples == Filter(Shown, seq(|Take(p.rows, 3)|, i requires 0 <= i < |Take(p.rows, 3)| => At(p.rows[i], j)))
  {
    IndexOfNoDups(p.headers, j);
    var first := Take(p.rows, 3);
    assert seq(|first|, i requires 0 <= i < |first| => At(first[i], j))
        == seq(|Take(p.rows, 3)|, i requires 0 <= i < |Take(p.rows, 3)| => At(p.rows[i], j));
  }
}
