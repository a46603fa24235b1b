/**
 * The uniform tabular value every importer produces (lib/data-parser.ts and
 * app/api/import-data/route.ts): cell values, records (the objects a CSV,
 * JSON or spreadsheet parser returns), the three accepted JSON shapes, the
 * alignment of records to header order, and the extension dispatch.
 */
module Records {
  import opened Wrappers
  import opened Seqs
  import opened Text

  /**
   * A cell value as the parsers hand it over. `Num` and `Composite` (an array
   * or object nested in JSON) carry their JavaScript `String(v)` form. Two
   * `Composite` cells are distinct objects, whatever their text: only
   * `String(v)` reads the text.
   */
  datatype Cell = Null | Undefined | Bool(b: bool) | Num(text: string) | Str(s: string) | Composite(text: string)

  /** `v === null || v === undefined || v === ''`, the source's test for a missing value. */
  predicate IsBlank(v: Cell)
  {
    v.Null? || v.Undefined? || v == Str("")
  }

  /** `String(v)`. */
  function CellText(v: Cell): string
  {
    match v
    case Null => "null"
    case Undefined => "undefined"
    case Bool(b) => if b then "true" else "false"
    case Num(t) => t
    case Str(s) => s
    case Composite(t) => t
  }

  /** A JavaScript object: its own properties in key order. */
  type Record = seq<(string, Cell)>

  /** The names of a list of named entries (an object's properties, a JSON object's members), in order. */
  function Names<V>(entries: seq<(string, V)>): (ns: seq<string>)
    ensures |ns| == |entries| && forall i :: 0 <= i < |entries| ==> ns[i] == entries[i].0
  {
    seq(|entries|, i requires 0 <= i < |entries| => entries[i].0)
  }

  /** `Object.keys(r)`: each property name once, in order. */
  function Keys(r: Record): (ks: seq<string>)
    ensures NoDups(ks)
    ensures forall k :: k in ks <==> k in Names(r)
  {
    Dedup(Names(r))
  }

  /** `r[k]`: the value of property `k`, `undefined` when `r` has no such property. */
  function Get(r: Record, k: string): (v: Cell)
    ensures k !in Names(r) ==> v == Undefined
    ensures k in Names(r) ==> exists i :: 0 <= i < |r| && r[i] == (k, v)
  {
    if r == [] then Undefined
    else if r[0].0 == k then r[0].1
    else (assert Names(r[1..]) == Names(r)[1..]; Get(r[1..], k))
  }

  /** `data.map(row => row[header])`: one column of a list of records. */
  function Column(data: seq<Record>, header: string): (col: seq<Cell>)
    ensures |col| == |data|
    ensures forall i :: 0 <= i < |data| ==> col[i] == Get(data[i], header)
  {
    seq(|data|, i requires 0 <= i < |data| => Get(data[i], header))
  }

  /** `data.map(row => headers.map(header => row[header]))`. */
  function AlignRows(data: seq<Record>, headers: seq<string>): (rows: seq<seq<Cell>>)
    ensures |rows| == |data|
    ensures forall i :: 0 <= i < |rows| ==> |rows[i]| == |headers|
    ensures forall i, j :: 0 <= i < |rows| && 0 <= j < |headers| ==> rows[i][j] == Get(data[i], headers[j])
  {
    seq(|data|, i requires 0 <= i < |data| =>
      seq(|headers|, j requires 0 <= j < |headers| => Get(data[i], headers[j])))
  }

  /** `row[index]` on an array: `undefined` past its end. */
  function At(row: seq<Cell>, index: int): Cell
  {
    if 0 <= index < |row| then row[index] else Undefined
  }

  // ----- Errors of the importers -----

  datatype ImportError =
    | FileNotFound             // no stored file starts with the file id
    | UnsupportedFileType(ext: string)
    | EmptyCsv                 // 'CSV file is empty'
    | EmptyJson                // 'JSON file contains no data'
    | EmptyExcel               // 'Excel file is empty'
    | NullJson                 // reading `.data` of a JSON `null` throws a TypeError
    | NullRecord               // `Object.keys(null)` or `null[header]` throws a TypeError
    | NotTabularJson           // a JSON string, number or boolean at the top
    | ParseError(message: string)  // thrown by the CSV, JSON or spreadsheet library

  // ----- File extensions -----

  /** `name.split('.').pop()?.toLowerCase() || ''`. */
  function FileExtension(name: string): (ext: string)
    ensures ext == Lower(LastSegment(name))
    ensures '.' !in name ==> ext == Lower(name)
    ensures |name| > 0 && name[|name| - 1] == '.' ==> ext == ""
    ensures '.' !in ext
  {
    var last := LastSegment(name);
    LastSegmentNoDot(name);
    assert forall i :: 0 <= i < |last| ==> Lower(last)[i] == LowerChar(last[i]) && last[i] != '.';
    Lower(last)
  }

  datatype FileKind = Csv | Json | Excel

  /** The importers' `switch` on the extension. */
  function KindOf(ext: string): (k: Option<FileKind>)
    ensures k == Some(Csv) <==> ext == "csv"
    ensures k == Some(Json) <==> ext == "json"
    ensures k == Some(Excel) <==> ext == "xlsx" || ext == "xls"
    ensures k == None <==> ext !in ["csv", "json", "xlsx", "xls"]
  {
    if ext == "csv" then Some(Csv)
    else if ext == "json" then Some(Json)
    else if ext == "xlsx" || ext == "xls" then Some(Excel)
    else None
  }

  // ----- JSON shapes -----

  /** An element of a JSON array: an object or `null`. */
  datatype Item = ObjectItem(record: Record) | NullItem

  /** A member of a top-level JSON object: an array (of items) or any other value. */
  datatype Member = RecordArray(items: seq<Item>, text: string) | Plain(v: Cell)

  function MemberValue(m: Member): Cell
  {
    match m
    case RecordArray(_, text) => Composite(text)
    case Plain(v) => v
  }

  /** What `JSON.parse` yields at the top of the file. */
  datatype JsonDoc = ArrayDoc(items: seq<Item>) | ObjectDoc(members: seq<(string, Member)>) | NullDoc | ScalarDoc(v: Cell)

  /** The first member called `k`, if any. */
  function FindMember(ms: seq<(string, Member)>, k: string): (r: Option<Member>)
    ensures r.None? <==> k !in Names(ms)
    ensures r.Some? ==> exists i :: 0 <= i < |ms| && ms[i] == (k, r.value)
  {
    if ms == [] then None
    else if ms[0].0 == k then Some(ms[0].1)
    else (assert Names(ms[1..]) == Names(ms)[1..]; FindMember(ms[1..], k))
  }

  /** `Object.entries(o).map(([key, value]) => ({ key, value }))`. */
  function KeyValueRows(ms: seq<(string, Member)>): (rows: seq<Record>)
    ensures |rows| == |Dedup(Names(ms))|
    ensures forall i :: 0 <= i < |rows| ==>
      var k := Dedup(Names(ms))[i];
      rows[i] == [("key", Str(k)), ("value", MemberValue(FindMember(ms, k).value))]
  {
    var names := Dedup(Names(ms));
    seq(|names|, i requires 0 <= i < |names| =>
      [("key", Str(names[i])), ("value", MemberValue(FindMember(ms, names[i]).value))])
  }

  /** A key/value row has the properties `key` and `value`, in that order. */
  lemma KeyValueKeys(k: Cell, v: Cell)
    ensures Keys([("key", k), ("value", v)]) == ["key", "value"]
  {
    var r := [("key", k), ("value", v)];
    assert Names(r) == ["key", "value"];
    DedupOfNoDups(["key", "value"]);
  }

  /** The record an item is read as: a `null` item has no properties. */
  function RecordOf(item: Item): Record
  {
    match item
    case ObjectItem(r) => r
    case NullItem => []
  }

  /**
   * `Object.keys(data[0])` and `data.map(row => headers.map(header => row[header]))`
   * on the selected array: a `null` first item, or a `null` item read at a
   * header of the first item, throws; a `null` item that no header reads
   * gives an empty row, as an object without properties does.
   */
  function ItemRecords(items: seq<Item>): (r: Result<seq<Record>, ImportError>)
    ensures (forall i :: 0 <= i < |items| ==> items[i].ObjectItem?) ==>
      r.Success? && r.value == seq(|items|, i requires 0 <= i < |items| => items[i].record)
    ensures |items| > 0 && items[0].NullItem? ==> r == Failure(NullRecord)
    ensures |items| > 0 && Keys(RecordOf(items[0])) != [] && NullItem in items ==> r == Failure(NullRecord)
    ensures r.Failure? ==> r.error == NullRecord
    ensures r.Success? ==> |r.value| == |items|
    ensures r.Success? ==> forall i :: 0 <= i < |items| ==>
      && (items[i].ObjectItem? ==> r.value[i] == items[i].record)
      && (items[i].NullItem? ==> r.value[i] == [] && Keys(r.value[0]) == [])
  {
    if |items| > 0 && (items[0].NullItem? || (Keys(items[0].record) != [] && NullItem in items)) then
      Failure(NullRecord)
    else
      Success(seq(|items|, i requires 0 <= i < |items| => RecordOf(items[i])))
  }

  /**
   * The shape selection of `parseJSON`: a top-level array is the data; else
   * an array under `data`; else an object's entries as key/value rows.
   */
  function JsonRecords(doc: JsonDoc): (r: Result<seq<Record>, ImportError>)
    ensures doc.ArrayDoc? ==> r == ItemRecords(doc.items)
    ensures doc.ObjectDoc? && FindMember(doc.members, "data").Some? && FindMember(doc.members, "data").value.RecordArray?
            ==> r == ItemRecords(FindMember(doc.members, "data").value.items)
    ensures doc.ObjectDoc? && !(FindMember(doc.members, "data").Some? && FindMember(doc.members, "data").value.RecordArray?)
            ==> r == Success(KeyValueRows(doc.members))
    ensures doc.NullDoc? ==> r == Failure(NullJson)
    ensures doc.ScalarDoc? ==> r == Failure(NotTabularJson)
  {
    match doc
    case ArrayDoc(items) => ItemRecords(items)
    case ObjectDoc(ms) =>
      var d := FindMember(ms, "data");
      if d.Some? && d.value.RecordArray? then ItemRecords(d.value.items) else Success(KeyValueRows(ms))
    case NullDoc => Failure(NullJson)
    case ScalarDoc(_) => Failure(NotTabularJson)
  }

  /** A plain object without an array under `data` yields one row per distinct member name. */
  lemma KeyValueRowCount(ms: seq<(string, Member)>)
    requires NoDups(Names(ms))
    requires FindMember(ms, "data").None? || FindMember(ms, "data").value.Plain?
    ensures JsonRecords(ObjectDoc(ms)) == Success(KeyValueRows(ms))
    ensures |KeyValueRows(ms)| == |ms|
  {
    DedupOfNoDups(Names(ms));
  }

  // ----- Foreign decoders -----

  type Bytes = seq<bv8>

  /**
   * The parsing libraries as functions of the file's bytes: Papa.parse with
   * `header: true, skipEmptyLines: true`, `JSON.parse` of the UTF-8 text, and
   * `XLSX.read` followed by `sheet_to_json` of the first sheet. A failure
   * carries the library's message.
   */
  datatype Decoders = Decoders(
    csv: Bytes -> Result<seq<Record>, string>,
    json: Bytes -> Result<JsonDoc, string>,
    sheet: Bytes -> Result<seq<Record>, string>)

  /**
   * The records an importer goes on with: the decoder's output (for JSON after
   * shape selection), or the error it throws, including the empty-input errors.
   */
  function DecodeRecords(kind: FileKind, content: Bytes, dec: Decoders): (r: Result<seq<Record>, ImportError>)
    ensures r.Success? ==> |r.value| > 0
    ensures kind == Csv && dec.csv(content) == Success([]) ==> r == Failure(EmptyCsv)
    ensures kind == Excel && dec.sheet(content) == Success([]) ==> r == Failure(EmptyExcel)
    ensures kind == Json && dec.json(content).Success? && JsonRecords(dec.json(content).value) == Success([])
            ==> r == Failure(EmptyJson)
  {
    match kind
    case Csv =>
      (match dec.csv(content)
       case Failure(m) => Failure(ParseError(m))
       case Success(data) => if |data| == 0 then Failure(EmptyCsv) else Success(data))
    case Json =>
      (match dec.json(content)
       case Failure(m) => Failure(ParseError(m))
       case Success(doc) =>
         (match JsonRecords(doc)
          case Failure(e) => Failure(e)
          case Success(data) => if |data| == 0 then Failure(EmptyJson) else Success(data)))
    case Excel =>
      (match dec.sheet(content)
       case Failure(m) => Failure(ParseError(m))
       case Success(data) => if |data| == 0 then Failure(EmptyExcel) else Success(data))
  }
}
