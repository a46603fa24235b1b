/**
 * The server-side importer (app/api/import-data/route.ts): finding the
 * stored upload by its id prefix, dispatching on the original name's
 * extension, and the `POST` handler that turns the aligned rows back into
 * objects. The parsing tail and the type inference are the ones of
 * lib/data-parser.ts (modules DataParser and TypeInference).
 */
module ImportRoute {
  import opened Wrappers
  import opened Seqs
  import opened Text
  import opened Records
  import opened TypeInference
  import opened DataParser

  /** A file in the upload directory; `content` is None when reading it fails. */
  datatype StoredEntry = StoredEntry(name: string, content: Option<Bytes>)

  /** The upload directory as `fs.readdir` sees it. */
  datatype Directory = Unreadable | Listing(entries: seq<StoredEntry>)

  /** `files.find(f => f.startsWith(fileId))`. */
  function FindStoredFile(entries: seq<StoredEntry>, fileId: string): (r: Option<StoredEntry>)
    ensures r.None? <==> forall i :: 0 <= i < |entries| ==> !StartsWith(entries[i].name, fileId)
    ensures r.Some? ==> exists i :: 0 <= i < |entries| && entries[i] == r.value
                          && StartsWith(entries[i].name, fileId)
                          && forall k :: 0 <= k < i ==> !StartsWith(entries[k].name, fileId)
  {
    if entries == [] then None
    else if StartsWith(entries[0].name, fileId) then Some(entries[0])
    else
      var r := FindStoredFile(entries[1..], fileId);
      assert forall i :: 1 <= i < |entries| ==> entries[i] == entries[1..][i - 1];
      r
  }

  /** `getStoredFile`: the content of the first matching file; None when there is none or any read fails. */
  function StoredContent(dir: Directory, fileId: string): Option<Bytes>
  {
    match dir
    case Unreadable => None
    case Listing(entries) =>
      match FindStoredFile(entries, fileId)
      case None => None
      case Some(e) => e.content
  }

  /** A file stored under `fileId + ext` is the one found, when no earlier name starts with the id. */
  lemma StoredUnderIdIsFound(entries: seq<StoredEntry>, fileId: string, ext: string, i: nat)
    requires i < |entries| && entries[i].name == fileId + ext
    requires forall k :: 0 <= k < i ==> !StartsWith(entries[k].name, fileId)
    ensures FindStoredFile(entries, fileId) == Some(entries[i])
  {
    assert StartsWith(entries[i].name, fileId) by {
      assert (fileId + ext)[..|fileId|] == fileId;
    }
  }

  datatype DataImportResult = DataImportResult(
    headers: seq<string>,
    rows: seq<seq<Cell>>,
    summary: seq<SummaryLine>,
    dataTypes: map<string, ColumnType>,
    fileId: string,
    totalRows: nat)

  /** The import result of a tabulated dataset. */
  function WithFileId(p: ParsedData, fileId: string): (r: DataImportResult)
    ensures r.totalRows == |r.rows|
  {
    DataImportResult(p.headers, p.rows, p.summary, p.dataTypes, fileId, |p.rows|)
  }

  /**
   * `importDataFromStoredFile`: 'File not found' before any dispatch; then
   * the dispatch and tabulation of `parseDataFile` on the stored bytes, with
   * the original name's extension; `totalRows` is the number of rows.
   */
  method ImportDataFromStoredFile(dir: Directory, fileId: string, originalName: string, dec: Decoders, co: Coercion)
    returns (r: Result<DataImportResult, ImportError>)
    ensures StoredContent(dir, fileId).None? ==> r == Failure(FileNotFound)
    ensures StoredContent(dir, fileId).Some? ==>
      var records := FileRecords(originalName, StoredContent(dir, fileId).value, dec);
      && (records.Failure? ==> r == Failure(records.error))
      && (records.Success? ==> r == Success(WithFileId(Tabulated(records.value, co), fileId)))
    ensures r.Success? ==> r.value.fileId == fileId && r.value.totalRows == |r.value.rows|
  {
    var content := StoredContent(dir, fileId);
    if content.None? {
      return Failure(FileNotFound);
    }
    var records := FileRecords(originalName, content.value, dec);
    match records
    case Failure(e) =>
      r := Failure(e);
    case Success(data) =>
      var p := Tabulate(data, co);
      r := Success(WithFileId(p, fileId));
  }

  // ----- Rows back to objects -----

  /** An object's value for `k`, `undefined` when it has no such property. */
  function Lookup(obj: map<string, Cell>, k: string): Cell
  {
    if k in obj then obj[k] else Undefined
  }

  /**
   * `obj` is what `headers.forEach((header, index) => { obj[header] = row[index]; })`
   * leaves in a fresh object: a property per header, holding the cell at the
   * header's last position (a later assignment overwrites an earlier one).
   */
  predicate IsObjectOf(obj: map<string, Cell>, headers: seq<string>, row: seq<Cell>)
  {
    && obj.Keys == (set h | h in headers)
    && forall j :: 0 <= j < |headers| && (forall k :: j < k < |headers| ==> headers[k] != headers[j])
         ==> obj[headers[j]] == At(row, j)
  }

  /** The last position of `h` in `headers`. */
  function LastIndex(headers: seq<string>, h: string): (j: nat)
    requires h in headers
    ensures j < |headers| && headers[j] == h && forall k :: j < k < |headers| ==> headers[k] != h
  {
    if headers[|headers| - 1] == h then |headers| - 1 else LastIndex(headers[..|headers| - 1], h)
  }

  /** The object of a row: each header mapped to the cell at its last position. */
  function ObjectOf(headers: seq<string>, row: seq<Cell>): map<string, Cell>
  {
    map h | h in headers :: At(row, LastIndex(headers, h))
  }

  /** The object of a row is what the assignments in header order leave. */
  lemma ObjectOfAssigns(headers: seq<string>, row: seq<Cell>)
    ensures IsObjectOf(ObjectOf(headers, row), headers, row)
  {
    var obj := ObjectOf(headers, row);
    forall j | 0 <= j < |headers| && (forall k :: j < k < |headers| ==> headers[k] != headers[j])
      ensures obj[headers[j]] == At(row, j)
    {
      var last := LastIndex(headers, headers[j]);
      assert last == j;
    }
  }

  /** The body of the row-to-object rebuild for one row. */
  method RowToObject(headers: seq<string>, row: seq<Cell>) returns (obj: map<string, Cell>)
    ensures obj == ObjectOf(headers, row)
  {
    obj := map[];
    for n := 0 to |headers|
      invariant obj == ObjectOf(headers[..n], row)
    {
      assert headers[..n + 1] == headers[..n] + [headers[n]];
      AssignStep(headers[..n], headers[n], row);
      obj := obj[headers[n] := At(row, n)];
    }
    assert headers[..|headers|] == headers;
  }

  /** One `obj[header] = row[index]` step: the next header now maps to the next cell, whatever it held before. */
  lemma AssignStep(hs: seq<string>, h: string, row: seq<Cell>)
    ensures ObjectOf(hs + [h], row) == ObjectOf(hs, row)[h := At(row, |hs|)]
  {
    var hs' := hs + [h];
    assert hs'[..|hs'| - 1] == hs;
    assert forall x :: x in hs' <==> x in hs || x == h;
    forall x | x in hs && x != h ensures LastIndex(hs', x) == LastIndex(hs, x) {
    }
  }

  /** Round trip: with distinct headers, reading the object back at `headers[j]` gives the row's cell `j`. */
  lemma ObjectReadsBack(headers: seq<string>, row: seq<Cell>, j: nat)
    requires NoDups(headers)
    requires |row| == |headers| && j < |headers|
    ensures Lookup(ObjectOf(headers, row), headers[j]) == row[j]
  {
    ObjectOfAssigns(headers, row);
  }

  /** `importResult.rows.map(row => …)`: one object per row, in order. */
  method RowsToObjects(headers: seq<string>, rows: seq<seq<Cell>>) returns (objs: seq<map<string, Cell>>)
    ensures |objs| == |rows|
    ensures forall i :: 0 <= i < |rows| ==> objs[i] == ObjectOf(headers, rows[i])
  {
    objs := [];
    for i := 0 to |rows|
      invariant |objs| == i
      invariant forall k :: 0 <= k < i ==> objs[k] == ObjectOf(headers, rows[k])
    {
      var obj := RowToObject(headers, rows[i]);
      objs := objs + [obj];
    }
  }

  // ----- The handler -----

  datatype Response =
    | BadRequest                   // 400, 'fileId and fileName are required'
    | ServerError(error: ImportError)  // 500, the error's message
    | Imported(headers: seq<string>, objects: seq<map<string, Cell>>, summary: seq<SummaryLine>,
               dataTypes: map<string, ColumnType>, totalRows: nat)

  /** `!v`: a body field that is absent or the empty string. */
  predicate Missing(v: Option<string>)
  {
    v.None? || v.value == ""
  }

  /** `POST`: validate the body, import, and rebuild the rows as objects. */
  method Post(fileId: Option<string>, fileName: Option<string>, dir: Directory, dec: Decoders, co: Coercion)
    returns (resp: Response)
    ensures Missing(fileId) || Missing(fileName) ==> resp == BadRequest
    ensures !Missing(fileId) && !Missing(fileName) && StoredContent(dir, fileId.value).None?
            ==> resp == ServerError(FileNotFound)
    ensures !Missing(fileId) && !Missing(fileName) && StoredContent(dir, fileId.value).Some? ==>
      var records := FileRecords(fileName.value, StoredContent(dir, fileId.value).value, dec);
      && (records.Failure? ==> resp == ServerError(records.error))
      && (records.Success? ==>
            var p := Tabulated(records.value, co);
            && resp.Imported?
            && resp.headers == p.headers && resp.summary == p.summary && resp.dataTypes == p.dataTypes
            && resp.totalRows == |p.rows| == |resp.objects|
            && forall i :: 0 <= i < |p.rows| ==> resp.objects[i] == ObjectOf(p.headers, p.rows[i]))
  {
    if Missing(fileId) || Missing(fileName) {
      return BadRequest;
    }
    var result := ImportDataFromStoredFile(dir, fileId.value, fileName.value, dec, co);
    match result
    case Failure(e) =>
      resp := ServerError(e);
    case Success(imp) =>
      var objs := RowsToObjects(imp.headers, imp.rows);
      resp := Imported(imp.headers, objs, imp.summary, imp.dataTypes, imp.totalRows);
  }

  /**
   * What the client receives reads back as the rows: the cell of row `i` under
   * header `j` is the value of the first record `i` for that header.
   */
  lemma ImportedObjectsReadBack(data: seq<Record>, co: Coercion, objs: seq<map<string, Cell>>, i: nat, j: nat)
    requires |data| > 0
    requires |objs| == |data|
    requires forall k :: 0 <= k < |data| ==> objs[k] == ObjectOf(Tabulated(data, co).headers, Tabulated(data, co).rows[k])
    requires i < |data| && j < |Keys(data[0])|
    ensures Lookup(objs[i], Keys(data[0])[j]) == Get(data[i], Keys(data[0])[j])
  {
    TabulatedRows(data, co);
    ObjectReadsBack(Tabulated(data, co).headers, Tabulated(data, co).rows[i], j);
  }
}
