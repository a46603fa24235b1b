/**
 * The decisions of the upload handler (app/api/upload-data/route.ts): the
 * extension of the uploaded name, the whitelist, and the stored name
 * `fileId + extension` that the importer later finds by its id prefix.
 */
module UploadRoute {
  import opened Wrappers
  import opened Text
  import opened Records
  import opened ImportRoute

  /** `allowedTypes`. */
  const AllowedTypes: seq<string> := [".csv", ".json", ".xlsx", ".xls"]

  /** The `file` field of the form: its name and its bytes. */
  datatype UploadedFile = UploadedFile(name: string, content: Bytes)

  /** What the handler reports about a stored file; size, MIME type, path and date are not modelled. */
  datatype StoredFile = StoredFile(id: string, originalName: string, fileName: string)

  datatype UploadResponse =
    | NoFile                       // 400, 'No file provided'
    | UnsupportedType              // 400, 'Unsupported file type'
    | DirFailed                    // 500, creating the upload directory failed
    | WriteFailed                  // 500, writing the file failed
    | Uploaded(file: StoredFile)   // 200

  /** The response and the upload directory afterwards. */
  datatype UploadOutcome = UploadOutcome(response: UploadResponse, entries: seq<StoredEntry>)

  /**
   * `'.' + file.name.split('.').pop()?.toLowerCase()`: a dot and the
   * extension the importer computes from the same name.
   */
  function UploadExtension(name: string): (ext: string)
    ensures ext == "." + FileExtension(name)
    ensures '.' !in name ==> ext == "." + Lower(name)
  {
    LastSegmentNoDot(name);
    "." + Lower(LastSegment(name))
  }

  /**
   * `POST` given the new `fileId`, whether `ensureUploadDir` succeeds and
   * whether writing the file succeeds: the directory comes first, and its
   * failure is a 500 whatever the request holds; then no file gives 400; an
   * extension off the whitelist gives 400; otherwise the bytes are written
   * under `fileId + extension`.
   */
  function Upload(file: Option<UploadedFile>, fileId: string, entries: seq<StoredEntry>, dirReady: bool, written: bool): UploadOutcome
  {
    if !dirReady then UploadOutcome(DirFailed, entries)
    else
    match file
    case None => UploadOutcome(NoFile, entries)
    case Some(f) =>
      var fileExtension := UploadExtension(f.name);
      if fileExtension !in AllowedTypes then UploadOutcome(UnsupportedType, entries)
      else if !written then UploadOutcome(WriteFailed, entries)
      else
        var fileName := fileId + fileExtension;
        UploadOutcome(Uploaded(StoredFile(fileId, f.name, fileName)), entries + [StoredEntry(fileName, Some(f.content))])
  }

  /**
   * A file is stored exactly when the directory is ready, there is a file,
   * its extension is allowed and the write succeeds; otherwise nothing is
   * written. A directory failure is a 500 before any other test; after it a
   * missing file or an extension off the whitelist is a 400.
   */
  lemma UploadDecision(file: Option<UploadedFile>, fileId: string, entries: seq<StoredEntry>, dirReady: bool, written: bool)
    ensures var out := Upload(file, fileId, entries, dirReady, written);
      out.response.Uploaded? <==> dirReady && file.Some? && UploadExtension(file.value.name) in AllowedTypes && written
    ensures !dirReady ==> Upload(file, fileId, entries, dirReady, written) == UploadOutcome(DirFailed, entries)
    ensures dirReady && file.None? ==> Upload(file, fileId, entries, dirReady, written) == UploadOutcome(NoFile, entries)
    ensures dirReady && file.Some? && UploadExtension(file.value.name) !in AllowedTypes
            ==> Upload(file, fileId, entries, dirReady, written) == UploadOutcome(UnsupportedType, entries)
    ensures dirReady && file.Some? && UploadExtension(file.value.name) in AllowedTypes && !written
            ==> Upload(file, fileId, entries, dirReady, written) == UploadOutcome(WriteFailed, entries)
    ensures !Upload(file, fileId, entries, dirReady, written).response.Uploaded? ==> Upload(file, fileId, entries, dirReady, written).entries == entries
  {
  }

  /** An accepted file is stored, as the last entry, under `fileId` followed by its extension, a name that starts with `fileId`. */
  lemma StoredUnderId(file: Option<UploadedFile>, fileId: string, entries: seq<StoredEntry>, dirReady: bool, written: bool)
    requires Upload(file, fileId, entries, dirReady, written).response.Uploaded?
    ensures var out := Upload(file, fileId, entries, dirReady, written);
      && out.response.file.fileName == fileId + UploadExtension(file.value.name)
      && StartsWith(out.response.file.fileName, fileId)
      && out.entries == entries + [StoredEntry(out.response.file.fileName, Some(file.value.content))]
  {
    var fileName := fileId + UploadExtension(file.value.name);
    assert fileName[..|fileId|] == fileId;
  }

  /** Every allowed extension, without its dot, is one the importer's dispatch handles. */
  lemma AllowedExtensionsDispatch(ext: string)
    requires ext in AllowedTypes
    ensures |ext| > 1 && ext[0] == '.' && KindOf(ext[1..]).Some?
  {
    assert ext == ".csv" || ext == ".json" || ext == ".xlsx" || ext == ".xls";
    assert ".csv"[1..] == "csv" && ".json"[1..] == "json" && ".xlsx"[1..] == "xlsx" && ".xls"[1..] == "xls";
  }

  /**
   * A stored upload is found again by its id, when no file already in the
   * directory starts with that id, and the importer's dispatch on the
   * original name handles its kind.
   */
  lemma UploadThenImport(file: Option<UploadedFile>, fileId: string, entries: seq<StoredEntry>, dirReady: bool, written: bool)
    requires Upload(file, fileId, entries, dirReady, written).response.Uploaded?
    requires forall k :: 0 <= k < |entries| ==> !StartsWith(entries[k].name, fileId)
    ensures var out := Upload(file, fileId, entries, dirReady, written);
      && StoredContent(Listing(out.entries), fileId) == Some(file.value.content)
      && KindOf(FileExtension(file.value.name)).Some?
  {
    var out := Upload(file, fileId, entries, dirReady, written);
    var ext := UploadExtension(file.value.name);
    StoredUnderIdIsFound(out.entries, fileId, ext, |entries|);
    AllowedExtensionsDispatch(ext);
    assert ext[1..] == FileExtension(file.value.name);
  }
}
