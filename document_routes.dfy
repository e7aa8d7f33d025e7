/** The document HTTP routes (src/api/routes/documents.py): the file-type check,
    single and batch upload into the upload directory, the dispatch of
    `/process` to the engine, and the listing of a directory. */
module DocumentRoutes {
  import opened Common
  import opened Metrics
  import QA
  import Documents
  import Engine
  import ApiModels

  // The route's messages.
  const UnsupportedPrefix := "不支持的文件格式。支持的格式: "
  const UnsupportedEntry := "不支持的文件格式: "
  const TooLargePrefix := "文件大小超过限制 ("
  const BytesClose := " 字节)"
  const BatchDonePrefix := "批量上传完成: 成功"
  const FailedInfix := "个，失败"
  const CountUnit := "个"
  const FoundPrefix := "找到 "
  const DocumentsSuffix := " 个文档"
  const UploadDir := "data/uploads/"
  const UnknownType := "unknown"
  const TooLargeEntry := "文件大小超过限制"
  const TooManyFiles := "批量上传文件数量不能超过10个"
  const UploadDone := "文件上传成功"
  const UploadFailed := "文件上传失败: "
  const NoPathGiven := "必须提供file_path或directory_path"
  const NoSuchFile := "文件不存在"
  const NoSuchDirectory := "目录不存在"
  const ProcessFailed := "文档处理失败: "
  const ProcessFailedDefault := "处理失败"
  const ProcessDoneDefault := "处理完成"
  const DirectoryFailedPrefix := "目录处理失败: "

  function UnsupportedUpload(formats: seq<string>): string {
    UnsupportedPrefix + QA.Join(formats, ", ")
  }

  function TooLargeUpload(maxFileSize: int): string {
    TooLargePrefix + IntText(maxFileSize) + BytesClose
  }

  function ListMessage(count: nat): string {
    FoundPrefix + NatText(count) + DocumentsSuffix
  }

  // ---------------------------------------------------------------- file type

  /** `validate_file_type`: the lowercased last suffix of the name, dot included and
      empty when there is none, is one of the configured formats. */
  predicate Accepted(filename: string, formats: seq<string>) {
    Lower(Suffix(filename)) in formats
  }

  /** With the default formats, written without a dot, no file name is accepted:
      a suffix is either empty or starts with a dot. */
  lemma NoNameAcceptedByDefault(filename: string)
    ensures !Accepted(filename, ["pdf", "txt", "md", "docx"])
  {
    var ext := Lower(Suffix(filename));
    if ext != [] {
      assert ext[0] == '.';
      assert "pdf"[0] != '.' && "txt"[0] != '.' && "md"[0] != '.' && "docx"[0] != '.';
    }
  }

  /** Characters without a dot or a slash are passed over by the scan. */
  lemma {:induction false} ScanPlain(p: string, q: string, tail: string)
    requires forall j :: 0 <= j < |q| ==> q[j] != '/' && q[j] != '.'
    ensures SuffixScan(p + q, tail) == SuffixScan(p, q + tail)
    decreases |q|
  {
    if q == [] {
      assert p + q == p && q + tail == tail;
    } else {
      var n := |q| - 1;
      assert (p + q)[..|p + q| - 1] == p + q[..n] && (p + q)[|p + q| - 1] == q[n];
      ScanPlain(p, q[..n], [q[n]] + tail);
      assert q[..n] + ([q[n]] + tail) == q + tail;
    }
  }

  /** A name made of a stem without dots or slashes and a dotted extension has that
      extension as its suffix. */
  lemma SuffixOfStemAndExtension(stem: string, ext: string)
    requires stem != [] && forall j :: 0 <= j < |stem| ==> stem[j] != '/' && stem[j] != '.'
    requires |ext| >= 2 && ext[0] == '.' && forall j :: 0 < j < |ext| ==> ext[j] != '/' && ext[j] != '.'
    ensures Suffix(stem + ext) == ext
  {
    var dotted := stem + ext[..1];
    assert stem + ext == dotted + ext[1..];
    ScanPlain(dotted, ext[1..], []);
    assert dotted[..|dotted| - 1] == stem;
    assert [dotted[|dotted| - 1]] + (ext[1..] + []) == ext;
  }

  /** Such a name is accepted exactly when its lowercased extension is a format. */
  lemma AcceptedByExtension(stem: string, ext: string, formats: seq<string>)
    requires stem != [] && forall j :: 0 <= j < |stem| ==> stem[j] != '/' && stem[j] != '.'
    requires |ext| >= 2 && ext[0] == '.' && forall j :: 0 < j < |ext| ==> ext[j] != '/' && ext[j] != '.'
    ensures Accepted(stem + ext, formats) <==> Lower(ext) in formats
  {
    SuffixOfStemAndExtension(stem, ext);
  }

  // ---------------------------------------------------------------- upload

  /** An uploaded file: its name, its content length, its declared type, the uuid the
      route draws for it and what writing it raises, if anything. */
  datatype UploadFile = UploadFile(filename: string, size: nat, contentType: Option<string>,
                                   uuid: string, writeFailure: Option<Exc>)

  datatype SavedFile = SavedFile(path: string, size: nat)

  /** `upload_dir / f"{uuid}{suffix}"`: the suffix keeps its case. */
  function SavedPath(f: UploadFile): string {
    UploadDir + f.uuid + Suffix(f.filename)
  }

  datatype FileUploadResponse = FileUploadResponse(success: bool, message: string, filename: string,
                                                   filePath: string, fileSize: nat, fileType: string,
                                                   uploadTime: real)

  /** The declared content type, or "unknown" when there is none. */
  function FileTypeOf(f: UploadFile): string {
    if f.contentType.Some? && f.contentType.value != "" then f.contentType.value else UnknownType
  }

  /** `FileUploadResponse(success=True, ...)`: `upload_time` is a required `datetime`,
      so pydantic refuses `None` with a validation error, a `ValueError` whose text
      (pydantic's own rendering) is `refusal`. */
  function NewFileUploadResponse(filename: string, filePath: string, fileSize: nat, fileType: string,
                                 uploadTime: Option<real>, refusal: string): (r: Outcome<FileUploadResponse>)
    ensures r.Raise? <==> uploadTime.None?
    ensures r.Raise? ==> r.exc == ValueError(refusal)
    ensures r.Ok? ==> r.value.success && r.value.uploadTime == uploadTime.value && r.value.filePath == filePath
  {
    if uploadTime.None? then Raise(ValueError(refusal))
    else Ok(FileUploadResponse(true, UploadDone, filename, filePath, fileSize, fileType, uploadTime.value))
  }

  /** `upload_document` as written: the type is checked before the size, a failed
      write is HTTP 500, and a written file is answered with a response built with
      `upload_time=None`, which the model refuses; the route's `except` turns that
      into HTTP 500 as well. No single upload succeeds. */
  function UploadReply(f: UploadFile, formats: seq<string>, maxFileSize: int, refusal: string)
    : (r: Outcome<FileUploadResponse>)
    ensures r.Raise?
    ensures !Accepted(f.filename, formats) ==>
      r == Raise(HTTPException(400, UnsupportedUpload(formats)))
    ensures Accepted(f.filename, formats) && f.size > maxFileSize ==>
      r == Raise(HTTPException(400, TooLargeUpload(maxFileSize)))
    ensures Accepted(f.filename, formats) && f.size <= maxFileSize && f.writeFailure.Some? ==>
      r == Raise(HTTPException(500, UploadFailed + f.writeFailure.value.Text()))
    ensures Accepted(f.filename, formats) && f.size <= maxFileSize && f.writeFailure.None? ==>
      r == Raise(HTTPException(500, UploadFailed + refusal))
  {
    if !Accepted(f.filename, formats) then
      Raise(HTTPException(400, UnsupportedUpload(formats)))
    else if f.size > maxFileSize then
      Raise(HTTPException(400, TooLargeUpload(maxFileSize)))
    else if f.writeFailure.Some? then
      Raise(HTTPException(500, UploadFailed + f.writeFailure.value.Text()))
    else
      var built := NewFileUploadResponse(f.filename, SavedPath(f), f.size, FileTypeOf(f), None, refusal);
      Raise(HTTPException(500, UploadFailed + built.exc.Text()))
  }

  /** The upload as evidently intended: the response carries the time of the upload,
      `now`, so a file that is written is answered with success. */
  function CorrectedUploadReply(f: UploadFile, formats: seq<string>, maxFileSize: int, now: real)
    : (r: Outcome<FileUploadResponse>)
    ensures !Accepted(f.filename, formats) ==>
      r == Raise(HTTPException(400, UnsupportedUpload(formats)))
    ensures Accepted(f.filename, formats) && f.size > maxFileSize ==>
      r == Raise(HTTPException(400, TooLargeUpload(maxFileSize)))
    ensures r.Ok? <==> Accepted(f.filename, formats) && f.size <= maxFileSize && f.writeFailure.None?
    ensures r.Ok? ==>
      && r.value.success && r.value.uploadTime == now
      && r.value.filePath == SavedPath(f) && r.value.fileSize == f.size && r.value.filename == f.filename
      && r.value.fileType == FileTypeOf(f)
  {
    if !Accepted(f.filename, formats) then
      Raise(HTTPException(400, UnsupportedUpload(formats)))
    else if f.size > maxFileSize then
      Raise(HTTPException(400, TooLargeUpload(maxFileSize)))
    else if f.writeFailure.Some? then
      Raise(HTTPException(500, UploadFailed + f.writeFailure.value.Text()))
    else
      Ok(FileUploadResponse(true, UploadDone, f.filename, SavedPath(f), f.size, FileTypeOf(f), now))
  }

  /** The files one upload writes. */
  function Saves(f: UploadFile, formats: seq<string>, maxFileSize: int): (s: seq<SavedFile>)
    ensures |s| <= 1
  {
    if Accepted(f.filename, formats) && f.size <= maxFileSize && f.writeFailure.None?
    then [SavedFile(SavedPath(f), f.size)] else []
  }

  /** One entry of a batch upload. */
  datatype UploadEntry = UploadEntry(filename: string, success: bool, error: Option<string>,
                                     filePath: Option<string>, fileSize: Option<nat>)

  function EntryFor(f: UploadFile, formats: seq<string>, maxFileSize: int): (e: UploadEntry)
    ensures e.filename == f.filename
  {
    if !Accepted(f.filename, formats) then
      UploadEntry(f.filename, false, Some(UnsupportedEntry + Suffix(f.filename)), None, None)
    else if f.size > maxFileSize then
      UploadEntry(f.filename, false, Some(TooLargeEntry), None, None)
    else if f.writeFailure.Some? then
      UploadEntry(f.filename, false, Some(f.writeFailure.value.Text()), None, None)
    else
      UploadEntry(f.filename, true, None, Some(SavedPath(f)), Some(f.size))
  }

  /** A batch entry succeeds exactly when the file is written; a refused file's
      entry says why, the type being checked before the size. */
  lemma EntryOutcome(f: UploadFile, formats: seq<string>, maxFileSize: int)
    ensures EntryFor(f, formats, maxFileSize).success <==> |Saves(f, formats, maxFileSize)| == 1
    ensures !Accepted(f.filename, formats) ==> EntryFor(f, formats, maxFileSize).error == Some(UnsupportedEntry + Suffix(f.filename))
    ensures Accepted(f.filename, formats) && f.size > maxFileSize ==> EntryFor(f, formats, maxFileSize).error == Some(TooLargeEntry)
  {
  }

  /** As written, a file that is accepted, fits and is written still gets HTTP 500,
      after it was saved, where the corrected upload answers it with success. */
  lemma WrittenUploadRefused(f: UploadFile, formats: seq<string>, maxFileSize: int, refusal: string, now: real)
    requires Accepted(f.filename, formats) && f.size <= maxFileSize && f.writeFailure.None?
    ensures UploadReply(f, formats, maxFileSize, refusal) == Raise(HTTPException(500, UploadFailed + refusal))
    ensures Saves(f, formats, maxFileSize) == [SavedFile(SavedPath(f), f.size)]
    ensures CorrectedUploadReply(f, formats, maxFileSize, now).Ok?
  {
  }

  /** A batch entry succeeds exactly when the same file uploaded alone would under
      the corrected upload, with the same path. */
  lemma EntryAgreesWithUpload(f: UploadFile, formats: seq<string>, maxFileSize: int, now: real)
    ensures EntryFor(f, formats, maxFileSize).success <==> CorrectedUploadReply(f, formats, maxFileSize, now).Ok?
    ensures CorrectedUploadReply(f, formats, maxFileSize, now).Ok? ==>
      EntryFor(f, formats, maxFileSize).filePath == Some(CorrectedUploadReply(f, formats, maxFileSize, now).value.filePath)
  {
  }

  /** One entry per file, in order. */
  function Entries(files: seq<UploadFile>, formats: seq<string>, maxFileSize: int): (es: seq<UploadEntry>)
    ensures |es| == |files|
    decreases |files|
  {
    if files == [] then []
    else Entries(files[..|files| - 1], formats, maxFileSize) + [EntryFor(files[|files| - 1], formats, maxFileSize)]
  }

  lemma {:induction false} EntriesAt(files: seq<UploadFile>, formats: seq<string>, maxFileSize: int, i: nat)
    requires i < |files|
    ensures Entries(files, formats, maxFileSize)[i] == EntryFor(files[i], formats, maxFileSize)
    decreases |files|
  {
    var n := |files| - 1;
    if i < n {
      EntriesAt(files[..n], formats, maxFileSize, i);
    }
  }

  /** The files a batch writes, in order. */
  function AllSaves(files: seq<UploadFile>, formats: seq<string>, maxFileSize: int): seq<SavedFile>
    decreases |files|
  {
    if files == [] then []
    else AllSaves(files[..|files| - 1], formats, maxFileSize) + Saves(files[|files| - 1], formats, maxFileSize)
  }

  function Successes(es: seq<UploadEntry>): (n: nat)
    ensures n <= |es|
    decreases |es|
  {
    if es == [] then 0 else Successes(es[..|es| - 1]) + (if es[|es| - 1].success then 1 else 0)
  }

  datatype BatchUploadReply = BatchUploadReply(message: string, totalFiles: nat, successCount: nat,
                                               errorCount: nat, results: seq<UploadEntry>)

  function BatchMessage(successCount: nat, errorCount: nat): string {
    BatchDonePrefix + NatText(successCount) + FailedInfix + NatText(errorCount) + CountUnit
  }

  /** `batch_upload_documents`: more than ten files is HTTP 400; otherwise one entry
      per file, in order, each counted as a success or an error. */
  function BatchUpload(files: seq<UploadFile>, formats: seq<string>, maxFileSize: int): (r: Outcome<BatchUploadReply>)
    ensures |files| > 10 <==> r == Raise(HTTPException(400, TooManyFiles))
    ensures r.Ok? ==>
      && r.value.results == Entries(files, formats, maxFileSize)
      && r.value.totalFiles == |files| && r.value.successCount + r.value.errorCount == |files|
      && r.value.message == BatchMessage(r.value.successCount, r.value.errorCount)
  {
    if |files| > 10 then Raise(HTTPException(400, TooManyFiles))
    else Ok(Tally(Entries(files, formats, maxFileSize)))
  }

  /** The reply that counts the entries of a batch. */
  function Tally(es: seq<UploadEntry>): (r: BatchUploadReply)
    ensures r.results == es && r.totalFiles == |es| && r.successCount == Successes(es)
    ensures r.successCount + r.errorCount == |es| && r.message == BatchMessage(r.successCount, r.errorCount)
  {
    var s := Successes(es);
    BatchUploadReply(BatchMessage(s, |es| - s), |es|, s, |es| - s, es)
  }

  lemma TallyOf(es: seq<UploadEntry>, successCount: nat, errorCount: nat)
    requires successCount == Successes(es) && successCount + errorCount == |es|
    ensures Tally(es) == BatchUploadReply(BatchMessage(successCount, errorCount), |es|, successCount, errorCount, es)
  {
  }

  lemma EntriesStep(files: seq<UploadFile>, i: nat, formats: seq<string>, maxFileSize: int)
    requires i < |files|
    ensures Entries(files[..i + 1], formats, maxFileSize) == Entries(files[..i], formats, maxFileSize) + [EntryFor(files[i], formats, maxFileSize)]
  {
    assert files[..i + 1][..i] == files[..i];
  }

  lemma AllSavesStep(files: seq<UploadFile>, i: nat, formats: seq<string>, maxFileSize: int)
    requires i < |files|
    ensures AllSaves(files[..i + 1], formats, maxFileSize) == AllSaves(files[..i], formats, maxFileSize) + Saves(files[i], formats, maxFileSize)
  {
    assert files[..i + 1][..i] == files[..i];
  }

  lemma SuccessesAppend(es: seq<UploadEntry>, e: UploadEntry)
    ensures Successes(es + [e]) == Successes(es) + (if e.success then 1 else 0)
  {
    assert (es + [e])[..|es|] == es;
  }

  /** The batch's success count is the number of files it wrote. */
  lemma {:induction false} SuccessesAreSaves(files: seq<UploadFile>, formats: seq<string>, maxFileSize: int)
    ensures Successes(Entries(files, formats, maxFileSize)) == |AllSaves(files, formats, maxFileSize)|
    decreases |files|
  {
    if files != [] {
      var n := |files| - 1;
      SuccessesAreSaves(files[..n], formats, maxFileSize);
      SuccessesAppend(Entries(files[..n], formats, maxFileSize), EntryFor(files[n], formats, maxFileSize));
      EntryOutcome(files[n], formats, maxFileSize);
    }
  }

  /** Every entry of a batch carries its file's name and agrees with a single
      upload under the corrected upload. */
  lemma BatchUploadAccounting(files: seq<UploadFile>, formats: seq<string>, maxFileSize: int, now: real)
    requires |files| <= 10
    ensures var r := BatchUpload(files, formats, maxFileSize);
      && r.Ok?
      && r.value.successCount == |AllSaves(files, formats, maxFileSize)|
      && (forall i :: 0 <= i < |files| ==>
            && r.value.results[i].filename == files[i].filename
            && (r.value.results[i].success <==> CorrectedUploadReply(files[i], formats, maxFileSize, now).Ok?))
  {
    SuccessesAreSaves(files, formats, maxFileSize);
    forall i | 0 <= i < |files|
      ensures BatchUpload(files, formats, maxFileSize).value.results[i].filename == files[i].filename
      ensures BatchUpload(files, formats, maxFileSize).value.results[i].success
              <==> CorrectedUploadReply(files[i], formats, maxFileSize, now).Ok?
    {
      EntriesAt(files, formats, maxFileSize, i);
      EntryAgreesWithUpload(files[i], formats, maxFileSize, now);
    }
  }

  /** The upload directory, as the list of files written to it. */
  class UploadStore {
    var saved: seq<SavedFile>

    constructor ()
      ensures saved == []
    {
      saved := [];
    }

    /** `save_uploaded_file`. */
    method Save(f: UploadFile) returns (r: Outcome<SavedFile>)
      modifies this
      ensures f.writeFailure.Some? ==> r == Raise(f.writeFailure.value) && saved == old(saved)
      ensures f.writeFailure.None? ==> r == Ok(SavedFile(SavedPath(f), f.size)) && saved == old(saved) + [r.value]
    {
      if f.writeFailure.Some? {
        return Raise(f.writeFailure.value);
      }
      r := Ok(SavedFile(SavedPath(f), f.size));
      saved := saved + [r.value];
    }

    /** `upload_document`, as written: a written file stays written when the response
        that follows is refused. */
    method UploadDocument(f: UploadFile, formats: seq<string>, maxFileSize: int, refusal: string)
      returns (r: Outcome<FileUploadResponse>)
      modifies this
      ensures r == UploadReply(f, formats, maxFileSize, refusal)
      ensures saved == old(saved) + Saves(f, formats, maxFileSize)
    {
      if !Accepted(f.filename, formats) {
        return Raise(HTTPException(400, UnsupportedUpload(formats)));
      }
      if f.size > maxFileSize {
        return Raise(HTTPException(400, TooLargeUpload(maxFileSize)));
      }
      var info := Save(f);
      if info.Raise? {
        return Raise(HTTPException(500, UploadFailed + info.exc.Text()));
      }
      var built := NewFileUploadResponse(f.filename, info.value.path, info.value.size, FileTypeOf(f), None, refusal);
      r := Raise(HTTPException(500, UploadFailed + built.exc.Text()));
    }

    /** The body of the loop of `batch_upload_documents` for one file. */
    method UploadOne(f: UploadFile, formats: seq<string>, maxFileSize: int) returns (entry: UploadEntry)
      modifies this
      ensures entry == EntryFor(f, formats, maxFileSize)
      ensures saved == old(saved) + Saves(f, formats, maxFileSize)
    {
      if !Accepted(f.filename, formats) {
        return UploadEntry(f.filename, false, Some(UnsupportedEntry + Suffix(f.filename)), None, None);
      }
      if f.size > maxFileSize {
        return UploadEntry(f.filename, false, Some(TooLargeEntry), None, None);
      }
      var info := Save(f);
      if info.Raise? {
        entry := UploadEntry(f.filename, false, Some(info.exc.Text()), None, None);
      } else {
        entry := UploadEntry(f.filename, true, None, Some(info.value.path), Some(info.value.size));
      }
    }

    /** `batch_upload_documents`: nothing is written when the batch is refused. */
    method BatchUploadDocuments(files: seq<UploadFile>, formats: seq<string>, maxFileSize: int)
      returns (r: Outcome<BatchUploadReply>)
      modifies this
      ensures r == BatchUpload(files, formats, maxFileSize)
      ensures |files| > 10 ==> saved == old(saved)
      ensures |files| <= 10 ==> saved == old(saved) + AllSaves(files, formats, maxFileSize)
    {
      if |files| > 10 {
        return Raise(HTTPException(400, TooManyFiles));
      }
      var results, successCount, errorCount := UploadAll(files, formats, maxFileSize);
      TallyOf(results, successCount, errorCount);
      r := Ok(BatchUploadReply(BatchMessage(successCount, errorCount), |files|, successCount, errorCount, results));
    }

    /** The loop of `batch_upload_documents`: every file in order, counting the
        entries that succeeded and those that did not. */
    method UploadAll(files: seq<UploadFile>, formats: seq<string>, maxFileSize: int)
      returns (results: seq<UploadEntry>, successCount: nat, errorCount: nat)
      modifies this
      ensures results == Entries(files, formats, maxFileSize)
      ensures successCount == Successes(results) && errorCount == |files| - successCount
      ensures saved == old(saved) + AllSaves(files, formats, maxFileSize)
    {
      results, successCount, errorCount := [], 0, 0;
      for i := 0 to |files|
        invariant results == Entries(files[..i], formats, maxFileSize)
        invariant successCount == Successes(results) && successCount + errorCount == i
        invariant saved == old(saved) + AllSaves(files[..i], formats, maxFileSize)
      {
        var entry := UploadOne(files[i], formats, maxFileSize);
        EntriesStep(files, i, formats, maxFileSize);
        AllSavesStep(files, i, formats, maxFileSize);
        AppendAssoc(old(saved), AllSaves(files[..i], formats, maxFileSize), Saves(files[i], formats, maxFileSize));
        SuccessesAppend(results, entry);
        results := results + [entry];
        if entry.success {
          successCount := successCount + 1;
        } else {
          errorCount := errorCount + 1;
        }
      }
      assert files[..|files|] == files;
    }
  }

  // ---------------------------------------------------------------- /process

  datatype ProcessRequest = ProcessRequest(filePath: Option<string>, directoryPath: Option<string>)

  /** `DocumentProcessResponse`. */
  datatype ProcessResponse = ProcessResponse(
    success: bool,
    message: string,
    filePath: Option<string>,
    directoryPath: Option<string>,
    originalDocs: Option<nat>,
    chunksCreated: Option<nat>,
    storedCount: Option<nat>)

  /** Where a request is sent: a non-empty `file_path` wins over `directory_path`. */
  datatype Target = FileTarget(path: string) | DirectoryTarget(path: string) | NoTarget

  function TargetOf(request: ProcessRequest): (t: Target)
    ensures request.filePath.Some? && request.filePath.value != [] ==> t == FileTarget(request.filePath.value)
    ensures t.DirectoryTarget? ==> request.directoryPath == Some(t.path) && t.path != []
    ensures t == NoTarget <==>
      (request.filePath.None? || request.filePath.value == []) && (request.directoryPath.None? || request.directoryPath.value == [])
  {
    if request.filePath.Some? && request.filePath.value != [] then FileTarget(request.filePath.value)
    else if request.directoryPath.Some? && request.directoryPath.value != [] then DirectoryTarget(request.directoryPath.value)
    else NoTarget
  }

  /** The request the route receives from a validated body. */
  function RequestOf(d: ApiModels.DocumentProcessRequest): (request: ProcessRequest)
    ensures request.filePath == d.filePath && request.directoryPath == d.directoryPath
  {
    ProcessRequest(d.filePath, d.directoryPath)
  }

  /** Over HTTP, the only body `DocumentProcessRequest` accepts names no path, so the
      route answers it 400: its file and directory branches are never reached. */
  lemma NoPathReachesProcess(filePath: ApiModels.Supplied, directoryPath: ApiModels.Supplied, overwrite: Option<bool>)
    ensures ApiModels.NewDocumentProcessRequest(filePath, directoryPath, overwrite).Valid? ==>
      TargetOf(RequestOf(ApiModels.NewDocumentProcessRequest(filePath, directoryPath, overwrite).value)) == NoTarget
  {
  }

  /** With the corrected check, every accepted body reaches the route with a target:
      its file when a file path is given, otherwise its directory. */
  lemma CorrectedRequestReachesRoute(filePath: ApiModels.Supplied, directoryPath: ApiModels.Supplied, overwrite: Option<bool>)
    ensures var r := ApiModels.CorrectedDocumentProcessRequest(filePath, directoryPath, overwrite);
      && (r.Valid? <==> ApiModels.GivenPath(filePath) || ApiModels.GivenPath(directoryPath))
      && (r.Valid? && ApiModels.GivenPath(filePath) ==> TargetOf(RequestOf(r.value)) == FileTarget(filePath.text))
      && (r.Valid? && !ApiModels.GivenPath(filePath) ==> TargetOf(RequestOf(r.value)) == DirectoryTarget(directoryPath.text))
  {
  }

  /** An exception of the engine call: HTTP 500 unless it already is an HTTPException. */
  function EngineFailure(e: Exc): (x: Exc)
    ensures x.HTTPException? && (!e.HTTPException? ==> x.status == 500)
  {
    if e.HTTPException? then e else HTTPException(500, ProcessFailed + e.Text())
  }

  /** The reply to a processed file: HTTP 500 with the result's message unless it succeeded. */
  function FileReply(fr: Documents.FileResult): (r: Outcome<ProcessResponse>)
    ensures r.Ok? <==> fr.success
    ensures !fr.success ==> r == Raise(HTTPException(500, fr.message))
    ensures r.Ok? ==> r.value.message == fr.message && r.value.filePath == Some(fr.filePath)
                      && r.value.chunksCreated == fr.chunksCreated && r.value.storedCount == fr.storedCount
  {
    if !fr.success then Raise(HTTPException(500, fr.message))
    else Ok(ProcessResponse(true, fr.message, Some(fr.filePath), None, fr.originalDocs, fr.chunksCreated, fr.storedCount))
  }

  /** The reply to a processed directory, as written: the tally has no "success" key,
      so `result.get("success")` is None and the route answers HTTP 500 with the
      default message; the failure entry is HTTP 500 with its message. */
  function DirectoryReply(reply: Engine.DirectoryReply): (r: Outcome<ProcessResponse>)
    ensures reply.Tallied? ==> r == Raise(HTTPException(500, ProcessFailedDefault))
    ensures reply.DirectoryFailed? ==> r == Raise(HTTPException(500, reply.message))
  {
    match reply
    case Tallied(_) => Raise(HTTPException(500, ProcessFailedDefault))
    case DirectoryFailed(message, _, _) => Raise(HTTPException(500, message))
  }

  /** No directory request is ever answered with success. */
  lemma DirectoryNeverSucceeds(reply: Engine.DirectoryReply)
    ensures DirectoryReply(reply).Raise? && DirectoryReply(reply).exc.status == 500
  {
  }

  /** A directory whose every file was processed is still reported as a failure. */
  lemma CleanDirectoryReportedAsFailure(result: Documents.DirResult)
    requires result.errorCount == 0
    ensures DirectoryReply(Engine.Tallied(result)) == Raise(HTTPException(500, ProcessFailedDefault))
  {
  }

  /** The reply as evidently intended: a completed tally is a success, and only the
      failure entry is HTTP 500. */
  function CorrectedDirectoryReply(reply: Engine.DirectoryReply, directory: string): (r: Outcome<ProcessResponse>)
    ensures r.Ok? <==> reply.Tallied?
    ensures reply.DirectoryFailed? ==> r == Raise(HTTPException(500, reply.message))
    ensures r.Ok? ==> r.value.success && r.value.directoryPath == Some(directory)
                      && r.value.chunksCreated == Some(reply.result.totalChunks)
  {
    match reply
    case Tallied(result) =>
      Ok(ProcessResponse(true, ProcessDoneDefault, None, Some(directory), None, Some(result.totalChunks), None))
    case DirectoryFailed(message, _, _) => Raise(HTTPException(500, message))
  }

  /** The engine's reply for a directory, from the processor's tally or its exception. */
  function EngineDirectoryReply(out: Outcome<Documents.DirResult>, directory: string): Engine.DirectoryReply {
    match out
    case Ok(result) => Engine.Tallied(result)
    case Raise(e) => Engine.DirectoryFailed(DirectoryFailedPrefix + e.Text(), directory, e.Text())
  }

  /** `process_document`: 400 without a path, 404 for a path that does not exist, HTTP
      500 for an engine exception, otherwise the reply to the engine's result. */
  method ProcessDocument(engine: Engine.RAGEngine, request: ProcessRequest, pathExists: string -> bool, elapsed: real)
    returns (r: Outcome<ProcessResponse>)
    requires engine.Valid()
    modifies engine.documentProcessor, engine.metrics
    ensures TargetOf(request) == NoTarget ==> r == Raise(HTTPException(400, NoPathGiven))
    ensures TargetOf(request).FileTarget? && !pathExists(TargetOf(request).path) ==> r == Raise(HTTPException(404, NoSuchFile))
    ensures TargetOf(request).DirectoryTarget? && !pathExists(TargetOf(request).path) ==> r == Raise(HTTPException(404, NoSuchDirectory))
    ensures !TargetOf(request).NoTarget? && pathExists(TargetOf(request).path) && !engine.initialized ==>
      r == Raise(HTTPException(500, ProcessFailed + Engine.NotInitialized))
    ensures TargetOf(request).NoTarget? || !pathExists(TargetOf(request).path) ==>
      && engine.metrics.Snapshot() == old(engine.metrics.Snapshot())
      && (engine.documentProcessor != null ==> unchanged(engine.documentProcessor))
    ensures TargetOf(request).FileTarget? && pathExists(TargetOf(request).path) && !engine.initialized ==>
      && engine.metrics.Snapshot() == Engine.DocumentDecorated(old(engine.metrics.Snapshot()), false, elapsed)
      && (engine.documentProcessor != null ==> unchanged(engine.documentProcessor))
    ensures TargetOf(request).DirectoryTarget? && pathExists(TargetOf(request).path) && !engine.initialized ==>
      && engine.metrics.Snapshot() == old(engine.metrics.Snapshot())
      && (engine.documentProcessor != null ==> unchanged(engine.documentProcessor))
    ensures TargetOf(request).FileTarget? && pathExists(TargetOf(request).path) && engine.initialized ==>
      var out := Documents.FileStep(engine.documentProcessor.env, old(engine.documentProcessor.collection),
                                    TargetOf(request).path);
      && r == FileReply(out.0)
      && engine.documentProcessor.collection == out.1
      && engine.metrics.Snapshot()
         == Engine.DocumentDecorated(Engine.Processed(old(engine.metrics.Snapshot()), out.0.success, Documents.ChunksOf(out.0),
                                                      Engine.CountedSize(engine.documentProcessor)), true, elapsed)
    ensures TargetOf(request).DirectoryTarget? && pathExists(TargetOf(request).path) && engine.initialized ==>
      var out := Documents.Directory(engine.documentProcessor.env, old(engine.documentProcessor.collection),
                                     TargetOf(request).path);
      && r == DirectoryReply(EngineDirectoryReply(out.0, TargetOf(request).path))
      && engine.documentProcessor.collection == out.1
      && engine.metrics.Snapshot()
         == Engine.Processed(old(engine.metrics.Snapshot()), out.0.Ok?, if out.0.Ok? then out.0.value.totalChunks else 0,
                             Engine.CountedSize(engine.documentProcessor))
  {
    match TargetOf(request)
    case NoTarget =>
      r := Raise(HTTPException(400, NoPathGiven));
    case FileTarget(path) =>
      if !pathExists(path) {
        return Raise(HTTPException(404, NoSuchFile));
      }
      var result := engine.ProcessDocument(path, elapsed);
      if result.Raise? {
        return Raise(EngineFailure(result.exc));
      }
      r := FileReply(result.value);
    case DirectoryTarget(path) =>
      if !pathExists(path) {
        return Raise(HTTPException(404, NoSuchDirectory));
      }
      var result := engine.ProcessDirectory(path, elapsed);
      if result.Raise? {
        return Raise(EngineFailure(result.exc));
      }
      r := DirectoryReply(result.value);
  }

  // ---------------------------------------------------------------- /list

  /** A path `rglob` yields under the directory, with what `stat` reports. */
  datatype Entry = Entry(path: string, isFile: bool, size: nat, modifiedTime: real)

  datatype FileInfo = FileInfo(filename: string, filePath: string, fileSize: nat, modifiedTime: real,
                               fileType: string, processed: Option<bool>)

  function InfoOf(e: Entry, includeProcessed: bool): (info: FileInfo)
    ensures info.filePath == e.path && info.fileSize == e.size && info.modifiedTime == e.modifiedTime
    ensures info.filename == BaseName(e.path) && info.fileType == Lower(Suffix(e.path))
    ensures info.processed == (if includeProcessed then Some(false) else None)
  {
    FileInfo(BaseName(e.path), e.path, e.size, e.modifiedTime, Lower(Suffix(e.path)),
             if includeProcessed then Some(false) else None)
  }

  /** A directory entry is listed when it is a regular file of a supported type. */
  predicate Kept(e: Entry, formats: seq<string>) {
    e.isFile && Accepted(BaseName(e.path), formats)
  }

  /** The regular files of a supported type, in the order `rglob` yields them. */
  function Listed(entries: seq<Entry>, formats: seq<string>, includeProcessed: bool): (files: seq<FileInfo>)
    ensures |files| <= |entries|
    decreases |entries|
  {
    if entries == [] then []
    else
      var n := |entries| - 1;
      var e := entries[n];
      Listed(entries[..n], formats, includeProcessed)
      + (if Kept(e, formats) then [InfoOf(e, includeProcessed)] else [])
  }

  function TotalSize(files: seq<FileInfo>): nat
    decreases |files|
  {
    if files == [] then 0 else TotalSize(files[..|files| - 1]) + files[|files| - 1].fileSize
  }

  /** Newest first. */
  predicate Descending(files: seq<FileInfo>) {
    forall i, j :: 0 <= i < j < |files| ==> files[i].modifiedTime >= files[j].modifiedTime
  }

  /** Inserting `x` after every file at least as new as it (so files with equal times
      keep their order). */
  function Insert(sorted: seq<FileInfo>, x: FileInfo): (r: seq<FileInfo>)
    ensures multiset(r) == multiset(sorted) + multiset{x}
    decreases |sorted|
  {
    if sorted == [] then [x]
    else
      var n := |sorted| - 1;
      assert sorted[..n] + [sorted[n]] == sorted;
      if sorted[n].modifiedTime >= x.modifiedTime then sorted + [x]
      else Insert(sorted[..n], x) + [sorted[n]]
  }

  lemma InsertMember(sorted: seq<FileInfo>, x: FileInfo, f: FileInfo)
    requires f in Insert(sorted, x)
    ensures f in sorted || f == x
  {
    assert f in multiset(Insert(sorted, x));
  }

  /** Insertion keeps a list newest first. */
  lemma {:induction false} InsertDescending(sorted: seq<FileInfo>, x: FileInfo)
    requires Descending(sorted)
    ensures Descending(Insert(sorted, x))
    decreases |sorted|
  {
    if sorted != [] {
      var n := |sorted| - 1;
      var last := sorted[n];
      if last.modifiedTime < x.modifiedTime {
        InsertDescending(sorted[..n], x);
        var front := Insert(sorted[..n], x);
        var r := front + [last];
        assert r == Insert(sorted, x);
        forall i, j | 0 <= i < j < |r|
          ensures r[i].modifiedTime >= r[j].modifiedTime
        {
          assert r[i] == front[i];
          if j == |r| - 1 {
            InsertMember(sorted[..n], x, front[i]);
          } else {
            assert r[j] == front[j];
          }
        }
      }
    }
  }

  /** `files.sort(key=modified_time, reverse=True)`. */
  method SortByModifiedTime(files: seq<FileInfo>) returns (sorted: seq<FileInfo>)
    ensures Descending(sorted) && multiset(sorted) == multiset(files)
  {
    sorted := [];
    for i := 0 to |files|
      invariant Descending(sorted) && multiset(sorted) == multiset(files[..i])
    {
      assert files[..i + 1] == files[..i] + [files[i]];
      InsertDescending(sorted, files[i]);
      sorted := Insert(sorted, files[i]);
    }
    assert files[..|files|] == files;
  }

  lemma CollectStep(entries: seq<Entry>, i: nat, formats: seq<string>, includeProcessed: bool)
    requires i < |entries|
    ensures var e := entries[i];
      Listed(entries[..i + 1], formats, includeProcessed)
      == Listed(entries[..i], formats, includeProcessed)
         + (if Kept(e, formats) then [InfoOf(e, includeProcessed)] else [])
  {
    assert entries[..i + 1][..i] == entries[..i];
  }

  lemma TotalSizeAppend(files: seq<FileInfo>, f: FileInfo)
    ensures TotalSize(files + [f]) == TotalSize(files) + f.fileSize
  {
    assert (files + [f])[..|files|] == files;
  }

  /** The loop of `list_documents` that keeps the supported regular files and sums their sizes. */
  method Collect(entries: seq<Entry>, formats: seq<string>, includeProcessed: bool) returns (files: seq<FileInfo>, totalSize: nat)
    ensures files == Listed(entries, formats, includeProcessed) && totalSize == TotalSize(files)
  {
    files, totalSize := [], 0;
    for i := 0 to |entries|
      invariant files == Listed(entries[..i], formats, includeProcessed)
      invariant totalSize == TotalSize(files)
    {
      var e := entries[i];
      CollectStep(entries, i, formats, includeProcessed);
      if Kept(e, formats) {
        TotalSizeAppend(files, InfoOf(e, includeProcessed));
        files := files + [InfoOf(e, includeProcessed)];
        totalSize := totalSize + e.size;
      }
    }
    assert entries[..|entries|] == entries;
  }

  datatype FileListResponse = FileListResponse(message: string, files: seq<FileInfo>, totalCount: nat, totalSize: nat)

  /** `list_documents`: an absent directory is an empty listing; otherwise the
      supported regular files, newest first, with their count and total size. */
  method ListDocuments(directoryExists: bool, entries: seq<Entry>, formats: seq<string>, includeProcessed: bool)
    returns (r: FileListResponse)
    ensures !directoryExists ==> r == FileListResponse(NoSuchDirectory, [], 0, 0)
    ensures directoryExists ==>
      var listed := Listed(entries, formats, includeProcessed);
      && Descending(r.files) && multiset(r.files) == multiset(listed)
      && r.totalCount == |listed| && r.totalSize == TotalSize(listed)
      && r.message == ListMessage(|listed|)
  {
    if !directoryExists {
      return FileListResponse(NoSuchDirectory, [], 0, 0);
    }
    var files, totalSize := Collect(entries, formats, includeProcessed);
    var sorted := SortByModifiedTime(files);
    r := FileListResponse(ListMessage(|files|), sorted, |files|, totalSize);
  }

  /** With the default formats every listing is empty. */
  lemma {:induction false} NothingListedByDefault(entries: seq<Entry>, includeProcessed: bool)
    ensures Listed(entries, ["pdf", "txt", "md", "docx"], includeProcessed) == []
    decreases |entries|
  {
    if entries != [] {
      var n := |entries| - 1;
      NothingListedByDefault(entries[..n], includeProcessed);
      NoNameAcceptedByDefault(BaseName(entries[n].path));
    }
  }
}
