/** Ingestion bookkeeping of `DocumentProcessor` (src/core/document_processor.py):
    the guard order of `load_document`, the metadata `split_documents` writes on
    every chunk, what `store_documents` adds to the vector collection, the result
    of `process_file`, the counters of `process_directory`, the collection
    statistics and `delete_document`. The file system, the loaders, the text
    splitter, the embedder and the collection's failures are oracles held in a
    `DocEnv`; the collection's records are a sequence the processor owns. */
module Documents {
  import opened Common

  // ---------------------------------------------------------------- data

  /** A loaded document or a chunk of one. */
  datatype Doc = Doc(pageContent: string, metadata: Metadata)

  /** One record of the vector collection (its embedding is not modelled). */
  datatype Record = Record(id: Value, text: string, metadata: Metadata)

  /** External behaviour the processor depends on but does not define. */
  datatype DocEnv = DocEnv(
    pathExists: string -> bool,                       // `os.path.exists`
    fileHash: string -> Outcome<string>,              // reading a file for its MD5 hex digest
    fileSize: string -> int,                          // `os.path.getsize`
    load: string -> Outcome<seq<Doc>>,                // the loader the suffix selects
    split: seq<Doc> -> Outcome<seq<Doc>>,             // the recursive character splitter
    embed: seq<string> -> Outcome<seq<seq<real>>>,    // the sentence embedder
    glob: (string, string) -> seq<string>,            // `Path(dir).glob(pattern)`
    repr: Value -> string,                            // `f"{v}"` for a value that is not a string
    getFailure: Option<Exc>,                          // `collection.get` raises
    addFailure: Option<Exc>,                          // `collection.add` raises
    deleteFailure: Option<Exc>,                       // `collection.delete` raises
    countFailure: Option<Exc>,                        // `collection.count` raises
    now: string,                                      // `datetime.now().isoformat()`
    collectionName: string,
    embeddingModel: string)

  /** The keys of `supported_formats`, in the order the table lists them. */
  const SupportedFormats: seq<string> := [".pdf", ".txt", ".md", ".docx"]

  // ---------------------------------------------------------------- collection queries

  predicate HasHash(r: Record, h: string) {
    "file_hash" in r.metadata && r.metadata["file_hash"] == VStr(h)
  }

  /** `collection.get(where={"file_hash": h})["ids"]`, in collection order. */
  function IdsWithHash(coll: seq<Record>, h: string): (ids: seq<Value>)
    ensures |ids| <= |coll|
    ensures forall i :: 0 <= i < |coll| && HasHash(coll[i], h) ==> coll[i].id in ids
    ensures forall x :: x in ids ==> exists i :: 0 <= i < |coll| && HasHash(coll[i], h) && coll[i].id == x
    ensures (forall i :: 0 <= i < |coll| ==> !HasHash(coll[i], h)) ==> ids == []
    decreases |coll|
  {
    if coll == [] then []
    else
      var n := |coll| - 1;
      var before := IdsWithHash(coll[..n], h);
      assert forall i :: 0 <= i < n ==> coll[..n][i] == coll[i];
      if HasHash(coll[n], h) then before + [coll[n].id] else before
  }

  /** `_is_file_processed`: the file's digest is known to the collection; a failed
      read or query counts as not processed. */
  predicate Processed(env: DocEnv, coll: seq<Record>, path: string) {
    env.fileHash(path).Ok? && env.getFailure.None? && |IdsWithHash(coll, env.fileHash(path).value)| > 0
  }

  // ---------------------------------------------------------------- load

  /** The metadata `load_document` adds to every loaded document. */
  function Tagged(env: DocEnv, path: string, h: string, d: Doc): Doc {
    d.(metadata := d.metadata["file_path" := VStr(path)]["file_name" := VStr(BaseName(path))]
                             ["file_hash" := VStr(h)]["file_size" := VInt(env.fileSize(path))]
                             ["processed_at" := VStr(env.now)])
  }

  /** `load_document`: existence first, then the lower-cased suffix, then the
      already-processed check, then the loader. */
  function Loaded(env: DocEnv, coll: seq<Record>, path: string): (r: Outcome<seq<Doc>>)
    ensures !env.pathExists(path) ==> r == Raise(FileNotFoundError("文件不存在: " + path))
    ensures env.pathExists(path) && Lower(Suffix(path)) !in SupportedFormats ==>
      r == Raise(ValueError("不支持的文件格式: " + Lower(Suffix(path))))
    ensures r.Ok? ==> env.pathExists(path) && Lower(Suffix(path)) in SupportedFormats
    ensures env.pathExists(path) && Lower(Suffix(path)) in SupportedFormats && Processed(env, coll, path) ==> r == Ok([])
  {
    if !env.pathExists(path) then Raise(FileNotFoundError("文件不存在: " + path))
    else
      var ext := Lower(Suffix(path));
      if ext !in SupportedFormats then Raise(ValueError("不支持的文件格式: " + ext))
      else if Processed(env, coll, path) then Ok([])
      else match env.load(path)
        case Raise(e) => Raise(e)
        case Ok(docs) =>
          match env.fileHash(path)
          case Raise(e) => Raise(e)
          case Ok(h) => Ok(seq(|docs|, i requires 0 <= i < |docs| => Tagged(env, path, h, docs[i])))
  }

  /** A loaded document keeps its text and carries its file's path and digest. */
  lemma LoadedTagsEveryDocument(env: DocEnv, coll: seq<Record>, path: string, i: nat)
    requires Loaded(env, coll, path).Ok? && i < |Loaded(env, coll, path).value|
    ensures env.load(path).Ok? && env.fileHash(path).Ok?
    ensures |Loaded(env, coll, path).value| == |env.load(path).value|
    ensures var d := Loaded(env, coll, path).value[i];
      && d.pageContent == env.load(path).value[i].pageContent
      && "file_hash" in d.metadata && d.metadata["file_hash"] == VStr(env.fileHash(path).value)
      && "file_path" in d.metadata && d.metadata["file_path"] == VStr(path)
      && "file_name" in d.metadata && d.metadata["file_name"] == VStr(BaseName(path))
  {
  }

  /** A document whose suffix is not in the table is refused whether or not it exists
      in the collection: the format check comes before the processed check. */
  lemma UnsupportedBeforeProcessed(env: DocEnv, coll: seq<Record>, path: string)
    requires env.pathExists(path) && Processed(env, coll, path)
    requires Lower(Suffix(path)) !in SupportedFormats
    ensures Loaded(env, coll, path).Raise? && Loaded(env, coll, path).exc.ValueError?
  {
  }

  /** Only the four suffixes, in any letter case, are loaded. */
  lemma LoadableSuffixes(env: DocEnv, coll: seq<Record>, path: string)
    requires Loaded(env, coll, path).Ok?
    ensures Lower(Suffix(path)) == ".pdf" || Lower(Suffix(path)) == ".txt"
         || Lower(Suffix(path)) == ".md" || Lower(Suffix(path)) == ".docx"
  {
  }

  // ---------------------------------------------------------------- split

  /** `f"{v}"`. */
  function Display(env: DocEnv, v: Value): string {
    if v.VStr? then v.s else env.repr(v)
  }

  function ChunkId(env: DocEnv, c: Doc, i: nat): string
    requires "file_hash" in c.metadata
  {
    Display(env, c.metadata["file_hash"]) + "_" + NatText(i)
  }

  /** The metadata `split_documents` writes on chunk `i`. */
  function Labelled(env: DocEnv, c: Doc, i: nat): (d: Doc)
    requires "file_hash" in c.metadata
    ensures d.pageContent == c.pageContent
    ensures "chunk_id" in d.metadata && d.metadata["chunk_id"] == VStr(ChunkId(env, c, i))
    ensures "chunk_index" in d.metadata && d.metadata["chunk_index"] == VInt(i)
    ensures "chunk_size" in d.metadata && d.metadata["chunk_size"] == VInt(|c.pageContent|)
    ensures forall key :: key in c.metadata && key !in {"chunk_id", "chunk_index", "chunk_size"} ==>
      key in d.metadata && d.metadata[key] == c.metadata[key]
  {
    c.(metadata := c.metadata["chunk_id" := VStr(ChunkId(env, c, i))]["chunk_index" := VInt(i)]
                             ["chunk_size" := VInt(|c.pageContent|)])
  }

  predicate AllHashed(chunks: seq<Doc>) {
    forall i :: 0 <= i < |chunks| ==> "file_hash" in chunks[i].metadata
  }

  /** `split_documents`: the splitter's chunks, each labelled with its position
      across the whole list; a chunk without a file digest raises KeyError. */
  function Split(env: DocEnv, docs: seq<Doc>): (r: Outcome<seq<Doc>>)
    ensures env.split(docs).Raise? ==> r == Raise(env.split(docs).exc)
    ensures env.split(docs).Ok? && !AllHashed(env.split(docs).value) ==> r == Raise(KeyError("'file_hash'"))
    ensures r.Ok? ==>
      && env.split(docs).Ok? && AllHashed(env.split(docs).value)
      && |r.value| == |env.split(docs).value|
      && forall i :: 0 <= i < |r.value| ==> r.value[i] == Labelled(env, env.split(docs).value[i], i)
  {
    match env.split(docs)
    case Raise(e) => Raise(e)
    case Ok(chunks) =>
      if AllHashed(chunks) then Ok(seq(|chunks|, i requires 0 <= i < |chunks| => Labelled(env, chunks[i], i)))
      else Raise(KeyError("'file_hash'"))
  }

  /** Two chunks of one split never share an id, whatever their file digests. */
  lemma ChunkIdsDistinct(env: DocEnv, docs: seq<Doc>, i: nat, j: nat)
    requires Split(env, docs).Ok?
    requires i < j < |Split(env, docs).value|
    ensures Split(env, docs).value[i].metadata["chunk_id"] != Split(env, docs).value[j].metadata["chunk_id"]
  {
    var chunks := env.split(docs).value;
    if ChunkId(env, chunks[i], i) == ChunkId(env, chunks[j], j) {
      NatTextDigits(i);
      NatTextDigits(j);
      SplitAtLastUnderscore(Display(env, chunks[i].metadata["file_hash"]), NatText(i),
                            Display(env, chunks[j].metadata["file_hash"]), NatText(j));
      NatTextInjective(i, j);
    }
  }

  // ---------------------------------------------------------------- store

  datatype StoreResult = StoreResult(storedCount: nat, skippedCount: nat, collectionName: Option<string>)

  predicate AllIdentified(docs: seq<Doc>) {
    forall i :: 0 <= i < |docs| ==> "chunk_id" in docs[i].metadata
  }

  /** The records `collection.add` receives: ids, texts and metadata in chunk order. */
  function Records(docs: seq<Doc>): (rs: seq<Record>)
    requires AllIdentified(docs)
    ensures |rs| == |docs|
    ensures forall i :: 0 <= i < |docs| ==>
      rs[i].id == docs[i].metadata["chunk_id"] && rs[i].text == docs[i].pageContent && rs[i].metadata == docs[i].metadata
  {
    seq(|docs|, i requires 0 <= i < |docs| => Record(docs[i].metadata["chunk_id"], docs[i].pageContent, docs[i].metadata))
  }

  /** `store_documents`: the result and the collection afterwards. */
  function Stored(env: DocEnv, coll: seq<Record>, docs: seq<Doc>): (out: (Outcome<StoreResult>, seq<Record>))
    ensures docs == [] ==> out == (Ok(StoreResult(0, 0, None)), coll)
    ensures out.0.Raise? ==> out.1 == coll
    ensures out.0.Ok? && docs != [] ==>
      AllIdentified(docs) && out.0.value == StoreResult(|docs|, 0, Some(env.collectionName))
      && out.1 == coll + Records(docs)
  {
    if docs == [] then (Ok(StoreResult(0, 0, None)), coll)
    else if !AllIdentified(docs) then (Raise(KeyError("'chunk_id'")), coll)
    else
      var texts := seq(|docs|, i requires 0 <= i < |docs| => docs[i].pageContent);
      match env.embed(texts)
      case Raise(e) => (Raise(e), coll)
      case Ok(_) =>
        if env.addFailure.Some? then (Raise(env.addFailure.value), coll)
        else (Ok(StoreResult(|docs|, 0, Some(env.collectionName))), coll + Records(docs))
  }

  /** Storing a split adds exactly its chunks, and no two of them share an id. */
  lemma StoredSplitIdsDistinct(env: DocEnv, coll: seq<Record>, docs: seq<Doc>, i: nat, j: nat)
    requires Split(env, docs).Ok?
    requires Stored(env, coll, Split(env, docs).value).0.Ok?
    requires |coll| <= i < j < |Stored(env, coll, Split(env, docs).value).1|
    ensures Stored(env, coll, Split(env, docs).value).1[i].id != Stored(env, coll, Split(env, docs).value).1[j].id
  {
    var chunks := Split(env, docs).value;
    assert chunks != [];
    var added := Records(chunks);
    assert Stored(env, coll, chunks).1[i] == added[i - |coll|];
    assert Stored(env, coll, chunks).1[j] == added[j - |coll|];
    ChunkIdsDistinct(env, docs, i - |coll|, j - |coll|);
  }

  // ---------------------------------------------------------------- process_file

  datatype FileResult = FileResult(
    success: bool,
    message: string,
    filePath: string,
    originalDocs: Option<nat>,
    chunksCreated: Option<nat>,
    storedCount: Option<nat>,
    skippedCount: Option<nat>,
    collectionName: Option<string>,
    error: Option<string>)

  function FileFailed(path: string, e: Exc): (r: FileResult)
    ensures !r.success && r.error == Some(e.Text()) && r.filePath == path
  {
    FileResult(false, "文件处理失败: " + e.Text(), path, None, None, None, None, None, Some(e.Text()))
  }

  const SkippedMessage := "文件已处理，跳过"

  /** `process_file`: its result and the collection afterwards. */
  function FileStep(env: DocEnv, coll: seq<Record>, path: string): (out: (FileResult, seq<Record>))
    ensures out.0.filePath == path
    ensures !out.0.success ==> out.1 == coll && out.0.error.Some?
  {
    match Loaded(env, coll, path)
    case Raise(e) => (FileFailed(path, e), coll)
    case Ok(docs) =>
      if docs == [] then (FileResult(true, SkippedMessage, path, None, None, Some(0), None, None, None), coll)
      else match Split(env, docs)
        case Raise(e) => (FileFailed(path, e), coll)
        case Ok(chunks) =>
          var s := Stored(env, coll, chunks);
          match s.0
          case Raise(e) => (FileFailed(path, e), coll)
          case Ok(sr) =>
            (FileResult(true, "文件处理完成", path, Some(|docs|), Some(|chunks|), Some(sr.storedCount),
                        Some(sr.skippedCount), sr.collectionName, None), s.1)
  }

  /** An already-processed file is skipped: success, nothing stored, collection unchanged. */
  lemma ProcessedFileSkipped(env: DocEnv, coll: seq<Record>, path: string)
    requires env.pathExists(path) && Lower(Suffix(path)) in SupportedFormats && Processed(env, coll, path)
    ensures FileStep(env, coll, path).0.success
    ensures FileStep(env, coll, path).0.message == SkippedMessage
    ensures FileStep(env, coll, path).0.storedCount == Some(0)
    ensures FileStep(env, coll, path).1 == coll
  {
  }

  /** A file that produced chunks reports how many, and stored every one of them. */
  lemma ProcessedFileCounts(env: DocEnv, coll: seq<Record>, path: string)
    requires FileStep(env, coll, path).0.success
    requires FileStep(env, coll, path).0.message != SkippedMessage
    ensures Loaded(env, coll, path).Ok? && Split(env, Loaded(env, coll, path).value).Ok?
    ensures var chunks := Split(env, Loaded(env, coll, path).value).value;
      FileStep(env, coll, path).0.chunksCreated == Some(|chunks|)
      && |FileStep(env, coll, path).1| == |coll| + |chunks|
      && FileStep(env, coll, path).1[..|coll|] == coll
  {
    var chunks := Split(env, Loaded(env, coll, path).value).value;
    if chunks != [] {
      assert (coll + Records(chunks))[..|coll|] == coll;
    }
  }

  // ---------------------------------------------------------------- process_directory

  datatype DirResult = DirResult(
    successCount: nat,
    errorCount: nat,
    totalFiles: nat,
    totalChunks: nat,
    processedFiles: seq<FileResult>,
    errors: seq<FileResult>)

  /** The files `process_directory` finds: one recursive glob per table suffix, concatenated. */
  function Globbed(env: DocEnv, dir: string, exts: seq<string>): seq<string>
    decreases |exts|
  {
    if exts == [] then [] else Globbed(env, dir, exts[..|exts| - 1]) + env.glob(dir, "**/*" + exts[|exts| - 1])
  }

  function ChunksOf(r: FileResult): nat {
    if r.chunksCreated.Some? then r.chunksCreated.value else 0
  }

  function SumChunks(rs: seq<FileResult>): nat
    decreases |rs|
  {
    if rs == [] then 0 else SumChunks(rs[..|rs| - 1]) + ChunksOf(rs[|rs| - 1])
  }

  /** The counters after one more file result. */
  function Count(acc: DirResult, r: FileResult): DirResult {
    if r.success then
      acc.(successCount := acc.successCount + 1, totalChunks := acc.totalChunks + ChunksOf(r),
           processedFiles := acc.processedFiles + [r])
    else acc.(errorCount := acc.errorCount + 1, errors := acc.errors + [r])
  }

  /** The counters' meaning: every result is counted once, on the side its flag says. */
  predicate Tallied(acc: DirResult, n: nat) {
    && acc.successCount + acc.errorCount == n
    && acc.successCount == |acc.processedFiles|
    && acc.errorCount == |acc.errors|
    && acc.totalChunks == SumChunks(acc.processedFiles)
    && (forall i :: 0 <= i < |acc.processedFiles| ==> acc.processedFiles[i].success)
    && (forall i :: 0 <= i < |acc.errors| ==> !acc.errors[i].success)
  }

  /** The loop over `files`, the collection threaded from one file to the next. */
  function Tally(env: DocEnv, coll: seq<Record>, files: seq<string>, total: nat): (out: (DirResult, seq<Record>))
    ensures Tallied(out.0, |files|) && out.0.totalFiles == total
    decreases |files|
  {
    if files == [] then (DirResult(0, 0, total, 0, [], []), coll)
    else
      var n := |files| - 1;
      var before := Tally(env, coll, files[..n], total);
      var step := FileStep(env, before.1, files[n]);
      (Count(before.0, step.0), step.1)
  }

  /** One more file extends the tally by that file's step. */
  lemma TallyStep(env: DocEnv, coll: seq<Record>, files: seq<string>, total: nat, i: nat)
    requires i < |files|
    ensures var before := Tally(env, coll, files[..i], total);
      var step := FileStep(env, before.1, files[i]);
      Tally(env, coll, files[..i + 1], total) == (Count(before.0, step.0), step.1)
  {
    assert files[..i + 1][..i] == files[..i];
  }

  /** `process_directory`: FileNotFoundError for a missing directory, otherwise the tally. */
  function Directory(env: DocEnv, coll: seq<Record>, dir: string): (out: (Outcome<DirResult>, seq<Record>))
    ensures !env.pathExists(dir) ==> out == (Raise(FileNotFoundError("目录不存在: " + dir)), coll)
    ensures out.0.Ok? ==>
      && Tallied(out.0.value, out.0.value.totalFiles)
      && out.0.value.totalFiles == |Globbed(env, dir, SupportedFormats)|
  {
    if !env.pathExists(dir) then (Raise(FileNotFoundError("目录不存在: " + dir)), coll)
    else
      var files := Globbed(env, dir, SupportedFormats);
      var t := Tally(env, coll, files, |files|);
      (Ok(t.0), t.1)
  }

  /** Result `i` of the tally is file `i`'s own result, given the collection the earlier files left. */
  lemma {:induction false} TallyPartition(env: DocEnv, coll: seq<Record>, files: seq<string>, total: nat)
    ensures var out := Tally(env, coll, files, total).0;
      out.processedFiles + out.errors == [] <==> files == []
    ensures forall r :: r in Tally(env, coll, files, total).0.processedFiles + Tally(env, coll, files, total).0.errors ==>
      exists i :: 0 <= i < |files| && r.filePath == files[i]
    decreases |files|
  {
    if files != [] {
      var n := |files| - 1;
      TallyPartition(env, coll, files[..n], total);
      var before := Tally(env, coll, files[..n], total);
      var step := FileStep(env, before.1, files[n]);
      var out := Count(before.0, step.0);
      forall r | r in out.processedFiles + out.errors
        ensures exists i :: 0 <= i < |files| && r.filePath == files[i]
      {
        if r == step.0 {
          assert r.filePath == files[n];
        } else {
          assert r in before.0.processedFiles + before.0.errors;
          var i :| 0 <= i < n && r.filePath == files[..n][i];
          assert r.filePath == files[i];
        }
      }
      assert |out.processedFiles + out.errors| == |files|;
    }
  }

  // ---------------------------------------------------------------- stats and delete

  datatype Stats =
    | Stats(collectionName: string, totalDocuments: int, embeddingModel: string)
    | StatsError(error: string)

  /** `get_collection_stats`: a failing count is caught and reported, never raised. */
  function CollectionStats(env: DocEnv, coll: seq<Record>): (s: Stats)
    ensures env.countFailure.None? <==> s.Stats?
    ensures s.Stats? ==> s.totalDocuments == |coll|
    ensures s.StatsError? ==> s.error == env.countFailure.value.Text()
  {
    if env.countFailure.Some? then StatsError(env.countFailure.value.Text())
    else Stats(env.collectionName, |coll|, env.embeddingModel)
  }

  datatype DeleteResult = DeleteResult(
    success: bool,
    message: string,
    deletedCount: Option<nat>,
    filePath: Option<string>,
    error: Option<string>)

  function DeleteFailed(path: string, e: Exc): DeleteResult {
    DeleteResult(false, "文档删除失败: " + e.Text(), None, Some(path), Some(e.Text()))
  }

  /** `collection.delete(ids=ids)`: every record whose id is listed goes, the rest stay in order. */
  function Without(coll: seq<Record>, ids: seq<Value>): (rest: seq<Record>)
    ensures |rest| <= |coll|
    ensures forall r :: r in rest <==> r in coll && r.id !in ids
    ensures ids == [] ==> rest == coll
    decreases |coll|
  {
    if coll == [] then []
    else
      var n := |coll| - 1;
      var before := Without(coll[..n], ids);
      assert forall r :: r in coll <==> r in coll[..n] || r == coll[n];
      assert coll[..n] + [coll[n]] == coll;
      if coll[n].id in ids then before else before + [coll[n]]
  }

  /** `delete_document`: its result and the collection afterwards. */
  function Deletion(env: DocEnv, coll: seq<Record>, path: string): (out: (DeleteResult, seq<Record>))
    ensures !out.0.success ==> out.1 == coll && out.0.error.Some?
    ensures out.0.success ==>
      && env.fileHash(path).Ok? && env.getFailure.None?
      && out.0.deletedCount == Some(|IdsWithHash(coll, env.fileHash(path).value)|)
      && out.1 == Without(coll, IdsWithHash(coll, env.fileHash(path).value))
  {
    match env.fileHash(path)
    case Raise(e) => (DeleteFailed(path, e), coll)
    case Ok(h) =>
      if env.getFailure.Some? then (DeleteFailed(path, env.getFailure.value), coll)
      else
        var ids := IdsWithHash(coll, h);
        if ids == [] then (DeleteResult(true, "未找到相关文档", Some(0), None, None), coll)
        else if env.deleteFailure.Some? then (DeleteFailed(path, env.deleteFailure.value), coll)
        else (DeleteResult(true, "文档删除成功", Some(|ids|), Some(path), None), Without(coll, ids))
  }

  /** After a successful delete no record of the file is left, and every record
      of another file whose id was not the file's is kept. */
  lemma DeletionRemovesFile(env: DocEnv, coll: seq<Record>, path: string)
    requires Deletion(env, coll, path).0.success
    ensures forall r :: r in Deletion(env, coll, path).1 ==> !HasHash(r, env.fileHash(path).value)
    ensures forall r :: r in coll && r.id !in IdsWithHash(coll, env.fileHash(path).value) ==> r in Deletion(env, coll, path).1
  {
    var h := env.fileHash(path).value;
    var ids := IdsWithHash(coll, h);
    forall r | r in Deletion(env, coll, path).1
      ensures !HasHash(r, h)
    {
      assert r in coll && r.id !in ids;
      var i :| 0 <= i < |coll| && coll[i] == r;
    }
  }

  /** Nothing matches: the delete succeeds with count 0 and the collection is untouched. */
  lemma DeletionOfUnknownFile(env: DocEnv, coll: seq<Record>, path: string)
    requires env.fileHash(path).Ok? && env.getFailure.None?
    requires forall i :: 0 <= i < |coll| ==> !HasHash(coll[i], env.fileHash(path).value)
    ensures Deletion(env, coll, path) == (DeleteResult(true, "未找到相关文档", Some(0), None, None), coll)
  {
  }

  // ---------------------------------------------------------------- the processor

  class DocumentProcessor {
    const env: DocEnv
    /** The records of the vector collection. */
    var collection: seq<Record>

    constructor (env: DocEnv, collection: seq<Record>)
      ensures this.env == env && this.collection == collection
    {
      this.env, this.collection := env, collection;
    }

    /** `supported_formats.keys()`. */
    function SupportedFormatKeys(): (keys: seq<string>)
      ensures keys == SupportedFormats
    {
      SupportedFormats
    }

    /** `load_document`, tagging the loaded documents one at a time. */
    method LoadDocument(path: string) returns (r: Outcome<seq<Doc>>)
      ensures r == Loaded(env, collection, path)
    {
      if !env.pathExists(path) {
        return Raise(FileNotFoundError("文件不存在: " + path));
      }
      var ext := Lower(Suffix(path));
      if ext !in SupportedFormats {
        return Raise(ValueError("不支持的文件格式: " + ext));
      }
      if Processed(env, collection, path) {
        return Ok([]);
      }
      var documents := env.load(path);
      if documents.Raise? {
        return Raise(documents.exc);
      }
      var fileHash := env.fileHash(path);
      if fileHash.Raise? {
        return Raise(fileHash.exc);
      }
      var docs := documents.value;
      for i := 0 to |docs|
        invariant |docs| == |documents.value|
        invariant forall j :: 0 <= j < i ==> docs[j] == Tagged(env, path, fileHash.value, documents.value[j])
        invariant forall j :: i <= j < |docs| ==> docs[j] == documents.value[j]
      {
        docs := docs[i := Tagged(env, path, fileHash.value, docs[i])];
      }
      assert docs == seq(|documents.value|, i requires 0 <= i < |documents.value| => Tagged(env, path, fileHash.value, documents.value[i]));
      r := Ok(docs);
    }

    /** `split_documents`, labelling the chunks one at a time. */
    method SplitDocuments(docs: seq<Doc>) returns (r: Outcome<seq<Doc>>)
      ensures r == Split(env, docs)
    {
      var split := env.split(docs);
      if split.Raise? {
        return Raise(split.exc);
      }
      var chunks := split.value;
      for i := 0 to |chunks|
        invariant |chunks| == |split.value|
        invariant forall j :: 0 <= j < i ==> "file_hash" in split.value[j].metadata
        invariant forall j :: 0 <= j < i ==> chunks[j] == Labelled(env, split.value[j], j)
        invariant forall j :: i <= j < |chunks| ==> chunks[j] == split.value[j]
      {
        if "file_hash" !in chunks[i].metadata {
          return Raise(KeyError("'file_hash'"));
        }
        chunks := chunks[i := Labelled(env, chunks[i], i)];
      }
      assert chunks == seq(|split.value|, i requires 0 <= i < |split.value| => Labelled(env, split.value[i], i));
      r := Ok(chunks);
    }

    /** `store_documents`. */
    method StoreDocuments(docs: seq<Doc>) returns (r: Outcome<StoreResult>)
      modifies this
      ensures (r, collection) == Stored(env, old(collection), docs)
    {
      if docs == [] {
        return Ok(StoreResult(0, 0, None));
      }
      if !AllIdentified(docs) {
        return Raise(KeyError("'chunk_id'"));
      }
      var texts := seq(|docs|, i requires 0 <= i < |docs| => docs[i].pageContent);
      var embeddings := env.embed(texts);
      if embeddings.Raise? {
        return Raise(embeddings.exc);
      }
      if env.addFailure.Some? {
        return Raise(env.addFailure.value);
      }
      collection := collection + Records(docs);
      r := Ok(StoreResult(|docs|, 0, Some(env.collectionName)));
    }

    /** `process_file`. */
    method ProcessFile(path: string) returns (r: FileResult)
      modifies this
      ensures (r, collection) == FileStep(env, old(collection), path)
    {
      var documents := LoadDocument(path);
      if documents.Raise? {
        return FileFailed(path, documents.exc);
      }
      if documents.value == [] {
        return FileResult(true, SkippedMessage, path, None, None, Some(0), None, None, None);
      }
      var chunks := SplitDocuments(documents.value);
      if chunks.Raise? {
        return FileFailed(path, chunks.exc);
      }
      var storeResult := StoreDocuments(chunks.value);
      if storeResult.Raise? {
        return FileFailed(path, storeResult.exc);
      }
      var sr := storeResult.value;
      r := FileResult(true, "文件处理完成", path, Some(|documents.value|), Some(|chunks.value|),
                      Some(sr.storedCount), Some(sr.skippedCount), sr.collectionName, None);
    }

    /** The files under `dir` with a table suffix, one glob per suffix. */
    method FindFiles(dir: string) returns (files: seq<string>)
      ensures files == Globbed(env, dir, SupportedFormats)
    {
      files := [];
      for e := 0 to |SupportedFormats|
        invariant files == Globbed(env, dir, SupportedFormats[..e])
      {
        assert SupportedFormats[..e + 1][..e] == SupportedFormats[..e];
        files := files + env.glob(dir, "**/*" + SupportedFormats[e]);
      }
      assert SupportedFormats[..|SupportedFormats|] == SupportedFormats;
    }

    /** `process_directory`: counters and result lists updated file by file. */
    method ProcessDirectory(dir: string) returns (r: Outcome<DirResult>)
      modifies this
      ensures (r, collection) == Directory(env, old(collection), dir)
    {
      if !env.pathExists(dir) {
        return Raise(FileNotFoundError("目录不存在: " + dir));
      }
      var files := FindFiles(dir);
      var results := DirResult(0, 0, |files|, 0, [], []);
      for i := 0 to |files|
        invariant (results, collection) == Tally(env, old(collection), files[..i], |files|)
      {
        TallyStep(env, old(collection), files, |files|, i);
        var fileResult := ProcessFile(files[i]);
        results := Count(results, fileResult);
      }
      assert files[..|files|] == files;
      r := Ok(results);
    }

    /** `get_collection_stats`. */
    function GetCollectionStats(): (s: Stats)
      reads this
      ensures s == CollectionStats(env, collection)
    {
      CollectionStats(env, collection)
    }

    /** `delete_document`. */
    method DeleteDocument(path: string) returns (r: DeleteResult)
      modifies this
      ensures (r, collection) == Deletion(env, old(collection), path)
    {
      var fileHash := env.fileHash(path);
      if fileHash.Raise? {
        return DeleteFailed(path, fileHash.exc);
      }
      if env.getFailure.Some? {
        return DeleteFailed(path, env.getFailure.value);
      }
      var ids := IdsWithHash(collection, fileHash.value);
      if ids == [] {
        return DeleteResult(true, "未找到相关文档", Some(0), None, None);
      }
      if env.deleteFailure.Some? {
        return DeleteFailed(path, env.deleteFailure.value);
      }
      collection := Without(collection, ids);
      r := DeleteResult(true, "文档删除成功", Some(|ids|), Some(path), None);
    }
  }
}
