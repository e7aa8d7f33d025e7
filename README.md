# trae-RAG question-answering core in Dafny

This project models the core of trae-RAG, a retrieval-augmented question-answering service. Documents are split into chunks and stored in a Chroma vector index. A question is embedded, the nearest chunks are retrieved and filtered by similarity, and a prompt built from them is sent to an Ollama language model. Answers are cached in Redis. A FastAPI layer puts request validation, routes and middleware around this pipeline.

The modules follow the repository's files:

| module | file | models |
|---|---|---|
| `Common` | `common.dfy` | Python built-ins the core relies on: `x or default`, `str.strip` (over the characters `str.isspace` accepts), ASCII `str.lower`, `Path.suffix`, `int` to text, slicing |
| `Config` | `config.dfy` | `Settings` as a class over an attribute map with the defaults of `settings.py`; `validate_settings`, `update_settings`, `get_settings` |
| `Metrics` | `metrics.dfy` | `MetricsCollector` as a class whose counters are fields; cache hit/miss state machine, hit rate, request counters, and the name dispatch of `metrics_middleware` |
| `QA` | `qa.dfy` | `QAProcessor`: cache key, cache read and write, `retrieve_documents`, `generate_answer`, `process_question`, `batch_process_questions` |
| `Documents` | `documents.dfy` | `DocumentProcessor`: `load_document`, the metadata loop of `split_documents`, `store_documents`, `process_file`, `process_directory`, `get_collection_stats`, `delete_document` |
| `Engine` | `engine.dfy` | `RAGEngine`: initialisation, the initialised-state guard, error conversion, metric recording and `health_check` |
| `ApiModels` | `api_models.dfy` | the pydantic request models and their validators |
| `QARoutes` | `qa_routes.dfy` | `/ask`, `/batch-ask`, suggestions, feedback, response shaping |
| `DocumentRoutes` | `document_routes.dfy` | file-type check, upload, batch upload, `/process`, document listing |
| `SystemRoutes` | `system_routes.dfy` | `/health` formatting, the config update, `/initialize` |
| `Middleware` | `middleware.dfy` | security, metrics, error-handling and logging middleware, and the order they run in |

The embedder, the Chroma index, the Ollama call, Redis, the filesystem, the clock and `uuid` are external. Each is a parameter: a function field of an environment datatype (`QA.Env`, `Documents.DocEnv`), a plain value (an elapsed time, a timestamp, a request id), or an `Outcome` that says whether the call raised. An exception is `Outcome.Raise` with a `Common.Exc` value. `Exc.Text()` is `str(e)`. Python dictionaries that the code reads with `.get` are datatypes with `Option` fields, `None` meaning the key is absent. Similarity scores, averages and rates are `real`. The vector collection is a sequence of records, and the answer cache is a `map<string, QAResult>` field of `QAProcessor`, so "nothing was written" is `cache == old(cache)`.

Where the source changes state step by step, the model is imperative. `QAProcessor`, `DocumentProcessor`, `RAGEngine`, `MetricsCollector`, `Settings` and the upload store are classes whose methods change their fields under `modifies`. The loops of the source are `for` and `while` loops with invariants. Each such method is proved equal to a specification function, such as `QA.Process`, `Documents.Tally` or `DocumentRoutes.BatchUpload`. The properties the source promises are lemmas about those functions.

Facts about the code as written that the model keeps:
- `_generate_cache_key` uses the caller's `k` but the configured threshold, so two questions that differ only in threshold share a cache entry.
- Both `k` and the threshold go through `x or default`, so `0` and `0.0` mean "use the configured value".
- Ranks are positions in the unfiltered index answer and are not renumbered after filtering.
- A cached empty dictionary counts as a miss. Only successful results are ever written to the cache.
- `validate_file_type` compares a suffix that includes its dot (".pdf") with a format list that, by default, has no dots ("pdf"). With the default settings no file name is accepted by an upload, and every listing is empty (`DocumentRoutes.NoNameAcceptedByDefault`, `DocumentRoutes.NothingListedByDefault`).
- `metrics_middleware` picks the metric from the decorated function's name. Of the two decorated engine methods, only `process_document` matches. `process_directory` and `answer_question` record nothing through it (`Metrics.DecoratedEngineMethods`).
- Starlette's `add_middleware` puts each new middleware outside the ones added before it. So the order from the outside in is CORS, request logging, metrics, security, error handling, then the router. The comments in `setup_middleware` suggest the opposite. As a result, the error-handling middleware answers every non-HTTP exception before the metrics middleware sees it. The metrics middleware's "error" label therefore never occurs, and neither does the logging middleware's fallback (`Middleware.InnerNeverRaises`).
- `update_system_config` answers with the merged configuration but writes nothing back to the settings object.
- `upload_document` builds its success response with `upload_time=None`, which the required `datetime` field refuses. A single upload that was written is therefore answered HTTP 500, and the file stays saved (`DocumentRoutes.WrittenUploadRefused`). The batch upload builds no such response, and its entries succeed.
- `DocumentProcessRequest`'s validator runs per field and sees only the fields before it, so every body that supplies a path is refused with HTTP 422, and a body without one reaches `/process` only to be answered 400 (`DocumentRoutes.NoPathReachesProcess`).

## Model

| member | source | states |
|---|---|---|
| `Common.OrInt` | src/core/qa_processor.py:209 | `k or default`: a missing or zero `k` is replaced by the default, any other value is kept |
| `Common.OrReal` | src/core/qa_processor.py:210 | `threshold or default`: a missing or `0.0` threshold is replaced by the default, any other value is kept |
| `Common.Strip` | src/api/models.py:115-119 | `str.strip()`, whitespace being the characters `str.isspace` accepts (the ASCII controls U+0009–U+000D and U+001C–U+001F, the space, U+0085, U+00A0 and the Unicode spaces and separators): the result is the slice of the input that starts after its leading whitespace, and everything after the slice is whitespace; it is empty exactly when the input is all whitespace, and otherwise starts and ends with a non-space character |
| `Common.LeadingSpace` | src/api/models.py:115-119 | the leading whitespace of a text: every character before the count is whitespace, and the one at the count is not |
| `Common.Lower` | src/api/routes/documents.py:57 | `str.lower()` on ASCII letters: same length, each character lowered on its own |
| `Common.Suffix` | src/api/routes/documents.py:57 | `Path(name).suffix`: either empty or a dot followed by at least one character |
| `Common.SliceTo` | src/api/routes/qa.py:341 | `s[:n]`: a prefix of `s`, of length `n` when `0 <= n <= len(s)`, all of `s` when `n` is larger |
| `Config.Defaults` | src/config/settings.py:18-78 | the default attribute values of `Settings` |
| `Config.DefaultNumbers` | src/config/settings.py:58-63 | the defaults `retrieval_k` 5, `similarity_threshold` 0.7, `max_tokens` 2000 and `temperature` 0.7 |
| `Config.DefaultSizes` | src/config/settings.py:49-55 | the defaults `chunk_size` 1000, `chunk_overlap` 200 and `max_file_size` 50 MiB |
| `Config.DefaultTexts` | src/config/settings.py:50-53 | the default `supported_formats` is `["pdf","txt","md","docx"]` with no dots; `api_key` defaults to None |
| `Config.DefaultTuning` | src/config/settings.py:18-78 | the tuning values the processors read from the default settings |
| `Config.TuningOf` | src/config/settings.py:18-78 | the tuning record read from an attribute map agrees with the map's `retrieval_k`, `similarity_threshold` and `api_key` |
| `Config.NumberOf` | src/config/settings.py:134-141 | the comparison value Python uses for a setting: ints and floats as themselves, booleans as 0/1, and nothing for text, lists and None |
| `Config.ValidateSettings` | src/config/settings.py:114-147 | a true answer means the three hosts are set and `port`, `chunk_size` and `similarity_threshold` are in range |
| `Config.ValidWhenAllChecksPass` | src/config/settings.py:114-147 | the converse: when every check passes, `validate_settings` answers True |
| `Config.DefaultsValidate` | src/config/settings.py:114-147 | the default settings validate |
| `Config.DefaultHostsSet` | src/config/settings.py:123-131 | the three required hosts are set by default |
| `Config.DefaultRetrievalInRange` | src/config/settings.py:137-141 | the default `chunk_size` and threshold pass their checks |
| `Config.EmptyHostFails` | src/config/settings.py:123-131 | an empty `chroma_host` fails validation whatever else is set |
| `Config.TextPortFails` | src/config/settings.py:134-135 | a port given as text fails validation: the comparison raises, and the exception is reported as invalid |
| `Config.Applied` | src/config/settings.py:101-111 | `update_settings`' effect: the same attribute names, a known key takes its new value, every other attribute is unchanged, unknown keys are ignored |
| `Config.AppliedIdempotent` | src/config/settings.py:101-111 | applying the same keyword arguments twice is the same as applying them once |
| `Config.AppliedStep` | src/config/settings.py:109-111 | one more keyword argument sets that attribute when it exists and otherwise changes nothing |
| `Config.KwargsMapStep` | src/config/settings.py:101-109 | `**kwargs` with distinct names is a map, built one name at a time |
| `Config.AppliedUpdate` | src/config/settings.py:109-111 | a key added to the keyword arguments reaches the result exactly when it is an attribute |
| `Config.KwargsMap` | src/config/settings.py:101-109 | the map of `**kwargs`: exactly their names, each with its value |
| `Config.Settings.constructor` | src/config/settings.py:11-85 | a new `Settings` holds, for each field, the process environment's value, else the `.env` file's, else the default |
| `Config.SourcePrecedence` | src/config/settings.py:80-85 | the process environment wins over the `.env` file, which wins over the defaults; no source adds a field |
| `Config.Settings.UpdateSettings` | src/config/settings.py:101-111 | the `setattr` loop: the new attributes are `Applied(old, kwargs)`; a name that cannot be set on the instance stops the loop with ValueError, and the earlier names stay applied |
| `Config.Settings.Assign` | src/config/settings.py:110-111 | a name among the attributes takes the new value; any other name leaves them unchanged |
| `Config.Registry.constructor` | src/config/settings.py:88 | the module-level instance is created once, from the defaults, the `.env` file and the environment |
| `Config.Registry.GetSettings` | src/config/settings.py:91-98 | `get_settings` always returns that same instance |
| `Metrics.HitRate` | src/utils/metrics.py:241-245 | the hit rate is hits/(hits+misses), or 0 when there were none, and lies in [0,1] |
| `Metrics.CountersAfter` | src/utils/metrics.py:235-239 | only a "get" whose `is_hit` is given moves a counter: hits on a hit, misses on a miss |
| `Metrics.CountedLookupMovesOneCounter` | src/utils/metrics.py:235-239 | a counted lookup raises exactly one of the two counters by one |
| `Metrics.Bump` | src/utils/metrics.py:193 | a labelled counter `inc(n)`: the label gains `n`, every other label is unchanged |
| `Metrics.ObserveRetrieval` | src/utils/metrics.py:213-214 | the retrieved-document count is observed only when it is positive |
| `Metrics.KindForName` | src/utils/metrics.py:333-337 | the decorator records QA metrics exactly for names containing "process_question", otherwise document metrics only for names containing "process_file" or "process_document", otherwise nothing |
| `Metrics.StatusOf` | src/utils/metrics.py:322-329 | the decorator's status is "error" exactly when the call raised |
| `Metrics.DecoratedEngineMethods` | src/core/rag_engine.py:77-78 | of the decorated engine methods, `process_document` records document metrics and `process_directory` and `answer_question` record nothing |
| `Metrics.DocumentMethodMatches` | src/utils/metrics.py:336 | the name "process_document" selects document metrics |
| `Metrics.DirectoryMethodUnmatched` | src/utils/metrics.py:334-337 | the name "process_directory" selects nothing |
| `Metrics.AnswerMethodUnmatched` | src/utils/metrics.py:334-337 | the name "answer_question" selects nothing |
| `Metrics.MetricsCollector.constructor` | src/utils/metrics.py:146-150 | a new collector has zero hits and misses and empty counters |
| `Metrics.MetricsCollector.SummaryHitRate` | src/utils/metrics.py:302 | the summary's hit rate is `HitRate` of the counters and lies in [0,1] |
| `Metrics.MetricsCollector.RecordCacheOperation` | src/utils/metrics.py:216-245 | the operation counter for (operation, status) rises by one, the hit/miss counters follow `CountersAfter`, and nothing else changes |
| `Metrics.MetricsCollector.RecordQAProcessing` | src/utils/metrics.py:196-214 | the status counter rises by one, the duration is observed, the document count only when positive, and nothing else changes |
| `Metrics.MetricsCollector.RecordDocumentProcessing` | src/utils/metrics.py:179-194 | the status counter rises by `count`, the duration is observed, and nothing else changes |
| `Metrics.MetricsCollector.RecordVectorDbOperation` | src/utils/metrics.py:247-262 | the (operation, status) counter rises by one and nothing else changes |
| `Metrics.MetricsCollector.UpdateVectorDbDocuments` | src/utils/metrics.py:264-271 | the document gauge is set to `count` and nothing else changes |
| `Metrics.MetricsCollector.RecordRequest` | src/utils/metrics.py:152-177 | the (endpoint, method, status) counter rises by one, the duration is observed under (endpoint, method), and nothing else changes |
| `Metrics.MetricsCollector.Instrument` | src/utils/metrics.py:314-337 | the decorated call's outcome is passed through unchanged (an exception is re-raised), exactly the metric `KindForName` selects records the status and duration, and a name it does not select leaves every reading as it was |
| `QA.CacheKey` | src/core/qa_processor.py:117-131 | every cache key starts with "qa:" |
| `QA.CacheKeyDefaultsK` | src/core/qa_processor.py:128-130 | a missing or zero `k` gives the same key as the configured `k`, and the caller's threshold takes no part in the key |
| `QA.CacheKeyContentInjective` | src/core/qa_processor.py:128-130 | equal digested texts mean the same question and the same effective `k`, so only a digest collision can make two such requests share an entry |
| `QA.Min3` | src/core/qa_processor.py:230-234 | the length `zip` stops at: the least of the three list lengths |
| `QA.FirstHits` | src/core/qa_processor.py:229-234 | an empty first document list gives no hits; a missing metadata or distance list raises; otherwise hit `i` is the `i`-th entry of the three lists, up to the shortest |
| `QA.Kept` | src/core/qa_processor.py:229-245 | every kept document is hit `rank - 1` with score `1 - distance`, reaches the threshold, has a rank in 1..n, and there are at most n of them |
| `QA.KeptRanksIncrease` | src/core/qa_processor.py:230-245 | ranks strictly increase, so survivors keep the index order |
| `QA.KeptComplete` | src/core/qa_processor.py:236-245 | a hit is kept, under its unfiltered rank, exactly when its similarity reaches the threshold |
| `QA.KeptEmpty` | src/core/qa_processor.py:228-229 | an empty index answer gives no documents |
| `QA.Retrieval` | src/core/qa_processor.py:192-252 | an embedding failure is re-raised; every returned document reaches the effective threshold |
| `QA.RetrievalFiltersIndexAnswer` | src/core/qa_processor.py:209-245 | when the oracles answer, retrieval is the filter of the index answer for the effective `k` under the effective threshold, and a threshold of `0.0` behaves as none |
| `QA.ContextParts` | src/core/qa_processor.py:271-276 | one context block per document, in input order, block `i` built from document `i` |
| `QA.ContextPartLabel` | src/core/qa_processor.py:272-274 | block `i` opens with "文档片段" followed by `i + 1` and a space |
| `QA.DelimitedNumbersDiffer` | src/core/qa_processor.py:272-274 | two texts that hold different digit strings at the same offset, each followed by a space, differ |
| `QA.ContextLabelsDistinct` | src/core/qa_processor.py:271-276 | blocks at different positions are different texts |
| `QA.LabelDigitsAt` | src/core/qa_processor.py:272-276 | block `i` holds the decimal digits of `i + 1` right after its label, followed by a space |
| `QA.GetOr` | src/core/qa_processor.py:309 | `d.get(key, default)`: the default when the key is absent, the value otherwise |
| `QA.Tokens` | src/core/qa_processor.py:315-319 | missing counters read as 0, and `total_tokens` is `prompt_tokens + completion_tokens` |
| `QA.Generation` | src/core/qa_processor.py:254-327 | a failed language-model call is re-raised; otherwise the answer is the stripped response, the context documents are passed through, the model is the configured one and the tokens follow `Tokens` |
| `QA.SumScoresAtLeast` | src/core/qa_processor.py:391 | scores that all reach a bound sum to at least `n` times the bound |
| `QA.OneMoreAtLeast` | src/core/qa_processor.py:391 | the step of that sum: one more score at least the bound keeps the sum at least the bound times the count |
| `QA.Mean` | src/core/qa_processor.py:391 | `avg_similarity` times the count is the sum of the scores |
| `QA.MeanAtLeastThreshold` | src/core/qa_processor.py:383-392 | documents that all reach the threshold have a mean that reaches it too |
| `QA.ErrorResult` | src/core/qa_processor.py:403-414 | the exception result: not successful, not from the cache, with the question, the error text and the "问答处理失败: " message |
| `QA.NoDocsResult` | src/core/qa_processor.py:367-377 | the no-documents result: not successful, not from the cache, with the question, no context documents and no error |
| `QA.SuccessResult` | src/core/qa_processor.py:383-394 | the successful result: success, not from the cache, no error, retrieval statistics of the documents, and the answer data merged in |
| `QA.CachedAnswer` | src/core/qa_processor.py:133-153 | the cache read returns the stored entry exactly when there is a client, the key is present and the read does not fail |
| `QA.StoreAnswer` | src/core/qa_processor.py:155-173 | the cache write stores the entry under the key when there is a client and the write succeeds; otherwise the cache is unchanged |
| `QA.Answer` | src/core/qa_processor.py:361-414 | a fresh result is never from the cache and always has a success flag; it is successful only through non-empty retrieval and a generated answer, and then it is `SuccessResult` |
| `QA.Process` | src/core/qa_processor.py:329-414 | the cache afterwards is either unchanged or has this result under this question's key, and it changes only when caching was asked for and the result is successful |
| `QA.ProcessCacheHit` | src/core/qa_processor.py:352-359 | a readable non-empty entry is returned with `from_cache` set, the cache is untouched, and the result does not depend on the embedder, the index or the language model |
| `QA.EmptyEntryIsMiss` | src/core/qa_processor.py:355 | a cached empty dictionary is treated as a miss |
| `QA.ProcessFailure` | src/core/qa_processor.py:403-414 | without a usable cache entry, a failure of retrieval or generation gives an unsuccessful result with an error and leaves the cache alone |
| `QA.ProcessNoDocuments` | src/core/qa_processor.py:367-377 | without a usable cache entry, nothing clearing the threshold gives the no-documents result and leaves the cache alone |
| `QA.SuccessStats` | src/core/qa_processor.py:388-392 | the success statistics' average is the mean score and reaches the effective threshold |
| `QA.AnswerIsSuccessResult` | src/core/qa_processor.py:380-394 | successful retrieval and generation make the fresh result `SuccessResult` |
| `QA.AnswerSuccess` | src/core/qa_processor.py:383-394 | that result is successful, carries the retrieved documents, `retrieved_count = len(documents)` and an average at least the threshold |
| `QA.ProcessSuccess` | src/core/qa_processor.py:380-401 | without a usable cache entry a successful fresh result is returned, and the cache receives it exactly when caching is asked for, there is a client and the write succeeds |
| `QA.ProcessKeepsOnlySuccesses` | src/core/qa_processor.py:396-398 | a cache holding only successful results keeps that property |
| `QA.Batch` | src/core/qa_processor.py:416-460 | the batch gives exactly one result per question |
| `QA.BatchStep` | src/core/qa_processor.py:435-438 | one more question extends the batch by its own answer, given the cache the earlier questions left |
| `QA.BatchPositions` | src/core/qa_processor.py:435-453 | result `i` is the answer to question `i`, in the same position |
| `QA.BatchPrefix` | src/core/qa_processor.py:435-453 | the answers to the first `j` questions are the first `j` answers of the batch |
| `QA.BatchKeepsOnlySuccesses` | src/core/qa_processor.py:435-440 | a batch also writes only successful results |
| `QA.FailedSlot` | src/core/qa_processor.py:445-451 | a slot whose task raised: not successful, with that question and the error text |
| `QA.QAProcessor.constructor` | src/core/qa_processor.py:32-69 | the processor holds its environment, its tuning, whether it has a cache client, and the cache |
| `QA.QAProcessor.RetrieveDocuments` | src/core/qa_processor.py:192-252 | the filtering loop computes `Retrieval` |
| `QA.QAProcessor.GenerateAnswer` | src/core/qa_processor.py:254-327 | the context-building loop computes `Generation` |
| `QA.QAProcessor.ProcessQuestion` | src/core/qa_processor.py:329-414 | the result and the new cache are those of `Process` on the old cache |
| `QA.QAProcessor.CollectResults` | src/core/qa_processor.py:443-453 | one entry per question: a returned result as is, a raised task as `FailedSlot` with that position's question |
| `QA.QAProcessor.BatchProcessQuestions` | src/core/qa_processor.py:416-460 | the results and the new cache are those of `Batch` on the old cache |
| `QA.QAProcessor.RunTasks` | src/core/qa_processor.py:435-440 | the tasks, awaited in order, each give their `Batch` result, and none raises |
| `Documents.IdsWithHash` | src/core/document_processor.py:433-435 | the ids of the collection's records with a file digest, each one from such a record, all of them, and none when no record has it |
| `Documents.Loaded` | src/core/document_processor.py:149-199 | a missing file raises FileNotFoundError first, then an unsupported lowercased suffix raises ValueError, then an already-processed file gives `[]` |
| `Documents.LoadedTagsEveryDocument` | src/core/document_processor.py:184-192 | every loaded document keeps its text and carries the file's path, name and digest |
| `Documents.UnsupportedBeforeProcessed` | src/core/document_processor.py:163-173 | the format check comes before the already-processed check |
| `Documents.LoadableSuffixes` | src/core/document_processor.py:61-66 | only ".pdf", ".txt", ".md" and ".docx", in any letter case, are loaded |
| `Documents.Labelled` | src/core/document_processor.py:215-218 | chunk `i` keeps its text, gets `chunk_id = file_hash + "_" + i`, `chunk_index = i` and `chunk_size = len(page_content)`, and keeps its other metadata |
| `Documents.Split` | src/core/document_processor.py:201-225 | a splitter failure is re-raised; a chunk without a digest raises KeyError; otherwise chunk `i` of the whole list is labelled with `i` |
| `Documents.ChunkIdsDistinct` | src/core/document_processor.py:215-218 | two chunks of one split never share an id |
| `Documents.Records` | src/core/document_processor.py:264-266 | the records passed to the index: ids, texts and metadata in chunk order |
| `Documents.Stored` | src/core/document_processor.py:249-297 | storing `[]` gives 0/0 and touches nothing; a failure leaves the collection as it was; otherwise `stored_count = len(documents)` and exactly those records are appended |
| `Documents.StoredSplitIdsDistinct` | src/core/document_processor.py:215-290 | storing a split adds records whose ids are pairwise distinct |
| `Documents.FileFailed` | src/core/document_processor.py:340-348 | the exception result of `process_file`: unsuccessful, with the error text and the path |
| `Documents.FileStep` | src/core/document_processor.py:299-348 | the result names its file; an unsuccessful result carries an error and leaves the collection unchanged |
| `Documents.ProcessedFileSkipped` | src/core/document_processor.py:313-320 | an already-processed file succeeds with the skip message and 0 stored, and the collection is unchanged |
| `Documents.ProcessedFileCounts` | src/core/document_processor.py:322-338 | a file that produced chunks reports `chunks_created = len(chunks)` and appends exactly that many records |
| `Documents.Tally` | src/core/document_processor.py:363-392 | the counters keep `success_count + error_count = len(files)`, and `total_chunks` is the sum over the successes |
| `Documents.TallyStep` | src/core/document_processor.py:383-392 | one more file adds its result to the side its flag says, given the collection the earlier files left |
| `Documents.Directory` | src/core/document_processor.py:350-399 | a missing directory raises FileNotFoundError; otherwise the counters are consistent and `total_files` is the number of globbed files |
| `Documents.TallyPartition` | src/core/document_processor.py:383-392 | `processed_files` and `errors` are empty exactly when there are no files, and every entry belongs to one of the files |
| `Documents.CollectionStats` | src/core/document_processor.py:401-417 | a failing count is reported as an error entry, never raised; otherwise `total_documents` is the collection's size |
| `Documents.Without` | src/core/document_processor.py:445 | deleting ids removes exactly the records with those ids and keeps the rest |
| `Documents.Deletion` | src/core/document_processor.py:419-464 | a failure leaves the collection unchanged with an error; a success deletes exactly the file's records and counts them |
| `Documents.DeletionRemovesFile` | src/core/document_processor.py:433-452 | after a successful delete no record of the file remains, and every other record stays |
| `Documents.DeletionOfUnknownFile` | src/core/document_processor.py:437-442 | no matching record: success with count 0 and the collection untouched |
| `Documents.DocumentProcessor.constructor` | src/core/document_processor.py:40-68 | the processor holds its environment and collection |
| `Documents.DocumentProcessor.SupportedFormatKeys` | src/core/document_processor.py:61-66 | the keys of the format table |
| `Documents.DocumentProcessor.LoadDocument` | src/core/document_processor.py:149-199 | the tagging loop computes `Loaded` |
| `Documents.DocumentProcessor.SplitDocuments` | src/core/document_processor.py:201-225 | the labelling loop computes `Split` |
| `Documents.DocumentProcessor.StoreDocuments` | src/core/document_processor.py:249-297 | the result and the new collection are those of `Stored` |
| `Documents.DocumentProcessor.ProcessFile` | src/core/document_processor.py:299-348 | the result and the new collection are those of `FileStep` |
| `Documents.DocumentProcessor.FindFiles` | src/core/document_processor.py:374-377 | one recursive glob per table suffix, concatenated |
| `Documents.DocumentProcessor.ProcessDirectory` | src/core/document_processor.py:350-399 | the counter loop computes `Directory` |
| `Documents.DocumentProcessor.GetCollectionStats` | src/core/document_processor.py:401-417 | the statistics are `CollectionStats` of the current collection |
| `Documents.DocumentProcessor.DeleteDocument` | src/core/document_processor.py:419-464 | the result and the new collection are those of `Deletion` |
| `Engine.StatusOfResult` | src/core/rag_engine.py:206-219 | a result is recorded as "success" exactly when its success flag is truthy, otherwise as "error" |
| `Engine.BatchDurations` | src/core/rag_engine.py:259-267 | one observed duration per batch result, in order |
| `Engine.CountStatusesTotal` | src/core/rag_engine.py:259-267 | every batch result is counted once, as a success or as an error, and no other label changes |
| `Engine.ObserveAllPositive` | src/core/rag_engine.py:259-267 | the batch adds at most one observation per result, all positive, after the earlier ones |
| `Engine.HealthOf` | src/core/rag_engine.py:367-450 | the report as written: "unhealthy" exactly when not initialised or a probe raised; only the initialization component when not initialised; four components otherwise; no cache client is "disabled" and a failing ping marks the cache "unhealthy" |
| `Engine.HealthAsWrittenIgnoresBackendFailures` | src/core/rag_engine.py:392-422 | a failing index count and a failed test question still give "healthy", because neither probe raises |
| `Engine.CorrectedHealthOf` | src/core/rag_engine.py:392-422 | the evidently intended report: "unhealthy" exactly when not initialised, the statistics carry an error, or the test question failed |
| `Engine.RAGEngine.constructor` | src/core/rag_engine.py:28-36 | a new engine is not initialised and has no processors |
| `Engine.RAGEngine.Initialize` | src/core/rag_engine.py:38-65 | a cache failure is swallowed; a processor whose construction raises is re-raised and leaves the engine uninitialised; otherwise both fresh processors are set, the question processor sees what the Redis server already holds, and then `initialized` |
| `Engine.RAGEngine.AnswerQuestion` | src/core/rag_engine.py:173-231 | raises when not initialised and then records nothing and leaves the processor unchanged; otherwise forwards its arguments unchanged to `Process`, and the collector's readings become exactly `Answered` of the result |
| `Engine.RAGEngine.RecordAnswer` | src/core/rag_engine.py:205-219 | the collector's readings become exactly `Answered` of the result, and the gauge keeps following the counters |
| `Engine.Answered` | src/core/rag_engine.py:205-219 | what recording an answer does to the collector: a success counts "success" with its document count and one `("get", "success")` lookup, hit exactly when it came from the cache, the gauge following the counters; a failure counts "error" only; every other reading is kept |
| `Engine.CountLookup` | src/utils/metrics.py:230-233 | one more answered lookup raises its own label pair by one and keeps every other pair |
| `Engine.RAGEngine.BatchAnswerQuestions` | src/core/rag_engine.py:233-278 | raises when not initialised and then records nothing and leaves the processor unchanged; otherwise returns `Batch`, and the collector gains `CountStatuses`, `BatchDurations` and `ObserveAll` of the results with every other reading kept |
| `Engine.RAGEngine.RecordBatch` | src/core/rag_engine.py:259-267 | the recording loop adds `CountStatuses`, `BatchDurations` and `ObserveAll` of the results and changes no other reading of the collector |
| `Engine.RAGEngine.RecordResult` | src/core/rag_engine.py:259-267 | one result adds its status, its duration and its document count, and changes no other reading of the collector |
| `Engine.CountStep` | src/core/rag_engine.py:259-267 | one more result adds one to the count of its own status |
| `Engine.DurationsStep` | src/core/rag_engine.py:259-267 | one more result appends its own duration |
| `Engine.ObserveStep` | src/core/rag_engine.py:259-267 | one more result adds its document count, when it succeeded |
| `Engine.RAGEngine.ProcessDocument` | src/core/rag_engine.py:77-124 | raises when not initialised, leaving the processor unchanged, and the decorator counts an error with its duration; otherwise returns `FileStep`, and the readings are `DocumentDecorated(Processed(...))`: its chunk count or one error with a zero duration, the gauge set to the collection size after a success when the collection can be counted, and the decorator's success and duration; no other reading changes |
| `Engine.RAGEngine.RecordProcessed` | src/core/rag_engine.py:99-112 | a success counts its chunks, a failure one error, each with a zero duration; after a success the gauge holds the collection size when it can be counted; no other reading changes |
| `Engine.Processed` | src/core/rag_engine.py:99-112 | what recording a processed file or directory does to the collector: a success counts its chunks and, when the collection can be counted, sets the gauge to its size; a failure counts one error; a zero duration is observed; every other reading is kept |
| `Engine.DocumentDecorated` | src/utils/metrics.py:314-337 | what the decorator of `process_document` adds: one count under the call's status and its duration, every other reading kept |
| `Engine.CountedSize` | src/core/rag_engine.py:104-107 | the collection size the statistics report, present exactly when counting the collection succeeds |
| `Engine.RAGEngine.ProcessDirectory` | src/core/rag_engine.py:126-170 | raises when not initialised and then records nothing and leaves the processor unchanged; otherwise returns the tally, or the failure entry for its exception, and the readings are `Processed` of it: the total chunks or one error with a zero duration, the gauge set after a success when the collection can be counted, and no other reading changed |
| `Engine.RAGEngine.DeleteDocument` | src/core/rag_engine.py:280-317 | raises when not initialised and then records nothing; otherwise returns `Deletion`, counts one delete operation with its status, sets the gauge after a success when the collection can be counted, and changes no other reading |
| `Engine.RAGEngine.GetSystemStats` | src/core/rag_engine.py:319-355 | raises when not initialised; otherwise reports the collection statistics and the cache hit rate |
| `Engine.RAGEngine.GetSupportedFormats` | src/core/rag_engine.py:357-365 | raises when not initialised; otherwise exactly the keys of the processor's format table |
| `Engine.RAGEngine.HealthCheck` | src/core/rag_engine.py:367-450 | the report is `HealthOf` of the actual probes; an initialised engine is reported "healthy", and the test question leaves the cache unchanged |
| `ApiModels.FieldError` | src/api/models.py:102-119 | a field is listed as invalid exactly when its check fails |
| `ApiModels.StripOfStripped` | src/api/models.py:115-119 | stripping is idempotent |
| `ApiModels.NewQuestionRequest` | src/api/models.py:102-119 | valid exactly when the question is 1..1000 characters and not blank, `k` is in [1,20] and the threshold in [0,1]; the stored question is stripped; `use_cache` defaults to True; each failing field is named |
| `ApiModels.QuestionRequestStable` | src/api/models.py:115-119 | validating an accepted request again gives the same request |
| `ApiModels.Stripped` | src/api/models.py:175-180 | every question stripped, same length and order |
| `ApiModels.CleanQuestions` | src/api/models.py:170-181 | accepts exactly a non-empty list with no blank question, and yields the stripped list |
| `ApiModels.ValidateQuestions` | src/api/models.py:170-181 | the appending loop computes `CleanQuestions` |
| `ApiModels.StrippedStep` | src/api/models.py:176-180 | one more question extends the cleaned list by its own stripped text |
| `ApiModels.NoBlankStep` | src/api/models.py:176-180 | one more non-blank question keeps the checked prefix free of blank questions |
| `ApiModels.SizeErrorsNamed` | src/api/models.py:257-264 | the chunk size, chunk overlap and retrieval-k errors list exactly those of the three fields outside their bounds, and no other field |
| `ApiModels.ModelErrorsNamed` | src/api/models.py:257-264 | the threshold, max-tokens and temperature errors list exactly those of the three fields outside their bounds, and no other field |
| `ApiModels.NewBatchQuestionRequest` | src/api/models.py:157-181 | valid exactly when there are 1..10 questions, none blank, and `k` and the threshold are in range; the questions are stripped, in order |
| `ApiModels.NewConfigUpdateRequest` | src/api/models.py:257-264 | valid exactly when every given field is within its bounds; a valid request is unchanged; an invalid one lists exactly the fields outside their bounds |
| `ApiModels.EmptyConfigUpdateValid` | src/api/models.py:257-264 | a request with no fields is valid |
| `ApiModels.ValidatePaths` | src/api/models.py:61-66 | the validator passes a value through unchanged exactly when an earlier validated path is a non-empty string, and otherwise raises ValueError |
| `ApiModels.NewDocumentProcessRequest` | src/api/models.py:55-66 | as written: valid exactly when neither path is supplied; a supplied path, `null` included, is named as failing |
| `ApiModels.CorrectedDocumentProcessRequest` | src/api/models.py:55-66 | as evidently intended: valid exactly when at least one path is a non-empty string, keeping both paths |
| `ApiModels.FilePathRefused` | src/api/models.py:61-66 | a body naming one file is refused as written and accepted by the corrected check |
| `ApiModels.NewTokenCount` | src/api/models.py:130-134 | each counter is its given value, or 0 when it is not given |
| `ApiModels.StatusNamed` | src/api/models.py:12-16 | exactly "success", "error" and "processing" are statuses |
| `ApiModels.NewProcessingProgress` | src/api/models.py:281-290 | valid exactly when the status is known and `progress` is in [0,1] |
| `QARoutes.ContextDocumentOf` | src/api/routes/qa.py:44-51 | missing fields default to content "", metadata {}, score 0.0 and rank 0 |
| `QARoutes.ContextDocuments` | src/api/routes/qa.py:44-51 | the context documents are mapped one to one, in order |
| `QARoutes.DocDicts` | src/api/routes/qa.py:45 | one dictionary per context document of the result, none when the key is absent |
| `QARoutes.Formatted` | src/api/routes/qa.py:33-85 | `success` and `from_cache` default to False; `token_count` and `retrieval_stats` are present exactly when the result has them; one context document per input |
| `QARoutes.FormattedKeepsResult` | src/api/routes/qa.py:44-71 | shaping a pipeline result keeps each context document's four fields and the token and retrieval counters |
| `QARoutes.FormatQuestionResponse` | src/api/routes/qa.py:33-85 | the appending loop computes `Formatted` |
| `QARoutes.AskReply` | src/api/routes/qa.py:114-132 | a successful result is shaped; an unsuccessful one is HTTP 500 with its message; an exception is HTTP 500, and an HTTPException passes through |
| `QARoutes.AskWithoutDocuments` | src/api/routes/qa.py:122-123 | a question that nothing in the index answers becomes HTTP 500 "未找到相关文档" |
| `QARoutes.AskPipelineFailure` | src/api/routes/qa.py:122-123 | a pipeline failure becomes HTTP 500 with the pipeline's message |
| `QARoutes.AskQuestion` | src/api/routes/qa.py:89-132 | an uninitialised engine gives HTTP 500 and changes neither the cache nor the collector; otherwise the reply is `AskReply` of the engine's `Process` on the validated request, the cache is the one `Process` leaves, and the collector's readings become `Answered` of the result |
| `QARoutes.Successes` | src/api/routes/qa.py:164-171 | the number of successful responses is at most the number of responses |
| `QARoutes.FormattedAll` | src/api/routes/qa.py:164-166 | every result shaped, in order |
| `QARoutes.BatchReply` | src/api/routes/qa.py:136-191 | an exception is HTTP 500; otherwise `success_count + error_count = len(results)` and `total_questions = len(questions)` |
| `QARoutes.CountResults` | src/api/routes/qa.py:160-171 | the counting loop shapes every result and splits them into successes and errors |
| `QARoutes.BatchReplyOf` | src/api/routes/qa.py:164-183 | the loop's counts give exactly the reply `BatchReply` builds |
| `QARoutes.BatchReplyCountsEveryQuestion` | src/api/routes/qa.py:164-183 | for an engine batch, successes and errors add up to the number of questions, and each response's success matches its result |
| `QARoutes.BatchAskQuestions` | src/api/routes/qa.py:136-191 | an uninitialised engine gives HTTP 500 and changes neither the cache nor the collector; otherwise the reply is `BatchReply` of the engine's `Batch`, the cache is the one `Batch` leaves, and the collector gains one status, duration and document count per result, with every other reading kept |
| `QARoutes.Matching` | src/api/routes/qa.py:333-334 | a sample is kept exactly when its lowercased text contains the query |
| `QARoutes.MatchingEmpty` | src/api/routes/qa.py:333-336 | the empty query keeps every sample |
| `QARoutes.Candidates` | src/api/routes/qa.py:324-336 | all five samples for an empty query, otherwise those matching the lowercased query |
| `QARoutes.Suggestions` | src/api/routes/qa.py:306-348 | at most `limit` suggestions, a prefix of the candidates, with `total_count` the count before truncation |
| `QARoutes.SuggestionsMatchQuery` | src/api/routes/qa.py:324-343 | every suggestion is a sample containing the query case-insensitively; an empty query gives the first `limit` samples |
| `QARoutes.Trunc` | src/api/routes/qa.py:419 | `int(x)` truncates toward zero |
| `QARoutes.SubmitFeedback` | src/api/routes/qa.py:381-425 | a rating outside 1..5 is HTTP 400, and only then; the feedback id is "fb_" followed by the truncated clock reading |
| `DocumentRoutes.NoNameAcceptedByDefault` | src/api/routes/documents.py:47-58 | with the default formats, no file name is accepted |
| `DocumentRoutes.ScanPlain` | src/api/routes/documents.py:57 | characters without a dot or a slash do not change the suffix scan |
| `DocumentRoutes.SuffixOfStemAndExtension` | src/api/routes/documents.py:57 | a stem without dots followed by a dotted extension has that extension as its suffix |
| `DocumentRoutes.AcceptedByExtension` | src/api/routes/documents.py:47-58 | such a name is accepted exactly when its lowercased extension, dot included, is in the format list |
| `DocumentRoutes.NewFileUploadResponse` | src/api/models.py:240-245 | the response is built exactly when `upload_time` is given; without it pydantic raises ValueError |
| `DocumentRoutes.UploadReply` | src/api/routes/documents.py:92-154 | as written: the type is checked before the size; a file over `max_file_size` is HTTP 400; a failed write is HTTP 500; a written file is also HTTP 500, because the response is built with `upload_time=None`; no upload ever succeeds |
| `DocumentRoutes.CorrectedUploadReply` | src/api/routes/documents.py:92-154 | as evidently intended: the same refusals, and success exactly when the type is accepted, the size fits and the write succeeds, stamped with the current time and carrying the saved path, size, name and content type |
| `DocumentRoutes.WrittenUploadRefused` | src/api/routes/documents.py:127-154 | an accepted file that is written is answered HTTP 500 with the validation error, although the file stays saved; the corrected reply succeeds |
| `DocumentRoutes.Saves` | src/api/routes/documents.py:61-88 | one upload writes at most one file |
| `DocumentRoutes.EntryFor` | src/api/routes/documents.py:369-424 | every batch entry carries its file's name |
| `DocumentRoutes.EntryOutcome` | src/api/routes/documents.py:369-424 | a batch entry succeeds exactly when the file is written; a refused entry says why, type before size |
| `DocumentRoutes.EntryAgreesWithUpload` | src/api/routes/documents.py:369-404 | a batch entry succeeds exactly when the same file uploaded alone succeeds under the corrected reply, with the same path |
| `DocumentRoutes.Entries` | src/api/routes/documents.py:369-424 | one entry per file |
| `DocumentRoutes.EntriesAt` | src/api/routes/documents.py:369-424 | entry `i` is the entry for file `i` |
| `DocumentRoutes.Successes` | src/api/routes/documents.py:369-424 | the success count is at most the number of entries |
| `DocumentRoutes.BatchUpload` | src/api/routes/documents.py:346-432 | more than ten files is HTTP 400, and only then; otherwise one entry per file in order, with `success_count + error_count = len(files)` |
| `DocumentRoutes.Tally` | src/api/routes/documents.py:418-425 | the reply counts every entry once |
| `DocumentRoutes.TallyOf` | src/api/routes/documents.py:365-425 | the loop's counters give exactly that reply |
| `DocumentRoutes.EntriesStep` | src/api/routes/documents.py:369-424 | one more file appends its own entry |
| `DocumentRoutes.AllSavesStep` | src/api/routes/documents.py:369-424 | one more file appends its own writes |
| `DocumentRoutes.SuccessesAppend` | src/api/routes/documents.py:398-413 | one more entry adds one success exactly when it succeeded |
| `DocumentRoutes.SuccessesAreSaves` | src/api/routes/documents.py:369-424 | the success count is the number of files written |
| `DocumentRoutes.BatchUploadAccounting` | src/api/routes/documents.py:346-432 | an accepted batch counts the files written, and entry `i` names file `i` and agrees with the corrected single upload |
| `DocumentRoutes.UploadStore.constructor` | src/api/routes/documents.py:35-44 | a new upload directory holds no files |
| `DocumentRoutes.UploadStore.Save` | src/api/routes/documents.py:61-88 | a failed write raises and writes nothing; otherwise exactly one file is added under the generated name |
| `DocumentRoutes.UploadStore.UploadDocument` | src/api/routes/documents.py:92-154 | the reply is `UploadReply`, as written, and the directory gains exactly `Saves`, so a refused written file stays saved |
| `DocumentRoutes.UploadStore.UploadOne` | src/api/routes/documents.py:369-424 | one iteration of the batch loop gives `EntryFor` and the directory gains exactly `Saves` |
| `DocumentRoutes.UploadStore.BatchUploadDocuments` | src/api/routes/documents.py:346-432 | the reply is `BatchUpload`; a refused batch writes nothing, an accepted one writes exactly `AllSaves` |
| `DocumentRoutes.UploadStore.UploadAll` | src/api/routes/documents.py:369-424 | the loop gives `Entries`, counts successes and errors, and writes exactly `AllSaves` |
| `DocumentRoutes.RequestOf` | src/api/routes/documents.py:157-159 | the route sees the validated body's two paths |
| `DocumentRoutes.NoPathReachesProcess` | src/api/models.py:55-66 | as written: every body the validator accepts names no path, so `/process` answers it HTTP 400 |
| `DocumentRoutes.CorrectedRequestReachesRoute` | src/api/routes/documents.py:169-186 | with the corrected check, an accepted body reaches the file branch when it names a file, and the directory branch otherwise |
| `DocumentRoutes.TargetOf` | src/api/routes/documents.py:171-186 | `file_path` is preferred over `directory_path`, and neither given means no target |
| `DocumentRoutes.EngineFailure` | src/api/routes/documents.py:205-210 | an exception of the engine call is HTTP 500 unless it already is an HTTPException |
| `DocumentRoutes.FileReply` | src/api/routes/documents.py:188-203 | a processed file is answered successfully exactly when its result succeeded, otherwise with HTTP 500 and the result's message |
| `DocumentRoutes.DirectoryReply` | src/api/routes/documents.py:183-189 | as written: the tally has no "success" key, so a processed directory is always HTTP 500 |
| `DocumentRoutes.DirectoryNeverSucceeds` | src/api/routes/documents.py:183-189 | no directory request is ever answered with success |
| `DocumentRoutes.CleanDirectoryReportedAsFailure` | src/api/routes/documents.py:183-189 | even a directory whose files were all processed is reported as HTTP 500 |
| `DocumentRoutes.CorrectedDirectoryReply` | src/api/routes/documents.py:183-203 | as evidently intended: a completed tally succeeds with its directory and chunk total; only the engine's failure entry is HTTP 500 |
| `DocumentRoutes.ProcessDocument` | src/api/routes/documents.py:158-210 | no path is HTTP 400 and a missing path HTTP 404, both changing neither the collection nor the collector; an uninitialised engine is HTTP 500, with the decorator's error count for a file and nothing recorded for a directory; otherwise the reply is that of the file step or the directory tally, the collection is the one that step leaves, and the collector's readings are `Processed` of its result, plus the decorator's count for a file |
| `DocumentRoutes.InfoOf` | src/api/routes/documents.py:281-292 | a listed file's name, path, size, time and lowercased type, with `processed` only when asked for |
| `DocumentRoutes.Listed` | src/api/routes/documents.py:278-295 | the regular files of an accepted type, at most one per entry |
| `DocumentRoutes.Insert` | src/api/routes/documents.py:298 | insertion adds exactly the one file |
| `DocumentRoutes.InsertMember` | src/api/routes/documents.py:298 | an inserted list holds only the old files and the new one |
| `DocumentRoutes.InsertDescending` | src/api/routes/documents.py:298 | insertion keeps a list newest first |
| `DocumentRoutes.SortByModifiedTime` | src/api/routes/documents.py:298 | the sort yields a permutation of its input, newest first |
| `DocumentRoutes.CollectStep` | src/api/routes/documents.py:278-295 | one more directory entry appends its info exactly when it is a regular file of an accepted type |
| `DocumentRoutes.TotalSizeAppend` | src/api/routes/documents.py:294-295 | one more file adds its size to the total |
| `DocumentRoutes.Collect` | src/api/routes/documents.py:275-295 | the loop collects `Listed` and sums its sizes |
| `DocumentRoutes.ListDocuments` | src/api/routes/documents.py:251-314 | an absent directory lists nothing; otherwise a permutation of the accepted files, newest first, with `total_count` and `total_size` |
| `DocumentRoutes.NothingListedByDefault` | src/api/routes/documents.py:278-279 | with the default formats every listing is empty |
| `SystemRoutes.CountField` | src/api/models.py:206-211 | `document_count` accepts a missing value, None or an integer, and nothing else |
| `SystemRoutes.ComponentHealthOf` | src/api/routes/system.py:45-50 | a component keeps its status, error and model, and converts exactly when its count does |
| `SystemRoutes.ComponentsHealth` | src/api/routes/system.py:43-50 | every component converted, under the same names |
| `SystemRoutes.FormatComponents` | src/api/routes/system.py:43-50 | the loop converts every component, and fails with the validation error exactly when one of them does not convert |
| `SystemRoutes.HealthResponse` | src/api/routes/system.py:30-66 | success with the engine's status and components when the report converts; an exception or a conversion failure gives "unhealthy" with no components |
| `SystemRoutes.EngineReportConverts` | src/api/routes/system.py:43-50 | every report the engine builds converts |
| `SystemRoutes.UninitializedReportedUnhealthy` | src/api/routes/system.py:30-66 | an uninitialised engine is reported "unhealthy" with only the initialization component |
| `SystemRoutes.InitializedReportedHealthy` | src/api/routes/system.py:30-66 | an initialised engine is reported "healthy" with four components |
| `SystemRoutes.HealthCheck` | src/api/routes/system.py:30-66 | the route reports the engine's own health: once initialised, exactly the reshaped `HealthOf` of the collection statistics, the test question's result, the configured model and the cache ping, "healthy" with four components, and the cache unchanged |
| `SystemRoutes.CurrentConfig` | src/api/routes/system.py:204-211 | the six current tuning values, read from the settings |
| `SystemRoutes.UpdateData` | src/api/routes/system.py:193 | exactly the fields the request sets, with their values |
| `SystemRoutes.UpdateDataSize` | src/api/routes/system.py:193-196 | the update covers the given settings, its size is their count, and it is empty exactly when none is given |
| `SystemRoutes.UpdateDataKeys` | src/api/routes/system.py:193 | the update's keys are the given settings |
| `SystemRoutes.GivenSettingsCount` | src/api/routes/system.py:193 | the number of given settings is the count of set fields |
| `SystemRoutes.AddIfGiven` | src/api/routes/system.py:193 | a field given and not among the earlier ones adds exactly one setting, and the set stays within the earlier ones plus it |
| `SystemRoutes.UpdateSystemConfig` | src/api/routes/system.py:178-226 | no set field is HTTP 400, and only then; otherwise the message counts the given fields (1..6) and the config is the current one with them overriding it |
| `SystemRoutes.UpdateOverridesGivenFields` | src/api/routes/system.py:204-214 | each of the six values is the request's value when given and the current one otherwise |
| `SystemRoutes.UpdatedConfigWithinBounds` | src/api/routes/system.py:204-219 | a validated request on settings within the request bounds gives a config within them |
| `SystemRoutes.DefaultsWithinRequestBounds` | src/config/settings.py:54-63 | the default tuning values are within the request bounds |
| `SystemRoutes.UpdateConfig` | src/api/routes/system.py:178-226 | the route's merge loop computes `UpdateSystemConfig` |
| `SystemRoutes.InitializeAttempt` | src/core/rag_engine.py:38-65 | initialisation succeeds exactly when neither processor's construction raises, the document processor's failure coming first |
| `SystemRoutes.InitializeReply` | src/api/routes/system.py:229-256 | an initialised engine is acknowledged without a new attempt; otherwise success or HTTP 500 with the attempt's error; both successes report `initialized` |
| `SystemRoutes.InitializeSystem` | src/api/routes/system.py:229-256 | an initialised engine is left unchanged and `initialize` is not called; afterwards the engine is initialised exactly when the reply is a success, holding the given collection and the Redis server's existing answers |
| `Middleware.ProvidedKey` | src/api/middleware.py:202-209 | the text after "Bearer " when Authorization starts with it, otherwise a non-empty X-API-Key, otherwise none |
| `Middleware.SecurityDispatch` | src/api/middleware.py:160-221 | a refused request gets the 401 body; a request is refused exactly when its path is not public, a key is configured, and no key or a different key was provided |
| `Middleware.BearerDecides` | src/api/middleware.py:202-219 | with a Bearer header, the request passes exactly when its token is the key |
| `Middleware.OtherAuthorizationIgnored` | src/api/middleware.py:202-209 | an Authorization header without the Bearer prefix is ignored |
| `Middleware.EmptyBearerShadowsKeyHeader` | src/api/middleware.py:205-211 | "Bearer " with no token is refused even when X-API-Key holds the right key |
| `Middleware.RequestStatus` | src/api/middleware.py:137-143 | status < 400 is success, 400–499 client_error, and ≥ 500 server_error |
| `Middleware.OutcomeStatus` | src/api/middleware.py:130-157 | the label is "error" exactly when the next handler raised |
| `Middleware.MetricsDispatch` | src/api/middleware.py:107-157 | the response is passed through, one request is counted under path, method and status, its duration is observed, and no other reading of the collector changes |
| `Middleware.ErrorDispatch` | src/api/middleware.py:224-262 | an HTTPException is re-raised, any other exception becomes a 500 body with `success=False` and the request id, and a response passes through |
| `Middleware.LoggingDispatch` | src/api/middleware.py:23-104 | the response carries the request id and process-time headers and keeps everything else; an exception gives a 500 body with the error text |
| `Middleware.Routed` | src/api/middleware.py:244-246 | the router turns an HTTPException into a response with its status and detail, and lets other exceptions through |
| `Middleware.InnerNeverRaises` | src/api/middleware.py:282-302 | under the error-handling middleware, nothing reaches the metrics middleware as an exception |
| `Middleware.RouteFailureAnswered` | src/api/middleware.py:244-262 | an admitted request whose route raises is answered 500 with the request id and counted as server_error |
| `Middleware.RefusedRequestAnswered` | src/api/middleware.py:211-219 | a refused request is answered 401 whatever its route does, and counted as client_error |
| `Middleware.Handle` | src/api/middleware.py:282-302 | the response is that of the whole stack, one request is counted with the status the metrics middleware sees, and no other reading of the collector changes |

## Left out

- Embedding model, Chroma client, Ollama HTTP call, Redis and the document loaders: foreign libraries and network calls. They are oracle functions and `Outcome` parameters.
- The MD5 digests of the cache key and the file hash: an opaque function. That different texts give different digests is not assumed.
- Wall-clock time, `datetime` timestamps and `uuid` file names: they are parameters.
- `asyncio.gather` and `run_in_executor`: the batch is a sequential, position-preserving map.
- Float formatting (`:.3f` in the prompt, the process-time header) and IEEE rounding: scores, averages and rates are `real`.
- The Prometheus registry and text export, `get_metrics`, and the psutil readings of `update_system_metrics` and `get_metrics_summary`: OS and foreign-library calls.
- `DocumentRoutes.ProcessDocument`: its file and directory branches are unreachable over HTTP, because the validator as written refuses every body that supplies a path with HTTP 422 (`DocumentRoutes.NoPathReachesProcess`); the model states them for a direct call of the route function.
- `ApiModels.NewDocumentProcessRequest`: pydantic's type errors for a path that is not a string, and the coercion of `overwrite`, are not modelled.
- `Config.Settings.constructor`: pydantic's parsing of the variables' text into each field's type, and the validation error a bad value raises, are not modelled; the environment maps hold values already parsed.
- `Config.Registry.constructor`: reads the `.env` file and the environment through the same parameters, with the same limits.
- langchain's text splitter: it is an oracle; only the metadata loop after it is modelled.
- The system routes `GET /stats`, `GET /metrics`, `GET /config`, `POST /shutdown`, `GET /version` and `GET /logs`: thin wrappers around statistics, process control or the filesystem. `DELETE /cache` (src/api/routes/system.py:348-377) is a placeholder that clears nothing and always answers `cleared_count` 0.
- The document routes `DELETE /delete` (whose request body carries `file_path`), `GET /formats` and `GET /stats`: thin wrappers around `RAGEngine.delete_document`, `get_supported_formats` and `get_system_stats`, which are modelled.
- The QA routes `/ask-stream`, `/history` and `/stats`: streaming and fixed placeholder responses.
- CORS middleware: Starlette's own.
- The routes' own `metrics_collector.record_request` calls (for example src/api/routes/qa.py:114-117 and src/api/routes/documents.py:192): the counter they update is `Metrics.MetricsCollector.RecordRequest`, which the model proves, but the route models do not call it.
- HTTP headers are looked up by exact name; Starlette's case-insensitive lookup is not modelled.
- `str.lower` is modelled on ASCII letters only.
- `QA.StoreAnswer`: Redis expires each answer `cache_ttl` seconds after `setex` writes it (src/core/qa_processor.py:167-170); the model has no clock, so a stored answer stays in the cache and a later lookup of its key is a hit whatever its age.
- `Documents.Stored`: the model reads the `collection.add` call with each list in its keyword role (ids, embeddings, metadatas, documents), so a successful store appends `Record(chunk_id, text, metadata)` for each chunk; the embeddings are not part of the record in the model. The source passes `embeddings, metadatas, texts, ids` positionally (src/core/document_processor.py:276-284), and Chroma's signature is not part of this model; whether that order is accepted is left to the `addFailure` parameter.
- `Documents.DocumentProcessor.StoreDocuments`: computes `Stored`, so it makes the same keyword-role reading of the positional `collection.add` call.
- `QA.QAProcessor.constructor`: holds the tuning values as a `Config.Tuning` fixed when it is built, while the source reads `settings.*` at each call (src/core/qa_processor.py:128-130, 209-210, 290-295); a later configuration update is not seen by an existing processor in the model.
- `SystemRoutes.CountField`: pydantic's coercion of floats and numeric strings into `document_count` is not modelled; only None and integers are accepted.
- `SystemRoutes.ComponentHealthOf`: the "unknown" defaults of the health formatting are not modelled, because the engine always supplies a status.
- `SystemRoutes.UpdateData`: `exclude_unset` with an explicit `null` is not distinguished from an absent field.
- `Middleware.LoggingDispatch`: the error text in the fallback body is `str(e)` of the modelled exception, not Starlette's rendering of an HTTPException.
- `DocumentRoutes.SortByModifiedTime`: proves a newest-first permutation; it does not prove that files with equal times keep their order, as Python's stable sort does.
- `Engine.RAGEngine.GetSystemStats`: the psutil readings and Prometheus values in the statistics are left out.
- The `except` branches of `answer_question` and `batch_answer_questions` (src/core/rag_engine.py:223-231, 271-278): in the model `QA.Process` and `QA.Batch` return a result for every input and the metric updates cannot fail, so nothing reaches those branches and they are not modelled.
- Logging through `src/utils/logger.py`, and the application wiring in `src/main.py`.

## Findings

| source | as written | input that shows it | evidently intended | confidence | as-written member | corrected member |
|---|---|---|---|---|---|---|
| src/core/rag_engine.py:392-422 | the index probe is `get_collection_stats`, which catches its own failure, and the language-model probe is `process_question`, which turns every failure into a result, so neither raises and the component stays "healthy" | an unreachable Chroma server: the statistics carry an error and the report still says "healthy" | a statistics error or an unsuccessful test question marks that component and the whole report "unhealthy" | not executed | `Engine.HealthAsWrittenIgnoresBackendFailures` | `Engine.CorrectedHealthOf` |
| src/api/routes/documents.py:183-189 | a directory is processed, then `result.get("success")` is read from the tally, which has no "success" key, so the route raises HTTP 500 | a direct call of the route function with a `directory_path` whose files all process cleanly (over HTTP the validator refuses the body first; see the row for src/api/models.py:61-66) | a completed tally is answered with success and its chunk total | not executed | `DocumentRoutes.CleanDirectoryReportedAsFailure` | `DocumentRoutes.CorrectedDirectoryReply` |
| src/api/routes/documents.py:132-140 | the success response is built with `upload_time=None`, but the field is a required `datetime`, so pydantic raises; the handler turns that into HTTP 500 after the file was already saved | with `supported_formats` holding ".pdf" (the default list is refused, see above), an upload of `a.pdf` within `max_file_size` whose write succeeds | success, stamped with the current time (the comment says it is set automatically) | not executed | `DocumentRoutes.WrittenUploadRefused` | `DocumentRoutes.CorrectedUploadReply` |
| src/api/models.py:61-66 | `validate_paths` is a per-field validator: for `file_path` nothing is in `values` yet, and for `directory_path` the earlier `file_path` is absent or `None`, so every supplied path is refused with HTTP 422 | a `/process` body `{"file_path": "data/a.pdf"}` | a body is refused only when neither path is a non-empty string | not executed | `ApiModels.FilePathRefused` | `ApiModels.CorrectedDocumentProcessRequest` |
