/** The lifecycle of `RAGEngine` (src/core/rag_engine.py): `initialize` builds the
    two processors and only then marks the engine initialised, every operation is
    guarded by `_check_initialized`, the question and document operations forward
    to the processors and record metrics, and `health_check` aggregates the
    component probes into one status. */
module Engine {
  import opened Common
  import opened Metrics
  import Config
  import QA
  import Documents

  const NotInitialized := "RAG引擎未初始化，请先调用initialize()方法"

  /** The test question of the language-model probe. */
  const HealthQuestion := "测试连接"

  // ---------------------------------------------------------------- question metrics

  /** `result.get("success")` is truthy. */
  predicate Succeeded(r: QA.QAResult) {
    r.success == Some(true)
  }

  /** `len(result.get("context_documents", []))`. */
  function RetrievedCount(r: QA.QAResult): nat {
    if r.contextDocuments.Some? then |r.contextDocuments.value| else 0
  }

  function StatusOfResult(r: QA.QAResult): (s: string)
    ensures s == "success" <==> Succeeded(r)
    ensures s == "error" <==> !Succeeded(r)
  {
    if Succeeded(r) then "success" else "error"
  }

  /** `qa_processing_count` after one recorded status per batch result, in order. */
  function CountStatuses(m: map<string, nat>, rs: seq<QA.QAResult>): map<string, nat>
    decreases |rs|
  {
    if rs == [] then m else Bump(CountStatuses(m, rs[..|rs| - 1]), StatusOfResult(rs[|rs| - 1]), 1)
  }

  /** The duration recorded for one batch result: its `total_time` when it succeeded, 0 otherwise. */
  function BatchDuration(r: QA.QAResult): real {
    if Succeeded(r) && r.totalTime.Some? then r.totalTime.value else 0.0
  }

  function BatchDurations(rs: seq<QA.QAResult>): (ds: seq<real>)
    ensures |ds| == |rs|
    ensures forall i :: 0 <= i < |rs| ==> ds[i] == BatchDuration(rs[i])
    decreases |rs|
  {
    if rs == [] then []
    else
      var n := |rs| - 1;
      assert forall i :: 0 <= i < n ==> rs[..n][i] == rs[i];
      BatchDurations(rs[..n]) + [BatchDuration(rs[n])]
  }

  /** `qa_retrieval_documents` observations after the batch: only successes with documents. */
  function ObserveAll(obs: seq<int>, rs: seq<QA.QAResult>): seq<int>
    decreases |rs|
  {
    if rs == [] then obs
    else
      var r := rs[|rs| - 1];
      ObserveRetrieval(ObserveAll(obs, rs[..|rs| - 1]), if Succeeded(r) then RetrievedCount(r) else 0)
  }

  /** One more batch result adds its own status. */
  lemma CountStep(m: map<string, nat>, rs: seq<QA.QAResult>, i: nat)
    requires i < |rs|
    ensures CountStatuses(m, rs[..i + 1]) == Bump(CountStatuses(m, rs[..i]), StatusOfResult(rs[i]), 1)
  {
    assert rs[..i + 1][..i] == rs[..i];
  }

  /** One more batch result adds its own duration. */
  lemma DurationsStep(rs: seq<QA.QAResult>, i: nat)
    requires i < |rs|
    ensures BatchDurations(rs[..i + 1]) == BatchDurations(rs[..i]) + [BatchDuration(rs[i])]
  {
    assert rs[..i + 1][..i] == rs[..i];
  }

  /** One more batch result adds its own document count, when it succeeded. */
  lemma ObserveStep(obs: seq<int>, rs: seq<QA.QAResult>, i: nat)
    requires i < |rs|
    ensures ObserveAll(obs, rs[..i + 1])
            == ObserveRetrieval(ObserveAll(obs, rs[..i]), if Succeeded(rs[i]) then RetrievedCount(rs[i]) else 0)
  {
    assert rs[..i + 1][..i] == rs[..i];
  }

  function CountOf(m: map<string, nat>, s: string): nat {
    if s in m then m[s] else 0
  }

  /** The `cache_operations` label pair of a lookup that answered. */
  const CacheLookup: (string, string) := ("get", "success")

  /** `cache_operations` after one more answered lookup: that label pair counts one
      more, and every other pair keeps its count. */
  function CountLookup(ops: map<(string, string), nat>): (m: map<(string, string), nat>)
    ensures m.Keys == ops.Keys + {CacheLookup}
    ensures m[CacheLookup] == CountOf2(ops, CacheLookup) + 1
    ensures forall key :: key in ops && key != CacheLookup ==> m[key] == ops[key]
  {
    ops[CacheLookup := CountOf2(ops, CacheLookup) + 1]
  }

  /** The collector's readings after `answer_question` records `result`: its status
      with a zero duration, its document count when it succeeded, and on success one
      answered lookup, a hit exactly when the answer came from the cache, with the
      gauge following the counters. Every other reading is left as it was. */
  function Answered(m: Readings, result: QA.QAResult): (a: Readings)
    requires m.hitRateGauge == HitRate(m.cacheHits, m.cacheMisses)
    ensures a.qaCount == Bump(m.qaCount, StatusOfResult(result), 1)
    ensures a.qaDurations == m.qaDurations + [0.0]
    ensures a.retrievalObservations
            == ObserveRetrieval(m.retrievalObservations, if Succeeded(result) then RetrievedCount(result) else 0)
    ensures Succeeded(result) ==>
            && (a.cacheHits, a.cacheMisses)
               == CountersAfter(m.cacheHits, m.cacheMisses, "get", Some(result.fromCache == Some(true)))
            && a.cacheOperations == CountLookup(m.cacheOperations)
    ensures !Succeeded(result) ==>
            a.cacheHits == m.cacheHits && a.cacheMisses == m.cacheMisses && a.cacheOperations == m.cacheOperations
    ensures a.hitRateGauge == HitRate(a.cacheHits, a.cacheMisses)
    ensures a.documentCount == m.documentCount && a.documentDurations == m.documentDurations
    ensures a.vectorDbOperations == m.vectorDbOperations && a.vectorDbDocuments == m.vectorDbDocuments
    ensures a.requestCount == m.requestCount && a.requestDurations == m.requestDurations
  {
    var recorded := m.(qaCount := Bump(m.qaCount, StatusOfResult(result), 1),
                       qaDurations := m.qaDurations + [0.0],
                       retrievalObservations :=
                         ObserveRetrieval(m.retrievalObservations, if Succeeded(result) then RetrievedCount(result) else 0));
    if Succeeded(result) then
      var c := CountersAfter(m.cacheHits, m.cacheMisses, "get", Some(result.fromCache == Some(true)));
      recorded.(cacheHits := c.0, cacheMisses := c.1, hitRateGauge := HitRate(c.0, c.1),
                cacheOperations := CountLookup(m.cacheOperations))
    else recorded
  }

  function CountOf2(m: map<(string, string), nat>, key: (string, string)): nat {
    if key in m then m[key] else 0
  }

  /** The collector's readings after a processed file or directory is recorded: on
      success its chunk count and, when the collection could be counted (`size` is
      Some), the collection's size on the gauge; otherwise one error. A zero duration
      is observed either way, and every other reading is left as it was. */
  function Processed(m: Readings, success: bool, chunks: nat, size: Option<int>): (a: Readings)
    ensures success ==> a.documentCount == Bump(m.documentCount, "success", chunks)
    ensures !success ==> a.documentCount == Bump(m.documentCount, "error", 1)
    ensures a.documentDurations == m.documentDurations + [0.0]
    ensures success && size.Some? ==> a.vectorDbDocuments == size.value
    ensures !(success && size.Some?) ==> a.vectorDbDocuments == m.vectorDbDocuments
    ensures a.(documentCount := m.documentCount, documentDurations := m.documentDurations,
               vectorDbDocuments := m.vectorDbDocuments) == m
  {
    m.(documentCount := if success then Bump(m.documentCount, "success", chunks) else Bump(m.documentCount, "error", 1),
       documentDurations := m.documentDurations + [0.0],
       vectorDbDocuments := if success && size.Some? then size.value else m.vectorDbDocuments)
  }

  /** The collector's readings after the metrics decorator of `process_document`
      records a call that returned (`ok`) or raised: one count under that status and
      the call's duration. Every other reading is left as it was. */
  function DocumentDecorated(m: Readings, ok: bool, elapsed: real): (a: Readings)
    ensures a.documentCount == Bump(m.documentCount, if ok then "success" else "error", 1)
    ensures a.documentDurations == m.documentDurations + [elapsed]
    ensures a.(documentCount := m.documentCount, documentDurations := m.documentDurations) == m
  {
    m.(documentCount := Bump(m.documentCount, if ok then "success" else "error", 1),
       documentDurations := m.documentDurations + [elapsed])
  }

  /** Every batch result is counted once, as a success or as an error. */
  lemma {:induction false} CountStatusesTotal(m: map<string, nat>, rs: seq<QA.QAResult>)
    ensures CountOf(CountStatuses(m, rs), "success") + CountOf(CountStatuses(m, rs), "error")
         == CountOf(m, "success") + CountOf(m, "error") + |rs|
    ensures forall s :: s != "success" && s != "error" ==> CountOf(CountStatuses(m, rs), s) == CountOf(m, s)
    decreases |rs|
  {
    if rs != [] {
      CountStatusesTotal(m, rs[..|rs| - 1]);
    }
  }

  /** Every observation the batch adds is a positive document count. */
  lemma {:induction false} ObserveAllPositive(obs: seq<int>, rs: seq<QA.QAResult>)
    ensures |obs| <= |ObserveAll(obs, rs)| <= |obs| + |rs|
    ensures ObserveAll(obs, rs)[..|obs|] == obs
    ensures forall i :: |obs| <= i < |ObserveAll(obs, rs)| ==> ObserveAll(obs, rs)[i] > 0
    decreases |rs|
  {
    if rs != [] {
      ObserveAllPositive(obs, rs[..|rs| - 1]);
    }
  }

  // ---------------------------------------------------------------- health

  datatype Component = Component(
    status: string,
    initialized: Option<bool>,
    documentCount: Option<Value>,
    model: Option<string>,
    error: Option<string>)

  datatype Health = Health(status: string, timestamp: real, components: map<string, Component>)

  function StatusComponent(status: string): Component {
    Component(status, None, None, None, None)
  }

  function FailedComponent(e: Exc): Component {
    Component("unhealthy", None, None, None, Some(e.Text()))
  }

  /** `stats.get("total_documents", 0)`. */
  function DocumentCount(s: Documents.Stats): Value {
    if s.Stats? then VInt(s.totalDocuments) else VInt(0)
  }

  /** `health_check` as written: what each probe did decides its component, and a
      probe that raised marks the whole report unhealthy unless it is the cache's. */
  function HealthOf(initialized: bool, timestamp: real, vector: Outcome<Documents.Stats>, llm: Outcome<QA.QAResult>,
                    model: string, cacheEnabled: bool, ping: Outcome<()>): (h: Health)
    ensures h.status == "unhealthy" <==> !initialized || vector.Raise? || llm.Raise?
    ensures h.status == "healthy" <==> !(h.status == "unhealthy")
    ensures !initialized ==> h.components.Keys == {"initialization"}
    ensures initialized ==> h.components.Keys == {"initialization", "vector_database", "llm", "cache"}
    ensures initialized && vector.Raise? ==> h.components["vector_database"].error == Some(vector.exc.Text())
    ensures initialized && llm.Raise? ==> h.components["llm"].error == Some(llm.exc.Text())
    ensures initialized && !cacheEnabled ==> h.components["cache"].status == "disabled"
    ensures initialized && cacheEnabled ==> (h.components["cache"].status == "unhealthy" <==> ping.Raise?)
  {
    var init := Component(if initialized then "healthy" else "unhealthy", Some(initialized), None, None, None);
    if !initialized then Health("unhealthy", timestamp, map["initialization" := init])
    else
      var vectorPart := if vector.Ok? then Component("healthy", None, Some(DocumentCount(vector.value)), None, None)
                        else FailedComponent(vector.exc);
      var llmPart := if llm.Ok? then Component("healthy", None, None, Some(model), None) else FailedComponent(llm.exc);
      var cachePart := if !cacheEnabled then StatusComponent("disabled")
                       else if ping.Ok? then StatusComponent("healthy") else FailedComponent(ping.exc);
      var status := if vector.Raise? || llm.Raise? then "unhealthy" else "healthy";
      Health(status, timestamp, map["initialization" := init, "vector_database" := vectorPart,
                                    "llm" := llmPart, "cache" := cachePart])
  }

  /** The index probe is `get_collection_stats`, which catches its own failure, and the
      language-model probe is `process_question`, which turns every failure into a
      result: neither raises, so once initialised the report is always healthy, even
      when the collection cannot be counted and the language model is down. */
  lemma HealthAsWrittenIgnoresBackendFailures(timestamp: real, stats: Documents.Stats, probe: QA.QAResult,
                                              model: string, cacheEnabled: bool, ping: Outcome<()>)
    requires stats.StatsError? && probe.error.Some?
    ensures HealthOf(true, timestamp, Ok(stats), Ok(probe), model, cacheEnabled, ping).status == "healthy"
  {
  }

  /** The health report the probes evidently intend: the index is unhealthy when its
      statistics carry an error, the language model when the probe's result does. */
  function CorrectedHealthOf(initialized: bool, timestamp: real, stats: Documents.Stats, probe: QA.QAResult,
                             model: string, cacheEnabled: bool, ping: Outcome<()>): (h: Health)
    ensures h.status == "unhealthy" <==> !initialized || stats.StatsError? || probe.error.Some?
    ensures initialized && stats.StatsError? ==>
      "vector_database" in h.components && h.components["vector_database"].error == Some(stats.error)
    ensures initialized && probe.error.Some? ==> "llm" in h.components && h.components["llm"].error == probe.error
  {
    HealthOf(initialized, timestamp,
             if stats.StatsError? then Raise(ServiceError(stats.error)) else Ok(stats),
             if probe.error.Some? then Raise(ServiceError(probe.error.value)) else Ok(probe),
             model, cacheEnabled, ping)
  }

  // ---------------------------------------------------------------- directory replies

  /** What `process_directory` returns: the processor's tally (which has no
      "success" key) or the failure entry built from its exception. */
  datatype DirectoryReply =
    | Tallied(result: Documents.DirResult)
    | DirectoryFailed(message: string, directoryPath: string, error: string)

  /** `SystemStats`: the parts of `get_system_stats` this model keeps. */
  datatype SystemStats = SystemStats(initialized: bool, documentProcessor: Documents.Stats, cacheHitRate: real)

  // ---------------------------------------------------------------- the engine

  /** The collection size `get_collection_stats` reports after a store, or None when
      counting the collection fails. */
  function CountedSize(p: Documents.DocumentProcessor): (size: Option<int>)
    reads p
    ensures size.Some? <==> p.env.countFailure.None?
    ensures size.Some? ==> size.value == |p.collection|
  {
    if p.env.countFailure.None? then Some(|p.collection|) else None
  }

  class RAGEngine {
    var documentProcessor: Documents.DocumentProcessor?
    var qaProcessor: QA.QAProcessor?
    var initialized: bool
    /** The process-wide metrics collector. */
    const metrics: MetricsCollector

    /** An initialised engine holds both processors. */
    ghost predicate Valid()
      reads this
    {
      initialized ==> documentProcessor != null && qaProcessor != null
    }

    constructor (metrics: MetricsCollector)
      ensures Valid() && !initialized && documentProcessor == null && qaProcessor == null
      ensures this.metrics == metrics
    {
      this.metrics := metrics;
      documentProcessor, qaProcessor, initialized := null, null, false;
    }

    /** `initialize`: the cache client's failure is swallowed (the question processor
        then has no cache), a processor whose construction raises aborts it, and the
        engine is marked initialised only after both processors exist. `cache0` is
        what the Redis server already holds when the client attaches to it. */
    method Initialize(cacheUp: bool, cache0: map<string, QA.QAResult>,
                      docEnv: Documents.DocEnv, collection: seq<Documents.Record>, docFailure: Option<Exc>,
                      qaEnv: QA.Env, tuning: Config.Tuning, qaFailure: Option<Exc>)
      returns (r: Outcome<()>)
      requires Valid()
      modifies this
      ensures Valid()
      ensures docFailure.Some? ==>
        && r == Raise(docFailure.value) && initialized == old(initialized)
        && documentProcessor == old(documentProcessor) && qaProcessor == old(qaProcessor)
      ensures docFailure.None? && qaFailure.Some? ==>
        && r == Raise(qaFailure.value) && initialized == old(initialized)
        && documentProcessor != null && fresh(documentProcessor) && documentProcessor.env == docEnv
        && qaProcessor == old(qaProcessor)
      ensures docFailure.None? && qaFailure.None? ==>
        && r == Ok(()) && initialized
        && documentProcessor != null && fresh(documentProcessor)
        && documentProcessor.env == docEnv && documentProcessor.collection == collection
        && qaProcessor != null && fresh(qaProcessor)
        && qaProcessor.env == qaEnv && qaProcessor.tuning == tuning && qaProcessor.cacheEnabled == cacheUp
        && qaProcessor.cache == cache0
      ensures r.Raise? ==> initialized == old(initialized)
    {
      if docFailure.Some? {
        return Raise(docFailure.value);
      }
      documentProcessor := new Documents.DocumentProcessor(docEnv, collection);
      if qaFailure.Some? {
        return Raise(qaFailure.value);
      }
      qaProcessor := new QA.QAProcessor(qaEnv, tuning, cacheUp, cache0);
      initialized := true;
      r := Ok(());
    }

    /** `answer_question`: forwards its arguments unchanged and records the result's
        status, its document count and a cache lookup; the metrics decorator records
        nothing for this name. */
    method AnswerQuestion(question: string, k: Option<int>, threshold: Option<real>, useCache: bool, elapsed: real)
      returns (r: Outcome<QA.QAResult>)
      requires Valid() && metrics.Valid()
      modifies qaProcessor, metrics
      ensures !initialized ==>
        && r == Raise(RuntimeError(NotInitialized))
        && metrics.Snapshot() == old(metrics.Snapshot())
        && (qaProcessor != null ==> unchanged(qaProcessor))
      ensures initialized ==>
        && r.Ok?
        && (r.value, qaProcessor.cache) == QA.Process(qaProcessor.env, qaProcessor.tuning, qaProcessor.cacheEnabled,
                                                       old(qaProcessor.cache), question, k, threshold, useCache)
        && metrics.Snapshot() == Answered(old(metrics.Snapshot()), r.value)
      ensures metrics.Valid()
    {
      var body: Outcome<QA.QAResult>;
      if !initialized {
        body := Raise(RuntimeError(NotInitialized));
      } else {
        var result := qaProcessor.ProcessQuestion(question, k, threshold, useCache);
        RecordAnswer(result);
        body := Ok(result);
      }
      DecoratedEngineMethods();
      r := metrics.Instrument("answer_question", body, elapsed);
    }

    /** What `answer_question` records about one result: its status with no duration,
        its document count, and on success a cache lookup. */
    method RecordAnswer(result: QA.QAResult)
      requires metrics.Valid()
      modifies metrics
      ensures metrics.Snapshot() == Answered(old(metrics.Snapshot()), result)
      ensures metrics.Valid()
    {
      if Succeeded(result) {
        metrics.RecordQAProcessing("success", 0.0, RetrievedCount(result));
        metrics.RecordCacheOperation(CacheLookup.0, CacheLookup.1, Some(result.fromCache == Some(true)));
      } else {
        metrics.RecordQAProcessing("error", 0.0, 0);
      }
    }

    /** `batch_answer_questions`: the processor's batch, then one recorded status,
        duration and document count per result, in order. */
    method BatchAnswerQuestions(questions: seq<string>, k: Option<int>, threshold: Option<real>, useCache: bool)
      returns (r: Outcome<seq<QA.QAResult>>)
      requires Valid()
      modifies qaProcessor, metrics
      ensures !initialized ==>
        && r == Raise(RuntimeError(NotInitialized))
        && metrics.Snapshot() == old(metrics.Snapshot())
        && (qaProcessor != null ==> unchanged(qaProcessor))
      ensures initialized ==>
        && r.Ok?
        && (r.value, qaProcessor.cache) == QA.Batch(qaProcessor.env, qaProcessor.tuning, qaProcessor.cacheEnabled,
                                                     old(qaProcessor.cache), questions, k, threshold, useCache)
        && metrics.Snapshot() == old(metrics.Snapshot()).(
             qaCount := CountStatuses(old(metrics.qaCount), r.value),
             qaDurations := old(metrics.qaDurations) + BatchDurations(r.value),
             retrievalObservations := ObserveAll(old(metrics.retrievalObservations), r.value))
    {
      if !initialized {
        return Raise(RuntimeError(NotInitialized));
      }
      var results := qaProcessor.BatchProcessQuestions(questions, k, threshold, useCache);
      RecordBatch(results);
      r := Ok(results);
    }

    /** The loop of `batch_answer_questions` that records one status, duration and
        document count per result. */
    method RecordBatch(results: seq<QA.QAResult>)
      modifies metrics
      ensures metrics.qaCount == CountStatuses(old(metrics.qaCount), results)
      ensures metrics.qaDurations == old(metrics.qaDurations) + BatchDurations(results)
      ensures metrics.retrievalObservations == ObserveAll(old(metrics.retrievalObservations), results)
      ensures metrics.Snapshot() == old(metrics.Snapshot()).(
                qaCount := metrics.qaCount, qaDurations := metrics.qaDurations,
                retrievalObservations := metrics.retrievalObservations)
    {
      for i := 0 to |results|
        invariant metrics.qaCount == CountStatuses(old(metrics.qaCount), results[..i])
        invariant metrics.qaDurations == old(metrics.qaDurations) + BatchDurations(results[..i])
        invariant metrics.retrievalObservations == ObserveAll(old(metrics.retrievalObservations), results[..i])
        invariant metrics.Snapshot() == old(metrics.Snapshot()).(
                    qaCount := metrics.qaCount, qaDurations := metrics.qaDurations,
                    retrievalObservations := metrics.retrievalObservations)
      {
        CountStep(old(metrics.qaCount), results, i);
        DurationsStep(results, i);
        ObserveStep(old(metrics.retrievalObservations), results, i);
        AppendAssoc(old(metrics.qaDurations), BatchDurations(results[..i]), [BatchDuration(results[i])]);
        RecordResult(results[i]);
      }
      assert results[..|results|] == results;
    }

    /** One iteration of that loop: the result's status, its duration and its document count. */
    method RecordResult(result: QA.QAResult)
      modifies metrics
      ensures metrics.qaCount == Bump(old(metrics.qaCount), StatusOfResult(result), 1)
      ensures metrics.qaDurations == old(metrics.qaDurations) + [BatchDuration(result)]
      ensures metrics.retrievalObservations
              == ObserveRetrieval(old(metrics.retrievalObservations), if Succeeded(result) then RetrievedCount(result) else 0)
      ensures metrics.Snapshot() == old(metrics.Snapshot()).(
                qaCount := metrics.qaCount, qaDurations := metrics.qaDurations,
                retrievalObservations := metrics.retrievalObservations)
    {
      if Succeeded(result) {
        metrics.RecordQAProcessing("success", BatchDuration(result), RetrievedCount(result));
      } else {
        metrics.RecordQAProcessing("error", 0.0, 0);
      }
    }

    /** `process_document`: the processor's file result, its own document count
        (the chunk count on success, one error otherwise), the collection-size gauge,
        and the decorator's count for this name. */
    method ProcessDocument(path: string, elapsed: real) returns (r: Outcome<Documents.FileResult>)
      requires Valid()
      modifies documentProcessor, metrics
      ensures !initialized ==>
        && r == Raise(RuntimeError(NotInitialized))
        && metrics.Snapshot() == DocumentDecorated(old(metrics.Snapshot()), false, elapsed)
        && (documentProcessor != null ==> unchanged(documentProcessor))
      ensures initialized ==>
        && r.Ok?
        && metrics.Snapshot()
           == DocumentDecorated(Processed(old(metrics.Snapshot()), r.value.success, Documents.ChunksOf(r.value),
                                          CountedSize(documentProcessor)), true, elapsed)
      ensures initialized ==>
        && r.Ok?
        && (r.value, documentProcessor.collection)
           == Documents.FileStep(documentProcessor.env, old(documentProcessor.collection), path)
        && metrics.documentCount
           == Bump(if r.value.success then Bump(old(metrics.documentCount), "success", Documents.ChunksOf(r.value))
                   else Bump(old(metrics.documentCount), "error", 1), "success", 1)
        && metrics.documentDurations == old(metrics.documentDurations) + [0.0, elapsed]
        && (r.value.success && documentProcessor.env.countFailure.None? ==>
              metrics.vectorDbDocuments == |documentProcessor.collection|)
        && (!(r.value.success && documentProcessor.env.countFailure.None?) ==>
              metrics.vectorDbDocuments == old(metrics.vectorDbDocuments))
        && metrics.Snapshot() == old(metrics.Snapshot()).(
             documentCount := metrics.documentCount, documentDurations := metrics.documentDurations,
             vectorDbDocuments := metrics.vectorDbDocuments)
    {
      var body: Outcome<Documents.FileResult>;
      if !initialized {
        body := Raise(RuntimeError(NotInitialized));
      } else {
        var result := documentProcessor.ProcessFile(path);
        RecordProcessed(result.success, Documents.ChunksOf(result));
        body := Ok(result);
      }
      DecoratedEngineMethods();
      r := metrics.Instrument("process_document", body, elapsed);
    }

    /** `process_directory`: the processor's tally, or the failure entry built from
        its exception; the decorator records nothing for this name. */
    method ProcessDirectory(dir: string, elapsed: real) returns (r: Outcome<DirectoryReply>)
      requires Valid()
      modifies documentProcessor, metrics
      ensures !initialized ==>
        && r == Raise(RuntimeError(NotInitialized))
        && metrics.Snapshot() == old(metrics.Snapshot())
        && (documentProcessor != null ==> unchanged(documentProcessor))
      ensures initialized ==>
        var out := Documents.Directory(documentProcessor.env, old(documentProcessor.collection), dir);
        && documentProcessor.collection == out.1
        && metrics.Snapshot()
           == Processed(old(metrics.Snapshot()), out.0.Ok?, if out.0.Ok? then out.0.value.totalChunks else 0,
                        CountedSize(documentProcessor))
        && (out.0.Ok? ==>
              && r == Ok(Tallied(out.0.value))
              && metrics.documentCount == Bump(old(metrics.documentCount), "success", out.0.value.totalChunks))
        && (out.0.Raise? ==>
              && r == Ok(DirectoryFailed("目录处理失败: " + out.0.exc.Text(), dir, out.0.exc.Text()))
              && metrics.documentCount == Bump(old(metrics.documentCount), "error", 1))
        && metrics.documentDurations == old(metrics.documentDurations) + [0.0]
        && (out.0.Ok? && documentProcessor.env.countFailure.None? ==>
              metrics.vectorDbDocuments == |documentProcessor.collection|)
        && (!(out.0.Ok? && documentProcessor.env.countFailure.None?) ==>
              metrics.vectorDbDocuments == old(metrics.vectorDbDocuments))
        && metrics.Snapshot() == old(metrics.Snapshot()).(
             documentCount := metrics.documentCount, documentDurations := metrics.documentDurations,
             vectorDbDocuments := metrics.vectorDbDocuments)
    {
      var body: Outcome<DirectoryReply>;
      if !initialized {
        body := Raise(RuntimeError(NotInitialized));
      } else {
        var result := documentProcessor.ProcessDirectory(dir);
        if result.Raise? {
          RecordProcessed(false, 0);
          body := Ok(DirectoryFailed("目录处理失败: " + result.exc.Text(), dir, result.exc.Text()));
        } else {
          RecordProcessed(true, result.value.totalChunks);
          body := Ok(Tallied(result.value));
        }
      }
      DecoratedEngineMethods();
      r := metrics.Instrument("process_directory", body, elapsed);
    }

    /** What `process_document` and `process_directory` record about a processed file
        or directory: on success its chunk count with no duration and, when the
        collection can be counted, the collection's size on the gauge; otherwise one
        error with no duration. */
    method RecordProcessed(success: bool, chunks: nat)
      requires documentProcessor != null
      modifies metrics
      ensures metrics.documentCount
              == if success then Bump(old(metrics.documentCount), "success", chunks)
                 else Bump(old(metrics.documentCount), "error", 1)
      ensures metrics.documentDurations == old(metrics.documentDurations) + [0.0]
      ensures success && documentProcessor.env.countFailure.None? ==>
              metrics.vectorDbDocuments == |documentProcessor.collection|
      ensures !(success && documentProcessor.env.countFailure.None?) ==>
              metrics.vectorDbDocuments == old(metrics.vectorDbDocuments)
      ensures metrics.Snapshot() == old(metrics.Snapshot()).(
                documentCount := metrics.documentCount, documentDurations := metrics.documentDurations,
                vectorDbDocuments := metrics.vectorDbDocuments)
    {
      if success {
        metrics.RecordDocumentProcessing("success", 0.0, chunks);
        var stats := documentProcessor.GetCollectionStats();
        if stats.Stats? {
          metrics.UpdateVectorDbDocuments(stats.totalDocuments);
        }
      } else {
        metrics.RecordDocumentProcessing("error", 0.0, 1);
      }
    }

    /** `delete_document`: the processor's delete and one vector-database operation record. */
    method DeleteDocument(path: string) returns (r: Outcome<Documents.DeleteResult>)
      requires Valid()
      modifies documentProcessor, metrics
      ensures !initialized ==> r == Raise(RuntimeError(NotInitialized)) && metrics.Snapshot() == old(metrics.Snapshot())
      ensures initialized ==>
        && r.Ok?
        && (r.value, documentProcessor.collection)
           == Documents.Deletion(documentProcessor.env, old(documentProcessor.collection), path)
        && (var key := ("delete", if r.value.success then "success" else "error");
            metrics.vectorDbOperations == old(metrics.vectorDbOperations)[key := CountOf2(old(metrics.vectorDbOperations), key) + 1])
        && (r.value.success && documentProcessor.env.countFailure.None? ==>
              metrics.vectorDbDocuments == |documentProcessor.collection|)
        && (!(r.value.success && documentProcessor.env.countFailure.None?) ==>
              metrics.vectorDbDocuments == old(metrics.vectorDbDocuments))
        && metrics.Snapshot() == old(metrics.Snapshot()).(
             vectorDbOperations := metrics.vectorDbOperations, vectorDbDocuments := metrics.vectorDbDocuments)
    {
      if !initialized {
        return Raise(RuntimeError(NotInitialized));
      }
      var result := documentProcessor.DeleteDocument(path);
      if result.success {
        metrics.RecordVectorDbOperation("delete", "success");
        var stats := documentProcessor.GetCollectionStats();
        if stats.Stats? {
          metrics.UpdateVectorDbDocuments(stats.totalDocuments);
        }
      } else {
        metrics.RecordVectorDbOperation("delete", "error");
      }
      r := Ok(result);
    }

    /** `get_system_stats`, reduced to the initialisation flag, the collection
        statistics and the cache hit rate. */
    method GetSystemStats() returns (r: Outcome<SystemStats>)
      requires Valid()
      ensures !initialized ==> r == Raise(RuntimeError(NotInitialized))
      ensures initialized ==>
        && r.Ok? && r.value.initialized
        && r.value.documentProcessor == Documents.CollectionStats(documentProcessor.env, documentProcessor.collection)
        && r.value.cacheHitRate == HitRate(metrics.cacheHits, metrics.cacheMisses)
    {
      if !initialized {
        return Raise(RuntimeError(NotInitialized));
      }
      r := Ok(SystemStats(initialized, documentProcessor.GetCollectionStats(), metrics.SummaryHitRate()));
    }

    /** `get_supported_formats`: the keys of the document processor's format table. */
    method GetSupportedFormats() returns (r: Outcome<seq<string>>)
      requires Valid()
      ensures !initialized ==> r == Raise(RuntimeError(NotInitialized))
      ensures initialized ==> r == Ok(Documents.SupportedFormats)
    {
      if !initialized {
        return Raise(RuntimeError(NotInitialized));
      }
      r := Ok(documentProcessor.SupportedFormatKeys());
    }

    /** `health_check`, building the report component by component. The language-model
        probe asks a test question without the cache, so the cache is left as it was. */
    method HealthCheck(timestamp: real, ping: Outcome<()>) returns (h: Health)
      requires Valid()
      modifies qaProcessor
      ensures !initialized ==> h == HealthOf(false, timestamp, Ok(Documents.StatsError("")), Ok(QA.EmptyResult), "", false, ping)
      ensures initialized ==>
        && h == HealthOf(true, timestamp,
                         Ok(Documents.CollectionStats(documentProcessor.env, documentProcessor.collection)),
                         Ok(QA.Process(qaProcessor.env, qaProcessor.tuning, qaProcessor.cacheEnabled, old(qaProcessor.cache),
                                       HealthQuestion, Some(1), None, false).0),
                         qaProcessor.tuning.ollamaModel, qaProcessor.cacheEnabled, ping)
        && h.status == "healthy"
        && qaProcessor.cache == old(qaProcessor.cache)
    {
      var components: map<string, Component> := map[];
      var status := "healthy";
      components := components["initialization" := Component(if initialized then "healthy" else "unhealthy",
                                                             Some(initialized), None, None, None)];
      if !initialized {
        return Health("unhealthy", timestamp, components);
      }
      var stats := documentProcessor.GetCollectionStats();
      components := components["vector_database" := Component("healthy", None, Some(DocumentCount(stats)), None, None)];
      var testResult := qaProcessor.ProcessQuestion(HealthQuestion, Some(1), None, false);
      components := components["llm" := Component("healthy", None, None, Some(qaProcessor.tuning.ollamaModel), None)];
      if qaProcessor.cacheEnabled {
        if ping.Ok? {
          components := components["cache" := StatusComponent("healthy")];
        } else {
          components := components["cache" := FailedComponent(ping.exc)];
        }
      } else {
        components := components["cache" := StatusComponent("disabled")];
      }
      h := Health(status, timestamp, components);
    }
  }
}
