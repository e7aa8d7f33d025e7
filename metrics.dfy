/** The process-wide metrics collector (src/utils/metrics.py): the cache hit/miss
    counters it keeps itself, the Prometheus series it feeds (kept here as plain
    per-label counts and lists of observations), and the `metrics_middleware`
    decorator that picks a series from the wrapped function's name. */
module Metrics {
  import opened Common

  /** `cache_hits / (cache_hits + cache_misses)`, or 0 before any lookup was counted. */
  function HitRate(hits: nat, misses: nat): (r: real)
    ensures 0.0 <= r <= 1.0
    ensures hits + misses == 0 ==> r == 0.0
    ensures hits + misses > 0 ==> r * (hits + misses) as real == hits as real
  {
    if hits + misses > 0 then hits as real / (hits + misses) as real else 0.0
  }

  /** The hit and miss counters after one `record_cache_operation`. */
  function CountersAfter(hits: nat, misses: nat, operation: string, isHit: Option<bool>): (c: (nat, nat))
    ensures operation != "get" || isHit == None ==> c == (hits, misses)
    ensures operation == "get" && isHit == Some(true) ==> c == (hits + 1, misses)
    ensures operation == "get" && isHit == Some(false) ==> c == (hits, misses + 1)
  {
    if operation == "get" && isHit.Some? then
      (if isHit.value then (hits + 1, misses) else (hits, misses + 1))
    else (hits, misses)
  }

  /** Every counted lookup moves exactly one of the two counters, by one. */
  lemma CountedLookupMovesOneCounter(hits: nat, misses: nat, operation: string, isHit: Option<bool>)
    requires operation == "get" && isHit.Some?
    ensures var c := CountersAfter(hits, misses, operation, isHit);
      c.0 + c.1 == hits + misses + 1 && c.0 >= hits && c.1 >= misses
  {
  }

  function Bump(m: map<string, nat>, lbl: string, amount: nat): (m': map<string, nat>)
    ensures m'.Keys == m.Keys + {lbl}
    ensures m'[lbl] == (if lbl in m then m[lbl] else 0) + amount
    ensures forall l :: l in m && l != lbl ==> m'[l] == m[l]
  {
    m[lbl := (if lbl in m then m[lbl] else 0) + amount]
  }

  /** The observations of `qa_retrieval_documents` after recording `retrievedDocs`. */
  function ObserveRetrieval(observed: seq<int>, retrievedDocs: int): (o: seq<int>)
    ensures retrievedDocs > 0 ==> o == observed + [retrievedDocs]
    ensures retrievedDocs <= 0 ==> o == observed
  {
    if retrievedDocs > 0 then observed + [retrievedDocs] else observed
  }

  /** Which series `metrics_middleware` records for a wrapped function. */
  datatype MetricKind = QAMetric | DocumentMetric | NoMetric

  /** Name-based dispatch of `metrics_middleware`. */
  function KindForName(name: string): (k: MetricKind)
    ensures k == QAMetric <==> Contains(name, "process_question")
    ensures k == DocumentMetric ==> Contains(name, "process_file") || Contains(name, "process_document")
    ensures k == NoMetric ==>
      !Contains(name, "process_question") && !Contains(name, "process_file") && !Contains(name, "process_document")
  {
    if Contains(name, "process_question") then QAMetric
    else if Contains(name, "process_file") || Contains(name, "process_document") then DocumentMetric
    else NoMetric
  }

  /** The status label the decorator records: "error" exactly when the wrapped call raised. */
  function StatusOf<T>(call: Outcome<T>): (s: string)
    ensures s == "error" <==> call.Raise?
    ensures s == "success" <==> call.Ok?
  {
    if call.Raise? then "error" else "success"
  }

  /** `sub` does not occur at index `i` of `s`, witnessed by the character at offset `j`. */
  lemma DiffersAt(s: string, sub: string, i: int, j: int)
    requires 0 <= i <= |s| - |sub| && 0 <= j < |sub| && s[i + j] != sub[j]
    ensures !OccursAt(s, sub, i)
  {
    assert s[i..i + |sub|][j] == s[i + j];
  }

  /** Of the three engine methods the decorator wraps, only `process_document`
      matches a name the decorator looks for: answering a question and processing
      a directory record nothing through it. */
  lemma DecoratedEngineMethods()
    ensures KindForName("process_document") == DocumentMetric
    ensures KindForName("process_directory") == NoMetric
    ensures KindForName("answer_question") == NoMetric
  {
    DocumentMethodMatches();
    DirectoryMethodUnmatched();
    AnswerMethodUnmatched();
  }

  lemma DocumentMethodMatches()
    ensures KindForName("process_document") == DocumentMetric
  {
    var doc := "process_document";
    assert OccursAt(doc, "process_document", 0);
    DiffersAt(doc, "process_question", 0, 8);
    assert !Contains(doc, "process_question");
  }

  lemma DirectoryMethodUnmatched()
    ensures KindForName("process_directory") == NoMetric
  {
    var dir := "process_directory";
    DiffersAt(dir, "process_question", 0, 8);
    DiffersAt(dir, "process_question", 1, 8);
    assert !Contains(dir, "process_question");
    DiffersAt(dir, "process_file", 0, 8);
    DiffersAt(dir, "process_file", 1, 8);
    DiffersAt(dir, "process_file", 2, 8);
    DiffersAt(dir, "process_file", 3, 8);
    DiffersAt(dir, "process_file", 4, 8);
    DiffersAt(dir, "process_file", 5, 8);
    assert !Contains(dir, "process_file");
    DiffersAt(dir, "process_document", 0, 9);
    DiffersAt(dir, "process_document", 1, 9);
    assert !Contains(dir, "process_document");
  }

  lemma AnswerMethodUnmatched()
    ensures KindForName("answer_question") == NoMetric
  {
    var ans := "answer_question";
    DiffersAt(ans, "process_file", 0, 0);
    DiffersAt(ans, "process_file", 1, 0);
    DiffersAt(ans, "process_file", 2, 0);
    DiffersAt(ans, "process_file", 3, 0);
    assert !Contains(ans, "process_file");
  }

  /** Everything a collector holds, field by field, so that a caller can say in one
      clause which of them a call leaves as they were. */
  datatype Readings = Readings(
    cacheHits: nat, cacheMisses: nat, hitRateGauge: real,
    cacheOperations: map<(string, string), nat>,
    qaCount: map<string, nat>, qaDurations: seq<real>, retrievalObservations: seq<int>,
    documentCount: map<string, nat>, documentDurations: seq<real>,
    vectorDbOperations: map<(string, string), nat>, vectorDbDocuments: int,
    requestCount: map<(string, string, string), nat>, requestDurations: seq<(string, string, real)>)

  class MetricsCollector {
    var cacheHits: nat
    var cacheMisses: nat
    /** Last value set on the `cache_hit_rate` gauge. */
    var hitRateGauge: real
    /** `cache_operations` by (operation, status). */
    var cacheOperations: map<(string, string), nat>
    /** `qa_processing_count` by status, and the `qa_processing_duration` observations. */
    var qaCount: map<string, nat>
    var qaDurations: seq<real>
    /** Observations of `qa_retrieval_documents`. */
    var retrievalObservations: seq<int>
    /** `document_processing_count` by status, and the `document_processing_duration` observations. */
    var documentCount: map<string, nat>
    var documentDurations: seq<real>
    /** `vector_db_operations` by (operation, status), and the `vector_db_documents` gauge. */
    var vectorDbOperations: map<(string, string), nat>
    var vectorDbDocuments: int
    /** `api_requests_total` by (endpoint, method, status), and the `api_request_duration`
        observations with their (endpoint, method) labels. */
    var requestCount: map<(string, string, string), nat>
    var requestDurations: seq<(string, string, real)>

    /** The gauge always holds the hit rate of the counters. */
    ghost predicate Valid()
      reads this
    {
      hitRateGauge == HitRate(cacheHits, cacheMisses)
    }

    constructor ()
      ensures Valid()
      ensures cacheHits == 0 && cacheMisses == 0
      ensures cacheOperations == map[] && qaCount == map[] && documentCount == map[]
      ensures qaDurations == [] && retrievalObservations == [] && documentDurations == []
      ensures vectorDbOperations == map[] && vectorDbDocuments == 0
      ensures requestCount == map[] && requestDurations == []
    {
      requestCount, requestDurations := map[], [];
      cacheHits, cacheMisses, hitRateGauge := 0, 0, 0.0;
      vectorDbOperations, vectorDbDocuments := map[], 0;
      cacheOperations, qaCount, documentCount := map[], map[], map[];
      qaDurations, retrievalObservations, documentDurations := [], [], [];
    }

    /** The collector's current readings. */
    function Snapshot(): Readings
      reads this
    {
      Readings(cacheHits, cacheMisses, hitRateGauge, cacheOperations,
               qaCount, qaDurations, retrievalObservations, documentCount, documentDurations,
               vectorDbOperations, vectorDbDocuments, requestCount, requestDurations)
    }

    /** `get_metrics_summary()["cache_hit_rate"]`. */
    function SummaryHitRate(): (r: real)
      reads this
      ensures 0.0 <= r <= 1.0
    {
      HitRate(cacheHits, cacheMisses)
    }

    method RecordCacheOperation(operation: string, status: string, isHit: Option<bool>)
      requires Valid()
      modifies this
      ensures Valid()
      ensures (cacheHits, cacheMisses) == CountersAfter(old(cacheHits), old(cacheMisses), operation, isHit)
      ensures var key := (operation, status);
        cacheOperations == old(cacheOperations)[key := (if key in old(cacheOperations) then old(cacheOperations)[key] else 0) + 1]
      ensures qaCount == old(qaCount) && qaDurations == old(qaDurations)
      ensures retrievalObservations == old(retrievalObservations)
      ensures documentCount == old(documentCount) && documentDurations == old(documentDurations)
      ensures vectorDbOperations == old(vectorDbOperations) && vectorDbDocuments == old(vectorDbDocuments)
      ensures requestCount == old(requestCount) && requestDurations == old(requestDurations)
      ensures Snapshot() == old(Snapshot()).(cacheHits := cacheHits, cacheMisses := cacheMisses,
                                             hitRateGauge := hitRateGauge, cacheOperations := cacheOperations)
    {
      var key := (operation, status);
      cacheOperations := cacheOperations[key := (if key in cacheOperations then cacheOperations[key] else 0) + 1];
      if operation == "get" && isHit.Some? {
        if isHit.value {
          cacheHits := cacheHits + 1;
        } else {
          cacheMisses := cacheMisses + 1;
        }
        var total := cacheHits + cacheMisses;
        if total > 0 {
          hitRateGauge := cacheHits as real / total as real;
        }
      }
    }

    method RecordQAProcessing(status: string, duration: real, retrievedDocs: int)
      modifies this
      ensures qaCount == Bump(old(qaCount), status, 1)
      ensures qaDurations == old(qaDurations) + [duration]
      ensures retrievalObservations == ObserveRetrieval(old(retrievalObservations), retrievedDocs)
      ensures cacheHits == old(cacheHits) && cacheMisses == old(cacheMisses)
      ensures hitRateGauge == old(hitRateGauge) && cacheOperations == old(cacheOperations)
      ensures documentCount == old(documentCount) && documentDurations == old(documentDurations)
      ensures vectorDbOperations == old(vectorDbOperations) && vectorDbDocuments == old(vectorDbDocuments)
      ensures requestCount == old(requestCount) && requestDurations == old(requestDurations)
      ensures Snapshot() == old(Snapshot()).(qaCount := qaCount, qaDurations := qaDurations,
                                             retrievalObservations := retrievalObservations)
    {
      qaCount := Bump(qaCount, status, 1);
      qaDurations := qaDurations + [duration];
      if retrievedDocs > 0 {
        retrievalObservations := retrievalObservations + [retrievedDocs];
      }
    }

    /** `document_processing_count.labels(status).inc(count)`: Prometheus refuses a
        negative increment, so `count` is at least 0 here. */
    method RecordDocumentProcessing(status: string, duration: real, count: nat)
      modifies this
      ensures documentCount == Bump(old(documentCount), status, count)
      ensures documentDurations == old(documentDurations) + [duration]
      ensures cacheHits == old(cacheHits) && cacheMisses == old(cacheMisses)
      ensures hitRateGauge == old(hitRateGauge) && cacheOperations == old(cacheOperations)
      ensures qaCount == old(qaCount) && qaDurations == old(qaDurations)
      ensures retrievalObservations == old(retrievalObservations)
      ensures vectorDbOperations == old(vectorDbOperations) && vectorDbDocuments == old(vectorDbDocuments)
      ensures requestCount == old(requestCount) && requestDurations == old(requestDurations)
      ensures Snapshot() == old(Snapshot()).(documentCount := documentCount, documentDurations := documentDurations)
    {
      documentCount := Bump(documentCount, status, count);
      documentDurations := documentDurations + [duration];
    }

    /** `record_vector_db_operation`. */
    method RecordVectorDbOperation(operation: string, status: string)
      modifies this
      ensures var key := (operation, status);
        vectorDbOperations == old(vectorDbOperations)[key := (if key in old(vectorDbOperations) then old(vectorDbOperations)[key] else 0) + 1]
      ensures vectorDbDocuments == old(vectorDbDocuments)
      ensures cacheHits == old(cacheHits) && cacheMisses == old(cacheMisses)
      ensures hitRateGauge == old(hitRateGauge) && cacheOperations == old(cacheOperations)
      ensures qaCount == old(qaCount) && qaDurations == old(qaDurations)
      ensures retrievalObservations == old(retrievalObservations)
      ensures documentCount == old(documentCount) && documentDurations == old(documentDurations)
      ensures requestCount == old(requestCount) && requestDurations == old(requestDurations)
      ensures Snapshot() == old(Snapshot()).(vectorDbOperations := vectorDbOperations)
    {
      var key := (operation, status);
      vectorDbOperations := vectorDbOperations[key := (if key in vectorDbOperations then vectorDbOperations[key] else 0) + 1];
    }

    /** `update_vector_db_documents`. */
    method UpdateVectorDbDocuments(count: int)
      modifies this
      ensures vectorDbDocuments == count && vectorDbOperations == old(vectorDbOperations)
      ensures cacheHits == old(cacheHits) && cacheMisses == old(cacheMisses)
      ensures hitRateGauge == old(hitRateGauge) && cacheOperations == old(cacheOperations)
      ensures qaCount == old(qaCount) && qaDurations == old(qaDurations)
      ensures retrievalObservations == old(retrievalObservations)
      ensures documentCount == old(documentCount) && documentDurations == old(documentDurations)
      ensures requestCount == old(requestCount) && requestDurations == old(requestDurations)
      ensures Snapshot() == old(Snapshot()).(vectorDbDocuments := count)
    {
      vectorDbDocuments := count;
    }

    /** `record_request`: one more request counted under its three labels, and its
        duration observed under (endpoint, method). */
    method RecordRequest(endpoint: string, httpMethod: string, status: string, duration: real)
      modifies this
      ensures var key := (endpoint, httpMethod, status);
        requestCount == old(requestCount)[key := (if key in old(requestCount) then old(requestCount)[key] else 0) + 1]
      ensures requestDurations == old(requestDurations) + [(endpoint, httpMethod, duration)]
      ensures cacheHits == old(cacheHits) && cacheMisses == old(cacheMisses)
      ensures hitRateGauge == old(hitRateGauge) && cacheOperations == old(cacheOperations)
      ensures qaCount == old(qaCount) && qaDurations == old(qaDurations)
      ensures retrievalObservations == old(retrievalObservations)
      ensures documentCount == old(documentCount) && documentDurations == old(documentDurations)
      ensures vectorDbOperations == old(vectorDbOperations) && vectorDbDocuments == old(vectorDbDocuments)
      ensures Snapshot() == old(Snapshot()).(requestCount := requestCount, requestDurations := requestDurations)
    {
      var key := (endpoint, httpMethod, status);
      requestCount := requestCount[key := (if key in requestCount then requestCount[key] else 0) + 1];
      requestDurations := requestDurations + [(endpoint, httpMethod, duration)];
    }

    /** `metrics_middleware` around a call to a function named `name` that took
        `duration` seconds: records the series chosen by the name with the call's
        status, then hands back what the call returned or raised. */
    method Instrument<T>(name: string, call: Outcome<T>, duration: real) returns (r: Outcome<T>)
      modifies this
      ensures r == call
      ensures KindForName(name) == QAMetric ==>
        qaCount == Bump(old(qaCount), StatusOf(call), 1) && qaDurations == old(qaDurations) + [duration]
        && documentCount == old(documentCount) && documentDurations == old(documentDurations)
      ensures KindForName(name) == DocumentMetric ==>
        documentCount == Bump(old(documentCount), StatusOf(call), 1) && documentDurations == old(documentDurations) + [duration]
        && qaCount == old(qaCount) && qaDurations == old(qaDurations)
      ensures KindForName(name) == NoMetric ==>
        qaCount == old(qaCount) && qaDurations == old(qaDurations)
        && documentCount == old(documentCount) && documentDurations == old(documentDurations)
      ensures retrievalObservations == old(retrievalObservations)
      ensures cacheHits == old(cacheHits) && cacheMisses == old(cacheMisses)
      ensures hitRateGauge == old(hitRateGauge) && cacheOperations == old(cacheOperations)
      ensures vectorDbOperations == old(vectorDbOperations) && vectorDbDocuments == old(vectorDbDocuments)
      ensures requestCount == old(requestCount) && requestDurations == old(requestDurations)
      ensures KindForName(name) == NoMetric ==> Snapshot() == old(Snapshot())
      ensures Snapshot() == old(Snapshot()).(qaCount := qaCount, qaDurations := qaDurations,
                                             documentCount := documentCount, documentDurations := documentDurations)
    {
      var status := StatusOf(call);
      var kind := KindForName(name);
      if kind == QAMetric {
        RecordQAProcessing(status, duration, 0);
      } else if kind == DocumentMetric {
        RecordDocumentProcessing(status, duration, 1);
      }
      r := call;
    }
  }
}
