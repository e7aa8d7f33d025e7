/** The question-answering HTTP routes (src/api/routes/qa.py): shaping a result
    dictionary into a `QuestionResponse`, the failure mapping of `/ask`, the
    counting of `/batch-ask`, the suggestion filter and the feedback check. */
module QARoutes {
  import opened Common
  import QA
  import ApiModels
  import Engine
  import Config

  // ---------------------------------------------------------------- response shaping

  /** A context document as the route reads it: any of its keys may be missing. */
  datatype DocDict = DocDict(content: Option<string>, metadata: Option<Metadata>,
                             similarityScore: Option<real>, rank: Option<int>)

  /** The `ContextDocument` response model. */
  datatype ContextDocument = ContextDocument(content: string, metadata: Metadata, similarityScore: real, rank: int)

  datatype QuestionResponse = QuestionResponse(
    success: bool,
    message: string,
    question: string,
    answer: string,
    contextDocuments: seq<ContextDocument>,
    generationTime: Option<real>,
    totalTime: Option<real>,
    model: Option<string>,
    fromCache: bool,
    tokenCount: Option<QA.TokenCount>,
    retrievalStats: Option<QA.RetrievalStats>)

  /** The dictionary a pipeline context document is: every key present. */
  function AsDict(d: QA.ContextDoc): DocDict {
    DocDict(Some(d.content), Some(d.metadata), Some(d.similarityScore), Some(d.rank))
  }

  /** One context document, a missing key taking its default. */
  function ContextDocumentOf(d: DocDict): (c: ContextDocument)
    ensures d.content.None? ==> c.content == ""
    ensures d.metadata.None? ==> c.metadata == map[]
    ensures d.similarityScore.None? ==> c.similarityScore == 0.0
    ensures d.rank.None? ==> c.rank == 0
    ensures d.content.Some? && d.metadata.Some? && d.similarityScore.Some? && d.rank.Some? ==>
      c == ContextDocument(d.content.value, d.metadata.value, d.similarityScore.value, d.rank.value)
  {
    ContextDocument(QA.GetOr(d.content, ""), QA.GetOr(d.metadata, map[]),
                    QA.GetOr(d.similarityScore, 0.0), QA.GetOr(d.rank, 0))
  }

  /** The documents of a result, one per entry and in order. */
  function ContextDocuments(docs: seq<DocDict>): (out: seq<ContextDocument>)
    ensures |out| == |docs|
    ensures forall i :: 0 <= i < |docs| ==> out[i] == ContextDocumentOf(docs[i])
  {
    seq(|docs|, i requires 0 <= i < |docs| => ContextDocumentOf(docs[i]))
  }

  /** `result.get("context_documents", [])`. */
  function DocDicts(result: QA.QAResult): (ds: seq<DocDict>)
    ensures |ds| == |QA.GetOr(result.contextDocuments, [])|
  {
    var docs := QA.GetOr(result.contextDocuments, []);
    seq(|docs|, i requires 0 <= i < |docs| => AsDict(docs[i]))
  }

  /** `format_question_response`. */
  function Formatted(result: QA.QAResult): (resp: QuestionResponse)
    ensures resp.success <==> result.success == Some(true)
    ensures resp.fromCache <==> result.fromCache == Some(true)
    ensures resp.message == QA.GetOr(result.message, "") && resp.question == QA.GetOr(result.question, "")
    ensures resp.answer == QA.GetOr(result.answer, "")
    ensures resp.tokenCount.Some? <==> result.tokenCount.Some?
    ensures resp.retrievalStats.Some? <==> result.retrievalStats.Some?
    ensures |resp.contextDocuments| == |QA.GetOr(result.contextDocuments, [])|
  {
    QuestionResponse(
      QA.GetOr(result.success, false),
      QA.GetOr(result.message, ""),
      QA.GetOr(result.question, ""),
      QA.GetOr(result.answer, ""),
      ContextDocuments(DocDicts(result)),
      result.generationTime,
      result.totalTime,
      result.model,
      QA.GetOr(result.fromCache, false),
      if result.tokenCount.Some? then
        Some(ApiModels.NewTokenCount(Some(result.tokenCount.value.promptTokens),
                                     Some(result.tokenCount.value.completionTokens),
                                     Some(result.tokenCount.value.totalTokens)))
      else None,
      result.retrievalStats)
  }

  /** Shaping loses nothing the pipeline put in a result: each context document
      keeps its four fields, and the token and retrieval counters their values. */
  lemma FormattedKeepsResult(result: QA.QAResult)
    ensures var resp := Formatted(result);
      && (forall i :: 0 <= i < |QA.GetOr(result.contextDocuments, [])| ==>
            var d := QA.GetOr(result.contextDocuments, [])[i];
            resp.contextDocuments[i] == ContextDocument(d.content, d.metadata, d.similarityScore, d.rank))
      && resp.tokenCount == result.tokenCount
      && resp.retrievalStats == result.retrievalStats
  {
  }

  /** The loop of `format_question_response`. */
  method FormatQuestionResponse(result: QA.QAResult) returns (resp: QuestionResponse)
    ensures resp == Formatted(result)
  {
    var docs := DocDicts(result);
    var contextDocuments: seq<ContextDocument> := [];
    for i := 0 to |docs|
      invariant contextDocuments == ContextDocuments(docs[..i])
    {
      contextDocuments := contextDocuments + [ContextDocumentOf(docs[i])];
    }
    assert docs[..|docs|] == docs;
    resp := Formatted(result).(contextDocuments := contextDocuments);
  }

  // ---------------------------------------------------------------- /ask

  /** `ask_question` after the engine call: an exception becomes HTTP 500 (an
      HTTPException passes through), and so does a result that is not a success,
      carrying the result's message. */
  function AskReply(result: Outcome<QA.QAResult>): (r: Outcome<QuestionResponse>)
    ensures r.Ok? <==> result.Ok? && result.value.success == Some(true)
    ensures r.Ok? ==> r.value == Formatted(result.value) && r.value.success
    ensures result.Ok? && result.value.success != Some(true) ==>
      r == Raise(HTTPException(500, QA.GetOr(result.value.message, "")))
    ensures result.Raise? && !result.exc.HTTPException? ==>
      r == Raise(HTTPException(500, "问答处理失败: " + result.exc.Text()))
    ensures result.Raise? && result.exc.HTTPException? ==> r == Raise(result.exc)
  {
    match result
    case Raise(e) =>
      if e.HTTPException? then Raise(e) else Raise(HTTPException(500, "问答处理失败: " + e.Text()))
    case Ok(res) =>
      var resp := Formatted(res);
      if !resp.success then Raise(HTTPException(500, resp.message)) else Ok(resp)
  }

  /** A question nothing in the index answers is reported as HTTP 500 "未找到相关文档". */
  lemma AskWithoutDocuments(question: string, elapsed: real)
    ensures AskReply(Ok(QA.NoDocsResult(question, elapsed))) == Raise(HTTPException(500, "未找到相关文档"))
  {
  }

  /** A pipeline failure reaches the client as HTTP 500 with the pipeline's message. */
  lemma AskPipelineFailure(question: string, e: Exc, elapsed: real)
    ensures AskReply(Ok(QA.ErrorResult(question, e, elapsed))) == Raise(HTTPException(500, "问答处理失败: " + e.Text()))
  {
  }

  /** `/ask`: the engine answers the validated request, and the reply follows `AskReply`. */
  method AskQuestion(engine: Engine.RAGEngine, request: ApiModels.QuestionRequest, elapsed: real)
    returns (r: Outcome<QuestionResponse>)
    requires engine.Valid() && engine.metrics.Valid()
    modifies engine.qaProcessor, engine.metrics
    ensures !engine.initialized ==>
      && r == Raise(HTTPException(500, "问答处理失败: " + Engine.NotInitialized))
      && engine.metrics.Snapshot() == old(engine.metrics.Snapshot())
      && (engine.qaProcessor != null ==> unchanged(engine.qaProcessor))
    ensures engine.initialized ==>
      var out := QA.Process(engine.qaProcessor.env, engine.qaProcessor.tuning, engine.qaProcessor.cacheEnabled,
                            old(engine.qaProcessor.cache), request.question, request.k,
                            request.similarityThreshold, request.useCache);
      && r == AskReply(Ok(out.0))
      && engine.qaProcessor.cache == out.1
      && engine.metrics.Snapshot() == Engine.Answered(old(engine.metrics.Snapshot()), out.0)
  {
    var result := engine.AnswerQuestion(request.question, request.k, request.similarityThreshold, request.useCache, elapsed);
    if result.Raise? {
      return AskReply(result);
    }
    var response := FormatQuestionResponse(result.value);
    if !response.success {
      return Raise(HTTPException(500, response.message));
    }
    r := Ok(response);
  }

  // ---------------------------------------------------------------- /batch-ask

  datatype BatchQuestionResponse = BatchQuestionResponse(
    success: bool,
    message: string,
    results: seq<QuestionResponse>,
    totalQuestions: nat,
    successCount: nat,
    errorCount: nat,
    totalTime: real)

  /** The number of successful responses. */
  function Successes(rs: seq<QuestionResponse>): (n: nat)
    ensures n <= |rs|
    decreases |rs|
  {
    if rs == [] then 0 else Successes(rs[..|rs| - 1]) + (if rs[|rs| - 1].success then 1 else 0)
  }

  /** Every result shaped, in order. */
  function FormattedAll(results: seq<QA.QAResult>): (rs: seq<QuestionResponse>)
    ensures |rs| == |results|
    ensures forall i :: 0 <= i < |results| ==> rs[i] == Formatted(results[i])
  {
    seq(|results|, i requires 0 <= i < |results| => Formatted(results[i]))
  }

  function BatchMessage(successCount: nat, errorCount: nat): string {
    "批量问答完成: 成功" + NatText(successCount) + "个，失败" + NatText(errorCount) + "个"
  }

  /** `batch_ask_questions` after the engine call: any exception becomes HTTP 500;
      otherwise every result is shaped and counted as a success or an error. */
  function BatchReply(questions: seq<string>, results: Outcome<seq<QA.QAResult>>, totalTime: real)
    : (r: Outcome<BatchQuestionResponse>)
    ensures results.Raise? ==> r == Raise(HTTPException(500, "批量问答处理失败: " + results.exc.Text()))
    ensures results.Ok? ==>
      && r.Ok? && r.value.success
      && r.value.results == FormattedAll(results.value)
      && r.value.totalQuestions == |questions|
      && r.value.successCount + r.value.errorCount == |results.value|
      && r.value.message == BatchMessage(r.value.successCount, r.value.errorCount)
  {
    match results
    case Raise(e) => Raise(HTTPException(500, "批量问答处理失败: " + e.Text()))
    case Ok(rs) =>
      var formatted := FormattedAll(rs);
      var s := Successes(formatted);
      Ok(BatchQuestionResponse(true, BatchMessage(s, |rs| - s), formatted, |questions|, s, |rs| - s, totalTime))
  }

  /** The counting loop of `batch_ask_questions`. */
  method CountResults(results: seq<QA.QAResult>) returns (formatted: seq<QuestionResponse>, successCount: nat, errorCount: nat)
    ensures formatted == FormattedAll(results)
    ensures successCount == Successes(formatted) && successCount + errorCount == |results|
  {
    formatted, successCount, errorCount := [], 0, 0;
    for i := 0 to |results|
      invariant formatted == FormattedAll(results[..i])
      invariant successCount == Successes(formatted) && successCount + errorCount == i
    {
      var response := FormatQuestionResponse(results[i]);
      assert formatted + [response] == FormattedAll(results[..i + 1]);
      formatted := formatted + [response];
      assert formatted[..|formatted| - 1] == FormattedAll(results[..i]);
      if response.success {
        successCount := successCount + 1;
      } else {
        errorCount := errorCount + 1;
      }
    }
    assert results[..|results|] == results;
  }

  /** The reply `BatchReply` builds from the counts of the loop. */
  lemma BatchReplyOf(questions: seq<string>, results: seq<QA.QAResult>, formatted: seq<QuestionResponse>,
                     successCount: nat, errorCount: nat, totalTime: real)
    requires formatted == FormattedAll(results)
    requires successCount == Successes(formatted) && successCount + errorCount == |results|
    ensures BatchReply(questions, Ok(results), totalTime)
         == Ok(BatchQuestionResponse(true, BatchMessage(successCount, errorCount), formatted,
                                     |questions|, successCount, errorCount, totalTime))
  {
  }

  /** Counting a batch from the engine: every question is answered once, so the
      successes and errors add up to the number of questions, and response `i`
      succeeded exactly when the pipeline's answer to question `i` did. */
  lemma BatchReplyCountsEveryQuestion(env: QA.Env, t: Config.Tuning, cacheEnabled: bool, cache: map<string, QA.QAResult>,
                                      questions: seq<string>, k: Option<int>, threshold: Option<real>, useCache: bool,
                                      totalTime: real)
    ensures var results := QA.Batch(env, t, cacheEnabled, cache, questions, k, threshold, useCache).0;
      var r := BatchReply(questions, Ok(results), totalTime);
      && r.Ok?
      && r.value.totalQuestions == r.value.successCount + r.value.errorCount
      && (forall i :: 0 <= i < |questions| ==> (r.value.results[i].success <==> results[i].success == Some(true)))
  {
  }

  /** `/batch-ask`: the engine's batch, then `BatchReply`. */
  method BatchAskQuestions(engine: Engine.RAGEngine, request: ApiModels.BatchQuestionRequest, totalTime: real)
    returns (r: Outcome<BatchQuestionResponse>)
    requires engine.Valid()
    modifies engine.qaProcessor, engine.metrics
    ensures !engine.initialized ==>
      && r == Raise(HTTPException(500, "批量问答处理失败: " + Engine.NotInitialized))
      && engine.metrics.Snapshot() == old(engine.metrics.Snapshot())
      && (engine.qaProcessor != null ==> unchanged(engine.qaProcessor))
    ensures engine.initialized ==>
      var out := QA.Batch(engine.qaProcessor.env, engine.qaProcessor.tuning, engine.qaProcessor.cacheEnabled,
                          old(engine.qaProcessor.cache), request.questions, request.k,
                          request.similarityThreshold, request.useCache);
      && r == BatchReply(request.questions, Ok(out.0), totalTime)
      && engine.qaProcessor.cache == out.1
      && engine.metrics.Snapshot() == old(engine.metrics.Snapshot()).(
           qaCount := Engine.CountStatuses(old(engine.metrics.qaCount), out.0),
           qaDurations := old(engine.metrics.qaDurations) + Engine.BatchDurations(out.0),
           retrievalObservations := Engine.ObserveAll(old(engine.metrics.retrievalObservations), out.0))
  {
    var results := engine.BatchAnswerQuestions(request.questions, request.k, request.similarityThreshold, request.useCache);
    if results.Raise? {
      return BatchReply(request.questions, results, totalTime);
    }
    var formatted, successCount, errorCount := CountResults(results.value);
    BatchReplyOf(request.questions, results.value, formatted, successCount, errorCount, totalTime);
    r := Ok(BatchQuestionResponse(true, BatchMessage(successCount, errorCount), formatted,
                                  |request.questions|, successCount, errorCount, totalTime));
  }

  // ---------------------------------------------------------------- /suggestions

  const SampleSuggestions: seq<string> := [
    "这个文档的主要内容是什么？",
    "有哪些重要的概念或术语？",
    "文档中提到了哪些关键信息？",
    "能否总结一下主要观点？",
    "有什么需要注意的地方？"
  ]

  /** `[s for s in samples if q in s.lower()]`. */
  function Matching(samples: seq<string>, q: string): (r: seq<string>)
    ensures |r| <= |samples|
    ensures forall s :: s in r <==> s in samples && Contains(Lower(s), q)
    decreases |samples|
  {
    if samples == [] then []
    else
      var n := |samples| - 1;
      Matching(samples[..n], q) + (if Contains(Lower(samples[n]), q) then [samples[n]] else [])
  }

  /** The empty text occurs in every text, so an empty filter keeps every sample. */
  lemma {:induction false} MatchingEmpty(samples: seq<string>)
    ensures Matching(samples, "") == samples
    decreases |samples|
  {
    if samples != [] {
      var n := |samples| - 1;
      MatchingEmpty(samples[..n]);
      assert OccursAt(Lower(samples[n]), "", 0);
      assert samples[..n] + [samples[n]] == samples;
    }
  }

  /** The suggestions before truncation. */
  function Candidates(query: string): (r: seq<string>)
    ensures query == "" ==> r == SampleSuggestions
    ensures query != "" ==> r == Matching(SampleSuggestions, Lower(query))
  {
    if query != "" then Matching(SampleSuggestions, Lower(query)) else SampleSuggestions
  }

  datatype SuggestionReply = SuggestionReply(suggestions: seq<string>, query: string, totalCount: nat)

  /** `get_question_suggestions`. */
  function Suggestions(query: string, limit: int): (r: SuggestionReply)
    ensures r.query == query && r.totalCount == |Candidates(query)| <= 5
    ensures |r.suggestions| <= r.totalCount && r.suggestions == Candidates(query)[..|r.suggestions|]
    ensures 0 <= limit <= r.totalCount ==> |r.suggestions| == limit
    ensures limit > r.totalCount ==> |r.suggestions| == r.totalCount
  {
    var all := Candidates(query);
    SuggestionReply(SliceTo(all, limit), query, |all|)
  }

  /** Every suggestion is a sample containing the query, ignoring ASCII case, and
      with an empty query the first `limit` samples are returned. */
  lemma SuggestionsMatchQuery(query: string, limit: int)
    ensures forall s :: s in Suggestions(query, limit).suggestions ==>
      s in SampleSuggestions && Contains(Lower(s), Lower(query))
    ensures query == "" ==> Suggestions(query, limit).suggestions == SliceTo(SampleSuggestions, limit)
  {
    var r := Suggestions(query, limit);
    forall s | s in r.suggestions
      ensures s in SampleSuggestions && Contains(Lower(s), Lower(query))
    {
      var all := Candidates(query);
      assert s in all;
      if query == "" {
        assert OccursAt(Lower(s), Lower(query), 0);
      }
    }
  }

  // ---------------------------------------------------------------- /feedback

  datatype FeedbackReceipt = FeedbackReceipt(message: string, feedbackId: string)

  /** `int(x)`: truncation toward zero. */
  function Trunc(x: real): (n: int)
    ensures x >= 0.0 ==> n == x.Floor
    ensures x < 0.0 ==> n == -((-x).Floor)
  {
    if x >= 0.0 then x.Floor else -((-x).Floor)
  }

  /** `submit_feedback`: a rating outside 1..5 is HTTP 400; otherwise the feedback is
      acknowledged with an id built from the clock reading `now`. */
  function SubmitFeedback(question: string, answer: string, rating: int, feedback: string, now: real)
    : (r: Outcome<FeedbackReceipt>)
    ensures r.Raise? <==> !(1 <= rating <= 5)
    ensures r.Raise? ==> r.exc == HTTPException(400, "评分必须在1-5之间")
    ensures r.Ok? ==> r.value.feedbackId == "fb_" + IntText(Trunc(now))
  {
    if !(1 <= rating <= 5) then Raise(HTTPException(400, "评分必须在1-5之间"))
    else Ok(FeedbackReceipt("反馈提交成功，感谢您的反馈！", "fb_" + IntText(Trunc(now))))
  }
}
