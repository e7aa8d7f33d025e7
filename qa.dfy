/** The retrieval-augmented question-answering pipeline of `QAProcessor`
    (src/core/qa_processor.py): cache-key derivation, similarity filtering of
    index hits, context and token assembly, the per-request decision sequence
    and the order-preserving batch. The embedder, the vector index, the language
    model and the cache's failure modes are oracles held in an `Env`; the cache
    contents are a map the processor owns. */
module QA {
  import opened Common
  import opened Config

  // ---------------------------------------------------------------- data

  /** One row of the vector index's answer for the first query embedding. */
  datatype Hit = Hit(content: string, metadata: Metadata, distance: real)

  /** The index's query answer: one list per query embedding for each field. */
  datatype QueryResult = QueryResult(
    documents: seq<seq<string>>,
    metadatas: seq<seq<Metadata>>,
    distances: seq<seq<real>>)

  /** A retrieved context document. */
  datatype ContextDoc = ContextDoc(content: string, metadata: Metadata, similarityScore: real, rank: int)

  /** The request body sent to the language model. */
  datatype GenerateRequest = GenerateRequest(model: string, prompt: string, temperature: real, numPredict: int)

  /** The language model's JSON answer; None marks a key that is absent. */
  datatype LLMResponse = LLMResponse(response: Option<string>, promptEvalCount: Option<int>, evalCount: Option<int>)

  datatype TokenCount = TokenCount(promptTokens: int, completionTokens: int, totalTokens: int)

  datatype RetrievalStats = RetrievalStats(retrievedCount: int, similarityThreshold: real, avgSimilarity: real)

  /** What `generate_answer` returns. */
  datatype AnswerData = AnswerData(
    answer: string,
    question: string,
    contextDocuments: seq<ContextDoc>,
    generationTime: real,
    model: string,
    timestamp: string,
    tokenCount: TokenCount)

  /** A result dictionary; each key is either absent (None) or holds its value. */
  datatype QAResult = QAResult(
    success: Option<bool>,
    message: Option<string>,
    answer: Option<string>,
    question: Option<string>,
    contextDocuments: Option<seq<ContextDoc>>,
    error: Option<string>,
    fromCache: Option<bool>,
    totalTime: Option<real>,
    retrievalStats: Option<RetrievalStats>,
    tokenCount: Option<TokenCount>,
    generationTime: Option<real>,
    model: Option<string>,
    timestamp: Option<string>)

  /** The empty dictionary `{}`: the only falsy result. */
  const EmptyResult := QAResult(None, None, None, None, None, None, None, None, None, None, None, None, None)

  /** External behaviour the processor depends on but does not define. */
  datatype Env = Env(
    embed: string -> Outcome<seq<real>>,                 // the sentence embedder
    query: (seq<real>, int) -> Outcome<QueryResult>,     // the vector index
    generate: GenerateRequest -> Outcome<LLMResponse>,   // the language-model HTTP call
    digest: string -> string,                            // MD5 hex digest
    floatText: real -> string,                           // `str(float)`
    scoreText: real -> string,                           // `f"{x:.3f}"`
    cacheGetRaises: string -> bool,                      // the cache read or JSON parse fails for a key
    cacheSetRaises: string -> bool,                      // the cache write fails for a key
    elapsed: real,                                       // `time.time() - start_time`
    generationTime: real,
    timestamp: string)

  // ---------------------------------------------------------------- cache key

  /** The text whose digest names the cache entry: the caller's `k` (or the configured
      one) but always the configured threshold. */
  function CacheKeyContent(env: Env, t: Tuning, question: string, k: Option<int>): string {
    question + "_" + IntText(OrInt(k, t.retrievalK)) + "_" + env.floatText(t.similarityThreshold)
  }

  function CacheKey(env: Env, t: Tuning, question: string, k: Option<int>): (key: string)
    ensures StartsWith(key, "qa:")
  {
    "qa:" + env.digest(CacheKeyContent(env, t, question, k))
  }

  /** A missing or zero `k` names the same entry as the configured `k`. */
  lemma CacheKeyDefaultsK(env: Env, t: Tuning, question: string)
    ensures CacheKey(env, t, question, None) == CacheKey(env, t, question, Some(t.retrievalK))
    ensures CacheKey(env, t, question, Some(0)) == CacheKey(env, t, question, Some(t.retrievalK))
  {
  }

  /** Distinct questions or distinct effective `k` give distinct digested texts, so
      only a digest collision can make two such requests share an entry. */
  lemma CacheKeyContentInjective(env: Env, t: Tuning, q1: string, k1: Option<int>, q2: string, k2: Option<int>)
    requires CacheKeyContent(env, t, q1, k1) == CacheKeyContent(env, t, q2, k2)
    ensures q1 == q2 && OrInt(k1, t.retrievalK) == OrInt(k2, t.retrievalK)
  {
    var f := env.floatText(t.similarityThreshold);
    var a1, a2 := IntText(OrInt(k1, t.retrievalK)), IntText(OrInt(k2, t.retrievalK));
    var l1, l2 := q1 + "_" + a1, q2 + "_" + a2;
    assert l1 + "_" + f == CacheKeyContent(env, t, q1, k1);
    assert l2 + "_" + f == CacheKeyContent(env, t, q2, k2);
    assert |l1| == |l2|;
    assert l1 == (l1 + "_" + f)[..|l1|] == (l2 + "_" + f)[..|l2|] == l2;
    IntTextNoUnderscore(OrInt(k1, t.retrievalK));
    IntTextNoUnderscore(OrInt(k2, t.retrievalK));
    SplitAtLastUnderscore(q1, a1, q2, a2);
    IntTextInjective(OrInt(k1, t.retrievalK), OrInt(k2, t.retrievalK));
  }

  // ---------------------------------------------------------------- retrieval

  function Min3(a: int, b: int, c: int): (m: int)
    ensures m <= a && m <= b && m <= c && (m == a || m == b || m == c)
  {
    if a <= b && a <= c then a else if b <= c then b else c
  }

  /** `zip(documents[0], metadatas[0], distances[0])`, or `[]` when the first
      document list is missing or empty; indexing an empty metadata or distance
      list raises. */
  function FirstHits(res: QueryResult): (r: Outcome<seq<Hit>>)
    ensures (res.documents == [] || res.documents[0] == []) ==> r == Ok([])
    ensures r.Raise? <==> res.documents != [] && res.documents[0] != [] && (res.metadatas == [] || res.distances == [])
    ensures r.Ok? && r.value != [] ==>
      |r.value| == Min3(|res.documents[0]|, |res.metadatas[0]|, |res.distances[0]|) &&
      forall i :: 0 <= i < |r.value| ==>
        r.value[i] == Hit(res.documents[0][i], res.metadatas[0][i], res.distances[0][i])
  {
    if res.documents == [] || res.documents[0] == [] then Ok([])
    else if res.metadatas == [] || res.distances == [] then Raise(IndexError("list index out of range"))
    else
      var d, m, s := res.documents[0], res.metadatas[0], res.distances[0];
      Ok(seq(Min3(|d|, |m|, |s|), i requires 0 <= i < Min3(|d|, |m|, |s|) => Hit(d[i], m[i], s[i])))
  }

  /** The document hit `i` becomes: score `1 - distance`, rank `i + 1` in the unfiltered list. */
  function DocFor(hits: seq<Hit>, i: nat): ContextDoc
    requires i < |hits|
  {
    ContextDoc(hits[i].content, hits[i].metadata, 1.0 - hits[i].distance, i + 1)
  }

  /** The hits whose similarity reaches the threshold, in index order, each ranked by
      its position before filtering. */
  function Kept(hits: seq<Hit>, threshold: real): (docs: seq<ContextDoc>)
    ensures |docs| <= |hits|
    ensures forall j :: 0 <= j < |docs| ==>
      1 <= docs[j].rank <= |hits| && docs[j] == DocFor(hits, docs[j].rank - 1) && docs[j].similarityScore >= threshold
    decreases |hits|
  {
    if hits == [] then []
    else
      var n := |hits| - 1;
      var prefix := Kept(hits[..n], threshold);
      assert forall j :: 0 <= j < |prefix| ==> DocFor(hits[..n], prefix[j].rank - 1) == DocFor(hits, prefix[j].rank - 1);
      if 1.0 - hits[n].distance >= threshold then prefix + [DocFor(hits, n)] else prefix
  }

  predicate RanksIncrease(docs: seq<ContextDoc>) {
    forall j, l :: 0 <= j < l < |docs| ==> docs[j].rank < docs[l].rank
  }

  /** Ranks strictly increase: survivors keep the index order. */
  lemma {:induction false} KeptRanksIncrease(hits: seq<Hit>, threshold: real)
    ensures RanksIncrease(Kept(hits, threshold))
    decreases |hits|
  {
    if hits != [] {
      var n := |hits| - 1;
      KeptRanksIncrease(hits[..n], threshold);
      var prefix, docs := Kept(hits[..n], threshold), Kept(hits, threshold);
      if 1.0 - hits[n].distance >= threshold {
        assert docs == prefix + [DocFor(hits, n)];
      } else {
        assert docs == prefix;
      }
      forall j, l | 0 <= j < l < |docs| ensures docs[j].rank < docs[l].rank {
        assert docs[j] == prefix[j];
        if l < |prefix| {
          assert docs[l] == prefix[l];
          assert prefix[j].rank < prefix[l].rank;
        } else {
          assert prefix[j].rank <= n;
          assert docs[l] == DocFor(hits, n);
          assert docs[l].rank == n + 1;
        }
      }
    }
  }

  predicate HasRank(docs: seq<ContextDoc>, rank: int) {
    exists j :: 0 <= j < |docs| && docs[j].rank == rank
  }

  /** A hit survives exactly when its similarity reaches the threshold. */
  lemma {:induction false} KeptComplete(hits: seq<Hit>, threshold: real, i: nat)
    requires i < |hits|
    ensures 1.0 - hits[i].distance >= threshold <==> HasRank(Kept(hits, threshold), i + 1)
    decreases |hits|
  {
    var n := |hits| - 1;
    var prefix, docs := Kept(hits[..n], threshold), Kept(hits, threshold);
    if 1.0 - hits[n].distance >= threshold {
      assert docs == prefix + [DocFor(hits, n)];
    } else {
      assert docs == prefix;
    }
    assert docs[..|prefix|] == prefix;
    if i < n {
      KeptComplete(hits[..n], threshold, i);
      assert hits[..n][i] == hits[i];
      if 1.0 - hits[i].distance >= threshold {
        var j :| 0 <= j < |prefix| && prefix[j].rank == i + 1;
        assert docs[j] == prefix[j];
        assert 0 <= j < |docs| && docs[j].rank == i + 1;
      } else {
        assert !HasRank(prefix, i + 1);
        forall j | 0 <= j < |docs| ensures docs[j].rank != i + 1 {
          if j < |prefix| {
            assert docs[j] == prefix[j];
          } else {
            assert docs[j] == DocFor(hits, n);
          }
        }
      }
    } else if 1.0 - hits[i].distance >= threshold {
      assert docs[|prefix|].rank == i + 1;
    } else {
      forall j | 0 <= j < |docs| ensures docs[j].rank != i + 1 {
        assert docs[j] == prefix[j];
      }
    }
  }

  /** Nothing from the index, nothing retrieved. */
  lemma KeptEmpty(threshold: real)
    ensures Kept([], threshold) == []
  {
  }

  /** `retrieve_documents`: defaults for a falsy `k` or threshold, embed, query, filter. */
  function Retrieval(env: Env, t: Tuning, question: string, k: Option<int>, threshold: Option<real>): (r: Outcome<seq<ContextDoc>>)
    ensures env.embed(question).Raise? ==> r == Raise(env.embed(question).exc)
    ensures r.Ok? ==> forall j :: 0 <= j < |r.value| ==>
      r.value[j].similarityScore >= OrReal(threshold, t.similarityThreshold)
  {
    var n := OrInt(k, t.retrievalK);
    var thr := OrReal(threshold, t.similarityThreshold);
    match env.embed(question)
    case Raise(e) => Raise(e)
    case Ok(embedding) =>
      match env.query(embedding, n)
      case Raise(e) => Raise(e)
      case Ok(res) =>
        match FirstHits(res)
        case Raise(e) => Raise(e)
        case Ok(hits) => Ok(Kept(hits, thr))
  }

  /** When every oracle answers, retrieval is the filter of the index answer under the
      effective threshold; a zero threshold means the configured one. */
  lemma RetrievalFiltersIndexAnswer(env: Env, t: Tuning, question: string, k: Option<int>, threshold: Option<real>,
                                    embedding: seq<real>, res: QueryResult, hits: seq<Hit>)
    requires env.embed(question) == Ok(embedding)
    requires env.query(embedding, OrInt(k, t.retrievalK)) == Ok(res)
    requires FirstHits(res) == Ok(hits)
    ensures Retrieval(env, t, question, k, threshold) == Ok(Kept(hits, OrReal(threshold, t.similarityThreshold)))
    ensures Retrieval(env, t, question, k, Some(0.0)) == Retrieval(env, t, question, k, None)
  {
  }

  // ---------------------------------------------------------------- generation

  /** The prompt template around `{context}` and `{question}`. */
  const PromptHead := "你是一个专业的知识库问答助手。请基于提供的相关文档内容来回答用户的问题。\n\n回答要求：\n1. 仅基于提供的文档内容进行回答，不要添加文档中没有的信息\n2. 如果文档内容不足以回答问题，请明确说明\n3. 回答要准确、简洁、有条理\n4. 如果可能，请引用具体的文档片段\n5. 使用中文回答\n\n相关文档内容：\n"
  const PromptMiddle := "\n\n用户问题："
  const PromptTail := "\n\n请基于上述文档内容回答用户问题："

  const PartLabel := "文档片段"

  /** The context block for the document at 1-based position `i`. */
  function ContextPart(env: Env, i: nat, doc: ContextDoc): string {
    PartLabel + NatText(i) + " (相似度: " + env.scoreText(doc.similarityScore) + "):\n" + doc.content + "\n"
  }

  /** The labelled context blocks, one per document in input order. */
  function ContextParts(env: Env, docs: seq<ContextDoc>): (parts: seq<string>)
    ensures |parts| == |docs|
    ensures forall i :: 0 <= i < |docs| ==> parts[i] == ContextPart(env, i + 1, docs[i])
    decreases |docs|
  {
    if docs == [] then []
    else ContextParts(env, docs[..|docs| - 1]) + [ContextPart(env, |docs|, docs[|docs| - 1])]
  }

  /** Block `i` opens with the tag numbered `i + 1` followed by a space. */
  lemma ContextPartLabel(env: Env, docs: seq<ContextDoc>, i: nat)
    requires i < |docs|
    ensures var p, tag := ContextParts(env, docs)[i], PartLabel + NatText(i + 1);
      |tag| < |p| && p[..|tag|] == tag && p[|tag|] == ' '
  {
    var tag := PartLabel + NatText(i + 1);
    var p := ContextPart(env, i + 1, docs[i]);
    assert p == tag + (" (相似度: " + env.scoreText(docs[i].similarityScore) + "):\n" + docs[i].content + "\n");
  }

  /** Two texts that hold different digit strings at offset `n`, each followed by a
      space, differ. */
  lemma DelimitedNumbersDiffer(p: string, q: string, n: nat, a: string, b: string)
    requires n + |a| < |p| && n + |b| < |q|
    requires p[n..n + |a|] == a && p[n + |a|] == ' '
    requires q[n..n + |b|] == b && q[n + |b|] == ' '
    requires forall m :: 0 <= m < |a| ==> '0' <= a[m] <= '9'
    requires forall m :: 0 <= m < |b| ==> '0' <= b[m] <= '9'
    requires a != b
    ensures p != q
  {
    if |a| == |b| {
      var m :| 0 <= m < |a| && a[m] != b[m];
      assert p[n + m] == a[m] && q[n + m] == b[m];
    } else if |a| < |b| {
      assert q[n + |a|] == b[|a|];
    } else {
      assert p[n + |b|] == a[|b|];
    }
  }

  /** Different positions carry different labels, so no two blocks coincide. */
  lemma ContextLabelsDistinct(env: Env, docs: seq<ContextDoc>, i: nat, j: nat)
    requires i < |docs| && j < |docs| && i != j
    ensures ContextParts(env, docs)[i] != ContextParts(env, docs)[j]
  {
    var parts := ContextParts(env, docs);
    var a, b := NatText(i + 1), NatText(j + 1);
    LabelDigitsAt(env, docs, i);
    LabelDigitsAt(env, docs, j);
    if a == b {
      NatTextInjective(i + 1, j + 1);
    }
    DelimitedNumbersDiffer(parts[i], parts[j], |PartLabel|, a, b);
  }

  /** Block `i` holds the digits of `i + 1` right after the label, followed by a space. */
  lemma LabelDigitsAt(env: Env, docs: seq<ContextDoc>, i: nat)
    requires i < |docs|
    ensures var p, a, n := ContextParts(env, docs)[i], NatText(i + 1), |PartLabel|;
      && n + |a| < |p| && p[n..n + |a|] == a && p[n + |a|] == ' '
      && forall m :: 0 <= m < |a| ==> '0' <= a[m] <= '9'
  {
    var p, a, n := ContextParts(env, docs)[i], NatText(i + 1), |PartLabel|;
    ContextPartLabel(env, docs, i);
    assert p[n..n + |a|] == (PartLabel + a)[n..] == a;
    NatTextDigits(i + 1);
  }

  /** `sep.join(parts)`. */
  function Join(parts: seq<string>, sep: string): string
    decreases |parts|
  {
    if parts == [] then ""
    else if |parts| == 1 then parts[0]
    else Join(parts[..|parts| - 1], sep) + sep + parts[|parts| - 1]
  }

  function Prompt(context: string, question: string): string {
    PromptHead + context + PromptMiddle + question + PromptTail
  }

  /** The request `generate_answer` sends: configured model, temperature and token budget. */
  function RequestFor(env: Env, t: Tuning, question: string, docs: seq<ContextDoc>): GenerateRequest {
    GenerateRequest(t.ollamaModel, Prompt(Join(ContextParts(env, docs), "\n"), question), t.temperature, t.maxTokens)
  }

  function GetOr<T>(x: Option<T>, d: T): (r: T)
    ensures x.None? ==> r == d
    ensures x.Some? ==> r == x.value
  {
    if x.Some? then x.value else d
  }

  /** The token counters: absent counters read as 0, and the total is their sum. */
  function Tokens(resp: LLMResponse): (c: TokenCount)
    ensures c.totalTokens == c.promptTokens + c.completionTokens
    ensures c.promptTokens == GetOr(resp.promptEvalCount, 0)
    ensures c.completionTokens == GetOr(resp.evalCount, 0)
  {
    var p := GetOr(resp.promptEvalCount, 0);
    var e := GetOr(resp.evalCount, 0);
    TokenCount(p, e, p + e)
  }

  /** `generate_answer`: what it returns for the language model's answer to the built request. */
  function Generation(env: Env, t: Tuning, question: string, docs: seq<ContextDoc>): (r: Outcome<AnswerData>)
    ensures env.generate(RequestFor(env, t, question, docs)).Raise? <==> r.Raise?
    ensures r.Raise? ==> r.exc == env.generate(RequestFor(env, t, question, docs)).exc
    ensures r.Ok? ==>
      var resp := env.generate(RequestFor(env, t, question, docs)).value;
      r.value.answer == Strip(GetOr(resp.response, "")) && r.value.question == question
      && r.value.contextDocuments == docs && r.value.model == t.ollamaModel
      && r.value.tokenCount == Tokens(resp)
  {
    match env.generate(RequestFor(env, t, question, docs))
    case Raise(e) => Raise(e)
    case Ok(resp) =>
      Ok(AnswerData(Strip(GetOr(resp.response, "")), question, docs, env.generationTime,
                    t.ollamaModel, env.timestamp, Tokens(resp)))
  }

  // ---------------------------------------------------------------- results

  function SumScores(docs: seq<ContextDoc>): real
    decreases |docs|
  {
    if docs == [] then 0.0 else SumScores(docs[..|docs| - 1]) + docs[|docs| - 1].similarityScore
  }

  /** Scores that all reach a bound sum to at least that many times the bound. */
  lemma {:induction false} SumScoresAtLeast(docs: seq<ContextDoc>, bound: real)
    requires forall j :: 0 <= j < |docs| ==> docs[j].similarityScore >= bound
    ensures SumScores(docs) >= |docs| as real * bound
    decreases |docs|
  {
    if docs != [] {
      var n := |docs| - 1;
      SumScoresAtLeast(docs[..n], bound);
      OneMoreAtLeast(SumScores(docs[..n]), n, bound, docs[n].similarityScore);
    }
  }

  lemma OneMoreAtLeast(sum: real, n: nat, bound: real, x: real)
    requires sum >= n as real * bound && x >= bound
    ensures sum + x >= (n + 1) as real * bound
  {
  }

  /** The mean similarity of a non-empty list. */
  function Mean(docs: seq<ContextDoc>): (m: real)
    requires docs != []
    ensures m * |docs| as real == SumScores(docs)
  {
    SumScores(docs) / |docs| as real
  }

  /** Retrieved documents all clear the threshold, so their mean does too. */
  lemma MeanAtLeastThreshold(docs: seq<ContextDoc>, threshold: real)
    requires docs != []
    requires forall j :: 0 <= j < |docs| ==> docs[j].similarityScore >= threshold
    ensures Mean(docs) >= threshold
  {
    SumScoresAtLeast(docs, threshold);
    var n := |docs| as real;
    assert Mean(docs) * n >= threshold * n;
  }

  const ErrorAnswer := "抱歉，处理您的问题时出现了错误。请稍后重试或联系管理员。"
  const NoDocsAnswer := "抱歉，我在知识库中没有找到与您问题相关的信息。请尝试重新表述您的问题或联系管理员添加相关文档。"

  /** The degraded result for an exception raised anywhere in the pipeline. */
  function ErrorResult(question: string, e: Exc, elapsed: real): (r: QAResult)
    ensures r.success == Some(false) && r.fromCache == Some(false)
    ensures r.question == Some(question) && r.error == Some(e.Text())
    ensures r.message == Some("问答处理失败: " + e.Text())
  {
    EmptyResult.(success := Some(false), message := Some("问答处理失败: " + e.Text()),
                 answer := Some(ErrorAnswer), question := Some(question), error := Some(e.Text()),
                 totalTime := Some(elapsed), fromCache := Some(false))
  }

  /** The result when nothing clears the threshold. */
  function NoDocsResult(question: string, elapsed: real): (r: QAResult)
    ensures r.success == Some(false) && r.fromCache == Some(false)
    ensures r.question == Some(question) && r.contextDocuments == Some([]) && r.error == None
  {
    EmptyResult.(success := Some(false), message := Some("未找到相关文档"), answer := Some(NoDocsAnswer),
                 question := Some(question), contextDocuments := Some([]), totalTime := Some(elapsed),
                 fromCache := Some(false))
  }

  /** The successful result: the pipeline's own keys merged with the answer data. */
  function SuccessResult(docs: seq<ContextDoc>, a: AnswerData, threshold: Option<real>, t: Tuning, elapsed: real): (r: QAResult)
    requires docs != []
    ensures r.success == Some(true) && r.fromCache == Some(false) && r.error == None
    ensures r.retrievalStats == Some(RetrievalStats(|docs|, OrReal(threshold, t.similarityThreshold), Mean(docs)))
    ensures r.answer == Some(a.answer) && r.contextDocuments == Some(a.contextDocuments)
    ensures r.tokenCount == Some(a.tokenCount)
  {
    QAResult(Some(true), Some("问答处理完成"), Some(a.answer), Some(a.question), Some(a.contextDocuments),
             None, Some(false), Some(elapsed),
             Some(RetrievalStats(|docs|, OrReal(threshold, t.similarityThreshold), Mean(docs))),
             Some(a.tokenCount), Some(a.generationTime), Some(a.model), Some(a.timestamp))
  }

  // ---------------------------------------------------------------- cache

  /** `_get_cached_answer`: None without a client, for an absent key, or when the read fails. */
  function CachedAnswer(env: Env, cacheEnabled: bool, cache: map<string, QAResult>, key: string): (r: Option<QAResult>)
    ensures r.Some? <==> cacheEnabled && key in cache && !env.cacheGetRaises(key)
    ensures r.Some? ==> r.value == cache[key]
  {
    if cacheEnabled && key in cache && !env.cacheGetRaises(key) then Some(cache[key]) else None
  }

  /** `_set_cached_answer`: writes the entry unless there is no client or the write fails. */
  function StoreAnswer(env: Env, cacheEnabled: bool, cache: map<string, QAResult>, key: string, r: QAResult): (c: map<string, QAResult>)
    ensures cacheEnabled && !env.cacheSetRaises(key) ==> c == cache[key := r]
    ensures !cacheEnabled || env.cacheSetRaises(key) ==> c == cache
  {
    if cacheEnabled && !env.cacheSetRaises(key) then cache[key := r] else cache
  }

  // ---------------------------------------------------------------- process_question

  /** The result `process_question` computes when the cache does not answer:
      retrieval, then the no-documents exit or generation, any exception turning
      into the degraded result. */
  function Answer(env: Env, t: Tuning, question: string, k: Option<int>, threshold: Option<real>): (r: QAResult)
    ensures r.fromCache == Some(false) && r.success.Some?
    ensures r.success == Some(true) ==>
      var docs := Retrieval(env, t, question, k, threshold);
      docs.Ok? && docs.value != [] && Generation(env, t, question, docs.value).Ok?
      && r == SuccessResult(docs.value, Generation(env, t, question, docs.value).value, threshold, t, env.elapsed)
  {
    match Retrieval(env, t, question, k, threshold)
    case Raise(e) => ErrorResult(question, e, env.elapsed)
    case Ok(docs) =>
      if docs == [] then NoDocsResult(question, env.elapsed)
      else
        match Generation(env, t, question, docs)
        case Raise(e) => ErrorResult(question, e, env.elapsed)
        case Ok(a) => SuccessResult(docs, a, threshold, t, env.elapsed)
  }

  /** The cache answers for `key`: a readable, non-empty entry. */
  predicate CacheAnswers(env: Env, cacheEnabled: bool, cache: map<string, QAResult>, key: string) {
    var cached := CachedAnswer(env, cacheEnabled, cache, key);
    cached.Some? && cached.value != EmptyResult
  }

  /** `process_question`: the result and the cache afterwards. */
  function Process(env: Env, t: Tuning, cacheEnabled: bool, cache: map<string, QAResult>,
                   question: string, k: Option<int>, threshold: Option<real>, useCache: bool): (out: (QAResult, map<string, QAResult>))
    ensures out.1 == cache || out.1 == cache[CacheKey(env, t, question, k) := out.0]
    ensures out.1 != cache ==> useCache && out.0.success == Some(true)
  {
    var key := CacheKey(env, t, question, k);
    if useCache && CacheAnswers(env, cacheEnabled, cache, key) then
      (cache[key].(fromCache := Some(true), totalTime := Some(env.elapsed)), cache)
    else
      var r := Answer(env, t, question, k, threshold);
      (r, if useCache && r.success == Some(true) then StoreAnswer(env, cacheEnabled, cache, key, r) else cache)
  }

  /** A non-empty readable entry is returned as is, marked as cached, and the cache
      is left alone; the result does not depend on the embedder, the index or the
      language model. */
  lemma ProcessCacheHit(env: Env, env2: Env, t: Tuning, cache: map<string, QAResult>,
                        question: string, k: Option<int>, threshold: Option<real>)
    requires var key := CacheKey(env, t, question, k);
      key in cache && !env.cacheGetRaises(key) && cache[key] != EmptyResult
    requires env2 == env.(embed := env2.embed, query := env2.query, generate := env2.generate)
    ensures var out := Process(env, t, true, cache, question, k, threshold, true);
      out.0 == cache[CacheKey(env, t, question, k)].(fromCache := Some(true), totalTime := Some(env.elapsed))
      && out.1 == cache
      && Process(env2, t, true, cache, question, k, threshold, true) == out
  {
    assert CacheKey(env2, t, question, k) == CacheKey(env, t, question, k);
  }

  /** An empty cached dictionary is a miss: the result is the one computed without that entry. */
  lemma EmptyEntryIsMiss(env: Env, t: Tuning, cacheEnabled: bool, cache: map<string, QAResult>,
                         question: string, k: Option<int>, threshold: Option<real>, useCache: bool)
    requires CacheKey(env, t, question, k) in cache && cache[CacheKey(env, t, question, k)] == EmptyResult
    ensures Process(env, t, cacheEnabled, cache, question, k, threshold, useCache).0
         == Process(env, t, cacheEnabled, cache - {CacheKey(env, t, question, k)}, question, k, threshold, useCache).0
  {
    var key := CacheKey(env, t, question, k);
    assert !CacheAnswers(env, cacheEnabled, cache, key);
    assert !CacheAnswers(env, cacheEnabled, cache - {key}, key);
  }

  /** With no usable cached entry, an exception from retrieval or generation gives the
      degraded result and leaves the cache alone. */
  lemma ProcessFailure(env: Env, t: Tuning, cacheEnabled: bool, cache: map<string, QAResult>,
                       question: string, k: Option<int>, threshold: Option<real>, useCache: bool)
    requires !(useCache && CacheAnswers(env, cacheEnabled, cache, CacheKey(env, t, question, k)))
    requires var r := Retrieval(env, t, question, k, threshold);
      r.Raise? || (r.value != [] && Generation(env, t, question, r.value).Raise?)
    ensures var out := Process(env, t, cacheEnabled, cache, question, k, threshold, useCache);
      out.1 == cache && out.0.success == Some(false) && out.0.fromCache == Some(false)
      && out.0.error.Some? && out.0.question == Some(question)
  {
  }

  /** With no usable cached entry and nothing clearing the threshold, the result is
      the unsuccessful no-documents answer and the cache is left alone. */
  lemma ProcessNoDocuments(env: Env, t: Tuning, cacheEnabled: bool, cache: map<string, QAResult>,
                           question: string, k: Option<int>, threshold: Option<real>, useCache: bool)
    requires !(useCache && CacheAnswers(env, cacheEnabled, cache, CacheKey(env, t, question, k)))
    requires Retrieval(env, t, question, k, threshold) == Ok([])
    ensures Process(env, t, cacheEnabled, cache, question, k, threshold, useCache) == (NoDocsResult(question, env.elapsed), cache)
  {
  }

  /** The statistics of a successful result over documents that all clear the threshold. */
  lemma SuccessStats(docs: seq<ContextDoc>, a: AnswerData, threshold: Option<real>, t: Tuning, elapsed: real)
    requires docs != []
    requires forall j :: 0 <= j < |docs| ==> docs[j].similarityScore >= OrReal(threshold, t.similarityThreshold)
    ensures var s := SuccessResult(docs, a, threshold, t, elapsed).retrievalStats.value;
      s.avgSimilarity == Mean(docs) && s.avgSimilarity >= OrReal(threshold, t.similarityThreshold)
  {
    var thr := OrReal(threshold, t.similarityThreshold);
    MeanAtLeastThreshold(docs, thr);
  }

  /** The fresh result on the success path is the merge of the pipeline keys and the answer data. */
  lemma AnswerIsSuccessResult(env: Env, t: Tuning, question: string, k: Option<int>, threshold: Option<real>,
                              docs: seq<ContextDoc>, a: AnswerData)
    requires Retrieval(env, t, question, k, threshold) == Ok(docs) && docs != []
    requires Generation(env, t, question, docs) == Ok(a)
    ensures Answer(env, t, question, k, threshold) == SuccessResult(docs, a, threshold, t, env.elapsed)
  {
  }

  /** Successful retrieval and generation give a successful fresh result whose
      statistics describe the retrieved documents. */
  lemma AnswerSuccess(env: Env, t: Tuning, question: string, k: Option<int>, threshold: Option<real>,
                      docs: seq<ContextDoc>, a: AnswerData)
    requires Retrieval(env, t, question, k, threshold) == Ok(docs) && docs != []
    requires Generation(env, t, question, docs) == Ok(a)
    ensures var r := Answer(env, t, question, k, threshold);
      && r.success == Some(true) && r.fromCache == Some(false)
      && r.contextDocuments == Some(docs)
      && r.retrievalStats.Some?
      && r.retrievalStats.value.retrievedCount == |docs|
      && r.retrievalStats.value.avgSimilarity == Mean(docs)
      && r.retrievalStats.value.avgSimilarity >= OrReal(threshold, t.similarityThreshold)
  {
    AnswerIsSuccessResult(env, t, question, k, threshold, docs, a);
    SuccessStats(docs, a, threshold, t, env.elapsed);
  }

  /** With no usable cached entry, the successful fresh result is returned, and the
      cache receives it exactly when caching is asked for and the write succeeds. */
  lemma ProcessSuccess(env: Env, t: Tuning, cacheEnabled: bool, cache: map<string, QAResult>,
                       question: string, k: Option<int>, threshold: Option<real>, useCache: bool)
    requires !(useCache && CacheAnswers(env, cacheEnabled, cache, CacheKey(env, t, question, k)))
    requires Answer(env, t, question, k, threshold).success == Some(true)
    ensures var out := Process(env, t, cacheEnabled, cache, question, k, threshold, useCache);
      var key := CacheKey(env, t, question, k);
      && out.0 == Answer(env, t, question, k, threshold)
      && out.1 == (if useCache && cacheEnabled && !env.cacheSetRaises(key) then cache[key := out.0] else cache)
  {
  }

  /** Every cache entry a successful run could have written is successful. */
  predicate OnlySuccesses(cache: map<string, QAResult>) {
    forall key :: key in cache ==> cache[key].success == Some(true)
  }

  /** A cache holding only successful results keeps that property. */
  lemma ProcessKeepsOnlySuccesses(env: Env, t: Tuning, cacheEnabled: bool, cache: map<string, QAResult>,
                                  question: string, k: Option<int>, threshold: Option<real>, useCache: bool)
    requires OnlySuccesses(cache)
    ensures OnlySuccesses(Process(env, t, cacheEnabled, cache, question, k, threshold, useCache).1)
  {
  }

  // ---------------------------------------------------------------- batch

  /** The batch run in order, the cache threaded from one question to the next. */
  function Batch(env: Env, t: Tuning, cacheEnabled: bool, cache: map<string, QAResult>,
                 questions: seq<string>, k: Option<int>, threshold: Option<real>, useCache: bool): (out: (seq<QAResult>, map<string, QAResult>))
    ensures |out.0| == |questions|
    decreases |questions|
  {
    if questions == [] then ([], cache)
    else
      var n := |questions| - 1;
      var before := Batch(env, t, cacheEnabled, cache, questions[..n], k, threshold, useCache);
      var step := Process(env, t, cacheEnabled, before.1, questions[n], k, threshold, useCache);
      (before.0 + [step.0], step.1)
  }

  /** One more question extends the batch by its answer and replaces the cache. */
  lemma BatchStep(env: Env, t: Tuning, cacheEnabled: bool, cache: map<string, QAResult>,
                  questions: seq<string>, k: Option<int>, threshold: Option<real>, useCache: bool, i: nat)
    requires i < |questions|
    ensures var before := Batch(env, t, cacheEnabled, cache, questions[..i], k, threshold, useCache);
      var step := Process(env, t, cacheEnabled, before.1, questions[i], k, threshold, useCache);
      Batch(env, t, cacheEnabled, cache, questions[..i + 1], k, threshold, useCache) == (before.0 + [step.0], step.1)
  {
    assert questions[..i + 1][..i] == questions[..i];
  }

  /** Result `i` is the answer to question `i`, given the cache the earlier questions left. */
  lemma BatchPositions(env: Env, t: Tuning, cacheEnabled: bool, cache: map<string, QAResult>,
                                          questions: seq<string>, k: Option<int>, threshold: Option<real>, useCache: bool, i: nat)
    requires i < |questions|
    ensures Batch(env, t, cacheEnabled, cache, questions, k, threshold, useCache).0[i]
         == Process(env, t, cacheEnabled, Batch(env, t, cacheEnabled, cache, questions[..i], k, threshold, useCache).1,
                    questions[i], k, threshold, useCache).0
  {
    var before := Batch(env, t, cacheEnabled, cache, questions[..i], k, threshold, useCache);
    var step := Process(env, t, cacheEnabled, before.1, questions[i], k, threshold, useCache);
    var all := Batch(env, t, cacheEnabled, cache, questions, k, threshold, useCache).0;
    BatchPrefix(env, t, cacheEnabled, cache, questions, k, threshold, useCache, i + 1);
    BatchStep(env, t, cacheEnabled, cache, questions, k, threshold, useCache, i);
    assert all[..i + 1] == before.0 + [step.0];
    assert all[i] == all[..i + 1][i];
  }

  /** The answers to the first `j` questions are the first `j` answers of the batch. */
  lemma {:induction false} BatchPrefix(env: Env, t: Tuning, cacheEnabled: bool, cache: map<string, QAResult>,
                                       questions: seq<string>, k: Option<int>, threshold: Option<real>, useCache: bool, j: nat)
    requires j <= |questions|
    ensures Batch(env, t, cacheEnabled, cache, questions[..j], k, threshold, useCache).0
         == Batch(env, t, cacheEnabled, cache, questions, k, threshold, useCache).0[..j]
    decreases |questions|
  {
    if j == |questions| {
      assert questions[..j] == questions;
    } else {
      var n := |questions| - 1;
      var before := Batch(env, t, cacheEnabled, cache, questions[..n], k, threshold, useCache).0;
      var after := Batch(env, t, cacheEnabled, cache, questions, k, threshold, useCache).0;
      assert after[..n] == before;
      BatchPrefix(env, t, cacheEnabled, cache, questions[..n], k, threshold, useCache, j);
      assert questions[..n][..j] == questions[..j];
      assert after[..j] == before[..j];
    }
  }

  /** A batch also writes only successful results. */
  lemma {:induction false} BatchKeepsOnlySuccesses(env: Env, t: Tuning, cacheEnabled: bool, cache: map<string, QAResult>,
                                                   questions: seq<string>, k: Option<int>, threshold: Option<real>, useCache: bool)
    requires OnlySuccesses(cache)
    ensures OnlySuccesses(Batch(env, t, cacheEnabled, cache, questions, k, threshold, useCache).1)
    decreases |questions|
  {
    if questions != [] {
      var n := |questions| - 1;
      BatchKeepsOnlySuccesses(env, t, cacheEnabled, cache, questions[..n], k, threshold, useCache);
      var before := Batch(env, t, cacheEnabled, cache, questions[..n], k, threshold, useCache);
      ProcessKeepsOnlySuccesses(env, t, cacheEnabled, before.1, questions[n], k, threshold, useCache);
    }
  }

  /** The entry for a task that raised instead of returning. */
  function FailedSlot(question: string, e: Exc): (r: QAResult)
    ensures r.success == Some(false) && r.question == Some(question) && r.error == Some(e.Text())
    ensures r.fromCache == None && r.contextDocuments == None
  {
    EmptyResult.(success := Some(false), message := Some("处理失败: " + e.Text()),
                 question := Some(question), error := Some(e.Text()))
  }

  // ---------------------------------------------------------------- the processor

  class QAProcessor {
    const env: Env
    const tuning: Tuning
    /** A cache client was obtained at construction. */
    const cacheEnabled: bool
    var cache: map<string, QAResult>

    constructor (env: Env, tuning: Tuning, cacheEnabled: bool, cache: map<string, QAResult>)
      ensures this.env == env && this.tuning == tuning && this.cacheEnabled == cacheEnabled && this.cache == cache
    {
      this.env, this.tuning, this.cacheEnabled, this.cache := env, tuning, cacheEnabled, cache;
    }

    /** `retrieve_documents`, filtering the index answer in one pass. */
    method RetrieveDocuments(question: string, k: Option<int>, threshold: Option<real>) returns (r: Outcome<seq<ContextDoc>>)
      ensures r == Retrieval(env, tuning, question, k, threshold)
    {
      var n := OrInt(k, tuning.retrievalK);
      var thr := OrReal(threshold, tuning.similarityThreshold);
      var embedding := env.embed(question);
      if embedding.Raise? {
        return Raise(embedding.exc);
      }
      var results := env.query(embedding.value, n);
      if results.Raise? {
        return Raise(results.exc);
      }
      var hits := FirstHits(results.value);
      if hits.Raise? {
        return Raise(hits.exc);
      }
      var documents: seq<ContextDoc> := [];
      for i := 0 to |hits.value|
        invariant documents == Kept(hits.value[..i], thr)
      {
        assert hits.value[..i + 1][..i] == hits.value[..i];
        var hit := hits.value[i];
        var similarityScore := 1.0 - hit.distance;
        if similarityScore >= thr {
          documents := documents + [ContextDoc(hit.content, hit.metadata, similarityScore, i + 1)];
        }
      }
      assert hits.value[..|hits.value|] == hits.value;
      r := Ok(documents);
    }

    /** `generate_answer`, building the context blocks one document at a time. */
    method GenerateAnswer(question: string, docs: seq<ContextDoc>) returns (r: Outcome<AnswerData>)
      ensures r == Generation(env, tuning, question, docs)
    {
      var contextParts: seq<string> := [];
      for i := 0 to |docs|
        invariant contextParts == ContextParts(env, docs[..i])
      {
        assert docs[..i + 1][..i] == docs[..i];
        contextParts := contextParts + [ContextPart(env, i + 1, docs[i])];
      }
      assert docs[..|docs|] == docs;
      var context := Join(contextParts, "\n");
      var response := env.generate(GenerateRequest(tuning.ollamaModel, Prompt(context, question), tuning.temperature, tuning.maxTokens));
      if response.Raise? {
        return Raise(response.exc);
      }
      var result := response.value;
      r := Ok(AnswerData(Strip(GetOr(result.response, "")), question, docs, env.generationTime,
                         tuning.ollamaModel, env.timestamp, Tokens(result)));
    }

    /** `process_question`. */
    method ProcessQuestion(question: string, k: Option<int>, threshold: Option<real>, useCache: bool) returns (r: QAResult)
      modifies this
      ensures (r, cache) == Process(env, tuning, cacheEnabled, old(cache), question, k, threshold, useCache)
    {
      var cacheKey := CacheKey(env, tuning, question, k);
      if useCache {
        var cachedAnswer := CachedAnswer(env, cacheEnabled, cache, cacheKey);
        if cachedAnswer.Some? && cachedAnswer.value != EmptyResult {
          return cachedAnswer.value.(fromCache := Some(true), totalTime := Some(env.elapsed));
        }
      }
      var documents := RetrieveDocuments(question, k, threshold);
      if documents.Raise? {
        return ErrorResult(question, documents.exc, env.elapsed);
      }
      if documents.value == [] {
        return NoDocsResult(question, env.elapsed);
      }
      var answerData := GenerateAnswer(question, documents.value);
      if answerData.Raise? {
        return ErrorResult(question, answerData.exc, env.elapsed);
      }
      r := SuccessResult(documents.value, answerData.value, threshold, tuning, env.elapsed);
      if useCache {
        cache := StoreAnswer(env, cacheEnabled, cache, cacheKey, r);
      }
    }

    /** The loop that turns gathered task outcomes into result entries. */
    static method CollectResults(questions: seq<string>, gathered: seq<Outcome<QAResult>>) returns (results: seq<QAResult>)
      requires |gathered| == |questions|
      ensures |results| == |questions|
      ensures forall i :: 0 <= i < |questions| && gathered[i].Ok? ==> results[i] == gathered[i].value
      ensures forall i :: 0 <= i < |questions| && gathered[i].Raise? ==> results[i] == FailedSlot(questions[i], gathered[i].exc)
    {
      results := [];
      for i := 0 to |gathered|
        invariant |results| == i
        invariant forall j :: 0 <= j < i && gathered[j].Ok? ==> results[j] == gathered[j].value
        invariant forall j :: 0 <= j < i && gathered[j].Raise? ==> results[j] == FailedSlot(questions[j], gathered[j].exc)
      {
        if gathered[i].Raise? {
          results := results + [FailedSlot(questions[i], gathered[i].exc)];
        } else {
          results := results + [gathered[i].value];
        }
      }
    }

    /** `batch_process_questions`: one task per question, run in order, then collected. */
    method BatchProcessQuestions(questions: seq<string>, k: Option<int>, threshold: Option<real>, useCache: bool)
      returns (results: seq<QAResult>)
      modifies this
      ensures (results, cache) == Batch(env, tuning, cacheEnabled, old(cache), questions, k, threshold, useCache)
    {
      ghost var expected := Batch(env, tuning, cacheEnabled, cache, questions, k, threshold, useCache);
      var gathered := RunTasks(questions, k, threshold, useCache);
      results := CollectResults(questions, gathered);
      assert forall j :: 0 <= j < |questions| ==> results[j] == expected.0[j];
      assert results == expected.0;
    }

    /** The tasks of a batch, awaited one after the other; none of them raises. */
    method RunTasks(questions: seq<string>, k: Option<int>, threshold: Option<real>, useCache: bool)
      returns (gathered: seq<Outcome<QAResult>>)
      modifies this
      ensures |gathered| == |questions|
      ensures forall j :: 0 <= j < |questions| ==>
        gathered[j] == Ok(Batch(env, tuning, cacheEnabled, old(cache), questions, k, threshold, useCache).0[j])
      ensures cache == Batch(env, tuning, cacheEnabled, old(cache), questions, k, threshold, useCache).1
    {
      gathered := [];
      ghost var answered: seq<QAResult> := [];
      for i := 0 to |questions|
        invariant |gathered| == |answered| == i
        invariant forall j :: 0 <= j < i ==> gathered[j] == Ok(answered[j])
        invariant (answered, cache) == Batch(env, tuning, cacheEnabled, old(cache), questions[..i], k, threshold, useCache)
      {
        BatchStep(env, tuning, cacheEnabled, old(cache), questions, k, threshold, useCache, i);
        var result := ProcessQuestion(questions[i], k, threshold, useCache);
        gathered := gathered + [Ok(result)];
        answered := answered + [result];
      }
      assert questions[..|questions|] == questions;
    }
  }
}
