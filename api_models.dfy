/** The request validators of the HTTP API (src/api/models.py), as the pydantic
    models apply them: every declared field constraint is checked first, each
    failing field is reported once in declaration order, and a field's own
    validator runs only on a value that passed its constraints. */
module ApiModels {
  import opened Common
  import QA

  /** A validated model, or the names of the fields that failed, in declaration order. */
  datatype Checked<T> = Valid(value: T) | Invalid(fields: seq<string>)

  predicate IntWithin(x: Option<int>, lo: int, hi: int) {
    x.None? || lo <= x.value <= hi
  }

  predicate RealWithin(x: Option<real>, lo: real, hi: real) {
    x.None? || lo <= x.value <= hi
  }

  /** `[name]` when the field failed, `[]` otherwise. */
  function FieldError(ok: bool, name: string): (e: seq<string>)
    ensures ok <==> e == []
  {
    if ok then [] else [name]
  }

  lemma StripOfStripped(s: string)
    ensures Strip(Strip(s)) == Strip(s)
  {
    var r := Strip(s);
    if r != [] {
      assert TrimLeft(r) == r;
      assert TrimRight(r) == r;
    }
  }

  // ---------------------------------------------------------------- QuestionRequest

  datatype QuestionRequest = QuestionRequest(question: string, k: Option<int>, similarityThreshold: Option<real>, useCache: bool)

  /** The `question` field: 1 to 1000 characters as sent, then `validate_question`
      refuses a blank question and keeps the stripped text. */
  predicate QuestionOk(question: string) {
    1 <= |question| <= 1000 && !AllSpace(question)
  }

  function NewQuestionRequest(question: string, k: Option<int>, threshold: Option<real>, useCache: Option<bool>)
    : (r: Checked<QuestionRequest>)
    ensures r.Valid? <==> QuestionOk(question) && IntWithin(k, 1, 20) && RealWithin(threshold, 0.0, 1.0)
    ensures r.Valid? ==>
      && r.value.question == Strip(question) && 1 <= |r.value.question| <= 1000
      && r.value.k == k && r.value.similarityThreshold == threshold
      && r.value.useCache == (useCache.None? || useCache.value)
    ensures r.Invalid? ==>
      && ("question" in r.fields <==> !QuestionOk(question))
      && ("k" in r.fields <==> !IntWithin(k, 1, 20))
      && ("similarity_threshold" in r.fields <==> !RealWithin(threshold, 0.0, 1.0))
  {
    var errors := FieldError(QuestionOk(question), "question") + FieldError(IntWithin(k, 1, 20), "k")
                  + FieldError(RealWithin(threshold, 0.0, 1.0), "similarity_threshold");
    if errors == [] then Valid(QuestionRequest(Strip(question), k, threshold, useCache.None? || useCache.value))
    else Invalid(errors)
  }

  /** A validated request validates again to itself. */
  lemma QuestionRequestStable(question: string, k: Option<int>, threshold: Option<real>, useCache: Option<bool>)
    requires NewQuestionRequest(question, k, threshold, useCache).Valid?
    ensures var q := NewQuestionRequest(question, k, threshold, useCache).value;
      NewQuestionRequest(q.question, q.k, q.similarityThreshold, Some(q.useCache)) == Valid(q)
  {
    StripOfStripped(question);
  }

  // ---------------------------------------------------------------- BatchQuestionRequest

  datatype BatchQuestionRequest = BatchQuestionRequest(questions: seq<string>, k: Option<int>, similarityThreshold: Option<real>, useCache: bool)

  predicate NoBlank(qs: seq<string>) {
    forall i :: 0 <= i < |qs| ==> !AllSpace(qs[i])
  }

  /** Each question stripped, in order. */
  function Stripped(qs: seq<string>): (r: seq<string>)
    ensures |r| == |qs| && forall i :: 0 <= i < |qs| ==> r[i] == Strip(qs[i])
    decreases |qs|
  {
    if qs == [] then []
    else
      var n := |qs| - 1;
      assert forall i :: 0 <= i < n ==> qs[..n][i] == qs[i];
      Stripped(qs[..n]) + [Strip(qs[n])]
  }

  /** `validate_questions`: an empty list or a blank question raises ValueError;
      otherwise the stripped questions, in order. */
  function CleanQuestions(qs: seq<string>): (r: Outcome<seq<string>>)
    ensures r.Ok? <==> qs != [] && NoBlank(qs)
    ensures r.Ok? ==> r.value == Stripped(qs) && forall i :: 0 <= i < |qs| ==> r.value[i] != []
  {
    if qs == [] then Raise(ValueError("问题列表不能为空"))
    else if !NoBlank(qs) then Raise(ValueError("问题不能为空"))
    else Ok(Stripped(qs))
  }

  /** The loop of `validate_questions`. */
  method ValidateQuestions(qs: seq<string>) returns (r: Outcome<seq<string>>)
    ensures r == CleanQuestions(qs)
  {
    if qs == [] {
      return Raise(ValueError("问题列表不能为空"));
    }
    var cleaned: seq<string> := [];
    for i := 0 to |qs|
      invariant cleaned == Stripped(qs[..i])
      invariant NoBlank(qs[..i])
    {
      if Strip(qs[i]) == [] {
        assert !NoBlank(qs);
        return Raise(ValueError("问题不能为空"));
      }
      StrippedStep(qs, i);
      NoBlankStep(qs, i);
      cleaned := cleaned + [Strip(qs[i])];
    }
    assert qs[..|qs|] == qs;
    r := Ok(cleaned);
  }

  /** One more question extends the stripped prefix by its own stripped text. */
  lemma StrippedStep(qs: seq<string>, i: nat)
    requires i < |qs|
    ensures Stripped(qs[..i + 1]) == Stripped(qs[..i]) + [Strip(qs[i])]
  {
    assert qs[..i + 1][..i] == qs[..i];
  }

  /** One more non-blank question keeps the prefix free of blank questions. */
  lemma NoBlankStep(qs: seq<string>, i: nat)
    requires i < |qs| && NoBlank(qs[..i]) && !AllSpace(qs[i])
    ensures NoBlank(qs[..i + 1])
  {
    assert qs[..i + 1] == qs[..i] + [qs[i]];
  }

  /** The `questions` field holds 1 to 10 items, then passes `validate_questions`. */
  predicate QuestionsOk(qs: seq<string>) {
    1 <= |qs| <= 10 && CleanQuestions(qs).Ok?
  }

  function NewBatchQuestionRequest(qs: seq<string>, k: Option<int>, threshold: Option<real>, useCache: Option<bool>)
    : (r: Checked<BatchQuestionRequest>)
    ensures r.Valid? <==> 1 <= |qs| <= 10 && NoBlank(qs) && IntWithin(k, 1, 20) && RealWithin(threshold, 0.0, 1.0)
    ensures r.Valid? ==>
      && |r.value.questions| == |qs|
      && (forall i :: 0 <= i < |qs| ==> r.value.questions[i] == Strip(qs[i]) && r.value.questions[i] != [])
      && r.value.k == k && r.value.similarityThreshold == threshold
      && r.value.useCache == (useCache.None? || useCache.value)
    ensures r.Invalid? ==> ("questions" in r.fields <==> !(1 <= |qs| <= 10 && NoBlank(qs)))
  {
    var errors := FieldError(QuestionsOk(qs), "questions") + FieldError(IntWithin(k, 1, 20), "k")
                  + FieldError(RealWithin(threshold, 0.0, 1.0), "similarity_threshold");
    if errors == [] then Valid(BatchQuestionRequest(CleanQuestions(qs).value, k, threshold, useCache.None? || useCache.value))
    else Invalid(errors)
  }

  // ---------------------------------------------------------------- ConfigUpdateRequest

  datatype ConfigUpdateRequest = ConfigUpdateRequest(
    chunkSize: Option<int>,
    chunkOverlap: Option<int>,
    retrievalK: Option<int>,
    similarityThreshold: Option<real>,
    maxTokens: Option<int>,
    temperature: Option<real>)

  /** The bounds of every field that is given. */
  predicate ConfigInBounds(c: ConfigUpdateRequest) {
    && IntWithin(c.chunkSize, 100, 5000)
    && IntWithin(c.chunkOverlap, 0, 1000)
    && IntWithin(c.retrievalK, 1, 50)
    && RealWithin(c.similarityThreshold, 0.0, 1.0)
    && IntWithin(c.maxTokens, 100, 8000)
    && RealWithin(c.temperature, 0.0, 2.0)
  }

  function NewConfigUpdateRequest(c: ConfigUpdateRequest): (r: Checked<ConfigUpdateRequest>)
    ensures r.Valid? <==> ConfigInBounds(c)
    ensures r.Valid? ==> r.value == c
    ensures r.Invalid? ==>
      && ("chunk_size" in r.fields <==> !IntWithin(c.chunkSize, 100, 5000))
      && ("chunk_overlap" in r.fields <==> !IntWithin(c.chunkOverlap, 0, 1000))
      && ("retrieval_k" in r.fields <==> !IntWithin(c.retrievalK, 1, 50))
      && ("similarity_threshold" in r.fields <==> !RealWithin(c.similarityThreshold, 0.0, 1.0))
      && ("max_tokens" in r.fields <==> !IntWithin(c.maxTokens, 100, 8000))
      && ("temperature" in r.fields <==> !RealWithin(c.temperature, 0.0, 2.0))
      && |r.fields| <= 6
  {
    var sizes := FieldError(IntWithin(c.chunkSize, 100, 5000), "chunk_size")
                 + FieldError(IntWithin(c.chunkOverlap, 0, 1000), "chunk_overlap")
                 + FieldError(IntWithin(c.retrievalK, 1, 50), "retrieval_k");
    var model := FieldError(RealWithin(c.similarityThreshold, 0.0, 1.0), "similarity_threshold")
                 + FieldError(IntWithin(c.maxTokens, 100, 8000), "max_tokens")
                 + FieldError(RealWithin(c.temperature, 0.0, 2.0), "temperature");
    SizeErrorsNamed(c, sizes);
    ModelErrorsNamed(c, model);
    var errors := sizes + model;
    if errors == [] then Valid(c) else Invalid(errors)
  }

  /** The errors of the three chunking and retrieval fields list exactly the fields
      that fail their bound, and none of the three model fields. */
  lemma SizeErrorsNamed(c: ConfigUpdateRequest, sizes: seq<string>)
    requires sizes == FieldError(IntWithin(c.chunkSize, 100, 5000), "chunk_size")
                      + FieldError(IntWithin(c.chunkOverlap, 0, 1000), "chunk_overlap")
                      + FieldError(IntWithin(c.retrievalK, 1, 50), "retrieval_k")
    ensures "chunk_size" in sizes <==> !IntWithin(c.chunkSize, 100, 5000)
    ensures "chunk_overlap" in sizes <==> !IntWithin(c.chunkOverlap, 0, 1000)
    ensures "retrieval_k" in sizes <==> !IntWithin(c.retrievalK, 1, 50)
    ensures "similarity_threshold" !in sizes && "max_tokens" !in sizes && "temperature" !in sizes
    ensures |sizes| <= 3
  {
  }

  /** The errors of the three language-model fields list exactly the fields that
      fail their bound, and none of the three chunking and retrieval fields. */
  lemma ModelErrorsNamed(c: ConfigUpdateRequest, model: seq<string>)
    requires model == FieldError(RealWithin(c.similarityThreshold, 0.0, 1.0), "similarity_threshold")
                      + FieldError(IntWithin(c.maxTokens, 100, 8000), "max_tokens")
                      + FieldError(RealWithin(c.temperature, 0.0, 2.0), "temperature")
    ensures "similarity_threshold" in model <==> !RealWithin(c.similarityThreshold, 0.0, 1.0)
    ensures "max_tokens" in model <==> !IntWithin(c.maxTokens, 100, 8000)
    ensures "temperature" in model <==> !RealWithin(c.temperature, 0.0, 2.0)
    ensures "chunk_size" !in model && "chunk_overlap" !in model && "retrieval_k" !in model
    ensures |model| <= 3
  {
  }

  /** An empty update request is always valid. */
  lemma EmptyConfigUpdateValid()
    ensures NewConfigUpdateRequest(ConfigUpdateRequest(None, None, None, None, None, None)).Valid?
  {
  }

  // ---------------------------------------------------------------- TokenCount and ProcessingProgress

  /** `TokenCount(...)`: every counter not given is 0. */
  function NewTokenCount(prompt: Option<int>, completion: Option<int>, total: Option<int>): (t: QA.TokenCount)
    ensures prompt.None? ==> t.promptTokens == 0
    ensures completion.None? ==> t.completionTokens == 0
    ensures total.None? ==> t.totalTokens == 0
    ensures prompt.Some? ==> t.promptTokens == prompt.value
    ensures completion.Some? ==> t.completionTokens == completion.value
    ensures total.Some? ==> t.totalTokens == total.value
  {
    QA.TokenCount(if prompt.Some? then prompt.value else 0,
                  if completion.Some? then completion.value else 0,
                  if total.Some? then total.value else 0)
  }

  datatype ProcessingStatus = Success | Error | Processing

  /** The enum's values: "success", "error" and "processing". */
  function StatusNamed(s: string): (r: Option<ProcessingStatus>)
    ensures r.Some? <==> s == "success" || s == "error" || s == "processing"
  {
    if s == "success" then Some(Success) else if s == "error" then Some(Error)
    else if s == "processing" then Some(Processing) else None
  }

  datatype ProcessingProgress = ProcessingProgress(
    taskId: string,
    status: ProcessingStatus,
    progress: real,
    currentStep: string,
    totalSteps: int,
    completedSteps: int,
    message: Option<string>,
    error: Option<string>)

  function NewProcessingProgress(taskId: string, status: string, progress: real, currentStep: string,
                                 totalSteps: int, completedSteps: int, message: Option<string>, error: Option<string>)
    : (r: Checked<ProcessingProgress>)
    ensures r.Valid? <==> StatusNamed(status).Some? && 0.0 <= progress <= 1.0
    ensures r.Valid? ==> 0.0 <= r.value.progress <= 1.0 && r.value.progress == progress
    ensures r.Invalid? ==> ("progress" in r.fields <==> !(0.0 <= progress <= 1.0))
  {
    var errors := FieldError(StatusNamed(status).Some?, "status") + FieldError(0.0 <= progress <= 1.0, "progress");
    if errors == [] then
      Valid(ProcessingProgress(taskId, StatusNamed(status).value, progress, currentStep, totalSteps, completedSteps, message, error))
    else Invalid(errors)
  }

  // ---------------------------------------------------------------- DocumentProcessRequest

  /** A field of a JSON request body: left out, `null`, or a string. */
  datatype Supplied = Missing | Null | Given(text: string)

  datatype DocumentProcessRequest = DocumentProcessRequest(filePath: Option<string>, directoryPath: Option<string>, overwrite: bool)

  const PathRequired := "必须提供file_path或directory_path中的一个"

  /** `values.get(name)` is truthy: the field was validated earlier, to a non-empty string. */
  predicate Truthy(values: map<string, Option<string>>, name: string) {
    name in values && values[name].Some? && values[name].value != []
  }

  /** `validate_paths`, as pydantic calls it for one field: `values` holds only the
      fields declared, and validated, before this one. */
  function ValidatePaths(v: Option<string>, values: map<string, Option<string>>): (r: Outcome<Option<string>>)
    ensures r.Ok? <==> Truthy(values, "file_path") || Truthy(values, "directory_path")
    ensures r.Ok? ==> r.value == v
    ensures r.Raise? ==> r.exc == ValueError(PathRequired)
  {
    if !Truthy(values, "file_path") && !Truthy(values, "directory_path") then Raise(ValueError(PathRequired))
    else Ok(v)
  }

  /** The value a supplied field is validated with. */
  function SuppliedValue(f: Supplied): Option<string> {
    match f
    case Given(t) => Some(t)
    case _ => None
  }

  /** `DocumentProcessRequest(...)` as written: the validator runs on each path field
      that is supplied (`null` included), in declaration order; a field left out takes
      its default without it. For `file_path` nothing is in `values` yet, and for
      `directory_path` the only earlier path is a `file_path` that is either the
      default `None` or refused, so every supplied path is refused. */
  function NewDocumentProcessRequest(filePath: Supplied, directoryPath: Supplied, overwrite: Option<bool>)
    : (r: Checked<DocumentProcessRequest>)
    ensures r.Valid? <==> filePath.Missing? && directoryPath.Missing?
    ensures r.Valid? ==> r.value == DocumentProcessRequest(None, None, overwrite.Some? && overwrite.value)
    ensures r.Invalid? ==>
      && ("file_path" in r.fields <==> !filePath.Missing?)
      && ("directory_path" in r.fields <==> !directoryPath.Missing?)
  {
    var fileCheck := if filePath.Missing? then Ok(None) else ValidatePaths(SuppliedValue(filePath), map[]);
    var values := if fileCheck.Ok? then map["file_path" := fileCheck.value] else map[];
    var dirCheck := if directoryPath.Missing? then Ok(None) else ValidatePaths(SuppliedValue(directoryPath), values);
    var errors := FieldError(fileCheck.Ok?, "file_path") + FieldError(dirCheck.Ok?, "directory_path");
    if errors == [] then Valid(DocumentProcessRequest(fileCheck.value, dirCheck.value, overwrite.Some? && overwrite.value))
    else Invalid(errors)
  }

  /** A supplied path that is a non-empty string. */
  predicate GivenPath(f: Supplied) {
    f.Given? && f.text != []
  }

  /** The check the validator's message asks for, made once over the whole model:
      at least one of the two paths is a non-empty string. */
  function CorrectedDocumentProcessRequest(filePath: Supplied, directoryPath: Supplied, overwrite: Option<bool>)
    : (r: Checked<DocumentProcessRequest>)
    ensures r.Valid? <==> GivenPath(filePath) || GivenPath(directoryPath)
    ensures r.Valid? ==>
      && r.value.filePath == SuppliedValue(filePath)
      && r.value.directoryPath == SuppliedValue(directoryPath)
      && r.value.overwrite == (overwrite.Some? && overwrite.value)
    ensures r.Invalid? ==> r.fields == ["__root__"]
  {
    var values := map["file_path" := SuppliedValue(filePath), "directory_path" := SuppliedValue(directoryPath)];
    if Truthy(values, "file_path") || Truthy(values, "directory_path") then
      Valid(DocumentProcessRequest(SuppliedValue(filePath), SuppliedValue(directoryPath), overwrite.Some? && overwrite.value))
    else Invalid(["__root__"])
  }

  /** A body naming one file is refused by the validator as written, and accepted
      by the corrected check. */
  lemma FilePathRefused()
    ensures NewDocumentProcessRequest(Given("data/a.pdf"), Missing, None) == Invalid(["file_path"])
    ensures CorrectedDocumentProcessRequest(Given("data/a.pdf"), Missing, None)
            == Valid(DocumentProcessRequest(Some("data/a.pdf"), None, false))
  {
    assert SuppliedValue(Given("data/a.pdf")) == Some("data/a.pdf");
  }
}
