/** The system-management HTTP routes (src/api/routes/system.py): the health
    report as the API shapes it, the partial configuration update, and the
    initialisation endpoint that refuses to initialise twice. */
module SystemRoutes {
  import opened Common
  import Engine
  import ApiModels
  import Config
  import Documents
  import QA

  const HealthDone := "健康检查完成"
  const HealthFailedPrefix := "健康检查失败: "
  /** What pydantic reports when a component's `document_count` is not an integer. */
  const CountInvalid := "document_count: value is not a valid integer"
  const NothingToUpdate := "没有提供要更新的配置项"
  const UpdatedPrefix := "配置更新成功，更新了 "
  const UpdatedSuffix := " 个配置项"
  const AlreadyInitialized := "系统已经初始化"
  const InitializeDone := "系统初始化成功"
  const InitializeFailedPrefix := "系统初始化失败: "

  // ---------------------------------------------------------------- /system/health

  /** The `ComponentHealth` response model: the engine's `initialized` flag is not part of it. */
  datatype ComponentHealth = ComponentHealth(status: string, error: Option<string>, documentCount: Option<int>, model: Option<string>)

  datatype HealthCheckResponse = HealthCheckResponse(success: bool, message: string, status: string,
                                                     components: map<string, ComponentHealth>)

  /** The `document_count` field: an integer or nothing; any other value fails validation. */
  function CountField(v: Option<Value>): (r: Outcome<Option<int>>)
    ensures r.Ok? <==> v.None? || v.value.VInt? || v.value.VNone?
    ensures v.Some? && v.value.VInt? ==> r == Ok(Some(v.value.i))
    ensures r.Raise? ==> r.exc == ValueError(CountInvalid)
  {
    if v.None? || v.value.VNone? then Ok(None)
    else if v.value.VInt? then Ok(Some(v.value.i))
    else Raise(ValueError(CountInvalid))
  }

  /** One engine component as a `ComponentHealth`. */
  function ComponentHealthOf(c: Engine.Component): (r: Outcome<ComponentHealth>)
    ensures r.Ok? <==> CountField(c.documentCount).Ok?
    ensures r.Ok? ==> && r.value.status == c.status && r.value.error == c.error && r.value.model == c.model
                      && r.value.documentCount == CountField(c.documentCount).value
    ensures r.Raise? ==> r.exc == ValueError(CountInvalid)
  {
    var count := CountField(c.documentCount);
    if count.Raise? then Raise(count.exc)
    else Ok(ComponentHealth(c.status, c.error, count.value, c.model))
  }

  predicate Convertible(cs: map<string, Engine.Component>) {
    forall name :: name in cs ==> ComponentHealthOf(cs[name]).Ok?
  }

  /** The components dictionary of the response, every component converted. */
  function ComponentsHealth(cs: map<string, Engine.Component>): (r: map<string, ComponentHealth>)
    requires Convertible(cs)
    ensures r.Keys == cs.Keys
    ensures forall name :: name in cs ==> r[name] == ComponentHealthOf(cs[name]).value
  {
    map name | name in cs :: ComponentHealthOf(cs[name]).value
  }

  /** The loop of `health_check` that builds the components dictionary: the first
      component that fails validation aborts it. */
  method FormatComponents(cs: map<string, Engine.Component>) returns (r: Outcome<map<string, ComponentHealth>>)
    ensures r.Ok? <==> Convertible(cs)
    ensures r.Ok? ==> r.value == ComponentsHealth(cs)
    ensures r.Raise? ==> r.exc == ValueError(CountInvalid)
  {
    var out: map<string, ComponentHealth> := map[];
    var remaining := cs.Keys;
    while remaining != {}
      invariant remaining <= cs.Keys
      invariant out.Keys == cs.Keys - remaining
      invariant forall name :: name in out ==> ComponentHealthOf(cs[name]) == Ok(out[name])
      decreases remaining
    {
      var name :| name in remaining;
      var c := ComponentHealthOf(cs[name]);
      if c.Raise? {
        return Raise(c.exc);
      }
      out := out[name := c.value];
      remaining := remaining - {name};
    }
    r := Ok(out);
  }

  /** `health_check` of the route: the engine's report reshaped, or, when the engine
      raised or a component did not validate, an unhealthy report without components. */
  function HealthResponse(h: Outcome<Engine.Health>): (resp: HealthCheckResponse)
    ensures resp.success <==> h.Ok? && Convertible(h.value.components)
    ensures resp.success ==>
      && resp.message == HealthDone && resp.status == h.value.status
      && resp.components.Keys == h.value.components.Keys
      && forall name :: name in resp.components ==> resp.components[name].status == h.value.components[name].status
    ensures h.Raise? ==> resp == HealthCheckResponse(false, HealthFailedPrefix + h.exc.Text(), "unhealthy", map[])
    ensures !resp.success ==> resp.status == "unhealthy" && resp.components == map[]
  {
    if h.Raise? then HealthCheckResponse(false, HealthFailedPrefix + h.exc.Text(), "unhealthy", map[])
    else if !Convertible(h.value.components) then HealthCheckResponse(false, HealthFailedPrefix + CountInvalid, "unhealthy", map[])
    else HealthCheckResponse(true, HealthDone, h.value.status, ComponentsHealth(h.value.components))
  }

  /** Every component the engine's report can hold validates: the only count it
      reports is an integer. */
  lemma EngineReportConverts(initialized: bool, timestamp: real, vector: Outcome<Documents.Stats>, llm: Outcome<QA.QAResult>,
                             model: string, cacheEnabled: bool, ping: Outcome<()>)
    ensures Convertible(Engine.HealthOf(initialized, timestamp, vector, llm, model, cacheEnabled, ping).components)
  {
    var h := Engine.HealthOf(initialized, timestamp, vector, llm, model, cacheEnabled, ping);
    forall name | name in h.components
      ensures ComponentHealthOf(h.components[name]).Ok?
    {
      var c := h.components[name];
      assert c.documentCount.None? || c.documentCount.value.VInt?;
    }
  }

  /** Before initialisation the route succeeds and reports one unhealthy component. */
  lemma UninitializedReportedUnhealthy(timestamp: real, ping: Outcome<()>)
    ensures var resp := HealthResponse(Ok(Engine.HealthOf(false, timestamp, Ok(Documents.StatsError("")), Ok(QA.EmptyResult), "", false, ping)));
      && resp.success && resp.status == "unhealthy"
      && resp.components.Keys == {"initialization"} && resp.components["initialization"].status == "unhealthy"
  {
    EngineReportConverts(false, timestamp, Ok(Documents.StatsError("")), Ok(QA.EmptyResult), "", false, ping);
  }

  /** Once initialised, the route reports the engine healthy, with all four components,
      whatever the index and the language model did. */
  lemma InitializedReportedHealthy(timestamp: real, stats: Documents.Stats, probe: QA.QAResult,
                                   model: string, cacheEnabled: bool, ping: Outcome<()>)
    ensures var resp := HealthResponse(Ok(Engine.HealthOf(true, timestamp, Ok(stats), Ok(probe), model, cacheEnabled, ping)));
      && resp.success && resp.message == HealthDone && resp.status == "healthy"
      && resp.components.Keys == {"initialization", "vector_database", "llm", "cache"}
  {
    EngineReportConverts(true, timestamp, Ok(stats), Ok(probe), model, cacheEnabled, ping);
  }

  /** `GET /system/health`: the engine's `health_check`, reshaped. */
  method HealthCheck(engine: Engine.RAGEngine, timestamp: real, ping: Outcome<()>) returns (resp: HealthCheckResponse)
    requires engine.Valid()
    modifies engine.qaProcessor
    ensures !engine.initialized ==>
      resp == HealthResponse(Ok(Engine.HealthOf(false, timestamp, Ok(Documents.StatsError("")), Ok(QA.EmptyResult), "", false, ping)))
    ensures engine.initialized ==>
      resp == HealthResponse(Ok(Engine.HealthOf(true, timestamp,
                                                Ok(Documents.CollectionStats(engine.documentProcessor.env,
                                                                             engine.documentProcessor.collection)),
                                                Ok(QA.Process(engine.qaProcessor.env, engine.qaProcessor.tuning,
                                                              engine.qaProcessor.cacheEnabled, old(engine.qaProcessor.cache),
                                                              Engine.HealthQuestion, Some(1), None, false).0),
                                                engine.qaProcessor.tuning.ollamaModel, engine.qaProcessor.cacheEnabled, ping)))
    ensures engine.initialized ==>
      && resp.success && resp.status == "healthy"
      && resp.components.Keys == {"initialization", "vector_database", "llm", "cache"}
      && engine.qaProcessor.cache == old(engine.qaProcessor.cache)
  {
    var h := engine.HealthCheck(timestamp, ping);
    var components := FormatComponents(h.components);
    if components.Raise? {
      resp := HealthCheckResponse(false, HealthFailedPrefix + components.exc.Text(), "unhealthy", map[]);
    } else {
      resp := HealthCheckResponse(true, HealthDone, h.status, components.value);
    }
    if engine.initialized {
      InitializedReportedHealthy(timestamp, Documents.CollectionStats(engine.documentProcessor.env, engine.documentProcessor.collection),
                                 QA.Process(engine.qaProcessor.env, engine.qaProcessor.tuning, engine.qaProcessor.cacheEnabled,
                                            old(engine.qaProcessor.cache), Engine.HealthQuestion, Some(1), None, false).0,
                                 engine.qaProcessor.tuning.ollamaModel, engine.qaProcessor.cacheEnabled, ping);
    } else {
      EngineReportConverts(false, timestamp, Ok(Documents.StatsError("")), Ok(QA.EmptyResult), "", false, ping);
    }
  }

  // ---------------------------------------------------------------- PUT /system/config

  /** The six tuning settings `update_system_config` answers with. */
  datatype Setting = ChunkSize | ChunkOverlap | RetrievalK | SimilarityThreshold | MaxTokens | Temperature

  /** A setting's attribute name, which is also its key in the request and the reply. */
  function Key(s: Setting): string {
    match s
    case ChunkSize => "chunk_size"
    case ChunkOverlap => "chunk_overlap"
    case RetrievalK => "retrieval_k"
    case SimilarityThreshold => "similarity_threshold"
    case MaxTokens => "max_tokens"
    case Temperature => "temperature"
  }

  const AllSettings: set<Setting> := {ChunkSize, ChunkOverlap, RetrievalK, SimilarityThreshold, MaxTokens, Temperature}

  /** The reply's `config`, keyed by setting (each stands for its `Key`). */
  datatype ConfigResponse = ConfigResponse(success: bool, message: string, config: map<Setting, Value>)

  predicate HasConfigKeys(attrs: map<string, Value>) {
    forall s: Setting :: Key(s) in attrs
  }

  /** `current_config`: the six tuning settings as they are now. */
  function CurrentConfig(attrs: map<string, Value>): (c: map<Setting, Value>)
    requires HasConfigKeys(attrs)
    ensures c.Keys == AllSettings
    ensures forall s :: s in c ==> c[s] == attrs[Key(s)]
  {
    map s: Setting | s in AllSettings :: attrs[Key(s)]
  }

  /** `request.dict(exclude_unset=True).get(key)`: a field's value when it was given. */
  function FieldValue(req: ApiModels.ConfigUpdateRequest, s: Setting): Option<Value> {
    match s
    case ChunkSize => if req.chunkSize.Some? then Some(VInt(req.chunkSize.value)) else None
    case ChunkOverlap => if req.chunkOverlap.Some? then Some(VInt(req.chunkOverlap.value)) else None
    case RetrievalK => if req.retrievalK.Some? then Some(VInt(req.retrievalK.value)) else None
    case SimilarityThreshold => if req.similarityThreshold.Some? then Some(VReal(req.similarityThreshold.value)) else None
    case MaxTokens => if req.maxTokens.Some? then Some(VInt(req.maxTokens.value)) else None
    case Temperature => if req.temperature.Some? then Some(VReal(req.temperature.value)) else None
  }

  /** The number of fields the request gives. */
  function GivenCount(req: ApiModels.ConfigUpdateRequest): nat {
    (if req.chunkSize.Some? then 1 else 0) + (if req.chunkOverlap.Some? then 1 else 0)
    + (if req.retrievalK.Some? then 1 else 0) + (if req.similarityThreshold.Some? then 1 else 0)
    + (if req.maxTokens.Some? then 1 else 0) + (if req.temperature.Some? then 1 else 0)
  }

  /** `update_data`: one entry per field the request gives, holding its value. */
  function UpdateData(req: ApiModels.ConfigUpdateRequest): (d: map<Setting, Value>)
    ensures forall s :: s in d <==> FieldValue(req, s).Some?
    ensures forall s :: s in d ==> Some(d[s]) == FieldValue(req, s)
  {
    map s: Setting | s in AllSettings && FieldValue(req, s).Some? :: FieldValue(req, s).value
  }

  /** `before`, with `s` added when it is given. */
  function With(before: set<Setting>, s: Setting, given: bool): set<Setting> {
    if given then before + {s} else before
  }

  /** The given settings. */
  function GivenSettings(req: ApiModels.ConfigUpdateRequest): set<Setting> {
    var s1 := With({}, ChunkSize, req.chunkSize.Some?);
    var s2 := With(s1, ChunkOverlap, req.chunkOverlap.Some?);
    var s3 := With(s2, RetrievalK, req.retrievalK.Some?);
    var s4 := With(s3, SimilarityThreshold, req.similarityThreshold.Some?);
    var s5 := With(s4, MaxTokens, req.maxTokens.Some?);
    With(s5, Temperature, req.temperature.Some?)
  }

  /** `update_data` holds exactly the given fields, so its length counts them and it
      is empty exactly when the request gives nothing. */
  lemma UpdateDataSize(req: ApiModels.ConfigUpdateRequest)
    ensures UpdateData(req).Keys == GivenSettings(req)
    ensures |UpdateData(req)| == GivenCount(req)
    ensures UpdateData(req) == map[] <==> GivenCount(req) == 0
  {
    UpdateDataKeys(req);
    GivenSettingsCount(req);
    assert |UpdateData(req)| == |UpdateData(req).Keys|;
  }

  lemma UpdateDataKeys(req: ApiModels.ConfigUpdateRequest)
    ensures UpdateData(req).Keys == GivenSettings(req)
  {
    var d := UpdateData(req);
    forall s: Setting
      ensures s in d.Keys <==> s in GivenSettings(req)
    {
      assert s in d.Keys <==> FieldValue(req, s).Some?;
    }
  }

  lemma GivenSettingsCount(req: ApiModels.ConfigUpdateRequest)
    ensures |GivenSettings(req)| == GivenCount(req)
  {
    var s1 := With({}, ChunkSize, req.chunkSize.Some?);
    AddIfGiven({}, {}, ChunkSize, req.chunkSize.Some?);
    var s2 := With(s1, ChunkOverlap, req.chunkOverlap.Some?);
    AddIfGiven(s1, {ChunkSize}, ChunkOverlap, req.chunkOverlap.Some?);
    var s3 := With(s2, RetrievalK, req.retrievalK.Some?);
    AddIfGiven(s2, {ChunkSize, ChunkOverlap}, RetrievalK, req.retrievalK.Some?);
    var s4 := With(s3, SimilarityThreshold, req.similarityThreshold.Some?);
    AddIfGiven(s3, {ChunkSize, ChunkOverlap, RetrievalK}, SimilarityThreshold,
               req.similarityThreshold.Some?);
    var s5 := With(s4, MaxTokens, req.maxTokens.Some?);
    AddIfGiven(s4, {ChunkSize, ChunkOverlap, RetrievalK, SimilarityThreshold}, MaxTokens,
               req.maxTokens.Some?);
    AddIfGiven(s5, {ChunkSize, ChunkOverlap, RetrievalK, SimilarityThreshold, MaxTokens},
               Temperature, req.temperature.Some?);
  }

  /** A given setting that none of the earlier ones can be adds one to the count, and
      the set stays within the earlier bound plus that setting. */
  lemma AddIfGiven(before: set<Setting>, bound: set<Setting>, s: Setting, given: bool)
    requires before <= bound && s !in bound
    ensures |With(before, s, given)| == |before| + if given then 1 else 0
    ensures With(before, s, given) <= bound + {s}
  {
  }

  /** The message reports how many settings the request named. */
  function UpdatedMessage(count: nat): string {
    UpdatedPrefix + NatText(count) + UpdatedSuffix
  }

  /** `update_system_config`: an empty request is refused with 400; otherwise the
      current tuning settings updated with the given fields (`dict.update` is map
      union with the right operand winning). The settings object is left as it was. */
  function UpdateSystemConfig(attrs: map<string, Value>, req: ApiModels.ConfigUpdateRequest): (r: Outcome<ConfigResponse>)
    requires HasConfigKeys(attrs)
    ensures r.Raise? <==> GivenCount(req) == 0
    ensures r.Raise? ==> r.exc == HTTPException(400, NothingToUpdate)
    ensures r.Ok? ==>
      && r.value.success && r.value.message == UpdatedMessage(GivenCount(req)) && 1 <= GivenCount(req) <= 6
      && r.value.config == CurrentConfig(attrs) + UpdateData(req)
  {
    var data := UpdateData(req);
    UpdateDataSize(req);
    if data == map[] then Raise(HTTPException(400, NothingToUpdate))
    else Ok(ConfigResponse(true, UpdatedMessage(|data|), CurrentConfig(attrs) + data))
  }

  /** The update answers with exactly the six tuning settings: a given field carries
      the request's value, every other one the setting's current value. */
  lemma UpdateOverridesGivenFields(attrs: map<string, Value>, req: ApiModels.ConfigUpdateRequest)
    requires HasConfigKeys(attrs) && GivenCount(req) > 0
    ensures var cfg := UpdateSystemConfig(attrs, req).value.config;
      && cfg.Keys == AllSettings
      && forall s :: s in cfg ==> cfg[s] == if FieldValue(req, s).Some? then FieldValue(req, s).value else attrs[Key(s)]
  {
    var cfg := UpdateSystemConfig(attrs, req).value.config;
    forall s | s in cfg
      ensures cfg[s] == if FieldValue(req, s).Some? then FieldValue(req, s).value else attrs[Key(s)]
    {
      if s in UpdateData(req) {
        assert cfg[s] == UpdateData(req)[s];
      } else {
        assert cfg[s] == CurrentConfig(attrs)[s];
      }
    }
  }

  /** The bounds `ConfigUpdateRequest` puts on a setting. */
  predicate ValueWithin(s: Setting, v: Value) {
    match s
    case ChunkSize => v.VInt? && 100 <= v.i <= 5000
    case ChunkOverlap => v.VInt? && 0 <= v.i <= 1000
    case RetrievalK => v.VInt? && 1 <= v.i <= 50
    case SimilarityThreshold => Config.NumberOf(v).Some? && 0.0 <= Config.NumberOf(v).value <= 1.0
    case MaxTokens => v.VInt? && 100 <= v.i <= 8000
    case Temperature => Config.NumberOf(v).Some? && 0.0 <= Config.NumberOf(v).value <= 2.0
  }

  predicate SettingsWithinBounds(attrs: map<string, Value>) {
    HasConfigKeys(attrs) && forall s: Setting :: ValueWithin(s, attrs[Key(s)])
  }

  /** A request that passed validation, applied to settings inside the same bounds,
      answers with a configuration inside them too. */
  lemma UpdatedConfigWithinBounds(attrs: map<string, Value>, req: ApiModels.ConfigUpdateRequest)
    requires SettingsWithinBounds(attrs)
    requires ApiModels.NewConfigUpdateRequest(req).Valid? && GivenCount(req) > 0
    ensures var cfg := UpdateSystemConfig(attrs, req).value.config;
      forall s :: s in cfg ==> ValueWithin(s, cfg[s])
  {
    UpdateOverridesGivenFields(attrs, req);
  }

  /** The default settings hold the six keys, inside the request bounds. */
  lemma DefaultsWithinRequestBounds()
    ensures SettingsWithinBounds(Config.Defaults())
  {
    Config.DefaultNumbers();
    Config.DefaultSizes();
    forall s: Setting
      ensures Key(s) in Config.Defaults() && ValueWithin(s, Config.Defaults()[Key(s)])
    {
    }
  }

  /** `PUT /system/config` reads the settings object and does not write it. */
  method UpdateConfig(settings: Config.Settings, req: ApiModels.ConfigUpdateRequest) returns (r: Outcome<ConfigResponse>)
    requires HasConfigKeys(settings.attrs)
    ensures r == UpdateSystemConfig(settings.attrs, req)
  {
    var updateData := UpdateData(req);
    UpdateDataSize(req);
    if updateData == map[] {
      return Raise(HTTPException(400, NothingToUpdate));
    }
    var currentConfig := CurrentConfig(settings.attrs);
    currentConfig := currentConfig + updateData;
    r := Ok(ConfigResponse(true, UpdatedMessage(|updateData|), currentConfig));
  }

  // ---------------------------------------------------------------- POST /system/initialize

  datatype InitializeResponse = InitializeResponse(success: bool, message: string, initialized: bool)

  /** What the engine's `initialize` does with the two processor constructions' failures. */
  function InitializeAttempt(docFailure: Option<Exc>, qaFailure: Option<Exc>): (r: Outcome<()>)
    ensures r.Ok? <==> docFailure.None? && qaFailure.None?
    ensures docFailure.Some? ==> r == Raise(docFailure.value)
    ensures docFailure.None? && qaFailure.Some? ==> r == Raise(qaFailure.value)
  {
    if docFailure.Some? then Raise(docFailure.value)
    else if qaFailure.Some? then Raise(qaFailure.value)
    else Ok(())
  }

  /** `initialize_system`'s reply: an initialised engine is not initialised again;
      otherwise the engine's own outcome decides, a failure becoming a 500. */
  function InitializeReply(wasInitialized: bool, attempt: Outcome<()>): (r: Outcome<InitializeResponse>)
    ensures r.Ok? <==> wasInitialized || attempt.Ok?
    ensures r.Ok? ==> r.value.success && r.value.initialized
    ensures wasInitialized ==> r == Ok(InitializeResponse(true, AlreadyInitialized, true))
    ensures !wasInitialized && attempt.Ok? ==> r.value.message == InitializeDone
    ensures !wasInitialized && attempt.Raise? ==> r == Raise(HTTPException(500, InitializeFailedPrefix + attempt.exc.Text()))
  {
    if wasInitialized then Ok(InitializeResponse(true, AlreadyInitialized, true))
    else if attempt.Raise? then Raise(HTTPException(500, InitializeFailedPrefix + attempt.exc.Text()))
    else Ok(InitializeResponse(true, InitializeDone, true))
  }

  /** `POST /system/initialize`. Once the engine is initialised, the call changes
      nothing, so the processors (and the question cache) survive a repeated call. */
  method InitializeSystem(engine: Engine.RAGEngine, cacheUp: bool, cache0: map<string, QA.QAResult>,
                          docEnv: Documents.DocEnv, collection: seq<Documents.Record>, docFailure: Option<Exc>,
                          qaEnv: QA.Env, tuning: Config.Tuning, qaFailure: Option<Exc>)
    returns (r: Outcome<InitializeResponse>)
    requires engine.Valid()
    modifies engine
    ensures engine.Valid()
    ensures r == InitializeReply(old(engine.initialized), InitializeAttempt(docFailure, qaFailure))
    ensures old(engine.initialized) ==> unchanged(engine)
    ensures engine.initialized <==> r.Ok?
    ensures !old(engine.initialized) && r.Ok? ==>
      && engine.documentProcessor.env == docEnv && engine.documentProcessor.collection == collection
      && engine.qaProcessor.tuning == tuning && engine.qaProcessor.cache == cache0
  {
    if engine.initialized {
      return Ok(InitializeResponse(true, AlreadyInitialized, true));
    }
    var out := engine.Initialize(cacheUp, cache0, docEnv, collection, docFailure, qaEnv, tuning, qaFailure);
    if out.Raise? {
      return Raise(HTTPException(500, InitializeFailedPrefix + out.exc.Text()));
    }
    r := Ok(InitializeResponse(true, InitializeDone, true));
  }
}
