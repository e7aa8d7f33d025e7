/** Service settings (src/config/settings.py): the pydantic settings object as a
    dictionary of attribute values, `update_settings`, `validate_settings`, the
    shared instance `get_settings` hands out, and the typed view of the tuning
    values the rest of the service reads. */
module Config {
  import opened Common

  /** The field defaults, before the environment is consulted. */
  function Defaults(): (d: map<string, Value>)
    ensures "port" in d && d["port"] == VInt(8000)
  {
    map[
      "app_name" := VStr("RAG知识库问答系统"), "app_version" := VStr("2.0.0"),
      "debug" := VBool(false), "host" := VStr("0.0.0.0"), "port" := VInt(8000),
      "workers" := VInt(1),
      "ollama_base_url" := VStr("http://ollama:11434"),
      "ollama_model" := VStr("qwen2.5:7b-instruct"), "ollama_timeout" := VInt(300),
      "chroma_host" := VStr("chroma"), "chroma_port" := VInt(8000),
      "chroma_collection" := VStr("rag_documents"),
      "embedding_model" := VStr("BAAI/bge-large-zh-v1.5"), "embedding_device" := VStr("cuda"),
      "redis_host" := VStr("redis"), "redis_port" := VInt(6379), "redis_db" := VInt(0),
      "redis_password" := VNone, "cache_ttl" := VInt(3600),
      "max_file_size" := VInt(50 * 1024 * 1024),
      "supported_formats" := VList([VStr("pdf"), VStr("txt"), VStr("md"), VStr("docx")]),
      "chunk_size" := VInt(1000), "chunk_overlap" := VInt(200),
      "retrieval_k" := VInt(5), "similarity_threshold" := VReal(0.7),
      "max_tokens" := VInt(2000), "temperature" := VReal(0.7),
      "enable_metrics" := VBool(true), "metrics_port" := VInt(8001),
      "log_level" := VStr("INFO"),
      "log_format" := VStr("%(asctime)s - %(name)s - %(levelname)s - %(message)s"),
      "api_key" := VNone, "cors_origins" := VList([VStr("*")])]
  }

  /** The number a value stands for in a Python `<` or `>` against an int, or
      None when that comparison raises `TypeError`. */
  function NumberOf(v: Value): (n: Option<real>)
    ensures v.VInt? ==> n == Some(v.i as real)
    ensures v.VReal? ==> n == Some(v.r)
    ensures v.VBool? ==> n == Some(if v.b then 1.0 else 0.0)
    ensures n == None <==> v.VNone? || v.VStr? || v.VList?
  {
    match v
    case VBool(b) => Some(if b then 1.0 else 0.0)
    case VInt(i) => Some(i as real)
    case VReal(r) => Some(r)
    case _ => None
  }

  /** The attributes `validate_settings` requires to be truthy, in the order it checks them. */
  const RequiredConfigs: seq<string> := ["ollama_base_url", "chroma_host", "redis_host"]

  /** The required attribute `name` is present and truthy. */
  predicate IsSet(attrs: map<string, Value>, name: string) {
    name in attrs && Truthy(attrs[name])
  }

  /** Each required attribute is present and truthy. */
  predicate RequiredSet(attrs: map<string, Value>) {
    forall c :: c in RequiredConfigs ==> IsSet(attrs, c)
  }

  /** `lo <= attrs[name] <= hi`, false when the attribute is missing or the comparison raises. */
  predicate InRange(attrs: map<string, Value>, name: string, lo: real, hi: Option<real>) {
    name in attrs && NumberOf(attrs[name]).Some?
    && lo <= NumberOf(attrs[name]).value
    && (hi.None? || NumberOf(attrs[name]).value <= hi.value)
  }

  /** `validate_settings`: the checks in source order, any raised error (including
      a `TypeError` from comparing a non-number) turning into False. */
  function ValidateSettings(attrs: map<string, Value>): (ok: bool)
    ensures ok ==> RequiredSet(attrs)
    ensures ok ==> InRange(attrs, "port", 1.0, Some(65535.0))
    ensures ok ==> InRange(attrs, "chunk_size", 100.0, None)
    ensures ok ==> InRange(attrs, "similarity_threshold", 0.0, Some(1.0))
  {
    if !IsSet(attrs, RequiredConfigs[0]) || !IsSet(attrs, RequiredConfigs[1]) || !IsSet(attrs, RequiredConfigs[2]) then false
    else if !InRange(attrs, "port", 1.0, Some(65535.0)) then false
    else if !InRange(attrs, "chunk_size", 100.0, None) then false
    else InRange(attrs, "similarity_threshold", 0.0, Some(1.0))
  }

  /** The converse: settings that pass every check are valid. */
  lemma ValidWhenAllChecksPass(attrs: map<string, Value>)
    requires RequiredSet(attrs)
    requires InRange(attrs, "port", 1.0, Some(65535.0))
    requires InRange(attrs, "chunk_size", 100.0, None)
    requires InRange(attrs, "similarity_threshold", 0.0, Some(1.0))
    ensures ValidateSettings(attrs)
  {
  }

  /** The shipped defaults pass validation. */
  lemma DefaultsValidate()
    ensures ValidateSettings(Defaults())
  {
    DefaultHostsSet();
    DefaultRetrievalInRange();
  }

  lemma DefaultHostsSet()
    ensures IsSet(Defaults(), "ollama_base_url") && IsSet(Defaults(), "chroma_host") && IsSet(Defaults(), "redis_host")
  {
    var d := Defaults();
    assert d["ollama_base_url"] == VStr("http://ollama:11434");
    assert d["chroma_host"] == VStr("chroma");
    assert d["redis_host"] == VStr("redis");
  }

  lemma DefaultRetrievalInRange()
    ensures InRange(Defaults(), "chunk_size", 100.0, None)
    ensures InRange(Defaults(), "similarity_threshold", 0.0, Some(1.0))
  {
    var d := Defaults();
    assert d["chunk_size"] == VInt(1000);
    assert d["similarity_threshold"] == VReal(0.7);
  }

  /** An empty host fails validation. */
  lemma EmptyHostFails(attrs: map<string, Value>)
    ensures !ValidateSettings(attrs["chroma_host" := VStr("")])
  {
    assert "chroma_host" in RequiredConfigs;
  }

  /** A port assigned as a string makes the comparison raise, so validation fails. */
  lemma TextPortFails(attrs: map<string, Value>, port: string)
    ensures !ValidateSettings(attrs["port" := VStr(port)])
  {
  }

  /** The attributes after `update_settings` assigned every known key of `kwargs`
      (pydantic does not validate assignments, so any value is stored). */
  function Applied(attrs: map<string, Value>, kwargs: map<string, Value>): (a: map<string, Value>)
    ensures a.Keys == attrs.Keys
    ensures forall k :: k in attrs && k in kwargs ==> a[k] == kwargs[k]
    ensures forall k :: k in attrs && k !in kwargs ==> a[k] == attrs[k]
  {
    map k | k in attrs :: if k in kwargs then kwargs[k] else attrs[k]
  }

  /** Applying an update twice is applying it once. */
  lemma AppliedIdempotent(attrs: map<string, Value>, kwargs: map<string, Value>)
    ensures Applied(Applied(attrs, kwargs), kwargs) == Applied(attrs, kwargs)
  {
  }

  /** One more keyword argument assigns its value when it names an attribute. */
  lemma AppliedStep(attrs: map<string, Value>, kwargs: seq<(string, Value)>, n: nat)
    requires DistinctKeys(kwargs) && n < |kwargs|
    ensures DistinctKeys(kwargs[..n]) && DistinctKeys(kwargs[..n + 1])
    ensures var before := Applied(attrs, KwargsMap(kwargs[..n]));
      Applied(attrs, KwargsMap(kwargs[..n + 1]))
        == if kwargs[n].0 in attrs then before[kwargs[n].0 := kwargs[n].1] else before
  {
    KwargsMapStep(kwargs, n);
    AppliedUpdate(attrs, KwargsMap(kwargs[..n]), kwargs[n].0, kwargs[n].1);
  }

  lemma KwargsMapStep(kwargs: seq<(string, Value)>, n: nat)
    requires DistinctKeys(kwargs) && n < |kwargs|
    ensures DistinctKeys(kwargs[..n]) && DistinctKeys(kwargs[..n + 1])
    ensures KwargsMap(kwargs[..n + 1]) == KwargsMap(kwargs[..n])[kwargs[n].0 := kwargs[n].1]
  {
    assert kwargs[..n + 1][..n] == kwargs[..n];
  }

  lemma AppliedUpdate(attrs: map<string, Value>, kwargs: map<string, Value>, key: string, value: Value)
    ensures Applied(attrs, kwargs[key := value])
         == if key in attrs then Applied(attrs, kwargs)[key := value] else Applied(attrs, kwargs)
  {
  }

  /** Keyword arguments: a Python call never repeats a keyword. */
  predicate DistinctKeys(kwargs: seq<(string, Value)>) {
    forall i, j :: 0 <= i < j < |kwargs| ==> kwargs[i].0 != kwargs[j].0
  }

  function KwargsMap(kwargs: seq<(string, Value)>): (m: map<string, Value>)
    requires DistinctKeys(kwargs)
    ensures m.Keys == set i | 0 <= i < |kwargs| :: kwargs[i].0
    ensures forall i :: 0 <= i < |kwargs| ==> m[kwargs[i].0] == kwargs[i].1
  {
    if kwargs == [] then map[]
    else
      var m := KwargsMap(kwargs[..|kwargs| - 1]);
      m[kwargs[|kwargs| - 1].0 := kwargs[|kwargs| - 1].1]
  }

  /** The tuning values the rest of the service reads from the settings object. */
  datatype Tuning = Tuning(
    retrievalK: int,
    similarityThreshold: real,
    maxTokens: int,
    temperature: real,
    chunkSize: int,
    chunkOverlap: int,
    maxFileSize: int,
    supportedFormats: seq<string>,
    apiKey: Option<string>,
    ollamaModel: string)

  /** The typed view of a settings dictionary whose tuning attributes have their declared types. */
  function TuningOf(attrs: map<string, Value>): (t: Option<Tuning>)
    ensures t.Some? ==> "retrieval_k" in attrs && attrs["retrieval_k"] == VInt(t.value.retrievalK)
    ensures t.Some? ==> "similarity_threshold" in attrs && NumberOf(attrs["similarity_threshold"]) == Some(t.value.similarityThreshold)
    ensures t.Some? ==> "api_key" in attrs && (attrs["api_key"] == VNone <==> t.value.apiKey == None)
  {
    if "retrieval_k" in attrs && attrs["retrieval_k"].VInt?
      && "similarity_threshold" in attrs && NumberOf(attrs["similarity_threshold"]).Some?
      && "max_tokens" in attrs && attrs["max_tokens"].VInt?
      && "temperature" in attrs && NumberOf(attrs["temperature"]).Some?
      && "chunk_size" in attrs && attrs["chunk_size"].VInt?
      && "chunk_overlap" in attrs && attrs["chunk_overlap"].VInt?
      && "max_file_size" in attrs && attrs["max_file_size"].VInt?
      && "supported_formats" in attrs && attrs["supported_formats"].VList?
      && (forall v :: v in attrs["supported_formats"].items ==> v.VStr?)
      && "api_key" in attrs && (attrs["api_key"].VNone? || attrs["api_key"].VStr?)
      && "ollama_model" in attrs && attrs["ollama_model"].VStr?
    then
      var formats := attrs["supported_formats"].items;
      Some(Tuning(
        attrs["retrieval_k"].i,
        NumberOf(attrs["similarity_threshold"]).value,
        attrs["max_tokens"].i,
        NumberOf(attrs["temperature"]).value,
        attrs["chunk_size"].i,
        attrs["chunk_overlap"].i,
        attrs["max_file_size"].i,
        seq(|formats|, i requires 0 <= i < |formats| => formats[i].s),
        if attrs["api_key"].VNone? then None else Some(attrs["api_key"].s),
        attrs["ollama_model"].s))
    else None
  }

  /** The defaults seen through the typed view: the formats carry no leading dot. */
  lemma DefaultTuning()
    ensures TuningOf(Defaults()) == Some(Tuning(5, 0.7, 2000, 0.7, 1000, 200, 52428800, ["pdf", "txt", "md", "docx"], None, "qwen2.5:7b-instruct"))
  {
    DefaultNumbers();
    DefaultSizes();
    DefaultTexts();
    var formats := [VStr("pdf"), VStr("txt"), VStr("md"), VStr("docx")];
    assert seq(|formats|, i requires 0 <= i < |formats| => formats[i].s) == ["pdf", "txt", "md", "docx"];
  }

  lemma DefaultNumbers()
    ensures var d := Defaults();
      && "retrieval_k" in d && d["retrieval_k"] == VInt(5)
      && "similarity_threshold" in d && d["similarity_threshold"] == VReal(0.7)
      && "max_tokens" in d && d["max_tokens"] == VInt(2000)
      && "temperature" in d && d["temperature"] == VReal(0.7)
  {
  }

  lemma DefaultSizes()
    ensures var d := Defaults();
      && "chunk_size" in d && d["chunk_size"] == VInt(1000)
      && "chunk_overlap" in d && d["chunk_overlap"] == VInt(200)
      && "max_file_size" in d && d["max_file_size"] == VInt(52428800)
  {
  }

  lemma DefaultTexts()
    ensures var d := Defaults();
      && "supported_formats" in d && d["supported_formats"] == VList([VStr("pdf"), VStr("txt"), VStr("md"), VStr("docx")])
      && "api_key" in d && d["api_key"] == VNone
      && "ollama_model" in d && d["ollama_model"] == VStr("qwen2.5:7b-instruct")
  {
  }

  /** The order the settings sources are read in: a field takes the process
      environment's value if it has one, otherwise the `.env` file's, otherwise
      its default; no source adds a field. */
  lemma SourcePrecedence(dotenv: map<string, Value>, environ: map<string, Value>, name: string)
    ensures var a := Applied(Applied(Defaults(), dotenv), environ);
      && a.Keys == Defaults().Keys
      && (name in Defaults() && name in environ ==> a[name] == environ[name])
      && (name in Defaults() && name !in environ && name in dotenv ==> a[name] == dotenv[name])
      && (name in Defaults() && name !in environ && name !in dotenv ==> a[name] == Defaults()[name])
  {
  }

  /** The settings object: one attribute dictionary, changed in place. */
  class Settings {
    var attrs: map<string, Value>

    /** `Settings()`: every field a variable names takes that variable's value. A
        variable of the process environment wins over one of the `.env` file, and
        either wins over the default. Both maps are keyed by the lower-cased
        variable name, since the lookup ignores case, and hold values already
        parsed into the field's type; a variable naming no field is ignored. */
    constructor (dotenv: map<string, Value>, environ: map<string, Value>)
      ensures attrs == Applied(Applied(Defaults(), dotenv), environ)
    {
      attrs := Applied(Applied(Defaults(), dotenv), environ);
    }

    /** `update_settings(**kwargs)`. `classAttributes` are names `hasattr` finds on
        the object that are not fields (its methods and class members): pydantic
        refuses to assign those and raises `ValueError`, leaving the keys already
        processed assigned. Unknown names are skipped. */
    method UpdateSettings(kwargs: seq<(string, Value)>, classAttributes: set<string>) returns (r: Outcome<()>)
      requires DistinctKeys(kwargs)
      requires forall c :: c in classAttributes ==> c !in attrs
      modifies this
      ensures r.Ok? <==> forall i :: 0 <= i < |kwargs| ==> kwargs[i].0 !in classAttributes
      ensures r.Ok? ==> attrs == Applied(old(attrs), KwargsMap(kwargs))
      ensures r.Raise? ==> r.exc.ValueError?
      ensures r.Raise? ==> exists n ::
                             && 0 <= n < |kwargs| && kwargs[n].0 in classAttributes
                             && (forall i :: 0 <= i < n ==> kwargs[i].0 !in classAttributes)
                             && attrs == Applied(old(attrs), KwargsMap(kwargs[..n]))
    {
      var n := 0;
      while n < |kwargs|
        invariant 0 <= n <= |kwargs|
        invariant forall i :: 0 <= i < n ==> kwargs[i].0 !in classAttributes
        invariant attrs == Applied(old(attrs), KwargsMap(kwargs[..n]))
      {
        var (key, value) := kwargs[n];
        if key in classAttributes {
          r := Raise(ValueError("\"Settings\" object has no field \"" + key + "\""));
          return;
        }
        AppliedStep(old(attrs), kwargs, n);
        Assign(key, value);
        n := n + 1;
      }
      assert kwargs[..n] == kwargs;
      r := Ok(());
    }

    /** `setattr(self, key, value)` for a name `hasattr` finds among the fields;
        any other name is skipped. */
    method Assign(key: string, value: Value)
      modifies this
      ensures attrs == if key in old(attrs) then old(attrs)[key := value] else old(attrs)
    {
      if key in attrs {
        attrs := attrs[key := value];
      }
    }
  }

  /** The module-level instance: `get_settings` returns this one object every time. */
  class Registry {
    const settings: Settings

    /** The module-level `settings = Settings()`, read from the `.env` file and the
        process environment once, when the module is imported. */
    constructor (dotenv: map<string, Value>, environ: map<string, Value>)
      ensures fresh(settings) && settings.attrs == Applied(Applied(Defaults(), dotenv), environ)
    {
      settings := new Settings(dotenv, environ);
    }

    method GetSettings() returns (s: Settings)
      ensures s == settings
    {
      s := settings;
    }
  }
}
