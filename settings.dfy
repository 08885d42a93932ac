/** The dataclass settings backend: a flat, immutable record read from the process
    environment, with fixed defaults and one validation rule. */
module ConfigSettings {
  import opened Wrappers

  /** The process environment, variable name to value. */
  type Environ = map<string, string>

  // Names of the recognised environment variables (matched case-sensitively).
  const ENV := "ENV"
  const LOG_LEVEL := "LOG_LEVEL"
  const OPENROUTER_API_KEY := "OPENROUTER_API_KEY"
  const GEMINI_API_KEY := "GEMINI_API_KEY"
  const GROQ_API_KEY := "GROQ_API_KEY"
  const SERPAPI_KEY := "SERPAPI_KEY"
  const TTS_PROVIDER := "TTS_PROVIDER"
  const STT_PROVIDER := "STT_PROVIDER"
  const RAG_VECTOR_DB := "RAG_VECTOR_DB"
  const RAG_SEARCH_PROVIDER := "RAG_SEARCH_PROVIDER"

  // Field defaults.
  const DEFAULT_ENV := "development"
  const DEFAULT_LOG_LEVEL := "INFO"
  const DEFAULT_TTS_PROVIDER := "streamelements"
  const DEFAULT_STT_PROVIDER := "whisper"
  const DEFAULT_RAG_VECTOR_DB := "faiss"
  const DEFAULT_RAG_SEARCH_PROVIDER := "serpapi"

  /** The one `ENV` value that switches the key requirement off. */
  const TESTING := "testing"

  const MISSING_KEY_MESSAGE :=
    "At least one LLM API key (OPENROUTER_API_KEY, GEMINI_API_KEY, or GROQ_API_KEY) must be set for ENV != 'testing'"

  /** The exceptions configuration loading can raise: the validator's `ValueError`, the
      sanitised `RuntimeError` (which keeps the exception it was raised from), and the
      error raised while reading an existing dotenv file (permission or decoding). */
  datatype ConfigError =
    | ValueError(message: string)
    | RuntimeError(message: string, cause: ConfigError)
    | FileError(message: string)

  datatype Settings = Settings(
    env: string,
    logLevel: string,
    openRouterApiKey: Option<string>,
    geminiApiKey: Option<string>,
    groqApiKey: Option<string>,
    serpApiKey: Option<string>,
    ttsProvider: string,
    sttProvider: string,
    ragVectorDb: string,
    ragSearchProvider: string)

  /** A variable is set when it is present with a non-empty value. */
  predicate IsSet(environ: Environ, name: string)
  {
    name in environ && environ[name] != ""
  }

  /** Python truthiness of an optional string: present and non-empty. */
  predicate Truthy(o: Option<string>)
  {
    o.Some? && o.value != ""
  }

  /** A string field holds the variable's value when it is set, the default otherwise. */
  predicate ReadsAs(environ: Environ, name: string, value: string, default: string)
  {
    if IsSet(environ, name) then value == environ[name] else value == default
  }

  /** An optional field holds the variable's value when it is set, and is absent otherwise. */
  predicate ReadsOptional(environ: Environ, name: string, value: Option<string>)
  {
    if IsSet(environ, name) then value == Some(environ[name]) else value == None
  }

  /** Every field of `s` is what the environment gives for it. */
  predicate ReadFrom(environ: Environ, s: Settings)
  {
    && ReadsAs(environ, ENV, s.env, DEFAULT_ENV)
    && ReadsAs(environ, LOG_LEVEL, s.logLevel, DEFAULT_LOG_LEVEL)
    && ReadsOptional(environ, OPENROUTER_API_KEY, s.openRouterApiKey)
    && ReadsOptional(environ, GEMINI_API_KEY, s.geminiApiKey)
    && ReadsOptional(environ, GROQ_API_KEY, s.groqApiKey)
    && ReadsOptional(environ, SERPAPI_KEY, s.serpApiKey)
    && ReadsAs(environ, TTS_PROVIDER, s.ttsProvider, DEFAULT_TTS_PROVIDER)
    && ReadsAs(environ, STT_PROVIDER, s.sttProvider, DEFAULT_STT_PROVIDER)
    && ReadsAs(environ, RAG_VECTOR_DB, s.ragVectorDb, DEFAULT_RAG_VECTOR_DB)
    && ReadsAs(environ, RAG_SEARCH_PROVIDER, s.ragSearchProvider, DEFAULT_RAG_SEARCH_PROVIDER)
  }

  /** The validation rule: testing mode, or at least one LLM key that is truthy. */
  predicate Valid(s: Settings)
  {
    s.env == TESTING || Truthy(s.openRouterApiKey) || Truthy(s.geminiApiKey) || Truthy(s.groqApiKey)
  }

  /** The lookup of one variable: the default when it is absent or empty, its value otherwise.
      The default is `None` for the optional fields. */
  function Get(environ: Environ, name: string, default: Option<string>): (r: Option<string>)
    ensures IsSet(environ, name) ==> r == Some(environ[name])
    ensures !IsSet(environ, name) ==> r == default
    ensures r == Some("") ==> default == Some("")
  {
    if name !in environ then default
    else if environ[name] == "" then default
    else Some(environ[name])
  }

  /** The record built from the environment, before validation. */
  function FromEnviron(environ: Environ): (s: Settings)
    ensures ReadFrom(environ, s)
  {
    Settings(
      Get(environ, ENV, Some(DEFAULT_ENV)).value,
      Get(environ, LOG_LEVEL, Some(DEFAULT_LOG_LEVEL)).value,
      Get(environ, OPENROUTER_API_KEY, None),
      Get(environ, GEMINI_API_KEY, None),
      Get(environ, GROQ_API_KEY, None),
      Get(environ, SERPAPI_KEY, None),
      Get(environ, TTS_PROVIDER, Some(DEFAULT_TTS_PROVIDER)).value,
      Get(environ, STT_PROVIDER, Some(DEFAULT_STT_PROVIDER)).value,
      Get(environ, RAG_VECTOR_DB, Some(DEFAULT_RAG_VECTOR_DB)).value,
      Get(environ, RAG_SEARCH_PROVIDER, Some(DEFAULT_RAG_SEARCH_PROVIDER)).value)
  }

  /** The three LLM key fields, in the order the validator inspects them. */
  function LlmKeys(s: Settings): seq<Option<string>>
  {
    [s.openRouterApiKey, s.geminiApiKey, s.groqApiKey]
  }

  /** Python's `any(...)` over optional strings. */
  function AnyTruthy(xs: seq<Option<string>>): (r: bool)
    ensures r <==> exists i :: 0 <= i < |xs| && Truthy(xs[i])
  {
    if xs == [] then false else Truthy(xs[0]) || AnyTruthy(xs[1..])
  }

  /** The validator: `None` when the record passes, otherwise the error it raises. */
  function Validate(s: Settings): (r: Option<ConfigError>)
    ensures r.None? <==> Valid(s)
    ensures r.Some? ==> r.value == ValueError(MISSING_KEY_MESSAGE)
  {
    var keys := LlmKeys(s);
    assert keys[0] == s.openRouterApiKey && keys[1] == s.geminiApiKey && keys[2] == s.groqApiKey;
    if s.env != TESTING && !AnyTruthy(keys) then
      Some(ValueError(MISSING_KEY_MESSAGE))
    else
      None
  }

  /** `Settings.load(env_file)`: read the record, validate it, return it or the error.
      The env-file argument is accepted and ignored. */
  function Load(environ: Environ, envFile: Option<string>): (r: Result<Settings, ConfigError>)
    ensures r.Ok? <==>
      || (ENV in environ && environ[ENV] == TESTING)
      || IsSet(environ, OPENROUTER_API_KEY)
      || IsSet(environ, GEMINI_API_KEY)
      || IsSet(environ, GROQ_API_KEY)
    ensures r.Ok? ==> ReadFrom(environ, r.value) && Valid(r.value)
    ensures r.Err? ==> r.error == ValueError(MISSING_KEY_MESSAGE)
  {
    var s := FromEnviron(environ);
    match Validate(s)
    case None => Ok(s)
    case Some(e) => Err(e)
  }

  /** The environment determines the record: two records read from the same
      environment are equal. */
  lemma ReadFromIsUnique(environ: Environ, s: Settings, t: Settings)
    requires ReadFrom(environ, s) && ReadFrom(environ, t)
    ensures s == t
  {
  }

  /** Loading is deterministic and the env-file argument has no effect. */
  lemma LoadIgnoresEnvFile(environ: Environ, f: Option<string>, g: Option<string>)
    ensures Load(environ, f) == Load(environ, g)
  {
  }

  /** Outside testing mode and with no key set, loading fails with the `ValueError`. */
  lemma MissingKeysFail(environ: Environ, f: Option<string>)
    requires ENV !in environ || environ[ENV] != TESTING
    requires !IsSet(environ, OPENROUTER_API_KEY)
    requires !IsSet(environ, GEMINI_API_KEY)
    requires !IsSet(environ, GROQ_API_KEY)
    ensures Load(environ, f) == Err(ValueError(MISSING_KEY_MESSAGE))
  {
  }

  /** An empty `ENV` reads as the development default, so the key requirement applies. */
  lemma EmptyEnvIsDevelopment(environ: Environ, f: Option<string>)
    requires ENV in environ && environ[ENV] == ""
    ensures Load(environ, f).Ok? ==> Load(environ, f).value.env == DEFAULT_ENV
    ensures Load(environ, f).Ok? <==>
      IsSet(environ, OPENROUTER_API_KEY) || IsSet(environ, GEMINI_API_KEY) || IsSet(environ, GROQ_API_KEY)
  {
  }

  /** A loaded record never carries an empty log level: it is the variable's value or "INFO". */
  lemma LoadedLogLevelIsNonEmpty(environ: Environ, f: Option<string>)
    requires Load(environ, f).Ok?
    ensures Load(environ, f).value.logLevel != ""
  {
  }
}
