/** `load_env`: seed the process environment from an optional dotenv file without
    overriding what is already set, load the settings, and translate a validation
    failure into a sanitised `RuntimeError` unless the process runs in testing mode. */
module EnvLoader {
  import opened Wrappers
  import opened Text
  import opened ConfigSettings

  const GUIDANCE_MESSAGE :=
    "Invalid configuration: required environment variables are missing or invalid. "
    + "Ensure at least one LLM API key is set (OPENROUTER_API_KEY, GEMINI_API_KEY, or GROQ_API_KEY) "
    + "or set ENV=testing to relax this requirement."

  /** The lower-case variable consulted for testing mode when `ENV` is absent. */
  const ENV_LOWER := "env"

  /** The error raised outside testing mode, chained to the validation error. */
  const GUIDANCE_ERROR := RuntimeError(GUIDANCE_MESSAGE, ValueError(MISSING_KEY_MESSAGE))

  /** The environment after the no-override dotenv merge. */
  function Merge(environ: Environ, dotenv: Environ): (r: Environ)
    ensures r.Keys == environ.Keys + dotenv.Keys
    ensures forall k :: k in environ ==> r[k] == environ[k]
    ensures forall k :: k in dotenv && k !in environ ==> r[k] == dotenv[k]
  {
    dotenv + environ
  }

  /** A dotenv file on disk: either its parsed key/value pairs, or the error raised when
      opening or decoding it. */
  datatype DotenvFile = Readable(pairs: Environ) | Unreadable(error: string)

  /** What reading the dotenv file at `path` gives: a missing file reads as empty, an
      existing file as what is stored for it. */
  function DotenvAt(files: map<string, DotenvFile>, path: string): (d: DotenvFile)
    ensures path !in files ==> d == Readable(map[])
    ensures path in files ==> d == files[path]
    ensures d.Unreadable? ==> path in files
  {
    if path in files then files[path] else Readable(map[])
  }

  /** The string inspected for testing mode: `ENV` if present, else `env`, else the default. */
  function ModeString(environ: Environ): (m: string)
    ensures ENV in environ ==> m == environ[ENV]
    ensures ENV !in environ && ENV_LOWER in environ ==> m == environ[ENV_LOWER]
    ensures ENV !in environ && ENV_LOWER !in environ ==> m == DEFAULT_ENV
  {
    if ENV in environ then environ[ENV]
    else if ENV_LOWER in environ then environ[ENV_LOWER]
    else DEFAULT_ENV
  }

  /** Testing mode for the loader: the mode string is non-empty and, lower-cased, is
      "testing" or "test". Unlike the settings validator, this check ignores case. */
  predicate InTestingMode(environ: Environ)
    ensures ModeString(environ) == "" ==> !InTestingMode(environ)
    ensures ModeString(environ) in {"testing", "test", "Testing", "Test", "TESTING", "TEST"} ==> InTestingMode(environ)
  {
    var m := ModeString(environ);
    m != "" && (Lower(m) == "testing" || Lower(m) == "test")
  }

  /** What `load_env` returns or raises, given the environment after the merge. */
  function LoadSettings(environ: Environ, envFile: Option<string>): (r: Result<Settings, ConfigError>)
    ensures r.Ok? <==> Load(environ, envFile).Ok?
    ensures r.Ok? ==> r == Load(environ, envFile)
    ensures r.Err? ==> (r.error.ValueError? <==> InTestingMode(environ))
    ensures r.Err? && r.error.ValueError? ==> r == Load(environ, envFile)
    ensures r.Err? && !r.error.ValueError? ==> r.error == GUIDANCE_ERROR
  {
    match Load(environ, envFile)
    case Ok(s) => Ok(s)
    case Err(e) =>
      if InTestingMode(environ) then Err(e)
      else Err(RuntimeError(GUIDANCE_MESSAGE, e))
  }

  /** The process whose environment `load_env` reads and seeds. */
  class Process {
    var environ: Environ

    constructor (environ: Environ)
      ensures this.environ == environ
    {
      this.environ := environ;
    }

    /** python-dotenv's load with `override=False`: only variables not yet present are added. */
    method LoadDotenv(dotenv: Environ)
      modifies this
      ensures environ == Merge(old(environ), dotenv)
    {
      environ := Merge(environ, dotenv);
    }

    /** `load_env(env_file)`, where `files` stands for the dotenv files on disk. Reading the
        file happens before the `try`, so its error propagates as it is, and the environment
        is left unchanged because the file is read whole before any variable is set. */
    method LoadEnv(envFile: Option<string>, files: map<string, DotenvFile>)
      returns (r: Result<Settings, ConfigError>)
      modifies this
      ensures Truthy(envFile) && DotenvAt(files, envFile.value).Unreadable? ==>
        environ == old(environ) && r == Err(FileError(DotenvAt(files, envFile.value).error))
      ensures Truthy(envFile) && DotenvAt(files, envFile.value).Readable? ==>
        environ == Merge(old(environ), DotenvAt(files, envFile.value).pairs)
      ensures !Truthy(envFile) ==> environ == old(environ)
      ensures !(Truthy(envFile) && DotenvAt(files, envFile.value).Unreadable?) ==>
        r == LoadSettings(environ, envFile)
    {
      if Truthy(envFile) {
        match DotenvAt(files, envFile.value)
        case Unreadable(error) =>
          return Err(FileError(error));
        case Readable(pairs) =>
          LoadDotenv(pairs);
      }
      r := LoadSettings(environ, envFile);
    }
  }

  /** A process variable that is present but empty still blocks the dotenv value, so
      the field falls back to its default. */
  lemma EmptyProcessVariableShadowsDotenv(environ: Environ, dotenv: Environ, name: string)
    requires name in environ && environ[name] == ""
    ensures !IsSet(Merge(environ, dotenv), name)
  {
  }

  /** An LLM key set in the process environment keeps its value through the merge, and
      loading then succeeds with a record read from the merged environment, whatever the
      dotenv file says. */
  lemma ProcessKeyWinsOverDotenv(environ: Environ, dotenv: Environ, f: Option<string>, name: string)
    requires name in {OPENROUTER_API_KEY, GEMINI_API_KEY, GROQ_API_KEY} && IsSet(environ, name)
    ensures Merge(environ, dotenv)[name] == environ[name]
    ensures LoadSettings(Merge(environ, dotenv), f).Ok?
    ensures ReadFrom(Merge(environ, dotenv), LoadSettings(Merge(environ, dotenv), f).value)
  {
  }

  /** With `ENV` exactly "testing" loading never fails. */
  lemma ExactTestingSucceeds(environ: Environ, f: Option<string>)
    requires ENV in environ && environ[ENV] == TESTING
    ensures LoadSettings(environ, f).Ok?
    ensures LoadSettings(environ, f).value.env == TESTING
  {
  }

  /** An empty `ENV` is not testing mode, even when the lower-case `env` says "testing":
      with no key set the sanitised error is raised. */
  lemma EmptyEnvRaisesGuidance(environ: Environ, f: Option<string>)
    requires ENV in environ && environ[ENV] == ""
    requires !IsSet(environ, OPENROUTER_API_KEY)
    requires !IsSet(environ, GEMINI_API_KEY)
    requires !IsSet(environ, GROQ_API_KEY)
    ensures LoadSettings(environ, f) == Err(GUIDANCE_ERROR)
  {
  }

  /** The case gap: an `ENV` that lower-cases to "testing" or "test" without being exactly
      "testing" makes the validator fail but the loader re-raise the raw `ValueError`. */
  lemma CaseGapReRaisesValueError(environ: Environ, f: Option<string>)
    requires ENV in environ && environ[ENV] != TESTING
    requires Lower(environ[ENV]) == "testing" || Lower(environ[ENV]) == "test"
    requires !IsSet(environ, OPENROUTER_API_KEY)
    requires !IsSet(environ, GEMINI_API_KEY)
    requires !IsSet(environ, GROQ_API_KEY)
    ensures LoadSettings(environ, f) == Err(ValueError(MISSING_KEY_MESSAGE))
  {
  }

  /** The other side of the gap: with `ENV` absent and the lower-case `env` saying "testing",
      the validator reads the development default and fails, while the loader sees testing
      mode and re-raises the raw `ValueError`. */
  lemma LowerEnvVarGap(environ: Environ, f: Option<string>)
    requires ENV !in environ && ENV_LOWER in environ && environ[ENV_LOWER] == TESTING
    requires !IsSet(environ, OPENROUTER_API_KEY)
    requires !IsSet(environ, GEMINI_API_KEY)
    requires !IsSet(environ, GROQ_API_KEY)
    ensures Load(environ, f) == Err(ValueError(MISSING_KEY_MESSAGE))
    ensures LoadSettings(environ, f) == Err(ValueError(MISSING_KEY_MESSAGE))
  {
  }

  /** "Testing", "TEST" and "test" all fall in the case gap. */
  lemma CaseVariantsFallInGap()
    ensures Lower("Testing") == "testing" && "Testing" != TESTING
    ensures Lower("TEST") == "test" && "TEST" != TESTING
    ensures Lower("test") == "test" && "test" != TESTING
  {
  }

  /** The raw `ValueError` reaches the caller only in the gap between the two checks:
      the validator saw no exact "testing" while the loader saw testing mode. */
  lemma RawErrorOnlyInCaseGap(environ: Environ, f: Option<string>)
    requires LoadSettings(environ, f).Err? && LoadSettings(environ, f).error.ValueError?
    ensures ENV in environ ==> environ[ENV] != TESTING
    ensures InTestingMode(environ)
    ensures ENV in environ ==> Lower(environ[ENV]) == "testing" || Lower(environ[ENV]) == "test"
  {
  }

  /** The sanitised error does not depend on the environment, so it cannot carry a secret. */
  lemma GuidanceHidesEnvironment(e1: Environ, e2: Environ, f1: Option<string>, f2: Option<string>)
    requires LoadSettings(e1, f1).Err? && LoadSettings(e1, f1).error.RuntimeError?
    requires LoadSettings(e2, f2).Err? && LoadSettings(e2, f2).error.RuntimeError?
    ensures LoadSettings(e1, f1) == LoadSettings(e2, f2)
  {
  }

  /** `ENV=development` with no key set: the validator raises, and the loader turns that
      into the sanitised `RuntimeError`. */
  lemma DevelopmentWithoutKeysRaisesGuidance(environ: Environ)
    requires ENV in environ && environ[ENV] == DEFAULT_ENV
    requires !IsSet(environ, OPENROUTER_API_KEY)
    requires !IsSet(environ, GEMINI_API_KEY)
    requires !IsSet(environ, GROQ_API_KEY)
    ensures Load(environ, None) == Err(ValueError(MISSING_KEY_MESSAGE))
    ensures LoadSettings(environ, None) == Err(GUIDANCE_ERROR)
  {
  }

  /** `ENV=development`, `LOG_LEVEL=DEBUG` and one key: loading keeps the given values. */
  lemma DevelopmentWithKeyLoads(environ: Environ)
    requires ENV in environ && environ[ENV] == DEFAULT_ENV
    requires LOG_LEVEL in environ && environ[LOG_LEVEL] == "DEBUG"
    requires OPENROUTER_API_KEY in environ && environ[OPENROUTER_API_KEY] == "dummy-key"
    ensures LoadSettings(environ, None).Ok?
    ensures LoadSettings(environ, None).value.openRouterApiKey == Some("dummy-key")
    ensures LoadSettings(environ, None).value.logLevel == "DEBUG"
  {
  }
}
