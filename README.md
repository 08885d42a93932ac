# Lumina configuration loader and state-scoped logger, in Dafny

Lumina's bootstrap layer has two parts, and this project models both.

**Configuration.** `Settings.load` reads ten variables from the process environment into a
frozen record with fixed defaults. An absent or empty variable means the default; an optional
key then means "not present". The record is then validated: unless `ENV` is exactly
`"testing"`, at least one of `OPENROUTER_API_KEY`, `GEMINI_API_KEY` and `GROQ_API_KEY` must be
non-empty, or a `ValueError` is raised. `load_env` first merges an optional dotenv file into the
environment without overriding variables already present. It then loads the settings. A
validation failure is re-raised unchanged when the process is in testing mode, and replaced by
a fixed, secret-free `RuntimeError` otherwise. Testing mode means `ENV` (else `env`, else
`"development"`) lower-cases to `"testing"` or `"test"`. The two testing checks differ: the
validator's is exact, the loader's ignores case. `CaseGapReRaisesValueError` and
`RawErrorOnlyInCaseGap` pin down what falls between them.

**Logging.** Python's process-wide named loggers are a `Registry`. It holds each name's level and
handler list, and the sequence of records emitted. A `LuminaLogger` construction does three
things to its name's entry:
- it sets the level;
- it attaches a console handler unless one is already there;
- it appends a file handler when file logging is asked for or the level is DEBUG.

`info`, `debug`, `error` and `state` each append one record. `state_context` is a method that
takes the body's outcome as a value: the records the body emitted, and possibly the exception it
raised. It appends the enter record, then the body's records, then an error record if the body
raised an `Exception`, then the exit record on every path. It returns what the body raised.

Modules: `Wrappers` (Option, Result), `Text` (ASCII case mapping), `ConfigSettings`
(lumina/config/settings.py), `EnvLoader` (lumina/config/env_loader.py), `Logger`
(lumina/utils/logger.py).

The process environment, the dotenv files and the logging sinks are parameters or fields:
- the environment is a `map<string, string>`;
- the dotenv files are a map from path to either the key/value pairs the parser yields or the
  error raised when reading the file;
- handlers are values in the registry, and emitted records are a sequence.

## Model

| member | source | states |
|---|---|---|
| ConfigSettings.Get | lumina/config/settings.py:118-125 | the default when the variable is absent or empty, the variable's value unchanged otherwise; an empty string never comes out unless it was the default |
| ConfigSettings.FromEnviron | lumina/config/settings.py:127-138 | every field equals the environment value when that is set and non-empty, else its listed default (optional keys: absent) |
| ConfigSettings.AnyTruthy | lumina/config/settings.py:32-39 | true iff some element is present and non-empty |
| ConfigSettings.Validate | lumina/config/settings.py:28-43 | passes iff `env == "testing"` or one of the three LLM keys is present and non-empty; otherwise the fixed `ValueError` |
| ConfigSettings.Load | lumina/config/settings.py:109-141 | succeeds iff `ENV` is exactly "testing" or one of the three key variables is set and non-empty; a returned record is read from the environment and valid (no partially valid result); failure is the `ValueError` |
| ConfigSettings.ReadFromIsUnique | lumina/config/settings.py:89-107 | the environment determines the record: two records read from one environment are equal |
| ConfigSettings.LoadIgnoresEnvFile | lumina/config/settings.py:110-116 | the `env_file` argument has no effect on the result |
| ConfigSettings.MissingKeysFail | lumina/config/settings.py:31-43 | with `ENV` not "testing" and no key set, loading fails with the `ValueError` |
| ConfigSettings.EmptyEnvIsDevelopment | lumina/config/settings.py:122-128 | `ENV=""` reads as "development", so success needs one of the keys |
| ConfigSettings.LoadedLogLevelIsNonEmpty | lumina/config/settings.py:129 | a loaded record's log level is never empty |
| EnvLoader.Merge | lumina/config/env_loader.py:19-21 | keys already in the environment keep their values; keys only in the file are added with the file's value; no other key appears |
| EnvLoader.DotenvAt | lumina/config/env_loader.py:21 | a path with no file reads as no variables; an existing path reads as what is stored for it, and only an existing file can be unreadable |
| EnvLoader.ModeString | lumina/config/env_loader.py:28 | `ENV` if present (even empty), else `env`, else "development" |
| EnvLoader.InTestingMode | lumina/config/env_loader.py:28-29 | an empty mode string is never testing mode; "testing", "test" and their capitalised and upper-case spellings are |
| EnvLoader.LoadSettings | lumina/config/env_loader.py:23-38 | on success exactly what loading produced; on failure the raw `ValueError` iff testing mode (case-insensitive "testing"/"test"), otherwise the fixed `RuntimeError` chained to it |
| EnvLoader.Process.LoadDotenv | lumina/config/env_loader.py:21 | the environment becomes the no-override merge of itself with the file |
| EnvLoader.Process.LoadEnv | lumina/config/env_loader.py:12-38 | merges the file only when `env_file` is given and non-empty, leaves the environment unchanged otherwise, and returns the translated load of the resulting environment; a file that exists but cannot be read or decoded raises its own error, outside the translation, with the environment unchanged |
| EnvLoader.EmptyProcessVariableShadowsDotenv | lumina/config/env_loader.py:19-21 | an empty process variable is kept by the merge, so the dotenv value cannot fill it |
| EnvLoader.ProcessKeyWinsOverDotenv | lumina/config/env_loader.py:19-24 | any of the three LLM keys set in the process keeps its value through the merge, and loading then succeeds with a record read from the merged environment, whatever the file says |
| EnvLoader.ExactTestingSucceeds | lumina/config/settings.py:31 | `ENV="testing"` always loads, whatever keys are set |
| EnvLoader.EmptyEnvRaisesGuidance | lumina/config/env_loader.py:28-36 | `ENV=""` is not testing mode, even when `env` says testing: with no key the `RuntimeError` is raised |
| EnvLoader.CaseGapReRaisesValueError | lumina/config/env_loader.py:28-30 | an `ENV` that lower-cases to "testing"/"test" but is not exactly "testing" yields the raw `ValueError`, neither success nor `RuntimeError` |
| EnvLoader.LowerEnvVarGap | lumina/config/env_loader.py:28-30 | with `ENV` absent, `env="testing"` and no key set, the validator fails (it reads "development") while the loader sees testing mode, so the raw `ValueError` comes back |
| EnvLoader.CaseVariantsFallInGap | lumina/config/env_loader.py:29 | "Testing", "TEST" and "test" lower-case into the testing-mode set yet differ from "testing" |
| EnvLoader.RawErrorOnlyInCaseGap | lumina/config/env_loader.py:25-30 | the raw `ValueError` is returned only when the loader sees testing mode and `ENV` is not exactly "testing" |
| EnvLoader.GuidanceHidesEnvironment | lumina/config/env_loader.py:31-36 | any two sanitised failures are equal, so the error carries nothing from the environment |
| EnvLoader.DevelopmentWithoutKeysRaisesGuidance | tests/test_config.py:20-31 | `ENV=development` without keys: loading raises the `ValueError` and `load_env` the `RuntimeError` |
| EnvLoader.DevelopmentWithKeyLoads | tests/test_config.py:9-17 | in any environment where `ENV=development`, `LOG_LEVEL=DEBUG` and `OPENROUTER_API_KEY` is set, loading succeeds and the record holds the given key and level |
| Logger.NumericLevel | lumina/utils/logger.py:42 | the upper-cased name's level when it names one, INFO for any other name |
| Logger.Colour | lumina/utils/logger.py:15-22 | the table's colour for the six state names, "white" for every other name |
| Logger.UnknownStateIsWhite | lumina/utils/logger.py:87 | an unknown state ("Idle2") renders in white |
| Logger.ContextRecords | lumina/utils/logger.py:99-108 | enter record first, then the body's records, then the error record iff the body raised an `Exception`, then the exit record last |
| Logger.CompletedBodyLogsNoError | lumina/utils/logger.py:99-108 | on the normal path every ERROR record comes from the body itself |
| Logger.BoomScenario | lumina/utils/logger.py:102-108 | a `ValueError("boom")` in state "Thinking" gives the enter line, the error line naming "Thinking" and "boom", then the exit line |
| Logger.LogsError | lumina/utils/logger.py:104 | an error record is due iff the body raised and what it raised derives from `Exception` |
| Logger.WantsFile | lumina/utils/logger.py:56 | a file handler is wanted iff file logging is on or the level upper-cases to "DEBUG" |
| Logger.LogPath | lumina/utils/logger.py:57 | the given path when there is one, "lumina.log" otherwise |
| Logger.Attach | lumina/utils/logger.py:45-68 | the existing handlers are kept as a prefix; one console handler at the name's level is appended iff none was there; one more handler is appended iff a file is wanted |
| Logger.ChannelOf | lumina/utils/logger.py:41 | the empty name and "root" both select the root logger; every other name selects its own logger |
| Logger.RepeatedConstructionsShareOneConsole | lumina/utils/logger.py:45-68 | two constructions on one handler list leave exactly one console handler and add one file handler per construction that wants one |
| Logger.RootAliasesShareOneConsole | lumina/utils/logger.py:41-68 | constructing a logger on "" and then on "root" in one registry reaches the root logger both times, which ends with exactly one console handler and one more file handler per construction that wants one |
| Logger.HasConsoleIffCounted | lumina/utils/logger.py:46 | the "any console handler" test holds iff the handler list counts at least one console handler |
| Logger.AttachKeepsOneConsole | lumina/utils/logger.py:45-52 | after a construction the name has exactly one console handler, given at most one before |
| Logger.AttachAddsFileIffWanted | lumina/utils/logger.py:54-68 | a construction appends exactly one file handler, last, at `file_path` or "lumina.log", iff file logging is on or the level upper-cases to DEBUG; existing handlers are kept |
| Logger.ChooseLevel | lumina/utils/logger.py:125-127 | the settings' log level when settings are given and it is non-empty, "INFO" otherwise |
| Logger.LoadedSettingsChooseTheirLevel | lumina/utils/logger.py:125-127 | settings that loaded successfully always pass their own log level on |
| Logger.Registry.SetLevel | lumina/utils/logger.py:43 | only the name's level changes |
| Logger.Registry.Emit | lumina/utils/logger.py:75-89 | the records are appended to the log in order; levels and handlers are unchanged |
| Logger.Registry.AddHandler | lumina/utils/logger.py:52 | the handler is appended to the name's list; nothing else changes |
| Logger.LuminaLogger.constructor | lumina/utils/logger.py:32-68 | sets the level of the logger the name selects (`ChannelOf`), updates its handler list as `Attach` says, keeps the no-duplicate-console invariant, sets `file_handler` iff a file handler was attached |
| Logger.LuminaLogger.Info | lumina/utils/logger.py:75-76 | appends exactly one INFO record with the message |
| Logger.LuminaLogger.Debug | lumina/utils/logger.py:78-79 | appends exactly one DEBUG record with the message |
| Logger.LuminaLogger.Error | lumina/utils/logger.py:81-83 | appends exactly one ERROR record, `"[red]" + m + "[/red]"` |
| Logger.LuminaLogger.State | lumina/utils/logger.py:85-89 | appends exactly one INFO record, `"[" + colour + "][" + name + "][/]" + m` |
| Logger.LuminaLogger.StateContext | lumina/utils/logger.py:91-108 | the log grows by exactly the context records, and the body's exception is passed on unchanged |
| Logger.GetLogger | lumina/utils/logger.py:111-130 | constructs a logger at the chosen level, with the same effect on the registry as the constructor |

## Where the model follows the code over its documented intent

- A path that names no regular file (missing, or a directory) reads as empty, silently
  (`EnvLoader.DotenvAt`: such a path is absent from the file map). A file that exists but cannot be opened or decoded raises `PermissionError` or
  `UnicodeDecodeError`. The file is read at lumina/config/env_loader.py:21, before the `try`, so
  that error reaches the caller untranslated. `EnvLoader.Process.LoadEnv` models it as
  `FileError` and leaves the environment unchanged.
- The same marked-up text goes to every handler, so the model records one text per record. The
  code does not strip colour markup from file output.
- Creating the file handler (lumina/utils/logger.py:64) is not guarded, so construction can
  raise, for instance when the log path is a directory, or is empty and so names the current
  directory. Construction failure is not represented: the model keeps the path as a value.

## Left out

- The pydantic `BaseSettings` backend and the dynamic import that selects it
  (lumina/config/settings.py:14-25, 46-85): its parsing lives in a library that is not part of
  this model. Only the dataclass backend is modelled.
- EnvLoader.Process.LoadDotenv, EnvLoader.Process.LoadEnv: the file maps stand only for names
  and values the operating system accepts. python-dotenv sets the variables one at a time, in
  file order. A name containing "=" or a NUL byte in a name or value makes that assignment raise
  `ValueError` part-way through (lumina/config/env_loader.py:21, before the `try`). The caller
  then gets that untranslated error, with the earlier variables already set. This partial
  merge and its error are not modelled.
- Parsing of dotenv files by python-dotenv: each file is given as the map it parses to. With
  its default `interpolate=True`, python-dotenv expands `${VAR}` against the current process
  environment, so that map depends on the environment at the call; the file map stands for one
  call of `load_env`.
- The `ValidationError` arm of the `except` in `load_env`: the dataclass backend raises only
  `ValueError`.
- Text.Lower, Text.Upper: only the ASCII letters are case-mapped. Python's `str.lower` and
  `str.upper` also map other characters. For example, the dotless `ı` upper-cases to `I`, so
  `"warnıng".upper()` is `"WARNING"` (level 30) in the code, while the model maps that name to
  INFO (level 20). The testing-mode check at lumina/config/env_loader.py:29 is unaffected: no
  non-ASCII character lower-cases to a string that can form "testing" or "test" (`İ` gives
  `i` followed by a combining dot).
- Logger.NumericLevel: upper-case attributes of the logging module that are not levels (such
  as `BASIC_FORMAT`) are not modelled. Naming one makes `setLevel` raise in the code; here it
  reads as INFO.
- Rich console rendering, the `Console` object, formatters and timestamps, level filtering of
  records by the logger and handler thresholds, and propagation to parent loggers. Every
  call appends its record.
- `*args`/`**kwargs` %-formatting in `info`, `debug` and `error`: messages are taken as final
  strings.
- Filesystem effects: `mkdir`, `touch`, opening the log file, and `pathlib` normalisation of
  the log path. A path is kept as the string given, and a failure to open the log file, which
  makes construction raise, is not modelled.
- Logger names other than "" and "root" are not normalised: names are distinct strings, with no
  dotted hierarchy.
- The exception a body raises is given by its type name, its `str()` text, and whether it
  derives from `Exception`.
- The module-level `state_context` (a composition of `get_logger` and the method), `main.py`,
  and the package `__init__.py` files: glue with no logic of their own.
