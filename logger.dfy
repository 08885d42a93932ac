/** The state-scoped logger. Python's process-wide named loggers are a `Registry` of
    levels, handler lists and the records emitted; a `LuminaLogger` writes to one name. */
module Logger {
  import opened Wrappers
  import opened Text
  import ConfigSettings

  // Numeric levels of Python's logging module.
  const NOTSET := 0
  const DEBUG := 10
  const INFO := 20
  const WARNING := 30
  const ERROR := 40
  const CRITICAL := 50

  /** The level names the logging module defines as attributes. */
  const LEVEL_NAMES: map<string, int> := map[
    "CRITICAL" := CRITICAL, "FATAL" := CRITICAL, "ERROR" := ERROR, "WARNING" := WARNING,
    "WARN" := WARNING, "INFO" := INFO, "DEBUG" := DEBUG, "NOTSET" := NOTSET]

  /** Display colour of each known state name. */
  const STATE_COLORS: map<string, string> := map[
    "Thinking" := "yellow", "Generating" := "magenta", "Searching" := "cyan",
    "Speaking" := "green", "Error" := "white", "Idle" := "white"]

  const DEFAULT_COLOR := "white"
  const DEFAULT_LOG_FILE := "lumina.log"
  const DEFAULT_LEVEL := "INFO"
  const ROOT_LOGGER := "root"

  /** One emitted log record: the logger's name, its numeric level and its text. */
  datatype Record = Record(logger: string, level: int, text: string)

  /** A handler attached to a named logger, with the threshold it was given. */
  datatype Handler = Console(level: int) | File(path: string, level: int)

  /** An exception raised by the body of a state context; `isException` is false for the
      `BaseException` subclasses that `except Exception` does not catch. */
  datatype Thrown = Thrown(typeName: string, text: string, isException: bool)

  /** What the body of a state context did: the records it emitted, and possibly a raise. */
  datatype Body =
    | Completed(emitted: seq<Record>)
    | Raised(emitted: seq<Record>, thrown: Thrown)

  /** `getattr(logging, level.upper(), logging.INFO)`. */
  function NumericLevel(level: string): (n: int)
    ensures Upper(level) in LEVEL_NAMES ==> n == LEVEL_NAMES[Upper(level)]
    ensures Upper(level) !in LEVEL_NAMES ==> n == INFO
    ensures n in LEVEL_NAMES.Values
  {
    var key := Upper(level);
    assert LEVEL_NAMES["INFO"] == INFO;
    if key in LEVEL_NAMES then LEVEL_NAMES[key] else INFO
  }

  /** The colour lookup with its default. */
  function Colour(stateName: string): (c: string)
    ensures stateName in STATE_COLORS ==> c == STATE_COLORS[stateName]
    ensures stateName !in STATE_COLORS ==> c == DEFAULT_COLOR
    ensures c in {"yellow", "magenta", "cyan", "green", "white"}
  {
    if stateName in STATE_COLORS then STATE_COLORS[stateName] else DEFAULT_COLOR
  }

  /** The marked-up text of a state message. */
  function StateText(stateName: string, message: string): string
  {
    "[" + Colour(stateName) + "][" + stateName + "][/]" + message
  }

  /** The marked-up text of an error message. */
  function ErrorText(message: string): string
  {
    "[red]" + message + "[/red]"
  }

  function StateRecord(logger: string, stateName: string, message: string): Record
  {
    Record(logger, INFO, StateText(stateName, message))
  }

  function ErrorRecord(logger: string, message: string): Record
  {
    Record(logger, ERROR, ErrorText(message))
  }

  function EnterMessage(message: string): string { "entering " + message }

  function ExitMessage(message: string): string { "exiting " + message }

  function FailureMessage(stateName: string, thrown: Thrown): string
  {
    "Exception in state [" + stateName + "]: " + thrown.text
  }

  /** Whether the body's outcome is caught by `except Exception` and logged. */
  predicate LogsError(body: Body)
    ensures LogsError(body) ==> body.Raised?
    ensures body.Raised? && !body.thrown.isException ==> !LogsError(body)
    ensures body.Raised? && body.thrown.isException ==> LogsError(body)
  {
    body.Raised? && body.thrown.isException
  }

  /** The records a state context emits, in order, around the body's own records. */
  function ContextRecords(logger: string, stateName: string, message: string, body: Body): (r: seq<Record>)
    ensures |r| == |body.emitted| + (if LogsError(body) then 3 else 2)
    ensures r[0] == StateRecord(logger, stateName, EnterMessage(message))
    ensures r[1..1 + |body.emitted|] == body.emitted
    ensures LogsError(body) ==> r[|r| - 2] == ErrorRecord(logger, FailureMessage(stateName, body.thrown))
    ensures r[|r| - 1] == StateRecord(logger, stateName, ExitMessage(message))
  {
    [StateRecord(logger, stateName, EnterMessage(message))]
    + body.emitted
    + (if LogsError(body) then [ErrorRecord(logger, FailureMessage(stateName, body.thrown))] else [])
    + [StateRecord(logger, stateName, ExitMessage(message))]
  }

  /** Python's `any(isinstance(h, RichHandler) for h in handlers)`. */
  predicate HasConsole(hs: seq<Handler>)
  {
    exists i :: 0 <= i < |hs| && hs[i].Console?
  }

  function ConsoleCount(hs: seq<Handler>): nat
  {
    if hs == [] then 0 else (if hs[0].Console? then 1 else 0) + ConsoleCount(hs[1..])
  }

  function FileCount(hs: seq<Handler>): nat
  {
    if hs == [] then 0 else (if hs[0].File? then 1 else 0) + FileCount(hs[1..])
  }

  /** A construction attaches a file handler when asked to or when the level is DEBUG. */
  predicate WantsFile(level: string, fileLogging: bool)
    ensures fileLogging ==> WantsFile(level, fileLogging)
    ensures Upper(level) == "DEBUG" ==> WantsFile(level, fileLogging)
    ensures !fileLogging && Upper(level) != "DEBUG" ==> !WantsFile(level, fileLogging)
  {
    fileLogging || Upper(level) == "DEBUG"
  }

  /** The log file's path: the one given, else the default file name. */
  function LogPath(filePath: Option<string>): (path: string)
    ensures filePath.Some? ==> path == filePath.value
    ensures filePath.None? ==> path == DEFAULT_LOG_FILE
  {
    if filePath.Some? then filePath.value else DEFAULT_LOG_FILE
  }

  /** The file handler a construction creates, if any. */
  function FileHandlerFor(level: string, fileLogging: bool, filePath: Option<string>): Option<Handler>
  {
    if WantsFile(level, fileLogging) then Some(File(LogPath(filePath), NumericLevel(level))) else None
  }

  /** A named logger's handler list after one construction. */
  function Attach(hs: seq<Handler>, level: string, fileLogging: bool, filePath: Option<string>): (r: seq<Handler>)
    ensures |r| == |hs| + (if HasConsole(hs) then 0 else 1) + (if WantsFile(level, fileLogging) then 1 else 0)
    ensures r[..|hs|] == hs
    ensures !HasConsole(hs) ==> r[|hs|] == Console(NumericLevel(level))
  {
    (if HasConsole(hs) then hs else hs + [Console(NumericLevel(level))])
    + (if WantsFile(level, fileLogging) then [File(LogPath(filePath), NumericLevel(level))] else [])
  }

  lemma {:induction false} CountsAppend(a: seq<Handler>, b: seq<Handler>)
    ensures ConsoleCount(a + b) == ConsoleCount(a) + ConsoleCount(b)
    ensures FileCount(a + b) == FileCount(a) + FileCount(b)
  {
    if a == [] {
      assert a + b == b;
    } else {
      assert (a + b)[1..] == a[1..] + b;
      CountsAppend(a[1..], b);
    }
  }

  lemma {:induction false} HasConsoleIffCounted(hs: seq<Handler>)
    ensures HasConsole(hs) <==> ConsoleCount(hs) > 0
  {
    if hs != [] {
      HasConsoleIffCounted(hs[1..]);
      if HasConsole(hs[1..]) {
        var i :| 0 <= i < |hs[1..]| && hs[1..][i].Console?;
        assert hs[i + 1].Console?;
      }
      if HasConsole(hs) && !hs[0].Console? {
        var i :| 0 <= i < |hs| && hs[i].Console?;
        assert hs[1..][i - 1].Console?;
      }
    }
  }

  /** After any construction the name has exactly one console handler, provided it had at
      most one before: the console handler is attached once per name. */
  lemma AttachKeepsOneConsole(hs: seq<Handler>, level: string, fileLogging: bool, filePath: Option<string>)
    requires ConsoleCount(hs) <= 1
    ensures ConsoleCount(Attach(hs, level, fileLogging, filePath)) == 1
  {
    HasConsoleIffCounted(hs);
    var numeric := NumericLevel(level);
    var fileTail := if WantsFile(level, fileLogging) then [File(LogPath(filePath), numeric)] else [];
    assert ConsoleCount(fileTail) == 0;
    if HasConsole(hs) {
      CountsAppend(hs, fileTail);
    } else {
      CountsAppend(hs, [Console(numeric)]);
      CountsAppend(hs + [Console(numeric)], fileTail);
    }
  }

  /** Two constructions on one channel leave exactly one console handler, and append one
      file handler each time one is wanted. */
  lemma RepeatedConstructionsShareOneConsole(hs: seq<Handler>, level1: string, fileLogging1: bool,
                                             filePath1: Option<string>, level2: string,
                                             fileLogging2: bool, filePath2: Option<string>)
    requires ConsoleCount(hs) <= 1
    ensures ConsoleCount(Attach(Attach(hs, level1, fileLogging1, filePath1), level2, fileLogging2, filePath2)) == 1
    ensures FileCount(Attach(Attach(hs, level1, fileLogging1, filePath1), level2, fileLogging2, filePath2))
         == FileCount(hs) + (if WantsFile(level1, fileLogging1) then 1 else 0)
                          + (if WantsFile(level2, fileLogging2) then 1 else 0)
  {
    var once := Attach(hs, level1, fileLogging1, filePath1);
    AttachKeepsOneConsole(hs, level1, fileLogging1, filePath1);
    AttachKeepsOneConsole(once, level2, fileLogging2, filePath2);
    AttachAddsFileIffWanted(hs, level1, fileLogging1, filePath1);
    AttachAddsFileIffWanted(once, level2, fileLogging2, filePath2);
  }

  /** A construction appends exactly one file handler, with the given path or the default
      one, iff file logging is asked for or the level is DEBUG; nothing is removed. */
  lemma AttachAddsFileIffWanted(hs: seq<Handler>, level: string, fileLogging: bool, filePath: Option<string>)
    ensures FileCount(Attach(hs, level, fileLogging, filePath))
         == FileCount(hs) + (if WantsFile(level, fileLogging) then 1 else 0)
    ensures Attach(hs, level, fileLogging, filePath)[..|hs|] == hs
    ensures WantsFile(level, fileLogging) ==>
      Attach(hs, level, fileLogging, filePath)[|Attach(hs, level, fileLogging, filePath)| - 1]
        == File(LogPath(filePath), NumericLevel(level))
  {
    var numeric := NumericLevel(level);
    var head := if HasConsole(hs) then hs else hs + [Console(numeric)];
    var fileTail := if WantsFile(level, fileLogging) then [File(LogPath(filePath), numeric)] else [];
    assert FileCount(fileTail) == (if WantsFile(level, fileLogging) then 1 else 0);
    CountsAppend(hs, [Console(numeric)]);
    assert FileCount(head) == FileCount(hs);
    CountsAppend(head, fileTail);
  }

  /** The level `get_logger` passes on: the settings' log level when given and non-empty,
      "INFO" otherwise. */
  function ChooseLevel(settings: Option<ConfigSettings.Settings>): (level: string)
    ensures level != ""
    ensures settings.Some? && settings.value.logLevel != "" ==> level == settings.value.logLevel
    ensures settings.None? || settings.value.logLevel == "" ==> level == DEFAULT_LEVEL
  {
    if settings.Some? && settings.value.logLevel != "" then settings.value.logLevel else DEFAULT_LEVEL
  }

  /** Settings produced by loading keep their log level through `get_logger`. */
  lemma LoadedSettingsChooseTheirLevel(environ: ConfigSettings.Environ, f: Option<string>)
    requires ConfigSettings.Load(environ, f).Ok?
    ensures ChooseLevel(Some(ConfigSettings.Load(environ, f).value)) == ConfigSettings.Load(environ, f).value.logLevel
  {
  }

  /** A body that completes adds no error record of its own making: every ERROR record in
      the context comes from the body. */
  lemma CompletedBodyLogsNoError(logger: string, stateName: string, message: string, body: Body)
    requires body.Completed?
    ensures forall i :: 0 <= i < |ContextRecords(logger, stateName, message, body)| &&
                        ContextRecords(logger, stateName, message, body)[i].level == ERROR ==>
              ContextRecords(logger, stateName, message, body)[i] in body.emitted
  {
  }

  // The rendered texts of the "Thinking" scenario below, stated one at a time.
  lemma EnterText()
    ensures StateText("Thinking", "entering x") == "[yellow][Thinking][/]entering x"
  {
  }

  lemma ExitText()
    ensures StateText("Thinking", "exiting x") == "[yellow][Thinking][/]exiting x"
  {
  }

  lemma BoomText()
    ensures ErrorText(FailureMessage("Thinking", Thrown("ValueError", "boom", true)))
         == "[red]Exception in state [Thinking]: boom[/red]"
  {
  }

  /** The scenario of a body raising `ValueError("boom")` in state "Thinking": enter,
      an error naming the state and the message, exit. */
  lemma BoomScenario(logger: string, emitted: seq<Record>)
    ensures
      var r := ContextRecords(logger, "Thinking", "x", Raised(emitted, Thrown("ValueError", "boom", true)));
      && r[0].text == "[yellow][Thinking][/]entering x"
      && r[|r| - 2] == Record(logger, ERROR, "[red]Exception in state [Thinking]: boom[/red]")
      && r[|r| - 1].text == "[yellow][Thinking][/]exiting x"
  {
    var thrown := Thrown("ValueError", "boom", true);
    var body := Raised(emitted, thrown);
    var r := ContextRecords(logger, "Thinking", "x", body);
    assert LogsError(body);
    EnterText();
    ExitText();
    BoomText();
    assert r[0] == StateRecord(logger, "Thinking", EnterMessage("x"));
    assert r[|r| - 2] == ErrorRecord(logger, FailureMessage("Thinking", thrown));
    assert r[|r| - 1] == StateRecord(logger, "Thinking", ExitMessage("x"));
  }

  /** An unknown state name such as "Idle2" is rendered in the default colour. */
  lemma UnknownStateIsWhite()
    ensures StateText("Idle2", "m") == "[white][Idle2][/]m"
  {
  }

  /** The channel `logging.getLogger(name)` returns: the empty name and "root" both give
      the root logger, every other name its own logger. */
  function ChannelOf(name: string): (c: string)
    ensures c != ""
    ensures name == "" || name == ROOT_LOGGER ==> c == ROOT_LOGGER
    ensures name != "" ==> c == name
  {
    if name == "" then ROOT_LOGGER else name
  }

  /** Python's logging state: per name, the logger's level and handlers, and every record
      emitted so far. */
  class Registry {
    var levels: map<string, int>
    var handlers: map<string, seq<Handler>>
    var records: seq<Record>

    /** No name ever carries two console handlers. */
    ghost predicate Valid()
      reads this
    {
      forall name :: name in handlers ==> ConsoleCount(handlers[name]) <= 1
    }

    constructor ()
      ensures Valid()
      ensures levels == map[] && handlers == map[] && records == []
    {
      levels := map[];
      handlers := map[];
      records := [];
    }

    /** The handlers of a name; a logger not yet created has none. */
    function HandlersOf(name: string): seq<Handler>
      reads this
    {
      if name in handlers then handlers[name] else []
    }

    method SetLevel(name: string, level: int)
      modifies this
      ensures levels == old(levels)[name := level]
      ensures handlers == old(handlers) && records == old(records)
    {
      levels := levels[name := level];
    }

    method AddHandler(name: string, h: Handler)
      modifies this
      ensures handlers == old(handlers)[name := old(HandlersOf(name)) + [h]]
      ensures levels == old(levels) && records == old(records)
    {
      handlers := handlers[name := HandlersOf(name) + [h]];
    }

    method Emit(rs: seq<Record>)
      modifies this
      ensures records == old(records) + rs
      ensures levels == old(levels) && handlers == old(handlers)
    {
      records := records + rs;
    }
  }

  class LuminaLogger {
    const name: string
    /** The name of the logging channel this logger writes to. */
    const channel: string
    const registry: Registry
    var fileHandler: Option<Handler>

    /** Set the named logger's level, attach a console handler unless one is there, and
        append a file handler when file logging is asked for or the level is DEBUG. */
    constructor (name: string, level: string, fileLogging: bool, filePath: Option<string>, registry: Registry)
      requires registry.Valid()
      modifies registry
      ensures this.name == name && channel == ChannelOf(name) && this.registry == registry
      ensures registry.Valid()
      ensures registry.levels == old(registry.levels)[ChannelOf(name) := NumericLevel(level)]
      ensures registry.handlers ==
        old(registry.handlers)[ChannelOf(name) := Attach(old(registry.HandlersOf(ChannelOf(name))), level, fileLogging, filePath)]
      ensures registry.records == old(registry.records)
      ensures fileHandler == FileHandlerFor(level, fileLogging, filePath)
    {
      this.name := name;
      channel := ChannelOf(name);
      this.registry := registry;
      fileHandler := None;
      new;
      var numeric := NumericLevel(level);
      ghost var before := registry.HandlersOf(channel);
      AttachKeepsOneConsole(before, level, fileLogging, filePath);
      registry.SetLevel(channel, numeric);
      if !HasConsole(registry.HandlersOf(channel)) {
        registry.AddHandler(channel, Console(numeric));
      }
      if WantsFile(level, fileLogging) {
        var fh := File(LogPath(filePath), numeric);
        registry.AddHandler(channel, fh);
        fileHandler := Some(fh);
      }
      assert registry.HandlersOf(channel) == Attach(before, level, fileLogging, filePath);
    }

    method Info(message: string)
      modifies registry
      ensures registry.records == old(registry.records) + [Record(channel, INFO, message)]
      ensures registry.levels == old(registry.levels) && registry.handlers == old(registry.handlers)
    {
      registry.Emit([Record(channel, INFO, message)]);
    }

    method Debug(message: string)
      modifies registry
      ensures registry.records == old(registry.records) + [Record(channel, DEBUG, message)]
      ensures registry.levels == old(registry.levels) && registry.handlers == old(registry.handlers)
    {
      registry.Emit([Record(channel, DEBUG, message)]);
    }

    /** One ERROR record, the message wrapped in red markup. */
    method Error(message: string)
      modifies registry
      ensures registry.records == old(registry.records) + [ErrorRecord(channel, message)]
      ensures registry.levels == old(registry.levels) && registry.handlers == old(registry.handlers)
    {
      registry.Emit([ErrorRecord(channel, message)]);
    }

    /** One INFO record, the message prefixed by the state name in its colour. */
    method State(stateName: string, message: string)
      modifies registry
      ensures registry.records == old(registry.records) + [StateRecord(channel, stateName, message)]
      ensures registry.levels == old(registry.levels) && registry.handlers == old(registry.handlers)
    {
      registry.Emit([StateRecord(channel, stateName, message)]);
    }

    /** Enter the state, run the body, log an error if it raised an `Exception`, and leave
        the state on every path; whatever the body raised is raised again. */
    method StateContext(stateName: string, message: string, body: Body) returns (raised: Option<Thrown>)
      modifies registry
      ensures registry.records == old(registry.records) + ContextRecords(channel, stateName, message, body)
      ensures raised == if body.Raised? then Some(body.thrown) else None
      ensures registry.levels == old(registry.levels) && registry.handlers == old(registry.handlers)
    {
      ghost var before := registry.records;
      var enterMessage := EnterMessage(message);
      var exitMessage := ExitMessage(message);
      State(stateName, enterMessage);
      registry.Emit(body.emitted);
      ghost var middle := registry.records;
      raised := None;
      if body.Raised? {
        if body.thrown.isException {
          Error(FailureMessage(stateName, body.thrown));
        }
        raised := Some(body.thrown);
      }
      ghost var errorPart := registry.records[|middle|..];
      assert registry.records == middle + errorPart;
      State(stateName, exitMessage);
      assert registry.records
          == before + ([StateRecord(channel, stateName, enterMessage)] + body.emitted + errorPart
                       + [StateRecord(channel, stateName, exitMessage)]);
    }
  }

  /** `get_logger(settings, name=..., file_logging=..., file_path=...)`. */
  method GetLogger(settings: Option<ConfigSettings.Settings>, name: string, fileLogging: bool,
                   filePath: Option<string>, registry: Registry) returns (logger: LuminaLogger)
    requires registry.Valid()
    modifies registry
    ensures fresh(logger) && logger.name == name && logger.channel == ChannelOf(name) && logger.registry == registry
    ensures registry.Valid()
    ensures registry.levels == old(registry.levels)[ChannelOf(name) := NumericLevel(ChooseLevel(settings))]
    ensures registry.handlers ==
      old(registry.handlers)[ChannelOf(name) := Attach(old(registry.HandlersOf(ChannelOf(name))), ChooseLevel(settings), fileLogging, filePath)]
    ensures registry.records == old(registry.records)
    ensures logger.fileHandler == FileHandlerFor(ChooseLevel(settings), fileLogging, filePath)
  {
    logger := new LuminaLogger(name, ChooseLevel(settings), fileLogging, filePath, registry);
  }

  /** Constructing a logger on "" and then one on "root" reaches the same root logger: it
      ends with exactly one console handler, and with one more file handler for each
      construction that wants one. */
  method RootAliasesShareOneConsole(level1: string, fileLogging1: bool, filePath1: Option<string>,
                                    level2: string, fileLogging2: bool, filePath2: Option<string>,
                                    registry: Registry) returns (first: LuminaLogger, second: LuminaLogger)
    requires registry.Valid()
    modifies registry
    ensures first.channel == ROOT_LOGGER && second.channel == ROOT_LOGGER
    ensures first.registry == registry && second.registry == registry
    ensures registry.Valid()
    ensures ConsoleCount(registry.HandlersOf(ROOT_LOGGER)) == 1
    ensures FileCount(registry.HandlersOf(ROOT_LOGGER))
         == FileCount(old(registry.HandlersOf(ROOT_LOGGER)))
            + (if WantsFile(level1, fileLogging1) then 1 else 0)
            + (if WantsFile(level2, fileLogging2) then 1 else 0)
  {
    ghost var before := registry.HandlersOf(ROOT_LOGGER);
    first := new LuminaLogger("", level1, fileLogging1, filePath1, registry);
    second := new LuminaLogger(ROOT_LOGGER, level2, fileLogging2, filePath2, registry);
    RepeatedConstructionsShareOneConsole(before, level1, fileLogging1, filePath1, level2, fileLogging2, filePath2);
  }
}
