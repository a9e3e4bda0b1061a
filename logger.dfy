/** The logging setup of `utils/logger.py`: the processor chain shared by
    structlog and the standard library, the two event-dict processors of its
    own, the reconfiguration of uvicorn's loggers, the root logger and the
    uncaught-exception hook. structlog and `logging` themselves are not
    modelled: processors, renderers and handlers are tags. */
module LoggerConfig {
  import opened Wrappers

  datatype LogFormat = Json | Console

  datatype CallsiteParameter = Filename | FuncName | Lineno

  datatype Processor =
    | MergeContextVars
    | AddLogLevel
    | AddLoggerName
    | PositionalArgumentsFormatter
    | DropColorMessageKey
    | TimeStamper(fmt: string)
    | UnicodeDecoder
    | StackInfoRenderer
    | CallsiteParameterAdder(parameters: seq<CallsiteParameter>)
    | RenameEventKey
    | FormatExcInfo
    | WrapForFormatter
    | RemoveProcessorsMeta
    | JsonRenderer
    | ConsoleRenderer(colors: bool)

  // ---------------------------------------------------------------- processors

  /** The processors every format shares, in the order they run. */
  function BaseProcessors(): seq<Processor>
  {
    [ MergeContextVars,
      AddLogLevel,
      AddLoggerName,
      PositionalArgumentsFormatter,
      DropColorMessageKey,
      TimeStamper("iso"),
      UnicodeDecoder,
      StackInfoRenderer,
      CallsiteParameterAdder([Filename, FuncName, Lineno]) ]
  }

  /** `__get_processors`: the shared processors, and for JSON output the
      rename of "event" to "message" and exception formatting after them. */
  function GetProcessors(format: LogFormat): (ps: seq<Processor>)
    ensures |ps| == (if format == Json then 11 else 9)
    ensures ps[..9] == BaseProcessors()
    ensures format == Json ==> ps[9..] == [RenameEventKey, FormatExcInfo]
  {
    var processors := BaseProcessors();
    if format == Json then processors + [RenameEventKey, FormatExcInfo] else processors
  }

  /** The context merge (which brings in the request id) always runs first,
      the colour key is dropped before the event key is renamed, the rename
      and exception formatting are there exactly for JSON, and no processor
      appears twice. */
  lemma ProcessorOrder(format: LogFormat)
    ensures var ps := GetProcessors(format);
      ps[0] == MergeContextVars
      && (RenameEventKey in ps <==> format == Json)
      && (FormatExcInfo in ps <==> format == Json)
      && (format == Json ==> ps[4] == DropColorMessageKey && ps[9] == RenameEventKey)
      && (forall i, j :: 0 <= i < j < |ps| ==> ps[i] != ps[j])
      && WrapForFormatter !in ps
  {
    var ps := GetProcessors(format);
    assert ps[..9] == BaseProcessors();
    assert forall i :: 0 <= i < 9 ==> ps[i] == BaseProcessors()[i];
  }

  // ------------------------------------------------------------ configuration

  datatype LoggerFactory = StdlibLoggerFactory

  datatype StructlogConfig =
    StructlogConfig(processors: seq<Processor>, loggerFactory: LoggerFactory, cacheLoggerOnFirstUse: bool)

  /** `__configure_structlog`: the shared processors, then the hand-over to the
      standard library's formatter. */
  function ConfigureStructlog(shared: seq<Processor>): (c: StructlogConfig)
    ensures |c.processors| == |shared| + 1
    ensures c.processors[..|shared|] == shared
    ensures c.processors[|shared|] == WrapForFormatter
    ensures WrapForFormatter !in shared ==> multiset(c.processors)[WrapForFormatter] == 1
    ensures c.cacheLoggerOnFirstUse
  {
    StructlogConfig(shared + [WrapForFormatter], StdlibLoggerFactory, true)
  }

  datatype Formatter = ProcessorFormatter(foreignPreChain: seq<Processor>, processors: seq<Processor>)

  /** A `logging.StreamHandler` (standard error) with its formatter. */
  datatype Handler = StreamHandler(formatter: Formatter)

  /** The renderer and the formatter `__configure_logging` builds. */
  function Renderer(format: LogFormat): Processor
  {
    if format == Json then JsonRenderer else ConsoleRenderer(true)
  }

  function MakeFormatter(format: LogFormat, shared: seq<Processor>): Formatter
  {
    ProcessorFormatter(shared, [RemoveProcessorsMeta, Renderer(format)])
  }

  // ---------------------------------------------------------------- levels

  const NOTSET := 0
  const DEBUG := 10
  const INFO := 20
  const WARNING := 30
  const ERROR := 40
  const CRITICAL := 50

  /** The level names `Logger.setLevel` accepts; any other name raises `ValueError`. */
  function LevelNumber(name: string): Option<int>
  {
    if name == "CRITICAL" || name == "FATAL" then Some(CRITICAL)
    else if name == "ERROR" then Some(ERROR)
    else if name == "WARN" || name == "WARNING" then Some(WARNING)
    else if name == "INFO" then Some(INFO)
    else if name == "DEBUG" then Some(DEBUG)
    else if name == "NOTSET" then Some(NOTSET)
    else None
  }

  function UpperChar(c: char): char
  {
    if 'a' <= c <= 'z' then (c as int - 32) as char else c
  }

  /** `str.upper()` on ASCII letters. */
  function Upper(s: string): (r: string)
    ensures |r| == |s|
    ensures forall i :: 0 <= i < |s| ==> r[i] == UpperChar(s[i])
  {
    if s == [] then [] else [UpperChar(s[0])] + Upper(s[1..])
  }

  /** The level is read regardless of case: "debug", "Debug" and "DEBUG" all
      set DEBUG, "Info" sets INFO, and a name that is no level in any case is
      refused. */
  lemma LevelNamesIgnoreCase()
    ensures LevelNumber(Upper("debug")) == Some(DEBUG)
    ensures LevelNumber(Upper("Debug")) == Some(DEBUG)
    ensures LevelNumber(Upper("DEBUG")) == Some(DEBUG)
    ensures LevelNumber(Upper("Info")) == Some(INFO)
    ensures LevelNumber(Upper("verbose")) == None
  {
    UpperNames();
  }

  /** The upper-cased forms of the names above. */
  lemma UpperNames()
    ensures Upper("debug") == "DEBUG" && Upper("Debug") == "DEBUG" && Upper("DEBUG") == "DEBUG"
    ensures Upper("Info") == "INFO" && Upper("verbose") == "VERBOSE"
  {
    UpperIs("debug", "DEBUG");
    UpperIs("Debug", "DEBUG");
    UpperIs("DEBUG", "DEBUG");
    UpperIs("Info", "INFO");
    UpperIs("verbose", "VERBOSE");
  }

  /** `u` is `s` upper-cased, checked character by character. */
  lemma UpperIs(s: string, u: string)
    requires |s| == |u| && forall i :: 0 <= i < |s| ==> UpperChar(s[i]) == u[i]
    ensures Upper(s) == u
  {
  }

  // ------------------------------------------------------- the logger table

  /** The part of a standard-library logger the setup touches. */
  datatype LoggerState = LoggerState(handlers: seq<Handler>, propagate: bool, level: int)

  /** What `logging.getLogger(name)` creates for a name not seen before. */
  const FreshLogger := LoggerState([], true, NOTSET)

  const UvicornLoggers: seq<string> := ["uvicorn", "uvicorn.error", "uvicorn.access"]

  /** One turn of `__clear_uvicorn_logger`'s loop. */
  function ClearOne(loggers: map<string, LoggerState>, name: string): map<string, LoggerState>
  {
    var logger := if name in loggers then loggers[name] else FreshLogger;
    var cleared := logger.(handlers := [], propagate := true);
    loggers[name := if name == "uvicorn.access" then cleared.(level := WARNING) else cleared]
  }

  /** The turns for `names`, in order. */
  function ClearAll(loggers: map<string, LoggerState>, names: seq<string>): map<string, LoggerState>
  {
    if names == [] then loggers
    else ClearOne(ClearAll(loggers, names[..|names| - 1]), names[|names| - 1])
  }

  /** After `__clear_uvicorn_logger` the three uvicorn loggers exist, have no
      handlers and propagate to the root logger; only "uvicorn.access" gets a
      new level, WARNING; every other logger is untouched. */
  lemma ClearUvicornEffect(loggers: map<string, LoggerState>)
    ensures var after := ClearAll(loggers, UvicornLoggers);
      (forall name :: name in UvicornLoggers ==>
         name in after && after[name].handlers == [] && after[name].propagate)
      && after["uvicorn.access"].level == WARNING
      && (forall name :: name in UvicornLoggers && name != "uvicorn.access" ==>
            after[name].level == (if name in loggers then loggers[name].level else NOTSET))
      && (forall name :: name !in UvicornLoggers ==>
            (name in after <==> name in loggers) && (name in after ==> after[name] == loggers[name]))
  {
    var names := UvicornLoggers;
    assert names[..0] == [] && names[..1] == ["uvicorn"] && names[..2] == ["uvicorn", "uvicorn.error"];
    assert names[..1][..0] == [] && names[..2][..1] == names[..1] && names[..3] == names;
    var m1 := ClearOne(loggers, "uvicorn");
    var m2 := ClearOne(m1, "uvicorn.error");
    var m3 := ClearOne(m2, "uvicorn.access");
    assert ClearAll(loggers, names[..1]) == m1;
    assert ClearAll(loggers, names[..2]) == m2;
    assert ClearAll(loggers, names) == m3;
  }

  // ---------------------------------------------------- uncaught exceptions

  /** An exception class, with its (single) base class. */
  datatype ExcClass = ExcClass(name: string, base: Option<ExcClass>)

  const BaseException := ExcClass("BaseException", None)
  const KeyboardInterrupt := ExcClass("KeyboardInterrupt", Some(BaseException))
  const Exception := ExcClass("Exception", Some(BaseException))

  /** `issubclass(c, cls)`: `cls` is `c` or one of its ancestors. */
  predicate IsSubclass(c: ExcClass, cls: ExcClass)
  {
    c == cls || (c.base.Some? && IsSubclass(c.base.value, cls))
  }

  /** A subclass of a subclass is a subclass. */
  lemma {:induction false} IsSubclassTransitive(a: ExcClass, b: ExcClass, c: ExcClass)
    requires IsSubclass(a, b) && IsSubclass(b, c)
    ensures IsSubclass(a, c)
  {
    if a != b {
      IsSubclassTransitive(a.base.value, b, c);
    }
  }

  /** What `handle_exception` does with an uncaught exception: hand it to the
      interpreter's default hook, or log it at error level on the root logger. */
  datatype HookAction =
    | CallDefaultHook(excType: ExcClass)
    | LogError(message: string, excType: ExcClass)

  function HandleException(excType: ExcClass): HookAction
  {
    if IsSubclass(excType, KeyboardInterrupt) then CallDefaultHook(excType)
    else LogError("Uncaught exception", excType)
  }

  /** How many error records an action writes. */
  function ErrorRecords(a: HookAction): nat
  {
    if a.LogError? then 1 else 0
  }

  /** Every class derived, however indirectly, from KeyboardInterrupt goes to
      the default hook and is not logged; every other exception is logged once. */
  lemma HandleExceptionRouting(excType: ExcClass, ancestor: ExcClass)
    requires IsSubclass(excType, ancestor)
    ensures IsSubclass(ancestor, KeyboardInterrupt) ==>
      HandleException(excType) == CallDefaultHook(excType) && ErrorRecords(HandleException(excType)) == 0
    ensures !IsSubclass(excType, KeyboardInterrupt) ==>
      HandleException(excType) == LogError("Uncaught exception", excType) && ErrorRecords(HandleException(excType)) == 1
  {
    if IsSubclass(ancestor, KeyboardInterrupt) {
      IsSubclassTransitive(excType, ancestor, KeyboardInterrupt);
    }
  }

  /** An ordinary error is logged; neither `Exception` nor its subclasses
      derive from KeyboardInterrupt. */
  lemma ExceptionIsLogged(excType: ExcClass)
    requires IsSubclass(excType, Exception)
    ensures ErrorRecords(HandleException(excType)) == 1
  {
    if IsSubclass(excType, KeyboardInterrupt) {
      SubclassesOfTwo(excType, Exception, KeyboardInterrupt);
    }
  }

  /** With single inheritance, two ancestors of one class are ordered. */
  lemma {:induction false} SubclassesOfTwo(a: ExcClass, b: ExcClass, c: ExcClass)
    requires IsSubclass(a, b) && IsSubclass(a, c)
    ensures IsSubclass(b, c) || IsSubclass(c, b)
  {
    if a != b && a != c {
      SubclassesOfTwo(a.base.value, b, c);
    }
  }

  // ------------------------------------------------------ the event dict

  /** `__drop_color_message_key`'s effect: "color_message" is gone. */
  function WithoutColorMessage<V>(m: map<string, V>): (r: map<string, V>)
    ensures "color_message" !in r
    ensures forall k :: k != "color_message" ==> (k in r <==> k in m) && (k in r ==> r[k] == m[k])
  {
    m - {"color_message"}
  }

  /** `__rename_event_key`'s effect: the value of "event" moves to "message". */
  function EventRenamed<V>(m: map<string, V>): (r: map<string, V>)
    requires "event" in m
    ensures "event" !in r && "message" in r && r["message"] == m["event"]
    ensures forall k :: k != "event" && k != "message" ==> (k in r <==> k in m) && (k in r ==> r[k] == m[k])
  {
    (m - {"event"})["message" := m["event"]]
  }

  /** Dropping the colour key twice is dropping it once. */
  lemma DropIdempotent<V>(m: map<string, V>)
    ensures WithoutColorMessage(WithoutColorMessage(m)) == WithoutColorMessage(m)
  {
  }

  /** Dropping the colour key and then renaming the event key, the order the
      JSON chain applies them in, leaves the event under "message" and neither
      "event" nor "color_message"; these two steps change no other key. The
      processors between and after them are not part of this statement. */
  lemma JsonChainKeys<V>(m: map<string, V>)
    requires "event" in m
    ensures var r := EventRenamed(WithoutColorMessage(m));
      r.Keys == m.Keys - {"event", "color_message"} + {"message"}
      && r["message"] == m["event"]
      && forall k :: k in r && k != "message" ==> r[k] == m[k]
  {
    var d := WithoutColorMessage(m);
    var r := EventRenamed(d);
    forall k ensures k in r.Keys <==> k in m.Keys - {"event", "color_message"} + {"message"} {
      if k != "event" && k != "message" && k != "color_message" {
        assert k in r <==> k in d;
      }
    }
  }

  /** The dictionary structlog passes along the chain; the two processors of
      this file change it in place. */
  class EventDict<V> {
    var entries: map<string, V>

    constructor (entries: map<string, V>)
      ensures this.entries == entries
    {
      this.entries := entries;
    }

    /** Pops "color_message" with a default, so it never raises. */
    method DropColorMessageKey()
      modifies this
      ensures entries == WithoutColorMessage(old(entries))
    {
      entries := entries - {"color_message"};
    }

    /** Pops "event" and stores its value under "message"; the pop raises
        `KeyError` and leaves the dict as it was when there is no "event". */
    method RenameEventKey() returns (outcome: Outcome<string>)
      modifies this
      ensures "event" in old(entries) ==> outcome == Pass && entries == EventRenamed(old(entries))
      ensures "event" !in old(entries) ==> outcome == Fail("event") && entries == old(entries)
    {
      if "event" !in entries {
        return Fail("event");
      }
      var event := entries["event"];
      entries := entries - {"event"};
      entries := entries["message" := event];
      outcome := Pass;
    }
  }

  // ------------------------------------------------------------- setup

  /** The interpreter's exception hook: the default one, or this file's
      `handle_exception`. */
  datatype ExceptHook = DefaultExceptHook | HandleUncaught

  /** What the installed hook does with an uncaught exception. */
  function Route(hook: ExceptHook, excType: ExcClass): HookAction
  {
    match hook
    case DefaultExceptHook => CallDefaultHook(excType)
    case HandleUncaught => HandleException(excType)
  }

  /** The process-wide state the setup writes: structlog's configuration, the
      standard library's logger table (root logger and named loggers) and
      `sys.excepthook`. */
  class LoggingSystem {
    var structlogConfig: Option<StructlogConfig>
    var root: LoggerState
    var loggers: map<string, LoggerState>
    var excepthook: ExceptHook

    /** The state at start-up: the root logger at WARNING without handlers,
        and whatever named loggers the server configured already. */
    constructor (loggers: map<string, LoggerState>)
      ensures structlogConfig == None && root == LoggerState([], true, WARNING)
      ensures this.loggers == loggers && excepthook == DefaultExceptHook
    {
      structlogConfig := None;
      root := LoggerState([], true, WARNING);
      this.loggers := loggers;
      excepthook := DefaultExceptHook;
    }

    /** `logging.getLogger(name)`, which creates the logger on first use. */
    method GetLogger(name: string) returns (logger: LoggerState)
      modifies this
      ensures name in loggers && logger == loggers[name]
      ensures loggers == if name in old(loggers) then old(loggers) else old(loggers)[name := FreshLogger]
      ensures root == old(root) && structlogConfig == old(structlogConfig) && excepthook == old(excepthook)
    {
      if name !in loggers {
        loggers := loggers[name := FreshLogger];
      }
      logger := loggers[name];
    }

    /** `__clear_uvicorn_logger` */
    method ClearUvicornLoggers()
      modifies this
      ensures loggers == ClearAll(old(loggers), UvicornLoggers)
      ensures root == old(root) && structlogConfig == old(structlogConfig) && excepthook == old(excepthook)
    {
      for i := 0 to |UvicornLoggers|
        invariant loggers == ClearAll(old(loggers), UvicornLoggers[..i])
        invariant root == old(root) && structlogConfig == old(structlogConfig) && excepthook == old(excepthook)
      {
        var name := UvicornLoggers[i];
        var logger := GetLogger(name);
        logger := logger.(handlers := []);
        logger := logger.(propagate := true);
        if name == "uvicorn.access" {
          logger := logger.(level := WARNING);
        }
        loggers := loggers[name := logger];
        assert UvicornLoggers[..i + 1][..i] == UvicornLoggers[..i];
      }
      assert UvicornLoggers[..|UvicornLoggers|] == UvicornLoggers;
    }

    /** `__configure_logging`: one stream handler with the processor formatter
        on the root logger, then the root level from the upper-cased name,
        which raises `ValueError` when it names no level. */
    method ConfigureLogging(format: LogFormat, logLevel: string, processors: seq<Processor>)
      returns (outcome: Outcome<string>)
      modifies this
      ensures root.handlers == old(root.handlers) + [StreamHandler(MakeFormatter(format, processors))]
      ensures root.propagate == old(root.propagate)
      ensures LevelNumber(Upper(logLevel)).Some? ==>
        outcome == Pass && root.level == LevelNumber(Upper(logLevel)).value
      ensures LevelNumber(Upper(logLevel)).None? ==>
        outcome == Fail(Upper(logLevel)) && root.level == old(root.level)
      ensures loggers == old(loggers) && structlogConfig == old(structlogConfig) && excepthook == old(excepthook)
    {
      var handler := StreamHandler(MakeFormatter(format, processors));
      root := root.(handlers := root.handlers + [handler]);
      var name := Upper(logLevel);
      var level := LevelNumber(name);
      if level.None? {
        return Fail(name);
      }
      root := root.(level := level.value);
      outcome := Pass;
    }
  }

  /** `Logger`: the level and output format the setup is made for. */
  class Logger {
    const logLevel: string
    const logFormat: LogFormat

    constructor (logLevel: string := "DEBUG", logFormat: LogFormat := Json)
      ensures this.logLevel == logLevel && this.logFormat == logFormat
    {
      this.logLevel := logLevel;
      this.logFormat := logFormat;
    }

    /** `setup_logging` (`__configure`): configure structlog and the root
        logger with one shared processor list, clear uvicorn's loggers and
        install `handle_exception` as the exception hook. An unknown level
        stops the setup after the handler is added. */
    method SetupLogging(sys: LoggingSystem) returns (outcome: Outcome<string>)
      modifies sys
      ensures var shared := GetProcessors(logFormat);
        sys.structlogConfig == Some(ConfigureStructlog(shared))
        && sys.root.handlers == old(sys.root.handlers) + [StreamHandler(MakeFormatter(logFormat, shared))]
        && sys.root.propagate == old(sys.root.propagate)
      ensures outcome == Pass <==> LevelNumber(Upper(logLevel)).Some?
      ensures outcome == Pass ==>
        sys.root.level == LevelNumber(Upper(logLevel)).value
        && sys.loggers == ClearAll(old(sys.loggers), UvicornLoggers)
        && sys.excepthook == HandleUncaught
        && (forall e :: Route(sys.excepthook, e) == HandleException(e))
      ensures outcome != Pass ==>
        sys.root.level == old(sys.root.level) && sys.loggers == old(sys.loggers)
        && sys.excepthook == old(sys.excepthook)
    {
      var shared := GetProcessors(logFormat);
      sys.structlogConfig := Some(ConfigureStructlog(shared));
      outcome := sys.ConfigureLogging(logFormat, logLevel, shared);
      if outcome != Pass {
        return;
      }
      sys.ClearUvicornLoggers();
      sys.excepthook := HandleUncaught;
    }
  }
}
