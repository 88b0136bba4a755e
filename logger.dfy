/**
 * Logger configuration decisions and the field list of `LogError`.
 *
 * Only what is chosen is modelled: the level, the formatter, the sink (standard
 * output, a rotating file, or both) and the options handed to the logger; and,
 * for `LogError`, the level, message and ordered key/value fields of the single
 * record it emits. Writing, rotation and rendering are the libraries' business.
 */
module Logger {
  import opened Wrappers
  import opened Errors

  /** The charmbracelet/log levels the configuration can select. */
  datatype Level = DebugLevel | InfoLevel | WarnLevel | ErrorLevel

  /** `configs.LogFormat`: the two named constants, and any other value. */
  datatype LogFormat = LogFormatJSON | LogFormatText | LogFormatOther(name: string)

  /** The charmbracelet/log formatters. */
  datatype Formatter = JSONFormatter | TextFormatter

  /** The rotating-file settings copied into the lumberjack writer. */
  datatype FileConfig = FileConfig(path: string, maxSize: int, maxAge: int, maxBackups: int, compress: bool)

  /** The part of `configs.LogConfig` that the sink, level and format decisions read. */
  datatype LogConfig = LogConfig(level: string, format: LogFormat, output: seq<string>, fileConfig: FileConfig)

  /** The writer the logger is built on. */
  datatype Writer = Stdout | File(config: FileConfig) | MultiWriter(first: Writer, second: Writer)

  /** `log.Options` as `Setup` fills them in. */
  datatype Options = Options(
    level: Level,
    prefix: string,
    timeFormat: string,
    reportTimestamp: bool,
    reportCaller: bool,
    formatter: Formatter)

  /** The logger `Setup` installs as the default. */
  datatype LoggerSetup = LoggerSetup(writer: Writer, options: Options)

  /** The prefix every record carries: a globe emoji and the program name. */
  const Prefix: string := "\U{1F30F} starter"

  /** Go's `time.RFC3339` layout. */
  const RFC3339: string := "2006-01-02T15:04:05Z07:00"

  /** The configuration word for a level. */
  function LevelName(l: Level): string
  {
    match l
    case DebugLevel => "debug"
    case InfoLevel => "info"
    case WarnLevel => "warn"
    case ErrorLevel => "error"
  }

  /** `parseLogLevel`: the four level words map to their level, anything else to Info. */
  function ParseLogLevel(level: string): (l: Level)
    ensures l == DebugLevel <==> level == "debug"
    ensures l == WarnLevel <==> level == "warn"
    ensures l == ErrorLevel <==> level == "error"
    ensures l == InfoLevel <==> level != "debug" && level != "warn" && level != "error"
  {
    match level
    case "debug" => DebugLevel
    case "info" => InfoLevel
    case "warn" => WarnLevel
    case "error" => ErrorLevel
    case _ => InfoLevel
  }

  /** Parsing inverts naming: every level is reachable from its word. */
  lemma ParseLevelName(l: Level)
    ensures ParseLogLevel(LevelName(l)) == l
  {
  }

  /** `parseLogFormat`: JSON selects the JSON formatter; Text and every other value the text one. */
  function ParseLogFormat(format: LogFormat): (f: Formatter)
    ensures f == JSONFormatter <==> format == LogFormatJSON
  {
    match format
    case LogFormatJSON => JSONFormatter
    case LogFormatText => TextFormatter
    case LogFormatOther(_) => TextFormatter
  }

  /** Console output is wanted when the output list is empty or names "console". */
  predicate HasConsole(output: seq<string>)
  {
    |output| == 0 || "console" in output
  }

  /**
   * `Setup`, minus the global side effects: scans the output list for
   * "console" and for the first "file" entry (each scan stops at its first
   * hit), then picks the writer and fills in the options.
   */
  method Setup(config: LogConfig) returns (s: LoggerSetup)
    ensures s.options.level == ParseLogLevel(config.level)
    ensures s.options.reportCaller <==> ParseLogLevel(config.level) == DebugLevel
    ensures s.options.formatter == ParseLogFormat(config.format)
    ensures s.options.prefix == Prefix && s.options.timeFormat == RFC3339 && s.options.reportTimestamp
    ensures HasConsole(config.output) && "file" in config.output ==> s.writer == MultiWriter(Stdout, File(config.fileConfig))
    ensures HasConsole(config.output) && "file" !in config.output ==> s.writer == Stdout
    ensures !HasConsole(config.output) && "file" in config.output ==> s.writer == File(config.fileConfig)
    ensures !HasConsole(config.output) && "file" !in config.output ==> s.writer == Stdout
  {
    var level := ParseLogLevel(config.level);

    var hasConsole := false;
    for i := 0 to |config.output|
      invariant !hasConsole
      invariant "console" !in config.output[..i]
    {
      if config.output[i] == "console" {
        hasConsole := true;
        break;
      }
    }
    assert hasConsole || config.output[..|config.output|] == config.output;
    if |config.output| == 0 {
      hasConsole := true;
    }

    var fileOutput: Option<Writer> := None;
    for i := 0 to |config.output|
      invariant fileOutput.None?
      invariant "file" !in config.output[..i]
    {
      if config.output[i] == "file" {
        fileOutput := Some(File(config.fileConfig));
        break;
      }
    }
    assert fileOutput.Some? || config.output[..|config.output|] == config.output;

    var options := Options(level, Prefix, RFC3339, true, level == DebugLevel, TextFormatter);

    var writer: Writer;
    if hasConsole && fileOutput.Some? {
      writer := MultiWriter(Stdout, fileOutput.value);
    } else if hasConsole {
      writer := Stdout;
    } else if fileOutput.Some? {
      writer := fileOutput.value;
    } else {
      writer := Stdout;
    }

    if config.format == LogFormatJSON {
      options := options.(formatter := JSONFormatter);
    } else {
      options := options.(formatter := TextFormatter);
    }

    s := LoggerSetup(writer, options);
  }

  /** A logged key or value: a string, or a value of another type. */
  datatype Val = Str(s: string) | Int(n: int)

  /** The record `LogError` emits. */
  datatype LogRecord = LogRecord(level: Level, msg: string, fields: seq<Val>)

  /** The text logged under "err": the `%+v` rendering only for an application error with stacks on. */
  function ErrText(e: Error, showStackTrace: bool): string
  {
    if e.isApp && showStackTrace then Rendered(e) else e.message
  }

  /** The "stack_trace" pair: only for a non-application formatter error with stacks on. */
  function StackField(e: Error, showStackTrace: bool): seq<Val>
  {
    if !e.isApp && showStackTrace && e.verbose.Some? then [Str("stack_trace"), Str("\n" + e.verbose.value)] else []
  }

  /** The "original_err" pair: only when unwrapping yields a cause. */
  function OriginalField(e: Error): seq<Val>
  {
    if e.cause.Some? then [Str("original_err"), Str(e.cause.value.message)] else []
  }

  /** The fields `LogError` derives from the error, before the caller's key/value pairs. */
  function ErrorFields(e: Error, showStackTrace: bool): seq<Val>
  {
    [Str("err"), Str(ErrText(e, showStackTrace))] + StackField(e, showStackTrace) + OriginalField(e)
  }

  /** The keys of a key/value list: its entries at even positions. */
  function Keys(fields: seq<Val>): seq<Val>
    decreases |fields|
  {
    if |fields| < 2 then fields else [fields[0]] + Keys(fields[2..])
  }

  /**
   * `LogError`: builds the field list by successive appends and emits one
   * Error-level record. `showStackTrace` is the configured stack-trace
   * decision for the Error level.
   */
  method LogError(msg: string, err: Error, showStackTrace: bool, keyvals: seq<Val>) returns (rec: LogRecord)
    ensures rec.level == ErrorLevel && rec.msg == msg
    ensures rec.fields == ErrorFields(err, showStackTrace) + keyvals
  {
    var fields: seq<Val> := [];
    if err.isApp {
      if showStackTrace {
        fields := fields + [Str("err"), Str(Rendered(err))];
      } else {
        fields := fields + [Str("err"), Str(err.message)];
      }
      if err.cause.Some? {
        fields := fields + [Str("original_err"), Str(err.cause.value.message)];
      }
    } else {
      fields := fields + [Str("err"), Str(err.message)];
      if showStackTrace {
        if err.verbose.Some? {
          fields := fields + [Str("stack_trace"), Str("\n" + err.verbose.value)];
        }
      }
      if err.cause.Some? {
        fields := fields + [Str("original_err"), Str(err.cause.value.message)];
      }
    }
    fields := fields + keyvals;
    rec := LogRecord(ErrorLevel, msg, fields);
  }

  /** The keys of one key/value pair. */
  lemma KeysOfPair(k: Val, v: Val)
    ensures Keys([k, v]) == [k]
  {
  }

  /** The keys among the fields derived from the error, in order. */
  lemma ErrorFieldKeys(e: Error, showStackTrace: bool)
    ensures |ErrorFields(e, showStackTrace)| % 2 == 0
    ensures Keys(ErrorFields(e, showStackTrace)) ==
      [Str("err")]
      + (if !e.isApp && showStackTrace && e.verbose.Some? then [Str("stack_trace")] else [])
      + (if e.cause.Some? then [Str("original_err")] else [])
  {
    var head := [Str("err"), Str(ErrText(e, showStackTrace))];
    var st, og := StackField(e, showStackTrace), OriginalField(e);
    KeysOfPair(Str("err"), Str(ErrText(e, showStackTrace)));
    if st != [] {
      KeysOfPair(st[0], st[1]);
    }
    if og != [] {
      KeysOfPair(og[0], og[1]);
    }
    KeysAppend(st, og);
    KeysAppend(head, st + og);
    assert ErrorFields(e, showStackTrace) == head + (st + og);
  }

  /**
   * The shape of the derived fields: they are whole key/value pairs, they
   * start with the key "err", "original_err" is a key exactly when the error
   * unwraps to a cause, and "stack_trace" exactly for a non-application
   * formatter error with stacks on. The caller's pairs therefore stay aligned
   * and come last, in their own order.
   */
  lemma ErrorFieldsShape(e: Error, showStackTrace: bool, keyvals: seq<Val>)
    ensures var f := ErrorFields(e, showStackTrace);
      && |f| % 2 == 0
      && (f + keyvals)[0] == Str("err")
      && (f + keyvals)[|f|..] == keyvals
      && (Str("original_err") in Keys(f) <==> e.cause.Some?)
      && (Str("stack_trace") in Keys(f) <==> !e.isApp && showStackTrace && e.verbose.Some?)
      && Keys(f + keyvals) == Keys(f) + Keys(keyvals)
  {
    var f := ErrorFields(e, showStackTrace);
    ErrorFieldKeys(e, showStackTrace);
    KeysAppend(f, keyvals);
  }

  /** Keys of a concatenation whose first part is whole pairs. */
  lemma {:induction false} KeysAppend(a: seq<Val>, b: seq<Val>)
    requires |a| % 2 == 0
    ensures Keys(a + b) == Keys(a) + Keys(b)
    decreases |a|
  {
    if |a| >= 2 {
      var ab := a + b;
      assert ab[0] == a[0] && ab[2..] == a[2..] + b;
      assert Keys(ab) == [a[0]] + Keys(a[2..] + b);
      assert Keys(a) == [a[0]] + Keys(a[2..]);
      KeysAppend(a[2..], b);
    } else {
      assert a == [] && a + b == b;
    }
  }
}
