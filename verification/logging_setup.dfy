/**
 * `configure_logging` as data: the dictionary it hands to the logging library,
 * computed from the requested level before any global state is touched.
 */
module LoggingSetup {
  import opened Wrappers

  const PlainFormat: string := "%(message)s"
  const VerboseFormat: string := "%(asctime)s [%(levelname)s] %(name)s:%(lineno)d: %(message)s"

  const RootLogger: string := ""
  const PackageLogger: string := "imaginairy"
  const TransformersLogger: string := "transformers.modeling_utils"

  datatype LoggerSpec = LoggerSpec(name: string, handlers: seq<string>, level: string, propagate: bool)

  datatype HandlerSpec = HandlerSpec(name: string, level: string, formatter: string, handlerClass: string, stream: string)

  datatype LoggingConfig = LoggingConfig(
    version: int,
    disableExistingLoggers: bool,
    formatterName: string,
    format: string,
    handler: HandlerSpec,
    loggers: seq<LoggerSpec>)

  /** The level configured for logger `name`, or `None` if it is not configured. */
  function LevelOf(loggers: seq<LoggerSpec>, name: string): (r: Option<string>)
    ensures r.Some? <==> exists i :: 0 <= i < |loggers| && loggers[i].name == name
    ensures r.Some? ==> exists i :: 0 <= i < |loggers| && loggers[i].name == name && loggers[i].level == r.value
  {
    if loggers == [] then None
    else if loggers[0].name == name then Some(loggers[0].level)
    else
      var rest := LevelOf(loggers[1..], name);
      assert forall i :: 1 <= i < |loggers| ==> loggers[i] == loggers[1..][i - 1];
      rest
  }

  /**
   * The configuration for `level`: verbose timestamped lines only at `DEBUG`;
   * the package logger follows the request, the root logger stays at WARNING
   * and the transformers logger at ERROR; everything goes to one stdout
   * stream handler at INFO and nothing propagates; it is schema version 1 and
   * disables the loggers that already exist.
   */
  function ConfigureLogging(level: string): (c: LoggingConfig)
    ensures c.format == VerboseFormat <==> level == "DEBUG"
    ensures c.format == PlainFormat <==> level != "DEBUG"
    ensures LevelOf(c.loggers, PackageLogger) == Some(level)
    ensures LevelOf(c.loggers, RootLogger) == Some("WARNING")
    ensures LevelOf(c.loggers, TransformersLogger) == Some("ERROR")
    ensures forall i :: 0 <= i < |c.loggers| ==> c.loggers[i].handlers == [c.handler.name] && !c.loggers[i].propagate
    ensures c.handler.formatter == c.formatterName && c.handler.level == "INFO"
    ensures c.version == 1 && c.disableExistingLoggers
    ensures |c.loggers| == 3
    ensures forall name :: LevelOf(c.loggers, name) == ConfiguredLevel(level, name)
    ensures c.handler.handlerClass == "logging.StreamHandler" && c.handler.stream == "ext://sys.stdout"
  {
    var fmt := if level == "DEBUG" then VerboseFormat else PlainFormat;
    forall name
      ensures LevelOf(Loggers(level), name) == ConfiguredLevel(level, name)
    {
      LoggerTable(level, name);
    }
    LoggingConfig(
      1,
      true,
      "standard",
      fmt,
      HandlerSpec("default", "INFO", "standard", "logging.StreamHandler", "ext://sys.stdout"),
      Loggers(level))
  }

  /**
   * The intended level of each logger name: the root logger at WARNING, the
   * package logger at the requested level, the transformers logger at ERROR,
   * and no level for any other name.
   */
  function ConfiguredLevel(level: string, name: string): Option<string> {
    if name == RootLogger then Some("WARNING")
    else if name == PackageLogger then Some(level)
    else if name == TransformersLogger then Some("ERROR")
    else None
  }

  /** The `loggers` entry of the dictionary, in the order it is written. */
  function Loggers(level: string): seq<LoggerSpec> {
    [ LoggerSpec(RootLogger, ["default"], "WARNING", false),
      LoggerSpec(PackageLogger, ["default"], level, false),
      LoggerSpec(TransformersLogger, ["default"], "ERROR", false) ]
  }

  /**
   * The whole lookup table of the `loggers` entry: three named loggers with
   * their levels, and no level for any other name.
   */
  lemma LoggerTable(level: string, name: string)
    ensures LevelOf(Loggers(level), name) == ConfiguredLevel(level, name)
  {
    var l := Loggers(level);
    assert PackageLogger != RootLogger && TransformersLogger != RootLogger && TransformersLogger != PackageLogger;
    assert l[1..][1..][1..] == [];
    assert LevelOf(l[1..][1..], name) == if name == TransformersLogger then Some("ERROR") else None;
    assert LevelOf(l[1..], name) == if name == PackageLogger then Some(level) else LevelOf(l[1..][1..], name);
    assert LevelOf(l, name) == if name == RootLogger then Some("WARNING") else LevelOf(l[1..], name);
  }

  /**
   * Only the format and the package logger's level depend on the request:
   * every other logger has the same level whatever level is asked for.
   */
  lemma OnlyPackageLevelVaries(a: string, b: string, name: string)
    requires name != PackageLogger
    ensures LevelOf(ConfigureLogging(a).loggers, name) == LevelOf(ConfigureLogging(b).loggers, name)
  {
    LoggerTable(a, name);
    LoggerTable(b, name);
  }
}
