/**
  Volta's logger (crates/volta-core/src/log.rs): how the requested verbosity, the
  `VOLTA_LOGLEVEL` variable and the terminal decide the level filter, which records are shown,
  and on which stream and with which text each shown record is written.

  The environment is an input: `Environment` carries the value of `VOLTA_LOGLEVEL` and whether
  stdout is a terminal, rendering takes the terminal width and textwrap's `fill` as parameters,
  and instead of printing, `Log` returns the line it would print.
 */
module VoltaLog {
  import opened Wrappers
  import opened Text
  import opened LogCrate

  const ERROR_PREFIX: string := "error:"
  const WARNING_PREFIX: string := "warning:"
  const SHIM_ERROR_PREFIX: string := "Volta error:"
  const SHIM_WARNING_PREFIX: string := "Volta warning:"
  /** Only records whose target starts with this are shown. */
  const ALLOWED_PREFIX: string := "volta"
  /** Indent of the continuation lines of a wrapped warning. */
  const WRAP_INDENT: string := "    "

  /** The executable the logger was created in. */
  datatype LogContext = Volta | Shim

  /** The verbosity the user asked for. */
  datatype LogVerbosity = Quiet | Default | Verbose

  /** The logger: both fields are set once, by `New`, and only read afterwards. */
  datatype Logger = Logger(context: LogContext, level: LevelFilter)

  /**
    What the process environment tells the logger: the value of `VOLTA_LOGLEVEL` (`None` when it
    is unset or not valid Unicode, the two cases in which `env::var` fails) and whether stdout is
    a terminal.
   */
  datatype Environment = Environment(logLevel: Option<string>, stdoutIsTty: bool)

  datatype Metadata = Metadata(level: Level, target: string)

  /** A log record; `args` is the message as its `Display` implementation formats it. */
  datatype Record = Record(metadata: Metadata, args: string)

  datatype Stream = Stdout | Stderr

  /** The two styles the logger applies with the `console` crate. */
  datatype Style = RedBold | YellowBold

  /** A piece of a printed line: text as it is, or text wrapped in a style. */
  datatype Piece = Plain(text: string) | Styled(style: Style, text: string)

  /** One `println!` or `eprintln!`: the stream and the line before its terminating newline. */
  datatype Output = Output(stream: Stream, line: seq<Piece>)

  /**
    The configuration of the textwrap `Wrapper` built for a warning: the width, whether words may
    be hyphenated, the indent of continuation lines and whether long words may be broken.
   */
  datatype WrapOptions = WrapOptions(width: nat, hyphenation: bool, subsequentIndent: string, breakWords: bool)

  /** The characters a line shows once its styling is stripped. */
  function Visible(line: seq<Piece>): string {
    if line == [] then [] else line[0].text + Visible(line[1..])
  }

  // ---------------------------------------------------------------------------------------------
  // Verbosity resolution
  // ---------------------------------------------------------------------------------------------

  /** The `VOLTA_LOGLEVEL` value that selects each filter. */
  function LevelName(f: LevelFilter): string {
    match f
    case Off => "off"
    case Error => "error"
    case Warn => "warn"
    case Info => "info"
    case Debug => "debug"
    case Trace => "trace"
  }

  /**
    The guards of `level_from_env`: a value selects a filter only when it is exactly, with the
    same case, the name of that filter.
   */
  function ParseLevel(s: string): (r: Option<LevelFilter>)
    ensures r.Some? ==> LevelName(r.value) == s
    ensures r.None? <==> forall f: LevelFilter :: LevelName(f) != s
  {
    if s == "off" then Some(LevelFilter.Off)
    else if s == "error" then Some(LevelFilter.Error)
    else if s == "warn" then Some(LevelFilter.Warn)
    else if s == "info" then Some(LevelFilter.Info)
    else if s == "debug" then Some(LevelFilter.Debug)
    else if s == "trace" then Some(LevelFilter.Trace)
    else None
  }

  /**
    `level_from_env`: the filter named by `VOLTA_LOGLEVEL`, and otherwise Info on a terminal and
    Error when stdout is redirected.
   */
  function LevelFromEnv(env: Environment): (f: LevelFilter)
    ensures forall g: LevelFilter :: env.logLevel == Some(LevelName(g)) ==> f == g
    ensures (forall g: LevelFilter :: env.logLevel != Some(LevelName(g))) ==>
              f == if env.stdoutIsTty then LevelFilter.Info else LevelFilter.Error
  {
    match env.logLevel
    case Some(l) =>
      (match ParseLevel(l)
       case Some(f) => f
       case None => if env.stdoutIsTty then LevelFilter.Info else LevelFilter.Error)
    case None => if env.stdoutIsTty then LevelFilter.Info else LevelFilter.Error
  }

  /** `Logger::new`: an explicit verbosity decides the filter, `Default` asks the environment. */
  function New(context: LogContext, verbosity: LogVerbosity, env: Environment): (logger: Logger)
    ensures logger.context == context
    ensures verbosity == Quiet ==> logger.level == LevelFilter.Error
    ensures verbosity == Verbose ==> logger.level == LevelFilter.Debug
    ensures verbosity == Default ==> logger.level == LevelFromEnv(env)
  {
    var level := match verbosity
      case Quiet => LevelFilter.Error
      case Default => LevelFromEnv(env)
      case Verbose => LevelFilter.Debug;
    Logger(context, level)
  }

  // ---------------------------------------------------------------------------------------------
  // Record dispatch and rendering
  // ---------------------------------------------------------------------------------------------

  /**
    `Log::enabled`: the level of the record passes the logger's filter; the target is not looked
    at. With the filter Off nothing passes, with Trace everything does, and an error passes every
    other filter.
   */
  predicate Enabled(logger: Logger, metadata: Metadata)
    ensures Enabled(logger, metadata) <==> metadata.level.Value() <= logger.level.Value()
    ensures logger.level == LevelFilter.Off ==> !Enabled(logger, metadata)
    ensures logger.level == LevelFilter.Trace ==> Enabled(logger, metadata)
    ensures metadata.level == Level.Error ==> (Enabled(logger, metadata) <==> logger.level != LevelFilter.Off)
  {
    Passes(metadata.level, logger.level)
  }

  /** A record is printed exactly when it is enabled and its target starts with "volta". */
  predicate Shown(logger: Logger, record: Record) {
    Enabled(logger, record.metadata) && ALLOWED_PREFIX <= record.metadata.target
  }

  /** The error label: "error:" in the `volta` executable, "Volta error:" in a shim. */
  function ErrorPrefix(context: LogContext): (p: string)
    ensures p == ERROR_PREFIX <==> context == Volta
    ensures p == SHIM_ERROR_PREFIX <==> context == Shim
  {
    match context
    case Volta => ERROR_PREFIX
    case Shim => SHIM_ERROR_PREFIX
  }

  /** The warning label: "warning:" in the `volta` executable, "Volta warning:" in a shim. */
  function WarningPrefix(context: LogContext): (p: string)
    ensures p == WARNING_PREFIX <==> context == Volta
    ensures p == SHIM_WARNING_PREFIX <==> context == Shim
    ensures p != ErrorPrefix(context)
  {
    match context
    case Volta => WARNING_PREFIX
    case Shim => SHIM_WARNING_PREFIX
  }

  /**
    The textwrap configuration `wrap_content` uses: the terminal width, no hyphenation,
    continuation lines indented by four spaces, and long words kept whole.
   */
  function WarningWrap(width: nat): (o: WrapOptions)
    ensures o.width == width && !o.hyphenation && !o.breakWords
    ensures o.subsequentIndent == "    "
  {
    WrapOptions(width, false, WRAP_INDENT, false)
  }

  /**
    `wrap_content`: without a terminal width, one space and the content; with one, the text
    `prefix content` filled to the width, after which every occurrence of the prefix is deleted
    so that the caller can print it styled.
   */
  function WrapContent(prefix: string, content: string, width: Option<nat>,
                       fill: (WrapOptions, string) -> string): (r: string)
    ensures width.None? ==> r == " " + content
    ensures width.Some? ==> |r| <= |fill(WarningWrap(width.value), prefix + " " + content)|
    ensures width.Some? && prefix != [] && Occurs(prefix, fill(WarningWrap(width.value), prefix + " " + content))
            ==> |r| + |prefix| <= |fill(WarningWrap(width.value), prefix + " " + content)|
  {
    match width
    case Some(w) => DeleteAll(fill(WarningWrap(w), prefix + " " + content), prefix)
    case None => " " + content
  }

  /**
    The prefix removal `wrap_content` means to do: drop the prefix it put at the front of the
    filled text, and nothing else.
   */
  function WrapContentLeading(prefix: string, content: string, width: Option<nat>,
                              fill: (WrapOptions, string) -> string): (r: string)
    ensures width.None? ==> r == " " + content
    ensures width.Some? ==> var t := fill(WarningWrap(width.value), prefix + " " + content);
                            if prefix <= t then prefix + r == t else r == t
  {
    match width
    case Some(w) =>
      var filled := fill(WarningWrap(w), prefix + " " + content);
      if prefix <= filled then filled[|prefix|..] else filled
    case None => " " + content
  }

  /** `log_error`: the red bold prefix of the context, a space and the message, on stderr. */
  function LogError(logger: Logger, message: string): (o: Output)
    ensures o.stream == Stderr
    ensures Visible(o.line) == ErrorPrefix(logger.context) + " " + message
  {
    var line := [Styled(RedBold, ErrorPrefix(logger.context)), Plain(" " + message)];
    assert Visible(line[1..][1..]) == [];
    Output(Stderr, line)
  }

  /** `log_warning`: the yellow bold prefix of the context followed by the wrapped content, on stdout. */
  function LogWarning(logger: Logger, message: string, width: Option<nat>,
                      fill: (WrapOptions, string) -> string): (o: Output)
    ensures o.stream == Stdout
    ensures width.None? ==> Visible(o.line) == WarningPrefix(logger.context) + " " + message
  {
    var prefix := WarningPrefix(logger.context);
    var line := [Styled(YellowBold, prefix), Plain(WrapContent(prefix, message, width, fill))];
    assert Visible(line[1..][1..]) == [];
    Output(Stdout, line)
  }

  /**
    `Log::log`: the line printed for a record, or `None` when the record is not enabled or comes
    from a target outside Volta.
   */
  function Log(logger: Logger, record: Record, width: Option<nat>,
               fill: (WrapOptions, string) -> string): (r: Option<Output>)
    ensures r.Some? <==> Enabled(logger, record.metadata) && ALLOWED_PREFIX <= record.metadata.target
    ensures r.Some? && record.metadata.level == Level.Error ==> r.value.stream == Stderr
    ensures r.Some? && record.metadata.level != Level.Error ==> r.value.stream == Stdout
  {
    if Shown(logger, record) then
      match record.metadata.level
      case Error => Some(LogError(logger, record.args))
      case Warn => Some(LogWarning(logger, record.args, width, fill))
      case Debug => Some(Output(Stdout, [Plain("[verbose] " + record.args)]))
      case _ => Some(Output(Stdout, [Plain(record.args)]))
    else
      None
  }

  // ---------------------------------------------------------------------------------------------
  // Installation
  // ---------------------------------------------------------------------------------------------

  /**
    `Logger::init`: builds the logger, sets the crate's maximum level to the logger's filter and
    then tries to install the logger. The maximum level is set before the installation is tried,
    so it is replaced even when the installation fails.
   */
  function Init(facade: Facade<Logger>, context: LogContext, verbosity: LogVerbosity, env: Environment)
    : (r: (Outcome<SetLoggerError>, Facade<Logger>))
    ensures r.1.maxLevel == New(context, verbosity, env).level
    ensures r.0.Pass? <==> facade.logger.None?
    ensures r.1.logger == if facade.logger.None? then Some(New(context, verbosity, env)) else facade.logger
  {
    var logger := New(context, verbosity, env);
    var withLevel := SetMaxLevel(facade, logger.level);
    SetBoxedLogger(withLevel, logger)
  }
}
