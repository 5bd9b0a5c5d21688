/**
  What Volta's logger promises, stated over the model in VoltaLog: how verbosity is resolved,
  which records are shown, and the exact line each shown record produces.
 */
module VoltaLogProperties {
  import opened Wrappers
  import opened Text
  import opened LogCrate
  import opened VoltaLog

  // ---------------------------------------------------------------------------------------------
  // Verbosity resolution
  // ---------------------------------------------------------------------------------------------

  /** `Quiet` and `Verbose` decide the filter alone: the environment and the terminal do not matter. */
  lemma ExplicitVerbosityIgnoresEnvironment(context: LogContext, verbosity: LogVerbosity,
                                            env1: Environment, env2: Environment)
    requires verbosity != Default
    ensures New(context, verbosity, env1) == New(context, verbosity, env2)
  {
  }

  /** Under `Default`, naming a filter in `VOLTA_LOGLEVEL` selects it, terminal or not. */
  lemma NamedLevelIgnoresTerminal(context: LogContext, f: LevelFilter, tty: bool)
    ensures New(context, Default, Environment(Some(LevelName(f)), tty)).level == f
  {
  }

  /** Nothing at all is shown only when the user asked for it with `VOLTA_LOGLEVEL=off`. */
  lemma OffOnlyWhenRequested(context: LogContext, verbosity: LogVerbosity, env: Environment)
    ensures New(context, verbosity, env).level == LevelFilter.Off
            <==> verbosity == Default && env.logLevel == Some("off")
  {
  }

  /** Trace records are reachable only through `VOLTA_LOGLEVEL=trace`; `Verbose` stops at Debug. */
  lemma TraceOnlyWhenRequested(context: LogContext, verbosity: LogVerbosity, env: Environment)
    ensures New(context, verbosity, env).level == LevelFilter.Trace
            <==> verbosity == Default && env.logLevel == Some("trace")
  {
  }

  /** Errors are shown at every verbosity, unless the environment switches logging off. */
  lemma ErrorsShownUnlessOff(context: LogContext, verbosity: LogVerbosity, env: Environment, target: string)
    ensures Enabled(New(context, verbosity, env), Metadata(Level.Error, target))
            <==> !(verbosity == Default && env.logLevel == Some("off"))
  {
  }

  /** `Quiet` shows errors and nothing else. */
  lemma QuietShowsOnlyErrors(context: LogContext, env: Environment, m: Metadata)
    ensures Enabled(New(context, Quiet, env), m) <==> m.level == Level.Error
  {
  }

  /** `Verbose` shows everything except Trace records. */
  lemma VerboseHidesOnlyTrace(context: LogContext, env: Environment, m: Metadata)
    ensures Enabled(New(context, Verbose, env), m) <==> m.level != Level.Trace
  {
  }

  /**
    With no usable `VOLTA_LOGLEVEL`, output redirected away from a terminal shows errors only,
    and a terminal shows errors, warnings and information.
   */
  lemma DefaultFollowsTerminal(context: LogContext, env: Environment, m: Metadata)
    requires env.logLevel.None? || ParseLevel(env.logLevel.value).None?
    ensures Enabled(New(context, Default, env), m)
            <==> m.level == Level.Error || (env.stdoutIsTty && m.level in {Level.Warn, Level.Info})
  {
  }

  // ---------------------------------------------------------------------------------------------
  // Which records are shown
  // ---------------------------------------------------------------------------------------------

  /** If a level is enabled then so is every more severe level. */
  lemma EnabledIsMonotone(logger: Logger, less: Metadata, more: Metadata)
    requires more.level.Value() <= less.level.Value()
    ensures Enabled(logger, less) ==> Enabled(logger, more)
  {
  }

  /** With the filter Off no record is enabled; with Trace every record is. */
  lemma FilterExtremes(context: LogContext, m: Metadata)
    ensures !Enabled(Logger(context, LevelFilter.Off), m)
    ensures Enabled(Logger(context, LevelFilter.Trace), m)
  {
  }

  /** Records from targets outside Volta print nothing, whatever their level and the filter. */
  lemma ForeignTargetIsSilent(logger: Logger, record: Record, width: Option<nat>,
                              fill: (WrapOptions, string) -> string)
    requires !(ALLOWED_PREFIX <= record.metadata.target)
    ensures Log(logger, record, width, fill) == None
  {
  }

  // ---------------------------------------------------------------------------------------------
  // What a shown record prints
  // ---------------------------------------------------------------------------------------------

  /**
    An error goes to stderr as the red bold prefix of the context ("error:", or "Volta error:"
    from a shim), a space and the message; it is never wrapped, whatever the terminal width.
   */
  lemma ErrorRecordLine(logger: Logger, record: Record, width: Option<nat>,
                        fill: (WrapOptions, string) -> string)
    requires Shown(logger, record) && record.metadata.level == Level.Error
    ensures Log(logger, record, width, fill)
            == Some(Output(Stderr, [Styled(RedBold, ErrorPrefix(logger.context)), Plain(" " + record.args)]))
    ensures ErrorPrefix(logger.context) == if logger.context == Volta then "error:" else "Volta error:"
  {
  }

  /** A debug record goes to stdout as "[verbose] " and the message, with no styling. */
  lemma DebugRecordLine(logger: Logger, record: Record, width: Option<nat>,
                        fill: (WrapOptions, string) -> string)
    requires Shown(logger, record) && record.metadata.level == Level.Debug
    ensures Log(logger, record, width, fill) == Some(Output(Stdout, [Plain("[verbose] " + record.args)]))
  {
  }

  /** Info and trace records go to stdout as the bare message. */
  lemma InfoAndTraceRecordLine(logger: Logger, record: Record, width: Option<nat>,
                               fill: (WrapOptions, string) -> string)
    requires Shown(logger, record) && record.metadata.level in {Level.Info, Level.Trace}
    ensures Log(logger, record, width, fill) == Some(Output(Stdout, [Plain(record.args)]))
  {
  }

  /**
    Without a terminal width a warning goes to stdout as the yellow bold prefix of the context
    ("warning:", or "Volta warning:" from a shim), a space and the message, and no line break is
    added.
   */
  lemma UnwrappedWarningLine(logger: Logger, record: Record, fill: (WrapOptions, string) -> string)
    requires Shown(logger, record) && record.metadata.level == Level.Warn
    ensures Log(logger, record, None, fill)
            == Some(Output(Stdout, [Styled(YellowBold, WarningPrefix(logger.context)), Plain(" " + record.args)]))
    ensures WarningPrefix(logger.context) == if logger.context == Volta then "warning:" else "Volta warning:"
    ensures '\n' !in record.args ==> '\n' !in Visible(Log(logger, record, None, fill).value.line)
  {
  }

  /**
    With a terminal width a warning goes to stdout as the yellow bold prefix followed by the
    prefix and message filled to that width (no hyphenation, four-space continuation indent,
    long words kept whole), with every occurrence of the prefix deleted from the filled text.
   */
  lemma WrappedWarningLine(logger: Logger, record: Record, w: nat, fill: (WrapOptions, string) -> string)
    requires Shown(logger, record) && record.metadata.level == Level.Warn
    ensures var p := WarningPrefix(logger.context);
            Log(logger, record, Some(w), fill)
            == Some(Output(Stdout, [Styled(YellowBold, p),
                                    Plain(DeleteAll(fill(WrapOptions(w, false, "    ", false), p + " " + record.args), p))]))
  {
  }

  /**
    When the filled text is the text itself (it fits on one line), the body with a width is the
    unwrapped body exactly when the prefix does not occur again after the leading one.
   */
  lemma WrapAgreesWhenTextFits(prefix: string, content: string, w: nat,
                                fill: (WrapOptions, string) -> string)
    requires prefix != []
    requires fill(WarningWrap(w), prefix + " " + content) == prefix + " " + content
    ensures WrapContent(prefix, content, Some(w), fill) == WrapContent(prefix, content, None, fill)
            <==> !Occurs(prefix, " " + content)
  {
    assert prefix + " " + content == prefix + (" " + content);
    DeleteAllLeading(prefix, " " + content);
  }

  /**
    Removing only the leading prefix gives the unwrapped body back whenever the filled text is
    the text itself, whatever the message contains.
   */
  lemma LeadingRemovalAgreesWhenTextFits(prefix: string, content: string, w: nat,
                                         fill: (WrapOptions, string) -> string)
    requires fill(WarningWrap(w), prefix + " " + content) == prefix + " " + content
    ensures WrapContentLeading(prefix, content, Some(w), fill) == WrapContentLeading(prefix, content, None, fill)
  {
    assert prefix + " " + content == prefix + (" " + content);
  }

  /**
    The two removals agree when the filled text starts with the prefix and the prefix does not
    occur in the rest of it.
   */
  lemma LeadingRemovalAgreesWithoutRepeats(prefix: string, content: string, w: nat,
                                           fill: (WrapOptions, string) -> string)
    requires prefix != []
    requires prefix <= fill(WarningWrap(w), prefix + " " + content)
    requires !Occurs(prefix, fill(WarningWrap(w), prefix + " " + content)[|prefix|..])
    ensures WrapContent(prefix, content, Some(w), fill) == WrapContentLeading(prefix, content, Some(w), fill)
  {
    DeleteAllOnlyLeading(prefix, fill(WarningWrap(w), prefix + " " + content));
  }

  /**
    The prefix is deleted everywhere, not only at the front. A message that contains the prefix
    loses it when a width is known, even if the filled text is the text itself; without a width
    the message is kept as it is.
   */
  lemma WrapDeletesPrefixInsideMessage(prefix: string, before: string, after: string, w: nat,
                                       fill: (WrapOptions, string) -> string)
    requires prefix != []
    requires fill(WarningWrap(w), prefix + " " + (before + prefix + after))
             == prefix + " " + (before + prefix + after)
    requires forall i :: 0 <= i < |" " + before| ==> !(prefix <= (" " + before)[i..] + (prefix + after))
    requires !Occurs(prefix, after)
    ensures WrapContent(prefix, before + prefix + after, Some(w), fill) == " " + before + after
    ensures WrapContent(prefix, before + prefix + after, None, fill) == " " + before + prefix + after
  {
    FilledTextShape(prefix, before, after);
    DeleteEnclosed(prefix, " " + before, after);
  }

  /**
    The message "see warning: above" printed as a warning from `volta` on a terminal wide enough
    for it: the code prints the body " see  above".
   */
  lemma SeeWarningAbove(w: nat, prefix: string, message: string)
    requires prefix == WARNING_PREFIX && message == "see warning: above"
    ensures WrapContent(prefix, message, Some(w), (o: WrapOptions, s: string) => s) == " see  above"
  {
    SeeWarningAboveShape(prefix, message, "see ", " above");
    WrapDeletesPrefixInsideMessage(prefix, "see ", " above", w, (o: WrapOptions, s: string) => s);
  }

  /** Removing only the leading prefix prints the same message as " see warning: above". */
  lemma SeeWarningAboveLeading(w: nat, prefix: string, message: string)
    requires prefix == WARNING_PREFIX && message == "see warning: above"
    ensures WrapContentLeading(prefix, message, Some(w), (o: WrapOptions, s: string) => s) == " see warning: above"
  {
    LeadingRemovalAgreesWhenTextFits(prefix, message, w, (o: WrapOptions, s: string) => s);
  }

  /** The concrete pieces of "see warning: above" meet the conditions of the deletion lemma. */
  lemma SeeWarningAboveShape(p: string, message: string, before: string, after: string)
    requires p == WARNING_PREFIX && message == "see warning: above" && before == "see " && after == " above"
    ensures message == before + p + after
    ensures " " + before + after == " see  above"
    ensures forall i :: 0 <= i < |" " + before| ==> !(p <= (" " + before)[i..] + (p + after))
    ensures !Occurs(p, after)
  {
    forall i | 0 <= i < |" " + before| ensures !(p <= (" " + before)[i..] + (p + after)) {
      assert ((" " + before)[i..] + (p + after))[0] == (" " + before)[i] != p[0];
    }
    if Occurs(p, after) {
      OccurrenceFits(p, after);
    }
  }

  /** The text `wrap_content` fills, regrouped around the two occurrences of the prefix. */
  lemma FilledTextShape(prefix: string, before: string, after: string)
    ensures prefix + " " + (before + prefix + after) == prefix + (" " + before) + prefix + after
    ensures " " + (before + prefix + after) == " " + before + prefix + after
    ensures (" " + before) + after == " " + before + after
  {
  }

  // ---------------------------------------------------------------------------------------------
  // Installation
  // ---------------------------------------------------------------------------------------------

  /** The first `init` installs the logger and sets the maximum level to the logger's filter. */
  lemma FirstInitInstalls(context: LogContext, verbosity: LogVerbosity, env: Environment)
    ensures var (outcome, facade) := Init(Uninitialized(), context, verbosity, env);
            outcome == Pass && facade.logger == Some(New(context, verbosity, env))
            && facade.maxLevel == facade.logger.value.level
  {
  }

  /**
    A second `init` fails and the first logger stays installed, but the maximum level has already
    been replaced by the second logger's filter.
   */
  lemma SecondInitKeepsFirstLogger(c1: LogContext, v1: LogVerbosity, e1: Environment,
                                   c2: LogContext, v2: LogVerbosity, e2: Environment)
    ensures var (_, first) := Init(Uninitialized(), c1, v1, e1);
            var (outcome, second) := Init(first, c2, v2, e2);
            outcome.Fail? && second.logger == Some(New(c1, v1, e1))
            && second.maxLevel == New(c2, v2, e2).level
  {
  }
}
