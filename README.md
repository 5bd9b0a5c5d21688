# Volta's logger, modelled in Dafny

Volta plugs a logger of its own into the Rust `log` crate (`crates/volta-core/src/log.rs`).
The logger does two jobs:

- **Verbosity resolution.** It turns the verbosity the user asked for (`Quiet`, `Default`,
  `Verbose`) into a `LevelFilter`. Under `Default` the filter comes from the `VOLTA_LOGLEVEL`
  environment variable. When that variable does not name a level, the filter depends on whether
  stdout is a terminal.
- **Record dispatch and rendering.** It decides whether a record is shown. The record's level
  must pass the filter, and its target must start with `"volta"`. It then picks the stream and
  the text. Errors go to stderr with a red bold prefix. Warnings go to stdout with a yellow bold
  prefix and a body wrapped to the terminal width. Debug records get a `[verbose] ` prefix.
  Info and trace records are printed bare. The prefixes depend on whether the logger runs in
  the `volta` executable or in a shim.

The model is written as datatypes, functions and lemmas, because the source only matches on
enums and strings. Nothing in it is mutated after construction.

Files:

- `wrappers.dfy`: `Option` and `Outcome`, standing for Rust's `Option` and `Result<(), E>`.
- `text.dfy`: occurrence of a pattern in a string. `DeleteAll` is Rust's `str::replace(p, "")`:
  a left-to-right scan that deletes every non-overlapping occurrence of the pattern.
- `log_crate.dfy`: the `log` crate's `Level` (Error = 1 … Trace = 5) and `LevelFilter`
  (Off = 0 … Trace = 5), compared by those numbers. It also holds the crate's global state as a
  value (`Facade`: the maximum level and the installed logger), with `set_max_level` and
  `set_boxed_logger`.
- `log.dfy`: the logger itself (module `VoltaLog`).
- `log_properties.dfy`: the properties of the logger (module `VoltaLogProperties`).

Inputs from the process and its libraries are parameters:

- `Environment.logLevel` is the value of `VOLTA_LOGLEVEL`. It is `None` when `env::var` fails,
  which happens when the variable is unset or not valid Unicode.
- `Environment.stdoutIsTty` is the result of `atty::is(Stream::Stdout)`.
- `width: Option<nat>` is the result of `crate::style::text_width()`.
- `fill: (WrapOptions, string) -> string` is textwrap's `Wrapper::fill`. The `WrapOptions`
  value records how the wrapper was configured: the width, no hyphenation, a continuation
  indent of four spaces and `break_words(false)`. Nothing is assumed about what `fill` returns.
- Styling is the `Styled(style, text)` piece of a line. It is an opaque tag: nothing is assumed
  about the escape codes the `console` crate would emit.

`Log` does not print. It returns `Some(Output(stream, line))` for the line that `println!` or
`eprintln!` would write, without the final newline. It returns `None` when nothing is printed.

`wrap_content` puts the prefix in front of the message to fill it, then removes the prefix so
that the caller can print it styled (`log.rs:112-113`). But `.replace` (`log.rs:123`) deletes
every occurrence of the prefix, not only the one it put in front. The model follows the code,
and `WrapDeletesPrefixInsideMessage` shows the consequence: when a terminal width is known, a
message that itself contains the context's warning prefix (`warning:` from `volta`,
`Volta warning:` from a shim) loses that text, even if the line fits the terminal.
`WrapContentLeading` is the removal the comment describes; see "## Findings". `Log` keeps the
code's behaviour, because it models what the program prints.

A second `init` fails at `set_boxed_logger` (`log.rs:66`), so the first logger stays installed.
By then `set_max_level` (`log.rs:65`) has already run, so the maximum level is the second
logger's filter. `SecondInitKeepsFirstLogger` states both facts.

## Model

| member | source | states |
|---|---|---|
| `VoltaLog.ParseLevel` | crates/volta-core/src/log.rs:134-140 | a value selects a filter exactly when it is that filter's name, with the same case; otherwise no filter is selected |
| `VoltaLog.LevelFromEnv` | crates/volta-core/src/log.rs:128-149 | if `VOLTA_LOGLEVEL` names a filter, that filter is the result; if it names none or is absent, the result is Info on a terminal and Error otherwise |
| `VoltaLog.New` | crates/volta-core/src/log.rs:70-78 | the logger keeps the context; Quiet gives Error, Verbose gives Debug, and Default gives the level from the environment |
| `VoltaLog.Enabled` | crates/volta-core/src/log.rs:41-43 | a record is enabled exactly when its level's number is at most the filter's; Off enables nothing, Trace everything, and an error is enabled under every filter but Off |
| `VoltaLog.ErrorPrefix` | crates/volta-core/src/log.rs:84-87 | the label is "error:" exactly in the `volta` context and "Volta error:" exactly in a shim |
| `VoltaLog.WarningPrefix` | crates/volta-core/src/log.rs:96-99 | the label is "warning:" exactly in the `volta` context and "Volta warning:" exactly in a shim, and it differs from the error label |
| `VoltaLog.WarningWrap` | crates/volta-core/src/log.rs:119-121 | the wrapper gets the terminal width, no hyphenation, a four-space continuation indent and no word breaking |
| `VoltaLog.WrapContent` | crates/volta-core/src/log.rs:109-126 | without a width the body is one space and the content; with one, the body is never longer than the filled text, and at least one prefix shorter when the prefix occurs in it |
| `VoltaLog.WrapContentLeading` | crates/volta-core/src/log.rs:112-113 | the intended removal: without a width one space and the content; with one, the filled text minus its leading prefix, if it has one, and otherwise the filled text |
| `VoltaLog.LogError` | crates/volta-core/src/log.rs:80-90 | an error is written to stderr, and its visible text is the context's error prefix, a space and the message |
| `VoltaLog.LogWarning` | crates/volta-core/src/log.rs:92-106 | a warning is written to stdout; without a terminal width its visible text is the context's warning prefix, a space and the message |
| `VoltaLog.Log` | crates/volta-core/src/log.rs:45-54 | a line is printed if and only if the record is enabled and its target starts with "volta"; errors go to stderr and every other level to stdout |
| `VoltaLog.Init` | crates/volta-core/src/log.rs:63-68 | the maximum level becomes the new logger's filter in every case; installation succeeds exactly when no logger was installed, and otherwise the installed logger is kept |
| `LogCrate.SetMaxLevel` | crates/volta-core/src/log.rs:65 | the maximum level is replaced and the installed logger is left alone |
| `LogCrate.SetBoxedLogger` | crates/volta-core/src/log.rs:66 | the logger is installed and the call succeeds exactly when none was installed; otherwise the call fails and nothing changes |
| `Text.DeleteAll` | crates/volta-core/src/log.rs:123 | deletion never lengthens the text; the text is unchanged exactly when the pattern is empty or does not occur, and otherwise it shrinks by at least the pattern's length |
| `Text.DeleteAllLeading` | crates/volta-core/src/log.rs:122-123 | the prefix that `wrap_content` puts at the front of the text is removed, and the scan goes on with the rest |
| `Text.DeleteAllOnlyLeading` | crates/volta-core/src/log.rs:122-123 | when the prefix occurs only at the front of the filled text, deleting every occurrence drops just that one |
| `VoltaLogProperties.ExplicitVerbosityIgnoresEnvironment` | crates/volta-core/src/log.rs:71-75 | under Quiet or Verbose the logger is the same whatever the environment and the terminal |
| `VoltaLogProperties.NamedLevelIgnoresTerminal` | crates/volta-core/src/log.rs:134-140 | under Default, every filter is selected by its own name, whether or not stdout is a terminal |
| `VoltaLogProperties.OffOnlyWhenRequested` | crates/volta-core/src/log.rs:71-75 | the filter is Off if and only if the verbosity is Default and `VOLTA_LOGLEVEL` is "off" |
| `VoltaLogProperties.TraceOnlyWhenRequested` | crates/volta-core/src/log.rs:71-75 | the filter is Trace if and only if the verbosity is Default and `VOLTA_LOGLEVEL` is "trace" |
| `VoltaLogProperties.ErrorsShownUnlessOff` | crates/volta-core/src/log.rs:41-43 | an error record is enabled if and only if logging was not switched off by `VOLTA_LOGLEVEL=off` |
| `VoltaLogProperties.QuietShowsOnlyErrors` | crates/volta-core/src/log.rs:72 | under Quiet a record is enabled if and only if it is an error |
| `VoltaLogProperties.VerboseHidesOnlyTrace` | crates/volta-core/src/log.rs:74 | under Verbose a record is enabled if and only if it is not a trace record |
| `VoltaLogProperties.DefaultFollowsTerminal` | crates/volta-core/src/log.rs:141-147 | with no usable `VOLTA_LOGLEVEL`, errors are always enabled, warnings and info only on a terminal, and debug and trace never |
| `VoltaLogProperties.EnabledIsMonotone` | crates/volta-core/src/log.rs:41-43 | if a level is enabled, every more severe level is enabled too |
| `VoltaLogProperties.FilterExtremes` | crates/volta-core/src/log.rs:41-43 | with the filter Off nothing is enabled, and with Trace everything is |
| `VoltaLogProperties.ForeignTargetIsSilent` | crates/volta-core/src/log.rs:46 | a record whose target does not start with "volta" prints nothing, at any level, filter, width and wrapper |
| `VoltaLogProperties.ErrorRecordLine` | crates/volta-core/src/log.rs:48 | a shown error prints on stderr exactly the red bold "error:" (or "Volta error:" in a shim), then a space and the message, for every width and wrapper |
| `VoltaLogProperties.DebugRecordLine` | crates/volta-core/src/log.rs:50 | a shown debug record prints on stdout exactly "[verbose] " and the message, unstyled |
| `VoltaLogProperties.InfoAndTraceRecordLine` | crates/volta-core/src/log.rs:51 | a shown info or trace record prints on stdout exactly the message, unstyled |
| `VoltaLogProperties.UnwrappedWarningLine` | crates/volta-core/src/log.rs:92-106 | without a width, a shown warning prints on stdout the yellow bold "warning:" (or "Volta warning:") then a space and the message; no line break is added |
| `VoltaLogProperties.WrappedWarningLine` | crates/volta-core/src/log.rs:114-125 | with a width, the body is the prefix, a space and the message filled to that width (no hyphenation, four-space indent, words kept whole), with every prefix occurrence deleted |
| `VoltaLogProperties.WrapAgreesWhenTextFits` | crates/volta-core/src/log.rs:114-125 | when filling leaves the text unchanged, the body with a width equals the body without one if and only if the prefix does not occur in " " + the message |
| `VoltaLogProperties.LeadingRemovalAgreesWhenTextFits` | crates/volta-core/src/log.rs:112-113 | when filling leaves the text unchanged, removing only the leading prefix gives " " + the message, for every message |
| `VoltaLogProperties.LeadingRemovalAgreesWithoutRepeats` | crates/volta-core/src/log.rs:112-123 | when the filled text starts with the prefix and does not contain it again, the code's removal and the intended one give the same body |
| `VoltaLogProperties.SeeWarningAbove` | crates/volta-core/src/log.rs:123 | in the `volta` context with a width and a line that fits, the message "see warning: above" gets the body " see  above" |
| `VoltaLogProperties.SeeWarningAboveLeading` | crates/volta-core/src/log.rs:112-113 | under the intended removal the same message keeps its body " see warning: above" |
| `VoltaLogProperties.WrapDeletesPrefixInsideMessage` | crates/volta-core/src/log.rs:114-125 | for a message `before + prefix + after` whose filled text is the text itself, the body with a width is " " + `before + after`, so the inner prefix is lost; without a width the body keeps it |
| `VoltaLogProperties.FirstInitInstalls` | crates/volta-core/src/log.rs:63-68 | the first `init` succeeds, installs the new logger and sets the maximum level to its filter |
| `VoltaLogProperties.SecondInitKeepsFirstLogger` | crates/volta-core/src/log.rs:63-68 | a second `init` fails and the first logger stays installed, but the maximum level is now the second logger's filter |

## Findings

| source | as written | input that shows it | evidently intended | confidence | as-written member | corrected member |
|---|---|---|---|---|---|---|
| crates/volta-core/src/log.rs:123 | `.replace(prefix, "")` deletes every occurrence of the prefix in the filled text | `volta` context, a known width, the message "see warning: above" on a line that fits: the body is " see  above" | remove only the prefix that `wrap_content` put in front (`log.rs:112-113`), giving " see warning: above" | high; not executed | `VoltaLogProperties.SeeWarningAbove` | `VoltaLog.WrapContentLeading` |

`WrapDeletesPrefixInsideMessage` and `WrapAgreesWhenTextFits` state the as-written behaviour for
every message. `LeadingRemovalAgreesWhenTextFits` proves the intended property of the corrected
removal: a line that fits gets back " " + the message, whatever the message holds.

## Left out

- Printing: `println!`, `eprintln!` and their final newline are not modelled. `Log` returns the line instead.
- Reading the environment and the terminal: `env::var`, `atty::is` and `crate::style::text_width` are parameters. `crate::style` is not part of this model.
- The textwrap algorithm: `fill` is an arbitrary function. Properties that depend on its output, such as `WrapAgreesWhenTextFits`, state what they assume about it.
- ANSI styling from the `console` crate: a styled piece is an opaque tag.
- The `log` crate outside this file: its macros, their own maximum-level check, and `STATIC_MAX_LEVEL` are left out. So is the race between two threads calling `set_boxed_logger` at once. The behaviour of `set_max_level` and `set_boxed_logger` is modelled from the crate's documented contract.
- `flush` is a no-op, and the test module is empty.
- Messages are the strings their `Display` implementations produce. Formatting itself is not modelled.
