/**
  The part of the `log` crate that Volta's logger plugs into: the two severity types, the
  comparison of a level with a filter, and the process-wide state that `set_max_level` and
  `set_boxed_logger` change.

  `Level` carries the discriminants Error = 1 … Trace = 5 and `LevelFilter` the discriminants
  Off = 0 … Trace = 5; a level is compared with a filter by those numbers.
 */
module LogCrate {
  import opened Wrappers

  datatype Level = Error | Warn | Info | Debug | Trace {
    function Value(): (n: nat)
      ensures 1 <= n <= 5
    {
      match this
      case Error => 1
      case Warn => 2
      case Info => 3
      case Debug => 4
      case Trace => 5
    }
  }

  datatype LevelFilter = Off | Error | Warn | Info | Debug | Trace {
    function Value(): (n: nat)
      ensures n <= 5
    {
      match this
      case Off => 0
      case Error => 1
      case Warn => 2
      case Info => 3
      case Debug => 4
      case Trace => 5
    }
  }

  /** `level <= filter`: a record of this level passes the filter. */
  predicate Passes(level: Level, filter: LevelFilter) {
    level.Value() <= filter.Value()
  }

  /** The error `set_boxed_logger` returns once a logger is installed. */
  datatype SetLoggerError = SetLoggerError

  /** The crate's global state: the maximum level and the installed logger, if any. */
  datatype Facade<L> = Facade(maxLevel: LevelFilter, logger: Option<L>)

  /** The state of a process in which nobody has installed a logger yet. */
  function Uninitialized<L>(): Facade<L> {
    Facade(LevelFilter.Off, None)
  }

  /** `log::set_max_level`: replaces the maximum level, whatever was installed before. */
  function SetMaxLevel<L>(facade: Facade<L>, level: LevelFilter): (r: Facade<L>)
    ensures r.maxLevel == level && r.logger == facade.logger
  {
    facade.(maxLevel := level)
  }

  /** `log::set_boxed_logger`: installs the logger once; every later call fails and changes nothing. */
  function SetBoxedLogger<L>(facade: Facade<L>, logger: L): (r: (Outcome<SetLoggerError>, Facade<L>))
    ensures r.0.Pass? <==> facade.logger.None?
    ensures r.1.maxLevel == facade.maxLevel
    ensures r.1.logger == if facade.logger.None? then Some(logger) else facade.logger
  {
    if facade.logger.None? then (Pass, facade.(logger := Some(logger)))
    else (Fail(SetLoggerError), facade)
  }
}
