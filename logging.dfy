/**
 * The process-wide logging configuration of src/logger.rs: one lock-guarded record
 * holding the minimum level and the logger factory, the three operations that read or
 * overwrite it, and the formatter that filters every event against the level stored
 * in the record at the moment the event is formatted.
 */
module Logging {
  import opened Levels

  datatype Option<T> = None | Some(value: T) {
    function GetOr(default: T): T {
      if Some? then value else default
    }
  }

  /** The error PupWorkerError::wrap makes of a failed lock acquisition. */
  datatype PupWorkerError = LockPoisoned

  datatype Result<T> = Ok(value: T) | Err(error: PupWorkerError)

  /**
   * A logger factory (`fn() -> Logger`), known only by which function it is:
   * `default_logger` or some other function handed to `set_logger`.
   */
  datatype Factory = DefaultLogger | Custom(id: nat)

  /** A logger instance, known only by the factory that built it. */
  datatype Logger = Logger(builtBy: Factory)

  /** What calling a factory returns. */
  function Build(f: Factory): Logger {
    Logger(f)
  }

  /** The timestamp handed to the formatter (time::Tm); the formatter ignores it. */
  datatype Tm = Tm(seconds: int)

  /** The structured properties handed to the formatter; the formatter ignores them. */
  type Properties = Option<map<string, string>>

  /**
   * The filtering rule of `PupFormatter::log_format`: an event at `level` is shown
   * when `level <= threshold`, as its message verbatim, or as the empty string when
   * it has no message; any other event is suppressed as the empty string.
   */
  function FilterMessage(o: Order, level: Level, message: Option<string>, threshold: Level): (text: string)
    ensures text != "" ==> Le(o, level, threshold) && message == Some(text)
    ensures Le(o, level, threshold) && message.Some? ==> text == message.value
  {
    if Le(o, level, threshold) then message.GetOr("") else ""
  }

  /** An event at the threshold itself is always shown. */
  lemma ThresholdLevelPasses(o: Order, level: Level, m: string)
    ensures FilterMessage(o, level, Some(m), level) == m
  {
  }

  /**
   * Moving the threshold up the order never hides an event that was shown: whatever
   * passes at `low` passes, with the same text, at every `high` with `low <= high`.
   */
  lemma FilterMonotone(o: Order, level: Level, message: Option<string>, low: Level, high: Level)
    requires Le(o, low, high)
    ensures Le(o, level, low) ==> FilterMessage(o, level, message, high) == FilterMessage(o, level, message, low)
    ensures FilterMessage(o, level, message, low) != "" ==> FilterMessage(o, level, message, high) != ""
  {
  }

  /** The contents of the configuration record together with the state of its lock. */
  datatype ConfigState = ConfigState(level: Level, factory: Factory, poisoned: bool)

  /** The record as the program starts: level Info, factory `default_logger`, lock healthy. */
  const Initial := ConfigState(Info, DefaultLogger, false)

  /** The calls that take the configuration lock, and a panic by a thread holding it. */
  datatype StoreCall = Get | SetLevel(level: Level) | SetFactory(factory: Factory) | PanicWhileLocked

  /** What a call gives back to its caller. */
  datatype Reply = Built(logger: Result<Logger>) | Done(done: Result<()>) | Text(text: string) | Panicked {
    /** The call failed: an `Err` result or a panic. */
    predicate Failed() {
      match this
      case Built(r) => r.Err?
      case Done(r) => r.Err?
      case Text(_) => false
      case Panicked => true
    }
  }

  /**
   * One call against the record. On a poisoned lock every call fails and nothing
   * changes; on a healthy lock a setter overwrites exactly the field it names and
   * `get_logger` changes nothing and returns what the stored factory builds. A panic
   * while the lock is held poisons it.
   */
  function Apply(s: ConfigState, call: StoreCall): (r: (ConfigState, Reply))
    ensures s.poisoned ==> r.0 == s && r.1.Failed()
    ensures !s.poisoned ==> (r.0.poisoned <==> call == PanicWhileLocked) && (r.1.Failed() <==> call == PanicWhileLocked)
    ensures r.0.level == (if call.SetLevel? && !s.poisoned then call.level else s.level)
    ensures r.0.factory == (if call.SetFactory? && !s.poisoned then call.factory else s.factory)
    ensures call == Get ==> r.1 == Built(if s.poisoned then Err(LockPoisoned) else Ok(Build(s.factory)))
    ensures (call.SetLevel? || call.SetFactory?) ==> r.1 == Done(if s.poisoned then Err(LockPoisoned) else Ok(()))
    ensures call == PanicWhileLocked ==> r.1 == Panicked
  {
    match call
    case Get =>
      if s.poisoned then (s, Built(Err(LockPoisoned))) else (s, Built(Ok(Build(s.factory))))
    case SetLevel(l) =>
      if s.poisoned then (s, Done(Err(LockPoisoned))) else (s.(level := l), Done(Ok(())))
    case SetFactory(f) =>
      if s.poisoned then (s, Done(Err(LockPoisoned))) else (s.(factory := f), Done(Ok(())))
    case PanicWhileLocked =>
      (s.(poisoned := true), Panicked)
  }

  /**
   * The global record `CONFIG`, a `Mutex<LogConfig>`: its two fields and whether the
   * mutex is poisoned.
   */
  class LogConfig {
    var level: Level
    var factory: Factory
    var poisoned: bool

    function State(): ConfigState
      reads this
    {
      ConfigState(level, factory, poisoned)
    }

    /** The record as `lazy_static!` creates it. */
    constructor ()
      ensures level == Info && factory == DefaultLogger && !poisoned
      ensures State() == Initial
    {
      level := Info;
      factory := DefaultLogger;
      poisoned := false;
    }

    /** `get_logger`: build a logger with the stored factory, under the lock. */
    method GetLogger() returns (r: Result<Logger>)
      ensures poisoned ==> r == Err(LockPoisoned)
      ensures !poisoned ==> r == Ok(Build(factory))
      ensures Apply(State(), Get) == (State(), Built(r))
    {
      if poisoned {
        r := Err(LockPoisoned);
      } else {
        r := Ok(Build(factory));
      }
    }

    /** `set_logger_level`: overwrite the stored level, under the lock. */
    method SetLoggerLevel(level: Level) returns (r: Result<()>)
      modifies this
      ensures r.Ok? <==> !old(poisoned)
      ensures r.Err? ==> r.error == LockPoisoned
      ensures this.level == (if old(poisoned) then old(this.level) else level)
      ensures factory == old(factory) && poisoned == old(poisoned)
      ensures (State(), Done(r)) == Apply(old(State()), SetLevel(level))
    {
      if poisoned {
        r := Err(LockPoisoned);
      } else {
        this.level := level;
        r := Ok(());
      }
    }

    /** `set_logger`: overwrite the stored factory, under the lock. */
    method SetLogger(factory: Factory) returns (r: Result<()>)
      modifies this
      ensures r.Ok? <==> !old(poisoned)
      ensures r.Err? ==> r.error == LockPoisoned
      ensures this.factory == (if old(poisoned) then old(this.factory) else factory)
      ensures level == old(level) && poisoned == old(poisoned)
      ensures (State(), Done(r)) == Apply(old(State()), SetFactory(factory))
    {
      if poisoned {
        r := Err(LockPoisoned);
      } else {
        this.factory := factory;
        r := Ok(());
      }
    }

    /**
     * A thread panics while it holds the lock (in this file, the only code run under
     * the lock that can panic is the factory called by `get_logger`). The mutex stays
     * poisoned from then on; the record's fields keep their values.
     */
    method HolderPanics()
      modifies this
      ensures poisoned
      ensures level == old(level) && factory == old(factory)
      ensures (State(), Panicked) == Apply(old(State()), PanicWhileLocked)
    {
      poisoned := true;
    }
  }

  /**
   * `PupFormatter`, the formatter `default_logger` wires into every logger it builds.
   * It keeps no level of its own: it holds the shared record and reads its level each
   * time it formats an event.
   */
  class PupFormatter {
    const config: LogConfig

    constructor (config: LogConfig)
      ensures this.config == config
    {
      this.config := config;
    }

    /**
     * `log_format`: the filtering rule applied to the level stored in the record at
     * the time of the call. The lock is taken with `unwrap`, so on a poisoned lock the
     * call panics; that case is outside the function's domain.
     */
    function LogFormat(o: Order, level: Level, timestamp: Tm, message: Option<string>, properties: Properties): (text: string)
      reads config
      requires !config.poisoned
      ensures text == FilterMessage(o, level, message, config.level)
    {
      FilterMessage(o, level, message, config.level)
    }
  }

  /**
   * Straight after start-up, an event at `level` carrying `m` is shown exactly when
   * `level <= Info`.
   */
  method DefaultConfigurationFilters(o: Order, level: Level, m: string) returns (text: string)
    ensures text == (if Le(o, level, Info) then m else "")
  {
    var config := new LogConfig();
    var formatter := new PupFormatter(config);
    text := formatter.LogFormat(o, level, Tm(0), Some(m), None);
  }

  /**
   * The level is read when an event is formatted, not when the logger is built: with
   * the level set to Debug, a logger is obtained and the formatter of a default logger
   * shows a Debug event; after the level is set to Info, the same formatter suppresses
   * a Debug event unless `Debug <= Info`.
   */
  method LevelIsReadAtFormatTime(o: Order) returns (setDebug: Result<()>, logger: Result<Logger>,
                                                  first: string, setInfo: Result<()>, second: string)
    ensures setDebug == Ok(()) && setInfo == Ok(())
    ensures logger == Ok(Build(DefaultLogger))
    ensures first == "x"
    ensures second == (if Le(o, Debug, Info) then "y" else "")
  {
    var config := new LogConfig();
    setDebug := config.SetLoggerLevel(Debug);
    logger := config.GetLogger();
    var formatter := new PupFormatter(config);
    first := formatter.LogFormat(o, Debug, Tm(0), Some("x"), None);
    setInfo := config.SetLoggerLevel(Info);
    second := formatter.LogFormat(o, Debug, Tm(1), Some("y"), None);
  }

  /** Formatting depends on neither the timestamp nor the properties of an event. */
  lemma LogFormatIgnoresTimestampAndProperties(f: PupFormatter, o: Order, level: Level, message: Option<string>,
                                               t1: Tm, t2: Tm, p1: Properties, p2: Properties)
    requires !f.config.poisoned
    ensures f.LogFormat(o, level, t1, message, p1) == f.LogFormat(o, level, t2, message, p2)
  {
  }
}
