# Logging configuration of rust-pup-worker, in Dafny

This project models the process-wide logging configuration in `src/logger.rs` and proves properties about it. There is one global record, `CONFIG`, guarded by a mutex. It holds the minimum level and the factory that builds loggers, and it starts as `(Info, default_logger)`. Three operations work on it, and each takes the lock first:

- `get_logger` builds a logger with the stored factory.
- `set_logger_level` overwrites the level.
- `set_logger` overwrites the factory.

If the lock is poisoned, each of the three returns an error. The formatter `PupFormatter`, which `default_logger` wires into its loggers, re-reads the stored level each time it formats an event. It emits the event's message verbatim when `level <= CONFIG.level`. In every other case it emits the empty string.

Files:

- `levels.dfy` (module `Levels`): the severity levels and their order. The comparison `<=` on `base_logging::Level` is assumed to be the one Rust derives from the order in which its variants are declared. That declaration is not visible here, so the order is a parameter, `Order(rank)`; any order given by positions is covered. No property assumes which of two levels comes first.
- `logging.dfy` (module `Logging`):
  - the class `LogConfig`, holding the record's two fields plus a `poisoned` flag for the mutex, with the three operations as methods;
  - the class `PupFormatter`, which holds a reference to that record;
  - the pure filtering rule `FilterMessage`;
  - `Apply`, one call against a value snapshot `ConfigState` of the record. The class is the imperative form and `Apply` is its one-step specification: every `LogConfig` method's contract is tied to it, and the constructor is tied to `Initial`.
- `trace.dfy` (module `Trace`): sequences of calls in lock order. It proves what such a sequence leaves in the record: each field holds its last write. It also proves what each call returns: a logger comes from the latest factory, and a format reads the latest level.

Loggers and factories carry no behaviour here; each is a tag. A `Factory` is `DefaultLogger` or `Custom(id)`, and a `Logger` records which factory built it. The timestamp (`Tm`) and the properties map reach the formatter as parameters, and the formatter ignores both.

About the code's behaviour:

- The guarantee that "a message at the configured level is emitted" applies only to loggers built by `default_logger`. Only that factory wires in `PupFormatter` (`src/logger.rs:30`). A logger from another factory, such as the one in the unit test at `src/logger.rs:81-83`, has no `PupFormatter`, and this model says nothing about what it emits.
- The event passes when `level <= CONFIG.level` under the derived order of `Level`. Whether a more verbose level compares as smaller or larger is not fixed by anything visible. The properties are therefore stated against the order itself: for example, in `LevelIsReadAtFormatTime` the second message is suppressed exactly when `Debug <= Info` fails.

## Model

| member | source | states |
|---|---|---|
| `Levels.LeIsTotalOrder` | src/logger.rs:50 | the derived `<=` on levels is reflexive, antisymmetric, transitive and total |
| `Logging.FilterMessage` | src/logger.rs:49-56 | non-empty text is emitted only for an event with `level <= threshold`, and that text is the event's own message; a passing event with a message yields that message verbatim; with no message, or when the event does not pass, the text is empty |
| `Logging.ThresholdLevelPasses` | src/logger.rs:50-52 | an event at exactly the configured level always shows its message |
| `Logging.FilterMonotone` | src/logger.rs:50 | moving the threshold up the order never hides an event that was shown, nor changes its text |
| `Logging.Apply` | src/logger.rs:24-43 | on a poisoned lock every call replies `Err(LockPoisoned)` (an error, not a panic) and leaves the record as it was; on a healthy lock, `set_logger_level` and `set_logger` reply `Ok(())` and change only the field they name, and `get_logger` changes nothing and replies `Ok` of what the stored factory builds; a panic under the lock poisons it |
| `Logging.LogConfig.constructor` | src/logger.rs:17-22 | the record starts with level Info, factory `default_logger` and a healthy lock |
| `Logging.LogConfig.GetLogger` | src/logger.rs:24-27 | on a healthy lock it returns `Ok` of exactly what the stored factory builds; on a poisoned lock it returns `Err`; it changes nothing either way |
| `Logging.LogConfig.SetLoggerLevel` | src/logger.rs:33-37 | on a healthy lock it returns `Ok` and the level becomes the argument; on a poisoned lock it returns `Err` and the level is kept; the factory and the lock state never change |
| `Logging.LogConfig.SetLogger` | src/logger.rs:39-43 | on a healthy lock it returns `Ok` and the factory becomes the argument; on a poisoned lock it returns `Err` and the factory is kept; the level and the lock state never change |
| `Logging.LogConfig.HolderPanics` | src/logger.rs:25-26 | a panic by a thread holding the lock, such as a panicking factory, poisons the mutex and keeps both fields |
| `Logging.PupFormatter.constructor` | src/logger.rs:30 | the formatter that `default_logger` wires in holds the shared record, not a copy of its level |
| `Logging.PupFormatter.LogFormat` | src/logger.rs:48-57 | the text is `FilterMessage` applied to the level stored in the shared record at the moment of the call, not a level captured earlier; it needs a healthy lock, since `unwrap` panics otherwise |
| `Logging.DefaultConfigurationFilters` | src/logger.rs:17-22 | right after start-up, an event carrying a message is shown exactly when its level is `<= Info` |
| `Logging.LevelIsReadAtFormatTime` | src/logger.rs:49-50 | both `set_logger_level` calls reply `Ok(())` and `get_logger` replies the logger `default_logger` builds; with level Debug, that default logger's formatter shows a Debug event; after `set_logger_level(Info)`, the same formatter suppresses a Debug event unless `Debug <= Info` |
| `Logging.LogFormatIgnoresTimestampAndProperties` | src/logger.rs:49 | two events that differ only in timestamp and properties format identically |
| `Trace.Step` | src/logger.rs:49-57 | a call under the lock replies as `Apply` says; a format changes nothing and, on a poisoned lock, panics (the `unwrap`) instead of returning an error, otherwise filters against the stored level |
| `Trace.Run` | src/logger.rs:24-43 | over any sequence of calls, the lock ends up poisoned exactly when it started poisoned or some holder panicked; from a poisoned start, the record is unchanged and every call fails |
| `Trace.LastLevelWritten` | src/logger.rs:33-37 | the level of the last `set_logger_level` in a sequence: it is one of the written levels, no level is written after it, and it is absent exactly when no level is written |
| `Trace.LastFactoryWritten` | src/logger.rs:39-43 | the factory of the last `set_logger` in a sequence: it is one of the written factories, none is written after it, and it is absent exactly when none is written |
| `Trace.LastWriteWins` | src/logger.rs:33-43 | while the lock stays healthy, the record holds the last level written and the last factory written, each unaffected by writes to the other field, or its starting value if never written |
| `Trace.ReplyAt` | src/logger.rs:18-21 | the reply to each call is decided by the record as the calls before it left it |
| `Trace.LoggerComesFromLatestFactory` | src/logger.rs:24-27 | a logger handed out is built by the factory of the last `set_logger` before it, or by `default_logger`; a later `set_logger` does not affect it |
| `Trace.FormatReadsLiveLevel` | src/logger.rs:49-50 | a format filters against the level of the last `set_logger_level` before the format call, or Info if there was none, whenever its logger was obtained |
| `Trace.LevelAndFactoryCommute` | src/logger.rs:35-41 | writing the level and the factory in either order leaves the same record |

## Left out

- `src/utils/path.rs` (`join`, `exists`, `display`, `blat`). These are filesystem and `std::path` calls into libraries that are not part of this model.
- The mechanics of `Mutex` and `lazy_static`, and any thread-safety claim. The model treats each locked operation as one atomic step, and treats a run as the sequence of those steps in lock order.
- What poisons the mutex. It is the `HolderPanics` step. Which factories panic is not known here, because factories are opaque.
- `Logger`, `ConsoleLogger` and `default_logger`'s construction of a logger. These are foreign calls into `base_logging`. A logger is only a tag naming the factory that built it, and its dispatch and console output are not modelled.
- The variant list and declaration order of `base_logging::Level`. The model names the four conventional levels Error, Warn, Info and Debug (the code itself uses Info and Debug) and keeps the order abstract.
- `Logging.PupFormatter.LogFormat` on a poisoned lock. Here the source panics, so the function requires a healthy lock. In `Trace`, the same case is the reply `Panicked`, and the record does not change.
- `PupWorkerError` is a single error value, `LockPoisoned`. The error type's own definition is not part of this model.
- The unit tests at `src/logger.rs:64-79`. They only write to the console and assert nothing.
