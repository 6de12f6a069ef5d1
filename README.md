# liblog in Dafny

liblog is a small logging library for C programs, built around `src/log.c`.
A program configures it once with `log_open(name, file, flags)` and then
calls `log_debug`, `log_info`, `log_warn` or `log_error` with a printf-style
format. Each call passes through a severity gate (`level > max` drops it)
and is then written to up to three sinks, in a fixed order:

- the console, which is `stdout`;
- a log file opened in append mode with line buffering;
- the system log, through `vsyslog` at `LOG_NOTICE`.

The CONSOLE, FILE and SYSLOG bits of the flags choose the sinks. A fourth
bit, TIMESTAMP, prefixes every stream line with the local time. A caller's
`va_list` can be consumed only once. So when more than one sink needs the
arguments (`need > 1`), each stream line formats from a `va_copy` and
releases it afterwards. `log_level` changes the threshold, `log_close` tears
the sinks down, and `log_reopen` closes and then opens again.

The project has three files:

- `types.dfy` (module `LogTypes`) holds the value types. These are the
  severities and their ordinals, the `bv32` flag word with `FLAG_SET`, the
  `<syslog.h>` constants, the process-wide configuration `Config`, and the
  `Event` type. Each `Event` stands for one call into stdio or syslog.
- `spec.dfy` (module `LogSpec`) describes every operation as a pure
  function of the configuration:
  - `StreamLine` gives the events of one `_stream_log`.
  - `CallEvents` gives the events of one `_logger` call.
  - `OpenStep`, `LevelStep`, `CloseStep` and `ReopenStep` give the
    transitions of the configuration calls.

  The lemmas in this module state the dispatch rules. They count events
  with `Count` and a `Probe`, and they give the order of events where the
  order matters.
- `logger.dfy` (module `Log`) holds the imperative model. The class
  `Logger` has the globals `max`, `_flags` and `_logfile` as fields, and a
  ghost `trace` of the events emitted so far. Every C function is a method
  of the class. Each method's `ensures` states the new fields and the new
  trace. For every method except `PrintTime`, it does so through the
  matching `LogSpec` function. `PrintTime` appends a single `Stamp` event.

In several places the code does not do what a reader might expect. The
model follows the code.

- `log_close` neither resets `_logfile` nor clears the flags. Closing twice
  therefore hands the same `FILE *` to `fclose` a second time, so it is not
  idempotent. An emit with FILE set after `log_close` writes to a closed
  stream. The model makes this visible with a ghost `fileClosed` bit.
  `Close`, `Reopen` and the emit methods require that the handle has not
  already been closed. `CloseTwiceUsesClosedHandle` shows that the sequence open,
  then close, violates those requirements.
- `log_open` calls `fopen` whenever a path is given, whatever the FILE bit
  says. A handle can therefore be live while FILE is off
  (`HandleLiveWhileFileOff`).
- The trailing newline is written only when `vfprintf` returns a
  non-negative value.
- Each stream calls `_print_time`, and so reads the clock, separately.
  Console and file may therefore carry different stamps for the same call.
  The model gives each stream its own token.
- Syslog always receives `LOG_NOTICE`, whatever the severity.

## Model

| member | source | states |
|---|---|---|
| `LogTypes.SeverityOrder` | src/log.c:10 | the severities are ordered ERROR < WARN < INFO < DEBUG with distinct ordinals, so `level > max` keeps exactly the levels at least as severe as the threshold |
| `LogSpec.Need` | src/log.c:57 | `need` is at most 3, and it is 0 exactly when console, active file and syslog are all off |
| `LogSpec.StreamSinks` | src/log.c:59-64 | the number of stream lines a call writes is at most 2 and never exceeds `need` |
| `LogSpec.StreamLineCount` | src/log.c:25-49 | counting helper: the events of one stream line, counted per event class, are the sum over the line's optional parts: stamp, copy, write, newline, release |
| `LogSpec.StreamLineShape` | src/log.c:25-49 | one stream line has exactly one formatted write to its stream. That write uses the caller's list iff no copy is asked for. There is a timestamp iff TIMESTAMP is set, and a newline iff `vfprintf` returned a non-negative value. A copy is made iff asked for, and every copy is released |
| `LogSpec.StampFirst` | src/log.c:32-33 | a stream line is never empty, and it begins with the timestamp exactly when TIMESTAMP is set |
| `LogSpec.CallCount` | src/log.c:51-69 | counting helper: the events of one call, counted per event class, are the console part, then the file part, then the syslog part; a call that fails the gate has none |
| `LogSpec.InitialIsSilent` | src/log.c:8-12 | before any configuration the threshold is ERROR, the flags are 0 and there is no file, so every call emits nothing |
| `LogSpec.LevelGate` | src/log.c:54-55 | a call above the threshold has no effect; a call at or below it emits something iff `need > 0` |
| `LogSpec.SinkSelection` | src/log.c:59-68 | a call that passes the gate writes exactly one console line iff CONSOLE is set, exactly one file line iff FILE is set and the handle is not null, and one syslog submission iff SYSLOG is set; a gated call writes none |
| `LogSpec.SinkOrder` | src/log.c:59-68 | every console event of a call precedes every file event, which precedes the syslog submission |
| `LogSpec.CopyRule` | src/log.c:57-68 | after the gate, the argument list is consumed exactly `need` times. Stream lines format from copies iff `need > 1`, and from the caller's list otherwise. Every syslog submission is at LOG_NOTICE from the caller's list |
| `LogSpec.OriginalUsedAtMostOnce` | src/log.c:35-40 | within one call, the caller's single-use `va_list` is consumed directly at most once, for any flags and level |
| `LogSpec.OriginalConsumedLast` | src/log.c:57-68 | within one call, no event that follows the direct use of the caller's `va_list` makes a `va_copy` or consumes an argument list, so every copy is taken before the original is consumed |
| `LogSpec.FileLineToCurrentHandle` | src/log.c:63-64 | a call writes one line to a given handle iff it passes the gate, FILE is set and `_logfile` is that handle, and no line otherwise |
| `LogSpec.CopiesReleased` | src/log.c:35-48 | every `va_copy` of a call is matched by a `va_end`, on the error path too |
| `LogSpec.StreamsAgree` | src/log.c:59-64 | with console and file both active, every formatted write of the call renders the same format from a copy |
| `LogSpec.OpenEffects` | src/log.c:71-83 | `log_open` replaces the flags and keeps the threshold. It registers with syslog iff the new flags have SYSLOG, and calls `fopen` iff a path is given, whatever the FILE bit. A failed open leaves the handle null, and without a path the old handle stays. It never closes anything |
| `LogSpec.LevelOnlySetsMax` | src/log.c:85-88 | `log_level` replaces the threshold and leaves flags and handle alone |
| `LogSpec.CloseEffects` | src/log.c:96-103 | `log_close` calls `closelog` iff SYSLOG is set, and `fclose` iff the handle is not null. It leaves flags, threshold and the handle pointer unchanged |
| `LogSpec.CloseTwiceUsesClosedHandle` | src/log.c:96-103 | after a successful open with a path and one `log_close`, the handle still points at the closed file. A second close is unsafe, and with FILE set so is an emit |
| `LogSpec.HandleLiveWhileFileOff` | src/log.c:78-82 | an open with a path but without FILE leaves a live handle that no call writes to |
| `LogSpec.DegradedMode` | src/log.c:78-82 | when `fopen` fails, the handle is null, no call writes a file line, and the console still gets its line when CONSOLE is set |
| `LogSpec.ConsoleAndFileExample` | src/log.c:51-88 | opening with CONSOLE and FILE and setting the threshold to WARN gives a WARN call one console line and one file line, no syslog, and no use of the caller's list; a DEBUG call writes nothing |
| `Log.Logger.constructor` | src/log.c:8-12 | the initial state is threshold ERROR, no flags, no file, and an empty trace |
| `Log.Logger.PrintTime` | src/log.c:15-23 | the timestamp is appended to the stream |
| `Log.Logger.StreamLog` | src/log.c:25-49 | the trace grows by exactly the events of one stream line; writing to the file requires the handle to still be open |
| `Log.Logger.Dispatch` | src/log.c:51-69 | the trace grows by exactly the events of one call in the state before the call |
| `Log.Logger.LogDebug` | src/log.c:116-125 | `_logger` at DEBUG |
| `Log.Logger.LogInfo` | src/log.c:127-136 | `_logger` at INFO |
| `Log.Logger.LogWarn` | src/log.c:138-147 | `_logger` at WARN |
| `Log.Logger.LogError` | src/log.c:149-158 | `_logger` at ERROR |
| `Log.Logger.Open` | src/log.c:71-83 | the state and trace change exactly as `OpenStep` says |
| `Log.Logger.SetLevel` | src/log.c:85-88 | only the threshold changes, as `LevelStep` says, and the trace is unchanged |
| `Log.Logger.Close` | src/log.c:96-103 | the state and trace change exactly as `CloseStep` says; the handle must not already be closed |
| `Log.Logger.Reopen` | src/log.c:90-94 | the state and trace change exactly as a close followed by an open, as `ReopenStep` says |

## Left out

- Rendering of the format string. `vfprintf` and `vsyslog` appear as
  events that carry the format and the list they consume. The text they
  produce is not modelled. `vfprintf`'s return value is a parameter.
- The clock, the time zone, the locale and `strftime` are not modelled.
  A timestamp is an opaque token passed in, one per stream. So is the
  mismatch between the 16-byte buffer and the size 50 passed to `strftime`.
- `setvbuf` is only recorded as an event. Its effect on buffering and
  flushing is not modelled, and neither is the flush that `fclose` performs.
- `va_start`/`va_end` in the public wrappers are not modelled. The model
  traces only the caller's list as `_logger` sees it.
- Concurrency is not modelled. The library keeps unsynchronised globals,
  and the model is single-threaded.
- The commented-out public `logger(level, format, ...)` is not compiled, so
  it is not modelled.
- `liblog.h` is not part of this model. The flag values 1, 2, 4 and 8 for
  CONSOLE, FILE, SYSLOG and TIMESTAMP are assumed, as is the order ERROR <
  WARN < INFO < DEBUG of the enumerators.
- The `<syslog.h>` constants are the GNU C library's values.
- `Log.Logger.Open`: the handle a re-open leaks is not tracked. When
  `log_open` overwrites a live `_logfile`, nothing records that the old
  handle was never closed.
- `Log.Logger.Close`: closing a handle that is already closed is excluded by
  a precondition rather than modelled. In C it is undefined behaviour.
- `Log.Logger.Reopen`: the same precondition excludes a re-open whose close
  would hand an already closed handle to `fclose`. `LogSpec.ReopenStep`
  carries that precondition too.
- `Log.Logger.Dispatch`: writing to a closed file is excluded by a
  precondition rather than modelled. In C it is undefined behaviour.
