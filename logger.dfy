/**
 * The logger of src/log.c as an object: the three globals `max`, `_flags`
 * and `_logfile` are its fields, every public function is a method, and
 * everything the C code does to stdout, the log file and syslog is appended
 * to the ghost trace. Each method is specified by the step function of
 * LogSpec that its C counterpart implements.
 */
module Log {
  import opened LogTypes
  import opened LogSpec

  class Logger {
    var max: Level
    var flags: Flags
    var logfile: Option<Handle>
    // whether `logfile` has been handed to fclose; the C program keeps no such record
    ghost var fileClosed: bool
    // the calls made to stdio and syslog so far
    ghost var trace: seq<Event>

    ghost function State(): Config
      reads this
    {
      Config(max, flags, logfile, fileClosed)
    }

    /** Program start: threshold ERROR, no flags, no file, nothing written. */
    constructor ()
      ensures State() == Initial && trace == []
    {
      max := Error;
      flags := 0;
      logfile := None;
      fileClosed := false;
      trace := [];
    }

    /** `_print_time(stream)`: the clock and the locale give the token. */
    method PrintTime(stream: Stream, stamp: Token)
      modifies this`trace
      ensures trace == old(trace) + [Stamp(stream, stamp)]
    {
      trace := trace + [Stamp(stream, stamp)];
    }

    /**
     * `_stream_log(stream, format, pargs, copy)`, where `ret` is what
     * `vfprintf` returns. Writes go to stdout or to the log file while it is
     * still open.
     */
    method StreamLog(stream: Stream, fmt: string, copy: bool, stamp: Token, ret: int)
      requires stream.LogFile? ==> logfile == Some(stream.handle) && !fileClosed
      modifies this`trace
      ensures trace == old(trace) + StreamLine(flags, stream, fmt, copy, stamp, ret)
    {
      if FlagSet(flags, FLAG_TIMESTAMP) {
        PrintTime(stream, stamp);
      }
      ghost var stamped := When(FlagSet(flags, FLAG_TIMESTAMP), Stamp(stream, stamp));
      assert trace == old(trace) + stamped;
      if copy {
        trace := trace + [CopyArgs(stream)];
        trace := trace + [Format(stream, fmt, Copy)];
      } else {
        trace := trace + [Format(stream, fmt, Original)];
      }
      ghost var written := stamped + When(copy, CopyArgs(stream))
        + When(true, Format(stream, fmt, if copy then Copy else Original));
      assert trace == old(trace) + written;
      if ret >= 0 {
        trace := trace + [Newline(stream)];
      }
      ghost var ended := written + When(ret >= 0, Newline(stream));
      assert trace == old(trace) + ended;
      // the cleanup label: reached on both paths
      if copy {
        trace := trace + [EndCopy(stream)];
      }
      assert trace == old(trace) + (ended + When(copy, EndCopy(stream)));
    }

    /**
     * `_logger(level, format, pargs)`: the level gate, `need`, then console,
     * file and syslog in that order.
     */
    method Dispatch(level: Level, fmt: string, env: CallEnv)
      requires EmitSafe(State(), level)
      modifies this`trace
      ensures trace == old(trace) + CallEvents(old(State()), level, fmt, env)
    {
      if Ordinal(level) > Ordinal(max) {
        return;
      }
      var need: nat := (if FlagSet(flags, FLAG_SYSLOG) then 1 else 0)
        + (if FlagSet(flags, FLAG_CONSOLE) then 1 else 0)
        + (if FlagSet(flags, FLAG_FILE) && logfile.Some? then 1 else 0);
      assert need == Need(State());
      ghost var c := State();
      if FlagSet(flags, FLAG_CONSOLE) {
        StreamLog(Stdout, fmt, need > 1, env.consoleStamp, env.consoleRet);
      }
      assert trace == old(trace) + ConsolePart(c, fmt, env);
      if FlagSet(flags, FLAG_FILE) && logfile.Some? {
        StreamLog(LogFile(logfile.value), fmt, need > 1, env.fileStamp, env.fileRet);
      }
      ghost var streamed := trace;
      assert streamed == old(trace) + ConsolePart(c, fmt, env) + FilePart(c, fmt, env);
      if FlagSet(flags, FLAG_SYSLOG) {
        trace := trace + [Syslog(LOG_NOTICE, fmt, Original)];
      }
      assert trace == streamed + SyslogPart(c, fmt);
      AppendAssoc(old(trace), ConsolePart(c, fmt, env), FilePart(c, fmt, env), SyslogPart(c, fmt));
    }

    /** `log_debug(format, ...)`. */
    method LogDebug(fmt: string, env: CallEnv)
      requires EmitSafe(State(), Debug)
      modifies this`trace
      ensures trace == old(trace) + CallEvents(old(State()), Debug, fmt, env)
    {
      Dispatch(Debug, fmt, env);
    }

    /** `log_info(format, ...)`. */
    method LogInfo(fmt: string, env: CallEnv)
      requires EmitSafe(State(), Info)
      modifies this`trace
      ensures trace == old(trace) + CallEvents(old(State()), Info, fmt, env)
    {
      Dispatch(Info, fmt, env);
    }

    /** `log_warn(format, ...)`. */
    method LogWarn(fmt: string, env: CallEnv)
      requires EmitSafe(State(), Warn)
      modifies this`trace
      ensures trace == old(trace) + CallEvents(old(State()), Warn, fmt, env)
    {
      Dispatch(Warn, fmt, env);
    }

    /** `log_error(format, ...)`. */
    method LogError(fmt: string, env: CallEnv)
      requires EmitSafe(State(), Error)
      modifies this`trace
      ensures trace == old(trace) + CallEvents(old(State()), Error, fmt, env)
    {
      Dispatch(Error, fmt, env);
    }

    /**
     * `log_open(name, file, flags)`; `fopenResult` is what `fopen(file, "a")`
     * returns when a path is given.
     */
    method Open(name: string, file: Option<string>, newFlags: Flags, fopenResult: Option<Handle>)
      modifies this
      ensures State() == OpenStep(old(State()), name, file, newFlags, fopenResult).after
      ensures trace == old(trace) + OpenStep(old(State()), name, file, newFlags, fopenResult).events
    {
      flags := newFlags;
      if FlagSet(flags, FLAG_SYSLOG) {
        trace := trace + [OpenLog(name, OPENLOG_OPTIONS, LOG_DAEMON)];
      }
      if file.Some? {
        trace := trace + [FOpen(file.value, "a")];
        logfile := fopenResult;
        fileClosed := false;
        if logfile.Some? {
          trace := trace + [SetLineBuffered(logfile.value)];
        }
      }
    }

    /** `log_level(level)`. */
    method SetLevel(level: Level)
      modifies this`max
      ensures State() == LevelStep(old(State()), level)
      ensures trace == old(trace)
    {
      max := level;
    }

    /** `log_close()`: the handle is closed but `_logfile` keeps pointing at it. */
    method Close()
      requires CloseSafe(State())
      modifies this`trace, this`fileClosed
      ensures State() == CloseStep(old(State())).after
      ensures trace == old(trace) + CloseStep(old(State())).events
    {
      if FlagSet(flags, FLAG_SYSLOG) {
        trace := trace + [CloseLog];
      }
      if logfile.Some? {
        trace := trace + [FClose(logfile.value)];
        fileClosed := true;
      }
    }

    /** `log_reopen(name, file, flags)`. */
    method Reopen(name: string, file: Option<string>, newFlags: Flags, fopenResult: Option<Handle>)
      requires CloseSafe(State())
      modifies this
      ensures State() == ReopenStep(old(State()), name, file, newFlags, fopenResult).after
      ensures trace == old(trace) + ReopenStep(old(State()), name, file, newFlags, fopenResult).events
    {
      Close();
      Open(name, file, newFlags, fopenResult);
    }
  }

  lemma AppendAssoc(t: seq<Event>, a: seq<Event>, b: seq<Event>, s: seq<Event>)
    ensures t + a + b + s == t + (a + b + s)
  {
  }
}
