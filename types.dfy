/**
 * Values of the liblog logger: severities, the flag bitmask, the
 * process-wide configuration, and the observable events that replace the
 * calls into stdio and syslog.
 */
module LogTypes {

  datatype Option<+T> = None | Some(value: T)

  /** `enum log_level`: ERROR is the most severe and has the lowest ordinal. */
  datatype Level = Error | Warn | Info | Debug

  /** The integer value of the enumerator, as compared by `level > max`. */
  function Ordinal(l: Level): (n: nat)
    ensures n <= 3
  {
    match l
    case Error => 0
    case Warn => 1
    case Info => 2
    case Debug => 3
  }

  /**
   * The order the gate `level > max` relies on: ERROR < WARN < INFO < DEBUG,
   * and distinct severities have distinct ordinals.
   */
  lemma SeverityOrder()
    ensures Ordinal(Error) < Ordinal(Warn) < Ordinal(Info) < Ordinal(Debug)
    ensures forall l: Level, m: Level :: Ordinal(l) == Ordinal(m) ==> l == m
  {
  }

  /** The C `int` holding the `LIBLOG_FLAG_*` bits. */
  type Flags = bv32

  const FLAG_CONSOLE: Flags := 1
  const FLAG_FILE: Flags := 2
  const FLAG_SYSLOG: Flags := 4
  const FLAG_TIMESTAMP: Flags := 8

  /** `FLAG_SET(x)`: every bit of `x` is present in `flags`. */
  predicate FlagSet(flags: Flags, x: Flags) {
    flags & x == x
  }

  /** Constants of <syslog.h> used by the logger (GNU C library values). */
  const LOG_PID: bv32 := 0x01
  const LOG_CONS: bv32 := 0x02
  const LOG_NDELAY: bv32 := 0x08
  const LOG_DAEMON: int := 3 * 8
  const LOG_NOTICE: int := 5

  /** The options `log_open` passes to `openlog`. */
  const OPENLOG_OPTIONS: bv32 := LOG_CONS | LOG_PID | LOG_NDELAY

  /** An opaque `FILE *` returned by a successful `fopen`. */
  type Handle = nat

  /** The text produced by one `_print_time`: wall clock and locale, opaque here. */
  type Token = string

  /** A stream `_stream_log` writes to. */
  datatype Stream = Stdout | LogFile(handle: Handle)

  /** Which `va_list` a formatting call consumes: a `va_copy` or the caller's own. */
  datatype ArgList = Copy | Original

  /** One observable effect on the outside world, in the order it happens. */
  datatype Event =
    | OpenLog(ident: string, option: bv32, facility: int)   // openlog
    | CloseLog                                              // closelog
    | FOpen(path: string, mode: string)                     // fopen
    | SetLineBuffered(handle: Handle)                       // setvbuf(_IOLBF)
    | FClose(handle: Handle)                                // fclose
    | Stamp(stream: Stream, token: Token)                   // _print_time
    | CopyArgs(stream: Stream)                              // va_copy
    | Format(stream: Stream, fmt: string, args: ArgList)    // vfprintf
    | Newline(stream: Stream)                               // putc('\n')
    | EndCopy(stream: Stream)                               // va_end of the copy
    | Syslog(priority: int, fmt: string, args: ArgList)     // vsyslog

  /**
   * The process-wide state: the threshold `max`, `_flags`, `_logfile`, and
   * whether `_logfile` has already been handed to `fclose` (a fact the C
   * program does not record, kept here to make use-after-close visible).
   */
  datatype Config = Config(max: Level, flags: Flags, logfile: Option<Handle>, fileClosed: bool)

  /** The state at program start. */
  const Initial := Config(Error, 0, None, false)

  /**
   * What the environment decides during one emit call: the timestamp each
   * stream gets (each `_print_time` reads the clock afresh) and the value each
   * `vfprintf` returns.
   */
  datatype CallEnv = CallEnv(consoleStamp: Token, consoleRet: int, fileStamp: Token, fileRet: int)
}
