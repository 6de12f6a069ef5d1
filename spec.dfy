/**
 * The logger's behaviour as pure functions of the process-wide state: the
 * events of one emit call and the state transitions of the configuration
 * calls, with the properties the dispatch relies on.
 */
module LogSpec {
  import opened LogTypes

  // ---------------------------------------------------------------- counting

  /** A class of events, for counting occurrences in a trace. */
  datatype Probe =
    | LineTo(stream: Stream)   // a formatted write to exactly this stream
    | AnyFileLine              // a formatted write to some log file
    | Submission               // a vsyslog call
    | Consumer                 // any call that consumes an argument list
    | UsesOriginal             // any call that consumes the caller's va_list
    | CopyMade                 // a va_copy
    | CopyReleased             // a va_end of a copy
    | StampOf(stream: Stream)  // a timestamp prefix on this stream
    | NewlineOf(stream: Stream)
    | FormatFrom(args: ArgList)  // a formatted write from this kind of list
    | NoticeFromOriginal       // a vsyslog at LOG_NOTICE from the caller's list

  predicate Hits(e: Event, p: Probe) {
    match p
    case LineTo(s) => e.Format? && e.stream == s
    case AnyFileLine => e.Format? && e.stream.LogFile?
    case Submission => e.Syslog?
    case Consumer => e.Format? || e.Syslog?
    case UsesOriginal => (e.Format? || e.Syslog?) && e.args == Original
    case CopyMade => e.CopyArgs?
    case CopyReleased => e.EndCopy?
    case StampOf(s) => e.Stamp? && e.stream == s
    case NewlineOf(s) => e.Newline? && e.stream == s
    case FormatFrom(a) => e.Format? && e.args == a
    case NoticeFromOriginal => e.Syslog? && e.priority == LOG_NOTICE && e.args == Original
  }

  /** How many events of `evs` the probe `p` matches. */
  function Count(evs: seq<Event>, p: Probe): (n: nat)
    ensures n <= |evs|
  {
    if evs == [] then 0
    else CountOne(evs[0], p) + Count(evs[1..], p)
  }

  function CountOne(e: Event, p: Probe): nat {
    if Hits(e, p) then 1 else 0
  }

  lemma {:induction false} CountAppend(a: seq<Event>, b: seq<Event>, p: Probe)
    ensures Count(a + b, p) == Count(a, p) + Count(b, p)
  {
    if a == [] {
      assert a + b == b;
    } else {
      assert (a + b)[1..] == a[1..] + b;
      CountAppend(a[1..], b, p);
    }
  }

  lemma CountAppend3(a: seq<Event>, b: seq<Event>, c: seq<Event>, p: Probe)
    ensures Count(a + b + c, p) == Count(a, p) + Count(b, p) + Count(c, p)
  {
    CountAppend(a, b, p);
    CountAppend(a + b, c, p);
  }

  /** The one-event sequence `[e]` when `b` holds, else nothing. */
  function When(b: bool, e: Event): (r: seq<Event>)
    ensures |r| == if b then 1 else 0
  {
    if b then [e] else []
  }

  lemma CountWhen(b: bool, e: Event, p: Probe)
    ensures Count(When(b, e), p) == if b then CountOne(e, p) else 0
  {
    assert [e][1..] == [];
  }

  // -------------------------------------------------------------- one line

  /**
   * The events of `_stream_log(stream, format, pargs, copy)`: the optional
   * timestamp, the formatted write from a copy or from the original list,
   * the newline only when the write returned `ret >= 0`, and the release of
   * the copy on both paths.
   */
  function StreamLine(flags: Flags, stream: Stream, fmt: string, copy: bool, stamp: Token, ret: int): seq<Event>
  {
    When(FlagSet(flags, FLAG_TIMESTAMP), Stamp(stream, stamp))
    + When(copy, CopyArgs(stream))
    + When(true, Format(stream, fmt, if copy then Copy else Original))
    + When(ret >= 0, Newline(stream))
    + When(copy, EndCopy(stream))
  }

  /** How many events of one stream line the probe `p` matches, part by part. */
  function LineTally(flags: Flags, stream: Stream, fmt: string, copy: bool, stamp: Token, ret: int, p: Probe): nat {
    (if FlagSet(flags, FLAG_TIMESTAMP) then CountOne(Stamp(stream, stamp), p) else 0)
    + (if copy then CountOne(CopyArgs(stream), p) else 0)
    + CountOne(Format(stream, fmt, if copy then Copy else Original), p)
    + (if ret >= 0 then CountOne(Newline(stream), p) else 0)
    + (if copy then CountOne(EndCopy(stream), p) else 0)
  }

  lemma StreamLineCount(flags: Flags, stream: Stream, fmt: string, copy: bool, stamp: Token, ret: int, p: Probe)
    ensures Count(StreamLine(flags, stream, fmt, copy, stamp, ret), p) == LineTally(flags, stream, fmt, copy, stamp, ret, p)
  {
    var ts := When(FlagSet(flags, FLAG_TIMESTAMP), Stamp(stream, stamp));
    var ca := When(copy, CopyArgs(stream));
    var fm := When(true, Format(stream, fmt, if copy then Copy else Original));
    var nl := When(ret >= 0, Newline(stream));
    var ec := When(copy, EndCopy(stream));
    CountAppend3(ts, ca, fm, p);
    CountAppend(ts + ca + fm, nl, p);
    CountAppend(ts + ca + fm + nl, ec, p);
    CountWhen(FlagSet(flags, FLAG_TIMESTAMP), Stamp(stream, stamp), p);
    CountWhen(copy, CopyArgs(stream), p);
    CountWhen(true, Format(stream, fmt, if copy then Copy else Original), p);
    CountWhen(ret >= 0, Newline(stream), p);
    CountWhen(copy, EndCopy(stream), p);
  }

  /**
   * Shape of one stream line: a single formatted write to `stream`, from the
   * caller's list iff no copy is asked for; a timestamp prefix iff TIMESTAMP
   * is set; a newline iff the write returned a non-negative value; a copy made
   * iff `copy`, and released on both paths.
   */
  lemma StreamLineShape(flags: Flags, stream: Stream, fmt: string, copy: bool, stamp: Token, ret: int)
    ensures var evs := StreamLine(flags, stream, fmt, copy, stamp, ret);
      && Count(evs, LineTo(stream)) == 1
      && Count(evs, Consumer) == 1
      && Count(evs, UsesOriginal) == (if copy then 0 else 1)
      && Count(evs, StampOf(stream)) == (if FlagSet(flags, FLAG_TIMESTAMP) then 1 else 0)
      && Count(evs, NewlineOf(stream)) == (if ret >= 0 then 1 else 0)
      && Count(evs, CopyMade) == (if copy then 1 else 0)
      && Count(evs, CopyReleased) == Count(evs, CopyMade)
  {
    StreamLineCount(flags, stream, fmt, copy, stamp, ret, LineTo(stream));
    StreamLineCount(flags, stream, fmt, copy, stamp, ret, Consumer);
    StreamLineCount(flags, stream, fmt, copy, stamp, ret, UsesOriginal);
    StreamLineCount(flags, stream, fmt, copy, stamp, ret, StampOf(stream));
    StreamLineCount(flags, stream, fmt, copy, stamp, ret, NewlineOf(stream));
    StreamLineCount(flags, stream, fmt, copy, stamp, ret, CopyMade);
    StreamLineCount(flags, stream, fmt, copy, stamp, ret, CopyReleased);
    LineShapeTally(flags, stream, fmt, copy, stamp, ret);
  }

  lemma LineShapeTally(flags: Flags, stream: Stream, fmt: string, copy: bool, stamp: Token, ret: int)
    ensures LineTally(flags, stream, fmt, copy, stamp, ret, LineTo(stream)) == 1
    ensures LineTally(flags, stream, fmt, copy, stamp, ret, Consumer) == 1
    ensures LineTally(flags, stream, fmt, copy, stamp, ret, UsesOriginal) == (if copy then 0 else 1)
    ensures LineTally(flags, stream, fmt, copy, stamp, ret, StampOf(stream)) == (if FlagSet(flags, FLAG_TIMESTAMP) then 1 else 0)
    ensures LineTally(flags, stream, fmt, copy, stamp, ret, NewlineOf(stream)) == (if ret >= 0 then 1 else 0)
    ensures LineTally(flags, stream, fmt, copy, stamp, ret, CopyMade) == (if copy then 1 else 0)
    ensures LineTally(flags, stream, fmt, copy, stamp, ret, CopyReleased) == (if copy then 1 else 0)
  {
  }

  /** With TIMESTAMP set the line starts with the timestamp, otherwise with the copy or the write. */
  lemma StampFirst(flags: Flags, stream: Stream, fmt: string, copy: bool, stamp: Token, ret: int)
    ensures var evs := StreamLine(flags, stream, fmt, copy, stamp, ret);
      |evs| > 0 && (evs[0] == Stamp(stream, stamp) <==> FlagSet(flags, FLAG_TIMESTAMP))
  {
    var rest := When(copy, CopyArgs(stream)) + When(true, Format(stream, fmt, if copy then Copy else Original))
      + When(ret >= 0, Newline(stream)) + When(copy, EndCopy(stream));
    var ts := When(FlagSet(flags, FLAG_TIMESTAMP), Stamp(stream, stamp));
    assert StreamLine(flags, stream, fmt, copy, stamp, ret) == ts + rest;
    if !FlagSet(flags, FLAG_TIMESTAMP) {
      assert (ts + rest)[0] == rest[0];
      if copy {
        assert rest[0] == CopyArgs(stream);
      } else {
        assert rest[0] == Format(stream, fmt, Original);
      }
    }
  }

  /** A stream-line event that goes to `s`. */
  predicate OnStream(e: Event, s: Stream) {
    (e.Stamp? || e.CopyArgs? || e.Format? || e.Newline? || e.EndCopy?) && e.stream == s
  }

  /** Every event of a stream line goes to its stream and formats `fmt`. */
  lemma StreamLineEvents(flags: Flags, stream: Stream, fmt: string, copy: bool, stamp: Token, ret: int)
    ensures forall e | e in StreamLine(flags, stream, fmt, copy, stamp, ret) ::
      OnStream(e, stream) && (e.Format? ==> e.fmt == fmt && (e.args == Copy <==> copy))
  {
  }

  // -------------------------------------------------------------- one call

  /** Whether a call at `level` passes the gate `level > max`. */
  predicate Passes(level: Level, max: Level) {
    Ordinal(level) <= Ordinal(max)
  }

  /** The file sink is dispatched to: the FILE bit is set and `_logfile` is not null. */
  predicate FileActive(c: Config) {
    FlagSet(c.flags, FLAG_FILE) && c.logfile.Some?
  }

  /** `need`: how many sinks consume the argument list. */
  function Need(c: Config): (n: nat)
    ensures n <= 3
    ensures n == 0 <==> !FlagSet(c.flags, FLAG_CONSOLE) && !FileActive(c) && !FlagSet(c.flags, FLAG_SYSLOG)
  {
    (if FlagSet(c.flags, FLAG_SYSLOG) then 1 else 0)
    + (if FlagSet(c.flags, FLAG_CONSOLE) then 1 else 0)
    + (if FileActive(c) then 1 else 0)
  }

  /** The number of stream sinks a call writes a line to. */
  function StreamSinks(c: Config): (n: nat)
    ensures n <= Need(c) && n <= 2
  {
    (if FlagSet(c.flags, FLAG_CONSOLE) then 1 else 0) + (if FileActive(c) then 1 else 0)
  }

  function ConsolePart(c: Config, fmt: string, env: CallEnv): seq<Event> {
    if FlagSet(c.flags, FLAG_CONSOLE)
    then StreamLine(c.flags, Stdout, fmt, Need(c) > 1, env.consoleStamp, env.consoleRet)
    else []
  }

  function FilePart(c: Config, fmt: string, env: CallEnv): seq<Event> {
    if FileActive(c)
    then StreamLine(c.flags, LogFile(c.logfile.value), fmt, Need(c) > 1, env.fileStamp, env.fileRet)
    else []
  }

  function SyslogPart(c: Config, fmt: string): seq<Event> {
    When(FlagSet(c.flags, FLAG_SYSLOG), Syslog(LOG_NOTICE, fmt, Original))
  }

  /** The events of `_logger(level, format, pargs)` in state `c`. */
  function CallEvents(c: Config, level: Level, fmt: string, env: CallEnv): seq<Event> {
    if !Passes(level, c.max) then []
    else ConsolePart(c, fmt, env) + FilePart(c, fmt, env) + SyslogPart(c, fmt)
  }

  function ConsoleTally(c: Config, fmt: string, env: CallEnv, p: Probe): nat {
    if FlagSet(c.flags, FLAG_CONSOLE)
    then LineTally(c.flags, Stdout, fmt, Need(c) > 1, env.consoleStamp, env.consoleRet, p) else 0
  }

  function FileTally(c: Config, fmt: string, env: CallEnv, p: Probe): nat {
    if FileActive(c)
    then LineTally(c.flags, LogFile(c.logfile.value), fmt, Need(c) > 1, env.fileStamp, env.fileRet, p) else 0
  }

  function SyslogTally(c: Config, fmt: string, p: Probe): nat {
    if FlagSet(c.flags, FLAG_SYSLOG) then CountOne(Syslog(LOG_NOTICE, fmt, Original), p) else 0
  }

  /** How many events of one call the probe `p` matches, sink by sink. */
  function CallTally(c: Config, level: Level, fmt: string, env: CallEnv, p: Probe): nat {
    if !Passes(level, c.max) then 0
    else ConsoleTally(c, fmt, env, p) + FileTally(c, fmt, env, p) + SyslogTally(c, fmt, p)
  }

  lemma ConsoleCount(c: Config, fmt: string, env: CallEnv, p: Probe)
    ensures Count(ConsolePart(c, fmt, env), p) == ConsoleTally(c, fmt, env, p)
  {
    if FlagSet(c.flags, FLAG_CONSOLE) {
      StreamLineCount(c.flags, Stdout, fmt, Need(c) > 1, env.consoleStamp, env.consoleRet, p);
    }
  }

  lemma FileCount(c: Config, fmt: string, env: CallEnv, p: Probe)
    ensures Count(FilePart(c, fmt, env), p) == FileTally(c, fmt, env, p)
  {
    if FileActive(c) {
      StreamLineCount(c.flags, LogFile(c.logfile.value), fmt, Need(c) > 1, env.fileStamp, env.fileRet, p);
    }
  }

  lemma CallCount(c: Config, level: Level, fmt: string, env: CallEnv, p: Probe)
    ensures Count(CallEvents(c, level, fmt, env), p) == CallTally(c, level, fmt, env, p)
  {
    if Passes(level, c.max) {
      ConsoleCount(c, fmt, env, p);
      FileCount(c, fmt, env, p);
      CountWhen(FlagSet(c.flags, FLAG_SYSLOG), Syslog(LOG_NOTICE, fmt, Original), p);
      CountAppend3(ConsolePart(c, fmt, env), FilePart(c, fmt, env), SyslogPart(c, fmt), p);
    }
  }

  // The values of CallTally for the probes the properties below are about.

  lemma SelectionTally(c: Config, level: Level, fmt: string, env: CallEnv)
    ensures CallTally(c, level, fmt, env, LineTo(Stdout)) == (if Passes(level, c.max) && FlagSet(c.flags, FLAG_CONSOLE) then 1 else 0)
    ensures CallTally(c, level, fmt, env, AnyFileLine) == (if Passes(level, c.max) && FileActive(c) then 1 else 0)
    ensures CallTally(c, level, fmt, env, Submission) == (if Passes(level, c.max) && FlagSet(c.flags, FLAG_SYSLOG) then 1 else 0)
  {
  }

  lemma ConsumerTally(c: Config, level: Level, fmt: string, env: CallEnv)
    ensures CallTally(c, level, fmt, env, Consumer) == (if Passes(level, c.max) then Need(c) else 0)
  {
  }

  lemma CopyTally(c: Config, level: Level, fmt: string, env: CallEnv)
    requires Passes(level, c.max)
    ensures CallTally(c, level, fmt, env, FormatFrom(Copy)) == (if Need(c) > 1 then StreamSinks(c) else 0)
    ensures CallTally(c, level, fmt, env, FormatFrom(Original)) == (if Need(c) > 1 then 0 else StreamSinks(c))
    ensures CallTally(c, level, fmt, env, NoticeFromOriginal) == CallTally(c, level, fmt, env, Submission)
  {
  }

  lemma OriginalTally(c: Config, level: Level, fmt: string, env: CallEnv)
    ensures CallTally(c, level, fmt, env, UsesOriginal) <= 1
  {
  }

  lemma ReleaseTally(c: Config, level: Level, fmt: string, env: CallEnv)
    ensures CallTally(c, level, fmt, env, CopyMade) == CallTally(c, level, fmt, env, CopyReleased)
  {
  }

  /** Initial state: threshold ERROR, no flags, no file; every call is silent. */
  lemma InitialIsSilent(level: Level, fmt: string, env: CallEnv)
    ensures Initial.max == Error && Initial.flags == 0 && Initial.logfile == None
    ensures CallEvents(Initial, level, fmt, env) == []
  {
    assert !FlagSet(0, FLAG_CONSOLE) && !FlagSet(0, FLAG_SYSLOG) && !FlagSet(0, FLAG_FILE);
  }

  /**
   * Level gate: a call above the threshold has no effect; one at or below it
   * produces output iff at least one sink is dispatched to.
   */
  lemma LevelGate(c: Config, level: Level, fmt: string, env: CallEnv)
    ensures Ordinal(level) > Ordinal(c.max) ==> CallEvents(c, level, fmt, env) == []
    ensures Ordinal(level) <= Ordinal(c.max) ==> (CallEvents(c, level, fmt, env) != [] <==> Need(c) > 0)
  {
    CallCount(c, level, fmt, env, Consumer);
    ConsumerTally(c, level, fmt, env);
  }

  /**
   * Sink selection: a call that passes the gate writes exactly one line to
   * the console iff CONSOLE is set, exactly one line to the file iff FILE is
   * set and the handle is not null, and one syslog submission iff SYSLOG is
   * set; a gated call writes none.
   */
  lemma SinkSelection(c: Config, level: Level, fmt: string, env: CallEnv)
    ensures var evs := CallEvents(c, level, fmt, env);
      && Count(evs, LineTo(Stdout)) == (if Passes(level, c.max) && FlagSet(c.flags, FLAG_CONSOLE) then 1 else 0)
      && Count(evs, AnyFileLine) == (if Passes(level, c.max) && FileActive(c) then 1 else 0)
      && Count(evs, Submission) == (if Passes(level, c.max) && FlagSet(c.flags, FLAG_SYSLOG) then 1 else 0)
  {
    CallCount(c, level, fmt, env, LineTo(Stdout));
    CallCount(c, level, fmt, env, AnyFileLine);
    CallCount(c, level, fmt, env, Submission);
    SelectionTally(c, level, fmt, env);
  }

  /** Rank of the sink an emit event belongs to: console, then file, then syslog. */
  function SinkRank(e: Event): nat {
    if e.Syslog? then 2
    else if (e.Stamp? || e.CopyArgs? || e.Format? || e.Newline? || e.EndCopy?) && e.stream.LogFile? then 1
    else 0
  }

  predicate SinkOrdered(evs: seq<Event>) {
    forall i, j :: 0 <= i < j < |evs| ==> SinkRank(evs[i]) <= SinkRank(evs[j])
  }

  /** The sinks of one call are served in the order console, file, syslog. */
  lemma SinkOrder(c: Config, level: Level, fmt: string, env: CallEnv)
    ensures SinkOrdered(CallEvents(c, level, fmt, env))
  {
    if Passes(level, c.max) {
      var a, b, s := ConsolePart(c, fmt, env), FilePart(c, fmt, env), SyslogPart(c, fmt);
      PartRanks(c, fmt, env);
      var evs := a + b + s;
      forall i, j | 0 <= i < j < |evs| ensures SinkRank(evs[i]) <= SinkRank(evs[j]) {
        RankAt(a, b, s, i);
        RankAt(a, b, s, j);
      }
    }
  }

  lemma PartRanks(c: Config, fmt: string, env: CallEnv)
    ensures forall e | e in ConsolePart(c, fmt, env) :: SinkRank(e) == 0
    ensures forall e | e in FilePart(c, fmt, env) :: SinkRank(e) == 1
    ensures forall e | e in SyslogPart(c, fmt) :: SinkRank(e) == 2
  {
    var copy := Need(c) > 1;
    if FlagSet(c.flags, FLAG_CONSOLE) {
      StreamLineEvents(c.flags, Stdout, fmt, copy, env.consoleStamp, env.consoleRet);
    }
    if FileActive(c) {
      StreamLineEvents(c.flags, LogFile(c.logfile.value), fmt, copy, env.fileStamp, env.fileRet);
    }
  }

  lemma RankAt(a: seq<Event>, b: seq<Event>, s: seq<Event>, i: nat)
    requires i < |a + b + s|
    requires forall e | e in a :: SinkRank(e) == 0
    requires forall e | e in b :: SinkRank(e) == 1
    requires forall e | e in s :: SinkRank(e) == 2
    ensures SinkRank((a + b + s)[i]) == if i < |a| then 0 else if i < |a| + |b| then 1 else 2
  {
    if i < |a| {
      assert (a + b + s)[i] == a[i];
    } else if i < |a| + |b| {
      assert (a + b + s)[i] == b[i - |a|];
    } else {
      assert (a + b + s)[i] == s[i - |a| - |b|];
    }
  }

  /**
   * Copy rule: `need` is the number of argument-list consumers of a call that
   * passes the gate; the stream lines format from copies iff `need > 1` and
   * from the caller's list otherwise; every syslog submission is at
   * LOG_NOTICE from the caller's list, whatever the level.
   */
  lemma CopyRule(c: Config, level: Level, fmt: string, env: CallEnv)
    requires Passes(level, c.max)
    ensures var evs := CallEvents(c, level, fmt, env);
      && Count(evs, Consumer) == Need(c)
      && Count(evs, FormatFrom(Copy)) == (if Need(c) > 1 then StreamSinks(c) else 0)
      && Count(evs, FormatFrom(Original)) == (if Need(c) > 1 then 0 else StreamSinks(c))
      && Count(evs, NoticeFromOriginal) == Count(evs, Submission)
  {
    CallCount(c, level, fmt, env, Consumer);
    CallCount(c, level, fmt, env, FormatFrom(Copy));
    CallCount(c, level, fmt, env, FormatFrom(Original));
    CallCount(c, level, fmt, env, NoticeFromOriginal);
    CallCount(c, level, fmt, env, Submission);
    ConsumerTally(c, level, fmt, env);
    CopyTally(c, level, fmt, env);
  }

  /**
   * The caller's single-use `va_list` is consumed without a copy at most once
   * per call, whatever the flags and the level.
   */
  lemma OriginalUsedAtMostOnce(c: Config, level: Level, fmt: string, env: CallEnv)
    ensures Count(CallEvents(c, level, fmt, env), UsesOriginal) <= 1
  {
    CallCount(c, level, fmt, env, UsesOriginal);
    OriginalTally(c, level, fmt, env);
  }

  /**
   * Within one stream line, once the caller's list has been consumed nothing
   * later copies it or consumes an argument list again.
   */
  lemma LineOriginalLast(flags: Flags, stream: Stream, fmt: string, copy: bool, stamp: Token, ret: int)
    ensures var evs := StreamLine(flags, stream, fmt, copy, stamp, ret);
      forall i, j :: 0 <= i < j < |evs| && Hits(evs[i], UsesOriginal) ==> !evs[j].CopyArgs? && !Hits(evs[j], Consumer)
  {
    var evs := StreamLine(flags, stream, fmt, copy, stamp, ret);
    if copy {
      StreamLineEvents(flags, stream, fmt, copy, stamp, ret);
      assert forall i | 0 <= i < |evs| :: !Hits(evs[i], UsesOriginal) by {
        forall i | 0 <= i < |evs| ensures !Hits(evs[i], UsesOriginal) {
          assert evs[i] in evs;
        }
      }
    } else {
      var ts := When(FlagSet(flags, FLAG_TIMESTAMP), Stamp(stream, stamp));
      var nl := When(ret >= 0, Newline(stream));
      assert evs == ts + [Format(stream, fmt, Original)] + nl;
      // the stamp comes before the write and the newline after it
      forall k | 0 <= k < |evs| && k != |ts| ensures evs[k].Stamp? || evs[k].Newline? {
        if k < |ts| {
          assert evs[k] == ts[k];
        } else {
          assert evs[k] == nl[k - |ts| - 1];
        }
      }
    }
  }

  /**
   * The caller's single-use `va_list` is consumed last: after the event that
   * consumes it directly, no event of the call makes a `va_copy` or consumes
   * an argument list, whatever the flags and the level.
   */
  lemma OriginalConsumedLast(c: Config, level: Level, fmt: string, env: CallEnv)
    ensures var evs := CallEvents(c, level, fmt, env);
      forall i, j :: 0 <= i < j < |evs| && Hits(evs[i], UsesOriginal) ==> !evs[j].CopyArgs? && !Hits(evs[j], Consumer)
  {
    if Passes(level, c.max) {
      var a, b, s := ConsolePart(c, fmt, env), FilePart(c, fmt, env), SyslogPart(c, fmt);
      var evs := a + b + s;
      if Need(c) > 1 {
        if FlagSet(c.flags, FLAG_CONSOLE) {
          StreamLineEvents(c.flags, Stdout, fmt, true, env.consoleStamp, env.consoleRet);
        }
        if FileActive(c) {
          StreamLineEvents(c.flags, LogFile(c.logfile.value), fmt, true, env.fileStamp, env.fileRet);
        }
        // only the syslog submission, the last event, uses the caller's list
        forall i | 0 <= i < |a| + |b| ensures !Hits(evs[i], UsesOriginal) {
          if i < |a| {
            assert evs[i] == a[i] && a[i] in a;
          } else {
            assert evs[i] == b[i - |a|] && b[i - |a|] in b;
          }
        }
      } else if FlagSet(c.flags, FLAG_CONSOLE) {
        assert evs == a;
        LineOriginalLast(c.flags, Stdout, fmt, false, env.consoleStamp, env.consoleRet);
      } else if FileActive(c) {
        assert evs == b;
        LineOriginalLast(c.flags, LogFile(c.logfile.value), fmt, false, env.fileStamp, env.fileRet);
      }
    }
  }

  /**
   * The file line of a call goes to the current `_logfile`: a call writes one
   * line to handle `h` iff it passes the gate, FILE is set and `_logfile` is `h`.
   */
  lemma FileLineToCurrentHandle(c: Config, level: Level, fmt: string, env: CallEnv, h: Handle)
    ensures Count(CallEvents(c, level, fmt, env), LineTo(LogFile(h)))
      == (if Passes(level, c.max) && FileActive(c) && c.logfile == Some(h) then 1 else 0)
  {
    CallCount(c, level, fmt, env, LineTo(LogFile(h)));
    HandleTally(c, level, fmt, env, h);
  }

  lemma HandleTally(c: Config, level: Level, fmt: string, env: CallEnv, h: Handle)
    ensures CallTally(c, level, fmt, env, LineTo(LogFile(h)))
      == (if Passes(level, c.max) && FileActive(c) && c.logfile == Some(h) then 1 else 0)
  {
  }

  /** Every `va_copy` made during a call is released during that call. */
  lemma CopiesReleased(c: Config, level: Level, fmt: string, env: CallEnv)
    ensures Count(CallEvents(c, level, fmt, env), CopyMade) == Count(CallEvents(c, level, fmt, env), CopyReleased)
  {
    CallCount(c, level, fmt, env, CopyMade);
    CallCount(c, level, fmt, env, CopyReleased);
    ReleaseTally(c, level, fmt, env);
  }

  /**
   * With console and file both dispatched to, every formatted write of the
   * call renders the same template from a copy of the arguments, so the two
   * streams get the same text (timestamps aside: each stream reads the clock
   * afresh).
   */
  lemma StreamsAgree(c: Config, level: Level, fmt: string, env: CallEnv)
    requires FlagSet(c.flags, FLAG_CONSOLE) && FileActive(c)
    ensures forall e | e in CallEvents(c, level, fmt, env) && e.Format? :: e.fmt == fmt && e.args == Copy
  {
    if Passes(level, c.max) {
      StreamLineEvents(c.flags, Stdout, fmt, true, env.consoleStamp, env.consoleRet);
      StreamLineEvents(c.flags, LogFile(c.logfile.value), fmt, true, env.fileStamp, env.fileRet);
    }
  }

  // ---------------------------------------------------------- configuration

  /** A transition of the process-wide state and the events it caused. */
  datatype Step = Step(after: Config, events: seq<Event>)

  /**
   * `log_open(name, file, flags)`: `fopenResult` is what `fopen` returns when a
   * path is given.
   */
  function OpenStep(c: Config, name: string, file: Option<string>, flags: Flags, fopenResult: Option<Handle>): Step {
    var registered := if FlagSet(flags, FLAG_SYSLOG) then [OpenLog(name, OPENLOG_OPTIONS, LOG_DAEMON)] else [];
    if file.None? then
      Step(c.(flags := flags), registered)
    else
      Step(c.(flags := flags, logfile := fopenResult, fileClosed := false),
           registered + [FOpen(file.value, "a")]
           + (if fopenResult.Some? then [SetLineBuffered(fopenResult.value)] else []))
  }

  /** `log_level(level)`. */
  function LevelStep(c: Config, level: Level): Config {
    c.(max := level)
  }

  /** `fclose` may be called on the handle: it is null or not yet closed. */
  predicate CloseSafe(c: Config) {
    c.logfile.Some? ==> !c.fileClosed
  }

  /** An emit at `level` never writes to a closed file. */
  predicate EmitSafe(c: Config, level: Level) {
    Passes(level, c.max) && FileActive(c) ==> !c.fileClosed
  }

  /** `log_close()`: nothing is reset; only the handle becomes closed. */
  function CloseStep(c: Config): Step
    requires CloseSafe(c)
  {
    Step(c.(fileClosed := c.fileClosed || c.logfile.Some?),
         (if FlagSet(c.flags, FLAG_SYSLOG) then [CloseLog] else [])
         + (if c.logfile.Some? then [FClose(c.logfile.value)] else []))
  }

  /** `log_reopen(name, file, flags)`: exactly `log_close` then `log_open`. */
  function ReopenStep(c: Config, name: string, file: Option<string>, flags: Flags, fopenResult: Option<Handle>): Step
    requires CloseSafe(c)
  {
    var closed := CloseStep(c);
    var reopened := OpenStep(closed.after, name, file, flags, fopenResult);
    Step(reopened.after, closed.events + reopened.events)
  }

  /** `log_level` replaces the threshold and nothing else. */
  lemma LevelOnlySetsMax(c: Config, level: Level)
    ensures LevelStep(c, level).max == level
    ensures LevelStep(c, level).flags == c.flags && LevelStep(c, level).logfile == c.logfile
    ensures LevelStep(c, level).fileClosed == c.fileClosed
  {
  }

  /**
   * `log_open` replaces the flags wholesale and keeps the threshold; it
   * registers with syslog iff the new flags contain SYSLOG; it calls `fopen`
   * iff a path is given, whatever the FILE bit; a failed open leaves the
   * handle null; without a path the old handle is kept.
   */
  lemma OpenEffects(c: Config, name: string, file: Option<string>, flags: Flags, fopenResult: Option<Handle>)
    ensures var st := OpenStep(c, name, file, flags, fopenResult);
      && st.after.flags == flags && st.after.max == c.max
      && (OpenLog(name, OPENLOG_OPTIONS, LOG_DAEMON) in st.events <==> FlagSet(flags, FLAG_SYSLOG))
      && ((exists i :: 0 <= i < |st.events| && st.events[i].FOpen?) <==> file.Some?)
      && (file.Some? ==> st.after.logfile == fopenResult && !st.after.fileClosed)
      && (file.None? ==> st.after.logfile == c.logfile && st.after.fileClosed == c.fileClosed)
      && (forall i :: 0 <= i < |st.events| ==> !st.events[i].FClose? && !st.events[i].CloseLog?)
  {
    var st := OpenStep(c, name, file, flags, fopenResult);
    if file.Some? {
      var k := if FlagSet(flags, FLAG_SYSLOG) then 1 else 0;
      assert st.events[k] == FOpen(file.value, "a");
    }
  }

  /**
   * `log_close` deregisters syslog iff the current flags contain SYSLOG and
   * closes the handle iff it is not null; flags, threshold and handle stay.
   */
  lemma CloseEffects(c: Config)
    requires CloseSafe(c)
    ensures var st := CloseStep(c);
      && st.after.flags == c.flags && st.after.max == c.max && st.after.logfile == c.logfile
      && (CloseLog in st.events <==> FlagSet(c.flags, FLAG_SYSLOG))
      && ((exists h :: FClose(h) in st.events) <==> c.logfile.Some?)
      && (c.logfile.Some? ==> FClose(c.logfile.value) in st.events && st.after.fileClosed)
  {
    var st := CloseStep(c);
    if c.logfile.Some? {
      assert st.events[|st.events| - 1] == FClose(c.logfile.value);
    }
  }

  /**
   * `log_close` is not idempotent: after a successful `log_open` with a path
   * and one `log_close`, the stale handle still looks open, so a second
   * `log_close` would `fclose` it again and an emit with FILE set would
   * write to it.
   */
  lemma CloseTwiceUsesClosedHandle(c: Config, name: string, path: string, flags: Flags, h: Handle, level: Level)
    requires Passes(level, c.max)
    ensures var live := OpenStep(c, name, Some(path), flags, Some(h)).after;
      && CloseSafe(live)
      && var closed := CloseStep(live).after;
      && closed.logfile == Some(h)
      && !CloseSafe(closed)
      && (FlagSet(flags, FLAG_FILE) ==> !EmitSafe(closed, level))
  {
  }

  /**
   * `log_open` opens the file even when FILE is not set: the handle is then
   * live while no call ever writes a line to it.
   */
  lemma HandleLiveWhileFileOff(c: Config, name: string, path: string, flags: Flags, h: Handle,
                               level: Level, fmt: string, env: CallEnv)
    requires !FlagSet(flags, FLAG_FILE)
    ensures var after := OpenStep(c, name, Some(path), flags, Some(h)).after;
      && after.logfile == Some(h)
      && Count(CallEvents(after, level, fmt, env), AnyFileLine) == 0
  {
    SinkSelection(OpenStep(c, name, Some(path), flags, Some(h)).after, level, fmt, env);
  }

  /**
   * Degraded mode: when `fopen` fails, `log_open` raises nothing, later calls
   * write no file line, and the console still gets its line when enabled.
   */
  lemma DegradedMode(c: Config, name: string, path: string, flags: Flags, level: Level, fmt: string, env: CallEnv)
    requires Passes(level, c.max)
    ensures var after := OpenStep(c, name, Some(path), flags, None).after;
      && after.logfile.None?
      && Count(CallEvents(after, level, fmt, env), AnyFileLine) == 0
      && Count(CallEvents(after, level, fmt, env), LineTo(Stdout)) == (if FlagSet(flags, FLAG_CONSOLE) then 1 else 0)
  {
    SinkSelection(OpenStep(c, name, Some(path), flags, None).after, level, fmt, env);
  }

  /**
   * An example: open with CONSOLE|FILE and a path that
   * opens, threshold WARN; a WARN call writes one line to each stream, both
   * from copies; a DEBUG call writes nothing.
   */
  lemma ConsoleAndFileExample(fmt: string, h: Handle, env: CallEnv)
    ensures var c := LevelStep(OpenStep(Initial, "svc", Some("/tmp/app.log"), FLAG_CONSOLE | FLAG_FILE, Some(h)).after, Warn);
      && Count(CallEvents(c, Warn, fmt, env), LineTo(Stdout)) == 1
      && Count(CallEvents(c, Warn, fmt, env), AnyFileLine) == 1
      && Count(CallEvents(c, Warn, fmt, env), Submission) == 0
      && Count(CallEvents(c, Warn, fmt, env), UsesOriginal) == 0
      && CallEvents(c, Debug, fmt, env) == []
  {
    var c := LevelStep(OpenStep(Initial, "svc", Some("/tmp/app.log"), FLAG_CONSOLE | FLAG_FILE, Some(h)).after, Warn);
    assert FlagSet(c.flags, FLAG_CONSOLE) && FlagSet(c.flags, FLAG_FILE);
    assert !FlagSet(c.flags, FLAG_SYSLOG) && !FlagSet(c.flags, FLAG_TIMESTAMP);
    CallCount(c, Warn, fmt, env, LineTo(Stdout));
    CallCount(c, Warn, fmt, env, AnyFileLine);
    CallCount(c, Warn, fmt, env, Submission);
    CallCount(c, Warn, fmt, env, UsesOriginal);
    SelectionTally(c, Warn, fmt, env);
    assert Need(c) == 2;
  }
}
