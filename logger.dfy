/**
 * The Logger: one tab-separated record per observed message, written to the
 * log file when one is open and to standard output otherwise. Timestamps are
 * relative to the first call of `log`. The wall clock is a parameter (`now`)
 * of each call; the fixed-point rendering of a timestamp is not modelled, so a
 * record is kept as a value and its text form takes the timestamp's text as an
 * argument.
 */
module CaptureLogger {
  import opened Common
  import opened Hex
  import Printable

  /** One record: timestamp, direction tag, hex payload and printable rendering. */
  datatype LogLine = LogLine(timestamp: real, who: string, hex: string, plain: string)

  /**
   * The Logger's fields (`_startTime`, whether `_logFile` is set) together with
   * what has been written to the log file and to standard output.
   */
  datatype LogState = LogState(startTime: Option<real>, fileOpen: bool,
                               fileLines: seq<LogLine>, stdoutLines: seq<LogLine>)

  /** A Logger as constructed: no start time latched, no file. */
  const Fresh := LogState(None, false, [], [])

  /** `openLog`: a new file opened for writing (truncated); later records go there. */
  function AfterOpen(st: LogState): (r: LogState)
    ensures r.fileOpen && r.fileLines == []
    ensures r.startTime == st.startTime && r.stdoutLines == st.stdoutLines
  {
    st.(fileOpen := true, fileLines := [])
  }

  /** `closeLog`: the file, if any, is released; what was written stays written. */
  function AfterClose(st: LogState): (r: LogState)
    ensures !r.fileOpen
    ensures r.startTime == st.startTime
    ensures r.fileLines == st.fileLines && r.stdoutLines == st.stdoutLines
  {
    st.(fileOpen := false)
  }

  /**
   * `log(who, what)` with `what` the hex text of the payload. None where the
   * hex text does not decode (Python raises TypeError before writing or
   * latching anything).
   */
  function AfterLog(st: LogState, who: string, what: string, now: real): (r: Option<LogState>)
    ensures r.Some? <==> HexDecode(what).Some?
  {
    match HexDecode(what)
    case None => None
    case Some(payload) =>
      var start := if st.startTime.None? then now else st.startTime.value;
      var line := LogLine(now - start, who, what, Printable.Render(payload));
      var st' := st.(startTime := Some(start));
      if st.fileOpen then Some(st'.(fileLines := st.fileLines + [line]))
      else Some(st'.(stdoutLines := st.stdoutLines + [line]))
  }

  /** The text of one record; `tsText` stands for the rendering of the timestamp. */
  function FormatRecord(tsText: string, who: string, hex: string, plain: string): (line: string)
    ensures |line| > 0 && line[|line| - 1] == '\n'
  {
    tsText + "\t" + who + "\t" + "0x" + hex + "\t" + "#" + plain + "\n"
  }

  /**
   * A successful `log` call appends exactly one record, to the file when one is
   * open and to standard output otherwise, and leaves the other sink alone. The
   * record carries the given tag and hex text, the rendering of the decoded
   * payload, and the time since the first call (zero on the first call).
   */
  lemma LogAppendsOneRecord(st: LogState, who: string, what: string, now: real)
    requires HexDecode(what).Some?
    ensures var r := AfterLog(st, who, what, now).value;
      var start := if st.startTime.None? then now else st.startTime.value;
      var line := LogLine(now - start, who, what, Printable.Render(HexDecode(what).value));
      && r.startTime == Some(start)
      && r.fileOpen == st.fileOpen
      && (st.fileOpen ==> r.fileLines == st.fileLines + [line] && r.stdoutLines == st.stdoutLines)
      && (!st.fileOpen ==> r.stdoutLines == st.stdoutLines + [line] && r.fileLines == st.fileLines)
      && (st.startTime.None? ==> line.timestamp == 0.0)
  {
  }

  /** `closeLog` is idempotent and safe on a Logger that never opened a file. */
  lemma CloseLogIdempotent(st: LogState)
    ensures AfterClose(AfterClose(st)) == AfterClose(st)
    ensures !st.fileOpen ==> AfterClose(st) == st
  {
  }

  /** After `closeLog`, further records go to standard output. */
  lemma LogAfterCloseGoesToStdout(st: LogState, who: string, what: string, now: real)
    requires HexDecode(what).Some?
    ensures AfterLog(AfterClose(st), who, what, now).value.fileLines == st.fileLines
    ensures var start := if st.startTime.None? then now else st.startTime.value;
      AfterLog(AfterClose(st), who, what, now).value.stdoutLines ==
        st.stdoutLines + [LogLine(now - start, who, what, Printable.Render(HexDecode(what).value))]
  {
  }

  /** One call of a series of `log` calls, at a given clock reading. */
  datatype LogCall = LogCall(who: string, what: string, at: real)

  /** The Logger's state after a series of calls, None once a call raises. */
  function AfterCalls(st: LogState, calls: seq<LogCall>): Option<LogState>
    decreases |calls|
  {
    if calls == [] then Some(st)
    else match AfterLog(st, calls[0].who, calls[0].what, calls[0].at)
      case None => None
      case Some(st') => AfterCalls(st', calls[1..])
  }

  /** The same calls, each made `delta` seconds later on the wall clock. */
  function Shifted(calls: seq<LogCall>, delta: real): (r: seq<LogCall>)
    ensures |r| == |calls|
  {
    seq(|calls|, i requires 0 <= i < |calls| => calls[i].(at := calls[i].at + delta))
  }

  /** What the Logger has written, to the file and to standard output. */
  function Written(o: Option<LogState>): Option<(seq<LogLine>, seq<LogLine>)>
  {
    match o
    case None => None
    case Some(st) => Some((st.fileLines, st.stdoutLines))
  }

  /** The relation between two Loggers fed the same calls, one `delta` seconds later. */
  predicate ShiftedState(a: LogState, b: LogState, delta: real) {
    && a.fileOpen == b.fileOpen && a.fileLines == b.fileLines && a.stdoutLines == b.stdoutLines
    && a.startTime.Some? == b.startTime.Some?
    && (a.startTime.Some? ==> b.startTime.value == a.startTime.value + delta)
  }

  lemma {:induction false} ShiftedCalls(a: LogState, b: LogState, calls: seq<LogCall>, delta: real)
    requires ShiftedState(a, b, delta)
    ensures Written(AfterCalls(a, calls)) == Written(AfterCalls(b, Shifted(calls, delta)))
    decreases |calls|
  {
    if calls != [] {
      var c := calls[0];
      var d := Shifted(calls, delta);
      assert d[0] == c.(at := c.at + delta);
      assert d[1..] == Shifted(calls[1..], delta);
      match AfterLog(a, c.who, c.what, c.at)
      case None =>
      case Some(a') =>
        var b' := AfterLog(b, c.who, c.what, c.at + delta).value;
        assert ShiftedState(a', b', delta);
        ShiftedCalls(a', b', calls[1..], delta);
    }
  }

  /**
   * Timestamp relativity: two Loggers started at different wall-clock times on
   * identical traffic write identical records.
   */
  lemma TimestampsAreRelative(st: LogState, calls: seq<LogCall>, delta: real)
    requires st.startTime.None?
    ensures Written(AfterCalls(st, calls)) == Written(AfterCalls(st, Shifted(calls, delta)))
  {
    ShiftedCalls(st, st, calls, delta);
  }

  /** Records whose timestamps are never negative and never go back. */
  predicate InOrder(lines: seq<LogLine>) {
    && (forall i :: 0 <= i < |lines| ==> 0.0 <= lines[i].timestamp)
    && (forall i, j :: 0 <= i < j < |lines| ==> lines[i].timestamp <= lines[j].timestamp)
  }

  /** Records `InOrder` and none later than `bound`. */
  predicate InOrderUpTo(lines: seq<LogLine>, bound: real) {
    InOrder(lines) && forall i :: 0 <= i < |lines| ==> lines[i].timestamp <= bound
  }

  /**
   * A Logger whose clock has read `now`: nothing written before the start time
   * is latched, and afterwards both sinks are in order and no later than `now`.
   */
  predicate ClockedBy(st: LogState, now: real) {
    match st.startTime
    case None => st.fileLines == [] && st.stdoutLines == []
    case Some(start) => start <= now && InOrderUpTo(st.fileLines, now - start) && InOrderUpTo(st.stdoutLines, now - start)
  }

  /** Calls whose clock readings never go back and none is before `now`. */
  predicate ClockForward(calls: seq<LogCall>, now: real) {
    && (forall i :: 0 <= i < |calls| ==> now <= calls[i].at)
    && (forall i, j :: 0 <= i < j < |calls| ==> calls[i].at <= calls[j].at)
  }

  lemma InOrderSnoc(lines: seq<LogLine>, bound: real, line: LogLine)
    requires InOrderUpTo(lines, bound) && bound <= line.timestamp && 0.0 <= line.timestamp
    ensures InOrderUpTo(lines + [line], line.timestamp)
  {
  }

  lemma InOrderWeaken(lines: seq<LogLine>, bound: real, later: real)
    requires InOrderUpTo(lines, bound) && bound <= later
    ensures InOrderUpTo(lines, later)
  {
  }

  /** One `log` call at a clock reading no earlier than the last keeps the Logger clocked. */
  lemma LogKeepsClocked(st: LogState, who: string, what: string, now: real, at: real)
    requires ClockedBy(st, now) && now <= at && AfterLog(st, who, what, at).Some?
    ensures ClockedBy(AfterLog(st, who, what, at).value, at)
  {
    var r := AfterLog(st, who, what, at).value;
    var start := if st.startTime.None? then at else st.startTime.value;
    var line := LogLine(at - start, who, what, Printable.Render(HexDecode(what).value));
    LogAppendsOneRecord(st, who, what, at);
    assert r.startTime == Some(start);
    if st.fileOpen {
      assert r.fileLines == st.fileLines + [line] && r.stdoutLines == st.stdoutLines;
      InOrderSnoc(st.fileLines, now - start, line);
      InOrderWeaken(st.stdoutLines, now - start, at - start);
    } else {
      assert r.stdoutLines == st.stdoutLines + [line] && r.fileLines == st.fileLines;
      InOrderSnoc(st.stdoutLines, now - start, line);
      InOrderWeaken(st.fileLines, now - start, at - start);
    }
  }

  lemma {:induction false} ClockedCalls(st: LogState, calls: seq<LogCall>, now: real)
    requires ClockedBy(st, now) && ClockForward(calls, now)
    ensures AfterCalls(st, calls).Some? ==>
      InOrder(AfterCalls(st, calls).value.fileLines) && InOrder(AfterCalls(st, calls).value.stdoutLines)
    decreases |calls|
  {
    if calls != [] {
      var c := calls[0];
      match AfterLog(st, c.who, c.what, c.at)
      case None =>
      case Some(st') =>
        LogKeepsClocked(st, c.who, c.what, now, c.at);
        assert ClockForward(calls[1..], c.at) by {
          forall i | 0 <= i < |calls[1..]| ensures c.at <= calls[1..][i].at {
            assert calls[1..][i] == calls[i + 1];
          }
          forall i, j | 0 <= i < j < |calls[1..]| ensures calls[1..][i].at <= calls[1..][j].at {
            assert calls[1..][i] == calls[i + 1] && calls[1..][j] == calls[j + 1];
          }
        }
        ClockedCalls(st', calls[1..], c.at);
    }
  }

  /**
   * With a clock that never goes back, a new Logger writes timestamps that are
   * never negative and never go back, in the file and on standard output.
   */
  lemma ClockForwardLogInOrder(calls: seq<LogCall>)
    requires forall i, j :: 0 <= i < j < |calls| ==> calls[i].at <= calls[j].at
    ensures AfterCalls(Fresh, calls).Some? ==>
      InOrder(AfterCalls(Fresh, calls).value.fileLines) && InOrder(AfterCalls(Fresh, calls).value.stdoutLines)
  {
    if calls != [] {
      ClockedCalls(Fresh, calls, calls[0].at);
    }
  }

  /** A wall clock that steps back between two calls gives the second record a negative timestamp. */
  lemma ClockStepBackGoesNegative(first: string, second: string)
    requires HexDecode(first).Some? && HexDecode(second).Some?
    ensures var st := AfterLog(Fresh, "server", first, 10.0).value;
      AfterLog(st, "client", second, 5.0).value.stdoutLines[1].timestamp == -5.0
  {
    LogAppendsOneRecord(Fresh, "server", first, 10.0);
    LogAppendsOneRecord(AfterLog(Fresh, "server", first, 10.0).value, "client", second, 5.0);
  }

  /** The Logger object; its methods change its fields as `AfterOpen`, `AfterClose` and `AfterLog` say. */
  class Logger {
    var startTime: Option<real>
    var fileOpen: bool
    var fileLines: seq<LogLine>
    var stdoutLines: seq<LogLine>

    function State(): LogState
      reads this
    {
      LogState(startTime, fileOpen, fileLines, stdoutLines)
    }

    constructor ()
      ensures State() == Fresh
    {
      startTime := None;
      fileOpen := false;
      fileLines := [];
      stdoutLines := [];
    }

    method OpenLog()
      modifies this
      ensures State() == AfterOpen(old(State()))
    {
      fileOpen := true;
      fileLines := [];
    }

    method CloseLog()
      modifies this
      ensures State() == AfterClose(old(State()))
    {
      if fileOpen {
        fileOpen := false;
      }
    }

    method Log(who: string, what: string, now: real) returns (ok: bool)
      modifies this
      ensures ok <==> HexDecode(what).Some?
      ensures ok ==> State() == AfterLog(old(State()), who, what, now).value
      ensures !ok ==> State() == old(State())
    {
      var payload := HexDecode(what);
      if payload.None? {
        return false;
      }
      var plain := Printable.Render(payload.value);
      if startTime.None? {
        startTime := Some(now);
      }
      var line := LogLine(now - startTime.value, who, what, plain);
      if fileOpen {
        fileLines := fileLines + [line];
      } else {
        stdoutLines := stdoutLines + [line];
      }
      ok := true;
    }
  }
}
