/**
 * The replay server (`ReplayServer` and its factory): it plays the server's
 * side of a capture back to a client. Replies are sent from the server queue,
 * each after its recorded delay scaled by `delayMod`, until a sync mark says that
 * the client talks next. Every chunk the client sends must equal the next
 * expected client message. The session succeeds when the server queue runs dry.
 *
 * What the handlers do to the outside world is recorded in the session: the
 * payloads written to the transport, the pauses requested from `time.sleep`,
 * whether the connection was dropped or the reactor stopped, the outcome lines
 * reported on standard error, and the exceptions raised. The wall clock is
 * `clock`: each event brings its reading, and each pause advances it.
 */
module ReplayEngine {
  import opened Common
  import opened Hex
  import opened CaptureLogger
  import opened CaptureLoader

  /** An exception a handler raises; the handler stops where it is raised. */
  datatype Fault =
    | UndecodableHex(hex: string)     // `decode('hex')` raises TypeError
    | NegativePause(seconds: real)    // `time.sleep` refuses a negative duration
    | NothingExpected                 // MITMException: data arrived, nothing was expected

  /** The outcome lines written to standard error. */
  datatype Report = Succeeded | Mismatch(expected: string, got: string) | PrematureEnd

  /** The protocol instance's fields plus what its handlers did to the outside world. */
  datatype Session = Session(
    sq: seq<ServerItem>, cq: seq<ClientItem>, delayMod: real, success: bool,
    log: LogState, clock: real,
    written: seq<seq<byte>>, pauses: seq<real>, hungUp: bool, stopped: bool,
    reports: seq<Report>, faults: seq<Fault>)

  /** `ReplayServerFactory`: the queues, the Logger and the delay modifier; not yet successful. */
  function Start(sq: seq<ServerItem>, cq: seq<ClientItem>, delayMod: real, log: LogState): (s: Session)
    ensures s.sq == sq && s.cq == cq && s.delayMod == delayMod && s.log == log && !s.success
    ensures s.written == [] && s.pauses == [] && s.reports == [] && s.faults == []
    ensures !s.hungUp && !s.stopped
  {
    Session(sq, cq, delayMod, false, log, 0.0, [], [], false, false, [], [])
  }

  /** `delay * delayMod`: the pause before a reply. */
  function Scale(delay: real, delayMod: real): real {
    delay * delayMod
  }

  /** The session after a reply has been logged, waited for and written. */
  function AfterReply(s: Session, lg: LogState, what: string, pause: real): Session
    requires s.sq != []
  {
    s.(sq := s.sq[1..], log := lg, clock := s.clock + pause, pauses := s.pauses + [pause],
       written := s.written + [Payload(what)])
  }

  /**
   * `sendNext`: take entries off the server queue. A reply is logged, waited
   * for and written; a sync mark ends the burst; an empty queue ends the
   * session successfully (the log is closed and the connection dropped).
   */
  function AfterSendNext(s: Session): (r: Session)
    decreases |s.sq|
  {
    if s.sq == [] then
      s.(success := true, log := AfterClose(s.log), hungUp := true, reports := s.reports + [Succeeded])
    else
      var s1 := s.(sq := s.sq[1..]);
      match s.sq[0]
      case SyncMark => s1
      case Reply(delay, what) =>
        match AfterLog(s.log, "server", what, s.clock)
        case None => s1.(faults := s.faults + [UndecodableHex(what)])
        case Some(lg) =>
          var pause := Scale(delay, s.delayMod);
          if pause < 0.0 then s1.(log := lg, faults := s.faults + [NegativePause(pause)])
          else AfterSendNext(AfterReply(s, lg, what, pause))
  }

  /** The session after one pass of `sendNext`'s loop, and whether the loop goes on. */
  datatype Passed = Passed(s: Session, more: bool)

  function Pass(s: Session): Passed {
    if s.sq == [] then
      Passed(s.(success := true, log := AfterClose(s.log), hungUp := true, reports := s.reports + [Succeeded]), false)
    else
      var s1 := s.(sq := s.sq[1..]);
      match s.sq[0]
      case SyncMark => Passed(s1, false)
      case Reply(delay, what) =>
        match AfterLog(s.log, "server", what, s.clock)
        case None => Passed(s1.(faults := s.faults + [UndecodableHex(what)]), false)
        case Some(lg) =>
          var pause := Scale(delay, s.delayMod);
          if pause < 0.0 then Passed(s1.(log := lg, faults := s.faults + [NegativePause(pause)]), false)
          else Passed(AfterReply(s, lg, what, pause), true)
  }

  /**
   * One pass either ends `sendNext` where `AfterSendNext` says, or shortens the
   * server queue without changing where `sendNext` ends.
   */
  lemma PassAdvances(s: Session)
    ensures var p := Pass(s);
      && (p.more ==> |p.s.sq| < |s.sq| && AfterSendNext(p.s) == AfterSendNext(s))
      && (!p.more ==> p.s == AfterSendNext(s))
  {
  }

  /** `connectionMade`: start sending. */
  function AfterConnect(s: Session, now: real): Session {
    AfterSendNext(s.(clock := now))
  }

  /** The session after the expected client message has arrived and been logged. */
  function AfterExpected(s: Session, lg: LogState, now: real): Session
    requires s.cq != []
  {
    s.(clock := now, cq := s.cq[1..], log := lg)
  }

  /**
   * `dataReceived`: compare the chunk's hex text with the next expected client
   * message. On a match the message is logged and the next burst is sent; on a
   * mismatch both are reported, the log is closed and the reactor stopped.
   * The report renders the expected text, which raises when it is not hex.
   */
  function AfterData(s: Session, data: seq<byte>, now: real): Session {
    var s0 := s.(clock := now);
    if s.cq == [] then s0.(faults := s.faults + [NothingExpected])
    else
      var expected, got := s.cq[0].hex, HexEncode(data);
      var s1 := s0.(cq := s.cq[1..]);
      if got == expected then
        match AfterLog(s.log, "client", expected, now)
        case None => s1.(faults := s.faults + [UndecodableHex(expected)])
        case Some(lg) => AfterSendNext(AfterExpected(s, lg, now))
      else if HexDecode(expected).None? then s1.(faults := s.faults + [UndecodableHex(expected)])
      else s1.(log := AfterClose(s.log), stopped := true, reports := s.reports + [Mismatch(expected, got)])
  }

  /** `connectionLost`: report a premature end unless the session succeeded; close the log; stop. */
  function AfterLost(s: Session, now: real): Session {
    s.(clock := now, log := AfterClose(s.log), stopped := true,
       reports := if s.success then s.reports else s.reports + [PrematureEnd])
  }

  /** What the reactor delivers to the protocol, each with the clock reading when it is delivered. */
  datatype Event = Connected(at: real) | Received(at: real, data: seq<byte>) | Disconnected(at: real)

  function Step(s: Session, e: Event): Session {
    match e
    case Connected(at) => AfterConnect(s, at)
    case Received(at, data) => AfterData(s, data, at)
    case Disconnected(at) => AfterLost(s, at)
  }

  /** A session driven through a series of events. */
  function Run(s: Session, events: seq<Event>): Session
    decreases |events|
  {
    if events == [] then s else Run(Step(s, events[0]), events[1..])
  }

  // ---- what the queues hold -------------------------------------------------

  /** The payload of hex text that decodes. */
  function Payload(hex: string): seq<byte> {
    match HexDecode(hex)
    case Some(bs) => bs
    case None => []
  }

  /** The payloads of the replies in a server queue, in order. */
  function Payloads(sq: seq<ServerItem>): seq<seq<byte>>
    decreases |sq|
  {
    if sq == [] then [] else (if sq[0].Reply? then [Payload(sq[0].hex)] else []) + Payloads(sq[1..])
  }

  /** The scaled delays of the replies in a server queue, in order. */
  function Pauses(sq: seq<ServerItem>, delayMod: real): seq<real>
    decreases |sq|
  {
    if sq == [] then [] else (if sq[0].Reply? then [Scale(sq[0].delay, delayMod)] else []) + Pauses(sq[1..], delayMod)
  }

  function SyncCount(sq: seq<ServerItem>): nat
    decreases |sq|
  {
    if sq == [] then 0 else (if sq[0].SyncMark? then 1 else 0) + SyncCount(sq[1..])
  }

  /** The index of the first sync mark in a queue that holds one; every item before it is a reply. */
  function FirstSync(sq: seq<ServerItem>): (k: nat)
    requires SyncCount(sq) > 0
    ensures k < |sq| && sq[k].SyncMark?
    ensures forall i :: 0 <= i < k ==> sq[i].Reply?
    decreases |sq|
  {
    if sq[0].SyncMark? then 0 else 1 + FirstSync(sq[1..])
  }

  /** Every reply decodes and has a pause `time.sleep` accepts. */
  predicate Sendable(sq: seq<ServerItem>, delayMod: real) {
    forall i :: 0 <= i < |sq| && sq[i].Reply? ==> HexDecode(sq[i].hex).Some? && Scale(sq[i].delay, delayMod) >= 0.0
  }

  /** Every expected message is text that `encode('hex')` can produce. */
  predicate Typeable(cq: seq<ClientItem>) {
    forall i :: 0 <= i < |cq| ==> IsLowerHex(cq[i].hex)
  }

  /** A record's direction tag and hex text, as the Logger writes them. */
  datatype Entry = Entry(who: string, hex: string)

  /** The tags and hex texts of some log records, in order. */
  function Entries(lines: seq<LogLine>): seq<Entry>
    decreases |lines|
  {
    if lines == [] then []
    else Entries(lines[..|lines| - 1]) + [Entry(lines[|lines| - 1].who, lines[|lines| - 1].hex)]
  }

  /** The records in the log file, or those on standard output. */
  function Sink(st: LogState, toFile: bool): seq<LogLine> {
    if toFile then st.fileLines else st.stdoutLines
  }

  /**
   * The records a full replay of the queues logs: a reply as a server record,
   * a sync mark as a record of the next expected client message.
   */
  function Transcript(sq: seq<ServerItem>, cq: seq<ClientItem>): seq<Entry>
    decreases |sq|
  {
    if sq == [] then []
    else match sq[0]
      case Reply(_, h) => [Entry("server", h)] + Transcript(sq[1..], cq)
      case SyncMark => if cq == [] then [] else [Entry("client", cq[0].hex)] + Transcript(sq[1..], cq[1..])
  }

  // ---- single handlers ------------------------------------------------------

  /** A logged record adds one entry to the sink it went to and leaves the other alone. */
  lemma LoggedEntry(st: LogState, who: string, what: string, now: real)
    requires HexDecode(what).Some?
    ensures var r := AfterLog(st, who, what, now).value;
      && r.fileOpen == st.fileOpen
      && Entries(Sink(r, st.fileOpen)) == Entries(Sink(st, st.fileOpen)) + [Entry(who, what)]
      && Sink(r, !st.fileOpen) == Sink(st, !st.fileOpen)
  {
    var r := AfterLog(st, who, what, now).value;
    LogAppendsOneRecord(st, who, what, now);
    var lines := Sink(r, st.fileOpen);
    assert lines[..|lines| - 1] == Sink(st, st.fileOpen);
  }

  /** A reply at the head of a sendable queue is sent, and sending goes on. */
  lemma SendNextReply(s: Session)
    requires s.sq != [] && s.sq[0].Reply? && Sendable(s.sq, s.delayMod)
    ensures var what, pause := s.sq[0].hex, Scale(s.sq[0].delay, s.delayMod);
      && AfterLog(s.log, "server", what, s.clock).Some?
      && AfterSendNext(s) == AfterSendNext(AfterReply(s, AfterLog(s.log, "server", what, s.clock).value, what, pause))
      && Sendable(s.sq[1..], s.delayMod)
  {
    SendableTail(s.sq, s.delayMod);
  }

  lemma SendableTail(sq: seq<ServerItem>, delayMod: real)
    requires sq != [] && Sendable(sq, delayMod)
    ensures Sendable(sq[1..], delayMod)
  {
    forall i | 0 <= i < |sq[1..]| && sq[1..][i].Reply?
      ensures HexDecode(sq[1..][i].hex).Some? && Scale(sq[1..][i].delay, delayMod) >= 0.0
    {
      assert sq[1..][i] == sq[i + 1];
    }
  }

  /**
   * `sendNext` on a sendable queue raises nothing and touches neither the
   * client queue, nor the reactor, nor the sink the log is not writing to.
   */
  lemma {:induction false} SendNextKeeps(s: Session)
    requires Sendable(s.sq, s.delayMod)
    ensures var r := AfterSendNext(s);
      && r.cq == s.cq && r.faults == s.faults && r.delayMod == s.delayMod && r.stopped == s.stopped
      && Sink(r.log, !s.log.fileOpen) == Sink(s.log, !s.log.fileOpen)
    decreases |s.sq|
  {
    if s.sq != [] && s.sq[0].Reply? {
      SendNextReply(s);
      LoggedEntry(s.log, "server", s.sq[0].hex, s.clock);
      SendNextKeeps(AfterReply(s, AfterLog(s.log, "server", s.sq[0].hex, s.clock).value,
                               s.sq[0].hex, Scale(s.sq[0].delay, s.delayMod)));
    }
  }

  /**
   * What `sendNext` writes and waits for: what has been written plus the
   * replies still queued stays the same, and likewise for the pauses.
   */
  lemma {:induction false} SendNextWrites(s: Session)
    requires Sendable(s.sq, s.delayMod)
    ensures var r := AfterSendNext(s);
      && r.written + Payloads(r.sq) == s.written + Payloads(s.sq)
      && r.pauses + Pauses(r.sq, s.delayMod) == s.pauses + Pauses(s.sq, s.delayMod)
      && Sendable(r.sq, s.delayMod)
    decreases |s.sq|
  {
    if s.sq != [] {
      SendableTail(s.sq, s.delayMod);
      if s.sq[0].Reply? {
        SendNextReply(s);
        var what, pause := s.sq[0].hex, Scale(s.sq[0].delay, s.delayMod);
        var s2 := AfterReply(s, AfterLog(s.log, "server", what, s.clock).value, what, pause);
        SendNextWrites(s2);
        assert Payloads(s.sq) == [Payload(what)] + Payloads(s.sq[1..]);
        assert Pauses(s.sq, s.delayMod) == [pause] + Pauses(s.sq[1..], s.delayMod);
        Associative(s.written, [Payload(what)], Payloads(s.sq[1..]));
        Associative(s.pauses, [pause], Pauses(s.sq[1..], s.delayMod));
      }
    }
  }

  /** With a sync mark queued, `sendNext` leaves exactly what follows the first one. */
  lemma {:induction false} SendNextSkipsToSync(s: Session)
    requires Sendable(s.sq, s.delayMod) && SyncCount(s.sq) > 0
    ensures AfterSendNext(s).sq == s.sq[FirstSync(s.sq) + 1..]
    decreases |s.sq|
  {
    if s.sq[0].Reply? {
      SendNextReply(s);
      var what := s.sq[0].hex;
      var s2 := AfterReply(s, AfterLog(s.log, "server", what, s.clock).value, what, Scale(s.sq[0].delay, s.delayMod));
      assert s2.sq == s.sq[1..];
      SendNextSkipsToSync(s2);
      assert s.sq[1..][FirstSync(s.sq[1..]) + 1..] == s.sq[FirstSync(s.sq) + 1..];
    }
  }

  /** Where `sendNext` stops, apart from which items it leaves in `sq`. */
  lemma {:induction false} SendNextEnds(s: Session)
    requires Sendable(s.sq, s.delayMod)
    ensures var r := AfterSendNext(s);
      && (SyncCount(s.sq) > 0 ==>
            && SyncCount(r.sq) == SyncCount(s.sq) - 1
            && r.success == s.success && r.hungUp == s.hungUp && r.reports == s.reports
            && r.log.fileOpen == s.log.fileOpen)
      && (SyncCount(s.sq) == 0 ==>
            && r.sq == [] && r.success && r.hungUp && r.reports == s.reports + [Succeeded]
            && !r.log.fileOpen)
    decreases |s.sq|
  {
    if s.sq != [] && s.sq[0].Reply? {
      SendNextReply(s);
      var what := s.sq[0].hex;
      LoggedEntry(s.log, "server", what, s.clock);
      SendNextEnds(AfterReply(s, AfterLog(s.log, "server", what, s.clock).value, what, Scale(s.sq[0].delay, s.delayMod)));
    }
  }

  /**
   * Where `sendNext` stops: just past the first sync mark, with the session
   * still open; or, with no sync mark queued, at the end of the queue, having
   * ended the session successfully, closed the log and dropped the connection.
   */
  lemma SendNextStops(s: Session)
    requires Sendable(s.sq, s.delayMod)
    ensures var r := AfterSendNext(s);
      && (SyncCount(s.sq) > 0 ==>
            && r.sq == s.sq[FirstSync(s.sq) + 1..]
            && SyncCount(r.sq) == SyncCount(s.sq) - 1
            && r.success == s.success && r.hungUp == s.hungUp && r.reports == s.reports
            && r.log.fileOpen == s.log.fileOpen)
      && (SyncCount(s.sq) == 0 ==>
            && r.sq == [] && r.success && r.hungUp && r.reports == s.reports + [Succeeded]
            && !r.log.fileOpen)
  {
    SendNextEnds(s);
    if SyncCount(s.sq) > 0 {
      SendNextSkipsToSync(s);
    }
  }

  /**
   * What `sendNext` logs: the records logged plus those a full replay of the
   * rest would log stay the same.
   */
  lemma {:induction false} SendNextLogs(s: Session)
    requires Sendable(s.sq, s.delayMod)
    requires SyncCount(s.sq) <= |s.cq|
    ensures var r, f := AfterSendNext(s), s.log.fileOpen;
      && r.cq == s.cq
      && (SyncCount(s.sq) > 0 ==>
            Entries(Sink(r.log, f)) + [Entry("client", s.cq[0].hex)] + Transcript(r.sq, s.cq[1..])
            == Entries(Sink(s.log, f)) + Transcript(s.sq, s.cq))
      && (SyncCount(s.sq) == 0 ==>
            Entries(Sink(r.log, f)) == Entries(Sink(s.log, f)) + Transcript(s.sq, s.cq))
    decreases |s.sq|
  {
    if s.sq != [] {
      var f := s.log.fileOpen;
      var e := Entries(Sink(s.log, f));
      match s.sq[0]
      case SyncMark =>
        var c, t := [Entry("client", s.cq[0].hex)], Transcript(s.sq[1..], s.cq[1..]);
        assert Transcript(s.sq, s.cq) == c + t;
        Associative(e, c, t);
      case Reply(delay, what) =>
        SendNextReply(s);
        LoggedEntry(s.log, "server", what, s.clock);
        var s2 := AfterReply(s, AfterLog(s.log, "server", what, s.clock).value, what, Scale(delay, s.delayMod));
        SendNextLogs(s2);
        var w, t := [Entry("server", what)], Transcript(s.sq[1..], s.cq);
        assert Transcript(s.sq, s.cq) == w + t;
        assert Entries(Sink(s2.log, f)) == e + w;
        Associative(e, w, t);
    }
  }

  /**
   * `sendNext` never consumes an expected client message, whatever the queue
   * holds, and never stops the reactor.
   */
  lemma {:induction false} SendNextLeavesClientQueue(s: Session)
    ensures var r := AfterSendNext(s);
      r.cq == s.cq && r.delayMod == s.delayMod && r.stopped == s.stopped && |r.sq| <= |s.sq|
    decreases |s.sq|
  {
    if s.sq != [] && s.sq[0].Reply? {
      var what, pause := s.sq[0].hex, Scale(s.sq[0].delay, s.delayMod);
      match AfterLog(s.log, "server", what, s.clock)
      case None =>
      case Some(lg) =>
        if pause >= 0.0 {
          SendNextLeavesClientQueue(AfterReply(s, lg, what, pause));
        }
    }
  }

  /**
   * A reply whose hex text does not decode raises inside `log`: the reply has
   * been taken off the queue, nothing is logged, written or waited for, and the
   * session does not succeed.
   */
  lemma UndecodableReplyFaults(s: Session)
    requires s.sq != [] && s.sq[0].Reply? && HexDecode(s.sq[0].hex).None?
    ensures var r := AfterSendNext(s);
      && r.faults == s.faults + [UndecodableHex(s.sq[0].hex)]
      && r.sq == s.sq[1..] && r.log == s.log && r.written == s.written && r.pauses == s.pauses
      && r.success == s.success && r.hungUp == s.hungUp
  {
  }

  /**
   * A reply whose scaled delay is negative raises inside `time.sleep`: the
   * reply has been logged but is not written, and sending stops.
   */
  lemma NegativePauseFaults(s: Session)
    requires s.sq != [] && s.sq[0].Reply? && HexDecode(s.sq[0].hex).Some?
    requires Scale(s.sq[0].delay, s.delayMod) < 0.0
    ensures var r := AfterSendNext(s);
      && r.faults == s.faults + [NegativePause(Scale(s.sq[0].delay, s.delayMod))]
      && r.sq == s.sq[1..] && r.written == s.written && r.pauses == s.pauses
      && r.log == AfterLog(s.log, "server", s.sq[0].hex, s.clock).value
      && r.success == s.success && r.hungUp == s.hungUp
  {
  }

  /** Data with no expected message left raises MITMException and changes nothing else. */
  lemma UnexpectedDataFaults(s: Session, data: seq<byte>, now: real)
    requires s.cq == []
    ensures AfterData(s, data, now) == s.(clock := now, faults := s.faults + [NothingExpected])
  {
  }

  /**
   * A chunk other than the expected message (whose text is hex) is reported
   * with both hex texts; the log is closed and the reactor stopped, and nothing
   * is written, sent or marked successful.
   */
  lemma MismatchStops(s: Session, data: seq<byte>, now: real)
    requires s.cq != [] && HexEncode(data) != s.cq[0].hex && HexDecode(s.cq[0].hex).Some?
    ensures var r := AfterData(s, data, now);
      && r.reports == s.reports + [Mismatch(s.cq[0].hex, HexEncode(data))]
      && r.stopped && !r.log.fileOpen && r.log.fileLines == s.log.fileLines && r.log.stdoutLines == s.log.stdoutLines
      && r.cq == s.cq[1..] && r.sq == s.sq && r.written == s.written && r.pauses == s.pauses
      && r.success == s.success && r.hungUp == s.hungUp && r.faults == s.faults
  {
  }

  /**
   * An expected message that is not lower-case hex can never be matched, since
   * `encode('hex')` only produces lower-case hex: whatever the client sends is
   * reported as a mismatch, or raises while the report is rendered.
   */
  lemma NonLowerHexNeverMatches(s: Session, data: seq<byte>, now: real)
    requires s.cq != [] && !IsLowerHex(s.cq[0].hex)
    ensures var r := AfterData(s, data, now);
      && r.written == s.written && r.sq == s.sq && r.success == s.success
      && (r.reports == s.reports + [Mismatch(s.cq[0].hex, HexEncode(data))]
          || r.faults == s.faults + [UndecodableHex(s.cq[0].hex)])
  {
    EncodeIsLowerHex(data);
  }

  /**
   * `connectionLost` reports a premature end exactly when the session has not
   * succeeded; either way the log is closed and the reactor stopped.
   */
  lemma LostReportsPrematureEnd(s: Session, now: real)
    ensures var r := AfterLost(s, now);
      && (r.reports == s.reports + [PrematureEnd] <==> !s.success)
      && (s.success ==> r.reports == s.reports)
      && r.stopped && !r.log.fileOpen && r.log.fileLines == s.log.fileLines
      && r.written == s.written && r.sq == s.sq && r.cq == s.cq && r.success == s.success
  {
  }

  // ---- a whole session --------------------------------------------------------

  /** The payload of each expected client message, in order. */
  function Expected(cq: seq<ClientItem>): (chunks: seq<seq<byte>>)
    ensures |chunks| == |cq|
    decreases |cq|
  {
    if cq == [] then [] else [Payload(cq[0].hex)] + Expected(cq[1..])
  }

  /** A client sending the given chunks, one per event, at the given clock readings. */
  function Sends(chunks: seq<seq<byte>>, ats: seq<real>): (events: seq<Event>)
    requires |ats| == |chunks|
    ensures |events| == |chunks|
    decreases |chunks|
  {
    if chunks == [] then [] else [Received(ats[0], chunks[0])] + Sends(chunks[1..], ats[1..])
  }

  /** The expected message at the head arrives and is logged; the next burst follows. */
  lemma DataMatches(s: Session, now: real)
    requires s.cq != [] && IsLowerHex(s.cq[0].hex)
    ensures var hex := s.cq[0].hex;
      && HexEncode(Payload(hex)) == hex
      && AfterLog(s.log, "client", hex, now).Some?
      && AfterData(s, Payload(hex), now) == AfterSendNext(AfterExpected(s, AfterLog(s.log, "client", hex, now).value, now))
  {
    EncodeDecode(s.cq[0].hex);
  }

  lemma TypeableTail(cq: seq<ClientItem>)
    requires cq != [] && Typeable(cq)
    ensures IsLowerHex(cq[0].hex) && Typeable(cq[1..])
  {
    forall i | 0 <= i < |cq[1..]| ensures IsLowerHex(cq[1..][i].hex) {
      assert cq[1..][i] == cq[i + 1];
    }
  }

  /**
   * A client that sends exactly the expected messages, each once the burst
   * before it has been sent, is served every queued reply, in order, with the
   * scaled delays; the session succeeds without a fault and its log holds the
   * transcript of the queues.
   */
  lemma {:induction false} ReplayRuns(s: Session, ats: seq<real>)
    requires Sendable(s.sq, s.delayMod) && Typeable(s.cq)
    requires SyncCount(s.sq) == |s.cq| == |ats|
    ensures var r, f := Run(AfterSendNext(s), Sends(Expected(s.cq), ats)), s.log.fileOpen;
      && r.written == s.written + Payloads(s.sq)
      && r.pauses == s.pauses + Pauses(s.sq, s.delayMod)
      && r.faults == s.faults && r.reports == s.reports + [Succeeded]
      && r.success && r.hungUp && r.stopped == s.stopped && r.sq == [] && r.cq == []
      && !r.log.fileOpen
      && Entries(Sink(r.log, f)) == Entries(Sink(s.log, f)) + Transcript(s.sq, s.cq)
      && Sink(r.log, !f) == Sink(s.log, !f)
    decreases |s.cq|
  {
    var m := AfterSendNext(s);
    SendNextKeeps(s);
    SendNextWrites(s);
    SendNextStops(s);
    SendNextLogs(s);
    if s.cq == [] {
      assert m.written + Payloads(m.sq) == m.written;
      assert m.pauses + Pauses(m.sq, s.delayMod) == m.pauses;
    } else {
      var hex, now := s.cq[0].hex, ats[0];
      TypeableTail(s.cq);
      DataMatches(m, now);
      LoggedEntry(m.log, "client", hex, now);
      var s2 := AfterExpected(m, AfterLog(m.log, "client", hex, now).value, now);
      var events := Sends(Expected(s.cq), ats);
      assert events[0] == Received(now, Payload(hex));
      assert events[1..] == Sends(Expected(s.cq[1..]), ats[1..]);
      assert Run(m, events) == Run(AfterSendNext(s2), events[1..]);
      ReplayRuns(s2, ats[1..]);
    }
  }

  // ---- replaying a capture ----------------------------------------------------

  lemma {:induction false} PayloadsAppend(a: seq<ServerItem>, b: seq<ServerItem>, delayMod: real)
    ensures Payloads(a + b) == Payloads(a) + Payloads(b)
    ensures Pauses(a + b, delayMod) == Pauses(a, delayMod) + Pauses(b, delayMod)
    ensures SyncCount(a + b) == SyncCount(a) + SyncCount(b)
    decreases |a|
  {
    if a == [] {
      assert a + b == b;
    } else {
      assert (a + b)[1..] == a[1..] + b;
      PayloadsAppend(a[1..], b, delayMod);
      assert (a + b)[0] == a[0];
      var p := if a[0].Reply? then [Payload(a[0].hex)] else [];
      assert Payloads(a + b) == p + Payloads(a[1..] + b);
      Associative(p, Payloads(a[1..]), Payloads(b));
      var q := if a[0].Reply? then [Scale(a[0].delay, delayMod)] else [];
      assert Pauses(a + b, delayMod) == q + Pauses(a[1..] + b, delayMod);
      Associative(q, Pauses(a[1..], delayMod), Pauses(b, delayMod));
      assert SyncCount(a + b) == (if a[0].SyncMark? then 1 else 0) + SyncCount(a[1..] + b);
    }
  }

  /** The snoc form of `PayloadsAppend`. */
  lemma PayloadsSnoc(sq: seq<ServerItem>, x: ServerItem, delayMod: real)
    ensures Payloads(sq + [x]) == Payloads(sq) + (if x.Reply? then [Payload(x.hex)] else [])
    ensures Pauses(sq + [x], delayMod) == Pauses(sq, delayMod) + (if x.Reply? then [Scale(x.delay, delayMod)] else [])
    ensures SyncCount(sq + [x]) == SyncCount(sq) + (if x.SyncMark? then 1 else 0)
  {
    PayloadsAppend(sq, [x], delayMod);
    assert [x][1..] == [];
  }

  lemma {:induction false} ExpectedAppend(cq: seq<ClientItem>, c: ClientItem)
    ensures Expected(cq + [c]) == Expected(cq) + [Payload(c.hex)]
    decreases |cq|
  {
    if cq != [] {
      assert (cq + [c])[1..] == cq[1..] + [c];
      ExpectedAppend(cq[1..], c);
      assert (cq + [c])[0] == cq[0];
      Associative([Payload(cq[0].hex)], Expected(cq[1..]), [Payload(c.hex)]);
    }
  }

  /** Appending to queues whose sync marks and expected messages pair up appends to the transcript. */
  lemma {:induction false} TranscriptAppend(sq: seq<ServerItem>, cq: seq<ClientItem>, x: ServerItem, c: ClientItem)
    requires SyncCount(sq) == |cq|
    ensures x.Reply? ==> Transcript(sq + [x], cq) == Transcript(sq, cq) + [Entry("server", x.hex)]
    ensures Transcript(sq + [SyncMark], cq + [c]) == Transcript(sq, cq) + [Entry("client", c.hex)]
    decreases |sq|
  {
    if sq == [] {
      assert [x][1..] == [] && [SyncMark][1..] == [];
      assert cq == [] && (cq + [c])[1..] == [];
    } else {
      assert (sq + [x])[1..] == sq[1..] + [x];
      assert (sq + [SyncMark])[1..] == sq[1..] + [SyncMark];
      assert (sq + [x])[0] == sq[0] && (sq + [SyncMark])[0] == sq[0];
      match sq[0]
      case Reply(_, h) =>
        TranscriptAppend(sq[1..], cq, x, c);
        if x.Reply? {
          Associative([Entry("server", h)], Transcript(sq[1..], cq), [Entry("server", x.hex)]);
        }
        Associative([Entry("server", h)], Transcript(sq[1..], cq), [Entry("client", c.hex)]);
      case SyncMark =>
        assert (cq + [c])[1..] == cq[1..] + [c] && (cq + [c])[0] == cq[0];
        TranscriptAppend(sq[1..], cq[1..], x, c);
        if x.Reply? {
          Associative([Entry("client", cq[0].hex)], Transcript(sq[1..], cq[1..]), [Entry("server", x.hex)]);
        }
        Associative([Entry("client", cq[0].hex)], Transcript(sq[1..], cq[1..]), [Entry("client", c.hex)]);
    }
  }

  /** The payloads of the server records, in file order. */
  function ServerPayloads(recs: seq<Record>): seq<seq<byte>>
    decreases |recs|
  {
    if recs == [] then []
    else
      var r := recs[|recs| - 1];
      ServerPayloads(recs[..|recs| - 1]) + (if r.who == Server then [Payload(r.hex)] else [])
  }

  /** The payloads of the client records, in file order. */
  function ClientPayloads(recs: seq<Record>): seq<seq<byte>>
    decreases |recs|
  {
    if recs == [] then []
    else
      var r := recs[|recs| - 1];
      ClientPayloads(recs[..|recs| - 1]) + (if r.who == Client then [Payload(r.hex)] else [])
  }

  /** The delays of the server records, scaled, in file order. */
  function ServerPauses(recs: seq<Record>, delayMod: real): seq<real>
    decreases |recs|
  {
    if recs == [] then []
    else
      var init, r := recs[..|recs| - 1], recs[|recs| - 1];
      ServerPauses(init, delayMod) + (if r.who == Server then [Scale(r.time - LastTime(init), delayMod)] else [])
  }

  /** The records as log entries: direction tag and hex text. */
  function RecordEntries(recs: seq<Record>): (entries: seq<Entry>)
    ensures |entries| == |recs|
  {
    seq(|recs|, i requires 0 <= i < |recs| => Entry(Tag(recs[i].who), recs[i].hex))
  }

  /**
   * Timestamps that never go below zero nor back in time, as a Logger whose
   * clock never goes back writes them (`CaptureLogger.ClockForwardLogInOrder`).
   */
  predicate Chronological(recs: seq<Record>) {
    && (forall i :: 0 <= i < |recs| ==> 0.0 <= recs[i].time)
    && (forall i, j :: 0 <= i < j < |recs| ==> recs[i].time <= recs[j].time)
  }

  /** Hex fields the replay can use: server payloads decode, client payloads are lower-case hex. */
  predicate HexFields(recs: seq<Record>) {
    forall i :: 0 <= i < |recs| ==>
      (recs[i].who == Server ==> HexDecode(recs[i].hex).Some?) && (recs[i].who == Client ==> IsLowerHex(recs[i].hex))
  }

  /**
   * Every server record's delay, scaled, is a pause `time.sleep` accepts:
   * exactly what the replay needs of the timestamps.
   */
  predicate PausesAccepted(recs: seq<Record>, delayMod: real) {
    forall i :: 0 <= i < |recs| && recs[i].who == Server ==> Scale(Delay(recs, i), delayMod) >= 0.0
  }

  /** Chronological timestamps give pauses `time.sleep` accepts, for any `delayMod` >= 0. */
  lemma ChronologicalPausesAccepted(recs: seq<Record>, delayMod: real)
    requires Chronological(recs) && delayMod >= 0.0
    ensures PausesAccepted(recs, delayMod)
  {
    forall i | 0 <= i < |recs| && recs[i].who == Server ensures Scale(Delay(recs, i), delayMod) >= 0.0 {
      var d := Delay(recs, i);
      assert d >= 0.0 by {
        if i > 0 { assert recs[..i][i - 1] == recs[i - 1]; }
      }
      assert d * delayMod >= 0.0;
    }
  }

  /** With `delayMod` 0 every pause is 0: any capture replays without sleeping, in file order. */
  lemma {:induction false} NoDelayPausesAccepted(recs: seq<Record>)
    ensures PausesAccepted(recs, 0.0)
    ensures forall i :: 0 <= i < |ServerPauses(recs, 0.0)| ==> ServerPauses(recs, 0.0)[i] == 0.0
    decreases |recs|
  {
    if recs != [] {
      NoDelayPausesAccepted(recs[..|recs| - 1]);
    }
  }

  /** What `PausesAccepted` says about a capture it says about its prefix and its last record. */
  lemma PausesInit(recs: seq<Record>, delayMod: real)
    requires recs != [] && PausesAccepted(recs, delayMod)
    ensures var init, r := recs[..|recs| - 1], recs[|recs| - 1];
      PausesAccepted(init, delayMod) && (r.who == Server ==> Scale(r.time - LastTime(init), delayMod) >= 0.0)
  {
    var init := recs[..|recs| - 1];
    forall i | 0 <= i < |init| && init[i].who == Server ensures Scale(Delay(init, i), delayMod) >= 0.0 {
      assert init[i] == recs[i] && init[..i] == recs[..i];
    }
    assert Delay(recs, |init|) == recs[|init|].time - LastTime(init);
  }

  /** What `HexFields` says about a capture it says about its prefix and its last record. */
  lemma HexFieldsInit(recs: seq<Record>)
    requires recs != [] && HexFields(recs)
    ensures var init, r := recs[..|recs| - 1], recs[|recs| - 1];
      HexFields(init) && (r.who == Server ==> HexDecode(r.hex).Some?) && (r.who == Client ==> IsLowerHex(r.hex))
  {
    var init := recs[..|recs| - 1];
    assert forall i :: 0 <= i < |init| ==> init[i] == recs[i];
  }

  lemma SendableSnoc(sq: seq<ServerItem>, x: ServerItem, delayMod: real)
    requires Sendable(sq, delayMod)
    requires x.Reply? ==> HexDecode(x.hex).Some? && Scale(x.delay, delayMod) >= 0.0
    ensures Sendable(sq + [x], delayMod)
  {
    forall i | 0 <= i < |sq + [x]| && (sq + [x])[i].Reply?
      ensures HexDecode((sq + [x])[i].hex).Some? && Scale((sq + [x])[i].delay, delayMod) >= 0.0
    {
      if i < |sq| { assert (sq + [x])[i] == sq[i]; }
    }
  }

  lemma TypeableSnoc(cq: seq<ClientItem>, c: ClientItem)
    requires Typeable(cq) && IsLowerHex(c.hex)
    ensures Typeable(cq + [c])
  {
    forall i | 0 <= i < |cq + [c]| ensures IsLowerHex((cq + [c])[i].hex) {
      if i < |cq| { assert (cq + [c])[i] == cq[i]; }
    }
  }

  /** Every reply a capture queues decodes and has a pause `time.sleep` accepts. */
  lemma {:induction false} CaptureSendable(recs: seq<Record>, delayMod: real)
    requires PausesAccepted(recs, delayMod) && HexFields(recs)
    ensures Sendable(ServerQueue(recs), delayMod)
    decreases |recs|
  {
    if recs != [] {
      var init, r := recs[..|recs| - 1], recs[|recs| - 1];
      PausesInit(recs, delayMod);
      HexFieldsInit(recs);
      CaptureSendable(init, delayMod);
      assert recs == init + [r];
      QueuesGrow(init, r);
      var x := if r.who == Server then Reply(r.time - LastTime(init), r.hex) else SyncMark;
      SendableSnoc(ServerQueue(init), x, delayMod);
    }
  }

  /** Every message a capture expects from the client is lower-case hex. */
  lemma {:induction false} CaptureTypeable(recs: seq<Record>)
    requires HexFields(recs)
    ensures Typeable(ClientQueue(recs))
    decreases |recs|
  {
    if recs != [] {
      var init, r := recs[..|recs| - 1], recs[|recs| - 1];
      HexFieldsInit(recs);
      CaptureTypeable(init);
      assert recs == init + [r];
      QueuesGrow(init, r);
      if r.who == Client {
        TypeableSnoc(ClientQueue(init), Expect(r.time - LastTime(init), r.hex));
      }
    }
  }

  /** The queues of a capture whose pauses `time.sleep` accepts and whose hex is usable can be replayed. */
  lemma CaptureReplayable(recs: seq<Record>, delayMod: real)
    requires PausesAccepted(recs, delayMod) && HexFields(recs)
    ensures Sendable(ServerQueue(recs), delayMod) && Typeable(ClientQueue(recs))
  {
    CaptureSendable(recs, delayMod);
    CaptureTypeable(recs);
  }

  /** The queues of a capture pair up: one sync mark per expected client message. */
  lemma {:induction false} CaptureSyncs(recs: seq<Record>)
    ensures SyncCount(ServerQueue(recs)) == |ClientQueue(recs)|
    decreases |recs|
  {
    if recs != [] {
      var init, r := recs[..|recs| - 1], recs[|recs| - 1];
      CaptureSyncs(init);
      var x := if r.who == Server then Reply(r.time - LastTime(init), r.hex) else SyncMark;
      PayloadsSnoc(ServerQueue(init), x, 0.0);
    }
  }

  /** The replies of a capture's server queue are the server records' payloads and scaled delays. */
  lemma {:induction false} CaptureReplies(recs: seq<Record>, delayMod: real)
    ensures Payloads(ServerQueue(recs)) == ServerPayloads(recs)
    ensures Pauses(ServerQueue(recs), delayMod) == ServerPauses(recs, delayMod)
    decreases |recs|
  {
    if recs != [] {
      var init, r := recs[..|recs| - 1], recs[|recs| - 1];
      CaptureReplies(init, delayMod);
      var sq := ServerQueue(init);
      var x := if r.who == Server then Reply(r.time - LastTime(init), r.hex) else SyncMark;
      assert ServerQueue(recs) == sq + [x];
      PayloadsSnoc(sq, x, delayMod);
      assert Payloads(ServerQueue(recs)) == ServerPayloads(init) + (if r.who == Server then [Payload(r.hex)] else []);
      assert Pauses(ServerQueue(recs), delayMod) ==
        ServerPauses(init, delayMod) + (if r.who == Server then [Scale(r.time - LastTime(init), delayMod)] else []);
    }
  }

  /** The expected messages of a capture's client queue are the client records' payloads. */
  lemma {:induction false} CaptureExpected(recs: seq<Record>)
    ensures Expected(ClientQueue(recs)) == ClientPayloads(recs)
    decreases |recs|
  {
    if recs != [] {
      var init, r := recs[..|recs| - 1], recs[|recs| - 1];
      CaptureExpected(init);
      if r.who == Client {
        ExpectedAppend(ClientQueue(init), Expect(r.time - LastTime(init), r.hex));
      } else {
        assert ClientQueue(recs) == ClientQueue(init);
        assert ClientPayloads(recs) == ClientPayloads(init) + [];
      }
    }
  }

  lemma RecordEntriesSnoc(recs: seq<Record>)
    requires recs != []
    ensures RecordEntries(recs) ==
      RecordEntries(recs[..|recs| - 1]) + [Entry(Tag(recs[|recs| - 1].who), recs[|recs| - 1].hex)]
  {
  }

  /** A full replay of a capture's queues logs the capture's records, in order. */
  lemma {:induction false} CaptureTranscript(recs: seq<Record>)
    ensures Transcript(ServerQueue(recs), ClientQueue(recs)) == RecordEntries(recs)
    decreases |recs|
  {
    if recs != [] {
      var init, r := recs[..|recs| - 1], recs[|recs| - 1];
      CaptureTranscript(init);
      CaptureSyncs(init);
      RecordEntriesSnoc(recs);
      var delay := r.time - LastTime(init);
      if r.who == Server {
        TranscriptAppend(ServerQueue(init), ClientQueue(init), Reply(delay, r.hex), Expect(delay, r.hex));
      } else {
        TranscriptAppend(ServerQueue(init), ClientQueue(init), SyncMark, Expect(delay, r.hex));
      }
    }
  }

  /**
   * Replaying a capture that loads without error, to a client that sends
   * exactly the recorded client payloads in turn: the server writes exactly the
   * recorded server payloads, in order, each after its recorded delay scaled by
   * `delayMod`; the session succeeds with no exception and no other report;
   * the connection is dropped, the reactor is not stopped, and the Logger has
   * logged every record of the capture, in order, in the sink it was writing
   * to, then closed its file.
   */
  lemma ReplayOfCapture(lines: seq<string>, delayMod: real, log: LogState, start: real, ats: seq<real>)
    requires ParseCapture(lines).error.None?
    requires PausesAccepted(ParseCapture(lines).records, delayMod) && HexFields(ParseCapture(lines).records)
    requires |ats| == |ClientPayloads(ParseCapture(lines).records)|
    ensures var recs := ParseCapture(lines).records;
      var s := Run(Start(ServerQueue(recs), ClientQueue(recs), delayMod, log),
                   [Connected(start)] + Sends(ClientPayloads(recs), ats));
      && s.written == ServerPayloads(recs)
      && s.pauses == ServerPauses(recs, delayMod)
      && s.success && s.reports == [Succeeded] && s.faults == []
      && s.hungUp && !s.stopped
      && !s.log.fileOpen
      && Entries(Sink(s.log, log.fileOpen)) == Entries(Sink(log, log.fileOpen)) + RecordEntries(recs)
      && Sink(s.log, !log.fileOpen) == Sink(log, !log.fileOpen)
  {
    var recs := ParseCapture(lines).records;
    CaptureReplayable(recs, delayMod);
    CaptureSyncs(recs);
    CaptureReplies(recs, delayMod);
    CaptureExpected(recs);
    CaptureTranscript(recs);
    var s0 := Start(ServerQueue(recs), ClientQueue(recs), delayMod, log);
    var events := [Connected(start)] + Sends(ClientPayloads(recs), ats);
    assert events[0] == Connected(start) && events[1..] == Sends(ClientPayloads(recs), ats);
    assert Run(s0, events) == Run(AfterSendNext(s0.(clock := start)), events[1..]);
    ReplayRuns(s0.(clock := start), ats);
  }

  // ---- the protocol object ----------------------------------------------------

  /**
   * The `ReplayServer` protocol instance. Its handlers change its fields, and
   * those of its Logger, as `AfterConnect`, `AfterSendNext`, `AfterData` and
   * `AfterLost` say. Besides the source's fields (`sq`, `cq`, `delayMod`,
   * `success`, `log`) it keeps the traces of what it did to the outside world.
   */
  class ReplayServer {
    const log: Logger
    var sq: seq<ServerItem>
    var cq: seq<ClientItem>
    var delayMod: real
    var success: bool
    var clock: real
    var written: seq<seq<byte>>
    var pauses: seq<real>
    var hungUp: bool
    var stopped: bool
    var reports: seq<Report>
    var faults: seq<Fault>

    function State(): Session
      reads this, log
    {
      Session(sq, cq, delayMod, success, log.State(), clock, written, pauses, hungUp, stopped, reports, faults)
    }

    /** `ReplayServerFactory`: hands the queues, the Logger and the delay modifier to the protocol. */
    constructor (log: Logger, sq: seq<ServerItem>, cq: seq<ClientItem>, delayMod: real)
      ensures this.log == log
      ensures State() == Start(sq, cq, delayMod, log.State())
    {
      this.log := log;
      this.sq, this.cq, this.delayMod, success := sq, cq, delayMod, false;
      clock := 0.0;
      written, pauses, hungUp, stopped, reports, faults := [], [], false, false, [], [];
    }

    method ConnectionMade(now: real)
      modifies this, log
      ensures State() == AfterConnect(old(State()), now)
    {
      clock := now;
      SendNext();
    }

    /** `sendNext`: its loop runs one `SendHead` pass after another until one says to stop. */
    method SendNext()
      modifies this, log
      ensures State() == AfterSendNext(old(State()))
    {
      ghost var target := AfterSendNext(State());
      var more := true;
      while more
        invariant more ==> AfterSendNext(State()) == target
        invariant !more ==> State() == target
        decreases if more then |sq| + 1 else 0
      {
        ghost var before := State();
        PassAdvances(before);
        more := SendHead();
      }
    }

    /**
     * One pass of `sendNext`'s loop: take the head of the server queue. A reply
     * is logged, waited for and written, and the loop goes on (`more`); a sync
     * mark, an empty queue (success) or an exception ends it.
     */
    method SendHead() returns (more: bool)
      modifies this, log
      ensures Passed(State(), more) == Pass(old(State()))
    {
      if sq == [] {
        success := true;
        log.CloseLog();
        hungUp := true;
        reports := reports + [Succeeded];
        return false;
      }
      if sq[0].SyncMark? {
        sq := sq[1..];
        return false;
      }
      more := SendReply(sq[0].delay, sq[0].hex);
    }

    /** The same pass when the head of the server queue is a reply. */
    method SendReply(delay: real, what: string) returns (more: bool)
      requires sq != [] && sq[0] == Reply(delay, what)
      modifies this, log
      ensures Passed(State(), more) == Pass(old(State()))
    {
      ghost var before := State();
      sq := sq[1..];
      var ok := log.Log("server", what, clock);
      if !ok {
        faults := faults + [UndecodableHex(what)];
        return false;
      }
      var pause := Scale(delay, delayMod);
      if pause < 0.0 {
        faults := faults + [NegativePause(pause)];
        return false;
      }
      clock := clock + pause;
      pauses := pauses + [pause];
      written := written + [Payload(what)];
      assert State() == AfterReply(before, AfterLog(before.log, "server", what, before.clock).value, what, pause);
      return true;
    }

    method DataReceived(data: seq<byte>, now: real)
      modifies this, log
      ensures State() == AfterData(old(State()), data, now)
    {
      ghost var before := State();
      clock := now;
      if cq == [] {
        faults := faults + [NothingExpected];
        return;
      }
      var expected := cq[0].hex;
      var got := HexEncode(data);
      cq := cq[1..];
      if got == expected {
        var ok := log.Log("client", expected, now);
        if !ok {
          faults := faults + [UndecodableHex(expected)];
          return;
        }
        assert State() == AfterExpected(before, AfterLog(before.log, "client", expected, now).value, now);
        SendNext();
      } else {
        if HexDecode(expected).None? {
          faults := faults + [UndecodableHex(expected)];
          return;
        }
        log.CloseLog();
        stopped := true;
        reports := reports + [Mismatch(expected, got)];
      }
    }

    method ConnectionLost(now: real)
      modifies this, log
      ensures State() == AfterLost(old(State()), now)
    {
      clock := now;
      if !success {
        reports := reports + [PrematureEnd];
      }
      log.CloseLog();
      stopped := true;
    }
  }
}
