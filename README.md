# mitmproxy capture and replay, modelled in Dafny

This project models the core of `lib/mitmproxy.py`, a Twisted-based
man-in-the-middle proxy for telnet-like protocols. It has two halves.

- **Recording.** A relay (`ProxyProtocol` with its two legs, `ProxyServer` and
  `ProxyClient`) passes traffic between a real client and a real server through
  two `DeferredQueue`s. Each leg logs what it receives through a `Logger`, one
  tab-separated record per message:
  `timestamp \t who \t 0x<hex> \t #<printable>`.
- **Replay.** `LogReader` reads such a capture back into two queues:
  - a server-reply queue `sq` of `[delay, hex]` entries, with a `None` sync mark
    for each client record;
  - an expected-client queue `cq`.

  `ReplayServer` then plays the server's part against a client. It sends the
  replies of each burst, waits for the next expected client message, compares
  it, and succeeds once `sq` is empty.

The headline theorem is `ReplayEngine.ReplayOfCapture`. The capture must load
without error, and its hex fields must be usable. Each server record's delay,
scaled by `delayMod`, must be a pause `time.sleep` accepts. That is exactly
what the replay needs of the timestamps. A capture whose timestamps go back
can still meet it. With a clock that never goes back, the Logger writes
timestamps that are never negative and never go back
(`CaptureLogger.ClockForwardLogInOrder`). `ChronologicalPausesAccepted` shows
that such timestamps meet the condition for any `delayMod` of at least 0, and
`NoDelayPausesAccepted` that with `delayMod` 0 every pause is 0, so every
capture meets it. A wall
clock that steps back makes the Logger write a negative timestamp
(`CaptureLogger.ClockStepBackGoesNegative`). If the client then sends exactly the recorded client payloads, one
chunk each, the server writes exactly the recorded server payloads, in file
order. It waits the recorded delays, scaled. The session ends with `success`,
with no exception and no other report. The log records each record's
direction and hex again, in order; the timestamps are those of the replay.

This holds for captures that start with either side:
- a capture that opens with a client record puts a sync mark first, so nothing
  is sent on connect;
- a capture that opens with a server record sends its first burst at once.

Files, one module each:
- `common.dfy`: bytes, `Option`, `Result`.
- `hex.dfy`: `encode('hex')` / `decode('hex')`.
- `printable.dfy`: the `filter` table.
- `logger.dfy`: `Logger` (module CaptureLogger).
- `loader.dfy`: `LogReader` (module CaptureLoader).
- `replay.dfy`: `ReplayServer` and its factory (module ReplayEngine).
- `relay.dfy`: `ProxyProtocol`, the two legs, their factories and the queues (module RelayEngine).

Each handler is modelled twice:
- a pure function of the old state, such as `AfterSendNext`, `AfterData` or `AfterPut`;
- a method of a class (`Logger`, `ReplayServer`, `Relay`) whose fields change
  as that function says.

The source's `while True` loop in `sendNext` and the callback chain a
`DeferredQueue` runs synchronously each become a `while` loop, and the `for`
loop in `LogReader` a `for` loop; each is proved against its function. The properties are lemmas about the
functions.

Outside effects are kept as traces in the state:
- what was written to a transport;
- the requested `time.sleep` pauses;
- `loseConnection` and `reactor.stop`, on both the replay server and the relay;
- the messages sent to stderr that matter, and exceptions raised.

An exception stops the handler at the point where it is raised. The state keeps
what was done up to that point, plus a fault entry. The wall clock is a
parameter (`now`) of each handler.

Decisions where the source leaves something open:
- **Relay wiring.** The relay's wiring is taken from the usage example in
  `connectToServer`'s docstring. The `ProxyClientFactory` is built with the
  client leg's `tx` as `sq` and its `rx` as `cq`. So the server leg reads what
  the client leg puts, and the reverse.
- **DeferredQueue semantics.** Twisted's `DeferredQueue` is modelled with its
  documented behaviour, since its source is not part of this model:
  - `put` fires the oldest waiting `get`, if there is one;
  - `get` is answered at once when something is pending;
  - callbacks run synchronously.
- **Timestamps.** Timestamps are exact reals. `float()` of a timestamp field is
  an exact decimal parser (`IntegerTimestamp`, `DecimalTimestamp` and
  `SignedTimestamp` give its values), so the delay subtraction in the source is
  exact here.

## Model

| member | source | states |
|---|---|---|
| Printable.RenderChars | lib/mitmproxy.py:77-78 | The printable rendering has one character per payload byte. Bytes 0x20..0x7e are kept and every other byte becomes '.'. |
| Printable.Render | lib/mitmproxy.py:113 | `translate(filter)` gives exactly one character per payload byte. |
| Printable.FilterTableEntry | lib/mitmproxy.py:77-78 | Entry x of the 256-entry table built from `string.printable[:-5]` is chr(x) if x is visible ASCII or space, and '.' otherwise. |
| Printable.KeptCharsAreVisible | lib/mitmproxy.py:77-78 | A character is in `string.printable[:-5]` if and only if it is in 0x20..0x7e. Tab, newline, CR, VT and FF are dropped; space is kept. |
| Printable.RenderHasNoSeparators | lib/mitmproxy.py:113 | A rendering never contains a tab or a newline, so it cannot break the record layout. |
| Hex.HexDecode | lib/mitmproxy.py:113 | `decode('hex')` succeeds exactly on even-length text of hex digits, in either case. |
| Hex.HexEncode | lib/mitmproxy.py:166 | `encode('hex')` writes two digits per byte. |
| Hex.DecodeEncode | lib/mitmproxy.py:166 | Decoding the hex encoding of a payload gives the payload back. |
| Hex.EncodeDecode | lib/mitmproxy.py:312-316 | Lower-case hex text decodes and re-encodes to itself. |
| Hex.EncodeIsLowerHex | lib/mitmproxy.py:313 | `encode('hex')` only produces lower-case hex. |
| Hex.EncodeInjective | lib/mitmproxy.py:313-315 | Two chunks have the same hex text only if they are equal, so comparing hex texts compares payloads. |
| CaptureLogger.AfterLog | lib/mitmproxy.py:108-123 | `log` succeeds exactly when the hex text decodes. Otherwise it raises before writing or latching anything. |
| CaptureLogger.LogAppendsOneRecord | lib/mitmproxy.py:108-123 | A successful `log` latches the start time on the first call and appends one record to the file if one is open, or to stdout otherwise. The record carries the tag, the hex, the rendering of the payload and the time since the first call (zero on the first call). The other sink is untouched. |
| CaptureLogger.FormatRecord | lib/mitmproxy.py:120-123 | A record line ends in a newline. |
| CaptureLogger.AfterOpen | lib/mitmproxy.py:93-98 | `openLog` truncates the file and directs later records there. |
| CaptureLogger.AfterClose | lib/mitmproxy.py:100-106 | `closeLog` releases the file and keeps everything written so far. |
| CaptureLogger.CloseLogIdempotent | lib/mitmproxy.py:100-106 | `closeLog` is idempotent, and does nothing on a Logger that never opened a file. |
| CaptureLogger.LogAfterCloseGoesToStdout | lib/mitmproxy.py:100-106 | After `closeLog`, the file keeps its records and a record goes to stdout: the one `log` writes, with its tag, hex, rendering and time since the first call. |
| CaptureLogger.TimestampsAreRelative | lib/mitmproxy.py:115-118 | Two fresh Loggers fed the same calls, one shifted in wall-clock time, write identical records. |
| CaptureLogger.ClockForwardLogInOrder | lib/mitmproxy.py:115-118 | With a clock that never goes back, a new Logger writes timestamps that are never negative and never go back, both in the file and on stdout. |
| CaptureLogger.LogKeepsClocked | lib/mitmproxy.py:115-118 | One `log` call at a reading no earlier than the last keeps both sinks in order and none of their timestamps past the new reading. |
| CaptureLogger.ClockStepBackGoesNegative | lib/mitmproxy.py:115-118 | A wall clock that reads 10 on the first call and 5 on the second gives the second record the timestamp -5. |
| CaptureLogger.Logger.constructor | lib/mitmproxy.py:89-91 | A new Logger has no start time and no file. |
| CaptureLogger.Logger.OpenLog | lib/mitmproxy.py:93-98 | The fields change as `AfterOpen` says. |
| CaptureLogger.Logger.CloseLog | lib/mitmproxy.py:100-106 | The fields change as `AfterClose` says. |
| CaptureLogger.Logger.Log | lib/mitmproxy.py:108-129 | It returns ok exactly when the hex decodes. On success the fields change as `AfterLog` says; otherwise nothing changes. |
| CaptureLoader.RStripNewlines | lib/mitmproxy.py:365 | `rstrip('\n')` never lengthens the text and leaves no trailing newline. |
| CaptureLoader.SplitTabs | lib/mitmproxy.py:365 | `split('\t')` gives at least one field, and no field holds a tab. |
| CaptureLoader.TimestampText | lib/mitmproxy.py:377 | `float` accepts only text with at least one digit, made of digits and dots after an optional leading sign. |
| CaptureLoader.IntegerTimestamp | lib/mitmproxy.py:377 | `float` of a non-empty run of digits is the number the digits denote. |
| CaptureLoader.DecimalTimestamp | lib/mitmproxy.py:377 | `float` of digits, a dot and digits (not both runs empty) is the integer part plus the fraction digits divided by ten once per fraction digit. So text of the shape `%0.10f` writes, digits, a dot and ten digits, reads back as its decimal value. |
| CaptureLoader.SignedTimestamp | lib/mitmproxy.py:377 | A leading `-` negates the value of the unsigned text after it, and a leading `+` keeps it. |
| CaptureLoader.TimestampExample | lib/mitmproxy.py:377 | "0.05" reads back as exactly 0.05. |
| CaptureLoader.ParseLine | lib/mitmproxy.py:365-392 | A line is accepted only as four fields whose first is the record's timestamp, whose second is its direction tag and whose third, without its first two characters, is its hex. It is rejected in the source's order: a field count other than four, then a timestamp `float` refuses, then a direction other than `client` or `server`, each error carrying the offending count or text. |
| CaptureLoader.ParseCapture | lib/mitmproxy.py:360-392 | Without a rejection there is one record per line; with one, the rejection names the line just past the records accepted. |
| CaptureLoader.RStripNewlinesLayout | lib/mitmproxy.py:365 | `rstrip('\n')` removes exactly the run of trailing newlines. |
| CaptureLoader.SplitThenJoin | lib/mitmproxy.py:365 | `split('\t')` gives tab-free fields that join back to the text. |
| CaptureLoader.JoinThenSplit | lib/mitmproxy.py:365 | Splitting tab-free fields joined by tabs gives the fields back. |
| CaptureLoader.FormattedRecordParses | lib/mitmproxy.py:365-378 | A line in the Logger's format parses back to its timestamp, direction and hex text, with the `0x` removed. |
| CaptureLoader.FieldCountRejected | lib/mitmproxy.py:365 | A line with other than four tab fields is rejected with its field count, with or without a trailing newline. |
| CaptureLoader.ForeignDirectionRejected | lib/mitmproxy.py:365-392 | Any four-field line with a timestamp `float` accepts and a direction other than `client` or `server` is rejected under that direction, whatever its hex and comment fields hold, with or without a trailing newline. |
| CaptureLoader.FourFieldsParse | lib/mitmproxy.py:365-386 | Any four-field line with a timestamp `float` accepts and direction `client` or `server` is accepted, whatever its hex and comment fields hold. The record has the third field with its first two characters dropped. |
| CaptureLoader.BadTimestampRejected | lib/mitmproxy.py:365-377 | A four-field line whose timestamp `float` rejects is rejected with that text. |
| CaptureLoader.CaptureRecords | lib/mitmproxy.py:359-392 | The capture's records are its lines' parses, in file order. Loading fails exactly when some line is rejected, and then at the first such line with that line's reason. |
| CaptureLoader.ServerQueueAt | lib/mitmproxy.py:380-388 | `sq` has one entry per record, in file order. A server record gives a reply with its delay and hex; a client record gives a sync mark. |
| CaptureLoader.ServerQueue | lib/mitmproxy.py:377-388 | `sq` gets exactly one entry per record. |
| CaptureLoader.ClientQueueAt | lib/mitmproxy.py:385-390 | Each client record's entry in `cq` holds its delay and hex, right after the entries of the client records before it. |
| CaptureLoader.ClientQueue | lib/mitmproxy.py:377-390 | `cq` gets at most one entry per record. |
| CaptureLoader.ClientQueuePrefix | lib/mitmproxy.py:385-390 | `cq` only grows as records are read. |
| CaptureLoader.QueueExample | lib/mitmproxy.py:380-390 | Records S A, S B, C X, S D give `sq = [A, B, None, D]` and `cq = [X]`, each entry with its delay. |
| CaptureLoader.DelaysTelescope | lib/mitmproxy.py:361-378 | The delays of both queues sum to the last record's timestamp, since the first delay is measured from 0. |
| CaptureLoader.QueuesGrow | lib/mitmproxy.py:377-390 | Each accepted record appends its entries to the queues and moves `lastTime` to its timestamp. |
| CaptureLoader.ReadPrefixQueues | lib/mitmproxy.py:360-392 | Reading line by line builds exactly the queues of the records parsed so far, and stops at the same rejection. |
| CaptureLoader.ReadStops | lib/mitmproxy.py:391-392 | After a rejected line, no later line changes the loader's state. |
| CaptureLoader.Absorb | lib/mitmproxy.py:377-390 | One pass of the loop body for an accepted record moves the state as the specification of reading does. |
| CaptureLoader.LoadCapture | lib/mitmproxy.py:359-392 | The loop builds the server and client queues of the parsed capture and reports its first rejection. On a rejection the queues keep what the earlier lines put there. |
| ReplayEngine.Start | lib/mitmproxy.py:340-349 | The factory hands over the queues, the Logger and the delay modifier, with `success` False and nothing done yet. |
| ReplayEngine.SendNextKeeps | lib/mitmproxy.py:265-298 | `sendNext` on a sendable queue raises nothing and leaves `cq`, the reactor and the other log sink unchanged. |
| ReplayEngine.SendNextWrites | lib/mitmproxy.py:276-298 | `sendNext` keeps two sums constant: written payloads plus queued reply payloads, and requested pauses plus queued scaled delays. So it writes the replies in queue order, each after its delay × delayMod. |
| ReplayEngine.SendNextStops | lib/mitmproxy.py:276-291 | `sendNext` stops just past the first sync mark, leaving `sq` as what follows it and one sync mark fewer, with `success`, the connection and the log unchanged. With no sync mark queued, it empties `sq`, sets `success`, closes the log and drops the connection. |
| ReplayEngine.SendNextSkipsToSync | lib/mitmproxy.py:276-291 | With a sync mark queued, `sendNext` leaves in `sq` exactly what follows the first sync mark. |
| ReplayEngine.SendNextLogs | lib/mitmproxy.py:293-294 | The records `sendNext` logs, followed by those the rest of a full replay would log, stay the same. |
| ReplayEngine.SendNextLeavesClientQueue | lib/mitmproxy.py:265-298 | Whatever `sq` holds, `sendNext` never touches `cq` or the reactor, and never grows `sq`. |
| ReplayEngine.PassAdvances | lib/mitmproxy.py:276-298 | One pass of the loop either ends `sendNext` where `AfterSendNext` says, or shortens `sq` without changing where `sendNext` ends. |
| ReplayEngine.UndecodableReplyFaults | lib/mitmproxy.py:282-294 | A reply whose hex does not decode raises in `log`. It has been taken off `sq`, and nothing is logged, written or waited for. |
| ReplayEngine.NegativePauseFaults | lib/mitmproxy.py:294-298 | A reply with a negative scaled delay raises in `time.sleep` after being logged, and is not written. |
| ReplayEngine.UnexpectedDataFaults | lib/mitmproxy.py:307-310 | Data with `cq` empty raises MITMException and changes nothing else. |
| ReplayEngine.DataMatches | lib/mitmproxy.py:312-317 | A chunk whose hex equals the expected hex is logged as `client`, and `sendNext` follows. |
| ReplayEngine.MismatchStops | lib/mitmproxy.py:318-326 | A mismatch reports both hex texts, closes the log and stops the reactor. Nothing more is written, and `success` stays as it was. |
| ReplayEngine.NonLowerHexNeverMatches | lib/mitmproxy.py:312-323 | An expected message that is not lower-case hex never matches. It is reported as a mismatch, or raises while the report is rendered. |
| ReplayEngine.LostReportsPrematureEnd | lib/mitmproxy.py:328-337 | `connectionLost` reports a premature end exactly when the session has not succeeded. It always closes the log and stops the reactor. |
| ReplayEngine.ReplayRuns | lib/mitmproxy.py:261-317 | Start from sendable queues that pair up, and send the expected payloads in turn. The session ends with all replies written in order, `success`, a single success report and no fault. It has logged the whole transcript. |
| ReplayEngine.CaptureReplayable | lib/mitmproxy.py:377-390 | A capture whose server records' scaled delays are all pauses `time.sleep` accepts, and whose hex is usable, gives queues that replay without a fault. |
| ReplayEngine.ChronologicalPausesAccepted | lib/mitmproxy.py:377-378 | Timestamps that never go below zero nor back in time, with `delayMod` at least 0, give only pauses `time.sleep` accepts. |
| ReplayEngine.NoDelayPausesAccepted | lib/mitmproxy.py:294-298 | With `delayMod` 0 every pause a capture asks for is exactly 0, so it replays without sleeping, and every pause is accepted. |
| ReplayEngine.CaptureSyncs | lib/mitmproxy.py:385-390 | A capture's `sq` holds exactly one sync mark per `cq` entry. |
| ReplayEngine.CaptureReplies | lib/mitmproxy.py:380-382 | The replies in `sq` are the server records' payloads and scaled delays, in file order. |
| ReplayEngine.CaptureExpected | lib/mitmproxy.py:385-390 | The entries in `cq` are the client records' payloads, in file order. |
| ReplayEngine.CaptureTranscript | lib/mitmproxy.py:380-390 | A full replay of a capture's queues logs the capture's records, in order. |
| ReplayEngine.ReplayOfCapture | lib/mitmproxy.py:261-392 | The round trip: replaying a loaded capture to a client that sends the recorded client payloads writes exactly the recorded server payloads, in order. It waits the scaled recorded delays and ends in `success` with no fault. The log records each record's direction and hex again, in order. |
| ReplayEngine.ReplayServer.constructor | lib/mitmproxy.py:340-349 | The protocol instance's state is `Start`. |
| ReplayEngine.ReplayServer.ConnectionMade | lib/mitmproxy.py:261-263 | The fields change as `AfterConnect` says. |
| ReplayEngine.ReplayServer.SendNext | lib/mitmproxy.py:265-298 | The `while` loop leaves the fields as `AfterSendNext` says. |
| ReplayEngine.ReplayServer.SendHead | lib/mitmproxy.py:276-298 | One pass of the loop changes the fields, and says whether the loop goes on, as `Pass` says. |
| ReplayEngine.ReplayServer.SendReply | lib/mitmproxy.py:282-298 | A pass whose queue head is a reply logs it, waits and writes it, or stops at the exception that `log` or `time.sleep` raises, as `Pass` says. |
| ReplayEngine.ReplayServer.DataReceived | lib/mitmproxy.py:300-326 | The fields change as `AfterData` says. |
| ReplayEngine.ReplayServer.ConnectionLost | lib/mitmproxy.py:328-337 | The fields change as `AfterLost` says. |
| RelayEngine.Initial | lib/mitmproxy.py:248-257 | Before any connection, the client leg holds both queues and the server leg holds none. |
| RelayEngine.HandOffIsWired | lib/mitmproxy.py:136-184 | On every run, each leg is handed frames in the order they were put, none lost or repeated. Every payload put towards a leg is written by it once, in order, except those still pending. The `tx is None` branch of `proxyDataReceived` is never taken. |
| RelayEngine.RunKeepsWired | lib/mitmproxy.py:136-216 | Every handler keeps the hand-off invariant. |
| RelayEngine.StepKeepsWired | lib/mitmproxy.py:136-216 | Each of `connectionMade`, `dataReceived`, `connectionLost` and `clientConnectionFailed` keeps the invariant. |
| RelayEngine.PutKeeps | lib/mitmproxy.py:167 | `put` appends the frame to the queue's trace and keeps the invariant. The other queue and leg are unchanged. |
| RelayEngine.TakeKeeps | lib/mitmproxy.py:141-152 | A re-arming `get` chain keeps "taken, then pending, equals put" and "written equals the payloads taken", and never reports undeliverable data. |
| RelayEngine.DataReceivedPuts | lib/mitmproxy.py:162-167 | `dataReceived` logs one record under the leg's origin and puts exactly the data on its `tx`. The leg's own queue is unchanged. |
| RelayEngine.LostPutsSentinel | lib/mitmproxy.py:169-184 | `connectionLost` closes the log, clears `rx`, puts the sentinel on `tx` and stops the reactor. |
| RelayEngine.LostClosesWaitingPeer | lib/mitmproxy.py:141-184 | From any reachable state, losing either connected leg closes the peer leg if it is waiting: the peer takes the sentinel, clears `rx`, closes its transport and writes nothing more. The reactor is stopped. |
| RelayEngine.SentinelCloses | lib/mitmproxy.py:141-146 | A leg handed the sentinel clears `rx` and closes its transport. It writes nothing and does not re-arm. |
| RelayEngine.PayloadRearms | lib/mitmproxy.py:148-152 | A leg handed a payload with `tx` set writes it and waits on its queue again. |
| RelayEngine.PayloadAfterRxGone | lib/mitmproxy.py:148-152 | A payload handed to a leg whose `rx` is None is written, then the re-arming `get` raises. |
| RelayEngine.LossAfterConnecting | lib/mitmproxy.py:169-201 | Connect both legs, then the client goes: the server leg takes the sentinel and closes, and the client leg stays registered on its queue. |
| RelayEngine.LateDataAfterLossRaises | lib/mitmproxy.py:145-152 | Server data arriving after the client has gone reaches the client leg. The leg writes it, and its re-arming `rx.get()` raises on None. |
| RelayEngine.ConnectFailedClosesClient | lib/mitmproxy.py:214-216 | A failed connection to the real server puts the sentinel towards the client, and a waiting client leg closes. |
| RelayEngine.ForwardsOne | lib/mitmproxy.py:148-167 | While the server leg is connected and waiting, one client chunk is written to the real server and the leg waits again. |
| RelayEngine.ForwardsInOrder | lib/mitmproxy.py:148-167 | While the server leg is connected and waiting, every client chunk is written to the real server exactly, in order. |
| RelayEngine.Relay.constructor | lib/mitmproxy.py:248-257 | Both queues are empty, the Logger is shared, and the state is `Initial`. |
| RelayEngine.Relay.Drain | lib/mitmproxy.py:152 | The loop that answers `rx.get()` from pending frames leaves the leg and queue as `Take` says. |
| RelayEngine.Relay.ProxyDataReceived | lib/mitmproxy.py:136-160 | The fields change as `Deliver` says. |
| RelayEngine.Relay.Put | lib/mitmproxy.py:167 | The fields change as `AfterPut` says. |
| RelayEngine.Relay.ConnectionMade | lib/mitmproxy.py:188-201 | The fields change as `AfterMade` says. This covers both legs' `connectionMade`. |
| RelayEngine.Relay.DataReceived | lib/mitmproxy.py:162-167 | The fields change as `AfterData` says. |
| RelayEngine.Relay.ConnectionLost | lib/mitmproxy.py:169-184 | The fields change as `AfterLost` says. |
| RelayEngine.Relay.ClientConnectionFailed | lib/mitmproxy.py:214-216 | The fields change as `AfterConnectFailed` says. |

## Left out

- Option parsers (`ProxyOptionParser`, `ReplayOptionParser`, `ViewerOptionParser`): thin wrappers over `optparse`.
- `LogViewer`: display only, it sleeps and prints.
- `ssh/ssh_replay.py`: wiring only, written against names the library does not define.
- `ProxyServer.__init__` and `connectToServer`: the hook only raises, so the relay starts after the connection attempt.
- The two legs' stderr messages: not modelled, except where a message marks an outcome (success, mismatch, premature end, undeliverable data).
- File and console I/O: records are kept as values in the Logger's state.
- `%0.10f` formatting: a record's text takes the timestamp's text as an argument.
- `float()`: modelled as an exact decimal parser with an optional sign and fraction; exponents, surrounding whitespace, `inf` and `nan` are not accepted.
- `time.time()`: the clock is a parameter of each handler, and `log` reads it once, where the source reads it twice on the first call.
- `time.sleep`: the pause is recorded in a trace. A negative pause raises, as `time.sleep` does on the source's platform.
- The `clientFirst` detection in `LogReader`: it only rebinds a local parameter, and nothing reads it.
- Twisted's reactor and transports: what happens after `loseConnection` or `reactor.stop`, and the reactor's handling of an exception raised in a handler, are not modelled. An exception is a fault entry that ends the handler, and later events are still delivered.
- Relay event orders: a run may deliver events in orders Twisted never produces, such as two `connectionMade` calls on one leg or events on a leg after its `connectionLost`. The invariants are proved for every order, but nothing says which orders are feasible. Handlers on a server leg before its `connectionMade` raise AttributeError and change nothing else, as the source does: `dataReceived` on `self.log`, `connectionLost` on `self.origin`.
- `DeferredQueue` size and backlog limits: `defer.DeferredQueue()` has none.
