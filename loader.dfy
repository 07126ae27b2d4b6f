/**
 * The capture loader (`LogReader`): it reads the capture lines in file order
 * and builds the two replay queues. The server queue holds a `[delay, hex]`
 * entry per server record and a sync mark (Python's `None`) per client record;
 * the client queue holds a `[delay, hex]` entry per client record. Each delay
 * is the record's timestamp minus the previous record's (the first is
 * measured from 0).
 */
module CaptureLoader {
  import opened Common
  import opened Hex
  import Printable
  import CaptureLogger

  datatype Direction = Client | Server

  /** A capture record after parsing: timestamp, direction, hex text without "0x". */
  datatype Record = Record(time: real, who: Direction, hex: string)

  /** An entry of the server-reply queue: a reply to send, or a sync mark. */
  datatype ServerItem = Reply(delay: real, hex: string) | SyncMark

  /** An entry of the expected-client queue. */
  datatype ClientItem = Expect(delay: real, hex: string)

  /**
   * Why a line is rejected: it does not unpack into four tab-separated fields,
   * or `float` rejects its timestamp (both ValueError in Python), or its
   * direction is neither "client" nor "server" (MITMException).
   */
  datatype LineError = WrongFieldCount(count: nat) | BadTimestamp(text: string) | UnknownDirection(who: string)

  /** The first rejected line (0-based) and why. */
  datatype LoadError = LoadError(line: nat, reason: LineError)

  /** The records of the lines before the first rejected one, and the rejection if any. */
  datatype Parsed = Parsed(records: seq<Record>, error: Option<LoadError>)

  // ---- line splitting -------------------------------------------------------

  /** `s.rstrip('\n')`: every trailing newline removed. */
  function RStripNewlines(s: string): (r: string)
    ensures |r| <= |s| && (r == [] || r[|r| - 1] != '\n')
    decreases |s|
  {
    if s != [] && s[|s| - 1] == '\n' then RStripNewlines(s[..|s| - 1]) else s
  }

  /** What `rstrip('\n')` removes is a run of newlines at the end, and only that. */
  lemma {:induction false} RStripNewlinesLayout(s: string)
    ensures var r := RStripNewlines(s);
      |r| <= |s| && r == s[..|r|] && (r == [] || r[|r| - 1] != '\n')
    ensures forall i :: |RStripNewlines(s)| <= i < |s| ==> s[i] == '\n'
    decreases |s|
  {
    if s != [] && s[|s| - 1] == '\n' {
      var init := s[..|s| - 1];
      RStripNewlinesLayout(init);
      var r := RStripNewlines(init);
      assert s[..|r|] == init[..|r|];
      forall i | |r| <= i < |s| ensures s[i] == '\n' {
        if i < |s| - 1 { assert s[i] == init[i]; }
      }
    }
  }

  /**
   * `s.split('\t')`: the text between tabs, empty fields included. `cur` is the
   * field being read, `done` the fields before it.
   */
  function SplitFrom(s: string, cur: string, done: seq<string>): (fields: seq<string>)
    ensures |fields| > |done|
    decreases |s|
  {
    if s == [] then done + [cur]
    else if s[0] == '\t' then SplitFrom(s[1..], "", done + [cur])
    else SplitFrom(s[1..], cur + [s[0]], done)
  }

  /** `s.split('\t')`: at least one field, none holding a tab. */
  function SplitTabs(s: string): (fields: seq<string>)
    ensures |fields| >= 1 && TabFree(fields)
  {
    SplitFromFieldsTabFree(s, "", []);
    SplitFrom(s, "", [])
  }

  /** `'\t'.join(fields)`. */
  function JoinTabs(fields: seq<string>): string
    requires |fields| >= 1
    decreases |fields|
  {
    if |fields| == 1 then fields[0] else fields[0] + "\t" + JoinTabs(fields[1..])
  }

  predicate TabFree(fields: seq<string>) {
    forall i :: 0 <= i < |fields| ==> '\t' !in fields[i]
  }

  /** Splitting loses nothing: the fields read from `s` join back to the text. */
  lemma {:induction false} SplitFromJoins(s: string, cur: string, done: seq<string>)
    ensures var f := SplitFrom(s, cur, done);
      f[..|done|] == done && JoinTabs(f[|done|..]) == cur + s
    decreases |s|
  {
    var f := SplitFrom(s, cur, done);
    if s == [] {
      assert f[|done|..] == [cur];
    } else if s[0] == '\t' {
      var done' := done + [cur];
      SplitFromJoins(s[1..], "", done');
      assert f[..|done'|][..|done|] == f[..|done|];
      assert f[|done|..][1..] == f[|done'|..];
      assert f[|done|..][0] == cur;
      assert s == "\t" + s[1..];
    } else {
      SplitFromJoins(s[1..], cur + [s[0]], done);
      assert (cur + [s[0]]) + s[1..] == cur + s;
    }
  }

  /** The fields read are tab-free when the ones before are. */
  lemma {:induction false} SplitFromFieldsTabFree(s: string, cur: string, done: seq<string>)
    requires TabFree(done) && '\t' !in cur
    ensures TabFree(SplitFrom(s, cur, done))
    decreases |s|
  {
    if s != [] {
      if s[0] == '\t' {
        assert TabFree(done + [cur]);
        SplitFromFieldsTabFree(s[1..], "", done + [cur]);
      } else {
        SplitFromFieldsTabFree(s[1..], cur + [s[0]], done);
      }
    } else {
      assert TabFree(done + [cur]);
    }
  }

  lemma SplitThenJoin(s: string)
    ensures TabFree(SplitTabs(s))
    ensures JoinTabs(SplitTabs(s)) == s
  {
    SplitFromJoins(s, "", []);
    SplitFromFieldsTabFree(s, "", []);
    assert SplitTabs(s)[0..] == SplitTabs(s);
  }

  lemma {:induction false} SplitFromTabFree(a: string, cur: string, done: seq<string>)
    requires '\t' !in a
    ensures SplitFrom(a, cur, done) == done + [cur + a]
    decreases |a|
  {
    if a == [] {
      assert cur + a == cur;
    } else {
      SplitFromTabFree(a[1..], cur + [a[0]], done);
      assert (cur + [a[0]]) + a[1..] == cur + a;
    }
  }

  lemma {:induction false} SplitFromField(a: string, b: string, cur: string, done: seq<string>)
    requires '\t' !in a
    ensures SplitFrom(a + "\t" + b, cur, done) == SplitFrom(b, "", done + [cur + a])
    decreases |a|
  {
    var s := a + "\t" + b;
    if a == [] {
      assert s[1..] == b;
      assert cur + a == cur;
    } else {
      assert s[1..] == a[1..] + "\t" + b;
      SplitFromField(a[1..], b, cur + [a[0]], done);
      assert (cur + [a[0]]) + a[1..] == cur + a;
    }
  }

  /** Joining tab-free fields and splitting again gives the fields back. */
  lemma {:induction false} JoinThenSplitFrom(fields: seq<string>, done: seq<string>)
    requires |fields| >= 1 && TabFree(fields)
    ensures SplitFrom(JoinTabs(fields), "", done) == done + fields
    decreases |fields|
  {
    if |fields| == 1 {
      SplitFromTabFree(fields[0], "", done);
      assert "" + fields[0] == fields[0];
    } else {
      SplitFromField(fields[0], JoinTabs(fields[1..]), "", done);
      assert "" + fields[0] == fields[0];
      JoinThenSplitFrom(fields[1..], done + [fields[0]]);
      assert (done + [fields[0]]) + fields[1..] == done + fields;
    }
  }

  lemma JoinThenSplit(fields: seq<string>)
    requires |fields| >= 1 && TabFree(fields)
    ensures SplitTabs(JoinTabs(fields)) == fields
  {
    JoinThenSplitFrom(fields, []);
  }

  // ---- timestamps -----------------------------------------------------------

  predicate IsDecimalDigit(c: char) { '0' <= c <= '9' }

  /** `n` divided by ten `k` times: the value of `k` fraction digits reading `n`. */
  function Shifted10(n: nat, k: nat): (v: real)
    ensures v >= 0.0
    decreases k
  {
    if k == 0 then n as real else Shifted10(n, k - 1) / 10.0
  }

  /**
   * The digits read so far, as one integer; how many of them follow the
   * '.'; how many there are; whether the '.' has been read.
   */
  datatype Scan = Scan(value: nat, fracDigits: nat, digits: nat, seenDot: bool)

  /**
   * Reads unsigned decimal text left to right: digits with at most one '.'
   * and at least one digit; the value is the exact rational number.
   */
  function ScanDecimal(s: string, acc: Scan): Option<real>
    decreases |s|
  {
    if s == [] then
      if acc.digits > 0 then Some(Shifted10(acc.value, acc.fracDigits)) else None
    else if IsDecimalDigit(s[0]) then
      ScanDecimal(s[1..], Scan(acc.value * 10 + (s[0] as int - '0' as int),
                               acc.fracDigits + (if acc.seenDot then 1 else 0), acc.digits + 1, acc.seenDot))
    else if s[0] == '.' && !acc.seenDot then
      ScanDecimal(s[1..], acc.(seenDot := true))
    else None
  }

  /** `float(text)` on decimal text: an optional sign, then unsigned decimal text. */
  function ParseTimestamp(s: string): Option<real>
  {
    if s != [] && s[0] == '-' then
      match ScanDecimal(s[1..], Scan(0, 0, 0, false))
      case Some(v) => Some(-v)
      case None => None
    else if s != [] && s[0] == '+' then ScanDecimal(s[1..], Scan(0, 0, 0, false))
    else ScanDecimal(s, Scan(0, 0, 0, false))
  }

  /** Text made of decimal digits only. */
  predicate DigitText(a: string) {
    forall i :: 0 <= i < |a| ==> IsDecimalDigit(a[i])
  }

  function Pow10(k: nat): (p: nat)
    ensures p > 0
  {
    if k == 0 then 1 else 10 * Pow10(k - 1)
  }

  /** The digits of `a` read after the digits whose value is `n`. */
  function ValFrom(a: string, n: nat): nat
    requires DigitText(a)
    decreases |a|
  {
    if a == [] then n else ValFrom(a[1..], n * 10 + (a[0] as int - '0' as int))
  }

  /** The natural number a digit text denotes. */
  function Val(a: string): nat
    requires DigitText(a)
  {
    ValFrom(a, 0)
  }

  /** Reading a run of digits folds them into the value and the digit counts. */
  lemma {:induction false} ScanDigits(a: string, rest: string, acc: Scan)
    requires DigitText(a)
    ensures ScanDecimal(a + rest, acc) ==
      ScanDecimal(rest, Scan(ValFrom(a, acc.value), acc.fracDigits + (if acc.seenDot then |a| else 0),
                             acc.digits + |a|, acc.seenDot))
    decreases |a|
  {
    if a == [] {
      assert a + rest == rest;
    } else {
      assert (a + rest)[0] == a[0] && (a + rest)[1..] == a[1..] + rest;
      ScanDigits(a[1..], rest, Scan(acc.value * 10 + (a[0] as int - '0' as int),
                                    acc.fracDigits + (if acc.seenDot then 1 else 0), acc.digits + 1, acc.seenDot));
    }
  }

  /** Digits read after a value `n` add `n` shifted left by their count. */
  lemma {:induction false} ValFromShifts(a: string, n: nat)
    requires DigitText(a)
    ensures ValFrom(a, n) == n * Pow10(|a|) + Val(a)
    decreases |a|
  {
    if a != [] {
      var d := a[0] as int - '0' as int;
      var p := Pow10(|a| - 1);
      ValFromShifts(a[1..], n * 10 + d);
      ValFromShifts(a[1..], d);
      assert (n * 10 + d) * p == n * (10 * p) + d * p;
    }
  }

  /** Fraction digits shifted right leave the integer part whole. */
  lemma {:induction false} Shifted10Splits(n: nat, m: nat, k: nat)
    ensures Shifted10(n * Pow10(k) + m, k) == n as real + Shifted10(m, k)
    decreases k
  {
    if k > 0 {
      assert n * Pow10(k) == (n * 10) * Pow10(k - 1);
      Shifted10Splits(n * 10, m, k - 1);
    }
  }

  /** Text the scanner accepts is digits and dots, with a digit unless one was read before. */
  lemma {:induction false} ScanText(s: string, acc: Scan)
    requires ScanDecimal(s, acc).Some?
    ensures acc.digits > 0 || exists i :: 0 <= i < |s| && IsDecimalDigit(s[i])
    ensures forall i :: 0 <= i < |s| ==> s[i] == '.' || IsDecimalDigit(s[i])
    decreases |s|
  {
    if s != [] {
      var acc' := if IsDecimalDigit(s[0]) then
          Scan(acc.value * 10 + (s[0] as int - '0' as int),
               acc.fracDigits + (if acc.seenDot then 1 else 0), acc.digits + 1, acc.seenDot)
        else acc.(seenDot := true);
      ScanText(s[1..], acc');
      if !IsDecimalDigit(s[0]) && acc.digits == 0 {
        var k :| 0 <= k < |s[1..]| && IsDecimalDigit(s[1..][k]);
        assert IsDecimalDigit(s[k + 1]);
      }
      forall i | 1 <= i < |s| ensures s[i] == '.' || IsDecimalDigit(s[i]) {
        assert s[i] == s[1..][i - 1];
      }
    }
  }

  /** Text with no leading sign is read as unsigned decimal text. */
  lemma UnsignedTimestamp(s: string)
    requires s == [] || (s[0] != '-' && s[0] != '+')
    ensures ParseTimestamp(s) == ScanDecimal(s, Scan(0, 0, 0, false))
  {
  }

  lemma ScanDot(b: string, acc: Scan)
    requires !acc.seenDot
    ensures ScanDecimal("." + b, acc) == ScanDecimal(b, acc.(seenDot := true))
  {
    assert ("." + b)[0] == '.' && ("." + b)[1..] == b;
  }

  /** `float` of digit text is the number the digits denote. */
  lemma IntegerTimestamp(a: string)
    requires a != [] && DigitText(a)
    ensures ParseTimestamp(a) == Some(Val(a) as real)
  {
    assert IsDecimalDigit(a[0]);
    UnsignedTimestamp(a);
    ScanDigits(a, [], Scan(0, 0, 0, false));
    assert a + [] == a;
  }

  /**
   * `float` of digits, a dot and digits (either run may be empty, not both):
   * the integer part plus the fraction digits shifted right by their count.
   */
  lemma DecimalTimestamp(a: string, b: string)
    requires DigitText(a) && DigitText(b) && |a| + |b| > 0
    ensures ParseTimestamp(a + "." + b) == Some(Val(a) as real + Shifted10(Val(b), |b|))
  {
    PointUnsigned(a, b);
    UnsignedTimestamp(a + "." + b);
    Associative(a, ".", b);
    ScanPoint(a, b);
  }

  lemma PointUnsigned(a: string, b: string)
    requires DigitText(a)
    ensures var s := a + "." + b; s[0] != '-' && s[0] != '+'
  {
    var s := a + "." + b;
    if a != [] { assert s[0] == a[0] && IsDecimalDigit(a[0]); } else { assert s[0] == '.'; }
  }

  /** The scanner reads digits, a dot and digits into the value of all the digits, shifted. */
  lemma ScanPoint(a: string, b: string)
    requires DigitText(a) && DigitText(b) && |a| + |b| > 0
    ensures ScanDecimal(a + ("." + b), Scan(0, 0, 0, false)) == Some(Val(a) as real + Shifted10(Val(b), |b|))
  {
    ScanPointRaw(a, b);
    FractionValue(a, b);
  }

  lemma ScanPointRaw(a: string, b: string)
    requires DigitText(a) && DigitText(b) && |a| + |b| > 0
    ensures ScanDecimal(a + ("." + b), Scan(0, 0, 0, false)) == Some(Shifted10(ValFrom(b, Val(a)), |b|))
  {
    ScanDigits(a, "." + b, Scan(0, 0, 0, false));
    ScanFraction(b, Scan(Val(a), 0, |a|, false));
  }

  /** After digits with no dot yet, a dot and fraction digits end the scan. */
  lemma ScanFraction(b: string, acc: Scan)
    requires DigitText(b) && !acc.seenDot && acc.fracDigits == 0 && acc.digits + |b| > 0
    ensures ScanDecimal("." + b, acc) == Some(Shifted10(ValFrom(b, acc.value), |b|))
  {
    ScanDot(b, acc);
    ScanDigits(b, [], acc.(seenDot := true));
    assert b + [] == b;
  }

  /** The value the scanner builds for `a.b`: the integer part plus the shifted fraction. */
  lemma FractionValue(a: string, b: string)
    requires DigitText(a) && DigitText(b)
    ensures Shifted10(ValFrom(b, Val(a)), |b|) == Val(a) as real + Shifted10(Val(b), |b|)
  {
    ValFromShifts(b, Val(a));
    Shifted10Splits(Val(a), Val(b), |b|);
  }

  /** A leading sign negates, or keeps, the value of the unsigned text after it. */
  lemma SignedTimestamp(x: string, v: real)
    requires ScanDecimal(x, Scan(0, 0, 0, false)) == Some(v)
    ensures ParseTimestamp("-" + x) == Some(-v)
    ensures ParseTimestamp("+" + x) == Some(v)
  {
    assert ("-" + x)[1..] == x && ("+" + x)[1..] == x;
  }

  /** Decimal timestamp text reads back as the number it writes: "0.05" is 0.05. */
  lemma TimestampExample()
    ensures ParseTimestamp("0.05") == Some(0.05)
  {
    DecimalTimestamp("0", "05");
  }

  /** Timestamp text that `float` accepts holds no tab and no newline. */
  lemma TimestampHasNoSeparators(s: string)
    requires ParseTimestamp(s).Some?
    ensures '\t' !in s && '\n' !in s
  {
    TimestampText(s);
  }

  /** Text `float` accepts has a digit and is digits and dots after an optional leading sign. */
  lemma TimestampText(s: string)
    requires ParseTimestamp(s).Some?
    ensures exists i :: 0 <= i < |s| && IsDecimalDigit(s[i])
    ensures forall i :: 0 <= i < |s| ==>
      s[i] == '.' || IsDecimalDigit(s[i]) || (i == 0 && (s[0] == '-' || s[0] == '+'))
  {
    if s != [] && (s[0] == '-' || s[0] == '+') {
      ScanText(s[1..], Scan(0, 0, 0, false));
      var k :| 0 <= k < |s[1..]| && IsDecimalDigit(s[1..][k]);
      assert IsDecimalDigit(s[k + 1]);
      forall i | 1 <= i < |s| ensures s[i] == '.' || IsDecimalDigit(s[i]) {
        assert s[i] == s[1..][i - 1];
      }
    } else {
      ScanText(s, Scan(0, 0, 0, false));
    }
  }

  // ---- one line ---------------------------------------------------------------

  /** `what[2:]`: the hex field without its two-character "0x" prefix. */
  function DropPrefix(what: string): string
  {
    if |what| >= 2 then what[2..] else []
  }

  /** The tag the Logger writes for a direction. */
  function Tag(d: Direction): string {
    match d
    case Client => "client"
    case Server => "server"
  }

  /**
   * One capture line: stripped of trailing newlines and split at tabs, it must
   * have exactly four fields (timestamp, direction, "0x"-prefixed hex, comment);
   * the comment is ignored.
   */
  function ParseLine(line: string): (r: Result<Record, LineError>)
    ensures var f := SplitTabs(RStripNewlines(line));
      match r
      case Ok(rec) => |f| == 4 && ParseTimestamp(f[0]) == Some(rec.time) && f[1] == Tag(rec.who) && rec.hex == DropPrefix(f[2])
      case Err(WrongFieldCount(n)) => n == |f| != 4
      case Err(BadTimestamp(t)) => |f| == 4 && t == f[0] && ParseTimestamp(t).None?
      case Err(UnknownDirection(w)) => |f| == 4 && ParseTimestamp(f[0]).Some? && w == f[1] && w != "client" && w != "server"
  {
    var fields := SplitTabs(RStripNewlines(line));
    if |fields| != 4 then Err(WrongFieldCount(|fields|))
    else match ParseTimestamp(fields[0])
      case None => Err(BadTimestamp(fields[0]))
      case Some(t) =>
        var what := DropPrefix(fields[2]);
        if fields[1] == "server" then Ok(Record(t, Server, what))
        else if fields[1] == "client" then Ok(Record(t, Client, what))
        else Err(UnknownDirection(fields[1]))
  }

  lemma StripFinalNewline(body: string)
    requires body != [] && body[|body| - 1] != '\n'
    ensures RStripNewlines(body + "\n") == body
  {
    assert (body + "\n")[..|body|] == body;
  }

  lemma CharFreeAfterPrefix(c: char, prefix: string, text: string)
    requires c !in prefix && c !in text
    ensures c !in prefix + text
  {
    forall i | 0 <= i < |prefix + text| ensures (prefix + text)[i] != c {
      if i >= |prefix| { assert (prefix + text)[i] == text[i - |prefix|]; }
    }
  }

  /** Fields without a newline join into text without a newline. */
  lemma {:induction false} NewlineFreeJoin(fields: seq<string>)
    requires |fields| >= 1 && forall i :: 0 <= i < |fields| ==> '\n' !in fields[i]
    ensures '\n' !in JoinTabs(fields)
    decreases |fields|
  {
    if |fields| > 1 {
      NewlineFreeJoin(fields[1..]);
      CharFreeAfterPrefix('\n', fields[0], "\t");
      CharFreeAfterPrefix('\n', fields[0] + "\t", JoinTabs(fields[1..]));
    }
  }

  /** The Logger's record text is its four fields joined by tabs, plus a newline. */
  lemma RecordLayout(tsText: string, who: string, hex: string, plain: string)
    ensures CaptureLogger.FormatRecord(tsText, who, hex, plain)
            == JoinTabs([tsText, who, "0x" + hex, "#" + plain]) + "\n"
  {
    var fields := [tsText, who, "0x" + hex, "#" + plain];
    assert JoinTabs(fields[2..]) == ("0x" + hex) + "\t" + ("#" + plain);
    assert JoinTabs(fields[1..]) == who + "\t" + JoinTabs(fields[2..]);
  }

  /** A record's four fields hold no tab, and their join no newline, when its parts hold neither. */
  lemma RecordFieldsFree(tsText: string, who: string, hex: string, plain: string)
    requires '\t' !in tsText && '\t' !in who && '\t' !in hex && '\t' !in plain
    requires '\n' !in tsText && '\n' !in who && '\n' !in hex && '\n' !in plain
    ensures var fields := [tsText, who, "0x" + hex, "#" + plain];
      TabFree(fields) && '\n' !in JoinTabs(fields)
  {
    var fields := [tsText, who, "0x" + hex, "#" + plain];
    CharFreeAfterPrefix('\t', "0x", hex);
    CharFreeAfterPrefix('\t', "#", plain);
    CharFreeAfterPrefix('\n', "0x", hex);
    CharFreeAfterPrefix('\n', "#", plain);
    NewlineFreeJoin(fields);
  }

  /** Lower-case hex text holds no tab and no newline. */
  lemma LowerHexHasNoSeparators(hex: string)
    requires IsLowerHex(hex)
    ensures '\t' !in hex && '\n' !in hex
  {
    forall i | 0 <= i < |hex| ensures hex[i] != '\t' && hex[i] != '\n' {
      assert IsLowerHexChar(hex[i]);
    }
  }

  /**
   * A line the Logger writes parses back into the record it describes: the
   * timestamp, the direction, and the payload's hex text.
   */
  lemma FormattedRecordParses(tsText: string, t: real, d: Direction, payload: seq<byte>)
    requires ParseTimestamp(tsText) == Some(t)
    ensures ParseLine(CaptureLogger.FormatRecord(tsText, Tag(d), HexEncode(payload), Printable.Render(payload)))
            == Ok(Record(t, d, HexEncode(payload)))
  {
    var hex, plain := HexEncode(payload), Printable.Render(payload);
    Printable.RenderHasNoSeparators(payload);
    EncodeIsLowerHex(payload);
    LowerHexHasNoSeparators(hex);
    TimestampHasNoSeparators(tsText);
    RecordFieldsFree(tsText, Tag(d), hex, plain);
    RecordLayout(tsText, Tag(d), hex, plain);
    FourFieldsParse([tsText, Tag(d), "0x" + hex, "#" + plain], t, d);
    assert DropPrefix("0x" + hex) == hex;
  }

  /** Text without a newline is left alone by `rstrip('\n')`, with or without one final newline added. */
  lemma StripNewlineFree(body: string)
    requires '\n' !in body
    ensures RStripNewlines(body) == body && RStripNewlines(body + "\n") == body
  {
    if body == [] {
      assert body + "\n" == "\n";
      assert "\n"[..0] == [];
    } else {
      StripFinalNewline(body);
    }
  }

  /**
   * A line whose text splits into other than four tab-separated fields is
   * rejected with the number of fields it has, whether or not it ends in a
   * newline.
   */
  lemma FieldCountRejected(fields: seq<string>)
    requires |fields| >= 1 && |fields| != 4 && TabFree(fields)
    requires '\n' !in JoinTabs(fields)
    ensures ParseLine(JoinTabs(fields)) == Err(WrongFieldCount(|fields|))
    ensures ParseLine(JoinTabs(fields) + "\n") == Err(WrongFieldCount(|fields|))
  {
    StripNewlineFree(JoinTabs(fields));
    JoinThenSplit(fields);
  }

  /**
   * Any line of four tab-separated fields whose timestamp `float` accepts and
   * whose direction is "client" or "server" is accepted, whatever its hex
   * and comment fields hold: the record carries the timestamp, the direction
   * and the third field with its first two characters (the "0x") dropped.
   */
  lemma FourFieldsParse(fields: seq<string>, t: real, d: Direction)
    requires |fields| == 4 && TabFree(fields) && '\n' !in JoinTabs(fields)
    requires ParseTimestamp(fields[0]) == Some(t) && fields[1] == Tag(d)
    ensures ParseLine(JoinTabs(fields)) == Ok(Record(t, d, DropPrefix(fields[2])))
    ensures ParseLine(JoinTabs(fields) + "\n") == Ok(Record(t, d, DropPrefix(fields[2])))
  {
    StripNewlineFree(JoinTabs(fields));
    JoinThenSplit(fields);
  }

  /** A four-field line whose timestamp `float` rejects is rejected with that text. */
  lemma BadTimestampRejected(fields: seq<string>)
    requires |fields| == 4 && TabFree(fields) && '\n' !in JoinTabs(fields)
    requires ParseTimestamp(fields[0]).None?
    ensures ParseLine(JoinTabs(fields)) == Err(BadTimestamp(fields[0]))
    ensures ParseLine(JoinTabs(fields) + "\n") == Err(BadTimestamp(fields[0]))
  {
    StripNewlineFree(JoinTabs(fields));
    JoinThenSplit(fields);
  }

  /**
   * Any four-field line with a timestamp `float` accepts and a direction
   * other than "client" or "server" is rejected with that direction, whatever
   * its hex and comment fields hold.
   */
  lemma ForeignDirectionRejected(fields: seq<string>)
    requires |fields| == 4 && TabFree(fields) && '\n' !in JoinTabs(fields)
    requires ParseTimestamp(fields[0]).Some? && fields[1] != "client" && fields[1] != "server"
    ensures ParseLine(JoinTabs(fields)) == Err(UnknownDirection(fields[1]))
    ensures ParseLine(JoinTabs(fields) + "\n") == Err(UnknownDirection(fields[1]))
  {
    StripNewlineFree(JoinTabs(fields));
    JoinThenSplit(fields);
  }

  // ---- the whole capture ----------------------------------------------------

  /** What each line parses to, in file order. */
  function ParsedLines(lines: seq<string>): (results: seq<Result<Record, LineError>>)
    ensures |results| == |lines|
  {
    seq(|lines|, i requires 0 <= i < |lines| => ParseLine(lines[i]))
  }

  /**
   * The first `n` line outcomes, collected: the records before the first
   * rejected line, and that rejection if any.
   */
  function ParsePrefix(results: seq<Result<Record, LineError>>, n: nat): (p: Parsed)
    requires n <= |results|
    ensures |p.records| <= n
    ensures p.error.None? ==> |p.records| == n
    ensures p.error.Some? ==> |p.records| < n
    ensures p.error.Some? ==>
      (p.error.value.line == |p.records| && results[|p.records|] == Err(p.error.value.reason))
    decreases n
  {
    if n == 0 then Parsed([], None)
    else
      var p := ParsePrefix(results, n - 1);
      if p.error.Some? then p
      else match results[n - 1]
        case Ok(r) => Parsed(p.records + [r], None)
        case Err(e) => Parsed(p.records, Some(LoadError(n - 1, e)))
  }

  /** The whole capture, parsed. */
  function ParseCapture(lines: seq<string>): (p: Parsed)
    ensures p.error.None? ==> |p.records| == |lines|
    ensures p.error.Some? ==> p.error.value.line == |p.records| < |lines|
  {
    ParsePrefix(ParsedLines(lines), |lines|)
  }

  lemma {:induction false} PrefixRecords(results: seq<Result<Record, LineError>>, n: nat)
    requires n <= |results|
    ensures forall i :: 0 <= i < |ParsePrefix(results, n).records| ==>
      results[i] == Ok(ParsePrefix(results, n).records[i])
    decreases n
  {
    if n > 0 {
      PrefixRecords(results, n - 1);
    }
  }

  /**
   * The capture's records are what its lines parse to, in file order; the
   * capture is rejected exactly when some line is, and then at the first
   * such line, with that line's reason.
   */
  lemma CaptureRecords(lines: seq<string>)
    ensures var p := ParseCapture(lines);
      forall i :: 0 <= i < |p.records| ==> ParseLine(lines[i]) == Ok(p.records[i])
    ensures var p := ParseCapture(lines);
      p.error.None? <==> forall i :: 0 <= i < |lines| ==> ParseLine(lines[i]).Ok?
    ensures var p := ParseCapture(lines);
      p.error.Some? ==> p.error.value.line < |lines| && ParseLine(lines[p.error.value.line]) == Err(p.error.value.reason)
  {
    var results := ParsedLines(lines);
    var p := ParseCapture(lines);
    PrefixRecords(results, |lines|);
    forall i | 0 <= i < |p.records| ensures ParseLine(lines[i]) == Ok(p.records[i]) {
      assert results[i] == ParseLine(lines[i]);
    }
    if p.error.Some? {
      assert results[p.error.value.line] == ParseLine(lines[p.error.value.line]);
    } else {
      forall i | 0 <= i < |lines| ensures ParseLine(lines[i]).Ok? {
        assert results[i] == ParseLine(lines[i]);
      }
    }
  }

  /** The timestamp of the last record, 0 before any (`lastTime`). */
  function LastTime(recs: seq<Record>): real {
    if recs == [] then 0.0 else recs[|recs| - 1].time
  }

  /** The delay of record i: its timestamp minus the previous record's, or minus 0. */
  function Delay(recs: seq<Record>, i: nat): real
    requires i < |recs|
  {
    recs[i].time - LastTime(recs[..i])
  }

  /** The server queue built from the records, in file order. */
  function ServerQueue(recs: seq<Record>): (sq: seq<ServerItem>)
    ensures |sq| == |recs|
    decreases |recs|
  {
    if recs == [] then []
    else
      var init, r := recs[..|recs| - 1], recs[|recs| - 1];
      ServerQueue(init) + [if r.who == Server then Reply(r.time - LastTime(init), r.hex) else SyncMark]
  }

  /** The client queue built from the records, in file order. */
  function ClientQueue(recs: seq<Record>): (cq: seq<ClientItem>)
    ensures |cq| <= |recs|
    decreases |recs|
  {
    if recs == [] then []
    else
      var init, r := recs[..|recs| - 1], recs[|recs| - 1];
      if r.who == Client then ClientQueue(init) + [Expect(r.time - LastTime(init), r.hex)]
      else ClientQueue(init)
  }

  /** Appending a record appends its entries to the queues and moves `lastTime`. */
  lemma QueuesGrow(recs: seq<Record>, r: Record)
    ensures ServerQueue(recs + [r]) ==
      ServerQueue(recs) + [if r.who == Server then Reply(r.time - LastTime(recs), r.hex) else SyncMark]
    ensures ClientQueue(recs + [r]) ==
      if r.who == Client then ClientQueue(recs) + [Expect(r.time - LastTime(recs), r.hex)] else ClientQueue(recs)
    ensures LastTime(recs + [r]) == r.time
  {
    assert (recs + [r])[..|recs|] == recs;
  }

  /**
   * The server queue has one entry per record, in file order: a reply with the
   * record's delay and hex text for a server record, a sync mark for a client
   * record.
   */
  lemma {:induction false} ServerQueueAt(recs: seq<Record>)
    ensures |ServerQueue(recs)| == |recs|
    ensures forall i :: 0 <= i < |recs| ==>
      ServerQueue(recs)[i] == if recs[i].who == Server then Reply(Delay(recs, i), recs[i].hex) else SyncMark
    decreases |recs|
  {
    if recs != [] {
      var init := recs[..|recs| - 1];
      ServerQueueAt(init);
      forall i | 0 <= i < |recs|
        ensures ServerQueue(recs)[i] == if recs[i].who == Server then Reply(Delay(recs, i), recs[i].hex) else SyncMark
      {
        if i < |init| {
          assert recs[..i] == init[..i] && recs[i] == init[i];
        } else {
          assert recs[..i] == init;
        }
      }
    }
  }

  /** The client queue built from a prefix of the records is a prefix of the whole client queue. */
  lemma {:induction false} ClientQueuePrefix(recs: seq<Record>, n: nat)
    requires n <= |recs|
    ensures ClientQueue(recs[..n]) <= ClientQueue(recs)
    decreases |recs|
  {
    if n < |recs| {
      var init := recs[..|recs| - 1];
      assert recs[..n] == init[..n];
      ClientQueuePrefix(init, n);
    } else {
      assert recs[..n] == recs;
    }
  }

  /**
   * Each client record has its entry in the client queue, with its delay and hex
   * text, after the entries of the client records before it.
   */
  lemma ClientQueueAt(recs: seq<Record>, i: nat)
    requires i < |recs| && recs[i].who == Client
    ensures var k := |ClientQueue(recs[..i])|;
      k < |ClientQueue(recs)| && ClientQueue(recs)[k] == Expect(Delay(recs, i), recs[i].hex)
  {
    var pre := recs[..i + 1];
    assert pre[..i] == recs[..i] && pre[i] == recs[i];
    assert ClientQueue(pre) == ClientQueue(recs[..i]) + [Expect(Delay(recs, i), recs[i].hex)];
    ClientQueuePrefix(recs, i + 1);
  }

  /** The sum of the reply delays in a server queue. */
  function ReplyDelays(sq: seq<ServerItem>): real
    decreases |sq|
  {
    if sq == [] then 0.0
    else ReplyDelays(sq[..|sq| - 1]) + (if sq[|sq| - 1].Reply? then sq[|sq| - 1].delay else 0.0)
  }

  /** The sum of the delays in a client queue. */
  function ExpectDelays(cq: seq<ClientItem>): real
    decreases |cq|
  {
    if cq == [] then 0.0 else ExpectDelays(cq[..|cq| - 1]) + cq[|cq| - 1].delay
  }

  /**
   * The delays telescope: those of both queues together add up to the last
   * record's timestamp, since the first is measured from 0.
   */
  lemma {:induction false} DelaysTelescope(recs: seq<Record>)
    ensures ReplyDelays(ServerQueue(recs)) + ExpectDelays(ClientQueue(recs)) == LastTime(recs)
    decreases |recs|
  {
    if recs != [] {
      var init, r := recs[..|recs| - 1], recs[|recs| - 1];
      DelaysTelescope(init);
      QueuesGrow(init, r);
      assert recs == init + [r];
      var sq, cq := ServerQueue(init), ClientQueue(init);
      var x := if r.who == Server then Reply(r.time - LastTime(init), r.hex) else SyncMark;
      assert (sq + [x])[..|sq|] == sq;
      if r.who == Client {
        var c := Expect(r.time - LastTime(init), r.hex);
        assert (cq + [c])[..|cq|] == cq;
      }
    }
  }

  /**
   * Records [S A, S B, C X, S D] give sq = [A, B, sync, D] and cq = [X], each
   * entry with its delay since the record before.
   */
  lemma QueueExample(a: Record, b: Record, x: Record, d: Record)
    requires a.who == Server && b.who == Server && x.who == Client && d.who == Server
    ensures ServerQueue([a, b, x, d]) ==
      [Reply(a.time, a.hex), Reply(b.time - a.time, b.hex), SyncMark, Reply(d.time - x.time, d.hex)]
    ensures ClientQueue([a, b, x, d]) == [Expect(x.time - b.time, x.hex)]
  {
    var r0: seq<Record> := [];
    var r1 := r0 + [a];
    var r2 := r1 + [b];
    var r3 := r2 + [x];
    var r4 := r3 + [d];
    QueuesGrow(r0, a);
    QueuesGrow(r1, b);
    QueuesGrow(r2, x);
    QueuesGrow(r3, d);
    assert r4 == [a, b, x, d];
  }

  // ---- the loader -----------------------------------------------------------

  /** The loader's state after some lines: the two queues, `lastTime`, the rejection if any. */
  datatype Reading = Reading(sq: seq<ServerItem>, cq: seq<ClientItem>, lastTime: real, error: Option<LoadError>)

  /** The loader's state after the first `n` line outcomes, one line at a time. */
  function ReadPrefix(results: seq<Result<Record, LineError>>, n: nat): Reading
    requires n <= |results|
    decreases n
  {
    if n == 0 then Reading([], [], 0.0, None)
    else
      var st := ReadPrefix(results, n - 1);
      if st.error.Some? then st
      else match results[n - 1]
        case Err(e) => st.(error := Some(LoadError(n - 1, e)))
        case Ok(r) => Absorbed(st, r)
  }

  /** One accepted record: its entries join the queues, its delay measured from `lastTime`. */
  function Absorbed(st: Reading, r: Record): Reading {
    var delay := r.time - st.lastTime;
    if r.who == Server then Reading(st.sq + [Reply(delay, r.hex)], st.cq, r.time, None)
    else Reading(st.sq + [SyncMark], st.cq + [Expect(delay, r.hex)], r.time, None)
  }

  /**
   * Reading line by line builds exactly the queues of the records parsed so
   * far, and stops at the same rejection.
   */
  lemma {:induction false} ReadPrefixQueues(results: seq<Result<Record, LineError>>, n: nat)
    requires n <= |results|
    ensures ReadAgrees(results, n)
    decreases n
  {
    if n > 0 {
      ReadPrefixQueues(results, n - 1);
      ReadStep(results, n);
    }
  }

  /** The reading after `n` line outcomes holds the queues of the records parsed from them. */
  predicate ReadAgrees(results: seq<Result<Record, LineError>>, n: nat)
    requires n <= |results|
  {
    var p, st := ParsePrefix(results, n), ReadPrefix(results, n);
    && st.sq == ServerQueue(p.records) && st.cq == ClientQueue(p.records)
    && st.lastTime == LastTime(p.records) && st.error == p.error
  }

  lemma ReadStep(results: seq<Result<Record, LineError>>, n: nat)
    requires 0 < n <= |results|
    requires ReadAgrees(results, n - 1)
    ensures ReadAgrees(results, n)
  {
    var p, st := ParsePrefix(results, n - 1), ReadPrefix(results, n - 1);
    if p.error.Some? {
      assert ParsePrefix(results, n) == p && ReadPrefix(results, n) == st;
    } else if results[n - 1].Err? {
      var e := Some(LoadError(n - 1, results[n - 1].error));
      assert ParsePrefix(results, n) == Parsed(p.records, e);
      assert ReadPrefix(results, n) == st.(error := e);
    } else {
      ReadAccepts(results, n);
    }
  }

  /** `ReadStep` for a line that is accepted after accepted lines. */
  lemma ReadAccepts(results: seq<Result<Record, LineError>>, n: nat)
    requires 0 < n <= |results| && results[n - 1].Ok?
    requires ReadAgrees(results, n - 1) && ParsePrefix(results, n - 1).error.None?
    ensures ReadAgrees(results, n)
  {
    var recs, st := ParsePrefix(results, n - 1).records, ReadPrefix(results, n - 1);
    var r := results[n - 1].value;
    assert ParsePrefix(results, n) == Parsed(recs + [r], None);
    assert ReadPrefix(results, n) == Absorbed(st, r);
    AbsorbedGrows(recs, st, r);
  }

  /** Absorbing a record into the queues of `recs` gives the queues of `recs + [r]`. */
  lemma AbsorbedGrows(recs: seq<Record>, st: Reading, r: Record)
    requires st.sq == ServerQueue(recs) && st.cq == ClientQueue(recs) && st.lastTime == LastTime(recs) && st.error.None?
    ensures var st' := Absorbed(st, r);
      && st'.sq == ServerQueue(recs + [r]) && st'.cq == ClientQueue(recs + [r])
      && st'.lastTime == LastTime(recs + [r]) && st'.error.None?
  {
    QueuesGrow(recs, r);
  }

  /** A rejected line ends the reading: no later line changes the state. */
  lemma {:induction false} ReadStops(results: seq<Result<Record, LineError>>, k: nat, n: nat)
    requires k <= n <= |results|
    requires ReadPrefix(results, k).error.Some?
    ensures ReadPrefix(results, n) == ReadPrefix(results, k)
    decreases n - k
  {
    if k < n {
      ReadStops(results, k, n - 1);
    }
  }

  /** Reading every line gives the queues and the rejection of the parsed capture. */
  lemma ReadWhole(lines: seq<string>)
    ensures var st, p := ReadPrefix(ParsedLines(lines), |lines|), ParseCapture(lines);
      st.sq == ServerQueue(p.records) && st.cq == ClientQueue(p.records) && st.error == p.error
  {
    ReadPrefixQueues(ParsedLines(lines), |lines|);
  }

  /** The body of `LogReader`'s loop for an accepted line. */
  method Absorb(sq: seq<ServerItem>, cq: seq<ClientItem>, lastTime: real, r: Record)
    returns (sq': seq<ServerItem>, cq': seq<ClientItem>, lastTime': real)
    ensures Reading(sq', cq', lastTime', None) == Absorbed(Reading(sq, cq, lastTime, None), r)
  {
    var delay := r.time - lastTime;
    lastTime' := r.time;
    if r.who == Server {
      sq', cq' := sq + [Reply(delay, r.hex)], cq;
    } else {
      sq', cq' := sq + [SyncMark], cq + [Expect(delay, r.hex)];
    }
  }

  /**
   * `LogReader`: fills the two (initially empty) queues record by record,
   * stopping at the first rejected line. On a rejection the queues keep what
   * the lines before it put there.
   */
  method LoadCapture(lines: seq<string>)
    returns (sq: seq<ServerItem>, cq: seq<ClientItem>, error: Option<LoadError>)
    ensures var p := ParseCapture(lines);
      sq == ServerQueue(p.records) && cq == ClientQueue(p.records) && error == p.error
  {
    ghost var results := ParsedLines(lines);
    ReadWhole(lines);
    sq, cq := [], [];
    var lastTime := 0.0;
    for i := 0 to |lines|
      invariant ReadPrefix(results, i) == Reading(sq, cq, lastTime, None)
    {
      var parsed := ParseLine(lines[i]);
      assert results[i] == parsed;
      if parsed.Err? {
        error := Some(LoadError(i, parsed.error));
        ReadStops(results, i + 1, |lines|);
        return;
      }
      sq, cq, lastTime := Absorb(sq, cq, lastTime, parsed.value);
    }
    error := None;
  }
}
