/**
 * The older newline-command protocol of src/ws.rs.  A frame from the manager
 * is a command line ("START", "STOP" or "CLOSE", '\n'-terminated, white space
 * around it ignored) followed, for START, by the raw payload; frames with any
 * other command, or with no newline at all, are skipped.  The invoker answers
 * with text messages whose first line names the message kind.
 *
 * The reader `Parse` of the answers is not part of the source: it is the
 * reference the formats are proved against, showing that every answer can be
 * told apart and read back.
 */
module Ws {
  import opened Wrappers
  import opened Text

  type Bytes = seq<byte>

  const CLOSED: string := "websocket connection was closed"
  const START: Bytes := [83, 84, 65, 82, 84]    // "START"
  const STOP: Bytes := [83, 84, 79, 80]         // "STOP"
  const CLOSE: Bytes := [67, 76, 79, 83, 69]    // "CLOSE"

  /** `income::Msg`. */
  datatype Income = Start(data: Bytes) | Stop | Close

  predicate Space(b: byte)
  {
    IsSpace(b)
  }

  // ------------------------------------------------------------- receiving

  /** The message a trimmed command names, with `data` the bytes after the command line. */
  function Dispatch(command: Bytes, data: Bytes): (r: Option<Income>)
    ensures r == Some(Start(data)) <==> command == START
    ensures r == Some(Stop) <==> command == STOP
    ensures r == Some(Close) <==> command == CLOSE
    ensures r.None? <==> command != START && command != STOP && command != CLOSE
  {
    if command == START then Some(Start(data))
    else if command == STOP then Some(Stop)
    else if command == CLOSE then Some(Close)
    else None
  }

  /**
   * One frame's payload: None when `recv` skips it.  The command is the
   * bytes through the first '\n', trimmed; everything after is the payload.
   */
  function Command(payload: Bytes): Option<Income>
  {
    match IndexOf(payload, NL)
    case None => None
    case Some(pos) => Dispatch(Trim(payload[..pos + 1], Space), payload[pos + 1..])
  }

  /** A frame without a newline is skipped. */
  lemma NoNewlineSkipped(payload: Bytes)
    requires NL !in payload
    ensures Command(payload) == None
  {
  }

  /**
   * The command is read from the first line alone, without its newline:
   * the rest of the frame, newlines included, is the START payload as is.
   */
  lemma CommandOfFirstLine(line: Bytes, rest: Bytes)
    requires NL !in line
    ensures Command(line + [NL] + rest) == Dispatch(Trim(line, Space), rest)
  {
    IndexOfAfter(line, NL, rest);
    var p := line + [NL] + rest;
    assert p[..|line| + 1] == line + [NL];
    TrimEndOfNewline(line);
  }

  /** The newline ending a command line is white space, trimmed with the rest. */
  lemma TrimEndOfNewline(line: Bytes)
    ensures Trim(line + [NL], Space) == Trim(line, Space)
  {
    var x := TrimStart(line, Space);
    if |x| == 0 {
      assert forall i :: 0 <= i < |line + [NL]| ==> Space((line + [NL])[i]) by {
        forall i | 0 <= i < |line + [NL]| ensures Space((line + [NL])[i]) {
          if i < |line| {
            assert (line + [NL])[i] == line[i];
          }
        }
      }
      AllSpaceTrimsEmpty(line + [NL]);
    } else {
      TrimStartAppend(line, [NL]);
      TrimEndSnoc(x, NL, Space);
    }
  }

  lemma {:induction false} AllSpaceTrimsEmpty(s: Bytes)
    requires forall i :: 0 <= i < |s| ==> Space(s[i])
    ensures TrimStart(s, Space) == []
    decreases |s|
  {
    if |s| > 0 {
      AllSpaceTrimsEmpty(s[1..]);
    }
  }

  lemma {:induction false} TrimStartAppend(s: Bytes, t: Bytes)
    requires |TrimStart(s, Space)| > 0
    ensures TrimStart(s + t, Space) == TrimStart(s, Space) + t
    decreases |s|
  {
    if Space(s[0]) {
      assert (s + t)[1..] == s[1..] + t;
      TrimStartAppend(s[1..], t);
    }
  }

  /** A command line holding exactly a command, without white space, names that command. */
  lemma BareCommand(command: Bytes, d: Bytes)
    requires NL !in command && Trimmed(command, Space)
    ensures Command(command + [NL] + d) == Dispatch(command, d)
  {
    CommandOfFirstLine(command, d);
    TrimOfTrimmed(command, Space);
  }

  /** What the manager sends reads back: "START\n" + payload, "STOP\n", "CLOSE\n". */
  lemma StartCommand(d: Bytes)
    ensures Command(START + [NL] + d) == Some(Start(d))
  {
    BareCommand(START, d);
  }

  lemma StopCommand(d: Bytes)
    ensures Command(STOP + [NL] + d) == Some(Stop)
  {
    BareCommand(STOP, d);
  }

  lemma CloseCommand(d: Bytes)
    ensures Command(CLOSE + [NL] + d) == Some(Close)
  {
    BareCommand(CLOSE, d);
  }

  /** What `recv` makes of one read: the read error, or the frame's command. */
  function Outcome(read: Result<Bytes, string>): (r: Result<Option<Income>, string>)
    ensures read.Failure? ==> r == Failure(read.error)
    ensures read.Success? ==> r == Success(Command(read.value))
  {
    match read
    case Failure(e) => Failure(e)
    case Success(payload) => Success(Command(payload))
  }

  function Outcomes(frames: seq<Result<Bytes, string>>): (r: seq<Result<Option<Income>, string>>)
    ensures |r| == |frames| && forall i :: 0 <= i < |frames| ==> r[i] == Outcome(frames[i])
  {
    seq(|frames|, i requires 0 <= i < |frames| => Outcome(frames[i]))
  }

  /** The outcome of one `recv`, with the number of frames it read. */
  datatype Received = Received(msg: Income, consumed: nat) | ReadFailed(cause: string, consumed: nat) | Closed

  /** A frame `recv` passes over. */
  predicate Skipped(o: Result<Option<Income>, string>)
  {
    o == Success(None)
  }

  /**
   * `recv` over the outcomes of the frames the stream delivers before it
   * ends: skipped frames are passed over; the first command or the first
   * failed read ends the call; the end of the stream is an error.
   */
  function NextCommand(outcomes: seq<Result<Option<Income>, string>>): (r: Received)
    ensures r.Received? ==>
      1 <= r.consumed <= |outcomes| && outcomes[r.consumed - 1] == Success(Some(r.msg))
    ensures r.ReadFailed? ==>
      1 <= r.consumed <= |outcomes| && outcomes[r.consumed - 1] == Failure(r.cause)
    ensures !r.Closed? ==> forall i :: 0 <= i < r.consumed - 1 ==> Skipped(outcomes[i])
    ensures r.Closed? ==> forall i :: 0 <= i < |outcomes| ==> Skipped(outcomes[i])
    decreases |outcomes|
  {
    if outcomes == [] then Closed
    else
      match outcomes[0]
      case Failure(e) => ReadFailed(e, 1)
      case Success(Some(m)) => Received(m, 1)
      case Success(None) =>
        match NextCommand(outcomes[1..])
        case Received(m, k) => Received(m, k + 1)
        case ReadFailed(e, k) => ReadFailed(e, k + 1)
        case Closed => Closed
  }

  /** What the caller of `recv` sees: the message, or the error. */
  function Answer(r: Received): (res: Result<Income, string>)
    ensures res.Success? <==> r.Received?
    ensures r.ReadFailed? ==> res == Failure(r.cause)
    ensures r.Closed? ==> res == Failure(CLOSED)
  {
    match r
    case Received(m, _) => Success(m)
    case ReadFailed(e, _) => Failure(e)
    case Closed => Failure(CLOSED)
  }

  lemma {:induction false} NextCommandAfterSkips(outcomes: seq<Result<Option<Income>, string>>, n: nat)
    requires n <= |outcomes| && forall i :: 0 <= i < n ==> Skipped(outcomes[i])
    ensures NextCommand(outcomes) == match NextCommand(outcomes[n..])
      case Received(m, k) => Received(m, k + n)
      case ReadFailed(e, k) => ReadFailed(e, k + n)
      case Closed => Closed
    decreases n
  {
    if n > 0 {
      assert Skipped(outcomes[0]);
      assert outcomes[1..][n - 1..] == outcomes[n..];
      NextCommandAfterSkips(outcomes[1..], n - 1);
    }
  }

  /** After `n` skipped outcomes, a failed read or a command at `n` is what `recv` returns. */
  lemma NextCommandAt(outcomes: seq<Result<Option<Income>, string>>, n: nat)
    requires n < |outcomes| && forall i :: 0 <= i < n ==> Skipped(outcomes[i])
    ensures outcomes[n].Failure? ==> NextCommand(outcomes) == ReadFailed(outcomes[n].error, n + 1)
    ensures outcomes[n].Success? && outcomes[n].value.Some? ==> NextCommand(outcomes) == Received(outcomes[n].value.value, n + 1)
  {
    NextCommandAfterSkips(outcomes, n);
    assert outcomes[n..][0] == outcomes[n];
  }

  /** `recv`'s loop: read a frame, skip it or return its command. */
  method Recv(frames: seq<Result<Bytes, string>>) returns (r: Received)
    ensures r == NextCommand(Outcomes(frames))
  {
    ghost var outcomes := Outcomes(frames);
    var i := 0;
    while i < |frames|
      invariant 0 <= i <= |frames|
      invariant forall j :: 0 <= j < i ==> Skipped(outcomes[j])
    {
      var o := Outcome(frames[i]);
      assert o == outcomes[i];
      match o {
        case Failure(e) =>
          NextCommandAt(outcomes, i);
          return ReadFailed(e, i + 1);
        case Success(Some(m)) =>
          NextCommandAt(outcomes, i);
          return Received(m, i + 1);
        case Success(None) =>
      }
      i := i + 1;
    }
    NextCommandAfterSkips(outcomes, i);
    return Closed;
  }

  // ------------------------------------------------------------- sending

  /**
   * `outgo::Msg`.  A verdict is carried as the text its `to_string` gives;
   * the source leaves that text undefined.
   */
  datatype Outgo =
    | FullTaskVerdict(verdict: string, data: string)
    | SubTaskVerdict(subtaskId: nat, verdict: string, data: string)
    | Exited(code: byte, data: string)
    | Error(msg: string)
    | OpError(msg: string)

  /** `send`: the text of the frame. */
  function Format(m: Outgo): string
  {
    match m
    case FullTaskVerdict(v, data) => "VERDICT " + v + "\n" + data + "\n"
    case SubTaskVerdict(id, v, data) => "SUBTASK " + NatToString(id) + "\nVERDICT " + v + "\n" + data + "\n"
    case Exited(code, data) => "EXITED " + NatToString(code) + "\n" + data + "\n"
    case Error(msg) => "ERROR\n" + msg + "\n"
    case OpError(msg) => "OPERROR\n" + msg + "\n"
  }

  /** A message whose text can be read back: its verdict stays on one line. */
  predicate Readable(m: Outgo)
  {
    (m.FullTaskVerdict? || m.SubTaskVerdict?) ==> '\n' !in m.verdict
  }

  /** A decimal number written without leading zeros. */
  function Decimal(s: string): (r: Option<nat>)
    ensures r.Some? ==> NatToString(r.value) == s
  {
    match ParseDigits(s)
    case None => None
    case Some(v) => if NatToString(v) == s then Some(v) else None
  }

  /** A reader of the invoker's answers: the header line names the kind, the last '\n' closes the message. */
  function Parse(s: string): Option<Outgo>
  {
    if |s| == 0 || s[|s| - 1] != '\n' then None
    else match SplitOnce(s[..|s| - 1], '\n')
      case None => None
      case Some((header, body)) => ParseParts(header, body)
  }

  /** The message a header line names, with the lines after it. */
  function ParseParts(header: string, body: string): Option<Outgo>
  {
    if header == "ERROR" then Some(Error(body))
    else if header == "OPERROR" then Some(OpError(body))
    else if "VERDICT " <= header then Some(FullTaskVerdict(header[8..], body))
    else if "EXITED " <= header then
      match Decimal(header[7..])
      case Some(code) => if code < 256 then Some(Exited(code, body)) else None
      case None => None
    else if "SUBTASK " <= header then
      match Decimal(header[8..])
      case None => None
      case Some(id) =>
        match SplitOnce(body, '\n')
        case None => None
        case Some((line, data)) => if "VERDICT " <= line then Some(SubTaskVerdict(id, line[8..], data)) else None
    else None
  }

  /** A header line and a body, each message's layout. */
  lemma HeaderAndBody(header: string, body: string)
    requires '\n' !in header
    ensures var s := header + "\n" + body + "\n";
      |s| > 0 && s[|s| - 1] == '\n' && SplitOnce(s[..|s| - 1], '\n') == Some((header, body))
  {
    var s := header + "\n" + body + "\n";
    assert s[..|s| - 1] == header + ['\n'] + body;
    SplitOnceAt(header, body, '\n');
  }

  lemma DecimalOfNat(n: nat)
    ensures Decimal(NatToString(n)) == Some(n)
  {
    ParseNatToString(n);
  }

  lemma DigitsHaveNoNewline(n: nat)
    ensures '\n' !in NatToString(n)
  {
    var t := NatToString(n);
    forall i | 0 <= i < |t| ensures t[i] != '\n' {
      assert IsDigit(t[i]);
    }
  }

  lemma ParseError(msg: string)
    ensures Parse(Format(Error(msg))) == Some(Error(msg))
  {
    assert Format(Error(msg)) == "ERROR" + "\n" + msg + "\n";
    HeaderAndBody("ERROR", msg);
  }

  lemma ParseOpError(msg: string)
    ensures Parse(Format(OpError(msg))) == Some(OpError(msg))
  {
    assert Format(OpError(msg)) == "OPERROR" + "\n" + msg + "\n";
    HeaderAndBody("OPERROR", msg);
    assert "OPERROR" != "ERROR";
  }

  lemma ParseFullTaskVerdict(v: string, data: string)
    requires '\n' !in v
    ensures Parse(Format(FullTaskVerdict(v, data))) == Some(FullTaskVerdict(v, data))
  {
    var header := "VERDICT " + v;
    assert Format(FullTaskVerdict(v, data)) == header + "\n" + data + "\n";
    assert '\n' !in header;
    HeaderAndBody(header, data);
    assert header[0] == 'V' && header[8..] == v;
  }

  lemma ParseExited(code: byte, data: string)
    ensures Parse(Format(Exited(code, data))) == Some(Exited(code, data))
  {
    var digits := NatToString(code);
    var header := "EXITED " + digits;
    assert Format(Exited(code, data)) == header + "\n" + data + "\n";
    DigitsHaveNoNewline(code);
    assert '\n' !in header;
    HeaderAndBody(header, data);
    assert |header| >= 8 && header[0] == 'E' && header[7..] == digits;
    DecimalOfNat(code);
  }

  /** The second line of a subtask verdict and the data after it. */
  lemma VerdictLine(v: string, data: string)
    requires '\n' !in v
    ensures var line := "VERDICT " + v;
      SplitOnce(line + "\n" + data, '\n') == Some((line, data)) && "VERDICT " <= line && line[8..] == v
  {
    var line := "VERDICT " + v;
    assert '\n' !in line;
    assert line + "\n" + data == line + ['\n'] + data;
    SplitOnceAt(line, data, '\n');
  }

  lemma ParseSubTaskVerdict(id: nat, v: string, data: string)
    requires '\n' !in v
    ensures Parse(Format(SubTaskVerdict(id, v, data))) == Some(SubTaskVerdict(id, v, data))
  {
    var digits := NatToString(id);
    var header := "SUBTASK " + digits;
    var body := ("VERDICT " + v) + "\n" + data;
    assert Format(SubTaskVerdict(id, v, data)) == header + "\n" + body + "\n";
    DigitsHaveNoNewline(id);
    assert '\n' !in header;
    HeaderAndBody(header, body);
    assert |header| >= 9 && header[0] == 'S' && header[8..] == digits && "SUBTASK " <= header;
    assert header != "ERROR" && header != "OPERROR" && !("VERDICT " <= header) && !("EXITED " <= header);
    DecimalOfNat(id);
    VerdictLine(v, data);
  }

  /** Every readable answer reads back as itself: the formats are told apart by their first line. */
  lemma ParseFormat(m: Outgo)
    requires Readable(m)
    ensures Parse(Format(m)) == Some(m)
  {
    match m
    case FullTaskVerdict(v, data) => ParseFullTaskVerdict(v, data);
    case SubTaskVerdict(id, v, data) => ParseSubTaskVerdict(id, v, data);
    case Exited(code, data) => ParseExited(code, data);
    case Error(msg) => ParseError(msg);
    case OpError(msg) => ParseOpError(msg);
  }

  /** Conversely, whatever the reader accepts is the text of a readable answer. */
  lemma FormatParse(s: string)
    requires Parse(s).Some?
    ensures Readable(Parse(s).value) && Format(Parse(s).value) == s
  {
    assert s == s[..|s| - 1] + ['\n'];
    var (header, body) := SplitOnce(s[..|s| - 1], '\n').value;
    assert s == header + "\n" + body + "\n";
    FormatParseParts(header, body);
  }

  lemma FormatParseParts(header: string, body: string)
    requires '\n' !in header && ParseParts(header, body).Some?
    ensures var m := ParseParts(header, body).value;
      Readable(m) && Format(m) == header + "\n" + body + "\n"
  {
    if header == "ERROR" || header == "OPERROR" {
    } else if "VERDICT " <= header {
      assert header == "VERDICT " + header[8..];
    } else if "EXITED " <= header {
      assert header == "EXITED " + header[7..];
    } else {
      FormatSubTask(header, body);
    }
  }

  lemma FormatSubTask(header: string, body: string)
    requires '\n' !in header && "SUBTASK " <= header && Decimal(header[8..]).Some?
    requires SplitOnce(body, '\n').Some? && "VERDICT " <= SplitOnce(body, '\n').value.0
    ensures var line := SplitOnce(body, '\n').value.0;
      var m := SubTaskVerdict(Decimal(header[8..]).value, line[8..], SplitOnce(body, '\n').value.1);
      Readable(m) && Format(m) == header + "\n" + body + "\n"
  {
    var id := Decimal(header[8..]).value;
    var (line, data) := SplitOnce(body, '\n').value;
    var m := SubTaskVerdict(id, line[8..], data);
    assert NatToString(id) == header[8..];
    assert Format(m) == "SUBTASK " + header[8..] + "\nVERDICT " + line[8..] + "\n" + data + "\n";
    assert header == "SUBTASK " + header[8..];
    assert line == "VERDICT " + line[8..];
    assert body == line + "\n" + data;
  }
}
