/**
 * The operator session in TypeScript (session.ts): `onData` reads one
 * command from a message (a header line of space-separated words, then body
 * lines) and acts on it; `build` and `run` record images and containers in
 * both directions.
 *
 * The container engine and the websocket client are outside the model:
 * what the session asks of them is recorded in `requests` and `reports`, and
 * what they answer (the new container's id, its host name, the clock) is a
 * parameter of `OnData`.
 */
module SessionTs {
  import opened Wrappers
  import opened Text
  import PosixPath

  // -------------------------------------------------------------- parseInt

  predicate IsHexDigit(c: char)
  {
    IsDigit(c) || 'a' <= c <= 'f' || 'A' <= c <= 'F'
  }

  function HexDigitValue(c: char): nat
    requires IsHexDigit(c)
  {
    if IsDigit(c) then c as int - '0' as int
    else if 'a' <= c <= 'f' then c as int - 'a' as int + 10
    else c as int - 'A' as int + 10
  }

  /** The leading hexadecimal digits of `s`. */
  function HexRun(s: string): (r: string)
    ensures r <= s && forall i :: 0 <= i < |r| ==> IsHexDigit(r[i])
  {
    if |s| == 0 || !IsHexDigit(s[0]) then [] else [s[0]] + HexRun(s[1..])
  }

  function HexValue(s: string): nat
    requires forall i :: 0 <= i < |s| ==> IsHexDigit(s[i])
  {
    if |s| == 0 then 0 else HexValue(s[..|s| - 1]) * 16 + HexDigitValue(s[|s| - 1])
  }

  /** The unsigned part of `parseInt`: hexadecimal digits after "0x" or "0X", or else decimal digits. */
  function Magnitude(u: string): Option<nat>
  {
    if |u| >= 2 && u[0] == '0' && (u[1] == 'x' || u[1] == 'X') then
      var h := HexRun(u[2..]);
      if h == [] then None else Some(HexValue(h))
    else
      var d := DigitRun(u);
      if d == [] then None else Some(DigitsValue(d))
  }

  function Signed(m: Option<nat>, negative: bool): Option<int>
  {
    match m
    case None => None
    case Some(v) => Some(if negative then -(v as int) else v as int)
  }

  /**
   * `parseInt(s)` without a radix: leading white space, an optional sign,
   * then the magnitude; whatever follows the digits is ignored.  None stands
   * for NaN, when no digit is there.
   */
  function ParseInt(s: string): Option<int>
  {
    var t := TrimStart(s, IsSpaceChar);
    if |t| > 0 && t[0] == '-' then Signed(Magnitude(t[1..]), true)
    else if |t| > 0 && t[0] == '+' then Signed(Magnitude(t[1..]), false)
    else Signed(Magnitude(t), false)
  }

  /** What may follow a number without being read as part of it. */
  predicate Stops(rest: string)
  {
    rest == [] || !(IsDigit(rest[0]) || rest[0] == 'x' || rest[0] == 'X')
  }

  lemma MagnitudeOf(n: nat, rest: string)
    requires Stops(rest)
    ensures Magnitude(NatToString(n) + rest) == Some(n)
  {
    var d := NatToString(n);
    var u := d + rest;
    assert u[0] == d[0];
    if |d| >= 2 {
      assert u[1] == d[1];
    } else if |u| >= 2 {
      assert u[1] == rest[0];
    }
    DigitRunOf(d, rest);
    DigitsValueOfNat(n);
  }

  lemma NoLeadingSpace(s: string)
    requires |s| > 0 && !IsSpaceChar(s[0])
    ensures TrimStart(s, IsSpaceChar) == s
  {
  }

  lemma ParseIntMinus(u: string)
    ensures ParseInt("-" + u) == Signed(Magnitude(u), true)
  {
    var s := "-" + u;
    NoLeadingSpace(s);
    assert s[1..] == u;
  }

  lemma ParseIntPlain(u: string)
    requires |u| > 0 && IsDigit(u[0])
    ensures ParseInt(u) == Signed(Magnitude(u), false)
  {
    NoLeadingSpace(u);
  }

  lemma ParseNegative(i: int, rest: string)
    requires i < 0 && Stops(rest)
    ensures ParseInt(IntToString(i) + rest) == Some(i)
  {
    var n: nat := -i;
    var u := NatToString(n) + rest;
    var s := IntToString(i) + rest;
    NegativeText(i, rest);
    MagnitudeOf(n, rest);
    ParseIntMinusOf(s, u);
  }

  lemma ParseIntMinusOf(s: string, u: string)
    requires s == "-" + u
    ensures ParseInt(s) == Signed(Magnitude(u), true)
  {
    ParseIntMinus(u);
  }

  lemma NegativeText(i: int, rest: string)
    requires i < 0
    ensures IntToString(i) + rest == "-" + (NatToString(-i) + rest)
  {
    var d := NatToString(-i);
    assert IntToString(i) == "-" + d;
    assert ("-" + d) + rest == "-" + (d + rest);
  }

  lemma ParseNonNegative(n: nat, rest: string)
    requires Stops(rest)
    ensures ParseInt(IntToString(n) + rest) == Some(n)
  {
    var d := NatToString(n);
    MagnitudeOf(n, rest);
    assert (d + rest)[0] == d[0];
    ParseIntPlain(d + rest);
  }

  /** `parseInt` reads back the decimal text of every integer, whatever follows that cannot continue it. */
  lemma ParseIntOf(i: int, rest: string)
    requires Stops(rest)
    ensures ParseInt(IntToString(i) + rest) == Some(i)
  {
    if i < 0 {
      ParseNegative(i, rest);
    } else {
      ParseNonNegative(i, rest);
    }
  }

  /** `parseInt` reads the decimal text of an integer alone. */
  lemma ParseIntOfText(i: int)
    ensures ParseInt(IntToString(i)) == Some(i)
  {
    ParseIntOf(i, "");
    assert IntToString(i) + "" == IntToString(i);
  }

  /** A number written in hexadecimal after "0x" reads as its value. */
  lemma ParseIntHex()
    ensures ParseInt("0x1F") == Some(31)
  {
    var s := "0x1F";
    assert TrimStart(s, IsSpaceChar) == s;
    assert s[2..] == "1F";
    assert HexRun("1F"[1..]) == "F" by {
      assert "1F"[1..] == "F";
      assert HexRun("F"[1..]) == [];
    }
    assert HexRun("1F") == "1F";
    assert "1F"[..1] == "1";
    assert HexValue("1") == 1 by {
      assert "1"[..0] == [];
    }
  }

  // -------------------------------------------------------------- keywords

  /** The words `onData` tells apart. */
  datatype Keyword =
    | KBuild | KRun | KRestart | KStop | KWrite | KHost | KVerdict
    | KStdout | KStderr | KVolume | KEnv | KNetwork | KSub | KData
    | Plain

  function KeywordOf(w: string): Keyword
  {
    if w == "BUILD" then KBuild
    else if w == "RUN" then KRun
    else if w == "RESTART" then KRestart
    else if w == "STOP" then KStop
    else if w == "WRITE" then KWrite
    else if w == "HOST" then KHost
    else if w == "VERDICT" then KVerdict
    else if w == "STDOUT" then KStdout
    else if w == "STDERR" then KStderr
    else if w == "VOLUME" then KVolume
    else if w == "ENV" then KEnv
    else if w == "NETWORK" then KNetwork
    else if w == "SUB" then KSub
    else if w == "DATA" then KData
    else Plain
  }

  function Spelling(k: Keyword): string
  {
    match k
    case KBuild => "BUILD"
    case KRun => "RUN"
    case KRestart => "RESTART"
    case KStop => "STOP"
    case KWrite => "WRITE"
    case KHost => "HOST"
    case KVerdict => "VERDICT"
    case KStdout => "STDOUT"
    case KStderr => "STDERR"
    case KVolume => "VOLUME"
    case KEnv => "ENV"
    case KNetwork => "NETWORK"
    case KSub => "SUB"
    case KData => "DATA"
    case Plain => ""
  }

  /** Every keyword is told apart by its spelling. */
  lemma KeywordOfSpelling(k: Keyword)
    ensures KeywordOf(Spelling(k)) == k
  {
    match k
    case KStderr =>
      assert "STDERR"[4] != "STDOUT"[4];
    case KSub =>
      assert "SUB"[0] != "RUN"[0] && "SUB"[0] != "ENV"[0];
    case KData =>
      assert "DATA"[0] != "STOP"[0] && "DATA"[0] != "HOST"[0];
    case KHost =>
      assert "HOST"[0] != "STOP"[0];
    case KEnv =>
      assert "ENV"[0] != "RUN"[0];
    case _ =>
  }

  // ----------------------------------------------------------- the command

  datatype Volume = Volume(host: string, container: string)

  /** What RUN collects before it starts a container. */
  datatype Options = Options(
    stdout: string,
    stderr: string,
    volumes: seq<Volume>,
    env: map<string, string>,
    networks: seq<string>,
    initStdin: string)

  /** stdout "normal", stderr "onEnd", nothing else. */
  const DEFAULTS := Options("normal", "onEnd", [], map[], [], "")

  datatype Command =
    | Build(image: int, context: string, dockerfile: string)
    | Run(id: int, image: int, options: Options)
    | Restart(id: int)
    | Stop(id: int)
    | Write(id: int, buffer: string)
    | Host(id: int)
    | Verdict(verdict: string, subtask: Option<string>, data: string)

  /** `lines[i] || ''`. */
  function LineOr(lines: seq<string>, i: nat): string
  {
    if i < |lines| then lines[i] else ""
  }

  /** `.slice(1)`: all but the first character. */
  function Behead(s: string): string
  {
    if |s| == 0 then "" else s[1..]
  }

  /**
   * The RUN sub-options in the header words and body lines not yet read.
   * None when a header word or body line a sub-option needs is missing: the
   * whole message is then dropped.  WRITE ends the options and takes every
   * remaining body line; an unknown word is skipped.
   */
  function Scan(words: seq<string>, lines: seq<string>, o: Options): Option<Options>
    decreases |words|
  {
    if words == [] then Some(o)
    else
      match KeywordOf(words[0])
      case KStdout =>
        if |words| < 2 then None else Scan(words[2..], lines, o.(stdout := words[1]))
      case KStderr =>
        if |words| < 2 then None else Scan(words[2..], lines, o.(stderr := words[1]))
      case KVolume =>
        if |lines| < 2 then None
        else Scan(words[1..], lines[2..], o.(volumes := o.volumes + [Volume(Behead(lines[0]), Behead(lines[1]))]))
      case KEnv =>
        if |words| < 2 || |lines| < 1 then None
        else Scan(words[2..], lines[1..], o.(env := o.env[words[1] := Behead(lines[0])]))
      case KNetwork =>
        if |lines| < 1 then None
        else Scan(words[1..], lines[1..], o.(networks := o.networks + [Behead(lines[0])]))
      case KWrite =>
        Some(o.(initStdin := Join(lines, '\n')))
      case _ => Scan(words[1..], lines, o)
  }

  /** The id in header word `i`, when there is one and it parses. */
  function IdAt(words: seq<string>, i: nat): Option<int>
  {
    if i < |words| then ParseInt(words[i]) else None
  }

  function ParseRun(words: seq<string>, lines: seq<string>): Option<Command>
    requires |lines| >= 1
  {
    if |words| < 3 then None
    else
      match (ParseInt(words[1]), ParseInt(words[2]))
      case (Some(id), Some(image)) => RunOf(id, image, Scan(words[3..], lines[1..], DEFAULTS))
      case _ => None
  }

  /** The RUN command for the options the loop read, when it read them. */
  function RunOf(id: int, image: int, o: Option<Options>): Option<Command>
  {
    match o
    case None => None
    case Some(v) => Some(Run(id, image, v))
  }

  /** VERDICT v [SUB s] [DATA]: the data is every line after the first. */
  function ParseVerdict(words: seq<string>, lines: seq<string>): Option<Command>
    requires |lines| >= 1
  {
    if |words| < 2 then None
    else
      var hasSub := 2 < |words| && KeywordOf(words[2]) == KSub;
      if hasSub && 3 >= |words| then None
      else
        var subtask := if hasSub then Some(words[3]) else None;
        var dataIdx := if hasSub then 4 else 2;
        var data := if dataIdx < |words| && KeywordOf(words[dataIdx]) == KData then Join(lines[1..], '\n') else "";
        Some(Verdict(words[1], subtask, data))
  }

  /** The command of a message split into its lines and its header words. */
  function ParseWords(words: seq<string>, lines: seq<string>): Option<Command>
    requires |words| >= 1 && |lines| >= 1
  {
    match KeywordOf(words[0])
    case KBuild =>
      (match IdAt(words, 1)
       case None => None
       case Some(image) => Some(Build(image, LineOr(lines, 1), LineOr(lines, 2))))
    case KRun => ParseRun(words, lines)
    case KRestart => (match IdAt(words, 1) case None => None case Some(id) => Some(Restart(id)))
    case KStop => (match IdAt(words, 1) case None => None case Some(id) => Some(Stop(id)))
    case KWrite => (match IdAt(words, 1) case None => None case Some(id) => Some(Write(id, Join(lines[1..], '\n'))))
    case KHost => (match IdAt(words, 1) case None => None case Some(id) => Some(Host(id)))
    case KVerdict => ParseVerdict(words, lines)
    case _ => None
  }

  /** `onData`'s reading of a message: None when it is dropped. */
  function Parse(data: string): Option<Command>
  {
    if data == "" then None
    else
      var lines := Split(data, '\n');
      ParseWords(Split(lines[0], ' '), lines)
  }

  /**
   * The RUN sub-option loop of `onData`: it advances through the header
   * words and the body lines together.
   */
  method ReadOptions(words: seq<string>, lines: seq<string>) returns (r: Option<Options>)
    requires |words| >= 3 && |lines| >= 1
    ensures r == Scan(words[3..], lines[1..], DEFAULTS)
  {
    var o := DEFAULTS;
    var subIdx := 3;
    var lineIdx := 1;
    while subIdx < |words|
      invariant subIdx <= |words| && lineIdx <= |lines|
      invariant Scan(words[subIdx..], lines[lineIdx..], o) == Scan(words[3..], lines[1..], DEFAULTS)
      decreases |words| - subIdx
    {
      ghost var w, l := words[subIdx..], lines[lineIdx..];
      var sub := KeywordOf(words[subIdx]);
      subIdx := subIdx + 1;
      if sub == KStdout {
        if subIdx >= |words| {
          return None;
        }
        o := o.(stdout := words[subIdx]);
        subIdx := subIdx + 1;
        assert w[2..] == words[subIdx..];
      } else if sub == KStderr {
        if subIdx >= |words| {
          return None;
        }
        o := o.(stderr := words[subIdx]);
        subIdx := subIdx + 1;
        assert w[2..] == words[subIdx..];
      } else if sub == KVolume {
        if lineIdx >= |lines| {
          return None;
        }
        var from := Behead(lines[lineIdx]);
        lineIdx := lineIdx + 1;
        if lineIdx >= |lines| {
          return None;
        }
        var to := Behead(lines[lineIdx]);
        lineIdx := lineIdx + 1;
        o := o.(volumes := o.volumes + [Volume(from, to)]);
        assert w[1..] == words[subIdx..] && l[2..] == lines[lineIdx..];
      } else if sub == KEnv {
        if subIdx >= |words| {
          return None;
        }
        var key := words[subIdx];
        subIdx := subIdx + 1;
        if lineIdx >= |lines| {
          return None;
        }
        var value := Behead(lines[lineIdx]);
        lineIdx := lineIdx + 1;
        o := o.(env := o.env[key := value]);
        assert w[2..] == words[subIdx..] && l[1..] == lines[lineIdx..];
      } else if sub == KNetwork {
        if lineIdx >= |lines| {
          return None;
        }
        var network := Behead(lines[lineIdx]);
        lineIdx := lineIdx + 1;
        o := o.(networks := o.networks + [network]);
        assert w[1..] == words[subIdx..] && l[1..] == lines[lineIdx..];
      } else if sub == KWrite {
        return Some(o.(initStdin := Join(lines[lineIdx..], '\n')));
      } else {
        assert w[1..] == words[subIdx..];
      }
    }
    return Some(o);
  }

  /** `onData`'s reading of a message, the RUN sub-options by the loop. */
  method ReadCommand(data: string) returns (c: Option<Command>)
    ensures c == Parse(data)
  {
    if data == "" {
      return None;
    }
    var lines := Split(data, '\n');
    var words := Split(lines[0], ' ');
    c := ReadWords(words, lines);
  }

  /** The dispatch on the header's first word. */
  method ReadWords(words: seq<string>, lines: seq<string>) returns (c: Option<Command>)
    requires |words| >= 1 && |lines| >= 1
    ensures c == ParseWords(words, lines)
  {
    var kind := KeywordOf(words[0]);
    if kind == KRun {
      c := ReadRun(words, lines);
      return;
    }
    if kind == KVerdict {
      return ParseVerdict(words, lines);
    }
    var id := IdAt(words, 1);
    if id.None? {
      return None;
    }
    match kind
    case KBuild => c := Some(Build(id.value, LineOr(lines, 1), LineOr(lines, 2)));
    case KRestart => c := Some(Restart(id.value));
    case KStop => c := Some(Stop(id.value));
    case KWrite => c := Some(Write(id.value, Join(lines[1..], '\n')));
    case KHost => c := Some(Host(id.value));
    case _ => c := None;
  }

  /** RUN id image, then the sub-options. */
  method ReadRun(words: seq<string>, lines: seq<string>) returns (c: Option<Command>)
    requires |lines| >= 1
    ensures c == ParseRun(words, lines)
  {
    if |words| < 3 {
      return None;
    }
    var id := ParseInt(words[1]);
    var image := ParseInt(words[2]);
    if id.None? || image.None? {
      return None;
    }
    var o := ReadOptions(words, lines);
    if o.None? {
      return None;
    }
    return Some(Run(id.value, image.value, o.value));
  }

  /** A message made of lines, the first of them a header of words, reads as those lines and words. */
  lemma ReadLines(lines: seq<string>, words: seq<string>)
    requires |lines| >= 1 && |words| >= 1 && words[0] != ""
    requires lines[0] == Join(words, ' ')
    requires forall k :: 0 <= k < |lines| ==> '\n' !in lines[k]
    requires forall k :: 0 <= k < |words| ==> ' ' !in words[k]
    ensures Parse(Join(lines, '\n')) == ParseWords(words, lines)
  {
    SplitJoin(lines, '\n');
    SplitJoin(words, ' ');
    JoinStarts(words, ' ');
    JoinStarts(lines, '\n');
  }

  lemma JoinStarts<T>(parts: seq<seq<T>>, sep: T)
    requires |parts| >= 1
    ensures parts[0] <= Join(parts, sep)
  {
  }

  // ------------------------------------------------- a reference RUN writer

  /** One sub-option, as an operator would write it. */
  datatype Opt =
    | SetStdout(mode: string)
    | SetStderr(mode: string)
    | AddVolume(from: string, to: string)
    | SetEnv(key: string, value: string)
    | AddNetwork(name: string)

  /** The header words of a sub-option. */
  function OptWords(x: Opt): seq<string>
  {
    match x
    case SetStdout(m) => ["STDOUT", m]
    case SetStderr(m) => ["STDERR", m]
    case AddVolume(_, _) => ["VOLUME"]
    case SetEnv(k, _) => ["ENV", k]
    case AddNetwork(_) => ["NETWORK"]
  }

  /** The body lines of a sub-option, each behind one space. */
  function OptLines(x: Opt): seq<string>
  {
    match x
    case AddVolume(from, to) => [" " + from, " " + to]
    case SetEnv(_, v) => [" " + v]
    case AddNetwork(n) => [" " + n]
    case _ => []
  }

  function AllWords(opts: seq<Opt>): seq<string>
  {
    if opts == [] then [] else OptWords(opts[0]) + AllWords(opts[1..])
  }

  function AllLines(opts: seq<Opt>): seq<string>
  {
    if opts == [] then [] else OptLines(opts[0]) + AllLines(opts[1..])
  }

  /** The meaning of a sub-option, independent of where its words and lines sit. */
  function Apply(o: Options, x: Opt): Options
  {
    match x
    case SetStdout(m) => o.(stdout := m)
    case SetStderr(m) => o.(stderr := m)
    case AddVolume(from, to) => o.(volumes := o.volumes + [Volume(from, to)])
    case SetEnv(k, v) => o.(env := o.env[k := v])
    case AddNetwork(n) => o.(networks := o.networks + [n])
  }

  function ApplyAll(o: Options, opts: seq<Opt>): Options
    decreases |opts|
  {
    if opts == [] then o else ApplyAll(Apply(o, opts[0]), opts[1..])
  }

  /** A header word: no space and no newline. */
  predicate WordOk(w: string)
  {
    ' ' !in w && '\n' !in w
  }

  predicate OptOk(x: Opt)
  {
    match x
    case SetStdout(m) => WordOk(m)
    case SetStderr(m) => WordOk(m)
    case AddVolume(from, to) => '\n' !in from && '\n' !in to
    case SetEnv(k, v) => WordOk(k) && '\n' !in v
    case AddNetwork(n) => '\n' !in n
  }

  /** The header of a RUN message: "RUN id image", the sub-options' words, then the words in `tail`. */
  function RunHeader(id: int, image: int, opts: seq<Opt>, tail: seq<string>): seq<string>
  {
    ["RUN", IntToString(id), IntToString(image)] + AllWords(opts) + tail
  }

  /** The message with the given header tail: its header line, the sub-options' body lines, then `more` lines. */
  function RunLines(id: int, image: int, opts: seq<Opt>, tail: seq<string>, more: seq<string>): string
  {
    Join([Join(RunHeader(id, image, opts, tail), ' ')] + AllLines(opts) + more, '\n')
  }

  function WriteWord(write: bool): seq<string>
  {
    if write then ["WRITE"] else []
  }

  /** A RUN message, with WRITE and the stdin lines after it when `write`. */
  function RunText(id: int, image: int, opts: seq<Opt>, write: bool, stdin: seq<string>): string
  {
    RunLines(id, image, opts, WriteWord(write), if write then stdin else [])
  }

  lemma AllCons(o: Options, x: Opt, rest: seq<Opt>)
    ensures AllWords([x] + rest) == OptWords(x) + AllWords(rest)
    ensures AllLines([x] + rest) == OptLines(x) + AllLines(rest)
    ensures ApplyAll(o, [x] + rest) == ApplyAll(Apply(o, x), rest)
  {
    assert ([x] + rest)[1..] == rest;
  }

  /** The sub-option loop reads the writer's sub-options one after the other, with their meaning. */
  lemma {:induction false} ScanOpts(o: Options, opts: seq<Opt>, moreWords: seq<string>, moreLines: seq<string>)
    ensures Scan(AllWords(opts) + moreWords, AllLines(opts) + moreLines, o) ==
      Scan(moreWords, moreLines, ApplyAll(o, opts))
    decreases |opts|
  {
    if opts == [] {
      assert AllWords(opts) + moreWords == moreWords;
      assert AllLines(opts) + moreLines == moreLines;
    } else {
      var x, rest := opts[0], opts[1..];
      assert opts == [x] + rest;
      AllCons(o, x, rest);
      var w, l := AllWords(rest) + moreWords, AllLines(rest) + moreLines;
      assert AllWords(opts) + moreWords == OptWords(x) + w;
      assert AllLines(opts) + moreLines == OptLines(x) + l;
      ScanHead(o, x, w, l);
      ScanOpts(Apply(o, x), rest, moreWords, moreLines);
    }
  }

  /** One sub-option's step of the loop. */
  lemma ScanHead(o: Options, x: Opt, w: seq<string>, l: seq<string>)
    ensures Scan(OptWords(x) + w, OptLines(x) + l, o) == Scan(w, l, Apply(o, x))
  {
    var words, lines := OptWords(x) + w, OptLines(x) + l;
    KeywordOfSpelling(KStdout);
    KeywordOfSpelling(KStderr);
    KeywordOfSpelling(KVolume);
    KeywordOfSpelling(KEnv);
    KeywordOfSpelling(KNetwork);
    match x
    case SetStdout(m) =>
      assert words[0] == "STDOUT" && words[1] == m && words[2..] == w && lines == l;
    case SetStderr(m) =>
      assert words[0] == "STDERR" && words[1] == m && words[2..] == w && lines == l;
    case AddVolume(from, to) =>
      assert words[0] == "VOLUME" && words[1..] == w;
      assert lines[0] == " " + from && lines[1] == " " + to && lines[2..] == l;
      assert Behead(" " + from) == from && Behead(" " + to) == to;
    case SetEnv(k, v) =>
      assert words[0] == "ENV" && words[1] == k && words[2..] == w;
      assert lines[0] == " " + v && lines[1..] == l;
      assert Behead(" " + v) == v;
    case AddNetwork(n) =>
      assert words[0] == "NETWORK" && words[1..] == w;
      assert lines[0] == " " + n && lines[1..] == l;
      assert Behead(" " + n) == n;
  }

  lemma {:induction false} AllWordsOk(opts: seq<Opt>)
    requires forall i :: 0 <= i < |opts| ==> OptOk(opts[i])
    ensures forall i :: 0 <= i < |AllWords(opts)| ==> WordOk(AllWords(opts)[i])
    ensures forall i :: 0 <= i < |AllLines(opts)| ==> '\n' !in AllLines(opts)[i]
    decreases |opts|
  {
    if opts != [] {
      AllWordsOk(opts[1..]);
      var x := opts[0];
      assert OptOk(x);
      assert forall i :: 0 <= i < |OptWords(x)| ==> WordOk(OptWords(x)[i]);
      assert forall i :: 0 <= i < |OptLines(x)| ==> '\n' !in OptLines(x)[i];
    }
  }

  lemma DecimalOk(i: int)
    ensures WordOk(IntToString(i))
  {
    var d := NatToString(if i < 0 then -i else i);
    assert ' ' !in d && '\n' !in d by {
      assert forall k :: 0 <= k < |d| ==> IsDigit(d[k]);
    }
    if i < 0 {
      assert IntToString(i) == "-" + d;
    }
  }

  /** The lines of a RUN message hold no newline, and its header words no space. */
  lemma RunTextLines(id: int, image: int, opts: seq<Opt>, tail: seq<string>, more: seq<string>)
    requires forall i :: 0 <= i < |opts| ==> OptOk(opts[i])
    requires forall i :: 0 <= i < |tail| ==> WordOk(tail[i])
    requires forall i :: 0 <= i < |more| ==> '\n' !in more[i]
    ensures forall k :: 0 <= k < |RunHeader(id, image, opts, tail)| ==> ' ' !in RunHeader(id, image, opts, tail)[k]
    ensures forall k :: 0 <= k < |[Join(RunHeader(id, image, opts, tail), ' ')] + AllLines(opts) + more| ==>
      '\n' !in ([Join(RunHeader(id, image, opts, tail), ' ')] + AllLines(opts) + more)[k]
  {
    var header := RunHeader(id, image, opts, tail);
    var lines := [Join(header, ' ')] + AllLines(opts) + more;
    AllWordsOk(opts);
    DecimalOk(id);
    DecimalOk(image);
    forall k | 0 <= k < |header| ensures WordOk(header[k]) {
      if 3 <= k < 3 + |AllWords(opts)| {
        assert header[k] == AllWords(opts)[k - 3];
      } else if k >= 3 + |AllWords(opts)| {
        assert header[k] == tail[k - 3 - |AllWords(opts)|];
      }
    }
    JoinAvoids(header, ' ', '\n');
    forall k | 0 <= k < |lines| ensures '\n' !in lines[k] {
      if 1 <= k < 1 + |AllLines(opts)| {
        assert lines[k] == AllLines(opts)[k - 1];
      } else if k >= 1 + |AllLines(opts)| {
        assert lines[k] == more[k - 1 - |AllLines(opts)|];
      }
    }
  }

  /** A RUN message is read as its ids and what the sub-option loop makes of the rest. */
  lemma RunParsesAs(id: int, image: int, opts: seq<Opt>, tail: seq<string>, more: seq<string>)
    requires forall i :: 0 <= i < |opts| ==> OptOk(opts[i])
    requires forall i :: 0 <= i < |tail| ==> WordOk(tail[i])
    requires forall i :: 0 <= i < |more| ==> '\n' !in more[i]
    ensures Parse(RunLines(id, image, opts, tail, more)) ==
      RunOf(id, image, Scan(AllWords(opts) + tail, AllLines(opts) + more, DEFAULTS))
  {
    var header := RunHeader(id, image, opts, tail);
    var lines := [Join(header, ' ')] + AllLines(opts) + more;
    RunTextLines(id, image, opts, tail, more);
    HeaderShape(id, image, opts, tail);
    LinesShape(Join(header, ' '), AllLines(opts), more);
    ReadLines(lines, header);
    RunWords(header, lines, id, image);
  }

  lemma HeaderShape(id: int, image: int, opts: seq<Opt>, tail: seq<string>)
    ensures |RunHeader(id, image, opts, tail)| >= 3
    ensures RunHeader(id, image, opts, tail)[0] == "RUN"
    ensures RunHeader(id, image, opts, tail)[1] == IntToString(id)
    ensures RunHeader(id, image, opts, tail)[2] == IntToString(image)
    ensures RunHeader(id, image, opts, tail)[3..] == AllWords(opts) + tail
  {
    var h := RunHeader(id, image, opts, tail);
    assert h == ["RUN", IntToString(id), IntToString(image)] + (AllWords(opts) + tail);
  }

  lemma LinesShape<T>(first: T, a: seq<T>, b: seq<T>)
    ensures ([first] + a + b)[0] == first && ([first] + a + b)[1..] == a + b
  {
    assert [first] + a + b == [first] + (a + b);
  }

  /** The words of a RUN header with both ids readable. */
  lemma RunWords(header: seq<string>, lines: seq<string>, id: int, image: int)
    requires |header| >= 3 && |lines| >= 1
    requires header[0] == "RUN" && header[1] == IntToString(id) && header[2] == IntToString(image)
    ensures ParseWords(header, lines) == RunOf(id, image, Scan(header[3..], lines[1..], DEFAULTS))
  {
    KeywordOfSpelling(KRun);
    ParseIntOfText(id);
    ParseIntOfText(image);
  }

  /**
   * Round trip: the session reads a RUN message back as the container id,
   * the image id and the defaults with every sub-option applied in order;
   * with WRITE, the stdin is the remaining lines joined by newlines.
   */
  lemma ParseRunText(id: int, image: int, opts: seq<Opt>, write: bool, stdin: seq<string>)
    requires forall i :: 0 <= i < |opts| ==> OptOk(opts[i])
    requires forall i :: 0 <= i < |stdin| ==> '\n' !in stdin[i]
    ensures Parse(RunText(id, image, opts, write, stdin)) ==
      Some(Run(id, image, if write then ApplyAll(DEFAULTS, opts).(initStdin := Join(stdin, '\n')) else ApplyAll(DEFAULTS, opts)))
  {
    var more := if write then stdin else [];
    RunParsesAs(id, image, opts, WriteWord(write), more);
    ScanOpts(DEFAULTS, opts, WriteWord(write), more);
    WriteTail(ApplyAll(DEFAULTS, opts), write, stdin);
  }

  /** After the last sub-option, WRITE takes the remaining lines as the stdin. */
  lemma WriteTail(o: Options, write: bool, stdin: seq<string>)
    ensures Scan(WriteWord(write), if write then stdin else [], o) ==
      Some(if write then o.(initStdin := Join(stdin, '\n')) else o)
  {
    KeywordOfSpelling(KWrite);
  }

  /** The last of two settings of the same kind wins, as in the writer's meaning. */
  lemma LaterStdoutWins(a: string, b: string)
    ensures ApplyAll(DEFAULTS, [SetStdout(a), SetStdout(b)]).stdout == b
  {
    var o := Apply(DEFAULTS, SetStdout(a));
    assert [SetStdout(a), SetStdout(b)][1..] == [SetStdout(b)];
    assert ApplyAll(DEFAULTS, [SetStdout(a), SetStdout(b)]) == ApplyAll(o, [SetStdout(b)]);
    assert [SetStdout(b)][1..] == [];
    assert ApplyAll(o, [SetStdout(b)]) == ApplyAll(Apply(o, SetStdout(b)), []);
  }

  /** A NETWORK without its body line drops the whole RUN message. */
  lemma MissingLineDrops(id: int, image: int, opts: seq<Opt>)
    requires forall i :: 0 <= i < |opts| ==> OptOk(opts[i])
    ensures Parse(RunLines(id, image, opts, ["NETWORK"], [])) == None
  {
    RunParsesAs(id, image, opts, ["NETWORK"], []);
    ScanOpts(DEFAULTS, opts, ["NETWORK"], []);
    NetworkWithoutLine(ApplyAll(DEFAULTS, opts));
  }

  lemma NetworkWithoutLine(o: Options)
    ensures Scan(["NETWORK"], [], o) == None
  {
    KeywordOfSpelling(KNetwork);
  }

  /** VERDICT reads a subtask only from the header line. */
  lemma VerdictOfHeader(verdict: string, subtask: string, data: seq<string>)
    requires WordOk(verdict) && WordOk(subtask)
    requires forall i :: 0 <= i < |data| ==> '\n' !in data[i]
    ensures Parse(Join([Join(["VERDICT", verdict, "SUB", subtask, "DATA"], ' ')] + data, '\n')) ==
      Some(Verdict(verdict, Some(subtask), Join(data, '\n')))
  {
    var header := ["VERDICT", verdict, "SUB", subtask, "DATA"];
    VerdictHeaderOk(verdict, subtask);
    LinesAvoid(Join(header, ' '), data);
    ReadLines([Join(header, ' ')] + data, header);
    VerdictWords(verdict, subtask, [Join(header, ' ')] + data);
    assert ([Join(header, ' ')] + data)[1..] == data;
  }

  lemma VerdictHeaderOk(verdict: string, subtask: string)
    requires WordOk(verdict) && WordOk(subtask)
    ensures forall k :: 0 <= k < 5 ==> ' ' !in ["VERDICT", verdict, "SUB", subtask, "DATA"][k]
    ensures '\n' !in Join(["VERDICT", verdict, "SUB", subtask, "DATA"], ' ')
  {
    var header := ["VERDICT", verdict, "SUB", subtask, "DATA"];
    SpellingOk(KVerdict);
    SpellingOk(KSub);
    SpellingOk(KData);
    forall k | 0 <= k < |header| ensures WordOk(header[k]) {
    }
    JoinAvoids(header, ' ', '\n');
  }

  /** A keyword is a single header word. */
  lemma SpellingOk(k: Keyword)
    ensures WordOk(Spelling(k))
  {
  }

  lemma LinesAvoid(first: string, more: seq<string>)
    requires '\n' !in first
    requires forall i :: 0 <= i < |more| ==> '\n' !in more[i]
    ensures forall k :: 0 <= k < |[first] + more| ==> '\n' !in ([first] + more)[k]
  {
    forall k | 0 <= k < |[first] + more| ensures '\n' !in ([first] + more)[k] {
      if k >= 1 {
        assert ([first] + more)[k] == more[k - 1];
      }
    }
  }

  lemma VerdictWords(verdict: string, subtask: string, lines: seq<string>)
    requires |lines| >= 1
    ensures ParseWords(["VERDICT", verdict, "SUB", subtask, "DATA"], lines) ==
      Some(Verdict(verdict, Some(subtask), Join(lines[1..], '\n')))
  {
    KeywordOfSpelling(KVerdict);
    KeywordOfSpelling(KSub);
    KeywordOfSpelling(KData);
  }

  // ---------------------------------------------------------------- session

  /** A request to the container engine. */
  datatype Request =
    | BuildImage(tag: string, context: string, dockerfile: string)
    | Create(image: Option<string>, env: map<string, string>, volumes: seq<Volume>, networks: seq<string>)
    | Start(started: string, stdin: string)
    | RestartContainer(container: Option<string>)
    | StopContainer(container: Option<string>)
    | WriteContainer(container: Option<string>, chunk: string)
    | GetName(container: Option<string>)

  /** A verdict handed to the websocket client for the session's task. */
  datatype Report =
    | FullVerdict(taskId: string, verdict: string, data: string)
    | SubtaskVerdict(taskId: string, subtask: string, verdict: string, data: string)

  /** `getImageTag`: the clock, the session and the image, joined by '-'. */
  function ImageTag(now: int, session: int, image: int): string
  {
    IntToString(now) + "-" + IntToString(session) + "-" + IntToString(image)
  }

  /** `this.networks[net] || net`: the session's name for a network, or the name itself when it has none (or an empty one). */
  function MapNetwork(table: map<string, string>, name: string): (r: string)
    ensures name in table && table[name] != "" ==> r == table[name]
    ensures name !in table || table[name] == "" ==> r == name
  {
    if name in table && table[name] != "" then table[name] else name
  }

  function MapNetworks(table: map<string, string>, names: seq<string>): (r: seq<string>)
    ensures |r| == |names| && forall i :: 0 <= i < |names| ==> r[i] == MapNetwork(table, names[i])
  {
    if names == [] then [] else [MapNetwork(table, names[0])] + MapNetworks(table, names[1..])
  }

  /**
   * The volumes with each host directory `path.join`ed onto the session's
   * volume path (normalised, so a host with ".." segments may climb out of
   * it); the container paths are kept, in order.
   */
  function MapVolumes(dir: string, volumes: seq<Volume>): (r: seq<Volume>)
    ensures |r| == |volumes|
    ensures forall i :: 0 <= i < |volumes| ==> r[i] == Volume(PosixPath.Join2(dir, volumes[i].host), volumes[i].container)
    ensures PosixPath.Absolute(dir) ==> forall i :: 0 <= i < |r| ==> PosixPath.Absolute(r[i].host)
  {
    if volumes == [] then []
    else [Volume(PosixPath.Join2(dir, volumes[0].host), volumes[0].container)] + MapVolumes(dir, volumes[1..])
  }

  /** The report a verdict makes: a subtask verdict when the subtask is present and not empty. */
  function ReportOf(taskId: string, verdict: string, subtask: Option<string>, data: string): Report
  {
    if subtask.Some? && subtask.value != "" then SubtaskVerdict(taskId, subtask.value, verdict, data)
    else FullVerdict(taskId, verdict, data)
  }

  class Session {
    const id: int
    const volumePath: string
    const taskId: string
    /** The session's network names, by the names operators use. */
    var networks: map<string, string>
    var images: map<int, string>
    var revImages: map<string, int>
    var containers: map<int, string>
    var revContainers: map<string, int>
    /** What the session asked of the container engine, in order. */
    var requests: seq<Request>
    /** What the session wrote back to the operator. */
    var replies: seq<string>
    /** What the session reported to the websocket client. */
    var reports: seq<Report>

    constructor(networks: map<string, string>, volumePath: string, taskId: string, id: int)
      ensures this.id == id && this.volumePath == volumePath && this.taskId == taskId
      ensures this.networks == networks
      ensures images == map[] && revImages == map[] && containers == map[] && revContainers == map[]
      ensures requests == [] && replies == [] && reports == []
    {
      this.id := id;
      this.volumePath := volumePath;
      this.taskId := taskId;
      this.networks := networks;
      images := map[];
      revImages := map[];
      containers := map[];
      revContainers := map[];
      requests := [];
      replies := [];
      reports := [];
    }

    /** `build`: the image's tag, recorded both ways, then built. */
    method BuildImage(image: int, context: string, dockerfile: string, now: int)
      modifies this
      ensures images == old(images)[image := ImageTag(now, id, image)]
      ensures revImages == old(revImages)[ImageTag(now, id, image) := image]
      ensures requests == old(requests) + [Request.BuildImage(ImageTag(now, id, image), context, dockerfile)]
      ensures containers == old(containers) && revContainers == old(revContainers)
      ensures networks == old(networks) && replies == old(replies) && reports == old(reports)
    {
      var tag := ImageTag(now, id, image);
      images := images[image := tag];
      revImages := revImages[tag := image];
      requests := requests + [Request.BuildImage(tag, context, dockerfile)];
    }

    /**
     * `run`: the container is created from the image's tag with the networks
     * renamed through the session's table and the volume hosts under the
     * session's volume path; `containerId` is the engine's answer, recorded
     * both ways; then the container is started with the initial stdin.
     */
    method RunContainer(cid: int, image: int, o: Options, containerId: string)
      modifies this
      ensures requests == old(requests) + [
        Create(if image in old(images) then Some(old(images)[image]) else None, o.env,
               MapVolumes(volumePath, o.volumes), MapNetworks(old(networks), o.networks)),
        Start(containerId, o.initStdin)]
      ensures containers == old(containers)[cid := containerId]
      ensures revContainers == old(revContainers)[containerId := cid]
      ensures images == old(images) && revImages == old(revImages)
      ensures networks == old(networks) && replies == old(replies) && reports == old(reports)
    {
      var tag := if image in images then Some(images[image]) else None;
      var mappedNetworks := MapNetworks(networks, o.networks);
      var mappedVolumes := MapVolumes(volumePath, o.volumes);
      requests := requests + [Create(tag, o.env, mappedVolumes, mappedNetworks)];
      containers := containers[cid := containerId];
      revContainers := revContainers[containerId := cid];
      requests := requests + [Start(containerId, o.initStdin)];
    }

    /** The container of an id, as `containers.get(id)`. */
    function ContainerOf(cid: int): Option<string>
      reads this
    {
      if cid in containers then Some(containers[cid]) else None
    }

    /**
     * `onData`: the command read from the message, carried out; a dropped
     * message changes nothing.  `now` is the clock, `containerId` the
     * engine's id for a created container and `hostName` its answer to a
     * host-name query.
     */
    method OnData(data: string, now: int, containerId: string, hostName: string)
      modifies this
      ensures match Parse(data)
        case None =>
          images == old(images) && revImages == old(revImages) && containers == old(containers) &&
          revContainers == old(revContainers) && requests == old(requests) && replies == old(replies) &&
          reports == old(reports)
        case Some(Build(image, context, dockerfile)) =>
          images == old(images)[image := ImageTag(now, id, image)] &&
          revImages == old(revImages)[ImageTag(now, id, image) := image] &&
          requests == old(requests) + [Request.BuildImage(ImageTag(now, id, image), context, dockerfile)]
        case Some(Run(cid, image, o)) =>
          containers == old(containers)[cid := containerId] &&
          revContainers == old(revContainers)[containerId := cid] &&
          requests == old(requests) + [
            Create(if image in old(images) then Some(old(images)[image]) else None, o.env,
                   MapVolumes(volumePath, o.volumes), MapNetworks(old(networks), o.networks)),
            Start(containerId, o.initStdin)]
        case Some(Restart(cid)) => requests == old(requests) + [RestartContainer(old(ContainerOf(cid)))]
        case Some(Stop(cid)) => requests == old(requests) + [StopContainer(old(ContainerOf(cid)))]
        case Some(Write(cid, buffer)) => requests == old(requests) + [WriteContainer(old(ContainerOf(cid)), buffer)]
        case Some(Host(cid)) =>
          requests == old(requests) + [GetName(old(ContainerOf(cid)))] && replies == old(replies) + ["HOST " + hostName]
        case Some(Verdict(verdict, subtask, text)) =>
          reports == old(reports) + [ReportOf(taskId, verdict, subtask, text)] && requests == old(requests)
      ensures networks == old(networks)
      ensures Parse(data).Some? && !Parse(data).value.Build? ==> images == old(images) && revImages == old(revImages)
      ensures Parse(data).Some? && !Parse(data).value.Run? ==> containers == old(containers) && revContainers == old(revContainers)
      ensures Parse(data).Some? && !Parse(data).value.Host? ==> replies == old(replies)
      ensures Parse(data).Some? && !Parse(data).value.Verdict? ==> reports == old(reports)
    {
      var c := ReadCommand(data);
      match c
      case None =>
      case Some(Build(image, context, dockerfile)) =>
        BuildImage(image, context, dockerfile, now);
      case Some(Run(cid, image, o)) =>
        RunContainer(cid, image, o, containerId);
      case Some(Restart(cid)) =>
        requests := requests + [RestartContainer(ContainerOf(cid))];
      case Some(Stop(cid)) =>
        requests := requests + [StopContainer(ContainerOf(cid))];
      case Some(Write(cid, buffer)) =>
        requests := requests + [WriteContainer(ContainerOf(cid), buffer)];
      case Some(Host(cid)) =>
        requests := requests + [GetName(ContainerOf(cid))];
        replies := replies + ["HOST " + hostName];
      case Some(Verdict(verdict, subtask, text)) =>
        reports := reports + [ReportOf(taskId, verdict, subtask, text)];
    }
  }
}
