/**
 * The operator session in C++ (session.cpp): the `onData` handler reads a
 * command from an `std::istringstream` over the chunk, word by word and line
 * by line, and `build`/`run` record images and containers in both
 * directions.
 *
 * The string stream is modelled as the characters not yet extracted plus its
 * eof and fail bits, with the extraction rules of `operator>>` for words and
 * `int`, and of `std::getline`.  The podman client is outside the model: what
 * the session asks of it is recorded in `requests`, and what it answers (the
 * created container's tag) and the clock are parameters.
 */
module SessionCpp {
  import opened Wrappers
  import opened Text

  // ------------------------------------------------------------ the stream

  /** An `istringstream`: what is left to extract, and the eof and fail bits. */
  datatype Stream = Stream(rest: string, eof: bool, fail: bool)

  /** A fresh stream over `s`. */
  function Open(s: string): Stream
  {
    Stream(s, false, false)
  }

  predicate Good(st: Stream)
  {
    !st.eof && !st.fail
  }

  /** `s` without its leading white space. */
  function SkipSpace(s: string): (r: string)
    ensures |r| <= |s|
    ensures r == [] || !IsSpaceChar(r[0])
  {
    if s != [] && IsSpaceChar(s[0]) then SkipSpace(s[1..]) else s
  }

  /** The length of the leading run of characters that are not white space. */
  function TokenLength(s: string): (r: nat)
    ensures r <= |s|
  {
    if s == [] || IsSpaceChar(s[0]) then 0 else 1 + TokenLength(s[1..])
  }

  /** The length of the line at the head of `s`, without its newline. */
  function LineLength(s: string): (r: nat)
    ensures r <= |s|
  {
    if s == [] || s[0] == '\n' then 0 else 1 + LineLength(s[1..])
  }

  /**
   * `stream >> word`: on a stream that is not good, or when only white space
   * is left, extraction fails and `word` keeps its value `prev`; otherwise
   * the white space is skipped and the characters up to the next white space
   * are taken, setting eof when they reach the end.
   */
  function ReadWord(st: Stream, prev: string): (r: (Stream, string))
    ensures |r.0.rest| <= |st.rest|
    ensures !r.0.fail ==> |r.0.rest| < |st.rest| && r.1 != []
  {
    if !Good(st) then (st.(fail := true), prev)
    else
      var s := SkipSpace(st.rest);
      if s == [] then (Stream([], true, true), prev)
      else
        var n := TokenLength(s);
        (Stream(s[n..], n == |s|, false), s[..n])
  }

  const INT_MAX: int := 0x7fff_ffff
  const INT_MIN: int := -0x8000_0000

  /**
   * `stream >> n` for a 32-bit `int`: None when the stream is not good or
   * only white space is left (then `n` keeps its value); otherwise an
   * optional sign and the decimal digits after it are consumed.  With no
   * digit the value is 0, and out of range it is the nearest bound; both set
   * the fail bit.
   */
  function ReadInt(st: Stream): (r: (Stream, Option<int>))
    ensures |r.0.rest| <= |st.rest|
    ensures !r.0.fail ==> |r.0.rest| < |st.rest| && r.1.Some?
  {
    if !Good(st) then (st.(fail := true), None)
    else
      var s := SkipSpace(st.rest);
      if s == [] then (Stream([], true, true), None)
      else Extract(s)
  }

  /** The extraction of an `int` from a text that does not start with white space. */
  function Extract(s: string): (r: (Stream, Option<int>))
    requires s != []
    ensures |r.0.rest| <= |s|
    ensures !r.0.fail ==> |r.0.rest| < |s| && r.1.Some?
  {
    var u := if s[0] == '-' || s[0] == '+' then s[1..] else s;
    var d := DigitRun(u);
    var after := u[|d|..];
    if d == [] then (Stream(after, after == [], true), Some(0))
    else
      var m: int := DigitsValue(d);
      var v := if s[0] == '-' then -m else m;
      if v > INT_MAX then (Stream(after, after == [], true), Some(INT_MAX))
      else if v < INT_MIN then (Stream(after, after == [], true), Some(INT_MIN))
      else (Stream(after, after == [], false), Some(v))
  }

  /**
   * `std::getline(stream, line)`: on a stream that is not good it fails and
   * `line` keeps its value `prev`; otherwise `line` is emptied and receives
   * the characters up to the next newline, which is consumed.  Reaching the
   * end sets eof, and fails when not even a newline was extracted.
   */
  function GetLine(st: Stream, prev: string): (r: (Stream, string))
    ensures |r.0.rest| <= |st.rest|
    ensures !r.0.fail ==> |r.0.rest| < |st.rest|
  {
    if !Good(st) then (st.(fail := true), prev)
    else if st.rest == [] then (Stream([], true, true), [])
    else
      var k := LineLength(st.rest);
      if k == |st.rest| then (Stream([], true, false), st.rest)
      else (Stream(st.rest[k + 1..], false, false), st.rest[..k])
  }

  /** `s.erase(0, 1)`. */
  function EraseFirst(s: string): string
  {
    if s == [] then [] else s[1..]
  }

  // ----------------------------------------------------------------- words

  /** The words the handler tells apart. */
  datatype Word =
    | WBuild | WRun | WRestart | WStop | WWrite
    | WStdout | WStderr | WPorts | WVolume | WEnv
    | Other

  function WordOf(w: string): Word
  {
    if w == "BUILD" then WBuild
    else if w == "RUN" then WRun
    else if w == "RESTART" then WRestart
    else if w == "STOP" then WStop
    else if w == "WRITE" then WWrite
    else if w == "STDOUT" then WStdout
    else if w == "STDERR" then WStderr
    else if w == "PORTS" then WPorts
    else if w == "VOLUME" then WVolume
    else if w == "ENV" then WEnv
    else Other
  }

  function Spelling(k: Word): string
  {
    match k
    case WBuild => "BUILD"
    case WRun => "RUN"
    case WRestart => "RESTART"
    case WStop => "STOP"
    case WWrite => "WRITE"
    case WStdout => "STDOUT"
    case WStderr => "STDERR"
    case WPorts => "PORTS"
    case WVolume => "VOLUME"
    case WEnv => "ENV"
    case Other => ""
  }

  /** Every word is told apart by its spelling. */
  lemma WordOfSpelling(k: Word)
    ensures WordOf(Spelling(k)) == k
  {
    match k
    case WStderr =>
      assert "STDERR"[4] != "STDOUT"[4];
    case WEnv =>
      assert "ENV"[0] != "RUN"[0];
    case WStop =>
      assert "STOP"[0] != "RUN"[0];
    case _ =>
  }

  // ---------------------------------------------------------- the command

  /** What RUN collects before it creates a container. */
  datatype RunOptions = RunOptions(
    stdout: string,
    stderr: string,
    ports: seq<int>,
    volumes: seq<(string, string)>,
    env: map<string, string>,
    initStdin: string)

  /** stdout "normal", stderr "onEnd", nothing else. */
  const DEFAULTS := RunOptions("normal", "onEnd", [], [], map[], "")

  datatype Command =
    | Build(image: int, context: string, dockerfile: string)
    | Run(id: int, image: int, options: RunOptions)
    | Restart(id: int)
    | Stop(id: int)
    | Write(id: int, buffer: string)
    | Unknown(word: string)

  /** `while (stream >> n) ns.push_back(n)`. */
  function Ints(st: Stream): seq<int>
    decreases |st.rest|
  {
    var r := ReadInt(st);
    if r.0.fail then [] else [r.1.value] + Ints(r.0)
  }

  /** `while (std::getline(stream, line)) text += line`: the lines, concatenated. */
  function Lines(st: Stream): string
    decreases |st.rest|
  {
    var r := GetLine(st, []);
    if r.0.fail then [] else r.1 + Lines(r.0)
  }

  /**
   * The RUN sub-options, read while a word can be extracted.  STDOUT and
   * STDERR take the next word; PORTS reads integers from the rest of its
   * line; VOLUME takes the rest of its line without its first character and
   * the next line whole; ENV takes a word and the rest of its line without
   * its first character, and never replaces a key already there; WRITE skips
   * the rest of its line, takes every later line and ends the options; any
   * other word is skipped.
   */
  function Options(st: Stream, o: RunOptions): RunOptions
    decreases |st.rest|
  {
    var w := ReadWord(st, []);
    if w.0.fail then o
    else
      var s := w.0;
      match WordOf(w.1)
      case WStdout =>
        var r := ReadWord(s, o.stdout);
        Options(r.0, o.(stdout := r.1))
      case WStderr =>
        var r := ReadWord(s, o.stderr);
        Options(r.0, o.(stderr := r.1))
      case WPorts =>
        var line := GetLine(s, []);
        Options(line.0, o.(ports := o.ports + Ints(Open(line.1))))
      case WVolume =>
        var from := GetLine(s, []);
        var to := GetLine(from.0, []);
        Options(to.0, o.(volumes := o.volumes + [(EraseFirst(from.1), to.1)]))
      case WEnv =>
        var key := ReadWord(s, []);
        var value := GetLine(key.0, []);
        var env := if key.1 in o.env then o.env else o.env[key.1 := EraseFirst(value.1)];
        Options(value.0, o.(env := env))
      case WWrite =>
        var skip := GetLine(s, []);
        o.(initStdin := o.initStdin + Lines(skip.0))
      case _ => Options(s, o)
  }

  /**
   * The command in a chunk.  An `int` the stream could not even start to
   * read keeps its indeterminate initial value, given here as `junk` for
   * the first `int` the command reads and `junkImage` for RUN's second,
   * which are separate uninitialised variables.
   */
  function Parse(chunk: string, junk: int, junkImage: int): Command
  {
    var t := ReadWord(Open(chunk), []);
    match WordOf(t.1)
    case WBuild =>
      var image := ReadInt(t.0);
      var first := GetLine(image.0, []);
      var context := GetLine(first.0, first.1);
      var dockerfile := GetLine(context.0, []);
      Build(image.1.GetOr(junk), context.1, dockerfile.1)
    case WRun =>
      var id := ReadInt(t.0);
      var image := ReadInt(id.0);
      Run(id.1.GetOr(junk), image.1.GetOr(junkImage), Options(image.0, DEFAULTS))
    case WRestart => Restart(ReadInt(t.0).1.GetOr(junk))
    case WStop => Stop(ReadInt(t.0).1.GetOr(junk))
    case WWrite =>
      var id := ReadInt(t.0);
      Write(id.1.GetOr(junk), Lines(id.0))
    case _ => Unknown(t.1)
  }

  // ------------------------------------------------- the handler's loops

  /** The PORTS loop over a line. */
  method ReadInts(line: string) returns (ports: seq<int>)
    ensures ports == Ints(Open(line))
  {
    ports := [];
    var s := Open(line);
    var r := ReadInt(s);
    while !r.0.fail
      invariant r == ReadInt(s)
      invariant ports + Ints(s) == Ints(Open(line))
      decreases |s.rest|
    {
      ports := ports + [r.1.value];
      s := r.0;
      r := ReadInt(s);
    }
  }

  /** The `getline` loop of WRITE. */
  method ReadLines(st: Stream) returns (text: string)
    ensures text == Lines(st)
  {
    text := [];
    var s := st;
    var r := GetLine(s, []);
    while !r.0.fail
      invariant r == GetLine(s, [])
      invariant text + Lines(s) == Lines(st)
      decreases |s.rest|
    {
      text := text + r.1;
      s := r.0;
      r := GetLine(s, []);
    }
  }

  /** The sub-option loop, `while (stream >> subtype)`. */
  method ReadOptions(st: Stream) returns (o: RunOptions)
    ensures o == Options(st, DEFAULTS)
  {
    o := DEFAULTS;
    var s := st;
    var w := ReadWord(s, []);
    while !w.0.fail
      invariant w == ReadWord(s, [])
      invariant Options(s, o) == Options(st, DEFAULTS)
      decreases |s.rest|
    {
      s := w.0;
      var sub := WordOf(w.1);
      if sub == WStdout {
        var r := ReadWord(s, o.stdout);
        s, o := r.0, o.(stdout := r.1);
      } else if sub == WStderr {
        var r := ReadWord(s, o.stderr);
        s, o := r.0, o.(stderr := r.1);
      } else if sub == WPorts {
        var line := GetLine(s, []);
        var ports := ReadInts(line.1);
        s, o := line.0, o.(ports := o.ports + ports);
      } else if sub == WVolume {
        var from := GetLine(s, []);
        var to := GetLine(from.0, []);
        s, o := to.0, o.(volumes := o.volumes + [(EraseFirst(from.1), to.1)]);
      } else if sub == WEnv {
        var key := ReadWord(s, []);
        var value := GetLine(key.0, []);
        if key.1 !in o.env {
          o := o.(env := o.env[key.1 := EraseFirst(value.1)]);
        }
        s := value.0;
      } else if sub == WWrite {
        var skip := GetLine(s, []);
        var text := ReadLines(skip.0);
        return o.(initStdin := o.initStdin + text);
      }
      w := ReadWord(s, []);
    }
  }

  /** The handler's reading of a chunk, with its loops. */
  method ReadCommand(chunk: string, junk: int, junkImage: int) returns (c: Command)
    ensures c == Parse(chunk, junk, junkImage)
  {
    var t := ReadWord(Open(chunk), []);
    var kind := WordOf(t.1);
    if kind == WBuild {
      var image := ReadInt(t.0);
      var first := GetLine(image.0, []);
      var context := GetLine(first.0, first.1);
      var dockerfile := GetLine(context.0, []);
      c := Build(image.1.GetOr(junk), context.1, dockerfile.1);
    } else if kind == WRun {
      var id := ReadInt(t.0);
      var image := ReadInt(id.0);
      var o := ReadOptions(image.0);
      c := Run(id.1.GetOr(junk), image.1.GetOr(junkImage), o);
    } else if kind == WRestart {
      c := Restart(ReadInt(t.0).1.GetOr(junk));
    } else if kind == WStop {
      c := Stop(ReadInt(t.0).1.GetOr(junk));
    } else if kind == WWrite {
      var id := ReadInt(t.0);
      var buffer := ReadLines(id.0);
      c := Write(id.1.GetOr(junk), buffer);
    } else {
      c := Unknown(t.1);
    }
  }

  // ------------------------------------------------------------ readers

  /** A word: not empty, no white space. */
  predicate Solid(w: string)
  {
    w != [] && forall i :: 0 <= i < |w| ==> !IsSpaceChar(w[i])
  }

  /** Where a word ends: the end of the text or white space. */
  predicate Ends(rest: string)
  {
    rest == [] || IsSpaceChar(rest[0])
  }

  lemma {:induction false} TokenLengthOf(w: string, rest: string)
    requires forall i :: 0 <= i < |w| ==> !IsSpaceChar(w[i])
    requires Ends(rest)
    ensures TokenLength(w + rest) == |w|
    decreases |w|
  {
    if w == [] {
      assert w + rest == rest;
    } else {
      assert (w + rest)[1..] == w[1..] + rest;
      TokenLengthOf(w[1..], rest);
    }
  }

  lemma {:induction false} SkipSpaceOf(space: string, s: string)
    requires forall i :: 0 <= i < |space| ==> IsSpaceChar(space[i])
    requires s == [] || !IsSpaceChar(s[0])
    ensures SkipSpace(space + s) == s
    decreases |space|
  {
    if space == [] {
      assert space + s == s;
    } else {
      assert (space + s)[1..] == space[1..] + s;
      SkipSpaceOf(space[1..], s);
    }
  }

  /** `>>` reads back a word written after white space, whatever ends it. */
  lemma ReadWordOf(space: string, w: string, rest: string, prev: string)
    requires forall i :: 0 <= i < |space| ==> IsSpaceChar(space[i])
    requires Solid(w) && Ends(rest)
    ensures ReadWord(Open(space + w + rest), prev) == (Stream(rest, rest == [], false), w)
  {
    SkipSpaceOf(space, w + rest);
    assert space + w + rest == space + (w + rest);
    TokenLengthOf(w, rest);
    assert (w + rest)[|w|..] == rest && (w + rest)[..|w|] == w;
  }

  /** The same within a stream that is still good. */
  lemma ReadWordIn(st: Stream, w: string, rest: string, prev: string)
    requires Good(st) && Solid(w) && Ends(rest) && st.rest == w + rest
    ensures ReadWord(st, prev) == (Stream(rest, rest == [], false), w)
  {
    SkipSpaceOf([], w + rest);
    assert [] + (w + rest) == w + rest;
    TokenLengthOf(w, rest);
    assert (w + rest)[|w|..] == rest && (w + rest)[..|w|] == w;
  }

  lemma {:induction false} LineLengthOf(line: string, rest: string)
    requires '\n' !in line
    requires rest == [] || rest[0] == '\n'
    ensures LineLength(line + rest) == |line|
    decreases |line|
  {
    if line == [] {
      assert line + rest == rest;
    } else {
      assert line[0] != '\n';
      assert (line + rest)[1..] == line[1..] + rest;
      LineLengthOf(line[1..], rest);
    }
  }

  /** `getline` reads back a line ended by a newline. */
  lemma GetLineOf(st: Stream, line: string, rest: string, prev: string)
    requires Good(st) && '\n' !in line && st.rest == line + "\n" + rest
    ensures GetLine(st, prev) == (Stream(rest, false, false), line)
  {
    assert line + "\n" + rest == line + ("\n" + rest);
    LineLengthOf(line, "\n" + rest);
    var s := st.rest;
    assert s[|line| + 1..] == rest && s[..|line|] == line;
  }

  /** `getline` reads the last line, up to the end, setting eof. */
  lemma GetLastLine(st: Stream, line: string, prev: string)
    requires Good(st) && '\n' !in line && line != [] && st.rest == line
    ensures GetLine(st, prev) == (Stream([], true, false), line)
  {
    LineLengthOf(line, []);
    assert line + [] == line;
  }

  /** The decimal text of an `int` in range. */
  predicate InRange(i: int)
  {
    INT_MIN <= i <= INT_MAX
  }

  lemma DigitsOf(n: nat, rest: string)
    requires rest == [] || !IsDigit(rest[0])
    ensures DigitRun(NatToString(n) + rest) == NatToString(n)
    ensures (NatToString(n) + rest)[|NatToString(n)|..] == rest
  {
    DigitRunOf(NatToString(n), rest);
  }

  /** A negative `int` in range is extracted from its decimal text. */
  lemma ExtractNegative(n: nat, s: string, rest: string)
    requires 0 < n <= -INT_MIN
    requires rest == [] || !IsDigit(rest[0])
    requires s == ['-'] + (NatToString(n) + rest)
    ensures Extract(s) == (Stream(rest, rest == [], false), Some(-(n as int)))
  {
    var d := NatToString(n);
    var u := s[1..];
    assert u == d + rest;
    DigitsOf(n, rest);
    assert DigitRun(u) == d && u[|d|..] == rest;
    DigitsValueOfNat(n);
  }

  /** A non-negative `int` in range is extracted from its decimal text. */
  lemma ExtractNonNegative(n: nat, s: string, rest: string)
    requires n <= INT_MAX
    requires rest == [] || !IsDigit(rest[0])
    requires s == NatToString(n) + rest
    ensures Extract(s) == (Stream(rest, rest == [], false), Some(n))
  {
    var d := NatToString(n);
    assert IsDigit(d[0]) && s[0] == d[0];
    DigitsOf(n, rest);
    DigitsValueOfNat(n);
  }

  /** A text that starts with a sign or a digit is not white space at its head. */
  lemma NoSpaceAhead(s: string)
    requires s != [] && (s[0] == '-' || IsDigit(s[0]))
    ensures SkipSpace(s) == s
  {
  }

  /** `>>` reads back an `int` written in decimal, when nothing continues its digits. */
  lemma ReadIntOf(st: Stream, i: int, rest: string)
    requires Good(st) && InRange(i) && st.rest == IntToString(i) + rest
    requires rest == [] || !IsDigit(rest[0])
    ensures ReadInt(st) == (Stream(rest, rest == [], false), Some(i))
  {
    if i < 0 {
      assert st.rest == ['-'] + (NatToString(-i) + rest);
      ExtractNegative(-i, st.rest, rest);
      NoSpaceAhead(st.rest);
    } else {
      ExtractNonNegative(i, st.rest, rest);
      assert IsDigit(NatToString(i)[0]);
      NoSpaceAhead(st.rest);
    }
  }

  /** `>>` at the end of the text fails and leaves the `int` untouched. */
  lemma ReadIntAtEnd(st: Stream)
    requires st.rest == []
    ensures ReadInt(st).0.fail && ReadInt(st).1 == None
  {
  }

  /** The lines of a text without a trailing newline. */
  function Concat(lines: seq<string>): string
  {
    if lines == [] then [] else lines[0] + Concat(lines[1..])
  }

  /**
   * The `getline` loop reads every line and concatenates them without
   * separators: the newlines between lines are lost.
   */
  lemma {:induction false} LinesOf(st: Stream, lines: seq<string>)
    requires Good(st) && |lines| >= 1 && st.rest == Join(lines, '\n')
    requires forall i :: 0 <= i < |lines| ==> '\n' !in lines[i]
    ensures Lines(st) == Concat(lines)
    decreases |lines|
  {
    if |lines| == 1 {
      assert Join(lines, '\n') == lines[0];
      if lines[0] == [] {
        assert Concat(lines) == [] + Concat(lines[1..]);
      } else {
        GetLastLine(st, lines[0], []);
        assert Lines(Stream([], true, false)) == [];
        assert Concat(lines) == lines[0] + Concat(lines[1..]);
      }
    } else {
      var rest := Join(lines[1..], '\n');
      assert st.rest == lines[0] + "\n" + rest;
      GetLineOf(st, lines[0], rest, []);
      LinesOf(Stream(rest, false, false), lines[1..]);
    }
  }

  // ------------------------------------------------------------- session

  /** A request to the podman client. */
  datatype Request =
    | BuildImage(tag: string, context: string, dockerfile: string)
    | Create(image: string, env: map<string, string>, volumes: seq<(string, string)>, initStdin: string)
    | Start(container: string)

  /** `getImageTag`: the clock, the session id and the image id, joined by '-'. */
  function ImageTag(now: int, session: int, image: int): string
  {
    IntToString(now) + "-" + IntToString(session) + "-" + IntToString(image)
  }

  class Session {
    const id: int
    var images: map<int, string>
    var revImages: map<string, int>
    var containers: map<int, string>
    var revContainers: map<string, int>
    /** What the session asked of podman, in order. */
    var requests: seq<Request>

    constructor(id: int)
      ensures this.id == id
      ensures images == map[] && revImages == map[] && containers == map[] && revContainers == map[]
      ensures requests == []
    {
      this.id := id;
      images, revImages := map[], map[];
      containers, revContainers := map[], map[];
      requests := [];
    }

    /** `build`: the image gets a fresh tag, recorded in both directions, and podman builds it. */
    method Build(image: int, context: string, dockerfile: string, now: int)
      modifies this
      ensures images == old(images)[image := ImageTag(now, id, image)]
      ensures revImages == old(revImages)[ImageTag(now, id, image) := image]
      ensures containers == old(containers) && revContainers == old(revContainers)
      ensures requests == old(requests) + [BuildImage(ImageTag(now, id, image), context, dockerfile)]
    {
      var tag := ImageTag(now, id, image);
      images := images[image := tag];
      revImages := revImages[tag := image];
      requests := requests + [BuildImage(tag, context, dockerfile)];
    }

    /**
     * `run`: podman creates a container from the image's tag and answers
     * with the container's tag `created`; `images[image]` gives an unknown
     * image the empty tag and records it.  Ports and the output modes are
     * not passed on.
     */
    method Run(container: int, image: int, options: RunOptions, created: string)
      modifies this
      ensures images == (if image in old(images) then old(images) else old(images)[image := ""])
      ensures revImages == old(revImages)
      ensures containers == old(containers)[container := created]
      ensures revContainers == old(revContainers)[created := container]
      ensures requests == old(requests) + [Create(images[image], options.env, options.volumes, options.initStdin), Start(created)]
    {
      if image !in images {
        images := images[image := ""];
      }
      requests := requests + [Create(images[image], options.env, options.volumes, options.initStdin)];
      containers := containers[container := created];
      revContainers := revContainers[created := container];
      requests := requests + [Start(created)];
    }

    /**
     * `onData`: BUILD and RUN act as above; RESTART, STOP, WRITE and any
     * other word change nothing.
     */
    method OnData(chunk: string, junk: int, junkImage: int, now: int, created: string)
      modifies this
      ensures match Parse(chunk, junk, junkImage)
        case Build(image, context, dockerfile) =>
          images == old(images)[image := ImageTag(now, id, image)] &&
          revImages == old(revImages)[ImageTag(now, id, image) := image] &&
          containers == old(containers) && revContainers == old(revContainers) &&
          requests == old(requests) + [BuildImage(ImageTag(now, id, image), context, dockerfile)]
        case Run(container, image, options) =>
          images == (if image in old(images) then old(images) else old(images)[image := ""]) &&
          revImages == old(revImages) &&
          containers == old(containers)[container := created] &&
          revContainers == old(revContainers)[created := container] &&
          requests == old(requests) + [Create(images[image], options.env, options.volumes, options.initStdin), Start(created)]
        case _ =>
          images == old(images) && revImages == old(revImages) &&
          containers == old(containers) && revContainers == old(revContainers) &&
          requests == old(requests)
    {
      var c := ReadCommand(chunk, junk, junkImage);
      match c
      case Build(image, context, dockerfile) =>
        Build(image, context, dockerfile, now);
      case Run(container, image, options) =>
        Run(container, image, options, created);
      case _ =>
    }
  }
}
