/**
 * The messages the C++ `OperatorApi` sends (lib/operatorApi.cpp and
 * save/operatorApi.cpp) as the two operator sessions read them
 * (session.cpp and session.ts).  Where a writer and a reader agree, the
 * lemmas here are round trips; where they do not, the lemmas say what the
 * reader makes of the message instead.
 */
module OperatorProtocol {
  import opened Wrappers
  import opened Text
  import opened OperatorMessages
  import Lib = OperatorApiLib
  import Save = OperatorApiSave
  import Cpp = SessionCpp
  import Ts = SessionTs

  // --------------------------------------------------------- message shapes

  /** The control messages: a command word, a space, a number, and what follows. */
  lemma ControlShapes(id: int, chunk: string)
    ensures RestartMessage(id) == "RESTART" + " " + IntToString(id) + []
    ensures StopMessage(id) == "STOP" + " " + IntToString(id) + []
    ensures WriteMessage(id, chunk) == "RESTART" + " " + IntToString(id) + ("\n" + chunk)
    ensures Save.HostMessage(id) == "HOST" + " " + IntToString(id) + []
  {
    Spaced(IntToString(id), chunk);
  }

  lemma Spaced(n: string, chunk: string)
    ensures "RESTART " + n == "RESTART" + " " + n + []
    ensures "STOP " + n == "STOP" + " " + n + []
    ensures "RESTART " + n + "\n" + chunk == "RESTART" + " " + n + ("\n" + chunk)
    ensures "HOST " + n == "HOST" + " " + n + []
  {
  }

  /** BUILD: the command word, the image number, then the context and Dockerfile lines. */
  lemma BuildShape(image: int, context: string, dockerfile: string)
    ensures BuildMessage(image, context, dockerfile) ==
      "BUILD" + " " + IntToString(image) + ("\n" + (context + "\n" + dockerfile))
  {
    BuildSpaced(IntToString(image), context, dockerfile);
  }

  lemma BuildSpaced(n: string, context: string, dockerfile: string)
    ensures "BUILD " + n + "\n" + context + "\n" + dockerfile ==
      "BUILD" + " " + n + ("\n" + (context + "\n" + dockerfile))
  {
  }

  /** Both forms of `setVerdict`: "VERDICT", the verdict, and the other lines. */
  lemma VerdictShapes(subtask: string, v: Verdict, data: string)
    ensures Lib.SubtaskVerdictMessage(subtask, v, data) ==
      "VERDICT" + " " + VerdictText(v) + ("\nSUB " + subtask + "\nDATA" + data)
    ensures Lib.VerdictMessage(v, data) == "VERDICT" + " " + VerdictText(v) + ("\nDATA" + data)
    ensures Save.SubtaskVerdictMessage(subtask, v, data) ==
      "VERDICT" + " " + VerdictText(v) + ("\nSUB " + subtask + Save.DataLine(data))
    ensures Save.VerdictMessage(v, data) == "VERDICT" + " " + VerdictText(v) + Save.DataLine(data)
  {
    VerdictSpaced(VerdictText(v), subtask, data, Save.DataLine(data));
  }

  lemma VerdictSpaced(w: string, subtask: string, data: string, line: string)
    ensures "VERDICT " + w + "\nSUB " + subtask + "\nDATA" + data ==
      "VERDICT" + " " + w + ("\nSUB " + subtask + "\nDATA" + data)
    ensures "VERDICT " + w + "\nDATA" + data == "VERDICT" + " " + w + ("\nDATA" + data)
    ensures "VERDICT " + w + "\nSUB " + subtask + line == "VERDICT" + " " + w + ("\nSUB " + subtask + line)
    ensures "VERDICT " + w + line == "VERDICT" + " " + w + line
  {
  }

  /** `pop_back` on a text of two parts shortens only the second. */
  lemma PopKeeps(p: string, r: string)
    requires r != []
    ensures PopBack(p + r) == p + PopBack(r)
  {
    assert (p + r)[..|p + r| - 1] == p + r[..|r| - 1];
  }

  /** What follows "RUN id" in the text lib/operatorApi.cpp writes. */
  function LibAfter(s: Lib.Settings): string
  {
    " " + ModeText(s.stdout) + "\n" + "STDERR " + ModeText(s.stderr) +
    PopBack("\n" + (Lib.PortsLine(s.ports) + Lib.VolumesText(s.volumes) + EnvText(s.env) + WriteSection(s.initStdin)))
  }

  lemma LibSpaced(n: string, out: string, err: string, more: string)
    ensures "RUN " + n + "\n" + "STDOUT " + out + "\n" + "STDERR " + err + "\n" + more ==
      "RUN" + " " + n + ("\n" + "STDOUT" + (" " + out + "\n" + "STDERR " + err)) + ("\n" + more)
  {
  }

  /** The RUN message of lib/operatorApi.cpp: "RUN id" and then the STDOUT line. */
  lemma LibRunShape(id: int, s: Lib.Settings)
    ensures Lib.RunMessage(id, s) == "RUN" + " " + IntToString(id) + ("\n" + "STDOUT" + LibAfter(s))
  {
    var more := Lib.PortsLine(s.ports) + Lib.VolumesText(s.volumes) + EnvText(s.env) + WriteSection(s.initStdin);
    Regroup(Lib.HeaderText(id, s), Lib.PortsLine(s.ports), Lib.VolumesText(s.volumes), EnvText(s.env), WriteSection(s.initStdin));
    LibShapeOf(IntToString(id), ModeText(s.stdout), ModeText(s.stderr), more);
  }

  lemma Regroup(h: string, a: string, b: string, c: string, d: string)
    ensures h + a + b + c + d == h + (a + b + c + d)
  {
  }

  /** The RUN text with its last character dropped, regrouped around "RUN id". */
  lemma LibShapeOf(n: string, out: string, err: string, more: string)
    ensures PopBack("RUN " + n + "\n" + "STDOUT " + out + "\n" + "STDERR " + err + "\n" + more) ==
      "RUN" + " " + n + ("\n" + "STDOUT" + (" " + out + "\n" + "STDERR " + err + PopBack("\n" + more)))
  {
    LibSpaced(n, out, err, more);
    var p := "RUN" + " " + n + ("\n" + "STDOUT" + (" " + out + "\n" + "STDERR " + err));
    PopKeeps(p, "\n" + more);
    LibJoined(n, out, err, PopBack("\n" + more));
  }

  lemma LibJoined(n: string, out: string, err: string, x: string)
    ensures "RUN" + " " + n + ("\n" + "STDOUT" + (" " + out + "\n" + "STDERR " + err)) + x ==
      "RUN" + " " + n + ("\n" + "STDOUT" + (" " + out + "\n" + "STDERR " + err + x))
  {
  }

  /** What follows "RUN id" in the message of save/operatorApi.cpp: the image, the modes, and `tail`. */
  function SaveAfter(image: string, out: string, err: string, tail: string): string
  {
    "\n" + image + ("\n" + "STDOUT" + (" " + out + ("\n" + "STDERR" + (" " + err + tail))))
  }

  /** The WRITE section as sent: the initial input loses its last character. */
  function Tail(stdin: string): string
  {
    if stdin == [] then [] else "\n" + "WRITE" + ("\n" + stdin[..|stdin| - 1])
  }

  lemma SaveSpaced(n: string, image: string, out: string, err: string, more: string)
    ensures "RUN " + n + "\n" + image + "\n" + "STDOUT " + out + "\n" + "STDERR " + err + "\n" + more ==
      "RUN" + " " + n + SaveAfter(image, out, err, "\n" + more)
  {
  }

  lemma PopAfter(image: string, out: string, err: string, tail: string)
    requires tail != []
    ensures PopBack(SaveAfter(image, out, err, tail)) == SaveAfter(image, out, err, PopBack(tail))
  {
    PopKeeps(" " + err, tail);
    PopKeeps("\n" + "STDERR", " " + err + tail);
    PopKeeps(" " + out, "\n" + "STDERR" + (" " + err + tail));
    PopKeeps("\n" + "STDOUT", " " + out + ("\n" + "STDERR" + (" " + err + tail)));
    PopKeeps("\n" + image, "\n" + "STDOUT" + (" " + out + ("\n" + "STDERR" + (" " + err + tail))));
  }

  lemma TailOf(stdin: string)
    ensures PopBack("\n" + WriteSection(stdin)) == Tail(stdin)
  {
    if stdin != [] {
      assert "\n" + ("WRITE\n" + stdin) == "\n" + "WRITE" + ("\n" + stdin[..|stdin| - 1]) + [stdin[|stdin| - 1]];
    }
  }

  /** The RUN message of save/operatorApi.cpp with no volume, variable or network. */
  lemma SaveRunShape(id: int, s: Save.Settings)
    requires s.volumes == [] && s.env == [] && s.networks == []
    ensures Save.RunMessage(id, s) ==
      "RUN" + " " + IntToString(id) + SaveAfter(IntToString(s.image), ModeText(s.stdout), ModeText(s.stderr), Tail(s.initStdin))
  {
    var n, image := IntToString(id), IntToString(s.image);
    var out, err := ModeText(s.stdout), ModeText(s.stderr);
    var more := WriteSection(s.initStdin);
    assert Save.OptionsText(id, s) == Save.HeaderText(id, s) + [] + [] + [];
    assert Save.RunText(id, s) == Save.HeaderText(id, s) + more;
    SaveSpaced(n, image, out, err, more);
    PopKeeps("RUN" + " " + n, SaveAfter(image, out, err, "\n" + more));
    PopAfter(image, out, err, "\n" + more);
    TailOf(s.initStdin);
  }

  /** The RUN message of save/operatorApi.cpp, whatever its options: "RUN id" on a line of its own. */
  lemma SaveRunStart(id: int, s: Save.Settings)
    ensures Save.RunMessage(id, s) == "RUN" + " " + IntToString(id) +
      PopBack(SaveAfter(IntToString(s.image), ModeText(s.stdout), ModeText(s.stderr),
        "\n" + (Save.VolumesText(s.volumes) + EnvText(s.env) + Save.NetworksText(s.networks) + WriteSection(s.initStdin))))
  {
    var n, image := IntToString(id), IntToString(s.image);
    var out, err := ModeText(s.stdout), ModeText(s.stderr);
    var more := Save.VolumesText(s.volumes) + EnvText(s.env) + Save.NetworksText(s.networks) + WriteSection(s.initStdin);
    assert Save.RunText(id, s) == Save.HeaderText(id, s) + more;
    SaveSpaced(n, image, out, err, more);
    PopKeeps("RUN" + " " + n, SaveAfter(image, out, err, "\n" + more));
  }

  // ------------------------------------------------ the C++ session reading

  /** One white-space character ahead changes nothing `>>` reads. */
  lemma SkipOne(c: char, x: string, prev: string)
    requires IsSpaceChar(c)
    ensures Cpp.ReadWord(Cpp.Open([c] + x), prev) == Cpp.ReadWord(Cpp.Open(x), prev)
    ensures Cpp.ReadInt(Cpp.Open([c] + x)) == Cpp.ReadInt(Cpp.Open(x))
  {
    assert ([c] + x)[1..] == x;
  }

  /** `>> int` reads back a number written after one white-space character. */
  lemma IntAfter(c: char, i: int, rest: string)
    requires IsSpaceChar(c) && Cpp.InRange(i) && (rest == [] || !IsDigit(rest[0]))
    ensures Cpp.ReadInt(Cpp.Open([c] + IntToString(i) + rest)) == (Cpp.Stream(rest, rest == [], false), Some(i))
  {
    assert [c] + IntToString(i) + rest == [c] + (IntToString(i) + rest);
    SkipOne(c, IntToString(i) + rest, []);
    Cpp.ReadIntOf(Cpp.Open(IntToString(i) + rest), i, rest);
  }

  /** A command word and the number after it, as the C++ session reads them. */
  lemma CppHead(w: Cpp.Word, i: int, rest: string)
    requires w != Cpp.Other && Cpp.InRange(i) && (rest == [] || !IsDigit(rest[0]))
    ensures Cpp.ReadWord(Cpp.Open(Cpp.Spelling(w) + " " + IntToString(i) + rest), []) ==
      (Cpp.Open([' '] + IntToString(i) + rest), Cpp.Spelling(w))
    ensures Cpp.WordOf(Cpp.Spelling(w)) == w
    ensures Cpp.ReadInt(Cpp.Open([' '] + IntToString(i) + rest)) == (Cpp.Stream(rest, rest == [], false), Some(i))
  {
    var tail := [' '] + IntToString(i) + rest;
    assert Cpp.Spelling(w) + " " + IntToString(i) + rest == [] + Cpp.Spelling(w) + tail;
    Cpp.ReadWordOf([], Cpp.Spelling(w), tail, []);
    Cpp.WordOfSpelling(w);
    IntAfter(' ', i, rest);
  }

  /**
   * The C++ session reads a BUILD message back: the image number, the
   * context and the Dockerfile path, when neither holds a newline.
   */
  lemma CppReadsBuild(image: int, context: string, dockerfile: string, junk: int, junkImage: int)
    requires Cpp.InRange(image) && '\n' !in context && '\n' !in dockerfile
    ensures Cpp.Parse(BuildMessage(image, context, dockerfile), junk, junkImage) == Cpp.Build(image, context, dockerfile)
  {
    var lines := context + "\n" + dockerfile;
    var after := "\n" + lines;
    BuildShape(image, context, dockerfile);
    CppHead(Cpp.WBuild, image, after);
    Cpp.GetLineOf(Cpp.Open(after), [], lines, []);
    Cpp.GetLineOf(Cpp.Open(lines), context, dockerfile, []);
    if dockerfile != [] {
      Cpp.GetLastLine(Cpp.Open(dockerfile), dockerfile, []);
    }
  }

  /**
   * The C++ session reads RESTART and STOP back, and reads what
   * `Container::write` sends as a RESTART of the same container: the chunk
   * is never written to it.
   */
  lemma CppReadsControl(id: int, chunk: string, junk: int, junkImage: int)
    requires Cpp.InRange(id)
    ensures Cpp.Parse(RestartMessage(id), junk, junkImage) == Cpp.Restart(id)
    ensures Cpp.Parse(StopMessage(id), junk, junkImage) == Cpp.Stop(id)
    ensures Cpp.Parse(WriteMessage(id, chunk), junk, junkImage) == Cpp.Restart(id)
  {
    CppReadsRestart(id, junk, junkImage);
    CppReadsStop(id, junk, junkImage);
    CppReadsWrite(id, chunk, junk, junkImage);
  }

  lemma CppReadsRestart(id: int, junk: int, junkImage: int)
    requires Cpp.InRange(id)
    ensures Cpp.Parse(RestartMessage(id), junk, junkImage) == Cpp.Restart(id)
  {
    ControlShapes(id, []);
    CppHead(Cpp.WRestart, id, []);
  }

  lemma CppReadsStop(id: int, junk: int, junkImage: int)
    requires Cpp.InRange(id)
    ensures Cpp.Parse(StopMessage(id), junk, junkImage) == Cpp.Stop(id)
  {
    ControlShapes(id, []);
    CppHead(Cpp.WStop, id, []);
  }

  lemma CppReadsWrite(id: int, chunk: string, junk: int, junkImage: int)
    requires Cpp.InRange(id)
    ensures Cpp.Parse(WriteMessage(id, chunk), junk, junkImage) == Cpp.Restart(id)
  {
    ControlShapes(id, chunk);
    CppHead(Cpp.WRestart, id, "\n" + chunk);
  }

  /** A RUN message as the C++ session starts to read it: the container id, then the image and options from the rest. */
  lemma CppRunHead(id: int, rest: string, junk: int, junkImage: int)
    requires Cpp.InRange(id) && rest != [] && !IsDigit(rest[0])
    ensures Cpp.Parse("RUN" + " " + IntToString(id) + rest, junk, junkImage) ==
      Cpp.Run(id, Cpp.ReadInt(Cpp.Open(rest)).1.GetOr(junkImage), Cpp.Options(Cpp.ReadInt(Cpp.Open(rest)).0, Cpp.DEFAULTS))
  {
    CppHead(Cpp.WRun, id, rest);
  }

  /**
   * The RUN message of lib/operatorApi.cpp carries no image number, so the
   * C++ session reads image 0 from the word STDOUT, which fails the stream:
   * every option is lost and the container gets the defaults.
   */
  lemma CppReadsLibRun(id: int, s: Lib.Settings, junk: int, junkImage: int)
    requires Cpp.InRange(id)
    ensures Cpp.Parse(Lib.RunMessage(id, s), junk, junkImage) == Cpp.Run(id, 0, Cpp.DEFAULTS)
  {
    LibRunShape(id, s);
    CppRunHead(id, "\n" + "STDOUT" + LibAfter(s), junk, junkImage);
    WordForInt(LibAfter(s));
  }

  /** `>> int` on the word STDOUT: no digit, so 0 and a failed stream. */
  lemma WordForInt(y: string)
    ensures Cpp.ReadInt(Cpp.Open("\n" + "STDOUT" + y)) == (Cpp.Stream("STDOUT" + y, false, true), Some(0))
  {
    var u := "STDOUT" + y;
    assert "\n" + "STDOUT" + y == ['\n'] + u;
    SkipOne('\n', u, []);
    assert u[0] == 'S' && Cpp.SkipSpace(u) == u && DigitRun(u) == [];
  }

  /** An output mode option, read by the C++ session. */
  lemma ModeOption(w: Cpp.Word, m: Mode, rest: string, o: Cpp.RunOptions)
    requires w == Cpp.WStdout || w == Cpp.WStderr
    requires Cpp.Ends(rest)
    ensures Cpp.Options(Cpp.Open("\n" + Cpp.Spelling(w) + (" " + ModeText(m) + rest)), o) ==
      Cpp.Options(Cpp.Stream(rest, rest == [], false),
        if w == Cpp.WStdout then o.(stdout := ModeText(m)) else o.(stderr := ModeText(m)))
  {
    var after := " " + ModeText(m) + rest;
    TextsSolid(m, OK);
    Cpp.WordOfSpelling(w);
    Cpp.ReadWordOf("\n", Cpp.Spelling(w), after, []);
    Cpp.ReadWordOf(" ", ModeText(m), rest, if w == Cpp.WStdout then o.stdout else o.stderr);
  }

  /** The WRITE section, read by the C++ session up to the end of the message. */
  lemma WriteOption(line: string, o: Cpp.RunOptions)
    requires '\n' !in line
    ensures Cpp.Options(Cpp.Open("\n" + "WRITE" + ("\n" + line)), o) == o.(initStdin := o.initStdin + line)
  {
    Cpp.WordOfSpelling(Cpp.WWrite);
    Cpp.ReadWordOf("\n", "WRITE", "\n" + line, []);
    Cpp.GetLineOf(Cpp.Open("\n" + line), [], line, []);
    if line != [] {
      assert Join([line], '\n') == line;
      Cpp.LinesOf(Cpp.Open(line), [line]);
      assert Cpp.Concat([line]) == line + Cpp.Concat([]);
    } else {
      assert o.initStdin + line == o.initStdin;
    }
  }

  /** The options after the image line: both modes, then the WRITE section when there is one. */
  lemma SaveOptions(out: Mode, err: Mode, stdin: string)
    requires '\n' !in stdin
    ensures Cpp.Options(Cpp.Open("\n" + "STDOUT" + (" " + ModeText(out) + ("\n" + "STDERR" + (" " + ModeText(err) + Tail(stdin))))), Cpp.DEFAULTS) ==
      Cpp.DEFAULTS.(stdout := ModeText(out), stderr := ModeText(err),
        initStdin := if stdin == [] then [] else stdin[..|stdin| - 1])
  {
    var t := Tail(stdin);
    var o1 := Cpp.DEFAULTS.(stdout := ModeText(out));
    var o2 := o1.(stderr := ModeText(err));
    ModeOption(Cpp.WStdout, out, "\n" + "STDERR" + (" " + ModeText(err) + t), Cpp.DEFAULTS);
    ModeOption(Cpp.WStderr, err, t, o1);
    if stdin != [] {
      var line := stdin[..|stdin| - 1];
      assert forall k :: 0 <= k < |line| ==> line[k] == stdin[k];
      WriteOption(line, o2);
      assert o2.initStdin + line == line;
    }
  }

  /**
   * The C++ session reads a RUN message of save/operatorApi.cpp back — the
   * container, the image and both modes — except that the initial input,
   * when there is some, arrives without its last character.
   */
  lemma CppReadsSaveRun(id: int, s: Save.Settings, junk: int, junkImage: int)
    requires Cpp.InRange(id) && Cpp.InRange(s.image)
    requires s.volumes == [] && s.env == [] && s.networks == [] && '\n' !in s.initStdin
    ensures Cpp.Parse(Save.RunMessage(id, s), junk, junkImage) ==
      Cpp.Run(id, s.image, Cpp.DEFAULTS.(stdout := ModeText(s.stdout), stderr := ModeText(s.stderr),
        initStdin := if s.initStdin == [] then [] else s.initStdin[..|s.initStdin| - 1]))
  {
    var out, err := ModeText(s.stdout), ModeText(s.stderr);
    var modes := "\n" + "STDOUT" + (" " + out + ("\n" + "STDERR" + (" " + err + Tail(s.initStdin))));
    SaveRunShape(id, s);
    var rest := SaveAfter(IntToString(s.image), out, err, Tail(s.initStdin));
    assert rest == ['\n'] + IntToString(s.image) + modes;
    CppRunHead(id, rest, junk, junkImage);
    IntAfter('\n', s.image, modes);
    SaveOptions(s.stdout, s.stderr, s.initStdin);
  }

  // ----------------------------------------------- the TypeScript session

  /** The first line of a text is what comes before its first newline. */
  lemma FirstLine(h: string, x: string)
    requires '\n' !in h && (x == [] || x[0] == '\n')
    ensures Split(h + x, '\n')[0] == h
  {
    if x == [] {
      assert h + x == h;
      SplitWhole(h, '\n');
    } else {
      assert (h + x)[..|h|] == h;
      SplitHead(h + x, '\n', |h|);
    }
  }

  lemma PairText(a: string, b: string, x: string)
    ensures Join([a, b], ' ') + x == a + " " + b + x
  {
    assert [a, b][1..] == [b];
  }

  /**
   * session.ts takes a message's header words from its first line alone:
   * a keyword and one more word read as those two words.
   */
  lemma TsPair(k: Ts.Keyword, w: string, x: string)
    requires k != Ts.Plain && w != [] && Ts.WordOk(w)
    requires x == [] || x[0] == '\n'
    ensures Ts.Parse(Ts.Spelling(k) + " " + w + x) ==
      Ts.ParseWords([Ts.Spelling(k), w], Split(Ts.Spelling(k) + " " + w + x, '\n'))
    ensures Ts.KeywordOf(Ts.Spelling(k)) == k
  {
    var words := [Ts.Spelling(k), w];
    var h := Join(words, ' ');
    Ts.SpellingOk(k);
    Ts.KeywordOfSpelling(k);
    PairText(Ts.Spelling(k), w, x);
    JoinAvoids(words, ' ', '\n');
    FirstLine(h, x);
    SplitJoin(words, ' ');
  }

  /** A keyword and a number as session.ts reads them. */
  lemma TsPairInt(k: Ts.Keyword, i: int, x: string)
    requires k != Ts.Plain && (x == [] || x[0] == '\n')
    ensures Ts.Parse(Ts.Spelling(k) + " " + IntToString(i) + x) ==
      Ts.ParseWords([Ts.Spelling(k), IntToString(i)], Split(Ts.Spelling(k) + " " + IntToString(i) + x, '\n'))
    ensures Ts.KeywordOf(Ts.Spelling(k)) == k
    ensures Ts.ParseInt(IntToString(i)) == Some(i)
  {
    Ts.DecimalOk(i);
    TsPair(k, IntToString(i), x);
    Ts.ParseIntOfText(i);
  }

  /**
   * session.ts reads a BUILD message back: the image number, the context
   * and the Dockerfile path, when neither holds a newline.
   */
  lemma TsReadsBuild(image: int, context: string, dockerfile: string)
    requires '\n' !in context && '\n' !in dockerfile
    ensures Ts.Parse(BuildMessage(image, context, dockerfile)) == Some(Ts.Build(image, context, dockerfile))
  {
    var msg := Ts.Spelling(Ts.KBuild) + " " + IntToString(image) + ("\n" + (context + "\n" + dockerfile));
    BuildShape(image, context, dockerfile);
    TsPairInt(Ts.KBuild, image, "\n" + (context + "\n" + dockerfile));
    BuildLines(image, context, dockerfile);
    TsBuildWords(image, Split(msg, '\n'));
  }

  /** BUILD and a number on the first line, then the context and the Dockerfile path on the next two. */
  lemma TsBuildWords(image: int, lines: seq<string>)
    requires |lines| == 3
    ensures Ts.ParseWords([Ts.Spelling(Ts.KBuild), IntToString(image)], lines) == Some(Ts.Build(image, lines[1], lines[2]))
  {
    Ts.KeywordOfSpelling(Ts.KBuild);
    Ts.ParseIntOfText(image);
  }

  /** The lines of a BUILD message: the header, the context and the Dockerfile path. */
  lemma BuildLines(image: int, context: string, dockerfile: string)
    requires '\n' !in context && '\n' !in dockerfile
    ensures Split(Ts.Spelling(Ts.KBuild) + " " + IntToString(image) + ("\n" + (context + "\n" + dockerfile)), '\n') ==
      [Ts.Spelling(Ts.KBuild) + " " + IntToString(image), context, dockerfile]
  {
    var h := Ts.Spelling(Ts.KBuild) + " " + IntToString(image);
    Ts.DecimalOk(image);
    assert '\n' !in h;
    JoinThree(h, context, dockerfile);
    SplitJoin([h, context, dockerfile], '\n');
  }

  lemma JoinThree(h: string, a: string, b: string)
    ensures Join([h, a, b], '\n') == h + ("\n" + (a + "\n" + b))
  {
    assert [h, a, b][1..] == [a, b];
    assert [a, b][1..] == [b];
    assert Join([a, b], '\n') == a + ['\n'] + b;
    assert Join([h, a, b], '\n') == h + ['\n'] + (a + ['\n'] + b);
  }

  /**
   * session.ts reads RESTART, STOP and HOST back, and reads what
   * `Container::write` sends as a RESTART: the chunk is never written.
   */
  lemma TsReadsControl(id: int, chunk: string)
    ensures Ts.Parse(RestartMessage(id)) == Some(Ts.Restart(id))
    ensures Ts.Parse(StopMessage(id)) == Some(Ts.Stop(id))
    ensures Ts.Parse(Save.HostMessage(id)) == Some(Ts.Host(id))
    ensures Ts.Parse(WriteMessage(id, chunk)) == Some(Ts.Restart(id))
  {
    TsReadsRestart(id);
    TsReadsStop(id);
    TsReadsHost(id);
    TsReadsWrite(id, chunk);
  }

  lemma TsReadsRestart(id: int)
    ensures Ts.Parse(RestartMessage(id)) == Some(Ts.Restart(id))
  {
    ControlShapes(id, []);
    TsPairInt(Ts.KRestart, id, []);
  }

  lemma TsReadsStop(id: int)
    ensures Ts.Parse(StopMessage(id)) == Some(Ts.Stop(id))
  {
    ControlShapes(id, []);
    TsPairInt(Ts.KStop, id, []);
  }

  lemma TsReadsHost(id: int)
    ensures Ts.Parse(Save.HostMessage(id)) == Some(Ts.Host(id))
  {
    ControlShapes(id, []);
    TsPairInt(Ts.KHost, id, []);
  }

  lemma TsReadsWrite(id: int, chunk: string)
    ensures Ts.Parse(WriteMessage(id, chunk)) == Some(Ts.Restart(id))
  {
    ControlShapes(id, chunk);
    TsPairInt(Ts.KRestart, id, "\n" + chunk);
  }

  /**
   * Neither form of the RUN message reaches session.ts: it wants the
   * container and the image on the first line, and both forms put only the
   * container there, so the message is dropped.
   */
  lemma TsDropsRun(id: int, ls: Lib.Settings, ss: Save.Settings)
    ensures Ts.Parse(Lib.RunMessage(id, ls)) == None
    ensures Ts.Parse(Save.RunMessage(id, ss)) == None
  {
    LibRunShape(id, ls);
    TsPairInt(Ts.KRun, id, "\n" + "STDOUT" + LibAfter(ls));
    SaveRunStart(id, ss);
    var after := SaveAfter(IntToString(ss.image), ModeText(ss.stdout), ModeText(ss.stderr),
      "\n" + (Save.VolumesText(ss.volumes) + EnvText(ss.env) + Save.NetworksText(ss.networks) + WriteSection(ss.initStdin)));
    assert PopBack(after)[0] == '\n';
    TsPairInt(Ts.KRun, id, PopBack(after));
  }

  /**
   * session.ts reads the subtask and the data only from the first line,
   * and both forms of `setVerdict` put them on later lines: the verdict
   * arrives with neither.
   */
  lemma TsReadsVerdict(subtask: string, v: Verdict, data: string)
    ensures Ts.Parse(Lib.SubtaskVerdictMessage(subtask, v, data)) == Some(Ts.Verdict(VerdictText(v), None, ""))
    ensures Ts.Parse(Lib.VerdictMessage(v, data)) == Some(Ts.Verdict(VerdictText(v), None, ""))
    ensures Ts.Parse(Save.SubtaskVerdictMessage(subtask, v, data)) == Some(Ts.Verdict(VerdictText(v), None, ""))
    ensures Ts.Parse(Save.VerdictMessage(v, data)) == Some(Ts.Verdict(VerdictText(v), None, ""))
  {
    VerdictShapes(subtask, v, data);
    TextsSolid(NoOutput, v);
    TsVerdictAlone(v, "\nSUB " + subtask + "\nDATA" + data);
    TsVerdictAlone(v, "\nDATA" + data);
    TsVerdictAlone(v, "\nSUB " + subtask + Save.DataLine(data));
    TsVerdictAlone(v, Save.DataLine(data));
  }

  /** VERDICT and the verdict alone on the first line read as that verdict, with no subtask and no data. */
  lemma TsVerdictAlone(v: Verdict, x: string)
    requires x == [] || x[0] == '\n'
    requires Ts.WordOk(VerdictText(v))
    ensures Ts.Parse("VERDICT" + " " + VerdictText(v) + x) == Some(Ts.Verdict(VerdictText(v), None, ""))
  {
    TsPair(Ts.KVerdict, VerdictText(v), x);
  }
}
