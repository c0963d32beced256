/**
 * What the C++ `OperatorApi` (lib/operatorApi.cpp and its later form
 * save/operatorApi.cpp) has in common: the texts of the output modes and of
 * the verdicts, the BUILD, RESTART, STOP and write messages, the prefix
 * filters behind `onStdout`/`onStderr`, and the parts of the RUN message
 * both forms write alike.
 */
module OperatorMessages {
  import opened Wrappers
  import opened Text

  /** `OperatorApi::STDOUT`: what happens to a container's output. */
  datatype Mode = NoOutput | OnEnd | Normal

  /** `OperatorApi::Verdict`. */
  datatype Verdict = OK | WA | TL | ML | ITL | RTL | RML | CE | ERR

  /** `stringValue(STDOUT)`. */
  function ModeText(m: Mode): string
  {
    match m
    case NoOutput => "none"
    case OnEnd => "onEnd"
    case Normal => "normal"
  }

  /** `stringValue(Verdict)`. */
  function VerdictText(v: Verdict): string
  {
    match v
    case OK => "OK"
    case WA => "WA"
    case TL => "TL"
    case ML => "ML"
    case ITL => "ITL"
    case RTL => "RTL"
    case RML => "RML"
    case CE => "CE"
    case ERR => "ERR"
  }

  /** The mode a text names, the reading that inverts `ModeText`. */
  function ModeOf(s: string): (r: Option<Mode>)
  {
    if s == "none" then Some(NoOutput)
    else if s == "onEnd" then Some(OnEnd)
    else if s == "normal" then Some(Normal)
    else None
  }

  /** The verdict a text names, the reading that inverts `VerdictText`. */
  function VerdictOf(s: string): (r: Option<Verdict>)
  {
    if s == "OK" then Some(OK)
    else if s == "WA" then Some(WA)
    else if s == "TL" then Some(TL)
    else if s == "ML" then Some(ML)
    else if s == "ITL" then Some(ITL)
    else if s == "RTL" then Some(RTL)
    else if s == "RML" then Some(RML)
    else if s == "CE" then Some(CE)
    else if s == "ERR" then Some(ERR)
    else None
  }

  /** Each mode's text reads back as that mode, so no two modes share a text. */
  lemma ModeTextRoundTrip(m: Mode)
    ensures ModeOf(ModeText(m)) == Some(m)
  {
    match m
    case OnEnd => assert "onEnd"[0] != "none"[0];
    case Normal => assert "normal"[2] != "none"[2] && "normal"[0] != "onEnd"[0];
    case NoOutput =>
  }

  /** Each verdict's text reads back as that verdict, so no two verdicts share a text. */
  lemma VerdictTextRoundTrip(v: Verdict)
    ensures VerdictOf(VerdictText(v)) == Some(v)
  {
    match v
    case WA => assert "WA"[0] != "OK"[0];
    case TL => assert "TL"[0] != "OK"[0] && "TL"[0] != "WA"[0];
    case ML => assert "ML"[0] != "OK"[0] && "ML"[0] != "WA"[0] && "ML"[0] != "TL"[0];
    case ITL => assert |"ITL"| == 3 && "ITL"[0] == 'I';
    case RTL => assert "RTL"[0] != "ITL"[0];
    case RML => assert "RML"[1] != "RTL"[1] && "RML"[0] != "ITL"[0];
    case CE => assert "CE"[0] != "OK"[0] && "CE"[0] != "WA"[0] && "CE"[0] != "TL"[0] && "CE"[0] != "ML"[0];
    case ERR => assert "ERR"[0] != "ITL"[0] && "ERR"[0] != "RTL"[0] && "ERR"[0] != "RML"[0];
    case OK =>
  }

  /** `stringValue` is injective on modes and on verdicts. */
  lemma TextsDistinct(a: Mode, b: Mode, v: Verdict, w: Verdict)
    ensures ModeText(a) == ModeText(b) ==> a == b
    ensures VerdictText(v) == VerdictText(w) ==> v == w
  {
    ModeTextRoundTrip(a);
    ModeTextRoundTrip(b);
    VerdictTextRoundTrip(v);
    VerdictTextRoundTrip(w);
  }

  /** A word as `>>` reads it back: not empty, no white space. */
  predicate Solid(w: string)
  {
    w != [] && forall i :: 0 <= i < |w| ==> !IsSpaceChar(w[i])
  }

  /** Every mode and verdict text is a single word. */
  lemma TextsSolid(m: Mode, v: Verdict)
    ensures Solid(ModeText(m)) && Solid(VerdictText(v))
  {
  }

  // -------------------------------------------------------------- messages

  /** `build`'s message: "BUILD n", the context and the Dockerfile path, one per line. */
  function BuildMessage(image: int, context: string, dockerfile: string): string
  {
    "BUILD " + IntToString(image) + "\n" + context + "\n" + dockerfile
  }

  /** `Container::restart`. */
  function RestartMessage(id: int): string
  {
    "RESTART " + IntToString(id)
  }

  /** `Container::stop`. */
  function StopMessage(id: int): string
  {
    "STOP " + IntToString(id)
  }

  /** `Container::write`: the chunk goes after a RESTART line, not a WRITE one. */
  function WriteMessage(id: int, chunk: string): string
  {
    RestartMessage(id) + "\n" + chunk
  }

  // ------------------------------------------------------------- listeners

  /** `chunk.substr(pos)`: out of range (an exception) when `pos` is past the end. */
  function Substr(chunk: string, pos: nat): (r: Option<string>)
    ensures r.Some? <==> pos <= |chunk|
    ensures r.Some? ==> pos + |r.value| == |chunk| && r.value == chunk[pos..]
  {
    if pos <= |chunk| then Some(chunk[pos..]) else None
  }

  /** What one listener does with a chunk. */
  datatype Reaction =
    | Ignore
    | Call(arg: string)
    | OutOfRange

  /** A listener that fires on chunks with `prefix` and passes them on from index `pos`. */
  function Filter(prefix: string, pos: nat, chunk: string): (r: Reaction)
  {
    if prefix <= chunk then
      match Substr(chunk, pos)
      case Some(arg) => Call(arg)
      case None => OutOfRange
    else Ignore
  }

  /**
   * The `onStdout`/`onStderr` filter: a chunk starting with "STDOUT" (or
   * "STDERR") is passed on from index 7, past the word and the character
   * after it; any other chunk is ignored; the bare word throws.
   */
  function StreamFilter(stdout: bool, chunk: string): (r: Reaction)
  {
    Filter(if stdout then "STDOUT" else "STDERR", 7, chunk)
  }

  /** The listener answers exactly the chunks that start with its word. */
  lemma StreamFilterOf(stdout: bool, chunk: string)
    ensures StreamFilter(stdout, chunk).Ignore? <==> !((if stdout then "STDOUT" else "STDERR") <= chunk)
    ensures StreamFilter(stdout, chunk).OutOfRange? <==> chunk == (if stdout then "STDOUT" else "STDERR")
    ensures StreamFilter(stdout, chunk).Call? ==>
      |chunk| >= 7 && StreamFilter(stdout, chunk).arg == chunk[7..] &&
      chunk[..6] == (if stdout then "STDOUT" else "STDERR")
  {
    var prefix := if stdout then "STDOUT" else "STDERR";
    if prefix <= chunk && |chunk| < 7 {
      assert chunk == prefix;
    }
  }

  // ------------------------------------------------------ RUN message parts

  /** "ENV a b" on a line of its own for every variable. */
  function EnvText(env: seq<(string, string)>): string
  {
    if env == [] then []
    else
      var e := env[|env| - 1];
      EnvText(env[..|env| - 1]) + "ENV " + e.0 + " " + e.1 + "\n"
  }

  /** "WRITE" and the initial input after it, when there is some. */
  function WriteSection(initStdin: string): string
  {
    if initStdin == [] then "" else "WRITE\n" + initStdin
  }

  /** `chunk.pop_back()`. */
  function PopBack(t: string): string
    requires t != []
  {
    t[..|t| - 1]
  }

  predicate EndsLine(x: string)
  {
    x != [] && x[|x| - 1] == '\n'
  }

  lemma EndsLineAppend(a: string, b: string)
    requires EndsLine(a) && (b == [] || EndsLine(b))
    ensures EndsLine(a + b)
  {
    if b == [] {
      assert a + b == a;
    }
  }

  /** The environment in `std::map` order: each key of `keys` with its value. */
  function EnvPairs(keys: seq<string>, env: map<string, string>): (r: seq<(string, string)>)
    requires forall k :: k in keys ==> k in env
    ensures |r| == |keys|
  {
    if keys == [] then []
    else EnvPairs(keys[..|keys| - 1], env) + [(keys[|keys| - 1], env[keys[|keys| - 1]])]
  }

  /** The ENV loop of `run`, over the map's entries in key order. */
  method WriteEnv(text: string, env: seq<(string, string)>) returns (r: string)
    ensures r == text + EnvText(env)
  {
    r := text;
    for i := 0 to |env|
      invariant r == text + EnvText(env[..i])
    {
      assert env[..i + 1][..i] == env[..i];
      r := r + "ENV " + env[i].0 + " " + env[i].1 + "\n";
    }
    assert env[..|env|] == env;
  }

  /** The environment lines end with a newline, when there are any. */
  lemma EnvTextEndsLine(env: seq<(string, string)>)
    ensures env == [] || EndsLine(EnvText(env))
  {
    if env != [] {
      var x := env[|env| - 1];
      assert EnvText(env) == (EnvText(env[..|env| - 1]) + "ENV " + x.0 + " " + x.1) + "\n";
    }
  }
}
