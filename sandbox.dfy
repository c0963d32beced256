/**
 * The isolate wrapper of src/sandbox/mod.rs: the configuration defaults,
 * the argument vector `Sandbox::run` hands to `isolate`, the parser for the
 * meta file isolate writes, and the classification of that file into a
 * `RunResult`.
 *
 * Starting the process, creating the output files and reading the meta file
 * are I/O: the meta file's text is a parameter.  `Outcome` separates the
 * two ways `run` can fail: an `Err` returned through `?` and a panic
 * (indexing a `HashMap` with a missing key, `unwrap` on `None`).
 */
module Sandbox {
  import opened Wrappers
  import opened Text
  import opened SandboxCommand

  datatype Outcome<T> = Done(value: T) | Error(msg: string) | Panic(msg: string)

  /** The fields of `IsolateConfig` that `run` and `inner_dir` read. */
  datatype IsolateConfig = IsolateConfig(
    sandboxesCount: nat,
    processDefaultLimit: MaybeLimited<nat>,
    openFilesDefaultLimit: MaybeLimited<nat>,
    memoryDefaultLimit: MaybeLimited<nat>,
    stackDefaultLimit: MaybeLimited<nat>,
    timeDefaultLimit: MaybeLimited<Float>,
    extraTimeDefaultLimit: Float,
    realTimeDefaultLimit: MaybeLimited<Float>,
    boxRoot: string)

  /** `IsolateConfig::default`. */
  function DefaultConfig(): (c: IsolateConfig)
    ensures c.processDefaultLimit == Limited(1) && c.openFilesDefaultLimit == Limited(2)
    ensures c.memoryDefaultLimit == Limited(1048576) && c.stackDefaultLimit == Unlimited
    ensures c.timeDefaultLimit == Limited("10") && c.realTimeDefaultLimit == Limited("10")
    ensures c.extraTimeDefaultLimit == "0"
  {
    IsolateConfig(1000, Limited(1), Limited(2), Limited(1048576), Unlimited,
                  Limited("10"), "0", Limited("10"), "/.invoker/isolate")
  }

  // ------------------------------------------------------------ the box

  /** `inner_dir`: `{box_root}/{id}/box`. */
  function InnerDir(boxRoot: string, id: nat): string
  {
    boxRoot + "/" + NatToString(id) + "/box"
  }

  /** Different boxes of one service never share a directory. */
  lemma InnerDirInjective(boxRoot: string, a: nat, b: nat)
    requires InnerDir(boxRoot, a) == InnerDir(boxRoot, b)
    ensures a == b
  {
    var x, y := InnerDir(boxRoot, a), InnerDir(boxRoot, b);
    var na, nb := NatToString(a), NatToString(b);
    assert na == x[|boxRoot| + 1..|x| - 4];
    assert nb == y[|boxRoot| + 1..|y| - 4];
    NatToStringInjective(a, b);
  }

  // ------------------------------------------------------- argument vector

  /** The isolate options `run` passes. */
  datatype OptName = BoxId | Meta | Stdin | Stdout | Stderr | Dir
                   | Time | WallTime | Mem | ExtraTime | Stack | OpenFiles | Processes | FullEnv

  function NameText(n: OptName): (r: string)
    ensures |r| > 0 && '=' !in r
  {
    match n
    case BoxId => "box-id"
    case Meta => "meta"
    case Stdin => "stdin"
    case Stdout => "stdout"
    case Stderr => "stderr"
    case Dir => "dir"
    case Time => "time"
    case WallTime => "wall-time"
    case Mem => "mem"
    case ExtraTime => "extra-time"
    case Stack => "stack"
    case OpenFiles => "open-files"
    case Processes => "processes"
    case FullEnv => "full-env"
  }

  lemma NameTextInjective(a: OptName, b: OptName)
    requires NameText(a) == NameText(b)
    ensures a == b
  {
  }

  /** `--name=value`. */
  function Flag(name: OptName, v: string): (r: string)
    ensures |r| > 2
  {
    "--" + NameText(name) + "=" + v
  }

  /** A flag without a value, `--name`. */
  function Bare(name: OptName): (r: string)
    ensures |r| > 2
  {
    "--" + NameText(name)
  }

  /** The limit the box runs with: the command's own when set, else the configured default. */
  function Effective<T>(own: Option<T>, default: T): T
  {
    own.GetOr(default)
  }

  /** A flag present only for a limited value. */
  function LimitFlag<T>(name: OptName, m: MaybeLimited<T>, show: T -> string): seq<string>
  {
    match m
    case Limited(v) => [Flag(name, show(v))]
    case Unlimited => []
  }

  function ShowFloat(f: Float): string { f }

  function ShowNat(n: nat): string { NatToString(n) }

  /** `--stdin=`, `--stdout=`, `--stderr=`: present when the command sets the redirection. */
  function Redirect(name: OptName, path: Option<string>): seq<string>
  {
    if path.Some? then [Flag(name, path.value)] else []
  }

  function BoxFlags(id: nat, cfg: IsolateConfig): seq<string>
  {
    [Flag(BoxId, NatToString(id)), Flag(Meta, InnerDir(cfg.boxRoot, id) + "/meta")]
  }

  function DirFlags(dirs: seq<string>): (r: seq<string>)
    ensures |r| == |dirs|
  {
    if |dirs| == 0 then [] else [Flag(Dir, dirs[0])] + DirFlags(dirs[1..])
  }

  /** The time and memory limits, in the order `run` adds them. */
  function TimeFlags(cmd: CommandValue, cfg: IsolateConfig): seq<string>
  {
    LimitFlag(Time, Effective(cmd.timeLimit, cfg.timeDefaultLimit), ShowFloat)
    + LimitFlag(WallTime, Effective(cmd.realTimeLimit, cfg.realTimeDefaultLimit), ShowFloat)
    + LimitFlag(Mem, Effective(cmd.memoryLimit, cfg.memoryDefaultLimit), ShowNat)
    + [Flag(ExtraTime, Effective(cmd.extraTimeLimit, cfg.extraTimeDefaultLimit))]
  }

  function ProcessesFlag(m: MaybeLimited<nat>): seq<string>
  {
    match m
    case Limited(n) => [Flag(Processes, NatToString(n))]
    case Unlimited => [Bare(Processes)]
  }

  /** The remaining limits and the environment flag. */
  function CountFlags(cmd: CommandValue, cfg: IsolateConfig): seq<string>
  {
    LimitFlag(Stack, Effective(cmd.stackLimit, cfg.stackDefaultLimit), ShowNat)
    + LimitFlag(OpenFiles, Effective(cmd.countFilesLimit, cfg.openFilesDefaultLimit), ShowNat)
    + ProcessesFlag(Effective(cmd.countProcessLimit, cfg.processDefaultLimit))
    + (if cmd.useEnv then [Bare(FullEnv)] else [])
  }

  /** Everything before `--run`: box and meta file, redirections, directories, limits. */
  function Options(id: nat, cmd: CommandValue, cfg: IsolateConfig): seq<string>
  {
    BoxFlags(id, cfg) + Redirect(Stdin, cmd.stdin) + Redirect(Stdout, cmd.stdout) + Redirect(Stderr, cmd.stderr)
    + DirFlags(cmd.openDirs) + (TimeFlags(cmd, cfg) + CountFlags(cmd, cfg))
  }

  /**
   * The whole argument vector: the options, then `--run`, `--`, the program
   * and its arguments.  Reading the first character of an empty stdout or
   * stderr path panics before anything is started.
   */
  function IsolateArgs(id: nat, cmd: CommandValue, cfg: IsolateConfig): (r: Outcome<seq<string>>)
    ensures r.Panic? <==> cmd.stdout == Some("") || cmd.stderr == Some("")
    ensures !r.Error?
  {
    if cmd.stdout == Some("") || cmd.stderr == Some("") then Panic("called `Option::unwrap()` on a `None` value")
    else Done(Options(id, cmd, cfg) + ["--run", "--", cmd.program] + cmd.args)
  }

  // ---------------------------------------------------- reading options back

  /** How isolate reads one option: the name after "--", up to the first '='; the rest is the value. */
  datatype Opt = Opt(name: string, value: Option<string>)

  function ReadOpt(a: string): Opt
  {
    var body := if |a| >= 2 then a[2..] else a;
    match SplitOnce(body, '=')
    case Some((n, v)) => Opt(n, Some(v))
    case None => Opt(body, None)
  }

  /** The values of every option called `name`, in order (`None` for a bare flag). */
  function Values(opts: seq<string>, name: OptName): seq<Option<string>>
  {
    ValuesNamed(opts, NameText(name))
  }

  /** The values of every option whose name reads as `text`. */
  function ValuesNamed(opts: seq<string>, text: string): seq<Option<string>>
  {
    if |opts| == 0 then []
    else
      var o := ReadOpt(opts[0]);
      (if o.name == text then [o.value] else []) + ValuesNamed(opts[1..], text)
  }

  lemma ValuesAppend(a: seq<string>, b: seq<string>, n: OptName)
    ensures Values(a + b, n) == Values(a, n) + Values(b, n)
  {
    ValuesNamedAppend(a, b, NameText(n));
  }

  lemma {:induction false} ValuesNamedAppend(a: seq<string>, b: seq<string>, text: string)
    ensures ValuesNamed(a + b, text) == ValuesNamed(a, text) + ValuesNamed(b, text)
    decreases |a|
  {
    if |a| > 0 {
      assert (a + b)[1..] == a[1..] + b;
      ValuesNamedAppend(a[1..], b, text);
    } else {
      assert a + b == b;
    }
  }

  lemma ValuesFlag(name: OptName, v: string, n: OptName)
    ensures Values([Flag(name, v)], n) == if name == n then [Some(v)] else []
  {
    ValuesOne(Flag(name, v), NameText(n));
    ReadFlag(name, v);
    if NameText(name) == NameText(n) {
      NameTextInjective(name, n);
    }
  }

  /** isolate reads "--name=value" back as the name and the value. */
  lemma ReadFlag(name: OptName, v: string)
    ensures ReadOpt(Flag(name, v)) == Opt(NameText(name), Some(v))
  {
    assert Flag(name, v)[2..] == NameText(name) + ['='] + v;
    SplitOnceAt(NameText(name), v, '=');
  }

  lemma ValuesBare(name: OptName, n: OptName)
    ensures Values([Bare(name)], n) == if name == n then [None] else []
  {
    ValuesOne(Bare(name), NameText(n));
    assert Bare(name)[2..] == NameText(name);
    assert ReadOpt(Bare(name)) == Opt(NameText(name), None);
    if NameText(name) == NameText(n) {
      NameTextInjective(name, n);
    }
  }

  lemma ValuesOne(a: string, text: string)
    ensures ValuesNamed([a], text) == if ReadOpt(a).name == text then [ReadOpt(a).value] else []
  {
    assert [a][1..] == [];
  }

  /** The values a limit flag contributes under `n`. */
  function Shown<T>(name: OptName, m: MaybeLimited<T>, show: T -> string, n: OptName): seq<Option<string>>
  {
    if name == n && m.Limited? then [Some(show(m.value))] else []
  }

  lemma ValuesLimitFlag<T>(name: OptName, m: MaybeLimited<T>, show: T -> string, n: OptName)
    ensures Values(LimitFlag(name, m, show), n) == Shown(name, m, show, n)
  {
    if m.Limited? {
      ValuesFlag(name, show(m.value), n);
    }
  }

  /** The values the process flag contributes under `n`. */
  function ProcessesShown(m: MaybeLimited<nat>, n: OptName): seq<Option<string>>
  {
    if n != Processes then [] else if m.Limited? then [Some(NatToString(m.value))] else [None]
  }

  lemma ValuesProcesses(m: MaybeLimited<nat>, n: OptName)
    ensures Values(ProcessesFlag(m), n) == ProcessesShown(m, n)
  {
    if m.Limited? {
      ValuesFlag(Processes, NatToString(m.value), n);
    } else {
      ValuesBare(Processes, n);
    }
  }

  lemma {:induction false} ValuesTimeFlags(cmd: CommandValue, cfg: IsolateConfig, n: OptName)
    ensures Values(TimeFlags(cmd, cfg), n) ==
      Shown(Time, Effective(cmd.timeLimit, cfg.timeDefaultLimit), ShowFloat, n)
      + Shown(WallTime, Effective(cmd.realTimeLimit, cfg.realTimeDefaultLimit), ShowFloat, n)
      + Shown(Mem, Effective(cmd.memoryLimit, cfg.memoryDefaultLimit), ShowNat, n)
      + (if n == ExtraTime then [Some(Effective(cmd.extraTimeLimit, cfg.extraTimeDefaultLimit))] else [])
  {
    var s1 := LimitFlag(Time, Effective(cmd.timeLimit, cfg.timeDefaultLimit), ShowFloat);
    var s2 := LimitFlag(WallTime, Effective(cmd.realTimeLimit, cfg.realTimeDefaultLimit), ShowFloat);
    var s3 := LimitFlag(Mem, Effective(cmd.memoryLimit, cfg.memoryDefaultLimit), ShowNat);
    var s4 := [Flag(ExtraTime, Effective(cmd.extraTimeLimit, cfg.extraTimeDefaultLimit))];
    ValuesLimitFlag(Time, Effective(cmd.timeLimit, cfg.timeDefaultLimit), ShowFloat, n);
    ValuesLimitFlag(WallTime, Effective(cmd.realTimeLimit, cfg.realTimeDefaultLimit), ShowFloat, n);
    ValuesLimitFlag(Mem, Effective(cmd.memoryLimit, cfg.memoryDefaultLimit), ShowNat, n);
    ValuesFlag(ExtraTime, Effective(cmd.extraTimeLimit, cfg.extraTimeDefaultLimit), n);
    ValuesAppend(s1, s2, n);
    ValuesAppend(s1 + s2, s3, n);
    ValuesAppend(s1 + s2 + s3, s4, n);
  }

  lemma {:induction false} ValuesCountFlags(cmd: CommandValue, cfg: IsolateConfig, n: OptName)
    ensures Values(CountFlags(cmd, cfg), n) ==
      Shown(Stack, Effective(cmd.stackLimit, cfg.stackDefaultLimit), ShowNat, n)
      + Shown(OpenFiles, Effective(cmd.countFilesLimit, cfg.openFilesDefaultLimit), ShowNat, n)
      + Values(ProcessesFlag(Effective(cmd.countProcessLimit, cfg.processDefaultLimit)), n)
      + (if cmd.useEnv && n == FullEnv then [None] else [])
  {
    var s5 := LimitFlag(Stack, Effective(cmd.stackLimit, cfg.stackDefaultLimit), ShowNat);
    var s6 := LimitFlag(OpenFiles, Effective(cmd.countFilesLimit, cfg.openFilesDefaultLimit), ShowNat);
    var s7 := ProcessesFlag(Effective(cmd.countProcessLimit, cfg.processDefaultLimit));
    var s8: seq<string> := if cmd.useEnv then [Bare(FullEnv)] else [];
    ValuesLimitFlag(Stack, Effective(cmd.stackLimit, cfg.stackDefaultLimit), ShowNat, n);
    ValuesLimitFlag(OpenFiles, Effective(cmd.countFilesLimit, cfg.openFilesDefaultLimit), ShowNat, n);
    if cmd.useEnv {
      ValuesBare(FullEnv, n);
    }
    ValuesAppend(s5, s6, n);
    ValuesAppend(s5 + s6, s7, n);
    ValuesAppend(s5 + s6 + s7, s8, n);
  }

  lemma {:induction false} ValuesDirs(dirs: seq<string>, n: OptName)
    ensures n != Dir ==> Values(DirFlags(dirs), n) == []
    ensures n == Dir ==>
      |Values(DirFlags(dirs), n)| == |dirs| && forall i :: 0 <= i < |dirs| ==> Values(DirFlags(dirs), n)[i] == Some(dirs[i])
    decreases |dirs|
  {
    if |dirs| > 0 {
      ValuesFlag(Dir, dirs[0], n);
      ValuesAppend([Flag(Dir, dirs[0])], DirFlags(dirs[1..]), n);
      ValuesDirs(dirs[1..], n);
    }
  }

  lemma ValuesBox(id: nat, cfg: IsolateConfig, n: OptName)
    ensures Values(BoxFlags(id, cfg), n) ==
      (if n == BoxId then [Some(NatToString(id))] else []) + (if n == Meta then [Some(InnerDir(cfg.boxRoot, id) + "/meta")] else [])
  {
    ValuesPair(BoxId, NatToString(id), Meta, InnerDir(cfg.boxRoot, id) + "/meta", n);
  }

  lemma ValuesPair(a: OptName, x: string, b: OptName, y: string, n: OptName)
    ensures Values([Flag(a, x), Flag(b, y)], n) == (if n == a then [Some(x)] else []) + (if n == b then [Some(y)] else [])
  {
    ValuesFlag(a, x, n);
    ValuesFlag(b, y, n);
    ValuesAppend([Flag(a, x)], [Flag(b, y)], n);
    assert [Flag(a, x), Flag(b, y)] == [Flag(a, x)] + [Flag(b, y)];
  }

  /** The values an optional redirection contributes under `n`. */
  function Given(name: OptName, path: Option<string>, n: OptName): seq<Option<string>>
  {
    if name == n && path.Some? then [Some(path.value)] else []
  }

  lemma ValuesRedirect(name: OptName, path: Option<string>, n: OptName)
    ensures Values(Redirect(name, path), n) == Given(name, path, n)
  {
    if path.Some? {
      ValuesFlag(name, path.value, n);
    }
  }

  lemma {:induction false} ValuesOptions(id: nat, cmd: CommandValue, cfg: IsolateConfig, n: OptName)
    ensures Values(Options(id, cmd, cfg), n) ==
      Values(BoxFlags(id, cfg), n) + Values(Redirect(Stdin, cmd.stdin), n)
      + Values(Redirect(Stdout, cmd.stdout), n) + Values(Redirect(Stderr, cmd.stderr), n)
      + Values(DirFlags(cmd.openDirs), n) + (Values(TimeFlags(cmd, cfg), n) + Values(CountFlags(cmd, cfg), n))
  {
    var s1, s2 := BoxFlags(id, cfg), Redirect(Stdin, cmd.stdin);
    var s3, s4 := Redirect(Stdout, cmd.stdout), Redirect(Stderr, cmd.stderr);
    var s5, s6, s7 := DirFlags(cmd.openDirs), TimeFlags(cmd, cfg), CountFlags(cmd, cfg);
    ValuesAppend(s1, s2, n);
    ValuesAppend(s1 + s2, s3, n);
    ValuesAppend(s1 + s2 + s3, s4, n);
    ValuesAppend(s1 + s2 + s3 + s4, s5, n);
    ValuesAppend(s1 + s2 + s3 + s4 + s5, s6 + s7, n);
    ValuesAppend(s6, s7, n);
  }

  /**
   * Reading the options back as isolate does: each limit appears once with
   * the command's value when set and the configured default otherwise, and
   * only when that value is limited; "--extra-time" is always there; the
   * process limit is a bare "--processes" when unlimited; "--full-env"
   * appears iff the command asked for the environment.
   */
  lemma LimitsRead(id: nat, cmd: CommandValue, cfg: IsolateConfig, n: OptName)
    requires n !in {BoxId, Meta, Stdin, Stdout, Stderr, Dir}
    ensures Values(Options(id, cmd, cfg), n) ==
      match n
      case Time => Shown(Time, Effective(cmd.timeLimit, cfg.timeDefaultLimit), ShowFloat, n)
      case WallTime => Shown(WallTime, Effective(cmd.realTimeLimit, cfg.realTimeDefaultLimit), ShowFloat, n)
      case Mem => Shown(Mem, Effective(cmd.memoryLimit, cfg.memoryDefaultLimit), ShowNat, n)
      case ExtraTime => [Some(Effective(cmd.extraTimeLimit, cfg.extraTimeDefaultLimit))]
      case Stack => Shown(Stack, Effective(cmd.stackLimit, cfg.stackDefaultLimit), ShowNat, n)
      case OpenFiles => Shown(OpenFiles, Effective(cmd.countFilesLimit, cfg.openFilesDefaultLimit), ShowNat, n)
      case Processes =>
        (match Effective(cmd.countProcessLimit, cfg.processDefaultLimit)
         case Limited(p) => [Some(NatToString(p))]
         case Unlimited => [None])
      case FullEnv => if cmd.useEnv then [None] else []
      case _ => []
  {
    LimitsCarry(id, cmd, cfg, n);
    LimitsSum(cmd, cfg, n);
  }

  /** The limit flags' contributions, added up for each option. */
  lemma LimitsSum(cmd: CommandValue, cfg: IsolateConfig, n: OptName)
    requires n !in {BoxId, Meta, Stdin, Stdout, Stderr, Dir}
    ensures
      Shown(Time, Effective(cmd.timeLimit, cfg.timeDefaultLimit), ShowFloat, n)
      + Shown(WallTime, Effective(cmd.realTimeLimit, cfg.realTimeDefaultLimit), ShowFloat, n)
      + Shown(Mem, Effective(cmd.memoryLimit, cfg.memoryDefaultLimit), ShowNat, n)
      + (if n == ExtraTime then [Some(Effective(cmd.extraTimeLimit, cfg.extraTimeDefaultLimit))] else [])
      + (Shown(Stack, Effective(cmd.stackLimit, cfg.stackDefaultLimit), ShowNat, n)
      + Shown(OpenFiles, Effective(cmd.countFilesLimit, cfg.openFilesDefaultLimit), ShowNat, n)
      + ProcessesShown(Effective(cmd.countProcessLimit, cfg.processDefaultLimit), n)
      + (if cmd.useEnv && n == FullEnv then [None] else [])) ==
      match n
      case Time => Shown(Time, Effective(cmd.timeLimit, cfg.timeDefaultLimit), ShowFloat, n)
      case WallTime => Shown(WallTime, Effective(cmd.realTimeLimit, cfg.realTimeDefaultLimit), ShowFloat, n)
      case Mem => Shown(Mem, Effective(cmd.memoryLimit, cfg.memoryDefaultLimit), ShowNat, n)
      case ExtraTime => [Some(Effective(cmd.extraTimeLimit, cfg.extraTimeDefaultLimit))]
      case Stack => Shown(Stack, Effective(cmd.stackLimit, cfg.stackDefaultLimit), ShowNat, n)
      case OpenFiles => Shown(OpenFiles, Effective(cmd.countFilesLimit, cfg.openFilesDefaultLimit), ShowNat, n)
      case Processes =>
        (match Effective(cmd.countProcessLimit, cfg.processDefaultLimit)
         case Limited(p) => [Some(NatToString(p))]
         case Unlimited => [None])
      case FullEnv => if cmd.useEnv then [None] else []
      case _ => []
  {
  }

  /** Past the leading options, what each limit flag contributes under `n`. */
  lemma LimitsCarry(id: nat, cmd: CommandValue, cfg: IsolateConfig, n: OptName)
    requires n !in {BoxId, Meta, Stdin, Stdout, Stderr, Dir}
    ensures Values(Options(id, cmd, cfg), n) ==
      Shown(Time, Effective(cmd.timeLimit, cfg.timeDefaultLimit), ShowFloat, n)
      + Shown(WallTime, Effective(cmd.realTimeLimit, cfg.realTimeDefaultLimit), ShowFloat, n)
      + Shown(Mem, Effective(cmd.memoryLimit, cfg.memoryDefaultLimit), ShowNat, n)
      + (if n == ExtraTime then [Some(Effective(cmd.extraTimeLimit, cfg.extraTimeDefaultLimit))] else [])
      + (Shown(Stack, Effective(cmd.stackLimit, cfg.stackDefaultLimit), ShowNat, n)
      + Shown(OpenFiles, Effective(cmd.countFilesLimit, cfg.openFilesDefaultLimit), ShowNat, n)
      + ProcessesShown(Effective(cmd.countProcessLimit, cfg.processDefaultLimit), n)
      + (if cmd.useEnv && n == FullEnv then [None] else []))
  {
    LeadingCarryNoLimits(id, cmd, cfg, n);
    ValuesTimeFlags(cmd, cfg, n);
    ValuesCountFlags(cmd, cfg, n);
    ValuesProcesses(Effective(cmd.countProcessLimit, cfg.processDefaultLimit), n);
  }

  lemma LeadingCarryNoLimits(id: nat, cmd: CommandValue, cfg: IsolateConfig, n: OptName)
    requires n !in {BoxId, Meta, Stdin, Stdout, Stderr, Dir}
    ensures Values(Options(id, cmd, cfg), n) == Values(TimeFlags(cmd, cfg), n) + Values(CountFlags(cmd, cfg), n)
  {
    ValuesOptions(id, cmd, cfg, n);
    ValuesBox(id, cfg, n);
    ValuesRedirect(Stdin, cmd.stdin, n);
    ValuesRedirect(Stdout, cmd.stdout, n);
    ValuesRedirect(Stderr, cmd.stderr, n);
    ValuesDirs(cmd.openDirs, n);
  }

  lemma LimitsCarryNoLeading(cmd: CommandValue, cfg: IsolateConfig, n: OptName)
    requires n in {BoxId, Meta, Stdin, Stdout, Stderr, Dir}
    ensures Values(TimeFlags(cmd, cfg), n) + Values(CountFlags(cmd, cfg), n) == []
  {
    ValuesTimeFlags(cmd, cfg, n);
    ValuesCountFlags(cmd, cfg, n);
    ValuesProcesses(Effective(cmd.countProcessLimit, cfg.processDefaultLimit), n);
  }

  /** The box, the meta file and each redirection appear once, with the command's own paths. */
  lemma LeadingRead(id: nat, cmd: CommandValue, cfg: IsolateConfig, n: OptName)
    requires n in {BoxId, Meta, Stdin, Stdout, Stderr}
    ensures Values(Options(id, cmd, cfg), n) ==
      match n
      case BoxId => [Some(NatToString(id))]
      case Meta => [Some(InnerDir(cfg.boxRoot, id) + "/meta")]
      case Stdin => Given(Stdin, cmd.stdin, n)
      case Stdout => Given(Stdout, cmd.stdout, n)
      case _ => Given(Stderr, cmd.stderr, n)
  {
    match n
    case BoxId => LeadingBox(id, cmd, cfg);
    case Meta => LeadingMeta(id, cmd, cfg);
    case Stdin => LeadingStdin(id, cmd, cfg);
    case Stdout => LeadingStdout(id, cmd, cfg);
    case Stderr => LeadingStderr(id, cmd, cfg);
  }

  lemma LeadingBox(id: nat, cmd: CommandValue, cfg: IsolateConfig)
    ensures Values(Options(id, cmd, cfg), BoxId) == [Some(NatToString(id))]
  {
    LeadingCarry(id, cmd, cfg, BoxId);
    ValuesBox(id, cfg, BoxId);
    ValuesDirs(cmd.openDirs, BoxId);
  }

  lemma LeadingMeta(id: nat, cmd: CommandValue, cfg: IsolateConfig)
    ensures Values(Options(id, cmd, cfg), Meta) == [Some(InnerDir(cfg.boxRoot, id) + "/meta")]
  {
    LeadingCarry(id, cmd, cfg, Meta);
    ValuesBox(id, cfg, Meta);
    ValuesDirs(cmd.openDirs, Meta);
  }

  lemma LeadingStdin(id: nat, cmd: CommandValue, cfg: IsolateConfig)
    ensures Values(Options(id, cmd, cfg), Stdin) == Given(Stdin, cmd.stdin, Stdin)
  {
    LeadingCarry(id, cmd, cfg, Stdin);
    ValuesBox(id, cfg, Stdin);
    ValuesDirs(cmd.openDirs, Stdin);
  }

  lemma LeadingStdout(id: nat, cmd: CommandValue, cfg: IsolateConfig)
    ensures Values(Options(id, cmd, cfg), Stdout) == Given(Stdout, cmd.stdout, Stdout)
  {
    LeadingCarry(id, cmd, cfg, Stdout);
    ValuesBox(id, cfg, Stdout);
    ValuesDirs(cmd.openDirs, Stdout);
  }

  lemma LeadingStderr(id: nat, cmd: CommandValue, cfg: IsolateConfig)
    ensures Values(Options(id, cmd, cfg), Stderr) == Given(Stderr, cmd.stderr, Stderr)
  {
    LeadingCarry(id, cmd, cfg, Stderr);
    ValuesBox(id, cfg, Stderr);
    ValuesDirs(cmd.openDirs, Stderr);
  }

  /** For the leading options and "--dir", the limits contribute nothing. */
  lemma LeadingCarry(id: nat, cmd: CommandValue, cfg: IsolateConfig, n: OptName)
    requires n in {BoxId, Meta, Stdin, Stdout, Stderr, Dir}
    ensures Values(Options(id, cmd, cfg), n) ==
      Values(BoxFlags(id, cfg), n) + Given(Stdin, cmd.stdin, n) + Given(Stdout, cmd.stdout, n)
      + Given(Stderr, cmd.stderr, n) + Values(DirFlags(cmd.openDirs), n)
  {
    var lead := Values(BoxFlags(id, cfg), n) + Given(Stdin, cmd.stdin, n) + Given(Stdout, cmd.stdout, n)
      + Given(Stderr, cmd.stderr, n) + Values(DirFlags(cmd.openDirs), n);
    ValuesOptions(id, cmd, cfg, n);
    ValuesRedirect(Stdin, cmd.stdin, n);
    ValuesRedirect(Stdout, cmd.stdout, n);
    ValuesRedirect(Stderr, cmd.stderr, n);
    LimitsCarryNoLeading(cmd, cfg, n);
    assert lead + [] == lead;
  }

  /** Each open directory appears in order as a "--dir" option. */
  lemma DirsRead(id: nat, cmd: CommandValue, cfg: IsolateConfig)
    ensures var v := Values(Options(id, cmd, cfg), Dir);
      |v| == |cmd.openDirs| && forall i :: 0 <= i < |v| ==> v[i] == Some(cmd.openDirs[i])
  {
    LeadingCarry(id, cmd, cfg, Dir);
    ValuesBox(id, cfg, Dir);
    ValuesDirs(cmd.openDirs, Dir);
    var e: seq<Option<string>> := [];
    assert e + e + e + e + Values(DirFlags(cmd.openDirs), Dir) == Values(DirFlags(cmd.openDirs), Dir);
  }

  /** Every option is longer than the "--" separator. */
  predicate AllLong(s: seq<string>)
  {
    forall i :: 0 <= i < |s| ==> |s[i]| > 2
  }

  lemma LongAppend(a: seq<string>, b: seq<string>)
    requires AllLong(a) && AllLong(b)
    ensures AllLong(a + b)
  {
  }

  lemma {:induction false} DirFlagsLong(dirs: seq<string>)
    ensures AllLong(DirFlags(dirs))
    decreases |dirs|
  {
    if |dirs| > 0 {
      DirFlagsLong(dirs[1..]);
      LongAppend([Flag(Dir, dirs[0])], DirFlags(dirs[1..]));
    }
  }

  lemma OptionsLong(id: nat, cmd: CommandValue, cfg: IsolateConfig)
    ensures AllLong(Options(id, cmd, cfg))
  {
    var s1, s2 := BoxFlags(id, cfg), Redirect(Stdin, cmd.stdin);
    var s3, s4 := Redirect(Stdout, cmd.stdout), Redirect(Stderr, cmd.stderr);
    var s5, s6, s7 := DirFlags(cmd.openDirs), TimeFlags(cmd, cfg), CountFlags(cmd, cfg);
    DirFlagsLong(cmd.openDirs);
    assert AllLong(s6) && AllLong(s7);
    LongAppend(s1, s2);
    LongAppend(s1 + s2, s3);
    LongAppend(s1 + s2 + s3, s4);
    LongAppend(s1 + s2 + s3 + s4, s5);
    LongAppend(s6, s7);
    LongAppend(s1 + s2 + s3 + s4 + s5, s6 + s7);
  }

  /** No option is the separator "--": every option is longer than two characters. */
  lemma NoSeparatorInOptions(id: nat, cmd: CommandValue, cfg: IsolateConfig)
    ensures "--" !in Options(id, cmd, cfg)
  {
    OptionsLong(id, cmd, cfg);
    NoSeparatorWhenLong(Options(id, cmd, cfg));
  }

  lemma NoSeparatorWhenLong(opts: seq<string>)
    requires AllLong(opts)
    ensures "--" !in opts
  {
  }

  /** Everything after the first "--" of an argument vector is the program and its arguments. */
  predicate RunsAfterSeparator(a: seq<string>, program: string, args: seq<string>)
  {
    IndexOf(a, "--").Some? && a[IndexOf(a, "--").value + 1..] == [program] + args
  }

  lemma SeparatorAfterOptions(a: seq<string>, opts: seq<string>, program: string, args: seq<string>)
    requires "--" !in opts && a == opts + ["--run", "--", program] + args
    ensures RunsAfterSeparator(a, program, args)
  {
    var pre := opts + ["--run"];
    assert "--" !in pre;
    IndexOfAfter(pre, "--", [program] + args);
    assert a == pre + ["--"] + ([program] + args);
  }

  /**
   * isolate receives the program and its arguments exactly as the command
   * holds them: they are everything after the first "--", since no option
   * is "--" itself.
   */
  lemma ProgramAfterSeparator(id: nat, cmd: CommandValue, cfg: IsolateConfig)
    requires IsolateArgs(id, cmd, cfg).Done?
    ensures RunsAfterSeparator(IsolateArgs(id, cmd, cfg).value, cmd.program, cmd.args)
  {
    NoSeparatorInOptions(id, cmd, cfg);
    SeparatorAfterOptions(IsolateArgs(id, cmd, cfg).value, Options(id, cmd, cfg), cmd.program, cmd.args);
  }

  // ------------------------------------------------------------ meta file

  /** The key/value pairs of the lines that contain ':', split at the first ':' and trimmed. */
  function MetaPairs(lines: seq<string>): seq<(string, string)>
  {
    if |lines| == 0 then []
    else
      (match SplitOnce(lines[0], ':')
       case Some((k, v)) => [(TrimStr(k), TrimStr(v))]
       case None => [])
      + MetaPairs(lines[1..])
  }

  /** `collect` into a `HashMap`: a later pair replaces an earlier one with the same key. */
  function Collect(pairs: seq<(string, string)>): map<string, string>
  {
    if |pairs| == 0 then map[]
    else Collect(pairs[..|pairs| - 1])[pairs[|pairs| - 1].0 := pairs[|pairs| - 1].1]
  }

  /** `parse_meta_file`. */
  function ParseMetaFile(s: string): map<string, string>
  {
    Collect(MetaPairs(Split(s, '\n')))
  }

  /** A key is present iff some pair has it, and then its value is the one of the last such pair. */
  lemma {:induction false} CollectLast(pairs: seq<(string, string)>, k: string)
    ensures k in Collect(pairs) <==> exists i :: 0 <= i < |pairs| && pairs[i].0 == k
    ensures forall i :: 0 <= i < |pairs| && pairs[i].0 == k && (forall j :: i < j < |pairs| ==> pairs[j].0 != k)
              ==> Collect(pairs)[k] == pairs[i].1
    decreases |pairs|
  {
    if |pairs| > 0 {
      var init, last := pairs[..|pairs| - 1], pairs[|pairs| - 1];
      CollectLast(init, k);
      assert Collect(pairs) == Collect(init)[last.0 := last.1];
      if last.0 != k && k in Collect(init) {
        var i :| 0 <= i < |init| && init[i].0 == k;
        assert pairs[i].0 == k;
      }
      forall i | 0 <= i < |pairs| && pairs[i].0 == k
        ensures k in Collect(pairs)
      {
        if i < |init| {
          assert init[i].0 == k;
        }
      }
      forall i | 0 <= i < |pairs| && pairs[i].0 == k && (forall j :: i < j < |pairs| ==> pairs[j].0 != k)
        ensures Collect(pairs)[k] == pairs[i].1
      {
        if i < |init| {
          assert init[i] == pairs[i];
          assert forall j :: i < j < |init| ==> init[j] == pairs[j];
        }
      }
    }
  }

  /** One line of a meta file as isolate writes it. */
  function MetaLine(p: (string, string)): string
  {
    p.0 + ":" + p.1
  }

  /** A meta file: every pair on its own line, each line ended by a newline. */
  function MetaText(pairs: seq<(string, string)>): string
  {
    if |pairs| == 0 then [] else MetaLine(pairs[0]) + "\n" + MetaText(pairs[1..])
  }

  function MetaLines(pairs: seq<(string, string)>): (r: seq<string>)
    ensures |r| == |pairs|
  {
    if |pairs| == 0 then [] else [MetaLine(pairs[0])] + MetaLines(pairs[1..])
  }

  /** A pair isolate can write and `parse_meta_file` reads back unchanged. */
  predicate WellFormedPair(p: (string, string))
  {
    ':' !in p.0 && '\n' !in p.0 && '\n' !in p.1 && Trimmed(p.0, IsSpaceChar) && Trimmed(p.1, IsSpaceChar)
  }

  lemma {:induction false} MetaTextJoin(pairs: seq<(string, string)>)
    ensures MetaText(pairs) == Join(MetaLines(pairs) + [""], '\n')
    decreases |pairs|
  {
    if |pairs| > 0 {
      MetaTextJoin(pairs[1..]);
      var rest := MetaLines(pairs[1..]) + [""];
      assert MetaLines(pairs) + [""] == [MetaLine(pairs[0])] + rest;
      assert ([MetaLine(pairs[0])] + rest)[1..] == rest;
    }
  }

  /** Every pair is well formed, stated pair by pair from the front. */
  predicate AllWellFormed(pairs: seq<(string, string)>)
  {
    |pairs| == 0 || (WellFormedPair(pairs[0]) && AllWellFormed(pairs[1..]))
  }

  lemma {:induction false} AllWellFormedOf(pairs: seq<(string, string)>)
    requires forall i :: 0 <= i < |pairs| ==> WellFormedPair(pairs[i])
    ensures AllWellFormed(pairs)
    decreases |pairs|
  {
    if |pairs| > 0 {
      AllWellFormedOf(pairs[1..]);
    }
  }

  lemma {:induction false} MetaPairsOfLines(pairs: seq<(string, string)>)
    requires AllWellFormed(pairs)
    ensures MetaPairs(MetaLines(pairs) + [""]) == pairs
    decreases |pairs|
  {
    if |pairs| == 0 {
      assert MetaPairs([""]) == [] + MetaPairs([]);
    } else {
      MetaPairsOfLines(pairs[1..]);
      MetaPairsCons(pairs);
    }
  }

  lemma MetaLinesCons(pairs: seq<(string, string)>)
    requires |pairs| > 0
    ensures MetaLines(pairs) + [""] == [MetaLine(pairs[0])] + (MetaLines(pairs[1..]) + [""])
  {
  }

  lemma MetaPairsCons(pairs: seq<(string, string)>)
    requires |pairs| > 0 && WellFormedPair(pairs[0])
    requires MetaPairs(MetaLines(pairs[1..]) + [""]) == pairs[1..]
    ensures MetaPairs(MetaLines(pairs) + [""]) == pairs
  {
    MetaLinesCons(pairs);
    MetaPairsStep(pairs[0], pairs[1..], MetaLines(pairs[1..]) + [""], MetaLines(pairs) + [""]);
    assert pairs == [pairs[0]] + pairs[1..];
  }

  lemma MetaPairsStep(p: (string, string), tail: seq<(string, string)>, rest: seq<string>, lines: seq<string>)
    requires WellFormedPair(p) && MetaPairs(rest) == tail && lines == [MetaLine(p)] + rest
    ensures MetaPairs(lines) == [p] + tail
  {
    MetaPairsHead(p, rest);
  }

  lemma MetaPairsHead(p: (string, string), rest: seq<string>)
    requires WellFormedPair(p)
    ensures MetaPairs([MetaLine(p)] + rest) == [p] + MetaPairs(rest)
  {
    assert ([MetaLine(p)] + rest)[1..] == rest;
    SplitOnceAt(p.0, p.1, ':');
    assert MetaLine(p) == p.0 + [':'] + p.1;
    TrimOfTrimmed(p.0, IsSpaceChar);
    TrimOfTrimmed(p.1, IsSpaceChar);
  }

  /** Round trip: a meta file written line by line is read back as the pairs, the last value of a key winning. */
  lemma MetaRoundTrip(pairs: seq<(string, string)>)
    requires forall i :: 0 <= i < |pairs| ==> WellFormedPair(pairs[i])
    ensures ParseMetaFile(MetaText(pairs)) == Collect(pairs)
  {
    MetaTextJoin(pairs);
    LinesWithoutNewline(pairs);
    SplitJoin(MetaLines(pairs) + [""], '\n');
    AllWellFormedOf(pairs);
    MetaPairsOfLines(pairs);
  }

  lemma LinesWithoutNewline(pairs: seq<(string, string)>)
    requires forall i :: 0 <= i < |pairs| ==> WellFormedPair(pairs[i])
    ensures var lines := MetaLines(pairs) + [""];
      |lines| >= 1 && forall i :: 0 <= i < |lines| ==> '\n' !in lines[i]
  {
    var lines := MetaLines(pairs) + [""];
    forall i | 0 <= i < |lines| ensures '\n' !in lines[i] {
      if i < |pairs| {
        MetaLineAt(pairs, i);
      }
    }
  }

  lemma {:induction false} MetaLineAt(pairs: seq<(string, string)>, i: nat)
    requires i < |pairs| && WellFormedPair(pairs[i])
    ensures MetaLines(pairs)[i] == MetaLine(pairs[i]) && '\n' !in MetaLine(pairs[i])
    decreases i
  {
    if i > 0 {
      MetaLineAt(pairs[1..], i - 1);
    }
  }

  // ------------------------------------------------------------ run result

  /** `RunStatus`; exit codes and signals are `u8`. */
  datatype RunStatus = Ok | Tl | Ml | Re(code: nat) | Sg(signal: nat)

  /** `RunResult`: times are kept as the meta file's text. */
  datatype RunResult = RunResult(
    status: RunStatus,
    time: Float,
    realTime: Float,
    statusMessage: Option<string>,
    memory: nat,
    killed: bool)

  const U8_END: nat := 256
  const U64_END: nat := 0x1_0000_0000_0000_0000
  const MISSING_KEY: string := "meta file key not present"

  /** Length of the run of decimal digits `s` starts with. */
  function LeadingDigits(s: string): (n: nat)
    ensures n <= |s| && AllDigits(s[..n])
    ensures n < |s| ==> !IsDigit(s[n])
  {
    if |s| > 0 && IsDigit(s[0]) then
      var k := LeadingDigits(s[1..]);
      assert s[..k + 1] == [s[0]] + s[1..][..k];
      k + 1
    else 0
  }

  /** An optional exponent: 'e' or 'E', an optional sign, at least one digit. */
  predicate IsExponent(e: string)
  {
    |e| == 0 ||
    ((e[0] == 'e' || e[0] == 'E') &&
     var f := if |e| > 1 && (e[1] == '+' || e[1] == '-') then e[2..] else e[1..];
     |f| > 0 && AllDigits(f))
  }

  /** Digits with an optional fraction (at least one digit in all), then an optional exponent. */
  predicate IsDecimal(t: string)
  {
    var a := LeadingDigits(t);
    if a < |t| && t[a] == '.' then
      var b := LeadingDigits(t[a + 1..]);
      a + b > 0 && IsExponent(t[a + 1 + b..])
    else a > 0 && IsExponent(t[a..])
  }

  function LowerAscii(c: char): char
  {
    if 'A' <= c <= 'Z' then (c as int + 32) as char else c
  }

  predicate IsSpecial(t: string)
  {
    var l := seq(|t|, i requires 0 <= i < |t| => LowerAscii(t[i]));
    l == "inf" || l == "infinity" || l == "nan"
  }

  /** The strings `f64::from_str` accepts. */
  predicate IsRustFloat(s: string)
  {
    var t := if |s| > 0 && (s[0] == '+' || s[0] == '-') then s[1..] else s;
    IsSpecial(t) || IsDecimal(t)
  }

  /** Every decimal integer rendering is a float `f64::from_str` accepts. */
  lemma NatIsRustFloat(n: nat)
    ensures IsRustFloat(NatToString(n))
  {
    var s := NatToString(n);
    assert LeadingDigits(s) == |s|;
    assert s[|s|..] == [];
  }

  /** The status part of `run`'s result; `?` propagates a failed parse, indexing a missing key panics. */
  function StatusOf(meta: map<string, string>): Outcome<RunStatus>
  {
    if "status" !in meta then Done(Ok)
    else if meta["status"] == "RE" then
      if "exitcode" !in meta then Panic(MISSING_KEY)
      else match ParseUnsigned(meta["exitcode"], U8_END)
        case Some(c) => Done(Re(c))
        case None => Error("parsing exitcode")
    else if meta["status"] == "SG" then
      if "exitsig" !in meta then Panic(MISSING_KEY)
      else match ParseUnsigned(meta["exitsig"], U8_END)
        case Some(g) => Done(if g == 6 || g == 11 then Ml else Sg(g))
        case None => Error("parsing exitsig")
    else if meta["status"] == "TO" then Done(Tl)
    else Error("incorrect meta file in ISOLATE")
  }

  function FloatField(meta: map<string, string>, key: string, context: string): Outcome<Float>
  {
    if key !in meta then Panic(MISSING_KEY)
    else if IsRustFloat(meta[key]) then Done(meta[key])
    else Error(context)
  }

  /** The `RunResult` built from the parsed meta file, its fields evaluated in declaration order. */
  function RunResultOf(meta: map<string, string>): Outcome<RunResult>
  {
    match StatusOf(meta)
    case Error(m) => Error(m)
    case Panic(m) => Panic(m)
    case Done(st) =>
      match FloatField(meta, "time", "parsing time")
      case Error(m) => Error(m)
      case Panic(m) => Panic(m)
      case Done(t) =>
        match FloatField(meta, "time-wall", "parsing time-wall")
        case Error(m) => Error(m)
        case Panic(m) => Panic(m)
        case Done(w) =>
          if "max-rss" !in meta then Panic(MISSING_KEY)
          else match ParseUnsigned(meta["max-rss"], U64_END)
            case None => Error("max-rss")
            case Some(mem) =>
              var message := if "message" in meta then Some(meta["message"]) else None;
              var killed := "killed" in meta && meta["killed"] == "1";
              Done(RunResult(st, t, w, message, mem, killed))
  }

  /** A result isolate can report: floats as `f64` accepts them, integers in range, signals 6 and 11 reported as `Ml`. */
  predicate Reportable(r: RunResult)
  {
    IsRustFloat(r.time) && IsRustFloat(r.realTime) && r.memory < U64_END
    && match r.status
       case Re(c) => c < U8_END
       case Sg(g) => g < U8_END && g != 6 && g != 11
       case _ => true
  }

  /** The meta file isolate writes for a result (a memory-limit kill shows up as signal 11). */
  function IsolateMeta(r: RunResult): map<string, string>
  {
    var base := map["time" := r.time, "time-wall" := r.realTime, "max-rss" := NatToString(r.memory)];
    var status := match r.status
      case Ok => base
      case Tl => base["status" := "TO"]
      case Ml => base["status" := "SG"]["exitsig" := NatToString(11)]
      case Re(c) => base["status" := "RE"]["exitcode" := NatToString(c)]
      case Sg(g) => base["status" := "SG"]["exitsig" := NatToString(g)];
    var message := if r.statusMessage.Some? then status["message" := r.statusMessage.value] else status;
    if r.killed then message["killed" := "1"] else message
  }

  lemma IsolateMetaFields(r: RunResult)
    ensures var m := IsolateMeta(r);
      && "time" in m && m["time"] == r.time
      && "time-wall" in m && m["time-wall"] == r.realTime
      && "max-rss" in m && m["max-rss"] == NatToString(r.memory)
      && ("message" in m <==> r.statusMessage.Some?)
      && (r.statusMessage.Some? ==> m["message"] == r.statusMessage.value)
      && ("killed" in m <==> r.killed)
      && (r.killed ==> m["killed"] == "1")
  {
  }

  lemma IsolateMetaStatus(r: RunResult)
    requires Reportable(r)
    ensures StatusOf(IsolateMeta(r)) == Done(r.status)
  {
    var m := IsolateMeta(r);
    match r.status
    case Ok =>
      assert "status" !in m;
    case Tl =>
      assert m["status"] == "TO";
    case Ml =>
      assert m["status"] == "SG" && m["exitsig"] == NatToString(11);
      ParseUnsignedOfNat(11, U8_END);
    case Re(c) =>
      assert m["status"] == "RE" && m["exitcode"] == NatToString(c);
      ParseUnsignedOfNat(c, U8_END);
    case Sg(g) =>
      assert m["status"] == "SG" && m["exitsig"] == NatToString(g);
      ParseUnsignedOfNat(g, U8_END);
  }

  /** Classification inverts isolate's report: every reportable result is read back unchanged. */
  lemma ReadIsolateMeta(r: RunResult)
    requires Reportable(r)
    ensures RunResultOf(IsolateMeta(r)) == Done(r)
  {
    IsolateMetaStatus(r);
    IsolateMetaFields(r);
    ParseUnsignedOfNat(r.memory, U64_END);
  }

  /** The status is `Ok` exactly when the meta file has no status line. */
  lemma OkIffNoStatus(meta: map<string, string>)
    requires RunResultOf(meta).Done?
    ensures RunResultOf(meta).value.status == Ok <==> "status" !in meta
  {
  }

  /** A status other than RE, SG and TO is rejected, whatever else the file says. */
  lemma UnknownStatusRejected(meta: map<string, string>)
    requires "status" in meta && meta["status"] != "RE" && meta["status"] != "SG" && meta["status"] != "TO"
    ensures RunResultOf(meta) == Error("incorrect meta file in ISOLATE")
  {
  }

  /** `killed` holds iff the file says exactly "1"; a missing time, wall time or max-rss panics. */
  lemma KilledAndRequiredKeys(meta: map<string, string>)
    ensures RunResultOf(meta).Done? ==> (RunResultOf(meta).value.killed <==> "killed" in meta && meta["killed"] == "1")
    ensures StatusOf(meta).Done? && "time" !in meta ==> RunResultOf(meta).Panic?
    ensures RunResultOf(meta).Done? ==> "time" in meta && "time-wall" in meta && "max-rss" in meta
  {
  }

  // ------------------------------------------------------------ the sandbox

  lemma {:induction false} DirFlagsSnoc(dirs: seq<string>, d: string)
    ensures DirFlags(dirs + [d]) == DirFlags(dirs) + [Flag(Dir, d)]
    decreases |dirs|
  {
    if |dirs| > 0 {
      assert (dirs + [d])[1..] == dirs[1..] + [d];
      DirFlagsSnoc(dirs[1..], d);
    } else {
      assert dirs + [d] == [d];
    }
  }

  /** One initialised isolate box of a service with configuration `config`. */
  class Sandbox {
    const id: nat
    const config: IsolateConfig

    constructor (boxId: nat, cfg: IsolateConfig)
      ensures id == boxId && config == cfg
    {
      id := boxId;
      config := cfg;
    }

    /**
     * `run`: the arguments handed to isolate, added one by one, and the
     * result read from the meta file isolate leaves behind (`meta`).  The
     * arguments are `None` when `run` panics before starting isolate.
     */
    method Run(target: Command, meta: string) returns (launched: Option<seq<string>>, r: Outcome<RunResult>)
      ensures IsolateArgs(id, target.Value(), config).Done? ==>
        launched == Some(IsolateArgs(id, target.Value(), config).value) && r == RunResultOf(ParseMetaFile(meta))
      ensures IsolateArgs(id, target.Value(), config).Panic? ==>
        launched == None && r == Panic(IsolateArgs(id, target.Value(), config).msg)
    {
      var lead, panicked := LeadingArgs(target);
      if panicked {
        return None, Panic("called `Option::unwrap()` on a `None` value");
      }
      var dirArgs := DirArgs(target.openDirs);
      var timeArgs := TimeArgs(target);
      var countArgs := CountArgs(target);
      var args := lead + dirArgs + (timeArgs + countArgs);
      args := args + ["--run", "--", target.program] + target.args;
      launched := Some(args);
      r := RunResultOf(ParseMetaFile(meta));
    }

    /** `--box-id`, `--meta`, then each redirection the command sets; an empty stdout or stderr path panics. */
    method LeadingArgs(target: Command) returns (args: seq<string>, panicked: bool)
      ensures panicked <==> target.stdout == Some("") || target.stderr == Some("")
      ensures !panicked ==>
        args == BoxFlags(id, config) + Redirect(Stdin, target.stdin) + Redirect(Stdout, target.stdout) + Redirect(Stderr, target.stderr)
    {
      args := [Flag(BoxId, NatToString(id)), Flag(Meta, InnerDir(config.boxRoot, id) + "/meta")];
      if target.stdin.Some? {
        args := args + [Flag(Stdin, target.stdin.value)];
      }
      if target.stdout.Some? {
        var path := target.stdout.value;
        if |path| == 0 {
          return args, true;
        }
        args := args + [Flag(Stdout, path)];
      }
      if target.stderr.Some? {
        var path := target.stderr.value;
        if |path| == 0 {
          return args, true;
        }
        args := args + [Flag(Stderr, path)];
      }
      panicked := false;
    }

    /** One `--dir` per open directory, in order. */
    method DirArgs(dirs: seq<string>) returns (args: seq<string>)
      ensures args == DirFlags(dirs)
    {
      args := [];
      var i := 0;
      while i < |dirs|
        invariant 0 <= i <= |dirs|
        invariant args == DirFlags(dirs[..i])
      {
        args := args + [Flag(Dir, dirs[i])];
        DirFlagsSnoc(dirs[..i], dirs[i]);
        assert dirs[..i + 1] == dirs[..i] + [dirs[i]];
        i := i + 1;
      }
      assert dirs[..i] == dirs;
    }

    /** `--time`, `--wall-time`, `--mem` when limited, then `--extra-time` always. */
    method TimeArgs(target: Command) returns (args: seq<string>)
      ensures args == TimeFlags(target.Value(), config)
    {
      args := [];
      match Effective(target.timeLimit, config.timeDefaultLimit) {
        case Limited(t) => args := args + [Flag(Time, t)];
        case Unlimited =>
      }
      match Effective(target.realTimeLimit, config.realTimeDefaultLimit) {
        case Limited(t) => args := args + [Flag(WallTime, t)];
        case Unlimited =>
      }
      match Effective(target.memoryLimit, config.memoryDefaultLimit) {
        case Limited(m) => args := args + [Flag(Mem, NatToString(m))];
        case Unlimited =>
      }
      args := args + [Flag(ExtraTime, Effective(target.extraTimeLimit, config.extraTimeDefaultLimit))];
    }

    /** `--stack` and `--open-files` when limited, `--processes` with or without a value, `--full-env` on request. */
    method CountArgs(target: Command) returns (args: seq<string>)
      ensures args == CountFlags(target.Value(), config)
    {
      args := [];
      match Effective(target.stackLimit, config.stackDefaultLimit) {
        case Limited(s) => args := args + [Flag(Stack, NatToString(s))];
        case Unlimited =>
      }
      match Effective(target.countFilesLimit, config.openFilesDefaultLimit) {
        case Limited(f) => args := args + [Flag(OpenFiles, NatToString(f))];
        case Unlimited =>
      }
      match Effective(target.countProcessLimit, config.processDefaultLimit) {
        case Limited(p) => args := args + [Flag(Processes, NatToString(p))];
        case Unlimited => args := args + [Bare(Processes)];
      }
      if target.useEnv {
        args := args + [Bare(FullEnv)];
      }
    }
  }
}
