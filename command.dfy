/**
 * The `Command` builder of src/sandbox/command.rs: the program to start in
 * an isolate box, its arguments, its optional limits and redirections.
 * Every builder call takes `&mut self` and updates one field, so the model
 * is a class whose methods each modify only the field the source writes.
 *
 * Floating-point limits (seconds) are carried as the decimal text Rust's
 * `Display` prints for them; they are never computed with.
 */
module SandboxCommand {
  import opened Wrappers

  /** `MaybeLimited<T>` of src/sandbox/mod.rs; `Default` is `Unlimited`. */
  datatype MaybeLimited<T> = Limited(value: T) | Unlimited

  /** An `f64`, as the text `Display` writes for it. */
  type Float = string

  /** A snapshot of every field of a `Command`. */
  datatype CommandValue = CommandValue(
    program: string,
    args: seq<string>,
    timeLimit: Option<MaybeLimited<Float>>,
    memoryLimit: Option<MaybeLimited<nat>>,
    realTimeLimit: Option<MaybeLimited<Float>>,
    extraTimeLimit: Option<Float>,
    stackLimit: Option<MaybeLimited<nat>>,
    countFilesLimit: Option<MaybeLimited<nat>>,
    countProcessLimit: Option<MaybeLimited<nat>>,
    useEnv: bool,
    openDirs: seq<string>,
    stdin: Option<string>,
    stdout: Option<string>,
    stderr: Option<string>)

  class Command {
    var program: string
    var args: seq<string>
    var timeLimit: Option<MaybeLimited<Float>>
    var memoryLimit: Option<MaybeLimited<nat>>
    var realTimeLimit: Option<MaybeLimited<Float>>
    var extraTimeLimit: Option<Float>
    var stackLimit: Option<MaybeLimited<nat>>
    var countFilesLimit: Option<MaybeLimited<nat>>
    var countProcessLimit: Option<MaybeLimited<nat>>
    var useEnv: bool
    var openDirs: seq<string>
    var stdin: Option<string>
    var stdout: Option<string>
    var stderr: Option<string>

    function Value(): CommandValue
      reads this
    {
      CommandValue(program, args, timeLimit, memoryLimit, realTimeLimit, extraTimeLimit,
                   stackLimit, countFilesLimit, countProcessLimit, useEnv, openDirs,
                   stdin, stdout, stderr)
    }

    /** `Command::new`: the program, no arguments, no limits, no redirections, `use_env` off. */
    constructor (prog: string)
      ensures Value() == CommandValue(prog, [], None, None, None, None, None, None, None,
                                      false, [], None, None, None)
    {
      program := prog;
      args := [];
      timeLimit := None;
      memoryLimit := None;
      realTimeLimit := None;
      extraTimeLimit := None;
      stackLimit := None;
      countFilesLimit := None;
      countProcessLimit := None;
      openDirs := [];
      useEnv := false;
      stdin := None;
      stdout := None;
      stderr := None;
    }

    /** `arg`: one more argument at the end. */
    method Arg(a: string)
      modifies this`args
      ensures args == old(args) + [a]
    {
      args := args + [a];
    }

    /** `args`: every argument appended, in iteration order. */
    method Args(xs: seq<string>)
      modifies this`args
      ensures args == old(args) + xs
    {
      var i := 0;
      while i < |xs|
        invariant 0 <= i <= |xs|
        invariant args == old(args) + xs[..i]
      {
        Arg(xs[i]);
        assert xs[..i + 1] == xs[..i] + [xs[i]];
        i := i + 1;
      }
      assert xs[..|xs|] == xs;
    }

    method Stdin(path: string)
      modifies this`stdin
      ensures stdin == Some(path)
    {
      stdin := Some(path);
    }

    method Stdout(path: string)
      modifies this`stdout
      ensures stdout == Some(path)
    {
      stdout := Some(path);
    }

    /** `stderr` as written: it stores the path in the stdout field; the stderr field is never set. */
    method Stderr(path: string)
      modifies this`stdout
      ensures stdout == Some(path)
    {
      stdout := Some(path);
    }

    method Time(cfg: MaybeLimited<Float>)
      modifies this`timeLimit
      ensures timeLimit == Some(cfg)
    {
      timeLimit := Some(cfg);
    }

    method RealTime(cfg: MaybeLimited<Float>)
      modifies this`realTimeLimit
      ensures realTimeLimit == Some(cfg)
    {
      realTimeLimit := Some(cfg);
    }

    method ExtraTime(cfg: Float)
      modifies this`extraTimeLimit
      ensures extraTimeLimit == Some(cfg)
    {
      extraTimeLimit := Some(cfg);
    }

    method Memory(cfg: MaybeLimited<nat>)
      modifies this`memoryLimit
      ensures memoryLimit == Some(cfg)
    {
      memoryLimit := Some(cfg);
    }

    method Stack(cfg: MaybeLimited<nat>)
      modifies this`stackLimit
      ensures stackLimit == Some(cfg)
    {
      stackLimit := Some(cfg);
    }

    method CountFiles(cfg: MaybeLimited<nat>)
      modifies this`countFilesLimit
      ensures countFilesLimit == Some(cfg)
    {
      countFilesLimit := Some(cfg);
    }

    method CountProcess(cfg: MaybeLimited<nat>)
      modifies this`countProcessLimit
      ensures countProcessLimit == Some(cfg)
    {
      countProcessLimit := Some(cfg);
    }

    /** `use_env`: switches the flag on; calling it again changes nothing. */
    method UseEnv()
      modifies this`useEnv
      ensures useEnv
    {
      useEnv := true;
    }

    /** `open_dir` as written: the path goes to `args`; `open_dirs` is left as it was. */
    method OpenDir(path: string)
      modifies this`args
      ensures args == old(args) + [path]
    {
      args := args + [path];
    }

    /** `open_dirs` as written: each path is passed to `arg`. */
    method OpenDirs(paths: seq<string>)
      modifies this`args
      ensures args == old(args) + paths
    {
      var i := 0;
      while i < |paths|
        invariant 0 <= i <= |paths|
        invariant args == old(args) + paths[..i]
      {
        Arg(paths[i]);
        assert paths[..i + 1] == paths[..i] + [paths[i]];
        i := i + 1;
      }
      assert paths[..|paths|] == paths;
    }
  }

  /**
   * Whatever builder calls follow `new`, the stderr redirection and the
   * open-directory list stay empty: only `new` writes those two fields.
   */
  method BuilderNeverSetsStderr(prog: string, path: string, dirs: seq<string>) returns (c: Command)
    ensures c.stderr == None && c.openDirs == []
    ensures c.stdout == Some(path) && c.args == [path] + dirs
  {
    c := new Command(prog);
    c.Stderr(path);
    c.OpenDir(path);
    c.OpenDirs(dirs);
  }
}
