/**
 * One test of a standard problem (src/judge/standard.rs): the solution runs
 * on the test input, and when it exits cleanly a checker compares its
 * output with the correct answer.  The isolate meta files the two runs leave
 * behind and the files read back from the box are parameters.
 */
module JudgeStandard {
  import opened Wrappers
  import opened SandboxCommand
  import opened Judge
  import S = Sandbox

  const INPUT: string := "in.txt"
  const CORRECT: string := "correct.txt"
  const OUTPUT: string := "out.txt"
  const CHECKER_OUTPUT: string := "checker_out.txt"
  const CHECKER_ERROR: string := "checker_err.txt"
  const CHECKER: string := "checker.out"
  const SOLUTION: string := "solution.out"

  /** The files copied into the box: the test's input and correct answer, the checker and the solution. */
  datatype Sources = Sources(input: string, correct: string, checker: string, solution: string)

  /** Where test `testId` (counted from 0) takes its files from. */
  function SourcePaths(work: string, testId: nat): (r: Sources)
    ensures r.input == work + "/input/" + Text.NatToString(testId + 1) + ".txt"
    ensures r.correct == work + "/correct/" + Text.NatToString(testId + 1) + ".txt"
  {
    Sources(TestFile(work + "/input", testId), TestFile(work + "/correct", testId),
            PathFrom(work, "checker", Some("out")), PathFrom(work, "solution", Some("out")))
  }

  /** Different tests take their input and correct answer from different files. */
  lemma SourcePathsDistinct(work: string, i: nat, j: nat)
    ensures i != j ==> SourcePaths(work, i).input != SourcePaths(work, j).input
    ensures i != j ==> SourcePaths(work, i).correct != SourcePaths(work, j).correct
  {
    TestFilesDistinct(work + "/input", i, j);
    TestFilesDistinct(work + "/correct", i, j);
  }

  /** The solution's command as the builder calls leave it. */
  function SolutionValue(program: string, limits: Limits): CommandValue
  {
    CommandValue(program, [], Some(Limited(limits.time)), Some(Limited(limits.memory)), Some(Limited(limits.realTime)),
                 None, (match limits.stack case Some(s) => Some(Limited(s)) case None => None),
                 Some(Limited(4)), Some(Limited(1)), false, [], Some(INPUT), Some(OUTPUT), None)
  }

  /**
   * The solution's command: the problem's time, memory and wall-time
   * limits, the stack limit only when the problem gives one, at most 4 open
   * files and 1 process, input from in.txt and output to out.txt.  The
   * program comes from the language's `command_to_run`, which is not part
   * of this model.
   */
  method SolutionCommand(program: string, limits: Limits) returns (c: Command)
    ensures c.Value() == SolutionValue(program, limits)
  {
    c := new Command(program);
    SetLimits(c, limits);
    c.CountFiles(Limited(4));
    c.CountProcess(Limited(1));
    c.Stdin(INPUT);
    c.Stdout(OUTPUT);
  }

  /** The problem's limits on the solution's command. */
  method SetLimits(c: Command, limits: Limits)
    modifies c`timeLimit, c`memoryLimit, c`realTimeLimit, c`stackLimit
    ensures c.timeLimit == Some(Limited(limits.time)) && c.memoryLimit == Some(Limited(limits.memory))
    ensures c.realTimeLimit == Some(Limited(limits.realTime))
    ensures c.stackLimit == (match limits.stack case Some(s) => Some(Limited(s)) case None => old(c.stackLimit))
  {
    c.Time(Limited(limits.time));
    c.Memory(Limited(limits.memory));
    c.RealTime(Limited(limits.realTime));
    if limits.stack.Some? {
      c.Stack(Limited(limits.stack.value));
    }
  }

  /** The checker's command as the builder calls leave it: `stderr` overwrote the stdout path. */
  function CheckerValue(): CommandValue
  {
    CommandValue("./" + CHECKER, [INPUT, OUTPUT, CORRECT], None, None, None, None, None,
                 Some(Unlimited), Some(Unlimited), false, [], None, Some(CHECKER_ERROR), None)
  }

  /** "./checker.out in.txt out.txt correct.txt" with unlimited files and processes. */
  method CheckerCommand() returns (c: Command)
    ensures c.Value() == CheckerValue()
  {
    c := new Command("./" + CHECKER);
    c.Args([INPUT, OUTPUT, CORRECT]);
    c.CountFiles(Unlimited);
    c.CountProcess(Unlimited);
    c.Stdout(CHECKER_OUTPUT);
    c.Stderr(CHECKER_ERROR);
  }

  /**
   * What isolate is told for the checker: its standard output goes to
   * checker_err.txt, checker_out.txt is named nowhere, and its error
   * stream is not redirected.
   */
  lemma CheckerRedirections(id: nat, cfg: S.IsolateConfig)
    ensures S.IsolateArgs(id, CheckerValue(), cfg).Done?
    ensures S.Values(S.Options(id, CheckerValue(), cfg), S.Stdout) == [Some(CHECKER_ERROR)]
    ensures S.Values(S.Options(id, CheckerValue(), cfg), S.Stderr) == []
  {
    S.LeadingRead(id, CheckerValue(), cfg, S.Stdout);
    S.LeadingRead(id, CheckerValue(), cfg, S.Stderr);
  }

  /** The message that goes with a checker's verdict; only a non-zero exit leaves out isolate's message. */
  function CheckerMessage(out: string, err: string, checker: S.RunResult): string
  {
    var base := "checker_output: " + out + "\n, checker_error: " + err;
    if checker.status.Re? then base else base + "\n 'isolate': " + checker.statusMessage.GetOr("")
  }

  /**
   * The verdict decision of `run`: a failing solution is judged by its own
   * status; otherwise the checker's status decides, with its output and
   * error files ("-" when unreadable) in the message.  Time, memory and
   * output always come from the solution.  src/judge/double_run.rs:134-246
   * makes the same decision.
   */
  function Decide(solution: S.RunResult, output: string, checker: S.RunResult, checkerOut: Option<string>, checkerErr: Option<string>)
    : (r: TestResult)
    ensures r.time == solution.time && r.memory == solution.memory && r.output == output
    ensures IsSuccess(r.verdict) <==> solution.status.Ok? && checker.status.Ok?
    ensures !solution.status.Ok? ==> Some(r) == SolutionFailure(solution, output)
    ensures solution.status.Ok? ==>
      r.verdict == CheckerVerdict(checker.status) &&
      r.message == CheckerMessage(checkerOut.GetOr("-"), checkerErr.GetOr("-"), checker)
  {
    match SolutionFailure(solution, output)
    case Some(early) => early
    case None =>
      TestResult(CheckerVerdict(checker.status), solution.time, solution.memory, output,
                 CheckerMessage(checkerOut.GetOr("-"), checkerErr.GetOr("-"), checker))
  }

  /**
   * The whole test from the two meta files: whether the checker is started,
   * and the result (a failure when a meta file cannot be read as a result).
   */
  function StandardTest(solutionMeta: string, output: string, checkerMeta: string,
                        checkerOut: Option<string>, checkerErr: Option<string>): (bool, Result<TestResult, string>)
  {
    match Lift(S.RunResultOf(S.ParseMetaFile(solutionMeta)))
    case Failure(e) => (false, Failure(e))
    case Success(sol) =>
      if !sol.status.Ok? then (false, Success(Decide(sol, output, sol, None, None)))
      else (true, CheckerStage(sol, output, checkerMeta, checkerOut, checkerErr))
  }

  /** The second half of a test, once the solution ran cleanly: read the checker's meta file and decide. */
  function CheckerStage(solution: S.RunResult, output: string, checkerMeta: string,
                        checkerOut: Option<string>, checkerErr: Option<string>): Result<TestResult, string>
  {
    match Lift(S.RunResultOf(S.ParseMetaFile(checkerMeta)))
    case Failure(e) => Failure(e)
    case Success(chk) => Success(Decide(solution, output, chk, checkerOut, checkerErr))
  }

  /** The checker runs exactly when the solution's meta file reports a clean run. */
  lemma CheckerRunsOnlyAfterCleanSolution(solutionMeta: string, output: string, checkerMeta: string,
                                          checkerOut: Option<string>, checkerErr: Option<string>)
    ensures StandardTest(solutionMeta, output, checkerMeta, checkerOut, checkerErr).0 <==>
      S.RunResultOf(S.ParseMetaFile(solutionMeta)).Done? && S.RunResultOf(S.ParseMetaFile(solutionMeta)).value.status.Ok?
  {
  }

  /** A test is accepted only when both meta files report a clean run. */
  lemma AcceptedOnlyWhenBothClean(solutionMeta: string, output: string, checkerMeta: string,
                                  checkerOut: Option<string>, checkerErr: Option<string>)
    requires StandardTest(solutionMeta, output, checkerMeta, checkerOut, checkerErr).1.Success?
    requires IsSuccess(StandardTest(solutionMeta, output, checkerMeta, checkerOut, checkerErr).1.value.verdict)
    ensures !("status" in S.ParseMetaFile(solutionMeta)) && !("status" in S.ParseMetaFile(checkerMeta))
  {
    var sm, cm := S.ParseMetaFile(solutionMeta), S.ParseMetaFile(checkerMeta);
    assert S.RunResultOf(sm).Done?;
    var sol := S.RunResultOf(sm).value;
    assert Lift(S.RunResultOf(sm)) == Success(sol);
    assert sol.status.Ok?;
    S.OkIffNoStatus(sm);
    var stage := CheckerStage(sol, output, checkerMeta, checkerOut, checkerErr);
    assert stage.Success? && IsSuccess(stage.value.verdict);
    assert S.RunResultOf(cm).Done?;
    assert Lift(S.RunResultOf(cm)) == Success(S.RunResultOf(cm).value);
    S.OkIffNoStatus(cm);
  }

  /** isolate is always started for the solution: its standard output is redirected to a named file. */
  lemma SolutionLaunches(id: nat, program: string, limits: Limits, cfg: S.IsolateConfig)
    ensures S.IsolateArgs(id, SolutionValue(program, limits), cfg).Done?
  {
    assert |OUTPUT| == 7;
  }

  /** isolate is always started for the checker: its standard output is redirected to a named file. */
  lemma CheckerLaunches(id: nat, cfg: S.IsolateConfig)
    ensures S.IsolateArgs(id, CheckerValue(), cfg).Done?
  {
    assert |CHECKER_ERROR| == 15;
  }

  /**
   * The environment's `run`: build and run the solution's command; when it
   * ran cleanly, build and run the checker's command and decide.  The
   * arguments handed to isolate for each run are returned.
   */
  method Run(sandbox: S.Sandbox, program: string, limits: Limits, solutionMeta: string, output: string,
             checkerMeta: string, checkerOut: Option<string>, checkerErr: Option<string>)
    returns (solutionArgs: Option<seq<string>>, checkerArgs: Option<seq<string>>, r: Result<TestResult, string>)
    ensures solutionArgs == Some(S.IsolateArgs(sandbox.id, SolutionValue(program, limits), sandbox.config).value)
    ensures checkerArgs.Some? == StandardTest(solutionMeta, output, checkerMeta, checkerOut, checkerErr).0
    ensures checkerArgs.Some? ==> checkerArgs == Some(S.IsolateArgs(sandbox.id, CheckerValue(), sandbox.config).value)
    ensures r == StandardTest(solutionMeta, output, checkerMeta, checkerOut, checkerErr).1
  {
    SolutionLaunches(sandbox.id, program, limits, sandbox.config);
    var solutionCmd := SolutionCommand(program, limits);
    var launched, solutionRun := sandbox.Run(solutionCmd, solutionMeta);
    solutionArgs := launched;
    checkerArgs := None;
    if !solutionRun.Done? {
      assert Lift(solutionRun) == Failure(solutionRun.msg);
      return solutionArgs, checkerArgs, Failure(solutionRun.msg);
    }
    var solution := solutionRun.value;
    assert Lift(solutionRun) == Success(solution);
    var early := SolutionFailure(solution, output);
    if early.Some? {
      return solutionArgs, checkerArgs, Success(early.value);
    }
    checkerArgs, r := RunChecker(sandbox, solution, output, checkerMeta, checkerOut, checkerErr);
  }

  /** The checker's half of `run`, after a clean solution run. */
  method RunChecker(sandbox: S.Sandbox, solution: S.RunResult, output: string,
                    checkerMeta: string, checkerOut: Option<string>, checkerErr: Option<string>)
    returns (checkerArgs: Option<seq<string>>, r: Result<TestResult, string>)
    ensures checkerArgs == Some(S.IsolateArgs(sandbox.id, CheckerValue(), sandbox.config).value)
    ensures r == CheckerStage(solution, output, checkerMeta, checkerOut, checkerErr)
  {
    CheckerLaunches(sandbox.id, sandbox.config);
    var checkerCmd := CheckerCommand();
    var checkerRun;
    checkerArgs, checkerRun := sandbox.Run(checkerCmd, checkerMeta);
    if !checkerRun.Done? {
      assert Lift(checkerRun) == Failure(checkerRun.msg);
      return checkerArgs, Failure(checkerRun.msg);
    }
    assert Lift(checkerRun) == Success(checkerRun.value);
    r := Success(Decide(solution, output, checkerRun.value, checkerOut, checkerErr));
  }
}
