/**
 * One test in the double-run environment (src/judge/double_run.rs): the
 * standard solution-then-checker test with both runs described by
 * `RunConfig` literals instead of `Command` builders.  The runs' outcomes
 * and the files read back from the box are parameters.
 */
module JudgeDoubleRun {
  import opened Wrappers
  import opened SandboxCommand
  import opened Judge
  import JS = JudgeStandard
  import S = Sandbox

  /** The solution's configuration: one process, in.txt to out.txt, no extra directories, stderr dropped. */
  function SolutionConfig(limits: Limits): (r: RunConfig)
    ensures r.processLimit == Some(Limited(1)) && r.openFilesLimit == None
    ensures r.stdin == Some(JS.INPUT) && r.stdout == Some(JS.OUTPUT) && r.stderr == None && r.openDirs == []
    ensures r.timeLimit == Limited(limits.time) && r.memoryLimit == Limited(limits.memory) && r.realTimeLimit == limits.realTime
    ensures r.stackLimit.Some? <==> limits.stack.Some?
    ensures limits.stack.Some? ==> r.stackLimit == Some(Limited(limits.stack.value))
  {
    RunConfig(Limited(limits.time), Limited(limits.memory), limits.realTime, None,
              (match limits.stack case Some(s) => Some(Limited(s)) case None => None), None,
              Some(Limited(1)), false, [], Some(JS.INPUT), Some(JS.OUTPUT), None)
  }

  /**
   * The solution's configuration agrees with the standard environment's
   * solution command on every limit and redirection both of them set; the
   * command alone also caps open files at 4.
   */
  lemma SolutionConfigMatchesCommand(program: string, limits: Limits)
    ensures var v := JS.SolutionValue(program, limits); var c := SolutionConfig(limits);
      v.timeLimit == Some(c.timeLimit) && v.memoryLimit == Some(c.memoryLimit) &&
      v.realTimeLimit == Some(Limited(c.realTimeLimit)) && v.stackLimit == c.stackLimit &&
      v.countProcessLimit == c.processLimit && v.stdin == c.stdin && v.stdout == c.stdout && v.stderr == c.stderr &&
      v.openDirs == c.openDirs && v.useEnv == c.env && v.countFilesLimit == Some(Limited(4))
  {
  }

  /** "./checker.out in.txt out.txt correct.txt". */
  const CHECKER_PROGRAM: string := "./" + JS.CHECKER + " " + JS.INPUT + " " + JS.OUTPUT + " " + JS.CORRECT

  /**
   * The checker's configuration: the problem's time limit, no memory or
   * stack limit, unlimited open files, and its two output streams to the
   * given files.
   */
  function CheckerConfig(limits: Limits, stdout: Option<string>, stderr: Option<string>): (r: RunConfig)
    ensures r.stdin == None && r.stdout == stdout && r.stderr == stderr && r.openDirs == []
    ensures r.timeLimit == Limited(limits.time) && r.memoryLimit == Unlimited && r.stackLimit == Some(Unlimited)
    ensures r.openFilesLimit == Some(Unlimited) && r.processLimit == None
  {
    RunConfig(Limited(limits.time), Unlimited, limits.realTime, None, Some(Unlimited), Some(Unlimited), None,
              false, [], None, stdout, stderr)
  }

  /** The checker's configuration in this environment: output and errors to separate files. */
  function Checker(limits: Limits): RunConfig
  {
    CheckerConfig(limits, Some(JS.CHECKER_OUTPUT), Some(JS.CHECKER_ERROR))
  }

  /**
   * Unlike the standard environment's checker command, whose `stderr` call
   * lands on the stdout field, here the checker's output and errors reach
   * the two files the decision reads.
   */
  lemma CheckerStreamsKeptApart(limits: Limits)
    ensures Checker(limits).stdout == Some(JS.CHECKER_OUTPUT) && Checker(limits).stderr == Some(JS.CHECKER_ERROR)
    ensures Checker(limits).stdout != Checker(limits).stderr
    ensures JS.CheckerValue().stdout == Some(JS.CHECKER_ERROR) && JS.CheckerValue().stderr == None
  {
    assert JS.CHECKER_OUTPUT[8] != JS.CHECKER_ERROR[8];
  }

  /**
   * The whole test: the solution's run, then the reading of out.txt (whose
   * failure fails the test even for a failing solution), the early return
   * for a failing solution, the checker's run, and the decision of the
   * standard environment with unreadable checker files as "-".  The first
   * component tells whether the checker was started.
   */
  function DoubleRunTest(solutionRun: Result<S.RunResult, string>, output: Result<string, string>,
                         checkerRun: Result<S.RunResult, string>,
                         checkerOut: Option<string>, checkerErr: Option<string>): (r: (bool, Result<TestResult, string>))
    ensures r.0 <==> solutionRun.Success? && output.Success? && solutionRun.value.status.Ok?
    ensures r.1.Failure? <==> solutionRun.Failure? || output.Failure? || (r.0 && checkerRun.Failure?)
    ensures r.1.Success? && !r.0 ==> Some(r.1.value) == SolutionFailure(solutionRun.value, output.value)
    ensures r.1.Success? && r.0 ==>
      r.1.value == JS.Decide(solutionRun.value, output.value, checkerRun.value, checkerOut, checkerErr)
  {
    match solutionRun
    case Failure(e) => (false, Failure(e))
    case Success(solution) =>
      match output
      case Failure(e) => (false, Failure(e))
      case Success(out) =>
        match SolutionFailure(solution, out)
        case Some(early) => (false, Success(early))
        case None =>
          match checkerRun
          case Failure(e) => (true, Failure(e))
          case Success(checker) => (true, Success(JS.Decide(solution, out, checker, checkerOut, checkerErr)))
  }

  /** A test is accepted exactly when the solution and the checker both ran cleanly. */
  lemma AcceptedIffBothClean(solutionRun: Result<S.RunResult, string>, output: Result<string, string>,
                             checkerRun: Result<S.RunResult, string>,
                             checkerOut: Option<string>, checkerErr: Option<string>)
    requires DoubleRunTest(solutionRun, output, checkerRun, checkerOut, checkerErr).1.Success?
    ensures IsSuccess(DoubleRunTest(solutionRun, output, checkerRun, checkerOut, checkerErr).1.value.verdict) <==>
      solutionRun.value.status.Ok? && checkerRun.Success? && checkerRun.value.status.Ok?
  {
  }
}
