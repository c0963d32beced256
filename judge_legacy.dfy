/**
 * The standard test of the older judge (src/judge.rs): the same runs as the
 * newer copies, but the checker's error stream is not kept, its output file
 * must be readable, and the message starts "CHECKER: ".  The compile
 * classification, blocking and scoring of this copy are those of
 * `Judge.CompileOutcome` and the JudgeGroups module.
 */
module JudgeLegacy {
  import opened Wrappers
  import opened SandboxCommand
  import opened Judge
  import JS = JudgeStandard
  import DR = JudgeDoubleRun
  import S = Sandbox

  /** The checker's configuration in this copy: output to checker_out.txt, errors not redirected. */
  function Checker(limits: Limits): (r: RunConfig)
    ensures r.stdout == Some(JS.CHECKER_OUTPUT) && r.stderr == None
    ensures r.timeLimit == Limited(limits.time) && r.memoryLimit == Unlimited
  {
    DR.CheckerConfig(limits, Some(JS.CHECKER_OUTPUT), None)
  }

  /** The message that goes with the checker's verdict; only a non-zero exit leaves out isolate's message. */
  function CheckerMessage(out: string, checker: S.RunResult): string
  {
    if checker.status.Re? then "CHECKER: " + out
    else "CHECKER: " + out + " \n 'isolate': " + checker.statusMessage.GetOr("")
  }

  /** The decision of `test` once the checker's output was read. */
  function Decide(solution: S.RunResult, output: string, checker: S.RunResult, checkerOut: string): (r: TestResult)
    ensures r.time == solution.time && r.memory == solution.memory && r.output == output
    ensures !solution.status.Ok? ==> Some(r) == SolutionFailure(solution, output)
    ensures solution.status.Ok? ==> r.verdict == CheckerVerdict(checker.status) && r.message == CheckerMessage(checkerOut, checker)
  {
    match SolutionFailure(solution, output)
    case Some(early) => early
    case None => TestResult(CheckerVerdict(checker.status), solution.time, solution.memory, output, CheckerMessage(checkerOut, checker))
  }

  /**
   * The older and the newer decision differ only in the message: verdict,
   * time, memory and output agree for every outcome, and so does the
   * message of a failing solution.
   */
  lemma AgreesWithStandard(solution: S.RunResult, output: string, checker: S.RunResult,
                           checkerOut: string, checkerErr: Option<string>)
    ensures Decide(solution, output, checker, checkerOut).(message := "")
         == JS.Decide(solution, output, checker, Some(checkerOut), checkerErr).(message := "")
    ensures !solution.status.Ok? ==>
      Decide(solution, output, checker, checkerOut) == JS.Decide(solution, output, checker, Some(checkerOut), checkerErr)
  {
  }

  /**
   * The whole test: solution run, out.txt, the early return, the checker's
   * run and the reading of its output, where every failure fails the test.
   * The first component tells whether the checker was started.
   */
  function LegacyTest(solutionRun: Result<S.RunResult, string>, output: Result<string, string>,
                      checkerRun: Result<S.RunResult, string>, checkerOut: Result<string, string>): (r: (bool, Result<TestResult, string>))
    ensures r.0 <==> solutionRun.Success? && output.Success? && solutionRun.value.status.Ok?
    ensures r.1.Failure? <==> solutionRun.Failure? || output.Failure? || (r.0 && (checkerRun.Failure? || checkerOut.Failure?))
    ensures r.1.Success? ==> r.1.value == Decide(solutionRun.value, output.value, (if r.0 then checkerRun.value else solutionRun.value),
                                                 (if r.0 then checkerOut.value else ""))
  {
    match solutionRun
    case Failure(e) => (false, Failure(e))
    case Success(solution) =>
      match output
      case Failure(e) => (false, Failure(e))
      case Success(out) =>
        match SolutionFailure(solution, out)
        case Some(early) => (false, Success(early))
        case None =>
          match checkerRun
          case Failure(e) => (true, Failure(e))
          case Success(checker) =>
            match checkerOut
            case Failure(e) => (true, Failure(e))
            case Success(o) => (true, Success(Decide(solution, out, checker, o)))
  }
}
