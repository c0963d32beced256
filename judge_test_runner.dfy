/**
 * One standard test as src/judge/test_runner.rs runs it: the same runs as
 * the double-run environment, except that a failure to read the checker's
 * output or error file fails the test instead of reading as "-".
 */
module JudgeTestRunner {
  import opened Wrappers
  import opened Judge
  import JS = JudgeStandard
  import DR = JudgeDoubleRun
  import S = Sandbox

  /**
   * The whole test: the solution's run, the reading of out.txt, the early
   * return for a failing solution, the checker's run, then the checker's
   * output and error files, each of whose reading failures fails the test
   * (the output file's first).  The first component tells whether the
   * checker was started.
   */
  function RunnerTest(solutionRun: Result<S.RunResult, string>, output: Result<string, string>,
                      checkerRun: Result<S.RunResult, string>,
                      checkerOut: Result<string, string>, checkerErr: Result<string, string>): (r: (bool, Result<TestResult, string>))
    ensures r.0 <==> solutionRun.Success? && output.Success? && solutionRun.value.status.Ok?
    ensures r.0 && checkerRun.Success? && checkerOut.Failure? ==> r.1 == Failure(checkerOut.error)
    ensures r.0 && checkerRun.Success? && checkerOut.Success? && checkerErr.Failure? ==> r.1 == Failure(checkerErr.error)
  {
    match solutionRun
    case Failure(e) => (false, Failure(e))
    case Success(solution) =>
      match output
      case Failure(e) => (false, Failure(e))
      case Success(out) =>
        match SolutionFailure(solution, out)
        case Some(early) => (false, Success(early))
        case None =>
          match checkerRun
          case Failure(e) => (true, Failure(e))
          case Success(checker) =>
            match checkerOut
            case Failure(e) => (true, Failure(e))
            case Success(o) =>
              match checkerErr
              case Failure(e) => (true, Failure(e))
              case Success(err) => (true, Success(JS.Decide(solution, out, checker, Some(o), Some(err))))
  }

  /** The read-back as the double-run environment does it: a failed read becomes `None`, shown as "-". */
  function Tolerant(read: Result<string, string>): Option<string>
  {
    match read
    case Success(s) => Some(s)
    case Failure(_) => None
  }

  /**
   * With both checker files readable the two copies agree; otherwise this
   * one fails wherever the double-run environment went on with "-".
   */
  lemma {:induction false} StricterThanDoubleRun(solutionRun: Result<S.RunResult, string>, output: Result<string, string>,
                                                 checkerRun: Result<S.RunResult, string>,
                                                 checkerOut: Result<string, string>, checkerErr: Result<string, string>)
    ensures checkerOut.Success? && checkerErr.Success? ==>
      RunnerTest(solutionRun, output, checkerRun, checkerOut, checkerErr)
      == DR.DoubleRunTest(solutionRun, output, checkerRun, Tolerant(checkerOut), Tolerant(checkerErr))
    ensures RunnerTest(solutionRun, output, checkerRun, checkerOut, checkerErr).1.Success? ==>
      RunnerTest(solutionRun, output, checkerRun, checkerOut, checkerErr)
      == DR.DoubleRunTest(solutionRun, output, checkerRun, Tolerant(checkerOut), Tolerant(checkerErr))
    ensures ((checkerOut.Failure? || checkerErr.Failure?) && checkerRun.Success? &&
             DR.DoubleRunTest(solutionRun, output, checkerRun, Tolerant(checkerOut), Tolerant(checkerErr)).0) ==>
      RunnerTest(solutionRun, output, checkerRun, checkerOut, checkerErr).1.Failure? &&
      DR.DoubleRunTest(solutionRun, output, checkerRun, Tolerant(checkerOut), Tolerant(checkerErr)).1.Success?
  {
  }
}
