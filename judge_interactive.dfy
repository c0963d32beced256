/**
 * One test of an interactive problem (src/judge/interactive.rs): the
 * solution and an interactor run in two boxes, each reading what the other
 * writes through two named pipes created in "/.invoker".  The pipes' paths,
 * the two runs' outcomes and the files read back from the interactor's box
 * are parameters.
 */
module JudgeInteractive {
  import opened Wrappers
  import opened SandboxCommand
  import opened Judge
  import S = Sandbox

  const CHANNEL_DIR: string := "/.invoker"
  const TEST: string := "test.txt"
  const INTERACTOR_OUTPUT: string := "interactor_out.txt"
  const INTERACTOR_ERROR: string := "interactor_err.txt"
  const INTERACTOR: string := "interactor.out"
  const SOLUTION: string := "solution.out"

  /** The files copied into the boxes: the test and the interactor into one, the solution into the other. */
  datatype Sources = Sources(test: string, interactor: string, solution: string)

  /** Where test `testId` (counted from 0) takes its files from. */
  function SourcePaths(work: string, testId: nat): (r: Sources)
    ensures r.test == work + "/test/" + Text.NatToString(testId + 1) + ".txt"
    ensures r.interactor == work + "/interactor.out" && r.solution == work + "/solution.out"
  {
    Sources(TestFile(work + "/test", testId), PathFrom(work, "interactor", Some("out")), PathFrom(work, "solution", Some("out")))
  }

  /** Different tests take their test file from different paths. */
  lemma SourcePathsDistinct(work: string, i: nat, j: nat)
    ensures i != j ==> SourcePaths(work, i).test != SourcePaths(work, j).test
  {
    TestFilesDistinct(work + "/test", i, j);
  }

  /**
   * The interactor's command line: "./interactor.out test.txt
   * interactor_out.txt", started through the SUBMISSION's language.
   */
  function InteractorProgram(lang: Lang): string
  {
    RunCommand(lang, "./" + INTERACTOR + " " + TEST + " " + INTERACTOR_OUTPUT)
  }

  /** A Python submission has its interactor handed to the Python interpreter. */
  lemma InteractorFollowsSubmissionLanguage()
    ensures InteractorProgram(Gpp) == "./" + "./interactor.out test.txt interactor_out.txt"
    ensures InteractorProgram(Python) == "/usr/bin/python3 " + "./interactor.out test.txt interactor_out.txt"
  {
    InteractorLine();
  }

  lemma InteractorLine()
    ensures "./" + INTERACTOR + " " + TEST + " " + INTERACTOR_OUTPUT == "./interactor.out test.txt interactor_out.txt"
  {
  }

  /**
   * The two run configurations (solution, interactor), given the pipe the
   * solution reads from and the pipe it writes to.  The channels are
   * crossed: the interactor reads what the solution writes and writes what
   * it reads.  Both boxes see the pipes' directory; only the solution is
   * held to the memory limit and to a single process, and only the
   * interactor's error stream is kept.
   */
  function Wiring(limits: Limits, solutionInput: string, solutionOutput: string): (r: (RunConfig, RunConfig))
    ensures r.0.stdin == Some(solutionInput) && r.0.stdout == Some(solutionOutput)
    ensures r.1.stdin == r.0.stdout && r.1.stdout == r.0.stdin
    ensures r.0.openDirs == r.1.openDirs == [CHANNEL_DIR]
    ensures r.0.memoryLimit == Limited(limits.memory) && r.1.memoryLimit == Unlimited
    ensures r.0.processLimit == Some(Limited(1)) && r.1.processLimit == Some(Unlimited)
    ensures r.0.stderr == None && r.1.stderr == Some(INTERACTOR_ERROR)
    ensures r.0.timeLimit == r.1.timeLimit == Limited(limits.time) && r.0.realTimeLimit == r.1.realTimeLimit == limits.realTime
  {
    var interactor := RunConfig(Limited(limits.time), Unlimited, limits.realTime, None, Some(Unlimited), None,
                                Some(Unlimited), false, [CHANNEL_DIR], Some(solutionOutput), Some(solutionInput),
                                Some(INTERACTOR_ERROR));
    var solution := RunConfig(Limited(limits.time), Limited(limits.memory), limits.realTime, None,
                              (match limits.stack case Some(s) => Some(Limited(s)) case None => None), None,
                              Some(Limited(1)), false, [CHANNEL_DIR], Some(solutionInput), Some(solutionOutput), None);
    (solution, interactor)
  }

  /** The message that goes with the interactor's verdict; only a non-zero exit leaves out isolate's message. */
  function InteractorMessage(out: string, err: string, interactor: S.RunResult): string
  {
    var base := "interactor_output: " + out + "\n, interactor_error: " + err;
    if interactor.status.Re? then base else base + "\n 'isolate': " + interactor.statusMessage.GetOr("")
  }

  /**
   * The decision of `run` once both runs finished: the interactor's output
   * and error files read as "" when missing.  A failing solution is judged
   * by its own status, and the interactor's errors are added to isolate's
   * message; otherwise the interactor's exit status decides as a checker's
   * does.  Time and memory come from the solution, the output from the
   * interactor.
   */
  function Decide(solution: S.RunResult, interactor: S.RunResult, out: Option<string>, err: Option<string>): (r: TestResult)
    ensures r.time == solution.time && r.memory == solution.memory && r.output == out.GetOr("")
    ensures IsSuccess(r.verdict) <==> solution.status.Ok? && interactor.status.Ok?
    ensures !solution.status.Ok? ==>
      r.verdict == FromRunStatus(solution.status).value &&
      r.message == IsolateMessage(solution.statusMessage) + "\nINTERACTOR_ERRORS: " + err.GetOr("")
    ensures solution.status.Ok? ==>
      r.verdict == CheckerVerdict(interactor.status) &&
      r.message == InteractorMessage(out.GetOr(""), err.GetOr(""), interactor)
  {
    var output := out.GetOr("");
    var errors := err.GetOr("");
    match SolutionFailure(solution, output)
    case Some(early) => early.(message := early.message + "\nINTERACTOR_ERRORS: " + errors)
    case None => TestResult(CheckerVerdict(interactor.status), solution.time, solution.memory, output,
                            InteractorMessage(output, errors, interactor))
  }

  /** A failing solution's verdict does not depend on how the interactor ended. */
  lemma SolutionFailurePrevails(solution: S.RunResult, i1: S.RunResult, i2: S.RunResult, out: Option<string>, err: Option<string>)
    requires !solution.status.Ok?
    ensures Decide(solution, i1, out, err) == Decide(solution, i2, out, err)
  {
  }

  /**
   * The whole test from the two runs' outcomes: the solution's run is
   * awaited first, then the interactor's, and an error from either fails
   * the test, even when the solution's status alone would have decided it.
   */
  function InteractiveTest(solutionRun: Result<S.RunResult, string>, interactorRun: Result<S.RunResult, string>,
                           out: Option<string>, err: Option<string>): (r: Result<TestResult, string>)
    ensures solutionRun.Failure? ==> r == Failure(solutionRun.error)
    ensures solutionRun.Success? && interactorRun.Failure? ==> r == Failure(interactorRun.error)
    ensures r.Success? <==> solutionRun.Success? && interactorRun.Success?
    ensures r.Success? ==> r.value == Decide(solutionRun.value, interactorRun.value, out, err)
  {
    match solutionRun
    case Failure(e) => Failure(e)
    case Success(solution) =>
      match interactorRun
      case Failure(e) => Failure(e)
      case Success(interactor) => Success(Decide(solution, interactor, out, err))
  }
}
