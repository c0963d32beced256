/**
 * The judge's vocabulary and its pure decisions: src/judge/api.rs (verdicts,
 * test results, problem limits) and the pure parts of src/judge/mod.rs
 * (languages, the compilation-command table, `path_from`, the
 * compile-outcome classification).  src/judge.rs and
 * src/judge/test_runner.rs carry their own copies of `Verdict`,
 * `from_run_status`, `is_success`, `path_from` and `run_command`; the copies
 * are identical, so they are modelled once, here.
 */
module Judge {
  import opened Wrappers
  import opened Text
  import opened SandboxCommand
  import S = Sandbox

  // ------------------------------------------------------------- verdicts

  datatype Verdict = Ok | Wa | Pe | Ml | Tl | Re | Ce | Te | Sl

  /** `from_run_status`: no verdict for a clean run, otherwise the limit hit or a runtime error. */
  function FromRunStatus(status: S.RunStatus): (r: Option<Verdict>)
    ensures r.None? <==> status.Ok?
    ensures r.Some? ==> r.value in {Tl, Ml, Re}
    ensures r == Some(Tl) <==> status.Tl?
    ensures r == Some(Ml) <==> status.Ml?
    ensures r == Some(Re) <==> status.Re? || status.Sg?
  {
    match status
    case Ok => None
    case Tl => Some(Tl)
    case Ml => Some(Ml)
    case Re(_) => Some(Re)
    case Sg(_) => Some(Re)
  }

  /** `is_success`. */
  predicate IsSuccess(v: Verdict)
  {
    v == Ok
  }

  /** `Display`: the two upper-case letters of the verdict's name. */
  function Show(v: Verdict): (r: string)
    ensures |r| == 2 && forall i :: 0 <= i < |r| ==> 'A' <= r[i] <= 'Z'
  {
    match v
    case Ok => "OK"
    case Wa => "WA"
    case Pe => "PE"
    case Ml => "ML"
    case Tl => "TL"
    case Re => "RE"
    case Ce => "CE"
    case Te => "TE"
    case Sl => "SL"
  }

  /** Distinct verdicts print differently, so the text identifies the verdict. */
  lemma ShowInjective(a: Verdict, b: Verdict)
    ensures Show(a) == Show(b) ==> a == b
  {
    if Show(a) == Show(b) {
      assert Show(a)[0] == Show(b)[0] && Show(a)[1] == Show(b)[1];
    }
  }

  /**
   * How a checker's (or an interactor's) run is judged, the same in every
   * test environment: a clean exit accepts, exit code 1 is a wrong answer,
   * exit code 2 a presentation error, anything else a testing-system error.
   */
  function CheckerVerdict(status: S.RunStatus): (r: Verdict)
    ensures r in {Ok, Wa, Pe, Te}
    ensures r == Ok <==> status.Ok?
    ensures r == Wa <==> status == S.Re(1)
    ensures r == Pe <==> status == S.Re(2)
  {
    match status
    case Ok => Ok
    case Re(code) => if code == 1 then Wa else if code == 2 then Pe else Te
    case _ => Te
  }

  // ---------------------------------------------------------- test results

  /** `test::Result`; the time is kept as the text isolate reported. */
  datatype TestResult = TestResult(verdict: Verdict, time: Float, memory: nat, output: string, message: string)

  /** `submission::Limits` (and `ProblemLimits`). */
  datatype Limits = Limits(time: Float, realTime: Float, memory: nat, stack: Option<nat>)

  /** `submission::Result` (and `FullResult`): `Ok`, `Ce` and `Te` in the source. */
  datatype FullResult = Scored(score: nat, groupsScore: seq<nat>) | CompileError(message: string) | TestingError(message: string)

  /**
   * The `RunConfig` literals the test environments hand to the sandbox
   * service.  Its definition belongs to a sandbox version that is not part
   * of this model; the fields are those the literals name.
   */
  datatype RunConfig = RunConfig(
    timeLimit: MaybeLimited<Float>,
    memoryLimit: MaybeLimited<nat>,
    realTimeLimit: Float,
    extraTimeLimit: Option<Float>,
    stackLimit: Option<MaybeLimited<nat>>,
    openFilesLimit: Option<MaybeLimited<nat>>,
    processLimit: Option<MaybeLimited<nat>>,
    env: bool,
    openDirs: seq<string>,
    stdin: Option<string>,
    stdout: Option<string>,
    stderr: Option<string>)

  /** "ISOLATE: " and the sandbox's status message, "-" when there is none. */
  function IsolateMessage(statusMessage: Option<string>): string
  {
    "ISOLATE: " + statusMessage.GetOr("-")
  }

  /**
   * The early return every standard environment takes after the solution
   * ran: a failing solution is judged by its own status, with its time,
   * memory and output; a clean run (`None`) goes on to the checker.
   */
  function SolutionFailure(solution: S.RunResult, output: string): (r: Option<TestResult>)
    ensures r.None? <==> solution.status.Ok?
    ensures r.Some? ==>
      r.value.verdict == FromRunStatus(solution.status).value && !IsSuccess(r.value.verdict) &&
      r.value.time == solution.time && r.value.memory == solution.memory && r.value.output == output &&
      r.value.message == IsolateMessage(solution.statusMessage)
  {
    match FromRunStatus(solution.status)
    case None => None
    case Some(v) => Some(TestResult(v, solution.time, solution.memory, output, IsolateMessage(solution.statusMessage)))
  }

  /** A sandbox outcome (a panic included) as the `?` operator passes it on. */
  function Lift<T>(o: S.Outcome<T>): Result<T, string>
  {
    match o
    case Done(v) => Success(v)
    case Error(m) => Failure(m)
    case Panic(m) => Failure(m)
  }

  // ------------------------------------------------------------ languages

  datatype Lang = Gpp | Python

  /** `run_command`: how a program of the language is started inside the box. */
  function RunCommand(lang: Lang, name: string): (r: string)
    ensures lang == Gpp ==> |r| > 0 && r[0] == '.'
    ensures lang == Python ==> |r| > 0 && r[0] == '/'
  {
    match lang
    case Gpp => "./" + name
    case Python => "/usr/bin/python3 " + name
  }

  /** The command line names the language and the file it starts. */
  lemma RunCommandInjective(l1: Lang, n1: string, l2: Lang, n2: string)
    ensures RunCommand(l1, n1) == RunCommand(l2, n2) ==> l1 == l2 && n1 == n2
  {
    if RunCommand(l1, n1) == RunCommand(l2, n2) {
      assert RunCommand(l1, n1)[0] == RunCommand(l2, n2)[0];
      var k := |RunCommand(l1, n1)| - |n1|;
      assert l1 == l2;
      assert n1 == RunCommand(l1, n1)[k..];
      assert n2 == RunCommand(l2, n2)[k..];
    }
  }

  // ---------------------------------------------------- compilation command

  /** The derived `Debug` text of a language: its variant name. */
  function LangDebug(lang: Lang): string
  {
    match lang
    case Gpp => "Gpp"
    case Python => "Python"
  }

  /** The `Config` of the judge: one command template per language. */
  type CompilationTable = map<Lang, string>

  const SOURCE_MARK: string := "$SOURCE"
  const OUTPUT_MARK: string := "$OUTPUT"

  /** `Config::default`. */
  function DefaultTable(): (t: CompilationTable)
    ensures Gpp in t && Python in t
  {
    map[Gpp := "/usr/bin/g++ " + SOURCE_MARK + " -o " + OUTPUT_MARK + " -O2 -Wall -lm",
        Python := "/usr/bin/cp --update=none " + SOURCE_MARK + " " + OUTPUT_MARK]
  }

  /**
   * `compilation_command`: the language's template with every "$SOURCE"
   * replaced by the source name, then every "$OUTPUT" by the result name;
   * an error when the table has no entry for the language.
   */
  function CompilationCommand(table: CompilationTable, lang: Lang, name: string, result: string): (r: Result<string, string>)
    ensures r.Failure? <==> lang !in table
    ensures r.Failure? ==> r.error == "cannot find compilation command for lang: " + LangDebug(lang) + " in judge config"
  {
    if lang !in table then Failure("cannot find compilation command for lang: " + LangDebug(lang) + " in judge config")
    else Success(Replace(Replace(table[lang], SOURCE_MARK, name), OUTPUT_MARK, result))
  }

  /**
   * A template with one "$SOURCE" followed later by one "$OUTPUT", and no
   * other '$', compiles to the template with the two names put in, provided
   * the names themselves carry no '$'.
   */
  lemma TemplateFilled(a: string, b: string, c: string, name: string, result: string)
    requires '$' !in a && '$' !in b && '$' !in c && '$' !in name && '$' !in result
    ensures Replace(Replace(a + SOURCE_MARK + b + OUTPUT_MARK + c, SOURCE_MARK, name), OUTPUT_MARK, result)
         == a + name + b + result + c
  {
    var rest := b + OUTPUT_MARK + c;
    assert a + SOURCE_MARK + b + OUTPUT_MARK + c == a + SOURCE_MARK + rest;
    ReplaceFirst(a, SOURCE_MARK, name, rest);
    assert rest == b + ['$'] + (OUTPUT_MARK[1..] + c);
    assert SOURCE_MARK[1] != (OUTPUT_MARK[1..] + c)[0];
    ReplaceMiss(b, '$', OUTPUT_MARK[1..] + c, SOURCE_MARK, name);
    assert a + name + rest == (a + name + b) + OUTPUT_MARK + c;
    ReplaceFirst(a + name + b, OUTPUT_MARK, result, c);
    ReplaceAbsent(c, OUTPUT_MARK, result);
  }

  /** With the default table, C++ sources compile with g++ into the result name. */
  lemma DefaultGppCommand(name: string, result: string)
    requires '$' !in name && '$' !in result
    ensures CompilationCommand(DefaultTable(), Gpp, name, result)
         == Success("/usr/bin/g++ " + name + " -o " + result + " -O2 -Wall -lm")
  {
    TemplateFilled("/usr/bin/g++ ", " -o ", " -O2 -Wall -lm", name, result);
  }

  /** With the default table, a Python source is copied to the result name. */
  lemma DefaultPythonCommand(name: string, result: string)
    requires '$' !in name && '$' !in result
    ensures CompilationCommand(DefaultTable(), Python, name, result)
         == Success("/usr/bin/cp --update=none " + name + " " + result)
  {
    assert DefaultTable()[Python] == "/usr/bin/cp --update=none " + SOURCE_MARK + " " + OUTPUT_MARK + "";
    TemplateFilled("/usr/bin/cp --update=none ", " ", "", name, result);
    assert "/usr/bin/cp --update=none " + name + " " + result + "" == "/usr/bin/cp --update=none " + name + " " + result;
  }

  // ------------------------------------------------------------------ paths

  /** `path_from`: "dir/name", then ".ext" when an extension is given. */
  function PathFrom(dir: string, name: string, ext: Option<string>): string
  {
    dir + "/" + name + (match ext case Some(e) => "." + e case None => "")
  }

  /** Within one directory and extension, different names give different paths. */
  lemma PathFromInjective(dir: string, a: string, b: string, ext: Option<string>)
    ensures PathFrom(dir, a, ext) == PathFrom(dir, b, ext) ==> a == b
  {
    var tail := match ext case Some(e) => "." + e case None => "";
    if PathFrom(dir, a, ext) == PathFrom(dir, b, ext) {
      assert |a| == |b|;
      assert a == PathFrom(dir, a, ext)[|dir| + 1..|dir| + 1 + |a|];
      assert b == PathFrom(dir, b, ext)[|dir| + 1..|dir| + 1 + |b|];
    }
  }

  /** The file test `testId` (counted from 0) reads from `dir`: "dir/{testId+1}.txt". */
  function TestFile(dir: string, testId: nat): string
  {
    PathFrom(dir, NatToString(testId + 1), Some("txt"))
  }

  /** Different tests read different files. */
  lemma TestFilesDistinct(dir: string, i: nat, j: nat)
    ensures TestFile(dir, i) == TestFile(dir, j) ==> i == j
  {
    if TestFile(dir, i) == TestFile(dir, j) {
      PathFromInjective(dir, NatToString(i + 1), NatToString(j + 1), Some("txt"));
      NatToStringInjective(i + 1, j + 1);
    }
  }

  // ---------------------------------------------------------- compilation

  /**
   * The compile-outcome classification of `compile_solution`: a limit or a
   * signal is a testing-system error, a non-zero exit a compile error, both
   * reporting the compiler's error output ("" when it cannot be read); a
   * clean run goes on to testing.
   */
  function CompileOutcome(status: S.RunStatus, errors: Option<string>): (r: Option<FullResult>)
    ensures r.None? <==> status.Ok?
    ensures r == Some(CompileError(errors.GetOr(""))) <==> status.Re?
    ensures r == Some(TestingError(errors.GetOr(""))) <==> status.Tl? || status.Ml? || status.Sg?
  {
    match status
    case Tl => Some(TestingError(errors.GetOr("")))
    case Ml => Some(TestingError(errors.GetOr("")))
    case Sg(_) => Some(TestingError(errors.GetOr("")))
    case Re(_) => Some(CompileError(errors.GetOr("")))
    case Ok => None
  }
}
