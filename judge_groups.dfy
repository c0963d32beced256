/**
 * Group blocking and scoring in `judge` (src/judge/mod.rs; src/judge.rs has
 * the same loop).  The source spawns every scheduled test as a task; here
 * each scheduled test runs to completion before the next is looked at, so a
 * failure is recorded before the following test is scheduled.  The verdict
 * a test receives when it runs is a parameter, `verdict(t)` for the test
 * with index `t` (counted from 0).
 *
 * The blocked table is the fixed-size slice of `Option<usize>` the source
 * locks: an array here.  Indexing it out of range, and computing the first
 * index of a range that starts at 0, panic in the source; the model reports
 * those panics as failures.
 */
module JudgeGroups {
  import opened Wrappers
  import opened Judge
  import S = Sandbox

  /** `Group`: tests `first..=last` counted from 1, a cost, and the groups it depends on. */
  datatype Group = Group(id: nat, first: nat, last: nat, cost: nat, depends: seq<nat>)

  /** What `judge` sends for each test it ran: the test number counted from 1, and the verdict. */
  datatype Report = Report(test: nat, verdict: Verdict)

  /** The blocked table and the reports sent so far. */
  datatype Progress = Progress(slots: seq<Option<nat>>, reports: seq<Report>)

  const OVERFLOW: string := "attempt to subtract with overflow"
  const OUT_OF_BOUNDS: string := "index out of bounds"

  // ------------------------------------------------------------ scheduling

  /** The dependency check, in order: a dependency outside the table panics, a blocked one stops the search. */
  function DependsBlocked(slots: seq<Option<nat>>, ds: seq<nat>): (r: Result<bool, string>)
    ensures r == Success(false) <==> forall k :: 0 <= k < |ds| ==> ds[k] < |slots| && slots[ds[k]].None?
    ensures r == Success(true) ==> exists k :: 0 <= k < |ds| && ds[k] < |slots| && slots[ds[k]].Some?
    decreases |ds|
  {
    if ds == [] then Success(false)
    else if ds[0] >= |slots| then Failure(OUT_OF_BOUNDS)
    else if slots[ds[0]].Some? then Success(true)
    else
      var r := DependsBlocked(slots, ds[1..]);
      assert forall k :: 1 <= k < |ds| ==> ds[k] == ds[1..][k - 1];
      r
  }

  /** Whether a test of `g` is skipped: its own group is blocked, or one of its dependencies is. */
  function TestBlocked(slots: seq<Option<nat>>, g: Group): (r: Result<bool, string>)
    ensures r.Success? ==> g.id < |slots|
    ensures r == Success(false) <==>
      g.id < |slots| && slots[g.id].None? && forall k :: 0 <= k < |g.depends| ==> g.depends[k] < |slots| && slots[g.depends[k]].None?
  {
    if g.id >= |slots| then Failure(OUT_OF_BOUNDS)
    else if slots[g.id].Some? then Success(true)
    else DependsBlocked(slots, g.depends)
  }

  /** The smaller of a slot's failing index and `t`. */
  function MinFailing(slot: Option<nat>, t: nat): (m: nat)
    ensures m <= t && (slot.Some? ==> m <= slot.value)
    ensures m == t || (slot.Some? && m == slot.value)
  {
    match slot
    case None => t
    case Some(k) => if k < t then k else t
  }

  /** Recording test `t` of `g`: report it, and on failure block the group at the smallest failing index. */
  function Record(p: Progress, g: Group, t: nat, v: Verdict): Progress
    requires g.id < |p.slots|
  {
    var slots := if IsSuccess(v) then p.slots else p.slots[g.id := Some(MinFailing(p.slots[g.id], t))];
    Progress(slots, p.reports + [Report(t + 1, v)])
  }

  /** The tests `t..last-1` (indices) of `g`, each skipped, or run and recorded. */
  function RunTests(p: Progress, g: Group, t: nat, verdict: nat -> Verdict): Result<Progress, string>
    decreases g.last - t
  {
    if t >= g.last then Success(p)
    else
      match TestBlocked(p.slots, g)
      case Failure(e) => Failure(e)
      case Success(skip) =>
        if skip then RunTests(p, g, t + 1, verdict)
        else RunTests(Record(p, g, t, verdict(t)), g, t + 1, verdict)
  }

  /** One group: its tests have indices `first-1 .. last-1`; a range starting at 0 underflows. */
  function RunGroup(p: Progress, g: Group, verdict: nat -> Verdict): Result<Progress, string>
  {
    if g.first == 0 then Failure(OVERFLOW) else RunTests(p, g, g.first - 1, verdict)
  }

  /** Continue with groups `gs` after a step that may have failed. */
  function Then(r: Result<Progress, string>, gs: seq<Group>, verdict: nat -> Verdict): Result<Progress, string>
    decreases |gs| + 1, 0
  {
    match r
    case Failure(e) => Failure(e)
    case Success(q) => RunGroups(q, gs, verdict)
  }

  /** Every group in order. */
  function RunGroups(p: Progress, gs: seq<Group>, verdict: nat -> Verdict): Result<Progress, string>
    decreases |gs|, 1
  {
    if gs == [] then Success(p) else Then(RunGroup(p, gs[0], verdict), gs[1..], verdict)
  }

  /** An empty table with one slot per group, and nothing reported. */
  function Start(n: nat): Progress
  {
    Progress(seq(n, _ => None), [])
  }

  // -------------------------------------------------------------- scoring

  /** The group scores: a group's cost when its slot is empty, else 0, by position. */
  function GroupsScore(groups: seq<Group>, slots: seq<Option<nat>>): (r: seq<nat>)
    requires |slots| == |groups|
    ensures |r| == |groups|
  {
    seq(|groups|, i requires 0 <= i < |groups| => if slots[i].None? then groups[i].cost else 0)
  }

  function Sum(xs: seq<nat>): nat
  {
    if xs == [] then 0 else xs[0] + Sum(xs[1..])
  }

  /** What a submission that blocks no group scores. */
  function TotalCost(groups: seq<Group>): nat
  {
    if groups == [] then 0 else groups[0].cost + TotalCost(groups[1..])
  }

  lemma GroupsScoreTail(groups: seq<Group>, slots: seq<Option<nat>>)
    requires |slots| == |groups| > 0
    ensures GroupsScore(groups, slots)[1..] == GroupsScore(groups[1..], slots[1..])
  {
  }

  /** The total never exceeds the sum of all costs, and reaches it when no group is blocked. */
  lemma {:induction false} ScoreBounds(groups: seq<Group>, slots: seq<Option<nat>>)
    requires |slots| == |groups|
    ensures Sum(GroupsScore(groups, slots)) <= TotalCost(groups)
    ensures (forall i :: 0 <= i < |slots| ==> slots[i].None?) ==> Sum(GroupsScore(groups, slots)) == TotalCost(groups)
    decreases |groups|
  {
    if groups != [] {
      GroupsScoreTail(groups, slots);
      ScoreBounds(groups[1..], slots[1..]);
    }
  }

  /** When every group costs something, the full score means no group was blocked. */
  lemma {:induction false} FullScoreOnlyUnblocked(groups: seq<Group>, slots: seq<Option<nat>>)
    requires |slots| == |groups|
    requires forall i :: 0 <= i < |groups| ==> groups[i].cost > 0
    requires Sum(GroupsScore(groups, slots)) == TotalCost(groups)
    ensures forall i :: 0 <= i < |slots| ==> slots[i].None?
    decreases |groups|
  {
    if groups != [] {
      GroupsScoreTail(groups, slots);
      ScoreBounds(groups[1..], slots[1..]);
      assert slots[0].None?;
      FullScoreOnlyUnblocked(groups[1..], slots[1..]);
      assert forall i :: 1 <= i < |slots| ==> slots[i] == slots[1..][i - 1];
    }
  }

  // ------------------------------------------------------- blocking lemmas

  /** `q` comes after `p`: same table size, every blocked slot still blocked at an index no larger, reports extended. */
  predicate Extends(p: Progress, q: Progress)
  {
    |q.slots| == |p.slots| && p.reports <= q.reports &&
    forall i :: 0 <= i < |p.slots| && p.slots[i].Some? ==> q.slots[i].Some? && q.slots[i].value <= p.slots[i].value
  }

  lemma RecordExtends(p: Progress, g: Group, t: nat, v: Verdict)
    requires g.id < |p.slots|
    ensures Extends(p, Record(p, g, t, v))
    ensures !IsSuccess(v) ==> Record(p, g, t, v).slots[g.id] == Some(MinFailing(p.slots[g.id], t))
  {
  }

  /** Running tests only ever adds blocks and lowers blocked indices: a blocked slot never clears. */
  lemma {:induction false} RunTestsExtends(p: Progress, g: Group, t: nat, verdict: nat -> Verdict)
    ensures RunTests(p, g, t, verdict).Success? ==> Extends(p, RunTests(p, g, t, verdict).value)
    decreases g.last - t
  {
    if t < g.last {
      match TestBlocked(p.slots, g)
      case Failure(_) =>
      case Success(skip) =>
        if skip {
          RunTestsExtends(p, g, t + 1, verdict);
        } else {
          var p' := Record(p, g, t, verdict(t));
          RecordExtends(p, g, t, verdict(t));
          RunTestsExtends(p', g, t + 1, verdict);
        }
    }
  }

  lemma {:induction false} RunGroupsExtends(p: Progress, gs: seq<Group>, verdict: nat -> Verdict)
    ensures RunGroups(p, gs, verdict).Success? ==> Extends(p, RunGroups(p, gs, verdict).value)
    decreases |gs|
  {
    if gs != [] {
      var r := RunGroup(p, gs[0], verdict);
      if r.Success? {
        if gs[0].first > 0 {
          RunTestsExtends(p, gs[0], gs[0].first - 1, verdict);
        }
        RunGroupsExtends(r.value, gs[1..], verdict);
      }
    }
  }

  /** Test `t` (index) failed according to the reports. */
  predicate Failed(reports: seq<Report>, t: nat)
  {
    exists j :: 0 <= j < |reports| && reports[j].test == t + 1 && !IsSuccess(reports[j].verdict)
  }

  /** Every blocked slot names a test that was run and failed. */
  predicate Witnessed(p: Progress)
  {
    forall i :: 0 <= i < |p.slots| && p.slots[i].Some? ==> Failed(p.reports, p.slots[i].value)
  }

  lemma FailedPrefix(a: seq<Report>, b: seq<Report>, t: nat)
    requires a <= b && Failed(a, t)
    ensures Failed(b, t)
  {
    var j :| 0 <= j < |a| && a[j].test == t + 1 && !IsSuccess(a[j].verdict);
    assert b[j] == a[j];
  }

  lemma RecordWitnessed(p: Progress, g: Group, t: nat, v: Verdict)
    requires g.id < |p.slots| && Witnessed(p)
    ensures Witnessed(Record(p, g, t, v))
  {
    var q := Record(p, g, t, v);
    forall i | 0 <= i < |q.slots| && q.slots[i].Some?
      ensures Failed(q.reports, q.slots[i].value)
    {
      if !IsSuccess(v) && i == g.id && q.slots[i].value == t {
        assert q.reports[|p.reports|] == Report(t + 1, v);
      } else {
        assert p.slots[i].Some? && q.slots[i].value == p.slots[i].value;
        FailedPrefix(p.reports, q.reports, q.slots[i].value);
      }
    }
  }

  lemma {:induction false} RunTestsWitnessed(p: Progress, g: Group, t: nat, verdict: nat -> Verdict)
    requires Witnessed(p)
    ensures RunTests(p, g, t, verdict).Success? ==> Witnessed(RunTests(p, g, t, verdict).value)
    decreases g.last - t
  {
    if t < g.last {
      match TestBlocked(p.slots, g)
      case Failure(_) =>
      case Success(skip) =>
        if skip {
          RunTestsWitnessed(p, g, t + 1, verdict);
        } else {
          RecordWitnessed(p, g, t, verdict(t));
          RunTestsWitnessed(Record(p, g, t, verdict(t)), g, t + 1, verdict);
        }
    }
  }

  /** Starting from an empty table, every slot that ends up blocked names a test that failed. */
  lemma {:induction false} RunGroupsWitnessed(p: Progress, gs: seq<Group>, verdict: nat -> Verdict)
    requires Witnessed(p)
    ensures RunGroups(p, gs, verdict).Success? ==> Witnessed(RunGroups(p, gs, verdict).value)
    decreases |gs|
  {
    if gs != [] {
      var r := RunGroup(p, gs[0], verdict);
      if r.Success? {
        RunTestsWitnessed(p, gs[0], gs[0].first - 1, verdict);
        RunGroupsWitnessed(r.value, gs[1..], verdict);
      }
    }
  }

  /** A test of `g` that fails leaves `g` blocked at an index no larger than its own. */
  lemma {:induction false} FailureBlocksGroup(p: Progress, g: Group, t: nat, verdict: nat -> Verdict)
    requires RunTests(p, g, t, verdict).Success?
    ensures var q := RunTests(p, g, t, verdict).value;
      forall j :: |p.reports| <= j < |q.reports| && !IsSuccess(q.reports[j].verdict) ==>
        g.id < |q.slots| && q.slots[g.id].Some? && q.slots[g.id].value < q.reports[j].test
    decreases g.last - t
  {
    if t < g.last {
      var skip := TestBlocked(p.slots, g).value;
      if skip {
        FailureBlocksGroup(p, g, t + 1, verdict);
      } else {
        var p' := Record(p, g, t, verdict(t));
        var q := RunTests(p', g, t + 1, verdict).value;
        FailureBlocksGroup(p', g, t + 1, verdict);
        RunTestsExtends(p', g, t + 1, verdict);
        RecordExtends(p, g, t, verdict(t));
        forall j | |p.reports| <= j < |q.reports| && !IsSuccess(q.reports[j].verdict)
          ensures g.id < |q.slots| && q.slots[g.id].Some? && q.slots[g.id].value < q.reports[j].test
        {
          if j == |p.reports| {
            assert q.reports[j] == p'.reports[j] == Report(t + 1, verdict(t));
          }
        }
      }
    }
  }

  /** Tests whose verdicts are all `Ok` block nothing. */
  lemma {:induction false} AllPassBlocksNothing(p: Progress, gs: seq<Group>, verdict: nat -> Verdict)
    requires forall t :: verdict(t) == Ok
    ensures RunGroups(p, gs, verdict).Success? ==> RunGroups(p, gs, verdict).value.slots == p.slots
    decreases |gs|
  {
    if gs != [] {
      var r := RunGroup(p, gs[0], verdict);
      if r.Success? {
        AllPassTests(p, gs[0], gs[0].first - 1, verdict);
        AllPassBlocksNothing(r.value, gs[1..], verdict);
      }
    }
  }

  lemma {:induction false} AllPassTests(p: Progress, g: Group, t: nat, verdict: nat -> Verdict)
    requires forall t :: verdict(t) == Ok
    ensures RunTests(p, g, t, verdict).Success? ==> RunTests(p, g, t, verdict).value.slots == p.slots
    decreases g.last - t
  {
    if t < g.last {
      match TestBlocked(p.slots, g)
      case Failure(_) =>
      case Success(skip) =>
        if skip {
          AllPassTests(p, g, t + 1, verdict);
        } else {
          AllPassTests(Record(p, g, t, verdict(t)), g, t + 1, verdict);
        }
    }
  }

  // ------------------------------------------------------------ the judge

  /**
   * The judge's answer: the compile outcome when compilation did not
   * succeed, else the group scores and their sum after every group ran.
   */
  function JudgeResult(compile: S.RunStatus, compileErrors: Option<string>, groups: seq<Group>, verdict: nat -> Verdict)
    : Result<FullResult, string>
  {
    match CompileOutcome(compile, compileErrors)
    case Some(f) => Success(f)
    case None =>
      match RunGroups(Start(|groups|), groups, verdict)
      case Failure(e) => Failure(e)
      case Success(q) =>
        RunGroupsExtends(Start(|groups|), groups, verdict);
        Success(Scored(Sum(GroupsScore(groups, q.slots)), GroupsScore(groups, q.slots)))
  }

  /** A scored submission never earns more than the sum of its groups' costs. */
  lemma ScoreAtMostTotal(compile: S.RunStatus, compileErrors: Option<string>, groups: seq<Group>, verdict: nat -> Verdict)
    requires JudgeResult(compile, compileErrors, groups, verdict).Success?
    ensures var f := JudgeResult(compile, compileErrors, groups, verdict).value;
      f.Scored? ==> f.score <= TotalCost(groups) && |f.groupsScore| == |groups| && f.score == Sum(f.groupsScore)
  {
    if compile.Ok? {
      var q := RunGroups(Start(|groups|), groups, verdict).value;
      RunGroupsExtends(Start(|groups|), groups, verdict);
      ScoreBounds(groups, q.slots);
    }
  }

  /** A compiled submission that passes every test gets every group's cost. */
  lemma AllPassFullScore(groups: seq<Group>, verdict: nat -> Verdict)
    requires forall t :: verdict(t) == Ok
    requires JudgeResult(S.Ok, None, groups, verdict).Success?
    ensures var f := JudgeResult(S.Ok, None, groups, verdict).value;
      f.Scored? && f.score == TotalCost(groups) && |f.groupsScore| == |groups| &&
      forall i :: 0 <= i < |groups| ==> f.groupsScore[i] == groups[i].cost
  {
    var q := RunGroups(Start(|groups|), groups, verdict).value;
    AllPassBlocksNothing(Start(|groups|), groups, verdict);
    assert forall i :: 0 <= i < |q.slots| ==> q.slots[i].None?;
    ScoreBounds(groups, q.slots);
  }

  /**
   * `judge` after the compile step, run sequentially: the blocked table is
   * updated in place, the reports are collected, and the scores computed
   * from the final table.
   */
  method JudgeSubmission(compile: S.RunStatus, compileErrors: Option<string>, groups: seq<Group>, verdict: nat -> Verdict)
    returns (r: Result<FullResult, string>)
    ensures r == JudgeResult(compile, compileErrors, groups, verdict)
  {
    var early := CompileOutcome(compile, compileErrors);
    if early.Some? {
      return Success(early.value);
    }
    var run := RunAllGroups(groups, verdict);
    if run.Failure? {
      return Failure(run.error);
    }
    RunGroupsExtends(Start(|groups|), groups, verdict);
    var scores := GroupsScore(groups, run.value.slots);
    r := Success(Scored(Sum(scores), scores));
  }

  /** The nested scheduling loops over a fresh blocked table. */
  method RunAllGroups(groups: seq<Group>, verdict: nat -> Verdict) returns (r: Result<Progress, string>)
    ensures r == RunGroups(Start(|groups|), groups, verdict)
  {
    var blocked := new Option<nat>[|groups|](_ => None);
    assert blocked[..] == Start(|groups|).slots;
    var reports: seq<Report> := [];
    var i := 0;
    while i < |groups|
      invariant 0 <= i <= |groups| && blocked.Length == |groups|
      invariant RunGroups(Progress(blocked[..], reports), groups[i..], verdict) == RunGroups(Start(|groups|), groups, verdict)
    {
      var g := groups[i];
      assert groups[i..][1..] == groups[i + 1..];
      if g.first == 0 {
        return Failure(OVERFLOW);
      }
      var out := RunGroupTests(blocked, reports, g, verdict);
      if out.Failure? {
        return Failure(out.error);
      }
      reports := out.value;
      i := i + 1;
    }
    return Success(Progress(blocked[..], reports));
  }

  /** The tests of one group, each checked against the table and, when not skipped, run and recorded. */
  method RunGroupTests(blocked: array<Option<nat>>, reports0: seq<Report>, g: Group, verdict: nat -> Verdict)
    returns (out: Result<seq<Report>, string>)
    requires g.first > 0
    modifies blocked
    ensures out.Success? ==> RunTests(Progress(old(blocked[..]), reports0), g, g.first - 1, verdict) == Success(Progress(blocked[..], out.value))
    ensures out.Failure? ==> RunTests(Progress(old(blocked[..]), reports0), g, g.first - 1, verdict) == Failure(out.error)
  {
    var reports := reports0;
    var t := g.first - 1;
    while t < g.last
      invariant RunTests(Progress(blocked[..], reports), g, t, verdict) == RunTests(Progress(old(blocked[..]), reports0), g, g.first - 1, verdict)
      decreases g.last - t
    {
      var skip := CheckBlocked(blocked, g);
      if skip.Failure? {
        return Failure(skip.error);
      }
      if !skip.value {
        ghost var p := Progress(blocked[..], reports);
        var v := verdict(t);
        reports := reports + [Report(t + 1, v)];
        if !IsSuccess(v) {
          blocked[g.id] := Some(MinFailing(blocked[g.id], t));
        }
        assert Progress(blocked[..], reports) == Record(p, g, t, v);
      }
      t := t + 1;
    }
    return Success(reports);
  }

  /** The check made before each test: the group's own slot, then each dependency in order. */
  method CheckBlocked(blocked: array<Option<nat>>, g: Group) returns (r: Result<bool, string>)
    ensures r == TestBlocked(blocked[..], g)
  {
    if g.id >= blocked.Length {
      return Failure(OUT_OF_BOUNDS);
    }
    if blocked[g.id].Some? {
      return Success(true);
    }
    var k := 0;
    while k < |g.depends|
      invariant 0 <= k <= |g.depends|
      invariant DependsBlocked(blocked[..], g.depends[k..]) == DependsBlocked(blocked[..], g.depends)
    {
      assert g.depends[k..][1..] == g.depends[k + 1..];
      var d := g.depends[k];
      if d >= blocked.Length {
        return Failure(OUT_OF_BOUNDS);
      }
      if blocked[d].Some? {
        return Success(true);
      }
      k := k + 1;
    }
    return Success(false);
  }
}
