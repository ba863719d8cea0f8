/**
 * The test runner: visit the registered cases forward or in reverse, judge
 * each, and stop the whole suite at the first fatal verdict
 * (test/run_tests.cpp lines 1082-1099).
 */
module Runner {
  import opened Cases
  import opened Files
  import opened Verifier

  /** What the compiler and the produced program report for one case. */
  datatype CaseOutcome = CaseOutcome(compile: ProcResult, program: ProcResult)

  /** A progress line `Test <index>/<total> <name>...`. */
  datatype Progress = Progress(index: int, total: int, caseName: string)

  /** How a run ends: the final `<total> tests passed.` line, or a fatal verdict on the case numbered `index`. */
  datatype RunEnd = AllPassed(total: int) | Aborted(index: int, failure: Failure)

  /** The progress lines printed, how the run ended, and the working directory it left. */
  datatype RunReport = RunReport(progress: seq<Progress>, end: RunEnd, files: FileSystem)

  /**
   * Everything the runner needs to know about visiting one case: the line it
   * prints, the verdict, the files the case writes and whether they are
   * removed afterwards.
   */
  datatype Step = Step(line: Progress, verdict: Verdict, sourceFiles: seq<SourceFile>, removes: bool)

  /** Visiting case `i` of `cases` under its supplied process reports. */
  function StepOf(cases: seq<TestCase>, outcomes: seq<CaseOutcome>, i: int): Step
    requires |outcomes| == |cases| && 0 <= i < |cases|
    reads cases
  {
    var tc, o := cases[i], outcomes[i];
    Step(Progress(i + 1, |cases|, tc.caseName), Judge(tc, o.compile, o.program),
         tc.sourceFiles, RemovesFiles(tc, o.compile, o.program))
  }

  /** The steps of every registered case, by index. */
  function Plan(cases: seq<TestCase>, outcomes: seq<CaseOutcome>): seq<Step>
    requires |outcomes| == |cases|
    reads cases
  {
    seq(|cases|, i requires 0 <= i < |cases| reads cases => StepOf(cases, outcomes, i))
  }

  /** The working directory after a step: its files written, then removed if the step says so. */
  function AfterStep(fs: FileSystem, s: Step): FileSystem {
    WriteThenRemove(fs, s.sourceFiles, s.removes)
  }

  /** The indices the runner visits, in visiting order. */
  function VisitOrder(n: nat, reverse: bool): seq<int> {
    seq(n, k => if reverse then n - 1 - k else k)
  }

  /**
   * The visiting order holds every index below `n` exactly once, rising in
   * forward mode and falling in reverse mode.
   */
  lemma VisitOrderSpec(n: nat, reverse: bool)
    ensures var order := VisitOrder(n, reverse);
            && |order| == n
            && InRange(order, n)
            && (forall i :: 0 <= i < n ==> i in order)
            && forall k1, k2 :: 0 <= k1 < k2 < n ==>
                 if reverse then order[k1] > order[k2] else order[k1] < order[k2]
  {
    var order := VisitOrder(n, reverse);
    forall i | 0 <= i < n ensures i in order {
      VisitedAt(n, reverse, i);
    }
  }

  /** Case `i` is visited at position `i` going forward and at position `n - 1 - i` in reverse. */
  lemma VisitedAt(n: nat, reverse: bool, i: int)
    requires 0 <= i < n
    ensures VisitOrder(n, reverse)[if reverse then n - 1 - i else i] == i
  {
  }

  /** In reverse mode the `k`-th case visited is the one at index `n - 1 - k`. */
  lemma ReverseAt(n: nat, k: int)
    requires 0 <= k < n
    ensures VisitOrder(n, true)[k] == n - 1 - k
  {
  }

  predicate InRange(order: seq<int>, n: int) {
    forall k :: 0 <= k < |order| ==> 0 <= order[k] < n
  }

  /** Prefix the printed progress lines of an earlier part of the run. */
  function Prepend(progress: seq<Progress>, r: RunReport): RunReport {
    RunReport(progress + r.progress, r.end, r.files)
  }

  /** The run over the steps at the indices of `order`, starting from the directory `fs`. */
  function Schedule(plan: seq<Step>, order: seq<int>, fs: FileSystem): RunReport
    requires InRange(order, |plan|)
    decreases |order|
  {
    if order == [] then RunReport([], AllPassed(|plan|), fs)
    else
      var s := plan[order[0]];
      var after := AfterStep(fs, s);
      if s.verdict.Fatal? then RunReport([s.line], Aborted(order[0] + 1, s.verdict.failure), after)
      else Prepend([s.line], Schedule(plan, order[1..], after))
  }

  /** The run from the `k`-th visited case on: its line, then its failure or the rest of the run. */
  lemma ScheduleStep(plan: seq<Step>, order: seq<int>, k: int, fs: FileSystem)
    requires InRange(order, |plan|) && 0 <= k < |order|
    ensures var s := plan[order[k]];
            var after := AfterStep(fs, s);
            Schedule(plan, order[k..], fs)
              == if s.verdict.Fatal? then RunReport([s.line], Aborted(order[k] + 1, s.verdict.failure), after)
                 else Prepend([s.line], Schedule(plan, order[k + 1..], after))
  {
    assert order[k..][0] == order[k];
    assert order[k..][1..] == order[k + 1..];
  }

  lemma PrependTwice(progress: seq<Progress>, line: Progress, r: RunReport)
    ensures Prepend(progress, Prepend([line], r)) == Prepend(progress + [line], r)
  {
    assert progress + ([line] + r.progress) == progress + [line] + r.progress;
  }

  /**
   * One loop iteration of a run that has printed `progress` and stands at its
   * `k`-th visited case: a fatal case ends the whole run there, a passing one
   * leaves the same run with one more line printed.
   */
  lemma Advance(plan: seq<Step>, order: seq<int>, k: int, progress: seq<Progress>, files: FileSystem, fs: FileSystem)
    requires InRange(order, |plan|) && 0 <= k < |order|
    requires Prepend(progress, Schedule(plan, order[k..], files)) == Schedule(plan, order, fs)
    ensures var s := plan[order[k]];
            var after := AfterStep(files, s);
            && (s.verdict.Fatal? ==>
                  RunReport(progress + [s.line], Aborted(order[k] + 1, s.verdict.failure), after) == Schedule(plan, order, fs))
            && (s.verdict.Pass? ==>
                  Prepend(progress + [s.line], Schedule(plan, order[k + 1..], after)) == Schedule(plan, order, fs))
  {
    var s := plan[order[k]];
    ScheduleStep(plan, order, k, files);
    if s.verdict.Pass? {
      PrependTwice(progress, s.line, Schedule(plan, order[k + 1..], AfterStep(files, s)));
    }
  }

  /**
   * The body shared by both loops of `run_all_tests`: print the progress
   * line of case `i` and run it. Its line, verdict and resulting directory
   * are those of the case's step.
   */
  method VisitCase(cases: seq<TestCase>, outcomes: seq<CaseOutcome>, i: int, files: FileSystem)
    returns (line: Progress, verdict: Verdict, after: FileSystem)
    requires |outcomes| == |cases| && 0 <= i < |cases|
    ensures var s := Plan(cases, outcomes)[i];
            line == s.line && verdict == s.verdict && after == AfterStep(files, s)
  {
    var tc := cases[i];
    line := Progress(i + 1, |cases|, tc.caseName);
    var invoked;
    verdict, after, invoked := RunTest(tc, files, outcomes[i].compile, outcomes[i].program);
  }

  /**
   * `run_all_tests`: visit the cases in index order, or in reverse index
   * order, until a fatal verdict or the end of the list.
   */
  method RunAllTests(reg: Registry, reverse: bool, fs: FileSystem, outcomes: seq<CaseOutcome>)
    returns (report: RunReport)
    requires |outcomes| == |reg.cases|
    ensures report == Schedule(Plan(reg.cases, outcomes), VisitOrder(|reg.cases|, reverse), fs)
  {
    if reverse {
      report := RunReverse(reg.cases, fs, outcomes);
    } else {
      report := RunForward(reg.cases, fs, outcomes);
    }
  }

  /** The down-counting loop of `run_all_tests`, printing each case's original 1-based index. */
  method RunReverse(cases: seq<TestCase>, fs: FileSystem, outcomes: seq<CaseOutcome>) returns (report: RunReport)
    requires |outcomes| == |cases|
    ensures report == Schedule(Plan(cases, outcomes), VisitOrder(|cases|, true), fs)
  {
    var n := |cases|;
    ghost var plan := Plan(cases, outcomes);
    ghost var order := VisitOrder(n, true);
    var progress: seq<Progress> := [];
    var files := fs;
    var i := n - 1;
    ghost var k := 0;
    while i >= 0
      invariant -1 <= i < n && k == n - 1 - i
      invariant Prepend(progress, Schedule(plan, order[k..], files)) == Schedule(plan, order, fs)
      decreases i + 1
    {
      ReverseAt(n, k);
      assert order[k] == i;
      Advance(plan, order, k, progress, files, fs);
      var line, verdict, after := VisitCase(cases, outcomes, i, files);
      if verdict.Fatal? {
        return RunReport(progress + [line], Aborted(i + 1, verdict.failure), after);
      }
      progress, files := progress + [line], after;
      i, k := i - 1, k + 1;
    }
    assert order[k..] == [];
    report := RunReport(progress, AllPassed(n), files);
  }

  /** The up-counting loop of `run_all_tests`. */
  method RunForward(cases: seq<TestCase>, fs: FileSystem, outcomes: seq<CaseOutcome>) returns (report: RunReport)
    requires |outcomes| == |cases|
    ensures report == Schedule(Plan(cases, outcomes), VisitOrder(|cases|, false), fs)
  {
    var n := |cases|;
    ghost var plan := Plan(cases, outcomes);
    ghost var order := VisitOrder(n, false);
    var progress: seq<Progress> := [];
    var files := fs;
    var i := 0;
    while i < n
      invariant 0 <= i <= n
      invariant Prepend(progress, Schedule(plan, order[i..], files)) == Schedule(plan, order, fs)
    {
      assert order[i] == i;
      Advance(plan, order, i, progress, files, fs);
      var line, verdict, after := VisitCase(cases, outcomes, i, files);
      if verdict.Fatal? {
        return RunReport(progress + [line], Aborted(i + 1, verdict.failure), after);
      }
      progress, files := progress + [line], after;
      i := i + 1;
    }
    assert order[i..] == [];
    report := RunReport(progress, AllPassed(n), files);
  }

  /**
   * What any run prints and how it ends: one line per visited case, in
   * visiting order; every visited case before the last passed; the run
   * either visited every index and reports the total, or ended on the
   * failure of the last case it visited.
   */
  lemma {:induction false} ScheduleShape(plan: seq<Step>, order: seq<int>, fs: FileSystem)
    requires InRange(order, |plan|)
    ensures var r := Schedule(plan, order, fs);
            && |r.progress| <= |order|
            && (forall k :: 0 <= k < |r.progress| ==> r.progress[k] == plan[order[k]].line)
            && (forall k :: 0 <= k < |r.progress| - 1 ==> plan[order[k]].verdict == Pass)
            && (r.end.AllPassed? ==>
                  r.end.total == |plan| && |r.progress| == |order|
                  && forall k :: 0 <= k < |order| ==> plan[order[k]].verdict == Pass)
            && (r.end.Aborted? ==>
                  |r.progress| > 0 && r.end.index == order[|r.progress| - 1] + 1
                  && plan[order[|r.progress| - 1]].verdict == Fatal(r.end.failure))
    decreases |order|
  {
    if order != [] {
      var s := plan[order[0]];
      if s.verdict.Pass? {
        var tail := order[1..];
        assert forall k :: 0 <= k < |tail| ==> tail[k] == order[k + 1];
        ScheduleShape(plan, tail, AfterStep(fs, s));
      }
    }
  }

  /**
   * A run completes, printing the total, exactly when every case passes; so
   * a forward run and a reverse run complete on exactly the same suites.
   */
  lemma CompletesIffAllPass(plan: seq<Step>, reverse: bool, fs: FileSystem)
    ensures Schedule(plan, VisitOrder(|plan|, reverse), fs).end.AllPassed? <==>
              forall i :: 0 <= i < |plan| ==> plan[i].verdict == Pass
  {
    var order := VisitOrder(|plan|, reverse);
    VisitOrderSpec(|plan|, reverse);
    ScheduleShape(plan, order, fs);
    if Schedule(plan, order, fs).end.AllPassed? {
      forall i | 0 <= i < |plan| ensures plan[i].verdict == Pass {
        VisitedAt(|plan|, reverse, i);
      }
    }
  }

  /** Whether the suite finishes does not depend on the order it is run in. */
  lemma CompletionOrderIndependent(plan: seq<Step>, fs: FileSystem)
    ensures Schedule(plan, VisitOrder(|plan|, false), fs).end.AllPassed? <==>
            Schedule(plan, VisitOrder(|plan|, true), fs).end.AllPassed?
  {
    CompletesIffAllPass(plan, false, fs);
    CompletesIffAllPass(plan, true, fs);
  }

  /** Step `i` prints the original 1-based index `i + 1`. */
  ghost predicate Numbered(plan: seq<Step>) {
    forall i :: 0 <= i < |plan| ==> plan[i].line.index == i + 1
  }

  /** The `k`-th line a run prints is that of the `k`-th case in visiting order. */
  lemma ProgressAt(plan: seq<Step>, reverse: bool, fs: FileSystem)
    ensures var r := Schedule(plan, VisitOrder(|plan|, reverse), fs);
            && |r.progress| <= |plan|
            && (forall k :: 0 <= k < |r.progress| ==>
                  r.progress[k] == plan[if reverse then |plan| - 1 - k else k].line)
            && (r.end.AllPassed? ==> |r.progress| == |plan|)
  {
    var n := |plan|;
    var order := VisitOrder(n, reverse);
    ScheduleShape(plan, order, fs);
    var r := Schedule(plan, order, fs);
    forall k | 0 <= k < |r.progress|
      ensures r.progress[k] == plan[if reverse then n - 1 - k else k].line
    {
      assert order[k] == (if reverse then n - 1 - k else k);
    }
  }

  /** Lines taken from a numbered plan in visiting order carry distinct original indices. */
  lemma NumberedLines(plan: seq<Step>, reverse: bool, p: seq<Progress>, full: bool)
    requires Numbered(plan) && |p| <= |plan| && (full ==> |p| == |plan|)
    requires forall k :: 0 <= k < |p| ==> p[k] == plan[if reverse then |plan| - 1 - k else k].line
    ensures forall k :: 0 <= k < |p| ==> 1 <= p[k].index <= |plan| && p[k] == plan[p[k].index - 1].line
    ensures forall k1, k2 :: 0 <= k1 < k2 < |p| ==> p[k1].index != p[k2].index
    ensures full ==> forall i :: 0 <= i < |plan| ==> plan[i].line in p
  {
    var n := |plan|;
    assert forall k :: 0 <= k < |p| ==> p[k].index == (if reverse then n - 1 - k else k) + 1;
    if full {
      forall i | 0 <= i < n ensures plan[i].line in p {
        assert p[if reverse then n - 1 - i else i] == plan[i].line;
      }
    }
  }

  /**
   * A run visits each case at most once, printing the case's original
   * 1-based index in both modes, and a complete run visits every case.
   */
  lemma VisitsEachCaseOnce(plan: seq<Step>, reverse: bool, fs: FileSystem)
    requires Numbered(plan)
    ensures var r := Schedule(plan, VisitOrder(|plan|, reverse), fs);
            && (forall k :: 0 <= k < |r.progress| ==>
                  1 <= r.progress[k].index <= |plan| && r.progress[k] == plan[r.progress[k].index - 1].line)
            && (forall k1, k2 :: 0 <= k1 < k2 < |r.progress| ==> r.progress[k1].index != r.progress[k2].index)
            && (r.end.AllPassed? ==> forall i :: 0 <= i < |plan| ==> plan[i].line in r.progress)
  {
    var r := Schedule(plan, VisitOrder(|plan|, reverse), fs);
    ProgressAt(plan, reverse, fs);
    NumberedLines(plan, reverse, r.progress, r.end.AllPassed?);
  }

  /**
   * A forward run stops at the lowest-indexed fatal case and a reverse run at
   * the highest-indexed one, having run nothing past it in visiting order.
   */
  lemma AbortsAtFirstFatal(plan: seq<Step>, reverse: bool, fs: FileSystem)
    ensures var r := Schedule(plan, VisitOrder(|plan|, reverse), fs);
            r.end.Aborted? ==>
              && 1 <= r.end.index <= |plan|
              && plan[r.end.index - 1].verdict == Fatal(r.end.failure)
              && (!reverse ==> |r.progress| == r.end.index
                               && forall j :: 0 <= j < r.end.index - 1 ==> plan[j].verdict == Pass)
              && (reverse ==> |r.progress| == |plan| - r.end.index + 1
                              && forall j :: r.end.index - 1 < j < |plan| ==> plan[j].verdict == Pass)
  {
    var n := |plan|;
    var order := VisitOrder(n, reverse);
    VisitOrderSpec(n, reverse);
    ScheduleShape(plan, order, fs);
    var r := Schedule(plan, order, fs);
    if r.end.Aborted? {
      var m := |r.progress|;
      if reverse {
        ReverseAt(n, m - 1);
        assert r.end.index - 1 == n - m;
        forall j | n - m < j < n ensures plan[j].verdict == Pass {
          ReverseAt(n, n - 1 - j);
          assert n - 1 - j < m - 1;
        }
      } else {
        forall j | 0 <= j < r.end.index - 1 ensures plan[j].verdict == Pass {
          VisitedAt(n, false, j);
        }
      }
    }
  }

  /** A case's step leaves the directory the verifier's `CaseEffect` describes for that case. */
  lemma StepEffectIsCaseEffect(cases: seq<TestCase>, outcomes: seq<CaseOutcome>, i: int, fs: FileSystem)
    requires |outcomes| == |cases| && 0 <= i < |cases|
    ensures AfterStep(fs, Plan(cases, outcomes)[i]) == CaseEffect(fs, cases[i], outcomes[i].compile, outcomes[i].program)
  {
  }
}
