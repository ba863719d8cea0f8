/**
 * The program's entry point: read the command line, declare every case
 * (those that must compile first, then those that must be rejected), run
 * the suite and clean up the scratch files (test/run_tests.cpp lines
 * 98-991, 1101-1124). The fixture sources are declarative data and are
 * parameters here.
 */
module Harness {
  import opened Wrappers
  import opened Cases
  import opened Files
  import opened Verifier
  import opened Runner

  /** What the command line asks for: the usage message, or a run in one direction. */
  datatype Command = Usage(programName: string) | RunSuite(reverse: bool)

  /** A case that must compile and print `output`, with any extra files attached after the primary. */
  datatype SimpleDecl = SimpleDecl(name: string, source: string, output: string, extraFiles: seq<SourceFile>)

  /** A case that must be rejected with each of `errors` in the compiler's stderr. */
  datatype FailDecl = FailDecl(name: string, source: string, errors: seq<string>)

  /**
   * The argument loop of `main`: every argument after the program name must
   * be `--reverse`; the first other one ends parsing with the usage message.
   */
  method ParseArgs(argv: seq<string>) returns (cmd: Command)
    ensures cmd.Usage? <==> exists i :: 1 <= i < |argv| && argv[i] != "--reverse"
    ensures cmd.Usage? ==> |argv| > 0 && cmd.programName == argv[0]
    ensures cmd.RunSuite? ==> (cmd.reverse <==> |argv| > 1)
  {
    var reverse := false;
    var i := 1;
    while i < |argv|
      invariant 1 <= i && (i <= |argv| || i == 1)
      invariant forall j :: 1 <= j < i ==> argv[j] == "--reverse"
      invariant reverse <==> i > 1
    {
      if argv[i] == "--reverse" {
        reverse := true;
      } else {
        return Usage(argv[0]);
      }
      i := i + 1;
    }
    return RunSuite(reverse);
  }

  /** `tc` is what declaring `d` through the success-case builder and `add_source_file` produces. */
  ghost predicate SimpleRegistered(tc: TestCase, d: SimpleDecl)
    reads tc
  {
    && tc.caseName == d.name && tc.output == d.output
    && tc.sourceFiles == [SourceFile(TmpSourcePath, d.source)] + d.extraFiles
    && tc.compilerArgs == SimpleCompilerArgs && tc.programArgs == [] && tc.compileErrors == []
  }

  /** `tc` is what declaring `d` through the compile-failure builder produces. */
  ghost predicate FailRegistered(tc: TestCase, d: FailDecl)
    reads tc
  {
    && tc.caseName == d.name && tc.output == ""
    && tc.sourceFiles == [SourceFile(TmpSourcePath, d.source)]
    && tc.compilerArgs == CompileFailCompilerArgs && tc.programArgs == [] && tc.compileErrors == d.errors
  }

  /** Declare one success case and attach its extra files, the way the fixtures call the builders. */
  method DeclareSimple(reg: Registry, d: SimpleDecl)
    modifies reg
    ensures |reg.cases| == |old(reg.cases)| + 1 && reg.cases[..|old(reg.cases)|] == old(reg.cases)
    ensures fresh(reg.cases[|old(reg.cases)|])
    ensures SimpleRegistered(reg.cases[|old(reg.cases)|], d)
  {
    var tc := reg.AddSimpleCase(d.name, d.source, d.output);
    var i := 0;
    while i < |d.extraFiles|
      modifies tc
      invariant 0 <= i <= |d.extraFiles|
      invariant reg.cases == old(reg.cases) + [tc]
      invariant SimpleRegistered(tc, d.(extraFiles := d.extraFiles[..i]))
    {
      tc.AddSourceFile(d.extraFiles[i].relativePath, d.extraFiles[i].sourceCode);
      assert d.extraFiles[..i + 1] == d.extraFiles[..i] + [d.extraFiles[i]];
      i := i + 1;
    }
    assert d.extraFiles[..i] == d.extraFiles;
  }

  /**
   * `add_compiling_test_cases` then `add_compile_failure_test_cases`: every
   * success case is declared, in order, before every compile-failure case.
   */
  method Register(reg: Registry, compiling: seq<SimpleDecl>, failing: seq<FailDecl>)
    requires reg.cases == []
    modifies reg
    ensures |reg.cases| == |compiling| + |failing|
    ensures forall k :: 0 <= k < |compiling| ==> SimpleRegistered(reg.cases[k], compiling[k])
    ensures forall k :: 0 <= k < |failing| ==> FailRegistered(reg.cases[|compiling| + k], failing[k])
  {
    var j := 0;
    while j < |compiling|
      invariant 0 <= j <= |compiling| && |reg.cases| == j
      invariant forall k :: 0 <= k < j ==> fresh(reg.cases[k])
      invariant forall k :: 0 <= k < j ==> SimpleRegistered(reg.cases[k], compiling[k])
    {
      DeclareSimple(reg, compiling[j]);
      j := j + 1;
    }
    j := 0;
    while j < |failing|
      invariant 0 <= j <= |failing| && |reg.cases| == |compiling| + j
      invariant forall k :: 0 <= k < |compiling| ==> SimpleRegistered(reg.cases[k], compiling[k])
      invariant forall k :: 0 <= k < j ==> FailRegistered(reg.cases[|compiling| + k], failing[k])
    {
      var d := failing[j];
      var tc := reg.AddCompileFailCase(d.name, d.source, d.errors);
      j := j + 1;
    }
  }

  /** `cleanup`: remove the scratch source and the scratch executable; either may already be absent. */
  function Cleanup(fs: FileSystem): (r: FileSystem)
    ensures TmpSourcePath !in r && TmpExePath !in r
    ensures forall p :: p != TmpSourcePath && p != TmpExePath ==> (p in r <==> p in fs)
    ensures forall p :: p in r ==> r[p] == fs[p]
  {
    fs - {TmpSourcePath, TmpExePath}
  }

  /**
   * `main`: on a bad argument, report usage and exit 1 with nothing declared
   * or run; otherwise declare every case, run the suite in the requested
   * direction, and exit 0 after cleaning up when every case passed, or 1
   * (skipping cleanup) at the first fatal verdict.
   */
  method Run(argv: seq<string>, compiling: seq<SimpleDecl>, failing: seq<FailDecl>,
             fs: FileSystem, outcomes: seq<CaseOutcome>)
    returns (status: int, reg: Registry, report: Option<RunReport>, files: FileSystem)
    requires |outcomes| == |compiling| + |failing|
    ensures report.None? <==> exists i :: 1 <= i < |argv| && argv[i] != "--reverse"
    ensures report.None? ==> status == 1 && reg.cases == [] && files == fs
    ensures report.Some? ==>
              && |reg.cases| == |compiling| + |failing|
              && (forall k :: 0 <= k < |compiling| ==> SimpleRegistered(reg.cases[k], compiling[k]))
              && (forall k :: 0 <= k < |failing| ==> FailRegistered(reg.cases[|compiling| + k], failing[k]))
              && report.value == Schedule(Plan(reg.cases, outcomes), VisitOrder(|reg.cases|, |argv| > 1), fs)
              && (report.value.end.AllPassed? ==> status == 0 && files == Cleanup(report.value.files))
              && (report.value.end.Aborted? ==> status == 1 && files == report.value.files)
  {
    reg := new Registry();
    var cmd := ParseArgs(argv);
    if cmd.Usage? {
      return 1, reg, None, fs;
    }
    Register(reg, compiling, failing);
    var r := RunAllTests(reg, cmd.reverse, fs, outcomes);
    report := Some(r);
    if r.end.Aborted? {
      status, files := 1, r.files;
    } else {
      status, files := 0, Cleanup(r.files);
    }
  }

  /**
   * A compile-failure declaration with no expected strings yields a case the
   * verifier judges as a success case: its program is run and must print
   * the empty string (the source leaves that output a null pointer).
   */
  lemma EmptyErrorListJudgedAsSuccessCase(tc: TestCase, name: string, source: string,
                                          compile: ProcResult, program: ProcResult)
    requires FailRegistered(tc, FailDecl(name, source, []))
    requires compile.exitCode == 0 && program.exitCode == 0
    ensures !IsCompileFail(tc)
    ensures |Invocations(tc, compile)| == 2
    ensures Judge(tc, compile, program) == Pass <==> program.stdout == ""
  {
  }

  /**
   * The case with a primary source and two attached files: once it passes,
   * all three files are gone from the working directory.
   */
  lemma MultipleFilesRemovedOnPass(tc: TestCase, d: SimpleDecl, fs: FileSystem, compile: ProcResult, program: ProcResult)
    requires |d.extraFiles| == 2 && SimpleRegistered(tc, d)
    requires compile.exitCode == 0 && program.exitCode == 0 && program.stdout == d.output
    ensures var after := CaseEffect(fs, tc, compile, program);
            TmpSourcePath !in after && d.extraFiles[0].relativePath !in after && d.extraFiles[1].relativePath !in after
  {
    var files := tc.sourceFiles;
    assert files[0].relativePath in Paths(files);
    assert files[1].relativePath in Paths(files);
    assert files[2].relativePath in Paths(files);
  }
}
