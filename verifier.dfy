/**
 * The outcome verifier: one case, two phases. Phase 1 runs the compiler on
 * the case's arguments; a compile-failure case (one with expected error
 * strings) stops there, a success case goes on to phase 2, which runs the
 * produced program and compares its stdout with the declared output
 * (test/run_tests.cpp lines 993-1080). Process results are inputs; the
 * `exit(1)` of the source is the `Fatal` verdict.
 */
module Verifier {
  import opened Wrappers
  import opened Text
  import opened Cases
  import opened Files

  /** What a finished process reports. */
  datatype ProcResult = ProcResult(exitCode: int, stdout: string, stderr: string)

  /** One process the engine starts. */
  datatype Invocation = Invocation(exe: string, args: seq<string>)

  /**
   * Why a case is fatal, with the reproduction context the engine prints:
   * the compiler command line, the program command line once reached, and
   * the stream that matters.
   */
  datatype Failure =
    | UnexpectedCompileSuccess(compilerLine: string, stderr: string)
    | MissingCompileError(expected: string, compilerLine: string, stderr: string)
    | CompileFailed(exitCode: int, compilerLine: string, stderr: string)
    | ProgramFailed(exitCode: int, compilerLine: string, programLine: string, stderr: string)
    | OutputMismatch(expected: string, actual: string, compilerLine: string, programLine: string)

  datatype Verdict = Pass | Fatal(failure: Failure)

  /** A case is judged as a compile-failure case exactly when it lists expected errors. */
  predicate IsCompileFail(tc: TestCase)
    reads tc
  {
    |tc.compileErrors| > 0
  }

  function CompilerLine(tc: TestCase): string
    reads tc
  {
    CommandLine(ZigExe, tc.compilerArgs)
  }

  function ProgramLine(tc: TestCase): string
    reads tc
  {
    CommandLine(TmpExePath, tc.programArgs)
  }

  /**
   * The first expected error, in list order, that `stderr` does not contain;
   * `None` when it contains them all.
   */
  function FirstMissing(errors: seq<string>, stderr: string): (r: Option<string>)
    ensures r.None? <==> forall k :: 0 <= k < |errors| ==> Contains(stderr, errors[k])
    ensures r.Some? ==> exists k :: 0 <= k < |errors| && errors[k] == r.value
                          && !Contains(stderr, errors[k])
                          && forall j :: 0 <= j < k ==> Contains(stderr, errors[j])
  {
    if errors == [] then None
    else if !Contains(stderr, errors[0]) then Some(errors[0])
    else
      var rest := FirstMissing(errors[1..], stderr);
      assert forall k :: 1 <= k < |errors| ==> errors[k] == errors[1..][k - 1];
      rest
  }

  /** The verdict on one case, given what the compiler and the program report. */
  function Judge(tc: TestCase, compile: ProcResult, program: ProcResult): Verdict
    reads tc
  {
    if IsCompileFail(tc) then
      if compile.exitCode != 0 then
        match FirstMissing(tc.compileErrors, compile.stderr)
        case None => Pass
        case Some(e) => Fatal(MissingCompileError(e, CompilerLine(tc), compile.stderr))
      else Fatal(UnexpectedCompileSuccess(CompilerLine(tc), compile.stderr))
    else if compile.exitCode != 0 then
      Fatal(CompileFailed(compile.exitCode, CompilerLine(tc), compile.stderr))
    else if program.exitCode != 0 then
      Fatal(ProgramFailed(program.exitCode, CompilerLine(tc), ProgramLine(tc), program.stderr))
    else if program.stdout != tc.output then
      Fatal(OutputMismatch(tc.output, program.stdout, CompilerLine(tc), ProgramLine(tc)))
    else Pass
  }

  /** The processes started for a case: the compiler, then the program only when phase 2 is reached. */
  function Invocations(tc: TestCase, compile: ProcResult): seq<Invocation>
    reads tc
  {
    [Invocation(ZigExe, tc.compilerArgs)]
      + if !IsCompileFail(tc) && compile.exitCode == 0 then [Invocation(TmpExePath, tc.programArgs)] else []
  }

  /** The case's files are removed only when a success case passes every gate. */
  predicate RemovesFiles(tc: TestCase, compile: ProcResult, program: ProcResult)
    reads tc
  {
    !IsCompileFail(tc) && Judge(tc, compile, program) == Pass
  }

  /** The working directory after a case has run. */
  function CaseEffect(fs: FileSystem, tc: TestCase, compile: ProcResult, program: ProcResult): FileSystem
    reads tc
  {
    WriteThenRemove(fs, tc.sourceFiles, RemovesFiles(tc, compile, program))
  }

  /** `print_compiler_invocation`: the compiler path, then each argument after one space, then a newline. */
  method PrintCompilerInvocation(tc: TestCase) returns (line: string)
    ensures line == CompilerLine(tc) + "\n"
  {
    line := ZigExe;
    var i := 0;
    while i < |tc.compilerArgs|
      invariant 0 <= i <= |tc.compilerArgs|
      invariant line == CommandLine(ZigExe, tc.compilerArgs[..i])
    {
      assert tc.compilerArgs[..i + 1][..i] == tc.compilerArgs[..i];
      line := line + " " + tc.compilerArgs[i];
      i := i + 1;
    }
    assert tc.compilerArgs[..i] == tc.compilerArgs;
    line := line + "\n";
  }

  /** The write loop of `run_test`: each file written in order, overwriting. */
  method WriteSourceFiles(fs: FileSystem, files: seq<SourceFile>) returns (fs': FileSystem)
    ensures fs' == Materialize(fs, files)
  {
    fs' := fs;
    var i := 0;
    while i < |files|
      invariant 0 <= i <= |files|
      invariant fs' == Materialize(fs, files[..i])
    {
      assert files[..i + 1][..i] == files[..i];
      fs' := fs'[files[i].relativePath := files[i].sourceCode];
      i := i + 1;
    }
    assert files[..i] == files;
  }

  /** The removal loop of `run_test`. */
  method RemoveSourceFiles(fs: FileSystem, files: seq<SourceFile>) returns (fs': FileSystem)
    ensures fs' == RemoveFiles(fs, files)
  {
    fs' := fs;
    var i := 0;
    while i < |files|
      invariant 0 <= i <= |files|
      invariant fs' == RemoveFiles(fs, files[..i])
    {
      assert files[..i + 1][..i] == files[..i];
      fs' := fs' - {files[i].relativePath};
      i := i + 1;
    }
    assert files[..i] == files;
  }

  /** The `strstr` loop of `run_test`: the first expected error stderr lacks, if any. */
  method FindMissingError(errors: seq<string>, stderr: string) returns (missing: Option<string>)
    ensures missing == FirstMissing(errors, stderr)
  {
    var j := 0;
    while j < |errors|
      invariant 0 <= j <= |errors|
      invariant forall k :: 0 <= k < j ==> Contains(stderr, errors[k])
    {
      if !Contains(stderr, errors[j]) {
        return Some(errors[j]);
      }
      j := j + 1;
    }
    return None;
  }

  /**
   * `run_test`: write the case's files, run the compiler, then judge through
   * the gates in order, stopping at the first that fails. `program` is what
   * the produced program would report; it is consulted only when the program
   * is run, and `invoked` lists what was run.
   */
  method RunTest(tc: TestCase, fs: FileSystem, compile: ProcResult, program: ProcResult)
    returns (verdict: Verdict, fs': FileSystem, invoked: seq<Invocation>)
    ensures verdict == Judge(tc, compile, program)
    ensures fs' == CaseEffect(fs, tc, compile, program)
    ensures invoked == Invocations(tc, compile)
  {
    fs' := WriteSourceFiles(fs, tc.sourceFiles);
    invoked := [Invocation(ZigExe, tc.compilerArgs)];
    var line := CompilerLine(tc);

    if |tc.compileErrors| > 0 {
      if compile.exitCode != 0 {
        var missing := FindMissingError(tc.compileErrors, compile.stderr);
        if missing.Some? {
          verdict := Fatal(MissingCompileError(missing.value, line, compile.stderr));
          return;
        }
        verdict := Pass;
        return;
      } else {
        verdict := Fatal(UnexpectedCompileSuccess(line, compile.stderr));
        return;
      }
    }

    if compile.exitCode != 0 {
      verdict := Fatal(CompileFailed(compile.exitCode, line, compile.stderr));
      return;
    }

    invoked := invoked + [Invocation(TmpExePath, tc.programArgs)];
    if program.exitCode != 0 {
      verdict := Fatal(ProgramFailed(program.exitCode, line, ProgramLine(tc), program.stderr));
      return;
    }
    if program.stdout != tc.output {
      verdict := Fatal(OutputMismatch(tc.output, program.stdout, line, ProgramLine(tc)));
      return;
    }

    verdict := Pass;
    fs' := RemoveSourceFiles(fs', tc.sourceFiles);
  }

  /**
   * A compile-failure case passes exactly when the compiler exits non-zero
   * and every expected string occurs somewhere in its stderr.
   */
  lemma CompileFailPassIff(tc: TestCase, compile: ProcResult, program: ProcResult)
    requires IsCompileFail(tc)
    ensures Judge(tc, compile, program) == Pass <==>
              compile.exitCode != 0 &&
              forall k :: 0 <= k < |tc.compileErrors| ==> IsSubstring(tc.compileErrors[k], compile.stderr)
  {
    forall k | 0 <= k < |tc.compileErrors| {
      ContainsIsSubstring(compile.stderr, tc.compileErrors[k]);
    }
  }

  /** A compile-failure case whose compiler exits 0 is fatal, whatever stderr holds. */
  lemma CompileSuccessIsFatal(tc: TestCase, compile: ProcResult, program: ProcResult)
    requires IsCompileFail(tc) && compile.exitCode == 0
    ensures Judge(tc, compile, program) == Fatal(UnexpectedCompileSuccess(CompilerLine(tc), compile.stderr))
  {
  }

  /**
   * When the compiler rejects a compile-failure case, the string reported
   * missing is the first one, in list order, that stderr does not contain.
   */
  lemma ReportsFirstMissing(tc: TestCase, compile: ProcResult, program: ProcResult, e: string)
    requires IsCompileFail(tc) && compile.exitCode != 0
    ensures Judge(tc, compile, program) == Fatal(MissingCompileError(e, CompilerLine(tc), compile.stderr)) <==>
              exists k :: 0 <= k < |tc.compileErrors| && tc.compileErrors[k] == e
                && !IsSubstring(e, compile.stderr)
                && forall j :: 0 <= j < k ==> IsSubstring(tc.compileErrors[j], compile.stderr)
  {
    var errors := tc.compileErrors;
    forall k | 0 <= k < |errors| {
      ContainsIsSubstring(compile.stderr, errors[k]);
    }
    if exists k :: 0 <= k < |errors| && errors[k] == e && !IsSubstring(e, compile.stderr)
                   && forall j :: 0 <= j < k ==> IsSubstring(errors[j], compile.stderr) {
      var k :| 0 <= k < |errors| && errors[k] == e && !IsSubstring(e, compile.stderr)
               && forall j :: 0 <= j < k ==> IsSubstring(errors[j], compile.stderr);
      var r := FirstMissing(errors, compile.stderr);
      assert r.Some?;
      var k' :| 0 <= k' < |errors| && errors[k'] == r.value && !Contains(compile.stderr, errors[k'])
                && forall j :: 0 <= j < k' ==> Contains(compile.stderr, errors[j]);
      assert k' == k;
    }
  }

  /** A compile-failure case never runs the program: only the compiler is started, and the program's report is irrelevant. */
  lemma CompileFailNeverRunsProgram(tc: TestCase, compile: ProcResult, program: ProcResult, other: ProcResult)
    requires IsCompileFail(tc)
    ensures Invocations(tc, compile) == [Invocation(ZigExe, tc.compilerArgs)]
    ensures Judge(tc, compile, program) == Judge(tc, compile, other)
  {
  }

  /** A success case passes exactly when the compiler exits 0, the program exits 0 and its stdout equals the declared output. */
  lemma SuccessPassIff(tc: TestCase, compile: ProcResult, program: ProcResult)
    requires !IsCompileFail(tc)
    ensures Judge(tc, compile, program) == Pass <==>
              compile.exitCode == 0 && program.exitCode == 0 && program.stdout == tc.output
  {
  }

  /** A success case the compiler rejects is fatal before the program is started. */
  lemma CompileFailureStopsSuccessCase(tc: TestCase, compile: ProcResult, program: ProcResult, other: ProcResult)
    requires !IsCompileFail(tc) && compile.exitCode != 0
    ensures Judge(tc, compile, program) == Fatal(CompileFailed(compile.exitCode, CompilerLine(tc), compile.stderr))
    ensures Invocations(tc, compile) == [Invocation(ZigExe, tc.compilerArgs)]
    ensures Judge(tc, compile, program) == Judge(tc, compile, other)
  {
  }

  /**
   * The exit-code gate comes before the output gate: a program that exits
   * non-zero fails phase 2 even when its stdout is exactly the declared output.
   */
  lemma ExitCodeGateFirst(tc: TestCase, compile: ProcResult, program: ProcResult)
    requires !IsCompileFail(tc) && compile.exitCode == 0 && program.exitCode != 0
    ensures Invocations(tc, compile) == [Invocation(ZigExe, tc.compilerArgs), Invocation(TmpExePath, tc.programArgs)]
    ensures Judge(tc, compile, program) ==
              Fatal(ProgramFailed(program.exitCode, CompilerLine(tc), ProgramLine(tc), program.stderr))
  {
  }

  /** The first two failure kinds belong to compile-failure cases, the other three to success cases. */
  lemma FailureKindMatchesCase(tc: TestCase, compile: ProcResult, program: ProcResult)
    requires Judge(tc, compile, program).Fatal?
    ensures var f := Judge(tc, compile, program).failure;
            (f.UnexpectedCompileSuccess? || f.MissingCompileError?) <==> IsCompileFail(tc)
  {
  }

  /**
   * After a case, a passing success case has removed every declared path;
   * any other outcome leaves each declared path holding what was written
   * last to it. Paths the case does not name are never touched.
   */
  lemma FilesAfterCase(fs: FileSystem, tc: TestCase, compile: ProcResult, program: ProcResult)
    ensures var after := CaseEffect(fs, tc, compile, program);
            && (forall p :: p !in Paths(tc.sourceFiles) ==> (p in after <==> p in fs))
            && (forall p :: p in fs && p !in Paths(tc.sourceFiles) ==> after[p] == fs[p])
            && (RemovesFiles(tc, compile, program) ==> after.Keys !! Paths(tc.sourceFiles))
            && (!RemovesFiles(tc, compile, program) ==>
                  forall i :: 0 <= i < |tc.sourceFiles| && LastFor(tc.sourceFiles, i) ==>
                    tc.sourceFiles[i].relativePath in after &&
                    after[tc.sourceFiles[i].relativePath] == tc.sourceFiles[i].sourceCode)
  {
    var files := tc.sourceFiles;
    MaterializeSpec(fs, files);
    forall i | 0 <= i < |files| ensures files[i].relativePath in Paths(files) { }
  }

  /**
   * Running an unmodified case again, with the same process reports, gives
   * the same verdict and leaves the working directory as the first run left it.
   */
  lemma RerunIdempotent(fs: FileSystem, tc: TestCase, compile: ProcResult, program: ProcResult)
    ensures CaseEffect(CaseEffect(fs, tc, compile, program), tc, compile, program) == CaseEffect(fs, tc, compile, program)
  {
    var files := tc.sourceFiles;
    var once := CaseEffect(fs, tc, compile, program);
    MaterializeSpec(fs, files);
    if RemovesFiles(tc, compile, program) {
      assert once == fs - Paths(files);
      MaterializeSpec(once, files);
      var rewritten := Materialize(once, files);
      assert rewritten - Paths(files) == once;
    } else {
      MaterializeIdempotent(fs, files);
    }
  }
}
