/**
 * The declared test cases and the registry that holds them, in the order
 * they were declared (test/run_tests.cpp lines 15-96).
 */
module Cases {

  /** Scratch path of the primary source file every case writes. */
  const TmpSourcePath: string := ".tmp_source.zig"
  /** Scratch path of the executable the compiler produces. */
  const TmpExePath: string := "./.tmp_exe"
  /** The compiler under test. */
  const ZigExe: string := "./zig"

  /** Compiler arguments of a case that must compile and run. */
  const SimpleCompilerArgs: seq<string> :=
    ["build", TmpSourcePath, "--export", "exe", "--name", "test",
     "--output", TmpExePath, "--release", "--strip", "--color", "on"]

  /** Compiler arguments of a case that must be rejected: no export, name or colour flags. */
  const CompileFailCompilerArgs: seq<string> :=
    ["build", TmpSourcePath, "--output", TmpExePath, "--release", "--strip"]

  /** One file a case writes before the compiler runs. */
  datatype SourceFile = SourceFile(relativePath: string, sourceCode: string)

  /**
   * A declared case. The builders fill it in field by field and hand out the
   * object itself, so files can still be attached after it is registered.
   * `output` is the C null pointer for a compile-failure case; the model
   * keeps the empty string there.
   */
  class TestCase {
    var caseName: string
    var output: string
    var sourceFiles: seq<SourceFile>
    var compileErrors: seq<string>
    var compilerArgs: seq<string>
    var programArgs: seq<string>

    /** A zero-filled case, as the allocator hands it out. */
    constructor ()
      ensures caseName == "" && output == ""
      ensures sourceFiles == [] && compileErrors == [] && compilerArgs == [] && programArgs == []
    {
      caseName, output := "", "";
      sourceFiles, compileErrors, compilerArgs, programArgs := [], [], [], [];
    }

    /** Attach one more source file at the end; every earlier file, the primary included, stays. */
    method AddSourceFile(path: string, source: string)
      modifies this
      ensures sourceFiles == old(sourceFiles) + [SourceFile(path, source)]
      ensures caseName == old(caseName) && output == old(output)
      ensures compileErrors == old(compileErrors) && compilerArgs == old(compilerArgs)
      ensures programArgs == old(programArgs)
    {
      sourceFiles := sourceFiles + [SourceFile(path, source)];
    }
  }

  /** The suite's case list, in declaration order. */
  class Registry {
    var cases: seq<TestCase>

    constructor ()
      ensures cases == []
    {
      cases := [];
    }

    /**
     * Declare a case that must compile, exit 0 and print exactly `output`;
     * it becomes the new last entry.
     */
    method AddSimpleCase(name: string, source: string, output: string) returns (tc: TestCase)
      modifies this
      ensures fresh(tc)
      ensures cases == old(cases) + [tc]
      ensures tc.caseName == name && tc.output == output
      ensures tc.sourceFiles == [SourceFile(TmpSourcePath, source)]
      ensures tc.compilerArgs == SimpleCompilerArgs
      ensures tc.programArgs == [] && tc.compileErrors == []
    {
      tc := new TestCase();
      tc.caseName := name;
      tc.output := output;
      tc.sourceFiles := [SourceFile(TmpSourcePath, source)];
      tc.compilerArgs := SimpleCompilerArgs;
      cases := cases + [tc];
    }

    /**
     * Declare a case the compiler must reject with every one of `errors`
     * somewhere in its stderr; the strings are stored in argument order and
     * the case becomes the new last entry.
     */
    method AddCompileFailCase(name: string, source: string, errors: seq<string>) returns (tc: TestCase)
      modifies this
      ensures fresh(tc)
      ensures cases == old(cases) + [tc]
      ensures tc.caseName == name && tc.output == ""
      ensures tc.sourceFiles == [SourceFile(TmpSourcePath, source)]
      ensures tc.compileErrors == errors
      ensures tc.compilerArgs == CompileFailCompilerArgs && tc.programArgs == []
    {
      tc := new TestCase();
      tc.caseName := name;
      tc.sourceFiles := [SourceFile(TmpSourcePath, source)];
      var i := 0;
      while i < |errors|
        modifies tc
        invariant 0 <= i <= |errors|
        invariant tc.compileErrors == errors[..i]
        invariant cases == old(cases)
        invariant tc.caseName == name && tc.output == "" && tc.programArgs == []
        invariant tc.sourceFiles == [SourceFile(TmpSourcePath, source)]
      {
        tc.compileErrors := tc.compileErrors + [errors[i]];
        i := i + 1;
      }
      tc.compilerArgs := CompileFailCompilerArgs;
      cases := cases + [tc];
    }
  }
}
