# Acceptance-test engine of the early Zig compiler, in Dafny

This project models the test engine of `test/run_tests.cpp`. That engine declares
source programs with their expected outcome. It drives the compiler `./zig` and
the programs the compiler produces, and it stops the suite at the first case
whose behaviour differs from its declaration.

The engine has five parts, and the model has one module for each, plus two helper modules:

- `Cases` (`cases.dfy`): the case record and the global case list. `TestCase` is a
  class, because the builders and `add_source_file` fill its fields in through a
  pointer, even after the case is registered. `Registry` is the class that holds
  the ordered list of cases.
- `Files` (`files.dfy`): the working directory as a map from path to contents. It
  covers writing a case's files (each write overwrites) and removing them.
- `Verifier` (`verifier.dfy`): `run_test`. `Judge` is the pure verdict on a case,
  given the compiler's and the program's `(exit code, stdout, stderr)`. `RunTest`
  is the imperative procedure. It has the write loop, the `strstr` loop over the
  expected errors and the removal loop, and it is proved equal to `Judge`, to
  `CaseEffect` (the directory afterwards) and to `Invocations` (the processes
  started). When the source calls `exit(1)`, the model returns a `Fatal` verdict
  that carries the printed reproduction context.
- `Runner` (`runner.dfy`): `run_all_tests`. `Plan` turns every case into a pure
  `Step`: its progress line, its verdict, its files, and whether it removes them.
  `Schedule` is the fail-fast run over a visiting order. The up-counting and
  down-counting loops are proved equal to `Schedule` over `VisitOrder`.
- `Harness` (`harness.dfy`): `main`. It parses the arguments, declares the success
  cases before the compile-failure cases, runs the suite and cleans up. The
  fixture sources are parameters (`SimpleDecl`, `FailDecl`).
- `Text` (`text.dfy`): `strstr` as `Contains`, and the command-line rendering of
  `print_compiler_invocation` as `CommandLine`. `Wrappers` (`wrappers.dfy`)
  holds `Option`.

Process results are inputs. The runner takes one `CaseOutcome` (compiler result,
program result) per registered case, indexed by the case's original position.
The program result is only consulted when the program would be started.

Three behaviours of the code worth stating:

- Cleanup runs only after a complete run. `exit(1)` and the usage path both skip
  it, because `cleanup` is not an `atexit` handler.
- A case is treated as a compile-failure case exactly when its error list is
  non-empty. `add_compile_fail_case` with count 0 therefore produces a case that
  is judged as a success case (`Harness.EmptyErrorListJudgedAsSuccessCase`).
- A case is not immutable once registered: `add_source_file` is called on a case
  that is already in the list.

## Model

| member | source | states |
|---|---|---|
| `Cases.TestCase.constructor` | test/run_tests.cpp:20-27 | a freshly allocated case has every field empty, as the zero-filling allocator leaves it |
| `Cases.TestCase.AddSourceFile` | test/run_tests.cpp:34-38 | the file list grows by exactly one entry, placed at the end; every earlier entry, the primary included, and every other field are unchanged |
| `Cases.Registry.constructor` | test/run_tests.cpp:29 | the case list starts empty |
| `Cases.Registry.AddSimpleCase` | test/run_tests.cpp:40-66 | the new case is the new last entry and earlier entries are kept; it has exactly one source file `(".tmp_source.zig", source)`, the given name and output, the 12-argument compiler vector with export, name and colour flags, and no program arguments or expected errors |
| `Cases.Registry.AddCompileFailCase` | test/run_tests.cpp:68-96 | the new case is the new last entry; its expected errors are the given strings in argument order; its compiler vector is the 6 arguments without export, name or colour flags |
| `Text.ContainsIsSubstring` | test/run_tests.cpp:1018 | the `strstr` scan answers yes exactly when some position of stderr holds the expected string (both directions; the empty string is always found) |
| `Text.CommandLineSplits` | test/run_tests.cpp:993-999 | the printed command line reads back, split on spaces, as the executable followed by its arguments in order, whenever no argument contains a space |
| `Text.CommandLineLength` | test/run_tests.cpp:993-999 | the printed line starts with the executable and is exactly as long as the executable, one space per argument and the arguments' characters together |
| `Text.SplitWord` | test/run_tests.cpp:993-999 | a word without spaces reads back as that word alone (the base case of reading a command line back) |
| `Text.SplitAppendWord` | test/run_tests.cpp:995-997 | printing one more argument after a space adds exactly that argument as a new last field |
| `Verifier.PrintCompilerInvocation` | test/run_tests.cpp:993-999 | the line printed is `./zig`, then each compiler argument after one space, then a newline |
| `Files.MaterializeKeys` | test/run_tests.cpp:1002-1007 | the writes add exactly the declared paths to the directory |
| `Files.MaterializeKeeps` | test/run_tests.cpp:1002-1007 | a path no source file names keeps its old content |
| `Files.MaterializeLast` | test/run_tests.cpp:1002-1007 | a declared path holds the content of the last source file naming it |
| `Files.MaterializeSpec` | test/run_tests.cpp:1002-1007 | after the writes, each declared path holds the content of the last entry naming it; all other paths keep their old content |
| `Files.RemoveFiles` | test/run_tests.cpp:1076-1079 | the removal loop leaves the directory minus every declared path; a path already absent is no error |
| `Files.MaterializeIdempotent` | test/run_tests.cpp:1002-1007 | writing the same files twice leaves the same directory as writing them once |
| `Verifier.WriteSourceFiles` | test/run_tests.cpp:1002-1007 | the write loop produces exactly the directory `Materialize` describes |
| `Verifier.FindMissingError` | test/run_tests.cpp:1016-1027 | the `strstr` loop returns the first expected error that stderr lacks, or none when all are present |
| `Verifier.FirstMissing` | test/run_tests.cpp:1016-1027 | none means stderr contains every expected error; otherwise the result is the first expected error, in list order, that stderr does not contain, and every earlier one is contained |
| `Verifier.RemoveSourceFiles` | test/run_tests.cpp:1076-1079 | the removal loop produces exactly the directory `RemoveFiles` describes |
| `Verifier.RunTest` | test/run_tests.cpp:1001-1080 | the verdict is `Judge` of the case and the two process results; the new directory is `CaseEffect`; the processes started are `Invocations` (the compiler, then the program only for a success case whose compile exited 0) |
| `Verifier.CompileFailPassIff` | test/run_tests.cpp:1014-1035 | a compile-failure case passes exactly when the compiler exit code is non-zero and every expected string is a substring of stderr |
| `Verifier.CompileSuccessIsFatal` | test/run_tests.cpp:1029-1034 | a compile-failure case whose compiler exits 0 is fatal, whatever stderr says |
| `Verifier.ReportsFirstMissing` | test/run_tests.cpp:1016-1026 | when the compiler rejects a compile-failure case, the string it reports missing is the first one, in list order, that stderr does not contain (both directions) |
| `Verifier.CompileFailNeverRunsProgram` | test/run_tests.cpp:1014-1035 | for a compile-failure case only the compiler is started, and the verdict does not depend on what the program would report |
| `Verifier.SuccessPassIff` | test/run_tests.cpp:1037-1074 | a success case passes exactly when the compiler exits 0, the program exits 0 and its stdout equals the declared output exactly |
| `Verifier.CompileFailureStopsSuccessCase` | test/run_tests.cpp:1037-1042 | a success case whose compiler exits non-zero is fatal with that exit code, and the program is not started |
| `Verifier.ExitCodeGateFirst` | test/run_tests.cpp:1046-1058 | a success case whose program exits non-zero fails the exit-code gate even when stdout matches, and both processes were started |
| `Verifier.FailureKindMatchesCase` | test/run_tests.cpp:1014-1074 | the failure kinds "unexpected compile success" and "missing error" arise exactly for compile-failure cases; the other three kinds arise exactly for success cases |
| `Verifier.FilesAfterCase` | test/run_tests.cpp:1002-1007 | a passing success case leaves none of its declared paths; any other outcome leaves each declared path with the content written last; paths the case does not name are untouched by the engine's own writes and removals |
| `Verifier.RerunIdempotent` | test/run_tests.cpp:1001-1080 | running an unmodified case a second time with the same process results leaves the same directory as running it once |
| `Runner.VisitOrderSpec` | test/run_tests.cpp:1083-1096 | the runner visits every index below the case count exactly once, strictly rising in forward mode and strictly falling in reverse mode |
| `Runner.VisitedAt` | test/run_tests.cpp:1084-1091 | case `i` is visited at position `i` going forward and at position `n - 1 - i` in reverse |
| `Runner.Advance` | test/run_tests.cpp:1085-1088 | one loop iteration: a fatal case makes the run end there with its failure, a passing case leaves the same run with one more progress line printed |
| `Runner.VisitCase` | test/run_tests.cpp:1085-1088 | one loop iteration prints the case's line and yields its plan step's verdict and resulting directory |
| `Runner.RunAllTests` | test/run_tests.cpp:1082-1099 | the result is `Schedule` of the cases' plan over the forward or reverse visiting order |
| `Runner.RunReverse` | test/run_tests.cpp:1084-1089 | the down-counting loop produces `Schedule` over the reverse order |
| `Runner.RunForward` | test/run_tests.cpp:1091-1096 | the up-counting loop produces `Schedule` over the forward order |
| `Runner.ScheduleShape` | test/run_tests.cpp:1082-1099 | a run prints one line per visited case, in visiting order, and every visited case but the last passed; it either visited every index and reports the total case count, or ended on the failure of the last case visited |
| `Runner.CompletesIffAllPass` | test/run_tests.cpp:1082-1099 | in either mode, a run prints the total exactly when every case passes |
| `Runner.CompletionOrderIndependent` | test/run_tests.cpp:1083-1097 | a forward run completes exactly when a reverse run does |
| `Runner.ProgressAt` | test/run_tests.cpp:1083-1096 | the `k`-th progress line of a run is that of the `k`-th case in visiting order, and a complete run prints one line per case |
| `Runner.NumberedLines` | test/run_tests.cpp:1086 | progress lines taken from numbered cases in visiting order carry distinct 1-based indices, each naming its own case, and all cases when all are taken |
| `Runner.VisitsEachCaseOnce` | test/run_tests.cpp:1086 | every printed index is a 1-based original index with that case's line; no case is visited twice; a complete run visits every case |
| `Runner.AbortsAtFirstFatal` | test/run_tests.cpp:1082-1099 | a forward run stops at the lowest-indexed fatal case and a reverse run at the highest-indexed one, and nothing past it in visiting order is run |
| `Harness.ParseArgs` | test/run_tests.cpp:1112-1119 | the usage result comes exactly when some argument after the program name is not `--reverse`, and it names `argv[0]`; otherwise the run is reversed exactly when at least one argument is given |
| `Harness.DeclareSimple` | test/run_tests.cpp:146-180 | a success case is declared as the new last entry and its extra files are attached after the primary, in order |
| `Harness.Register` | test/run_tests.cpp:1120-1121 | every success case is registered, in declaration order, before every compile-failure case |
| `Harness.Cleanup` | test/run_tests.cpp:1101-1104 | the scratch source and scratch executable are absent afterwards and every other file is unchanged (over the files the engine itself writes) |
| `Harness.Run` | test/run_tests.cpp:1111-1124 | a bad argument exits 1 with nothing registered, run or removed; otherwise the cases are registered and run in the requested direction; a complete run exits 0 after cleanup; a fatal verdict exits 1 without cleanup |
| `Harness.EmptyErrorListJudgedAsSuccessCase` | test/run_tests.cpp:68-96 | a compile-failure declaration with no expected strings is judged as a success case: the program is started, and the case passes exactly when the program's stdout equals the stored output, which the model holds as the empty string |
| `Harness.MultipleFilesRemovedOnPass` | test/run_tests.cpp:146-180 | the case with a primary source and two attached files, once passed, leaves none of the three files behind |

## Left out

- `os_exec_process`: spawning processes. What it reports is an input (`ProcResult`), chosen per case.
- `os_write_file` and `remove()` are not modelled as I/O. They are updates of the `FileSystem` map; write errors are not modelled.
- `allocate`, `ZigList` and `Buf` are library code that is not part of this model. Lists are sequences and buffers are strings.
- The fixture literals (test/run_tests.cpp:98-991) are data whose meaning depends on the compiler. They enter as `SimpleDecl` and `FailDecl` parameters of `Harness.Run`.
- The wording of the `printf` banners, and the `OK` printed after each passing case, are not modelled. Verdicts, progress lines, the total and the command lines are modelled.
- The usage message goes to stderr. The model keeps only the program name it mentions.
- `Text.ContainsIsSubstring`: `strstr` stops at the first NUL byte of stderr. The model treats stderr as a whole string, so a diagnostic that appears after a NUL byte counts as found.
- Timing, hangs and interleaving of a child's output streams are not modelled. The engine waits for each process without a timeout.
- The state the compiler and the program read (a stale `./.tmp_exe`, for instance) is not modelled. Reverse mode exists to expose such order dependence, but process results here are fixed per case, so the verdicts cannot depend on the order.
- `Cases.Registry.AddCompileFailCase`: leaves `output` as a null pointer in the source. The model stores the empty string there, which is only read for a case with no expected errors.
- Files written by the compiler and by the program are not in the `FileSystem` map. Each compile creates `./.tmp_exe` (the `--output` argument, test/run_tests.cpp:56 and 86), and a program may write files of its own. So `Verifier.FilesAfterCase`, `Verifier.CaseEffect` and `Harness.Cleanup` speak of the engine's own writes and removals only; `Harness.Cleanup` removing `./.tmp_exe` matters in the model only when the starting directory already held it.
- `Harness.EmptyErrorListJudgedAsSuccessCase`: its last clause holds of the empty-string stand-in for the null `output`. In the source, a compile-failure case with no expected errors reaches `buf_eql_str` with that null pointer (test/run_tests.cpp:1060) and, on a mismatch, `printf("%s")` with it (test/run_tests.cpp:1069), which is undefined behaviour rather than a comparison with the empty string. The model does not capture what the program then does.
