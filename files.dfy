/**
 * The working directory as a map from relative path to file contents:
 * writing a case's source files before the compiler runs and removing them
 * after a success case passes (test/run_tests.cpp lines 1002-1007, 1076-1079).
 */
module Files {
  import opened Cases

  type FileSystem = map<string, string>

  /** Every path a list of source files names. */
  function Paths(files: seq<SourceFile>): set<string> {
    set k | 0 <= k < |files| :: files[k].relativePath
  }

  /** Entry `i` is the last one in `files` that names its path. */
  ghost predicate LastFor(files: seq<SourceFile>, i: int)
    requires 0 <= i < |files|
  {
    forall j :: i < j < |files| ==> files[j].relativePath != files[i].relativePath
  }

  /** Write every file in list order, each write overwriting what was at its path. */
  function Materialize(fs: FileSystem, files: seq<SourceFile>): FileSystem
  {
    if files == [] then fs
    else
      var f := files[|files| - 1];
      Materialize(fs, files[..|files| - 1])[f.relativePath := f.sourceCode]
  }

  /** `Paths` of a list is that of the list without its last entry, plus the last entry's path. */
  lemma PathsSnoc(files: seq<SourceFile>)
    requires files != []
    ensures Paths(files) == Paths(files[..|files| - 1]) + {files[|files| - 1].relativePath}
  {
    var init := files[..|files| - 1];
    forall p | p in Paths(files) ensures p in Paths(init) + {files[|files| - 1].relativePath} {
      var k :| 0 <= k < |files| && files[k].relativePath == p;
      if k < |files| - 1 { assert init[k] == files[k]; }
    }
    forall p | p in Paths(init) ensures p in Paths(files) {
      var k :| 0 <= k < |init| && init[k].relativePath == p;
      assert files[k] == init[k];
    }
  }

  /** The writes add exactly the declared paths to what was there. */
  lemma {:induction false} MaterializeKeys(fs: FileSystem, files: seq<SourceFile>)
    ensures Materialize(fs, files).Keys == fs.Keys + Paths(files)
  {
    if files != [] {
      PathsSnoc(files);
      MaterializeKeys(fs, files[..|files| - 1]);
    }
  }

  /** A path no entry names keeps its old content. */
  lemma {:induction false} MaterializeKeeps(fs: FileSystem, files: seq<SourceFile>, p: string)
    requires p in fs && p !in Paths(files)
    ensures p in Materialize(fs, files) && Materialize(fs, files)[p] == fs[p]
  {
    if files != [] {
      PathsSnoc(files);
      MaterializeKeeps(fs, files[..|files| - 1], p);
    }
  }

  /** A path holds the content of the last entry naming it. */
  lemma {:induction false} MaterializeLast(fs: FileSystem, files: seq<SourceFile>, i: int)
    requires 0 <= i < |files| && LastFor(files, i)
    ensures files[i].relativePath in Materialize(fs, files)
    ensures Materialize(fs, files)[files[i].relativePath] == files[i].sourceCode
  {
    if i < |files| - 1 {
      var init := files[..|files| - 1];
      assert init[i] == files[i];
      assert LastFor(init, i);
      MaterializeLast(fs, init, i);
    }
  }

  /**
   * After the writes each declared path holds the content of the last entry
   * naming it, and every other path is as it was.
   */
  lemma MaterializeSpec(fs: FileSystem, files: seq<SourceFile>)
    ensures var r := Materialize(fs, files);
            && r.Keys == fs.Keys + Paths(files)
            && (forall p :: p in fs && p !in Paths(files) ==> r[p] == fs[p])
            && (forall i :: 0 <= i < |files| && LastFor(files, i) ==>
                  r[files[i].relativePath] == files[i].sourceCode)
  {
    MaterializeKeys(fs, files);
    forall p | p in fs && p !in Paths(files) ensures Materialize(fs, files)[p] == fs[p] {
      MaterializeKeeps(fs, files, p);
    }
    forall i | 0 <= i < |files| && LastFor(files, i)
      ensures Materialize(fs, files)[files[i].relativePath] == files[i].sourceCode
    {
      MaterializeLast(fs, files, i);
    }
  }

  /** Remove the file at every declared path; a path already absent is no error. */
  function RemoveFiles(fs: FileSystem, files: seq<SourceFile>): (r: FileSystem)
    ensures r == fs - Paths(files)
  {
    if files == [] then fs
    else
      var init := files[..|files| - 1];
      PathsSnoc(files);
      RemoveFiles(fs, init) - {files[|files| - 1].relativePath}
  }

  /** What a case does to the directory: write its files, then remove them if it passed as a success case. */
  function WriteThenRemove(fs: FileSystem, files: seq<SourceFile>, removes: bool): FileSystem {
    var written := Materialize(fs, files);
    if removes then RemoveFiles(written, files) else written
  }

  /** Writing the same files twice leaves what writing them once leaves. */
  lemma MaterializeIdempotent(fs: FileSystem, files: seq<SourceFile>)
    ensures Materialize(Materialize(fs, files), files) == Materialize(fs, files)
  {
    var once := Materialize(fs, files);
    var twice := Materialize(once, files);
    MaterializeSpec(fs, files);
    MaterializeSpec(once, files);
    forall p | p in twice.Keys ensures p in once && twice[p] == once[p] {
      if p in Paths(files) {
        var k :| 0 <= k < |files| && files[k].relativePath == p;
        LastExists(files, k);
      }
    }
  }

  /** Every declared path has a last entry naming it. */
  lemma {:induction false} LastExists(files: seq<SourceFile>, k: int)
    requires 0 <= k < |files|
    ensures exists i :: k <= i < |files| && files[i].relativePath == files[k].relativePath && LastFor(files, i)
    decreases |files| - k
  {
    if !LastFor(files, k) {
      var j :| k < j < |files| && files[j].relativePath == files[k].relativePath;
      LastExists(files, j);
    }
  }
}
