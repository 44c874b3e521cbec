/**
 * What a run of the quality gates observes outside its own process: the
 * Python files under the sandbox, whether REPORT.md exists, and how each
 * external tool invocation ends. Traversal, file reading and process
 * launching are not modelled; their results are these values.
 */
module Sandbox {
  import opened Text

  /**
   * A file that a recursive glob under the sandbox yields: its full path as
   * `str()` renders it (sandbox path included), its final component, and its
   * text decoded as UTF-8 with undecodable bytes dropped.
   */
  datatype SourceFile = SourceFile(path: string, name: string, content: string)

  /**
   * How one `subprocess.run` call ends: the child's exit code, a
   * FileNotFoundError (the launched executable does not exist), or a
   * TimeoutExpired after the call's timeout.
   */
  datatype ToolOutcome = Exited(code: int) | NotFound | TimedOut

  /**
   * The environment of one run: `pyFiles` is what the recursive glob for
   * `*.py` yields, in traversal order; `pytest`, `ruff` and `mypy` are what
   * the three tool invocations would end in if they were made.
   */
  datatype World = World(
    pyFiles: seq<SourceFile>,
    reportMdExists: bool,
    pytest: ToolOutcome,
    ruff: ToolOutcome,
    mypy: ToolOutcome)

  /** The exclusion test of the lint, type-check and security gates: a raw substring test on the whole path. */
  predicate Excluded(f: SourceFile)
  {
    Contains(f.path, ".venv")
  }

  /** The glob pattern `test_*.py` applied to the file name. */
  predicate IsTestFile(f: SourceFile)
  {
    StartsWith(f.name, "test_") && EndsWith(f.name, ".py")
  }

  /** The files the recursive glob for `test_*.py` finds; no `.venv` exclusion applies. */
  function TestFiles(pyFiles: seq<SourceFile>): seq<SourceFile>
  {
    if pyFiles == [] then []
    else (if IsTestFile(pyFiles[0]) then [pyFiles[0]] else []) + TestFiles(pyFiles[1..])
  }

  /** The test-file list holds exactly the files whose name matches `test_*.py`. */
  lemma {:induction false} TestFilesMembers(pyFiles: seq<SourceFile>)
    ensures forall f :: f in TestFiles(pyFiles) <==> f in pyFiles && IsTestFile(f)
    ensures TestFiles(pyFiles) == [] <==> forall f :: f in pyFiles ==> !IsTestFile(f)
  {
    if pyFiles != [] {
      TestFilesMembers(pyFiles[1..]);
      assert forall f :: f in pyFiles <==> f == pyFiles[0] || f in pyFiles[1..];
    }
  }

  /** The file list of the lint and type-check gates: the `*.py` files whose path does not contain `.venv`. */
  function CheckedFiles(pyFiles: seq<SourceFile>): seq<SourceFile>
  {
    if pyFiles == [] then []
    else (if Excluded(pyFiles[0]) then [] else [pyFiles[0]]) + CheckedFiles(pyFiles[1..])
  }

  /** The checked list holds exactly the files whose path does not contain `.venv`, in traversal order. */
  lemma {:induction false} CheckedFilesMembers(pyFiles: seq<SourceFile>)
    ensures forall f :: f in CheckedFiles(pyFiles) <==> f in pyFiles && !Excluded(f)
    ensures CheckedFiles(pyFiles) == [] <==> forall f :: f in pyFiles ==> Excluded(f)
  {
    if pyFiles != [] {
      CheckedFilesMembers(pyFiles[1..]);
      assert forall f :: f in pyFiles <==> f == pyFiles[0] || f in pyFiles[1..];
    }
  }

  /**
   * The exclusion is not a directory-segment match: when the sandbox path
   * itself contains `.venv`, every file below it is excluded and the
   * checked file list is empty.
   */
  lemma VenvSandboxExcludesAll(root: string, pyFiles: seq<SourceFile>)
    requires Contains(root, ".venv")
    requires forall f :: f in pyFiles ==> StartsWith(f.path, root)
    ensures forall f :: f in pyFiles ==> Excluded(f)
    ensures CheckedFiles(pyFiles) == []
  {
    forall f | f in pyFiles
      ensures Excluded(f)
    {
      ContainsExtends(root, f.path, ".venv");
    }
    CheckedFilesMembers(pyFiles);
  }

  /** A path component that merely contains `.venv` (here `my.venv-tools`) excludes the file too. */
  lemma VenvSubstringExcludes(content: string)
    ensures Excluded(SourceFile("/srv/my.venv-tools/app.py", "app.py", content))
  {
    var p := "/srv/my.venv-tools/app.py";
    assert OccursAt(p, ".venv", 7);
    ContainsIff(p, ".venv");
  }

  /** Test discovery ignores the exclusion: a test file inside `.venv` is still a test file. */
  lemma TestFilesIgnoreVenv(content: string)
    ensures TestFiles([SourceFile("/srv/.venv/lib/test_x.py", "test_x.py", content)]) != []
    ensures CheckedFiles([SourceFile("/srv/.venv/lib/test_x.py", "test_x.py", content)]) == []
  {
    var f := SourceFile("/srv/.venv/lib/test_x.py", "test_x.py", content);
    assert IsTestFile(f);
    assert OccursAt(f.path, ".venv", 5);
    ContainsIff(f.path, ".venv");
    TestFilesMembers([f]);
    CheckedFilesMembers([f]);
  }
}
