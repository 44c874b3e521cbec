/**
 * The pass/fail decision of each of the five gates, as a function of the
 * files under the sandbox and of how the external tool invocation ends.
 */
module Gates {
  import opened Text
  import opened Sandbox

  /** The one exception that can escape a gate: a tool's TimeoutExpired, tagged with the tool. */
  datatype Exception = TimeoutExpired(tool: string)

  /** What a gate call does: return a value, or raise an exception to its caller. */
  datatype Outcome<T> = Returned(value: T) | Raised(error: Exception)

  /**
   * Gate 1. Passes when there is no test file; otherwise passes when the
   * runner exits 0 or cannot be launched, and fails on a non-zero exit or a
   * timeout (both caught).
   */
  function UnitTestsGate(pyFiles: seq<SourceFile>, pytest: ToolOutcome): bool
  {
    if TestFiles(pyFiles) == [] then true
    else match pytest
      case Exited(code) => code == 0
      case NotFound => true
      case TimedOut => false
  }

  /**
   * Gate 2. A non-zero exit takes the source's else branch, which passes as
   * well. Only FileNotFoundError is caught, so a timeout escapes.
   */
  function LintGate(pyFiles: seq<SourceFile>, ruff: ToolOutcome): Outcome<bool>
  {
    if CheckedFiles(pyFiles) == [] then Returned(true)
    else match ruff
      case Exited(code) => if code == 0 then Returned(true) else Returned(true)
      case NotFound => Returned(true)
      case TimedOut => Raised(TimeoutExpired("ruff"))
  }

  /** Gate 3. Like the lint gate, except that the exit code is never examined at all. */
  function TypeCheckGate(pyFiles: seq<SourceFile>, mypy: ToolOutcome): Outcome<bool>
  {
    if CheckedFiles(pyFiles) == [] then Returned(true)
    else match mypy
      case Exited(_) => Returned(true)
      case NotFound => Returned(true)
      case TimedOut => Raised(TimeoutExpired("mypy"))
  }

  /**
   * With no test file anywhere (`.venv` included) the unit-test gate passes
   * whatever the runner would do; otherwise it passes exactly when the
   * runner exits 0 or cannot be launched.
   */
  lemma UnitTestsGateDecision(pyFiles: seq<SourceFile>, pytest: ToolOutcome)
    ensures (forall f :: f in pyFiles ==> !IsTestFile(f)) ==> UnitTestsGate(pyFiles, pytest)
    ensures (exists f :: f in pyFiles && IsTestFile(f)) ==>
              (UnitTestsGate(pyFiles, pytest) <==> pytest == Exited(0) || pytest == NotFound)
  {
    TestFilesMembers(pyFiles);
  }

  /**
   * The lint gate never returns false: with no checked file, for every exit
   * code and for a missing tool it passes. It raises exactly when a file
   * outside `.venv` exists and ruff times out.
   */
  lemma LintGateNeverFails(pyFiles: seq<SourceFile>, ruff: ToolOutcome)
    ensures LintGate(pyFiles, ruff).Raised? <==> (exists f :: f in pyFiles && !Excluded(f)) && ruff == TimedOut
    ensures LintGate(pyFiles, ruff).Raised? ==> LintGate(pyFiles, ruff).error == TimeoutExpired("ruff")
    ensures LintGate(pyFiles, ruff).Returned? ==> LintGate(pyFiles, ruff).value
  {
    CheckedFilesMembers(pyFiles);
  }

  /** The type-check gate, likewise: never false, and raising exactly on a mypy timeout with a file outside `.venv`. */
  lemma TypeCheckGateNeverFails(pyFiles: seq<SourceFile>, mypy: ToolOutcome)
    ensures TypeCheckGate(pyFiles, mypy).Raised? <==> (exists f :: f in pyFiles && !Excluded(f)) && mypy == TimedOut
    ensures TypeCheckGate(pyFiles, mypy).Raised? ==> TypeCheckGate(pyFiles, mypy).error == TimeoutExpired("mypy")
    ensures TypeCheckGate(pyFiles, mypy).Returned? ==> TypeCheckGate(pyFiles, mypy).value
  {
    CheckedFilesMembers(pyFiles);
  }

  /** Gate 5. A missing REPORT.md only draws a warning: the gate passes either way. */
  function StructureGate(reportMdExists: bool): (passed: bool)
    ensures passed
  {
    if !reportMdExists then true else true
  }

  /** Gate 4, for one file: an issue when the text contains `eval(`, then one when it contains `exec(`. */
  function FileIssues(f: SourceFile): seq<string>
  {
    (if Contains(f.content, "eval(") then [f.name + ": eval() gefunden"] else [])
    + (if Contains(f.content, "exec(") then [f.name + ": exec() gefunden"] else [])
    // `__import__` together with `os` is looked for as well, but never reported
  }

  /**
   * A file adds at most two issues, none exactly when its text has neither
   * pattern, and the eval issue before the exec issue when it has both.
   */
  lemma FileIssuesShape(f: SourceFile)
    ensures |FileIssues(f)| <= 2
    ensures FileIssues(f) == [] <==> !Contains(f.content, "eval(") && !Contains(f.content, "exec(")
    ensures Contains(f.content, "eval(") && Contains(f.content, "exec(") ==>
              FileIssues(f) == [f.name + ": eval() gefunden", f.name + ": exec() gefunden"]
  {
  }

  /** What one file adds to the issue list of the scan: nothing when its path contains `.venv`. */
  function ScanFile(f: SourceFile): seq<string>
  {
    if Excluded(f) then [] else FileIssues(f)
  }

  /** A file the security scan reports: not excluded, and its text contains `eval(` or `exec(`. */
  predicate Flagged(f: SourceFile)
  {
    !Excluded(f) && (Contains(f.content, "eval(") || Contains(f.content, "exec("))
  }

  /** The lines `step` gives for each file, concatenated in traversal order. */
  function Concat(files: seq<SourceFile>, step: SourceFile -> seq<string>): seq<string>
    decreases |files|
  {
    if files == [] then []
    else Concat(files[..|files| - 1], step) + step(files[|files| - 1])
  }

  /** The issues of the security scan over `pyFiles`, in traversal order. */
  function SecurityIssues(pyFiles: seq<SourceFile>): seq<string>
  {
    Concat(pyFiles, ScanFile)
  }

  lemma {:induction false} ConcatAppend(a: seq<SourceFile>, b: seq<SourceFile>, step: SourceFile -> seq<string>)
    ensures Concat(a + b, step) == Concat(a, step) + Concat(b, step)
    decreases |b|
  {
    if b == [] {
      assert a + b == a;
    } else {
      var b' := b[..|b| - 1];
      assert (a + b)[..|a + b| - 1] == a + b';
      assert (a + b)[|a + b| - 1] == b[|b| - 1];
      ConcatAppend(a, b', step);
    }
  }

  lemma {:induction false} ConcatEmptyIff(files: seq<SourceFile>, step: SourceFile -> seq<string>)
    ensures Concat(files, step) == [] <==> forall i :: 0 <= i < |files| ==> step(files[i]) == []
    decreases |files|
  {
    if files != [] {
      var init := files[..|files| - 1];
      ConcatEmptyIff(init, step);
      assert forall i :: 0 <= i < |init| ==> init[i] == files[i];
    }
  }

  lemma {:induction false} ConcatBound(files: seq<SourceFile>, step: SourceFile -> seq<string>)
    requires forall f :: |step(f)| <= 2
    ensures |Concat(files, step)| <= 2 * |files|
    decreases |files|
  {
    if files != [] {
      ConcatBound(files[..|files| - 1], step);
    }
  }

  /** A file yields no issue exactly when it is not flagged. */
  lemma ScanFileCleanIff(f: SourceFile)
    ensures ScanFile(f) == [] <==> !Flagged(f)
    ensures |ScanFile(f)| <= 2
  {
    FileIssuesShape(f);
  }

  /** Scanning two runs of files one after the other lists the first run's issues first. */
  lemma SecurityIssuesAppend(a: seq<SourceFile>, b: seq<SourceFile>)
    ensures SecurityIssues(a + b) == SecurityIssues(a) + SecurityIssues(b)
  {
    ConcatAppend(a, b, ScanFile);
  }

  /** The scan finds no issue exactly when no file is flagged. */
  lemma SecurityCleanIff(pyFiles: seq<SourceFile>)
    ensures SecurityIssues(pyFiles) == [] <==> forall i :: 0 <= i < |pyFiles| ==> !Flagged(pyFiles[i])
  {
    ConcatEmptyIff(pyFiles, ScanFile);
    forall i | 0 <= i < |pyFiles|
      ensures ScanFile(pyFiles[i]) == [] <==> !Flagged(pyFiles[i])
    {
      ScanFileCleanIff(pyFiles[i]);
    }
  }

  /** Each file adds at most two issues, so the list is at most twice as long as the file list. */
  lemma SecurityIssuesBound(pyFiles: seq<SourceFile>)
    ensures |SecurityIssues(pyFiles)| <= 2 * |pyFiles|
  {
    forall f: SourceFile
      ensures |ScanFile(f)| <= 2
    {
      ScanFileCleanIff(f);
    }
    ConcatBound(pyFiles, ScanFile);
  }

  /** A file whose path contains `.venv` never changes the scan, wherever it stands in the traversal. */
  lemma ExcludedFileIgnored(a: seq<SourceFile>, f: SourceFile, b: seq<SourceFile>)
    requires Excluded(f)
    ensures SecurityIssues(a + [f] + b) == SecurityIssues(a + b)
  {
    calc {
      SecurityIssues(a + [f] + b);
      { SecurityIssuesAppend(a + [f], b); }
      SecurityIssues(a + [f]) + SecurityIssues(b);
      { SecurityIssuesAppend(a, [f]); SecurityIssuesSingle(f); }
      SecurityIssues(a) + ScanFile(f) + SecurityIssues(b);
      { assert ScanFile(f) == []; }
      SecurityIssues(a) + SecurityIssues(b);
      { SecurityIssuesAppend(a, b); }
      SecurityIssues(a + b);
    }
  }

  /** A single file's scan is that file's step. */
  lemma SecurityIssuesSingle(f: SourceFile)
    ensures SecurityIssues([f]) == ScanFile(f)
  {
    assert [f][..0] == [];
    assert Concat([f], ScanFile) == Concat([], ScanFile) + ScanFile(f);
  }

  /** Dynamic import together with `os` is recognised but not reported. */
  lemma ImportOsNotReported(f: SourceFile)
    requires Contains(f.content, "__import__") && Contains(f.content, "os")
    requires !Contains(f.content, "eval(") && !Contains(f.content, "exec(")
    ensures SecurityIssues([f]) == []
  {
    SecurityIssuesSingle(f);
  }

  /** The text `# exec(` contains `exec(` but not `eval(`. */
  lemma CommentedExecText()
    ensures Contains("# exec(", "exec(") && !Contains("# exec(", "eval(")
  {
    var c := "# exec(";
    assert OccursAt(c, "exec(", 2);
    ContainsIff(c, "exec(");
    // the scan for `eval(` steps past each start position without a match
    assert c[..5][0] == '#' && c[1..][..5][0] == ' ' && c[1..][1..][..5][2] == 'e';
    assert "eval("[0] == 'e' && "eval("[2] == 'a';
    assert |c[1..][1..][1..]| < 5;
  }

  /** An `exec(` anywhere in a scanned file, even inside a comment, makes the gate fail. */
  lemma ExecInCommentFlagged(path: string, name: string)
    requires !Contains(path, ".venv")
    ensures SecurityIssues([SourceFile(path, name, "# exec(")]) == [name + ": exec() gefunden"]
  {
    CommentedExecText();
    SecurityIssuesSingle(SourceFile(path, name, "# exec("));
  }
}
