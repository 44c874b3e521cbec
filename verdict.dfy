/**
 * How the five gate results are put together: the results in execution
 * order, the overall verdict and status string, the listing of failed
 * gates, and the way the command line entry point ends.
 */
module Verdict {
  import opened Text
  import opened Sandbox
  import opened Gates

  /** The five gates. */
  datatype Gate = UnitTests | Lint | TypeCheck | Security | Structure
  {
    /** The key under which the gate's result is stored, reported and listed. */
    function Key(): string
    {
      match this
      case UnitTests => "unit_tests"
      case Lint => "lint"
      case TypeCheck => "type_check"
      case Security => "security"
      case Structure => "structure"
    }
  }

  /** The gates in the order they run and write their results. */
  const RunOrder: seq<Gate> := [UnitTests, Lint, TypeCheck, Security, Structure]

  /** The run order, read as the dict keys the source writes: five distinct strings. */
  lemma RunOrderKeys()
    ensures seq(|RunOrder|, i requires 0 <= i < |RunOrder| => RunOrder[i].Key())
            == ["unit_tests", "lint", "type_check", "security", "structure"]
    ensures forall g: Gate, h: Gate :: g.Key() == h.Key() ==> g == h
  {
  }

  /** Python's `all(results.values())`. */
  predicate AllPassed(results: map<Gate, bool>)
  {
    forall g | g in results :: results[g]
  }

  /** The `overall_status` field of the report. */
  function OverallStatus(results: map<Gate, bool>): (status: string)
    ensures status == "PASSED" || status == "FAILED"
    ensures status == "PASSED" <==> forall g :: g in results ==> results[g]
  {
    if AllPassed(results) then "PASSED" else "FAILED"
  }

  /**
   * The results of one full run, or the exception that cut it short. The
   * lint gate runs before the type-check gate, so its timeout is the one
   * that escapes when both tools time out.
   */
  function RunGates(w: World): Outcome<map<Gate, bool>>
  {
    var lint := LintGate(w.pyFiles, w.ruff);
    var types := TypeCheckGate(w.pyFiles, w.mypy);
    if lint.Raised? then Raised(lint.error)
    else if types.Raised? then Raised(types.error)
    else Returned(GateTable(
      UnitTestsGate(w.pyFiles, w.pytest),
      lint.value,
      types.value,
      SecurityIssues(w.pyFiles) == [],
      StructureGate(w.reportMdExists)))
  }

  /** The results of a completed run, one value per gate. */
  function GateTable(u: bool, l: bool, t: bool, s: bool, st: bool): map<Gate, bool>
  {
    map[UnitTests := u, Lint := l, TypeCheck := t, Security := s, Structure := st]
  }

  /** The value `run_all_gates` returns, or the exception it lets through. */
  function RunVerdict(w: World): Outcome<bool>
  {
    match RunGates(w)
    case Returned(results) => Returned(AllPassed(results))
    case Raised(e) => Raised(e)
  }

  /** The gates `print_failed_gates` lists: the keys whose value is false, in `order`. */
  function FailedGates(order: seq<Gate>, results: map<Gate, bool>): seq<Gate>
  {
    if order == [] then []
    else (if order[0] in results && !results[order[0]] then [order[0]] else []) + FailedGates(order[1..], results)
  }

  /** The listing holds exactly the gates of the order whose value is false, and is no longer than the order. */
  lemma {:induction false} FailedGatesMembers(order: seq<Gate>, results: map<Gate, bool>)
    requires forall g :: g in order ==> g in results
    ensures forall g :: g in FailedGates(order, results) <==> g in order && !results[g]
    ensures |FailedGates(order, results)| <= |order|
  {
    if order != [] {
      FailedGatesMembers(order[1..], results);
      assert forall g :: g in order <==> g == order[0] || g in order[1..];
    }
  }

  /** Three of the five gates never return false, so a completed run passes exactly when the unit-test and security gates do. */
  lemma RunVerdictIsUnitTestsAndSecurity(w: World)
    requires RunGates(w).Returned?
    ensures AllPassed(RunGates(w).value) <==>
              UnitTestsGate(w.pyFiles, w.pytest) && forall i :: 0 <= i < |w.pyFiles| ==> !Flagged(w.pyFiles[i])
  {
    var lint := LintGate(w.pyFiles, w.ruff);
    var types := TypeCheckGate(w.pyFiles, w.mypy);
    assert lint.Returned? && lint.value && types.Returned? && types.value;
    AllPassedOfFive(UnitTestsGate(w.pyFiles, w.pytest), lint.value, types.value,
                    SecurityIssues(w.pyFiles) == [], StructureGate(w.reportMdExists));
    SecurityCleanIff(w.pyFiles);
  }

  /** `all()` over the five gate values is their conjunction. */
  lemma AllPassedOfFive(u: bool, l: bool, t: bool, s: bool, st: bool)
    ensures AllPassed(GateTable(u, l, t, s, st)) <==> u && l && t && s && st
  {
    var m := GateTable(u, l, t, s, st);
    assert m[UnitTests] == u && m[Lint] == l && m[TypeCheck] == t && m[Security] == s && m[Structure] == st;
  }

  /** A completed run holds exactly the five gate keys. */
  lemma RunGatesKeys(w: World)
    requires RunGates(w).Returned?
    ensures forall g :: g in RunGates(w).value <==> g in RunOrder
  {
  }

  /** A run is cut short exactly when lint or type checking has a file to check and its tool times out. */
  lemma RunGatesRaisedIff(w: World)
    ensures RunGates(w).Raised? <==>
              (exists f :: f in w.pyFiles && !Excluded(f)) && (w.ruff == TimedOut || w.mypy == TimedOut)
    ensures RunGates(w).Raised? ==>
              RunGates(w).error == if w.ruff == TimedOut then TimeoutExpired("ruff") else TimeoutExpired("mypy")
  {
    LintGateNeverFails(w.pyFiles, w.ruff);
    TypeCheckGateNeverFails(w.pyFiles, w.mypy);
  }

  /**
   * The listing over the results of a completed run, where lint, type
   * check and structure are true: the unit-test gate, then the security
   * gate, each only when it failed.
   */
  lemma FailedGatesOfTable(u: bool, s: bool)
    ensures FailedGates(RunOrder, GateTable(u, true, true, s, true)) ==
              (if u then [] else [UnitTests]) + (if s then [] else [Security])
  {
    var m := GateTable(u, true, true, s, true);
    var fu, fs := (if u then [] else [UnitTests]), (if s then [] else [Security]);
    // the listing, built up from the last gate to the first
    assert FailedGates([Structure], m) == [];
    assert FailedGates([Security, Structure], m) == fs;
    assert FailedGates([TypeCheck, Security, Structure], m) == fs;
    assert FailedGates([Lint, TypeCheck, Security, Structure], m) == fs;
  }

  /** The listing after a completed run names at most the unit-test and security gates, in that order. */
  lemma FailedGatesOfRun(w: World)
    requires RunGates(w).Returned?
    ensures FailedGates(RunOrder, RunGates(w).value) ==
              (if UnitTestsGate(w.pyFiles, w.pytest) then [] else [UnitTests])
              + (if SecurityIssues(w.pyFiles) == [] then [] else [Security])
  {
    FailedGatesOfTable(UnitTestsGate(w.pyFiles, w.pytest), SecurityIssues(w.pyFiles) == []);
  }

  /** Nothing is listed exactly when every gate in the order passed. */
  lemma FailedGatesEmptyIff(order: seq<Gate>, results: map<Gate, bool>)
    requires forall g :: g in order ==> g in results
    ensures FailedGates(order, results) == [] <==> forall g :: g in order ==> results[g]
  {
    FailedGatesMembers(order, results);
    var failed := FailedGates(order, results);
    if failed != [] {
      assert failed[0] in failed;
    }
  }

  /** How the process ends: an exit status, or an exception that nothing catches. */
  datatype Termination = Exit(code: int) | Uncaught(error: Exception)

  /**
   * The entry point: `argv` includes the program name, so fewer than two
   * entries means the sandbox argument is missing and no gate runs.
   */
  function MainResult(argv: seq<string>, w: World): Termination
  {
    if |argv| < 2 then Exit(1)
    else match RunVerdict(w)
      case Returned(success) => Exit(if success then 0 else 1)
      case Raised(e) => Uncaught(e)
  }

  /** Exit status 0 exactly when the sandbox argument is given, the run completes, and the unit-test and security gates pass. */
  lemma MainExitZeroIff(argv: seq<string>, w: World)
    ensures MainResult(argv, w) == Exit(0) <==>
              |argv| >= 2 && RunGates(w).Returned? &&
              UnitTestsGate(w.pyFiles, w.pytest) && forall i :: 0 <= i < |w.pyFiles| ==> !Flagged(w.pyFiles[i])
  {
    if RunGates(w).Returned? {
      RunVerdictIsUnitTestsAndSecurity(w);
    }
  }

  /** Without the sandbox argument the exit status is 1, whatever the sandbox holds. */
  lemma MissingArgumentExitsOne(argv: seq<string>, w: World)
    requires |argv| < 2
    ensures MainResult(argv, w) == Exit(1)
  {
  }

  /** An empty sandbox passes every gate and exits 0, however the tools would behave. */
  lemma EmptySandboxPasses(argv: seq<string>, reportMdExists: bool, pytest: ToolOutcome, ruff: ToolOutcome, mypy: ToolOutcome)
    requires |argv| >= 2
    ensures var w := World([], reportMdExists, pytest, ruff, mypy);
            RunGates(w).Returned? && AllPassed(RunGates(w).value) &&
            OverallStatus(RunGates(w).value) == "PASSED" && MainResult(argv, w) == Exit(0)
  {
    var w := World([], reportMdExists, pytest, ruff, mypy);
    MainExitZeroIff(argv, w);
  }

  /** A scanned file containing `exec(` fails the security gate, the status, and the exit code, whatever the other gates say. */
  lemma ExecFileFails(argv: seq<string>, w: World, i: int)
    requires |argv| >= 2 && 0 <= i < |w.pyFiles|
    requires !Excluded(w.pyFiles[i]) && Contains(w.pyFiles[i].content, "exec(")
    requires w.ruff != TimedOut && w.mypy != TimedOut
    ensures RunGates(w).Returned? && !RunGates(w).value[Security]
    ensures OverallStatus(RunGates(w).value) == "FAILED"
    ensures MainResult(argv, w) == Exit(1)
  {
    SecurityCleanIff(w.pyFiles);
    assert Flagged(w.pyFiles[i]);
  }

  /**
   * When the sandbox path itself contains `.venv`, lint, type check and the
   * security scan see no file, and the verdict is the unit-test gate's alone.
   */
  lemma VenvSandboxVerdict(root: string, w: World)
    requires Contains(root, ".venv")
    requires forall f :: f in w.pyFiles ==> StartsWith(f.path, root)
    ensures RunVerdict(w) == Returned(UnitTestsGate(w.pyFiles, w.pytest))
  {
    VenvSandboxExcludesAll(root, w.pyFiles);
    SecurityCleanIff(w.pyFiles);
    RunVerdictIsUnitTestsAndSecurity(w);
  }
}
