/**
 * The gate runner object: it fills its results one gate at a time, scans
 * files for the security gate in a loop, and writes the report; and the
 * command line entry point that drives it.
 */
module Runner {
  import opened Text
  import opened Sandbox
  import opened Gates
  import opened Verdict

  datatype Option<T> = None | Some(value: T)

  /** QUALITY_REPORT.json as written, without its timestamp; `gateOrder` is the key order of `gates`. */
  datatype Report = Report(
    sandbox: string,
    gateOrder: seq<Gate>,
    gates: map<Gate, bool>,
    overallStatus: string,
    version: string)

  const Version: string := "1.0.0"

  /**
   * Recording the gate at position `j` of the run order into results whose
   * keys are the first gates of that order keeps them a prefix of it.
   */
  lemma RecordInOrder(order: seq<Gate>, j: nat)
    requires |order| <= |RunOrder| && order == RunOrder[..|order|]
    requires j < |RunOrder| && j <= |order|
    ensures RunOrder[j] in order <==> j < |order|
    ensures (if RunOrder[j] in order then order else order + [RunOrder[j]])
            == RunOrder[..if j < |order| then |order| else j + 1]
  {
    if j < |order| {
      assert order[j] == RunOrder[j];
    } else {
      assert RunOrder[..j + 1] == order + [RunOrder[j]];
    }
  }

  /** Writing all five gates over results that hold only gate keys replaces every earlier value. */
  lemma OverwriteAllGates(before: map<Gate, bool>, u: bool, l: bool, t: bool, s: bool, st: bool)
    requires forall g :: g in before ==> g in RunOrder
    ensures before[UnitTests := u][Lint := l][TypeCheck := t][Security := s][Structure := st]
            == GateTable(u, l, t, s, st)
  {
  }

  class QualityGates {
    const sandbox: string
    /** `self.results`, an insertion-ordered dict: its keys in insertion order, and the key-to-value map. */
    var gateOrder: seq<Gate>
    var results: map<Gate, bool>
    /** The report this object wrote last, if it wrote one. */
    var report: Option<Report>

    /** The results hold the first gates of the run order, each once. */
    ghost predicate Valid()
      reads this
    {
      && |gateOrder| <= |RunOrder|
      && gateOrder == RunOrder[..|gateOrder|]
      && forall g :: g in results <==> g in gateOrder
    }

    constructor (sandboxPath: string)
      ensures Valid()
      ensures sandbox == sandboxPath && gateOrder == [] && results == map[] && report == None
    {
      sandbox := sandboxPath;
      gateOrder := [];
      results := map[];
      report := None;
    }

    /**
     * `self.results[name] = passed` for the gate at position `j` of the run
     * order: a new key goes last, an existing key keeps its place.
     */
    method Record(j: nat, passed: bool)
      requires Valid() && j < |RunOrder| && j <= |gateOrder|
      modifies this`gateOrder, this`results
      ensures Valid()
      ensures results == old(results)[RunOrder[j] := passed]
      ensures |gateOrder| == if j < old(|gateOrder|) then old(|gateOrder|) else j + 1
    {
      var name := RunOrder[j];
      RecordInOrder(gateOrder, j);
      if name !in results {
        gateOrder := gateOrder + [name];
      }
      results := results[name := passed];
    }

    /**
     * Runs the five gates in order and writes the report. From any valid
     * state (a fresh object, or one a previous run left behind) a completed
     * run leaves exactly the five keys in run order; a timeout escaping
     * from lint or type checking leaves the gates recorded so far and writes
     * no report.
     */
    method RunAllGates(w: World) returns (r: Outcome<bool>)
      requires Valid()
      modifies this`gateOrder, this`results, this`report
      ensures Valid()
      ensures r == RunVerdict(w)
      ensures RunGates(w).Returned? ==>
                && gateOrder == RunOrder
                && results == RunGates(w).value
                && report == Some(Report(sandbox, RunOrder, results, OverallStatus(results), Version))
      ensures RunGates(w).Raised? ==> report == old(report)
      ensures LintGate(w.pyFiles, w.ruff).Raised? ==>
                results == old(results)[UnitTests := UnitTestsGate(w.pyFiles, w.pytest)]
      ensures !LintGate(w.pyFiles, w.ruff).Raised? && TypeCheckGate(w.pyFiles, w.mypy).Raised? ==>
                results == old(results)[UnitTests := UnitTestsGate(w.pyFiles, w.pytest)][Lint := true]
    {
      ghost var before := results;
      var unitTests := UnitTestsGate(w.pyFiles, w.pytest);
      Record(0, unitTests);

      var lint := LintGate(w.pyFiles, w.ruff);
      if lint.Raised? {
        return Raised(lint.error);
      }
      Record(1, lint.value);

      var typeCheck := TypeCheckGate(w.pyFiles, w.mypy);
      if typeCheck.Raised? {
        return Raised(typeCheck.error);
      }
      Record(2, typeCheck.value);

      var secure, _ := RunSecurityScan(w.pyFiles);
      Record(3, secure);

      Record(4, StructureGate(w.reportMdExists));
      assert gateOrder == RunOrder[..5] == RunOrder;

      OverwriteAllGates(before, unitTests, lint.value, typeCheck.value, secure, StructureGate(w.reportMdExists));
      assert RunGates(w) == Returned(results);
      WriteVerifiableLog();
      r := Returned(AllPassed(results));
    }

    /**
     * Gate 4: scans every `*.py` file whose path does not contain `.venv`
     * and collects the warning lines it prints; the gate passes when there
     * are none.
     */
    method RunSecurityScan(pyFiles: seq<SourceFile>) returns (passed: bool, issues: seq<string>)
      ensures issues == SecurityIssues(pyFiles)
      ensures passed <==> issues == []
    {
      issues := [];
      for i := 0 to |pyFiles|
        invariant issues == SecurityIssues(pyFiles[..i])
      {
        assert pyFiles[..i + 1][..i] == pyFiles[..i];
        var f := pyFiles[i];
        if Excluded(f) {
          continue;
        }
        if Contains(f.content, "eval(") {
          issues := issues + [f.name + ": eval() gefunden"];
        }
        if Contains(f.content, "exec(") {
          issues := issues + [f.name + ": exec() gefunden"];
        }
        // a dynamic import next to `os` is deliberately not reported
      }
      assert pyFiles[..|pyFiles|] == pyFiles;
      passed := issues == [];
    }

    /** Writes the report: the results as they stand, their status, and the fixed version. */
    method WriteVerifiableLog()
      modifies this`report
      ensures report == Some(Report(sandbox, gateOrder, results, OverallStatus(results), Version))
    {
      report := Some(Report(sandbox, gateOrder, results, OverallStatus(results), Version));
    }

    /** The gates `print_failed_gates` lists, in results order. */
    function FailedGateNames(): (failed: seq<Gate>)
      requires Valid()
      reads this
      ensures forall g :: g in failed <==> g in results && !results[g]
    {
      FailedGatesMembers(gateOrder, results);
      FailedGates(gateOrder, results)
    }
  }

  /**
   * The entry point, given the argument vector and the environment: the
   * termination `main` reaches and the report left behind, if any. Without
   * the sandbox argument no object is built, no gate runs and nothing is
   * written.
   */
  method RunMain(argv: seq<string>, w: World) returns (t: Termination, written: Option<Report>)
    ensures t == MainResult(argv, w)
    ensures written.Some? <==> |argv| >= 2 && RunGates(w).Returned?
    ensures written.Some? ==>
              && written.value.sandbox == argv[1]
              && written.value.gateOrder == RunOrder
              && written.value.gates == RunGates(w).value
              && (written.value.overallStatus == "PASSED" <==> t == Exit(0))
  {
    if |argv| < 2 {
      return Exit(1), None;
    }
    var gates := new QualityGates(argv[1]);
    var success := gates.RunAllGates(w);
    written := gates.report;
    match success
    case Returned(ok) => t := Exit(if ok then 0 else 1);
    case Raised(e) => t := Uncaught(e);
  }

  /**
   * Running the gates twice with the same files, `REPORT.md` flag and tool
   * outcomes gives the same verdict and the same report, timestamp aside.
   */
  method RunTwice(sandboxPath: string, w: World) returns (first: Outcome<bool>, second: Outcome<bool>, firstReport: Option<Report>, secondReport: Option<Report>)
    ensures first == second && firstReport == secondReport
    ensures firstReport.Some? <==> RunGates(w).Returned?
  {
    var gates := new QualityGates(sandboxPath);
    first := gates.RunAllGates(w);
    firstReport := gates.report;
    second := gates.RunAllGates(w);
    secondReport := gates.report;
  }
}
