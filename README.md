# Quality gates: a Dafny model

`quality-gates.py` is a local quality-gate runner. It runs five gates against a
sandbox directory, in a fixed order and without stopping early:

1. unit tests,
2. lint,
3. type check,
4. a lexical security scan,
5. a structure check.

It records one boolean per gate in an insertion-ordered dict. It then writes
`QUALITY_REPORT.json` with an `overall_status` of `PASSED` or `FAILED`, lists the
failed gates, and exits 0 or 1.

This project models that decision and aggregation logic. The outside world is an
input, a `World` value:

- the files the recursive `*.py` glob yields, in traversal order, each with its
  full path string, its name and its decoded text;
- whether `REPORT.md` exists;
- how each tool invocation would end: `Exited(code)`, `NotFound` (the
  `FileNotFoundError` that `subprocess.run` raises) or `TimedOut`.

Modules:

- `Text` (text.dfy): Python's `in` on strings, and the prefix/suffix tests behind
  the glob patterns.
- `Sandbox` (sandbox.dfy): the input records, the `.venv` exclusion, and the two
  file lists.
- `Gates` (gates.dfy): each gate's decision and the security scan's issue list.
- `Verdict` (verdict.dfy): the results of a full run, the overall status, the
  failed-gate listing and how `main` ends. The five gates are the enumeration
  `Gate`; its `Key()` is the string key the source stores and reports.
- `Runner` (runner.dfy): the `QualityGates` class. Its methods fill the results
  one key at a time, scan files in a loop and write the report. The module also
  holds the entry point.

The lint and type-check gates catch only `FileNotFoundError`. A tool timeout in
those two gates therefore escapes. The model returns it as `Raised(TimeoutExpired(tool))`.
When that happens, the run stops before the remaining gates, no report is
written, and `main` ends with `Uncaught`.

The results dict is modelled by two class fields:

- `gateOrder`: the keys in insertion order;
- `results`: the map.

`Valid()` says the keys are a prefix of the run order. From any valid state, a
completed run leaves exactly the five keys in run order.

Three behaviours of the code are easy to misread:

- The `.venv` exclusion is a raw substring test on the whole path string. It is
  not a directory-segment match, so a sandbox path containing `.venv` excludes
  every file.
- A lint or type-check timeout is not a pass. It escapes as an exception.
- "Tool not found" is a `FileNotFoundError` for the `python` executable itself.
  When the `pytest`, `ruff` or `mypy` module is missing, the interpreter exits
  non-zero. The model treats that as an `Exited` outcome, so a missing pytest
  module fails the unit-test gate.

## Model

| member | source | states |
|---|---|---|
| `Text.ContainsIff` | quality-gates.py:164-168 | the left-to-right scan used for Python's `in` finds a pattern exactly when it occurs at some index of the string |
| `Sandbox.TestFilesMembers` | quality-gates.py:63 | the test-file list holds exactly the `*.py` files whose name matches `test_*.py`, `.venv` or not, and is empty exactly when there is none |
| `Sandbox.CheckedFilesMembers` | quality-gates.py:97-98 | the lint/type-check file list holds exactly the `*.py` files whose path does not contain `.venv`, and is empty exactly when all are excluded |
| `Sandbox.VenvSandboxExcludesAll` | quality-gates.py:98 | if the sandbox path contains `.venv`, every file below it is excluded and the checked list is empty |
| `Sandbox.VenvSubstringExcludes` | quality-gates.py:158 | a path component that only contains `.venv` (`my.venv-tools`) excludes its files too |
| `Sandbox.TestFilesIgnoreVenv` | quality-gates.py:63-67 | a test file under `.venv` still counts as a test file but is not a checked file |
| `Gates.UnitTestsGateDecision` | quality-gates.py:58-91 | with no test file the gate passes whatever the tool does; otherwise it passes exactly on exit 0 or tool not found |
| `Gates.LintGateNeverFails` | quality-gates.py:93-122 | never returns false, for every exit code and a missing tool; it raises `TimeoutExpired("ruff")` exactly when a non-`.venv` file exists and ruff times out |
| `Gates.TypeCheckGateNeverFails` | quality-gates.py:124-148 | never returns false, whatever the exit code; it raises `TimeoutExpired("mypy")` exactly when a non-`.venv` file exists and mypy times out |
| `Gates.StructureGate` | quality-gates.py:181-192 | passes whether or not `REPORT.md` exists |
| `Gates.FileIssuesShape` | quality-gates.py:163-170 | a file adds at most two issues; none exactly when it has neither `eval(` nor `exec(`; with both, the eval issue comes first |
| `Gates.SecurityIssuesAppend` | quality-gates.py:157-167 | issues follow file traversal order: scanning `a` then `b` lists `a`'s issues, then `b`'s |
| `Gates.ScanFileCleanIff` | quality-gates.py:158-167 | one file adds no issue exactly when it is excluded or has neither pattern, and never more than two |
| `Gates.SecurityCleanIff` | quality-gates.py:172-179 | the scan finds no issue exactly when no non-`.venv` file contains `eval(` or `exec(` |
| `Gates.SecurityIssuesBound` | quality-gates.py:164-167 | the issue list is at most twice as long as the file list |
| `Gates.ExcludedFileIgnored` | quality-gates.py:158-159 | a file whose path contains `.venv` never changes the issues, wherever it stands |
| `Gates.ImportOsNotReported` | quality-gates.py:168-170 | a file with `__import__` and `os` but neither `eval(` nor `exec(` adds no issue |
| `Gates.ExecInCommentFlagged` | quality-gates.py:166-167 | `exec(` inside a comment is still reported, as exactly one exec issue |
| `Verdict.RunOrderKeys` | quality-gates.py:27-39 | the run order, read through `Key()`, is `unit_tests`, `lint`, `type_check`, `security`, `structure`, and no two gates share a key |
| `Verdict.OverallStatus` | quality-gates.py:200 | the status is `PASSED` or `FAILED`, and `PASSED` exactly when every recorded gate passed |
| `Verdict.FailedGatesMembers` | quality-gates.py:207-212 | the listing holds exactly the gates of the results order whose value is false |
| `Verdict.RunVerdictIsUnitTestsAndSecurity` | quality-gates.py:27-45 | a completed run passes exactly when the unit-test gate passes and no scanned file is flagged |
| `Verdict.RunGatesKeys` | quality-gates.py:27-39 | a completed run records exactly the five gate keys |
| `Verdict.RunGatesRaisedIff` | quality-gates.py:27-33 | a run is cut short exactly when a non-`.venv` file exists and ruff or mypy times out; ruff's timeout wins |
| `Verdict.FailedGatesOfRun` | quality-gates.py:207-212 | after a completed run the listing is `unit_tests` (if failed), then `security` (if failed), and nothing else |
| `Verdict.FailedGatesEmptyIff` | quality-gates.py:210-212 | nothing is listed exactly when every gate in the order passed |
| `Verdict.MainExitZeroIff` | quality-gates.py:215-225 | exit 0 exactly when the argument is given, the run completes, and unit tests and security pass |
| `Verdict.MissingArgumentExitsOne` | quality-gates.py:216-218 | without the sandbox argument the exit status is 1 |
| `Verdict.EmptySandboxPasses` | quality-gates.py:20-56 | an empty sandbox passes all gates with status `PASSED` and exits 0, whatever the tools would do |
| `Verdict.ExecFileFails` | quality-gates.py:164-176 | a scanned file containing `exec(` fails the security gate, gives status `FAILED` and exit 1 |
| `Verdict.VenvSandboxVerdict` | quality-gates.py:157-159 | with `.venv` in the sandbox path, the verdict is the unit-test gate's alone |
| `Runner.QualityGates.constructor` | quality-gates.py:15-18 | a new runner has empty results and has written no report |
| `Runner.QualityGates.Record` | quality-gates.py:27-39 | a dict assignment: the value is set, a new key goes last, an existing key keeps its place |
| `Runner.QualityGates.RunAllGates` | quality-gates.py:20-56 | returns the verdict of the run; a completed run leaves exactly the five keys in order and writes the report; a timeout leaves the gates recorded so far and writes nothing |
| `Runner.QualityGates.RunSecurityScan` | quality-gates.py:150-179 | the loop builds the issue list of the scan, and the gate passes exactly when it is empty |
| `Runner.QualityGates.WriteVerifiableLog` | quality-gates.py:194-205 | the report holds the sandbox path, the results in order, their overall status and version `1.0.0` |
| `Runner.QualityGates.FailedGateNames` | quality-gates.py:207-212 | the listing holds exactly the recorded gates that failed |
| `Runner.RunMain` | quality-gates.py:215-225 | ends as the entry point does; a report is left exactly when the argument is given and the run completes, and its status is `PASSED` exactly on exit 0 |
| `Runner.RunTwice` | quality-gates.py:20-45 | two runs with the same files, `REPORT.md` flag and tool outcomes give the same verdict and the same report |

## Left out

- Process launching: the commands, flags, working directory, output capture and timeout values (60 s, 30 s). Each invocation is a `ToolOutcome` input.
- Other exceptions `subprocess.run` may raise are not modelled. Examples are a permission error, or a decoding error from `text=True`. They would escape like a timeout.
- Directory traversal, glob matching and file reading are given as the `pyFiles` sequence. The model does not check that each `name` is the last component of its `path`.
- The four globs (quality-gates.py:63, 97, 128, 157) all see the one `pyFiles` list: the file list is assumed unchanged between gates, although the sandbox's own tests, run by the first gate, could create or delete `.py` files before the later globs run.
- The test-file glob is a second traversal. It is modelled as a filter over the same `*.py` list, which finds the same files.
- Case-insensitive matching on Windows is not modelled, nor are directories whose name ends in `.py`.
- Undecodable bytes dropped by `read_text(errors='ignore')` are left out. A read error that raises is not modelled either.
- Whether `REPORT.md` exists is a boolean input.
- The report's timestamp and its JSON text are not modelled. `Path` normalisation of the sandbox string is not modelled either.
- A failure while writing `QUALITY_REPORT.json` is not modelled. It would raise after all gates have run.
- Console output is left out, including the banners and per-gate messages. The security warning lines are returned as the `issues` result of `RunSecurityScan`.
- How the interpreter turns an uncaught exception into a traceback and a status is outside the source. The model ends such a run as `Uncaught`.
