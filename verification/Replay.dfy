// agent_bench/runner/replay.py: comparing a run with a bundle or with another run.
module Replay {
  import opened Values
  import opened Text
  import opened Artifacts
  import opened Bundle

  // ---- the relation behind the checks ------------------------------------------------

  // The parts of a run that the checks compare.
  datatype View = View(success: Json, termination: Json, failureType: Json, sandbox: Json, trace: seq<Json>)

  function RunView(r: Json): View
  {
    View(r.Get("success"), r.Get("termination_reason"), r.Get("failure_type"), r.Get("sandbox"), TraceOf(r))
  }

  // load_bundle_trace: the rows of tool_calls.jsonl, without blank lines.
  function LoadRows(lines: seq<Line>): (rows: seq<Json>)
    requires forall i | 0 <= i < |lines| :: !lines[i].Garbled?
  {
    if lines == [] then []
    else if lines[0].Row? then [lines[0].row] + LoadRows(lines[1..])
    else LoadRows(lines[1..])
  }

  // A directory whose manifest and trace load.
  predicate Loads(files: map<string, Doc>)
  {
    && MANIFEST in files && files[MANIFEST].Document?
    && TOOL_CALLS in files && files[TOOL_CALLS].Rows?
    && forall i | 0 <= i < |files[TOOL_CALLS].lines| :: !files[TOOL_CALLS].lines[i].Garbled?
  }

  function BundleView(files: map<string, Doc>): View
    requires Loads(files)
  {
    RunView(files[MANIFEST].json).(trace := LoadRows(files[TOOL_CALLS].lines))
  }

  // The shape the checks ask for, so that none of their attribute accesses raises.
  predicate Shaped(v: View)
  {
    && ListsOfText(v.sandbox)
    && forall i | 0 <= i < |v.trace| ::
      v.trace[i].Obj? && (v.trace[i].Has("io_audit") ==> v.trace[i].Get("io_audit").Arr?)
  }

  predicate RunShaped(r: Json)
  {
    Writable(r) && Shaped(RunView(r))
  }

  // _compare_step finds no divergence.
  predicate SameStep(a: Json, b: Json)
  {
    && a.GetOr("action", Obj(map[])) == b.GetOr("action", Obj(map[]))
    && a.Get("result") == b.Get("result")
    && a.GetOr("io_audit", Arr([])) == b.GetOr("io_audit", Arr([]))
  }

  predicate StepAgrees(a: Json, b: Json, sandbox: Json)
    requires HasLists(sandbox) && ListsOfText(sandbox)
  {
    && a.Has("io_audit") && b.Has("io_audit")
    && SameStep(a, b)
    && AllAllowed(DeclaredRoots(sandbox), DeclaredAllowlist(sandbox), AuditOf(a))
  }

  // What the replay rules say about two runs, without any order of checks.
  predicate Agrees(a: View, b: View)
    requires ListsOfText(a.sandbox)
  {
    && a.success == b.success
    && a.termination == b.termination
    && a.failureType == b.failureType
    && HasLists(a.sandbox)
    && a.sandbox == b.sandbox
    && |a.trace| == |b.trace|
    && forall i | 0 <= i < |a.trace| :: StepAgrees(a.trace[i], b.trace[i], a.sandbox)
  }

  // ---- the checks --------------------------------------------------------------------

  datatype Report = Report(ok: bool, errors: seq<string>)

  method CompareStep(baseline: Json, other: Json, step: nat) returns (errors: seq<string>)
    ensures errors == [] <==> SameStep(baseline, other)
  {
    errors := [];
    if baseline.GetOr("action", Obj(map[])) != other.GetOr("action", Obj(map[])) {
      errors := errors + ["step " + NatText(step) + ": action mismatch"];
    }
    if baseline.Get("result") != other.Get("result") {
      errors := errors + ["step " + NatText(step) + ": result mismatch"];
    }
    if baseline.GetOr("io_audit", Arr([])) != other.GetOr("io_audit", Arr([])) {
      errors := errors + ["step " + NatText(step) + ": io_audit mismatch"];
    }
  }

  method ValidateSandbox(sandbox: Json, name: string) returns (errors: seq<string>)
    ensures errors == [] <==> HasLists(sandbox)
  {
    if !sandbox.Obj? {
      return [name + " missing sandbox declaration"];
    }
    errors := [];
    if !sandbox.Get("filesystem_roots").Arr? || !sandbox.Get("network_hosts").Arr? {
      errors := [name + " sandbox must include filesystem_roots and network_hosts lists"];
    }
  }

  // The loop over zip(baseline_trace, other_trace). Audits are only checked while no error
  // has been found so far.
  method CompareTraces(a: View, b: View, before: seq<string>) returns (errors: seq<string>)
    requires Shaped(a) && Shaped(b)
    requires before == [] ==> HasLists(a.sandbox) && a.sandbox == b.sandbox
    ensures before != [] ==> errors != []
    ensures before == [] ==>
      (errors == [] <==> forall i | 0 <= i < |a.trace| && i < |b.trace| :: StepAgrees(a.trace[i], b.trace[i], a.sandbox))
  {
    hide SameStep, AllAllowed, DeclaredRoots, DeclaredAllowlist, ListsOfText;
    errors := before;
    var n := if |a.trace| < |b.trace| then |a.trace| else |b.trace|;
    for i := 0 to n
      invariant before != [] ==> errors != []
      invariant before == [] ==> (errors == [] <==> forall k | 0 <= k < i :: StepAgrees(a.trace[k], b.trace[k], a.sandbox))
    {
      var x, y := a.trace[i], b.trace[i];
      if !x.Has("io_audit") {
        errors := errors + ["first step " + NatText(i + 1) + ": missing io_audit"];
      }
      if !y.Has("io_audit") {
        errors := errors + ["second step " + NatText(i + 1) + ": missing io_audit"];
      }
      var differences := CompareStep(x, y, i + 1);
      errors := errors + differences;
      if errors == [] {
        assert AuditOf(x) == AuditOf(y) by { SameAudit(x, y); }
        var first := CheckAudit(DeclaredRoots(a.sandbox), DeclaredAllowlist(a.sandbox), AuditOf(x), "first step " + NatText(i + 1));
        var second := CheckAudit(DeclaredRoots(b.sandbox), DeclaredAllowlist(b.sandbox), AuditOf(y), "second step " + NatText(i + 1));
        errors := errors + first + second;
      }
    }
  }

  lemma SameAudit(x: Json, y: Json)
    requires SameStep(x, y) && x.Has("io_audit") && y.Has("io_audit")
    ensures AuditOf(x) == AuditOf(y)
  {
  }

  // check_replay: the sandboxes first, then the run results, then the steps.
  method CheckReplay(files: map<string, Doc>, rerun: Json) returns (report: Report)
    requires Loads(files) && Shaped(BundleView(files)) && RunShaped(rerun)
    ensures report.ok == (report.errors == [])
    ensures report.ok == Agrees(BundleView(files), RunView(rerun))
  {
    hide StepAgrees, LoadRows, ListsOfText, Writable;
    var baseline, run := BundleView(files), RunView(rerun);
    var errors := ValidateSandbox(baseline.sandbox, "manifest");
    var runErrors := ValidateSandbox(run.sandbox, "run");
    errors := errors + runErrors;
    if errors == [] {
      if baseline.sandbox != run.sandbox {
        errors := ["sandbox mismatch -- manifest vs run"];
      }
    }
    if baseline.success != run.success {
      errors := errors + ["success mismatch"];
    }
    if baseline.termination != run.termination {
      errors := errors + ["termination_reason mismatch"];
    }
    if baseline.failureType != run.failureType {
      errors := errors + ["failure_type mismatch"];
    }
    if |baseline.trace| != |run.trace| {
      errors := errors + ["step count mismatch"];
    }
    errors := CompareTraces(baseline, run, errors);
    report := Report(errors == [], errors);
  }

  // check_record: the run results first, then the sandboxes, then the steps.
  method CheckRecord(a: Json, b: Json) returns (report: Report)
    requires RunShaped(a) && RunShaped(b)
    ensures report.ok == (report.errors == [])
    ensures report.ok == Agrees(RunView(a), RunView(b))
  {
    hide StepAgrees, ListsOfText, Writable;
    var one, two := RunView(a), RunView(b);
    var errors: seq<string> := [];
    if one.success != two.success {
      errors := errors + ["success mismatch"];
    }
    if one.termination != two.termination {
      errors := errors + ["termination_reason mismatch"];
    }
    if one.failureType != two.failureType {
      errors := errors + ["failure_type mismatch"];
    }
    var firstErrors := ValidateSandbox(one.sandbox, "run1");
    var secondErrors := ValidateSandbox(two.sandbox, "run2");
    errors := errors + firstErrors + secondErrors;
    if errors == [] && one.sandbox != two.sandbox {
      errors := ["sandbox mismatch -- run1 vs run2"];
    }
    if |one.trace| != |two.trace| {
      errors := errors + ["step count mismatch"];
    }
    errors := CompareTraces(one, two, errors);
    report := Report(errors == [], errors);
  }

  // A count that strict mode can compare.
  predicate Countable(j: Json)
  {
    j.Null? || j.Int?
  }

  // rerun > baseline, when both are there
  predicate Exceeds(baseline: Json, rerun: Json)
    requires Countable(baseline) && Countable(rerun)
  {
    baseline.Int? && rerun.Int? && rerun.n > baseline.n
  }

  // The shape check_strict asks for, so that it does not raise.
  predicate StrictShaped(files: map<string, Doc>, rerun: Json)
  {
    && Loads(files) && Shaped(BundleView(files)) && RunShaped(rerun)
    && Countable(files[MANIFEST].json.Get("steps_used")) && Countable(rerun.Get("steps_used"))
    && Countable(files[MANIFEST].json.Get("tool_calls_used")) && Countable(rerun.Get("tool_calls_used"))
  }

  // Agreement, and no count above the baseline.
  predicate AgreesStrictly(files: map<string, Doc>, rerun: Json)
    requires StrictShaped(files, rerun)
  {
    && Agrees(BundleView(files), RunView(rerun))
    && !Exceeds(files[MANIFEST].json.Get("steps_used"), rerun.Get("steps_used"))
    && !Exceeds(files[MANIFEST].json.Get("tool_calls_used"), rerun.Get("tool_calls_used"))
  }

  // check_strict: replay, and no count above the baseline.
  method CheckStrict(files: map<string, Doc>, rerun: Json) returns (report: Report)
    requires StrictShaped(files, rerun)
    ensures report.ok == (report.errors == [])
    ensures report.ok == AgreesStrictly(files, rerun)
  {
    hide Agrees, Shaped, LoadRows, Writable;
    report := CheckReplay(files, rerun);
    var errors, manifest := report.errors, files[MANIFEST].json;
    if Exceeds(manifest.Get("steps_used"), rerun.Get("steps_used")) {
      errors := errors + ["steps_used exceeded baseline"];
    }
    if Exceeds(manifest.Get("tool_calls_used"), rerun.Get("tool_calls_used")) {
      errors := errors + ["tool_calls_used exceeded baseline"];
    }
    report := Report(errors == [], errors);
  }

  // ---- reading the rows back ---------------------------------------------------------------

  // Rows are read in order and blank lines are skipped, wherever they stand.
  lemma {:induction false} LoadRowsJoin(a: seq<Line>, b: seq<Line>, row: Json)
    requires forall line <- a + b :: !line.Garbled?
    ensures (forall line <- a :: !line.Garbled?) && forall line <- b :: !line.Garbled?
    ensures LoadRows(a + b) == LoadRows(a) + LoadRows(b)
    ensures LoadRows([Blank]) == [] && LoadRows([Row(row)]) == [row]
  {
    forall line | line in a ensures line in a + b {}
    forall line | line in b ensures line in a + b {}
    assert [Blank][1..] == [] && [Row(row)][1..] == [];
    if a == [] {
      assert a + b == b;
    } else {
      assert (a + b)[1..] == a[1..] + b;
      forall line | line in a[1..] + b ensures line in a + b {}
      LoadRowsJoin(a[1..], b, row);
    }
  }
}
