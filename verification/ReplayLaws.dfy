// The replay relation is an equivalence on the runs it accepts, does not notice the disk,
// and accepts every re-run of an emitted artifact that verifies.
module ReplayLaws {
  import opened Values
  import opened EnvSpec
  import opened RunnerSpec
  import opened RunnerLaws
  import opened Artifacts
  import opened Bundle
  import opened BundleLaws
  import opened SandboxLaws
  import opened Replay
  import Paths
  import Network

  // ---- the relation --------------------------------------------------------------------

  lemma AgreesSymmetric(a: View, b: View)
    requires ListsOfText(a.sandbox) && ListsOfText(b.sandbox)
    requires Agrees(a, b)
    ensures Agrees(b, a)
  {
    hide AllAllowed, DeclaredRoots, DeclaredAllowlist, ListsOfText;
    forall i | 0 <= i < |b.trace| ensures StepAgrees(b.trace[i], a.trace[i], b.sandbox) {
      assert StepAgrees(a.trace[i], b.trace[i], a.sandbox);
      SameAudit(a.trace[i], b.trace[i]);
    }
  }

  lemma AgreesTransitive(a: View, b: View, c: View)
    requires ListsOfText(a.sandbox) && ListsOfText(b.sandbox)
    requires Agrees(a, b) && Agrees(b, c)
    ensures Agrees(a, c)
  {
    hide AllAllowed, DeclaredRoots, DeclaredAllowlist, ListsOfText;
    forall i | 0 <= i < |a.trace| ensures StepAgrees(a.trace[i], c.trace[i], a.sandbox) {
      assert StepAgrees(a.trace[i], b.trace[i], a.sandbox);
      assert StepAgrees(b.trace[i], c.trace[i], b.sandbox);
    }
  }

  // A run agrees with itself exactly when it declares a sandbox that holds all its audits.
  lemma AgreesReflexive(a: View)
    requires ListsOfText(a.sandbox)
    ensures Agrees(a, a) <==>
      HasLists(a.sandbox) && forall i | 0 <= i < |a.trace| ::
        a.trace[i].Has("io_audit") && AllAllowed(DeclaredRoots(a.sandbox), DeclaredAllowlist(a.sandbox), AuditOf(a.trace[i]))
  {
    hide AllAllowed, DeclaredRoots, DeclaredAllowlist, ListsOfText;
    if Agrees(a, a) {
      forall i | 0 <= i < |a.trace|
        ensures a.trace[i].Has("io_audit") && AllAllowed(DeclaredRoots(a.sandbox), DeclaredAllowlist(a.sandbox), AuditOf(a.trace[i]))
      {
        assert StepAgrees(a.trace[i], a.trace[i], a.sandbox);
      }
    }
  }

  // ---- through the disk ------------------------------------------------------------------

  // Every entry carries what the runner writes into it.
  predicate RunnerShaped(r: Json)
  {
    && RunShaped(r)
    && forall i | 0 <= i < |TraceOf(r)| ::
      TraceOf(r)[i].Has("action") && TraceOf(r)[i].Has("result") && TraceOf(r)[i].Has("io_audit")
  }

  lemma {:induction false} LoadWritten(trace: seq<Json>, lines: seq<Line>)
    requires |lines| == |trace| && forall i | 0 <= i < |trace| :: lines[i] == Row(RowOf(trace[i]))
    ensures |LoadRows(lines)| == |trace|
    ensures forall i | 0 <= i < |trace| :: LoadRows(lines)[i] == RowOf(trace[i])
  {
    hide RowOf;
    if trace != [] {
      LoadWritten(trace[1..], lines[1..]);
      var rest := LoadRows(lines[1..]);
      forall i | 0 <= i < |trace| ensures LoadRows(lines)[i] == RowOf(trace[i]) {
        if i > 0 {
          assert rest[i - 1] == RowOf(trace[1..][i - 1]);
        }
      }
    }
  }

  lemma RowKeeps(entry: Json, other: Json, sandbox: Json)
    requires entry.Has("action") && entry.Has("result") && entry.Has("io_audit")
    requires HasLists(sandbox) && ListsOfText(sandbox)
    ensures StepAgrees(RowOf(entry), other, sandbox) <==> StepAgrees(entry, other, sandbox)
  {
    hide AllAllowed, DeclaredRoots, DeclaredAllowlist, ListsOfText;
  }

  lemma RowShaped(entry: Json)
    requires entry.Obj? && (entry.Has("io_audit") ==> entry.Get("io_audit").Arr?)
    ensures RowOf(entry).Obj? && RowOf(entry).Get("io_audit").Arr?
  {
  }

  lemma ManifestKeeps(r: Json)
    ensures ManifestOf(r).Get("success") == r.Get("success")
    ensures ManifestOf(r).Get("termination_reason") == r.Get("termination_reason")
    ensures ManifestOf(r).Get("failure_type") == r.Get("failure_type")
    ensures ManifestOf(r).Get("sandbox") == r.Get("sandbox")
    ensures ManifestOf(r).Get("steps_used") == r.Get("steps_used")
    ensures ManifestOf(r).Get("tool_calls_used") == r.Get("tool_calls_used")
  {
    hide ManifestOf;
    ManifestCopies(r, "success");
    ManifestCopies(r, "termination_reason");
    ManifestCopies(r, "failure_type");
    ManifestCopies(r, "sandbox");
    ManifestCopies(r, "steps_used");
    ManifestCopies(r, "tool_calls_used");
  }

  lemma WrittenView(sha: Doc -> string, before: map<string, Doc>, r: Json)
    requires RunShaped(r)
    ensures Loads(Written(sha, before, r))
    ensures var v := BundleView(Written(sha, before, r));
            && v == RunView(r).(trace := v.trace)
            && |v.trace| == |TraceOf(r)|
            && (forall i | 0 <= i < |v.trace| :: v.trace[i] == RowOf(TraceOf(r)[i]))
            && Shaped(v)
  {
    hide RowOf, ListsOfText, ValidatorOf, ManifestOf, DigestLine, RowLines;
    var files := Written(sha, before, r);
    ManifestKeeps(r);
    LoadWritten(TraceOf(r), files[TOOL_CALLS].lines);
    var v := BundleView(files);
    forall i | 0 <= i < |v.trace| ensures v.trace[i].Obj? && v.trace[i].Get("io_audit").Arr? {
      RowShaped(TraceOf(r)[i]);
    }
  }

  // Going through the disk changes no verdict: replaying against the written bundle of a
  // agrees exactly when comparing with a itself does.
  lemma DiskChangesNothing(sha: Doc -> string, before: map<string, Doc>, a: Json, b: View)
    requires RunnerShaped(a)
    ensures Loads(Written(sha, before, a)) && Shaped(BundleView(Written(sha, before, a)))
    ensures Agrees(BundleView(Written(sha, before, a)), b) <==> Agrees(RunView(a), b)
  {
    hide RowOf, ListsOfText, Written, BundleView, StepAgrees;
    WrittenView(sha, before, a);
    var v := BundleView(Written(sha, before, a));
    if HasLists(v.sandbox) && |v.trace| == |b.trace| {
      forall i | 0 <= i < |v.trace|
        ensures StepAgrees(v.trace[i], b.trace[i], v.sandbox) <==> StepAgrees(TraceOf(a)[i], b.trace[i], v.sandbox)
      {
        RowKeeps(TraceOf(a)[i], b.trace[i], v.sandbox);
      }
    }
  }

  // ---- emitted artifacts -------------------------------------------------------------------

  lemma EmittedEntry(t: Task, e: Entry)
    ensures var j := EntryJson(t, e);
            && j.Obj? && j.Has("action") && j.Has("result") && j.Has("io_audit")
            && j.Get("io_audit") == Arr(AuditItems(e.audit)) && AuditOf(j) == AuditItems(e.audit)
            && j.GetOr("action", Obj(map[])) == e.action && j.Get("result") == e.result
  {
  }

  lemma EmittedHeader(t: Task, s: Session, a: Artifact)
    ensures var r := ArtifactJson(t, s, a);
            && RunView(r).(trace := []) == View(Bool(a.success), Str(a.termination), a.failureType, SandboxJson(t), [])
            && r.Get("steps_used") == Int(a.stepsUsed) && r.Get("tool_calls_used") == Int(a.callsUsed)
  {
    hide EntryJson, SandboxJson, TraceItems, TraceOf, BudgetJson, TaskRef;
  }

  lemma EmittedTrace(t: Task, trace: seq<Entry>, i: nat)
    requires i < |trace|
    ensures var j := TraceItems(t, trace)[i];
            j.Obj? && j.Has("action") && j.Has("result") && j.Has("io_audit") && j.Get("io_audit").Arr?
  {
    hide EntryJson;
    EmittedEntry(t, trace[i]);
  }

  lemma EmittedView(t: Task, s: Session, a: Artifact)
    ensures var r := ArtifactJson(t, s, a);
            && RunView(r) == View(Bool(a.success), Str(a.termination), a.failureType, SandboxJson(t), TraceItems(t, a.trace))
            && RunnerShaped(r)
            && r.Get("steps_used") == Int(a.stepsUsed) && r.Get("tool_calls_used") == Int(a.callsUsed)
  {
    hide ArtifactJson, EntryJson, SandboxJson, TraceItems, TraceOf, HasLists, ListsOfText;
    SandboxReadsBack(t);
    EmittedFields(t, s, a);
    EmittedHeader(t, s, a);
    var items := TraceItems(t, a.trace);
    forall i | 0 <= i < |items|
      ensures items[i].Obj? && items[i].Has("action") && items[i].Has("result") && items[i].Has("io_audit") && items[i].Get("io_audit").Arr?
    {
      EmittedTrace(t, a.trace, i);
    }
  }

  // Two results of runs that differ in time stamps only.
  predicate SameButTime(a: Entry, b: Entry)
  {
    a == b.(ts := a.ts)
  }

  ghost predicate SameTraces(a: seq<Entry>, b: seq<Entry>)
  {
    |a| == |b| && forall i | 0 <= i < |a| :: SameButTime(a[i], b[i])
  }

  ghost predicate SameResult(a: Artifact, b: Artifact)
  {
    a == b.(trace := a.trace) && SameTraces(a.trace, b.trace)
  }

  // The replay check accepts a second run with the same result exactly when every recorded
  // access is allowed.
  lemma SameResultAgrees(t: Task, s1: Session, s2: Session, a: Artifact, b: Artifact)
    requires SameResult(a, b)
    ensures RunShaped(ArtifactJson(t, s1, a)) && RunShaped(ArtifactJson(t, s2, b))
    ensures Agrees(RunView(ArtifactJson(t, s1, a)), RunView(ArtifactJson(t, s2, b))) <==> TraceAllowed(t, a.trace)
  {
    hide ArtifactJson, SandboxJson, EntryJson, AuditAllowed, AuditJson, ListsOfText, DeclaredRoots, DeclaredAllowlist;
    EmittedView(t, s1, a);
    EmittedView(t, s2, b);
    SandboxReadsBack(t);
    var x, y := TraceItems(t, a.trace), TraceItems(t, b.trace);
    forall i | 0 <= i < |a.trace|
      ensures StepAgrees(x[i], y[i], SandboxJson(t)) <==> forall k | 0 <= k < |a.trace[i].audit| :: AllowedOffline(t, a.trace[i].audit[k])
    {
      assert SameButTime(a.trace[i], b.trace[i]);
      EmittedEntry(t, a.trace[i]);
      EmittedEntry(t, b.trace[i]);
      assert |AuditItems(a.trace[i].audit)| == |a.trace[i].audit|;
    }
  }

  lemma AuditItemsTell(a: seq<AuditEntry>, b: seq<AuditEntry>)
    ensures AuditItems(a) == AuditItems(b) <==> a == b
  {
    if AuditItems(a) == AuditItems(b) {
      assert |a| == |AuditItems(a)| == |b|;
      forall i | 0 <= i < |a| ensures a[i] == b[i] {
        assert AuditJson(a[i]) == AuditItems(a)[i] == AuditItems(b)[i] == AuditJson(b[i]);
        AuditTells(a[i], b[i]);
      }
    }
  }

  lemma AuditTells(a: AuditEntry, b: AuditEntry)
    requires AuditJson(a) == AuditJson(b)
    ensures a == b
  {
    var x, y := AuditJson(a).fields, AuditJson(b).fields;
    assert x["type"] == y["type"] && |"fs"| == 2 && |"net"| == 3;
    match a
    case Fs(op, path) => assert x["op"] == y["op"] && x["path"] == y["path"];
    case Net(host) => assert x["host"] == y["host"];
  }

  lemma SandboxTells(t: Task, u: Task)
    ensures SandboxJson(t) == SandboxJson(u) <==> t.roots == u.roots && t.hosts == u.hosts
  {
    SandboxReadsBack(t);
    SandboxReadsBack(u);
    if SandboxJson(t) == SandboxJson(u) {
      var x, y := SandboxJson(t).fields, SandboxJson(u).fields;
      assert x["network_hosts"] == y["network_hosts"];
      StringsOfStrItems(t.hosts);
      StringsOfStrItems(u.hosts);
    }
  }

  lemma EntriesAgree(t: Task, u: Task, a: Entry, b: Entry)
    ensures StepAgrees(EntryJson(t, a), EntryJson(u, b), SandboxJson(t)) <==>
              a.action == b.action && a.result == b.result && a.audit == b.audit
              && forall k | 0 <= k < |a.audit| :: AllowedOffline(t, a.audit[k])
  {
    hide EntryJson, AuditAllowed, AuditJson, SandboxJson, HasLists, ListsOfText;
    SandboxReadsBack(t);
    EmittedEntry(t, a);
    EmittedEntry(u, b);
    AuditItemsTell(a.audit, b.audit);
    assert |AuditItems(a.audit)| == |a.audit|;
  }

  // Two runs of the runner replay each other exactly when they ended alike, declare the same
  // sandbox, and took the same steps: the same action, result and accesses each, all of them
  // allowed.
  lemma EmittedAgreeIff(t: Task, u: Task, s1: Session, s2: Session, a: Artifact, b: Artifact)
    ensures ListsOfText(RunView(ArtifactJson(t, s1, a)).sandbox)
    ensures Agrees(RunView(ArtifactJson(t, s1, a)), RunView(ArtifactJson(u, s2, b))) <==>
              && a.success == b.success && a.termination == b.termination && a.failureType == b.failureType
              && t.roots == u.roots && t.hosts == u.hosts
              && |a.trace| == |b.trace|
              && (forall i | 0 <= i < |a.trace| ::
                    a.trace[i].action == b.trace[i].action && a.trace[i].result == b.trace[i].result && a.trace[i].audit == b.trace[i].audit)
              && TraceAllowed(t, a.trace)
  {
    hide ArtifactJson, SandboxJson, EntryJson, AllowedOffline, StepAgrees, ListsOfText, HasLists;
    EmittedView(t, s1, a);
    EmittedView(u, s2, b);
    SandboxReadsBack(t);
    SandboxTells(t, u);
    forall i | 0 <= i < |a.trace| && |a.trace| == |b.trace|
      ensures StepAgrees(TraceItems(t, a.trace)[i], TraceItems(u, b.trace)[i], SandboxJson(t)) <==>
                a.trace[i].action == b.trace[i].action && a.trace[i].result == b.trace[i].result && a.trace[i].audit == b.trace[i].audit
                && forall k | 0 <= k < |a.trace[i].audit| :: AllowedOffline(t, a.trace[i].audit[k])
    {
      EntriesAgree(t, u, a.trace[i], b.trace[i]);
    }
  }

  // The same for any two run artifacts: what the checks read of them.
  lemma AgreesMeans(a: Json, b: Json)
    requires RunShaped(a) && RunShaped(b)
    ensures Agrees(RunView(a), RunView(b)) <==>
              && a.Get("success") == b.Get("success") && a.Get("termination_reason") == b.Get("termination_reason")
              && a.Get("failure_type") == b.Get("failure_type")
              && a.Get("sandbox") == b.Get("sandbox")
              && a.Get("sandbox").Get("filesystem_roots").Arr? && a.Get("sandbox").Get("network_hosts").Arr?
              && |TraceOf(a)| == |TraceOf(b)|
              && forall i | 0 <= i < |TraceOf(a)| ::
                var x, y := TraceOf(a)[i], TraceOf(b)[i];
                && x.Has("io_audit") && y.Has("io_audit") && x.Get("io_audit") == y.Get("io_audit")
                && x.GetOr("action", Obj(map[])) == y.GetOr("action", Obj(map[])) && x.Get("result") == y.Get("result")
                && (forall item <- AuditOf(x) ::
                      AuditAllowed(DeclaredRoots(a.Get("sandbox")), DeclaredAllowlist(a.Get("sandbox")), item))
  {
    hide AuditAllowed, DeclaredRoots, DeclaredAllowlist;
  }

  // ---- re-runs -----------------------------------------------------------------------------

  // The loop variables of two runs that have gone the same way so far.
  ghost predicate SameLoop<W>(a: Loop<W>, b: Loop<W>)
  {
    a == b.(trace := a.trace) && SameTraces(a.trace, b.trace)
  }

  ghost predicate SameEnd(a: RunEnd, b: RunEnd)
  {
    if a.Crashed? then b.Crashed?
    else b.Finished? && SameResult(a.art, b.art) && a.exit == b.exit && a.checks == b.checks
  }

  ghost predicate SameProgress<W>(a: Progress<W>, b: Progress<W>)
  {
    match a
    case Go(next) => b.Go? && SameLoop(next, b.next)
    case Stop(end) => b.Stop? && SameEnd(end, b.end)
  }

  lemma AppendIgnoresTime(a: seq<Entry>, b: seq<Entry>, x: Entry, y: Entry)
    requires SameTraces(a, b) && SameButTime(x, y)
    ensures SameTraces(a + [x], b + [y])
  {
    hide SameButTime;
  }

  lemma FailureIgnoresTime(exit: Exit, checks: seq<Json>, termination: string, reason: string, failureType: string,
                           steps: int, calls: int, a: seq<Entry>, b: seq<Entry>, validator: Json)
    requires SameTraces(a, b)
    ensures SameEnd(Failure(exit, checks, termination, reason, failureType, steps, calls, a, validator),
                    Failure(exit, checks, termination, reason, failureType, steps, calls, b, validator))
  {
    hide SameTraces;
  }

  lemma JudgeIgnoresTime<W>(t: Task, a: Loop<W>, b: Loop<W>, validation: Json)
    requires SameLoop(a, b) && validation.Obj?
    ensures SameProgress(Judge(t, a, validation), Judge(t, b, validation))
  {
    hide SameTraces, Failure, NormalizeTerminal, Snapshot;
    var v := NormalizeTerminal(validation);
    FailureIgnoresTime(TerminalCheck, a.checks + [validation], v.termination, v.reason, v.failureType,
                       t.maxSteps - a.stepsLeft, t.maxCalls - a.callsLeft, a.trace, b.trace, v.snapshot);
  }

  lemma SettleIgnoresTime<W>(o: Oracles<W>, t: Task, p: Policy, a: Loop<W>, b: Loop<W>)
    requires SameLoop(a, b) && a.lastAction.Get("type").Str?
    ensures SameProgress(Settle(o, t, p, a), Settle(o, t, p, b))
  {
    hide SameTraces, Judge, ExecuteFrom, Execute, SeenAfter;
    var seen := SeenAfter(a.guard.store.seen, a.lastAction.Get("type").s, a.lastResult);
    if seen.Some? {
      var ran := Execute(p, a.guard.(store := a.guard.store.(seen := seen.value)), o.validate(a.state));
      if ran.1.Ended? && ran.1.outcome.Returned? && ran.1.outcome.value.Obj? {
        JudgeIgnoresTime(t, a.(guard := ran.0, state := ran.1.state), b.(guard := ran.0, state := ran.1.state), ran.1.outcome.value);
      }
    }
  }

  // The entry of a step, without its time stamp.
  function Stamped(obs: Observation, action: Json, result: Json, audit: seq<AuditEntry>, steps: int, calls: int, callsDelta: int, ts: string): Entry
  {
    Entry(obs.step, ts, obs, action, result, audit, steps, calls, 1, callsDelta)
  }

  // Every entry an iteration can append, under both clocks.
  lemma EntriesIgnoreTime(a: seq<Entry>, b: seq<Entry>, obs: Observation, action: Json, result: Json, audit: seq<AuditEntry>,
                          steps: int, calls: int, callsDelta: int, t1: string, t2: string)
    requires SameTraces(a, b)
    ensures SameTraces(a + [Stamped(obs, action, result, audit, steps, calls, callsDelta, t1)],
                       b + [Stamped(obs, action, result, audit, steps, calls, callsDelta, t2)])
  {
    AppendIgnoresTime(a, b, Stamped(obs, action, result, audit, steps, calls, callsDelta, t1),
                      Stamped(obs, action, result, audit, steps, calls, callsDelta, t2));
  }

  lemma RejectIgnoresTime<W>(o: Oracles<W>, t: Task, c1: int -> string, c2: int -> string, p: Policy, a: Loop<W>, b: Loop<W>,
                             obs: Observation, action: Json)
    requires SameLoop(a, b) && (ValidateAction(action, t.schema).Some? || a.callsLeft <= 0)
    ensures SameProgress(ActOn(o, t, c1, p, a, obs, action), ActOn(o, t, c2, p, b, obs, action))
  {
    hide SameTraces, Failure, ExecuteFrom, Execute, Settle, ValidateAction, ActionArgs;
    ValidatedName(action, t.schema);
    var problem := ValidateAction(action, t.schema);
    if problem.Some? {
      var result := ErrorResult(problem.value);
      EntriesIgnoreTime(a.trace, b.trace, obs, action, result, [], a.stepsLeft, a.callsLeft, 0, c1(obs.step), c2(obs.step));
      FailureIgnoresTime(InvalidAction, a.checks, "invalid_action", problem.value, "invalid_action",
                         t.maxSteps - a.stepsLeft, t.maxCalls - a.callsLeft,
                         a.trace + [Stamped(obs, action, result, [], a.stepsLeft, a.callsLeft, 0, c1(obs.step))],
                         b.trace + [Stamped(obs, action, result, [], a.stepsLeft, a.callsLeft, 0, c2(obs.step))], NO_VALIDATOR);
    } else {
      FailureIgnoresTime(CallGate, a.checks, "tool_calls_exhausted", "tool_calls_exhausted", "budget_exhausted",
                         t.maxSteps - a.stepsLeft, t.maxCalls, a.trace, b.trace, NO_VALIDATOR);
    }
  }

  lemma CallIgnoresTime<W>(o: Oracles<W>, t: Task, c1: int -> string, c2: int -> string, p: Policy, a: Loop<W>, b: Loop<W>,
                           obs: Observation, action: Json)
    requires SameLoop(a, b) && ValidateAction(action, t.schema).None? && a.callsLeft > 0
    ensures SameProgress(ActOn(o, t, c1, p, a, obs, action), ActOn(o, t, c2, p, b, obs, action))
  {
    hide SameTraces, Failure, ExecuteFrom, Execute, Settle, ValidateAction, ActionArgs, ErrorResult;
    ValidatedName(action, t.schema);
    var ran := Execute(p, a.guard.(step := Some(obs.step), entries := []), o.action(a.state, action.Get("type").s, ActionArgs(action)));
    var audit, ts1, ts2 := ran.0.entries, c1(obs.step), c2(obs.step);
    if ran.1.Ended? {
      match ran.1.outcome
      case Returned(result) =>
        EntriesIgnoreTime(a.trace, b.trace, obs, action, result, audit, a.stepsLeft, a.callsLeft - 1, 1, ts1, ts2);
        var after := a.(guard := ran.0.(step := None, entries := []), state := ran.1.state, callsLeft := a.callsLeft - 1,
                        lastAction := action, lastResult := result);
        SettleIgnoresTime(o, t, p,
                          after.(trace := a.trace + [Stamped(obs, action, result, audit, a.stepsLeft, a.callsLeft - 1, 1, ts1)]),
                          after.(trace := b.trace + [Stamped(obs, action, result, audit, a.stepsLeft, a.callsLeft - 1, 1, ts2)]));
      case RaisedSandbox(m) =>
        RaisedIgnoresTime(t, a, b, obs, action, ErrorResult("sandbox_violation:" + m), audit, ts1, ts2,
                          ActionViolation, "sandbox_violation", m, "sandbox_violation");
      case RaisedOther(m) =>
        RaisedIgnoresTime(t, a, b, obs, action, ErrorResult("action_exception:" + m), audit, ts1, ts2,
                          ActionException, "action_exception", "action_exception:" + m, "invalid_action");
    }
  }

  lemma RaisedIgnoresTime<W>(t: Task, a: Loop<W>, b: Loop<W>, obs: Observation, action: Json, result: Json, audit: seq<AuditEntry>,
                             ts1: string, ts2: string, exit: Exit, termination: string, reason: string, failureType: string)
    requires SameLoop(a, b)
    ensures SameEnd(
      Failure(exit, a.checks, termination, reason, failureType, t.maxSteps - a.stepsLeft, t.maxCalls - a.callsLeft,
              a.trace + [Stamped(obs, action, result, audit, a.stepsLeft, a.callsLeft, 0, ts1)], NO_VALIDATOR),
      Failure(exit, b.checks, termination, reason, failureType, t.maxSteps - b.stepsLeft, t.maxCalls - b.callsLeft,
              b.trace + [Stamped(obs, action, result, audit, b.stepsLeft, b.callsLeft, 0, ts2)], NO_VALIDATOR))
  {
    hide SameTraces, Failure, Stamped;
    EntriesIgnoreTime(a.trace, b.trace, obs, action, result, audit, a.stepsLeft, a.callsLeft, 0, ts1, ts2);
    FailureIgnoresTime(exit, a.checks, termination, reason, failureType, t.maxSteps - a.stepsLeft, t.maxCalls - a.callsLeft,
                       a.trace + [Stamped(obs, action, result, audit, a.stepsLeft, a.callsLeft, 0, ts1)],
                       b.trace + [Stamped(obs, action, result, audit, a.stepsLeft, a.callsLeft, 0, ts2)], NO_VALIDATOR);
  }

  lemma IterateIgnoresTime<W>(o: Oracles<W>, t: Task, c1: int -> string, c2: int -> string, p: Policy, a: Loop<W>, b: Loop<W>)
    requires SameLoop(a, b)
    ensures SameProgress(Iterate(o, t, c1, p, a), Iterate(o, t, c2, p, b))
  {
    hide SameTraces, ActOn, Visible, Failure, ValidateAction;
    if a.stepsLeft <= 0 {
      FailureIgnoresTime(StepsGate, a.checks, "steps_exhausted", "steps_exhausted", "budget_exhausted",
                         t.maxSteps, t.maxCalls - a.callsLeft, a.trace, b.trace, NO_VALIDATOR);
    } else {
      var obs := Observe(t, a);
      var moved := o.act(a.state, obs);
      match moved.1
      case AgentRaises =>
      case Violates(m) =>
        FailureIgnoresTime(AgentViolation, a.checks, "sandbox_violation", m, "sandbox_violation",
                           t.maxSteps - a.stepsLeft, t.maxCalls - a.callsLeft, a.trace, b.trace, NO_VALIDATOR);
      case Acts(action) =>
        var x := a.(state := moved.0, stepsLeft := a.stepsLeft - 1);
        var y := b.(state := moved.0, stepsLeft := a.stepsLeft - 1);
        if ValidateAction(action, t.schema).Some? || a.callsLeft <= 0 {
          RejectIgnoresTime(o, t, c1, c2, p, x, y, obs, action);
        } else {
          CallIgnoresTime(o, t, c1, c2, p, x, y, obs, action);
        }
    }
  }

  lemma {:induction false} RunIgnoresTime<W>(o: Oracles<W>, t: Task, c1: int -> string, c2: int -> string, p: Policy, a: Loop<W>, b: Loop<W>)
    requires SameLoop(a, b)
    ensures SameEnd(RunFrom(o, t, c1, p, a), RunFrom(o, t, c2, p, b))
    decreases Fuel(a.stepsLeft)
  {
    hide Iterate;
    IterateIgnoresTime(o, t, c1, c2, p, a, b);
    IterateSpends(o, t, c1, p, a);
    IterateSpends(o, t, c2, p, b);
    var r := Iterate(o, t, c1, p, a);
    if r.Go? {
      RunIgnoresTime(o, t, c1, c2, p, r.next, Iterate(o, t, c2, p, b).next);
    }
  }

  lemma RerunSameEnd<W>(o: Oracles<W>, t: Task, c1: int -> string, c2: int -> string, state: W)
    ensures SameEnd(RunTask(o, t, c1, state), RunTask(o, t, c2, state))
  {
    hide RunFrom, ExecuteFrom, Rules;
    var p := Rules(t);
    if p.Some? {
      var ran := Execute(p.value, FRESH_GUARD, o.setup(state));
      if ran.1.Ended? && ran.1.outcome.Returned? {
        RunIgnoresTime(o, t, c1, c2, p.value, Start(t, ran.1.state, ran.0), Start(t, ran.1.state, ran.0));
      }
    }
  }

  // The shape the checks ask for when a run is compared with a bundle and its run.
  predicate Comparable(one: Json, files: map<string, Doc>, two: Json)
  {
    RunShaped(one) && RunShaped(two) && Loads(files) && Shaped(BundleView(files))
  }

  // check_record accepts the two runs, and check_replay the second against the bundle.
  predicate Replays(one: Json, files: map<string, Doc>, two: Json)
    requires Comparable(one, files, two)
  {
    Agrees(RunView(one), RunView(two)) && Agrees(BundleView(files), RunView(two))
  }

  // Any agent, actions, setup and validator: a second run of the same episode, at another
  // time and under another run id, passes check_record against the first and check_replay
  // against its bundle, both exactly when the offline check allows what the first recorded.
  // verify_bundle asks for line-safe rows besides.
  lemma RerunReplays<W>(o: Oracles<W>, t: Task, s1: Session, s2: Session, state: W, sha: Doc -> string, before: map<string, Doc>)
    requires HexDigest(sha) && RunTask(o, t, s1.clock, state).Finished?
    ensures RunTask(o, t, s2.clock, state).Finished?
    ensures var first := RunTask(o, t, s1.clock, state).art;
            var one, two := ArtifactJson(t, s1, first), ArtifactJson(t, s2, RunTask(o, t, s2.clock, state).art);
            var files := Written(sha, before, one);
            && Comparable(one, files, two)
            && (Agrees(RunView(one), RunView(two)) <==> TraceAllowed(t, first.trace))
            && (Agrees(BundleView(files), RunView(two)) <==> TraceAllowed(t, first.trace))
            && (Accepted(sha, files) <==> Replays(one, files, two) && TraceSafe(first.trace))
  {
    hide RunTask, HexDigest, Sound, Written, ArtifactJson, TraceAllowed, TraceSafe, Readable, Agrees, RunView, BundleView, Shaped, RunShaped, Loads;
    var one, two := RunTask(o, t, s1.clock, state), RunTask(o, t, s2.clock, state);
    RerunSameEnd(o, t, s1.clock, s2.clock, state);
    EmittedSound(sha, before, t, s1, one.art);
    SameResultAgrees(t, s1, s2, one.art, two.art);
    EmittedView(t, s1, one.art);
    DiskChangesNothing(sha, before, ArtifactJson(t, s1, one.art), RunView(ArtifactJson(t, s2, two.art)));
  }

  // A run that plays a line separator, on any task with a step: both replay checks accept a
  // second run, and verify_bundle rejects the bundle of the first.
  lemma SeparatorRejected<W>(t: Task, s1: Session, s2: Session, state: W, sha: Doc -> string, before: map<string, Doc>)
    requires HexDigest(sha) && Rules(t).Some? && t.maxSteps > 0
    ensures RunTask(Breaker(state), t, s1.clock, state).Finished? && RunTask(Breaker(state), t, s2.clock, state).Finished?
    ensures var one := ArtifactJson(t, s1, RunTask(Breaker(state), t, s1.clock, state).art);
            var two := ArtifactJson(t, s2, RunTask(Breaker(state), t, s2.clock, state).art);
            var files := Written(sha, before, one);
            Comparable(one, files, two) && Replays(one, files, two) && !Accepted(sha, files)
  {
    hide RunTask, Rules, HexDigest, Accepted, Written, ArtifactJson, Agrees, RunView, BundleView, Shaped, RunShaped, Loads,
         TraceAllowed, TraceSafe, Breaker;
    BreakerRuns(t, s1.clock, state);
    RerunReplays(Breaker(state), t, s1, s2, state, sha, before);
  }

  // ---- strict mode ---------------------------------------------------------------------------

  // The re-run ended at the tool-call gate and the first run did not, which is one more step;
  // or the first run failed inside an action and the re-run did not, which is one more call.
  predicate SpendsMore(first: Exit, rerun: Exit)
  {
    (rerun == CallGate && first != CallGate) || (FailedInAction(first) && !FailedInAction(rerun))
  }

  // Strict mode asks of two emitted runs that replay accepts exactly that the exit of the
  // re-run spends no more; two successful runs never differ in that.
  lemma StrictIsReplay(t1: Task, t2: Task, s1: Session, s2: Session, p1: Policy, p2: Policy, one: RunEnd, two: RunEnd,
                       sha: Doc -> string, before: map<string, Doc>)
    requires one.Finished? && two.Finished?
    requires Lawful(t1, p1, one) && Lawful(t2, p2, two)
    ensures var files, b := Written(sha, before, ArtifactJson(t1, s1, one.art)), ArtifactJson(t2, s2, two.art);
            && StrictShaped(files, b)
            && (AgreesStrictly(files, b) <==> Agrees(BundleView(files), RunView(b)) && !SpendsMore(one.exit, two.exit))
    ensures one.art.success && two.art.success ==> !SpendsMore(one.exit, two.exit)
  {
    hide Lawful, ArtifactJson, StepAgrees, SandboxJson, EntryJson, RowOf, ListsOfText, Written, ManifestOf;
    var a, b := ArtifactJson(t1, s1, one.art), ArtifactJson(t2, s2, two.art);
    EmittedView(t1, s1, one.art);
    EmittedView(t2, s2, two.art);
    CountsByExit(t1, p1, one);
    CountsByExit(t2, p2, two);
    WrittenView(sha, before, a);
    WrittenManifest(sha, before, a);
    ManifestKeeps(a);
  }

  lemma WrittenManifest(sha: Doc -> string, before: map<string, Doc>, r: Json)
    ensures MANIFEST in Written(sha, before, r) && Written(sha, before, r)[MANIFEST] == Document(ManifestOf(r))
  {
    hide ManifestOf, ValidatorOf, RowLines, DigestLine;
  }

  // Steps and calls follow from the length of the trace and the exit.
  lemma CountsByExit(t: Task, p: Policy, end: RunEnd)
    requires end.Finished? && Lawful(t, p, end)
    ensures end.art.stepsUsed == |end.art.trace| + (if end.exit == CallGate then 1 else 0)
    ensures end.art.callsUsed == |end.art.trace| - (if FailedInAction(end.exit) then 1 else 0)
    ensures end.art.success <==> end.exit == Validated
  {
  }

  // A successful run spends one step and one tool call on each trace entry.
  lemma SuccessCounts(t: Task, p: Policy, end: RunEnd)
    requires end.Finished? && end.art.success && Lawful(t, p, end)
    ensures end.art.stepsUsed == end.art.callsUsed == |end.art.trace|
  {
    CountsByExit(t, p, end);
  }
}
