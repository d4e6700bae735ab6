// The run artifact as the JSON object that is persisted, compared and verified, and the
// reading of that object that bundles and replay share.
module Artifacts {
  import opened Values
  import opened Text
  import opened EnvSpec
  import opened RunnerSpec
  import Paths
  import Network

  // ---- from runner values to JSON --------------------------------------------------

  function AuditJson(e: AuditEntry): Json
  {
    match e
    case Fs(op, path) => Obj(map["type" := Str("fs"), "op" := Str(op), "path" := Str(path)])
    case Net(host) => Obj(map["type" := Str("net"), "host" := Str(host)])
  }

  function AuditItems(audit: seq<AuditEntry>): (items: seq<Json>)
    ensures |items| == |audit|
    ensures forall i | 0 <= i < |audit| :: items[i] == AuditJson(audit[i])
  {
    seq(|audit|, i requires 0 <= i < |audit| => AuditJson(audit[i]))
  }

  function BudgetJson(steps: int, calls: int): Json
  {
    Obj(map["steps" := Int(steps), "tool_calls" := Int(calls)])
  }

  function ObservationJson(t: Task, o: Observation): Json
  {
    Obj(map[
      "step" := Int(o.step),
      "task" := Obj(map["id" := Str(t.id), "description" := Str(t.description)]),
      "last_action" := o.lastAction,
      "last_action_result" := o.lastResult,
      "visible_state" := o.visible,
      "budget_remaining" := BudgetJson(o.stepsLeft, o.callsLeft)])
  }

  function EntryJson(t: Task, e: Entry): Json
  {
    Obj(map[
      "step" := Int(e.step),
      "action_ts" := Str(e.ts),
      "observation" := ObservationJson(t, e.observation),
      "action" := e.action,
      "result" := e.result,
      "io_audit" := Arr(AuditItems(e.audit)),
      "budget_after_step" := BudgetJson(e.stepsAfter, e.callsAfter),
      "budget_delta" := BudgetJson(e.stepsDelta, e.callsDelta)])
  }

  function TraceItems(t: Task, trace: seq<Entry>): (items: seq<Json>)
    ensures |items| == |trace|
    ensures forall i | 0 <= i < |trace| :: items[i] == EntryJson(t, trace[i])
  {
    seq(|trace|, i requires 0 <= i < |trace| => EntryJson(t, trace[i]))
  }

  function SandboxJson(t: Task): Json
  {
    Obj(map["filesystem_roots" := Arr(StrItems(t.roots)), "network_hosts" := Arr(StrItems(t.hosts))])
  }

  // f"{id}@{version}"
  function TaskRef(t: Task): string
  {
    t.id + "@" + IntText(t.version)
  }

  // _result_payload with the metadata of the run.
  function ArtifactJson(t: Task, s: Session, a: Artifact): Json
  {
    Obj(map[
      "run_id" := Str(s.runId),
      "trace_id" := Str(s.runId),
      "agent" := Str(s.agent),
      "task_ref" := Str(TaskRef(t)),
      "task_id" := Str(t.id),
      "version" := Int(t.version),
      "seed" := Int(s.seed),
      "started_at" := Str(s.started),
      "completed_at" := Str(s.completed),
      "success" := Bool(a.success),
      "termination_reason" := Str(a.termination),
      "failure_reason" := a.failureReason,
      "failure_type" := a.failureType,
      "steps_used" := Int(a.stepsUsed),
      "tool_calls_used" := Int(a.callsUsed),
      "metrics" := Obj(map["steps_used" := Int(a.stepsUsed), "tool_calls_used" := Int(a.callsUsed)]),
      "action_trace" := Arr(TraceItems(t, a.trace)),
      "sandbox" := SandboxJson(t),
      "budgets" := BudgetJson(t.maxSteps, t.maxCalls),
      "validator" := a.validator])
  }

  lemma BudgetTells(steps: int, calls: int)
    ensures BudgetJson(steps, calls).Get("steps") == Int(steps) && BudgetJson(steps, calls).Get("tool_calls") == Int(calls)
  {
  }

  lemma ObservationTells(t: Task, o: Observation)
    ensures var j := ObservationJson(t, o);
            && j.Get("step") == Int(o.step) && j.Get("visible_state") == o.visible
            && j.Get("last_action") == o.lastAction && j.Get("last_action_result") == o.lastResult
            && j.Get("task") == Obj(map["id" := Str(t.id), "description" := Str(t.description)])
            && j.Get("budget_remaining") == BudgetJson(o.stepsLeft, o.callsLeft)
  {
    hide BudgetJson;
  }

  // A written entry tells what the entry holds, the budgets under their own names.
  lemma EntryTells(t: Task, e: Entry)
    ensures var j := EntryJson(t, e);
            && j.Get("step") == Int(e.step) && j.Get("action_ts") == Str(e.ts) && j.Get("observation") == ObservationJson(t, e.observation)
            && j.Get("action") == e.action && j.Get("result") == e.result && j.Get("io_audit") == Arr(AuditItems(e.audit))
            && j.Get("budget_after_step") == BudgetJson(e.stepsAfter, e.callsAfter)
            && j.Get("budget_delta") == BudgetJson(e.stepsDelta, e.callsDelta)
  {
    hide AuditItems, BudgetJson, ObservationJson;
  }

  // What an artifact tells of task and session besides what replay and leaderboard read.
  lemma ArtifactTells(t: Task, s: Session, a: Artifact)
    ensures var r := ArtifactJson(t, s, a);
            && r.Get("task_id") == Str(t.id) && r.Get("version") == Int(t.version) && r.Get("seed") == Int(s.seed)
            && r.Get("failure_reason") == a.failureReason && r.Get("validator") == a.validator
            && r.Get("budgets") == BudgetJson(t.maxSteps, t.maxCalls)
  {
    hide TraceItems, SandboxJson, TaskRef, BudgetJson;
  }

  // ---- reading an artifact back ------------------------------------------------------

  // artifact.get("action_trace", []) for an artifact whose trace is a list.
  function TraceOf(artifact: Json): seq<Json>
  {
    if artifact.Get("action_trace").Arr? then artifact.Get("action_trace").items else []
  }

  // entry.get("io_audit", []) for an entry whose audit is a list.
  function AuditOf(entry: Json): seq<Json>
  {
    if entry.Get("io_audit").Arr? then entry.Get("io_audit").items else []
  }

  predicate HasLists(sandbox: Json)
  {
    sandbox.Obj? && sandbox.Get("filesystem_roots").Arr? && sandbox.Get("network_hosts").Arr?
  }

  // The lists of a sandbox hold strings, as string concatenation and host normalisation need.
  predicate ListsOfText(sandbox: Json)
  {
    HasLists(sandbox) ==> StringList(sandbox.Get("filesystem_roots")) && StringList(sandbox.Get("network_hosts"))
  }

  function DeclaredRoots(sandbox: Json): seq<string>
    requires HasLists(sandbox) && ListsOfText(sandbox)
  {
    Strings(sandbox.Get("filesystem_roots").items)
  }

  function DeclaredAllowlist(sandbox: Json): seq<string>
    requires HasLists(sandbox) && ListsOfText(sandbox)
  {
    Network.Allowlist(Strings(sandbox.Get("network_hosts").items))
  }

  // One recorded access is inside the declared sandbox.
  predicate AuditAllowed(roots: seq<string>, allow: seq<string>, item: Json)
  {
    && item.Obj?
    && (if item.Get("type") == Str("fs") then
          item.Get("path").Str? && Paths.UnderRoots(roots, item.Get("path").s)
        else
          item.Get("type") == Str("net") && item.Get("host").Str? && Network.Check(allow, item.Get("host").s).Ok?)
  }

  predicate AllAllowed(roots: seq<string>, allow: seq<string>, items: seq<Json>)
  {
    forall i | 0 <= i < |items| :: AuditAllowed(roots, allow, items[i])
  }

  lemma SandboxReadsBack(t: Task)
    ensures HasLists(SandboxJson(t)) && ListsOfText(SandboxJson(t))
    ensures DeclaredRoots(SandboxJson(t)) == t.roots
    ensures DeclaredAllowlist(SandboxJson(t)) == Network.Allowlist(t.hosts)
  {
    StringsOfStrItems(t.roots);
    StringsOfStrItems(t.hosts);
  }

  // ---- what a trace records ------------------------------------------------------------

  // The offline check allows this access under the declared sandbox.
  predicate AllowedOffline(t: Task, e: AuditEntry)
  {
    AuditAllowed(t.roots, Network.Allowlist(t.hosts), AuditJson(e))
  }

  predicate TraceAllowed(t: Task, trace: seq<Entry>)
  {
    forall i, k | 0 <= i < |trace| && 0 <= k < |trace[i].audit| :: AllowedOffline(t, trace[i].audit[k])
  }

  predicate AuditSafe(e: AuditEntry)
  {
    match e
    case Fs(op, path) => OneLine(op) && OneLine(path)
    case Net(host) => OneLine(host)
  }

  // Nothing that goes into the row of an entry holds a line separator.
  predicate EntrySafe(e: Entry)
  {
    && OneLine(e.ts) && LineSafe(e.action) && LineSafe(e.result)
    && forall k | 0 <= k < |e.audit| :: AuditSafe(e.audit[k])
  }

  predicate TraceSafe(trace: seq<Entry>)
  {
    forall i | 0 <= i < |trace| :: EntrySafe(trace[i])
  }
}
