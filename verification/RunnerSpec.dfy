// The episode loop of agent_bench/runner/runner.py as functions on values. Agent, actions,
// setup and validator are arbitrary code with state; module Runner refines this with the loop.
module RunnerSpec {
  import opened Values
  import opened Text
  import opened Order
  import opened EnvSpec
  import opened Failures
  import Paths
  import Network

  // What load_task provides, apart from the code.
  datatype Task = Task(
    id: string,
    version: int,
    description: string,
    maxSteps: int,
    maxCalls: int,
    roots: seq<string>,
    hosts: seq<string>,
    schema: map<string, seq<string>>)

  // The volatile inputs of a run: identifiers and the clock.
  datatype Session = Session(runId: string, agent: string, seed: int, started: string, completed: string, clock: int -> string)

  datatype Observation = Observation(
    step: int,
    lastAction: Json,
    lastResult: Json,
    visible: Json,
    stepsLeft: int,
    callsLeft: int)

  // agent.observe(...) then agent.act(): an action, a SandboxViolation, or another exception.
  datatype AgentMove = Acts(action: Json) | Violates(message: string) | AgentRaises

  // The code a run is driven by. W holds the state agent and task keep between calls.
  datatype Oracles<!W> = Oracles(
    setup: W -> Program<W>,
    act: (W, Observation) -> (W, AgentMove),
    action: (W, string, map<string, Json>) -> Program<W>,
    validate: W -> Program<W>)

  // A trace entry.
  datatype Entry = Entry(
    step: int,
    ts: string,
    observation: Observation,
    action: Json,
    result: Json,
    audit: seq<AuditEntry>,
    stepsAfter: int,
    callsAfter: int,
    stepsDelta: int,
    callsDelta: int)

  datatype Artifact = Artifact(
    success: bool,
    termination: string,
    failureReason: Json,
    failureType: Json,
    stepsUsed: int,
    callsUsed: int,
    trace: seq<Entry>,
    validator: Json)

  // The return statements of run, in source order. The timeout return and the one behind
  // a negative tool-call counter are missing: method Runner.Run proves that it never
  // reaches them.
  datatype Exit =
    | StepsGate
    | AgentViolation
    | InvalidAction
    | CallGate
    | ActionViolation
    | ActionException
    | Validated
    | TerminalCheck

  // Crashed: an exception leaves run. checks lists the validations made, as history.
  datatype RunEnd = Finished(art: Artifact, exit: Exit, checks: seq<Json>) | Crashed

  // The variables of the loop.
  datatype Loop<W> = Loop(
    state: W,
    guard: Guarded,
    stepsLeft: int,
    callsLeft: int,
    lastAction: Json,
    lastResult: Json,
    trace: seq<Entry>,
    checks: seq<Json>)

  datatype Progress<W> = Go(next: Loop<W>) | Stop(end: RunEnd)

  // ---- pure helpers of the loop -----------------------------------------------------

  // _validate_action: None when the action is well formed.
  function ValidateAction(action: Json, schema: map<string, seq<string>>): Option<string>
  {
    if !action.Obj? then Some("action_must_be_dict")
    else
      var name, args := action.Get("type"), action.Get("args");
      if !name.Str? || name.s == "" then Some("invalid_action_type")
      else if name.s !in schema then Some("unknown_action")
      else if !args.Null? && !args.Obj? then Some("args_must_be_dict")
      else if exists i | 0 <= i < |schema[name.s]| :: !args.Has(schema[name.s][i]) then Some("missing_arg")
      else None
  }

  lemma ValidatedName(action: Json, schema: map<string, seq<string>>)
    ensures ValidateAction(action, schema).None? ==> action.Obj? && action.Get("type").Str?
  {
  }

  // action.get("args", {}) or {}
  function ActionArgs(action: Json): map<string, Json>
  {
    if action.Get("args").Obj? then action.Get("args").fields else map[]
  }

  // _coerce_str
  function CoerceStr(j: Json): Option<string>
  {
    if j.Str? && Strip(j.s) != "" then Some(Strip(j.s)) else None
  }

  const SNAPSHOT_KEYS: set<string> :=
    {"ok", "terminal", "message", "error", "failure_reason", "failure_type", "termination_reason"}

  // _snapshot_validation(validation) or {}
  function Snapshot(validation: Json): (snapshot: Json)
    ensures snapshot.Obj?
  {
    if validation.Obj? then Obj(map k | k in validation.fields && k in SNAPSHOT_KEYS :: validation.fields[k])
    else Obj(map[])
  }

  datatype Verdict = Verdict(reason: string, failureType: string, termination: string, snapshot: Json)

  // _normalize_terminal_validation
  function NormalizeTerminal(validation: Json): Verdict
  {
    var reason := CoerceStr(validation.Get("failure_reason"));
    var message := CoerceStr(validation.Get("message"));
    var error := CoerceStr(validation.Get("error"));
    var failureReason :=
      if reason.Some? then reason.value
      else if message.Some? then message.value
      else if error.Some? then error.value
      else "logic_failure";
    var given := CoerceStr(validation.Get("termination_reason"));
    var termination := if given.Some? then given.value else "logic_failure";
    var claimed := CoerceStr(validation.Get("failure_type"));
    var failureType :=
      if claimed.Some? && IsFailureType(claimed.value) then claimed.value else ClassifyFailure(termination);
    Verdict(failureReason, failureType, termination,
            Obj(map["ok" := Bool(false), "terminal" := Bool(true)] + Snapshot(validation).fields
                + map["failure_reason" := Str(failureReason), "failure_type" := Str(failureType),
                      "termination_reason" := Str(termination)]))
  }

  // What iterating over result["files"] yields for env.mark_seen; None raises.
  ghost function FilesToMark(files: Json): Option<seq<string>>
  {
    match files
    case Arr(items) => if StringList(files) then Some(Strings(items)) else None
    case Str(s) => Some(seq(|s|, i requires 0 <= i < |s| => [s[i]]))
    case Obj(fields) => Some(Names(fields.Keys))
    case _ => None
  }

  // The seen paths after a successful list_dir action; None when mark_seen raises.
  ghost function SeenAfter(seen: set<string>, name: string, result: Json): Option<set<string>>
  {
    if name == "list_dir" && result.Obj? && result.Get("ok").Truthy() then
      var files := FilesToMark(result.GetOr("files", Arr([])));
      if files.Some? && MarkAll(seen, files.value).1 then Some(MarkAll(seen, files.value).0) else None
    else Some(seen)
  }

  // _result_payload: make_result passes through ensure_failure_type, whose ValueError
  // would leave run.
  function Close(exit: Exit, checks: seq<Json>, a: Artifact): RunEnd
  {
    match EnsureFailureType(a.success, a.failureType, a.termination)
    case Err(_) => Crashed
    case Ok(kept) => Finished(a.(failureType := kept), exit, checks)
  }

  function Failure(exit: Exit, checks: seq<Json>, termination: string, reason: string, failureType: string,
                   stepsUsed: int, callsUsed: int, trace: seq<Entry>, validator: Json): RunEnd
  {
    Close(exit, checks,
          Artifact(false, termination, Str(reason), Str(failureType), stepsUsed, callsUsed, trace, validator))
  }

  const NO_VALIDATOR := Obj(map[])

  function ErrorResult(message: string): Json
  {
    Obj(map["ok" := Bool(false), "error" := Str(message)])
  }

  // ---- one iteration ---------------------------------------------------------------------

  ghost function Observe<W>(t: Task, s: Loop<W>): Observation
  {
    Observation(t.maxSteps - s.stepsLeft + 1, s.lastAction, s.lastResult, Visible(s.guard.store.seen), s.stepsLeft, s.callsLeft)
  }

  ghost function Iterate<W>(o: Oracles<W>, t: Task, clock: int -> string, p: Policy, s: Loop<W>): Progress<W>
  {
    if s.stepsLeft <= 0 then
      Stop(Failure(StepsGate, s.checks, "steps_exhausted", "steps_exhausted", "budget_exhausted",
                   t.maxSteps, t.maxCalls - s.callsLeft, s.trace, NO_VALIDATOR))
    else
      var obs := Observe(t, s);
      var moved := o.act(s.state, obs);
      match moved.1
      case AgentRaises => Stop(Crashed)
      case Violates(message) =>
        Stop(Failure(AgentViolation, s.checks, "sandbox_violation", message, "sandbox_violation",
                     t.maxSteps - s.stepsLeft, t.maxCalls - s.callsLeft, s.trace, NO_VALIDATOR))
      case Acts(action) =>
        ActOn(o, t, clock, p, s.(state := moved.0, stepsLeft := s.stepsLeft - 1), obs, action)
  }

  // From the consumed step to the call of the action.
  ghost function ActOn<W>(o: Oracles<W>, t: Task, clock: int -> string, p: Policy, s: Loop<W>, obs: Observation, action: Json): Progress<W>
  {
    ValidatedName(action, t.schema);
    var problem := ValidateAction(action, t.schema);
    if problem.Some? then
      var entry := Entry(obs.step, clock(obs.step), obs, action, ErrorResult(problem.value), [], s.stepsLeft, s.callsLeft, 1, 0);
      Stop(Failure(InvalidAction, s.checks, "invalid_action", problem.value, "invalid_action",
                   t.maxSteps - s.stepsLeft, t.maxCalls - s.callsLeft, s.trace + [entry], NO_VALIDATOR))
    else if s.callsLeft <= 0 then
      Stop(Failure(CallGate, s.checks, "tool_calls_exhausted", "tool_calls_exhausted", "budget_exhausted",
                   t.maxSteps - s.stepsLeft, t.maxCalls, s.trace, NO_VALIDATOR))
    else
      var ran := Execute(p, s.guard.(step := Some(obs.step), entries := []),
                         o.action(s.state, action.Get("type").s, ActionArgs(action)));
      var audit := ran.0.entries;
      var closed := s.(guard := ran.0.(step := None, entries := []));
      match ran.1
      case NeverReturns => Stop(Crashed)
      case Ended(state, RaisedSandbox(m)) =>
        var entry := Entry(obs.step, clock(obs.step), obs, action, ErrorResult("sandbox_violation:" + m), audit, s.stepsLeft, s.callsLeft, 1, 0);
        Stop(Failure(ActionViolation, s.checks, "sandbox_violation", m, "sandbox_violation",
                     t.maxSteps - s.stepsLeft, t.maxCalls - s.callsLeft, s.trace + [entry], NO_VALIDATOR))
      case Ended(state, RaisedOther(m)) =>
        var entry := Entry(obs.step, clock(obs.step), obs, action, ErrorResult("action_exception:" + m), audit, s.stepsLeft, s.callsLeft, 1, 0);
        Stop(Failure(ActionException, s.checks, "action_exception", "action_exception:" + m, "invalid_action",
                     t.maxSteps - s.stepsLeft, t.maxCalls - s.callsLeft, s.trace + [entry], NO_VALIDATOR))
      case Ended(state, Returned(result)) =>
        var entry := Entry(obs.step, clock(obs.step), obs, action, result, audit, s.stepsLeft, s.callsLeft - 1, 1, 1);
        Settle(o, t, p, closed.(state := state, callsLeft := s.callsLeft - 1, lastAction := action, lastResult := result,
                                trace := s.trace + [entry]))
  }

  // From the appended entry to the end of the iteration.
  ghost function Settle<W>(o: Oracles<W>, t: Task, p: Policy, s: Loop<W>): Progress<W>
    requires s.lastAction.Get("type").Str?
  {
    var seen := SeenAfter(s.guard.store.seen, s.lastAction.Get("type").s, s.lastResult);
    if seen.None? then Stop(Crashed)
    else
      var marked := s.guard.(store := s.guard.store.(seen := seen.value));
      var ran := Execute(p, marked, o.validate(s.state));
      match ran.1
      case NeverReturns => Stop(Crashed)
      case Ended(state, outcome) =>
        if !outcome.Returned? || !outcome.value.Obj? then Stop(Crashed)
        else Judge(t, s.(guard := ran.0, state := state), outcome.value)
  }

  function Judge<W>(t: Task, s: Loop<W>, validation: Json): Progress<W>
    requires validation.Obj?
  {
    var checks := s.checks + [validation];
    if validation.Get("ok").Truthy() then
      Stop(Close(Validated, checks,
                 Artifact(true, "success", Null, Null, t.maxSteps - s.stepsLeft, t.maxCalls - s.callsLeft, s.trace,
                          Snapshot(validation))))
    else if validation.Get("terminal").Truthy() then
      var v := NormalizeTerminal(validation);
      Stop(Failure(TerminalCheck, checks, v.termination, v.reason, v.failureType,
                   t.maxSteps - s.stepsLeft, t.maxCalls - s.callsLeft, s.trace, v.snapshot))
    else Go(s.(checks := checks))
  }

  // ---- whole runs ------------------------------------------------------------------------

  function Fuel(stepsLeft: int): nat
  {
    if stepsLeft <= 0 then 0 else stepsLeft
  }

  lemma IterateSpends<W>(o: Oracles<W>, t: Task, clock: int -> string, p: Policy, s: Loop<W>)
    ensures var r := Iterate(o, t, clock, p, s); r.Go? ==> s.stepsLeft > 0 && r.next.stepsLeft == s.stepsLeft - 1
  {
    hide Execute, Visible, SeenAfter, ValidateAction, NormalizeTerminal, Close;
  }

  ghost function RunFrom<W>(o: Oracles<W>, t: Task, clock: int -> string, p: Policy, s: Loop<W>): RunEnd
    decreases Fuel(s.stepsLeft)
  {
    IterateSpends(o, t, clock, p, s);
    match Iterate(o, t, clock, p, s)
    case Stop(end) => end
    case Go(next) => RunFrom(o, t, clock, p, next)
  }

  function Rules(t: Task): Option<Policy>
  {
    match Paths.GuardRoots(t.roots)
    case None => None
    case Some(roots) => Some(Policy(roots, Network.Allowlist(t.hosts)))
  }

  function Start<W>(t: Task, state: W, guard: Guarded): Loop<W>
  {
    Loop(state, guard, t.maxSteps, t.maxCalls, Null, Null, [], [])
  }

  const FRESH_GUARD := Guarded(EMPTY_STORE, None, [])

  // run: build the guarded environment, run setup, loop.
  ghost function RunTask<W>(o: Oracles<W>, t: Task, clock: int -> string, state: W): RunEnd
  {
    var p := Rules(t);
    if p.None? then Crashed
    else
      var ran := Execute(p.value, FRESH_GUARD, o.setup(state));
      match ran.1
      case Ended(ready, Returned(_)) => RunFrom(o, t, clock, p.value, Start(t, ready, ran.0))
      case _ => Crashed
  }
}
