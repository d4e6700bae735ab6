// The run function of agent_bench/runner/runner.py with its loop and every return,
// proved against module RunnerSpec.
module Runner {
  import opened Values
  import opened Order
  import opened EnvSpec
  import opened Failures
  import opened RunnerSpec
  import Paths
  import Network
  import Budgets
  import Environment

  // What iterating over result["files"] yields; None when it raises.
  method CollectFiles(files: Json) returns (paths: Option<seq<string>>)
    ensures paths == FilesToMark(files)
  {
    match files
    case Arr(items) =>
      paths := if StringList(files) then Some(Strings(items)) else None;
    case Str(s) =>
      paths := Some(seq(|s|, i requires 0 <= i < |s| => [s[i]]));
    case Obj(fields) =>
      var names := SortNames(fields.Keys);
      paths := Some(names);
    case _ =>
      paths := None;
  }

  // env.mark_seen after a successful list_dir action.
  method MarkListed(env: Environment.Environment, name: string, result: Json) returns (ok: bool)
    modifies env`seen
    ensures ok == SeenAfter(old(env.seen), name, result).Some?
    ensures ok ==> env.seen == SeenAfter(old(env.seen), name, result).value
  {
    hide MarkAll;
    if name == "list_dir" && result.Obj? && result.Get("ok").Truthy() {
      var files := CollectFiles(result.GetOr("files", Arr([])));
      if files.None? {
        return false;
      }
      ok := env.MarkSeen(files.value);
    } else {
      ok := true;
    }
  }

  // begin_step, the call of the action, consume_audit. The except clauses consume the
  // audit as well, so the window is closed however the action ends.
  method RunWindow<W>(guarded: Environment.GuardedEnv, code: Program<W>, step: int)
    returns (ending: Ending<W>, audit: seq<AuditEntry>)
    modifies guarded, guarded.env
    ensures var ran := Execute(guarded.Rules(), old(guarded.State()).(step := Some(step), entries := []), code);
            && ending == ran.1
            && audit == ran.0.entries
            && guarded.State() == ran.0.(step := None, entries := [])
  {
    hide Execute;
    guarded.BeginStep(step);
    ending := guarded.Run(code);
    audit := guarded.ConsumeAudit();
  }

  // The local variables of run. One iteration of its loop is split into the part up to the
  // agent's move, the part up to the appended trace entry, and the part behind it.
  class Episode<W> {
    const o: Oracles<W>
    const t: Task
    const clock: int -> string
    const now: real
    const guarded: Environment.GuardedEnv
    const budget: Budgets.Budgets
    var world: W
    var lastAction: Json
    var lastResult: Json
    var trace: seq<Entry>
    var checks: seq<Json>

    constructor (o: Oracles<W>, t: Task, clock: int -> string, now: real, guarded: Environment.GuardedEnv,
                 budget: Budgets.Budgets, world: W)
      ensures this.o == o && this.t == t && this.clock == clock && this.now == now
      ensures this.guarded == guarded && this.budget == budget
      ensures Variables() == Loop(world, guarded.State(), budget.stepsRemaining, budget.toolCallsRemaining, Null, Null, [], [])
    {
      this.o, this.t, this.clock, this.now := o, t, clock, now;
      this.guarded, this.budget := guarded, budget;
      this.world, lastAction, lastResult, trace, checks := world, Null, Null, [], [];
    }

    ghost function Variables(): Loop<W>
      reads this, guarded, guarded.env, budget
    {
      Loop(world, guarded.State(), budget.stepsRemaining, budget.toolCallsRemaining, lastAction, lastResult, trace, checks)
    }

    // What an iteration that ends with this result did to the variables.
    ghost predicate Steps(end: Option<RunEnd>, progress: Progress<W>)
      reads this, guarded, guarded.env, budget
    {
      progress == if end.Some? then Stop(end.value) else Go(Variables())
    }

    function StepsUsed(): int
      reads this, budget
    {
      t.maxSteps - budget.stepsRemaining
    }

    function CallsUsed(): int
      reads this, budget
    {
      t.maxCalls - budget.toolCallsRemaining
    }

    method MakeObservation() returns (observation: Observation)
      ensures observation == Observe(t, Variables())
    {
      var seen := SortNames(guarded.env.seen);
      observation := Observation(StepsUsed() + 1, lastAction, lastResult, Obj(map["files_seen" := Arr(StrItems(seen))]),
                                 budget.stepsRemaining, budget.toolCallsRemaining);
    }

    method Iteration() returns (end: Option<RunEnd>)
      requires budget.timeout == None
      modifies this, guarded, guarded.env, budget
      ensures Steps(end, Iterate(o, t, clock, guarded.Rules(), old(Variables())))
    {
      hide ActOn, Failure, Observe;
      if budget.TimedOut(now) {
        // No run has a timeout: the return behind this test is never reached.
        assert false;
      }
      if budget.stepsRemaining <= 0 {
        return Some(Failure(StepsGate, checks, "steps_exhausted", "steps_exhausted", "budget_exhausted",
                            t.maxSteps, CallsUsed(), trace, NO_VALIDATOR));
      }
      var observation := MakeObservation();
      var moved := o.act(world, observation);
      world := moved.0;
      match moved.1
      case AgentRaises =>
        end := Some(Crashed);
      case Violates(message) =>
        end := Some(Failure(AgentViolation, checks, "sandbox_violation", message, "sandbox_violation",
                            StepsUsed(), CallsUsed(), trace, NO_VALIDATOR));
      case Acts(action) =>
        budget.ConsumeStep();
        assert Variables() == old(Variables()).(state := moved.0, stepsLeft := old(budget.stepsRemaining) - 1);
        end := Act(observation, action);
    }

    method Act(observation: Observation, action: Json) returns (end: Option<RunEnd>)
      modifies this, guarded, guarded.env, budget
      ensures Steps(end, ActOn(o, t, clock, guarded.Rules(), old(Variables()), observation, action))
    {
      hide Settle, Execute, ValidateAction, ActionArgs, Failure, ErrorResult;
      var step := observation.step;
      ValidatedName(action, t.schema);
      var problem := ValidateAction(action, t.schema);
      if problem.Some? {
        trace := trace + [Entry(step, clock(step), observation, action, ErrorResult(problem.value), [],
                                budget.stepsRemaining, budget.toolCallsRemaining, 1, 0)];
        return Some(Failure(InvalidAction, checks, "invalid_action", problem.value, "invalid_action",
                            StepsUsed(), CallsUsed(), trace, NO_VALIDATOR));
      }
      if budget.toolCallsRemaining <= 0 {
        return Some(Failure(CallGate, checks, "tool_calls_exhausted", "tool_calls_exhausted", "budget_exhausted",
                            StepsUsed(), t.maxCalls, trace, NO_VALIDATOR));
      }
      var ending, audit := RunWindow(guarded, o.action(world, action.Get("type").s, ActionArgs(action)), step);
      match ending
      case NeverReturns =>
        end := Some(Crashed);
      case Ended(_, RaisedSandbox(m)) =>
        trace := trace + [Entry(step, clock(step), observation, action, ErrorResult("sandbox_violation:" + m), audit,
                                budget.stepsRemaining, budget.toolCallsRemaining, 1, 0)];
        end := Some(Failure(ActionViolation, checks, "sandbox_violation", m, "sandbox_violation",
                            StepsUsed(), CallsUsed(), trace, NO_VALIDATOR));
      case Ended(_, RaisedOther(m)) =>
        trace := trace + [Entry(step, clock(step), observation, action, ErrorResult("action_exception:" + m), audit,
                                budget.stepsRemaining, budget.toolCallsRemaining, 1, 0)];
        end := Some(Failure(ActionException, checks, "action_exception", "action_exception:" + m, "invalid_action",
                            StepsUsed(), CallsUsed(), trace, NO_VALIDATOR));
      case Ended(state, Returned(result)) =>
        world := state;
        budget.ConsumeToolCall();
        trace := trace + [Entry(step, clock(step), observation, action, result, audit,
                                budget.stepsRemaining, budget.toolCallsRemaining, 1, 1)];
        lastAction, lastResult := action, result;
        end := Validate();
    }

    method Validate() returns (end: Option<RunEnd>)
      requires lastAction.Get("type").Str? && budget.toolCallsRemaining >= 0
      modifies this`world, this`checks, guarded, guarded.env
      ensures Steps(end, Settle(o, t, guarded.Rules(), old(Variables())))
    {
      hide Execute, SeenAfter, NormalizeTerminal, Close, Snapshot, Failure;
      var marked := MarkListed(guarded.env, lastAction.Get("type").s, lastResult);
      if !marked {
        return Some(Crashed);
      }
      if budget.toolCallsRemaining < 0 {
        // Act left at least one call: the return behind this test is never reached.
        assert false;
      }
      var checked := guarded.Run(o.validate(world));
      if !checked.Ended? || !checked.outcome.Returned? || !checked.outcome.value.Obj? {
        return Some(Crashed);
      }
      world := checked.state;
      var validation := checked.outcome.value;
      checks := checks + [validation];
      if validation.Get("ok").Truthy() {
        return Some(Close(Validated, checks,
                          Artifact(true, "success", Null, Null, StepsUsed(), CallsUsed(), trace, Snapshot(validation))));
      }
      if validation.Get("terminal").Truthy() {
        var v := NormalizeTerminal(validation);
        return Some(Failure(TerminalCheck, checks, v.termination, v.reason, v.failureType,
                            StepsUsed(), CallsUsed(), trace, v.snapshot));
      }
      end := None;
    }
  }

  method Run<W>(o: Oracles<W>, t: Task, clock: int -> string, now: real, state: W) returns (end: RunEnd)
    ensures end == RunTask(o, t, clock, state)
  {
    hide Execute, Iterate, Paths.GuardRoots, Network.Allowlist;
    var roots := Paths.GuardRoots(t.roots);
    if roots.None? {
      return Crashed;
    }
    ghost var p := RunnerSpec.Rules(t).value;
    var env := new Environment.Environment();
    var guarded := new Environment.GuardedEnv(env, roots.value, Network.Allowlist(t.hosts));
    var ready := guarded.Run(o.setup(state));
    if !ready.Ended? || !ready.outcome.Returned? {
      return Crashed;
    }
    var budget := new Budgets.Budgets(t.maxSteps, t.maxCalls, None, now);
    var episode := new Episode(o, t, clock, now, guarded, budget, ready.state);
    while true
      invariant fresh(env) && fresh(guarded) && fresh(budget) && fresh(episode)
      invariant guarded.env == env && guarded.Rules() == p && budget.timeout == None
      invariant episode.o == o && episode.t == t && episode.clock == clock
      invariant episode.guarded == guarded && episode.budget == budget
      invariant RunTask(o, t, clock, state) == RunFrom(o, t, clock, p, episode.Variables())
      decreases Fuel(budget.stepsRemaining)
    {
      IterateSpends(o, t, clock, p, episode.Variables());
      var outcome := episode.Iteration();
      if outcome.Some? {
        return outcome.value;
      }
    }
  }
}
