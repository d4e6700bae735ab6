// When an exception leaves a run: exactly when the agent, an action or the validator raises
// one, and never because of the result the runner builds.
module CrashLaws {
  import opened Values
  import opened Text
  import opened EnvSpec
  import opened Failures
  import opened RunnerSpec

  // ---- code that raises ----------------------------------------------------------------------

  // The validator raises, does not return, or returns no dictionary.
  ghost predicate ValidatorRaises<W>(o: Oracles<W>, p: Policy, guard: Guarded, state: W)
  {
    var ran := Execute(p, guard, o.validate(state));
    !(ran.1.Ended? && ran.1.outcome.Returned? && ran.1.outcome.value.Obj?)
  }

  // The action never returns, what it listed cannot be marked, or the validator raises.
  // Exceptions of the action itself are caught.
  ghost predicate CallRaises<W>(o: Oracles<W>, p: Policy, s: Loop<W>, step: int, name: string, args: map<string, Json>)
  {
    var ran := Execute(p, s.guard.(step := Some(step), entries := []), o.action(s.state, name, args));
    match ran.1
    case NeverReturns => true
    case Ended(state, Returned(result)) =>
      var seen := SeenAfter(ran.0.store.seen, name, result);
      seen.None?
      || ValidatorRaises(o, p, ran.0.(step := None, entries := [], store := ran.0.store.(seen := seen.value)), state)
    case _ => false
  }

  // Some code of this iteration raises: the agent, or, for a valid action within the budgets,
  // what the call sets off.
  ghost predicate CodeRaises<W>(o: Oracles<W>, t: Task, p: Policy, s: Loop<W>)
  {
    && s.stepsLeft > 0
    && (var obs := Observe(t, s);
        var moved := o.act(s.state, obs);
        || moved.1.AgentRaises?
        || (&& moved.1.Acts? && ValidateAction(moved.1.action, t.schema).None? && s.callsLeft > 0
            && moved.1.action.Get("type").Str?
            && CallRaises(o, p, s.(state := moved.0), obs.step, moved.1.action.Get("type").s, ActionArgs(moved.1.action))))
  }

  // Some iteration from here on has code that raises.
  ghost predicate RaisesFrom<W>(o: Oracles<W>, t: Task, clock: int -> string, p: Policy, s: Loop<W>)
    decreases Fuel(s.stepsLeft)
  {
    IterateSpends(o, t, clock, p, s);
    CodeRaises(o, t, p, s)
    || (Iterate(o, t, clock, p, s).Go? && RaisesFrom(o, t, clock, p, Iterate(o, t, clock, p, s).next))
  }

  // The sandbox cannot be built, setup raises, or some iteration has code that raises.
  ghost predicate EpisodeRaises<W>(o: Oracles<W>, t: Task, clock: int -> string, state: W)
  {
    Rules(t).None?
    || (var ran := Execute(Rules(t).value, FRESH_GUARD, o.setup(state));
        match ran.1
        case Ended(ready, Returned(_)) => RaisesFrom(o, t, clock, Rules(t).value, Start(t, ready, ran.0))
        case _ => true)
  }

  // ---- results never raise -----------------------------------------------------------------------

  lemma FailureCloses(exit: Exit, checks: seq<Json>, termination: string, reason: string, failureType: string,
                      stepsUsed: int, callsUsed: int, trace: seq<Entry>, validator: Json)
    requires IsFailureType(failureType)
    ensures Failure(exit, checks, termination, reason, failureType, stepsUsed, callsUsed, trace, validator)
            == Finished(Artifact(false, termination, Str(reason), Str(failureType), stepsUsed, callsUsed, trace, validator), exit, checks)
    ensures EnsureFailureType(false, Str(failureType), termination) == Ok(Str(failureType))
  {
  }

  // Every verdict on a terminal validation names a failure type of the taxonomy, whatever
  // the validator put into its dictionary.
  lemma VerdictInTaxonomy(validation: Json)
    ensures IsFailureType(NormalizeTerminal(validation).failureType)
    ensures NormalizeTerminal(validation).reason != "" && NormalizeTerminal(validation).termination != ""
    ensures var s := NormalizeTerminal(validation).snapshot;
            && IsTaxonomy(s.Get("failure_type"))
            && (validation.Has("ok") ==> s.Get("ok") == validation.Get("ok"))
            && (!validation.Has("ok") ==> s.Get("ok") == Bool(false))
  {
    hide StripBy, ClassifyFailure, IsFailureType;
  }

  // The judgement builds a result or goes on, whatever the validator put into its dictionary.
  lemma JudgeFinishes<W>(t: Task, s: Loop<W>, validation: Json)
    requires validation.Obj?
    ensures Judge(t, s, validation) != Stop(Crashed)
  {
    hide NormalizeTerminal, Snapshot, IsFailureType, Failure;
    VerdictInTaxonomy(validation);
    var v, checks := NormalizeTerminal(validation), s.checks + [validation];
    FailureCloses(TerminalCheck, checks, v.termination, v.reason, v.failureType,
                    t.maxSteps - s.stepsLeft, t.maxCalls - s.callsLeft, s.trace, v.snapshot);
  }

  // ---- one iteration ----------------------------------------------------------------------------------

  lemma SettleCrashes<W>(o: Oracles<W>, t: Task, p: Policy, s: Loop<W>)
    requires s.lastAction.Get("type").Str?
    ensures Settle(o, t, p, s) == Stop(Crashed) <==>
              var seen := SeenAfter(s.guard.store.seen, s.lastAction.Get("type").s, s.lastResult);
              seen.None? || ValidatorRaises(o, p, s.guard.(store := s.guard.store.(seen := seen.value)), s.state)
  {
    hide Judge, Execute, SeenAfter;
    var seen := SeenAfter(s.guard.store.seen, s.lastAction.Get("type").s, s.lastResult);
    if seen.Some? {
      var ran := Execute(p, s.guard.(store := s.guard.store.(seen := seen.value)), o.validate(s.state));
      if ran.1.Ended? && ran.1.outcome.Returned? && ran.1.outcome.value.Obj? {
        JudgeFinishes(t, s.(guard := ran.0, state := ran.1.state), ran.1.outcome.value);
      }
    }
  }

  // The returns of ActOn that build a failure.
  lemma RejectFinishes<W>(o: Oracles<W>, t: Task, clock: int -> string, p: Policy, s: Loop<W>, obs: Observation, action: Json)
    requires ValidateAction(action, t.schema).Some? || s.callsLeft <= 0
    ensures ActOn(o, t, clock, p, s, obs, action) != Stop(Crashed)
  {
    hide Execute, Settle, ValidateAction, ActionArgs, ErrorResult, Failure;
    ValidatedName(action, t.schema);
    var problem := ValidateAction(action, t.schema);
    if problem.Some? {
      var entry := Entry(obs.step, clock(obs.step), obs, action, ErrorResult(problem.value), [], s.stepsLeft, s.callsLeft, 1, 0);
      FailureCloses(InvalidAction, s.checks, "invalid_action", problem.value, "invalid_action",
                    t.maxSteps - s.stepsLeft, t.maxCalls - s.callsLeft, s.trace + [entry], NO_VALIDATOR);
    } else {
      FailureCloses(CallGate, s.checks, "tool_calls_exhausted", "tool_calls_exhausted", "budget_exhausted",
                    t.maxSteps - s.stepsLeft, t.maxCalls, s.trace, NO_VALIDATOR);
    }
  }

  lemma CallCrashes<W>(o: Oracles<W>, t: Task, clock: int -> string, p: Policy, s: Loop<W>, obs: Observation, action: Json)
    requires ValidateAction(action, t.schema).None? && action.Get("type").Str? && s.callsLeft > 0
    ensures ActOn(o, t, clock, p, s, obs, action) == Stop(Crashed)
            <==> CallRaises(o, p, s, obs.step, action.Get("type").s, ActionArgs(action))
  {
    hide Execute, Settle, ValidateAction, ActionArgs, ErrorResult, ValidatorRaises, SeenAfter, Failure;
    ValidatedName(action, t.schema);
    var ran := Execute(p, s.guard.(step := Some(obs.step), entries := []), o.action(s.state, action.Get("type").s, ActionArgs(action)));
    if ran.1.Ended? {
      match ran.1.outcome
      case Returned(result) =>
        var entry := Entry(obs.step, clock(obs.step), obs, action, result, ran.0.entries, s.stepsLeft, s.callsLeft - 1, 1, 1);
        SettleCrashes(o, t, p, s.(guard := ran.0.(step := None, entries := []), state := ran.1.state, callsLeft := s.callsLeft - 1,
                                  lastAction := action, lastResult := result, trace := s.trace + [entry]));
      case RaisedSandbox(m) =>
        var entry := Entry(obs.step, clock(obs.step), obs, action, ErrorResult("sandbox_violation:" + m), ran.0.entries, s.stepsLeft, s.callsLeft, 1, 0);
        FailureCloses(ActionViolation, s.checks, "sandbox_violation", m, "sandbox_violation",
                      t.maxSteps - s.stepsLeft, t.maxCalls - s.callsLeft, s.trace + [entry], NO_VALIDATOR);
      case RaisedOther(m) =>
        var entry := Entry(obs.step, clock(obs.step), obs, action, ErrorResult("action_exception:" + m), ran.0.entries, s.stepsLeft, s.callsLeft, 1, 0);
        FailureCloses(ActionException, s.checks, "action_exception", "action_exception:" + m, "invalid_action",
                      t.maxSteps - s.stepsLeft, t.maxCalls - s.callsLeft, s.trace + [entry], NO_VALIDATOR);
    }
  }

  lemma CallIgnoresBudget<W>(o: Oracles<W>, p: Policy, a: Loop<W>, b: Loop<W>, step: int, name: string, args: map<string, Json>)
    requires a.guard == b.guard && a.state == b.state
    ensures CallRaises(o, p, a, step, name, args) <==> CallRaises(o, p, b, step, name, args)
  {
    hide Execute, SeenAfter, ValidatorRaises;
  }

  // An iteration lets an exception out exactly when its code raises one.
  lemma IterateCrashes<W>(o: Oracles<W>, t: Task, clock: int -> string, p: Policy, s: Loop<W>)
    ensures Iterate(o, t, clock, p, s) == Stop(Crashed) <==> CodeRaises(o, t, p, s)
  {
    hide ActOn, Visible, ValidateAction, ActionArgs, CallRaises, Failure;
    if s.stepsLeft <= 0 {
      FailureCloses(StepsGate, s.checks, "steps_exhausted", "steps_exhausted", "budget_exhausted",
                      t.maxSteps, t.maxCalls - s.callsLeft, s.trace, NO_VALIDATOR);
    } else {
      var obs := Observe(t, s);
      var moved := o.act(s.state, obs);
      match moved.1
      case AgentRaises =>
      case Violates(m) =>
        FailureCloses(AgentViolation, s.checks, "sandbox_violation", m, "sandbox_violation",
                        t.maxSteps - s.stepsLeft, t.maxCalls - s.callsLeft, s.trace, NO_VALIDATOR);
      case Acts(action) =>
        ValidatedName(action, t.schema);
        var after := s.(state := moved.0, stepsLeft := s.stepsLeft - 1);
        if ValidateAction(action, t.schema).Some? || s.callsLeft <= 0 {
          RejectFinishes(o, t, clock, p, after, obs, action);
        } else {
          CallCrashes(o, t, clock, p, after, obs, action);
          CallIgnoresBudget(o, p, after, s.(state := moved.0), obs.step, action.Get("type").s, ActionArgs(action));
        }
    }
  }

  // ---- whole runs ------------------------------------------------------------------------------------------

  lemma {:induction false} RunFromCrashes<W>(o: Oracles<W>, t: Task, clock: int -> string, p: Policy, s: Loop<W>)
    ensures RunFrom(o, t, clock, p, s).Crashed? <==> RaisesFrom(o, t, clock, p, s)
    decreases Fuel(s.stepsLeft)
  {
    hide Iterate, CodeRaises;
    IterateCrashes(o, t, clock, p, s);
    IterateSpends(o, t, clock, p, s);
    var r := Iterate(o, t, clock, p, s);
    if r.Go? {
      RunFromCrashes(o, t, clock, p, r.next);
    }
  }

  // A run ends without a result exactly when some code in it raises: building the result,
  // ensure_failure_type included, never does.
  lemma RunCrashes<W>(o: Oracles<W>, t: Task, clock: int -> string, state: W)
    ensures RunTask(o, t, clock, state).Crashed? <==> EpisodeRaises(o, t, clock, state)
  {
    hide RunFrom, Execute, Rules, RaisesFrom;
    var p := Rules(t);
    if p.Some? {
      var ran := Execute(p.value, FRESH_GUARD, o.setup(state));
      if ran.1.Ended? && ran.1.outcome.Returned? {
        RunFromCrashes(o, t, clock, p.value, Start(t, ran.1.state, ran.0));
      }
    }
  }

  // Code that raises in no state of the loop.
  ghost predicate NeverRaises<W(!new)>(o: Oracles<W>, t: Task, p: Policy)
  {
    forall s: Loop<W> :: !CodeRaises(o, t, p, s)
  }

  lemma {:induction false} NoRaiseFrom<W(!new)>(o: Oracles<W>, t: Task, clock: int -> string, p: Policy, s: Loop<W>)
    requires NeverRaises(o, t, p)
    ensures !RaisesFrom(o, t, clock, p, s)
    decreases Fuel(s.stepsLeft)
  {
    hide Iterate, CodeRaises;
    IterateSpends(o, t, clock, p, s);
    var r := Iterate(o, t, clock, p, s);
    if r.Go? {
      NoRaiseFrom(o, t, clock, p, r.next);
    }
  }

  // Such code always gets a result, once its setup has returned.
  lemma RunFinishes<W(!new)>(o: Oracles<W>, t: Task, clock: int -> string, state: W)
    requires Rules(t).Some? && NeverRaises(o, t, Rules(t).value)
    requires var ran := Execute(Rules(t).value, FRESH_GUARD, o.setup(state)); ran.1.Ended? && ran.1.outcome.Returned?
    ensures RunTask(o, t, clock, state).Finished?
  {
    hide RunTask, Execute, Rules, RaisesFrom, NeverRaises;
    RunCrashes(o, t, clock, state);
    var ran := Execute(Rules(t).value, FRESH_GUARD, o.setup(state));
    NoRaiseFrom(o, t, clock, Rules(t).value, Start(t, ran.1.state, ran.0));
  }
}
