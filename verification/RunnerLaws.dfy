// What every run of module RunnerSpec keeps, for any agent, actions, setup and validator.
module RunnerLaws {
  import opened Values
  import opened Text
  import opened EnvSpec
  import opened Failures
  import opened RunnerSpec
  import opened CrashLaws

  function StepsSpent(trace: seq<Entry>): int
  {
    if trace == [] then 0 else StepsSpent(trace[..|trace| - 1]) + trace[|trace| - 1].stepsDelta
  }

  function CallsSpent(trace: seq<Entry>): int
  {
    if trace == [] then 0 else CallsSpent(trace[..|trace| - 1]) + trace[|trace| - 1].callsDelta
  }

  // Entry i has step i + 1, was observed with the previous entry's action and result and
  // with the budget left by the deltas before it, and leaves the budget its delta leaves.
  ghost predicate EntryFits(t: Task, trace: seq<Entry>, i: nat)
    requires i < |trace|
  {
    var e, spent, called := trace[i], StepsSpent(trace[..i]), CallsSpent(trace[..i]);
    && e.step == e.observation.step == i + 1
    && e.observation.lastAction == (if i == 0 then Null else trace[i - 1].action)
    && e.observation.lastResult == (if i == 0 then Null else trace[i - 1].result)
    && e.observation.stepsLeft == t.maxSteps - spent
    && e.observation.callsLeft == t.maxCalls - called
    && e.stepsAfter == t.maxSteps - spent - e.stepsDelta
    && e.callsAfter == t.maxCalls - called - e.callsDelta
    && e.stepsDelta == 1
    && (if i < |trace| - 1 then e.callsDelta == 1 else 0 <= e.callsDelta <= 1)
  }

  ghost predicate Conserves(t: Task, trace: seq<Entry>)
  {
    forall i | 0 <= i < |trace| :: EntryFits(t, trace, i)
  }

  ghost predicate AuditsPermitted(p: Policy, trace: seq<Entry>)
  {
    forall i | 0 <= i < |trace| :: AllPermitted(p, trace[i].audit)
  }

  // Neither ok nor terminal: the loop goes on after this validation.
  predicate Undecided(check: Json)
  {
    !check.Get("ok").Truthy() && !check.Get("terminal").Truthy()
  }

  // The loop invariant.
  ghost predicate Steady<W>(t: Task, p: Policy, s: Loop<W>)
  {
    && Conserves(t, s.trace)
    && AuditsPermitted(p, s.trace)
    && StepsSpent(s.trace) == CallsSpent(s.trace) == |s.checks| == |s.trace|
    && s.stepsLeft == t.maxSteps - |s.trace| >= 0
    && s.callsLeft == t.maxCalls - |s.trace| >= 0
    && (forall i | 0 <= i < |s.checks| :: Undecided(s.checks[i]))
    && s.guard.step == None && s.guard.entries == []
    && s.lastAction == (if s.trace == [] then Null else s.trace[|s.trace| - 1].action)
    && s.lastResult == (if s.trace == [] then Null else s.trace[|s.trace| - 1].result)
    && (forall i | 0 <= i < |s.trace| :: s.trace[i].callsDelta == 1)
  }

  // The returns behind an entry that spent a step but no tool call.
  predicate FailedInAction(exit: Exit)
  {
    exit == InvalidAction || exit == ActionViolation || exit == ActionException
  }

  // Budget conservation for a finished run.
  ghost predicate Balanced(t: Task, end: RunEnd)
    requires end.Finished?
  {
    var a := end.art;
    && Conserves(t, a.trace)
    && StepsSpent(a.trace) == |a.trace|
    && a.callsUsed == CallsSpent(a.trace) == |end.checks|
    && a.callsUsed == |a.trace| - (if FailedInAction(end.exit) then 1 else 0)
    && a.stepsUsed == |a.trace| + (if end.exit == CallGate then 1 else 0)
    && a.stepsUsed <= t.maxSteps
    && a.callsUsed <= t.maxCalls
    && |a.trace| <= t.maxCalls + 1
    && (end.exit == StepsGate ==> a.stepsUsed == t.maxSteps)
    && (end.exit == CallGate ==> a.callsUsed == t.maxCalls)
  }

  // The result agrees with the failure taxonomy and with the validations that were made.
  ghost predicate Classified(end: RunEnd)
    requires end.Finished?
  {
    var a, n := end.art, |end.checks|;
    && (forall i | 0 <= i < n - 1 :: Undecided(end.checks[i]))
    && (a.success <==> n > 0 && end.checks[n - 1].Get("ok").Truthy())
    && (a.success <==> end.exit == Validated)
    && (end.exit == TerminalCheck <==>
          n > 0 && !end.checks[n - 1].Get("ok").Truthy() && end.checks[n - 1].Get("terminal").Truthy())
    && (if a.success then a.failureType == Null && a.failureReason == Null && a.termination == "success"
        else IsTaxonomy(a.failureType) && a.failureReason.Str?)
    && EnsureFailureType(a.success, a.failureType, a.termination) == Ok(a.failureType)
    && (end.exit != TerminalCheck && !a.success ==> a.failureType == Str(ClassifyFailure(a.termination)))
  }

  ghost predicate Lawful(t: Task, p: Policy, end: RunEnd)
  {
    end.Finished? ==> Balanced(t, end) && Classified(end) && AuditsPermitted(p, end.art.trace)
  }

  // ---- one iteration ---------------------------------------------------------------

  lemma SpentAppend(trace: seq<Entry>, e: Entry)
    ensures StepsSpent(trace + [e]) == StepsSpent(trace) + e.stepsDelta
    ensures CallsSpent(trace + [e]) == CallsSpent(trace) + e.callsDelta
  {
    assert (trace + [e])[..|trace + [e]| - 1] == trace;
  }

  lemma ConservesAppend(t: Task, trace: seq<Entry>, e: Entry)
    requires Conserves(t, trace)
    requires forall i | 0 <= i < |trace| :: trace[i].callsDelta == 1
    requires EntryFits(t, trace + [e], |trace|)
    ensures Conserves(t, trace + [e])
  {
    forall i | 0 <= i < |trace + [e]| ensures EntryFits(t, trace + [e], i) {
      if i < |trace| {
        assert EntryFits(t, trace, i);
        assert (trace + [e])[..i] == trace[..i];
      }
    }
  }

  // The entry written for an observation of a steady loop fits behind the trace.
  lemma NewEntryFits<W>(t: Task, p: Policy, s: Loop<W>, e: Entry)
    requires Steady(t, p, s) && s.stepsLeft > 0
    requires e.observation == Observe(t, s) && e.step == e.observation.step
    requires e.stepsDelta == 1 && 0 <= e.callsDelta <= 1
    requires e.stepsAfter == s.stepsLeft - 1 && e.callsAfter == s.callsLeft - e.callsDelta
    ensures Conserves(t, s.trace + [e])
    ensures StepsSpent(s.trace + [e]) == |s.trace| + 1
    ensures CallsSpent(s.trace + [e]) == |s.trace| + e.callsDelta
  {
    assert (s.trace + [e])[..|s.trace|] == s.trace;
    SpentAppend(s.trace, e);
    ConservesAppend(t, s.trace, e);
  }

  lemma JudgeLawful<W>(t: Task, p: Policy, s: Loop<W>, validation: Json)
    requires validation.Obj? && |s.trace| > 0
    requires Conserves(t, s.trace) && AuditsPermitted(p, s.trace)
    requires StepsSpent(s.trace) == CallsSpent(s.trace) == |s.checks| + 1 == |s.trace|
    requires s.stepsLeft == t.maxSteps - |s.trace| >= 0 && s.callsLeft == t.maxCalls - |s.trace| >= 0
    requires forall i | 0 <= i < |s.checks| :: Undecided(s.checks[i])
    requires s.guard.step == None && s.guard.entries == []
    requires s.lastAction == s.trace[|s.trace| - 1].action && s.lastResult == s.trace[|s.trace| - 1].result
    requires forall i | 0 <= i < |s.trace| :: s.trace[i].callsDelta == 1
    ensures var r := Judge(t, s, validation);
            if r.Go? then Steady(t, p, r.next) else Lawful(t, p, r.end)
  {
    hide Conserves, AuditsPermitted, StepsSpent, CallsSpent, NormalizeTerminal, Snapshot;
    VerdictInTaxonomy(validation);
  }

  lemma SettleLawful<W>(o: Oracles<W>, t: Task, p: Policy, s: Loop<W>)
    requires s.lastAction.Get("type").Str? && |s.trace| > 0
    requires Conserves(t, s.trace) && AuditsPermitted(p, s.trace)
    requires StepsSpent(s.trace) == CallsSpent(s.trace) == |s.checks| + 1 == |s.trace|
    requires s.stepsLeft == t.maxSteps - |s.trace| >= 0 && s.callsLeft == t.maxCalls - |s.trace| >= 0
    requires forall i | 0 <= i < |s.checks| :: Undecided(s.checks[i])
    requires s.guard.step == None && s.guard.entries == []
    requires s.lastAction == s.trace[|s.trace| - 1].action && s.lastResult == s.trace[|s.trace| - 1].result
    requires forall i | 0 <= i < |s.trace| :: s.trace[i].callsDelta == 1
    ensures var r := Settle(o, t, p, s);
            if r.Go? then Steady(t, p, r.next) else Lawful(t, p, r.end)
  {
    hide Conserves, AuditsPermitted, StepsSpent, CallsSpent, Judge, ExecuteFrom, SeenAfter;
    var seen := SeenAfter(s.guard.store.seen, s.lastAction.Get("type").s, s.lastResult);
    if seen.Some? {
      var marked := s.guard.(store := s.guard.store.(seen := seen.value));
      var ran := Execute(p, marked, o.validate(s.state));
      ExecuteAudits(p, marked, o.validate(s.state), []);
      if ran.1.Ended? && ran.1.outcome.Returned? && ran.1.outcome.value.Obj? {
        JudgeLawful(t, p, s.(guard := ran.0, state := ran.1.state), ran.1.outcome.value);
      }
    }
  }

  lemma AuditsAppend(p: Policy, trace: seq<Entry>, e: Entry)
    requires AuditsPermitted(p, trace) && AllPermitted(p, e.audit)
    ensures AuditsPermitted(p, trace + [e])
  {
  }

  // The entry this iteration of a steady loop appends.
  ghost predicate Appends<W>(t: Task, p: Policy, s: Loop<W>, e: Entry)
  {
    && e.observation == Observe(t, s) && e.step == e.observation.step
    && e.stepsDelta == 1 && 0 <= e.callsDelta <= 1
    && e.stepsAfter == s.stepsLeft - 1 && e.callsAfter == s.callsLeft - e.callsDelta
    && AllPermitted(p, e.audit)
  }

  // The returns that append an entry without a tool call.
  lemma FailedEntryLawful<W>(t: Task, p: Policy, s: Loop<W>, e: Entry, exit: Exit, termination: string, reason: string)
    requires Steady(t, p, s) && s.stepsLeft > 0 && Appends(t, p, s, e) && e.callsDelta == 0
    requires FailedInAction(exit)
    ensures Lawful(t, p, Failure(exit, s.checks, termination, reason, ClassifyFailure(termination),
                                 t.maxSteps - (s.stepsLeft - 1), t.maxCalls - s.callsLeft, s.trace + [e], NO_VALIDATOR))
  {
    hide Conserves, AuditsPermitted, StepsSpent, CallsSpent, ClassifyFailure, Lawful, Failure;
    NewEntryFits(t, p, s, e);
    AuditsAppend(p, s.trace, e);
    FailedTraceLawful(t, p, s, s.trace + [e], exit, termination, reason);
  }

  lemma FailedTraceLawful<W>(t: Task, p: Policy, s: Loop<W>, trace: seq<Entry>, exit: Exit, termination: string, reason: string)
    requires Steady(t, p, s) && s.stepsLeft > 0 && FailedInAction(exit)
    requires |trace| == StepsSpent(trace) == |s.trace| + 1 && CallsSpent(trace) == |s.trace|
    requires Conserves(t, trace) && AuditsPermitted(p, trace)
    ensures Lawful(t, p, Failure(exit, s.checks, termination, reason, ClassifyFailure(termination),
                                 t.maxSteps - (s.stepsLeft - 1), t.maxCalls - s.callsLeft, trace, NO_VALIDATOR))
  {
    hide Conserves, AuditsPermitted, StepsSpent, CallsSpent, ClassifyFailure, Failure, EnsureFailureType, IsFailureType;
    FailureCloses(exit, s.checks, termination, reason, ClassifyFailure(termination),
                  t.maxSteps - (s.stepsLeft - 1), t.maxCalls - s.callsLeft, trace, NO_VALIDATOR);
  }

  lemma CalledEntryLawful<W>(o: Oracles<W>, t: Task, p: Policy, s: Loop<W>, e: Entry, state: W, guard: Guarded)
    requires Steady(t, p, s) && s.stepsLeft > 0 && s.callsLeft > 0 && Appends(t, p, s, e) && e.callsDelta == 1
    requires e.action.Get("type").Str? && guard.step == None && guard.entries == []
    ensures var r := Settle(o, t, p, Loop(state, guard, s.stepsLeft - 1, s.callsLeft - 1, e.action, e.result, s.trace + [e], s.checks));
            if r.Go? then Steady(t, p, r.next) else Lawful(t, p, r.end)
  {
    NewEntryFits(t, p, s, e);
    AuditsAppend(p, s.trace, e);
    hide Conserves, AuditsPermitted, StepsSpent, CallsSpent, Settle, Lawful;
    SettleLawful(o, t, p, Loop(state, guard, s.stepsLeft - 1, s.callsLeft - 1, e.action, e.result, s.trace + [e], s.checks));
  }

  lemma CallGateLawful<W>(t: Task, p: Policy, s: Loop<W>)
    requires Steady(t, p, s) && s.stepsLeft > 0 && s.callsLeft <= 0
    ensures Lawful(t, p, Failure(CallGate, s.checks, "tool_calls_exhausted", "tool_calls_exhausted", "budget_exhausted",
                                 t.maxSteps - (s.stepsLeft - 1), t.maxCalls, s.trace, NO_VALIDATOR))
  {
    hide Conserves, AuditsPermitted, StepsSpent, CallsSpent;
  }

  lemma ActLawful<W>(o: Oracles<W>, t: Task, clock: int -> string, p: Policy, s: Loop<W>, state: W, action: Json)
    requires Steady(t, p, s) && s.stepsLeft > 0
    ensures var r := ActOn(o, t, clock, p, s.(state := state, stepsLeft := s.stepsLeft - 1), Observe(t, s), action);
            if r.Go? then Steady(t, p, r.next) else Lawful(t, p, r.end)
  {
    hide Steady, Lawful, ExecuteFrom, Settle, ValidateAction, ActionArgs, Visible, AllPermitted, Failure;
    var obs := Observe(t, s);
    ValidatedName(action, t.schema);
    AllPermittedNothing(p);
    assert Lawful(t, p, Crashed) by { CrashLawful(t, p); }
    var problem := ValidateAction(action, t.schema);
    if problem.Some? {
      var e := Entry(obs.step, clock(obs.step), obs, action, ErrorResult(problem.value), [], s.stepsLeft - 1, s.callsLeft, 1, 0);
      FailedEntryLawful(t, p, s, e, InvalidAction, "invalid_action", problem.value);
    } else if s.callsLeft <= 0 {
      CallGateLawful(t, p, s);
    } else {
      var window := s.guard.(step := Some(obs.step), entries := []);
      var code := o.action(state, action.Get("type").s, ActionArgs(action));
      var ran := Execute(p, window, code);
      ExecuteAudits(p, window, code, []);
      if ran.1.Ended? {
        match ran.1.outcome
        case RaisedSandbox(m) =>
          var e := Entry(obs.step, clock(obs.step), obs, action, ErrorResult("sandbox_violation:" + m), ran.0.entries, s.stepsLeft - 1, s.callsLeft, 1, 0);
          FailedEntryLawful(t, p, s, e, ActionViolation, "sandbox_violation", m);
        case RaisedOther(m) =>
          var e := Entry(obs.step, clock(obs.step), obs, action, ErrorResult("action_exception:" + m), ran.0.entries, s.stepsLeft - 1, s.callsLeft, 1, 0);
          FailedEntryLawful(t, p, s, e, ActionException, "action_exception", "action_exception:" + m);
        case Returned(result) =>
          var e := Entry(obs.step, clock(obs.step), obs, action, result, ran.0.entries, s.stepsLeft - 1, s.callsLeft - 1, 1, 1);
          CalledEntryLawful(o, t, p, s, e, ran.1.state, ran.0.(step := None, entries := []));
      }
    }
  }

  lemma CrashLawful(t: Task, p: Policy)
    ensures Lawful(t, p, Crashed)
  {
  }

  lemma AllPermittedNothing(p: Policy)
    ensures AllPermitted(p, [])
  {
  }

  lemma IterateLawful<W>(o: Oracles<W>, t: Task, clock: int -> string, p: Policy, s: Loop<W>)
    requires Steady(t, p, s)
    ensures var r := Iterate(o, t, clock, p, s);
            if r.Go? then Steady(t, p, r.next) else Lawful(t, p, r.end)
    ensures Iterate(o, t, clock, p, s) == Stop(Crashed) <==> CodeRaises(o, t, p, s)
  {
    hide CodeRaises, Conserves, AuditsPermitted, StepsSpent, CallsSpent, ActOn, Visible;
    IterateCrashes(o, t, clock, p, s);
    if s.stepsLeft > 0 {
      var moved := o.act(s.state, Observe(t, s));
      if moved.1.Acts? {
        ActLawful(o, t, clock, p, s, moved.0, moved.1.action);
      }
    }
  }

  lemma {:induction false} RunFromLawful<W>(o: Oracles<W>, t: Task, clock: int -> string, p: Policy, s: Loop<W>)
    requires Steady(t, p, s)
    ensures Lawful(t, p, RunFrom(o, t, clock, p, s))
    decreases Fuel(s.stepsLeft)
  {
    hide Iterate, Steady, Lawful;
    IterateLawful(o, t, clock, p, s);
    IterateSpends(o, t, clock, p, s);
    var r := Iterate(o, t, clock, p, s);
    if r.Go? {
      RunFromLawful(o, t, clock, p, r.next);
    }
  }

  // Every run, for any agent, actions, setup and validator: it ends in a result unless some of
  // that code raises, budgets are conserved over the trace, the result fits the failure
  // taxonomy and the validations made, and only accesses the sandbox permits are recorded.
  lemma RunLawful<W>(o: Oracles<W>, t: Task, clock: int -> string, state: W)
    requires t.maxSteps >= 0 && t.maxCalls >= 0
    ensures RunTask(o, t, clock, state).Finished? ==>
              Rules(t).Some? && Lawful(t, Rules(t).value, RunTask(o, t, clock, state))
    ensures RunTask(o, t, clock, state).Finished? <==> !EpisodeRaises(o, t, clock, state)
  {
    hide ExecuteFrom, RunFrom, Lawful, RunnerSpec.Rules, EpisodeRaises;
    RunCrashes(o, t, clock, state);
    var p := RunnerSpec.Rules(t);
    if p.Some? {
      var ran := Execute(p.value, FRESH_GUARD, o.setup(state));
      AllPermittedNothing(p.value);
      ExecuteAudits(p.value, FRESH_GUARD, o.setup(state), []);
      if ran.1.Ended? && ran.1.outcome.Returned? {
        var s := Start(t, ran.1.state, ran.0);
        assert Steady(t, p.value, s);
        RunFromLawful(o, t, clock, p.value, s);
      }
    }
  }

  // ---- actions and verdicts ------------------------------------------------------------------

  // An action passes exactly when it names an action of the schema and the call that follows
  // gets a value for every parameter.
  lemma ValidActionIff(action: Json, schema: map<string, seq<string>>)
    ensures ValidateAction(action, schema).None? <==>
              && action.Obj?
              && action.Get("type").Str? && action.Get("type").s != "" && action.Get("type").s in schema
              && (action.Get("args").Null? || action.Get("args").Obj?)
              && forall key <- schema[action.Get("type").s] :: key in ActionArgs(action)
  {
    if action.Obj? && action.Get("type").Str? && action.Get("type").s in schema {
      var required := schema[action.Get("type").s];
      forall i | 0 <= i < |required| ensures required[i] in required {}
    }
  }

  lemma LettersStay(name: string)
    requires name != "" && 'a' <= name[0] <= 'z' && 'a' <= name[|name| - 1] <= 'z'
    ensures Strip(name) == name
  {
    assert "" + name + "" == name;
    StripCore("", name, "", IsSpace);
  }

  lemma KnownNames(name: string)
    requires IsFailureType(name)
    ensures Strip(name) == name && name != ""
  {
    hide Strip;
    assert "budget_exhausted"[15] == 'd' && "invalid_action"[13] == 'n' && "sandbox_violation"[16] == 'n';
    assert "logic_failure"[12] == 'e' && "timeout"[6] == 't' && "non_termination"[14] == 'n';
    LettersStay(name);
  }

  lemma CoercedStays(j: Json)
    ensures CoerceStr(j).Some? ==> CoerceStr(Str(CoerceStr(j).value)) == CoerceStr(j)
  {
    if j.Str? { StripTwice(j.s); }
    hide Strip;
  }

  // The recorded snapshot explains the result: normalising it again gives the same verdict.
  lemma VerdictStable(validation: Json)
    ensures NormalizeTerminal(NormalizeTerminal(validation).snapshot) == NormalizeTerminal(validation)
  {
    hide Strip, ClassifyFailure, IsFailureType, CoerceStr;
    var v := NormalizeTerminal(validation);
    CoercedStays(validation.Get("failure_reason"));
    CoercedStays(validation.Get("message"));
    CoercedStays(validation.Get("error"));
    CoercedStays(validation.Get("termination_reason"));
    CoercedStays(validation.Get("failure_type"));
    LogicNamed();
    TaxonomyStays(v.failureType);
    SnapshotStays(v.snapshot, v);
  }

  lemma LogicNamed()
    ensures CoerceStr(Str("logic_failure")) == Some("logic_failure")
  {
    KnownNames("logic_failure");
    hide Strip;
  }

  lemma TaxonomyStays(name: string)
    requires IsFailureType(name)
    ensures CoerceStr(Str(name)) == Some(name)
  {
    KnownNames(name);
    hide Strip;
  }

  // A snapshot that already holds the verdict's fields is not changed by adding them again.
  lemma SnapshotStays(w: Json, v: Verdict)
    requires w.Obj? && w.fields.Keys <= SNAPSHOT_KEYS && w.Has("ok") && w.Has("terminal")
    requires w.Get("failure_reason") == Str(v.reason) && w.Get("failure_type") == Str(v.failureType)
    requires w.Get("termination_reason") == Str(v.termination)
    ensures Obj(map["ok" := Bool(false), "terminal" := Bool(true)] + Snapshot(w).fields
                + map["failure_reason" := Str(v.reason), "failure_type" := Str(v.failureType), "termination_reason" := Str(v.termination)]) == w
  {
    assert Snapshot(w).fields == w.fields;
  }
}
