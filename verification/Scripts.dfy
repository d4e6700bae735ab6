// Runs whose agent and task are known: when every iteration follows a script, the budgets
// alone decide how the run ends.
module Scripts {
  import opened Values
  import opened Text
  import opened EnvSpec
  import opened RunnerSpec
  import opened CrashLaws
  import opened Artifacts

  // What an iteration depends on, apart from the budgets.
  datatype Core<W> = Core(state: W, guard: Guarded, lastAction: Json, lastResult: Json)

  predicate At<W(==)>(s: Loop<W>, c: Core<W>)
  {
    s.state == c.state && s.guard == c.guard && s.lastAction == c.lastAction && s.lastResult == c.lastResult
  }

  function TraceAfter<W>(r: Progress<W>): seq<Entry>
  {
    if r.Go? then r.next.trace else if r.end.Finished? then r.end.art.trace else []
  }

  // The iteration puts no line separator into the trace.
  predicate KeepsSafe<W>(s: Loop<W>, r: Progress<W>)
  {
    TraceSafe(s.trace) ==> TraceSafe(TraceAfter(r))
  }

  ghost predicate ClockSafe(clock: int -> string)
  {
    forall n :: OneLine(clock(n))
  }

  // Iteration k follows the script: it goes on to the next core, and the last one leaves
  // the loop through the exit last. The tool-call gate stands before every action except
  // one that is rejected as invalid. A safe script keeps line separators out.
  ghost predicate Follows<W>(o: Oracles<W>, t: Task, clock: int -> string, p: Policy, cores: seq<Core<W>>, last: Exit, safe: bool,
                             k: nat, s: Loop<W>)
    requires k < |cores|
  {
    At(s, cores[k]) && s.stepsLeft > 0 ==>
      var r := Iterate(o, t, clock, p, s);
      (safe ==> KeepsSafe(s, r)) &&
      if k == |cores| - 1 && last == InvalidAction then LeavesBy(r, InvalidAction)
      else if s.callsLeft <= 0 then LeavesBy(r, CallGate)
      else if k == |cores| - 1 then LeavesBy(r, last)
      else r.Go? && At(r.next, cores[k + 1]) && r.next.callsLeft == s.callsLeft - 1
  }

  ghost predicate LeavesBy<W>(r: Progress<W>, exit: Exit)
  {
    r.Stop? && r.end.Finished? && r.end.exit == exit
  }

  ghost predicate Scripted<W(!new)>(o: Oracles<W>, t: Task, clock: int -> string, p: Policy, cores: seq<Core<W>>, last: Exit, safe: bool)
  {
    forall k: nat, s: Loop<W> | k < |cores| :: Follows(o, t, clock, p, cores, last, safe, k, s)
  }

  // How a script of n iterations ends under the budgets that are left.
  function ScriptExit(last: Exit, n: nat, steps: int, calls: int): Exit
  {
    var calling := if last == InvalidAction then n - 1 else n;
    if steps >= n && calls >= calling then last
    else if calls < steps && calls < calling then CallGate
    else StepsGate
  }

  // The steps such a run uses.
  function ScriptSteps(last: Exit, n: nat, steps: int, calls: int): int
  {
    match ScriptExit(last, n, steps, calls)
    case StepsGate => steps
    case CallGate => calls + 1
    case _ => n
  }

  lemma IterateCounts<W>(o: Oracles<W>, t: Task, clock: int -> string, p: Policy, s: Loop<W>)
    ensures var r := Iterate(o, t, clock, p, s);
            s.stepsLeft > 0 && r.Stop? && r.end.Finished? && r.end.exit != AgentViolation ==>
              r.end.exit != StepsGate && r.end.art.stepsUsed == t.maxSteps - s.stepsLeft + 1
  {
    hide Execute, Visible, SeenAfter, ValidateAction, NormalizeTerminal, Snapshot;
  }

  lemma {:induction false} RunScript<W(!new)>(o: Oracles<W>, t: Task, clock: int -> string, p: Policy, cores: seq<Core<W>>, last: Exit,
                                   safe: bool, k: nat, s: Loop<W>)
    requires Scripted(o, t, clock, p, cores, last, safe) && last in {InvalidAction, Validated}
    requires k < |cores| && At(s, cores[k])
    requires s.stepsLeft >= 0 && s.callsLeft >= 0
    ensures var end := RunFrom(o, t, clock, p, s);
            && end.Finished?
            && end.exit == ScriptExit(last, |cores| - k, s.stepsLeft, s.callsLeft)
            && end.art.stepsUsed == t.maxSteps - s.stepsLeft + ScriptSteps(last, |cores| - k, s.stepsLeft, s.callsLeft)
            && (safe && TraceSafe(s.trace) ==> TraceSafe(end.art.trace))
    decreases Fuel(s.stepsLeft)
  {
    hide Iterate, At, TraceSafe;
    IterateCounts(o, t, clock, p, s);
    IterateSpends(o, t, clock, p, s);
    assert Follows(o, t, clock, p, cores, last, safe, k, s);
    if s.stepsLeft <= 0 {
      OutOfSteps(o, t, clock, p, s);
    } else {
      var r := Iterate(o, t, clock, p, s);
      if r.Go? {
        RunScript(o, t, clock, p, cores, last, safe, k + 1, r.next);
      }
    }
  }

  lemma OutOfSteps<W>(o: Oracles<W>, t: Task, clock: int -> string, p: Policy, s: Loop<W>)
    requires s.stepsLeft <= 0
    ensures LeavesBy(Iterate(o, t, clock, p, s), StepsGate)
    ensures Iterate(o, t, clock, p, s).end.art.stepsUsed == t.maxSteps && Iterate(o, t, clock, p, s).end.art.trace == s.trace
  {
    hide ActOn, Visible, Failure;
    FailureCloses(StepsGate, s.checks, "steps_exhausted", "steps_exhausted", "budget_exhausted",
                  t.maxSteps, t.maxCalls - s.callsLeft, s.trace, NO_VALIDATOR);
  }

  // ---- single turns --------------------------------------------------------------------------

  // An iteration in which the agent plays a valid action and the action and the validator
  // return comes down to the judgement on the validation.
  lemma PlayedTurn<W>(o: Oracles<W>, t: Task, clock: int -> string, p: Policy, s: Loop<W>, moved: W, action: Json,
                acted: Guarded, called: W, result: Json, judged: Guarded, checked: W, validation: Json)
    requires s.stepsLeft > 0 && s.callsLeft > 0
    requires o.act(s.state, Observe(t, s)) == (moved, Acts(action))
    requires ValidateAction(action, t.schema).None? && action.Get("type").Str? && (action.Get("type").s != "list_dir" || !result.Obj?)
    requires Execute(p, s.guard.(step := Some(Observe(t, s).step), entries := []), o.action(moved, action.Get("type").s, ActionArgs(action)))
             == (acted, Ended(called, Returned(result)))
    requires Execute(p, acted.(step := None, entries := []), o.validate(called)) == (judged, Ended(checked, Returned(validation)))
    requires validation.Obj?
    ensures var obs := Observe(t, s);
            var entry := Entry(obs.step, clock(obs.step), obs, action, result, acted.entries, s.stepsLeft - 1, s.callsLeft - 1, 1, 1);
            Iterate(o, t, clock, p, s) ==
              Judge(t, Loop(checked, judged, s.stepsLeft - 1, s.callsLeft - 1, action, result, s.trace + [entry], s.checks), validation)
  {
    hide Execute, ExecuteFrom, Visible, ValidateAction, ActionArgs, Judge;
    ValidatedName(action, t.schema);
    var store := acted.store;
    assert store.(seen := store.seen) == store;
  }

  lemma JudgedSafe<W>(t: Task, s: Loop<W>, validation: Json)
    requires validation.Obj?
    ensures KeepsSafe(s, Judge(t, s, validation))
  {
    hide Snapshot, NormalizeTerminal, EntrySafe;
  }

  lemma AppendSafe(trace: seq<Entry>, e: Entry)
    requires TraceSafe(trace) && EntrySafe(e)
    ensures TraceSafe(trace + [e])
  {
    hide EntrySafe;
  }

  lemma JudgedOk<W>(t: Task, s: Loop<W>, validation: Json)
    requires validation.Obj? && validation.Get("ok").Truthy()
    ensures LeavesBy(Judge(t, s, validation), Validated)
  {
    hide Snapshot, NormalizeTerminal;
  }

  lemma JudgedOpen<W>(t: Task, s: Loop<W>, validation: Json)
    requires validation.Obj? && !validation.Get("ok").Truthy() && !validation.Get("terminal").Truthy()
    ensures Judge(t, s, validation) == Go(s.(checks := s.checks + [validation]))
  {
    hide Snapshot, NormalizeTerminal, Close;
  }

  // The tool-call gate: the step is spent and nothing is called.
  lemma GateTurn<W>(o: Oracles<W>, t: Task, clock: int -> string, p: Policy, s: Loop<W>, moved: W, action: Json)
    requires s.stepsLeft > 0 && s.callsLeft <= 0
    requires o.act(s.state, Observe(t, s)) == (moved, Acts(action))
    requires ValidateAction(action, t.schema).None?
    ensures LeavesBy(Iterate(o, t, clock, p, s), CallGate) && KeepsSafe(s, Iterate(o, t, clock, p, s))
  {
    hide Execute, ExecuteFrom, Visible, ValidateAction, ActionArgs, TraceSafe, Settle, Failure;
    ValidatedName(action, t.schema);
    FailureCloses(CallGate, s.checks, "tool_calls_exhausted", "tool_calls_exhausted", "budget_exhausted",
                  t.maxSteps - (s.stepsLeft - 1), t.maxCalls, s.trace, NO_VALIDATOR);
  }

  // An action that is not in the schema.
  lemma InvalidTurn<W>(o: Oracles<W>, t: Task, clock: int -> string, p: Policy, s: Loop<W>, moved: W, action: Json)
    requires s.stepsLeft > 0
    requires o.act(s.state, Observe(t, s)) == (moved, Acts(action))
    requires ValidateAction(action, t.schema).Some?
    ensures LeavesBy(Iterate(o, t, clock, p, s), InvalidAction)
    ensures ClockSafe(clock) && LineSafe(action) ==> KeepsSafe(s, Iterate(o, t, clock, p, s))
  {
    hide Execute, ExecuteFrom, Visible, ValidateAction, TraceSafe, LineSafe, OneLine, ErrorResult, Settle, Failure;
    var obs, problem := Observe(t, s), ValidateAction(action, t.schema).value;
    var entry := Entry(obs.step, clock(obs.step), obs, action, ErrorResult(problem), [], s.stepsLeft - 1, s.callsLeft, 1, 0);
    FailureCloses(InvalidAction, s.checks, "invalid_action", problem, "invalid_action",
                  t.maxSteps - (s.stepsLeft - 1), t.maxCalls - s.callsLeft, s.trace + [entry], NO_VALIDATOR);
    if ClockSafe(clock) && LineSafe(action) && TraceSafe(s.trace) {
      ProblemSafe(action, t.schema);
      AppendSafe(s.trace, entry);
    }
  }

  // What the runner says about an invalid action holds no line separator.
  lemma ProblemSafe(action: Json, schema: map<string, seq<string>>)
    ensures var problem := ValidateAction(action, schema);
            problem.Some? ==> LineSafe(ErrorResult(problem.value))
  {
    assert OneLine("action_must_be_dict") && OneLine("invalid_action_type") && OneLine("unknown_action");
    assert OneLine("args_must_be_dict") && OneLine("missing_arg") && OneLine("ok") && OneLine("error");
    hide OneLine;
  }

  // ---- straight-line task code -----------------------------------------------------------------

  lemma ExecuteNone<W>(p: Policy, g: Guarded, code: Program<W>, state: W, outcome: Outcome)
    requires code.next([]) == Finish(state, outcome)
    ensures Execute(p, g, code) == (g, Ended(state, outcome))
  {
  }

  lemma ExecuteStep<W>(p: Policy, g: Guarded, code: Program<W>, replies: seq<Reply>, op: Op, after: seq<Reply>)
    requires code.next(replies) == Ask(op) && |replies| < code.bound
    requires after == replies + [Perform(p, g, op).1]
    ensures ExecuteFrom(p, g, code, replies) == ExecuteFrom(p, Perform(p, g, op).0, code, after)
  {
    hide Perform;
  }

  lemma ExecuteEnd<W>(p: Policy, g: Guarded, code: Program<W>, replies: seq<Reply>, state: W, outcome: Outcome)
    requires code.next(replies) == Finish(state, outcome)
    ensures ExecuteFrom(p, g, code, replies) == (g, Ended(state, outcome))
  {
  }

  lemma ExecuteOne<W>(p: Policy, g: Guarded, code: Program<W>, op: Op, state: W, outcome: Outcome)
    requires code.next([]) == Ask(op) && code.bound >= 1
    requires code.next([Perform(p, g, op).1]) == Finish(state, outcome)
    ensures Execute(p, g, code) == (Perform(p, g, op).0, Ended(state, outcome))
  {
    hide Perform, ExecuteFrom;
    var after := Perform(p, g, op);
    assert [] + [after.1] == [after.1];
    ExecuteStep(p, g, code, [], op, [after.1]);
    ExecuteEnd(p, after.0, code, [after.1], state, outcome);
  }

  // Calls made one after the other whatever they return, except that a denied call raises.
  function Straight<W>(ops: seq<Op>, state: W, outcome: Outcome): Program<W>
  {
    Program((replies: seq<Reply>) =>
              if replies != [] && replies[|replies| - 1].Denied? then
                Finish(state, RaisedSandbox(replies[|replies| - 1].message))
              else if |replies| < |ops| then Ask(ops[|replies|])
              else Finish(state, outcome), |ops|)
  }

  ghost function PerformAll(p: Policy, g: Guarded, ops: seq<Op>): Guarded
    decreases |ops|
  {
    if ops == [] then g else PerformAll(p, Perform(p, g, ops[0]).0, ops[1..])
  }

  ghost predicate NoneDenied(p: Policy, g: Guarded, ops: seq<Op>)
    decreases |ops|
  {
    ops == [] || (!Perform(p, g, ops[0]).1.Denied? && NoneDenied(p, Perform(p, g, ops[0]).0, ops[1..]))
  }

  lemma PerformNothing(p: Policy, g: Guarded)
    ensures NoneDenied(p, g, []) && PerformAll(p, g, []) == g
  {
  }

  lemma PerformFirst(p: Policy, g: Guarded, ops: seq<Op>, op: Op, rest: seq<Op>, after: Guarded)
    requires ops == [op] + rest && !Perform(p, g, op).1.Denied? && Perform(p, g, op).0 == after
    requires NoneDenied(p, after, rest)
    ensures NoneDenied(p, g, ops) && PerformAll(p, g, ops) == PerformAll(p, after, rest)
  {
    hide Perform;
    assert ops[0] == op && ops[1..] == rest;
  }

  lemma {:induction false} ExecuteStraight<W>(p: Policy, g: Guarded, ops: seq<Op>, state: W, outcome: Outcome, replies: seq<Reply>)
    requires |replies| <= |ops| && NoneDenied(p, g, ops[|replies|..])
    requires replies != [] ==> !replies[|replies| - 1].Denied?
    ensures ExecuteFrom(p, g, Straight(ops, state, outcome), replies)
            == (PerformAll(p, g, ops[|replies|..]), Ended(state, outcome))
    decreases |ops| - |replies|
  {
    hide Perform;
    var code := Straight(ops, state, outcome);
    if |replies| < |ops| {
      var op := ops[|replies|];
      var rest := ops[|replies|..];
      assert rest[0] == op && rest[1..] == ops[|replies| + 1..];
      var after := Perform(p, g, op);
      ExecuteStraight(p, after.0, ops, state, outcome, replies + [after.1]);
    }
  }
}
