// What the trace and the result of a finished run tell about the code that was driven, turn
// by turn.
module TraceLaws {
  import opened Values
  import opened Text
  import opened EnvSpec
  import opened Failures
  import opened RunnerSpec
  import opened CrashLaws
  import Paths

  // The loop at the beginning of each turn.
  ghost function Turns<W>(o: Oracles<W>, t: Task, clock: int -> string, p: Policy, s: Loop<W>): (turns: seq<Loop<W>>)
    ensures turns != [] && turns[0] == s
    decreases Fuel(s.stepsLeft)
  {
    IterateSpends(o, t, clock, p, s);
    [s] + (if Iterate(o, t, clock, p, s).Go? then Turns(o, t, clock, p, Iterate(o, t, clock, p, s).next) else [])
  }

  // The trace behind a turn that no exception left.
  function TraceAfter<W>(r: Progress<W>): seq<Entry>
    requires r.Go? || r.end.Finished?
  {
    if r.Go? then r.next.trace else r.end.art.trace
  }

  // The turn gets as far as an entry: the agent plays something that is invalid or that a
  // tool call is left for.
  ghost predicate Writes<W>(o: Oracles<W>, t: Task, s: Loop<W>)
  {
    var move := o.act(s.state, Observe(t, s)).1;
    s.stepsLeft > 0 && move.Acts? && (ValidateAction(move.action, t.schema).Some? || s.callsLeft > 0)
  }

  // The result entry of a call by how it ended.
  ghost predicate Reports<W>(ending: Ending<W>, e: Entry)
  {
    match ending
    case Ended(_, Returned(result)) => e.result == result && e.callsDelta == 1
    case Ended(_, RaisedSandbox(m)) =>
      e.result == Obj(map["ok" := Bool(false), "error" := Str("sandbox_violation:" + m)]) && e.callsDelta == 0
    case Ended(_, RaisedOther(m)) =>
      e.result == Obj(map["ok" := Bool(false), "error" := Str("action_exception:" + m)]) && e.callsDelta == 0
    case NeverReturns => false
  }

  // The entry of a turn: the observation, the agent's move on it, how that action ended, and
  // every access its code was due for, however it ended.
  ghost predicate Records<W>(o: Oracles<W>, t: Task, clock: int -> string, p: Policy, s: Loop<W>, e: Entry)
  {
    var moved := o.act(s.state, e.observation);
    var problem := ValidateAction(e.action, t.schema);
    && e.step == t.maxSteps - s.stepsLeft + 1 && e.ts == clock(e.step)
    && e.observation == Observation(e.step, s.lastAction, s.lastResult, Visible(s.guard.store.seen), s.stepsLeft, s.callsLeft)
    && moved.1 == Acts(e.action)
    && e.stepsDelta == 1 && e.stepsAfter == s.stepsLeft - 1 && e.callsAfter == s.callsLeft - e.callsDelta
    && (problem.Some? ==>
          e.audit == [] && e.callsDelta == 0 && e.result == Obj(map["ok" := Bool(false), "error" := Str(problem.value)]))
    && (problem.None? ==>
          && e.action.Get("type").Str?
          && (var window := s.guard.(step := Some(e.step), entries := []);
              var code := o.action(moved.0, e.action.Get("type").s, ActionArgs(e.action));
              e.audit == Trail(p, window, code, []) && Reports(Execute(p, window, code).1, e)))
  }

  // The fields of a validation that a result keeps.
  ghost predicate Excerpt(snapshot: Json, validation: Json)
  {
    forall k :: snapshot.GetOr(k, Null) ==
      if k in ["ok", "terminal", "message", "error", "failure_reason", "failure_type", "termination_reason"]
      then validation.GetOr(k, Null) else Null
  }

  // A turn that no exception left wrote its entry, if it got that far, and nothing else.
  ghost predicate Extends<W>(o: Oracles<W>, t: Task, clock: int -> string, p: Policy, s: Loop<W>, r: Progress<W>)
  {
    r.Go? || r.end.Finished? ==>
      var after := TraceAfter(r);
      if Writes(o, t, s) then
        |after| == |s.trace| + 1 && after[..|s.trace|] == s.trace && Records(o, t, clock, p, s, after[|s.trace|])
      else after == s.trace
  }

  // The entries from base on are those of the turns, in order; only the last turn may have none.
  ghost predicate AllRecorded<W>(o: Oracles<W>, t: Task, clock: int -> string, p: Policy, turns: seq<Loop<W>>, base: nat, trace: seq<Entry>)
  {
    && |turns| - 1 <= |trace| - base <= |turns|
    && forall i | base <= i < |trace| :: Records(o, t, clock, p, turns[i - base], trace[i])
  }

  // What a result says about how the run ended.
  ghost predicate Tells(end: RunEnd)
    requires end.Finished?
  {
    var a := end.art;
    var last := if a.trace == [] then Null else a.trace[|a.trace| - 1].result.Get("error");
    match end.exit
    case StepsGate =>
      a.termination == "steps_exhausted" && a.failureReason == Str("steps_exhausted") && a.failureType == Str("budget_exhausted")
    case CallGate =>
      a.termination == "tool_calls_exhausted" && a.failureReason == Str("tool_calls_exhausted") && a.failureType == Str("budget_exhausted")
    case AgentViolation =>
      a.termination == "sandbox_violation" && a.failureType == Str("sandbox_violation")
    case InvalidAction =>
      a.termination == "invalid_action" && a.failureReason == last && a.failureType == Str("invalid_action")
    case ActionViolation =>
      a.termination == "sandbox_violation" && a.failureType == Str("sandbox_violation")
      && a.failureReason.Str? && last == Str("sandbox_violation:" + a.failureReason.s)
    case ActionException =>
      a.termination == "action_exception" && a.failureReason == last && a.failureType == Str("invalid_action")
    case Validated =>
      a.termination == "success" && a.failureReason == Null && a.failureType == Null
      && end.checks != [] && Excerpt(a.validator, end.checks[|end.checks| - 1])
    case TerminalCheck =>
      a.validator.Get("termination_reason") == Str(a.termination) && a.validator.Get("failure_reason") == a.failureReason
      && a.validator.Get("failure_type") == a.failureType
  }

  // ---- one turn --------------------------------------------------------------------------------

  lemma FailureTrace(exit: Exit, checks: seq<Json>, termination: string, reason: string, failureType: string,
                     stepsUsed: int, callsUsed: int, trace: seq<Entry>, validator: Json)
    ensures var end := Failure(exit, checks, termination, reason, failureType, stepsUsed, callsUsed, trace, validator);
            end.Finished? ==> end.art.trace == trace
  {
  }

  lemma SettleKeepsTrace<W>(o: Oracles<W>, t: Task, p: Policy, s: Loop<W>)
    requires s.lastAction.Get("type").Str?
    ensures var r := Settle(o, t, p, s); r != Stop(Crashed) ==> TraceAfter(r) == s.trace
  {
    hide Execute, SeenAfter, NormalizeTerminal, Snapshot, EnsureFailureType;
  }

  lemma ActRecords<W>(o: Oracles<W>, t: Task, clock: int -> string, p: Policy, s: Loop<W>, state: W, action: Json)
    requires s.stepsLeft > 0 && o.act(s.state, Observe(t, s)) == (state, Acts(action))
    ensures Extends(o, t, clock, p, s, ActOn(o, t, clock, p, s.(state := state, stepsLeft := s.stepsLeft - 1), Observe(t, s), action))
  {
    hide ExecuteFrom, Trail, Settle, ValidateAction, ActionArgs, Visible, Failure;
    var obs := Observe(t, s);
    ValidatedName(action, t.schema);
    var problem := ValidateAction(action, t.schema);
    if problem.Some? {
      var e := Entry(obs.step, clock(obs.step), obs, action, ErrorResult(problem.value), [], s.stepsLeft - 1, s.callsLeft, 1, 0);
      FailureTrace(InvalidAction, s.checks, "invalid_action", problem.value, "invalid_action",
                   t.maxSteps - (s.stepsLeft - 1), t.maxCalls - s.callsLeft, s.trace + [e], NO_VALIDATOR);
    } else if s.callsLeft <= 0 {
      FailureTrace(CallGate, s.checks, "tool_calls_exhausted", "tool_calls_exhausted", "budget_exhausted",
                   t.maxSteps - (s.stepsLeft - 1), t.maxCalls, s.trace, NO_VALIDATOR);
    } else {
      var window := s.guard.(step := Some(obs.step), entries := []);
      var code := o.action(state, action.Get("type").s, ActionArgs(action));
      var ran := Execute(p, window, code);
      ExecuteRecordsExactly(p, window, code, []);
      assert ran.0.entries == Trail(p, window, code, []);
      if ran.1.Ended? {
        match ran.1.outcome
        case RaisedSandbox(m) =>
          var e := Entry(obs.step, clock(obs.step), obs, action, ErrorResult("sandbox_violation:" + m), ran.0.entries, s.stepsLeft - 1, s.callsLeft, 1, 0);
          FailureTrace(ActionViolation, s.checks, "sandbox_violation", m, "sandbox_violation",
                       t.maxSteps - (s.stepsLeft - 1), t.maxCalls - s.callsLeft, s.trace + [e], NO_VALIDATOR);
        case RaisedOther(m) =>
          var e := Entry(obs.step, clock(obs.step), obs, action, ErrorResult("action_exception:" + m), ran.0.entries, s.stepsLeft - 1, s.callsLeft, 1, 0);
          FailureTrace(ActionException, s.checks, "action_exception", "action_exception:" + m, "invalid_action",
                       t.maxSteps - (s.stepsLeft - 1), t.maxCalls - s.callsLeft, s.trace + [e], NO_VALIDATOR);
        case Returned(result) =>
          var e := Entry(obs.step, clock(obs.step), obs, action, result, ran.0.entries, s.stepsLeft - 1, s.callsLeft - 1, 1, 1);
          SettleKeepsTrace(o, t, p, Loop(ran.1.state, ran.0.(step := None, entries := []), s.stepsLeft - 1, s.callsLeft - 1,
                                         action, result, s.trace + [e], s.checks));
      }
    }
  }

  // A turn writes exactly one entry, and that one tells what was played, what came of it and
  // which accesses it was due, or leaves the trace alone.
  lemma IterateRecords<W>(o: Oracles<W>, t: Task, clock: int -> string, p: Policy, s: Loop<W>)
    ensures Extends(o, t, clock, p, s, Iterate(o, t, clock, p, s))
  {
    hide ActOn, Visible, ValidateAction, Records, Failure;
    if s.stepsLeft <= 0 {
      FailureTrace(StepsGate, s.checks, "steps_exhausted", "steps_exhausted", "budget_exhausted",
                   t.maxSteps, t.maxCalls - s.callsLeft, s.trace, NO_VALIDATOR);
    } else {
      var moved := o.act(s.state, Observe(t, s));
      if moved.1.Violates? {
        FailureTrace(AgentViolation, s.checks, "sandbox_violation", moved.1.message, "sandbox_violation",
                     t.maxSteps - s.stepsLeft, t.maxCalls - s.callsLeft, s.trace, NO_VALIDATOR);
      } else if moved.1.Acts? {
        ActRecords(o, t, clock, p, s, moved.0, moved.1.action);
      }
    }
  }

  // What the next turn begins with: the store as action, marking and validation left it, in
  // that order and outside any window, and the code's own state.
  ghost predicate Carries<W>(o: Oracles<W>, t: Task, p: Policy, s: Loop<W>, next: Loop<W>)
  {
    var moved := o.act(s.state, Observe(t, s));
    && moved.1.Acts? && moved.1.action.Get("type").Str?
    && (var action := moved.1.action;
        var name := action.Get("type").s;
        var ran := Execute(p, s.guard.(step := Some(t.maxSteps - s.stepsLeft + 1), entries := []), o.action(moved.0, name, ActionArgs(action)));
        && ran.1.Ended? && ran.1.outcome.Returned?
        && (var seen := SeenAfter(ran.0.store.seen, name, ran.1.outcome.value);
            && seen.Some?
            && (var judged := Execute(p, Guarded(ran.0.store.(seen := seen.value), None, []), o.validate(ran.1.state));
                && judged.1.Ended? && judged.1.outcome.Returned?
                && next.guard == judged.0 && next.state == judged.1.state
                && next.checks == s.checks + [judged.1.outcome.value]
                && next.lastAction == action && next.lastResult == ran.1.outcome.value
                && next.stepsLeft == s.stepsLeft - 1 && next.callsLeft == s.callsLeft - 1)))
  }

  lemma IterateCarries<W>(o: Oracles<W>, t: Task, clock: int -> string, p: Policy, s: Loop<W>)
    requires Iterate(o, t, clock, p, s).Go?
    ensures Carries(o, t, p, s, Iterate(o, t, clock, p, s).next)
  {
    hide ExecuteFrom, ValidateAction, ActionArgs, Visible, SeenAfter, Failure, Close, NormalizeTerminal, ErrorResult, Settle;
    var obs := Observe(t, s);
    var moved := o.act(s.state, obs);
    var action := moved.1.action;
    ValidatedName(action, t.schema);
    var window := s.guard.(step := Some(obs.step), entries := []);
    var ran := Execute(p, window, o.action(moved.0, action.Get("type").s, ActionArgs(action)));
    var e := Entry(obs.step, clock(obs.step), obs, action, ran.1.outcome.value, ran.0.entries, s.stepsLeft - 1, s.callsLeft - 1, 1, 1);
    var called := Loop(ran.1.state, ran.0.(step := None, entries := []), s.stepsLeft - 1, s.callsLeft - 1, action, ran.1.outcome.value,
                       s.trace + [e], s.checks);
    assert Iterate(o, t, clock, p, s) == Settle(o, t, p, called);
    SettleCarries(o, t, p, called);
  }

  lemma SettleCarries<W>(o: Oracles<W>, t: Task, p: Policy, s: Loop<W>)
    requires s.lastAction.Get("type").Str? && Settle(o, t, p, s).Go?
    ensures var next := Settle(o, t, p, s).next;
            var seen := SeenAfter(s.guard.store.seen, s.lastAction.Get("type").s, s.lastResult);
            && seen.Some?
            && (var judged := Execute(p, s.guard.(store := s.guard.store.(seen := seen.value)), o.validate(s.state));
                && judged.1.Ended? && judged.1.outcome.Returned?
                && next == s.(guard := judged.0, state := judged.1.state, checks := s.checks + [judged.1.outcome.value]))
  {
    hide ExecuteFrom, SeenAfter, Failure, Close, NormalizeTerminal;
  }

  // A listed path is seen from then on: only a successful list_dir marks, and it marks
  // the normal forms of what it listed.
  lemma ListingMarks(seen: set<string>, name: string, result: Json)
    ensures name != "list_dir" || !result.Get("ok").Truthy() ==> SeenAfter(seen, name, result) == Some(seen)
    ensures name == "list_dir" && result.Get("ok").Truthy() && StringList(result.Get("files")) ==>
              var files := Strings(result.Get("files").items);
              && (SeenAfter(seen, name, result).Some? <==> forall f <- files :: Paths.Normalize(f).Ok?)
              && (SeenAfter(seen, name, result).Some? ==> forall f ::
                    f in SeenAfter(seen, name, result).value <==> f in seen || exists listed <- files :: Paths.Normalize(listed) == Ok(f))
  {
    hide Paths.Normalize, MarkAll;
    if name == "list_dir" && result.Get("ok").Truthy() && StringList(result.Get("files")) {
      var files := Strings(result.Get("files").items);
      assert result.GetOr("files", Arr([])) == result.Get("files");
      assert FilesToMark(result.Get("files")) == Some(files);
      MarksAll(seen, files);
      if MarkAll(seen, files).1 {
        var marked := MarkAll(seen, files).0;
        assert SeenAfter(seen, name, result) == Some(marked);
        forall f ensures f in marked <==> f in seen || exists listed <- files :: Paths.Normalize(listed) == Ok(f) {
          if exists listed <- files :: Paths.Normalize(listed) == Ok(f) {
            var listed :| listed in files && Paths.Normalize(listed) == Ok(f);
          }
        }
      }
    }
  }

  // ---- whole runs ----------------------------------------------------------------------------------

  lemma {:induction false} RunFromRecords<W>(o: Oracles<W>, t: Task, clock: int -> string, p: Policy, s: Loop<W>)
    requires RunFrom(o, t, clock, p, s).Finished?
    ensures s.trace <= RunFrom(o, t, clock, p, s).art.trace
    ensures AllRecorded(o, t, clock, p, Turns(o, t, clock, p, s), |s.trace|, RunFrom(o, t, clock, p, s).art.trace)
    decreases Fuel(s.stepsLeft)
  {
    hide Iterate, Records, Writes, AllRecorded;
    IterateRecords(o, t, clock, p, s);
    IterateSpends(o, t, clock, p, s);
    var r := Iterate(o, t, clock, p, s);
    var trace := RunFrom(o, t, clock, p, s).art.trace;
    if r.Go? {
      GoWrites(o, t, clock, p, s);
      RunFromRecords(o, t, clock, p, r.next);
      assert trace[|s.trace|] == r.next.trace[|s.trace|];
      RecordedBehind(o, t, clock, p, s, Turns(o, t, clock, p, r.next), |s.trace|, trace);
    } else {
      assert Turns(o, t, clock, p, s) == [s] && (s.trace == trace || s.trace == trace[..|s.trace|]);
      RecordedLast(o, t, clock, p, s, trace);
    }
  }

  lemma RecordedBehind<W>(o: Oracles<W>, t: Task, clock: int -> string, p: Policy, s: Loop<W>, rest: seq<Loop<W>>, base: nat, trace: seq<Entry>)
    requires base < |trace| && Records(o, t, clock, p, s, trace[base])
    requires AllRecorded(o, t, clock, p, rest, base + 1, trace)
    ensures AllRecorded(o, t, clock, p, [s] + rest, base, trace)
  {
    hide Records;
    forall i | base <= i < |trace| ensures Records(o, t, clock, p, ([s] + rest)[i - base], trace[i]) {
      if i > base { assert ([s] + rest)[i - base] == rest[i - (base + 1)]; }
    }
  }

  lemma RecordedLast<W>(o: Oracles<W>, t: Task, clock: int -> string, p: Policy, s: Loop<W>, trace: seq<Entry>)
    requires trace == s.trace || (|trace| == |s.trace| + 1 && Records(o, t, clock, p, s, trace[|s.trace|]))
    ensures AllRecorded(o, t, clock, p, [s], |s.trace|, trace)
  {
    hide Records;
  }

  lemma GoWrites<W>(o: Oracles<W>, t: Task, clock: int -> string, p: Policy, s: Loop<W>)
    requires Iterate(o, t, clock, p, s).Go?
    ensures Writes(o, t, s)
  {
    hide Execute, Settle, ValidateAction, ActionArgs, Visible, Failure;
  }

  // The turns of an episode whose setup returned.
  ghost function EpisodeTurns<W>(o: Oracles<W>, t: Task, clock: int -> string, state: W): seq<Loop<W>>
    requires RunTask(o, t, clock, state).Finished?
  {
    var ran := Execute(Rules(t).value, FRESH_GUARD, o.setup(state));
    Turns(o, t, clock, Rules(t).value, Start(t, ran.1.state, ran.0))
  }

  // Every entry of every finished run: entry i is the one of turn i, so its audit is what the
  // action's code was due in a fresh window, also when that code raised.
  lemma RunRecords<W>(o: Oracles<W>, t: Task, clock: int -> string, state: W)
    requires RunTask(o, t, clock, state).Finished?
    ensures Rules(t).Some?
    ensures AllRecorded(o, t, clock, Rules(t).value, EpisodeTurns(o, t, clock, state), 0, RunTask(o, t, clock, state).art.trace)
  {
    hide Execute, RunFrom, Turns, AllRecorded, Rules;
    var ran := Execute(Rules(t).value, FRESH_GUARD, o.setup(state));
    RunFromRecords(o, t, clock, Rules(t).value, Start(t, ran.1.state, ran.0));
  }

  // ---- how a run ends --------------------------------------------------------------------------------

  lemma FailureTells(exit: Exit, checks: seq<Json>, termination: string, reason: string, failureType: string,
                     stepsUsed: int, callsUsed: int, trace: seq<Entry>, validator: Json)
    requires Tells(Finished(Artifact(false, termination, Str(reason), Str(failureType), stepsUsed, callsUsed, trace, validator), exit, checks))
    requires IsFailureType(failureType)
    ensures var end := Failure(exit, checks, termination, reason, failureType, stepsUsed, callsUsed, trace, validator);
            end.Finished? && Tells(end) && end.exit == exit && end.art.trace == trace && end.art.failureReason == Str(reason)
  {
    hide Tells, IsFailureType;
    FailureCloses(exit, checks, termination, reason, failureType, stepsUsed, callsUsed, trace, validator);
  }

  // The first of three texts that is not blank, without the space around it.
  function FirstText(a: Json, b: Json, c: Json): Option<string>
  {
    if CoerceStr(a).Some? then CoerceStr(a) else if CoerceStr(b).Some? then CoerceStr(b) else CoerceStr(c)
  }

  // How a terminal validation is read: the reason is the first text among failure_reason,
  // message and error, a failure type of the taxonomy stays, any other is derived from the
  // termination reason.
  lemma VerdictReads(validation: Json)
    requires validation.Obj?
    ensures var v := NormalizeTerminal(validation);
            var given := FirstText(validation.Get("failure_reason"), validation.Get("message"), validation.Get("error"));
            var named, kind := CoerceStr(validation.Get("termination_reason")), CoerceStr(validation.Get("failure_type"));
            && v.reason == (if given.Some? then given.value else "logic_failure")
            && v.termination == (if named.Some? then named.value else "logic_failure")
            && v.failureType == (if kind.Some? && IsFailureType(kind.value) then kind.value else ClassifyFailure(v.termination))
  {
    hide CoerceStr, ClassifyFailure, IsFailureType, Snapshot;
  }

  // Of the validator's other fields ok, terminal, message and error are kept as they are.
  lemma VerdictKeeps(validation: Json)
    requires validation.Obj?
    ensures var v := NormalizeTerminal(validation);
            && v.snapshot.Get("failure_reason") == Str(v.reason) && v.snapshot.Get("failure_type") == Str(v.failureType)
            && v.snapshot.Get("termination_reason") == Str(v.termination)
            && v.snapshot.GetOr("ok", Null) == validation.GetOr("ok", Bool(false))
            && v.snapshot.GetOr("terminal", Null) == validation.GetOr("terminal", Bool(true))
            && v.snapshot.Get("message") == validation.Get("message") && v.snapshot.Get("error") == validation.Get("error")
  {
    hide CoerceStr, ClassifyFailure, IsFailureType;
    SnapshotKeeps(validation);
    assert "message" in SNAPSHOT_KEYS && "error" in SNAPSHOT_KEYS;
    hide Snapshot;
  }

  lemma VerdictDrops(validation: Json, key: string)
    ensures NormalizeTerminal(validation).snapshot.Has(key) ==>
              key in ["ok", "terminal", "message", "error", "failure_reason", "failure_type", "termination_reason"]
  {
    hide CoerceStr, ClassifyFailure, IsFailureType;
  }

  lemma SnapshotKeeps(validation: Json)
    requires validation.Obj?
    ensures Excerpt(Snapshot(validation), validation)
  {
  }

  // The two ways a validation ends a run.
  lemma VerdictTells(v: Verdict, checks: seq<Json>, stepsUsed: int, callsUsed: int, trace: seq<Entry>)
    requires IsFailureType(v.failureType)
    requires v.snapshot.Get("failure_reason") == Str(v.reason) && v.snapshot.Get("failure_type") == Str(v.failureType)
    requires v.snapshot.Get("termination_reason") == Str(v.termination)
    ensures var end := Failure(TerminalCheck, checks, v.termination, v.reason, v.failureType, stepsUsed, callsUsed, trace, v.snapshot);
            end.Finished? && Tells(end) && end.exit == TerminalCheck
  {
    hide Failure, IsFailureType;
    FailureTells(TerminalCheck, checks, v.termination, v.reason, v.failureType, stepsUsed, callsUsed, trace, v.snapshot);
  }

  lemma SuccessTells(validation: Json, checks: seq<Json>, stepsUsed: int, callsUsed: int, trace: seq<Entry>)
    requires validation.Obj?
    ensures var end := Close(Validated, checks + [validation], Artifact(true, "success", Null, Null, stepsUsed, callsUsed, trace, Snapshot(validation)));
            end.Finished? && Tells(end) && end.exit == Validated
  {
    hide Snapshot, Excerpt;
    SnapshotKeeps(validation);
  }

  lemma JudgeTells<W>(t: Task, s: Loop<W>, validation: Json)
    requires validation.Obj?
    ensures var r := Judge(t, s, validation);
            r.Stop? ==> r.end.Finished? && Tells(r.end) && (r.end.exit == Validated || r.end.exit == TerminalCheck)
  {
    hide NormalizeTerminal, Snapshot, IsFailureType, ClassifyFailure, CoerceStr, Failure, Close, Tells;
    VerdictKeeps(validation);
    assert IsFailureType(NormalizeTerminal(validation).failureType) by { VerdictInTaxonomy(validation); }
    VerdictTells(NormalizeTerminal(validation), s.checks + [validation], t.maxSteps - s.stepsLeft, t.maxCalls - s.callsLeft, s.trace);
    SuccessTells(validation, s.checks, t.maxSteps - s.stepsLeft, t.maxCalls - s.callsLeft, s.trace);
  }

  lemma SettleTells<W>(o: Oracles<W>, t: Task, p: Policy, s: Loop<W>)
    requires s.lastAction.Get("type").Str?
    ensures var r := Settle(o, t, p, s);
            r.Stop? && r.end.Finished? ==> Tells(r.end) && (r.end.exit == Validated || r.end.exit == TerminalCheck)
  {
    hide ExecuteFrom, SeenAfter, Judge, Tells;
    var seen := SeenAfter(s.guard.store.seen, s.lastAction.Get("type").s, s.lastResult);
    if seen.Some? {
      var ran := Execute(p, s.guard.(store := s.guard.store.(seen := seen.value)), o.validate(s.state));
      if ran.1.Ended? && ran.1.outcome.Returned? && ran.1.outcome.value.Obj? {
        JudgeTells(t, s.(guard := ran.0, state := ran.1.state), ran.1.outcome.value);
      }
    }
  }

  lemma ErrorShown(trace: seq<Entry>, e: Entry, message: string)
    requires e.result == ErrorResult(message)
    ensures var all := trace + [e]; all[|all| - 1].result.Get("error") == Str(message)
  {
  }

  // The returns behind an entry that holds an error.
  lemma InvalidTells<W>(t: Task, s: Loop<W>, e: Entry, reason: string)
    requires e.result == ErrorResult(reason)
    ensures var end := Failure(InvalidAction, s.checks, "invalid_action", reason, "invalid_action",
                               t.maxSteps - s.stepsLeft, t.maxCalls - s.callsLeft, s.trace + [e], NO_VALIDATOR);
            end.Finished? && Tells(end) && end.exit == InvalidAction
  {
    hide Failure, IsFailureType, ErrorResult;
    LiteralTypes();
    ErrorShown(s.trace, e, reason);
    FailureTells(InvalidAction, s.checks, "invalid_action", reason, "invalid_action",
                 t.maxSteps - s.stepsLeft, t.maxCalls - s.callsLeft, s.trace + [e], NO_VALIDATOR);
  }

  lemma DeniedTells<W>(t: Task, s: Loop<W>, e: Entry, message: string)
    requires e.result == ErrorResult("sandbox_violation:" + message)
    ensures var end := Failure(ActionViolation, s.checks, "sandbox_violation", message, "sandbox_violation",
                               t.maxSteps - s.stepsLeft, t.maxCalls - s.callsLeft, s.trace + [e], NO_VALIDATOR);
            end.Finished? && Tells(end) && end.exit == ActionViolation
  {
    hide Failure, IsFailureType, ErrorResult;
    LiteralTypes();
    ErrorShown(s.trace, e, "sandbox_violation:" + message);
    FailureTells(ActionViolation, s.checks, "sandbox_violation", message, "sandbox_violation",
                 t.maxSteps - s.stepsLeft, t.maxCalls - s.callsLeft, s.trace + [e], NO_VALIDATOR);
  }

  lemma RaisedTells<W>(t: Task, s: Loop<W>, e: Entry, reason: string)
    requires e.result == ErrorResult(reason)
    ensures var end := Failure(ActionException, s.checks, "action_exception", reason, "invalid_action",
                               t.maxSteps - s.stepsLeft, t.maxCalls - s.callsLeft, s.trace + [e], NO_VALIDATOR);
            end.Finished? && Tells(end) && end.exit == ActionException
  {
    hide Failure, IsFailureType, ErrorResult;
    LiteralTypes();
    ErrorShown(s.trace, e, reason);
    FailureTells(ActionException, s.checks, "action_exception", reason, "invalid_action",
                 t.maxSteps - s.stepsLeft, t.maxCalls - s.callsLeft, s.trace + [e], NO_VALIDATOR);
  }

  lemma GateTells<W>(t: Task, s: Loop<W>)
    ensures var end := Failure(CallGate, s.checks, "tool_calls_exhausted", "tool_calls_exhausted", "budget_exhausted",
                               t.maxSteps - s.stepsLeft, t.maxCalls, s.trace, NO_VALIDATOR);
            end.Finished? && Tells(end) && end.exit == CallGate
  {
    hide Failure, IsFailureType;
    LiteralTypes();
    FailureTells(CallGate, s.checks, "tool_calls_exhausted", "tool_calls_exhausted", "budget_exhausted",
                 t.maxSteps - s.stepsLeft, t.maxCalls, s.trace, NO_VALIDATOR);
  }

  lemma ActTells<W>(o: Oracles<W>, t: Task, clock: int -> string, p: Policy, s: Loop<W>, obs: Observation, action: Json)
    ensures var r := ActOn(o, t, clock, p, s, obs, action);
            r.Stop? && r.end.Finished? ==>
              && Tells(r.end) && r.end.exit != StepsGate && r.end.exit != AgentViolation
              && (r.end.exit == InvalidAction <==> ValidateAction(action, t.schema).Some?)
              && (r.end.exit == CallGate <==> ValidateAction(action, t.schema).None? && s.callsLeft <= 0)
  {
    hide ExecuteFrom, Settle, ValidateAction, ActionArgs, Failure, IsFailureType, Tells;
    ValidatedName(action, t.schema);
    var problem := ValidateAction(action, t.schema);
    if problem.Some? {
      var e := Entry(obs.step, clock(obs.step), obs, action, ErrorResult(problem.value), [], s.stepsLeft, s.callsLeft, 1, 0);
      InvalidTells(t, s, e, problem.value);
    } else if s.callsLeft <= 0 {
      GateTells(t, s);
    } else {
      var ran := Execute(p, s.guard.(step := Some(obs.step), entries := []), o.action(s.state, action.Get("type").s, ActionArgs(action)));
      if ran.1.Ended? {
        match ran.1.outcome
        case RaisedSandbox(m) =>
          var e := Entry(obs.step, clock(obs.step), obs, action, ErrorResult("sandbox_violation:" + m), ran.0.entries, s.stepsLeft, s.callsLeft, 1, 0);
          DeniedTells(t, s, e, m);
        case RaisedOther(m) =>
          var e := Entry(obs.step, clock(obs.step), obs, action, ErrorResult("action_exception:" + m), ran.0.entries, s.stepsLeft, s.callsLeft, 1, 0);
          RaisedTells(t, s, e, "action_exception:" + m);
        case Returned(result) =>
          var e := Entry(obs.step, clock(obs.step), obs, action, result, ran.0.entries, s.stepsLeft, s.callsLeft - 1, 1, 1);
          SettleTells(o, t, p, s.(guard := ran.0.(step := None, entries := []), state := ran.1.state, callsLeft := s.callsLeft - 1,
                                  lastAction := action, lastResult := result, trace := s.trace + [e]));
      }
    }
  }

  lemma LiteralTypes()
    ensures IsFailureType("budget_exhausted") && IsFailureType("invalid_action") && IsFailureType("sandbox_violation")
  {
  }

  // Why a run ends: its exit by what this turn was, its result by its exit.
  lemma IterateTells<W>(o: Oracles<W>, t: Task, clock: int -> string, p: Policy, s: Loop<W>)
    requires Iterate(o, t, clock, p, s).Stop? && Iterate(o, t, clock, p, s).end.Finished?
    ensures var end, move := Iterate(o, t, clock, p, s).end, o.act(s.state, Observe(t, s)).1;
            && Tells(end)
            && (end.exit == StepsGate <==> s.stepsLeft <= 0)
            && (end.exit == AgentViolation <==> s.stepsLeft > 0 && move.Violates?)
            && (end.exit == AgentViolation ==> end.art.failureReason == Str(move.message))
            && (end.exit == CallGate <==> s.stepsLeft > 0 && move.Acts? && !Writes(o, t, s))
            && (end.exit == InvalidAction <==> s.stepsLeft > 0 && move.Acts? && ValidateAction(move.action, t.schema).Some?)
  {
    hide Visible, ValidateAction, ActOn, Failure, Tells, IsFailureType;
    LiteralTypes();
    var moved := o.act(s.state, Observe(t, s));
    if s.stepsLeft <= 0 {
      StepsTells(t, s);
    } else if moved.1.Violates? {
      ViolationTells(t, s, moved.1.message);
    } else if moved.1.Acts? {
      ActTells(o, t, clock, p, s.(state := moved.0, stepsLeft := s.stepsLeft - 1), Observe(t, s), moved.1.action);
    }
  }

  lemma StepsTells<W>(t: Task, s: Loop<W>)
    ensures var end := Failure(StepsGate, s.checks, "steps_exhausted", "steps_exhausted", "budget_exhausted",
                               t.maxSteps, t.maxCalls - s.callsLeft, s.trace, NO_VALIDATOR);
            end.Finished? && Tells(end) && end.exit == StepsGate
  {
    hide Failure, IsFailureType;
    LiteralTypes();
    FailureTells(StepsGate, s.checks, "steps_exhausted", "steps_exhausted", "budget_exhausted",
                 t.maxSteps, t.maxCalls - s.callsLeft, s.trace, NO_VALIDATOR);
  }

  lemma ViolationTells<W>(t: Task, s: Loop<W>, message: string)
    ensures var end := Failure(AgentViolation, s.checks, "sandbox_violation", message, "sandbox_violation",
                               t.maxSteps - s.stepsLeft, t.maxCalls - s.callsLeft, s.trace, NO_VALIDATOR);
            end.Finished? && Tells(end) && end.exit == AgentViolation && end.art.failureReason == Str(message)
  {
    hide Failure, IsFailureType;
    LiteralTypes();
    FailureTells(AgentViolation, s.checks, "sandbox_violation", message, "sandbox_violation",
                 t.maxSteps - s.stepsLeft, t.maxCalls - s.callsLeft, s.trace, NO_VALIDATOR);
  }

  lemma {:induction false} RunFromTells<W>(o: Oracles<W>, t: Task, clock: int -> string, p: Policy, s: Loop<W>)
    requires RunFrom(o, t, clock, p, s).Finished?
    ensures Tells(RunFrom(o, t, clock, p, s))
    decreases Fuel(s.stepsLeft)
  {
    hide Iterate, Tells;
    IterateSpends(o, t, clock, p, s);
    var r := Iterate(o, t, clock, p, s);
    if r.Go? {
      RunFromTells(o, t, clock, p, r.next);
    } else {
      IterateTells(o, t, clock, p, s);
    }
  }

  // The result of every finished run repeats what ended it.
  lemma RunTells<W>(o: Oracles<W>, t: Task, clock: int -> string, state: W)
    requires RunTask(o, t, clock, state).Finished?
    ensures Tells(RunTask(o, t, clock, state))
  {
    hide Execute, RunFrom, Tells, Rules;
    var ran := Execute(Rules(t).value, FRESH_GUARD, o.setup(state));
    RunFromTells(o, t, clock, Rules(t).value, Start(t, ran.1.state, ran.0));
  }

  // ---- rejected actions ------------------------------------------------------------------------------

  // An action is rejected for the first of five reasons, in this order.
  lemma RejectedFor(action: Json, schema: map<string, seq<string>>)
    ensures var name, args := action.Get("type"), action.Get("args");
            ValidateAction(action, schema) ==
              if !action.Obj? then Some("action_must_be_dict")
              else if !name.Str? || name == Str("") then Some("invalid_action_type")
              else if name.s !in schema then Some("unknown_action")
              else if args != Null && !args.Obj? then Some("args_must_be_dict")
              else if exists key <- schema[name.s] :: !args.Has(key) then Some("missing_arg")
              else None
  {
    if action.Obj? && action.Get("type").Str? && action.Get("type").s in schema {
      var required := schema[action.Get("type").s];
      forall i | 0 <= i < |required| ensures required[i] in required {}
    }
  }
}
