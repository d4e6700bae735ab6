// When the agent cannot read the phrase the service expects, no run succeeds: an invariant
// over agent, service and guarded environment that every iteration keeps.
module HandshakeSafety {
  import opened Values
  import opened Text
  import opened EnvSpec
  import opened RunnerSpec
  import opened ChainAgent
  import opened Scripts
  import opened HandshakeTask
  import opened HandshakeRun
  import Paths
  import Phrase

  // ---- the agent ---------------------------------------------------------------------------

  // The payload of a commit: the phrase the agent reads for the id it names.
  predicate Reads(template: string, payload: Json)
  {
    payload.Get("handshake_id").Str?
    && payload.Get("response") == Str(Phrase.Extract(template, payload.Get("handshake_id").s))
  }

  // An action that commits nothing else.
  predicate Honest(template: string, action: Json)
  {
    action.Get("type") == Str("call_api") && action.Get("args").Get("endpoint") == Str("/handshake_commit")
    ==> Reads(template, action.Get("args").Get("payload"))
  }

  predicate Knows(m: Memory, template: string)
  {
    m.template == None || m.template == Some(template)
  }

  // The last result, if it was a template, was this one.
  predicate Told(template: string, action: Json, result: Json)
  {
    action.Get("type") == Str("get_handshake_template") && Fine(result) ==> result.Get("template") == Str(template)
  }

  predicate HonestTurn(template: string, turn: Turn)
  {
    turn.Play? ==> Knows(turn.memory, template) && Honest(template, turn.action)
  }

  lemma OtherActions(template: string, name: string, args: map<string, Json>)
    requires name != "call_api"
    ensures Honest(template, Action(name, args))
  {
    ActionParts(name, args);
    hide Action;
  }

  lemma OtherCalls(template: string, endpoint: string, payload: Json)
    requires endpoint != "/handshake_commit"
    ensures Honest(template, CallAction(endpoint, payload))
  {
    var args := map["endpoint" := Str(endpoint), "payload" := payload];
    ActionParts("call_api", args);
    assert Obj(args).Get("endpoint") == Str(endpoint);
    hide Action;
  }

  lemma CommitReads(template: string, id: string)
    ensures Honest(template, CallAction("/handshake_commit",
                                        Obj(map["handshake_id" := Str(id), "response" := Str(Phrase.Extract(template, id))])))
  {
    hide Phrase.Extract;
    var payload := Obj(map["handshake_id" := Str(id), "response" := Str(Phrase.Extract(template, id))]);
    assert payload.fields["response"] == Str(Phrase.Extract(template, id));
    var args := map["endpoint" := Str("/handshake_commit"), "payload" := payload];
    ActionParts("call_api", args);
    assert Obj(args).Get("payload") == payload;
    hide Action;
  }

  lemma TokenHonest(m: Memory, template: string)
    ensures Honest(template, TokenAction(m))
  {
    hide Honest, CallAction, Action;
    OtherActions(template, "get_required_payload", map[]);
    if m.payloadTemplate.Some? {
      var payload := m.payloadTemplate.value;
      OtherCalls(template, "/token",
                 Obj(if m.id.Some? && m.id.value != "" then payload["handshake_id" := Str(m.id.value)] else payload));
    }
  }

  lemma ProceedHonest(m: Memory, template: string)
    requires Knows(m, template)
    ensures HonestTurn(template, Proceed(m))
  {
    hide Honest, CallAction, Action, TokenAction, Phrase.Extract;
    OtherActions(template, "get_required_payload", map[]);
    OtherActions(template, "get_handshake_template", map[]);
    OtherActions(template, "wait", map["steps" := Int(m.pendingWait)]);
    OtherActions(template, "set_output", map["key" := Str(OUTPUT_KEY), "value" := m.cachedToken]);
    OtherCalls(template, "/handshake", Null);
    TokenHonest(m, template);
    if m.id.Some? { CommitReads(template, m.id.value); }
  }

  lemma RefusedHonest(m: Memory, template: string, result: Json)
    requires Knows(m, template)
    ensures HonestTurn(template, Refused(m, result))
  {
    hide Honest, CallAction, Action, TokenAction, Proceed, AsInt;
    ProceedHonest(m, template);
    TokenHonest(m, template);
    OtherActions(template, "get_required_payload", map[]);
    OtherCalls(template, "/handshake", Null);
    var given := AsInt(result.GetOr("retry_after", Int(1)));
    if given.Some? { OtherActions(template, "wait", map["steps" := Int(if given.value == 0 then 1 else given.value)]); }
  }

  lemma CallHonest(m: Memory, template: string, endpoint: Json, result: Json)
    requires Knows(m, template)
    ensures HonestTurn(template, AfterCall(m, endpoint, result))
  {
    hide Honest, CallAction, Action, TokenAction, Proceed, Refused;
    ProceedHonest(m, template);
    ProceedHonest(Forget(m), template);
    ProceedHonest(m.(id := AsText(result.Get("handshake_id")), confirmed := false), template);
    ProceedHonest(m.(confirmed := true), template);
    RefusedHonest(m, template, result);
    OtherActions(template, "set_output", map["key" := Str(OUTPUT_KEY), "value" := result.GetOr("data", Obj(map[])).Get("token")]);
  }

  // The agent commits only what it reads from the template it was told.
  lemma RespondHonest(m: Memory, template: string, o: Observation)
    requires Knows(m, template) && Told(template, o.lastAction, o.lastResult)
    ensures HonestTurn(template, Respond(m, o))
  {
    hide Honest, CallAction, Action, TokenAction, Proceed, AfterCall;
    var result := o.lastResult;
    ProceedHonest(m, template);
    CallHonest(m, template, o.lastAction.Get("args").Get("endpoint"), result);
    TokenHonest(m.(pendingWait := 0), template);
    OtherActions(template, "wait", map["steps" := Int(1)]);
    OtherCalls(template, "/handshake", Null);
    ProceedHonest(m.(template := Some(template)), template);
    var given := result.GetOr("payload_template", Obj(map[]));
    if given.Obj? { ProceedHonest(m.(payloadTemplate := Some(given.fields)), template); }
  }

  // ---- the service ---------------------------------------------------------------------------

  // inv holds of the service from the start, whatever honest calls it gets, and never of a
  // confirmed one; the judge wants a confirmed one.
  ghost predicate Stubborn<S(!new)>(e: Episode<S>, inv: S -> bool)
  {
    && inv(e.start)
    && (forall s: S | inv(s) :: !e.sv.confirmed(s))
    && (forall s: S, n: int | inv(s) :: inv(e.sv.advance(s, n)))
    && (forall s: S, endpoint: Json, payload: Json | inv(s) && (endpoint == Str("/handshake_commit") ==> Reads(e.setup.template, payload)) ::
          inv(e.sv.call(s, endpoint, payload).0))
    && (forall s: S, output: Json | !e.sv.confirmed(s) ::
          !e.judge(s, Str(e.setup.secret), SERVICE_OBJECT, output).Get("ok").Truthy())
  }

  // ---- the actions ----------------------------------------------------------------------------

  // What an honest action leaves behind.
  ghost predicate Harmless<S(!new)>(e: Episode<S>, inv: S -> bool, name: string, g: Guarded, w: World<S>, r: (Guarded, Ending<World<S>>))
  {
    && r.0.store.hidden == g.store.hidden
    && (r.1.Ended? ==>
          && r.1.state.agent == w.agent && inv(r.1.state.service)
          && (name == "get_handshake_template" && r.1.outcome.Returned? ==>
                Fine(r.1.outcome.value) ==> r.1.outcome.value.Get("template") == Str(e.setup.template)))
  }

  // Code that looks one key up in the hidden state and ends.
  lemma LookupHarmless<S(!new)>(e: Episode<S>, inv: S -> bool, name: string, p: Policy, g: Guarded, w: World<S>,
                                code: Program<World<S>>, key: string)
    requires name != "get_handshake_template" && code.bound == 1 && code.next([]) == Ask(GetHidden(key))
    requires var m := code.next([Value(Lookup(g.store.hidden, key))]);
             m.Finish? && m.state.agent == w.agent && inv(m.state.service)
    ensures Harmless(e, inv, name, g, w, Execute(p, g, code))
  {
    hide ExecuteFrom, Execute;
    var m := code.next([Value(Lookup(g.store.hidden, key))]);
    ExecuteOne(p, g, code, GetHidden(key), m.state, m.outcome);
  }

  lemma DoneHarmless<S(!new)>(e: Episode<S>, inv: S -> bool, name: string, p: Policy, g: Guarded, w: World<S>, outcome: Outcome)
    requires inv(w.service) && (name == "get_handshake_template" ==> !outcome.Returned?)
    ensures Harmless(e, inv, name, g, w, Execute(p, g, Done(Finish(w, outcome))))
  {
    hide ExecuteFrom, Execute;
    ExecuteNone(p, g, Done(Finish(w, outcome)), w, outcome);
  }

  lemma CallHarmless<S(!new)>(e: Episode<S>, inv: S -> bool, p: Policy, g: Guarded, w: World<S>, endpoint: Json, payload: Json)
    requires Stubborn(e, inv) && inv(w.service)
    requires endpoint == Str("/handshake_commit") ==> Reads(e.setup.template, payload)
    ensures Harmless(e, inv, "call_api", g, w, Execute(p, g, CallService(e.sv, e.setup, e.loads, w, endpoint, payload)))
  {
    hide Execute, ExecuteFrom, Harmless, Stubborn, Reads;
    var parsed := CoercePayload(e.loads, payload);
    if endpoint == Str("/handshake_commit") { ReadsObject(e.setup.template, payload); }
    CallsKeep(e, inv, w.service, endpoint, parsed);
    LookupHarmless(e, inv, "call_api", p, g, w, CallService(e.sv, e.setup, e.loads, w, endpoint, payload), e.setup.keys.service);
  }

  lemma CallsKeep<S(!new)>(e: Episode<S>, inv: S -> bool, s: S, endpoint: Json, payload: Json)
    requires Stubborn(e, inv) && inv(s)
    requires endpoint == Str("/handshake_commit") ==> Reads(e.setup.template, payload)
    ensures inv(e.sv.call(s, endpoint, payload).0)
  {
    hide Reads;
  }

  lemma ReadsObject(template: string, payload: Json)
    requires Reads(template, payload)
    ensures payload.Obj?
  {
  }

  lemma AskingHarmless<S(!new)>(e: Episode<S>, inv: S -> bool, p: Policy, g: Guarded, w: World<S>)
    requires Stocked(e, g.store) && inv(w.service)
    ensures Harmless(e, inv, "get_required_payload", g, w, Execute(p, g, GetRequiredPayload(e.setup, w)))
    ensures Harmless(e, inv, "inspect_status", g, w, Execute(p, g, InspectStatus(e.sv, e.setup, w)))
  {
    hide Execute, ExecuteFrom, Harmless;
    LookupHarmless(e, inv, "get_required_payload", p, g, w, GetRequiredPayload(e.setup, w), e.setup.keys.payload);
    LookupHarmless(e, inv, "inspect_status", p, g, w, InspectStatus(e.sv, e.setup, w), e.setup.keys.service);
  }

  // The template that is handed out is the one setup stored.
  lemma TemplateHarmless<S(!new)>(e: Episode<S>, inv: S -> bool, p: Policy, g: Guarded, w: World<S>)
    requires Stocked(e, g.store) && inv(w.service)
    ensures Harmless(e, inv, "get_handshake_template", g, w, Execute(p, g, GetTemplate(e.setup, w)))
  {
    hide Execute, ExecuteFrom;
    var result := Obj(map["ok" := Bool(true), "template" := Str(e.setup.template)]);
    assert result.Get("template") == Str(e.setup.template);
    ExecuteOne(p, g, GetTemplate(e.setup, w), GetHidden(e.setup.keys.template), w, Returned(result));
  }

  lemma WaitHarmless<S(!new)>(e: Episode<S>, inv: S -> bool, p: Policy, g: Guarded, w: World<S>, given: Json)
    requires Stubborn(e, inv) && inv(w.service)
    ensures Harmless(e, inv, "wait", g, w, Execute(p, g, WaitSteps(e.sv, e.setup, w, given)))
  {
    hide Execute, ExecuteFrom, Harmless, IntText;
    var steps := AsSteps(given);
    if steps.None? {
      DoneHarmless(e, inv, "wait", p, g, w, Returned(Fail("invalid_args", "steps must be int")));
    } else if steps.value <= 0 {
      DoneHarmless(e, inv, "wait", p, g, w, Returned(Fail("invalid_args", "steps must be > 0")));
    } else {
      LookupHarmless(e, inv, "wait", p, g, w, WaitSteps(e.sv, e.setup, w, given), e.setup.keys.service);
    }
  }

  lemma OutputHarmless<S(!new)>(e: Episode<S>, inv: S -> bool, p: Policy, g: Guarded, w: World<S>, key: Json, value: Json)
    requires inv(w.service)
    ensures Harmless(e, inv, "set_output", g, w, Execute(p, g, WriteOutput(w, key, value)))
  {
    hide Execute, ExecuteFrom;
    if key != Str(OUTPUT_KEY) {
      DoneHarmless(e, inv, "set_output", p, g, w, Returned(Fail("invalid_output_key", "Only ACCESS_TOKEN may be set in this task.")));
    } else {
      ExecuteOne(p, g, WriteOutput(w, key, value), SetOutput(OUTPUT_KEY, value), w, Returned(Obj(map["ok" := Bool(true)])));
    }
  }

  lemma ReadingHarmless<S(!new)>(e: Episode<S>, inv: S -> bool, p: Policy, g: Guarded, w: World<S>)
    requires inv(w.service)
    ensures Harmless(e, inv, "read_instructions", g, w, Execute(p, g, ReadInstructions(e.setup, w)))
  {
    hide Execute, ExecuteFrom, Paths.Admit;
    var code, op := ReadInstructions(e.setup, w), ReadFile(e.setup.keys.readme);
    var end := code.next([Perform(p, g, op).1]);
    assert end.Finish? && end.state == w;
    ExecuteOne(p, g, code, op, w, end.outcome);
  }

  // Every honest action leaves agent, hidden state and invariant alone.
  lemma ActionHarmless<S(!new)>(e: Episode<S>, inv: S -> bool, p: Policy, g: Guarded, w: World<S>, action: Json)
    requires Stubborn(e, inv) && inv(w.service) && Stocked(e, g.store) && Honest(e.setup.template, action)
    requires action.Get("type").Str?
    ensures var name := action.Get("type").s;
            Harmless(e, inv, name, g, w, Execute(p, g, RunAction(e.sv, e.setup, e.loads, w, name, ActionArgs(action))))
  {
    hide Execute, Harmless, Stubborn, Stocked, CallService, GetTemplate, GetRequiredPayload, WaitSteps, InspectStatus, WriteOutput,
         ReadInstructions, Reads, Fits;
    var name, args := action.Get("type").s, ActionArgs(action);
    if !Fits(name, args) {
      DoneHarmless(e, inv, name, p, g, w, RaisedOther("unexpected arguments"));
    } else if name == "call_api" {
      CallHarmless(e, inv, p, g, w, Lookup(args, "endpoint"), Lookup(args, "payload"));
    } else if name == "get_handshake_template" {
      TemplateHarmless(e, inv, p, g, w);
    } else if name == "get_required_payload" || name == "inspect_status" {
      AskingHarmless(e, inv, p, g, w);
    } else if name == "wait" {
      WaitHarmless(e, inv, p, g, w, Lookup(args, "steps"));
    } else if name == "set_output" {
      OutputHarmless(e, inv, p, g, w, Lookup(args, "key"), Lookup(args, "value"));
    } else {
      FitsNames(name, args);
      ReadingHarmless(e, inv, p, g, w);
    }
  }

  lemma FitsNames(name: string, args: map<string, Json>)
    requires Fits(name, args)
    ensures name in ["call_api", "get_handshake_template", "read_instructions", "get_required_payload", "wait", "inspect_status", "set_output"]
  {
  }

  // ---- the loop --------------------------------------------------------------------------------

  // What holds between iterations.
  ghost predicate Locked<S(!new)>(e: Episode<S>, inv: S -> bool, s: Loop<World<S>>)
  {
    && Knows(s.state.agent, e.setup.template) && inv(s.state.service)
    && Stocked(e, s.guard.store)
    && Told(e.setup.template, s.lastAction, s.lastResult)
  }

  ghost predicate Failed(end: RunEnd)
  {
    end.Finished? ==> !end.art.success
  }

  ghost predicate LockedOut<S(!new)>(e: Episode<S>, inv: S -> bool, r: Progress<World<S>>)
  {
    match r
    case Go(next) => Locked(e, inv, next)
    case Stop(end) => Failed(end)
  }

  lemma FailureFails(exit: Exit, checks: seq<Json>, termination: string, reason: string, failureType: string,
                     steps: int, calls: int, trace: seq<Entry>, validator: Json)
    ensures Failed(Failure(exit, checks, termination, reason, failureType, steps, calls, trace, validator))
  {
  }

  lemma JudgeFails<S(!new)>(e: Episode<S>, inv: S -> bool, t: Task, s: Loop<World<S>>, validation: Json)
    requires Locked(e, inv, s) && validation.Obj? && !validation.Get("ok").Truthy()
    ensures LockedOut(e, inv, Judge(t, s, validation))
  {
    hide Failure, Failed, NormalizeTerminal, Snapshot;
    var v := NormalizeTerminal(validation);
    FailureFails(TerminalCheck, s.checks + [validation], v.termination, v.reason, v.failureType,
                 t.maxSteps - s.stepsLeft, t.maxCalls - s.callsLeft, s.trace, v.snapshot);
  }

  lemma SettleFails<S(!new)>(e: Episode<S>, inv: S -> bool, t: Task, p: Policy, s: Loop<World<S>>)
    requires Stubborn(e, inv) && Locked(e, inv, s) && s.lastAction.Get("type").Str?
    ensures LockedOut(e, inv, Settle(EpisodeOracles(e), t, p, s))
  {
    hide Execute, ExecuteFrom, Judge, SeenAfter, RunAction, Check, SetupCalls, ActOf, Stubborn, Told, Knows;
    var seen := SeenAfter(s.guard.store.seen, s.lastAction.Get("type").s, s.lastResult);
    if seen.Some? {
      var marked := s.guard.(store := s.guard.store.(seen := seen.value));
      RunCheck(e, p, marked, s.state);
      var verdict := e.judge(s.state.service, Str(e.setup.secret), SERVICE_OBJECT, Lookup(marked.store.output, OUTPUT_KEY));
      Unconfirmed(e, inv, s.state.service, Lookup(marked.store.output, OUTPUT_KEY));
      if verdict.Obj? {
        JudgeFails(e, inv, t, s.(guard := marked), verdict);
      }
    }
  }

  lemma Unconfirmed<S(!new)>(e: Episode<S>, inv: S -> bool, s: S, output: Json)
    requires Stubborn(e, inv) && inv(s)
    ensures !e.judge(s, Str(e.setup.secret), SERVICE_OBJECT, output).Get("ok").Truthy()
  {
  }

  lemma RejectFails<S(!new)>(e: Episode<S>, inv: S -> bool, t: Task, clock: int -> string, p: Policy, s: Loop<World<S>>, obs: Observation, action: Json)
    requires ValidateAction(action, t.schema).Some? || s.callsLeft <= 0
    ensures LockedOut(e, inv, ActOn(EpisodeOracles(e), t, clock, p, s, obs, action))
  {
    hide Execute, ExecuteFrom, Settle, ValidateAction, ActionArgs, RunAction, Check, SetupCalls, ActOf, ErrorResult, Locked;
    ValidatedName(action, t.schema);
  }

  lemma ActFails<S(!new)>(e: Episode<S>, inv: S -> bool, t: Task, clock: int -> string, p: Policy, s: Loop<World<S>>, obs: Observation, action: Json)
    requires Stubborn(e, inv) && Locked(e, inv, s) && Honest(e.setup.template, action)
    requires ValidateAction(action, t.schema).None? && s.callsLeft > 0
    ensures LockedOut(e, inv, ActOn(EpisodeOracles(e), t, clock, p, s, obs, action))
  {
    hide Execute, ExecuteFrom, Settle, ValidateAction, ActionArgs, RunAction, Check, SetupCalls, ActOf, Stubborn, Honest, Knows, Failure,
         Failed, ErrorResult;
    ValidatedName(action, t.schema);
    CrashFails();
    var window := s.guard.(step := Some(obs.step), entries := []);
    assert Stocked(e, window.store);
    ActionHarmless(e, inv, p, window, s.state, action);
    var ran := Execute(p, window, RunAction(e.sv, e.setup, e.loads, s.state, action.Get("type").s, ActionArgs(action)));
    if ran.1.Ended? {
      match ran.1.outcome
      case Returned(result) =>
        var entry := Entry(obs.step, clock(obs.step), obs, action, result, ran.0.entries, s.stepsLeft, s.callsLeft - 1, 1, 1);
        SettleFails(e, inv, t, p, s.(guard := ran.0.(step := None, entries := []), state := ran.1.state, callsLeft := s.callsLeft - 1,
                                     lastAction := action, lastResult := result, trace := s.trace + [entry]));
      case RaisedSandbox(m) =>
        var entry := Entry(obs.step, clock(obs.step), obs, action, ErrorResult("sandbox_violation:" + m), ran.0.entries, s.stepsLeft, s.callsLeft, 1, 0);
        FailureFails(ActionViolation, s.checks, "sandbox_violation", m, "sandbox_violation",
                     t.maxSteps - s.stepsLeft, t.maxCalls - s.callsLeft, s.trace + [entry], NO_VALIDATOR);
      case RaisedOther(m) =>
        var entry := Entry(obs.step, clock(obs.step), obs, action, ErrorResult("action_exception:" + m), ran.0.entries, s.stepsLeft, s.callsLeft, 1, 0);
        FailureFails(ActionException, s.checks, "action_exception", "action_exception:" + m, "invalid_action",
                     t.maxSteps - s.stepsLeft, t.maxCalls - s.callsLeft, s.trace + [entry], NO_VALIDATOR);
    }
  }

  lemma CrashFails()
    ensures Failed(Crashed)
  {
  }

  lemma IterateFails<S(!new)>(e: Episode<S>, inv: S -> bool, t: Task, clock: int -> string, p: Policy, s: Loop<World<S>>)
    requires Stubborn(e, inv) && Locked(e, inv, s)
    ensures LockedOut(e, inv, Iterate(EpisodeOracles(e), t, clock, p, s))
  {
    hide ActOn, Visible, RunAction, Check, SetupCalls, Respond, ValidateAction, Stubborn, Failure, Failed, Honest, Stocked;
    FailureFails(StepsGate, s.checks, "steps_exhausted", "steps_exhausted", "budget_exhausted",
                 t.maxSteps, t.maxCalls - s.callsLeft, s.trace, NO_VALIDATOR);
    CrashFails();
    var obs := Observe(t, s);
    RespondHonest(s.state.agent, e.setup.template, obs);
    var turn := Respond(s.state.agent, obs);
    if s.stepsLeft > 0 && turn.Play? {
      var after := s.(state := s.state.(agent := turn.memory), stepsLeft := s.stepsLeft - 1);
      if ValidateAction(turn.action, t.schema).Some? || s.callsLeft <= 0 {
        RejectFails(e, inv, t, clock, p, after, obs, turn.action);
      } else {
        ActFails(e, inv, t, clock, p, after, obs, turn.action);
      }
    }
  }

  lemma {:induction false} RunFails<S(!new)>(e: Episode<S>, inv: S -> bool, t: Task, clock: int -> string, p: Policy, s: Loop<World<S>>)
    requires Stubborn(e, inv) && Locked(e, inv, s)
    ensures Failed(RunFrom(EpisodeOracles(e), t, clock, p, s))
    decreases Fuel(s.stepsLeft)
  {
    hide Iterate, Locked, Failed, Stubborn, EpisodeOracles;
    IterateFails(e, inv, t, clock, p, s);
    IterateSpends(EpisodeOracles(e), t, clock, p, s);
    var r := Iterate(EpisodeOracles(e), t, clock, p, s);
    if r.Go? {
      RunFails(e, inv, t, clock, p, r.next);
    }
  }

  // No run of the agent on a stubborn service succeeds, whatever the budgets.
  lemma NeverSucceeds<S(!new)>(e: Episode<S>, inv: S -> bool, t: Task, clock: int -> string)
    requires Stubborn(e, inv) && e.KeysDiffer()
    requires Rules(t).Some? && Paths.Admit(Rules(t).value.roots, e.setup.keys.readme).Ok?
    ensures !Succeeds(e, t, clock)
  {
    hide RunFrom, ExecuteFrom, Perform, NoneDenied, PerformAll, SetupCalls, RunAction, Check, Paths.Admit, RunnerSpec.Rules, ActOf,
         Stocked, Episode.KeysDiffer;
    var o, p, w := EpisodeOracles(e), Rules(t).value, World(BLANK, e.start);
    var ops := SetupCalls(e.setup);
    SetupStocks(e, p);
    var g := PerformAll(p, FRESH_GUARD, ops);
    assert ops[0..] == ops;
    ExecuteStraight(p, FRESH_GUARD, ops, w, Returned(Null), []);
    assert Locked(e, inv, Start(t, w, g)) by { hide Phrase.Extract; }
    RunFails(e, inv, t, clock, p, Start(t, w, g));
  }
}
