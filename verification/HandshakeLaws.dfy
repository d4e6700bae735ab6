// What the actions and validators of the two handshake tasks do for any agent, whatever it
// plays.
module HandshakeLaws {
  import opened Values
  import opened Text
  import opened EnvSpec
  import opened RunnerSpec
  import opened ChainAgent
  import opened Scripts
  import opened HandshakeTask
  import opened HandshakeSafety
  import opened ChainRuns
  import ChainService
  import RateService
  import Paths

  // What an action leaves behind: files, hidden state and seen paths as they were, this output
  // and this service.
  ghost predicate Leaves<S>(g: Guarded, r: (Guarded, Ending<World<S>>), agent: Memory, output: map<string, Json>, service: S)
  {
    && r.0.store == g.store.(output := output)
    && r.1.Ended? && r.1.state.agent == agent && r.1.state.service == service
  }

  // A payload is passed on as it is, or as the dictionary its text holds; anything else but None
  // does not reach the service.
  function Passed(loads: string -> Option<Json>, payload: Json): Option<Json>
  {
    if payload.Null? || payload.Obj? then Some(payload)
    else if payload.Str? && loads(payload.s).Some? && loads(payload.s).value.Obj? then loads(payload.s) else None
  }

  // The service after an action: a call and a wait for a positive number of steps reach it.
  function ServiceThen<S>(sv: Service<S>, loads: string -> Option<Json>, s: S, name: string, args: map<string, Json>): S
  {
    if !Fits(name, args) then s
    else if name == "call_api" then
      var payload := Passed(loads, Lookup(args, "payload"));
      if payload.None? then s else sv.call(s, Lookup(args, "endpoint"), payload.value).0
    else if name == "wait" then
      match Lookup(args, "steps")
      case Int(n) => if n > 0 then sv.advance(s, n) else s
      case Bool(b) => if b then sv.advance(s, 1) else s
      case _ => s
    else s
  }

  // The output after an action: only ACCESS_TOKEN can be set.
  function OutputThen(output: map<string, Json>, name: string, args: map<string, Json>): map<string, Json>
  {
    if name == "set_output" && Fits(name, args) && Lookup(args, "key") == Str("ACCESS_TOKEN")
    then output["ACCESS_TOKEN" := Lookup(args, "value")] else output
  }

  lemma OneLookup<S>(p: Policy, g: Guarded, code: Program<World<S>>, key: string)
    requires code.bound == 1 && code.next([]) == Ask(GetHidden(key))
    requires code.next([Value(Lookup(g.store.hidden, key))]).Finish?
    ensures var m := code.next([Value(Lookup(g.store.hidden, key))]); Execute(p, g, code) == (g, Ended(m.state, m.outcome))
  {
    hide ExecuteFrom, Execute;
    var m := code.next([Value(Lookup(g.store.hidden, key))]);
    ExecuteOne(p, g, code, GetHidden(key), m.state, m.outcome);
  }

  lemma DoneLeaves<S>(p: Policy, g: Guarded, w: World<S>, outcome: Outcome)
    ensures Leaves(g, Execute(p, g, Done(Finish(w, outcome))), w.agent, g.store.output, w.service)
  {
    hide ExecuteFrom, Execute;
    ExecuteNone(p, g, Done(Finish(w, outcome)), w, outcome);
  }

  lemma AskingLeaves<S>(sv: Service<S>, setup: Setup, p: Policy, g: Guarded, w: World<S>)
    ensures Leaves(g, Execute(p, g, GetRequiredPayload(setup, w)), w.agent, g.store.output, w.service)
    ensures Leaves(g, Execute(p, g, GetTemplate(setup, w)), w.agent, g.store.output, w.service)
    ensures Leaves(g, Execute(p, g, InspectStatus(sv, setup, w)), w.agent, g.store.output, w.service)
  {
    hide ExecuteFrom, Execute;
    OneLookup(p, g, GetRequiredPayload(setup, w), setup.keys.payload);
    OneLookup(p, g, GetTemplate(setup, w), setup.keys.template);
    OneLookup(p, g, InspectStatus(sv, setup, w), setup.keys.service);
  }

  lemma CallLeaves<S>(sv: Service<S>, setup: Setup, loads: string -> Option<Json>, p: Policy, g: Guarded, w: World<S>,
                      endpoint: Json, payload: Json)
    requires Lookup(g.store.hidden, setup.keys.service) != Null
    ensures var passed := Passed(loads, payload);
            var r := Execute(p, g, CallService(sv, setup, loads, w, endpoint, payload));
            && Leaves(g, r, w.agent, g.store.output, if passed.None? then w.service else sv.call(w.service, endpoint, passed.value).0)
            && (passed.Some? && sv.call(w.service, endpoint, passed.value).1.Some? ==>
                  r.1.outcome == Returned(sv.call(w.service, endpoint, passed.value).1.value))
  {
    hide ExecuteFrom, Execute;
    OneLookup(p, g, CallService(sv, setup, loads, w, endpoint, payload), setup.keys.service);
  }

  lemma WaitLeaves<S>(sv: Service<S>, setup: Setup, p: Policy, g: Guarded, w: World<S>, given: Json)
    requires Lookup(g.store.hidden, setup.keys.service) != Null
    ensures Leaves(g, Execute(p, g, WaitSteps(sv, setup, w, given)), w.agent, g.store.output,
                   if AsSteps(given).Some? && AsSteps(given).value > 0 then sv.advance(w.service, AsSteps(given).value) else w.service)
  {
    hide ExecuteFrom, Execute, IntText;
    var steps := AsSteps(given);
    if steps.None? {
      DoneLeaves(p, g, w, Returned(Fail("invalid_args", "steps must be int")));
    } else if steps.value <= 0 {
      DoneLeaves(p, g, w, Returned(Fail("invalid_args", "steps must be > 0")));
    } else {
      OneLookup(p, g, WaitSteps(sv, setup, w, given), setup.keys.service);
    }
  }

  lemma OutputLeaves<S>(p: Policy, g: Guarded, w: World<S>, key: Json, value: Json)
    ensures Leaves(g, Execute(p, g, WriteOutput(w, key, value)), w.agent,
                   if key == Str("ACCESS_TOKEN") then g.store.output["ACCESS_TOKEN" := value] else g.store.output, w.service)
  {
    hide ExecuteFrom, Execute;
    if key != Str(OUTPUT_KEY) {
      DoneLeaves(p, g, w, Returned(Fail("invalid_output_key", "Only ACCESS_TOKEN may be set in this task.")));
    } else {
      ExecuteOne(p, g, WriteOutput(w, key, value), SetOutput(OUTPUT_KEY, value), w, Returned(Obj(map["ok" := Bool(true)])));
    }
  }

  lemma ReadingLeaves<S>(setup: Setup, p: Policy, g: Guarded, w: World<S>)
    ensures Leaves(g, Execute(p, g, ReadInstructions(setup, w)), w.agent, g.store.output, w.service)
  {
    hide Execute, ExecuteFrom, Paths.Admit;
    var code, op := ReadInstructions(setup, w), ReadFile(setup.keys.readme);
    var end := code.next([Perform(p, g, op).1]);
    assert end.Finish? && end.state == w;
    ExecuteOne(p, g, code, op, w, end.outcome);
  }

  // Whatever an agent plays: an action changes no file, no hidden state and no seen path, sets no
  // output but ACCESS_TOKEN, and reaches the service only through calls and waits.
  lemma ActionLeaves<S>(sv: Service<S>, setup: Setup, loads: string -> Option<Json>, p: Policy, g: Guarded, w: World<S>,
                        name: string, args: map<string, Json>)
    requires Lookup(g.store.hidden, setup.keys.service) != Null
    ensures Leaves(g, Execute(p, g, RunAction(sv, setup, loads, w, name, args)), w.agent,
                   OutputThen(g.store.output, name, args), ServiceThen(sv, loads, w.service, name, args))
  {
    hide Execute, Leaves, CallService, GetTemplate, GetRequiredPayload, WaitSteps, InspectStatus, WriteOutput, ReadInstructions, Fits, Passed;
    NamesDiffer();
    if !Fits(name, args) {
      DoneLeaves(p, g, w, RaisedOther("unexpected arguments"));
    } else if name == "call_api" {
      CallLeaves(sv, setup, loads, p, g, w, Lookup(args, "endpoint"), Lookup(args, "payload"));
    } else if name == "wait" {
      WaitLeaves(sv, setup, p, g, w, Lookup(args, "steps"));
    } else if name == "set_output" {
      OutputLeaves(p, g, w, Lookup(args, "key"), Lookup(args, "value"));
    } else {
      AskingLeaves(sv, setup, p, g, w);
      ReadingLeaves(setup, p, g, w);
    }
  }

  lemma NamesDiffer()
    ensures "set_output" != "call_api" && "set_output" != "wait" && "call_api" != "wait"
    ensures forall name | name in ["get_handshake_template", "get_required_payload", "inspect_status"] ::
              name != "set_output" && name != "call_api" && name != "wait"
  {
    assert |"set_output"| == 10 && |"call_api"| == 8 && |"wait"| == 4;
    assert |"get_handshake_template"| == 22 && |"get_required_payload"| == 20 && |"inspect_status"| == 14;
  }

  // Both validators pass exactly the secret of a confirmed service.
  lemma JudgesPass(c: ChainService.Chain, r: RateService.Rate, secret: string, output: Json)
    requires secret != ""
    ensures ChainJudge(c, Str(secret), SERVICE_OBJECT, output).Get("ok").Truthy() <==> c.confirmed && output == Str(secret)
    ensures RateJudge(r, Str(secret), SERVICE_OBJECT, output).Get("ok").Truthy() <==> r.confirmed && output == Str(secret)
  {
  }

  // What the asking actions return: what setup stored, and the status of the service.
  lemma AskingReturns<S>(sv: Service<S>, setup: Setup, p: Policy, g: Guarded, w: World<S>)
    ensures var found := Lookup(g.store.hidden, setup.keys.template);
            found != Null ==> Execute(p, g, GetTemplate(setup, w)).1 == Ended(w, Returned(Obj(map["ok" := Bool(true), "template" := found])))
    ensures var found := Lookup(g.store.hidden, setup.keys.payload);
            found.Truthy() ==>
              Execute(p, g, GetRequiredPayload(setup, w)).1 == Ended(w, Returned(Obj(map["ok" := Bool(true), "payload_template" := found])))
    ensures Lookup(g.store.hidden, setup.keys.service) != Null ==>
              Execute(p, g, InspectStatus(sv, setup, w)).1 == Ended(w, Returned(Obj(map["ok" := Bool(true), "status" := sv.status(w.service)])))
  {
    hide ExecuteFrom, Execute;
    OneLookup(p, g, GetRequiredPayload(setup, w), setup.keys.payload);
    OneLookup(p, g, GetTemplate(setup, w), setup.keys.template);
    OneLookup(p, g, InspectStatus(sv, setup, w), setup.keys.service);
  }

  lemma StatusTells(c: ChainService.Chain)
    ensures var s := ChainService.Status(c);
            && s.Get("now") == Int(c.now) && s.Get("blocked_until") == Int(c.blockedUntil) && s.Get("handshake_id") == OptStr(c.id)
            && s.Get("handshake_confirmed") == Bool(c.confirmed) && s.Get("rate_limit_hits") == Int(c.rateHits)
            && s.Get("token_calls") == Int(c.tokenCalls)
  {
    hide OptStr;
  }

  lemma RateStatusTells(r: RateService.Rate)
    ensures var s := RateService.Status(r);
            && s.Get("now") == Int(r.now) && s.Get("blocked_until") == Int(r.blockedUntil) && s.Get("handshake_id") == OptStr(r.id)
            && s.Get("handshake_confirmed") == Bool(r.confirmed) && s.Get("rate_limit_hits") == Int(r.rateHits)
            && s.Get("token_calls") == Int(r.tokenCalls)
  {
    hide OptStr;
  }
}
