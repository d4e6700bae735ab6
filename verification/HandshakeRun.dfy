// ChainAgent run on a handshake task: the exact number of steps to success, and how every
// pair of budgets ends the run.
module HandshakeRun {
  import opened Values
  import opened Text
  import opened EnvSpec
  import opened RunnerSpec
  import opened Artifacts
  import opened ChainAgent
  import opened Scripts
  import opened HandshakeTask
  import Paths
  import Phrase

  // What an episode is about: the service, its start, the setup and what the answers are.
  datatype Episode<!S(!new)> = Episode(
    sv: Service<S>,
    setup: Setup,
    judge: (S, Json, Json, Json) -> Json,
    loads: string -> Option<Json>,
    start: S,
    blocked: int,
    hiccup: bool)
  {
    const ID := "hs-0"

    // ---- the service along the path -----------------------------------------------------

    function ShakeCall(): (S, Option<Json>)
    {
      sv.call(start, Str("/handshake"), Null)
    }

    function CommitPayload(): (payload: Json)
      ensures payload.Obj?
    {
      Obj(map["handshake_id" := Str(ID), "response" := Str(Phrase.Extract(setup.template, ID))])
    }

    function CommitCall(): (S, Option<Json>)
    {
      sv.call(ShakeCall().0, Str("/handshake_commit"), CommitPayload())
    }

    function TokenPayload(): (payload: Json)
      ensures payload.Obj?
    {
      Obj(setup.required["handshake_id" := Str(ID)])
    }

    function AskToken(s: S): (S, Option<Json>)
    {
      sv.call(s, Str("/token"), TokenPayload())
    }

    // After the commit, after the rate limit, after the temporary failure.
    function Committed(): S { CommitCall().0 }

    function Waited(): S
    {
      if blocked > 0 then sv.advance(AskToken(Committed()).0, blocked) else Committed()
    }

    function Recovered(): S
    {
      if hiccup then AskToken(Waited()).0 else Waited()
    }

    predicate Answers(r: Option<Json>)
    {
      r.Some? && r.value.Obj?
    }

    predicate Refuses(r: Option<Json>, error: string)
    {
      Answers(r) && !r.value.Get("ok").Truthy() && r.value.Get("error") == Str(error)
    }

    // The service answers the agent's calls as the protocol has it: handshake and commit
    // succeed, then one rate limit if there is one, one temporary failure if there is one,
    // and the token.
    predicate Cooperates()
    {
      && Answers(ShakeCall().1) && ShakeCall().1.value.Get("ok").Truthy() && ShakeCall().1.value.Get("handshake_id") == Str(ID)
      && Answers(CommitCall().1) && CommitCall().1.value.Get("ok").Truthy()
      && (blocked > 0 ==>
            Refuses(AskToken(Committed()).1, "rate_limited") && AskToken(Committed()).1.value.Get("retry_after") == Int(blocked))
      && (hiccup ==> Refuses(AskToken(Waited()).1, "temporary_failure"))
      && (var granted := AskToken(Recovered()).1;
          Answers(granted) && granted.value.Get("ok").Truthy() && granted.value.Get("data").Obj?
          && granted.value.Get("data").Get("token") == Str(setup.secret))
      && sv.confirmed(AskToken(Recovered()).0)
    }

    // ---- the validator --------------------------------------------------------------------

    // No verdict without an output, success for the secret of a confirmed service.
    ghost predicate JudgesOutput()
    {
      && (forall s: S :: judge(s, Str(setup.secret), SERVICE_OBJECT, Null).Obj?)
      && (forall s: S :: !judge(s, Str(setup.secret), SERVICE_OBJECT, Null).Get("ok").Truthy())
      && (forall s: S :: !judge(s, Str(setup.secret), SERVICE_OBJECT, Null).Get("terminal").Truthy())
      && (forall s: S | sv.confirmed(s) ::
            var v := judge(s, Str(setup.secret), SERVICE_OBJECT, Str(setup.secret)); v.Obj? && v.Get("ok").Truthy())
    }

    // ---- the setup --------------------------------------------------------------------------

    predicate KeysDiffer()
    {
      var k := setup.keys;
      k.service != k.payload && k.service != k.template && k.service != k.secret
      && k.payload != k.template && k.payload != k.secret && k.template != k.secret
    }

    predicate Ready()
    {
      && KeysDiffer()
      && setup.secret != "" && setup.required != map[] && "handshake_id" !in setup.required
      && setup.template != "" && Phrase.Extract(setup.template, ID) != ""
    }
  }

  function EpisodeOracles<S(!new)>(e: Episode<S>): Oracles<World<S>>
  {
    TaskOracles(e.sv, e.setup, e.judge, e.loads)
  }

  // ---- the stages of the run ------------------------------------------------------------

  datatype Stage = Begin | GotPayload | GotTemplate | GotId | Confirmed | Limited | Waited | Hiccuped | Granted

  // The number of iterations to success.
  function Length(blocked: int, hiccup: bool): nat
  {
    6 + (if blocked > 0 then 2 else 0) + (if hiccup then 1 else 0)
  }

  function Stages(blocked: int, hiccup: bool): (stages: seq<Stage>)
    ensures |stages| == Length(blocked, hiccup) && stages[0] == Begin
  {
    [Begin, GotPayload, GotTemplate, GotId, Confirmed]
    + (if blocked > 0 then [Limited, Waited] else [])
    + (if hiccup then [Hiccuped] else [])
    + [Granted]
  }

  function Payload<S(!new)>(e: Episode<S>): Memory { BLANK.(payloadTemplate := Some(e.setup.required)) }

  function Templated<S(!new)>(e: Episode<S>): Memory { Payload(e).(template := Some(e.setup.template)) }

  function Shaken<S(!new)>(e: Episode<S>): Memory { Templated(e).(id := Some(e.ID)) }

  function Sure<S(!new)>(e: Episode<S>): Memory { Shaken(e).(confirmed := true) }

  // The agent's memory when a stage begins.
  function MemoryAt<S(!new)>(e: Episode<S>, stage: Stage): Memory
  {
    match stage
    case Begin => BLANK
    case GotPayload => BLANK
    case GotTemplate => Payload(e)
    case GotId => Templated(e)
    case Confirmed => Shaken(e)
    case Waited => Sure(e).(pendingWait := e.blocked)
    case _ => Sure(e)
  }

  // What the agent plays in a stage, and its memory afterwards.
  function Played<S(!new)>(e: Episode<S>, stage: Stage): Json
  {
    match stage
    case Begin => ASK_PAYLOAD
    case GotPayload => ASK_TEMPLATE
    case GotTemplate => CallAction("/handshake", Null)
    case GotId => CallAction("/handshake_commit", e.CommitPayload())
    case Limited => WaitAction(e.blocked)
    case Granted => OutputAction(Str(e.setup.secret))
    case _ => CallAction("/token", e.TokenPayload())
  }

  function MemoryAfter<S(!new)>(e: Episode<S>, stage: Stage): Memory
  {
    match stage
    case Begin => BLANK
    case GotPayload => Payload(e)
    case GotTemplate => Templated(e)
    case GotId => Shaken(e)
    case Limited => Sure(e).(pendingWait := e.blocked)
    case Granted => Sure(e).(cachedToken := Str(e.setup.secret))
    case _ => Sure(e)
  }

  // The service when a stage begins.
  function ServiceAt<S(!new)>(e: Episode<S>, stage: Stage): S
  {
    match stage
    case GotId => e.ShakeCall().0
    case Confirmed => e.Committed()
    case Limited => e.AskToken(e.Committed()).0
    case Waited => e.Waited()
    case Hiccuped => e.AskToken(e.Waited()).0
    case Granted => e.AskToken(e.Recovered()).0
    case _ => e.start
  }

  // The last action and result when a stage begins.
  function LastAction<S(!new)>(e: Episode<S>, stage: Stage): Json
  {
    match stage
    case Begin => Null
    case GotPayload => ASK_PAYLOAD
    case GotTemplate => ASK_TEMPLATE
    case GotId => CallAction("/handshake", Null)
    case Confirmed => CallAction("/handshake_commit", e.CommitPayload())
    case Waited => WaitAction(e.blocked)
    case _ => CallAction("/token", e.TokenPayload())
  }

  function LastResult<S(!new)>(e: Episode<S>, stage: Stage): Json
  {
    match stage
    case Begin => Null
    case GotPayload => Obj(map["ok" := Bool(true), "payload_template" := Obj(e.setup.required)])
    case GotTemplate => Obj(map["ok" := Bool(true), "template" := Str(e.setup.template)])
    case GotId => Given(e.ShakeCall().1)
    case Confirmed => Given(e.CommitCall().1)
    case Limited => Given(e.AskToken(e.Committed()).1)
    case Waited => Obj(map["ok" := Bool(true), "message" := Str("advanced virtual time by " + IntText(e.blocked) + " steps")])
    case Hiccuped => Given(e.AskToken(e.Waited()).1)
    case Granted => Given(e.AskToken(e.Recovered()).1)
  }

  function Given(r: Option<Json>): Json
  {
    if r.Some? then r.value else Null
  }

  predicate Reached<S(!new)>(e: Episode<S>, stage: Stage)
  {
    (stage == Limited || stage == Waited ==> e.blocked > 0) && (stage == Hiccuped ==> e.hiccup)
  }

  // The stage behind a stage.
  function Next<S(!new)>(e: Episode<S>, stage: Stage): Stage
  {
    match stage
    case Begin => GotPayload
    case GotPayload => GotTemplate
    case GotTemplate => GotId
    case GotId => Confirmed
    case Confirmed => if e.blocked > 0 then Limited else if e.hiccup then Hiccuped else Granted
    case Limited => Waited
    case Waited => if e.hiccup then Hiccuped else Granted
    case _ => Granted
  }

  // ---- the agent, result by result -----------------------------------------------------

  lemma OnNothing(m: Memory, o: Observation)
    requires o.lastAction == Null
    ensures Respond(m, o) == Proceed(m)
  {
    hide Proceed;
  }

  lemma OnPayload(m: Memory, o: Observation, payload: map<string, Json>)
    requires o.lastAction == ASK_PAYLOAD
    requires o.lastResult == Obj(map["ok" := Bool(true), "payload_template" := Obj(payload)])
    ensures Respond(m, o) == Proceed(m.(payloadTemplate := Some(payload)))
  {
    hide Proceed;
    assert o.lastResult.Get("ok") == Bool(true) && o.lastResult.Get("payload_template") == Obj(payload);
  }

  lemma OnTemplate(m: Memory, o: Observation, template: string)
    requires o.lastAction == ASK_TEMPLATE && m.id == None
    requires o.lastResult == Obj(map["ok" := Bool(true), "template" := Str(template)])
    ensures Respond(m, o) == Play(m.(template := Some(template)), CallAction("/handshake", Null))
  {
    hide Proceed, CallAction;
    assert o.lastResult.Get("ok") == Bool(true) && o.lastResult.Get("template") == Str(template);
  }

  lemma OnCall(m: Memory, o: Observation, endpoint: string, payload: Json)
    requires o.lastAction == CallAction(endpoint, payload) && o.lastResult.Truthy()
    ensures Respond(m, o) == AfterCall(m, Str(endpoint), o.lastResult)
  {
    hide AfterCall;
  }

  lemma TruthyReply(r: Json)
    requires r.Obj? && (r.Get("ok").Truthy() || r.Get("error").Str?)
    ensures r.Truthy()
  {
  }

  lemma OnHandshake(m: Memory, r: Json, id: string)
    requires r.Obj? && r.Get("ok").Truthy() && r.Get("handshake_id") == Str(id)
    ensures AfterCall(m, Str("/handshake"), r) == Proceed(m.(id := Some(id), confirmed := false))
  {
    hide Proceed;
  }

  lemma OnCommit(m: Memory, r: Json)
    requires r.Obj? && r.Get("ok").Truthy()
    ensures AfterCall(m, Str("/handshake_commit"), r) == Proceed(m.(confirmed := true))
  {
    hide Proceed;
  }

  lemma OnLimit(m: Memory, r: Json, retry: int)
    requires r.Obj? && !r.Get("ok").Truthy() && r.Get("error") == Str("rate_limited") && r.Get("retry_after") == Int(retry) && retry > 0
    ensures AfterCall(m, Str("/token"), r) == Play(m.(pendingWait := retry), WaitAction(retry))
  {
    hide Proceed;
  }

  lemma OnHiccup(m: Memory, r: Json)
    requires r.Obj? && !r.Get("ok").Truthy() && r.Get("error") == Str("temporary_failure")
    ensures AfterCall(m, Str("/token"), r) == Play(m, TokenAction(m))
  {
    hide Proceed, TokenAction;
  }

  lemma OnGrant(m: Memory, r: Json, token: string)
    requires r.Obj? && r.Get("ok").Truthy() && r.Get("data").Obj? && r.Get("data").Get("token") == Str(token) && token != ""
    ensures AfterCall(m, Str("/token"), r) == Play(m.(cachedToken := Str(token)), OutputAction(Str(token)))
  {
    hide Proceed;
  }

  lemma OnWait(m: Memory, o: Observation, steps: int)
    requires o.lastAction == WaitAction(steps) && m.pendingWait > 0
    ensures Respond(m, o) == Play(m.(pendingWait := 0), TokenAction(m.(pendingWait := 0)))
  {
    hide Proceed, TokenAction;
  }

  // ---- the agent, stage by stage ---------------------------------------------------------

  lemma AgentProceeds<S(!new)>(e: Episode<S>)
    requires e.Ready()
    ensures Proceed(BLANK) == Play(BLANK, ASK_PAYLOAD)
    ensures Proceed(Payload(e)) == Play(Payload(e), ASK_TEMPLATE)
    ensures Proceed(Shaken(e)) == Play(Shaken(e), CallAction("/handshake_commit", e.CommitPayload()))
    ensures Proceed(Sure(e)) == Play(Sure(e), TokenAction(Sure(e)))
    ensures TokenAction(Sure(e)) == CallAction("/token", e.TokenPayload())
  {
    hide Phrase.Extract, CallAction;
  }

  lemma AgentPlays<S(!new)>(e: Episode<S>, stage: Stage, o: Observation)
    requires e.Cooperates() && e.Ready() && Reached(e, stage)
    requires o.lastAction == LastAction(e, stage) && o.lastResult == LastResult(e, stage)
    ensures Respond(MemoryAt(e, stage), o) == Play(MemoryAfter(e, stage), Played(e, stage))
  {
    hide Respond, AfterCall, Proceed, TokenAction, CallAction, WaitAction, OutputAction, IntText, Phrase.Extract;
    AgentProceeds(e);
    var m, r := MemoryAt(e, stage), o.lastResult;
    match stage
    case Begin => OnNothing(m, o);
    case GotPayload => OnPayload(m, o, e.setup.required);
    case GotTemplate => OnTemplate(m, o, e.setup.template);
    case GotId =>
      TruthyReply(r);
      OnCall(m, o, "/handshake", Null);
      OnHandshake(m, r, e.ID);
    case Confirmed =>
      TruthyReply(r);
      OnCall(m, o, "/handshake_commit", e.CommitPayload());
      OnCommit(m, r);
    case Limited =>
      TruthyReply(r);
      OnCall(m, o, "/token", e.TokenPayload());
      OnLimit(m, r, e.blocked);
    case Waited => OnWait(m, o, e.blocked);
    case Hiccuped =>
      TruthyReply(r);
      OnCall(m, o, "/token", e.TokenPayload());
      OnHiccup(m, r);
    case Granted =>
      TruthyReply(r);
      OnCall(m, o, "/token", e.TokenPayload());
      OnGrant(m, r, e.setup.secret);
  }

  // ---- the actions, stage by stage -----------------------------------------------------------

  lemma ActionParts(name: string, args: map<string, Json>)
    ensures Action(name, args).Obj?
    ensures Action(name, args).Get("type") == Str(name) && Action(name, args).Get("args") == Obj(args)
    ensures ActionArgs(Action(name, args)) == args
  {
  }

  // The actions that are played are well formed.
  lemma PlayedValid<S(!new)>(e: Episode<S>, stage: Stage)
    ensures ValidateAction(Played(e, stage), SCHEMA).None?
  {
    hide Phrase.Extract;
  }

  // The hidden state and output that the actions and the validator read.
  ghost predicate Stocked<S(!new)>(e: Episode<S>, store: Store)
  {
    var k := e.setup.keys;
    && Lookup(store.hidden, k.service) == SERVICE_OBJECT
    && Lookup(store.hidden, k.payload) == Obj(e.setup.required)
    && Lookup(store.hidden, k.secret) == Str(e.setup.secret)
    && Lookup(store.hidden, k.template) == Str(e.setup.template)
  }

  ghost function RunPlayed<S(!new)>(e: Episode<S>, p: Policy, g: Guarded, w: World<S>, name: string, args: map<string, Json>)
    : (Guarded, Ending<World<S>>)
  {
    Execute(p, g, RunAction(e.sv, e.setup, e.loads, w, name, args))
  }

  lemma FitsNothing()
    ensures Fits("get_required_payload", map[]) && Fits("get_handshake_template", map[])
  {
  }

  lemma FitsCall(args: map<string, Json>)
    requires args.Keys == {"endpoint", "payload"}
    ensures Fits("call_api", args)
  {
    assert SCHEMA["call_api"] == ["endpoint", "payload"];
  }

  lemma FitsWait(args: map<string, Json>)
    requires args.Keys == {"steps"}
    ensures Fits("wait", args)
  {
    assert SCHEMA["wait"] == ["steps"];
  }

  lemma FitsOutput(args: map<string, Json>)
    requires args.Keys == {"key", "value"}
    ensures Fits("set_output", args)
  {
    assert SCHEMA["set_output"] == ["key", "value"];
  }

  lemma RunAskPayload<S(!new)>(e: Episode<S>, p: Policy, g: Guarded, w: World<S>)
    requires Stocked(e, g.store) && e.setup.required != map[]
    ensures RunPlayed(e, p, g, w, "get_required_payload", map[])
            == (g, Ended(w, Returned(Obj(map["ok" := Bool(true), "payload_template" := Obj(e.setup.required)]))))
  {
    hide ExecuteFrom, Execute, Fits;
    FitsNothing();
    assert RunAction(e.sv, e.setup, e.loads, w, "get_required_payload", map[]) == GetRequiredPayload(e.setup, w) by {
      hide GetRequiredPayload, GetTemplate, CallService, WaitSteps, InspectStatus, WriteOutput, ReadInstructions;
    }
    hide RunAction;
    ExecuteOne(p, g, GetRequiredPayload(e.setup, w), GetHidden(e.setup.keys.payload), w,
               Returned(Obj(map["ok" := Bool(true), "payload_template" := Obj(e.setup.required)])));
  }

  lemma RunAskTemplate<S(!new)>(e: Episode<S>, p: Policy, g: Guarded, w: World<S>)
    requires Stocked(e, g.store)
    ensures RunPlayed(e, p, g, w, "get_handshake_template", map[])
            == (g, Ended(w, Returned(Obj(map["ok" := Bool(true), "template" := Str(e.setup.template)]))))
  {
    hide ExecuteFrom, Execute, Fits;
    FitsNothing();
    assert RunAction(e.sv, e.setup, e.loads, w, "get_handshake_template", map[]) == GetTemplate(e.setup, w) by {
      hide GetRequiredPayload, GetTemplate, CallService, WaitSteps, InspectStatus, WriteOutput, ReadInstructions;
    }
    hide RunAction;
    ExecuteOne(p, g, GetTemplate(e.setup, w), GetHidden(e.setup.keys.template), w,
               Returned(Obj(map["ok" := Bool(true), "template" := Str(e.setup.template)])));
  }

  lemma RunCall<S(!new)>(e: Episode<S>, p: Policy, g: Guarded, w: World<S>, endpoint: string, payload: Json, after: S, reply: Json)
    requires Stocked(e, g.store) && (payload.Obj? || payload.Null?)
    requires e.sv.call(w.service, Str(endpoint), payload) == (after, Some(reply))
    ensures RunPlayed(e, p, g, w, "call_api", map["endpoint" := Str(endpoint), "payload" := payload])
            == (g, Ended(w.(service := after), Returned(reply)))
  {
    hide ExecuteFrom, Execute, Fits;
    var args := map["endpoint" := Str(endpoint), "payload" := payload];
    FitsCall(args);
    assert RunAction(e.sv, e.setup, e.loads, w, "call_api", args) == CallService(e.sv, e.setup, e.loads, w, Str(endpoint), payload) by {
      hide GetRequiredPayload, GetTemplate, CallService, WaitSteps, InspectStatus, WriteOutput, ReadInstructions;
      assert Lookup(args, "endpoint") == Str(endpoint) && Lookup(args, "payload") == payload;
    }
    hide RunAction;
    assert CallApi(e.sv, e.loads, w, Str(endpoint), payload) == Finish(w.(service := after), Returned(reply));
    hide CallApi;
    ExecuteOne(p, g, CallService(e.sv, e.setup, e.loads, w, Str(endpoint), payload), GetHidden(e.setup.keys.service),
               w.(service := after), Returned(reply));
  }

  lemma RunWait<S(!new)>(e: Episode<S>, p: Policy, g: Guarded, w: World<S>, steps: int)
    requires Stocked(e, g.store) && steps > 0
    ensures RunPlayed(e, p, g, w, "wait", map["steps" := Int(steps)])
            == (g, Ended(w.(service := e.sv.advance(w.service, steps)),
                         Returned(Obj(map["ok" := Bool(true), "message" := Str("advanced virtual time by " + IntText(steps) + " steps")]))))
  {
    hide ExecuteFrom, Execute, IntText, Fits;
    var args := map["steps" := Int(steps)];
    FitsWait(args);
    assert RunAction(e.sv, e.setup, e.loads, w, "wait", args) == WaitSteps(e.sv, e.setup, w, Int(steps)) by {
      hide GetRequiredPayload, GetTemplate, CallService, WaitSteps, InspectStatus, WriteOutput, ReadInstructions;
      assert Lookup(args, "steps") == Int(steps);
    }
    hide RunAction;
    ExecuteOne(p, g, WaitSteps(e.sv, e.setup, w, Int(steps)), GetHidden(e.setup.keys.service),
               w.(service := e.sv.advance(w.service, steps)),
               Returned(Obj(map["ok" := Bool(true), "message" := Str("advanced virtual time by " + IntText(steps) + " steps")])));
  }

  lemma RunSetOutput<S(!new)>(e: Episode<S>, p: Policy, g: Guarded, w: World<S>, token: Json)
    ensures RunPlayed(e, p, g, w, "set_output", map["key" := Str(OUTPUT_KEY), "value" := token])
            == (g.(store := g.store.(output := g.store.output[OUTPUT_KEY := token])),
                Ended(w, Returned(Obj(map["ok" := Bool(true)]))))
  {
    hide ExecuteFrom, Execute, Fits;
    var args := map["key" := Str(OUTPUT_KEY), "value" := token];
    FitsOutput(args);
    assert RunAction(e.sv, e.setup, e.loads, w, "set_output", args) == WriteOutput(w, Str(OUTPUT_KEY), token) by {
      hide GetRequiredPayload, GetTemplate, CallService, WaitSteps, InspectStatus, WriteOutput, ReadInstructions;
      assert Lookup(args, "key") == Str(OUTPUT_KEY) && Lookup(args, "value") == token;
    }
    hide RunAction;
    ExecuteOne(p, g, WriteOutput(w, Str(OUTPUT_KEY), token), SetOutput(OUTPUT_KEY, token), w,
               Returned(Obj(map["ok" := Bool(true)])));
  }

  // The validator: three lookups and the judgement.
  lemma RunCheck<S(!new)>(e: Episode<S>, p: Policy, g: Guarded, w: World<S>)
    requires Stocked(e, g.store)
    ensures Execute(p, g, Check(e.setup, e.judge, w))
            == (g, Ended(w, Returned(e.judge(w.service, Str(e.setup.secret), SERVICE_OBJECT, Lookup(g.store.output, OUTPUT_KEY)))))
  {
    var code := Check(e.setup, e.judge, w);
    var first, second := Value(Str(e.setup.secret)), Value(SERVICE_OBJECT);
    var third := Value(Lookup(g.store.output, OUTPUT_KEY));
    assert [] + [first] == [first] && [first] + [second] == [first, second] && [first, second] + [third] == [first, second, third];
    assert Perform(p, g, GetHidden(e.setup.keys.secret)) == (g, first);
    assert Perform(p, g, GetHidden(e.setup.keys.service)) == (g, second);
    assert Perform(p, g, GetOutput(OUTPUT_KEY)) == (g, third);
    assert code.next([first, second, third]) == Return(w, e.judge(w.service, ReplyValue(first), ReplyValue(second), ReplyValue(third)));
    hide ExecuteFrom, Perform;
    ExecuteStep(p, g, code, [], GetHidden(e.setup.keys.secret), [first]);
    ExecuteStep(p, g, code, [first], GetHidden(e.setup.keys.service), [first, second]);
    ExecuteStep(p, g, code, [first, second], GetOutput(OUTPUT_KEY), [first, second, third]);
    ExecuteEnd(p, g, code, [first, second, third], w,
               Returned(e.judge(w.service, Str(e.setup.secret), SERVICE_OBJECT, third.value)));
  }

  // The store a stage leaves behind: only the last one writes the output.
  ghost function StoreAfter<S(!new)>(e: Episode<S>, stage: Stage, store: Store): Store
  {
    if stage == Granted then store.(output := store.output[OUTPUT_KEY := Str(e.setup.secret)]) else store
  }

  function ResultOf<S(!new)>(e: Episode<S>, stage: Stage): Json
  {
    if stage == Granted then Obj(map["ok" := Bool(true)]) else LastResult(e, Next(e, stage))
  }

  function ServiceAfter<S(!new)>(e: Episode<S>, stage: Stage): S
  {
    if stage == Granted then ServiceAt(e, Granted) else ServiceAt(e, Next(e, stage))
  }

  predicate Parts(action: Json, name: string, args: map<string, Json>)
  {
    action.Get("type") == Str(name) && ActionArgs(action) == args
  }

  lemma PlayedParts<S(!new)>(e: Episode<S>, stage: Stage)
    ensures var action := Played(e, stage);
            && action.Get("type").Str? && action.Get("type").s != "list_dir"
            && (stage == Begin ==> Parts(action, "get_required_payload", map[]))
            && (stage == GotPayload ==> Parts(action, "get_handshake_template", map[]))
            && (stage == Limited ==> Parts(action, "wait", map["steps" := Int(e.blocked)]))
            && (stage == Granted ==> Parts(action, "set_output", map["key" := Str(OUTPUT_KEY), "value" := Str(e.setup.secret)]))
            && (stage == GotTemplate ==> Parts(action, "call_api", map["endpoint" := Str("/handshake"), "payload" := Null]))
            && (stage == GotId ==> Parts(action, "call_api", map["endpoint" := Str("/handshake_commit"), "payload" := e.CommitPayload()]))
            && (stage in {Confirmed, Waited, Hiccuped} ==> Parts(action, "call_api", map["endpoint" := Str("/token"), "payload" := e.TokenPayload()]))
  {
    hide Phrase.Extract, ActionArgs, Action;
    ActionParts("get_required_payload", map[]);
    ActionParts("get_handshake_template", map[]);
    ActionParts("call_api", map["endpoint" := Str("/handshake"), "payload" := Null]);
    ActionParts("call_api", map["endpoint" := Str("/handshake_commit"), "payload" := e.CommitPayload()]);
    ActionParts("call_api", map["endpoint" := Str("/token"), "payload" := e.TokenPayload()]);
    ActionParts("wait", map["steps" := Int(e.blocked)]);
    ActionParts("set_output", map["key" := Str(OUTPUT_KEY), "value" := Str(e.setup.secret)]);
  }

  // The service call of a stage that calls.
  lemma StageCalls<S(!new)>(e: Episode<S>, stage: Stage)
    requires e.Cooperates() && Reached(e, stage)
    ensures stage == GotTemplate ==>
      e.sv.call(ServiceAt(e, stage), Str("/handshake"), Null) == (ServiceAfter(e, stage), Some(ResultOf(e, stage)))
    ensures stage == GotId ==>
      e.sv.call(ServiceAt(e, stage), Str("/handshake_commit"), e.CommitPayload()) == (ServiceAfter(e, stage), Some(ResultOf(e, stage)))
    ensures stage in {Confirmed, Waited, Hiccuped} ==>
      e.sv.call(ServiceAt(e, stage), Str("/token"), e.TokenPayload()) == (ServiceAfter(e, stage), Some(ResultOf(e, stage)))
  {
    hide Phrase.Extract, IntText, Episode.CommitPayload, Episode.TokenPayload;
    match stage
    case GotTemplate =>
    case GotId =>
    case Confirmed =>
    case Waited =>
    case Hiccuped =>
    case _ =>
  }

  // The other stages.
  lemma StageElse<S(!new)>(e: Episode<S>, stage: Stage)
    requires e.Cooperates() && Reached(e, stage)
    ensures stage == Begin ==>
      ServiceAfter(e, stage) == ServiceAt(e, stage)
      && ResultOf(e, stage) == Obj(map["ok" := Bool(true), "payload_template" := Obj(e.setup.required)])
    ensures stage == GotPayload ==>
      ServiceAfter(e, stage) == ServiceAt(e, stage)
      && ResultOf(e, stage) == Obj(map["ok" := Bool(true), "template" := Str(e.setup.template)])
    ensures stage == Limited ==>
      ServiceAfter(e, stage) == e.sv.advance(ServiceAt(e, stage), e.blocked)
      && ResultOf(e, stage) == Obj(map["ok" := Bool(true), "message" := Str("advanced virtual time by " + IntText(e.blocked) + " steps")])
    ensures stage == Granted ==> ServiceAfter(e, stage) == ServiceAt(e, stage) && ResultOf(e, stage) == Obj(map["ok" := Bool(true)])
  {
    hide Phrase.Extract, IntText, Episode.CommitPayload, Episode.TokenPayload, Episode.Cooperates;
  }

  ghost predicate RunsAsPlanned<S(!new)>(e: Episode<S>, stage: Stage, p: Policy, g: Guarded, name: string, args: map<string, Json>)
  {
    RunPlayed(e, p, g, World(MemoryAfter(e, stage), ServiceAt(e, stage)), name, args)
    == (g.(store := StoreAfter(e, stage, g.store)),
        Ended(World(MemoryAfter(e, stage), ServiceAfter(e, stage)), Returned(ResultOf(e, stage))))
  }

  lemma AskingRuns<S(!new)>(e: Episode<S>, stage: Stage, p: Policy, g: Guarded)
    requires e.Cooperates() && e.Ready() && Reached(e, stage) && Stocked(e, g.store)
    ensures stage == Begin ==> RunsAsPlanned(e, stage, p, g, "get_required_payload", map[])
    ensures stage == GotPayload ==> RunsAsPlanned(e, stage, p, g, "get_handshake_template", map[])
  {
    StageElse(e, stage);
    assert e.setup.required != map[];
    hide RunPlayed, MemoryAfter, ServiceAt, ServiceAfter, ResultOf, Stocked, Episode.Cooperates, Episode.Ready, Phrase.Extract;
    var w := World(MemoryAfter(e, stage), ServiceAt(e, stage));
    if stage == Begin { RunAskPayload(e, p, g, w); }
    if stage == GotPayload { RunAskTemplate(e, p, g, w); }
  }

  lemma CallingRuns<S(!new)>(e: Episode<S>, stage: Stage, p: Policy, g: Guarded, endpoint: string, payload: Json)
    requires Stocked(e, g.store) && stage != Granted && (payload.Obj? || payload.Null?)
    requires e.sv.call(ServiceAt(e, stage), Str(endpoint), payload) == (ServiceAfter(e, stage), Some(ResultOf(e, stage)))
    ensures RunsAsPlanned(e, stage, p, g, "call_api", map["endpoint" := Str(endpoint), "payload" := payload])
  {
    hide RunPlayed, MemoryAfter, ServiceAt, ServiceAfter, ResultOf, Stocked, Phrase.Extract;
    RunCall(e, p, g, World(MemoryAfter(e, stage), ServiceAt(e, stage)), endpoint, payload, ServiceAfter(e, stage), ResultOf(e, stage));
  }

  lemma WritingRuns<S(!new)>(e: Episode<S>, stage: Stage, p: Policy, g: Guarded)
    requires e.Cooperates() && Reached(e, stage) && Stocked(e, g.store)
    ensures stage == Limited ==> RunsAsPlanned(e, stage, p, g, "wait", map["steps" := Int(e.blocked)])
    ensures stage == Granted ==>
      RunsAsPlanned(e, stage, p, g, "set_output", map["key" := Str(OUTPUT_KEY), "value" := Str(e.setup.secret)])
  {
    StageElse(e, stage);
    hide RunPlayed, MemoryAfter, ServiceAt, ServiceAfter, ResultOf, Stocked, Episode.Cooperates, Phrase.Extract, IntText;
    var w := World(MemoryAfter(e, stage), ServiceAt(e, stage));
    if stage == Limited { RunWait(e, p, g, w, e.blocked); }
    if stage == Granted { RunSetOutput(e, p, g, w, Str(e.setup.secret)); }
  }

  lemma StageRuns<S(!new)>(e: Episode<S>, stage: Stage, p: Policy, g: Guarded, name: string, args: map<string, Json>)
    requires e.Cooperates() && e.Ready() && Reached(e, stage) && Stocked(e, g.store)
    requires Parts(Played(e, stage), name, args)
    ensures RunsAsPlanned(e, stage, p, g, name, args)
  {
    hide RunsAsPlanned, Played, MemoryAfter, ServiceAt, ServiceAfter, ResultOf, ActionArgs, Stocked,
         Episode.Cooperates, Episode.Ready, Episode.CommitPayload, Episode.TokenPayload, Reached, Phrase.Extract;
    PlayedParts(e, stage);
    match stage
    case Begin => AskingRuns(e, stage, p, g);
    case GotPayload => AskingRuns(e, stage, p, g);
    case Limited => WritingRuns(e, stage, p, g);
    case Granted => WritingRuns(e, stage, p, g);
    case GotTemplate =>
      StageCalls(e, stage);
      CallingRuns(e, stage, p, g, "/handshake", Null);
    case GotId =>
      StageCalls(e, stage);
      CallingRuns(e, stage, p, g, "/handshake_commit", e.CommitPayload());
    case _ =>
      StageCalls(e, stage);
      CallingRuns(e, stage, p, g, "/token", e.TokenPayload());
  }

  // ---- the script -----------------------------------------------------------------------------

  ghost function CoreAt<S(!new)>(e: Episode<S>, g: Guarded, stage: Stage): Core<World<S>>
  {
    Core(World(MemoryAt(e, stage), ServiceAt(e, stage)), g, LastAction(e, stage), LastResult(e, stage))
  }

  // The guarded environment between iterations, before the output is set.
  ghost predicate Idle<S(!new)>(e: Episode<S>, g: Guarded)
  {
    g.step == None && g.entries == [] && Stocked(e, g.store) && Lookup(g.store.output, OUTPUT_KEY) == Null
  }

  lemma NextCore<S(!new)>(e: Episode<S>, stage: Stage)
    requires e.Cooperates() && Reached(e, stage) && stage != Granted
    ensures Reached(e, Next(e, stage))
    ensures MemoryAt(e, Next(e, stage)) == MemoryAfter(e, stage)
    ensures LastAction(e, Next(e, stage)) == Played(e, stage)
  {
    hide Phrase.Extract, CallAction, WaitAction, OutputAction, Episode.Cooperates, Episode.CommitPayload, Episode.TokenPayload,
         Payload, Templated, Shaken, Sure;
  }

  // What the agent plays and what it gets back hold no line separator.
  predicate StageSafe<S(!new)>(e: Episode<S>, stage: Stage)
  {
    LineSafe(Played(e, stage)) && LineSafe(ResultOf(e, stage))
  }

  ghost predicate EpisodeSafe<S(!new)>(e: Episode<S>)
  {
    forall stage | Reached(e, stage) :: StageSafe(e, stage)
  }

  // The gate, at any stage.
  lemma StageGate<S(!new)>(e: Episode<S>, t: Task, clock: int -> string, p: Policy, g: Guarded, stage: Stage, s: Loop<World<S>>)
    requires e.Cooperates() && e.Ready() && Reached(e, stage) && t.schema == SCHEMA
    requires At(s, CoreAt(e, g, stage)) && s.stepsLeft > 0 && s.callsLeft <= 0
    ensures LeavesBy(Iterate(EpisodeOracles(e), t, clock, p, s), CallGate) && KeepsSafe(s, Iterate(EpisodeOracles(e), t, clock, p, s))
  {
    hide Iterate, Respond, RunAction, Check, ValidateAction, Played, MemoryAfter, MemoryAt, LastResult, LastAction, ServiceAt,
         Phrase.Extract, Visible, SetupCalls, Episode.Cooperates, Episode.Ready;
    AgentPlays(e, stage, Observe(t, s));
    PlayedValid(e, stage);
    GateTurn(EpisodeOracles(e), t, clock, p, s, World(MemoryAfter(e, stage), ServiceAt(e, stage)), Played(e, stage));
  }

  // An iteration that calls its action: the loop variables before the judgement.
  function Settled<S(!new)>(e: Episode<S>, stage: Stage, s: Loop<World<S>>, guard: Guarded, trace: seq<Entry>): Loop<World<S>>
  {
    Loop(World(MemoryAfter(e, stage), ServiceAfter(e, stage)), guard, s.stepsLeft - 1, s.callsLeft - 1, Played(e, stage),
         ResultOf(e, stage), trace, s.checks)
  }

  lemma StageSettles<S(!new)>(e: Episode<S>, t: Task, clock: int -> string, p: Policy, g: Guarded, stage: Stage, s: Loop<World<S>>)
    returns (trace: seq<Entry>)
    requires e.Cooperates() && e.Ready() && e.JudgesOutput() && Reached(e, stage) && t.schema == SCHEMA
    requires Idle(e, g) && At(s, CoreAt(e, g, stage)) && s.stepsLeft > 0 && s.callsLeft > 0
    ensures var after := g.(store := StoreAfter(e, stage, g.store));
            var v := e.judge(ServiceAfter(e, stage), Str(e.setup.secret), SERVICE_OBJECT, Lookup(after.store.output, OUTPUT_KEY));
            && v.Obj?
            && Iterate(EpisodeOracles(e), t, clock, p, s) == Judge(t, Settled(e, stage, s, after, trace), v)
    ensures StageSafe(e, stage) && ClockSafe(clock) && TraceSafe(s.trace) ==> TraceSafe(trace)
  {
    hide Iterate, LineSafe, OneLine, TraceSafe, Judge, Respond, RunAction, Check, Execute, ExecuteFrom, ValidateAction, ActionArgs, Played, MemoryAfter, MemoryAt,
         LastResult, LastAction, ServiceAt, ServiceAfter, ResultOf, Phrase.Extract, Visible, SetupCalls, IntText,
         Episode.Cooperates, Episode.Ready, Episode.JudgesOutput;
    var o := EpisodeOracles(e);
    var moved := World(MemoryAfter(e, stage), ServiceAt(e, stage));
    var action := Played(e, stage);
    var obs := Observe(t, s);
    AgentPlays(e, stage, obs);
    PlayedValid(e, stage);
    PlayedParts(e, stage);
    var window := s.guard.(step := Some(obs.step), entries := []);
    StageRuns(e, stage, p, window, action.Get("type").s, ActionArgs(action));
    assert RunsAsPlanned(e, stage, p, window, action.Get("type").s, ActionArgs(action));
    var acted := window.(store := StoreAfter(e, stage, window.store));
    var called := World(MemoryAfter(e, stage), ServiceAfter(e, stage));
    var judged := acted.(step := None, entries := []);
    assert judged == g.(store := StoreAfter(e, stage, g.store));
    RunCheck(e, p, judged, called);
    StageJudged(e, stage, called.service);
    var validation := e.judge(called.service, Str(e.setup.secret), SERVICE_OBJECT, Lookup(judged.store.output, OUTPUT_KEY));
    PlayedTurn(o, t, clock, p, s, moved, action, acted, called, ResultOf(e, stage), judged, called, validation);
    var entry := Entry(obs.step, clock(obs.step), obs, action, ResultOf(e, stage), acted.entries, s.stepsLeft - 1, s.callsLeft - 1, 1, 1);
    trace := s.trace + [entry];
    if StageSafe(e, stage) && ClockSafe(clock) && TraceSafe(s.trace) {
      AppendSafe(s.trace, entry);
    }
  }

  // One iteration of the run.
  lemma StageTurn<S(!new)>(e: Episode<S>, t: Task, clock: int -> string, p: Policy, g: Guarded, stage: Stage, s: Loop<World<S>>)
    requires e.Cooperates() && e.Ready() && e.JudgesOutput() && Reached(e, stage) && t.schema == SCHEMA
    requires Idle(e, g) && At(s, CoreAt(e, g, stage)) && s.stepsLeft > 0
    ensures var r := Iterate(EpisodeOracles(e), t, clock, p, s);
            && (StageSafe(e, stage) && ClockSafe(clock) ==> KeepsSafe(s, r)) &&
            if s.callsLeft <= 0 then LeavesBy(r, CallGate)
            else if stage == Granted then LeavesBy(r, Validated)
            else Reached(e, Next(e, stage)) && r.Go? && At(r.next, CoreAt(e, g, Next(e, stage))) && r.next.callsLeft == s.callsLeft - 1
  {
    hide Iterate, Judge, EpisodeOracles, Played, MemoryAfter, MemoryAt, LastResult, LastAction, ServiceAt, Phrase.Extract,
         Episode.Cooperates, Episode.Ready, Episode.JudgesOutput, StageSafe, TraceSafe;
    if s.callsLeft <= 0 {
      StageGate(e, t, clock, p, g, stage, s);
    } else {
      var trace := StageSettles(e, t, clock, p, g, stage, s);
      var after := g.(store := StoreAfter(e, stage, g.store));
      var v := e.judge(ServiceAfter(e, stage), Str(e.setup.secret), SERVICE_OBJECT, Lookup(after.store.output, OUTPUT_KEY));
      StageJudged(e, stage, ServiceAfter(e, stage));
      JudgedSafe(t, Settled(e, stage, s, after, trace), v);
      if stage == Granted {
        JudgedOk(t, Settled(e, stage, s, after, trace), v);
      } else {
        JudgedOpen(t, Settled(e, stage, s, after, trace), v);
        NextCore(e, stage);
      }
    }
  }

  lemma StageJudged<S(!new)>(e: Episode<S>, stage: Stage, service: S)
    requires e.Cooperates() && e.JudgesOutput() && service == ServiceAfter(e, stage)
    ensures var v := e.judge(service, Str(e.setup.secret), SERVICE_OBJECT, if stage == Granted then Str(e.setup.secret) else Null);
            && v.Obj?
            && (stage == Granted <==> v.Get("ok").Truthy())
            && (stage != Granted ==> !v.Get("terminal").Truthy())
  {
    hide Phrase.Extract;
  }

  // ---- whole runs ---------------------------------------------------------------------------

  lemma StageOrder<S(!new)>(e: Episode<S>, k: nat)
    requires k < |Stages(e.blocked, e.hiccup)|
    ensures var stages := Stages(e.blocked, e.hiccup);
            && Reached(e, stages[k])
            && (stages[k] == Granted <==> k == |stages| - 1)
            && (k + 1 < |stages| ==> stages[k + 1] == Next(e, stages[k]))
  {
  }

  ghost function Cores<S(!new)>(e: Episode<S>, g: Guarded): seq<Core<World<S>>>
  {
    var stages := Stages(e.blocked, e.hiccup);
    seq(|stages|, i requires 0 <= i < |stages| => CoreAt(e, g, stages[i]))
  }

  lemma EpisodeScripted<S(!new)>(e: Episode<S>, t: Task, clock: int -> string, p: Policy, g: Guarded)
    requires e.Cooperates() && e.Ready() && e.JudgesOutput() && t.schema == SCHEMA && Idle(e, g)
    ensures Scripted(EpisodeOracles(e), t, clock, p, Cores(e, g), Validated, EpisodeSafe(e) && ClockSafe(clock))
  {
    hide Iterate, At, CoreAt, Next, Stages, Reached, EpisodeOracles, Episode.Cooperates, Episode.Ready, Episode.JudgesOutput, Idle,
         StageSafe, ClockSafe, KeepsSafe;
    var cores, stages, safe := Cores(e, g), Stages(e.blocked, e.hiccup), EpisodeSafe(e) && ClockSafe(clock);
    forall k: nat, s: Loop<World<S>> | k < |cores|
      ensures Follows(EpisodeOracles(e), t, clock, p, cores, Validated, safe, k, s)
    {
      StageOrder(e, k);
      if At(s, cores[k]) && s.stepsLeft > 0 {
        StageTurn(e, t, clock, p, g, stages[k], s);
      }
    }
  }

  lemma PerformHides(p: Policy, g: Guarded, key: string, value: Json)
    ensures Perform(p, g, SetHidden(key, value)).0 == g.(store := g.store.(hidden := g.store.hidden[key := value]))
  {
  }

  // Writing and marking files outside an audit window changes nothing else.
  lemma PerformSpares(p: Policy, g: Guarded, op: Op)
    requires g.step == None && (op.WriteFile? || op.MarkSeen?)
    ensures var after := Perform(p, g, op).0;
            && after.step == None && after.entries == g.entries
            && after.store.hidden == g.store.hidden && after.store.output == g.store.output
  {
    hide Paths.Admit, MarkAll;
  }

  // setup leaves the hidden state that actions and validator look up.
  lemma SetupStocks<S(!new)>(e: Episode<S>, p: Policy)
    requires e.KeysDiffer() && Paths.Admit(p.roots, e.setup.keys.readme).Ok?
    ensures NoneDenied(p, FRESH_GUARD, SetupCalls(e.setup))
    ensures Idle(e, PerformAll(p, FRESH_GUARD, SetupCalls(e.setup)))
  {
    hide NoneDenied, PerformAll, Paths.Admit, MarkAll, Perform;
    var k, ops := e.setup.keys, SetupCalls(e.setup);
    var g0 := FRESH_GUARD;
    var g1 := Perform(p, g0, ops[0]).0;
    var g2 := Perform(p, g1, ops[1]).0;
    var g3 := Perform(p, g2, ops[2]).0;
    var g4 := Perform(p, g3, ops[3]).0;
    var g5 := Perform(p, g4, ops[4]).0;
    var g6 := Perform(p, g5, ops[5]).0;
    PerformHides(p, g0, k.service, SERVICE_OBJECT);
    PerformHides(p, g1, k.payload, Obj(e.setup.required));
    PerformHides(p, g2, k.secret, Str(e.setup.secret));
    PerformHides(p, g3, k.template, Str(e.setup.template));
    PerformSpares(p, g4, ops[4]);
    PerformSpares(p, g5, ops[5]);
    assert g6.store.hidden == map[][k.service := SERVICE_OBJECT][k.payload := Obj(e.setup.required)]
                                   [k.secret := Str(e.setup.secret)][k.template := Str(e.setup.template)];
    assert Idle(e, g6);
    PerformNothing(p, g6);
    hide Idle;
    assert !Perform(p, g5, ops[5]).1.Denied? by { NeverDenied(p, g5, ops[5]); }
    assert !Perform(p, g4, ops[4]).1.Denied? by { NeverDenied(p, g4, ops[4]); }
    assert !Perform(p, g3, ops[3]).1.Denied? by { NeverDenied(p, g3, ops[3]); }
    assert !Perform(p, g2, ops[2]).1.Denied? by { NeverDenied(p, g2, ops[2]); }
    assert !Perform(p, g1, ops[1]).1.Denied? by { NeverDenied(p, g1, ops[1]); }
    assert !Perform(p, g0, ops[0]).1.Denied? by { NeverDenied(p, g0, ops[0]); }
    PerformFirst(p, g5, ops[5..], ops[5], [], g6);
    PerformFirst(p, g4, ops[4..], ops[4], ops[5..], g5);
    PerformFirst(p, g3, ops[3..], ops[3], ops[4..], g4);
    PerformFirst(p, g2, ops[2..], ops[2], ops[3..], g3);
    PerformFirst(p, g1, ops[1..], ops[1], ops[2..], g2);
    PerformFirst(p, g0, ops, ops[0], ops[1..], g1);
  }

  lemma NeverDenied(p: Policy, g: Guarded, op: Op)
    requires op.SetHidden? || op.MarkSeen? || (op.WriteFile? && Paths.Admit(p.roots, op.path).Ok?)
    ensures !Perform(p, g, op).1.Denied?
  {
    hide Paths.Admit, MarkAll;
  }

  // The run finishes with success.
  ghost predicate Succeeds<S(!new)>(e: Episode<S>, t: Task, clock: int -> string)
  {
    var end := RunTask(EpisodeOracles(e), t, clock, World(BLANK, e.start));
    end.Finished? && end.art.success
  }

  // The run ends as a script of n stages does, and without line separators if there are none
  // in its stages.
  ghost predicate EndsByScript<S(!new)>(e: Episode<S>, t: Task, clock: int -> string, n: nat)
  {
    var end := RunTask(EpisodeOracles(e), t, clock, World(BLANK, e.start));
    && end.Finished?
    && end.exit == ScriptExit(Validated, n, t.maxSteps, t.maxCalls)
    && end.art.stepsUsed == ScriptSteps(Validated, n, t.maxSteps, t.maxCalls)
    && (EpisodeSafe(e) && ClockSafe(clock) ==> TraceSafe(end.art.trace))
  }

  // The whole run against a cooperating service: success after exactly Length iterations
  // when both budgets allow it; otherwise the smaller budget ends the run.
  lemma EpisodeRuns<S(!new)>(e: Episode<S>, t: Task, clock: int -> string)
    requires e.Cooperates() && e.Ready() && e.JudgesOutput() && t.schema == SCHEMA
    requires Rules(t).Some? && Paths.Admit(Rules(t).value.roots, e.setup.keys.readme).Ok?
    requires t.maxSteps >= 0 && t.maxCalls >= 0
    ensures EndsByScript(e, t, clock, Length(e.blocked, e.hiccup))
  {
    hide EpisodeSafe, ClockSafe, Iterate, RunFrom, ExecuteFrom, Perform, NoneDenied, PerformAll, CoreAt, Scripted, SetupCalls, RunAction, Check,
         Paths.Admit, Idle, Stages, Episode.Cooperates, Episode.Ready, Episode.JudgesOutput, RunnerSpec.Rules, ActOf;
    var o, p, w := EpisodeOracles(e), Rules(t).value, World(BLANK, e.start);
    var ops := SetupCalls(e.setup);
    SetupReady(e);
    SetupStocks(e, p);
    var g := PerformAll(p, FRESH_GUARD, ops);
    assert ops[0..] == ops;
    ExecuteStraight(p, FRESH_GUARD, ops, w, Returned(Null), []);
    EpisodeScripted(e, t, clock, p, g);
    var s := Start(t, w, g);
    assert At(s, Cores(e, g)[0]) by { BeginCore(e, t, g); }
    RunScript(o, t, clock, p, Cores(e, g), Validated, EpisodeSafe(e) && ClockSafe(clock), 0, s);
  }

  lemma SetupReady<S(!new)>(e: Episode<S>)
    requires e.Ready()
    ensures e.KeysDiffer()
  {
    hide Phrase.Extract;
  }

  lemma BeginCore<S(!new)>(e: Episode<S>, t: Task, g: Guarded)
    ensures At(Start(t, World(BLANK, e.start), g), CoreAt(e, g, Begin))
  {
    hide Phrase.Extract;
  }
}
