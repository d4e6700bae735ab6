// The two handshake tasks: their actions, validators and setup as task code around a
// service (tasks/rate_limited_chain, tasks/deterministic_rate_service), driven by ChainAgent.
module HandshakeTask {
  import opened Values
  import opened Text
  import opened EnvSpec
  import opened RunnerSpec
  import opened ChainAgent
  import opened Scripts
  import Paths
  import Phrase

  // What the actions need of a service. None is an exception out of call.
  datatype Service<!S> = Service(
    call: (S, Json, Json) -> (S, Option<Json>),
    advance: (S, int) -> S,
    status: S -> Json,
    confirmed: S -> bool)

  // The agent and the service object that the hidden state refers to.
  datatype World<S> = World(agent: Memory, service: S)

  datatype Keys = Keys(service: string, payload: string, template: string, secret: string, readme: string)

  // What setup derives from its seed.
  datatype Setup = Setup(keys: Keys, secret: string, required: map<string, Json>, template: string, instructions: string)

  // Stands for the reference to the service object in the hidden state.
  const SERVICE_OBJECT := Str("service")

  const SCHEMA: map<string, seq<string>> := map[
    "call_api" := ["endpoint", "payload"],
    "get_handshake_template" := [],
    "read_instructions" := [],
    "get_required_payload" := [],
    "wait" := ["steps"],
    "inspect_status" := [],
    "set_output" := ["key", "value"]]

  // ---- task code -----------------------------------------------------------------------

  function Return<S>(w: World<S>, result: Json): Move<World<S>>
  {
    Finish(w, Returned(result))
  }

  // env.get_hidden_state(key), then go on with its value.
  function WithHidden<S>(key: string, go: Json -> Move<World<S>>): Program<World<S>>
  {
    Program((replies: seq<Reply>) =>
              if replies == [] then Ask(GetHidden(key))
              else go(if replies[0].Value? then replies[0].value else Null), 1)
  }

  // _coerce_payload; loads is json.loads, None where it raises.
  function CoercePayload(loads: string -> Option<Json>, payload: Json): Json
  {
    match payload
    case Obj(_) => payload
    case Str(text) => if loads(text).Some? && loads(text).value.Obj? then loads(text).value else Null
    case _ => Null
  }

  function Fail(error: string, message: string): Json
  {
    Obj(map["ok" := Bool(false), "error" := Str(error), "message" := Str(message)])
  }

  function CallApi<S>(sv: Service<S>, loads: string -> Option<Json>, w: World<S>, endpoint: Json, payload: Json): Move<World<S>>
  {
    var parsed := CoercePayload(loads, payload);
    if !payload.Null? && parsed.Null? then Return(w, Fail("bad_request", "payload must be JSON object"))
    else
      var r := sv.call(w.service, endpoint, parsed);
      match r.1
      case None => Finish(w.(service := r.0), RaisedOther("replace() argument must be str"))
      case Some(reply) => Return(w.(service := r.0), reply)
  }

  // isinstance(steps, int), booleans included
  function AsSteps(j: Json): Option<int>
  {
    match j
    case Int(n) => Some(n)
    case Bool(b) => Some(if b then 1 else 0)
    case _ => None
  }

  function Wait<S>(sv: Service<S>, w: World<S>, steps: int): Move<World<S>>
  {
    Return(w.(service := sv.advance(w.service, steps)),
           Obj(map["ok" := Bool(true), "message" := Str("advanced virtual time by " + IntText(steps) + " steps")]))
  }

  function ReadInstructions<S>(setup: Setup, w: World<S>): Program<World<S>>
  {
    Program((replies: seq<Reply>) =>
              if replies == [] then Ask(ReadFile(setup.keys.readme))
              else match replies[0]
                case Value(text) => Return(w, Obj(map["ok" := Bool(true), "readme" := text]))
                case Denied(m) => Finish(w, RaisedSandbox(m))
                case _ => Return(w, Obj(map["ok" := Bool(false), "error" := Str("missing_readme")])), 1)
  }

  function Done<S>(move: Move<World<S>>): Program<World<S>>
  {
    Program((replies: seq<Reply>) => move, 0)
  }

  function CallService<S>(sv: Service<S>, setup: Setup, loads: string -> Option<Json>, w: World<S>, endpoint: Json, payload: Json): Program<World<S>>
  {
    WithHidden(setup.keys.service, (found: Json) =>
      if found.Null? then Finish(w, RaisedOther("service missing from hidden state"))
      else CallApi(sv, loads, w, endpoint, payload))
  }

  function GetTemplate<S>(setup: Setup, w: World<S>): Program<World<S>>
  {
    WithHidden(setup.keys.template, (found: Json) =>
      if found.Null? then Return(w, Fail("template_missing", "handshake template unavailable"))
      else Return(w, Obj(map["ok" := Bool(true), "template" := found])))
  }

  function GetRequiredPayload<S>(setup: Setup, w: World<S>): Program<World<S>>
  {
    WithHidden(setup.keys.payload, (found: Json) =>
      if !found.Truthy() then Finish(w, RaisedOther("required payload missing from hidden state"))
      else Return(w, Obj(map["ok" := Bool(true), "payload_template" := found])))
  }

  function WaitSteps<S>(sv: Service<S>, setup: Setup, w: World<S>, given: Json): Program<World<S>>
  {
    var steps := AsSteps(given);
    if steps.None? then Done(Return(w, Fail("invalid_args", "steps must be int")))
    else if steps.value <= 0 then Done(Return(w, Fail("invalid_args", "steps must be > 0")))
    else
      WithHidden(setup.keys.service, (found: Json) =>
        if found.Null? then Finish(w, RaisedOther("service missing from hidden state")) else Wait(sv, w, steps.value))
  }

  function InspectStatus<S>(sv: Service<S>, setup: Setup, w: World<S>): Program<World<S>>
  {
    WithHidden(setup.keys.service, (found: Json) =>
      if found.Null? then Finish(w, RaisedOther("service missing from hidden state"))
      else Return(w, Obj(map["ok" := Bool(true), "status" := sv.status(w.service)])))
  }

  function WriteOutput<S>(w: World<S>, key: Json, value: Json): Program<World<S>>
  {
    if key != Str(OUTPUT_KEY) then Done(Return(w, Fail("invalid_output_key", "Only ACCESS_TOKEN may be set in this task.")))
    else
      Program((replies: seq<Reply>) =>
                if replies == [] then Ask(SetOutput(OUTPUT_KEY, value))
                else Return(w, Obj(map["ok" := Bool(true)])), 1)
  }

  // The keyword arguments are the parameters of the function.
  predicate Fits(name: string, args: map<string, Json>)
  {
    name in SCHEMA && (forall k <- args :: k in SCHEMA[name]) && (forall k <- SCHEMA[name] :: k in args)
  }

  // The functions of actions.py, called with keyword arguments.
  function RunAction<S>(sv: Service<S>, setup: Setup, loads: string -> Option<Json>, w: World<S>, name: string, args: map<string, Json>): Program<World<S>>
  {
    if !Fits(name, args) then Done(Finish(w, RaisedOther("unexpected arguments")))
    else if name == "call_api" then CallService(sv, setup, loads, w, Lookup(args, "endpoint"), Lookup(args, "payload"))
    else if name == "get_handshake_template" then GetTemplate(setup, w)
    else if name == "get_required_payload" then GetRequiredPayload(setup, w)
    else if name == "wait" then WaitSteps(sv, setup, w, Lookup(args, "steps"))
    else if name == "inspect_status" then InspectStatus(sv, setup, w)
    else if name == "set_output" then WriteOutput(w, Lookup(args, "key"), Lookup(args, "value"))
    else ReadInstructions(setup, w)
  }

  // Both validators look up the secret, the service and the output, and judge them.
  function Check<S>(setup: Setup, judge: (S, Json, Json, Json) -> Json, w: World<S>): Program<World<S>>
  {
    Program((replies: seq<Reply>) =>
              if |replies| == 0 then Ask(GetHidden(setup.keys.secret))
              else if |replies| == 1 then Ask(GetHidden(setup.keys.service))
              else if |replies| == 2 then Ask(GetOutput(OUTPUT_KEY))
              else Return(w, judge(w.service, ReplyValue(replies[0]), ReplyValue(replies[1]), ReplyValue(replies[2]))), 3)
  }

  // setup: the hidden state, the instructions file, the seen paths.
  function SetupCalls(setup: Setup): seq<Op>
  {
    [SetHidden(setup.keys.service, SERVICE_OBJECT),
     SetHidden(setup.keys.payload, Obj(setup.required)),
     SetHidden(setup.keys.secret, Str(setup.secret)),
     SetHidden(setup.keys.template, Str(setup.template)),
     WriteFile(setup.keys.readme, Str(setup.instructions)),
     MarkSeen([setup.keys.readme])]
  }

  function ActOf<S>(w: World<S>, o: Observation): (World<S>, AgentMove)
  {
    match Respond(w.agent, o)
    case Play(memory, action) => (w.(agent := memory), Acts(action))
    case Raise(memory) => (w.(agent := memory), AgentRaises)
  }

  function TaskOracles<S>(sv: Service<S>, setup: Setup, judge: (S, Json, Json, Json) -> Json, loads: string -> Option<Json>): Oracles<World<S>>
  {
    Oracles((w: World<S>) => Straight(SetupCalls(setup), w, Returned(Null)),
            (w: World<S>, o: Observation) => ActOf(w, o),
            (w: World<S>, name: string, args: map<string, Json>) => RunAction(sv, setup, loads, w, name, args),
            (w: World<S>) => Check(setup, judge, w))
  }
}
