// agent_bench/agents/chain_agent.py: the reference agent of the handshake tasks.
module ChainAgent {
  import opened Values
  import opened Text
  import opened RunnerSpec
  import Phrase

  datatype Memory = Memory(
    payloadTemplate: Option<map<string, Json>>,
    template: Option<string>,
    id: Option<string>,
    confirmed: bool,
    pendingWait: int,
    cachedToken: Json,
    committed: bool)

  const BLANK := Memory(None, None, None, false, 0, Null, false)

  const OUTPUT_KEY := "ACCESS_TOKEN"

  // ---- actions ---------------------------------------------------------------------------

  function Action(name: string, args: map<string, Json>): Json
  {
    Obj(map["type" := Str(name), "args" := Obj(args)])
  }

  const ASK_PAYLOAD := Action("get_required_payload", map[])
  const ASK_TEMPLATE := Action("get_handshake_template", map[])

  // _call
  function CallAction(endpoint: string, payload: Json): Json
  {
    Action("call_api", map["endpoint" := Str(endpoint), "payload" := payload])
  }

  function WaitAction(steps: int): Json
  {
    Action("wait", map["steps" := Int(steps)])
  }

  function OutputAction(token: Json): Json
  {
    Action("set_output", map["key" := Str(OUTPUT_KEY), "value" := token])
  }

  // _handshake_phrase
  function HandshakePhrase(m: Memory): string
  {
    if m.template.None? || m.template.value == "" || m.id.None? || m.id.value == "" then ""
    else Phrase.Extract(m.template.value, m.id.value)
  }

  // _call_token
  function TokenAction(m: Memory): Json
  {
    match m.payloadTemplate
    case None => ASK_PAYLOAD
    case Some(payload) =>
      CallAction("/token", Obj(if m.id.Some? && m.id.value != "" then payload["handshake_id" := Str(m.id.value)] else payload))
  }

  // ---- one turn --------------------------------------------------------------------------

  // An act either plays an action or raises on a result of an unexpected type.
  datatype Turn = Play(memory: Memory, action: Json) | Raise(memory: Memory)

  // last_result and last_result.get("ok")
  predicate Fine(result: Json)
  {
    result.Truthy() && result.Get("ok").Truthy()
  }

  // A value that may be missing and otherwise has to be text.
  predicate TextOrNone(j: Json)
  {
    j.Null? || j.Str?
  }

  function AsText(j: Json): Option<string>
  {
    if j.Str? then Some(j.s) else None
  }

  // int(value): None where it raises.
  function AsInt(j: Json): Option<int>
  {
    match j
    case Int(n) => Some(n)
    case Bool(b) => Some(if b then 1 else 0)
    case Str(s) => ParseInt(s)
    case _ => None
  }

  function Forget(m: Memory): Memory
  {
    m.(id := None, confirmed := false)
  }

  // What follows when nothing in the last result asks for a reply of its own.
  function Proceed(m: Memory): Turn
  {
    if m.payloadTemplate.None? then Play(m, ASK_PAYLOAD)
    else if m.template.None? then Play(m, ASK_TEMPLATE)
    else if m.id.None? then Play(m, CallAction("/handshake", Null))
    else if !m.confirmed then
      var phrase := HandshakePhrase(m);
      if phrase == "" then Play(m, ASK_TEMPLATE)
      else Play(m, CallAction("/handshake_commit", Obj(map["handshake_id" := Str(m.id.value), "response" := Str(phrase)])))
    else if m.pendingWait > 0 then Play(m, WaitAction(m.pendingWait))
    else if m.cachedToken.Truthy() && !m.committed then Play(m, OutputAction(m.cachedToken))
    else Play(m, TokenAction(m))
  }

  // After a /token that was refused.
  function Refused(m: Memory, result: Json): Turn
  {
    var error := result.Get("error");
    if error == Str("rate_limited") then
      var given := AsInt(result.GetOr("retry_after", Int(1)));
      if given.None? then Raise(m)
      else
        var retry := if given.value == 0 then 1 else given.value;
        Play(m.(pendingWait := retry), WaitAction(retry))
    else if error == Str("temporary_failure") then Play(m, TokenAction(m))
    else if error == Str("handshake_required") || error == Str("invalid_handshake") || error == Str("handshake_expired") then
      Play(Forget(m), CallAction("/handshake", Null))
    else if error == Str("bad_request") then Play(Forget(m).(payloadTemplate := None), ASK_PAYLOAD)
    else Proceed(m)
  }

  function AfterToken(m: Memory, result: Json): Turn
  {
    if !result.Get("ok").Truthy() then Refused(m, result)
    else
      var data := result.GetOr("data", Obj(map[]));
      if !data.Obj? then Raise(m)
      else if data.Get("token").Truthy() then Play(m.(cachedToken := data.Get("token")), OutputAction(data.Get("token")))
      else Proceed(m)
  }

  // After a truthy result of call_api.
  function AfterCall(m: Memory, endpoint: Json, result: Json): Turn
  {
    if endpoint != Str("/handshake") && endpoint != Str("/handshake_commit") && endpoint != Str("/token") then Proceed(m)
    else if !result.Obj? then Raise(m)
    else if endpoint == Str("/handshake") then
      if !result.Get("ok").Truthy() then Proceed(Forget(m))
      else if !TextOrNone(result.Get("handshake_id")) then Raise(m)
      else Proceed(m.(id := AsText(result.Get("handshake_id")), confirmed := false))
    else if endpoint == Str("/handshake_commit") then
      if result.Get("ok").Truthy() then Proceed(m.(confirmed := true)) else Proceed(Forget(m))
    else AfterToken(m, result)
  }

  function AfterPayload(m: Memory, result: Json): Turn
  {
    var given := result.GetOr("payload_template", Obj(map[]));
    if given.Obj? then Proceed(m.(payloadTemplate := Some(given.fields))) else Raise(m)
  }

  function AfterTemplate(m: Memory, result: Json): Turn
  {
    if !TextOrNone(result.Get("template")) then Raise(m)
    else
      var after := m.(template := AsText(result.Get("template")));
      if after.id.None? || after.id.value == "" then Play(after, CallAction("/handshake", Null)) else Proceed(after)
  }

  // The result is a truthy value without a get method.
  predicate Opaque(result: Json)
  {
    result.Truthy() && !result.Obj?
  }

  // act
  function Respond(m: Memory, o: Observation): Turn
  {
    var name, result := o.lastAction.Get("type"), o.lastResult;
    if name == Str("get_required_payload") && result.Truthy() then
      if Opaque(result) then Raise(m) else if Fine(result) then AfterPayload(m, result) else Proceed(m)
    else if name == Str("get_handshake_template") && result.Truthy() then
      if Opaque(result) then Raise(m) else if Fine(result) then AfterTemplate(m, result) else Proceed(m)
    else if name == Str("call_api") && result.Truthy() then
      AfterCall(m, o.lastAction.Get("args").Get("endpoint"), result)
    else if name == Str("wait") && m.pendingWait > 0 then
      Play(m.(pendingWait := 0), TokenAction(m.(pendingWait := 0)))
    else if name == Str("set_output") && result.Truthy() then
      if Opaque(result) then Raise(m) else if Fine(result) then Play(m.(committed := true), WaitAction(1)) else Proceed(m)
    else Proceed(m)
  }

  // ---- the agent object --------------------------------------------------------------------

  class ChainAgent {
    var payloadTemplate: Option<map<string, Json>>
    var handshakeTemplate: Option<string>
    var handshakeId: Option<string>
    var handshakeConfirmed: bool
    var pendingWait: int
    var cachedToken: Json
    var outputCommitted: bool

    function State(): Memory
      reads this
    {
      Memory(payloadTemplate, handshakeTemplate, handshakeId, handshakeConfirmed, pendingWait, cachedToken, outputCommitted)
    }

    constructor ()
      ensures State() == BLANK
    {
      payloadTemplate, handshakeTemplate, handshakeId := None, None, None;
      handshakeConfirmed, pendingWait, cachedToken, outputCommitted := false, 0, Null, false;
    }

    // _handshake_phrase: cut the filled template behind the marker and at the first
    // separator that occurs, then strip.
    method ReadPhrase() returns (phrase: string)
      ensures phrase == HandshakePhrase(State())
    {
      hide Replace, Find, StripBy, Lower;
      if handshakeTemplate.None? || handshakeTemplate.value == "" || handshakeId.None? || handshakeId.value == "" {
        return "";
      }
      var filled := Replace(handshakeTemplate.value, Phrase.PLACEHOLDER, handshakeId.value);
      var at := Find(Lower(filled), Phrase.MARKER);
      phrase := if at != -1 then filled[at + |Phrase.MARKER|..] else filled;
      ghost var text := phrase;
      var separators := ["\n", "\r"];
      assert separators[0] == "\n" && separators[1] == "\r";
      var i := 0;
      var cut := false;
      while i < |separators| && !cut
        invariant 0 <= i <= |separators|
        invariant !cut ==> phrase == text
        invariant !cut && i > 0 ==> Find(text, "\n") == -1
        invariant !cut && i > 1 ==> Find(text, "\r") == -1
        invariant cut ==> phrase == Phrase.FirstLine(text)
      {
        var index := Find(phrase, separators[i]);
        if index != -1 {
          phrase, cut := phrase[..index], true;
        }
        i := i + 1;
      }
      phrase := StripBy(Strip(phrase), Phrase.IsDotOrSpace);
    }

    method MakeCallToken() returns (action: Json)
      ensures action == TokenAction(State())
    {
      if payloadTemplate.None? {
        return ASK_PAYLOAD;
      }
      var payload := payloadTemplate.value;
      if handshakeId.Some? && handshakeId.value != "" {
        payload := payload["handshake_id" := Str(handshakeId.value)];
      }
      action := CallAction("/token", Obj(payload));
    }

    // The part of act behind the replies to the last result.
    method Continue() returns (action: Json)
      ensures Play(State(), action) == Proceed(State())
    {
      hide HandshakePhrase, TokenAction;
      if payloadTemplate.None? {
        return ASK_PAYLOAD;
      }
      if handshakeTemplate.None? {
        return ASK_TEMPLATE;
      }
      if handshakeId.None? {
        return CallAction("/handshake", Null);
      }
      if !handshakeConfirmed {
        var phrase := ReadPhrase();
        if phrase == "" {
          return ASK_TEMPLATE;
        }
        return CallAction("/handshake_commit", Obj(map["handshake_id" := Str(handshakeId.value), "response" := Str(phrase)]));
      }
      if pendingWait > 0 {
        return WaitAction(pendingWait);
      }
      if cachedToken.Truthy() && !outputCommitted {
        return OutputAction(cachedToken);
      }
      action := MakeCallToken();
    }

    // The replies to a refused /token.
    method HandleRefusal(result: Json) returns (action: Option<Json>)
      modifies this
      ensures var turn := Refused(old(State()), result);
              State() == turn.memory && action == if turn.Play? then Some(turn.action) else None
    {
      hide Proceed, TokenAction, AsInt;
      var error := result.Get("error");
      if error == Str("rate_limited") {
        var given := AsInt(result.GetOr("retry_after", Int(1)));
        if given.None? {
          return None;
        }
        pendingWait := if given.value == 0 then 1 else given.value;
        return Some(WaitAction(pendingWait));
      }
      if error == Str("temporary_failure") {
        var again := MakeCallToken();
        return Some(again);
      }
      if error == Str("handshake_required") || error == Str("invalid_handshake") || error == Str("handshake_expired") {
        handshakeId, handshakeConfirmed := None, false;
        return Some(CallAction("/handshake", Null));
      }
      if error == Str("bad_request") {
        handshakeId, handshakeConfirmed, payloadTemplate := None, false, None;
        return Some(ASK_PAYLOAD);
      }
      var next := Continue();
      action := Some(next);
    }

    // The reactions to a truthy result of call_api.
    method HandleCall(endpoint: Json, result: Json) returns (action: Option<Json>)
      modifies this
      ensures var turn := AfterCall(old(State()), endpoint, result);
              State() == turn.memory && action == if turn.Play? then Some(turn.action) else None
    {
      hide Proceed, Refused;
      if endpoint == Str("/handshake") || endpoint == Str("/handshake_commit") || endpoint == Str("/token") {
        if !result.Obj? {
          return None;
        }
        var ok := result.Get("ok").Truthy();
        if endpoint == Str("/handshake") {
          if !ok {
            handshakeId, handshakeConfirmed := None, false;
          } else if !TextOrNone(result.Get("handshake_id")) {
            return None;
          } else {
            handshakeId, handshakeConfirmed := AsText(result.Get("handshake_id")), false;
          }
        } else if endpoint == Str("/handshake_commit") {
          if ok {
            handshakeConfirmed := true;
          } else {
            handshakeId, handshakeConfirmed := None, false;
          }
        } else if !ok {
          action := HandleRefusal(result);
          return;
        } else {
          var data := result.GetOr("data", Obj(map[]));
          if !data.Obj? {
            return None;
          }
          var token := data.Get("token");
          if token.Truthy() {
            cachedToken := token;
            return Some(OutputAction(token));
          }
        }
      }
      var next := Continue();
      action := Some(next);
    }

    // act; None is an exception.
    method Act(o: Observation) returns (action: Option<Json>)
      modifies this
      ensures var turn := Respond(old(State()), o);
              State() == turn.memory && action == if turn.Play? then Some(turn.action) else None
    {
      hide Proceed, AfterCall, TokenAction;
      var name, result := o.lastAction.Get("type"), o.lastResult;
      if Opaque(result) && (name == Str("get_required_payload") || name == Str("get_handshake_template") || name == Str("set_output")) {
        return None;
      }
      if name == Str("get_required_payload") && Fine(result) {
        var given := result.GetOr("payload_template", Obj(map[]));
        if !given.Obj? {
          return None;
        }
        payloadTemplate := Some(given.fields);
      }
      if name == Str("get_handshake_template") && Fine(result) {
        if !TextOrNone(result.Get("template")) {
          return None;
        }
        handshakeTemplate := AsText(result.Get("template"));
        if handshakeId.None? || handshakeId.value == "" {
          return Some(CallAction("/handshake", Null));
        }
      }
      if name == Str("call_api") && result.Truthy() {
        action := HandleCall(o.lastAction.Get("args").Get("endpoint"), result);
        return;
      }
      if name == Str("wait") && pendingWait > 0 {
        pendingWait := 0;
        var again := MakeCallToken();
        return Some(again);
      }
      if name == Str("set_output") && Fine(result) {
        outputCommitted := true;
        return Some(WaitAction(1));
      }
      var next := Continue();
      action := Some(next);
    }
  }

  // ---- what the agent does ---------------------------------------------------------------------

  // The last thing the agent saw is a dictionary that a call of this endpoint answered.
  predicate Answered(o: Observation, endpoint: string)
  {
    && o.lastAction.Get("type") == Str("call_api") && o.lastAction.Get("args").Get("endpoint") == Str(endpoint)
    && o.lastResult.Obj? && o.lastResult.Truthy()
  }

  // The payload the agent presents at /token.
  function TokenPayload(m: Memory): Json
    requires m.payloadTemplate.Some?
  {
    Obj(if m.id.Some? && m.id.value != "" then m.payloadTemplate.value["handshake_id" := Str(m.id.value)] else m.payloadTemplate.value)
  }

  function Acting(name: string, args: map<string, Json>): Json
  {
    Obj(map["type" := Str(name), "args" := Obj(args)])
  }

  function Calling(endpoint: string, payload: Json): Json
  {
    Acting("call_api", map["endpoint" := Str(endpoint), "payload" := payload])
  }

  // A refused /token: the agent waits as long as it is told, tries again at once, starts a new
  // handshake, or asks for the payload anew, by the error it was given.
  lemma RefusalAnswered(m: Memory, o: Observation)
    requires Answered(o, "/token") && !o.lastResult.Get("ok").Truthy() && m.payloadTemplate.Some?
    ensures var error, turn, wait := o.lastResult.Get("error"), Respond(m, o), o.lastResult.GetOr("retry_after", Int(1));
            && (error == Str("rate_limited") && wait.Int? ==>
                  var n := if wait.n == 0 then 1 else wait.n;
                  turn == Play(m.(pendingWait := n), Acting("wait", map["steps" := Int(n)])))
            && (error == Str("temporary_failure") ==> turn == Play(m, Calling("/token", TokenPayload(m))))
            && (error in [Str("handshake_required"), Str("invalid_handshake"), Str("handshake_expired")] ==>
                  turn == Play(m.(id := None, confirmed := false), Calling("/handshake", Null)))
            && (error == Str("bad_request") ==>
                  turn == Play(m.(id := None, confirmed := false, payloadTemplate := None), Acting("get_required_payload", map[])))
  {
    hide Proceed, ParseInt, ParseNat;
    EndpointNames();
    ErrorNames();
    RefusedMeans(m, o.lastResult);
    hide Refused;
  }

  lemma RefusedMeans(m: Memory, result: Json)
    requires m.payloadTemplate.Some?
    ensures var error, turn, wait := result.Get("error"), Refused(m, result), result.GetOr("retry_after", Int(1));
            && (error == Str("rate_limited") && wait.Int? ==>
                  var n := if wait.n == 0 then 1 else wait.n;
                  turn == Play(m.(pendingWait := n), Acting("wait", map["steps" := Int(n)])))
            && (error == Str("temporary_failure") ==> turn == Play(m, Calling("/token", TokenPayload(m))))
            && (error in [Str("handshake_required"), Str("invalid_handshake"), Str("handshake_expired")] ==>
                  turn == Play(m.(id := None, confirmed := false), Calling("/handshake", Null)))
            && (error == Str("bad_request") ==>
                  turn == Play(m.(id := None, confirmed := false, payloadTemplate := None), Acting("get_required_payload", map[])))
  {
    hide Proceed, ParseInt;
    ErrorNames();
  }

  lemma EndpointNames()
    ensures Str("/token") != Str("/handshake") && Str("/token") != Str("/handshake_commit") && Str("/handshake") != Str("/handshake_commit")
    ensures "call_api" != "get_required_payload" && "call_api" != "get_handshake_template"
  {
    assert |"/token"| == 6 && |"/handshake"| == 10 && |"/handshake_commit"| == 17;
    assert |"call_api"| == 8 && |"get_required_payload"| == 20 && |"get_handshake_template"| == 22;
  }

  lemma ErrorNames()
    ensures "rate_limited" != "temporary_failure" && "rate_limited" != "handshake_required" && "rate_limited" != "bad_request"
    ensures "rate_limited" != "invalid_handshake" && "rate_limited" != "handshake_expired"
    ensures "temporary_failure" != "handshake_required" && "temporary_failure" != "invalid_handshake"
    ensures "temporary_failure" != "handshake_expired" && "temporary_failure" != "bad_request"
    ensures "bad_request" != "handshake_required" && "bad_request" != "invalid_handshake" && "bad_request" != "handshake_expired"
  {
    assert |"rate_limited"| == 12 && |"temporary_failure"| == |"invalid_handshake"| == |"handshake_expired"| == 17;
    assert |"handshake_required"| == 18 && |"bad_request"| == 11;
    assert "temporary_failure"[0] == 't' && "invalid_handshake"[0] == 'i' && "handshake_expired"[0] == 'h';
  }

  // A rejected handshake or commit is forgotten; a confirmed commit is remembered.
  lemma HandshakeAnswered(m: Memory, o: Observation)
    ensures Answered(o, "/handshake_commit") ==>
              Respond(m, o).memory == if o.lastResult.Get("ok").Truthy() then m.(confirmed := true) else m.(id := None, confirmed := false)
    ensures Answered(o, "/handshake") && !o.lastResult.Get("ok").Truthy() ==> Respond(m, o).memory == m.(id := None, confirmed := false)
    ensures Answered(o, "/handshake") && o.lastResult.Get("ok").Truthy() && o.lastResult.Get("handshake_id").Str? ==>
              Respond(m, o).memory == m.(id := Some(o.lastResult.Get("handshake_id").s), confirmed := false)
  {
    hide HandshakePhrase, TokenAction, CallAction, WaitAction, OutputAction, Action;
    EndpointNames();
  }

  // An output that is set is the token the agent then remembers.
  predicate OutputsToken(turn: Turn)
  {
    turn.Play? && turn.action.Get("type") == Str("set_output") ==>
      && turn.action.Get("args").Get("key") == Str("ACCESS_TOKEN")
      && turn.action.Get("args").Get("value") == turn.memory.cachedToken
      && turn.memory.cachedToken.Truthy()
  }

  lemma ActionKind(name: string, args: map<string, Json>)
    ensures Action(name, args).Get("type") == Str(name) && Action(name, args).Get("args") == Obj(args)
  {
  }

  lemma KindsDiffer()
    ensures ASK_PAYLOAD.Get("type") != Str("set_output") && ASK_TEMPLATE.Get("type") != Str("set_output")
    ensures forall endpoint, payload :: CallAction(endpoint, payload).Get("type") != Str("set_output")
    ensures forall steps :: WaitAction(steps).Get("type") != Str("set_output")
  {
    hide Action;
    forall name: string, args: map<string, Json> { ActionKind(name, args); }
    assert |"set_output"| == 10 && |"get_required_payload"| == 20 && |"get_handshake_template"| == 22 && |"call_api"| == 8 && |"wait"| == 4;
  }

  lemma OutputKind(m: Memory, token: Json)
    requires m.cachedToken == token && token.Truthy()
    ensures OutputsToken(Play(m, OutputAction(token)))
  {
  }

  lemma ProceedOutputs(m: Memory)
    ensures OutputsToken(Proceed(m)) && Proceed(m).memory == m
  {
    hide HandshakePhrase, OutputsToken, CallAction, WaitAction, OutputAction, Action;
    NotOutputs(m);
    if m.cachedToken.Truthy() { OutputKind(m, m.cachedToken); }
  }

  // The other actions set no output, whatever is remembered.
  lemma NotOutputs(m: Memory)
    ensures OutputsToken(Play(m, ASK_PAYLOAD)) && OutputsToken(Play(m, ASK_TEMPLATE)) && OutputsToken(Play(m, TokenAction(m)))
    ensures forall endpoint, payload :: OutputsToken(Play(m, CallAction(endpoint, payload)))
    ensures forall steps :: OutputsToken(Play(m, WaitAction(steps)))
  {
    hide CallAction, WaitAction, Action;
    KindsDiffer();
  }

  lemma RefusedOutputs(m: Memory, result: Json)
    ensures OutputsToken(Refused(m, result)) && Refused(m, result).memory.cachedToken == m.cachedToken
  {
    hide Proceed, OutputsToken, CallAction, WaitAction, OutputAction, Action, ParseInt, TokenAction;
    ProceedOutputs(m);
    RaiseOutputs(m);
    NotOutputs(m);
    NotOutputs(Forget(m));
    NotOutputs(Forget(m).(payloadTemplate := None));
    var given := AsInt(result.GetOr("retry_after", Int(1)));
    if given.Some? { NotOutputs(m.(pendingWait := if given.value == 0 then 1 else given.value)); }
  }

  lemma TokenOutputs(m: Memory, result: Json)
    requires result.Obj?
    ensures var turn := AfterToken(m, result);
            && OutputsToken(turn)
            && (turn.memory.cachedToken == m.cachedToken
                || (result.Get("ok").Truthy() && turn.memory.cachedToken == result.Get("data").Get("token") && turn.memory.cachedToken.Truthy()))
  {
    hide Proceed, OutputsToken, Refused, OutputAction;
    ProceedOutputs(m);
    RefusedOutputs(m, result);
    var token := result.Get("data").Get("token");
    if token.Truthy() { OutputKind(m.(cachedToken := token), token); }
    assert OutputsToken(Raise(m)) by { RaiseOutputs(m); }
  }

  lemma RaiseOutputs(m: Memory)
    ensures OutputsToken(Raise(m))
  {
  }

  lemma CallOutputs(m: Memory, endpoint: Json, result: Json)
    ensures var turn := AfterCall(m, endpoint, result);
            && OutputsToken(turn)
            && (turn.memory.cachedToken == m.cachedToken
                || (endpoint == Str("/token") && result.Get("ok").Truthy()
                    && turn.memory.cachedToken == result.Get("data").Get("token") && turn.memory.cachedToken.Truthy()))
  {
    hide Proceed, OutputsToken, AfterToken;
    ProceedOutputs(m);
    ProceedOutputs(Forget(m));
    ProceedOutputs(m.(confirmed := true));
    ProceedOutputs(m.(id := AsText(result.Get("handshake_id")), confirmed := false));
    RaiseOutputs(m);
    if result.Obj? { TokenOutputs(m, result); }
  }

  lemma SetupOutputs(m: Memory, result: Json)
    ensures OutputsToken(AfterPayload(m, result)) && AfterPayload(m, result).memory.cachedToken == m.cachedToken
    ensures OutputsToken(AfterTemplate(m, result)) && AfterTemplate(m, result).memory.cachedToken == m.cachedToken
  {
    hide Proceed, OutputsToken, CallAction, Action;
    RaiseOutputs(m);
    var given := result.GetOr("payload_template", Obj(map[]));
    if given.Obj? { ProceedOutputs(m.(payloadTemplate := Some(given.fields))); }
    var after := m.(template := AsText(result.Get("template")));
    ProceedOutputs(after);
    NotOutputs(after);
  }

  // The only output the agent ever sets is a token that /token granted it: the one just given,
  // or the one it remembers; and it remembers no other.
  lemma OutputGranted(m: Memory, o: Observation)
    ensures var turn := Respond(m, o);
            && OutputsToken(turn)
            && (turn.memory.cachedToken == m.cachedToken
                || (&& o.lastAction.Get("type") == Str("call_api") && o.lastAction.Get("args").Get("endpoint") == Str("/token")
                    && o.lastResult.Get("ok").Truthy() && turn.memory.cachedToken.Truthy()
                    && turn.memory.cachedToken == o.lastResult.Get("data").Get("token")))
  {
    hide Proceed, OutputsToken, AfterCall, AfterPayload, AfterTemplate, TokenAction, CallAction, WaitAction, Action;
    ProceedOutputs(m);
    RaiseOutputs(m);
    SetupOutputs(m, o.lastResult);
    NotOutputs(m.(pendingWait := 0));
    NotOutputs(m.(committed := true));
    CallOutputs(m, o.lastAction.Get("args").Get("endpoint"), o.lastResult);
  }

  // What the agent does next when nothing asks for a reply: the first of payload, template, id,
  // confirmation, due wait and unset output that is missing, and then /token.
  lemma ProceedPlays(m: Memory)
    ensures var phrase := HandshakePhrase(m);
            Proceed(m) == Play(m,
              if m.payloadTemplate.None? then Acting("get_required_payload", map[])
              else if m.template.None? then Acting("get_handshake_template", map[])
              else if m.id.None? then Calling("/handshake", Null)
              else if !m.confirmed && phrase == "" then Acting("get_handshake_template", map[])
              else if !m.confirmed then
                Calling("/handshake_commit", Obj(map["handshake_id" := Str(m.id.value), "response" := Str(phrase)]))
              else if m.pendingWait > 0 then Acting("wait", map["steps" := Int(m.pendingWait)])
              else if m.cachedToken.Truthy() && !m.committed then
                Acting("set_output", map["key" := Str("ACCESS_TOKEN"), "value" := m.cachedToken])
              else Calling("/token", TokenPayload(m)))
  {
    hide HandshakePhrase;
  }
}
