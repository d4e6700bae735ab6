// tasks/rate_limited_chain/service.py: the mock service, and what its answers say about
// the calls that came before.
module ChainService {
  import opened Values
  import opened Text
  import Phrase

  datatype Chain = Chain(
    secret: string,
    required: map<string, Json>,
    code: string,
    now: int,
    blockedUntil: int,
    window: int,
    transient: bool,
    id: Option<string>,
    expires: Option<int>,
    confirmed: bool,
    rateHits: int,
    tokenCalls: int)

  function Fresh(secret: string, required: map<string, Json>, code: string, blockedUntil: int, window: int, transient: bool): Chain
  {
    Chain(secret, required, code, 0, blockedUntil, window, transient, None, None, false, 0, 0)
  }

  function Good(fields: map<string, Json>): Json
  {
    Obj(map["ok" := Bool(true)] + fields)
  }

  function Bad(error: string, message: string): (reply: Json)
    ensures reply.Obj?
  {
    Obj(map["ok" := Bool(false), "error" := Str(error), "message" := Str(message)])
  }

  // _payload_is_valid
  predicate PayloadValid(required: map<string, Json>, payload: Json)
  {
    !payload.Null? && forall k | k in required :: payload.Get(k) == required[k]
  }

  // _expected_phrase: None, or the phrase for a non-empty id.
  function Expected(s: Chain): Json
  {
    if s.id.None? || s.id.value == "" then Null else Str(Phrase.ChainExpects(s.id.value, s.code))
  }

  function Handshake(s: Chain): (Chain, Json)
  {
    var id, expires := "hs-" + IntText(s.now), s.now + s.window;
    (s.(id := Some(id), expires := Some(expires), confirmed := false),
     Good(map["handshake_id" := Str(id), "expires_at_step" := Int(expires)]))
  }

  function Commit(s: Chain, payload: Json): (Chain, Json)
  {
    if !payload.Truthy() then (s, Bad("invalid_handshake", "payload required"))
    else if payload.Get("handshake_id") != OptStr(s.id) then (s, Bad("invalid_handshake", "unknown handshake_id"))
    else if s.expires.Some? && s.now > s.expires.value then (s, Bad("handshake_expired", "request a new handshake"))
    else if payload.Get("response") != Expected(s) then (s, Bad("wrong_phrase", "response does not match template"))
    else (s.(confirmed := true), Good(map["message" := Str("handshake_confirmed")]))
  }

  // The replies of /token.
  function HandshakeFirst(): Json
  {
    Bad("handshake_required", "complete handshake first")
  }

  function BadRequest(): Json
  {
    Bad("bad_request", "payload missing " + "required fields or values")
  }

  function Stale(): Json
  {
    Bad("invalid_handshake", "stale handshake")
  }

  function Limited(wait: int): Json
  {
    Bad("rate_limited", "Respect retry window " + "before calling /token again").Put("retry_after", Int(wait))
  }

  function Hiccup(): Json
  {
    Bad("temporary_failure", "Chain service hiccup. " + "Retry immediately.")
  }

  function Granted(secret: string): Json
  {
    Good(map["data" := Obj(map["token" := Str(secret)])])
  }

  function Token(before: Chain, payload: Json): (Chain, Json)
  {
    var s := before.(tokenCalls := before.tokenCalls + 1);
    if !s.confirmed then (s, HandshakeFirst())
    else if !PayloadValid(s.required, payload) then (s, BadRequest())
    else if payload.Get("handshake_id") != OptStr(s.id) then (s, Stale())
    else if s.now < s.blockedUntil then
      (s.(rateHits := s.rateHits + 1),
       Limited(s.blockedUntil - s.now))
    else if s.transient then (s.(transient := false), Hiccup())
    else (s, Granted(s.secret))
  }

  // call
  function Answer(s: Chain, endpoint: Json, payload: Json): (Chain, Json)
  {
    if endpoint == Str("/handshake") then Handshake(s)
    else if endpoint == Str("/handshake_commit") then Commit(s, payload)
    else if endpoint == Str("/token") then Token(s, payload)
    else (s, Bad("not_found", "unknown endpoint"))
  }

  function Status(s: Chain): Json
  {
    Obj(map["now" := Int(s.now), "blocked_until" := Int(s.blockedUntil), "handshake_id" := OptStr(s.id),
            "handshake_confirmed" := Bool(s.confirmed), "rate_limit_hits" := Int(s.rateHits), "token_calls" := Int(s.tokenCalls)])
  }

  class MockChainAPI {
    const secret: string
    const required: map<string, Json>
    const code: string
    const blockedUntil: int
    const window: int
    var now: int
    var transientPending: bool
    var handshakeId: Option<string>
    var handshakeExpiresAt: Option<int>
    var handshakeConfirmed: bool
    var rateLimitHits: int
    var tokenCalls: int

    function State(): Chain
      reads this
    {
      Chain(secret, required, code, now, blockedUntil, window, transientPending, handshakeId, handshakeExpiresAt,
            handshakeConfirmed, rateLimitHits, tokenCalls)
    }

    constructor (secret: string, required: map<string, Json>, code: string, blockedUntil: int, window: int, transient: bool)
      ensures State() == Fresh(secret, required, code, blockedUntil, window, transient)
    {
      this.secret, this.required, this.code, this.blockedUntil, this.window := secret, required, code, blockedUntil, window;
      now, transientPending := 0, transient;
      handshakeId, handshakeExpiresAt, handshakeConfirmed := None, None, false;
      rateLimitHits, tokenCalls := 0, 0;
    }

    // advance; false is the ValueError for a negative number of steps.
    method Advance(steps: int) returns (ok: bool)
      modifies this`now
      ensures ok == (steps >= 0) && State() == if ok then old(State()).(now := old(now) + steps) else old(State())
    {
      ok := steps >= 0;
      if ok {
        now := now + steps;
      }
    }

    // _payload_is_valid: one required key after the other.
    method PayloadIsValid(payload: Json) returns (valid: bool)
      ensures valid == PayloadValid(required, payload)
    {
      if payload.Null? {
        return false;
      }
      var rest := required.Keys;
      while rest != {}
        invariant rest <= required.Keys
        invariant forall k | k in required && k !in rest :: payload.Get(k) == required[k]
        decreases rest
      {
        var k :| k in rest;
        if payload.Get(k) != required[k] {
          return false;
        }
        rest := rest - {k};
      }
      valid := true;
    }

    method Call(endpoint: Json, payload: Json) returns (reply: Json)
      modifies this
      ensures (State(), reply) == Answer(old(State()), endpoint, payload)
    {
      hide Good, Bad, Expected, IntText, Token, OptStr;
      if endpoint == Str("/handshake") {
        handshakeId := Some("hs-" + IntText(now));
        handshakeExpiresAt := Some(now + window);
        handshakeConfirmed := false;
        return Good(map["handshake_id" := Str(handshakeId.value), "expires_at_step" := Int(handshakeExpiresAt.value)]);
      }
      if endpoint == Str("/handshake_commit") {
        if !payload.Truthy() {
          return Bad("invalid_handshake", "payload required");
        }
        if payload.Get("handshake_id") != OptStr(handshakeId) {
          return Bad("invalid_handshake", "unknown handshake_id");
        }
        if handshakeExpiresAt.Some? && now > handshakeExpiresAt.value {
          return Bad("handshake_expired", "request a new handshake");
        }
        if payload.Get("response") != Expected(State()) {
          return Bad("wrong_phrase", "response does not match template");
        }
        handshakeConfirmed := true;
        return Good(map["message" := Str("handshake_confirmed")]);
      }
      if endpoint == Str("/token") {
        reply := CallToken(payload);
        return;
      }
      reply := Bad("not_found", "unknown endpoint");
    }

    method CallToken(payload: Json) returns (reply: Json)
      modifies this
      ensures (State(), reply) == Token(old(State()), payload)
    {
      hide HandshakeFirst, BadRequest, Stale, Limited, Hiccup, Granted, PayloadValid, OptStr;
      tokenCalls := tokenCalls + 1;
      if !handshakeConfirmed {
        return HandshakeFirst();
      }
      var valid := PayloadIsValid(payload);
      if !valid {
        return BadRequest();
      }
      if payload.Get("handshake_id") != OptStr(handshakeId) {
        return Stale();
      }
      if now < blockedUntil {
        rateLimitHits := rateLimitHits + 1;
        return Limited(blockedUntil - now);
      }
      if transientPending {
        transientPending := false;
        return Hiccup();
      }
      reply := Granted(secret);
    }
  }
}
