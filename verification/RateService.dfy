// tasks/deterministic_rate_service/service.py: the second service of the handshake protocol.
module RateService {
  import opened Values
  import opened Text
  import Phrase

  datatype Rate = Rate(
    secret: string,
    required: map<string, Json>,
    phrase: string,
    blockedUntil: int,
    transient: bool,
    now: int,
    id: Option<string>,
    confirmed: bool,
    tokenCalls: int,
    rateHits: int,
    fatalErrors: int,
    history: seq<Json>)

  function Fresh(secret: string, required: map<string, Json>, phrase: string, blockedUntil: int, transient: bool): Rate
  {
    Rate(secret, required, phrase, blockedUntil, transient, 0, None, false, 0, 0, 0, [])
  }

  function Bad(error: string): (reply: Json)
    ensures reply.Obj?
  {
    Obj(map["ok" := Bool(false), "error" := Str(error)])
  }

  predicate PayloadValid(s: Rate, payload: Json)
  {
    && !payload.Null?
    && (forall k | k in s.required :: payload.Get(k) == s.required[k])
    && payload.Get("handshake_id") == OptStr(s.id)
  }

  // _record
  function Recorded(s: Rate, endpoint: Json, reply: Json): Rate
  {
    s.(history := s.history + [Obj(map["endpoint" := endpoint, "result" := reply, "now" := Int(s.now)])])
  }

  // The state and the answer before the answer is recorded; None is the TypeError of
  // replacing the placeholder by a missing id.
  function Handshake(s: Rate): (Rate, Option<Json>)
  {
    var id := "hs-" + IntText(s.now);
    (s.(id := Some(id), confirmed := false), Some(Obj(map["ok" := Bool(true), "handshake_id" := Str(id)])))
  }

  function Commit(s: Rate, payload: Json): (Rate, Option<Json>)
  {
    if !payload.Truthy() || payload.Get("handshake_id") != OptStr(s.id) then
      (s.(fatalErrors := s.fatalErrors + 1), Some(Bad("invalid_handshake")))
    else if s.id.None? then (s, None)
    else if payload.Get("response") != Str(Replace(s.phrase, Phrase.PLACEHOLDER, s.id.value)) then
      (s.(fatalErrors := s.fatalErrors + 1), Some(Bad("wrong_phrase")))
    else (s.(confirmed := true), Some(Obj(map["ok" := Bool(true), "message" := Str("handshake_confirmed")])))
  }

  function Token(before: Rate, payload: Json): (r: (Rate, Option<Json>))
    ensures r.1.Some?
  {
    var s := before.(tokenCalls := before.tokenCalls + 1);
    if !s.confirmed then (s, Some(Bad("handshake_required")))
    else if !PayloadValid(s, payload) then (s.(fatalErrors := s.fatalErrors + 1), Some(Bad("bad_request")))
    else if s.now < s.blockedUntil then
      (s.(rateHits := s.rateHits + 1),
       Some(Bad("rate_limited").Put("retry_after", Int(s.blockedUntil - s.now)).Put("message", Str("Respect retry window"))))
    else if s.transient then
      (s.(transient := false), Some(Bad("temporary_failure").Put("message", Str("Server hiccup, retry immediately"))))
    else (s, Some(Obj(map["ok" := Bool(true), "data" := Obj(map["token" := Str(s.secret)])])))
  }

  function Unrecorded(s: Rate, endpoint: Json, payload: Json): (Rate, Option<Json>)
  {
    if endpoint == Str("/handshake") then Handshake(s)
    else if endpoint == Str("/handshake_commit") then Commit(s, payload)
    else if endpoint == Str("/token") then Token(s, payload)
    else (s, Some(Bad("not_found")))
  }

  // call
  function Answer(s: Rate, endpoint: Json, payload: Json): (Rate, Option<Json>)
  {
    var r := Unrecorded(s, endpoint, payload);
    if r.1.None? then r else (Recorded(r.0, endpoint, r.1.value), r.1)
  }

  function Status(s: Rate): Json
  {
    Obj(map["now" := Int(s.now), "handshake_id" := OptStr(s.id), "handshake_confirmed" := Bool(s.confirmed),
            "blocked_until" := Int(s.blockedUntil), "token_calls" := Int(s.tokenCalls), "rate_limit_hits" := Int(s.rateHits)])
  }

  class MockDeterministicService {
    const secret: string
    const required: map<string, Json>
    const phrase: string
    const blockedUntil: int
    var transientOnce: bool
    var now: int
    var handshakeId: Option<string>
    var handshakeConfirmed: bool
    var tokenCalls: int
    var rateLimitHits: int
    var fatalErrors: int
    var history: seq<Json>

    function State(): Rate
      reads this
    {
      Rate(secret, required, phrase, blockedUntil, transientOnce, now, handshakeId, handshakeConfirmed, tokenCalls,
           rateLimitHits, fatalErrors, history)
    }

    constructor (secret: string, required: map<string, Json>, phrase: string, blockedUntil: int, transient: bool)
      ensures State() == Fresh(secret, required, phrase, blockedUntil, transient)
    {
      this.secret, this.required, this.phrase, this.blockedUntil := secret, required, phrase, blockedUntil;
      transientOnce, now, handshakeId, handshakeConfirmed := transient, 0, None, false;
      tokenCalls, rateLimitHits, fatalErrors, history := 0, 0, 0, [];
    }

    method Advance(steps: int) returns (ok: bool)
      modifies this`now
      ensures ok == (steps >= 0) && State() == if ok then old(State()).(now := old(now) + steps) else old(State())
    {
      ok := steps >= 0;
      if ok {
        now := now + steps;
      }
    }

    method PayloadIsValid(payload: Json) returns (valid: bool)
      ensures valid == PayloadValid(State(), payload)
    {
      if payload.Null? {
        return false;
      }
      var rest := required.Keys;
      while rest != {}
        invariant rest <= required.Keys
        invariant forall k | k in required && k !in rest :: payload.Get(k) == required[k]
        decreases rest
      {
        var k :| k in rest;
        if payload.Get(k) != required[k] {
          return false;
        }
        rest := rest - {k};
      }
      valid := payload.Get("handshake_id") == OptStr(handshakeId);
    }

    // call; None is the TypeError.
    method Call(endpoint: Json, payload: Json) returns (reply: Option<Json>)
      modifies this
      ensures (State(), reply) == Answer(old(State()), endpoint, payload)
    {
      hide Bad, Replace, IntText, Token;
      if endpoint == Str("/handshake") {
        handshakeId := Some("hs-" + IntText(now));
        handshakeConfirmed := false;
        reply := Some(Obj(map["ok" := Bool(true), "handshake_id" := Str(handshakeId.value)]));
      } else if endpoint == Str("/handshake_commit") {
        if !payload.Truthy() || payload.Get("handshake_id") != OptStr(handshakeId) {
          fatalErrors := fatalErrors + 1;
          reply := Some(Bad("invalid_handshake"));
        } else if handshakeId.None? {
          return None;
        } else if payload.Get("response") != Str(Replace(phrase, Phrase.PLACEHOLDER, handshakeId.value)) {
          fatalErrors := fatalErrors + 1;
          reply := Some(Bad("wrong_phrase"));
        } else {
          handshakeConfirmed := true;
          reply := Some(Obj(map["ok" := Bool(true), "message" := Str("handshake_confirmed")]));
        }
      } else if endpoint == Str("/token") {
        reply := CallToken(payload);
      } else {
        reply := Some(Bad("not_found"));
      }
      history := history + [Obj(map["endpoint" := endpoint, "result" := reply.value, "now" := Int(now)])];
    }

    method CallToken(payload: Json) returns (reply: Option<Json>)
      modifies this
      ensures reply.Some? && (State(), reply) == Token(old(State()), payload)
    {
      hide Bad;
      tokenCalls := tokenCalls + 1;
      if !handshakeConfirmed {
        return Some(Bad("handshake_required"));
      }
      var valid := PayloadIsValid(payload);
      if !valid {
        fatalErrors := fatalErrors + 1;
        return Some(Bad("bad_request"));
      }
      if now < blockedUntil {
        rateLimitHits := rateLimitHits + 1;
        return Some(Bad("rate_limited").Put("retry_after", Int(blockedUntil - now)).Put("message", Str("Respect retry window")));
      }
      if transientOnce {
        transientOnce := false;
        return Some(Bad("temporary_failure").Put("message", Str("Server hiccup, retry immediately")));
      }
      reply := Some(Obj(map["ok" := Bool(true), "data" := Obj(map["token" := Str(secret)])]));
    }
  }

  // ---- the recorded history --------------------------------------------------------------

  predicate Logged(e: Json, endpoint: string)
  {
    e.Get("endpoint") == Str(endpoint)
  }

  predicate LoggedGood(e: Json, endpoint: string)
  {
    Logged(e, endpoint) && e.Get("result").Get("ok") == Bool(true)
  }

  predicate NoHandshakeFrom(log: seq<Json>, from: nat)
  {
    forall j | from <= j < |log| :: !Logged(log[j], "/handshake")
  }

  // The entry of the latest handshake, and the id it handed out.
  predicate LatestHandshake(log: seq<Json>, k: int, id: string)
  {
    && 0 <= k < |log| && Logged(log[k], "/handshake") && NoHandshakeFrom(log, k + 1)
    && log[k].Get("result").Get("handshake_id") == Str(id)
    && log[k].Get("now").Int? && id == "hs-" + IntText(log[k].Get("now").n)
  }

  // A good commit with no handshake behind it.
  predicate LatestCommit(log: seq<Json>, c: int)
  {
    0 <= c < |log| && LoggedGood(log[c], "/handshake_commit") && NoHandshakeFrom(log, c + 1)
  }

  // The service's own history accounts for its id and its confirmation. A confirmed service
  // always holds an id: a commit without one raises here, where the chain service lets a
  // bare commit through.
  ghost predicate Accounted(s: Rate)
  {
    && (if s.id.None? then NoHandshakeFrom(s.history, 0) && !s.confirmed
        else exists k :: LatestHandshake(s.history, k, s.id.value))
    && (s.confirmed ==> exists c :: LatestCommit(s.history, c))
  }

  // What one unrecorded answer does to id, confirmation and log.
  lemma UnrecordedFields(s: Rate, endpoint: Json, payload: Json)
    ensures var r := Unrecorded(s, endpoint, payload);
            && r.0.history == s.history && r.0.now == s.now
            && (endpoint == Str("/handshake") ==>
                  && r.0.id == Some("hs-" + IntText(s.now)) && !r.0.confirmed
                  && r.1.Some? && r.1.value.Get("handshake_id") == Str(r.0.id.value))
            && (endpoint != Str("/handshake") ==> r.0.id == s.id && (s.confirmed ==> r.0.confirmed))
            && (r.0.confirmed && !s.confirmed ==>
                  s.id.Some? && endpoint == Str("/handshake_commit") && r.1.Some? && r.1.value.Get("ok") == Bool(true))
            && (r.1.None? ==> r.0 == s)
  {
    hide IntText, Replace, PayloadValid, Bad;
  }

  lemma AnswerAccounted(s: Rate, endpoint: Json, payload: Json)
    requires Accounted(s)
    ensures Accounted(Answer(s, endpoint, payload).0)
  {
    hide Unrecorded, IntText;
    UnrecordedFields(s, endpoint, payload);
    var r := Unrecorded(s, endpoint, payload);
    if r.1.Some? {
      var log := Recorded(r.0, endpoint, r.1.value).history;
      RecordedEntry(r.0, endpoint, r.1.value);
      var n := |s.history|;
      assert log[..n] == s.history;
      if endpoint == Str("/handshake") {
        assert LatestHandshake(log, n, r.0.id.value);
      } else {
        if s.id.Some? {
          var k :| LatestHandshake(s.history, k, s.id.value);
          assert LatestHandshake(log, k, s.id.value);
        }
        if s.confirmed {
          var c :| LatestCommit(s.history, c);
          assert LatestCommit(log, c);
        } else if r.0.confirmed {
          assert LatestCommit(log, n);
        }
      }
    }
  }

  lemma RecordedEntry(s: Rate, endpoint: Json, reply: Json)
    ensures var log := Recorded(s, endpoint, reply).history;
            && |log| == |s.history| + 1
            && (forall j | 0 <= j < |s.history| :: log[j] == s.history[j])
            && log[|s.history|].Get("endpoint") == endpoint
            && log[|s.history|].Get("result") == reply
            && log[|s.history|].Get("now") == Int(s.now)
  {
  }

  // ---- every history of calls ----------------------------------------------------------

  datatype Event = Called(endpoint: Json, payload: Json) | Advanced(steps: nat)

  function Step(s: Rate, e: Event): Rate
  {
    match e
    case Called(endpoint, payload) => Answer(s, endpoint, payload).0
    case Advanced(steps) => s.(now := s.now + steps)
  }

  function After(s: Rate, h: seq<Event>): Rate
  {
    if h == [] then s else Step(After(s, h[..|h| - 1]), h[|h| - 1])
  }

  lemma {:induction false} AlwaysAccounted(s: Rate, h: seq<Event>)
    requires s.id == None && !s.confirmed && s.history == []
    ensures Accounted(After(s, h))
  {
    hide Answer, IntText;
    if h != [] {
      var before := After(s, h[..|h| - 1]);
      AlwaysAccounted(s, h[..|h| - 1]);
      if h[|h| - 1].Called? {
        AnswerAccounted(before, h[|h| - 1].endpoint, h[|h| - 1].payload);
      }
    }
  }

  // ---- phrase and temporary failure -------------------------------------------------------

  // A commit that named this id with the phrase for it, and no handshake behind it.
  predicate RightCommit(s: Rate, h: seq<Event>, c: int, id: string)
  {
    && 0 <= c < |h| && h[c].Called? && h[c].endpoint == Str("/handshake_commit")
    && h[c].payload.Get("handshake_id") == Str(id)
    && h[c].payload.Get("response") == Str(Replace(s.phrase, Phrase.PLACEHOLDER, id))
    && forall j | c < j < |h| :: h[j].Called? ==> h[j].endpoint != Str("/handshake")
  }

  predicate Hiccup(e: Json)
  {
    e.Get("result").Get("error") == Str("temporary_failure")
  }

  function Hiccups(log: seq<Json>): nat
  {
    if log == [] then 0 else Hiccups(log[..|log| - 1]) + (if Hiccup(log[|log| - 1]) then 1 else 0)
  }

  // The service was confirmed by the right commit, and the pending temporary failure of the
  // start was answered once or is still pending.
  ghost predicate Confirmed(s: Rate, h: seq<Event>)
  {
    var a := After(s, h);
    && a.phrase == s.phrase
    && (a.confirmed ==> a.id.Some? && exists c :: RightCommit(s, h, c, a.id.value))
    && Hiccups(a.history) + (if a.transient then 1 else 0) == (if s.transient then 1 else 0)
  }

  // An answer reports the temporary failure exactly when it takes it from the service.
  predicate TakesHiccup(s: Rate, r: (Rate, Option<Json>))
  {
    r.1.Some? ==>
      (if r.1.value.Get("error") == Str("temporary_failure") then 1 else 0) + (if r.0.transient then 1 else 0)
      == (if s.transient then 1 else 0)
  }

  lemma ErrorsDiffer(error: string)
    requires error in {"invalid_handshake", "wrong_phrase", "handshake_required", "bad_request", "not_found"}
    ensures Bad(error).Get("error") != Str("temporary_failure")
  {
    assert |"temporary_failure"| == 17 && (|error| == 17 ==> error[0] != 't');
  }

  lemma TokenTakes(s: Rate, payload: Json)
    ensures TakesHiccup(s, Token(s, payload))
  {
    hide PayloadValid;
    ErrorsDiffer("handshake_required");
    ErrorsDiffer("bad_request");
    assert Bad("temporary_failure").Put("message", Str("Server hiccup, retry immediately")).Get("error") == Str("temporary_failure");
    assert |"rate_limited"| == 12 && |"temporary_failure"| == 17;
  }

  lemma CommitTakes(s: Rate, payload: Json)
    ensures TakesHiccup(s, Commit(s, payload))
    ensures Commit(s, payload).0.confirmed && !s.confirmed ==>
              s.id.Some? && payload.Get("handshake_id") == Str(s.id.value)
              && payload.Get("response") == Str(Replace(s.phrase, Phrase.PLACEHOLDER, s.id.value))
  {
    ErrorsDiffer("invalid_handshake");
    ErrorsDiffer("wrong_phrase");
    hide Replace, Bad;
  }

  lemma UnrecordedTurn(s: Rate, endpoint: Json, payload: Json)
    ensures var r := Unrecorded(s, endpoint, payload);
            && r.0.phrase == s.phrase && TakesHiccup(s, r) && (r.1.None? ==> r.0 == s)
            && (r.0.confirmed && !s.confirmed ==>
                  s.id.Some? && endpoint == Str("/handshake_commit") && payload.Get("handshake_id") == Str(s.id.value)
                  && payload.Get("response") == Str(Replace(s.phrase, Phrase.PLACEHOLDER, s.id.value)))
  {
    CommitTakes(s, payload);
    TokenTakes(s, payload);
    ErrorsDiffer("not_found");
    hide IntText, Replace, PayloadValid, Bad;
  }

  lemma {:induction false} AlwaysConfirmed(s: Rate, h: seq<Event>)
    requires s.id == None && !s.confirmed && s.history == []
    ensures Confirmed(s, h)
  {
    hide Confirmed;
    if h == [] {
      FreshConfirmed(s);
    } else {
      var n := |h| - 1;
      AlwaysConfirmed(s, h[..n]);
      assert h == h[..n] + [h[n]];
      match h[n]
      case Called(endpoint, payload) => CallConfirmed(s, h[..n], endpoint, payload);
      case Advanced(steps) => WaitConfirmed(s, h[..n], steps);
    }
  }

  lemma FreshConfirmed(s: Rate)
    requires !s.confirmed && s.history == []
    ensures Confirmed(s, [])
  {
  }

  lemma AfterAppend(s: Rate, h: seq<Event>, e: Event)
    ensures After(s, h + [e]) == Step(After(s, h), e)
  {
    hide Step;
    assert (h + [e])[..|h|] == h;
  }

  lemma RightCommitStays(s: Rate, h: seq<Event>, e: Event, c: int, id: string)
    requires RightCommit(s, h, c, id) && (e.Called? ==> e.endpoint != Str("/handshake"))
    ensures RightCommit(s, h + [e], c, id)
  {
    hide Replace;
  }

  lemma WaitConfirmed(s: Rate, h: seq<Event>, steps: nat)
    requires Confirmed(s, h)
    ensures Confirmed(s, h + [Advanced(steps)])
  {
    hide After, RightCommit, Hiccups;
    var a := After(s, h);
    AfterAppend(s, h, Advanced(steps));
    if a.confirmed {
      var c :| RightCommit(s, h, c, a.id.value);
      RightCommitStays(s, h, Advanced(steps), c, a.id.value);
    }
  }

  lemma CallConfirmed(s: Rate, h: seq<Event>, endpoint: Json, payload: Json)
    requires Confirmed(s, h)
    ensures Confirmed(s, h + [Called(endpoint, payload)])
  {
    hide After, RightCommit, Unrecorded, Hiccups, IntText, Replace;
    var a, e := After(s, h), Called(endpoint, payload);
    AfterAppend(s, h, e);
    UnrecordedTurn(a, endpoint, payload);
    UnrecordedFields(a, endpoint, payload);
    var r := Unrecorded(a, endpoint, payload);
    if r.1.Some? { HiccupRecorded(r.0, endpoint, r.1.value); }
    if a.confirmed {
      var c :| RightCommit(s, h, c, a.id.value);
      if endpoint != Str("/handshake") { RightCommitStays(s, h, e, c, a.id.value); }
    } else if r.0.confirmed {
      NewCommitRight(s, h, payload, a.id.value);
    }
  }

  lemma HiccupRecorded(s: Rate, endpoint: Json, reply: Json)
    ensures Hiccups(Recorded(s, endpoint, reply).history)
            == Hiccups(s.history) + (if reply.Get("error") == Str("temporary_failure") then 1 else 0)
  {
    RecordedEntry(s, endpoint, reply);
    var log := Recorded(s, endpoint, reply).history;
    assert log[..|log| - 1] == s.history;
    hide Recorded;
  }

  lemma NewCommitRight(s: Rate, h: seq<Event>, payload: Json, id: string)
    requires payload.Get("handshake_id") == Str(id)
    requires payload.Get("response") == Str(Replace(s.phrase, Phrase.PLACEHOLDER, id))
    ensures RightCommit(s, h + [Called(Str("/handshake_commit"), payload)], |h|, id)
  {
    hide Replace;
  }

  lemma TokenMeans(s: Rate, payload: Json)
    ensures Token(s, payload).1.value.Get("ok") == Bool(true) <==>
              && s.confirmed && PayloadValid(s, payload) && s.now >= s.blockedUntil && !s.transient
  {
  }

  // A token granted after any history: the log holds a handshake and behind it, with no
  // other handshake in between, a good commit; that commit carried the phrase for its id, the
  // token names the id, and a temporary failure was answered exactly once.
  lemma GrantLogged(s: Rate, h: seq<Event>, payload: Json)
    requires s.id == None && !s.confirmed && s.history == []
    requires Token(After(s, h), payload).1.value.Get("ok") == Bool(true)
    ensures var a := After(s, h);
            && a.now >= a.blockedUntil && !a.transient && a.id.Some?
            && payload.Get("handshake_id") == Str(a.id.value)
            && (exists k, c :: k < c && LatestHandshake(a.history, k, a.id.value) && LatestCommit(a.history, c))
            && (exists c :: RightCommit(s, h, c, a.id.value))
            && Hiccups(a.history) == (if s.transient then 1 else 0)
  {
    hide After, Token, IntText, Hiccups;
    var a := After(s, h);
    AlwaysAccounted(s, h);
    AlwaysConfirmed(s, h);
    TokenMeans(a, payload);
    assert a.confirmed && a.id.Some? && OptStr(a.id) == Str(a.id.value);
    var k :| LatestHandshake(a.history, k, a.id.value);
    var c :| LatestCommit(a.history, c);
    assert Logged(a.history[k], "/handshake");
    assert !Logged(a.history[c], "/handshake");
    assert k < c && LatestHandshake(a.history, k, a.id.value) && LatestCommit(a.history, c);
  }

  // ---- every answer ----------------------------------------------------------------------------

  function ErrorOf(reply: Json): Option<string>
  {
    if reply.Get("error").Str? then Some(reply.Get("error").s) else None
  }

  lemma BadTells(error: string, wait: int, message: string)
    ensures var bad := Bad(error);
            && ErrorOf(bad) == Some(error) && bad.Get("ok") == Bool(false)
            && ErrorOf(bad.Put("message", Str(message))) == Some(error) && bad.Put("message", Str(message)).Get("ok") == Bool(false)
    ensures var limited := Bad(error).Put("retry_after", Int(wait)).Put("message", Str(message));
            && ErrorOf(limited) == Some(error) && limited.Get("ok") == Bool(false) && limited.Get("retry_after") == Int(wait)
  {
  }

  lemma GrantTells(secret: string)
    ensures var r := Obj(map["ok" := Bool(true), "data" := Obj(map["token" := Str(secret)])]);
            ErrorOf(r) == None && r.Get("ok") == Bool(true) && r.Get("data").Get("token") == Str(secret)
  {
  }

  // The first of four obstacles is the error of /token; without any it hands out the secret.
  lemma TokenTells(s: Rate, payload: Json)
    ensures var r := Token(s, payload).1.value;
            && ErrorOf(r) ==
               (if !s.confirmed then Some("handshake_required")
                else if payload.Null? || (exists k <- s.required :: payload.Get(k) != s.required[k])
                        || payload.Get("handshake_id") != OptStr(s.id) then Some("bad_request")
                else if s.now < s.blockedUntil then Some("rate_limited")
                else if s.transient then Some("temporary_failure") else None)
            && r.Get("ok") == Bool(ErrorOf(r).None?)
            && (ErrorOf(r).None? ==> r.Get("data").Get("token") == Str(s.secret))
            && (ErrorOf(r) == Some("rate_limited") ==> r.Get("retry_after") == Int(s.blockedUntil - s.now))
  {
    hide PayloadValid, Bad, ErrorOf;
    PayloadMeans(s, payload);
    BadTells("handshake_required", 0, "");
    BadTells("bad_request", 0, "");
    BadTells("rate_limited", s.blockedUntil - s.now, "Respect retry window");
    BadTells("temporary_failure", 0, "Server hiccup, retry immediately");
    GrantTells(s.secret);
    ErrorsApart();
  }

  lemma PayloadMeans(s: Rate, payload: Json)
    ensures PayloadValid(s.(tokenCalls := s.tokenCalls + 1), payload) <==>
              !(payload.Null? || (exists k <- s.required :: payload.Get(k) != s.required[k]) || payload.Get("handshake_id") != OptStr(s.id))
  {
  }

  lemma ErrorsApart()
    ensures "rate_limited" != "handshake_required" && "rate_limited" != "bad_request" && "rate_limited" != "temporary_failure"
    ensures "rate_limited" != "invalid_handshake" && "rate_limited" != "wrong_phrase" && "rate_limited" != "not_found"
  {
    assert |"rate_limited"| == 12 && |"handshake_required"| == 18 && |"bad_request"| == 11 && |"temporary_failure"| == 17;
    assert |"invalid_handshake"| == 17 && |"wrong_phrase"| == 12 && |"not_found"| == 9 && "wrong_phrase"[0] == 'w';
  }

  // A commit is refused for a wrong id or a wrong phrase, and raises when it names no id
  // before any handshake.
  lemma CommitTells(s: Rate, payload: Json)
    ensures var r := Commit(s, payload).1;
            && (r.None? <==> payload.Truthy() && payload.Get("handshake_id").Null? && s.id.None?)
            && (r.Some? ==>
                  && ErrorOf(r.value) ==
                     (if !payload.Truthy() || payload.Get("handshake_id") != OptStr(s.id) then Some("invalid_handshake")
                      else if payload.Get("response") != Str(Replace(s.phrase, "<handshake_id>", s.id.value)) then Some("wrong_phrase")
                      else None)
                  && r.value.Get("ok") == Bool(ErrorOf(r.value).None?))
  {
    BadTells("invalid_handshake", 0, "");
    BadTells("wrong_phrase", 0, "");
    hide Replace, Bad;
  }

  // The entries of the log by endpoint and by error.
  function Asked(log: seq<Json>, endpoint: string): nat
  {
    if log == [] then 0 else Asked(log[..|log| - 1], endpoint) + (if Logged(log[|log| - 1], endpoint) then 1 else 0)
  }

  function Refused(log: seq<Json>, error: string): nat
  {
    if log == [] then 0
    else Refused(log[..|log| - 1], error) + (if ErrorOf(log[|log| - 1].Get("result")) == Some(error) then 1 else 0)
  }

  // The log explains the counters: each /token asked, each refusal by the rate limit, and each
  // refusal for a wrong id, phrase or payload is there.
  predicate CountsAgree(s: Rate, a: Rate)
  {
    && a.tokenCalls - s.tokenCalls == Asked(a.history, "/token") - Asked(s.history, "/token")
    && a.rateHits - s.rateHits == Refused(a.history, "rate_limited") - Refused(s.history, "rate_limited")
    && a.fatalErrors - s.fatalErrors ==
       Refused(a.history, "invalid_handshake") + Refused(a.history, "wrong_phrase") + Refused(a.history, "bad_request")
       - Refused(s.history, "invalid_handshake") - Refused(s.history, "wrong_phrase") - Refused(s.history, "bad_request")
  }

  lemma {:induction false} CountersLogged(s: Rate, h: seq<Event>)
    ensures CountsAgree(s, After(s, h))
  {
    hide Answer, Asked, Refused;
    if h != [] {
      var before := After(s, h[..|h| - 1]);
      CountersLogged(s, h[..|h| - 1]);
      if h[|h| - 1].Called? {
        CallCounts(before, h[|h| - 1].endpoint, h[|h| - 1].payload);
      }
    }
  }

  // What one call adds to counters and log.
  lemma CallCounts(s: Rate, endpoint: Json, payload: Json)
    ensures CountsAgree(s, Answer(s, endpoint, payload).0)
  {
    hide Unrecorded, Asked, Refused, ErrorOf, Logged;
    var r := Unrecorded(s, endpoint, payload);
    CountsOf(s, endpoint, payload);
    if r.1.Some? {
      EntryCounts(r.0, endpoint, r.1.value, "rate_limited");
      EntryCounts(r.0, endpoint, r.1.value, "invalid_handshake");
      EntryCounts(r.0, endpoint, r.1.value, "wrong_phrase");
      EntryCounts(r.0, endpoint, r.1.value, "bad_request");
    }
  }

  // What an answer says about the counters it moved.
  predicate Tallies(s: Rate, endpoint: Json, r: (Rate, Option<Json>))
  {
    && r.0.history == s.history
    && (r.1.None? ==> r.0 == s)
    && (r.1.Some? ==>
          var error := ErrorOf(r.1.value);
          && r.0.tokenCalls == s.tokenCalls + (if endpoint == Str("/token") then 1 else 0)
          && r.0.rateHits == s.rateHits + (if error == Some("rate_limited") then 1 else 0)
          && r.0.fatalErrors == s.fatalErrors
             + (if error == Some("invalid_handshake") || error == Some("wrong_phrase") || error == Some("bad_request") then 1 else 0))
  }

  lemma CountsOf(s: Rate, endpoint: Json, payload: Json)
    ensures Tallies(s, endpoint, Unrecorded(s, endpoint, payload))
  {
    hide Token, Commit, Handshake, Tallies;
    EndpointsDiffer();
    if endpoint == Str("/handshake") { HandshakeTallies(s); }
    else if endpoint == Str("/handshake_commit") { CommitTallies(s, payload); }
    else if endpoint == Str("/token") { TokenTallies(s, payload); }
    else { UnknownTallies(s, endpoint); }
  }

  lemma EndpointsDiffer()
    ensures Str("/token") != Str("/handshake") && Str("/handshake") != Str("/handshake_commit") && Str("/token") != Str("/handshake_commit")
  {
    assert |"/token"| == 6 && |"/handshake"| == 10 && |"/handshake_commit"| == 17;
  }

  lemma HandshakeTallies(s: Rate)
    ensures Tallies(s, Str("/handshake"), Handshake(s))
  {
    hide IntText;
    EndpointsDiffer();
  }

  lemma UnknownTallies(s: Rate, endpoint: Json)
    requires endpoint != Str("/token")
    ensures Tallies(s, endpoint, (s, Some(Bad("not_found"))))
  {
    BadTells("not_found", 0, "");
    assert |"not_found"| == 9 && |"rate_limited"| == |"wrong_phrase"| == 12 && |"invalid_handshake"| == 17 && |"bad_request"| == 11;
    hide Bad, ErrorOf;
  }

  lemma CommitTallies(s: Rate, payload: Json)
    ensures Tallies(s, Str("/handshake_commit"), Commit(s, payload))
  {
    BadTells("invalid_handshake", 0, "");
    BadTells("wrong_phrase", 0, "");
    ErrorsApart();
    EndpointsDiffer();
    hide Replace, Bad;
  }

  lemma TokenTallies(s: Rate, payload: Json)
    ensures Tallies(s, Str("/token"), Token(s, payload))
  {
    hide PayloadValid, Bad, ErrorOf;
    BadTells("handshake_required", 0, "");
    BadTells("bad_request", 0, "");
    BadTells("rate_limited", s.blockedUntil - s.now, "Respect retry window");
    BadTells("temporary_failure", 0, "Server hiccup, retry immediately");
    GrantTells(s.secret);
    ErrorsApart();
    ErrorsFatal();
  }

  lemma ErrorsFatal()
    ensures "handshake_required" != "bad_request" && "handshake_required" != "invalid_handshake" && "handshake_required" != "wrong_phrase"
    ensures "temporary_failure" != "bad_request" && "temporary_failure" != "invalid_handshake" && "temporary_failure" != "wrong_phrase"
    ensures "bad_request" != "invalid_handshake" && "bad_request" != "wrong_phrase"
  {
    assert |"handshake_required"| == 18 && |"temporary_failure"| == |"invalid_handshake"| == 17 && |"bad_request"| == 11 && |"wrong_phrase"| == 12;
    assert "temporary_failure"[0] == 't' && "invalid_handshake"[0] == 'i';
  }

  lemma EntryCounts(s: Rate, endpoint: Json, reply: Json, error: string)
    ensures var log := Recorded(s, endpoint, reply).history;
            && Asked(log, "/token") == Asked(s.history, "/token") + (if endpoint == Str("/token") then 1 else 0)
            && Refused(log, error) == Refused(s.history, error) + (if ErrorOf(reply) == Some(error) then 1 else 0)
  {
    hide ErrorOf;
    RecordedEntry(s, endpoint, reply);
    var log := Recorded(s, endpoint, reply).history;
    assert log[..|log| - 1] == s.history;
    hide Recorded;
  }
}
