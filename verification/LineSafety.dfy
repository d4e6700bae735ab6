// No text that passes through the handshake tasks as they are set up holds a line separator,
// so that the rows of their bundles stay in one piece.
module LineSafety {
  import opened Values
  import opened Text
  import opened ChainAgent
  import opened HandshakeTask
  import opened HandshakeRun
  import ChainService
  import RateService
  import ChainRuns
  import Phrase

  // ---- texts -----------------------------------------------------------------------------

  // The texts of a setup and the phrase the agent reads out of its template.
  predicate TextsSafe<S(!new)>(e: Episode<S>)
  {
    && OneLine(e.setup.secret) && OneLine(e.setup.template) && OneLine(Phrase.Extract(e.setup.template, e.ID))
    && LineSafe(Obj(e.setup.required))
  }

  lemma JoinSafe(a: string, b: string)
    ensures OneLine(a + b) <==> OneLine(a) && OneLine(b)
  {
    if OneLine(a + b) {
      assert forall i | 0 <= i < |a| :: (a + b)[i] == a[i];
      assert forall i | 0 <= i < |b| :: (a + b)[|a| + i] == b[i];
    }
  }

  lemma NumberSafe(n: int)
    ensures OneLine(IntText(n))
  {
    hide NatText;
    var digits := NatText(if n < 0 then -n else n);
    assert forall c <- digits :: IsDigit(c);
  }

  lemma DigitsSafe(digits: string)
    requires forall i | 0 <= i < |digits| :: IsDigit(digits[i])
    ensures OneLine(digits)
  {
  }

  lemma PutSafe(j: Json, key: string, value: Json)
    requires j.Obj? && LineSafe(j) && OneLine(key) && LineSafe(value)
    ensures LineSafe(j.Put(key, value))
  {
    hide OneLine;
  }

  lemma StrSafe(s: string)
    ensures LineSafe(Str(s)) <==> OneLine(s)
  {
  }

  // ---- the templates -----------------------------------------------------------------------

  lemma ChainParts()
    ensures OneLine(Phrase.FINALIZE) && OneLine(Phrase.SHAKE) && OneLine(Phrase.EXPIRE) && OneLine(Phrase.REQUEST) && OneLine(Phrase.MISS)
    ensures OneLine(Phrase.MARKER) && OneLine(Phrase.PLACEHOLDER) && OneLine("CHAIN") && OneLine("DRS")
    ensures OneLine(" ") && OneLine("-") && OneLine(".") && OneLine("\n") && OneLine("hs-0")
  {
  }

  lemma WantedSafe(stem: string, middle: string, code: string)
    requires OneLine(stem) && OneLine(middle) && OneLine(code)
    ensures OneLine(stem + "-" + middle + "-" + code)
  {
    ChainParts();
    hide OneLine;
    JoinSafe(stem, "-");
    JoinSafe(stem + "-", middle);
    JoinSafe(stem + "-" + middle, "-");
    JoinSafe(stem + "-" + middle + "-", code);
  }

  lemma InstructionSafe(t: Phrase.Template, code: string)
    requires OneLine(t.head) && OneLine(t.stem) && OneLine(t.tail) && OneLine(code)
    ensures OneLine(Phrase.Instruction(t, code))
  {
    ChainParts();
    WantedSafe(t.stem, Phrase.PLACEHOLDER, code);
    hide OneLine;
    var wanted := Phrase.Wanted(t.stem, code);
    JoinSafe(t.head, Phrase.MARKER);
    JoinSafe(t.head + Phrase.MARKER, " ");
    JoinSafe(t.head + Phrase.MARKER + " ", wanted);
    JoinSafe(t.head + Phrase.MARKER + " " + wanted, ".");
    JoinSafe(t.head + Phrase.MARKER + " " + wanted + ".", "\n");
    JoinSafe(t.head + Phrase.MARKER + " " + wanted + "." + "\n", t.tail);
  }

  lemma ChainTemplate(code: string)
    requires OneLine(code)
    ensures OneLine(Phrase.Instruction(Phrase.CHAIN, code)) && OneLine(Phrase.ChainExpects("hs-0", code))
  {
    ChainParts();
    hide OneLine;
    JoinSafe(Phrase.FINALIZE, Phrase.SHAKE);
    JoinSafe(Phrase.EXPIRE, Phrase.REQUEST);
    JoinSafe(Phrase.EXPIRE + Phrase.REQUEST, Phrase.MISS);
    InstructionSafe(Phrase.CHAIN, code);
    WantedSafe("CHAIN", "hs-0", code);
  }

  lemma RateParts()
    ensures OneLine(Phrase.DETERMINISTIC) && OneLine(Phrase.SERVICE) && OneLine(Phrase.CONFIRM) && OneLine(Phrase.RESPECT)
  {
  }

  lemma RateAdvice()
    ensures OneLine(Phrase.WAIT) && OneLine(Phrase.AFTER) && OneLine(Phrase.TEMPORARY) && OneLine(Phrase.RETRIED) && OneLine(Phrase.WITHOUT)
  {
  }

  lemma RateTemplate(code: string)
    requires OneLine(code)
    ensures OneLine(Phrase.Instruction(Phrase.RATE, code))
  {
    ChainParts();
    RateParts();
    RateAdvice();
    hide OneLine;
    JoinSafe(Phrase.DETERMINISTIC, Phrase.SERVICE);
    JoinSafe(Phrase.DETERMINISTIC + Phrase.SERVICE, Phrase.CONFIRM);
    JoinSafe(Phrase.RESPECT, Phrase.WAIT);
    JoinSafe(Phrase.RESPECT + Phrase.WAIT, Phrase.AFTER);
    JoinSafe(Phrase.RESPECT + Phrase.WAIT + Phrase.AFTER, Phrase.TEMPORARY);
    JoinSafe(Phrase.RESPECT + Phrase.WAIT + Phrase.AFTER + Phrase.TEMPORARY, Phrase.RETRIED);
    JoinSafe(Phrase.RESPECT + Phrase.WAIT + Phrase.AFTER + Phrase.TEMPORARY + Phrase.RETRIED, Phrase.WITHOUT);
    InstructionSafe(Phrase.RATE, code);
  }

  // What the rate service expects for its first id.
  lemma RateExpected(code: string)
    requires OneLine(code) && !Contains(code, Phrase.PLACEHOLDER)
    ensures OneLine(Phrase.RateExpects("hs-0", code))
  {
    ChainParts();
    hide OneLine, Contains, Replace, Find;
    ContainsIffFound(code, Phrase.PLACEHOLDER);
    ReplaceNothing(code, Phrase.PLACEHOLDER, "hs-0");
    NoMark();
    Phrase.WantedReplaced("DRS", code, "hs-0");
    WantedSafe("DRS", "hs-0", code);
  }

  lemma NoMark()
    ensures '<' !in "DRS" && Phrase.RATE.stem == "DRS"
  {
  }

  lemma ReplaceNothing(s: string, p: string, r: string)
    requires p != "" && Find(s, p) == -1
    ensures Replace(s, p, r) == s
  {
    hide Find;
  }

  // ---- the agent's actions -------------------------------------------------------------------

  lemma ActionWords()
    ensures OneLine("type") && OneLine("args") && OneLine("call_api") && OneLine("endpoint") && OneLine("payload")
    ensures OneLine("/handshake") && OneLine("/handshake_commit") && OneLine("/token") && OneLine("handshake_id") && OneLine("response")
    ensures OneLine("wait") && OneLine("steps") && OneLine("set_output") && OneLine("key") && OneLine("value") && OneLine(OUTPUT_KEY)
    ensures OneLine("get_required_payload") && OneLine("get_handshake_template") && OneLine("hs-0")
  {
  }

  lemma ActionSafe(name: string, args: map<string, Json>)
    requires OneLine(name) && LineSafe(Obj(args))
    ensures LineSafe(Action(name, args))
  {
    ActionWords();
    StrSafe(name);
    PairSafe("type", Str(name), "args", Obj(args));
  }

  lemma CallSafe(endpoint: string, payload: Json)
    requires OneLine(endpoint) && LineSafe(payload)
    ensures LineSafe(CallAction(endpoint, payload))
  {
    ActionWords();
    hide OneLine;
    StrSafe(endpoint);
    PairSafe("endpoint", Str(endpoint), "payload", payload);
    ActionSafe("call_api", map["endpoint" := Str(endpoint), "payload" := payload]);
  }

  lemma PayloadsSafe<S(!new)>(e: Episode<S>)
    requires TextsSafe(e)
    ensures LineSafe(e.CommitPayload()) && LineSafe(e.TokenPayload())
  {
    ActionWords();
    hide OneLine, Phrase.Extract;
    StrSafe(e.ID);
    StrSafe(Phrase.Extract(e.setup.template, e.ID));
    PairSafe("handshake_id", Str(e.ID), "response", Str(Phrase.Extract(e.setup.template, e.ID)));
    PutSafe(Obj(e.setup.required), "handshake_id", Str(e.ID));
  }

  lemma WaitSafe(steps: int)
    ensures LineSafe(WaitAction(steps)) && LineSafe(ASK_PAYLOAD) && LineSafe(ASK_TEMPLATE)
  {
    ActionWords();
    hide OneLine;
    assert LineSafe(Int(steps)) && LineSafe(Obj(map[]));
    PairSafe("steps", Int(steps), "steps", Int(steps));
    hide LineSafe, Action;
    ActionSafe("wait", map["steps" := Int(steps)]);
    ActionSafe("get_required_payload", map[]);
    ActionSafe("get_handshake_template", map[]);
  }

  lemma OutputSafe(token: string)
    requires OneLine(token)
    ensures LineSafe(OutputAction(Str(token)))
  {
    ActionWords();
    hide OneLine, Action;
    StrSafe(OUTPUT_KEY);
    StrSafe(token);
    PairSafe("key", Str(OUTPUT_KEY), "value", Str(token));
    hide LineSafe;
    ActionSafe("set_output", map["key" := Str(OUTPUT_KEY), "value" := Str(token)]);
  }

  lemma CallsSafe<S(!new)>(e: Episode<S>)
    requires TextsSafe(e)
    ensures LineSafe(CallAction("/handshake", Null)) && LineSafe(CallAction("/handshake_commit", e.CommitPayload()))
    ensures LineSafe(CallAction("/token", e.TokenPayload()))
  {
    assert LineSafe(Null);
    hide LineSafe, OneLine, TextsSafe, CallAction, Episode.CommitPayload, Episode.TokenPayload;
    ActionWords();
    PayloadsSafe(e);
    CallSafe("/handshake", Null);
    CallSafe("/handshake_commit", e.CommitPayload());
    CallSafe("/token", e.TokenPayload());
  }

  lemma PlayedSafe<S(!new)>(e: Episode<S>, stage: Stage)
    requires TextsSafe(e)
    ensures LineSafe(Played(e, stage))
  {
    hide LineSafe, OneLine, Phrase.Extract, CallAction, WaitAction, OutputAction, Episode.CommitPayload, Episode.TokenPayload;
    CallsSafe(e);
    WaitSafe(e.blocked);
    OutputSafe(e.setup.secret);
  }

  // ---- what the stages give back ---------------------------------------------------------------

  // While the service is in a state of the invariant it answers without line separators and
  // stays there.
  ghost predicate Clean<S(!new)>(e: Episode<S>, inv: S -> bool)
  {
    && inv(e.start)
    && (forall s: S, endpoint: Json, payload: Json | inv(s) :: Answered(e.sv.call(s, endpoint, payload), inv))
    && (forall s: S, n: int | inv(s) :: inv(e.sv.advance(s, n)))
  }

  predicate Answered<S>(r: (S, Option<Json>), inv: S -> bool)
  {
    inv(r.0) && LineSafe(Given(r.1))
  }

  lemma RepliesSafe<S(!new)>(e: Episode<S>, inv: S -> bool)
    requires Clean(e, inv)
    ensures LineSafe(Given(e.ShakeCall().1)) && LineSafe(Given(e.CommitCall().1)) && LineSafe(Given(e.AskToken(e.Committed()).1))
    ensures LineSafe(Given(e.AskToken(e.Waited()).1)) && LineSafe(Given(e.AskToken(e.Recovered()).1))
  {
    hide LineSafe, Given, Phrase.Extract, Episode.CommitPayload, Episode.TokenPayload;
    assert Answered(e.ShakeCall(), inv);
    assert Answered(e.CommitCall(), inv);
    assert Answered(e.AskToken(e.Committed()), inv);
    assert inv(e.Waited());
    assert Answered(e.AskToken(e.Waited()), inv);
    assert Answered(e.AskToken(e.Recovered()), inv);
  }

  lemma ResultWords()
    ensures OneLine("ok") && OneLine("payload_template") && OneLine("template") && OneLine("message")
    ensures OneLine("advanced virtual time by ") && OneLine(" steps")
  {
  }

  lemma GivenSafe<S(!new)>(e: Episode<S>)
    requires TextsSafe(e)
    ensures LineSafe(Obj(map["ok" := Bool(true), "payload_template" := Obj(e.setup.required)]))
    ensures LineSafe(Obj(map["ok" := Bool(true), "template" := Str(e.setup.template)]))
    ensures LineSafe(Obj(map["ok" := Bool(true), "message" := Str("advanced virtual time by " + IntText(e.blocked) + " steps")]))
    ensures LineSafe(Obj(map["ok" := Bool(true)])) && LineSafe(Null)
  {
    ResultWords();
    NumberSafe(e.blocked);
    JoinSafe("advanced virtual time by ", IntText(e.blocked));
    JoinSafe("advanced virtual time by " + IntText(e.blocked), " steps");
    hide OneLine, Phrase.Extract, IntText;
    StrSafe("advanced virtual time by " + IntText(e.blocked) + " steps");
    StrSafe(e.setup.template);
    assert LineSafe(Bool(true));
    PairSafe("ok", Bool(true), "payload_template", Obj(e.setup.required));
    PairSafe("ok", Bool(true), "template", Str(e.setup.template));
    PairSafe("ok", Bool(true), "message", Str("advanced virtual time by " + IntText(e.blocked) + " steps"));
  }

  // A setup of safe texts with a clean service makes a safe episode.
  lemma CleanSafe<S(!new)>(e: Episode<S>, inv: S -> bool)
    requires TextsSafe(e) && Clean(e, inv)
    ensures EpisodeSafe(e)
  {
    hide LineSafe, TextsSafe, Clean, ResultOf, Played;
    forall stage | Reached(e, stage) ensures StageSafe(e, stage) {
      PlayedSafe(e, stage);
      ResultSafe(e, stage, inv);
    }
  }

  lemma ResultSafe<S(!new)>(e: Episode<S>, stage: Stage, inv: S -> bool)
    requires TextsSafe(e) && Clean(e, inv)
    ensures LineSafe(ResultOf(e, stage))
  {
    GivenSafe(e);
    if stage != Granted { LastSafe(e, Next(e, stage), inv); }
    hide LineSafe, TextsSafe, Clean, LastResult, Next;
  }

  lemma LastSafe<S(!new)>(e: Episode<S>, stage: Stage, inv: S -> bool)
    requires TextsSafe(e) && Clean(e, inv)
    ensures LineSafe(LastResult(e, stage))
  {
    GivenSafe(e);
    RepliesSafe(e, inv);
    hide LineSafe, TextsSafe, Clean, Given, IntText, Phrase.Extract, Episode.ShakeCall, Episode.CommitCall, Episode.AskToken,
         Episode.Committed, Episode.Waited, Episode.Recovered;
  }

  // ---- the two services ---------------------------------------------------------------------------

  lemma ReplyWords()
    ensures OneLine("ok") && OneLine("error") && OneLine("message") && OneLine("retry_after") && OneLine("data") && OneLine("token")
    ensures OneLine("handshake_id") && OneLine("expires_at_step") && OneLine("handshake_confirmed") && OneLine("hs-")
  {
  }

  lemma ErrorWords()
    ensures OneLine("invalid_handshake") && OneLine("handshake_expired") && OneLine("wrong_phrase") && OneLine("handshake_required")
    ensures OneLine("bad_request") && OneLine("rate_limited") && OneLine("temporary_failure") && OneLine("not_found")
  {
  }

  lemma ChainMessages()
    ensures OneLine("payload required") && OneLine("unknown handshake_id") && OneLine("request a new handshake")
    ensures OneLine("complete handshake first") && OneLine("stale handshake") && OneLine("unknown endpoint")
  {
  }

  lemma ChainSentences()
    ensures OneLine("response does not match template") && OneLine("payload missing " + "required fields or values")
  {
    assert OneLine("payload missing ") && OneLine("required fields or values");
    JoinSafe("payload missing ", "required fields or values");
  }

  lemma ChainWaits()
    ensures OneLine("Respect retry window " + "before calling /token again") && OneLine("Chain service hiccup. " + "Retry immediately.")
  {
    assert OneLine("Respect retry window ") && OneLine("before calling /token again");
    assert OneLine("Chain service hiccup. ") && OneLine("Retry immediately.");
    JoinSafe("Respect retry window ", "before calling /token again");
    JoinSafe("Chain service hiccup. ", "Retry immediately.");
    hide OneLine;
  }

  lemma RateMessages()
    ensures OneLine("Respect retry window") && OneLine("Server hiccup, retry immediately")
  {
  }

  // What both services hand out: an id, a confirmation, the token.
  lemma GoodReplies(now: int, secret: string)
    requires OneLine(secret)
    ensures LineSafe(Str("hs-" + IntText(now))) && LineSafe(Str("handshake_confirmed"))
    ensures LineSafe(Obj(map["token" := Str(secret)]))
  {
    ReplyWords();
    NumberSafe(now);
    JoinSafe("hs-", IntText(now));
    hide OneLine, IntText;
    StrSafe("hs-" + IntText(now));
    StrSafe("handshake_confirmed");
    StrSafe(secret);
    PairSafe("token", Str(secret), "token", Str(secret));
  }

  lemma ChainBad(error: string, message: string)
    requires OneLine(error) && OneLine(message)
    ensures LineSafe(ChainService.Bad(error, message))
  {
    ReplyWords();
    hide OneLine;
    StrSafe(error);
    StrSafe(message);
    FourSafe("ok", Bool(false), "error", Str(error), "message", Str(message), "ok", Bool(false));
  }

  lemma ChainHands(now: int, expires: int, secret: string)
    requires OneLine(secret)
    ensures LineSafe(ChainService.Good(map["handshake_id" := Str("hs-" + IntText(now)), "expires_at_step" := Int(expires)]))
    ensures LineSafe(ChainService.Good(map["message" := Str("handshake_confirmed")])) && LineSafe(ChainService.Granted(secret))
  {
    ReplyWords();
    GoodReplies(now, secret);
    hide OneLine, IntText;
    var id, data := Str("hs-" + IntText(now)), Obj(map["token" := Str(secret)]);
    assert LineSafe(Bool(true)) && LineSafe(Int(expires));
    FourSafe("ok", Bool(true), "handshake_id", id, "expires_at_step", Int(expires), "ok", Bool(true));
    assert map["ok" := Bool(true)] + map["handshake_id" := id, "expires_at_step" := Int(expires)]
           == map["ok" := Bool(true), "handshake_id" := id, "expires_at_step" := Int(expires)];
    PairSafe("ok", Bool(true), "message", Str("handshake_confirmed"));
    assert map["ok" := Bool(true)] + map["message" := Str("handshake_confirmed")]
           == map["ok" := Bool(true), "message" := Str("handshake_confirmed")];
    PairSafe("ok", Bool(true), "data", data);
    assert map["ok" := Bool(true)] + map["data" := data] == map["ok" := Bool(true), "data" := data];
  }

  lemma ChainLimited(wait: int)
    ensures LineSafe(ChainService.Limited(wait)) && LineSafe(ChainService.Hiccup())
  {
    ReplyWords();
    ErrorWords();
    ChainWaits();
    hide OneLine;
    var respect := "Respect retry window " + "before calling /token again";
    ChainBad("rate_limited", respect);
    ChainBad("temporary_failure", "Chain service hiccup. " + "Retry immediately.");
    assert LineSafe(Int(wait));
    hide ChainService.Bad;
    PutSafe(ChainService.Bad("rate_limited", respect), "retry_after", Int(wait));
  }

  lemma ChainRefuses()
    ensures LineSafe(ChainService.HandshakeFirst()) && LineSafe(ChainService.BadRequest()) && LineSafe(ChainService.Stale())
    ensures LineSafe(ChainService.Bad("invalid_handshake", "payload required"))
    ensures LineSafe(ChainService.Bad("invalid_handshake", "unknown handshake_id"))
    ensures LineSafe(ChainService.Bad("handshake_expired", "request a new handshake"))
    ensures LineSafe(ChainService.Bad("wrong_phrase", "response does not match template"))
    ensures LineSafe(ChainService.Bad("not_found", "unknown endpoint"))
  {
    ErrorWords();
    ChainMessages();
    ChainSentences();
    hide OneLine, LineSafe, ChainService.Bad;
    ChainBad("handshake_required", "complete handshake first");
    ChainBad("bad_request", "payload missing " + "required fields or values");
    ChainBad("invalid_handshake", "stale handshake");
    ChainBad("invalid_handshake", "payload required");
    ChainBad("invalid_handshake", "unknown handshake_id");
    ChainBad("handshake_expired", "request a new handshake");
    ChainBad("wrong_phrase", "response does not match template");
    ChainBad("not_found", "unknown endpoint");
  }

  // A transition that keeps the secret and answers without line separators.
  predicate CleanTurn(s: ChainService.Chain, r: (ChainService.Chain, Json))
  {
    r.0.secret == s.secret && LineSafe(r.1)
  }

  lemma ChainCommits(s: ChainService.Chain, payload: Json)
    requires OneLine(s.secret)
    ensures CleanTurn(s, ChainService.Commit(s, payload))
  {
    hide OneLine, LineSafe, ChainService.Bad, ChainService.Good, ChainService.Expected, IntText;
    ChainRefuses();
    assert LineSafe(ChainService.Good(map["message" := Str("handshake_confirmed")])) by { ChainHands(s.now, s.now + s.window, s.secret); }
  }

  lemma ChainTokens(s: ChainService.Chain, payload: Json)
    requires OneLine(s.secret)
    ensures CleanTurn(s, ChainService.Token(s, payload))
  {
    hide LineSafe, OneLine;
    assert LineSafe(ChainService.HandshakeFirst()) && LineSafe(ChainService.BadRequest()) && LineSafe(ChainService.Stale()) by {
      ChainRefuses();
    }
    assert LineSafe(ChainService.Granted(s.secret)) by { ChainHands(s.now, s.now + s.window, s.secret); }
    ChainLimited(s.blockedUntil - s.now);
    hide ChainService.PayloadValid, ChainService.HandshakeFirst, ChainService.BadRequest, ChainService.Stale,
         ChainService.Limited, ChainService.Hiccup, ChainService.Granted;
  }

  // Whatever it is asked, the chain service answers without line separators.
  lemma ChainAnswers(s: ChainService.Chain, endpoint: Json, payload: Json)
    requires OneLine(s.secret)
    ensures CleanTurn(s, ChainService.Answer(s, endpoint, payload))
  {
    hide OneLine, LineSafe, IntText, ChainService.Bad, ChainService.Good, ChainService.Commit, ChainService.Token;
    assert LineSafe(ChainService.Bad("not_found", "unknown endpoint")) by { ChainRefuses(); }
    assert LineSafe(ChainService.Handshake(s).1) by { ChainHands(s.now, s.now + s.window, s.secret); }
    ChainCommits(s, payload);
    ChainTokens(s, payload);
  }

  lemma ChainClean(e: Episode<ChainService.Chain>)
    requires e.sv == ChainRuns.CHAIN_SERVICE && e.start.secret == e.setup.secret && TextsSafe(e)
    ensures EpisodeSafe(e)
  {
    var inv := (s: ChainService.Chain) => s.secret == e.setup.secret;
    hide LineSafe, OneLine, ChainService.Answer, Phrase.Extract, EpisodeSafe;
    forall s: ChainService.Chain, endpoint: Json, payload: Json | inv(s) ensures Answered(e.sv.call(s, endpoint, payload), inv) {
      ChainAnswers(s, endpoint, payload);
    }
    CleanSafe(e, inv);
  }

  lemma RateBad(error: string)
    requires OneLine(error)
    ensures LineSafe(RateService.Bad(error))
  {
    ReplyWords();
    hide OneLine;
    StrSafe(error);
    PairSafe("ok", Bool(false), "error", Str(error));
  }

  lemma RateHands(now: int, secret: string)
    requires OneLine(secret)
    ensures LineSafe(Obj(map["ok" := Bool(true), "handshake_id" := Str("hs-" + IntText(now))]))
    ensures LineSafe(Obj(map["ok" := Bool(true), "message" := Str("handshake_confirmed")]))
    ensures LineSafe(Obj(map["ok" := Bool(true), "data" := Obj(map["token" := Str(secret)])]))
  {
    ReplyWords();
    GoodReplies(now, secret);
    assert LineSafe(Bool(true));
    hide OneLine, LineSafe, IntText;
    PairSafe("ok", Bool(true), "handshake_id", Str("hs-" + IntText(now)));
    PairSafe("ok", Bool(true), "message", Str("handshake_confirmed"));
    PairSafe("ok", Bool(true), "data", Obj(map["token" := Str(secret)]));
  }

  lemma RateLimited(wait: int)
    ensures LineSafe(RateService.Bad("rate_limited").Put("retry_after", Int(wait)).Put("message", Str("Respect retry window")))
    ensures LineSafe(RateService.Bad("temporary_failure").Put("message", Str("Server hiccup, retry immediately")))
  {
    ReplyWords();
    ErrorWords();
    RateMessages();
    hide OneLine;
    RateBad("rate_limited");
    RateBad("temporary_failure");
    StrSafe("Respect retry window");
    StrSafe("Server hiccup, retry immediately");
    assert LineSafe(Int(wait));
    hide RateService.Bad, LineSafe;
    PutSafe(RateService.Bad("rate_limited"), "retry_after", Int(wait));
    PutSafe(RateService.Bad("rate_limited").Put("retry_after", Int(wait)), "message", Str("Respect retry window"));
    PutSafe(RateService.Bad("temporary_failure"), "message", Str("Server hiccup, retry immediately"));
  }

  lemma RateRefuses()
    ensures LineSafe(RateService.Bad("invalid_handshake")) && LineSafe(RateService.Bad("wrong_phrase"))
    ensures LineSafe(RateService.Bad("handshake_required")) && LineSafe(RateService.Bad("bad_request"))
    ensures LineSafe(RateService.Bad("not_found")) && LineSafe(Null)
  {
    ErrorWords();
    assert LineSafe(Null);
    hide OneLine, LineSafe, RateService.Bad;
    RateBad("invalid_handshake");
    RateBad("wrong_phrase");
    RateBad("handshake_required");
    RateBad("bad_request");
    RateBad("not_found");
  }

  predicate CleanReply(s: RateService.Rate, r: (RateService.Rate, Option<Json>))
  {
    r.0.secret == s.secret && LineSafe(Given(r.1))
  }

  lemma RateCommits(s: RateService.Rate, payload: Json)
    requires OneLine(s.secret)
    ensures CleanReply(s, RateService.Commit(s, payload))
  {
    hide OneLine, LineSafe, Replace, RateService.Bad;
    RateRefuses();
    assert LineSafe(Obj(map["ok" := Bool(true), "message" := Str("handshake_confirmed")])) by { RateHands(s.now, s.secret); }
  }

  lemma RateTokens(s: RateService.Rate, payload: Json)
    requires OneLine(s.secret)
    ensures CleanReply(s, RateService.Token(s, payload))
  {
    hide OneLine, LineSafe, RateService.Bad, RateService.PayloadValid;
    assert LineSafe(RateService.Bad("handshake_required")) && LineSafe(RateService.Bad("bad_request")) by { RateRefuses(); }
    assert LineSafe(Obj(map["ok" := Bool(true), "data" := Obj(map["token" := Str(s.secret)])])) by { RateHands(s.now, s.secret); }
    RateLimited(s.blockedUntil - s.now);
  }

  // So does the rate service.
  lemma RateAnswers(s: RateService.Rate, endpoint: Json, payload: Json)
    requires OneLine(s.secret)
    ensures CleanReply(s, RateService.Answer(s, endpoint, payload))
  {
    hide OneLine, LineSafe, IntText, RateService.Bad, RateService.Commit, RateService.Token;
    assert LineSafe(RateService.Bad("not_found")) by { RateRefuses(); }
    assert LineSafe(Given(RateService.Handshake(s).1)) by { RateHands(s.now, s.secret); }
    RateCommits(s, payload);
    RateTokens(s, payload);
  }

  lemma RateClean(e: Episode<RateService.Rate>)
    requires e.sv == ChainRuns.RATE_SERVICE && e.start.secret == e.setup.secret && TextsSafe(e)
    ensures EpisodeSafe(e)
  {
    var inv := (s: RateService.Rate) => s.secret == e.setup.secret;
    hide LineSafe, OneLine, Given, RateService.Answer, Phrase.Extract, EpisodeSafe;
    forall s: RateService.Rate, endpoint: Json, payload: Json | inv(s) ensures Answered(e.sv.call(s, endpoint, payload), inv) {
      RateAnswers(s, endpoint, payload);
    }
    CleanSafe(e, inv);
  }
}
