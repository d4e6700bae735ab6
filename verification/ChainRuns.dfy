// The two handshake tasks with their real services: ChainAgent succeeds after an exact
// number of steps.
module ChainRuns {
  import opened Values
  import opened Text
  import opened EnvSpec
  import opened RunnerSpec
  import opened RunnerLaws
  import opened ChainAgent
  import opened Scripts
  import opened HandshakeTask
  import opened HandshakeRun
  import opened HandshakeSafety
  import Paths
  import Phrase
  import ChainService
  import RateService

  // The services hand out this id at their first moment.
  lemma FirstId()
    ensures "hs-" + IntText(0) == "hs-0" && Phrase.ServiceId("hs-0")
  {
    assert NatText(0) == "0";
  }

  // ---- rate_limited_chain ----------------------------------------------------------------

  function ChainCall(s: ChainService.Chain, endpoint: Json, payload: Json): (ChainService.Chain, Option<Json>)
  {
    var r := ChainService.Answer(s, endpoint, payload);
    (r.0, Some(r.1))
  }

  function ChainAdvance(s: ChainService.Chain, steps: int): ChainService.Chain
  {
    if steps >= 0 then s.(now := s.now + steps) else s
  }

  const CHAIN_SERVICE: Service<ChainService.Chain> :=
    Service(ChainCall, ChainAdvance, ChainService.Status, (s: ChainService.Chain) => s.confirmed)

  const CHAIN_KEYS := Keys(
    "rate_limited_chain_service", "rate_limited_chain_required_payload",
    "rate_limited_chain_handshake_template", "rate_limited_chain_secret", "/app/CHAIN_README.md")

  // tasks/rate_limited_chain/validate.py
  function ChainJudge(s: ChainService.Chain, secret: Json, service: Json, output: Json): Json
  {
    if !service.Truthy() then Obj(map["ok" := Bool(false), "error" := Str("service_missing")])
    else if !s.confirmed then Fail("handshake_missing", "handshake never confirmed")
    else if !output.Truthy() then Obj(map["ok" := Bool(false), "error" := Str("missing_output")])
    else if output != secret then Obj(map["ok" := Bool(false), "error" := Str("wrong_secret")])
    else Obj(map["ok" := Bool(true)])
  }

  function ChainEpisode(secret: string, required: map<string, Json>, code: string, instructions: string,
                        blockedUntil: int, window: int, transient: bool, loads: string -> Option<Json>): Episode<ChainService.Chain>
  {
    Episode(CHAIN_SERVICE,
            Setup(CHAIN_KEYS, secret, required, Phrase.Instruction(Phrase.CHAIN, code), instructions),
            ChainJudge, loads,
            ChainService.Fresh(secret, required, code, blockedUntil, window, transient),
            blockedUntil, transient)
  }

  // A run by a script that ends with success does so exactly within both budgets.
  lemma ScriptSucceeds<S(!new)>(e: Episode<S>, t: Task, clock: int -> string, n: nat)
    requires EndsByScript(e, t, clock, n) && t.maxSteps >= 0 && t.maxCalls >= 0
    ensures Succeeds(e, t, clock) <==> t.maxSteps >= n && t.maxCalls >= n
  {
    hide RunTask, EpisodeOracles, Rules, Balanced, AuditsPermitted, EpisodeSafe;
    RunLawful(EpisodeOracles(e), t, clock, World(BLANK, e.start));
  }

  lemma ChainShakes(s: ChainService.Chain)
    requires s.now == 0
    ensures ChainCall(s, Str("/handshake"), Null).0 == s.(id := Some("hs-0"), expires := Some(s.window), confirmed := false)
    ensures var r := ChainCall(s, Str("/handshake"), Null).1;
            r.Some? && r.value.Obj? && r.value.Get("ok") == Bool(true) && r.value.Get("handshake_id") == Str("hs-0")
  {
    FirstId();
    hide IntText;
  }

  lemma ChainCommits(s: ChainService.Chain, response: string)
    requires s.id == Some("hs-0") && s.expires.Some? && s.now <= s.expires.value
    requires response == Phrase.ChainExpects("hs-0", s.code)
    ensures var r := ChainCall(s, Str("/handshake_commit"), Obj(map["handshake_id" := Str("hs-0"), "response" := Str(response)]));
            r.0 == s.(confirmed := true) && r.1.Some? && r.1.value.Obj? && r.1.value.Get("ok") == Bool(true)
  {
    hide Phrase.ChainExpects;
    var payload := Obj(map["handshake_id" := Str("hs-0"), "response" := Str(response)]);
    assert payload.fields["response"] == Str(response);
    assert ChainService.Commit(s, payload).0 == s.(confirmed := true);
  }

  // A token request that gets past the handshake and payload checks.
  predicate Presentable(s: ChainService.Chain, payload: Json)
  {
    s.confirmed && ChainService.PayloadValid(s.required, payload) && payload.Get("handshake_id") == OptStr(s.id)
  }

  lemma ChainLimits(s: ChainService.Chain, payload: Json)
    requires Presentable(s, payload) && s.now < s.blockedUntil
    ensures var r := ChainCall(s, Str("/token"), payload);
            && r.0 == s.(tokenCalls := s.tokenCalls + 1, rateHits := s.rateHits + 1)
            && r.1.Some? && r.1.value.Obj?
            && r.1.value.Get("ok") == Bool(false) && r.1.value.Get("error") == Str("rate_limited")
            && r.1.value.Get("retry_after") == Int(s.blockedUntil - s.now)
  {
    hide ChainService.PayloadValid, ChainService.Good;
  }

  lemma ChainFailsOnce(s: ChainService.Chain, payload: Json)
    requires Presentable(s, payload) && s.now >= s.blockedUntil && s.transient
    ensures var r := ChainCall(s, Str("/token"), payload);
            && r.0 == s.(tokenCalls := s.tokenCalls + 1, transient := false)
            && r.1.Some? && r.1.value.Obj?
            && r.1.value.Get("ok") == Bool(false) && r.1.value.Get("error") == Str("temporary_failure")
  {
    hide ChainService.PayloadValid, ChainService.Good;
  }

  lemma ChainGrants(s: ChainService.Chain, payload: Json)
    requires Presentable(s, payload) && s.now >= s.blockedUntil && !s.transient
    ensures var r := ChainCall(s, Str("/token"), payload);
            && r.0 == s.(tokenCalls := s.tokenCalls + 1)
            && r.1.Some? && r.1.value.Obj? && r.1.value.Get("ok") == Bool(true)
            && r.1.value.Get("data").Obj? && r.1.value.Get("data").Get("token") == Str(s.secret)
  {
    hide ChainService.PayloadValid, ChainService.Bad;
  }

  lemma RequiredValid(required: map<string, Json>, id: string)
    requires "handshake_id" !in required
    ensures ChainService.PayloadValid(required, Obj(required["handshake_id" := Str(id)]))
    ensures Obj(required["handshake_id" := Str(id)]).Get("handshake_id") == Str(id)
  {
  }

  // The agent's handshake and commit succeed.
  lemma ChainOpens(e: Episode<ChainService.Chain>, code: string)
    requires e.sv == CHAIN_SERVICE && e.start.now == 0 && e.start.window >= 0 && e.start.code == code
    requires Phrase.Extract(e.setup.template, "hs-0") == Phrase.ChainExpects("hs-0", code)
    ensures e.Answers(e.ShakeCall().1) && e.ShakeCall().1.value.Get("ok").Truthy()
    ensures e.ShakeCall().1.value.Get("handshake_id") == Str("hs-0")
    ensures e.Answers(e.CommitCall().1) && e.CommitCall().1.value.Get("ok").Truthy()
    ensures e.Committed() == e.start.(id := Some("hs-0"), expires := Some(e.start.window), confirmed := true)
  {
    hide Phrase.Extract, Phrase.ChainExpects, ChainCall;
    ChainShakes(e.start);
    ChainCommits(e.ShakeCall().0, Phrase.ChainExpects("hs-0", code));
  }

  // From the commit on, the service is in a state of its own making that differs from the
  // committed one in time, counters and the pending failure only.
  predicate Later(s: ChainService.Chain, committed: ChainService.Chain)
  {
    s == committed.(now := s.now, tokenCalls := s.tokenCalls, rateHits := s.rateHits, transient := s.transient)
  }

  lemma ChainCloses(e: Episode<ChainService.Chain>)
    requires e.sv == CHAIN_SERVICE && e.setup.secret == e.Committed().secret
    requires Presentable(e.Committed(), e.TokenPayload())
    requires e.Committed().now == 0 && e.Committed().blockedUntil == e.blocked >= 0 && e.Committed().transient == e.hiccup
    ensures e.blocked > 0 ==>
      e.Refuses(e.AskToken(e.Committed()).1, "rate_limited") && e.AskToken(e.Committed()).1.value.Get("retry_after") == Int(e.blocked)
    ensures e.hiccup ==> e.Refuses(e.AskToken(e.Waited()).1, "temporary_failure")
    ensures var granted := e.AskToken(e.Recovered());
            && e.Answers(granted.1) && granted.1.value.Get("ok").Truthy() && granted.1.value.Get("data").Obj?
            && granted.1.value.Get("data").Get("token") == Str(e.setup.secret) && granted.0.confirmed
  {
    hide ChainCall, ChainService.PayloadValid, Episode.TokenPayload, Episode.CommitCall;
    var s := e.Committed();
    if e.blocked > 0 { ChainLimits(s, e.TokenPayload()); }
    assert Later(e.Waited(), s) && e.Waited().now >= e.blocked && e.Waited().transient == e.hiccup;
    if e.hiccup { ChainFailsOnce(e.Waited(), e.TokenPayload()); }
    assert Later(e.Recovered(), s) && e.Recovered().now >= e.blocked && !e.Recovered().transient;
    ChainGrants(e.Recovered(), e.TokenPayload());
  }

  // The chain service cooperates with the agent when the agent reads the phrase it expects.
  lemma ChainCooperates(secret: string, required: map<string, Json>, code: string, instructions: string,
                        blockedUntil: int, window: int, transient: bool, loads: string -> Option<Json>)
    requires blockedUntil >= 0 && window >= 0 && "handshake_id" !in required
    requires Phrase.SurvivesStrip(code) && !Contains(code, Phrase.PLACEHOLDER)
    ensures ChainEpisode(secret, required, code, instructions, blockedUntil, window, transient, loads).Cooperates()
  {
    FirstId();
    Phrase.ChainPhrase(code, "hs-0");
    hide Phrase.Extract, Phrase.Instruction, Phrase.ChainExpects, Contains, Phrase.SurvivesStrip, Episode.Cooperates;
    ChainFits(ChainEpisode(secret, required, code, instructions, blockedUntil, window, transient, loads), code);
  }

  // The same for any episode on the chain service whose parts belong together.
  lemma ChainFits(e: Episode<ChainService.Chain>, code: string)
    requires e.sv == CHAIN_SERVICE && e.start.now == 0 && e.start.window >= 0 && e.start.code == code
    requires e.start.secret == e.setup.secret && e.start.required == e.setup.required && "handshake_id" !in e.setup.required
    requires e.start.blockedUntil == e.blocked >= 0 && e.start.transient == e.hiccup
    requires Phrase.Extract(e.setup.template, "hs-0") == Phrase.ChainExpects("hs-0", code)
    ensures e.Cooperates()
  {
    hide Phrase.Extract, ChainCall, ChainService.PayloadValid, Phrase.ChainExpects,
         Episode.AskToken, Episode.CommitCall, Episode.ShakeCall, Episode.Refuses, Episode.Answers, Episode.Waited, Episode.Recovered;
    ChainOpens(e, code);
    ChainPresents(e);
    ChainCloses(e);
  }

  // After the commit the token request gets past the handshake and payload checks.
  lemma ChainPresents(e: Episode<ChainService.Chain>)
    requires e.start.required == e.setup.required && "handshake_id" !in e.setup.required
    requires e.Committed() == e.start.(id := Some("hs-0"), expires := Some(e.start.window), confirmed := true)
    ensures Presentable(e.Committed(), e.TokenPayload())
  {
    hide ChainService.PayloadValid, Episode.CommitCall;
    RequiredValid(e.setup.required, "hs-0");
  }

  lemma ChainJudges(e: Episode<ChainService.Chain>)
    requires e.judge == ChainJudge && e.sv == CHAIN_SERVICE && e.setup.secret != ""
    ensures e.JudgesOutput()
  {
  }

  lemma ChainKeysDiffer()
    ensures |CHAIN_KEYS.service| == 26 && |CHAIN_KEYS.payload| == 35 && |CHAIN_KEYS.template| == 37 && |CHAIN_KEYS.secret| == 25
  {
  }

  lemma InstructionNonEmpty(t: Phrase.Template, code: string)
    ensures Phrase.Instruction(t, code) != ""
  {
    assert |Phrase.Instruction(t, code)| >= |Phrase.MARKER|;
  }

  lemma ChainReady(secret: string, required: map<string, Json>, code: string, instructions: string,
                   blockedUntil: int, window: int, transient: bool, loads: string -> Option<Json>)
    requires secret != "" && required != map[] && "handshake_id" !in required
    requires Phrase.SurvivesStrip(code) && !Contains(code, Phrase.PLACEHOLDER)
    ensures ChainEpisode(secret, required, code, instructions, blockedUntil, window, transient, loads).Ready()
  {
    FirstId();
    Phrase.ChainPhrase(code, "hs-0");
    InstructionNonEmpty(Phrase.CHAIN, code);
    ExpectsNonEmpty(code);
    hide Phrase.Extract, Phrase.Instruction, Phrase.ChainExpects, Contains, Phrase.SurvivesStrip, Episode.KeysDiffer;
    var e := ChainEpisode(secret, required, code, instructions, blockedUntil, window, transient, loads);
    assert e.KeysDiffer() by { ChainKeys(e); }
  }

  lemma ExpectsNonEmpty(code: string)
    ensures Phrase.ChainExpects("hs-0", code) != ""
  {
  }

  lemma ChainKeys(e: Episode<ChainService.Chain>)
    requires e.setup.keys == CHAIN_KEYS
    ensures e.KeysDiffer()
  {
    ChainKeysDiffer();
  }

  // ChainAgent on the chain task, for every secret, payload, rate limit, window and code the
  // agent can read: success after exactly 6 steps, 2 more under a rate limit and 1 more with
  // a temporary failure, when both budgets reach that; else the smaller budget ends the run.
  lemma ChainRun(secret: string, required: map<string, Json>, code: string, instructions: string,
                 blockedUntil: int, window: int, transient: bool, loads: string -> Option<Json>, t: Task, clock: int -> string)
    requires secret != "" && required != map[] && "handshake_id" !in required
    requires Phrase.SurvivesStrip(code) && !Contains(code, Phrase.PLACEHOLDER)
    requires blockedUntil >= 0 && window >= 0
    requires t.schema == SCHEMA && Rules(t).Some? && Paths.Admit(Rules(t).value.roots, CHAIN_KEYS.readme).Ok?
    requires t.maxSteps >= 0 && t.maxCalls >= 0
    ensures var e := ChainEpisode(secret, required, code, instructions, blockedUntil, window, transient, loads);
            var n := Length(blockedUntil, transient);
            EndsByScript(e, t, clock, n) && (Succeeds(e, t, clock) <==> t.maxSteps >= n && t.maxCalls >= n)
  {
    hide Rules, Paths.Admit, Phrase.SurvivesStrip, Contains, Episode.Cooperates, Episode.Ready, Episode.JudgesOutput,
         Phrase.Instruction, EndsByScript, Succeeds;
    var e := ChainEpisode(secret, required, code, instructions, blockedUntil, window, transient, loads);
    ChainCooperates(secret, required, code, instructions, blockedUntil, window, transient, loads);
    ChainReady(secret, required, code, instructions, blockedUntil, window, transient, loads);
    ChainJudges(e);
    EpisodeRuns(e, t, clock);
    ScriptSucceeds(e, t, clock, Length(blockedUntil, transient));
  }

  // ---- codes the agent cannot read --------------------------------------------------------

  lemma IdsOfService(now: int)
    ensures Phrase.ServiceId("hs-" + IntText(now))
  {
    hide NatText;
    var id := "hs-" + IntText(now);
    if now < 0 {
      assert forall i | 4 <= i < |id| :: id[i] == NatText(-now)[i - 4];
    } else {
      assert forall i | 3 <= i < |id| :: id[i] == NatText(now)[i - 3];
    }
  }

  predicate ReadableByChain(code: string)
  {
    Phrase.SurvivesStrip(code) && !Contains(code, Phrase.PLACEHOLDER)
  }

  // The service has not confirmed, and expects a phrase made of this code.
  predicate ChainShut(code: string, s: ChainService.Chain)
  {
    !s.confirmed && s.code == code && (s.id.Some? ==> Phrase.ServiceId(s.id.value))
  }

  lemma ChainStaysShut(code: string, s: ChainService.Chain, endpoint: Json, payload: Json)
    requires !ReadableByChain(code) && ChainShut(code, s)
    requires endpoint == Str("/handshake_commit") ==> Reads(Phrase.Instruction(Phrase.CHAIN, code), payload)
    ensures ChainShut(code, ChainCall(s, endpoint, payload).0)
  {
    hide Phrase.Extract, Phrase.Instruction, Phrase.ChainExpects, Phrase.SurvivesStrip, Contains, IntText, Phrase.ServiceId,
         ChainService.PayloadValid, ChainService.Good, ChainService.Bad;
    IdsOfService(s.now);
    if endpoint == Str("/handshake_commit") && s.id.Some? {
      Phrase.ChainPhrase(code, s.id.value);
    }
  }

  lemma ChainJudgesConfirmed(s: ChainService.Chain, secret: Json, output: Json)
    requires !s.confirmed
    ensures !ChainJudge(s, secret, SERVICE_OBJECT, output).Get("ok").Truthy()
  {
  }

  lemma ChainStubborn(e: Episode<ChainService.Chain>, code: string)
    requires e.sv == CHAIN_SERVICE && e.judge == ChainJudge && e.setup.template == Phrase.Instruction(Phrase.CHAIN, code)
    requires !ReadableByChain(code) && ChainShut(code, e.start)
    ensures Stubborn(e, (s: ChainService.Chain) => ChainShut(code, s))
  {
    hide Phrase.Instruction, ReadableByChain, Reads, ChainCall, ChainJudge;
    forall s: ChainService.Chain, endpoint: Json, payload: Json
      | ChainShut(code, s) && (endpoint == Str("/handshake_commit") ==> Reads(e.setup.template, payload))
      ensures ChainShut(code, e.sv.call(s, endpoint, payload).0)
    {
      ChainStaysShut(code, s, endpoint, payload);
    }
    forall s: ChainService.Chain, output: Json | !e.sv.confirmed(s)
      ensures !e.judge(s, Str(e.setup.secret), SERVICE_OBJECT, output).Get("ok").Truthy()
    {
      ChainJudgesConfirmed(s, Str(e.setup.secret), output);
    }
  }

  lemma Readable(code: string)
    requires ReadableByChain(code)
    ensures Phrase.SurvivesStrip(code) && !Contains(code, Phrase.PLACEHOLDER)
  {
    hide Phrase.SurvivesStrip, Contains;
  }

  // For every code: a run on the chain task succeeds exactly when the agent can read the
  // code out of the template and both budgets reach the length of the run.
  lemma ChainSucceedsIff(secret: string, required: map<string, Json>, code: string, instructions: string,
                         blockedUntil: int, window: int, transient: bool, loads: string -> Option<Json>, t: Task, clock: int -> string)
    requires secret != "" && required != map[] && "handshake_id" !in required
    requires blockedUntil >= 0 && window >= 0
    requires t.schema == SCHEMA && Rules(t).Some? && Paths.Admit(Rules(t).value.roots, CHAIN_KEYS.readme).Ok?
    requires t.maxSteps >= 0 && t.maxCalls >= 0
    ensures var n := Length(blockedUntil, transient);
            Succeeds(ChainEpisode(secret, required, code, instructions, blockedUntil, window, transient, loads), t, clock) <==>
              ReadableByChain(code) && t.maxSteps >= n && t.maxCalls >= n
  {
    hide Succeeds, EndsByScript, ReadableByChain, Rules, Paths.Admit, Phrase.Instruction, Episode.KeysDiffer, Stubborn;
    var e := ChainEpisode(secret, required, code, instructions, blockedUntil, window, transient, loads);
    if ReadableByChain(code) {
      Readable(code);
      ChainRun(secret, required, code, instructions, blockedUntil, window, transient, loads, t, clock);
    } else {
      ChainKeys(e);
      ChainStubborn(e, code);
      NeverSucceeds(e, (s: ChainService.Chain) => ChainShut(code, s), t, clock);
    }
  }

  // ---- deterministic_rate_service ----------------------------------------------------------

  function RateAdvance(s: RateService.Rate, steps: int): RateService.Rate
  {
    if steps >= 0 then s.(now := s.now + steps) else s
  }

  const RATE_SERVICE: Service<RateService.Rate> :=
    Service(RateService.Answer, RateAdvance, RateService.Status, (s: RateService.Rate) => s.confirmed)

  const RATE_KEYS := Keys(
    "deterministic_rate_service_service", "deterministic_rate_service_payload",
    "deterministic_rate_service_handshake_template", "deterministic_rate_service_secret", "/app/DRS_README.md")

  // tasks/deterministic_rate_service/validate.py
  function RateJudge(s: RateService.Rate, secret: Json, service: Json, output: Json): Json
  {
    if !secret.Truthy() || output != secret then
      Obj(map["ok" := Bool(false), "message" := Str("incorrect or missing ACCESS_TOKEN")])
    else if service.Null? || !s.confirmed then
      Obj(map["ok" := Bool(false), "message" := Str("token not retrieved from deterministic service")])
    else Obj(map["ok" := Bool(true), "message" := Str("ACCESS_TOKEN retrieved from deterministic service")])
  }

  function RateEpisode(secret: string, required: map<string, Json>, code: string, instructions: string,
                       blockedUntil: int, transient: bool, loads: string -> Option<Json>): Episode<RateService.Rate>
  {
    Episode(RATE_SERVICE,
            Setup(RATE_KEYS, secret, required, Phrase.Instruction(Phrase.RATE, code), instructions),
            RateJudge, loads,
            RateService.Fresh(secret, required, Phrase.Wanted(Phrase.RATE.stem, code), blockedUntil, transient),
            blockedUntil, transient)
  }

  // Two states that differ in counters and recorded history only.
  predicate SameButCounts(a: RateService.Rate, b: RateService.Rate)
  {
    a == b.(tokenCalls := a.tokenCalls, rateHits := a.rateHits, history := a.history)
  }

  lemma RateShakes(s: RateService.Rate)
    requires s.now == 0
    ensures var r := RateService.Answer(s, Str("/handshake"), Null);
            && SameButCounts(r.0, s.(id := Some("hs-0"), confirmed := false))
            && r.1.Some? && r.1.value.Obj? && r.1.value.Get("ok") == Bool(true) && r.1.value.Get("handshake_id") == Str("hs-0")
  {
    FirstId();
    hide IntText;
  }

  lemma RateCommits(s: RateService.Rate, response: string)
    requires s.id == Some("hs-0") && response == Replace(s.phrase, Phrase.PLACEHOLDER, "hs-0")
    ensures var r := RateService.Answer(s, Str("/handshake_commit"), Obj(map["handshake_id" := Str("hs-0"), "response" := Str(response)]));
            && SameButCounts(r.0, s.(confirmed := true))
            && r.1.Some? && r.1.value.Obj? && r.1.value.Get("ok") == Bool(true)
  {
    hide Replace;
    var payload := Obj(map["handshake_id" := Str("hs-0"), "response" := Str(response)]);
    assert payload.fields["response"] == Str(response);
    assert RateService.Commit(s, payload).0 == s.(confirmed := true);
  }

  lemma RateLimits(s: RateService.Rate, payload: Json)
    requires s.confirmed && RateService.PayloadValid(s, payload) && s.now < s.blockedUntil
    ensures var r := RateService.Answer(s, Str("/token"), payload);
            && SameButCounts(r.0, s)
            && r.1.Some? && r.1.value.Obj?
            && r.1.value.Get("ok") == Bool(false) && r.1.value.Get("error") == Str("rate_limited")
            && r.1.value.Get("retry_after") == Int(s.blockedUntil - s.now)
  {
  }

  lemma RateFailsOnce(s: RateService.Rate, payload: Json)
    requires s.confirmed && RateService.PayloadValid(s, payload) && s.now >= s.blockedUntil && s.transient
    ensures var r := RateService.Answer(s, Str("/token"), payload);
            && SameButCounts(r.0, s.(transient := false))
            && r.1.Some? && r.1.value.Obj?
            && r.1.value.Get("ok") == Bool(false) && r.1.value.Get("error") == Str("temporary_failure")
  {
  }

  lemma RateGrants(s: RateService.Rate, payload: Json)
    requires s.confirmed && RateService.PayloadValid(s, payload) && s.now >= s.blockedUntil && !s.transient
    ensures var r := RateService.Answer(s, Str("/token"), payload);
            && SameButCounts(r.0, s)
            && r.1.Some? && r.1.value.Obj? && r.1.value.Get("ok") == Bool(true)
            && r.1.value.Get("data").Obj? && r.1.value.Get("data").Get("token") == Str(s.secret)
  {
    hide RateService.Bad;
  }

  lemma RateOpens(e: Episode<RateService.Rate>)
    requires e.sv == RATE_SERVICE && e.start.now == 0
    requires Phrase.Extract(e.setup.template, "hs-0") == Replace(e.start.phrase, Phrase.PLACEHOLDER, "hs-0")
    ensures e.Answers(e.ShakeCall().1) && e.ShakeCall().1.value.Get("ok").Truthy()
    ensures e.ShakeCall().1.value.Get("handshake_id") == Str("hs-0")
    ensures e.Answers(e.CommitCall().1) && e.CommitCall().1.value.Get("ok").Truthy()
    ensures SameButCounts(e.Committed(), e.start.(id := Some("hs-0"), confirmed := true))
  {
    hide Phrase.Extract, Replace, RateService.Answer;
    RateShakes(e.start);
    RateCommits(e.ShakeCall().0, Replace(e.start.phrase, Phrase.PLACEHOLDER, "hs-0"));
  }

  lemma ValidCarries(a: RateService.Rate, b: RateService.Rate, payload: Json)
    requires RateService.PayloadValid(a, payload) && a.required == b.required && a.id == b.id
    ensures RateService.PayloadValid(b, payload)
  {
  }

  lemma RatePayload(s: RateService.Rate, id: string)
    requires "handshake_id" !in s.required && s.id == Some(id)
    ensures RateService.PayloadValid(s, Obj(s.required["handshake_id" := Str(id)]))
  {
  }

  lemma RateCloses(e: Episode<RateService.Rate>)
    requires e.sv == RATE_SERVICE && e.setup.secret == e.Committed().secret
    requires e.Committed().confirmed && RateService.PayloadValid(e.Committed(), e.TokenPayload())
    requires e.Committed().now == 0 && e.Committed().blockedUntil == e.blocked >= 0 && e.Committed().transient == e.hiccup
    ensures e.blocked > 0 ==>
      e.Refuses(e.AskToken(e.Committed()).1, "rate_limited") && e.AskToken(e.Committed()).1.value.Get("retry_after") == Int(e.blocked)
    ensures e.hiccup ==> e.Refuses(e.AskToken(e.Waited()).1, "temporary_failure")
    ensures var granted := e.AskToken(e.Recovered());
            && e.Answers(granted.1) && granted.1.value.Get("ok").Truthy() && granted.1.value.Get("data").Obj?
            && granted.1.value.Get("data").Get("token") == Str(e.setup.secret) && granted.0.confirmed
  {
    hide RateService.Answer, RateService.PayloadValid, Episode.TokenPayload, Episode.CommitCall;
    var s := e.Committed();
    if e.blocked > 0 { RateLimits(s, e.TokenPayload()); }
    assert SameButCounts(e.Waited(), s.(now := e.blocked));
    ValidCarries(s, e.Waited(), e.TokenPayload());
    if e.hiccup { RateFailsOnce(e.Waited(), e.TokenPayload()); }
    assert SameButCounts(e.Recovered(), s.(now := e.blocked, transient := false));
    ValidCarries(s, e.Recovered(), e.TokenPayload());
    RateGrants(e.Recovered(), e.TokenPayload());
  }

  lemma RateCooperates(secret: string, required: map<string, Json>, code: string, instructions: string,
                       blockedUntil: int, transient: bool, loads: string -> Option<Json>)
    requires blockedUntil >= 0 && "handshake_id" !in required && Phrase.SurvivesStrip(code)
    ensures RateEpisode(secret, required, code, instructions, blockedUntil, transient, loads).Cooperates()
  {
    FirstId();
    Phrase.RatePhrase(code, "hs-0");
    hide Phrase.Extract, Phrase.Instruction, Replace, Phrase.SurvivesStrip, Phrase.Wanted, Episode.Cooperates;
    RateFits(RateEpisode(secret, required, code, instructions, blockedUntil, transient, loads));
  }

  lemma RateFits(e: Episode<RateService.Rate>)
    requires e.sv == RATE_SERVICE && e.start.now == 0
    requires e.start.secret == e.setup.secret && e.start.required == e.setup.required && "handshake_id" !in e.setup.required
    requires e.start.blockedUntil == e.blocked >= 0 && e.start.transient == e.hiccup
    requires Phrase.Extract(e.setup.template, "hs-0") == Replace(e.start.phrase, Phrase.PLACEHOLDER, "hs-0")
    ensures e.Cooperates()
  {
    hide Phrase.Extract, RateService.Answer, RateService.PayloadValid, Replace,
         Episode.AskToken, Episode.CommitCall, Episode.ShakeCall, Episode.Refuses, Episode.Answers, Episode.Waited, Episode.Recovered;
    RateOpens(e);
    RatePayload(e.Committed(), "hs-0");
    RateCloses(e);
  }

  lemma RateJudges(e: Episode<RateService.Rate>)
    requires e.judge == RateJudge && e.sv == RATE_SERVICE && e.setup.secret != ""
    ensures e.JudgesOutput()
  {
  }

  lemma RateKeysDiffer()
    ensures |RATE_KEYS.service| == 34 && |RATE_KEYS.payload| == 34 && |RATE_KEYS.template| == 45 && |RATE_KEYS.secret| == 33
    ensures RATE_KEYS.service[27] != RATE_KEYS.payload[27]
  {
  }

  lemma RateKeys(e: Episode<RateService.Rate>)
    requires e.setup.keys == RATE_KEYS
    ensures e.KeysDiffer()
  {
    RateKeysDiffer();
  }

  lemma RateReady(secret: string, required: map<string, Json>, code: string, instructions: string,
                  blockedUntil: int, transient: bool, loads: string -> Option<Json>)
    requires secret != "" && required != map[] && "handshake_id" !in required && Phrase.SurvivesStrip(code)
    ensures RateEpisode(secret, required, code, instructions, blockedUntil, transient, loads).Ready()
  {
    RateExtracts(code);
    hide Phrase.Extract, Phrase.Instruction, Replace, Phrase.SurvivesStrip, Phrase.Wanted, Episode.KeysDiffer, RateService.Fresh;
    var e := RateEpisode(secret, required, code, instructions, blockedUntil, transient, loads);
    assert e.KeysDiffer() by { RateKeys(e); }
  }

  lemma RateExpectsNonEmpty(code: string)
    ensures Phrase.RateExpects("hs-0", code) != ""
  {
    hide Replace;
    Phrase.RatePlain();
    Phrase.WantedReplaced(Phrase.RATE.stem, code, "hs-0");
    assert |Phrase.RateExpects("hs-0", code)| >= 2;
  }

  lemma RateExtracts(code: string)
    requires Phrase.SurvivesStrip(code)
    ensures Phrase.Instruction(Phrase.RATE, code) != ""
    ensures Phrase.Extract(Phrase.Instruction(Phrase.RATE, code), "hs-0") != ""
  {
    hide Phrase.Extract, Phrase.Instruction, Replace, Phrase.SurvivesStrip, Phrase.RateExpects;
    FirstId();
    Phrase.RatePhrase(code, "hs-0");
    RateExpectsNonEmpty(code);
    InstructionNonEmpty(Phrase.RATE, code);
  }

  // The same agent on the deterministic rate service: the same count.
  lemma RateRun(secret: string, required: map<string, Json>, code: string, instructions: string,
                blockedUntil: int, transient: bool, loads: string -> Option<Json>, t: Task, clock: int -> string)
    requires secret != "" && required != map[] && "handshake_id" !in required
    requires Phrase.SurvivesStrip(code) && blockedUntil >= 0
    requires t.schema == SCHEMA && Rules(t).Some? && Paths.Admit(Rules(t).value.roots, RATE_KEYS.readme).Ok?
    requires t.maxSteps >= 0 && t.maxCalls >= 0
    ensures var e := RateEpisode(secret, required, code, instructions, blockedUntil, transient, loads);
            var n := Length(blockedUntil, transient);
            EndsByScript(e, t, clock, n) && (Succeeds(e, t, clock) <==> t.maxSteps >= n && t.maxCalls >= n)
  {
    hide Rules, Paths.Admit, Phrase.SurvivesStrip, Episode.Cooperates, Episode.Ready, Episode.JudgesOutput,
         Phrase.Instruction, Phrase.Wanted, EndsByScript, Succeeds;
    var e := RateEpisode(secret, required, code, instructions, blockedUntil, transient, loads);
    RateCooperates(secret, required, code, instructions, blockedUntil, transient, loads);
    RateReady(secret, required, code, instructions, blockedUntil, transient, loads);
    RateJudges(e);
    EpisodeRuns(e, t, clock);
    ScriptSucceeds(e, t, clock, Length(blockedUntil, transient));
  }

  predicate RateShut(code: string, s: RateService.Rate)
  {
    !s.confirmed && s.phrase == Phrase.Wanted(Phrase.RATE.stem, code) && (s.id.Some? ==> Phrase.ServiceId(s.id.value))
  }

  lemma RateStaysShut(code: string, s: RateService.Rate, endpoint: Json, payload: Json)
    requires !Phrase.SurvivesStrip(code) && RateShut(code, s)
    requires endpoint == Str("/handshake_commit") ==> Reads(Phrase.Instruction(Phrase.RATE, code), payload)
    ensures RateShut(code, RateService.Answer(s, endpoint, payload).0)
  {
    hide Phrase.Extract, Phrase.Instruction, Phrase.SurvivesStrip, IntText, Phrase.ServiceId, Replace, Phrase.Wanted,
         RateService.PayloadValid, RateService.Bad;
    IdsOfService(s.now);
    if endpoint == Str("/handshake_commit") && s.id.Some? {
      Phrase.RatePhrase(code, s.id.value);
    }
  }

  lemma RateJudgesConfirmed(s: RateService.Rate, secret: Json, output: Json)
    requires !s.confirmed
    ensures !RateJudge(s, secret, SERVICE_OBJECT, output).Get("ok").Truthy()
  {
  }

  lemma RateStubborn(e: Episode<RateService.Rate>, code: string)
    requires e.sv == RATE_SERVICE && e.judge == RateJudge && e.setup.template == Phrase.Instruction(Phrase.RATE, code)
    requires !Phrase.SurvivesStrip(code) && RateShut(code, e.start)
    ensures Stubborn(e, (s: RateService.Rate) => RateShut(code, s))
  {
    hide Phrase.Instruction, Phrase.SurvivesStrip, Reads, RateService.Answer, RateJudge;
    forall s: RateService.Rate, endpoint: Json, payload: Json
      | RateShut(code, s) && (endpoint == Str("/handshake_commit") ==> Reads(e.setup.template, payload))
      ensures RateShut(code, e.sv.call(s, endpoint, payload).0)
    {
      RateStaysShut(code, s, endpoint, payload);
    }
    forall s: RateService.Rate, output: Json | !e.sv.confirmed(s)
      ensures !e.judge(s, Str(e.setup.secret), SERVICE_OBJECT, output).Get("ok").Truthy()
    {
      RateJudgesConfirmed(s, Str(e.setup.secret), output);
    }
  }

  // The same for the deterministic rate service, which replaces placeholders in its code
  // just as the agent does.
  lemma RateSucceedsIff(secret: string, required: map<string, Json>, code: string, instructions: string,
                        blockedUntil: int, transient: bool, loads: string -> Option<Json>, t: Task, clock: int -> string)
    requires secret != "" && required != map[] && "handshake_id" !in required && blockedUntil >= 0
    requires t.schema == SCHEMA && Rules(t).Some? && Paths.Admit(Rules(t).value.roots, RATE_KEYS.readme).Ok?
    requires t.maxSteps >= 0 && t.maxCalls >= 0
    ensures var n := Length(blockedUntil, transient);
            Succeeds(RateEpisode(secret, required, code, instructions, blockedUntil, transient, loads), t, clock) <==>
              Phrase.SurvivesStrip(code) && t.maxSteps >= n && t.maxCalls >= n
  {
    hide Succeeds, EndsByScript, Rules, Paths.Admit, Phrase.SurvivesStrip, Phrase.Instruction, Episode.KeysDiffer, Stubborn, Phrase.Wanted;
    var e := RateEpisode(secret, required, code, instructions, blockedUntil, transient, loads);
    if Phrase.SurvivesStrip(code) {
      RateRun(secret, required, code, instructions, blockedUntil, transient, loads, t, clock);
    } else {
      RateKeys(e);
      RateStubborn(e, code);
      NeverSucceeds(e, (s: RateService.Rate) => RateShut(code, s), t, clock);
    }
  }
}
