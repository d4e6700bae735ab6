// The three tasks as they are shipped: with their own sandbox, budgets and setup values,
// every seed leads to a run that succeeds, verifies and replays.
module Shipped {
  import opened Values
  import opened Text
  import opened EnvSpec
  import opened RunnerSpec
  import opened RunnerLaws
  import opened Artifacts
  import opened Bundle
  import opened BundleLaws
  import opened Replay
  import opened ReplayLaws
  import opened SandboxLaws
  import Paths
  import Network
  import Phrase
  import Listings
  import ChainAgent
  import HandshakeTask
  import HandshakeRun
  import ChainService
  import ChainLaws
  import RateService
  import ChainRuns
  import LogStream
  import LogStreamRuns
  import LogStreamSetup
  import LineSafety
  import Scripts

  // ---- sandboxes --------------------------------------------------------------------------

  // Roots of a single component are left as they are.
  lemma SingleRoot(name: string)
    requires Paths.Kept(name) && name != ".." && '/' !in name
    ensures Paths.NormalizeRoot("/" + name) == Ok("/" + name)
  {
    assert Listings.Abs([name]) == "/" + name;
    assert Listings.Location([name]);
    Listings.KeyNormal([name]);
    assert ("/" + name)[|name|] in name;
  }

  lemma ShippedRoots()
    ensures Paths.NormalizeRoot("/app") == Ok("/app") && Paths.NormalizeRoot("/stream") == Ok("/stream")
  {
    hide Paths.NormalizeRoot;
    SingleRoot("app");
    SingleRoot("stream");
    assert "/" + "app" == "/app" && "/" + "stream" == "/stream";
  }

  lemma FixedSandbox(t: Task)
    requires t.roots == ["/app"] || t.roots == ["/stream", "/app"]
    ensures Rules(t).Some? && Rules(t).value.roots == t.roots && Paths.RootsCovered(t.roots)
  {
    hide Paths.NormalizeRoot, Paths.GuardRoots, Paths.RootsCovered, Network.Allowlist;
    ShippedRoots();
    assert Paths.FixedRoots(t.roots);
    Paths.FixedRootsCovered(t.roots);
  }

  lemma AppFile(name: string, roots: seq<string>)
    requires Paths.Kept(name) && name != ".." && '/' !in name && "/app" in roots
    ensures Paths.Admit(roots, "/app/" + name) == Ok("/app/" + name)
  {
    var parts := ["app", name];
    assert parts[1..] == [name];
    assert Join(parts, '/') == "app" + "/" + name;
    assert "/" + "app" + "/" == "/app/";
    assert "/" + ("app" + "/" + name) == "/" + "app" + "/" + name;
    assert Listings.Abs(parts) == "/app/" + name;
    Listings.KeyNormal(parts);
    var i :| 0 <= i < |roots| && roots[i] == "/app";
    assert "/app" + "/" == "/app/";
    assert ("/app/" + name)[..5] == "/app/";
    assert Paths.UnderRoot(roots[i], "/app/" + name);
  }

  // ---- verifying and replaying --------------------------------------------------------------

  // The run succeeds in n steps, and without line separators if the clock has none.
  ghost predicate Solves<W>(o: Oracles<W>, t: Task, clock: int -> string, state: W, n: nat)
  {
    var end := RunTask(o, t, clock, state);
    end.Finished? && end.art.success && end.art.stepsUsed == n && (Scripts.ClockSafe(clock) ==> TraceSafe(end.art.trace))
  }

  // What a maintainer expects of a run: it succeeds in n steps and n tool calls, its bundle
  // verifies, and a second run at another time replays it.
  ghost predicate Certified<W>(o: Oracles<W>, t: Task, state: W, n: nat, s1: Session, s2: Session, sha: Doc -> string, before: map<string, Doc>)
  {
    var one, two := RunTask(o, t, s1.clock, state), RunTask(o, t, s2.clock, state);
    && one.Finished? && two.Finished?
    && one.art.success && one.art.stepsUsed == one.art.callsUsed == |one.art.trace| == n
    && (var a, b := ArtifactJson(t, s1, one.art), ArtifactJson(t, s2, two.art);
        var files := Written(sha, before, a);
        Accepted(sha, files) && Comparable(a, files, b) && Replays(a, files, b))
  }

  // Under a shipped sandbox every successful run whose rows hold no line separator verifies
  // and is replayed by a second run.
  lemma SuccessCertified<W>(o: Oracles<W>, t: Task, state: W, n: nat, s1: Session, s2: Session, sha: Doc -> string, before: map<string, Doc>)
    requires t.roots == ["/app"] || t.roots == ["/stream", "/app"]
    requires t.hosts == [] && t.maxSteps >= 0 && t.maxCalls >= 0 && HexDigest(sha)
    requires Solves(o, t, s1.clock, state, n) && Scripts.ClockSafe(s1.clock)
    ensures Certified(o, t, state, n, s1, s2, sha, before)
  {
    hide RunTask, Rules, HexDigest, Accepted, Written, ArtifactJson, Paths.RootsCovered, Network.ExactNames, SandboxAgrees, Agrees,
         RunView, Comparable, Replays, Balanced, Classified, AuditsPermitted, TraceSafe, TraceAllowed, Scripts.ClockSafe;
    FixedSandbox(t);
    assert Network.ExactNames(Network.Allowlist(t.hosts)) by { NoHosts(); }
    ExactNamesAgree(t);
    AgreeingInside(o, t, s1.clock, state);
    RunLawful(o, t, s1.clock, state);
    SuccessCounts(t, Rules(t).value, RunTask(o, t, s1.clock, state));
    RerunReplays(o, t, s1, s2, state, sha, before);
    ReplaysMeans(o, t, s1, s2, state, sha, before);
  }

  // Both replays accept exactly when what was recorded is allowed.
  lemma ReplaysMeans<W>(o: Oracles<W>, t: Task, s1: Session, s2: Session, state: W, sha: Doc -> string, before: map<string, Doc>)
    requires HexDigest(sha) && RunTask(o, t, s1.clock, state).Finished? && RunTask(o, t, s2.clock, state).Finished?
    ensures var first := RunTask(o, t, s1.clock, state).art;
            var one, two := ArtifactJson(t, s1, first), ArtifactJson(t, s2, RunTask(o, t, s2.clock, state).art);
            var files := Written(sha, before, one);
            Comparable(one, files, two) && (Replays(one, files, two) <==> TraceAllowed(t, first.trace))
  {
    hide RunTask, HexDigest, Accepted, Written, ArtifactJson, Agrees, RunView, BundleView, Shaped, RunShaped, Loads, TraceAllowed, TraceSafe;
    RerunReplays(o, t, s1, s2, state, sha, before);
  }

  lemma NoHosts()
    ensures Network.ExactNames(Network.Allowlist([]))
  {
  }

  // ---- rate_limited_chain -----------------------------------------------------------------

  // The task with any description.
  function ChainTask(description: string): Task
  {
    Task("rate_limited_chain", 1, description, 140, 60, ["/app"], [], HandshakeTask.SCHEMA)
  }

  // A setup by its three numbers.
  function ChainSetup(secret: nat, nonce: nat, code: nat, instructions: string, loads: string -> Option<Json>): HandshakeRun.Episode<ChainService.Chain>
  {
    ChainRuns.ChainEpisode("ACCESS-" + NatText(secret), Identity("agent_bench_chain", NatText(nonce)), "CHAIN" + NatText(code),
                           instructions, 3, 4, true, loads)
  }

  // setup(seed, env)
  function ChainShipped(seed: int, instructions: string, loads: string -> Option<Json>): HandshakeRun.Episode<ChainService.Chain>
  {
    ChainSetup(100000 + seed % 900000, 1000 + seed % 9000, 1000 + seed % 9000, instructions, loads)
  }

  lemma DigitsBehind(word: string, n: nat)
    requires Phrase.Alphanumeric(word)
    ensures Phrase.Alphanumeric(word + NatText(n))
    ensures Phrase.SurvivesStrip(word + NatText(n)) && !Contains(word + NatText(n), Phrase.PLACEHOLDER)
  {
    var code, digits := word + NatText(n), NatText(n);
    forall i | 0 <= i < |code| ensures IsDigit(code[i]) || 'A' <= code[i] <= 'Z' || 'a' <= code[i] <= 'z' {
      if i >= |word| { assert code[i] == digits[i - |word|]; }
    }
    assert IsDigit(code[|code| - 1]);
    forall j | 0 <= j <= |code| ensures !MatchAt(code, Phrase.PLACEHOLDER, j) {
      assert Phrase.PLACEHOLDER[0] == '<';
      if j + |Phrase.PLACEHOLDER| <= |code| { assert code[j..j + |Phrase.PLACEHOLDER|][0] == code[j]; }
    }
  }

  lemma Words()
    ensures Phrase.Alphanumeric("CHAIN") && Phrase.Alphanumeric("DRS")
  {
  }

  // The texts of a handshake setup with a code and a nonce made of digits.
  lemma SetupTexts(secret: nat, nonce: nat, client: string, head: string, code: nat)
    requires OneLine(client) && OneLine(head)
    ensures OneLine("ACCESS-" + NatText(secret)) && OneLine(head + NatText(code))
    ensures LineSafe(Obj(Identity(client, NatText(nonce))))
  {
    hide NatText;
    LineSafety.DigitsSafe(NatText(secret));
    LineSafety.DigitsSafe(NatText(nonce));
    LineSafety.DigitsSafe(NatText(code));
    LineSafety.JoinSafe("ACCESS-", NatText(secret));
    LineSafety.JoinSafe(head, NatText(code));
    assert OneLine("ACCESS-") && OneLine("client_id") && OneLine("nonce");
    hide OneLine;
    LineSafety.StrSafe(client);
    LineSafety.StrSafe(NatText(nonce));
    PairSafe("client_id", Str(client), "nonce", Str(NatText(nonce)));
  }

  lemma ChainTextsSafe(e: HandshakeRun.Episode<ChainService.Chain>, code: string)
    requires OneLine(e.setup.secret) && LineSafe(Obj(e.setup.required)) && OneLine(code)
    requires e.setup.template == Phrase.Instruction(Phrase.CHAIN, code)
    requires Phrase.SurvivesStrip(code) && !Contains(code, Phrase.PLACEHOLDER)
    ensures LineSafety.TextsSafe(e)
  {
    hide OneLine, LineSafe, Contains, Phrase.SurvivesStrip, Phrase.Instruction, Phrase.Extract;
    LineSafety.ChainTemplate(code);
    ChainRuns.FirstId();
    Phrase.ChainPhrase(code, "hs-0");
  }

  lemma ChainSetupRuns(secret: nat, nonce: nat, code: nat, instructions: string, loads: string -> Option<Json>,
                       description: string, clock: int -> string)
    ensures var e := ChainSetup(secret, nonce, code, instructions, loads);
            Solves(HandshakeRun.EpisodeOracles(e), ChainTask(description), clock, HandshakeTask.World(ChainAgent.BLANK, e.start), 9)
  {
    hide Rules, NatText, HandshakeRun.EndsByScript, HandshakeRun.Succeeds, Phrase.SurvivesStrip, Contains, Phrase.Alphanumeric, Paths.Admit,
         Paths.RootsCovered, Identity, LineSafety.TextsSafe, HandshakeRun.EpisodeSafe, Phrase.Instruction, LineSafe, OneLine, Solves;
    var e, t := ChainSetup(secret, nonce, code, instructions, loads), ChainTask(description);
    Words();
    DigitsBehind("CHAIN", code);
    FixedSandbox(t);
    AppFile("CHAIN_README.md", ["/app"]);
    assert "/app/" + "CHAIN_README.md" == ChainRuns.CHAIN_KEYS.readme;
    NoHandshakeId("agent_bench_chain", NatText(nonce));
    NotEmpty("ACCESS-", NatText(secret));
    ChainRuns.ChainRun("ACCESS-" + NatText(secret), Identity("agent_bench_chain", NatText(nonce)), "CHAIN" + NatText(code),
                       instructions, 3, 4, true, loads, t, clock);
    ClientsSafe();
    SetupTexts(secret, nonce, "agent_bench_chain", "CHAIN", code);
    ChainTextsSafe(e, "CHAIN" + NatText(code));
    LineSafety.ChainClean(e);
    SolvedByScript(e, t, clock, 9);
  }

  lemma ClientsSafe()
    ensures OneLine("agent_bench_chain") && OneLine("agent_bench_drs") && OneLine("CHAIN") && OneLine("DRS")
  {
  }

  lemma SolvedByScript<S(!new)>(e: HandshakeRun.Episode<S>, t: Task, clock: int -> string, n: nat)
    requires HandshakeRun.EndsByScript(e, t, clock, n) && HandshakeRun.Succeeds(e, t, clock) && HandshakeRun.EpisodeSafe(e)
    requires t.maxSteps >= n && t.maxCalls >= n
    ensures Solves(HandshakeRun.EpisodeOracles(e), t, clock, HandshakeTask.World(ChainAgent.BLANK, e.start), n)
  {
    hide RunTask, HandshakeRun.EpisodeOracles, HandshakeRun.EpisodeSafe, TraceSafe, Scripts.ClockSafe;
  }

  lemma NotEmpty(a: string, b: string)
    requires a != ""
    ensures a + b != ""
  {
    assert |a + b| > 0;
  }

  // Every seed: the chain task is solved in 9 steps, verifies and replays.
  lemma ChainAsShipped(seed: int, instructions: string, loads: string -> Option<Json>, description: string,
                       s1: Session, s2: Session, sha: Doc -> string, before: map<string, Doc>)
    requires HexDigest(sha) && Scripts.ClockSafe(s1.clock)
    ensures var e := ChainShipped(seed, instructions, loads);
            Certified(HandshakeRun.EpisodeOracles(e), ChainTask(description), HandshakeTask.World(ChainAgent.BLANK, e.start), 9,
                      s1, s2, sha, before)
  {
    hide HexDigest, Certified, Solves, HandshakeRun.EpisodeOracles, ChainSetup, Scripts.ClockSafe;
    var e := ChainShipped(seed, instructions, loads);
    ChainSetupRuns(100000 + seed % 900000, 1000 + seed % 9000, 1000 + seed % 9000, instructions, loads, description, s1.clock);
    SuccessCertified(HandshakeRun.EpisodeOracles(e), ChainTask(description), HandshakeTask.World(ChainAgent.BLANK, e.start), 9, s1, s2, sha, before);
  }

  // For every seed the token can be had without a handshake.
  lemma BareCommitAsShipped(seed: int, instructions: string, loads: string -> Option<Json>)
    ensures exists h: seq<ChainLaws.Event>, i: nat :: ChainLaws.BareGrant(ChainShipped(seed, instructions, loads).start, h, i)
  {
    hide NatText, Identity, ChainLaws.BareGrant;
    NoHandshakeId("agent_bench_chain", NatText(1000 + seed % 9000));
    ChainLaws.BareCommitGrants(ChainShipped(seed, instructions, loads).start);
  }

  // The payload both setups require.
  function Identity(client: string, nonce: string): map<string, Json>
  {
    map["client_id" := Str(client), "nonce" := Str(nonce)]
  }

  lemma NoHandshakeId(client: string, nonce: string)
    ensures Identity(client, nonce) != map[] && "handshake_id" !in Identity(client, nonce)
  {
    assert "nonce" in Identity(client, nonce);
  }

  // ---- deterministic_rate_service ------------------------------------------------------------

  function RateTask(description: string): Task
  {
    Task("deterministic_rate_service", 1, description, 120, 45, ["/app"], [], HandshakeTask.SCHEMA)
  }

  // The random numbers of setup are arbitrary here.
  function RateShipped(code: nat, secret: nat, nonce: nat, instructions: string, loads: string -> Option<Json>)
    : HandshakeRun.Episode<RateService.Rate>
  {
    ChainRuns.RateEpisode("ACCESS-" + NatText(secret), Identity("agent_bench_drs", NatText(nonce)), "DRS" + NatText(code),
                          instructions, 2, true, loads)
  }

  lemma RateTextsSafe(e: HandshakeRun.Episode<RateService.Rate>, code: string)
    requires OneLine(e.setup.secret) && LineSafe(Obj(e.setup.required)) && OneLine(code)
    requires e.setup.template == Phrase.Instruction(Phrase.RATE, code)
    requires Phrase.SurvivesStrip(code) && !Contains(code, Phrase.PLACEHOLDER)
    ensures LineSafety.TextsSafe(e)
  {
    hide OneLine, LineSafe, Contains, Phrase.SurvivesStrip, Phrase.Instruction, Phrase.Extract, Phrase.RateExpects;
    LineSafety.RateTemplate(code);
    LineSafety.RateExpected(code);
    ChainRuns.FirstId();
    Phrase.RatePhrase(code, "hs-0");
  }

  lemma RateSetupRuns(code: nat, secret: nat, nonce: nat, instructions: string, loads: string -> Option<Json>,
                      description: string, clock: int -> string)
    ensures var e := RateShipped(code, secret, nonce, instructions, loads);
            Solves(HandshakeRun.EpisodeOracles(e), RateTask(description), clock, HandshakeTask.World(ChainAgent.BLANK, e.start), 9)
  {
    hide Rules, NatText, HandshakeRun.EndsByScript, HandshakeRun.Succeeds, Phrase.SurvivesStrip, Contains, Phrase.Alphanumeric, Paths.Admit,
         Paths.RootsCovered, Identity, LineSafety.TextsSafe, HandshakeRun.EpisodeSafe, Phrase.Instruction, LineSafe, OneLine, Solves;
    var e, t := RateShipped(code, secret, nonce, instructions, loads), RateTask(description);
    Words();
    DigitsBehind("DRS", code);
    FixedSandbox(t);
    AppFile("DRS_README.md", ["/app"]);
    assert "/app/" + "DRS_README.md" == ChainRuns.RATE_KEYS.readme;
    NoHandshakeId("agent_bench_drs", NatText(nonce));
    NotEmpty("ACCESS-", NatText(secret));
    ChainRuns.RateRun("ACCESS-" + NatText(secret), Identity("agent_bench_drs", NatText(nonce)), "DRS" + NatText(code), instructions,
                      2, true, loads, t, clock);
    ClientsSafe();
    SetupTexts(secret, nonce, "agent_bench_drs", "DRS", code);
    RateTextsSafe(e, "DRS" + NatText(code));
    LineSafety.RateClean(e);
    SolvedByScript(e, t, clock, 9);
  }

  lemma RateAsShipped(code: nat, secret: nat, nonce: nat, instructions: string, loads: string -> Option<Json>, description: string,
                      s1: Session, s2: Session, sha: Doc -> string, before: map<string, Doc>)
    requires HexDigest(sha) && Scripts.ClockSafe(s1.clock)
    ensures var e := RateShipped(code, secret, nonce, instructions, loads);
            Certified(HandshakeRun.EpisodeOracles(e), RateTask(description), HandshakeTask.World(ChainAgent.BLANK, e.start), 9,
                      s1, s2, sha, before)
  {
    hide HexDigest, Certified, Solves, HandshakeRun.EpisodeOracles, RateShipped, Scripts.ClockSafe;
    var e := RateShipped(code, secret, nonce, instructions, loads);
    RateSetupRuns(code, secret, nonce, instructions, loads, description, s1.clock);
    SuccessCertified(HandshakeRun.EpisodeOracles(e), RateTask(description), HandshakeTask.World(ChainAgent.BLANK, e.start), 9, s1, s2, sha, before);
  }

  // ---- log_stream_monitor ------------------------------------------------------------------------

  function StreamTask(description: string): Task
  {
    Task("log_stream_monitor", 1, description, 80, 30, ["/stream", "/app"], [], LogStream.SCHEMA)
  }

  // Whatever setup draws.
  lemma StreamAsShipped(d: LogStreamSetup.Draws, description: string, s1: Session, s2: Session, sha: Doc -> string, before: map<string, Doc>)
    requires HexDigest(sha) && d.Valid() && Scripts.ClockSafe(s1.clock)
    ensures Certified(LogStream.StreamOracles(d.Pages(), d.Code()), StreamTask(description), LogStream.Memory(0, false), d.critical + 2,
                      s1, s2, sha, before)
  {
    hide RunTask, Rules, HexDigest, Certified, NatText, LogStream.StreamOracles, LogStreamRuns.Planted, LogStreamRuns.StreamSafe,
         TraceSafe, Scripts.ClockSafe;
    var o, t := LogStream.StreamOracles(d.Pages(), d.Code()), StreamTask(description);
    FixedSandbox(t);
    CodeHasNoSpace(d.number);
    LogStreamSetup.SetupPlants(d);
    LogStreamSetup.SetupSafe(d);
    LogStreamRuns.PlantedSucceeds(d.Pages(), d.critical, d.Code(), t, s1.clock);
    SuccessCertified(o, t, LogStream.Memory(0, false), d.critical + 2, s1, s2, sha, before);
  }

  lemma CodeHasNoSpace(number: nat)
    ensures LogStreamRuns.NoSpace("SC-" + NatText(number))
  {
    var code, digits := "SC-" + NatText(number), NatText(number);
    forall i | 0 <= i < |code| ensures !IsSpace(code[i]) {
      if i >= 3 { assert code[i] == digits[i - 3]; }
    }
  }
}
