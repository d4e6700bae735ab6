// Which runs verify offline: the exact condition on the declared roots and hosts for every
// run to stay inside its sandbox, and what line separators add to it.
module SandboxLaws {
  import opened Values
  import opened Text
  import opened EnvSpec
  import opened RunnerSpec
  import opened RunnerLaws
  import opened Scripts
  import opened Artifacts
  import opened Bundle
  import opened BundleLaws
  import opened HostLaws
  import opened CrashLaws
  import Paths
  import Network

  // Declared roots that cover the guarded ones, and hosts that recheck.
  predicate SandboxAgrees(t: Task)
  {
    Paths.RootsCovered(t.roots) && ListRechecks(Network.Allowlist(t.hosts))
  }

  // ---- accesses ------------------------------------------------------------------------

  // Under covered roots an access the guard permits is allowed offline unless its recorded
  // host is rejected.
  lemma PermittedAllowed(t: Task, e: AuditEntry)
    requires Paths.RootsCovered(t.roots) && Rules(t).Some? && Permitted(Rules(t).value, e)
    requires e.Net? ==> Network.Check(Network.Allowlist(t.hosts), e.host).Ok?
    ensures AllowedOffline(t, e)
  {
    hide Network.Check, Paths.RootsCovered, Paths.GuardRoots, Paths.Admit, Paths.UnderRoots;
    if e.Fs? {
      var asked :| Paths.Admit(Rules(t).value.roots, asked) == Ok(e.path);
      Paths.OfflineAgreesIffCovered(t.roots);
      assert Paths.UnderRoots(t.roots, Paths.Admit(Rules(t).value.roots, asked).value);
    }
  }

  // An access the guard permits is allowed offline under a sandbox that agrees.
  lemma AgreeingAllows(t: Task, e: AuditEntry)
    requires SandboxAgrees(t) && Rules(t).Some? && Permitted(Rules(t).value, e)
    ensures AllowedOffline(t, e)
  {
    hide Paths.RootsCovered, ListRechecks, Network.Check, Network.Allowlist, Paths.GuardRoots, Paths.Admit, AllowedOffline;
    if e.Net? {
      HostsAgreeIff(Network.Allowlist(t.hosts));
      var asked :| Network.Check(Rules(t).value.allow, asked) == Ok(e.host);
    }
    PermittedAllowed(t, e);
  }

  // Under any other sandbox some call is due an entry that is not allowed offline.
  lemma BadCall(t: Task) returns (op: Op, e: AuditEntry)
    requires Rules(t).Some? && !SandboxAgrees(t)
    ensures Due(Rules(t).value, op) == [e] && !AllowedOffline(t, e)
  {
    hide Paths.RootsCovered, ListRechecks, Network.Check, Network.Allowlist, Paths.GuardRoots, Paths.Admit, Paths.UnderRoots;
    var p := Rules(t).value;
    if !Paths.RootsCovered(t.roots) {
      Paths.OfflineAgreesIffCovered(t.roots);
      var path :| Paths.Admit(p.roots, path).Ok? && !Paths.UnderRoots(t.roots, Paths.Admit(p.roots, path).value);
      op, e := Exists(path), Fs("exists", Paths.Admit(p.roots, path).value);
    } else {
      HostsAgreeIff(p.allow);
      var host :| Network.Check(p.allow, host).Ok? && Network.Check(p.allow, Network.Check(p.allow, host).value).Err?;
      op, e := RequireNetwork(host), Net(Network.Check(p.allow, host).value);
    }
  }

  // Guard and offline check agree on every access exactly when the sandbox agrees.
  lemma AccessesAgreeIff(t: Task)
    requires Rules(t).Some?
    ensures (forall e :: Permitted(Rules(t).value, e) ==> AllowedOffline(t, e)) <==> SandboxAgrees(t)
  {
    hide SandboxAgrees, AllowedOffline, Permitted, RunnerSpec.Rules;
    if SandboxAgrees(t) {
      forall e | Permitted(Rules(t).value, e) ensures AllowedOffline(t, e) {
        AgreeingAllows(t, e);
      }
    } else {
      var op, e := BadCall(t);
      DuePermitted(Rules(t).value, op, e);
    }
  }

  lemma DuePermitted(p: Policy, op: Op, e: AuditEntry)
    requires Due(p, op) == [e]
    ensures Permitted(p, e)
  {
    hide Paths.Admit, Network.Check;
    assert Due(p, op)[0] == e;
  }

  // ---- a run that makes one call -----------------------------------------------------------

  // Some valid action can be called.
  predicate CanAct(t: Task)
  {
    t.maxSteps > 0 && t.maxCalls > 0 && exists name :: name in t.schema && name != ""
  }

  function CallOf(t: Task, name: string): Json
    requires name in t.schema
  {
    Obj(map["type" := Str(name), "args" := Obj(map key | key in t.schema[name] :: Null)])
  }

  const VERDICT := Obj(map["ok" := Bool(true)])

  // An agent that plays one action, an action that makes one call, and a validator that is
  // content.
  function Prober<W>(t: Task, state: W, name: string, op: Op): Oracles<W>
    requires name in t.schema
  {
    Oracles((w: W) => Program((replies: seq<Reply>) => Finish(w, Returned(Null)), 0),
            (w: W, obs: Observation) => (w, Acts(CallOf(t, name))),
            (w: W, called: string, args: map<string, Json>) =>
              Program((replies: seq<Reply>) => if replies == [] then Ask(op) else Finish(w, Returned(Null)), 1),
            (w: W) => Program((replies: seq<Reply>) => Finish(w, Returned(VERDICT)), 0))
  }

  lemma CallIsValid(t: Task, name: string)
    requires name in t.schema && name != ""
    ensures ValidateAction(CallOf(t, name), t.schema).None?
    ensures CallOf(t, name).Get("type") == Str(name)
  {
    ValidActionIff(CallOf(t, name), t.schema);
    assert CallOf(t, name).Get("type") == Str(name);
    assert CallOf(t, name).Get("args") == Obj(map key | key in t.schema[name] :: Null);
    hide ValidateAction;
  }

  // Such a run records exactly what the call is due.
  lemma ProbeRuns<W>(t: Task, clock: int -> string, state: W, name: string, op: Op)
    requires Rules(t).Some? && t.maxSteps > 0 && t.maxCalls > 0 && name in t.schema && name != ""
    ensures var end := RunTask(Prober(t, state, name, op), t, clock, state);
            end.Finished? && |end.art.trace| == 1 && end.art.trace[0].audit == Due(Rules(t).value, op)
  {
    hide Execute, ExecuteFrom, Perform, Due, Iterate, Judge, ValidateAction, RunnerSpec.Rules, CallOf, Visible, ActionArgs;
    var o, p := Prober(t, state, name, op), Rules(t).value;
    ExecuteNone(p, FRESH_GUARD, o.setup(state), state, Returned(Null));
    var s := Start(t, state, FRESH_GUARD);
    var step := Observe(t, s).step;
    var window := FRESH_GUARD.(step := Some(step), entries := []);
    CallIsValid(t, name);
    var code := o.action(state, name, ActionArgs(CallOf(t, name)));
    ExecuteOne(p, window, code, op, state, Returned(Null));
    var acted := Perform(p, window, op).0;
    PerformRecordsDue(p, window, op);
    assert [] + Due(p, op) == Due(p, op);
    var closed := acted.(step := None, entries := []);
    ExecuteNone(p, closed, o.validate(state), state, Returned(VERDICT));
    PlayedTurn(o, t, clock, p, s, state, CallOf(t, name), acted, state, Null, closed, state, VERDICT);
    var entry := Entry(step, clock(step), Observe(t, s), CallOf(t, name), Null, acted.entries, s.stepsLeft - 1, s.callsLeft - 1, 1, 1);
    ContentJudged(t, Loop(state, closed, s.stepsLeft - 1, s.callsLeft - 1, CallOf(t, name), Null, [] + [entry], []));
  }

  lemma ContentJudged<W>(t: Task, s: Loop<W>)
    ensures var r := Judge(t, s, VERDICT); r.Stop? && r.end.Finished? && r.end.art.trace == s.trace
  {
    hide Snapshot, NormalizeTerminal;
  }

  // ---- runs that cannot act ---------------------------------------------------------------------

  predicate RecordsNothing(trace: seq<Entry>)
  {
    forall i | 0 <= i < |trace| :: trace[i].audit == []
  }

  lemma IdleActs<W>(o: Oracles<W>, t: Task, clock: int -> string, p: Policy, s: Loop<W>, obs: Observation, action: Json)
    requires s.trace == [] && (s.callsLeft <= 0 || !exists name :: name in t.schema && name != "")
    ensures var r := ActOn(o, t, clock, p, s, obs, action);
            r.Stop? && (r.end.Finished? ==> RecordsNothing(r.end.art.trace))
  {
    hide Execute, Settle, ActionArgs, ErrorResult;
    ValidatedName(action, t.schema);
    ValidActionIff(action, t.schema);
    hide ValidateAction;
  }

  lemma IdleRecordsNothing<W>(o: Oracles<W>, t: Task, clock: int -> string, state: W)
    requires !CanAct(t) && RunTask(o, t, clock, state).Finished?
    ensures RecordsNothing(RunTask(o, t, clock, state).art.trace)
  {
    hide Execute, ActOn, RunnerSpec.Rules, Visible, ValidateAction;
    var p := Rules(t).value;
    var ran := Execute(p, FRESH_GUARD, o.setup(state));
    var s := Start(t, ran.1.state, ran.0);
    if s.stepsLeft > 0 {
      var obs := Observe(t, s);
      var moved := o.act(s.state, obs);
      if moved.1.Acts? {
        IdleActs(o, t, clock, p, s.(state := moved.0, stepsLeft := s.stepsLeft - 1), obs, moved.1.action);
      }
    }
  }

  // ---- what every run records ---------------------------------------------------------------

  // The accesses this run records are all allowed offline.
  ghost predicate Inside<W>(o: Oracles<W>, t: Task, clock: int -> string, state: W)
  {
    var end := RunTask(o, t, clock, state);
    end.Finished? ==> TraceAllowed(t, end.art.trace)
  }

  ghost predicate EveryRunInside<W(!new)>(t: Task, clock: int -> string)
  {
    forall o: Oracles<W>, state: W :: Inside(o, t, clock, state)
  }

  lemma AgreeingInside<W>(o: Oracles<W>, t: Task, clock: int -> string, state: W)
    requires t.maxSteps >= 0 && t.maxCalls >= 0 && SandboxAgrees(t)
    ensures Inside(o, t, clock, state)
  {
    hide RunTask, SandboxAgrees, RunnerSpec.Rules, Permitted, AllowedOffline, EpisodeRaises;
    var end := RunTask(o, t, clock, state);
    if end.Finished? {
      RunLawful(o, t, clock, state);
      forall i, k | 0 <= i < |end.art.trace| && 0 <= k < |end.art.trace[i].audit| ensures AllowedOffline(t, end.art.trace[i].audit[k]) {
        assert AllPermitted(Rules(t).value, end.art.trace[i].audit);
        AgreeingAllows(t, end.art.trace[i].audit[k]);
      }
    }
  }

  lemma IdleInside<W>(o: Oracles<W>, t: Task, clock: int -> string, state: W)
    requires !CanAct(t)
    ensures Inside(o, t, clock, state)
  {
    hide RunTask, CanAct, AllowedOffline;
    if RunTask(o, t, clock, state).Finished? {
      IdleRecordsNothing(o, t, clock, state);
    }
  }

  lemma ProbeOutside<W>(t: Task, clock: int -> string, state: W) returns (o: Oracles<W>)
    requires Rules(t).Some? && CanAct(t) && !SandboxAgrees(t)
    ensures !Inside(o, t, clock, state)
  {
    hide RunTask, SandboxAgrees, RunnerSpec.Rules, AllowedOffline, Due, Prober;
    var op, e := BadCall(t);
    var name :| name in t.schema && name != "";
    o := Prober(t, state, name, op);
    ProbeRuns(t, clock, state, name, op);
    assert RunTask(o, t, clock, state).art.trace[0].audit[0] == e;
  }

  // All runs of a task, whatever its agent, actions, setup and validator do, record only what
  // the offline check allows exactly when its sandbox agrees or no run of it can make a call.
  lemma RunsInsideIff<W(!new)>(t: Task, clock: int -> string, state: W)
    requires t.maxSteps >= 0 && t.maxCalls >= 0
    ensures EveryRunInside<W>(t, clock) <==> Rules(t).None? || !CanAct(t) || SandboxAgrees(t)
  {
    hide Inside, SandboxAgrees, CanAct, RunnerSpec.Rules;
    if Rules(t).None? || !CanAct(t) || SandboxAgrees(t) {
      forall o: Oracles<W>, w: W ensures Inside(o, t, clock, w) {
        if SandboxAgrees(t) {
          AgreeingInside(o, t, clock, w);
        } else if !CanAct(t) {
          IdleInside(o, t, clock, w);
        } else {
          NoSandboxNoRun(o, t, clock, w);
        }
      }
    } else {
      var o: Oracles<W> := ProbeOutside(t, clock, state);
    }
  }

  lemma NoSandboxNoRun<W>(o: Oracles<W>, t: Task, clock: int -> string, state: W)
    requires Rules(t).None?
    ensures Inside(o, t, clock, state)
  {
    hide RunnerSpec.Rules, TraceAllowed;
  }

  // ---- which runs verify ----------------------------------------------------------------------

  // The bundle of this run, if it finishes, is accepted.
  ghost predicate Verifies<W>(o: Oracles<W>, t: Task, s: Session, state: W, sha: Doc -> string, before: map<string, Doc>)
  {
    var end := RunTask(o, t, s.clock, state);
    end.Finished? ==> Accepted(sha, Written(sha, before, ArtifactJson(t, s, end.art)))
  }

  ghost predicate EveryRunVerifies<W(!new)>(t: Task, s: Session, sha: Doc -> string, before: map<string, Doc>)
  {
    forall o: Oracles<W>, state: W :: Verifies(o, t, s, state, sha, before)
  }

  ghost predicate RunSafe<W>(o: Oracles<W>, t: Task, clock: int -> string, state: W)
  {
    var end := RunTask(o, t, clock, state);
    end.Finished? ==> TraceSafe(end.art.trace)
  }

  // A run verifies exactly when the offline check allows what it records and no text in its
  // rows holds a line separator.
  lemma RunVerifies<W>(o: Oracles<W>, t: Task, s: Session, state: W, sha: Doc -> string, before: map<string, Doc>)
    requires HexDigest(sha)
    ensures Verifies(o, t, s, state, sha, before) <==> Inside(o, t, s.clock, state) && RunSafe(o, t, s.clock, state)
  {
    hide RunTask, HexDigest, Sound, Written, ArtifactJson, Readable, TraceAllowed, TraceSafe;
    var end := RunTask(o, t, s.clock, state);
    if end.Finished? {
      EmittedSound(sha, before, t, s, end.art);
    }
  }

  // Under a sandbox that agrees a run verifies exactly when its rows hold no line separator.
  lemma AgreeingVerifies<W>(o: Oracles<W>, t: Task, s: Session, state: W, sha: Doc -> string, before: map<string, Doc>)
    requires HexDigest(sha) && t.maxSteps >= 0 && t.maxCalls >= 0 && SandboxAgrees(t)
    ensures Verifies(o, t, s, state, sha, before) <==> RunSafe(o, t, s.clock, state)
  {
    hide HexDigest, SandboxAgrees, Verifies, Inside, RunSafe;
    RunVerifies(o, t, s, state, sha, before);
    AgreeingInside(o, t, s.clock, state);
  }

  // Covered roots and exact plain host names make such a sandbox.
  lemma ExactNamesAgree(t: Task)
    requires Paths.RootsCovered(t.roots) && Network.ExactNames(Network.Allowlist(t.hosts))
    ensures SandboxAgrees(t)
  {
    hide Paths.RootsCovered, Network.ExactNames, ListRechecks, Network.Allowlist;
    ExactNamesListRechecks(Network.Allowlist(t.hosts));
  }

  // Under any allowlist, wildcards included, it is enough that the recorded hosts are plain.
  lemma RunVerifiesPlain<W>(o: Oracles<W>, t: Task, s: Session, state: W, sha: Doc -> string, before: map<string, Doc>)
    requires HexDigest(sha) && Paths.RootsCovered(t.roots) && t.maxSteps >= 0 && t.maxCalls >= 0
    ensures RecordsPlainHosts(o, t, s.clock, state) ==>
              (Verifies(o, t, s, state, sha, before) <==> RunSafe(o, t, s.clock, state))
  {
    hide HexDigest, RunTask, Verifies, RunSafe, AllowedOffline, Paths.RootsCovered, Network.Plain, RunnerSpec.Rules, EpisodeRaises;
    RunVerifies(o, t, s, state, sha, before);
    var end := RunTask(o, t, s.clock, state);
    if end.Finished? && RecordsPlainHosts(o, t, s.clock, state) {
      RunLawful(o, t, s.clock, state);
      forall i, k | 0 <= i < |end.art.trace| && 0 <= k < |end.art.trace[i].audit| ensures AllowedOffline(t, end.art.trace[i].audit[k]) {
        assert AllPermitted(Rules(t).value, end.art.trace[i].audit);
        PlainAllowed(t, end.art.trace[i].audit[k]);
      }
    }
  }

  ghost predicate RecordsPlainHosts<W>(o: Oracles<W>, t: Task, clock: int -> string, state: W)
  {
    var end := RunTask(o, t, clock, state);
    end.Finished? ==> forall i, k | 0 <= i < |end.art.trace| && 0 <= k < |end.art.trace[i].audit| ::
      end.art.trace[i].audit[k].Net? ==> Network.Plain(end.art.trace[i].audit[k].host)
  }

  lemma PlainAllowed(t: Task, e: AuditEntry)
    requires Paths.RootsCovered(t.roots) && Rules(t).Some? && Permitted(Rules(t).value, e)
    requires e.Net? ==> Network.Plain(e.host)
    ensures AllowedOffline(t, e)
  {
    hide Network.Check, Network.Plain, Network.Allowlist, Paths.GuardRoots, Paths.RootsCovered, Paths.Admit, AllowedOffline;
    if e.Net? {
      var asked :| Network.Check(Rules(t).value.allow, asked) == Ok(e.host);
      Network.RecheckPlain(Rules(t).value.allow, asked);
    }
    PermittedAllowed(t, e);
  }

  // ---- line separators -------------------------------------------------------------------------

  const SEPARATOR := "\U{2028}"

  // An agent that plays a line separator. The runner records even this rejected action.
  function Breaker<W>(state: W): Oracles<W>
  {
    var nothing := Program((replies: seq<Reply>) => Finish(state, Returned(Null)), 0);
    Oracles((w: W) => nothing, (w: W, obs: Observation) => (w, Acts(Str(SEPARATOR))),
            (w: W, name: string, args: map<string, Json>) => nothing, (w: W) => nothing)
  }

  lemma SeparatorUnsafe()
    ensures !LineSafe(Str(SEPARATOR))
  {
    assert IsSeparator(SEPARATOR[0]);
  }

  lemma BreakerRuns<W>(t: Task, clock: int -> string, state: W)
    requires Rules(t).Some? && t.maxSteps > 0
    ensures var end := RunTask(Breaker(state), t, clock, state);
            end.Finished? && TraceAllowed(t, end.art.trace) && !TraceSafe(end.art.trace)
  {
    hide Execute, ExecuteFrom, RunnerSpec.Rules, AllowedOffline, Visible, LineSafe, Failure;
    var o, p := Breaker(state), Rules(t).value;
    ExecuteNone(p, FRESH_GUARD, o.setup(state), state, Returned(Null));
    var s := Start(t, state, FRESH_GUARD);
    var obs := Observe(t, s);
    var entry := Entry(obs.step, clock(obs.step), obs, Str(SEPARATOR), ErrorResult("action_must_be_dict"), [], s.stepsLeft - 1, s.callsLeft, 1, 0);
    CrashLaws.FailureCloses(InvalidAction, s.checks, "invalid_action", "action_must_be_dict", "invalid_action",
                            t.maxSteps - (s.stepsLeft - 1), t.maxCalls - s.callsLeft, [entry], NO_VALIDATOR);
    assert s.trace + [entry] == [entry];
    var end := RunTask(o, t, clock, state);
    SeparatorUnsafe();
    assert end.art.trace[0] == entry && !EntrySafe(entry);
  }

  // So the bundles of all runs of a task verify only where no step can be taken.
  lemma RunsVerifyIff<W(!new)>(t: Task, s: Session, state: W, sha: Doc -> string, before: map<string, Doc>)
    requires HexDigest(sha) && t.maxSteps >= 0 && t.maxCalls >= 0
    ensures EveryRunVerifies<W>(t, s, sha, before) <==> Rules(t).None? || t.maxSteps == 0
  {
    hide HexDigest, RunnerSpec.Rules, Verifies, TraceAllowed, TraceSafe;
    if Rules(t).None? || t.maxSteps == 0 {
      forall o: Oracles<W>, w: W ensures Verifies(o, t, s, w, sha, before) {
        RunVerifies(o, t, s, w, sha, before);
        IdleTrace(o, t, s.clock, w);
      }
    } else {
      BreakerRuns(t, s.clock, state);
      RunVerifies(Breaker(state), t, s, state, sha, before);
    }
  }

  lemma IdleTrace<W>(o: Oracles<W>, t: Task, clock: int -> string, state: W)
    requires Rules(t).None? || t.maxSteps == 0
    ensures Inside(o, t, clock, state) && RunSafe(o, t, clock, state)
  {
    hide Execute, RunnerSpec.Rules, ActOn, Visible, AllowedOffline, EntrySafe;
  }
}
