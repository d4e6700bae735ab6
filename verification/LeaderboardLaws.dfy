// Which runs of the runner the leaderboard takes in.
module LeaderboardLaws {
  import opened Values
  import opened Text
  import opened RunnerSpec
  import opened RunnerLaws
  import opened EnvSpec
  import opened SandboxLaws
  import Scripts
  import opened Artifacts
  import opened Bundle
  import opened BundleLaws
  import opened Leaderboard
  import CrashLaws
  import Paths

  lemma NotBlank(s: string, i: nat)
    requires i < |s| && !IsSpace(s[i])
    ensures Strip(s) != ""
  {
    hide IsSpace, LStrip, RStrip;
    var l := LStrip(s, IsSpace);
    var r := RStrip(l, IsSpace);
    LStripEnd(s, IsSpace);
    RStripBegin(l, IsSpace);
    assert i >= |s| - |l|;
    assert l[i - (|s| - |l|)] == s[i];
    assert |r| > i - (|s| - |l|);
  }

  lemma TaskRefNotBlank(t: Task)
    ensures Strip(TaskRef(t)) != ""
  {
    hide IntText;
    assert TaskRef(t)[|t.id|] == '@';
    NotBlank(TaskRef(t), |t.id|);
  }

  // A key pair whose signatures and public key are not blank.
  ghost predicate Usable(signer: Signer)
  {
    Strip(signer.publicKey) != "" && forall lines: seq<string> :: Strip(signer.sign(lines)) != ""
  }

  // The session names its run and agent.
  predicate Named(s: Session)
  {
    Strip(s.runId) != "" && Strip(s.agent) != ""
  }

  // The bundle of an artifact, written and then signed.
  function SignedBundle(sha: Doc -> string, signer: Signer, before: map<string, Doc>, t: Task, s: Session, a: Artifact): (signed: map<string, Doc>)
  {
    var r := ArtifactJson(t, s, a);
    WrittenDigested(sha, before, r);
    Signed(sha, signer, Written(sha, before, r))
  }

  lemma SignatureComplete(signer: Signer, lines: seq<string>)
    requires Usable(signer)
    ensures forall key <- PROVENANCE :: RequireStr(SignatureOf(signer, lines), key).Some?
  {
    hide Strip;
    var doc := SignatureOf(signer, lines);
    assert doc.Get("algorithm") == Str("ed25519") && Strip("ed25519") != "" by { NotBlank("ed25519", 0); }
    assert doc.Get("signature_hex") == Str(signer.sign(lines)) && doc.Get("public_key_pem") == Str(signer.publicKey);
  }

  lemma ManifestIdentity(r: Json)
    ensures var m := ManifestOf(r);
            && m.Get("run_id") == r.Get("run_id") && m.Get("trace_id") == r.Get("trace_id")
            && m.Get("agent") == r.Get("agent") && m.Get("task_ref") == r.Get("task_ref")
  {
    hide ManifestOf;
    ManifestCopies(r, "run_id");
    ManifestCopies(r, "trace_id");
    ManifestCopies(r, "agent");
    ManifestCopies(r, "task_ref");
  }

  lemma ArtifactIdentity(t: Task, s: Session, a: Artifact)
    ensures var r := ArtifactJson(t, s, a);
            && r.Get("run_id") == Str(s.runId) && r.Get("trace_id") == Str(s.runId)
            && r.Get("agent") == Str(s.agent) && r.Get("task_ref") == Str(TaskRef(t))
  {
    hide TraceItems, SandboxJson, BudgetJson, TaskRef;
  }

  // The manifest of a signed bundle names run, agent and task, and tells the outcome.
  lemma SignedIdentity(t: Task, s: Session, a: Artifact)
    ensures ManifestOf(ArtifactJson(t, s, a)).Obj?
    ensures var m := SignedManifest(ManifestOf(ArtifactJson(t, s, a)));
            && m.Get("run_id") == Str(s.runId) && m.Get("trace_id") == Str(s.runId)
            && m.Get("agent") == Str(s.agent) && m.Get("task_ref") == Str(TaskRef(t)) && m.Get("success") == Bool(a.success)
  {
    var r := ArtifactJson(t, s, a);
    assert ManifestOf(r).Obj?;
    hide ArtifactJson, ManifestOf, SignedManifest, TaskRef;
    ManifestIdentity(r);
    ArtifactIdentity(t, s, a);
    ManifestSuccess(t, s, a);
    var m := ManifestOf(r);
    ManifestMarked(m, "run_id");
    ManifestMarked(m, "trace_id");
    ManifestMarked(m, "agent");
    ManifestMarked(m, "task_ref");
    ManifestMarked(m, "success");
  }

  // Any agent, actions, setup and validator: the bundle of a finished run, once signed, can
  // be ingested exactly when it verified and its session names run and agent; the record then
  // names that run and its outcome.
  lemma RunIngests(t: Task, s: Session, a: Artifact, sha: Doc -> string, signer: Signer, before: map<string, Doc>)
    requires HexDigest(sha) && Usable(signer)
    ensures var files := SignedBundle(sha, signer, before, t, s, a);
            && Readable(files)
            && (Submittable(sha, files) <==> Accepted(sha, Written(sha, before, ArtifactJson(t, s, a))) && Named(s))
            && (Submittable(sha, files) ==> forall place: string, now: string ::
                  var record := RecordOf(place, files, now);
                  && record.runId == s.runId && record.agent == s.agent && record.taskRef == TaskRef(t)
                  && record.run.Get("success") == Bool(a.success) && record.ingestedAt == now && record.bundleDir == place)
  {
    hide HexDigest, Usable, Sound, Written, Signed, DigestLine, ArtifactJson, ManifestOf, ValidatorOf, SignedManifest, SignatureOf, RowsDoc,
         RowsReadable, RequireStr, Strip, TaskRef, RunOf;
    var r := ArtifactJson(t, s, a);
    EmittedFields(t, s, a);
    SandboxReadsBack(t);
    SignedSound(sha, signer, before, r);
    WrittenDigested(sha, before, r);
    SignedDigested(sha, signer, Written(sha, before, r));
    SignatureComplete(signer, Written(sha, before, r)[INTEGRITY].text);
    SignedIdentity(t, s, a);
    RunKeeps(SignedManifest(ManifestOf(r)), "success");
    TaskRefNotBlank(t);
    IdentityKeys(SignedManifest(ManifestOf(r)));
    TextsGiven(SignedManifest(ManifestOf(r)), s, TaskRef(t));
  }

  lemma TextsGiven(m: Json, s: Session, ref: string)
    requires m.Get("run_id") == Str(s.runId) && m.Get("trace_id") == Str(s.runId) && m.Get("agent") == Str(s.agent)
    requires m.Get("task_ref") == Str(ref) && Strip(ref) != ""
    ensures RequireStr(m, "run_id").Some? && RequireStr(m, "trace_id").Some? && RequireStr(m, "agent").Some? && RequireStr(m, "task_ref").Some?
            <==> Named(s)
  {
    hide Strip;
  }

  // ---- every run of a task ---------------------------------------------------------------

  // The bundle of this run, if it finishes, can be ingested once signed.
  ghost predicate Ingests<W>(o: Oracles<W>, t: Task, s: Session, state: W, sha: Doc -> string, signer: Signer, before: map<string, Doc>)
  {
    var end := RunTask(o, t, s.clock, state);
    end.Finished? ==>
      var files := SignedBundle(sha, signer, before, t, s, end.art);
      Readable(files) && Submittable(sha, files)
  }

  ghost predicate EveryRunIngests<W(!new)>(t: Task, s: Session, sha: Doc -> string, signer: Signer, before: map<string, Doc>)
  {
    forall o: Oracles<W>, state: W :: Ingests(o, t, s, state, sha, signer, before)
  }

  lemma IngestsIffVerifies<W>(o: Oracles<W>, t: Task, s: Session, state: W, sha: Doc -> string, signer: Signer, before: map<string, Doc>)
    requires HexDigest(sha) && Usable(signer)
    ensures Ingests(o, t, s, state, sha, signer, before) <==>
              (RunTask(o, t, s.clock, state).Finished? ==> Named(s)) && Verifies(o, t, s, state, sha, before)
  {
    hide RunTask, HexDigest, Usable, Accepted, Submittable, Written, SignedBundle, ArtifactJson, Readable, Named, Leaderboard.Record;
    var end := RunTask(o, t, s.clock, state);
    if end.Finished? {
      RunIngests(t, s, end.art, sha, signer, before);
    }
  }

  // An agent that violates the sandbox at once: with any sandbox that can be built its run
  // finishes.
  function Violator<W>(state: W): Oracles<W>
  {
    var nothing := Program((replies: seq<Reply>) => Finish(state, Returned(Null)), 0);
    Oracles((w: W) => nothing, (w: W, obs: Observation) => (w, Violates("")), (w: W, name: string, args: map<string, Json>) => nothing,
            (w: W) => nothing)
  }

  lemma ViolatorFinishes<W>(t: Task, clock: int -> string, state: W)
    requires Rules(t).Some?
    ensures RunTask(Violator(state), t, clock, state).Finished?
  {
    hide Execute, ExecuteFrom, ActOn, RunnerSpec.Rules, Visible, Iterate;
    var o, p := Violator(state), Rules(t).value;
    Scripts.ExecuteNone(p, FRESH_GUARD, o.setup(state), state, Returned(Null));
    ViolatorStops(o, t, clock, p, Start(t, state, FRESH_GUARD), state);
  }

  lemma ViolatorStops<W>(o: Oracles<W>, t: Task, clock: int -> string, p: Policy, s: Loop<W>, state: W)
    requires o == Violator(state)
    ensures Iterate(o, t, clock, p, s).Stop? && Iterate(o, t, clock, p, s).end.Finished?
  {
    hide ActOn, Visible, Failure;
    var steps, calls := t.maxSteps - s.stepsLeft, t.maxCalls - s.callsLeft;
    CrashLaws.FailureCloses(StepsGate, s.checks, "steps_exhausted", "steps_exhausted", "budget_exhausted",
                            t.maxSteps, calls, s.trace, NO_VALIDATOR);
    CrashLaws.FailureCloses(AgentViolation, s.checks, "sandbox_violation", "", "sandbox_violation",
                            steps, calls, s.trace, NO_VALIDATOR);
  }

  // So the bundles of all runs of a task can be ingested only where no step can be taken.
  lemma RunsIngestIff<W(!new)>(t: Task, s: Session, state: W, sha: Doc -> string, signer: Signer, before: map<string, Doc>)
    requires HexDigest(sha) && Usable(signer) && t.maxSteps >= 0 && t.maxCalls >= 0
    ensures EveryRunIngests<W>(t, s, sha, signer, before) <==> Rules(t).None? || (Named(s) && t.maxSteps == 0)
  {
    hide RunTask, Ingests, Verifies, HexDigest, Usable, Named, RunnerSpec.Rules, Violator;
    RunsVerifyIff<W>(t, s, state, sha, before);
    forall o: Oracles<W>, w: W
      ensures Ingests(o, t, s, w, sha, signer, before) <==>
                (RunTask(o, t, s.clock, w).Finished? ==> Named(s)) && Verifies(o, t, s, w, sha, before)
    {
      IngestsIffVerifies(o, t, s, w, sha, signer, before);
    }
    if Rules(t).Some? {
      ViolatorFinishes(t, s.clock, state);
      assert Ingests(Violator(state), t, s, state, sha, signer, before) ==> Named(s);
    } else {
      forall o: Oracles<W>, w: W ensures !RunTask(o, t, s.clock, w).Finished? {
        NoSandboxCrashes(o, t, s.clock, w);
      }
    }
  }

  lemma NoSandboxCrashes<W>(o: Oracles<W>, t: Task, clock: int -> string, state: W)
    requires Rules(t).None?
    ensures !RunTask(o, t, clock, state).Finished?
  {
    hide RunnerSpec.Rules;
  }

  lemma ManifestSuccess(t: Task, s: Session, a: Artifact)
    ensures ManifestOf(ArtifactJson(t, s, a)).Get("success") == Bool(a.success)
  {
    hide ManifestOf, TraceItems, SandboxJson, BudgetJson, TaskRef;
    ManifestCopies(ArtifactJson(t, s, a), "success");
  }

  lemma RunKeeps(m: Json, key: string)
    requires key in RUN_KEYS
    ensures RunOf(m).Get(key) == m.Get(key)
  {
  }

  lemma IdentityKeys(m: Json)
    ensures (forall key <- IDENTITY :: RequireStr(m, key).Some?) <==>
              RequireStr(m, "run_id").Some? && RequireStr(m, "trace_id").Some? && RequireStr(m, "agent").Some? && RequireStr(m, "task_ref").Some?
  {
    hide RequireStr;
    assert "run_id" in IDENTITY && "trace_id" in IDENTITY && "agent" in IDENTITY && "task_ref" in IDENTITY;
  }
}
