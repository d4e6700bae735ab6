// What diff_runs says about runs of the runner and about runs that replay accepts.
module DiffLaws {
  import opened Values
  import opened EnvSpec
  import opened RunnerSpec
  import opened Artifacts
  import opened ReplayLaws
  import Replay
  import Diff

  lemma EmittedAudit(t: Task, e: Entry)
    ensures EntryJson(t, e).Obj? && EntryJson(t, e).Get("io_audit") == Arr(AuditItems(e.audit))
  {
  }

  // Time stamps are volatile: without them the two entries are one.
  lemma TimeIsVolatile(t: Task, a: Entry, b: Entry)
    requires SameButTime(a, b)
    ensures Diff.NormalizeEntry(Some(EntryJson(t, a))) == Diff.NormalizeEntry(Some(EntryJson(t, b)))
  {
    hide ObservationJson, BudgetJson, AuditItems;
    var x, y := EntryJson(t, a), EntryJson(t, b);
    assert x.fields.Keys == y.fields.Keys;
    forall k | k in x.fields && k !in Diff.VOLATILE ensures x.fields[k] == y.fields[k] {
      assert k != "action_ts" by { assert "action_ts" in Diff.VOLATILE; }
    }
    var p, q := Diff.NormalizeEntry(Some(x)).value.fields, Diff.NormalizeEntry(Some(y)).value.fields;
    assert p.Keys == q.Keys;
    assert p == q;
  }

  // diff_runs can read every artifact of the runner.
  lemma EmittedDiffable(t: Task, s: Session, a: Artifact)
    ensures Diff.RunShaped(ArtifactJson(t, s, a)) && TraceOf(ArtifactJson(t, s, a)) == TraceItems(t, a.trace)
  {
    hide EntryJson, SandboxJson;
    var r := ArtifactJson(t, s, a);
    assert r.Get("action_trace") == Arr(TraceItems(t, a.trace)) && r.Get("tool_calls_used") == Int(a.callsUsed);
    forall i | 0 <= i < |a.trace| ensures var j := TraceItems(t, a.trace)[i]; j.Obj? && Diff.AuditShaped(j.Get("io_audit")) {
      EmittedAudit(t, a.trace[i]);
    }
  }

  lemma SameResultSameSteps(t: Task, a: Artifact, b: Artifact)
    requires SameResult(a, b)
    ensures var x, y := TraceItems(t, a.trace), TraceItems(t, b.trace);
            && |x| == |y|
            && (forall i: nat | i < |x| :: Diff.SameStep(x, y, i))
            && (forall i: nat | i < |x| :: Diff.IoKeys(Diff.AuditValue(Diff.At(x, i))) == Diff.IoKeys(Diff.AuditValue(Diff.At(y, i))))
  {
    hide EntryJson, Diff.NormalizeEntry, Diff.IoKeys;
    var x, y := TraceItems(t, a.trace), TraceItems(t, b.trace);
    forall i: nat | i < |x|
      ensures Diff.SameStep(x, y, i)
      ensures Diff.IoKeys(Diff.AuditValue(Diff.At(x, i))) == Diff.IoKeys(Diff.AuditValue(Diff.At(y, i)))
    {
      assert SameButTime(a.trace[i], b.trace[i]);
      TimeIsVolatile(t, a.trace[i], b.trace[i]);
      EmittedAudit(t, a.trace[i]);
      EmittedAudit(t, b.trace[i]);
    }
  }

  // Any agent, actions, setup and validator: a second run of the same episode, at another
  // time and under another run id, differs from the first in no step and in no access.
  lemma RerunDiffsEmpty<W>(o: Oracles<W>, t: Task, s1: Session, s2: Session, state: W)
    requires RunTask(o, t, s1.clock, state).Finished?
    ensures RunTask(o, t, s2.clock, state).Finished?
    ensures var a := ArtifactJson(t, s1, RunTask(o, t, s1.clock, state).art);
            var b := ArtifactJson(t, s2, RunTask(o, t, s2.clock, state).art);
            var x, y := TraceOf(a), TraceOf(b);
            var n := Diff.Longer(x, y);
            && Diff.RunShaped(a) && Diff.RunShaped(b)
            && Diff.Diffs(x, y, n) == [] && Diff.NewAccesses(x, y, n) == 0 && Diff.NewAccesses(y, x, n) == 0
  {
    hide RunTask, ArtifactJson, Diff.SameStep, Diff.RunShaped, Diff.Diffs, SameResult, Diff.NewAccesses;
    var one, two := RunTask(o, t, s1.clock, state), RunTask(o, t, s2.clock, state);
    RerunSameEnd(o, t, s1.clock, s2.clock, state);
    EmittedDiffable(t, s1, one.art);
    EmittedDiffable(t, s2, two.art);
    SameResultSameSteps(t, one.art, two.art);
    var x, y := TraceItems(t, one.art.trace), TraceItems(t, two.art.trace);
    NoNewAccesses(x, y, |x|);
    Diff.NoDiffsIffSame(x, y, |x|);
  }

  lemma {:induction false} NoNewAccesses(a: seq<Json>, b: seq<Json>, n: nat)
    requires forall i: nat | i < n :: Diff.IoKeys(Diff.AuditValue(Diff.At(a, i))) == Diff.IoKeys(Diff.AuditValue(Diff.At(b, i)))
    ensures Diff.NewAccesses(a, b, n) == 0 && Diff.NewAccesses(b, a, n) == 0
  {
    hide Diff.IoKeys, Diff.AuditValue, Diff.At;
    if n > 0 {
      NoNewAccesses(a, b, n - 1);
      Diff.NothingNew(Diff.IoKeys(Diff.AuditValue(Diff.At(a, n - 1))), Diff.IoKeys(Diff.AuditValue(Diff.At(b, n - 1))));
    }
  }

  // Runs that the replay check accepts have no audit delta in any step: what the diff still
  // reports of them is confined to the observations and extra keys of the entries.
  lemma AgreeingRunsShareAudits(a: Json, b: Json)
    requires Replay.RunShaped(a) && Replay.RunShaped(b)
    requires Replay.Agrees(Replay.RunView(a), Replay.RunView(b))
    ensures var x, y := TraceOf(a), TraceOf(b);
            && |x| == |y|
            && Diff.NewAccesses(x, y, |x|) == 0 && Diff.NewAccesses(y, x, |x|) == 0
            && forall i: nat | i < |x| :: Diff.DeltaAt(x, y, i) == None && x[i].Get("result") == y[i].Get("result")
  {
    hide Diff.IoKeys, Diff.NewAccesses, AllAllowed, ListsOfText;
    var x, y := TraceOf(a), TraceOf(b);
    forall i: nat | i < |x| ensures Diff.AuditValue(Diff.At(x, i)) == Diff.AuditValue(Diff.At(y, i)) && x[i].Get("result") == y[i].Get("result") {
      assert Replay.StepAgrees(x[i], y[i], Replay.RunView(a).sandbox);
    }
    NoNewAccesses(x, y, |x|);
  }
}
