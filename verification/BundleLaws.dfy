// Bundles of emitted artifacts verify, and tampered bundles do not.
module BundleLaws {
  import opened Values
  import opened Text
  import opened EnvSpec
  import opened RunnerSpec
  import opened RunnerLaws
  import opened Artifacts
  import opened Bundle
  import Paths
  import Network

  // ---- digest lines ------------------------------------------------------------------

  lemma DigestLineShape(digest: string, name: string)
    requires digest != "" && forall i | 0 <= i < |digest| :: !IsSpace(digest[i])
    requires name != "" && !IsSpace(name[|name| - 1])
    ensures Strip(DigestLine(digest, name)) == DigestLine(digest, name)
    ensures SplitOnce(DigestLine(digest, name), "  ") == Some((digest, name))
  {
    hide LStrip, RStrip, FindFrom;
    var line := DigestLine(digest, name);
    assert line[0] == digest[0] && line[|line| - 1] == name[|name| - 1];
    StripNothing(line, IsSpace);
    forall j | 0 <= j < |digest| ensures !MatchAt(line, "  ", j) {
      if j + 2 <= |line| { assert line[j..j + 2][0] == digest[j]; }
    }
    assert line[|digest|..|digest| + 2] == "  ";
    assert MatchAt(line, "  ", |digest|);
    FindFirst(line, "  ", |digest|);
    assert line[..|digest|] == digest && line[|digest| + 2..] == name;
  }

  predicate NamedFile(name: string)
  {
    name == MANIFEST || name == TOOL_CALLS || name == VALIDATOR
  }

  // The line written for a file holds exactly when the file still has that digest.
  lemma DigestLineHolds(sha: Doc -> string, files: map<string, Doc>, doc: Doc, name: string)
    requires HexDigest(sha) && NamedFile(name)
    ensures LineHolds(sha, files, DigestLine(sha(doc), name)) <==> name in files && sha(files[name]) == sha(doc)
  {
    hide Strip, SplitOnce;
    DigestLineShape(sha(doc), name);
  }

  // ---- written bundles -----------------------------------------------------------------

  // The part of soundness that the written rows decide: each stays one line and is inside
  // the sandbox.
  predicate RowsAllowed(r: Json)
    requires HasLists(r.Get("sandbox")) && ListsOfText(r.Get("sandbox"))
  {
    var sandbox := r.Get("sandbox");
    forall i | 0 <= i < |TraceOf(r)| ::
      && LineSafe(RowOf(TraceOf(r)[i]))
      && RowAllowed(DeclaredRoots(sandbox), DeclaredAllowlist(sandbox), Row(RowOf(TraceOf(r)[i])))
  }

  // A directory whose integrity file holds the digests of the three hashed files.
  predicate Digested(sha: Doc -> string, files: map<string, Doc>)
  {
    && Signable(files)
    && files[INTEGRITY].text == [DigestLine(sha(files[MANIFEST]), MANIFEST), DigestLine(sha(files[TOOL_CALLS]), TOOL_CALLS),
                                 DigestLine(sha(files[VALIDATOR]), VALIDATOR)]
  }

  lemma DigestedHolds(sha: Doc -> string, files: map<string, Doc>)
    requires HexDigest(sha) && Digested(sha, files)
    ensures DigestsHold(sha, files)
  {
    hide LineHolds, HexDigest, DigestLine;
    DigestLineHolds(sha, files, files[MANIFEST], MANIFEST);
    DigestLineHolds(sha, files, files[TOOL_CALLS], TOOL_CALLS);
    DigestLineHolds(sha, files, files[VALIDATOR], VALIDATOR);
  }

  lemma WrittenDigested(sha: Doc -> string, before: map<string, Doc>, r: Json)
    ensures var files := Written(sha, before, r);
            && Digested(sha, files)
            && files[MANIFEST] == Document(ManifestOf(r)) && ManifestOf(r).Obj? && files[TOOL_CALLS] == RowsDoc(TraceOf(r))
            && files[VALIDATOR] == Document(ValidatorOf(r))
  {
    hide DigestLine, RowsDoc, ValidatorOf;
    assert ManifestOf(r).Obj?;
    hide ManifestOf;
    FileNamesDiffer();
    var names := [MANIFEST, TOOL_CALLS, VALIDATOR, INTEGRITY, SIGNATURE];
    assert names[0] == MANIFEST && names[1] == TOOL_CALLS && names[2] == VALIDATOR && names[3] == INTEGRITY;
  }

  // A bundle as written verifies exactly when it declares a sandbox, its rows stay inside
  // and none of them holds a line separator.
  lemma WrittenSound(sha: Doc -> string, before: map<string, Doc>, r: Json)
    requires HexDigest(sha) && ListsOfText(r.Get("sandbox"))
    ensures Readable(Written(sha, before, r))
    ensures Sound(sha, Written(sha, before, r)) <==> HasLists(r.Get("sandbox")) && RowsAllowed(r)
  {
    hide DigestsHold, DigestLine, RowOf, HexDigest, LineSafe, AllAllowed, ManifestOf, ValidatorOf, Written;
    var files := Written(sha, before, r);
    WrittenDigested(sha, before, r);
    DigestedHolds(sha, files);
    ManifestCopies(r, "sandbox");
    assert files[TOOL_CALLS].pieces == RowPieces(TraceOf(r));
  }

  // Changing any of the three hashed files to one with another digest is detected.
  lemma TamperingDetected(sha: Doc -> string, before: map<string, Doc>, r: Json, name: string, doc: Doc)
    requires HexDigest(sha) && NamedFile(name)
    requires sha(doc) != sha(Written(sha, before, r)[name])
    requires Readable(Written(sha, before, r)[name := doc])
    ensures !Sound(sha, Written(sha, before, r)[name := doc])
  {
    hide LineHolds, RowAllowed, RowOf, HexDigest, ManifestOf, ValidatorOf, RowLines, HasLists, ListsOfText, AllAllowed;
    var files := Written(sha, before, r);
    DigestLineHolds(sha, files[name := doc], files[name], name);
    var text := files[name := doc][INTEGRITY].text;
    assert text[0] == DigestLine(sha(files[MANIFEST]), MANIFEST);
    assert text[1] == DigestLine(sha(files[TOOL_CALLS]), TOOL_CALLS);
    assert text[2] == DigestLine(sha(files[VALIDATOR]), VALIDATOR);
  }

  // The manifest holds each copied field as the run has it.
  lemma ManifestCopies(r: Json, key: string)
    requires key in COPIED
    ensures ManifestOf(r).Get(key) == r.Get(key)
  {
    assert |key| != 17;
    assert |"trace_entry_count"| == 17;
  }

  // ---- emitted bundles -----------------------------------------------------------------

  lemma EmittedFields(t: Task, s: Session, a: Artifact)
    ensures var r := ArtifactJson(t, s, a);
            && r.Get("sandbox") == SandboxJson(t)
            && TraceOf(r) == TraceItems(t, a.trace)
            && r.Get("run_id") == Str(s.runId)
            && Writable(r)
  {
  }

  lemma RowOfEntry(t: Task, e: Entry)
    ensures RowOf(EntryJson(t, e)).Get("io_audit") == Arr(AuditItems(e.audit))
  {
  }

  lemma AuditSafeIff(e: AuditEntry)
    ensures LineSafe(AuditJson(e)) <==> AuditSafe(e)
  {
    var j := AuditJson(e);
    match e
    case Fs(op, path) => assert j.fields["op"] == Str(op) && j.fields["path"] == Str(path) && j.fields["type"] == Str("fs");
    case Net(host) => assert j.fields["host"] == Str(host) && j.fields["type"] == Str("net");
  }

  lemma CountsSafe(steps: int, calls: int)
    ensures LineSafe(BudgetJson(steps, calls))
  {
  }

  // The row of an entry stays one line exactly when its texts do.
  lemma EntrySafeIff(t: Task, e: Entry)
    ensures LineSafe(RowOf(EntryJson(t, e))) <==> EntrySafe(e)
  {
    hide OneLine, AuditSafe, AuditJson, BudgetJson, ObservationJson;
    RowTexts(t, e);
    CountsSafe(e.stepsAfter, e.callsAfter);
    CountsSafe(e.stepsDelta, e.callsDelta);
    forall k | 0 <= k < |e.audit| ensures LineSafe(AuditItems(e.audit)[k]) <==> AuditSafe(e.audit[k]) {
      AuditSafeIff(e.audit[k]);
    }
  }

  lemma RowKeysSafe()
    ensures OneLine("step") && OneLine("action_ts") && OneLine("action") && OneLine("result") && OneLine("io_audit")
    ensures OneLine("budget_after_step") && OneLine("budget_delta")
  {
  }

  lemma RowTexts(t: Task, e: Entry)
    ensures LineSafe(RowOf(EntryJson(t, e))) <==>
              && OneLine(e.ts) && LineSafe(e.action) && LineSafe(e.result) && LineSafe(Arr(AuditItems(e.audit)))
              && LineSafe(BudgetJson(e.stepsAfter, e.callsAfter)) && LineSafe(BudgetJson(e.stepsDelta, e.callsDelta))
  {
    hide OneLine, BudgetJson, ObservationJson, AuditItems;
    RowKeysSafe();
    var row := RowOf(EntryJson(t, e));
    var audit, after, delta := Arr(AuditItems(e.audit)), BudgetJson(e.stepsAfter, e.callsAfter), BudgetJson(e.stepsDelta, e.callsDelta);
    assert row == Obj(map["step" := Int(e.step), "action_ts" := Str(e.ts), "action" := e.action, "result" := e.result,
                          "io_audit" := audit, "budget_after_step" := after, "budget_delta" := delta]);
    hide RowOf, EntryJson;
    FieldsSafe(e.step, Str(e.ts), e.action, e.result, audit, after, delta);
  }

  lemma FieldsSafe(step: int, ts: Json, action: Json, result: Json, audit: Json, after: Json, delta: Json)
    ensures LineSafe(Obj(map["step" := Int(step), "action_ts" := ts, "action" := action, "result" := result,
                             "io_audit" := audit, "budget_after_step" := after, "budget_delta" := delta]))
            <==> LineSafe(ts) && LineSafe(action) && LineSafe(result) && LineSafe(audit) && LineSafe(after) && LineSafe(delta)
  {
    RowKeysSafe();
    hide OneLine;
    var fields := map["step" := Int(step), "action_ts" := ts, "action" := action, "result" := result,
                      "io_audit" := audit, "budget_after_step" := after, "budget_delta" := delta];
    assert LineSafe(Obj(fields)) == forall k | k in fields :: OneLine(k) && LineSafe(fields[k]);
    assert "action_ts" in fields && "action" in fields && "result" in fields && "io_audit" in fields
           && "budget_after_step" in fields && "budget_delta" in fields;
    assert LineSafe(Int(step));
  }

  // The bundle of an artifact verifies exactly when every access it records is allowed and
  // no text in its rows holds a line separator.
  lemma EmittedSound(sha: Doc -> string, before: map<string, Doc>, t: Task, s: Session, a: Artifact)
    requires HexDigest(sha)
    ensures Readable(Written(sha, before, ArtifactJson(t, s, a)))
    ensures Sound(sha, Written(sha, before, ArtifactJson(t, s, a))) <==> TraceAllowed(t, a.trace) && TraceSafe(a.trace)
  {
    hide Sound, Written, ArtifactJson, SandboxJson, HexDigest, EntryJson, RowOf, AuditAllowed, AuditJson, EntrySafe, LineSafe, Readable;
    var r := ArtifactJson(t, s, a);
    EmittedFields(t, s, a);
    SandboxReadsBack(t);
    WrittenSound(sha, before, r);
    forall i | 0 <= i < |a.trace|
      ensures LineSafe(RowOf(TraceOf(r)[i])) <==> EntrySafe(a.trace[i])
      ensures RowAllowed(t.roots, Network.Allowlist(t.hosts), Row(RowOf(TraceOf(r)[i])))
              <==> forall k | 0 <= k < |a.trace[i].audit| :: AllowedOffline(t, a.trace[i].audit[k])
    {
      RowOfEntry(t, a.trace[i]);
      EntrySafeIff(t, a.trace[i]);
      assert |AuditItems(a.trace[i].audit)| == |a.trace[i].audit|;
    }
  }

  // ---- signed bundles ----------------------------------------------------------------------

  lemma ManifestMarked(m: Json, key: string)
    requires m.Obj? && key != "signed" && key != "signature_algorithm" && key != "signature_file"
    ensures SignedManifest(m).Get(key) == m.Get(key)
  {
  }

  lemma SignedDigested(sha: Doc -> string, signer: Signer, files: map<string, Doc>)
    requires Signable(files)
    ensures var signed := Signed(sha, signer, files);
            && Digested(sha, signed)
            && signed[MANIFEST] == Document(SignedManifest(files[MANIFEST].json))
            && signed[TOOL_CALLS] == files[TOOL_CALLS] && signed[VALIDATOR] == files[VALIDATOR]
            && SIGNATURE in signed && signed[SIGNATURE] == Document(SignatureOf(signer, files[INTEGRITY].text))
  {
    hide SignatureOf, DigestLine;
    FileNamesDiffer();
    var names := [MANIFEST, TOOL_CALLS, VALIDATOR, INTEGRITY, SIGNATURE];
    assert names[0] == MANIFEST && names[1] == TOOL_CALLS && names[2] == VALIDATOR && names[3] == INTEGRITY && names[4] == SIGNATURE;
  }

  // Signing a written bundle changes no verdict of verify_bundle.
  lemma SignedSound(sha: Doc -> string, signer: Signer, before: map<string, Doc>, r: Json)
    requires HexDigest(sha) && ListsOfText(r.Get("sandbox"))
    ensures var files := Written(sha, before, r);
            && Signable(files) && Readable(files) && Readable(Signed(sha, signer, files))
            && (Sound(sha, Signed(sha, signer, files)) <==> Sound(sha, files))
  {
    hide DigestsHold, RowAllowed, HexDigest, ManifestOf, ValidatorOf, SignedManifest, RowsDoc, RowsAllowed, Written, Signed, DigestLine;
    var files := Written(sha, before, r);
    WrittenSound(sha, before, r);
    WrittenDigested(sha, before, r);
    SignedDigested(sha, signer, files);
    ManifestMarked(ManifestOf(r), "sandbox");
    DigestedHolds(sha, files);
    DigestedHolds(sha, Signed(sha, signer, files));
  }

  // The signature covers the digests from before the manifest was marked: it is the signature
  // of the file beside it exactly when marking did not change the manifest's digest.
  lemma SignatureCoversOldDigests(sha: Doc -> string, signer: Signer, before: map<string, Doc>, r: Json)
    ensures Signable(Written(sha, before, r))
    ensures var files := Written(sha, before, r);
            var signed := Signed(sha, signer, files);
            && signed[SIGNATURE].json.Get("signature_hex") == Str(signer.sign(files[INTEGRITY].text))
            && (signed[INTEGRITY].text == files[INTEGRITY].text <==> sha(signed[MANIFEST]) == sha(files[MANIFEST]))
  {
    hide ManifestOf, ValidatorOf, SignedManifest, RowsDoc, Written, Signed;
    var files := Written(sha, before, r);
    WrittenDigested(sha, before, r);
    SignedDigested(sha, signer, files);
    var signed := Signed(sha, signer, files);
    var one, two := DigestLine(sha(files[MANIFEST]), MANIFEST), DigestLine(sha(signed[MANIFEST]), MANIFEST);
    assert files[INTEGRITY].text[0] == one && signed[INTEGRITY].text[0] == two;
    if one == two {
      assert sha(files[MANIFEST]) == one[..|one| - |MANIFEST| - 2] && sha(signed[MANIFEST]) == two[..|two| - |MANIFEST| - 2];
    }
  }

  // ---- what is copied, what is asked ---------------------------------------------------------

  // The manifest: these fields of the run, the number of its entries, and nothing else.
  lemma ManifestMeans(r: Json, key: string)
    ensures ManifestOf(r).GetOr(key, Null) ==
              if key in ["run_id", "trace_id", "agent", "task_ref", "task_id", "version", "seed", "harness_version", "started_at",
                         "completed_at", "success", "termination_reason", "failure_type", "failure_reason", "steps_used",
                         "tool_calls_used", "sandbox"] then r.Get(key)
              else if key == "trace_entry_count" then Int(|TraceOf(r)|) else Null
  {
  }

  // A row: these fields of the entry and nothing else; a missing audit counts as empty.
  lemma RowMeans(entry: Json, key: string)
    ensures RowOf(entry).GetOr(key, Null) ==
              if key in ["step", "action_ts", "action", "result", "budget_after_step", "budget_delta"] then entry.Get(key)
              else if key == "io_audit" then entry.GetOr("io_audit", Arr([])) else Null
  {
  }

  lemma ValidatorMeans(r: Json, key: string)
    ensures ValidatorOf(r).GetOr(key, Null) ==
              if key in ["success", "termination_reason", "failure_type", "failure_reason"] then r.Get(key)
              else if key == "metrics" then r.GetOr("metrics", Obj(map[])) else Null
  {
  }

  // An audit item passes exactly when it names a path under a root or a host the guard takes.
  lemma AllowedMeans(roots: seq<string>, allow: seq<string>, item: Json)
    ensures AuditAllowed(roots, allow, item) <==>
              || (item.Get("type") == Str("fs") && item.Get("path").Str?
                  && exists root <- roots :: Paths.UnderRoot(root, item.Get("path").s))
              || (item.Get("type") == Str("net") && item.Get("host").Str? && Network.Check(allow, item.Get("host").s).Ok?)
  {
    hide Network.Check, Paths.UnderRoot;
    if item.Get("path").Str? && exists root <- roots :: Paths.UnderRoot(root, item.Get("path").s) {
      var root :| root in roots && Paths.UnderRoot(root, item.Get("path").s);
      var i :| 0 <= i < |roots| && roots[i] == root;
      assert Paths.UnderRoot(roots[i], item.Get("path").s);
    }
  }

  // What verify_bundle asks of a line of integrity.sha256: nothing of a blank one, of any other
  // a digest, two spaces and the name of a file with that digest.
  lemma LineHoldsIff(sha: Doc -> string, files: map<string, Doc>, line: string)
    requires HexDigest(sha)
    ensures LineHolds(sha, files, line) <==>
              Strip(line) == "" || exists name :: name in files && Strip(line) == sha(files[name]) + "  " + name
  {
    hide Strip, FindFrom;
    var text := Strip(line);
    if text != "" && LineHolds(sha, files, line) {
      var cut := Find(text, "  ");
      assert text == text[..cut] + "  " + text[cut + 2..];
    }
    if exists name :: name in files && text == sha(files[name]) + "  " + name {
      var name :| name in files && text == sha(files[name]) + "  " + name;
      DigestSplits(sha(files[name]), name);
    }
  }

  lemma DigestSplits(digest: string, name: string)
    requires forall i | 0 <= i < |digest| :: !IsSpace(digest[i])
    ensures SplitOnce(digest + "  " + name, "  ") == Some((digest, name))
  {
    hide FindFrom;
    var line := digest + "  " + name;
    forall j | 0 <= j < |digest| ensures !MatchAt(line, "  ", j) {
      if j + 2 <= |line| { assert line[j..j + 2][0] == digest[j]; }
    }
    assert line[|digest|..|digest| + 2] == "  ";
    FindFirst(line, "  ", |digest|);
    assert line[..|digest|] == digest && line[|digest| + 2..] == name;
  }

  // A row that verify_bundle lets pass: blank, or JSON with an audit list of allowed accesses.
  predicate RowPasses(roots: seq<string>, allow: seq<string>, line: Line)
  {
    line == Blank
    || (line.Row? && line.row.Get("io_audit").Arr? && forall item <- line.row.Get("io_audit").items :: AuditAllowed(roots, allow, item))
  }

  // verify_bundle accepts exactly the directories with a digest file whose every line holds, a
  // manifest that declares both sandbox lists, and a call log whose every row passes under them.
  lemma SoundIff(sha: Doc -> string, files: map<string, Doc>)
    requires Readable(files)
    ensures Sound(sha, files) <==>
              && INTEGRITY in files && files[INTEGRITY].Digests?
              && (forall line <- files[INTEGRITY].text :: LineHolds(sha, files, line))
              && MANIFEST in files && files[MANIFEST].Document?
              && (var sandbox := files[MANIFEST].json.Get("sandbox");
                  && sandbox.Get("filesystem_roots").Arr? && sandbox.Get("network_hosts").Arr?
                  && StringList(sandbox.Get("filesystem_roots")) && StringList(sandbox.Get("network_hosts"))
                  && TOOL_CALLS in files && files[TOOL_CALLS].Rows?
                  && forall piece <- files[TOOL_CALLS].pieces ::
                    RowPasses(Strings(sandbox.Get("filesystem_roots").items), Network.Allowlist(Strings(sandbox.Get("network_hosts").items)), piece))
  {
    hide LineHolds, AuditAllowed, RowsReadable, Network.Allowlist;
    if SandboxReadable(files) && TOOL_CALLS in files && files[TOOL_CALLS].Rows? {
      var sandbox, pieces := files[MANIFEST].json.Get("sandbox"), files[TOOL_CALLS].pieces;
      forall i | 0 <= i < |pieces|
        ensures RowAllowed(DeclaredRoots(sandbox), DeclaredAllowlist(sandbox), pieces[i])
                <==> RowPasses(DeclaredRoots(sandbox), DeclaredAllowlist(sandbox), pieces[i])
      {
        RowPassesIff(DeclaredRoots(sandbox), DeclaredAllowlist(sandbox), pieces[i]);
      }
      EveryPiece(DeclaredRoots(sandbox), DeclaredAllowlist(sandbox), pieces);
    }
    hide RowAllowed, RowPasses;
  }

  lemma EveryPiece(roots: seq<string>, allow: seq<string>, pieces: seq<Line>)
    ensures (forall piece <- pieces :: RowPasses(roots, allow, piece)) <==> forall i | 0 <= i < |pieces| :: RowPasses(roots, allow, pieces[i])
  {
    hide RowPasses;
  }

  lemma RowPassesIff(roots: seq<string>, allow: seq<string>, line: Line)
    ensures RowAllowed(roots, allow, line) <==> RowPasses(roots, allow, line)
  {
    hide AuditAllowed;
  }

  // Taking a hashed file away is detected as well.
  lemma RemovalDetected(sha: Doc -> string, before: map<string, Doc>, r: Json, name: string)
    requires HexDigest(sha) && NamedFile(name)
    requires Readable(Written(sha, before, r) - {name})
    ensures !Sound(sha, Written(sha, before, r) - {name})
  {
    hide LineHolds, RecordsAllowed, HexDigest, ManifestOf, ValidatorOf, RowsDoc, Readable;
    var files := Written(sha, before, r);
    FileNamesDiffer();
    var names := [MANIFEST, TOOL_CALLS, VALIDATOR, INTEGRITY];
    assert names[0] == MANIFEST && names[1] == TOOL_CALLS && names[2] == VALIDATOR && names[3] == INTEGRITY;
    DigestLineHolds(sha, files - {name}, files[name], name);
    var text := (files - {name})[INTEGRITY].text;
    assert text[0] == DigestLine(sha(files[MANIFEST]), MANIFEST);
    assert text[1] == DigestLine(sha(files[TOOL_CALLS]), TOOL_CALLS);
    assert text[2] == DigestLine(sha(files[VALIDATOR]), VALIDATOR);
  }

  // Writing and signing touch the bundle's own files only.
  lemma OtherFilesKept(sha: Doc -> string, signer: Signer, before: map<string, Doc>, r: Json, name: string)
    requires name !in ["manifest.json", "tool_calls.jsonl", "validator.json", "integrity.sha256"]
    ensures var files := Written(sha, before, r);
            && (name in files <==> name in before) && (name in before ==> files[name] == before[name])
            && (Signable(files) && name != "signature.json" ==>
                  var signed := Signed(sha, signer, files);
                  (name in signed <==> name in before) && (name in before ==> signed[name] == before[name]))
  {
    hide ManifestOf, ValidatorOf, RowsDoc, SignedManifest, SignatureOf, DigestLine;
  }

  // What signing writes down.
  lemma SignedMeans(signer: Signer, lines: seq<string>, m: Json)
    requires m.Obj?
    ensures SignedManifest(m).Get("signed") == Bool(true) && SignedManifest(m).Get("signature_algorithm") == Str("ed25519")
    ensures SignedManifest(m).Get("signature_file") == Str("signature.json")
    ensures var s := SignatureOf(signer, lines);
            && s.Get("signed_file") == Str("integrity.sha256") && s.Get("algorithm") == Str("ed25519")
            && s.Get("signature_hex") == Str(signer.sign(lines)) && s.Get("public_key_pem") == Str(signer.publicKey)
  {
  }
}
