// agent_bench/runner/bundle.py: writing a baseline bundle and verifying one.
module Bundle {
  import opened Values
  import opened Text
  import opened Artifacts
  import Order
  import Network
  import Paths

  // A line of tool_calls.jsonl as json.loads sees it.
  datatype Line = Row(row: Json) | Blank | Garbled

  // The contents of a file of the bundle directory. Of tool_calls.jsonl the lines are what
  // iterating over the file gives, the pieces what splitlines makes of its text.
  datatype Doc = Document(json: Json) | Rows(lines: seq<Line>, pieces: seq<Line>) | Digests(text: seq<string>)

  // SHA-256 of a file, kept uninterpreted: hexadecimal text without a space.
  ghost predicate HexDigest(sha: Doc -> string)
  {
    forall d :: sha(d) != "" && forall i | 0 <= i < |sha(d)| :: !IsSpace(sha(d)[i])
  }

  const MANIFEST := "manifest.json"
  const TOOL_CALLS := "tool_calls.jsonl"
  const VALIDATOR := "validator.json"
  const INTEGRITY := "integrity.sha256"
  const SIGNATURE := "signature.json"
  const HASHED := [MANIFEST, TOOL_CALLS, VALIDATOR]

  // ---- what is written -----------------------------------------------------------------

  // The manifest fields that are copied from the run, absent ones as None.
  const COPIED: set<string> := {
    "run_id", "trace_id", "agent", "task_ref", "task_id", "version", "seed", "harness_version", "started_at", "completed_at",
    "success", "termination_reason", "failure_type", "failure_reason", "steps_used", "tool_calls_used", "sandbox"}

  function ManifestOf(r: Json): Json
  {
    Obj((map k | k in COPIED :: r.Get(k)) + map["trace_entry_count" := Int(|TraceOf(r)|)])
  }

  function RowOf(entry: Json): (row: Json)
    ensures row.Obj?
  {
    Obj(map[
      "step" := entry.Get("step"),
      "action_ts" := entry.Get("action_ts"),
      "action" := entry.Get("action"),
      "result" := entry.Get("result"),
      "io_audit" := entry.GetOr("io_audit", Arr([])),
      "budget_after_step" := entry.Get("budget_after_step"),
      "budget_delta" := entry.Get("budget_delta")])
  }

  function RowLines(trace: seq<Json>): (lines: seq<Line>)
    ensures |lines| == |trace|
    ensures forall i | 0 <= i < |trace| :: lines[i] == Row(RowOf(trace[i]))
  {
    seq(|trace|, i requires 0 <= i < |trace| => Row(RowOf(trace[i])))
  }

  // A row that holds a line separator falls apart into pieces of which none is the row.
  function PieceOf(row: Json): Line
  {
    if LineSafe(row) then Row(row) else Garbled
  }

  function RowPieces(trace: seq<Json>): (pieces: seq<Line>)
    ensures |pieces| == |trace|
    ensures forall i | 0 <= i < |trace| :: pieces[i] == PieceOf(RowOf(trace[i]))
  {
    seq(|trace|, i requires 0 <= i < |trace| => PieceOf(RowOf(trace[i])))
  }

  function RowsDoc(trace: seq<Json>): Doc
  {
    Rows(RowLines(trace), RowPieces(trace))
  }

  function ValidatorOf(r: Json): Json
  {
    Obj(map[
      "success" := r.Get("success"),
      "termination_reason" := r.Get("termination_reason"),
      "failure_type" := r.Get("failure_type"),
      "failure_reason" := r.Get("failure_reason"),
      "metrics" := r.GetOr("metrics", Obj(map[]))])
  }

  function DigestLine(digest: string, name: string): string
  {
    digest + "  " + name
  }

  // The directory after write_bundle into a directory that holds before.
  function Written(sha: Doc -> string, before: map<string, Doc>, r: Json): map<string, Doc>
  {
    var manifest, rows, validator := Document(ManifestOf(r)), RowsDoc(TraceOf(r)), Document(ValidatorOf(r));
    before[MANIFEST := manifest][TOOL_CALLS := rows][VALIDATOR := validator][INTEGRITY :=
      Digests([DigestLine(sha(manifest), MANIFEST), DigestLine(sha(rows), TOOL_CALLS), DigestLine(sha(validator), VALIDATOR)])]
  }

  // An Ed25519 key pair, kept uninterpreted: the hexadecimal signature of the digest lines and
  // the public key.
  datatype Signer = Signer(sign: seq<string> -> string, publicKey: string)

  function SignatureOf(signer: Signer, lines: seq<string>): Json
  {
    Obj(map["signed_file" := Str(INTEGRITY), "algorithm" := Str("ed25519"), "signature_hex" := Str(signer.sign(lines)),
            "public_key_pem" := Str(signer.publicKey)])
  }

  function SignedManifest(m: Json): Json
    requires m.Obj?
  {
    m.Put("signed", Bool(true)).Put("signature_algorithm", Str("ed25519")).Put("signature_file", Str(SIGNATURE))
  }

  // The files sign_bundle reads and digests again.
  predicate Signable(files: map<string, Doc>)
  {
    && INTEGRITY in files && files[INTEGRITY].Digests?
    && MANIFEST in files && files[MANIFEST].Document? && files[MANIFEST].json.Obj?
    && TOOL_CALLS in files && VALIDATOR in files
  }

  // The directory after sign_bundle: the digests as they were are signed, then the manifest
  // is marked and the digests are written anew.
  function Signed(sha: Doc -> string, signer: Signer, files: map<string, Doc>): map<string, Doc>
    requires Signable(files)
  {
    var manifest := Document(SignedManifest(files[MANIFEST].json));
    files[SIGNATURE := Document(SignatureOf(signer, files[INTEGRITY].text))][MANIFEST := manifest][INTEGRITY :=
      Digests([DigestLine(sha(manifest), MANIFEST), DigestLine(sha(files[TOOL_CALLS]), TOOL_CALLS),
               DigestLine(sha(files[VALIDATOR]), VALIDATOR)])]
  }

  lemma FileNamesDiffer()
    ensures Order.Distinct([MANIFEST, TOOL_CALLS, VALIDATOR, INTEGRITY, SIGNATURE])
  {
    assert |MANIFEST| == 13 && |TOOL_CALLS| == 16 && |VALIDATOR| == 14 && |INTEGRITY| == 16 && |SIGNATURE| == 14;
    assert TOOL_CALLS[0] == 't' && VALIDATOR[0] == 'v' && INTEGRITY[0] == 'i' && SIGNATURE[0] == 's';
  }

  // What the writers ask of a run result: a trace that is a list of dictionaries.
  predicate Writable(r: Json)
  {
    && r.Obj?
    && (r.Has("action_trace") ==> r.Get("action_trace").Arr?)
    && forall i | 0 <= i < |TraceOf(r)| :: TraceOf(r)[i].Obj?
  }

  // ---- what is verified ----------------------------------------------------------------

  // One stripped line of integrity.sha256 names an existing file and its digest.
  predicate LineHolds(sha: Doc -> string, files: map<string, Doc>, line: string)
  {
    var text := Strip(line);
    var parts := SplitOnce(text, "  ");
    text == "" || (parts.Some? && parts.value.1 in files && sha(files[parts.value.1]) == parts.value.0)
  }

  predicate RowAllowed(roots: seq<string>, allow: seq<string>, line: Line)
  {
    match line
    case Blank => true
    case Garbled => false
    case Row(row) => row.Get("io_audit").Arr? && AllAllowed(roots, allow, row.Get("io_audit").items)
  }

  predicate SandboxReadable(files: map<string, Doc>)
  {
    MANIFEST in files && files[MANIFEST].Document? && HasLists(files[MANIFEST].json.Get("sandbox"))
  }

  predicate DigestsHold(sha: Doc -> string, files: map<string, Doc>)
  {
    && INTEGRITY in files && files[INTEGRITY].Digests?
    && forall i | 0 <= i < |files[INTEGRITY].text| :: LineHolds(sha, files, files[INTEGRITY].text[i])
  }

  // The manifest declares a sandbox and every recorded access is inside it.
  predicate RecordsAllowed(files: map<string, Doc>)
    requires SandboxReadable(files) ==> ListsOfText(files[MANIFEST].json.Get("sandbox"))
  {
    && SandboxReadable(files)
    && TOOL_CALLS in files && files[TOOL_CALLS].Rows?
    && (var sandbox := files[MANIFEST].json.Get("sandbox");
        forall i | 0 <= i < |files[TOOL_CALLS].pieces| ::
          RowAllowed(DeclaredRoots(sandbox), DeclaredAllowlist(sandbox), files[TOOL_CALLS].pieces[i]))
  }

  // What verify_bundle stands for.
  predicate Sound(sha: Doc -> string, files: map<string, Doc>)
    requires SandboxReadable(files) ==> ListsOfText(files[MANIFEST].json.Get("sandbox"))
  {
    DigestsHold(sha, files) && RecordsAllowed(files)
  }

  // What verify_bundle reads without raising: the integrity file is text, and behind it the
  // manifest and the rows are dictionaries.
  predicate Readable(files: map<string, Doc>)
  {
    && (SandboxReadable(files) ==> ListsOfText(files[MANIFEST].json.Get("sandbox")))
    && (INTEGRITY in files ==>
          && files[INTEGRITY].Digests?
          && (MANIFEST in files && files[MANIFEST].Document? ==> files[MANIFEST].json.Obj?)
          && (SandboxReadable(files) && TOOL_CALLS in files && files[TOOL_CALLS].Rows? ==> RowsReadable(files[TOOL_CALLS].pieces)))
  }

  // verify_bundle neither raises nor finds an error.
  predicate Accepted(sha: Doc -> string, files: map<string, Doc>)
  {
    Readable(files) && Sound(sha, files)
  }

  predicate RowsReadable(lines: seq<Line>)
  {
    forall i | 0 <= i < |lines| :: lines[i].Row? ==> lines[i].row.Obj?
  }

  // ---- a bundle directory ----------------------------------------------------------------

  class BundleDir {
    var files: map<string, Doc>

    constructor (files: map<string, Doc>)
      ensures this.files == files
    {
      this.files := files;
    }

    method WriteManifest(r: Json)
      modifies this
      ensures files == old(files)[MANIFEST := Document(ManifestOf(r))]
    {
      files := files[MANIFEST := Document(ManifestOf(r))];
    }

    method WriteToolCalls(r: Json)
      requires Writable(r)
      modifies this
      ensures files == old(files)[TOOL_CALLS := RowsDoc(TraceOf(r))]
    {
      var trace := TraceOf(r);
      var lines: seq<Line>, pieces: seq<Line> := [], [];
      for i := 0 to |trace|
        invariant |lines| == |pieces| == i
        invariant forall k | 0 <= k < i :: lines[k] == Row(RowOf(trace[k])) && pieces[k] == PieceOf(RowOf(trace[k]))
        invariant files == old(files)
      {
        var row := RowOf(trace[i]);
        lines, pieces := lines + [Row(row)], pieces + [PieceOf(row)];
      }
      assert lines == RowLines(trace) && pieces == RowPieces(trace);
      files := files[TOOL_CALLS := Rows(lines, pieces)];
    }

    method WriteValidator(r: Json)
      modifies this
      ensures files == old(files)[VALIDATOR := Document(ValidatorOf(r))]
    {
      files := files[VALIDATOR := Document(ValidatorOf(r))];
    }

    method WriteIntegrity(sha: Doc -> string, names: seq<string>)
      requires forall i | 0 <= i < |names| :: names[i] in files
      modifies this
      ensures files.Keys == old(files).Keys + {INTEGRITY}
      ensures forall k | k in old(files) && k != INTEGRITY :: files[k] == old(files)[k]
      ensures files[INTEGRITY].Digests? && |files[INTEGRITY].text| == |names|
      ensures forall i | 0 <= i < |names| :: files[INTEGRITY].text[i] == DigestLine(sha(old(files)[names[i]]), names[i])
    {
      var text: seq<string> := [];
      for i := 0 to |names|
        invariant |text| == i && files == old(files)
        invariant forall k | 0 <= k < i :: text[k] == DigestLine(sha(files[names[k]]), names[k])
      {
        text := text + [DigestLine(sha(files[names[i]]), names[i])];
      }
      files := files[INTEGRITY := Digests(text)];
    }

    // write_bundle; false is the ValueError for a missing run_id.
    method Write(sha: Doc -> string, r: Json) returns (ok: bool)
      requires Writable(r)
      modifies this
      ensures ok == r.Get("run_id").Truthy()
      ensures files == if ok then Written(sha, old(files), r) else old(files)
    {
      ok := r.Get("run_id").Truthy();
      if !ok {
        return;
      }
      hide RowOf, ManifestOf, ValidatorOf;
      WriteManifest(r);
      WriteToolCalls(r);
      WriteValidator(r);
      ghost var plain := files;
      WriteIntegrity(sha, HASHED);
      assert files[INTEGRITY].text == [DigestLine(sha(plain[MANIFEST]), MANIFEST), DigestLine(sha(plain[TOOL_CALLS]), TOOL_CALLS),
                                       DigestLine(sha(plain[VALIDATOR]), VALIDATOR)];
      assert files == plain[INTEGRITY := files[INTEGRITY]];
    }

    // sign_bundle with a key that loads.
    method Sign(sha: Doc -> string, signer: Signer) returns (ok: bool)
      requires INTEGRITY in files ==> Signable(files)
      modifies this
      ensures ok == (INTEGRITY in old(files))
      ensures files == if ok then Signed(sha, signer, old(files)) else old(files)
    {
      ok := INTEGRITY in files;
      if !ok {
        return;
      }
      hide SignedManifest, SignatureOf;
      ghost var unsigned := files;
      FileNamesDiffer();
      files := files[SIGNATURE := Document(SignatureOf(signer, files[INTEGRITY].text))];
      files := files[MANIFEST := Document(SignedManifest(files[MANIFEST].json))];
      ghost var plain := files;
      WriteIntegrity(sha, HASHED);
      assert files[INTEGRITY].text == [DigestLine(sha(plain[MANIFEST]), MANIFEST), DigestLine(sha(plain[TOOL_CALLS]), TOOL_CALLS),
                                       DigestLine(sha(plain[VALIDATOR]), VALIDATOR)];
      assert files == plain[INTEGRITY := files[INTEGRITY]];
    }

    method CheckIntegrity(sha: Doc -> string) returns (errors: seq<string>)
      requires INTEGRITY in files && files[INTEGRITY].Digests?
      ensures errors == [] <==> forall i | 0 <= i < |files[INTEGRITY].text| :: LineHolds(sha, files, files[INTEGRITY].text[i])
    {
      hide Strip, SplitOnce;
      errors := [];
      var lines := files[INTEGRITY].text;
      for i := 0 to |lines|
        invariant errors == [] <==> forall k | 0 <= k < i :: LineHolds(sha, files, lines[k])
      {
        var text := Strip(lines[i]);
        if text == "" {
          continue;
        }
        var parts := SplitOnce(text, "  ");
        if parts.None? {
          errors := errors + ["malformed integrity line: " + text];
          continue;
        }
        var (digest, name) := parts.value;
        if name !in files {
          errors := errors + ["missing file: " + name];
          continue;
        }
        if sha(files[name]) != digest {
          errors := errors + ["hash mismatch for " + name];
        }
      }
    }

    method CheckRows(roots: seq<string>, allow: seq<string>) returns (errors: seq<string>)
      requires TOOL_CALLS in files && files[TOOL_CALLS].Rows?
      ensures errors == [] <==> forall i | 0 <= i < |files[TOOL_CALLS].pieces| :: RowAllowed(roots, allow, files[TOOL_CALLS].pieces[i])
    {
      errors := [];
      var lines := files[TOOL_CALLS].pieces;
      for i := 0 to |lines|
        invariant errors == [] <==> forall k | 0 <= k < i :: RowAllowed(roots, allow, lines[k])
      {
        var found := CheckLine(roots, allow, lines[i], NatText(i + 1));
        errors := errors + found;
      }
    }

    // verify_bundle
    method Verify(sha: Doc -> string) returns (ok: bool, errors: seq<string>)
      requires Readable(files)
      ensures ok == (errors == [])
      ensures ok == Sound(sha, files)
    {
      hide LineHolds, RowAllowed;
      if INTEGRITY !in files {
        return false, ["integrity.sha256 not found"];
      }
      errors := CheckIntegrity(sha);
      if MANIFEST !in files || !files[MANIFEST].Document? {
        return false, errors + ["failed to read manifest.json"];
      }
      var sandbox := files[MANIFEST].json.Get("sandbox");
      if !sandbox.Obj? {
        return false, errors + ["manifest missing sandbox declaration"];
      }
      if !sandbox.Get("filesystem_roots").Arr? || !sandbox.Get("network_hosts").Arr? {
        return false, errors + ["manifest sandbox must include filesystem_roots and network_hosts lists"];
      }
      if TOOL_CALLS !in files || !files[TOOL_CALLS].Rows? {
        return false, errors + ["failed to read tool_calls.jsonl"];
      }
      var found := CheckRows(DeclaredRoots(sandbox), DeclaredAllowlist(sandbox));
      errors := errors + found;
      ok := errors == [];
    }
  }

  method CheckLine(roots: seq<string>, allow: seq<string>, line: Line, at: string) returns (errors: seq<string>)
    ensures errors == [] <==> RowAllowed(roots, allow, line)
  {
    match line
    case Blank => errors := [];
    case Garbled => errors := ["tool_calls.jsonl line " + at + ": invalid JSON"];
    case Row(row) =>
      var audit := row.Get("io_audit");
      if audit.Null? {
        errors := ["tool_calls.jsonl line " + at + ": missing io_audit"];
      } else if !audit.Arr? {
        errors := ["tool_calls.jsonl line " + at + ": io_audit must be list"];
      } else {
        errors := CheckAudit(roots, allow, audit.items, "tool_calls.jsonl line " + at);
      }
  }

  // The loop over recorded accesses that verify_bundle and replay share.
  method CheckAudit(roots: seq<string>, allow: seq<string>, items: seq<Json>, place: string) returns (errors: seq<string>)
    ensures errors == [] <==> AllAllowed(roots, allow, items)
  {
    hide Network.Check;
    errors := [];
    for i := 0 to |items|
      invariant errors == [] <==> forall k | 0 <= k < i :: AuditAllowed(roots, allow, items[k])
    {
      var item := items[i];
      if !item.Obj? {
        errors := errors + [place + ": audit entry must be object"];
        continue;
      }
      if item.Get("type") == Str("fs") {
        if !item.Get("path").Str? {
          errors := errors + [place + ": fs audit missing path"];
          continue;
        }
        if !Paths.UnderRoots(roots, item.Get("path").s) {
          errors := errors + [place + ": fs audit path outside allowlist: " + item.Get("path").s];
        }
      } else if item.Get("type") == Str("net") {
        if !item.Get("host").Str? {
          errors := errors + [place + ": net audit missing host"];
          continue;
        }
        var checked := Network.Check(allow, item.Get("host").s);
        if checked.Err? {
          errors := errors + [place + ": " + checked.error];
        }
      } else {
        errors := errors + [place + ": unknown audit type"];
      }
    }
  }
}
