// agent_bench/leaderboard.py: submissions and their index.
module Leaderboard {
  import opened Values
  import opened Text
  import opened Order
  import opened Bundle

  // A submission file. run holds the manifest fields that are copied.
  datatype Submission = Submission(
    runId: string,
    traceId: string,
    agent: string,
    taskRef: string,
    ingestedAt: string,
    bundleDir: string,
    run: Json,
    validator: Json,
    algorithm: string,
    signatureHex: string,
    publicKey: string,
    signedFile: Json,
    verified: (bool, seq<string>))

  datatype IndexEntry = IndexEntry(
    submissionId: string,
    runId: string,
    agent: string,
    taskRef: string,
    success: Json,
    ingestedAt: string,
    file: string)

  // ---- building a record ---------------------------------------------------------------

  // _require_str: text that is not blank.
  function RequireStr(doc: Json, key: string): Option<string>
  {
    if doc.Get(key).Str? && Strip(doc.Get(key).s) != "" then Some(doc.Get(key).s) else None
  }

  predicate HoldsJson(files: map<string, Doc>, name: string)
  {
    name in files && files[name].Document?
  }

  const IDENTITY := ["run_id", "trace_id", "agent", "task_ref"]
  const PROVENANCE := ["algorithm", "signature_hex", "public_key_pem"]

  // A verified bundle with a signature and the identifying fields.
  predicate Submittable(sha: Doc -> string, files: map<string, Doc>)
    requires Readable(files)
  {
    && Sound(sha, files)
    && HoldsJson(files, MANIFEST) && HoldsJson(files, VALIDATOR) && HoldsJson(files, SIGNATURE)
    && (forall key <- IDENTITY :: RequireStr(files[MANIFEST].json, key).Some?)
    && (forall key <- PROVENANCE :: RequireStr(files[SIGNATURE].json, key).Some?)
  }

  function TextAt(doc: Json, key: string): string
  {
    if doc.Get(key).Str? then doc.Get(key).s else ""
  }

  const RUN_KEYS: set<string> :=
    {"run_id", "trace_id", "agent", "task_ref", "task_id", "version", "seed", "harness_version", "started_at", "completed_at",
     "success", "termination_reason", "failure_type", "failure_reason", "steps_used", "tool_calls_used", "trace_entry_count",
     "sandbox"}

  function RunOf(manifest: Json): Json
  {
    Obj(map k | k in RUN_KEYS :: manifest.Get(k))
  }

  // The record of the bundle in a directory that verified without errors.
  function Record(place: string, manifest: Json, validator: Json, signature: Json, now: string): Submission
  {
    Submission(TextAt(manifest, "run_id"), TextAt(manifest, "trace_id"), TextAt(manifest, "agent"), TextAt(manifest, "task_ref"),
               now, place, RunOf(manifest), validator, TextAt(signature, "algorithm"), TextAt(signature, "signature_hex"),
               TextAt(signature, "public_key_pem"), signature.Get("signed_file"), (true, []))
  }

  function RecordOf(place: string, files: map<string, Doc>, now: string): Submission
    requires HoldsJson(files, MANIFEST) && HoldsJson(files, VALIDATOR) && HoldsJson(files, SIGNATURE)
  {
    Record(place, files[MANIFEST].json, files[VALIDATOR].json, files[SIGNATURE].json, now)
  }

  // build_submission_record; the error is the exception.
  method BuildSubmissionRecord(dir: BundleDir, place: string, sha: Doc -> string, now: string) returns (r: Result<Submission, string>)
    requires Readable(dir.files)
    ensures r.Ok? <==> Submittable(sha, dir.files)
    ensures r.Ok? ==> r.value == RecordOf(place, dir.files, now)
  {
    hide Sound, RequireStr, Readable, RunOf;
    var ok, errors := dir.Verify(sha);
    if !ok {
      return Err("bundle verification failed");
    }
    if !HoldsJson(dir.files, MANIFEST) {
      return Err("bundle missing manifest.json");
    }
    if !HoldsJson(dir.files, VALIDATOR) {
      return Err("bundle missing validator.json");
    }
    if !HoldsJson(dir.files, SIGNATURE) {
      return Err("bundle must be signed before leaderboard ingestion");
    }
    var manifest, signature := dir.files[MANIFEST].json, dir.files[SIGNATURE].json;
    var missing := FirstMissing(manifest, IDENTITY);
    if missing.Some? {
      return Err("manifest missing required field: " + missing.value);
    }
    missing := FirstMissing(signature, PROVENANCE);
    if missing.Some? {
      return Err("signature missing required field: " + missing.value);
    }
    r := Ok(Record(place, manifest, dir.files[VALIDATOR].json, signature, now).(verified := (ok, errors)));
  }

  method FirstMissing(doc: Json, keys: seq<string>) returns (missing: Option<string>)
    ensures missing.None? <==> forall key <- keys :: RequireStr(doc, key).Some?
  {
    hide RequireStr;
    for i := 0 to |keys|
      invariant forall k | 0 <= k < i :: RequireStr(doc, keys[k]).Some?
    {
      if RequireStr(doc, keys[i]).None? {
        assert keys[i] in keys;
        return Some(keys[i]);
      }
    }
    missing := None;
  }

  // The fields a bundle must fill to be submitted.
  lemma SubmittableIff(sha: Doc -> string, files: map<string, Doc>)
    requires Readable(files)
    ensures Submittable(sha, files) <==>
              && Sound(sha, files)
              && HoldsJson(files, "manifest.json") && HoldsJson(files, "validator.json") && HoldsJson(files, "signature.json")
              && (var m, s := files["manifest.json"].json, files["signature.json"].json;
                  forall field :: (field in ["run_id", "trace_id", "agent", "task_ref"] ==> m.Get(field).Str? && Strip(m.Get(field).s) != "")
                                  && (field in ["algorithm", "signature_hex", "public_key_pem"] ==> s.Get(field).Str? && Strip(s.Get(field).s) != ""))
  {
    hide Sound, Strip, Readable;
  }

  // The record of a submittable bundle: the identifying fields as text, all fields of the run
  // as the manifest has them, the validator, and the signature with its provenance.
  lemma RecordMeans(sha: Doc -> string, files: map<string, Doc>, place: string, now: string, field: string)
    requires Readable(files) && Submittable(sha, files)
    ensures var m, v, s := files[MANIFEST].json, files[VALIDATOR].json, files[SIGNATURE].json;
            var r := RecordOf(place, files, now);
            && Str(r.runId) == m.Get("run_id") && Str(r.traceId) == m.Get("trace_id") && Str(r.agent) == m.Get("agent")
            && Str(r.taskRef) == m.Get("task_ref") && r.ingestedAt == now && r.bundleDir == place
            && r.run.GetOr(field, Null) ==
               (if field in ["run_id", "trace_id", "agent", "task_ref", "task_id", "version", "seed", "harness_version", "started_at",
                             "completed_at", "success", "termination_reason", "failure_type", "failure_reason", "steps_used",
                             "tool_calls_used", "trace_entry_count", "sandbox"] then m.Get(field) else Null)
            && r.validator == v
            && Str(r.algorithm) == s.Get("algorithm") && Str(r.signatureHex) == s.Get("signature_hex")
            && Str(r.publicKey) == s.Get("public_key_pem") && r.signedFile == s.Get("signed_file")
            && r.verified == (true, [])
  {
    hide Sound, Readable, RunOf, Strip;
    RunMeans(files[MANIFEST].json, field);
    var m, s := files[MANIFEST].json, files[SIGNATURE].json;
    assert IDENTITY[0] == "run_id" && IDENTITY[1] == "trace_id" && IDENTITY[2] == "agent" && IDENTITY[3] == "task_ref";
    assert PROVENANCE[0] == "algorithm" && PROVENANCE[1] == "signature_hex" && PROVENANCE[2] == "public_key_pem";
    assert forall i | 0 <= i < 4 :: IDENTITY[i] in IDENTITY && RequireStr(m, IDENTITY[i]).Some?;
    assert forall i | 0 <= i < 3 :: PROVENANCE[i] in PROVENANCE && RequireStr(s, PROVENANCE[i]).Some?;
  }

  lemma RunMeans(m: Json, field: string)
    ensures RunOf(m).GetOr(field, Null) ==
              if field in ["run_id", "trace_id", "agent", "task_ref", "task_id", "version", "seed", "harness_version", "started_at",
                           "completed_at", "success", "termination_reason", "failure_type", "failure_reason", "steps_used",
                           "tool_calls_used", "trace_entry_count", "sandbox"] then m.Get(field) else Null
  {
  }

  // ---- the store ------------------------------------------------------------------------

  datatype Store = Store(submissions: map<string, Submission>, index: Option<seq<IndexEntry>>)

  const EMPTY := Store(map[], None)

  function SubmissionFile(runId: string): string
  {
    runId + ".json"
  }

  function EntryOf(s: Submission): IndexEntry
  {
    IndexEntry(s.runId + ":" + s.taskRef, s.runId, s.agent, s.taskRef, s.run.Get("success"), s.ingestedAt, SubmissionFile(s.runId))
  }

  predicate IndexLe(a: IndexEntry, b: IndexEntry)
  {
    if a.ingestedAt != b.ingestedAt then StrLe(a.ingestedAt, b.ingestedAt) else StrLe(a.runId, b.runId)
  }

  function Others(index: seq<IndexEntry>, runId: string): (rest: seq<IndexEntry>)
    ensures forall e :: e in rest <==> e in index && e.runId != runId
  {
    if index == [] then []
    else
      assert index == index[..|index| - 1] + [index[|index| - 1]];
      Others(index[..|index| - 1], runId) + (if index[|index| - 1].runId != runId then [index[|index| - 1]] else [])
  }

  function Ingested(store: Store, s: Submission): Store
  {
    var index := if store.index.Some? then store.index.value else [];
    Store(store.submissions[s.runId := s], Some(Sort(IndexLe, Others(index, s.runId) + [EntryOf(s)])))
  }

  class LeaderboardDir {
    var submissions: map<string, Submission>
    var index: Option<seq<IndexEntry>>

    function State(): Store
      reads this
    {
      Store(submissions, index)
    }

    constructor ()
      ensures State() == EMPTY
    {
      submissions, index := map[], None;
    }

    // ingest_bundle: an exception leaves everything as it was.
    method IngestBundle(dir: BundleDir, place: string, sha: Doc -> string, now: string) returns (r: Result<Submission, string>)
      requires Readable(dir.files)
      modifies this
      ensures r.Ok? <==> Submittable(sha, dir.files)
      ensures r.Ok? ==> r.value == RecordOf(place, dir.files, now)
      ensures State() == if r.Ok? then Ingested(old(State()), r.value) else old(State())
    {
      hide Submittable, Record, Readable, Sort;
      r := BuildSubmissionRecord(dir, place, sha, now);
      if r.Err? {
        return;
      }
      var s := r.value;
      submissions := submissions[s.runId := s];
      var listed := if index.Some? then index.value else [];
      var kept: seq<IndexEntry> := [];
      for i := 0 to |listed|
        invariant kept == Others(listed[..i], s.runId)
      {
        assert listed[..i + 1][..i] == listed[..i];
        if listed[i].runId != s.runId {
          kept := kept + [listed[i]];
        }
      }
      assert listed[..|listed|] == listed;
      index := Some(Sort(IndexLe, kept + [EntryOf(s)]));
    }

    // list_submissions
    method ListSubmissions() returns (entries: seq<IndexEntry>)
      ensures entries == if index.Some? then index.value else []
    {
      entries := if index.Some? then index.value else [];
    }

    // load_submission
    method LoadSubmission(runId: string) returns (s: Option<Submission>)
      ensures s == if runId in submissions then Some(submissions[runId]) else None
    {
      s := if runId in submissions then Some(submissions[runId]) else None;
    }
  }

  // ---- the index refines a map --------------------------------------------------------------

  lemma IndexLeIsPreorder()
    ensures Preorder(IndexLe)
  {
    StrLeIsTotalOrder();
    hide StrLe;
    forall a, b ensures IndexLe(a, b) || IndexLe(b, a) {}
    forall a, b, c | IndexLe(a, b) && IndexLe(b, c) ensures IndexLe(a, c) {}
  }

  ghost predicate OnePerRun(index: seq<IndexEntry>)
  {
    forall i, j | 0 <= i < j < |index| :: index[i].runId != index[j].runId
  }

  // The index of a map of submissions: sorted, one entry a run, each the entry of the
  // stored submission.
  ghost predicate Indexes(index: seq<IndexEntry>, submissions: map<string, Submission>)
  {
    && SortedBy(IndexLe, index)
    && OnePerRun(index)
    && (forall e <- index :: e.runId in submissions && e == EntryOf(submissions[e.runId]))
    && (forall id <- submissions :: submissions[id].runId == id && EntryOf(submissions[id]) in index)
  }

  ghost predicate Consistent(store: Store)
  {
    if store.index.None? then store.submissions == map[] else Indexes(store.index.value, store.submissions)
  }

  lemma {:induction false} OthersOnePerRun(index: seq<IndexEntry>, runId: string)
    requires OnePerRun(index)
    ensures OnePerRun(Others(index, runId))
  {
    if index != [] {
      var n := |index| - 1;
      OthersOnePerRun(index[..n], runId);
      var rest := Others(index[..n], runId);
      forall i | 0 <= i < |rest| ensures rest[i].runId != index[n].runId {
        assert rest[i] in index[..n];
      }
    }
  }

  lemma {:induction false} InsertOnePerRun(s: seq<IndexEntry>, x: IndexEntry)
    requires OnePerRun(s) && forall e <- s :: e.runId != x.runId
    ensures OnePerRun(InsertAfter(IndexLe, s, x))
  {
    hide IndexLe;
    if s != [] {
      var n := |s| - 1;
      if !IndexLe(s[n], x) {
        InsertOnePerRun(s[..n], x);
        InsertMembers(IndexLe, s[..n], x);
        var r := InsertAfter(IndexLe, s[..n], x);
        forall i | 0 <= i < |r| ensures r[i].runId != s[n].runId {
          assert r[i] in r;
          if r[i] in s[..n] {
            var k :| 0 <= k < n && s[k] == r[i];
          }
        }
      }
    }
  }

  lemma {:induction false} SortOnePerRun(s: seq<IndexEntry>)
    requires OnePerRun(s)
    ensures OnePerRun(Sort(IndexLe, s))
  {
    hide IndexLe;
    if s != [] {
      var n := |s| - 1;
      SortOnePerRun(s[..n]);
      SortMembers(IndexLe, s[..n]);
      InsertOnePerRun(Sort(IndexLe, s[..n]), s[n]);
    }
  }

  // The index before sorting: what stays of the old one, then the new entry.
  lemma UnsortedIndex(index: seq<IndexEntry>, submissions: map<string, Submission>, s: Submission) returns (all: seq<IndexEntry>)
    requires Indexes(index, submissions)
    ensures all == Others(index, s.runId) + [EntryOf(s)]
    ensures OnePerRun(all)
    ensures var after := submissions[s.runId := s];
            && (forall e <- all :: e.runId in after && e == EntryOf(after[e.runId]))
            && (forall id <- after :: after[id].runId == id && EntryOf(after[id]) in all)
  {
    hide IndexLe, EntryOf;
    EntryRun(s);
    var rest := Others(index, s.runId);
    all := rest + [EntryOf(s)];
    OthersOnePerRun(index, s.runId);
    forall i | 0 <= i < |rest| ensures rest[i].runId != s.runId { assert rest[i] in rest; }
    forall id | id in submissions && id != s.runId ensures EntryOf(submissions[id]) in rest {
      EntryRun(submissions[id]);
      assert EntryOf(submissions[id]) in index;
    }
    assert all[|rest|] == EntryOf(s);
  }

  lemma EntryRun(s: Submission)
    ensures EntryOf(s).runId == s.runId
  {
  }

  lemma EmptyIndex()
    ensures Indexes([], map[])
  {
  }

  // Ingesting keeps the store consistent, also when the run was ingested before.
  lemma IngestKeepsConsistent(store: Store, s: Submission)
    requires Consistent(store)
    ensures Consistent(Ingested(store, s))
  {
    hide Sort, IndexLe, EntryOf, Others;
    EmptyIndex();
    var index := if store.index.Some? then store.index.value else [];
    var all := UnsortedIndex(index, store.submissions, s);
    SortOnePerRun(all);
    IndexLeIsPreorder();
    SortSorts(IndexLe, all);
    SortMembers(IndexLe, all);
    assert Indexes(Sort(IndexLe, all), store.submissions[s.runId := s]);
  }

  // A map has only one index, so the history of ingests does not show in it.
  lemma IndexUnique(p: seq<IndexEntry>, q: seq<IndexEntry>, submissions: map<string, Submission>)
    requires Indexes(p, submissions) && Indexes(q, submissions)
    ensures p == q
  {
    hide IndexLe;
    forall e ensures e in p <==> e in q {
      if e in p { assert EntryOf(submissions[e.runId]) in q; }
      if e in q { assert EntryOf(submissions[e.runId]) in p; }
    }
    SortedUnique(p, q);
  }

  lemma LeBothWays(a: IndexEntry, b: IndexEntry)
    requires IndexLe(a, b) && IndexLe(b, a)
    ensures a.runId == b.runId
  {
    StrLeIsTotalOrder();
  }

  lemma {:induction false} SortedUnique(p: seq<IndexEntry>, q: seq<IndexEntry>)
    requires SortedBy(IndexLe, p) && SortedBy(IndexLe, q) && OnePerRun(p) && OnePerRun(q)
    requires forall e :: e in p <==> e in q
    ensures p == q
  {
    hide IndexLe;
    HeadListed(p);
    HeadListed(q);
    if p != [] && q != [] {
      var i :| 0 <= i < |p| && p[i] == q[0];
      var j :| 0 <= j < |q| && q[j] == p[0];
      if i > 0 && j > 0 {
        assert IndexLe(p[0], p[i]) && IndexLe(q[0], q[j]);
        LeBothWays(p[0], q[0]);
      }
      assert i == 0;
      assert j == 0;
      forall e ensures e in p[1..] <==> e in q[1..] {
        RestMembers(p, e);
        RestMembers(q, e);
      }
      SortedUnique(p[1..], q[1..]);
      assert p == [p[0]] + p[1..] && q == [q[0]] + q[1..];
    }
  }

  lemma HeadListed(p: seq<IndexEntry>)
    ensures p == [] || p[0] in p
  {
  }

  lemma RestMembers(p: seq<IndexEntry>, e: IndexEntry)
    requires p != [] && OnePerRun(p)
    ensures e in p[1..] <==> e in p && e != p[0]
  {
    assert p == [p[0]] + p[1..];
    if e in p[1..] {
      var k :| 0 <= k < |p[1..]| && p[1..][k] == e;
      assert p[k + 1] == e;
    }
  }

  // The index is in the order of the ingest times, and of the run ids where these are equal.
  lemma IndexOrdered(store: Store, i: nat, j: nat)
    requires Consistent(store) && store.index.Some? && i < j < |store.index.value|
    ensures var a, b := store.index.value[i], store.index.value[j];
            && StrLe(a.ingestedAt, b.ingestedAt) && a.runId != b.runId
            && (a.ingestedAt == b.ingestedAt ==> StrLe(a.runId, b.runId))
  {
    StrLeIsTotalOrder();
    hide StrLe;
    assert IndexLe(store.index.value[i], store.index.value[j]);
  }

  // ---- histories --------------------------------------------------------------------------------

  function After(history: seq<Submission>): Store
  {
    if history == [] then EMPTY else Ingested(After(history[..|history| - 1]), history[|history| - 1])
  }

  // The last submission of a run.
  function LastOf(history: seq<Submission>, runId: string): (last: Option<Submission>)
    ensures last.Some? ==> last.value in history && last.value.runId == runId
    ensures last.None? ==> forall s <- history :: s.runId != runId
  {
    if history == [] then None
    else if history[|history| - 1].runId == runId then Some(history[|history| - 1])
    else LastOf(history[..|history| - 1], runId)
  }

  // After any history the store is consistent and holds, for each run ever ingested, its
  // last submission.
  lemma {:induction false} HistoryRefinesMap(history: seq<Submission>)
    ensures Consistent(After(history))
    ensures After(history).index.None? <==> history == []
    ensures forall id ::
      (id in After(history).submissions <==> LastOf(history, id).Some?)
      && (id in After(history).submissions ==> After(history).submissions[id] == LastOf(history, id).value)
  {
    hide Ingested, EntryOf;
    if history != [] {
      var n := |history| - 1;
      HistoryRefinesMap(history[..n]);
      IngestKeepsConsistent(After(history[..n]), history[n]);
      IngestedMap(After(history[..n]), history[n]);
    }
  }

  lemma IngestedMap(store: Store, s: Submission)
    ensures Ingested(store, s).submissions == store.submissions[s.runId := s] && Ingested(store, s).index.Some?
  {
  }

  // What an entry of a consistent index tells is what the stored submission says.
  lemma EntriesTell(store: Store, e: IndexEntry)
    requires Consistent(store) && store.index.Some? && e in store.index.value
    ensures e.runId in store.submissions
    ensures var s := store.submissions[e.runId];
            && s.runId == e.runId && e.submissionId == s.runId + ":" + s.taskRef
            && e.agent == s.agent && e.taskRef == s.taskRef && e.ingestedAt == s.ingestedAt
            && e.success == s.run.Get("success") && e.file == s.runId + ".json"
  {
  }

  // The index has as many entries as runs were ever ingested.
  lemma IndexCounts(index: seq<IndexEntry>, submissions: map<string, Submission>)
    requires Indexes(index, submissions)
    ensures |index| == |submissions.Keys|
  {
    var ids := seq(|index|, i requires 0 <= i < |index| => index[i].runId);
    assert Distinct(ids);
    assert Elements(ids) == submissions.Keys by {
      forall id | id in submissions ensures id in ids {
        var k :| 0 <= k < |index| && index[k] == EntryOf(submissions[id]);
        assert ids[k] == id;
      }
    }
    DistinctCount(ids);
  }

  lemma {:induction false} DistinctCount(ids: seq<string>)
    requires Distinct(ids)
    ensures |Elements(ids)| == |ids|
  {
    if ids == [] {
      assert Elements(ids) == {};
    } else {
      DistinctCount(ids[1..]);
      assert ids[0] in Elements(ids);
      TailElements(ids);
    }
  }

  // Histories that end in the same submissions end in the same index.
  lemma HistoryDoesNotShow(one: seq<Submission>, two: seq<Submission>)
    requires one != [] && two != [] && After(one).submissions == After(two).submissions
    ensures After(one) == After(two)
  {
    hide After, Indexes;
    HistoryRefinesMap(one);
    HistoryRefinesMap(two);
    IndexUnique(After(one).index.value, After(two).index.value, After(one).submissions);
  }
}
