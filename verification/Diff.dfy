// agent_bench/runner/baseline.py: the structured difference of two run artifacts.
module Diff {
  import opened Values
  import opened Order
  import opened Artifacts

  // ---- audit keys ----------------------------------------------------------------------

  // (type, op, path, host), with "" for what is missing.
  datatype AuditKey = AuditKey(kind: string, op: string, path: string, host: string)

  predicate KeyLe(a: AuditKey, b: AuditKey)
  {
    if a.kind != b.kind then StrLe(a.kind, b.kind)
    else if a.op != b.op then StrLe(a.op, b.op)
    else if a.path != b.path then StrLe(a.path, b.path)
    else StrLe(a.host, b.host)
  }

  lemma KeyLeIsTotalOrder()
    ensures TotalOrder(KeyLe)
  {
    StrLeIsTotalOrder();
    hide StrLe;
    forall a, b ensures KeyLe(a, b) || KeyLe(b, a) {}
    forall a, b, c | KeyLe(a, b) && KeyLe(b, c) ensures KeyLe(a, c) {}
    forall a, b | KeyLe(a, b) && KeyLe(b, a) ensures a == b {}
  }

  // entry.get(name) or "", for an entry that only holds text.
  function TextOf(entry: Json, name: string): string
  {
    if entry.Get(name).Str? then entry.Get(name).s else ""
  }

  // _io_audit_key
  function KeyOf(entry: Json): AuditKey
  {
    AuditKey(TextOf(entry, "type"), TextOf(entry, "op"), TextOf(entry, "path"), TextOf(entry, "host"))
  }

  function Field(name: string, value: string): map<string, Json>
  {
    if value == "" then map[] else map[name := Str(value)]
  }

  // _key_to_io_entry
  function EntryOf(key: AuditKey): Json
  {
    Obj(Field("type", key.kind) + Field("op", key.op) + Field("path", key.path) + Field("host", key.host))
  }

  // A key survives the way through an entry.
  lemma KeyRoundTrip(key: AuditKey)
    ensures KeyOf(EntryOf(key)) == key
  {
  }

  const AUDIT_FIELDS: set<string> := {"type", "op", "path", "host"}

  // The text fields of one raw audit entry; None when it is no dictionary or has none.
  function Cleaned(raw: Json): Option<Json>
  {
    if !raw.Obj? then None
    else
      var kept := map k | k in AUDIT_FIELDS && k in raw.fields && raw.fields[k].Str? :: raw.fields[k];
      if kept == map[] then None else Some(Obj(kept))
  }

  // The entry of a key holds exactly the parts of it that are not empty.
  lemma EntryFields(entry: Json, name: string)
    requires name in AUDIT_FIELDS
    ensures var back := EntryOf(KeyOf(entry)).fields;
            && (name in back <==> TextOf(entry, name) != "")
            && (name in back ==> back[name] == Str(TextOf(entry, name)))
  {
    hide TextOf;
  }

  lemma CleanedFields(raw: Json, name: string)
    requires Cleaned(raw).Some?
    ensures var entry := Cleaned(raw).value;
            && entry.Obj?
            && (name in entry.fields ==> name in AUDIT_FIELDS && entry.fields[name] == Str(TextOf(entry, name)))
            && (name !in entry.fields ==> TextOf(entry, name) == "")
  {
  }

  // An entry survives the way through a key exactly when none of its text is empty.
  lemma EntryRoundTrip(raw: Json)
    requires Cleaned(raw).Some?
    ensures var entry := Cleaned(raw).value;
            EntryOf(KeyOf(entry)) == entry <==> forall k <- entry.fields :: entry.fields[k] != Str("")
  {
    var entry := Cleaned(raw).value;
    CleanedFields(raw, "type");
    var back := EntryOf(KeyOf(entry));
    assert back.fields.Keys <= AUDIT_FIELDS;
    hide Cleaned, EntryOf, KeyOf, TextOf;
    forall k
      ensures k in back.fields <==> k in entry.fields && entry.fields[k] != Str("")
      ensures k in back.fields ==> back.fields[k] == entry.fields[k]
    {
      CleanedFields(raw, k);
      if k in AUDIT_FIELDS { EntryFields(entry, k); }
    }
    if forall k <- entry.fields :: entry.fields[k] != Str("") {
      assert entry.fields.Keys == back.fields.Keys;
      assert entry.fields == back.fields;
    }
  }

  // The entries an io_audit value lists; a missing or empty one lists none.
  function Listed(audit: Json): seq<Json>
  {
    if audit.Arr? then audit.items else []
  }

  // What the diff needs of an audit value: a list, or something empty.
  predicate AuditShaped(audit: Json)
  {
    !audit.Truthy() || audit.Arr?
  }

  function CleanedKeys(items: seq<Json>): set<AuditKey>
  {
    set i | 0 <= i < |items| && Cleaned(items[i]).Some? :: KeyOf(Cleaned(items[i]).value)
  }

  // The accesses an audit value records, as a set.
  function IoKeys(audit: Json): set<AuditKey>
  {
    CleanedKeys(Listed(audit))
  }

  predicate EntryLe(a: Json, b: Json)
  {
    KeyLe(KeyOf(a), KeyOf(b))
  }

  ghost function KeysOf(entries: seq<Json>): set<AuditKey>
  {
    set i | 0 <= i < |entries| :: KeyOf(entries[i])
  }

  // _normalize_io_audit: the cleaned entries, sorted by their keys.
  method NormalizeIoAudit(audit: Json) returns (entries: seq<Json>)
    requires AuditShaped(audit)
    ensures SortedBy(EntryLe, entries)
    ensures KeysOf(entries) == IoKeys(audit)
  {
    hide KeyLe, KeyOf, Cleaned;
    var items := Listed(audit);
    var kept: seq<Json> := [];
    for i := 0 to |items|
      invariant KeysOf(kept) == CleanedKeys(items[..i])
    {
      assert items[..i + 1] == items[..i] + [items[i]];
      ghost var before := kept;
      var entry := Cleaned(items[i]);
      if entry.Some? {
        kept := kept + [entry.value];
      }
      KeysGrow(items[..i], items[i]);
      assert entry.Some? ==> KeysOf(kept) == KeysOf(before) + {KeyOf(entry.value)} by {
        if entry.Some? { KeysOfAppend(before, entry.value); }
      }
    }
    assert items[..|items|] == items;
    EntryLeIsPreorder();
    SortSorts(EntryLe, kept);
    SortMembers(EntryLe, kept);
    entries := Sort(EntryLe, kept);
    SameMembersSameKeys(entries, kept);
  }

  lemma KeysGrow(items: seq<Json>, item: Json)
    ensures CleanedKeys(items + [item]) ==
              CleanedKeys(items) + (if Cleaned(item).Some? then {KeyOf(Cleaned(item).value)} else {})
  {
    hide Cleaned, KeyOf;
    var all := items + [item];
    forall k | k in CleanedKeys(items) ensures k in CleanedKeys(all) {
      var i :| 0 <= i < |items| && Cleaned(items[i]).Some? && k == KeyOf(Cleaned(items[i]).value);
      assert all[i] == items[i];
    }
    assert all[|items|] == item;
  }

  lemma KeysOfAppend(entries: seq<Json>, entry: Json)
    ensures KeysOf(entries + [entry]) == KeysOf(entries) + {KeyOf(entry)}
  {
    hide KeyOf;
    var all := entries + [entry];
    forall k | k in KeysOf(entries) ensures k in KeysOf(all) {
      var i :| 0 <= i < |entries| && k == KeyOf(entries[i]);
      assert all[i] == entries[i];
    }
    assert all[|entries|] == entry;
  }

  lemma SameMembersSameKeys(a: seq<Json>, b: seq<Json>)
    requires forall e :: e in a <==> e in b
    ensures KeysOf(a) == KeysOf(b)
  {
    forall k ensures k in KeysOf(a) <==> k in KeysOf(b) {
      if k in KeysOf(a) {
        var i :| 0 <= i < |a| && k == KeyOf(a[i]);
        assert a[i] in b;
      }
      if k in KeysOf(b) {
        var i :| 0 <= i < |b| && k == KeyOf(b[i]);
        assert b[i] in a;
      }
    }
  }

  lemma EntryLeIsPreorder()
    ensures Preorder(EntryLe)
  {
    KeyLeIsTotalOrder();
    hide KeyLe, KeyOf;
    forall a, b ensures EntryLe(a, b) || EntryLe(b, a) {}
    forall a, b, c | EntryLe(a, b) && EntryLe(b, c) ensures EntryLe(a, c) {}
  }

  // ---- the delta of one step --------------------------------------------------------------

  datatype Delta = Delta(added: seq<Json>, removed: seq<Json>)

  function Entries(keys: seq<AuditKey>): (entries: seq<Json>)
    ensures |entries| == |keys|
    ensures forall i | 0 <= i < |keys| :: entries[i] == EntryOf(keys[i])
  {
    seq(|keys|, i requires 0 <= i < |keys| => EntryOf(keys[i]))
  }

  ghost function SortedKeys(s: set<AuditKey>): (q: seq<AuditKey>)
    ensures TotalOrder(KeyLe) && IsListing(KeyLe, s, q)
  {
    KeyLeIsTotalOrder();
    Listing(KeyLe, s)
  }

  ghost function DeltaOf(a: set<AuditKey>, b: set<AuditKey>): Option<Delta>
  {
    if a == b then None
    else Some(Delta(Entries(SortedKeys(b - a)), Entries(SortedKeys(a - b))))
  }

  // _io_audit_diff
  method IoAuditDiff(a: Json, b: Json) returns (delta: Option<Delta>)
    requires AuditShaped(a) && AuditShaped(b)
    ensures delta == DeltaOf(IoKeys(a), IoKeys(b))
  {
    hide KeyLe, KeyOf, EntryOf, IoKeys;
    var left := NormalizeIoAudit(a);
    var right := NormalizeIoAudit(b);
    var setA := set e | e in left :: KeyOf(e);
    var setB := set e | e in right :: KeyOf(e);
    assert setA == KeysOf(left) by { MemberKeys(left); }
    assert setB == KeysOf(right) by { MemberKeys(right); }
    KeyLeIsTotalOrder();
    var plus := SortSet(KeyLe, setB - setA);
    var minus := SortSet(KeyLe, setA - setB);
    var added, removed := Entries(plus), Entries(minus);
    ListingLength(KeyLe, setB - setA, plus);
    ListingLength(KeyLe, setA - setB, minus);
    if |added| == 0 && |removed| == 0 {
      assert setA == setB by { assert setB - setA == {} && setA - setB == {}; }
      return None;
    }
    assert setA == setB ==> setB - setA == {} && setA - setB == {};
    delta := Some(Delta(added, removed));
  }

  lemma MemberKeys(entries: seq<Json>)
    ensures (set e | e in entries :: KeyOf(e)) == KeysOf(entries)
  {
    hide KeyOf;
    forall k | k in KeysOf(entries) ensures k in set e | e in entries :: KeyOf(e) {
      var i :| 0 <= i < |entries| && k == KeyOf(entries[i]);
      assert entries[i] in entries;
    }
  }

  lemma {:induction false} ListingLength<T(!new)>(le: (T, T) -> bool, s: set<T>, q: seq<T>)
    requires IsListing(le, s, q)
    ensures |q| == |s|
  {
    if q == [] {
      assert s == {};
    } else {
      var x := q[0];
      assert x in Elements(q);
      TailElements(q);
      ListingLength(le, s - {x}, q[1..]);
    }
  }

  lemma EntriesKeys(keys: set<AuditKey>)
    ensures KeysOf(Entries(SortedKeys(keys))) == keys && |Entries(SortedKeys(keys))| == |keys|
  {
    hide KeyOf, EntryOf, KeyLe;
    var q := SortedKeys(keys);
    ListingLength(KeyLe, keys, q);
    forall k ensures k in KeysOf(Entries(q)) <==> k in keys {
      assert k in Elements(q) <==> k in keys;
      if k in keys {
        var i :| 0 <= i < |q| && q[i] == k;
        KeyRoundTrip(k);
        assert Entries(q)[i] == EntryOf(k);
      }
      if k in KeysOf(Entries(q)) {
        var i :| 0 <= i < |q| && k == KeyOf(Entries(q)[i]);
        KeyRoundTrip(q[i]);
      }
    }
  }

  // Taking "removed" out of the first audit and putting "added" in gives the second; the two
  // lists name only real changes; there is no delta exactly when the audits record the same.
  lemma DeltaTurnsOneIntoOther(a: set<AuditKey>, b: set<AuditKey>)
    ensures DeltaOf(a, b).None? <==> a == b
    ensures DeltaOf(a, b).Some? ==>
      var d := DeltaOf(a, b).value;
      && a - KeysOf(d.removed) + KeysOf(d.added) == b
      && KeysOf(d.removed) <= a && KeysOf(d.added) !! a
      && |d.added| == |b - a| && |d.removed| == |a - b|
      && (d.added != [] || d.removed != [])
  {
    hide KeyOf, EntryOf, KeyLe, Entries, SortedKeys;
    EntriesKeys(b - a);
    EntriesKeys(a - b);
    if a != b { assert b - a != {} || a - b != {}; }
  }

  function SwapDelta(delta: Option<Delta>): Option<Delta>
  {
    match delta
    case None => None
    case Some(d) => Some(Delta(d.removed, d.added))
  }

  // ---- steps ----------------------------------------------------------------------------------

  const VOLATILE: set<string> := {"action_ts", "budget_after_step", "budget_delta", "io_audit", "telemetry"}

  // raw_a: the entry of a step, if the trace is that long.
  function At(trace: seq<Json>, i: nat): Option<Json>
  {
    if i < |trace| then Some(trace[i]) else None
  }

  // _normalize_trace_entry
  function NormalizeEntry(raw: Option<Json>): Option<Json>
  {
    if raw.None? || !raw.value.Obj? then None
    else Some(Obj(map k | k in raw.value.fields && k !in VOLATILE && raw.value.fields[k] != Null :: raw.value.fields[k]))
  }

  function AuditValue(raw: Option<Json>): Json
  {
    if raw.None? then Null else raw.value.Get("io_audit")
  }

  // A trace the diff can read: entries are dictionaries or None, with audits in list form.
  predicate TraceShaped(trace: seq<Json>)
  {
    forall i | 0 <= i < |trace| :: (trace[i].Obj? || trace[i].Null?) && AuditShaped(trace[i].Get("io_audit"))
  }

  predicate RunShaped(run: Json)
  {
    && run.Obj?
    && (!run.Get("action_trace").Truthy() || run.Get("action_trace").Arr?)
    && TraceShaped(TraceOf(run))
    && (run.Get("tool_calls_used").Null? || run.Get("tool_calls_used").Int?)
  }

  datatype StepDiff = StepDiff(step: nat, one: Option<Json>, two: Option<Json>, delta: Option<Delta>)

  ghost function DeltaAt(a: seq<Json>, b: seq<Json>, i: nat): Option<Delta>
  {
    DeltaOf(IoKeys(AuditValue(At(a, i))), IoKeys(AuditValue(At(b, i))))
  }

  // The two traces agree at a step, up to what is volatile.
  predicate SameStep(a: seq<Json>, b: seq<Json>, i: nat)
  {
    && NormalizeEntry(At(a, i)) == NormalizeEntry(At(b, i))
    && IoKeys(AuditValue(At(a, i))) == IoKeys(AuditValue(At(b, i)))
  }

  ghost function DiffAt(a: seq<Json>, b: seq<Json>, i: nat): StepDiff
  {
    StepDiff(i + 1, NormalizeEntry(At(a, i)), NormalizeEntry(At(b, i)), DeltaAt(a, b, i))
  }

  // The entries for the first n steps that differ.
  ghost function Diffs(a: seq<Json>, b: seq<Json>, n: nat): seq<StepDiff>
  {
    if n == 0 then []
    else Diffs(a, b, n - 1) + (if SameStep(a, b, n - 1) then [] else [DiffAt(a, b, n - 1)])
  }

  // New accesses of the second trace over the first, summed over n steps.
  ghost function NewAccesses(a: seq<Json>, b: seq<Json>, n: nat): nat
  {
    if n == 0 then 0
    else NewAccesses(a, b, n - 1) + |IoKeys(AuditValue(At(b, n - 1))) - IoKeys(AuditValue(At(a, n - 1)))|
  }

  function Longer(a: seq<Json>, b: seq<Json>): nat
  {
    if |a| >= |b| then |a| else |b|
  }

  datatype Summary = Summary(
    runs: (Json, Json),
    sameAgent: bool,
    sameTask: bool,
    sameSuccess: bool,
    sameFailureType: bool,
    sameTermination: bool,
    steps: (nat, nat),
    calls: (Json, Json),
    added: nat,
    removed: nat,
    stepsDelta: int,
    callsDelta: int)

  // _run_summary
  const SUMMARY_KEYS: set<string> :=
    {"run_id", "agent", "task_ref", "failure_type", "termination_reason", "steps_used", "tool_calls_used", "seed"}

  function RunSummary(run: Json): Json
  {
    Obj((map k | k in SUMMARY_KEYS :: run.Get(k))["success" := Bool(run.Get("success").Truthy())])
  }

  function CallsOrZero(run: Json): int
    requires run.Get("tool_calls_used").Null? || run.Get("tool_calls_used").Int?
  {
    if run.Get("tool_calls_used").Int? then run.Get("tool_calls_used").n else 0
  }

  // The loop of diff_runs over both traces.
  method DiffTraces(a: seq<Json>, b: seq<Json>) returns (added: nat, removed: nat, diffs: seq<StepDiff>)
    requires TraceShaped(a) && TraceShaped(b)
    ensures diffs == Diffs(a, b, Longer(a, b))
    ensures added == NewAccesses(a, b, Longer(a, b)) && removed == NewAccesses(b, a, Longer(a, b))
  {
    hide NormalizeEntry, IoKeys, DeltaOf, AuditShaped, AuditValue, At, TraceShaped;
    added, removed, diffs := 0, 0, [];
    for i := 0 to Longer(a, b)
      invariant diffs == Diffs(a, b, i)
      invariant added == NewAccesses(a, b, i) && removed == NewAccesses(b, a, i)
    {
      var x, y := At(a, i), At(b, i);
      AuditFits(a, i);
      AuditFits(b, i);
      var delta := IoAuditDiff(AuditValue(x), AuditValue(y));
      DeltaCounts(IoKeys(AuditValue(x)), IoKeys(AuditValue(y)));
      if delta.Some? {
        added := added + |delta.value.added|;
        removed := removed + |delta.value.removed|;
      }
      if NormalizeEntry(x) != NormalizeEntry(y) || delta.Some? {
        diffs := diffs + [StepDiff(i + 1, NormalizeEntry(x), NormalizeEntry(y), delta)];
      }
    }
  }

  // The lengths of the two lists of a delta, 0 without one.
  lemma DeltaCounts(a: set<AuditKey>, b: set<AuditKey>)
    ensures var d := DeltaOf(a, b);
            && (d.None? <==> a == b)
            && |b - a| == (if d.Some? then |d.value.added| else 0)
            && |a - b| == (if d.Some? then |d.value.removed| else 0)
  {
    DeltaTurnsOneIntoOther(a, b);
    hide DeltaOf;
    if a == b { NothingNew(a, b); }
  }

  // diff_runs
  method DiffRuns(one: Json, two: Json) returns (summary: Summary, diffs: seq<StepDiff>)
    requires RunShaped(one) && RunShaped(two)
    ensures var a, b := TraceOf(one), TraceOf(two);
            var n := Longer(a, b);
            && diffs == Diffs(a, b, n)
            && summary == Summary(
              (RunSummary(one), RunSummary(two)),
              one.Get("agent") == two.Get("agent"),
              one.Get("task_ref") == two.Get("task_ref"),
              one.Get("success").Truthy() <==> two.Get("success").Truthy(),
              one.Get("failure_type") == two.Get("failure_type"),
              one.Get("termination_reason") == two.Get("termination_reason"),
              (|a|, |b|),
              (one.Get("tool_calls_used"), two.Get("tool_calls_used")),
              NewAccesses(a, b, n), NewAccesses(b, a, n),
              |b| - |a|, CallsOrZero(two) - CallsOrZero(one))
  {
    hide Diffs, NewAccesses, AuditShaped, RunSummary;
    var a, b := TraceOf(one), TraceOf(two);
    var added, removed;
    added, removed, diffs := DiffTraces(a, b);
    summary := Summary(
      (RunSummary(one), RunSummary(two)),
      one.Get("agent") == two.Get("agent"),
      one.Get("task_ref") == two.Get("task_ref"),
      one.Get("success").Truthy() == two.Get("success").Truthy(),
      one.Get("failure_type") == two.Get("failure_type"),
      one.Get("termination_reason") == two.Get("termination_reason"),
      (|a|, |b|),
      (one.Get("tool_calls_used"), two.Get("tool_calls_used")),
      added, removed, |b| - |a|, CallsOrZero(two) - CallsOrZero(one));
  }

  lemma AuditFits(trace: seq<Json>, i: nat)
    requires TraceShaped(trace)
    ensures AuditShaped(AuditValue(At(trace, i)))
  {
  }

  lemma NothingNew(a: set<AuditKey>, b: set<AuditKey>)
    requires a == b
    ensures |a - b| == 0 && |b - a| == 0
  {
    assert a - b == {} && b - a == {};
  }

  // ---- laws of the diff ------------------------------------------------------------------------

  predicate Differs(a: seq<Json>, b: seq<Json>, i: nat)
  {
    !SameStep(a, b, i)
  }

  // Every step that differs is reported once, in order, and nothing else is.
  lemma DiffsReport(a: seq<Json>, b: seq<Json>, n: nat)
    ensures forall d :: d in Diffs(a, b, n) <==> exists i: nat | i < n :: Differs(a, b, i) && d == DiffAt(a, b, i)
    ensures forall j, k | 0 <= j < k < |Diffs(a, b, n)| :: Diffs(a, b, n)[j].step < Diffs(a, b, n)[k].step
    ensures forall d <- Diffs(a, b, n) :: 1 <= d.step <= n
  {
    hide Differs, DiffAt, Diffs;
    forall d ensures d in Diffs(a, b, n) <==> exists i: nat | i < n :: Differs(a, b, i) && d == DiffAt(a, b, i) {
      DiffListed(a, b, n, d);
    }
    DiffsInOrder(a, b, n);
  }

  lemma {:induction false} DiffListed(a: seq<Json>, b: seq<Json>, n: nat, d: StepDiff)
    ensures d in Diffs(a, b, n) <==> exists i: nat | i < n :: Differs(a, b, i) && d == DiffAt(a, b, i)
  {
    hide SameStep, DiffAt;
    if n > 0 {
      DiffListed(a, b, n - 1, d);
      assert d in Diffs(a, b, n) <==> d in Diffs(a, b, n - 1) || (Differs(a, b, n - 1) && d == DiffAt(a, b, n - 1));
      if exists i: nat | i < n :: Differs(a, b, i) && d == DiffAt(a, b, i) {
        var i: nat :| i < n && Differs(a, b, i) && d == DiffAt(a, b, i);
        assert i < n - 1 || i == n - 1;
      }
    }
  }

  lemma {:induction false} DiffsInOrder(a: seq<Json>, b: seq<Json>, n: nat)
    ensures forall j, k | 0 <= j < k < |Diffs(a, b, n)| :: Diffs(a, b, n)[j].step < Diffs(a, b, n)[k].step
    ensures forall j | 0 <= j < |Diffs(a, b, n)| :: 1 <= Diffs(a, b, n)[j].step <= n
  {
    hide SameStep, DeltaAt, NormalizeEntry;
    if n > 0 { DiffsInOrder(a, b, n - 1); }
  }

  // What a reported step shows: the entry of each run under its own side, and the change from
  // the accesses of the first to those of the second.
  lemma DiffTells(a: seq<Json>, b: seq<Json>, n: nat, d: StepDiff)
    requires d in Diffs(a, b, n)
    ensures 1 <= d.step <= n
    ensures var i := d.step - 1;
            var x, y := if i < |a| then Some(a[i]) else None, if i < |b| then Some(b[i]) else None;
            && d.one == NormalizeEntry(x) && d.two == NormalizeEntry(y)
            && d.delta == DeltaOf(IoKeys(AuditValue(x)), IoKeys(AuditValue(y)))
  {
    hide NormalizeEntry, IoKeys, DeltaOf, AuditValue, Differs, Diffs;
    DiffsReport(a, b, n);
  }

  // No step differs exactly when all steps agree.
  lemma NoDiffsIffSame(a: seq<Json>, b: seq<Json>, n: nat)
    ensures Diffs(a, b, n) == [] <==> forall i: nat | i < n :: SameStep(a, b, i)
  {
    hide SameStep, DiffAt, Diffs;
    DiffsReport(a, b, n);
    if Diffs(a, b, n) == [] {
      forall i: nat | i < n ensures SameStep(a, b, i) {
        assert !SameStep(a, b, i) ==> DiffAt(a, b, i) in Diffs(a, b, n);
      }
    } else {
      assert Diffs(a, b, n)[0] in Diffs(a, b, n);
    }
  }

  // What is compared of an entry: every field that is set, but the five that differ from run
  // to run.
  lemma EntryNormal(x: Json, key: string)
    requires x.Obj?
    ensures var n := NormalizeEntry(Some(x));
            && n.Some? && n.value.Obj?
            && n.value.Get(key) ==
               (if key in ["action_ts", "budget_after_step", "budget_delta", "io_audit", "telemetry"] then Null else x.Get(key))
            && (n.value.Has(key) <==> n.value.Get(key) != Null)
  {
  }

  // Two entries have every compared field in common.
  ghost predicate SameFields(x: Json, y: Json)
  {
    forall key: string ::
      key !in ["action_ts", "budget_after_step", "budget_delta", "io_audit", "telemetry"] ==> x.Get(key) == y.Get(key)
  }

  // Dictionary entries compare equal exactly when they have every compared field in common.
  lemma EntriesSameIff(x: Json, y: Json)
    requires x.Obj? && y.Obj?
    ensures NormalizeEntry(Some(x)) == NormalizeEntry(Some(y)) <==> SameFields(x, y)
  {
    EntryNormal(x, "");
    EntryNormal(y, "");
    var p, q := NormalizeEntry(Some(x)).value, NormalizeEntry(Some(y)).value;
    forall key
      ensures key !in ["action_ts", "budget_after_step", "budget_delta", "io_audit", "telemetry"] ==>
                p.Get(key) == x.Get(key) && q.Get(key) == y.Get(key)
      ensures p.Has(key) <==> p.Get(key) != Null
      ensures q.Has(key) <==> q.Get(key) != Null
      ensures SameFields(x, y) ==> p.Get(key) == q.Get(key)
    {
      EntryNormal(x, key);
      EntryNormal(y, key);
    }
    hide NormalizeEntry;
    if SameFields(x, y) {
      assert p.fields.Keys == q.fields.Keys by {
        forall key ensures key in p.fields <==> key in q.fields { assert p.Has(key) <==> q.Has(key); }
      }
      forall key | key in p.fields ensures p.fields[key] == q.fields[key] { assert p.Get(key) == q.Get(key); }
      assert p.fields == q.fields;
    }
  }

  // A raw audit item that says something in type, op, path or host, and what it says there as
  // far as that is text.
  predicate Shows(raw: Json, key: AuditKey)
  {
    && raw.Obj?
    && (raw.Get("type").Str? || raw.Get("op").Str? || raw.Get("path").Str? || raw.Get("host").Str?)
    && key.kind == (if raw.Get("type").Str? then raw.Get("type").s else "")
    && key.op == (if raw.Get("op").Str? then raw.Get("op").s else "")
    && key.path == (if raw.Get("path").Str? then raw.Get("path").s else "")
    && key.host == (if raw.Get("host").Str? then raw.Get("host").s else "")
  }

  // The accesses an audit value records are those its items show.
  lemma IoKeysMean(audit: Json, key: AuditKey)
    ensures key in IoKeys(audit) <==> audit.Arr? && exists raw <- audit.items :: Shows(raw, key)
  {
    hide Shows, Cleaned, KeyOf;
    var items := Listed(audit);
    forall raw <- items { CleanedMeans(raw, key); }
    if key in IoKeys(audit) {
      var i :| 0 <= i < |items| && Cleaned(items[i]).Some? && key == KeyOf(Cleaned(items[i]).value);
      assert items[i] in items;
    }
    if audit.Arr? && exists raw <- audit.items :: Shows(raw, key) {
      var raw :| raw in audit.items && Shows(raw, key);
      var i :| 0 <= i < |items| && items[i] == raw;
    }
  }

  lemma CleanedMeans(raw: Json, key: AuditKey)
    ensures Cleaned(raw).Some? && KeyOf(Cleaned(raw).value) == key <==> Shows(raw, key)
  {
    if raw.Obj? {
      var kept := map k | k in AUDIT_FIELDS && k in raw.fields && raw.fields[k].Str? :: raw.fields[k];
      assert (raw.Get("type").Str? ==> "type" in kept) && (raw.Get("op").Str? ==> "op" in kept);
      assert (raw.Get("path").Str? ==> "path" in kept) && (raw.Get("host").Str? ==> "host" in kept);
    }
  }

  // diff_runs reports nothing exactly when the traces agree, step by step, in every field but
  // those five and in the accesses recorded: so also in action and result.
  lemma NoDiffsIffAgree(a: seq<Json>, b: seq<Json>)
    requires forall e <- a + b :: e.Obj?
    ensures Diffs(a, b, Longer(a, b)) == [] <==>
              |a| == |b| && forall i | 0 <= i < |a| ::
                SameFields(a[i], b[i]) && IoKeys(a[i].Get("io_audit")) == IoKeys(b[i].Get("io_audit"))
    ensures Diffs(a, b, Longer(a, b)) == [] ==>
              forall i | 0 <= i < |a| :: a[i].Get("action") == b[i].Get("action") && a[i].Get("result") == b[i].Get("result")
  {
    hide IoKeys, NormalizeEntry, Diffs;
    var n := Longer(a, b);
    NoDiffsIffSame(a, b, n);
    if Diffs(a, b, n) == [] { NoDiffsSameLength(a, b); }
    forall i | 0 <= i < |a| && |a| == |b|
      ensures SameStep(a, b, i) <==> SameFields(a[i], b[i]) && IoKeys(a[i].Get("io_audit")) == IoKeys(b[i].Get("io_audit"))
      ensures SameFields(a[i], b[i]) ==> a[i].Get("action") == b[i].Get("action") && a[i].Get("result") == b[i].Get("result")
    {
      assert a[i] in a + b && b[i] in a + b;
      EntriesSameIff(a[i], b[i]);
    }
  }

  // The summary of a run: eight fields as they are, and whether it succeeded.
  lemma SummaryMeans(run: Json, key: string)
    ensures RunSummary(run).GetOr(key, Null) ==
              if key == "success" then Bool(run.Get("success").Truthy())
              else if key in ["run_id", "agent", "task_ref", "failure_type", "termination_reason", "steps_used", "tool_calls_used", "seed"]
              then run.Get(key) else Null
  {
  }

  // Traces of dictionaries without a difference are equally long.
  lemma NoDiffsSameLength(a: seq<Json>, b: seq<Json>)
    requires forall e <- a + b :: e.Obj?
    requires Diffs(a, b, Longer(a, b)) == []
    ensures |a| == |b|
  {
    hide SameStep, DiffAt, Diffs;
    var n := Longer(a, b);
    NoDiffsIffSame(a, b, n);
    if |a| != |b| {
      MissingEntryDiffers(a, b, n - 1);
    }
  }

  lemma MissingEntryDiffers(a: seq<Json>, b: seq<Json>, i: nat)
    requires forall e <- a + b :: e.Obj?
    requires i < Longer(a, b) && (i >= |a| || i >= |b|)
    ensures !SameStep(a, b, i)
  {
    hide IoKeys;
    if i < |a| {
      assert a[i] in a + b;
      assert NormalizeEntry(At(a, i)).Some? && NormalizeEntry(At(b, i)).None?;
    } else {
      assert b[i] in a + b;
      assert NormalizeEntry(At(b, i)).Some? && NormalizeEntry(At(a, i)).None?;
    }
  }

  function SwapStep(d: StepDiff): StepDiff
  {
    StepDiff(d.step, d.two, d.one, SwapDelta(d.delta))
  }

  // Comparing the other way round reports the same steps with both sides, and added and
  // removed, exchanged.
  lemma {:induction false} DiffsSwap(a: seq<Json>, b: seq<Json>, n: nat)
    ensures |Diffs(b, a, n)| == |Diffs(a, b, n)|
    ensures forall k | 0 <= k < |Diffs(a, b, n)| :: Diffs(b, a, n)[k] == SwapStep(Diffs(a, b, n)[k])
  {
    hide SameStep, NormalizeEntry, IoKeys, Entries, SortedKeys;
    if n > 0 {
      DiffsSwap(a, b, n - 1);
      assert SameStep(a, b, n - 1) <==> SameStep(b, a, n - 1) by { SameStepSymmetric(a, b, n - 1); }
      assert DiffAt(b, a, n - 1) == SwapStep(DiffAt(a, b, n - 1));
    }
  }

  lemma SameStepSymmetric(a: seq<Json>, b: seq<Json>, i: nat)
    ensures SameStep(a, b, i) <==> SameStep(b, a, i)
  {
    hide NormalizeEntry, IoKeys;
  }

  // The number of distinct accesses, summed over the steps.
  ghost function Accesses(a: seq<Json>, n: nat): nat
  {
    if n == 0 then 0 else Accesses(a, n - 1) + |IoKeys(AuditValue(At(a, n - 1)))|
  }

  // What the reported deltas add up to.
  ghost function Added(diffs: seq<StepDiff>): nat
  {
    if diffs == [] then 0
    else Added(diffs[..|diffs| - 1]) + (match diffs[|diffs| - 1].delta case None => 0 case Some(d) => |d.added|)
  }

  // The summary count is the sum over the reported steps, and the two counts balance the
  // accesses of the two runs.
  lemma {:induction false} CountsBalance(a: seq<Json>, b: seq<Json>, n: nat)
    ensures NewAccesses(a, b, n) == Added(Diffs(a, b, n))
    ensures Accesses(b, n) - Accesses(a, n) == NewAccesses(a, b, n) - NewAccesses(b, a, n)
  {
    hide NormalizeEntry, IoKeys, DeltaOf, AuditValue, At;
    if n > 0 {
      CountsBalance(a, b, n - 1);
      var x, y := IoKeys(AuditValue(At(a, n - 1))), IoKeys(AuditValue(At(b, n - 1)));
      DeltaCounts(x, y);
      Inclusion(x, y);
      if SameStep(a, b, n - 1) {
        assert Diffs(a, b, n) == Diffs(a, b, n - 1);
      } else {
        var before, last := Diffs(a, b, n - 1), DiffAt(a, b, n - 1);
        assert Diffs(a, b, n) == before + [last];
        assert (before + [last])[..|before|] == before;
        assert last.delta == DeltaOf(x, y);
      }
    }
  }

  lemma Inclusion(x: set<AuditKey>, y: set<AuditKey>)
    ensures |y| - |x| == |y - x| - |x - y|
  {
    assert x == (x - y) + (x * y) && y == (y - x) + (x * y);
  }
}
