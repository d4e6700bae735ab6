// agent_bench/runner/migration.py: bringing a stored run artifact to the current form.
module Migration {
  import opened Values
  import opened Failures

  const SPEC_VERSION := Str("tracecore-spec-v1.0")

  // A key of the artifact: None when it is absent.
  type Slot = Option<Json>

  // dict.get
  function Get(slot: Slot): Json
  {
    if slot.Some? then slot.value else Null
  }

  // An artifact: the keys that migration reads or writes, and all the others.
  datatype Run = Run(
    agent: Slot,
    agentRef: Slot,
    taskHash: Slot,
    runtimeIdentity: Slot,
    budgets: Slot,
    artifactHash: Slot,
    validator: Slot,
    evidenceLinks: Slot,
    specVersion: Slot,
    harnessVersion: Slot,
    startedAt: Slot,
    success: Slot,
    failureType: Slot,
    termination: Slot,
    failureReason: Slot,
    stepsUsed: Slot,
    callsUsed: Slot,
    trace: Slot,
    others: map<string, Json>)

  // What a migration gets from outside: the installed version, and the hash of an artifact
  // as _inject_artifact_hash writes it.
  datatype Setting = Setting(harness: string, digest: Run -> string)

  // ---- helpers ---------------------------------------------------------------------------

  // dict(existing) or {}, then setdefault for each default.
  function Completed(existing: Json, defaults: map<string, Json>): Json
  {
    Obj(defaults + (if existing.Obj? then existing.fields else map[]))
  }

  lemma CompletedKeeps(existing: Json, defaults: map<string, Json>)
    ensures var r := Completed(existing, defaults);
            && r.Obj? && defaults.Keys <= r.fields.Keys
            && (existing.Obj? ==> forall k <- existing.fields :: k in r.fields && r.fields[k] == existing.fields[k])
            && (r == existing <==> existing.Obj? && defaults.Keys <= existing.fields.Keys)
  {
    var r := Completed(existing, defaults);
    if existing.Obj? && defaults.Keys <= existing.fields.Keys {
      assert r.fields == existing.fields;
    }
  }

  function IdentityDefaults(r: Run, setting: Setting): map<string, Json>
  {
    map["name" := Str("tracecore"),
        "version" := if Get(r.harnessVersion).Truthy() then Get(r.harnessVersion) else Str(setting.harness),
        "git_sha" := Null]
  }

  // int(value) if isinstance(value, int) else 0; a bool is an int.
  function Count(value: Json): Json
  {
    match value
    case Int(n) => Int(n)
    case Bool(b) => Int(if b then 1 else 0)
    case _ => Int(0)
  }

  function BudgetDefaults(r: Run): map<string, Json>
  {
    map["steps" := Count(Get(r.stepsUsed)), "tool_calls" := Count(Get(r.callsUsed))]
  }

  const LINK_DEFAULTS: map<string, Json> := map["bundle_dir" := Null, "bundle_manifest" := Null]

  const NO_BUDGET := Obj(map["steps" := Int(0), "tool_calls" := Int(0)])

  function EntryDefaults(index: nat, started: Json): map<string, Json>
  {
    map["step" := Int(index), "action_ts" := started, "observation" := Obj(map[]), "action" := Obj(map[]),
        "result" := Obj(map[]), "io_audit" := Arr([]), "budget_after_step" := NO_BUDGET, "budget_delta" := NO_BUDGET]
  }

  lemma SameEntryKeys(i: nat, j: nat, s: Json, t: Json)
    ensures EntryDefaults(i, s).Keys == EntryDefaults(j, t).Keys
  {
  }

  function TraceFrom(raw: seq<Json>, started: Json): (entries: seq<Json>)
    ensures |entries| == |raw|
    ensures forall i | 0 <= i < |raw| :: entries[i] == Completed(raw[i], EntryDefaults(i + 1, started))
  {
    seq(|raw|, i requires 0 <= i < |raw| => Completed(raw[i], EntryDefaults(i + 1, started)))
  }

  // What _normalize_action_trace returns.
  function TraceOf(r: Run): Json
  {
    Arr(TraceFrom(if Get(r.trace).Arr? then Get(r.trace).items else [], Get(r.startedAt)))
  }

  // _normalize_action_trace
  method NormalizeActionTrace(r: Run) returns (trace: Json)
    ensures trace == TraceOf(r)
  {
    hide EntryDefaults;
    if !Get(r.trace).Arr? {
      return Arr([]);
    }
    var raw := Get(r.trace).items;
    var entries: seq<Json> := [];
    for i := 0 to |raw|
      invariant |entries| == i
      invariant forall k | 0 <= k < i :: entries[k] == Completed(raw[k], EntryDefaults(k + 1, Get(r.startedAt)))
    {
      entries := entries + [Completed(raw[i], EntryDefaults(i + 1, Get(r.startedAt)))];
    }
    assert entries == TraceFrom(raw, Get(r.startedAt));
    trace := Arr(entries);
  }

  // classify_failure on a value from an artifact; None is the TypeError for an unhashable one.
  function Classified(termination: Json): Option<Json>
  {
    match termination
    case Str(s) => Some(Str(ClassifyFailure(s)))
    case Arr(_) => None
    case Obj(_) => None
    case _ => Some(Str("logic_failure"))
  }

  // ---- the migrated artifact ---------------------------------------------------------------

  predicate Succeeded(r: Run)
  {
    if r.success.Some? then r.success.value.Truthy() else Get(r.failureType) == Null
  }

  function TerminationOr(r: Run): Json
  {
    if Get(r.termination).Truthy() then Get(r.termination) else Str("logic_failure")
  }

  // The failure type of a failed run before it is validated.
  function Proposed(r: Run): Option<Json>
  {
    if Get(r.failureType).Truthy() then Some(Get(r.failureType)) else Classified(TerminationOr(r))
  }

  // Migration raises nothing: the run succeeded, or its failure type is in the taxonomy or
  // can be derived.
  predicate Migratable(r: Run)
  {
    Succeeded(r) || (Proposed(r).Some? && IsTaxonomy(Proposed(r).value))
  }

  function Put(slot: Slot, value: Json): Slot
  {
    if Get(slot) == value then slot else Some(value)
  }

  function Present(slot: Slot): Slot
  {
    if slot.None? then Some(Null) else slot
  }

  // The outcome keys after migration.
  function Outcome(r: Run): Run
    requires Migratable(r)
  {
    if Succeeded(r) then
      r.(success := if r.success.None? then Some(Bool(true)) else r.success,
         failureType := Put(r.failureType, Null),
         termination := if Get(r.termination) == Null then Some(Str("success")) else r.termination,
         failureReason := Put(r.failureReason, Null))
    else
      r.(success := if r.success.None? then Some(Bool(false)) else r.success,
         termination := Put(r.termination, TerminationOr(r)),
         failureType := Put(r.failureType, Proposed(r).value),
         failureReason := if Get(r.failureReason) == Null then Some(TerminationOr(r)) else r.failureReason)
  }

  // Everything but the hash.
  function Updated(r: Run, setting: Setting): Run
    requires Migratable(r)
  {
    Outcome(r).(
      specVersion := Put(r.specVersion, SPEC_VERSION),
      agentRef := if Get(r.agent).Truthy() && !Get(r.agentRef).Truthy() then r.agent else Present(r.agentRef),
      taskHash := if r.taskHash.None? then Some(Str("unknown")) else r.taskHash,
      runtimeIdentity := Put(Present(r.runtimeIdentity), Completed(Get(r.runtimeIdentity), IdentityDefaults(r, setting))),
      budgets := Put(Present(r.budgets), Completed(Get(r.budgets), BudgetDefaults(r))),
      artifactHash := Present(r.artifactHash),
      validator := Present(r.validator),
      evidenceLinks := Put(Present(r.evidenceLinks), Completed(Get(r.evidenceLinks), LINK_DEFAULTS)),
      trace := Put(r.trace, TraceOf(r)))
  }

  function Migrated(r: Run, setting: Setting): Run
    requires Migratable(r)
  {
    var u := Updated(r, setting);
    if u == r && Get(u.artifactHash) != Null then u else u.(artifactHash := Some(Str(setting.digest(u))))
  }

  // The artifact after the defaults for missing top-level keys.
  function Filled(r: Run): Run
  {
    r.(agentRef := Present(r.agentRef), taskHash := if r.taskHash.None? then Some(Str("unknown")) else r.taskHash,
       runtimeIdentity := Present(r.runtimeIdentity), budgets := Present(r.budgets), artifactHash := Present(r.artifactHash),
       validator := Present(r.validator), evidenceLinks := Present(r.evidenceLinks))
  }

  // The loop over the required keys, one key a turn.
  method FillTopLevel(payload: Run) returns (m: Run, changed: bool)
    ensures m == Filled(payload) && (changed <==> m != payload)
  {
    m, changed := payload, false;
    if m.agentRef.None? { m, changed := m.(agentRef := Some(Null)), true; }
    if m.taskHash.None? { m, changed := m.(taskHash := Some(Str("unknown"))), true; }
    if m.runtimeIdentity.None? { m, changed := m.(runtimeIdentity := Some(Null)), true; }
    if m.budgets.None? { m, changed := m.(budgets := Some(Null)), true; }
    if m.artifactHash.None? { m, changed := m.(artifactHash := Some(Null)), true; }
    if m.validator.None? { m, changed := m.(validator := Some(Null)), true; }
    if m.evidenceLinks.None? { m, changed := m.(evidenceLinks := Some(Null)), true; }
  }

  // The artifact after the keys that say where it comes from and what it may use.
  function Sourced(r: Run, setting: Setting): Run
  {
    r.(specVersion := Put(r.specVersion, SPEC_VERSION),
       runtimeIdentity := Put(r.runtimeIdentity, Completed(Get(r.runtimeIdentity), IdentityDefaults(r, setting))),
       agentRef := if Get(r.agent).Truthy() && !Get(r.agentRef).Truthy() then r.agent else r.agentRef,
       budgets := Put(r.budgets, Completed(Get(r.budgets), BudgetDefaults(r))),
       evidenceLinks := Put(r.evidenceLinks, Completed(Get(r.evidenceLinks), LINK_DEFAULTS)))
  }

  method UpdateSource(payload: Run, setting: Setting) returns (m: Run, changed: bool)
    ensures m == Sourced(payload, setting) && (changed <==> m != payload)
  {
    hide Completed, IdentityDefaults, BudgetDefaults;
    m, changed := payload, false;
    if Get(m.specVersion) != SPEC_VERSION { m, changed := m.(specVersion := Some(SPEC_VERSION)), true; }
    var identity := Completed(Get(m.runtimeIdentity), IdentityDefaults(m, setting));
    SameIdentity(m, payload, setting);
    if Get(m.runtimeIdentity) != identity { m, changed := m.(runtimeIdentity := Some(identity)), true; }
    if Get(m.agent).Truthy() && !Get(m.agentRef).Truthy() { m, changed := m.(agentRef := Some(Get(m.agent))), true; }
    var budgets := Completed(Get(m.budgets), BudgetDefaults(m));
    SameBudgets(m, payload);
    if Get(m.budgets) != budgets { m, changed := m.(budgets := Some(budgets)), true; }
    var links := Completed(Get(m.evidenceLinks), LINK_DEFAULTS);
    if Get(m.evidenceLinks) != links { m, changed := m.(evidenceLinks := Some(links)), true; }
  }

  // migrate_run_artifact: the changed flag tells exactly whether anything changed.
  method MigrateRunArtifact(payload: Run, setting: Setting) returns (result: Result<(Run, bool), string>)
    ensures result.Ok? <==> Migratable(payload)
    ensures result.Ok? ==> result.value.0 == Migrated(payload, setting) && (result.value.1 <==> result.value.0 != payload)
  {
    hide Completed, IdentityDefaults, BudgetDefaults, TraceOf, Filled, Sourced, Outcome, Updated, Migratable;
    var m, changed := FillTopLevel(payload);
    var sourced, more := UpdateSource(m, setting);
    FillingKeeps(payload, setting);
    var settled := SettleOutcome(sourced);
    if settled.Err? {
      return Err(settled.error);
    }
    changed := changed || more || settled.value.1;
    m := settled.value.0;
    var trace := NormalizeActionTrace(m);
    StagesMeet(payload, setting);
    if Get(m.trace) != trace { m, changed := m.(trace := Some(trace)), true; }
    assert m == Updated(payload, setting);
    assert changed <==> m != payload;
    if Get(m.artifactHash) == Null || changed {
      HashShows(m, payload, setting.digest(m));
      m := m.(artifactHash := Some(Str(setting.digest(m))));
      changed := true;
    }
    result := Ok((m, changed));
  }

  // Writing a hash never turns an artifact back into the one it came from.
  lemma HashShows(u: Run, r: Run, text: string)
    requires u.artifactHash == Present(r.artifactHash) && (u != r || Get(u.artifactHash) == Null)
    ensures u.(artifactHash := Some(Str(text))) != r
  {
  }

  lemma FillingKeeps(r: Run, setting: Setting)
    ensures Migratable(Sourced(Filled(r), setting)) <==> Migratable(r)
  {
    hide Completed, IdentityDefaults, BudgetDefaults, Proposed;
    var s := Sourced(Filled(r), setting);
    assert Proposed(s) == Proposed(r) by { SameProposal(s, r); }
  }

  lemma SameProposal(a: Run, b: Run)
    requires a.failureType == b.failureType && a.termination == b.termination
    ensures Proposed(a) == Proposed(b)
  {
  }

  // The stages together make up Updated, and a change in any of them is a change in all.
  lemma StagesMeet(r: Run, setting: Setting)
    requires Migratable(r) && Migratable(Sourced(Filled(r), setting))
    ensures var f := Filled(r);
            var s := Sourced(f, setting);
            var o := Outcome(s);
            && TraceOf(o) == TraceOf(r) && o.trace == r.trace
            && Updated(r, setting).artifactHash == Present(r.artifactHash)
            && Updated(r, setting) == o.(trace := Put(o.trace, TraceOf(o)))
            && (o == r <==> f == r && s == f && o == s)
            && (Updated(r, setting) == r ==> o == r)
  {
    hide Completed, IdentityDefaults, BudgetDefaults, TraceOf, Proposed, TraceFrom;
    var f := Filled(r);
    var s := Sourced(f, setting);
    SameIdentity(f, r, setting);
    SameBudgets(f, r);
    SameProposal(s, r);
    OutcomeFrames(s);
    SameTrace(Outcome(s), r);
  }

  lemma SameIdentity(a: Run, b: Run, setting: Setting)
    requires a.harnessVersion == b.harnessVersion
    ensures IdentityDefaults(a, setting) == IdentityDefaults(b, setting)
  {
  }

  lemma SameBudgets(a: Run, b: Run)
    requires a.stepsUsed == b.stepsUsed && a.callsUsed == b.callsUsed
    ensures BudgetDefaults(a) == BudgetDefaults(b)
  {
  }

  lemma SameTrace(a: Run, b: Run)
    requires a.trace == b.trace && a.startedAt == b.startedAt
    ensures TraceOf(a) == TraceOf(b)
  {
  }

  // How the outcome keys of a migrated artifact follow from those of the artifact: a given
  // success stays as it is, a missing one is told by the failure type alone; a given failure
  // type stays, a missing one follows from the termination reason.
  predicate OutcomeReads(r: Run, m: Run)
  {
    && m.success == Some(if r.success.Some? then r.success.value else Bool(Get(r.failureType) == Null))
    && (if m.success.value.Truthy() then
          && Get(m.failureType) == Null && Get(m.failureReason) == Null
          && Get(m.termination) == (if Get(r.termination) == Null then Str("success") else Get(r.termination))
        else
          && Get(m.termination) == (if Get(r.termination).Truthy() then Get(r.termination) else Str("logic_failure"))
          && Get(m.failureReason) == (if Get(r.failureReason) == Null then Get(m.termination) else Get(r.failureReason))
          && IsTaxonomy(Get(m.failureType))
          && Get(m.failureType) ==
             (if Get(r.failureType).Truthy() then Get(r.failureType)
              else if Get(m.termination).Str? then Str(ClassifyFailure(Get(m.termination).s)) else Str("logic_failure")))
  }

  lemma OutcomeMeans(r: Run)
    requires Migratable(r)
    ensures OutcomeReads(r, Outcome(r))
  {
    hide ClassifyFailure, IsFailureType;
  }

  // What migration raises on: a failure with a failure type outside the taxonomy, or without
  // one and with a termination reason that cannot be a key.
  lemma MigratableIff(r: Run)
    ensures Migratable(r) <==>
              || (if r.success.Some? then r.success.value.Truthy() else Get(r.failureType) == Null)
              || (if Get(r.failureType).Truthy() then IsTaxonomy(Get(r.failureType))
                  else !(Get(r.termination).Truthy() && (Get(r.termination).Arr? || Get(r.termination).Obj?)))
  {
    hide ClassifyFailure;
  }

  // The part of migrate_run_artifact that settles success and failure.
  method SettleOutcome(payload: Run) returns (result: Result<(Run, bool), string>)
    ensures result.Ok? <==> Migratable(payload)
    ensures result.Ok? ==> result.value.0 == Outcome(payload) && (result.value.1 <==> result.value.0 != payload)
    ensures result.Ok? ==> OutcomeReads(payload, result.value.0)
  {
    hide Proposed, IsTaxonomy;
    var m, changed := payload, false;
    if m.success.None? { m, changed := m.(success := Some(Bool(Get(m.failureType) == Null))), true; }
    SameProposal(m, payload);
    var more;
    if Get(m.success).Truthy() {
      m, more := SettleSuccess(m);
    } else {
      result := SettleFailure(m);
      if result.Err? {
        return;
      }
      m, more := result.value.0, result.value.1;
    }
    OutcomeMeans(payload);
    result := Ok((m, changed || more));
  }

  method SettleSuccess(payload: Run) returns (m: Run, changed: bool)
    requires payload.success.Some? && Succeeded(payload)
    ensures m == Outcome(payload) && (changed <==> m != payload)
  {
    m, changed := payload, false;
    if Get(m.failureType) != Null { m, changed := m.(failureType := Some(Null)), true; }
    if Get(m.termination) == Null { m, changed := m.(termination := Some(Str("success"))), true; }
    if Get(m.failureReason) != Null { m, changed := m.(failureReason := Some(Null)), true; }
  }

  method SettleFailure(payload: Run) returns (result: Result<(Run, bool), string>)
    requires payload.success.Some? && !Succeeded(payload)
    ensures result.Ok? <==> Migratable(payload)
    ensures result.Ok? ==> result.value.0 == Outcome(payload) && (result.value.1 <==> result.value.0 != payload)
  {
    hide IsTaxonomy, Classified;
    var m, changed := payload, false;
    var termination := if Get(m.termination).Truthy() then Get(m.termination) else Str("logic_failure");
    if Get(m.termination) != termination { m, changed := m.(termination := Some(termination)), true; }
    var kind := Get(m.failureType);
    if !kind.Truthy() {
      var classified := Classified(termination);
      if classified.None? {
        return Err("unhashable termination_reason");
      }
      kind := classified.value;
    }
    var validated := ValidateFailureType(false, kind);
    if validated.Err? {
      return Err(validated.error);
    }
    if Get(m.failureType) != validated.value { m, changed := m.(failureType := Some(validated.value)), true; }
    if Get(m.failureReason) == Null { m, changed := m.(failureReason := Some(termination)), true; }
    result := Ok((m, changed));
  }

  // ---- laws ------------------------------------------------------------------------------------

  // A migrated artifact: success without failure fields, or a failure with a taxonomy type,
  // a termination reason and a failure reason.
  lemma MigratedOutcome(r: Run, setting: Setting)
    requires Migratable(r)
    ensures var m := Migrated(r, setting);
            && (Get(m.success).Truthy() <==> Succeeded(r))
            && (if Succeeded(r) then Get(m.failureType) == Null && Get(m.failureReason) == Null && Get(m.termination) != Null
                else IsTaxonomy(Get(m.failureType)) && Get(m.termination).Truthy() && Get(m.failureReason) != Null)
            && OutcomeReads(r, m)
  {
    hide Completed, IdentityDefaults, BudgetDefaults, TraceOf, OutcomeReads;
    OutcomeMeans(r);
    SameOutcome(r, Outcome(r), Migrated(r, setting));
  }

  lemma SameOutcome(r: Run, a: Run, b: Run)
    requires OutcomeReads(r, a)
    requires a.success == b.success && a.failureType == b.failureType && a.termination == b.termination && a.failureReason == b.failureReason
    ensures OutcomeReads(r, b)
  {
  }

  // A dictionary that was there keeps its values, and a key it lacked gets the default.
  lemma CompletedGet(existing: Json, defaults: map<string, Json>, key: string)
    requires key in defaults
    ensures Completed(existing, defaults).Get(key) == existing.GetOr(key, defaults[key])
  {
  }

  // What the other keys get where they are missing.
  lemma MigratedKeys(r: Run, setting: Setting)
    requires Migratable(r)
    ensures var m := Migrated(r, setting);
            && m.specVersion == Some(Str("tracecore-spec-v1.0"))
            && m.taskHash == Some(if r.taskHash.Some? then r.taskHash.value else Str("unknown"))
            && m.validator == Some(Get(r.validator))
            && m.agentRef == Some(if Get(r.agent).Truthy() && !Get(r.agentRef).Truthy() then Get(r.agent) else Get(r.agentRef))
  {
    hide Completed, TraceOf, Outcome, IdentityDefaults, BudgetDefaults;
    OutcomeFrames(r);
  }

  // What identity, budgets and links get where they lack something.
  lemma MigratedDefaults(r: Run, setting: Setting)
    requires Migratable(r)
    ensures var m := Migrated(r, setting);
            var identity, budgets, links := Get(r.runtimeIdentity), Get(r.budgets), Get(r.evidenceLinks);
            && Get(m.runtimeIdentity).Get("name") == identity.GetOr("name", Str("tracecore"))
            && Get(m.runtimeIdentity).Get("git_sha") == identity.Get("git_sha")
            && Get(m.runtimeIdentity).Get("version") ==
               identity.GetOr("version", if Get(r.harnessVersion).Truthy() then Get(r.harnessVersion) else Str(setting.harness))
            && Get(m.budgets).Get("steps") == budgets.GetOr("steps", Count(Get(r.stepsUsed)))
            && Get(m.budgets).Get("tool_calls") == budgets.GetOr("tool_calls", Count(Get(r.callsUsed)))
            && Get(m.evidenceLinks).Get("bundle_dir") == links.Get("bundle_dir")
            && Get(m.evidenceLinks).Get("bundle_manifest") == links.Get("bundle_manifest")
  {
    hide Completed, TraceOf, Outcome, Count;
    OutcomeFrames(r);
    var identity, budgets, links := IdentityDefaults(r, setting), BudgetDefaults(r), LINK_DEFAULTS;
    CompletedGet(Get(r.runtimeIdentity), identity, "name");
    CompletedGet(Get(r.runtimeIdentity), identity, "version");
    CompletedGet(Get(r.runtimeIdentity), identity, "git_sha");
    CompletedGet(Get(r.budgets), budgets, "steps");
    CompletedGet(Get(r.budgets), budgets, "tool_calls");
    CompletedGet(Get(r.evidenceLinks), links, "bundle_dir");
    CompletedGet(Get(r.evidenceLinks), links, "bundle_manifest");
    DefaultsMean(r, setting);
    hide IdentityDefaults, BudgetDefaults, LINK_DEFAULTS;
  }

  lemma DefaultsMean(r: Run, setting: Setting)
    ensures var identity, budgets := IdentityDefaults(r, setting), BudgetDefaults(r);
            && identity.Keys == {"name", "version", "git_sha"} && identity["name"] == Str("tracecore") && identity["git_sha"] == Null
            && identity["version"] == (if Get(r.harnessVersion).Truthy() then Get(r.harnessVersion) else Str(setting.harness))
            && budgets.Keys == {"steps", "tool_calls"}
            && budgets["steps"] == Count(Get(r.stepsUsed)) && budgets["tool_calls"] == Count(Get(r.callsUsed))
            && LINK_DEFAULTS == map["bundle_dir" := Null, "bundle_manifest" := Null]
  {
    hide Count;
  }

  lemma CountMeans(value: Json)
    ensures Count(value) == (if value.Int? then value else if value == Bool(true) then Int(1) else Int(0))
  {
  }

  // What an entry of the trace gets where it lacks something.
  lemma MigratedEntry(r: Run, setting: Setting, i: nat)
    requires Migratable(r) && Get(r.trace).Arr? && i < |Get(r.trace).items|
    ensures Get(Migrated(r, setting).trace).Arr? && i < |Get(Migrated(r, setting).trace).items|
    ensures var before, after := Get(r.trace).items[i], Get(Migrated(r, setting).trace).items[i];
            var none := Obj(map["steps" := Int(0), "tool_calls" := Int(0)]);
            && after.Get("step") == before.GetOr("step", Int(i + 1))
            && after.Get("action_ts") == before.GetOr("action_ts", Get(r.startedAt))
            && after.Get("observation") == before.GetOr("observation", Obj(map[]))
            && after.Get("action") == before.GetOr("action", Obj(map[]))
            && after.Get("result") == before.GetOr("result", Obj(map[]))
            && after.Get("io_audit") == before.GetOr("io_audit", Arr([]))
            && after.Get("budget_after_step") == before.GetOr("budget_after_step", none)
            && after.Get("budget_delta") == before.GetOr("budget_delta", none)
  {
    hide IdentityDefaults, BudgetDefaults, Outcome, Completed, EntryDefaults;
    OutcomeFrames(r);
    assert Get(Migrated(r, setting).trace) == TraceOf(r);
    EntryCompleted(Get(r.trace).items[i], i + 1, Get(r.startedAt));
  }

  lemma EntryCompleted(raw: Json, index: nat, started: Json)
    ensures var after := Completed(raw, EntryDefaults(index, started));
            var none := Obj(map["steps" := Int(0), "tool_calls" := Int(0)]);
            && after.Get("step") == raw.GetOr("step", Int(index))
            && after.Get("action_ts") == raw.GetOr("action_ts", started)
            && after.Get("observation") == raw.GetOr("observation", Obj(map[]))
            && after.Get("action") == raw.GetOr("action", Obj(map[]))
            && after.Get("result") == raw.GetOr("result", Obj(map[]))
            && after.Get("io_audit") == raw.GetOr("io_audit", Arr([]))
            && after.Get("budget_after_step") == raw.GetOr("budget_after_step", none)
            && after.Get("budget_delta") == raw.GetOr("budget_delta", none)
  {
  }

  // A trace keeps its length, and its dictionary entries keep every field they have; fields
  // that migration does not know stay as they are.
  lemma MigratedKeeps(r: Run, setting: Setting)
    requires Migratable(r)
    ensures var m := Migrated(r, setting);
            && m.others == r.others && m.agent == r.agent && m.harnessVersion == r.harnessVersion && m.startedAt == r.startedAt
            && m.stepsUsed == r.stepsUsed && m.callsUsed == r.callsUsed
            && Get(m.trace).Arr?
            && (Get(r.trace).Arr? ==>
                  var before, after := Get(r.trace).items, Get(m.trace).items;
                  && |after| == |before|
                  && forall i | 0 <= i < |before| && before[i].Obj? ::
                    after[i].Obj? && forall k <- before[i].fields :: k in after[i].fields && after[i].fields[k] == before[i].fields[k])
  {
    hide IdentityDefaults, BudgetDefaults, EntryDefaults, Completed;
    var m := Migrated(r, setting);
    assert Get(m.trace) == TraceOf(r);
    if Get(r.trace).Arr? {
      var raw := Get(r.trace).items;
      forall i | 0 <= i < |raw| && raw[i].Obj?
        ensures Get(m.trace).items[i].Obj?
        ensures forall k <- raw[i].fields :: k in Get(m.trace).items[i].fields && Get(m.trace).items[i].fields[k] == raw[i].fields[k]
      {
        CompletedKeeps(raw[i], EntryDefaults(i + 1, Get(r.startedAt)));
      }
    }
  }

  // What an old artifact gets: budgets from its own counters, the agent as its reference, and
  // in place of an entry that is no dictionary one with its position and the start time.
  lemma MigratedBackfills(r: Run, setting: Setting)
    requires Migratable(r)
    ensures var m := Migrated(r, setting);
            && (!Get(r.budgets).Obj? ==> Get(m.budgets).Get("steps") == Count(Get(r.stepsUsed))
                                         && Get(m.budgets).Get("tool_calls") == Count(Get(r.callsUsed)))
            && (Get(r.agent).Truthy() && !Get(r.agentRef).Truthy() ==> m.agentRef == r.agent)
            && (Get(r.agentRef).Truthy() ==> m.agentRef == r.agentRef)
            && (Get(r.trace).Arr? ==> forall i | 0 <= i < |Get(r.trace).items| && !Get(r.trace).items[i].Obj? ::
                  Get(m.trace).items[i].Get("step") == Int(i + 1) && Get(m.trace).items[i].Get("action_ts") == Get(r.startedAt))
  {
    hide IdentityDefaults, EntryDefaults, Outcome, Completed;
    OutcomeFrames(r);
    var m := Migrated(r, setting);
    assert Get(m.trace) == TraceOf(r);
    assert Get(m.budgets) == Completed(Get(r.budgets), BudgetDefaults(r));
    if !Get(r.budgets).Obj? { CompletedFromNothing(Get(r.budgets), BudgetDefaults(r)); }
    if Get(r.trace).Arr? {
      var raw := Get(r.trace).items;
      forall i | 0 <= i < |raw| && !raw[i].Obj?
        ensures Get(m.trace).items[i].Get("step") == Int(i + 1) && Get(m.trace).items[i].Get("action_ts") == Get(r.startedAt)
      {
        CompletedFromNothing(raw[i], EntryDefaults(i + 1, Get(r.startedAt)));
        DefaultPosition(i + 1, Get(r.startedAt));
      }
    }
  }

  lemma CompletedFromNothing(value: Json, defaults: map<string, Json>)
    requires !value.Obj?
    ensures Completed(value, defaults) == Obj(defaults)
  {
    assert defaults + map[] == defaults;
  }

  lemma DefaultPosition(index: nat, started: Json)
    ensures Obj(EntryDefaults(index, started)).Get("step") == Int(index)
    ensures Obj(EntryDefaults(index, started)).Get("action_ts") == started
  {
  }

  lemma FilledStays(slot: Slot, d1: map<string, Json>, d2: map<string, Json>)
    requires d1.Keys == d2.Keys
    ensures var s := Put(slot, Completed(Get(slot), d1));
            Get(s) == Completed(Get(slot), d1) && Put(Present(s), Completed(Get(s), d2)) == s
  {
    var filled := Completed(Get(slot), d1);
    CompletedKeeps(Get(slot), d1);
    CompletedKeeps(filled, d2);
  }

  lemma TraceStays(r: Run, m: Run)
    requires Get(m.trace) == TraceOf(r)
    ensures TraceOf(m) == Get(m.trace)
  {
    hide EntryDefaults, Completed;
    var entries := Get(m.trace).items;
    forall i | 0 <= i < |entries| ensures Completed(entries[i], EntryDefaults(i + 1, Get(m.startedAt))) == entries[i] {
      var raw := if Get(r.trace).Arr? then Get(r.trace).items else [];
      CompletedKeeps(raw[i], EntryDefaults(i + 1, Get(r.startedAt)));
      SameEntryKeys(i + 1, i + 1, Get(r.startedAt), Get(m.startedAt));
      CompletedKeeps(entries[i], EntryDefaults(i + 1, Get(m.startedAt)));
    }
    assert TraceFrom(entries, Get(m.startedAt)) == entries;
  }

  lemma OutcomeSettled(r: Run, setting: Setting)
    requires Migratable(r)
    ensures var m := Migrated(r, setting); Migratable(m) && Outcome(m) == m
  {
    hide Completed, IdentityDefaults, BudgetDefaults, TraceOf, ClassifyFailure;
  }

  // Settling the outcome touches the outcome keys only.
  lemma OutcomeFrames(r: Run)
    requires Migratable(r)
    ensures var o := Outcome(r);
            o == r.(success := o.success, failureType := o.failureType, termination := o.termination, failureReason := o.failureReason)
  {
  }

  // What changes, or has no hash, gets the hash of the artifact as it is otherwise; what stays
  // keeps the hash it has.
  lemma MigratedHash(r: Run, setting: Setting)
    requires Migratable(r)
    ensures var m := Migrated(r, setting);
            var plain := m.(artifactHash := Present(r.artifactHash));
            if m == r then Get(r.artifactHash) != Null else m.artifactHash == Some(Str(setting.digest(plain)))
  {
    hide Completed, IdentityDefaults, BudgetDefaults, TraceOf, Outcome;
    OutcomeFrames(r);
    var u := Updated(r, setting);
    assert u.artifactHash == Present(r.artifactHash);
    if u != r || Get(u.artifactHash) == Null { HashShows(u, r, setting.digest(u)); }
  }

  // A second pass over any artifact that could be migrated changes nothing.
  lemma MigrationIdempotent(r: Run, setting: Setting)
    requires Migratable(r)
    ensures Migratable(Migrated(r, setting))
    ensures Migrated(Migrated(r, setting), setting) == Migrated(r, setting)
  {
    hide Completed, IdentityDefaults, BudgetDefaults, TraceOf, Outcome;
    var m := Migrated(r, setting);
    OutcomeSettled(r, setting);
    assert Put(m.specVersion, SPEC_VERSION) == m.specVersion;
    OutcomeFrames(r);
    SameIdentity(r, m, setting);
    SameBudgets(r, m);
    FilledStays(Present(r.runtimeIdentity), IdentityDefaults(r, setting), IdentityDefaults(m, setting));
    FilledStays(Present(r.budgets), BudgetDefaults(r), BudgetDefaults(m));
    FilledStays(Present(r.evidenceLinks), LINK_DEFAULTS, LINK_DEFAULTS);
    TraceStays(r, m);
    assert Updated(m, setting) == m;
  }

  // ---- what needs no migration -----------------------------------------------------------------

  const IDENTITY_KEYS: set<string> := {"name", "version", "git_sha"}
  const BUDGET_KEYS: set<string> := {"steps", "tool_calls"}
  const LINK_KEYS: set<string> := {"bundle_dir", "bundle_manifest"}
  const ENTRY_KEYS: set<string> :=
    {"step", "action_ts", "observation", "action", "result", "io_audit", "budget_after_step", "budget_delta"}

  predicate HoldsKeys(value: Json, keys: set<string>)
  {
    value.Obj? && keys <= value.fields.Keys
  }

  predicate OutcomeCurrent(r: Run)
  {
    && r.success.Some?
    && (if r.success.value.Truthy() then
          Get(r.failureType) == Null && Get(r.failureReason) == Null && Get(r.termination) != Null
        else
          IsTaxonomy(Get(r.failureType)) && Get(r.termination).Truthy() && Get(r.failureReason) != Null)
  }

  // The current form of an artifact.
  predicate Current(r: Run)
  {
    && r.agentRef.Some? && r.taskHash.Some? && r.validator.Some? && r.specVersion == Some(SPEC_VERSION)
    && Get(r.artifactHash) != Null
    && (Get(r.agent).Truthy() ==> Get(r.agentRef).Truthy())
    && HoldsKeys(Get(r.runtimeIdentity), IDENTITY_KEYS)
    && HoldsKeys(Get(r.budgets), BUDGET_KEYS)
    && HoldsKeys(Get(r.evidenceLinks), LINK_KEYS)
    && OutcomeCurrent(r)
    && Get(r.trace).Arr? && (forall i | 0 <= i < |Get(r.trace).items| :: HoldsKeys(Get(r.trace).items[i], ENTRY_KEYS))
  }

  lemma DefaultKeys(r: Run, setting: Setting, i: nat, started: Json)
    ensures IdentityDefaults(r, setting).Keys == IDENTITY_KEYS && BudgetDefaults(r).Keys == BUDGET_KEYS
    ensures LINK_DEFAULTS.Keys == LINK_KEYS && EntryDefaults(i, started).Keys == ENTRY_KEYS
  {
  }

  lemma TraceCurrent(r: Run)
    ensures Get(r.trace) == TraceOf(r) <==>
              Get(r.trace).Arr? && forall i | 0 <= i < |Get(r.trace).items| :: HoldsKeys(Get(r.trace).items[i], ENTRY_KEYS)
  {
    hide EntryDefaults, Completed;
    if Get(r.trace).Arr? {
      var raw, started := Get(r.trace).items, Get(r.startedAt);
      forall i | 0 <= i < |raw| ensures Completed(raw[i], EntryDefaults(i + 1, started)) == raw[i] <==> HoldsKeys(raw[i], ENTRY_KEYS) {
        CompletedKeeps(raw[i], EntryDefaults(i + 1, started));
        DefaultKeys(r, Setting("", _ => ""), i + 1, started);
      }
      if forall i | 0 <= i < |raw| :: HoldsKeys(raw[i], ENTRY_KEYS) {
        assert TraceFrom(raw, started) == raw;
      } else {
        var i :| 0 <= i < |raw| && !HoldsKeys(raw[i], ENTRY_KEYS);
        assert TraceFrom(raw, started)[i] != raw[i];
      }
    }
  }

  lemma OutcomeFixed(r: Run)
    requires Migratable(r)
    ensures Outcome(r) == r <==> OutcomeCurrent(r)
  {
    hide ClassifyFailure;
  }

  // Migration leaves an artifact alone, and reports changed = False, exactly when it is in
  // the current form.
  lemma UnchangedIffCurrent(r: Run, setting: Setting)
    requires Migratable(r)
    ensures Migrated(r, setting) == r <==> Current(r)
  {
    hide Completed, IdentityDefaults, BudgetDefaults, TraceOf, Outcome, IsTaxonomy, EntryDefaults, OutcomeCurrent, HoldsKeys;
    OutcomeFrames(r);
    OutcomeFixed(r);
    TraceCurrent(r);
    DefaultKeys(r, setting, 0, Null);
    FillsIffMissing(Get(r.runtimeIdentity), IdentityDefaults(r, setting), IDENTITY_KEYS);
    FillsIffMissing(Get(r.budgets), BudgetDefaults(r), BUDGET_KEYS);
    FillsIffMissing(Get(r.evidenceLinks), LINK_DEFAULTS, LINK_KEYS);
    assert Updated(r, setting).artifactHash == Present(r.artifactHash);
    if Updated(r, setting) != r || Get(r.artifactHash) == Null {
      HashShows(Updated(r, setting), r, setting.digest(Updated(r, setting)));
    }
  }

  lemma FillsIffMissing(value: Json, defaults: map<string, Json>, keys: set<string>)
    requires defaults.Keys == keys
    ensures Completed(value, defaults) == value <==> HoldsKeys(value, keys)
    ensures Completed(value, defaults) != Null
  {
    CompletedKeeps(value, defaults);
  }

  // Whatever comes out of a migration is in the current form.
  lemma MigratedIsCurrent(r: Run, setting: Setting)
    requires Migratable(r)
    ensures Current(Migrated(r, setting))
  {
    hide Migratable, Migrated, Current;
    MigrationIdempotent(r, setting);
    UnchangedIffCurrent(Migrated(r, setting), setting);
  }
}
