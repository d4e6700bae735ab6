// What the in-memory environment and its guarded proxy do, as functions on values
// (agent_bench/env/environment.py). The classes of module Environment refine these.
module EnvSpec {
  import opened Values
  import opened Text
  import opened Order
  import Paths
  import Network

  // The contents of an Environment. A file written by json.dumps(x) holds x.
  datatype Store = Store(
    files: map<string, Json>,
    hidden: map<string, Json>,
    output: map<string, Json>,
    seen: set<string>)

  const EMPTY_STORE := Store(map[], map[], map[], {})

  datatype AuditEntry = Fs(op: string, path: string) | Net(host: string)

  // The normalised roots and host entries of a GuardedEnv.
  datatype Policy = Policy(roots: seq<string>, allow: seq<string>)

  // A GuardedEnv: the store behind it, the open audit step and the entries of that step.
  datatype Guarded = Guarded(store: Store, step: Option<int>, entries: seq<AuditEntry>)

  // The calls task code can make on a GuardedEnv.
  datatype Op =
    | ListDir(path: string)
    | ReadFile(path: string)
    | Exists(path: string)
    | WriteFile(path: string, content: Json)
    | RequireNetwork(host: string)
    | SetHidden(key: string, value: Json)
    | GetHidden(key: string)
    | SetOutput(key: string, value: Json)
    | GetOutput(key: string)
    | MarkSeen(paths: seq<string>)
    | VisibleState

  // What such a call gives back: a value, a SandboxViolation, a KeyError or a ValueError.
  datatype Reply = Value(value: Json) | Denied(message: string) | NoSuchFile | BadPath

  // ---- the store -------------------------------------------------------------------

  // A child of the directory whose text with a trailing slash is prefix.
  function ChildOf(prefix: string, file: string): string
    requires prefix <= file
  {
    var rest := file[|prefix|..];
    var slash := Find(rest, "/");
    prefix + (if slash == -1 then rest else rest[..slash])
  }

  function DirPrefix(norm: string): string
  {
    RStrip(norm, c => c == '/') + "/"
  }

  ghost function ListNames(files: set<string>, norm: string): seq<string>
  {
    Names(set f | f in files && DirPrefix(norm) <= f :: ChildOf(DirPrefix(norm), f))
  }

  // mark_seen: the paths before the first bad one are added.
  function MarkAll(seen: set<string>, paths: seq<string>): (set<string>, bool)
    decreases |paths|
  {
    if paths == [] then (seen, true)
    else
      match Paths.Normalize(paths[0])
      case Err(_) => (seen, false)
      case Ok(norm) => MarkAll(seen + {norm}, paths[1..])
  }

  ghost function Visible(seen: set<string>): Json
  {
    Obj(map["files_seen" := Arr(StrItems(Names(seen)))])
  }

  function ReplyValue(r: Reply): Json
  {
    if r.Value? then r.value else Null
  }

  function Lookup(table: map<string, Json>, key: string): Json
  {
    if key in table then table[key] else Null
  }

  // ---- one guarded call ------------------------------------------------------------

  // _record_audit
  function Record(g: Guarded, e: AuditEntry): Guarded
  {
    if g.step.None? then g else g.(entries := g.entries + [e])
  }

  ghost function FileCall(g: Guarded, op: Op, norm: string): (Guarded, Reply)
    requires op.ListDir? || op.ReadFile? || op.Exists? || op.WriteFile?
  {
    match op
    case ListDir(_) =>
      (Record(g, Fs("list_dir", norm)), Value(Arr(StrItems(ListNames(g.store.files.Keys, norm)))))
    case ReadFile(_) =>
      (Record(g, Fs("read_file", norm)), if norm in g.store.files then Value(g.store.files[norm]) else NoSuchFile)
    case Exists(_) =>
      (Record(g, Fs("exists", norm)), Value(Bool(norm in g.store.files)))
    case WriteFile(_, content) =>
      var after := Record(g, Fs("write_file", norm));
      (after.(store := after.store.(files := after.store.files[norm := content])), Value(Null))
  }

  ghost function Perform(p: Policy, g: Guarded, op: Op): (Guarded, Reply)
  {
    match op
    case RequireNetwork(host) =>
      (match Network.Check(p.allow, host)
       case Err(m) => (g, Denied(m))
       case Ok(name) => (Record(g, Net(name)), Value(Null)))
    case SetHidden(key, value) =>
      (g.(store := g.store.(hidden := g.store.hidden[key := value])), Value(Null))
    case GetHidden(key) => (g, Value(Lookup(g.store.hidden, key)))
    case SetOutput(key, value) =>
      (g.(store := g.store.(output := g.store.output[key := value])), Value(Null))
    case GetOutput(key) => (g, Value(Lookup(g.store.output, key)))
    case MarkSeen(paths) =>
      var marked := MarkAll(g.store.seen, paths);
      (g.(store := g.store.(seen := marked.0)), if marked.1 then Value(Null) else BadPath)
    case VisibleState => (g, Value(Visible(g.store.seen)))
    case _ =>
      (match Paths.Admit(p.roots, op.path)
       case Err(m) => (g, Denied(m))
       case Ok(norm) => FileCall(g, op, norm))
  }

  // ---- task code ---------------------------------------------------------------------

  // How a piece of task code ends.
  datatype Outcome = Returned(value: Json) | RaisedSandbox(message: string) | RaisedOther(message: string)

  // Task code is arbitrary: given the replies so far it makes the next call or ends. W is
  // everything task code and agent keep outside the environment. bound caps the number of
  // calls; code that would go on past it never returns.
  datatype Move<W> = Ask(op: Op) | Finish(state: W, outcome: Outcome)

  datatype Program<W> = Program(next: seq<Reply> -> Move<W>, bound: nat)

  datatype Ending<W> = Ended(state: W, outcome: Outcome) | NeverReturns

  ghost function ExecuteFrom<W>(p: Policy, g: Guarded, code: Program<W>, replies: seq<Reply>): (Guarded, Ending<W>)
    decreases code.bound - |replies|
  {
    match code.next(replies)
    case Finish(state, outcome) => (g, Ended(state, outcome))
    case Ask(op) =>
      if |replies| >= code.bound then (g, NeverReturns)
      else
        var after := Perform(p, g, op);
        ExecuteFrom(p, after.0, code, replies + [after.1])
  }

  ghost function Execute<W>(p: Policy, g: Guarded, code: Program<W>): (Guarded, Ending<W>)
  {
    ExecuteFrom(p, g, code, [])
  }

  // ---- what is recorded -----------------------------------------------------------------

  // The guard let this access through.
  ghost predicate Permitted(p: Policy, e: AuditEntry)
  {
    match e
    case Fs(_, path) => exists asked :: Paths.Admit(p.roots, asked) == Ok(path)
    case Net(host) => exists asked :: Network.Check(p.allow, asked) == Ok(host)
  }

  ghost predicate AllPermitted(p: Policy, entries: seq<AuditEntry>)
  {
    forall i | 0 <= i < |entries| :: Permitted(p, entries[i])
  }

  // The one key that changed is the one in the new audit entry.
  ghost predicate WroteAuditedKey(p: Policy, g: Guarded, op: Op, after: Guarded)
    requires op.WriteFile?
  {
    var key := Paths.Admit(p.roots, op.path);
    && key.Ok?
    && after.store.files == g.store.files[key.value := op.content]
    && (g.step.Some? ==> after.entries == g.entries + [Fs("write_file", key.value)])
  }

  // One call records at most one entry, only inside an audit window, and a call that
  // reaches the file store touches exactly the key it records.
  lemma PerformAudits(p: Policy, g: Guarded, op: Op)
    ensures var after := Perform(p, g, op).0;
            && after.step == g.step
            && (g.step.None? ==> after.entries == g.entries)
            && (after.entries == g.entries
                || (exists e :: after.entries == g.entries + [e] && Permitted(p, e)))
            && (after.store.files != g.store.files ==>
                  op.WriteFile? && WroteAuditedKey(p, g, op, after))
  {
    hide Network.Check, Paths.Admit, MarkAll;
    var after := Perform(p, g, op).0;
    if op.RequireNetwork? {
      var r := Network.Check(p.allow, op.host);
      if r.Ok? && g.step.Some? {
        assert Permitted(p, Net(r.value));
        assert after.entries == g.entries + [Net(r.value)];
      }
    } else if op.ListDir? || op.ReadFile? || op.Exists? || op.WriteFile? {
      var r := Paths.Admit(p.roots, op.path);
      if r.Ok? && g.step.Some? {
        var e := after.entries[|g.entries|];
        assert Permitted(p, e);
        assert after.entries == g.entries + [e];
      }
    }
  }

  // A whole piece of task code: everything it records is permitted, and outside an audit
  // window it records nothing.
  lemma {:induction false} ExecuteAudits<W>(p: Policy, g: Guarded, code: Program<W>, replies: seq<Reply>)
    requires AllPermitted(p, g.entries)
    ensures var after := ExecuteFrom(p, g, code, replies).0;
            && after.step == g.step
            && (g.step.None? ==> after.entries == g.entries)
            && g.entries <= after.entries
            && AllPermitted(p, after.entries)
    decreases code.bound - |replies|
  {
    hide Perform, Permitted;
    var move := code.next(replies);
    if move.Ask? && |replies| < code.bound {
      PerformAudits(p, g, move.op);
      var after := Perform(p, g, move.op);
      ExecuteAudits(p, after.0, code, replies + [after.1]);
    }
  }

  // ---- what must be recorded ------------------------------------------------------------------

  // The entry a call is due: one for an admitted access to a file or the network.
  function Due(p: Policy, op: Op): seq<AuditEntry>
  {
    match op
    case ListDir(path) => DueFile(p, "list_dir", path)
    case ReadFile(path) => DueFile(p, "read_file", path)
    case Exists(path) => DueFile(p, "exists", path)
    case WriteFile(path, _) => DueFile(p, "write_file", path)
    case RequireNetwork(host) => if Network.Check(p.allow, host).Ok? then [Net(Network.Check(p.allow, host).value)] else []
    case _ => []
  }

  function DueFile(p: Policy, name: string, path: string): seq<AuditEntry>
  {
    if Paths.Admit(p.roots, path).Ok? then [Fs(name, Paths.Admit(p.roots, path).value)] else []
  }

  predicate SameFile(a: map<string, Json>, b: map<string, Json>, key: string)
  {
    (key in a <==> key in b) && (key in a ==> a[key] == b[key])
  }

  // An admitted access touches the key it records and no other: reads depend on that key
  // alone, writes change that key alone; a denied access changes nothing.
  lemma AccessTouchesKey(p: Policy, g: Guarded, h: Guarded, op: Op)
    requires op.ReadFile? || op.Exists? || op.WriteFile?
    ensures var r := Perform(p, g, op);
            var key := Paths.Admit(p.roots, op.path);
            && (key.Err? ==> r.0 == g && r.1.Denied?)
            && (key.Ok? ==>
                  && !r.1.Denied?
                  && (SameFile(g.store.files, h.store.files, key.value) ==> Perform(p, h, op).1 == r.1)
                  && (forall k | k != key.value :: SameFile(g.store.files, r.0.store.files, k))
                  && (op.WriteFile? ==> key.value in r.0.store.files && r.0.store.files[key.value] == op.content)
                  && (!op.WriteFile? ==> r.0.store == g.store))
  {
    hide Paths.Admit;
  }

  // What is written is read back under every path with the same key, and only there; a path
  // that nothing was written to is missing.
  lemma FilesReadBack(p: Policy, g: Guarded, path: string, content: Json, other: string)
    requires Paths.Admit(p.roots, path).Ok? && Paths.Admit(p.roots, other).Ok?
    ensures var w := Perform(p, g, WriteFile(path, content)).0;
            var same := Paths.Admit(p.roots, path) == Paths.Admit(p.roots, other);
            && Perform(p, g, WriteFile(path, content)).1 == Value(Null)
            && Perform(p, w, ReadFile(other)).1 == (if same then Value(content) else Perform(p, g, ReadFile(other)).1)
            && Perform(p, w, Exists(other)).1 == (if same then Value(Bool(true)) else Perform(p, g, Exists(other)).1)
            && (Perform(p, g, Exists(other)).1 == Value(Bool(false)) <==> Perform(p, g, ReadFile(other)).1 == NoSuchFile)
            && (Perform(p, g, Exists(other)).1 == Value(Bool(true)) <==> Perform(p, g, ReadFile(other)).1.Value?)
            && (g.store.files == map[] ==> Perform(p, g, ReadFile(other)).1 == NoSuchFile)
  {
    hide Paths.Admit;
  }

  // Hidden state and output are two tables: a value is read back under its own key in its own
  // table, and nothing else changes.
  lemma TablesReadBack(p: Policy, g: Guarded, key: string, value: Json, other: string)
    ensures var h, o := Perform(p, g, SetHidden(key, value)).0, Perform(p, g, SetOutput(key, value)).0;
            && Perform(p, h, GetHidden(other)).1 == (if other == key then Value(value) else Perform(p, g, GetHidden(other)).1)
            && Perform(p, o, GetOutput(other)).1 == (if other == key then Value(value) else Perform(p, g, GetOutput(other)).1)
            && Perform(p, h, GetOutput(other)).1 == Perform(p, g, GetOutput(other)).1
            && Perform(p, o, GetHidden(other)).1 == Perform(p, g, GetHidden(other)).1
            && h.store.files == o.store.files == g.store.files && h.store.seen == o.store.seen == g.store.seen
            && h.entries == o.entries == g.entries
            && (g.store == EMPTY_STORE ==> Perform(p, g, GetHidden(other)).1 == Perform(p, g, GetOutput(other)).1 == Value(Null))
  {
  }

  // The visible state lists the seen paths in order, each once.
  lemma VisibleShows(seen: set<string>)
    ensures var shown := Visible(seen).Get("files_seen");
            && StringList(shown) && SortedBy(StrLe, Strings(shown.items)) && Distinct(Strings(shown.items))
            && forall path :: path in Strings(shown.items) <==> path in seen
  {
    var names := Names(seen);
    StringsOfStrItems(names);
    assert Visible(seen).Get("files_seen") == Arr(StrItems(names));
    forall path ensures path in names <==> path in seen { assert path in names <==> path in Elements(names); }
  }

  // The entries task code is due for the calls it makes, in order.
  ghost function Trail<W>(p: Policy, g: Guarded, code: Program<W>, replies: seq<Reply>): seq<AuditEntry>
    decreases code.bound - |replies|
  {
    match code.next(replies)
    case Finish(_, _) => []
    case Ask(op) =>
      if |replies| >= code.bound then []
      else
        var after := Perform(p, g, op);
        Due(p, op) + Trail(p, after.0, code, replies + [after.1])
  }

  lemma PerformRecordsDue(p: Policy, g: Guarded, op: Op)
    requires g.step.Some?
    ensures Perform(p, g, op).0.entries == g.entries + Due(p, op)
  {
    hide Paths.Admit, Network.Check, MarkAll;
  }

  // Inside an audit window nothing is left out and nothing is made up: the new entries are
  // exactly those due for the calls made.
  lemma {:induction false} ExecuteRecordsExactly<W>(p: Policy, g: Guarded, code: Program<W>, replies: seq<Reply>)
    requires g.step.Some?
    ensures ExecuteFrom(p, g, code, replies).0.entries == g.entries + Trail(p, g, code, replies)
    decreases code.bound - |replies|
  {
    hide Perform, Due;
    var move := code.next(replies);
    if move.Ask? && |replies| < code.bound {
      var after := Perform(p, g, move.op);
      PerformRecordsDue(p, g, move.op);
      PerformKeepsStep(p, g, move.op);
      ExecuteRecordsExactly(p, after.0, code, replies + [after.1]);
    }
  }

  lemma PerformKeepsStep(p: Policy, g: Guarded, op: Op)
    ensures Perform(p, g, op).0.step == g.step
  {
    hide Paths.Admit, Network.Check, MarkAll;
  }

  // Marking adds exactly the normal forms, and succeeds exactly when every path has one.
  lemma {:induction false} MarksAll(seen: set<string>, paths: seq<string>)
    ensures MarkAll(seen, paths).1 <==> forall path <- paths :: Paths.Normalize(path).Ok?
    ensures MarkAll(seen, paths).1 ==>
      MarkAll(seen, paths).0 == seen + set path | path in paths :: (if Paths.Normalize(path).Ok? then Paths.Normalize(path).value else "")
    decreases |paths|
  {
    hide Paths.Normalize;
    if paths != [] {
      assert paths == [paths[0]] + paths[1..];
      if Paths.Normalize(paths[0]).Ok? {
        MarksAll(seen + {Paths.Normalize(paths[0]).value}, paths[1..]);
      } else {
        assert paths[0] in paths;
      }
    }
  }
}
