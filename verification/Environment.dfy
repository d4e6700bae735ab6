// The Environment and GuardedEnv objects of agent_bench/env/environment.py, each method
// proved against the functions of module EnvSpec.
module Environment {
  import opened Values
  import opened Text
  import opened Order
  import opened EnvSpec
  import Paths
  import Network

  class Environment {
    var files: map<string, Json>
    var hidden: map<string, Json>
    var output: map<string, Json>
    var seen: set<string>

    ghost function Contents(): Store
      reads this
    {
      Store(files, hidden, output, seen)
    }

    constructor ()
      ensures Contents() == EMPTY_STORE
    {
      files, hidden, output, seen := map[], map[], map[], {};
    }

    // list_dir: collect the children of a directory, then sort them.
    method ListDir(norm: string) returns (names: seq<string>)
      ensures names == ListNames(files.Keys, norm)
    {
      var prefix := DirPrefix(norm);
      var children: set<string> := {};
      var rest := files.Keys;
      while rest != {}
        invariant rest <= files.Keys
        invariant children == set f | f in files.Keys - rest && prefix <= f :: ChildOf(prefix, f)
        decreases rest
      {
        var f :| f in rest;
        if prefix <= f {
          children := children + {ChildOf(prefix, f)};
        }
        rest := rest - {f};
      }
      assert files.Keys - rest == files.Keys;
      names := SortNames(children);
    }

    // mark_seen: normalise and add the paths one by one; a bad path stops the loop.
    method MarkSeen(paths: seq<string>) returns (ok: bool)
      modifies this`seen
      ensures (seen, ok) == MarkAll(old(seen), paths)
    {
      var i := 0;
      while i < |paths|
        invariant 0 <= i <= |paths|
        invariant MarkAll(old(seen), paths) == MarkAll(seen, paths[i..])
      {
        assert paths[i..][0] == paths[i] && paths[i..][1..] == paths[i + 1..];
        var norm := Paths.Normalize(paths[i]);
        if norm.Err? {
          return false;
        }
        seen := seen + {norm.value};
        i := i + 1;
      }
      ok := true;
    }
  }

  class GuardedEnv {
    const env: Environment
    const roots: seq<string>
    const allow: seq<string>
    var step: Option<int>
    var entries: seq<AuditEntry>

    ghost function Rules(): Policy
    {
      Policy(roots, allow)
    }

    ghost function State(): Guarded
      reads this, env
    {
      Guarded(env.Contents(), step, entries)
    }

    constructor (env: Environment, roots: seq<string>, allow: seq<string>)
      ensures this.env == env && Rules() == Policy(roots, allow)
      ensures step == None && entries == []
    {
      this.env, this.roots, this.allow := env, roots, allow;
      step, entries := None, [];
    }

    method BeginStep(n: int)
      modifies this
      ensures State() == old(State()).(step := Some(n), entries := [])
    {
      step, entries := Some(n), [];
    }

    method ConsumeAudit() returns (recorded: seq<AuditEntry>)
      modifies this
      ensures recorded == old(entries)
      ensures State() == old(State()).(step := None, entries := [])
    {
      recorded := entries;
      step, entries := None, [];
    }

    method RecordAudit(e: AuditEntry)
      modifies this`entries
      ensures State() == Record(old(State()), e)
    {
      if step == None {
        return;
      }
      entries := entries + [e];
    }

    method ListDir(path: string) returns (reply: Reply)
      modifies this`entries
      ensures (State(), reply) == Perform(Rules(), old(State()), Op.ListDir(path))
    {
      hide Paths.Admit;
      var norm := Paths.Admit(roots, path);
      if norm.Err? {
        return Denied(norm.error);
      }
      RecordAudit(Fs("list_dir", norm.value));
      var names := env.ListDir(norm.value);
      reply := Value(Arr(StrItems(names)));
    }

    method ReadFile(path: string) returns (reply: Reply)
      modifies this`entries
      ensures (State(), reply) == Perform(Rules(), old(State()), Op.ReadFile(path))
    {
      hide Paths.Admit;
      var norm := Paths.Admit(roots, path);
      if norm.Err? {
        return Denied(norm.error);
      }
      RecordAudit(Fs("read_file", norm.value));
      reply := if norm.value in env.files then Value(env.files[norm.value]) else NoSuchFile;
    }

    method Exists(path: string) returns (reply: Reply)
      modifies this`entries
      ensures (State(), reply) == Perform(Rules(), old(State()), Op.Exists(path))
    {
      hide Paths.Admit;
      var norm := Paths.Admit(roots, path);
      if norm.Err? {
        return Denied(norm.error);
      }
      RecordAudit(Fs("exists", norm.value));
      reply := Value(Bool(norm.value in env.files));
    }

    method WriteFile(path: string, content: Json) returns (reply: Reply)
      modifies this`entries, env`files
      ensures (State(), reply) == Perform(Rules(), old(State()), Op.WriteFile(path, content))
    {
      hide Paths.Admit;
      var norm := Paths.Admit(roots, path);
      if norm.Err? {
        return Denied(norm.error);
      }
      RecordAudit(Fs("write_file", norm.value));
      env.files := env.files[norm.value := content];
      reply := Value(Null);
    }

    method RequireNetwork(host: string) returns (reply: Reply)
      modifies this`entries
      ensures (State(), reply) == Perform(Rules(), old(State()), Op.RequireNetwork(host))
    {
      hide Network.Check;
      var name := Network.Check(allow, host);
      if name.Err? {
        return Denied(name.error);
      }
      RecordAudit(Net(name.value));
      reply := Value(Null);
    }

    method MarkSeen(paths: seq<string>) returns (reply: Reply)
      modifies env`seen
      ensures (State(), reply) == Perform(Rules(), old(State()), Op.MarkSeen(paths))
    {
      hide MarkAll;
      var ok := env.MarkSeen(paths);
      reply := if ok then Value(Null) else BadPath;
    }

    method Call(op: Op) returns (reply: Reply)
      modifies this`entries, env
      ensures (State(), reply) == Perform(Rules(), old(State()), op)
    {
      match op
      case ListDir(path) => reply := ListDir(path);
      case ReadFile(path) => reply := ReadFile(path);
      case Exists(path) => reply := Exists(path);
      case WriteFile(path, content) => reply := WriteFile(path, content);
      case RequireNetwork(host) => reply := RequireNetwork(host);
      case SetHidden(key, value) =>
        env.hidden := env.hidden[key := value];
        reply := Value(Null);
      case GetHidden(key) => reply := Value(Lookup(env.hidden, key));
      case SetOutput(key, value) =>
        env.output := env.output[key := value];
        reply := Value(Null);
      case GetOutput(key) => reply := Value(Lookup(env.output, key));
      case MarkSeen(paths) => reply := MarkSeen(paths);
      case VisibleState =>
        var names := SortNames(env.seen);
        reply := Value(Obj(map["files_seen" := Arr(StrItems(names))]));
    }

    // Run a piece of task code against this environment.
    method Run<W>(code: Program<W>) returns (ending: Ending<W>)
      modifies this`entries, env
      ensures (State(), ending) == Execute(Rules(), old(State()), code)
    {
      var replies: seq<Reply> := [];
      var move := code.next(replies);
      while move.Ask? && |replies| < code.bound
        invariant move == code.next(replies)
        invariant Execute(Rules(), old(State()), code) == ExecuteFrom(Rules(), State(), code, replies)
        decreases code.bound - |replies|
      {
        var reply := Call(move.op);
        replies := replies + [reply];
        move := code.next(replies);
      }
      ending := if move.Finish? then Ended(move.state, move.outcome) else NeverReturns;
    }
  }
}
