// agent_bench/env/filesystem.py: path normalisation, and the filesystem allowlist that
// the guarded environment and the offline verifiers both apply.
module Paths {
  import opened Values
  import opened Text

  // A component that PurePosixPath keeps.
  predicate Kept(part: string)
  {
    part != "" && part != "."
  }

  function KeepParts(parts: seq<string>): (kept: seq<string>)
    ensures forall p <- kept :: p in parts && Kept(p)
  {
    if parts == [] then []
    else if Kept(parts[0]) then [parts[0]] + KeepParts(parts[1..])
    else KeepParts(parts[1..])
  }

  function Components(path: string): (parts: seq<string>)
    ensures forall p <- parts :: Kept(p) && '/' !in p
  {
    KeepParts(Split(path, '/'))
  }

  // The POSIX root of a path: exactly two leading slashes are kept, any other number
  // collapses to one.
  function Root(path: string): string
  {
    if "//" <= path && !("///" <= path) then "//"
    else if "/" <= path then "/"
    else ""
  }

  // PurePosixPath(path).as_posix()
  function PosixText(path: string): string
  {
    if Root(path) == "" && Components(path) == [] then "."
    else Root(path) + Join(Components(path), '/')
  }

  // "/../" in f"{norm}/" or norm.endswith("/..")
  predicate HasParent(norm: string)
  {
    Contains(norm + "/", "/../") || (|norm| >= 3 && norm[|norm| - 3..] == "/..")
  }

  // normalize_path; the error is the ValueError.
  function Normalize(path: string): Result<string, string>
  {
    if path == "" then Err("path must be non-empty")
    else
      var p := PosixText(path);
      var norm := if "/" <= p then p else "/" + p;
      if HasParent(norm) then Err("parent traversal is not allowed") else Ok(norm)
  }

  // _normalize_fs_root
  function NormalizeRoot(path: string): Result<string, string>
  {
    match Normalize(path)
    case Err(e) => Err(e)
    case Ok(norm) =>
      if norm != "/" && norm[|norm| - 1..] == "/" then Ok(RStrip(norm, c => c == '/')) else Ok(norm)
  }

  // ---- the allowlist -----------------------------------------------------------

  predicate UnderRoot(root: string, path: string)
  {
    root == "/" || path == root || root + "/" <= path
  }

  predicate UnderRoots(roots: seq<string>, path: string)
  {
    exists i | 0 <= i < |roots| :: UnderRoot(roots[i], path)
  }

  // ---- normal forms ------------------------------------------------------------

  // Component lists that a path text can hold without being rewritten.
  predicate CleanParts(parts: seq<string>)
  {
    forall i | 0 <= i < |parts| :: Kept(parts[i]) && '/' !in parts[i]
  }

  lemma ComponentsClean(path: string)
    ensures CleanParts(Components(path))
  {
    forall i | 0 <= i < |Components(path)| ensures Kept(Components(path)[i]) && '/' !in Components(path)[i] {
      assert Components(path)[i] in Components(path);
    }
  }

  lemma {:induction false} KeepClean(parts: seq<string>)
    requires CleanParts(parts)
    ensures KeepParts(parts) == parts
  {
    if parts != [] {
      KeepClean(parts[1..]);
      assert parts == [parts[0]] + parts[1..];
    }
  }

  lemma JoinedComponents(parts: seq<string>)
    requires CleanParts(parts)
    ensures KeepParts(Split(Join(parts, '/'), '/')) == parts
  {
    if parts == [] {
      SplitWhole("", '/');
      assert Split("", '/') == [""];
    } else {
      SplitJoin(parts, '/');
      KeepClean(parts);
    }
  }

  lemma RootedComponents(parts: seq<string>)
    requires CleanParts(parts)
    ensures Components("/" + Join(parts, '/')) == parts
    ensures Components("//" + Join(parts, '/')) == parts
  {
    var tail := Join(parts, '/');
    JoinedComponents(parts);
    SplitStep("", tail, '/');
    assert "" + "/" + tail == "/" + tail;
    SplitStep("", "/" + tail, '/');
    assert "" + "/" + ("/" + tail) == "//" + tail;
    assert KeepParts([""] + Split(tail, '/')) == parts;
    assert Split("//" + tail, '/') == [""] + ([""] + Split(tail, '/'));
    assert ([""] + ([""] + Split(tail, '/')))[1..] == [""] + Split(tail, '/');
  }

  lemma JoinHead(parts: seq<string>)
    requires CleanParts(parts)
    ensures Join(parts, '/') == "" <==> parts == []
    ensures parts != [] ==> Join(parts, '/')[0] != '/' && Join(parts, '/')[0] == parts[0][0]
  {
    if parts != [] {
      assert Kept(parts[0]) && '/' !in parts[0];
      assert parts[0][0] in parts[0];
    }
  }

  lemma RootedText(parts: seq<string>)
    requires CleanParts(parts)
    ensures PosixText("/" + Join(parts, '/')) == "/" + Join(parts, '/')
    ensures PosixText("//" + Join(parts, '/')) == "//" + Join(parts, '/')
  {
    RootedComponents(parts);
    JoinHead(parts);
    var tail := Join(parts, '/');
    assert parts != [] ==> ("/" + tail)[1] != '/' && ("//" + tail)[2] != '/';
  }

  // A successful result is an absolute text that keeps the components of the input.
  lemma NormalizedShape(path: string)
    requires Normalize(path).Ok?
    ensures var norm := Normalize(path).value;
            var parts := Components(path);
            && CleanParts(parts)
            && (norm == "/" + Join(parts, '/') || norm == "//" + Join(parts, '/') || norm == "/.")
            && (norm == "/." <==> Root(path) == "" && parts == [])
            && "/" <= norm && !HasParent(norm)
  {
    hide Components, HasParent, PosixText, Join, CleanParts;
    ComponentsClean(path);
    PosixShape(path);
  }

  // The three shapes of the text before it is checked for parent steps.
  lemma PosixShape(path: string)
    requires path != ""
    ensures var p, tail := PosixText(path), Join(Components(path), '/');
            var norm := if "/" <= p then p else "/" + p;
            && (norm == "/" + tail || norm == "//" + tail || norm == "/.")
            && (norm == "/." <==> Root(path) == "" && Components(path) == [])
            && "/" <= norm
  {
    hide Components;
    ComponentsClean(path);
    JoinHead(Components(path));
    JoinNotDot(Components(path));
    hide Join;
    var tail := Join(Components(path), '/');
    assert "" + tail == tail;
    assert ("/" + tail)[1..] == tail && ("//" + tail)[1..] == "/" + tail && "/."[1..] == ".";
  }

  lemma JoinNotDot(parts: seq<string>)
    requires CleanParts(parts)
    ensures Join(parts, '/') != "."
  {
    if parts != [] {
      assert Kept(parts[0]);
      if |parts| > 1 { assert |Join(parts, '/')| >= |parts[0]| + 1; }
    }
  }

  // Normalising twice is normalising once, except for relative paths made of nothing but
  // "." components, whose normal form "/." normalises on to "/".
  lemma NormalizeIdempotent(path: string)
    requires Normalize(path).Ok?
    ensures Normalize(Normalize(path).value) == Normalize(path) <==> (Root(path) != "" || Components(path) != [])
    ensures Root(path) == "" && Components(path) == [] ==> Normalize(Normalize(path).value) == Ok("/")
  {
    NormalizedShape(path);
    var norm := Normalize(path).value;
    if norm == "/." {
      DotNormalizes();
    } else {
      RootedText(Components(path));
    }
  }

  lemma DotNormalizes()
    ensures Normalize("/.") == Ok("/")
  {
    SplitStep("", ".", '/');
    assert "" + "/" + "." == "/.";
    SplitWhole(".", '/');
    assert Split("/.", '/') == ["", "."];
    assert KeepParts(["", "."]) == KeepParts(["."]) == [];
    assert Components("/.") == [];
    assert PosixText("/.") == "/";
    forall i | 0 <= i <= |"//"| ensures !MatchAt("//", "/../", i) {}
    assert "/" + "/" == "//";
  }

  // ---- declared roots and guarded roots -------------------------------------------

  // _ensure_fs_allowed: the normalised path, when one of the (normalised) roots covers it.
  function Admit(roots: seq<string>, path: string): Result<string, string>
  {
    match Normalize(path)
    case Err(_) => Err("sandbox_violation: invalid path: " + path)
    case Ok(norm) =>
      if UnderRoots(roots, norm) then Ok(norm)
      else Err("sandbox_violation: filesystem access denied: " + norm)
  }

  // The roots of a GuardedEnv for the roots a sandbox declares; None is the ValueError.
  function GuardRoots(declared: seq<string>): (roots: Option<seq<string>>)
    ensures roots.Some? ==> |roots.value| == |declared|
    ensures roots.Some? <==> forall i | 0 <= i < |declared| :: NormalizeRoot(declared[i]).Ok?
    ensures roots.Some? ==> forall i | 0 <= i < |declared| :: NormalizeRoot(declared[i]) == Ok(roots.value[i])
  {
    if declared == [] then Some([])
    else
      var first, rest := NormalizeRoot(declared[0]), GuardRoots(declared[1..]);
      if first.Ok? && rest.Some? then Some([first.value] + rest.value) else None
  }

  // The path to try on a root: the root itself, or "/" for the root that "//" turns into.
  function Probe(root: string): string
  {
    if root == "" then "/" else root
  }

  // Every guarded root lies under a root as it is declared.
  predicate RootsCovered(declared: seq<string>)
  {
    var roots := GuardRoots(declared);
    roots.Some? && forall i | 0 <= i < |roots.value| :: UnderRoots(declared, Probe(roots.value[i]))
  }

  // Roots that _normalize_fs_root leaves alone.
  predicate FixedRoots(declared: seq<string>)
  {
    forall i | 0 <= i < |declared| :: NormalizeRoot(declared[i]) == Ok(declared[i])
  }

  // Whatever the guard lets through (and so records), the offline check of the declared
  // roots lets through as well.
  ghost predicate OfflineAgrees(declared: seq<string>, roots: seq<string>)
  {
    forall path :: Admit(roots, path).Ok? ==> UnderRoots(declared, Admit(roots, path).value)
  }

  lemma FixedRootsCovered(declared: seq<string>)
    requires FixedRoots(declared)
    ensures GuardRoots(declared) == Some(declared) && RootsCovered(declared)
  {
    assert GuardRoots(declared).value == declared;
    forall i | 0 <= i < |declared| ensures UnderRoots(declared, Probe(declared[i])) {
      assert Normalize("").Err?;
      assert declared[i] != "";
      assert UnderRoot(declared[i], declared[i]);
    }
  }

  lemma SlashNormalizes()
    ensures Normalize("/") == Ok("/")
  {
    RootedText([]);
    assert "/" + Join([], '/') == "/";
    assert "/" + "/" == "//";
    forall i | 0 <= i <= |"//"| ensures !MatchAt("//", "/../", i) {}
  }

  lemma {:induction false} JoinLast(parts: seq<string>)
    requires CleanParts(parts) && parts != []
    ensures Join(parts, '/') != "" && Join(parts, '/')[|Join(parts, '/')| - 1] != '/'
  {
    assert Kept(parts[0]) && '/' !in parts[0];
    if |parts| == 1 {
      assert parts[0][|parts[0]| - 1] in parts[0];
    } else {
      JoinLast(parts[1..]);
    }
  }

  lemma RootShape(root: string)
    requires NormalizeRoot(root).Ok?
    ensures Normalize(root).Ok?
    ensures NormalizeRoot(root) == Normalize(root) || (Normalize(root).value == "//" && NormalizeRoot(root).value == "")
  {
    NormalizedShape(root);
    hide Normalize;
    var norm, parts := Normalize(root).value, Components(root);
    if parts != [] {
      JoinLast(parts);
    } else {
      assert norm == "/" || norm == "//" || norm == "/.";
      assert norm == "//" ==> RStrip(norm, c => c == '/') == "";
    }
  }

  // The guard and the offline check agree on every path exactly when the declared roots
  // cover the guarded ones.
  lemma OfflineAgreesIffCovered(declared: seq<string>)
    requires GuardRoots(declared).Some?
    ensures OfflineAgrees(declared, GuardRoots(declared).value) <==> RootsCovered(declared)
  {
    var roots := GuardRoots(declared).value;
    if RootsCovered(declared) {
      forall path | Admit(roots, path).Ok? ensures UnderRoots(declared, Admit(roots, path).value) {
        CoveredPath(declared, path);
      }
    }
    if OfflineAgrees(declared, roots) {
      forall i | 0 <= i < |roots| ensures UnderRoots(declared, Probe(roots[i])) {
        ProbeAdmitted(declared, i);
      }
    }
  }

  lemma CoveredPath(declared: seq<string>, path: string)
    requires RootsCovered(declared) && Admit(GuardRoots(declared).value, path).Ok?
    ensures UnderRoots(declared, Admit(GuardRoots(declared).value, path).value)
  {
    var roots := GuardRoots(declared).value;
    var norm := Normalize(path).value;
    NormalizedShape(path);
    hide Normalize, UnderRoot;
    var i :| 0 <= i < |roots| && UnderRoot(roots[i], norm);
    assert UnderRoots(declared, Probe(roots[i]));
    var k :| 0 <= k < |declared| && UnderRoot(declared[k], Probe(roots[i]));
    assert NormalizeRoot(declared[k]) == Ok(roots[k]);
    assert declared[k] != "" by { EmptyPathRejected(); }
    UnderRootTransitive(declared[k], roots[i], norm);
  }

  lemma UnderRootTransitive(outer: string, inner: string, path: string)
    requires outer != "" && UnderRoot(outer, Probe(inner)) && UnderRoot(inner, path) && "/" <= path
    ensures UnderRoot(outer, path)
  {
    if Probe(inner) == "/" {
      assert |outer + "/"| > |"/"|;
    }
  }

  lemma EmptyPathRejected()
    ensures Normalize("").Err?
  {
  }

  lemma ProbeAdmitted(declared: seq<string>, i: nat)
    requires GuardRoots(declared).Some? && i < |declared|
    requires OfflineAgrees(declared, GuardRoots(declared).value)
    ensures UnderRoots(declared, Probe(GuardRoots(declared).value[i]))
  {
    hide Normalize, NormalizeRoot, Components, HasParent;
    var roots := GuardRoots(declared).value;
    var root := declared[i];
    RootShape(root);
    SlashNormalizes();
    EmptyPathRejected();
    NormalizedShape(root);
    var path := if roots[i] == "" then "/" else root;
    assert Normalize(path) == Ok(Probe(roots[i]));
    assert UnderRoot(roots[i], Probe(roots[i]));
    assert Admit(roots, path) == Ok(Probe(roots[i]));
  }

  // Normalising a root a second time leaves it alone, except for "/.", which ends at "/", and
  // for the empty text that "//" turns into, which raises.
  lemma RootTwice(raw: string)
    requires NormalizeRoot(raw).Ok?
    ensures var root := NormalizeRoot(raw).value;
            NormalizeRoot(root) == if root == "" then Err("path must be non-empty") else if root == "/." then Ok("/") else Ok(root)
  {
    RootShape(raw);
    NormalizedShape(raw);
    NormalizeIdempotent(raw);
    SlashNormalizes();
    EmptyPathRejected();
    DotNormalizes();
    hide Normalize, Components, HasParent, CleanParts, Join, Root;
  }

  // A task manifest normalises its roots before the sandbox declares them. Those roots are
  // covered exactly when none is the empty text that "//" turns into, which no guard can be
  // built for, and "/.", which "." turns into, does not stand without "/".
  lemma ManifestRootsCovered(raw: seq<string>, declared: seq<string>)
    requires |raw| == |declared| && forall i | 0 <= i < |raw| :: NormalizeRoot(raw[i]) == Ok(declared[i])
    ensures RootsCovered(declared) <==> "" !in declared && ("/." in declared ==> "/" in declared)
  {
    hide NormalizeRoot;
    forall i | 0 <= i < |raw|
      ensures NormalizeRoot(declared[i]) ==
                if declared[i] == "" then Err("path must be non-empty") else if declared[i] == "/." then Ok("/") else Ok(declared[i])
    {
      RootTwice(raw[i]);
    }
    if "" in declared {
      var i :| 0 <= i < |declared| && declared[i] == "";
      assert NormalizeRoot(declared[i]).Err?;
    } else {
      assert GuardRoots(declared).Some?;
      var roots := GuardRoots(declared).value;
      assert forall i | 0 <= i < |roots| :: roots[i] == if declared[i] == "/." then "/" else declared[i];
      forall i | 0 <= i < |declared| && declared[i] != "/." ensures UnderRoots(declared, Probe(roots[i])) {
        assert UnderRoot(declared[i], roots[i]);
      }
      SlashUnder(declared);
    }
  }

  // Only the root "/" covers "/", apart from the empty text.
  lemma SlashUnder(declared: seq<string>)
    requires "" !in declared
    ensures UnderRoots(declared, "/") <==> "/" in declared
  {
    forall i | 0 <= i < |declared| ensures UnderRoot(declared[i], "/") <==> declared[i] == "/" {
      assert declared[i] in declared && |declared[i] + "/"| > |"/"|;
    }
  }

  // A relative root is declared as "app" but guarded as "/app": the guard records
  // "/app", which the declared root does not cover.
  lemma RelativeRootDisagrees()
    ensures GuardRoots(["app"]) == Some(["/app"])
    ensures !OfflineAgrees(["app"], ["/app"])
  {
    AppComponents();
    assert NormalizeRoot("app") == Ok("/app");
    var roots := GuardRoots(["app"]);
    assert forall i | 0 <= i < 1 :: NormalizeRoot(["app"][i]).Ok?;
    assert NormalizeRoot(["app"][0]) == Ok(roots.value[0]);
    assert roots.value == ["/app"];
    assert !UnderRoot(["app"][0], "/app") by { assert "app" + "/" == "app/"; }
    assert !UnderRoots(["app"], Probe(["/app"][0]));
    OfflineAgreesIffCovered(["app"]);
  }

  lemma AppComponents()
    ensures Normalize("app") == Ok("/app")
  {
    SplitWhole("app", '/');
    assert KeepParts(["app"]) == ["app"] by { assert ["app"][1..] == []; }
    assert PosixText("app") == "app" by { assert Join(["app"], '/') == "app"; assert "" + "app" == "app"; }
    assert "/" + "app" == "/app" && "/app" + "/" == "/app/";
    forall i | 0 <= i <= |"/app/"| ensures !MatchAt("/app/", "/../", i) {
      assert i != 0 && i != 1 ==> i + 4 > |"/app/"|;
      if i == 0 { assert "/app/"[0..4][1] == 'a'; }
      if i == 1 { assert "/app/"[1..5][0] == 'a'; }
    }
  }
}
