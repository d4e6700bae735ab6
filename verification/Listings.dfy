// What list_dir finds in a store whose keys came from absolute, single-slash, non-root
// paths, and where repeated listing leads.
module Listings {
  import opened Values
  import opened Text
  import opened Order
  import opened Paths
  import opened EnvSpec

  // The key of a component list; [] is the root directory.
  function Abs(parts: seq<string>): string
  {
    "/" + Join(parts, '/')
  }

  // The component lists that keys and directories are made of.
  predicate Location(parts: seq<string>)
  {
    CleanParts(parts) && ".." !in parts
  }

  // Keys written through absolute, single-slash, non-root paths have this form.
  ghost predicate Canonical(files: set<string>)
  {
    forall f <- files :: exists parts: seq<string> :: IsKey(f, parts)
  }

  predicate IsKey(file: string, parts: seq<string>)
  {
    Location(parts) && parts != [] && file == Abs(parts)
  }

  predicate Below(dir: seq<string>, parts: seq<string>)
  {
    |dir| < |parts| && parts[..|dir|] == dir
  }

  // ---- joined components ------------------------------------------------------------------

  lemma {:induction false} JoinAppend(a: seq<string>, b: seq<string>)
    requires a != [] && b != []
    ensures Join(a + b, '/') == Join(a, '/') + "/" + Join(b, '/')
  {
    assert (a + b)[0] == a[0] && (a + b)[1..] == a[1..] + b;
    if |a| > 1 {
      JoinAppend(a[1..], b);
    } else {
      assert a[1..] + b == b;
    }
  }

  // Splitting at a given separator.
  lemma {:induction false} SplitFrom(a: string, b: string)
    ensures Split(a + "/" + b, '/') == Split(a, '/') + Split(b, '/')
    decreases |a|
  {
    hide Split;
    var i := Find(a, "/");
    if i == -1 {
      assert '/' !in a by { forall k | 0 <= k < |a| ensures a[k] != '/' { assert !MatchAt(a, "/", k); } }
      SplitWhole(a, '/');
      SplitStep(a, b, '/');
    } else {
      var head, tail := a[..i], a[i + 1..];
      assert '/' !in head by { forall k | 0 <= k < i ensures head[k] != '/' { assert !MatchAt(a, "/", k); } }
      assert a[i..i + 1] == "/";
      assert a == head + "/" + tail;
      SplitFrom(tail, b);
      SplitStep(head, tail, '/');
      SplitStep(head, tail + "/" + b, '/');
      assert a + "/" + b == head + "/" + (tail + "/" + b);
    }
  }

  lemma SplitClean(parts: seq<string>)
    requires CleanParts(parts) && parts != []
    ensures Split(Join(parts, '/'), '/') == parts
  {
    forall p | p in parts ensures '/' !in p {
      var i :| 0 <= i < |parts| && parts[i] == p;
    }
    SplitJoin(parts, '/');
  }

  lemma AbsInjective(a: seq<string>, b: seq<string>)
    requires CleanParts(a) && CleanParts(b) && Abs(a) == Abs(b)
    ensures a == b
  {
    RootedComponents(a);
    RootedComponents(b);
  }

  // ---- parent components -------------------------------------------------------------------

  // A key holds a parent step exactly when one of its components is "..".
  lemma ParentFree(parts: seq<string>)
    requires CleanParts(parts)
    ensures HasParent(Abs(parts)) <==> ".." in parts
  {
    if ".." in parts {
      var i :| 0 <= i < |parts| && parts[i] == "..";
      ParentShows(parts[..i], parts[i + 1..]);
      assert parts == parts[..i] + [".."] + parts[i + 1..];
    }
    if HasParent(Abs(parts)) {
      ParentPart(parts);
    }
  }

  lemma ParentShows(a: seq<string>, b: seq<string>)
    ensures HasParent(Abs(a + [".."] + b))
  {
    hide HasParent, Join;
    var all := a + [".."] + b;
    assert all == a + ([".."] + b);
    AbsAppend(a, [".."] + b);
    StepText(b);
    var head := if a == [] then "" else Abs(a);
    var tail := if b == [] then "" else Join(b, '/') + "/";
    assert Abs(all) + "/" == head + "/" + (Join([".."] + b, '/') + "/");
    assert "/" + "../" == "/../";
    assert Abs(all) + "/" == head + "/../" + tail;
    ParentAt(Abs(all), head, tail);
  }

  lemma AbsAppend(a: seq<string>, b: seq<string>)
    requires b != []
    ensures Abs(a + b) == (if a == [] then "" else Abs(a)) + "/" + Join(b, '/')
  {
    if a == [] {
      assert a + b == b;
    } else {
      JoinAppend(a, b);
    }
  }

  lemma StepText(b: seq<string>)
    ensures Join([".."] + b, '/') + "/" == "../" + (if b == [] then "" else Join(b, '/') + "/")
  {
    if b == [] {
      assert [".."] + b == [".."];
    } else {
      JoinAppend([".."], b);
    }
  }

  lemma ParentAt(norm: string, head: string, tail: string)
    requires norm + "/" == head + "/../" + tail
    ensures HasParent(norm)
  {
    assert (head + "/../" + tail)[|head|..|head| + 4] == "/../";
    assert MatchAt(norm + "/", "/../", |head|);
  }

  lemma ParentPart(parts: seq<string>)
    requires CleanParts(parts) && HasParent(Abs(parts))
    ensures ".." in parts
  {
    hide Split, Join, CleanParts, MatchAt;
    var norm := Abs(parts);
    var text := norm + "/";
    if |norm| >= 3 && norm[|norm| - 3..] == "/.." { EndsWithParent(norm); }
    assert Contains(text, "/../");
    var i :| 0 <= i <= |text| && MatchAt(text, "/../", i);
    PartsOfText(parts, i);
  }

  lemma EndsWithParent(norm: string)
    requires |norm| >= 3 && norm[|norm| - 3..] == "/.."
    ensures MatchAt(norm + "/", "/../", |norm| - 3)
  {
    var i := |norm| - 3;
    assert (norm + "/")[i..i + 4] == norm[i..] + "/";
    assert "/.." + "/" == "/../";
  }

  // A match of "/../" in the text of some components shows a ".." component.
  lemma PartsOfText(parts: seq<string>, i: nat)
    requires CleanParts(parts) && MatchAt(Abs(parts) + "/", "/../", i)
    ensures ".." in parts
  {
    var text := Abs(parts) + "/";
    var head, rest := text[..i], text[i + 4..];
    assert text == head + "/../" + rest by {
      assert text == text[..i] + text[i..i + 4] + text[i + 4..];
    }
    assert text == head + "/" + (".." + "/" + rest);
    SplitFrom(head, ".." + "/" + rest);
    SplitStep("..", rest, '/');
    assert Split(text, '/') == Split(head, '/') + ([".."] + Split(rest, '/'));
    var k := |Split(head, '/')|;
    assert Split(text, '/')[k] == "..";
    TextPieces(parts);
    assert ".." in [""] + parts + [""] || ".." in ["", "", ""];
  }

  lemma TextPieces(parts: seq<string>)
    requires CleanParts(parts)
    ensures Split(Abs(parts) + "/", '/') == if parts == [] then ["", "", ""] else [""] + parts + [""]
  {
    var text := Abs(parts) + "/";
    SplitWhole("", '/');
    if parts == [] {
      assert text == "" + "/" + ("" + "/" + "");
      SplitStep("", "", '/');
      SplitStep("", "" + "/" + "", '/');
    } else {
      assert text == "" + "/" + (Join(parts, '/') + "/" + "");
      SplitFrom(Join(parts, '/'), "");
      SplitClean(parts);
      SplitStep("", Join(parts, '/') + "/" + "", '/');
    }
  }

  // ---- writing -------------------------------------------------------------------------------

  // An absolute path with one leading slash that names something below the root.
  predicate SingleSlash(path: string)
  {
    Root(path) == "/" && Components(path) != []
  }

  // Such a path is normalised to the key of its components.
  lemma SingleSlashKey(path: string)
    requires SingleSlash(path) && Normalize(path).Ok?
    ensures IsKey(Normalize(path).value, Components(path))
  {
    NormalizedShape(path);
    ParentFree(Components(path));
  }

  // A key is its own normal form, so the guard admits it under the roots that cover it.
  lemma KeyNormal(parts: seq<string>)
    requires Location(parts)
    ensures Normalize(Abs(parts)) == Ok(Abs(parts))
  {
    RootedText(parts);
    ParentFree(parts);
  }

  // No call makes the store leave the canonical form, as long as writes name such paths.
  lemma CallsKeepCanonical(p: Policy, g: Guarded, op: Op)
    requires Canonical(g.store.files.Keys) && (op.WriteFile? ==> SingleSlash(op.path))
    ensures Canonical(Perform(p, g, op).0.store.files.Keys)
  {
    hide Network.Check, MarkAll;
    if op.WriteFile? && Admit(p.roots, op.path).Ok? {
      SingleSlashKey(op.path);
      var key := Normalize(op.path).value;
      var after := Perform(p, g, op).0.store.files.Keys;
      assert after == g.store.files.Keys + {key};
      forall f | f in after ensures exists parts: seq<string> :: IsKey(f, parts) {
        if f == key { assert IsKey(f, Components(op.path)); }
      }
    }
  }

  // ---- one directory --------------------------------------------------------------------------

  lemma DirectoryPrefix(dir: seq<string>)
    requires CleanParts(dir)
    ensures DirPrefix(Abs(dir)) == if dir == [] then "/" else Abs(dir) + "/"
  {
    if dir == [] {
      assert RStrip("/", c => c == '/') == "";
    } else {
      JoinLast(dir);
    }
  }

  // A key starts with the text of a directory exactly when it lies below it; its child is
  // the next component.
  lemma ChildOfKey(dir: seq<string>, parts: seq<string>)
    requires CleanParts(dir) && CleanParts(parts) && parts != []
    ensures DirPrefix(Abs(dir)) <= Abs(parts) <==> Below(dir, parts)
    ensures Below(dir, parts) ==> ChildOf(DirPrefix(Abs(dir)), Abs(parts)) == Abs(parts[..|dir| + 1])
  {
    if Below(dir, parts) {
      BelowText(dir, parts);
    }
    if DirPrefix(Abs(dir)) <= Abs(parts) {
      PrefixBelow(dir, parts);
    }
  }

  lemma PrefixBelow(dir: seq<string>, parts: seq<string>)
    requires CleanParts(dir) && CleanParts(parts) && parts != []
    requires DirPrefix(Abs(dir)) <= Abs(parts)
    ensures Below(dir, parts)
  {
    hide DirPrefix, Join, CleanParts;
    DirectoryPrefix(dir);
    if dir != [] {
      var d, p := Join(dir, '/'), Join(parts, '/');
      assert "/" + d + "/" <= "/" + p;
      var r := p[|d| + 1..];
      assert p[..|d| + 1] == ("/" + p)[1..|d| + 2] == ("/" + d + "/")[1..] == d + "/";
      assert p == d + "/" + r;
      SplitFrom(Join(dir, '/'), r);
      SplitClean(dir);
      SplitClean(parts);
      assert parts == dir + Split(r, '/');
    }
  }

  lemma Reassociate(a: string, b: string)
    ensures "/" + (a + "/" + b) == "/" + a + "/" + b
  {
  }

  // The text of a directory with a slash, and of what lies below it.
  lemma PrefixText(dir: seq<string>, tail: seq<string>)
    requires CleanParts(dir) && tail != []
    ensures Abs(dir + tail) == DirPrefix(Abs(dir)) + Join(tail, '/')
  {
    DirectoryPrefix(dir);
    hide DirPrefix;
    if dir != [] {
      JoinAppend(dir, tail);
      Reassociate(Join(dir, '/'), Join(tail, '/'));
      hide Join;
    } else {
      assert dir + tail == tail;
    }
  }

  lemma BelowText(dir: seq<string>, parts: seq<string>)
    requires CleanParts(dir) && CleanParts(parts) && Below(dir, parts)
    ensures DirPrefix(Abs(dir)) <= Abs(parts)
    ensures ChildOf(DirPrefix(Abs(dir)), Abs(parts)) == Abs(parts[..|dir| + 1])
  {
    hide DirPrefix, Abs;
    var prefix, tail := DirPrefix(Abs(dir)), parts[|dir|..];
    assert parts == dir + tail;
    assert parts[..|dir| + 1] == dir + [tail[0]];
    PrefixText(dir, tail);
    PrefixText(dir, [tail[0]]);
    assert Join([tail[0]], '/') == tail[0];
    assert Abs(parts)[|prefix|..] == Join(tail, '/');
    FirstPart(tail);
  }

  lemma FirstPart(tail: seq<string>)
    requires CleanParts(tail) && tail != []
    ensures var rest := Join(tail, '/'); var slash := Find(rest, "/");
            (if slash == -1 then rest else rest[..slash]) == tail[0]
  {
    assert Kept(tail[0]) && '/' !in tail[0];
    var rest := Join(tail, '/');
    forall j | 0 <= j < |tail[0]| ensures !MatchAt(rest, "/", j) {
      assert rest[j] == tail[0][j];
      assert tail[0][j] in tail[0];
      if j + 1 <= |rest| { assert rest[j..j + 1] == [rest[j]]; }
    }
    if |tail| > 1 {
      assert rest == tail[0] + ['/'] + Join(tail[1..], '/');
      assert rest[|tail[0]|..|tail[0]| + 1] == "/";
      FindFirst(rest, "/", |tail[0]|);
    }
  }

  // The immediate children of a directory: what lies one component below it on the way to
  // some file.
  ghost predicate IsChild(files: set<string>, dir: seq<string>, name: string)
  {
    exists parts: seq<string> :: IsKey(Abs(parts), parts) && Abs(parts) in files && Below(dir, parts) && name == Abs(parts[..|dir| + 1])
  }

  // list_dir on a canonical store: exactly the immediate children, sorted, each once.
  lemma ListsChildren(files: set<string>, dir: seq<string>)
    requires Canonical(files) && Location(dir)
    ensures var names := ListNames(files, Abs(dir));
            && SortedBy(StrLe, names) && Distinct(names)
            && forall name :: name in names <==> IsChild(files, dir, name)
  {
    var names, prefix := ListNames(files, Abs(dir)), DirPrefix(Abs(dir));
    var children := set f | f in files && prefix <= f :: ChildOf(prefix, f);
    hide DirPrefix, ChildOf, Abs;
    assert Elements(names) == children;
    forall name ensures name in names <==> IsChild(files, dir, name) {
      assert name in names <==> name in Elements(names);
      if name in children {
        var f :| f in files && prefix <= f && name == ChildOf(prefix, f);
        var parts: seq<string> :| IsKey(f, parts);
        ChildOfKey(dir, parts);
        assert IsKey(Abs(parts), parts);
      }
      if IsChild(files, dir, name) {
        var parts: seq<string> :| IsKey(Abs(parts), parts) && Abs(parts) in files && Below(dir, parts) && name == Abs(parts[..|dir| + 1]);
        ChildOfKey(dir, parts);
        assert name in children;
      }
    }
  }

  // ---- listings and the allowlist -----------------------------------------------------------------

  // Everything listed in a directory that the guard admits is covered by the allowlist too,
  // whatever the store holds.
  lemma ListingStaysInside(declared: seq<string>, files: set<string>, path: string, name: string)
    requires GuardRoots(declared).Some? && Admit(GuardRoots(declared).value, path).Ok?
    requires name in ListNames(files, Admit(GuardRoots(declared).value, path).value)
    ensures UnderRoots(GuardRoots(declared).value, name)
  {
    var roots := GuardRoots(declared).value;
    var norm := Admit(roots, path).value;
    assert DirPrefix(norm) <= name by {
      var names := ListNames(files, norm);
      assert name in Elements(names);
    }
    var i :| 0 <= i < |roots| && UnderRoot(roots[i], norm);
    assert NormalizeRoot(declared[i]) == Ok(roots[i]);
    RootShape(declared[i]);
    assert UnderRoot(roots[i], name) by { PrefixUnder(declared[i], norm, name); }
  }

  lemma PrefixUnder(declared: string, norm: string, name: string)
    requires NormalizeRoot(declared).Ok? && UnderRoot(NormalizeRoot(declared).value, norm)
    requires DirPrefix(norm) <= name
    ensures UnderRoot(NormalizeRoot(declared).value, name)
  {
    RootEnds(declared);
    hide Normalize, NormalizeRoot;
    var root := NormalizeRoot(declared).value;
    var text := RStrip(norm, c => c == '/');
    RStripBegin(norm, c => c == '/');
    if root != "/" {
      if norm == root {
        assert text == root;
      } else {
        assert root + "/" <= norm;
        assert root != "" ==> norm[|root| - 1] == root[|root| - 1];
        if |text| == |root| {
          assert text == root;
        } else {
          assert norm[|root|] == '/';
          assert text == norm[..|text|];
          assert root + "/" <= text;
        }
      }
    }
  }

  // A guarded root other than "/" does not end with a slash.
  lemma RootEnds(declared: string)
    requires NormalizeRoot(declared).Ok?
    ensures var root := NormalizeRoot(declared).value; root == "/" || root == "" || root[|root| - 1] != '/'
  {
    RootShape(declared);
    NormalizedShape(declared);
    var norm, parts := Normalize(declared).value, Components(declared);
    hide Normalize, NormalizeRoot, Components;
    if parts != [] { JoinLast(parts); }
  }

  // ---- repeated listing -----------------------------------------------------------------------------

  // Each directory is found in the listing of the one before it.
  ghost predicate Walk(files: set<string>, stops: seq<string>)
  {
    forall i | 0 <= i < |stops| - 1 :: stops[i + 1] in ListNames(files, stops[i])
  }

  ghost predicate Reaches(files: set<string>, from: string, file: string)
  {
    exists stops: seq<string> :: |stops| >= 2 && stops[0] == from && stops[|stops| - 1] == file && Walk(files, stops)
  }

  function Stops(parts: seq<string>, from: nat): (stops: seq<string>)
    requires from <= |parts|
    ensures |stops| == |parts| - from + 1
    ensures forall i | 0 <= i < |stops| :: stops[i] == Abs(parts[..from + i])
  {
    seq(|parts| - from + 1, i requires 0 <= i < |parts| - from + 1 => Abs(parts[..from + i]))
  }

  lemma LocationPrefix(parts: seq<string>, n: nat)
    requires Location(parts) && n <= |parts|
    ensures Location(parts[..n])
  {
    assert forall k | 0 <= k < n :: parts[..n][k] == parts[k];
  }

  lemma WalkDown(files: set<string>, dir: seq<string>, parts: seq<string>)
    requires Canonical(files) && IsKey(Abs(parts), parts) && Abs(parts) in files && Below(dir, parts)
    ensures Walk(files, Stops(parts, |dir|))
  {
    hide Abs, ListNames, Canonical, CleanParts;
    var stops := Stops(parts, |dir|);
    forall i | 0 <= i < |stops| - 1 ensures stops[i + 1] in ListNames(files, stops[i]) {
      var here := parts[..|dir| + i];
      LocationPrefix(parts, |dir| + i);
      assert Below(here, parts);
      ListsChildren(files, here);
      assert IsChild(files, here, Abs(parts[..|here| + 1]));
    }
  }

  // Where a walk of any length can lead: to a beginning of some file's components.
  lemma {:induction false} WalkStaysBelow(files: set<string>, dir: seq<string>, stops: seq<string>) returns (end: seq<string>)
    requires Canonical(files) && Location(dir)
    requires |stops| >= 2 && stops[0] == Abs(dir) && Walk(files, stops)
    ensures Location(end) && Below(dir, end) && stops[|stops| - 1] == Abs(end)
    decreases |stops|
  {
    hide Abs;
    ListsChildren(files, dir);
    assert stops[0 + 1] in ListNames(files, stops[0]);
    assert IsChild(files, dir, stops[1]);
    var parts: seq<string> :| IsKey(Abs(parts), parts) && Abs(parts) in files && Below(dir, parts) && stops[1] == Abs(parts[..|dir| + 1]);
    var child := parts[..|dir| + 1];
    LocationPrefix(parts, |dir| + 1);
    assert child[..|dir|] == dir;
    if |stops| == 2 {
      end := child;
    } else {
      assert Walk(files, stops[1..]) by {
        forall i | 0 <= i < |stops[1..]| - 1 ensures stops[1..][i + 1] in ListNames(files, stops[1..][i]) {
          assert stops[(i + 1) + 1] in ListNames(files, stops[i + 1]);
        }
      }
      end := WalkStaysBelow(files, child, stops[1..]);
      assert end[..|dir|] == dir by { assert end[..|child|][..|dir|] == end[..|dir|]; }
    }
  }

  // Listing again and again from a directory finds exactly the files below it.
  lemma ListingReaches(files: set<string>, dir: seq<string>, parts: seq<string>)
    requires Canonical(files) && Location(dir) && IsKey(Abs(parts), parts) && Abs(parts) in files
    ensures Reaches(files, Abs(dir), Abs(parts)) <==> Below(dir, parts)
  {
    if Below(dir, parts) {
      WalkDown(files, dir, parts);
      assert parts[..|parts|] == parts;
      var stops := Stops(parts, |dir|);
      assert |stops| >= 2 && stops[0] == Abs(dir) && stops[|stops| - 1] == Abs(parts);
    }
    if Reaches(files, Abs(dir), Abs(parts)) {
      var stops: seq<string> :| |stops| >= 2 && stops[0] == Abs(dir) && stops[|stops| - 1] == Abs(parts) && Walk(files, stops);
      var end := WalkStaysBelow(files, dir, stops);
      AbsInjective(end, parts);
    }
  }

  // Every stop on the way is a key form, so a guard that admits the directory admits it.
  lemma StopsAdmitted(declared: seq<string>, files: set<string>, dir: seq<string>, name: string)
    requires Canonical(files) && Location(dir) && GuardRoots(declared).Some?
    requires Admit(GuardRoots(declared).value, Abs(dir)).Ok? && name in ListNames(files, Abs(dir))
    ensures Admit(GuardRoots(declared).value, name) == Ok(name)
  {
    hide Abs, ListNames, Canonical, CleanParts, Normalize, GuardRoots;
    KeyNormal(dir);
    ListingStaysInside(declared, files, Abs(dir), name);
    ListsChildren(files, dir);
    assert IsChild(files, dir, name);
    var parts: seq<string> :| IsKey(Abs(parts), parts) && Abs(parts) in files && Below(dir, parts) && name == Abs(parts[..|dir| + 1]);
    var child := parts[..|dir| + 1];
    LocationPrefix(parts, |dir| + 1);
    KeyNormal(child);
  }
}
