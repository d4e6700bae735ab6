// Which paths a sandbox root covers, read off the components of both.
module RootLaws {
  import opened Values
  import opened Text
  import opened Paths
  import opened Listings
  import opened EnvSpec

  // ---- components ----------------------------------------------------------------------------

  lemma KeepHead(x: string, rest: seq<string>)
    ensures KeepParts([x] + rest) == (if Kept(x) then [x] else []) + KeepParts(rest)
    ensures KeepParts([]) == []
  {
    hide Kept;
    assert ([x] + rest)[1..] == rest;
  }

  lemma {:induction false} KeepAppend(a: seq<string>, b: seq<string>)
    ensures KeepParts(a + b) == KeepParts(a) + KeepParts(b)
  {
    hide KeepParts, Kept;
    if a == [] {
      KeepHead("", []);
      assert a + b == b;
    } else {
      var x, rest := a[0], a[1..];
      KeepHead(x, rest);
      KeepHead(x, rest + b);
      KeepAppend(rest, b);
      assert a == [x] + rest && a + b == [x] + (rest + b);
    }
  }

  // The components of a path are those of its pieces between slashes, in order; a piece is
  // its own component unless it is empty or ".".
  lemma ComponentsRead(a: string, b: string, piece: string)
    ensures Components(a + "/" + b) == Components(a) + Components(b)
    ensures '/' !in piece ==> Components(piece) == if piece == "" || piece == "." then [] else [piece]
  {
    SplitFrom(a, b);
    KeepAppend(Split(a, '/'), Split(b, '/'));
    if '/' !in piece {
      SplitWhole(piece, '/');
      assert [piece][1..] == [];
    }
  }

  lemma {:induction false} KeptMembers(parts: seq<string>, x: string)
    ensures x in KeepParts(parts) <==> x in parts && x != "" && x != "."
  {
    if parts != [] {
      assert parts == [parts[0]] + parts[1..];
      KeptMembers(parts[1..], x);
    }
  }

  // ---- normal forms --------------------------------------------------------------------------

  // The leading slashes of the normal form: two stay two, any other number becomes one.
  function Slashes(path: string): string
  {
    if "//" <= path && !("///" <= path) then "//" else "/"
  }

  // A path of "." components alone.
  predicate OnlyDots(path: string)
  {
    !("/" <= path) && Components(path) == []
  }

  // A second leading slash adds no parent step.
  lemma DoubleParent(parts: seq<string>)
    requires CleanParts(parts)
    ensures HasParent("/" + Abs(parts)) <==> ".." in parts
  {
    hide Join, CleanParts, HasParent;
    ParentFree(parts);
    SlashParent(Abs(parts));
  }

  lemma SlashParent(norm: string)
    requires "/" <= norm
    ensures HasParent("/" + norm) <==> HasParent(norm)
  {
    var inner, outer := norm + "/", ("/" + norm) + "/";
    hide MatchAt;
    SlashMatches(inner);
    assert outer == "/" + inner;
    if |norm| >= 3 { assert ("/" + norm)[|norm| + 1 - 3..] == norm[|norm| - 3..]; }
    if Contains(inner, "/../") {
      var i :| 0 <= i <= |inner| && MatchAt(inner, "/../", i);
      assert MatchAt("/" + inner, "/../", i + 1);
    }
    if Contains(outer, "/../") {
      var i :| 0 <= i <= |outer| && MatchAt(outer, "/../", i);
      assert MatchAt(inner, "/../", i - 1);
    }
    if |norm| == 2 { assert ("/" + norm)[0..][1] == '/'; }
  }

  lemma SlashMatches(inner: string)
    requires "/" <= inner
    ensures !MatchAt("/" + inner, "/../", 0)
    ensures forall i | 1 <= i :: MatchAt("/" + inner, "/../", i) <==> MatchAt(inner, "/../", i - 1)
  {
    var outer := "/" + inner;
    forall i | 1 <= i ensures MatchAt(outer, "/../", i) <==> MatchAt(inner, "/../", i - 1) {
      if i + 3 <= |inner| { assert outer[i..i + 4] == inner[i - 1..i + 3]; }
    }
    if 4 <= |outer| { assert outer[0..4][1] == inner[0] == '/'; }
  }

  // The text that is checked for parent steps.
  function NormalText(path: string): string
  {
    if OnlyDots(path) then "/." else Slashes(path) + Join(Components(path), '/')
  }

  lemma TextBeforeCheck(path: string)
    ensures (if "/" <= PosixText(path) then PosixText(path) else "/" + PosixText(path)) == NormalText(path)
  {
    ComponentsClean(path);
    JoinHead(Components(path));
    hide Components, Join, CleanParts;
    var tail := Join(Components(path), '/');
    assert "" + tail == tail;
    assert ("/" + tail)[0] == '/' && ("//" + tail)[0] == '/' && "."[0] != '/' && "/" + "." == "/.";
  }

  lemma SlashAbs(parts: seq<string>)
    ensures "/" + Abs(parts) == "//" + Join(parts, '/')
  {
  }

  lemma ParentOfText(path: string)
    ensures HasParent(NormalText(path)) <==> ".." in Split(path, '/')
  {
    var parts := Components(path);
    assert ".." in parts <==> ".." in Split(path, '/') by { KeptMembers(Split(path, '/'), ".."); }
    ComponentsClean(path);
    hide HasParent, Join, CleanParts, Components, Split;
    ParentFree(parts);
    DoubleParent(parts);
    DotIsFree();
    SlashAbs(parts);
  }

  // A path normalises exactly when it is not empty and no piece of it is "..": to its leading
  // slashes and its components.
  lemma NormalizeIff(path: string)
    ensures Normalize(path).Ok? <==> path != "" && ".." !in Split(path, '/')
    ensures Normalize(path).Ok? ==>
              Normalize(path).value == if OnlyDots(path) then "/." else Slashes(path) + Join(Components(path), '/')
  {
    hide Components, HasParent, Join, PosixText, Split;
    TextBeforeCheck(path);
    ParentOfText(path);
  }

  lemma DotIsFree()
    ensures !HasParent("/.")
  {
    forall i | 0 <= i <= |"/./"| ensures !MatchAt("/./", "/../", i) {}
    assert "/." + "/" == "/./";
  }

  // ---- coverage ------------------------------------------------------------------------------

  // A root covers what its components begin: "/app" covers "/app/x", but not "/application".
  lemma RootCovers(parts: seq<string>, q: seq<string>)
    requires CleanParts(parts) && CleanParts(q) && parts != []
    ensures UnderRoot("/" + Join(parts, '/'), "/" + Join(q, '/')) <==> parts <= q
  {
    DirectoryPrefix(parts);
    JoinHead(parts);
    hide Join, CleanParts, DirPrefix;
    var root, path := Abs(parts), Abs(q);
    if parts <= q {
      if parts == q {
      } else {
        assert Below(parts, q);
        BelowText(parts, q);
      }
    }
    if UnderRoot(root, path) {
      if path == root {
        AbsInjective(parts, q);
      } else {
        JoinHead(q);
        PrefixBelow(parts, q);
        assert parts == q[..|parts|];
      }
    }
  }

  lemma ShiftUnder(a: string, b: string)
    requires a != "" && a != "/"
    ensures UnderRoot("/" + a, "/" + b) <==> UnderRoot(a, b)
  {
    assert ("/" + a) + "/" == "/" + (a + "/");
    assert ("/" + a)[1..] == a && ("/" + b)[1..] == b;
    if a + "/" <= b { assert ("/" + b)[..|a| + 2] == "/" + b[..|a| + 1]; }
    if "/" + (a + "/") <= "/" + b { assert b[..|a| + 1] == ("/" + b)[1..|a| + 2] == a + "/"; }
  }

  // The four pairings of one and two leading slashes.
  lemma SlashedCovers(parts: seq<string>, q: seq<string>, one: string, two: string)
    requires CleanParts(parts) && CleanParts(q) && parts != []
    requires one in ["/", "//"] && two in ["/", "//"]
    ensures UnderRoot(one + Join(parts, '/'), two + Join(q, '/')) <==> one == two && parts <= q
  {
    RootCovers(parts, q);
    JoinHead(parts);
    JoinHead(q);
    ShiftUnder(Abs(parts), Abs(q));
    SlashAbs(parts);
    SlashAbs(q);
    hide Join, CleanParts;
    var x, y := Join(parts, '/'), Join(q, '/');
    assert ("/" + x)[1] != '/' && ("//" + x)[1] == '/' && ("//" + y)[1] == '/' && (y != "" ==> ("/" + y)[1] != '/');
    assert one != two ==> two + y == "/" || (one + x)[1] != (two + y)[1];
  }

  // A joined text that begins with "./" has "." as its first piece.
  lemma DotFirst(q: seq<string>, rest: string)
    requires q != [] && Join(q, '/') == "." + "/" + rest && forall p <- q :: '/' !in p
    ensures q[0] == "."
  {
    SplitJoin(q, '/');
    SplitStep(".", rest, '/');
  }

  lemma NoDotFirst(q: seq<string>)
    requires CleanParts(q)
    ensures !("./" <= Join(q, '/'))
  {
    var tail := Join(q, '/');
    if q != [] {
      assert Kept(q[0]) && forall p <- q :: '/' !in p;
      hide Join;
      if "./" <= tail {
        assert tail == "." + "/" + tail[2..];
        DotFirst(q, tail[2..]);
      }
    }
  }

  // The normal form of "." is covered by the same and by the root directory only.
  lemma DotCovers(q: seq<string>, slashes: string)
    requires CleanParts(q) && slashes in ["/", "//"]
    ensures !UnderRoot("/.", slashes + Join(q, '/'))
    ensures q != [] ==> !UnderRoot(slashes + Join(q, '/'), "/.")
    ensures UnderRoot("/.", "/.")
  {
    JoinHead(q);
    JoinNotDot(q);
    NoDotFirst(q);
    hide Join, CleanParts, Split;
    DotApart(Join(q, '/'), slashes);
  }

  lemma DotApart(tail: string, slashes: string)
    requires tail != "." && !("./" <= tail) && (tail != "" ==> tail[0] != '/') && slashes in ["/", "//"]
    ensures !UnderRoot("/.", slashes + tail)
    ensures tail != "" ==> !UnderRoot(slashes + tail, "/.")
  {
    var path := slashes + tail;
    assert "/." + "/" == "/./";
    assert slashes == "/" ==> path[1..] == tail;
    assert slashes == "//" ==> path[1] == '/';
    assert slashes == "/" && |path| >= 3 ==> tail[..2] == path[1..3];
  }

  // What a declared root covers: everything, if it is a root directory; nothing but the like,
  // if it is made of "." alone; else the paths with its leading slashes that its components
  // begin.
  predicate Covers(root: string, path: string)
  {
    if Components(root) == [] then "/" <= root || OnlyDots(path)
    else !OnlyDots(path) && Slashes(root) == Slashes(path) && Components(root) <= Components(path)
  }

  // The normal forms a guarded root and a path can have.
  function RootText(root: string): string
  {
    if Components(root) == [] && "//" == Slashes(root) then "" else NormalText(root)
  }

  lemma GuardedText(root: string)
    requires NormalizeRoot(root).Ok?
    ensures NormalizeRoot(root).value == RootText(root)
  {
    RootShape(root);
    NormalizeIff(root);
    ComponentsClean(root);
    JoinHead(Components(root));
    hide Normalize, NormalizeRoot, Components, Join, Split, CleanParts;
    var tail := Join(Components(root), '/');
    assert "//" + "" == "//" && "/" + "" == "/";
    assert tail != "" ==> Slashes(root) + tail != "//" by {
      if tail != "" { assert (Slashes(root) + tail)[|Slashes(root) + tail| - |tail|] == tail[0] != '/'; }
    }
  }

  lemma TextsCover(root: string, path: string)
    ensures UnderRoot(RootText(root), NormalText(path)) <==> Covers(root, path)
  {
    ComponentsClean(root);
    ComponentsClean(path);
    hide Components, Join, CleanParts, UnderRoot;
    var parts, q := Components(root), Components(path);
    if parts == [] {
      DotCovers(q, Slashes(path));
      if "/" <= root { DirectoryCovers(root, path); }
    } else if OnlyDots(path) {
      DotCovers(parts, Slashes(root));
    } else {
      SlashedCovers(parts, q, Slashes(root), Slashes(path));
    }
  }

  // A root directory covers every absolute path.
  lemma DirectoryCovers(root: string, path: string)
    requires Components(root) == [] && "/" <= root
    ensures UnderRoot(RootText(root), NormalText(path))
  {
    hide Components;
    assert Join([], '/') == "" && "/" + "" == "/" && "" + "/" == "/" && "/" <= NormalText(path);
  }

  lemma CoversIff(root: string, path: string)
    requires NormalizeRoot(root).Ok? && Normalize(path).Ok?
    ensures UnderRoot(NormalizeRoot(root).value, Normalize(path).value) <==> Covers(root, path)
  {
    hide Normalize, NormalizeRoot, UnderRoot, Covers, RootText, Slashes;
    GuardedText(root);
    NormalizeIff(path);
    TextsCover(root, path);
    hide Components, Join, Split;
  }

  // The guard lets a path through exactly when it is not empty, steps up nowhere, and some
  // declared root covers it.
  lemma AdmitIff(declared: seq<string>, path: string)
    requires GuardRoots(declared).Some?
    ensures Admit(GuardRoots(declared).value, path).Ok? <==>
              path != "" && ".." !in Split(path, '/') && exists i | 0 <= i < |declared| :: Covers(declared[i], path)
    ensures Admit(GuardRoots(declared).value, path).Ok? ==>
              Admit(GuardRoots(declared).value, path).value == if OnlyDots(path) then "/." else Slashes(path) + Join(Components(path), '/')
  {
    NormalizeIff(path);
    hide Normalize, NormalizeRoot, UnderRoot, Covers, Components, Split;
    var roots := GuardRoots(declared).value;
    if Normalize(path).Ok? {
      forall i | 0 <= i < |declared| ensures UnderRoot(roots[i], Normalize(path).value) <==> Covers(declared[i], path) {
        assert NormalizeRoot(declared[i]) == Ok(roots[i]);
        CoversIff(declared[i], path);
      }
    }
  }

  // The offline check of a recorded path, under roots declared in normal form.
  lemma OfflineIff(declared: seq<seq<string>>, q: seq<string>)
    requires CleanParts(q) && forall i | 0 <= i < |declared| :: CleanParts(declared[i])
    ensures UnderRoots(seq(|declared|, i requires 0 <= i < |declared| => Abs(declared[i])), Abs(q))
            <==> exists i | 0 <= i < |declared| :: declared[i] <= q
  {
    hide Join, CleanParts;
    var roots := seq(|declared|, i requires 0 <= i < |declared| => Abs(declared[i]));
    forall i | 0 <= i < |declared| ensures UnderRoot(roots[i], Abs(q)) <==> declared[i] <= q {
      JoinHead(declared[i]);
      if declared[i] != [] { RootCovers(declared[i], q); }
    }
  }
}
