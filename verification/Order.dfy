// Python's ordering of strings, its stable sort, and sorted listings of finite sets.
module Order {
  ghost predicate Preorder<T(!new)>(le: (T, T) -> bool)
  {
    && (forall a, b :: le(a, b) || le(b, a))
    && (forall a, b, c :: le(a, b) && le(b, c) ==> le(a, c))
  }

  ghost predicate TotalOrder<T(!new)>(le: (T, T) -> bool)
  {
    Preorder(le) && forall a, b :: le(a, b) && le(b, a) ==> a == b
  }

  ghost predicate SortedBy<T>(le: (T, T) -> bool, s: seq<T>)
  {
    forall i, j | 0 <= i < j < |s| :: le(s[i], s[j])
  }

  ghost predicate Distinct<T>(s: seq<T>)
  {
    forall i, j | 0 <= i < j < |s| :: s[i] != s[j]
  }

  ghost function Elements<T>(s: seq<T>): set<T>
  {
    set x | x in s
  }

  // ---- the stable sort -------------------------------------------------------

  // Put x behind every element that is not greater than it.
  function InsertAfter<T>(le: (T, T) -> bool, s: seq<T>, x: T): (r: seq<T>)
    ensures |r| == |s| + 1
    ensures multiset(r) == multiset(s) + multiset{x}
  {
    if s == [] then [x]
    else
      var n := |s| - 1;
      assert s == s[..n] + [s[n]];
      if le(s[n], x) then s + [x] else InsertAfter(le, s[..n], x) + [s[n]]
  }

  // sorted(s, key=...) with keys compared by le.
  function Sort<T>(le: (T, T) -> bool, s: seq<T>): (r: seq<T>)
    ensures |r| == |s|
    ensures multiset(r) == multiset(s)
  {
    if s == [] then []
    else
      assert s == s[..|s| - 1] + [s[|s| - 1]];
      InsertAfter(le, Sort(le, s[..|s| - 1]), s[|s| - 1])
  }

  lemma InsertMembers<T>(le: (T, T) -> bool, s: seq<T>, x: T)
    ensures forall y :: y in InsertAfter(le, s, x) <==> y in s || y == x
  {
    forall y ensures y in InsertAfter(le, s, x) <==> y in s || y == x {
      assert y in InsertAfter(le, s, x) <==> y in multiset(InsertAfter(le, s, x));
    }
  }

  lemma SortMembers<T>(le: (T, T) -> bool, s: seq<T>)
    ensures forall y :: y in Sort(le, s) <==> y in s
  {
    forall y ensures y in Sort(le, s) <==> y in s {
      assert y in Sort(le, s) <==> y in multiset(Sort(le, s));
    }
  }

  lemma {:induction false} InsertSorted<T(!new)>(le: (T, T) -> bool, s: seq<T>, x: T)
    requires Preorder(le) && SortedBy(le, s)
    ensures SortedBy(le, InsertAfter(le, s, x))
  {
    if s != [] {
      var n := |s| - 1;
      if le(s[n], x) {
        forall i | 0 <= i < |s| ensures le(s[i], x) {
          assert le(s[i], s[n]) || i == n;
        }
      } else {
        InsertSorted(le, s[..n], x);
        InsertMembers(le, s[..n], x);
        var r := InsertAfter(le, s[..n], x);
        forall i | 0 <= i < |r| ensures le(r[i], s[n]) {
          assert r[i] in r;
          if r[i] in s[..n] {
            var k :| 0 <= k < n && s[k] == r[i];
          }
        }
      }
    }
  }

  lemma {:induction false} SortSorts<T(!new)>(le: (T, T) -> bool, s: seq<T>)
    requires Preorder(le)
    ensures SortedBy(le, Sort(le, s))
  {
    if s != [] {
      SortSorts(le, s[..|s| - 1]);
      InsertSorted(le, Sort(le, s[..|s| - 1]), s[|s| - 1]);
    }
  }

  // ---- listings ----------------------------------------------------------------

  ghost predicate IsListing<T>(le: (T, T) -> bool, s: set<T>, q: seq<T>)
  {
    SortedBy(le, q) && Distinct(q) && Elements(q) == s
  }

  lemma InsertKeepsListing<T(!new)>(le: (T, T) -> bool, s: set<T>, q: seq<T>, x: T)
    requires Preorder(le) && IsListing(le, s, q) && x !in s
    ensures IsListing(le, s + {x}, InsertAfter(le, q, x))
  {
    InsertSorted(le, q, x);
    InsertMembers(le, q, x);
    InsertDistinct(le, q, x);
  }

  lemma {:induction false} InsertDistinct<T>(le: (T, T) -> bool, q: seq<T>, x: T)
    requires Distinct(q) && x !in q
    ensures Distinct(InsertAfter(le, q, x))
  {
    if q != [] {
      var n := |q| - 1;
      if !le(q[n], x) {
        InsertDistinct(le, q[..n], x);
        InsertMembers(le, q[..n], x);
        var r := InsertAfter(le, q[..n], x);
        forall i | 0 <= i < |r| ensures r[i] != q[n] { assert r[i] in r; }
      }
    }
  }

  // sorted(s) of a set.
  ghost function Listing<T(!new)>(le: (T, T) -> bool, s: set<T>): (q: seq<T>)
    requires TotalOrder(le)
    ensures IsListing(le, s, q)
  {
    if s == {} then []
    else
      var x :| x in s;
      InsertKeepsListing(le, s - {x}, Listing(le, s - {x}), x);
      assert s - {x} + {x} == s;
      InsertAfter(le, Listing(le, s - {x}), x)
  }

  // A set has only one listing.
  lemma {:induction false} ListingUnique<T(!new)>(le: (T, T) -> bool, s: set<T>, p: seq<T>, q: seq<T>)
    requires TotalOrder(le) && IsListing(le, s, p) && IsListing(le, s, q)
    ensures p == q
  {
    if p == [] {
      assert forall i | 0 <= i < |q| :: q[i] in Elements(q);
    } else {
      assert p[0] in Elements(p);
      assert p[0] in Elements(q);
      assert q != [];
      assert q[0] in Elements(q);
      assert q[0] in Elements(p);
      var i :| 0 <= i < |p| && p[i] == q[0];
      var j :| 0 <= j < |q| && q[j] == p[0];
      assert le(p[0], q[0]) && le(q[0], p[0]);
      TailElements(p);
      TailElements(q);
      ListingUnique(le, s - {p[0]}, p[1..], q[1..]);
    }
  }

  lemma TailElements<T>(p: seq<T>)
    requires p != [] && Distinct(p)
    ensures Elements(p[1..]) == Elements(p) - {p[0]}
  {
    assert p == [p[0]] + p[1..];
  }

  method SortSet<T(==, !new)>(le: (T, T) -> bool, s: set<T>) returns (q: seq<T>)
    requires TotalOrder(le)
    ensures q == Listing(le, s)
  {
    q := [];
    var rest := s;
    while rest != {}
      invariant rest <= s
      invariant IsListing(le, s - rest, q)
      decreases rest
    {
      var x :| x in rest;
      InsertKeepsListing(le, s - rest, q, x);
      assert s - (rest - {x}) == s - rest + {x};
      q, rest := InsertAfter(le, q, x), rest - {x};
    }
    assert s - rest == s;
    ListingUnique(le, s, q, Listing(le, s));
  }

  // ---- strings -------------------------------------------------------------------

  // Code-point lexicographic order.
  predicate StrLe(a: string, b: string)
  {
    a == "" || (b != "" && (a[0] < b[0] || (a[0] == b[0] && StrLe(a[1..], b[1..]))))
  }

  // A text comes before another when it is a beginning of it or has the smaller character
  // where they first differ.
  lemma {:induction false} StrLeMeans(a: string, b: string)
    ensures StrLe(a, b) <==> a <= b || exists i | 0 <= i < |a| && i < |b| :: a[i] < b[i] && a[..i] == b[..i]
  {
    if a != "" && b != "" {
      var x, y := a[1..], b[1..];
      StrLeMeans(x, y);
      assert a <= b <==> a[0] == b[0] && x <= y;
      if a[0] == b[0] && exists i | 0 <= i < |x| && i < |y| :: x[i] < y[i] && x[..i] == y[..i] {
        var i :| 0 <= i < |x| && i < |y| && x[i] < y[i] && x[..i] == y[..i];
        assert a[..i + 1] == [a[0]] + x[..i] && b[..i + 1] == [b[0]] + y[..i];
      }
      if exists i | 0 <= i < |a| && i < |b| :: a[i] < b[i] && a[..i] == b[..i] {
        var i :| 0 <= i < |a| && i < |b| && a[i] < b[i] && a[..i] == b[..i];
        if i > 0 {
          assert a[..i][0] == b[..i][0];
          assert x[..i - 1] == a[..i][1..] && y[..i - 1] == b[..i][1..];
        }
      }
      if a[0] < b[0] { assert a[..0] == b[..0]; }
    }
  }

  lemma {:induction false} StrLeTotal(a: string, b: string)
    ensures StrLe(a, b) || StrLe(b, a)
  {
    if a != "" && b != "" && a[0] == b[0] {
      StrLeTotal(a[1..], b[1..]);
    }
  }

  lemma {:induction false} StrLeAntisymmetric(a: string, b: string)
    requires StrLe(a, b) && StrLe(b, a)
    ensures a == b
  {
    if a != "" {
      StrLeAntisymmetric(a[1..], b[1..]);
      assert a == [a[0]] + a[1..] && b == [b[0]] + b[1..];
    }
  }

  lemma {:induction false} StrLeTransitive(a: string, b: string, c: string)
    requires StrLe(a, b) && StrLe(b, c)
    ensures StrLe(a, c)
  {
    if a != "" && a[0] == b[0] == c[0] {
      StrLeTransitive(a[1..], b[1..], c[1..]);
    }
  }

  lemma StrLeIsTotalOrder()
    ensures TotalOrder(StrLe)
  {
    forall a, b ensures StrLe(a, b) || StrLe(b, a) { StrLeTotal(a, b); }
    forall a, b, c | StrLe(a, b) && StrLe(b, c) ensures StrLe(a, c) { StrLeTransitive(a, b, c); }
    forall a, b | StrLe(a, b) && StrLe(b, a) ensures a == b { StrLeAntisymmetric(a, b); }
  }

  ghost function Names(s: set<string>): (q: seq<string>)
    ensures TotalOrder(StrLe) && IsListing(StrLe, s, q)
  {
    StrLeIsTotalOrder();
    Listing(StrLe, s)
  }

  method SortNames(s: set<string>) returns (q: seq<string>)
    ensures q == Names(s)
  {
    StrLeIsTotalOrder();
    q := SortSet(StrLe, s);
  }
}
