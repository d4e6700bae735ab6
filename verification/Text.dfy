// The Python string operations the modelled code relies on: find, replace, split,
// strip, lower and the decimal rendering of integers.
module Text {
  import opened Values

  // ---- character classes -------------------------------------------------

  // Characters removed by str.strip() without an argument.
  predicate IsSpace(c: char)
  {
    var n := c as int;
    || 0x09 <= n <= 0x0d || 0x1c <= n <= 0x20 || n == 0x85 || n == 0xa0 || n == 0x1680
    || 0x2000 <= n <= 0x200a || n == 0x2028 || n == 0x2029 || n == 0x202f || n == 0x205f || n == 0x3000
  }

  predicate IsDigit(c: char)
  {
    '0' <= c <= '9'
  }

  function LowerChar(c: char): char
  {
    if 'A' <= c <= 'Z' then ((c as int) + 32) as char else c
  }

  // The line separators that JSON text keeps as they are when it is not escaped to ASCII.
  // str.splitlines() cuts at them; iterating over a file does not.
  predicate IsSeparator(c: char)
  {
    c == '\U{85}' || c == '\U{2028}' || c == '\U{2029}'
  }

  predicate OneLine(s: string)
  {
    forall i | 0 <= i < |s| :: !IsSeparator(s[i])
  }

  // No text and no key in a value holds such a separator.
  predicate LineSafe(j: Json)
  {
    match j
    case Str(s) => OneLine(s)
    case Arr(items) => forall i | 0 <= i < |items| :: LineSafe(items[i])
    case Obj(fields) => forall k | k in fields :: OneLine(k) && LineSafe(fields[k])
    case _ => true
  }

  // Small dictionaries of safe parts.
  lemma PairSafe(a: string, x: Json, b: string, y: Json)
    requires OneLine(a) && LineSafe(x) && OneLine(b) && LineSafe(y)
    ensures LineSafe(Obj(map[a := x])) && LineSafe(Obj(map[a := x, b := y]))
  {
    hide OneLine;
  }

  lemma FourSafe(a: string, x: Json, b: string, y: Json, c: string, z: Json, d: string, w: Json)
    requires OneLine(a) && LineSafe(x) && OneLine(b) && LineSafe(y)
    requires OneLine(c) && LineSafe(z) && OneLine(d) && LineSafe(w)
    ensures LineSafe(Obj(map[a := x, b := y, c := z])) && LineSafe(Obj(map[a := x, b := y, c := z, d := w]))
  {
    hide OneLine;
  }

  // str.lower() on ASCII letters.
  function Lower(s: string): (r: string)
    ensures |r| == |s|
    ensures forall i | 0 <= i < |s| :: r[i] == LowerChar(s[i])
  {
    seq(|s|, i requires 0 <= i < |s| => LowerChar(s[i]))
  }

  // str.isdigit()
  predicate AllDigits(s: string)
  {
    s != "" && forall i | 0 <= i < |s| :: IsDigit(s[i])
  }

  // ---- searching -----------------------------------------------------------

  predicate MatchAt(s: string, p: string, i: int)
  {
    0 <= i && i + |p| <= |s| && s[i..i + |p|] == p
  }

  predicate Contains(s: string, p: string)
  {
    exists i | 0 <= i <= |s| :: MatchAt(s, p, i)
  }

  // str.find from position i: the first match, or -1.
  function FindFrom(s: string, p: string, i: nat): (r: int)
    ensures r == -1 ==> forall j | i <= j :: !MatchAt(s, p, j)
    ensures r != -1 ==> i <= r && MatchAt(s, p, r) && forall j | i <= j < r :: !MatchAt(s, p, j)
    decreases |s| - i
  {
    if i + |p| > |s| then -1
    else if s[i..i + |p|] == p then i
    else FindFrom(s, p, i + 1)
  }

  function Find(s: string, p: string): (r: int)
    ensures r == -1 ==> forall j | 0 <= j :: !MatchAt(s, p, j)
    ensures r != -1 ==> MatchAt(s, p, r) && forall j | 0 <= j < r :: !MatchAt(s, p, j)
  {
    FindFrom(s, p, 0)
  }

  lemma ContainsIffFound(s: string, p: string)
    ensures Contains(s, p) <==> Find(s, p) != -1
  {
  }

  // Index of the last occurrence of a character, or -1.
  function FindLast(s: string, c: char): (r: int)
    ensures -1 <= r < |s|
    ensures r >= 0 ==> s[r] == c
    ensures forall j | r < j < |s| :: s[j] != c
  {
    if s == "" then -1
    else if s[|s| - 1] == c then |s| - 1
    else FindLast(s[..|s| - 1], c)
  }

  // str.replace(p, r): left to right, without overlaps.
  function Replace(s: string, p: string, r: string): string
    requires p != ""
    decreases |s|
  {
    var i := Find(s, p);
    if i == -1 then s else s[..i] + r + Replace(s[i + |p|..], p, r)
  }

  // s.split(sep, 1): the text before and after the first separator, if there is one.
  function SplitOnce(s: string, sep: string): Option<(string, string)>
  {
    var i := Find(s, sep);
    if i == -1 then None else Some((s[..i], s[i + |sep|..]))
  }

  // s.split(c): the pieces between occurrences of one character.
  function Split(s: string, c: char): (parts: seq<string>)
    ensures |parts| >= 1
    ensures forall p <- parts :: c !in p
  {
    var i := Find(s, [c]);
    if i == -1 then
      assert c !in s by { forall k | 0 <= k < |s| ensures s[k] != c { assert !MatchAt(s, [c], k); } }
      [s]
    else
      assert c !in s[..i] by { forall k | 0 <= k < i ensures s[k] != c { assert !MatchAt(s, [c], k); } }
      [s[..i]] + Split(s[i + 1..], c)
  }

  // c.join(parts)
  function Join(parts: seq<string>, c: char): string
  {
    if parts == [] then ""
    else if |parts| == 1 then parts[0]
    else parts[0] + [c] + Join(parts[1..], c)
  }

  lemma FindFirst(s: string, p: string, i: nat)
    requires MatchAt(s, p, i)
    requires forall j | 0 <= j < i :: !MatchAt(s, p, j)
    ensures Find(s, p) == i
  {
  }

  lemma SplitStep(head: string, rest: string, c: char)
    requires c !in head
    ensures Split(head + [c] + rest, c) == [head] + Split(rest, c)
  {
    var s := head + [c] + rest;
    forall j | 0 <= j < |head| ensures !MatchAt(s, [c], j) {
      assert s[j..j + 1] == [s[j]];
    }
    assert s[|head|..|head| + 1] == [c];
    FindFirst(s, [c], |head|);
    assert s[..|head|] == head && s[|head| + 1..] == rest;
  }

  lemma SplitWhole(s: string, c: char)
    requires c !in s
    ensures Split(s, c) == [s]
  {
    forall j | 0 <= j ensures !MatchAt(s, [c], j) {
      if j + 1 <= |s| { assert s[j..j + 1] == [s[j]]; }
    }
  }

  // Splitting undoes joining when no piece holds the separator.
  lemma {:induction false} SplitJoin(parts: seq<string>, c: char)
    requires |parts| >= 1
    requires forall p <- parts :: c !in p
    ensures Split(Join(parts, c), c) == parts
  {
    if |parts| == 1 {
      SplitWhole(parts[0], c);
    } else {
      SplitJoin(parts[1..], c);
      SplitStep(parts[0], Join(parts[1..], c), c);
      assert parts == [parts[0]] + parts[1..];
    }
  }

  // ---- stripping -----------------------------------------------------------

  function LStrip(s: string, drop: char -> bool): (r: string)
    ensures |r| <= |s|
    ensures r != "" ==> !drop(r[0])
  {
    if s != "" && drop(s[0]) then LStrip(s[1..], drop) else s
  }

  function RStrip(s: string, drop: char -> bool): (r: string)
    ensures |r| <= |s|
    ensures r != "" ==> !drop(r[|r| - 1])
  {
    if s != "" && drop(s[|s| - 1]) then RStrip(s[..|s| - 1], drop) else s
  }

  // What is left of a text is its end, and all before it was dropped.
  lemma {:induction false} LStripEnd(s: string, drop: char -> bool)
    ensures var r := LStrip(s, drop); s[|s| - |r|..] == r && forall i | 0 <= i < |s| - |r| :: drop(s[i])
  {
    if s != "" && drop(s[0]) {
      LStripEnd(s[1..], drop);
      var r := LStrip(s[1..], drop);
      forall i | 0 <= i < |s| - |r| ensures drop(s[i]) {
        if i > 0 { assert s[i] == s[1..][i - 1]; }
      }
    }
  }

  // What is left of a text is its beginning, and all behind it was dropped.
  lemma {:induction false} RStripBegin(s: string, drop: char -> bool)
    ensures var r := RStrip(s, drop); s[..|r|] == r && forall i | |r| <= i < |s| :: drop(s[i])
  {
    if s != "" && drop(s[|s| - 1]) {
      RStripBegin(s[..|s| - 1], drop);
      var r := RStrip(s[..|s| - 1], drop);
      forall i | |r| <= i < |s| ensures drop(s[i]) {
        if i < |s| - 1 { assert s[i] == s[..|s| - 1][i]; }
      }
    }
  }

  function StripBy(s: string, drop: char -> bool): string
  {
    RStrip(LStrip(s, drop), drop)
  }

  function Strip(s: string): string
  {
    StripBy(s, IsSpace)
  }

  lemma RStripNothing(s: string, drop: char -> bool)
    requires s != "" ==> !drop(s[|s| - 1])
    ensures RStrip(s, drop) == s
  {
  }

  lemma StripNothing(s: string, drop: char -> bool)
    requires s != "" ==> !drop(s[0]) && !drop(s[|s| - 1])
    ensures LStrip(s, drop) == s && RStrip(s, drop) == s && StripBy(s, drop) == s
  {
    RStripNothing(s, drop);
  }

  lemma LowerStripped(s: string, drop: char -> bool)
    ensures Lower(RStrip(Lower(s), drop)) == RStrip(Lower(s), drop)
  {
    hide RStrip;
    var l := Lower(s);
    var r := RStrip(l, drop);
    RStripBegin(l, drop);
    assert forall i | 0 <= i < |r| :: Lower(r)[i] == LowerChar(l[i]) && l[i] == LowerChar(s[i]);
  }

  lemma StripCore(a: string, m: string, b: string, drop: char -> bool)
    requires forall c <- a :: drop(c)
    requires forall c <- b :: drop(c)
    requires m != "" && !drop(m[0]) && !drop(m[|m| - 1])
    ensures StripBy(a + m + b, drop) == m
  {
    hide LStrip, RStrip;
    var s := a + m + b;
    var l := LStrip(s, drop);
    LStripEnd(s, drop);
    RStripBegin(l, drop);
    assert s[|a|] == m[0];
    assert forall i | 0 <= i < |a| :: s[i] in a;
    assert |s| - |l| == |a|;
    assert l == m + b;
    var r := RStrip(l, drop);
    assert l[|m| - 1] == m[|m| - 1];
    assert forall i | |m| <= i < |l| :: l[i] in b;
    assert |r| == |m|;
  }

  // ---- integers as text --------------------------------------------------

  function DigitChar(d: nat): (c: char)
    requires d < 10
    ensures IsDigit(c)
  {
    (('0' as int) + d) as char
  }

  function NatText(n: nat): (s: string)
    ensures s != "" && forall i | 0 <= i < |s| :: IsDigit(s[i])
  {
    if n < 10 then [DigitChar(n)] else NatText(n / 10) + [DigitChar(n % 10)]
  }

  function IntText(n: int): string
  {
    if n < 0 then "-" + NatText(-n) else NatText(n)
  }

  lemma {:induction false} NatTextInjective(a: nat, b: nat)
    requires NatText(a) == NatText(b)
    ensures a == b
  {
    var s, t := NatText(a), NatText(b);
    assert s[|s| - 1] == DigitChar(a % 10) && t[|t| - 1] == DigitChar(b % 10);
    if a >= 10 && b >= 10 {
      assert s[..|s| - 1] == NatText(a / 10) && t[..|t| - 1] == NatText(b / 10);
      NatTextInjective(a / 10, b / 10);
    }
  }

  // int(text) for text made of decimal digits.
  function ParseNat(s: string): nat
    requires forall i | 0 <= i < |s| :: IsDigit(s[i])
  {
    if s == "" then 0
    else
      assert IsDigit(s[|s| - 1]);
      10 * ParseNat(s[..|s| - 1]) + ((s[|s| - 1] as int) - ('0' as int))
  }

  // Decimal digits, with single underscores between them.
  predicate Grouped(s: string)
  {
    && s != "" && s[0] != '_' && s[|s| - 1] != '_'
    && (forall i | 0 <= i < |s| :: IsDigit(s[i]) || s[i] == '_')
    && (forall i | 0 < i < |s| :: s[i] == '_' ==> s[i - 1] != '_')
  }

  // The decimal digits of a text.
  function DigitsOf(s: string): (digits: string)
    ensures forall i | 0 <= i < |digits| :: IsDigit(digits[i])
  {
    if s == "" then "" else (if IsDigit(s[0]) then [s[0]] else "") + DigitsOf(s[1..])
  }

  // int(text): white space around, one sign, digits.
  function ParseInt(s: string): Option<int>
  {
    var t := Strip(s);
    var signed := t != "" && (t[0] == '-' || t[0] == '+');
    var digits := if signed then t[1..] else t;
    if !Grouped(digits) then None
    else
      var n: int := ParseNat(DigitsOf(digits));
      Some(if signed && t[0] == '-' then -n else n)
  }

  // Reading undoes rendering.
  lemma {:induction false} ParseNatText(n: nat)
    ensures ParseNat(NatText(n)) == n
  {
    var s := NatText(n);
    if n < 10 {
      assert s[..0] == "";
      DigitValue(n);
    } else {
      ParseNatText(n / 10);
      assert s[..|s| - 1] == NatText(n / 10) && s[|s| - 1] == DigitChar(n % 10);
      DigitValue(n % 10);
    }
  }

  lemma DigitValue(d: nat)
    requires d < 10
    ensures (DigitChar(d) as int) - ('0' as int) == d
  {
  }

  // What was stripped has nothing left to strip.
  lemma StripTwice(s: string)
    ensures Strip(Strip(s)) == Strip(s)
  {
    hide IsSpace, LStrip, RStrip;
    var l := LStrip(s, IsSpace);
    var r := RStrip(l, IsSpace);
    RStripBegin(l, IsSpace);
    assert r != "" ==> r[0] == l[0];
    StripNothing(r, IsSpace);
  }
}
