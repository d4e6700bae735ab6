// Which allowlists let every recorded host pass the offline check again: the exact
// condition, read off the list.
module HostLaws {
  import opened Values
  import opened Text
  import opened Network

  // The texts that a check can record as a host.
  predicate Nameable(e: string)
  {
    e != "" && Lower(e) == e && '/' !in e && !IsSpace(e[0]) && e[|e| - 1] != '.'
  }

  // Every host that is let through passes the check again in its recorded form.
  ghost predicate HostsAgree(allow: seq<string>)
  {
    forall host :: Check(allow, host).Ok? ==> Check(allow, Check(allow, host).value).Ok?
  }

  // A wildcard that lets some name through.
  predicate Open(entry: string)
  {
    entry == "*" || ("*." <= entry && Nameable(entry[1..]))
  }

  // No open wildcard, and each entry that can be recorded passes the check.
  predicate ListRechecks(allow: seq<string>)
  {
    forall i | 0 <= i < |allow| :: !Open(allow[i]) && (Nameable(allow[i]) ==> Check(allow, allow[i]).Ok?)
  }

  // ---- what is recorded ------------------------------------------------------------------

  lemma LowerKeeps(s: string)
    ensures s != "" ==> (IsSpace(Lower(s)[0]) <==> IsSpace(s[0]))
    ensures '/' in Lower(s) ==> '/' in s
  {
    if '/' in Lower(s) {
      var i :| 0 <= i < |s| && Lower(s)[i] == '/';
      assert LowerChar(s[i]) == '/';
    }
  }

  lemma StripKeeps(raw: string)
    ensures Strip(raw) != "" ==> !IsSpace(Strip(raw)[0])
    ensures '/' in Strip(raw) ==> '/' in raw
  {
    hide IsSpace, LStrip, RStrip;
    var l, s := LStrip(raw, IsSpace), Strip(raw);
    LStripEnd(raw, IsSpace);
    RStripBegin(l, IsSpace);
    assert s == l[..|s|] && l == raw[|raw| - |l|..];
    forall c | c in s ensures c in raw { assert c in l; }
  }

  lemma CanonNameable(raw: string)
    requires '/' !in raw
    ensures CanonHost(raw) == "" || Nameable(CanonHost(raw))
  {
    hide IsSpace, LStrip, RStrip, Strip, Lower;
    var low, name := Lower(Strip(raw)), CanonHost(raw);
    StripKeeps(raw);
    LowerKeeps(Strip(raw));
    RStripBegin(low, IsDot);
    assert name != "" ==> !IsDot(name[|name| - 1]);
    assert name == low[..|name|];
    assert forall c <- name :: c in low;
  }

  lemma AuthorityKeepsOut(raw: string)
    requires '/' !in raw
    ensures '/' !in SplitAuthority(raw).0
  {
    hide FindLast, PortOf, LStrip, Find;
    if raw != "" && raw[0] == '[' && Find(raw, "]") != -1 {
      LStripEnd(raw[..Find(raw, "]")], IsOpenBracket);
    }
  }

  lemma NoSlashBefore(rest: string)
    ensures var slash := Find(rest, "/"); '/' !in (if slash == -1 then rest else rest[..slash])
  {
    hide FindFrom;
    var slash := Find(rest, "/");
    forall k | 0 <= k < |rest| && (slash == -1 || k < slash) ensures rest[k] != '/' {
      assert !MatchAt(rest, "/", k);
      assert rest[k..k + 1] == [rest[k]];
    }
  }

  // What the parser extracts is nameable or empty.
  lemma ExtractedNameable(host: string)
    ensures Extract(host).host == "" || Nameable(Extract(host).host)
  {
    hide Nameable, CanonHost, SplitAuthority, Find;
    var raw := Strip(host);
    var parts := SplitOnce(raw, "://");
    var rest := if parts.Some? then parts.value.1 else raw;
    var slash := Find(rest, "/");
    var authority := if slash == -1 then rest else rest[..slash];
    NoSlashBefore(rest);
    AuthorityKeepsOut(authority);
    CanonNameable(SplitAuthority(authority).0);
  }

  // A host text that is read as the given name.
  function Spelling(e: string): string
  {
    "http:// " + e + ".:"
  }

  lemma SpellingCanon(e: string)
    requires Nameable(e)
    ensures CanonHost(" " + e + ".") == e
  {
    var core := e + ".";
    assert core[0] == e[0] && core[|core| - 1] == '.';
    StripCore(" ", core, "", IsSpace);
    assert " " + core + "" == " " + e + ".";
    assert Lower(core) == core;
    assert core[..|e|] == e;
    RStripNothing(e, IsDot);
    assert RStrip(core, IsDot) == RStrip(core[..|e|], IsDot);
    hide LStrip, RStrip, IsSpace;
  }

  lemma SpellingAuthority(e: string)
    ensures SplitAuthority(" " + e + "." + ":") == (" " + e + ".", None)
  {
    hide Find;
    var raw := " " + e + "." + ":";
    assert raw[0] == ' ' && raw[|raw| - 1] == ':';
    assert FindLast(raw, ':') == |raw| - 1;
    assert raw[..|raw| - 1] == " " + e + "." && raw[|raw|..] == "";
  }

  lemma SpellingReadsBack(e: string)
    requires Nameable(e)
    ensures Extract(Spelling(e)) == Target(e, Some("http"), None)
  {
    hide Find, FindFrom, SplitAuthority, Strip, StripBy, SplitOnce, CanonHost, Lower;
    var rest := " " + e + "." + ":";
    var url := "http" + "://" + rest;
    assert url == Spelling(e);
    SpellingStrips(e);
    HttpIsPlain();
    SchemeFound("http", rest);
    assert Find(rest, "/") == -1 by { SpellingNoSlash(e); }
    SpellingAuthority(e);
    SpellingCanon(e);
  }

  lemma HttpIsPlain()
    ensures Plain("http") && Lower("http") == "http" && Strip("http") == "http"
  {
    hide LStrip, RStrip;
    StripNothing("http", IsSpace);
  }

  lemma SpellingStrips(e: string)
    ensures Strip("http" + "://" + (" " + e + "." + ":")) == "http" + "://" + (" " + e + "." + ":")
  {
    var url := "http" + "://" + (" " + e + "." + ":");
    assert url[0] == 'h' && url[|url| - 1] == ':';
    StripNothing(url, IsSpace);
  }

  lemma SpellingNoSlash(e: string)
    requires '/' !in e
    ensures Find(" " + e + "." + ":", "/") == -1
  {
    hide Find;
    NotFound(" " + e + "." + ":", "/");
  }

  // Recorded hosts are exactly the nameable texts that the allowlist matches.
  lemma RecordedIff(allow: seq<string>, e: string)
    ensures (exists host :: Check(allow, host) == Ok(e)) <==> Nameable(e) && Allowed(allow, e)
  {
    hide Extract, Nameable, Allowed;
    if exists host :: Check(allow, host) == Ok(e) {
      var host :| Check(allow, host) == Ok(e);
      ExtractedNameable(host);
      AllowedNamed(allow, e);
    }
    if Nameable(e) && Allowed(allow, e) {
      SpellingChecks(allow, e);
    }
  }

  lemma AllowedNamed(allow: seq<string>, e: string)
    ensures Allowed(allow, e) ==> e != ""
  {
  }

  lemma SpellingChecks(allow: seq<string>, e: string)
    requires Nameable(e) && Allowed(allow, e)
    ensures Check(allow, Spelling(e)) == Ok(e)
  {
    hide Extract, Nameable, Allowed, Spelling;
    SpellingReadsBack(e);
  }

  // ---- lists that recheck -----------------------------------------------------------------

  // The end of a nameable text from a dot on is nameable.
  lemma SuffixNameable(name: string, suffix: string)
    requires Nameable(name) && suffix != "" && suffix[0] == '.'
    requires |suffix| <= |name| && name[|name| - |suffix|..] == suffix
    ensures Nameable(suffix)
  {
    var k := |name| - |suffix|;
    forall i | 0 <= i < |suffix| ensures suffix[i] == name[k + i] && LowerChar(suffix[i]) == suffix[i] && suffix[i] != '/' {
      assert Lower(name)[k + i] == LowerChar(name[k + i]);
      assert name[k + i] in name;
    }
    assert Lower(suffix) == suffix;
    assert suffix[|suffix| - 1] == name[|name| - 1];
  }

  // A wildcard entry that matches a nameable text is open.
  lemma MatchingWildcardOpen(entry: string, name: string)
    requires Nameable(name) && Matches(entry, name) && (entry == "*" || "*." <= entry)
    ensures Open(entry)
  {
    hide Nameable, LStrip;
    if entry != "*" {
      assert entry[1] == '.' && entry[1..][0] == '.';
      SuffixNameable(name, entry[1..]);
    }
  }

  lemma ListRechecksAgrees(allow: seq<string>, host: string)
    requires ListRechecks(allow) && Check(allow, host).Ok?
    ensures Check(allow, Check(allow, host).value).Ok?
  {
    hide Extract, Nameable, Open;
    var name := Check(allow, host).value;
    ExtractedNameable(host);
    var i :| 0 <= i < |allow| && Matches(allow[i], name);
    assert !Open(allow[i]);
    if allow[i] == "*" || "*." <= allow[i] {
      MatchingWildcardOpen(allow[i], name);
    }
    assert name == allow[i];
  }

  // ---- lists that do not ---------------------------------------------------------------------

  lemma {:induction false} ShortestOpen(allow: seq<string>, k: nat) returns (m: nat)
    requires k < |allow| && Open(allow[k])
    ensures m < |allow| && Open(allow[m])
    ensures forall j | 0 <= j < |allow| && Open(allow[j]) :: |allow[m]| <= |allow[j]|
    decreases |allow[k]|
  {
    hide Open;
    if j: nat :| j < |allow| && Open(allow[j]) && |allow[j]| < |allow[k]| {
      m := ShortestOpen(allow, j);
    } else {
      m := k;
    }
  }

  // Longer than every entry.
  function Beyond(allow: seq<string>): (n: nat)
    ensures n > 0 && forall i | 0 <= i < |allow| :: |allow[i]| < n
  {
    if allow == [] then 1
    else
      var rest := Beyond(allow[..|allow| - 1]);
      if |allow[|allow| - 1]| < rest then rest else |allow[|allow| - 1]| + 1
  }

  function Letters(n: nat): (s: string)
    ensures |s| == n && forall i | 0 <= i < n :: s[i] == 'a'
  {
    seq(n, _ => 'a')
  }

  // A name that an open wildcard lets through, and that is read as something shorter.
  function Long(allow: seq<string>, suffix: string): string
  {
    Letters(Beyond(allow)) + ":" + suffix
  }

  lemma LongNameable(allow: seq<string>, suffix: string)
    requires Nameable(suffix)
    ensures Nameable(Long(allow, suffix))
  {
    var e, n := Long(allow, suffix), Beyond(allow);
    forall i | 0 <= i < |e| ensures LowerChar(e[i]) == e[i] && e[i] != '/' {
      if i > n {
        assert e[i] == suffix[i - n - 1];
        assert Lower(suffix)[i - n - 1] == LowerChar(suffix[i - n - 1]);
        assert suffix[i - n - 1] in suffix;
      }
    }
    assert Lower(e) == e;
    assert e[|e| - 1] == suffix[|suffix| - 1];
  }

  // Cutting and stripping a text of letters and a colon leaves a beginning of it that is
  // shorter and still holds the letters.
  lemma ReadShorter(n: nat, suffix: string)
    requires n > 0 && suffix != "" && suffix[0] == '.' && Nameable(Letters(n) + ":" + suffix)
    ensures var e, name := Letters(n) + ":" + suffix, Extract(Letters(n) + ":" + suffix).host;
            n <= |name| < |e| && name == e[..|name|]
  {
    hide Find, CanonHost, LStrip, RStrip;
    var e := Letters(n) + ":" + suffix;
    var raw := Strip(e);
    assert e[0] == 'a' && e[n + 1] == '.';
    StripsEnd(e, n + 1);
    assert raw == e[..|raw|] && |raw| > n + 1;
    assert '/' !in raw by { assert forall c <- raw :: c in e; }
    NoScheme(raw);
    NotFound(raw, "/");
    assert raw[0] == 'a';
    var colon := FindLast(raw, ':');
    assert raw[n] == ':';
    assert colon >= n;
    assert SplitAuthority(raw).0 == raw[..colon];
    assert raw[..colon] == e[..colon];
    CanonOfPrefix(e, colon, n);
  }

  // Stripping a text that starts without a blank and has none at k keeps its first k + 1
  // characters.
  lemma StripsEnd(e: string, k: nat)
    requires k < |e| && !IsSpace(e[0]) && !IsSpace(e[k])
    ensures Strip(e) == e[..|Strip(e)|] && |Strip(e)| > k
  {
    hide IsSpace, RStrip;
    assert LStrip(e, IsSpace) == e;
    RStripBegin(e, IsSpace);
  }

  lemma CanonOfPrefix(e: string, cut: nat, n: nat)
    requires Lower(e) == e && 0 < n <= cut <= |e| && forall i | 0 <= i < n :: e[i] == 'a'
    ensures var name := CanonHost(e[..cut]); n <= |name| <= cut && name == e[..|name|]
  {
    hide LStrip, RStrip;
    var raw := e[..cut];
    StripsEnd(raw, n - 1);
    var s := Strip(raw);
    assert Lower(s) == s by {
      forall i | 0 <= i < |s| ensures LowerChar(s[i]) == s[i] { assert Lower(e)[i] == LowerChar(e[i]) && s[i] == e[i]; }
    }
    assert s[n - 1] == 'a';
    RStripBegin(s, IsDot);
  }

  lemma ShorterNotAllowed(allow: seq<string>, m: nat, name: string)
    requires m < |allow| && Open(allow[m]) && |allow[m]| > 1
    requires forall j | 0 <= j < |allow| && Open(allow[j]) :: |allow[m]| <= |allow[j]|
    requires Nameable(name)
    requires var e := Long(allow, allow[m][1..]); Beyond(allow) <= |name| < |e| && name == e[..|name|]
    ensures !Allowed(allow, name)
  {
    hide Nameable;
    var n := Beyond(allow);
    var e := Long(allow, allow[m][1..]);
    forall i | 0 <= i < |allow| ensures !Matches(allow[i], name) {
      var entry := allow[i];
      assert |entry| < n;
      if Open(entry) {
        NoDotThere(n, allow[m][1..], name, entry);
      } else if Matches(entry, name) && (entry == "*" || "*." <= entry) {
        MatchingWildcardOpen(entry, name);
      }
    }
  }

  // Where a longer wildcard would have its dot, the shortened name has a letter or a colon.
  lemma NoDotThere(n: nat, suffix: string, name: string, entry: string)
    requires "*." <= entry && |suffix| < |entry|
    requires var e := Letters(n) + ":" + suffix; |name| < |e| && name == e[..|name|]
    ensures !Matches(entry, name)
  {
    var e, end := Letters(n) + ":" + suffix, entry[1..];
    assert end[0] == entry[1] == '.';
    if |end| <= |name| {
      var at := |name| - |end|;
      assert name[at..][0] == name[at] == e[at];
      assert at <= n;
      assert e[at] != '.';
    }
  }

  lemma EntryMatchesItself(entry: string)
    requires Nameable(entry) && !Open(entry)
    ensures Matches(entry, entry) && entry != ""
  {
    if "*." <= entry {
      assert entry[1..][0] == entry[1] == '.';
      SuffixNameable(entry, entry[1..]);
    }
  }

  // The shortest open wildcard lets a host through that is rejected as recorded.
  lemma OpenDisagrees(allow: seq<string>, m: nat)
    requires m < |allow| && Open(allow[m])
    requires forall j | 0 <= j < |allow| && Open(allow[j]) :: |allow[m]| <= |allow[j]|
    ensures !HostsAgree(allow)
  {
    hide Extract, Spelling, Long, HostsAgree;
    var e: string;
    if allow[m] == "*" {
      e := ":";
      ColonIsNoHost();
      assert Matches(allow[m], e);
      assert Nameable(e);
    } else {
      var suffix := allow[m][1..];
      assert suffix[0] == allow[m][1] == '.';
      e := Long(allow, suffix);
      LongNameable(allow, suffix);
      LongMatches(allow, allow[m]);
      LongReads(allow, suffix);
      hide Nameable, Open;
      ExtractedNameable(e);
      ShorterNotAllowed(allow, m, Extract(e).host);
    }
    assert Allowed(allow, e);
    hide Allowed, Matches, Nameable;
    NoneAllowed(allow, e);
    RecordedDisagrees(allow, e);
  }

  // A host that can be recorded and is not let through in that form.
  lemma RecordedDisagrees(allow: seq<string>, e: string)
    requires Nameable(e) && Allowed(allow, e) && Check(allow, e).Err?
    ensures !HostsAgree(allow)
  {
    hide Nameable, Allowed, Check;
    SpellingChecks(allow, e);
    assert Check(allow, Spelling(e)).Ok?;
  }

  lemma NoneAllowed(allow: seq<string>, e: string)
    requires !Allowed(allow, Extract(e).host)
    ensures Check(allow, e).Err?
  {
    hide Extract, Allowed;
  }

  lemma NoName()
    ensures CanonHost("") == ""
  {
    StripNothing("", IsSpace);
    StripNothing("", IsDot);
  }

  lemma ColonIsNoHost()
    ensures Extract(":").host == ""
  {
    hide Find, CanonHost, LStrip, RStrip;
    StripNothing(":", IsSpace);
    NoName();
    NoScheme(":");
    NotFound(":", "/");
    assert FindLast(":", ':') == 0;
    assert ":"[..0] == "";
  }

  lemma LongMatches(allow: seq<string>, entry: string)
    requires "*." <= entry && entry != "*"
    ensures Matches(entry, Long(allow, entry[1..])) && Long(allow, entry[1..]) != ""
  {
    var suffix, e := entry[1..], Long(allow, entry[1..]);
    assert e[|e| - |suffix|..] == suffix;
    assert |LStrip(suffix, IsDot)| <= |suffix| < |e|;
  }

  lemma LongReads(allow: seq<string>, suffix: string)
    requires Nameable(suffix) && suffix[0] == '.'
    ensures var e := Long(allow, suffix); var name := Extract(e).host;
            Beyond(allow) <= |name| < |e| && name == e[..|name|]
  {
    LongNameable(allow, suffix);
    hide Extract, Nameable;
    ReadShorter(Beyond(allow), suffix);
  }

  // Guard and offline check agree on every host exactly when the list rechecks.
  lemma HostsAgreeIff(allow: seq<string>)
    ensures HostsAgree(allow) <==> ListRechecks(allow)
  {
    hide Check, Nameable, Open, Matches;
    if ListRechecks(allow) {
      forall host | Check(allow, host).Ok? ensures Check(allow, Check(allow, host).value).Ok? {
        ListRechecksAgrees(allow, host);
      }
    } else if exists i :: 0 <= i < |allow| && Open(allow[i]) {
      hide HostsAgree;
      var i :| 0 <= i < |allow| && Open(allow[i]);
      var m := ShortestOpen(allow, i);
      OpenDisagrees(allow, m);
    } else {
      hide HostsAgree;
      var i :| 0 <= i < |allow| && Nameable(allow[i]) && Check(allow, allow[i]).Err?;
      EntryMatchesItself(allow[i]);
      assert Allowed(allow, allow[i]);
      RecordedDisagrees(allow, allow[i]);
    }
  }

  // Lists of exact plain names recheck.
  lemma ExactNamesListRechecks(allow: seq<string>)
    requires ExactNames(allow)
    ensures ListRechecks(allow)
  {
    hide Check;
    forall host | Check(allow, host).Ok? ensures Check(allow, Check(allow, host).value).Ok? {
      RecheckExact(allow, host);
    }
    hide ExactNames;
    HostsAgreeIff(allow);
  }
}
