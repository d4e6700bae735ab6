// NetworkGuard of agent_bench/env/environment.py: the host allowlist that the guarded
// environment applies when a step runs and the verifiers apply to recorded audits.
module Network {
  import opened Values
  import opened Text

  datatype Target = Target(host: string, scheme: Option<string>, port: Option<nat>)

  predicate IsDot(c: char) { c == '.' }

  predicate IsOpenBracket(c: char) { c == '[' }

  // _normalize_host: an entry of the allowlist.
  function NormalizeEntry(entry: string): string
  {
    var n := RStrip(Lower(Strip(entry)), IsDot);
    if n != "" && n[0] == '[' && n[|n| - 1] == ']' then
      if |n| == 1 then "" else n[1..|n| - 1]
    else n
  }

  // NetworkGuard.__init__: empty entries are dropped.
  function Allowlist(entries: seq<string>): seq<string>
  {
    if entries == [] then []
    else if entries[0] == "" then Allowlist(entries[1..])
    else [NormalizeEntry(entries[0])] + Allowlist(entries[1..])
  }

  function CanonHost(raw: string): (host: string)
    ensures host != "" ==> host[|host| - 1] != '.'
    ensures Lower(host) == host
  {
    LowerStripped(Strip(raw), IsDot);
    RStrip(Lower(Strip(raw)), IsDot)
  }

  function PortOf(text: string): Option<nat>
  {
    if AllDigits(text) then Some(ParseNat(text)) else None
  }

  // The authority part: brackets around the host, or a port behind the last colon.
  function SplitAuthority(raw: string): (string, Option<nat>)
  {
    if raw != "" && raw[0] == '[' && Find(raw, "]") != -1 then
      var close := Find(raw, "]");
      var rest := raw[close + 1..];
      (LStrip(raw[..close], IsOpenBracket), if rest != "" && rest[0] == ':' then PortOf(rest[1..]) else None)
    else if FindLast(raw, ':') != -1 then
      var colon := FindLast(raw, ':');
      (raw[..colon], PortOf(raw[colon + 1..]))
    else (raw, None)
  }

  // _extract_host
  function Extract(host: string): Target
  {
    var raw := Strip(host);
    var parts := SplitOnce(raw, "://");
    var scheme := if parts.Some? then Some(Lower(Strip(parts.value.0))) else None;
    var rest := if parts.Some? then parts.value.1 else raw;
    var slash := Find(rest, "/");
    var authority := SplitAuthority(if slash == -1 then rest else rest[..slash]);
    Target(CanonHost(authority.0), scheme, authority.1)
  }

  // _match
  predicate Matches(entry: string, host: string)
  {
    || entry == "*"
    || (if "*." <= entry then
          var suffix := entry[1..];
          |suffix| <= |host| && host[|host| - |suffix|..] == suffix && host != LStrip(suffix, IsDot)
        else host == entry)
  }

  // allowed(host) on the extracted host name
  predicate Allowed(allow: seq<string>, name: string)
  {
    name != "" && exists i | 0 <= i < |allow| :: Matches(allow[i], name)
  }

  // inspect(host) and check(host) on an extracted target: the normalised host, or the
  // text of the SandboxViolation.
  function Admit(allow: seq<string>, t: Target, host: string): Result<string, string>
  {
    if t.scheme.Some? && t.scheme.value != "" && t.scheme.value != "http" && t.scheme.value != "https" then
      Err("sandbox_violation: network scheme denied: " + t.scheme.value)
    else if t.port.Some? && t.port.value != 80 && t.port.value != 443 then
      Err("sandbox_violation: network port denied: " + NatText(t.port.value))
    else if !Allowed(allow, t.host) then Err("sandbox_violation: network access denied: " + host)
    else Ok(t.host)
  }

  function Check(allow: seq<string>, host: string): Result<string, string>
  {
    Admit(allow, Extract(host), host)
  }

  // ---- recorded hosts --------------------------------------------------------

  // Host text without port, path, bracket or white space.
  predicate Plain(host: string)
  {
    forall i | 0 <= i < |host| :: host[i] != ':' && host[i] != '/' && host[i] != '[' && !IsSpace(host[i])
  }

  lemma NotFound(s: string, p: string)
    requires p != "" && p[0] !in s
    ensures Find(s, p) == -1
  {
    forall j | 0 <= j ensures !MatchAt(s, p, j) {
      if j + |p| <= |s| { assert s[j..j + |p|][0] == s[j]; }
    }
  }

  // A plain normalised host reads back as itself.
  lemma PlainReadsBack(host: string)
    requires Plain(host) && Lower(host) == host
    requires host != "" ==> host[|host| - 1] != '.'
    ensures Extract(host) == Target(host, None, None)
  {
    hide LStrip, RStrip, Find;
    StripNothing(host, IsSpace);
    RStripNothing(host, IsDot);
    NotFound(host, "://");
    NotFound(host, "/");
    assert FindLast(host, ':') == -1;
    assert SplitAuthority(host) == (host, None);
  }

  // A host that one check lets through and records is let through again when the recorded
  // text is checked offline, provided the recorded text is plain.
  lemma RecheckPlain(allow: seq<string>, host: string)
    requires Check(allow, host).Ok? && Plain(Check(allow, host).value)
    ensures Check(allow, Check(allow, host).value) == Check(allow, host)
  {
    hide Extract;
    ExtractedCanon(host);
    PlainReadsBack(Check(allow, host).value);
  }

  lemma ExtractedCanon(host: string)
    ensures var name := Extract(host).host;
            Lower(name) == name && (name != "" ==> name[|name| - 1] != '.')
  {
  }

  // An allowlist of exact plain names only ever records plain hosts.
  predicate ExactNames(allow: seq<string>)
  {
    forall i | 0 <= i < |allow| :: Plain(allow[i]) && !("*" <= allow[i])
  }

  lemma RecheckExact(allow: seq<string>, host: string)
    requires ExactNames(allow) && Check(allow, host).Ok?
    ensures Check(allow, Check(allow, host).value) == Check(allow, host)
  {
    hide Extract;
    var i :| 0 <= i < |allow| && Matches(allow[i], Extract(host).host);
    assert Plain(allow[i]);
    assert !("*." <= allow[i]);
    RecheckPlain(allow, host);
  }

  // The recorded form of a bracketed IPv6 literal is not plain: it reads back as a host
  // and a port, and the offline check rejects what the guard let through.
  lemma BracketedLiteralRejectedOffline()
    ensures Check(["*"], "[::1]") == Ok("::1")
    ensures Check(["*"], "::1").Err?
  {
    hide Extract;
    ReadBracketed();
    ReadUnbracketed();
    assert Matches(["*"][0], "::1");
  }

  lemma ReadBracketed()
    ensures Extract("[::1]") == Target("::1", None, None)
  {
    hide SplitAuthority, CanonHost, Find;
    var a := "[::1]";
    StripNothing(a, IsSpace);
    NotFound(a, "/");
    NoScheme(a);
    SplitBracketed();
    CanonPlain("::1");
  }

  lemma SplitBracketed()
    ensures SplitAuthority("[::1]") == ("::1", None)
  {
    hide Find, LStrip;
    CloseBracket();
    OpenBracket();
    assert "[::1]"[..4] == "[::1" && "[::1]"[5..] == "";
  }

  lemma CloseBracket()
    ensures Find("[::1]", "]") == 4
  {
    hide FindFrom;
    var a := "[::1]";
    forall j | 0 <= j < 4 ensures !MatchAt(a, "]", j) { assert a[j..j + 1] == [a[j]]; }
    assert a[4..5] == "]";
    assert MatchAt(a, "]", 4);
    FindFirst(a, "]", 4);
  }

  lemma OpenBracket()
    ensures LStrip("[::1", IsOpenBracket) == "::1"
  {
    assert "[::1"[1..] == "::1";
    StripNothing("::1", IsOpenBracket);
  }

  lemma ReadUnbracketed()
    ensures Extract("::1") == Target(":", None, Some(1))
  {
    var b := "::1";
    StripNothing(b, IsSpace);
    NotFound(b, "/");
    NoScheme(b);
    hide Find, FindFrom;
    assert FindLast(b, ':') == 1;
    assert b[..1] == ":" && b[2..] == "1";
    assert AllDigits("1");
    assert ParseNat("1") == 1 by { assert "1"[..0] == ""; }
    assert SplitAuthority(b) == (":", Some(1));
    CanonPlain(":");
  }

  lemma CanonPlain(s: string)
    requires Lower(s) == s && s != ""
    requires !IsSpace(s[0]) && !IsSpace(s[|s| - 1]) && s[|s| - 1] != '.'
    ensures CanonHost(s) == s
  {
    hide LStrip, RStrip, IsSpace;
    StripNothing(s, IsSpace);
    RStripNothing(s, IsDot);
  }

  lemma NoScheme(s: string)
    requires '/' !in s
    ensures Find(s, "://") == -1
  {
    forall j | 0 <= j ensures !MatchAt(s, "://", j) {
      if j + 3 <= |s| { assert s[j..j + 3][1] == s[j + 1]; }
    }
  }

  // ---- what the parser reads -----------------------------------------------------------------

  // Scheme, host and port of a URL are read back, whatever path follows.
  lemma UrlReadsBack(scheme: string, host: string, port: nat, path: string)
    requires scheme != "" && Plain(scheme) && Lower(scheme) == scheme
    requires host != "" && Plain(host) && Lower(host) == host && host[|host| - 1] != '.'
    requires path != "" ==> !IsSpace(path[|path| - 1])
    ensures Extract(scheme + "://" + host + ":" + NatText(port) + "/" + path) == Target(host, Some(scheme), Some(port))
  {
    hide NatText, Find, FindFrom, FindLast, ParseNat, SplitAuthority, Strip, StripBy, SplitOnce, CanonHost, Lower, Plain;
    var authority := host + ":" + NatText(port);
    var rest := authority + "/" + path;
    var url := scheme + "://" + rest;
    assert url == scheme + "://" + host + ":" + NatText(port) + "/" + path;
    NothingToStrip(scheme, rest, path);
    SchemeFound(scheme, rest);
    PlainSlashes(host, port);
    SlashFound(authority, path);
    assert rest[..|authority|] == authority;
    AuthoritySplits(host, port);
    PlainCanon(host);
  }

  lemma NothingToStrip(scheme: string, rest: string, path: string)
    requires scheme != "" && Plain(scheme) && (path != "" ==> !IsSpace(path[|path| - 1]))
    requires |rest| > |path| && rest[|rest| - |path| - 1..] == "/" + path
    ensures Strip(scheme + "://" + rest) == scheme + "://" + rest && Strip(scheme) == scheme
  {
    hide LStrip, RStrip;
    var url := scheme + "://" + rest;
    assert url[0] == scheme[0];
    assert url[|url| - 1] == rest[|rest| - |path| - 1..][|path|];
    StripNothing(url, IsSpace);
    StripNothing(scheme, IsSpace);
  }

  lemma PlainSlashes(host: string, port: nat)
    requires Plain(host)
    ensures '/' !in host + ":" + NatText(port)
  {
    hide NatText;
    DigitsOnly(port);
    var authority := host + ":" + NatText(port);
    forall i | 0 <= i < |authority| ensures authority[i] != '/' {
      if i > |host| { assert authority[i] == NatText(port)[i - |host| - 1]; }
    }
  }

  lemma PlainCanon(host: string)
    requires host != "" && Plain(host) && Lower(host) == host && host[|host| - 1] != '.'
    ensures CanonHost(host) == host
  {
    CanonPlain(host);
  }

  lemma SchemeFound(scheme: string, rest: string)
    requires Plain(scheme)
    ensures SplitOnce(scheme + "://" + rest, "://") == Some((scheme, rest))
  {
    hide FindFrom;
    var url := scheme + "://" + rest;
    forall j | 0 <= j < |scheme| ensures !MatchAt(url, "://", j) {
      if j + 3 <= |url| { assert url[j..j + 3][0] == url[j] == scheme[j]; }
    }
    assert url[|scheme|..|scheme| + 3] == "://";
    FindFirst(url, "://", |scheme|);
    assert url[..|scheme|] == scheme && url[|scheme| + 3..] == rest;
  }

  lemma DigitsOnly(port: nat)
    ensures AllDigits(NatText(port)) && ':' !in NatText(port) && '/' !in NatText(port) && ']' !in NatText(port)
  {
    var digits := NatText(port);
    forall i | 0 <= i < |digits| ensures digits[i] != ':' && digits[i] != '/' && digits[i] != ']' { assert IsDigit(digits[i]); }
  }

  lemma SlashFound(authority: string, path: string)
    requires '/' !in authority
    ensures Find(authority + "/" + path, "/") == |authority|
  {
    hide FindFrom;
    var rest := authority + "/" + path;
    forall j | 0 <= j < |authority| ensures !MatchAt(rest, "/", j) {
      if j + 1 <= |rest| { assert rest[j..j + 1][0] == rest[j] == authority[j]; }
    }
    assert rest[|authority|..|authority| + 1] == "/";
    FindFirst(rest, "/", |authority|);
  }

  lemma AuthoritySplits(host: string, port: nat)
    requires host != "" && Plain(host)
    ensures SplitAuthority(host + ":" + NatText(port)) == (host, Some(port))
  {
    hide NatText, Find;
    DigitsOnly(port);
    ParseNatText(port);
    var raw := host + ":" + NatText(port);
    assert raw[0] == host[0];
    var colon := FindLast(raw, ':');
    assert raw[|host|] == ':';
    assert colon == |host| by {
      assert forall j | |host| < j < |raw| :: raw[j] == NatText(port)[j - |host| - 1];
    }
    assert raw[..|host|] == host && raw[|host| + 1..] == NatText(port);
  }

  // A host with a port, and a bracketed one with a port, are read back as well.
  lemma HostPortReadsBack(host: string, port: nat)
    requires host != "" && Plain(host) && Lower(host) == host && host[|host| - 1] != '.'
    ensures Extract(host + ":" + NatText(port)) == Target(host, None, Some(port))
  {
    hide NatText, Find, FindFrom, FindLast, ParseNat, SplitAuthority, CanonHost, Lower;
    var raw := host + ":" + NatText(port);
    PlainSlashes(host, port);
    DigitsOnly(port);
    assert raw[|raw| - 1] == NatText(port)[|NatText(port)| - 1];
    assert !IsSpace(raw[0]) && !IsSpace(raw[|raw| - 1]) by { DigitNoSpace(NatText(port)[|NatText(port)| - 1]); }
    StripNothing(raw, IsSpace);
    NoScheme(raw);
    NotFound(raw, "/");
    AuthoritySplits(host, port);
    PlainCanon(host);
    hide Strip, StripBy, Plain;
  }

  lemma DigitNoSpace(c: char)
    requires IsDigit(c)
    ensures !IsSpace(c)
  {
  }

  // Text inside brackets: no closing bracket, slash, opening bracket in front, or space.
  predicate Bracketable(host: string)
  {
    && host != "" && host[0] != '[' && host[|host| - 1] != '.'
    && forall i | 0 <= i < |host| :: host[i] != ']' && host[i] != '/' && !IsSpace(host[i])
  }

  lemma BracketReadsBack(host: string, port: nat)
    requires Bracketable(host) && Lower(host) == host
    ensures Extract("[" + host + "]:" + NatText(port)) == Target(host, None, Some(port))
  {
    hide NatText, Find, FindFrom, FindLast, ParseNat, SplitAuthority, CanonHost, Lower, LStrip, RStrip;
    var raw := "[" + host + "]:" + NatText(port);
    DigitsOnly(port);
    var digits := NatText(port);
    assert raw[|raw| - 1] == digits[|digits| - 1] && raw[0] == '[';
    DigitNoSpace(digits[|digits| - 1]);
    StripNothing(raw, IsSpace);
    forall i | 0 <= i < |raw| ensures raw[i] != '/' {
      if 1 <= i <= |host| { assert raw[i] == host[i - 1]; }
      if i >= |host| + 3 { assert raw[i] == digits[i - |host| - 3]; }
    }
    NoScheme(raw);
    NotFound(raw, "/");
    BracketSplits(host, digits, port);
    CanonPlain(host);
    hide Strip, StripBy, Bracketable;
  }

  lemma BracketSplits(host: string, digits: string, port: nat)
    requires Bracketable(host) && digits == NatText(port)
    ensures SplitAuthority("[" + host + "]:" + digits) == (host, Some(port))
  {
    hide Find, FindFrom, NatText, LStrip;
    var raw := "[" + host + "]:" + digits;
    ParseNatText(port);
    DigitsOnly(port);
    var close := |host| + 1;
    forall j | 0 <= j < close ensures !MatchAt(raw, "]", j) {
      assert raw[j..j + 1] == [raw[j]];
      if j > 0 { assert raw[j] == host[j - 1]; }
    }
    assert raw[close..close + 1] == "]";
    FindFirst(raw, "]", close);
    assert raw[..close] == "[" + host && raw[close + 1..] == ":" + digits && (":" + digits)[1..] == digits;
    OpeningStripped(host);
  }

  lemma OpeningStripped(host: string)
    requires host != "" && host[0] != '['
    ensures LStrip("[" + host, IsOpenBracket) == host
  {
    assert ("[" + host)[1..] == host;
  }

  // A wildcard entry matches exactly the names that end behind its star.
  lemma WildcardMeans(entry: string, host: string)
    requires "*." <= entry
    ensures Matches(entry, host) <==> |host| > |entry| - 2 && host[|host| - |entry| + 1..] == entry[1..]
  {
    hide LStrip;
    assert entry[1..][0] == entry[1] == '.';
    Dotless(entry[1..]);
  }

  lemma Dotless(suffix: string)
    requires suffix != "" && suffix[0] == '.'
    ensures |LStrip(suffix, IsDot)| < |suffix|
  {
    LStripEnd(suffix[1..], IsDot);
  }

  // The names an entry lets through: all of them, its own, or what ends behind its star.
  predicate Lists(entry: string, name: string)
  {
    || entry == "*" || (entry == name && !("*." <= name))
    || ("*." <= entry && |name| >= |entry| - 1 && name[|name| - |entry| + 1..] == entry[1..])
  }

  predicate Listed(allow: seq<string>, name: string)
  {
    exists i | 0 <= i < |allow| :: Lists(allow[i], name)
  }

  lemma MatchesIff(entry: string, name: string)
    ensures Matches(entry, name) <==> Lists(entry, name)
  {
    hide LStrip;
    if "*." <= entry { WildcardMeans(entry, name); }
  }

  lemma AllowedIff(allow: seq<string>, name: string)
    ensures Allowed(allow, name) <==> name != "" && Listed(allow, name)
  {
    hide Matches, Lists;
    forall i | 0 <= i < |allow| ensures Matches(allow[i], name) <==> Lists(allow[i], name) { MatchesIff(allow[i], name); }
  }

  // A URL is let through, as its host, exactly when it is http or https on port 80 or 443 to
  // a listed name.
  lemma UrlAdmittedIff(allow: seq<string>, scheme: string, host: string, port: nat, path: string)
    requires scheme != "" && Plain(scheme) && Lower(scheme) == scheme
    requires host != "" && Plain(host) && Lower(host) == host && host[|host| - 1] != '.'
    requires path != "" ==> !IsSpace(path[|path| - 1])
    ensures var url := scheme + "://" + host + ":" + NatText(port) + "/" + path;
            && (Check(allow, url).Ok? <==> (scheme == "http" || scheme == "https") && (port == 80 || port == 443) && Listed(allow, host))
            && (Check(allow, url).Ok? ==> Check(allow, url).value == host)
  {
    hide Extract, NatText, Plain, Allowed, Listed, Lower;
    UrlReadsBack(scheme, host, port, path);
    AllowedIff(allow, host);
  }

  // The allowlist holds the entries that are not empty, in that form, and no other.
  lemma {:induction false} AllowlistMeans(entries: seq<string>, name: string)
    ensures name in Allowlist(entries) <==> exists e <- entries :: e != "" && NormalizeEntry(e) == name
  {
    hide NormalizeEntry;
    if entries != [] {
      AllowlistMeans(entries[1..], name);
      assert entries == [entries[0]] + entries[1..];
    }
  }

  // A declared host is listed in lower case, without the space, the brackets or the trailing
  // dot around it.
  lemma EntryReads(text: string, name: string)
    requires Lower(text) == name && name != "" && Plain(name) && name[|name| - 1] != '.'
    ensures NormalizeEntry(text) == name && NormalizeEntry(" " + text + ".") == name && NormalizeEntry("[" + text + "]") == name
  {
    assert LowerChar(text[0]) == name[0] && LowerChar(text[|text| - 1]) == name[|name| - 1];
    assert !IsSpace(text[0]) && !IsSpace(text[|text| - 1]) && name[0] != '[';
    hide NormalizeEntry, Lower, Plain;
    BareEntry(text, name);
    DottedEntry(text, name);
    BracketedEntry(text, name);
  }

  lemma BareEntry(text: string, name: string)
    requires Lower(text) == name && name != "" && name[|name| - 1] != '.' && name[0] != '['
    requires !IsSpace(text[0]) && !IsSpace(text[|text| - 1])
    ensures NormalizeEntry(text) == name
  {
    hide NormalizeEntry, Lower, Strip;
    StripNothing(text, IsSpace);
    RStripNothing(name, IsDot);
    EntryRead(text, text, name);
  }

  lemma DottedEntry(text: string, name: string)
    requires Lower(text) == name && name != "" && name[|name| - 1] != '.' && name[0] != '['
    requires !IsSpace(text[0]) && !IsSpace(text[|text| - 1])
    ensures NormalizeEntry(" " + text + ".") == name
  {
    hide NormalizeEntry, Lower, Strip;
    LowerWrapped(text);
    TrailingDot(name);
    StripCore(" ", text + ".", "", IsSpace);
    assert " " + (text + ".") + "" == " " + text + ".";
    EntryRead(" " + text + ".", text + ".", name);
  }

  lemma BracketedEntry(text: string, name: string)
    requires Lower(text) == name && name != ""
    ensures NormalizeEntry("[" + text + "]") == name
  {
    hide NormalizeEntry, Lower, Strip;
    LowerWrapped(text);
    RStripNothing("[" + name + "]", IsDot);
    StripNothing("[" + text + "]", IsSpace);
    EntryRead("[" + text + "]", "[" + text + "]", "[" + name + "]");
    assert ("[" + name + "]")[1..|name| + 1] == name;
  }

  lemma LowerWrapped(text: string)
    ensures Lower(text + ".") == Lower(text) + "." && Lower("[" + text + "]") == "[" + Lower(text) + "]"
  {
  }

  // An entry whose stripped text is known.
  lemma EntryRead(entry: string, core: string, n: string)
    requires StripBy(entry, IsSpace) == core && RStrip(Lower(core), IsDot) == n && n != ""
    ensures NormalizeEntry(entry) == if n[0] == '[' && n[|n| - 1] == ']' then (if |n| == 1 then "" else n[1..|n| - 1]) else n
  {
    hide StripBy, RStrip, Lower;
  }

  lemma TrailingDot(name: string)
    requires name != "" && name[|name| - 1] != '.'
    ensures RStrip(name + ".", IsDot) == name
  {
    assert (name + ".")[..|name|] == name;
    RStripNothing(name, IsDot);
  }
}
