// The handshake phrase: what ChainAgent reads out of an instruction template
// (agent_bench/agents/chain_agent.py) against what the services expect.
module Phrase {
  import opened Values
  import opened Text

  const PLACEHOLDER := "<handshake_id>"
  const MARKER := "respond with:"

  predicate IsDotOrSpace(c: char)
  {
    c == '.' || c == ' '
  }

  // The first line of a text: a newline ends it, and only without a newline a carriage return.
  function FirstLine(text: string): string
  {
    var newline, carriage := Find(text, "\n"), Find(text, "\r");
    if newline != -1 then text[..newline]
    else if carriage != -1 then text[..carriage]
    else text
  }

  function AfterMarker(filled: string): string
  {
    var at := Find(Lower(filled), MARKER);
    if at != -1 then filled[at + |MARKER|..] else filled
  }

  // ChainAgent._handshake_phrase for a template and a handshake id that are there.
  function Extract(template: string, id: string): string
  {
    StripBy(Strip(FirstLine(AfterMarker(Replace(template, PLACEHOLDER, id)))), IsDotOrSpace)
  }

  // ---- templates -----------------------------------------------------------------------

  // A template puts an instruction around "<stem>-<handshake_id>-<code>", closes it with a
  // full stop and goes on behind a newline.
  datatype Template = Template(head: string, stem: string, tail: string)

  function Wanted(stem: string, code: string): string
  {
    stem + "-" + PLACEHOLDER + "-" + code
  }

  function Instruction(t: Template, code: string): string
  {
    t.head + MARKER + " " + Wanted(t.stem, code) + "." + "\n" + t.tail
  }

  // tasks/rate_limited_chain/setup.py
  const EXPIRE := "Handshakes expire quickly\U{2014}"
  const REQUEST := "request a new one if "
  const MISS := "you miss the window."
  const FINALIZE := "To finalize "
  const SHAKE := "the handshake, "
  const CHAIN := Template(FINALIZE + SHAKE, "CHAIN", EXPIRE + REQUEST + MISS)

  // tasks/deterministic_rate_service/setup.py
  const DETERMINISTIC := "Deterministic "
  const SERVICE := "Rate Service\n"
  const CONFIRM := "To confirm the session, "
  const RESPECT := "Respect retry windows: "
  const WAIT := "wait the specified steps "
  const AFTER := "after rate_limited errors.\n"
  const TEMPORARY := "Temporary failures should "
  const RETRIED := "be retried immediately "
  const WITHOUT := "without waiting."
  const RATE := Template(DETERMINISTIC + SERVICE + CONFIRM, "DRS", RESPECT + WAIT + AFTER + TEMPORARY + RETRIED + WITHOUT)

  // MockChainAPI._expected_phrase
  function ChainExpects(id: string, code: string): string
  {
    CHAIN.stem + "-" + id + "-" + code
  }

  // MockDeterministicService replaces the placeholder in its own phrase.
  function RateExpects(id: string, code: string): string
  {
    Replace(Wanted(RATE.stem, code), PLACEHOLDER, id)
  }

  // What a code must avoid for the first line to survive extraction.
  predicate SurvivesStrip(code: string)
  {
    '\n' !in code && (code != "" ==> !IsDotOrSpace(code[|code| - 1]))
  }

  // An id as the services make them: "hs-" and a number.
  predicate ServiceId(id: string)
  {
    "hs-" <= id && |id| > 3 && (forall i | 3 <= i < |id| :: IsDigit(id[i]) || id[i] == '-') && IsDigit(id[|id| - 1])
  }

  predicate NoMark(s: string)
  {
    '<' !in s
  }

  // No "re" in either case, so the marker cannot start here.
  predicate NoRe(s: string)
  {
    forall i | 0 <= i && i + 1 < |s| :: s[i] == 'r' || s[i] == 'R' ==> s[i + 1] != 'e' && s[i + 1] != 'E'
  }

  // A template that does not get in its own way.
  predicate Plain(t: Template)
  {
    && NoMark(t.head) && NoMark(t.tail) && NoMark(t.stem)
    && NoRe(t.head)
    && '\n' !in t.stem
    && t.stem != "" && !IsSpace(t.stem[0]) && !IsDotOrSpace(t.stem[0])
  }

  lemma NoMarkJoin(a: string, b: string)
    requires NoMark(a) && NoMark(b)
    ensures NoMark(a + b)
  {
  }

  lemma ChainTail()
    ensures NoMark(CHAIN.tail)
  {
    assert NoMark(EXPIRE);
    assert NoMark(REQUEST);
    assert NoMark(MISS);
    hide NoMark;
    NoMarkJoin(EXPIRE, REQUEST);
    NoMarkJoin(EXPIRE + REQUEST, MISS);
  }

  lemma RespectSentence()
    ensures NoMark(RESPECT) && NoMark(WAIT) && NoMark(AFTER)
  {
  }

  lemma RetrySentence()
    ensures NoMark(TEMPORARY) && NoMark(RETRIED) && NoMark(WITHOUT)
  {
  }

  lemma RateTail()
    ensures NoMark(RATE.tail)
  {
    hide NoMark;
    RespectSentence();
    RetrySentence();
    NoMarkJoin(RESPECT, WAIT);
    NoMarkJoin(RESPECT + WAIT, AFTER);
    NoMarkJoin(RESPECT + WAIT + AFTER, TEMPORARY);
    NoMarkJoin(RESPECT + WAIT + AFTER + TEMPORARY, RETRIED);
    NoMarkJoin(RESPECT + WAIT + AFTER + TEMPORARY + RETRIED, WITHOUT);
  }

  lemma RateHead()
    ensures NoMark(RATE.head) && NoRe(RATE.head)
  {
    hide NoMark, NoRe;
    RateHeadPieces();
    NoMarkJoin(DETERMINISTIC, SERVICE);
    NoReJoin(DETERMINISTIC, SERVICE);
    NoMarkJoin(DETERMINISTIC + SERVICE, CONFIRM);
    NoReJoin(DETERMINISTIC + SERVICE, CONFIRM);
  }

  lemma RateHeadPieces()
    ensures NoMark(DETERMINISTIC) && NoMark(SERVICE) && NoMark(CONFIRM)
    ensures NoRe(DETERMINISTIC) && NoRe(SERVICE) && NoRe(CONFIRM)
  {
    RateHeadMarks();
    assert NoRe(DETERMINISTIC) by { hide NoMark; }
    assert NoRe(SERVICE) by { hide NoMark; }
    assert NoRe(CONFIRM) by { hide NoMark; }
  }

  lemma RateHeadMarks()
    ensures NoMark(DETERMINISTIC) && NoMark(SERVICE) && NoMark(CONFIRM)
  {
  }

  lemma ChainHead()
    ensures NoMark(CHAIN.head) && NoRe(CHAIN.head) && NoMark(CHAIN.stem)
  {
    ChainHeadMarks();
    ChainHeadNoRe();
    hide NoMark, NoRe;
    NoMarkJoin(FINALIZE, SHAKE);
    NoReJoin(FINALIZE, SHAKE);
  }

  lemma ChainHeadMarks()
    ensures NoMark(FINALIZE) && NoMark(SHAKE) && NoMark(CHAIN.stem)
  {
  }

  lemma ChainHeadNoRe()
    ensures NoRe(FINALIZE) && NoRe(SHAKE)
  {
  }

  lemma NoReJoin(a: string, b: string)
    requires NoRe(a) && NoRe(b) && a != "" && IsSpace(a[|a| - 1])
    ensures NoRe(a + b)
  {
    var s := a + b;
    forall i | 0 <= i && i + 1 < |s| ensures s[i] == 'r' || s[i] == 'R' ==> s[i + 1] != 'e' && s[i + 1] != 'E' {
      if i + 1 < |a| {
        assert s[i] == a[i] && s[i + 1] == a[i + 1];
      } else if i >= |a| {
        assert s[i] == b[i - |a|] && s[i + 1] == b[i - |a| + 1];
      }
    }
  }

  lemma ChainPlain()
    ensures Plain(CHAIN)
  {
    hide NoMark, NoRe;
    ChainHead();
    ChainTail();
  }

  lemma RatePlain()
    ensures Plain(RATE)
  {
    assert NoMark(RATE.stem);
    hide NoMark, NoRe;
    RateTail();
    RateHead();
  }

  // ---- replacing the placeholder ---------------------------------------------------------

  lemma NoMatchAt(s: string, i: nat)
    requires i < |s| ==> s[i] != '<'
    ensures !MatchAt(s, PLACEHOLDER, i)
  {
    if i + |PLACEHOLDER| <= |s| {
      assert s[i..i + |PLACEHOLDER|][0] == s[i];
    }
  }

  lemma ShiftMatch(a: string, s: string, i: int)
    requires i >= |a|
    ensures MatchAt(a + s, PLACEHOLDER, i) <==> MatchAt(s, PLACEHOLDER, i - |a|)
  {
    if i + |PLACEHOLDER| <= |a + s| {
      assert (a + s)[i..i + |PLACEHOLDER|] == s[i - |a|..i - |a| + |PLACEHOLDER|];
    }
  }

  lemma ReplaceStep(s: string, id: string)
    ensures var i := Find(s, PLACEHOLDER);
            Replace(s, PLACEHOLDER, id) ==
              if i == -1 then s else s[..i] + id + Replace(s[i + |PLACEHOLDER|..], PLACEHOLDER, id)
  {
  }

  lemma FindBehind(a: string, s: string)
    requires '<' !in a
    ensures Find(a + s, PLACEHOLDER) == (if Find(s, PLACEHOLDER) == -1 then -1 else |a| + Find(s, PLACEHOLDER))
  {
    hide FindFrom;
    var i := Find(s, PLACEHOLDER);
    forall j | 0 <= j && (i == -1 || j < |a| + i) ensures !MatchAt(a + s, PLACEHOLDER, j) {
      if j < |a| { NoMatchAt(a + s, j); } else { ShiftMatch(a, s, j); }
    }
    if i != -1 {
      ShiftMatch(a, s, |a| + i);
      FindFirst(a + s, PLACEHOLDER, |a| + i);
    }
  }

  // Text without '<' in front is left alone.
  lemma ReplaceBehind(a: string, s: string, id: string)
    requires '<' !in a
    ensures Replace(a + s, PLACEHOLDER, id) == a + Replace(s, PLACEHOLDER, id)
  {
    hide Find, Replace, Contains;
    FindBehind(a, s);
    ReplaceStep(s, id);
    ReplaceStep(a + s, id);
    var i := Find(s, PLACEHOLDER);
    if i != -1 {
      assert (a + s)[..|a| + i] == a + s[..i];
      assert (a + s)[|a| + i + |PLACEHOLDER|..] == s[i + |PLACEHOLDER|..];
      AppendTwice(a, s[..i], id, Replace(s[i + |PLACEHOLDER|..], PLACEHOLDER, id));
    }
  }

  lemma AppendTwice(a: string, b: string, c: string, d: string)
    ensures a + b + c + d == a + (b + c + d)
  {
  }

  lemma ReplacePlaceholder(s: string, id: string)
    ensures Replace(PLACEHOLDER + s, PLACEHOLDER, id) == id + Replace(s, PLACEHOLDER, id)
  {
    hide FindFrom;
    var text := PLACEHOLDER + s;
    assert text[0..|PLACEHOLDER|] == PLACEHOLDER;
    assert MatchAt(text, PLACEHOLDER, 0);
    FindFirst(text, PLACEHOLDER, 0);
    assert text[..0] == "" && text[|PLACEHOLDER|..] == s;
  }

  // A match cannot reach over a full stop.
  lemma StopEndsMatches(s: string, u: string, i: nat)
    requires u != "" && u[0] == '.' && '<' !in u
    ensures MatchAt(s + u, PLACEHOLDER, i) <==> MatchAt(s, PLACEHOLDER, i)
  {
    var text := s + u;
    if i >= |s| {
      NoMatchAt(text, i);
    } else if i + |PLACEHOLDER| <= |s| {
      assert text[i..i + |PLACEHOLDER|] == s[i..i + |PLACEHOLDER|];
    } else if i + |PLACEHOLDER| <= |text| {
      assert text[i..i + |PLACEHOLDER|][|s| - i] == '.';
      assert '.' !in PLACEHOLDER;
    }
  }

  lemma {:induction false} ReplaceBefore(s: string, u: string, id: string)
    requires u != "" && u[0] == '.' && '<' !in u
    ensures Replace(s + u, PLACEHOLDER, id) == Replace(s, PLACEHOLDER, id) + u
    decreases |s|
  {
    hide FindFrom;
    var i := Find(s, PLACEHOLDER);
    if i == -1 {
      forall j | 0 <= j ensures !MatchAt(s + u, PLACEHOLDER, j) {
        StopEndsMatches(s, u, j);
      }
      assert Find(s + u, PLACEHOLDER) == -1;
    } else {
      StopEndsMatches(s, u, i);
      forall j | 0 <= j < i ensures !MatchAt(s + u, PLACEHOLDER, j) {
        StopEndsMatches(s, u, j);
      }
      FindFirst(s + u, PLACEHOLDER, i);
      ReplaceBefore(s[i + |PLACEHOLDER|..], u, id);
      assert (s + u)[..i] == s[..i];
      assert (s + u)[i + |PLACEHOLDER|..] == s[i + |PLACEHOLDER|..] + u;
    }
  }

  lemma WantedReplaced(stem: string, code: string, id: string)
    requires '<' !in stem
    ensures Replace(Wanted(stem, code), PLACEHOLDER, id) == stem + "-" + id + "-" + Replace(code, PLACEHOLDER, id)
  {
    assert Wanted(stem, code) == (stem + "-") + (PLACEHOLDER + ("-" + code));
    ReplaceBehind(stem + "-", PLACEHOLDER + ("-" + code), id);
    ReplacePlaceholder("-" + code, id);
    ReplaceBehind("-", code, id);
  }

  // Replacing adds and removes no newline.
  lemma {:induction false} ReplaceKeepsNewlines(s: string, id: string)
    requires '\n' !in id
    ensures '\n' in Replace(s, PLACEHOLDER, id) <==> '\n' in s
    decreases |s|
  {
    hide FindFrom;
    var i := Find(s, PLACEHOLDER);
    if i != -1 {
      ReplaceKeepsNewlines(s[i + |PLACEHOLDER|..], id);
      assert s == s[..i] + PLACEHOLDER + s[i + |PLACEHOLDER|..];
      assert '\n' !in PLACEHOLDER;
    }
  }

  lemma EmptyReplaced(id: string)
    ensures Replace("", PLACEHOLDER, id) == ""
  {
    assert Find("", PLACEHOLDER) == -1;
  }

  // Replacing keeps the last character unless it closes a placeholder.
  lemma {:induction false} ReplaceKeepsLast(s: string, id: string)
    requires s != "" && id != ""
    ensures var r := Replace(s, PLACEHOLDER, id);
            r != "" && (r[|r| - 1] == s[|s| - 1] || (s[|s| - 1] == '>' && r[|r| - 1] == id[|id| - 1]))
    decreases |s|
  {
    hide Find, Replace;
    ReplaceStep(s, id);
    var i := Find(s, PLACEHOLDER);
    if i != -1 {
      var rest := s[i + |PLACEHOLDER|..];
      assert s == s[..i] + PLACEHOLDER + rest;
      if rest == "" {
        EmptyReplaced(id);
        assert s[|s| - 1] == PLACEHOLDER[|PLACEHOLDER| - 1];
      } else {
        ReplaceKeepsLast(rest, id);
      }
    }
  }

  // Replacing changes a text exactly when the placeholder occurs in it.
  lemma ReplaceIdentity(s: string, id: string)
    requires id != "" && id[0] != '<'
    ensures Replace(s, PLACEHOLDER, id) == s <==> !Contains(s, PLACEHOLDER)
  {
    hide FindFrom;
    ContainsIffFound(s, PLACEHOLDER);
    var i := Find(s, PLACEHOLDER);
    if i != -1 {
      var r := Replace(s, PLACEHOLDER, id);
      assert r[i] == id[0];
      assert s[i..i + |PLACEHOLDER|][0] == s[i];
    }
  }

  // ---- reading the phrase ------------------------------------------------------------------

  // Whatever the template: the phrase has no newline and no full stop or blank at its end.
  lemma ExtractShape(template: string, id: string)
    ensures var r := Extract(template, id);
            '\n' !in r && (r != "" ==> !IsDotOrSpace(r[|r| - 1]))
  {
    hide Replace, AfterMarker, FindFrom;
    var text := AfterMarker(Replace(template, PLACEHOLDER, id));
    var line := FirstLine(text);
    assert '\n' !in line by {
      forall k | 0 <= k < |line| ensures line[k] != '\n' {
        assert line[k] == text[k];
        assert text[k..k + 1] == [text[k]];
        assert !MatchAt(text, "\n", k);
      }
    }
    StripMembers(line, IsSpace);
    StripMembers(Strip(line), IsDotOrSpace);
  }

  lemma StripMembers(s: string, drop: char -> bool)
    ensures forall c <- StripBy(s, drop) :: c in s
  {
    hide LStrip, RStrip;
    var l := LStrip(s, drop);
    LStripEnd(s, drop);
    RStripBegin(l, drop);
    assert forall c <- l :: c in s;
    assert forall c <- RStrip(l, drop) :: c in l;
  }

  lemma MarkerFound(t: Template, rest: string)
    requires Plain(t)
    ensures AfterMarker(t.head + MARKER + rest) == rest
  {
    hide FindFrom;
    var text := t.head + MARKER + rest;
    var low := Lower(text);
    assert low[|t.head|..|t.head| + |MARKER|] == MARKER;
    forall j | 0 <= j < |t.head| ensures !MatchAt(low, MARKER, j) {
      var window := low[j..j + |MARKER|];
      assert window[0] == low[j] && window[1] == low[j + 1];
      assert MARKER[0] == 'r' && MARKER[1] == 'e';
      if j + 1 < |t.head| {
        assert low[j] == LowerChar(t.head[j]) && low[j + 1] == LowerChar(t.head[j + 1]);
      } else {
        assert low[j + 1] == MARKER[0];
      }
    }
    FindFirst(low, MARKER, |t.head|);
    assert text[|t.head| + |MARKER|..] == rest;
  }

  lemma LineCut(line: string, tail: string)
    requires '\n' !in line
    ensures FirstLine(line + "\n" + tail) == line
  {
    hide FindFrom;
    var text := line + "\n" + tail;
    forall j | 0 <= j < |line| ensures !MatchAt(text, "\n", j) {
      assert text[j..j + 1] == [line[j]];
    }
    assert text[|line|..|line| + 1] == "\n";
    FindFirst(text, "\n", |line|);
    assert text[..|line|] == line;
  }

  lemma PhraseStripped(phrase: string)
    requires phrase != "" && !IsSpace(phrase[0]) && !IsDotOrSpace(phrase[0]) && !IsDotOrSpace(phrase[|phrase| - 1])
    ensures StripBy(Strip(" " + phrase + "."), IsDotOrSpace) == phrase
  {
    StripCore(" ", phrase + ".", "", IsSpace);
    assert " " + (phrase + ".") + "" == " " + phrase + ".";
    StripCore("", phrase, ".", IsDotOrSpace);
    assert "" + phrase + "." == phrase + ".";
  }

  // The filled template: the placeholder is replaced inside the wanted phrase only.
  lemma FilledTemplate(t: Template, code: string, id: string)
    requires Plain(t)
    ensures Replace(Instruction(t, code), PLACEHOLDER, id)
            == t.head + MARKER + (" " + Replace(Wanted(t.stem, code), PLACEHOLDER, id) + "." + "\n" + t.tail)
  {
    hide Replace;
    var before, wanted, after := t.head + MARKER + " ", Wanted(t.stem, code), "." + "\n" + t.tail;
    assert Instruction(t, code) == before + (wanted + after);
    ReplaceBehind(before, wanted + after, id);
    ReplaceBefore(wanted, after, id);
  }

  // Extraction gives the replaced phrase exactly when the code survives stripping.
  lemma ExtractReplaced(t: Template, code: string, id: string)
    requires Plain(t) && ServiceId(id)
    ensures Extract(Instruction(t, code), id) == Replace(Wanted(t.stem, code), PLACEHOLDER, id) <==> SurvivesStrip(code)
  {
    hide Replace, AfterMarker, FirstLine, StripBy, Instruction;
    var phrase := Replace(Wanted(t.stem, code), PLACEHOLDER, id);
    FilledTemplate(t, code, id);
    MarkerFound(t, " " + phrase + "." + "\n" + t.tail);
    WantedReplaced(t.stem, code, id);
    ReplaceKeepsNewlines(code, id);
    ExtractShape(Instruction(t, code), id);
    if code != "" { ReplaceKeepsLast(code, id); }
    var coded := Replace(code, PLACEHOLDER, id);
    assert code == "" ==> coded == "" by { EmptyReplaced(id); }
    if SurvivesStrip(code) {
      LineCut(" " + phrase + ".", t.tail);
      PhraseStripped(phrase);
    } else if '\n' in code {
      assert '\n' in coded;
    } else {
      assert phrase[|phrase| - 1] == coded[|coded| - 1];
    }
  }

  // The rate service expects the phrase the agent reads, exactly when the code survives.
  lemma RatePhrase(code: string, id: string)
    requires ServiceId(id)
    ensures Extract(Instruction(RATE, code), id) == RateExpects(id, code) <==> SurvivesStrip(code)
  {
    hide Extract, Instruction, Replace;
    RatePlain();
    ExtractReplaced(RATE, code, id);
  }

  // The chain service does not replace the placeholder in its code, so its code must not
  // contain one either.
  lemma ChainPhrase(code: string, id: string)
    requires ServiceId(id)
    ensures Extract(Instruction(CHAIN, code), id) == ChainExpects(id, code)
            <==> SurvivesStrip(code) && !Contains(code, PLACEHOLDER)
  {
    hide Extract, Instruction, Replace, Contains;
    ChainPlain();
    ExtractReplaced(CHAIN, code, id);
    ExtractShape(Instruction(CHAIN, code), id);
    WantedReplaced(CHAIN.stem, code, id);
    ReplaceIdentity(code, id);
    var prefix := CHAIN.stem + "-" + id + "-";
    assert ChainExpects(id, code) == prefix + code;
    assert Replace(Wanted(CHAIN.stem, code), PLACEHOLDER, id) == prefix + Replace(code, PLACEHOLDER, id);
    if SurvivesStrip(code) {
      assert (prefix + code)[|prefix|..] == code;
      assert (prefix + Replace(code, PLACEHOLDER, id))[|prefix|..] == Replace(code, PLACEHOLDER, id);
    } else if code != "" && IsDotOrSpace(code[|code| - 1]) {
      assert (prefix + code)[|prefix + code| - 1] == code[|code| - 1];
    } else {
      assert '\n' in prefix + code;
    }
  }

  // Codes made of letters and digits, as both setups make them, satisfy both conditions.
  predicate Alphanumeric(code: string)
  {
    forall i | 0 <= i < |code| :: IsDigit(code[i]) || 'A' <= code[i] <= 'Z' || 'a' <= code[i] <= 'z'
  }

  lemma AlphanumericPhrases(code: string, id: string)
    requires Alphanumeric(code) && ServiceId(id)
    ensures Extract(Instruction(CHAIN, code), id) == ChainExpects(id, code)
    ensures Extract(Instruction(RATE, code), id) == RateExpects(id, code)
  {
    hide Extract, Instruction, Replace;
    ChainPhrase(code, id);
    RatePhrase(code, id);
    forall j | 0 <= j <= |code| ensures !MatchAt(code, PLACEHOLDER, j) {
      if j < |code| { assert code[j] != '<'; }
      NoMatchAt(code, j);
    }
  }

  // A text is cut at its first newline, or without one at its first carriage return.
  lemma FirstLineMeans(a: string, b: string)
    ensures '\n' !in a ==> FirstLine(a + "\n" + b) == a
    ensures '\n' !in a && '\r' !in a && '\n' !in b ==> FirstLine(a + "\r" + b) == a
    ensures '\n' !in a && '\r' !in a ==> FirstLine(a) == a
  {
    if '\n' !in a { CharFound(a, '\n', b); }
    if '\n' !in a && '\r' !in a {
      CharMissing(a, '\n');
      CharMissing(a, '\r');
      if '\n' !in b {
        CharFound(a, '\r', b);
        CharMissing(a + "\r" + b, '\n');
      }
    }
  }

  lemma CharFound(a: string, c: char, b: string)
    requires c !in a
    ensures Find(a + [c] + b, [c]) == |a| && (a + [c] + b)[..|a|] == a
  {
    var s := a + [c] + b;
    forall j | 0 <= j < |a| ensures !MatchAt(s, [c], j) { assert s[j..j + 1] == [s[j]]; }
    assert s[|a|..|a| + 1] == [c];
    FindFirst(s, [c], |a|);
  }

  lemma CharMissing(s: string, c: char)
    requires c !in s
    ensures Find(s, [c]) == -1
  {
    forall j | 0 <= j ensures !MatchAt(s, [c], j) {
      if j + 1 <= |s| { assert s[j..j + 1] == [s[j]]; }
    }
  }

  // A template without the marker is the phrase itself, cut and stripped of space and dots.
  lemma UnmarkedExtract(template: string, id: string, c: char)
    requires Find(Lower(Replace(template, "<handshake_id>", id)), "respond with:") == -1
    ensures Extract(template, id) == StripBy(Strip(FirstLine(Replace(template, "<handshake_id>", id))), IsDotOrSpace)
    ensures IsDotOrSpace(c) <==> c == '.' || c == ' '
  {
  }
}
