// The log-stream task and its reference agent (tasks/log_stream_monitor,
// agent_bench/agents/log_stream_monitor_agent.py), run to the end on every stream.
module LogStream {
  import opened Values
  import opened Text
  import opened EnvSpec
  import opened RunnerSpec
  import opened RunnerLaws
  import opened Scripts
  import Paths

  const CODE_KEY := "STREAM_CODE"
  const EXPECTED_KEY := "expected_stream_code"
  const CODE_MARK := "STREAM_CODE="

  // ---- the stream code -----------------------------------------------------------------

  // entry.split(): the maximal runs of characters that are not white space.
  function Words(s: string): seq<string>
    decreases |s|
  {
    var t := LStrip(s, IsSpace);
    if t == "" then []
    else
      var n := WordEnd(t);
      [t[..n]] + Words(t[n..])
  }

  // The length of the first word of a text that starts with one.
  function WordEnd(t: string): (n: nat)
    requires t != "" && !IsSpace(t[0])
    ensures 0 < n <= |t|
  {
    if |t| == 1 || IsSpace(t[1]) then 1 else 1 + WordEnd(t[1..])
  }

  function CodeInWords(words: seq<string>): Option<string>
  {
    if words == [] then None
    else if CODE_MARK <= words[0] then Some(words[0][|CODE_MARK|..])
    else CodeInWords(words[1..])
  }

  // _extract_stream_code
  function ExtractCode(entries: seq<string>): Option<string>
  {
    if entries == [] then None
    else
      var found := if Find(entries[0], "CRITICAL") != -1 && Find(entries[0], CODE_MARK) != -1
                   then CodeInWords(Words(entries[0])) else None;
      if found.Some? then found else ExtractCode(entries[1..])
  }

  // ---- the agent -------------------------------------------------------------------------

  datatype Memory = Memory(cursor: int, done: bool)

  function PollAction(cursor: int): Json
  {
    Obj(map["type" := Str("poll_stream"), "args" := Obj(map["cursor" := Int(cursor)])])
  }

  const WAIT := Obj(map["type" := Str("wait"), "args" := Obj(map[])])

  function OutputAction(code: string): Json
  {
    Obj(map["type" := Str("set_output"), "args" := Obj(map["key" := Str(CODE_KEY), "value" := Str(code)])])
  }

  datatype Turn = Play(memory: Memory, action: Json) | Raise(memory: Memory)

  // The reaction to a good poll; entries that are not a list of text, or a cursor that is
  // not a number, raise.
  function OnPage(m: Memory, result: Json): Turn
  {
    var entries := result.GetOr("entries", Arr([]));
    var next := result.GetOr("next_cursor", Int(m.cursor + 1));
    if !StringList(entries) then Raise(m)
    else
      var code := ExtractCode(Strings(entries.items));
      if code.Some? then Play(m.(done := true), OutputAction(code.value))
      else if result.Get("exhausted").Truthy() then Play(m.(done := true), WAIT)
      else if !next.Int? then Raise(m)
      else Play(m.(cursor := next.n), PollAction(next.n))
  }

  // act
  function Respond(m: Memory, o: Observation): Turn
  {
    var name, result := o.lastAction.Get("type"), o.lastResult;
    if m.done then Play(m, WAIT)
    else if name == Str("poll_stream") && result.Truthy() then
      if !result.Obj? then Raise(m)
      else if result.Get("ok").Truthy() then OnPage(m, result)
      else Play(m, PollAction(m.cursor))
    else if name == Str("set_output") then Play(m.(done := true), WAIT)
    else Play(m, PollAction(m.cursor))
  }

  class LogStreamMonitorAgent {
    var cursor: int
    var done: bool

    function State(): Memory
      reads this
    {
      Memory(cursor, done)
    }

    constructor ()
      ensures State() == Memory(0, false)
    {
      cursor, done := 0, false;
    }

    // _extract_stream_code: the entries in turn, the words of a matching entry in turn.
    method ExtractStreamCode(entries: seq<string>) returns (code: Option<string>)
      ensures code == ExtractCode(entries)
    {
      hide Words, Find;
      var i := 0;
      while i < |entries|
        invariant 0 <= i <= |entries|
        invariant ExtractCode(entries) == ExtractCode(entries[i..])
      {
        assert entries[i..][0] == entries[i] && entries[i..][1..] == entries[i + 1..];
        if Find(entries[i], "CRITICAL") != -1 && Find(entries[i], CODE_MARK) != -1 {
          code := ScanWords(Words(entries[i]));
          if code.Some? {
            return;
          }
        }
        i := i + 1;
      }
      code := None;
    }

    method ScanWords(words: seq<string>) returns (code: Option<string>)
      ensures code == CodeInWords(words)
    {
      var i := 0;
      while i < |words|
        invariant 0 <= i <= |words|
        invariant CodeInWords(words) == CodeInWords(words[i..])
      {
        assert words[i..][0] == words[i] && words[i..][1..] == words[i + 1..];
        if CODE_MARK <= words[i] {
          return Some(words[i][|CODE_MARK|..]);
        }
        i := i + 1;
      }
      code := None;
    }

    // act; None is an exception.
    method Act(o: Observation) returns (action: Option<Json>)
      modifies this
      ensures var turn := Respond(old(State()), o);
              State() == turn.memory && action == if turn.Play? then Some(turn.action) else None
    {
      hide ExtractCode;
      var name, result := o.lastAction.Get("type"), o.lastResult;
      if done {
        return Some(WAIT);
      }
      if name == Str("poll_stream") && result.Truthy() {
        if !result.Obj? {
          return None;
        }
        if result.Get("ok").Truthy() {
          var entries := result.GetOr("entries", Arr([]));
          if !StringList(entries) {
            return None;
          }
          var code := ExtractStreamCode(Strings(entries.items));
          if code.Some? {
            done := true;
            return Some(OutputAction(code.value));
          }
          if result.Get("exhausted").Truthy() {
            done := true;
            return Some(WAIT);
          }
          var next := result.GetOr("next_cursor", Int(cursor + 1));
          if !next.Int? {
            return None;
          }
          cursor := next.n;
        }
      }
      if name == Str("set_output") {
        done := true;
        return Some(WAIT);
      }
      action := Some(PollAction(cursor));
    }
  }

  // ---- what the agent looks for --------------------------------------------------------------

  lemma WordsUnfold(s: string)
    ensures var t := LStrip(s, IsSpace);
            Words(s) == if t == "" then [] else [t[..WordEnd(t)]] + Words(t[WordEnd(t)..])
  {
  }

  // Every word is a piece of the text.
  lemma {:induction false} WordsInside(s: string, k: nat) returns (i: nat)
    requires k < |Words(s)|
    ensures MatchAt(s, Words(s)[k], i)
    decreases |s|
  {
    hide MatchAt, Words, LStrip, WordEnd, IsSpace;
    var t := LStrip(s, IsSpace);
    LStripEnd(s, IsSpace);
    WordsUnfold(s);
    var n, from := WordEnd(t), |s| - |t|;
    if k == 0 {
      i := from;
      PieceMatches(s, from, t, 0, n);
    } else {
      var inner := WordsInside(t[n..], k - 1);
      i := from + n + inner;
      assert s[from + n..] == t[n..];
      MatchShifts(s, from + n, t[n..], Words(s)[k], inner);
    }
  }

  lemma PieceMatches(s: string, from: nat, t: string, i: nat, n: nat)
    requires from <= |s| && s[from..] == t && i <= n <= |t|
    ensures MatchAt(s, t[i..n], from + i)
  {
    var word := t[i..n];
    forall j | 0 <= j < |word| ensures s[from + i..from + n][j] == word[j] {
      assert word[j] == t[i + j] && s[from + i..from + n][j] == s[from + i + j];
      assert s[from..][i + j] == s[from + i + j];
    }
  }

  lemma MatchShifts(s: string, from: nat, t: string, word: string, i: nat)
    requires from <= |s| && s[from..] == t && MatchAt(t, word, i)
    ensures MatchAt(s, word, from + i)
  {
    PieceMatches(s, from, t, i, i + |word|);
  }

  lemma MarkedInside(s: string, k: nat)
    requires k < |Words(s)| && CODE_MARK <= Words(s)[k]
    ensures Find(s, CODE_MARK) != -1
  {
    hide Words;
    var i := WordsInside(s, k);
    assert s[i..i + |CODE_MARK|] == s[i..i + |Words(s)[k]|][..|CODE_MARK|] == CODE_MARK;
    assert MatchAt(s, CODE_MARK, i);
    hide Find;
  }

  // The first marked word of a critical entry.
  predicate Names(entry: string, k: nat, code: string)
  {
    && Contains(entry, "CRITICAL")
    && k < |Words(entry)| && Words(entry)[k] == "STREAM_CODE=" + code
    && forall j | 0 <= j < k :: !("STREAM_CODE=" <= Words(entry)[j])
  }

  // An entry without a code: it is not critical, or no word of it is marked.
  predicate Nameless(entry: string)
  {
    !Contains(entry, "CRITICAL") || forall j | 0 <= j < |Words(entry)| :: !("STREAM_CODE=" <= Words(entry)[j])
  }

  lemma {:induction false} CodeWord(words: seq<string>)
    ensures CodeInWords(words).None? <==> forall j | 0 <= j < |words| :: !("STREAM_CODE=" <= words[j])
    ensures CodeInWords(words).Some? ==> exists k: nat | k < |words| ::
              words[k] == "STREAM_CODE=" + CodeInWords(words).value && forall j | 0 <= j < k :: !("STREAM_CODE=" <= words[j])
  {
    if words != [] {
      if CODE_MARK <= words[0] {
        assert words[0] == "STREAM_CODE=" + words[0][|CODE_MARK|..];
      } else {
        CodeWord(words[1..]);
        if CodeInWords(words).Some? {
          var k: nat :| k < |words[1..]| && words[1..][k] == "STREAM_CODE=" + CodeInWords(words).value
                        && forall j | 0 <= j < k :: !("STREAM_CODE=" <= words[1..][j]);
          assert words[k + 1] == "STREAM_CODE=" + CodeInWords(words).value;
          forall j | 0 <= j < k + 1 ensures !("STREAM_CODE=" <= words[j]) { if j > 0 { assert words[j] == words[1..][j - 1]; } }
        }
        forall j | 0 <= j < |words| ensures words[j] == if j == 0 then words[0] else words[1..][j - 1] {}
      }
    }
  }

  lemma EntryNames(entry: string)
    ensures var found := if Find(entry, "CRITICAL") != -1 && Find(entry, CODE_MARK) != -1 then CodeInWords(Words(entry)) else None;
            && (found.None? <==> Nameless(entry))
            && (found.Some? ==> exists k: nat :: Names(entry, k, found.value))
  {
    hide Words, Find, CodeInWords;
    ContainsIffFound(entry, "CRITICAL");
    CodeWord(Words(entry));
    if !Nameless(entry) {
      var k :| 0 <= k < |Words(entry)| && "STREAM_CODE=" <= Words(entry)[k];
      MarkedInside(entry, k);
    }
    var code := CodeInWords(Words(entry));
    if code.Some? && Contains(entry, "CRITICAL") {
      var k: nat :| k < |Words(entry)| && Words(entry)[k] == "STREAM_CODE=" + code.value
                    && forall j | 0 <= j < k :: !("STREAM_CODE=" <= Words(entry)[j]);
      assert Names(entry, k, code.value);
    }
  }

  // The code found on a page is that of the first critical entry with a marked word, and its
  // first such word; nothing is found exactly when there is none.
  lemma {:induction false} ExtractMeans(entries: seq<string>)
    ensures ExtractCode(entries).None? <==> forall i | 0 <= i < |entries| :: Nameless(entries[i])
    ensures ExtractCode(entries).Some? ==>
              exists i: nat, k: nat | i < |entries| ::
                Names(entries[i], k, ExtractCode(entries).value) && forall j | 0 <= j < i :: Nameless(entries[j])
  {
    hide Nameless, Names, Words, Find, CodeInWords;
    if entries != [] {
      var rest := entries[1..];
      EntryNames(entries[0]);
      ExtractMeans(rest);
      forall i | 0 <= i < |entries| ensures entries[i] == if i == 0 then entries[0] else rest[i - 1] {}
      if ExtractCode(entries).Some? {
        var code := ExtractCode(entries).value;
        if Nameless(entries[0]) {
          var i: nat, k: nat :| i < |rest| && Names(rest[i], k, code) && forall j | 0 <= j < i :: Nameless(rest[j]);
          assert Names(entries[i + 1], k, code);
          forall j | 0 <= j < i + 1 ensures Nameless(entries[j]) { if j > 0 { assert Nameless(rest[j - 1]); } }
        } else {
          var k: nat :| Names(entries[0], k, code);
        }
      }
    }
  }

  // A refused poll is repeated; an agent that is done only waits; before anything was polled it
  // polls its cursor.
  lemma PollAnswered(m: Memory, o: Observation)
    ensures m.done ==> Respond(m, o) == Play(m, Obj(map["type" := Str("wait"), "args" := Obj(map[])]))
    ensures !m.done && (o.lastAction == Null
                        || (o.lastAction.Get("type") == Str("poll_stream") && o.lastResult.Obj? && !o.lastResult.Get("ok").Truthy())) ==>
              Respond(m, o) == Play(m, Obj(map["type" := Str("poll_stream"), "args" := Obj(map["cursor" := Int(m.cursor)])]))
  {
    hide ExtractCode;
    assert |"poll_stream"| == 11 && |"set_output"| == 10;
  }

  // ---- actions, validator and setup -----------------------------------------------------------

  const SCHEMA: map<string, seq<string>> := map["poll_stream" := ["cursor"], "set_output" := ["key", "value"]]

  function PagePath(n: int): string
  {
    "/stream/page_" + IntText(n) + ".json"
  }

  function PageResult(entries: Json, next: int, exhausted: bool): Json
  {
    Obj(map["ok" := Bool(true), "entries" := entries, "next_cursor" := Int(next), "exhausted" := Bool(exhausted)])
  }

  function Found(r: Reply): bool
  {
    r == Value(Bool(true))
  }

  // poll_stream(cursor)
  function Poll(m: Memory, cursor: int): Program<Memory>
  {
    Program((replies: seq<Reply>) =>
              if replies != [] && replies[|replies| - 1].Denied? then Finish(m, RaisedSandbox(replies[|replies| - 1].message))
              else if |replies| == 0 then Ask(Exists(PagePath(cursor + 1)))
              else if |replies| == 1 then
                if Found(replies[0]) then Ask(ReadFile(PagePath(cursor + 1)))
                else Finish(m, Returned(PageResult(Arr([]), cursor, true)))
              else if |replies| == 2 then Ask(Exists(PagePath(cursor + 2)))
              else if replies[1].Value? && replies[1].value.Has("entries") then
                Finish(m, Returned(PageResult(replies[1].value.Get("entries"), cursor + 1, !Found(replies[2]))))
              else Finish(m, RaisedOther("entries")), 3)
  }

  function SetCode(m: Memory, key: string, value: Json): Program<Memory>
  {
    Program((replies: seq<Reply>) =>
              if replies == [] then Ask(SetOutput(key, value)) else Finish(m, Returned(Obj(map["ok" := Bool(true)]))), 1)
  }

  function RunAction(m: Memory, name: string, args: map<string, Json>): Program<Memory>
  {
    if name == "poll_stream" && args.Keys == {"cursor"} && args["cursor"].Int? then Poll(m, args["cursor"].n)
    else if name == "set_output" && args.Keys == {"key", "value"} && args["key"].Str? then SetCode(m, args["key"].s, args["value"])
    else Program((replies: seq<Reply>) => Finish(m, RaisedOther("bad arguments")), 0)
  }

  function StreamJudge(expected: Json, provided: Json): Json
  {
    if !expected.Truthy() || provided != expected then
      Obj(map["ok" := Bool(false), "message" := Str("incorrect or missing STREAM_CODE")])
    else Obj(map["ok" := Bool(true), "message" := Str("STREAM_CODE detected and reported correctly")])
  }

  function Check(m: Memory): Program<Memory>
  {
    Program((replies: seq<Reply>) =>
              if |replies| == 0 then Ask(GetHidden(EXPECTED_KEY))
              else if |replies| == 1 then Ask(GetOutput(CODE_KEY))
              else Finish(m, Returned(StreamJudge(ReplyValue(replies[0]), ReplyValue(replies[1])))), 2)
  }

  // A page of the stream as setup writes it.
  function PageDoc(n: int, entries: seq<string>): Json
  {
    Obj(map["page" := Int(n), "entries" := Arr(StrItems(entries))])
  }

  // setup: one file a page, then the hidden state.
  function PageCalls(pages: seq<seq<string>>): (ops: seq<Op>)
    ensures |ops| == |pages|
  {
    seq(|pages|, i requires 0 <= i < |pages| => WriteFile(PagePath(i + 1), PageDoc(i + 1, pages[i])))
  }

  function SetupCalls(pages: seq<seq<string>>, expected: string): seq<Op>
  {
    PageCalls(pages)
    + [SetHidden(EXPECTED_KEY, Str(expected)), SetHidden("num_pages", Int(|pages|)), MarkSeen([])]
  }

  function ActOf(m: Memory, o: Observation): (Memory, AgentMove)
  {
    match Respond(m, o)
    case Play(memory, action) => (memory, Acts(action))
    case Raise(memory) => (memory, AgentRaises)
  }

  function StreamOracles(pages: seq<seq<string>>, expected: string): Oracles<Memory>
  {
    Oracles((m: Memory) => Straight(SetupCalls(pages, expected), m, Returned(Null)),
            ActOf, RunAction, Check)
  }
}
