// Every run of the log-stream agent, for every stream and every pair of budgets.
module LogStreamRuns {
  import opened Values
  import opened Text
  import opened EnvSpec
  import opened RunnerSpec
  import opened RunnerLaws
  import opened Scripts
  import opened Artifacts
  import opened LogStream
  import Paths

  // ---- page files ----------------------------------------------------------------------

  lemma PagePathInjective(a: nat, b: nat)
    requires PagePath(a) == PagePath(b)
    ensures a == b
  {
    var x, y := PagePath(a), PagePath(b);
    assert x[13..|x| - 5] == NatText(a) && y[13..|y| - 5] == NatText(b);
    NatTextInjective(a, b);
  }

  // A page path is its own normal form.
  lemma PagePathNormal(n: nat)
    ensures Paths.Normalize(PagePath(n)) == Ok(PagePath(n))
  {
    hide NatText;
    var path, name := PagePath(n), "page_" + NatText(n) + ".json";
    var parts := ["stream", name];
    assert forall i | 0 <= i < |NatText(n)| :: IsDigit(NatText(n)[i]);
    assert '/' !in name;
    assert Paths.CleanParts(parts);
    assert parts[1..] == [name];
    assert Join(parts, '/') == "stream" + "/" + name;
    assert "/" + Join(parts, '/') == path;
    Paths.RootedText(parts);
    NoParentInPage(n);
  }

  lemma NoParentInPage(n: nat)
    ensures !Paths.HasParent(PagePath(n))
  {
    hide NatText;
    var path := PagePath(n);
    var text := path + "/";
    var digits := NatText(n);
    assert forall i | 0 <= i < |digits| :: IsDigit(digits[i]);
    assert path[|path| - 1] == 'n';
    assert path[|path| - 3..][2] == 'n';
    forall i | 0 <= i <= |text| ensures !MatchAt(text, "/../", i) {
      if i + 4 <= |text| {
        assert text[i..i + 4][0] == text[i] && text[i..i + 4][1] == text[i + 1];
        assert "/../"[0] == '/' && "/../"[1] == '.';
        assert 13 <= i < 13 + |digits| ==> text[i] == digits[i - 13];
        assert text[i] == '/' ==> i == 0 || i == 7;
        assert text[1] == 's' && text[8] == 'p';
      }
    }
  }

  // ---- the stream ------------------------------------------------------------------------

  type Stream = seq<seq<string>>

  // The first page with a stream code, or the number of pages.
  function FirstCode(pages: Stream): (c: nat)
    ensures c <= |pages|
    ensures forall i | 0 <= i < c :: ExtractCode(pages[i]).None?
    ensures c < |pages| ==> ExtractCode(pages[c]).Some?
  {
    if pages == [] then 0
    else if ExtractCode(pages[0]).Some? then 0
    else 1 + FirstCode(pages[1..])
  }

  // The last page that is polled: the one with the code, the last one, or the missing first.
  function LastPolled(pages: Stream): nat
  {
    if FirstCode(pages) < |pages| then FirstCode(pages)
    else if pages == [] then 0 else |pages| - 1
  }

  predicate HasCode(pages: Stream)
  {
    FirstCode(pages) < |pages|
  }

  function CodeOf(pages: Stream): string
    requires HasCode(pages)
  {
    ExtractCode(pages[FirstCode(pages)]).value
  }

  // What polling cursor k gives back.
  function PollResult(pages: Stream, k: nat): Json
  {
    if k < |pages| then PageResult(Arr(StrItems(pages[k])), k + 1, k + 1 == |pages|)
    else PageResult(Arr([]), k, true)
  }

  // The file of page i + 1 is there.
  predicate PageIn(g: Guarded, pages: Stream, i: nat)
    requires i < |pages|
  {
    PagePath(i + 1) in g.store.files && g.store.files[PagePath(i + 1)] == PageDoc(i + 1, pages[i])
  }

  // The guarded environment between iterations, before an output is set.
  ghost predicate Streamed(p: Policy, g: Guarded, pages: Stream, expected: string)
  {
    && g.step == None && g.entries == []
    && (forall n: nat :: Paths.Admit(p.roots, PagePath(n)) == Ok(PagePath(n)))
    && (forall i | 0 <= i < |pages| :: PageIn(g, pages, i))
    && PagePath(|pages| + 1) !in g.store.files && PagePath(|pages| + 2) !in g.store.files
    && Lookup(g.store.hidden, EXPECTED_KEY) == Str(expected)
    && Lookup(g.store.output, CODE_KEY) == Null
  }

  // ---- the script ------------------------------------------------------------------------

  // Before the first poll, after polling cursor k, after an output that was not accepted.
  datatype Stage = Start | Polled(k: nat) | Sent

  predicate Occurs(pages: Stream, stage: Stage)
  {
    match stage
    case Start => true
    case Polled(k) => k <= LastPolled(pages)
    case Sent => HasCode(pages)
  }

  function MemoryAt(pages: Stream, stage: Stage): Memory
  {
    match stage
    case Start => Memory(0, false)
    case Polled(k) => Memory(k, false)
    case Sent => Memory(LastPolled(pages), true)
  }

  function LastAction(pages: Stream, stage: Stage): Json
    requires Occurs(pages, stage)
  {
    match stage
    case Start => Null
    case Polled(k) => PollAction(k)
    case Sent => OutputAction(CodeOf(pages))
  }

  function LastResult(pages: Stream, stage: Stage): Json
  {
    match stage
    case Start => Null
    case Polled(k) => PollResult(pages, k)
    case Sent => Obj(map["ok" := Bool(true)])
  }

  ghost function GuardAt(pages: Stream, g: Guarded, stage: Stage): Guarded
    requires Occurs(pages, stage)
  {
    if stage.Sent? then g.(store := g.store.(output := g.store.output[CODE_KEY := Str(CodeOf(pages))])) else g
  }

  ghost function CoreAt(pages: Stream, g: Guarded, stage: Stage): Core<Memory>
    requires Occurs(pages, stage)
  {
    Core(MemoryAt(pages, stage), GuardAt(pages, g, stage), LastAction(pages, stage), LastResult(pages, stage))
  }

  // ---- the agent, stage by stage -----------------------------------------------------------

  lemma PageParts(entries: seq<string>, next: int, exhausted: bool)
    ensures var r := PageResult(Arr(StrItems(entries)), next, exhausted);
            && r.Truthy() && r.Obj? && r.Get("ok").Truthy()
            && r.GetOr("entries", Arr([])) == Arr(StrItems(entries))
            && r.GetOr("next_cursor", Int(0)) == Int(next) && r.Has("next_cursor")
            && r.Get("exhausted").Truthy() == exhausted
  {
    assert PageResult(Arr(StrItems(entries)), next, exhausted).fields["ok"] == Bool(true);
  }

  lemma OnPageResult(m: Memory, entries: seq<string>, next: int, exhausted: bool)
    ensures OnPage(m, PageResult(Arr(StrItems(entries)), next, exhausted)) ==
              if ExtractCode(entries).Some? then Play(m.(done := true), OutputAction(ExtractCode(entries).value))
              else if exhausted then Play(m.(done := true), WAIT)
              else Play(m.(cursor := next), PollAction(next))
  {
    PageParts(entries, next, exhausted);
    StringsOfStrItems(entries);
    hide ExtractCode, PageResult, Strings, StringList;
  }

  lemma PollName(k: int)
    ensures PollAction(k).Get("type") == Str("poll_stream") && ActionArgs(PollAction(k)) == map["cursor" := Int(k)]
  {
  }

  lemma AfterPoll(m: Memory, o: Observation, k: int, entries: seq<string>, next: int, exhausted: bool)
    requires !m.done && o.lastAction == PollAction(k) && o.lastResult == PageResult(Arr(StrItems(entries)), next, exhausted)
    ensures Respond(m, o) == OnPage(m, o.lastResult)
  {
    PollName(k);
    PageParts(entries, next, exhausted);
    hide OnPage, PageResult, PollAction;
  }

  // What the agent plays at a stage.
  function Played(pages: Stream, stage: Stage): Json
    requires Occurs(pages, stage)
  {
    match stage
    case Start => PollAction(0)
    case Sent => WAIT
    case Polled(k) =>
      if HasCode(pages) && k == FirstCode(pages) then OutputAction(CodeOf(pages))
      else if k + 1 >= |pages| then WAIT
      else PollAction(k + 1)
  }

  function MemoryAfter(pages: Stream, stage: Stage): Memory
    requires Occurs(pages, stage)
  {
    match stage
    case Start => Memory(0, false)
    case Sent => Memory(LastPolled(pages), true)
    case Polled(k) =>
      if (HasCode(pages) && k == FirstCode(pages)) || k + 1 >= |pages| then Memory(k, true)
      else Memory(k + 1, false)
  }

  lemma AgentPlays(pages: Stream, stage: Stage, o: Observation)
    requires Occurs(pages, stage)
    requires o.lastAction == LastAction(pages, stage) && o.lastResult == LastResult(pages, stage)
    ensures Respond(MemoryAt(pages, stage), o) == Play(MemoryAfter(pages, stage), Played(pages, stage))
  {
    hide ExtractCode, PageResult, OnPage, PollAction, OutputAction;
    if stage.Polled? {
      var k := stage.k;
      var entries := if k < |pages| then pages[k] else [];
      var next, exhausted := if k < |pages| then k + 1 else k, k + 1 >= |pages|;
      assert StrItems([]) == [];
      assert LastResult(pages, stage) == PageResult(Arr(StrItems(entries)), next, exhausted);
      AfterPoll(MemoryAt(pages, stage), o, k, entries, next, exhausted);
      OnPageResult(MemoryAt(pages, stage), entries, next, exhausted);
      if k >= |pages| { NoEntriesNoCode(); }
    }
  }

  lemma NoEntriesNoCode()
    ensures ExtractCode([]) == None
  {
  }

  // ---- actions, validator and setup -----------------------------------------------------------

  // The iteration's audit window, and closing it again.
  function Window(g: Guarded, step: int): Guarded
  {
    g.(step := Some(step), entries := [])
  }

  // What polling looks up: the page and whether a next one is there.
  ghost predicate PageAt(p: Policy, g: Guarded, k: nat, doc: Option<Json>, more: bool)
  {
    var here, next := PagePath(k + 1), PagePath(k + 2);
    && Paths.Admit(p.roots, here) == Ok(here) && Paths.Admit(p.roots, next) == Ok(next)
    && (if doc.Some? then here in g.store.files && g.store.files[here] == doc.value else here !in g.store.files)
    && (next in g.store.files <==> more)
  }

  lemma PollMissing(p: Policy, g: Guarded, m: Memory, k: nat, step: int)
    requires PageAt(p, g, k, None, false)
    ensures Execute(p, Window(g, step), Poll(m, k))
            == (Window(g, step).(entries := [Fs("exists", PagePath(k + 1))]), Ended(m, Returned(PageResult(Arr([]), k, true))))
  {
    hide Paths.Admit, ExecuteFrom, PagePath, PageResult, Perform;
    var w, here := Window(g, step), PagePath(k + 1);
    var r1 := Value(Bool(false));
    PerformExists(p, w, here);
    assert w.entries + [Fs("exists", here)] == [Fs("exists", here)];
    ExecuteStep(p, w, Poll(m, k), [], Exists(here), [r1]);
    ExecuteEnd(p, w.(entries := [Fs("exists", here)]), Poll(m, k), [r1], m, Returned(PageResult(Arr([]), k, true)));
  }

  // The replies of a poll that finds its page.
  lemma PollReplies(m: Memory, k: nat, doc: Json, more: bool)
    requires doc.Has("entries")
    ensures var r1, r2, r3 := Value(Bool(true)), Value(doc), Value(Bool(more));
            var code := Poll(m, k);
            && code.next([]) == Ask(Exists(PagePath(k + 1)))
            && code.next([r1]) == Ask(ReadFile(PagePath(k + 1)))
            && code.next([r1, r2]) == Ask(Exists(PagePath(k + 2)))
            && code.next([r1, r2, r3]) == Finish(m, Returned(PageResult(doc.Get("entries"), k + 1, !more)))
  {
    hide PagePath, PageResult;
  }

  lemma PollPresent(p: Policy, g: Guarded, m: Memory, k: nat, doc: Json, more: bool, step: int)
    requires PageAt(p, g, k, Some(doc), more) && doc.Has("entries")
    ensures var here, next := PagePath(k + 1), PagePath(k + 2);
            Execute(p, Window(g, step), Poll(m, k))
            == (Window(g, step).(entries := [Fs("exists", here), Fs("read_file", here), Fs("exists", next)]),
                Ended(m, Returned(PageResult(doc.Get("entries"), k + 1, !more))))
  {
    hide Paths.Admit, ExecuteFrom, PagePath, PageResult, Perform, Poll;
    var w, here, next := Window(g, step), PagePath(k + 1), PagePath(k + 2);
    var r1, r2, r3 := Value(Bool(true)), Value(doc), Value(Bool(more));
    PollReplies(m, k, doc, more);
    assert Poll(m, k).bound == 3 by { PollBound(m, k); }
    var e1 := [Fs("exists", here)];
    var e2 := e1 + [Fs("read_file", here)];
    var e3 := e2 + [Fs("exists", next)];
    PerformExists(p, w, here);
    assert w.entries + [Fs("exists", here)] == e1;
    ExecuteStep(p, w, Poll(m, k), [], Exists(here), [r1]);
    PerformRead(p, w.(entries := e1), here);
    ExecuteStep(p, w.(entries := e1), Poll(m, k), [r1], ReadFile(here), [r1, r2]);
    PerformExists(p, w.(entries := e2), next);
    ExecuteStep(p, w.(entries := e2), Poll(m, k), [r1, r2], Exists(next), [r1, r2, r3]);
    ExecuteEnd(p, w.(entries := e3), Poll(m, k), [r1, r2, r3], m, Returned(PageResult(doc.Get("entries"), k + 1, !more)));
    assert e3 == [Fs("exists", here), Fs("read_file", here), Fs("exists", next)];
  }

  lemma PollBound(m: Memory, k: nat)
    ensures Poll(m, k).bound == 3
  {
  }

  lemma PollRuns(p: Policy, g: Guarded, pages: Stream, expected: string, m: Memory, k: nat, step: int)
    returns (entries: seq<AuditEntry>)
    requires Streamed(p, g, pages, expected) && k <= |pages|
    requires k == |pages| ==> k == 0
    ensures Execute(p, Window(g, step), Poll(m, k))
            == (Window(g, step).(entries := entries), Ended(m, Returned(PollResult(pages, k))))
    ensures EntriesSafe(entries)
  {
    LookupsSafe(k);
    hide EntriesSafe, Paths.Admit, ExecuteFrom, PageResult, PageDoc, Perform, Poll, PagePath, Execute;
    assert Paths.Admit(p.roots, PagePath(k + 1)) == Ok(PagePath(k + 1));
    assert Paths.Admit(p.roots, PagePath(k + 2)) == Ok(PagePath(k + 2));
    if k < |pages| {
      DocEntries(k + 1, pages[k]);
      PageThere(p, g, pages, expected, k);
      assert PagePath(k + 2) in g.store.files <==> k + 1 < |pages| by {
        if k + 1 < |pages| { PageThere(p, g, pages, expected, k + 1); }
      }
      assert PageAt(p, g, k, Some(PageDoc(k + 1, pages[k])), k + 1 < |pages|);
      PollPresent(p, g, m, k, PageDoc(k + 1, pages[k]), k + 1 < |pages|, step);
      entries := [Fs("exists", PagePath(k + 1)), Fs("read_file", PagePath(k + 1)), Fs("exists", PagePath(k + 2))];
    } else {
      PollMissing(p, g, m, k, step);
      entries := [Fs("exists", PagePath(k + 1))];
    }
  }

  lemma PageThere(p: Policy, g: Guarded, pages: Stream, expected: string, i: nat)
    requires Streamed(p, g, pages, expected) && i < |pages|
    ensures PagePath(i + 1) in g.store.files && g.store.files[PagePath(i + 1)] == PageDoc(i + 1, pages[i])
  {
    hide Paths.Admit, PagePath, PageDoc;
    assert PageIn(g, pages, i);
  }

  lemma DocEntries(n: int, entries: seq<string>)
    ensures PageDoc(n, entries).Has("entries") && PageDoc(n, entries).Get("entries") == Arr(StrItems(entries))
  {
  }

  lemma PerformExists(p: Policy, g: Guarded, path: string)
    requires Paths.Admit(p.roots, path) == Ok(path) && g.step.Some?
    ensures Perform(p, g, Exists(path)) == (g.(entries := g.entries + [Fs("exists", path)]), Value(Bool(path in g.store.files)))
  {
    hide Paths.Admit;
  }

  lemma PerformRead(p: Policy, g: Guarded, path: string)
    requires Paths.Admit(p.roots, path) == Ok(path) && g.step.Some? && path in g.store.files
    ensures Perform(p, g, ReadFile(path)) == (g.(entries := g.entries + [Fs("read_file", path)]), Value(g.store.files[path]))
  {
    hide Paths.Admit;
  }

  lemma CheckRuns(p: Policy, g: Guarded, m: Memory)
    ensures Execute(p, g, Check(m))
            == (g, Ended(m, Returned(StreamJudge(Lookup(g.store.hidden, EXPECTED_KEY), Lookup(g.store.output, CODE_KEY)))))
  {
    var first, second := Value(Lookup(g.store.hidden, EXPECTED_KEY)), Value(Lookup(g.store.output, CODE_KEY));
    assert Perform(p, g, GetHidden(EXPECTED_KEY)) == (g, first);
    assert Perform(p, g, GetOutput(CODE_KEY)) == (g, second);
    assert [] + [first] == [first] && [first] + [second] == [first, second];
    hide Perform, ExecuteFrom;
    ExecuteStep(p, g, Check(m), [], GetHidden(EXPECTED_KEY), [first]);
    ExecuteStep(p, g, Check(m), [first], GetOutput(CODE_KEY), [first, second]);
    ExecuteEnd(p, g, Check(m), [first, second], m, Returned(StreamJudge(first.value, second.value)));
  }

  // The judgement: success needs an expected code that is not empty and was provided.
  lemma JudgeMeans(expected: string, provided: Json)
    ensures var v := StreamJudge(Str(expected), provided);
            && v.Obj? && !v.Get("terminal").Truthy()
            && (v.Get("ok").Truthy() <==> expected != "" && provided == Str(expected))
  {
  }

  // ---- turns ---------------------------------------------------------------------------------

  // The entries and the code that is sent hold no line separator.
  predicate StreamSafe(pages: Stream)
  {
    && (forall i, k | 0 <= i < |pages| && 0 <= k < |pages[i]| :: OneLine(pages[i][k]))
    && (HasCode(pages) ==> OneLine(CodeOf(pages)))
  }

  predicate EntriesSafe(audit: seq<AuditEntry>)
  {
    forall k | 0 <= k < |audit| :: AuditSafe(audit[k])
  }

  lemma PathSafe(n: nat)
    ensures OneLine(PagePath(n)) && OneLine("exists") && OneLine("read_file")
  {
    hide NatText;
    assert forall c <- NatText(n) :: IsDigit(c);
  }

  lemma LookupsSafe(k: nat)
    ensures EntriesSafe([Fs("exists", PagePath(k + 1))])
    ensures EntriesSafe([Fs("exists", PagePath(k + 1)), Fs("read_file", PagePath(k + 1)), Fs("exists", PagePath(k + 2))])
  {
    hide OneLine, PagePath;
    PathSafe(k + 1);
    PathSafe(k + 2);
  }

  lemma PollTextsSafe()
    ensures OneLine("type") && OneLine("args") && OneLine("cursor") && OneLine("poll_stream") && OneLine("set_output")
    ensures OneLine("key") && OneLine("value") && OneLine(CODE_KEY) && OneLine("wait")
    ensures OneLine("ok") && OneLine("entries") && OneLine("next_cursor") && OneLine("exhausted")
  {
  }

  lemma ActionsSafe(k: int, code: string)
    ensures LineSafe(PollAction(k)) && LineSafe(WAIT)
    ensures OneLine(code) ==> LineSafe(OutputAction(code))
    ensures LineSafe(Obj(map["ok" := Bool(true)]))
  {
    PollTextsSafe();
    assert LineSafe(Int(k)) && LineSafe(Bool(true));
    hide OneLine, LineSafe;
    PairSafe("cursor", Int(k), "ok", Bool(true));
    PairSafe("ok", Bool(true), "ok", Bool(true));
    assert LineSafe(Obj(map[])) by { NothingSafe(); }
    ActionSafe("poll_stream", Obj(map["cursor" := Int(k)]));
    ActionSafe("wait", Obj(map[]));
    if OneLine(code) {
      TextSafe(CODE_KEY);
      TextSafe(code);
      PairSafe("key", Str(CODE_KEY), "value", Str(code));
      ActionSafe("set_output", Obj(map["key" := Str(CODE_KEY), "value" := Str(code)]));
    }
  }

  lemma TextSafe(s: string)
    requires OneLine(s)
    ensures LineSafe(Str(s))
  {
  }

  lemma NothingSafe()
    ensures LineSafe(Obj(map[]))
  {
  }

  lemma ActionSafe(name: string, args: Json)
    requires OneLine(name) && LineSafe(args)
    ensures LineSafe(Obj(map["type" := Str(name), "args" := args]))
  {
    assert OneLine("type") && OneLine("args");
    PairSafe("type", Str(name), "args", args);
  }

  lemma ResultSafe(pages: Stream, k: nat)
    requires StreamSafe(pages)
    ensures LineSafe(PollResult(pages, k))
  {
    PollTextsSafe();
    hide OneLine;
    var entries, next := if k < |pages| then StrItems(pages[k]) else [], if k < |pages| then k + 1 else k;
    var exhausted := k + 1 >= |pages|;
    assert LineSafe(Arr(entries));
    hide LineSafe;
    FourSafe("ok", Bool(true), "entries", Arr(entries), "next_cursor", Int(next), "exhausted", Bool(exhausted));
    assert PollResult(pages, k) == PageResult(Arr(entries), next, exhausted);
  }

  lemma ActionsValid(k: int, code: string)
    ensures ValidateAction(PollAction(k), SCHEMA).None?
    ensures ValidateAction(OutputAction(code), SCHEMA).None?
    ensures ValidateAction(WAIT, SCHEMA).Some?
    ensures OutputAction(code).Get("type") == Str("set_output")
    ensures ActionArgs(OutputAction(code)) == map["key" := Str(CODE_KEY), "value" := Str(code)]
  {
    assert OutputAction(code).Get("args").fields == map["key" := Str(CODE_KEY), "value" := Str(code)];
  }

  lemma Moves(pages: Stream, expected: string, t: Task, g: Guarded, stage: Stage, s: Loop<Memory>)
    requires Occurs(pages, stage) && At(s, CoreAt(pages, g, stage))
    ensures StreamOracles(pages, expected).act(s.state, Observe(t, s)) == (MemoryAfter(pages, stage), Acts(Played(pages, stage)))
  {
    hide Respond, ExtractCode, Visible, SetupCalls, Played, MemoryAfter, MemoryAt, LastAction, LastResult;
    AgentPlays(pages, stage, Observe(t, s));
  }

  // A stage at which the agent waits: the action is not in the schema.
  lemma WaitTurn(pages: Stream, expected: string, t: Task, clock: int -> string, p: Policy, g: Guarded, stage: Stage, s: Loop<Memory>)
    requires Occurs(pages, stage) && At(s, CoreAt(pages, g, stage)) && t.schema == SCHEMA && s.stepsLeft > 0
    requires Played(pages, stage) == WAIT
    ensures LeavesBy(Iterate(StreamOracles(pages, expected), t, clock, p, s), InvalidAction)
    ensures ClockSafe(clock) ==> KeepsSafe(s, Iterate(StreamOracles(pages, expected), t, clock, p, s))
  {
    ActionsSafe(0, "");
    hide LineSafe, KeepsSafe, ClockSafe, Iterate, Visible, StreamOracles, MemoryAfter, ValidateAction, CoreAt, Played;
    ActionsValid(0, "");
    Moves(pages, expected, t, g, stage, s);
    InvalidTurn(StreamOracles(pages, expected), t, clock, p, s, MemoryAfter(pages, stage), WAIT);
  }

  // The cursor that a stage polls next.
  function NextPoll(stage: Stage): nat
  {
    if stage.Polled? then stage.k + 1 else 0
  }

  lemma GatedTurn(pages: Stream, expected: string, t: Task, clock: int -> string, p: Policy, g: Guarded, stage: Stage, s: Loop<Memory>)
    requires Occurs(pages, stage) && At(s, CoreAt(pages, g, stage)) && t.schema == SCHEMA && s.stepsLeft > 0 && s.callsLeft <= 0
    requires Played(pages, stage) != WAIT
    ensures LeavesBy(Iterate(StreamOracles(pages, expected), t, clock, p, s), CallGate)
    ensures KeepsSafe(s, Iterate(StreamOracles(pages, expected), t, clock, p, s))
  {
    hide KeepsSafe, Iterate, Visible, StreamOracles, MemoryAfter, ValidateAction, CoreAt, PollAction, OutputAction;
    Moves(pages, expected, t, g, stage, s);
    ActionsValid(NextPoll(stage), if HasCode(pages) then CodeOf(pages) else "");
    ActionsValid(0, "");
    GateTurn(StreamOracles(pages, expected), t, clock, p, s, MemoryAfter(pages, stage), Played(pages, stage));
  }

  // A stage at which the agent polls on.
  lemma PollTurn(pages: Stream, expected: string, t: Task, clock: int -> string, p: Policy, g: Guarded, stage: Stage, s: Loop<Memory>)
    requires Occurs(pages, stage) && !stage.Sent? && At(s, CoreAt(pages, g, stage)) && t.schema == SCHEMA
    requires Streamed(p, g, pages, expected) && s.stepsLeft > 0 && s.callsLeft > 0
    requires Played(pages, stage) == PollAction(NextPoll(stage)) && MemoryAfter(pages, stage) == Memory(NextPoll(stage), false)
    requires NextPoll(stage) <= LastPolled(pages)
    ensures var r := Iterate(StreamOracles(pages, expected), t, clock, p, s);
            && r.Go? && At(r.next, CoreAt(pages, g, Polled(NextPoll(stage)))) && r.next.callsLeft == s.callsLeft - 1
            && (StreamSafe(pages) && ClockSafe(clock) ==> KeepsSafe(s, r))
  {
    hide TraceSafe, LineSafe, StreamSafe, AuditSafe, OneLine, Iterate, Judge, Visible, ValidateAction, Poll, Check, Execute, ExecuteFrom, PollAction, ActOf, SetupCalls, PollResult,
         PageResult, Paths.Admit, PagePath, PageDoc, StreamJudge, Played, MemoryAfter, ActionArgs;
    var o, k := StreamOracles(pages, expected), NextPoll(stage);
    var m, action := Memory(k, false), PollAction(k);
    var step := Observe(t, s).step;
    Moves(pages, expected, t, g, stage, s);
    ActionsValid(k, "");
    PollName(k);
    var entries := PollRuns(p, g, pages, expected, m, k, step);
    CheckRuns(p, g, m);
    JudgeMeans(expected, Null);
    var acted := Window(g, step).(entries := entries);
    assert acted.(step := None, entries := []) == g;
    PolledOracle(pages, expected, m, k);
    PlayedTurn(o, t, clock, p, s, m, action, acted, m, PollResult(pages, k), g, m, StreamJudge(Str(expected), Null));
    var entry := Entry(step, clock(step), Observe(t, s), action, PollResult(pages, k), entries, s.stepsLeft - 1, s.callsLeft - 1, 1, 1);
    JudgedOpen(t, Loop(m, g, s.stepsLeft - 1, s.callsLeft - 1, action, PollResult(pages, k), s.trace + [entry], s.checks),
               StreamJudge(Str(expected), Null));
    if StreamSafe(pages) && ClockSafe(clock) && TraceSafe(s.trace) {
      ActionsSafe(k, "");
      ResultSafe(pages, k);
      AppendSafe(s.trace, entry);
    }
  }

  lemma PolledOracle(pages: Stream, expected: string, m: Memory, k: nat)
    ensures StreamOracles(pages, expected).action(m, "poll_stream", map["cursor" := Int(k)]) == Poll(m, k)
    ensures StreamOracles(pages, expected).validate(m) == Check(m)
    ensures forall code: string ::
      StreamOracles(pages, expected).action(m, "set_output", map["key" := Str(CODE_KEY), "value" := Str(code)]) == SetCode(m, CODE_KEY, Str(code))
  {
    hide Poll, Check, SetCode, SetupCalls;
  }

  lemma SendRuns(p: Policy, g: Guarded, m: Memory, code: string)
    ensures Execute(p, g, SetCode(m, CODE_KEY, Str(code)))
            == (g.(store := g.store.(output := g.store.output[CODE_KEY := Str(code)])), Ended(m, Returned(Obj(map["ok" := Bool(true)]))))
  {
    hide ExecuteFrom, Execute;
    ExecuteOne(p, g, SetCode(m, CODE_KEY, Str(code)), SetOutput(CODE_KEY, Str(code)), m, Returned(Obj(map["ok" := Bool(true)])));
  }

  // The stage behind the page with the code: the output is accepted or the agent is stuck.
  lemma SendTurn(pages: Stream, expected: string, t: Task, clock: int -> string, p: Policy, g: Guarded, s: Loop<Memory>)
    requires HasCode(pages) && At(s, CoreAt(pages, g, Polled(FirstCode(pages)))) && t.schema == SCHEMA
    requires Streamed(p, g, pages, expected) && s.stepsLeft > 0 && s.callsLeft > 0
    ensures var r := Iterate(StreamOracles(pages, expected), t, clock, p, s);
            && (StreamSafe(pages) && ClockSafe(clock) ==> KeepsSafe(s, r)) &&
            if expected != "" && CodeOf(pages) == expected then LeavesBy(r, Validated)
            else r.Go? && At(r.next, CoreAt(pages, g, Sent)) && r.next.callsLeft == s.callsLeft - 1
  {
    hide TraceSafe, LineSafe, OneLine, Iterate, Judge, Visible, ValidateAction, Poll, Check, SetCode, Execute, ExecuteFrom, OutputAction, ActOf, SetupCalls, PollResult,
         PageResult, Paths.Admit, PagePath, PageDoc, StreamJudge, ActionArgs;
    var o, stage, code := StreamOracles(pages, expected), Polled(FirstCode(pages)), CodeOf(pages);
    var m, action := Memory(FirstCode(pages), true), OutputAction(CodeOf(pages));
    var step := Observe(t, s).step;
    Moves(pages, expected, t, g, stage, s);
    ActionsValid(0, code);
    var window := Window(g, step);
    SendRuns(p, window, m, code);
    var acted := window.(store := window.store.(output := window.store.output[CODE_KEY := Str(code)]));
    var sent := GuardAt(pages, g, Sent);
    assert acted.(step := None, entries := []) == sent;
    CheckRuns(p, sent, m);
    JudgeMeans(expected, Str(code));
    PolledOracle(pages, expected, m, 0);
    var v, ok := StreamJudge(Str(expected), Str(code)), Obj(map["ok" := Bool(true)]);
    PlayedTurn(o, t, clock, p, s, m, action, acted, m, ok, sent, m, v);
    var entry := Entry(step, clock(step), Observe(t, s), action, ok, [], s.stepsLeft - 1, s.callsLeft - 1, 1, 1);
    var settled := Loop(m, sent, s.stepsLeft - 1, s.callsLeft - 1, action, ok, s.trace + [entry], s.checks);
    JudgedSafe(t, settled, v);
    if StreamSafe(pages) && ClockSafe(clock) && TraceSafe(s.trace) {
      ActionsSafe(0, code);
      AppendSafe(s.trace, entry);
    }
    if expected != "" && code == expected {
      JudgedOk(t, settled, v);
    } else {
      JudgedOpen(t, settled, v);
    }
  }

  // ---- whole runs -----------------------------------------------------------------------------

  // The output of the code is accepted.
  predicate Accepted(pages: Stream, expected: string)
  {
    HasCode(pages) && expected != "" && CodeOf(pages) == expected
  }

  function LastExit(pages: Stream, expected: string): Exit
  {
    if Accepted(pages, expected) then Validated else InvalidAction
  }

  // The number of iterations of a run with enough budget: one for every polled page, one for
  // the output or the wait behind the last page, and one more to wait after a refused output.
  function Length(pages: Stream, expected: string): nat
  {
    LastPolled(pages) + 2 + (if HasCode(pages) && !Accepted(pages, expected) then 1 else 0)
  }

  function StageAt(pages: Stream, i: nat): Stage
  {
    if i == 0 then Start else if i <= LastPolled(pages) + 1 then Polled(i - 1) else Sent
  }

  ghost function Cores(pages: Stream, expected: string, g: Guarded): seq<Core<Memory>>
  {
    seq(Length(pages, expected), i requires 0 <= i < Length(pages, expected) => CoreAt(pages, g, StageAt(pages, i)))
  }

  lemma StreamScripted(pages: Stream, expected: string, t: Task, clock: int -> string, p: Policy, g: Guarded)
    requires Streamed(p, g, pages, expected) && t.schema == SCHEMA
    ensures Scripted(StreamOracles(pages, expected), t, clock, p, Cores(pages, expected, g), LastExit(pages, expected),
                     StreamSafe(pages) && ClockSafe(clock))
  {
    hide Iterate, At, CoreAt, StreamOracles, Streamed, StreamSafe, ClockSafe, KeepsSafe;
    var cores, o, safe := Cores(pages, expected, g), StreamOracles(pages, expected), StreamSafe(pages) && ClockSafe(clock);
    forall i: nat, s: Loop<Memory> | i < |cores| ensures Follows(o, t, clock, p, cores, LastExit(pages, expected), safe, i, s) {
      if At(s, cores[i]) && s.stepsLeft > 0 {
        StreamTurn(pages, expected, t, clock, p, g, i, s);
      }
    }
  }

  lemma StreamTurn(pages: Stream, expected: string, t: Task, clock: int -> string, p: Policy, g: Guarded, i: nat, s: Loop<Memory>)
    requires Streamed(p, g, pages, expected) && t.schema == SCHEMA && i < Length(pages, expected)
    requires At(s, Cores(pages, expected, g)[i]) && s.stepsLeft > 0
    ensures Follows(StreamOracles(pages, expected), t, clock, p, Cores(pages, expected, g), LastExit(pages, expected),
                    StreamSafe(pages) && ClockSafe(clock), i, s)
  {
    hide StreamSafe, ClockSafe, KeepsSafe, Iterate, At, CoreAt, StreamOracles, Streamed, PollAction, OutputAction;
    var stage := StageAt(pages, i);
    if stage.Polled? && HasCode(pages) && stage.k == FirstCode(pages) {
      OutputIsNotWait(CodeOf(pages));
      if s.callsLeft <= 0 {
        GatedTurn(pages, expected, t, clock, p, g, stage, s);
      } else {
        SendTurn(pages, expected, t, clock, p, g, s);
      }
    } else if stage.Sent? || (stage.Polled? && stage.k == LastPolled(pages)) {
      WaitTurn(pages, expected, t, clock, p, g, stage, s);
    } else {
      OutputIsNotWait("");
      PollIsNotWait(NextPoll(stage));
      if s.callsLeft <= 0 {
        GatedTurn(pages, expected, t, clock, p, g, stage, s);
      } else {
        PollTurn(pages, expected, t, clock, p, g, stage, s);
      }
    }
  }

  lemma OutputIsNotWait(code: string)
    ensures OutputAction(code) != WAIT
  {
    assert OutputAction(code).Get("type") == Str("set_output") && WAIT.Get("type") == Str("wait");
  }

  lemma PollIsNotWait(k: int)
    ensures PollAction(k) != WAIT
  {
    assert PollAction(k).Get("type") == Str("poll_stream") && WAIT.Get("type") == Str("wait");
  }

  // ---- setup ------------------------------------------------------------------------------------

  predicate IsPage(file: string, j: nat)
  {
    file == PagePath(j + 1)
  }

  // The environment when setup has written the first i pages.
  ghost predicate Stocked(g: Guarded, pages: Stream, i: nat)
    requires i <= |pages|
  {
    && g.step == None && g.entries == [] && g.store.hidden == map[] && g.store.output == map[]
    && (forall f <- g.store.files :: exists j: nat | j < i :: IsPage(f, j))
    && (forall j | 0 <= j < i :: PageIn(g, pages, j))
  }

  ghost predicate AdmitsPages(p: Policy)
  {
    forall n: nat :: Paths.Admit(p.roots, PagePath(n)) == Ok(PagePath(n))
  }

  lemma StreamRootAdmits(p: Policy)
    requires "/stream" in p.roots
    ensures AdmitsPages(p)
  {
    hide PagePath, Paths.Normalize;
    forall n: nat ensures Paths.Admit(p.roots, PagePath(n)) == Ok(PagePath(n)) {
      PagePathNormal(n);
      UnderStream(n);
      var i :| 0 <= i < |p.roots| && p.roots[i] == "/stream";
      assert Paths.UnderRoot(p.roots[i], PagePath(n));
    }
  }

  lemma UnderStream(n: nat)
    ensures Paths.UnderRoot("/stream", PagePath(n))
  {
    hide NatText;
    assert "/stream" + "/" == "/stream/";
    assert PagePath(n)[..8] == "/stream/";
  }

  lemma PageWritten(p: Policy, g: Guarded, pages: Stream, i: nat)
    requires i < |pages| && Stocked(g, pages, i) && Paths.Admit(p.roots, PagePath(i + 1)) == Ok(PagePath(i + 1))
    ensures var r := Perform(p, g, WriteFile(PagePath(i + 1), PageDoc(i + 1, pages[i])));
            !r.1.Denied? && Stocked(r.0, pages, i + 1)
  {
    hide PagePath, PageDoc, Paths.Admit;
    var r := Perform(p, g, WriteFile(PagePath(i + 1), PageDoc(i + 1, pages[i])));
    assert r.0.store.files == g.store.files[PagePath(i + 1) := PageDoc(i + 1, pages[i])];
    forall f | f in r.0.store.files ensures exists j: nat | j < i + 1 :: IsPage(f, j) {
      if f in g.store.files {
        var j: nat :| j < i && IsPage(f, j);
        assert IsPage(f, j);
      } else {
        assert IsPage(f, i);
      }
    }
    forall j | 0 <= j < i + 1 ensures PageIn(r.0, pages, j) {
      if j < i {
        assert PageIn(g, pages, j);
        if PagePath(j + 1) == PagePath(i + 1) { PagePathInjective(j + 1, i + 1); }
      }
    }
  }

  // The three calls behind the pages.
  lemma StreamHidden(p: Policy, g: Guarded, pages: Stream, expected: string)
    requires Stocked(g, pages, |pages|) && AdmitsPages(p)
    ensures var rest := [SetHidden(EXPECTED_KEY, Str(expected)), SetHidden("num_pages", Int(|pages|)), MarkSeen([])];
            NoneDenied(p, g, rest) && Streamed(p, PerformAll(p, g, rest), pages, expected)
  {
    hide PagePath, PageDoc, Paths.Admit, NoneDenied, PerformAll;
    var a, b, c := SetHidden(EXPECTED_KEY, Str(expected)), SetHidden("num_pages", Int(|pages|)), MarkSeen([]);
    var g1 := Perform(p, g, a).0;
    var g2 := Perform(p, g1, b).0;
    var g3 := Perform(p, g2, c).0;
    assert EXPECTED_KEY != "num_pages" by { assert |EXPECTED_KEY| == 20; }
    assert g3.store.hidden[EXPECTED_KEY] == Str(expected);
    PerformNothing(p, g3);
    PerformFirst(p, g2, [c], c, [], g3);
    PerformFirst(p, g1, [b, c], b, [c], g2);
    PerformFirst(p, g, [a, b, c], a, [b, c], g1);
    assert Streamed(p, g3, pages, expected) by {
      NoPage(g, pages, |pages| + 1);
      NoPage(g, pages, |pages| + 2);
      assert g3.store.files == g.store.files;
      forall i | 0 <= i < |pages| ensures PageIn(g3, pages, i) { assert PageIn(g, pages, i); }
    }
  }

  lemma NoPage(g: Guarded, pages: Stream, n: nat)
    requires Stocked(g, pages, |pages|) && n > |pages|
    ensures PagePath(n) !in g.store.files
  {
    hide PagePath, PageDoc;
    if PagePath(n) in g.store.files {
      var j: nat :| j < |pages| && IsPage(PagePath(n), j);
      PagePathInjective(n, j + 1);
    }
  }

  lemma {:induction false} StreamSetup(p: Policy, g: Guarded, pages: Stream, expected: string, i: nat)
    requires i <= |pages| && Stocked(g, pages, i) && AdmitsPages(p)
    ensures NoneDenied(p, g, SetupCalls(pages, expected)[i..])
    ensures Streamed(p, PerformAll(p, g, SetupCalls(pages, expected)[i..]), pages, expected)
    decreases |pages| - i
  {
    hide Stocked, Streamed, Perform, NoneDenied, PerformAll, PagePath, PageDoc, SetupCalls;
    var ops := SetupCalls(pages, expected);
    CallsFrom(pages, expected, i);
    if i == |pages| {
      StreamHidden(p, g, pages, expected);
    } else {
      var op := WriteFile(PagePath(i + 1), PageDoc(i + 1, pages[i]));
      PageWritten(p, g, pages, i);
      StreamSetup(p, Perform(p, g, op).0, pages, expected, i + 1);
      PerformFirst(p, g, ops[i..], op, ops[i + 1..], Perform(p, g, op).0);
    }
  }

  lemma CallsFrom(pages: Stream, expected: string, i: nat)
    requires i <= |pages|
    ensures |SetupCalls(pages, expected)| == |pages| + 3
    ensures SetupCalls(pages, expected)[i..] ==
              if i == |pages| then [SetHidden(EXPECTED_KEY, Str(expected)), SetHidden("num_pages", Int(|pages|)), MarkSeen([])]
              else [WriteFile(PagePath(i + 1), PageDoc(i + 1, pages[i]))] + SetupCalls(pages, expected)[i + 1..]
  {
    hide PagePath, PageDoc;
  }

  // Every run of the agent on its task, for every stream and all budgets: the script alone
  // decides the outcome. With the code on page c (counted from 1) and expected there, the run
  // succeeds at step c + 1; without a code the agent waits, which the schema rejects, at step
  // N + 1 of a stream of N pages; a code that is not the expected one adds a step; less budget
  // ends the run at the gate that closes first.
  lemma StreamRuns(pages: Stream, expected: string, t: Task, clock: int -> string)
    requires t.schema == SCHEMA && Rules(t).Some? && "/stream" in Rules(t).value.roots
    requires t.maxSteps >= 0 && t.maxCalls >= 0
    ensures var end := RunTask(StreamOracles(pages, expected), t, clock, Memory(0, false));
            var n, last := Length(pages, expected), LastExit(pages, expected);
            && end.Finished?
            && (end.art.success <==> Accepted(pages, expected) && t.maxSteps >= n && t.maxCalls >= n)
            && end.exit == ScriptExit(last, n, t.maxSteps, t.maxCalls)
            && end.art.stepsUsed == ScriptSteps(last, n, t.maxSteps, t.maxCalls)
            && (StreamSafe(pages) && ClockSafe(clock) ==> TraceSafe(end.art.trace))
  {
    hide StreamSafe, ClockSafe, Iterate, RunFrom, ExecuteFrom, Perform, NoneDenied, PerformAll, CoreAt, Scripted, SetupCalls, RunAction, Check,
         Streamed, Stocked, RunnerSpec.Rules, ActOf, Accepted, Length, Cores, Balanced, AuditsPermitted;
    var o, p, w := StreamOracles(pages, expected), Rules(t).value, Memory(0, false);
    var ops := SetupCalls(pages, expected);
    StreamRootAdmits(p);
    FreshStocked(pages);
    StreamSetup(p, FRESH_GUARD, pages, expected, 0);
    var g := PerformAll(p, FRESH_GUARD, ops);
    assert ops[0..] == ops;
    ExecuteStraight(p, FRESH_GUARD, ops, w, Returned(Null), []);
    StreamScripted(pages, expected, t, clock, p, g);
    var s := RunnerSpec.Start(t, w, g);
    StreamBegins(pages, expected, t, g);
    RunScript(o, t, clock, p, Cores(pages, expected, g), LastExit(pages, expected), StreamSafe(pages) && ClockSafe(clock), 0, s);
    RunLawful(o, t, clock, w);
  }

  lemma FreshStocked(pages: Stream)
    ensures Stocked(FRESH_GUARD, pages, 0)
  {
  }

  lemma StreamBegins(pages: Stream, expected: string, t: Task, g: Guarded)
    ensures |Cores(pages, expected, g)| == Length(pages, expected) > 0
    ensures At(RunnerSpec.Start(t, Memory(0, false), g), Cores(pages, expected, g)[0])
  {
  }

  // ---- the streams that setup writes ---------------------------------------------------------------

  predicate NoSpace(s: string)
  {
    forall i | 0 <= i < |s| :: !IsSpace(s[i])
  }

  // The entry setup inserts on the critical page.
  function CriticalEntry(code: string): string
  {
    "CRITICAL " + "ingest_failure " + CODE_MARK + code
  }

  lemma {:induction false} WordEndAt(t: string, n: nat)
    requires 0 < n <= |t| && NoSpace(t[..n]) && (n < |t| ==> IsSpace(t[n]))
    ensures !IsSpace(t[0]) && WordEnd(t) == n
    decreases n
  {
    assert t[..n][0] == t[0];
    if n > 1 {
      assert t[..n][1] == t[1];
      assert t[1..][..n - 1] == t[..n][1..];
      WordEndAt(t[1..], n - 1);
    }
  }

  // A word followed by one blank.
  lemma WordsStep(word: string, rest: string)
    requires word != "" && NoSpace(word)
    ensures Words(word + " " + rest) == [word] + Words(" " + rest)
  {
    var t := word + " " + rest;
    assert t[..|word|] == word && t[|word|] == ' ';
    assert t[0] == word[0];
    WordEndAt(t, |word|);
    assert LStrip(t, IsSpace) == t;
    assert t[|word|..] == " " + rest;
  }

  lemma WordsBlank(rest: string)
    requires rest != "" && !IsSpace(rest[0])
    ensures Words(" " + rest) == Words(rest)
  {
    assert (" " + rest)[1..] == rest;
    assert LStrip(" " + rest, IsSpace) == LStrip(rest, IsSpace) == rest;
  }

  lemma WordsLast(word: string)
    requires word != "" && NoSpace(word)
    ensures Words(word) == [word]
  {
    assert word[..|word|] == word && word[|word|..] == "";
    WordEndAt(word, |word|);
    assert Words("") == [];
  }

  lemma CriticalWords(code: string)
    requires NoSpace(code)
    ensures Words(CriticalEntry(code)) == ["CRITICAL", "ingest_failure", CODE_MARK + code]
  {
    hide Words, LStrip, WordEnd;
    var last := CODE_MARK + code;
    var middle := "ingest_failure" + " " + last;
    assert NoSpace(last) && NoSpace("ingest_failure") && NoSpace("CRITICAL");
    assert CriticalEntry(code) == "CRITICAL" + " " + middle;
    WordsStep("CRITICAL", middle);
    WordsBlank(middle);
    WordsStep("ingest_failure", last);
    WordsBlank(last);
    WordsLast(last);
  }

  lemma CriticalMarks(code: string)
    ensures Find(CriticalEntry(code), "CRITICAL") != -1 && Find(CriticalEntry(code), CODE_MARK) != -1
  {
    var e := CriticalEntry(code);
    assert e[0..8] == "CRITICAL";
    assert MatchAt(e, "CRITICAL", 0);
    assert e[24..36] == CODE_MARK;
    assert MatchAt(e, CODE_MARK, 24);
  }

  // Noise does not hide the critical entry: the code comes out as it went in.
  lemma {:induction false} CriticalFound(before: seq<string>, code: string, after: seq<string>)
    requires NoSpace(code)
    requires forall i | 0 <= i < |before| :: Find(before[i], "CRITICAL") == -1
    ensures ExtractCode(before + [CriticalEntry(code)] + after) == Some(code)
  {
    hide Words, Find, CriticalEntry, MatchAt;
    var entries := before + [CriticalEntry(code)] + after;
    if before == [] {
      CriticalWords(code);
      CriticalMarks(code);
      CriticalCode(code);
      assert entries[0] == CriticalEntry(code);
    } else {
      assert entries[0] == before[0];
      assert entries[1..] == before[1..] + [CriticalEntry(code)] + after;
      CriticalFound(before[1..], code, after);
    }
  }

  lemma CriticalCode(code: string)
    ensures CodeInWords(["CRITICAL", "ingest_failure", CODE_MARK + code]) == Some(code)
  {
    var words := ["CRITICAL", "ingest_failure", CODE_MARK + code];
    assert words[1..] == ["ingest_failure", CODE_MARK + code] && words[1..][1..] == [CODE_MARK + code];
    assert CODE_MARK[0] == 'S' && words[0][0] == 'C' && words[1][0] == 'i';
    assert !(CODE_MARK <= words[0]) && !(CODE_MARK <= words[1]);
    assert CodeInWords(words) == CodeInWords(words[1..][1..]);
    assert (CODE_MARK + code)[|CODE_MARK|..] == code;
  }

  // A stream as setup writes it: one critical entry, somewhere on page c + 1.
  ghost predicate Planted(pages: Stream, c: nat, code: string)
  {
    && c < |pages|
    && (forall i, k | 0 <= i < c && 0 <= k < |pages[i]| :: Find(pages[i][k], "CRITICAL") == -1)
    && (exists k | 0 <= k < |pages[c]| ::
          pages[c][k] == CriticalEntry(code) && forall j | 0 <= j < k :: Find(pages[c][j], "CRITICAL") == -1)
  }

  lemma {:induction false} QuietPage(entries: seq<string>)
    requires forall k | 0 <= k < |entries| :: Find(entries[k], "CRITICAL") == -1
    ensures ExtractCode(entries) == None
  {
    hide Find, Words;
    if entries != [] { QuietPage(entries[1..]); }
  }

  // Such a stream has its first code on page c + 1, and it is the planted one.
  lemma PlantedCode(pages: Stream, c: nat, code: string)
    requires Planted(pages, c, code) && NoSpace(code)
    ensures FirstCode(pages) == c && HasCode(pages) && CodeOf(pages) == code
  {
    hide Find, CriticalEntry;
    var k :| 0 <= k < |pages[c]| && pages[c][k] == CriticalEntry(code) && forall j | 0 <= j < k :: Find(pages[c][j], "CRITICAL") == -1;
    var before, after := pages[c][..k], pages[c][k + 1..];
    assert pages[c] == before + [CriticalEntry(code)] + after;
    CriticalFound(before, code, after);
    forall i | 0 <= i < c ensures ExtractCode(pages[i]) == None {
      QuietPage(pages[i]);
    }
  }

  // On the streams that setup writes, the run succeeds exactly when both budgets allow one
  // step for each page up to the critical one and one for the output.
  lemma PlantedSucceeds(pages: Stream, c: nat, code: string, t: Task, clock: int -> string)
    requires Planted(pages, c, code) && NoSpace(code) && code != ""
    requires t.schema == SCHEMA && Rules(t).Some? && "/stream" in Rules(t).value.roots
    requires t.maxSteps >= 0 && t.maxCalls >= 0
    ensures var end := RunTask(StreamOracles(pages, code), t, clock, Memory(0, false));
            && end.Finished?
            && (end.art.success <==> t.maxSteps >= c + 2 && t.maxCalls >= c + 2)
            && (end.art.success ==> end.art.stepsUsed == c + 2)
            && (StreamSafe(pages) && ClockSafe(clock) ==> TraceSafe(end.art.trace))
  {
    hide RunTask, StreamOracles, RunnerSpec.Rules, StreamSafe, ClockSafe, TraceSafe, Planted, FirstCode, NoSpace, CodeOf;
    PlantedCode(pages, c, code);
    StreamRuns(pages, code, t, clock);
  }
}
