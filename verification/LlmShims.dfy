// agent_bench/integrations/llm_shims.py: recorded completions behind a budget.
module LlmShims {
  import opened Values

  // ---- the budget ------------------------------------------------------------------------

  datatype Limits = Limits(maxCalls: Option<int>, maxTokens: Option<int>)

  datatype Usage = Usage(calls: int, tokens: int)

  // int((len(prompt) + len(completion)) * 0.25)
  function EstimateTokens(prompt: string, completion: string): nat
  {
    (|prompt| + |completion|) / 4
  }

  predicate Over(limit: Option<int>, used: int)
  {
    limit.Some? && used > limit.value
  }

  // consume: the new usage, and whether it is within the limits. A call over the call limit
  // is counted, but its tokens are not.
  function Consumed(l: Limits, u: Usage, prompt: string, completion: string): (Usage, bool)
  {
    var counted := u.(calls := u.calls + 1);
    if Over(l.maxCalls, counted.calls) then (counted, false)
    else
      var spent := counted.(tokens := u.tokens + EstimateTokens(prompt, completion));
      (spent, !Over(l.maxTokens, spent.tokens))
  }

  class LLMBudget {
    const limits: Limits
    var callsUsed: int
    var tokensUsed: int

    function Used(): Usage
      reads this
    {
      Usage(callsUsed, tokensUsed)
    }

    constructor (limits: Limits)
      ensures this.limits == limits && Used() == Usage(0, 0)
    {
      this.limits, callsUsed, tokensUsed := limits, 0, 0;
    }

    method Reset()
      modifies this
      ensures Used() == Usage(0, 0)
    {
      callsUsed, tokensUsed := 0, 0;
    }

    method Fork() returns (clone: LLMBudget)
      ensures fresh(clone) && clone.limits == limits && clone.Used() == Usage(0, 0)
    {
      clone := new LLMBudget(limits);
      clone.callsUsed, clone.tokensUsed := callsUsed, tokensUsed;
      clone.Reset();
    }

    // false is the BudgetViolation.
    method Consume(prompt: string, completion: string) returns (ok: bool)
      modifies this
      ensures (Used(), ok) == Consumed(limits, old(Used()), prompt, completion)
    {
      callsUsed := callsUsed + 1;
      if limits.maxCalls.Some? && callsUsed > limits.maxCalls.value {
        return false;
      }
      tokensUsed := tokensUsed + EstimateTokens(prompt, completion);
      if limits.maxTokens.Some? && tokensUsed > limits.maxTokens.value {
        return false;
      }
      ok := true;
    }
  }

  // ---- the shim ----------------------------------------------------------------------------

  datatype Source = Queue(items: seq<string>) | Mapping(entries: map<string, string>)
  {
    predicate Empty()
    {
      match this
      case Queue(items) => items == []
      case Mapping(entries) => entries == map[]
    }
  }

  datatype Shim = Shim(source: Source, limits: Limits, queue: seq<string>, used: Usage)

  // A call: the prompt, and the response_key of its metadata or the hash of the prompt.
  datatype Ask = Ask(prompt: string, key: string)

  datatype Answer = Text(text: string) | Unrecorded | Violation

  function Fresh(source: Source, limits: Limits): Shim
  {
    Shim(source, limits, if source.Queue? then source.items else [], Usage(0, 0))
  }

  // complete
  function Served(s: Shim, ask: Ask): (Shim, Answer)
  {
    if s.source.Mapping? && ask.key !in s.source.entries then (s, Unrecorded)
    else if s.source.Queue? && s.queue == [] then (s, Unrecorded)
    else
      var text := if s.source.Mapping? then s.source.entries[ask.key] else s.queue[0];
      var popped := if s.source.Mapping? then s else s.(queue := s.queue[1..]);
      var consumed := Consumed(s.limits, s.used, ask.prompt, text);
      (popped.(used := consumed.0), if consumed.1 then Text(text) else Violation)
  }

  // DeterministicLLMShim(...): None is the ValueError for empty responses.
  method MakeShim(source: Source, budget: LLMBudget) returns (shim: Option<DeterministicLLMShim>)
    ensures shim.None? <==> source.Empty()
    ensures shim.Some? ==> fresh(shim.value) && fresh(shim.value.budget) && shim.value.State() == Fresh(source, budget.limits)
  {
    if source.Empty() {
      return None;
    }
    var made := new DeterministicLLMShim(source, budget);
    shim := Some(made);
  }

  class DeterministicLLMShim {
    const source: Source
    const template: LLMBudget
    var queue: seq<string>
    var budget: LLMBudget

    ghost function State(): Shim
      reads this, budget
    {
      Shim(source, budget.limits, queue, budget.Used())
    }

    constructor (source: Source, budget: LLMBudget)
      ensures this.source == source && template == budget && fresh(this.budget)
      ensures State() == Fresh(source, budget.limits)
    {
      this.source, template := source, budget;
      queue := if source.Queue? then source.items else [];
      var own := budget.Fork();
      this.budget := own;
    }

    method ResetQueue()
      modifies this`queue
      ensures queue == if source.Queue? then source.items else []
    {
      queue := if source.Queue? then source.items else [];
    }

    method Reset()
      modifies this
      ensures fresh(budget) && State() == Fresh(source, template.limits)
    {
      budget := template.Fork();
      ResetQueue();
    }

    method Complete(ask: Ask) returns (answer: Answer)
      modifies this`queue, budget
      ensures budget == old(budget)
      ensures (State(), answer) == Served(old(State()), ask)
    {
      var text;
      if source.Mapping? {
        if ask.key !in source.entries {
          return Unrecorded;
        }
        text := source.entries[ask.key];
      } else {
        if queue == [] {
          return Unrecorded;
        }
        text := queue[0];
        queue := queue[1..];
      }
      var ok := budget.Consume(ask.prompt, text);
      answer := if ok then Text(text) else Violation;
    }
  }

  // ---- histories between resets -----------------------------------------------------------------

  function Session(s: Shim, asks: seq<Ask>): (Shim, seq<Answer>)
  {
    if asks == [] then (s, [])
    else
      var before := Session(s, asks[..|asks| - 1]);
      var last := Served(before.0, asks[|asks| - 1]);
      (last.0, before.1 + [last.1])
  }

  // The texts of the answers that are texts.
  function Texts(answers: seq<Answer>): seq<string>
  {
    if answers == [] then []
    else Texts(answers[..|answers| - 1]) + (if answers[|answers| - 1].Text? then [answers[|answers| - 1].text] else [])
  }

  // The estimates of the calls that were answered.
  function Spent(asks: seq<Ask>, answers: seq<Answer>): nat
    requires |asks| == |answers|
  {
    if asks == [] then 0
    else
      var n := |asks| - 1;
      Spent(asks[..n], answers[..n])
      + (if answers[n].Text? then EstimateTokens(asks[n].prompt, answers[n].text) else 0)
  }

  // The state of a session that has not been cut off: the queue lost exactly the returned
  // texts, and the usage is what the answered calls add up to.
  predicate OnBudget(start: Shim, now: Shim, asks: seq<Ask>, answers: seq<Answer>)
    requires |asks| == |answers|
  {
    && (start.source.Queue? ==> start.queue == Texts(answers) + now.queue)
    && now.used == Usage(|Texts(answers)|, Spent(asks, answers))
    && !Over(now.limits.maxCalls, now.used.calls) && !Over(now.limits.maxTokens, now.used.tokens)
  }

  // A cut-off state: the next call that finds a response violates the budget.
  predicate CutOff(s: Shim)
  {
    Over(s.limits.maxCalls, s.used.calls) || Over(s.limits.maxTokens, s.used.tokens)
  }

  // No limit is negative: only then is a fresh shim within its budget.
  predicate Sensible(l: Limits)
  {
    !Over(l.maxCalls, 0) && !Over(l.maxTokens, 0)
  }

  lemma {:induction false} SessionLength(s: Shim, asks: seq<Ask>)
    ensures |Session(s, asks).1| == |asks|
    ensures Session(s, asks).0.source == s.source && Session(s, asks).0.limits == s.limits
  {
    if asks != [] { SessionLength(s, asks[..|asks| - 1]); }
  }

  // A cut-off shim stays cut off and answers nothing more.
  lemma CutOffForever(s: Shim, ask: Ask)
    requires CutOff(s)
    ensures CutOff(Served(s, ask).0) && !Served(s, ask).1.Text?
  {
  }

  // Violations are exactly what cuts a session off.
  lemma ViolationCutsOff(s: Shim, ask: Ask)
    requires !CutOff(s)
    ensures CutOff(Served(s, ask).0) <==> Served(s, ask).1.Violation?
  {
  }

  // Every session of a fresh shim: until a violation the answers are a beginning of the
  // recorded queue and the usage is within the limits; a violation cuts the session off.
  lemma {:induction false} SessionInvariant(source: Source, limits: Limits, asks: seq<Ask>)
    requires Sensible(limits)
    ensures var start := Fresh(source, limits);
            var r := Session(start, asks);
            && |r.1| == |asks|
            && (Violation !in r.1 ==> OnBudget(start, r.0, asks, r.1))
            && (Violation in r.1 ==> CutOff(r.0))
  {
    hide EstimateTokens;
    var start := Fresh(source, limits);
    SessionLength(start, asks);
    if asks == [] {
      assert Session(start, asks) == (start, []);
    } else {
      var n := |asks| - 1;
      SessionInvariant(source, limits, asks[..n]);
      SessionLength(start, asks[..n]);
      var before := Session(start, asks[..n]);
      var r := Session(start, asks);
      assert r.1[..n] == before.1 && r.1[n] == Served(before.0, asks[n]).1;
      if Violation in before.1 {
        CutOffForever(before.0, asks[n]);
      } else {
        ViolationCutsOff(before.0, asks[n]);
        NextOnBudget(start, before.0, asks, before.1);
      }
    }
  }

  lemma NextOnBudget(start: Shim, now: Shim, asks: seq<Ask>, answers: seq<Answer>)
    requires |asks| == |answers| + 1 && OnBudget(start, now, asks[..|answers|], answers)
    requires start.source == now.source
    ensures var r := Served(now, asks[|answers|]);
            !r.1.Violation? ==> OnBudget(start, r.0, asks, answers + [r.1])
  {
    hide EstimateTokens;
    var n := |answers|;
    var r := Served(now, asks[n]);
    var all := answers + [r.1];
    assert all[..n] == answers && all[n] == r.1;
    if r.1.Text? && start.source.Queue? {
      assert Texts(answers) + now.queue == Texts(answers) + [now.queue[0]] + now.queue[1..];
    }
  }

  lemma {:induction false} SessionPrefix(s: Shim, asks: seq<Ask>, n: nat)
    requires n <= |asks|
    ensures |Session(s, asks).1| == |asks| && Session(s, asks[..n]).1 == Session(s, asks).1[..n]
  {
    SessionLength(s, asks);
    SessionLength(s, asks[..n]);
    if n < |asks| {
      SessionPrefix(s, asks[..|asks| - 1], n);
      assert asks[..|asks| - 1][..n] == asks[..n];
    } else {
      assert asks[..n] == asks;
    }
  }

  // What a caller may rely on between two resets: texts come in recorded order without gaps,
  // there are at most max_calls of them, they cost at most max_tokens together, and after a
  // violation there is none.
  lemma SessionSafe(source: Source, limits: Limits, asks: seq<Ask>)
    requires Sensible(limits)
    ensures var r := Session(Fresh(source, limits), asks);
            && |r.1| == |asks|
            && WithinBudget(source, limits, asks, r.1)
            && forall i, j | 0 <= i < j < |asks| && r.1[i].Violation? :: !r.1[j].Text?
  {
    hide EstimateTokens, Served, WithinBudget;
    var start := Fresh(source, limits);
    var r := Session(start, asks);
    SessionInvariant(source, limits, asks);
    forall i, j | 0 <= i < j < |asks| && r.1[i].Violation? ensures !r.1[j].Text? {
      QuietAfter(source, limits, asks, i, j);
    }
    if Violation in r.1 {
      var k := FirstViolation(r.1);
      SessionPrefix(start, asks, k);
      UncutSafe(source, limits, asks[..k]);
      assert forall j | k <= j < |asks| :: !r.1[j].Text?;
      TextsUpTo(asks, r.1, k);
      SameTotals(source, limits, asks, r.1, k);
    } else {
      UncutSafe(source, limits, asks);
    }
  }

  // The texts come in recorded order without gaps and stay within the limits.
  predicate WithinBudget(source: Source, limits: Limits, asks: seq<Ask>, answers: seq<Answer>)
    requires |asks| == |answers|
  {
    && (source.Queue? ==> Texts(answers) <= source.items)
    && (limits.maxCalls.Some? ==> |Texts(answers)| <= limits.maxCalls.value)
    && (limits.maxTokens.Some? ==> Spent(asks, answers) <= limits.maxTokens.value)
  }

  lemma SameTotals(source: Source, limits: Limits, asks: seq<Ask>, answers: seq<Answer>, k: nat)
    requires |asks| == |answers| && k <= |answers| && WithinBudget(source, limits, asks[..k], answers[..k])
    requires Texts(answers) == Texts(answers[..k]) && Spent(asks, answers) == Spent(asks[..k], answers[..k])
    ensures WithinBudget(source, limits, asks, answers)
  {
    hide Texts, Spent;
  }

  lemma UncutSafe(source: Source, limits: Limits, asks: seq<Ask>)
    requires Sensible(limits) && Violation !in Session(Fresh(source, limits), asks).1
    ensures |Session(Fresh(source, limits), asks).1| == |asks|
    ensures WithinBudget(source, limits, asks, Session(Fresh(source, limits), asks).1)
  {
    hide Texts, Spent, Served, Session;
    SessionInvariant(source, limits, asks);
    SessionLength(Fresh(source, limits), asks);
  }

  // The answer at j is what the shim serves in the state the calls before it leave.
  lemma SessionStep(s: Shim, asks: seq<Ask>, j: nat)
    requires j < |asks|
    ensures var r, before := Session(s, asks), Session(s, asks[..j]);
            |r.1| == |asks| && |before.1| == j && before.1 == r.1[..j] && r.1[j] == Served(before.0, asks[j]).1
  {
    hide Served;
    SessionPrefix(s, asks, j);
    SessionPrefix(s, asks, j + 1);
    assert asks[..j + 1][..j] == asks[..j];
    assert Session(s, asks[..j + 1]).1[j] == Served(Session(s, asks[..j]).0, asks[j]).1;
  }

  lemma QuietAfter(source: Source, limits: Limits, asks: seq<Ask>, i: nat, j: nat)
    requires Sensible(limits) && i < j < |asks|
    ensures var r := Session(Fresh(source, limits), asks);
            |r.1| == |asks| && (r.1[i].Violation? ==> !r.1[j].Text?)
  {
    hide Served, Session, CutOff, OnBudget, Fresh, Sensible;
    var start := Fresh(source, limits);
    SessionStep(start, asks, j);
    SessionInvariant(source, limits, asks[..j]);
    var before := Session(start, asks[..j]);
    if Session(start, asks).1[i].Violation? {
      assert before.1[i] == Violation;
      CutOffForever(before.0, asks[j]);
    }
  }

  function FirstViolation(answers: seq<Answer>): (k: nat)
    requires Violation in answers
    ensures k < |answers| && answers[k] == Violation && Violation !in answers[..k]
  {
    if Violation in answers[..|answers| - 1] then
      var k := FirstViolation(answers[..|answers| - 1]);
      assert answers[..|answers| - 1][..k] == answers[..k];
      k
    else
      assert answers == answers[..|answers| - 1] + [answers[|answers| - 1]];
      |answers| - 1
  }

  // Answers without texts add nothing.
  lemma {:induction false} TextsUpTo(asks: seq<Ask>, answers: seq<Answer>, k: nat)
    requires |asks| == |answers| && k <= |answers|
    requires forall j | k <= j < |answers| :: !answers[j].Text?
    ensures Texts(answers) == Texts(answers[..k]) && Spent(asks, answers) == Spent(asks[..k], answers[..k])
  {
    if k < |answers| {
      var n := |answers| - 1;
      TextsUpTo(asks[..n], answers[..n], k);
      assert answers[..n][..k] == answers[..k] && asks[..n][..k] == asks[..k];
    } else {
      assert answers[..k] == answers && asks[..k] == asks;
    }
  }

  // A mapping answers with the recorded text of the key.
  lemma {:induction false} MappingAnswers(source: Source, limits: Limits, asks: seq<Ask>)
    requires source.Mapping?
    ensures var r := Session(Fresh(source, limits), asks);
            && |r.1| == |asks|
            && forall i | 0 <= i < |asks| ::
              && (r.1[i].Unrecorded? <==> asks[i].key !in source.entries)
              && (r.1[i].Text? ==> r.1[i].text == source.entries[asks[i].key])
  {
    hide Consumed;
    SessionLength(Fresh(source, limits), asks);
    if asks != [] {
      MappingAnswers(source, limits, asks[..|asks| - 1]);
      SessionLength(Fresh(source, limits), asks[..|asks| - 1]);
    }
  }

  // ---- exactly when a call is answered -------------------------------------------------------

  // A quarter of the characters, rounded down.
  lemma EstimateMeans(prompt: string, completion: string)
    ensures var n := EstimateTokens(prompt, completion); 4 * n <= |prompt| + |completion| < 4 * n + 4
  {
  }

  // The response recorded for a call, if there is one.
  function Recorded(s: Shim, ask: Ask): Option<string>
  {
    match s.source
    case Queue(_) => if s.queue == [] then None else Some(s.queue[0])
    case Mapping(entries) => if ask.key in entries then Some(entries[ask.key]) else None
  }

  // A call costs nothing when nothing is recorded. Else it is counted, its response leaves the
  // queue, and it is answered exactly when neither its number nor its tokens pass a limit; the
  // tokens of a call past the call limit are not counted.
  lemma ServedIff(s: Shim, ask: Ask)
    ensures var r := Served(s, ask);
            var found := Recorded(s, ask);
            && (found.None? ==> r == (s, Unrecorded))
            && (found.Some? ==>
                  var tokens := s.used.tokens + EstimateTokens(ask.prompt, found.value);
                  var calls := s.limits.maxCalls.Some? ==> s.used.calls < s.limits.maxCalls.value;
                  && r.1 == (if calls && (s.limits.maxTokens.Some? ==> tokens <= s.limits.maxTokens.value) then Text(found.value) else Violation)
                  && r.0.used == Usage(s.used.calls + 1, if calls then tokens else s.used.tokens)
                  && r.0.queue == (if s.source.Queue? then s.queue[1..] else s.queue)
                  && r.0.source == s.source && r.0.limits == s.limits)
  {
    hide EstimateTokens;
  }

  // The tokens of the first n calls when the queue answers them in order.
  function Cost(items: seq<string>, asks: seq<Ask>, n: nat): nat
    requires n <= |items| && n <= |asks|
  {
    if n == 0 then 0 else Cost(items, asks, n - 1) + EstimateTokens(asks[n - 1].prompt, items[n - 1])
  }

  // The first n calls fit into queue and limits.
  predicate Affordable(items: seq<string>, limits: Limits, asks: seq<Ask>, n: nat)
    requires n <= |asks|
  {
    && n <= |items|
    && (limits.maxCalls.Some? ==> n <= limits.maxCalls.value)
    && (limits.maxTokens.Some? ==> Cost(items, asks, n) <= limits.maxTokens.value)
  }

  // A queue answers n calls, each with the next recorded text, exactly when they fit: the
  // budget cuts off no call before its limit and none behind it slips through.
  lemma {:induction false} QueueAnswersIff(items: seq<string>, limits: Limits, asks: seq<Ask>)
    requires Sensible(limits)
    ensures var r := Session(Fresh(Queue(items), limits), asks);
            && |r.1| == |asks|
            && ((forall i | 0 <= i < |asks| :: r.1[i].Text?) <==> Affordable(items, limits, asks, |asks|))
            && (Affordable(items, limits, asks, |asks|) ==>
                  && (forall i | 0 <= i < |asks| :: r.1[i] == Text(items[i]))
                  && r.0.queue == items[|asks|..] && r.0.used == Usage(|asks|, Cost(items, asks, |asks|)))
  {
    hide EstimateTokens, Served, Recorded;
    var start := Fresh(Queue(items), limits);
    SessionLength(start, asks);
    if asks != [] {
      var n := |asks| - 1;
      QueueAnswersIff(items, limits, asks[..n]);
      CostPrefix(items, asks, n);
      SessionLength(start, asks[..n]);
      var before, r := Session(start, asks[..n]), Session(start, asks);
      assert r.1[..n] == before.1 && r.1[n] == Served(before.0, asks[n]).1;
      assert (forall i | 0 <= i < |asks| :: r.1[i].Text?) <==> (forall i | 0 <= i < n :: before.1[i].Text?) && r.1[n].Text?;
      ServedIff(before.0, asks[n]);
      NextInQueue(before.0, asks[n]);
    }
  }

  lemma NextInQueue(s: Shim, ask: Ask)
    requires s.source.Queue?
    ensures Recorded(s, ask) == if s.queue == [] then None else Some(s.queue[0])
  {
  }

  lemma {:induction false} CostPrefix(items: seq<string>, asks: seq<Ask>, n: nat)
    requires n <= |asks|
    ensures forall k | 0 <= k <= n && k <= |items| :: Cost(items, asks[..n], k) == Cost(items, asks, k)
  {
    hide EstimateTokens;
    forall k | 0 <= k <= n && k <= |items| ensures Cost(items, asks[..n], k) == Cost(items, asks, k) {
      CostStays(items, asks, n, k);
    }
  }

  lemma {:induction false} CostStays(items: seq<string>, asks: seq<Ask>, n: nat, k: nat)
    requires k <= n <= |asks| && k <= |items|
    ensures Cost(items, asks[..n], k) == Cost(items, asks, k)
  {
    if k > 0 { CostStays(items, asks, n, k - 1); }
  }
}
