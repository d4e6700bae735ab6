// agent_bench/runner/budgets.py
module Budgets {
  import opened Values

  class Budgets {
    var stepsRemaining: int
    var toolCallsRemaining: int
    const timeout: Option<real>
    const startTime: real

    constructor (steps: int, toolCalls: int, timeout: Option<real>, now: real)
      ensures stepsRemaining == steps && toolCallsRemaining == toolCalls
      ensures this.timeout == timeout && startTime == now
    {
      stepsRemaining, toolCallsRemaining := steps, toolCalls;
      this.timeout, startTime := timeout, now;
    }

    method ConsumeStep()
      modifies this`stepsRemaining
      ensures stepsRemaining == old(stepsRemaining) - 1
    {
      stepsRemaining := stepsRemaining - 1;
    }

    method ConsumeToolCall()
      modifies this`toolCallsRemaining
      ensures toolCallsRemaining == old(toolCallsRemaining) - 1
    {
      toolCallsRemaining := toolCallsRemaining - 1;
    }

    predicate TimedOut(now: real)
    {
      timeout.Some? && now - startTime > timeout.value
    }

    predicate Exhausted(now: real)
      reads this
    {
      stepsRemaining < 0 || toolCallsRemaining < 0 || TimedOut(now)
    }
  }
}
