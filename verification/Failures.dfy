// agent_bench/runner/failures.py: the failure taxonomy.
module Failures {
  import opened Values

  predicate IsFailureType(name: string)
  {
    name in ["budget_exhausted", "invalid_action", "sandbox_violation", "logic_failure", "timeout", "non_termination"]
  }

  predicate IsTaxonomy(j: Json)
  {
    j.Str? && IsFailureType(j.s)
  }

  const TERMINATION_TO_FAILURE: map<string, string> := map[
    "timeout" := "timeout",
    "steps_exhausted" := "budget_exhausted",
    "tool_calls_exhausted" := "budget_exhausted",
    "invalid_action" := "invalid_action",
    "action_exception" := "invalid_action",
    "sandbox_violation" := "sandbox_violation",
    "non_termination" := "non_termination",
    "logic_failure" := "logic_failure"]

  // Every classification lands in the taxonomy, whatever the termination reason says.
  function ClassifyFailure(termination: string): (f: string)
    ensures IsFailureType(f)
  {
    if termination in TERMINATION_TO_FAILURE then TERMINATION_TO_FAILURE[termination] else "logic_failure"
  }

  // validate_failure_type; the error is the ValueError.
  function ValidateFailureType(success: bool, failureType: Json): Result<Json, string>
  {
    if success then Ok(Null)
    else if IsTaxonomy(failureType) then Ok(failureType)
    else Err("failure_type must be one of the taxonomy when success=False")
  }

  // ensure_failure_type on the three payload keys it reads: the failure_type it stores.
  function EnsureFailureType(success: bool, failureType: Json, termination: string): Result<Json, string>
  {
    if success then Ok(Null)
    else ValidateFailureType(false, if failureType.Truthy() then failureType else Str(ClassifyFailure(termination)))
  }

  // ensure_failure_type accepts and keeps a payload exactly when its failure type is
  // already what the taxonomy asks for.
  lemma EnsureKeeps(success: bool, failureType: Json, termination: string)
    ensures EnsureFailureType(success, failureType, termination) == Ok(failureType)
            <==> (if success then failureType == Null else IsTaxonomy(failureType))
  {
  }

  // Both budgets count as exhausted, an exception as an invalid action, any other reason of
  // the taxonomy as itself; what is unknown is a logic failure.
  lemma ClassifyMeans(termination: string)
    ensures ClassifyFailure(termination) ==
              if termination == "steps_exhausted" || termination == "tool_calls_exhausted" then "budget_exhausted"
              else if termination == "action_exception" then "invalid_action"
              else if termination in ["invalid_action", "sandbox_violation", "timeout", "non_termination"] then termination
              else "logic_failure"
  {
  }

  // A missing failure type is filled in from the termination reason; one outside the taxonomy
  // raises.
  lemma EnsureFills(failureType: Json, termination: string)
    ensures !failureType.Truthy() ==> EnsureFailureType(false, failureType, termination) == Ok(Str(ClassifyFailure(termination)))
    ensures failureType.Truthy() ==> (EnsureFailureType(false, failureType, termination).Ok? <==> IsTaxonomy(failureType))
    ensures EnsureFailureType(true, failureType, termination) == Ok(Null)
  {
  }
}
