/** `_with_retry`: how many attempts a table call gets and how its last answer is reported. */
module Retry {
  datatype Answer = Succeeded | TimedOut | Http(status: int)

  datatype Report = Value | ConflictError | UnavailableError

  /** A timeout or HTTP 429/5xx is retried, a 409/412 conflict never is. */
  predicate IsRetryable(a: Answer) {
    match a
    case Succeeded => false
    case TimedOut => true
    case Http(status) => status !in {409, 412} && (status == 429 || status >= 500)
  }

  /** By status alone: throttling and server errors, and no conflict is among them. */
  lemma RetryableIff(status: int)
    ensures IsRetryable(Http(status)) <==> status == 429 || status >= 500
    ensures IsRetryable(TimedOut) && !IsRetryable(Succeeded)
    ensures IsConflict(Http(status)) <==> status == 409 || status == 412
    ensures ReportOf(Http(status)) == ConflictError <==> status in {409, 412}
    ensures ReportOf(TimedOut) == UnavailableError && ReportOf(Succeeded) == Value
  {
  }

  predicate IsConflict(a: Answer) { a == Http(409) || a == Http(412) }

  function ReportOf(a: Answer): Report {
    if a.Succeeded? then Value else if IsConflict(a) then ConflictError else UnavailableError
  }

  /** The attempts end with the first answer that may not be retried, or with the budget.
      `answers` is what the backend would say to each attempt. */
  method WithRetry(answers: seq<Answer>, maxAttempts: nat) returns (report: Report, used: nat)
    requires 0 < maxAttempts <= |answers|
    ensures 1 <= used <= maxAttempts
    ensures forall i :: 0 <= i < used - 1 ==> IsRetryable(answers[i])
    ensures used < maxAttempts ==> !IsRetryable(answers[used - 1])
    ensures report == ReportOf(answers[used - 1])
  {
    used := 1;
    while IsRetryable(answers[used - 1]) && used < maxAttempts
      invariant 1 <= used <= maxAttempts
      invariant forall i :: 0 <= i < used - 1 ==> IsRetryable(answers[i])
    {
      used := used + 1;
    }
    match answers[used - 1] {
      case Succeeded => report := Value;
      case TimedOut => report := UnavailableError;
      case Http(status) =>
        if status == 409 || status == 412 { report := ConflictError; } else { report := UnavailableError; }
    }
  }

  /** A conflict is reported exactly when some attempt within the budget met one after nothing
      but retryable answers; in particular a write that landed behind a timeout and is retried
      is reported as a conflict. */
  lemma ConflictReported(answers: seq<Answer>, maxAttempts: nat, used: nat)
    requires 0 < maxAttempts <= |answers| && 1 <= used <= maxAttempts
    requires forall i :: 0 <= i < used - 1 ==> IsRetryable(answers[i])
    requires used < maxAttempts ==> !IsRetryable(answers[used - 1])
    ensures ReportOf(answers[used - 1]) == ConflictError <==>
              exists k :: 0 <= k < maxAttempts && IsConflict(answers[k])
                && forall i :: 0 <= i < k ==> IsRetryable(answers[i])
  {
    if k :| 0 <= k < maxAttempts && IsConflict(answers[k]) && forall i :: 0 <= i < k ==> IsRetryable(answers[i]) {
      assert k == used - 1;
    }
  }
}
