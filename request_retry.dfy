/** The retry loop around an HTTP call to MusePay. Each attempt either throws in the client or
    yields a response. A 2xx response ends the loop with its decoded body. A non-2xx response
    is turned into an exception inside the same `try`, so it is caught and retried exactly like
    a transport failure. After failed attempt `k` the loop sleeps `2^k` seconds when another
    attempt remains. */
module RequestRetry {
  import opened Wrappers
  import opened PhpValue

  /** What one attempt yields: the client throws with a message, or a response arrives with
      its status and its body decoded from JSON (`Null` when the body is not JSON). */
  datatype Outcome = Thrown(message: string) | Responded(status: int, body: Value)

  /** One HTTP call as the client is asked to make it. */
  datatype Request = Request(verb: string, url: string, payload: Array, timeout: int)

  /** `$response->successful()`. */
  predicate Successful(status: int) {
    200 <= status < 300
  }

  const UnknownError: string := "Unknown error"

  /** `handleErrorResponse`: the body's `message`, else its `error`, else "Unknown error",
      after the status, in the message of the exception it throws. */
  function ErrorMessage(status: int, body: Value): (m: string)
    ensures forall s :: Index(body, "message") == Some(Str(s)) ==>
              m == "API request failed with status " + IntToString(status) + ": " + s
    ensures forall s :: Index(body, "message").None? && Index(body, "error") == Some(Str(s)) ==>
              m == "API request failed with status " + IntToString(status) + ": " + s
    ensures Index(body, "message").None? && Index(body, "error").None? ==>
              m == "API request failed with status " + IntToString(status) + ": " + UnknownError
  {
    var errorMessage := Index(body, "message").OrElse(Index(body, "error")).UnwrapOr(Str(UnknownError));
    "API request failed with status " + IntToString(status) + ": " + ToPhpString(errorMessage)
  }

  /** How an attempt leaves the `try`: by returning a body, by an error the `catch` does not
      take (a type error, which is not an `\Exception`), or by an exception it catches. */
  datatype Step = Returned(body: Array) | Escaped(error: string) | Caught(message: string)

  function Classify(o: Outcome): (s: Step)
    ensures s.Caught? <==> o.Thrown? || !Successful(o.status)
    ensures o.Thrown? ==> s == Caught(o.message)
    ensures o.Responded? && !Successful(o.status) ==> s == Caught(ErrorMessage(o.status, o.body))
    ensures s.Returned? <==> o.Responded? && Successful(o.status) && o.body.Arr?
    ensures s.Returned? ==> s.body == o.body.entries
    ensures s.Escaped? ==> s.error == TypeError
  {
    match o
    case Thrown(message) => Caught(message)
    case Responded(status, body) =>
      if !Successful(status) then Caught(ErrorMessage(status, body))
      else if body.Arr? then Returned(body.entries)
      else Escaped(TypeError)
  }

  /** The exception thrown once the attempts are used up. */
  function Exhausted(retryAttempts: int, last: Option<string>): string {
    "API request failed after " + IntToString(retryAttempts) + " attempts: " + last.UnwrapOr(UnknownError)
  }

  function Pow2(k: nat): (p: nat)
    ensures p >= 1
  {
    if k == 0 then 1 else 2 * Pow2(k - 1)
  }

  /** What the loop does: its result, how many HTTP calls it made, and the seconds it slept. */
  datatype Run = Run(result: Result<Array, string>, calls: nat, sleeps: seq<nat>)

  /** The loop entered with `$attempt == attempt` and `$lastException` carrying `last`. A
      call is made only while `attempt < retryAttempts`, each sleep follows a caught attempt
      that is not the last, and the `k`-th sleep from here lasts `2^(attempt + k + 1)`. */
  function RunFrom(retryAttempts: int, outcomes: nat -> Outcome, attempt: nat, last: Option<string>): (r: Run)
    decreases retryAttempts - attempt
    ensures attempt >= retryAttempts ==> r == Run(Err(Exhausted(retryAttempts, last)), 0, [])
    ensures attempt < retryAttempts ==> 1 <= r.calls <= retryAttempts - attempt
    ensures |r.sleeps| == if r.calls == 0 then 0 else r.calls - 1
    ensures forall j :: 0 <= j < |r.sleeps| ==> r.sleeps[j] == Pow2(attempt + j + 1)
  {
    if attempt >= retryAttempts then Run(Err(Exhausted(retryAttempts, last)), 0, [])
    else
      match Classify(outcomes(attempt))
      case Returned(body) => Run(Ok(body), 1, [])
      case Escaped(error) => Run(Err(error), 1, [])
      case Caught(message) =>
        var rest := RunFrom(retryAttempts, outcomes, attempt + 1, Some(message));
        var pause := if attempt + 1 < retryAttempts then [Pow2(attempt + 1)] else [];
        Run(rest.result, rest.calls + 1, pause + rest.sleeps)
  }

  /** The whole loop, from no attempt and no exception. */
  function Retried(retryAttempts: int, outcomes: nat -> Outcome): (r: Run)
    ensures r.calls <= if retryAttempts <= 0 then 0 else retryAttempts
    ensures retryAttempts <= 0 ==> r == Run(Err(Exhausted(retryAttempts, None)), 0, [])
    ensures |r.sleeps| < (if retryAttempts <= 0 then 1 else retryAttempts)
    ensures forall j :: 0 <= j < |r.sleeps| ==> r.sleeps[j] == Pow2(j + 1)
  {
    RunFrom(retryAttempts, outcomes, 0, None)
  }

  /** The loop state `(attempt, last, sleeps so far)` seen as the run it leads to. */
  function Continue(retryAttempts: int, outcomes: nat -> Outcome, attempt: nat, last: Option<string>,
                    slept: seq<nat>): Run {
    var rest := RunFrom(retryAttempts, outcomes, attempt, last);
    Run(rest.result, attempt + rest.calls, slept + rest.sleeps)
  }

  /** A caught attempt moves the loop on by one call and at most one sleep, and leads to the
      same run. */
  lemma CaughtStep(retryAttempts: int, outcomes: nat -> Outcome, attempt: nat, last: Option<string>,
                   slept: seq<nat>, message: string)
    requires attempt < retryAttempts && Classify(outcomes(attempt)) == Caught(message)
    ensures Continue(retryAttempts, outcomes, attempt, last, slept) ==
            Continue(retryAttempts, outcomes, attempt + 1, Some(message),
                     slept + if attempt + 1 < retryAttempts then [Pow2(attempt + 1)] else [])
  {
    var rest := RunFrom(retryAttempts, outcomes, attempt + 1, Some(message));
    var pause := if attempt + 1 < retryAttempts then [Pow2(attempt + 1)] else [];
    assert slept + (pause + rest.sleeps) == (slept + pause) + rest.sleeps;
  }

  /** The first attempt that is not caught decides the result: a 2xx array body is returned,
      a 2xx body that is not an array escapes as a type error, and nothing after it is tried. */
  lemma {:induction false} FirstUncaughtDecides(retryAttempts: int, outcomes: nat -> Outcome, attempt: nat,
                                                last: Option<string>, k: nat)
    requires attempt <= k < retryAttempts
    requires forall i :: attempt <= i < k ==> Classify(outcomes(i)).Caught?
    requires !Classify(outcomes(k)).Caught?
    ensures RunFrom(retryAttempts, outcomes, attempt, last).calls == k - attempt + 1
    ensures Classify(outcomes(k)).Returned? ==>
              RunFrom(retryAttempts, outcomes, attempt, last).result == Ok(Classify(outcomes(k)).body)
    ensures Classify(outcomes(k)).Escaped? ==>
              RunFrom(retryAttempts, outcomes, attempt, last).result == Err(Classify(outcomes(k)).error)
    decreases k - attempt
  {
    if attempt < k {
      FirstUncaughtDecides(retryAttempts, outcomes, attempt + 1, Some(Classify(outcomes(attempt)).message), k);
    }
  }

  /** `makeRequest` returns the decoded body of the first 2xx response with an array body,
      after as many calls as it took to get there. */
  lemma FirstSuccessReturned(retryAttempts: int, outcomes: nat -> Outcome, k: nat)
    requires k < retryAttempts
    requires forall i :: 0 <= i < k ==> Classify(outcomes(i)).Caught?
    requires outcomes(k).Responded? && Successful(outcomes(k).status) && outcomes(k).body.Arr?
    ensures Retried(retryAttempts, outcomes).result == Ok(outcomes(k).body.entries)
    ensures Retried(retryAttempts, outcomes).calls == k + 1
  {
    FirstUncaughtDecides(retryAttempts, outcomes, 0, None, k);
  }

  /** When every attempt is caught, all `retryAttempts` calls are made, the loop sleeps
      `2, 4, …, 2^(retryAttempts - 1)` seconds, and the final exception quotes the last one. */
  lemma {:induction false} AllCaughtExhausts(retryAttempts: int, outcomes: nat -> Outcome, attempt: nat,
                                             last: Option<string>)
    requires attempt < retryAttempts
    requires forall i :: attempt <= i < retryAttempts ==> Classify(outcomes(i)).Caught?
    ensures RunFrom(retryAttempts, outcomes, attempt, last).calls == retryAttempts - attempt
    ensures RunFrom(retryAttempts, outcomes, attempt, last).result ==
              Err(Exhausted(retryAttempts, Some(Classify(outcomes(retryAttempts - 1)).message)))
    decreases retryAttempts - attempt
  {
    if attempt + 1 < retryAttempts {
      AllCaughtExhausts(retryAttempts, outcomes, attempt + 1, Some(Classify(outcomes(attempt)).message));
    }
  }

  lemma AllFailedMessage(retryAttempts: int, outcomes: nat -> Outcome)
    requires 0 < retryAttempts
    requires forall i :: 0 <= i < retryAttempts ==> Classify(outcomes(i)).Caught?
    ensures Retried(retryAttempts, outcomes).calls == retryAttempts
    ensures |Retried(retryAttempts, outcomes).sleeps| == retryAttempts - 1
    ensures Retried(retryAttempts, outcomes).result ==
              Err("API request failed after " + IntToString(retryAttempts) + " attempts: " +
                  Classify(outcomes(retryAttempts - 1)).message)
  {
    AllCaughtExhausts(retryAttempts, outcomes, 0, None);
  }

  /** A non-2xx status is retried like a transport failure: a 500 answer followed by a 200
      answer with an array body succeeds on the second call, after one two-second sleep. */
  lemma ErrorStatusRetried(retryAttempts: int, outcomes: nat -> Outcome, failed: Value, body: Array)
    requires 2 <= retryAttempts
    requires outcomes(0) == Responded(500, failed)
    requires outcomes(1) == Responded(200, Arr(body))
    ensures Retried(retryAttempts, outcomes) == Run(Ok(body), 2, [2])
  {
    FirstSuccessReturned(retryAttempts, outcomes, 1);
  }

  /** A 2xx response whose body is not a JSON array ends the loop at once with a type error:
      it is not retried even when attempts remain. */
  lemma NonArrayBodyNotRetried(retryAttempts: int, outcomes: nat -> Outcome, status: int, body: Value)
    requires 1 <= retryAttempts
    requires outcomes(0) == Responded(status, body) && Successful(status) && !body.Arr?
    ensures Retried(retryAttempts, outcomes) == Run(Err(TypeError), 1, [])
  {
  }
}
