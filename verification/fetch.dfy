/**
  The retry loop of `fetchPatientData`. Each request attempt is an abstract
  outcome, data or an error message, supplied by the environment in order;
  waits are recorded as durations in milliseconds instead of being slept.
 */
module Fetch {

  import opened Wrappers
  import opened Numerals

  /** What one request attempt produced: the decoded `data` array, or the message of the error it raised. */
  datatype Attempt<T> = Ok(data: T) | Err(message: string)

  /** The error a page request finally throws. */
  datatype FetchError =
    | Exhausted(claimedAttempts: int, cause: string)  // "Failed after <n> attempts: <cause>"
    | Rethrown(message: string)                       // the last attempt's own error
    | NoAttempt                                       // no attempt was made

  /** How a page request ends: with data, or by throwing. */
  datatype Response<T> = Returned(data: T) | Thrown(error: FetchError)

  /** A page request: its response, how many attempts it made and the waits between them. */
  datatype FetchRun<T> = FetchRun(response: Response<T>, attempts: nat, waits: seq<nat>)

  const NoAttemptMessage := "Failed to fetch patient data after all retries"

  /** The text of the thrown error; an exhausted request's message ends with the last cause. */
  function Message(e: FetchError): (s: string)
    ensures e.Exhausted? ==> |s| > |e.cause| && s[|s| - |e.cause|..] == e.cause
    ensures e.Rethrown? ==> s == e.message
  {
    match e
    case Exhausted(n, cause) => "Failed after " + IntToDecimal(n) + " attempts: " + cause
    case Rethrown(message) => message
    case NoAttempt => NoAttemptMessage
  }

  function Pow2(k: nat): (p: nat)
    ensures p >= 1
  {
    if k == 0 then 1 else 2 * Pow2(k - 1)
  }

  /** The wait after failed attempt number `attempt`: `2^attempt` seconds, a whole number of seconds. */
  function Backoff(attempt: nat): (w: nat)
    ensures w >= 1000 && w % 1000 == 0
  {
    Pow2(attempt) * 1000
  }

  /** The first retry waits two seconds and every later one twice as long as the one before. */
  lemma {:induction false} BackoffDoubles(attempt: nat)
    ensures Backoff(1) == 2000
    ensures Backoff(attempt + 1) == 2 * Backoff(attempt)
  {
    assert Pow2(attempt + 1) == 2 * Pow2(attempt);
  }

  /**
    The last attempt number a run that starts at `attempt` can reach: the
    give-up attempt when the loop gets there, otherwise the loop bound.
   */
  function LastAttempt(maxRetries: int, giveUpAt: int, attempt: nat): nat
    requires 1 <= attempt
  {
    if attempt <= giveUpAt <= maxRetries then giveUpAt
    else if maxRetries >= attempt then maxRetries
    else attempt - 1
  }

  /**
    The retry loop from attempt number `attempt` on, `lastError` being the
    message of the previous failure. An attempt that returns data ends the
    loop; a failure at attempt `giveUpAt` throws the wrapped error; any other
    failure waits `Backoff(attempt)` and tries again, and a loop that runs
    past `maxRetries` rethrows the last error as it is.
   */
  function RetryFrom<T>(maxRetries: int, giveUpAt: int, outcomes: seq<Attempt<T>>, attempt: nat, lastError: Option<string>): (r: FetchRun<T>)
    requires 1 <= attempt <= |outcomes| + 1
    requires maxRetries <= |outcomes|
    ensures attempt - 1 <= r.attempts <= LastAttempt(maxRetries, giveUpAt, attempt) <= |outcomes|
    ensures forall i :: attempt - 1 <= i < r.attempts - 1 ==> outcomes[i].Err?
    ensures r.response.Returned? ==> attempt <= r.attempts && outcomes[r.attempts - 1] == Ok(r.response.data)
    ensures r.response.Thrown? ==>
      && r.attempts == LastAttempt(maxRetries, giveUpAt, attempt)
      && forall i :: attempt - 1 <= i < r.attempts ==> outcomes[i].Err?
    ensures r.response.Thrown? ==>
      r.response.error ==
        if attempt <= giveUpAt <= maxRetries then Exhausted(maxRetries, outcomes[giveUpAt - 1].message)
        else if attempt <= maxRetries then Rethrown(outcomes[maxRetries - 1].message)
        else if lastError.Some? then Rethrown(lastError.value)
        else NoAttempt
    ensures |r.waits| == r.attempts - (attempt - 1) - (if r.response.Returned? || r.response.error.Exhausted? then 1 else 0)
    ensures forall j :: 0 <= j < |r.waits| ==> r.waits[j] == Backoff(attempt + j)
    decreases |outcomes| + 1 - attempt
  {
    if attempt > maxRetries then
      FetchRun(Thrown(if lastError.Some? then Rethrown(lastError.value) else NoAttempt), attempt - 1, [])
    else
      match outcomes[attempt - 1]
      case Ok(data) => FetchRun(Returned(data), attempt, [])
      case Err(message) =>
        if attempt == giveUpAt then FetchRun(Thrown(Exhausted(maxRetries, message)), attempt, [])
        else
          var rest := RetryFrom(maxRetries, giveUpAt, outcomes, attempt + 1, Some(message));
          FetchRun(rest.response, rest.attempts, [Backoff(attempt)] + rest.waits)
  }

  /** How many attempts `fetchPatientData` as written can make. */
  function AsWrittenBudget(maxRetries: int): nat {
    if maxRetries >= 2 then maxRetries - 1 else if maxRetries == 1 then 1 else 0
  }

  /**
    `fetchPatientData` as written: it gives up when `attempt === maxRetries - 1`.
    It returns the data of the first successful attempt (an empty page is a
    success) within its budget; for `maxRetries >= 2` that budget is
    `maxRetries - 1` attempts and the thrown error carries the last cause;
    with `maxRetries == 1` it waits once and rethrows the raw error; with no
    retries it makes no attempt.
   */
  function FetchPage<T>(maxRetries: int, outcomes: seq<Attempt<T>>): (r: FetchRun<T>)
    requires maxRetries <= |outcomes|
    ensures r.attempts <= AsWrittenBudget(maxRetries)
    ensures maxRetries >= 2 ==> r.attempts <= maxRetries - 1
    ensures r.response.Returned? <==> exists i :: 0 <= i < AsWrittenBudget(maxRetries) && outcomes[i].Ok?
    ensures r.response.Returned? ==> 1 <= r.attempts && outcomes[r.attempts - 1] == Ok(r.response.data)
    ensures forall i :: 0 <= i < r.attempts - 1 ==> outcomes[i].Err?
    ensures r.response.Thrown? ==>
      && r.attempts == AsWrittenBudget(maxRetries)
      && forall i :: 0 <= i < r.attempts ==> outcomes[i].Err?
    ensures r.response.Thrown? ==>
      r.response.error ==
        if maxRetries >= 2 then Exhausted(maxRetries, outcomes[maxRetries - 2].message)
        else if maxRetries == 1 then Rethrown(outcomes[0].message)
        else NoAttempt
    ensures r.attempts == 0 ==> r.waits == []
    ensures r.attempts >= 1 ==>
      |r.waits| == (if r.response.Thrown? && maxRetries == 1 then r.attempts else r.attempts - 1)
    ensures forall j :: 0 <= j < |r.waits| ==> r.waits[j] == Backoff(j + 1)
  {
    RetryFrom(maxRetries, maxRetries - 1, outcomes, 1, None)
  }

  /**
    The evident intent: give up at attempt `maxRetries`, so that a failing
    request makes exactly `maxRetries` attempts, as its error message says.
   */
  function FetchPageIntended<T>(maxRetries: int, outcomes: seq<Attempt<T>>): (r: FetchRun<T>)
    requires maxRetries <= |outcomes|
    ensures r.attempts <= if maxRetries > 0 then maxRetries else 0
    ensures r.response.Returned? <==> exists i :: 0 <= i < maxRetries && outcomes[i].Ok?
    ensures r.response.Returned? ==> 1 <= r.attempts && outcomes[r.attempts - 1] == Ok(r.response.data)
    ensures forall i :: 0 <= i < r.attempts - 1 ==> outcomes[i].Err?
    ensures r.response.Thrown? && maxRetries >= 1 ==>
      && r.attempts == maxRetries
      && (forall i :: 0 <= i < maxRetries ==> outcomes[i].Err?)
      && r.response.error == Exhausted(maxRetries, outcomes[maxRetries - 1].message)
      && r.response.error.claimedAttempts == r.attempts
    ensures r.response.Thrown? && maxRetries < 1 ==> r.attempts == 0 && r.response.error == NoAttempt
    ensures |r.waits| == if r.attempts == 0 then 0 else r.attempts - 1
    ensures forall j :: 0 <= j < |r.waits| ==> r.waits[j] == Backoff(j + 1)
  {
    RetryFrom(maxRetries, maxRetries, outcomes, 1, None)
  }

  /**
    With `maxRetries = 3` and three failing attempts, the code as written
    stops after two attempts and one wait, yet its error claims three
    attempts; the intended loop makes all three.
   */
  lemma AsWrittenStopsEarly<T>(a: string, b: string, c: string)
    ensures FetchPage<T>(3, [Err(a), Err(b), Err(c)]) == FetchRun(Thrown(Exhausted(3, b)), 2, [2000])
    ensures FetchPageIntended<T>(3, [Err(a), Err(b), Err(c)]) == FetchRun(Thrown(Exhausted(3, c)), 3, [2000, 4000])
  {
    var outcomes: seq<Attempt<T>> := [Err(a), Err(b), Err(c)];
    assert Backoff(1) == 2000 && Backoff(2) == 4000;
    var r := FetchPage(3, outcomes);
    assert r.waits == [2000];
    var q := FetchPageIntended(3, outcomes);
    assert q.waits == [2000, 4000];
  }

  /** With `maxRetries = 1` one failing attempt is followed by a useless 2-second wait and the raw error. */
  lemma SingleRetryRethrows<T>(e: string, rest: seq<Attempt<T>>)
    ensures FetchPage(1, [Err(e)] + rest) == FetchRun(Thrown(Rethrown(e)), 1, [2000])
  {
    var r := FetchPage(1, [Err(e)] + rest);
    assert r.waits == [Backoff(1)];
  }

  /** Without retries nothing is requested and the generic error is thrown. */
  lemma NoRetriesNoAttempt<T>(maxRetries: int, outcomes: seq<Attempt<T>>)
    requires maxRetries <= 0
    ensures FetchPage(maxRetries, outcomes) == FetchRun(Thrown(NoAttempt), 0, [])
  {
  }

  /** An empty page is a successful answer, not a reason to retry. */
  lemma EmptyPageIsSuccess<T>(maxRetries: int, rest: seq<Attempt<seq<T>>>)
    requires 1 <= maxRetries <= |rest| + 1
    ensures FetchPage(maxRetries, [Ok([])] + rest) == FetchRun(Returned([]), 1, [])
  {
  }
}
