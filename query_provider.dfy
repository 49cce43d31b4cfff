/** The data-fetching client's defaults: how long fetched data stays fresh and
    when a failed request is tried again. */
module QueryProvider {
  import opened Wrappers

  /** Fetched data is fresh for one minute, in milliseconds. */
  const StaleTime: nat := 60 * 1000

  /** The retry policy: never after an HTTP 401, otherwise while fewer than
      three failures have been retried. */
  function ShouldRetry(failureCount: nat, status: Option<int>): (r: bool)
    ensures r <==> status != Some(401) && failureCount < 3
  {
    if status == Some(401) then false else failureCount < 3
  }

  /** The number of retries made for a request whose successive attempts fail
      with the statuses in `failures` (the client asks the policy after each
      failure, counting the retries already made). */
  function Retries(failures: seq<Option<int>>, failureCount: nat): nat
    decreases |failures|
  {
    if failures == [] then 0
    else if ShouldRetry(failureCount, failures[0]) then 1 + Retries(failures[1..], failureCount + 1)
    else 0
  }

  /** A request is retried at most three times, so tried at most four. */
  lemma {:induction false} AtMostThreeRetries(failures: seq<Option<int>>, failureCount: nat)
    requires failureCount <= 3
    ensures Retries(failures, failureCount) <= 3 - failureCount
    decreases |failures|
  {
    if failures != [] && ShouldRetry(failureCount, failures[0]) {
      AtMostThreeRetries(failures[1..], failureCount + 1);
    }
  }

  /** An unauthorised answer is never retried. */
  lemma UnauthorisedNotRetried(failures: seq<Option<int>>, failureCount: nat)
    requires failures != [] && failures[0] == Some(401)
    ensures Retries(failures, failureCount) == 0
  {
  }

  /** Four failures none of which is a 401 use up all three retries. */
  lemma {:induction false} PersistentFailureRetriedThrice(failures: seq<Option<int>>, failureCount: nat)
    requires failureCount <= 3 && |failures| >= 4 - failureCount
    requires forall i :: 0 <= i < |failures| ==> failures[i] != Some(401)
    ensures Retries(failures, failureCount) == 3 - failureCount
    decreases 3 - failureCount
  {
    if failureCount < 3 {
      PersistentFailureRetriedThrice(failures[1..], failureCount + 1);
    }
  }
}
