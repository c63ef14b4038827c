/**
 * The mild retry helper: post once, and while the answer is 429 or 5xx and the
 * budget `tries` is not spent, post again with one try fewer.
 */
module Retry {
  import opened Http

  /** Transient failures worth another attempt: rate limiting and server errors. */
  predicate IsRetryable(status: int) {
    status == 429 || status >= 500
  }

  /** 429 and every status from 500 up are retried; a k6 transport failure (status 0) and other 4xx are not. */
  lemma RetryableStatuses()
    ensures IsRetryable(429) && IsRetryable(500) && IsRetryable(503) && IsRetryable(599)
    ensures !IsRetryable(0) && !IsRetryable(200) && !IsRetryable(404) && !IsRetryable(499)
    ensures forall status :: 400 <= status < 500 && status != 429 ==> !IsRetryable(status)
  {
  }

  /** The retry budget the script passes by default: up to 3 posts in all. */
  const DefaultTries: nat := 2

  /** The response the helper returns and how many posts it issued. */
  datatype Attempt = Attempt(response: Response, calls: nat)

  /**
   * `a` is the outcome of retrying over `pending` with budget `tries`: between 1 and
   * tries + 1 posts, every answer before the last retryable, the last one returned,
   * and the budget used up whenever that last answer is still retryable.
   */
  predicate StopsAtFirstSettled(pending: seq<Response>, tries: nat, a: Attempt) {
    && 1 <= a.calls <= tries + 1
    && a.calls <= |pending|
    && a.response == pending[a.calls - 1]
    && (forall j :: 0 <= j < a.calls - 1 ==> IsRetryable(pending[j].status))
    && (IsRetryable(a.response.status) ==> a.calls == tries + 1)
  }

  /** postWithRetry over the answers `pending` the server will give, in order. */
  function RetryOutcome(pending: seq<Response>, tries: nat): (a: Attempt)
    requires tries < |pending|
    ensures StopsAtFirstSettled(pending, tries, a)
    decreases tries
  {
    if IsRetryable(pending[0].status) && tries > 0 then
      var rest := RetryOutcome(pending[1..], tries - 1);
      Attempt(rest.response, rest.calls + 1)
    else
      Attempt(pending[0], 1)
  }

  /** The stop rule pins the outcome down: two outcomes that obey it are equal. */
  lemma StopRuleDeterminesOutcome(pending: seq<Response>, tries: nat, a: Attempt, b: Attempt)
    requires StopsAtFirstSettled(pending, tries, a) && StopsAtFirstSettled(pending, tries, b)
    ensures a == b
  {
  }

  /** A server that keeps answering with a retryable status gets exactly tries + 1 posts. */
  lemma AlwaysRetryableSpendsBudget(pending: seq<Response>, tries: nat)
    requires tries < |pending|
    requires forall j :: 0 <= j < |pending| ==> IsRetryable(pending[j].status)
    ensures RetryOutcome(pending, tries).calls == tries + 1
    ensures RetryOutcome(pending, tries).response == pending[tries]
  {
  }

  /** The first answer that is neither 429 nor 5xx, within the budget, is the one returned. */
  lemma FirstSettledIsReturned(pending: seq<Response>, tries: nat, k: nat)
    requires k <= tries < |pending|
    requires !IsRetryable(pending[k].status)
    requires forall j :: 0 <= j < k ==> IsRetryable(pending[j].status)
    ensures RetryOutcome(pending, tries) == Attempt(pending[k], k + 1)
  {
    StopRuleDeterminesOutcome(pending, tries, RetryOutcome(pending, tries), Attempt(pending[k], k + 1));
  }

  /** postWithRetry: the recursion of the script, each level posting once to `server`. */
  method PostWithRetry(server: Server, tries: nat) returns (resp: Response)
    requires tries < |server.pending|
    modifies server
    ensures var a := RetryOutcome(old(server.pending), tries);
      && resp == a.response
      && server.pending == old(server.pending)[a.calls..]
      && server.posts == old(server.posts) + a.calls
    decreases tries
  {
    resp := server.Post();
    if IsRetryable(resp.status) && tries > 0 {
      resp := PostWithRetry(server, tries - 1);
    }
  }
}
