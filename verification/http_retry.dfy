/** The retry loop shared by fetchJson and fetchRaw. What the k-th call of fetch comes to is given by
    the environment. */
module HttpRetry {
  import opened Backoff

  /** One attempt: a usable response, a response with an error status, a TypeError (as fetch throws
      for network failures), or any other exception (such as a body that is not JSON). */
  datatype Attempt = Usable(body: string) | ErrorStatus(status: int) | TypeError | OtherException

  datatype Outcome = Returned(body: string) | Thrown(cause: Attempt) | NeverTried

  predicate IsRetryableStatus(status: int) {
    500 <= status < 600
  }

  predicate Retryable(a: Attempt) {
    a.TypeError? || (a.ErrorStatus? && IsRetryableStatus(a.status))
  }

  predicate WorthRetrying(cfg: Config, a: Attempt) {
    cfg.enabled && Retryable(a)
  }

  function Settle(a: Attempt): Outcome {
    if a.Usable? then Returned(a.body) else Thrown(a)
  }

  /** Makes at most maxRetries + 1 calls, stops at the first outcome that is not retryable (or the
      last permitted one) and reports that one, having slept exactly the delays in between. */
  method FetchWithRetry(cfg: Config, respond: nat -> Attempt, random: nat -> real) returns (outcome: Outcome, calls: nat, slept: int)
    ensures cfg.maxRetries < 0 ==> outcome == NeverTried && calls == 0 && slept == 0
    ensures cfg.maxRetries >= 0 ==>
              && 1 <= calls <= cfg.maxRetries + 1
              && var last := respond(calls - 1); outcome == if last.Usable? then Returned(last.body) else Thrown(last)
    ensures calls > 1 ==> cfg.enabled
    ensures forall i: nat :: i < calls - 1 ==> respond(i).TypeError? || (respond(i).ErrorStatus? && 500 <= respond(i).status <= 599)
    ensures calls > 0 && calls != cfg.maxRetries + 1 ==>
              var last := respond(calls - 1);
              !cfg.enabled || last.Usable? || last.OtherException? || (last.ErrorStatus? && !(500 <= last.status <= 599))
    ensures calls > 0 ==> slept == TotalDelay(cfg, random, calls - 1)
    ensures NonNegative(cfg) && UnitDraws(random) && calls > 0 ==>
              slept as real <= 1.2 * DelayBound(cfg, calls - 1)
  {
    outcome, calls, slept := NeverTried, 0, 0;
    var attempt := 0;
    while attempt <= cfg.maxRetries
      invariant calls == attempt && attempt <= (if cfg.maxRetries < 0 then 0 else cfg.maxRetries)
      invariant slept == TotalDelay(cfg, random, attempt)
      invariant attempt > 0 ==> cfg.enabled
      invariant forall i: nat :: i < attempt ==> respond(i).TypeError? || (respond(i).ErrorStatus? && 500 <= respond(i).status <= 599)
    {
      var resp := respond(attempt);
      calls := calls + 1;
      if WorthRetrying(cfg, resp) && attempt < cfg.maxRetries {
        slept := slept + ComputeBackoffMs(attempt, cfg, random(attempt));
        attempt := attempt + 1;
        continue;
      }
      WithinBound(cfg, random, attempt);
      return Settle(resp), calls, slept;
    }
  }

  lemma WithinBound(cfg: Config, random: nat -> real, k: nat)
    ensures NonNegative(cfg) && UnitDraws(random) ==>
              TotalDelay(cfg, random, k) as real <= 1.2 * DelayBound(cfg, k)
  {
    if NonNegative(cfg) && UnitDraws(random) {
      TotalDelayBounded(cfg, random, k);
    }
  }
}
