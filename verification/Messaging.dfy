/** The retry topology: one TTL queue per tier, chosen by the attempt that just failed. */
module Messaging {
  import opened Wrappers

  datatype RetryTier = RetryTier(queue: string, routingKey: string, ttlMs: nat)

  const RETRY_TIERS: seq<RetryTier> := [
    RetryTier("webhooks.retry.5s", "orders.retry.5s", 5_000),
    RetryTier("webhooks.retry.30s", "orders.retry.30s", 30_000),
    RetryTier("webhooks.retry.2m", "orders.retry.2m", 120_000)
  ]

  function TierIndex(attempts: int): (index: nat)
    ensures index < |RETRY_TIERS|
  {
    Min(Max(attempts - 1, 0), |RETRY_TIERS| - 1)
  }

  function RetryTierForAttempt(attempts: int): RetryTier {
    RETRY_TIERS[TierIndex(attempts)]
  }

  /** The nominal time an event has waited once its first `n` retries have all expired. */
  function LadderTtl(n: nat): nat {
    if n == 0 then 0 else LadderTtl(n - 1) + RetryTierForAttempt(n).ttlMs
  }

  lemma {:induction false} LadderClosedForm(n: nat)
    ensures n == 0 ==> LadderTtl(n) == 0
    ensures n == 1 ==> LadderTtl(n) == 5_000
    ensures n == 2 ==> LadderTtl(n) == 35_000
    ensures n >= 3 ==> LadderTtl(n) == 120_000 * n - 205_000
  {
    if n > 0 {
      LadderClosedForm(n - 1);
    }
  }
}
