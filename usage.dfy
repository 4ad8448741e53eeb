/**
 * The usage summary that the name-generation endpoint returns and the subscription banner
 * recomputes: generations used, generations remaining on the free tier, and premium status.
 */
module Usage {
  import opened Wrappers
  import opened Numbers
  import StripeWebhook

  /** The number of free generations. */
  const FreeGenerations: nat := 2

  /** `generation_usage`: user id to `generation_count`. */
  type UsageTable = map<string, nat>

  datatype UsageData = UsageData(generationsUsed: nat, generationsRemaining: int, isPremium: bool)

  /** The `generation_count` of a user's usage row, if the row exists. */
  function CountOf(counts: UsageTable, userId: string): Option<nat> {
    if userId in counts then Some(counts[userId]) else None
  }

  /** The subscription query on `user_id` and status `active` returns a row. */
  predicate HasActiveSubscription(subs: StripeWebhook.Table, userId: string) {
    userId in subs && subs[userId].status == "active"
  }

  /**
   * The summary: used defaults to 0 without a usage row; remaining is -1 for premium users
   * and otherwise the free allowance left, never below 0.
   */
  function Summary(count: Option<nat>, isPremium: bool): (u: UsageData)
    ensures u.isPremium == isPremium
    ensures u.generationsUsed == (if count.Some? then count.value else 0)
    ensures isPremium ==> u.generationsRemaining == -1
    ensures !isPremium ==> 0 <= u.generationsRemaining <= FreeGenerations
    ensures !isPremium ==> (u.generationsRemaining == 0 <==> u.generationsUsed >= FreeGenerations)
    ensures !isPremium && u.generationsUsed <= FreeGenerations
            ==> u.generationsUsed + u.generationsRemaining == FreeGenerations
  {
    var used := count.GetOr(0);
    UsageData(used, if isPremium then -1 else Max(0, FreeGenerations - used), isPremium)
  }

  /**
   * The free-tier rule the endpoint's messages state: premium users are unlimited, everyone
   * else has `FreeGenerations`. The database function that enforces it is not part of this model.
   */
  predicate MayGenerate(used: nat, isPremium: bool) {
    isPremium || used < FreeGenerations
  }

  /** The summary agrees with the rule: a user may generate exactly when the summary shows
      premium or some free generations left. */
  lemma SummaryAgreesWithRule(count: Option<nat>, isPremium: bool)
    ensures var u := Summary(count, isPremium);
            MayGenerate(u.generationsUsed, isPremium) <==> u.isPremium || u.generationsRemaining > 0
  {
  }
}
