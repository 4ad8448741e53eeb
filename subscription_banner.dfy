/** The banner that shows a user's plan and free generations left. */
module SubscriptionBanner {
  import opened Wrappers
  import opened Usage
  import StripeWebhook

  datatype Banner =
    | NoBanner
    | PremiumBanner
    | FreeTrialBanner(remaining: int)
    | UsedUpBanner(used: nat)

  /** `isLimitReached`. */
  predicate IsLimitReached(u: UsageData) {
    u.generationsRemaining == 0
  }

  /** What the component renders. */
  function BannerFor(isLoading: bool, usage: Option<UsageData>): (r: Banner)
    ensures r == NoBanner <==> isLoading || usage.None?
    ensures r == PremiumBanner <==> !isLoading && usage.Some? && usage.value.isPremium
    ensures r.UsedUpBanner? ==> r.used == usage.value.generationsUsed && !usage.value.isPremium
    ensures r.FreeTrialBanner? ==> r.remaining == usage.value.generationsRemaining && r.remaining != 0
  {
    if isLoading || usage.None? then NoBanner
    else if usage.value.isPremium then PremiumBanner
    else if IsLimitReached(usage.value) then UsedUpBanner(usage.value.generationsUsed)
    else FreeTrialBanner(usage.value.generationsRemaining)
  }

  /** A premium user gets the premium banner whatever the usage count. */
  lemma PremiumBannerAlways(count: Option<nat>)
    ensures BannerFor(false, Some(Summary(count, true))) == PremiumBanner
  {
  }

  /** For a user without an active subscription the limit is reached exactly when two or more
      generations are used; otherwise the trial banner shows one or two left. */
  lemma FreeBannerSpec(count: Option<nat>)
    ensures var b := BannerFor(false, Some(Summary(count, false)));
            && (b.UsedUpBanner? <==> count.GetOr(0) >= FreeGenerations)
            && (b.UsedUpBanner? ==> b.used == count.GetOr(0))
            && (b.FreeTrialBanner? ==> 1 <= b.remaining <= FreeGenerations
                                       && b.remaining == FreeGenerations - count.GetOr(0))
            && b != PremiumBanner && b != NoBanner
  {
  }

  /** The component's state: the usage it loaded and whether loading is still under way. */
  class BannerState {
    var usage: Option<UsageData>
    var isLoading: bool

    constructor()
      ensures usage == None && isLoading
      ensures Shown() == NoBanner
    {
      usage := None;
      isLoading := true;
    }

    function Shown(): Banner
      reads this
    {
      BannerFor(isLoading, usage)
    }

    /**
     * `loadUsageData` for `userId`, reading the two tables; `threw` is a request that throws,
     * which keeps the previous usage. Loading ends either way.
     */
    method LoadUsageData(counts: UsageTable, subs: StripeWebhook.Table, userId: string, threw: bool)
      modifies this
      ensures !isLoading
      ensures usage == if threw then old(usage)
                       else Some(Summary(CountOf(counts, userId), HasActiveSubscription(subs, userId)))
      ensures !threw ==> Shown() != NoBanner
      ensures !threw ==> (Shown() == PremiumBanner <==> HasActiveSubscription(subs, userId))
    {
      if !threw {
        var isPremium := HasActiveSubscription(subs, userId);
        usage := Some(Summary(CountOf(counts, userId), isPremium));
      }
      isLoading := false;
    }
  }
}
