/** The subscription hook: tier lookup, usage percentages, feature search and renewal days. */
module SubscriptionHook {
  import opened Wrappers
  import Text
  import Auth
  import opened RevenueCat

  const DayMs := 1000 * 60 * 60 * 24

  function PlanId(p: Auth.Plan): string {
    match p
    case Free => "free"
    case Premium => "premium"
    case Enterprise => "enterprise"
  }

  /**
   * `getCurrentTier`: the tier of the loaded subscription, or of the user's plan (free with no
   * user) while none is loaded; an unknown id falls back to the first tier.
   */
  function CurrentTier(subscription: Option<Subscription>, user: Option<Auth.User>): (tier: Tier)
    ensures tier in SubscriptionTiers()
    ensures var id := if subscription.Some? then subscription.value.tierId
                      else if user.Some? then PlanId(user.value.plan) else "free";
            var found := FindIn(SubscriptionTiers(), id);
      && (found.Some? ==> tier == found.value && tier.id == id)
      && (found.None? ==> tier == SubscriptionTiers()[0])
  {
    var id := if subscription.Some? then subscription.value.tierId
              else if user.Some? then PlanId(user.value.plan) else "free";
    FindTierIsFind(id);
    FindTier(id).GetOr(FreeTier)
  }

  /** A user's plan always names a tier, so without a subscription the plan's tier is chosen. */
  lemma PlanTier(user: Auth.User)
    ensures CurrentTier(None, Some(user)).id == PlanId(user.plan)
  {
  }

  /**
   * `getUsagePercentage`: 0 with no subscription or an unlimited counter, else the usage as a
   * percentage of the cap, capped at 100. A zero cap is read as "over the cap" for positive usage.
   */
  function UsagePercentage(subscription: Option<Subscription>, user: Option<Auth.User>, t: UsageType): (p: real)
    ensures p <= 100.0
    ensures subscription.Some? && UsageOf(subscription.value.usage, t) >= 0.0 ==> p >= 0.0
    ensures subscription.None? || LimitOf(CurrentTier(subscription, user).limits, t).Unlimited? ==> p == 0.0
    ensures subscription.Some? ==>
      var limit := LimitOf(CurrentTier(subscription, user).limits, t);
      var usage := UsageOf(subscription.value.usage, t);
      limit.Capped? && limit.bound > 0.0 && usage >= 0.0 ==>
        && (p == 100.0 <==> usage >= limit.bound)
        && (usage < limit.bound ==> p * limit.bound == usage * 100.0)
  {
    if subscription.None? then 0.0
    else
      match LimitOf(CurrentTier(subscription, user).limits, t)
      case Unlimited => 0.0
      case Capped(bound) =>
        var usage := UsageOf(subscription.value.usage, t);
        if bound <= 0.0 then (if usage > 0.0 then 100.0 else 0.0)
        else PercentOfCap(usage, bound); Min(100.0, usage / bound * 100.0)
  }

  /** Below the cap the share is exact; at or above it the percentage is 100. */
  lemma PercentOfCap(usage: real, bound: real)
    requires bound > 0.0
    ensures var p := Min(100.0, usage / bound * 100.0);
      && p <= 100.0
      && (usage >= 0.0 ==> p >= 0.0)
      && (p == 100.0 <==> usage >= bound)
      && (usage < bound ==> p * bound == usage * 100.0)
  {
    var q := usage / bound;
    assert q * bound == usage;
    assert usage >= bound <==> q >= 1.0;
  }

  function Min(a: real, b: real): real {
    if a <= b then a else b
  }

  /** Whether any feature contains `needle`, case-insensitively. */
  predicate AnyContains(features: seq<string>, needle: string) {
    features != [] && (Text.Contains(Text.Lower(features[0]), Text.Lower(needle)) || AnyContains(features[1..], needle))
  }

  lemma {:induction false} AnyContainsIff(features: seq<string>, needle: string)
    ensures AnyContains(features, needle) <==>
      exists i | 0 <= i < |features| :: Text.Contains(Text.Lower(features[i]), Text.Lower(needle))
  {
    if features != [] {
      AnyContainsIff(features[1..], needle);
      assert forall i | 1 <= i < |features| :: features[i] == features[1..][i - 1];
    }
  }

  /** `isFeatureAvailable`. */
  predicate IsFeatureAvailable(subscription: Option<Subscription>, user: Option<Auth.User>, feature: string) {
    AnyContains(CurrentTier(subscription, user).features, feature)
  }

  /** For example, notarization is a premium feature, whatever the casing of the query. */
  lemma NotarizationIsPremium(s: Subscription)
    ensures s.tierId == "premium" ==> IsFeatureAvailable(Some(s), None, "Notarization")
  {
    if s.tierId == "premium" {
      PremiumIsCurrent(s);
      PremiumNotarization();
      AnyContainsIff(PremiumTier.features, "Notarization");
    }
  }

  lemma PremiumIsCurrent(s: Subscription)
    requires s.tierId == "premium"
    ensures CurrentTier(Some(s), None) == PremiumTier
  {
  }

  lemma PremiumNotarization()
    ensures |PremiumTier.features| > 6
    ensures Text.Contains(Text.Lower(PremiumTier.features[6]), Text.Lower("Notarization"))
  {
    var f := PremiumTier.features;
    assert Text.Lower("Notarization") == "notarization";
    assert Text.Lower(f[6]) == "document " + "notarization";
    Text.ContainsSuffix("document ", "notarization");
  }

  /** `Math.ceil(a / b)` for a positive divisor. */
  function CeilDiv(a: int, b: nat): (q: int)
    requires b > 0
    ensures q * b >= a && (q - 1) * b < a
  {
    -((-a) / b)
  }

  /** `getDaysUntilRenewal`: whole days, rounded up, until the period ends; never negative. */
  function DaysUntilRenewal(subscription: Option<Subscription>, now: int): (days: nat)
    ensures subscription.None? ==> days == 0
    ensures subscription.Some? ==>
      var diff := subscription.value.periodEnd - now;
      && (diff <= 0 ==> days == 0)
      && (diff > 0 ==> days * DayMs >= diff && (days - 1) * DayMs < diff)
  {
    if subscription.None? then 0
    else
      var d := CeilDiv(subscription.value.periodEnd - now, DayMs);
      if d < 0 then 0 else d
  }

  /** A freshly started period renews in thirty days. */
  lemma FreshPeriod(userId: string, now: nat)
    ensures DaysUntilRenewal(Some(DefaultSubscription(userId, now)), now) == 30
  {
  }

  /** The hook's state around the subscription manager. */
  class Hook {
    var subscription: Option<Subscription>
    var isLoading: bool
    var isUpgrading: bool

    constructor()
      ensures subscription.None? && isLoading && !isUpgrading
    {
      subscription := None;
      isLoading := true;
      isUpgrading := false;
    }

    /** `loadSubscription` on the local path. */
    method LoadSubscription(manager: SubscriptionManager, user: Option<Auth.User>, now: nat)
      modifies this, manager
      ensures !isLoading && isUpgrading == old(isUpgrading)
      ensures user.None? ==> subscription == old(subscription) && manager.subscriptions == old(manager.subscriptions)
      ensures user.Some? ==>
        && subscription == Some(Current(old(manager.subscriptions), user.value.id, now))
        && manager.subscriptions == old(manager.subscriptions)[user.value.id := subscription.value]
    {
      if user.None? {
        isLoading := false;
        return;
      }
      isLoading := true;
      var s := manager.GetUserSubscription(user.value.id, now);
      subscription := Some(s);
      isLoading := false;
    }

    /** `upgrade`: nothing happens without a user and a loaded subscription. */
    method Upgrade(manager: SubscriptionManager, user: Option<Auth.User>, newTierId: string, now: nat)
      returns (r: Option<Subscription>)
      modifies this, manager
      ensures !isUpgrading || user.None? || old(subscription).None?
      ensures isLoading == old(isLoading)
      ensures user.None? || old(subscription).None? ==>
        r.None? && subscription == old(subscription) && isUpgrading == old(isUpgrading)
        && manager.subscriptions == old(manager.subscriptions)
      ensures user.Some? && old(subscription).Some? ==>
        var s := Upgraded(Current(old(manager.subscriptions), user.value.id, now), newTierId, now);
        && r == Some(s) && subscription == r
        && manager.subscriptions == old(manager.subscriptions)[user.value.id := s]
    {
      if user.None? || subscription.None? {
        return None;
      }
      isUpgrading := true;
      var s := manager.UpgradeSubscription(user.value.id, newTierId, now);
      subscription := Some(s);
      isUpgrading := false;
      r := Some(s);
    }

    /** `cancel`: nothing happens without a user and a loaded subscription. */
    method Cancel(manager: SubscriptionManager, user: Option<Auth.User>, now: nat)
      returns (r: Option<Subscription>)
      modifies this, manager
      ensures isLoading == old(isLoading) && isUpgrading == old(isUpgrading)
      ensures user.None? || old(subscription).None? ==>
        r.None? && subscription == old(subscription) && manager.subscriptions == old(manager.subscriptions)
      ensures user.Some? && old(subscription).Some? ==>
        var s := Cancelled(Current(old(manager.subscriptions), user.value.id, now));
        && r == Some(s) && subscription == r
        && manager.subscriptions == old(manager.subscriptions)[user.value.id := s]
    {
      if user.None? || subscription.None? {
        return None;
      }
      var s := manager.CancelSubscription(user.value.id, now);
      subscription := Some(s);
      r := Some(s);
    }

    /**
     * The `checkUsageLimit` wrapper: false with no user, and true when the manager's check
     * throws (`managerUp` false).
     */
    method CheckUsageLimit(manager: SubscriptionManager, user: Option<Auth.User>, t: UsageType,
                           managerUp: bool, now: nat) returns (allowed: bool)
      modifies manager
      ensures user.None? ==> !allowed && manager.subscriptions == old(manager.subscriptions)
      ensures user.Some? && !managerUp ==> allowed && manager.subscriptions == old(manager.subscriptions)
      ensures user.Some? && managerUp ==>
        allowed == Allows(Current(old(manager.subscriptions), user.value.id, now), t)
        && manager.subscriptions == old(manager.subscriptions)[user.value.id := Current(old(manager.subscriptions), user.value.id, now)]
    {
      if user.None? {
        return false;
      }
      if !managerUp {
        return true;
      }
      allowed := manager.CheckUsageLimit(user.value.id, t, now);
    }

    /** The `trackUsage` wrapper: tracks for the current user and reloads the record. */
    method TrackUsage(manager: SubscriptionManager, user: Option<Auth.User>, t: UsageType,
                      amount: real, now: nat)
      modifies this, manager
      ensures isUpgrading == old(isUpgrading)
      ensures user.None? ==>
        subscription == old(subscription) && isLoading == old(isLoading)
        && manager.subscriptions == old(manager.subscriptions)
      ensures user.Some? ==>
        var s := Tracked(Current(old(manager.subscriptions), user.value.id, now), t, amount);
        && manager.subscriptions == old(manager.subscriptions)[user.value.id := s]
        && subscription == Some(s) && !isLoading
    {
      if user.None? {
        return;
      }
      manager.TrackUsage(user.value.id, t, amount, now);
      LoadSubscription(manager, user, now);
    }
  }
}
