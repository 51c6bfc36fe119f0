/**
 * The subscription tiers and the local subscription ledger: a map from user id to that
 * user's subscription record with its usage counters. Amounts are JavaScript numbers,
 * modelled as reals.
 */
module RevenueCat {
  import opened Wrappers

  datatype UsageType = AiConsultations | DocumentAnalysis | VideoConsultations | VoiceMinutes | DocumentStorage

  datatype Usage = Usage(aiConsultations: real, documentAnalysis: real, videoConsultations: real,
                         voiceMinutes: real, documentStorage: real)

  const NoUsage := Usage(0.0, 0.0, 0.0, 0.0, 0.0)

  function UsageOf(u: Usage, t: UsageType): real {
    match t
    case AiConsultations => u.aiConsultations
    case DocumentAnalysis => u.documentAnalysis
    case VideoConsultations => u.videoConsultations
    case VoiceMinutes => u.voiceMinutes
    case DocumentStorage => u.documentStorage
  }

  /** `usage[t] += amount`: counter `t` grows by `amount` and no other counter moves. */
  function AddUsage(u: Usage, t: UsageType, amount: real): (r: Usage)
    ensures UsageOf(r, t) == UsageOf(u, t) + amount
    ensures forall t2 | t2 != t :: UsageOf(r, t2) == UsageOf(u, t2)
  {
    match t
    case AiConsultations => u.(aiConsultations := u.aiConsultations + amount)
    case DocumentAnalysis => u.(documentAnalysis := u.documentAnalysis + amount)
    case VideoConsultations => u.(videoConsultations := u.videoConsultations + amount)
    case VoiceMinutes => u.(voiceMinutes := u.voiceMinutes + amount)
    case DocumentStorage => u.(documentStorage := u.documentStorage + amount)
  }

  datatype Limit = Unlimited | Capped(bound: real)

  datatype Limits = Limits(aiConsultations: Limit, documentAnalysis: Limit, videoConsultations: Limit,
                           voiceMinutes: Limit, documentStorage: Limit)

  function LimitOf(l: Limits, t: UsageType): Limit {
    match t
    case AiConsultations => l.aiConsultations
    case DocumentAnalysis => l.documentAnalysis
    case VideoConsultations => l.videoConsultations
    case VoiceMinutes => l.voiceMinutes
    case DocumentStorage => l.documentStorage
  }

  datatype Period = Monthly | Yearly

  datatype Tier = Tier(id: string, name: string, price: nat, currency: string, period: Period,
                       features: seq<string>, limits: Limits)

  const FreeTier := Tier("free", "Free", 0, "USD", Monthly,
    ["Basic AI consultations", "General legal information", "Document templates", "Community support"],
    Limits(Capped(5.0), Capped(2.0), Capped(0.0), Capped(10.0), Capped(0.1)))

  const PremiumTier := Tier("premium", "Premium", 29, "USD", Monthly,
    ["Unlimited AI consultations", "Advanced document analysis", "Jurisdiction-specific advice",
     "Voice interactions", "Video consultations", "Priority support", "Document notarization",
     "Export capabilities"],
    Limits(Unlimited, Unlimited, Capped(5.0), Unlimited, Capped(5.0)))

  const EnterpriseTier := Tier("enterprise", "Enterprise", 99, "USD", Monthly,
    ["Everything in Premium", "Custom AI training", "Team collaboration", "API access",
     "Dedicated support", "Advanced analytics", "White-label options", "Custom integrations"],
    Limits(Unlimited, Unlimited, Unlimited, Unlimited, Capped(50.0)))

  /** `SUBSCRIPTION_TIERS`, in table order. */
  function SubscriptionTiers(): seq<Tier> {
    [FreeTier, PremiumTier, EnterpriseTier]
  }

  /** `tiers.find(t => t.id === id)`. */
  function FindIn(tiers: seq<Tier>, id: string): (r: Option<Tier>)
    ensures r.Some? ==> r.value.id == id && r.value in tiers
    ensures r.None? <==> forall i | 0 <= i < |tiers| :: tiers[i].id != id
    ensures r.Some? ==> exists i | 0 <= i < |tiers| :: tiers[i] == r.value
                          && forall j | 0 <= j < i :: tiers[j].id != id
  {
    Find(tiers, (t: Tier) => t.id == id)
  }

  /** The tier with a given id, looked up in `SUBSCRIPTION_TIERS`. */
  function FindTier(id: string): Option<Tier> {
    if id == FreeTier.id then Some(FreeTier)
    else if id == PremiumTier.id then Some(PremiumTier)
    else if id == EnterpriseTier.id then Some(EnterpriseTier)
    else None
  }

  /** The lookup agrees with searching the table: the three ids are distinct. */
  lemma FindTierIsFind(id: string)
    ensures FindTier(id) == FindIn(SubscriptionTiers(), id)
    ensures FindTier(id).Some? ==> FindTier(id).value in SubscriptionTiers()
  {
    var tiers := SubscriptionTiers();
    assert tiers[1..][1..] == [EnterpriseTier];
  }

  datatype Status = Active | Canceled | Expired | Trial

  /** A billing period is thirty days. */
  const PeriodMs := 30 * 24 * 60 * 60 * 1000

  /** A subscription record; the period bounds are instants in milliseconds. */
  datatype Subscription = Subscription(userId: string, tierId: string, status: Status,
                                       periodStart: nat, periodEnd: nat, cancelAtPeriodEnd: bool,
                                       usage: Usage)

  /** The record a user without one gets: free, active, not cancelling, nothing used. */
  function DefaultSubscription(userId: string, now: nat): Subscription {
    Subscription(userId, "free", Active, now, now + PeriodMs, false, NoUsage)
  }

  /** `getUserSubscription` on the local path: the cached record, else the default. */
  function Current(subscriptions: map<string, Subscription>, userId: string, now: nat): Subscription {
    if userId in subscriptions then subscriptions[userId] else DefaultSubscription(userId, now)
  }

  /**
   * `checkUsageLimit` on a record: an unknown tier refuses, an unlimited counter allows, and
   * a capped counter allows while the usage is below the cap.
   */
  predicate Allows(s: Subscription, t: UsageType) {
    match FindTier(s.tierId)
    case None => false
    case Some(tier) =>
      match LimitOf(tier.limits, t)
      case Unlimited => true
      case Capped(bound) => UsageOf(s.usage, t) < bound
  }

  function Upgraded(s: Subscription, newTierId: string, now: nat): Subscription {
    s.(tierId := newTierId, status := Active, periodStart := now, periodEnd := now + PeriodMs)
  }

  function Cancelled(s: Subscription): Subscription {
    s.(cancelAtPeriodEnd := true)
  }

  function Tracked(s: Subscription, t: UsageType, amount: real): Subscription {
    s.(usage := AddUsage(s.usage, t, amount))
  }

  /** `n` calls of `trackUsage(u, t)` with the default amount of one. */
  function TrackedTimes(s: Subscription, t: UsageType, n: nat): Subscription {
    if n == 0 then s else Tracked(TrackedTimes(s, t, n - 1), t, 1.0)
  }

  lemma {:induction false} TrackedTimesUsage(s: Subscription, t: UsageType, n: nat)
    ensures UsageOf(TrackedTimes(s, t, n).usage, t) == UsageOf(s.usage, t) + n as real
    ensures forall t2 | t2 != t :: UsageOf(TrackedTimes(s, t, n).usage, t2) == UsageOf(s.usage, t2)
    ensures TrackedTimes(s, t, n).tierId == s.tierId
  {
    if n > 0 {
      TrackedTimesUsage(s, t, n - 1);
    }
  }

  /**
   * The free quota: a fresh user may take an AI consultation after `n` tracked ones exactly
   * when `n < 5`, and document analysis while fewer than 2 are tracked.
   */
  lemma FreeQuota(userId: string, now: nat, n: nat)
    ensures Allows(TrackedTimes(DefaultSubscription(userId, now), AiConsultations, n), AiConsultations) <==> n < 5
    ensures Allows(TrackedTimes(DefaultSubscription(userId, now), DocumentAnalysis, n), DocumentAnalysis) <==> n < 2
  {
    TrackedTimesUsage(DefaultSubscription(userId, now), AiConsultations, n);
    TrackedTimesUsage(DefaultSubscription(userId, now), DocumentAnalysis, n);
  }

  /** The free tier's video cap is zero, so video is never allowed on it. */
  lemma FreeNeverVideo(s: Subscription)
    requires s.tierId == "free" && UsageOf(s.usage, VideoConsultations) >= 0.0
    ensures !Allows(s, VideoConsultations)
  {
  }

  /** Tracking one counter never changes the verdict for another. */
  lemma AllowsIndependent(s: Subscription, t: UsageType, amount: real, t2: UsageType)
    requires t2 != t
    ensures Allows(Tracked(s, t, amount), t2) == Allows(s, t2)
  {
  }

  /** Once a counter is refused, tracking more use of it keeps it refused. */
  lemma RefusalStays(s: Subscription, t: UsageType, amount: real)
    requires !Allows(s, t) && amount >= 0.0
    ensures !Allows(Tracked(s, t, amount), t)
  {
  }

  /** Upgrading keeps the usage: the verdicts are those of the same usage on the new tier. */
  lemma UpgradeVerdicts(s: Subscription, newTierId: string, now: nat, t: UsageType)
    ensures Upgraded(s, newTierId, now).usage == s.usage
    ensures Upgraded(s, newTierId, now).cancelAtPeriodEnd == s.cancelAtPeriodEnd
    ensures FindTier(newTierId).None? ==> !Allows(Upgraded(s, newTierId, now), t)
    ensures newTierId == "premium" && t != VideoConsultations && t != DocumentStorage ==>
      Allows(Upgraded(s, newTierId, now), t)
  {
  }

  /** Cancelling twice leaves the ledger as cancelling once does. */
  lemma CancelTwice(subscriptions: map<string, Subscription>, userId: string, now1: nat, now2: nat)
    ensures
      var once := subscriptions[userId := Cancelled(Current(subscriptions, userId, now1))];
      once[userId := Cancelled(Current(once, userId, now2))] == once
  {
  }

  /** The local subscription manager. */
  class SubscriptionManager {
    var subscriptions: map<string, Subscription>

    constructor()
      ensures subscriptions == map[]
    {
      subscriptions := map[];
    }

    /** The cached record, unchanged; otherwise the default, which is stored. */
    method GetUserSubscription(userId: string, now: nat) returns (s: Subscription)
      modifies this
      ensures s == Current(old(subscriptions), userId, now)
      ensures subscriptions == old(subscriptions)[userId := s]
      ensures userId in old(subscriptions) ==> subscriptions == old(subscriptions)
    {
      if userId in subscriptions {
        return subscriptions[userId];
      }
      s := DefaultSubscription(userId, now);
      subscriptions := subscriptions[userId := s];
    }

    /** Local `upgradeSubscription`: the tier id is taken as given, and the status becomes active. */
    method UpgradeSubscription(userId: string, newTierId: string, now: nat) returns (s: Subscription)
      modifies this
      ensures var c := Current(old(subscriptions), userId, now);
        && s == Upgraded(c, newTierId, now)
        && s.tierId == newTierId && s.status == Active
        && s.usage == c.usage && s.cancelAtPeriodEnd == c.cancelAtPeriodEnd
      ensures subscriptions == old(subscriptions)[userId := s]
    {
      var current := GetUserSubscription(userId, now);
      s := Upgraded(current, newTierId, now);
      subscriptions := subscriptions[userId := s];
    }

    /** `cancelSubscription`: only `cancelAtPeriodEnd` changes. */
    method CancelSubscription(userId: string, now: nat) returns (s: Subscription)
      modifies this
      ensures s == Current(old(subscriptions), userId, now).(cancelAtPeriodEnd := true)
      ensures subscriptions == old(subscriptions)[userId := s]
    {
      var current := GetUserSubscription(userId, now);
      s := Cancelled(current);
      subscriptions := subscriptions[userId := s];
    }

    /** `trackUsage`: counter `t` of this user grows by `amount`; nothing else changes. */
    method TrackUsage(userId: string, t: UsageType, amount: real, now: nat)
      modifies this
      ensures subscriptions == old(subscriptions)[userId := Tracked(Current(old(subscriptions), userId, now), t, amount)]
    {
      var current := GetUserSubscription(userId, now);
      subscriptions := subscriptions[userId := Tracked(current, t, amount)];
    }

    /** `checkUsageLimit`; it stores the default record for a new user. */
    method CheckUsageLimit(userId: string, t: UsageType, now: nat) returns (allowed: bool)
      modifies this
      ensures allowed == Allows(Current(old(subscriptions), userId, now), t)
      ensures subscriptions == old(subscriptions)[userId := Current(old(subscriptions), userId, now)]
    {
      var current := GetUserSubscription(userId, now);
      var tier := FindTier(current.tierId);
      if tier.None? {
        return false;
      }
      var limit := LimitOf(tier.value.limits, t);
      if limit.Unlimited? {
        return true;
      }
      allowed := UsageOf(current.usage, t) < limit.bound;
    }
  }
}
