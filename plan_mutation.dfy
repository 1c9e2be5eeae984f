/**
 * Topup and upgrade, the two plan changes of the update_plan endpoint. Each
 * recomputes the subscription window, the balance, the monthly cap, the price
 * and the features of one plan record.
 */
module PlanMutation {
  import opened Wrappers
  import opened Calendar
  import opened Catalog
  import opened PlanRecords
  import opened BillingPeriod

  const TopupAction: string := "topup"
  const UpgradeAction: string := "upgrade"

  /** The ads bought: the request's `total_ads` when it gives one, else the catalog's. */
  function PurchasedAds(info: PlanInfo, adsOverride: Option<int>): int {
    match adsOverride
    case Some(n) => n
    case None => info.totalAds
  }

  /** A subscription period. */
  datatype Window = Window(start: Instant, end: Instant)

  /**
   * The period a topup buys. A plan still running at `now` is extended back
   * to back: the new period starts one day after the current end. A plan that
   * expired starts again at `now`. Either way the period lasts the plan's
   * duration, and it starts after the current end and not before `now`.
   */
  function RenewalWindow(currentEnd: Instant, now: Instant, durationDays: int): (w: Window)
    ensures w.end == AddDays(w.start, durationDays)
    ensures w.start > currentEnd && w.start >= now
    ensures now <= currentEnd ==> w.start == AddDays(currentEnd, 1)
    ensures now > currentEnd ==> w.start == now
  {
    var start := if now > currentEnd then now else AddDays(currentEnd, 1);
    Window(start, AddDays(start, durationDays))
  }

  /**
   * Topup: a same-tier renewal. It reads the stored balance and usage as they
   * are, without applying the monthly rollover first. On an expired plan the
   * leftover balance is forfeited and usage starts at zero; on a running plan
   * the purchase adds to the balance and usage carries on. The monthly cap is
   * set to the catalog's, the price is added, the features are replaced only
   * by a non-empty new list, and the plan name and last-usage date stay.
   */
  function Topup(rec: PlanRecord, planName: string, features: seq<string>, adsOverride: Option<int>, now: Instant)
    : (r: Result<PlanRecord, Error>)
    requires Known(planName)
    ensures planName != rec.planName ==> r == Failure(PlanMismatch)
    ensures planName == rec.planName && !rec.subscriptionEndDate.At? ==> r == Failure(MalformedDate)
    ensures planName == rec.planName && rec.subscriptionEndDate.At? ==> r.Success?
    ensures r.Success? ==>
      var info := PlanConfig(planName).value;
      var oldEnd := rec.subscriptionEndDate.t;
      var w := RenewalWindow(oldEnd, now, info.durationDays);
      var bought := PurchasedAds(info, adsOverride);
      var n := r.value;
      && n.subscriptionStartDate == At(w.start) && n.subscriptionEndDate == At(w.end)
      && n.validityDays == info.durationDays
      && (now > oldEnd ==> n.totalAds == bought && n.adsUsed == 0)
      && (now <= oldEnd ==> n.totalAds == rec.totalAds + bought && n.adsUsed == rec.adsUsed)
      && n.maxAdsPerMonth == info.maxAdsPerMonth
      && n.totalPrice == rec.totalPrice + info.price
      && n.selectedFeatures == (if features == [] then rec.selectedFeatures else features)
      && n.updatedAt == At(now)
      && n.planName == rec.planName && n.lastUsageDate == rec.lastUsageDate
  {
    if planName != rec.planName then Failure(PlanMismatch)
    else match rec.subscriptionEndDate
      case At(currentEnd) =>
        var info := PlanConfig(planName).value;
        var w := RenewalWindow(currentEnd, now, info.durationDays);
        var bought := PurchasedAds(info, adsOverride);
        var expired := now > currentEnd;
        Success(rec.(
          subscriptionStartDate := At(w.start),
          subscriptionEndDate := At(w.end),
          validityDays := info.durationDays,
          totalAds := if expired then bought else rec.totalAds + bought,
          adsUsed := if expired then 0 else rec.adsUsed,
          maxAdsPerMonth := info.maxAdsPerMonth,
          totalPrice := rec.totalPrice + info.price,
          updatedAt := At(now),
          selectedFeatures := if features != [] then features else rec.selectedFeatures))
      case _ => Failure(MalformedDate)
  }

  /**
   * Upgrade: a move to a strictly higher tier, starting at `now` for the new
   * plan's duration. The remaining balance carries forward and the purchase
   * adds to it, the monthly caps of the current record and the new plan add
   * up, the price is added, the fixed upgrade feature list replaces the
   * features, and usage and last-usage date stay.
   */
  function Upgrade(rec: PlanRecord, planName: string, adsOverride: Option<int>, now: Instant)
    : (r: Result<PlanRecord, Error>)
    requires Known(planName)
    ensures r.Failure? <==> Rank(planName) <= Rank(rec.planName)
    ensures r.Failure? ==> r.error == InvalidUpgrade
    ensures r.Success? ==>
      var info := PlanConfig(planName).value;
      var n := r.value;
      && n.planName == planName && Rank(n.planName) > Rank(rec.planName)
      && n.subscriptionStartDate == At(now) && n.subscriptionEndDate == At(AddDays(now, info.durationDays))
      && n.validityDays == info.durationDays
      && n.totalAds - rec.totalAds == PurchasedAds(info, adsOverride)
      && n.maxAdsPerMonth - rec.maxAdsPerMonth == info.maxAdsPerMonth
      && n.totalPrice - rec.totalPrice == info.price
      && n.selectedFeatures == UpgradeFeatures
      && n.updatedAt == At(now)
      && n.adsUsed == rec.adsUsed && n.lastUsageDate == rec.lastUsageDate
  {
    if Rank(planName) <= Rank(rec.planName) then Failure(InvalidUpgrade)
    else
      var info := PlanConfig(planName).value;
      Success(rec.(
        planName := planName,
        subscriptionStartDate := At(now),
        subscriptionEndDate := At(AddDays(now, info.durationDays)),
        validityDays := info.durationDays,
        totalAds := rec.totalAds + PurchasedAds(info, adsOverride),
        maxAdsPerMonth := rec.maxAdsPerMonth + info.maxAdsPerMonth,
        totalPrice := rec.totalPrice + info.price,
        updatedAt := At(now),
        selectedFeatures := UpgradeFeatures))
  }

  /**
   * The update_plan decision on the stored record (None when the user has
   * none). The plan name is validated first, the record's existence second,
   * the action third; no failure changes anything.
   */
  function UpdatePlan(stored: Option<PlanRecord>, planName: string, action: string,
                      features: seq<string>, adsOverride: Option<int>, now: Instant)
    : (r: Result<PlanRecord, Error>)
    ensures !Known(planName) ==> r == Failure(InvalidPlan)
    ensures Known(planName) && stored.None? ==> r == Failure(NotFound)
    ensures Known(planName) && stored.Some? && action != TopupAction && action != UpgradeAction
            ==> r == Failure(InvalidAction)
    ensures Known(planName) && stored.Some? && action == TopupAction
            ==> r == Topup(stored.value, planName, features, adsOverride, now)
    ensures Known(planName) && stored.Some? && action == UpgradeAction
            ==> r == Upgrade(stored.value, planName, adsOverride, now)
  {
    if !Known(planName) then Failure(InvalidPlan)
    else if stored.None? then Failure(NotFound)
    else if action == TopupAction then Topup(stored.value, planName, features, adsOverride, now)
    else if action == UpgradeAction then Upgrade(stored.value, planName, adsOverride, now)
    else Failure(InvalidAction)
  }

  /**
   * Topup leaves the usage the gate sees untouched on a running plan, stale
   * stored count included, and clears it on an expired plan.
   */
  lemma TopupEffectiveUsage(rec: PlanRecord, planName: string, features: seq<string>,
                            adsOverride: Option<int>, now: Instant, later: Instant)
    requires Known(planName) && Topup(rec, planName, features, adsOverride, now).Success?
    ensures var n := Topup(rec, planName, features, adsOverride, now).value;
      && (now <= rec.subscriptionEndDate.t ==>
            EffectiveAdsUsed(n.adsUsed, n.lastUsageDate, later) == EffectiveAdsUsed(rec.adsUsed, rec.lastUsageDate, later))
      && (now > rec.subscriptionEndDate.t ==> EffectiveAdsUsed(n.adsUsed, n.lastUsageDate, later) == 0)
  {
  }

  /** Upgrade leaves the usage the gate sees untouched at every instant. */
  lemma UpgradeKeepsEffectiveUsage(rec: PlanRecord, planName: string, adsOverride: Option<int>,
                                   now: Instant, later: Instant)
    requires Known(planName) && Upgrade(rec, planName, adsOverride, now).Success?
    ensures var n := Upgrade(rec, planName, adsOverride, now).value;
      EffectiveAdsUsed(n.adsUsed, n.lastUsageDate, later) == EffectiveAdsUsed(rec.adsUsed, rec.lastUsageDate, later)
  {
  }

  /** Upgrades applied one after another, None at the first that is refused. */
  function UpgradeChain(rec: PlanRecord, targets: seq<string>, now: Instant): Option<PlanRecord>
    requires forall i :: 0 <= i < |targets| ==> Known(targets[i])
    decreases |targets|
  {
    if targets == [] then Some(rec)
    else match Upgrade(rec, targets[0], None, now)
      case Success(next) => UpgradeChain(next, targets[1..], now)
      case Failure(_) => None
  }

  /** Each upgrade climbs the hierarchy, so from Lite at most two can succeed in a row. */
  lemma {:induction false} UpgradeChainBounded(rec: PlanRecord, targets: seq<string>, now: Instant)
    requires forall i :: 0 <= i < |targets| ==> Known(targets[i])
    requires UpgradeChain(rec, targets, now).Some?
    ensures |targets| <= 3 - Rank(rec.planName)
    decreases |targets|
  {
    if targets != [] {
      var next := Upgrade(rec, targets[0], None, now).value;
      assert forall i :: 0 <= i < |targets[1..]| ==> Known(targets[1..][i]) by {
        forall i | 0 <= i < |targets[1..]| ensures Known(targets[1..][i]) {
          assert targets[1..][i] == targets[i + 1];
        }
      }
      UpgradeChainBounded(next, targets[1..], now);
    }
  }

  /** The reply of update_plan: the updated record and, for an upgrade, the previous plan and the balance carried forward. */
  datatype UpdateReply = UpdateReply(record: PlanRecord, previousPlan: Option<string>, carriedForwardAds: Option<int>)

  /** The balance an upgrade reports as carried forward, as the reply computes it: new balance minus the catalog's ads. */
  function CarriedForwardAsWritten(upgraded: PlanRecord, info: PlanInfo): int {
    upgraded.totalAds - info.totalAds
  }

  /**
   * An upgrade of a Lite record with 3 ads left to Plus with a requested
   * `total_ads` of 50 leaves 53 ads, and the reply calls 23 of them carried
   * forward although only 3 were.
   */
  lemma CarriedForwardAsWrittenMisreports(rec: PlanRecord, now: Instant)
    requires rec.planName == Lite && rec.totalAds == 3
    ensures Upgrade(rec, Plus, Some(50), now).Success?
    ensures Upgrade(rec, Plus, Some(50), now).value.totalAds == 53
    ensures CarriedForwardAsWritten(Upgrade(rec, Plus, Some(50), now).value, PlanConfig(Plus).value) == 23
  {
  }

  /** The balance carried forward: the new balance minus what this upgrade bought. */
  function CarriedForwardAds(upgraded: PlanRecord, bought: int): int {
    upgraded.totalAds - bought
  }

  /** The corrected figure is always the balance the record had before the upgrade. */
  lemma CarriedForwardIsPreviousBalance(rec: PlanRecord, planName: string, adsOverride: Option<int>, now: Instant)
    requires Known(planName) && Upgrade(rec, planName, adsOverride, now).Success?
    ensures CarriedForwardAds(Upgrade(rec, planName, adsOverride, now).value,
                              PurchasedAds(PlanConfig(planName).value, adsOverride)) == rec.totalAds
    ensures adsOverride.None? ==>
      CarriedForwardAsWritten(Upgrade(rec, planName, adsOverride, now).value, PlanConfig(planName).value) == rec.totalAds
  {
  }

  /** A Lite record with 3 ads left and a monthly cap of 4, upgraded to Plus. */
  lemma UpgradeLiteToPlusExample(rec: PlanRecord, now: Instant)
    requires rec.planName == Lite && rec.totalAds == 3 && rec.maxAdsPerMonth == 4
    ensures Upgrade(rec, Plus, None, now).Success?
    ensures Upgrade(rec, Plus, None, now).value.totalAds == 33
    ensures Upgrade(rec, Plus, None, now).value.maxAdsPerMonth == 9
    ensures Upgrade(rec, Plus, None, now).value.adsUsed == rec.adsUsed
  {
  }

  /** Pro is the top tier: every upgrade of a Pro record is refused. */
  lemma UpgradeFromProRefused(rec: PlanRecord, planName: string, adsOverride: Option<int>, now: Instant)
    requires rec.planName == Pro && Known(planName)
    ensures Upgrade(rec, planName, adsOverride, now) == Failure(InvalidUpgrade)
  {
  }

  /**
   * An upgrade from a catalog plan moves to a larger tier: one that lasts
   * longer, sells more ads, allows more per month and costs more.
   */
  lemma UpgradeMovesToLargerPlan(rec: PlanRecord, planName: string, adsOverride: Option<int>, now: Instant)
    requires Known(rec.planName) && Known(planName)
    requires Upgrade(rec, planName, adsOverride, now).Success?
    ensures var from := PlanConfig(rec.planName).value;
      var to := PlanConfig(planName).value;
      && from.durationDays < to.durationDays && from.totalAds < to.totalAds
      && from.maxAdsPerMonth < to.maxAdsPerMonth && from.price < to.price
  {
    HigherRankIsLargerPlan(rec.planName, planName);
  }

  /** Upgrading again to the plan just reached is refused. */
  lemma RepeatedUpgradeRefused(rec: PlanRecord, planName: string, adsOverride: Option<int>, now: Instant)
    requires Known(planName) && Upgrade(rec, planName, adsOverride, now).Success?
    ensures Upgrade(Upgrade(rec, planName, adsOverride, now).value, planName, adsOverride, now) == Failure(InvalidUpgrade)
  {
  }

  /**
   * A Lite plan ending on 2024-03-31 with 3 ads left, topped up on 2024-03-15,
   * runs on from 2024-04-01 with 15 ads and the same usage.
   */
  lemma TopupWhileActiveExample(rec: PlanRecord, endTime: Instant)
    requires rec.planName == Lite && rec.totalAds == 3
    requires 19813 * MicrosPerDay <= endTime < 19814 * MicrosPerDay
    requires rec.subscriptionEndDate == At(endTime)
    ensures var r := Topup(rec, Lite, [], None, 19797 * MicrosPerDay);
      && r.Success?
      && DateOf(r.value.subscriptionStartDate.t) == Date(2024, 4, 1)
      && r.value.totalAds == 15 && r.value.adsUsed == rec.adsUsed
  {
    var r := Topup(rec, Lite, [], None, 19797 * MicrosPerDay);
    var start := r.value.subscriptionStartDate.t;
    assert start == endTime + MicrosPerDay;
    DayNumberOf(start, 19814);
    Day19814IsApril1();
  }

  /**
   * The same plan topped up on 2024-04-10, after it ended, starts again that
   * day with the 12 catalog ads and no usage.
   */
  lemma TopupAfterExpiryExample(rec: PlanRecord, endTime: Instant)
    requires rec.planName == Lite && rec.totalAds == 3
    requires 19813 * MicrosPerDay <= endTime < 19814 * MicrosPerDay
    requires rec.subscriptionEndDate == At(endTime)
    ensures var r := Topup(rec, Lite, [], None, 19823 * MicrosPerDay);
      && r.Success?
      && DateOf(r.value.subscriptionStartDate.t) == Date(2024, 4, 10)
      && r.value.totalAds == 12 && r.value.adsUsed == 0
  {
    var r := Topup(rec, Lite, [], None, 19823 * MicrosPerDay);
    assert r.value.subscriptionStartDate.t == 19823 * MicrosPerDay;
    DayNumberOf(19823 * MicrosPerDay, 19823);
    Day19823IsApril10();
  }
}
