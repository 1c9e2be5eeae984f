/**
 * The plan-record store and the endpoints of the entitlement engine that
 * read and write it. The document collection is a map from user to record;
 * each endpoint is a method that changes only that map.
 */
module PlanStore {
  import opened Wrappers
  import opened Calendar
  import opened Catalog
  import opened PlanRecords
  import opened BillingPeriod
  import opened ConsumptionGate
  import opened PlanMutation
  import opened PlanCreation
  import opened Reconciliation
  import opened PlanStatus

  /** The usage figures an analysis record keeps beside its results. */
  datatype UsageSnapshot = UsageSnapshot(adsUsed: int, maxAdsPerMonth: int, totalAdsRemaining: int, planName: string)

  /** The topup branch's field updates on a record whose plan is `info`'s and whose end date parses. */
  method RenewRecord(data: PlanRecord, info: PlanInfo, features: seq<string>, adsOverride: Option<int>, now: Instant)
    returns (n: PlanRecord)
    requires Known(data.planName) && info == PlanConfig(data.planName).value && data.subscriptionEndDate.At?
    ensures Topup(data, data.planName, features, adsOverride, now) == Success(n)
  {
    n := data;
    var currentEnd := n.subscriptionEndDate.t;
    var newStart := if now > currentEnd then now else AddDays(currentEnd, 1);
    var newEnd := AddDays(newStart, info.durationDays);
    assert RenewalWindow(currentEnd, now, info.durationDays) == Window(newStart, newEnd);
    n := n.(subscriptionStartDate := At(newStart));
    n := n.(subscriptionEndDate := At(newEnd));
    n := n.(validityDays := info.durationDays);
    var topupAds := if adsOverride.Some? then adsOverride.value else info.totalAds;
    var currentRemainingAds := n.totalAds;
    if now > currentEnd {
      n := n.(totalAds := topupAds);
      n := n.(adsUsed := 0);
    } else {
      n := n.(totalAds := currentRemainingAds + topupAds);
    }
    n := n.(maxAdsPerMonth := info.maxAdsPerMonth);
    n := n.(totalPrice := n.totalPrice + info.price);
    n := n.(updatedAt := At(now));
    if features != [] {
      n := n.(selectedFeatures := features);
    }
  }

  /** The upgrade branch's field updates, moving the record to `planName`. */
  method UpgradeRecord(data: PlanRecord, planName: string, info: PlanInfo, adsOverride: Option<int>, now: Instant)
    returns (n: PlanRecord)
    requires Known(planName) && info == PlanConfig(planName).value && Rank(planName) > Rank(data.planName)
    ensures Upgrade(data, planName, adsOverride, now) == Success(n)
  {
    n := data;
    var remainingAds := n.totalAds;
    var newStart := now;
    var newEnd := AddDays(newStart, info.durationDays);
    var combinedMaxAdsPerMonth := n.maxAdsPerMonth + info.maxAdsPerMonth;
    var newPlanAds := if adsOverride.Some? then adsOverride.value else info.totalAds;
    n := n.(planName := planName);
    n := n.(subscriptionStartDate := At(newStart));
    n := n.(subscriptionEndDate := At(newEnd));
    n := n.(validityDays := info.durationDays);
    n := n.(totalAds := remainingAds + newPlanAds);
    n := n.(maxAdsPerMonth := combinedMaxAdsPerMonth);
    n := n.(totalPrice := n.totalPrice + info.price);
    n := n.(updatedAt := At(now));
    n := n.(selectedFeatures := UpgradeFeatures);
  }

  class Store {
    var plans: map<UserId, PlanRecord>

    /** Every stored usage count is non-negative. */
    ghost predicate Valid()
      reads this
    {
      forall u :: u in plans ==> UsageNonNegative(plans[u])
    }

    constructor ()
      ensures Valid() && plans == map[]
    {
      plans := map[];
    }

    /** The stored record of a user, if any. */
    function Lookup(userId: UserId): (r: Option<PlanRecord>)
      reads this
      ensures r.Some? <==> userId in plans
      ensures r.Some? ==> r.value == plans[userId]
    {
      if userId in plans then Some(plans[userId]) else None
    }

    /** A plan selection overwrites the user's record with the submitted plan, nothing used. */
    method SavePlanSelection(userId: UserId, planName: string, startDate: DateField, endDate: DateField,
                             totalPrice: int, totalAds: int, validityDays: int, features: seq<string>,
                             updatedAt: DateField, maxAdsPerMonth: int)
      requires Valid()
      modifies this
      ensures Valid()
      ensures plans == old(plans)[userId := PlanSelection(planName, startDate, endDate, totalPrice, totalAds,
                                                          validityDays, features, updatedAt, maxAdsPerMonth)]
    {
      var planData := PlanRecord(planName, totalAds, maxAdsPerMonth, 0, Missing, startDate, endDate,
                                 validityDays, totalPrice, features, updatedAt);
      plans := plans[userId := planData];
    }

    /** A fresh subscription replaces the user's record; an unknown plan writes nothing. */
    method CreateFreshSubscription(userId: UserId, planName: string, totalAds: int, maxAdsPerMonth: int,
                                   price: int, now: Instant, profileWritten: bool)
      returns (r: Result<PlanRecord, Error>)
      requires Valid()
      modifies this
      ensures Valid()
      ensures var f := FreshSubscription(planName, totalAds, maxAdsPerMonth, price, now);
        && (f.Failure? ==> r == f && plans == old(plans))
        && (f.Success? ==> plans == old(plans)[userId := f.value])
        && (f.Success? && profileWritten ==> r == f)
        && (f.Success? && !profileWritten ==> r == Failure(ProfileWriteFailed))
    {
      var planInfo := PlanConfig(planName);
      if planInfo.None? {
        return Failure(InvalidPlan);
      }
      var startDate := now;
      var endDate := AddDays(startDate, planInfo.value.durationDays);
      var planData := PlanRecord(planName, totalAds, maxAdsPerMonth, 0, Missing, At(startDate), At(endDate),
                                 planInfo.value.durationDays, price, FreshSubscriptionFeatures, At(startDate));
      plans := plans[userId := planData];
      if !profileWritten {
        return Failure(ProfileWriteFailed);
      }
      r := Success(planData);
    }

    /**
     * An analysis request. Validation reads the record, applies the monthly
     * rollover in memory and checks the cap, then the balance; a refusal
     * writes nothing. The remote analysis outcomes are given as success
     * flags; with none successful nothing is charged. Otherwise one ad is
     * charged on top of the rolled-over usage, and the charge stands even
     * when saving the analysis record afterwards fails. Because stored usage
     * is never negative, a reported usage is at least one and within the cap.
     */
    method PostAnalysis(userId: UserId, now: Instant, outcomes: seq<bool>, recordSaved: bool)
      returns (r: Result<UsageSnapshot, Error>)
      requires Valid()
      modifies this
      ensures Valid()
      ensures userId !in old(plans) ==> r == Failure(NotFound) && plans == old(plans)
      ensures userId in old(plans) ==>
        var c := Consume(old(plans)[userId], now, outcomes);
        && (c.Failure? ==> r == Failure(c.error) && plans == old(plans))
        && (c.Success? ==> plans == old(plans)[userId := c.value])
        && (c.Success? && recordSaved ==>
              r == Success(UsageSnapshot(c.value.adsUsed, c.value.maxAdsPerMonth, c.value.totalAds, c.value.planName)))
        && (c.Success? && !recordSaved ==> r == Failure(AnalysisFailed))
      ensures r.Success? ==> 1 <= r.value.adsUsed <= r.value.maxAdsPerMonth
    {
      if userId !in plans {
        return Failure(NotFound);
      }
      var planData := plans[userId];
      var maxAdsPerMonth := planData.maxAdsPerMonth;
      var adsUsed := planData.adsUsed;
      var totalAds := planData.totalAds;
      match planData.lastUsageDate {
        case Missing =>
        case Malformed =>
          adsUsed := 0;
        case At(lastUsage) =>
          if DateOf(now).year != DateOf(lastUsage).year || DateOf(now).month != DateOf(lastUsage).month {
            adsUsed := 0;
          }
      }
      if adsUsed >= maxAdsPerMonth {
        return Failure(MonthlyLimitExceeded);
      }
      if totalAds <= 0 {
        return Failure(BalanceExhausted);
      }
      if SuccessCount(outcomes) == 0 {
        return Failure(AnalysisFailed);
      }
      var newAdsUsed := adsUsed + 1;
      var newTotalAds := totalAds - 1;
      plans := plans[userId := planData.(adsUsed := newAdsUsed, totalAds := newTotalAds,
                                         lastUsageDate := At(now), updatedAt := At(now))];
      if !recordSaved {
        return Failure(AnalysisFailed);
      }
      r := Success(UsageSnapshot(newAdsUsed, maxAdsPerMonth, newTotalAds, planData.planName));
    }

    /**
     * update_plan: a topup or an upgrade of the user's record, built field by
     * field on a copy and written back once; every refusal writes nothing.
     * An upgrade reply names the previous plan and the balance carried forward.
     */
    method UpdatePlan(userId: UserId, planName: string, action: string, features: seq<string>,
                      adsOverride: Option<int>, now: Instant)
      returns (r: Result<UpdateReply, Error>)
      requires Valid()
      modifies this
      ensures Valid()
      ensures var d := PlanMutation.UpdatePlan(old(Lookup(userId)), planName, action, features, adsOverride, now);
        && (d.Failure? ==> r == Failure(d.error) && plans == old(plans))
        && (d.Success? ==> r.Success? && r.value.record == d.value && plans == old(plans)[userId := d.value])
      ensures r.Success? && action == TopupAction ==> r.value.previousPlan.None? && r.value.carriedForwardAds.None?
      ensures r.Success? && action == UpgradeAction ==>
        var info := PlanConfig(planName).value;
        && r.value.previousPlan == Some(old(plans)[userId].planName)
        && r.value.carriedForwardAds == Some(old(plans)[userId].totalAds + PurchasedAds(info, adsOverride) - info.totalAds)
        && r.value.carriedForwardAds == Some(CarriedForwardAsWritten(r.value.record, info))
        && (adsOverride.None? ==> r.value.carriedForwardAds == Some(old(plans)[userId].totalAds))
    {
      var planInfo := PlanConfig(planName);
      if planInfo.None? {
        return Failure(InvalidPlan);
      }
      var info := planInfo.value;
      if userId !in plans {
        return Failure(NotFound);
      }
      var data := plans[userId];
      var currentPlanName := data.planName;
      var reply: UpdateReply;
      if action == TopupAction {
        if planName != currentPlanName {
          return Failure(PlanMismatch);
        }
        if !data.subscriptionEndDate.At? {
          return Failure(MalformedDate);
        }
        data := RenewRecord(data, info, features, adsOverride, now);
        reply := UpdateReply(data, None, None);
      } else if action == UpgradeAction {
        if Rank(planName) <= Rank(currentPlanName) {
          return Failure(InvalidUpgrade);
        }
        data := UpgradeRecord(data, planName, info, adsOverride, now);
        var carriedForwardAds := data.totalAds - info.totalAds;
        reply := UpdateReply(data, Some(currentPlanName), Some(carriedForwardAds));
      } else {
        return Failure(InvalidAction);
      }
      plans := plans[userId := data];
      r := Success(reply);
    }

    /** A manual reset: zero usage and last usage now, for a user that has a record. */
    method ResetMonthlyUsage(userId: UserId, now: Instant) returns (r: Result<(), Error>)
      requires Valid()
      modifies this
      ensures Valid()
      ensures userId !in old(plans) ==> r == Failure(NotFound) && plans == old(plans)
      ensures userId in old(plans) ==> r == Success(()) && plans == old(plans)[userId := ResetUsage(old(plans)[userId], now)]
    {
      if userId !in plans {
        return Failure(NotFound);
      }
      var planData := plans[userId];
      plans := plans[userId := planData.(adsUsed := 0, lastUsageDate := At(now), updatedAt := At(now))];
      r := Success(());
    }

    /**
     * The month-end sweep: every record whose last usage parses and lies in
     * another month is reset, the others are left alone, and the number of
     * records reset is returned.
     */
    method ResetAllMonthlyUsage(now: Instant) returns (resetCount: nat)
      requires Valid()
      modifies this
      ensures Valid()
      ensures plans == Swept(old(plans), now)
      ensures resetCount == |DueUsers(old(plans), now)|
    {
      ghost var start := plans;
      ghost var due := DueUsers(start, now);
      ghost var resetUsers: set<UserId> := {};
      var pending := plans.Keys;
      resetCount := 0;
      while pending != {}
        invariant SweepProgress(start, now, due, pending, plans, resetUsers)
        invariant resetCount == |resetUsers|
        decreases pending
      {
        var userId :| userId in pending;
        var planData := plans[userId];
        var lastUsageDate := planData.lastUsageDate;
        if lastUsageDate.At? && !SameMonth(lastUsageDate.t, now) {
          SweepVisitDue(start, now, due, pending, plans, resetUsers, userId);
          plans := plans[userId := planData.(adsUsed := 0, lastUsageDate := At(now), updatedAt := At(now))];
          resetCount := resetCount + 1;
          resetUsers := resetUsers + {userId};
        } else {
          SweepVisitSkipped(start, now, due, pending, plans, resetUsers, userId);
        }
        pending := pending - {userId};
      }
      SweepProgressDone(start, now, plans, resetUsers);
      SweepKeepsUsageNonNegative(start, now);
    }

    /** The plan-status query for a user. */
    function PlanStatusOf(userId: UserId, now: Instant): (r: Result<Status, Error>)
      reads this
      ensures userId !in plans ==> r == Failure(NotFound)
      ensures userId in plans ==> r == StatusOf(plans[userId], now)
    {
      if userId in plans then StatusOf(plans[userId], now) else Failure(NotFound)
    }
  }
}
