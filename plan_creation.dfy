/**
 * Plan creation: the initial record of a plan selection and of a fresh
 * subscription.
 */
module PlanCreation {
  import opened Wrappers
  import opened Calendar
  import opened Catalog
  import opened PlanRecords
  import opened BillingPeriod
  import opened ConsumptionGate

  /**
   * The record a plan selection stores, from the submitted values: nothing
   * used yet and no last-usage date.
   */
  function PlanSelection(planName: string, startDate: DateField, endDate: DateField, totalPrice: int,
                         totalAds: int, validityDays: int, features: seq<string>, updatedAt: DateField,
                         maxAdsPerMonth: int): (r: PlanRecord)
    ensures r.adsUsed == 0 && r.lastUsageDate == Missing
    ensures r.planName == planName && r.totalAds == totalAds && r.maxAdsPerMonth == maxAdsPerMonth
    ensures r.subscriptionStartDate == startDate && r.subscriptionEndDate == endDate
    ensures r.totalPrice == totalPrice && r.validityDays == validityDays
    ensures r.selectedFeatures == features && r.updatedAt == updatedAt
  {
    PlanRecord(planName, totalAds, maxAdsPerMonth, 0, Missing, startDate, endDate,
               validityDays, totalPrice, features, updatedAt)
  }

  /**
   * A fresh subscription to a catalog plan: it starts now and lasts the
   * plan's duration, with the submitted balance, cap and price, nothing used
   * and the fixed feature list. An unknown plan name is refused.
   */
  function FreshSubscription(planName: string, totalAds: int, maxAdsPerMonth: int, price: int, now: Instant)
    : (r: Result<PlanRecord, Error>)
    ensures r.Failure? <==> !Known(planName)
    ensures r.Failure? ==> r.error == InvalidPlan
    ensures r.Success? ==>
      var n := r.value;
      && n.planName == planName && n.adsUsed == 0 && n.lastUsageDate == Missing
      && n.subscriptionStartDate == At(now)
      && n.subscriptionEndDate == At(AddDays(now, PlanConfig(planName).value.durationDays))
      && n.validityDays == PlanConfig(planName).value.durationDays
      && n.totalAds == totalAds && n.maxAdsPerMonth == maxAdsPerMonth && n.totalPrice == price
      && n.selectedFeatures == FreshSubscriptionFeatures && n.updatedAt == At(now)
  {
    match PlanConfig(planName)
    case None => Failure(InvalidPlan)
    case Some(info) =>
      Success(PlanRecord(planName, totalAds, maxAdsPerMonth, 0, Missing, At(now),
                         At(AddDays(now, info.durationDays)), info.durationDays, price,
                         FreshSubscriptionFeatures, At(now)))
  }

  /**
   * A newly created record has used nothing at any instant, so its first
   * request is refused only for a cap or a balance that is not positive.
   */
  lemma NewRecordStartsUnused(r: PlanRecord, later: Instant)
    requires r.adsUsed == 0 && r.lastUsageDate == Missing
    ensures EffectiveAdsUsed(r.adsUsed, r.lastUsageDate, later) == 0
    ensures CheckEntitlement(r, later).Success? <==> r.maxAdsPerMonth > 0 && r.totalAds > 0
  {
  }
}
