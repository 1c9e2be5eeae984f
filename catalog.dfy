/**
 * The static plan catalog (PLAN_CONFIG) and the upgrade hierarchy (PLAN_HIERARCHY).
 */
module Catalog {
  import opened Wrappers

  /** One catalog entry: the period length, the ads sold, the monthly cap and the price. */
  datatype PlanInfo = PlanInfo(durationDays: int, totalAds: int, maxAdsPerMonth: int, price: int)

  const Lite: string := "Incivus_Lite"
  const Plus: string := "Incivus_Plus"
  const Pro: string := "Incivus_Pro"

  /** The features an upgrade grants, whatever the target tier. */
  const UpgradeFeatures: seq<string> :=
    ["brand_compliance", "content_analysis", "metaphor_analysis", "channel_compliance"]

  /** The features a fresh subscription is created with. */
  const FreshSubscriptionFeatures: seq<string> :=
    ["brand_compliance", "messaging_intent", "funnel_compatibility", "channel_compliance"]

  predicate Known(name: string) {
    name == Lite || name == Plus || name == Pro
  }

  /** `PLAN_CONFIG.get(name)`. */
  function PlanConfig(name: string): (r: Option<PlanInfo>)
    ensures r.Some? <==> Known(name)
    ensures r.Some? ==>
      r.value.durationDays > 0 && r.value.totalAds > 0 && r.value.maxAdsPerMonth > 0 && r.value.price > 0
  {
    if name == Lite then Some(PlanInfo(90, 12, 4, 50))
    else if name == Plus then Some(PlanInfo(180, 30, 5, 100))
    else if name == Pro then Some(PlanInfo(365, 132, 11, 400))
    else None
  }

  /** `PLAN_HIERARCHY.get(name, 0)`: an unknown or missing plan name ranks 0. */
  function Rank(name: string): (r: nat)
    ensures r <= 3
    ensures r == 0 <==> !Known(name)
  {
    if name == Lite then 1 else if name == Plus then 2 else if name == Pro then 3 else 0
  }

  /** A higher tier lasts longer, sells more ads, allows more per month and costs more. */
  lemma HigherRankIsLargerPlan(lower: string, higher: string)
    requires 0 < Rank(lower) < Rank(higher)
    ensures PlanConfig(lower).Some? && PlanConfig(higher).Some?
    ensures PlanConfig(lower).value.durationDays < PlanConfig(higher).value.durationDays
    ensures PlanConfig(lower).value.totalAds < PlanConfig(higher).value.totalAds
    ensures PlanConfig(lower).value.maxAdsPerMonth < PlanConfig(higher).value.maxAdsPerMonth
    ensures PlanConfig(lower).value.price < PlanConfig(higher).value.price
  {
  }
}
