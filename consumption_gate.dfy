/**
 * The consumption gate of an analysis request: validate the entitlement
 * before the remote analysis call, and charge exactly one ad afterwards when
 * at least one analysis result succeeded.
 */
module ConsumptionGate {
  import opened Wrappers
  import opened Calendar
  import opened PlanRecords
  import opened BillingPeriod

  /** What validation saw and later commits build on: the effective monthly count and the balance. */
  datatype Grant = Grant(adsUsed: int, totalAds: int)

  /**
   * Validation: the monthly cap is checked first, against the usage after the
   * billing-period rollover, and the remaining balance second.
   */
  function CheckEntitlement(rec: PlanRecord, now: Instant): (r: Result<Grant, Error>)
    ensures var used := EffectiveAdsUsed(rec.adsUsed, rec.lastUsageDate, now);
      && (r == Failure(MonthlyLimitExceeded) <==> used >= rec.maxAdsPerMonth)
      && (r == Failure(BalanceExhausted) <==> used < rec.maxAdsPerMonth && rec.totalAds <= 0)
      && (r.Success? <==> used < rec.maxAdsPerMonth && rec.totalAds > 0)
      && (r.Success? ==> r.value == Grant(used, rec.totalAds))
  {
    var used := EffectiveAdsUsed(rec.adsUsed, rec.lastUsageDate, now);
    if used >= rec.maxAdsPerMonth then Failure(MonthlyLimitExceeded)
    else if rec.totalAds <= 0 then Failure(BalanceExhausted)
    else Success(Grant(used, rec.totalAds))
  }

  /** The number of successful results among the analysis outcomes. */
  function SuccessCount(outcomes: seq<bool>): (n: nat)
    ensures n <= |outcomes|
  {
    if outcomes == [] then 0
    else SuccessCount(outcomes[..|outcomes| - 1]) + (if outcomes[|outcomes| - 1] then 1 else 0)
  }

  /** The gate charges when and only when some result succeeded. */
  lemma {:induction false} SuccessCountPositive(outcomes: seq<bool>)
    ensures SuccessCount(outcomes) > 0 <==> exists i :: 0 <= i < |outcomes| && outcomes[i]
  {
    if outcomes != [] {
      var init := outcomes[..|outcomes| - 1];
      SuccessCountPositive(init);
      if exists i :: 0 <= i < |init| && init[i] {
        var i :| 0 <= i < |init| && init[i];
        assert outcomes[i];
      }
    }
  }

  /**
   * The per-field update of a commit: usage one above what validation saw,
   * balance one below it, and usage and update time stamped with `now`.
   */
  function Commit(rec: PlanRecord, grant: Grant, now: Instant): (r: PlanRecord)
    ensures r.adsUsed == grant.adsUsed + 1 && r.totalAds == grant.totalAds - 1
    ensures r.lastUsageDate == At(now) && r.updatedAt == At(now)
    ensures r.(adsUsed := rec.adsUsed, totalAds := rec.totalAds,
               lastUsageDate := rec.lastUsageDate, updatedAt := rec.updatedAt) == rec
  {
    rec.(adsUsed := grant.adsUsed + 1, totalAds := grant.totalAds - 1,
         lastUsageDate := At(now), updatedAt := At(now))
  }

  /**
   * The whole gate for one request: the new record, or the error the
   * request fails with before anything is written.
   */
  function Consume(rec: PlanRecord, now: Instant, outcomes: seq<bool>): (r: Result<PlanRecord, Error>)
    ensures CheckEntitlement(rec, now).Failure? ==> r == Failure(CheckEntitlement(rec, now).error)
    ensures CheckEntitlement(rec, now).Success? && SuccessCount(outcomes) == 0 ==> r == Failure(AnalysisFailed)
    ensures r.Success? <==> CheckEntitlement(rec, now).Success? && SuccessCount(outcomes) > 0
    ensures r.Success? ==> r.value == Commit(rec, CheckEntitlement(rec, now).value, now)
    ensures r.Success? ==> r.value.adsUsed <= rec.maxAdsPerMonth && r.value.totalAds >= 0
    ensures r.Success? ==> r.value.totalAds == rec.totalAds - 1
  {
    match CheckEntitlement(rec, now)
    case Failure(e) => Failure(e)
    case Success(grant) =>
      if SuccessCount(outcomes) == 0 then Failure(AnalysisFailed) else Success(Commit(rec, grant, now))
  }

  /**
   * After a charge, the gate sees the new count for the rest of the month and
   * zero from the next month on.
   */
  lemma ConsumedUsageIsMonthScoped(rec: PlanRecord, now: Instant, outcomes: seq<bool>, later: Instant)
    requires Consume(rec, now, outcomes).Success?
    ensures var r := Consume(rec, now, outcomes).value;
      && (SameMonth(now, later) ==>
            EffectiveAdsUsed(r.adsUsed, r.lastUsageDate, later) == EffectiveAdsUsed(rec.adsUsed, rec.lastUsageDate, now) + 1)
      && (!SameMonth(now, later) ==> EffectiveAdsUsed(r.adsUsed, r.lastUsageDate, later) == 0)
  {
  }

  /** A charge keeps the usage count non-negative. */
  lemma ConsumeKeepsUsageNonNegative(rec: PlanRecord, now: Instant, outcomes: seq<bool>)
    requires UsageNonNegative(rec) && Consume(rec, now, outcomes).Success?
    ensures UsageNonNegative(Consume(rec, now, outcomes).value)
  {
  }
}
