/**
 * The date arithmetic of the plan-status query: whether the plan is running,
 * the days left and gone, and the period a topup would buy.
 */
module PlanStatus {
  import opened Wrappers
  import opened Calendar
  import opened Catalog
  import opened PlanRecords
  import opened PlanMutation

  datatype Status = Status(
    planName: string,
    isActive: bool,
    startDate: Date,
    endDate: Date,
    daysRemaining: int,
    daysElapsed: int,
    totalAds: int,
    adsUsed: int,
    maxAdsPerMonth: int,
    lastUsageDate: DateField,
    canTopup: bool,
    nextPeriodStart: Date,
    nextPeriodEnd: Date,
    topupAds: int,
    topupMonthlyLimit: int)

  /** The catalog entry of a plan name, or all zeros for an unknown one. */
  function InfoOrZero(name: string): (r: PlanInfo)
    ensures Known(name) ==> PlanConfig(name) == Some(r)
    ensures !Known(name) ==> r == PlanInfo(0, 0, 0, 0)
  {
    match PlanConfig(name)
    case Some(info) => info
    case None => PlanInfo(0, 0, 0, 0)
  }

  /**
   * The status of one record at `now`. Both subscription dates must parse.
   * A plan is active up to and including its end instant; the whole days
   * remaining and elapsed are rounded down and zero outside the period; the
   * stored counters are reported as stored.
   */
  function StatusOf(rec: PlanRecord, now: Instant): (r: Result<Status, Error>)
    ensures r.Failure? <==> !(rec.subscriptionStartDate.At? && rec.subscriptionEndDate.At?)
    ensures r.Failure? ==> r.error == MalformedDate
    ensures r.Success? ==>
      var s := r.value;
      var start := rec.subscriptionStartDate.t;
      var end := rec.subscriptionEndDate.t;
      && (s.isActive <==> now <= end)
      && s.canTopup == s.isActive
      && (!s.isActive ==> s.daysRemaining == 0)
      && (now < start ==> s.daysElapsed == 0)
      && s.startDate == DateOf(start) && s.endDate == DateOf(end)
      && s.planName == rec.planName && s.totalAds == rec.totalAds && s.adsUsed == rec.adsUsed
      && s.maxAdsPerMonth == rec.maxAdsPerMonth && s.lastUsageDate == rec.lastUsageDate
  {
    match (rec.subscriptionStartDate, rec.subscriptionEndDate)
    case (At(start), At(end)) =>
      var isActive := now <= end;
      var info := InfoOrZero(rec.planName);
      Success(Status(
        planName := rec.planName,
        isActive := isActive,
        startDate := DateOf(start),
        endDate := DateOf(end),
        daysRemaining := if isActive then WholeDays(now, end) else 0,
        daysElapsed := if now >= start then WholeDays(start, now) else 0,
        totalAds := rec.totalAds,
        adsUsed := rec.adsUsed,
        maxAdsPerMonth := rec.maxAdsPerMonth,
        lastUsageDate := rec.lastUsageDate,
        canTopup := isActive,
        nextPeriodStart := if isActive then DateOf(AddDays(end, 1)) else DateOf(now),
        nextPeriodEnd := if isActive then DateOf(AddDays(end, 1 + info.durationDays))
                         else DateOf(AddDays(now, info.durationDays)),
        topupAds := info.totalAds,
        topupMonthlyLimit := info.maxAdsPerMonth))
    case _ => Failure(MalformedDate)
  }

  /**
   * The whole days remaining and elapsed are the real gaps rounded down:
   * never negative, at most the gap, and less than one day short of it.
   */
  lemma StatusDayCounts(rec: PlanRecord, now: Instant)
    requires rec.subscriptionStartDate.At? && rec.subscriptionEndDate.At?
    ensures StatusOf(rec, now).Success?
    ensures var s := StatusOf(rec, now).value;
      var start := rec.subscriptionStartDate.t;
      var end := rec.subscriptionEndDate.t;
      && s.daysRemaining >= 0 && s.daysElapsed >= 0
      && (s.isActive ==> s.daysRemaining * MicrosPerDay <= end - now < (s.daysRemaining + 1) * MicrosPerDay)
      && (now >= start ==> s.daysElapsed * MicrosPerDay <= now - start < (s.daysElapsed + 1) * MicrosPerDay)
  {
    var s := StatusOf(rec, now).value;
    var start := rec.subscriptionStartDate.t;
    var end := rec.subscriptionEndDate.t;
    if s.isActive {
      assert s.daysRemaining == WholeDays(now, end);
    }
    if now >= start {
      assert s.daysElapsed == WholeDays(start, now);
    }
  }

  /**
   * For every record whose dates parse, catalog plan or not, the announced
   * next period is the renewal window of the plan's duration (zero days for
   * a name outside the catalog): from the day after the end while the plan
   * is active, from now otherwise. The announced ads and cap are the
   * catalog's, or zero.
   */
  lemma StatusAnnouncesRenewal(rec: PlanRecord, now: Instant)
    requires rec.subscriptionStartDate.At? && rec.subscriptionEndDate.At?
    ensures StatusOf(rec, now).Success?
    ensures var s := StatusOf(rec, now).value;
      var info := InfoOrZero(rec.planName);
      var w := RenewalWindow(rec.subscriptionEndDate.t, now, info.durationDays);
      && s.nextPeriodStart == DateOf(w.start) && s.nextPeriodEnd == DateOf(w.end)
      && s.topupAds == info.totalAds && s.topupMonthlyLimit == info.maxAdsPerMonth
  {
    var end := rec.subscriptionEndDate.t;
    var info := InfoOrZero(rec.planName);
    var s := StatusOf(rec, now).value;
    var w := RenewalWindow(end, now, info.durationDays);
    if now <= end {
      AddDaysTwice(end, 1, info.durationDays);
      assert w.start == AddDays(end, 1) && w.end == AddDays(end, 1 + info.durationDays);
      assert s.nextPeriodStart == DateOf(AddDays(end, 1));
      assert s.nextPeriodEnd == DateOf(AddDays(end, 1 + info.durationDays));
    } else {
      assert w.start == now && w.end == AddDays(now, info.durationDays);
      assert s.nextPeriodStart == DateOf(now);
      assert s.nextPeriodEnd == DateOf(AddDays(now, info.durationDays));
    }
  }

  /**
   * The period the status announces is the one a topup at the same instant
   * buys: its first and last day agree with the topup's new window.
   */
  lemma ForecastWindow(rec: PlanRecord, features: seq<string>, adsOverride: Option<int>, now: Instant)
    requires Known(rec.planName)
    requires rec.subscriptionStartDate.At? && rec.subscriptionEndDate.At?
    ensures StatusOf(rec, now).Success? && Topup(rec, rec.planName, features, adsOverride, now).Success?
    ensures var s := StatusOf(rec, now).value;
      var n := Topup(rec, rec.planName, features, adsOverride, now).value;
      && s.nextPeriodStart == DateOf(n.subscriptionStartDate.t)
      && s.nextPeriodEnd == DateOf(n.subscriptionEndDate.t)
  {
    StatusAnnouncesRenewal(rec, now);
    var info := PlanConfig(rec.planName).value;
    assert InfoOrZero(rec.planName) == info;
    var n := Topup(rec, rec.planName, features, adsOverride, now).value;
    var w := RenewalWindow(rec.subscriptionEndDate.t, now, info.durationDays);
    assert n.subscriptionStartDate == At(w.start) && n.subscriptionEndDate == At(w.end);
  }

  /**
   * A plan shown as active is extended from the day after its end, one shown
   * as inactive is restarted now with no usage; the announced ads and cap are
   * the ones a topup without an override grants.
   */
  lemma ForecastAllowance(rec: PlanRecord, features: seq<string>, adsOverride: Option<int>, now: Instant)
    requires Known(rec.planName)
    requires rec.subscriptionStartDate.At? && rec.subscriptionEndDate.At?
    ensures StatusOf(rec, now).Success? && Topup(rec, rec.planName, features, adsOverride, now).Success?
    ensures var s := StatusOf(rec, now).value;
      var n := Topup(rec, rec.planName, features, adsOverride, now).value;
      && (s.canTopup ==> n.subscriptionStartDate.t == AddDays(rec.subscriptionEndDate.t, 1))
      && (!s.canTopup ==> n.subscriptionStartDate.t == now && n.adsUsed == 0)
      && s.topupAds == PurchasedAds(PlanConfig(rec.planName).value, None)
      && s.topupMonthlyLimit == n.maxAdsPerMonth
  {
    assert InfoOrZero(rec.planName) == PlanConfig(rec.planName).value;
  }

  /**
   * The status reports no topup possible on an expired plan, yet the update
   * endpoint accepts a topup there and restarts the plan.
   */
  lemma ExpiredPlanStillToppedUp(rec: PlanRecord, now: Instant)
    requires Known(rec.planName)
    requires rec.subscriptionStartDate.At? && rec.subscriptionEndDate.At? && now > rec.subscriptionEndDate.t
    ensures StatusOf(rec, now).Success? && !StatusOf(rec, now).value.canTopup
    ensures Topup(rec, rec.planName, [], None, now).Success?
  {
  }
}
