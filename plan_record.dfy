/**
 * The plan record kept per user in the PlanSelectionDetails collection, and the
 * errors the entitlement engine reports.
 */
module PlanRecords {
  import opened Calendar

  type UserId = string

  /**
   * A stored date field. `Missing` is an absent, null or empty value (all of
   * which the service treats as false); `Malformed` is a non-empty value that
   * `datetime.fromisoformat` rejects; `At(t)` is a date the service can parse.
   */
  datatype DateField = Missing | Malformed | At(t: Instant)

  /**
   * The entitlement fields of a plan record. Both operations that create a
   * record, the plan selection and the fresh subscription, write all of
   * them, so the model has no absent field: the `dict.get` defaults of the
   * readers and the `data["adsUsed"]` of the update reply never meet a
   * missing one.
   */
  datatype PlanRecord = PlanRecord(
    planName: string,
    totalAds: int,
    maxAdsPerMonth: int,
    adsUsed: int,
    lastUsageDate: DateField,
    subscriptionStartDate: DateField,
    subscriptionEndDate: DateField,
    validityDays: int,
    totalPrice: int,
    selectedFeatures: seq<string>,
    updatedAt: DateField)

  /** The error responses of the endpoints, one case per distinct failure. */
  datatype Error =
    | NotFound               // no plan record for the user
    | PlanMismatch           // topup asked for a plan other than the current one
    | InvalidUpgrade         // upgrade target does not rank above the current plan
    | MonthlyLimitExceeded   // this month's usage has reached the monthly cap
    | BalanceExhausted       // no ads left in the plan
    | InvalidPlan            // plan name not in the catalog
    | InvalidAction          // update action neither "topup" nor "upgrade"
    | AnalysisFailed         // no analysis result succeeded, or its record could not be saved
    | MalformedDate          // a subscription date the service must parse does not parse
    | ProfileWriteFailed     // the profile write after a stored fresh subscription failed

  /** The monthly usage count a record stores is never negative. */
  predicate UsageNonNegative(rec: PlanRecord) {
    rec.adsUsed >= 0
  }
}
