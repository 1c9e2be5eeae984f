/**
 * The billing-period policy: when the monthly usage count starts again at zero.
 */
module BillingPeriod {
  import opened Calendar
  import opened PlanRecords

  /**
   * The monthly count the consumption gate checks against the cap. A stored
   * last-usage date in an earlier (or any other) calendar month than `now`
   * discards the stored count; a date that does not parse discards it too; no
   * date at all keeps it.
   */
  function EffectiveAdsUsed(stored: int, last: DateField, now: Instant): (used: int)
    ensures last.Missing? ==> used == stored
    ensures last.Malformed? ==> used == 0
    ensures last.At? && SameMonth(last.t, now) ==> used == stored
    ensures last.At? && !SameMonth(last.t, now) ==> used == 0
  {
    match last
    case Missing => stored
    case Malformed => 0
    case At(t) =>
      if DateOf(now).year != DateOf(t).year || DateOf(now).month != DateOf(t).month then 0 else stored
  }

  /**
   * The test the month-end sweep applies to one record: only a date that
   * parses and lies in another month than `now` triggers a reset.
   */
  predicate SweepDue(last: DateField, now: Instant) {
    last.At? && !SameMonth(last.t, now)
  }

  /**
   * The gate and the sweep agree on every parsable or missing date; they part
   * only on a malformed one, which the gate reads as zero usage and the sweep
   * skips.
   */
  lemma GateAndSweepAgree(stored: int, last: DateField, now: Instant)
    requires stored != 0
    ensures !last.Malformed? ==> (EffectiveAdsUsed(stored, last, now) == 0 <==> SweepDue(last, now))
    ensures last.Malformed? ==> EffectiveAdsUsed(stored, last, now) == 0 && !SweepDue(last, now)
  {
  }

  /** A last use on 2024-01-15 is forgotten on 2024-02-01. */
  lemma RolloverAcrossMonthsExample(stored: int)
    ensures EffectiveAdsUsed(stored, At(19737 * MicrosPerDay + 3_600_000_000), 19754 * MicrosPerDay) == 0
  {
    DayNumberOf(19737 * MicrosPerDay + 3_600_000_000, 19737);
    DayNumberOf(19754 * MicrosPerDay, 19754);
    Day19737IsJanuary15();
    Day19754IsFebruary1();
  }


  /** A last use on 2024-02-10 still counts on 2024-02-20. */
  lemma NoRolloverWithinMonthExample(stored: int)
    ensures EffectiveAdsUsed(stored, At(19763 * MicrosPerDay), 19773 * MicrosPerDay + 3_600_000_000) == stored
  {
    DayNumberOf(19763 * MicrosPerDay, 19763);
    DayNumberOf(19773 * MicrosPerDay + 3_600_000_000, 19773);
    Day19763IsFebruary10();
    Day19773IsFebruary20();
  }

  /** A record whose monthly usage was reset at `now`: zero used, last usage now. */
  function ResetUsage(rec: PlanRecord, now: Instant): (r: PlanRecord)
    ensures r.adsUsed == 0 && r.lastUsageDate == At(now) && r.updatedAt == At(now)
    ensures r.(adsUsed := rec.adsUsed, lastUsageDate := rec.lastUsageDate, updatedAt := rec.updatedAt) == rec
  {
    rec.(adsUsed := 0, lastUsageDate := At(now), updatedAt := At(now))
  }

  /** After a reset the gate sees zero usage at every later instant. */
  lemma ResetClearsUsage(rec: PlanRecord, now: Instant, later: Instant)
    ensures EffectiveAdsUsed(ResetUsage(rec, now).adsUsed, ResetUsage(rec, now).lastUsageDate, later) == 0
  {
  }
}

/**
 * The month-end reconciliation job: one pass over every plan record.
 */
module Reconciliation {
  import opened Calendar
  import opened PlanRecords
  import opened BillingPeriod

  /** What the sweep does to one record. */
  function SweepRecord(rec: PlanRecord, now: Instant): PlanRecord {
    if SweepDue(rec.lastUsageDate, now) then ResetUsage(rec, now) else rec
  }

  /** The store after a sweep at `now`. */
  function Swept(plans: map<UserId, PlanRecord>, now: Instant): (r: map<UserId, PlanRecord>)
    ensures r.Keys == plans.Keys
    ensures forall u :: u in r ==> r[u] == plans[u] || (r[u].adsUsed == 0 && r[u].lastUsageDate == At(now))
  {
    map u | u in plans :: SweepRecord(plans[u], now)
  }

  /** The users whose records the sweep resets, and counts. */
  function DueUsers(plans: map<UserId, PlanRecord>, now: Instant): (r: set<UserId>)
    ensures r <= plans.Keys
  {
    set u | u in plans && SweepDue(plans[u].lastUsageDate, now)
  }

  /** A second sweep later in the same month resets nothing and changes nothing. */
  lemma SweepIdempotent(plans: map<UserId, PlanRecord>, now: Instant, later: Instant)
    requires SameMonth(now, later)
    ensures DueUsers(Swept(plans, now), later) == {}
    ensures Swept(Swept(plans, now), later) == Swept(plans, now)
  {
  }

  /**
   * The sweep is invisible to the consumption gate for the rest of the month
   * it runs in: for every record, the usage the gate sees is the same before
   * and after.
   */
  lemma SweepPreservesEffectiveUsage(plans: map<UserId, PlanRecord>, now: Instant, later: Instant, u: UserId)
    requires u in plans && SameMonth(now, later)
    ensures u in Swept(plans, now)
    ensures EffectiveAdsUsed(Swept(plans, now)[u].adsUsed, Swept(plans, now)[u].lastUsageDate, later)
         == EffectiveAdsUsed(plans[u].adsUsed, plans[u].lastUsageDate, later)
  {
  }

  /** A sweep keeps every stored usage count non-negative. */
  lemma SweepKeepsUsageNonNegative(plans: map<UserId, PlanRecord>, now: Instant)
    requires forall u :: u in plans ==> UsageNonNegative(plans[u])
    ensures forall u :: u in Swept(plans, now) ==> UsageNonNegative(Swept(plans, now)[u])
  {
  }

  /**
   * Part way through a sweep that visits records in any order: the records
   * still pending are untouched, the visited ones are swept, and the users
   * reset so far are the visited ones that were due.
   */
  ghost predicate SweepProgress(start: map<UserId, PlanRecord>, now: Instant, due: set<UserId>,
                                pending: set<UserId>, current: map<UserId, PlanRecord>, resetUsers: set<UserId>)
  {
    && pending <= start.Keys && current.Keys == start.Keys
    && (forall u :: u in current ==>
          current[u] == if u in pending || u !in due then start[u] else ResetUsage(start[u], now))
    && resetUsers <= start.Keys - pending
    && (forall u :: u in start && u !in pending ==> (u in resetUsers <==> u in due))
  }

  /** Visiting a due record resets it and records it. */
  lemma SweepVisitDue(start: map<UserId, PlanRecord>, now: Instant, due: set<UserId>, pending: set<UserId>,
                      current: map<UserId, PlanRecord>, resetUsers: set<UserId>, u: UserId)
    requires SweepProgress(start, now, due, pending, current, resetUsers) && u in pending && u in due
    ensures u in current && current[u] == start[u] && u !in resetUsers
    ensures SweepProgress(start, now, due, pending - {u}, current[u := ResetUsage(current[u], now)], resetUsers + {u})
  {
  }

  /** Visiting a record that is not due leaves everything as it is. */
  lemma SweepVisitSkipped(start: map<UserId, PlanRecord>, now: Instant, due: set<UserId>, pending: set<UserId>,
                          current: map<UserId, PlanRecord>, resetUsers: set<UserId>, u: UserId)
    requires SweepProgress(start, now, due, pending, current, resetUsers) && u in pending && u !in due
    ensures u in current && current[u] == start[u]
    ensures SweepProgress(start, now, due, pending - {u}, current, resetUsers)
  {
  }

  /** Once nothing is pending, the store is the swept store and the recorded users are the due ones. */
  lemma SweepProgressDone(start: map<UserId, PlanRecord>, now: Instant,
                          current: map<UserId, PlanRecord>, resetUsers: set<UserId>)
    requires SweepProgress(start, now, DueUsers(start, now), {}, current, resetUsers)
    ensures current == Swept(start, now) && resetUsers == DueUsers(start, now)
  {
    SweptRecordsDone(start, now, DueUsers(start, now), current);
  }

  lemma SweptRecordsDone(start: map<UserId, PlanRecord>, now: Instant, due: set<UserId>,
                         current: map<UserId, PlanRecord>)
    requires due == DueUsers(start, now) && current.Keys == start.Keys
    requires forall u :: u in current ==> current[u] == if u !in due then start[u] else ResetUsage(start[u], now)
    ensures current == Swept(start, now)
  {
    forall u | u in current
      ensures current[u] == SweepRecord(start[u], now)
    {
      assert u in due <==> SweepDue(start[u].lastUsageDate, now);
    }
  }
}
