# Plan entitlement engine of the Incivus backend

This project models the plan entitlement engine of `testapp.py` in Dafny and proves properties of it.
Each user has one plan record in the `PlanSelectionDetails` collection. The record holds:

- the plan name;
- the remaining ad balance (`totalAds`) and the monthly cap (`max_ads_per_month`);
- the monthly usage count (`adsUsed`) and its last-usage date;
- the subscription start and end dates;
- the price, the validity and the selected features.

The engine does these things:

- It decides when the monthly count starts again.
- It gates every analysis request: the cap is checked first, then the balance, and one ad is charged only after a successful analysis.
- It sells topups (the same plan again) and upgrades (a higher plan), both through `update_plan`.
- It resets usage by hand for one user, and by a month-end sweep over all users.
- It reports plan status.
- It creates records, from a plan selection or as a fresh subscription.

Four small helpers are modelled as well: brand-name sanitising, the brand media list, the channel-to-platform mapping and the plan-feature filter for stored analyses.

Design of the model:

- **Time.** An instant is an integer count of microseconds since 1970-01-01, in naive UTC. This matches the precision of `datetime`.
  - Calendar dates use the civil-from-days algorithm.
  - Whole-day differences round down, as `timedelta.days` does.
- **Stored date fields.** Each is a `DateField`:
  - `Missing` when the field is absent, `None` or empty;
  - `Malformed` when `fromisoformat` would reject it;
  - `At(t)` otherwise.
- **The store.** It is the class `PlanStore.Store`, whose field is a map from user id to `PlanRecords.PlanRecord`.
  - Each endpoint is a method. It changes only that map, and its contract names the new map in terms of a pure function.
  - Properties of those functions are proved as lemmas.
- **`update_plan` as written.** The method builds the new record field by field on a copy and writes it back once, as the endpoint does.
- **The sweep as written.** The method is a loop over the stored users with a running count.
- **Outside inputs.** The remote analysis service is outside the model. The outcome of each analysis model it ran is an input, as a list of success flags. Whether the analysis record was saved is an input too.

Where the code and its documentation differ, the model follows the code:

- **No rollover on topup or upgrade.** Both read the stored `adsUsed`, `totalAds` and `max_ads_per_month` as stored, with no monthly rollover applied first.
- **No rollback when the save fails.** The plan update of a successful analysis is written before the analysis record is saved, so a failed save still charges the ad (`PlanStore.Store.PostAnalysis`).
- **Upgrades add the caps.** The upgrade docstring says the monthly cap "becomes the new plan's limit". The code adds the new plan's cap to the current one (`testapp.py:1259-1261`), and the model does the same.
- **The carried-forward figure as written.** The upgrade reply reports the new balance less the catalog's `total_ads`, which is wrong when the request set the ads bought. `PlanStore.Store.UpdatePlan` replies with that figure, as the code does; the corrected figure is `PlanMutation.CarriedForwardAds` (see Findings).
- **`can_topup` versus topup.** The status reports `can_topup` false on an expired plan, yet `update_plan` accepts a topup there and restarts the plan (`PlanStatus.ExpiredPlanStillToppedUp`).
- **Unknown plan on fresh subscription.** `create_fresh_subscription` raises a 400 for an unknown plan, and its own handler turns that into a 500. The model keeps only the error case, `InvalidPlan`.

## Model

| member | source | states |
|---|---|---|
| Calendar.WholeDays | testapp.py:1430-1431 | the whole days between two instants, rounded down: `n` days fit in the gap and `n + 1` do not, and `n` is not negative when the gap is not |
| Calendar.AddDays | testapp.py:1184 | the shifted instant lies exactly `n` whole days after the start |
| Calendar.CivilFromDays | testapp.py:476 | the calendar date of a day number has a month in 1..12 and a day in 1..31 |
| Calendar.YearOfEra | testapp.py:476 | within a 400-year era, the year of a day is one of the era's 400 years and the day lies in that (March-based) year |
| Calendar.DaysFromCivilOfCivil | testapp.py:476 | converting a day number to its calendar date and back yields the same day number, so distinct days get distinct dates |
| Calendar.DateOf | testapp.py:1440 | the date an instant falls on is the date of its day number, the day number being recovered from the date |
| Calendar.SameMonth | testapp.py:476 | definition: the two instants' dates share year and month; its use by the gate and the sweep is stated by `BillingPeriod.EffectiveAdsUsed` and `BillingPeriod.GateAndSweepAgree` |
| Catalog.PlanConfig | testapp.py:1093-1097 | exactly the three catalog plans have an entry, each with positive duration, balance, cap and price |
| Catalog.Rank | testapp.py:1132-1136 | the upgrade rank is at most 3 and is 0 exactly for a name outside the hierarchy |
| Catalog.HigherRankIsLargerPlan | testapp.py:1093-1097 | a higher-ranked plan lasts longer and has more ads and a higher cap and price |
| BillingPeriod.EffectiveAdsUsed | testapp.py:470-488 | the count the gate checks is zero when the last use is in another (year, month) or its date does not parse, and the stored count when the date is missing or in the current month |
| BillingPeriod.GateAndSweepAgree | testapp.py:1863-1876 | for a non-zero count, the gate sees zero exactly when the sweep would reset, except for a malformed date, which the gate reads as zero and the sweep skips |
| BillingPeriod.RolloverAcrossMonthsExample | testapp.py:477-481 | a use on 2024-01-15 no longer counts on 2024-02-01 |
| BillingPeriod.NoRolloverWithinMonthExample | testapp.py:482-483 | a use on 2024-02-10 still counts on 2024-02-20 |
| BillingPeriod.SweepDue | testapp.py:1865-1871 | definition: the sweep resets a record exactly when its last-usage date parses and lies in another (year, month); related to the gate by `BillingPeriod.GateAndSweepAgree` |
| BillingPeriod.ResetUsage | testapp.py:1827-1834 | a reset sets usage to 0 and both last-usage and update time to now, and changes no other field |
| BillingPeriod.ResetClearsUsage | testapp.py:1827-1834 | after a reset the gate sees zero usage at every later instant |
| Reconciliation.SweepRecord | testapp.py:1868-1874 | definition: a due record is reset at the sweep's instant and any other is left as it is; its effect is stated by `Reconciliation.Swept` |
| Reconciliation.Swept | testapp.py:1860-1876 | the swept store has the same users, and each record is either unchanged or has zero usage and last-usage date the sweep's instant |
| Reconciliation.DueUsers | testapp.py:1863-1876 | the users the sweep counts are stored users |
| Reconciliation.SweepIdempotent | testapp.py:1858-1876 | a later sweep in the same month as the first finds no record due and changes nothing |
| Reconciliation.SweepPreservesEffectiveUsage | testapp.py:1863-1876 | within the month of the sweep, the gate sees the same usage for every record before and after it |
| Reconciliation.SweepKeepsUsageNonNegative | testapp.py:1863-1876 | a sweep keeps every usage count non-negative |
| Reconciliation.SweepVisitDue | testapp.py:1863-1876 | visiting a pending record that is due keeps the sweep's progress invariant once the record is reset and its user counted |
| Reconciliation.SweepVisitSkipped | testapp.py:1863-1876 | visiting a pending record that is not due keeps the sweep's progress invariant with nothing changed |
| Reconciliation.SweepProgressDone | testapp.py:1860-1885 | once no record is pending, the store is the swept store and the reset users are exactly the due ones |
| Reconciliation.SweptRecordsDone | testapp.py:1863-1876 | a store whose due records are reset and whose others are as they were is the swept store |
| ConsumptionGate.CheckEntitlement | testapp.py:470-502 | the monthly-limit error exactly when the rolled-over usage reaches the cap; otherwise the balance error exactly when the balance is not positive; otherwise a grant carrying the rolled-over usage and the balance |
| ConsumptionGate.SuccessCount | testapp.py:768 | the number of successful results is at most the number of results |
| ConsumptionGate.SuccessCountPositive | testapp.py:768-774 | the count is positive exactly when some result succeeded |
| ConsumptionGate.Commit | testapp.py:783-794 | the charge is usage one above the validated count, balance one below, last-usage and update time now, and no other field changes |
| ConsumptionGate.Consume | testapp.py:768-794 | a refused request fails with the validation error; an admitted one with no success fails; a charge happens exactly when the request is admitted and some result succeeded, is the commit of the grant, keeps usage within the cap and the balance non-negative, and takes exactly one ad |
| ConsumptionGate.ConsumedUsageIsMonthScoped | testapp.py:783-794 | after a charge the gate sees one more than before for the rest of the month, and zero from the next month on |
| ConsumptionGate.ConsumeKeepsUsageNonNegative | testapp.py:783-794 | a charge keeps the usage count non-negative |
| PlanMutation.PurchasedAds | testapp.py:1197 | definition: the ads bought are the request's `total_ads` when given and the catalog's otherwise (the same rule at testapp.py:1268); used by `PlanMutation.Topup` and `PlanMutation.Upgrade` |
| PlanMutation.RenewalWindow | testapp.py:1180-1190 | a running plan is extended from one day after its end, an expired one restarts now; the period lasts the plan's duration and starts after the old end and not before now |
| PlanMutation.Topup | testapp.py:1153-1230 | a topup fails unless the plan is the current one and its end date parses; an expired plan gets only the bought ads and zero usage, a running one adds the bought ads and keeps its usage; cap and validity come from the catalog, the price is added, the features are replaced only by a non-empty list, and plan name and last-usage date stay |
| PlanMutation.Upgrade | testapp.py:1241-1289 | an upgrade fails exactly when the target does not rank strictly higher; otherwise the new plan runs from now for its duration, the balance grows by the bought ads, the caps add up, the price is added, the features become the fixed list, and usage and last-usage date stay |
| PlanMutation.UpdatePlan | testapp.py:1126-1298 | an unknown plan name is refused first, a missing record second, an unknown action third; topup and upgrade otherwise decide |
| PlanMutation.TopupEffectiveUsage | testapp.py:1200-1217 | a topup of a running plan leaves the usage the gate sees unchanged, stale stored count included; a topup of an expired plan makes it zero |
| PlanMutation.UpgradeKeepsEffectiveUsage | testapp.py:1280-1284 | an upgrade leaves the usage the gate sees unchanged at every instant |
| PlanMutation.UpgradeChain | testapp.py:1241-1245 | definition: a run of upgrade requests applied in turn, stopping at the first refusal; bounded by `PlanMutation.UpgradeChainBounded` |
| PlanMutation.UpgradeChainBounded | testapp.py:1241-1245 | a run of successful upgrades from a plan of rank `k` has at most `3 - k` steps |
| PlanMutation.CarriedForwardAsWritten | testapp.py:1347 | definition: the reply's carried-forward figure as the code computes it, the new balance less the catalog's ads; shown wrong by `PlanMutation.CarriedForwardAsWrittenMisreports` |
| PlanMutation.CarriedForwardAds | testapp.py:1347 | definition: the corrected figure, the new balance less the ads actually bought; shown right by `PlanMutation.CarriedForwardIsPreviousBalance` |
| PlanMutation.CarriedForwardAsWrittenMisreports | testapp.py:1345-1347 | as written, upgrading a Lite record with 3 ads left to Plus with 50 requested ads reports 23 carried forward although 3 were |
| PlanMutation.CarriedForwardIsPreviousBalance | testapp.py:1345-1347 | the new balance less the ads bought is the balance before the upgrade, and without an override the reply's figure agrees with it |
| PlanMutation.UpgradeLiteToPlusExample | testapp.py:1256-1273 | Lite with 3 ads and cap 4 upgraded to Plus has 33 ads, cap 9 and the same usage |
| PlanMutation.UpgradeFromProRefused | testapp.py:1241-1245 | Pro is the top tier: every upgrade of a Pro record to a catalog plan is refused as an invalid upgrade |
| PlanMutation.UpgradeMovesToLargerPlan | testapp.py:1241-1245 | a successful upgrade from a catalog plan moves to a plan that lasts longer, sells more ads, allows more per month and costs more |
| PlanMutation.RepeatedUpgradeRefused | testapp.py:1241-1245 | upgrading again to the plan just reached is refused |
| PlanMutation.TopupWhileActiveExample | testapp.py:1180-1217 | a Lite plan ending on 2024-03-31 with 3 ads, topped up on 2024-03-15, starts on 2024-04-01 with 15 ads and the same usage |
| PlanMutation.TopupAfterExpiryExample | testapp.py:1180-1212 | the same plan topped up on 2024-04-10 starts that day with 12 ads and zero usage |
| PlanStatus.InfoOrZero | testapp.py:1434-1443 | a catalog plan's entry, and all zeros for a name outside the catalog, as the status reads it |
| PlanStatus.StatusOf | testapp.py:1425-1444 | the status fails when a subscription date does not parse; the plan is active exactly when now is not after its end; `can_topup` equals activity; the remaining and elapsed days are zero outside the period; dates and counters are reported as stored |
| PlanStatus.StatusDayCounts | testapp.py:1430-1431 | the remaining and elapsed whole days are never negative and are the real gaps rounded down |
| PlanStatus.StatusAnnouncesRenewal | testapp.py:1439-1442 | for every record whose dates parse, catalog plan or not, the announced next period is the renewal window of the plan's duration (zero outside the catalog), from the day after the end while active and from now otherwise; the announced ads and cap are the catalog's or zero |
| PlanStatus.ForecastWindow | testapp.py:1440-1441 | the announced next period starts and ends on the days the topup's new period does |
| PlanStatus.ForecastAllowance | testapp.py:1439-1443 | with `can_topup` the topup starts a day after the end, without it now and with zero usage; the announced ads and cap are the topup's defaults |
| PlanStatus.ExpiredPlanStillToppedUp | testapp.py:1439 | an expired plan shows `can_topup` false, yet a topup of it succeeds |
| PlanCreation.PlanSelection | testapp.py:302-357 | a saved plan selection has zero usage and no last-usage date, and the submitted values in every other field |
| PlanCreation.FreshSubscription | testapp.py:2330-2365 | an unknown plan is refused; otherwise the record starts now, ends after the plan's duration, has zero usage, the submitted balance, cap and price, and the fixed feature list |
| PlanCreation.NewRecordStartsUnused | testapp.py:491-502 | a new record shows zero usage to the gate, which then admits a request exactly when the cap and the balance are positive |
| PlanStore.RenewRecord | testapp.py:1178-1224 | the topup branch's field-by-field updates produce the record the topup decision gives |
| PlanStore.UpgradeRecord | testapp.py:1248-1289 | the upgrade branch's field-by-field updates produce the record the upgrade decision gives |
| PlanStore.Store.Lookup | testapp.py:1139-1142 | a user's record is found exactly when it is stored |
| PlanStore.Store.SavePlanSelection | testapp.py:302-357 | the user's record is replaced by the saved selection and nothing else changes |
| PlanStore.Store.CreateFreshSubscription | testapp.py:2330-2400 | an unknown plan is refused and nothing is written; otherwise the fresh subscription is stored for the user, and the reply is that record when the profile write succeeds and `ProfileWriteFailed` when it fails, the plan record staying written |
| PlanStore.Store.PostAnalysis | testapp.py:765-845 | a missing record or a refusal writes nothing; a charge stores the committed record even when the analysis save then fails; the reply carries the new usage, cap, balance and plan name; a reported usage is at least one and within the cap, since stored usage is never negative |
| PlanStore.Store.UpdatePlan | testapp.py:1101-1347 | the field-by-field update equals the plan decision; a refusal writes nothing; an upgrade reply names the previous plan and reports as carried forward the new balance less the catalog's ads, as written, which is the balance before the upgrade when no ad count was requested |
| PlanStore.Store.ResetMonthlyUsage | testapp.py:1815-1834 | a missing record is an error; otherwise the record is reset and nothing else changes |
| PlanStore.Store.ResetAllMonthlyUsage | testapp.py:1851-1885 | the loop leaves the swept store and returns the number of records due |
| PlanStore.Store.PlanStatusOf | testapp.py:1415-1444 | the status of a stored record, and an error for a missing one |
| BrandMedia.KeepAllowed | testapp.py:164 | the kept characters are alphanumeric, space, '-' or '_', and there are no more of them than in the input; `BrandMedia.KeepAllowedCounts` adds that every allowed character survives; `BrandMedia.KeepAllowedAppend` and `BrandMedia.KeepAllowedSingleton` fix their order |
| BrandMedia.TrimTrailingSpaces | testapp.py:164 | the result is a prefix of the input that does not end in a space, and only spaces were cut |
| BrandMedia.SpacesToUnderscores | testapp.py:165 | each space becomes '_' and every other character stays put |
| BrandMedia.SanitizeBrandName | testapp.py:164-165 | the sanitised name has only alphanumerics, '-' and '_', and is no longer than the input; `BrandMedia.SanitizeCounts` adds which characters survive; `BrandMedia.SanitizeAppend` fixes their order |
| BrandMedia.KeepAllowedCounts | testapp.py:164 | every kept character occurs in the filtered name exactly as often as in the input |
| BrandMedia.TrimTrailingSpacesCounts | testapp.py:164 | every character other than a space occurs in the trimmed name exactly as often as before |
| BrandMedia.SpacesToUnderscoresCounts | testapp.py:165 | every character other than a space or '_' occurs exactly as often after the replacement |
| BrandMedia.SanitizeCounts | testapp.py:164-165 | every path-safe character other than '_' occurs in the sanitised name exactly as often as in the input |
| BrandMedia.KeepAllowedAppend | testapp.py:164 | filtering a concatenation filters each part, so the kept characters stay in input order |
| BrandMedia.KeepAllowedSingleton | testapp.py:164 | a single character is kept exactly when it is alphanumeric, space, '-' or '_' |
| BrandMedia.SpacesToUnderscoresAppend | testapp.py:165 | replacing spaces in a concatenation replaces them in each part |
| BrandMedia.TrimTrailingSpacesAppend | testapp.py:164 | trailing spaces are cut only at the end: before a part that keeps something, nothing is cut |
| BrandMedia.SanitizeAppend | testapp.py:164-165 | when the last part of a name keeps something, the name sanitises to the first part's kept characters in order, spaces as '_', followed by the last part's sanitised form |
| BrandMedia.KeepAllowedOfKept | testapp.py:164 | a string of kept characters passes the filter unchanged |
| BrandMedia.SanitizeKeepsSafeName | testapp.py:164-165 | a name of only path-safe characters is its own sanitised form |
| BrandMedia.SanitizeIdempotent | testapp.py:164-165 | sanitising twice is sanitising once |
| BrandMedia.KeepAllowedExample | testapp.py:164 | the filter drops the '!' of "a b! " and keeps the spaces |
| BrandMedia.SanitizeExample | testapp.py:164-165 | "a b! " sanitises to "a_b" |
| BrandMedia.Remaining | testapp.py:1061-1066 | no more entries are kept than listed; `BrandMedia.RemainingAppend` and `BrandMedia.RemainingSingleton` fix which entries stay and in what order |
| BrandMedia.RemainingMembers | testapp.py:1061-1066 | the kept entries are exactly the listed ones that do not carry the id |
| BrandMedia.RemainingAppend | testapp.py:1061-1066 | the entries kept from a concatenation are those kept from each part, in order |
| BrandMedia.RemainingSingleton | testapp.py:1061-1066 | a single entry is kept exactly when it does not carry the id |
| BrandMedia.LastMatchIndex | testapp.py:1061-1066 | -1 when no entry carries the id; otherwise the position of an entry that does, with none after it |
| BrandMedia.DeleteMediaFile | testapp.py:1058-1078 | a missing id is an error; otherwise the last matching entry is reported, every match leaves the list and the count is recomputed |
| BrandMedia.AppendMedia | testapp.py:1535-1539 | new entries follow the existing ones and the count is the new length |
| BrandMedia.RemainingWithoutMatch | testapp.py:1061-1066 | a list with no matching entry is kept whole |
| BrandMedia.DeleteUndoesAppend | testapp.py:1057-1078 | deleting an entry just appended under a new id finds that entry and leaves the list as before the append |
| ChannelMapping.AsciiLower | testapp.py:717 | a capital becomes the same letter in lower case, and every other character is unchanged |
| ChannelMapping.Lower | testapp.py:717 | each character is lowered in place |
| ChannelMapping.PlatformFor | testapp.py:707-713 | every mapped name is one of the five platforms |
| ChannelMapping.Platforms | testapp.py:715-718 | a platform appears exactly when some submitted channel maps to it, and there are no more platforms than channels; `ChannelMapping.PlatformsAppend` and `ChannelMapping.PlatformsSingleton` fix submission order and repetition |
| ChannelMapping.MapChannels | testapp.py:715-718 | the loop yields the platforms of the channels in order, all of them known |
| ChannelMapping.LowerIdempotent | testapp.py:717 | lowering twice is lowering once |
| ChannelMapping.PlatformsIgnoreCase | testapp.py:716-718 | lower-casing the channels first yields the same platforms |
| ChannelMapping.PlatformsAppend | testapp.py:715-718 | the platforms of a concatenation of channel lists are those of each part, in order |
| ChannelMapping.PlatformsSingleton | testapp.py:715-718 | a single channel yields its platform, or nothing when it has none |
| ChannelMapping.FacebookRecognised | testapp.py:707-717 | the capitalised channel "Facebook" maps to the platform "Facebook" |
| ResultFilter.FeatureFor | testapp.py:1589-1597 | every plan feature maps to one of the four result features or to none |
| ResultFilter.FilteredFeatures | testapp.py:1603-1609 | a result feature is shown exactly when a selected plan feature maps to it and it is present; shown features are present result features, no more than the selected ones; `ResultFilter.FilteredAppend` and `ResultFilter.FilteredSingleton` fix selection order and repetition |
| ResultFilter.FilteredAppend | testapp.py:1603-1609 | the features shown for a concatenation of selections are those of each part, in order |
| ResultFilter.FilteredSingleton | testapp.py:1603-1609 | one selected plan feature shows its result feature exactly when that result is present |
| ResultFilter.FilterResults | testapp.py:1600-1609 | the loop shows those features and a result map with exactly those keys, each value unchanged |
| ResultFilter.Occurs | testapp.py:1585 | Python's `in` on two strings: the word occurs exactly when some position of the text starts a copy of it |
| ResultFilter.OccursInside | testapp.py:1585 | a word placed anywhere inside a text occurs in it |
| ResultFilter.ViewAnalysis | testapp.py:1580-1652 | no selection or no stored results leaves the document as stored; without comprehensive results, or with results kept as reply text that lacks the word "results", the document is shown as stored with empty filter fields and no models; text that contains it makes the whole listing fail; otherwise the filtered results and one model |
| ResultFilter.FreshSubscriptionFeaturesShown | testapp.py:1589-1609 | the fresh-subscription features show brand, content (twice) and channel results |

## Left out

- HTTP routing, form parsing and status codes are not modelled. Each error response is a case of `PlanRecords.Error`, and a 500 from a date that does not parse is `MalformedDate`.
- Firestore, Cloud Storage, signed URLs, blob upload and delete, and uuid generation are I/O. A map stands in for the plan collection, and a value for a brand document.
- The remote analysis call is not modelled. Its per-model outcomes are an input, as is the success of the analysis-record save.
- ISO-8601 parsing, the "Z" suffix and output formatting are not modelled. Each stored date is given already classified as `Missing`, `Malformed` or `At(t)`. The `datetime` year range 1..9999 is not modelled.
- The feature-list parsing of `update_plan` and `save_plan_selection` (JSON array, comma-separated list or single value) is not modelled. The parsed list is an input, so a list that parses to nothing is `[]`.
- The `userProfileDetails` mirror writes of `save_plan_selection`, the analysis charge and `update_plan` only copy plan fields, and each catches and logs its own errors. They are not modelled. The profile write of `create_fresh_subscription` (testapp.py:2393) is not guarded that way: the model keeps its failure as `ProfileWriteFailed`, returned after the plan record is stored, but not the profile contents.
- `sync_subscription_data` only copies plan fields into the profile. It is not modelled.
- The float `success_rate` and the logging are not modelled.
- PlanCreation.PlanSelection: `save_plan_selection` takes `totalPrice` as a float and stores it as submitted (testapp.py:311, 343), and topups and upgrades add whole catalog prices to it. The model's `totalPrice` is an integer, so it keeps whole prices only; a fractional submitted price, and the fractional totals that follow from it, are not modelled.
- Concurrent requests for the same user are not modelled: the model is sequential.
- The plan-record fields that no engine operation reads or changes are not modelled: payment ids, base price, created-at, plan type and status flags.
- PlanStore.Store.PostAnalysis: the snapshot uses the stored plan name; the source shows "Unknown" when the name is absent, and an absent name is not modelled.
- BrandMedia.IsAsciiAlnum: Python's `isalnum` also accepts non-ASCII letters and digits; the model accepts ASCII ones only.
- ChannelMapping.Lower: Python's `lower` also lowers non-ASCII letters; the model lowers ASCII capitals only.
- The filter of `get_analysis_by_id` (testapp.py:1738-1752) uses a five-entry mapping without `content_analysis` and `metaphor_analysis`. It is not modelled; `ResultFilter` models the seven-entry one of `get_analysis_details`.
- The brand and profile CRUD endpoints, PDF upload and subscription deletion are I/O glue around the engine. They are not modelled.
- `fix_plan_quota` (testapp.py:2197-2251) is an entitlement write: it overwrites a stored plan's `totalAds` and `max_ads_per_month` with the catalog's values. It is an administrative repair endpoint outside the scope of this model, and it is not modelled.
- Calendar.CivilFromDays: the model proves that it inverts `DaysFromCivil` on day numbers, and bounds month and day, but not that every date it yields has a day within its month's length.

## Findings

| source | as written | input that shows it | evidently intended | confidence | as-written member | corrected member |
|---|---|---|---|---|---|---|
| testapp.py:1346-1347 | the upgrade reply reports `carried_forward_ads` as the new balance minus the catalog's `total_ads`, even when the request's `total_ads` set the ads bought | a Lite record with 3 ads left, upgraded to Plus with `total_ads = 50`: the new balance is 53 and the reply says 23 were carried forward | the balance before the upgrade (the new balance minus the ads actually bought), here 3 | high; not executed | PlanMutation.CarriedForwardAsWrittenMisreports | PlanMutation.CarriedForwardIsPreviousBalance |
