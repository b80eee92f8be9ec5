# Campaign budget and dayparting engine

A Dafny model of the engine at the centre of a budget-management service for
advertising campaigns. Brands own campaigns. Each campaign is ACTIVE or PAUSED,
records why and when it was paused, and keeps two running spend counters
(today, this month). Three kinds of process change that state:

- tracked spends, which are appended to a ledger, charged to the campaign's
  counters and followed at once by a budget check;
- periodic sweeps:
  - the budget sweep pauses campaigns that reached a brand budget;
  - the dayparting sweep pauses campaigns outside their weekly
    schedule windows and re-admits those back inside them;
- the daily and monthly resets, which zero a counter on every campaign and
  re-admit the campaigns paused for that budget.

Modules follow the program's packages:

| module | file | contents |
|---|---|---|
| `Common` | common.dfy | options, results, the error outcomes, money in cents, weekdays, the clock reading `Moment` |
| `Brands` | brands.dfy | the brand and its budget validation |
| `ScheduleModels` | schedule_models.dfy | schedule windows, the per-day lookup, the scheduled-now test, the sorted listing, the schedule table (`ScheduleStore`) |
| `Campaigns` | campaigns.dfy | the campaign state machine as a class with mutable fields, and the activation guard |
| `BrandTotals` | brand_totals.dfy | brand-level sums, remaining budgets, over-budget tests |
| `SpendModels` | spend_models.dfy | the spend ledger (`SpendLedger`), its save hook and the filter-and-sum queries |
| `SpendingService` | spending_service.dfy | track-spend, the budget check, the budget sweep, the two resets |
| `SchedulingService` | scheduling_service.dfy | the to-pause and should-be-active lists, the dayparting sweep, the default schedule, the schedule count |

Modelling choices:

- Money is integer cents, because every amount has two decimal places.
- A moment is a date, a weekday (Monday = 0 … Sunday = 6) and a second of the
  day (0 … 86399). The clock is the parameter `now`, read once per operation.
- A campaign is a `Campaign` object whose fields the operations update in
  place. `State()` reads its row as a `CampaignState` value. Each campaign
  carries its brand's budgets as its own `brand` value; the activation guard
  and the budget check read them from there. The brand-level lemmas take a
  `Brand` value and relate it to the campaigns by `brand.id` only.
- Each sweep is a method over the campaign table `cs`, proved against a pure
  function of the rows before the sweep. Lemmas state what the sweep
  promises about that function.
- A write that raises inside a sweep's per-campaign `try` is modelled by the
  parameter `failing`. It is the set of campaigns whose writes fail. Such a
  write leaves the row as it was and counts as an error.
- A per-day schedule lookup that finds two active rows raises in the
  program. The model returns `Err(MultipleSchedules)`, and that error
  propagates where the program's exception does.

Two behaviours of the code are easy to misread:

- An ACTIVE campaign over both budgets ends with reason
  DAILY_BUDGET_EXCEEDED. The monthly branch re-tests `is_active()`, which is false after the
  daily pause (spending/services.py:91-104). `BothExceededDailySticks`
  states this.
- If the dayparting sweep cannot build its to-pause list (a lookup raises),
  the outer `except` counts one error. Nothing is paused or re-admitted.

## Model

| member | source | states |
|---|---|---|
| Brands.CleanBrand | brands/models.py:34-46 | validation passes exactly when both budgets are at least 0.00; a failure is InvalidBudget |
| ScheduleModels.Clean | scheduling/models.py:77-82 | validation passes exactly when start < end; an equal start and end is refused with InvalidSchedule |
| ScheduleModels.TimeRangeInclusive | scheduling/models.py:89-91 | the window test `IsTimeInRange` (start ≤ t ≤ end) holds at a valid window's start and end; the seconds just before and after it are outside |
| ScheduleModels.ActiveOnDay | scheduling/models.py:101-107 | the rows the per-day lookup matches are exactly the active rows of that campaign and weekday; inactive rows are ignored |
| ScheduleModels.AtLeastTwoActive | scheduling/models.py:104-107 | the lookup matches two or more rows exactly when two distinct stored rows are active for the campaign and day |
| ScheduleModels.GetScheduleForCampaignAndDay | scheduling/models.py:101-107 | no match gives None; exactly one gives that row, the only active one; two or more give the uncaught MultipleSchedules error |
| ScheduleModels.IsCampaignScheduledNow | scheduling/models.py:109-123 | true exactly when the campaign has a unique active window today covering now; an error exactly when it has two; false whenever it has none. The scheduling service's own copy of this test (scheduling/services.py:26-45) has the same three outcomes and is modelled by this function too |
| ScheduleModels.ActiveFor | scheduling/models.py:96-98 | a row is listed exactly when it belongs to the campaign and is active, as often as the table holds it |
| ScheduleModels.InsertByKey | scheduling/models.py:99 | inserting into a list sorted by (day, start) keeps it sorted and adds exactly that row |
| ScheduleModels.SortByKey | scheduling/models.py:99 | the result is sorted by (day, start) and is a permutation of the input |
| ScheduleModels.GetActiveSchedulesForCampaign | scheduling/models.py:93-99 | the campaign's active rows, each once, as a permutation of them, sorted by (day, start) |
| ScheduleModels.SaveRows | scheduling/models.py:84-87 | an insert succeeds exactly when start < end and the (campaign, day, start, end) key is new; it then appends the row and keeps every stored window valid and every key unique |
| ScheduleModels.ScheduleStore.Save | scheduling/models.py:84-87 | validation runs before the insert; a refused row leaves the table unchanged; the table invariant is preserved |
| Campaigns.TransitionsKeepConsistent | campaigns/models.py:116-137 | pausing with a reason and activating both establish "ACTIVE iff no reason iff no pause time" |
| Campaigns.CanBeActivated | campaigns/models.py:139-155 | true exactly when daily spend < daily budget, monthly spend < monthly budget and the campaign is scheduled now; reaching a budget blocks; the schedule error surfaces only when both budgets have headroom |
| Campaigns.Campaign.constructor | campaigns/models.py:58-79 | a new campaign is ACTIVE with no reason, no pause time and both counters at zero |
| Campaigns.Campaign.Pause | campaigns/models.py:116-123 | PAUSED with the given reason and time whatever the previous state; a second pause overwrites the reason; counters kept |
| Campaigns.Campaign.Activate | campaigns/models.py:125-137 | returns the guard's answer; on true the campaign is ACTIVE with reason and time cleared, otherwise nothing changes |
| Campaigns.Campaign.AddSpend | campaigns/models.py:157-168 | a non-positive amount is refused with no change; a positive one raises both counters by exactly that amount and nothing else |
| Campaigns.Campaign.ResetDailySpend | campaigns/models.py:170-173 | the daily counter becomes zero; every other field is kept |
| Campaigns.Campaign.ResetMonthlySpend | campaigns/models.py:175-178 | the monthly counter becomes zero; every other field is kept |
| Campaigns.Campaign.RemainingDailyBudget | campaigns/models.py:186-187 | remaining + spend = budget; exhausted exactly when the daily check trips; negative once spend passes the budget |
| Campaigns.Campaign.RemainingMonthlyBudget | campaigns/models.py:189-190 | the same for the monthly budget |
| BrandTotals.TotalCampaigns | brands/models.py:67-68 | no more than the listed campaigns, and zero exactly when the brand owns none |
| BrandTotals.TotalCampaignsSnoc | brands/models.py:67-68 | adding a campaign to the table counts it once for its own brand and for no other, so the total is the number of owned campaigns |
| BrandTotals.CampaignsOf | brands/models.py:72 | exactly the campaigns owned by the brand, each as often as the table lists it |
| BrandTotals.TotalSpend | brands/models.py:70-80 | the counter sum over the brand's campaigns; zero when it owns none; never negative while no counter is. `TotalDailySpend` and `TotalMonthlySpend` are its daily and monthly instances |
| BrandTotals.TotalSpendSnoc | brands/models.py:70-80 | adding a campaign adds its counter to its own brand's total and leaves other brands' totals unchanged |
| BrandTotals.RemainingBudget | brands/models.py:82-92 | remaining + total = budget; exhausted exactly when `IsOverBudget` holds (the over-budget tests of brands/models.py:88-92, total ≥ budget); negative once the total passes it |
| BrandTotals.OneCampaignOverMeansBrandOver | brands/models.py:88-92 | one campaign at or over the brand budget puts the brand over budget, when no counter is negative |
| SpendModels.CleanSpend | spending/models.py:43-47 | field validation passes exactly when the amount is at least 0.00 |
| SpendModels.Stored | spending/models.py:89 | writing a row appends an unknown id and overwrites a known one in place; no other row changes |
| SpendModels.SaveSpend | spending/models.py:84-93 | a spend not stored before is charged once to both counters (a non-positive amount is refused by the counter update); a stored one changes no counter |
| SpendModels.ResaveChargesNothing | spending/models.py:84-93 | saving the same spend twice charges it once |
| SpendModels.SpendLedger.Save | spending/models.py:84-93 | the ledger and the owning campaign end as SaveSpend says; a new spend is appended |
| SpendModels.SaveSpendAsWritten | spending/models.py:84-93 | as written, with the key already set by its default (spending/models.py:30-34), no save ever charges the campaign |
| SpendModels.AsWrittenMissesFirstSpend | spending/models.py:84-93 | a first 25.00 spend leaves the counters at zero as written and raises them to 25.00 as intended |
| SpendModels.DailySpendForCampaign | spending/models.py:95-106 | the sum over DAILY rows of the campaign on that date; zero when none match |
| SpendModels.MonthlySpendForCampaign | spending/models.py:108-122 | the sum over MONTHLY rows of the campaign in that year and month; zero when none match |
| SpendModels.MonthlySpendAfterSave | spending/models.py:84-122 | saving a new spend adds its amount to its campaign's total for a month exactly when it is a MONTHLY row of that month |
| SpendModels.DailySpendSplit | spending/models.py:95-106 | the daily total over two ledger segments is the sum of their totals |
| SpendModels.MonthlySpendSplit | spending/models.py:108-122 | the monthly total over two ledger segments is the sum of their totals |
| SpendModels.DailySpendAfterSave | spending/models.py:84-106 | saving a new DAILY spend adds its amount to its campaign's total for its date; any other type adds nothing |
| SpendModels.SpendForBrand | spending/models.py:124-134 | zero for a brand that owns no campaign. `DailySpendForBrand` and `MonthlySpendForBrand` are its daily and monthly instances |
| SpendModels.SpendForBrandIsBrandTotal | spending/models.py:124-134 | the ledger's per-brand sums equal the brand's own totals, daily and monthly |
| SpendingService.CheckBudget | spending/services.py:74-106 | the flags are spend ≥ budget, reported even for a PAUSED campaign; an ACTIVE campaign is paused for the daily budget if reached, otherwise for the monthly one if reached; a PAUSED one is never changed |
| SpendingService.BothExceededDailySticks | spending/services.py:91-104 | over both budgets, an ACTIVE campaign ends paused for the daily budget with action paused_daily |
| SpendingService.CheckBudgetLimits | spending/services.py:74-106 | the campaign and the report end as CheckBudget says |
| SpendingService.TrackSpend | spending/services.py:29-72 | a non-positive amount is refused before any row or counter changes; otherwise a DAILY row dated by the given date or today is appended, both counters grow by the amount and the budget check runs on the new counters. This is track-spend over the corrected save hook of the Findings table; as written the counters stay as they were |
| SpendingService.AfterBudgetVisit | spending/services.py:126-140 | PAUSED campaigns are untouched; an ACTIVE one is paused exactly when a limit is reached and its write succeeds, for the daily budget if that one is reached; counters never change |
| SpendingService.BudgetTallyBounds | spending/services.py:117-146 | checked = number of ACTIVE campaigns; paused_daily + paused_monthly + errors ≤ checked; no errors when no write fails |
| SpendingService.VisitForBudget | spending/services.py:129-140 | one campaign of the sweep ends as AfterBudgetVisit says |
| SpendingService.EnforceBudgetLimits | spending/services.py:108-148 | every campaign ends as AfterBudgetVisit says and the counts are those of the sweep, a failure counted and the loop continued |
| SpendingService.AfterReset | spending/services.py:165-192 | the reset counter is zero unless its write failed and the other counter is kept; only a campaign paused for that budget that passes the guard after the reset becomes ACTIVE; every campaign whose status is unchanged keeps its reason and time too |
| SpendingService.ResetTallyBounds | spending/services.py:159-192 | resets and re-admissions are each no more than the campaigns; with no failing write every campaign is reset |
| SpendingService.ResetCounters | spending/services.py:168-176 | every campaign's counter for the period is zeroed unless its write fails; failures are counted |
| SpendingService.ReadmitOne | spending/services.py:184-192 | one campaign of the second phase ends as the re-admission rule says |
| SpendingService.ReadmitPaused | spending/services.py:178-192 | every campaign ends as the re-admission rule says, with its counts |
| SpendingService.ResetSpends | spending/services.py:150-200 | every campaign ends as AfterReset says, with the sweep's counts |
| SpendingService.ResetDailySpends | spending/services.py:150-200 | the reset of daily counters and DAILY_BUDGET_EXCEEDED pauses |
| SpendingService.ResetMonthlySpends | spending/services.py:202-252 | the reset of monthly counters and MONTHLY_BUDGET_EXCEEDED pauses; the daily counter is never touched |
| SchedulingService.GetCampaignsThatShouldBeActive | scheduling/services.py:47-66 | an id is listed exactly when an active window for today covers now, whatever the campaign's status |
| SchedulingService.ShouldBeActiveMultiplicity | scheduling/services.py:54-66 | each campaign is listed once per matching window, so a campaign with two covering windows is listed, and visited by phase 2, twice |
| SchedulingService.ShouldBePaused | scheduling/services.py:68-94 | building the list fails exactly when some ACTIVE campaign has two active windows today |
| SchedulingService.ShouldBePausedComplete | scheduling/services.py:80-94 | every ACTIVE campaign outside its schedule is listed |
| SchedulingService.ShouldBePausedSound | scheduling/services.py:80-94 | every listed campaign is ACTIVE and outside its schedule |
| SchedulingService.ShouldBePausedCount | scheduling/services.py:80-94 | no more are listed than there are ACTIVE campaigns |
| SchedulingService.ShouldBePausedUnique | scheduling/services.py:80-94 | no campaign is listed twice |
| SchedulingService.GetCampaignsThatShouldBePaused | scheduling/services.py:68-94 | the appending loop builds the list ShouldBePaused describes, and fails as it does |
| SchedulingService.PauseOutsideSchedule | scheduling/services.py:118-126 | each listed campaign is paused with OUTSIDE_SCHEDULE unless its write fails; failures are counted |
| SchedulingService.RunPausePhase | scheduling/services.py:115-126 | phase 1 on the whole table: exactly the listed campaigns are paused |
| SchedulingService.ActivationStep | scheduling/services.py:131-143 | each visit adds at most one re-admission or one error |
| SchedulingService.ActivationPass | scheduling/services.py:128-143 | the pass over the should-be-active ids keeps one row per campaign and adds at most one re-admission or error per id |
| SchedulingService.ActivateOne | scheduling/services.py:131-143 | one visit of phase 2 on the campaign objects, as ActivationStep says |
| SchedulingService.ActivateScheduled | scheduling/services.py:128-143 | phase 2 on the campaign objects, as ActivationPass says |
| SchedulingService.ActivationPassPointwise | scheduling/services.py:128-143 | phase 2 acts campaign by campaign; order and repeated ids do not matter |
| SchedulingService.EnforceDayparting | scheduling/services.py:96-151 | the sweep ends every campaign and the counts as DaypartSpec says |
| SchedulingService.DaypartPointwise | scheduling/services.py:114-143 | an ACTIVE campaign outside its schedule is paused unless its write fails; otherwise phase 2 decides; at the one clock reading the model takes, a campaign paused in phase 1 is not re-admitted in phase 2 |
| SchedulingService.DaypartNeverNoSchedule | scheduling/services.py:116-143 | the sweep only pauses for OUTSIDE_SCHEDULE or re-admits; it never writes NO_SCHEDULE and never changes a counter |
| SchedulingService.DaypartSparesOtherPauses | scheduling/services.py:131-140 | MANUAL- and budget-paused campaigns are left exactly as they were |
| SchedulingService.DaypartActivatesOnlyWithGuard | scheduling/services.py:129-140 | a PAUSED campaign comes back exactly when it was paused by dayparting, a window for now lists it, the guard passes and its write succeeds |
| SchedulingService.DaypartPausesExactly | scheduling/services.py:116-126 | an ACTIVE campaign ends PAUSED exactly when it is outside its schedule, the list was built and its write succeeds, and then for OUTSIDE_SCHEDULE |
| SchedulingService.DaypartIdempotent | scheduling/services.py:96-151 | with no failing write, a second sweep at the same moment changes nothing |
| SchedulingService.DaypartTallyBounds | scheduling/services.py:108-151 | a failed list is one error and nothing else; pauses are no more than ACTIVE campaigns; re-admissions are no more than the entries of the should-be-active list (the matching windows); all counts together are no more than both plus one |
| SchedulingService.DefaultWeekShape | scheduling/services.py:168-176 | the default week is seven rows, one per weekday in order, each all day and active |
| SchedulingService.CreateDefaultSchedule | scheduling/services.py:153-179 | succeeds exactly when none of the seven all-day slots is taken, then appends the seven rows and returns Monday's; the first refused insert ends it with DuplicateSchedule, keeping the rows before it: on failure the slot of the refused day d was already stored and exactly the days before d were added |
| SchedulingService.DefaultWeekCoversEveryMoment | scheduling/services.py:163-179 | a campaign with only the default week is scheduled at every whole second of every day |
| SchedulingService.TotalSchedules | scheduling/services.py:191-198 | total_schedules is the number of the campaign's active windows; zero exactly when it has none |
| SchedulingService.TotalSchedulesSnoc | scheduling/services.py:191-198 | adding a schedule row raises the count by one exactly when it is an active window of the campaign, so each active window counts once |

## Left out

- Database transactions and savepoints. Each operation is sequential, and a failing write leaves that campaign's row unchanged.
- Concurrency between the sweeps and track-spend.
- One clock reading per sweep. The program reads the clock separately for the to-pause list (scheduling/services.py:75), for the should-be-active list (scheduling/services.py:54) and inside every activation guard (scheduling/services.py:36, reached from campaigns/models.py:151-152). A sweep that straddles a window boundary can therefore pause and re-admit the same campaign (phase 1 at 08:59:59, phase 2 at 09:00:00 for a 09:00–18:00 window); the model, with one `now`, cannot.
- Both writes of one campaign in a reset (the counter reset, spending/services.py:168-176, and the re-admission, spending/services.py:184-192) fail or succeed together: one flag, membership in `failing`, decides both, so "reset stored, re-admission write failed" is not modelled.
- Logging, the `__str__` renderings and the `strftime` formatting in the schedule summary.
- The float-percentage spending summaries.
- The summary's other fields (name, per-day listing, scheduled-now flag). Only `total_schedules` is modelled.
- `SpendingService.TrackSpend`: the identifier of the new row. UUID generation is replaced by a fresh number not used by the ledger (`FreshId`).
- Creation and update time stamps, and Django's `_meta` options.
- The ten-digit width of the decimal fields is not modelled. Amounts are unbounded integers of cents.
- The brand totals' `except` branch that returns 0.00 on a failed query. The model's queries cannot fail.
- Updating an existing schedule in place. The table is insert-only, which is how the core uses it.
- Validators that only full validation runs. `CleanSpend` and `CleanBrand` state them; `save` calls neither.
- The initial migration's lower bound of 0.01 on budgets. `CleanBrand` follows the model's 0.00 validator.
- Time of day has one-second resolution. Sub-second times are not modelled. In the program the clock carries microseconds and the default window ends at 23:59:59 (scheduling/services.py:173), so between 23:59:59.000001 and midnight a campaign with only the default week is outside its schedule and a dayparting sweep then pauses it for OUTSIDE_SCHEDULE; `DefaultWeekCoversEveryMoment` covers whole seconds only.
- The MANUAL pause issued by the admin UI. It is an input: `Campaign.Pause` accepts any reason.
- The outer `except` of the budget sweep and of the resets, whose only trigger is a failing query of the whole table. The model's table reads cannot fail.
- Schedule rows with a weekday outside 0–6. The save hook does not run full validation, so the program can store one; the model's `Day` type cannot hold it. Such a row never matches any weekday, so nothing observable changes.
- `is_active` and `is_paused` are the status tests `status == Active` and `status == Paused`, written inline.

## Findings

| source | as written | input that shows it | evidently intended | confidence | as-written member | corrected member |
|---|---|---|---|---|---|---|
| spending/models.py:86 | a spend counts as new when `self.pk is None`, but the UUID default assigns the key when the object is built (spending/models.py:30-34), so no save charges the campaign | a first spend of 25.00 on an empty ledger leaves both counters at 0.00 (`SpendModels.AsWrittenMissesFirstSpend`); as a consequence, track-spend of 25.00 on a fresh campaign of a brand with budgets above 0.00 leaves both counters at 0.00 and never pauses it | a spend counts as new when no stored row has its key, so it is charged exactly once | not executed | SpendModels.SaveSpendAsWritten | SpendModels.SaveSpend |
