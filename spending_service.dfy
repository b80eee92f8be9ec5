/** The spending service: recording a spend, the budget check that pauses a
    campaign on reaching a limit, the sweep that checks every ACTIVE
    campaign, and the daily and monthly resets that zero a counter and
    re-admit the campaigns paused for it.

    A row write that fails is modelled by the set `failing`: a write to a
    campaign in it leaves the stored row as it was and is counted as an
    error, and the sweep goes on with the next campaign. */
module SpendingService {
  import opened Common
  import opened Brands
  import opened ScheduleModels
  import opened Campaigns
  import opened SpendModels

  datatype BudgetAction = PausedDaily | PausedMonthly

  /** The report of one budget check. */
  datatype BudgetCheck = BudgetCheck(dailyExceeded: bool, monthlyExceeded: bool,
                                     actionTaken: Option<BudgetAction>)

  datatype Checked = Checked(state: CampaignState, report: BudgetCheck)

  /** The budget check: daily first, then monthly, each counting equality as
      exceeded and pausing only a campaign that is still ACTIVE. Over both
      limits, the daily pause comes first and the monthly branch then finds
      the campaign paused, so the daily reason sticks. The flags are reported
      whatever the status. */
  function CheckBudget(s: CampaignState, brand: Brand, now: Moment): (r: Checked)
    ensures r.report.dailyExceeded <==> s.dailySpend >= brand.dailyBudget
    ensures r.report.monthlyExceeded <==> s.monthlySpend >= brand.monthlyBudget
    ensures r.report.actionTaken == Some(PausedDaily) <==>
              s.status == Active && s.dailySpend >= brand.dailyBudget
    ensures r.report.actionTaken == Some(PausedMonthly) <==>
              s.status == Active && s.dailySpend < brand.dailyBudget && s.monthlySpend >= brand.monthlyBudget
    ensures r.report.actionTaken == Some(PausedDaily) ==>
              r.state == PausedState(s, DailyBudgetExceeded, now)
    ensures r.report.actionTaken == Some(PausedMonthly) ==>
              r.state == PausedState(s, MonthlyBudgetExceeded, now)
    ensures r.report.actionTaken == None ==> r.state == s
    ensures s.status == Paused ==> r.state == s
  {
    var daily := s.dailySpend >= brand.dailyBudget;
    var pauseDaily := daily && s.status == Active;
    var s1 := if pauseDaily then PausedState(s, DailyBudgetExceeded, now) else s;
    var a1 := if pauseDaily then Some(PausedDaily) else None;
    var monthly := s1.monthlySpend >= brand.monthlyBudget;
    var pauseMonthly := monthly && s1.status == Active;
    var s2 := if pauseMonthly then PausedState(s1, MonthlyBudgetExceeded, now) else s1;
    var a2 := if pauseMonthly then Some(PausedMonthly) else a1;
    Checked(s2, BudgetCheck(daily, monthly, a2))
  }

  /** An ACTIVE campaign at its daily budget and over its monthly budget ends
      paused for the daily budget. */
  lemma BothExceededDailySticks(s: CampaignState, brand: Brand, now: Moment)
    requires s.status == Active
    requires s.dailySpend >= brand.dailyBudget && s.monthlySpend >= brand.monthlyBudget
    ensures CheckBudget(s, brand, now).state.pauseReason == Some(DailyBudgetExceeded)
    ensures CheckBudget(s, brand, now).report == BudgetCheck(true, true, Some(PausedDaily))
  {
  }

  /** The check on a campaign object, pausing it in place. */
  method CheckBudgetLimits(c: Campaign, now: Moment) returns (report: BudgetCheck)
    modifies c
    ensures Checked(c.State(), report) == CheckBudget(old(c.State()), c.brand, now)
  {
    var action: Option<BudgetAction> := None;
    var daily := c.dailySpend >= c.brand.dailyBudget;
    if daily && c.status == Active {
      c.Pause(DailyBudgetExceeded, now);
      action := Some(PausedDaily);
    }
    var monthly := c.monthlySpend >= c.brand.monthlyBudget;
    if monthly && c.status == Active {
      c.Pause(MonthlyBudgetExceeded, now);
      action := Some(PausedMonthly);
    }
    report := BudgetCheck(daily, monthly, action);
  }

  /** An id that no stored spend carries, standing for the generated key. */
  function FreshId(rows: seq<Spend>): (r: nat)
    ensures forall t :: t in rows ==> t.id < r
  {
    if rows == [] then 0
    else
      var init, last := rows[..|rows| - 1], rows[|rows| - 1];
      assert rows == init + [last];
      var m := FreshId(init);
      if last.id + 1 > m then last.id + 1 else m
  }

  /** Records a spend of `amount` for c. A non-positive amount is refused
      before anything is written. Otherwise one DAILY row, dated `date` or
      today, is appended to the ledger and charged to both counters, and the
      budget check then runs on the raised counters. The charge goes through
      the corrected save hook (SaveSpend); with the hook as written
      (SaveSpendAsWritten) the counters would stay as they were and the
      check would see the old ones. */
  method TrackSpend(ledger: SpendLedger, c: Campaign, amount: Cents, date: Option<Date>,
                    description: Option<string>, now: Moment) returns (r: Result<Spend>)
    modifies ledger, c
    ensures amount <= 0 ==>
              r == Err(InvalidAmount) && ledger.rows == old(ledger.rows) && c.State() == old(c.State())
    ensures amount > 0 ==> r.Ok?
    ensures r.Ok? ==> r.value.campaign == c.id && r.value.amount == amount
                      && r.value.spendType == Daily && r.value.date == date.GetOr(now.date)
                      && r.value.description == description
    ensures r.Ok? ==> ledger.rows == old(ledger.rows) + [r.value]
    ensures r.Ok? ==> c.dailySpend == old(c.dailySpend) + amount
                      && c.monthlySpend == old(c.monthlySpend) + amount
    ensures r.Ok? ==> c.State() == CheckBudget(WithSpend(old(c.State()), amount), c.brand, now).state
  {
    if amount <= 0 {
      return Err(InvalidAmount);
    }
    var spendDate := if date.Some? then date.value else now.date;
    var s := Spend(FreshId(ledger.rows), c.id, amount, spendDate, Daily, description);
    var saved := ledger.Save(s, c);
    var report := CheckBudgetLimits(c, now);
    r := Ok(s);
  }

  /** Counts of the budget sweep. */
  datatype BudgetTally = BudgetTally(checked: nat, pausedDaily: nat, pausedMonthly: nat, errors: nat)

  /** What the sweep does with one campaign. */
  datatype BudgetVisit = Skipped | PauseFailed | Done(report: BudgetCheck)

  /** The check would write a pause to this campaign. */
  predicate CheckPauses(s: CampaignState, brand: Brand) {
    s.status == Active && (s.dailySpend >= brand.dailyBudget || s.monthlySpend >= brand.monthlyBudget)
  }

  /** Only ACTIVE campaigns are visited; a visit whose pause write fails is
      an error, any other visit is a completed check. */
  function BudgetVisitOf(s: CampaignState, brand: Brand, now: Moment, fails: bool): BudgetVisit {
    if s.status != Active then Skipped
    else if fails && CheckPauses(s, brand) then PauseFailed
    else Done(CheckBudget(s, brand, now).report)
  }

  /** The row of one campaign after the budget sweep. PAUSED campaigns are
      left alone; an ACTIVE one is paused exactly when one of its limits is
      reached and its write succeeds, for the daily budget if that one is
      reached. Counters never change. */
  function AfterBudgetVisit(s: CampaignState, brand: Brand, now: Moment, fails: bool): (r: CampaignState)
    ensures s.status == Paused ==> r == s
    ensures fails ==> r == s
    ensures s.status == Active && !fails ==> (r.status == Paused <==> CheckPauses(s, brand))
    ensures r != s ==> r == PausedState(s, if s.dailySpend >= brand.dailyBudget
                                           then DailyBudgetExceeded else MonthlyBudgetExceeded, now)
    ensures r.dailySpend == s.dailySpend && r.monthlySpend == s.monthlySpend
  {
    match BudgetVisitOf(s, brand, now, fails)
    case Done(_) => CheckBudget(s, brand, now).state
    case _ => s
  }

  function AddBudgetVisit(t: BudgetTally, v: BudgetVisit): BudgetTally {
    match v
    case Skipped => t
    case PauseFailed => t.(checked := t.checked + 1, errors := t.errors + 1)
    case Done(report) =>
      t.(checked := t.checked + 1,
         pausedDaily := t.pausedDaily + Tick(report.actionTaken == Some(PausedDaily)),
         pausedMonthly := t.pausedMonthly + Tick(report.actionTaken == Some(PausedMonthly)))
  }

  /** The sweep's counts over campaigns cs whose rows were ss. */
  function BudgetTallyOf(cs: seq<Campaign>, ss: seq<CampaignState>, failing: set<Campaign>,
                         now: Moment): BudgetTally
    requires |cs| == |ss|
  {
    if cs == [] then BudgetTally(0, 0, 0, 0)
    else
      var n := |cs| - 1;
      AddBudgetVisit(BudgetTallyOf(cs[..n], ss[..n], failing, now),
                     BudgetVisitOf(ss[n], cs[n].brand, now, cs[n] in failing))
  }

  /** Every ACTIVE campaign is checked exactly once, each check pauses at
      most once or fails, and nothing fails when no write does. */
  lemma {:induction false} BudgetTallyBounds(cs: seq<Campaign>, ss: seq<CampaignState>,
                                             failing: set<Campaign>, now: Moment)
    requires |cs| == |ss|
    ensures var t := BudgetTallyOf(cs, ss, failing, now);
            && t.checked == CountActive(ss)
            && t.pausedDaily + t.pausedMonthly + t.errors <= t.checked
            && (failing == {} ==> t.errors == 0)
  {
    if cs != [] {
      var n := |cs| - 1;
      BudgetTallyBounds(cs[..n], ss[..n], failing, now);
    }
  }

  /** The budget sweep on one campaign. */
  method VisitForBudget(c: Campaign, failing: set<Campaign>, now: Moment) returns (v: BudgetVisit)
    modifies c
    ensures v == BudgetVisitOf(old(c.State()), c.brand, now, c in failing)
    ensures c.State() == AfterBudgetVisit(old(c.State()), c.brand, now, c in failing)
  {
    v := Skipped;
    if c.status == Active {
      if c in failing && CheckPauses(c.State(), c.brand) {
        v := PauseFailed;
      } else {
        var report := CheckBudgetLimits(c, now);
        v := Done(report);
      }
    }
  }

  /** The sweep over all campaigns cs: the ACTIVE ones are checked, one by
      one, and a failing one is counted as an error. */
  method EnforceBudgetLimits(cs: seq<Campaign>, failing: set<Campaign>, now: Moment) returns (t: BudgetTally)
    requires UniqueIds(cs)
    modifies set c | c in cs
    ensures forall k :: 0 <= k < |cs| ==>
              cs[k].State() == AfterBudgetVisit(old(cs[k].State()), cs[k].brand, now, cs[k] in failing)
    ensures t == BudgetTallyOf(cs, old(States(cs)), failing, now)
  {
    ghost var olds := States(cs);
    t := BudgetTally(0, 0, 0, 0);
    var i := 0;
    while i < |cs|
      invariant 0 <= i <= |cs|
      invariant forall k :: 0 <= k < i ==>
                  cs[k].State() == AfterBudgetVisit(olds[k], cs[k].brand, now, cs[k] in failing)
      invariant forall k :: i <= k < |cs| ==> cs[k].State() == olds[k]
      invariant t == BudgetTallyOf(cs[..i], olds[..i], failing, now)
    {
      assert cs[..i + 1][..i] == cs[..i] && olds[..i + 1][..i] == olds[..i];
      var v := VisitForBudget(cs[i], failing, now);
      t := AddBudgetVisit(t, v);
      i := i + 1;
    }
    assert cs[..|cs|] == cs && olds[..|cs|] == olds;
  }

  /** Counts of a reset sweep. */
  datatype ResetTally = ResetTally(reset: nat, reactivated: nat, errors: nat)

  function OtherPeriod(p: Period): Period {
    if p == DailyPeriod then MonthlyPeriod else DailyPeriod
  }

  /** The first phase of a reset writes the zeroed counter, unless the write fails. */
  function AfterResetWrite(s: CampaignState, p: Period, fails: bool): CampaignState {
    if fails then s else ResetCounter(s, p)
  }

  /** What the second phase of a reset does with one campaign. */
  datatype Reactivation = NotEligible | Blocked | Reactivated | ReactivationFailed

  /** Only campaigns PAUSED for this period's budget are considered; the
      guard decides, and its lookup error or a failing write is an error. */
  function ReactivationOf(p: Period, s: CampaignState, brand: Brand, id: CampaignId,
                          schedules: seq<Schedule>, now: Moment, fails: bool): Reactivation {
    if !(s.status == Paused && s.pauseReason == Some(ExceededReason(p))) then NotEligible
    else match CanBeActivated(s, brand, id, schedules, now)
      case Err(_) => ReactivationFailed
      case Ok(false) => Blocked
      case Ok(true) => if fails then ReactivationFailed else Reactivated
  }

  /** The second phase on one row: only a successful re-admission changes it. */
  function AfterReactivation(p: Period, s: CampaignState, brand: Brand, id: CampaignId,
                             schedules: seq<Schedule>, now: Moment, fails: bool): CampaignState {
    if ReactivationOf(p, s, brand, id, schedules, now, fails) == Reactivated then ActivatedState(s) else s
  }

  predicate PausedFor(s: CampaignState, p: Period) {
    s.status == Paused && s.pauseReason == Some(ExceededReason(p))
  }

  /** The row of one campaign after a reset of period p: its counter for p is
      zero unless the write failed, the other counter is kept, and only a
      campaign paused for p's budget that passes the guard after the reset
      becomes ACTIVE; every other campaign keeps status, reason and time. */
  function AfterReset(p: Period, s: CampaignState, brand: Brand, id: CampaignId,
                      schedules: seq<Schedule>, now: Moment, fails: bool): (r: CampaignState)
    ensures !fails ==> Spent(r, p) == 0
    ensures fails ==> r == s
    ensures Spent(r, OtherPeriod(p)) == Spent(s, OtherPeriod(p))
    ensures r.status != s.status ==>
              && PausedFor(s, p) && !fails
              && CanBeActivated(ResetCounter(s, p), brand, id, schedules, now) == Ok(true)
              && r == ActivatedState(ResetCounter(s, p))
    ensures (PausedFor(s, p) && !fails &&
             CanBeActivated(ResetCounter(s, p), brand, id, schedules, now) == Ok(true)) ==>
              r == ActivatedState(ResetCounter(s, p))
    ensures !PausedFor(s, p) ==>
              r.status == s.status && r.pauseReason == s.pauseReason && r.pausedAt == s.pausedAt
    ensures r.status == s.status ==> r.pauseReason == s.pauseReason && r.pausedAt == s.pausedAt
  {
    AfterReactivation(p, AfterResetWrite(s, p, fails), brand, id, schedules, now, fails)
  }

  /** What the second phase does with each of the campaigns cs, whose rows are ss. */
  function Reactivations(p: Period, cs: seq<Campaign>, ss: seq<CampaignState>,
                         schedules: seq<Schedule>, failing: set<Campaign>, now: Moment): (r: seq<Reactivation>)
    requires |cs| == |ss|
    ensures |r| == |cs|
    ensures forall k :: 0 <= k < |cs| ==>
              r[k] == ReactivationOf(p, ss[k], cs[k].brand, cs[k].id, schedules, now, cs[k] in failing)
  {
    seq(|cs|, k requires 0 <= k < |cs| =>
      ReactivationOf(p, ss[k], cs[k].brand, cs[k].id, schedules, now, cs[k] in failing))
  }

  /** The second phase's counts (reactivated, errors); each campaign adds to
      at most one of them. */
  function ReactivationCounts(vs: seq<Reactivation>): (r: (nat, nat))
    ensures r.0 + r.1 <= |vs|
  {
    if vs == [] then (0, 0)
    else
      var t := ReactivationCounts(vs[..|vs| - 1]);
      var v := vs[|vs| - 1];
      (t.0 + Tick(v == Reactivated), t.1 + Tick(v == ReactivationFailed))
  }

  /** The rows between the two phases. */
  function ResetRows(p: Period, cs: seq<Campaign>, ss: seq<CampaignState>,
                     failing: set<Campaign>): (r: seq<CampaignState>)
    requires |cs| == |ss|
    ensures |r| == |ss|
    ensures forall k :: 0 <= k < |ss| ==> r[k] == AfterResetWrite(ss[k], p, cs[k] in failing)
  {
    seq(|ss|, k requires 0 <= k < |ss| => AfterResetWrite(ss[k], p, cs[k] in failing))
  }

  /** The counts of a whole reset sweep. */
  function ResetTallyOf(p: Period, cs: seq<Campaign>, ss: seq<CampaignState>,
                        schedules: seq<Schedule>, failing: set<Campaign>, now: Moment): ResetTally
    requires |cs| == |ss|
  {
    var failed := CountFailing(cs, failing);
    var second := ReactivationCounts(Reactivations(p, cs, ResetRows(p, cs, ss, failing), schedules, failing, now));
    ResetTally(|cs| - failed, second.0, failed + second.1)
  }

  /** Every campaign is reset or counted as an error; when no write fails,
      every campaign is reset, and nothing is reactivated more than once. */
  lemma {:induction false} ResetTallyBounds(p: Period, cs: seq<Campaign>, ss: seq<CampaignState>,
                                            schedules: seq<Schedule>, failing: set<Campaign>,
                                            now: Moment)
    requires |cs| == |ss|
    ensures var t := ResetTallyOf(p, cs, ss, schedules, failing, now);
            && t.reset <= |cs| && t.reactivated <= |cs|
            && (failing == {} ==> t.reset == |cs|)
  {
    if failing == {} {
      NoneFailing(cs, failing);
    }
  }

  lemma {:induction false} NoneFailing(cs: seq<Campaign>, failing: set<Campaign>)
    requires failing == {}
    ensures CountFailing(cs, failing) == 0
  {
    if cs != [] {
      NoneFailing(cs[..|cs| - 1], failing);
    }
  }

  /** The first phase of a reset: every campaign's counter for p is zeroed,
      one write per campaign. */
  method ResetCounters(p: Period, cs: seq<Campaign>, failing: set<Campaign>)
    returns (reset: nat, errors: nat)
    requires UniqueIds(cs)
    modifies set c | c in cs
    ensures forall k :: 0 <= k < |cs| ==>
              cs[k].State() == AfterResetWrite(old(cs[k].State()), p, cs[k] in failing)
    ensures errors == CountFailing(cs, failing) && reset == |cs| - errors
  {
    ghost var olds := States(cs);
    reset, errors := 0, 0;
    var i := 0;
    while i < |cs|
      invariant 0 <= i <= |cs|
      invariant forall k :: 0 <= k < i ==>
                  cs[k].State() == AfterResetWrite(olds[k], p, cs[k] in failing)
      invariant forall k :: i <= k < |cs| ==> cs[k].State() == olds[k]
      invariant errors == CountFailing(cs[..i], failing) && reset == i - errors
    {
      var c := cs[i];
      assert cs[..i + 1][..i] == cs[..i];
      if c in failing {
        errors := errors + 1;
      } else {
        if p == DailyPeriod {
          c.ResetDailySpend();
        } else {
          c.ResetMonthlySpend();
        }
        reset := reset + 1;
      }
      i := i + 1;
    }
    assert cs[..|cs|] == cs;
  }

  /** The second phase on one campaign. */
  method ReadmitOne(p: Period, c: Campaign, schedules: seq<Schedule>, failing: set<Campaign>,
                    now: Moment) returns (v: Reactivation)
    modifies c
    ensures v == ReactivationOf(p, old(c.State()), c.brand, c.id, schedules, now, c in failing)
    ensures c.State() == AfterReactivation(p, old(c.State()), c.brand, c.id, schedules, now, c in failing)
  {
    v := NotEligible;
    if c.status == Paused && c.pauseReason == Some(ExceededReason(p)) {
      var allowed := CanBeActivated(c.State(), c.brand, c.id, schedules, now);
      if allowed.Err? {
        v := ReactivationFailed;
      } else if !allowed.value {
        v := Blocked;
      } else if c in failing {
        v := ReactivationFailed;
      } else {
        var activated := c.Activate(schedules, now);
        v := Reactivated;
      }
    }
  }

  /** The second phase of a reset: each campaign paused for p's budget is
      re-admitted when the guard allows it. */
  method ReadmitPaused(p: Period, cs: seq<Campaign>, schedules: seq<Schedule>,
                       failing: set<Campaign>, now: Moment) returns (reactivated: nat, errors: nat)
    requires UniqueIds(cs)
    modifies set c | c in cs
    ensures forall k :: 0 <= k < |cs| ==>
              cs[k].State() == AfterReactivation(p, old(cs[k].State()), cs[k].brand, cs[k].id,
                                                 schedules, now, cs[k] in failing)
    ensures (reactivated, errors) ==
              ReactivationCounts(Reactivations(p, cs, old(States(cs)), schedules, failing, now))
  {
    ghost var olds := States(cs);
    ghost var visits := Reactivations(p, cs, olds, schedules, failing, now);
    reactivated, errors := 0, 0;
    var j := 0;
    while j < |cs|
      invariant 0 <= j <= |cs|
      invariant forall k :: 0 <= k < j ==>
                  cs[k].State() == AfterReactivation(p, olds[k], cs[k].brand, cs[k].id,
                                                     schedules, now, cs[k] in failing)
      invariant forall k :: j <= k < |cs| ==> cs[k].State() == olds[k]
      invariant (reactivated, errors) == ReactivationCounts(visits[..j])
    {
      reactivated, errors := ReadmitStep(p, cs, j, schedules, failing, now, olds, visits, reactivated, errors);
      j := j + 1;
    }
    assert visits[..|cs|] == visits;
  }

  /** One iteration of the second phase: campaign j is handled, the rows
      before it are done and the rows after it are untouched. */
  method ReadmitStep(p: Period, cs: seq<Campaign>, j: nat, schedules: seq<Schedule>,
                     failing: set<Campaign>, now: Moment, ghost olds: seq<CampaignState>,
                     ghost visits: seq<Reactivation>, reactivated0: nat, errors0: nat)
    returns (reactivated: nat, errors: nat)
    requires UniqueIds(cs) && j < |cs| == |olds|
    requires visits == Reactivations(p, cs, olds, schedules, failing, now)
    requires forall k :: 0 <= k < j ==>
               cs[k].State() == AfterReactivation(p, olds[k], cs[k].brand, cs[k].id,
                                                  schedules, now, cs[k] in failing)
    requires forall k :: j <= k < |cs| ==> cs[k].State() == olds[k]
    requires (reactivated0, errors0) == ReactivationCounts(visits[..j])
    modifies cs[j]
    ensures forall k :: 0 <= k < j + 1 ==>
              cs[k].State() == AfterReactivation(p, olds[k], cs[k].brand, cs[k].id,
                                                 schedules, now, cs[k] in failing)
    ensures forall k :: j + 1 <= k < |cs| ==> cs[k].State() == olds[k]
    ensures (reactivated, errors) == ReactivationCounts(visits[..j + 1])
  {
    assert visits[..j + 1][..j] == visits[..j];
    var v := ReadmitOne(p, cs[j], schedules, failing, now);
    reactivated, errors := reactivated0 + Tick(v == Reactivated), errors0 + Tick(v == ReactivationFailed);
  }

  /** A reset of period p over all campaigns cs: both phases in turn. */
  method ResetSpends(p: Period, cs: seq<Campaign>, schedules: seq<Schedule>,
                     failing: set<Campaign>, now: Moment) returns (t: ResetTally)
    requires UniqueIds(cs)
    modifies set c | c in cs
    ensures forall k :: 0 <= k < |cs| ==>
              cs[k].State() == AfterReset(p, old(cs[k].State()), cs[k].brand, cs[k].id,
                                          schedules, now, cs[k] in failing)
    ensures t == ResetTallyOf(p, cs, old(States(cs)), schedules, failing, now)
  {
    ghost var olds := States(cs);
    var reset, firstErrors := ResetCounters(p, cs, failing);
    ghost var mids := States(cs);
    assert mids == ResetRows(p, cs, olds, failing);
    var reactivated, secondErrors := ReadmitPaused(p, cs, schedules, failing, now);
    t := ResetTally(reset, reactivated, firstErrors + secondErrors);
  }

  /** The nightly reset: daily counters. */
  method ResetDailySpends(cs: seq<Campaign>, schedules: seq<Schedule>, failing: set<Campaign>,
                          now: Moment) returns (t: ResetTally)
    requires UniqueIds(cs)
    modifies set c | c in cs
    ensures forall k :: 0 <= k < |cs| ==>
              cs[k].State() == AfterReset(DailyPeriod, old(cs[k].State()), cs[k].brand, cs[k].id,
                                          schedules, now, cs[k] in failing)
    ensures t == ResetTallyOf(DailyPeriod, cs, old(States(cs)), schedules, failing, now)
  {
    t := ResetSpends(DailyPeriod, cs, schedules, failing, now);
  }

  /** The monthly reset: monthly counters. */
  method ResetMonthlySpends(cs: seq<Campaign>, schedules: seq<Schedule>, failing: set<Campaign>,
                            now: Moment) returns (t: ResetTally)
    requires UniqueIds(cs)
    modifies set c | c in cs
    ensures forall k :: 0 <= k < |cs| ==>
              cs[k].State() == AfterReset(MonthlyPeriod, old(cs[k].State()), cs[k].brand, cs[k].id,
                                          schedules, now, cs[k] in failing)
    ensures t == ResetTallyOf(MonthlyPeriod, cs, old(States(cs)), schedules, failing, now)
  {
    t := ResetSpends(MonthlyPeriod, cs, schedules, failing, now);
  }
}
