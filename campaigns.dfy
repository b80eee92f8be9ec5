/** The campaign state machine: ACTIVE or PAUSED with a reason and a time,
    two running spend counters, and the guard that decides whether a paused
    campaign may run again. */
module Campaigns {
  import opened Common
  import opened Brands
  import opened ScheduleModels

  datatype CampaignStatus = Active | Paused

  datatype PauseReason =
    | DailyBudgetExceeded
    | MonthlyBudgetExceeded
    | OutsideSchedule
    | NoSchedule
    | Manual

  /** The stored row of a campaign, less its identity and brand. */
  datatype CampaignState = CampaignState(
    status: CampaignStatus,
    pauseReason: Option<PauseReason>,
    pausedAt: Option<Moment>,
    dailySpend: Cents,
    monthlySpend: Cents)

  /** A campaign is ACTIVE exactly when it records no pause reason, and it
      records a reason exactly when it records a pause time. */
  predicate Consistent(s: CampaignState) {
    && (s.status == Active <==> s.pauseReason == None)
    && (s.pauseReason == None <==> s.pausedAt == None)
  }

  function PausedState(s: CampaignState, reason: PauseReason, now: Moment): CampaignState {
    s.(status := Paused, pauseReason := Some(reason), pausedAt := Some(now))
  }

  function ActivatedState(s: CampaignState): CampaignState {
    s.(status := Active, pauseReason := None, pausedAt := None)
  }

  function WithSpend(s: CampaignState, amount: Cents): CampaignState {
    s.(dailySpend := s.dailySpend + amount, monthlySpend := s.monthlySpend + amount)
  }

  /** The two budget periods. Each has its own counter, its own brand budget
      and its own pause reason. */
  datatype Period = DailyPeriod | MonthlyPeriod

  function Spent(s: CampaignState, p: Period): Cents {
    if p == DailyPeriod then s.dailySpend else s.monthlySpend
  }

  function Budget(b: Brand, p: Period): Cents {
    if p == DailyPeriod then b.dailyBudget else b.monthlyBudget
  }

  function ExceededReason(p: Period): PauseReason {
    if p == DailyPeriod then DailyBudgetExceeded else MonthlyBudgetExceeded
  }

  function ResetCounter(s: CampaignState, p: Period): CampaignState {
    if p == DailyPeriod then s.(dailySpend := 0) else s.(monthlySpend := 0)
  }

  /** Both transitions establish the status/reason/time invariant, whatever
      the state they start from. */
  lemma TransitionsKeepConsistent(s: CampaignState, reason: PauseReason, now: Moment)
    ensures Consistent(PausedState(s, reason, now))
    ensures Consistent(ActivatedState(s))
  {
  }

  /** The activation guard, checked in this order: daily headroom, monthly
      headroom, then the dayparting schedule. Reaching a budget exactly
      blocks activation. A schedule lookup error surfaces only when both
      budget checks pass. */
  function CanBeActivated(s: CampaignState, brand: Brand, id: CampaignId,
                          schedules: seq<Schedule>, now: Moment): (r: Result<bool>)
    ensures r == Ok(true) <==>
              && s.dailySpend < brand.dailyBudget
              && s.monthlySpend < brand.monthlyBudget
              && IsCampaignScheduledNow(schedules, id, now) == Ok(true)
    ensures r.Err? <==>
              && s.dailySpend < brand.dailyBudget
              && s.monthlySpend < brand.monthlyBudget
              && MultipleActive(schedules, id, now.weekday)
    ensures r.Err? ==> r.error == MultipleSchedules
  {
    if s.dailySpend >= brand.dailyBudget then Ok(false)
    else if s.monthlySpend >= brand.monthlyBudget then Ok(false)
    else IsCampaignScheduledNow(schedules, id, now)
  }

  /** An advertising campaign; its row is updated in place. */
  class Campaign {
    const id: CampaignId
    const brand: Brand
    var status: CampaignStatus
    var pauseReason: Option<PauseReason>
    var pausedAt: Option<Moment>
    var dailySpend: Cents
    var monthlySpend: Cents

    /** A new campaign is ACTIVE with both counters at zero. */
    constructor (id: CampaignId, brand: Brand)
      ensures this.id == id && this.brand == brand
      ensures State() == CampaignState(Active, None, None, 0, 0)
      ensures Consistent(State())
    {
      this.id := id;
      this.brand := brand;
      status := Active;
      pauseReason := None;
      pausedAt := None;
      dailySpend := 0;
      monthlySpend := 0;
    }

    function State(): CampaignState
      reads this
    {
      CampaignState(status, pauseReason, pausedAt, dailySpend, monthlySpend)
    }

    /** Always succeeds: PAUSED with the given reason and time, whatever the
        previous state; pausing again overwrites the reason. */
    method Pause(reason: PauseReason, now: Moment)
      modifies this
      ensures status == Paused && pauseReason == Some(reason) && pausedAt == Some(now)
      ensures dailySpend == old(dailySpend) && monthlySpend == old(monthlySpend)
      ensures State() == PausedState(old(State()), reason, now)
      ensures Consistent(State())
    {
      status := Paused;
      pauseReason := Some(reason);
      pausedAt := Some(now);
    }

    /** Returns the guard's answer; only when it is true does the campaign
        become ACTIVE with no reason and no time. Otherwise nothing changes. */
    method Activate(schedules: seq<Schedule>, now: Moment) returns (r: Result<bool>)
      modifies this
      ensures r == CanBeActivated(old(State()), brand, id, schedules, now)
      ensures r == Ok(true) ==> status == Active && pauseReason == None && pausedAt == None
      ensures r == Ok(true) ==> State() == ActivatedState(old(State()))
      ensures r != Ok(true) ==> State() == old(State())
      ensures old(Consistent(State())) ==> Consistent(State())
    {
      r := CanBeActivated(State(), brand, id, schedules, now);
      if r == Ok(true) {
        status := Active;
        pauseReason := None;
        pausedAt := None;
      }
    }

    /** A positive amount raises both counters by exactly that amount; any
        other amount is refused and changes nothing. */
    method AddSpend(amount: Cents) returns (r: Outcome)
      modifies this
      ensures amount <= 0 ==> r == Fail(InvalidAmount) && State() == old(State())
      ensures amount > 0 ==> r == Pass
      ensures amount > 0 ==>
                (dailySpend == old(dailySpend) + amount && monthlySpend == old(monthlySpend) + amount)
      ensures amount > 0 ==> State() == WithSpend(old(State()), amount)
      ensures status == old(status) && pauseReason == old(pauseReason) && pausedAt == old(pausedAt)
    {
      if amount <= 0 {
        return Fail(InvalidAmount);
      }
      dailySpend := dailySpend + amount;
      monthlySpend := monthlySpend + amount;
      r := Pass;
    }

    /** Zeroes the daily counter and nothing else. */
    method ResetDailySpend()
      modifies this
      ensures State() == old(State()).(dailySpend := 0)
    {
      dailySpend := 0;
    }

    /** Zeroes the monthly counter and nothing else. */
    method ResetMonthlySpend()
      modifies this
      ensures State() == old(State()).(monthlySpend := 0)
    {
      monthlySpend := 0;
    }

    /** Budget left today; it is exhausted exactly when the daily check
        trips, and it goes negative once spend passes the budget. */
    function RemainingDailyBudget(): (r: Cents)
      reads this
      ensures r <= 0 <==> dailySpend >= brand.dailyBudget
      ensures r < 0 <==> dailySpend > brand.dailyBudget
      ensures r + dailySpend == brand.dailyBudget
    {
      brand.dailyBudget - dailySpend
    }

    /** Budget left this month, with the same boundary behaviour. */
    function RemainingMonthlyBudget(): (r: Cents)
      reads this
      ensures r <= 0 <==> monthlySpend >= brand.monthlyBudget
      ensures r < 0 <==> monthlySpend > brand.monthlyBudget
      ensures r + monthlySpend == brand.monthlyBudget
    {
      brand.monthlyBudget - monthlySpend
    }
  }

  /** The rows of the campaign table: no id occurs twice (it is the primary
      key), hence no object occurs twice either. */
  predicate UniqueIds(cs: seq<Campaign>) {
    forall i, j :: 0 <= i < |cs| && 0 <= j < |cs| && cs[i].id == cs[j].id ==> i == j
  }

  /** The stored rows of a list of campaigns, position by position. */
  function States(cs: seq<Campaign>): (r: seq<CampaignState>)
    reads set c | c in cs
    ensures |r| == |cs|
    ensures forall k :: 0 <= k < |cs| ==> r[k] == cs[k].State()
  {
    if cs == [] then []
    else States(cs[..|cs| - 1]) + [cs[|cs| - 1].State()]
  }

  /** The position of the campaign with the given id, if it is listed. */
  function IndexOf(cs: seq<Campaign>, id: CampaignId): (r: Option<nat>)
    ensures r.Some? ==> r.value < |cs| && cs[r.value].id == id
    ensures r.None? <==> forall k :: 0 <= k < |cs| ==> cs[k].id != id
  {
    if cs == [] then None
    else if cs[|cs| - 1].id == id then Some(|cs| - 1)
    else IndexOf(cs[..|cs| - 1], id)
  }

  function Tick(b: bool): nat {
    if b then 1 else 0
  }

  /** Number of ACTIVE rows. */
  function CountActive(ss: seq<CampaignState>): nat {
    if ss == [] then 0
    else CountActive(ss[..|ss| - 1]) + Tick(ss[|ss| - 1].status == Active)
  }

  /** Number of listed campaigns whose writes fail. */
  function CountFailing(cs: seq<Campaign>, failing: set<Campaign>): (r: nat)
    ensures r <= |cs|
  {
    if cs == [] then 0
    else CountFailing(cs[..|cs| - 1], failing) + Tick(cs[|cs| - 1] in failing)
  }
}
