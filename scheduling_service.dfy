/** The dayparting service: which campaigns the schedules say should run now
    and which should not, the sweep that pauses the latter and re-admits the
    former, the default all-week schedule, and the schedule count.

    As in the spending service, `failing` is the set of campaigns whose row
    writes fail; each such write is counted as an error and the sweep goes
    on. */
module SchedulingService {
  import opened Common
  import opened ScheduleModels
  import opened Campaigns

  /** The campaigns, by id, of the active schedules for today whose window
      covers now: one entry per such schedule, whatever the campaign's
      status. */
  function GetCampaignsThatShouldBeActive(schedules: seq<Schedule>, now: Moment): (r: seq<CampaignId>)
    ensures forall id :: id in r <==>
              exists s :: s in schedules && ActiveOn(s, id, now.weekday) && IsTimeInRange(s, now.second)
    ensures |r| <= |schedules|
  {
    if schedules == [] then []
    else
      var init, last := schedules[..|schedules| - 1], schedules[|schedules| - 1];
      assert schedules == init + [last];
      var r := GetCampaignsThatShouldBeActive(init, now);
      if last.day == now.weekday && last.isActive && IsTimeInRange(last, now.second)
      then r + [last.campaign] else r
  }

  /** The positions of the schedules that make campaign id due now. */
  ghost function MatchIndices(schedules: seq<Schedule>, id: CampaignId, now: Moment): set<nat> {
    set i: nat | i < |schedules| && ActiveOn(schedules[i], id, now.weekday) && IsTimeInRange(schedules[i], now.second)
  }

  /** Each campaign is listed once per matching schedule: the list keeps
      repeats, so a campaign with two covering windows is visited twice. */
  lemma {:induction false} ShouldBeActiveMultiplicity(schedules: seq<Schedule>, now: Moment)
    ensures forall id :: multiset(GetCampaignsThatShouldBeActive(schedules, now))[id] ==
                          |MatchIndices(schedules, id, now)|
  {
    if schedules == [] {
      forall id ensures MatchIndices(schedules, id, now) == {} {}
    } else {
      var n := |schedules| - 1;
      var init, last := schedules[..n], schedules[n];
      assert schedules == init + [last];
      ShouldBeActiveMultiplicity(init, now);
      var due := last.day == now.weekday && last.isActive && IsTimeInRange(last, now.second);
      assert multiset(GetCampaignsThatShouldBeActive(schedules, now)) ==
               multiset(GetCampaignsThatShouldBeActive(init, now)) +
                 (if due then multiset{last.campaign} else multiset{});
      forall id
        ensures multiset(GetCampaignsThatShouldBeActive(schedules, now))[id] ==
                  |MatchIndices(schedules, id, now)|
      {
        MatchIndicesSnoc(init, last, id, now);
      }
    }
  }

  /** Appending a row adds its position to the matches of its own campaign
      when it is due, and to no other campaign's. */
  lemma MatchIndicesSnoc(init: seq<Schedule>, last: Schedule, id: CampaignId, now: Moment)
    ensures |MatchIndices(init + [last], id, now)| ==
              |MatchIndices(init, id, now)| +
                Tick(ActiveOn(last, id, now.weekday) && IsTimeInRange(last, now.second))
  {
    var n := |init|;
    var rows := init + [last];
    assert n !in MatchIndices(init, id, now);
    var m := ActiveOn(last, id, now.weekday) && IsTimeInRange(last, now.second);
    assert MatchIndices(rows, id, now) == MatchIndices(init, id, now) + (if m then {n} else {});
  }

  /** The ACTIVE campaigns among cs (whose rows are ss) that have no active
      schedule for today or whose window does not cover now, in table order.
      The per-day lookup of any ACTIVE campaign failing fails the whole list. */
  function ShouldBePaused(cs: seq<Campaign>, ss: seq<CampaignState>, schedules: seq<Schedule>,
                          now: Moment): (r: Result<seq<Campaign>>)
    requires |cs| == |ss|
    ensures r.Err? <==> exists k :: 0 <= k < |cs| && ss[k].status == Active &&
                                     MultipleActive(schedules, cs[k].id, now.weekday)
    ensures r.Err? ==> r.error == MultipleSchedules
  {
    if cs == [] then Ok([])
    else
      var n := |cs| - 1;
      assert cs == cs[..n] + [cs[n]] && ss == ss[..n] + [ss[n]];
      match ShouldBePaused(cs[..n], ss[..n], schedules, now)
      case Err(e) => Err(e)
      case Ok(l) =>
        if ss[n].status != Active then Ok(l)
        else match IsCampaignScheduledNow(schedules, cs[n].id, now)
          case Err(e) => Err(e)
          case Ok(scheduled) => if scheduled then Ok(l) else Ok(l + [cs[n]])
  }

  predicate ToPause(c: Campaign, s: CampaignState, schedules: seq<Schedule>, now: Moment) {
    s.status == Active && IsCampaignScheduledNow(schedules, c.id, now) == Ok(false)
  }

  /** Every ACTIVE campaign whose schedule does not cover now is listed. */
  lemma {:induction false} ShouldBePausedComplete(cs: seq<Campaign>, ss: seq<CampaignState>,
                                                  schedules: seq<Schedule>, now: Moment)
    requires |cs| == |ss|
    requires ShouldBePaused(cs, ss, schedules, now).Ok?
    ensures var l := ShouldBePaused(cs, ss, schedules, now).value;
            forall k :: 0 <= k < |cs| && ToPause(cs[k], ss[k], schedules, now) ==> cs[k] in l
  {
    if cs != [] {
      var n := |cs| - 1;
      assert cs == cs[..n] + [cs[n]] && ss == ss[..n] + [ss[n]];
      ShouldBePausedComplete(cs[..n], ss[..n], schedules, now);
      assert forall k :: 0 <= k < n ==> cs[..n][k] == cs[k] && ss[..n][k] == ss[k];
    }
  }

  /** c is one of the rows cs, ACTIVE and outside its schedule. */
  ghost predicate ListedFor(c: Campaign, cs: seq<Campaign>, ss: seq<CampaignState>,
                            schedules: seq<Schedule>, now: Moment)
    requires |cs| == |ss|
  {
    exists k :: 0 <= k < |cs| && cs[k] == c && ToPause(cs[k], ss[k], schedules, now)
  }

  /** Every listed campaign is an ACTIVE campaign whose schedule does not
      cover now. */
  lemma {:induction false} ShouldBePausedSound(cs: seq<Campaign>, ss: seq<CampaignState>,
                                               schedules: seq<Schedule>, now: Moment)
    requires |cs| == |ss|
    requires ShouldBePaused(cs, ss, schedules, now).Ok?
    ensures var l := ShouldBePaused(cs, ss, schedules, now).value;
            forall j :: 0 <= j < |l| ==> ListedFor(l[j], cs, ss, schedules, now)
  {
    if cs != [] {
      var n := |cs| - 1;
      assert cs == cs[..n] + [cs[n]] && ss == ss[..n] + [ss[n]];
      ShouldBePausedSound(cs[..n], ss[..n], schedules, now);
      var l := ShouldBePaused(cs[..n], ss[..n], schedules, now).value;
      var l' := ShouldBePaused(cs, ss, schedules, now).value;
      assert l' == l || (l' == l + [cs[n]] && ToPause(cs[n], ss[n], schedules, now));
      forall j | 0 <= j < |l'|
        ensures ListedFor(l'[j], cs, ss, schedules, now)
      {
        if j < |l| {
          assert ListedFor(l[j], cs[..n], ss[..n], schedules, now);
          var k :| 0 <= k < n && cs[..n][k] == l[j] && ToPause(cs[..n][k], ss[..n][k], schedules, now);
          assert cs[..n][k] == cs[k] && ss[..n][k] == ss[k];
        } else {
          assert l'[j] == cs[n] && ToPause(cs[n], ss[n], schedules, now);
        }
      }
    }
  }

  /** No more campaigns are listed than there are ACTIVE campaigns. */
  lemma {:induction false} ShouldBePausedCount(cs: seq<Campaign>, ss: seq<CampaignState>,
                                               schedules: seq<Schedule>, now: Moment)
    requires |cs| == |ss|
    requires ShouldBePaused(cs, ss, schedules, now).Ok?
    ensures |ShouldBePaused(cs, ss, schedules, now).value| <= CountActive(ss)
  {
    if cs != [] {
      var n := |cs| - 1;
      assert cs == cs[..n] + [cs[n]] && ss == ss[..n] + [ss[n]];
      ShouldBePausedCount(cs[..n], ss[..n], schedules, now);
    }
  }

  /** Listing distinct campaigns yields a list of distinct campaigns. */
  lemma {:induction false} ShouldBePausedUnique(cs: seq<Campaign>, ss: seq<CampaignState>,
                                                schedules: seq<Schedule>, now: Moment)
    requires |cs| == |ss| && UniqueIds(cs)
    requires ShouldBePaused(cs, ss, schedules, now).Ok?
    ensures UniqueIds(ShouldBePaused(cs, ss, schedules, now).value)
  {
    if cs != [] {
      var n := |cs| - 1;
      assert cs == cs[..n] + [cs[n]] && ss == ss[..n] + [ss[n]];
      assert UniqueIds(cs[..n]);
      ShouldBePausedUnique(cs[..n], ss[..n], schedules, now);
      ShouldBePausedSound(cs[..n], ss[..n], schedules, now);
      var l := ShouldBePaused(cs[..n], ss[..n], schedules, now).value;
      forall j | 0 <= j < |l|
        ensures l[j].id != cs[n].id
      {
        assert ListedFor(l[j], cs[..n], ss[..n], schedules, now);
        var k :| 0 <= k < n && cs[..n][k] == l[j] && ToPause(cs[..n][k], ss[..n][k], schedules, now);
        assert cs[..n][k] == cs[k];
      }
    }
  }

  /** The list built by walking the ACTIVE campaigns and asking each one's
      per-day lookup; a failing lookup ends the walk. */
  method GetCampaignsThatShouldBePaused(cs: seq<Campaign>, schedules: seq<Schedule>, now: Moment)
    returns (r: Result<seq<Campaign>>)
    ensures r == ShouldBePaused(cs, States(cs), schedules, now)
  {
    ghost var ss := States(cs);
    var toPause: seq<Campaign> := [];
    var i := 0;
    while i < |cs|
      invariant 0 <= i <= |cs|
      invariant ShouldBePaused(cs[..i], ss[..i], schedules, now) == Ok(toPause)
    {
      ShouldBePausedSnoc(cs, ss, schedules, now, i);
      var c := cs[i];
      if c.status == Active {
        var lookup := GetScheduleForCampaignAndDay(schedules, c.id, now.weekday);
        if lookup.Err? {
          PrefixErrorPersists(cs, ss, schedules, now, i + 1);
          return Err(lookup.error);
        }
        match lookup.value
        case None =>
          toPause := toPause + [c];
        case Some(s) =>
          if !IsTimeInRange(s, now.second) {
            toPause := toPause + [c];
          }
      }
      i := i + 1;
    }
    assert cs[..|cs|] == cs && ss[..|cs|] == ss;
    r := Ok(toPause);
  }

  /** The list over one more row, from the list over the rows before it. */
  lemma ShouldBePausedSnoc(cs: seq<Campaign>, ss: seq<CampaignState>, schedules: seq<Schedule>,
                           now: Moment, i: nat)
    requires |cs| == |ss| && i < |cs|
    requires ShouldBePaused(cs[..i], ss[..i], schedules, now).Ok?
    ensures var l := ShouldBePaused(cs[..i], ss[..i], schedules, now).value;
            ShouldBePaused(cs[..i + 1], ss[..i + 1], schedules, now) ==
              if ss[i].status != Active then Ok(l)
              else match IsCampaignScheduledNow(schedules, cs[i].id, now)
                case Err(e) => Err(e)
                case Ok(scheduled) => if scheduled then Ok(l) else Ok(l + [cs[i]])
  {
    assert cs[..i + 1][..i] == cs[..i] && ss[..i + 1][..i] == ss[..i];
  }

  /** A lookup failure in a prefix of the table fails the whole list. */
  lemma {:induction false} PrefixErrorPersists(cs: seq<Campaign>, ss: seq<CampaignState>,
                                               schedules: seq<Schedule>, now: Moment, i: nat)
    requires |cs| == |ss| && i <= |cs|
    requires ShouldBePaused(cs[..i], ss[..i], schedules, now).Err?
    ensures ShouldBePaused(cs, ss, schedules, now) == Err(MultipleSchedules)
  {
    var k :| 0 <= k < i && ss[..i][k].status == Active &&
             MultipleActive(schedules, cs[..i][k].id, now.weekday);
    assert ss[k] == ss[..i][k] && cs[k] == cs[..i][k];
  }

  /** Phase 1 of the sweep on the listed campaigns, all ACTIVE: each is
      paused for being outside its schedule, unless its write fails. */
  method PauseOutsideSchedule(list: seq<Campaign>, failing: set<Campaign>, now: Moment)
    returns (paused: nat, errors: nat)
    requires UniqueIds(list)
    requires forall j :: 0 <= j < |list| ==> list[j].status == Active
    modifies set c | c in list
    ensures forall j :: 0 <= j < |list| ==>
              list[j].State() == (if list[j] in failing then old(list[j].State())
                                  else PausedState(old(list[j].State()), OutsideSchedule, now))
    ensures errors == CountFailing(list, failing) && paused == |list| - errors
  {
    ghost var olds := States(list);
    paused, errors := 0, 0;
    var i := 0;
    while i < |list|
      invariant 0 <= i <= |list|
      invariant forall j :: 0 <= j < i ==>
                  list[j].State() == (if list[j] in failing then olds[j]
                                      else PausedState(olds[j], OutsideSchedule, now))
      invariant forall j :: i <= j < |list| ==> list[j].State() == olds[j]
      invariant errors == CountFailing(list[..i], failing) && paused == i - errors
    {
      var c := list[i];
      assert list[..i + 1][..i] == list[..i];
      if c.status == Active {
        if c in failing {
          errors := errors + 1;
        } else {
          c.Pause(OutsideSchedule, now);
          paused := paused + 1;
        }
      }
      i := i + 1;
    }
    assert list[..|list|] == list;
  }

  /** The rows after phase 1, given the phase-1 list l. */
  function PausePhase(cs: seq<Campaign>, ss: seq<CampaignState>, l: seq<Campaign>,
                      failing: set<Campaign>, now: Moment): (r: seq<CampaignState>)
    requires |cs| == |ss|
    ensures |r| == |ss|
    ensures forall k :: 0 <= k < |ss| ==>
              r[k] == (if cs[k] in l && cs[k] !in failing then PausedState(ss[k], OutsideSchedule, now)
                       else ss[k])
  {
    seq(|ss|, k requires 0 <= k < |ss| =>
      if cs[k] in l && cs[k] !in failing then PausedState(ss[k], OutsideSchedule, now) else ss[k])
  }

  /** Paused by the dayparting rules, hence eligible for re-admission by them. */
  predicate PausedBySchedule(s: CampaignState) {
    s.status == Paused && (s.pauseReason == Some(OutsideSchedule) || s.pauseReason == Some(NoSchedule))
  }

  datatype ActivationRun = ActivationRun(states: seq<CampaignState>, activated: nat, errors: nat)

  /** One step of phase 2, for one listed id: the listed campaign, if there
      is one, is re-admitted when it is paused by the dayparting rules and
      passes the guard. A guard error or a failing write is an error. */
  function ActivationStep(cs: seq<Campaign>, r: ActivationRun, id: CampaignId,
                          schedules: seq<Schedule>, failing: set<Campaign>, now: Moment): (r': ActivationRun)
    requires |r.states| == |cs|
    ensures |r'.states| == |cs|
    ensures r'.activated + r'.errors <= r.activated + r.errors + 1
    ensures r'.activated >= r.activated && r'.errors >= r.errors
  {
    match IndexOf(cs, id)
    case None => r
    case Some(k) =>
      var s := r.states[k];
      if !PausedBySchedule(s) then r
      else match CanBeActivated(s, cs[k].brand, cs[k].id, schedules, now)
        case Err(_) => r.(errors := r.errors + 1)
        case Ok(allowed) =>
          if !allowed then r
          else if cs[k] in failing then r.(errors := r.errors + 1)
          else ActivationRun(r.states[k := ActivatedState(s)], r.activated + 1, r.errors)
  }

  /** Phase 2 of the sweep over the ids listed by the schedules, in order.
      An id may be listed more than once. */
  function ActivationPass(cs: seq<Campaign>, ss: seq<CampaignState>, ids: seq<CampaignId>,
                          schedules: seq<Schedule>, failing: set<Campaign>, now: Moment): (r: ActivationRun)
    requires |cs| == |ss|
    ensures |r.states| == |ss|
    ensures r.activated + r.errors <= |ids|
  {
    if ids == [] then ActivationRun(ss, 0, 0)
    else
      ActivationStep(cs, ActivationPass(cs, ss, ids[..|ids| - 1], schedules, failing, now),
                     ids[|ids| - 1], schedules, failing, now)
  }

  /** One step of phase 2 on the campaign objects, whose rows are run.states. */
  method ActivateOne(cs: seq<Campaign>, id: CampaignId, schedules: seq<Schedule>,
                     failing: set<Campaign>, now: Moment, ghost run: ActivationRun,
                     activated0: nat, errors0: nat) returns (activated: nat, errors: nat)
    requires UniqueIds(cs) && |run.states| == |cs|
    requires forall k :: 0 <= k < |cs| ==> cs[k].State() == run.states[k]
    requires activated0 == run.activated && errors0 == run.errors
    modifies set c | c in cs
    ensures var next := ActivationStep(cs, run, id, schedules, failing, now);
            && (forall k :: 0 <= k < |cs| ==> cs[k].State() == next.states[k])
            && activated == next.activated && errors == next.errors
  {
    activated, errors := activated0, errors0;
    var found := IndexOf(cs, id);
    if found.Some? {
      var c := cs[found.value];
      if c.status == Paused &&
         (c.pauseReason == Some(OutsideSchedule) || c.pauseReason == Some(NoSchedule)) {
        var allowed := CanBeActivated(c.State(), c.brand, c.id, schedules, now);
        if allowed.Err? {
          errors := errors + 1;
        } else if allowed.value {
          if c in failing {
            errors := errors + 1;
          } else {
            var done := c.Activate(schedules, now);
            activated := activated + 1;
          }
        }
      }
    }
  }

  /** Phase 2 on the campaign objects, whose rows are start. */
  method ActivateScheduled(cs: seq<Campaign>, ids: seq<CampaignId>, schedules: seq<Schedule>,
                           failing: set<Campaign>, now: Moment, ghost start: seq<CampaignState>)
    returns (activated: nat, errors: nat)
    requires UniqueIds(cs) && |start| == |cs|
    requires forall k :: 0 <= k < |cs| ==> cs[k].State() == start[k]
    modifies set c | c in cs
    ensures var run := ActivationPass(cs, start, ids, schedules, failing, now);
            && (forall k :: 0 <= k < |cs| ==> cs[k].State() == run.states[k])
            && activated == run.activated && errors == run.errors
  {
    activated, errors := 0, 0;
    var j := 0;
    while j < |ids|
      invariant 0 <= j <= |ids|
      invariant var run := ActivationPass(cs, start, ids[..j], schedules, failing, now);
                && (forall k :: 0 <= k < |cs| ==> cs[k].State() == run.states[k])
                && activated == run.activated && errors == run.errors
    {
      assert ids[..j + 1][..j] == ids[..j];
      ghost var run := ActivationPass(cs, start, ids[..j], schedules, failing, now);
      activated, errors := ActivateOne(cs, ids[j], schedules, failing, now, run, activated, errors);
      j := j + 1;
    }
    assert ids[..|ids|] == ids;
  }

  datatype DaypartTally = DaypartTally(activated: nat, paused: nat, errors: nat)

  datatype Daypart = Daypart(states: seq<CampaignState>, tally: DaypartTally)

  /** The whole sweep on rows ss. When the phase-1 list cannot be built, the
      sweep stops with one error and no change. */
  function DaypartSpec(cs: seq<Campaign>, ss: seq<CampaignState>, schedules: seq<Schedule>,
                       failing: set<Campaign>, now: Moment): (r: Daypart)
    requires |cs| == |ss|
    ensures |r.states| == |ss|
  {
    match ShouldBePaused(cs, ss, schedules, now)
    case Err(_) => Daypart(ss, DaypartTally(0, 0, 1))
    case Ok(l) =>
      var failed := CountFailing(l, failing);
      var mids := PausePhase(cs, ss, l, failing, now);
      var run := ActivationPass(cs, mids, GetCampaignsThatShouldBeActive(schedules, now),
                                schedules, failing, now);
      Daypart(run.states, DaypartTally(run.activated, |l| - failed, failed + run.errors))
  }

  /** Phase 1 on the campaign table, whose rows are ss: the campaigns of the
      phase-1 list l are paused. */
  method RunPausePhase(cs: seq<Campaign>, l: seq<Campaign>, failing: set<Campaign>, now: Moment,
                       ghost schedules: seq<Schedule>, ghost ss: seq<CampaignState>)
    returns (paused: nat, errors: nat)
    requires UniqueIds(cs) && |ss| == |cs|
    requires forall k :: 0 <= k < |cs| ==> cs[k].State() == ss[k]
    requires ShouldBePaused(cs, ss, schedules, now) == Ok(l)
    modifies set c | c in cs
    ensures forall k :: 0 <= k < |cs| ==> cs[k].State() == PausePhase(cs, ss, l, failing, now)[k]
    ensures errors == CountFailing(l, failing) && paused == |l| - errors
  {
    assert forall j :: 0 <= j < |l| ==> l[j] in cs && l[j].status == Active by {
      ShouldBePausedSound(cs, ss, schedules, now);
    }
    ShouldBePausedUnique(cs, ss, schedules, now);
    paused, errors := PauseOutsideSchedule(l, failing, now);
    ghost var mids := PausePhase(cs, ss, l, failing, now);
    forall k | 0 <= k < |cs|
      ensures cs[k].State() == mids[k]
    {
      if cs[k] in l {
        var j :| 0 <= j < |l| && l[j] == cs[k];
      }
    }
  }

  /** The dayparting sweep over all campaigns cs. */
  method EnforceDayparting(cs: seq<Campaign>, schedules: seq<Schedule>, failing: set<Campaign>,
                           now: Moment) returns (t: DaypartTally)
    requires UniqueIds(cs)
    modifies set c | c in cs
    ensures var r := DaypartSpec(cs, old(States(cs)), schedules, failing, now);
            && (forall k :: 0 <= k < |cs| ==> cs[k].State() == r.states[k])
            && t == r.tally
  {
    ghost var olds := States(cs);
    var toPause := GetCampaignsThatShouldBePaused(cs, schedules, now);
    if toPause.Err? {
      return DaypartTally(0, 0, 1);
    }
    var l := toPause.value;
    var paused, pauseErrors := RunPausePhase(cs, l, failing, now, schedules, olds);
    ghost var mids := PausePhase(cs, olds, l, failing, now);
    var ids := GetCampaignsThatShouldBeActive(schedules, now);
    var activated, activationErrors := ActivateScheduled(cs, ids, schedules, failing, now, mids);
    t := DaypartTally(activated, paused, pauseErrors + activationErrors);
  }

  /** Phase 2 described campaign by campaign: a listed campaign paused by
      the dayparting rules is re-admitted when the guard passes on its row and
      its write succeeds; every other row is kept. */
  function Readmitted(c: Campaign, m: CampaignState, ids: seq<CampaignId>, schedules: seq<Schedule>,
                      failing: set<Campaign>, now: Moment): CampaignState
  {
    if c.id in ids && PausedBySchedule(m) && c !in failing &&
       CanBeActivated(m, c.brand, c.id, schedules, now) == Ok(true)
    then ActivatedState(m) else m
  }

  /** Phase 2 acts on each campaign independently of the order and the
      repetitions of the listed ids: a second visit finds the campaign either
      ACTIVE already or unchanged, and the guard answers as before. */
  lemma {:induction false} ActivationPassPointwise(cs: seq<Campaign>, ms: seq<CampaignState>,
                                                   ids: seq<CampaignId>, schedules: seq<Schedule>,
                                                   failing: set<Campaign>, now: Moment)
    requires |cs| == |ms| && UniqueIds(cs)
    ensures forall k :: 0 <= k < |cs| ==>
              ActivationPass(cs, ms, ids, schedules, failing, now).states[k] ==
                Readmitted(cs[k], ms[k], ids, schedules, failing, now)
  {
    if ids != [] {
      var init, id := ids[..|ids| - 1], ids[|ids| - 1];
      assert ids == init + [id];
      ActivationPassPointwise(cs, ms, init, schedules, failing, now);
      var run := ActivationPass(cs, ms, init, schedules, failing, now);
      var next := ActivationStep(cs, run, id, schedules, failing, now);
      forall k | 0 <= k < |cs|
        ensures next.states[k] == Readmitted(cs[k], ms[k], ids, schedules, failing, now)
      {
        if cs[k].id != id {
          assert IndexOf(cs, id) != Some(k);
        }
      }
    }
  }

  /** The whole sweep described campaign by campaign, given the phase-2 ids:
      an ACTIVE campaign outside its schedule is paused for OUTSIDE_SCHEDULE
      unless its write fails; otherwise phase 2 decides. */
  function DaypartRow(c: Campaign, s: CampaignState, ids: seq<CampaignId>, schedules: seq<Schedule>,
                      failing: set<Campaign>, now: Moment): CampaignState
  {
    if ToPause(c, s, schedules, now) && c !in failing then PausedState(s, OutsideSchedule, now)
    else Readmitted(c, s, ids, schedules, failing, now)
  }

  /** When the phase-1 list can be built, every row ends as DaypartRow says:
      in particular a campaign paused by phase 1 is not re-admitted by phase
      2 of the same sweep. */
  lemma DaypartPointwise(cs: seq<Campaign>, ss: seq<CampaignState>, schedules: seq<Schedule>,
                         failing: set<Campaign>, now: Moment)
    requires |cs| == |ss| && UniqueIds(cs)
    requires ShouldBePaused(cs, ss, schedules, now).Ok?
    ensures var ids := GetCampaignsThatShouldBeActive(schedules, now);
            forall k :: 0 <= k < |cs| ==>
              DaypartSpec(cs, ss, schedules, failing, now).states[k] ==
                DaypartRow(cs[k], ss[k], ids, schedules, failing, now)
  {
    var l := ShouldBePaused(cs, ss, schedules, now).value;
    var ids := GetCampaignsThatShouldBeActive(schedules, now);
    ShouldBePausedComplete(cs, ss, schedules, now);
    ShouldBePausedSound(cs, ss, schedules, now);
    var mids := PausePhase(cs, ss, l, failing, now);
    ActivationPassPointwise(cs, mids, ids, schedules, failing, now);
    forall k | 0 <= k < |cs|
      ensures DaypartSpec(cs, ss, schedules, failing, now).states[k] ==
                DaypartRow(cs[k], ss[k], ids, schedules, failing, now)
    {
      if cs[k] in l {
        var j :| 0 <= j < |l| && l[j] == cs[k];
        assert ListedFor(l[j], cs, ss, schedules, now);
        var k' :| 0 <= k' < |cs| && cs[k'] == l[j] && ToPause(cs[k'], ss[k'], schedules, now);
        assert k' == k;
      }
    }
  }

  /** The sweep's own effects are exactly three: a pause for OUTSIDE_SCHEDULE,
      a re-admission, or nothing. It never writes NO_SCHEDULE or any other
      reason, and it never changes a counter. */
  lemma DaypartNeverNoSchedule(cs: seq<Campaign>, ss: seq<CampaignState>, schedules: seq<Schedule>,
                               failing: set<Campaign>, now: Moment)
    requires |cs| == |ss| && UniqueIds(cs)
    ensures var r := DaypartSpec(cs, ss, schedules, failing, now).states;
            forall k :: 0 <= k < |cs| ==>
              && (r[k] == ss[k] || r[k] == PausedState(ss[k], OutsideSchedule, now) ||
                  r[k] == ActivatedState(ss[k]))
              && (r[k].pauseReason == Some(NoSchedule) ==> r[k] == ss[k])
              && r[k].dailySpend == ss[k].dailySpend && r[k].monthlySpend == ss[k].monthlySpend
  {
    if ShouldBePaused(cs, ss, schedules, now).Ok? {
      DaypartPointwise(cs, ss, schedules, failing, now);
    }
  }

  /** Campaigns paused for any reason other than the dayparting ones
      (MANUAL, either budget) are left exactly as they were. */
  lemma DaypartSparesOtherPauses(cs: seq<Campaign>, ss: seq<CampaignState>, schedules: seq<Schedule>,
                                 failing: set<Campaign>, now: Moment)
    requires |cs| == |ss| && UniqueIds(cs)
    ensures var r := DaypartSpec(cs, ss, schedules, failing, now).states;
            forall k :: 0 <= k < |cs| && ss[k].status == Paused && !PausedBySchedule(ss[k]) ==>
              r[k] == ss[k]
  {
    if ShouldBePaused(cs, ss, schedules, now).Ok? {
      DaypartPointwise(cs, ss, schedules, failing, now);
    }
  }

  /** A PAUSED campaign comes back only when it was paused by the dayparting
      rules, a schedule for now lists it, the guard passes and its write
      succeeds; it then comes back with no reason and no time. */
  lemma DaypartActivatesOnlyWithGuard(cs: seq<Campaign>, ss: seq<CampaignState>, schedules: seq<Schedule>,
                                      failing: set<Campaign>, now: Moment)
    requires |cs| == |ss| && UniqueIds(cs)
    ensures var r := DaypartSpec(cs, ss, schedules, failing, now).states;
            var ids := GetCampaignsThatShouldBeActive(schedules, now);
            forall k :: 0 <= k < |cs| && ss[k].status == Paused ==>
              (r[k].status == Active <==>
                 && ShouldBePaused(cs, ss, schedules, now).Ok?
                 && PausedBySchedule(ss[k]) && cs[k].id in ids && cs[k] !in failing
                 && CanBeActivated(ss[k], cs[k].brand, cs[k].id, schedules, now) == Ok(true))
              && (r[k].status == Active ==> r[k] == ActivatedState(ss[k]))
  {
    if ShouldBePaused(cs, ss, schedules, now).Ok? {
      DaypartPointwise(cs, ss, schedules, failing, now);
    }
  }

  /** An ACTIVE campaign ends PAUSED exactly when its schedule does not cover
      now, the phase-1 list could be built and its write succeeds; the pause
      is then for OUTSIDE_SCHEDULE at now. */
  lemma DaypartPausesExactly(cs: seq<Campaign>, ss: seq<CampaignState>, schedules: seq<Schedule>,
                             failing: set<Campaign>, now: Moment)
    requires |cs| == |ss| && UniqueIds(cs)
    ensures var r := DaypartSpec(cs, ss, schedules, failing, now).states;
            forall k :: 0 <= k < |cs| && ss[k].status == Active ==>
              (r[k].status == Paused <==>
                 ShouldBePaused(cs, ss, schedules, now).Ok? &&
                 ToPause(cs[k], ss[k], schedules, now) && cs[k] !in failing)
              && (r[k].status == Paused ==> r[k] == PausedState(ss[k], OutsideSchedule, now))
  {
    if ShouldBePaused(cs, ss, schedules, now).Ok? {
      DaypartPointwise(cs, ss, schedules, failing, now);
    }
  }

  /** When no write fails, a second sweep at the same moment changes
      nothing: the first one leaves every campaign where the rules want it. */
  lemma DaypartIdempotent(cs: seq<Campaign>, ss: seq<CampaignState>, schedules: seq<Schedule>,
                          now: Moment)
    requires |cs| == |ss| && UniqueIds(cs)
    ensures var once := DaypartSpec(cs, ss, schedules, {}, now).states;
            DaypartSpec(cs, once, schedules, {}, now).states == once
  {
    if ShouldBePaused(cs, ss, schedules, now).Ok? {
      DaypartPointwise(cs, ss, schedules, {}, now);
      var once := DaypartSpec(cs, ss, schedules, {}, now).states;
      forall k | 0 <= k < |cs| && once[k].status == Active
        ensures !MultipleActive(schedules, cs[k].id, now.weekday)
      {
        if ss[k].status == Paused {
          assert CanBeActivated(ss[k], cs[k].brand, cs[k].id, schedules, now) == Ok(true);
        }
      }
      DaypartPointwise(cs, once, schedules, {}, now);
      var twice := DaypartSpec(cs, once, schedules, {}, now).states;
      forall k | 0 <= k < |cs|
        ensures twice[k] == once[k]
      {
      }
    }
  }

  /** The counts: a failed list is one error and nothing else; otherwise no
      more pauses than ACTIVE campaigns and no more re-admissions than
      matching windows. */
  lemma DaypartTallyBounds(cs: seq<Campaign>, ss: seq<CampaignState>, schedules: seq<Schedule>,
                           failing: set<Campaign>, now: Moment)
    requires |cs| == |ss|
    ensures var t := DaypartSpec(cs, ss, schedules, failing, now).tally;
            && (ShouldBePaused(cs, ss, schedules, now).Err? ==> t == DaypartTally(0, 0, 1))
            && t.paused <= CountActive(ss)
            && t.activated <= |GetCampaignsThatShouldBeActive(schedules, now)|
            && t.paused + t.activated + t.errors <=
                 CountActive(ss) + |GetCampaignsThatShouldBeActive(schedules, now)| + 1
  {
    if ShouldBePaused(cs, ss, schedules, now).Ok? {
      ShouldBePausedCount(cs, ss, schedules, now);
      var l := ShouldBePaused(cs, ss, schedules, now).value;
      assert CountFailing(l, failing) <= |l|;
    }
  }

  /** The all-day window of campaign c on weekday d, 00:00:00 to 23:59:59. */
  function DefaultSlot(c: CampaignId, d: Day): Schedule {
    Schedule(c, d, 0, SecondsPerDay - 1, true)
  }

  /** The default windows of c for the first n weekdays, Monday first. */
  function DefaultWeek(c: CampaignId, n: nat): seq<Schedule>
    requires n <= 7
  {
    if n == 0 then [] else DefaultWeek(c, n - 1) + [DefaultSlot(c, n - 1)]
  }

  /** The n-th default window is the one of weekday n. */
  lemma {:induction false} DefaultWeekShape(c: CampaignId, n: nat)
    requires n <= 7
    ensures |DefaultWeek(c, n)| == n
    ensures forall d :: 0 <= d < n ==> DefaultWeek(c, n)[d] == DefaultSlot(c, d)
  {
    if n > 0 {
      DefaultWeekShape(c, n - 1);
    }
  }

  /** A stored row occupying the slot of one of c's default windows. */
  predicate IsDefaultSlotOf(t: Schedule, c: CampaignId) {
    t.campaign == c && t.start == 0 && t.end == SecondsPerDay - 1
  }

  /** Inserts the seven default windows of c, Monday to Sunday, one save
      each; the first refused save ends the loop with its error and keeps the
      rows saved before it. On success the Monday row is returned. */
  method CreateDefaultSchedule(store: ScheduleStore, c: CampaignId) returns (r: Result<Schedule>)
    requires store.Valid()
    modifies store
    ensures store.Valid()
    ensures r.Ok? <==> forall t :: t in old(store.rows) ==> !IsDefaultSlotOf(t, c)
    ensures r.Ok? ==> store.rows == old(store.rows) + DefaultWeek(c, 7) && r.value == DefaultSlot(c, Monday)
    ensures r.Err? ==> r.error == DuplicateSchedule
    ensures r.Err? ==> exists d :: 0 <= d < 7 && store.rows == old(store.rows) + DefaultWeek(c, d) &&
                                   exists t :: t in old(store.rows) && SameSlot(t, DefaultSlot(c, d))
  {
    ghost var rows0 := store.rows;
    var day := 0;
    while day < 7
      invariant 0 <= day <= 7
      invariant store.Valid()
      invariant store.rows == rows0 + DefaultWeek(c, day)
      invariant forall t :: t in rows0 && IsDefaultSlotOf(t, c) ==> t.day >= day
    {
      DefaultWeekShape(c, day);
      var slot := DefaultSlot(c, day);
      assert forall t :: t in DefaultWeek(c, day) ==> t.day < day;
      ghost var before := store.rows;
      assert forall t :: t in rows0 ==> t in before;
      var saved := store.Save(slot);
      if saved.Fail? {
        ghost var t :| t in rows0 + DefaultWeek(c, day) && SameSlot(t, slot);
        assert t in rows0 && IsDefaultSlotOf(t, c);
        assert store.rows == rows0 + DefaultWeek(c, day) && t in rows0 && SameSlot(t, DefaultSlot(c, day));
        return Err(saved.error);
      }
      assert forall t :: t in rows0 && IsDefaultSlotOf(t, c) ==> !SameSlot(t, slot);
      assert DefaultWeek(c, day + 1) == DefaultWeek(c, day) + [slot];
      day := day + 1;
    }
    r := Ok(DefaultSlot(c, Monday));
  }

  /** Once c has the default week and no other active window, it is
      scheduled at every whole second: exactly one window covers each day,
      from its first second to its last. */
  lemma DefaultWeekCoversEveryMoment(rows: seq<Schedule>, c: CampaignId, now: Moment)
    requires forall t :: t in rows ==> !(t.campaign == c && t.isActive)
    ensures IsCampaignScheduledNow(rows + DefaultWeek(c, 7), c, now) == Ok(true)
  {
    var all := rows + DefaultWeek(c, 7);
    var d := now.weekday;
    DefaultWeekShape(c, 7);
    forall i | 0 <= i < |all| && ActiveOn(all[i], c, d)
      ensures i == |rows| + d
    {
      if i >= |rows| {
        assert all[i] == DefaultSlot(c, i - |rows|);
      }
    }
    var slot := all[|rows| + d];
    assert slot == DefaultSlot(c, d) && slot in all;
    assert ActiveOn(slot, c, d) && IsTimeInRange(slot, now.second);
  }

  /** The number of active windows of campaign c, as the schedule summary
      reports it. */
  function TotalSchedules(rows: seq<Schedule>, c: CampaignId): (r: nat)
    ensures r == |ActiveFor(rows, c)|
    ensures r == 0 <==> forall t :: t in rows ==> !(t.campaign == c && t.isActive)
  {
    var active := GetActiveSchedulesForCampaign(rows, c);
    assert |active| == |multiset(active)| == |multiset(ActiveFor(rows, c))| == |ActiveFor(rows, c)|;
    assert active != [] ==> active[0] in active;
    |active|
  }

  /** Adding a schedule row counts it exactly when it is an active window of c. */
  lemma TotalSchedulesSnoc(rows: seq<Schedule>, c: CampaignId, s: Schedule)
    ensures TotalSchedules(rows + [s], c) == TotalSchedules(rows, c) + Tick(s.campaign == c && s.isActive)
  {
    assert (rows + [s])[..|rows|] == rows;
  }
}
