/** Dayparting windows and the matcher that decides whether a campaign may
    run at a given moment. */
module ScheduleModels {
  import opened Common

  /** One stored window: the campaign it belongs to, a weekday and the
      inclusive range [start, end] of seconds of that day. */
  datatype Schedule = Schedule(campaign: CampaignId, day: Day, start: SecondOfDay,
                               end: SecondOfDay, isActive: bool)

  /** Validation run before every save: the window must end after it starts;
      an equal start and end is refused too. */
  function Clean(s: Schedule): (r: Outcome)
    ensures r == Pass <==> s.start < s.end
    ensures r.Fail? ==> r.error == InvalidSchedule
  {
    if s.start >= s.end then Fail(InvalidSchedule) else Pass
  }

  predicate IsTimeInRange(s: Schedule, t: SecondOfDay) {
    s.start <= t <= s.end
  }

  /** Both ends of a window belong to it; the seconds just outside do not. */
  lemma TimeRangeInclusive(s: Schedule)
    requires s.start < s.end
    ensures IsTimeInRange(s, s.start) && IsTimeInRange(s, s.end)
    ensures s.start > 0 ==> !IsTimeInRange(s, s.start - 1)
    ensures s.end < SecondsPerDay - 1 ==> !IsTimeInRange(s, s.end + 1)
  {
  }

  predicate ActiveOn(s: Schedule, c: CampaignId, d: Day) {
    s.campaign == c && s.day == d && s.isActive
  }

  /** The active rows of campaign c for weekday d, in storage order. */
  function ActiveOnDay(rows: seq<Schedule>, c: CampaignId, d: Day): (r: seq<Schedule>)
    ensures forall s :: s in r <==> s in rows && ActiveOn(s, c, d)
    ensures |r| <= |rows|
  {
    if rows == [] then []
    else
      var init, last := rows[..|rows| - 1], rows[|rows| - 1];
      assert rows == init + [last];
      var r := ActiveOnDay(init, c, d);
      if ActiveOn(last, c, d) then r + [last] else r
  }

  /** Two distinct stored rows are both active for (c, d). */
  ghost predicate MultipleActive(rows: seq<Schedule>, c: CampaignId, d: Day) {
    exists i, j :: 0 <= i < j < |rows| && ActiveOn(rows[i], c, d) && ActiveOn(rows[j], c, d)
  }

  ghost predicate AnyActive(rows: seq<Schedule>, c: CampaignId, d: Day) {
    exists i :: 0 <= i < |rows| && ActiveOn(rows[i], c, d)
  }

  lemma NonEmptyIffAnyActive(rows: seq<Schedule>, c: CampaignId, d: Day)
    ensures |ActiveOnDay(rows, c, d)| >= 1 <==> AnyActive(rows, c, d)
  {
    var m := ActiveOnDay(rows, c, d);
    if |m| >= 1 {
      assert m[0] in m;
      var i :| 0 <= i < |rows| && rows[i] == m[0];
    }
    if AnyActive(rows, c, d) {
      var i :| 0 <= i < |rows| && ActiveOn(rows[i], c, d);
      assert rows[i] in m;
    }
  }

  /** A pair of active rows in init + [last] lies inside init or ends at last. */
  lemma MultipleActiveSnoc(init: seq<Schedule>, last: Schedule, c: CampaignId, d: Day)
    ensures MultipleActive(init + [last], c, d) <==>
              MultipleActive(init, c, d) || (ActiveOn(last, c, d) && AnyActive(init, c, d))
  {
    var rows := init + [last];
    if MultipleActive(rows, c, d) {
      var i, j :| 0 <= i < j < |rows| && ActiveOn(rows[i], c, d) && ActiveOn(rows[j], c, d);
      assert rows[i] == init[i];
      if j < |init| {
        assert rows[j] == init[j];
      } else {
        assert rows[j] == last;
      }
    }
    if MultipleActive(init, c, d) {
      var i, j :| 0 <= i < j < |init| && ActiveOn(init[i], c, d) && ActiveOn(init[j], c, d);
      assert rows[i] == init[i] && rows[j] == init[j];
    }
    if ActiveOn(last, c, d) && AnyActive(init, c, d) {
      var i :| 0 <= i < |init| && ActiveOn(init[i], c, d);
      assert rows[i] == init[i] && rows[|init|] == last;
    }
  }

  lemma {:induction false} AtLeastTwoActive(rows: seq<Schedule>, c: CampaignId, d: Day)
    ensures |ActiveOnDay(rows, c, d)| >= 2 <==> MultipleActive(rows, c, d)
  {
    if rows != [] {
      var init, last := rows[..|rows| - 1], rows[|rows| - 1];
      assert rows == init + [last];
      AtLeastTwoActive(init, c, d);
      NonEmptyIffAnyActive(init, c, d);
      MultipleActiveSnoc(init, last, c, d);
    }
  }

  /** The per-day lookup: None when no active row exists for (c, d), the row
      when exactly one does, and the lookup's own error when more than one
      does (that error is not caught). Inactive rows are ignored. */
  function GetScheduleForCampaignAndDay(rows: seq<Schedule>, c: CampaignId, d: Day)
    : (r: Result<Option<Schedule>>)
    ensures r == Ok(None) <==> forall s :: s in rows ==> !ActiveOn(s, c, d)
    ensures r.Err? <==> MultipleActive(rows, c, d)
    ensures r.Err? ==> r.error == MultipleSchedules
    ensures r.Ok? && r.value.Some? ==>
              var s := r.value.value;
              s in rows && ActiveOn(s, c, d) &&
              forall t :: t in rows && ActiveOn(t, c, d) ==> t == s
  {
    var m := ActiveOnDay(rows, c, d);
    AtLeastTwoActive(rows, c, d);
    if |m| == 0 then Ok(None)
    else if |m| == 1 then assert m[0] in m; Ok(Some(m[0]))
    else Err(MultipleSchedules)
  }

  /** Whether campaign c may run at `now`: its active window for today
      exists, is unique, and covers the current second. */
  function IsCampaignScheduledNow(rows: seq<Schedule>, c: CampaignId, now: Moment): (r: Result<bool>)
    ensures r == Ok(true) <==>
              !MultipleActive(rows, c, now.weekday) &&
              exists s :: s in rows && ActiveOn(s, c, now.weekday) && IsTimeInRange(s, now.second)
    ensures r.Err? <==> MultipleActive(rows, c, now.weekday)
    ensures r.Err? ==> r.error == MultipleSchedules
    ensures (forall s :: s in rows ==> !ActiveOn(s, c, now.weekday)) ==> r == Ok(false)
  {
    match GetScheduleForCampaignAndDay(rows, c, now.weekday)
    case Err(e) => Err(e)
    case Ok(None) => Ok(false)
    case Ok(Some(s)) => Ok(IsTimeInRange(s, now.second))
  }

  /** The active rows of campaign c on any day, in storage order. */
  function ActiveFor(rows: seq<Schedule>, c: CampaignId): (r: seq<Schedule>)
    ensures forall s :: s in r <==> s in rows && s.campaign == c && s.isActive
    ensures |r| <= |rows|
    ensures forall x :: multiset(r)[x] == (if x.campaign == c && x.isActive then multiset(rows)[x] else 0)
  {
    if rows == [] then []
    else
      var init, last := rows[..|rows| - 1], rows[|rows| - 1];
      assert rows == init + [last];
      var r := ActiveFor(init, c);
      if last.campaign == c && last.isActive then r + [last] else r
  }

  predicate KeyLe(a: Schedule, b: Schedule) {
    a.day < b.day || (a.day == b.day && a.start <= b.start)
  }

  predicate SortedByDayAndStart(s: seq<Schedule>) {
    forall i, j :: 0 <= i < j < |s| ==> KeyLe(s[i], s[j])
  }

  /** A row no later than every row of a sorted list extends it at the front. */
  lemma ConsSorted(a: Schedule, t: seq<Schedule>)
    requires SortedByDayAndStart(t)
    requires forall y :: y in t ==> KeyLe(a, y)
    ensures SortedByDayAndStart([a] + t)
  {
    forall i, j | 0 <= i < j < |[a] + t|
      ensures KeyLe(([a] + t)[i], ([a] + t)[j])
    {
      if i > 0 {
        assert ([a] + t)[i] == t[i - 1] && ([a] + t)[j] == t[j - 1];
      } else {
        assert ([a] + t)[j] == t[j - 1];
      }
    }
  }

  function InsertByKey(x: Schedule, s: seq<Schedule>): (r: seq<Schedule>)
    requires SortedByDayAndStart(s)
    ensures SortedByDayAndStart(r)
    ensures multiset(r) == multiset(s) + multiset{x}
    ensures forall y :: y in r ==> y == x || y in s
  {
    if s == [] then [x]
    else if KeyLe(x, s[0]) then
      assert forall y :: y in s ==> KeyLe(x, y);
      ConsSorted(x, s);
      [x] + s
    else
      assert s == [s[0]] + s[1..];
      var tail := InsertByKey(x, s[1..]);
      assert forall y :: y in tail ==> KeyLe(s[0], y);
      ConsSorted(s[0], tail);
      [s[0]] + tail
  }

  function SortByKey(s: seq<Schedule>): (r: seq<Schedule>)
    ensures SortedByDayAndStart(r)
    ensures multiset(r) == multiset(s)
  {
    if s == [] then []
    else
      assert s == [s[0]] + s[1..];
      InsertByKey(s[0], SortByKey(s[1..]))
  }

  /** All active schedules of campaign c, ordered by (day, start time). */
  function GetActiveSchedulesForCampaign(rows: seq<Schedule>, c: CampaignId): (r: seq<Schedule>)
    ensures SortedByDayAndStart(r)
    ensures multiset(r) == multiset(ActiveFor(rows, c))
    ensures forall s :: s in r <==> s in rows && s.campaign == c && s.isActive
  {
    var sorted := SortByKey(ActiveFor(rows, c));
    assert forall s :: s in sorted <==> s in multiset(sorted);
    sorted
  }

  /** Two rows occupy the same stored slot (the uniqueness key of the table). */
  predicate SameSlot(a: Schedule, b: Schedule) {
    a.campaign == b.campaign && a.day == b.day && a.start == b.start && a.end == b.end
  }

  /** Stored rows: every window non-empty and no slot stored twice. */
  ghost predicate WellFormed(rows: seq<Schedule>) {
    && (forall t :: t in rows ==> t.start < t.end)
    && (forall i, j :: 0 <= i < j < |rows| ==> !SameSlot(rows[i], rows[j]))
  }

  /** Inserting a new schedule: validation first, then the uniqueness key. */
  function SaveRows(rows: seq<Schedule>, s: Schedule): (r: Result<seq<Schedule>>)
    ensures r.Ok? <==> s.start < s.end && forall t :: t in rows ==> !SameSlot(t, s)
    ensures r.Ok? ==> r.value == rows + [s]
    ensures s.start >= s.end ==> r == Err(InvalidSchedule)
    ensures s.start < s.end && r.Err? ==> r == Err(DuplicateSchedule)
    ensures WellFormed(rows) && r.Ok? ==> WellFormed(r.value)
  {
    if Clean(s).Fail? then Err(InvalidSchedule)
    else if exists t | t in rows :: SameSlot(t, s) then Err(DuplicateSchedule)
    else Ok(rows + [s])
  }

  /** The table of schedules, into which saves insert new rows. */
  class ScheduleStore {
    var rows: seq<Schedule>

    ghost predicate Valid()
      reads this
    {
      WellFormed(rows)
    }

    constructor ()
      ensures Valid() && rows == []
    {
      rows := [];
    }

    /** Runs the validation, then inserts; a refused row leaves the table as it was. */
    method Save(s: Schedule) returns (r: Outcome)
      requires Valid()
      modifies this
      ensures Valid()
      ensures r == Pass <==> s.start < s.end && forall t :: t in old(rows) ==> !SameSlot(t, s)
      ensures r == Pass ==> rows == old(rows) + [s]
      ensures r.Fail? ==> rows == old(rows) && r == Fail(SaveRows(old(rows), s).error)
    {
      var saved := SaveRows(rows, s);
      if saved.Ok? {
        rows := saved.value;
        r := Pass;
      } else {
        r := Fail(saved.error);
      }
    }
  }
}
