/** When a scheduled show is due, and when it next will be.

  Instants are microseconds of local time since a Monday at midnight; a date is a day number. */
module Schedule {
  import opened Basics

  const MINUTE := 60_000_000
  const DAY := 1440 * MINUTE
  const CATCH_UP := 20 * MINUTE

  function DayOf(t: int): int { t / DAY }

  function Weekday(day: int): int { day % 7 }

  datatype Recurrence = Once | Daily | Weekly

  datatype RowState = Waiting | Playing | Done

  /** A minute of the day, 'HH:MM'. */
  type TimeOfDay = m: int | 0 <= m < 1440

  /** A schedule row. `serial` tells rows apart even when the table reuses an id; `startAt` is a whole minute; `days` are the weekdays whose bit is set. */
  datatype Row = Row(id: int, serial: nat, state: RowState, recurrence: Recurrence, startAt: Option<int>,
                     timeOfDay: Option<TimeOfDay>, days: set<int>,
                     startDate: Option<int>, endDate: Option<int>, lastFired: Option<int>)

  function Slot(day: int, tod: TimeOfDay): int { day * DAY + tod * MINUTE }

  predicate AirsOn(r: Row, day: int) { r.recurrence != Weekly || Weekday(day) in r.days }

  /** A recurring row is due from its time of day until the catch-up ends, on a day it airs inside its run
      window, unless it is marked for that day. */
  predicate RecurringDue(r: Row, now: int) {
    var today := DayOf(now);
    && r.timeOfDay.Some?
    && r.lastFired != Some(today)
    && (r.startDate.Some? ==> r.startDate.value <= today)
    && (r.endDate.Some? ==> today <= r.endDate.value)
    && AirsOn(r, today)
    && 0 <= now - Slot(today, r.timeOfDay.value) <= CATCH_UP
  }

  function FirstDay(r: Row, now: int): int {
    if r.startDate.Some? && r.startDate.value > DayOf(now) then r.startDate.value else DayOf(now)
  }

  predicate Eligible(r: Row, now: int, day: int)
    requires r.timeOfDay.Some?
  {
    && AirsOn(r, day)
    && r.lastFired != Some(day)
    && now - Slot(day, r.timeOfDay.value) <= CATCH_UP
  }

  /** The stop date, or `day` itself when there is none. */
  function LastDay(r: Row, day: int): int { if r.endDate.Some? then r.endDate.value else day }

  function Search(r: Row, now: int, day: int, left: nat): Option<int>
    requires r.timeOfDay.Some?
    decreases left
  {
    if left == 0 || (r.endDate.Some? && day > r.endDate.value) then None
    else if Eligible(r, now, day) then Some(Slot(day, r.timeOfDay.value))
    else Search(r, now, day + 1, left - 1)
  }

  /** When the row will next air: the eight-day search. */
  function NextOccurrence(r: Row, now: int): Option<int> {
    if r.recurrence == Once then r.startAt
    else if r.timeOfDay.None? then None
    else Search(r, now, FirstDay(r, now), 8)
  }

  lemma {:induction false} SearchFinds(r: Row, now: int, day: int, left: nat)
    requires r.timeOfDay.Some?
    ensures
      match Search(r, now, day, left)
      case Some(v) =>
        exists d :: day <= d < day + left && Eligible(r, now, d) && v == Slot(d, r.timeOfDay.value) &&
                    d <= LastDay(r, d) &&
                    forall e :: day <= e < d ==> !Eligible(r, now, e)
      case None =>
        forall d :: day <= d < day + left && d <= LastDay(r, d) ==> !Eligible(r, now, d)
    decreases left
  {
    if left > 0 && !(r.endDate.Some? && day > r.endDate.value) && !Eligible(r, now, day) {
      SearchFinds(r, now, day + 1, left - 1);
    }
  }

  /** A due instant from now on falls on an eligible day. */
  lemma DueIsEligible(r: Row, now: int, t: int)
    requires r.timeOfDay.Some? && now <= t && RecurringDue(r, t)
    ensures Eligible(r, now, DayOf(t)) && FirstDay(r, now) <= DayOf(t)
  {
  }

  lemma SlotDay(day: int, tod: TimeOfDay)
    ensures DayOf(Slot(day, tod)) == day
  {
  }

  /** The first eligible day, inside the run window, is when the row first becomes due. */
  lemma FirstEligibleDue(r: Row, now: int, d: int)
    requires r.timeOfDay.Some? && FirstDay(r, now) <= d && Eligible(r, now, d)
    requires d <= LastDay(r, d)
    requires forall e :: FirstDay(r, now) <= e < d ==> !Eligible(r, now, e)
    ensures
      var v := Slot(d, r.timeOfDay.value);
      var t := if v > now then v else now;
      RecurringDue(r, t) && forall u :: now <= u < t ==> !RecurringDue(r, u)
  {
    var v := Slot(d, r.timeOfDay.value);
    var t := if v > now then v else now;
    SlotDay(d, r.timeOfDay.value);
    assert DayOf(t) == d by { if v <= now { assert d <= DayOf(now); } }
    forall u | now <= u < t ensures !RecurringDue(r, u) {
      assert DayOf(u) <= DayOf(t);
      if RecurringDue(r, u) { DueIsEligible(r, now, u); }
    }
  }

  /** Airs that day of the week, and now is not yet past its catch-up there. */
  predicate Open(r: Row, now: int, day: int)
    requires r.timeOfDay.Some?
  {
    AirsOn(r, day) && now - Slot(day, r.timeOfDay.value) <= CATCH_UP
  }

  /** The one open day of the eight is the day the row is already marked for, and the row runs on for
      another week. */
  predicate Missed(r: Row, now: int) {
    && r.timeOfDay.Some? && r.lastFired.Some?
    && var first, f := FirstDay(r, now), r.lastFired.value;
       && first <= f < first + 8 && Open(r, now, f)
       && (forall d :: first <= d < first + 8 && d != f ==> !Open(r, now, d))
       && (r.endDate.Some? ==> f + 7 <= r.endDate.value)
  }

  lemma WeekLater(r: Row, now: int, day: int)
    requires r.timeOfDay.Some? && Open(r, now, day)
    ensures AirsOn(r, day + 7) && now <= Slot(day + 7, r.timeOfDay.value)
    ensures DayOf(Slot(day + 7, r.timeOfDay.value)) == day + 7 && Open(r, now, day + 7)
  {
    SlotDay(day + 7, r.timeOfDay.value);
  }

  /** A missed row does become due: a week after the day it is marked for. */
  lemma MissedIsDue(r: Row, now: int)
    requires Missed(r, now)
    ensures var u := Slot(r.lastFired.value + 7, r.timeOfDay.value); now <= u && RecurringDue(r, u)
  {
    hide Open;
    WeekLater(r, now, r.lastFired.value);
  }

  lemma MissedIsNone(r: Row, now: int)
    requires r.recurrence != Once && Missed(r, now)
    ensures NextOccurrence(r, now).None?
  {
    hide AirsOn, Slot;
    var first := FirstDay(r, now);
    SearchFinds(r, now, first, 8);
    forall d | first <= d < first + 8 ensures !Eligible(r, now, d) { assert d == r.lastFired.value || !Open(r, now, d); }
  }

  /** The last day before `d` of the same weekday within the eight, when `d` lies beyond them. */
  lemma SameWeekday(r: Row, now: int, d: int) returns (e: int)
    requires r.timeOfDay.Some? && FirstDay(r, now) + 8 <= d && AirsOn(r, d)
    ensures FirstDay(r, now) < e < FirstDay(r, now) + 8 && e + 7 <= d && Open(r, now, e)
  {
    var first := FirstDay(r, now);
    var k := (d - first) % 7;
    e := if k == 0 then first + 7 else first + k;
    assert Weekday(e) == Weekday(d);
    assert e > DayOf(now) && Slot(e, r.timeOfDay.value) >= (DayOf(now) + 1) * DAY > now;
  }

  /** When nothing is found and the row still becomes due, it is missed. */
  lemma NoneThenMissed(r: Row, now: int, u: int)
    requires r.recurrence != Once && NextOccurrence(r, now).None?
    requires now <= u && RecurringDue(r, u)
    ensures Missed(r, now)
  {
    hide RecurringDue, Open, Slot;
    var first, due := FirstDay(r, now), DayOf(u);
    DueHasTime(r, u);
    DueIsEligible(r, now, u);
    SearchFinds(r, now, first, 8);
    var e := SameWeekday(r, now, due);
    OpenMeansMarked(r, now, due);
    assert r.lastFired == Some(e);
  }

  /** Nothing found up to a later due day: whatever day of the eight is open, the row is marked for it. */
  lemma OpenMeansMarked(r: Row, now: int, due: int)
    requires r.timeOfDay.Some? && FirstDay(r, now) + 8 <= due <= LastDay(r, due)
    requires Search(r, now, FirstDay(r, now), 8).None?
    ensures forall d :: FirstDay(r, now) <= d < FirstDay(r, now) + 8 && Open(r, now, d) ==> r.lastFired == Some(d)
  {
    hide AirsOn, Slot;
    var first := FirstDay(r, now);
    SearchFinds(r, now, first, 8);
    forall d | first <= d < first + 8 && Open(r, now, d) ensures r.lastFired == Some(d) {
      assert !Eligible(r, now, d);
    }
  }

  lemma DueHasTime(r: Row, u: int)
    requires RecurringDue(r, u)
    ensures r.timeOfDay.Some? && DayOf(u) <= LastDay(r, DayOf(u))
  {
  }

  /** The search agrees with the due test over all time. For any recurring row: an answer means that from
      now on the row first becomes due at exactly the later of now and that answer; no answer means that it
      never becomes due, if and only if the row is not missed. */
  lemma NextOccurrenceRefinesDue(r: Row, now: int)
    requires r.recurrence != Once
    ensures
      match NextOccurrence(r, now)
      case Some(v) =>
        var t := if v > now then v else now;
        && RecurringDue(r, t)
        && forall u :: now <= u < t ==> !RecurringDue(r, u)
      case None => (forall u :: now <= u ==> !RecurringDue(r, u)) <==> !Missed(r, now)
    ensures Missed(r, now) ==> NextOccurrence(r, now).None?
  {
    hide Eligible, RecurringDue, Missed;
    if Missed(r, now) {
      MissedIsNone(r, now);
      MissedIsDue(r, now);
    }
    match NextOccurrence(r, now)
    case Some(v) =>
      var first := FirstDay(r, now);
      SearchFinds(r, now, first, 8);
      var d :| first <= d < first + 8 && Eligible(r, now, d) && v == Slot(d, r.timeOfDay.value) &&
               d <= LastDay(r, d) &&
               forall e :: first <= e < d ==> !Eligible(r, now, e);
      FirstEligibleDue(r, now, d);
    case None =>
      forall u | now <= u && RecurringDue(r, u) ensures Missed(r, now) { NoneThenMissed(r, now, u); }
  }

  /** A row not marked for a later date is never missed: eight days of search suffice for it, whatever the
      weekdays, run window and catch-up. */
  lemma EightDaysSuffice(r: Row, now: int)
    requires r.lastFired.Some? ==> r.lastFired.value <= DayOf(now)
    ensures !Missed(r, now)
  {
    if Missed(r, now) {
      WeekLater(r, now, FirstDay(r, now));
    }
  }

  /** A row marked as fired on a future date (the wall clock was set back) can be missed: a Monday show,
      marked for the coming Monday, is due the Monday after, and the search says never. */
  lemma FiredInTheFuture()
    ensures
      var r := Row(1, 0, Waiting, Weekly, None, Some(0), {0}, None, None, Some(7));
      Missed(r, DAY) && NextOccurrence(r, DAY).None? && RecurringDue(r, 14 * DAY)
  {
    var r := Row(1, 0, Waiting, Weekly, None, Some(0), {0}, None, None, Some(7));
    forall d | 1 <= d < 9 && d != 7 ensures !Open(r, DAY, d) {}
    MissedIsNone(r, DAY);
    MissedIsDue(r, DAY);
  }

  /** The loop the schedule runs to find the next airing. */
  method FindNextOccurrence(r: Row, now: int) returns (next: Option<int>)
    ensures next == NextOccurrence(r, now)
  {
    if r.recurrence == Once { return r.startAt; }
    if r.timeOfDay.None? { return None; }
    var day := DayOf(now);
    if r.startDate.Some? && r.startDate.value > day { day := r.startDate.value; }
    for i := 0 to 8
      invariant NextOccurrence(r, now) == Search(r, now, day, 8 - i)
    {
      if r.endDate.Some? && day > r.endDate.value { return None; }
      var slot := Slot(day, r.timeOfDay.value);
      if (r.recurrence == Daily || Weekday(day) in r.days) && r.lastFired != Some(day) &&
         now - slot <= CATCH_UP {
        return Some(slot);
      }
      day := day + 1;
    }
    return None;
  }

  // ---------------------------------------------------------------- what is due now

  /** One-time rows compare by the minute, as their stored text does. */
  predicate OnceDue(r: Row, now: int) {
    r.recurrence == Once && r.startAt.Some? && r.startAt.value <= now
  }

  predicate Ripe(r: Row, now: int) {
    r.state == Waiting && if r.recurrence == Once then OnceDue(r, now) else RecurringDue(r, now)
  }

  /** A one-time row is due from its announced time on. */
  lemma OneTimeOccurs(r: Row, now: int, t: int)
    requires r.recurrence == Once
    ensures OnceDue(r, t) <==> NextOccurrence(r, now).Some? && NextOccurrence(r, now).value <= t
  {
  }

  /** The waiting show whose time has come: a recurring one first, in table order, else the one-time
      show with the earliest start, the first such; none exactly when nothing is ripe. */
  predicate IsDue(rows: seq<Row>, now: int, pick: Option<nat>) {
    match pick
    case None => forall i :: 0 <= i < |rows| ==> !Ripe(rows[i], now)
    case Some(p) =>
      && p < |rows| && Ripe(rows[p], now)
      && if rows[p].recurrence != Once then
           forall i :: 0 <= i < p && rows[i].recurrence != Once ==> !Ripe(rows[i], now)
         else
           forall i :: 0 <= i < |rows| && Ripe(rows[i], now) ==>
             && rows[i].recurrence == Once
             && rows[p].startAt.value <= rows[i].startAt.value
             && (i < p ==> rows[p].startAt.value < rows[i].startAt.value)
  }

  method Due(rows: seq<Row>, now: int) returns (pick: Option<nat>)
    ensures IsDue(rows, now, pick)
  {
    for i := 0 to |rows|
      invariant forall k :: 0 <= k < i && rows[k].recurrence != Once ==> !Ripe(rows[k], now)
    {
      if rows[i].state == Waiting && rows[i].recurrence != Once && RecurringDue(rows[i], now) { return Some(i); }
    }
    pick := None;
    for i := 0 to |rows|
      invariant pick.None? ==> forall k :: 0 <= k < i ==> !Ripe(rows[k], now)
      invariant pick.Some? ==>
                  && pick.value < i && rows[pick.value].recurrence == Once && Ripe(rows[pick.value], now)
                  && forall k :: 0 <= k < i && Ripe(rows[k], now) ==>
                       && rows[pick.value].startAt.value <= rows[k].startAt.value
                       && (k < pick.value ==> rows[pick.value].startAt.value < rows[k].startAt.value)
    {
      if rows[i].state == Waiting && rows[i].recurrence == Once && OnceDue(rows[i], now) &&
         (pick.None? || rows[i].startAt.value < rows[pick.value].startAt.value) {
        pick := Some(i);
      }
    }
  }

  /** There is only one answer. */
  lemma DueIsUnique(rows: seq<Row>, now: int, p: Option<nat>, q: Option<nat>)
    requires IsDue(rows, now, p) && IsDue(rows, now, q)
    ensures p == q
  {
  }
}
