/** When spots (station IDs, ads, announcements) fire.

  Instants are microseconds of local time since a Monday at midnight, as in `Schedule`. */
module Spots {
  import opened Basics
  import opened Schedule

  const HOUR := 60 * MINUTE
  const CLOCK_GRACE := 5 * MINUTE
  const RETRY_GRACE := 10 * MINUTE

  // ---------------------------------------------------------------- clock marks

  function HourOf(t: int): int { t - t % HOUR }

  /** A clock mark: one of the given minutes past some hour. */
  predicate IsMark(t: int, mins: seq<int>) {
    exists i :: 0 <= i < |mins| && 0 <= mins[i] <= 59 && t % HOUR == mins[i] * MINUTE
  }

  /** The mark `now` belongs to: the latest one at or before now, if no older than the grace. */
  predicate IsClockSlot(now: int, mins: seq<int>, grace: int, slot: Option<int>) {
    match slot
    case Some(v) =>
      && IsMark(v, mins) && 0 <= now - v <= grace
      && forall t :: IsMark(t, mins) && t <= now ==> t <= v
    case None => forall t :: IsMark(t, mins) && t <= now ==> now - t > grace
  }

  /** The mark at minute `m` of the hour `k` hours before now's. */
  function MarkTime(now: int, k: int, m: int): int { HourOf(now) - k * HOUR + m * MINUTE }

  lemma MarkTimeIsMark(now: int, k: int, m: int, mins: seq<int>)
    requires m in mins && 0 <= m <= 59
    ensures IsMark(MarkTime(now, k, m), mins)
  {
    var t := MarkTime(now, k, m);
    assert (t - m * MINUTE) % HOUR == 0;
    assert t % HOUR == m * MINUTE;
  }

  /** Any mark up to now is matched by one no older in this hour or the hour before. */
  lemma MarksRecur(now: int, mins: seq<int>, t: int)
    requires IsMark(t, mins) && t <= now
    ensures exists i :: 0 <= i < |mins| && 0 <= mins[i] <= 59 &&
              (t <= MarkTime(now, 0, mins[i]) <= now || t <= MarkTime(now, 1, mins[i]) <= now)
  {
    var i :| 0 <= i < |mins| && 0 <= mins[i] <= 59 && t % HOUR == mins[i] * MINUTE;
  }

  predicate Best(now: int, mins: seq<int>, grace: int, best: Option<int>) {
    best.Some? ==> IsMark(best.value, mins) && 0 <= now - best.value <= grace
  }

  /** The mark `t`, if eligible, is no better than the best so far. */
  predicate Seen(now: int, t: int, grace: int, best: Option<int>) {
    0 <= now - t <= grace ==> best.Some? && t <= best.value
  }

  predicate SeenHour(now: int, k: int, mins: seq<int>, grace: int, best: Option<int>) {
    forall i :: 0 <= i < |mins| && 0 <= mins[i] <= 59 ==> Seen(now, MarkTime(now, k, mins[i]), grace, best)
  }

  predicate NoWorse(was: Option<int>, best: Option<int>) {
    was.Some? ==> best.Some? && was.value <= best.value
  }

  lemma StillSeen(now: int, k: int, mins: seq<int>, grace: int, was: Option<int>, best: Option<int>)
    requires SeenHour(now, k, mins, grace, was) && NoWorse(was, best)
    ensures SeenHour(now, k, mins, grace, best)
  {
  }

  lemma SeenOneMore(now: int, k: int, mins: seq<int>, n: nat, grace: int, best: Option<int>)
    requires n < |mins| && SeenHour(now, k, mins[..n], grace, best)
    requires 0 <= mins[n] <= 59 ==> Seen(now, MarkTime(now, k, mins[n]), grace, best)
    ensures SeenHour(now, k, mins[..n + 1], grace, best)
  {
    assert forall i :: 0 <= i < n ==> mins[..n + 1][i] == mins[..n][i];
  }

  /** The marks of one hour. */
  method ScanHour(now: int, k: int, mins: seq<int>, grace: int, was: Option<int>) returns (best: Option<int>)
    requires Best(now, mins, grace, was)
    ensures Best(now, mins, grace, best) && NoWorse(was, best) && SeenHour(now, k, mins, grace, best)
  {
    best := was;
    for n := 0 to |mins|
      invariant Best(now, mins, grace, best) && NoWorse(was, best)
      invariant SeenHour(now, k, mins[..n], grace, best)
    {
      ghost var before := best;
      if 0 <= mins[n] <= 59 {
        var slot := MarkTime(now, k, mins[n]);
        MarkTimeIsMark(now, k, mins[n], mins);
        var age := now - slot;
        if 0 <= age <= grace && (best.None? || slot > best.value) { best := Some(slot); }
      }
      StillSeen(now, k, mins[..n], grace, before, best);
      SeenOneMore(now, k, mins, n, grace, best);
    }
    assert mins[..|mins|] == mins;
  }

  lemma TwoHoursSuffice(now: int, mins: seq<int>, grace: int, best: Option<int>)
    requires Best(now, mins, grace, best)
    requires SeenHour(now, 0, mins, grace, best) && SeenHour(now, 1, mins, grace, best)
    ensures IsClockSlot(now, mins, grace, best)
  {
    forall t | IsMark(t, mins) && t <= now ensures Seen(now, t, grace, best) {
      MarksRecur(now, mins, t);
    }
  }

  /** The latest eligible mark over all hours, though only this hour and the one before are scanned,
      whatever the minutes and however long the grace. */
  method ClockSlot(now: int, mins: seq<int>, graceMin: int) returns (best: Option<int>)
    ensures IsClockSlot(now, mins, (if graceMin > 0 then graceMin else 0) * MINUTE, best)
  {
    var grace := (if graceMin > 0 then graceMin else 0) * MINUTE;
    best := None;
    for k := 0 to 2
      invariant Best(now, mins, grace, best)
      invariant k > 0 ==> SeenHour(now, 0, mins, grace, best)
      invariant k > 1 ==> SeenHour(now, 1, mins, grace, best)
    {
      var next := ScanHour(now, k, mins, grace, best);
      if k > 0 { StillSeen(now, 0, mins, grace, best, next); }
      best := next;
    }
    TwoHoursSuffice(now, mins, grace, best);
  }

  lemma ClockSlotUnique(now: int, mins: seq<int>, grace: int, p: Option<int>, q: Option<int>)
    requires IsClockSlot(now, mins, grace, p) && IsClockSlot(now, mins, grace, q)
    ensures p == q
  {
  }

  // ---------------------------------------------------------------- rules

  datatype Trigger =
    | Interval(minutes: int)
    | Clock(marks: seq<int>)
    | OnceAt(at: Option<int>)
    | DailyAt(tod: Option<TimeOfDay>)
    | WeeklyAt(tod: Option<TimeOfDay>, days: set<int>)
    | Manual

  datatype Rule = Rule(trigger: Trigger, enabled: bool, lastFired: Option<int>, createdAt: int,
                       startDate: Option<int>, endDate: Option<int>)

  predicate InWindow(r: Rule, now: int) {
    && (r.startDate.Some? ==> r.startDate.value <= DayOf(now))
    && (r.endDate.Some? ==> DayOf(now) <= r.endDate.value)
  }

  function Every(minutes: int): int { (if minutes > 1 then minutes else 1) * MINUTE }

  predicate SlotDue(r: Rule, tod: Option<TimeOfDay>, now: int) {
    && tod.Some?
    && (r.lastFired.Some? ==> DayOf(r.lastFired.value) != DayOf(now))
    && 0 <= now - Slot(DayOf(now), tod.value) <= CATCH_UP
  }

  ghost predicate ClockDue(r: Rule, marks: seq<int>, now: int) {
    exists v :: IsClockSlot(now, marks, CLOCK_GRACE, Some(v)) && (r.lastFired.Some? ==> r.lastFired.value < v)
  }

  /** When a rule fires, trigger by trigger. */
  ghost predicate RuleDue(r: Rule, now: int) {
    && r.enabled
    && (r.trigger.OnceAt? || InWindow(r, now))
    && match r.trigger
       case Manual => false
       case Interval(n) =>
         now >= (if r.lastFired.Some? then r.lastFired.value else r.createdAt) + Every(n)
       case Clock(marks) => ClockDue(r, marks, now)
       case DailyAt(tod) => SlotDue(r, tod, now)
       case WeeklyAt(tod, days) => Weekday(DayOf(now)) in days && SlotDue(r, tod, now)
       case OnceAt(at) => at.Some? && now >= at.value
  }

  method IsDueNow(r: Rule, now: int) returns (due: bool)
    ensures due == RuleDue(r, now)
  {
    if !r.enabled || r.trigger.Manual? { return false; }
    if !r.trigger.OnceAt? && !InWindow(r, now) { return false; }
    match r.trigger {
      case Interval(n) =>
        var base := if r.lastFired.Some? then r.lastFired.value else r.createdAt;
        return now >= base + Every(n);
      case Clock(marks) =>
        var slot := ClockSlot(now, marks, 5);
        if slot.None? { return false; }
        forall v | IsClockSlot(now, marks, CLOCK_GRACE, Some(v)) ensures Some(v) == slot {
          ClockSlotUnique(now, marks, CLOCK_GRACE, slot, Some(v));
        }
        return r.lastFired.None? || r.lastFired.value < slot.value;
      case DailyAt(tod) => return SlotDue(r, tod, now);
      case WeeklyAt(tod, days) => return Weekday(DayOf(now)) in days && SlotDue(r, tod, now);
      case OnceAt(at) => return at.Some? && now >= at.value;
      case Manual => return false;
    }
  }

  function MarkFired(r: Rule, now: int): Rule {
    if r.trigger.OnceAt? then r.(lastFired := Some(now), enabled := false) else r.(lastFired := Some(now))
  }

  /** A rule with what the feeder remembers of it: when its inserts began to fail, when it aired, when
      it was given up. */
  datatype Airing = Airing(rule: Rule, retry: Option<int>, aired: seq<int>, missed: seq<int>)

  /** One tick for one rule; `ok` is whether the insert would succeed. */
  ghost function Tick(s: Airing, now: int, ok: bool): Airing {
    if !RuleDue(s.rule, now) then s
    else if ok then s.(rule := MarkFired(s.rule, now), retry := None, aired := s.aired + [now])
    else
      var first := if s.retry.Some? then s.retry.value else now;
      if now - first < RETRY_GRACE then s.(retry := Some(first))
      else s.(rule := MarkFired(s.rule, now), retry := None, missed := s.missed + [now])
  }

  ghost function Run(s: Airing, ticks: seq<(int, bool)>): Airing
    decreases |ticks|
  {
    if ticks == [] then s
    else Tick(Run(s, ticks[..|ticks| - 1]), ticks[|ticks| - 1].0, ticks[|ticks| - 1].1)
  }

  /** On time: within the rule's window and catch-up, never early. */
  ghost predicate Timely(r: Rule, a: int) {
    && (r.trigger.OnceAt? || InWindow(r, a))
    && match r.trigger
       case Manual => false
       case Interval(_) => true
       case Clock(marks) => exists v :: IsClockSlot(a, marks, CLOCK_GRACE, Some(v))
       case DailyAt(tod) => tod.Some? && 0 <= a - Slot(DayOf(a), tod.value) <= CATCH_UP
       case WeeklyAt(tod, days) =>
         Weekday(DayOf(a)) in days && tod.Some? && 0 <= a - Slot(DayOf(a), tod.value) <= CATCH_UP
       case OnceAt(at) => at.Some? && at.value <= a
  }

  /** Two airings, the first of them earlier: for different marks, different dates, a full interval
      apart; a one-off never airs twice. */
  ghost predicate Apart(r: Rule, a: int, b: int) {
    match r.trigger
    case Manual => false
    case OnceAt(_) => false
    case Interval(n) => b - a >= Every(n)
    case DailyAt(_) => DayOf(a) < DayOf(b)
    case WeeklyAt(_, _) => DayOf(a) < DayOf(b)
    case Clock(marks) =>
      forall v, w :: IsClockSlot(a, marks, CLOCK_GRACE, Some(v)) && IsClockSlot(b, marks, CLOCK_GRACE, Some(w)) ==>
        v < w
  }

  lemma DueApart(r: Rule, a: int, b: int)
    requires r.lastFired.Some? && a <= r.lastFired.value <= b && RuleDue(r, b)
    ensures !r.trigger.OnceAt? ==> Apart(r, a, b)
    ensures Timely(r, b)
  {
    match r.trigger
    case Clock(marks) =>
      forall v, w | IsClockSlot(a, marks, CLOCK_GRACE, Some(v)) && IsClockSlot(b, marks, CLOCK_GRACE, Some(w))
        ensures v < w {
        var u :| IsClockSlot(b, marks, CLOCK_GRACE, Some(u)) && r.lastFired.value < u;
        ClockSlotUnique(b, marks, CLOCK_GRACE, Some(u), Some(w));
      }
    case _ =>
  }

  lemma MarksApart(marks: seq<int>, a: int, b: int, v: int)
    requires a <= b && IsClockSlot(b, marks, CLOCK_GRACE, Some(v))
    ensures
      a < v <==>
        forall u, x :: IsClockSlot(a, marks, CLOCK_GRACE, Some(u)) && IsClockSlot(b, marks, CLOCK_GRACE, Some(x)) ==> u < x
  {
    if v <= a { SlotEarlier(marks, a, b, v); }
  }

  /** The mark a later moment belongs to is that of an earlier one not before it. */
  lemma SlotEarlier(marks: seq<int>, a: int, b: int, v: int)
    requires v <= a <= b && IsClockSlot(b, marks, CLOCK_GRACE, Some(v))
    ensures IsClockSlot(a, marks, CLOCK_GRACE, Some(v))
  {
  }

  /** A rule that has fired fires again exactly when the time is right and apart from the firing before: a
      later mark, another date, or a full interval on. */
  lemma FiresAgainExactly(r: Rule, a: int, now: int)
    requires r.enabled && r.lastFired == Some(a) && a <= now && !r.trigger.OnceAt?
    ensures RuleDue(r, now) <==> Timely(r, now) && Apart(r, a, now)
  {
    match r.trigger
    case Clock(marks) =>
      if Timely(r, now) {
        var v :| IsClockSlot(now, marks, CLOCK_GRACE, Some(v));
        MarksApart(marks, a, now, v);
        forall x | IsClockSlot(now, marks, CLOCK_GRACE, Some(x)) ensures x == v {
          ClockSlotUnique(now, marks, CLOCK_GRACE, Some(v), Some(x));
        }
      }
    case DailyAt(_) => SameDate(a, now);
    case WeeklyAt(_, _) => SameDate(a, now);
    case _ =>
  }

  lemma SameDate(a: int, b: int)
    requires a <= b
    ensures DayOf(a) <= DayOf(b)
  {
  }

  /** A rule that has never fired, or is a one-off, fires as soon as the time is right; the first interval
      runs from when the rule was made. */
  lemma FiresFirstExactly(r: Rule, now: int)
    requires r.enabled && (r.lastFired.None? || r.trigger.OnceAt?)
    ensures RuleDue(r, now) <==>
              Timely(r, now) && (r.trigger.Interval? ==> now >= r.createdAt + Every(r.trigger.minutes))
  {
  }

  /** A due rule whose insert goes through airs in that very tick, and its failures are forgotten. */
  lemma DueRuleAirs(s: Airing, now: int)
    requires RuleDue(s.rule, now)
    ensures Tick(s, now, true).aired == s.aired + [now] && Tick(s, now, true).retry.None?
    ensures Tick(s, now, true).rule.lastFired == Some(now)
    ensures Tick(s, now, true).rule.enabled <==> !s.rule.trigger.OnceAt?
  {
  }

  predicate InOrder(ticks: seq<(int, bool)>) {
    forall i, j :: 0 <= i < j < |ticks| ==> ticks[i].0 <= ticks[j].0
  }

  /** The rule itself, apart from what firing changes. */
  predicate SameRule(r: Rule, r': Rule) {
    r' == r.(lastFired := r'.lastFired, enabled := r'.enabled) && (r'.enabled ==> r.enabled)
  }

  /** `aired` are airings of the rule, all on time and apart, none later than its last firing. */
  ghost predicate AiredWell(r: Rule, aired: seq<int>, now: int) {
    && (aired != [] ==> r.lastFired.Some? && r.lastFired.value <= now && (r.trigger.OnceAt? ==> !r.enabled))
    && (forall i :: 0 <= i < |aired| ==> Timely(r, aired[i]) && aired[i] <= r.lastFired.value)
    && forall i, j :: 0 <= i < j < |aired| ==> Apart(r, aired[i], aired[j])
  }

  ghost predicate WellAired(s: Airing, now: int) { AiredWell(s.rule, s.aired, now) }

  lemma ApartDepends(r: Rule, r': Rule)
    requires SameRule(r, r')
    ensures forall a, b :: Apart(r, a, b) == Apart(r', a, b)
    ensures forall a :: Timely(r, a) == Timely(r', a)
  {
  }

  lemma AiredWellLater(r: Rule, aired: seq<int>, before: int, now: int)
    requires AiredWell(r, aired, before) && before <= now
    ensures AiredWell(r, aired, now)
  {
  }

  /** The rule fires, or is given up: what aired before stays well aired. */
  lemma MarkedWell(r: Rule, aired: seq<int>, now: int)
    requires AiredWell(r, aired, now)
    ensures SameRule(r, MarkFired(r, now)) && AiredWell(MarkFired(r, now), aired, now)
  {
    hide Timely, Apart;
    ApartDepends(r, MarkFired(r, now));
    forall i | 0 <= i < |aired| ensures Timely(MarkFired(r, now), aired[i]) && aired[i] <= now {
      assert Timely(r, aired[i]);
    }
    forall i, j | 0 <= i < j < |aired| ensures Apart(MarkFired(r, now), aired[i], aired[j]) {
      assert Apart(r, aired[i], aired[j]);
    }
  }

  lemma AiredNow(r: Rule, aired: seq<int>, now: int)
    requires AiredWell(r, aired, now) && RuleDue(r, now)
    ensures AiredWell(MarkFired(r, now), aired + [now], now)
  {
    hide Timely, Apart, RuleDue;
    var all, r1 := aired + [now], MarkFired(r, now);
    DueTimely(r, now);
    DueEnabled(r, now);
    MarkedWell(r, aired, now);
    ApartDepends(r, r1);
    forall i, j | 0 <= i < j < |all| ensures Apart(r1, all[i], all[j]) {
      if j < |aired| { assert Apart(r1, aired[i], aired[j]); } else { DueApart(r, aired[i], now); }
    }
    forall i | 0 <= i < |all| ensures Timely(r1, all[i]) && all[i] <= now {
      if i < |aired| { assert Timely(r1, aired[i]); }
    }
  }

  lemma DueEnabled(r: Rule, now: int)
    requires RuleDue(r, now)
    ensures r.enabled
  {
  }

  lemma TickWellAired(s: Airing, before: int, now: int, ok: bool)
    requires WellAired(s, before) && before <= now
    ensures WellAired(Tick(s, now, ok), now) && SameRule(s.rule, Tick(s, now, ok).rule)
  {
    hide AiredWell, RuleDue;
    AiredWellLater(s.rule, s.aired, before, now);
    MarkedWell(s.rule, s.aired, now);
    if RuleDue(s.rule, now) { AiredNow(s.rule, s.aired, now); }
  }

  lemma DueTimely(r: Rule, now: int)
    requires RuleDue(r, now)
    ensures Timely(r, now)
  {
  }

  /** Over any tick times that do not run backwards, and any insert failures: a rule airs only on time,
      each clock mark and each date at most once, intervals a full interval apart, a one-off once. */
  lemma {:induction false} SpotsAirOnTimeAndOnce(rule: Rule, ticks: seq<(int, bool)>)
    requires InOrder(ticks)
    ensures
      var r := Run(Airing(rule, None, [], []), ticks);
      && SameRule(rule, r.rule)
      && (forall i :: 0 <= i < |r.aired| ==> Timely(rule, r.aired[i]))
      && (forall i, j :: 0 <= i < j < |r.aired| ==> Apart(rule, r.aired[i], r.aired[j]))
      && (ticks != [] ==> WellAired(r, ticks[|ticks| - 1].0))
      && (ticks == [] ==> r.aired == [])
    decreases |ticks|
  {
    hide Timely, Apart, Tick;
    var s := Airing(rule, None, [], []);
    if ticks != [] {
      var n := |ticks| - 1;
      SpotsAirOnTimeAndOnce(rule, ticks[..n]);
      var before := if n > 0 then ticks[n - 1].0 else ticks[0].0;
      TickWellAired(Run(s, ticks[..n]), before, ticks[n].0, ticks[n].1);
      ApartDepends(rule, Run(s, ticks).rule);
    }
  }

  /** A failed insert gives the rule up exactly when the first failure the feeder still remembers is
      ten minutes old; otherwise the rule stays as it was. */
  lemma FailureGivesUp(s: Airing, now: int)
    requires RuleDue(s.rule, now)
    ensures
      var gaveUp := s.retry.Some? && now - s.retry.value >= RETRY_GRACE;
      && (Tick(s, now, false).rule == MarkFired(s.rule, now) || !gaveUp)
      && (!gaveUp ==> Tick(s, now, false).rule == s.rule && RuleDue(Tick(s, now, false).rule, now))
      && (gaveUp <==> Tick(s, now, false).missed != s.missed)
  {
  }

  /** The remembered failure outlives the mark it belonged to. A top-of-hour rule that failed once at
      one o'clock is given up at two o'clock on its very first failure, with no retries. */
  lemma StaleFailureCutsRetriesShort()
    ensures
      var rule := Rule(Clock([0]), true, None, 0, None, None);
      var r := Run(Airing(rule, None, [], []), [(HOUR, false), (2 * HOUR, false)]);
      r.missed == [2 * HOUR]
  {
    var rule := Rule(Clock([0]), true, None, 0, None, None);
    var s := Airing(rule, None, [], []);
    var ticks := [(HOUR, false), (2 * HOUR, false)];
    assert [0][0] == 0;
    assert IsMark(HOUR, [0]) && IsMark(2 * HOUR, [0]);
    assert IsClockSlot(HOUR, [0], CLOCK_GRACE, Some(HOUR));
    assert IsClockSlot(2 * HOUR, [0], CLOCK_GRACE, Some(2 * HOUR));
    assert ticks[..1] == [(HOUR, false)] && ticks[..1][..0] == [];
    assert Run(s, ticks[..1]) == s.(retry := Some(HOUR));
  }

  // ---------------------------------------------------------------- in place

  /** The enabled rules with the feeder's retry memory. */
  class SpotRules {
    var airings: seq<Airing>

    /** Fire whatever is due; `inserts[i]` is how an insert for rule i would go. */
    method FireDue(now: int, inserts: seq<bool>)
      requires |inserts| == |airings|
      modifies this
      ensures |airings| == |old(airings)|
      ensures forall i :: 0 <= i < |airings| ==> airings[i] == Tick(old(airings)[i], now, inserts[i])
    {
      hide RuleDue;
      for i := 0 to |airings|
        invariant |airings| == |old(airings)|
        invariant forall k :: 0 <= k < i ==> airings[k] == Tick(old(airings)[k], now, inserts[k])
        invariant forall k :: i <= k < |airings| ==> airings[k] == old(airings)[k]
      {
        var s := airings[i];
        var due := IsDueNow(s.rule, now);
        if due {
          if inserts[i] {
            s := s.(rule := MarkFired(s.rule, now), retry := None, aired := s.aired + [now]);
          } else {
            if s.retry.None? { s := s.(retry := Some(now)); }
            if now - s.retry.value >= RETRY_GRACE {
              s := s.(rule := MarkFired(s.rule, now), retry := None, missed := s.missed + [now]);
            }
          }
          airings := airings[i := s];
        }
      }
    }
  }
}
