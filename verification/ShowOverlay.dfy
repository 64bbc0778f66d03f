/** The show on air over the rotation, and the schedule rows that say so. */
module ShowOverlay {
  import opened Basics
  import opened Schedule

  /** `today` is the last date read. `kinds`, `started` and `autoFired` record what rows there were and what
      went on air; bookkeeping of
      the model only. */
  datatype Overlay = Overlay(rows: seq<Row>, show: Option<int>, today: int, serials: nat,
                             kinds: map<nat, Recurrence>, started: seq<nat>, autoFired: seq<(nat, int)>)

  // ---------------------------------------------------------------- the schedule table

  /** A show finished airing: a one-time row is done, a recurring one waits again while its run window
      lasts. */
  function Finished(r: Row, today: int): Row {
    var expired := r.endDate.Some? && today > r.endDate.value;
    r.(state := if r.recurrence != Once && !expired then Waiting else Done)
  }

  function FinishRow(rows: seq<Row>, id: int, today: int): seq<Row> {
    seq(|rows|, i requires 0 <= i < |rows| => if rows[i].id == id then Finished(rows[i], today) else rows[i])
  }

  function FinishPlaying(rows: seq<Row>, except: Option<int>, today: int): seq<Row> {
    seq(|rows|, i requires 0 <= i < |rows| =>
      if rows[i].state == Playing && except != Some(rows[i].id) then Finished(rows[i], today) else rows[i])
  }

  function ExpirePast(rows: seq<Row>, today: int): seq<Row> {
    seq(|rows|, i requires 0 <= i < |rows| =>
      if rows[i].state == Waiting && rows[i].recurrence != Once && rows[i].endDate.Some? &&
         rows[i].endDate.value < today then rows[i].(state := Done) else rows[i])
  }

  /** The row goes on air; a recurring one has had its slot for today. */
  function Start(rows: seq<Row>, id: int, today: int): seq<Row> {
    seq(|rows|, i requires 0 <= i < |rows| =>
      if rows[i].id != id then rows[i]
      else if rows[i].recurrence == Once then rows[i].(state := Playing)
      else rows[i].(state := Playing, lastFired := Some(today)))
  }

  function MaxId(rows: seq<Row>): int {
    if rows == [] then 0
    else if MaxId(rows[1..]) > rows[0].id then MaxId(rows[1..]) else rows[0].id
  }

  // ---------------------------------------------------------------- the feeder's show handling

  function FinishShow(s: Overlay, today: int): Overlay {
    match s.show
    case None => s
    case Some(id) => s.(rows := FinishRow(s.rows, id, today), show := None)
  }

  function StartShow(s: Overlay, id: int, serial: nat, today: int): Overlay {
    s.(rows := Start(FinishPlaying(s.rows, Some(id), today), id, today), show := Some(id),
       started := s.started + [serial])
  }

  /** Fire the scheduled show that is due, if any, taking over from one that is on air. */
  function FireScheduled(s: Overlay, now: int, today: int, pick: Option<nat>): Overlay
    requires IsDue(s.rows, now, pick)
  {
    if pick.None? then s
    else
      var r := s.rows[pick.value];
      if s.show == Some(r.id) then s
      else
        var s1 := StartShow(FinishShow(s, today), r.id, r.serial, today);
        if r.recurrence == Once then s1 else s1.(autoFired := s1.autoFired + [(r.serial, DayOf(now))])
  }

  datatype Action =
    | Tick(now: int, today: int, aired: bool, pick: Option<nat>)
    | StartNow(index: nat, startDay: int)
    | StopShow(stopDay: int)
    | AddRow(row: Row)
    | RemoveRow(id: int)

  /** The show part of one completed tick. `aired`: the show was fed to its end and none of it is left
      pending or playing. */
  function TickShow(s: Overlay, now: int, today: int, aired: bool, pick: Option<nat>): Overlay
    requires IsDue(ExpirePast((if aired then FinishShow(s, today) else s).rows, today), now, pick)
  {
    var s1 := if aired then FinishShow(s, today) else s;
    var s2 := FireScheduled(s1.(rows := ExpirePast(s1.rows, today)), now, today, pick);
    s2.(rows := FinishPlaying(s2.rows, s2.show, today), today := today)
  }

  /** What may happen next: time does not run backwards, and a date is read no earlier than the
      instant it belongs to. */
  predicate Allowed(s: Overlay, act: Action) {
    match act
    case Tick(now, today, aired, pick) =>
      && s.today <= DayOf(now) <= today
      && IsDue(ExpirePast((if aired then FinishShow(s, today) else s).rows, today), now, pick)
    case StartNow(index, startDay) =>
      index < |s.rows| && s.rows[index].state == Waiting && s.today <= startDay
    case StopShow(stopDay) => s.today <= stopDay
    case AddRow(row) => row.state == Waiting && row.lastFired.None?
    case RemoveRow(_) => true
  }

  function Step(s: Overlay, act: Action): Overlay
    requires Allowed(s, act)
  {
    match act
    case Tick(now, today, aired, pick) => TickShow(s, now, today, aired, pick)
    case StartNow(index, day) =>
      StartShow(FinishShow(s, day), s.rows[index].id, s.rows[index].serial, day).(today := day)
    case StopShow(day) => FinishShow(s, day).(today := day)
    case AddRow(row) =>
      s.(rows := s.rows + [row.(id := MaxId(s.rows) + 1, serial := s.serials)], serials := s.serials + 1,
         kinds := s.kinds[s.serials := row.recurrence])
    case RemoveRow(id) => s.(rows := Kept(s.rows, id))
  }

  function Kept(rows: seq<Row>, id: int): seq<Row> {
    if rows == [] then [] else (if rows[0].id == id then [] else [rows[0]]) + Kept(rows[1..], id)
  }

  // ---------------------------------------------------------------- what every run keeps

  predicate RowsDistinct(rows: seq<Row>) {
    forall i, j :: 0 <= i < j < |rows| ==> rows[i].id != rows[j].id && rows[i].serial != rows[j].serial
  }

  /** A one-time row that went on air never waits again. A recurring row that fired for a date is marked
      with that date or a later one, none of them in the future. */
  ghost predicate Spent(s: Overlay) {
    && (forall i :: 0 <= i < |s.rows| && s.rows[i].recurrence == Once && s.rows[i].serial in s.started ==>
          s.rows[i].state != Waiting)
    && (forall i, f :: 0 <= i < |s.rows| && f in s.autoFired && f.0 == s.rows[i].serial ==>
          s.rows[i].lastFired.Some? && f.1 <= s.rows[i].lastFired.value <= s.today)
    && (forall i :: 0 <= i < |s.rows| ==> s.rows[i].serial < s.serials)
    && (forall x :: x in s.started ==> x < s.serials)
    && (forall f :: f in s.autoFired ==> f.0 < s.serials)
  }

  predicate NoRepeats<T(==)>(xs: seq<T>) { forall i, j :: 0 <= i < j < |xs| ==> xs[i] != xs[j] }

  predicate KindsFit(s: Overlay) {
    && (forall i :: 0 <= i < |s.rows| ==>
          s.rows[i].serial in s.kinds && s.kinds[s.rows[i].serial] == s.rows[i].recurrence)
    && forall k :: k in s.kinds ==> k < s.serials
  }

  /** Only a recurring row goes on air twice. */
  predicate OnceStartsOnce(s: Overlay) {
    forall i, j :: 0 <= i < j < |s.started| && s.started[i] == s.started[j] ==>
      s.started[i] in s.kinds && s.kinds[s.started[i]] != Once
  }

  ghost predicate Inv(s: Overlay) {
    RowsDistinct(s.rows) && Spent(s) && KindsFit(s) && NoRepeats(s.autoFired) && OnceStartsOnce(s)
  }

  /** Rows changed in place: same rows, nothing waiting that was spent. */
  predicate Touched(rows: seq<Row>, rows': seq<Row>) {
    && |rows'| == |rows|
    && forall i :: 0 <= i < |rows| ==>
         && rows'[i] == rows[i].(state := rows'[i].state)
         && (rows[i].recurrence == Once && rows'[i].state == Waiting ==> rows[i].state == Waiting)
  }

  lemma TouchedInv(s: Overlay, rows: seq<Row>, show: Option<int>, today: int)
    requires Inv(s) && Touched(s.rows, rows) && s.today <= today
    ensures Inv(s.(rows := rows, show := show, today := today))
  {
  }

  lemma TouchedSteps(rows: seq<Row>, id: int, except: Option<int>, today: int)
    ensures Touched(rows, FinishRow(rows, id, today))
    ensures Touched(rows, FinishPlaying(rows, except, today))
    ensures Touched(rows, ExpirePast(rows, today))
  {
  }

  lemma FinishShowInv(s: Overlay, today: int)
    requires Inv(s) && s.today <= today
    ensures Inv(FinishShow(s, today).(today := today))
    ensures Touched(s.rows, FinishShow(s, today).rows)
  {
    var rows := FinishShow(s, today).rows;
    if s.show.Some? { TouchedSteps(s.rows, s.show.value, None, today); }
    TouchedInv(s, rows, None, today);
  }

  /** `FinishPlaying` and `Start` together: same rows; the one started plays, marked if recurring. */
  lemma StartRows(rows: seq<Row>, p: nat, today: int)
    requires p < |rows| && RowsDistinct(rows)
    ensures
      var rows' := Start(FinishPlaying(rows, Some(rows[p].id), today), rows[p].id, today);
      && |rows'| == |rows|
      && rows'[p].state == Playing
      && rows'[p] == rows[p].(state := Playing, lastFired := if rows[p].recurrence == Once then rows[p].lastFired else Some(today))
      && forall i :: 0 <= i < |rows| && i != p ==>
           && rows'[i] == rows[i].(state := rows'[i].state)
           && (rows[i].recurrence == Once && rows'[i].state == Waiting ==> rows[i].state == Waiting)
  {
  }

  lemma StartInv(s: Overlay, p: nat, today: int)
    requires Inv(s) && p < |s.rows| && s.today <= today
    requires s.rows[p].recurrence == Once ==> s.rows[p].serial !in s.started
    ensures Inv(StartShow(s, s.rows[p].id, s.rows[p].serial, today).(today := today))
  {
    hide Start, FinishPlaying;
    var r := s.rows[p];
    var t := StartShow(s, r.id, r.serial, today).(today := today);
    StartRows(s.rows, p, today);
    assert forall i :: 0 <= i < |t.rows| ==>
      t.rows[i].serial == s.rows[i].serial && t.rows[i].id == s.rows[i].id && t.rows[i].recurrence == s.rows[i].recurrence;
    assert Spent(t) by {
      forall x | x in t.started ensures x in s.started || x == r.serial { }
    }
  }

  lemma FireInv(s: Overlay, now: int, today: int, pick: Option<nat>)
    requires Inv(s) && IsDue(s.rows, now, pick) && s.today <= DayOf(now) <= today
    ensures Inv(FireScheduled(s, now, today, pick).(today := today))
  {
    hide Inv, RecurringDue, Start, FinishPlaying;
    TouchedSame(s.rows);
    TouchedInv(s, s.rows, s.show, today);
    assert s.(rows := s.rows, show := s.show, today := today) == s.(today := today);
    if pick.Some? && s.show != Some(s.rows[pick.value].id) {
      var p := pick.value;
      var r := s.rows[p];
      var s1 := FinishShow(s, today);
      FinishShowInv(s, today);
      FreshPick(s, now, p);
      UnfinishedPick(s, p, today);
      var t := s1.(today := today);
      StartInv(t, p, today);
      var u := StartShow(t, r.id, r.serial, today).(today := today);
      if r.recurrence != Once {
        InvDistinct(t);
        StartRows(t.rows, p, today);
        FiredInv(u, p, DayOf(now));
      }
    }
  }

  lemma InvDistinct(s: Overlay)
    requires Inv(s)
    ensures RowsDistinct(s.rows)
  {
  }

  lemma TouchedSame(rows: seq<Row>)
    ensures Touched(rows, rows)
  {
  }

  /** A row that is due has not been spent. */
  lemma FreshPick(s: Overlay, now: int, p: nat)
    requires Inv(s) && IsDue(s.rows, now, Some(p)) && s.today <= DayOf(now)
    ensures p < |s.rows| && s.rows[p].state == Waiting
    ensures s.rows[p].recurrence == Once ==> s.rows[p].serial !in s.started
    ensures s.rows[p].recurrence != Once ==> (s.rows[p].serial, DayOf(now)) !in s.autoFired
  {
  }

  /** Finishing another show leaves the row as it was. */
  lemma UnfinishedPick(s: Overlay, p: nat, today: int)
    requires p < |s.rows| && s.show != Some(s.rows[p].id)
    ensures |FinishShow(s, today).rows| == |s.rows| && FinishShow(s, today).rows[p] == s.rows[p]
    ensures FinishShow(s, today).started == s.started && FinishShow(s, today).autoFired == s.autoFired
  {
  }

  lemma FiredInv(s: Overlay, p: nat, day: int)
    requires Inv(s) && p < |s.rows| && s.rows[p].recurrence != Once
    requires s.rows[p].lastFired == Some(s.today) && day <= s.today
    requires (s.rows[p].serial, day) !in s.autoFired
    ensures Inv(s.(autoFired := s.autoFired + [(s.rows[p].serial, day)]))
  {
    var f := (s.rows[p].serial, day);
    var t := s.(autoFired := s.autoFired + [f]);
    forall g | g in t.autoFired ensures g in s.autoFired || g == f {
    }
  }

  /** After a completed tick the rows in state 'playing' are at most the overlay's row. */
  lemma TickInv(s: Overlay, now: int, today: int, aired: bool, pick: Option<nat>)
    requires Inv(s) && Allowed(s, Tick(now, today, aired, pick))
    ensures
      var r := TickShow(s, now, today, aired, pick);
      Inv(r) && forall i :: 0 <= i < |r.rows| && r.rows[i].state == Playing ==> r.show == Some(r.rows[i].id)
  {
    hide Inv, RecurringDue, IsDue;
    var s0 := s.(today := s.today);
    FinishShowSame(s);
    FinishShowInv(s, s.today);
    var s1 := if aired then FinishShow(s, today) else s;
    assert Inv(s1) by {
      if aired { FinishShowDay(s, today); }
    }
    TouchedSteps(s1.rows, 0, None, today);
    var s2 := s1.(rows := ExpirePast(s1.rows, today));
    TouchedInv(s1, s2.rows, s1.show, s1.today);
    assert s2 == s1.(rows := s2.rows, show := s1.show, today := s1.today);
    FireInv(s2, now, today, pick);
    var s3 := FireScheduled(s2, now, today, pick).(today := today);
    TouchedSteps(s3.rows, 0, s3.show, today);
    TouchedInv(s3, FinishPlaying(s3.rows, s3.show, today), s3.show, today);
  }

  /** The show that is due takes the air in that very tick, over whatever show was on, unless the row is
      the one on air already: its row alone is playing, and a recurring one is marked for the date. */
  lemma DueShowStarts(s: Overlay, now: int, today: int, aired: bool, p: nat)
    requires Inv(s) && Allowed(s, Tick(now, today, aired, Some(p))) && p < |s.rows|
    requires s.show != Some(s.rows[p].id) || aired
    ensures
      var r := TickShow(s, now, today, aired, Some(p));
      && |r.rows| == |s.rows| && r.rows[p].id == s.rows[p].id
      && r.show == Some(r.rows[p].id) && r.rows[p].state == Playing
      && r.started == s.started + [r.rows[p].serial]
      && (r.rows[p].recurrence != Once ==> r.rows[p].lastFired == Some(today))
      && forall i :: 0 <= i < |r.rows| && i != p ==> r.rows[i].state != Playing
  {
    hide RecurringDue, IsDue, Start, FinishPlaying;
    TickInv(s, now, today, aired, Some(p));
    TouchedSteps(s.rows, if s.show.Some? then s.show.value else 0, None, today);
    var s1 := if aired then FinishShow(s, today) else s;
    TouchedSteps(s1.rows, 0, None, today);
    var s2 := s1.(rows := ExpirePast(s1.rows, today));
    TouchedSteps(s2.rows, if s2.show.Some? then s2.show.value else 0, None, today);
    var s3 := FinishShow(s2, today);
    SameIds(s.rows, s3.rows);
    StartRows(s3.rows, p, today);
    var s4 := FireScheduled(s2, now, today, Some(p));
    PlayingStays(s4.rows, p, today);
    var r := TickShow(s, now, today, aired, Some(p));
    assert r.rows == FinishPlaying(s4.rows, Some(s4.rows[p].id), today);
    TouchedSteps(s4.rows, 0, Some(s4.rows[p].id), today);
    assert RowsDistinct(r.rows);
  }

  /** A tick starts a show if and only if a row is due and is not taken for the show still on air, which is
      told by its id alone. */
  lemma TickStartsExactly(s: Overlay, now: int, today: int, aired: bool, pick: Option<nat>)
    requires Inv(s) && Allowed(s, Tick(now, today, aired, pick))
    ensures
      TickShow(s, now, today, aired, pick).started != s.started <==>
        && pick.Some? && pick.value < |s.rows|
        && (aired || s.show != Some(s.rows[pick.value].id))
  {
    hide Inv, RecurringDue, Start, FinishPlaying;
    var s1 := if aired then FinishShow(s, today) else s;
    TouchedSteps(s.rows, if s.show.Some? then s.show.value else 0, None, today);
    TouchedSteps(s1.rows, 0, None, today);
    IsDueInRange(ExpirePast(s1.rows, today), now, pick);
    if pick.Some? && (aired || s.show != Some(s.rows[pick.value].id)) {
      DueShowStarts(s, now, today, aired, pick.value);
    }
  }

  lemma SameIds(rows: seq<Row>, rows': seq<Row>)
    requires RowsDistinct(rows) && |rows'| == |rows|
    requires forall i :: 0 <= i < |rows| ==> rows'[i] == rows[i].(state := rows'[i].state)
    ensures RowsDistinct(rows')
  {
  }

  lemma PlayingStays(rows: seq<Row>, p: nat, today: int)
    requires p < |rows|
    ensures FinishPlaying(rows, Some(rows[p].id), today)[p] == rows[p]
  {
  }

  lemma FinishShowSame(s: Overlay)
    ensures s.(today := s.today) == s
  {
  }

  /** Finishing a show on some later date, before that date is recorded. */
  lemma FinishShowDay(s: Overlay, today: int)
    requires Inv(s)
    ensures Inv(FinishShow(s, today))
  {
    var rows := FinishShow(s, today).rows;
    if s.show.Some? { TouchedSteps(s.rows, s.show.value, None, today); }
    TouchedInv(s, rows, None, s.today);
    assert FinishShow(s, today) == if s.show.Some? then s.(rows := rows, show := None, today := s.today) else s;
  }

  lemma {:induction false} MaxIdBounds(rows: seq<Row>)
    ensures forall i :: 0 <= i < |rows| ==> rows[i].id <= MaxId(rows)
  {
    if rows != [] { MaxIdBounds(rows[1..]); }
  }

  lemma {:induction false} KeptSome(rows: seq<Row>, id: int)
    ensures forall r :: r in Kept(rows, id) ==> r in rows
    ensures RowsDistinct(rows) ==> RowsDistinct(Kept(rows, id))
  {
    if rows != [] {
      KeptSome(rows[1..], id);
      assert RowsDistinct(rows) ==> forall r :: r in rows[1..] ==> r.id != rows[0].id && r.serial != rows[0].serial;
    }
  }

  lemma AddInv(s: Overlay, row: Row)
    requires Inv(s) && Allowed(s, AddRow(row))
    ensures Inv(Step(s, AddRow(row)))
  {
    MaxIdBounds(s.rows);
  }

  lemma RemoveInv(s: Overlay, id: int)
    requires Inv(s)
    ensures Inv(Step(s, RemoveRow(id)))
  {
    KeptSome(s.rows, id);
    var rows := Kept(s.rows, id);
    assert forall i :: 0 <= i < |rows| ==> rows[i] in s.rows;
  }

  lemma StepInv(s: Overlay, act: Action)
    requires Inv(s) && Allowed(s, act)
    ensures Inv(Step(s, act))
  {
    hide Inv, RecurringDue, IsDue;
    match act
    case Tick(now, today, aired, pick) => TickInv(s, now, today, aired, pick);
    case StartNow(index, day) =>
      FinishShowInv(s, day);
      WaitingUnspent(s, index);
      StartInv(FinishShow(s, day).(today := day), index, day);
    case StopShow(day) => FinishShowInv(s, day);
    case AddRow(row) => AddInv(s, row);
    case RemoveRow(id) => RemoveInv(s, id);
  }

  /** A table as found, before anything is recorded of it. */
  function Found(rows: seq<Row>, show: Option<int>, today: int): Overlay {
    Overlay(seq(|rows|, i requires 0 <= i < |rows| => rows[i].(serial := i)), show, today, |rows|,
            map k: nat | 0 <= k < |rows| :: rows[k].recurrence, [], [])
  }

  /** Any table with distinct ids is a place to start from, whatever its rows' states. */
  lemma FoundInv(rows: seq<Row>, show: Option<int>, today: int)
    requires forall i, j :: 0 <= i < j < |rows| ==> rows[i].id != rows[j].id
    ensures Inv(Found(rows, show, today))
  {
  }

  lemma WaitingUnspent(s: Overlay, p: nat)
    requires Inv(s) && p < |s.rows| && s.rows[p].state == Waiting
    ensures s.rows[p].recurrence == Once ==> s.rows[p].serial !in s.started
  {
  }

  /** A run of actions, leaving out any that cannot happen where it stands. */
  function Run(s: Overlay, acts: seq<Action>): Overlay
    decreases |acts|
  {
    if acts == [] then s
    else
      var before := Run(s, acts[..|acts| - 1]);
      if Allowed(before, acts[|acts| - 1]) then Step(before, acts[|acts| - 1]) else before
  }

  lemma {:induction false} RunInv(s: Overlay, acts: seq<Action>)
    requires Inv(s)
    ensures Inv(Run(s, acts))
    decreases |acts|
  {
    hide Inv, Step, Allowed;
    if acts != [] {
      var before := Run(s, acts[..|acts| - 1]);
      RunInv(s, acts[..|acts| - 1]);
      if Allowed(before, acts[|acts| - 1]) { StepInv(before, acts[|acts| - 1]); }
    }
  }

  /** From any table, over any run of ticks, starts, stops, additions and removals: a one-time row goes on
      air at most once, and a recurring row fires by itself at most once for any date. */
  lemma ShowsAirAtMostOnce(rows: seq<Row>, show: Option<int>, today: int, acts: seq<Action>)
    requires forall i, j :: 0 <= i < j < |rows| ==> rows[i].id != rows[j].id
    ensures
      var r := Run(Found(rows, show, today), acts);
      Inv(r) && NoRepeats(r.autoFired) && OnceStartsOnce(r)
  {
    hide Found, Spent, KindsFit, Step, Allowed;
    FoundInv(rows, show, today);
    RunInv(Found(rows, show, today), acts);
  }

  /** How such a row comes about. The table gives a new row the highest id plus one, so the id of a deleted
      row can come back. A row that takes over the id of the show on air is never started, and when that
      show ends it is retired as if it had aired. */
  lemma ReusedIdNeverAirs(row: Row, now: int)
    requires row.state == Waiting && row.lastFired.None? && OnceDue(row, now)
    ensures
      var s := Overlay([], Some(1), DayOf(now), 1, map[0 := Once], [0], []);
      var added := Step(s, AddRow(row));
      && IsDue(ExpirePast(added.rows, DayOf(now)), now, Some(0))
      && var ticked := TickShow(added, now, DayOf(now), false, Some(0));
         ticked.started == s.started && FinishShow(ticked, DayOf(now)).rows[0].state == Done
  {
    var s := Overlay([], Some(1), DayOf(now), 1, map[0 := Once], [0], []);
    var added := Step(s, AddRow(row));
    assert ExpirePast(added.rows, DayOf(now)) == added.rows;
    assert Ripe(added.rows[0], now);
  }

  // ---------------------------------------------------------------- what becomes of each row

  predicate Past(r: Row, today: int) { r.endDate.Some? && r.endDate.value < today }

  /** At rest: a recurring row waits inside its run window; any other is done. */
  predicate AtRest(r: Row, today: int) {
    r.state == if r.recurrence != Once && !Past(r, today) then Waiting else Done
  }

  /** The same row but for its state. */
  predicate SameButState(r: Row, r': Row) { r' == r.(state := r'.state) }

  /** When its own show ends a recurring row waits again if and only if its stop date has not passed, and
      any other is done; every other row is untouched, and nothing is on air. */
  lemma FinishedRests(s: Overlay, p: nat, today: int)
    requires p < |s.rows| && RowsDistinct(s.rows) && s.show == Some(s.rows[p].id)
    ensures
      var r := FinishShow(s, today);
      && r.show.None? && |r.rows| == |s.rows|
      && AtRest(r.rows[p], today) && SameButState(s.rows[p], r.rows[p])
      && forall i :: 0 <= i < |s.rows| && i != p ==> r.rows[i] == s.rows[i]
  {
  }

  /** What a tick makes of a row `r` of the table, `started` being whether it puts that row on air. */
  predicate Ticked(s: Overlay, after: Overlay, r: Row, r': Row, started: bool, today: int) {
    if started then
      r' == r.(state := Playing, lastFired := if r.recurrence == Once then r.lastFired else Some(today))
    else
      && SameButState(r, r')
      && if after.show != Some(r.id) && (s.show == Some(r.id) || r.state == Playing) then AtRest(r', today)
         else if r.state == Waiting && r.recurrence != Once && Past(r, today) then r'.state == Done
         else r'.state == r.state
  }

  /** Every row after a tick: the one started plays and, if recurring, is marked; the show that ended and
      any stray rest; waiting recurring rows past their stop date are done; all others are as they were. */
  lemma TickRows(s: Overlay, now: int, today: int, aired: bool, pick: Option<nat>)
    requires Inv(s) && Allowed(s, Tick(now, today, aired, pick))
    ensures
      var r := TickShow(s, now, today, aired, pick);
      && |r.rows| == |s.rows|
      && forall i :: 0 <= i < |s.rows| ==>
           Ticked(s, r, s.rows[i], r.rows[i], pick == Some(i) && (aired || s.show != Some(s.rows[i].id)), today)
  {
    hide RecurringDue, IsDue, Ticked, Inv, StartShow, FinishPlaying;
    var s1 := if aired then FinishShow(s, today) else s;
    var s2 := s1.(rows := ExpirePast(s1.rows, today));
    var r := TickShow(s, now, today, aired, pick);
    IsDueInRange(s2.rows, now, pick);
    InvDistinct(s);
    TouchedSteps(s.rows, if s.show.Some? then s.show.value else 0, None, today);
    if pick.Some? && s1.show != Some(s2.rows[pick.value].id) {
      StartedRows(s, s1, s2, pick.value, now, today);
    } else {
      IdleRows(s, s1, today);
    }
    forall i | 0 <= i < |s.rows|
      ensures Ticked(s, r, s.rows[i], r.rows[i], pick == Some(i) && (aired || s.show != Some(s.rows[i].id)), today) {
      var before := if pick.Some? && s1.show != Some(s2.rows[pick.value].id) then
                      StartShow(FinishShow(s2, today), s2.rows[pick.value].id, s2.rows[pick.value].serial, today)
                    else s1;
      ShowStarted(FinishShow(s2, today), today);
      AfterShow(s, before, r, s.rows[i], r.rows[i],
                pick == Some(i) && (aired || s.show != Some(s.rows[i].id)), today);
    }
  }

  lemma ShowStarted(s: Overlay, today: int)
    ensures forall id, serial :: StartShow(s, id, serial, today).show == Some(id)
  {
  }

  lemma AfterShow(s: Overlay, x: Overlay, y: Overlay, r: Row, r': Row, started: bool, today: int)
    requires Ticked(s, x, r, r', started, today) && y.show == x.show
    ensures Ticked(s, y, r, r', started, today)
  {
  }

  lemma IdleRows(s: Overlay, s1: Overlay, today: int)
    requires s1 == s || s1 == FinishShow(s, today)
    ensures
      var rows := FinishPlaying(ExpirePast(s1.rows, today), s1.show, today);
      |rows| == |s.rows| && forall i :: 0 <= i < |s.rows| ==> Ticked(s, s1, s.rows[i], rows[i], false, today)
  {
    var rows := FinishPlaying(ExpirePast(s1.rows, today), s1.show, today);
    forall i | 0 <= i < |s.rows| ensures Ticked(s, s1, s.rows[i], rows[i], false, today) {
      IdleRow(s, s1, i, today);
    }
  }

  lemma IdleRow(s: Overlay, s1: Overlay, i: nat, today: int)
    requires i < |s.rows| && (s1 == s || s1 == FinishShow(s, today))
    ensures Ticked(s, s1, s.rows[i], FinishPlaying(ExpirePast(s1.rows, today), s1.show, today)[i], false, today)
  {
  }

  lemma StartedRows(s: Overlay, s1: Overlay, s2: Overlay, p: nat, now: int, today: int)
    requires RowsDistinct(s.rows) && p < |s.rows|
    requires s1 == s || s1 == FinishShow(s, today)
    requires s2 == s1.(rows := ExpirePast(s1.rows, today)) && s1.show != Some(s2.rows[p].id)
    ensures
      var r := s2.rows[p];
      var s3 := StartShow(FinishShow(s2, today), r.id, r.serial, today);
      var rows := FinishPlaying(s3.rows, s3.show, today);
      && |rows| == |s.rows| && s3.show == Some(s.rows[p].id)
      && forall i :: 0 <= i < |s.rows| ==> Ticked(s, s3, s.rows[i], rows[i], i == p, today)
  {
    hide Ticked, Inv;
    var r := s2.rows[p];
    var s3 := StartShow(FinishShow(s2, today), r.id, r.serial, today);
    var rows := FinishPlaying(s3.rows, s3.show, today);
    forall i | 0 <= i < |s.rows| ensures Ticked(s, s3, s.rows[i], rows[i], i == p, today) {
      hide RowsDistinct;
      SameIdSameRow(s.rows, i, p);
      OneRow(s, s1, r.id, i, today);
      var x := FinishShow(s1.(rows := ExpirePast(s1.rows, today)), today).rows[i];
      StartedRow(s, s3, s.rows[i], x, r.id, i == p, today);
    }
  }

  lemma SameIdSameRow(rows: seq<Row>, i: nat, p: nat)
    requires RowsDistinct(rows) && i < |rows| && p < |rows|
    ensures rows[i].id == rows[p].id <==> i == p
  {
  }

  /** A row after the show on air, if any, has been finished and past rows retired, but nothing started. */
  predicate Cleared(s: Overlay, r: Row, x: Row, today: int) {
    && SameButState(r, x)
    && if s.show == Some(r.id) then AtRest(x, today)
       else if r.state == Waiting && r.recurrence != Once && Past(r, today) then x.state == Done
       else x.state == r.state
  }

  lemma OneRow(s: Overlay, s1: Overlay, id: int, i: nat, today: int)
    requires i < |s.rows| && (s1 == s || s1 == FinishShow(s, today))
    ensures
      var s2 := FinishShow(s1.(rows := ExpirePast(s1.rows, today)), today);
      |s2.rows| == |s.rows| && Cleared(s, s.rows[i], s2.rows[i], today)
  {
  }

  lemma StartedRow(s: Overlay, after: Overlay, r: Row, x: Row, id: int, started: bool, today: int)
    requires Cleared(s, r, x, today) && after.show == Some(id) && (started <==> r.id == id)
    ensures
      var cleared := if x.state == Playing && x.id != id then Finished(x, today) else x;
      var begun := if cleared.id != id then cleared
                   else if cleared.recurrence == Once then cleared.(state := Playing)
                   else cleared.(state := Playing, lastFired := Some(today));
      var last := if begun.state == Playing && begun.id != id then Finished(begun, today) else begun;
      Ticked(s, after, r, last, started, today)
  {
  }

  /** A waiting recurring row whose moment has come is what a tick then starts, if no other row is ripe; in
      any case the tick starts a show, unless the row chosen bears the id of one still on air. */
  lemma RipeShowStarts(s: Overlay, p: nat, now: int, aired: bool, pick: Option<nat>)
    requires Inv(s) && p < |s.rows| && s.rows[p].state == Waiting
    requires s.rows[p].recurrence != Once && RecurringDue(s.rows[p], now)
    requires aired || s.show.None?
    requires Allowed(s, Tick(now, DayOf(now), aired, pick))
    ensures pick.Some? && TickShow(s, now, DayOf(now), aired, pick).started != s.started
    ensures (forall i :: 0 <= i < |s.rows| && i != p ==> !Ripe(s.rows[i], now)) && s.show.None? ==>
              && pick == Some(p)
              && TickShow(s, now, DayOf(now), aired, pick).show == Some(s.rows[p].id)
              && TickShow(s, now, DayOf(now), aired, pick).rows[p].state == Playing
  {
    hide Inv, Start, FinishPlaying;
    var today := DayOf(now);
    var s1 := if aired then FinishShow(s, today) else s;
    var rows := ExpirePast(s1.rows, today);
    RipeKept(s, s1, p, now);
    IsDueInRange(rows, now, pick);
    TickStartsExactly(s, now, today, aired, pick);
    if (forall i :: 0 <= i < |s.rows| && i != p ==> !Ripe(s.rows[i], now)) && s.show.None? {
      DueShowStarts(s, now, today, aired, p);
    }
  }

  /** What is due stays due through the start of a tick, and nothing else comes to be. */
  lemma RipeKept(s: Overlay, s1: Overlay, p: nat, now: int)
    requires p < |s.rows| && s.rows[p].state == Waiting
    requires s.rows[p].recurrence != Once && RecurringDue(s.rows[p], now)
    requires s1 == s || s1 == FinishShow(s, DayOf(now))
    ensures
      var rows := ExpirePast(s1.rows, DayOf(now));
      && |rows| == |s.rows| && Ripe(rows[p], now)
      && (s.show.None? ==> forall i :: 0 <= i < |s.rows| && Ripe(rows[i], now) ==> Ripe(s.rows[i], now))
  {
    RestedDue(s.rows[p], now);
  }

  lemma RestedDue(r: Row, now: int)
    requires r.recurrence != Once && RecurringDue(r, now)
    ensures !Past(r, DayOf(now)) && Finished(r, DayOf(now)).state == Waiting
    ensures forall x: RowState :: RecurringDue(r.(state := x), now)
  {
  }

  /** Every recurring show comes round again. A show that ended, its row inside its run window, is due again
      at the very moment its next occurrence is announced for, and the tick at that moment starts a show;
      and if none is announced, it never becomes due, or is one of the rows `Missed` describes. */
  lemma RecurringShowReturns(s: Overlay, p: nat, t0: int)
    requires Inv(s) && p < |s.rows| && s.show == Some(s.rows[p].id) && s.today <= DayOf(t0)
    requires s.rows[p].recurrence != Once && !Past(s.rows[p], DayOf(t0))
    ensures
      var s1 := FinishShow(s, DayOf(t0)).(today := DayOf(t0));
      var r := s1.rows[p];
      && Inv(s1) && |s1.rows| == |s.rows| && s1.show.None? && SameButState(s.rows[p], r) && r.state == Waiting
      && match NextOccurrence(r, t0)
         case Some(v) =>
           var t := if v > t0 then v else t0;
           && Ripe(r, t)
           && (forall u :: t0 <= u < t ==> !Ripe(r, u))
           && forall aired, pick :: Allowed(s1, Tick(t, DayOf(t), aired, pick)) ==>
                TickShow(s1, t, DayOf(t), aired, pick).started != s1.started
         case None => Missed(r, t0) || forall u :: t0 <= u ==> !Ripe(r, u)
  {
    hide RecurringDue, Missed, NextOccurrence, Inv, IsDue, TickShow;
    var today := DayOf(t0);
    InvDistinct(s);
    FinishedRests(s, p, today);
    FinishShowInv(s, today);
    var s1 := FinishShow(s, today).(today := today);
    var r := s1.rows[p];
    NextOccurrenceRefinesDue(r, t0);
    match NextOccurrence(r, t0)
    case Some(v) =>
      var t := if v > t0 then v else t0;
      forall aired, pick | Allowed(s1, Tick(t, DayOf(t), aired, pick))
        ensures TickShow(s1, t, DayOf(t), aired, pick).started != s1.started {
        RipeShowStarts(s1, p, t, aired, pick);
      }
    case None =>
  }

  /** Starting a show by hand puts it on air at once, over any other, and stopping one leaves nothing on air
      and its row at rest. */
  lemma ByHand(s: Overlay, p: nat, day: int)
    requires Inv(s) && p < |s.rows| && s.today <= day
    ensures
      s.rows[p].state == Waiting ==>
        var r := Step(s, StartNow(p, day));
        && |r.rows| == |s.rows| && r.show == Some(s.rows[p].id) && r.rows[p].state == Playing
        && r.started == s.started + [s.rows[p].serial]
        && forall i :: 0 <= i < |r.rows| && i != p ==> r.rows[i].state != Playing
    ensures
      var r := Step(s, StopShow(day));
      && r.show.None? && |r.rows| == |s.rows|
      && (s.show == Some(s.rows[p].id) ==> AtRest(r.rows[p], day))
  {
    hide Start;
    InvDistinct(s);
    if s.show == Some(s.rows[p].id) { FinishedRests(s, p, day); }
    if s.rows[p].state == Waiting { StartedByHand(s, p, day); }
  }

  lemma StartedByHand(s: Overlay, p: nat, day: int)
    requires RowsDistinct(s.rows) && p < |s.rows|
    ensures
      var f := FinishShow(s, day);
      var rows := Start(FinishPlaying(f.rows, Some(s.rows[p].id), day), s.rows[p].id, day);
      |rows| == |s.rows| && rows[p].state == Playing && forall i :: 0 <= i < |rows| && i != p ==> rows[i].state != Playing
  {
  }

  // ---------------------------------------------------------------- in place

  /** The schedule table and the feeder's note of the show on air. */
  class ShowRunner {
    var rows: seq<Row>
    var show: Option<int>
    ghost var today: int
    ghost var serials: nat
    ghost var kinds: map<nat, Recurrence>
    ghost var started: seq<nat>
    ghost var autoFired: seq<(nat, int)>

    ghost function Model(): Overlay
      reads this
    {
      Overlay(rows, show, today, serials, kinds, started, autoFired)
    }

    method Finish(id: int, day: int)
      modifies this`rows
      ensures Model() == old(Model()).(rows := FinishRow(old(rows), id, day))
    {
      rows := seq(|rows|, i requires 0 <= i < |rows| reads this =>
        if rows[i].id == id then Finished(rows[i], day) else rows[i]);
    }

    method FinishAllPlaying(except: Option<int>, day: int)
      modifies this`rows
      ensures Model() == old(Model()).(rows := FinishPlaying(old(rows), except, day))
    {
      for i := 0 to |rows|
        invariant |rows| == |old(rows)|
        invariant forall k :: 0 <= k < i ==> rows[k] == FinishPlaying(old(rows), except, day)[k]
        invariant forall k :: i <= k < |rows| ==> rows[k] == old(rows)[k]
      {
        if rows[i].state == Playing && except != Some(rows[i].id) {
          rows := rows[i := Finished(rows[i], day)];
        }
      }
    }

    method Expire(day: int)
      modifies this`rows
      ensures Model() == old(Model()).(rows := ExpirePast(old(rows), day))
    {
      for i := 0 to |rows|
        invariant |rows| == |old(rows)|
        invariant forall k :: 0 <= k < i ==> rows[k] == ExpirePast(old(rows), day)[k]
        invariant forall k :: i <= k < |rows| ==> rows[k] == old(rows)[k]
      {
        var r := rows[i];
        if r.state == Waiting && r.recurrence != Once && r.endDate.Some? && r.endDate.value < day {
          rows := rows[i := r.(state := Done)];
        }
      }
    }

    method FinishOverlay(day: int)
      modifies this`rows, this`show
      ensures Model() == FinishShow(old(Model()), day)
    {
      if show.Some? {
        Finish(show.value, day);
        show := None;
      }
    }

    method StartOverlay(r: Row, day: int)
      modifies this`rows, this`show, this`started
      ensures Model() == StartShow(old(Model()), r.id, r.serial, day)
    {
      FinishAllPlaying(Some(r.id), day);
      ghost var cleared := rows;
      for i := 0 to |rows|
        invariant |rows| == |cleared| && Model() == old(Model()).(rows := rows)
        invariant forall k :: 0 <= k < i ==> rows[k] == Start(cleared, r.id, day)[k]
        invariant forall k :: i <= k < |rows| ==> rows[k] == cleared[k]
      {
        if rows[i].id == r.id {
          rows := rows[i := rows[i].(state := Playing)];
          if rows[i].recurrence != Once { rows := rows[i := rows[i].(lastFired := Some(day))]; }
        }
      }
      assert rows == Start(cleared, r.id, day);
      show := Some(r.id);
      started := started + [r.serial];
    }

    /** The show part of a tick, choosing what is due itself. */
    method RunTick(now: int, day: int, aired: bool) returns (ghost pick: Option<nat>)
      modifies this
      ensures IsDue(ExpirePast((if aired then FinishShow(old(Model()), day) else old(Model())).rows, day), now, pick)
      ensures Model() == TickShow(old(Model()), now, day, aired, pick)
    {
      hide IsDue;
      if aired { FinishOverlay(day); }
      Expire(day);
      var chosen := Due(rows, now);
      pick := chosen;
      ghost var before := Model();
      IsDueInRange(rows, now, chosen);
      if chosen.Some? {
        var r := rows[chosen.value];
        if show != Some(r.id) {
          FinishOverlay(day);
          StartOverlay(r, day);
          if r.recurrence != Once { autoFired := autoFired + [(r.serial, DayOf(now))]; }
        }
      }
      assert Model() == FireScheduled(before, now, day, pick);
      FinishAllPlaying(show, day);
      today := day;
    }
  }

  lemma IsDueInRange(rows: seq<Row>, now: int, pick: Option<nat>)
    requires IsDue(rows, now, pick)
    ensures pick.Some? ==> pick.value < |rows|
  {
  }
}
