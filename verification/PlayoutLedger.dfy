/** No song lost, none repeated: every entry the queue accepts is at all times in exactly one of
  pending, aired, dropped with a journalled skip, or taken out by an accepted mutation; and the
  pending entries are used up strictly from the front. */
module PlayoutLedger {
  import opened Basics
  import opened QueueStore
  import opened Playout
  import opened PlayoutSafety
  import opened PlayoutSounding

  /** The queue entries the journal says went on air. */
  function AiredIn(log: seq<Event>): multiset<Entry> {
    if log == [] then multiset{}
    else
      AiredIn(log[..|log| - 1]) +
      match log[|log| - 1]
      case TrackStart(_, Some(e)) => multiset{e}
      case _ => multiset{}
  }

  predicate Journalled(s: State) {
    && s.ledger.aired == AiredIn(s.log)
    && forall e :: e in s.ledger.dropped ==> TrackSkip(e) in s.log
  }

  /** One entry per id among everything ever accepted, and nothing else in the queue or on a deck. */
  predicate Known(s: State) {
    && (forall x, y :: x in s.ledger.accepted && y in s.ledger.accepted && x.id == y.id ==> x == y)
    && (forall e :: e in s.q.entries ==> e in s.ledger.accepted)
    && IdsDistinct(s.q.entries)
    && Sane(s.q)
    && (s.rig.a.entry.Some? ==> s.rig.a.entry.value in s.ledger.accepted)
    && (s.rig.b.entry.Some? ==> s.rig.b.entry.value in s.ledger.accepted)
  }

  predicate Good(s: State) { Known(s) && Journalled(s) }

  /** Each accepted entry is accounted for once. */
  predicate Accounted(s: State) {
    && s.ledger.accepted == multiset(Pending(s.q)) + s.ledger.past + s.ledger.aired +
                            s.ledger.dropped + s.ledger.removed
    && forall e :: e in s.ledger.accepted ==> s.ledger.accepted[e] == 1
  }

  /** How many pending entries were used up between `s` and `r`. */
  function Used(s: State, r: State): int { |Pending(s.q)| - |Pending(r.q)| }

  /** Pending entries leave from the front only, each aired or dropped, and nothing else changes. */
  predicate Flow(s: State, r: State) {
    && Used(s, r) >= 0
    && Pending(r.q) == Pending(s.q)[Used(s, r)..]
    && r.ledger.aired + r.ledger.dropped ==
         s.ledger.aired + s.ledger.dropped + multiset(Pending(s.q)[..Used(s, r)])
    && r.ledger.accepted == s.ledger.accepted
    && r.ledger.past == s.ledger.past
    && r.ledger.removed == s.ledger.removed
  }

  lemma FlowCompose(s: State, m: State, r: State)
    requires Flow(s, m) && Flow(m, r)
    ensures Flow(s, r)
  {
    var i, j := Used(s, m), Used(m, r);
    assert Pending(s.q)[..i + j] == Pending(s.q)[..i] + Pending(s.q)[i..][..j];
  }

  lemma FlowAccounts(s: State, r: State)
    requires Flow(s, r) && Accounted(s)
    ensures Accounted(r)
  {
    var i := Used(s, r);
    assert Pending(s.q) == Pending(s.q)[..i] + Pending(s.q)[i..];
    var gone, left := multiset(Pending(s.q)[..i]), multiset(Pending(r.q));
    assert s.ledger.accepted == gone + left + s.ledger.past + (s.ledger.aired + s.ledger.dropped) + s.ledger.removed;
    assert r.ledger.accepted == left + r.ledger.past + (r.ledger.aired + r.ledger.dropped) + r.ledger.removed;
  }

  /** A new log line that starts no queue track keeps the journal in step. */
  lemma LogKeeps(s: State, e: Event)
    requires Good(s) && !(e.TrackStart? && e.entry.Some?)
    ensures Good(s.Log(e)) && Flow(s, s.Log(e))
  {
    assert s.Log(e).log[..|s.log|] == s.log;
  }

  // ---------------------------------------------------------------- dropping

  lemma {:induction false} WithoutEntryAbsent(s: seq<Entry>, e: Entry)
    requires e !in s
    ensures WithoutEntry(s, e) == s
  {
    if s != [] { WithoutEntryAbsent(s[1..], e); }
  }

  lemma DropHeadQueue(q: Queue)
    requires IdsDistinct(q.entries) && Next(q).Some?
    ensures WithoutEntry(Pending(q), Next(q).value) == Pending(q)[1..]
    ensures Pending(q) == [Next(q).value] + Pending(q)[1..]
    ensures IdsDistinct(Played(q) + Pending(q)[1..])
    ensures forall e :: e in Played(q) + Pending(q)[1..] ==> e in q.entries
  {
    assert q.entries == Played(q) + Pending(q);
    HeadApart(Played(q), Pending(q));
  }

  lemma HeadApart(head: seq<Entry>, tail: seq<Entry>)
    requires tail != [] && IdsDistinct(head + tail)
    ensures WithoutEntry(tail, tail[0]) == tail[1..]
    ensures IdsDistinct(head + tail[1..])
    ensures forall e :: e in head + tail[1..] ==> e in head + tail
  {
    hide IdsDistinct;
    SplitDistinctTail(head, tail);
    FirstOnce(tail);
    WithoutEntryAbsent(tail[1..], tail[0]);
    OneLessDistinct(head, tail);
    assert forall e :: e in tail[1..] ==> e in tail;
  }

  lemma FirstOnce(s: seq<Entry>)
    requires s != [] && IdsDistinct(s)
    ensures s[0] !in s[1..]
  {
  }

  lemma OneLessDistinct(head: seq<Entry>, tail: seq<Entry>)
    requires tail != [] && IdsDistinct(head + tail)
    ensures IdsDistinct(head + tail[1..])
  {
    var all, less := head + tail, head + tail[1..];
    forall i, j | 0 <= i < j < |less| ensures less[i].id != less[j].id {
      var i', j' := if i < |head| then i else i + 1, if j < |head| then j else j + 1;
      assert less[i] == all[i'] && less[j] == all[j'];
    }
  }

  lemma DropHeadLedger(s: State)
    requires IdsDistinct(s.q.entries) && Next(s.q).Some?
    ensures
      var e := Next(s.q).value;
      var r := DropPending(s, e);
      && Pending(r.q) == Pending(s.q)[1..] && Pending(s.q)[..1] == [e]
      && r.ledger == s.ledger.(dropped := s.ledger.dropped + multiset{e})
      && r.log == s.log + [TrackSkip(e)]
      && r.rig == s.rig
      && r.q == s.q.(entries := Played(s.q) + Pending(s.q)[1..])
      && Sane(s.q) == Sane(r.q)
  {
    hide IdsDistinct;
    DropHeadQueue(s.q);
    assert multiset(Pending(s.q)) - multiset(Pending(s.q)[1..]) == multiset{Next(s.q).value};
  }

  lemma JournalGrows(s: State, r: State, e: Event)
    requires Journalled(s) && r.log == s.log + [e]
    requires forall x :: x in r.ledger.dropped ==> x in s.ledger.dropped || TrackSkip(x) in r.log
    requires r.ledger.aired == s.ledger.aired +
               match e { case TrackStart(_, Some(x)) => multiset{x} case _ => multiset{} }
    ensures Journalled(r)
  {
    assert r.log[..|s.log|] == s.log;
    forall x | x in r.ledger.dropped ensures TrackSkip(x) in r.log {
      if x in s.ledger.dropped { assert TrackSkip(x) in s.log; }
    }
  }

  lemma DropHead(s: State)
    requires Good(s) && Next(s.q).Some?
    ensures Good(DropPending(s, Next(s.q).value)) && Flow(s, DropPending(s, Next(s.q).value))
    ensures Used(s, DropPending(s, Next(s.q).value)) == 1
  {
    hide DropPending, Journalled;
    var e := Next(s.q).value;
    var r := DropPending(s, e);
    DropHeadLedger(s);
    DropHeadQueue(s.q);
    assert TrackSkip(e) in r.log;
    JournalGrows(s, r, TrackSkip(e));
  }

  lemma {:induction false} DropUnplayableFlow(w: World, s: State)
    requires Good(s)
    ensures Good(DropUnplayable(w, s)) && Flow(s, DropUnplayable(w, s))
    decreases |Pending(s.q)|
  {
    hide DropPending, Good, Flow;
    GoodTick(s);
    if Next(s.q).Some? && !w.disk(s.clock, Next(s.q).value.path) {
      var s1 := DropPending(s.Tick(), Next(s.q).value);
      DropHead(s.Tick());
      DropUnplayableFlow(w, s1);
      FlowCompose(s, s.Tick(), s1);
      FlowCompose(s, s1, DropUnplayable(w, s1));
    } else {
      FlowSame(s);
    }
  }

  lemma FlowSame(s: State)
    ensures Flow(s, s)
  {
  }

  lemma GoodTick(s: State)
    requires Good(s)
    ensures Good(s.Tick()) && Flow(s, s.Tick())
  {
  }

  // ---------------------------------------------------------------- going on air

  predicate DecksKnown(s: State, rig: Rig) {
    && (rig.a.entry.Some? ==> rig.a.entry.value in s.ledger.accepted)
    && (rig.b.entry.Some? ==> rig.b.entry.value in s.ledger.accepted)
  }

  /** Only decks, flags and counters moved. */
  lemma RigMoved(s: State, r: State)
    requires Good(s) && DecksKnown(s, r.rig)
    requires r.q.entries == s.q.entries && r.q.current == s.q.current
    requires r.ledger == s.ledger && r.log == s.log
    ensures Good(r) && Flow(s, r) && Used(s, r) == 0
  {
  }

  lemma PrimeFreeDeckFlow(w: World, s: State)
    requires Good(s)
    ensures Good(PrimeFreeDeck(w, s)) && Flow(s, PrimeFreeDeck(w, s))
  {
    if Next(s.q).Some? { assert Next(s.q).value in s.q.entries; }
    RigMoved(s, PrimeFreeDeck(w, s));
  }

  lemma EnsurePreloadedFlow(w: World, s: State)
    requires Good(s)
    ensures Good(EnsurePreloaded(w, s)) && Flow(s, EnsurePreloaded(w, s))
  {
    hide DropUnplayable, PrimeFreeDeck, Known, Journalled;
    if !(s.q.emergency || s.q.forced) {
      var s1 := DropUnplayable(w, s);
      DropUnplayableFlow(w, s);
      PrimeFreeDeckFlow(w, s1);
      FlowCompose(s, s1, PrimeFreeDeck(w, s1));
    }
  }

  lemma {:induction false} IndexOfDistinct(entries: seq<Entry>, i: nat)
    requires IdsDistinct(entries) && i < |entries|
    ensures IndexOf(entries, entries[i].id) == Some(i)
  {
    if i > 0 { IndexOfDistinct(entries[1..], i - 1); }
  }

  /** The pending entries before index `i` have each a journalled skip. */
  predicate SkippedUpTo(s: State, i: nat)
    requires i <= |s.q.entries|
  {
    forall k :: Cut(s.q) <= k < i ==> TrackSkip(s.q.entries[k]) in s.log
  }

  lemma HeadMovedQueue(q: Queue, i: nat)
    requires IdsDistinct(q.entries) && Cut(q) <= i < |q.entries|
    ensures
      var r := HeadMoved(q, q.entries[i]);
      && JumpedOver(q, q.entries[i]) == q.entries[Cut(q)..i]
      && Pending(r) == q.entries[i + 1..] == Pending(q)[i + 1 - Cut(q)..]
      && Pending(q)[..i + 1 - Cut(q)] == q.entries[Cut(q)..i] + [q.entries[i]]
      && Sane(r) && IdsDistinct(r.entries) && r.emergency == q.emergency
      && forall e :: e in r.entries ==> e in q.entries
  {
    IndexOfDistinct(q.entries, i);
  }

  /** The journal as it stands just before the track start is written. */
  function BeforeStart(s: State): State { if s.q.emergency then s.Log(EmergencyExit) else s }

  lemma AnnounceFacts(s: State, path: Path, i: nat)
    requires IdsDistinct(s.q.entries) && Cut(s.q) <= i < |s.q.entries|
    ensures
      var e := s.q.entries[i];
      var r := Announce(s, path, Some(e));
      && r.ledger == s.ledger.(aired := s.ledger.aired + multiset{e},
                               dropped := s.ledger.dropped + multiset(s.q.entries[Cut(s.q)..i]))
      && r.log == BeforeStart(s).log + [TrackStart(path, Some(e))]
      && r.rig == s.rig
      && r.q.entries == HeadMoved(s.q, e).entries && r.q.current == HeadMoved(s.q, e).current
  {
    hide HeadMoved, JumpedOver, IdsDistinct;
    HeadMovedQueue(s.q, i);
  }

  lemma AnnounceJournal(s: State, path: Path, i: nat)
    requires Good(s) && Cut(s.q) <= i < |s.q.entries| && SkippedUpTo(s, i)
    ensures Journalled(Announce(s, path, Some(s.q.entries[i])))
  {
    hide Known, Journalled, HeadMoved, JumpedOver, Announce, BeforeStart, Cut;
    var e := s.q.entries[i];
    var r := Announce(s, path, Some(e));
    assert IdsDistinct(s.q.entries) by { GoodIds(s); }
    AnnounceFacts(s, path, i);
    BeforeStartGood(s);
    forall x | x in r.ledger.dropped ensures x in s.ledger.dropped || TrackSkip(x) in r.log {
      if x !in s.ledger.dropped { SkippedThere(s, i, x); }
    }
    JournalGrows(BeforeStart(s), r, TrackStart(path, Some(e)));
  }

  lemma GoodIds(s: State)
    requires Good(s)
    ensures IdsDistinct(s.q.entries)
  {
  }

  lemma SkippedThere(s: State, i: nat, x: Entry)
    requires Cut(s.q) <= i <= |s.q.entries| && SkippedUpTo(s, i) && x in s.q.entries[Cut(s.q)..i]
    ensures TrackSkip(x) in s.log
  {
  }

  lemma AnnounceFlow(s: State, path: Path, i: nat)
    requires Good(s) && Cut(s.q) <= i < |s.q.entries| && SkippedUpTo(s, i)
    ensures
      var r := Announce(s, path, Some(s.q.entries[i]));
      Good(r) && Flow(s, r) && Used(s, r) == i + 1 - Cut(s.q)
  {
    hide IdsDistinct, Journalled, HeadMoved, JumpedOver, Announce, BeforeStart, SkippedUpTo;
    var e := s.q.entries[i];
    var jumped := s.q.entries[Cut(s.q)..i];
    var r := Announce(s, path, Some(e));
    AnnounceJournal(s, path, i);
    HeadMovedQueue(s.q, i);
    AnnounceFacts(s, path, i);
    assert multiset(jumped + [e]) == multiset(jumped) + multiset{e};
    assert Pending(r.q) == Pending(HeadMoved(s.q, e));
  }

  lemma BeforeStartGood(s: State)
    requires Good(s)
    ensures Good(BeforeStart(s)) && BeforeStart(s).ledger == s.ledger && s.log <= BeforeStart(s).log
  {
    if s.q.emergency { LogKeeps(s, EmergencyExit); }
  }

  /** What an action that reports to the ledger leaves: good books, and pending used from the front. */
  predicate Clean(s: State, r: State) { Good(r) && Flow(s, r) }

  lemma CleanThen(s: State, m: State, r: State)
    requires Clean(s, m) && Clean(m, r)
    ensures Clean(s, r)
  {
    FlowCompose(s, m, r);
  }

  /** Going on air with the pending entry at index `i`, those before it having been skipped. */
  lemma GoOnAirFlow(w: World, s: State, d: Which, i: nat, fadeIn: bool, hold: bool)
    requires Good(s) && Cut(s.q) <= i < |s.q.entries| && SkippedUpTo(s, i)
    ensures
      var e := s.q.entries[i];
      Clean(s, GoOnAir(w, s, d, e.path, Some(e), fadeIn, hold))
  {
    hide Good, Flow, Announce, EnsurePreloaded;
    var e := s.q.entries[i];
    var entry := Some(e);
    var s1 := if AlreadyLoaded(w, s.rig.Get(d), e.path) then s
              else s.(rig := s.rig.Load(d, e.path, entry, OnAir, w.loadId(s.clock))).Tick();
    var s2 := s1.(rig := s1.rig.Air(d, e.path, entry, fadeIn, !hold && !s.paused));
    RigAired(s, s2, d, e);
    AnnounceFlow(s2, e.path, i);
    var s3 := Announce(s2, e.path, entry);
    var s4 := if hold then s3.(stopAfter := false, paused := true).Log(StoppedAfterSong) else s3;
    HoldFlow(s3, hold);
    EnsurePreloadedFlow(w, s4);
    CleanThen(s, s2, s3);
    CleanThen(s, s3, s4);
    CleanThen(s, s4, EnsurePreloaded(w, s4));
  }

  lemma RigAired(s: State, r: State, d: Which, e: Entry)
    requires Good(s) && e in s.q.entries
    requires r == s.(rig := r.rig, clock := r.clock)
    requires r.rig.Get(d).entry == Some(e) && r.rig.Get(Other(d)).entry == s.rig.Get(Other(d)).entry
    ensures Clean(s, r)
  {
    RigMoved(s, r);
  }

  lemma HoldFlow(s: State, hold: bool)
    requires Good(s)
    ensures Clean(s, if hold then s.(stopAfter := false, paused := true).Log(StoppedAfterSong) else s)
  {
    var s1 := s.(stopAfter := false, paused := true);
    RigMoved(s, s);
    RigMoved(s, s1);
    LogKeeps(s1, StoppedAfterSong);
    CleanThen(s, s1, s1.Log(StoppedAfterSong));
  }

  /** Filler is no queue business. */
  lemma GoOnAirFillerFlow(w: World, s: State, d: Which, path: Path)
    requires Good(s)
    ensures Clean(s, GoOnAir(w, s, d, path, None, false, false))
  {
    hide Journalled, EnsurePreloaded;
    var s1 := if AlreadyLoaded(w, s.rig.Get(d), path) then s
              else s.(rig := s.rig.Load(d, path, None, OnAir, w.loadId(s.clock))).Tick();
    var s2 := s1.(rig := s1.rig.Air(d, path, None, false, !s.paused));
    RigMoved(s, s2);
    LogKeeps(s2, TrackStart(path, None));
    EnsurePreloadedFlow(w, s2.Log(TrackStart(path, None)));
    CleanThen(s, s2, s2.Log(TrackStart(path, None)));
    CleanThen(s, s2.Log(TrackStart(path, None)), GoOnAir(w, s, d, path, None, false, false));
  }

  // ---------------------------------------------------------------- advancing and failing over

  lemma StoppedKnown(s: State)
    requires Good(s)
    ensures Clean(s, s.(rig := s.rig.StopOnAir()))
  {
    hide Good, Journalled, Flow;
    assert DecksKnown(s, s.rig.StopOnAir()) by { KnownDecks(s); }
    RigMoved(s, s.(rig := s.rig.StopOnAir()));
  }

  lemma StoppedRoleKnown(s: State, role: Role)
    requires Good(s)
    ensures Clean(s, s.(rig := s.rig.StopRole(role)))
  {
    hide Good, Journalled, Flow;
    assert DecksKnown(s, s.rig.StopRole(role)) by { KnownDecks(s); }
    RigMoved(s, s.(rig := s.rig.StopRole(role)));
  }

  lemma KnownDecks(s: State)
    requires Good(s)
    ensures DecksKnown(s, s.rig)
  {
  }

  lemma PlayFillerFlow(w: World, s: State)
    requires Good(s)
    ensures Clean(s, PlayFiller(w, s))
  {
    hide Good, Flow, GoOnAir;
    StoppedKnown(s);
    var s1 := s.(rig := s.rig.StopOnAir());
    var d := s1.rig.FreeOrFirst();
    var candidates := w.filler(s1.clock);
    if candidates != [] {
      var p := candidates[s1.fillerIndex % |candidates|];
      var s2 := s1.Tick().(fillerIndex := s1.fillerIndex + 1);
      FlagsMoved(s1, s2);
      GoOnAirFillerFlow(w, s2, d, p);
      CleanThen(s, s1, s2);
      CleanThen(s, s2, PlayFiller(w, s));
    } else {
      var s2 := GoOnAir(w, s1.Tick(), d, w.bakedIn, None, false, false);
      FlagsMoved(s1, s1.Tick());
      GoOnAirFillerFlow(w, s1.Tick(), d, w.bakedIn);
      FlagsMoved(s2, PlayFiller(w, s));
      CleanThen(s, s1, s1.Tick());
      CleanThen(s, s1.Tick(), s2);
      CleanThen(s, s2, PlayFiller(w, s));
    }
  }

  /** Counters, flags and players moved; the decks still carry the same entries. */
  lemma FlagsMoved(s: State, r: State)
    requires Good(s)
    requires r.rig.a.entry == s.rig.a.entry && r.rig.b.entry == s.rig.b.entry
    requires r.q.entries == s.q.entries && r.q.current == s.q.current
    requires r.ledger == s.ledger && r.log == s.log
    ensures Clean(s, r)
  {
    RigMoved(s, r);
  }

  lemma PlayNextEmergencyFlow(w: World, s: State)
    requires Good(s)
    ensures Clean(s, PlayNextEmergency(w, s))
  {
    hide Good, Flow, GoOnAir, PlayFiller;
    FlagsMoved(s, s.Tick());
    if s.q.forced || Next(s.q).None? {
      PlayFillerFlow(w, s);
    } else if w.disk(s.clock, Next(s.q).value.path) {
      StoppedKnown(s.Tick());
      var s1 := s.Tick().(rig := s.rig.StopOnAir());
      CleanThen(s, s.Tick(), s1);
      GoOnAirFlow(w, s1, s1.rig.FreeOrFirst(), s.q.current + 1, false, false);
      CleanThen(s, s1, PlayNextEmergency(w, s));
    } else {
      PlayFillerFlow(w, s.Tick());
      CleanThen(s, s.Tick(), PlayNextEmergency(w, s));
    }
  }

  lemma EnterEmergencyFlow(w: World, s: State)
    requires Good(s)
    ensures Clean(s, EnterEmergency(w, s))
  {
    hide Good, Flow, PlayNextEmergency;
    FlagsMoved(s, s);
    LogKeeps(s, EmergencyEnter);
    var q1: Queue := s.q.(emergency := true);
    var s1 := if s.q.emergency then s else s.Log(EmergencyEnter).(q := q1, saved := q1);
    if !s.q.emergency {
      FlagsMoved(s.Log(EmergencyEnter), s1);
      CleanThen(s, s.Log(EmergencyEnter), s1);
    }
    StoppedRoleKnown(s1, Preloaded);
    var s2 := s1.(rig := s1.rig.StopRole(Preloaded));
    PlayNextEmergencyFlow(w, s2);
    CleanThen(s, s1, s2);
    CleanThen(s, s2, PlayNextEmergency(w, s2));
  }

  lemma {:induction false} ScanFlow(w: World, s: State, idx: nat, hold: bool)
    requires Good(s) && Cut(s.q) <= idx && (idx <= |s.q.entries| ==> SkippedUpTo(s, idx))
    ensures Clean(s, Scan(w, s, idx, hold))
    decreases |s.q.entries| - idx
  {
    hide Good, Flow, GoOnAir, EnterEmergency;
    if idx >= |s.q.entries| {
      EnterEmergencyFlow(w, s);
    } else {
      FlagsMoved(s, s.Tick());
      var e := s.q.entries[idx];
      if w.disk(s.clock, e.path) {
        GoOnAirFlow(w, s.Tick(), s.rig.FreeOrFirst(), idx, false, hold);
        CleanThen(s, s.Tick(), Scan(w, s, idx, hold));
      } else {
        var s1 := s.Tick().Log(TrackSkip(e));
        LogKeeps(s.Tick(), TrackSkip(e));
        assert TrackSkip(e) == s1.log[|s.log|];
        ScanFlow(w, s1, idx + 1, hold);
        CleanThen(s, s.Tick(), s1);
        CleanThen(s, s1, Scan(w, s, idx, hold));
      }
    }
  }

  lemma AdvanceOrFailFlow(w: World, s: State, hold: bool)
    requires Good(s)
    ensures Clean(s, AdvanceOrFail(w, s, hold))
  {
    hide Flow, Scan, PlayNextEmergency, Journalled;
    if s.q.emergency {
      PlayNextEmergencyFlow(w, s);
    } else {
      StoppedKnown(s);
      var s1 := s.(rig := s.rig.StopOnAir());
      ScanFlow(w, s1, s.q.current + 1, hold);
      CleanThen(s, s1, Scan(w, s1, s.q.current + 1, hold));
    }
  }

  lemma KickFlow(w: World, s: State)
    requires Good(s)
    ensures Clean(s, Kick(w, s))
  {
    if s.q.emergency { EnterEmergencyFlow(w, s); } else { AdvanceOrFailFlow(w, s, false); }
  }

  // ---------------------------------------------------------------- owner actions

  lemma DeckEmptied(s: State, e: Event, rig: Rig)
    requires Good(s) && !e.TrackStart?
    requires forall d :: rig.Get(d).entry.None? || rig.Get(d).entry == s.rig.Get(d).entry
    ensures Clean(s, s.Log(e).(rig := rig))
  {
    hide Journalled;
    LogKeeps(s, e);
    assert rig.a == rig.Get(A) && rig.b == rig.Get(B) && s.rig.a == s.rig.Get(A) && s.rig.b == s.rig.Get(B);
    RigMoved(s.Log(e), s.Log(e).(rig := rig));
    CleanThen(s, s.Log(e), s.Log(e).(rig := rig));
  }

  /** With one entry per id, what the engine holds preloaded is the next entry itself. */
  lemma PreloadedIsNext(w: World, s: State, d: Which)
    requires Sounding(w, s) && Good(s) && s.rig.Get(d).role == Preloaded
    ensures Next(s.q).Some? && s.rig.Get(d).entry == Next(s.q)
  {
    hide DeckOk, Journalled;
    assert Next(s.q).Some? ==> Next(s.q).value in s.q.entries;
  }

  /** With one entry per id, what a live engine has on air is the entry under the play-head itself. */
  lemma OnAirIsCurrent(w: World, s: State)
    requires Live(w, s) && Good(s) && AirEntry(s.rig).Some?
    ensures 0 <= s.q.current < |s.q.entries| && AirEntry(s.rig) == Some(s.q.entries[s.q.current])
  {
    hide DeckOk, Journalled;
    assert s.q.entries[s.q.current] in s.q.entries;
    assert s.rig.onair.value == A || s.rig.onair.value == B;
  }

  lemma OnEndFileFlow(w: World, s: State, d: Which, client: nat, entryId: Option<int>, reason: Reason)
    requires Sounding(w, s) && Good(s)
    ensures Clean(s, OnEndFile(w, s, d, client, entryId, reason))
  {
    hide Good, Flow, Sounding, EnsurePreloaded, AdvanceOrFail, PlayNextEmergency, DropPending;
    FlagsMoved(s, s);
    var k := s.rig.Get(d);
    var r := OnEndFile(w, s, d, client, entryId, reason);
    if !EndFileStale(k, client, entryId) && reason != OtherReason {
      var ended := k.(player := k.player.(file := None));
      var e := TrackEnd(k.path, reason);
      var s1 := s.Log(e).(rig := s.rig.Put(d, ended.Reset()));
      DeckEmptied(s, e, s.rig.Put(d, ended));
      DeckEmptied(s, e, s.rig.Put(d, ended.Reset()));
      if k.role == Fading {
        EnsurePreloadedFlow(w, s1);
        CleanThen(s, s1, r);
      } else if k.role == Preloaded {
        PreloadedIsNext(w, s, d);
        DropHead(s1);
        var s2 := DropPending(s1, k.entry.value);
        EnsurePreloadedFlow(w, s2);
        CleanThen(s, s1, s2);
        CleanThen(s, s2, r);
      } else if k.role == OnAir {
        var rig := s.rig.Put(d, ended).Put(d, ended.Reset());
        var s2 := s.Log(e).(rig := rig.(onair := if rig.onair == Some(d) then None else rig.onair));
        DeckEmptied(s, e, s2.rig);
        if s.q.emergency { PlayNextEmergencyFlow(w, s2); } else { AdvanceOrFailFlow(w, s2, s2.stopAfter); }
        CleanThen(s, s2, r);
      }
    }
  }

  lemma OnXfadeDueFlow(w: World, s: State, d: Which, client: nat, positionKnown: bool)
    requires Good(s)
    ensures Clean(s, OnXfadeDue(w, s, d, client, positionKnown))
  {
    hide Good, Flow, GoOnAir;
    FlagsMoved(s, s);
    FlagsMoved(s, s.Tick());
    var k := s.rig.Get(d);
    if Next(s.q).Some? {
      var n := Next(s.q).value;
      var fading := s.rig.Put(d, k.(role := Fading, fade := FadeOut)).(onair := None);
      var s1 := s.Tick().(rig := fading).Log(Crossfade(k.path, n.path));
      DeckEmptied(s.Tick(), Crossfade(k.path, n.path), fading);
      CleanThen(s, s.Tick(), s1);
      GoOnAirFlow(w, s1, Other(d), s.q.current + 1, IsSong(n.source), false);
      CleanThen(s, s1, GoOnAir(w, s1, Other(d), n.path, Some(n), IsSong(n.source), false));
    }
  }

  lemma OnOperateFlow(w: World, s: State, op: EngineOp)
    requires Good(s)
    ensures Clean(s, OnOperate(w, s, op))
  {
    hide Good, Flow, AdvanceOrFail, EnterEmergency, PlayNextEmergency;
    FlagsMoved(s, s);
    StoppedRoleKnown(s, Fading);
    var r := OnOperate(w, s, op);
    var stopped := s.(rig := s.rig.StopRole(Fading));
    match op
    case Skip =>
      AdvanceOrFailFlow(w, stopped, false);
      CleanThen(s, stopped, r);
    case Pause =>
      DeckEmptied(s, PauseEvent, SetPauseAll(s.rig, true));
      FlagsMoved(s.Log(PauseEvent).(rig := SetPauseAll(s.rig, true)), r);
      CleanThen(s, s.Log(PauseEvent).(rig := SetPauseAll(s.rig, true)), r);
    case Resume =>
      var s1 := s.Log(ResumeEvent).(rig := SetPauseAll(s.rig, false));
      DeckEmptied(s, ResumeEvent, SetPauseAll(s.rig, false));
      FlagsMoved(s1, s1.(paused := false));
      CleanThen(s, s1, s1.(paused := false));
      AdvanceOrFailFlow(w, s1.(paused := false), false);
      if s.rig.onair.None? { CleanThen(s, s1.(paused := false), r); }
    case StopAfter =>
      LogKeeps(s, StopAfterToggled(!s.stopAfter));
      FlagsMoved(s.Log(StopAfterToggled(!s.stopAfter)), r);
      CleanThen(s, s.Log(StopAfterToggled(!s.stopAfter)), r);
    case Emergency =>
      if !s.q.forced {
        var q1: Queue := s.q.(forced := true);
        var s1 := stopped.Log(EmergencyForced);
        LogKeeps(stopped, EmergencyForced);
        CleanThen(s, stopped, s1);
        FlagsMoved(s1, s1.(q := q1, saved := q1));
        CleanThen(s, s1, s1.(q := q1, saved := q1));
        EnterEmergencyFlow(w, s1.(q := q1, saved := q1));
        CleanThen(s, s1.(q := q1, saved := q1), r);
      }
    case ResumeNormal =>
      if s.q.forced {
        var q1: Queue := s.q.(forced := false);
        var s1 := s.Log(EmergencyForceCleared);
        LogKeeps(s, EmergencyForceCleared);
        FlagsMoved(s1, s1.(q := q1, saved := q1));
        CleanThen(s, s1, s1.(q := q1, saved := q1));
        PlayNextEmergencyFlow(w, s1.(q := q1, saved := q1));
        if q1.emergency { CleanThen(s, s1.(q := q1, saved := q1), r); }
      }
    case UnknownEngineOp =>
  }

  lemma OnDeckDeadFlow(w: World, s: State, d: Which, deadClient: Option<nat>)
    requires Good(s)
    ensures Clean(s, OnDeckDead(w, s, d, deadClient))
  {
    hide Good, Flow, Kick, EnsurePreloaded;
    FlagsMoved(s, s);
    var k := s.rig.Get(d);
    var rig := s.rig.Put(d, Replaced(k)).(onair := if s.rig.onair == Some(d) then None else s.rig.onair);
    var s1 := s.(rig := rig).Log(MpvRestart(d));
    DeckEmptied(s, MpvRestart(d), rig);
    KickFlow(w, s1);
    EnsurePreloadedFlow(w, s1);
    CleanThen(s, s1, Kick(w, s1));
    CleanThen(s, s1, EnsurePreloaded(w, s1));
  }

  lemma StartFlow(w: World, s: State)
    requires Good(s) && s.saved == s.q
    ensures Clean(s, Start(w, s))
  {
    hide Good, Flow, Kick;
    var rig := Rig(Replaced(s.rig.a), Replaced(s.rig.b), None);
    DeckEmptied(s, EngineStart, rig);
    var s1 := s.Log(EngineStart).(rig := rig);
    var s2 := s1.(paused := false, stopAfter := false, fillerIndex := 0);
    FlagsMoved(s1, s2);
    CleanThen(s, s1, s2);
    KickFlow(w, s2);
    CleanThen(s, s2, Start(w, s));
  }

  // ---------------------------------------------------------------- mutations

  /** What clients owe the queue: entries with ids never used before, and reorders that name no
      entry twice. Anything else about a mutation is free. */
  predicate WellFormed(s: State, m: Mutation) {
    && IdsDistinct(Brought(m.op))
    && (forall e, x :: e in Brought(m.op) && x in s.ledger.accepted ==> e.id != x.id)
    && (m.op.Reorder? ==> NamesOnce(Pending(s.q), m.op.order))
  }

  /** The state an accepted mutation leaves before the engine reacts to it. */
  function Requeued(s: State, m: Mutation): State {
    var q1 := Mutated(s.q, m);
    s.(q := q1, saved := q1,
       ledger := s.ledger.(accepted := s.ledger.accepted + multiset(Brought(m.op)),
                           removed := s.ledger.removed + TakenOut(s.q, m.op)))
  }

  lemma {:induction false} WithoutSublist(s: seq<Entry>, ids: set<Id>)
    ensures forall e :: e in Without(s, ids) ==> e in s
    ensures IdsDistinct(s) ==> IdsDistinct(Without(s, ids))
    ensures multiset(Without(s, ids)) <= multiset(s)
  {
    if s != [] {
      assert s == [s[0]] + s[1..];
      WithoutSublist(s[1..], ids);
      assert IdsDistinct(s) ==> forall e :: e in s[1..] ==> e.id != s[0].id;
    }
  }

  lemma SameBagDistinct(s: seq<Entry>, t: seq<Entry>)
    requires multiset(s) == multiset(t) && IdsDistinct(s)
    ensures IdsDistinct(t)
    ensures forall e :: e in t <==> e in s
  {
    forall e ensures e in t <==> e in s {
      assert e in t <==> e in multiset(t);
      assert e in s <==> e in multiset(s);
    }
    forall i, j | 0 <= i < j < |t| ensures t[i].id != t[j].id {
      DistinctCounts(s, t[i]);
      assert t == t[..j] + t[j..];
      assert t[i] in t[..j] && t[j] in t[j..];
      assert multiset(t[..j])[t[i]] >= 1 && multiset(t[j..])[t[j]] >= 1;
      assert t[i] in s && t[j] in s;
    }
  }

  lemma SplitDistinct(head: seq<Entry>, tail: seq<Entry>, tail': seq<Entry>)
    requires IdsDistinct(head + tail) && IdsDistinct(tail')
    requires forall e :: e in tail' ==> e in tail
    ensures IdsDistinct(head + tail')
  {
    forall i, j | 0 <= i < j < |head + tail'| ensures (head + tail')[i].id != (head + tail')[j].id {
      if i < |head| <= j {
        var e := tail'[j - |head|];
        assert e in tail' && e in tail;
        var k :| 0 <= k < |tail| && tail[k] == e;
        assert (head + tail)[i] == head[i] && (head + tail)[|head| + k] == e;
      } else if j < |head| {
        assert (head + tail)[i] == head[i] && (head + tail)[j] == head[j];
      }
    }
  }

  /** What a mutation makes of a queue: the pending bag, and ids still distinct. */
  predicate Requeues(q: Queue, op: QueueOp, q1: Queue) {
    && IdsDistinct(q1.entries)
    && (forall e :: e in q1.entries ==> e in q.entries || e in Brought(op))
    && multiset(Pending(q1)) + TakenOut(q, op) == multiset(Pending(q)) + multiset(Brought(op))
  }

  lemma TailRequeued(q: Queue, op: QueueOp, q1: Queue, tail: seq<Entry>)
    requires IdsDistinct(q.entries) && IdsDistinct(tail) && Brought(op) == []
    requires q1.entries == Played(q) + tail && q1.current == q.current
    requires forall e :: e in tail ==> e in Pending(q)
    requires multiset(tail) + TakenOut(q, op) == multiset(Pending(q))
    ensures Requeues(q, op, q1)
  {
    hide IdsDistinct, TakenOut;
    assert q.entries == Played(q) + Pending(q);
    SplitDistinct(Played(q), Pending(q), tail);
    assert Pending(q1) == tail;
  }

  lemma GrownRequeued(q: Queue, op: QueueOp, q1: Queue)
    requires IdsDistinct(q.entries) && Sane(q) && IdsDistinct(Brought(op))
    requires forall e, x :: e in Brought(op) && x in q.entries ==> e.id != x.id
    requires TakenOut(q, op) == multiset{} && q1.current == q.current
    requires q1.entries == q.entries + Brought(op) || q1.entries == Played(q) + Brought(op) + Pending(q)
    ensures Requeues(q, op, q1)
  {
    hide IdsDistinct, TakenOut, Brought, Played, Pending;
    var played, pending, incoming := Played(q), Pending(q), Brought(op);
    WholeQueue(q);
    if q1.entries == q.entries + incoming {
      assert q1.entries == played + (pending + incoming);
      TailReplaced(q, q1, pending + incoming);
      assert q.entries + [] == q.entries && q.entries + incoming + [] == q1.entries;
      InsertDistinct(q.entries, incoming, []);
    } else {
      assert q1.entries == played + (incoming + pending);
      TailReplaced(q, q1, incoming + pending);
      InsertDistinct(played, incoming, pending);
    }
    assert multiset(Pending(q1)) == multiset(pending) + multiset(incoming);
    assert forall e :: e in q1.entries ==> e in played || e in pending || e in incoming;
  }

  lemma WholeQueue(q: Queue)
    ensures q.entries == Played(q) + Pending(q)
  {
  }

  lemma InsertDistinct(head: seq<Entry>, mid: seq<Entry>, tail: seq<Entry>)
    requires IdsDistinct(head + tail) && IdsDistinct(mid)
    requires forall e, x :: e in mid && x in head + tail ==> e.id != x.id
    ensures IdsDistinct(head + mid + tail)
  {
    var all := head + mid + tail;
    var n := |head| + |mid|;
    assert forall k :: 0 <= k < |head| ==> all[k] == (head + tail)[k];
    assert forall k :: |head| <= k < n ==> all[k] == mid[k - |head|];
    assert forall k :: n <= k < |all| ==> all[k] == (head + tail)[k - |mid|];
  }

  lemma ReorderRequeued(q: Queue, order: seq<Id>)
    requires IdsDistinct(q.entries) && NamesOnce(Pending(q), order)
    ensures Requeues(q, Reorder(order), q.(entries := Played(q) + Reordered(Pending(q), order)))
  {
    assert q.entries == Played(q) + Pending(q);
    SplitDistinctTail(Played(q), Pending(q));
    ReorderKeepsEntries(Pending(q), order);
    SameBagDistinct(Pending(q), Reordered(Pending(q), order));
    TailRequeued(q, Reorder(order), q.(entries := Played(q) + Reordered(Pending(q), order)),
                 Reordered(Pending(q), order));
  }

  lemma RemoveRequeued(q: Queue, ids: set<Id>)
    requires IdsDistinct(q.entries)
    ensures Requeues(q, Remove(ids), q.(entries := Played(q) + Without(Pending(q), ids)))
  {
    hide IdsDistinct, Requeues, Without, Played, Pending;
    WholeQueue(q);
    SplitDistinctTail(Played(q), Pending(q));
    var rest := Without(Pending(q), ids);
    WithoutSublist(Pending(q), ids);
    BagSplit(multiset(Pending(q)), multiset(rest));
    PlayedReaches(q);
    TailRequeued(q, Remove(ids), q.(entries := Played(q) + rest), rest);
  }

  lemma BagSplit(whole: multiset<Entry>, part: multiset<Entry>)
    requires part <= whole
    ensures part + (whole - part) == whole
  {
  }

  lemma PlayedReaches(q: Queue)
    ensures q.current <= |Played(q)|
  {
  }

  lemma RequeuedQueue(q: Queue, m: Mutation)
    requires IdsDistinct(q.entries) && Sane(q) && Judge(q, m) == Accepted && IdsDistinct(Brought(m.op))
    requires forall e, x :: e in Brought(m.op) && x in q.entries ==> e.id != x.id
    requires m.op.Reorder? ==> NamesOnce(Pending(q), m.op.order)
    ensures Requeues(q, m.op, Mutated(q, m))
  {
    var q1 := Mutated(q, m);
    match m.op
    case Replace(incoming) => assert Pending(q1) == incoming;
    case Append(_) => GrownRequeued(q, m.op, q1);
    case InsertNext(_) => GrownRequeued(q, m.op, q1);
    case ClearPending =>
      NoneDistinct();
      TailRequeued(q, m.op, q1, []);
    case Reorder(order) => ReorderRequeued(q, order);
    case Remove(ids) => RemoveRequeued(q, ids);
    case UnknownOp =>
  }

  lemma NoneDistinct()
    ensures IdsDistinct([])
  {
  }

  lemma SplitDistinctTail(head: seq<Entry>, tail: seq<Entry>)
    requires IdsDistinct(head + tail)
    ensures IdsDistinct(tail)
  {
    assert forall k :: 0 <= k < |tail| ==> tail[k] == (head + tail)[|head| + k];
  }

  lemma RequeuedGood(s: State, m: Mutation)
    requires Good(s) && WellFormed(s, m) && Judge(s.q, m) == Accepted
    ensures Good(Requeued(s, m)) && Requeues(s.q, m.op, Requeued(s, m).q)
  {
    hide Mutated, Journalled, Brought, TakenOut, Requeues;
    RequeuedQueue(s.q, m);
    MutatedSane(s.q, m);
    var r := Requeued(s, m);
    BroughtUnique(s.ledger.accepted, Brought(m.op));
    RequeuesMembers(s.q, m.op, r.q);
    assert Journalled(r) by { JournalSame(s, r); }
  }

  lemma BroughtUnique(accepted: multiset<Entry>, incoming: seq<Entry>)
    requires IdsDistinct(incoming)
    requires forall x, y :: x in accepted && y in accepted && x.id == y.id ==> x == y
    requires forall e, x :: e in incoming && x in accepted ==> e.id != x.id
    ensures forall x, y :: x in accepted + multiset(incoming) && y in accepted + multiset(incoming) && x.id == y.id ==> x == y
  {
    forall x, y | x in accepted + multiset(incoming) && y in accepted + multiset(incoming) && x.id == y.id ensures x == y {
      assert x in accepted || x in incoming;
      assert y in accepted || y in incoming;
    }
  }

  lemma RequeuesMembers(q: Queue, op: QueueOp, q1: Queue)
    requires Requeues(q, op, q1)
    ensures IdsDistinct(q1.entries) && forall e :: e in q1.entries ==> e in q.entries || e in Brought(op)
  {
  }

  lemma JournalSame(s: State, r: State)
    requires Journalled(s) && r.log == s.log && r.ledger.aired == s.ledger.aired && r.ledger.dropped == s.ledger.dropped
    ensures Journalled(r)
  {
  }

  lemma RequeuedAccounted(s: State, m: Mutation)
    requires Good(s) && Accounted(s) && WellFormed(s, m) && Judge(s.q, m) == Accepted
    requires Requeues(s.q, m.op, Mutated(s.q, m))
    ensures Accounted(Requeued(s, m))
  {
    hide Mutated, Journalled, TakenOut, Brought, Pending;
    var r := Requeued(s, m);
    var incoming := Brought(m.op);
    forall e | e in r.ledger.accepted ensures r.ledger.accepted[e] == 1 {
      if e in incoming { DistinctCounts(incoming, e); }
    }
    var rest := s.ledger.past + s.ledger.aired + s.ledger.dropped + s.ledger.removed;
    assert s.ledger.accepted == multiset(Pending(s.q)) + rest;
    assert r.ledger.accepted == multiset(Pending(s.q)) + multiset(incoming) + rest;
    assert r.ledger.accepted == multiset(Pending(r.q)) + TakenOut(s.q, m.op) + rest;
    assert r.ledger.accepted == multiset(Pending(r.q)) + s.ledger.past + s.ledger.aired +
                                s.ledger.dropped + r.ledger.removed;
  }

  lemma OnMutationBooks(w: World, s: State, m: Mutation)
    requires Good(s) && Accounted(s) && (Judge(s.q, m) == Accepted ==> WellFormed(s, m))
    ensures Good(OnMutation(w, s, m)) && Accounted(OnMutation(w, s, m))
    ensures Judge(s.q, m) == Accepted ==> Clean(Requeued(s, m), OnMutation(w, s, m))
  {
    hide Good, Flow, Accounted, AdvanceOrFail, PlayNextEmergency, EnsurePreloaded;
    if Judge(s.q, m) == Accepted {
      var s1 := Requeued(s, m);
      var r := OnMutation(w, s, m);
      RequeuedGood(s, m);
      RequeuedAccounted(s, m);
      FlagsMoved(s1, s1);
      if s1.q.forced {
      } else if m.op.Replace? {
        StoppedRoleKnown(s1, Fading);
        var s2 := s1.(rig := s1.rig.StopRole(Fading));
        AdvanceOrFailFlow(w, s2, false);
        CleanThen(s1, s2, r);
      } else if s1.q.emergency {
        PlayNextEmergencyFlow(w, s1);
      } else if s1.rig.onair.None? {
        AdvanceOrFailFlow(w, s1, false);
      } else {
        EnsurePreloadedFlow(w, s1);
      }
      FlowAccounts(s1, r);
    }
  }

  // ---------------------------------------------------------------- every run

  predicate Books(w: World, s: State) { Sounding(w, s) && Good(s) && Accounted(s) }

  /** The clients' side of the bargain over a whole run. */
  predicate Orderly(w: World, s: State, acts: seq<Action>) {
    forall k :: 0 <= k < |acts| ==>
      var now := Run(w, s, acts[..k]);
      acts[k].Mutate? && Judge(now.q, acts[k].mutation) == Accepted ==> WellFormed(now, acts[k].mutation)
  }

  /** Every owner action but an accepted mutation uses up pending entries from the front alone. */
  lemma StepFlow(w: World, s: State, act: Action)
    requires Sounding(w, s) && Good(s) && (act.Mutate? ==> Judge(s.q, act.mutation) != Accepted)
    ensures Clean(s, Step(w, s, act))
  {
    hide Good, Flow, OnEndFile, OnOperate, OnXfadeDue, OnDeckDead, Kick, Start, RigOk;
    FlagsMoved(s, s);
    match act
    case EndFile(d, client, entryId, reason) => OnEndFileFlow(w, s, d, client, entryId, reason);
    case Mutate(m) =>
    case Operate(op) => OnOperateFlow(w, s, op);
    case XfadeDue(d, client, known) => OnXfadeDueFlow(w, s, d, client, known);
    case DeckDead(d, client) => OnDeckDeadFlow(w, s, d, client);
    case KickAction => KickFlow(w, s);
    case MixerRamp(d, client, volume, done) => FlagsMoved(s, OnMixerRamp(s, d, client, volume, done));
    case EngineRestart => StartFlow(w, s);
  }

  lemma StepBooks(w: World, s: State, act: Action)
    requires Books(w, s)
    requires act.Mutate? && Judge(s.q, act.mutation) == Accepted ==> WellFormed(s, act.mutation)
    ensures Books(w, Step(w, s, act))
  {
    hide Sounding, Good, Flow, Accounted, OnMutation;
    StepSounds(w, s, act);
    if act.Mutate? {
      OnMutationBooks(w, s, act.mutation);
    } else {
      StepFlow(w, s, act);
      FlowAccounts(s, Step(w, s, act));
    }
  }

  lemma BooksBalance(w: World, s: State)
    requires Books(w, s)
    ensures s.ledger.aired == AiredIn(s.log)
    ensures forall e :: e in s.ledger.dropped ==> TrackSkip(e) in s.log
    ensures forall e :: e in s.ledger.accepted ==>
              multiset(Pending(s.q))[e] + s.ledger.past[e] + s.ledger.aired[e] +
              s.ledger.dropped[e] + s.ledger.removed[e] == 1
  {
    hide Sounding;
  }

  lemma BootGood(file: Queue)
    requires Sane(file) && IdsDistinct(file.entries)
    ensures Good(Boot(file))
  {
  }

  lemma BootAccounted(file: Queue)
    requires IdsDistinct(file.entries)
    ensures Accounted(Boot(file))
  {
    hide IdsDistinct;
    forall e | e in file.entries ensures multiset(file.entries)[e] == 1 {
      DistinctCounts(file.entries, e);
    }
    assert file.entries == Played(file) + Pending(file);
  }
}
