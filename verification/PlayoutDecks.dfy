/** What the handlers do to the decks and to the next choice, beyond keeping the invariant: hard cuts, what is
  preloaded and how it is used, failed and dead players, and what an advance airs. */
module PlayoutDecks {
  import opened Basics
  import opened QueueStore
  import opened Playout
  import opened PlayoutSafety
  import opened PlayoutSounding
  import opened PlayoutLedger
  import opened PlayoutChoice

  // ---------------------------------------------------------------- hard cuts

  predicate NoneFading(r: Rig) { r.a.role != Fading && r.b.role != Fading }

  lemma StopsFading(r: Rig)
    ensures NoneFading(r.StopRole(Fading))
    ensures forall role: Role :: NoneFading(r) ==> NoneFading(r.StopRole(role))
    ensures NoneFading(r) ==> NoneFading(r.StopOnAir())
  {
  }

  lemma PreparedCut(w: World, s: State)
    requires NoneFading(s.rig)
    ensures NoneFading(EnsurePreloaded(w, s).rig)
  {
    hide DropUnplayable;
    DropUnplayableKeeps(w, s);
  }

  lemma AiredCut(w: World, s: State, d: Which, path: Path, entry: Option<Entry>, fadeIn: bool, hold: bool)
    requires NoneFading(s.rig)
    ensures NoneFading(GoOnAir(w, s, d, path, entry, fadeIn, hold).rig)
  {
    hide EnsurePreloaded, Announce;
    var s1 := if AlreadyLoaded(w, s.rig.Get(d), path) then s
              else s.(rig := s.rig.Load(d, path, entry, OnAir, w.loadId(s.clock))).Tick();
    var s2 := s1.(rig := s1.rig.Air(d, path, entry, fadeIn, !hold && !s.paused));
    var s3 := Announce(s2, path, entry);
    AnnouncedRig(s2, path, entry);
    PreparedCut(w, if hold then s3.(stopAfter := false, paused := true).Log(StoppedAfterSong) else s3);
  }

  lemma FillerCut(w: World, s: State)
    requires NoneFading(s.rig)
    ensures NoneFading(PlayFiller(w, s).rig)
  {
    hide GoOnAir;
    StopsFading(s.rig);
    var s1 := s.(rig := s.rig.StopOnAir());
    var d := s1.rig.FreeOrFirst();
    var candidates := w.filler(s1.clock);
    if candidates != [] {
      var p := candidates[s1.fillerIndex % |candidates|];
      AiredCut(w, s1.Tick().(fillerIndex := s1.fillerIndex + 1), d, p, None, false, false);
    } else {
      AiredCut(w, s1.Tick(), d, w.bakedIn, None, false, false);
    }
  }

  lemma NextEmergencyCut(w: World, s: State)
    requires NoneFading(s.rig)
    ensures NoneFading(PlayNextEmergency(w, s).rig)
  {
    hide GoOnAir, PlayFiller;
    StopsFading(s.rig);
    FillerCut(w, s);
    FillerCut(w, s.Tick());
    if Next(s.q).Some? {
      var s1 := s.Tick().(rig := s.rig.StopOnAir());
      AiredCut(w, s1, s1.rig.FreeOrFirst(), Next(s.q).value.path, Next(s.q), false, false);
    }
  }

  lemma FailoverCut(w: World, s: State)
    requires NoneFading(s.rig)
    ensures NoneFading(EnterEmergency(w, s).rig)
  {
    hide PlayNextEmergency;
    StopsFading(s.rig);
    var q1: Queue := s.q.(emergency := true);
    var s1 := if s.q.emergency then s else s.Log(EmergencyEnter).(q := q1, saved := q1);
    NextEmergencyCut(w, s1.(rig := s1.rig.StopRole(Preloaded)));
  }

  lemma {:induction false} ScanCut(w: World, s: State, idx: nat, hold: bool)
    requires NoneFading(s.rig)
    ensures NoneFading(Scan(w, s, idx, hold).rig)
    decreases |s.q.entries| - idx
  {
    hide GoOnAir, EnterEmergency;
    if idx >= |s.q.entries| {
      FailoverCut(w, s);
    } else {
      var e := s.q.entries[idx];
      if w.disk(s.clock, e.path) {
        AiredCut(w, s.Tick(), s.rig.FreeOrFirst(), e.path, Some(e), false, hold);
      } else {
        ScanCut(w, s.Tick().Log(TrackSkip(e)), idx + 1, hold);
      }
    }
  }

  lemma AdvanceCut(w: World, s: State, hold: bool)
    requires NoneFading(s.rig)
    ensures NoneFading(AdvanceOrFail(w, s, hold).rig)
  {
    hide Scan, PlayNextEmergency;
    StopsFading(s.rig);
    NextEmergencyCut(w, s);
    ScanCut(w, s.(rig := s.rig.StopOnAir()), s.q.current + 1, hold);
  }

  /** A skip, the emergency button and a replaced queue are hard cuts: no fading tail is left either. */
  lemma HardCutSilencesTail(w: World, s: State, act: Action)
    requires
      || act == Operate(Skip)
      || (act == Operate(Emergency) && !s.q.forced)
      || (act.Mutate? && act.mutation.op.Replace? && Judge(s.q, act.mutation) == Accepted && !s.q.forced)
    ensures NoneFading(Step(w, s, act).rig)
  {
    hide AdvanceOrFail, EnterEmergency, Rig.StopRole, NoneFading;
    StopsFading(s.rig);
    var stopped := s.(rig := s.rig.StopRole(Fading));
    AdvanceCut(w, stopped, false);
    var q1: Queue := s.q.(forced := true);
    FailoverCut(w, s.(q := q1, saved := q1, rig := s.rig.StopRole(Fading)).Log(EmergencyForced));
    if act.Mutate? {
      AdvanceCut(w, Requeued(s, act.mutation).(rig := s.rig.StopRole(Fading)), false);
    }
  }

  // ---------------------------------------------------------------- what is preloaded

  /** Where the first of `pending` stands that the disk calls playable, asked in order from clock `c`. */
  function FirstPlayable(w: World, c: nat, pending: seq<Entry>): (k: nat)
    ensures k <= |pending|
    decreases |pending|
  {
    if pending == [] || w.disk(c, pending[0].path) then 0 else 1 + FirstPlayable(w, c + 1, pending[1..])
  }

  lemma {:induction false} FirstPlayableIs(w: World, c: nat, pending: seq<Entry>)
    ensures var k := FirstPlayable(w, c, pending);
            && (forall j :: 0 <= j < k ==> !w.disk(c + j, pending[j].path))
            && (k < |pending| ==> w.disk(c + k, pending[k].path))
    decreases |pending|
  {
    if pending != [] && !w.disk(c, pending[0].path) {
      FirstPlayableIs(w, c + 1, pending[1..]);
      forall j | 0 <= j < FirstPlayable(w, c, pending) ensures !w.disk(c + j, pending[j].path) {
        if j > 0 { assert !w.disk(c + 1 + (j - 1), pending[1..][j - 1].path); }
      }
    }
  }

  lemma DroppedClock(s: State, e: Entry)
    ensures DropPending(s, e).clock == s.clock
  {
  }

  /** Preparing the next item drops exactly the unplayable entries in front, and stops at the first that is
      playable. */
  lemma {:induction false} DropsUnplayableOnly(w: World, s: State)
    requires IdsDistinct(s.q.entries) && Sane(s.q)
    ensures Pending(DropUnplayable(w, s).q) == Pending(s.q)[FirstPlayable(w, s.clock, Pending(s.q))..]
    decreases |Pending(s.q)|
  {
    hide DropPending, IdsDistinct, Pending, Next, Sane;
    NextIsFirst(s.q);
    if Next(s.q).Some? && !w.disk(s.clock, Next(s.q).value.path) {
      var s1 := DropPending(s.Tick(), Next(s.q).value);
      DroppedClock(s.Tick(), Next(s.q).value);
      DropHeadLedger(s.Tick());
      DropHeadQueue(s.q);
      DropsUnplayableOnly(w, s1);
      var k := FirstPlayable(w, s1.clock, Pending(s1.q));
      assert Pending(s1.q) == Pending(s.q)[1..];
      assert Pending(s.q)[1..][k..] == Pending(s.q)[k + 1..];
    } else {
      assert Pending(s.q)[0..] == Pending(s.q);
    }
  }

  /** What is prepared already is not prepared again: asked and still playable, it stays as it is. */
  lemma PreparedStays(w: World, s: State, d: Which)
    requires Live(w, s) && !s.q.emergency && Next(s.q).Some? && w.disk(s.clock, Next(s.q).value.path)
    requires s.rig.Get(d).role == Preloaded && SamePath(w, s.rig.Get(d).path, Next(s.q).value.path)
    ensures EnsurePreloaded(w, s) == s.Tick()
  {
    hide DeckOk;
    FreeBesideOnAir(w, s.rig);
  }

  /** A deck put on air with what it was preloaded with is not loaded again, so it starts at once. */
  lemma TakesPreloaded(w: World, s: State, d: Which, n: Entry, fadeIn: bool, hold: bool)
    requires RigOff(w, s.rig) && AlreadyLoaded(w, s.rig.Get(d), n.path)
    requires fadeIn ==> IsSong(n.source)
    requires s.rig.Get(d).entry.Some? && n.path == s.rig.Get(d).entry.value.path
    ensures
      var r := GoOnAir(w, s, d, n.path, Some(n), fadeIn, hold);
      && r.rig.onair == Some(d)
      && r.rig.Get(d).mpvEntryId == s.rig.Get(d).mpvEntryId && r.rig.Get(d).client == s.rig.Get(d).client
      && r.rig.Get(d).player.file == s.rig.Get(d).player.file
  {
    hide DeckOk, Announce, EnsurePreloaded;
    AirRig(w, s.rig, d, n.path, Some(n), fadeIn, !hold && !s.paused, w.loadId(s.clock));
    var s2 := s.(rig := s.rig.Air(d, n.path, Some(n), fadeIn, !hold && !s.paused));
    AnnouncedRig(s2, n.path, Some(n));
    var s3 := Announce(s2, n.path, Some(n));
    PreparedAir(w, if hold then s3.(stopAfter := false, paused := true).Log(StoppedAfterSong) else s3);
  }

  lemma AnnouncedRig(s: State, path: Path, entry: Option<Entry>)
    ensures Announce(s, path, entry).rig == s.rig
  {
  }

  /** A skip airs the preloaded next item from the very load it was prepared with. */
  lemma SkipUsesPreloaded(w: World, s: State, o: Which)
    requires Live(w, s) && Good(s) && !s.q.emergency && s.rig.Get(o).role == Preloaded
    requires SamePath(w, s.rig.Get(o).path, Next(s.q).value.path) && w.disk(s.clock, Next(s.q).value.path)
    ensures
      var r := Step(w, s, Operate(Skip));
      && r.rig.onair == Some(o) && AirEntry(r.rig) == Next(s.q)
      && r.rig.Get(o).mpvEntryId == s.rig.Get(o).mpvEntryId
      && r.rig.Get(o).player.file == s.rig.Get(o).player.file
  {
    hide DeckOk, GoOnAir, Good;
    LiveSounds(w, s);
    PreloadedIsNext(w, s, o);
    var n := Next(s.q).value;
    var s1 := s.(rig := s.rig.StopRole(Fading));
    SparePreloaded(w, s, o);
    var s2 := s1.(rig := s1.rig.StopOnAir()).Tick();
    TakesPreloaded(w, s2, o, n, false, false);
    SkipUnfolded(w, s);
    NothingForced(w, s);
    GoOnAirLive(w, s2, o, n.path, Some(n), false, false);
  }

  lemma NothingForced(w: World, s: State)
    requires Live(w, s) && !s.q.emergency
    ensures !s.q.forced && s.saved == s.q
  {
  }

  /** The other decks stopped, the preloaded one is the free one, as it was. */
  lemma SparePreloaded(w: World, s: State, o: Which)
    requires Live(w, s) && s.rig.Get(o).role == Preloaded
    ensures
      var r := s.rig.StopRole(Fading).StopOnAir();
      && RigOff(w, r) && r.Get(o) == s.rig.Get(o) && r.FreeOrFirst() == o
      && s.rig.Get(o).entry.Some? && s.rig.Get(o).path == Some(s.rig.Get(o).entry.value.path)
  {
  }

  lemma SkipUnfolded(w: World, s: State)
    requires !s.q.emergency && Next(s.q).Some? && w.disk(s.clock, Next(s.q).value.path)
    ensures
      var n := Next(s.q).value;
      var s2 := s.(rig := s.rig.StopRole(Fading).StopOnAir()).Tick();
      Step(w, s, Operate(Skip)) == GoOnAir(w, s2, s2.rig.FreeOrFirst(), n.path, Some(n), false, false)
  {
    hide GoOnAir;
  }

  /** A load is known by the id the player gave it, so that a late report about the file before is told
      apart. */
  lemma LoadsAreStamped(w: World, s: State, d: Which, path: Path, entry: Option<Entry>, fadeIn: bool, hold: bool)
    requires RigOff(w, s.rig) && !AlreadyLoaded(w, s.rig.Get(d), path) && s.rig.Get(d).role in {Idle, Preloaded}
    requires entry.Some? ==> path == entry.value.path
    requires fadeIn ==> entry.Some? && IsSong(entry.value.source)
    ensures GoOnAir(w, s, d, path, entry, fadeIn, hold).rig.Get(d).mpvEntryId == w.loadId(s.clock)
  {
    hide DeckOk, EnsurePreloaded;
    AirRig(w, s.rig, d, path, entry, fadeIn, !hold && !s.paused, w.loadId(s.clock));
    var s1 := s.(rig := s.rig.Load(d, path, entry, OnAir, w.loadId(s.clock))).Tick();
    var s3 := Announce(s1.(rig := s1.rig.Air(d, path, entry, fadeIn, !hold && !s.paused)), path, entry);
    PreparedAir(w, if hold then s3.(stopAfter := false, paused := true).Log(StoppedAfterSong) else s3);
  }

  // ---------------------------------------------------------------- failed and dead players

  /** A preloaded item its player cannot load is dropped with a journalled skip, and is not tried again. */
  lemma FailedPreloadDropped(w: World, s: State, d: Which, reason: Reason)
    requires Live(w, s) && Good(s) && s.rig.Get(d).role == Preloaded && reason != OtherReason
    ensures
      var k := s.rig.Get(d);
      var r := Step(w, s, EndFile(d, k.client, k.mpvEntryId, reason));
      && k.entry.Some? && k.entry.value !in Pending(r.q) && TrackSkip(k.entry.value) in r.log
  {
    hide DeckOk, Journalled, EnsurePreloaded, DropPending, Flow, Live, Good;
    LiveSounds(w, s);
    PreloadedIsNext(w, s, d);
    var k := s.rig.Get(d);
    var e := k.entry.value;
    var ended := k.(player := k.player.(file := None));
    var s1 := s.Log(TrackEnd(k.path, reason)).(rig := s.rig.Put(d, ended.Reset()));
    DeckEmptied(s, TrackEnd(k.path, reason), s.rig.Put(d, ended.Reset()));
    DropHead(s1);
    var s2 := DropPending(s1, e);
    GoodDistinct(s1);
    DropHeadLedger(s1);
    DropHeadQueue(s1.q);
    EnsurePreloadedFlow(w, s2);
    HeadGone(s1.q);
    PreparedLog(w, s2);
    FlowSuffix(s2, EnsurePreloaded(w, s2), e);
    assert TrackSkip(e) in s2.log;
  }

  lemma GoodDistinct(s: State)
    requires Good(s)
    ensures IdsDistinct(s.q.entries) && Sane(s.q)
  {
  }

  lemma HeadGone(q: Queue)
    requires IdsDistinct(q.entries) && Next(q).Some?
    ensures Next(q).value !in Pending(q)[1..]
  {
    assert Pending(q)[0] == Next(q).value;
    assert forall i :: 0 <= i < |Pending(q)| ==> Pending(q)[i] == q.entries[q.current + 1 + i];
  }

  lemma FlowSuffix(s: State, r: State, e: Entry)
    requires Flow(s, r) && e !in Pending(s.q)
    ensures e !in Pending(r.q)
  {
  }

  lemma PreparedLog(w: World, s: State)
    ensures s.log <= EnsurePreloaded(w, s).log
  {
    EnsurePreloadedHonest(w, s, s) by { HonestStart(w, s); }
  }

  /** A replaced player gets a new identity: nothing its predecessor still reports is believed. */
  lemma DeadPlayerForgotten(w: World, s: State, d: Which, entryId: Option<int>, reason: Reason)
    ensures
      var k := s.rig.Get(d);
      var r := Step(w, s, DeckDead(d, Some(k.client)));
      && r.rig.Get(d).client == k.client + 1
      && Step(w, r, EndFile(d, k.client, entryId, reason)) == r
      && Step(w, r, DeckDead(d, Some(k.client))) == r
  {
    hide Kick, EnsurePreloaded, ModeTold;
    var rig := s.rig.Put(d, Replaced(s.rig.Get(d))).(onair := if s.rig.onair == Some(d) then None else s.rig.onair);
    var s1 := s.(rig := rig).Log(MpvRestart(d));
    AdvanceTraced(w, s1, false);
    PreparedTraced(w, s1);
  }

  predicate ClientsKept(s: State, r: State) { r.rig.a.client == s.rig.a.client && r.rig.b.client == s.rig.b.client }

  /** A change of mode has its line in the journal. */
  predicate ModeTold(s: State, r: State) {
    && s.log <= r.log
    && (r.q.emergency && !s.q.emergency ==> EmergencyEnter in r.log[|s.log|..])
    && (s.q.emergency && !r.q.emergency ==> EmergencyExit in r.log[|s.log|..])
  }

  /** What no advance and no preparation does: give a deck another player, or change mode untold. */
  predicate Traced(s: State, r: State) { ClientsKept(s, r) && ModeTold(s, r) }

  lemma TracedThen(s: State, m: State, r: State)
    requires Traced(s, m) && Traced(m, r)
    ensures Traced(s, r)
  {
    assert r.log[|s.log|..] == r.log[|s.log|..|m.log|] + r.log[|m.log|..];
    assert m.log[|s.log|..] == r.log[|s.log|..|m.log|];
  }

  /** Decks moved with their players, or counters did. */
  lemma TracedMove(s: State, r: State)
    requires ClientsKept(s, r) && r.q.emergency == s.q.emergency && s.log <= r.log
    ensures Traced(s, r)
  {
  }

  lemma PreparedTraced(w: World, s: State)
    ensures Traced(s, EnsurePreloaded(w, s))
  {
    hide DropUnplayable, Traced, ModeTold;
    DropUnplayableKeeps(w, s);
    PreparedLog(w, s);
    TracedMove(s, EnsurePreloaded(w, s));
  }

  lemma AnnouncedTraced(s: State, path: Path, entry: Option<Entry>)
    ensures Traced(s, Announce(s, path, entry))
  {
    hide HeadMoved, JumpedOver;
    if entry.Some? {
      HeadMode(s.q, entry.value);
      if s.q.emergency {
        var r := Announce(s, path, entry);
        assert r.log == s.log + [EmergencyExit, TrackStart(path, entry)];
        assert r.log[|s.log|] == EmergencyExit;
      }
    }
  }

  lemma HeadMode(q: Queue, e: Entry)
    ensures HeadMoved(q, e).emergency == q.emergency
  {
  }

  lemma AiredTraced(w: World, s: State, d: Which, path: Path, entry: Option<Entry>, fadeIn: bool, hold: bool)
    ensures Traced(s, GoOnAir(w, s, d, path, entry, fadeIn, hold))
  {
    hide EnsurePreloaded, Announce, Traced;
    var s1 := if AlreadyLoaded(w, s.rig.Get(d), path) then s
              else s.(rig := s.rig.Load(d, path, entry, OnAir, w.loadId(s.clock))).Tick();
    var s2 := s1.(rig := s1.rig.Air(d, path, entry, fadeIn, !hold && !s.paused));
    TracedMove(s, s2);
    AnnouncedTraced(s2, path, entry);
    var s3 := Announce(s2, path, entry);
    var s4 := if hold then s3.(stopAfter := false, paused := true).Log(StoppedAfterSong) else s3;
    TracedMove(s3, s4);
    PreparedTraced(w, s4);
    TracedThen(s, s2, s3);
    TracedThen(s, s3, s4);
    TracedThen(s, s4, EnsurePreloaded(w, s4));
  }

  lemma StoppedTraced(s: State)
    ensures Traced(s, s.(rig := s.rig.StopOnAir())) && Traced(s, s.Tick())
    ensures forall role: Role :: Traced(s, s.(rig := s.rig.StopRole(role)))
  {
    StoppedClients(s);
  }

  lemma StoppedClients(s: State)
    ensures ClientsKept(s, s.(rig := s.rig.StopOnAir()))
    ensures forall role: Role :: ClientsKept(s, s.(rig := s.rig.StopRole(role)))
  {
  }

  lemma FillerTraced(w: World, s: State)
    ensures Traced(s, PlayFiller(w, s))
  {
    hide GoOnAir, Traced;
    StoppedTraced(s);
    var s1 := s.(rig := s.rig.StopOnAir());
    var d := s1.rig.FreeOrFirst();
    var candidates := w.filler(s1.clock);
    if candidates != [] {
      var p := candidates[s1.fillerIndex % |candidates|];
      var s2 := s1.Tick().(fillerIndex := s1.fillerIndex + 1);
      TracedMove(s1, s2);
      AiredTraced(w, s2, d, p, None, false, false);
      TracedThen(s, s1, s2);
      TracedThen(s, s2, PlayFiller(w, s));
    } else {
      var s2 := GoOnAir(w, s1.Tick(), d, w.bakedIn, None, false, false);
      TracedMove(s1, s1.Tick());
      AiredTraced(w, s1.Tick(), d, w.bakedIn, None, false, false);
      TracedMove(s2, PlayFiller(w, s));
      TracedThen(s, s1, s1.Tick());
      TracedThen(s, s1.Tick(), s2);
      TracedThen(s, s2, PlayFiller(w, s));
    }
  }

  lemma NextEmergencyTraced(w: World, s: State)
    ensures Traced(s, PlayNextEmergency(w, s))
  {
    hide GoOnAir, PlayFiller, Traced;
    StoppedTraced(s);
    FillerTraced(w, s);
    FillerTraced(w, s.Tick());
    TracedThen(s, s.Tick(), PlayFiller(w, s.Tick()));
    if Next(s.q).Some? {
      var s1 := s.Tick().(rig := s.rig.StopOnAir());
      var r := GoOnAir(w, s1, s1.rig.FreeOrFirst(), Next(s.q).value.path, Next(s.q), false, false);
      StoppedTraced(s.Tick());
      TracedThen(s, s.Tick(), s1);
      AiredTraced(w, s1, s1.rig.FreeOrFirst(), Next(s.q).value.path, Next(s.q), false, false);
      TracedThen(s, s1, r);
    }
  }

  lemma EnteredTraced(s: State)
    ensures
      var q1: Queue := s.q.(emergency := true);
      Traced(s, s.Log(EmergencyEnter).(q := q1, saved := q1)) && Traced(s, s)
  {
    assert s.Log(EmergencyEnter).log[|s.log|..][0] == EmergencyEnter;
  }

  lemma FailoverTraced(w: World, s: State)
    ensures Traced(s, EnterEmergency(w, s))
  {
    hide PlayNextEmergency, Traced;
    EnteredTraced(s);
    var q1: Queue := s.q.(emergency := true);
    var s1 := if s.q.emergency then s else s.Log(EmergencyEnter).(q := q1, saved := q1);
    var s2 := s1.(rig := s1.rig.StopRole(Preloaded));
    StoppedTraced(s1);
    NextEmergencyTraced(w, s2);
    TracedThen(s, s1, s2);
    TracedThen(s, s2, PlayNextEmergency(w, s2));
  }

  lemma {:induction false} ScanTraced(w: World, s: State, idx: nat, hold: bool)
    ensures Traced(s, Scan(w, s, idx, hold))
    decreases |s.q.entries| - idx
  {
    hide GoOnAir, EnterEmergency, Traced;
    if idx >= |s.q.entries| {
      FailoverTraced(w, s);
    } else {
      StoppedTraced(s);
      var e := s.q.entries[idx];
      if w.disk(s.clock, e.path) {
        AiredTraced(w, s.Tick(), s.rig.FreeOrFirst(), e.path, Some(e), false, hold);
        TracedThen(s, s.Tick(), Scan(w, s, idx, hold));
      } else {
        var s1 := s.Tick().Log(TrackSkip(e));
        TracedMove(s, s1);
        ScanTraced(w, s1, idx + 1, hold);
        TracedThen(s, s1, Scan(w, s, idx, hold));
      }
    }
  }

  lemma AdvanceTraced(w: World, s: State, hold: bool)
    ensures Traced(s, AdvanceOrFail(w, s, hold)) && Traced(s, Kick(w, s))
  {
    hide Scan, EnterEmergency, PlayNextEmergency, Traced;
    FailoverTraced(w, s);
    NextEmergencyTraced(w, s);
    StoppedTraced(s);
    var s1 := s.(rig := s.rig.StopOnAir());
    ScanTraced(w, s1, s.q.current + 1, hold);
    ScanTraced(w, s1, s.q.current + 1, false);
    TracedThen(s, s1, Scan(w, s1, s.q.current + 1, hold));
    TracedThen(s, s1, Scan(w, s1, s.q.current + 1, false));
  }

  lemma TracedTold(s: State, m: State, r: State)
    requires Traced(m, r) && m.q.emergency == s.q.emergency && s.log <= m.log
    ensures ModeTold(s, r)
  {
    assert r.log[|s.log|..] == r.log[|s.log|..|m.log|] + r.log[|m.log|..];
  }

  lemma EndTold(w: World, s: State, act: Action)
    requires act.EndFile?
    ensures ModeTold(s, Step(w, s, act))
  {
    hide EnsurePreloaded, AdvanceOrFail, PlayNextEmergency, DropPending, Traced, ModeTold;
    NothingTold(s);
    var d := act.deck;
    var k := s.rig.Get(d);
    var ended := k.(player := k.player.(file := None));
    var s1 := s.Log(TrackEnd(k.path, act.reason)).(rig := s.rig.Put(d, ended));
    var s2 := s.Log(TrackEnd(k.path, act.reason)).(rig := s.rig.Put(d, ended.Reset()));
    LoggedTold(s, s1);
    PreparedTraced(w, s2);
    TracedTold(s, s2, EnsurePreloaded(w, s2));
    if k.entry.Some? {
      var s3 := DropPending(s2, k.entry.value);
      DroppedMode(s2, k.entry.value);
      PreparedTraced(w, s3);
      TracedTold(s, s3, EnsurePreloaded(w, s3));
    }
    var rig := s.rig.Put(d, ended).Put(d, ended.Reset());
    var s4 := s1.(rig := rig.(onair := if rig.onair == Some(d) then None else rig.onair));
    NextEmergencyTraced(w, s4);
    AdvanceTraced(w, s4, s4.stopAfter);
    TracedTold(s, s4, PlayNextEmergency(w, s4));
    TracedTold(s, s4, AdvanceOrFail(w, s4, s4.stopAfter));
  }

  lemma DroppedMode(s: State, e: Entry)
    ensures DropPending(s, e).q.emergency == s.q.emergency && DropPending(s, e).log == s.log + [TrackSkip(e)]
  {
  }

  lemma NothingTold(s: State)
    ensures ModeTold(s, s)
  {
  }

  lemma LoggedTold(s: State, r: State)
    requires s.log <= r.log && r.q.emergency == s.q.emergency
    ensures ModeTold(s, r)
  {
  }

  lemma OperateTold(w: World, s: State, op: EngineOp)
    ensures ModeTold(s, OnOperate(w, s, op))
  {
    hide AdvanceOrFail, PlayNextEmergency, EnterEmergency, Traced, ModeTold;
    NothingTold(s);
    match op
    case Skip =>
      var s1 := s.(rig := s.rig.StopRole(Fading));
      AdvanceTraced(w, s1, false);
      TracedTold(s, s1, AdvanceOrFail(w, s1, false));
    case Resume =>
      var s1 := s.(paused := false, rig := SetPauseAll(s.rig, false)).Log(ResumeEvent);
      AdvanceTraced(w, s1, false);
      LoggedTold(s, s1);
      TracedTold(s, s1, AdvanceOrFail(w, s1, false));
    case Emergency =>
      var q1: Queue := s.q.(forced := true);
      var s1 := s.(q := q1, saved := q1, rig := s.rig.StopRole(Fading)).Log(EmergencyForced);
      FailoverTraced(w, s1);
      TracedTold(s, s1, EnterEmergency(w, s1));
    case ResumeNormal =>
      var q1: Queue := s.q.(forced := false);
      var s1 := s.(q := q1, saved := q1).Log(EmergencyForceCleared);
      NextEmergencyTraced(w, s1);
      LoggedTold(s, s1);
      TracedTold(s, s1, PlayNextEmergency(w, s1));
    case _ => LoggedTold(s, OnOperate(w, s, op));
  }

  lemma MutationTold(w: World, s: State, m: Mutation)
    ensures ModeTold(s, OnMutation(w, s, m))
  {
    hide AdvanceOrFail, PlayNextEmergency, EnsurePreloaded, Mutated, Traced, ModeTold;
    NothingTold(s);
    MutatedFlags(s.q, m);
    var s1 := Requeued(s, m);
    var s2 := s1.(rig := s.rig.StopRole(Fading));
    LoggedTold(s, s1);
    AdvanceTraced(w, s1, false);
    AdvanceTraced(w, s2, false);
    NextEmergencyTraced(w, s1);
    PreparedTraced(w, s1);
    TracedTold(s, s1, AdvanceOrFail(w, s1, false));
    TracedTold(s, s2, AdvanceOrFail(w, s2, false));
    TracedTold(s, s1, PlayNextEmergency(w, s1));
    TracedTold(s, s1, EnsurePreloaded(w, s1));
  }

  lemma XfadeTold(w: World, s: State, d: Which, client: nat, positionKnown: bool)
    ensures ModeTold(s, OnXfadeDue(w, s, d, client, positionKnown))
  {
    hide GoOnAir, Traced, ModeTold;
    NothingTold(s);
    LoggedTold(s, s.Tick());
    if Next(s.q).Some? {
      var k, n := s.rig.Get(d), Next(s.q).value;
      var fading := s.rig.Put(d, k.(role := Fading, fade := FadeOut)).(onair := None);
      var s1 := s.Tick().(rig := fading).Log(Crossfade(k.path, n.path));
      AiredTraced(w, s1, Other(d), n.path, Some(n), IsSong(n.source), false);
      TracedTold(s, s1, GoOnAir(w, s1, Other(d), n.path, Some(n), IsSong(n.source), false));
    }
  }

  lemma DeadTold(w: World, s: State, d: Which, deadClient: Option<nat>)
    ensures ModeTold(s, OnDeckDead(w, s, d, deadClient))
  {
    hide Kick, EnsurePreloaded, Traced, ModeTold;
    NothingTold(s);
    var rig := s.rig.Put(d, Replaced(s.rig.Get(d))).(onair := if s.rig.onair == Some(d) then None else s.rig.onair);
    var s1 := s.(rig := rig).Log(MpvRestart(d));
    AdvanceTraced(w, s1, false);
    PreparedTraced(w, s1);
    TracedTold(s, s1, Kick(w, s1));
    TracedTold(s, s1, EnsurePreloaded(w, s1));
  }

  /** Every change of mode is in the journal: an action that begins an emergency writes that it was entered,
      one that ends it that it was left, and a believed end of a file is written first of all. */
  lemma ModeChangesJournalled(w: World, s: State, act: Action)
    requires s.saved == s.q
    ensures ModeTold(s, Step(w, s, act))
    ensures act.EndFile? && act.reason != OtherReason && !EndFileStale(s.rig.Get(act.deck), act.client, act.entryId) ==>
              s.log + [TrackEnd(s.rig.Get(act.deck).path, act.reason)] <= Step(w, s, act).log
  {
    hide OnEndFile, OnMutation, OnOperate, OnXfadeDue, OnDeckDead, Kick, Traced, ModeTold, EndFileStale;
    match act
    case EndFile(_, _, _, _) =>
      EndTold(w, s, act);
      EndWritten(w, s, act);
    case Mutate(m) => MutationTold(w, s, m);
    case Operate(op) => OperateTold(w, s, op);
    case XfadeDue(d, client, known) => XfadeTold(w, s, d, client, known);
    case DeckDead(d, client) => DeadTold(w, s, d, client);
    case KickAction =>
      AdvanceTraced(w, s, false);
      TracedTold(s, s, Kick(w, s));
    case MixerRamp(d, client, volume, done) => LoggedTold(s, OnMixerRamp(s, d, client, volume, done));
    case EngineRestart =>
      var s1 := s.(q := s.saved, rig := Rig(Replaced(s.rig.a), Replaced(s.rig.b), None),
                   paused := false, stopAfter := false, fillerIndex := 0).Log(EngineStart);
      AdvanceTraced(w, s1, false);
      TracedTold(s, s1, Kick(w, s1));
  }

  lemma EndWritten(w: World, s: State, act: Action)
    requires act.EndFile?
    ensures act.reason != OtherReason && !EndFileStale(s.rig.Get(act.deck), act.client, act.entryId) ==>
              s.log + [TrackEnd(s.rig.Get(act.deck).path, act.reason)] <= Step(w, s, act).log
  {
    hide EnsurePreloaded, OnAirEnded, DropPending, ClientsKept, Rig.Put, Rig.Get;
    var d := act.deck;
    var k := s.rig.Get(d);
    var ended := k.(player := k.player.(file := None));
    var s1 := s.Log(TrackEnd(k.path, act.reason));
    var s2 := s1.(rig := s.rig.Put(d, ended.Reset()));
    PreparedLog(w, s2);
    if k.entry.Some? {
      DroppedMode(s2, k.entry.value);
      PreparedLog(w, DropPending(s2, k.entry.value));
    }
    AirEndWritten(w, s1.(rig := s.rig.Put(d, ended)), d);
  }

  lemma AirEndWritten(w: World, s: State, d: Which)
    ensures s.log <= OnAirEnded(w, s, d).log
  {
    hide AdvanceOrFail, PlayNextEmergency, ClientsKept;
    var rig := s.rig.Put(d, s.rig.Get(d).Reset());
    var s1 := s.(rig := rig.(onair := if rig.onair == Some(d) then None else rig.onair));
    NextEmergencyTraced(w, s1);
    AdvanceTraced(w, s1, s1.stopAfter);
  }

  /** The mixer moves a fading deck's volume and ends a fade-in at full volume, and does nothing to any other
      deck or for a player since replaced. */
  lemma RampMoves(w: World, s: State, d: Which, client: nat, volume: int, done: bool)
    requires Live(w, s)
    ensures
      var k := s.rig.Get(d);
      var r := Step(w, s, MixerRamp(d, client, volume, done));
      var heard := client == k.client && k.fade != NoFade;
      && (!heard ==> r == s)
      && (heard ==> r.rig.Get(d).player.volume == if done && k.fade == FadeIn then FULL_VOLUME else volume)
      && (heard ==> (r.rig.Get(d).fade == NoFade <==> done && k.fade == FadeIn))
      && r.rig.Get(Other(d)) == s.rig.Get(Other(d))
  {
  }

  // ---------------------------------------------------------------- what an advance airs

  /** The queue an action advances in, if it makes a healthy engine advance. */
  function AdvancesIn(s: State, act: Action): Option<Queue>
    requires s.rig.onair.Some?
  {
    var d := s.rig.onair.value;
    var k := s.rig.Get(d);
    match act
    case Operate(Skip) => Some(s.q)
    case KickAction => Some(s.q)
    case EngineRestart => Some(s.saved)
    case EndFile(x, client, entryId, reason) =>
      if x == d && reason != OtherReason && !EndFileStale(k, client, entryId) then Some(s.q) else None
    case DeckDead(x, client) => if x == d && (client == None || client == Some(k.client)) then Some(s.q) else None
    case Mutate(m) => if m.op.Replace? && Judge(s.q, m) == Accepted then Some(Mutated(s.q, m)) else None
    case _ => None
  }

  /** Out of emergency, whatever makes the engine advance (a skip, the end of the item on air, its player's
      death, a start, a replaced queue) airs the first pending entry the disk calls playable, and filler
      only when there is none. */
  lemma EveryAdvanceChooses(w: World, s: State, act: Action)
    requires Live(w, s) && !s.q.emergency && AdvancesIn(s, act).Some?
    ensures
      var q := AdvancesIn(s, act).value;
      var r := Step(w, s, act);
      Live(w, r) && AirEntry(r.rig) == Choice(w, s.clock, Pending(q), Next(q))
  {
    hide DeckOk, AdvanceOrFail, Mutated, Choice, Pending, Next;
    LiveHealthy(w, s);
    var d := s.rig.onair.value;
    var k := s.rig.Get(d);
    match act
    case Operate(_) => SkipAndTrackEndChoose(w, s, Eof);
    case KickAction => AdvanceChooses(w, s, false);
    case EndFile(_, _, _, reason) =>
      SkipAndTrackEndChoose(w, s, reason);
      SameReport(w, s, act);
    case DeckDead(_, _) =>
      SilencedRig(w, s.rig, d, Replaced(k));
      AdvanceChooses(w, s.(rig := s.rig.Put(d, Replaced(k)).(onair := None)).Log(MpvRestart(d)), false);
    case EngineRestart =>
      FreshRig(w, s.rig);
      AdvanceChooses(w, s.(q := s.saved, rig := Rig(Replaced(s.rig.a), Replaced(s.rig.b), None),
                           paused := false, stopAfter := false, fillerIndex := 0).Log(EngineStart), false);
    case Mutate(m) =>
      StopRoleKeeps(w, s.rig, Fading);
      MutatedSane(s.q, m);
      MutatedFlags(s.q, m);
      AdvanceChooses(w, Requeued(s, m).(rig := s.rig.StopRole(Fading)), false);
  }

  lemma LiveHealthy(w: World, s: State)
    requires Live(w, s) && !s.q.emergency
    ensures Cuttable(w, s) && Sane(s.q) && !s.q.forced && s.saved == s.q
  {
  }

  lemma MutatedFlags(q: Queue, m: Mutation)
    ensures Mutated(q, m).emergency == q.emergency && Mutated(q, m).forced == q.forced
  {
  }

  /** Reports of the same end that are believed are one report. */
  lemma SameReport(w: World, s: State, act: Action)
    requires act.EndFile? && !EndFileStale(s.rig.Get(act.deck), act.client, act.entryId)
    ensures
      var k := s.rig.Get(act.deck);
      Step(w, s, act) == Step(w, s, EndFile(act.deck, k.client, k.mpvEntryId, act.reason))
  {
    hide EnsurePreloaded, OnAirEnded, DropPending;
  }

  /** The queue an action looks at to end an emergency. */
  function LooksAt(s: State, act: Action): Option<Queue>
    requires s.rig.onair.Some?
  {
    match act
    case Operate(ResumeNormal) => if s.q.forced then Some(s.q.(forced := false)) else None
    case Mutate(m) => if Judge(s.q, m) == Accepted && !s.q.forced then Some(Mutated(s.q, m)) else None
    case _ => AdvancesIn(s, act)
  }

  /** In emergency, any of these, and any accepted mutation or the button's release, ends it if and only if
      the button is not held and the very next entry is playable at that moment; that entry then airs. */
  lemma EmergencyEnds(w: World, s: State, act: Action)
    requires Live(w, s) && s.q.emergency && LooksAt(s, act).Some?
    ensures
      var q := LooksAt(s, act).value;
      var r := Step(w, s, act);
      && Live(w, r) && (!r.q.emergency <==> QueueReady(w, s.(q := q)))
      && (QueueReady(w, s.(q := q)) ==> AirEntry(r.rig) == Next(q))
  {
    hide DeckOk, PlayNextEmergency, EnterEmergency, Mutated;
    LiveCuttable(w, s);
    LiveSaved(w, s);
    var d := s.rig.onair.value;
    var k := s.rig.Get(d);
    match act
    case Operate(op) =>
      StopRoleKeeps(w, s.rig, Fading);
      if op == Skip {
        PlayNextEmergencyLive(w, s.(rig := s.rig.StopRole(Fading)));
      } else {
        var q1: Queue := s.q.(forced := false);
        PlayNextEmergencyLive(w, s.(q := q1, saved := q1).Log(EmergencyForceCleared));
      }
    case KickAction => EnterEmergencyLive(w, s);
    case EndFile(_, _, _, reason) => EndedLeaves(w, s, act);
    case DeckDead(_, _) =>
      SilencedRig(w, s.rig, d, Replaced(k));
      EnterEmergencyLive(w, s.(rig := s.rig.Put(d, Replaced(k)).(onair := None)).Log(MpvRestart(d)));
    case EngineRestart =>
      FreshRig(w, s.rig);
      EnterEmergencyLive(w, s.(q := s.saved, rig := Rig(Replaced(s.rig.a), Replaced(s.rig.b), None),
                               paused := false, stopAfter := false, fillerIndex := 0).Log(EngineStart));
    case Mutate(m) =>
      StopRoleKeeps(w, s.rig, Fading);
      MutatedFlags(s.q, m);
      PlayNextEmergencyLive(w, Requeued(s, m));
      PlayNextEmergencyLive(w, Requeued(s, m).(rig := s.rig.StopRole(Fading)));
  }

  lemma EndedLeaves(w: World, s: State, act: Action)
    requires Live(w, s) && s.q.emergency && act.EndFile? && AdvancesIn(s, act).Some?
    ensures
      var r := Step(w, s, act);
      && Live(w, r) && (!r.q.emergency <==> QueueReady(w, s))
      && (QueueReady(w, s) ==> AirEntry(r.rig) == Next(s.q))
  {
    hide DeckOk, PlayNextEmergency;
    var d := s.rig.onair.value;
    var k := s.rig.Get(d);
    var ended := k.(player := k.player.(file := None));
    SilencedRig(w, s.rig, d, ended.Reset());
    assert s.rig.Put(d, ended).Put(d, ended.Reset()) == s.rig.Put(d, ended.Reset());
    PlayNextEmergencyLive(w, s.Log(TrackEnd(k.path, act.reason)).(rig := s.rig.Put(d, ended.Reset()).(onair := None)));
  }

  /** Play now: a pending entry cued to the front and then skipped to is on air, if its file is playable
      throughout. */
  lemma PlayNowAirs(w: World, s: State, id: Id)
    requires Live(w, s) && Good(s) && !s.q.emergency && id in Ids(Pending(s.q))
    requires forall c: nat, e :: e in Pending(s.q) && e.id == id ==> w.disk(c, e.path)
    ensures
      var cued := Step(w, s, Mutate(Mutation(Reorder([id]), Some(s.q.version + 1))));
      var r := Step(w, cued, Operate(Skip));
      Live(w, r) && AirEntry(r.rig).Some? && AirEntry(r.rig).value.id == id
  {
    hide DeckOk, Journalled, Mutated, OnMutation, Choice, PrimeFreeDeck;
    var m := Mutation(Reorder([id]), Some(s.q.version + 1));
    var cued := Step(w, s, Mutate(m));
    CuedStands(w, s, id);
    OnMutationLive(w, s, m);
    EveryAdvanceChooses(w, cued, Operate(Skip));
    FirstChosen(w, cued.clock, cued.q);
  }

  lemma FirstChosen(w: World, c: nat, q: Queue)
    requires Sane(q) && Next(q).Some? && w.disk(c, Next(q).value.path)
    ensures Choice(w, c, Pending(q), Next(q)) == Next(q)
  {
    NextIsFirst(q);
  }

  /** After the cue the entry is next, and stays so. */
  lemma CuedStands(w: World, s: State, id: Id)
    requires Live(w, s) && Good(s) && !s.q.emergency && id in Ids(Pending(s.q))
    requires forall c: nat, e :: e in Pending(s.q) && e.id == id ==> w.disk(c, e.path)
    ensures
      var cued := Step(w, s, Mutate(Mutation(Reorder([id]), Some(s.q.version + 1))));
      && Live(w, cued) && !cued.q.emergency && Sane(cued.q)
      && Next(cued.q).Some? && Next(cued.q).value.id == id && forall c: nat :: w.disk(c, Next(cued.q).value.path)
  {
    hide DeckOk, Journalled, Mutated, PrimeFreeDeck;
    var m := Mutation(Reorder([id]), Some(s.q.version + 1));
    var q1 := Mutated(s.q, m);
    LiveHealthy(w, s);
    GoodPendingDistinct(s);
    CuedIsNext(s.q, id, s.q.version + 1);
    MutatedSane(s.q, m);
    MutatedFlags(s.q, m);
    ReorderFollowsOrder(s.q, [id], s.q.version + 1);
    NextIsFirst(q1);
    assert Next(q1).value in Pending(q1);
    assert Next(q1).value in multiset(Pending(q1));
    assert Next(q1).value in Pending(s.q);
    OnMutationLive(w, s, m);
    StillNext(w, Requeued(s, m));
    assert s.rig.onair.Some?;
  }

  lemma GoodPendingDistinct(s: State)
    requires Good(s)
    ensures IdsDistinct(Pending(s.q))
  {
    assert s.q.entries == Played(s.q) + Pending(s.q);
    SplitDistinctTail(Played(s.q), Pending(s.q));
  }

  lemma StillNext(w: World, s: State)
    requires Next(s.q).Some? && w.disk(s.clock, Next(s.q).value.path)
    ensures EnsurePreloaded(w, s).q == s.q
  {
  }
}
