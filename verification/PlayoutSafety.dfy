/** What every owner action leaves true: somebody is on air, nothing else is heard, the play-head
  and the players agree, and the operator's emergency button holds. */
module PlayoutSafety {
  import opened Basics
  import opened QueueStore
  import opened Playout

  predicate HoldsFile(w: World, k: Deck) {
    && k.path.Some?
    && k.player.file.Some?
    && (k.player.file == k.path || SamePath(w, k.player.file, k.path.value))
  }

  predicate CarriesEntry(k: Deck) {
    k.entry.Some? && k.path == Some(k.entry.value.path) && !k.player.looping
  }

  /** A deck and its player are in step with the role the deck plays. */
  predicate DeckOk(w: World, k: Deck) {
    match k.role
    case Idle => k == k.Reset() && k.player.file.None?
    case Preloaded => HoldsFile(w, k) && CarriesEntry(k) && k.player.paused && k.fade == NoFade
    case Fading => HoldsFile(w, k) && CarriesEntry(k) && IsSong(k.entry.value.source) && k.fade == FadeOut
    case OnAir =>
      && HoldsFile(w, k)
      && (k.entry.Some? ==> CarriesEntry(k))
      && (k.player.looping ==> k.path == Some(w.bakedIn))
      && (k.fade == NoFade ==> k.player.volume == FULL_VOLUME)
      && (k.fade == FadeIn ==> k.entry.Some? && IsSong(k.entry.value.source))
      && k.fade != FadeOut
  }

  predicate RigOk(w: World, r: Rig) {
    DeckOk(w, r.a) && DeckOk(w, r.b) && !(r.a.role == Fading && r.b.role == Fading)
  }

  /** Between two items: nothing is on air, inside an owner action. */
  predicate RigOff(w: World, r: Rig) {
    RigOk(w, r) && r.onair.None? && r.a.role != OnAir && r.b.role != OnAir
  }

  /** Exactly one deck is on air, and it is the one the engine holds to be on air. */
  predicate RigOn(w: World, r: Rig) {
    RigOk(w, r) && r.onair.Some? && r.Get(r.onair.value).role == OnAir &&
    r.Get(Other(r.onair.value)).role != OnAir
  }

  predicate NonePreloaded(r: Rig) { r.a.role != Preloaded && r.b.role != Preloaded }

  predicate QueueOk(s: State) { s.saved == s.q && (s.q.forced ==> s.q.emergency) }

  predicate Between(w: World, s: State) {
    RigOff(w, s.rig) && QueueOk(s) && (s.q.emergency ==> NonePreloaded(s.rig))
  }

  /** A queue item on air is the entry under the play-head. */
  predicate AtHead(q: Queue, e: Entry) {
    0 <= q.current < |q.entries| && q.current <= MAX_QUEUE_HISTORY && q.entries[q.current].id == e.id
  }

  function AirEntry(r: Rig): Option<Entry>
    requires r.onair.Some?
  {
    r.Get(r.onair.value).entry
  }

  /** Somebody is on air: heard unless the operator paused, with the play-head's entry, or with
      filler exactly in emergency mode. */
  predicate OnAirOk(w: World, s: State) {
    && RigOn(w, s.rig) && QueueOk(s)
    && s.rig.Get(s.rig.onair.value).player.paused == s.paused
    && (AirEntry(s.rig).None? <==> s.q.emergency)
    && (AirEntry(s.rig).Some? ==> AtHead(s.q, AirEntry(s.rig).value))
    && (s.q.emergency ==> NonePreloaded(s.rig))
  }

  predicate Holds(w: World, k: Deck, e: Entry) {
    && k.role == Preloaded && k.entry.Some? && k.entry.value.id == e.id
    && (k.path == Some(e.path) || SamePath(w, k.path, e.path))
  }

  /** The other deck holds the next entry, ready to start, unless it is still fading. */
  predicate Primed(w: World, q: Queue, r: Rig)
    requires r.onair.Some?
  {
    var o := r.Get(Other(r.onair.value));
    !q.emergency && o.role != Fading ==>
      match Next(q)
      case None => o.role == Idle
      case Some(n) => Holds(w, o, n)
  }

  predicate Live(w: World, s: State) { OnAirOk(w, s) && Primed(w, s.q, s.rig) }

  // ---------------------------------------------------------------- the decks

  lemma FreeBesideOnAir(w: World, r: Rig)
    requires RigOn(w, r)
    ensures r.Free() == if r.Get(Other(r.onair.value)).role == Fading then None else Some(Other(r.onair.value))
    ensures r.Free().Some? ==> RigOn(w, r.Stop(r.Free().value))
  {
  }

  lemma LoadBesideOnAir(w: World, r: Rig, n: Entry, loadId: Option<int>)
    requires RigOn(w, r) && r.Get(Other(r.onair.value)).role != Fading
    ensures
      var d := Other(r.onair.value);
      var r1 := r.Load(d, n.path, Some(n), Preloaded, loadId);
      RigOn(w, r1) && Holds(w, r1.Get(d), n)
  {
  }

  lemma LoopingFiller(w: World, r: Rig)
    requires RigOn(w, r)
    requires AirEntry(r).None? && r.Get(r.onair.value).path == Some(w.bakedIn)
    ensures var k := r.Get(r.onair.value);
            RigOn(w, r.Put(r.onair.value, k.(player := k.player.(looping := true))))
  {
  }

  lemma AirRig(w: World, r: Rig, d: Which, path: Path, entry: Option<Entry>, fadeIn: bool,
               start: bool, loadId: Option<int>)
    requires RigOff(w, r) && r.Get(d).role in {Idle, Preloaded}
    requires entry.Some? ==> path == entry.value.path
    requires fadeIn ==> entry.Some? && IsSong(entry.value.source)
    ensures
      var r1 := if AlreadyLoaded(w, r.Get(d), path) then r else r.Load(d, path, entry, OnAir, loadId);
      var r2 := r1.Air(d, path, entry, fadeIn, start);
      && RigOn(w, r2) && r2.onair == Some(d)
      && r2.Get(d).player.paused == !start && !r2.Get(d).player.looping
      && r2.Get(d).entry == entry && r2.Get(d).path == Some(path)
      && r2.Get(Other(d)) == r.Get(Other(d))
      && AirEntry(r2) == entry && (NonePreloaded(r) ==> NonePreloaded(r2))
  {
  }

  lemma StoppedOnAir(w: World, r: Rig)
    requires RigOn(w, r) || RigOff(w, r)
    ensures RigOff(w, r.StopOnAir())
    ensures r.StopOnAir().Free().Some?
    ensures r.StopOnAir().FreeOrFirst() == r.StopOnAir().Free().value
    ensures r.StopOnAir().Get(r.StopOnAir().Free().value).role in {Idle, Preloaded}
    ensures NonePreloaded(r) ==> NonePreloaded(r.StopOnAir())
  {
  }

  // ---------------------------------------------------------------- preloading

  /** Dropping unplayable pending entries touches nothing else. */
  lemma {:induction false} DropUnplayableKeeps(w: World, s: State)
    ensures
      var r := DropUnplayable(w, s);
      && r == s.(q := r.q, saved := r.saved, clock := r.clock, log := r.log, ledger := r.ledger)
      && (s.saved == s.q ==> r.saved == r.q)
      && r.q == s.q.(entries := r.q.entries)
      && Played(r.q) == Played(s.q)
    decreases |Pending(s.q)|
  {
    if Next(s.q).Some? && !w.disk(s.clock, Next(s.q).value.path) {
      var s1 := DropPending(s.Tick(), Next(s.q).value);
      assert Pending(s.q)[0] == Next(s.q).value;
      assert Pending(s1.q) == WithoutEntry(Pending(s.q), Next(s.q).value);
      DropUnplayableKeeps(w, s1);
    }
  }

  lemma PlayedKeepsHead(q: Queue, r: Queue, e: Entry)
    requires r == q.(entries := r.entries) && Played(r) == Played(q) && AtHead(q, e)
    ensures AtHead(r, e)
  {
    assert Played(q)[q.current] == q.entries[q.current];
    assert Played(r)[q.current] == r.entries[q.current];
  }

  /** What a step that only prepares the next item may change. */
  predicate SameAir(s: State, r: State)
    requires s.rig.onair.Some?
  {
    && r.rig.onair == s.rig.onair
    && r.rig.Get(s.rig.onair.value) == s.rig.Get(s.rig.onair.value)
    && r.q == s.q.(entries := r.q.entries) && Played(r.q) == Played(s.q)
    && r.paused == s.paused && r.stopAfter == s.stopAfter
  }

  lemma PrimeFreeDeckLive(w: World, s: State)
    requires OnAirOk(w, s) && !s.q.emergency
    ensures Live(w, PrimeFreeDeck(w, s)) && SameAir(s, PrimeFreeDeck(w, s))
  {
    hide DeckOk;
    FreeBesideOnAir(w, s.rig);
    if s.rig.Free().Some? && Next(s.q).Some? {
      LoadBesideOnAir(w, s.rig, Next(s.q).value, w.loadId(s.clock));
    }
  }

  lemma EnsurePreloadedLive(w: World, s: State)
    requires OnAirOk(w, s)
    ensures Live(w, EnsurePreloaded(w, s)) && SameAir(s, EnsurePreloaded(w, s))
    ensures s.q.emergency ==> EnsurePreloaded(w, s) == s
  {
    hide DeckOk, PrimeFreeDeck;
    if !s.q.emergency {
      DropUnplayableKeeps(w, s);
      var s1 := DropUnplayable(w, s);
      PlayedKeepsHead(s.q, s1.q, AirEntry(s.rig).value);
      PrimeFreeDeckLive(w, s1);
    }
  }

  // ---------------------------------------------------------------- going on air

  lemma AnnounceHead(s: State, path: Path, entry: Option<Entry>)
    requires QueueOk(s)
    requires entry.None? ==> s.q.emergency
    requires entry.Some? ==> entry.value in s.q.entries && !s.q.forced
    ensures
      var r := Announce(s, path, entry);
      && r == s.(q := r.q, saved := r.saved, log := r.log, ledger := r.ledger)
      && QueueOk(r) && r.q.version == s.q.version && r.q.forced == s.q.forced
      && (r.q.emergency <==> entry.None?)
      && (entry.Some? ==> AtHead(r.q, entry.value))
      && (entry.None? ==> r.q == s.q)
  {
    if entry.Some? { assert entry.value.id in Ids(s.q.entries); }
  }

  /** What is on air once `GoOnAir` is done, and what that leaves alone. */
  predicate Aired(w: World, s: State, r: State, path: Path, entry: Option<Entry>, hold: bool) {
    && Live(w, r)
    && r.rig.Get(r.rig.onair.value).path == Some(path)
    && AirEntry(r.rig) == entry
    && !r.rig.Get(r.rig.onair.value).player.looping
    && r.q.forced == s.q.forced && r.q.version == s.q.version
    && (entry.None? ==> r.q == s.q)
    && r.paused == (s.paused || hold) && r.stopAfter == (s.stopAfter && !hold)
  }

  /** Neither paused nor armed to stop, other than it was. */
  predicate SameSwitches(s: State, r: State) { r.paused == s.paused && r.stopAfter == s.stopAfter }

  lemma GoOnAirLive(w: World, s: State, d: Which, path: Path, entry: Option<Entry>,
                    fadeIn: bool, hold: bool)
    requires Between(w, s) && s.rig.Get(d).role in {Idle, Preloaded}
    requires entry.None? ==> s.q.emergency && !fadeIn && !hold
    requires entry.Some? ==> entry.value in s.q.entries && path == entry.value.path && !s.q.forced
    requires fadeIn ==> IsSong(entry.value.source)
    ensures Aired(w, s, GoOnAir(w, s, d, path, entry, fadeIn, hold), path, entry, hold)
    ensures GoOnAir(w, s, d, path, entry, fadeIn, hold).rig.onair == Some(d)
  {
    hide DeckOk, Announce, EnsurePreloaded, OnAirOk, Rig.Load, Rig.Air, RigOn, NonePreloaded, AlreadyLoaded;
    AirRig(w, s.rig, d, path, entry, fadeIn, !hold && !s.paused, w.loadId(s.clock));
    var s1 := if AlreadyLoaded(w, s.rig.Get(d), path) then s
              else s.(rig := s.rig.Load(d, path, entry, OnAir, w.loadId(s.clock))).Tick();
    var s2 := s1.(rig := s1.rig.Air(d, path, entry, fadeIn, !hold && !s.paused));
    AnnounceHead(s2, path, entry);
    var s3 := Announce(s2, path, entry);
    var s4 := if hold then s3.(stopAfter := false, paused := true).Log(StoppedAfterSong) else s3;
    AiredOk(w, s4, s.q.emergency);
    EnsurePreloadedLive(w, s4);
  }

  lemma AiredOk(w: World, s: State, emergency: bool)
    requires RigOn(w, s.rig) && QueueOk(s) && s.rig.Get(s.rig.onair.value).player.paused == s.paused
    requires AirEntry(s.rig).None? <==> s.q.emergency
    requires AirEntry(s.rig).Some? ==> AtHead(s.q, AirEntry(s.rig).value)
    requires (s.q.emergency ==> emergency) && (emergency ==> NonePreloaded(s.rig))
    ensures OnAirOk(w, s)
  {
  }

  // ---------------------------------------------------------------- advancing and failing over

  /** Something may be on air, and is about to be cut. */
  predicate Cuttable(w: World, s: State) {
    && (RigOn(w, s.rig) || RigOff(w, s.rig)) && QueueOk(s)
    && (s.q.emergency ==> NonePreloaded(s.rig))
  }

  lemma PlayFillerLive(w: World, s: State)
    requires Cuttable(w, s) && s.q.emergency
    ensures var r := PlayFiller(w, s);
            Live(w, r) && AirEntry(r.rig).None? && r.q == s.q && SameSwitches(s, r)
  {
    hide DeckOk, GoOnAir;
    StoppedOnAir(w, s.rig);
    var s1 := s.(rig := s.rig.StopOnAir());
    var d := s1.rig.FreeOrFirst();
    var candidates := w.filler(s1.clock);
    if candidates != [] {
      var p := candidates[s1.fillerIndex % |candidates|];
      GoOnAirLive(w, s1.Tick().(fillerIndex := s1.fillerIndex + 1), d, p, None, false, false);
    } else {
      GoOnAirLive(w, s1.Tick(), d, w.bakedIn, None, false, false);
      LoopingFiller(w, GoOnAir(w, s1.Tick(), d, w.bakedIn, None, false, false).rig);
    }
  }

  /** How every failover or advance ends. */
  predicate Landed(w: World, s: State, r: State) {
    Live(w, r) && r.q.version == s.q.version && r.q.forced == s.q.forced
  }

  predicate QueueReady(w: World, s: State) {
    !s.q.forced && Next(s.q).Some? && w.disk(s.clock, Next(s.q).value.path)
  }

  lemma PlayNextEmergencyLive(w: World, s: State)
    requires Cuttable(w, s) && s.q.emergency
    ensures Landed(w, s, PlayNextEmergency(w, s)) && SameSwitches(s, PlayNextEmergency(w, s))
    ensures PlayNextEmergency(w, s).q.emergency <==> !QueueReady(w, s)
    ensures QueueReady(w, s) ==> AirEntry(PlayNextEmergency(w, s).rig) == Next(s.q)
  {
    hide DeckOk, GoOnAir, PlayFiller;
    if s.q.forced {
      PlayFillerLive(w, s);
    } else if Next(s.q).Some? && w.disk(s.clock, Next(s.q).value.path) {
      StoppedOnAir(w, s.rig);
      var n := Next(s.q).value;
      var s1 := s.Tick().(rig := s.rig.StopOnAir());
      GoOnAirLive(w, s1, s1.rig.FreeOrFirst(), n.path, Some(n), false, false);
    } else {
      PlayFillerLive(w, if Next(s.q).Some? then s.Tick() else s);
    }
  }

  lemma StopRoleKeeps(w: World, r: Rig, role: Role)
    requires role in {Preloaded, Fading}
    ensures RigOn(w, r) ==> RigOn(w, r.StopRole(role)) && r.StopRole(role).onair == r.onair
    ensures RigOff(w, r) ==> RigOff(w, r.StopRole(role))
    ensures r.StopRole(role).a.role != role && r.StopRole(role).b.role != role
    ensures NonePreloaded(r) ==> NonePreloaded(r.StopRole(role))
  {
  }

  lemma EnterEmergencyLive(w: World, s: State)
    requires (RigOn(w, s.rig) || RigOff(w, s.rig)) && s.saved == s.q
    ensures Landed(w, s, EnterEmergency(w, s)) && SameSwitches(s, EnterEmergency(w, s))
    ensures EnterEmergency(w, s).q.emergency <==> !QueueReady(w, s)
    ensures QueueReady(w, s) ==> AirEntry(EnterEmergency(w, s).rig) == Next(s.q)
  {
    hide DeckOk, PlayNextEmergency;
    StopRoleKeeps(w, s.rig, Preloaded);
    var q1: Queue := s.q.(emergency := true);
    var s1 := if s.q.emergency then s else s.Log(EmergencyEnter).(q := q1, saved := q1);
    PlayNextEmergencyLive(w, s1.(rig := s1.rig.StopRole(Preloaded)));
  }

  lemma {:induction false} ScanLive(w: World, s: State, idx: nat, hold: bool)
    requires Between(w, s) && !s.q.emergency && idx >= Cut(s.q)
    ensures Landed(w, s, Scan(w, s, idx, hold))
    decreases |s.q.entries| - idx
  {
    hide DeckOk, GoOnAir, EnterEmergency;
    if idx >= |s.q.entries| {
      EnterEmergencyLive(w, s);
    } else if w.disk(s.clock, s.q.entries[idx].path) {
      StoppedOnAir(w, s.rig);
      var e := s.q.entries[idx];
      GoOnAirLive(w, s.Tick(), s.rig.FreeOrFirst(), e.path, Some(e), false, hold);
    } else {
      ScanLive(w, s.Tick().Log(TrackSkip(s.q.entries[idx])), idx + 1, hold);
    }
  }

  lemma AdvanceOrFailLive(w: World, s: State, hold: bool)
    requires Cuttable(w, s)
    ensures Landed(w, s, AdvanceOrFail(w, s, hold))
  {
    hide DeckOk, Scan, PlayNextEmergency;
    if s.q.emergency {
      PlayNextEmergencyLive(w, s);
    } else {
      StoppedOnAir(w, s.rig);
      ScanLive(w, s.(rig := s.rig.StopOnAir()), s.q.current + 1, hold);
    }
  }

  lemma KickLive(w: World, s: State)
    requires Cuttable(w, s)
    ensures Landed(w, s, Kick(w, s))
  {
    hide DeckOk;
    if s.q.emergency { EnterEmergencyLive(w, s); } else { AdvanceOrFailLive(w, s, false); }
  }

  // ---------------------------------------------------------------- owner actions

  /** Deck `d` fell silent, or its player was replaced. */
  lemma SilencedRig(w: World, r: Rig, d: Which, k: Deck)
    requires RigOn(w, r) && k == k.Reset() && k.player.file.None?
    ensures r.onair == Some(d) ==> RigOff(w, r.Put(d, k).(onair := None))
    ensures r.onair != Some(d) ==> RigOn(w, r.Put(d, k))
    ensures NonePreloaded(r) ==> NonePreloaded(r.Put(d, k))
  {
  }

  lemma DropPendingOk(w: World, s: State, e: Entry)
    requires OnAirOk(w, s) && !s.q.emergency
    ensures OnAirOk(w, DropPending(s, e))
    ensures DropPending(s, e).q.version == s.q.version && !DropPending(s, e).q.forced
  {
    hide DeckOk;
    var r := DropPending(s, e);
    assert Played(r.q) == Played(s.q);
    PlayedKeepsHead(s.q, r.q, AirEntry(s.rig).value);
  }

  lemma OnAirEndedLive(w: World, s: State, e: Event)
    requires Live(w, s)
    ensures
      var d := s.rig.onair.value;
      var ended := s.rig.Get(d).(player := s.rig.Get(d).player.(file := None));
      Landed(w, s, OnAirEnded(w, s.Log(e).(rig := s.rig.Put(d, ended)), d))
  {
    hide DeckOk, AdvanceOrFail, PlayNextEmergency;
    var d := s.rig.onair.value;
    var ended := s.rig.Get(d).(player := s.rig.Get(d).player.(file := None));
    SilencedRig(w, s.rig, d, ended.Reset());
    assert s.rig.Put(d, ended).Put(d, ended.Reset()) == s.rig.Put(d, ended.Reset());
    var s1 := s.Log(e).(rig := s.rig.Put(d, ended.Reset()).(onair := None));
    if s.q.emergency { PlayNextEmergencyLive(w, s1); } else { AdvanceOrFailLive(w, s1, s1.stopAfter); }
  }

  lemma RoleFacts(w: World, k: Deck)
    requires DeckOk(w, k)
    ensures k.role == Preloaded ==> k.entry.Some?
    ensures k.role == Idle ==> k.(player := k.player.(file := None)) == k == k.Reset()
  {
  }

  /** The deck beside the one on air fell silent. */
  lemma BesideEnded(w: World, s: State, e: Event)
    requires Live(w, s)
    ensures
      var d := Other(s.rig.onair.value);
      var k := s.rig.Get(d);
      var s1 := s.Log(e).(rig := s.rig.Put(d, k.(player := k.player.(file := None)).Reset()));
      && Landed(w, s, EnsurePreloaded(w, s1))
      && (k.role == Preloaded ==> k.entry.Some?)
      && (k.role == Preloaded ==> Landed(w, s, EnsurePreloaded(w, DropPending(s1, k.entry.value))))
      && (k.role == Idle ==> Landed(w, s, s.Log(e).(rig := s.rig.Put(d, k.(player := k.player.(file := None))))))
  {
    hide DeckOk, DropPending, EnsurePreloaded;
    var d := Other(s.rig.onair.value);
    var k := s.rig.Get(d);
    var silent := k.(player := k.player.(file := None)).Reset();
    RoleFacts(w, k);
    SilencedRig(w, s.rig, d, silent);
    var s1 := s.Log(e).(rig := s.rig.Put(d, silent));
    EnsurePreloadedLive(w, s1);
    if k.role == Preloaded {
      DropPendingOk(w, s1, k.entry.value);
      EnsurePreloadedLive(w, DropPending(s1, k.entry.value));
    }
  }

  lemma LiveOnAir(w: World, s: State, d: Which)
    requires Live(w, s)
    ensures s.rig.onair.Some? && (s.rig.Get(d).role == OnAir <==> s.rig.onair == Some(d))
  {
  }

  lemma OnEndFileLive(w: World, s: State, d: Which, client: nat, entryId: Option<int>, reason: Reason)
    requires Live(w, s)
    ensures Landed(w, s, OnEndFile(w, s, d, client, entryId, reason))
  {
    hide EnsurePreloaded, OnAirEnded, DropPending, Live;
    LiveOnAir(w, s, d);
    var k := s.rig.Get(d);
    if !EndFileStale(k, client, entryId) && reason != OtherReason {
      if k.role == OnAir {
        OnAirEndedLive(w, s, TrackEnd(k.path, reason));
      } else {
        BesideEnded(w, s, TrackEnd(k.path, reason));
      }
    }
  }

  lemma FadingRig(w: World, r: Rig)
    requires RigOn(w, r) && r.Get(Other(r.onair.value)).role != Fading
    requires AirEntry(r).Some? && IsSong(AirEntry(r).value.source)
    ensures RigOff(w, r.Put(r.onair.value, r.Get(r.onair.value).(role := Fading, fade := FadeOut)).(onair := None))
  {
  }

  lemma OnXfadeDueLive(w: World, s: State, d: Which, client: nat, positionKnown: bool)
    requires Live(w, s)
    ensures Landed(w, s, OnXfadeDue(w, s, d, client, positionKnown))
  {
    hide DeckOk, GoOnAir;
    var k := s.rig.Get(d);
    if s.rig.onair == Some(d) && Crossfades(w, k) && !s.q.emergency && Next(s.q).Some? &&
       s.rig.Get(Other(d)).role in {Idle, Preloaded}
    {
      FadingRig(w, s.rig);
      var n := Next(s.q).value;
      var fading := s.rig.Put(d, k.(role := Fading, fade := FadeOut)).(onair := None);
      var s1 := s.Tick().(rig := fading).Log(Crossfade(k.path, n.path));
      GoOnAirLive(w, s1, Other(d), n.path, Some(n), IsSong(n.source), false);
    }
  }

  lemma MutatedKeepsHead(q: Queue, m: Mutation, e: Entry)
    requires AtHead(q, e) && !m.op.Replace?
    ensures AtHead(Mutated(q, m), e)
  {
    assert Played(q)[q.current] == q.entries[q.current];
  }

  lemma OnMutationLive(w: World, s: State, m: Mutation)
    requires Live(w, s)
    ensures Live(w, OnMutation(w, s, m))
    ensures OnMutation(w, s, m).q.version == Mutated(s.q, m).version
    ensures OnMutation(w, s, m).q.forced == s.q.forced
  {
    hide DeckOk, EnsurePreloaded, AdvanceOrFail, PlayNextEmergency;
    if Judge(s.q, m) == Accepted {
      var q1 := Mutated(s.q, m);
      var s1 := s.(q := q1, saved := q1,
                   ledger := s.ledger.(accepted := s.ledger.accepted + multiset(Brought(m.op)),
                                       removed := s.ledger.removed + TakenOut(s.q, m.op)));
      if q1.forced {
      } else if m.op.Replace? {
        StopRoleKeeps(w, s.rig, Fading);
        AdvanceOrFailLive(w, s1.(rig := s.rig.StopRole(Fading)), false);
      } else if q1.emergency {
        PlayNextEmergencyLive(w, s1);
      } else {
        MutatedKeepsHead(s.q, m, AirEntry(s.rig).value);
        EnsurePreloadedLive(w, s1);
      }
    }
  }

  lemma PausedRig(w: World, r: Rig, paused: bool)
    requires RigOn(w, r)
    ensures RigOn(w, SetPauseAll(r, paused)) && SetPauseAll(r, paused).onair == r.onair
    ensures SetPauseAll(r, paused).Get(r.onair.value).player.paused == paused
    ensures forall d :: SetPauseAll(r, paused).Get(d).role == r.Get(d).role &&
                        SetPauseAll(r, paused).Get(d).entry == r.Get(d).entry &&
                        SetPauseAll(r, paused).Get(d).path == r.Get(d).path
  {
  }

  lemma OnOperateLive(w: World, s: State, op: EngineOp)
    requires Live(w, s)
    ensures Live(w, OnOperate(w, s, op)) && OnOperate(w, s, op).q.version == s.q.version
    ensures OnOperate(w, s, op).q.forced ==
              match op { case Emergency => true case ResumeNormal => false case _ => s.q.forced }
  {
    hide DeckOk, AdvanceOrFail, PlayNextEmergency, EnterEmergency, SetPauseAll;
    StopRoleKeeps(w, s.rig, Fading);
    match op
    case Skip => AdvanceOrFailLive(w, s.(rig := s.rig.StopRole(Fading)), false);
    case Pause => PausedRig(w, s.rig, true);
    case Resume => PausedRig(w, s.rig, false);
    case Emergency =>
      var q1: Queue := s.q.(forced := true);
      EnterEmergencyLive(w, s.(q := q1, saved := q1, rig := s.rig.StopRole(Fading)).Log(EmergencyForced));
    case ResumeNormal =>
      var q1: Queue := s.q.(forced := false);
      if s.q.forced { PlayNextEmergencyLive(w, s.(q := q1, saved := q1).Log(EmergencyForceCleared)); }
    case _ =>
  }

  lemma OnDeckDeadLive(w: World, s: State, d: Which, deadClient: Option<nat>)
    requires Live(w, s)
    ensures Landed(w, s, OnDeckDead(w, s, d, deadClient))
  {
    hide DeckOk, Kick, EnsurePreloaded;
    var k := s.rig.Get(d);
    SilencedRig(w, s.rig, d, Replaced(k));
    var s1 := s.Log(MpvRestart(d)).(rig := s.rig.Put(d, Replaced(k)));
    if s.rig.onair == Some(d) {
      KickLive(w, s1.(rig := s1.rig.(onair := None)));
    } else {
      EnsurePreloadedLive(w, s1);
    }
  }

  lemma RampRig(w: World, r: Rig, d: Which, volume: int)
    requires RigOn(w, r) && r.Get(d).fade != NoFade && r.Get(d).role in {OnAir, Fading}
    ensures var k := r.Get(d);
            RigOn(w, r.Put(d, k.(player := k.player.(volume := volume))))
    ensures var k := r.Get(d);
            k.fade == FadeIn ==>
              RigOn(w, r.Put(d, k.(fade := NoFade, player := k.player.(volume := FULL_VOLUME))))
  {
  }

  lemma OnMixerRampLive(w: World, s: State, d: Which, client: nat, volume: int, fadeInDone: bool)
    requires Live(w, s)
    ensures Landed(w, s, OnMixerRamp(s, d, client, volume, fadeInDone))
  {
    hide DeckOk;
    if s.rig.Get(d).fade != NoFade && s.rig.Get(d).role in {OnAir, Fading} { RampRig(w, s.rig, d, volume); }
  }

  /** A start puts something on air whatever the state file holds, short of a forced flag saved
      without the emergency flag (the one state a crash inside the emergency button leaves). */
  lemma StartLive(w: World, s: State)
    requires s.saved.forced ==> s.saved.emergency
    ensures Live(w, Start(w, s))
    ensures Start(w, s).q.version == s.saved.version && Start(w, s).q.forced == s.saved.forced
  {
    KickLive(w, s.(q := s.saved, rig := Rig(Replaced(s.rig.a), Replaced(s.rig.b), None),
                   paused := false, stopAfter := false, fillerIndex := 0).Log(EngineStart));
  }

  // ---------------------------------------------------------------- every run

  lemma StepLive(w: World, s: State, act: Action)
    requires Live(w, s)
    ensures Live(w, Step(w, s, act))
  {
    hide Live, OnEndFile, OnMutation, OnOperate, OnXfadeDue, OnDeckDead, OnMixerRamp, Kick, Start;
    match act
    case EndFile(d, client, entryId, reason) => OnEndFileLive(w, s, d, client, entryId, reason);
    case Mutate(m) => OnMutationLive(w, s, m);
    case Operate(op) => OnOperateLive(w, s, op);
    case XfadeDue(d, client, known) => OnXfadeDueLive(w, s, d, client, known);
    case DeckDead(d, client) => OnDeckDeadLive(w, s, d, client);
    case KickAction => LiveCuttable(w, s); KickLive(w, s);
    case MixerRamp(d, client, volume, done) => OnMixerRampLive(w, s, d, client, volume, done);
    case EngineRestart => LiveCuttable(w, s); StartLive(w, s);
  }

  lemma LiveCuttable(w: World, s: State)
    requires Live(w, s)
    ensures Cuttable(w, s) && (s.saved.forced ==> s.saved.emergency)
  {
  }

  /** A state file not left half-way through the emergency button starts a run that is live throughout. */
  lemma {:induction false} RunLive(w: World, file: Queue, acts: seq<Action>)
    requires file.forced ==> file.emergency
    ensures Live(w, Run(w, Start(w, Boot(file)), acts))
    decreases |acts|
  {
    hide Live, Start, Step;
    if acts == [] {
      StartLive(w, Boot(file));
    } else {
      RunLive(w, file, acts[..|acts| - 1]);
      StepLive(w, Run(w, Start(w, Boot(file)), acts[..|acts| - 1]), acts[|acts| - 1]);
    }
  }

  /** What listeners can hear in a live state: the on-air deck unless paused, and at most the song
      fading out beneath it. A spot, or filler, is at full volume from its first moment. */
  lemma OnlyOneProgramme(w: World, s: State)
    requires Live(w, s)
    ensures
      var k := s.rig.Get(s.rig.onair.value);
      var o := s.rig.Get(Other(s.rig.onair.value));
      && k.player.file.Some? && (k.player.paused <==> s.paused)
      && (o.player.file.Some? && !o.player.paused ==> o.role == Fading && IsSong(o.entry.value.source))
      && (k.entry.Some? && !IsSong(k.entry.value.source) ==> k.player.volume == FULL_VOLUME)
      && (k.entry.None? ==> k.player.volume == FULL_VOLUME)
  {
  }

  /** A report from a player since replaced, or about an earlier file on its deck, or of an end the engine
      itself brought about, changes nothing. */
  lemma StaleReportsIgnored(w: World, s: State, d: Which, client: nat, entryId: Option<int>, reason: Reason)
    ensures client != s.rig.Get(d).client ==>
              && Step(w, s, EndFile(d, client, entryId, reason)) == s
              && Step(w, s, DeckDead(d, Some(client))) == s
              && Step(w, s, XfadeDue(d, client, true)) == s
    ensures s.rig.Get(d).mpvEntryId.Some? && entryId.Some? && entryId != s.rig.Get(d).mpvEntryId ==>
              Step(w, s, EndFile(d, client, entryId, reason)) == s
    ensures Step(w, s, EndFile(d, client, entryId, OtherReason)) == s
  {
  }

  // ---------------------------------------------------------------- the emergency button

  /** From `s` to `r`, nothing but filler went on air. */
  predicate FillerOnly(s: State, r: State) {
    s.log <= r.log &&
    forall k :: |s.log| <= k < |r.log| && r.log[k].TrackStart? ==> r.log[k].entry.None?
  }

  lemma FillerAired(w: World, s: State, d: Which, path: Path)
    requires s.q.forced
    ensures FillerOnly(s, GoOnAir(w, s, d, path, None, false, false))
  {
  }

  lemma PlayFillerOnly(w: World, s: State)
    requires s.q.forced
    ensures FillerOnly(s, PlayFiller(w, s))
  {
    hide GoOnAir;
    var s1 := s.(rig := s.rig.StopOnAir());
    var d := s1.rig.FreeOrFirst();
    var candidates := w.filler(s1.clock);
    if candidates != [] {
      FillerAired(w, s1.Tick().(fillerIndex := s1.fillerIndex + 1), d, candidates[s1.fillerIndex % |candidates|]);
    } else {
      FillerAired(w, s1.Tick(), d, w.bakedIn);
    }
  }

  lemma ForcedMoves(w: World, s: State, hold: bool)
    requires s.q.forced && s.q.emergency
    ensures FillerOnly(s, PlayNextEmergency(w, s))
    ensures FillerOnly(s, AdvanceOrFail(w, s, hold))
    ensures FillerOnly(s, EnterEmergency(w, s))
    ensures FillerOnly(s, Kick(w, s))
    ensures EnsurePreloaded(w, s) == s
  {
    hide PlayFiller;
    PlayFillerOnly(w, s);
    PlayFillerOnly(w, s.(rig := s.rig.StopRole(Preloaded)));
  }

  lemma ForcedEndFile(w: World, s: State, d: Which, client: nat, entryId: Option<int>, reason: Reason)
    requires Live(w, s) && s.q.forced
    ensures FillerOnly(s, OnEndFile(w, s, d, client, entryId, reason))
  {
    hide PlayNextEmergency, EnsurePreloaded, AdvanceOrFail, DropPending, RigOk;
    var k := s.rig.Get(d);
    var ended := k.(player := k.player.(file := None));
    var s1 := s.Log(TrackEnd(k.path, reason));
    ForcedMoves(w, s1.(rig := s.rig.Put(d, ended.Reset())), false);
    var rig := s.rig.Put(d, ended).Put(d, ended.Reset());
    ForcedMoves(w, s1.(rig := rig.(onair := if rig.onair == Some(d) then None else rig.onair)), false);
  }

  lemma ForcedOperate(w: World, s: State, op: EngineOp)
    requires Live(w, s) && s.q.forced && op != ResumeNormal
    ensures OnOperate(w, s, op).q.forced && FillerOnly(s, OnOperate(w, s, op))
  {
    hide PlayNextEmergency, EnterEmergency, AdvanceOrFail, RigOk, Live;
    OnOperateLive(w, s, op);
    LiveCuttable(w, s);
    LiveOnAir(w, s, A);
    if op == Skip { ForcedMoves(w, s.(rig := s.rig.StopRole(Fading)), false); }
  }

  lemma ForcedRest(w: World, s: State, act: Action)
    requires Live(w, s) && s.q.forced && (act.Mutate? || act.XfadeDue? || act.MixerRamp?)
    ensures Step(w, s, act).q.forced && FillerOnly(s, Step(w, s, act))
  {
    hide Live;
    LiveCuttable(w, s);
  }

  lemma FillerAfter(s: State, m: State, r: State, e: Event)
    requires m.log == s.log + [e] && !e.TrackStart? && FillerOnly(m, r)
    ensures FillerOnly(s, r)
  {
  }

  lemma ForcedDeckDead(w: World, s: State, d: Which, deadClient: Option<nat>)
    requires s.q.forced && s.q.emergency
    ensures FillerOnly(s, OnDeckDead(w, s, d, deadClient))
  {
    hide EnsurePreloaded, Kick;
    var k := s.rig.Get(d);
    var rig := s.rig.Put(d, Replaced(k)).(onair := if s.rig.onair == Some(d) then None else s.rig.onair);
    var s1 := s.(rig := rig).Log(MpvRestart(d));
    ForcedMoves(w, s1, false);
    if deadClient.None? || deadClient.value == k.client {
      assert FillerOnly(s1, s1);
      FillerAfter(s, s1, OnDeckDead(w, s, d, deadClient), MpvRestart(d));
    }
  }

  lemma ForcedStart(w: World, s: State)
    requires s.q.forced && s.q.emergency && s.saved == s.q
    ensures FillerOnly(s, Start(w, s))
  {
    hide Kick, FillerOnly;
    var s1 := s.(q := s.saved, rig := Rig(Replaced(s.rig.a), Replaced(s.rig.b), None),
                 paused := false, stopAfter := false, fillerIndex := 0).Log(EngineStart);
    ForcedMoves(w, s1, false);
    FillerAfter(s, s1, Start(w, s), EngineStart);
  }

  lemma ForcedRestart(w: World, s: State, act: Action)
    requires Live(w, s) && s.q.forced && (act.DeckDead? || act.KickAction? || act.EngineRestart?)
    ensures Step(w, s, act).q.forced && FillerOnly(s, Step(w, s, act))
  {
    hide OnDeckDead, Kick, Start, Live, RigOn, RigOff, FillerOnly;
    LiveCuttable(w, s);
    LiveSaved(w, s);
    match act
    case DeckDead(d, client) =>
      OnDeckDeadLive(w, s, d, client);
      ForcedDeckDead(w, s, d, client);
    case KickAction =>
      KickLive(w, s);
      ForcedMoves(w, s, false);
    case EngineRestart =>
      StartLive(w, s);
      ForcedStart(w, s);
  }

  /** One owner action under the emergency button, other than its release. */
  lemma ForcedStep(w: World, s: State, act: Action)
    requires Live(w, s) && s.q.forced && act != Operate(ResumeNormal)
    ensures Step(w, s, act).q.forced && FillerOnly(s, Step(w, s, act))
  {
    hide OnEndFile, OnOperate, Live, FillerOnly;
    match act
    case EndFile(d, client, entryId, reason) =>
      ForcedEndFile(w, s, d, client, entryId, reason);
      OnEndFileLive(w, s, d, client, entryId, reason);
    case Operate(op) => ForcedOperate(w, s, op);
    case DeckDead(_, _) => ForcedRestart(w, s, act);
    case KickAction => ForcedRestart(w, s, act);
    case EngineRestart => ForcedRestart(w, s, act);
    case _ => ForcedRest(w, s, act);
  }

  /** The operator's emergency holds: whatever happens until it is released, the forced flag stays,
      only filler goes on air, and filler is what is on air. */
  lemma {:induction false} ForcedEmergencyHolds(w: World, s: State, acts: seq<Action>)
    requires Live(w, s) && s.q.forced && Operate(ResumeNormal) !in acts
    ensures
      var r := Run(w, s, acts);
      Live(w, r) && r.q.forced && r.q.emergency && AirEntry(r.rig).None? && FillerOnly(s, r)
    decreases |acts|
  {
    hide Step, RigOk, RigOn;
    if acts != [] {
      var before := Run(w, s, acts[..|acts| - 1]);
      ForcedEmergencyHolds(w, s, acts[..|acts| - 1]);
      ForcedStep(w, before, acts[|acts| - 1]);
      StepLive(w, before, acts[|acts| - 1]);
    }
  }

  /** Pressing it is enough: filler is on air and nothing else went on air meanwhile. */
  lemma EmergencyPressed(w: World, s: State)
    requires Live(w, s)
    ensures
      var r := Step(w, s, Operate(Emergency));
      Live(w, r) && r.q.forced && AirEntry(r.rig).None? && FillerOnly(s, r)
  {
    hide RigOk, PlayFiller;
    OnOperateLive(w, s, Emergency);
    if !s.q.forced {
      var q1: Queue := s.q.(forced := true);
      var q2: Queue := q1.(emergency := true);
      var s1 := s.(q := q1, saved := q1, rig := s.rig.StopRole(Fading)).Log(EmergencyForced);
      var s2 := if q1.emergency then s1 else s1.Log(EmergencyEnter).(q := q2, saved := q2);
      PlayFillerOnly(w, s2.(rig := s2.rig.StopRole(Preloaded)));
    }
  }

  /** When filler ends, the queue returns exactly if the button is not held and the very next entry
      is playable at that moment; a playable entry further down does not end the emergency. */
  lemma FillerEnded(w: World, s: State, reason: Reason)
    requires Live(w, s) && s.q.emergency && reason != OtherReason
    ensures
      var d := s.rig.onair.value;
      var k := s.rig.Get(d);
      var r := Step(w, s, EndFile(d, k.client, k.mpvEntryId, reason));
      !r.q.emergency <==> QueueReady(w, s)
  {
    hide DeckOk, PlayNextEmergency;
    var d := s.rig.onair.value;
    var k := s.rig.Get(d);
    var ended := k.(player := k.player.(file := None));
    SilencedRig(w, s.rig, d, ended.Reset());
    assert s.rig.Put(d, ended).Put(d, ended.Reset()) == s.rig.Put(d, ended.Reset());
    var rig := s.rig.Put(d, ended.Reset()).(onair := None);
    PlayNextEmergencyLive(w, s.Log(TrackEnd(k.path, reason)).(rig := rig));
  }

  // ---------------------------------------------------------------- version protocol

  lemma StepVersion(w: World, s: State, act: Action)
    requires Live(w, s)
    ensures Step(w, s, act).q.version == if act.Mutate? then Mutated(s.q, act.mutation).version else s.q.version
  {
    hide Live, OnEndFile, OnMutation, OnOperate, OnXfadeDue, OnDeckDead, OnMixerRamp, Kick, Start;
    match act
    case EndFile(d, client, entryId, reason) => OnEndFileLive(w, s, d, client, entryId, reason);
    case Mutate(m) => OnMutationLive(w, s, m);
    case Operate(op) => OnOperateLive(w, s, op);
    case XfadeDue(d, client, known) => OnXfadeDueLive(w, s, d, client, known);
    case DeckDead(d, client) => OnDeckDeadLive(w, s, d, client);
    case KickAction => LiveCuttable(w, s); KickLive(w, s);
    case MixerRamp(d, client, volume, done) => OnMixerRampLive(w, s, d, client, volume, done);
    case EngineRestart => LiveCuttable(w, s); StartLive(w, s); LiveSaved(w, s);
  }

  lemma LiveSaved(w: World, s: State)
    requires Live(w, s)
    ensures s.saved == s.q
  {
  }

  predicate NoMutationAccepted(w: World, s: State, acts: seq<Action>) {
    forall k :: 0 <= k < |acts| && acts[k].Mutate? ==>
      Judge(Run(w, s, acts[..k]).q, acts[k].mutation) != Accepted
  }

  lemma {:induction false} RunVersion(w: World, s: State, acts: seq<Action>)
    requires Live(w, s)
    ensures Live(w, Run(w, s, acts))
    ensures s.q.version <= Run(w, s, acts).q.version
    ensures s.q.version == Run(w, s, acts).q.version <==> NoMutationAccepted(w, s, acts)
    decreases |acts|
  {
    hide Live, Step;
    if acts != [] {
      var n := |acts| - 1;
      RunVersion(w, s, acts[..n]);
      StepLive(w, Run(w, s, acts[..n]), acts[n]);
      StepVersion(w, Run(w, s, acts[..n]), acts[n]);
      assert forall k :: 0 <= k < n ==> acts[..n][..k] == acts[..k] && acts[..n][k] == acts[k];
      assert NoMutationAccepted(w, s, acts) <==>
             NoMutationAccepted(w, s, acts[..n]) &&
             (acts[n].Mutate? ==> Judge(Run(w, s, acts[..n]).q, acts[n].mutation) != Accepted);
    }
  }

  /** Compare-and-swap through the engine: whatever the engine did since a client saw its status
      (played on, failed over, restarted), that client's mutation, sent with the version it saw plus
      one, is accepted exactly when no other mutation was; refused, it leaves the engine untouched. */
  lemma EngineCompareAndSwap(w: World, seen: State, acts: seq<Action>, op: QueueOp)
    requires Live(w, seen) && !op.UnknownOp?
    ensures
      var now := Run(w, seen, acts);
      var m := Mutation(op, Some(seen.q.version + 1));
      && (Judge(now.q, m) == Accepted <==> NoMutationAccepted(w, seen, acts))
      && (Judge(now.q, m) != Accepted ==> Step(w, now, Mutate(m)) == now)
  {
    hide Live;
    RunVersion(w, seen, acts);
  }
}
