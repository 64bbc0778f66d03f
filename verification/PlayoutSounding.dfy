/** Somebody is on air after every action, whatever flags the engine was started with. A crash inside the
  emergency button can leave the forced flag saved without the emergency flag; the queue then airs although
  the button is held, the other deck stays empty, and a replaced queue does not take over until the item on
  air ends. What holds all the same is `Sounding`. */
module PlayoutSounding {
  import opened Basics
  import opened QueueStore
  import opened Playout
  import opened PlayoutSafety

  /** The item on air is under the play-head, unless the queue was replaced beneath it. */
  predicate HeadHeld(s: State)
    requires s.rig.onair.Some?
  {
    AirEntry(s.rig).Some? ==> AtHead(s.q, AirEntry(s.rig).value) || s.q.current == -1
  }

  /** Nothing is preloaded while either emergency flag is up. */
  predicate FlagsClear(s: State) { s.q.emergency || s.q.forced ==> NonePreloaded(s.rig) }

  predicate Steady(w: World, s: State) {
    && RigOn(w, s.rig) && s.saved == s.q
    && s.rig.Get(s.rig.onair.value).player.paused == s.paused
    && (AirEntry(s.rig).None? <==> s.q.emergency)
    && HeadHeld(s)
    && FlagsClear(s)
  }

  /** A preloaded deck holds the next entry. */
  predicate PreloadsNext(w: World, q: Queue, r: Rig)
    requires r.onair.Some?
  {
    var o := r.Get(Other(r.onair.value));
    o.role == Preloaded ==> Next(q).Some? && Holds(w, o, Next(q).value)
  }

  /** What every state keeps, whatever flags the engine was started with. */
  predicate Sounding(w: World, s: State) { Steady(w, s) && PreloadsNext(w, s.q, s.rig) }

  /** Inside an action: something may be on air, and is about to be cut. */
  predicate Handing(w: World, s: State) {
    (RigOn(w, s.rig) || RigOff(w, s.rig)) && s.saved == s.q && FlagsClear(s)
  }

  lemma LiveSounds(w: World, s: State)
    requires Live(w, s)
    ensures Sounding(w, s)
  {
  }

  lemma SoundingHands(w: World, s: State)
    requires Sounding(w, s)
    ensures Handing(w, s)
  {
  }

  // ---------------------------------------------------------------- preloading and going on air

  lemma PrimeSounds(w: World, s: State)
    requires Steady(w, s) && !s.q.emergency && !s.q.forced
    ensures Sounding(w, PrimeFreeDeck(w, s))
  {
    hide DeckOk;
    FreeBesideOnAir(w, s.rig);
    if s.rig.Free().Some? && Next(s.q).Some? {
      LoadBesideOnAir(w, s.rig, Next(s.q).value, w.loadId(s.clock));
    }
  }

  lemma HeadKept(s: State, r: State)
    requires s.rig.onair.Some? && r.rig == s.rig && HeadHeld(s)
    requires r.q == s.q.(entries := r.q.entries) && Played(r.q) == Played(s.q)
    ensures HeadHeld(r)
  {
    if AirEntry(s.rig).Some? && s.q.current != -1 { PlayedKeepsHead(s.q, r.q, AirEntry(s.rig).value); }
  }

  lemma EnsurePreloadedSounds(w: World, s: State)
    requires Steady(w, s)
    ensures Sounding(w, EnsurePreloaded(w, s))
  {
    hide DeckOk, PrimeFreeDeck, HeadHeld;
    if !s.q.emergency && !s.q.forced {
      DropUnplayableKeeps(w, s);
      HeadKept(s, DropUnplayable(w, s));
      PrimeSounds(w, DropUnplayable(w, s));
    }
  }

  lemma AnnounceSounds(s: State, path: Path, entry: Option<Entry>)
    requires s.saved == s.q
    requires entry.None? ==> s.q.emergency
    requires entry.Some? ==> entry.value in s.q.entries
    ensures
      var r := Announce(s, path, entry);
      && r == s.(q := r.q, saved := r.saved, log := r.log, ledger := r.ledger) && r.saved == r.q
      && (r.q.forced ==> s.q.forced)
      && (r.q.emergency <==> entry.None?)
      && (entry.Some? ==> AtHead(r.q, entry.value))
  {
    if entry.Some? { assert entry.value.id in Ids(s.q.entries); }
  }

  lemma GoOnAirSounds(w: World, s: State, d: Which, path: Path, entry: Option<Entry>, fadeIn: bool, hold: bool)
    requires Handing(w, s) && RigOff(w, s.rig) && s.rig.Get(d).role in {Idle, Preloaded}
    requires entry.None? ==> s.q.emergency && !fadeIn && !hold
    requires entry.Some? ==> entry.value in s.q.entries && path == entry.value.path
    requires fadeIn ==> IsSong(entry.value.source)
    ensures Sounding(w, GoOnAir(w, s, d, path, entry, fadeIn, hold))
    ensures GoOnAir(w, s, d, path, entry, fadeIn, hold).rig.onair == Some(d)
    ensures AirEntry(GoOnAir(w, s, d, path, entry, fadeIn, hold).rig) == entry
  {
    hide DeckOk, Announce, EnsurePreloaded, Steady, Sounding, Rig.Load, Rig.Air, RigOn, RigOff, NonePreloaded, AlreadyLoaded;
    AirRig(w, s.rig, d, path, entry, fadeIn, !hold && !s.paused, w.loadId(s.clock));
    var s1 := if AlreadyLoaded(w, s.rig.Get(d), path) then s
              else s.(rig := s.rig.Load(d, path, entry, OnAir, w.loadId(s.clock))).Tick();
    var s2 := s1.(rig := s1.rig.Air(d, path, entry, fadeIn, !hold && !s.paused));
    AnnounceSounds(s2, path, entry);
    var s3 := Announce(s2, path, entry);
    var s4 := if hold then s3.(stopAfter := false, paused := true).Log(StoppedAfterSong) else s3;
    AiredSteady(w, s4, s.q.emergency || s.q.forced);
    EnsurePreloadedSounds(w, s4);
    PreparedAir(w, s4);
  }

  lemma AiredSteady(w: World, s: State, flags: bool)
    requires RigOn(w, s.rig) && s.saved == s.q && s.rig.Get(s.rig.onair.value).player.paused == s.paused
    requires AirEntry(s.rig).None? <==> s.q.emergency
    requires AirEntry(s.rig).Some? ==> AtHead(s.q, AirEntry(s.rig).value)
    requires s.q.emergency || s.q.forced ==> flags
    requires flags ==> NonePreloaded(s.rig)
    ensures Steady(w, s)
  {
  }

  /** Preparing the next item leaves the deck on air alone. */
  lemma PreparedAir(w: World, s: State)
    requires RigOn(w, s.rig)
    ensures EnsurePreloaded(w, s).rig.onair == s.rig.onair
    ensures EnsurePreloaded(w, s).rig.Get(s.rig.onair.value) == s.rig.Get(s.rig.onair.value)
  {
    hide DeckOk, DropUnplayable;
    DropUnplayableKeeps(w, s);
    FreeBesideOnAir(w, s.rig);
  }

  // ---------------------------------------------------------------- advancing and failing over

  lemma StoppedHands(w: World, s: State)
    requires Handing(w, s)
    ensures var r := s.(rig := s.rig.StopOnAir());
            Handing(w, r) && RigOff(w, r.rig) && r.rig.Get(r.rig.FreeOrFirst()).role in {Idle, Preloaded}
  {
    hide DeckOk;
    StoppedOnAir(w, s.rig);
  }

  lemma LoopedSounds(w: World, s: State)
    requires Sounding(w, s) && AirEntry(s.rig).None?
    requires s.rig.Get(s.rig.onair.value).path == Some(w.bakedIn)
    ensures var k := s.rig.Get(s.rig.onair.value);
            Sounding(w, s.(rig := s.rig.Put(s.rig.onair.value, k.(player := k.player.(looping := true)))))
  {
    hide DeckOk;
    LoopingFiller(w, s.rig);
  }

  lemma PlayFillerSounds(w: World, s: State)
    requires Handing(w, s) && s.q.emergency
    ensures Sounding(w, PlayFiller(w, s))
  {
    hide DeckOk, GoOnAir, Sounding;
    StoppedHands(w, s);
    var s1 := s.(rig := s.rig.StopOnAir());
    var d := s1.rig.FreeOrFirst();
    var candidates := w.filler(s1.clock);
    if candidates != [] {
      var p := candidates[s1.fillerIndex % |candidates|];
      GoOnAirSounds(w, s1.Tick().(fillerIndex := s1.fillerIndex + 1), d, p, None, false, false);
    } else {
      var r := GoOnAir(w, s1.Tick(), d, w.bakedIn, None, false, false);
      GoOnAirSounds(w, s1.Tick(), d, w.bakedIn, None, false, false);
      AiredPath(w, s1.Tick(), d, w.bakedIn);
      LoopedSounds(w, r);
    }
  }

  lemma AiredPath(w: World, s: State, d: Which, path: Path)
    requires Handing(w, s) && RigOff(w, s.rig) && s.rig.Get(d).role in {Idle, Preloaded} && s.q.emergency
    ensures GoOnAir(w, s, d, path, None, false, false).rig.Get(d).path == Some(path)
  {
    hide DeckOk, Announce, EnsurePreloaded;
    AirRig(w, s.rig, d, path, None, false, !s.paused, w.loadId(s.clock));
    var s1 := if AlreadyLoaded(w, s.rig.Get(d), path) then s
              else s.(rig := s.rig.Load(d, path, None, OnAir, w.loadId(s.clock))).Tick();
    var s2 := s1.(rig := s1.rig.Air(d, path, None, false, !s.paused));
    AnnounceSounds(s2, path, None);
    PreparedAir(w, Announce(s2, path, None));
  }

  lemma PlayNextEmergencySounds(w: World, s: State)
    requires Handing(w, s) && s.q.emergency
    ensures Sounding(w, PlayNextEmergency(w, s))
  {
    hide DeckOk, GoOnAir, PlayFiller, Sounding;
    if QueueReady(w, s) {
      StoppedHands(w, s);
      var s1 := s.Tick().(rig := s.rig.StopOnAir());
      GoOnAirSounds(w, s1, s1.rig.FreeOrFirst(), Next(s.q).value.path, Next(s.q), false, false);
    } else {
      PlayFillerSounds(w, s);
      PlayFillerSounds(w, s.Tick());
    }
  }

  lemma EnterEmergencySounds(w: World, s: State)
    requires (RigOn(w, s.rig) || RigOff(w, s.rig)) && s.saved == s.q
    ensures Sounding(w, EnterEmergency(w, s))
  {
    hide DeckOk, PlayNextEmergency, Sounding;
    StopRoleKeeps(w, s.rig, Preloaded);
    var q1: Queue := s.q.(emergency := true);
    var s1 := if s.q.emergency then s else s.Log(EmergencyEnter).(q := q1, saved := q1);
    PlayNextEmergencySounds(w, s1.(rig := s1.rig.StopRole(Preloaded)));
  }

  lemma {:induction false} ScanSounds(w: World, s: State, idx: nat, hold: bool)
    requires Handing(w, s) && RigOff(w, s.rig) && s.rig.Get(s.rig.FreeOrFirst()).role in {Idle, Preloaded}
    ensures Sounding(w, Scan(w, s, idx, hold))
    decreases |s.q.entries| - idx
  {
    hide DeckOk, GoOnAir, EnterEmergency, Sounding;
    if idx >= |s.q.entries| {
      EnterEmergencySounds(w, s);
    } else if w.disk(s.clock, s.q.entries[idx].path) {
      var e := s.q.entries[idx];
      GoOnAirSounds(w, s.Tick(), s.rig.FreeOrFirst(), e.path, Some(e), false, hold);
    } else {
      ScanSounds(w, s.Tick().Log(TrackSkip(s.q.entries[idx])), idx + 1, hold);
    }
  }

  lemma AdvanceSounds(w: World, s: State, hold: bool)
    requires Handing(w, s)
    ensures Sounding(w, AdvanceOrFail(w, s, hold))
    ensures Sounding(w, Kick(w, s))
  {
    hide Handing, Scan, PlayNextEmergency, EnterEmergency, Sounding;
    StoppedHands(w, s);
    if s.q.emergency {
      PlayNextEmergencySounds(w, s);
      HandingRig(w, s);
      EnterEmergencySounds(w, s);
    } else {
      ScanSounds(w, s.(rig := s.rig.StopOnAir()), s.q.current + 1, hold);
      ScanSounds(w, s.(rig := s.rig.StopOnAir()), s.q.current + 1, false);
    }
  }

  lemma HandingRig(w: World, s: State)
    requires Handing(w, s)
    ensures (RigOn(w, s.rig) || RigOff(w, s.rig)) && s.saved == s.q
  {
  }

  // ---------------------------------------------------------------- owner actions

  /** A deck fell silent: nothing is on air if it was the one, and the other plays on if it was not. */
  lemma SilencedSounds(w: World, s: State, e: Event, d: Which, k: Deck)
    requires Sounding(w, s) && k == k.Reset() && k.player.file.None?
    ensures
      var r := s.Log(e).(rig := s.rig.Put(d, k));
      && (s.rig.onair == Some(d) ==> Handing(w, r.(rig := r.rig.(onair := None))))
      && (s.rig.onair != Some(d) ==> Steady(w, r))
  {
    hide DeckOk;
    SilencedRig(w, s.rig, d, k);
  }

  lemma SoundingOnAir(w: World, s: State, d: Which)
    requires Sounding(w, s)
    ensures s.rig.onair.Some? && (s.rig.Get(d).role == OnAir <==> s.rig.onair == Some(d))
    ensures s.rig.Get(d).role == Preloaded ==>
              !s.q.emergency && !s.q.forced && s.rig.Get(d).entry.Some? && s.rig.onair != Some(d)
    ensures s.rig.Get(d).role == Idle ==> s.rig.Get(d).(player := s.rig.Get(d).player.(file := None)) == s.rig.Get(d)
  {
    RoleFacts(w, s.rig.Get(d));
  }

  lemma DroppedSteady(w: World, s: State, e: Entry)
    requires Steady(w, s)
    ensures Steady(w, DropPending(s, e))
  {
    hide DeckOk, HeadHeld;
    var r := DropPending(s, e);
    assert Played(r.q) == Played(s.q);
    HeadKept(s, r);
  }

  lemma LoggedSounds(w: World, s: State, e: Event)
    requires Sounding(w, s)
    ensures Sounding(w, s.Log(e))
  {
  }

  lemma AirEndedSounds(w: World, s: State, e: Event)
    requires Sounding(w, s)
    ensures
      var d := s.rig.onair.value;
      var ended := s.rig.Get(d).(player := s.rig.Get(d).player.(file := None));
      Sounding(w, OnAirEnded(w, s.Log(e).(rig := s.rig.Put(d, ended)), d))
  {
    hide DeckOk, AdvanceOrFail, PlayNextEmergency, Sounding;
    SoundingOnAir(w, s, A);
    var d := s.rig.onair.value;
    var ended := s.rig.Get(d).(player := s.rig.Get(d).player.(file := None));
    SilencedSounds(w, s, e, d, ended.Reset());
    assert s.rig.Put(d, ended).Put(d, ended.Reset()) == s.rig.Put(d, ended.Reset());
    var s1 := s.Log(e).(rig := s.rig.Put(d, ended.Reset()).(onair := None));
    if s.q.emergency { PlayNextEmergencySounds(w, s1); } else { AdvanceSounds(w, s1, s1.stopAfter); }
  }

  lemma EndFileSounds(w: World, s: State, d: Which, client: nat, entryId: Option<int>, reason: Reason)
    requires Sounding(w, s)
    ensures Sounding(w, OnEndFile(w, s, d, client, entryId, reason))
  {
    hide EnsurePreloaded, OnAirEnded, DropPending, Sounding, Steady;
    SoundingOnAir(w, s, d);
    var k := s.rig.Get(d);
    if !EndFileStale(k, client, entryId) && reason != OtherReason {
      var e := TrackEnd(k.path, reason);
      var silent := k.(player := k.player.(file := None)).Reset();
      SilencedSounds(w, s, e, d, silent);
      var s1 := s.Log(e).(rig := s.rig.Put(d, silent));
      match k.role
      case OnAir => AirEndedSounds(w, s, e);
      case Fading => EnsurePreloadedSounds(w, s1);
      case Preloaded =>
        DroppedSteady(w, s1, k.entry.value);
        EnsurePreloadedSounds(w, DropPending(s1, k.entry.value));
      case Idle =>
        LoggedSounds(w, s, e);
        assert s.rig.Put(d, k) == s.rig;
    }
  }

  lemma XfadeSounds(w: World, s: State, d: Which, client: nat, positionKnown: bool)
    requires Sounding(w, s)
    ensures Sounding(w, OnXfadeDue(w, s, d, client, positionKnown))
  {
    hide DeckOk, GoOnAir;
    var k := s.rig.Get(d);
    if s.rig.onair == Some(d) && Crossfades(w, k) && !s.q.emergency && !s.q.forced && Next(s.q).Some? &&
       s.rig.Get(Other(d)).role in {Idle, Preloaded}
    {
      FadingRig(w, s.rig);
      var n := Next(s.q).value;
      var fading := s.rig.Put(d, k.(role := Fading, fade := FadeOut)).(onair := None);
      var s1 := s.Tick().(rig := fading).Log(Crossfade(k.path, n.path));
      GoOnAirSounds(w, s1, Other(d), n.path, Some(n), IsSong(n.source), false);
    }
  }

  /** The state an accepted mutation leaves before the engine reacts to it. */
  lemma QueuedSteady(w: World, s: State, m: Mutation, ledger: Ledger)
    requires Sounding(w, s)
    ensures
      var q1 := Mutated(s.q, m);
      var s1 := s.(q := q1, saved := q1, ledger := ledger);
      && Steady(w, s1) && Handing(w, s1)
      && (s.q.forced ==> Sounding(w, s1))
  {
    hide DeckOk, Mutated;
    MutatedHead(s.q, m);
  }

  lemma MutatedHead(q: Queue, m: Mutation)
    ensures Mutated(q, m).emergency == q.emergency && Mutated(q, m).forced == q.forced
    ensures q.current == -1 ==> Mutated(q, m).current == -1
    ensures forall e :: AtHead(q, e) ==> AtHead(Mutated(q, m), e) || Mutated(q, m).current == -1
  {
    if !m.op.Replace? {
      forall e | AtHead(q, e) ensures AtHead(Mutated(q, m), e) { MutatedKeepsHead(q, m, e); }
    }
  }

  lemma MutationSounds(w: World, s: State, m: Mutation)
    requires Sounding(w, s)
    ensures Sounding(w, OnMutation(w, s, m))
  {
    hide DeckOk, EnsurePreloaded, AdvanceOrFail, PlayNextEmergency, Mutated, Steady;
    if Judge(s.q, m) == Accepted {
      var q1 := Mutated(s.q, m);
      var ledger := s.ledger.(accepted := s.ledger.accepted + multiset(Brought(m.op)),
                              removed := s.ledger.removed + TakenOut(s.q, m.op));
      var s1 := s.(q := q1, saved := q1, ledger := ledger);
      QueuedSteady(w, s, m, ledger);
      StopRoleKeeps(w, s.rig, Fading);
      MutatedHead(s.q, m);
      if !q1.forced {
        if m.op.Replace? {
          AdvanceSounds(w, s1.(rig := s.rig.StopRole(Fading)), false);
        } else if q1.emergency {
          PlayNextEmergencySounds(w, s1);
        } else {
          SoundingOnAir(w, s, A);
          EnsurePreloadedSounds(w, s1);
        }
      }
    }
  }

  lemma SwitchedSounds(w: World, s: State, paused: bool, e: Event)
    requires Sounding(w, s)
    ensures Sounding(w, s.(paused := paused, rig := SetPauseAll(s.rig, paused)).Log(e))
  {
    hide DeckOk, SetPauseAll;
    PausedRig(w, s.rig, paused);
  }

  lemma ReleasedSounds(w: World, s: State, e: Event)
    requires Sounding(w, s) && !s.q.emergency
    ensures var q1: Queue := s.q.(forced := false); Sounding(w, s.(q := q1, saved := q1).Log(e))
  {
  }

  lemma OperateSounds(w: World, s: State, op: EngineOp)
    requires Sounding(w, s)
    ensures Sounding(w, OnOperate(w, s, op))
  {
    hide DeckOk, AdvanceOrFail, PlayNextEmergency, EnterEmergency, SetPauseAll;
    StopRoleKeeps(w, s.rig, Fading);
    match op
    case Skip => AdvanceSounds(w, s.(rig := s.rig.StopRole(Fading)), false);
    case Pause => SwitchedSounds(w, s, true, PauseEvent);
    case Resume => SwitchedSounds(w, s, false, ResumeEvent);
    case Emergency =>
      var q1: Queue := s.q.(forced := true);
      EnterEmergencySounds(w, s.(q := q1, saved := q1, rig := s.rig.StopRole(Fading)).Log(EmergencyForced));
    case ResumeNormal =>
      var q1: Queue := s.q.(forced := false);
      if s.q.emergency {
        PlayNextEmergencySounds(w, s.(q := q1, saved := q1).Log(EmergencyForceCleared));
      } else {
        ReleasedSounds(w, s, EmergencyForceCleared);
      }
    case _ =>
  }

  lemma DeckDeadSounds(w: World, s: State, d: Which, deadClient: Option<nat>)
    requires Sounding(w, s)
    ensures Sounding(w, OnDeckDead(w, s, d, deadClient))
  {
    hide Kick, EnsurePreloaded, Sounding, Steady, Handing;
    SoundingOnAir(w, s, d);
    var k := s.rig.Get(d);
    SilencedSounds(w, s, MpvRestart(d), d, Replaced(k));
    var s1 := s.Log(MpvRestart(d)).(rig := s.rig.Put(d, Replaced(k)));
    if s.rig.onair == Some(d) {
      AdvanceSounds(w, s1.(rig := s1.rig.(onair := None)), false);
    } else {
      EnsurePreloadedSounds(w, s1);
    }
  }

  lemma RampSounds(w: World, s: State, d: Which, client: nat, volume: int, fadeInDone: bool)
    requires Sounding(w, s)
    ensures Sounding(w, OnMixerRamp(s, d, client, volume, fadeInDone))
  {
    hide DeckOk;
    if s.rig.Get(d).fade != NoFade && s.rig.Get(d).role in {OnAir, Fading} { RampRig(w, s.rig, d, volume); }
  }

  lemma StartSounds(w: World, s: State)
    ensures Sounding(w, Start(w, s))
  {
    hide Kick, Sounding;
    AdvanceSounds(w, s.(q := s.saved, rig := Rig(Replaced(s.rig.a), Replaced(s.rig.b), None),
                        paused := false, stopAfter := false, fillerIndex := 0).Log(EngineStart), false);
  }

  lemma StepSounds(w: World, s: State, act: Action)
    requires Sounding(w, s)
    ensures Sounding(w, Step(w, s, act))
  {
    hide Sounding, OnEndFile, OnMutation, OnOperate, OnXfadeDue, OnDeckDead, OnMixerRamp, Kick, Start;
    match act
    case EndFile(d, client, entryId, reason) => EndFileSounds(w, s, d, client, entryId, reason);
    case Mutate(m) => MutationSounds(w, s, m);
    case Operate(op) => OperateSounds(w, s, op);
    case XfadeDue(d, client, known) => XfadeSounds(w, s, d, client, known);
    case DeckDead(d, client) => DeckDeadSounds(w, s, d, client);
    case KickAction => SoundingHands(w, s); AdvanceSounds(w, s, false);
    case MixerRamp(d, client, volume, done) => RampSounds(w, s, d, client, volume, done);
    case EngineRestart => StartSounds(w, s);
  }
}
