/** The operator's two switches: paused, and stop after this song. Which actions set them, which release
  them, and what they do to the players; every other action leaves both alone. */
module PlayoutSwitches {
  import opened Basics
  import opened QueueStore
  import opened Playout
  import opened PlayoutSafety
  import opened PlayoutSounding
  import opened PlayoutChoice

  // ---------------------------------------------------------------- the steps that touch neither

  lemma PreparedSwitches(w: World, s: State)
    ensures SameSwitches(s, EnsurePreloaded(w, s))
  {
    hide DropUnplayable;
    DropUnplayableKeeps(w, s);
  }

  lemma AiredSwitches(w: World, s: State, d: Which, path: Path, entry: Option<Entry>, fadeIn: bool, hold: bool)
    ensures Switched(s, GoOnAir(w, s, d, path, entry, fadeIn, hold), hold)
  {
    hide EnsurePreloaded;
    var s1 := if AlreadyLoaded(w, s.rig.Get(d), path) then s
              else s.(rig := s.rig.Load(d, path, entry, OnAir, w.loadId(s.clock))).Tick();
    var s2 := s1.(rig := s1.rig.Air(d, path, entry, fadeIn, !hold && !s.paused));
    var s3 := Announce(s2, path, entry);
    PreparedSwitches(w, if hold then s3.(stopAfter := false, paused := true).Log(StoppedAfterSong) else s3);
  }

  lemma FillerSwitches(w: World, s: State)
    ensures SameSwitches(s, PlayFiller(w, s))
  {
    hide GoOnAir;
    var s1 := s.(rig := s.rig.StopOnAir());
    var d := s1.rig.FreeOrFirst();
    var candidates := w.filler(s1.clock);
    if candidates != [] {
      var p := candidates[s1.fillerIndex % |candidates|];
      AiredSwitches(w, s1.Tick().(fillerIndex := s1.fillerIndex + 1), d, p, None, false, false);
    } else {
      AiredSwitches(w, s1.Tick(), d, w.bakedIn, None, false, false);
    }
  }

  lemma FailoverSwitches(w: World, s: State)
    ensures SameSwitches(s, PlayNextEmergency(w, s))
    ensures SameSwitches(s, EnterEmergency(w, s))
  {
    hide PlayNextEmergency;
    NextEmergencySwitches(w, s);
    var q1: Queue := s.q.(emergency := true);
    var s1 := if s.q.emergency then s else s.Log(EmergencyEnter).(q := q1, saved := q1);
    NextEmergencySwitches(w, s1.(rig := s1.rig.StopRole(Preloaded)));
  }

  lemma NextEmergencySwitches(w: World, s: State)
    ensures SameSwitches(s, PlayNextEmergency(w, s))
  {
    hide GoOnAir, PlayFiller;
    FillerSwitches(w, s);
    FillerSwitches(w, s.Tick());
    if Next(s.q).Some? {
      var s1 := s.Tick().(rig := s.rig.StopOnAir());
      AiredSwitches(w, s1, s1.rig.FreeOrFirst(), Next(s.q).value.path, Next(s.q), false, false);
    }
  }

  // ---------------------------------------------------------------- an advance told to hold

  /** The entries from `idx` on. */
  function From(s: State, idx: nat): seq<Entry> {
    if idx <= |s.q.entries| then s.q.entries[idx..] else []
  }

  lemma {:induction false} ScanSwitches(w: World, s: State, idx: nat, hold: bool)
    ensures Switched(s, Scan(w, s, idx, hold), hold && Choice(w, s.clock, From(s, idx), None).Some?)
    decreases |s.q.entries| - idx
  {
    hide GoOnAir, EnterEmergency;
    if idx >= |s.q.entries| {
      FailoverSwitches(w, s);
    } else {
      var e := s.q.entries[idx];
      assert From(s, idx)[0] == e && From(s, idx)[1..] == From(s, idx + 1);
      if w.disk(s.clock, e.path) {
        AiredSwitches(w, s.Tick(), s.rig.FreeOrFirst(), e.path, Some(e), false, hold);
      } else {
        ScanSwitches(w, s.Tick().Log(TrackSkip(e)), idx + 1, hold);
      }
    }
  }

  lemma AdvanceSwitches(w: World, s: State, hold: bool)
    ensures Switched(s, AdvanceOrFail(w, s, hold),
                     hold && !s.q.emergency && Choice(w, s.clock, Pending(s.q), None).Some?)
    ensures SameSwitches(s, Kick(w, s))
  {
    hide Scan, PlayNextEmergency, EnterEmergency;
    FailoverSwitches(w, s);
    var s1 := s.(rig := s.rig.StopOnAir());
    assert From(s1, s.q.current + 1) == Pending(s.q);
    ScanSwitches(w, s1, s.q.current + 1, hold);
    ScanSwitches(w, s1, s.q.current + 1, false);
  }

  // ---------------------------------------------------------------- the switch law

  /** The item on air ends, told to stop after it, and there is an entry to hold. */
  predicate HeldEnd(w: World, s: State, act: Action) {
    && act.EndFile? && act.reason != OtherReason
    && !EndFileStale(s.rig.Get(act.deck), act.client, act.entryId)
    && s.rig.Get(act.deck).role == OnAir
    && s.stopAfter && !s.q.emergency && Choice(w, s.clock, Pending(s.q), None).Some?
  }

  function PausedAfter(w: World, s: State, act: Action): bool {
    match act
    case Operate(Pause) => true
    case Operate(Resume) => false
    case EngineRestart => false
    case _ => s.paused || HeldEnd(w, s, act)
  }

  function StopAfterAfter(w: World, s: State, act: Action): bool {
    match act
    case Operate(StopAfter) => !s.stopAfter
    case EngineRestart => false
    case _ => s.stopAfter && !HeldEnd(w, s, act)
  }

  lemma AirEndSwitches(w: World, s: State, d: Which)
    ensures Switched(s, OnAirEnded(w, s, d),
                     s.stopAfter && !s.q.emergency && Choice(w, s.clock, Pending(s.q), None).Some?)
  {
    hide AdvanceOrFail, PlayNextEmergency, Choice, Pending;
    var rig := s.rig.Put(d, s.rig.Get(d).Reset());
    var s1 := s.(rig := rig.(onair := if rig.onair == Some(d) then None else rig.onair));
    FailoverSwitches(w, s1);
    AdvanceSwitches(w, s1, s1.stopAfter);
  }

  lemma EndedSwitches(w: World, s: State, act: Action)
    requires act.EndFile?
    ensures Switched(s, Step(w, s, act), HeldEnd(w, s, act))
  {
    hide EnsurePreloaded, OnAirEnded, DropPending, Choice, Pending, Rig.Put, Rig.Get;
    var d := act.deck;
    var k := s.rig.Get(d);
    var ended := k.(player := k.player.(file := None));
    var s1 := s.Log(TrackEnd(k.path, act.reason));
    var s2 := s1.(rig := s.rig.Put(d, ended.Reset()));
    PreparedSwitches(w, s2);
    if k.entry.Some? {
      PreparedSwitches(w, DropPending(s2, k.entry.value));
      DroppedSwitches(s2, k.entry.value);
    }
    AirEndSwitches(w, s1.(rig := s.rig.Put(d, ended)), d);
  }

  lemma DroppedSwitches(s: State, e: Entry)
    ensures SameSwitches(s, DropPending(s, e))
  {
  }

  lemma MutationSwitches(w: World, s: State, m: Mutation)
    ensures SameSwitches(s, OnMutation(w, s, m))
  {
    hide EnsurePreloaded, AdvanceOrFail, PlayNextEmergency, Mutated;
    var q1 := Mutated(s.q, m);
    var ledger := s.ledger.(accepted := s.ledger.accepted + multiset(Brought(m.op)),
                            removed := s.ledger.removed + TakenOut(s.q, m.op));
    var s1 := s.(q := q1, saved := q1, ledger := ledger);
    AdvanceSwitches(w, s1, false);
    AdvanceSwitches(w, s1.(rig := s.rig.StopRole(Fading)), false);
    FailoverSwitches(w, s1);
    PreparedSwitches(w, s1);
  }

  lemma OperateSwitches(w: World, s: State, op: EngineOp)
    ensures OnOperate(w, s, op).paused == PausedAfter(w, s, Operate(op))
    ensures OnOperate(w, s, op).stopAfter == StopAfterAfter(w, s, Operate(op))
  {
    hide AdvanceOrFail, PlayNextEmergency, EnterEmergency;
    match op
    case Skip => AdvanceSwitches(w, s.(rig := s.rig.StopRole(Fading)), false);
    case Resume => AdvanceSwitches(w, s.(paused := false, rig := SetPauseAll(s.rig, false)).Log(ResumeEvent), false);
    case Emergency =>
      var q1: Queue := s.q.(forced := true);
      FailoverSwitches(w, s.(q := q1, saved := q1, rig := s.rig.StopRole(Fading)).Log(EmergencyForced));
    case ResumeNormal =>
      var q1: Queue := s.q.(forced := false);
      FailoverSwitches(w, s.(q := q1, saved := q1).Log(EmergencyForceCleared));
    case _ =>
  }

  lemma RestSwitches(w: World, s: State, act: Action)
    requires act.XfadeDue? || act.DeckDead? || act.KickAction? || act.MixerRamp?
    ensures SameSwitches(s, Step(w, s, act))
  {
    hide GoOnAir, Kick, EnsurePreloaded;
    match act
    case XfadeDue(d, _, _) =>
      if Next(s.q).Some? {
        var k, n := s.rig.Get(d), Next(s.q).value;
        var fading := s.rig.Put(d, k.(role := Fading, fade := FadeOut)).(onair := None);
        var s1 := s.Tick().(rig := fading).Log(Crossfade(k.path, n.path));
        AiredSwitches(w, s1, Other(d), n.path, Some(n), IsSong(n.source), false);
      }
    case DeckDead(d, _) =>
      var rig := s.rig.Put(d, Replaced(s.rig.Get(d))).(onair := if s.rig.onair == Some(d) then None else s.rig.onair);
      AdvanceSwitches(w, s.(rig := rig).Log(MpvRestart(d)), false);
      PreparedSwitches(w, s.(rig := rig).Log(MpvRestart(d)));
    case KickAction => AdvanceSwitches(w, s, false);
    case _ =>
  }

  lemma StartSwitches(w: World, s: State)
    ensures !Start(w, s).paused && !Start(w, s).stopAfter
  {
    hide Kick;
    AdvanceSwitches(w, s.(q := s.saved, rig := Rig(Replaced(s.rig.a), Replaced(s.rig.b), None),
                          paused := false, stopAfter := false, fillerIndex := 0).Log(EngineStart), false);
  }

  /** The switch law, from any state. A pause pauses and a resume releases; the stop-after button flips its
      order; a start clears both; the end of the item on air, told to stop after it, pauses and spends the
      order if there is a playable entry to hold; nothing else moves either switch. */
  lemma SwitchLaw(w: World, s: State, act: Action)
    ensures Step(w, s, act).paused == PausedAfter(w, s, act)
    ensures Step(w, s, act).stopAfter == StopAfterAfter(w, s, act)
  {
    hide OnEndFile, OnMutation, OnOperate, OnXfadeDue, OnDeckDead, Kick, Start, OnMixerRamp, Choice;
    match act
    case EndFile(_, _, _, _) => EndedSwitches(w, s, act);
    case Mutate(m) => MutationSwitches(w, s, m);
    case Operate(op) => OperateSwitches(w, s, op);
    case EngineRestart => StartSwitches(w, s);
    case _ => RestSwitches(w, s, act);
  }

  // ---------------------------------------------------------------- what listeners hear of it

  /** A start comes up playing, from any state file and after any run: neither switch is set and the item on
      air is not paused. */
  lemma StartsPlaying(w: World, s: State)
    ensures
      var r := Start(w, s);
      && Step(w, s, EngineRestart) == r && Sounding(w, r)
      && !r.paused && !r.stopAfter && !r.rig.Get(r.rig.onair.value).player.paused
  {
    hide Start;
    StartSwitches(w, s);
    StartSounds(w, s);
  }

  /** A pause stops every deck that is heard, the fading tail too, and a resume starts them again; neither
      touches anything else but the journal. */
  lemma PauseIsHeard(w: World, s: State)
    requires Sounding(w, s)
    ensures
      var r := Step(w, s, Operate(Pause));
      && r.paused && (forall d :: r.rig.Get(d).role in {OnAir, Fading} ==> r.rig.Get(d).player.paused)
      && r == s.(paused := true, rig := r.rig, log := s.log + [PauseEvent])
      && (forall d :: r.rig.Get(d) == s.rig.Get(d).(player := r.rig.Get(d).player)) && r.rig.onair == s.rig.onair
    ensures
      var r := Step(w, s, Operate(Resume));
      && !r.paused && (forall d :: r.rig.Get(d).role in {OnAir, Fading} ==> !r.rig.Get(d).player.paused)
      && r == s.(paused := false, rig := r.rig, log := s.log + [ResumeEvent])
      && (forall d :: r.rig.Get(d) == s.rig.Get(d).(player := r.rig.Get(d).player)) && r.rig.onair == s.rig.onair
  {
    hide DeckOk;
  }

  /** The stop-after button changes its own order and writes its line, no more; pressed twice it changes
      nothing but the journal. */
  lemma StopAfterFlips(w: World, s: State)
    ensures
      var r := Step(w, s, Operate(StopAfter));
      r == s.(stopAfter := !s.stopAfter, log := s.log + [StopAfterToggled(!s.stopAfter)])
    ensures
      var r := Step(w, Step(w, s, Operate(StopAfter)), Operate(StopAfter));
      r == s.(log := s.log + [StopAfterToggled(!s.stopAfter), StopAfterToggled(s.stopAfter)])
  {
    assert s.log + [StopAfterToggled(!s.stopAfter)] + [StopAfterToggled(s.stopAfter)] ==
           s.log + [StopAfterToggled(!s.stopAfter), StopAfterToggled(s.stopAfter)];
  }

  /** Armed, it holds: when the song on air ends by itself and a pending entry is playable, the first such
      entry is on air, paused at its start, and the order is spent. */
  lemma StopAfterHolds(w: World, s: State, reason: Reason)
    requires Live(w, s) && !s.q.emergency && !s.stopAfter && reason != OtherReason
    requires Choice(w, s.clock, Pending(s.q), None).Some?
    ensures
      var armed := Step(w, s, Operate(StopAfter));
      var d := s.rig.onair.value;
      var k := s.rig.Get(d);
      var r := Step(w, armed, EndFile(d, k.client, k.mpvEntryId, reason));
      && Live(w, r) && r.paused && !r.stopAfter
      && AirEntry(r.rig) == Choice(w, s.clock, Pending(s.q), Next(s.q))
      && r.rig.Get(r.rig.onair.value).player.paused
  {
    hide DeckOk, OnEndFile;
    var armed := Step(w, s, Operate(StopAfter));
    OnOperateLive(w, s, StopAfter);
    SkipAndTrackEndChoose(w, armed, reason);
  }

  // ---------------------------------------------------------------- over runs

  predicate Pauses(w: World, s: State, acts: seq<Action>, k: nat)
    requires k < |acts|
  {
    acts[k] == Operate(Pause) || HeldEnd(w, Run(w, s, acts[..k]), acts[k])
  }

  predicate Unpauses(act: Action) { act == Operate(Resume) || act == EngineRestart }

  /** Some action paused, and none since let go. */
  predicate LastPaused(w: World, s: State, acts: seq<Action>) {
    exists k :: 0 <= k < |acts| && Pauses(w, s, acts, k) && forall j :: k < j < |acts| ==> !Unpauses(acts[j])
  }

  lemma LastPausedStep(w: World, s: State, acts: seq<Action>)
    requires acts != []
    ensures
      var n := |acts| - 1;
      LastPaused(w, s, acts) <==>
        Pauses(w, s, acts, n) || (LastPaused(w, s, acts[..n]) && !Unpauses(acts[n]))
  {
    hide HeldEnd, Run;
    var n := |acts| - 1;
    assert forall k :: 0 <= k < n ==> acts[..n][..k] == acts[..k] && acts[..n][k] == acts[k];
    if LastPaused(w, s, acts[..n]) && !Unpauses(acts[n]) {
      var k :| 0 <= k < n && Pauses(w, s, acts[..n], k) && forall j :: k < j < n ==> !Unpauses(acts[..n][j]);
      assert Pauses(w, s, acts, k);
    }
    if LastPaused(w, s, acts) && !Pauses(w, s, acts, n) {
      var k :| 0 <= k < |acts| && Pauses(w, s, acts, k) && forall j :: k < j < |acts| ==> !Unpauses(acts[j]);
      assert Pauses(w, s, acts[..n], k);
    }
  }

  /** The station is paused only by its operator. Over any run from any state file, the engine is paused if
      and only if somebody paused it, or a stop-after order was carried out, and nobody has resumed and the
      engine has not started since. */
  lemma {:induction false} PausedOnlyByOperator(w: World, file: Queue, acts: seq<Action>)
    ensures Run(w, Start(w, Boot(file)), acts).paused <==> LastPaused(w, Start(w, Boot(file)), acts)
    decreases |acts|
  {
    hide Start, Step, HeldEnd, LastPaused;
    var s := Start(w, Boot(file));
    if acts == [] {
      StartSwitches(w, Boot(file));
      NeverPaused(w, s);
    } else {
      var n := |acts| - 1;
      PausedOnlyByOperator(w, file, acts[..n]);
      SwitchLaw(w, Run(w, s, acts[..n]), acts[n]);
      LastPausedStep(w, s, acts);
      RestartHoldsNothing(w, Run(w, s, acts[..n]), acts[n]);
    }
  }

  lemma NeverPaused(w: World, s: State)
    ensures !LastPaused(w, s, [])
  {
  }

  lemma RestartHoldsNothing(w: World, s: State, act: Action)
    ensures Unpauses(act) ==> !HeldEnd(w, s, act)
  {
  }
}
