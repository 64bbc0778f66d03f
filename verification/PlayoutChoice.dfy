/** What gets chosen: nothing airs or is skipped without a reason the outside world gave during that
  very action, and an advance airs the first pending entry found playable. */
module PlayoutChoice {
  import opened Basics
  import opened QueueStore
  import opened Playout
  import opened PlayoutSafety
  import opened PlayoutSounding
  import opened PlayoutLedger

  /** An answer given between clock `lo` and clock `hi` accounts for the event. */
  predicate Vouched(w: World, e: Event, lo: nat, hi: nat) {
    match e
    case TrackSkip(x) => exists c: nat :: lo <= c < hi && !w.disk(c, x.path)
    case TrackStart(p, Some(x)) => p == x.path && exists c: nat :: lo <= c < hi && w.disk(c, p)
    case TrackStart(p, None) =>
      exists c: nat :: lo <= c < hi && if w.filler(c) == [] then p == w.bakedIn else p in w.filler(c)
    case _ => true
  }

  /** Every event from `s` to `r` is accounted for. */
  predicate Honest(w: World, s: State, r: State) {
    && s.log <= r.log && s.clock <= r.clock
    && forall k :: |s.log| <= k < |r.log| ==> Vouched(w, r.log[k], s.clock, r.clock)
  }

  lemma HonestMore(w: World, o: State, s: State, r: State, e: Event)
    requires Honest(w, o, s) && s.clock <= r.clock
    requires r.log == s.log + [e] && Vouched(w, e, o.clock, r.clock)
    ensures Honest(w, o, r)
  {
  }

  lemma HonestSame(w: World, o: State, s: State, r: State)
    requires Honest(w, o, s) && s.clock <= r.clock && r.log == s.log
    ensures Honest(w, o, r)
  {
  }

  lemma {:induction false} DropUnplayableHonest(w: World, o: State, s: State)
    requires Honest(w, o, s)
    ensures Honest(w, o, DropUnplayable(w, s))
    decreases |Pending(s.q)|
  {
    hide Honest, Vouched;
    HonestSame(w, o, s, s.Tick());
    if Next(s.q).Some? && !w.disk(s.clock, Next(s.q).value.path) {
      var e := Next(s.q).value;
      var s1 := DropPending(s.Tick(), e);
      assert Pending(s.q)[0] == e;
      assert Pending(s1.q) == WithoutEntry(Pending(s.q), e);
      SkipVouched(w, o, s, e);
      HonestMore(w, o, s.Tick(), s1, TrackSkip(e));
      DropUnplayableHonest(w, o, s1);
    }
  }

  lemma SkipVouched(w: World, o: State, s: State, e: Entry)
    requires Honest(w, o, s) && !w.disk(s.clock, e.path)
    ensures Vouched(w, TrackSkip(e), o.clock, s.clock + 1)
  {
  }

  lemma EnsurePreloadedHonest(w: World, o: State, s: State)
    requires Honest(w, o, s)
    ensures Honest(w, o, EnsurePreloaded(w, s))
  {
    hide Honest;
    if !(s.q.emergency || s.q.forced) {
      DropUnplayableHonest(w, o, s);
      HonestSame(w, o, DropUnplayable(w, s), PrimeFreeDeck(w, DropUnplayable(w, s)));
    }
  }

  lemma AnnounceHonest(w: World, o: State, s: State, path: Path, entry: Option<Entry>)
    requires Honest(w, o, s) && Vouched(w, TrackStart(path, entry), o.clock, s.clock)
    ensures Honest(w, o, Announce(s, path, entry))
  {
  }

  lemma GoOnAirHonest(w: World, o: State, s: State, d: Which, path: Path, entry: Option<Entry>,
                      fadeIn: bool, hold: bool)
    requires Honest(w, o, s) && Vouched(w, TrackStart(path, entry), o.clock, s.clock)
    ensures Honest(w, o, GoOnAir(w, s, d, path, entry, fadeIn, hold))
  {
    hide Honest, Announce, EnsurePreloaded;
    var s1 := if AlreadyLoaded(w, s.rig.Get(d), path) then s
              else s.(rig := s.rig.Load(d, path, entry, OnAir, w.loadId(s.clock))).Tick();
    var s2 := s1.(rig := s1.rig.Air(d, path, entry, fadeIn, !hold && !s.paused));
    HonestSame(w, o, s, s2);
    AnnounceHonest(w, o, s2, path, entry);
    var s3 := Announce(s2, path, entry);
    var s4 := s3.(stopAfter := false, paused := true).Log(StoppedAfterSong);
    HonestMore(w, o, s3, s4, StoppedAfterSong);
    EnsurePreloadedHonest(w, o, if hold then s4 else s3);
  }

  lemma PlayFillerHonest(w: World, o: State, s: State)
    requires Honest(w, o, s)
    ensures Honest(w, o, PlayFiller(w, s))
  {
    hide Honest, GoOnAir;
    var s1 := s.(rig := s.rig.StopOnAir());
    assert o.clock <= s.clock by { HonestClock(w, o, s); }
    var d := s1.rig.FreeOrFirst();
    var candidates := w.filler(s1.clock);
    if candidates != [] {
      var p := candidates[s1.fillerIndex % |candidates|];
      HonestSame(w, o, s, s1.Tick().(fillerIndex := s1.fillerIndex + 1));
      GoOnAirHonest(w, o, s1.Tick().(fillerIndex := s1.fillerIndex + 1), d, p, None, false, false);
    } else {
      HonestSame(w, o, s, s1.Tick());
      GoOnAirHonest(w, o, s1.Tick(), d, w.bakedIn, None, false, false);
      HonestSame(w, o, GoOnAir(w, s1.Tick(), d, w.bakedIn, None, false, false), PlayFiller(w, s));
    }
  }

  lemma HonestClock(w: World, o: State, s: State)
    requires Honest(w, o, s)
    ensures o.clock <= s.clock
  {
  }

  lemma PlayNextEmergencyHonest(w: World, o: State, s: State)
    requires Honest(w, o, s)
    ensures Honest(w, o, PlayNextEmergency(w, s))
  {
    hide Honest, GoOnAir, PlayFiller;
    HonestClock(w, o, s);
    HonestSame(w, o, s, s.Tick());
    if s.q.forced || Next(s.q).None? {
      PlayFillerHonest(w, o, s);
    } else if w.disk(s.clock, Next(s.q).value.path) {
      var s1 := s.Tick().(rig := s.rig.StopOnAir());
      HonestSame(w, o, s, s1);
      GoOnAirHonest(w, o, s1, s1.rig.FreeOrFirst(), Next(s.q).value.path, Next(s.q), false, false);
    } else {
      PlayFillerHonest(w, o, s.Tick());
    }
  }

  lemma EnterEmergencyHonest(w: World, o: State, s: State)
    requires Honest(w, o, s)
    ensures Honest(w, o, EnterEmergency(w, s))
  {
    hide Honest, PlayNextEmergency;
    var q1: Queue := s.q.(emergency := true);
    var s1 := if s.q.emergency then s else s.Log(EmergencyEnter).(q := q1, saved := q1);
    HonestMore(w, o, s, s.Log(EmergencyEnter), EmergencyEnter);
    HonestSame(w, o, if s.q.emergency then s else s.Log(EmergencyEnter), s1.(rig := s1.rig.StopRole(Preloaded)));
    PlayNextEmergencyHonest(w, o, s1.(rig := s1.rig.StopRole(Preloaded)));
  }

  lemma {:induction false} ScanHonest(w: World, o: State, s: State, idx: nat, hold: bool)
    requires Honest(w, o, s)
    ensures Honest(w, o, Scan(w, s, idx, hold))
    decreases |s.q.entries| - idx
  {
    hide Honest, GoOnAir, EnterEmergency;
    HonestClock(w, o, s);
    HonestSame(w, o, s, s.Tick());
    if idx >= |s.q.entries| {
      EnterEmergencyHonest(w, o, s);
    } else {
      var e := s.q.entries[idx];
      if w.disk(s.clock, e.path) {
        GoOnAirHonest(w, o, s.Tick(), s.rig.FreeOrFirst(), e.path, Some(e), false, hold);
      } else {
        HonestMore(w, o, s.Tick(), s.Tick().Log(TrackSkip(e)), TrackSkip(e));
        ScanHonest(w, o, s.Tick().Log(TrackSkip(e)), idx + 1, hold);
      }
    }
  }

  lemma AdvanceOrFailHonest(w: World, o: State, s: State, hold: bool)
    requires Honest(w, o, s)
    ensures Honest(w, o, AdvanceOrFail(w, s, hold))
    ensures Honest(w, o, Kick(w, s))
  {
    hide Honest, Scan, PlayNextEmergency, EnterEmergency;
    HonestSame(w, o, s, s.(rig := s.rig.StopOnAir()));
    PlayNextEmergencyHonest(w, o, s);
    EnterEmergencyHonest(w, o, s);
    ScanHonest(w, o, s.(rig := s.rig.StopOnAir()), s.q.current + 1, hold);
    ScanHonest(w, o, s.(rig := s.rig.StopOnAir()), s.q.current + 1, false);
  }

  /** The player itself refused the preloaded item: the one way to lose a place without a disk check. */
  predicate Refused(s: State, act: Action, e: Entry) {
    act.EndFile? && s.rig.Get(act.deck).role == Preloaded && s.rig.Get(act.deck).entry == Some(e)
  }

  lemma EndFileHonest(w: World, s: State, act: Action)
    requires act.EndFile? && s.rig.Get(act.deck).role != Preloaded
    ensures Honest(w, s, Step(w, s, act))
  {
    hide Honest, EnsurePreloaded, AdvanceOrFail, PlayNextEmergency;
    HonestStart(w, s);
    var d := act.deck;
    var k := s.rig.Get(d);
    var ended := k.(player := k.player.(file := None));
    var s1 := s.Log(TrackEnd(k.path, act.reason));
    HonestMore(w, s, s, s1, TrackEnd(k.path, act.reason));
    HonestSame(w, s, s1, s1.(rig := s.rig.Put(d, ended)));
    var s2 := s1.(rig := s.rig.Put(d, ended.Reset()));
    HonestSame(w, s, s1, s2);
    EnsurePreloadedHonest(w, s, s2);
    var rig := s.rig.Put(d, ended).Put(d, ended.Reset());
    var s3 := s1.(rig := rig.(onair := if rig.onair == Some(d) then None else rig.onair));
    HonestSame(w, s, s1, s3);
    PlayNextEmergencyHonest(w, s, s3);
    AdvanceOrFailHonest(w, s, s3, s3.stopAfter);
  }

  lemma HonestStart(w: World, s: State)
    ensures Honest(w, s, s)
  {
  }

  lemma RefusedHonest(w: World, s: State, act: Action)
    requires act.EndFile? && s.rig.Get(act.deck).role == Preloaded && s.rig.Get(act.deck).entry.Some?
    ensures
      var e := s.rig.Get(act.deck).entry.value;
      var k := s.rig.Get(act.deck);
      var s1 := s.(log := s.log + [TrackEnd(k.path, act.reason), TrackSkip(e)]);
      Step(w, s, act) == s || Honest(w, s1, Step(w, s, act))
  {
    hide Honest, EnsurePreloaded;
    var d := act.deck;
    var k := s.rig.Get(d);
    var e := k.entry.value;
    var ended := k.(player := k.player.(file := None));
    var s1 := s.(log := s.log + [TrackEnd(k.path, act.reason), TrackSkip(e)]);
    var s2 := DropPending(s.Log(TrackEnd(k.path, act.reason)).(rig := s.rig.Put(d, ended.Reset())), e);
    HonestStart(w, s1);
    assert s2.log == s1.log;
    HonestSame(w, s1, s1, s2);
    EnsurePreloadedHonest(w, s1, s2);
  }

  lemma OperateHonest(w: World, s: State, op: EngineOp)
    ensures Honest(w, s, OnOperate(w, s, op))
  {
    hide Honest, AdvanceOrFail, EnterEmergency, PlayNextEmergency;
    HonestStart(w, s);
    var stopped := s.(rig := s.rig.StopRole(Fading));
    HonestSame(w, s, s, stopped);
    match op
    case Skip => AdvanceOrFailHonest(w, s, stopped, false);
    case Pause => HonestMore(w, s, s, OnOperate(w, s, op), PauseEvent);
    case Resume =>
      var s1 := s.(paused := false, rig := SetPauseAll(s.rig, false)).Log(ResumeEvent);
      HonestMore(w, s, s, s1, ResumeEvent);
      AdvanceOrFailHonest(w, s, s1, false);
    case StopAfter => HonestMore(w, s, s, OnOperate(w, s, op), StopAfterToggled(!s.stopAfter));
    case Emergency =>
      if !s.q.forced {
        var q1: Queue := s.q.(forced := true);
        var s1 := s.(q := q1, saved := q1, rig := s.rig.StopRole(Fading)).Log(EmergencyForced);
        HonestMore(w, s, s, s1, EmergencyForced);
        EnterEmergencyHonest(w, s, s1);
      }
    case ResumeNormal =>
      if s.q.forced {
        var q1: Queue := s.q.(forced := false);
        var s1 := s.(q := q1, saved := q1).Log(EmergencyForceCleared);
        HonestMore(w, s, s, s1, EmergencyForceCleared);
        PlayNextEmergencyHonest(w, s, s1);
      }
    case UnknownEngineOp =>
  }

  lemma XfadeHonest(w: World, s: State, d: Which, client: nat, positionKnown: bool)
    ensures Honest(w, s, OnXfadeDue(w, s, d, client, positionKnown))
  {
    hide Honest, GoOnAir;
    HonestStart(w, s);
    HonestSame(w, s, s, s.Tick());
    var k := s.rig.Get(d);
    if Next(s.q).Some? && w.disk(s.clock, Next(s.q).value.path) {
      var n := Next(s.q).value;
      var fading := s.rig.Put(d, k.(role := Fading, fade := FadeOut)).(onair := None);
      var s1 := s.Tick().(rig := fading).Log(Crossfade(k.path, n.path));
      HonestMore(w, s, s, s1, Crossfade(k.path, n.path));
      GoOnAirHonest(w, s, s1, Other(d), n.path, Some(n), IsSong(n.source), false);
    }
  }

  lemma MutationHonest(w: World, s: State, m: Mutation)
    ensures Honest(w, s, OnMutation(w, s, m))
  {
    hide Honest, AdvanceOrFail, PlayNextEmergency, EnsurePreloaded, Mutated;
    HonestStart(w, s);
    var s1 := Requeued(s, m);
    HonestSame(w, s, s, s1);
    HonestSame(w, s, s, s1.(rig := s.rig.StopRole(Fading)));
    AdvanceOrFailHonest(w, s, s1, false);
    AdvanceOrFailHonest(w, s, s1.(rig := s.rig.StopRole(Fading)), false);
    PlayNextEmergencyHonest(w, s, s1);
    EnsurePreloadedHonest(w, s, s1);
  }

  /** Nothing is aired or skipped on the engine's own say-so: in every action, each track started was
      answered playable (or offered as filler) during that action, and each entry skipped was answered
      unplayable during it, or is the preloaded one its player just refused. */
  lemma EveryChoiceVouched(w: World, s: State, act: Action)
    requires Sounding(w, s)
    ensures
      var r := Step(w, s, act);
      && s.log <= r.log && s.clock <= r.clock
      && forall k :: |s.log| <= k < |r.log| ==>
           || Vouched(w, r.log[k], s.clock, r.clock)
           || (r.log[k].TrackSkip? && Refused(s, act, r.log[k].skipped))
  {
    hide OnEndFile, OnMutation, OnOperate, OnXfadeDue, Kick, EnsurePreloaded, DeckOk;
    HonestStart(w, s);
    match act
    case EndFile(d, _, _, _) =>
      if s.rig.Get(d).role == Preloaded { RoleFacts(w, s.rig.Get(d)); RefusedHonest(w, s, act); } else { EndFileHonest(w, s, act); }
    case Mutate(m) => MutationHonest(w, s, m);
    case Operate(op) => OperateHonest(w, s, op);
    case XfadeDue(d, client, known) => XfadeHonest(w, s, d, client, known);
    case DeckDead(d, _) =>
      var rig := s.rig.Put(d, Replaced(s.rig.Get(d))).(onair := if s.rig.onair == Some(d) then None else s.rig.onair);
      var s1 := s.(rig := rig).Log(MpvRestart(d));
      HonestMore(w, s, s, s1, MpvRestart(d));
      AdvanceOrFailHonest(w, s, s1, false);
      EnsurePreloadedHonest(w, s, s1);
    case KickAction => AdvanceOrFailHonest(w, s, s, false);
    case MixerRamp(_, _, _, _) =>
    case EngineRestart =>
      var s1 := s.(q := s.saved, rig := Rig(Replaced(s.rig.a), Replaced(s.rig.b), None),
                   paused := false, stopAfter := false, fillerIndex := 0).Log(EngineStart);
      HonestMore(w, s, s, s1, EngineStart);
      AdvanceOrFailHonest(w, s, s1, false);
  }

  // ---------------------------------------------------------------- which entry

  /** The first of `pending` the disk answers playable for, asked in order from clock `c`; when none
      is, the failover asks about the head of the queue once more before settling for filler. */
  function Choice(w: World, c: nat, pending: seq<Entry>, head: Option<Entry>): Option<Entry>
    decreases pending
  {
    if pending == [] then
      if head.Some? && w.disk(c, head.value.path) then head else None
    else if w.disk(c, pending[0].path) then Some(pending[0])
    else Choice(w, c + 1, pending[1..], head)
  }

  /** `Choice` is the earliest playable one: everything before it was just answered unplayable. */
  lemma {:induction false} ChoiceIsFirst(w: World, c: nat, pending: seq<Entry>, head: Option<Entry>, k: nat)
    requires k < |pending| && w.disk(c + k, pending[k].path)
    requires forall j :: 0 <= j < k ==> !w.disk(c + j, pending[j].path)
    ensures Choice(w, c, pending, head) == Some(pending[k])
    decreases k
  {
    if k > 0 {
      assert !w.disk(c + 0, pending[0].path);
      forall j | 0 <= j < k - 1 ensures !w.disk(c + 1 + j, pending[1..][j].path) {
        assert !w.disk(c + (j + 1), pending[j + 1].path);
      }
      ChoiceIsFirst(w, c + 1, pending[1..], head, k - 1);
    }
  }

  /** What an advance puts on air. Told to hold, it pauses before the entry it found and is not told to
      hold again; filler, or an entry the failover found, starts at once and leaves the order standing. */
  predicate Chose(w: World, s: State, r: State, hold: bool) {
    && Live(w, r)
    && AirEntry(r.rig) == Choice(w, s.clock, Pending(s.q), Next(s.q))
    && Switched(s, r, hold && Choice(w, s.clock, Pending(s.q), None).Some?)
  }

  predicate Switched(s: State, r: State, held: bool) {
    r.paused == (s.paused || held) && r.stopAfter == (s.stopAfter && !held)
  }

  lemma {:induction false} ScanChooses(w: World, s: State, idx: nat, hold: bool)
    requires Between(w, s) && !s.q.emergency && Cut(s.q) <= idx <= |s.q.entries|
    ensures
      var r := Scan(w, s, idx, hold);
      && Live(w, r)
      && AirEntry(r.rig) == Choice(w, s.clock, s.q.entries[idx..], Next(s.q))
      && Switched(s, r, hold && Choice(w, s.clock, s.q.entries[idx..], None).Some?)
    decreases |s.q.entries| - idx
  {
    hide DeckOk, GoOnAir, EnterEmergency;
    if idx >= |s.q.entries| {
      EnterEmergencyLive(w, s);
    } else {
      var e := s.q.entries[idx];
      assert s.q.entries[idx..][0] == e && s.q.entries[idx..][1..] == s.q.entries[idx + 1..];
      if w.disk(s.clock, e.path) {
        StoppedOnAir(w, s.rig);
        GoOnAirLive(w, s.Tick(), s.rig.FreeOrFirst(), e.path, Some(e), false, hold);
      } else {
        ScanChooses(w, s.Tick().Log(TrackSkip(e)), idx + 1, hold);
      }
    }
  }

  lemma AdvanceChooses(w: World, s: State, hold: bool)
    requires Cuttable(w, s) && !s.q.emergency && Sane(s.q)
    ensures Chose(w, s, AdvanceOrFail(w, s, hold), hold)
  {
    hide DeckOk, Scan;
    StoppedOnAir(w, s.rig);
    ScanChooses(w, s.(rig := s.rig.StopOnAir()), s.q.current + 1, hold);
  }

  /** Out of emergency, a skip and the end of a track both air the first pending entry the disk calls
      playable, in queue order; only when there is none does filler start. */
  lemma SkipAndTrackEndChoose(w: World, s: State, reason: Reason)
    requires Live(w, s) && !s.q.emergency && reason != OtherReason
    ensures Chose(w, s, Step(w, s, Operate(Skip)), false)
    ensures
      var d := s.rig.onair.value;
      var k := s.rig.Get(d);
      Chose(w, s, Step(w, s, EndFile(d, k.client, k.mpvEntryId, reason)), s.stopAfter)
  {
    hide DeckOk, AdvanceOrFail;
    StopRoleKeeps(w, s.rig, Fading);
    AdvanceChooses(w, s.(rig := s.rig.StopRole(Fading)), false);
    var d := s.rig.onair.value;
    var k := s.rig.Get(d);
    var ended := k.(player := k.player.(file := None));
    SilencedRig(w, s.rig, d, ended.Reset());
    assert s.rig.Put(d, ended).Put(d, ended.Reset()) == s.rig.Put(d, ended.Reset());
    var rig := s.rig.Put(d, ended.Reset()).(onair := None);
    AdvanceChooses(w, s.Log(TrackEnd(k.path, reason)).(rig := rig), s.stopAfter);
  }

  // ---------------------------------------------------------------- a crash inside the emergency button

  lemma {:induction false} ForcedScan(w: World, s: State, idx: nat)
    requires RigOff(w, s.rig) && s.saved == s.q && s.q.forced && !s.q.emergency
    requires idx <= |s.q.entries|
    ensures Live(w, Scan(w, s, idx, false)) <==> Choice(w, s.clock, s.q.entries[idx..], None).None?
    decreases |s.q.entries| - idx
  {
    hide DeckOk, EnterEmergency;
    if idx >= |s.q.entries| {
      EnterEmergencyLive(w, s);
    } else {
      var e := s.q.entries[idx];
      assert s.q.entries[idx..][0] == e && s.q.entries[idx..][1..] == s.q.entries[idx + 1..];
      if w.disk(s.clock, e.path) {
        ForcedAiring(w, s.Tick(), s.rig.FreeOrFirst(), e);
      } else {
        ForcedScan(w, s.Tick().Log(TrackSkip(e)), idx + 1);
      }
    }
  }

  lemma ForcedAiring(w: World, s: State, d: Which, e: Entry)
    requires s.q.forced && !s.q.emergency
    ensures var r := GoOnAir(w, s, d, e.path, Some(e), false, false); r.q.forced && !r.q.emergency
  {
    hide Announce;
    var s1 := if AlreadyLoaded(w, s.rig.Get(d), e.path) then s
              else s.(rig := s.rig.Load(d, e.path, Some(e), OnAir, w.loadId(s.clock))).Tick();
    var s2 := s1.(rig := s1.rig.Air(d, e.path, Some(e), false, !s.paused));
    ForcedAnnounced(s2, e);
  }

  lemma ForcedAnnounced(s: State, e: Entry)
    requires s.q.forced && !s.q.emergency
    ensures var r := Announce(s, e.path, Some(e)); r.q.forced && !r.q.emergency
  {
  }

  /** The button saves its forced flag before the emergency flag. Restarted from a state file written
      between those two saves, the engine is in order exactly when no pending entry is playable:
      otherwise it airs the queue with the operator's emergency still set. */
  lemma CrashInsideEmergencyButton(w: World, file: Queue)
    requires file.forced && !file.emergency
    ensures Live(w, Start(w, Boot(file))) <==> Choice(w, 0, Pending(file), None).None?
  {
    hide DeckOk;
    var s0 := Boot(file);
    var s := s0.(rig := Rig(Replaced(s0.rig.a), Replaced(s0.rig.b), None)).Log(EngineStart);
    assert RigOff(w, s.rig) by { FreshRig(w, s0.rig); }
    if Sane(file) {
      ForcedScan(w, s.(rig := s.rig.StopOnAir()), file.current + 1);
    } else {
      EnterEmergencyLive(w, s);
    }
  }

  lemma FreshRig(w: World, r: Rig)
    ensures RigOff(w, Rig(Replaced(r.a), Replaced(r.b), None))
  {
  }
}
