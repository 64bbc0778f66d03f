/** What moves the air: when the item on air may change, what a crossfade does to both decks, and the turn
  filler files take. */
module PlayoutAir {
  import opened Basics
  import opened QueueStore
  import opened Playout
  import opened PlayoutSafety

  // ---------------------------------------------------------------- what may cut the item on air

  /** The same deck is on air with the same item, its player at the same file. */
  predicate SameItem(s: State, r: State)
    requires s.rig.onair.Some?
  {
    && r.rig.onair == s.rig.onair
    && var k, k' := s.rig.Get(s.rig.onair.value), r.rig.Get(s.rig.onair.value);
       k'.role == k.role && k'.path == k.path && k'.entry == k.entry && k'.player.file == k.player.file &&
       k'.client == k.client
  }

  /** What is allowed to take the item off the air: its own end, death or crossfade, the operator, a start
      of the engine, a replaced queue, and new material in an emergency that is not held. */
  predicate MayCut(s: State, act: Action)
    requires s.rig.onair.Some?
  {
    match act
    case EndFile(d, _, _, _) => d == s.rig.onair.value
    case DeckDead(d, _) => d == s.rig.onair.value
    case XfadeDue(d, _, _) => d == s.rig.onair.value
    case Operate(op) => op in {Skip, Emergency, ResumeNormal}
    case Mutate(m) => Judge(s.q, m) == Accepted && !s.q.forced && (m.op.Replace? || s.q.emergency)
    case MixerRamp(_, _, _, _) => false
    case KickAction => true
    case EngineRestart => true
  }

  lemma PreparedSame(w: World, s: State, m: State)
    requires s.rig.onair.Some? && SameItem(s, m) && OnAirOk(w, m)
    ensures SameItem(s, EnsurePreloaded(w, m))
  {
    hide EnsurePreloaded, OnAirOk;
    EnsurePreloadedLive(w, m);
  }

  lemma BesideEndedSame(w: World, s: State, act: Action)
    requires Live(w, s) && act.EndFile? && act.deck != s.rig.onair.value
    ensures SameItem(s, Step(w, s, act))
  {
    hide DeckOk, DropPending, EnsurePreloaded;
    var d := act.deck;
    var k := s.rig.Get(d);
    var silent := k.(player := k.player.(file := None)).Reset();
    RoleFacts(w, k);
    SilencedRig(w, s.rig, d, silent);
    var s1 := s.Log(TrackEnd(k.path, act.reason)).(rig := s.rig.Put(d, silent));
    PreparedSame(w, s, s1);
    if k.role == Preloaded {
      DropPendingOk(w, s1, k.entry.value);
      DropPendingRig(s1, k.entry.value);
      PreparedSame(w, s, DropPending(s1, k.entry.value));
    }
  }

  lemma DropPendingRig(s: State, e: Entry)
    ensures DropPending(s, e).rig == s.rig
  {
  }

  lemma SpareDiedSame(w: World, s: State, act: Action)
    requires Live(w, s) && act.DeckDead? && act.deck != s.rig.onair.value
    ensures SameItem(s, Step(w, s, act))
  {
    hide DeckOk, EnsurePreloaded;
    var k := s.rig.Get(act.deck);
    SilencedRig(w, s.rig, act.deck, Replaced(k));
    PreparedSame(w, s, s.Log(MpvRestart(act.deck)).(rig := s.rig.Put(act.deck, Replaced(k))));
  }

  lemma QueuedSame(w: World, s: State, m: Mutation)
    requires Live(w, s) && !MayCut(s, Mutate(m))
    ensures SameItem(s, OnMutation(w, s, m))
  {
    hide DeckOk, EnsurePreloaded;
    if Judge(s.q, m) == Accepted && !s.q.forced {
      var q1 := Mutated(s.q, m);
      var ledger := s.ledger.(accepted := s.ledger.accepted + multiset(Brought(m.op)),
                              removed := s.ledger.removed + TakenOut(s.q, m.op));
      MutatedKeepsHead(s.q, m, AirEntry(s.rig).value);
      PreparedSame(w, s, s.(q := q1, saved := q1, ledger := ledger));
    }
  }

  /** Nothing else cuts the air: whatever happens to the queue, to the other deck or to its player, and
      whatever stale report arrives, the item on air plays on unless one of the actions above takes it
      off. */
  lemma NothingElseCutsTheAir(w: World, s: State, act: Action)
    requires Live(w, s) && !MayCut(s, act)
    ensures SameItem(s, Step(w, s, act))
  {
    hide OnEndFile, OnDeckDead, OnMutation, OnOperate, OnXfadeDue, DeckOk, Live, SameItem;
    LiveOnAir(w, s, A);
    match act
    case EndFile(_, _, _, _) => BesideEndedSame(w, s, act);
    case DeckDead(_, _) => SpareDiedSame(w, s, act);
    case Mutate(m) => QueuedSame(w, s, m);
    case Operate(op) => SwitchedSame(w, s, op);
    case XfadeDue(d, client, known) => StaleXfadeSame(w, s, d, client, known);
    case MixerRamp(d, client, volume, done) => RampedSame(s, d, client, volume, done);
  }

  lemma SwitchedSame(w: World, s: State, op: EngineOp)
    requires s.rig.onair.Some? && op !in {Skip, Emergency, ResumeNormal}
    ensures SameItem(s, OnOperate(w, s, op))
  {
  }

  lemma StaleXfadeSame(w: World, s: State, d: Which, client: nat, known: bool)
    requires s.rig.onair.Some? && d != s.rig.onair.value
    ensures SameItem(s, OnXfadeDue(w, s, d, client, known))
  {
  }

  lemma RampedSame(s: State, d: Which, client: nat, volume: int, done: bool)
    requires s.rig.onair.Some?
    ensures SameItem(s, OnMixerRamp(s, d, client, volume, done))
  {
  }

  // ---------------------------------------------------------------- the crossfade

  /** When a crossfade report is acted on. */
  predicate CrossfadeDue(w: World, s: State, d: Which, client: nat, positionKnown: bool) {
    && s.rig.onair == Some(d) && client == s.rig.Get(d).client && Crossfades(w, s.rig.Get(d))
    && !s.stopAfter && !s.paused && !s.q.emergency
    && Next(s.q).Some? && s.rig.Get(Other(d)).role != Fading
    && w.disk(s.clock, Next(s.q).value.path) && positionKnown
  }

  /** The two decks after a crossfade: the next entry on air on the other deck, rising from silence if it
      is a song and at full volume if it is a spot; the old song fading, its player left as it was. */
  predicate Overlapping(s: State, r: State, d: Which)
    requires Next(s.q).Some?
  {
    var k, o := r.rig.Get(d), r.rig.Get(Other(d));
    && r.rig.onair == Some(Other(d)) && o.entry == Next(s.q)
    && (if IsSong(Next(s.q).value.source) then o.fade == FadeIn && o.player.volume == 0
        else o.fade == NoFade && o.player.volume == FULL_VOLUME)
    && !o.player.paused
    && k == s.rig.Get(d).(role := Fading, fade := FadeOut)
  }

  /** A crossfade report starts the next entry over the fading song if and only if it is about the song on
      air and nothing stands against it; otherwise both decks and the queue stay as they are. */
  lemma CrossfadeOverlaps(w: World, s: State, d: Which, client: nat, positionKnown: bool)
    requires Live(w, s)
    ensures
      var r := Step(w, s, XfadeDue(d, client, positionKnown));
      if CrossfadeDue(w, s, d, client, positionKnown) then Overlapping(s, r, d)
      else r == s || r == s.Tick()
  {
    hide DeckOk;
    if CrossfadeDue(w, s, d, client, positionKnown) {
      hide GoOnAir;
      RolesApart(w, s);
      FadingRig(w, s.rig);
      var k := s.rig.Get(d);
      var n := Next(s.q).value;
      var fading := s.rig.Put(d, k.(role := Fading, fade := FadeOut)).(onair := None);
      FadedOver(w, s.Tick().(rig := fading).Log(Crossfade(k.path, n.path)), d, n);
    }
  }

  lemma RolesApart(w: World, s: State)
    requires Live(w, s)
    ensures s.rig.Get(Other(s.rig.onair.value)).role != OnAir && (s.q.forced ==> s.q.emergency)
  {
  }

  lemma FadedOver(w: World, s: State, d: Which, n: Entry)
    requires Between(w, s) && s.rig.Get(d).role == Fading && s.rig.Get(Other(d)).role in {Idle, Preloaded}
    requires Next(s.q) == Some(n) && !s.q.emergency && !s.paused
    ensures
      var r := GoOnAir(w, s, Other(d), n.path, Some(n), IsSong(n.source), false);
      var k, o := r.rig.Get(d), r.rig.Get(Other(d));
      && r.rig.onair == Some(Other(d)) && o.entry == Some(n)
      && (if IsSong(n.source) then o.fade == FadeIn && o.player.volume == 0
          else o.fade == NoFade && o.player.volume == FULL_VOLUME)
      && !o.player.paused && k == s.rig.Get(d)
  {
    hide DeckOk, Announce, EnsurePreloaded;
    var entry, fadeIn := Some(n), IsSong(n.source);
    AirRig(w, s.rig, Other(d), n.path, entry, fadeIn, true, w.loadId(s.clock));
    var s1 := if AlreadyLoaded(w, s.rig.Get(Other(d)), n.path) then s
              else s.(rig := s.rig.Load(Other(d), n.path, entry, OnAir, w.loadId(s.clock))).Tick();
    var s2 := s1.(rig := s1.rig.Air(Other(d), n.path, entry, fadeIn, true));
    AnnounceHead(s2, n.path, entry);
    NoFreeDeck(w, Announce(s2, n.path, entry), d);
  }

  /** With one deck on air and the other fading there is nothing to prepare on. */
  lemma NoFreeDeck(w: World, s: State, d: Which)
    requires s.rig.onair == Some(Other(d)) && s.rig.Get(d).role == Fading
    ensures EnsurePreloaded(w, s).rig == s.rig
  {
    hide DropUnplayable;
    DropUnplayableKeeps(w, s);
  }

  // ---------------------------------------------------------------- filler takes turns

  /** The end of the item on air, as its player reports it. */
  function OwnEnd(s: State): Action
    requires s.rig.onair.Some?
  {
    var k := s.rig.Get(s.rig.onair.value);
    EndFile(s.rig.onair.value, k.client, k.mpvEntryId, Eof)
  }

  /** The path on air. */
  function AirPath(s: State): Option<Path>
    requires s.rig.onair.Some?
  {
    s.rig.Get(s.rig.onair.value).path
  }

  lemma PlayFillerTurn(w: World, s: State)
    requires Cuttable(w, s) && s.q.emergency && w.filler(s.clock) != []
    ensures
      var r := PlayFiller(w, s);
      && r.rig.onair.Some?
      && AirPath(r) == Some(w.filler(s.clock)[s.fillerIndex % |w.filler(s.clock)|])
      && r.fillerIndex == s.fillerIndex + 1
  {
    hide DeckOk, GoOnAir;
    StoppedOnAir(w, s.rig);
    var s1 := s.(rig := s.rig.StopOnAir());
    var p := w.filler(s.clock)[s.fillerIndex % |w.filler(s.clock)|];
    var s2 := s1.Tick().(fillerIndex := s1.fillerIndex + 1);
    GoOnAirLive(w, s2, s1.rig.FreeOrFirst(), p, None, false, false);
    FillerKeepsIndex(w, s2, s1.rig.FreeOrFirst(), p);
  }

  lemma FillerKeepsIndex(w: World, s: State, d: Which, p: Path)
    requires s.q.emergency
    ensures GoOnAir(w, s, d, p, None, false, false).fillerIndex == s.fillerIndex
  {
  }

  lemma FillerTurn(w: World, s: State)
    requires Live(w, s) && s.q.forced && w.filler(s.clock) != []
    ensures
      var r := Step(w, s, OwnEnd(s));
      && Live(w, r) && r.q.forced
      && AirPath(r) == Some(w.filler(s.clock)[s.fillerIndex % |w.filler(s.clock)|])
      && r.fillerIndex == s.fillerIndex + 1
  {
    hide DeckOk, PlayFiller;
    var d := s.rig.onair.value;
    var k := s.rig.Get(d);
    StepLive(w, s, OwnEnd(s));
    ForcedStep(w, s, OwnEnd(s));
    var ended := k.(player := k.player.(file := None));
    SilencedRig(w, s.rig, d, ended.Reset());
    assert s.rig.Put(d, ended).Put(d, ended.Reset()) == s.rig.Put(d, ended.Reset());
    PlayFillerTurn(w, s.Log(TrackEnd(k.path, Eof)).(rig := s.rig.Put(d, ended.Reset()).(onair := None)));
  }

  /** `n` items end one after the other. */
  function Ends(w: World, s: State, n: nat): State
    requires Live(w, s)
    ensures Live(w, Ends(w, s, n))
  {
    if n == 0 then s
    else
      var before := Ends(w, s, n - 1);
      StepLive(w, before, OwnEnd(before));
      Step(w, before, OwnEnd(before))
  }

  /** Under the emergency button, with a filler list that does not change, the files take turns in list
      order and start over at its end: the n-th item from now is the n-th in turn. */
  lemma {:induction false} FillerTakesTurns(w: World, s: State, files: seq<Path>, n: nat)
    requires Live(w, s) && s.q.forced && files != [] && forall c: nat :: w.filler(c) == files
    ensures Ends(w, s, n).q.forced && Ends(w, s, n).fillerIndex == s.fillerIndex + n
    ensures n > 0 ==> AirPath(Ends(w, s, n)) == Some(files[(s.fillerIndex + n - 1) % |files|])
  {
    hide Live, Step;
    if n > 0 {
      FillerTakesTurns(w, s, files, n - 1);
      FillerTurn(w, Ends(w, s, n - 1));
    }
  }

  lemma BakedInPlays(w: World, s: State)
    requires Cuttable(w, s) && s.q.emergency && w.filler(s.clock) == []
    ensures
      var r := PlayFiller(w, s);
      r.rig.onair.Some? && AirPath(r) == Some(w.bakedIn) && r.rig.Get(r.rig.onair.value).player.looping
  {
    hide DeckOk, GoOnAir;
    StoppedOnAir(w, s.rig);
    var s1 := s.(rig := s.rig.StopOnAir());
    GoOnAirLive(w, s1.Tick(), s1.rig.FreeOrFirst(), w.bakedIn, None, false, false);
  }

  /** The last resort: under the button, when no filler file is playable the baked-in source is on air, and
      loops. */
  lemma BakedInLoops(w: World, s: State)
    requires Live(w, s) && s.q.forced && w.filler(s.clock) == []
    ensures
      var r := Step(w, s, OwnEnd(s));
      && Live(w, r) && r.q.forced
      && AirPath(r) == Some(w.bakedIn) && r.rig.Get(r.rig.onair.value).player.looping
  {
    hide DeckOk, PlayFiller;
    var d := s.rig.onair.value;
    var k := s.rig.Get(d);
    StepLive(w, s, OwnEnd(s));
    ForcedStep(w, s, OwnEnd(s));
    var ended := k.(player := k.player.(file := None));
    SilencedRig(w, s.rig, d, ended.Reset());
    assert s.rig.Put(d, ended).Put(d, ended.Reset()) == s.rig.Put(d, ended.Reset());
    BakedInPlays(w, s.Log(TrackEnd(k.path, Eof)).(rig := s.rig.Put(d, ended.Reset()).(onair := None)));
  }
}
