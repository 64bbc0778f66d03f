/** The engine's owner thread as a state machine: two players, a queue with a play-head, and the
  failover chain. Every function below is one of the supervisor's steps, from the state it finds
  to the state it leaves.

  Nothing is assumed about the outside world: each question put to it (is this file playable, which
  filler files are there, what id does the player give this load) takes the next answer of a `World`,
  and the same question asked again may be answered differently. */
module Playout {
  import opened Basics
  import opened QueueStore

  datatype Which = A | B

  function Other(d: Which): Which { if d == A then B else A }

  datatype Role = Idle | Preloaded | OnAir | Fading

  datatype Fade = NoFade | FadeIn | FadeOut

  const FULL_VOLUME := 100
  const MAX_QUEUE_HISTORY := 20

  /** What the player process itself is doing. */
  datatype Player = Player(file: Option<Path>, paused: bool, looping: bool, volume: int)

  datatype Deck = Deck(role: Role, path: Option<Path>, entry: Option<Entry>, fade: Fade,
                       mpvEntryId: Option<int>, client: nat, player: Player)
  {
    function Reset(): Deck {
      this.(role := Idle, path := None, entry := None, fade := NoFade, mpvEntryId := None)
    }
  }

  const NEW_PLAYER := Player(None, true, false, FULL_VOLUME)

  datatype World = World(
    disk: (nat, Path) -> bool,
    filler: nat -> seq<Path>,
    loadId: nat -> Option<int>,
    canon: Path -> Option<Path>,
    bakedIn: Path,
    crossfade: bool)

  datatype Reason = Eof | Error | OtherReason

  datatype Event =
    | EngineStart
    | TrackStart(path: Path, entry: Option<Entry>)
    | TrackEnd(endPath: Option<Path>, reason: Reason)
    | TrackSkip(skipped: Entry)
    | Crossfade(from: Option<Path>, to: Path)
    | EmergencyEnter
    | EmergencyExit
    | EmergencyForced
    | EmergencyForceCleared
    | StoppedAfterSong
    | StopAfterToggled(armed: bool)
    | PauseEvent
    | ResumeEvent
    | MpvRestart(deck: Which)

  /** What became of every entry the queue ever held; bookkeeping of the model only. `past` is what
      the state file already listed as played when the run began. */
  datatype Ledger = Ledger(accepted: multiset<Entry>, past: multiset<Entry>, aired: multiset<Entry>,
                           dropped: multiset<Entry>, removed: multiset<Entry>)

  /** The two decks and which of them the engine holds to be on air. */
  datatype Rig = Rig(a: Deck, b: Deck, onair: Option<Which>)
  {
    function Get(d: Which): Deck { if d == A then a else b }

    function Put(d: Which, k: Deck): Rig { if d == A then this.(a := k) else this.(b := k) }

    function Stop(d: Which): Rig {
      var k := Get(d);
      Put(d, k.Reset().(player := k.player.(file := None, paused := true)))
        .(onair := if onair == Some(d) then None else onair)
    }

    function StopOnAir(): Rig { if onair.Some? then Stop(onair.value) else this }

    function StopRole(r: Role): Rig {
      var r1 := if a.role == r then Stop(A) else this;
      if r1.b.role == r then r1.Stop(B) else r1
    }

    /** A deck that is neither on air nor fading, the one holding the next item first. */
    function Free(): Option<Which> {
      if onair != Some(A) && a.role == Preloaded then Some(A)
      else if onair != Some(B) && b.role == Preloaded then Some(B)
      else if onair != Some(A) && a.role == Idle then Some(A)
      else if onair != Some(B) && b.role == Idle then Some(B)
      else None
    }

    function FreeOrFirst(): Which { match Free() case Some(d) => d case None => A }

    function Load(d: Which, path: Path, entry: Option<Entry>, role: Role, loadId: Option<int>): Rig {
      var k := Get(d);
      Put(d, k.(role := role, path := Some(path), entry := entry, fade := NoFade, mpvEntryId := loadId,
                player := k.player.(file := Some(path), paused := true, looping := false)))
    }

    /** Deck `d`, holding what it should play, becomes the one on air. */
    function Air(d: Which, path: Path, entry: Option<Entry>, fadeIn: bool, start: bool): Rig {
      var k := Get(d);
      Put(d, k.(role := OnAir, path := Some(path), entry := entry,
                fade := if fadeIn then FadeIn else NoFade,
                player := k.player.(paused := !start && k.player.paused,
                                    volume := if fadeIn then 0 else FULL_VOLUME)))
        .(onair := Some(d))
    }
  }

  datatype State = State(
    q: Queue,
    saved: Queue,
    rig: Rig,
    paused: bool,
    stopAfter: bool,
    fillerIndex: nat,
    clock: nat,
    log: seq<Event>,
    ledger: Ledger)
  {
    function Log(e: Event): State { this.(log := log + [e]) }

    function Tick(): State { this.(clock := clock + 1) }
  }

  /** Equal after normalisation; the empty path, which has no normal form, equals nothing. */
  predicate SamePath(w: World, x: Option<Path>, y: Path) {
    x.Some? && w.canon(x.value).Some? && w.canon(x.value) == w.canon(y)
  }

  predicate IsSong(source: Source) { source in {Playlist, Show, Manual} }

  // ---------------------------------------------------------------- going on air

  function IndexOf(entries: seq<Entry>, id: Id): (r: Option<nat>)
    ensures r.Some? ==> r.value < |entries| && entries[r.value].id == id
    ensures r.None? <==> id !in Ids(entries)
  {
    if entries == [] then None
    else if entries[0].id == id then Some(0)
    else match IndexOf(entries[1..], id)
      case Some(i) => Some(i + 1)
      case None => assert entries == [entries[0]] + entries[1..]; None
  }

  function ExitEmergency(s: State): State {
    var q1: Queue := s.q.(emergency := false, forced := false);
    s.(q := q1, saved := q1).Log(EmergencyExit)
  }

  /** The play-head after `e` has gone on air. */
  function HeadMoved(q: Queue, e: Entry): Queue {
    match IndexOf(q.entries, e.id)
    case Some(i) => Trim(q.(current := i), MAX_QUEUE_HISTORY)
    case None => Trim(q, MAX_QUEUE_HISTORY)
  }

  /** Pending entries the play-head jumps over on its way to `e`. */
  function JumpedOver(q: Queue, e: Entry): seq<Entry> {
    match IndexOf(q.entries, e.id)
    case Some(i) => if Cut(q) <= i then q.entries[Cut(q)..i] else []
    case None => []
  }

  function Announce(s: State, path: Path, entry: Option<Entry>): State {
    match entry
    case None => s.Log(TrackStart(path, None))
    case Some(e) =>
      var q1 := HeadMoved(s.q, e);
      var ledger := s.ledger.(aired := s.ledger.aired + multiset{e},
                              dropped := s.ledger.dropped + multiset(JumpedOver(s.q, e)));
      var s1 := s.(q := q1, saved := q1, ledger := ledger);
      (if q1.emergency then ExitEmergency(s1) else s1).Log(TrackStart(path, Some(e)))
  }

  predicate AlreadyLoaded(w: World, k: Deck, path: Path) {
    k.role == Preloaded && SamePath(w, k.path, path)
  }

  function GoOnAir(w: World, s: State, d: Which, path: Path, entry: Option<Entry>,
                   fadeIn: bool, hold: bool): State
  {
    var s1 := if AlreadyLoaded(w, s.rig.Get(d), path) then s
              else s.(rig := s.rig.Load(d, path, entry, OnAir, w.loadId(s.clock))).Tick();
    var s2 := s1.(rig := s1.rig.Air(d, path, entry, fadeIn, !hold && !s.paused));
    var s3 := Announce(s2, path, entry);
    var s4 := if hold then s3.(stopAfter := false, paused := true).Log(StoppedAfterSong) else s3;
    EnsurePreloaded(w, s4)
  }

  function DropPending(s: State, e: Entry): State {
    var q1: Queue := s.q.(entries := Played(s.q) + WithoutEntry(Pending(s.q), e));
    s.(q := q1, saved := q1,
       ledger := s.ledger.(dropped := s.ledger.dropped +
                                      (multiset(Pending(s.q)) - multiset(Pending(q1)))))
     .Log(TrackSkip(e))
  }

  function WithoutEntry(s: seq<Entry>, e: Entry): (r: seq<Entry>)
    ensures |r| <= |s|
    ensures e in s ==> |r| < |s|
  {
    if s == [] then [] else (if s[0] == e then [] else [s[0]]) + WithoutEntry(s[1..], e)
  }

  function DropUnplayable(w: World, s: State): State
    decreases |Pending(s.q)|
  {
    match Next(s.q)
    case None => s
    case Some(e) =>
      if w.disk(s.clock, e.path) then s.Tick() else DropUnplayable(w, DropPending(s.Tick(), e))
  }

  /** Put the next entry on the free deck, if there is one and it is not there already. */
  function PrimeFreeDeck(w: World, s: State): State {
    match s.rig.Free()
    case None => s
    case Some(d) =>
      var k := s.rig.Get(d);
      match Next(s.q)
      case None => if k.role == Preloaded then s.(rig := s.rig.Stop(d)) else s
      case Some(n) =>
        if AlreadyLoaded(w, k, n.path) && k.entry.Some? && k.entry.value.id == n.id then s
        else s.(rig := s.rig.Load(d, n.path, Some(n), Preloaded, w.loadId(s.clock))).Tick()
  }

  function EnsurePreloaded(w: World, s: State): State {
    if s.q.emergency || s.q.forced then s else PrimeFreeDeck(w, DropUnplayable(w, s))
  }

  // ---------------------------------------------------------------- advancing and failing over

  function Scan(w: World, s: State, idx: nat, hold: bool): State
    decreases |s.q.entries| - idx
  {
    if idx >= |s.q.entries| then EnterEmergency(w, s)
    else
      var e := s.q.entries[idx];
      if w.disk(s.clock, e.path) then
        GoOnAir(w, s.Tick(), s.rig.FreeOrFirst(), e.path, Some(e), false, hold)
      else Scan(w, s.Tick().Log(TrackSkip(e)), idx + 1, hold)
  }

  function AdvanceOrFail(w: World, s: State, hold: bool): State {
    if s.q.emergency then PlayNextEmergency(w, s)
    else Scan(w, s.(rig := s.rig.StopOnAir()), s.q.current + 1, hold)
  }

  function EnterEmergency(w: World, s: State): State {
    var s1 :=
      if s.q.emergency then s
      else
        var q1: Queue := s.q.(emergency := true);
        s.Log(EmergencyEnter).(q := q1, saved := q1);
    PlayNextEmergency(w, s1.(rig := s1.rig.StopRole(Preloaded)))
  }

  function PlayNextEmergency(w: World, s: State): State {
    if s.q.forced then PlayFiller(w, s)
    else
      match Next(s.q)
      case None => PlayFiller(w, s)
      case Some(n) =>
        if w.disk(s.clock, n.path) then
          var s1 := s.Tick().(rig := s.rig.StopOnAir());
          GoOnAir(w, s1, s1.rig.FreeOrFirst(), n.path, Some(n), false, false)
        else PlayFiller(w, s.Tick())
  }

  function PlayFiller(w: World, s: State): State {
    var s1 := s.(rig := s.rig.StopOnAir());
    var d := s1.rig.FreeOrFirst();
    var candidates := w.filler(s1.clock);
    if candidates != [] then
      var p := candidates[s1.fillerIndex % |candidates|];
      GoOnAir(w, s1.Tick().(fillerIndex := s1.fillerIndex + 1), d, p, None, false, false)
    else
      var s2 := GoOnAir(w, s1.Tick(), d, w.bakedIn, None, false, false);
      var k := s2.rig.Get(d);
      s2.(rig := s2.rig.Put(d, k.(player := k.player.(looping := true))))
  }

  function Kick(w: World, s: State): State {
    if s.q.emergency then EnterEmergency(w, s) else AdvanceOrFail(w, s, false)
  }

  // ---------------------------------------------------------------- owner actions

  datatype EngineOp = Skip | Pause | Resume | StopAfter | Emergency | ResumeNormal | UnknownEngineOp

  datatype Action =
    | EndFile(deck: Which, client: nat, entryId: Option<int>, reason: Reason)
    | Mutate(mutation: Mutation)
    | Operate(op: EngineOp)
    | XfadeDue(deck: Which, client: nat, positionKnown: bool)
    | DeckDead(deck: Which, deadClient: Option<nat>)
    | KickAction
    | MixerRamp(deck: Which, client: nat, volume: int, fadeInDone: bool)
    | EngineRestart

  function EndFileStale(k: Deck, client: nat, entryId: Option<int>): bool {
    client != k.client || (k.mpvEntryId.Some? && entryId.Some? && entryId != k.mpvEntryId)
  }

  function OnEndFile(w: World, s: State, d: Which, client: nat, entryId: Option<int>, reason: Reason): State {
    var k := s.rig.Get(d);
    if EndFileStale(k, client, entryId) || reason == OtherReason then s
    else
      var ended := k.(player := k.player.(file := None));
      var s1 := s.Log(TrackEnd(k.path, reason));
      match k.role
      case Fading => EnsurePreloaded(w, s1.(rig := s.rig.Put(d, ended.Reset())))
      case Preloaded =>
        var s2 := s1.(rig := s.rig.Put(d, ended.Reset()));
        EnsurePreloaded(w, match k.entry case Some(e) => DropPending(s2, e) case None => s2)
      case OnAir => OnAirEnded(w, s1.(rig := s.rig.Put(d, ended)), d)
      case Idle => s1.(rig := s.rig.Put(d, ended))
  }

  function OnAirEnded(w: World, s: State, d: Which): State {
    var rig := s.rig.Put(d, s.rig.Get(d).Reset());
    var s1 := s.(rig := rig.(onair := if rig.onair == Some(d) then None else rig.onair));
    if s1.q.emergency then PlayNextEmergency(w, s1) else AdvanceOrFail(w, s1, s1.stopAfter)
  }

  predicate Crossfades(w: World, k: Deck) {
    w.crossfade && k.entry.Some? && IsSong(k.entry.value.source)
  }

  function OnXfadeDue(w: World, s: State, d: Which, client: nat, positionKnown: bool): State {
    var k := s.rig.Get(d);
    var o := Other(d);
    if s.rig.onair != Some(d) || client != k.client || k.role != OnAir || !Crossfades(w, k) then s
    else if s.stopAfter || s.paused || s.q.emergency || s.q.forced then s
    else
      match Next(s.q)
      case None => s
      case Some(n) =>
        if s.rig.Get(o).role !in {Idle, Preloaded} then s
        else if !w.disk(s.clock, n.path) || !positionKnown then s.Tick()
        else
          var fading := s.rig.Put(d, k.(role := Fading, fade := FadeOut)).(onair := None);
          var s1 := s.Tick().(rig := fading).Log(Crossfade(k.path, n.path));
          GoOnAir(w, s1, o, n.path, Some(n), IsSong(n.source), false)
  }

  function OnMutation(w: World, s: State, m: Mutation): State {
    if Judge(s.q, m) != Accepted then s
    else
      var q1 := Mutated(s.q, m);
      var ledger := s.ledger.(accepted := s.ledger.accepted + multiset(Brought(m.op)),
                              removed := s.ledger.removed + TakenOut(s.q, m.op));
      var s1 := s.(q := q1, saved := q1, ledger := ledger);
      if q1.forced then s1
      else if m.op.Replace? then AdvanceOrFail(w, s1.(rig := s.rig.StopRole(Fading)), false)
      else if q1.emergency then PlayNextEmergency(w, s1)
      else if s1.rig.onair.None? then AdvanceOrFail(w, s1, false)
      else EnsurePreloaded(w, s1)
  }

  function SetPause(k: Deck, paused: bool): Deck {
    if k.role in {OnAir, Fading} then k.(player := k.player.(paused := paused)) else k
  }

  function SetPauseAll(r: Rig, paused: bool): Rig {
    r.(a := SetPause(r.a, paused), b := SetPause(r.b, paused))
  }

  function OnOperate(w: World, s: State, op: EngineOp): State {
    match op
    case Skip => AdvanceOrFail(w, s.(rig := s.rig.StopRole(Fading)), false)
    case Pause => s.(paused := true, rig := SetPauseAll(s.rig, true)).Log(PauseEvent)
    case Resume =>
      var s1 := s.(paused := false, rig := SetPauseAll(s.rig, false)).Log(ResumeEvent);
      if s1.rig.onair.None? then AdvanceOrFail(w, s1, false) else s1
    case StopAfter => s.(stopAfter := !s.stopAfter).Log(StopAfterToggled(!s.stopAfter))
    case Emergency =>
      if s.q.forced then s
      else
        var q1: Queue := s.q.(forced := true);
        EnterEmergency(w, s.(q := q1, saved := q1, rig := s.rig.StopRole(Fading)).Log(EmergencyForced))
    case ResumeNormal =>
      if !s.q.forced then s
      else
        var q1: Queue := s.q.(forced := false);
        var s1 := s.(q := q1, saved := q1).Log(EmergencyForceCleared);
        if q1.emergency then PlayNextEmergency(w, s1) else s1
    case UnknownEngineOp => s
  }

  function Replaced(k: Deck): Deck { k.Reset().(client := k.client + 1, player := NEW_PLAYER) }

  function OnDeckDead(w: World, s: State, d: Which, deadClient: Option<nat>): State {
    var k := s.rig.Get(d);
    if deadClient.Some? && deadClient.value != k.client then s
    else
      var wasOnAir := s.rig.onair == Some(d) || k.role == OnAir;
      var rig := s.rig.Put(d, Replaced(k)).(onair := if s.rig.onair == Some(d) then None else s.rig.onair);
      var s1 := s.(rig := rig).Log(MpvRestart(d));
      if wasOnAir then Kick(w, s1) else EnsurePreloaded(w, s1)
  }

  /** The mixer thread changes nothing but the volume of a deck that is fading. */
  function OnMixerRamp(s: State, d: Which, client: nat, volume: int, fadeInDone: bool): State {
    var k := s.rig.Get(d);
    if client != k.client || k.fade == NoFade || k.role !in {OnAir, Fading} then s
    else if fadeInDone && k.fade == FadeIn then
      s.(rig := s.rig.Put(d, k.(fade := NoFade, player := k.player.(volume := FULL_VOLUME))))
    else s.(rig := s.rig.Put(d, k.(player := k.player.(volume := volume))))
  }

  /** The engine process starting from the state file, up to and including the start-up kick. */
  function Start(w: World, s: State): State {
    Kick(w, s.(q := s.saved, rig := Rig(Replaced(s.rig.a), Replaced(s.rig.b), None),
               paused := false, stopAfter := false, fillerIndex := 0).Log(EngineStart))
  }

  function Step(w: World, s: State, act: Action): State {
    match act
    case EndFile(d, client, entryId, reason) => OnEndFile(w, s, d, client, entryId, reason)
    case Mutate(m) => OnMutation(w, s, m)
    case Operate(op) => OnOperate(w, s, op)
    case XfadeDue(d, client, known) => OnXfadeDue(w, s, d, client, known)
    case DeckDead(d, client) => OnDeckDead(w, s, d, client)
    case KickAction => Kick(w, s)
    case MixerRamp(d, client, volume, done) => OnMixerRamp(s, d, client, volume, done)
    case EngineRestart => Start(w, s)
  }

  function Run(w: World, s: State, acts: seq<Action>): State
    decreases |acts|
  {
    if acts == [] then s else Step(w, Run(w, s, acts[..|acts| - 1]), acts[|acts| - 1])
  }

  /** The machine before its first start, with the state file `file` on disk. */
  function Boot(file: Queue): State {
    var idle := Deck(Idle, None, None, NoFade, None, 0, NEW_PLAYER);
    State(file, file, Rig(idle, idle, None), false, false, 0, 0, [],
          Ledger(multiset(file.entries), multiset(Played(file)), multiset{}, multiset{}, multiset{}))
  }
}
