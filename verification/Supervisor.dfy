/** The engine's supervisor as it runs: two deck objects, the queue object and the owner thread's
  fields, changed in place. Each method is one of the handlers and ends in the state the matching
  function of `Playout` names. */
module Supervisor {
  import opened Basics
  import opened QueueStore
  import opened Playout
  import opened PlayoutSafety
  import opened PlayoutSounding
  import opened PlayoutSwitches

  /** One player and what the owner thread holds about it. */
  class DeckUnit {
    var role: Role
    var path: Option<Path>
    var entry: Option<Entry>
    var fade: Fade
    var mpvEntryId: Option<int>
    var client: nat
    var player: Player

    ghost function Value(): Deck reads this { Deck(role, path, entry, fade, mpvEntryId, client, player) }

    constructor ()
      ensures Value() == Deck(Idle, None, None, NoFade, None, 0, NEW_PLAYER)
    {
      role, path, entry, fade, mpvEntryId, client, player := Idle, None, None, NoFade, None, 0, NEW_PLAYER;
    }

    method Reset()
      modifies this
      ensures Value() == old(Value()).Reset()
    {
      role, path, entry, fade, mpvEntryId := Idle, None, None, NoFade, None;
    }

    /** A fresh player process takes the place of the old one. */
    method Replace()
      modifies this
      ensures Value() == Replaced(old(Value()))
    {
      client := client + 1;
      player := NEW_PLAYER;
      Reset();
    }
  }

  class EngineSupervisor {
    const w: World
    const a: DeckUnit
    const b: DeckUnit
    const state: QueueState
    var saved: Queue
    var onair: DeckUnit?
    var paused: bool
    var stopAfter: bool
    var fillerIndex: nat
    var clock: nat
    var log: seq<Event>
    ghost var ledger: Ledger

    ghost predicate Valid()
      reads this, state
    {
      a != b && (onair == null || onair == a || onair == b) && state.Valid()
    }

    function Name(d: DeckUnit): Which { if d == a then A else B }

    ghost function OnAirName(): Option<Which>
      reads this
    {
      if onair == null then None else Some(Name(onair))
    }

    ghost function Model(): State
      requires Valid()
      reads this, a, b, state
    {
      State(state.Value(), saved, Rig(a.Value(), b.Value(), OnAirName()), paused, stopAfter,
            fillerIndex, clock, log, ledger)
    }

    constructor (w: World, file: Queue)
      ensures Valid() && this.w == w && Model() == Boot(file)
      ensures fresh(a) && fresh(b) && fresh(state)
    {
      this.w := w;
      a := new DeckUnit();
      b := new DeckUnit();
      state := new QueueState(file);
      saved := file;
      onair := null;
      paused, stopAfter, fillerIndex, clock, log := false, false, 0, 0, [];
      ledger := Boot(file).ledger;
    }

    // -------------------------------------------------------------- small steps

    method Playable(path: Path) returns (ok: bool)
      requires Valid()
      modifies this`clock
      ensures Valid() && ok == w.disk(old(clock), path) && Model() == old(Model()).Tick()
    {
      ok := w.disk(clock, path);
      clock := clock + 1;
    }

    method Append(e: Event)
      requires Valid()
      modifies this`log
      ensures Valid() && Model() == old(Model()).Log(e)
    {
      log := log + [e];
    }

    method StopDeck(d: DeckUnit)
      requires Valid() && d in {a, b}
      modifies this`onair, d
      ensures Valid() && Model() == old(Model()).(rig := old(Model()).rig.Stop(Name(d)))
    {
      d.player := d.player.(file := None, paused := true);
      d.Reset();
      if onair == d { onair := null; }
    }

    method StopOnAir()
      requires Valid()
      modifies this`onair, a, b
      ensures Valid() && Model() == old(Model()).(rig := old(Model()).rig.StopOnAir())
    {
      if onair != null { StopDeck(onair); }
    }

    method StopRole(r: Role)
      requires Valid()
      modifies this`onair, a, b
      ensures Valid() && Model() == old(Model()).(rig := old(Model()).rig.StopRole(r))
    {
      if a.role == r { StopDeck(a); }
      if b.role == r { StopDeck(b); }
    }

    method FreeDeck() returns (d: DeckUnit?)
      requires Valid()
      ensures d in {null, a, b}
      ensures Model().rig.Free() == if d == null then None else Some(Name(d))
    {
      if onair != a && a.role == Preloaded { return a; }
      if onair != b && b.role == Preloaded { return b; }
      if onair != a && a.role == Idle { return a; }
      if onair != b && b.role == Idle { return b; }
      return null;
    }

    method Load(d: DeckUnit, path: Path, entry: Option<Entry>, role: Role)
      requires Valid() && d in {a, b}
      modifies this`clock, d
      ensures Valid()
      ensures Model() == old(Model()).(rig := old(Model()).rig.Load(Name(d), path, entry, role, w.loadId(old(clock)))).Tick()
    {
      d.player := d.player.(paused := true);
      d.player := d.player.(file := Some(path));
      d.player := d.player.(looping := false);
      d.path, d.entry, d.role := Some(path), entry, role;
      d.fade := NoFade;
      d.mpvEntryId := w.loadId(clock);
      clock := clock + 1;
    }

    method IndexOfEntry(e: Entry) returns (r: Option<nat>)
      requires Valid()
      ensures r == IndexOf(state.entries, e.id)
    {
      for i := 0 to |state.entries|
        invariant IndexOf(state.entries, e.id) ==
                    match IndexOf(state.entries[i..], e.id) case Some(k) => Some(i + k) case None => None
      {
        assert state.entries[i..][1..] == state.entries[i + 1..];
        if state.entries[i].id == e.id { return Some(i); }
      }
      return None;
    }

    method Save()
      requires Valid()
      modifies this`saved
      ensures Valid() && Model() == old(Model()).(saved := old(Model()).q)
    {
      saved := QueueRec(state.queueVersion, state.entries, state.currentIndex,
                        state.emergencyMode, state.forcedEmergency);
    }

    // -------------------------------------------------------------- going on air

    /** The play-head moves to the entry that just went on air, and old history is trimmed. */
    method MoveHead(e: Entry)
      requires Valid()
      modifies state
      ensures Valid() && state.Value() == HeadMoved(old(state.Value()), e)
    {
      var idx := IndexOfEntry(e);
      if idx.Some? && idx.value != state.currentIndex { state.currentIndex := idx.value; }
      var _ := state.TrimHistory(MAX_QUEUE_HISTORY);
    }

    method ExitEmergency()
      requires Valid()
      modifies this`saved, this`log, state
      ensures Valid() && Model() == Playout.ExitEmergency(old(Model()))
    {
      state.emergencyMode, state.forcedEmergency := false, false;
      Save();
      Append(EmergencyExit);
    }

    method Announce(path: Path, entry: Option<Entry>)
      requires Valid()
      modifies this`saved, this`log, this`ledger, state
      ensures Valid() && Model() == Playout.Announce(old(Model()), path, entry)
    {
      hide HeadMoved, JumpedOver;
      if entry.Some? {
        var e := entry.value;
        ledger := ledger.(aired := ledger.aired + multiset{e},
                          dropped := ledger.dropped + multiset(JumpedOver(state.Value(), e)));
        MoveHead(e);
        Save();
        if state.emergencyMode { ExitEmergency(); }
        Append(TrackStart(path, entry));
      } else {
        Append(TrackStart(path, None));
      }
    }

    method TakeTheAir(d: DeckUnit, path: Path, entry: Option<Entry>, fadeIn: bool, start: bool)
      requires Valid() && d in {a, b}
      modifies this`onair, d
      ensures Valid()
      ensures Model() == old(Model()).(rig := old(Model()).rig.Air(Name(d), path, entry, fadeIn, start))
    {
      d.role, d.entry, d.path := OnAir, entry, Some(path);
      d.fade := if fadeIn then FadeIn else NoFade;
      d.player := d.player.(volume := if fadeIn then 0 else FULL_VOLUME);
      if start { d.player := d.player.(paused := false); }
      onair := d;
    }

    method LoadUnlessThere(d: DeckUnit, path: Path, entry: Option<Entry>)
      requires Valid() && d in {a, b}
      modifies this`clock, d
      ensures
        var s := old(Model());
        && Valid()
        && Model() == if AlreadyLoaded(w, old(d.Value()), path) then s
                      else s.(rig := s.rig.Load(Name(d), path, entry, OnAir, w.loadId(s.clock))).Tick()
    {
      if !(d.role == Preloaded && SamePath(w, d.path, path)) { Load(d, path, entry, OnAir); }
    }

    method GoOnAir(d: DeckUnit, path: Path, entry: Option<Entry>, fadeIn: bool, hold: bool)
      requires Valid() && d in {a, b}
      modifies this, a, b, state
      ensures Valid() && Model() == Playout.GoOnAir(w, old(Model()), Name(d), path, entry, fadeIn, hold)
    {
      hide Playout.Announce, Playout.EnsurePreloaded, AlreadyLoaded;
      LoadUnlessThere(d, path, entry);
      TakeTheAir(d, path, entry, fadeIn, !hold && !paused);
      Announce(path, entry);
      if hold { Hold(); }
      EnsurePreloaded();
    }

    /** The operator asked to stop after the song that just ended: the next one waits, paused. */
    method Hold()
      requires Valid()
      modifies this`stopAfter, this`paused, this`log
      ensures Valid()
      ensures Model() == old(Model()).(stopAfter := false, paused := true).Log(StoppedAfterSong)
    {
      stopAfter := false;
      paused := true;
      Append(StoppedAfterSong);
    }

    // -------------------------------------------------------------- preloading

    method TakeOutPending(e: Entry)
      requires Valid()
      modifies state
      ensures Valid()
      ensures
        var q := old(state.Value());
        state.Value() == q.(entries := Played(q) + WithoutEntry(Pending(q), e))
    {
      var cut := if state.currentIndex + 1 < |state.entries| then state.currentIndex + 1 else |state.entries|;
      state.entries := state.entries[..cut] + WithoutEntry(state.entries[cut..], e);
    }

    method DropPending(e: Entry)
      requires Valid()
      modifies this`saved, this`log, this`ledger, state
      ensures Valid() && Model() == Playout.DropPending(old(Model()), e)
    {
      hide Played, Pending, WithoutEntry;
      Append(TrackSkip(e));
      ghost var q := state.Value();
      TakeOutPending(e);
      ledger := ledger.(dropped := ledger.dropped + (multiset(Pending(q)) - multiset(Pending(state.Value()))));
      Save();
    }

    /** Drop pending entries until the next one is playable, or none is left. */
    method DropUnplayable() returns (nxt: Option<Entry>)
      requires Valid()
      modifies this, state
      ensures Valid() && onair == old(onair)
      ensures Model() == Playout.DropUnplayable(w, old(Model())) && nxt == Next(Model().q)
    {
      hide Playout.DropPending;
      nxt := state.NextEntry();
      while nxt.Some?
        invariant Valid() && onair == old(onair) && nxt == Next(state.Value())
        invariant Playout.DropUnplayable(w, Model()) == Playout.DropUnplayable(w, old(Model()))
        decreases |Pending(state.Value())|
      {
        ghost var s := Model();
        var ok := Playable(nxt.value.path);
        if ok { return; }
        DropPending(nxt.value);
        DropShrinks(s.Tick(), nxt.value);
        nxt := state.NextEntry();
      }
    }

    lemma DropShrinks(s: State, e: Entry)
      requires Next(s.q) == Some(e)
      ensures |Pending(Playout.DropPending(s, e).q)| < |Pending(s.q)|
    {
      assert Pending(s.q)[0] == e;
      assert Pending(Playout.DropPending(s, e).q) == WithoutEntry(Pending(s.q), e);
    }

    method EnsurePreloaded()
      requires Valid()
      modifies this, a, b, state
      ensures Valid() && Model() == Playout.EnsurePreloaded(w, old(Model()))
    {
      hide Playout.DropUnplayable;
      if state.emergencyMode || state.forcedEmergency { return; }
      var nxt := DropUnplayable();
      var d := FreeDeck();
      if d == null { return; }
      if nxt.None? {
        if d.role == Preloaded { StopDeck(d); }
        return;
      }
      if d.role == Preloaded && d.entry.Some? && d.entry.value.id == nxt.value.id &&
         SamePath(w, d.path, nxt.value.path) { return; }
      Load(d, nxt.value.path, nxt, Preloaded);
    }

    // -------------------------------------------------------------- advancing and failing over

    method FreeOrFirst() returns (d: DeckUnit)
      requires Valid()
      ensures d in {a, b} && Name(d) == Model().rig.FreeOrFirst()
    {
      var free := FreeDeck();
      return if free == null then a else free;
    }

    method AdvanceOrFail(hold: bool)
      requires Valid()
      modifies this, a, b, state
      ensures Valid() && Model() == Playout.AdvanceOrFail(w, old(Model()), hold)
    {
      hide Playout.PlayNextEmergency, Scan;
      if state.emergencyMode {
        PlayNextEmergency();
        return;
      }
      StopOnAir();
      ScanQueue(hold);
    }

    /** Put the first playable pending entry on air, or fail over. */
    method ScanQueue(hold: bool)
      requires Valid()
      modifies this, a, b, state
      ensures Valid() && Model() == Scan(w, old(Model()), old(state.currentIndex) + 1, hold)
    {
      hide Playout.GoOnAir, Playout.EnterEmergency, Rig.FreeOrFirst;
      var idx := state.currentIndex + 1;
      while idx < |state.entries|
        invariant Valid() && 0 <= idx && state.Value() == old(state.Value())
        invariant Scan(w, Model(), idx, hold) == Scan(w, old(Model()), old(state.currentIndex) + 1, hold)
      {
        var e := state.entries[idx];
        var ok := Playable(e.path);
        if ok {
          var d := FreeOrFirst();
          GoOnAir(d, e.path, Some(e), false, hold);
          return;
        }
        Append(TrackSkip(e));
        idx := idx + 1;
      }
      EnterEmergency();
    }

    method EnterEmergency()
      requires Valid()
      modifies this, a, b, state
      ensures Valid() && Model() == Playout.EnterEmergency(w, old(Model()))
    {
      hide Playout.PlayNextEmergency;
      if !state.emergencyMode {
        Append(EmergencyEnter);
        state.emergencyMode := true;
        Save();
      }
      StopRole(Preloaded);
      PlayNextEmergency();
    }

    method PlayNextEmergency()
      requires Valid()
      modifies this, a, b, state
      ensures Valid() && Model() == Playout.PlayNextEmergency(w, old(Model()))
    {
      hide Playout.GoOnAir, Playout.PlayFiller;
      if !state.forcedEmergency {
        var nxt := state.NextEntry();
        if nxt.Some? {
          var ok := Playable(nxt.value.path);
          if ok {
            StopOnAir();
            var d := FreeOrFirst();
            GoOnAir(d, nxt.value.path, nxt, false, false);
            return;
          }
        }
      }
      PlayFiller();
    }

    method PlayFiller()
      requires Valid()
      modifies this, a, b, state
      ensures Valid() && Model() == Playout.PlayFiller(w, old(Model()))
    {
      hide Playout.GoOnAir, Rig.StopOnAir, Rig.FreeOrFirst, Rig.Put;
      StopOnAir();
      var d := FreeOrFirst();
      var candidates := FillerFiles();
      if candidates != [] {
        var p := NextFiller(candidates);
        GoOnAir(d, p, None, false, false);
      } else {
        PlayBakedIn(d);
      }
    }

    /** The last resort, looped. */
    method PlayBakedIn(d: DeckUnit)
      requires Valid() && d in {a, b}
      modifies this, a, b, state
      ensures
        var r := Playout.GoOnAir(w, old(Model()), Name(d), w.bakedIn, None, false, false);
        var k := r.rig.Get(Name(d));
        Valid() && Model() == r.(rig := r.rig.Put(Name(d), k.(player := k.player.(looping := true))))
    {
      hide Playout.GoOnAir;
      GoOnAir(d, w.bakedIn, None, false, false);
      LoopForever(d);
    }

    method FillerFiles() returns (files: seq<Path>)
      requires Valid()
      modifies this`clock
      ensures Valid() && files == w.filler(old(clock)) && Model() == old(Model()).Tick()
    {
      files := w.filler(clock);
      clock := clock + 1;
    }

    method NextFiller(files: seq<Path>) returns (p: Path)
      requires Valid() && files != []
      modifies this`fillerIndex
      ensures Valid() && p == files[old(fillerIndex) % |files|]
      ensures Model() == old(Model()).(fillerIndex := old(fillerIndex) + 1)
    {
      p := files[fillerIndex % |files|];
      fillerIndex := fillerIndex + 1;
    }

    method LoopForever(d: DeckUnit)
      requires Valid() && d in {a, b}
      modifies d`player
      ensures Valid() && d.Value() == old(d.Value()).(player := old(d.Value()).player.(looping := true))
      ensures Model() == old(Model()).(rig := old(Model()).rig.Put(Name(d), d.Value()))
    {
      d.player := d.player.(looping := true);
    }

    method Kick()
      requires Valid()
      modifies this, a, b, state
      ensures Valid() && Model() == Playout.Kick(w, old(Model()))
    {
      hide Playout.EnterEmergency, Playout.AdvanceOrFail;
      if state.emergencyMode { EnterEmergency(); } else { AdvanceOrFail(false); }
    }

    // -------------------------------------------------------------- owner actions

    method OnAirEnded(d: DeckUnit)
      requires Valid() && d in {a, b}
      modifies this, a, b, state
      ensures Valid() && Model() == Playout.OnAirEnded(w, old(Model()), Name(d))
    {
      hide Playout.PlayNextEmergency, Playout.AdvanceOrFail;
      d.Reset();
      if onair == d { onair := null; }
      if state.emergencyMode {
        PlayNextEmergency();
        return;
      }
      AdvanceOrFail(stopAfter);
    }

    /** The player has nothing loaded any more. */
    method Unload(d: DeckUnit)
      requires Valid() && d in {a, b}
      modifies d`player
      ensures Valid() && d.Value() == old(d.Value()).(player := old(d.Value()).player.(file := None))
      ensures Model() == old(Model()).(rig := old(Model()).rig.Put(Name(d), d.Value()))
    {
      d.player := d.player.(file := None);
    }

    method ResetDeck(d: DeckUnit)
      requires Valid() && d in {a, b}
      modifies d
      ensures Valid() && d.Value() == old(d.Value()).Reset()
      ensures Model() == old(Model()).(rig := old(Model()).rig.Put(Name(d), d.Value()))
    {
      d.Reset();
    }

    /** The fading tail, or the preloaded next item, is over: make the deck ready for another. */
    method ClearBeside(d: DeckUnit)
      requires Valid() && d in {a, b} && d.role in {Fading, Preloaded}
      modifies this, a, b, state
      ensures
        var s := old(Model()).(rig := old(Model()).rig.Put(Name(d), old(d.Value()).Reset()));
        && Valid()
        && Model() == Playout.EnsurePreloaded(w,
             if old(d.role) == Preloaded && old(d.entry).Some? then Playout.DropPending(s, old(d.entry).value) else s)
    {
      hide Playout.EnsurePreloaded, Playout.DropPending;
      var failed := d.role == Preloaded;
      var e := d.entry;
      ResetDeck(d);
      if failed && e.Some? { DropPending(e.value); }
      EnsurePreloaded();
    }

    static lemma PutTwice(r: Rig, d: Which, x: Deck, y: Deck)
      ensures r.Put(d, x).Put(d, y) == r.Put(d, y)
    {
    }

    method HandleEndFile(d: DeckUnit, client: nat, entryId: Option<int>, reason: Reason)
      requires Valid() && d in {a, b}
      modifies this, a, b, state
      ensures Valid() && Model() == OnEndFile(w, old(Model()), Name(d), client, entryId, reason)
    {
      hide Playout.EnsurePreloaded, Playout.OnAirEnded, Playout.DropPending;
      if client != d.client { return; }
      if d.mpvEntryId.Some? && entryId.Some? && entryId != d.mpvEntryId { return; }
      if reason == OtherReason { return; }
      Ended(d, reason);
    }

    /** The file on deck `d` is over. */
    method Ended(d: DeckUnit, reason: Reason)
      requires Valid() && d in {a, b} && reason != OtherReason
      modifies this, a, b, state
      ensures Valid() && Model() == OnEndFile(w, old(Model()), Name(d), old(d.client), None, reason)
    {
      hide Playout.EnsurePreloaded, Playout.OnAirEnded, Playout.DropPending;
      ghost var s, k := Model(), d.Value();
      ghost var ended := k.(player := k.player.(file := None));
      PutTwice(s.rig, Name(d), ended, ended.Reset());
      Append(TrackEnd(d.path, reason));
      Unload(d);
      assert Model() == s.Log(TrackEnd(k.path, reason)).(rig := s.rig.Put(Name(d), ended));
      if d.role in {Fading, Preloaded} {
        ClearBeside(d);
      } else if d.role == OnAir {
        OnAirEnded(d);
      }
    }

    method OtherDeck(d: DeckUnit) returns (o: DeckUnit)
      requires Valid() && d in {a, b}
      ensures o in {a, b} && Name(o) == Other(Name(d))
    {
      return if d == a then b else a;
    }

    /** The song on air becomes the one fading. */
    method FadeUnder(d: DeckUnit)
      requires Valid() && d in {a, b}
      modifies this`onair, d`role, d`fade
      ensures
        var s, k := old(Model()), old(d.Value());
        Valid() && Model() == s.(rig := s.rig.Put(Name(d), k.(role := Fading, fade := FadeOut)).(onair := None))
    {
      d.role, d.fade := Fading, FadeOut;
      onair := null;
    }

    method HandleXfadeDue(d: DeckUnit, client: nat, positionKnown: bool)
      requires Valid() && d in {a, b}
      modifies this, a, b, state
      ensures Valid() && Model() == OnXfadeDue(w, old(Model()), Name(d), client, positionKnown)
    {
      hide Playout.GoOnAir;
      if d != onair || client != d.client || d.role != OnAir ||
         !(w.crossfade && d.entry.Some? && IsSong(d.entry.value.source)) { return; }
      if stopAfter || paused || state.emergencyMode || state.forcedEmergency { return; }
      var nxt := state.NextEntry();
      var o := OtherDeck(d);
      if nxt.None? || o.role !in {Idle, Preloaded} { return; }
      var ok := Playable(nxt.value.path);
      if !ok || !positionKnown { return; }
      FadeUnder(d);
      Append(Crossfade(d.path, nxt.value.path));
      GoOnAir(o, nxt.value.path, nxt, IsSong(nxt.value.source), false);
    }

    method HandleMutation(m: Mutation) returns (verdict: Verdict)
      requires Valid()
      modifies this, a, b, state
      ensures Valid() && verdict == Judge(old(Model()).q, m)
      ensures Model() == OnMutation(w, old(Model()), m)
    {
      hide Playout.AdvanceOrFail, Playout.PlayNextEmergency, Playout.EnsurePreloaded, Mutated, TakenOut, Brought, Rig.StopRole;
      ghost var q := state.Value();
      verdict := state.ApplyMutation(m);
      if verdict != Accepted {
        RefusedLeaves(q, m);
        return;
      }
      ledger := ledger.(accepted := ledger.accepted + multiset(Brought(m.op)),
                        removed := ledger.removed + TakenOut(q, m.op));
      Save();
      if state.forcedEmergency {
      } else if m.op.Replace? {
        StopRole(Fading);
        AdvanceOrFail(false);
      } else if state.emergencyMode {
        PlayNextEmergency();
      } else if onair == null {
        AdvanceOrFail(false);
      } else {
        EnsurePreloaded();
      }
    }

    static lemma RefusedLeaves(q: Queue, m: Mutation)
      requires Judge(q, m) != Accepted
      ensures Mutated(q, m) == q
    {
    }

    method PauseDeck(d: DeckUnit, value: bool)
      requires Valid() && d in {a, b}
      modifies d`player
      ensures Valid() && d.Value() == SetPause(old(d.Value()), value)
      ensures Model() == old(Model()).(rig := old(Model()).rig.Put(Name(d), d.Value()))
    {
      if d.role in {OnAir, Fading} { d.player := d.player.(paused := value); }
    }

    method PauseDecks(value: bool)
      requires Valid()
      modifies a`player, b`player
      ensures Valid() && Model() == old(Model()).(rig := SetPauseAll(old(Model()).rig, value))
    {
      hide SetPause;
      PauseDeck(a, value);
      PauseDeck(b, value);
    }

    method ForceEmergency()
      requires Valid()
      modifies this, a, b, state
      ensures Valid() && Model() == OnOperate(w, old(Model()), Emergency)
    {
      hide Playout.EnterEmergency;
      if !state.forcedEmergency {
        state.forcedEmergency := true;
        Save();
        Append(EmergencyForced);
        StopRole(Fading);
        EnterEmergency();
      }
    }

    method ReleaseEmergency()
      requires Valid()
      modifies this, a, b, state
      ensures Valid() && Model() == OnOperate(w, old(Model()), ResumeNormal)
    {
      hide Playout.PlayNextEmergency;
      if state.forcedEmergency {
        state.forcedEmergency := false;
        Save();
        Append(EmergencyForceCleared);
        if state.emergencyMode { PlayNextEmergency(); }
      }
    }

    method HandleOp(op: EngineOp) returns (known: bool)
      requires Valid()
      modifies this, a, b, state
      ensures Valid() && known == !op.UnknownEngineOp?
      ensures Model() == OnOperate(w, old(Model()), op)
      ensures paused == PausedAfter(w, old(Model()), Operate(op))
      ensures stopAfter == StopAfterAfter(w, old(Model()), Operate(op))
    {
      SwitchLaw(w, Model(), Operate(op));
      hide Playout.AdvanceOrFail, Playout.PlayNextEmergency, Playout.EnterEmergency, SetPauseAll;
      match op {
        case Skip =>
          StopRole(Fading);
          AdvanceOrFail(false);
        case Pause =>
          paused := true;
          PauseDecks(true);
          Append(PauseEvent);
        case Resume =>
          paused := false;
          PauseDecks(false);
          Append(ResumeEvent);
          if onair == null { AdvanceOrFail(false); }
        case StopAfter =>
          stopAfter := !stopAfter;
          Append(StopAfterToggled(stopAfter));
        case Emergency => ForceEmergency();
        case ResumeNormal => ReleaseEmergency();
        case UnknownEngineOp =>
          return false;
      }
      return true;
    }

    method RestartDeck(d: DeckUnit, deadClient: Option<nat>)
      requires Valid() && d in {a, b}
      modifies this, a, b, state
      ensures Valid() && Model() == OnDeckDead(w, old(Model()), Name(d), deadClient)
    {
      hide Playout.Kick, Playout.EnsurePreloaded;
      if deadClient.Some? && deadClient.value != d.client { return; }
      Append(MpvRestart(Name(d)));
      var wasOnAir := d == onair || d.role == OnAir;
      if onair == d { onair := null; }
      d.Replace();
      if wasOnAir { Kick(); } else { EnsurePreloaded(); }
    }

    /** Engine start: read the state file, two fresh players, kick. It comes up playing, whatever it finds. */
    method Start()
      requires Valid()
      modifies this, a, b, state
      ensures Valid() && Model() == Playout.Start(w, old(Model()))
      ensures Sounding(w, Model()) && !paused && !stopAfter && !Model().rig.Get(Model().rig.onair.value).player.paused
    {
      hide Playout.Kick, Sounding;
      ghost var before := Model();
      Append(EngineStart);
      ReadStateFile();
      FreshPlayers();
      Kick();
      StartsPlaying(w, before);
    }

    method ReadStateFile()
      requires Valid()
      modifies state
      ensures Valid() && state.Value() == saved
    {
      state.queueVersion, state.entries, state.currentIndex := saved.version, saved.entries, saved.current;
      state.emergencyMode, state.forcedEmergency := saved.emergency, saved.forced;
    }

    method FreshPlayers()
      requires Valid()
      modifies this`onair, this`paused, this`stopAfter, this`fillerIndex, a, b
      ensures Valid()
      ensures Model() == old(Model()).(rig := Rig(Replaced(old(a.Value())), Replaced(old(b.Value())), None),
                                       paused := false, stopAfter := false, fillerIndex := 0)
    {
      a.Replace();
      b.Replace();
      onair := null;
      paused, stopAfter, fillerIndex := false, false, 0;
    }

    method DeckNamed(name: Which) returns (d: DeckUnit)
      requires Valid()
      ensures d in {a, b} && Name(d) == name
    {
      return if name == A then a else b;
    }

    /** One step of the mixer thread: volume, and the end of a fade-in, nothing else. */
    method Ramp(d: DeckUnit, client: nat, volume: int, fadeInDone: bool)
      requires Valid() && d in {a, b}
      modifies d
      ensures Valid() && Model() == OnMixerRamp(old(Model()), Name(d), client, volume, fadeInDone)
    {
      if client != d.client || d.fade == NoFade || d.role !in {OnAir, Fading} { return; }
      if fadeInDone && d.fade == FadeIn {
        d.fade := NoFade;
        d.player := d.player.(volume := FULL_VOLUME);
      } else {
        d.player := d.player.(volume := volume);
      }
    }

    /** The owner loop's dispatch. Whatever it is handed, an engine that sounds goes on sounding, and a live
        one stays live. */
    method Perform(act: Action)
      requires Valid()
      modifies this, a, b, state
      ensures Valid() && Model() == Step(w, old(Model()), act)
      ensures old(Sounding(w, Model())) ==> Sounding(w, Model())
      ensures old(Live(w, Model())) ==> Live(w, Model())
    {
      hide OnEndFile, OnMutation, OnOperate, OnXfadeDue, OnDeckDead, OnMixerRamp, Playout.Kick, Playout.Start, Live, Sounding;
      ghost var before := Model();
      match act {
        case EndFile(name, client, entryId, reason) =>
          var d := DeckNamed(name);
          HandleEndFile(d, client, entryId, reason);
        case Mutate(m) =>
          var _ := HandleMutation(m);
        case Operate(op) =>
          var _ := HandleOp(op);
        case XfadeDue(name, client, known) =>
          var d := DeckNamed(name);
          HandleXfadeDue(d, client, known);
        case DeckDead(name, client) =>
          var d := DeckNamed(name);
          RestartDeck(d, client);
        case KickAction =>
          Kick();
        case MixerRamp(name, client, volume, done) =>
          var d := DeckNamed(name);
          Ramp(d, client, volume, done);
        case EngineRestart =>
          Start();
      }
      if Sounding(w, before) { StepSounds(w, before, act); }
      if Live(w, before) { StepLive(w, before, act); }
    }
  }
}
