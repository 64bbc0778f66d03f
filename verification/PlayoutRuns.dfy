/** Every run, from any state file at all: never silent, no song lost; and how an engine started half-way
  through the emergency button comes to be in order again. */
module PlayoutRuns {
  import opened Basics
  import opened QueueStore
  import opened Playout
  import opened PlayoutSafety
  import opened PlayoutSounding
  import opened PlayoutLedger
  import opened PlayoutSwitches

  /** Never silent. From any state file whatever, after the start-up kick and any sequence of owner actions
      (stale reports, dead players, restarts of the engine, any answers from the disk), exactly one deck is
      on air, and the rest of `Sounding` holds; it is paused only if the operator's last word was to pause,
      or to stop after a song that has ended. All of `Live` holds too, if the file was not left half-way
      through the emergency button. */
  lemma NeverSilent(w: World, file: Queue, acts: seq<Action>)
    ensures Sounding(w, Run(w, Start(w, Boot(file)), acts))
    ensures
      var r := Run(w, Start(w, Boot(file)), acts);
      r.rig.Get(r.rig.onair.value).player.paused <==> LastPaused(w, Start(w, Boot(file)), acts)
    ensures (file.forced ==> file.emergency) ==> Live(w, Run(w, Start(w, Boot(file)), acts))
  {
    hide Live, Start, LastPaused, RigOk, HeadHeld;
    RunSounds(w, file, acts);
    PausedOnlyByOperator(w, file, acts);
    if file.forced ==> file.emergency { RunLive(w, file, acts); }
  }

  lemma {:induction false} RunSounds(w: World, file: Queue, acts: seq<Action>)
    ensures Sounding(w, Run(w, Start(w, Boot(file)), acts))
    decreases |acts|
  {
    hide Sounding, Start, Step;
    if acts == [] {
      StartSounds(w, Boot(file));
    } else {
      RunSounds(w, file, acts[..|acts| - 1]);
      StepSounds(w, Run(w, Start(w, Boot(file)), acts[..|acts| - 1]), acts[|acts| - 1]);
    }
  }

  /** Once the forced flag is not alone, any advance puts the whole engine in order. */
  lemma AdvanceHeals(w: World, s: State, reason: Reason)
    requires Sounding(w, s) && (s.q.forced ==> s.q.emergency) && reason != OtherReason
    ensures
      var d := s.rig.onair.value;
      var k := s.rig.Get(d);
      && Live(w, Step(w, s, Operate(Skip)))
      && Live(w, Step(w, s, KickAction))
      && Live(w, Step(w, s, EndFile(d, k.client, k.mpvEntryId, reason)))
  {
    hide OnAirEnded, AdvanceOrFail, Kick, Live, Sounding;
    SoundingCuttable(w, s);
    AdvanceOrFailLive(w, s.(rig := s.rig.StopRole(Fading)), false);
    KickLive(w, s);
    SoundingOnAir(w, s, s.rig.onair.value);
    EndedHeals(w, s, TrackEnd(s.rig.Get(s.rig.onair.value).path, reason));
  }

  lemma SoundingCuttable(w: World, s: State)
    requires Sounding(w, s) && (s.q.forced ==> s.q.emergency)
    ensures s.rig.onair.Some? && Cuttable(w, s) && Cuttable(w, s.(rig := s.rig.StopRole(Fading)))
  {
    hide DeckOk;
    StopRoleKeeps(w, s.rig, Fading);
  }

  lemma EndedHeals(w: World, s: State, e: Event)
    requires Sounding(w, s) && (s.q.forced ==> s.q.emergency)
    ensures
      var d := s.rig.onair.value;
      var ended := s.rig.Get(d).(player := s.rig.Get(d).player.(file := None));
      Live(w, OnAirEnded(w, s.Log(e).(rig := s.rig.Put(d, ended)), d))
  {
    hide DeckOk, AdvanceOrFail, PlayNextEmergency, Live;
    var d := s.rig.onair.value;
    var ended := s.rig.Get(d).(player := s.rig.Get(d).player.(file := None));
    SilencedSounds(w, s, e, d, ended.Reset());
    assert s.rig.Put(d, ended).Put(d, ended.Reset()) == s.rig.Put(d, ended.Reset());
    var s1 := s.Log(e).(rig := s.rig.Put(d, ended.Reset()).(onair := None));
    if s.q.emergency { PlayNextEmergencyLive(w, s1); } else { AdvanceOrFailLive(w, s1, s1.stopAfter); }
  }

  // ---------------------------------------------------------------- no song lost

  /** No song lost, none repeated. From any state file with distinct ids and a play-head within the
      queue, over any run of owner
      actions in which clients mint fresh ids, every entry ever accepted is in exactly one place:
      still pending, played before the run, aired (once, and so the journal says), dropped (with a
      journalled skip), or taken out by an accepted mutation. */
  lemma {:induction false} NoSongLost(w: World, file: Queue, acts: seq<Action>)
    requires Sane(file) && IdsDistinct(file.entries)
    requires Orderly(w, Start(w, Boot(file)), acts)
    ensures
      var r := Run(w, Start(w, Boot(file)), acts);
      && Books(w, r)
      && r.ledger.aired == AiredIn(r.log)
      && (forall e :: e in r.ledger.dropped ==> TrackSkip(e) in r.log)
      && forall e :: e in r.ledger.accepted ==>
           multiset(Pending(r.q))[e] + r.ledger.past[e] + r.ledger.aired[e] +
           r.ledger.dropped[e] + r.ledger.removed[e] == 1
    decreases |acts|
  {
    hide Sounding, Good, Accounted, Start, Step;
    var s := Start(w, Boot(file));
    if acts == [] {
      StartSounds(w, Boot(file));
      BootGood(file);
      BootAccounted(file);
      StartFlow(w, Boot(file));
      FlowAccounts(Boot(file), s);
    } else {
      var n := |acts| - 1;
      assert forall k :: 0 <= k < n ==> acts[..n][..k] == acts[..k] && acts[..n][k] == acts[k];
      NoSongLost(w, file, acts[..n]);
      StepBooks(w, Run(w, s, acts[..n]), acts[n]);
    }
    BooksBalance(w, Run(w, s, acts));
  }

  // ---------------------------------------------------------------- a play-head past the end

  lemma FillerLedger(w: World, s: State)
    requires Cuttable(w, s) && s.q.emergency && Next(s.q).None?
    ensures var r := PlayNextEmergency(w, s); Live(w, r) && r.q == s.q && r.ledger == s.ledger
  {
    hide DeckOk, GoOnAir;
    PlayFillerLive(w, s);
    var s1 := s.(rig := s.rig.StopOnAir());
    forall p, d, n, c ensures GoOnAir(w, s1.(fillerIndex := n, clock := c), d, p, None, false, false).ledger == s.ledger {
      FillerAiredLedger(w, s1.(fillerIndex := n, clock := c), d, p);
    }
  }

  lemma FillerAiredLedger(w: World, s: State, d: Which, p: Path)
    requires s.q.emergency
    ensures GoOnAir(w, s, d, p, None, false, false).ledger == s.ledger
  {
  }

  /** Started with nothing left to play, the engine goes to filler and leaves the entries alone. */
  lemma StartedEmpty(w: World, file: Queue)
    requires !Sane(file)
    ensures
      var r := Start(w, Boot(file));
      && Live(w, r) && r.q.emergency && r.ledger == Boot(file).ledger
      && r.q.entries == file.entries && r.q.current == file.current && r.q.version == file.version
  {
    hide DeckOk, PlayNextEmergency;
    var s0 := Boot(file);
    var s := s0.(rig := Rig(Replaced(s0.rig.a), Replaced(s0.rig.b), None)).Log(EngineStart);
    StartedOff(w, s);
    var q1: Queue := s.q.(emergency := true);
    var s1 := if s.q.emergency then s else s.Log(EmergencyEnter).(q := q1, saved := q1);
    FillerLedger(w, s1);
  }

  lemma StartedOff(w: World, s: State)
    requires s.rig.onair.None? && s.rig.a == Replaced(s.rig.a).(client := s.rig.a.client)
    requires s.rig.b == Replaced(s.rig.b).(client := s.rig.b.client)
    ensures RigOff(w, s.rig) && s.rig.StopOnAir() == s.rig && s.rig.StopRole(Preloaded) == s.rig
  {
  }

  /** Why the play-head must lie within the queue: from any state file with it one past the end, the first
      entry appended is accepted and then is nowhere, neither pending nor aired nor dropped nor removed. */
  lemma AppendedIsLost(w: World, file: Queue, e: Entry)
    requires !Sane(file) && e !in file.entries
    ensures
      var m := Mutation(Append([e]), Some(file.version + 1));
      var r := Run(w, Start(w, Boot(file)), [Mutate(m)]);
      && r.ledger.accepted[e] == 1
      && multiset(Pending(r.q))[e] + r.ledger.past[e] + r.ledger.aired[e] + r.ledger.dropped[e] + r.ledger.removed[e] == 0
  {
    hide DeckOk, Start, PlayNextEmergency;
    StartedEmpty(w, file);
    var s := Start(w, Boot(file));
    var m := Mutation(Append([e]), Some(file.version + 1));
    assert [Mutate(m)][..0] == [] && Run(w, s, []) == s;
    var s1 := Requeued(s, m);
    assert Pending(s1.q) == [];
    assert Played(file) == file.entries;
    if !s1.q.forced {
      LiveCuttable(w, s);
      FillerLedger(w, s1);
    }
  }
}
