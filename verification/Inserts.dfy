/** Accepted inserts and the cache they live in: pins that outlast a status the engine has not caught up
  with, and eviction passes that run later, without the lock, from an older snapshot. */
module Inserts {
  import opened Basics
  import opened QueueStore

  const PIN_GRACE := 120
  const MIN_AGE := 600

  /** An entry the feeder believes the engine holds. `pinned` is when it was accepted, until the engine
      has been seen to hold it. Times are in seconds. */
  datatype FedEntry = FedEntry(id: Id, path: Path, pinned: Option<int>)

  // ---------------------------------------------------------------- reconciling with the engine

  predicate PinHolds(e: FedEntry, now: int) { e.pinned.Some? && now - e.pinned.value <= PIN_GRACE }

  /** What is left of the feed model after a status listing `listed` (pending or on air). */
  function Reconciled(fed: seq<FedEntry>, listed: set<Id>, now: int): seq<FedEntry>
    decreases |fed|
  {
    if fed == [] then []
    else
      var e := fed[|fed| - 1];
      Reconciled(fed[..|fed| - 1], listed, now) +
      if e.id in listed then [e.(pinned := None)] else if PinHolds(e, now) then [e] else []
  }

  /** An entry is kept exactly when the status lists it, which releases its pin, or its pin still holds. */
  lemma {:induction false} ReconciledExactly(fed: seq<FedEntry>, listed: set<Id>, now: int)
    ensures forall e :: e in fed && e.id in listed ==> e.(pinned := None) in Reconciled(fed, listed, now)
    ensures forall e :: e in fed && e.id !in listed ==> (e in Reconciled(fed, listed, now) <==> PinHolds(e, now))
    ensures forall r :: r in Reconciled(fed, listed, now) ==>
              exists e :: e in fed && (r == e || r == e.(pinned := None))
    decreases |fed|
  {
    if fed != [] {
      var init := fed[..|fed| - 1];
      ReconciledExactly(init, listed, now);
      assert fed == init + [fed[|fed| - 1]];
      forall r | r in Reconciled(init, listed, now)
        ensures exists e :: e in fed && (r == e || r == e.(pinned := None)) {
        var e :| e in init && (r == e || r == e.(pinned := None));
        assert e in fed;
      }
      ReconciledOwn(init, listed, now);
    }
  }

  /** An entry that survives with its pin came through a status that did not list it. */
  lemma {:induction false} ReconciledOwn(fed: seq<FedEntry>, listed: set<Id>, now: int)
    ensures forall r :: r in Reconciled(fed, listed, now) && r.id !in listed ==> r in fed && PinHolds(r, now)
    decreases |fed|
  {
    if fed != [] { ReconciledOwn(fed[..|fed| - 1], listed, now); }
  }

  /** The feed keeps its order, entry by entry. */
  lemma {:induction false} ReconciledJoin(a: seq<FedEntry>, b: seq<FedEntry>, listed: set<Id>, now: int)
    ensures Reconciled(a + b, listed, now) == Reconciled(a, listed, now) + Reconciled(b, listed, now)
    decreases |b|
  {
    if b == [] {
      assert a + b == a;
    } else {
      assert (a + b)[..|a + b| - 1] == a + b[..|b| - 1];
      ReconciledJoin(a, b[..|b| - 1], listed, now);
    }
  }

  // ---------------------------------------------------------------- eviction

  /** The cache: each file with the time it was copied. */
  type Manifest = map<Path, int>

  predicate Evictable(m: Manifest, keep: set<Path>, now: int, p: Path)
    requires p in m
  {
    p !in keep && now - m[p] >= MIN_AGE
  }

  function Evicted(m: Manifest, keep: set<Path>, now: int): Manifest {
    map p | p in m && !Evictable(m, keep, now, p) :: m[p]
  }

  // ---------------------------------------------------------------- the feeder's steps

  /** An eviction pass that has its snapshot and has not run yet. */
  datatype Pass = Pass(keep: set<Path>, takenAt: int)

  datatype State = State(fed: seq<FedEntry>, manifest: Manifest, passes: seq<Pass>, now: int)

  datatype Action =
    | Copy(path: Path)                                            // a fresh copy lands in the cache
    | Accept(id: Id, path: Path)                                  // an operator insert the engine accepted
    | Feed(id: Id, path: Path)                                    // one entry of an accepted batch
    | Reconcile(listed: set<Id>)
    | Snapshot(playing: Option<Path>)
    | Evict(index: nat, lookahead: set<Path>)
    | Clear(kept: seq<FedEntry>)                                  // the engine's pending queue was dropped
    | Wait(seconds: nat)

  function FedPaths(fed: seq<FedEntry>): set<Path> { set e | e in fed :: e.path }

  function Step(s: State, act: Action): State {
    match act
    case Copy(p) => s.(manifest := s.manifest[p := s.now])
    case Accept(id, p) => s.(fed := [FedEntry(id, p, Some(s.now))] + s.fed)
    case Feed(id, p) => s.(fed := s.fed + [FedEntry(id, p, None)])
    case Reconcile(listed) => s.(fed := Reconciled(s.fed, listed, s.now))
    case Snapshot(playing) =>
      var keep := FedPaths(s.fed) + match playing { case Some(p) => {p} case None => {} };
      s.(passes := s.passes + [Pass(keep, s.now)])
    case Evict(i, lookahead) =>
      if i >= |s.passes| then s
      else
        s.(manifest := Evicted(s.manifest, s.passes[i].keep + lookahead, s.now),
           passes := s.passes[..i] + s.passes[i + 1..])
    case Clear(kept) => s.(fed := kept)
    case Wait(n) => s.(now := s.now + n)
  }

  function Run(s: State, acts: seq<Action>): State
    decreases |acts|
  {
    if acts == [] then s else Step(Run(s, acts[..|acts| - 1]), acts[|acts| - 1])
  }

  // ---------------------------------------------------------------- pins over a run

  /** Nothing listed this entry and nothing emptied the engine's queue. */
  predicate Unobserved(acts: seq<Action>, id: Id) {
    forall k :: 0 <= k < |acts| ==>
      !acts[k].Clear? && (acts[k].Reconcile? ==> id !in acts[k].listed)
  }

  lemma EntryStays(s: State, e: FedEntry, act: Action)
    requires e in s.fed && PinHolds(e, s.now) && !act.Clear? && (act.Reconcile? ==> e.id !in act.listed)
    ensures e in Step(s, act).fed
  {
    if act.Reconcile? { ReconciledExactly(s.fed, act.listed, s.now); }
  }

  /** An accepted insert stays in the feed model, pinned, until a status lists it, the engine's queue is
      dropped, or two minutes have passed, whatever ticks, inserts and eviction passes come between. */
  lemma {:induction false} AcceptedStays(s: State, id: Id, path: Path, acts: seq<Action>)
    requires Unobserved(acts, id)
    requires Run(Step(s, Accept(id, path)), acts).now - s.now <= PIN_GRACE
    ensures FedEntry(id, path, Some(s.now)) in Run(Step(s, Accept(id, path)), acts).fed
    decreases |acts|
  {
    hide Step;
    var s1 := Step(s, Accept(id, path));
    var e := FedEntry(id, path, Some(s.now));
    if acts == [] {
      JustAccepted(s, id, path);
    } else {
      var n := |acts| - 1;
      var before := Run(s1, acts[..n]);
      assert forall k :: 0 <= k < n ==> acts[..n][k] == acts[k];
      ClockMoves(before, acts[n]);
      AcceptedStays(s, id, path, acts[..n]);
      EntryStays(before, e, acts[n]);
    }
  }

  lemma JustAccepted(s: State, id: Id, path: Path)
    ensures FedEntry(id, path, Some(s.now)) in Step(s, Accept(id, path)).fed
  {
    assert Step(s, Accept(id, path)).fed[0] == FedEntry(id, path, Some(s.now));
  }

  lemma ClockMoves(s: State, act: Action)
    ensures s.now <= Step(s, act).now
  {
  }

  /** A pin never observed is let go by the first reconcile after two minutes, so it cannot hold back
      the feeding for ever. */
  lemma LapsedPinGoes(s: State, e: FedEntry, listed: set<Id>)
    requires e.id !in listed && !PinHolds(e, s.now)
    ensures e !in Step(s, Reconcile(listed)).fed
  {
    ReconciledOwn(s.fed, listed, s.now);
  }

  // ---------------------------------------------------------------- the files of the feed

  /** The file of every entry in the feed is in the cache. */
  predicate FilesHeld(s: State) { forall e :: e in s.fed ==> e.path in s.manifest }

  /** The file is safe from every pass still to run: in its snapshot, or copied since. */
  predicate SafeFile(s: State, p: Path) {
    p in s.manifest && forall x :: x in s.passes ==> p in x.keep || x.takenAt <= s.manifest[p]
  }

  predicate AllSafe(s: State) {
    && (forall e :: e in s.fed ==> SafeFile(s, e.path))
    && (forall x :: x in s.passes ==> x.takenAt <= s.now)
    && (forall p :: p in s.manifest ==> s.manifest[p] <= s.now)
  }

  /** When the feed's files are in no danger: an entry joins the feed with its file cached, and copied
      since any snapshot that does not hold it; and a pass runs within ten minutes of its snapshot. */
  predicate Careful(s: State, act: Action) {
    match act
    case Accept(_, p) => SafeFile(s, p)
    case Feed(_, p) => SafeFile(s, p)
    case Evict(i, _) => i < |s.passes| ==> s.now - s.passes[i].takenAt < MIN_AGE
    case Clear(kept) => forall e :: e in kept ==> e in s.fed
    case _ => true
  }

  lemma StepSafe(s: State, act: Action)
    requires AllSafe(s) && Careful(s, act)
    ensures AllSafe(Step(s, act))
  {
    var r := Step(s, act);
    match act
    case Reconcile(listed) =>
      ReconciledExactly(s.fed, listed, s.now);
      forall e | e in r.fed ensures SafeFile(r, e.path) {
        var x :| x in s.fed && (e == x || e == x.(pinned := None));
        assert SafeFile(s, x.path);
      }
    case Snapshot(playing) =>
      forall e | e in r.fed ensures SafeFile(r, e.path) {
        assert SafeFile(s, e.path);
        assert e.path in FedPaths(s.fed);
      }
    case Evict(i, lookahead) =>
      forall e | e in r.fed ensures SafeFile(r, e.path) {
        assert SafeFile(s, e.path);
        if i < |s.passes| {
          assert s.passes[i] in s.passes;
          assert forall x :: x in r.passes ==> x in s.passes;
        }
      }
    case Clear(kept) =>
      assert forall e :: e in r.fed ==> e in kept;
    case Copy(p) =>
      forall e | e in r.fed ensures SafeFile(r, e.path) { assert SafeFile(s, e.path); }
    case _ =>
      forall e | e in r.fed ensures SafeFile(r, e.path) {
        if e in s.fed { assert SafeFile(s, e.path); }
      }
  }

  predicate CarefulRun(s: State, acts: seq<Action>) {
    forall k :: 0 <= k < |acts| ==> Careful(Run(s, acts[..k]), acts[k])
  }

  /** For every interleaving of ticks, inserts and delayed eviction passes that is careful in that sense,
      the file of every entry in the feed stays in the cache. */
  lemma {:induction false} CarefulRunsAreSafe(s: State, acts: seq<Action>)
    requires AllSafe(s) && CarefulRun(s, acts)
    ensures AllSafe(Run(s, acts)) && FilesHeld(Run(s, acts))
    decreases |acts|
  {
    if acts != [] {
      var n := |acts| - 1;
      assert forall k :: 0 <= k < n ==> acts[..n][..k] == acts[..k] && acts[..n][k] == acts[k];
      CarefulRunsAreSafe(s, acts[..n]);
      StepSafe(Run(s, acts[..n]), acts[n]);
    }
    var r := Run(s, acts);
    forall e | e in r.fed ensures e.path in r.manifest { assert SafeFile(r, e.path); }
  }

  /** Each entry's file is in the pass's snapshot, looked ahead to, or was copied within ten minutes. */
  predicate Spared(s: State, i: nat, lookahead: set<Path>)
    requires i < |s.passes|
  {
    forall e :: e in s.fed ==>
      e.path in s.passes[i].keep || e.path in lookahead ||
      (e.path in s.manifest && s.now - s.manifest[e.path] < MIN_AGE)
  }

  /** What a step must see to, and no more: entries join with their file cached, and a pass spares the
      files of the feed. */
  predicate Gentle(s: State, act: Action) {
    match act
    case Accept(_, p) => p in s.manifest
    case Feed(_, p) => p in s.manifest
    case Evict(i, lookahead) => i < |s.passes| ==> Spared(s, i, lookahead)
    case Clear(kept) => forall e :: e in kept ==> e.path in s.manifest
    case _ => true
  }

  /** One pass, exactly: the feed's files all survive it if and only if each is in its snapshot, looked
      ahead to, or was copied within the last ten minutes. */
  lemma EvictHolds(s: State, i: nat, lookahead: set<Path>)
    requires FilesHeld(s) && i < |s.passes|
    ensures FilesHeld(Step(s, Evict(i, lookahead))) <==> Spared(s, i, lookahead)
  {
  }

  /** One step, exactly. */
  lemma StepHolds(s: State, act: Action)
    requires FilesHeld(s)
    ensures FilesHeld(Step(s, act)) <==> Gentle(s, act)
  {
    var r := Step(s, act);
    match act
    case Reconcile(listed) =>
      ReconciledExactly(s.fed, listed, s.now);
      forall e | e in r.fed ensures e.path in r.manifest {
        var x :| x in s.fed && (e == x || e == x.(pinned := None));
      }
    case Accept(id, p) =>
      assert r.fed[0] == FedEntry(id, p, Some(s.now));
      assert forall e :: e in s.fed ==> e in r.fed;
    case Feed(id, p) =>
      assert r.fed[|s.fed|] == FedEntry(id, p, None);
      assert forall e :: e in s.fed ==> e in r.fed;
    case Evict(i, lookahead) =>
      if i < |s.passes| { EvictHolds(s, i, lookahead); }
    case _ =>
  }

  /** At every moment of the run the file of every entry in the feed is in the cache. */
  predicate HeldThroughout(s: State, acts: seq<Action>) {
    forall k :: 0 <= k <= |acts| ==> FilesHeld(Run(s, acts[..k]))
  }

  /** Every step of the run is gentle where it stands. */
  predicate GentleThroughout(s: State, acts: seq<Action>) {
    forall k :: 0 <= k < |acts| ==> Gentle(Run(s, acts[..k]), acts[k])
  }

  lemma HeldLast(s: State, acts: seq<Action>)
    requires acts != []
    ensures HeldThroughout(s, acts) <==> HeldThroughout(s, acts[..|acts| - 1]) && FilesHeld(Run(s, acts))
  {
    hide FilesHeld, Run;
    var n := |acts| - 1;
    assert acts[..n + 1] == acts;
    assert forall k :: 0 <= k <= n ==> acts[..n][..k] == acts[..k];
  }

  lemma GentleLast(s: State, acts: seq<Action>)
    requires acts != []
    ensures
      var n := |acts| - 1;
      GentleThroughout(s, acts) <==> GentleThroughout(s, acts[..n]) && Gentle(Run(s, acts[..n]), acts[n])
  {
    hide Gentle, Run;
    var n := |acts| - 1;
    assert forall k :: 0 <= k < n ==> acts[..n][..k] == acts[..k] && acts[..n][k] == acts[k];
  }

  /** For any interleaving of ticks, inserts and delayed eviction passes: the feed's files are in the cache
      throughout if and only if every step is gentle where it stands. */
  lemma {:induction false} FedFilesSurvive(s: State, acts: seq<Action>)
    requires FilesHeld(s)
    ensures HeldThroughout(s, acts) <==> GentleThroughout(s, acts)
    decreases |acts|
  {
    hide FilesHeld, Gentle, Step, HeldThroughout, GentleThroughout;
    if acts == [] {
      NothingDone(s);
    } else {
      var n := |acts| - 1;
      HeldLast(s, acts);
      GentleLast(s, acts);
      FedFilesSurvive(s, acts[..n]);
      if HeldThroughout(s, acts[..n]) {
        HeldAtEnd(s, acts[..n]);
        StepHolds(Run(s, acts[..n]), acts[n]);
      }
    }
  }

  lemma NothingDone(s: State)
    requires FilesHeld(s)
    ensures HeldThroughout(s, []) && GentleThroughout(s, [])
  {
  }

  lemma HeldAtEnd(s: State, acts: seq<Action>)
    requires HeldThroughout(s, acts)
    ensures FilesHeld(Run(s, acts))
  {
    assert acts[..|acts|] == acts;
  }

  /** The file on air when a pass took its snapshot, and each file then in the feed, survives that pass
      however late it runs and whatever it looks ahead to. */
  lemma SnapshotProtects(s: State, playing: Option<Path>, r: State, lookahead: set<Path>, p: Path)
    requires Step(s, Snapshot(playing)).passes[|s.passes|] in r.passes
    requires p in r.manifest && (playing == Some(p) || exists e :: e in s.fed && e.path == p)
    ensures forall i :: 0 <= i < |r.passes| && r.passes[i] == Step(s, Snapshot(playing)).passes[|s.passes|] ==>
              p in Step(r, Evict(i, lookahead)).manifest && Step(r, Evict(i, lookahead)).manifest[p] == r.manifest[p]
  {
    if exists e :: e in s.fed && e.path == p { assert p in FedPaths(s.fed); }
  }

  /** Why the care is needed: a cache hit is not stamped anew. A spot whose file was copied long ago,
      accepted between a pass's snapshot and the pass itself, loses its file. */
  lemma OldHitIsEvicted(id: Id, path: Path)
    ensures
      var s := State([], map[path := 0], [], MIN_AGE);
      var r := Run(s, [Snapshot(None), Accept(id, path), Evict(0, {})]);
      r.fed == [FedEntry(id, path, Some(MIN_AGE))] && path !in r.manifest
  {
    var s := State([], map[path := 0], [], MIN_AGE);
    var acts := [Snapshot(None), Accept(id, path), Evict(0, {})];
    var s1 := Step(s, acts[0]);
    var s2 := Step(s1, acts[1]);
    assert acts[..2][..1] == acts[..1] && acts[..1][..0] == [];
    assert Run(s, acts[..1]) == s1 && Run(s, acts[..2]) == s2;
    assert s1.passes[0].keep == {};
    assert s2.fed == [FedEntry(id, path, Some(MIN_AGE))] + [];
  }

  // ---------------------------------------------------------------- in place

  /** The feed and the cache, with the eviction passes that have their snapshot and have not run yet. */
  class FeederBook {
    var fed: seq<FedEntry>
    var manifest: Manifest
    var passes: seq<Pass>
    var now: int

    ghost function Model(): State
      reads this
    {
      State(fed, manifest, passes, now)
    }

    /** The reconcile of a tick. */
    method ReconcileFed(listed: set<Id>)
      modifies this`fed
      ensures Model() == Step(old(Model()), Reconcile(listed))
    {
      var kept := [];
      for i := 0 to |fed|
        invariant fed == old(fed) && kept == Reconciled(fed[..i], listed, now)
      {
        assert fed[..i + 1][..i] == fed[..i];
        var e := fed[i];
        if e.id in listed {
          kept := kept + [e.(pinned := None)];
        } else if e.pinned.Some? && !(now - e.pinned.value > PIN_GRACE) {
          kept := kept + [e];
        }
      }
      assert fed[..|fed|] == fed;
      fed := kept;
    }

    /** What a pass must not touch: the feed's files and the one playing. */
    method TakeSnapshot(playing: Option<Path>)
      modifies this`passes
      ensures Model() == Step(old(Model()), Snapshot(playing))
    {
      var keep := FedPaths(fed);
      if playing.Some? { keep := keep + {playing.value}; }
      assert keep == FedPaths(fed) + match playing { case Some(p) => {p} case None => {} };
      passes := passes + [Pass(keep, now)];
    }

    /** The eviction over the manifest: a file goes exactly if it is not to be kept and was copied ten
        minutes ago or more. */
    method EvictExcept(keep: set<Path>) returns (count: nat)
      modifies this`manifest
      ensures forall p :: p in old(manifest) && p !in manifest <==>
                p in old(manifest) && p !in keep && now - old(manifest)[p] >= MIN_AGE
      ensures manifest == Evicted(old(manifest), keep, now)
      ensures count == |old(manifest)| - |manifest|
    {
      var victims := set p | p in manifest && p !in keep && now - manifest[p] >= MIN_AGE;
      count := |victims|;
      ghost var before := manifest;
      manifest := manifest - victims;
      assert manifest == Evicted(before, keep, now);
      assert before.Keys == manifest.Keys + victims;
    }

    /** A pass runs, from the snapshot it took. */
    method RunPass(i: nat, lookahead: set<Path>)
      modifies this`manifest, this`passes
      ensures Model() == Step(old(Model()), Evict(i, lookahead))
    {
      if i < |passes| {
        var _ := EvictExcept(passes[i].keep + lookahead);
        passes := passes[..i] + passes[i + 1..];
      }
    }

    /** An insert the engine accepted: it goes to the front, pinned. */
    method AcceptInsert(id: Id, path: Path)
      modifies this`fed
      ensures Model() == Step(old(Model()), Accept(id, path))
    {
      fed := [FedEntry(id, path, Some(now))] + fed;
    }

    /** Any step. The feed's files, all cached before it, all are after it exactly when it is gentle; a
        careful step keeps them safe from the passes still to run. */
    method Perform(act: Action)
      modifies this
      ensures Model() == Step(old(Model()), act)
      ensures old(FilesHeld(Model())) ==> (FilesHeld(Model()) <==> Gentle(old(Model()), act))
      ensures old(AllSafe(Model()) && Careful(Model(), act)) ==> AllSafe(Model())
    {
      hide FilesHeld, AllSafe, Careful, Gentle;
      ghost var before := Model();
      match act {
        case Copy(p) => manifest := manifest[p := now];
        case Accept(id, p) => AcceptInsert(id, p);
        case Feed(id, p) => fed := fed + [FedEntry(id, p, None)];
        case Reconcile(listed) => ReconcileFed(listed);
        case Snapshot(playing) => TakeSnapshot(playing);
        case Evict(i, lookahead) => RunPass(i, lookahead);
        case Clear(kept) => fed := kept;
        case Wait(n) => now := now + n;
      }
      if FilesHeld(before) { StepHolds(before, act); }
      if AllSafe(before) && Careful(before, act) { StepSafe(before, act); }
    }
  }
}
