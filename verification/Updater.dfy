/** The self-updater's file swap: backup, install, restart and health check, and the rollback when any of
  them fails. */
module Updater {
  import opened Basics

  type Content(==, !new)

  /** Files by their path relative to a root. */
  type Tree = map<Path, Content>

  /** Which paths are managed code, the order in which a tree's managed files are listed, and the n-th file
      operation's fate: whether it fails, and what a copy that fails half-way leaves at its destination. */
  datatype World = World(managed: Path -> bool, listing: Tree -> seq<Path>, fails: nat -> bool,
                         leavings: nat -> Option<Content>)

  function ManagedFiles(w: World, t: Tree): Tree { map p | p in t && w.managed(p) :: t[p] }

  predicate SameOutside(w: World, t: Tree, t': Tree) {
    (map p | p in t && !w.managed(p) :: t[p]) == (map p | p in t' && !w.managed(p) :: t'[p])
  }

  /** The live tree is exactly `old` again, or exactly the release, when its managed part is and nothing
      else moved. */
  lemma WholeTree(w: World, t: Tree, t': Tree)
    ensures t == t' <==> SameOutside(w, t, t') && ManagedFiles(w, t) == ManagedFiles(w, t')
  {
    if SameOutside(w, t, t') && ManagedFiles(w, t) == ManagedFiles(w, t') {
      var out, out' := map p | p in t && !w.managed(p) :: t[p], map p | p in t' && !w.managed(p) :: t'[p];
      forall p ensures (p in t <==> p in t') && (p in t && p in t' ==> t[p] == t'[p]) {
        if w.managed(p) {
          assert p in t <==> p in ManagedFiles(w, t);
          assert p in t' <==> p in ManagedFiles(w, t');
          if p in t { assert ManagedFiles(w, t)[p] == ManagedFiles(w, t')[p]; }
        } else {
          assert p in t <==> p in out;
          assert p in t' <==> p in out';
          if p in t { assert out[p] == out'[p]; }
        }
      }
    }
  }

  // ---------------------------------------------------------------- what an install is up against

  /** The listing of a tree names each of its managed files once. */
  ghost predicate Listed(w: World, t: Tree) {
    var files := w.listing(t);
    && (forall i, j :: 0 <= i < j < |files| ==> files[i] != files[j])
    && forall p :: p in files <==> p in ManagedFiles(w, t)
  }

  /** The managed files of `t` that `src` does not have. */
  function Stale(w: World, t: Tree, src: Tree): set<Path> { set p | p in t && w.managed(p) && p !in src }

  /** None of the `n` file operations from the `from`-th on fails. */
  predicate NoFailures(w: World, from: nat, n: nat) { forall k :: from <= k < from + n ==> !w.fails(k) }

  /** How many of those operations succeed before the first that fails. */
  function Succeeded(w: World, from: nat, n: nat): (m: nat)
    ensures m <= n
    decreases n
  {
    if n == 0 || w.fails(from) then 0 else 1 + Succeeded(w, from + 1, n - 1)
  }

  lemma {:induction false} SucceededAll(w: World, from: nat, n: nat)
    ensures Succeeded(w, from, n) == n <==> NoFailures(w, from, n)
    decreases n
  {
    if n > 0 {
      SucceededAll(w, from + 1, n - 1);
      assert NoFailures(w, from, n) <==> !w.fails(from) && NoFailures(w, from + 1, n - 1);
    }
  }

  lemma StaleIn(w: World, t: Tree, src: Tree)
    ensures Stale(w, t, src) <= t.Keys
  {
  }

  lemma NoneYet(w: World, from: nat)
    ensures NoFailures(w, from, 0)
  {
  }

  lemma OneMore(w: World, from: nat, n: nat)
    ensures NoFailures(w, from, n + 1) <==> NoFailures(w, from, n) && !w.fails(from + n)
  {
  }

  lemma {:induction false} SucceededIs(w: World, from: nat, n: nat, i: nat)
    requires i <= n && NoFailures(w, from, i) && (i < n ==> w.fails(from + i))
    ensures Succeeded(w, from, n) == i
    decreases i
  {
    if i > 0 {
      assert NoFailures(w, from + 1, i - 1);
      assert !w.fails(from);
      SucceededIs(w, from + 1, n - 1, i - 1);
    }
  }

  /** The paths that copying `src`, its first operation being the `from`-th, writes or leaves half-written. */
  function Arrived(w: World, src: Tree, from: nat): set<Path> {
    var files := w.listing(src);
    var m := Succeeded(w, from, |files|);
    (set p | p in files[..m]) +
    if m < |files| && w.leavings(from + m).Some? then {files[m]} else {}
  }

  /** When copying `src` is over, done or failed. */
  function CopyEnd(w: World, src: Tree, from: nat): nat {
    var n := |w.listing(src)|;
    var m := Succeeded(w, from, n);
    from + m + if m < n then 1 else 0
  }

  /** Copying `src`, its first operation being the `from`-th, goes through. */
  predicate CopyWorks(w: World, src: Tree, from: nat) { NoFailures(w, from, |w.listing(src)|) }

  /** Every managed file of `src` is in place, and what else is managed is among `others`. */
  predicate Matches(w: World, root: Tree, src: Tree, others: set<Path>) {
    && (forall p :: p in src && w.managed(p) ==> p in root && root[p] == src[p])
    && forall p :: p in root && w.managed(p) && p !in src ==> p in others
  }

  lemma IsListed(w: World, t: Tree, i: nat)
    requires Listed(w, t) && i < |w.listing(t)|
    ensures w.listing(t)[i] in t && w.managed(w.listing(t)[i])
  {
    assert w.listing(t)[i] in w.listing(t);
  }

  lemma AllListed(w: World, t: Tree)
    requires Listed(w, t)
    ensures forall p :: p in t && w.managed(p) ==> p in w.listing(t)
  {
    assert forall p :: p in t && w.managed(p) ==> p in ManagedFiles(w, t);
  }

  /** Copying stopped at the `i`-th file of the listing. */
  lemma CopyStopped(w: World, src: Tree, from: nat, i: nat)
    requires i <= |w.listing(src)| && NoFailures(w, from, i)
    requires i < |w.listing(src)| ==> w.fails(from + i)
    ensures
      var files := w.listing(src);
      && (CopyWorks(w, src, from) <==> i == |files|)
      && CopyEnd(w, src, from) == from + i + (if i < |files| then 1 else 0)
      && Arrived(w, src, from) == (set p | p in files[..i]) +
           if i < |files| && w.leavings(from + i).Some? then {files[i]} else {}
  {
    var n := |w.listing(src)|;
    SucceededIs(w, from, n, i);
    SucceededAll(w, from, n);
  }

  // ---------------------------------------------------------------- in place

  datatype Outcome = UpToDate | Refused | Done | RolledBack | Failed

  /** How the rest of an update goes: the release's version against ours, the operator's choices, the
      download, the backup, which services need restarting, and how each restart ends. */
  datatype Plan = Plan(release: Tree, sameMajor: bool, newer: bool, force: bool, major: bool,
                       verified: bool, backedUp: bool, restarts: bool,
                       healthyAfterInstall: bool, healthyAfterRollback: bool, migrated: Database)

  type Database(==, !new)

  class Install {
    const w: World
    var root: Tree
    var db: Database
    var clock: nat

    constructor (w: World, root: Tree, db: Database)
      ensures this.w == w && this.root == root && this.db == db && clock == 0
    {
      this.w, this.root, this.db, this.clock := w, root, db, 0;
    }

    /** Remove the managed files that `src` does not have; a removal that fails is passed over. */
    method RemoveStale(src: Tree) returns (ghost stuck: set<Path>)
      modifies this`root, this`clock
      ensures
        var stale := Stale(w, old(root), src);
        && stuck <= stale && clock == old(clock) + |stale|
        && (stuck == {} <==> NoFailures(w, old(clock), |stale|))
        && root == map p | p in old(root) && p !in stale - stuck :: old(root)[p]
    {
      hide NoFailures, Stale;
      ghost var start, done := root, 0;
      var stale := Stale(w, root, src);
      StaleIn(w, root, src);
      var todo := stale;
      stuck := {};
      NoneYet(w, clock);
      while todo != {}
        invariant todo <= stale && stuck <= stale && stuck !! todo
        invariant clock == old(clock) + done && done + |todo| == |stale|
        invariant stuck == {} <==> NoFailures(w, old(clock), done)
        invariant forall p :: p in root <==> p in start && (p !in stale || p in todo || p in stuck)
        invariant forall p :: p in root ==> root[p] == start[p]
      {
        var p :| p in todo;
        todo := todo - {p};
        OneMore(w, old(clock), done);
        done := done + 1;
        if w.fails(clock) { stuck := stuck + {p}; } else { root := root - {p}; }
        clock := clock + 1;
      }
      assert root == map p | p in start && p !in stale - stuck :: start[p];
    }

    /** Copy the managed files of `src` in listed order, up to the first copy that fails. */
    method CopySet(src: Tree) returns (ok: bool)
      requires Listed(w, src)
      modifies this`root, this`clock
      ensures ok <==> CopyWorks(w, src, old(clock))
      ensures clock == CopyEnd(w, src, old(clock))
      ensures root.Keys == old(root).Keys + Arrived(w, src, old(clock))
      ensures ok ==> forall p :: p in src && w.managed(p) ==> p in root && root[p] == src[p]
      ensures forall p :: p in root && p !in Arrived(w, src, old(clock)) ==> root[p] == old(root)[p]
    {
      hide Listed, NoFailures, Arrived, CopyEnd, CopyWorks;
      ghost var start := root;
      var files := w.listing(src);
      NoneYet(w, clock);
      for i := 0 to |files|
        invariant clock == old(clock) + i && NoFailures(w, old(clock), i)
        invariant root.Keys == start.Keys + set p | p in files[..i]
        invariant forall p :: p in files[..i] ==> p in src && root[p] == src[p]
        invariant forall p :: p in root && p !in files[..i] ==> p in start && root[p] == start[p]
      {
        var p := files[i];
        IsListed(w, src, i);
        OneMore(w, old(clock), i);
        assert files[..i + 1] == files[..i] + [p];
        if w.fails(clock) {
          CopyStopped(w, src, old(clock), i);
          var left := w.leavings(clock);
          if left.Some? { root := root[p := left.value]; }
          clock := clock + 1;
          return false;
        }
        clock := clock + 1;
        root := root[p := src[p]];
      }
      CopyStopped(w, src, old(clock), |files|);
      assert files[..|files|] == files;
      AllListed(w, src);
      return true;
    }

    /** Make the managed code exactly match `src`: remove what it does not have, copy what it has. When
        no copy fails the result is the source's managed files and those that could not be removed; so the
        two match if and only if no removal failed. */
    method InstallTree(src: Tree) returns (ok: bool, ghost stuck: set<Path>)
      requires Listed(w, src)
      modifies this`root, this`clock
      ensures SameOutside(w, old(root), root)
      ensures
        var stale := Stale(w, old(root), src);
        var copying := old(clock) + |stale|;
        && stuck <= stale && (stuck == {} <==> NoFailures(w, old(clock), |stale|))
        && (ok <==> CopyWorks(w, src, copying)) && clock == CopyEnd(w, src, copying)
        && ManagedFiles(w, root).Keys ==
             ManagedFiles(w, old(root)).Keys - (stale - stuck) + Arrived(w, src, copying)
        && (ok ==> (ManagedFiles(w, root) == ManagedFiles(w, src) <==> NoFailures(w, old(clock), |stale|)))
      ensures ok ==> Matches(w, root, src, stuck)
      ensures forall p :: p in stuck ==> p in root && root[p] == old(root)[p]
    {
      hide NoFailures, Listed, Arrived, CopyEnd, CopyWorks;
      ghost var start := root;
      stuck := RemoveStale(src);
      ghost var cleared, copying := root, clock;
      ok := CopySet(src);
      ArrivedListed(w, src, copying);
      InstalledOutside(w, start, src, stuck, cleared, root, Arrived(w, src, copying));
      if ok {
        ArrivedAll(w, src, copying);
        MatchesUnlessStuck(w, root, src, stuck);
      }
    }

    /** Install the release's files. */
    method SwapIn(release: Tree) returns (ok: bool)
      requires Listed(w, release)
      modifies this`root, this`clock
      ensures SameOutside(w, old(root), root)
      ensures ok <==> InstallWorks(w, old(clock), old(root), release)
      ensures ok ==> Installed(w, old(clock), old(root), release, root)
      ensures clock == RestoreAt(w, old(clock), old(root), release)
      ensures Stale(w, root, ManagedFiles(w, old(root))) == Intruders(w, old(clock), old(root), release)
    {
      hide NoFailures, Listed, Arrived, CopyEnd, CopyWorks, Stale, SameOutside, ManagedFiles, Matches;
      ghost var stuck: set<Path>;
      StaleIn(w, root, release);
      ok, stuck := InstallTree(release);
      if ok { LeftAsTheyWere(w, old(root), root, release, stuck, Stale(w, old(root), release)); }
      IntrudersAre(w, old(clock), old(root), release, root, stuck);
    }

    /** Put the backed-up files back, after an install that began at operation `from` on the tree `was`. */
    method PutBack(backup: Tree, ghost from: nat, ghost was: Tree, ghost release: Tree) returns (ok: bool)
      requires backup == ManagedFiles(w, was) && Listed(w, backup) && SameOutside(w, was, root)
      requires clock == RestoreAt(w, from, was, release) && Stale(w, root, backup) == Intruders(w, from, was, release)
      modifies this`root, this`clock
      ensures SameOutside(w, was, root)
      ensures ok <==> RestoreWorks(w, from, was, release)
      ensures ok ==> Restored(w, from, was, release, root)
    {
      hide NoFailures, Listed, Arrived, CopyEnd, CopyWorks, Stale, SameOutside, ManagedFiles, Matches, Intruders;
      ghost var mid, stuck := root, {};
      StaleIn(w, root, backup);
      ok, stuck := InstallTree(backup);
      OutsideTwice(w, was, mid, root);
      if ok { LeftAsTheyWere(w, mid, root, backup, stuck, Stale(w, mid, backup)); }
      BackupIsWhole(w, was, root);
    }

    /** Install a release. `swapped`: the install had begun; `restored`: the backup's files were all put
        back. Which of the outcomes it is, and whether the tree is then exactly the release or exactly the
        tree before, is told by the file operations that fail and the health checks alone. */
    method Apply(plan: Plan) returns (outcome: Outcome, ghost swapped: bool, ghost restored: bool)
      requires Listed(w, plan.release) && Listed(w, ManagedFiles(w, root))
      modifies this
      ensures SameOutside(w, old(root), root)
      ensures !swapped ==> root == old(root) && db == old(db) && outcome in {UpToDate, Refused, Failed}
      ensures outcome == Refused <==> !plan.sameMajor && !plan.major
      ensures outcome == UpToDate <==> (plan.sameMajor || plan.major) && !plan.force && !plan.newer
      ensures swapped <==> outcome !in {Refused, UpToDate} && plan.verified && plan.backedUp
      ensures outcome == Done <==>
                && swapped && InstallWorks(w, old(clock), old(root), plan.release)
                && (plan.restarts ==> plan.healthyAfterInstall)
      ensures outcome == Done ==>
                && db == (if plan.restarts then plan.migrated else old(db))
                && Installed(w, old(clock), old(root), plan.release, root)
      ensures restored <==> swapped && outcome != Done && RestoreWorks(w, old(clock), old(root), plan.release)
      ensures restored ==> Restored(w, old(clock), old(root), plan.release, root)
      ensures restored && plan.major ==> db == old(db)
      ensures outcome == RolledBack <==>
                restored && (ReachedRestart(w, old(clock), old(root), plan) ==> plan.healthyAfterRollback)
    {
      hide Listed, SameOutside, ManagedFiles, Installed, Restored, InstallWorks, RestoreWorks, RestoreAt, Intruders;
      swapped, restored := false, false;
      OutsideSelf(w, root);
      if !plan.sameMajor && !plan.major { return Refused, swapped, restored; }
      if !plan.force && !plan.newer { return UpToDate, swapped, restored; }
      if !plan.verified || !plan.backedUp { return Failed, swapped, restored; }
      var backup, backupDb := ManagedFiles(w, root), db;
      swapped := true;
      var ok := SwapIn(plan.release);
      var restarted := false;
      if ok && plan.restarts {
        restarted := true;
        db := plan.migrated;
        ok := plan.healthyAfterInstall;
      }
      if ok { return Done, swapped, restored; }
      ok := PutBack(backup, old(clock), old(root), plan.release);
      if !ok { return Failed, swapped, restored; }
      restored := true;
      if plan.major { db := backupDb; }
      if restarted && !plan.healthyAfterRollback { return Failed, swapped, restored; }
      return RolledBack, swapped, restored;
    }
  }

  // ---------------------------------------------------------------- how an update fares

  predicate InstallWorks(w: World, from: nat, root: Tree, release: Tree) {
    CopyWorks(w, release, from + |Stale(w, root, release)|)
  }

  /** The file operation the rollback starts with. */
  function RestoreAt(w: World, from: nat, root: Tree, release: Tree): nat {
    CopyEnd(w, release, from + |Stale(w, root, release)|)
  }

  /** What the install brought that the tree before did not have, which the rollback must remove. */
  function Intruders(w: World, from: nat, root: Tree, release: Tree): set<Path> {
    Arrived(w, release, from + |Stale(w, root, release)|) - ManagedFiles(w, root).Keys
  }

  predicate RestoreWorks(w: World, from: nat, root: Tree, release: Tree) {
    CopyWorks(w, ManagedFiles(w, root), RestoreAt(w, from, root, release) + |Intruders(w, from, root, release)|)
  }

  /** The tree `root` an install of `release` over `was` leaves when it goes through: every release file,
      and stale files as they were. It is the release if and only if every removal succeeded. */
  predicate Installed(w: World, from: nat, was: Tree, release: Tree, root: Tree) {
    && Matches(w, root, release, Stale(w, was, release))
    && (forall p :: p in root && w.managed(p) && p !in release ==> p in was && root[p] == was[p])
    && (ManagedFiles(w, root) == ManagedFiles(w, release) <==> NoFailures(w, from, |Stale(w, was, release)|))
  }

  /** The tree `root` a rollback leaves when it goes through: every file of the tree before, and intruders.
      It is the tree before, byte for byte, if and only if every removal succeeded. */
  predicate Restored(w: World, from: nat, was: Tree, release: Tree, root: Tree) {
    var intruders := Intruders(w, from, was, release);
    && Matches(w, root, ManagedFiles(w, was), intruders)
    && (root == was <==> NoFailures(w, RestoreAt(w, from, was, release), |intruders|))
  }

  predicate ReachedRestart(w: World, from: nat, root: Tree, plan: Plan) {
    plan.restarts && InstallWorks(w, from, root, plan.release)
  }

  lemma ArrivedListed(w: World, src: Tree, from: nat)
    requires Listed(w, src)
    ensures Arrived(w, src, from) <= ManagedFiles(w, src).Keys
  {
    var files := w.listing(src);
    var m := Succeeded(w, from, |files|);
    assert forall p :: p in files[..m] ==> p in files;
    assert m < |files| ==> files[m] in files;
  }

  lemma ArrivedAll(w: World, src: Tree, from: nat)
    requires Listed(w, src) && CopyWorks(w, src, from)
    ensures Arrived(w, src, from) == ManagedFiles(w, src).Keys
  {
    var files := w.listing(src);
    SucceededAll(w, from, |files|);
    assert files[..|files|] == files;
  }

  /** Removing stale files and copying managed ones, key by key. */
  lemma InstalledOutside(w: World, start: Tree, src: Tree, stuck: set<Path>, cleared: Tree, root: Tree, arrived: set<Path>)
    requires stuck <= Stale(w, start, src)
    requires cleared == map p | p in start && p !in Stale(w, start, src) - stuck :: start[p]
    requires root.Keys == cleared.Keys + arrived && arrived <= ManagedFiles(w, src).Keys
    requires forall p :: p in root && p !in arrived ==> root[p] == cleared[p]
    ensures SameOutside(w, start, root)
    ensures ManagedFiles(w, root).Keys ==
              ManagedFiles(w, start).Keys - (Stale(w, start, src) - stuck) + arrived
    ensures forall p :: p in stuck ==> p in root && root[p] == start[p] && w.managed(p) && p !in src
    ensures forall p :: p in root && w.managed(p) ==> p in src || p in stuck || p in arrived
  {
  }

  lemma LeftAsTheyWere(w: World, was: Tree, root: Tree, src: Tree, stuck: set<Path>, stale: set<Path>)
    requires Matches(w, root, src, stuck) && stuck <= stale <= was.Keys
    requires forall p :: p in stuck ==> p in root && p in was && root[p] == was[p]
    ensures Matches(w, root, src, stale)
    ensures forall p :: p in root && w.managed(p) && p !in src ==> p in was && root[p] == was[p]
  {
  }

  lemma IntrudersAre(w: World, from: nat, start: Tree, release: Tree, mid: Tree, stuck: set<Path>)
    requires
      var stale := Stale(w, start, release);
      ManagedFiles(w, mid).Keys ==
        ManagedFiles(w, start).Keys - (stale - stuck) + Arrived(w, release, from + |stale|)
    ensures Stale(w, mid, ManagedFiles(w, start)) == Intruders(w, from, start, release)
  {
    hide Arrived;
    var backup := ManagedFiles(w, start);
    assert forall p :: p in Stale(w, mid, backup) <==> p in ManagedFiles(w, mid) && p !in backup;
  }

  /** The shortest way to an update that is done and unlike its release: one stale file, which the release
      no longer has, and one removal that fails. */
  method StaleFileStays(stale: Path, content: Content, db: Database) returns (outcome: Outcome, after: Tree)
    ensures outcome == Done && after == map[stale := content]
  {
    var w := World(p => true, t => if stale in t then [stale] else [], n => n == 0, n => None);
    var plan := Plan(map[], true, true, false, false, true, true, false, true, true, db);
    var root := map[stale := content];
    assert ManagedFiles(w, root) == root && Stale(w, root, plan.release) == {stale};
    var install := new Install(w, root, db);
    assert w.fails(0);
    var result, _, _ := install.Apply(plan);
    outcome := result;
    after := install.root;
    assert ManagedFiles(w, after) != ManagedFiles(w, plan.release);
  }

  lemma OutsideSelf(w: World, t: Tree)
    ensures SameOutside(w, t, t)
  {
  }

  lemma OutsideTwice(w: World, a: Tree, b: Tree, c: Tree)
    requires SameOutside(w, a, b) && SameOutside(w, b, c)
    ensures SameOutside(w, a, c)
  {
  }

  lemma BackupIsWhole(w: World, start: Tree, root: Tree)
    requires SameOutside(w, start, root)
    ensures ManagedFiles(w, ManagedFiles(w, start)) == ManagedFiles(w, start)
    ensures root == start <==> ManagedFiles(w, root) == ManagedFiles(w, start)
  {
    WholeTree(w, start, root);
  }

  lemma MatchesUnlessStuck(w: World, root: Tree, src: Tree, stuck: set<Path>)
    requires forall p :: p in stuck ==> p in root && w.managed(p) && p !in src
    requires forall p :: p in root && w.managed(p) ==> p in src || p in stuck
    requires forall p :: p in src && w.managed(p) ==> p in root && root[p] == src[p]
    ensures ManagedFiles(w, root).Keys == ManagedFiles(w, src).Keys + stuck
    ensures ManagedFiles(w, root) == ManagedFiles(w, src) <==> stuck == {}
  {
    var a, b := ManagedFiles(w, root), ManagedFiles(w, src);
    assert a.Keys == b.Keys + stuck;
    if stuck == {} {
      assert a.Keys == b.Keys;
      assert forall p :: p in a ==> a[p] == b[p];
    } else {
      var p :| p in stuck;
      assert p in a.Keys && p !in b.Keys;
    }
  }
}
