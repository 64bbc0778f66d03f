/** The library indexer's path walk: a depth-first pass over a folder tree, some of whose folders
  cannot be read, that records every audio file it finds and flags the rows it can prove gone. */
module Indexer {
  type Name(==, !new)
  type Stamp(==, !new)

  /** A path below the library root; [] is the root. */
  type Path = seq<Name>

  datatype Item = Folder(name: Name) | File(name: Name, stamp: Stamp)

  /** What is on disk during the pass: every folder's listing, which folders fail to list, and which
      names have an audio extension. */
  datatype Tree = Tree(items: map<Path, seq<Item>>, unreadable: set<Path>, audio: Name -> bool)

  function Parent(p: Path): Path
    requires p != []
  {
    p[..|p| - 1]
  }

  function Last(p: Path): Name
    requires p != []
  {
    p[|p| - 1]
  }

  ghost predicate WellFormed(t: Tree) {
    && [] in t.items
    && (forall d, i :: d in t.items && 0 <= i < |t.items[d]| && t.items[d][i].Folder? ==>
          d + [t.items[d][i].name] in t.items)
    && (forall d :: d in t.items && d != [] ==>
          Parent(d) in t.items && Folder(Last(d)) in t.items[Parent(d)])
    && (forall d, i, j :: d in t.items && 0 <= i < j < |t.items[d]| ==>
          t.items[d][i].name != t.items[d][j].name)
  }

  predicate Readable(t: Tree, d: Path) { d in t.items && d !in t.unreadable }

  /** Every folder from the root down to `d` exists and can be read. */
  predicate Reached(t: Tree, d: Path) { forall k :: 0 <= k <= |d| ==> Readable(t, d[..k]) }

  /** There is an audio file at `p`. */
  predicate AudioFile(t: Tree, p: Path) {
    && p != [] && Parent(p) in t.items && t.audio(Last(p))
    && exists i :: 0 <= i < |t.items[Parent(p)]| && t.items[Parent(p)][i].File? &&
                   t.items[Parent(p)][i].name == Last(p)
  }

  function StampAt(t: Tree, p: Path): (s: Stamp)
    requires AudioFile(t, p)
    requires WellFormed(t)
    ensures File(Last(p), s) in t.items[Parent(p)]
  {
    var items := t.items[Parent(p)];
    var i :| 0 <= i < |items| && items[i].File? && items[i].name == Last(p);
    items[i].stamp
  }

  /** No folder that exists on the way to `p` is unreadable. */
  predicate NothingHidden(t: Tree, p: Path) {
    p != [] && forall k :: 0 <= k < |p| && p[..k] in t.items ==> p[..k] !in t.unreadable
  }

  // ---------------------------------------------------------------- the index

  /** A row's key: a path under this root, or a row of some other root. */
  datatype Key = Under(path: Path) | Elsewhere(other: int)

  datatype Row = Row(stamp: Stamp, missing: bool, tagsRead: bool)

  type Rows = map<Key, Row>

  /** The row of a file that is there: an unchanged one keeps its tags, a new or changed one starts over. */
  function Recorded(known: Rows, k: Key, stamp: Stamp): Row {
    if k in known && known[k].stamp == stamp then known[k].(missing := false) else Row(stamp, false, false)
  }

  predicate Present(t: Tree, k: Key) {
    k.Under? && AudioFile(t, k.path) && NothingHidden(t, k.path)
  }

  predicate Vanished(t: Tree, k: Key) {
    k.Under? && !AudioFile(t, k.path) && NothingHidden(t, k.path)
  }

  /** What one pass makes of a row. */
  ghost predicate IndexedRow(t: Tree, known: Rows, k: Key, r: Row)
    requires WellFormed(t)
  {
    if Present(t, k) then r == Recorded(known, k, StampAt(t, k.path))
    else k in known && r == if Vanished(t, k) then known[k].(missing := true) else known[k]
  }

  /** `rows` is what one whole pass over `t` makes of `known`. */
  ghost predicate Indexed(t: Tree, known: Rows, rows: Rows)
    requires WellFormed(t)
  {
    && (forall k :: k in rows <==> k in known || Present(t, k))
    && forall k :: k in rows ==> IndexedRow(t, known, k, rows[k])
  }

  // ---------------------------------------------------------------- the tree

  lemma ParentPrefix(p: Path, k: nat)
    requires p != [] && k <= |p| - 1
    ensures Parent(p)[..k] == p[..k]
  {
  }

  lemma {:induction false} AncestorsExist(t: Tree, d: Path, k: nat)
    requires WellFormed(t) && d in t.items && k <= |d|
    ensures d[..k] in t.items
    decreases |d| - k
  {
    if k == |d| {
      assert d[..k] == d;
    } else {
      AncestorsExist(t, d, k + 1);
      assert Parent(d[..k + 1]) == d[..k];
    }
  }

  lemma ReachedStep(t: Tree, d: Path)
    requires d != []
    ensures Reached(t, d) <==> Reached(t, Parent(d)) && Readable(t, d)
  {
    assert d[..|d|] == d;
    forall k | 0 <= k <= |d| - 1 ensures Parent(d)[..k] == d[..k] { }
    if Reached(t, d) {
      forall k | 0 <= k <= |Parent(d)| ensures Readable(t, Parent(d)[..k]) { assert Readable(t, d[..k]); }
    }
    if Reached(t, Parent(d)) && Readable(t, d) {
      forall k | 0 <= k <= |d| ensures Readable(t, d[..k]) {
        if k < |d| { assert Readable(t, Parent(d)[..k]); }
      }
    }
  }

  /** For a file that exists, nothing hidden on the way is the same as every folder reached. */
  lemma PresentIsReached(t: Tree, p: Path)
    requires WellFormed(t) && p != [] && Parent(p) in t.items
    ensures NothingHidden(t, p) <==> Reached(t, Parent(p))
  {
    forall k | 0 <= k < |p| ensures p[..k] in t.items && Parent(p)[..k] == p[..k] {
      AncestorsExist(t, Parent(p), k);
      ParentPrefix(p, k);
    }
    if Reached(t, Parent(p)) {
      forall k | 0 <= k < |p| ensures p[..k] !in t.unreadable { assert Readable(t, Parent(p)[..k]); }
    }
    if NothingHidden(t, p) {
      forall k | 0 <= k <= |Parent(p)| ensures Readable(t, Parent(p)[..k]) { assert p[..k] in t.items; }
    }
  }

  // ---------------------------------------------------------------- the walk

  /** The audio files directly in the folder `d`. */
  predicate FileIn(t: Tree, d: Path, p: Path) { p != [] && Parent(p) == d && AudioFile(t, p) }

  /** The folders directly in the folder `d`. */
  predicate FolderIn(t: Tree, d: Path, p: Path) { p != [] && Parent(p) == d && p in t.items }

  /** `walked` and `listed` are what a finished walk knows of the folders. */
  ghost predicate Walked(t: Tree, walked: set<Path>, listed: set<Path>) {
    && (forall d :: d in walked <==> Reached(t, d))
    && (forall d :: d in listed <==> d != [] && Parent(d) in walked && d in t.items)
  }

  lemma ChildPath(d: Path, n: Name)
    ensures Parent(d + [n]) == d && Last(d + [n]) == n && d + [n] != []
  {
  }

  /** The audio files, and the sub-folders, among the first `n` items of the folder `d`. */
  function FilesUpTo(t: Tree, d: Path, n: nat): set<Path>
    requires d in t.items && n <= |t.items[d]|
  {
    set i | 0 <= i < n && t.items[d][i].File? && t.audio(t.items[d][i].name) :: d + [t.items[d][i].name]
  }

  function FoldersUpTo(t: Tree, d: Path, n: nat): seq<Path>
    requires d in t.items && n <= |t.items[d]|
  {
    if n == 0 then []
    else
      FoldersUpTo(t, d, n - 1) +
      if t.items[d][n - 1].Folder? then [d + [t.items[d][n - 1].name]] else []
  }

  lemma FilesAll(t: Tree, d: Path)
    requires WellFormed(t) && d in t.items
    ensures forall p :: p in FilesUpTo(t, d, |t.items[d]|) <==> FileIn(t, d, p)
  {
    hide WellFormed, AudioFile;
    var items := t.items[d];
    forall p ensures p in FilesUpTo(t, d, |items|) <==> FileIn(t, d, p) {
      if p in FilesUpTo(t, d, |items|) {
        var i :| 0 <= i < |items| && items[i].File? && t.audio(items[i].name) && p == d + [items[i].name];
        ItemIsFile(t, d, i);
      }
      if FileIn(t, d, p) { var _ := FileAt(t, d, p); }
    }
  }

  lemma FileAt(t: Tree, d: Path, p: Path) returns (i: nat)
    requires d in t.items && FileIn(t, d, p)
    ensures i < |t.items[d]| && t.items[d][i].File? && t.audio(t.items[d][i].name) && p == d + [t.items[d][i].name]
  {
    i :| 0 <= i < |t.items[d]| && t.items[d][i].File? && t.items[d][i].name == Last(p);
  }

  lemma {:induction false} FoldersAre(t: Tree, d: Path, n: nat)
    requires d in t.items && n <= |t.items[d]|
    ensures forall p :: p in FoldersUpTo(t, d, n) <==>
              exists i :: 0 <= i < n && t.items[d][i].Folder? && p == d + [t.items[d][i].name]
  {
    if n > 0 { FoldersAre(t, d, n - 1); }
  }

  lemma {:induction false} FoldersDistinct(t: Tree, d: Path, n: nat)
    requires WellFormed(t) && d in t.items && n <= |t.items[d]|
    ensures NoRepeats(FoldersUpTo(t, d, n))
  {
    if n > 0 {
      FoldersDistinct(t, d, n - 1);
      FoldersAre(t, d, n - 1);
      var p := d + [t.items[d][n - 1].name];
      ChildPath(d, t.items[d][n - 1].name);
      forall i | 0 <= i < n - 1 ensures d + [t.items[d][i].name] != d + [t.items[d][n - 1].name] {
        ChildPath(d, t.items[d][i].name);
      }
      JoinNoRepeats(FoldersUpTo(t, d, n - 1), if t.items[d][n - 1].Folder? then [p] else []);
    }
  }

  lemma FoldersAll(t: Tree, d: Path)
    requires WellFormed(t) && d in t.items
    ensures forall p :: p in FoldersUpTo(t, d, |t.items[d]|) <==> FolderIn(t, d, p)
    ensures NoRepeats(FoldersUpTo(t, d, |t.items[d]|))
  {
    FoldersAre(t, d, |t.items[d]|);
    FoldersDistinct(t, d, |t.items[d]|);
    forall p ensures p in FoldersUpTo(t, d, |t.items[d]|) <==> FolderIn(t, d, p) {
      if p in FoldersUpTo(t, d, |t.items[d]|) {
        var i :| 0 <= i < |t.items[d]| && t.items[d][i].Folder? && p == d + [t.items[d][i].name];
        ChildPath(d, t.items[d][i].name);
      }
      if FolderIn(t, d, p) {
        assert Folder(Last(p)) in t.items[d];
        assert p == d + [Last(p)];
      }
    }
  }

  predicate NoRepeats(s: seq<Path>) { forall i, j :: 0 <= i < j < |s| ==> s[i] != s[j] }

  lemma ItemIsFile(t: Tree, d: Path, i: nat)
    requires WellFormed(t) && d in t.items && i < |t.items[d]| && t.items[d][i].File? && t.audio(t.items[d][i].name)
    ensures
      var p := d + [t.items[d][i].name];
      p != [] && Parent(p) == d && AudioFile(t, p) && StampAt(t, p) == t.items[d][i].stamp
  {
    ChildPath(d, t.items[d][i].name);
  }

  /** `after` is `before` with the files in `files` recorded. */
  ghost predicate Updated(t: Tree, known: Rows, before: Rows, files: set<Path>, after: Rows)
    requires WellFormed(t)
  {
    && (forall k :: k in after <==> k in before || (k.Under? && k.path in files))
    && forall k :: k in after ==>
         if k.Under? && k.path in files then AudioFile(t, k.path) && after[k] == Recorded(known, k, StampAt(t, k.path))
         else after[k] == before[k]
  }

  lemma UpdatedMore(t: Tree, known: Rows, before: Rows, files: set<Path>, mid: Rows, p: Path, after: Rows)
    requires WellFormed(t) && Updated(t, known, before, files, mid)
    requires AudioFile(t, p)
    requires after == mid[Under(p) := Recorded(known, Under(p), StampAt(t, p))]
    ensures Updated(t, known, before, files + {p}, after)
  {
  }

  /** Names in a folder are distinct, so the file at index `n` is not among the first `n`. */
  lemma NotYetSeen(t: Tree, d: Path, n: nat)
    requires WellFormed(t) && d in t.items && n < |t.items[d]|
    ensures d + [t.items[d][n].name] !in FilesUpTo(t, d, n)
    ensures t.items[d][n].File? && t.audio(t.items[d][n].name) ==>
              FilesUpTo(t, d, n + 1) == FilesUpTo(t, d, n) + {d + [t.items[d][n].name]}
    ensures !(t.items[d][n].File? && t.audio(t.items[d][n].name)) ==>
              FilesUpTo(t, d, n + 1) == FilesUpTo(t, d, n)
  {
    var items := t.items[d];
    forall i | 0 <= i < n ensures d + [items[i].name] != d + [items[n].name] {
      ChildPath(d, items[i].name);
      ChildPath(d, items[n].name);
    }
  }

  // ---------------------------------------------------------------- the worklist

  function Backwards(s: seq<Path>): (r: seq<Path>)
    ensures |r| == |s|
    ensures forall p :: p in r <==> p in s
    ensures NoRepeats(s) ==> NoRepeats(r)
  {
    var r := seq(|s|, i requires 0 <= i < |s| => s[|s| - 1 - i]);
    assert forall i :: 0 <= i < |s| ==> s[i] == r[|s| - 1 - i];
    r
  }

  predicate RootOrBelow(walked: set<Path>, s: Path) { s == [] || Parent(s) in walked }

  /** Half-way through the walk: `visited` are the folders already taken off the stack. */
  ghost predicate Stacked(t: Tree, stack: seq<Path>, visited: set<Path>, walked: set<Path>) {
    && (forall s :: s in stack ==> s in t.items && s !in visited)
    && NoRepeats(stack)
    && visited <= t.items.Keys
    && ([] in visited || [] in stack)
    && (forall s :: s in visited || s in stack ==> RootOrBelow(walked, s))
    && (forall d :: d in walked <==> d in visited && Readable(t, d))
  }

  /** No sub-folder of a walked folder is forgotten. */
  ghost predicate Covered(t: Tree, stack: seq<Path>, visited: set<Path>, walked: set<Path>) {
    forall c :: c != [] && Parent(c) in walked && c in t.items ==> c in visited || c in stack
  }

  /** What is known so far is what the folders walked so far hold. */
  ghost predicate Gathered(t: Tree, walked: set<Path>, listed: set<Path>, seen: set<Path>) {
    && (forall x :: x in listed <==> x != [] && Parent(x) in walked && x in t.items)
    && (forall p :: p in seen <==> p != [] && Parent(p) in walked && AudioFile(t, p))
  }

  ghost predicate Underway(t: Tree, stack: seq<Path>, visited: set<Path>, walked: set<Path>,
                           listed: set<Path>, seen: set<Path>)
  {
    Stacked(t, stack, visited, walked) && Covered(t, stack, visited, walked) && Gathered(t, walked, listed, seen)
  }

  lemma SkipUnreadable(t: Tree, stack: seq<Path>, visited: set<Path>, walked: set<Path>)
    requires Stacked(t, stack, visited, walked) && Covered(t, stack, visited, walked) && stack != []
    requires !Readable(t, stack[|stack| - 1])
    ensures Stacked(t, stack[..|stack| - 1], visited + {stack[|stack| - 1]}, walked)
    ensures Covered(t, stack[..|stack| - 1], visited + {stack[|stack| - 1]}, walked)
  {
    hide NoRepeats, Readable;
    PopDistinct(stack);
    SkipMembers(t, stack, visited, walked, stack[|stack| - 1], stack[..|stack| - 1]);
  }

  lemma SkipMembers(t: Tree, stack: seq<Path>, visited: set<Path>, walked: set<Path>, d: Path, rest: seq<Path>)
    requires Stacked(t, stack, visited, walked) && Covered(t, stack, visited, walked)
    requires d in stack && !Readable(t, d) && NoRepeats(rest)
    requires forall s :: s in stack <==> s in rest || s == d
    requires d !in rest
    ensures Stacked(t, rest, visited + {d}, walked) && Covered(t, rest, visited + {d}, walked)
  {
    hide NoRepeats, Readable, RootOrBelow;
  }

  lemma PopDistinct(stack: seq<Path>)
    requires stack != [] && NoRepeats(stack)
    ensures
      var rest, d := stack[..|stack| - 1], stack[|stack| - 1];
      NoRepeats(rest) && d !in rest && forall s :: s in stack <==> s in rest || s == d
  {
    assert stack == stack[..|stack| - 1] + [stack[|stack| - 1]];
  }

  /** The stack after visiting its top `d`, member by member. */
  lemma NextStack(t: Tree, stack: seq<Path>, visited: set<Path>, walked: set<Path>, subs: seq<Path>)
    requires Stacked(t, stack, visited, walked) && stack != []
    requires forall p :: p in subs <==> FolderIn(t, stack[|stack| - 1], p)
    requires NoRepeats(subs)
    ensures
      var d := stack[|stack| - 1];
      var next := stack[..|stack| - 1] + Backwards(subs);
      && NoRepeats(next)
      && d in stack && d !in walked && d !in next
      && forall p :: p in next <==> (p in stack && p != d) || FolderIn(t, d, p)
  {
    hide Readable;
    var rest, d := stack[..|stack| - 1], stack[|stack| - 1];
    PopDistinct(stack);
    forall p | FolderIn(t, d, p) ensures p !in stack && p != d { ParentDiffers(p); }
    JoinNoRepeats(rest, Backwards(subs));
  }

  lemma ParentDiffers(p: Path)
    requires p != []
    ensures Parent(p) != p
  {
  }

  lemma VisitStack(t: Tree, stack: seq<Path>, visited: set<Path>, walked: set<Path>, subs: seq<Path>)
    requires Stacked(t, stack, visited, walked) && Covered(t, stack, visited, walked) && stack != []
    requires Readable(t, stack[|stack| - 1])
    requires forall p :: p in subs <==> FolderIn(t, stack[|stack| - 1], p)
    requires NoRepeats(subs)
    ensures
      var d := stack[|stack| - 1];
      var next := stack[..|stack| - 1] + Backwards(subs);
      Stacked(t, next, visited + {d}, walked + {d}) && Covered(t, next, visited + {d}, walked + {d})
  {
    hide NoRepeats, Readable, Backwards;
    NextStack(t, stack, visited, walked, subs);
    VisitMembers(t, stack, visited, walked, stack[|stack| - 1], stack[..|stack| - 1] + Backwards(subs));
  }

  lemma VisitMembers(t: Tree, stack: seq<Path>, visited: set<Path>, walked: set<Path>, d: Path, next: seq<Path>)
    requires Stacked(t, stack, visited, walked) && Covered(t, stack, visited, walked)
    requires d in stack && d !in walked && Readable(t, d) && NoRepeats(next)
    requires forall p :: p in next <==> (p in stack && p != d) || FolderIn(t, d, p)
    ensures Stacked(t, next, visited + {d}, walked + {d}) && Covered(t, next, visited + {d}, walked + {d})
  {
    hide NoRepeats, Readable, RootOrBelow, Covered;
    VisitCovers(t, stack, visited, walked, d, next);
    VisitBelow(walked, d);
    forall s | FolderIn(t, d, s) ensures s !in visited + {d} {
      ParentDiffers(s);
      NotBelow(walked, d, s);
    }
    forall s | s in visited + {d} || s in next ensures RootOrBelow(walked + {d}, s) {
      if s in visited || s in stack { assert RootOrBelow(walked, s); }
    }
  }

  lemma VisitBelow(walked: set<Path>, d: Path)
    ensures forall s :: RootOrBelow(walked, s) || (s != [] && Parent(s) == d) ==> RootOrBelow(walked + {d}, s)
  {
  }

  lemma NotBelow(walked: set<Path>, d: Path, s: Path)
    requires d !in walked && s != [] && Parent(s) == d
    ensures !RootOrBelow(walked, s)
  {
  }

  lemma VisitCovers(t: Tree, stack: seq<Path>, visited: set<Path>, walked: set<Path>, d: Path, next: seq<Path>)
    requires Covered(t, stack, visited, walked)
    requires forall p :: p in next <==> (p in stack && p != d) || FolderIn(t, d, p)
    ensures Covered(t, next, visited + {d}, walked + {d})
  {
    forall c | c != [] && Parent(c) in walked + {d} && c in t.items
      ensures c in visited + {d} || c in next {
      if Parent(c) == d { assert FolderIn(t, d, c); }
    }
  }

  lemma JoinNoRepeats(a: seq<Path>, b: seq<Path>)
    requires NoRepeats(a) && NoRepeats(b) && forall p :: p in b ==> p !in a
    ensures NoRepeats(a + b)
  {
    forall i, j | 0 <= i < j < |a + b| ensures (a + b)[i] != (a + b)[j] {
      if i < |a| <= j { assert (a + b)[i] in a && (a + b)[j] in b; }
    }
  }

  lemma VisitGathers(t: Tree, d: Path, walked: set<Path>, listed: set<Path>, seen: set<Path>,
                     files: set<Path>, subs: seq<Path>)
    requires Gathered(t, walked, listed, seen)
    requires forall p :: p in files <==> FileIn(t, d, p)
    requires forall p :: p in subs <==> FolderIn(t, d, p)
    ensures Gathered(t, walked + {d}, listed + (set x | x in subs), seen + files)
  {
    hide AudioFile;
  }

  /** When the stack is empty the folders walked are exactly those reached. */
  lemma {:induction false} WalkDone(t: Tree, visited: set<Path>, walked: set<Path>, listed: set<Path>,
                                    seen: set<Path>, d: Path)
    requires Underway(t, [], visited, walked, listed, seen)
    ensures d in walked <==> Reached(t, d)
    decreases |d|
  {
    if d == [] {
      assert d[..0] == d;
      if Reached(t, d) { assert Readable(t, d[..0]); }
    } else {
      WalkDone(t, visited, walked, listed, seen, Parent(d));
      ReachedStep(t, d);
    }
  }

  // ---------------------------------------------------------------- proving absence

  lemma HiddenAt(t: Tree, p: Path, k: nat)
    requires k < |p| && p[..k] in t.items && p[..k] in t.unreadable
    ensures !NothingHidden(t, p)
  {
  }

  /** Everything above `p[..k]` is readable and `p[..k]` itself does not exist. */
  lemma GoneBelow(t: Tree, p: Path, k: nat)
    requires WellFormed(t) && 0 < k < |p| && Reached(t, p[..k - 1]) && p[..k] !in t.items
    ensures NothingHidden(t, p)
  {
    forall j | k <= j < |p| ensures p[..j] !in t.items {
      assert p[..j][..k] == p[..k];
      if p[..j] in t.items { AncestorsExist(t, p[..j], k); }
    }
    forall j | 0 <= j < |p| && p[..j] in t.items ensures p[..j] !in t.unreadable {
      if j < k {
        assert p[..k - 1][..j] == p[..j];
        assert Readable(t, p[..k - 1][..j]);
      }
    }
  }

  /** The climb from a missing file towards the root: is its absence proven? */
  method ProvenGone(t: Tree, walked: set<Path>, listed: set<Path>, p: Path) returns (gone: bool)
    requires WellFormed(t) && Walked(t, walked, listed) && p != []
    ensures gone <==> NothingHidden(t, p)
  {
    hide WellFormed;
    var d := Parent(p);
    assert forall k :: 0 <= k < |p| ==> d[..k] == p[..k];
    if d in walked {
      assert forall k :: 0 <= k < |p| ==> Readable(t, d[..k]);
      return true;
    }
    var child := d;
    while child != []
      invariant |child| <= |d| && child == p[..|child|] && child !in walked
      decreases |child|
    {
      var parent := Parent(child);
      var k := |child|;
      assert parent == p[..k - 1];
      ReachedStep(t, child);
      if parent in walked {
        if child in listed { HiddenAt(t, p, k); } else { GoneBelow(t, p, k); }
        return child !in listed;
      }
      if parent in listed {
        ReachedStep(t, parent);
        HiddenAt(t, p, k - 1);
        return false;
      }
      child := parent;
    }
    RootHidden(t, p);
    return false;
  }

  lemma RootHidden(t: Tree, p: Path)
    requires WellFormed(t) && p != [] && !Reached(t, [])
    ensures !NothingHidden(t, p)
  {
    var root: Path := [];
    assert forall k :: 0 <= k <= |root| ==> root[..k] == root;
    assert p[..0] == root;
  }

  lemma SeenIsPresent(t: Tree, walked: set<Path>, listed: set<Path>, p: Path)
    requires WellFormed(t) && Walked(t, walked, listed)
    ensures p != [] && AudioFile(t, p) ==> (Parent(p) in walked <==> NothingHidden(t, p))
  {
    if p != [] && AudioFile(t, p) { PresentIsReached(t, p); }
  }

  class Library {
    var rows: Rows

    /** The file at `p` is there: unflag its row, or start it over if it is new or changed. */
    method Record(known: Rows, p: Path, stamp: Stamp)
      requires Under(p) in known ==> Under(p) in rows && rows[Under(p)] == known[Under(p)]
      modifies this
      ensures rows == old(rows)[Under(p) := Recorded(known, Under(p), stamp)]
    {
      var k := Under(p);
      if k in known && known[k].stamp == stamp {
        if known[k].missing { rows := rows[k := rows[k].(missing := false)]; }
      } else {
        rows := rows[k := Row(stamp, false, false)];
      }
    }

    /** List one readable folder: record its audio files, return its sub-folders. */
    method ScanFolder(t: Tree, d: Path, known: Rows) returns (files: set<Path>, subs: seq<Path>)
      requires WellFormed(t) && d in t.items
      requires forall p :: FileIn(t, d, p) && Under(p) in known ==>
                 Under(p) in rows && rows[Under(p)] == known[Under(p)]
      modifies this
      ensures files == FilesUpTo(t, d, |t.items[d]|) && subs == FoldersUpTo(t, d, |t.items[d]|)
      ensures Updated(t, known, old(rows), files, rows)
    {
      hide WellFormed, AudioFile;
      var items := t.items[d];
      files, subs := {}, [];
      for n := 0 to |items|
        invariant files == FilesUpTo(t, d, n) && subs == FoldersUpTo(t, d, n)
        invariant Updated(t, known, old(rows), files, rows)
      {
        var item := items[n];
        var p := d + [item.name];
        NotYetSeen(t, d, n);
        match item {
          case Folder(_) =>
            subs := subs + [p];
          case File(_, stamp) =>
            if t.audio(item.name) {
              ItemIsFile(t, d, n);
              assert FileIn(t, d, p);
              ghost var before := rows;
              Record(known, p, stamp);
              UpdatedMore(t, known, old(rows), files, before, p, rows);
              files := files + {p};
            }
        }
      }
    }

    /** The walk: every reachable folder is listed once, deepest first in listing order. */
    method Walk(t: Tree) returns (seen: set<Path>, walked: set<Path>, listed: set<Path>)
      requires WellFormed(t)
      modifies this
      ensures Walked(t, walked, listed)
      ensures forall p :: p in seen <==> Present(t, Under(p))
      ensures Updated(t, old(rows), old(rows), seen, rows)
    {
      hide WellFormed, AudioFile, Readable;
      var known := rows;
      var stack: seq<Path> := [[]];
      seen, walked, listed := {}, {}, {};
      ghost var visited: set<Path> := {};
      RootListed(t);
      while stack != []
        invariant Underway(t, stack, visited, walked, listed, seen)
        invariant Updated(t, known, known, seen, rows)
        decreases t.items.Keys - visited
      {
        var d := stack[|stack| - 1];
        assert d in stack;
        if Readable(t, d) {
          ReadableExists(t, d);
          FilesAll(t, d);
          FoldersAll(t, d);
          UnseenRows(t, known, seen, rows, d, walked);
          ghost var before := rows;
          var files, subs := ScanFolder(t, d, known);
          UpdatedBoth(t, known, seen, before, files, rows);
          VisitStack(t, stack, visited, walked, subs);
          VisitGathers(t, d, walked, listed, seen, files, subs);
          walked, seen, listed := walked + {d}, seen + files, listed + (set x | x in subs);
          stack := stack[..|stack| - 1] + Backwards(subs);
        } else {
          SkipUnreadable(t, stack, visited, walked);
          stack := stack[..|stack| - 1];
        }
        visited := visited + {d};
      }
      forall d ensures d in walked <==> Reached(t, d) { WalkDone(t, visited, walked, listed, seen, d); }
      forall p ensures p in seen <==> Present(t, Under(p)) {
        SeenIsPresent(t, walked, listed, p);
        PresentNonEmpty(t, p);
      }
    }

    /** One whole pass. */
    method WalkPaths(t: Tree)
      requires WellFormed(t)
      modifies this
      ensures Indexed(t, old(rows), rows)
    {
      var known := rows;
      var seen, walked, listed := Walk(t);
      FlagGone(t, known, seen, walked, listed);
    }

    /** Flag the known rows under the root whose absence this pass proved. */
    method FlagGone(t: Tree, known: Rows, seen: set<Path>, walked: set<Path>, listed: set<Path>)
      requires WellFormed(t) && Walked(t, walked, listed)
      requires forall p :: p in seen <==> Present(t, Under(p))
      requires Updated(t, known, known, seen, rows)
      modifies this
      ensures Indexed(t, known, rows)
    {
      hide WellFormed, AudioFile, Readable, NothingHidden, Walked;
      var todo := known.Keys;
      ghost var walkedRows := rows;
      while todo != {}
        invariant todo <= known.Keys && rows.Keys == walkedRows.Keys
        invariant forall k :: k in rows ==>
                    rows[k] == if k in known && k !in todo && Gone(known, k, t) then known[k].(missing := true)
                               else walkedRows[k]
        decreases todo
      {
        var k :| k in todo;
        todo := todo - {k};
        var gone := false;
        if k.Under? && k.path != [] && k.path !in seen && !known[k].missing {
          gone := ProvenGone(t, walked, listed, k.path);
        }
        HiddenRoot(t);
        assert gone <==> Gone(known, k, t);
        if gone { rows := rows[k := rows[k].(missing := true)]; }
      }
    }
  }

  /** A known, unflagged row under the root whose file this pass shows to be gone. */
  predicate Gone(known: Rows, k: Key, t: Tree)
    requires k in known
  {
    Vanished(t, k) && !known[k].missing
  }

  lemma HiddenRoot(t: Tree)
    ensures !NothingHidden(t, [])
  {
  }

  lemma RootListed(t: Tree)
    requires WellFormed(t)
    ensures Underway(t, [[]], {}, {}, {}, {})
  {
  }

  lemma ReadableExists(t: Tree, d: Path)
    requires Readable(t, d)
    ensures d in t.items
  {
  }

  lemma PresentNonEmpty(t: Tree, p: Path)
    ensures AudioFile(t, p) ==> p != []
    ensures Present(t, Under(p)) <==> AudioFile(t, p) && NothingHidden(t, p)
  {
  }

  lemma UnseenRows(t: Tree, known: Rows, seen: set<Path>, rows: Rows, d: Path, walked: set<Path>)
    requires WellFormed(t) && Updated(t, known, known, seen, rows) && d !in walked
    requires forall p :: p in seen ==> p != [] && Parent(p) in walked
    ensures forall p :: FileIn(t, d, p) && Under(p) in known ==>
              Under(p) in rows && rows[Under(p)] == known[Under(p)]
  {
  }

  lemma UpdatedBoth(t: Tree, known: Rows, seen: set<Path>, mid: Rows, files: set<Path>, rows: Rows)
    requires WellFormed(t) && Updated(t, known, known, seen, mid) && Updated(t, known, mid, files, rows)
    ensures Updated(t, known, known, seen + files, rows)
  {
  }

  // ---------------------------------------------------------------- what a pass achieves

  /** A known, unflagged row under the root is flagged missing exactly when its file is absent and no
      folder that exists on its path is unreadable; a row hidden by an unreadable folder is left alone. */
  lemma FlaggedExactly(t: Tree, known: Rows, rows: Rows, p: Path)
    requires WellFormed(t) && Indexed(t, known, rows) && Under(p) in known && !known[Under(p)].missing
    ensures rows[Under(p)].missing <==> !AudioFile(t, p) && NothingHidden(t, p)
    ensures !NothingHidden(t, p) ==> rows[Under(p)] == known[Under(p)]
  {
  }

  /** With every folder readable, the rows present under the root are the audio files on disk. */
  lemma PresentRowsAreFiles(t: Tree, known: Rows, rows: Rows, p: Path)
    requires WellFormed(t) && Indexed(t, known, rows) && t.unreadable == {} && p != []
    ensures Under(p) in rows && !rows[Under(p)].missing <==> AudioFile(t, p)
    ensures AudioFile(t, p) ==> rows[Under(p)].stamp == StampAt(t, p)
  {
  }

  /** Tags stay with the file they were read from: a row keeps its mark of being read exactly when the file
      is unchanged, so that new and changed files are read again. */
  lemma TagsStayWithTheFile(t: Tree, known: Rows, rows: Rows, p: Path)
    requires WellFormed(t) && Indexed(t, known, rows) && p != [] && AudioFile(t, p) && NothingHidden(t, p)
    ensures Under(p) in rows
    ensures rows[Under(p)].tagsRead <==>
              Under(p) in known && known[Under(p)].stamp == StampAt(t, p) && known[Under(p)].tagsRead
  {
    assert Present(t, Under(p));
  }

  /** A second pass over the same tree changes nothing, whatever is unreadable. */
  lemma SecondPassChangesNothing(t: Tree, known: Rows, once: Rows, twice: Rows)
    requires WellFormed(t) && Indexed(t, known, once) && Indexed(t, once, twice)
    ensures twice == once
  {
    assert forall k :: k in twice <==> k in once;
    forall k | k in once ensures twice[k] == once[k] {
      assert IndexedRow(t, known, k, once[k]);
      assert IndexedRow(t, once, k, twice[k]);
    }
  }

  /** Rows of other roots, and rows of files an earlier pass could read, survive an unreadable root. */
  lemma UnreadableRootProvesNothing(t: Tree, known: Rows, rows: Rows)
    requires WellFormed(t) && Indexed(t, known, rows) && [] in t.unreadable
    ensures rows == known
  {
    forall p: Path ensures !NothingHidden(t, p) {
      if p != [] { assert p[..0] == []; }
    }
  }
}
