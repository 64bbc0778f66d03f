/** What the feeder feeds next: the show to its end, then the rotation for ever; and the lookahead that
  copies upcoming files to disk without moving any cursor. */
module Feeding {
  import opened Basics

  datatype Kind = FileItem | FolderItem

  datatype Item = Item(kind: Kind, path: Path)

  /** A show over the rotation: plays once through, its item list fixed when it starts. */
  datatype Show = Show(items: seq<Item>, cursor: nat, doneFeeding: bool)

  /** The n-th answers of the disk and of the copy to the cache; any answers at all. */
  datatype World = World(resolve: (nat, Item) -> Option<Path>, cache: (nat, Path) -> bool)

  const MAX_FEED_BATCH := 50

  // ---------------------------------------------------------------- the programme

  /** What is left of the show, and where the rotation stands (counting on past its end). */
  datatype Programme = Programme(left: seq<Item>, base: seq<Item>, pos: nat)

  function ProgrammeOf(show: Option<Show>, base: seq<Item>, cursor: nat): (p: Programme)
    ensures p.base == base
  {
    var left :=
      if show.None? || show.value.doneFeeding || show.value.cursor >= |show.value.items| then []
      else show.value.items[show.value.cursor..];
    Programme(left, base, cursor)
  }

  function At(p: Programme, k: nat): Item
    requires k < |p.left| || p.base != []
  {
    if k < |p.left| then p.left[k] else p.base[Wrap(p.pos + (k - |p.left|), |p.base|)]
  }

  /** The next `n` items in the order they are due. */
  function Upcoming(p: Programme, n: nat): seq<Item> {
    if p.base == [] then p.left[..if n < |p.left| then n else |p.left|]
    else seq(n, k requires 0 <= k < n => At(p, k))
  }

  function Advance(p: Programme, n: nat): Programme {
    if n < |p.left| then p.(left := p.left[n..]) else p.(left := [], pos := p.pos + (n - |p.left|))
  }

  /** The same programme: the rotation stands at the same item. */
  predicate Same(p: Programme, q: Programme) {
    p.left == q.left && p.base == q.base && (p.base != [] ==> Wrap(p.pos, |p.base|) == Wrap(q.pos, |p.base|))
  }

  /** Where the cursor `c` points in a list of `n` that repeats. */
  function Wrap(c: nat, n: nat): (r: nat)
    requires n > 0
    ensures r < n
    decreases c
  {
    if c < n then c else Wrap(c - n, n)
  }

  lemma {:induction false} WrapShift(a: nat, b: nat, k: nat, n: nat)
    requires n > 0 && Wrap(a, n) == Wrap(b, n)
    ensures Wrap(a + k, n) == Wrap(b + k, n)
    decreases a + b
  {
    if a >= n {
      WrapShift(a - n, b, k, n);
    } else if b >= n {
      WrapShift(a, b - n, k, n);
    }
  }

  /** It is the remainder. */
  lemma {:induction false} WrapIsRemainder(c: nat, n: nat)
    requires n > 0
    ensures Wrap(c, n) == c % n
    decreases c
  {
    if c >= n {
      WrapIsRemainder(c - n, n);
      RemainderStep(c, n);
    }
  }

  lemma RemainderStep(c: nat, n: nat)
    requires n > 0 && c >= n
    ensures c % n == (c - n) % n
  {
    var q, r := (c - n) / n, (c - n) % n;
    assert c - n == q * n + r;
    assert (q + 1) * n == q * n + n;
    QuotientUnique(c, n, q + 1, r);
  }

  lemma QuotientUnique(x: nat, n: nat, q: nat, r: nat)
    requires n > 0 && x == q * n + r && r < n
    ensures x % n == r
  {
    var q', r' := x / n, x % n;
    assert x == q' * n + r';
    assert (q - q') * n == q * n - q' * n && (q' - q) * n == q' * n - q * n;
    if q > q' { AtLeastOnce(q - q', n); }
    if q' > q { AtLeastOnce(q' - q, n); }
  }

  lemma AtLeastOnce(k: nat, n: nat)
    requires k >= 1
    ensures k * n >= n
  {
  }

  lemma SameUpcoming(p: Programme, q: Programme, n: nat)
    requires Same(p, q)
    ensures Upcoming(p, n) == Upcoming(q, n) && Same(Advance(p, n), Advance(q, n))
  {
    if p.base != [] {
      forall k | |p.left| <= k ensures At(p, k) == At(q, k) {
        WrapShift(p.pos, q.pos, k - |p.left|, |p.base|);
      }
      if n >= |p.left| { WrapShift(p.pos, q.pos, n - |p.left|, |p.base|); }
    }
  }

  lemma UpcomingSplit(p: Programme, m: nat, n: nat)
    ensures Upcoming(p, m + n) == Upcoming(p, m) + Upcoming(Advance(p, m), n)
    ensures Advance(Advance(p, m), n) == Advance(p, m + n)
  {
    if p.base == [] {
      LeftSplit(p, m, n);
    } else {
      var q := Advance(p, m);
      var both := Upcoming(p, m) + Upcoming(q, n);
      forall k | 0 <= k < m + n ensures Upcoming(p, m + n)[k] == both[k] {
        if k >= m { AtShift(p, m, k - m); }
      }
    }
  }

  lemma AtShift(p: Programme, m: nat, k: nat)
    requires p.base != []
    ensures At(Advance(p, m), k) == At(p, m + k)
  {
  }

  lemma LeftSplit(p: Programme, m: nat, n: nat)
    requires p.base == []
    ensures Upcoming(p, m + n) == Upcoming(p, m) + Upcoming(Advance(p, m), n)
  {
  }

  // ---------------------------------------------------------------- what the disk and the cache answer

  /** One item asked about from clock `c`: the file it feeds, if it resolves and is cached, and the clock. */
  function FedOne(w: World, c: nat, i: Item): (seq<Path>, nat) {
    match w.resolve(c, i)
    case None => ([], c + 1)
    case Some(src) => (if w.cache(c + 1, src) then [src] else [], c + 2)
  }

  /** The files `items` feed, asked about in order from clock `c`, and the clock after that. */
  function FedFrom(w: World, c: nat, items: seq<Item>): (seq<Path>, nat)
    decreases |items|
  {
    if items == [] then ([], c)
    else
      var (before, k) := FedFrom(w, c, items[..|items| - 1]);
      var (last, after) := FedOne(w, k, items[|items| - 1]);
      (before + last, after)
  }

  lemma {:induction false} FedJoin(w: World, c: nat, a: seq<Item>, b: seq<Item>)
    ensures
      var (first, k) := FedFrom(w, c, a);
      var (second, after) := FedFrom(w, k, b);
      FedFrom(w, c, a + b) == (first + second, after)
    decreases |b|
  {
    if b == [] {
      assert a + b == a;
      assert FedFrom(w, c, a).0 + [] == FedFrom(w, c, a).0;
    } else {
      assert (a + b)[..|a + b| - 1] == a + b[..|b| - 1];
      FedJoin(w, c, a, b[..|b| - 1]);
      var (first, k) := FedFrom(w, c, a);
      var (second, l) := FedFrom(w, k, b[..|b| - 1]);
      var last := FedOne(w, l, b[|b| - 1]).0;
      assert first + (second + last) == first + second + last;
    }
  }

  /** How many of `items`, asked about in order from clock `c`, resolve to a file the cache refuses. */
  function RefusedFrom(w: World, c: nat, items: seq<Item>): nat
    decreases |items|
  {
    if items == [] then 0
    else
      RefusedFrom(w, c, items[..|items| - 1]) +
      RefusedOne(w, FedFrom(w, c, items[..|items| - 1]).1, items[|items| - 1])
  }

  function RefusedOne(w: World, c: nat, i: Item): nat {
    match w.resolve(c, i)
    case None => 0
    case Some(src) => if w.cache(c + 1, src) then 0 else 1
  }

  lemma {:induction false} RefusedJoin(w: World, c: nat, a: seq<Item>, b: seq<Item>)
    ensures RefusedFrom(w, c, a + b) == RefusedFrom(w, c, a) + RefusedFrom(w, FedFrom(w, c, a).1, b)
    decreases |b|
  {
    if b == [] {
      assert a + b == a;
    } else {
      assert (a + b)[..|a + b| - 1] == a + b[..|b| - 1];
      RefusedJoin(w, c, a, b[..|b| - 1]);
      FedJoin(w, c, a, b[..|b| - 1]);
    }
  }

  /** What the lookahead makes of `items`: a file counts its length once cached, anything else an estimate. */
  datatype Look = Look(kept: seq<Path>, clock: nat, seconds: nat)

  const DEFAULT_TRACK_SEC := 240

  function LookOne(w: World, length: Path -> nat, c: nat, i: Item): Look {
    if i.kind != FileItem then Look([], c, DEFAULT_TRACK_SEC)
    else
      var (kept, after) := FedOne(w, c, i);
      Look(kept, after, if kept == [] then 0 else length(kept[0]))
  }

  function LookFrom(w: World, length: Path -> nat, c: nat, items: seq<Item>): Look
    decreases |items|
  {
    if items == [] then Look([], c, 0)
    else
      var before := LookFrom(w, length, c, items[..|items| - 1]);
      var last := LookOne(w, length, before.clock, items[|items| - 1]);
      Look(before.kept + last.kept, last.clock, before.seconds + last.seconds)
  }

  lemma LookMore(w: World, length: Path -> nat, c: nat, items: seq<Item>, i: Item)
    ensures
      var before := LookFrom(w, length, c, items);
      var last := LookOne(w, length, before.clock, i);
      LookFrom(w, length, c, items + [i]) == Look(before.kept + last.kept, last.clock, before.seconds + last.seconds)
  {
    assert (items + [i])[..|items|] == items;
  }

  /** Plain files are asked about as the feed asks. */
  lemma {:induction false} LookFeeds(w: World, length: Path -> nat, c: nat, items: seq<Item>)
    requires forall i :: i in items ==> i.kind == FileItem
    ensures var look := LookFrom(w, length, c, items); (look.kept, look.clock) == FedFrom(w, c, items)
    decreases |items|
  {
    if items != [] {
      assert items[|items| - 1] in items;
      LookFeeds(w, length, c, items[..|items| - 1]);
    }
  }

  // ---------------------------------------------------------------- a disk that keeps still

  /** The disk and the cache answer the same question the same way every time. */
  ghost predicate Still(w: World) {
    && (forall c: nat, i: Item {:trigger w.resolve(c, i)} :: w.resolve(c, i) == w.resolve(0, i))
    && (forall c: nat, p: Path {:trigger w.cache(c, p)} :: w.cache(c, p) == w.cache(0, p))
  }

  predicate FilesOnly(p: Programme) {
    (forall i :: i in p.left ==> i.kind == FileItem) && (forall i :: i in p.base ==> i.kind == FileItem)
  }

  function FeedableItem(w: World, i: Item): seq<Path> {
    var src := w.resolve(0, i);
    if src.Some? && w.cache(0, src.value) then [src.value] else []
  }

  /** The files of `items` that can be fed, in order. */
  function Feedable(w: World, items: seq<Item>): seq<Path>
    decreases |items|
  {
    if items == [] then [] else Feedable(w, items[..|items| - 1]) + FeedableItem(w, items[|items| - 1])
  }

  lemma {:induction false} StillFeeds(w: World, c: nat, items: seq<Item>)
    requires Still(w)
    ensures FedFrom(w, c, items).0 == Feedable(w, items)
    decreases |items|
  {
    if items != [] { StillFeeds(w, c, items[..|items| - 1]); }
  }

  lemma {:induction false} FeedableJoin(w: World, a: seq<Item>, b: seq<Item>)
    ensures Feedable(w, a + b) == Feedable(w, a) + Feedable(w, b)
    decreases |b|
  {
    if b == [] {
      assert a + b == a;
    } else {
      assert (a + b)[..|a + b| - 1] == a + b[..|b| - 1];
      FeedableJoin(w, a, b[..|b| - 1]);
    }
  }

  /** The lookahead follows the feed. Starting from one programme, whatever the lookahead covers (the
      feedable ones of its first `k` items) is a prefix of whatever the feed goes on to feed (the
      feedable ones of its first `n`), as soon as the feed has fed that many; until then what was fed is
      a prefix of what is covered. */
  lemma LookaheadFollowsFeed(w: World, p: Programme, k: nat, n: nat)
    ensures
      var covered := Feedable(w, Upcoming(p, k));
      var fed := Feedable(w, Upcoming(p, n));
      (covered <= fed || fed <= covered) && (|fed| >= |covered| ==> covered <= fed)
  {
    hide Feedable, Upcoming, Advance;
    var lo, hi := if k < n then k else n, if k < n then n else k;
    UpcomingSplit(p, lo, hi - lo);
    FeedableJoin(w, Upcoming(p, lo), Upcoming(Advance(p, lo), hi - lo));
    var more := Feedable(w, Upcoming(Advance(p, lo), hi - lo));
    assert Feedable(w, Upcoming(p, hi)) == Feedable(w, Upcoming(p, lo)) + more;
  }

  lemma UpcomingFiles(p: Programme, n: nat)
    requires FilesOnly(p)
    ensures forall i :: i in Upcoming(p, n) ==> i.kind == FileItem
  {
    if p.base != [] {
      forall i | i in Upcoming(p, n) ensures i.kind == FileItem {
        var k :| 0 <= k < |Upcoming(p, n)| && Upcoming(p, n)[k] == i;
        assert i == At(p, k);
      }
    }
  }

  // ---------------------------------------------------------------- looking for the next file

  /** One list as a programme of its own. */
  function ListProgramme(items: seq<Item>, cur: nat, wrap: bool): Programme {
    if wrap then Programme([], items, cur) else Programme(if cur < |items| then items[cur..] else [], [], 0)
  }

  /** None of `items`, asked about in order from clock `c`, resolves. */
  predicate NoneResolves(w: World, c: nat, items: seq<Item>) {
    forall k :: 0 <= k < |items| ==> w.resolve(c + k, items[k]).None?
  }

  lemma {:induction false} NoneFed(w: World, c: nat, items: seq<Item>)
    requires NoneResolves(w, c, items)
    ensures FedFrom(w, c, items) == ([], c + |items|)
    decreases |items|
  {
    if items != [] {
      NoneFed(w, c, items[..|items| - 1]);
      assert FedFrom(w, c, items).0 == [];
    }
  }

  /** The first `passed` items of `p` were taken, asked about in order from clock `c`: none resolved, but for
      the last if something was found. */
  ghost predicate Taken(w: World, p: Programme, c: nat, passed: nat, found: Option<(Path, nat)>) {
    match found
    case None => |Upcoming(p, passed)| == passed && NoneResolves(w, c, Upcoming(p, passed))
    case Some(f) =>
      && passed > 0 && |Upcoming(p, passed - 1)| == passed - 1 && NoneResolves(w, c, Upcoming(p, passed - 1))
      && exists i :: Upcoming(p, passed) == Upcoming(p, passed - 1) + [i] &&
                     w.resolve(c + passed - 1, i) == Some(f.0)
  }

  lemma TakenFeeds(w: World, p: Programme, c: nat, k: nat, found: Option<(Path, nat)>)
    requires Taken(w, p, c, k, found)
    ensures FedFrom(w, c, Upcoming(p, k)) ==
              match found
              case None => ([], c + k)
              case Some(f) => (if w.cache(c + k, f.0) then [f.0] else [], c + k + 1)
  {
    hide Upcoming, NoneResolves;
    if found.None? {
      NoneFed(w, c, Upcoming(p, k));
    } else {
      NoneFed(w, c, Upcoming(p, k - 1));
      var i :| Upcoming(p, k) == Upcoming(p, k - 1) + [i] && w.resolve(c + k - 1, i) == Some(found.value.0);
      assert Upcoming(p, k)[..|Upcoming(p, k)| - 1] == Upcoming(p, k - 1);
      var last := FedOne(w, c + k - 1, i).0;
      assert [] + last == last;
    }
  }

  lemma {:induction false} NoneRefused(w: World, c: nat, items: seq<Item>)
    requires NoneResolves(w, c, items)
    ensures RefusedFrom(w, c, items) == 0
    decreases |items|
  {
    if items != [] {
      NoneRefused(w, c, items[..|items| - 1]);
      NoneFed(w, c, items[..|items| - 1]);
    }
  }

  lemma TakenRefuses(w: World, p: Programme, c: nat, k: nat, found: Option<(Path, nat)>)
    requires Taken(w, p, c, k, found)
    ensures RefusedFrom(w, c, Upcoming(p, k)) == if found.Some? && !w.cache(c + k, found.value.0) then 1 else 0
  {
    hide Upcoming, NoneResolves;
    if found.None? {
      NoneRefused(w, c, Upcoming(p, k));
    } else {
      NoneRefused(w, c, Upcoming(p, k - 1));
      NoneFed(w, c, Upcoming(p, k - 1));
      var i :| Upcoming(p, k) == Upcoming(p, k - 1) + [i] && w.resolve(c + k - 1, i) == Some(found.value.0);
      assert Upcoming(p, k)[..|Upcoming(p, k)| - 1] == Upcoming(p, k - 1);
    }
  }

  lemma NothingPassed(w: World, c: nat, p: Programme)
    ensures Same(p, Advance(p, 0)) && Upcoming(p, 0) == [] && NoneResolves(w, c, [])
    ensures FedFrom(w, c, []) == ([], c) && RefusedFrom(w, c, []) == 0
  {
  }

  lemma NoneMore(w: World, c: nat, items: seq<Item>, i: Item)
    requires NoneResolves(w, c, items) && w.resolve(c + |items|, i).None?
    ensures NoneResolves(w, c, items + [i])
  {
  }

  lemma WrapSame(items: seq<Item>, cur: nat)
    requires items != []
    ensures cur % |items| < |items|
    ensures Same(ListProgramme(items, cur % |items|, true), ListProgramme(items, cur, true))
  {
    WrapIsRemainder(cur, |items|);
  }

  lemma OneMore(items: seq<Item>, at: nat, wrap: bool, p: Programme, passed: nat)
    requires at < |items| && Same(ListProgramme(items, at, wrap), Advance(p, passed))
    ensures Upcoming(p, passed + 1) == Upcoming(p, passed) + [items[at]]
    ensures Same(ListProgramme(items, at + 1, wrap), Advance(p, passed + 1))
  {
    var q, t := ListProgramme(items, at, wrap), Advance(p, passed);
    FirstOfList(items, at, wrap);
    SameUpcoming(q, t, 1);
    UpcomingSplit(p, passed, 1);
    SameTrans(ListProgramme(items, at + 1, wrap), Advance(q, 1), Advance(t, 1));
  }

  lemma FirstOfList(items: seq<Item>, at: nat, wrap: bool)
    requires at < |items|
    ensures Upcoming(ListProgramme(items, at, wrap), 1) == [items[at]]
    ensures Same(ListProgramme(items, at + 1, wrap), Advance(ListProgramme(items, at, wrap), 1))
  {
  }

  lemma SameTrans(a: Programme, b: Programme, c: Programme)
    requires Same(a, b) && Same(b, c)
    ensures Same(a, c)
  {
  }

  lemma UpcomingLeft(p: Programme, n: nat)
    requires n <= |p.left|
    ensures Upcoming(p, n) == p.left[..n]
  {
  }

  lemma TakenSame(w: World, p: Programme, q: Programme, c: nat, k: nat, found: Option<(Path, nat)>)
    requires Upcoming(p, k) == Upcoming(q, k) && (k > 0 ==> Upcoming(p, k - 1) == Upcoming(q, k - 1))
    requires Taken(w, p, c, k, found)
    ensures Taken(w, q, c, k, found)
  {
  }

  /** What a show's own list says, said of the whole programme. */
  lemma ShowPart(w: World, sh: Show, base: seq<Item>, cursor: nat, c: nat, passed: nat,
                 found: Option<(Path, nat)>)
    requires !sh.doneFeeding && (sh.cursor <= |sh.items| ==> sh.cursor + passed <= |sh.items|)
    requires sh.cursor >= |sh.items| ==> passed == 0
    requires found.None? ==> sh.cursor + passed >= |sh.items|
    ensures
      var p := ProgrammeOf(Some(sh), base, cursor);
      var sh1 := sh.(cursor := sh.cursor + passed, doneFeeding := found.None?);
      && Same(ProgrammeOf(Some(sh1), base, cursor), Advance(p, passed))
      && (Taken(w, ListProgramme(sh.items, sh.cursor, false), c, passed, found) ==> Taken(w, p, c, passed, found))
  {
    hide Taken, Upcoming;
    var p := ProgrammeOf(Some(sh), base, cursor);
    var l := ListProgramme(sh.items, sh.cursor, false);
    UpcomingLeft(p, passed);
    UpcomingLeft(l, passed);
    if passed > 0 {
      UpcomingLeft(p, passed - 1);
      UpcomingLeft(l, passed - 1);
    }
    if Taken(w, l, c, passed, found) { TakenSame(w, l, p, c, passed, found); }
  }

  /** The files a search of `k` items adds to what has been fed. */
  lemma FedStep(w: World, p: Programme, start: nat, passed: nat, q: Programme, c: nat, k: nat, r: Programme,
                found: Option<(Path, nat)>, paths: seq<Path>)
    requires Same(q, Advance(p, passed)) && Same(r, Advance(q, k)) && Taken(w, q, c, k, found)
    requires FedFrom(w, start, Upcoming(p, passed)) == (paths, c)
    ensures Same(r, Advance(p, passed + k))
    ensures FedFrom(w, start, Upcoming(p, passed + k)) ==
              match found
              case None => (paths, c + k)
              case Some(f) => (paths + if w.cache(c + k, f.0) then [f.0] else [], c + k + 1)
  {
    hide Upcoming, Advance, Same, Taken, FedFrom;
    var t := Advance(p, passed);
    SameUpcoming(q, t, k);
    UpcomingSplit(p, passed, k);
    SameTrans(r, Advance(q, k), Advance(t, k));
    TakenFeeds(w, q, c, k, found);
    FedJoin(w, start, Upcoming(p, passed), Upcoming(t, k));
    assert paths + [] == paths;
  }

  lemma RefusedStep(w: World, p: Programme, start: nat, passed: nat, q: Programme, c: nat, k: nat,
                    found: Option<(Path, nat)>)
    requires Same(q, Advance(p, passed)) && Taken(w, q, c, k, found)
    requires FedFrom(w, start, Upcoming(p, passed)).1 == c
    ensures RefusedFrom(w, start, Upcoming(p, passed + k)) ==
              RefusedFrom(w, start, Upcoming(p, passed)) +
              if found.Some? && !w.cache(c + k, found.value.0) then 1 else 0
  {
    hide Upcoming, Advance, Same, Taken, FedFrom, RefusedFrom;
    SameUpcoming(q, Advance(p, passed), k);
    UpcomingSplit(p, passed, k);
    TakenRefuses(w, q, c, k, found);
    RefusedJoin(w, start, Upcoming(p, passed), Upcoming(q, k));
  }

  // ---------------------------------------------------------------- when feeding may stop

  /** The last `n` of `items`, asked about just before clock `c`, all failed to resolve. */
  predicate LapFailed(w: World, c: nat, items: seq<Item>, n: nat) {
    n <= |items| && n <= c && NoneResolves(w, c - n, items[|items| - n..])
  }

  lemma LapEnded(w: World, p: Programme, passed: nat, q: Programme, c: nat, k: nat)
    requires Same(q, Advance(p, passed)) && Taken(w, q, c, k, None)
    ensures LapFailed(w, c + k, Upcoming(p, passed + k), k)
  {
    hide Advance, Same, Upcoming;
    SameUpcoming(q, Advance(p, passed), k);
    UpcomingSplit(p, passed, k);
    var all, last := Upcoming(p, passed + k), Upcoming(q, k);
    assert all[|all| - k..] == last;
  }

  /** The items whose refusals count against a tick: the rotation, and the show unless it ran out in it. */
  function Counted(was: Option<Show>, now: Option<Show>, base: seq<Item>): nat {
    |base| + match now
             case None => 0
             case Some(sh) => if was.Some? && !was.value.doneFeeding && sh.doneFeeding then 0 else |sh.items|
  }

  lemma CountedMoves(was: Option<Show>, mid: Option<Show>, now: Option<Show>, base: seq<Item>)
    requires was.Some? == mid.Some? == now.Some?
    requires was.Some? && was.value.doneFeeding ==> mid == was
    requires mid.Some? ==> now.value.items == mid.value.items && (mid.value.doneFeeding ==> now == mid)
    ensures Counted(was, now, base) == if Active(mid) && !Active(now) then |base| else Counted(was, mid, base)
  {
  }

  lemma CountedFirst(show: Option<Show>, base: seq<Item>)
    ensures Counted(show, show, base) == |base| + if show.Some? then |show.value.items| else 0
  {
  }

  predicate Active(show: Option<Show>) { show.Some? && !show.value.doneFeeding }

  /** Why a tick may end with room left, having asked about `asked` from clock `start` to clock `c`: nothing
      is left to ask about, a whole lap of the rotation resolved nothing, or the cache refused as many
      files as there are items. */
  predicate StopsShort(w: World, was: Option<Show>, now: Option<Show>, base: seq<Item>, start: nat, c: nat, asked: seq<Item>) {
    var n := Counted(was, now, base);
    || (!Active(now) && base == [])
    || (!Active(now) && LapFailed(w, c, asked, |base|))
    || RefusedFrom(w, start, asked) >= if n > 1 then n else 1
  }

  lemma WhyStopped(w: World, was: Option<Show>, now: Option<Show>, base: seq<Item>, start: nat, c: nat, asked: seq<Item>)
    requires
      var n := Counted(was, now, base);
      || (!Active(now) && (base == [] || LapFailed(w, c, asked, |base|)))
      || RefusedFrom(w, start, asked) >= if n > 1 then n else 1
    ensures StopsShort(w, was, now, base, start, c, asked)
  {
  }

  /** Every item of the programme can be fed. */
  predicate AllFeedable(w: World, p: Programme) {
    forall i :: i in p.left + p.base ==> FeedableItem(w, i) != []
  }

  lemma {:induction false} FeedableNotRefused(w: World, c: nat, items: seq<Item>)
    requires Still(w) && forall i :: i in items ==> FeedableItem(w, i) != []
    ensures RefusedFrom(w, c, items) == 0
    decreases |items|
  {
    if items != [] {
      var init, last := items[..|items| - 1], items[|items| - 1];
      assert last in items;
      FeedableNotRefused(w, c, init);
      assert w.resolve(FedFrom(w, c, init).1, last) == w.resolve(0, last);
    }
  }

  lemma UpcomingIn(p: Programme, n: nat)
    ensures forall i :: i in Upcoming(p, n) ==> i in p.left || i in p.base
  {
    if p.base != [] {
      forall i | i in Upcoming(p, n) ensures i in p.left || i in p.base {
        var k :| 0 <= k < |Upcoming(p, n)| && Upcoming(p, n)[k] == i;
        assert i == At(p, k);
      }
    }
  }

  /** On such a disk nothing is refused and no lap fails. */
  lemma NothingStops(w: World, was: Option<Show>, now: Option<Show>, p: Programme, start: nat, n: nat, c: nat)
    requires Still(w) && AllFeedable(w, p) && p.base != []
    ensures !StopsShort(w, was, now, p.base, start, c, Upcoming(p, n))
  {
    hide Upcoming;
    var lap := |p.base|;
    UpcomingIn(p, n);
    FeedableNotRefused(w, start, Upcoming(p, n));
    var items := Upcoming(p, n);
    if lap <= |items| && lap <= c { SomeResolves(w, c - lap, items[|items| - lap..]); }
  }

  lemma SomeResolves(w: World, c: nat, items: seq<Item>)
    requires Still(w) && items != [] && forall i :: i in items ==> FeedableItem(w, i) != []
    ensures !NoneResolves(w, c, items)
  {
    assert items[0] in items;
    assert w.resolve(c + 0, items[0]) == w.resolve(0, items[0]);
  }

  // ---------------------------------------------------------------- batches

  datatype Program = FromShow | FromBase

  /** A fed entry: the cached file, the programme it came from and its place in that list. */
  datatype Fed = Fed(path: Path, prog: Program, index: nat)

  function Paths(batch: seq<Fed>): seq<Path> { seq(|batch|, i requires 0 <= i < |batch| => batch[i].path) }

  /** Show entries come in list order, each place once, and before any rotation entry. */
  predicate InOrder(batch: seq<Fed>) {
    && (forall i, j :: 0 <= i < j < |batch| && batch[i].prog == FromShow && batch[j].prog == FromShow ==>
          batch[i].index < batch[j].index)
    && (forall i, j :: 0 <= i < j < |batch| && batch[j].prog == FromShow ==> batch[i].prog == FromShow)
  }

  /** Show entries in order, between the show's old cursor and its new one, before any rotation entry;
      and no rotation entry while the show is still being fed. */
  predicate BatchOk(batch: seq<Fed>, was: Option<Show>, now: Option<Show>) {
    && InOrder(batch)
    && (forall f :: f in batch && f.prog == FromShow ==>
          was.Some? && now.Some? && was.value.cursor <= f.index < now.value.cursor)
    && (now.Some? && !now.value.doneFeeding ==> forall f :: f in batch ==> f.prog == FromShow)
  }

  lemma NoBatch(show: Option<Show>)
    ensures BatchOk([], show, show) && Paths([]) == []
  {
  }

  lemma BatchMoves(batch: seq<Fed>, was: Option<Show>, mid: Option<Show>, now: Option<Show>)
    requires BatchOk(batch, was, mid) && (now.Some? <==> mid.Some?)
    requires mid.Some? ==> mid.value.cursor <= now.value.cursor && (mid.value.doneFeeding ==> now == mid)
    ensures BatchOk(batch, was, now)
  {
  }

  lemma BatchGrows(batch: seq<Fed>, was: Option<Show>, mid: Option<Show>, now: Option<Show>, f: Fed)
    requires BatchOk(batch, was, mid) && BatchOk(batch, was, now)
    requires f.prog == FromShow ==>
               && mid.Some? && !mid.value.doneFeeding && was.Some? && now.Some?
               && was.value.cursor <= mid.value.cursor <= f.index < now.value.cursor
    requires f.prog == FromBase ==> now.None? || now.value.doneFeeding
    ensures BatchOk(batch + [f], was, now)
  {
  }

  lemma BatchInOrder(batch: seq<Fed>, was: Option<Show>, now: Option<Show>)
    requires BatchOk(batch, was, now)
    ensures InOrder(batch)
  {
  }

  lemma PathsCount(batch: seq<Fed>)
    ensures |Paths(batch)| == |batch|
  {
  }

  /** One batch after others: the show's cursor only moves on. */
  lemma BatchesJoin(fed: seq<Fed>, batch: seq<Fed>, first: Option<Show>, was: Option<Show>, now: Option<Show>)
    requires BatchOk(fed, first, was) && BatchOk(batch, was, now)
    requires was.Some? <==> first.Some?
    requires now.Some? <==> was.Some?
    requires was.Some? ==> first.value.cursor <= was.value.cursor <= now.value.cursor
    requires was.Some? && was.value.doneFeeding ==> now.value == was.value
    ensures BatchOk(fed + batch, first, now)
  {
    forall f | f in fed + batch ensures f in fed || f in batch { }
    forall f | f in batch && f.prog == FromShow ensures forall g :: g in fed ==> g.prog == FromShow {
      assert was.value.cursor <= f.index < now.value.cursor;
    }
    var all := fed + batch;
    forall i, j | 0 <= i < j < |all| && all[j].prog == FromShow
      ensures all[i].prog == FromShow && all[i].index < all[j].index {
      if i < |fed| <= j { assert all[i] in fed && all[j] in batch; }
    }
  }

  lemma OnePath(batch: seq<Fed>, f: Fed)
    ensures Paths(batch + [f]) == Paths(batch) + [f.path]
  {
  }

  lemma PathsJoin(a: seq<Fed>, b: seq<Fed>)
    ensures Paths(a + b) == Paths(a) + Paths(b)
  {
  }

  // ---------------------------------------------------------------- looking ahead

  /** The programme the lookahead simulates, from its own copies of the cursors. */
  function Snapshot(active: bool, items: seq<Item>, showCursor: nat, base: seq<Item>, cur: nat): Programme {
    Programme(if active && showCursor < |items| then items[showCursor..] else [], base, cur)
  }

  lemma SnapshotIs(show: Option<Show>, base: seq<Item>, cursor: nat)
    ensures
      var items := if show.Some? then show.value.items else [];
      var showCursor := if show.Some? then show.value.cursor else 0;
      var active := show.Some? && !show.value.doneFeeding;
      Snapshot(active, items, showCursor, base, cursor) == ProgrammeOf(show, base, cursor)
  {
  }

  lemma SnapshotOver(items: seq<Item>, showCursor: nat, base: seq<Item>, cur: nat)
    requires showCursor >= |items|
    ensures Same(Snapshot(false, items, showCursor, base, cur), Snapshot(true, items, showCursor, base, cur))
  {
  }

  lemma PeekStep(p: Programme, passed: nat, q: Programme, r: Programme, item: Item)
    requires Same(q, Advance(p, passed)) && Upcoming(q, 1) == [item] && Same(r, Advance(q, 1))
    ensures Upcoming(p, passed + 1) == Upcoming(p, passed) + [item] && Same(r, Advance(p, passed + 1))
  {
    hide Upcoming, Advance, Same;
    SameUpcoming(q, Advance(p, passed), 1);
    UpcomingSplit(p, passed, 1);
    SameTrans(r, Advance(q, 1), Advance(Advance(p, passed), 1));
  }

  lemma PeekShow(w: World, p: Programme, passed: nat, items: seq<Item>, showCursor: nat, base: seq<Item>, cur: nat)
    requires showCursor < |items| && Same(Snapshot(true, items, showCursor, base, cur), Advance(p, passed))
    ensures Upcoming(p, passed + 1) == Upcoming(p, passed) + [items[showCursor]]
    ensures Same(Snapshot(true, items, showCursor + 1, base, cur), Advance(p, passed + 1))
  {
    var q, r := Snapshot(true, items, showCursor, base, cur), Snapshot(true, items, showCursor + 1, base, cur);
    assert Upcoming(q, 1) == [items[showCursor]];
    assert Same(r, Advance(q, 1));
    PeekStep(p, passed, q, r, items[showCursor]);
  }

  lemma PeekBase(w: World, p: Programme, passed: nat, active: bool, items: seq<Item>, showCursor: nat,
                 base: seq<Item>, cur: nat)
    requires base != [] && (active ==> items == [])
    requires Same(Snapshot(active, items, showCursor, base, cur), Advance(p, passed))
    ensures
      var c := if cur >= |base| then cur % |base| else cur;
      && c < |base|
      && Upcoming(p, passed + 1) == Upcoming(p, passed) + [base[c]]
      && Same(Snapshot(active, items, showCursor, base, c + 1), Advance(p, passed + 1))
  {
    var c := if cur >= |base| then cur % |base| else cur;
    WrapIsRemainder(cur, |base|);
    var q, r := Snapshot(active, items, showCursor, base, cur), Snapshot(active, items, showCursor, base, c + 1);
    assert Upcoming(q, 1) == [base[c]];
    WrapShift(c, cur, 1, |base|);
    assert Same(r, Advance(q, 1));
    PeekStep(p, passed, q, r, base[c]);
  }

  lemma NothingLooked(w: World, length: Path -> nat, c: nat)
    ensures LookFrom(w, length, c, []) == Look([], c, 0)
  {
  }

  lemma SnapshotEmpty(active: bool, items: seq<Item>, showCursor: nat, cur: nat, p: Programme, passed: nat)
    requires !(active && items != []) && Same(Snapshot(active, items, showCursor, [], cur), Advance(p, passed))
    ensures passed >= |p.left|
  {
  }

  // ---------------------------------------------------------------- in place

  class Feeder {
    const w: World
    const feedAhead: nat
    var cursor: nat
    var show: Option<Show>
    var clock: nat

    /** Find the next item that resolves, moving the cursor past it. The rotation wraps, and answers none
        only after a whole lap; a show ends. `passed` counts the items taken. */
    method NextResolved(items: seq<Item>, from: nat, wrap: bool)
      returns (found: Option<(Path, nat)>, cur: nat, ghost passed: nat)
      modifies this`clock
      ensures Same(ListProgramme(items, cur, wrap), Advance(ListProgramme(items, from, wrap), passed))
      ensures !wrap ==> cur == from + passed && (found.None? ==> cur >= |items|) && (from <= |items| ==> cur <= |items|)
      ensures !wrap && from >= |items| ==> passed == 0
      ensures wrap && found.None? ==> passed == |items|
      ensures found.Some? ==> found.value.1 < |items| && (!wrap ==> from <= found.value.1 < cur) && passed > 0
      ensures clock == old(clock) + passed
      ensures Taken(w, ListProgramme(items, from, wrap), old(clock), passed, found)
    {
      hide Advance, Upcoming, Same, ListProgramme, NoneResolves;
      var n := |items|;
      cur, passed := from, 0;
      ghost var p := ListProgramme(items, from, wrap);
      NothingPassed(w, clock, p);
      if n == 0 { return None, cur, passed; }
      for lap := 0 to n
        invariant passed == lap && (!wrap ==> from + lap == cur && (lap > 0 ==> cur <= n))
        invariant clock == old(clock) + lap && |Upcoming(p, passed)| == passed
        invariant Same(ListProgramme(items, cur, wrap), Advance(p, passed))
        invariant NoneResolves(w, old(clock), Upcoming(p, passed))
      {
        if cur >= n {
          if !wrap { return None, cur, passed; }
          WrapSame(items, cur);
          SameTrans(ListProgramme(items, cur % n, wrap), ListProgramme(items, cur, wrap), Advance(p, passed));
          cur := cur % n;
        }
        var at := cur;
        OneMore(items, at, wrap, p, passed);
        var src := w.resolve(clock, items[at]);
        clock := clock + 1;
        cur := at + 1;
        passed := passed + 1;
        if src.Some? { return Some((src.value, at)), cur, passed; }
        NoneMore(w, old(clock), Upcoming(p, passed - 1), items[at]);
      }
      return None, cur, passed;
    }

    ghost function Ahead(base: seq<Item>): Programme
      reads this
    {
      ProgrammeOf(show, base, cursor)
    }

    predicate ShowActive()
      reads this
    {
      show.Some? && !show.value.doneFeeding
    }

    ghost predicate SameShow(was: Option<Show>)
      reads this
    {
      && (show.Some? <==> was.Some?)
      && (show.Some? ==>
            && show.value.items == was.value.items && was.value.cursor <= show.value.cursor
            && (was.value.doneFeeding ==> show.value == was.value))
    }

    /** The next file of the show, moving the show's cursor; at its end the show is fully fed. */
    method NextOfShow(base: seq<Item>) returns (found: Option<(Path, nat)>, ghost passed: nat)
      requires ShowActive()
      modifies this`show, this`clock
      ensures SameShow(old(show)) && Same(Ahead(base), Advance(old(Ahead(base)), passed))
      ensures found.None? ==> !ShowActive()
      ensures found.Some? ==> ShowActive() && old(show).value.cursor <= found.value.1 < show.value.cursor
      ensures clock == old(clock) + passed && Taken(w, old(Ahead(base)), old(clock), passed, found)
    {
      hide Taken;
      var sh := show.value;
      var cur: nat;
      found, cur, passed := NextResolved(sh.items, sh.cursor, false);
      ShowPart(w, sh, base, cursor, old(clock), passed, found);
      show := Some(sh.(cursor := cur, doneFeeding := found.None?));
    }

    /** The next file of the rotation, moving its cursor; none when a whole lap resolves nothing. */
    method NextOfBase(base: seq<Item>) returns (found: Option<(Path, nat)>, ghost passed: nat)
      requires !ShowActive()
      modifies this`cursor, this`clock
      ensures Same(Ahead(base), Advance(old(Ahead(base)), passed))
      ensures found.None? ==> passed == |base|
      ensures clock == old(clock) + passed && Taken(w, old(Ahead(base)), old(clock), passed, found)
    {
      hide Taken;
      var cur: nat;
      found, cur, passed := NextResolved(base, cursor, true);
      cursor := cur;
    }

    /** The next file due: of the show while it lasts, else of the rotation. */
    method NextDue(base: seq<Item>) returns (found: Option<(Path, nat)>, prog: Program, ghost passed: nat)
      modifies this`show, this`cursor, this`clock
      ensures (prog == FromShow) == old(ShowActive())
      ensures SameShow(old(show)) && Same(Ahead(base), Advance(old(Ahead(base)), passed))
      ensures prog == FromShow && found.None? ==> !ShowActive()
      ensures prog == FromShow && found.Some? ==>
                ShowActive() && old(show).value.cursor <= found.value.1 < show.value.cursor
      ensures prog == FromBase ==> show == old(show) && (found.None? ==> passed == |base|)
      ensures clock == old(clock) + passed && Taken(w, old(Ahead(base)), old(clock), passed, found)
    {
      hide Taken, Same, Advance, ProgrammeOf;
      if ShowActive() {
        prog := FromShow;
        found, passed := NextOfShow(base);
      } else {
        prog := FromBase;
        found, passed := NextOfBase(base);
      }
    }

    /** Copy upcoming files ahead of time, on copies of the cursors: the feeder itself does not move.
        Whatever the disk answers, what is kept is what the next items give, in order; and the scan goes on
        until they cover the time wanted, a hundred looks are spent, or nothing is left, and no further. */
    method CacheLookahead(base: seq<Item>, length: Path -> nat, targetSec: nat)
      returns (kept: seq<Path>, ghost passed: nat)
      modifies this`clock
      ensures
        var look := LookFrom(w, length, old(clock), Upcoming(Ahead(base), passed));
        && kept == look.kept && clock == look.clock
        && (look.seconds >= targetSec || passed + 1 >= 2 * MAX_FEED_BATCH || (base == [] && passed >= |Ahead(base).left|))
        && (passed > 0 ==> LookFrom(w, length, old(clock), Upcoming(Ahead(base), passed - 1)).seconds < targetSec)
        && passed <= 2 * MAX_FEED_BATCH
      ensures Still(w) && FilesOnly(Ahead(base)) ==> kept == Feedable(w, Upcoming(Ahead(base), passed))
    {
      hide Same, Advance, Upcoming, Feedable, ProgrammeOf, Still, LookFrom, LookOne, Snapshot, FilesOnly;
      kept, passed := [], 0;
      var active := ShowActive();
      var items := if show.Some? then show.value.items else [];
      var showCursor: nat := if show.Some? then show.value.cursor else 0;
      var cur: nat := cursor;
      var pendingSec: nat, scanned := 0, 0;
      ghost var p := Ahead(base);
      ghost var switched := if active && items != [] then 0 else 1;
      NothingPassed(w, clock, p);
      NothingLooked(w, length, clock);
      SnapshotIs(show, base, cursor);
      while pendingSec < targetSec && scanned < 2 * MAX_FEED_BATCH
        invariant show == old(show) && cursor == old(cursor)
        invariant Same(Snapshot(active, items, showCursor, base, cur), Advance(p, passed))
        invariant LookFrom(w, length, old(clock), Upcoming(p, passed)) == Look(kept, clock, pendingSec)
        invariant passed > 0 ==> LookFrom(w, length, old(clock), Upcoming(p, passed - 1)).seconds < targetSec
        invariant passed <= scanned <= passed + (if active && items != [] then 0 else 1)
        invariant scanned <= 2 * MAX_FEED_BATCH
        decreases 2 * MAX_FEED_BATCH - scanned
      {
        scanned := scanned + 1;
        var item: Item;
        if active && items != [] {
          if showCursor >= |items| {
            SnapshotOver(items, showCursor, base, cur);
            SameTrans(Snapshot(false, items, showCursor, base, cur), Snapshot(true, items, showCursor, base, cur), Advance(p, passed));
            active := false;
            continue;
          }
          item := items[showCursor];
          PeekShow(w, p, passed, items, showCursor, base, cur);
          showCursor := showCursor + 1;
        } else {
          if base == [] {
            SnapshotEmpty(active, items, showCursor, cur, p, passed);
            break;
          }
          PeekBase(w, p, passed, active, items, showCursor, base, cur);
          var c := if cur >= |base| then cur % |base| else cur;
          item := base[c];
          cur := c + 1;
        }
        LookMore(w, length, old(clock), Upcoming(p, passed), item);
        passed := passed + 1;
        var seconds, file := CacheAhead(item, length);
        pendingSec := pendingSec + seconds;
        if file.Some? { kept := kept + [file.value]; }
      }
      if Still(w) && FilesOnly(p) {
        UpcomingFiles(p, passed);
        LookFeeds(w, length, old(clock), Upcoming(p, passed));
        StillFeeds(w, old(clock), Upcoming(p, passed));
      }
    }

    /** One item looked at ahead of time. */
    method CacheAhead(item: Item, length: Path -> nat) returns (seconds: nat, file: Option<Path>)
      modifies this`clock
      ensures LookOne(w, length, old(clock), item) ==
                Look(match file { case Some(f) => [f] case None => [] }, clock, seconds)
    {
      if item.kind != FileItem { return DEFAULT_TRACK_SEC, None; }
      var src := w.resolve(clock, item);
      clock := clock + 1;
      if src.None? { return 0, None; }
      var cached := w.cache(clock, src.value);
      clock := clock + 1;
      if !cached { return 0, None; }
      return length(src.value), src;
    }

    /** One tick's batch: as many tracks as are missing, the show first and then the rotation. Ends for
        any answers of the disk and the cache, and holds exactly the files they gave, in order. It stops
        short only when nothing is left to ask about, when a whole lap of the rotation resolved nothing, or
        when the cache refused as many files as there are items. */
    method FeedBatch(base: seq<Item>, pending: nat) returns (batch: seq<Fed>, ghost passed: nat)
      modifies this
      ensures |batch| <= MAX_FEED_BATCH
      ensures pending + |batch| <= if pending > feedAhead then pending else feedAhead
      ensures BatchOk(batch, old(show), show) && SameShow(old(show))
      ensures Same(Ahead(base), Advance(old(Ahead(base)), passed))
      ensures FedFrom(w, old(clock), Upcoming(old(Ahead(base)), passed)) == (Paths(batch), clock)
      ensures
        || pending + |batch| >= feedAhead || |batch| == MAX_FEED_BATCH
        || StopsShort(w, old(show), show, base, old(clock), clock, Upcoming(old(Ahead(base)), passed))
      ensures Still(w) && AllFeedable(w, old(Ahead(base))) && base != [] ==>
                pending + |batch| >= feedAhead || |batch| == MAX_FEED_BATCH
    {
      hide Same, Advance, Upcoming, FedFrom, RefusedFrom, LapFailed, ProgrammeOf, Taken, BatchOk, Paths, Still, AllFeedable, StopsShort, Counted;
      batch, passed := [], 0;
      var showItems := if show.Some? then |show.value.items| else 0;
      var cacheFails := 0;
      ghost var p := Ahead(base);
      NothingPassed(w, clock, p);
      NoBatch(show);
      CountedFirst(show, base);
      while pending + |batch| < feedAhead && |batch| < MAX_FEED_BATCH
        invariant |batch| <= MAX_FEED_BATCH
        invariant pending + |batch| <= if pending > feedAhead then pending else feedAhead
        invariant SameShow(old(show)) && Same(Ahead(base), Advance(p, passed))
        invariant BatchOk(batch, old(show), show)
        invariant FedFrom(w, old(clock), Upcoming(p, passed)) == (Paths(batch), clock)
        invariant RefusedFrom(w, old(clock), Upcoming(p, passed)) == cacheFails
        invariant |base| + showItems == Counted(old(show), show, base)
        decreases feedAhead - pending - |batch|, if ShowActive() then 1 else 0, |base| + showItems + 1 - cacheFails
      {
        ghost var q, before, asked := Ahead(base), show, clock;
        if !ShowActive() && base == [] {
          WhyStopped(w, old(show), show, base, old(clock), clock, Upcoming(p, passed));
          break;
        }
        var found, prog, k := NextDue(base);
        CountedMoves(old(show), before, show, base);
        RefusedStep(w, p, old(clock), passed, q, asked, k, found);
        if found.None? { LapEnded(w, p, passed, q, asked, k); }
        FedStep(w, p, old(clock), passed, q, asked, k, Ahead(base), found, Paths(batch));
        BatchMoves(batch, old(show), before, show);
        assert Paths(batch) + [] == Paths(batch);
        passed := passed + k;
        if found.None? {
          if prog == FromBase {
            WhyStopped(w, old(show), show, base, old(clock), clock, Upcoming(p, passed));
            break;
          }
          showItems := 0;
          continue;
        }
        var src := found.value.0;
        var cached := w.cache(clock, src);
        clock := clock + 1;
        if !cached {
          cacheFails := cacheFails + 1;
          if cacheFails >= (if |base| + showItems > 1 then |base| + showItems else 1) {
            WhyStopped(w, old(show), show, base, old(clock), clock, Upcoming(p, passed));
            break;
          }
          continue;
        }
        BatchGrows(batch, old(show), before, show, Fed(src, prog, found.value.1));
        OnePath(batch, Fed(src, prog, found.value.1));
        batch := batch + [Fed(src, prog, found.value.1)];
      }
      if Still(w) && AllFeedable(w, p) && base != [] { NothingStops(w, old(show), show, p, old(clock), passed, clock); }
    }

    /** The lookahead, and then any number of ticks: each is exactly what the disk gave for the next items
        due, from the same place. On a disk that keeps still, once the ticks have fed as many tracks as the
        lookahead covered, what it covered is exactly what was fed first; and over all the ticks the show
        feeds each of its items at most once, in order, before the rotation resumes. */
    method LookaheadThenTicks(base: seq<Item>, length: Path -> nat, targetSec: nat, pendings: seq<nat>)
      returns (kept: seq<Path>, fed: seq<Fed>, ghost covered: nat, ghost passed: nat)
      modifies this
      ensures InOrder(fed) && BatchOk(fed, old(show), show)
      ensures
        var look := LookFrom(w, length, old(clock), Upcoming(old(Ahead(base)), covered));
        && kept == look.kept
        && FedFrom(w, look.clock, Upcoming(old(Ahead(base)), passed)) == (Paths(fed), clock)
      ensures Same(Ahead(base), Advance(old(Ahead(base)), passed))
      ensures Still(w) && FilesOnly(old(Ahead(base))) ==>
                (kept <= Paths(fed) || Paths(fed) <= kept) && (|fed| >= |kept| ==> kept <= Paths(fed))
    {
      hide Same, Advance, Upcoming, Feedable, ProgrammeOf, Still, FilesOnly, Paths, BatchOk, FedFrom, LookFrom;
      ghost var p := Ahead(base);
      kept, covered := CacheLookahead(base, length, targetSec);
      ghost var started := clock;
      fed, passed := [], 0;
      NothingPassed(w, clock, p);
      NoBatch(show);
      for t := 0 to |pendings|
        invariant Same(Ahead(base), Advance(p, passed))
        invariant BatchOk(fed, old(show), show) && SameShow(old(show))
        invariant FedFrom(w, started, Upcoming(p, passed)) == (Paths(fed), clock)
      {
        ghost var q, was := Ahead(base), show;
        var batch, k := FeedBatch(base, pendings[t]);
        BatchesJoin(fed, batch, old(show), was, show);
        SameUpcoming(q, Advance(p, passed), k);
        UpcomingSplit(p, passed, k);
        SameTrans(Ahead(base), Advance(q, k), Advance(Advance(p, passed), k));
        FedJoin(w, started, Upcoming(p, passed), Upcoming(q, k));
        PathsJoin(fed, batch);
        passed := passed + k;
        fed := fed + batch;
      }
      if Still(w) && FilesOnly(p) {
        StillFeeds(w, started, Upcoming(p, passed));
        LookaheadFollowsFeed(w, p, covered, passed);
      }
      PathsCount(fed);
      BatchInOrder(fed, old(show), show);
    }
  }
}
