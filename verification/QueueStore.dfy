/** The play queue of the engine and its version protocol.

  `Queue` is the value of a `QueueState` object at one moment; the functions say what each
  operation does to that value and the class performs it in place. */
module QueueStore {
  import opened Basics

  datatype Source = Playlist | Show | Manual | Spot | OtherSource

  type Id(==, !new)

  /** A queue entry. Its id is its identity: clients mint a fresh one (a uuid4) for each. */
  datatype Entry = Entry(id: Id, path: Path, source: Source)

  datatype QueueRec = QueueRec(version: int, entries: seq<Entry>, current: int,
                               emergency: bool, forced: bool)

  /** What the state-file validation lets through; `current` is -1 before the first track. */
  type Queue = q: QueueRec | -1 <= q.current <= |q.entries| witness EMPTY_QUEUE

  const EMPTY_QUEUE := QueueRec(0, [], -1, false, false)

  /** Start of the pending part. */
  function Cut(q: Queue): (c: nat)
    ensures c <= |q.entries|
  {
    if q.current + 1 <= |q.entries| then q.current + 1 else |q.entries|
  }

  function Played(q: Queue): seq<Entry> { q.entries[..Cut(q)] }

  function Pending(q: Queue): seq<Entry> { q.entries[Cut(q)..] }

  function Next(q: Queue): Option<Entry> {
    if q.current + 1 < |q.entries| then Some(q.entries[q.current + 1]) else None
  }

  /** The stored index is a real one. The state-file validation also admits the length itself. */
  predicate Sane(q: Queue) { q.current < |q.entries| }

  function Trim(q: Queue, keep: nat): (r: Queue)
    ensures Pending(r) == Pending(q)
    ensures r.current == if q.current <= keep then q.current else keep
    ensures 0 <= q.current < |q.entries| ==> 0 <= r.current < |r.entries| && r.entries[r.current] == q.entries[q.current]
  {
    if q.current <= keep then q
    else
      var drop := q.current - keep;
      q.(entries := q.entries[drop..], current := keep)
  }

  predicate IdsDistinct(s: seq<Entry>) {
    forall i, j :: 0 <= i < j < |s| ==> s[i].id != s[j].id
  }

  function Ids(s: seq<Entry>): set<Id> { set e | e in s :: e.id }

  // ---------------------------------------------------------------- mutations

  datatype QueueOp =
    | Replace(incoming: seq<Entry>)
    | Append(incoming: seq<Entry>)
    | InsertNext(incoming: seq<Entry>)
    | ClearPending
    | Reorder(order: seq<Id>)
    | Remove(ids: set<Id>)
    | UnknownOp

  /** `version` is None when the field is missing or not an integer. */
  datatype Mutation = Mutation(op: QueueOp, version: Option<int>)

  datatype Verdict = Accepted | Stale | Unknown

  function Judge(q: Queue, m: Mutation): Verdict {
    if m.version.None? || m.version.value <= q.version then Stale
    else if m.op.UnknownOp? then Unknown
    else Accepted
  }

  function Without(s: seq<Entry>, ids: set<Id>): seq<Entry> {
    if s == [] then []
    else (if s[0].id in ids then [] else [s[0]]) + Without(s[1..], ids)
  }

  /** The entry a dictionary keyed by id ends up holding: the last one with that id. */
  function ById(s: seq<Entry>, id: Id): Option<Entry> {
    if s == [] then None
    else if s[|s| - 1].id == id then Some(s[|s| - 1])
    else ById(s[..|s| - 1], id)
  }

  function FoundById(s: seq<Entry>, id: Id): seq<Entry> { match ById(s, id) case Some(e) => [e] case None => [] }

  function Named(tail: seq<Entry>, order: seq<Id>): seq<Entry> {
    if order == [] then [] else FoundById(tail, order[0]) + Named(tail, order[1..])
  }

  function Reordered(tail: seq<Entry>, order: seq<Id>): seq<Entry> {
    Named(tail, order) + Without(tail, set i | i in order)
  }

  /** The value of the queue after the mutation `m`. */
  function Mutated(q: Queue, m: Mutation): (r: Queue)
    ensures Sane(q) ==> Sane(r)
    ensures r.emergency == q.emergency && r.forced == q.forced
  {
    if Judge(q, m) != Accepted then q
    else
      var q1 := match m.op
        case Replace(incoming) => q.(entries := incoming, current := -1)
        case Append(incoming) => q.(entries := q.entries + incoming)
        case InsertNext(incoming) => q.(entries := Played(q) + incoming + Pending(q))
        case ClearPending => q.(entries := Played(q))
        case Reorder(order) => q.(entries := Played(q) + Reordered(Pending(q), order))
        case Remove(ids) => q.(entries := Played(q) + Without(Pending(q), ids))
        case UnknownOp => q;
      q1.(version := m.version.value)
  }

  /** The entries a mutation brings in. */
  function Brought(op: QueueOp): seq<Entry> {
    match op
    case Replace(incoming) => incoming
    case Append(incoming) => incoming
    case InsertNext(incoming) => incoming
    case _ => []
  }

  /** The pending entries a mutation is asked to take out. */
  function TakenOut(q: Queue, op: QueueOp): multiset<Entry> {
    match op
    case Replace(_) => multiset(Pending(q))
    case ClearPending => multiset(Pending(q))
    case Remove(ids) => multiset(Pending(q)) - multiset(Without(Pending(q), ids))
    case _ => multiset{}
  }

  /** No pending id is named twice. */
  predicate NamesOnce(tail: seq<Entry>, order: seq<Id>) {
    forall e :: e in tail ==> multiset(order)[e.id] <= 1
  }

  // ---------------------------------------------------------------- reordering

  lemma {:induction false} WithoutCounts(s: seq<Entry>, ids: set<Id>, e: Entry)
    ensures multiset(Without(s, ids))[e] == if e.id in ids then 0 else multiset(s)[e]
  {
    if s != [] {
      assert s == [s[0]] + s[1..];
      WithoutCounts(s[1..], ids, e);
    }
  }

  lemma {:induction false} DistinctCounts(s: seq<Entry>, e: Entry)
    requires IdsDistinct(s) && e in s
    ensures multiset(s)[e] == 1
  {
    assert s == [s[0]] + s[1..];
    if e in s[1..] { DistinctCounts(s[1..], e); }
  }

  lemma {:induction false} ByIdFinds(s: seq<Entry>, id: Id)
    requires IdsDistinct(s)
    ensures ById(s, id).None? <==> id !in Ids(s)
    ensures forall e :: e in s && e.id == id ==> ById(s, id) == Some(e)
    ensures ById(s, id).Some? ==> ById(s, id).value in s && ById(s, id).value.id == id
  {
    if s != [] {
      var t := s[..|s| - 1];
      assert s == t + [s[|s| - 1]];
      ByIdFinds(t, id);
    }
  }

  lemma {:induction false} NamedCounts(tail: seq<Entry>, order: seq<Id>, e: Entry)
    requires IdsDistinct(tail)
    ensures multiset(Named(tail, order))[e] == if e in tail then multiset(order)[e.id] else 0
  {
    if order != [] {
      assert order == [order[0]] + order[1..];
      NamedCounts(tail, order[1..], e);
      ByIdFinds(tail, order[0]);
    }
  }

  /** A reorder keeps exactly the pending entries, if and only if no pending id is named twice;
      otherwise the twice-named entry airs twice. */
  lemma ReorderKeepsEntries(tail: seq<Entry>, order: seq<Id>)
    requires IdsDistinct(tail)
    ensures multiset(Reordered(tail, order)) == multiset(tail) <==> NamesOnce(tail, order)
  {
    var r := Reordered(tail, order);
    forall e: Entry
      ensures e in tail ==> multiset(tail)[e] == 1
      ensures multiset(r)[e] == if e !in tail then 0
                                else if e.id in order then multiset(order)[e.id] else 1
    {
      WithoutCounts(tail, (set i | i in order), e);
      NamedCounts(tail, order, e);
      if e in tail { DistinctCounts(tail, e); }
    }
    if multiset(r) == multiset(tail) {
      forall e | e in tail ensures multiset(order)[e.id] <= 1 {
        assert multiset(r)[e] == 1;
      }
    }
    if NamesOnce(tail, order) {
      forall e: Entry ensures multiset(r)[e] == multiset(tail)[e] {
        if e in tail && e.id in order { assert multiset(order)[e.id] == 1; }
      }
    }
  }

  /** When every pending entry is named once and nothing else is, the result is the order asked for. */
  lemma {:induction false} NamedFollowsOrder(tail: seq<Entry>, order: seq<Id>)
    requires IdsDistinct(tail)
    requires forall i :: i in order ==> i in Ids(tail)
    ensures |Named(tail, order)| == |order|
    ensures forall k :: 0 <= k < |order| ==>
              Named(tail, order)[k].id == order[k] && Named(tail, order)[k] in tail
  {
    if order != [] {
      NamedFollowsOrder(tail, order[1..]);
      ByIdFinds(tail, order[0]);
    }
  }

  /** The smallest failing reorder: one pending entry, named twice, is then pending twice. */
  lemma ReorderCanDuplicate(e: Entry)
    ensures Reordered([e], [e.id, e.id]) == [e, e]
  {
    var order := [e.id, e.id];
    ByIdFinds([e], e.id);
    assert order[1..] == [e.id] && order[1..][1..] == [];
    assert Named([e], order[1..]) == [e] + Named([e], []);
    assert Named([e], order) == [e] + Named([e], order[1..]);
    assert Without([e], set i | i in order) == [] + Without([], set i | i in order);
  }

  /** A queue whose pending part alone was replaced. */
  lemma TailReplaced(q: Queue, r: Queue, tail: seq<Entry>)
    requires Sane(q) && r.current == q.current && r.entries == Played(q) + tail
    ensures Played(r) == Played(q) && Pending(r) == tail
  {
  }

  lemma MutatedParts(q: Queue, m: Mutation)
    requires Sane(q) && Judge(q, m) == Accepted && !m.op.Replace?
    ensures
      var r := Mutated(q, m);
      && Played(r) == Played(q) && r.current == q.current
      && Pending(r) ==
           match m.op
           case Append(incoming) => Pending(q) + incoming
           case InsertNext(incoming) => incoming + Pending(q)
           case Reorder(order) => Reordered(Pending(q), order)
           case Remove(ids) => Without(Pending(q), ids)
           case _ => []
  {
    hide Reordered, Without, Played, Pending;
    var r := Mutated(q, m);
    match m.op
    case Append(incoming) =>
      AppendedQueue(q, incoming);
      TailReplaced(q, r, Pending(q) + incoming);
    case InsertNext(incoming) =>
      assert Played(q) + incoming + Pending(q) == Played(q) + (incoming + Pending(q));
      TailReplaced(q, r, incoming + Pending(q));
    case ClearPending =>
      assert Played(q) + [] == Played(q);
      TailReplaced(q, r, []);
    case Reorder(order) => TailReplaced(q, r, Reordered(Pending(q), order));
    case Remove(ids) => TailReplaced(q, r, Without(Pending(q), ids));
    case _ =>
  }

  lemma AppendedQueue(q: Queue, incoming: seq<Entry>)
    ensures q.entries + incoming == Played(q) + (Pending(q) + incoming)
  {
  }

  lemma MutatedVersion(q: Queue, m: Mutation)
    requires Judge(q, m) == Accepted
    ensures Mutated(q, m).version == m.version.value
  {
  }

  /** What a client may count on. Only a replacement touches what has played or is on air; entries
      inserted next come straight after the entry on air, in their order; appended ones come last; a
      removal takes out exactly the pending entries named; a reorder loses none. */
  lemma PlayedPartImmune(q: Queue, m: Mutation)
    requires Sane(q) && Judge(q, m) == Accepted
    ensures
      var r := Mutated(q, m);
      && r.version == m.version.value
      && (if m.op.Replace? then Played(r) == [] else Played(r) == Played(q) && r.current == q.current)
      && match m.op
         case Replace(incoming) => Pending(r) == incoming
         case Append(incoming) => Pending(r) == Pending(q) + incoming
         case InsertNext(incoming) => Pending(r) == incoming + Pending(q)
         case ClearPending => Pending(r) == []
         case Reorder(order) =>
           IdsDistinct(Pending(q)) ==> forall e :: e in Pending(q) ==> e in Pending(r)
         case Remove(ids) =>
           forall e :: multiset(Pending(r))[e] == if e.id in ids then 0 else multiset(Pending(q))[e]
         case UnknownOp => false
  {
    hide Reordered, Without, IdsDistinct;
    var tail := Pending(q);
    MutatedVersion(q, m);
    if !m.op.Replace? {
      hide Mutated, Pending, Played;
      MutatedParts(q, m);
    }
    match m.op
    case Reorder(order) =>
      if IdsDistinct(tail) { ReorderLosesNone(tail, order); }
    case Remove(ids) =>
      forall e: Entry ensures multiset(Without(tail, ids))[e] == if e.id in ids then 0 else multiset(tail)[e] {
        WithoutCounts(tail, ids, e);
      }
    case _ =>
  }

  lemma ReorderLosesNone(tail: seq<Entry>, order: seq<Id>)
    requires IdsDistinct(tail)
    ensures forall e :: e in tail ==> e in Reordered(tail, order)
  {
    forall e | e in tail ensures e in Reordered(tail, order) {
      NamedCounts(tail, order, e);
      WithoutCounts(tail, (set i | i in order), e);
    }
  }

  // ---------------------------------------------------------------- the order of the pending part

  /** `x` comes before `y` in `s`. */
  predicate Before(s: seq<Entry>, x: Entry, y: Entry) { exists a, b :: 0 <= a < b < |s| && s[a] == x && s[b] == y }

  /** The entries of `t` stand in the order they have in `s`. */
  predicate InOrderOf(s: seq<Entry>, t: seq<Entry>) { forall i, j :: 0 <= i < j < |t| ==> Before(s, t[i], t[j]) }

  /** The id `x` is asked for before the id `y`. */
  predicate AskedBefore(order: seq<Id>, x: Id, y: Id) { exists a, b :: 0 <= a < b < |order| && order[a] == x && order[b] == y }

  predicate OrderDistinct(order: seq<Id>) { forall i, j :: 0 <= i < j < |order| ==> order[i] != order[j] }

  /** The new pending part: the entries asked for come first, in the order asked; the others follow in the
      order they had. */
  predicate FollowsOrder(was: seq<Entry>, order: seq<Id>, now: seq<Entry>) {
    && multiset(now) == multiset(was)
    && forall i, j :: 0 <= i < j < |now| ==>
         if now[j].id in order then now[i].id in order && AskedBefore(order, now[i].id, now[j].id)
         else now[i].id in order || Before(was, now[i], now[j])
  }

  lemma {:induction false} WithoutInOrder(s: seq<Entry>, ids: set<Id>)
    ensures InOrderOf(s, Without(s, ids))
    ensures forall e :: e in Without(s, ids) ==> e in s && e.id !in ids
  {
    if s != [] {
      WithoutInOrder(s[1..], ids);
      var rest, t := Without(s[1..], ids), Without(s, ids);
      forall i, j | 0 <= i < j < |t| ensures Before(s, t[i], t[j]) {
        var d := |t| - |rest|;
        if i >= d {
          assert t[i] == rest[i - d] && t[j] == rest[j - d];
          var a, b :| 0 <= a < b < |s[1..]| && s[1..][a] == t[i] && s[1..][b] == t[j];
          assert s[a + 1] == t[i] && s[b + 1] == t[j];
        } else {
          assert t[i] == s[0] && t[j] == rest[j - 1] && rest[j - 1] in s[1..];
          var b :| 0 <= b < |s[1..]| && s[1..][b] == t[j];
          assert s[0] == t[i] && s[b + 1] == t[j];
        }
      }
    }
  }

  lemma {:induction false} NamedInOrder(tail: seq<Entry>, order: seq<Id>)
    requires IdsDistinct(tail)
    ensures forall e :: e in Named(tail, order) ==> e in tail && e.id in order
    ensures forall i, j :: 0 <= i < j < |Named(tail, order)| ==>
              AskedBefore(order, Named(tail, order)[i].id, Named(tail, order)[j].id)
  {
    if order != [] {
      var first, rest := FoundById(tail, order[0]), Named(tail, order[1..]);
      var t := Named(tail, order);
      ByIdFinds(tail, order[0]);
      NamedInOrder(tail, order[1..]);
      forall i, j | 0 <= i < j < |t| ensures AskedBefore(order, t[i].id, t[j].id) {
        var d := |first|;
        if i >= d {
          assert t[i] == rest[i - d] && t[j] == rest[j - d];
          var a, b :| 0 <= a < b < |order[1..]| && order[1..][a] == t[i].id && order[1..][b] == t[j].id;
          assert order[a + 1] == t[i].id && order[b + 1] == t[j].id;
        } else {
          assert t[i].id == order[0] && t[j] == rest[j - 1] && rest[j - 1] in rest;
          var b :| 0 <= b < |order[1..]| && order[1..][b] == t[j].id;
          assert order[b + 1] == t[j].id;
        }
      }
    }
  }

  lemma {:induction false} DistinctOrder(order: seq<Id>, id: Id)
    requires OrderDistinct(order)
    ensures multiset(order)[id] <= 1
  {
    if order != [] {
      assert order == [order[0]] + order[1..];
      DistinctOrder(order[1..], id);
      if multiset(order[1..])[id] > 0 { assert id in order[1..]; }
    }
  }

  lemma ReorderedFollows(tail: seq<Entry>, order: seq<Id>)
    requires IdsDistinct(tail) && OrderDistinct(order)
    ensures FollowsOrder(tail, order, Reordered(tail, order))
  {
    hide IdsDistinct, OrderDistinct, Before, AskedBefore, Named, Without;
    var asked := set i | i in order;
    var named, rest, t := Named(tail, order), Without(tail, set i | i in order), Reordered(tail, order);
    forall e | e in tail ensures multiset(order)[e.id] <= 1 { DistinctOrder(order, e.id); }
    ReorderKeepsEntries(tail, order);
    NamedInOrder(tail, order);
    WithoutInOrder(tail, asked);
    forall i, j | 0 <= i < j < |t|
      ensures if t[j].id in order then t[i].id in order && AskedBefore(order, t[i].id, t[j].id)
              else t[i].id in order || Before(tail, t[i], t[j]) {
      if i < |named| { assert t[i] in named; } else { assert t[i] == rest[i - |named|] && t[i] in rest; }
      if j < |named| { assert t[j] in named; } else { assert t[j] == rest[j - |named|] && t[j] in rest; }
    }
  }

  /** An accepted reorder of distinct ids does as it is asked: the pending entries it names come first, in
      the order asked; all others follow in the order they had; ids that are not pending change nothing. */
  lemma ReorderFollowsOrder(q: Queue, order: seq<Id>, version: int)
    requires Sane(q) && version > q.version && IdsDistinct(Pending(q)) && OrderDistinct(order)
    ensures
      var r := Mutated(q, Mutation(Reorder(order), Some(version)));
      Played(r) == Played(q) && FollowsOrder(Pending(q), order, Pending(r))
  {
    hide Mutated, Pending, Played, FollowsOrder, Reordered;
    MutatedParts(q, Mutation(Reorder(order), Some(version)));
    ReorderedFollows(Pending(q), order);
  }

  /** An accepted removal leaves the others in the order they had. */
  lemma RemoveKeepsOrder(q: Queue, ids: set<Id>, version: int)
    requires Sane(q) && version > q.version
    ensures
      var r := Mutated(q, Mutation(Remove(ids), Some(version)));
      Played(r) == Played(q) && InOrderOf(Pending(q), Pending(r))
  {
    hide Mutated, Pending, Played, InOrderOf, Without;
    MutatedParts(q, Mutation(Remove(ids), Some(version)));
    WithoutInOrder(Pending(q), ids);
  }

  lemma NextIsFirst(q: Queue)
    requires Sane(q)
    ensures Next(q) == if Pending(q) == [] then None else Some(Pending(q)[0])
  {
  }

  /** Cueing one entry, as the play-next and play-now buttons do, makes it the next to air. */
  lemma CuedIsNext(q: Queue, id: Id, version: int)
    requires Sane(q) && version > q.version && IdsDistinct(Pending(q)) && id in Ids(Pending(q))
    ensures
      var r := Mutated(q, Mutation(Reorder([id]), Some(version)));
      Next(r).Some? && Next(r).value.id == id
  {
    hide Mutated, Pending, IdsDistinct;
    var m := Mutation(Reorder([id]), Some(version));
    var r := Mutated(q, m);
    var was, now := Pending(q), Pending(r);
    ReorderFollowsOrder(q, [id], version);
    MutatedSane(q, m);
    NextIsFirst(r);
    var e :| e in was && e.id == id;
    assert e in multiset(was);
    assert e in multiset(now) && e in now;
    var j :| 0 <= j < |now| && now[j] == e;
    if j > 0 { NothingBeforeOne(id, now[0].id, e.id); }
  }

  lemma NothingBeforeOne(id: Id, x: Id, y: Id)
    ensures !AskedBefore([id], x, y)
  {
  }

  lemma MutatedSane(q: Queue, m: Mutation)
    requires Sane(q)
    ensures Sane(Mutated(q, m))
  {
  }

  /** An appended entry is queued to air exactly when the stored index is a real one. The state-file
      validation also admits an index one past the last entry; an entry appended then is never next. */
  lemma AppendedIsPending(q: Queue, e: Entry, version: int)
    requires version > q.version
    ensures Pending(Mutated(q, Mutation(Append([e]), Some(version)))) == Pending(q) + [e] <==> Sane(q)
  {
    var r := Mutated(q, Mutation(Append([e]), Some(version)));
    if Sane(q) {
      assert Pending(r) == Pending(q) + [e];
    } else {
      assert Cut(r) == |r.entries|;
    }
  }

  // ---------------------------------------------------------------- version protocol

  /** The queue after a sequence of mutations, from any number of clients. */
  function Served(q: Queue, ms: seq<Mutation>): Queue
    decreases |ms|
  {
    if ms == [] then q else Mutated(Served(q, ms[..|ms| - 1]), ms[|ms| - 1])
  }

  predicate NoneAccepted(q: Queue, ms: seq<Mutation>) {
    forall k :: 0 <= k < |ms| ==> Judge(Served(q, ms[..k]), ms[k]) != Accepted
  }

  lemma NoneAcceptedLast(q: Queue, ms: seq<Mutation>)
    requires ms != []
    ensures
      var n := |ms| - 1;
      NoneAccepted(q, ms) <==> NoneAccepted(q, ms[..n]) && Judge(Served(q, ms[..n]), ms[n]) != Accepted
  {
    hide Judge, Served;
    var n := |ms| - 1;
    assert forall k :: 0 <= k < n ==> ms[..n][..k] == ms[..k] && ms[..n][k] == ms[k];
  }

  lemma {:induction false} VersionsGrow(q: Queue, ms: seq<Mutation>)
    ensures q.version <= Served(q, ms).version
    ensures NoneAccepted(q, ms) ==> Served(q, ms) == q
    ensures !NoneAccepted(q, ms) ==> q.version < Served(q, ms).version
  {
    hide NoneAccepted;
    if ms != [] {
      var n := |ms| - 1;
      VersionsGrow(q, ms[..n]);
      NoneAcceptedLast(q, ms);
    } else {
      NoneAcceptedEmpty(q);
    }
  }

  lemma NoneAcceptedEmpty(q: Queue)
    ensures NoneAccepted(q, [])
  {
  }

  /** Compare-and-swap: a known operation sent as the observed version plus one is accepted exactly
      when nobody else's mutation was accepted since that observation, and then it acts on the very
      queue that was observed. */
  lemma CompareAndSwap(observed: Queue, between: seq<Mutation>, op: QueueOp)
    requires !op.UnknownOp?
    ensures
      var m := Mutation(op, Some(observed.version + 1));
      var now := Served(observed, between);
      && (Judge(now, m) == Accepted <==> NoneAccepted(observed, between))
      && (Judge(now, m) == Accepted ==> now == observed)
      && (Judge(now, m) != Accepted ==> Judge(now, m) == Stale && Mutated(now, m) == now)
  {
    VersionsGrow(observed, between);
  }

  // ---------------------------------------------------------------- in place

  class QueueState {
    var queueVersion: int
    var entries: seq<Entry>
    var currentIndex: int
    var emergencyMode: bool
    var forcedEmergency: bool

    ghost predicate Valid() reads this { -1 <= currentIndex <= |entries| }

    ghost function Value(): Queue
      requires Valid()
      reads this
    {
      QueueRec(queueVersion, entries, currentIndex, emergencyMode, forcedEmergency)
    }

    constructor (q: Queue)
      ensures Valid() && Value() == q
    {
      queueVersion, entries, currentIndex := q.version, q.entries, q.current;
      emergencyMode, forcedEmergency := q.emergency, q.forced;
    }

    method NextEntry() returns (e: Option<Entry>)
      requires Valid()
      ensures e == Next(Value())
    {
      var nxt := currentIndex + 1;
      if 0 <= nxt < |entries| { return Some(entries[nxt]); }
      return None;
    }

    method TrimHistory(keep: nat) returns (dropped: nat)
      requires Valid()
      modifies this
      ensures Valid() && Value() == Trim(old(Value()), keep)
      ensures |entries| + dropped == old(|entries|)
    {
      if currentIndex <= keep { return 0; }
      dropped := currentIndex - keep;
      entries := entries[dropped..];
      currentIndex := currentIndex - dropped;
    }

    method ApplyMutation(m: Mutation) returns (verdict: Verdict)
      requires Valid()
      modifies this
      ensures Valid()
      ensures verdict == Judge(old(Value()), m)
      ensures Value() == Mutated(old(Value()), m)
    {
      if m.version.None? || m.version.value <= queueVersion { return Stale; }
      var cut := if currentIndex + 1 < |entries| then currentIndex + 1 else |entries|;
      match m.op {
        case Replace(incoming) =>
          entries := incoming;
          currentIndex := -1;
        case Append(incoming) =>
          entries := entries + incoming;
        case InsertNext(incoming) =>
          entries := entries[..cut] + incoming + entries[cut..];
        case ClearPending =>
          entries := entries[..cut];
        case Reorder(order) =>
          var head, tail := entries[..cut], entries[cut..];
          var named := [];
          for k := 0 to |order|
            invariant unchanged(this)
            invariant named == Named(tail, order[..k])
          {
            NamedSnoc(tail, order[..k], order[k]);
            assert order[..k + 1] == order[..k] + [order[k]];
            named := named + FoundById(tail, order[k]);
          }
          assert order[..|order|] == order;
          entries := head + named + Without(tail, set i | i in order);
          assert entries == head + Reordered(tail, order);
        case Remove(ids) =>
          entries := entries[..cut] + Without(entries[cut..], ids);
        case UnknownOp =>
          return Unknown;
      }
      queueVersion := m.version.value;
      return Accepted;
    }
  }

  lemma {:induction false} NamedSnoc(tail: seq<Entry>, order: seq<Id>, id: Id)
    ensures Named(tail, order + [id]) == Named(tail, order) + FoundById(tail, id)
  {
    hide FoundById;
    var all, last := order + [id], FoundById(tail, id);
    if order == [] {
      assert all[0] == id && all[1..] == [];
      assert last + [] == [] + last;
    } else {
      var head, rest := FoundById(tail, order[0]), Named(tail, order[1..]);
      NamedSnoc(tail, order[1..], id);
      assert all[0] == order[0] && all[1..] == order[1..] + [id];
      assert head + (rest + last) == head + rest + last;
    }
  }
}
