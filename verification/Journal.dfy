/** The engine's play journal and the tailing of it into play history: torn writes, rotation, crashes
  before the offset is saved, and events that must count once. */
module Journal {
  import opened Basics

  type EventId(==, !new)

  /** What ingest looks at in an event. */
  datatype Event = Event(id: EventId, isTrackStart: bool)

  /** The JSON form of events. Nothing is assumed of how garbage parses. */
  datatype Format = Format(encode: Event -> Bytes, parse: Bytes -> Option<Event>)

  // ---------------------------------------------------------------- lines

  /** The first newline at or after `k`, or the end. */
  function NextNewline(s: Bytes, k: nat): (n: nat)
    requires k <= |s|
    ensures k <= n <= |s|
    ensures n < |s| ==> s[n] == NEWLINE
    ensures forall i :: k <= i < n ==> s[i] != NEWLINE
    decreases |s| - k
  {
    if k == |s| || s[k] == NEWLINE then k else NextNewline(s, k + 1)
  }

  /** The complete lines from `k` on, each with its newline; a torn tail is not one. */
  function LinesFrom(s: Bytes, k: nat): seq<Bytes>
    requires k <= |s|
    decreases |s| - k
  {
    var n := NextNewline(s, k);
    if n == |s| then [] else [s[k..n + 1]] + LinesFrom(s, n + 1)
  }

  /** Where the complete lines from `k` on end. */
  function LinesEnd(s: Bytes, k: nat): (e: nat)
    requires k <= |s|
    ensures k <= e <= |s|
    decreases |s| - k
  {
    var n := NextNewline(s, k);
    if n == |s| then k else LinesEnd(s, n + 1)
  }

  /** `k` is where a line starts. */
  predicate Boundary(s: Bytes, k: nat) { k <= |s| && (k == 0 || s[k - 1] == NEWLINE) }

  lemma NextNewlineIs(s: Bytes, k: nat, n: nat)
    requires k <= n <= |s| && (n < |s| ==> s[n] == NEWLINE)
    requires forall i :: k <= i < n ==> s[i] != NEWLINE
    ensures NextNewline(s, k) == n
  {
  }

  lemma {:induction false} LinesEndBoundary(s: Bytes, k: nat)
    requires Boundary(s, k)
    ensures Boundary(s, LinesEnd(s, k)) && LinesFrom(s, LinesEnd(s, k)) == []
    decreases |s| - k
  {
    var n := NextNewline(s, k);
    if n < |s| {
      hide LinesFrom;
      LinesEndBoundary(s, n + 1);
    }
  }

  lemma FirstLine(s: Bytes, i: nat, n: nat)
    requires i <= n < |s| && s[n] == NEWLINE && forall j :: i <= j < n ==> s[j] != NEWLINE
    ensures LinesFrom(s, i) == [s[i..n + 1]] + LinesFrom(s, n + 1)
    ensures LinesEnd(s, i) == LinesEnd(s, n + 1)
  {
    NextNewlineIs(s, i, n);
  }

  lemma FirstLineOfPrefix(s: Bytes, i: nat, n: nat, k: nat)
    requires i <= n < k <= |s| && s[n] == NEWLINE && forall j :: i <= j < n ==> s[j] != NEWLINE
    ensures LinesFrom(s[..k], i) == [s[i..n + 1]] + LinesFrom(s[..k], n + 1)
  {
    hide LinesFrom, LinesEnd;
    FirstLine(s[..k], i, n);
    SliceOfPrefix(s, i, n + 1, k);
  }

  lemma SliceOfPrefix(s: Bytes, i: nat, j: nat, k: nat)
    requires i <= j <= k <= |s|
    ensures s[..k][i..j] == s[i..j]
  {
  }

  lemma NoLinesAtEnd(s: Bytes)
    ensures LinesFrom(s, |s|) == [] && LinesEnd(s, |s|) == |s|
  {
  }

  /** Lines split at any boundary. */
  lemma {:induction false} LinesSplit(s: Bytes, i: nat, k: nat)
    requires i <= k && Boundary(s, k)
    ensures LinesFrom(s, i) == LinesFrom(s[..k], i) + LinesFrom(s, k)
    decreases k - i
  {
    hide LinesFrom;
    if i == k {
      NoLinesAtEnd(s[..k]);
    } else {
      var n := NextNewline(s, i);
      assert n < k;
      FirstLine(s, i, n);
      FirstLineOfPrefix(s, i, n, k);
      LinesSplit(s, n + 1, k);
    }
  }

  // ---------------------------------------------------------------- history

  type History = map<EventId, Event>

  /** History after the lines: each event goes in unless its id is there already. */
  function Stored(f: Format, h: History, lines: seq<Bytes>): History
    decreases |lines|
  {
    if lines == [] then h
    else
      match f.parse(lines[0])
      case Some(e) => Stored(f, if e.id in h then h else h[e.id := e], lines[1..])
      case None => Stored(f, h, lines[1..])
  }

  /** The track starts among the lines that are new to history, in order. */
  function NewStarts(f: Format, h: History, lines: seq<Bytes>): seq<Event>
    decreases |lines|
  {
    if lines == [] then []
    else
      match f.parse(lines[0])
      case Some(e) =>
        (if e.id !in h && e.isTrackStart then [e] else []) +
        NewStarts(f, if e.id in h then h else h[e.id := e], lines[1..])
      case None => NewStarts(f, h, lines[1..])
  }

  /** Every event in the lines has its id in history. */
  predicate Covers(f: Format, h: History, lines: seq<Bytes>) {
    forall i :: 0 <= i < |lines| && f.parse(lines[i]).Some? ==> f.parse(lines[i]).value.id in h
  }

  lemma {:induction false} StoredCovers(f: Format, h: History, lines: seq<Bytes>)
    ensures Covers(f, Stored(f, h, lines), lines)
    ensures forall i :: i in h ==> i in Stored(f, h, lines) && Stored(f, h, lines)[i] == h[i]
    decreases |lines|
  {
    if lines != [] {
      var h1 := match f.parse(lines[0])
        case Some(e) => (if e.id in h then h else h[e.id := e])
        case None => h;
      StoredCovers(f, h1, lines[1..]);
      forall i | 0 <= i < |lines| && f.parse(lines[i]).Some?
        ensures f.parse(lines[i]).value.id in Stored(f, h, lines) {
        if i > 0 { assert lines[1..][i - 1] == lines[i]; }
      }
    }
  }

  predicate DistinctIds(es: seq<Event>) { forall i, j :: 0 <= i < j < |es| ==> es[i].id != es[j].id }

  lemma {:induction false} NewStartsFresh(f: Format, h: History, lines: seq<Bytes>)
    ensures DistinctIds(NewStarts(f, h, lines))
    ensures forall e :: e in NewStarts(f, h, lines) ==>
              e.id !in h && e.isTrackStart && e.id in Stored(f, h, lines) && Stored(f, h, lines)[e.id] == e
    decreases |lines|
  {
    if lines != [] {
      match f.parse(lines[0])
      case Some(e) =>
        var h1 := if e.id in h then h else h[e.id := e];
        NewStartsFresh(f, h1, lines[1..]);
        StoredCovers(f, h1, lines[1..]);
      case None => NewStartsFresh(f, h, lines[1..]);
    }
  }

  /** Surfaced are exactly the track starts that the lines brought into history. */
  lemma {:induction false} NewStartsExactly(f: Format, h: History, lines: seq<Bytes>)
    ensures forall e :: e in NewStarts(f, h, lines) <==>
              e.isTrackStart && e.id !in h && e.id in Stored(f, h, lines) && Stored(f, h, lines)[e.id] == e
    decreases |lines|
  {
    NewStartsFresh(f, h, lines);
    if lines != [] {
      match f.parse(lines[0])
      case Some(first) =>
        var h1 := if first.id in h then h else h[first.id := first];
        NewStartsExactly(f, h1, lines[1..]);
        StoredCovers(f, h1, lines[1..]);
      case None => NewStartsExactly(f, h, lines[1..]);
    }
  }

  /** History gains nothing but events of the lines, each under its own id. */
  lemma {:induction false} StoredOnly(f: Format, h: History, lines: seq<Bytes>)
    ensures forall i :: i in Stored(f, h, lines) && i !in h ==>
              Stored(f, h, lines)[i].id == i &&
              exists k :: 0 <= k < |lines| && f.parse(lines[k]) == Some(Stored(f, h, lines)[i])
    decreases |lines|
  {
    if lines != [] {
      var h1 := match f.parse(lines[0])
        case Some(e) => (if e.id in h then h else h[e.id := e])
        case None => h;
      StoredOnly(f, h1, lines[1..]);
      StoredCovers(f, h1, lines[1..]);
      forall i | i in Stored(f, h, lines) && i !in h
        ensures Stored(f, h, lines)[i].id == i
        ensures exists k :: 0 <= k < |lines| && f.parse(lines[k]) == Some(Stored(f, h, lines)[i]) {
        if i !in h1 {
          var k :| 0 <= k < |lines[1..]| && f.parse(lines[1..][k]) == Some(Stored(f, h1, lines[1..])[i]);
          assert f.parse(lines[k + 1]) == Some(Stored(f, h, lines)[i]);
        }
      }
    }
  }

  // ---------------------------------------------------------------- writer and reader together

  /** `owner` counts the files rotated away when the offset was saved: the file the offset belongs to.
      `surfaced` are the track starts handed to the now-playing push so far. */
  datatype State = State(rotated: seq<Bytes>, active: Bytes, offset: nat, owner: nat,
                         history: History, surfaced: seq<Event>)

  /** What the engine can do to the files, in full generality: whole lines, torn lines and repairs are
      all writes. */
  datatype Action =
    | Write(bytes: Bytes)
    | Rotate
    | Ingest
    | IngestCrash(lines: nat)

  function RotatedLines(rotated: seq<Bytes>): seq<Bytes> {
    if rotated == [] then [] else LinesFrom(rotated[0], 0) + RotatedLines(rotated[1..])
  }

  predicate NoticesRotation(s: State) { |s.active| < s.offset }

  /** Where ingest reads the active file from. */
  function ReadFrom(s: State): nat { if NoticesRotation(s) then 0 else s.offset }

  function OldLines(s: State): seq<Bytes> { if NoticesRotation(s) then RotatedLines(s.rotated) else [] }

  function IngestStep(f: Format, s: State): State {
    var h1 := Stored(f, s.history, OldLines(s));
    var lines := LinesFrom(s.active, ReadFrom(s));
    s.(history := Stored(f, h1, lines),
       surfaced := s.surfaced + NewStarts(f, h1, lines),
       offset := LinesEnd(s.active, ReadFrom(s)), owner := |s.rotated|)
  }

  function Step(f: Format, s: State, act: Action): State {
    match act
    case Write(bytes) => s.(active := s.active + bytes)
    case Rotate => s.(rotated := s.rotated + [s.active], active := [])
    case Ingest => IngestStep(f, s)
    case IngestCrash(n) =>
      // committed line by line; the offset and the list handed to the push die with the process
      var all := OldLines(s) + LinesFrom(s.active, ReadFrom(s));
      s.(history := Stored(f, s.history, if n <= |all| then all[..n] else all))
  }

  /** The file the saved offset is about. */
  function OffsetFile(s: State): Bytes
    requires s.owner <= |s.rotated|
  {
    if s.owner == |s.rotated| then s.active else s.rotated[s.owner]
  }

  /** Whatever was surfaced is a track start held in history, and no two share an id. */
  predicate Told(s: State) {
    && DistinctIds(s.surfaced)
    && forall e :: e in s.surfaced ==> e.isTrackStart && e.id in s.history && s.history[e.id] == e
  }

  predicate Inv(f: Format, s: State) {
    && s.owner <= |s.rotated|
    && Boundary(OffsetFile(s), s.offset)
    && Covers(f, s.history, LinesFrom(OffsetFile(s)[..s.offset], 0))
    && (forall j :: 0 <= j < s.owner ==> Covers(f, s.history, LinesFrom(s.rotated[j], 0)))
    && Told(s)
  }

  /** A rotated-away active file shows by being shorter than the saved offset. */
  predicate Noticed(s: State) { s.owner == |s.rotated| || NoticesRotation(s) }

  /** Every complete line the engine has written, in any file, has its event in history. */
  predicate AllStored(f: Format, s: State) {
    && Covers(f, s.history, LinesFrom(s.active, 0))
    && forall j :: 0 <= j < |s.rotated| ==> Covers(f, s.history, LinesFrom(s.rotated[j], 0))
  }

  lemma CoversMore(f: Format, h: History, h': History, lines: seq<Bytes>)
    requires Covers(f, h, lines) && forall i :: i in h ==> i in h'
    ensures Covers(f, h', lines)
  {
  }

  lemma {:induction false} RotatedCovered(f: Format, h: History, rotated: seq<Bytes>)
    requires Covers(f, h, RotatedLines(rotated))
    ensures forall j :: 0 <= j < |rotated| ==> Covers(f, h, LinesFrom(rotated[j], 0))
  {
    if rotated != [] {
      var first, rest := LinesFrom(rotated[0], 0), RotatedLines(rotated[1..]);
      assert forall i :: 0 <= i < |first| ==> (first + rest)[i] == first[i];
      assert forall i :: 0 <= i < |rest| ==> (first + rest)[|first| + i] == rest[i];
      RotatedCovered(f, h, rotated[1..]);
    }
  }

  lemma WriteInv(f: Format, s: State, bytes: Bytes)
    requires Inv(f, s)
    ensures Inv(f, Step(f, s, Write(bytes)))
  {
    if s.owner == |s.rotated| { assert (s.active + bytes)[..s.offset] == s.active[..s.offset]; }
  }

  lemma RotateInv(f: Format, s: State)
    requires Inv(f, s)
    ensures Inv(f, Step(f, s, Rotate))
  {
  }

  /** The active file after an ingest: read to its last complete line, all of it in history. */
  lemma ActiveRead(f: Format, s: State)
    requires Inv(f, s) && Noticed(s)
    ensures
      var r := IngestStep(f, s);
      && Boundary(s.active, r.offset)
      && Covers(f, r.history, LinesFrom(s.active, 0))
      && Covers(f, r.history, LinesFrom(s.active[..r.offset], 0))
      && forall i :: i in s.history ==> i in r.history && r.history[i] == s.history[i]
  {
    hide Stored, Covers;
    var r := IngestStep(f, s);
    var h1 := Stored(f, s.history, OldLines(s));
    var k := ReadFrom(s);
    var lines := LinesFrom(s.active, k);
    StoredCovers(f, s.history, OldLines(s));
    StoredCovers(f, h1, lines);
    LinesEndBoundary(s.active, k);
    LinesSplit(s.active, 0, r.offset);
    LinesSplit(s.active, 0, k);
    var upTo := LinesFrom(s.active[..r.offset], 0);
    assert upTo == upTo + [] == LinesFrom(s.active, 0);
    if NoticesRotation(s) {
      assert LinesFrom(s.active, 0) == lines;
    } else {
      CoversMore(f, s.history, r.history, LinesFrom(s.active[..k], 0));
      CoversJoin(f, r.history, LinesFrom(s.active[..k], 0), lines);
    }
  }

  /** The rotated files after an ingest that notices: all of them in history. */
  lemma RotatedRead(f: Format, s: State)
    requires Inv(f, s) && Noticed(s)
    ensures
      var r := IngestStep(f, s);
      forall j :: 0 <= j < |s.rotated| ==> Covers(f, r.history, LinesFrom(s.rotated[j], 0))
  {
    hide Stored, Covers;
    var r := IngestStep(f, s);
    var h1 := Stored(f, s.history, OldLines(s));
    StoredCovers(f, s.history, OldLines(s));
    StoredCovers(f, h1, LinesFrom(s.active, ReadFrom(s)));
    if NoticesRotation(s) {
      CoversMore(f, h1, r.history, OldLines(s));
      RotatedCovered(f, r.history, s.rotated);
    } else {
      forall j | 0 <= j < |s.rotated| ensures Covers(f, r.history, LinesFrom(s.rotated[j], 0)) {
        CoversMore(f, s.history, r.history, LinesFrom(s.rotated[j], 0));
      }
    }
  }

  lemma SurfacedOnce(f: Format, s: State)
    requires Told(s)
    ensures Told(IngestStep(f, s))
  {
    hide Covers;
    var h1 := Stored(f, s.history, OldLines(s));
    StoredCovers(f, s.history, OldLines(s));
    StoredCovers(f, h1, LinesFrom(s.active, ReadFrom(s)));
    NewStartsFresh(f, h1, LinesFrom(s.active, ReadFrom(s)));
    var fresh1 := NewStarts(f, h1, LinesFrom(s.active, ReadFrom(s)));
    forall i, j | 0 <= i < j < |s.surfaced + fresh1|
      ensures (s.surfaced + fresh1)[i].id != (s.surfaced + fresh1)[j].id {
      if i < |s.surfaced| <= j {
        assert s.surfaced[i] in s.surfaced && fresh1[j - |s.surfaced|] in fresh1;
      }
    }
  }

  /** An ingest with the writer idle, the rotation being noticed: everything complete is in history, and
      the offset stands on a line boundary of the active file. */
  lemma IngestStoresAll(f: Format, s: State)
    requires Inv(f, s) && Noticed(s)
    ensures Inv(f, Step(f, s, Ingest)) && AllStored(f, Step(f, s, Ingest))
    ensures Step(f, s, Ingest).owner == |s.rotated|
    ensures Boundary(s.active, Step(f, s, Ingest).offset)
  {
    hide Stored, Covers, NewStarts;
    hide Told;
    ActiveRead(f, s);
    RotatedRead(f, s);
    SurfacedOnce(f, s);
  }

  lemma CoversJoin(f: Format, h: History, a: seq<Bytes>, b: seq<Bytes>)
    requires Covers(f, h, a) && Covers(f, h, b)
    ensures Covers(f, h, a + b)
  {
  }

  lemma CrashInv(f: Format, s: State, n: nat)
    requires Inv(f, s)
    ensures Inv(f, Step(f, s, IngestCrash(n)))
  {
    var all := OldLines(s) + LinesFrom(s.active, ReadFrom(s));
    StoredCovers(f, s.history, if n <= |all| then all[..n] else all);
  }

  function Run(f: Format, s: State, acts: seq<Action>): State
    decreases |acts|
  {
    if acts == [] then s else Step(f, Run(f, s, acts[..|acts| - 1]), acts[|acts| - 1])
  }

  /** Each rotation is noticed by the ingest after it. */
  predicate RotationsNoticed(f: Format, s: State, acts: seq<Action>) {
    forall k :: 0 <= k < |acts| && acts[k] == Ingest ==> Noticed(Run(f, s, acts[..k]))
  }

  const EMPTY := State([], [], 0, 0, map[], [])

  lemma StepTold(f: Format, s: State, act: Action)
    requires Told(s)
    ensures Told(Step(f, s, act))
  {
    match act
    case Write(_) =>
    case Rotate =>
    case Ingest => SurfacedOnce(f, s);
    case IngestCrash(n) =>
      var all := OldLines(s) + LinesFrom(s.active, ReadFrom(s));
      StoredCovers(f, s.history, if n <= |all| then all[..n] else all);
  }

  /** Ingested exactly once. Over any run of writes (torn ones and repairs included), rotations, ingests
      and crashes before the offset is saved, no track start is surfaced twice. If every ingest notices the
      rotations before it, the offset stands on a line boundary of the file it belongs to, everything
      before it is in history, and an ingest leaves every complete event in history. */
  lemma {:induction false} IngestedExactlyOnce(f: Format, acts: seq<Action>)
    ensures
      var r := Run(f, EMPTY, acts);
      && Told(r)
      && (RotationsNoticed(f, EMPTY, acts) ==>
            Inv(f, r) && (acts != [] && acts[|acts| - 1] == Ingest ==> AllStored(f, r)))
    decreases |acts|
  {
    hide Told, AllStored, Step, Noticed;
    if acts == [] {
      EmptyInv(f);
    } else {
      var n := |acts| - 1;
      assert forall k :: 0 <= k < n ==> acts[..n][..k] == acts[..k] && acts[..n][k] == acts[k];
      IngestedExactlyOnce(f, acts[..n]);
      var s := Run(f, EMPTY, acts[..n]);
      StepTold(f, s, acts[n]);
      if RotationsNoticed(f, EMPTY, acts) { StepInv(f, s, acts[n]); }
    }
  }

  lemma EmptyInv(f: Format)
    ensures Inv(f, EMPTY)
  {
  }

  lemma StepInv(f: Format, s: State, act: Action)
    requires Inv(f, s) && (act == Ingest ==> Noticed(s))
    ensures Inv(f, Step(f, s, act)) && (act == Ingest ==> AllStored(f, Step(f, s, act)))
  {
    hide Inv, AllStored;
    match act
    case Write(bytes) => WriteInv(f, s, bytes);
    case Rotate => RotateInv(f, s);
    case Ingest => IngestStoresAll(f, s);
    case IngestCrash(k) => CrashInv(f, s, k);
  }

  // ---------------------------------------------------------------- the events themselves

  /** Every complete line of every file, oldest first. */
  function AllLines(s: State): seq<Bytes> { RotatedLines(s.rotated) + LinesFrom(s.active, 0) }

  /** Every event in history is that of some line, under its own id. */
  predicate FromLines(f: Format, h: History, lines: seq<Bytes>) {
    forall i :: i in h ==> h[i].id == i && exists k :: 0 <= k < |lines| && f.parse(lines[k]) == Some(h[i])
  }

  /** Two lines with one id are one event. */
  ghost predicate OneEventPerId(f: Format, lines: seq<Bytes>) {
    forall j, k, d, e ::
      0 <= j < |lines| && f.parse(lines[j]) == Some(d) && 0 <= k < |lines| && f.parse(lines[k]) == Some(e) ==>
        d.id == e.id ==> d == e
  }

  lemma FromMoreLines(f: Format, h: History, lines: seq<Bytes>, more: seq<Bytes>)
    requires FromLines(f, h, lines) && forall l :: l in lines ==> l in more
    ensures FromLines(f, h, more)
  {
    forall i | i in h ensures exists k :: 0 <= k < |more| && f.parse(more[k]) == Some(h[i]) {
      var k :| 0 <= k < |lines| && f.parse(lines[k]) == Some(h[i]);
      assert lines[k] in more;
      var j :| 0 <= j < |more| && more[j] == lines[k];
    }
  }

  lemma StoredFromLines(f: Format, h: History, read: seq<Bytes>, lines: seq<Bytes>)
    requires FromLines(f, h, lines) && forall l :: l in read ==> l in lines
    ensures FromLines(f, Stored(f, h, read), lines)
  {
    var r := Stored(f, h, read);
    StoredOnly(f, h, read);
    StoredCovers(f, h, read);
    forall i | i in r ensures r[i].id == i && exists k :: 0 <= k < |lines| && f.parse(lines[k]) == Some(r[i]) {
      if i !in h {
        var k :| 0 <= k < |read| && f.parse(read[k]) == Some(r[i]);
        assert read[k] in lines;
        var j :| 0 <= j < |lines| && lines[j] == read[k];
      }
    }
  }

  /** What an ingest reads, when it notices, are lines of the files. */
  lemma ReadsLines(f: Format, s: State)
    requires Inv(f, s) && Noticed(s)
    ensures forall l :: l in OldLines(s) + LinesFrom(s.active, ReadFrom(s)) ==> l in AllLines(s)
  {
    hide Covers, Told;
    if !NoticesRotation(s) { LinesSplit(s.active, 0, s.offset); }
  }

  lemma {:induction false} RotatedJoin(rotated: seq<Bytes>, last: Bytes)
    ensures RotatedLines(rotated + [last]) == RotatedLines(rotated) + LinesFrom(last, 0)
  {
    if rotated == [] {
      assert [last][1..] == [] && [] + [last] == [last];
    } else {
      assert (rotated + [last])[1..] == rotated[1..] + [last];
      RotatedJoin(rotated[1..], last);
    }
  }

  lemma WrittenLines(s: Bytes, bytes: Bytes)
    ensures LinesFrom(s, 0) <= LinesFrom(s + bytes, 0)
  {
    var k := LinesEnd(s, 0);
    LinesEndBoundary(s, 0);
    LinesSplit(s, 0, k);
    LinesSplit(s + bytes, 0, k);
    assert (s + bytes)[..k] == s[..k];
  }

  lemma StepFromLines(f: Format, s: State, act: Action)
    requires Inv(f, s) && FromLines(f, s.history, AllLines(s))
    requires act == Ingest || act.IngestCrash? ==> Noticed(s)
    ensures FromLines(f, Step(f, s, act).history, AllLines(Step(f, s, act)))
  {
    hide Inv, FromLines, Noticed, Stored, LinesFrom;
    var lines := LinesFrom(s.active, ReadFrom(s));
    var all := OldLines(s) + lines;
    match act
    case Write(bytes) =>
      WrittenLines(s.active, bytes);
      FromMoreLines(f, s.history, AllLines(s), AllLines(Step(f, s, act)));
    case Rotate =>
      RotatedJoin(s.rotated, s.active);
      EmptyFile();
      assert AllLines(Step(f, s, act)) == AllLines(s);
    case Ingest =>
      ReadsLines(f, s);
      assert forall l :: l in OldLines(s) ==> l in all;
      assert forall l :: l in lines ==> l in all;
      StoredFromLines(f, s.history, OldLines(s), AllLines(s));
      StoredFromLines(f, Stored(f, s.history, OldLines(s)), lines, AllLines(s));
    case IngestCrash(n) =>
      ReadsLines(f, s);
      StoredFromLines(f, s.history, if n <= |all| then all[..n] else all, AllLines(s));
  }

  lemma EmptyFile()
    ensures LinesFrom([], 0) == []
  {
  }

  /** Each rotation is noticed by whatever reads next, finished or not. */
  predicate ReadsNoticed(f: Format, s: State, acts: seq<Action>) {
    forall k :: 0 <= k < |acts| && (acts[k] == Ingest || acts[k].IngestCrash?) ==> Noticed(Run(f, s, acts[..k]))
  }

  lemma {:induction false} RunFromLines(f: Format, acts: seq<Action>)
    requires ReadsNoticed(f, EMPTY, acts)
    ensures Inv(f, Run(f, EMPTY, acts))
    ensures FromLines(f, Run(f, EMPTY, acts).history, AllLines(Run(f, EMPTY, acts)))
    decreases |acts|
  {
    hide Inv, Step, Noticed, AllLines;
    if acts == [] {
      EmptyInv(f);
    } else {
      var n := |acts| - 1;
      assert forall k :: 0 <= k < n ==> acts[..n][..k] == acts[..k] && acts[..n][k] == acts[k];
      RunFromLines(f, acts[..n]);
      StepInv(f, Run(f, EMPTY, acts[..n]), acts[n]);
      StepFromLines(f, Run(f, EMPTY, acts[..n]), acts[n]);
    }
  }

  /** With one event per id, an ingest leaves history holding, for each complete line of each file, that
      line's own event; and it holds nothing else. */
  lemma HistoryIsTheLines(f: Format, acts: seq<Action>)
    requires ReadsNoticed(f, EMPTY, acts) && acts != [] && acts[|acts| - 1] == Ingest
    requires OneEventPerId(f, AllLines(Run(f, EMPTY, acts)))
    ensures
      var r := Run(f, EMPTY, acts);
      forall e: Event :: e.id in r.history && r.history[e.id] == e <==>
                  exists k :: 0 <= k < |AllLines(r)| && f.parse(AllLines(r)[k]) == Some(e)
  {
    hide Run, Noticed, AllLines, LinesFrom;
    var r := Run(f, EMPTY, acts);
    IngestedExactlyOnce(f, acts);
    RunFromLines(f, acts);
    AllCovered(f, r);
    var lines := AllLines(r);
    forall e, k | 0 <= k < |lines| && f.parse(lines[k]) == Some(e)
      ensures e.id in r.history && r.history[e.id] == e {
      var j :| 0 <= j < |lines| && f.parse(lines[j]) == Some(r.history[e.id]);
    }
  }

  lemma AllCovered(f: Format, s: State)
    requires AllStored(f, s)
    ensures Covers(f, s.history, AllLines(s))
  {
    hide LinesFrom, Covers;
    RotatedCovers(f, s.history, s.rotated);
    CoversJoin(f, s.history, RotatedLines(s.rotated), LinesFrom(s.active, 0));
  }

  lemma {:induction false} RotatedCovers(f: Format, h: History, rotated: seq<Bytes>)
    requires forall j :: 0 <= j < |rotated| ==> Covers(f, h, LinesFrom(rotated[j], 0))
    ensures Covers(f, h, RotatedLines(rotated))
  {
    hide LinesFrom;
    if rotated != [] {
      RotatedCovers(f, h, rotated[1..]);
      CoversJoin(f, h, LinesFrom(rotated[0], 0), RotatedLines(rotated[1..]));
    }
  }

  // ---------------------------------------------------------------- what is surfaced

  /** An ingest surfaces exactly the track starts that the active file's unread lines brought into history;
      those of rotated files, which are old, it does not. */
  lemma IngestSurfaces(f: Format, s: State)
    ensures
      var r := Step(f, s, Ingest);
      var known := Stored(f, s.history, OldLines(s));
      && s.surfaced <= r.surfaced
      && forall e :: e in r.surfaced[|s.surfaced|..] <==>
           e.isTrackStart && e.id !in known && e.id in r.history && r.history[e.id] == e
  {
    hide Stored, NewStarts;
    var known := Stored(f, s.history, OldLines(s));
    var lines := LinesFrom(s.active, ReadFrom(s));
    NewStartsExactly(f, known, lines);
    assert Step(f, s, Ingest).surfaced[|s.surfaced|..] == NewStarts(f, known, lines);
  }

  /** A track start written to a journal read to its end is surfaced by the next ingest, the one new event
      in it, and is in history. */
  lemma FreshStartSurfaces(f: Format, s: State, line: Bytes, e: Event)
    requires Inv(f, s) && s.owner == |s.rotated| && s.offset == |s.active|
    requires |line| > 0 && line[|line| - 1] == NEWLINE && NEWLINE !in line[..|line| - 1]
    requires f.parse(line) == Some(e) && e.isTrackStart && e.id !in s.history
    ensures
      var r := Step(f, Step(f, s, Write(line)), Ingest);
      r.surfaced == s.surfaced + [e] && r.history == s.history[e.id := e]
  {
    hide Inv, LinesFrom, LinesEnd;
    var s1 := Step(f, s, Write(line));
    OffsetAtEnd(f, s);
    TailLine(s.active, line);
    assert OldLines(s1) == [];
    assert Stored(f, s.history, []) == s.history;
    assert [line][1..] == [];
    assert Stored(f, s.history, [line]) == s.history[e.id := e];
    assert NewStarts(f, s.history, [line]) == [e];
  }

  lemma OffsetAtEnd(f: Format, s: State)
    requires Inv(f, s) && s.owner == |s.rotated| && s.offset == |s.active|
    ensures Boundary(s.active, |s.active|)
  {
  }

  /** A whole line written after a boundary is the one line there is from there on. */
  lemma TailLine(s: Bytes, line: Bytes)
    requires Boundary(s, |s|) && |line| > 0 && line[|line| - 1] == NEWLINE && NEWLINE !in line[..|line| - 1]
    ensures LinesFrom(s + line, |s|) == [line]
  {
    var all := s + line;
    assert forall i :: |s| <= i < |all| - 1 ==> all[i] == line[..|line| - 1][i - |s|];
    FirstLine(all, |s|, |all| - 1);
    NoLinesAtEnd(all);
    assert all[|s|..|all|] == line;
  }

  // ---------------------------------------------------------------- what an unnoticed rotation costs

  /** The lines an ingest passes over when a rotation went unnoticed: the rest of the file the offset
      belongs to, the files rotated away since, and the active file from its start. */
  function PassedOver(s: State): seq<Bytes>
    requires s.owner < |s.rotated| && s.offset <= |s.rotated[s.owner]|
  {
    LinesFrom(s.rotated[s.owner], s.offset) + RotatedLines(s.rotated[s.owner + 1..]) + LinesFrom(s.active, 0)
  }

  /** The event of some line of `lines` has this id. */
  predicate IdAmong(f: Format, lines: seq<Bytes>, id: EventId) {
    exists k :: 0 <= k < |lines| && f.parse(lines[k]).Some? && f.parse(lines[k]).value.id == id
  }

  /** What an unnoticed rotation costs, exactly: everything complete is in history after the ingest if and
      only if each event passed over has its id in history already, or in the lines read from the offset. */
  lemma UnnoticedCosts(f: Format, s: State)
    requires Inv(f, s) && !Noticed(s)
    ensures
      AllStored(f, Step(f, s, Ingest)) <==>
        forall e, k :: 0 <= k < |PassedOver(s)| && f.parse(PassedOver(s)[k]) == Some(e) ==>
          e.id in s.history || IdAmong(f, LinesFrom(s.active, s.offset), e.id)
  {
    hide LinesFrom, Stored, Covers, Told, AllStored;
    var r := Step(f, s, Ingest);
    var read, over := LinesFrom(s.active, s.offset), PassedOver(s);
    NothingOld(f, s);
    StoredIds(f, s.history, read);
    CoveredExactly(f, s);
    CoversIds(f, r.history, over);
  }

  lemma NothingOld(f: Format, s: State)
    requires Inv(f, s) && !Noticed(s)
    ensures Step(f, s, Ingest).history == Stored(f, s.history, LinesFrom(s.active, s.offset))
  {
    hide LinesFrom;
  }

  lemma StoredIds(f: Format, h: History, lines: seq<Bytes>)
    ensures forall i :: i in Stored(f, h, lines) <==> i in h || IdAmong(f, lines, i)
  {
    StoredCovers(f, h, lines);
    StoredOnly(f, h, lines);
  }

  lemma CoversIds(f: Format, h: History, lines: seq<Bytes>)
    ensures Covers(f, h, lines) <==>
              forall e, k :: 0 <= k < |lines| && f.parse(lines[k]) == Some(e) ==> e.id in h
  {
  }

  lemma CoversParts(f: Format, h: History, a: seq<Bytes>, b: seq<Bytes>)
    ensures Covers(f, h, a + b) <==> Covers(f, h, a) && Covers(f, h, b)
  {
    assert forall i :: 0 <= i < |a| ==> (a + b)[i] == a[i];
    assert forall i :: 0 <= i < |b| ==> (a + b)[|a| + i] == b[i];
  }

  /** Everything complete is in history exactly when the lines passed over are. */
  lemma CoveredExactly(f: Format, s: State)
    requires Inv(f, s) && !Noticed(s)
    ensures AllStored(f, Step(f, s, Ingest)) <==> Covers(f, Step(f, s, Ingest).history, PassedOver(s))
  {
    hide LinesFrom, Stored, Covers, Told;
    var h := Step(f, s, Ingest).history;
    var file, later := s.rotated[s.owner], s.rotated[s.owner + 1..];
    NothingOld(f, s);
    StoredCovers(f, s.history, LinesFrom(s.active, s.offset));
    forall j | 0 <= j < s.owner ensures Covers(f, h, LinesFrom(s.rotated[j], 0)) {
      CoversMore(f, s.history, h, LinesFrom(s.rotated[j], 0));
    }
    CoversMore(f, s.history, h, LinesFrom(file[..s.offset], 0));
    LinesSplit(file, 0, s.offset);
    CoversParts(f, h, LinesFrom(file[..s.offset], 0), LinesFrom(file, s.offset));
    CoversParts(f, h, LinesFrom(file, s.offset), RotatedLines(later));
    CoversParts(f, h, LinesFrom(file, s.offset) + RotatedLines(later), LinesFrom(s.active, 0));
    if Covers(f, h, RotatedLines(later)) { RotatedCovered(f, h, later); }
    if forall j :: 0 <= j < |later| ==> Covers(f, h, LinesFrom(later[j], 0)) { RotatedCovers(f, h, later); }
    assert forall j :: s.owner < j < |s.rotated| ==> s.rotated[j] == later[j - s.owner - 1];
    assert forall j :: 0 <= j < |later| ==> later[j] == s.rotated[s.owner + 1 + j];
  }

  /** The smallest such loss: the first event of the new file, which has grown to the saved offset. */
  lemma UnnoticedRotationSkips(f: Format, one: Bytes, two: Bytes, e: Event)
    requires |one| > 0 && one[|one| - 1] == NEWLINE && NEWLINE !in one[..|one| - 1]
    requires |two| == |one| && two[|two| - 1] == NEWLINE && NEWLINE !in two[..|two| - 1]
    requires f.parse(one).None? && f.parse(two) == Some(e)
    ensures
      var acts := [Write(one), Ingest, Rotate, Write(two)];
      var s := Run(f, EMPTY, acts);
      !Noticed(s) && e.id !in Step(f, s, Ingest).history
  {
    hide Covers, AllStored, Inv, Stored, NewStarts, LinesFrom, LinesEnd;
    NothingStored(f, map[]);
    OneLine(one);
    OneLine(two);
    NoLinesAtEnd(two);
    var s1 := EMPTY.(active := one);
    var s2 := s1.(offset := |one|);
    var s4 := s2.(rotated := [one], active := two);
    var acts := [Write(one), Ingest, Rotate, Write(two)];
    assert [] + one == one && [] + two == two;
    assert Step(f, EMPTY, Write(one)) == s1;
    Unparsed(f, map[], one);
    assert Step(f, s1, Ingest) == s2;
    assert Step(f, Step(f, s2, Rotate), Write(two)) == s4;
    RunFour(f, EMPTY, acts);
    assert Step(f, s4, Ingest).history == map[];
  }

  lemma NothingStored(f: Format, h: History)
    ensures Stored(f, h, []) == h && NewStarts(f, h, []) == []
  {
  }

  lemma Unparsed(f: Format, h: History, line: Bytes)
    requires f.parse(line).None?
    ensures Stored(f, h, [line]) == h && NewStarts(f, h, [line]) == []
  {
  }

  lemma OneLine(line: Bytes)
    requires |line| > 0 && line[|line| - 1] == NEWLINE && NEWLINE !in line[..|line| - 1]
    ensures LinesFrom(line, 0) == [line] && LinesEnd(line, 0) == |line|
  {
    assert forall j :: 0 <= j < |line| - 1 ==> line[j] == line[..|line| - 1][j];
    FirstLine(line, 0, |line| - 1);
    NoLinesAtEnd(line);
    assert line[0..|line|] == line;
  }

  lemma RunFour(f: Format, s: State, acts: seq<Action>)
    requires |acts| == 4
    ensures Run(f, s, acts) == Step(f, Step(f, Step(f, Step(f, s, acts[0]), acts[1]), acts[2]), acts[3])
  {
    hide Step;
    assert acts[..3][..2] == acts[..2] && acts[..2][..1] == acts[..1] && acts[..1][..0] == [];
    assert Run(f, s, acts[..1]) == Step(f, s, acts[0]);
    assert Run(f, s, acts[..2]) == Step(f, Run(f, s, acts[..1]), acts[1]);
    assert Run(f, s, acts[..3]) == Step(f, Run(f, s, acts[..2]), acts[2]);
  }

  // ---------------------------------------------------------------- the engine's side

  /** The engine's journal: an active file and the files rotated away. */
  class JournalFile {
    const f: Format
    const maxBytes: nat
    var active: Bytes
    var rotated: seq<Bytes>

    /** Opening an existing file ends a torn last line, so that the next event gets a line of its own. */
    constructor (f: Format, maxBytes: nat, found: Bytes, rotated: seq<Bytes>)
      ensures this.f == f && this.maxBytes == maxBytes && this.rotated == rotated
      ensures active == if Boundary(found, |found|) then found else found + [NEWLINE]
      ensures Boundary(active, |active|)
    {
      this.f, this.maxBytes, this.rotated := f, maxBytes, rotated;
      this.active := if |found| > 0 && found[|found| - 1] != NEWLINE then found + [NEWLINE] else found;
    }

    /** One event, one line; the file rotates when it has reached its limit. */
    method Append(e: Event)
      requires Boundary(active, |active|) && NEWLINE !in f.encode(e)
      modifies this`active, this`rotated
      ensures Boundary(active, |active|)
      ensures
        var line := f.encode(e) + [NEWLINE];
        var grown := old(active) + line;
        && LinesFrom(grown, 0) == LinesFrom(old(active), 0) + [line]
        && if |grown| >= maxBytes then active == [] && rotated == old(rotated) + [grown]
           else active == grown && rotated == old(rotated)
    {
      var line := f.encode(e) + [NEWLINE];
      LineAdded(active, line);
      active := active + line;
      if |active| >= maxBytes { RotateFile(); }
    }

    method RotateFile()
      modifies this`active, this`rotated
      ensures active == [] && rotated == old(rotated) + [old(active)]
    {
      rotated := rotated + [active];
      active := [];
    }
  }

  lemma LineAdded(s: Bytes, line: Bytes)
    requires Boundary(s, |s|) && |line| > 0 && line[|line| - 1] == NEWLINE && NEWLINE !in line[..|line| - 1]
    ensures LinesFrom(s + line, 0) == LinesFrom(s, 0) + [line]
    ensures Boundary(s + line, |s + line|)
  {
    var all := s + line;
    LinesSplit(all, 0, |s|);
    assert all[..|s|] == s;
    forall i | |s| <= i < |all| - 1 ensures all[i] != NEWLINE {
      assert all[i] == line[..|line| - 1][i - |s|];
    }
    NextNewlineIs(all, |s|, |all| - 1);
    assert all[|s|..|all|] == line;
    assert LinesFrom(all, |all|) == [];
  }

  // ---------------------------------------------------------------- the reader's side

  function WithEvent(f: Format, h: History, line: Bytes): History {
    match f.parse(line)
    case Some(e) => if e.id in h then h else h[e.id := e]
    case None => h
  }

  function StartOf(f: Format, h: History, line: Bytes): seq<Event> {
    match f.parse(line)
    case Some(e) => if e.id !in h && e.isTrackStart then [e] else []
    case None => []
  }

  lemma TakeLine(f: Format, h: History, s: Bytes, i: nat)
    requires i <= |s| && NextNewline(s, i) < |s|
    ensures
      var n := NextNewline(s, i);
      var h1 := WithEvent(f, h, s[i..n + 1]);
      && LinesEnd(s, i) == LinesEnd(s, n + 1)
      && Stored(f, h, LinesFrom(s, i)) == Stored(f, h1, LinesFrom(s, n + 1))
      && NewStarts(f, h, LinesFrom(s, i)) == StartOf(f, h, s[i..n + 1]) + NewStarts(f, h1, LinesFrom(s, n + 1))
  {
    var n := NextNewline(s, i);
    FirstLine(s, i, n);
    assert LinesFrom(s, i)[1..] == LinesFrom(s, n + 1);
  }

  lemma NoLineLeft(f: Format, h: History, s: Bytes, i: nat)
    requires i <= |s| && NextNewline(s, i) == |s|
    ensures LinesEnd(s, i) == i && Stored(f, h, LinesFrom(s, i)) == h && NewStarts(f, h, LinesFrom(s, i)) == []
  {
  }

  /** One line taken in: stored unless its id is there, and surfaced if it is a new track start. */
  method TakeIn(f: Format, raw: Bytes, history: History, surface: bool)
    returns (h: History, events: seq<Event>)
    ensures h == WithEvent(f, history, raw)
    ensures events == if surface then StartOf(f, history, raw) else []
  {
    h, events := history, [];
    var parsed := f.parse(raw);
    if parsed.Some? {
      var e := parsed.value;
      if e.id !in h {
        h := h[e.id := e];
        if surface && e.isTrackStart { events := [e]; }
      }
    }
  }

  /** The ingest of one file from an offset, line by line; a torn tail waits for the next pass. */
  method IngestLines(f: Format, s: Bytes, from: nat, history: History, surface: bool)
    returns (offset: nat, h: History, events: seq<Event>)
    requires from <= |s|
    ensures offset == LinesEnd(s, from)
    ensures h == Stored(f, history, LinesFrom(s, from))
    ensures events == if surface then NewStarts(f, history, LinesFrom(s, from)) else []
  {
    hide LinesEnd, LinesFrom, Stored, NewStarts, WithEvent, StartOf;
    offset, h, events := from, history, [];
    while true
      invariant from <= offset <= |s|
      invariant LinesEnd(s, offset) == LinesEnd(s, from)
      invariant Stored(f, h, LinesFrom(s, offset)) == Stored(f, history, LinesFrom(s, from))
      invariant if surface then events + NewStarts(f, h, LinesFrom(s, offset)) == NewStarts(f, history, LinesFrom(s, from))
                else events == []
      decreases |s| - offset
    {
      var n := NextNewline(s, offset);
      if n == |s| {
        NoLineLeft(f, h, s, offset);
        break;
      }
      TakeLine(f, h, s, offset);
      var raw := s[offset..n + 1];
      var found: seq<Event>;
      offset := n + 1;
      h, found := TakeIn(f, raw, h, surface);
      events := events + found;
    }
  }

  class JournalReader {
    var offset: nat
    var history: History
    var surfaced: seq<Event>
    ghost var owner: nat

    ghost function Model(rotated: seq<Bytes>, active: Bytes): State
      reads this
    {
      State(rotated, active, offset, owner, history, surfaced)
    }

    /** One pass over the engine's files. */
    method IngestJournal(f: Format, rotated: seq<Bytes>, active: Bytes)
      modifies this
      ensures Model(rotated, active) == IngestStep(f, old(Model(rotated, active)))
    {
      ghost var before := Model(rotated, active);
      var from := offset;
      if |active| < offset {
        // rotated out from under us: take in the rotated files first, none of it for the push
        for i := 0 to |rotated|
          invariant Stored(f, history, RotatedLines(rotated[i..])) == Stored(f, old(history), RotatedLines(rotated))
          invariant offset == old(offset) && surfaced == old(surfaced) && owner == old(owner)
        {
          var _, h, _ := IngestLines(f, rotated[i], 0, history, false);
          assert rotated[i..][1..] == rotated[i + 1..];
          StoredJoin(f, history, LinesFrom(rotated[i], 0), RotatedLines(rotated[i + 1..]));
          history := h;
        }
        assert rotated[|rotated|..] == [];
        from := 0;
      }
      var end, h, events := IngestLines(f, active, from, history, true);
      offset, history, surfaced, owner := end, h, surfaced + events, |rotated|;
    }
  }

  lemma {:induction false} StoredJoin(f: Format, h: History, a: seq<Bytes>, b: seq<Bytes>)
    ensures Stored(f, h, a + b) == Stored(f, Stored(f, h, a), b)
    decreases |a|
  {
    if a == [] {
      assert a + b == b;
    } else {
      assert (a + b)[1..] == a[1..] + b;
      match f.parse(a[0])
      case Some(e) => StoredJoin(f, if e.id in h then h else h[e.id := e], a[1..], b);
      case None => StoredJoin(f, h, a[1..], b);
    }
  }
}
