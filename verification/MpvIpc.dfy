/** The line protocol to a player: newline framing of a byte stream that arrives in chunks, and the
  matching of replies to the callers waiting for them. */
module MpvIpc {
  import opened Basics

  // ---------------------------------------------------------------- framing

  function FirstNewline(s: Bytes): (n: nat)
    ensures n <= |s| && (n < |s| ==> s[n] == NEWLINE)
    ensures forall i :: 0 <= i < n ==> s[i] != NEWLINE
  {
    if s == [] || s[0] == NEWLINE then 0 else 1 + FirstNewline(s[1..])
  }

  /** The complete lines of a stream, without their newlines. */
  function Lines(s: Bytes): seq<Bytes>
    decreases |s|
  {
    var n := FirstNewline(s);
    if n == |s| then [] else [s[..n]] + Lines(s[n + 1..])
  }

  /** What follows the last newline. */
  function Remainder(s: Bytes): Bytes
    decreases |s|
  {
    var n := FirstNewline(s);
    if n == |s| then s else Remainder(s[n + 1..])
  }

  function Joined(lines: seq<Bytes>): Bytes {
    if lines == [] then [] else lines[0] + [NEWLINE] + Joined(lines[1..])
  }

  lemma FirstNewlineIs(s: Bytes, n: nat)
    requires n <= |s| && (n < |s| ==> s[n] == NEWLINE) && forall i :: 0 <= i < n ==> s[i] != NEWLINE
    ensures FirstNewline(s) == n
  {
  }

  lemma LinesOf(s: Bytes, n: nat)
    requires n < |s| && s[n] == NEWLINE && forall i :: 0 <= i < n ==> s[i] != NEWLINE
    ensures Lines(s) == [s[..n]] + Lines(s[n + 1..]) && Remainder(s) == Remainder(s[n + 1..])
  {
    FirstNewlineIs(s, n);
  }

  lemma NoLines(s: Bytes)
    requires FirstNewline(s) == |s|
    ensures Lines(s) == [] && Remainder(s) == s && NEWLINE !in s
  {
  }

  lemma JoinedFirst(line: Bytes, rest: seq<Bytes>, tail: Bytes)
    ensures Joined([line] + rest) + tail == line + [NEWLINE] + (Joined(rest) + tail)
  {
    assert ([line] + rest)[1..] == rest;
  }

  /** The split loses nothing. */
  lemma {:induction false} LinesRebuild(s: Bytes)
    ensures Joined(Lines(s)) + Remainder(s) == s
    decreases |s|
  {
    hide Lines, Remainder, Joined;
    var n := FirstNewline(s);
    if n < |s| {
      var rest := s[n + 1..];
      LinesOf(s, n);
      LinesRebuild(rest);
      JoinedFirst(s[..n], Lines(rest), Remainder(rest));
      assert s == s[..n] + [NEWLINE] + rest;
    } else {
      NoLines(s);
      NothingJoined();
      assert [] + s == s;
    }
  }

  lemma NothingJoined()
    ensures Joined([]) == []
  {
  }

  /** No line, and no remainder, holds a newline. */
  lemma {:induction false} LinesHoldNoNewline(s: Bytes)
    ensures NEWLINE !in Remainder(s) && forall l :: l in Lines(s) ==> NEWLINE !in l
    decreases |s|
  {
    hide Lines, Remainder;
    var n := FirstNewline(s);
    if n < |s| {
      LinesOf(s, n);
      LinesHoldNoNewline(s[n + 1..]);
    } else {
      NoLines(s);
    }
  }

  /** Reading on from what was left gives what reading everything at once would have given. */
  lemma {:induction false} LinesResume(s: Bytes, more: Bytes)
    ensures Lines(s + more) == Lines(s) + Lines(Remainder(s) + more)
    ensures Remainder(s + more) == Remainder(Remainder(s) + more)
    decreases |s|
  {
    hide Lines, Remainder;
    var n := FirstNewline(s);
    if n < |s| {
      var all := s + more;
      LinesOf(s, n);
      LinesOf(all, n);
      assert all[..n] == s[..n] && all[n + 1..] == s[n + 1..] + more;
      LinesResume(s[n + 1..], more);
    } else {
      NoLines(s);
    }
  }

  // ---------------------------------------------------------------- correlation

  datatype Message = Reply(requestId: nat, data: int) | PlayerEvent | Unparseable

  /** A caller's waiter: woken or not, and what it was woken with (None: the connection closed). */
  datatype Waiter = Waiter(woken: bool, resp: Option<Message>)

  /** `exits` counts how often each waiter left the pending table; bookkeeping of the model only. */
  datatype Table = Table(next: nat, pending: set<nat>, waiters: map<nat, Waiter>, exits: map<nat, nat>)

  const EMPTY_TABLE := Table(1, {}, map[], map[])

  function Issue(t: Table): Table {
    t.(next := t.next + 1, pending := t.pending + {t.next},
       waiters := t.waiters[t.next := Waiter(false, None)], exits := t.exits[t.next := 0])
  }

  function Exit(t: Table, id: nat): Table {
    if id in t.pending && id in t.exits then
      t.(pending := t.pending - {id}, exits := t.exits[id := t.exits[id] + 1])
    else t
  }

  function Dispatch(t: Table, m: Message): Table {
    match m
    case Reply(id, _) =>
      if id in t.pending then Exit(t, id).(waiters := t.waiters[id := Waiter(true, Some(m))]) else t
    case _ => t
  }

  /** The connection is gone: every waiter is woken empty-handed. */
  function FailAll(t: Table): Table {
    t.(pending := {},
       waiters := map id | id in t.waiters :: if id in t.pending then Waiter(true, None) else t.waiters[id],
       exits := map id | id in t.exits :: if id in t.pending then t.exits[id] + 1 else t.exits[id])
  }

  datatype Action = IssueCommand | Receive(m: Message) | GiveUp(id: nat) | Close

  function Step(t: Table, act: Action): Table {
    match act
    case IssueCommand => Issue(t)
    case Receive(m) => Dispatch(t, m)
    case GiveUp(id) => Exit(t, id)
    case Close => FailAll(t)
  }

  function Run(t: Table, acts: seq<Action>): Table
    decreases |acts|
  {
    if acts == [] then t else Step(Run(t, acts[..|acts| - 1]), acts[|acts| - 1])
  }

  /** Each waiter is either pending, never woken and never gone, or it left exactly once; and what it was
      woken with bears its own id. */
  predicate Consistent(t: Table) {
    && t.waiters.Keys == t.exits.Keys
    && t.pending <= t.waiters.Keys
    && (forall id :: id in t.waiters ==> id < t.next)
    && (forall id :: id in t.waiters ==> t.exits[id] == if id in t.pending then 0 else 1)
    && (forall id :: id in t.pending ==> t.waiters[id] == Waiter(false, None))
    && (forall id :: id in t.waiters && t.waiters[id].resp.Some? ==>
          && t.waiters[id].woken
          && t.waiters[id].resp.value.Reply? && t.waiters[id].resp.value.requestId == id)
  }

  lemma StepConsistent(t: Table, act: Action)
    requires Consistent(t)
    ensures Consistent(Step(t, act))
    ensures forall id :: id in t.waiters && id !in t.pending ==> Step(t, act).waiters[id] == t.waiters[id]
    ensures t.waiters.Keys <= Step(t, act).waiters.Keys
  {
  }

  /** Over any interleaving of callers, replies in any order, timeouts, late replies and a lost
      connection: a caller is handed only the reply bearing its own id, and its waiter leaves the pending
      table at most once, exactly once if it is no longer there. */
  lemma {:induction false} OwnReplyOnce(acts: seq<Action>)
    ensures Consistent(Run(EMPTY_TABLE, acts))
    decreases |acts|
  {
    if acts != [] {
      OwnReplyOnce(acts[..|acts| - 1]);
      StepConsistent(Run(EMPTY_TABLE, acts[..|acts| - 1]), acts[|acts| - 1]);
    }
  }

  /** Once a caller has given up, or has been answered, nothing that arrives later changes its outcome. */
  lemma {:induction false} OutcomeIsFinal(t: Table, id: nat, acts: seq<Action>)
    requires Consistent(t) && id in t.waiters && id !in t.pending
    ensures
      var r := Run(t, acts);
      Consistent(r) && id in r.waiters && id !in r.pending && r.waiters[id] == t.waiters[id]
    decreases |acts|
  {
    if acts != [] {
      OutcomeIsFinal(t, id, acts[..|acts| - 1]);
      StepConsistent(Run(t, acts[..|acts| - 1]), acts[|acts| - 1]);
    }
  }

  /** A command gets an id nobody had, a waiter of its own, and leaves all others alone. */
  lemma IssuedWaits(t: Table)
    requires Consistent(t)
    ensures
      var r := Step(t, IssueCommand);
      && t.next !in t.waiters && r.pending == t.pending + {t.next} && r.next > t.next
      && r.waiters == t.waiters[t.next := Waiter(false, None)]
  {
  }

  /** A reply that arrives while its waiter is pending is what that waiter holds from then on, whatever comes
      after. (A caller whose time ran out in that instant raises a timeout and leaves it there.) */
  lemma ReplyDelivered(t: Table, id: nat, data: int, acts: seq<Action>)
    requires Consistent(t) && id in t.pending
    ensures Run(Step(t, Receive(Reply(id, data))), acts).waiters.Keys >= {id}
    ensures Run(Step(t, Receive(Reply(id, data))), acts).waiters[id] == Waiter(true, Some(Reply(id, data)))
  {
    hide Run;
    StepConsistent(t, Receive(Reply(id, data)));
    OutcomeIsFinal(Step(t, Receive(Reply(id, data))), id, acts);
  }

  /** When the connection is lost every caller still waiting is woken at once, empty-handed, and stays so. */
  lemma ClosedWakes(t: Table, id: nat, acts: seq<Action>)
    requires Consistent(t) && id in t.pending
    ensures Step(t, Close).pending == {}
    ensures Run(Step(t, Close), acts).waiters.Keys >= {id}
    ensures Run(Step(t, Close), acts).waiters[id] == Waiter(true, None)
  {
    hide Run;
    StepConsistent(t, Close);
    OutcomeIsFinal(Step(t, Close), id, acts);
  }

  /** A caller that gives up leaves alone, and is never woken. */
  lemma GivenUp(t: Table, id: nat, acts: seq<Action>)
    requires Consistent(t) && id in t.pending
    ensures Step(t, GiveUp(id)).pending == t.pending - {id}
    ensures Run(Step(t, GiveUp(id)), acts).waiters.Keys >= {id}
    ensures Run(Step(t, GiveUp(id)), acts).waiters[id] == Waiter(false, None)
  {
    hide Run;
    StepConsistent(t, GiveUp(id));
    OutcomeIsFinal(Step(t, GiveUp(id)), id, acts);
  }

  // ---------------------------------------------------------------- both together, in place

  function DispatchAll(t: Table, parse: Bytes -> Message, lines: seq<Bytes>): Table
    decreases |lines|
  {
    if lines == [] then t else DispatchAll(Dispatch(t, parse(lines[0])), parse, lines[1..])
  }

  lemma {:induction false} DispatchJoin(t: Table, parse: Bytes -> Message, a: seq<Bytes>, b: seq<Bytes>)
    ensures DispatchAll(t, parse, a + b) == DispatchAll(DispatchAll(t, parse, a), parse, b)
    decreases |a|
  {
    if a == [] {
      assert a + b == b;
    } else {
      assert (a + b)[1..] == a[1..] + b;
      DispatchJoin(Dispatch(t, parse(a[0])), parse, a[1..], b);
    }
  }

  function Concat(chunks: seq<Bytes>): Bytes
    decreases |chunks|
  {
    if chunks == [] then [] else Concat(chunks[..|chunks| - 1]) + chunks[|chunks| - 1]
  }

  class MpvClient {
    const parse: Bytes -> Message
    var buf: Bytes
    var next: nat
    var pending: set<nat>
    var waiters: map<nat, Waiter>
    ghost var exits: map<nat, nat>

    ghost function Model(): Table
      reads this
    {
      Table(next, pending, waiters, exits)
    }

    constructor (parse: Bytes -> Message)
      ensures this.parse == parse && buf == [] && Model() == EMPTY_TABLE
    {
      this.parse := parse;
      buf, next, pending, waiters, exits := [], 1, {}, map[], map[];
    }

    /** The first half of a command: a fresh id and its waiter. */
    method IssueRequest() returns (id: nat)
      modifies this`next, this`pending, this`waiters, this`exits
      ensures Model() == Issue(old(Model())) && id == old(next)
    {
      id := next;
      next := next + 1;
      waiters := waiters[id := Waiter(false, None)];
      pending := pending + {id};
      exits := exits[id := 0];
    }

    method Forget(id: nat)
      requires Consistent(Model())
      modifies this`pending, this`exits
      ensures Model() == Exit(old(Model()), id) && Consistent(Model())
    {
      StepConsistent(Model(), GiveUp(id));
      if id in pending {
        exits := exits[id := exits[id] + 1];
        pending := pending - {id};
      }
    }

    method DispatchLine(line: Bytes)
      requires Consistent(Model())
      modifies this`pending, this`waiters, this`exits
      ensures Model() == Dispatch(old(Model()), parse(line)) && Consistent(Model())
    {
      var m := parse(line);
      StepConsistent(Model(), Receive(m));
      if m.Reply? && m.requestId in pending {
        exits := exits[m.requestId := exits[m.requestId] + 1];
        pending := pending - {m.requestId};
        waiters := waiters[m.requestId := Waiter(true, Some(m))];
      }
    }

    /** One chunk from the pipe: whatever lines it completes are dispatched in order. */
    method ReadChunk(chunk: Bytes)
      requires Consistent(Model())
      modifies this`buf, this`pending, this`waiters, this`exits
      ensures Consistent(Model()) && buf == Remainder(old(buf) + chunk)
      ensures Model() == DispatchAll(old(Model()), parse, Lines(old(buf) + chunk))
    {
      ghost var all := buf + chunk;
      ghost var start := Model();
      buf := buf + chunk;
      while NEWLINE in buf
        invariant Consistent(Model()) && Remainder(buf) == Remainder(all)
        invariant DispatchAll(Model(), parse, Lines(buf)) == DispatchAll(start, parse, Lines(all))
        decreases |buf|
      {
        var n := FirstNewline(buf);
        var line := buf[..n];
        ghost var lines := Lines(buf);
        assert lines[0] == line && lines[1..] == Lines(buf[n + 1..]);
        buf := buf[n + 1..];
        DispatchLine(line);
      }
      assert FirstNewline(buf) == |buf|;
    }

    /** However the stream is cut into chunks, what is dispatched is the newline-split of the whole. */
    method ReadStream(chunks: seq<Bytes>)
      requires Consistent(Model()) && buf == []
      modifies this`buf, this`pending, this`waiters, this`exits
      ensures Consistent(Model()) && buf == Remainder(Concat(chunks))
      ensures Model() == DispatchAll(old(Model()), parse, Lines(Concat(chunks)))
    {
      ghost var start := Model();
      assert Lines([]) == [] && Remainder([]) == [];
      for i := 0 to |chunks|
        invariant Consistent(Model()) && buf == Remainder(Concat(chunks[..i]))
        invariant Model() == DispatchAll(start, parse, Lines(Concat(chunks[..i])))
      {
        ghost var sofar := Concat(chunks[..i]);
        assert chunks[..i + 1][..i] == chunks[..i];
        LinesResume(sofar, chunks[i]);
        DispatchJoin(start, parse, Lines(sofar), Lines(Remainder(sofar) + chunks[i]));
        ReadChunk(chunks[i]);
      }
      assert chunks[..|chunks|] == chunks;
    }

    method FailAllPending()
      requires Consistent(Model())
      modifies this`pending, this`waiters, this`exits
      ensures Model() == FailAll(old(Model())) && Consistent(Model())
    {
      StepConsistent(Model(), Close);
      waiters := map id | id in waiters :: if id in pending then Waiter(true, None) else waiters[id];
      exits := map id | id in exits :: if id in pending then exits[id] + 1 else exits[id];
      pending := {};
    }
  }
}
