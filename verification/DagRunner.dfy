/** The runner itself: event handlers over nodes and edges. What the operating system returns is arbitrary. */
module DagRunner {
  import opened Wire
  import opened DagSpec
  import opened DagFacts
  import opened DagSteps

  datatype WriteResult = Wrote(count: nat) | WriteWouldBlock | WriteFailed

  /** How a series of reads ends once the bytes at hand are taken. */
  datatype ReadEnd = ReadWouldBlock | EndOfFile | ReadFailed

  datatype Event =
    | Readable(i: nat, available: seq<Byte>, end: ReadEnd)
    | Writable(i: nat)
    | ChildExits(i: nat, code: int)
    | CancelRequested

  const READ_SIZE := 16 * 1024

  /** What each event does to the graph. */
  ghost predicate Handles(g: Graph, cap: nat, e: Event, s: Dag, s': Dag) {
    && |s'.nodes| == |s.nodes| == g.n
    && match e
       case Readable(i, available, end) =>
         if i < g.n then exists taken: nat :: ReadsUpTo(g, cap, i, available, end, taken, s, s') else s' == s
       case Writable(i) => (if i < g.n then ReadsOnly(s, s', i) && s'.nodes[i].read == s.nodes[i].read else s' == s) && OnlyDrains(s, s')
       case ChildExits(i, code) =>
         if i < g.n && !s.nodes[i].exited
         then s'.nodes[i].exited && s'.nodes[i].exitCode == code && !s'.nodes[i].stdinOpen && OnlyExits(s, s', i)
         else s' == s
       case CancelRequested => Aborted(s, s')
  }

  /** `taken` of the available bytes were read from `i`: all of them unless it was closed before or is now paused at a full
      edge; it is closed exactly if an end or error came after them all. */
  ghost predicate ReadsUpTo(g: Graph, cap: nat, i: nat, available: seq<Byte>, end: ReadEnd, taken: nat, s: Dag, s': Dag) {
    && i < |s.nodes| == |s'.nodes| && taken <= |available|
    && s'.nodes[i].read == s.nodes[i].read + available[..taken] && ReadsOnly(s, s', i) && OnlyDrains(s, s')
    && (taken < |available| ==> s.nodes[i].stdoutClosed || (!s'.nodes[i].readable && Blocked(g, cap, s', i)))
    && (taken == |available| && !end.ReadWouldBlock? ==>
          s'.nodes[i].stdoutClosed || (!s'.nodes[i].readable && Blocked(g, cap, s', i)))
    && (s'.nodes[i].stdoutClosed && !s.nodes[i].stdoutClosed ==> taken == |available| && !end.ReadWouldBlock?)
  }

  /** The pipe took nothing for now. */
  predicate Declined(r: WriteResult) {
    r.WriteWouldBlock? || (r.Wrote? && r.count == 0)
  }

  class Runner {
    const g: Graph
    const cap: nat
    var nodes: seq<Node>
    var edges: seq<EdgeState>
    var buffered: nat
    var exitedCount: nat
    var done: bool
    var cancelled: bool
    var broke: set<nat>
    var written: seq<(nat, seq<Byte>)>
    var attempts: seq<(nat, WriteResult)>
    var output: seq<(nat, seq<Byte>)>
    var outcomes: seq<Outcome>

    function State(): Dag
      reads this
    {
      Dag(nodes, edges, buffered, exitedCount, done, cancelled, broke, written, output, outcomes)
    }

    ghost predicate Valid()
      reads this
    {
      Inv(g, cap, State())
    }

    constructor (g: Graph, cap: nat)
      requires GraphOk(g) && g.n > 0 && cap > 0
      ensures this.g == g && this.cap == cap && Valid()
    {
      this.g, this.cap := g, cap;
      nodes := seq(g.n, i requires 0 <= i < |g.incoming| => FreshNode(g.incoming[i] != []));
      edges := seq(|g.from|, _ => FreshEdge());
      attempts := [];
      buffered, exitedCount, done, cancelled, broke, written, output, outcomes := 0, 0, false, false, {}, [], [], [];
      new;
      FreshGraph(g, cap, State());
    }

    ghost predicate MidWay(todo: set<nat>, wake: set<nat>)
      reads this
    {
      Mid(g, cap, State(), todo, wake)
    }

    method ProducerCanRead(p: nat) returns (ok: bool)
      requires GraphOk(g) && Sized(g, State()) && p < g.n
      ensures ok == !Blocked(g, cap, State(), p)
    {
      for k := 0 to |g.outgoing[p]|
        invariant forall j :: 0 <= j < k ==> !Full(cap, edges[g.outgoing[p][j]])
      {
        var edge := edges[g.outgoing[p][k]];
        if edge.consumerClosed {
          continue;
        }
        if |edge.buffer| == cap {
          return false;
        }
      }
      ok := true;
    }

    method SetProducerReadable(p: nat, readable: bool)
      requires p < |nodes|
      modifies this`nodes
      ensures State() == Resumed(old(State()), p, readable)
    {
      if nodes[p].stdoutClosed || nodes[p].readable == readable {
        assert nodes == nodes[p := nodes[p]];
        return;
      }
      nodes := nodes[p := nodes[p].(readable := readable)];
    }

    method SetConsumerWritable(c: nat, writable: bool, ghost todo: set<nat>)
      requires MidWay(todo, {}) && c < g.n
      requires if writable then HasInput(g, State(), c) else !HasInput(g, State(), c) && MayHaveInput(g, State(), c)
      modifies this`nodes
      ensures MidWay(todo - {c}, {}) && EndsSame(old(State()), State()) && OnlyDrains(old(State()), State())
      ensures |nodes| == |old(nodes)|
    {
      hide Mid, HasInput, MayHaveInput, EndsSame, GraphOk, OnlyDrains;
      MidSized(g, cap, State(), todo, {});
      WritableKeeps(g, cap, State(), c, writable, todo);
      SteadyDrains(State(), WithWritable(State(), c, writable));
      EndsOne(State(), WithWritable(State(), c, writable), c);
      nodes := nodes[c := nodes[c].(writable := writable)];
    }

    /** The first input with data at or after the round-robin cursor. */
    method FindInput(c: nat) returns (found: bool, slot: nat)
      requires GraphOk(g) && Sized(g, State()) && c < g.n && nodes[c].next < |g.incoming[c]|
      ensures found ==> slot < |g.incoming[c]| && edges[g.incoming[c][slot]].buffer != []
      ensures found ==> forall w :: 0 <= w < |g.incoming[c]| && edges[g.incoming[c][w]].buffer != [] ==>
                          Ahead(nodes[c].next, slot, |g.incoming[c]|) <= Ahead(nodes[c].next, w, |g.incoming[c]|)
      ensures !found ==> !HasInput(g, State(), c)
    {
      var d := |g.incoming[c]|;
      var next := nodes[c].next;
      for offset := 0 to d
        invariant forall w :: 0 <= w < d && Ahead(next, w, d) < offset ==> edges[g.incoming[c][w]].buffer == []
      {
        slot := if next + offset < d then next + offset else next + offset - d;
        if edges[g.incoming[c][slot]].buffer != [] {
          return true, slot;
        }
        assert forall w :: 0 <= w < d && Ahead(next, w, d) == offset ==> w == slot;
      }
      assert forall w :: 0 <= w < d ==> Ahead(next, w, d) < d;
      return false, 0;
    }

    /** A write to the pipe of stage `c`: some of the bytes, none for now, or an error. It is recorded, and so is what the
        pipe took. */
    method OsWrite(c: nat, bytes: seq<Byte>) returns (r: WriteResult)
      modifies this`broke, this`written, this`attempts
      ensures attempts == old(attempts) + [(c, r)]
      ensures r.Wrote? ==> r.count <= |bytes|
      ensures broke == if r.WriteFailed? then old(broke) + {c} else old(broke)
      ensures written == if r.Wrote? && r.count > 0 then old(written) + [(c, bytes[..r.count])] else old(written)
    {
      var outcome: WriteResult := *;
      r := if outcome.Wrote? && outcome.count > |bytes| then Wrote(|bytes|) else outcome;
      attempts := attempts + [(c, r)];
      if r.WriteFailed? {
        broke := broke + {c};
      }
      if r.Wrote? && r.count > 0 {
        written := written + [(c, bytes[..r.count])];
      }
    }

    /** The pipe has just taken `count` bytes of input `slot`: they leave the edge and its producer's read interest is set
        anew. `s` is the state before that write. */
    method Feed(c: nat, slot: nat, count: nat, ghost s: Dag, ghost todo: set<nat>)
      requires Mid(g, cap, s, todo, {}) && c in todo && CanTake(g, s, c, slot, count)
      requires State() == s.(written := s.written + [(c, s.edges[g.incoming[c][slot]].buffer[..count])])
      modifies this`nodes, this`edges, this`buffered
      ensures MidWay(todo, {}) && EndsSame(s, State()) && OnlyDrains(s, State())
      ensures buffered == old(buffered) - count && count > 0 && c < |nodes| == |old(nodes)| && nodes[c].stdinOpen
    {
      hide Mid, EndsSame, CanTake, TurnOk, FedState, TakenTurn, Blocked, CanFeed, OnlyDrains, Steady;
      ghost var s0 := State();
      SameButPipes(g, cap, s, s0, todo);
      TakeWritten(g, s, s0, c, slot, count);
      MidSized(g, cap, s0, todo, {});
      TakeShape(g, s0, c, slot, count);
      ghost var t := TakenTurn(g, s0, c, slot, count);
      TakeIsTurn(g, cap, s0, c, slot, count, todo);
      FeedFits(g, cap, s0, c, t, todo);
      FeedKeeps(g, cap, s0, c, t, todo);
      FedEnds(g, s0, c, t);
      FedDrains(g, s, s0, c, t);
      TakeBytes(c, slot, count);
      ghost var s1 := State();
      var from := g.from[g.incoming[c][slot]];
      MidSized(g, cap, s1, todo, {from});
      var ok := ProducerCanRead(from);
      ResumeKeeps(g, cap, s1, from, ok, todo, {from});
      SetProducerReadable(from, ok);
      assert {from} - {from} == {};
      EndsSameOn(s, s0, s1);
      EndsSameOn(s, s1, State());
      SteadyDrains(s1, State());
      OnlyDrainsOn(s, s1, State());
    }

    method TakeBytes(c: nat, slot: nat, count: nat)
      requires CanTake(g, State(), c, slot, count) && count <= buffered
      modifies this`nodes, this`edges, this`buffered
      ensures State() == FedState(g, old(State()), c, TakenTurn(g, old(State()), c, slot, count))
    {
      var e := g.incoming[c][slot];
      var bytes := edges[e].buffer[..count];
      var turn := Turn(slot, Waiting(g, State(), c), bytes);
      nodes := nodes[c := nodes[c].(turns := nodes[c].turns + [turn], next := After(slot, |g.incoming[c]|))];
      edges := edges[e := edges[e].(buffer := edges[e].buffer[count..])];
      buffered := buffered - count;
    }

    /** `drainConsumer`: round-robin writes until the pipe is full, broken, or nothing is left. The input is closed only
        if a write failed, or if every predecessor has closed and nothing is buffered. If bytes are left for an open
        input, the last thing tried was a write to it, and the pipe took nothing. */
    method DrainConsumer(c: nat, ghost todo: set<nat>)
      requires MidWay(todo, {}) && c < g.n && CausesOk(g, State())
      modifies this`nodes, this`edges, this`buffered, this`broke, this`written, this`attempts
      ensures old(attempts) <= attempts && c < |nodes|
      ensures nodes[c].stdinOpen && HasInput(g, State(), c) ==>
                |attempts| > |old(attempts)| && attempts[|attempts| - 1].0 == c && Declined(attempts[|attempts| - 1].1)
      ensures MidWay(todo - {c}, {}) && EndsSame(old(State()), State()) && CausesOk(g, State())
      ensures OnlyDrains(old(State()), State())
    {
      hide Mid, EndsSame, CanTake, HasInput, MayHaveInput, Blocked, CausesOk, OnlyDrains;
      MidSized(g, cap, State(), todo, {});
      EndsRefl(State());
      if !nodes[c].stdinOpen {
        ClosedNeedsNothing(g, cap, State(), c, todo);
        return;
      }
      MoreToDrain(g, cap, State(), todo, todo + {c});
      assert todo + {c} - {c} == todo - {c};
      while true
        invariant MidWay(todo + {c}, {}) && EndsSame(old(State()), State()) && c < |nodes| && nodes[c].stdinOpen
        invariant OnlyDrains(old(State()), State()) && CausesOk(g, State()) && old(attempts) <= attempts
        decreases buffered
      {
        hide Mid, EndsSame, CanTake, HasInput, MayHaveInput, Blocked, CausesOk, OnlyDrains;
        MidSized(g, cap, State(), todo + {c}, {});
        ghost var s := State();
        CursorInRange(g, cap, s, c, todo + {c});
        var found, slot := FindInput(c);
        if !found {
          NothingBuffered(c, todo + {c});
          Onward(old(State()), s);
          return;
        }
        var more := WriteOnce(c, slot, todo + {c});
        Onward(old(State()), s);
        if !more {
          return;
        }
      }
    }

    /** One write from input `slot`: there may be more to write, or the pipe took nothing, or it broke. */
    method WriteOnce(c: nat, slot: nat, ghost todo: set<nat>) returns (more: bool)
      requires MidWay(todo, {}) && c in todo && c < g.n && c < |nodes| && nodes[c].stdinOpen && CausesOk(g, State())
      requires GraphOk(g) && Sized(g, State()) && slot < |g.incoming[c]| && nodes[c].next < |g.incoming[c]|
      requires edges[g.incoming[c][slot]].buffer != []
      requires forall w :: 0 <= w < |g.incoming[c]| && edges[g.incoming[c][w]].buffer != [] ==>
                 Ahead(nodes[c].next, slot, |g.incoming[c]|) <= Ahead(nodes[c].next, w, |g.incoming[c]|)
      modifies this`nodes, this`edges, this`buffered, this`broke, this`written, this`attempts
      ensures EndsSame(old(State()), State()) && OnlyDrains(old(State()), State()) && CausesOk(g, State())
      ensures c < |nodes| && |attempts| == |old(attempts)| + 1 && old(attempts) <= attempts
      ensures more ==> MidWay(todo, {}) && buffered < old(buffered) && nodes[c].stdinOpen
      ensures !more ==> MidWay(todo - {c}, {})
      ensures !more && nodes[c].stdinOpen ==> attempts[|attempts| - 1].0 == c && Declined(attempts[|attempts| - 1].1)
    {
      hide Mid, EndsSame, CanTake, HasInput, MayHaveInput, Blocked, CausesOk, OnlyDrains;
      ghost var s := State();
      InputThere(g, s, c, slot);
      EndsRefl(s);
      var wrote := OsWrite(c, edges[g.incoming[c][slot]].buffer);
      more := wrote.Wrote? && wrote.count > 0;
      if more {
        ScanFound(g, s, c, slot, wrote.count);
        Feed(c, slot, wrote.count, s, todo);
      } else if wrote.Wrote? || wrote.WriteWouldBlock? {
        SetConsumerWritable(c, true, todo);
      } else {
        CloseBroken(c, s, todo);
      }
      Onward(s, s);
    }

    /** Nothing is left to write: the input is closed if no predecessor can deliver more, and waits otherwise. */
    method NothingBuffered(c: nat, ghost todo: set<nat>)
      requires MidWay(todo, {}) && c < g.n && c < |nodes| && nodes[c].stdinOpen && CausesOk(g, State())
      requires !HasInput(g, State(), c)
      modifies this`nodes, this`edges, this`buffered
      ensures MidWay(todo - {c}, {}) && EndsSame(old(State()), State()) && OnlyDrains(old(State()), State())
      ensures c < |nodes| && (nodes[c].stdinOpen ==> !HasInput(g, State(), c))
    {
      hide Mid, EndsSame, HasInput, MayHaveInput, CausesOk, OnlyDrains;
      ghost var s := State();
      MidSized(g, cap, s, todo, {});
      DrainedOrWaiting(g, cap, s, c, todo);
      var allClosed := AllSourcesClosed(c);
      if allClosed {
        OpenIsWhole(g, cap, s, c, todo);
        CloseConsumer(c, Finished, todo);
        ClosesDrains(g, cap, s, s, State(), c, Finished, todo);
      } else {
        SetConsumerWritable(c, false, todo);
        SameInputs(g, s, State(), c);
      }
    }

    /** What held of the stretch up to `s` holds up to now. */
    lemma Onward(before: Dag, s: Dag)
      requires EndsSame(before, s) && EndsSame(s, State())
      requires OnlyDrains(before, s) && OnlyDrains(s, State()) && CausesOk(g, s)
      ensures EndsSame(before, State()) && OnlyDrains(before, State()) && CausesOk(g, State())
    {
      EndsSameOn(before, s, State());
      OnlyDrainsOn(before, s, State());
      CausesFollow(g, s, State());
    }

    /** A write to `c` has just failed: its input is closed. */
    method CloseBroken(c: nat, ghost s: Dag, ghost todo: set<nat>)
      requires Mid(g, cap, s, todo, {}) && c < g.n && c < |s.nodes| && s.nodes[c].stdinOpen
      requires State() == s.(broke := s.broke + {c})
      modifies this`nodes, this`edges, this`buffered
      ensures MidWay(todo - {c}, {}) && EndsSame(s, State()) && OnlyDrains(s, State())
      ensures c < |nodes| && !nodes[c].stdinOpen
    {
      hide Mid, EndsSame, OnlyDrains;
      ghost var s1 := State();
      SameButPipes(g, cap, s, s1, todo);
      MidSized(g, cap, s1, todo, {});
      CloseConsumer(c, BrokenPipe, todo);
      ClosesDrains(g, cap, s, s1, State(), c, BrokenPipe, todo);
      EndsSameOn(s, s1, State());
    }

    method AllSourcesClosed(c: nat) returns (all: bool)
      requires GraphOk(g) && Sized(g, State()) && c < g.n
      ensures all <==> forall k :: 0 <= k < |g.incoming[c]| ==>
                         edges[g.incoming[c][k]].sourceClosed || edges[g.incoming[c][k]].consumerClosed
    {
      for k := 0 to |g.incoming[c]|
        invariant forall j :: 0 <= j < k ==> edges[g.incoming[c][j]].sourceClosed || edges[g.incoming[c][j]].consumerClosed
      {
        if !edges[g.incoming[c][k]].sourceClosed && !edges[g.incoming[c][k]].consumerClosed {
          return false;
        }
      }
      all := true;
    }

    method CloseConsumer(c: nat, why: Ending, ghost todo: set<nat>)
      requires MidWay(todo, {}) && c < g.n && !why.Feeding?
      requires GraphOk(g) && Sized(g, State()) && (why.Finished? ==> Drained(g, State(), c))
      modifies this`nodes, this`edges, this`buffered
      ensures MidWay(todo - {c}, {}) && EndsSame(old(State()), State())
      ensures c < |nodes| == |old(nodes)| && !nodes[c].stdinOpen
      ensures OnlyCloses(old(State()), State(), c, why)
    {
      hide Mid, EndsSame, Shutting, AwakeBut, Drained, Later, Blocked, OnlyCloses;
      EndsRefl(State());
      if !nodes[c].stdinOpen {
        ClosedNeedsNothing(g, cap, State(), c, todo);
        NothingCloses(State(), c, why);
        return;
      }
      ghost var s := State();
      ShutBegins(g, cap, s, c, why, todo);
      nodes := nodes[c := ShutNode(nodes[c], why)];
      var k := 0;
      while k < |g.incoming[c]|
        invariant k <= |g.incoming[c]| && Sized(g, State())
        invariant Shutting(g, s, State(), c, why, k) && AwakeBut(g, cap, State(), Later(g, c, k))
      {
        hide Mid, EndsSame, Shutting, AwakeBut, Drained, Later, Blocked;
        DiscardInput(c, k, why, s);
        k := k + 1;
      }
      AllAwake(g, cap, State(), c);
      ShutKeeps(g, cap, s, State(), c, why, todo);
      ShutEnds(g, s, State(), c, why, |g.incoming[c]|);
    }

    /** Drops what is buffered from one input and lets its producer run. */
    method DiscardInput(c: nat, k: nat, why: Ending, ghost s: Dag)
      requires GraphOk(g) && Sized(g, s) && Sized(g, State()) && c < g.n && k < |g.incoming[c]|
      requires Shutting(g, s, State(), c, why, k) && AwakeBut(g, cap, State(), Later(g, c, k))
      modifies this`nodes, this`edges, this`buffered
      ensures Sized(g, State())
      ensures Shutting(g, s, State(), c, why, k + 1) && AwakeBut(g, cap, State(), Later(g, c, k + 1))
    {
      hide Shutting, AwakeBut, Later, Blocked;
      ghost var s1 := State();
      ShutOneMore(g, s, s1, c, why, k);
      var e := g.incoming[c][k];
      buffered := buffered - |edges[e].buffer|;
      edges := edges[e := ShutEdge(edges[e])];
      ghost var s2 := State();
      assert s2 == Discarded(g, s1, e);
      var from := g.from[e];
      var ok := ProducerCanRead(from);
      AwakeAfterDiscard(g, cap, s1, c, k, ok);
      ShutThenResume(g, s, s2, c, why, k + 1, from, ok);
      SetProducerReadable(from, ok);
    }

    /** How much can be read: a full scratch buffer, or less if an open outgoing edge has less room. */
    method ReadLimit(i: nat) returns (limit: nat, active: bool)
      requires GraphOk(g) && Sized(g, State()) && i < g.n
      requires forall e :: 0 <= e < |edges| ==> |edges[e].buffer| <= cap
      ensures HasRoom(g, cap, State(), i, limit) && limit <= READ_SIZE
      ensures limit == 0 ==> active && Blocked(g, cap, State(), i)
      ensures limit == READ_SIZE ||
              exists k :: 0 <= k < |g.outgoing[i]| && !edges[g.outgoing[i][k]].consumerClosed
                          && |edges[g.outgoing[i][k]].buffer| + limit == cap
    {
      limit, active := READ_SIZE, false;
      for k := 0 to |g.outgoing[i]|
        invariant limit <= READ_SIZE
        invariant forall j :: 0 <= j < k && !edges[g.outgoing[i][j]].consumerClosed ==>
                    |edges[g.outgoing[i][j]].buffer| + limit <= cap
        invariant limit == 0 ==> active && exists j :: 0 <= j < k && Full(cap, edges[g.outgoing[i][j]])
        invariant limit == READ_SIZE ||
                  exists j :: 0 <= j < k && !edges[g.outgoing[i][j]].consumerClosed && |edges[g.outgoing[i][j]].buffer| + limit == cap
      {
        var edge := edges[g.outgoing[i][k]];
        if edge.consumerClosed {
          continue;
        }
        active := true;
        if cap - |edge.buffer| < limit {
          limit := cap - |edge.buffer|;
          assert limit == 0 ==> Full(cap, edges[g.outgoing[i][k]]);
        }
      }
    }

    method OsRead(bytes: seq<Byte>, limit: nat) returns (count: nat)
      requires bytes != [] && limit > 0
      ensures 0 < count <= |bytes| && count <= limit
    {
      var any: nat := *;
      var most := if |bytes| < limit then |bytes| else limit;
      count := if 0 < any < most then any else most;
    }

    /** `onProducerReadable`: reads what fits every open edge, copies it to each, drains the consumers, and pauses when
        an open edge is full. `available` is what the pipe holds; each read returns some of it, then `end` applies.
        `taken` counts the bytes read: all of them unless the producer had to be paused, and it is closed only when
        all were read and an end or error came after them. */
    method OnProducerReadable(i: nat, available: seq<Byte>, end: ReadEnd) returns (taken: nat)
      requires Valid() && i < g.n && i < |nodes|
      modifies this
      ensures Valid() && taken <= |available| && i < |nodes|
      ensures nodes[i].read == old(nodes[i].read) + available[..taken]
      ensures taken < |available| ==> old(nodes[i].stdoutClosed) || (!nodes[i].readable && Blocked(g, cap, State(), i))
      ensures taken == |available| && !end.ReadWouldBlock? ==>
                nodes[i].stdoutClosed || (!nodes[i].readable && Blocked(g, cap, State(), i))
      ensures nodes[i].stdoutClosed && !old(nodes[i].stdoutClosed) ==> taken == |available| && !end.ReadWouldBlock?
      ensures Evolves(old(State()), State()) && ReadsOnly(old(State()), State(), i) && OnlyDrains(old(State()), State())
    {
      hide Mid, CompletionOk, AllOver, EndsSame, Blocked, HasRoom, Evolves, ReadsOnly, OnlyDrains, CausesOk;
      taken := 0;
      EvolvesRefl(State());
      EndsRefl(State());
      EndsReadNothing(State(), State(), i);
      while !nodes[i].stdoutClosed
        invariant Valid() && i < |nodes| && taken <= |available|
        invariant Evolves(old(State()), State()) && ReadsOnly(old(State()), State(), i) && OnlyDrains(old(State()), State())
        invariant nodes[i].read == old(nodes[i].read) + available[..taken]
        invariant nodes[i].stdoutClosed == old(nodes[i].stdoutClosed)
        decreases |available| - taken
      {
        hide Mid, CompletionOk, AllOver, EndsSame, Blocked, HasRoom, Evolves, ReadsOnly, OnlyDrains, CausesOk;
        ghost var s := State();
        MidSized(g, cap, s, {}, {});
        EdgesWithin(g, cap, s, {}, {});
        var limit, active := ReadLimit(i);
        if active && limit == 0 {
          OpenIsAwake(g, cap, s, i);
          SetProducerReadable(i, false);
          SameBlocked(g, cap, s, State(), i);
          EndsEvolve(s, State());
          EndsReadNothing(s, State(), i);
          Further(old(State()), s, i);
          return;
        }
        if taken == |available| {
          if !end.ReadWouldBlock? {
            CloseProducer(i);
            Further(old(State()), s, i);
          }
          return;
        }
        var count := OsRead(available[taken..], limit);
        var bytes := available[taken..][..count];
        RoomForLess(g, cap, s, i, limit, count);
        Deliver(i, bytes);
        Further(old(State()), s, i);
        assert available[..taken] + bytes == available[..taken + count];
        taken := taken + count;
      }
    }

    lemma Further(before: Dag, s: Dag, i: nat)
      requires Evolves(before, s) && Evolves(s, State()) && ReadsOnly(before, s, i) && ReadsOnly(s, State(), i)
      requires OnlyDrains(before, s) && OnlyDrains(s, State())
      ensures Evolves(before, State()) && ReadsOnly(before, State(), i) && OnlyDrains(before, State())
    {
      EvolvesOn(before, s, State());
      ReadsOnlyOn(before, s, State(), i);
      OnlyDrainsOn(before, s, State());
    }

    /** Copies what was read to every open outgoing edge, or to the output of a sink, and drains the consumers. */
    method Deliver(i: nat, bytes: seq<Byte>)
      requires Valid() && i < g.n && GraphOk(g) && Sized(g, State()) && !nodes[i].stdoutClosed
      requires bytes != [] && HasRoom(g, cap, State(), i, |bytes|)
      modifies this
      ensures Valid() && |nodes| == |old(nodes)| && nodes[i].read == old(nodes[i].read) + bytes && !nodes[i].stdoutClosed
      ensures Evolves(old(State()), State()) && ReadsOnly(old(State()), State(), i) && OnlyDrains(old(State()), State())
    {
      hide Mid, CompletionOk, AllOver, EndsSame, HasRoom, Spread, SpreadMid, Evolves, ReadsOnly, OnlyDrains, CausesOk, Steady;
      ghost var s := State();
      RoomMeansReadable(g, cap, s, i, |bytes|);
      var consumers := Append(i, bytes);
      ghost var s1 := State();
      SpreadOf(g, s, s1, i, bytes, consumers);
      SpreadKeeps(g, cap, s, s1, i, bytes);
      OnlyOpenConsumers(g, cap, s, s1, i, bytes, consumers);
      SpreadEnds(g, s, s1, i, bytes);
      SteadyDrains(s, s1);
      CausesFollow(g, s, s1);
      DrainAll(consumers);
      CompletionFollows(s1, State());
      EndsRead(s1, State(), i);
      EndsEvolve(s1, State());
      EndsReadNothing(s1, State(), i);
      Further(s, s1, i);
    }

    method Append(i: nat, bytes: seq<Byte>) returns (consumers: set<nat>)
      requires MidWay({}, {}) && i < g.n && GraphOk(g) && Sized(g, State())
      modifies this`nodes, this`edges, this`buffered, this`output
      ensures SpreadMid(g, old(State()), State(), i, bytes, |g.outgoing[i]|, consumers)
    {
      hide Mid, Spread;
      ghost var s := State();
      SpreadBegins(g, cap, s, i, bytes);
      nodes := nodes[i := nodes[i].(read := nodes[i].read + bytes)];
      if g.outgoing[i] == [] {
        output := output + [(i, bytes)];
      }
      consumers := {};
      for k := 0 to |g.outgoing[i]|
        invariant SpreadMid(g, s, State(), i, bytes, k, consumers)
      {
        hide Mid, Spread;
        var e := g.outgoing[i][k];
        SpreadOneMore(g, s, State(), i, bytes, k);
        if edges[e].consumerClosed {
          assert edges == edges[e := Appended(edges[e], bytes)];
          continue;
        }
        edges := edges[e := edges[e].(buffer := edges[e].buffer + bytes)];
        buffered := buffered + |bytes|;
        consumers := consumers + {g.to[e]};
      }
    }

    /** Drains each of these consumers, in increasing order. */
    method DrainAll(consumers: set<nat>)
      requires MidWay(consumers, {}) && CausesOk(g, State())
      modifies this`nodes, this`edges, this`buffered, this`broke, this`written, this`attempts
      ensures MidWay({}, {}) && EndsSame(old(State()), State()) && CausesOk(g, State()) && OnlyDrains(old(State()), State())
    {
      hide Mid, EndsSame, CausesOk, OnlyDrains;
      EndsRefl(State());
      ghost var todo := consumers;
      for c := 0 to g.n
        invariant MidWay(todo, {}) && EndsSame(old(State()), State())
        invariant OnlyDrains(old(State()), State()) && CausesOk(g, State())
        invariant forall j :: j in todo <==> j in consumers && j >= c
      {
        hide Mid, EndsSame, CausesOk, OnlyDrains;
        if c in consumers {
          ghost var s := State();
          DrainConsumer(c, todo);
          Onward(old(State()), s);
          todo := todo - {c};
        }
      }
      NothingToDrain(g, cap, State(), todo);
    }

    method CloseProducer(i: nat)
      requires Valid() && i < g.n && i < |nodes|
      modifies this
      ensures Valid() && i < |nodes| && nodes[i].stdoutClosed && nodes[i].read == old(nodes[i].read)
      ensures Evolves(old(State()), State()) && ReadsOnly(old(State()), State(), i) && OnlyDrains(old(State()), State())
    {
      hide Mid, CompletionOk, AllOver, EndsSame, Ended, Evolves, ReadsOnly, OnlyDrains, CausesOk, Steady;
      EvolvesRefl(State());
      EndsRefl(State());
      EndsReadNothing(State(), State(), i);
      if nodes[i].stdoutClosed {
        return;
      }
      ghost var s := State();
      MidSized(g, cap, s, {}, {});
      var consumers := MarkEnd(i);
      ghost var s1 := State();
      EndedKeeps(g, cap, s, s1, i);
      EndedCompletion(g, s, s1, i);
      EndedNode(g, s, s1, i);
      SteadyDrains(s, s1);
      CausesFollow(g, s, s1);
      DrainAll(consumers);
      ghost var s2 := State();
      CompletionFollows(s1, s2);
      EndsRead(s1, s2, i);
      EndsEvolve(s1, s2);
      EndsReadNothing(s1, s2, i);
      Further(s, s1, i);
      FinishIfDone();
      Further(s, s2, i);
    }

    method MarkEnd(i: nat) returns (consumers: set<nat>)
      requires GraphOk(g) && Sized(g, State()) && i < g.n
      modifies this`nodes, this`edges
      ensures Ended(g, old(State()), State(), i, |g.outgoing[i]|) && consumers == Consumers(g, i)
    {
      hide Ended;
      ghost var s := State();
      EndedBegins(g, s, i);
      nodes := nodes[i := nodes[i].(stdoutClosed := true, readable := false)];
      consumers := {};
      for k := 0 to |g.outgoing[i]|
        invariant Ended(g, s, State(), i, k)
        invariant forall c :: c in consumers <==> exists j :: 0 <= j < k && g.to[g.outgoing[i][j]] == c
      {
        hide Ended;
        var e := g.outgoing[i][k];
        EndedOneMore(g, s, State(), i, k);
        edges := edges[e := edges[e].(sourceClosed := true)];
        consumers := consumers + {g.to[e]};
      }
      assert forall c :: c in Consumers(g, i) <==> c in consumers;
    }

    /** A child was reaped. Its stdin is closed whatever was buffered for it; no other stage exits or has its input end. */
    method OnChildExit(i: nat, code: int)
      requires Valid() && i < g.n && i < |nodes|
      modifies this
      ensures Valid() && i < |nodes| && nodes[i].exited && !nodes[i].stdinOpen
      ensures !old(nodes[i].exited) ==> nodes[i].exitCode == code
      ensures old(nodes[i].exited) ==> State() == old(State())
      ensures Evolves(old(State()), State()) && ReadsOnly(old(State()), State(), i) && nodes[i].read == old(nodes[i].read)
      ensures OnlyExits(old(State()), State(), i)
    {
      hide Mid, CompletionOk, AllOver, EndsSame, Evolves, ReadsOnly, CausesOk;
      EvolvesRefl(State());
      EndsRefl(State());
      EndsReadNothing(State(), State(), i);
      if nodes[i].exited {
        ExitedIsClosed(g, cap, State(), i);
        return;
      }
      ghost var s := State();
      MidSized(g, cap, s, {}, {});
      OpenIsFed(g, cap, s, i, {});
      CloseConsumer(i, ChildGone, {});
      assert {} - {i} == {};
      ghost var s1 := State();
      ExitCauses(g, s, s1, i, code);
      CompletionFollows(s, s1);
      EndsRead(s, s1, i);
      EndsEvolve(s, s1);
      EndsReadNothing(s, s1, i);
      ExitKeeps(g, cap, s1, i, code);
      ExitCompletion(s1, i, code);
      nodes := nodes[i := nodes[i].(exited := true, exitCode := code)];
      exitedCount := exitedCount + 1;
      ghost var s2 := State();
      EvolvesOn(s, s1, s2);
      ReadsOnlyOn(s, s1, s2, i);
      FinishIfDone();
      EvolvesOn(s, s2, State());
      ReadsOnlyOn(s, s2, State(), i);
    }

    method FinishIfDone()
      requires MidWay({}, {}) && CompletionOk(State()) && CausesOk(g, State())
      modifies this`done, this`outcomes
      ensures Valid() && Evolves(old(State()), State()) && (forall j :: ReadsOnly(old(State()), State(), j))
      ensures OnlyDrains(old(State()), State())
      ensures done == (old(done) || AllOver(nodes))
      ensures outcomes == if !old(done) && AllOver(nodes)
                          then old(outcomes) + [Outcome(ExitCodes(nodes), PipeFail(ExitCodes(nodes)))] else old(outcomes)
      ensures done && !old(done) ==>
                forall i :: 0 <= i < |nodes| ==> nodes[i].exited && nodes[i].stdoutClosed
      ensures done && !old(done) && outcomes[|old(outcomes)|].exitCode == 0 ==>
                forall i :: 0 <= i < |nodes| ==> nodes[i].exitCode == 0
      ensures done && !old(done) && outcomes[|old(outcomes)|].exitCode != 0 ==>
                exists k :: 0 <= k < |nodes| && nodes[k].exitCode == outcomes[|old(outcomes)|].exitCode
                            && forall j :: k < j < |nodes| ==> nodes[j].exitCode == 0
    {
      hide Mid, Evolves, CausesOk, OnlyDrains;
      EvolvesRefl(State());
      EndsRefl(State());
      OverMeans(g, cap, State());
      if done || exitedCount != |nodes| {
        return;
      }
      for i := 0 to |nodes|
        invariant forall j :: 0 <= j < i ==> nodes[j].stdoutClosed
      {
        if !nodes[i].stdoutClosed {
          return;
        }
      }
      ghost var s := State();
      done := true;
      var code := 0;
      var codes := [];
      for i := 0 to |nodes|
        invariant codes == ExitCodes(nodes[..i]) && code == PipeFail(codes)
      {
        assert ExitCodes(nodes[..i + 1]) == codes + [nodes[i].exitCode];
        assert (codes + [nodes[i].exitCode])[..|codes|] == codes;
        codes := codes + [nodes[i].exitCode];
        if nodes[i].exitCode != 0 {
          code := nodes[i].exitCode;
        }
      }
      assert nodes[..|nodes|] == nodes;
      PipeFailMeans(codes);
      assert forall i :: 0 <= i < |nodes| ==> codes[i] == nodes[i].exitCode;
      outcomes := outcomes + [Outcome(codes, code)];
      SameButDone(g, cap, s, State());
      ReportEvolves(s, State());
      SteadyDrains(s, State());
      CausesFollow(g, s, State());
    }

    /** `cancel`: closes and clears everything, kills the children, and never reports completion afterwards. */
    method Cancel()
      requires Valid()
      modifies this
      ensures Valid() && done && cancelled && buffered == 0 && outcomes == old(outcomes)
      ensures Evolves(old(State()), State()) && Aborted(old(State()), State())
    {
      hide Inv, Evolves;
      ghost var s := State();
      for i := 0 to |nodes|
        invariant |nodes| == |s.nodes| && State() == s.(nodes := nodes)
        invariant forall j :: 0 <= j < |nodes| ==> nodes[j] == if j < i then Stopped(s.nodes[j]) else s.nodes[j]
      {
        nodes := nodes[i := Stopped(nodes[i])];
      }
      for e := 0 to |edges|
        invariant |edges| == |s.edges| && |nodes| == |s.nodes| && State() == s.(nodes := nodes, edges := edges)
        invariant forall j :: 0 <= j < |nodes| ==> nodes[j] == Stopped(s.nodes[j])
        invariant forall j :: 0 <= j < |edges| ==> edges[j] == if j < e then ShutEdge(s.edges[j]).(sourceClosed := true) else s.edges[j]
      {
        edges := edges[e := ShutEdge(edges[e]).(sourceClosed := true)];
      }
      buffered := 0;
      exitedCount := |nodes|;
      done, cancelled := true, true;
      AbortKeeps(g, cap, s, State());
      InvMid(g, cap, s);
      AbortEvolves(g, cap, s, State());
    }

    /** Any sequence of reactor events, each handled in turn; the trace shows the states in between. Nothing reported,
        shown, read or written to a stage is ever taken back. */
    method Run(events: seq<Event>) returns (ghost trace: seq<Dag>)
      requires Valid()
      modifies this
      ensures Valid() && Evolves(old(State()), State())
      ensures |trace| == |events| + 1 && trace[0] == old(State()) && trace[|events|] == State()
      ensures forall k :: 0 <= k < |events| ==> Inv(g, cap, trace[k]) && Handles(g, cap, events[k], trace[k], trace[k + 1])
    {
      hide Inv, Evolves, Handles;
      EvolvesRefl(State());
      trace := [State()];
      for k := 0 to |events|
        invariant Valid() && Evolves(old(State()), State())
        invariant |trace| == k + 1 && trace[0] == old(State()) && trace[k] == State()
        invariant forall j :: 0 <= j < k ==> Inv(g, cap, trace[j]) && Handles(g, cap, events[j], trace[j], trace[j + 1])
      {
        hide Inv, Evolves, Handles;
        ghost var s := State();
        Handle(events[k]);
        EvolvesOn(old(State()), s, State());
        trace := trace + [State()];
      }
    }

    method Handle(event: Event)
      requires Valid()
      modifies this
      ensures Valid() && Evolves(old(State()), State())
      ensures if event.CancelRequested? then cancelled
              else if event.ChildExits? && event.i < g.n then OnlyExits(old(State()), State(), event.i)
              else OnlyDrains(old(State()), State())
      ensures Handles(g, cap, event, old(State()), State())
      ensures event.Writable? && event.i < g.n && event.i < |nodes| && nodes[event.i].stdinOpen && HasInput(g, State(), event.i) ==>
                |attempts| > |old(attempts)| && attempts[|attempts| - 1].0 == event.i && Declined(attempts[|attempts| - 1].1)
    {
      hide Mid, CompletionOk, AllOver, EndsSame, Evolves, ReadsOnly, OnlyDrains, CausesOk, OnlyExits, Blocked, Aborted, HasInput, GraphOk;
      ghost var s := State();
      EvolvesRefl(s);
      EndsRefl(s);
      MidSized(g, cap, s, {}, {});
      match event
      case Readable(i, available, end) =>
        if i < g.n {
          var taken := OnProducerReadable(i, available, end);
          EvolvesSize(s, State());
          assert ReadsUpTo(g, cap, i, available, end, taken, s, State());
        }
      case Writable(i) =>
        if i < g.n {
          DrainConsumer(i, {});
          assert {} - {i} == {};
          CompletionFollows(s, State());
          EndsEvolve(s, State());
          EndsRead(s, State(), i);
          EndsReadNothing(s, State(), i);
        }
      case ChildExits(i, code) =>
        if i < g.n {
          OnChildExit(i, code);
          EvolvesSize(s, State());
        }
      case CancelRequested =>
        Cancel();
        EvolvesSize(s, State());
    }
  }
}
