/** Every kind of change the dataflow runner makes keeps the graph's invariant, up to the repairs that follow it. */
module DagSteps {
  import opened Wire
  import opened DagSpec
  import opened DagFacts

  lemma Pieces(g: Graph, cap: nat, s: Dag, todo: set<nat>, wake: set<nat>, e: nat)
    requires Mid(g, cap, s, todo, wake) && e < |s.edges|
    ensures |s.edges| == |g.from| && g.from[e] < g.n && g.to[e] < g.n && |s.nodes| == g.n
    ensures EdgeOk(cap, s.edges[e], s.nodes[g.from[e]], s.nodes[g.to[e]], g.slot[e])
    ensures e in g.outgoing[g.from[e]] && g.slot[e] < |g.incoming[g.to[e]]| && g.incoming[g.to[e]][g.slot[e]] == e
  {
    hide EdgeOk;
  }

  // A write.

  predicate CanFeed(g: Graph, cap: nat, s: Dag, c: nat, t: Turn, todo: set<nat>) {
    && Mid(g, cap, s, todo, {}) && c < g.n && c in todo && s.nodes[c].stdinOpen
    && t.slot < |g.incoming[c]| && TurnOk(s.nodes[c].turns, t, |g.incoming[c]|)
    && t.bytes <= s.edges[g.incoming[c][t.slot]].buffer
  }

  lemma {:induction false} TotalHas(edges: seq<EdgeState>, e: nat)
    requires e < |edges|
    ensures |edges[e].buffer| <= Total(edges)
  {
    if e < |edges| - 1 { TotalHas(edges[..|edges| - 1], e); }
  }

  lemma FeedFits(g: Graph, cap: nat, s: Dag, c: nat, t: Turn, todo: set<nat>)
    requires CanFeed(g, cap, s, c, t, todo)
    ensures |t.bytes| <= s.buffered
  {
    TotalHas(s.edges, g.incoming[c][t.slot]);
  }

  lemma FeedKeepsEdges(g: Graph, cap: nat, s: Dag, c: nat, t: Turn, todo: set<nat>)
    requires CanFeed(g, cap, s, c, t, todo) && |t.bytes| <= s.buffered
    ensures EdgesOk(g, cap, FedState(g, s, c, t))
  {
    hide EdgeOk, FedNode, TurnOk;
    var s' := FedState(g, s, c, t);
    var e0 := g.incoming[c][t.slot];
    forall e | 0 <= e < |s'.edges| ensures EdgeOk(cap, s'.edges[e], s'.nodes[g.from[e]], s'.nodes[g.to[e]], g.slot[e]) {
      Pieces(g, cap, s, todo, {}, e);
      FedFlow(s.nodes[c], t, |g.incoming[c]|);
      var p, q := s.nodes[g.from[e]], s.nodes[g.to[e]];
      if e == e0 {
        FedEdge(cap, s.edges[e], p, q, t, |g.incoming[c]|);
        EdgeSource(cap, s'.edges[e], p, s'.nodes[g.from[e]], s'.nodes[c], g.slot[e]);
      } else if g.to[e] == c {
        FedOther(cap, s.edges[e], p, q, t, g.slot[e], |g.incoming[c]|);
        EdgeSource(cap, s'.edges[e], p, s'.nodes[g.from[e]], s'.nodes[c], g.slot[e]);
      } else {
        EdgeSource(cap, s'.edges[e], p, s'.nodes[g.from[e]], q, g.slot[e]);
      }
    }
  }

  lemma FedFlow(w: Node, t: Turn, d: nat)
    ensures FedNode(w, t, d).read == w.read && FedNode(w, t, d).stdoutClosed == w.stdoutClosed
  {
  }

  lemma EdgeSource(cap: nat, x: EdgeState, p: Node, p': Node, q: Node, slot: nat)
    requires EdgeOk(cap, x, p, q, slot) && p'.read == p.read && p'.stdoutClosed == p.stdoutClosed
    ensures EdgeOk(cap, x, p', q, slot)
  {
  }

  /** After a write everything holds but the pause state of that edge's producer. */
  lemma FeedKeeps(g: Graph, cap: nat, s: Dag, c: nat, t: Turn, todo: set<nat>)
    requires CanFeed(g, cap, s, c, t, todo) && |t.bytes| <= s.buffered
    ensures Mid(g, cap, FedState(g, s, c, t), todo, {g.from[g.incoming[c][t.slot]]})
  {
    hide EdgeOk, TurnOk, EdgesOk;
    var s' := FedState(g, s, c, t);
    var e0 := g.incoming[c][t.slot];
    FeedKeepsEdges(g, cap, s, c, t, todo);
    TotalAfterSet(s.edges, e0, s'.edges[e0]);
    ExitedAfterSet(s.nodes, c, s'.nodes[c]);
    FedTurns(s.nodes[c], t, |g.incoming[c]|);
    forall i | 0 <= i < g.n && i != g.from[e0] ensures NotForgotten(g, cap, s', i) {
      FramePaused(g, cap, s, s', i);
    }
    forall i | 0 <= i < g.n && i !in todo ensures WillDrain(g, s', i) {
      FrameDrain(g, s, s', i);
    }
  }

  // Read interest.

  function WithReadable(s: Dag, p: nat, readable: bool): Dag
    requires p < |s.nodes|
  {
    s.(nodes := s.nodes[p := s.nodes[p].(readable := readable)])
  }

  lemma ReadableFlow(g: Graph, cap: nat, s: Dag, p: nat, readable: bool, todo: set<nat>, wake: set<nat>)
    requires Mid(g, cap, s, todo, wake) && p < g.n
    ensures EdgesOk(g, cap, WithReadable(s, p, readable))
  {
    hide EdgeOk;
    var s' := WithReadable(s, p, readable);
    forall e | 0 <= e < |s'.edges| ensures EdgeOk(cap, s'.edges[e], s'.nodes[g.from[e]], s'.nodes[g.to[e]], g.slot[e]) {
      Pieces(g, cap, s, todo, wake, e);
      FrameEdge(cap, s.edges[e], s.nodes[g.from[e]], s.nodes[g.to[e]], s'.nodes[g.from[e]], s'.nodes[g.to[e]], g.slot[e]);
    }
  }

  /** Pausing a blocked producer, or resuming one that is not, settles it. */
  lemma ReadableKeeps(g: Graph, cap: nat, s: Dag, p: nat, readable: bool, todo: set<nat>, wake: set<nat>)
    requires Mid(g, cap, s, todo, wake) && p < g.n && !s.nodes[p].stdoutClosed
    requires readable || Blocked(g, cap, s, p)
    ensures Mid(g, cap, WithReadable(s, p, readable), todo, wake - {p})
  {
    hide EdgeOk, EdgesOk, TurnsOk, Blocked;
    var s' := WithReadable(s, p, readable);
    ReadableFlow(g, cap, s, p, readable, todo, wake);
    ExitedAfterSet(s.nodes, p, s'.nodes[p]);
    forall i | 0 <= i < g.n && i !in wake - {p} ensures NotForgotten(g, cap, s', i) {
      SameBlocked(g, cap, s, s', i);
    }
    forall i | 0 <= i < g.n && i !in todo ensures WillDrain(g, s', i) {
      FrameDrain(g, s, s', i);
    }
  }

  lemma SameBlocked(g: Graph, cap: nat, s: Dag, s': Dag, i: nat)
    requires s'.edges == s.edges
    ensures Blocked(g, cap, s', i) == Blocked(g, cap, s, i)
  {
  }

  /** Nothing to do for a closed producer or one whose interest already fits. */
  lemma ReadableSettled(g: Graph, cap: nat, s: Dag, p: nat, todo: set<nat>, wake: set<nat>)
    requires Mid(g, cap, s, todo, wake) && p < g.n && NotForgotten(g, cap, s, p)
    ensures Mid(g, cap, s, todo, wake - {p})
  {
    hide EdgesOk, NodeOk, NotForgotten, WillDrain;
  }

  // Write interest.

  function WithWritable(s: Dag, c: nat, writable: bool): Dag
    requires c < |s.nodes|
  {
    s.(nodes := s.nodes[c := s.nodes[c].(writable := writable)])
  }

  lemma WritableFlow(g: Graph, cap: nat, s: Dag, c: nat, writable: bool, todo: set<nat>)
    requires Mid(g, cap, s, todo, {}) && c < g.n
    ensures EdgesOk(g, cap, WithWritable(s, c, writable))
  {
    hide EdgeOk;
    var s' := WithWritable(s, c, writable);
    forall e | 0 <= e < |s'.edges| ensures EdgeOk(cap, s'.edges[e], s'.nodes[g.from[e]], s'.nodes[g.to[e]], g.slot[e]) {
      Pieces(g, cap, s, todo, {}, e);
      FrameEdge(cap, s.edges[e], s.nodes[g.from[e]], s.nodes[g.to[e]], s'.nodes[g.from[e]], s'.nodes[g.to[e]], g.slot[e]);
    }
  }

  /** Arming write interest for a consumer with input, or dropping it for one that waits for a predecessor. */
  lemma WritableKeeps(g: Graph, cap: nat, s: Dag, c: nat, writable: bool, todo: set<nat>)
    requires Mid(g, cap, s, todo, {}) && c < g.n
    requires if writable then HasInput(g, s, c) else !HasInput(g, s, c) && MayHaveInput(g, s, c)
    ensures Mid(g, cap, WithWritable(s, c, writable), todo - {c}, {})
  {
    hide EdgeOk, EdgesOk, TurnsOk, Blocked;
    var s' := WithWritable(s, c, writable);
    WritableFlow(g, cap, s, c, writable, todo);
    ExitedAfterSet(s.nodes, c, s'.nodes[c]);
    forall i | 0 <= i < g.n ensures NotForgotten(g, cap, s', i) {
      assert NotForgotten(g, cap, s, i);
      SameBlocked(g, cap, s, s', i);
    }
    hide HasInput, MayHaveInput;
    forall i | 0 <= i < g.n && i !in todo - {c} ensures WillDrain(g, s', i) {
      SameInputs(g, s, s', i);
    }
  }

  lemma SameInputs(g: Graph, s: Dag, s': Dag, i: nat)
    requires s'.edges == s.edges
    ensures HasInput(g, s', i) == HasInput(g, s, i) && MayHaveInput(g, s', i) == MayHaveInput(g, s, i)
  {
  }

  // Closing a consumer.

  function ShutNode(w: Node, why: Ending): Node {
    w.(stdinOpen := false, ending := why)
  }

  function ShutEdge(x: EdgeState): EdgeState {
    x.(buffer := [], consumerClosed := true)
  }

  predicate SameButReadable(a: Node, b: Node) {
    b == a.(readable := b.readable) && (a.stdoutClosed ==> b.readable == a.readable)
  }

  /** `s'` is `s` with the first `k` inputs of `c` discarded and some read interests changed. */
  predicate Shutting(g: Graph, s: Dag, s': Dag, c: nat, why: Ending, k: nat)
    requires GraphOk(g) && Sized(g, s) && c < g.n
  {
    && Sized(g, s')
    && s' == s.(nodes := s'.nodes, edges := s'.edges, buffered := s'.buffered)
    && s'.buffered == Total(s'.edges)
    && (forall i :: 0 <= i < g.n ==>
          SameButReadable(if i == c then ShutNode(s.nodes[c], why) else s.nodes[i], s'.nodes[i]))
    && (forall e :: 0 <= e < |s.edges| ==>
          s'.edges[e] == if g.to[e] == c && g.slot[e] < k then ShutEdge(s.edges[e]) else s.edges[e])
  }

  lemma ShutOne(cap: nat, x: EdgeState, p: Node, q: Node, p': Node, q': Node, why: Ending, slot: nat, hit: bool)
    requires EdgeOk(cap, x, p, q, slot) && p'.read == p.read && p'.stdoutClosed == p.stdoutClosed
    requires if hit then q.stdinOpen && SameFlow(ShutNode(q, why), q') else SameFlow(q, q')
    requires hit && why.Finished? ==> x.sourceClosed && x.buffer == []
    ensures EdgeOk(cap, if hit then ShutEdge(x) else x, p', q', slot)
  {
  }

  lemma ShutSource(g: Graph, s: Dag, s': Dag, c: nat, why: Ending, i: nat)
    requires GraphOk(g) && Sized(g, s) && c < g.n && i < g.n && Shutting(g, s, s', c, why, |g.incoming[c]|)
    ensures s'.nodes[i].read == s.nodes[i].read && s'.nodes[i].stdoutClosed == s.nodes[i].stdoutClosed
    ensures SameFlow(if i == c then ShutNode(s.nodes[c], why) else s.nodes[i], s'.nodes[i])
  {
  }

  /** Every predecessor of `c` has closed and nothing of it is left in the buffers. */
  predicate Drained(g: Graph, s: Dag, c: nat)
    requires GraphOk(g) && Sized(g, s) && c < g.n
  {
    forall k :: 0 <= k < |g.incoming[c]| ==> s.edges[g.incoming[c][k]].sourceClosed && s.edges[g.incoming[c][k]].buffer == []
  }

  lemma DrainedEdge(g: Graph, s: Dag, c: nat, e: nat)
    requires GraphOk(g) && Sized(g, s) && c < g.n && Drained(g, s, c) && e < |g.from| && g.to[e] == c
    ensures s.edges[e].sourceClosed && s.edges[e].buffer == []
  {
    assert g.incoming[c][g.slot[e]] == e;
  }

  lemma ShutEdgeAt(g: Graph, cap: nat, s: Dag, s': Dag, c: nat, why: Ending, e: nat)
    requires GraphOk(g) && Sized(g, s) && c < g.n && s.nodes[c].stdinOpen && (why.Finished? ==> Drained(g, s, c))
    requires Shutting(g, s, s', c, why, |g.incoming[c]|) && e < |s.edges|
    requires EdgeOk(cap, s.edges[e], s.nodes[g.from[e]], s.nodes[g.to[e]], g.slot[e])
    ensures EdgeOk(cap, s'.edges[e], s'.nodes[g.from[e]], s'.nodes[g.to[e]], g.slot[e])
  {
    ShutSource(g, s, s', c, why, g.from[e]);
    ShutSource(g, s, s', c, why, g.to[e]);
    if why.Finished? && g.to[e] == c { DrainedEdge(g, s, c, e); }
    hide EdgeOk, ShutNode, ShutEdge, SameFlow, SameButReadable, Drained;
    ShutOne(cap, s.edges[e], s.nodes[g.from[e]], s.nodes[g.to[e]], s'.nodes[g.from[e]], s'.nodes[g.to[e]], why,
            g.slot[e], g.to[e] == c);
  }

  lemma ShutEdges(g: Graph, cap: nat, s: Dag, s': Dag, c: nat, why: Ending)
    requires GraphOk(g) && Sized(g, s) && Sized(g, s') && EdgesOk(g, cap, s)
    requires c < g.n && s.nodes[c].stdinOpen && (why.Finished? ==> Drained(g, s, c))
    requires Shutting(g, s, s', c, why, |g.incoming[c]|)
    ensures EdgesOk(g, cap, s')
  {
    hide EdgeOk, Shutting, Drained;
    forall e | 0 <= e < |s'.edges| ensures EdgeOk(cap, s'.edges[e], s'.nodes[g.from[e]], s'.nodes[g.to[e]], g.slot[e]) {
      ShutEdgeAt(g, cap, s, s', c, why, e);
    }
  }

  lemma {:induction false} SameExited(a: seq<Node>, b: seq<Node>)
    requires |a| == |b| && forall i :: 0 <= i < |a| ==> a[i].exited == b[i].exited
    ensures Exited(a) == Exited(b)
  {
    if |a| > 0 { SameExited(a[..|a| - 1], b[..|b| - 1]); }
  }

  lemma ShutKeeps(g: Graph, cap: nat, s: Dag, s': Dag, c: nat, why: Ending, todo: set<nat>)
    requires Mid(g, cap, s, todo, {}) && c < g.n && s.nodes[c].stdinOpen && !why.Feeding?
    requires Shutting(g, s, s', c, why, |g.incoming[c]|) && (why.Finished? ==> Drained(g, s, c))
    requires forall i :: 0 <= i < g.n ==> NotForgotten(g, cap, s', i)
    ensures Mid(g, cap, s', todo - {c}, {})
  {
    hide EdgeOk, EdgesOk, TurnsOk, NotForgotten;
    ShutEdges(g, cap, s, s', c, why);
    SameExited(s.nodes, s'.nodes);
    forall i | 0 <= i < g.n && i !in todo - {c} ensures WillDrain(g, s', i) {
      if i != c { FrameDrain(g, s, s', i); }
    }
  }

  // A read from a producer.

  function Consumers(g: Graph, i: nat): set<nat>
    requires GraphOk(g) && i < g.n
  {
    set e | e in g.outgoing[i] && e < |g.to| :: g.to[e]
  }

  function Appended(x: EdgeState, bytes: seq<Byte>): EdgeState {
    if x.consumerClosed then x else x.(buffer := x.buffer + bytes)
  }

  /** `bytes` read from `i` and appended to the first `k` of its outgoing edges that are open. */
  predicate Spread(g: Graph, s: Dag, s': Dag, i: nat, bytes: seq<Byte>, k: nat)
    requires GraphOk(g) && Sized(g, s) && i < g.n && k <= |g.outgoing[i]|
  {
    && Sized(g, s')
    && s' == s.(nodes := s'.nodes, edges := s'.edges, buffered := s'.buffered, output := s'.output)
    && s'.nodes == s.nodes[i := s.nodes[i].(read := s.nodes[i].read + bytes)]
    && s'.output == (if g.outgoing[i] == [] then s.output + [(i, bytes)] else s.output)
    && s'.buffered == Total(s'.edges)
    && (forall e :: 0 <= e < |s.edges| ==>
          s'.edges[e] == if e in g.outgoing[i][..k] then Appended(s.edges[e], bytes) else s.edges[e])
  }

  predicate HasRoom(g: Graph, cap: nat, s: Dag, i: nat, size: nat)
    requires GraphOk(g) && Sized(g, s) && i < g.n
  {
    forall k :: 0 <= k < |g.outgoing[i]| && !s.edges[g.outgoing[i][k]].consumerClosed ==>
      |s.edges[g.outgoing[i][k]].buffer| + size <= cap
  }

  lemma ReadEdge(cap: nat, x: EdgeState, p: Node, q: Node, bytes: seq<Byte>, slot: nat)
    requires EdgeOk(cap, x, p, q, slot) && !p.stdoutClosed && (!x.consumerClosed ==> |x.buffer| + |bytes| <= cap)
    ensures EdgeOk(cap, Appended(x, bytes), p.(read := p.read + bytes), q, slot)
  {
    var taken := Taken(q.turns, slot);
    assert taken + (x.buffer + bytes) == (taken + x.buffer) + bytes;
  }

  lemma EdgeTarget(cap: nat, x: EdgeState, p: Node, q: Node, bytes: seq<Byte>, slot: nat)
    requires EdgeOk(cap, x, p, q, slot)
    ensures EdgeOk(cap, x, p, q.(read := q.read + bytes), slot)
  {
  }

  lemma SpreadEdge(g: Graph, cap: nat, s: Dag, s': Dag, i: nat, bytes: seq<Byte>, e: nat)
    requires GraphOk(g) && Sized(g, s) && i < g.n && !s.nodes[i].stdoutClosed && HasRoom(g, cap, s, i, |bytes|)
    requires Spread(g, s, s', i, bytes, |g.outgoing[i]|) && e < |s.edges|
    requires EdgeOk(cap, s.edges[e], s.nodes[g.from[e]], s.nodes[g.to[e]], g.slot[e])
    ensures EdgeOk(cap, s'.edges[e], s'.nodes[g.from[e]], s'.nodes[g.to[e]], g.slot[e])
  {
    hide EdgeOk, Appended;
    assert g.outgoing[i][..|g.outgoing[i]|] == g.outgoing[i];
    assert e in g.outgoing[i] <==> g.from[e] == i;
    var p, q := s.nodes[g.from[e]], s.nodes[g.to[e]];
    if g.from[e] == i {
      ReadEdge(cap, s.edges[e], p, q, bytes, g.slot[e]);
    }
    EdgeTarget(cap, s'.edges[e], s'.nodes[g.from[e]], q, bytes, g.slot[e]);
  }

  lemma SpreadEdges(g: Graph, cap: nat, s: Dag, s': Dag, i: nat, bytes: seq<Byte>)
    requires GraphOk(g) && Sized(g, s) && Sized(g, s') && EdgesOk(g, cap, s)
    requires i < g.n && !s.nodes[i].stdoutClosed && HasRoom(g, cap, s, i, |bytes|)
    requires Spread(g, s, s', i, bytes, |g.outgoing[i]|)
    ensures EdgesOk(g, cap, s')
  {
    hide EdgeOk, Spread, HasRoom;
    forall e | 0 <= e < |s'.edges| ensures EdgeOk(cap, s'.edges[e], s'.nodes[g.from[e]], s'.nodes[g.to[e]], g.slot[e]) {
      SpreadEdge(g, cap, s, s', i, bytes, e);
    }
  }

  lemma SpreadSinks(g: Graph, s: Dag, s': Dag, i: nat, bytes: seq<Byte>)
    requires GraphOk(g) && Sized(g, s) && SinksOk(g, s) && i < g.n && Spread(g, s, s', i, bytes, |g.outgoing[i]|)
    ensures SinksOk(g, s')
  {
    forall j | 0 <= j < g.n && g.outgoing[j] == [] ensures Shown(s'.output, j) == s'.nodes[j].read {
      ShownAfter(s.output, i, bytes, j);
    }
  }

  lemma SpreadOthers(g: Graph, s: Dag, s': Dag, i: nat, bytes: seq<Byte>, e: nat)
    requires GraphOk(g) && Sized(g, s) && i < g.n && Spread(g, s, s', i, bytes, |g.outgoing[i]|) && e < |s.edges|
    requires g.from[e] != i
    ensures s'.edges[e] == s.edges[e]
  {
    assert g.outgoing[i][..|g.outgoing[i]|] == g.outgoing[i];
  }

  lemma NotAConsumer(g: Graph, i: nat, j: nat, k: nat)
    requires GraphOk(g) && i < g.n && j < g.n && j !in Consumers(g, i) && k < |g.incoming[j]|
    ensures g.incoming[j][k] < |g.from| && g.from[g.incoming[j][k]] != i
  {
    var e := g.incoming[j][k];
    assert e in g.outgoing[g.from[e]];
  }

  /** A read that fits leaves only its consumers to be drained. */
  lemma SpreadKeeps(g: Graph, cap: nat, s: Dag, s': Dag, i: nat, bytes: seq<Byte>)
    requires Mid(g, cap, s, {}, {}) && i < g.n && s.nodes[i].readable && HasRoom(g, cap, s, i, |bytes|)
    requires Spread(g, s, s', i, bytes, |g.outgoing[i]|)
    ensures Mid(g, cap, s', Consumers(g, i), {})
  {
    hide EdgeOk, EdgesOk, SinksOk, TurnsOk, NotForgotten, WillDrain, HasRoom, Consumers;
    assert NodeOk(g, s.nodes[i], i);
    SpreadEdges(g, cap, s, s', i, bytes);
    SpreadSinks(g, s, s', i, bytes);
    SameExited(s.nodes, s'.nodes);
    SpreadPaused(g, cap, s, s', i, bytes);
    SpreadDrains(g, cap, s, s', i, bytes);
  }

  lemma SpreadPaused(g: Graph, cap: nat, s: Dag, s': Dag, i: nat, bytes: seq<Byte>)
    requires Mid(g, cap, s, {}, {}) && i < g.n && s.nodes[i].readable && Spread(g, s, s', i, bytes, |g.outgoing[i]|)
    ensures forall j :: 0 <= j < g.n ==> NotForgotten(g, cap, s', j)
  {
    hide EdgeOk, EdgesOk, SinksOk, NodeOk, WillDrain;
    forall j | 0 <= j < g.n ensures NotForgotten(g, cap, s', j) {
      if j != i {
        forall k | 0 <= k < |g.outgoing[j]| ensures s'.edges[g.outgoing[j][k]] == s.edges[g.outgoing[j][k]] {
          SpreadOthers(g, s, s', i, bytes, g.outgoing[j][k]);
        }
        assert NotForgotten(g, cap, s, j);
        hide Spread, Mid, NotForgotten;
        FramePaused(g, cap, s, s', j);
      }
    }
  }

  lemma SpreadDrains(g: Graph, cap: nat, s: Dag, s': Dag, i: nat, bytes: seq<Byte>)
    requires Mid(g, cap, s, {}, {}) && i < g.n && Spread(g, s, s', i, bytes, |g.outgoing[i]|)
    ensures forall j :: 0 <= j < g.n && j !in Consumers(g, i) ==> WillDrain(g, s', j)
  {
    hide EdgeOk, EdgesOk, SinksOk, NodeOk, NotForgotten, Consumers;
    forall j | 0 <= j < g.n && j !in Consumers(g, i) ensures WillDrain(g, s', j) {
      forall k | 0 <= k < |g.incoming[j]| ensures s'.edges[g.incoming[j][k]] == s.edges[g.incoming[j][k]] {
        NotAConsumer(g, i, j, k);
        SpreadOthers(g, s, s', i, bytes, g.incoming[j][k]);
      }
      assert WillDrain(g, s, j);
      hide Spread, Mid, WillDrain;
      FrameDrain(g, s, s', j);
    }
  }

  // End of a producer's output.

  /** `i` is at its end and the first `k` of its outgoing edges know it. */
  predicate Ended(g: Graph, s: Dag, s': Dag, i: nat, k: nat)
    requires GraphOk(g) && Sized(g, s) && i < g.n && k <= |g.outgoing[i]|
  {
    && Sized(g, s')
    && s' == s.(nodes := s'.nodes, edges := s'.edges)
    && s'.nodes == s.nodes[i := s.nodes[i].(stdoutClosed := true, readable := false)]
    && (forall e :: 0 <= e < |s.edges| ==>
          s'.edges[e] == if e in g.outgoing[i][..k] then s.edges[e].(sourceClosed := true) else s.edges[e])
  }

  lemma EndSource(cap: nat, x: EdgeState, p: Node, q: Node, slot: nat)
    requires EdgeOk(cap, x, p, q, slot)
    ensures EdgeOk(cap, x.(sourceClosed := true), p.(stdoutClosed := true, readable := false), q, slot)
  {
  }

  lemma EndTarget(cap: nat, x: EdgeState, p: Node, q: Node, slot: nat)
    requires EdgeOk(cap, x, p, q, slot)
    ensures EdgeOk(cap, x, p, q.(stdoutClosed := true, readable := false), slot)
  {
  }

  lemma EndedEdge(g: Graph, cap: nat, s: Dag, s': Dag, i: nat, e: nat)
    requires GraphOk(g) && Sized(g, s) && i < g.n && Ended(g, s, s', i, |g.outgoing[i]|) && e < |s.edges|
    requires EdgeOk(cap, s.edges[e], s.nodes[g.from[e]], s.nodes[g.to[e]], g.slot[e])
    ensures EdgeOk(cap, s'.edges[e], s'.nodes[g.from[e]], s'.nodes[g.to[e]], g.slot[e])
  {
    hide EdgeOk;
    assert g.outgoing[i][..|g.outgoing[i]|] == g.outgoing[i];
    assert e in g.outgoing[i] <==> g.from[e] == i;
    var p, q := s.nodes[g.from[e]], s.nodes[g.to[e]];
    if g.from[e] == i { EndSource(cap, s.edges[e], p, q, g.slot[e]); }
    EndTarget(cap, s'.edges[e], s'.nodes[g.from[e]], q, g.slot[e]);
  }

  lemma EndedEdges(g: Graph, cap: nat, s: Dag, s': Dag, i: nat)
    requires GraphOk(g) && Sized(g, s) && Sized(g, s') && EdgesOk(g, cap, s)
    requires i < g.n && Ended(g, s, s', i, |g.outgoing[i]|)
    ensures EdgesOk(g, cap, s')
  {
    hide EdgeOk, Ended;
    forall e | 0 <= e < |s'.edges| ensures EdgeOk(cap, s'.edges[e], s'.nodes[g.from[e]], s'.nodes[g.to[e]], g.slot[e]) {
      EndedEdge(g, cap, s, s', i, e);
    }
  }

  lemma {:induction false} SameTotal(a: seq<EdgeState>, b: seq<EdgeState>)
    requires |a| == |b| && forall e :: 0 <= e < |a| ==> a[e].buffer == b[e].buffer
    ensures Total(a) == Total(b)
  {
    if |a| > 0 { SameTotal(a[..|a| - 1], b[..|b| - 1]); }
  }

  lemma EndedOthers(g: Graph, s: Dag, s': Dag, i: nat, e: nat)
    requires GraphOk(g) && Sized(g, s) && i < g.n && Ended(g, s, s', i, |g.outgoing[i]|) && e < |s.edges|
    requires g.from[e] != i
    ensures s'.edges[e] == s.edges[e]
  {
    assert g.outgoing[i][..|g.outgoing[i]|] == g.outgoing[i];
  }

  lemma EndedPaused(g: Graph, cap: nat, s: Dag, s': Dag, i: nat)
    requires Mid(g, cap, s, {}, {}) && i < g.n && Ended(g, s, s', i, |g.outgoing[i]|)
    ensures forall j :: 0 <= j < g.n ==> NotForgotten(g, cap, s', j)
  {
    hide EdgeOk, EdgesOk, SinksOk, NodeOk, WillDrain;
    forall j | 0 <= j < g.n ensures NotForgotten(g, cap, s', j) {
      if j != i {
        forall k | 0 <= k < |g.outgoing[j]| ensures s'.edges[g.outgoing[j][k]] == s.edges[g.outgoing[j][k]] {
          EndedOthers(g, s, s', i, g.outgoing[j][k]);
        }
        assert NotForgotten(g, cap, s, j);
        hide Ended, Mid, NotForgotten;
        FramePaused(g, cap, s, s', j);
      }
    }
  }

  lemma EndedDrains(g: Graph, cap: nat, s: Dag, s': Dag, i: nat)
    requires Mid(g, cap, s, {}, {}) && i < g.n && Ended(g, s, s', i, |g.outgoing[i]|)
    ensures forall j :: 0 <= j < g.n && j !in Consumers(g, i) ==> WillDrain(g, s', j)
  {
    hide EdgeOk, EdgesOk, SinksOk, NodeOk, NotForgotten, Consumers;
    forall j | 0 <= j < g.n && j !in Consumers(g, i) ensures WillDrain(g, s', j) {
      forall k | 0 <= k < |g.incoming[j]| ensures s'.edges[g.incoming[j][k]] == s.edges[g.incoming[j][k]] {
        NotAConsumer(g, i, j, k);
        EndedOthers(g, s, s', i, g.incoming[j][k]);
      }
      assert WillDrain(g, s, j);
      hide Ended, Mid, WillDrain;
      FrameDrain(g, s, s', j);
    }
  }

  /** The end of an output leaves only its consumers to be drained. */
  lemma EndedKeeps(g: Graph, cap: nat, s: Dag, s': Dag, i: nat)
    requires Mid(g, cap, s, {}, {}) && i < g.n && Ended(g, s, s', i, |g.outgoing[i]|)
    ensures Mid(g, cap, s', Consumers(g, i), {})
  {
    hide EdgeOk, EdgesOk, TurnsOk, NotForgotten, WillDrain, Consumers;
    EndedEdges(g, cap, s, s', i);
    SameExited(s.nodes, s'.nodes);
    SameTotal(s.edges, s'.edges);
    EndedPaused(g, cap, s, s', i);
    EndedDrains(g, cap, s, s', i);
  }

  // Exit of a child, completion, cancellation.

  function ExitedState(s: Dag, i: nat, code: int): Dag
    requires i < |s.nodes|
  {
    s.(nodes := s.nodes[i := s.nodes[i].(exited := true, exitCode := code)], exitedCount := s.exitedCount + 1)
  }

  lemma ExitFlow(g: Graph, cap: nat, s: Dag, i: nat, code: int)
    requires GraphOk(g) && Sized(g, s) && EdgesOk(g, cap, s) && i < g.n
    ensures EdgesOk(g, cap, ExitedState(s, i, code))
  {
    hide EdgeOk;
    var s' := ExitedState(s, i, code);
    forall e | 0 <= e < |s'.edges| ensures EdgeOk(cap, s'.edges[e], s'.nodes[g.from[e]], s'.nodes[g.to[e]], g.slot[e]) {
      FrameEdge(cap, s.edges[e], s.nodes[g.from[e]], s.nodes[g.to[e]], s'.nodes[g.from[e]], s'.nodes[g.to[e]], g.slot[e]);
    }
  }

  lemma ExitKeeps(g: Graph, cap: nat, s: Dag, i: nat, code: int)
    requires Mid(g, cap, s, {}, {}) && i < g.n && !s.nodes[i].exited && !s.nodes[i].stdinOpen
    ensures Mid(g, cap, ExitedState(s, i, code), {}, {})
  {
    hide EdgeOk, EdgesOk, TurnsOk, Blocked, HasInput, MayHaveInput;
    var s' := ExitedState(s, i, code);
    ExitFlow(g, cap, s, i, code);
    ExitedAfterSet(s.nodes, i, s'.nodes[i]);
    forall j | 0 <= j < g.n ensures NotForgotten(g, cap, s', j) {
      assert NotForgotten(g, cap, s, j);
      SameBlocked(g, cap, s, s', j);
    }
    forall j | 0 <= j < g.n ensures WillDrain(g, s', j) {
      assert WillDrain(g, s, j);
      SameInputs(g, s, s', j);
    }
  }

  /** A consumer that is not open needs no draining. */
  lemma ClosedNeedsNothing(g: Graph, cap: nat, s: Dag, c: nat, todo: set<nat>)
    requires Mid(g, cap, s, todo, {}) && c < g.n && !s.nodes[c].stdinOpen
    ensures Mid(g, cap, s, todo - {c}, {})
  {
    hide EdgesOk, NodeOk, NotForgotten;
  }

  lemma MoreToDrain(g: Graph, cap: nat, s: Dag, todo: set<nat>, todo': set<nat>)
    requires Mid(g, cap, s, todo, {}) && todo <= todo'
    ensures Mid(g, cap, s, todo', {})
  {
    hide EdgesOk, NodeOk, NotForgotten, WillDrain;
  }

  /** The stage is at the same point but for what was written to its input, and that input may have been closed. */
  predicate Continues(a: Node, b: Node) {
    && b.exited == a.exited && b.stdoutClosed == a.stdoutClosed && b.exitCode == a.exitCode && b.read == a.read
    && a.turns <= b.turns && (!a.stdinOpen ==> !b.stdinOpen && b.ending == a.ending && b.turns == a.turns)
  }

  /** Nothing about the ends of the stages, the output or completion changes. */
  predicate EndsSame(s: Dag, s': Dag) {
    && |s'.nodes| == |s.nodes| && s'.done == s.done && s'.cancelled == s.cancelled && s'.outcomes == s.outcomes
    && s'.output == s.output && s.broke <= s'.broke && s.written <= s'.written
    && forall i :: 0 <= i < |s.nodes| ==> Continues(s.nodes[i], s'.nodes[i])
  }

  lemma EndsSameOn(a: Dag, b: Dag, d: Dag)
    requires EndsSame(a, b) && EndsSame(b, d)
    ensures EndsSame(a, d)
  {
    forall i | 0 <= i < |a.nodes| ensures Continues(a.nodes[i], d.nodes[i]) {
      assert Continues(a.nodes[i], b.nodes[i]) && Continues(b.nodes[i], d.nodes[i]);
    }
  }

  lemma OnlyDrainsOn(a: Dag, b: Dag, d: Dag)
    requires OnlyDrains(a, b) && OnlyDrains(b, d)
    ensures OnlyDrains(a, d)
  {
    hide TurnsAreWrites;
    forall i | 0 <= i < |a.nodes|
      ensures InputDrains(a.nodes[i], d.nodes[i], i in a.broke, i in d.broke)
      ensures TurnsAreWrites(a, i) ==> TurnsAreWrites(d, i)
    {
      assert InputDrains(a.nodes[i], b.nodes[i], i in a.broke, i in b.broke);
      assert InputDrains(b.nodes[i], d.nodes[i], i in b.broke, i in d.broke);
    }
  }

  /** No child exits, no input ends and nothing is written. */
  predicate Steady(s: Dag, s': Dag) {
    && |s'.nodes| == |s.nodes| && s'.cancelled == s.cancelled && s'.broke == s.broke && s'.written == s.written
    && forall i :: 0 <= i < |s.nodes| ==>
         && s'.nodes[i].exited == s.nodes[i].exited && s'.nodes[i].exitCode == s.nodes[i].exitCode
         && s'.nodes[i].ending == s.nodes[i].ending && s'.nodes[i].turns == s.nodes[i].turns
  }

  lemma SteadyDrains(s: Dag, s': Dag)
    requires Steady(s, s')
    ensures OnlyDrains(s, s')
  {
  }

  /** Only the input of `c` is closed, for this reason, unless it was closed already. */
  predicate OnlyCloses(s: Dag, s': Dag, c: nat, why: Ending) {
    && |s'.nodes| == |s.nodes| && s'.cancelled == s.cancelled && s'.broke == s.broke && s'.written == s.written
    && forall i :: 0 <= i < |s.nodes| ==>
         && s'.nodes[i].turns == s.nodes[i].turns
         && s'.nodes[i].exited == s.nodes[i].exited && s'.nodes[i].exitCode == s.nodes[i].exitCode
         && s'.nodes[i].ending == if i == c && s.nodes[c].stdinOpen then why else s.nodes[i].ending
  }

  /** Closing an input that is finished, or one a write to which has just failed. */
  lemma ClosesDrains(g: Graph, cap: nat, s: Dag, s1: Dag, s2: Dag, c: nat, why: Ending, todo: set<nat>)
    requires Mid(g, cap, s, todo, {}) && c < g.n && OnlyCloses(s1, s2, c, why)
    requires if why.BrokenPipe? then s1 == s.(broke := s.broke + {c}) && s.nodes[c].stdinOpen
             else s1 == s && why.Finished? && c !in s.broke
    ensures OnlyDrains(s, s2)
  {
    assert NodeOk(g, s.nodes[c], c);
    hide Mid, NodeOk;
    forall i | 0 <= i < |s.nodes|
      ensures InputDrains(s.nodes[i], s2.nodes[i], i in s.broke, i in s2.broke)
      ensures TurnsAreWrites(s, i) ==> TurnsAreWrites(s2, i)
    {
      assert s1.nodes[i] == s.nodes[i] && s2.written == s.written && s2.nodes[i].turns == s.nodes[i].turns;
      hide AllTaken, Shown;
    }
  }

  lemma CausesFollow(g: Graph, s: Dag, s': Dag)
    requires CausesOk(g, s) && OnlyDrains(s, s')
    ensures CausesOk(g, s')
  {
    forall i | 0 <= i < |s'.nodes| ensures CauseOk(g, s', i) {
      assert CauseOk(g, s, i) && InputDrains(s.nodes[i], s'.nodes[i], i in s.broke, i in s'.broke);
      hide TurnsAreWrites;
    }
  }

  /** An open input has not broken. */
  lemma OpenIsWhole(g: Graph, cap: nat, s: Dag, c: nat, todo: set<nat>)
    requires Mid(g, cap, s, todo, {}) && CausesOk(g, s) && c < g.n && s.nodes[c].stdinOpen
    ensures c !in s.broke
  {
    assert NodeOk(g, s.nodes[c], c) && CauseOk(g, s, c);
    hide Mid, CausesOk;
  }

  lemma OpenIsFed(g: Graph, cap: nat, s: Dag, c: nat, todo: set<nat>)
    requires Mid(g, cap, s, todo, {}) && c < g.n
    ensures c < |s.nodes| && (s.nodes[c].stdinOpen ==> s.nodes[c].ending.Feeding?)
  {
    assert NodeOk(g, s.nodes[c], c);
    hide Mid;
  }

  lemma NothingCloses(s: Dag, c: nat, why: Ending)
    requires c < |s.nodes| && !s.nodes[c].stdinOpen
    ensures OnlyCloses(s, s, c, why)
  {
  }

  /** What a write records of the pipes leaves the graph as it is. */
  lemma SameButPipes(g: Graph, cap: nat, s: Dag, s': Dag, todo: set<nat>)
    requires Mid(g, cap, s, todo, {}) && s' == s.(broke := s'.broke, written := s'.written)
    requires s.broke <= s'.broke && s.written <= s'.written
    ensures Mid(g, cap, s', todo, {}) && EndsSame(s, s')
  {
    hide EdgeOk, TurnsOk;
    forall i | 0 <= i < g.n ensures NotForgotten(g, cap, s', i) && (i !in todo ==> WillDrain(g, s', i)) {
      assert NotForgotten(g, cap, s, i);
      SameBlocked(g, cap, s, s', i);
      SameInputs(g, s, s', i);
    }
  }

  /** No stage but `i` exits or has its input end, and nothing is written. */
  predicate OnlyExits(s: Dag, s': Dag, i: nat) {
    && |s'.nodes| == |s.nodes| && s'.cancelled == s.cancelled && s'.broke == s.broke && s'.written == s.written
    && forall j :: 0 <= j < |s.nodes| && j != i ==>
         && s'.nodes[j].exited == s.nodes[j].exited && s'.nodes[j].exitCode == s.nodes[j].exitCode
         && s'.nodes[j].ending == s.nodes[j].ending
  }

  lemma ExitCauses(g: Graph, s: Dag, s1: Dag, i: nat, code: int)
    requires CausesOk(g, s) && OnlyCloses(s, s1, i, ChildGone) && i < |s.nodes|
    requires s.nodes[i].stdinOpen ==> s.nodes[i].ending.Feeding?
    ensures CausesOk(g, ExitedState(s1, i, code))
  {
    var s2 := ExitedState(s1, i, code);
    forall j | 0 <= j < |s2.nodes| ensures CauseOk(g, s2, j) {
      assert CauseOk(g, s, j);
    }
  }

  lemma EvolvesOn(a: Dag, b: Dag, d: Dag)
    requires Evolves(a, b) && Evolves(b, d)
    ensures Evolves(a, d)
  {
    forall i | 0 <= i < |a.nodes| ensures NodeEvolves(a.nodes[i], d.nodes[i]) {
      assert NodeEvolves(a.nodes[i], b.nodes[i]) && NodeEvolves(b.nodes[i], d.nodes[i]);
    }
  }

  lemma EvolvesSize(s: Dag, s': Dag)
    requires Evolves(s, s')
    ensures |s'.nodes| == |s.nodes|
  {
  }

  lemma EvolvesRefl(s: Dag)
    ensures Evolves(s, s)
  {
  }

  lemma EndsEvolve(s: Dag, s': Dag)
    requires EndsSame(s, s')
    ensures Evolves(s, s')
  {
    forall i | 0 <= i < |s.nodes| ensures NodeEvolves(s.nodes[i], s'.nodes[i]) {
      assert Continues(s.nodes[i], s'.nodes[i]);
    }
  }

  /** No stage but `i` has output read. */
  predicate ReadsOnly(s: Dag, s': Dag, i: nat) {
    |s'.nodes| == |s.nodes| && forall j :: 0 <= j < |s.nodes| && j != i ==> s'.nodes[j].read == s.nodes[j].read
  }

  lemma ReadsOnlyOn(a: Dag, b: Dag, d: Dag, i: nat)
    requires ReadsOnly(a, b, i) && ReadsOnly(b, d, i)
    ensures ReadsOnly(a, d, i)
  {
    forall j | 0 <= j < |a.nodes| && j != i ensures d.nodes[j].read == a.nodes[j].read {
      assert b.nodes[j].read == a.nodes[j].read;
    }
  }

  lemma EndsReadNothing(s: Dag, s': Dag, i: nat)
    requires EndsSame(s, s')
    ensures ReadsOnly(s, s', i)
  {
    forall j | 0 <= j < |s.nodes| ensures s'.nodes[j].read == s.nodes[j].read {
      assert Continues(s.nodes[j], s'.nodes[j]);
    }
  }

  lemma EvolvesOne(s: Dag, s': Dag, i: nat)
    requires |s'.nodes| == |s.nodes| && i < |s.nodes| && s'.nodes == s.nodes[i := s'.nodes[i]]
    requires s.outcomes <= s'.outcomes && s.output <= s'.output && (s.done ==> s'.done) && (s.cancelled ==> s'.cancelled)
    requires s.broke <= s'.broke && s.written <= s'.written
    requires NodeEvolves(s.nodes[i], s'.nodes[i])
    ensures Evolves(s, s')
  {
  }

  lemma CompletionFollows(s: Dag, s': Dag)
    requires EndsSame(s, s')
    ensures CompletionOk(s) ==> CompletionOk(s')
    ensures AllOver(s.nodes) <==> AllOver(s'.nodes)
  {
    forall i | 0 <= i < |s.nodes| ensures Continues(s.nodes[i], s'.nodes[i]) {
    }
    assert ExitCodes(s.nodes) == ExitCodes(s'.nodes);
  }

  lemma MidSized(g: Graph, cap: nat, s: Dag, todo: set<nat>, wake: set<nat>)
    requires Mid(g, cap, s, todo, wake)
    ensures GraphOk(g) && Sized(g, s)
  {
  }

  lemma EndsOne(s: Dag, s': Dag, i: nat)
    requires |s'.nodes| == |s.nodes| && i < |s.nodes| && s'.nodes == s.nodes[i := s'.nodes[i]]
    requires s'.done == s.done && s'.cancelled == s.cancelled && s'.outcomes == s.outcomes && s'.output == s.output
    requires s.broke <= s'.broke && s.written <= s'.written
    requires Continues(s.nodes[i], s'.nodes[i])
    ensures EndsSame(s, s')
  {
  }

  // The turn a round-robin scan arrives at.

  function Waiting(g: Graph, s: Dag, c: nat): set<nat>
    requires GraphOk(g) && Sized(g, s) && c < g.n
  {
    set k | 0 <= k < |g.incoming[c]| && s.edges[g.incoming[c][k]].buffer != []
  }

  /** `slot` is the first input of `c` with data, seen from its cursor, and `count` of its bytes were taken. */
  predicate CanTake(g: Graph, s: Dag, c: nat, slot: nat, count: nat) {
    && GraphOk(g) && Sized(g, s) && c < g.n && s.nodes[c].stdinOpen
    && slot < |g.incoming[c]| && s.nodes[c].next < |g.incoming[c]|
    && 0 < count <= |s.edges[g.incoming[c][slot]].buffer|
    && forall w :: 0 <= w < |g.incoming[c]| && s.edges[g.incoming[c][w]].buffer != [] ==>
        Ahead(s.nodes[c].next, slot, |g.incoming[c]|) <= Ahead(s.nodes[c].next, w, |g.incoming[c]|)
  }

  function TakenTurn(g: Graph, s: Dag, c: nat, slot: nat, count: nat): Turn
    requires CanTake(g, s, c, slot, count)
  {
    Turn(slot, Waiting(g, s, c), s.edges[g.incoming[c][slot]].buffer[..count])
  }

  lemma TakeIsTurn(g: Graph, cap: nat, s: Dag, c: nat, slot: nat, count: nat, todo: set<nat>)
    requires Mid(g, cap, s, todo, {}) && c in todo && CanTake(g, s, c, slot, count)
    ensures CanFeed(g, cap, s, c, TakenTurn(g, s, c, slot, count), todo)
  {
    assert s.nodes[c].next == Cursor(s.nodes[c].turns, |g.incoming[c]|) by { assert NodeOk(g, s.nodes[c], c); }
    hide Mid, NodeOk;
    FirstIsTurn(g, s, c, slot, count);
  }

  lemma FirstIsTurn(g: Graph, s: Dag, c: nat, slot: nat, count: nat)
    requires CanTake(g, s, c, slot, count) && s.nodes[c].next == Cursor(s.nodes[c].turns, |g.incoming[c]|)
    ensures TurnOk(s.nodes[c].turns, TakenTurn(g, s, c, slot, count), |g.incoming[c]|)
  {
  }

  /** The log of what the pipes took plays no part in the choice of an input. */
  lemma TakeWritten(g: Graph, s: Dag, s1: Dag, c: nat, slot: nat, count: nat)
    requires CanTake(g, s, c, slot, count) && s1 == s.(written := s1.written)
    ensures CanTake(g, s1, c, slot, count) && TakenTurn(g, s1, c, slot, count) == TakenTurn(g, s, c, slot, count)
    ensures TakenTurn(g, s, c, slot, count).bytes == s.edges[g.incoming[c][slot]].buffer[..count]
  {
  }

  lemma TakeShape(g: Graph, s: Dag, c: nat, slot: nat, count: nat)
    requires CanTake(g, s, c, slot, count)
    ensures c < |s.nodes| && c < g.n && slot < |g.incoming[c]| && g.incoming[c][slot] < |g.from| && s.nodes[c].stdinOpen
    ensures count > 0 && |TakenTurn(g, s, c, slot, count).bytes| == count && TakenTurn(g, s, c, slot, count).slot == slot
    ensures count <= |s.edges[g.incoming[c][slot]].buffer|
  {
  }

  lemma FedEnds(g: Graph, s: Dag, c: nat, t: Turn)
    requires GraphOk(g) && Sized(g, s) && c < g.n && t.slot < |g.incoming[c]|
    requires |t.bytes| <= |s.edges[g.incoming[c][t.slot]].buffer| && |t.bytes| <= s.buffered && s.nodes[c].stdinOpen
    ensures EndsSame(s, FedState(g, s, c, t))
    ensures var s' := FedState(g, s, c, t);
            s'.buffered == s.buffered - |t.bytes| && |s'.nodes| == |s.nodes| && s'.nodes[c].stdinOpen == s.nodes[c].stdinOpen
  {
  }

  /** The stage is given what the pipe has just taken. */
  lemma FedDrains(g: Graph, s: Dag, s1: Dag, c: nat, t: Turn)
    requires GraphOk(g) && Sized(g, s) && c < g.n && t.slot < |g.incoming[c]|
    requires s1 == s.(written := s.written + [(c, t.bytes)])
    requires |t.bytes| <= |s.edges[g.incoming[c][t.slot]].buffer| && |t.bytes| <= s.buffered
    ensures OnlyDrains(s, FedState(g, s1, c, t))
  {
    AllTakenAfter(s.nodes[c].turns, t);
    forall i | 0 <= i < |s.nodes| ensures TurnsAreWrites(s, i) ==> TurnsAreWrites(FedState(g, s1, c, t), i) {
      ShownAfter(s.written, c, t.bytes, i);
    }
  }

  lemma EndsRefl(s: Dag)
    ensures EndsSame(s, s) && OnlyDrains(s, s)
  {
  }

  lemma CursorInRange(g: Graph, cap: nat, s: Dag, c: nat, todo: set<nat>)
    requires Mid(g, cap, s, todo, {}) && c < g.n && s.nodes[c].stdinOpen
    ensures s.nodes[c].next < |g.incoming[c]|
  {
    assert NodeOk(g, s.nodes[c], c);
    var turns := s.nodes[c].turns;
    if |turns| > 0 {
      assert TurnOk(turns[..|turns| - 1], turns[|turns| - 1], |g.incoming[c]|);
    }
  }

  lemma InputThere(g: Graph, s: Dag, c: nat, slot: nat)
    requires GraphOk(g) && Sized(g, s) && c < g.n && slot < |g.incoming[c]| && s.edges[g.incoming[c][slot]].buffer != []
    ensures HasInput(g, s, c)
  {
  }

  lemma ScanFound(g: Graph, s: Dag, c: nat, slot: nat, count: nat)
    requires GraphOk(g) && Sized(g, s) && c < g.n && s.nodes[c].stdinOpen && s.nodes[c].next < |g.incoming[c]|
    requires slot < |g.incoming[c]| && 0 < count <= |s.edges[g.incoming[c][slot]].buffer|
    requires forall w :: 0 <= w < |g.incoming[c]| && s.edges[g.incoming[c][w]].buffer != [] ==>
               Ahead(s.nodes[c].next, slot, |g.incoming[c]|) <= Ahead(s.nodes[c].next, w, |g.incoming[c]|)
    ensures CanTake(g, s, c, slot, count)
  {
  }

  /** With nothing buffered, either every predecessor is closed or one may still deliver. */
  lemma DrainedOrWaiting(g: Graph, cap: nat, s: Dag, c: nat, todo: set<nat>)
    requires Mid(g, cap, s, todo, {}) && c < g.n && s.nodes[c].stdinOpen && !HasInput(g, s, c)
    ensures if forall k :: 0 <= k < |g.incoming[c]| ==>
                 s.edges[g.incoming[c][k]].sourceClosed || s.edges[g.incoming[c][k]].consumerClosed
            then Drained(g, s, c) else MayHaveInput(g, s, c)
  {
    forall k | 0 <= k < |g.incoming[c]| ensures !s.edges[g.incoming[c][k]].consumerClosed && s.edges[g.incoming[c][k]].buffer == [] {
      Pieces(g, cap, s, todo, {}, g.incoming[c][k]);
    }
    hide Mid, EdgeOk;
  }

  // Read interest, whatever it was.

  function Resumed(s: Dag, p: nat, readable: bool): Dag
    requires p < |s.nodes|
  {
    WithReadable(s, p, if s.nodes[p].stdoutClosed then s.nodes[p].readable else readable)
  }

  lemma ResumeKeeps(g: Graph, cap: nat, s: Dag, p: nat, readable: bool, todo: set<nat>, wake: set<nat>)
    requires Mid(g, cap, s, todo, wake) && p < g.n && (readable <==> !Blocked(g, cap, s, p))
    ensures p < |s.nodes| && Mid(g, cap, Resumed(s, p, readable), todo, wake - {p}) && EndsSame(s, Resumed(s, p, readable))
    ensures Steady(s, Resumed(s, p, readable))
  {
    hide Mid, Blocked, EndsSame, GraphOk;
    MidSized(g, cap, s, todo, wake);
    EndsOne(s, Resumed(s, p, readable), p);
    if s.nodes[p].stdoutClosed {
      assert s.nodes[p := s.nodes[p]] == s.nodes;
      ReadableSettled(g, cap, s, p, todo, wake);
    } else {
      ReadableKeeps(g, cap, s, p, readable, todo, wake);
    }
  }

  // Closing a consumer, one input at a time.

  function Later(g: Graph, c: nat, k: nat): set<nat>
    requires GraphOk(g) && c < g.n
  {
    set j | k <= j < |g.incoming[c]| :: g.from[g.incoming[c][j]]
  }

  predicate AwakeBut(g: Graph, cap: nat, s: Dag, asleep: set<nat>)
    requires Sized(g, s)
  {
    forall i :: 0 <= i < g.n && i !in asleep ==> NotForgotten(g, cap, s, i)
  }

  function Discarded(g: Graph, s: Dag, e: nat): Dag
    requires e < |s.edges| && |s.edges[e].buffer| <= s.buffered
  {
    s.(edges := s.edges[e := ShutEdge(s.edges[e])], buffered := s.buffered - |s.edges[e].buffer|)
  }

  lemma ShutBegins(g: Graph, cap: nat, s: Dag, c: nat, why: Ending, todo: set<nat>)
    requires Mid(g, cap, s, todo, {}) && c < g.n
    ensures var s' := s.(nodes := s.nodes[c := ShutNode(s.nodes[c], why)]);
            Shutting(g, s, s', c, why, 0) && AwakeBut(g, cap, s', Later(g, c, 0))
  {
    var s' := s.(nodes := s.nodes[c := ShutNode(s.nodes[c], why)]);
    hide EdgesOk, WillDrain;
    forall i | 0 <= i < g.n ensures NotForgotten(g, cap, s', i) {
      assert NotForgotten(g, cap, s, i);
      FramePaused(g, cap, s, s', i);
    }
  }

  lemma ShutOneMore(g: Graph, s: Dag, s1: Dag, c: nat, why: Ending, k: nat)
    requires GraphOk(g) && Sized(g, s) && c < g.n && k < |g.incoming[c]| && Shutting(g, s, s1, c, why, k)
    ensures var e := g.incoming[c][k];
            && e < |s1.edges| && |s1.edges[e].buffer| <= s1.buffered
            && Shutting(g, s, Discarded(g, s1, e), c, why, k + 1)
  {
    hide SameButReadable, ShutNode;
    var e := g.incoming[c][k];
    TotalHas(s1.edges, e);
    TotalAfterSet(s1.edges, e, ShutEdge(s1.edges[e]));
  }

  lemma ShutThenResume(g: Graph, s: Dag, s1: Dag, c: nat, why: Ending, k: nat, p: nat, readable: bool)
    requires GraphOk(g) && Sized(g, s) && c < g.n && Shutting(g, s, s1, c, why, k) && p < g.n
    ensures p < |s1.nodes| && Shutting(g, s, Resumed(s1, p, readable), c, why, k)
  {
    var s' := Resumed(s1, p, readable);
    hide ShutEdge;
    forall i | 0 <= i < g.n
      ensures SameButReadable(if i == c then ShutNode(s.nodes[c], why) else s.nodes[i], s'.nodes[i])
    {
      assert SameButReadable(if i == c then ShutNode(s.nodes[c], why) else s.nodes[i], s1.nodes[i]);
    }
  }

  lemma AwakeAfterDiscard(g: Graph, cap: nat, s: Dag, c: nat, k: nat, readable: bool)
    requires GraphOk(g) && Sized(g, s) && c < g.n && k < |g.incoming[c]| && AwakeBut(g, cap, s, Later(g, c, k))
    requires |s.edges[g.incoming[c][k]].buffer| <= s.buffered
    requires readable <==> !Blocked(g, cap, Discarded(g, s, g.incoming[c][k]), g.from[g.incoming[c][k]])
    ensures AwakeBut(g, cap, Resumed(Discarded(g, s, g.incoming[c][k]), g.from[g.incoming[c][k]], readable), Later(g, c, k + 1))
  {
    var e := g.incoming[c][k];
    var s1 := Discarded(g, s, e);
    var p := g.from[e];
    var s2 := Resumed(s1, p, readable);
    hide Blocked, ShutEdge;
    forall i | 0 <= i < g.n && i !in Later(g, c, k + 1) ensures NotForgotten(g, cap, s2, i) {
      SameBlocked(g, cap, s1, s2, i);
      if i != p {
        LaterStep(g, c, k, i);
        FramePaused(g, cap, s, s2, i);
      }
    }
  }

  lemma LaterStep(g: Graph, c: nat, k: nat, i: nat)
    requires GraphOk(g) && c < g.n && k < |g.incoming[c]| && i != g.from[g.incoming[c][k]] && i !in Later(g, c, k + 1)
    ensures i !in Later(g, c, k)
  {
  }

  lemma ShutEnds(g: Graph, s: Dag, s': Dag, c: nat, why: Ending, k: nat)
    requires GraphOk(g) && Sized(g, s) && c < g.n && Shutting(g, s, s', c, why, k) && s.nodes[c].stdinOpen
    ensures EndsSame(s, s') && c < |s'.nodes| && !s'.nodes[c].stdinOpen && OnlyCloses(s, s', c, why)
  {
    forall i | 0 <= i < |s.nodes| ensures Continues(s.nodes[i], s'.nodes[i]) {
      assert SameButReadable(if i == c then ShutNode(s.nodes[c], why) else s.nodes[i], s'.nodes[i]);
    }
  }

  lemma AllAwake(g: Graph, cap: nat, s: Dag, c: nat)
    requires GraphOk(g) && Sized(g, s) && c < g.n && AwakeBut(g, cap, s, Later(g, c, |g.incoming[c]|))
    ensures forall i :: 0 <= i < g.n ==> NotForgotten(g, cap, s, i)
  {
    assert Later(g, c, |g.incoming[c]|) == {};
  }

  // Reading.

  lemma EdgesWithin(g: Graph, cap: nat, s: Dag, todo: set<nat>, wake: set<nat>)
    requires Mid(g, cap, s, todo, wake)
    ensures forall e :: 0 <= e < |s.edges| ==> |s.edges[e].buffer| <= cap
  {
    forall e | 0 <= e < |s.edges| ensures |s.edges[e].buffer| <= cap {
      Pieces(g, cap, s, todo, wake, e);
    }
  }

  lemma RoomForLess(g: Graph, cap: nat, s: Dag, i: nat, limit: nat, count: nat)
    requires GraphOk(g) && Sized(g, s) && i < g.n && HasRoom(g, cap, s, i, limit) && count <= limit
    ensures HasRoom(g, cap, s, i, count)
  {
  }

  /** A producer with room downstream is not paused. */
  lemma RoomMeansReadable(g: Graph, cap: nat, s: Dag, i: nat, count: nat)
    requires Mid(g, cap, s, {}, {}) && i < g.n && HasRoom(g, cap, s, i, count) && count > 0 && !s.nodes[i].stdoutClosed
    ensures s.nodes[i].readable
  {
    assert NotForgotten(g, cap, s, i);
    hide EdgesOk, NodeOk, WillDrain;
  }

  lemma OpenIsAwake(g: Graph, cap: nat, s: Dag, i: nat)
    requires Inv(g, cap, s) && i < g.n && Blocked(g, cap, s, i)
    ensures i < |s.nodes| && Inv(g, cap, Resumed(s, i, false)) && EndsSame(s, Resumed(s, i, false))
    ensures OnlyDrains(s, Resumed(s, i, false))
  {
    ResumeKeeps(g, cap, s, i, false, {}, {});
    CompletionFollows(s, Resumed(s, i, false));
    SteadyDrains(s, Resumed(s, i, false));
    CausesFollow(g, s, Resumed(s, i, false));
    hide Mid, CompletionOk, AllOver, CausesOk, OnlyDrains, Steady;
    assert {} - {i} == {};
  }

  predicate SpreadMid(g: Graph, s: Dag, s': Dag, i: nat, bytes: seq<Byte>, k: nat, consumers: set<nat>)
    requires GraphOk(g) && Sized(g, s) && i < g.n && k <= |g.outgoing[i]|
  {
    && Spread(g, s, s', i, bytes, k)
    && (forall c :: c in consumers ==> c in Consumers(g, i))
    && (forall j :: 0 <= j < k && !s.edges[g.outgoing[i][j]].consumerClosed ==> g.to[g.outgoing[i][j]] in consumers)
  }

  lemma SpreadOneMore(g: Graph, s: Dag, s1: Dag, i: nat, bytes: seq<Byte>, k: nat)
    requires GraphOk(g) && Sized(g, s) && i < g.n && k < |g.outgoing[i]| && Spread(g, s, s1, i, bytes, k)
    ensures var e := g.outgoing[i][k];
            && e < |s1.edges| && s1.edges[e] == s.edges[e]
            && Spread(g, s, s1.(edges := s1.edges[e := Appended(s1.edges[e], bytes)],
                                buffered := s1.buffered + if s1.edges[e].consumerClosed then 0 else |bytes|),
                      i, bytes, k + 1)
  {
    var e := g.outgoing[i][k];
    assert e !in g.outgoing[i][..k];
    assert g.outgoing[i][..k + 1] == g.outgoing[i][..k] + [e];
    TotalAfterSet(s1.edges, e, Appended(s1.edges[e], bytes));
    AppendedSize(s1.edges[e], bytes);
    hide GraphOk, Appended, Total;
  }

  lemma AppendedSize(x: EdgeState, bytes: seq<Byte>)
    ensures |Appended(x, bytes).buffer| == |x.buffer| + if x.consumerClosed then 0 else |bytes|
  {
  }

  lemma SpreadEnds(g: Graph, s: Dag, s': Dag, i: nat, bytes: seq<Byte>)
    requires GraphOk(g) && Sized(g, s) && i < g.n && Spread(g, s, s', i, bytes, |g.outgoing[i]|)
    ensures CompletionOk(s) ==> CompletionOk(s')
    ensures AllOver(s'.nodes) <==> AllOver(s.nodes)
    ensures |s'.nodes| == |s.nodes| && s'.nodes[i].read == s.nodes[i].read + bytes
    ensures s'.nodes[i].stdoutClosed == s.nodes[i].stdoutClosed && (!s.nodes[i].stdoutClosed ==> Evolves(s, s'))
    ensures ReadsOnly(s, s', i) && Steady(s, s')
  {
    if !s.nodes[i].stdoutClosed { EvolvesOne(s, s', i); }
    assert ExitCodes(s'.nodes) == ExitCodes(s.nodes);
    forall j | 0 <= j < |s.nodes| ensures (s'.nodes[j].exited <==> s.nodes[j].exited) && (s'.nodes[j].stdoutClosed <==> s.nodes[j].stdoutClosed) {
    }
  }

  /** Consumers whose edge from `i` is already closed have nothing to drain. */
  lemma OnlyOpenConsumers(g: Graph, cap: nat, s: Dag, s': Dag, i: nat, bytes: seq<Byte>, consumers: set<nat>)
    requires Mid(g, cap, s, {}, {}) && i < g.n && SpreadMid(g, s, s', i, bytes, |g.outgoing[i]|, consumers)
    requires Mid(g, cap, s', Consumers(g, i), {})
    ensures Mid(g, cap, s', consumers, {})
  {
    hide EdgesOk, NodeOk, NotForgotten, SinksOk;
    forall c | 0 <= c < g.n && c !in consumers ensures WillDrain(g, s', c) {
      if c in Consumers(g, i) {
        ClosedToReader(g, cap, s, s', i, bytes, consumers, c);
      }
    }
  }

  lemma ClosedToReader(g: Graph, cap: nat, s: Dag, s': Dag, i: nat, bytes: seq<Byte>, consumers: set<nat>, c: nat)
    requires Mid(g, cap, s, {}, {}) && i < g.n && SpreadMid(g, s, s', i, bytes, |g.outgoing[i]|, consumers)
    requires c in Consumers(g, i) && c < g.n && c !in consumers
    ensures |s'.nodes| == g.n && !s'.nodes[c].stdinOpen
  {
    hide Mid, EdgeOk;
    MidSized(g, cap, s, {}, {});
    var e :| e in g.outgoing[i] && e < |g.to| && g.to[e] == c;
    var k :| 0 <= k < |g.outgoing[i]| && g.outgoing[i][k] == e;
    ClosedEdge(g, cap, s, e);
    SpreadNodes(g, s, s', i, bytes, c);
  }

  lemma ClosedEdge(g: Graph, cap: nat, s: Dag, e: nat)
    requires Mid(g, cap, s, {}, {}) && e < |s.edges|
    ensures e < |g.to| && g.to[e] < |s.nodes| && s.edges[e].consumerClosed == !s.nodes[g.to[e]].stdinOpen
  {
    Pieces(g, cap, s, {}, {}, e);
    hide Mid;
  }

  lemma SpreadNodes(g: Graph, s: Dag, s': Dag, i: nat, bytes: seq<Byte>, c: nat)
    requires GraphOk(g) && Sized(g, s) && i < g.n && c < g.n && Spread(g, s, s', i, bytes, |g.outgoing[i]|)
    ensures |s'.nodes| == g.n && s'.nodes[c].stdinOpen == s.nodes[c].stdinOpen
  {
  }

  // The end of an output.

  lemma EndedBegins(g: Graph, s: Dag, i: nat)
    requires GraphOk(g) && Sized(g, s) && i < g.n
    ensures Ended(g, s, s.(nodes := s.nodes[i := s.nodes[i].(stdoutClosed := true, readable := false)]), i, 0)
  {
  }

  lemma EndedOneMore(g: Graph, s: Dag, s1: Dag, i: nat, k: nat)
    requires GraphOk(g) && Sized(g, s) && i < g.n && k < |g.outgoing[i]| && Ended(g, s, s1, i, k)
    ensures var e := g.outgoing[i][k];
            e < |s1.edges| && Ended(g, s, s1.(edges := s1.edges[e := s1.edges[e].(sourceClosed := true)]), i, k + 1)
  {
    var e := g.outgoing[i][k];
    assert e !in g.outgoing[i][..k];
    assert g.outgoing[i][..k + 1] == g.outgoing[i][..k] + [e];
  }

  lemma EndedCompletion(g: Graph, s: Dag, s': Dag, i: nat)
    requires GraphOk(g) && Sized(g, s) && i < g.n && Ended(g, s, s', i, |g.outgoing[i]|)
    requires CompletionOk(s) && !s.nodes[i].stdoutClosed
    ensures CompletionOk(s')
  {
    assert !AllOver(s.nodes);
  }

  lemma ExitCompletion(s: Dag, i: nat, code: int)
    requires CompletionOk(s) && i < |s.nodes| && !s.nodes[i].exited
    ensures CompletionOk(ExitedState(s, i, code)) && Evolves(s, ExitedState(s, i, code))
  {
    assert !AllOver(s.nodes);
    EvolvesOne(s, ExitedState(s, i, code), i);
  }

  // Completion.

  lemma SameButDone(g: Graph, cap: nat, s: Dag, s': Dag)
    requires Mid(g, cap, s, {}, {}) && s' == s.(done := s'.done, outcomes := s'.outcomes, cancelled := s'.cancelled)
    ensures Mid(g, cap, s', {}, {})
  {
    hide EdgeOk, TurnsOk;
    forall i | 0 <= i < g.n ensures NotForgotten(g, cap, s', i) && WillDrain(g, s', i) {
      assert NotForgotten(g, cap, s, i);
      SameBlocked(g, cap, s, s', i);
      SameInputs(g, s, s', i);
    }
  }

  lemma ReportEvolves(s: Dag, s': Dag)
    requires s' == s.(done := true, outcomes := s'.outcomes) && s.outcomes <= s'.outcomes
    ensures Evolves(s, s')
  {
  }

  lemma OverMeans(g: Graph, cap: nat, s: Dag)
    requires Mid(g, cap, s, {}, {})
    ensures AllOver(s.nodes) <==>
            s.exitedCount == |s.nodes| && forall i :: 0 <= i < |s.nodes| ==> s.nodes[i].stdoutClosed
  {
    hide EdgesOk, NodeOk, NotForgotten, WillDrain, SinksOk;
    AllExited(s.nodes);
  }

  lemma SpreadOf(g: Graph, s: Dag, s': Dag, i: nat, bytes: seq<Byte>, consumers: set<nat>)
    requires GraphOk(g) && Sized(g, s) && i < g.n && SpreadMid(g, s, s', i, bytes, |g.outgoing[i]|, consumers)
    ensures Spread(g, s, s', i, bytes, |g.outgoing[i]|)
  {
    hide Spread;
  }

  lemma SpreadBegins(g: Graph, cap: nat, s: Dag, i: nat, bytes: seq<Byte>)
    requires Mid(g, cap, s, {}, {}) && i < g.n
    ensures Spread(g, s, s.(nodes := s.nodes[i := s.nodes[i].(read := s.nodes[i].read + bytes)],
                            output := if g.outgoing[i] == [] then s.output + [(i, bytes)] else s.output), i, bytes, 0)
  {
    hide EdgesOk, NodeOk, NotForgotten, WillDrain, SinksOk;
  }

  lemma EndsRead(s: Dag, s': Dag, i: nat)
    requires EndsSame(s, s') && i < |s.nodes|
    ensures i < |s'.nodes| == |s.nodes| && s'.nodes[i].read == s.nodes[i].read
    ensures s'.nodes[i].stdoutClosed == s.nodes[i].stdoutClosed && s'.nodes[i].exited == s.nodes[i].exited
  {
  }

  lemma EndedNode(g: Graph, s: Dag, s': Dag, i: nat)
    requires GraphOk(g) && Sized(g, s) && i < g.n && Ended(g, s, s', i, |g.outgoing[i]|)
    ensures i < |s'.nodes| && s'.nodes[i].stdoutClosed && s'.nodes[i].read == s.nodes[i].read && Evolves(s, s')
    ensures ReadsOnly(s, s', i) && Steady(s, s')
  {
    EvolvesOne(s, s', i);
  }

  lemma NothingToDrain(g: Graph, cap: nat, s: Dag, todo: set<nat>)
    requires Mid(g, cap, s, todo, {}) && forall j :: j in todo ==> j >= g.n
    ensures Mid(g, cap, s, {}, {})
  {
    hide EdgesOk, NodeOk, NotForgotten, WillDrain, SinksOk;
  }

  lemma ExitedIsClosed(g: Graph, cap: nat, s: Dag, i: nat)
    requires Mid(g, cap, s, {}, {}) && i < |s.nodes| && s.nodes[i].exited
    ensures !s.nodes[i].stdinOpen
  {
    assert NodeOk(g, s.nodes[i], i);
  }

  // Start and cancellation.

  function FreshNode(hasInput: bool): Node {
    Node(true, false, hasInput, false, false, 0, 0, if hasInput then Feeding else NoInput, [], [])
  }

  function FreshEdge(): EdgeState {
    EdgeState([], false, false)
  }

  predicate AllFresh(g: Graph, s: Dag) {
    && GraphOk(g) && g.n > 0 && Sized(g, s)
    && (forall i :: 0 <= i < g.n ==> s.nodes[i] == FreshNode(g.incoming[i] != []))
    && (forall e :: 0 <= e < |s.edges| ==> s.edges[e] == FreshEdge())
    && s == Dag(s.nodes, s.edges, 0, 0, false, false, {}, [], [], [])
  }

  lemma FreshEdges(g: Graph, cap: nat, s: Dag)
    requires AllFresh(g, s)
    ensures EdgesOk(g, cap, s)
  {
    forall e | 0 <= e < |s.edges| ensures EdgeOk(cap, s.edges[e], s.nodes[g.from[e]], s.nodes[g.to[e]], g.slot[e]) {
      assert g.incoming[g.to[e]] != [];
    }
  }

  lemma FreshNodeOk(g: Graph, cap: nat, s: Dag, i: nat)
    requires AllFresh(g, s) && i < g.n
    ensures NodeOk(g, s.nodes[i], i) && WillDrain(g, s, i) && NotForgotten(g, cap, s, i) && CauseOk(g, s, i)
  {
    hide HasInput;
    if g.incoming[i] != [] {
      assert !s.edges[g.incoming[i][0]].sourceClosed;
      NoFreshInput(g, s, i);
    }
  }

  lemma NoFreshInput(g: Graph, s: Dag, i: nat)
    requires AllFresh(g, s)
    ensures !HasInput(g, s, i)
  {
  }

  lemma FreshSinks(g: Graph, s: Dag)
    requires AllFresh(g, s)
    ensures SinksOk(g, s) && !AllOver(s.nodes) && CompletionOk(s)
  {
    assert !s.nodes[0].exited;
  }

  lemma FreshCounts(g: Graph, s: Dag)
    requires AllFresh(g, s)
    ensures Exited(s.nodes) == 0 && Total(s.edges) == 0
  {
    NoneYet(s);
  }

  lemma FreshGraph(g: Graph, cap: nat, s: Dag)
    requires AllFresh(g, s)
    ensures Inv(g, cap, s)
  {
    hide EdgesOk, SinksOk, NodeOk, WillDrain, NotForgotten, CompletionOk, AllOver, FreshNode, FreshEdge, Exited, Total;
    FreshEdges(g, cap, s);
    FreshSinks(g, s);
    FreshCounts(g, s);
    hide CauseOk;
    forall i | 0 <= i < g.n ensures NodeOk(g, s.nodes[i], i) && WillDrain(g, s, i) && NotForgotten(g, cap, s, i) && CauseOk(g, s, i) {
      FreshNodeOk(g, cap, s, i);
    }
  }

  lemma NoneYet(s: Dag)
    requires forall i :: 0 <= i < |s.nodes| ==> !s.nodes[i].exited
    requires forall e :: 0 <= e < |s.edges| ==> s.edges[e].buffer == []
    ensures Exited(s.nodes) == 0 && Total(s.edges) == 0
  {
    NoneExited(s.nodes);
    NoneBuffered(s.edges);
  }

  lemma {:induction false} NoneExited(nodes: seq<Node>)
    requires forall i :: 0 <= i < |nodes| ==> !nodes[i].exited
    ensures Exited(nodes) == 0
  {
    if |nodes| > 0 { NoneExited(nodes[..|nodes| - 1]); }
  }

  lemma {:induction false} NoneBuffered(edges: seq<EdgeState>)
    requires forall e :: 0 <= e < |edges| ==> edges[e].buffer == []
    ensures Total(edges) == 0
  {
    if |edges| > 0 { NoneBuffered(edges[..|edges| - 1]); }
  }

  function Stopped(w: Node): Node {
    w.(readable := false, stdoutClosed := true, stdinOpen := false, exited := true,
       ending := if w.ending.Feeding? then Cancelled else w.ending)
  }

  predicate Aborted(s: Dag, s': Dag) {
    && |s'.nodes| == |s.nodes| && |s'.edges| == |s.edges|
    && s' == s.(nodes := s'.nodes, edges := s'.edges, buffered := 0, exitedCount := |s.nodes|, done := true, cancelled := true)
    && (forall i :: 0 <= i < |s.nodes| ==> s'.nodes[i] == Stopped(s.nodes[i]))
    && (forall e :: 0 <= e < |s.edges| ==> s'.edges[e] == ShutEdge(s.edges[e]).(sourceClosed := true))
  }

  lemma StopEdge(cap: nat, x: EdgeState, p: Node, q: Node, slot: nat)
    requires EdgeOk(cap, x, p, q, slot) && (q.stdinOpen <==> q.ending.Feeding?)
    ensures EdgeOk(cap, ShutEdge(x).(sourceClosed := true), Stopped(p), Stopped(q), slot)
  {
  }

  lemma AbortKeepsEdges(g: Graph, cap: nat, s: Dag, s': Dag)
    requires Mid(g, cap, s, {}, {}) && Aborted(s, s')
    ensures Sized(g, s') && EdgesOk(g, cap, s')
  {
    forall e | 0 <= e < |s'.edges| ensures EdgeOk(cap, s'.edges[e], s'.nodes[g.from[e]], s'.nodes[g.to[e]], g.slot[e]) {
      Pieces(g, cap, s, {}, {}, e);
      assert NodeOk(g, s.nodes[g.to[e]], g.to[e]);
      StopEdge(cap, s.edges[e], s.nodes[g.from[e]], s.nodes[g.to[e]], g.slot[e]);
      hide EdgeOk, Stopped, ShutEdge, NodeOk;
    }
  }

  lemma InvMid(g: Graph, cap: nat, s: Dag)
    requires Inv(g, cap, s)
    ensures Mid(g, cap, s, {}, {})
  {
    hide Mid;
  }

  lemma AbortEvolves(g: Graph, cap: nat, s: Dag, s': Dag)
    requires Mid(g, cap, s, {}, {}) && Aborted(s, s')
    ensures Evolves(s, s')
  {
    forall i | 0 <= i < |s.nodes| ensures NodeEvolves(s.nodes[i], s'.nodes[i]) {
      assert NodeOk(g, s.nodes[i], i) && s'.nodes[i] == Stopped(s.nodes[i]);
      hide Mid;
    }
  }

  lemma AbortCauses(g: Graph, cap: nat, s: Dag, s': Dag)
    requires Inv(g, cap, s) && Aborted(s, s')
    ensures CausesOk(g, s')
  {
    hide Mid, CompletionOk;
    forall i | 0 <= i < |s'.nodes| ensures CauseOk(g, s', i) {
      assert CauseOk(g, s, i);
    }
  }

  lemma AbortKeeps(g: Graph, cap: nat, s: Dag, s': Dag)
    requires Inv(g, cap, s) && Aborted(s, s')
    ensures Inv(g, cap, s')
  {
    hide EdgeOk, EdgesOk, TurnsOk, Blocked, HasInput, MayHaveInput, CauseOk;
    AbortKeepsEdges(g, cap, s, s');
    AbortCauses(g, cap, s, s');
    AllExited(s'.nodes);
    NoneBuffered(s'.edges);
    assert ExitCodes(s'.nodes) == ExitCodes(s.nodes);
    forall i | 0 <= i < g.n ensures NodeOk(g, s'.nodes[i], i) {
      assert NodeOk(g, s.nodes[i], i);
    }
  }

  // Main consequences.

  /** Memory is bounded by the edges, however much flows through them. */
  lemma BufferedIsBounded(g: Graph, cap: nat, s: Dag)
    requires Inv(g, cap, s)
    ensures s.buffered <= |s.edges| * cap
  {
    forall e | 0 <= e < |s.edges| ensures |s.edges[e].buffer| <= cap {
      assert EdgeOk(cap, s.edges[e], s.nodes[g.from[e]], s.nodes[g.to[e]], g.slot[e]);
    }
    TotalIsBounded(s.edges, cap);
  }

  /** What is reported of a run: once only, when every child is gone and every output at its end; every stage's own code;
      and zero exactly if all are zero, else the code of the last stage that failed. */
  lemma OutcomeIsWhole(g: Graph, cap: nat, s: Dag)
    requires Inv(g, cap, s) && s.outcomes != []
    ensures |s.outcomes| == 1 && |s.outcomes[0].stageExitCodes| == |s.nodes|
    ensures forall i :: 0 <= i < |s.nodes| ==>
              && s.nodes[i].exited && s.nodes[i].stdoutClosed && !s.nodes[i].stdinOpen
              && s.outcomes[0].stageExitCodes[i] == s.nodes[i].exitCode
    ensures s.outcomes[0].exitCode == 0 <==> forall i :: 0 <= i < |s.nodes| ==> s.nodes[i].exitCode == 0
    ensures s.outcomes[0].exitCode != 0 ==>
              exists k :: 0 <= k < |s.nodes| && s.nodes[k].exitCode == s.outcomes[0].exitCode
                          && forall j :: k < j < |s.nodes| ==> s.nodes[j].exitCode == 0
  {
    var codes := ExitCodes(s.nodes);
    PipeFailMeans(codes);
    assert forall i :: 0 <= i < |s.nodes| ==> codes[i] == s.nodes[i].exitCode;
    forall i | 0 <= i < |s.nodes| ensures !s.nodes[i].stdinOpen {
      assert NodeOk(g, s.nodes[i], i);
    }
    hide Mid;
  }

  /** And it is reported: no run that is over and was not cancelled is left without an outcome. */
  lemma OverIsReported(g: Graph, cap: nat, s: Dag)
    requires Inv(g, cap, s) && !s.cancelled
    requires forall i :: 0 <= i < |s.nodes| ==> s.nodes[i].exited && s.nodes[i].stdoutClosed
    ensures |s.outcomes| == 1
  {
    hide Mid;
  }

  /** A stage whose input ended normally received every byte of every predecessor, each in order. */
  lemma FinishedMeansAll(g: Graph, cap: nat, s: Dag, i: nat, k: nat)
    requires Inv(g, cap, s) && i < g.n && s.nodes[i].ending.Finished? && k < |g.incoming[i]|
    ensures var p := s.nodes[g.from[g.incoming[i][k]]]; p.stdoutClosed && Taken(s.nodes[i].turns, k) == p.read
  {
    var e := g.incoming[i][k];
    assert EdgeOk(cap, s.edges[e], s.nodes[g.from[e]], s.nodes[g.to[e]], g.slot[e]);
  }

  /** An input that is closed though no write to it failed, the child lives and the run goes on, got everything. */
  lemma ClosedInputMeansAll(g: Graph, cap: nat, s: Dag, i: nat, k: nat)
    requires Inv(g, cap, s) && i < g.n && k < |g.incoming[i]|
    requires !s.nodes[i].stdinOpen && i !in s.broke && !s.nodes[i].exited && !s.cancelled
    ensures var p := s.nodes[g.from[g.incoming[i][k]]]; p.stdoutClosed && Taken(s.nodes[i].turns, k) == p.read
  {
    assert CauseOk(g, s, i) && NodeOk(g, s.nodes[i], i);
    FinishedMeansAll(g, cap, s, i, k);
  }

  /** The bytes a stage was given are those its pipe took, in order. */
  lemma GivenIsWritten(g: Graph, cap: nat, s: Dag, i: nat)
    requires Inv(g, cap, s) && i < g.n
    ensures Shown(s.written, i) == AllTaken(s.nodes[i].turns)
  {
    assert CauseOk(g, s, i);
  }

  /** Along a chain a stage's pipe takes its predecessor's output in order: all but what is buffered while the stage is
      fed, and all of it once the input is closed though the pipe held, the child lives and the run goes on. */
  lemma ChainPasses(g: Graph, cap: nat, s: Dag, i: nat)
    requires Inv(g, cap, s) && i < g.n && |g.incoming[i]| == 1
    ensures var p, x := s.nodes[g.from[g.incoming[i][0]]], s.edges[g.incoming[i][0]];
            && Shown(s.written, i) <= p.read
            && (s.nodes[i].stdinOpen ==> Shown(s.written, i) + x.buffer == p.read)
            && (!s.nodes[i].stdinOpen && i !in s.broke && !s.nodes[i].exited && !s.cancelled ==>
                  p.stdoutClosed && Shown(s.written, i) == p.read)
  {
    var e := g.incoming[i][0];
    GivenIsWritten(g, cap, s, i);
    assert NodeOk(g, s.nodes[i], i);
    OneSource(s.nodes[i].turns);
    assert EdgeOk(cap, s.edges[e], s.nodes[g.from[e]], s.nodes[g.to[e]], g.slot[e]);
    if !s.nodes[i].stdinOpen && i !in s.broke && !s.nodes[i].exited && !s.cancelled {
      ClosedInputMeansAll(g, cap, s, i, 0);
    }
  }

  /** While a stage is fed, each predecessor's output is what was passed on, then what is buffered. */
  lemma NothingIsLost(g: Graph, cap: nat, s: Dag, i: nat, k: nat)
    requires Inv(g, cap, s) && i < g.n && s.nodes[i].stdinOpen && k < |g.incoming[i]|
    ensures s.nodes[g.from[g.incoming[i][k]]].read == Taken(s.nodes[i].turns, k) + s.edges[g.incoming[i][k]].buffer
  {
    var e := g.incoming[i][k];
    assert EdgeOk(cap, s.edges[e], s.nodes[g.from[e]], s.nodes[g.to[e]], g.slot[e]);
  }

  /** No input is passed over as often as there are inputs while it has data. */
  lemma MergeIsFair(g: Graph, cap: nat, s: Dag, i: nat, a: nat, b: nat, slot: nat)
    requires Inv(g, cap, s) && i < g.n && a < b <= |s.nodes[i].turns|
    requires forall j :: a <= j < b ==> slot in s.nodes[i].turns[j].waiting && s.nodes[i].turns[j].slot != slot
    ensures b - a <= |g.incoming[i]| - 1
  {
    assert NodeOk(g, s.nodes[i], i);
    PassedOver(s.nodes[i].turns, a, b, slot, |g.incoming[i]|);
  }

  /** A paused producer waits for a consumer that is alive and open, has that edge full, and has write interest. */
  lemma PausedWaitsForLiveConsumer(g: Graph, cap: nat, s: Dag, i: nat) returns (e: nat)
    requires Inv(g, cap, s) && cap > 0 && i < g.n && !s.nodes[i].readable && !s.nodes[i].stdoutClosed
    ensures e < |g.from| && g.from[e] == i && |s.edges[e].buffer| == cap
    ensures var c := s.nodes[g.to[e]]; c.stdinOpen && !c.exited && c.writable
  {
    assert NotForgotten(g, cap, s, i);
    var k :| 0 <= k < |g.outgoing[i]| && Full(cap, s.edges[g.outgoing[i][k]]);
    e := g.outgoing[i][k];
    ClosedEdge(g, cap, s, e);
    var c := g.to[e];
    assert NodeOk(g, s.nodes[c], c) && WillDrain(g, s, c);
    assert s.edges[g.incoming[c][g.slot[e]]].buffer != [];
  }

  /** Once every child is gone, nothing is paused: the remaining output is read to its end. */
  lemma NothingStaysPaused(g: Graph, cap: nat, s: Dag, i: nat)
    requires Inv(g, cap, s) && cap > 0 && i < g.n && !s.nodes[i].stdoutClosed
    requires forall j :: 0 <= j < g.n ==> s.nodes[j].exited
    ensures s.nodes[i].readable
  {
    assert NotForgotten(g, cap, s, i);
    forall e | 0 <= e < |s.edges| ensures s.edges[e].consumerClosed {
      ClosedEdge(g, cap, s, e);
      assert NodeOk(g, s.nodes[g.to[e]], g.to[e]);
    }
  }
}
