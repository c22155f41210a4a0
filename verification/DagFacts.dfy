/** Lemmas about the dataflow graph: fairness, sums, and one lemma per kind of change. */
module DagFacts {
  import opened Wire
  import opened DagSpec

  // Fairness.

  lemma NextTurnIsNearer(before: seq<Turn>, t: Turn, s: nat, d: nat)
    requires TurnOk(before, t, d) && s in t.waiting && t.slot != s
    ensures s < d && After(t.slot, d) < d && Ahead(After(t.slot, d), s, d) < Ahead(Cursor(before, d), s, d)
  {
  }

  /** Between turns `a` and `b` a waiting input is passed over fewer times than there are inputs. */
  lemma {:induction false} PassedOver(turns: seq<Turn>, a: nat, b: nat, s: nat, d: nat)
    requires TurnsOk(turns, d) && a < b <= |turns|
    requires forall j :: a <= j < b ==> s in turns[j].waiting && turns[j].slot != s
    ensures s < d && b - a + Ahead(Cursor(turns[..b], d), s, d) <= Ahead(Cursor(turns[..a], d), s, d)
    ensures b - a <= d - 1
    decreases b - a
  {
    assert TurnOk(turns[..b - 1], turns[b - 1], d);
    NextTurnIsNearer(turns[..b - 1], turns[b - 1], s, d);
    assert turns[..b][b - 1] == turns[b - 1];
    if a + 1 < b {
      PassedOver(turns, a, b - 1, s, d);
    }
  }

  // Sums and logs.

  lemma {:induction false} TotalAfterSet(edges: seq<EdgeState>, e: nat, x: EdgeState)
    requires e < |edges|
    ensures Total(edges[e := x]) + |edges[e].buffer| == Total(edges) + |x.buffer|
  {
    var last := |edges| - 1;
    if e == last {
      assert edges[e := x][..last] == edges[..last];
    } else {
      TotalAfterSet(edges[..last], e, x);
      assert edges[e := x][..last] == edges[..last][e := x];
    }
  }

  lemma {:induction false} TotalIsBounded(edges: seq<EdgeState>, cap: nat)
    requires forall e :: 0 <= e < |edges| ==> |edges[e].buffer| <= cap
    ensures Total(edges) <= |edges| * cap
  {
    if |edges| > 0 { TotalIsBounded(edges[..|edges| - 1], cap); }
  }

  lemma {:induction false} ExitedAfterSet(nodes: seq<Node>, i: nat, w: Node)
    requires i < |nodes|
    ensures Exited(nodes[i := w]) + (if nodes[i].exited then 1 else 0) == Exited(nodes) + if w.exited then 1 else 0
  {
    var last := |nodes| - 1;
    if i == last {
      assert nodes[i := w][..last] == nodes[..last];
    } else {
      ExitedAfterSet(nodes[..last], i, w);
      assert nodes[i := w][..last] == nodes[..last][i := w];
    }
  }

  lemma {:induction false} AllExited(nodes: seq<Node>)
    ensures Exited(nodes) <= |nodes|
    ensures Exited(nodes) == |nodes| <==> forall i :: 0 <= i < |nodes| ==> nodes[i].exited
  {
    if |nodes| > 0 {
      var init := nodes[..|nodes| - 1];
      AllExited(init);
      assert (forall i :: 0 <= i < |nodes| ==> nodes[i].exited) ==> forall i :: 0 <= i < |init| ==> init[i].exited;
      assert forall i :: 0 <= i < |init| ==> nodes[i] == init[i];
    }
  }

  lemma {:induction false} PipeFailMeans(codes: seq<int>)
    ensures PipeFail(codes) == 0 <==> forall i :: 0 <= i < |codes| ==> codes[i] == 0
    ensures PipeFail(codes) != 0 ==>
              exists k :: 0 <= k < |codes| && codes[k] == PipeFail(codes) && forall j :: k < j < |codes| ==> codes[j] == 0
  {
    if |codes| > 0 {
      var init, last := codes[..|codes| - 1], |codes| - 1;
      PipeFailMeans(init);
      if codes[last] == 0 {
        forall i | 0 <= i < last ensures codes[i] == init[i] {
        }
        if PipeFail(init) != 0 {
          var k :| 0 <= k < last && init[k] == PipeFail(init) && forall j :: k < j < last ==> init[j] == 0;
          assert codes[k] == PipeFail(codes);
        }
      }
    }
  }

  lemma TakenAfter(turns: seq<Turn>, t: Turn, slot: nat)
    ensures Taken(turns + [t], slot) == Taken(turns, slot) + if t.slot == slot then t.bytes else []
  {
    assert (turns + [t])[..|turns|] == turns;
  }

  lemma AllTakenAfter(turns: seq<Turn>, t: Turn)
    ensures AllTaken(turns + [t]) == AllTaken(turns) + t.bytes
  {
    assert (turns + [t])[..|turns|] == turns;
  }

  lemma {:induction false} OneSource(turns: seq<Turn>)
    requires TurnsOk(turns, 1)
    ensures AllTaken(turns) == Taken(turns, 0)
  {
    if |turns| > 0 {
      var init := turns[..|turns| - 1];
      assert TurnOk(init, turns[|turns| - 1], 1);
      forall j | 0 <= j < |init| ensures TurnOk(init[..j], init[j], 1) {
        assert init[..j] == turns[..j];
      }
      OneSource(init);
    }
  }

  lemma ShownAfter(output: seq<(nat, seq<Byte>)>, i: nat, bytes: seq<Byte>, j: nat)
    ensures Shown(output + [(i, bytes)], j) == Shown(output, j) + if i == j then bytes else []
  {
    assert (output + [(i, bytes)])[..|output|] == output;
  }

  // Frames.

  lemma FramePaused(g: Graph, cap: nat, s: Dag, s': Dag, i: nat)
    requires GraphOk(g) && Sized(g, s) && Sized(g, s') && i < g.n && NotForgotten(g, cap, s, i)
    requires s'.nodes[i].readable == s.nodes[i].readable && s'.nodes[i].stdoutClosed == s.nodes[i].stdoutClosed
    requires forall k :: 0 <= k < |g.outgoing[i]| ==> s'.edges[g.outgoing[i][k]] == s.edges[g.outgoing[i][k]]
    ensures NotForgotten(g, cap, s', i)
  {
    hide Full;
    if Blocked(g, cap, s, i) {
      var k :| 0 <= k < |g.outgoing[i]| && Full(cap, s.edges[g.outgoing[i][k]]);
      assert Full(cap, s'.edges[g.outgoing[i][k]]);
    }
  }

  lemma FrameDrain(g: Graph, s: Dag, s': Dag, i: nat)
    requires GraphOk(g) && Sized(g, s) && Sized(g, s') && i < g.n && WillDrain(g, s, i)
    requires s'.nodes[i].stdinOpen == s.nodes[i].stdinOpen && s'.nodes[i].writable == s.nodes[i].writable
    requires forall k :: 0 <= k < |g.incoming[i]| ==> s'.edges[g.incoming[i][k]] == s.edges[g.incoming[i][k]]
    ensures WillDrain(g, s', i)
  {
    if HasInput(g, s, i) {
      var k :| 0 <= k < |g.incoming[i]| && s.edges[g.incoming[i][k]].buffer != [];
      assert s'.edges[g.incoming[i][k]].buffer != [];
    } else if MayHaveInput(g, s, i) {
      var k :| 0 <= k < |g.incoming[i]| && !s.edges[g.incoming[i][k]].sourceClosed;
      assert !s'.edges[g.incoming[i][k]].sourceClosed;
      assert forall j :: 0 <= j < |g.incoming[i]| ==> s.edges[g.incoming[i][j]].buffer == [];
    }
  }

  /** Neither the output record nor the fields an edge looks at change. */
  predicate SameFlow(a: Node, b: Node) {
    && a.read == b.read && a.stdoutClosed == b.stdoutClosed && a.stdinOpen == b.stdinOpen
    && a.ending == b.ending && a.turns == b.turns
  }

  lemma FrameEdge(cap: nat, x: EdgeState, p: Node, q: Node, p': Node, q': Node, slot: nat)
    requires EdgeOk(cap, x, p, q, slot) && SameFlow(p, p') && SameFlow(q, q')
    ensures EdgeOk(cap, x, p', q', slot)
  {
  }

  // One write to a consumer.

  function FedNode(w: Node, t: Turn, d: nat): Node {
    w.(turns := w.turns + [t], next := After(t.slot, d))
  }

  function FedState(g: Graph, s: Dag, c: nat, t: Turn): Dag
    requires GraphOk(g) && Sized(g, s) && c < g.n && t.slot < |g.incoming[c]|
    requires |t.bytes| <= |s.edges[g.incoming[c][t.slot]].buffer| && |t.bytes| <= s.buffered
  {
    var e := g.incoming[c][t.slot];
    var x := s.edges[e];
    s.(nodes := s.nodes[c := FedNode(s.nodes[c], t, |g.incoming[c]|)],
       edges := s.edges[e := x.(buffer := x.buffer[|t.bytes|..])],
       buffered := s.buffered - |t.bytes|)
  }

  lemma FedEdge(cap: nat, x: EdgeState, p: Node, q: Node, t: Turn, d: nat)
    requires EdgeOk(cap, x, p, q, t.slot) && q.stdinOpen && t.bytes <= x.buffer
    ensures EdgeOk(cap, x.(buffer := x.buffer[|t.bytes|..]), p, FedNode(q, t, d), t.slot)
  {
    TakenAfter(q.turns, t, t.slot);
    var rest := x.buffer[|t.bytes|..];
    assert x.buffer == t.bytes + rest;
    assert Taken(q.turns, t.slot) + (t.bytes + rest) == (Taken(q.turns, t.slot) + t.bytes) + rest;
    if q.ending.Finished? {
      assert |rest| == |t.bytes| == 0;
    }
  }

  lemma FedOther(cap: nat, x: EdgeState, p: Node, q: Node, t: Turn, slot: nat, d: nat)
    requires EdgeOk(cap, x, p, q, slot) && t.slot != slot
    ensures EdgeOk(cap, x, p, FedNode(q, t, d), slot)
  {
    TakenAfter(q.turns, t, slot);
  }

  lemma FedTurns(w: Node, t: Turn, d: nat)
    requires TurnsOk(w.turns, d) && TurnOk(w.turns, t, d)
    ensures TurnsOk(FedNode(w, t, d).turns, d) && FedNode(w, t, d).next == Cursor(FedNode(w, t, d).turns, d)
  {
    hide TurnOk;
    var turns := w.turns + [t];
    forall j | 0 <= j < |turns| ensures TurnOk(turns[..j], turns[j], d) {
      assert turns[..j] == w.turns[..j];
      assert j == |w.turns| ==> w.turns[..j] == w.turns;
    }
  }
}
