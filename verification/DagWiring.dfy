/** From a pipeline to a running graph: one node per planned stage, one edge per distinct declared link. */
module DagWiring {
  import opened Graphs
  import opened Planner
  import opened DagSpec
  import DagRunner

  /** The node pairs of the edges, by stage name. */
  ghost function Declared(g: Graph, order: seq<string>): set<Graphs.Edge<string>>
    requires GraphOk(g) && g.n == |order|
  {
    set e | 0 <= e < |g.from| :: (order[g.from[e]], order[g.to[e]])
  }

  ghost predicate EachPairOnce(g: Graph) {
    |g.from| == |g.to| && forall d, e :: 0 <= d < e < |g.from| ==> (g.from[d], g.to[d]) != (g.from[e], g.to[e])
  }

  function AddEdge(g: Graph, from: nat, to: nat): Graph
    requires GraphOk(g) && from < g.n && to < g.n
  {
    var e := |g.from|;
    Graph(g.n, g.from + [from], g.to + [to], g.slot + [|g.incoming[to]|],
          g.incoming[to := g.incoming[to] + [e]], g.outgoing[from := g.outgoing[from] + [e]])
  }

  lemma AddEdgeOk(g: Graph, from: nat, to: nat)
    requires GraphOk(g) && from < g.n && to < g.n
    ensures GraphOk(AddEdge(g, from, to))
  {
    var g', e0 := AddEdge(g, from, to), |g.from|;
    forall e | 0 <= e < |g'.from|
      ensures g'.from[e] < g.n && g'.to[e] < g.n && e in g'.outgoing[g'.from[e]]
      ensures g'.slot[e] < |g'.incoming[g'.to[e]]| && g'.incoming[g'.to[e]][g'.slot[e]] == e
    {
      if e == e0 {
        assert g'.outgoing[from][|g.outgoing[from]|] == e0;
      } else {
        assert e in g.outgoing[g.from[e]];
      }
    }
    forall i, k | 0 <= i < g.n && 0 <= k < |g'.incoming[i]|
      ensures g'.incoming[i][k] < |g'.from| && g'.to[g'.incoming[i][k]] == i && g'.slot[g'.incoming[i][k]] == k
    {
    }
    forall i, k | 0 <= i < g.n && 0 <= k < |g'.outgoing[i]|
      ensures g'.outgoing[i][k] < |g'.from| && g'.from[g'.outgoing[i][k]] == i
    {
    }
    forall i, j, k | 0 <= i < g.n && 0 <= j < k < |g'.outgoing[i]| ensures g'.outgoing[i][j] != g'.outgoing[i][k] {
    }
  }

  lemma AddEdgeDeclares(g: Graph, order: seq<string>, from: nat, to: nat)
    requires GraphOk(g) && from < g.n && to < g.n && g.n == |order| && GraphOk(AddEdge(g, from, to))
    ensures Declared(AddEdge(g, from, to), order) == Declared(g, order) + {(order[from], order[to])}
  {
    var g' := AddEdge(g, from, to);
    forall x ensures x in Declared(g', order) <==> x in Declared(g, order) + {(order[from], order[to])} {
      if x in Declared(g, order) {
        var e :| 0 <= e < |g.from| && x == (order[g.from[e]], order[g.to[e]]);
        assert x == (order[g'.from[e]], order[g'.to[e]]);
      }
      if x == (order[from], order[to]) {
        assert x == (order[g'.from[|g.from|]], order[g'.to[|g.from|]]);
      }
      if x in Declared(g', order) {
        var e :| 0 <= e < |g'.from| && x == (order[g'.from[e]], order[g'.to[e]]);
        assert e < |g.from| ==> x == (order[g.from[e]], order[g.to[e]]);
      }
    }
  }

  lemma AddEdgeOnce(g: Graph, from: nat, to: nat, seen: set<Graphs.Edge<nat>>)
    requires GraphOk(g) && EachPairOnce(g) && from < g.n && to < g.n && (from, to) !in seen
    requires forall e :: 0 <= e < |g.from| ==> (g.from[e], g.to[e]) in seen
    ensures EachPairOnce(AddEdge(g, from, to))
    ensures forall e :: 0 <= e < |g.from| + 1 ==> (AddEdge(g, from, to).from[e], AddEdge(g, from, to).to[e]) in seen + {(from, to)}
  {
  }

  ghost predicate Endpoints(order: seq<string>, links: seq<Link>) {
    forall k :: 0 <= k < |links| ==> links[k].from in order && links[k].to in order
  }

  method IndexOrder(order: seq<string>) returns (position: map<string, nat>)
    requires NoDuplicates(order)
    ensures Indexes(order, position)
  {
    position := map[];
    for k := 0 to |order|
      invariant Indexes(order[..k], position)
    {
      assert order[..k + 1] == order[..k] + [order[k]];
      assert order[k] !in order[..k];
      position := position[order[k] := k];
    }
    assert order[..|order|] == order;
  }

  /** Indexed edges for the declared links, duplicates dropped. On a plan's order every edge points forward. */
  method Connect(order: seq<string>, links: seq<Link>) returns (g: Graph)
    requires NoDuplicates(order) && Endpoints(order, links)
    ensures GraphOk(g) && g.n == |order| && Declared(g, order) == EdgeSet(links) && EachPairOnce(g)
    ensures Topological(EdgeSet(links), order) ==> forall e :: 0 <= e < |g.from| ==> g.from[e] < g.to[e]
  {
    hide Topological, NoDuplicates, EdgeSet, AddEdge, WiredUpTo, GraphOk;
    var position := IndexOrder(order);
    g := Graph(|order|, [], [], [], seq(|order|, _ => []), seq(|order|, _ => []));
    var seen: set<Graphs.Edge<nat>> := {};
    NothingWired(g, order, links);
    for k := 0 to |links|
      invariant WiredUpTo(g, order, links, k, seen)
    {
      hide GraphOk, WiredUpTo, Indexes, AddEdge;
      IndexOf(order, position, links[k]);
      var from, to := position[links[k].from], position[links[k].to];
      OneMoreLink(g, order, links, k, seen, from, to);
      if (from, to) in seen {
        continue;
      }
      g := AddEdge(g, from, to);
      seen := seen + {(from, to)};
    }
    AllWired(g, order, links, seen);
    if Topological(EdgeSet(links), order) {
      PointsForward(g, order);
    }
  }

  ghost predicate WiredUpTo(g: Graph, order: seq<string>, links: seq<Link>, k: nat, seen: set<Graphs.Edge<nat>>)
    requires k <= |links|
  {
    && GraphOk(g) && g.n == |order| && Declared(g, order) == EdgeSet(links[..k]) && EachPairOnce(g)
    && (forall e :: 0 <= e < |g.from| ==> (g.from[e], g.to[e]) in seen)
    && (forall x :: x in seen ==> x.0 < g.n && x.1 < g.n && (order[x.0], order[x.1]) in Declared(g, order))
  }

  lemma NothingWired(g: Graph, order: seq<string>, links: seq<Link>)
    requires g == Graph(|order|, [], [], [], seq(|order|, _ => []), seq(|order|, _ => []))
    ensures WiredUpTo(g, order, links, 0, {})
  {
    assert links[..0] == [];
    NothingDeclared(g, order);
  }

  lemma AllWired(g: Graph, order: seq<string>, links: seq<Link>, seen: set<Graphs.Edge<nat>>)
    requires WiredUpTo(g, order, links, |links|, seen)
    ensures GraphOk(g) && g.n == |order| && Declared(g, order) == EdgeSet(links) && EachPairOnce(g)
  {
    assert links[..|links|] == links;
  }

  lemma OneMoreLink(g: Graph, order: seq<string>, links: seq<Link>, k: nat, seen: set<Graphs.Edge<nat>>, from: nat, to: nat)
    requires k < |links| && WiredUpTo(g, order, links, k, seen) && from < |order| && to < |order|
    requires order[from] == links[k].from && order[to] == links[k].to
    ensures GraphOk(g) && g.n == |order|
    ensures if (from, to) in seen then WiredUpTo(g, order, links, k + 1, seen)
            else WiredUpTo(AddEdge(g, from, to), order, links, k + 1, seen + {(from, to)})
  {
    hide GraphOk, EachPairOnce, Declared, AddEdge, EdgeSet;
    LinksSoFar(links, k);
    if (from, to) !in seen {
      AddEdgeOk(g, from, to);
      AddEdgeDeclares(g, order, from, to);
      AddEdgeOnce(g, from, to, seen);
      AddEdgeShape(g, from, to);
    }
  }

  lemma PointsForward(g: Graph, order: seq<string>)
    requires GraphOk(g) && g.n == |order| && NoDuplicates(order) && Topological(Declared(g, order), order)
    ensures forall e :: 0 <= e < |g.from| ==> g.from[e] < g.to[e]
  {
    forall e | 0 <= e < |g.from| ensures g.from[e] < g.to[e] {
      assert (order[g.from[e]], order[g.to[e]]) in Declared(g, order);
      var j :| 0 <= j < g.to[e] && order[j] == order[g.from[e]];
    }
  }

  lemma NothingDeclared(g: Graph, order: seq<string>)
    requires GraphOk(g) && g.n == |order| && g.from == []
    ensures Declared(g, order) == EdgeSet([])
  {
  }

  lemma AddEdgeShape(g: Graph, from: nat, to: nat)
    requires GraphOk(g) && from < g.n && to < g.n
    ensures AddEdge(g, from, to).n == g.n && |AddEdge(g, from, to).from| == |g.from| + 1
  {
  }

  lemma LinksSoFar(links: seq<Link>, k: nat)
    requires k < |links|
    ensures EdgeSet(links[..k + 1]) == EdgeSet(links[..k]) + {(links[k].from, links[k].to)}
  {
    assert links[..k + 1] == links[..k] + [links[k]];
  }

  lemma IndexOf(order: seq<string>, position: map<string, nat>, link: Link)
    requires Indexes(order, position) && link.from in order && link.to in order
    ensures link.from in position && link.to in position
    ensures position[link.from] < |order| && order[position[link.from]] == link.from
    ensures position[link.to] < |order| && order[position[link.to]] == link.to
  {
    Planner.IndexOf(order, position, link.from);
    Planner.IndexOf(order, position, link.to);
  }

  datatype StartResult = Started(runner: DagRunner.Runner) | NoCapacity | NotLocal | Unplannable(error: PlanError)

  predicate IsLocal(placement: string) {
    placement == "" || placement == "local"
  }

  /** `run`, up to spawning: a runner over the planned graph, or the reason there is none. Node `i` is the stage named
      `order[i]`, and the edges are exactly the declared links, each pointing forward. */
  method Start(p: Pipeline, capacity: nat) returns (r: StartResult, order: seq<string>)
    ensures r.Started? <==>
              && capacity > 0 && WellDeclared(p) && Acyclic(EdgeSet(p.edges))
              && forall s :: s in p.stages ==> s.placement == "" || s.placement == "local"
    ensures r.NoCapacity? <==> capacity == 0
    ensures r.NotLocal? ==> exists s :: s in p.stages && s.placement != "" && s.placement != "local"
    ensures r.Started? ==> fresh(r.runner) && r.runner.Valid() && r.runner.cap == capacity
    ensures r.Started? ==>
              var g := r.runner.g;
              && NoDuplicates(order) && multiset(order) == multiset(Ids(p.stages)) && GraphOk(g) && g.n == |order| == |p.stages|
              && Declared(g, order) == EdgeSet(p.edges) && EachPairOnce(g)
              && forall e :: 0 <= e < |g.from| ==> g.from[e] < g.to[e]
  {
    order := [];
    if capacity == 0 {
      r := NoCapacity;
      return;
    }
    for k := 0 to |p.stages|
      invariant forall j :: 0 <= j < k ==> IsLocal(p.stages[j].placement)
    {
      if !IsLocal(p.stages[k].placement) {
        r := NotLocal;
        return;
      }
    }
    FaultFreeIff(p);
    var plan := MakePlan(p);
    if plan.Rejected? {
      r := Unplannable(plan.error);
      return;
    }
    order := plan.order;
    PlannedEndpoints(p, order);
    var g := Connect(order, p.edges);
    assert |order| == |multiset(order)| == |multiset(Ids(p.stages))| == |p.stages|;
    var runner := new DagRunner.Runner(g, capacity);
    r := Started(runner);
  }

  lemma PlannedEndpoints(p: Pipeline, order: seq<string>)
    requires WellDeclared(p) && multiset(order) == multiset(Ids(p.stages))
    ensures Endpoints(order, p.edges) && |order| > 0
  {
    forall x | x in Ids(p.stages) ensures x in order {
      assert x in multiset(order);
    }
    assert Ids(p.stages)[0] in Ids(p.stages);
    forall k | 0 <= k < |p.edges| ensures p.edges[k].from in order && p.edges[k].to in order {
      assert p.edges[k] in p.edges;
    }
  }
}
