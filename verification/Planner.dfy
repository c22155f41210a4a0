/** Pipeline graphs: what a cycle is, and why a graph where everybody waits for somebody has one. */
module Graphs {
  type Edge<T> = (T, T)

  ghost predicate IsPath<T>(edges: set<Edge<T>>, path: seq<T>) {
    forall i :: 0 <= i < |path| - 1 ==> (path[i], path[i + 1]) in edges
  }

  ghost predicate IsCycle<T>(edges: set<Edge<T>>, path: seq<T>) {
    |path| >= 2 && path[0] == path[|path| - 1] && IsPath(edges, path)
  }

  ghost predicate Acyclic<T(!new)>(edges: set<Edge<T>>) {
    forall path: seq<T> :: !IsCycle(edges, path)
  }

  ghost predicate NoDuplicates<T>(s: seq<T>) {
    forall i, j :: 0 <= i < j < |s| ==> s[i] != s[j]
  }

  /** Every producer stands before its consumers. */
  ghost predicate Topological<T(!new)>(edges: set<Edge<T>>, order: seq<T>) {
    forall i, v :: 0 <= i < |order| && (v, order[i]) in edges ==> v in order[..i]
  }

  lemma {:induction false} DistinctFits<T>(s: seq<T>, all: set<T>)
    requires NoDuplicates(s) && forall x :: x in s ==> x in all
    ensures |s| <= |all|
  {
    if |s| > 0 {
      var last := s[|s| - 1];
      forall x | x in s[..|s| - 1] ensures x in all - {last} {
      }
      DistinctFits(s[..|s| - 1], all - {last});
    }
  }

  lemma {:induction false} DistinctFills<T>(s: seq<T>, all: set<T>, x: T)
    requires NoDuplicates(s) && (forall y :: y in s ==> y in all) && |s| == |all| && x in all
    ensures x in s
  {
    if x !in s {
      DistinctFits(s + [x], all);
    }
  }

  ghost predicate Waits<T(!new)>(edges: set<Edge<T>>, rest: set<T>, v: T) {
    exists u :: u in rest && (u, v) in edges
  }

  lemma Blocker<T(!new)>(edges: set<Edge<T>>, rest: set<T>, v: T) returns (u: T)
    requires Waits(edges, rest, v)
    ensures u in rest && (u, v) in edges
  {
    u :| u in rest && (u, v) in edges;
  }

  lemma Extend<T>(edges: set<Edge<T>>, u: T, walk: seq<T>)
    requires |walk| > 0 && IsPath(edges, walk) && (u, walk[0]) in edges
    ensures IsPath(edges, [u] + walk)
  {
  }

  /** In a finite set where everybody waits for somebody, walking back must come round. */
  lemma {:induction false} WalkBack<T(!new)>(edges: set<Edge<T>>, rest: set<T>, walk: seq<T>) returns (cycle: seq<T>)
    requires forall v :: v in rest ==> Waits(edges, rest, v)
    requires |walk| > 0 && NoDuplicates(walk) && IsPath(edges, walk) && forall v :: v in walk ==> v in rest
    ensures IsCycle(edges, cycle)
    decreases |rest| - |walk|
  {
    hide Waits;
    assert walk[0] in walk;
    var u := Blocker(edges, rest, walk[0]);
    var longer := [u] + walk;
    Extend(edges, u, walk);
    if k :| 0 <= k < |walk| && walk[k] == u {
      cycle := longer[..k + 2];
    } else {
      DistinctFits(longer, rest);
      cycle := WalkBack(edges, rest, longer);
    }
  }

  /** A topological order rules cycles out: positions would have to increase all the way round. */
  lemma OrderedIsAcyclic<T(!new)>(edges: set<Edge<T>>, order: seq<T>)
    requires Topological(edges, order) && NoDuplicates(order)
    requires forall e :: e in edges ==> e.1 in order
    ensures Acyclic(edges)
  {
    forall path: seq<T> ensures !IsCycle(edges, path) {
      if IsCycle(edges, path) {
        var last := |path| - 1;
        assert (path[last - 1], path[last]) in edges;
        var k :| 0 <= k < |order| && order[k] == path[last];
        Descend(edges, order, path, last, k);
      }
    }
  }

  /** Going back along a path from position `k` ends strictly before `k`. */
  lemma {:induction false} Descend<T(!new)>(edges: set<Edge<T>>, order: seq<T>, path: seq<T>, j: nat, k: nat)
    requires Topological(edges, order) && IsPath(edges, path)
    requires 0 < j < |path| && k < |order| && order[k] == path[j]
    ensures path[0] in order[..k]
  {
    assert (path[j - 1], order[k]) in edges;
    assert path[j - 1] in order[..k];
    if j > 1 {
      var i :| 0 <= i < k && order[i] == path[j - 1];
      Descend(edges, order, path, j - 1, i);
    }
  }
}

/** `Planner::plan` and the chain test the remote runner relies on. */
module Planner {
  import opened Graphs

  datatype Stage = Stage(id: string, argv: seq<string>, placement: string)
  datatype Link = Link(from: string, to: string)
  datatype Pipeline = Pipeline(stages: seq<Stage>, edges: seq<Link>)

  datatype PlanError = NoStages | EmptyId | EmptyCommand | DuplicateId | UnknownStage | SelfLoop | HasCycle
  datatype Plan = Planned(order: seq<string>) | Rejected(error: PlanError)

  function Ids(stages: seq<Stage>): seq<string> {
    seq(|stages|, i requires 0 <= i < |stages| => stages[i].id)
  }

  function EdgeSet(edges: seq<Link>): set<Edge<string>> {
    set e | e in edges :: (e.from, e.to)
  }

  /** The complaint about stage `k`, given the stages before it. */
  function StageFault(stages: seq<Stage>, k: nat): (r: seq<PlanError>)
    requires k < |stages|
  {
    if stages[k].id == "" then [EmptyId]
    else if stages[k].argv == [] then [EmptyCommand]
    else if stages[k].id in Ids(stages[..k]) then [DuplicateId]
    else []
  }

  function LinkFault(ids: seq<string>, link: Link): seq<PlanError> {
    if link.from !in ids || link.to !in ids then [UnknownStage]
    else if link.from == link.to then [SelfLoop]
    else []
  }

  /** The first complaint about the stages from `k` on, then about the edges. */
  function StageFaults(stages: seq<Stage>, k: nat): seq<PlanError>
    requires k <= |stages|
    decreases |stages| - k
  {
    if k == |stages| then [] else if StageFault(stages, k) != [] then StageFault(stages, k) else StageFaults(stages, k + 1)
  }

  function LinkFaults(ids: seq<string>, edges: seq<Link>, k: nat): seq<PlanError>
    requires k <= |edges|
    decreases |edges| - k
  {
    if k == |edges| then []
    else if LinkFault(ids, edges[k]) != [] then LinkFault(ids, edges[k])
    else LinkFaults(ids, edges, k + 1)
  }

  function Faults(p: Pipeline): seq<PlanError> {
    if p.stages == [] then [NoStages]
    else if StageFaults(p.stages, 0) != [] then StageFaults(p.stages, 0)
    else LinkFaults(Ids(p.stages), p.edges, 0)
  }

  /** The checks in plain words: distinct named stages with commands, edges between two different known stages. */
  ghost predicate WellDeclared(p: Pipeline) {
    && p.stages != [] && NoDuplicates(Ids(p.stages))
    && (forall s :: s in p.stages ==> s.id != "" && s.argv != [])
    && (forall e :: e in p.edges ==> e.from in Ids(p.stages) && e.to in Ids(p.stages) && e.from != e.to)
  }

  lemma FaultFreeIff(p: Pipeline)
    ensures Faults(p) == [] <==> WellDeclared(p)
  {
    if p.stages != [] {
      StagesWellDeclared(p.stages);
      LinksFaultFree(Ids(p.stages), p.edges, 0);
      assert (forall e :: e in p.edges ==> LinkFault(Ids(p.stages), e) == []) <==>
             (forall i :: 0 <= i < |p.edges| ==> LinkFault(Ids(p.stages), p.edges[i]) == []);
      hide StageFaults, LinkFaults, Ids, NoDuplicates;
    }
  }

  lemma StagesWellDeclared(stages: seq<Stage>)
    ensures StageFaults(stages, 0) == [] <==>
            NoDuplicates(Ids(stages)) && forall s :: s in stages ==> s.id != "" && s.argv != []
  {
    StagesFaultFree(stages, 0);
    DistinctByPrefixes(Ids(stages));
    hide StageFaults, NoDuplicates;
    forall k | 0 <= k < |stages|
      ensures StageFault(stages, k) == [] <==>
              stages[k].id != "" && stages[k].argv != [] && Ids(stages)[k] !in Ids(stages)[..k]
    {
      assert Ids(stages[..k]) == Ids(stages)[..k];
    }
    forall k | 0 <= k < |stages| ensures stages[k] in stages {
    }
  }

  lemma {:induction false} StagesFaultFree(stages: seq<Stage>, k: nat)
    requires k <= |stages|
    ensures StageFaults(stages, k) == [] <==> forall i :: k <= i < |stages| ==> StageFault(stages, i) == []
    decreases |stages| - k
  {
    if k < |stages| { StagesFaultFree(stages, k + 1); }
  }

  lemma {:induction false} LinksFaultFree(ids: seq<string>, edges: seq<Link>, k: nat)
    requires k <= |edges|
    ensures LinkFaults(ids, edges, k) == [] <==> forall i :: k <= i < |edges| ==> LinkFault(ids, edges[i]) == []
    decreases |edges| - k
  {
    if k < |edges| { LinksFaultFree(ids, edges, k + 1); }
  }

  lemma DistinctByPrefixes(s: seq<string>)
    ensures NoDuplicates(s) <==> forall k :: 0 <= k < |s| ==> s[k] !in s[..k]
  {
    if forall k :: 0 <= k < |s| ==> s[k] !in s[..k] {
      forall i, j | 0 <= i < j < |s| ensures s[i] != s[j] {
        assert s[..j][i] == s[i];
      }
    }
  }

  /** The first stage with something wrong decides, whatever comes after it: no name, else no command, else a name an
      earlier stage has. */
  lemma FirstStageComplaint(p: Pipeline, k: nat)
    requires k < |p.stages|
    requires forall j :: 0 <= j < k ==>
               p.stages[j].id != "" && p.stages[j].argv != [] && forall i :: 0 <= i < j ==> p.stages[i].id != p.stages[j].id
    requires p.stages[k].id == "" || p.stages[k].argv == [] || exists i :: 0 <= i < k && p.stages[i].id == p.stages[k].id
    ensures Faults(p) == [if p.stages[k].id == "" then EmptyId else if p.stages[k].argv == [] then EmptyCommand else DuplicateId]
  {
    forall j | 0 <= j < k ensures StageFault(p.stages, j) == [] {
      assert forall i :: 0 <= i < j ==> Ids(p.stages[..j])[i] == p.stages[i].id;
    }
    if i :| 0 <= i < k && p.stages[i].id == p.stages[k].id {
      assert Ids(p.stages[..k])[i] == p.stages[k].id;
    }
    StageFaultsFrom(p.stages, 0, k);
  }

  lemma {:induction false} StageFaultsFrom(stages: seq<Stage>, j: nat, k: nat)
    requires j <= k < |stages| && StageFault(stages, k) != [] && forall i :: j <= i < k ==> StageFault(stages, i) == []
    ensures StageFaults(stages, j) == StageFault(stages, k)
    decreases k - j
  {
    if j < k { StageFaultsFrom(stages, j + 1, k); }
  }

  /** With all stages in order the first wrong edge decides: a name no stage has, else the same name twice. */
  lemma FirstLinkComplaint(p: Pipeline, k: nat)
    requires k < |p.edges| && WellDeclared(p.(edges := p.edges[..k]))
    requires var e := p.edges[k]; e.from !in Ids(p.stages) || e.to !in Ids(p.stages) || e.from == e.to
    ensures var e := p.edges[k];
            Faults(p) == [if e.from !in Ids(p.stages) || e.to !in Ids(p.stages) then UnknownStage else SelfLoop]
  {
    StagesWellDeclared(p.stages);
    forall j | 0 <= j < k ensures LinkFault(Ids(p.stages), p.edges[j]) == [] {
      assert p.edges[..k][j] in p.edges[..k];
    }
    LinkFaultsFrom(Ids(p.stages), p.edges, 0, k);
  }

  lemma {:induction false} LinkFaultsFrom(ids: seq<string>, edges: seq<Link>, j: nat, k: nat)
    requires j <= k < |edges| && LinkFault(ids, edges[k]) != [] && forall i :: j <= i < k ==> LinkFault(ids, edges[i]) == []
    ensures LinkFaults(ids, edges, j) == LinkFault(ids, edges[k])
    decreases k - j
  {
    if j < k { LinkFaultsFrom(ids, edges, j + 1, k); }
  }

  // In-degrees over the edges not yet removed.

  function Into(edges: set<Edge<nat>>, v: nat): set<Edge<nat>> {
    set e | e in edges && e.1 == v
  }

  ghost predicate Degrees(edges: set<Edge<nat>>, indegree: seq<nat>) {
    forall v :: 0 <= v < |indegree| ==> indegree[v] == |Into(edges, v)|
  }

  lemma DegreesAfterAdd(edges: set<Edge<nat>>, indegree: seq<nat>, u: nat, v: nat)
    requires Degrees(edges, indegree) && v < |indegree| && (u, v) !in edges
    ensures Degrees(edges + {(u, v)}, indegree[v := indegree[v] + 1])
  {
    forall w | 0 <= w < |indegree| ensures Into(edges + {(u, v)}, w) == if w == v then Into(edges, v) + {(u, v)} else Into(edges, w) {
    }
  }

  lemma DegreesAfterRemove(edges: set<Edge<nat>>, indegree: seq<nat>, u: nat, v: nat)
    requires Degrees(edges, indegree) && v < |indegree| && (u, v) in edges
    ensures indegree[v] > 0 && Degrees(edges - {(u, v)}, indegree[v := indegree[v] - 1])
  {
    assert (u, v) in Into(edges, v);
    forall w | 0 <= w < |indegree| ensures Into(edges - {(u, v)}, w) == if w == v then Into(edges, v) - {(u, v)} else Into(edges, w) {
    }
  }

  /** `successors` lists each node's targets once. */
  ghost predicate Adjacency(edges: set<Edge<nat>>, successors: seq<seq<nat>>) {
    && (forall u :: 0 <= u < |successors| ==> NoDuplicates(successors[u]))
    && (forall e :: e in edges ==> e.0 < |successors| && e.1 in successors[e.0])
    && (forall u, v :: 0 <= u < |successors| && v in successors[u] ==> (u, v) in edges)
  }

  lemma AdjacencyAfterAdd(edges: set<Edge<nat>>, successors: seq<seq<nat>>, u: nat, v: nat)
    requires Adjacency(edges, successors) && u < |successors| && (u, v) !in edges
    ensures Adjacency(edges + {(u, v)}, successors[u := successors[u] + [v]])
  {
  }

  method IndexStages(stages: seq<Stage>) returns (fault: seq<PlanError>, position: map<string, nat>)
    ensures fault == StageFaults(stages, 0)
    ensures fault == [] ==> Indexes(Ids(stages), position)
  {
    position := map[];
    for k := 0 to |stages|
      invariant StageFaults(stages, 0) == StageFaults(stages, k)
      invariant Indexes(Ids(stages[..k]), position)
    {
      assert StageFaults(stages, k) == if StageFault(stages, k) != [] then StageFault(stages, k) else StageFaults(stages, k + 1);
      var stage := stages[k];
      if stage.id == "" {
        return [EmptyId], position;
      }
      if stage.argv == [] {
        return [EmptyCommand], position;
      }
      if stage.id in position {
        return [DuplicateId], position;
      }
      IndexOneMore(stages, k, position);
      position := position[stage.id := k];
    }
    assert stages[..|stages|] == stages;
    fault := [];
  }

  /** Each name has exactly its own index. */
  ghost predicate Indexes(ids: seq<string>, position: map<string, nat>) {
    && (forall id :: id in position <==> id in ids)
    && (forall k :: 0 <= k < |ids| ==> ids[k] in position && position[ids[k]] == k)
  }

  lemma IndexOneMore(stages: seq<Stage>, k: nat, position: map<string, nat>)
    requires k < |stages| && Indexes(Ids(stages[..k]), position) && stages[k].id !in position
    ensures Indexes(Ids(stages[..k + 1]), position[stages[k].id := k])
  {
    assert Ids(stages[..k + 1]) == Ids(stages[..k]) + [stages[k].id];
  }

  /** The edge set by name. */
  ghost function Named(ids: seq<string>, edges: set<Edge<nat>>): set<Edge<string>>
    requires InRange(edges, |ids|)
  {
    set e | e in edges :: (ids[e.0], ids[e.1])
  }

  ghost predicate InRange(edges: set<Edge<nat>>, n: nat) {
    forall e :: e in edges ==> e.0 < n && e.1 < n
  }

  method BuildGraph(ids: seq<string>, edges: seq<Link>, position: map<string, nat>)
    returns (fault: seq<PlanError>, graph: set<Edge<nat>>, successors: seq<seq<nat>>, indegree: seq<nat>)
    requires Indexes(ids, position)
    ensures fault == LinkFaults(ids, edges, 0)
    ensures |successors| == |indegree| == |ids| && InRange(graph, |ids|)
    ensures fault == [] ==> Named(ids, graph) == EdgeSet(edges)
    ensures Adjacency(graph, successors) && Degrees(graph, indegree)
  {
    graph := {};
    successors := seq(|ids|, _ => []);
    indegree := seq(|ids|, _ => 0);
    assert Degrees(graph, indegree) by { NoneInto(); }
    for k := 0 to |edges|
      invariant LinkFaults(ids, edges, 0) == LinkFaults(ids, edges, k)
      invariant |successors| == |indegree| == |ids| && InRange(graph, |ids|)
      invariant Named(ids, graph) == EdgeSet(edges[..k])
      invariant Adjacency(graph, successors) && Degrees(graph, indegree)
    {
      var edge := edges[k];
      if edge.from !in position || edge.to !in position {
        return [UnknownStage], graph, successors, indegree;
      }
      var from, to := position[edge.from], position[edge.to];
      if from == to {
        return [SelfLoop], graph, successors, indegree;
      }
      OneMoreEdge(ids, edges, position, graph, k);
      if (from, to) in graph {
        continue;
      }
      AdjacencyAfterAdd(graph, successors, from, to);
      DegreesAfterAdd(graph, indegree, from, to);
      graph := graph + {(from, to)};
      successors := successors[from := successors[from] + [to]];
      indegree := indegree[to := indegree[to] + 1];
    }
    assert edges[..|edges|] == edges;
    fault := [];
  }

  lemma NoneInto()
    ensures forall v :: |Into({}, v)| == 0
  {
    forall v ensures |Into({}, v)| == 0 {
      assert Into({}, v) == {};
    }
  }

  lemma IndexOf(ids: seq<string>, position: map<string, nat>, id: string)
    requires Indexes(ids, position) && id in position
    ensures position[id] < |ids| && ids[position[id]] == id
  {
    var k :| 0 <= k < |ids| && ids[k] == id;
  }

  lemma OneMoreEdge(ids: seq<string>, edges: seq<Link>, position: map<string, nat>, graph: set<Edge<nat>>, k: nat)
    requires Indexes(ids, position) && k < |edges| && InRange(graph, |ids|)
    requires edges[k].from in position && edges[k].to in position
    requires Named(ids, graph) == EdgeSet(edges[..k])
    ensures var e := (position[edges[k].from], position[edges[k].to]);
            e.0 < |ids| && e.1 < |ids| && Named(ids, graph + {e}) == EdgeSet(edges[..k + 1])
  {
    IndexOf(ids, position, edges[k].from);
    IndexOf(ids, position, edges[k].to);
    var e := (position[edges[k].from], position[edges[k].to]);
    assert edges[..k + 1] == edges[..k] + [edges[k]];
    assert EdgeSet(edges[..k + 1]) == EdgeSet(edges[..k]) + {(edges[k].from, edges[k].to)};
    assert Named(ids, graph + {e}) == Named(ids, graph) + {(ids[e.0], ids[e.1])};
  }

  // Kahn's algorithm.

  /** The nodes out or ready are exactly those without remaining incoming edges. */
  ghost predicate Frontier(rest: set<Edge<nat>>, seen: seq<nat>, indegree: seq<nat>) {
    && Degrees(rest, indegree) && NoDuplicates(seen)
    && (forall v :: v in seen ==> v < |indegree|)
    && (forall v :: 0 <= v < |indegree| ==> (indegree[v] == 0 <==> v in seen))
  }

  lemma FrontierAfterRemove(rest: set<Edge<nat>>, seen: seq<nat>, indegree: seq<nat>, u: nat, v: nat)
    requires Frontier(rest, seen, indegree) && v < |indegree| && (u, v) in rest
    ensures indegree[v] > 0
    ensures var seen' := if indegree[v] == 1 then seen + [v] else seen;
            Frontier(rest - {(u, v)}, seen', indegree[v := indegree[v] - 1])
  {
    DegreesAfterRemove(rest, indegree, u, v);
    assert v !in seen;
    hide Degrees;
  }

  /** What is left of `graph` after the edges out of `done`, and the first `k` out of `current`, were removed. */
  ghost predicate LeftOf(graph: set<Edge<nat>>, rest: set<Edge<nat>>, done: seq<nat>, current: nat, removed: seq<nat>) {
    forall e :: e in rest <==> e in graph && e.0 !in done && !(e.0 == current && e.1 in removed)
  }

  ghost predicate Remaining(graph: set<Edge<nat>>, rest: set<Edge<nat>>, done: seq<nat>) {
    forall e :: e in rest <==> e in graph && e.0 !in done
  }

  lemma LeftBegins(graph: set<Edge<nat>>, rest: set<Edge<nat>>, done: seq<nat>, current: nat)
    requires Remaining(graph, rest, done)
    ensures LeftOf(graph, rest, done, current, [])
  {
  }

  lemma LeftAfterRemove(graph: set<Edge<nat>>, rest: set<Edge<nat>>, done: seq<nat>, current: nat, targets: seq<nat>, k: nat)
    requires k < |targets| && LeftOf(graph, rest, done, current, targets[..k]) && current !in done
    requires NoDuplicates(targets) && (current, targets[k]) in graph
    ensures (current, targets[k]) in rest
    ensures LeftOf(graph, rest - {(current, targets[k])}, done, current, targets[..k + 1])
  {
    assert targets[k] !in targets[..k];
    assert targets[..k + 1] == targets[..k] + [targets[k]];
  }

  lemma LeftEnds(graph: set<Edge<nat>>, rest: set<Edge<nat>>, done: seq<nat>, current: nat, targets: seq<nat>)
    requires LeftOf(graph, rest, done, current, targets)
    requires forall e :: e in graph && e.0 == current ==> e.1 in targets
    ensures Remaining(graph, rest, done + [current])
  {
  }

  /** Releases the successors of `current`. */
  method Release(ghost graph: set<Edge<nat>>, targets: seq<nat>, ghost rest0: set<Edge<nat>>, ghost done: seq<nat>,
                 current: nat, ready0: seq<nat>, indegree0: seq<nat>)
    returns (ready: seq<nat>, indegree: seq<nat>, ghost rest: set<Edge<nat>>)
    requires NoDuplicates(targets) && (forall v :: v in targets ==> v < |indegree0| && (current, v) in graph)
    requires forall e :: e in graph && e.0 == current ==> e.1 in targets
    requires current !in done && Remaining(graph, rest0, done) && Frontier(rest0, (done + [current]) + ready0, indegree0)
    ensures |indegree| == |indegree0|
    ensures Remaining(graph, rest, done + [current]) && Frontier(rest, (done + [current]) + ready, indegree)
  {
    hide Frontier, Remaining, LeftOf, NoDuplicates;
    ready, indegree, rest := ready0, indegree0, rest0;
    LeftBegins(graph, rest, done, current);
    assert targets[..0] == [];
    for k := 0 to |targets|
      invariant |indegree| == |indegree0| && LeftOf(graph, rest, done, current, targets[..k])
      invariant Frontier(rest, (done + [current]) + ready, indegree)
    {
      hide Frontier, Remaining, LeftOf, NoDuplicates;
      var next := targets[k];
      LeftAfterRemove(graph, rest, done, current, targets, k);
      FrontierAfterRemove(rest, (done + [current]) + ready, indegree, current, next);
      indegree := indegree[next := indegree[next] - 1];
      if indegree[next] == 0 {
        assert ((done + [current]) + ready) + [next] == (done + [current]) + (ready + [next]);
        ready := ready + [next];
      }
      rest := rest - {(current, next)};
    }
    assert targets[..|targets|] == targets;
    LeftEnds(graph, rest, done, current, targets);
  }

  ghost function Below(n: nat): set<nat> {
    if n == 0 then {} else Below(n - 1) + {n - 1}
  }

  lemma {:induction false} BelowSize(n: nat)
    ensures |Below(n)| == n && forall v: nat :: v in Below(n) <==> v < n
  {
    if n > 0 {
      BelowSize(n - 1);
    }
  }

  /** The node at the front of the queue waits for nobody that is not out yet. */
  lemma FrontIsFree(graph: set<Edge<nat>>, rest: set<Edge<nat>>, out: seq<nat>, ready: seq<nat>, indegree: seq<nat>)
    requires Remaining(graph, rest, out) && Frontier(rest, out + ready, indegree) && |ready| > 0
    requires Topological(graph, out)
    ensures ready[0] < |indegree| && ready[0] !in out && Topological(graph, out + [ready[0]]) && |out| < |indegree|
  {
    var c := ready[0];
    assert (out + ready)[|out|] == c;
    assert c in out + ready;
    assert indegree[c] == 0;
    forall i | 0 <= i < |out| ensures out[i] != c {
      assert (out + ready)[i] == out[i];
    }
    assert |Into(rest, c)| == 0;
    forall v | (v, c) in graph ensures v in out {
      assert (v, c) !in Into(rest, c);
    }
    forall i, v | 0 <= i < |out + [c]| && (v, (out + [c])[i]) in graph ensures v in (out + [c])[..i] {
      assert i < |out| ==> (out + [c])[..i] == out[..i];
      assert i == |out| ==> (out + [c])[..i] == out;
    }
    BelowSize(|indegree|);
    DistinctFits(out + ready, Below(|indegree|));
  }

  predicate AllBelow(out: seq<nat>, n: nat) {
    forall i :: 0 <= i < |out| ==> out[i] < n
  }

  method Kahn(ghost graph: set<Edge<nat>>, successors: seq<seq<nat>>, indegree0: seq<nat>) returns (out: seq<nat>)
    requires |successors| == |indegree0| && InRange(graph, |indegree0|)
    requires Adjacency(graph, successors) && Degrees(graph, indegree0)
    ensures NoDuplicates(out) && AllBelow(out, |successors|) && Topological(graph, out)
    ensures |out| <= |successors|
    ensures |out| < |successors| ==> !Acyclic<nat>(graph)
  {
    var indegree := indegree0;
    ghost var rest := graph;
    var ready: seq<nat> := [];
    for i := 0 to |indegree|
      invariant NoDuplicates(ready) && (forall v :: v in ready ==> v < i) && forall v :: 0 <= v < i ==> (v in ready <==> indegree[v] == 0)
    {
      if indegree[i] == 0 {
        assert i !in ready;
        ready := ready + [i];
      }
    }
    out := [];
    assert out + ready == ready;
    while ready != []
      invariant |indegree| == |successors| && Remaining(graph, rest, out) && Topological(graph, out)
      invariant Frontier(rest, out + ready, indegree)
      decreases |successors| - |out|
    {
      hide Frontier, Topological, Remaining;
      FrontIsFree(graph, rest, out, ready, indegree);
      var current := ready[0];
      assert out + ready == (out + [current]) + ready[1..];
      ready, indegree, rest := Release(graph, successors[current], rest, out, current, ready[1..], indegree);
      out := out + [current];
    }
    assert out + ready == out;
    forall i | 0 <= i < |out| ensures out[i] < |successors| {
      assert out[i] in out;
    }
    BelowSize(|successors|);
    DistinctFits(out, Below(|successors|));
    if |out| < |successors| {
      Stuck(graph, rest, out, indegree);
    }
  }

  /** Whoever is left when the queue runs dry waits for somebody else who is left. */
  lemma Stuck(graph: set<Edge<nat>>, rest: set<Edge<nat>>, out: seq<nat>, indegree: seq<nat>)
    requires Remaining(graph, rest, out) && Frontier(rest, out, indegree) && |out| < |indegree|
    requires InRange(graph, |indegree|)
    ensures !Acyclic<nat>(graph)
  {
    BelowSize(|indegree|);
    var left := set v | v in Below(|indegree|) && v !in out;
    forall v | v in left ensures Waits(graph, left, v) {
      assert v < |indegree| && indegree[v] == |Into(rest, v)| > 0;
      var e :| e in Into(rest, v);
      assert e.0 in left && (e.0, v) in graph;
    }
    var first := Missing(out, Below(|indegree|));
    var cycle := WalkBack<nat>(graph, left, [first]);
    assert IsCycle<nat>(graph, cycle);
  }

  ghost function Elements(s: seq<nat>): set<nat> {
    set v | v in s
  }

  lemma Missing(out: seq<nat>, all: set<nat>) returns (v: nat)
    requires |out| < |all|
    ensures v in all && v !in out
  {
    SeqSize(out);
    CardinalityLe(all * Elements(out), Elements(out));
    assert |all - Elements(out)| == |all| - |all * Elements(out)| > 0;
    v :| v in all - Elements(out);
  }

  lemma {:induction false} SeqSize(s: seq<nat>)
    ensures |Elements(s)| <= |s|
  {
    if |s| > 0 {
      SeqSize(s[..|s| - 1]);
      assert Elements(s) == Elements(s[..|s| - 1]) + {s[|s| - 1]};
    }
  }

  lemma {:induction false} CardinalityLe<T>(a: set<T>, b: set<T>)
    requires a <= b
    ensures |a| <= |b|
  {
    if a != {} {
      var x :| x in a;
      CardinalityLe(a - {x}, b - {x});
    }
  }

  // Back to names.

  lemma NamedCycle(ids: seq<string>, graph: set<Edge<nat>>)
    requires InRange(graph, |ids|) && !Acyclic<nat>(graph)
    ensures !Acyclic<string>(Named(ids, graph))
  {
    var cycle: seq<nat> :| IsCycle<nat>(graph, cycle);
    forall i | 0 <= i < |cycle| ensures cycle[i] < |ids| {
      assert i < |cycle| - 1 ==> (cycle[i], cycle[i + 1]) in graph;
      assert i == |cycle| - 1 ==> (cycle[0], cycle[1]) in graph;
    }
    var names := seq(|cycle|, i requires 0 <= i < |cycle| => ids[cycle[i]]);
    forall i | 0 <= i < |names| - 1 ensures (names[i], names[i + 1]) in Named(ids, graph) {
      assert (cycle[i], cycle[i + 1]) in graph;
    }
    assert IsCycle<string>(Named(ids, graph), names);
  }

  function NamesOf(ids: seq<string>, out: seq<nat>): (names: seq<string>)
    requires AllBelow(out, |ids|)
    ensures |names| == |out| && forall i :: 0 <= i < |out| ==> names[i] == ids[out[i]]
  {
    seq(|out|, i requires 0 <= i < |out| => ids[out[i]])
  }

  lemma NamedOrder(ids: seq<string>, graph: set<Edge<nat>>, out: seq<nat>)
    requires InRange(graph, |ids|) && NoDuplicates(ids) && NoDuplicates(out) && Topological(graph, out)
    requires AllBelow(out, |ids|)
    ensures NoDuplicates(NamesOf(ids, out)) && Topological(Named(ids, graph), NamesOf(ids, out))
  {
    var names := NamesOf(ids, out);
    forall i, v | 0 <= i < |names| && (v, names[i]) in Named(ids, graph) ensures v in names[..i] {
      var e :| e in graph && (ids[e.0], ids[e.1]) == (v, names[i]);
      assert (e.0, out[i]) in graph;
      var j :| 0 <= j < i && out[j] == e.0;
      assert names[..i][j] == v;
    }
  }

  lemma EveryName(ids: seq<string>, out: seq<nat>, x: string)
    requires NoDuplicates(out) && |out| == |ids| && AllBelow(out, |ids|) && x in ids
    ensures x in NamesOf(ids, out)
  {
    var k :| 0 <= k < |ids| && ids[k] == x;
    BelowSize(|ids|);
    DistinctFills(out, Below(|ids|), k);
    var j :| 0 <= j < |out| && out[j] == k;
    assert NamesOf(ids, out)[j] == x;
  }

  lemma {:induction false} OnceEach<T>(s: seq<T>, x: T)
    requires NoDuplicates(s)
    ensures multiset(s)[x] == if x in s then 1 else 0
  {
    if |s| > 0 {
      assert s == s[..|s| - 1] + [s[|s| - 1]];
      OnceEach(s[..|s| - 1], x);
    }
  }

  lemma Rearranged(a: seq<string>, b: seq<string>)
    requires NoDuplicates(a) && NoDuplicates(b) && forall x :: x in a <==> x in b
    ensures multiset(a) == multiset(b)
  {
    forall x ensures multiset(a)[x] == multiset(b)[x] {
      OnceEach(a, x);
      OnceEach(b, x);
    }
  }

  lemma IndexedOnce(ids: seq<string>, position: map<string, nat>)
    requires Indexes(ids, position)
    ensures NoDuplicates(ids)
  {
  }

  /** Rejects a faulty pipeline with its first complaint; otherwise succeeds exactly on acyclic graphs, with every stage
      once and every producer before its consumers. */
  method MakePlan(p: Pipeline) returns (plan: Plan)
    ensures Faults(p) != [] ==> plan == Rejected(Faults(p)[0])
    ensures Faults(p) == [] ==>
              && (plan.Planned? <==> Acyclic(EdgeSet(p.edges)))
              && (plan.Rejected? ==> plan.error == HasCycle)
    ensures plan.Planned? ==>
              && multiset(plan.order) == multiset(Ids(p.stages)) && NoDuplicates(plan.order)
              && Topological(EdgeSet(p.edges), plan.order)
  {
    hide StageFaults, LinkFaults, Indexes, Adjacency, Degrees, Topological, Acyclic, Named, EdgeSet, NoDuplicates;
    if p.stages == [] {
      return Rejected(NoStages);
    }
    var ids := Ids(p.stages);
    var fault, position := IndexStages(p.stages);
    if fault != [] {
      return Rejected(fault[0]);
    }
    var linkFault, graph, successors, indegree := BuildGraph(ids, p.edges, position);
    if linkFault != [] {
      return Rejected(linkFault[0]);
    }
    var out := Kahn(graph, successors, indegree);
    if |out| != |p.stages| {
      NamedCycle(ids, graph);
      return Rejected(HasCycle);
    }
    plan := Planned(NamesOf(ids, out));
    IndexedOnce(ids, position);
    NamedOrder(ids, graph, out);
    PlanIsComplete(ids, graph, out);
  }

  lemma PlanIsComplete(ids: seq<string>, graph: set<Edge<nat>>, out: seq<nat>)
    requires InRange(graph, |ids|) && NoDuplicates(ids) && NoDuplicates(out) && |out| == |ids|
    requires AllBelow(out, |ids|) && NoDuplicates(NamesOf(ids, out))
    requires Topological(Named(ids, graph), NamesOf(ids, out))
    ensures multiset(NamesOf(ids, out)) == multiset(ids) && Acyclic(Named(ids, graph))
  {
    hide Topological, Acyclic;
    var names := NamesOf(ids, out);
    forall x ensures x in ids <==> x in names {
      if x in ids { EveryName(ids, out, x); }
    }
    Rearranged(names, ids);
    forall e | e in Named(ids, graph) ensures e.1 in names {
      EveryName(ids, out, e.1);
    }
    OrderedIsAcyclic(Named(ids, graph), names);
  }

  // Chains.

  /** The pairs of neighbours. */
  ghost function Consecutive(order: seq<string>): set<Edge<string>> {
    if |order| < 2 then {}
    else Consecutive(order[..|order| - 1]) + {(order[|order| - 2], order[|order| - 1])}
  }

  lemma {:induction false} ConsecutiveMeans(order: seq<string>, e: Edge<string>)
    ensures e in Consecutive(order) <==> exists i :: 0 <= i < |order| - 1 && e == (order[i], order[i + 1])
  {
    if |order| >= 2 {
      var init := order[..|order| - 1];
      ConsecutiveMeans(init, e);
      if e in Consecutive(init) {
        var i :| 0 <= i < |init| - 1 && e == (init[i], init[i + 1]);
        assert e == (order[i], order[i + 1]);
      }
      if i :| 0 <= i < |order| - 1 && e == (order[i], order[i + 1]) {
        assert i < |init| - 1 ==> e == (init[i], init[i + 1]);
      }
    }
  }

  lemma {:induction false} ConsecutiveSize(order: seq<string>)
    requires NoDuplicates(order) && |order| > 0
    ensures |Consecutive(order)| == |order| - 1
  {
    if |order| >= 2 {
      var init := order[..|order| - 1];
      ConsecutiveSize(init);
      ConsecutiveMeans(init, (order[|order| - 2], order[|order| - 1]));
    }
  }

  /** True exactly when the declared edges, duplicates aside, are the consecutive pairs of the order. */
  method IsDeclaredChain(links: seq<Link>, order: seq<string>) returns (chain: bool)
    ensures NoDuplicates(order) ==> (chain <==> |order| > 0 && EdgeSet(links) == Consecutive(order))
  {
    var edges: set<Edge<string>> := {};
    for k := 0 to |links|
      invariant edges == EdgeSet(links[..k])
    {
      assert links[..k + 1] == links[..k] + [links[k]];
      edges := edges + {(links[k].from, links[k].to)};
    }
    assert links[..|links|] == links;
    if |order| == 1 {
      assert Consecutive(order) == {};
      return edges == {};
    }
    if |edges| + 1 != |order| {
      if NoDuplicates(order) && |order| > 0 { ConsecutiveSize(order); }
      return false;
    }
    for i := 0 to |order| - 1
      invariant forall j :: 0 <= j < i ==> (order[j], order[j + 1]) in edges
    {
      if (order[i], order[i + 1]) !in edges {
        ConsecutiveMeans(order, (order[i], order[i + 1]));
        return false;
      }
    }
    chain := true;
    if NoDuplicates(order) {
      ConsecutiveSize(order);
      forall e | e in Consecutive(order) ensures e in edges {
        ConsecutiveMeans(order, e);
      }
      SameSize(Consecutive(order), edges);
    }
  }

  lemma SameSize<T>(a: set<T>, b: set<T>)
    requires a <= b && |a| == |b|
    ensures a == b
  {
    CardinalityLe(b - a, {});
  }

  lemma StageNamed(stages: seq<Stage>, id: string) returns (k: nat)
    requires id in Ids(stages)
    ensures k < |stages| && stages[k].id == id
  {
    k :| 0 <= k < |Ids(stages)| && Ids(stages)[k] == id;
  }

  /** `stagesInPlanOrder`: the stages themselves, in the order of their names. */
  method StagesInPlanOrder(stages: seq<Stage>, order: seq<string>) returns (ordered: seq<Stage>)
    requires forall i :: 0 <= i < |order| ==> order[i] in Ids(stages)
    ensures Ids(ordered) == order && forall s :: s in ordered ==> s in stages
    ensures multiset(order) == multiset(Ids(stages)) && NoDuplicates(order) ==> multiset(ordered) == multiset(stages)
  {
    var byId: map<string, Stage> := map[];
    for k := 0 to |stages|
      invariant forall i :: 0 <= i < k ==> stages[i].id in byId
      invariant forall id :: id in byId ==> byId[id] in stages && byId[id].id == id
    {
      if stages[k].id !in byId {
        byId := byId[stages[k].id := stages[k]];
      }
    }
    ordered := [];
    for i := 0 to |order|
      invariant |ordered| == i && forall j :: 0 <= j < i ==> ordered[j] in stages && ordered[j].id == order[j]
    {
      ghost var k := StageNamed(stages, order[i]);
      ordered := ordered + [byId[order[i]]];
    }
    assert Ids(ordered) == order;
    if multiset(order) == multiset(Ids(stages)) && NoDuplicates(order) {
      SameStages(stages, ordered);
    }
  }

  lemma {:induction false} RepeatedTwice(s: seq<string>, i: nat, j: nat)
    requires i < j < |s| && s[i] == s[j]
    ensures multiset(s)[s[i]] >= 2
  {
    assert s == s[..j] + [s[j]] + s[j + 1..];
    assert s[i] in s[..j];
  }

  lemma DistinctStages(stages: seq<Stage>)
    requires NoDuplicates(Ids(stages))
    ensures NoDuplicates(stages)
  {
    forall i, j | 0 <= i < j < |stages| ensures stages[i] != stages[j] {
      assert Ids(stages)[i] != Ids(stages)[j];
    }
  }

  lemma SameStages(stages: seq<Stage>, ordered: seq<Stage>)
    requires NoDuplicates(Ids(ordered)) && multiset(Ids(ordered)) == multiset(Ids(stages))
    requires forall s :: s in ordered ==> s in stages
    ensures multiset(ordered) == multiset(stages)
  {
    forall i, j | 0 <= i < j < |stages| ensures Ids(stages)[i] != Ids(stages)[j] {
      if Ids(stages)[i] == Ids(stages)[j] {
        RepeatedTwice(Ids(stages), i, j);
        OnceEach(Ids(ordered), Ids(stages)[i]);
      }
    }
    DistinctStages(stages);
    DistinctStages(ordered);
    forall s ensures multiset(ordered)[s] == multiset(stages)[s] {
      SameStage(stages, ordered, s);
      OnceEach(stages, s);
      OnceEach(ordered, s);
    }
  }

  lemma SameStage(stages: seq<Stage>, ordered: seq<Stage>, s: Stage)
    requires NoDuplicates(Ids(stages)) && multiset(Ids(ordered)) == multiset(Ids(stages))
    requires forall s :: s in ordered ==> s in stages
    ensures s in ordered <==> s in stages
  {
    if s in stages {
      var k :| 0 <= k < |stages| && stages[k] == s;
      assert Ids(stages)[k] in multiset(Ids(ordered));
      var j :| 0 <= j < |ordered| && Ids(ordered)[j] == s.id;
      assert ordered[j] in stages;
      var i :| 0 <= i < |stages| && stages[i] == ordered[j];
      assert Ids(stages)[i] == Ids(stages)[k];
    }
  }
}
