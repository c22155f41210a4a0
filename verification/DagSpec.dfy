/** The local dataflow graph: bounded edges between child processes, and what every event keeps true of them. */
module DagSpec {
  import opened Wire

  /** Nodes `0..n` in plan order. Edge `e` is the `slot[e]`-th input of its consumer. */
  datatype Graph = Graph(n: nat, from: seq<nat>, to: seq<nat>, slot: seq<nat>, incoming: seq<seq<nat>>, outgoing: seq<seq<nat>>)

  predicate GraphOk(g: Graph) {
    && |g.from| == |g.to| == |g.slot| && |g.incoming| == |g.outgoing| == g.n
    && (forall e :: 0 <= e < |g.from| ==>
          && g.from[e] < g.n && g.to[e] < g.n && e in g.outgoing[g.from[e]]
          && g.slot[e] < |g.incoming[g.to[e]]| && g.incoming[g.to[e]][g.slot[e]] == e)
    && (forall i, k :: 0 <= i < g.n && 0 <= k < |g.incoming[i]| ==>
          g.incoming[i][k] < |g.from| && g.to[g.incoming[i][k]] == i && g.slot[g.incoming[i][k]] == k)
    && (forall i, k :: 0 <= i < g.n && 0 <= k < |g.outgoing[i]| ==>
          g.outgoing[i][k] < |g.from| && g.from[g.outgoing[i][k]] == i)
    && (forall i, j, k :: 0 <= i < g.n && 0 <= j < k < |g.outgoing[i]| ==> g.outgoing[i][j] != g.outgoing[i][k])
  }

  /** One write to a consumer: which input it came from, which inputs had data, and the bytes the pipe took. */
  datatype Turn = Turn(slot: nat, waiting: set<nat>, bytes: seq<Byte>)

  /** Whether a stage's stdin is still fed, and if not, why it was closed. */
  datatype Ending = NoInput | Feeding | Finished | BrokenPipe | ChildGone | Cancelled

  /** One stage. `read` and `turns` record its whole output and the writes to its input. */
  datatype Node = Node(
    readable: bool, stdoutClosed: bool, stdinOpen: bool, writable: bool, exited: bool, exitCode: int,
    next: nat, ending: Ending, read: seq<Byte>, turns: seq<Turn>)

  datatype EdgeState = EdgeState(buffer: seq<Byte>, sourceClosed: bool, consumerClosed: bool)

  datatype Outcome = Outcome(stageExitCodes: seq<int>, exitCode: int)

  /** `broke` records the stages whose stdin pipe failed a write, `written` what each pipe took, write by write. */
  datatype Dag = Dag(
    nodes: seq<Node>, edges: seq<EdgeState>, buffered: nat, exitedCount: nat,
    done: bool, cancelled: bool, broke: set<nat>, written: seq<(nat, seq<Byte>)>, output: seq<(nat, seq<Byte>)>, outcomes: seq<Outcome>)

  /** The bytes that went to the consumer from one of its inputs. */
  function Taken(turns: seq<Turn>, slot: nat): seq<Byte> {
    if |turns| == 0 then []
    else
      var last := turns[|turns| - 1];
      Taken(turns[..|turns| - 1], slot) + if last.slot == slot then last.bytes else []
  }

  /** Everything these turns gave the consumer, in order. */
  function AllTaken(turns: seq<Turn>): seq<Byte> {
    if |turns| == 0 then [] else AllTaken(turns[..|turns| - 1]) + turns[|turns| - 1].bytes
  }

  /** The bytes of one stage in a log: those handed to the output callback, or those its pipe took. */
  function Shown(output: seq<(nat, seq<Byte>)>, i: nat): seq<Byte> {
    if |output| == 0 then []
    else
      var last := output[|output| - 1];
      Shown(output[..|output| - 1], i) + if last.0 == i then last.1 else []
  }

  function Total(edges: seq<EdgeState>): nat {
    if |edges| == 0 then 0 else Total(edges[..|edges| - 1]) + |edges[|edges| - 1].buffer|
  }

  function Exited(nodes: seq<Node>): nat {
    if |nodes| == 0 then 0 else Exited(nodes[..|nodes| - 1]) + if nodes[|nodes| - 1].exited then 1 else 0
  }

  // Round robin.

  /** Steps from slot `a` forward to slot `b` among `d`. */
  function Ahead(a: nat, b: nat, d: nat): nat
    requires a < d && b < d
  {
    if a <= b then b - a else b + d - a
  }

  function After(slot: nat, d: nat): nat {
    if slot + 1 == d then 0 else slot + 1
  }

  /** The slot the scan begins at after these turns. */
  function Cursor(turns: seq<Turn>, d: nat): nat {
    if |turns| == 0 then 0 else After(turns[|turns| - 1].slot, d)
  }

  /** Each turn took the first waiting input at or after the cursor. */
  predicate TurnsOk(turns: seq<Turn>, d: nat) {
    forall j :: 0 <= j < |turns| ==> TurnOk(turns[..j], turns[j], d)
  }

  predicate TurnOk(before: seq<Turn>, t: Turn, d: nat) {
    && t.slot < d && t.slot in t.waiting && t.bytes != []
    && Cursor(before, d) < d
    && forall w :: w in t.waiting ==> w < d && Ahead(Cursor(before, d), t.slot, d) <= Ahead(Cursor(before, d), w, d)
  }

  // The invariant.

  /** One edge between its producer `p` and its consumer `q`. */
  predicate EdgeOk(cap: nat, x: EdgeState, p: Node, q: Node, slot: nat) {
    && x.sourceClosed == p.stdoutClosed && x.consumerClosed == !q.stdinOpen
    && |x.buffer| <= cap
    && (q.stdinOpen ==> p.read == Taken(q.turns, slot) + x.buffer)
    && (!q.stdinOpen ==> x.buffer == [] && Taken(q.turns, slot) <= p.read)
    && (q.ending.Finished? ==> p.stdoutClosed && Taken(q.turns, slot) == p.read)
  }

  predicate Full(cap: nat, x: EdgeState) {
    !x.consumerClosed && |x.buffer| == cap
  }

  /** Some open outgoing edge of `i` has no room. */
  predicate Blocked(g: Graph, cap: nat, s: Dag, i: nat) {
    i < |g.outgoing| && exists k :: 0 <= k < |g.outgoing[i]| && g.outgoing[i][k] < |s.edges| && Full(cap, s.edges[g.outgoing[i][k]])
  }

  predicate HasInput(g: Graph, s: Dag, i: nat) {
    i < |g.incoming| && exists k :: 0 <= k < |g.incoming[i]| && g.incoming[i][k] < |s.edges| && s.edges[g.incoming[i][k]].buffer != []
  }

  predicate MayHaveInput(g: Graph, s: Dag, i: nat) {
    i < |g.incoming| && exists k :: 0 <= k < |g.incoming[i]| && g.incoming[i][k] < |s.edges| && !s.edges[g.incoming[i][k]].sourceClosed
  }

  predicate NodeOk(g: Graph, w: Node, i: nat)
    requires i < |g.incoming|
  {
    && (w.stdinOpen <==> w.ending.Feeding?) && (w.stdinOpen ==> g.incoming[i] != [])
    && (w.exited ==> !w.stdinOpen) && (w.stdoutClosed ==> !w.readable)
    && TurnsOk(w.turns, |g.incoming[i]|) && w.next == Cursor(w.turns, |g.incoming[i]|)
  }

  /** A paused producer waits for a full open edge. */
  predicate NotForgotten(g: Graph, cap: nat, s: Dag, i: nat)
    requires i < |s.nodes|
  {
    s.nodes[i].readable || s.nodes[i].stdoutClosed || Blocked(g, cap, s, i)
  }

  /** An open consumer with input has write interest; without input it still has an open predecessor. */
  predicate WillDrain(g: Graph, s: Dag, i: nat)
    requires i < |s.nodes|
  {
    s.nodes[i].stdinOpen ==> if HasInput(g, s, i) then s.nodes[i].writable else MayHaveInput(g, s, i)
  }

  predicate Sized(g: Graph, s: Dag) {
    |s.nodes| == g.n && |s.edges| == |g.from|
  }

  predicate EdgesOk(g: Graph, cap: nat, s: Dag)
    requires GraphOk(g) && Sized(g, s)
  {
    forall e :: 0 <= e < |s.edges| ==> EdgeOk(cap, s.edges[e], s.nodes[g.from[e]], s.nodes[g.to[e]], g.slot[e])
  }

  predicate SinksOk(g: Graph, s: Dag)
    requires GraphOk(g) && Sized(g, s)
  {
    forall i :: 0 <= i < g.n && g.outgoing[i] == [] ==> Shown(s.output, i) == s.nodes[i].read
  }

  function ExitCodes(nodes: seq<Node>): seq<int> {
    seq(|nodes|, i requires 0 <= i < |nodes| => nodes[i].exitCode)
  }

  /** The last failing stage in plan order decides, as with `pipefail`. */
  function PipeFail(codes: seq<int>): int {
    if |codes| == 0 then 0
    else if codes[|codes| - 1] != 0 then codes[|codes| - 1]
    else PipeFail(codes[..|codes| - 1])
  }

  predicate AllOver(nodes: seq<Node>) {
    forall i :: 0 <= i < |nodes| ==> nodes[i].exited && nodes[i].stdoutClosed
  }

  /** Completion is reported at most once, with every stage's exit code, and only when all is over. */
  predicate CompletionOk(s: Dag) {
    && (s.done ==> AllOver(s.nodes))
    && (s.outcomes == [] || (s.done && s.outcomes == [Outcome(ExitCodes(s.nodes), PipeFail(ExitCodes(s.nodes)))]))
    && (s.done && !s.cancelled ==> s.outcomes != []) && (s.cancelled ==> s.done)
  }

  /** `todo` are consumers about to be drained; `wake` is a producer whose read interest is about to be set. */
  predicate Mid(g: Graph, cap: nat, s: Dag, todo: set<nat>, wake: set<nat>) {
    && GraphOk(g) && Sized(g, s) && EdgesOk(g, cap, s) && SinksOk(g, s)
    && s.buffered == Total(s.edges) && s.exitedCount == Exited(s.nodes)
    && (forall i :: 0 <= i < g.n ==> NodeOk(g, s.nodes[i], i))
    && (forall i :: 0 <= i < g.n && i !in wake ==> NotForgotten(g, cap, s, i))
    && (forall i :: 0 <= i < g.n && i !in todo ==> WillDrain(g, s, i))
  }

  /** The turns of a stage are the writes its pipe took. */
  predicate TurnsAreWrites(s: Dag, i: nat) {
    i < |s.nodes| && AllTaken(s.nodes[i].turns) == Shown(s.written, i)
  }

  /** Why an input is closed is what happened: a write failed, the child is gone, or the run was cancelled. What a stage
      was given is what its pipe took. */
  predicate CauseOk(g: Graph, s: Dag, i: nat)
    requires i < |g.incoming| && i < |s.nodes|
  {
    var w := s.nodes[i];
    && (w.ending.BrokenPipe? <==> i in s.broke) && (w.ending.ChildGone? ==> w.exited)
    && (w.ending.Cancelled? ==> s.cancelled) && (w.ending.NoInput? <==> g.incoming[i] == [])
    && TurnsAreWrites(s, i)
  }

  predicate CausesOk(g: Graph, s: Dag) {
    |s.nodes| == |g.incoming| && forall i :: 0 <= i < |s.nodes| ==> CauseOk(g, s, i)
  }

  /** What holds between reactor events. When all is over, completion has been reported (or the run was cancelled). */
  predicate Inv(g: Graph, cap: nat, s: Dag) {
    Mid(g, cap, s, {}, {}) && CompletionOk(s) && CausesOk(g, s) && (AllOver(s.nodes) ==> s.done)
  }

  /** Over any stretch of a run a stage's records only grow; its exit, the end of its output and the end of its input are
      final, and so are the records they end. */
  predicate NodeEvolves(a: Node, b: Node) {
    && a.read <= b.read && a.turns <= b.turns
    && (a.exited ==> b.exited && b.exitCode == a.exitCode)
    && (a.stdoutClosed ==> b.stdoutClosed && b.read == a.read)
    && (!a.stdinOpen ==> !b.stdinOpen && b.ending == a.ending && b.turns == a.turns)
  }

  /** What was shown or reported stays so: outcomes and output are logs, completion and cancellation are final. */
  predicate Evolves(s: Dag, s': Dag) {
    && |s'.nodes| == |s.nodes| && s.outcomes <= s'.outcomes && s.output <= s'.output
    && (s.done ==> s'.done) && (s.cancelled ==> s'.cancelled) && s.broke <= s'.broke && s.written <= s'.written
    && forall i :: 0 <= i < |s.nodes| ==> NodeEvolves(s.nodes[i], s'.nodes[i])
  }

  /** No child exits, an open input ends only once all was passed on or because a write to it failed, and a stage is
      given what its pipe took. */
  predicate OnlyDrains(s: Dag, s': Dag) {
    && |s'.nodes| == |s.nodes| && s'.cancelled == s.cancelled && s.broke <= s'.broke && s.written <= s'.written
    && forall i :: 0 <= i < |s.nodes| ==>
         InputDrains(s.nodes[i], s'.nodes[i], i in s.broke, i in s'.broke) && (TurnsAreWrites(s, i) ==> TurnsAreWrites(s', i))
  }

  predicate InputDrains(a: Node, b: Node, wasBroken: bool, isBroken: bool) {
    && b.exited == a.exited && b.exitCode == a.exitCode
    && if b.ending == a.ending then isBroken == wasBroken
       else a.ending.Feeding? && b.ending == if isBroken then BrokenPipe else Finished
  }
}
