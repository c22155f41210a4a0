/** A controller and a node joined by two FIFO channels of messages: every interleaving of API calls and deliveries. */
module TwoParty {
  import opened Wire
  import opened Options
  import opened FrameCodec
  import opened OpenPayload
  import opened ControlPayloads
  import opened Messages
  import opened SessionSpec
  import opened FlowFacts
  import opened StreamInvariant
  import opened StreamSteps

  type Log = map<U32, seq<Token>>

  /** The two sessions, the messages in flight to the node (`cn`) and to the controller (`nc`), and the history of each
      stream: tokens its senders accepted and its receivers got, and the exit the node reported. */
  datatype World = World(
    c: Endpoint,
    n: Endpoint,
    cn: seq<Msg>,
    nc: seq<Msg>,
    sentC: Log,
    arrN: Log,
    sentN: Log,
    gotC: Log,
    exitSent: map<U32, ExitStatus>)

  function Look<T>(m: map<U32, T>, id: U32): Option<T> {
    if id in m then Some(m[id]) else None
  }

  function Past(log: Log, id: U32): seq<Token> {
    if id in log then log[id] else []
  }

  function Record(log: Log, id: U32, tokens: seq<Token>): Log {
    log[id := Past(log, id) + tokens]
  }

  predicate IsFor(m: Msg, id: U32) {
    IsStreamMsg(m) && m.id == id
  }

  /** The messages of one stream, in order. */
  function Only(q: seq<Msg>, id: U32): seq<Msg> {
    if q == [] then [] else (if IsFor(q[0], id) then [q[0]] else []) + Only(q[1..], id)
  }

  function ViewOf(w: World, id: U32): View {
    View(Look(w.c.streams, id), Look(w.n.streams, id), Look(w.n.closed, id), Only(w.cn, id), Only(w.nc, id),
         Past(w.sentC, id), Past(w.arrN, id), Past(w.sentN, id), Past(w.gotC, id), Look(w.exitSent, id))
  }

  // ---- steps --------------------------------------------------------------------------------------------------

  function Init(window: nat): World {
    World(NewEndpoint(Controller, window), NewEndpoint(Node, window), [], [], map[], map[], map[], map[], map[])
  }

  function ControllerCalls(w: World, api: Api): World {
    var o := Call(w.c, api);
    w.(c := o.ep, cn := w.cn + o.msgs,
       sentC := if api.SendData? && Accepts(w.c, api.id, api.channel)
                then Record(w.sentC, api.id, Sent(api.channel, api.bytes, api.end)) else w.sentC)
  }

  function NodeCalls(w: World, api: Api): World {
    var o := Call(w.n, api);
    w.(n := o.ep, nc := w.nc + o.msgs,
       sentN := if api.SendData? && Accepts(w.n, api.id, api.channel)
                then Record(w.sentN, api.id, Sent(api.channel, api.bytes, api.end)) else w.sentN,
       exitSent := if api.SendExit? && TakesExit(w.n, api.id) then w.exitSent[api.id := api.status] else w.exitSent)
  }

  function NodeReceives(w: World): World
    requires w.cn != []
  {
    var m, o := w.cn[0], Dispatch(w.n, w.cn[0]);
    w.(n := o.ep, cn := w.cn[1..], nc := w.nc + o.msgs,
       arrN := if m.DataMsg? then Record(w.arrN, m.id, MsgTokens(m)) else w.arrN)
  }

  function ControllerReceives(w: World): World
    requires w.nc != []
  {
    var m, o := w.nc[0], Dispatch(w.c, w.nc[0]);
    w.(c := o.ep, nc := w.nc[1..], cn := w.cn + o.msgs,
       gotC := if m.DataMsg? then Record(w.gotC, m.id, MsgTokens(m)) else w.gotC)
  }

  // ---- the invariant ------------------------------------------------------------------------------------------

  /** How many stream ids have been used up, given the next one (0 once the 32-bit space is exhausted). */
  function Issued(next: U32): nat {
    if next == 0 then U32_LIMIT - 1 else next - 1
  }

  function OpenIds(q: seq<Msg>): seq<U32> {
    if q == [] then [] else (if q[0].OpenMsg? then [q[0].id] else []) + OpenIds(q[1..])
  }

  /** No OPEN behind a GOAWAY. */
  predicate OpensFirst(q: seq<Msg>) {
    forall i, j | 0 <= i < j < |q| :: q[i].GoAwayMsg? ==> !q[j].OpenMsg?
  }

  /** OPENs in flight are exactly the ids the node has not seen, in order. */
  predicate OpensInOrder(w: World) {
    && Issued(w.n.nextPeer) + |OpenIds(w.cn)| == Issued(w.c.nextId)
    && forall i | 0 <= i < |OpenIds(w.cn)| :: OpenIds(w.cn)[i] == Issued(w.n.nextPeer) + 1 + i
  }

  predicate OpenValid(m: Msg) {
    m.OpenMsg? ==> Valid(m.request)
  }

  predicate Connection(w: World, window: nat) {
    && w.c.role.Controller? && w.n.role.Node? && w.c.window == w.n.window == window
    && !w.c.failed && !w.n.failed && w.c.closed == map[]
    && OpensInOrder(w) && OpensFirst(w.cn)
    && (forall i | 0 <= i < |w.cn| :: OpenValid(w.cn[i]))
    && (!w.c.sentGoAway ==> !w.n.receivedGoAway && GoAwayMsg !in w.cn)
    && (w.n.receivedGoAway ==> OpenIds(w.cn) == [])
  }

  predicate Streams(w: World, window: nat) {
    forall id: U32 :: ViewInv(ViewOf(w, id), id, window)
  }

  predicate Fresh(w: World) {
    forall id: U32 | id == 0 || id > Issued(w.c.nextId) :: ViewOf(w, id) == UNISSUED
  }

  predicate Inv(w: World, window: nat) {
    && 0 < window <= DEFAULT_MAX_PAYLOAD
    && Connection(w, window) && Streams(w, window) && Fresh(w)
  }

  // ---- projections --------------------------------------------------------------------------------------------

  lemma {:induction false} OnlyAppend(a: seq<Msg>, b: seq<Msg>, id: U32)
    ensures Only(a + b, id) == Only(a, id) + Only(b, id)
  {
    if a == [] {
      assert a + b == b;
    } else {
      DropAppend(a, b);
      OnlyAppend(a[1..], b, id);
      Assoc(if IsFor(a[0], id) then [a[0]] else [], Only(a[1..], id), Only(b, id));
    }
  }

  predicate AllFor(q: seq<Msg>, id: U32) {
    forall i | 0 <= i < |q| :: IsFor(q[i], id)
  }

  lemma {:induction false} OnlyOwn(q: seq<Msg>, id: U32)
    requires AllFor(q, id)
    ensures Only(q, id) == q
  {
    if q != [] {
      assert IsFor(q[0], id) && AllFor(q[1..], id);
      OnlyOwn(q[1..], id);
      assert q == [q[0]] + q[1..];
    }
  }

  lemma {:induction false} OnlyOther(q: seq<Msg>, id: U32, other: U32)
    requires AllFor(q, id) && other != id
    ensures Only(q, other) == []
  {
    if q != [] {
      assert IsFor(q[0], id) && AllFor(q[1..], id);
      OnlyOther(q[1..], id, other);
    }
  }

  lemma {:induction false} OpenIdsAppend(a: seq<Msg>, b: seq<Msg>)
    ensures OpenIds(a + b) == OpenIds(a) + OpenIds(b)
  {
    if a == [] {
      assert a + b == b;
    } else {
      DropAppend(a, b);
      OpenIdsAppend(a[1..], b);
      Assoc(if a[0].OpenMsg? then [a[0].id] else [], OpenIds(a[1..]), OpenIds(b));
    }
  }

  lemma {:induction false} NoOpenIds(q: seq<Msg>)
    requires forall i | 0 <= i < |q| :: !q[i].OpenMsg?
    ensures OpenIds(q) == []
  {
    if q != [] {
      NoOpenIds(q[1..]);
    }
  }

  /** Messages appended for stream `id` show up in its projection only. */
  lemma Appended(q: seq<Msg>, msgs: seq<Msg>, id: U32)
    requires AllFor(msgs, id)
    ensures Only(q + msgs, id) == Only(q, id) + msgs
    ensures forall k: U32 | k != id :: Only(q + msgs, k) == Only(q, k)
  {
    OnlyAppend(q, msgs, id);
    OnlyOwn(msgs, id);
    forall k: U32 | k != id ensures Only(q + msgs, k) == Only(q, k) {
      OnlyAppend(q, msgs, k);
      OnlyOther(msgs, id, k);
      assert Only(q, k) + [] == Only(q, k);
    }
  }

  /** Delivering the front message removes it from its stream's projection only. */
  lemma Popped(q: seq<Msg>)
    requires q != []
    ensures forall k: U32 | !IsFor(q[0], k) :: Only(q[1..], k) == Only(q, k)
    ensures IsStreamMsg(q[0]) ==>
              Only(q, q[0].id) == [q[0]] + Only(q[1..], q[0].id) && Only(q, q[0].id)[1..] == Only(q[1..], q[0].id)
  {
    forall k: U32 | !IsFor(q[0], k) ensures Only(q[1..], k) == Only(q, k) {
      assert [] + Only(q[1..], k) == Only(q[1..], k);
    }
    if IsStreamMsg(q[0]) {
      assert ([q[0]] + Only(q[1..], q[0].id))[1..] == Only(q[1..], q[0].id);
    }
  }

  /** A step that touches one stream keeps the stream invariants. */
  lemma OneStream(w: World, w': World, id: U32, window: nat)
    requires Streams(w, window) && Fresh(w) && Issued(w'.c.nextId) >= Issued(w.c.nextId)
    requires id != 0 && id <= Issued(w'.c.nextId)
    requires forall k: U32 | k != id :: ViewOf(w', k) == ViewOf(w, k)
    requires ViewInv(ViewOf(w', id), id, window)
    ensures Streams(w', window) && Fresh(w')
  {
    forall k: U32 ensures ViewInv(ViewOf(w', k), k, window) {
    }
  }

  /** A stream either end knows about, or has messages for, was issued. */
  lemma KnownIsIssued(w: World, id: U32)
    requires Fresh(w) && ViewOf(w, id) != UNISSUED
    ensures id != 0 && id <= Issued(w.c.nextId)
  {
  }

  lemma ConnectionGrows(w: World, w': World, window: nat, toN: seq<Msg>)
    requires Connection(w, window)
    requires w'.cn == w.cn + toN && (forall i | 0 <= i < |toN| :: !toN[i].OpenMsg? && !toN[i].GoAwayMsg?)
    requires w'.c.nextId == w.c.nextId && w'.n.nextPeer == w.n.nextPeer
    requires w'.c.role == w.c.role && w'.n.role == w.n.role && w'.c.window == w.c.window && w'.n.window == w.n.window
    requires !w'.c.failed && !w'.n.failed && w'.c.closed == map[]
    requires w'.c.sentGoAway == w.c.sentGoAway && w'.n.receivedGoAway == w.n.receivedGoAway
    ensures Connection(w', window)
  {
    hide OpenIds, OpenValid, OpensFirst;
    PlainGrowth(w.cn, toN);
  }

  /** Appending messages that neither open nor go away changes nothing about the order of those that do. */
  lemma PlainGrowth(q: seq<Msg>, more: seq<Msg>)
    requires forall i | 0 <= i < |more| :: !more[i].OpenMsg? && !more[i].GoAwayMsg?
    ensures OpenIds(q + more) == OpenIds(q) && (OpensFirst(q) ==> OpensFirst(q + more))
    ensures GoAwayMsg !in q ==> GoAwayMsg !in q + more
    ensures (forall i | 0 <= i < |q| :: OpenValid(q[i])) ==> forall i | 0 <= i < |q + more| :: OpenValid((q + more)[i])
  {
    OpenIdsAppend(q, more);
    NoOpenIds(more);
    assert OpenIds(q) + [] == OpenIds(q);
    hide OpenIds;
    forall i | 0 <= i < |q + more| ensures (q + more)[i] == if i < |q| then q[i] else more[i - |q|] {
    }
  }
}
