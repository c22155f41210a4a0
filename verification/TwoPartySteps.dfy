/** Every step of two honest sessions keeps the connection invariant; the only delivery that can fail is an OPEN that
    reaches a node which has itself sent GOAWAY. */
module TwoPartySteps {
  import opened Wire
  import opened Options
  import opened OpenPayload
  import opened ControlPayloads
  import opened Messages
  import opened CreditWindows
  import opened SessionSpec
  import opened FlowFacts
  import opened StreamInvariant
  import opened StreamSteps
  import opened TwoParty

  lemma InPhase(v: View, id: U32, window: nat)
    requires Opening(v, id, window) || Running(v, id, window) || Exiting(v, id, window)
    ensures ViewInv(v, id, window)
  {
  }

  // ---- frames: an event on one stream leaves the others alone ---------------------------------------------------

  predicate SameBut<T(==)>(m: map<U32, T>, m': map<U32, T>, id: U32) {
    forall k: U32 | k != id :: Look(m, k) == Look(m', k)
  }

  lemma RecordFacts(log: Log, id: U32, tokens: seq<Token>)
    ensures SameBut(log, Record(log, id, tokens), id) && Past(Record(log, id, tokens), id) == Past(log, id) + tokens
  {
  }

  predicate PlainTraffic(msgs: seq<Msg>, id: U32) {
    forall i | 0 <= i < |msgs| :: IsFor(msgs[i], id) && !msgs[i].OpenMsg?
  }

  function Tail(q: seq<Msg>, popped: bool): seq<Msg>
    requires popped ==> q != []
  {
    if popped then q[1..] else q
  }

  lemma TailOther(q: seq<Msg>, popped: bool, id: U32, k: U32)
    requires popped ==> q != [] && IsFor(q[0], id)
    requires k != id
    ensures Only(Tail(q, popped), k) == Only(q, k)
  {
    if popped {
      Popped(q);
    }
  }

  lemma AppendedOther(q: seq<Msg>, msgs: seq<Msg>, id: U32, k: U32)
    requires PlainTraffic(msgs, id) && k != id
    ensures Only(q + msgs, k) == Only(q, k)
  {
    assert AllFor(msgs, id);
    Appended(q, msgs, id);
  }

  /** Something happened to stream `id` at the controller, which wrote `msgs` and perhaps took a message off `nc`. */
  predicate ControllerEvent(w: World, w': World, id: U32, msgs: seq<Msg>, popped: bool) {
    && w'.n == w.n && w'.arrN == w.arrN && w'.sentN == w.sentN && w'.exitSent == w.exitSent
    && w'.c == w.c.(streams := w'.c.streams)
    && SameBut(w.c.streams, w'.c.streams, id) && SameBut(w.sentC, w'.sentC, id) && SameBut(w.gotC, w'.gotC, id)
    && PlainTraffic(msgs, id) && w'.cn == w.cn + msgs
    && (popped ==> w.nc != [] && IsFor(w.nc[0], id)) && w'.nc == Tail(w.nc, popped)
  }

  lemma ControllerEventFrame(w: World, w': World, id: U32, msgs: seq<Msg>, popped: bool, k: U32)
    requires ControllerEvent(w, w', id, msgs, popped) && k != id
    ensures ViewOf(w', k) == ViewOf(w, k)
  {
    AppendedOther(w.cn, msgs, id, k);
    TailOther(w.nc, popped, id, k);
    assert Look(w.sentC, k) == Look(w'.sentC, k) && Look(w.gotC, k) == Look(w'.gotC, k);
  }

  lemma AfterControllerEvent(w: World, w': World, id: U32, msgs: seq<Msg>, popped: bool, window: nat)
    requires Inv(w, window) && ControllerEvent(w, w', id, msgs, popped)
    requires ViewOf(w, id) != UNISSUED && ViewInv(ViewOf(w', id), id, window)
    ensures Inv(w', window)
  {
    hide ViewInv, Only;
    forall k: U32 | k != id ensures ViewOf(w', k) == ViewOf(w, k) {
      ControllerEventFrame(w, w', id, msgs, popped, k);
    }
    KnownIsIssued(w, id);
    OneStream(w, w', id, window);
    ConnectionGrows(w, w', window, msgs);
  }

  /** Something happened to stream `id` at the node, which wrote `msgs`. */
  predicate NodeEvent(w: World, w': World, id: U32, msgs: seq<Msg>, popped: bool) {
    && w'.c == w.c && w'.sentC == w.sentC && w'.gotC == w.gotC
    && w'.n == w.n.(streams := w'.n.streams, closed := w'.n.closed, nextPeer := w'.n.nextPeer)
    && SameBut(w.n.streams, w'.n.streams, id) && SameBut(w.n.closed, w'.n.closed, id)
    && SameBut(w.sentN, w'.sentN, id) && SameBut(w.arrN, w'.arrN, id) && SameBut(w.exitSent, w'.exitSent, id)
    && PlainTraffic(msgs, id) && w'.nc == w.nc + msgs
    && (popped ==> w.cn != [] && IsFor(w.cn[0], id)) && w'.cn == Tail(w.cn, popped)
  }

  lemma NodeEventFrame(w: World, w': World, id: U32, msgs: seq<Msg>, popped: bool, k: U32)
    requires NodeEvent(w, w', id, msgs, popped) && k != id
    ensures ViewOf(w', k) == ViewOf(w, k)
  {
    AppendedOther(w.nc, msgs, id, k);
    TailOther(w.cn, popped, id, k);
    assert Look(w.sentN, k) == Look(w'.sentN, k) && Look(w.arrN, k) == Look(w'.arrN, k);
  }

  lemma AfterNodeEvent(w: World, w': World, id: U32, msgs: seq<Msg>, popped: bool, window: nat)
    requires Inv(w, window) && NodeEvent(w, w', id, msgs, popped) && Connection(w', window)
    requires ViewOf(w, id) != UNISSUED && ViewInv(ViewOf(w', id), id, window)
    ensures Inv(w', window)
  {
    hide ViewInv, Only;
    forall k: U32 | k != id ensures ViewOf(w', k) == ViewOf(w, k) {
      NodeEventFrame(w, w', id, msgs, popped, k);
    }
    KnownIsIssued(w, id);
    OneStream(w, w', id, window);
  }

  lemma DataIsPlain(q: seq<Msg>, id: U32, stdoutOnly: bool)
    requires AllData(q, id, stdoutOnly)
    ensures PlainTraffic(q, id) && AllFor(q, id)
  {
    forall i | 0 <= i < |q| ensures IsFor(q[i], id) && !q[i].OpenMsg? {
      assert IsData(q[i], id, stdoutOnly);
    }
  }

  // ---- controller calls ---------------------------------------------------------------------------------------

  lemma OpensConnection(w: World, window: nat, r: OpenRequest)
    requires Connection(w, window) && CanOpen(w.c, r)
    ensures Connection(ControllerCalls(w, Open(r)), window)
  {
    hide OpenIds, OpensFirst, EncodeOpen, Valid;
    OpenAppended(w.cn, OpenMsg(w.c.nextId, r));
  }

  lemma OpenAppended(q: seq<Msg>, m: Msg)
    requires m.OpenMsg? && GoAwayMsg !in q
    ensures OpenIds(q + [m]) == OpenIds(q) + [m.id] && OpensFirst(q + [m]) && GoAwayMsg !in q + [m]
  {
    OpenIdsAppend(q, [m]);
    assert [m][1..] == [];
  }

  lemma OpensView(w: World, r: OpenRequest)
    requires CanOpen(w.c, r) && ViewOf(w, w.c.nextId) == UNISSUED
    ensures ViewOf(ControllerCalls(w, Open(r)), w.c.nextId) ==
            UNISSUED.(c := Some(NewStream(w.c.window)), cn := [OpenMsg(w.c.nextId, r)])
    ensures forall k: U32 | k != w.c.nextId :: ViewOf(ControllerCalls(w, Open(r)), k) == ViewOf(w, k)
  {
    assert ViewOf(w, w.c.nextId).c == None;
    Appended(w.cn, [OpenMsg(w.c.nextId, r)], w.c.nextId);
  }

  lemma ControllerOpens(w: World, window: nat, r: OpenRequest)
    requires Inv(w, window) && CanOpen(w.c, r)
    ensures Inv(ControllerCalls(w, Open(r)), window)
  {
    hide ViewInv, Only;
    OpensConnection(w, window, r);
    OpensView(w, r);
    Issue(w.c.nextId, r, window);
    InPhase(ViewOf(ControllerCalls(w, Open(r)), w.c.nextId), w.c.nextId, window);
    OneStream(w, ControllerCalls(w, Open(r)), w.c.nextId, window);
  }

  lemma ClientSendsPlainly(v: View, id: U32, window: nat, bytes: seq<Byte>, end: bool)
    requires ViewInv(v, id, window) && v.c.Some? && !v.c.value.localClosed
    ensures var d := DataPart(id, Enqueue(v.c.value, bytes, end, Stdout));
            && !d.stream.exitPending && PlainTraffic(d.msgs, id)
            && ViewInv(v.(c := Some(d.stream), cn := v.cn + d.msgs, sentC := v.sentC + Sent(Stdout, bytes, end)), id, window)
  {
    var st := Enqueue(v.c.value, bytes, end, Stdout);
    ClientSends(v, id, window, bytes, end);
    ClientSound(v, id, window);
    EnqueueOwed(v.c.value, bytes, end, Stdout);
    DataPartData(id, st);
    DataIsPlain(DataPart(id, st).msgs, id, StdoutOnly(st.queue));
  }

  lemma ControllerSends(w: World, window: nat, id: U32, bytes: seq<Byte>, end: bool)
    requires Inv(w, window) && Accepts(w.c, id, Stdout)
    ensures Inv(ControllerCalls(w, SendData(id, bytes, end, Stdout)), window)
  {
    hide ViewInv, ControllerCalls, Only, DataPart;
    var d, v := DataPart(id, Enqueue(w.c.streams[id], bytes, end, Stdout)), ViewOf(w, id);
    var log := Record(w.sentC, id, Sent(Stdout, bytes, end));
    ClientSendsPlainly(v, id, window, bytes, end);
    SendsShape(w, id, bytes, end);
    RecordFacts(w.sentC, id, Sent(Stdout, bytes, end));
    PutCInv(w, window, id, d.stream, d.msgs, log);
  }

  /** A flush that does not exit replaces the stream record and writes the data part. */
  lemma FlushIntoShape(ep: Endpoint, id: U32, st: Stream)
    requires !DataPart(id, st).stream.exitPending
    ensures FlushInto(ep, id, st).ep == ep.(streams := ep.streams[id := DataPart(id, st).stream])
    ensures FlushInto(ep, id, st).msgs == DataPart(id, st).msgs
  {
    FlushShape(id, st, ep.window);
    assert DataPart(id, st).msgs + [] == DataPart(id, st).msgs;
  }

  lemma SendsShape(w: World, id: U32, bytes: seq<Byte>, end: bool)
    requires Accepts(w.c, id, Stdout)
    requires !DataPart(id, Enqueue(w.c.streams[id], bytes, end, Stdout)).stream.exitPending
    ensures var d := DataPart(id, Enqueue(w.c.streams[id], bytes, end, Stdout));
            ControllerCalls(w, SendData(id, bytes, end, Stdout)) ==
            PutC(w, id, d.stream, d.msgs, Record(w.sentC, id, Sent(Stdout, bytes, end)))
  {
    hide DataPart, FlushInto, Enqueue, Sent;
    FlushIntoShape(w.c, id, Enqueue(w.c.streams[id], bytes, end, Stdout));
  }

  function PutC(w: World, id: U32, st: Stream, msgs: seq<Msg>, log: Log): World {
    w.(c := w.c.(streams := w.c.streams[id := st]), cn := w.cn + msgs, sentC := log)
  }

  lemma PutCView(w: World, id: U32, st: Stream, msgs: seq<Msg>, log: Log)
    requires PlainTraffic(msgs, id) && SameBut(w.sentC, log, id)
    ensures ViewOf(PutC(w, id, st, msgs, log), id) ==
            ViewOf(w, id).(c := Some(st), cn := ViewOf(w, id).cn + msgs, sentC := Past(log, id))
    ensures ControllerEvent(w, PutC(w, id, st, msgs, log), id, msgs, false)
  {
    assert AllFor(msgs, id);
    Appended(w.cn, msgs, id);
  }

  /** The controller replaces a stream record, writes `msgs` and may extend the stream's log. */
  lemma PutCInv(w: World, window: nat, id: U32, st: Stream, msgs: seq<Msg>, log: Log)
    requires Inv(w, window) && id in w.c.streams && PlainTraffic(msgs, id) && SameBut(w.sentC, log, id)
    requires ViewInv(ViewOf(w, id).(c := Some(st), cn := ViewOf(w, id).cn + msgs, sentC := Past(log, id)), id, window)
    ensures Inv(PutC(w, id, st, msgs, log), window)
  {
    hide ViewInv, Only;
    PutCView(w, id, st, msgs, log);
    AfterControllerEvent(w, PutC(w, id, st, msgs, log), id, msgs, false, window);
  }

  lemma ClientSound(v: View, id: U32, window: nat)
    requires ViewInv(v, id, window) && v.c.Some?
    ensures Sound(v.c.value)
  {
  }

  lemma ConsumesShape(w: World, id: U32, k: U32)
    requires !w.c.failed && id in w.c.streams
    ensures var (recv, delta) := Consumed(w.c.streams[id].recv, w.c.window, k);
            && PlainTraffic(Grant(id, delta), id)
            && ControllerCalls(w, Consume(id, k)) ==
               PutC(w, id, w.c.streams[id].(recv := recv), Grant(id, delta), w.sentC)
  {
  }

  lemma ControllerConsumes(w: World, window: nat, id: U32, k: U32)
    requires Inv(w, window) && id in w.c.streams
    ensures Inv(ControllerCalls(w, Consume(id, k)), window)
  {
    hide ViewInv, ControllerCalls, Only;
    var v := ViewOf(w, id);
    ConsumesShape(w, id, k);
    ClientConsumes(v, id, window, k);
    var (recv, delta) := Consumed(v.c.value.recv, window, k);
    PutCInv(w, window, id, v.c.value.(recv := recv), Grant(id, delta), w.sentC);
  }

  /** A step that writes one connection message and touches no stream. */
  lemma NoStream(w: World, w': World, window: nat)
    requires Streams(w, window) && Fresh(w) && w'.c.nextId == w.c.nextId
    requires forall k: U32 :: ViewOf(w', k) == ViewOf(w, k)
    ensures Streams(w', window) && Fresh(w')
  {
    forall k: U32 ensures ViewInv(ViewOf(w', k), k, window) {
    }
  }

  lemma AppendedControl(q: seq<Msg>, m: Msg)
    requires !IsStreamMsg(m)
    ensures forall k: U32 :: Only(q + [m], k) == Only(q, k)
  {
    forall k: U32 ensures Only(q + [m], k) == Only(q, k) {
      OnlyAppend(q, [m], k);
      assert [m][1..] == [];
      assert Only([m], k) == [];
      assert Only(q, k) + [] == Only(q, k);
    }
  }

  lemma ControllerPings(w: World, window: nat)
    requires Inv(w, window)
    ensures Inv(ControllerCalls(w, Ping), window)
  {
    hide ViewInv, Only;
    var w' := ControllerCalls(w, Ping);
    AppendedControl(w.cn, PingMsg);
    NoStream(w, w', window);
    ConnectionGrows(w, w', window, [PingMsg]);
  }

  lemma ControllerGoesAway(w: World, window: nat)
    requires Inv(w, window) && !w.c.sentGoAway
    ensures Inv(ControllerCalls(w, GoAway), window)
  {
    hide ViewInv, Only;
    var w' := ControllerCalls(w, GoAway);
    AppendedControl(w.cn, GoAwayMsg);
    NoStream(w, w', window);
    OpenIdsAppend(w.cn, [GoAwayMsg]);
    assert [GoAwayMsg][1..] == [];
    assert OpenIds(w.cn) + [] == OpenIds(w.cn);
  }

  /** Any API call by the controller, its OPEN requests fitting a frame. */
  lemma ControllerStep(w: World, window: nat, api: Api)
    requires Inv(w, window)
    ensures Inv(ControllerCalls(w, api), window)
  {
    assert w.cn + [] == w.cn;
    match api
    case Open(r) =>
      if CanOpen(w.c, r) {
        ControllerOpens(w, window, r);
      }
    case SendData(id, bytes, end, channel) =>
      if Accepts(w.c, id, channel) {
        ControllerSends(w, window, id, bytes, end);
      }
    case SendExit(_, _) =>
    case Consume(id, k) =>
      if id in w.c.streams {
        ControllerConsumes(w, window, id, k);
      }
    case Ping => ControllerPings(w, window);
    case GoAway =>
      if !w.c.sentGoAway {
        ControllerGoesAway(w, window);
      }
  }

  // ---- node calls ---------------------------------------------------------------------------------------------

  /** A stream the node holds is running. */
  lemma NodeStreamRuns(w: World, window: nat, id: U32)
    requires Inv(w, window) && id in w.n.streams
    ensures Running(ViewOf(w, id), id, window)
  {
    assert ViewOf(w, id).n.Some?;
  }

  function PutN(w: World, id: U32, st: Stream, msgs: seq<Msg>, log: Log, exits: map<U32, ExitStatus>): World {
    w.(n := w.n.(streams := w.n.streams[id := st]), nc := w.nc + msgs, sentN := log, exitSent := exits)
  }

  lemma PutNView(w: World, id: U32, st: Stream, msgs: seq<Msg>, log: Log, exits: map<U32, ExitStatus>)
    requires PlainTraffic(msgs, id) && SameBut(w.sentN, log, id) && SameBut(w.exitSent, exits, id)
    ensures ViewOf(PutN(w, id, st, msgs, log, exits), id) ==
            ViewOf(w, id).(n := Some(st), nc := ViewOf(w, id).nc + msgs, sentN := Past(log, id), exitSent := Look(exits, id))
    ensures NodeEvent(w, PutN(w, id, st, msgs, log, exits), id, msgs, false)
  {
    assert AllFor(msgs, id);
    Appended(w.nc, msgs, id);
  }

  /** A node event that takes nothing off its inbound channel keeps the connection. */
  lemma NodeConnection(w: World, w': World, id: U32, msgs: seq<Msg>, window: nat)
    requires Connection(w, window) && NodeEvent(w, w', id, msgs, false) && w'.n.nextPeer == w.n.nextPeer
    ensures Connection(w', window)
  {
    assert w.cn + [] == w.cn;
    ConnectionGrows(w, w', window, []);
  }

  /** The node replaces a stream record, writes `msgs` and may extend the stream's log and note its exit. */
  lemma PutNInv(w: World, window: nat, id: U32, st: Stream, msgs: seq<Msg>, log: Log, exits: map<U32, ExitStatus>)
    requires Inv(w, window) && id in w.n.streams && PlainTraffic(msgs, id)
    requires SameBut(w.sentN, log, id) && SameBut(w.exitSent, exits, id)
    requires ViewInv(ViewOf(w, id).(n := Some(st), nc := ViewOf(w, id).nc + msgs, sentN := Past(log, id),
                                    exitSent := Look(exits, id)), id, window)
    ensures Inv(PutN(w, id, st, msgs, log, exits), window)
  {
    hide ViewInv, Only;
    var w' := PutN(w, id, st, msgs, log, exits);
    PutNView(w, id, st, msgs, log, exits);
    NodeConnection(w, w', id, msgs, window);
    AfterNodeEvent(w, w', id, msgs, false, window);
  }

  lemma NodeSendsPlainly(v: View, id: U32, window: nat, bytes: seq<Byte>, end: bool, channel: Channel)
    requires Running(v, id, window) && !v.n.value.localClosed
    ensures var d := DataPart(id, Enqueue(v.n.value, bytes, end, channel));
            && !d.stream.exitPending && PlainTraffic(d.msgs, id)
            && ViewInv(v.(n := Some(d.stream), nc := v.nc + d.msgs, sentN := v.sentN + Sent(channel, bytes, end)), id, window)
  {
    var st := Enqueue(v.n.value, bytes, end, channel);
    NodeSends(v, id, window, bytes, end, channel);
    EnqueueOwed(v.n.value, bytes, end, channel);
    DataPartData(id, st);
    DataIsPlain(DataPart(id, st).msgs, id, StdoutOnly(st.queue));
  }

  lemma NodeSendsData(w: World, window: nat, id: U32, bytes: seq<Byte>, end: bool, channel: Channel)
    requires Inv(w, window) && Accepts(w.n, id, channel)
    ensures Inv(NodeCalls(w, SendData(id, bytes, end, channel)), window)
  {
    hide Live, ViewInv, NodeCalls, Only, DataPart;
    var d, v := DataPart(id, Enqueue(w.n.streams[id], bytes, end, channel)), ViewOf(w, id);
    var log := Record(w.sentN, id, Sent(channel, bytes, end));
    NodeStreamRuns(w, window, id);
    NodeSendsPlainly(v, id, window, bytes, end, channel);
    NodeSendsShape(w, id, bytes, end, channel);
    RecordFacts(w.sentN, id, Sent(channel, bytes, end));
    PutNInv(w, window, id, d.stream, d.msgs, log, w.exitSent);
  }

  lemma NodeSendsShape(w: World, id: U32, bytes: seq<Byte>, end: bool, channel: Channel)
    requires Accepts(w.n, id, channel)
    requires !DataPart(id, Enqueue(w.n.streams[id], bytes, end, channel)).stream.exitPending
    ensures var d := DataPart(id, Enqueue(w.n.streams[id], bytes, end, channel));
            NodeCalls(w, SendData(id, bytes, end, channel)) ==
            PutN(w, id, d.stream, d.msgs, Record(w.sentN, id, Sent(channel, bytes, end)), w.exitSent)
  {
    FlushIntoShape(w.n, id, Enqueue(w.n.streams[id], bytes, end, channel));
  }

  lemma NodeConsumesData(w: World, window: nat, id: U32, k: U32)
    requires Inv(w, window) && id in w.n.streams
    ensures Inv(NodeCalls(w, Consume(id, k)), window)
  {
    hide Live, ViewInv, Only;
    var v := ViewOf(w, id);
    var (recv, delta) := Consumed(v.n.value.recv, window, k);
    NodeStreamRuns(w, window, id);
    NodeConsumes(v, id, window, k);
    InPhase(v.(n := Some(v.n.value.(recv := recv)), nc := v.nc + Grant(id, delta)), id, window);
    assert PlainTraffic(Grant(id, delta), id);
    PutNInv(w, window, id, v.n.value.(recv := recv), Grant(id, delta), w.sentN, w.exitSent);
    assert NodeCalls(w, Consume(id, k)) == PutN(w, id, v.n.value.(recv := recv), Grant(id, delta), w.sentN, w.exitSent);
  }

  lemma NodeDefersExit(w: World, window: nat, id: U32, status: ExitStatus)
    requires Inv(w, window) && TakesExit(w.n, id) && w.n.streams[id].queue != []
    ensures Inv(NodeCalls(w, SendExit(id, status)), window)
  {
    hide Live, ViewInv, Only;
    var v := ViewOf(w, id);
    NodeStreamRuns(w, window, id);
    NodeExitsLater(v, id, window, status);
    assert v.nc + [] == v.nc && w.nc + [] == w.nc;
    var st, exits := v.n.value.(localClosed := true, exitPending := true, status := status), w.exitSent[id := status];
    InPhase(v.(n := Some(st), exitSent := Some(status)), id, window);
    PutNInv(w, window, id, st, [], w.sentN, exits);
    assert NodeCalls(w, SendExit(id, status)) == PutN(w, id, st, [], w.sentN, exits);
  }

  function CloseN(w: World, id: U32, peerClosed: bool, msgs: seq<Msg>, popped: bool, exits: map<U32, ExitStatus>): World
    requires popped ==> w.cn != []
  {
    w.(n := CloseLocally(w.n, id, peerClosed), cn := Tail(w.cn, popped), nc := w.nc + msgs, exitSent := exits)
  }

  lemma CloseNView(w: World, id: U32, peerClosed: bool, msgs: seq<Msg>, popped: bool, exits: map<U32, ExitStatus>)
    requires popped ==> w.cn != [] && IsFor(w.cn[0], id)
    requires PlainTraffic(msgs, id) && SameBut(w.exitSent, exits, id)
    ensures ViewOf(CloseN(w, id, peerClosed, msgs, popped, exits), id) ==
            ViewOf(w, id).(n := None, closed := Some(peerClosed), cn := Only(Tail(w.cn, popped), id),
                           nc := ViewOf(w, id).nc + msgs, exitSent := Look(exits, id))
    ensures NodeEvent(w, CloseN(w, id, peerClosed, msgs, popped, exits), id, msgs, popped)
  {
    assert AllFor(msgs, id);
    Appended(w.nc, msgs, id);
  }

  /** The node closes a stream: EXIT, and perhaps data ahead of it, goes out. */
  lemma CloseNInv(w: World, window: nat, id: U32, peerClosed: bool, msgs: seq<Msg>, popped: bool,
                  exits: map<U32, ExitStatus>)
    requires popped ==> w.cn != [] && IsFor(w.cn[0], id)
    requires Inv(w, window) && id in w.n.streams && PlainTraffic(msgs, id) && SameBut(w.exitSent, exits, id)
    requires Connection(CloseN(w, id, peerClosed, msgs, popped, exits), window)
    requires ViewInv(ViewOf(w, id).(n := None, closed := Some(peerClosed), cn := Only(Tail(w.cn, popped), id),
                                    nc := ViewOf(w, id).nc + msgs, exitSent := Look(exits, id)), id, window)
    ensures Inv(CloseN(w, id, peerClosed, msgs, popped, exits), window)
  {
    hide ViewInv, Only;
    CloseNView(w, id, peerClosed, msgs, popped, exits);
    AfterNodeEvent(w, CloseN(w, id, peerClosed, msgs, popped, exits), id, msgs, popped, window);
  }

  lemma ExitShape(w: World, id: U32, status: ExitStatus)
    requires TakesExit(w.n, id) && w.n.streams[id].queue == [] && !w.n.streams[id].endPending
    ensures NodeCalls(w, SendExit(id, status)) ==
            CloseN(w, id, w.n.streams[id].peerClosed, [ExitMsg(id, status)], false, w.exitSent[id := status])
  {
  }

  lemma NodeExitsAtOnce(w: World, window: nat, id: U32, status: ExitStatus)
    requires Inv(w, window) && TakesExit(w.n, id) && w.n.streams[id].queue == []
    ensures Inv(NodeCalls(w, SendExit(id, status)), window)
  {
    hide Inv, ViewInv, NodeCalls, CloseN, Connection, Only, PlainTraffic, SameBut, ViewOf;
    ExitView(w, window, id, status);
    ExitShape(w, id, status);
    ExitIsPlain(w, id, status);
    ExitKeepsConnection(w, window, id, status);
    CloseNInv(w, window, id, w.n.streams[id].peerClosed, [ExitMsg(id, status)], false, w.exitSent[id := status]);
  }

  /** The stream's view after its node has exited, in the form a close needs it. */
  lemma ExitView(w: World, window: nat, id: U32, status: ExitStatus)
    requires Inv(w, window) && TakesExit(w.n, id) && w.n.streams[id].queue == []
    ensures !w.n.streams[id].endPending
    ensures ViewInv(ViewOf(w, id).(n := None, closed := Some(w.n.streams[id].peerClosed), cn := Only(Tail(w.cn, false), id),
                                   nc := ViewOf(w, id).nc + [ExitMsg(id, status)],
                                   exitSent := Look(w.exitSent[id := status], id)), id, window)
  {
    hide ViewInv, Only, Connection;
    var v := ViewOf(w, id);
    NodeStreamRuns(w, window, id);
    NodeExitsNow(v, id, window, status);
    InPhase(v.(n := None, closed := Some(v.n.value.peerClosed), nc := v.nc + [ExitMsg(id, status)], exitSent := Some(status)),
            id, window);
  }

  lemma ExitIsPlain(w: World, id: U32, status: ExitStatus)
    ensures PlainTraffic([ExitMsg(id, status)], id) && SameBut(w.exitSent, w.exitSent[id := status], id)
  {
  }

  lemma ExitKeepsConnection(w: World, window: nat, id: U32, status: ExitStatus)
    requires Inv(w, window) && id in w.n.streams
    ensures Connection(CloseN(w, id, w.n.streams[id].peerClosed, [ExitMsg(id, status)], false, w.exitSent[id := status]), window)
  {
    hide Connection;
    NodeConnection(w, CloseN(w, id, w.n.streams[id].peerClosed, [ExitMsg(id, status)], false, w.exitSent[id := status]), id,
                   [ExitMsg(id, status)], window);
  }

  lemma NodeSendsExit(w: World, window: nat, id: U32, status: ExitStatus)
    requires Inv(w, window) && TakesExit(w.n, id)
    ensures Inv(NodeCalls(w, SendExit(id, status)), window)
  {
    if w.n.streams[id].queue != [] {
      NodeDefersExit(w, window, id, status);
    } else {
      NodeExitsAtOnce(w, window, id, status);
    }
  }

  lemma NodeControls(w: World, window: nat, api: Api)
    requires Inv(w, window) && (api.Ping? || api.GoAway?)
    ensures Inv(NodeCalls(w, api), window)
  {
    hide ViewInv, Only;
    var w' := NodeCalls(w, api);
    assert w.nc + [] == w.nc;
    AppendedControl(w.nc, PingMsg);
    AppendedControl(w.nc, GoAwayMsg);
    NoStream(w, w', window);
    ConnectionGrows(w, w', window, []);
  }

  /** Any API call by the node, `goAway` included. */
  lemma NodeStep(w: World, window: nat, api: Api)
    requires Inv(w, window)
    ensures Inv(NodeCalls(w, api), window)
  {
    assert w.nc + [] == w.nc;
    match api
    case Open(_) =>
    case SendData(id, bytes, end, channel) =>
      if Accepts(w.n, id, channel) {
        NodeSendsData(w, window, id, bytes, end, channel);
      }
    case SendExit(id, status) =>
      if TakesExit(w.n, id) {
        NodeSendsExit(w, window, id, status);
      }
    case Consume(id, k) =>
      if id in w.n.streams {
        NodeConsumesData(w, window, id, k);
      }
    case Ping => NodeControls(w, window, api);
    case GoAway => NodeControls(w, window, api);
  }
}
