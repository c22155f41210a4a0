/** Deliveries between two honest sessions: none is an error, save an OPEN that crosses the node's own GOAWAY. */
module TwoPartyDeliveries {
  import opened Wire
  import opened Options
  import opened Messages
  import opened CreditWindows
  import opened SessionSpec
  import opened FlowFacts
  import opened StreamInvariant
  import opened StreamSteps
  import opened TwoParty
  import opened TwoPartySteps

  // ---- to the node --------------------------------------------------------------------------------------------

  /** The node consumed a message other than OPEN and GOAWAY. */
  lemma ConnectionPops(w: World, w': World, window: nat)
    requires Connection(w, window) && w.cn != [] && !w.cn[0].OpenMsg? && w'.cn == w.cn[1..]
    requires w'.c == w.c && w'.n == w.n.(streams := w'.n.streams, closed := w'.n.closed)
    ensures Connection(w', window)
  {
    assert OpenIds(w.cn) == OpenIds(w'.cn);
    assert forall i | 0 <= i < |w'.cn| :: w'.cn[i] == w.cn[i + 1];
  }

  /** The front of a stream's projection is what the channel delivers. */
  lemma FrontView(w: World)
    requires w.cn != [] && IsStreamMsg(w.cn[0])
    ensures var v := ViewOf(w, w.cn[0].id);
            v.cn != [] && v.cn[0] == w.cn[0] && v.cn[1..] == Only(w.cn[1..], w.cn[0].id)
  {
    Popped(w.cn);
  }

  function TakeN(w: World, id: U32, st: Stream, msgs: seq<Msg>, log: Log): World
    requires w.cn != []
  {
    w.(n := w.n.(streams := w.n.streams[id := st]), cn := w.cn[1..], nc := w.nc + msgs, arrN := log)
  }

  lemma TakeNView(w: World, id: U32, st: Stream, msgs: seq<Msg>, log: Log)
    requires w.cn != [] && IsFor(w.cn[0], id) && PlainTraffic(msgs, id) && SameBut(w.arrN, log, id)
    ensures ViewOf(TakeN(w, id, st, msgs, log), id) ==
            ViewOf(w, id).(n := Some(st), cn := ViewOf(w, id).cn[1..], nc := ViewOf(w, id).nc + msgs, arrN := Past(log, id))
    ensures NodeEvent(w, TakeN(w, id, st, msgs, log), id, msgs, true)
  {
    assert AllFor(msgs, id);
    Appended(w.nc, msgs, id);
    FrontView(w);
  }

  lemma TakeNInv(w: World, window: nat, id: U32, st: Stream, msgs: seq<Msg>, log: Log)
    requires Inv(w, window) && w.cn != [] && IsFor(w.cn[0], id) && !w.cn[0].OpenMsg?
    requires PlainTraffic(msgs, id) && SameBut(w.arrN, log, id) && ViewOf(w, id) != UNISSUED
    requires ViewInv(ViewOf(w, id).(n := Some(st), cn := ViewOf(w, id).cn[1..], nc := ViewOf(w, id).nc + msgs,
                                    arrN := Past(log, id)), id, window)
    ensures Inv(TakeN(w, id, st, msgs, log), window)
  {
    var w' := TakeN(w, id, st, msgs, log);
    TakeNView(w, id, st, msgs, log);
    ConnectionPops(w, w', window);
    AfterNodeEvent(w, w', id, msgs, true, window);
  }

  /** A closed stream discards what reaches it. */
  function DropN(w: World, id: U32, peerClosed: bool, log: Log): World
    requires w.cn != []
  {
    w.(n := w.n.(closed := w.n.closed[id := peerClosed]), cn := w.cn[1..], arrN := log)
  }

  lemma DropNView(w: World, id: U32, peerClosed: bool, log: Log)
    requires w.cn != [] && IsFor(w.cn[0], id) && SameBut(w.arrN, log, id)
    ensures ViewOf(DropN(w, id, peerClosed, log), id) ==
            ViewOf(w, id).(closed := Some(peerClosed), cn := ViewOf(w, id).cn[1..], arrN := Past(log, id))
    ensures NodeEvent(w, DropN(w, id, peerClosed, log), id, [], true)
  {
    FrontView(w);
    assert w.nc + [] == w.nc;
  }

  lemma DropNInv(w: World, window: nat, id: U32, peerClosed: bool, log: Log)
    requires Inv(w, window) && w.cn != [] && IsFor(w.cn[0], id) && !w.cn[0].OpenMsg?
    requires SameBut(w.arrN, log, id) && ViewOf(w, id) != UNISSUED
    requires ViewInv(ViewOf(w, id).(closed := Some(peerClosed), cn := ViewOf(w, id).cn[1..], arrN := Past(log, id)), id, window)
    ensures Inv(DropN(w, id, peerClosed, log), window)
  {
    var w' := DropN(w, id, peerClosed, log);
    DropNView(w, id, peerClosed, log);
    ConnectionPops(w, w', window);
    AfterNodeEvent(w, w', id, [], true, window);
  }

  /** A stream with inbound DATA or credit at the front is running at the node or closed by it, never both. */
  lemma NodeKnows(w: World, window: nat)
    requires Inv(w, window) && w.cn != [] && IsStreamMsg(w.cn[0]) && !w.cn[0].OpenMsg?
    ensures !w.cn[0].ExitMsg? && ViewOf(w, w.cn[0].id) != UNISSUED
    ensures w.cn[0].id in w.n.closed || Running(ViewOf(w, w.cn[0].id), w.cn[0].id, window)
    ensures !(w.cn[0].id in w.n.closed && w.cn[0].id in w.n.streams)
  {
    FrontView(w);
    FrontPhase(ViewOf(w, w.cn[0].id), w.cn[0].id, window);
  }

  lemma FrontPhase(v: View, id: U32, window: nat)
    requires ViewInv(v, id, window) && v.cn != [] && !v.cn[0].OpenMsg?
    ensures !v.cn[0].ExitMsg? && (v.closed.Some? || Running(v, id, window)) && !(v.closed.Some? && v.n.Some?)
  {
    if v.closed.Some? || Running(v, id, window) {
      TrafficPop(v.cn, id, true);
    }
  }

  lemma NodeTakesData(w: World, window: nat)
    requires Inv(w, window) && w.cn != [] && w.cn[0].DataMsg? && w.cn[0].id !in w.n.closed
    ensures Inv(NodeReceives(w), window)
  {
    hide Inv, ViewInv, NodeReceives, Only, MsgTokens, Record, TakeN, ViewOf, Past, SameBut;
    var m := w.cn[0];
    NodeDataView(w, window);
    RecordFacts(w.arrN, m.id, MsgTokens(m));
    TakeNInv(w, window, m.id, Received(w.n.streams[m.id], m), [], Record(w.arrN, m.id, MsgTokens(m)));
    NodeDataShape(w);
  }

  /** The stream's view after the node has taken its front DATA, in the form a delivery needs it. */
  lemma NodeDataView(w: World, window: nat)
    requires Inv(w, window) && w.cn != [] && w.cn[0].DataMsg? && w.cn[0].id !in w.n.closed
    ensures var m, id := w.cn[0], w.cn[0].id;
            && id in w.n.streams && m.channel.Stdout? && !w.n.streams[id].peerClosed && w.n.window == window
            && HasRoom(w.n.streams[id].recv, window, |m.bytes|) && ViewOf(w, id) != UNISSUED
            && ViewInv(ViewOf(w, id).(n := Some(Received(w.n.streams[id], m)), cn := ViewOf(w, id).cn[1..],
                                      nc := ViewOf(w, id).nc + [], arrN := Past(Record(w.arrN, id, MsgTokens(m)), id)), id, window)
  {
    hide ViewInv, Only, MsgTokens, Inv, Live, Tokens, HasRoom;
    assert w.n.window == window by { NodeWindow(w, window); }
    var m, id := w.cn[0], w.cn[0].id;
    var v := ViewOf(w, id);
    NodeKnows(w, window);
    FrontView(w);
    NodeGetsData(v, id, window);
    InPhase(v.(n := Some(Received(v.n.value, m)), cn := v.cn[1..], arrN := v.arrN + MsgTokens(m)), id, window);
    RecordFacts(w.arrN, id, MsgTokens(m));
    assert v.nc + [] == v.nc;
  }

  lemma NodeWindow(w: World, window: nat)
    requires Inv(w, window)
    ensures w.n.window == window
  {
  }

  lemma NodeDataShape(w: World)
    requires w.cn != [] && w.cn[0].DataMsg? && w.cn[0].channel.Stdout? && w.cn[0].id !in w.n.closed
    requires w.cn[0].id in w.n.streams && !w.n.streams[w.cn[0].id].peerClosed
    requires HasRoom(w.n.streams[w.cn[0].id].recv, w.n.window, |w.cn[0].bytes|)
    ensures var m := w.cn[0];
            NodeReceives(w) == TakeN(w, m.id, Received(w.n.streams[m.id], m), [], Record(w.arrN, m.id, MsgTokens(m)))
  {
  }

  lemma NodeDropsData(w: World, window: nat)
    requires Inv(w, window) && w.cn != [] && w.cn[0].DataMsg? && w.cn[0].id in w.n.closed
    ensures Inv(NodeReceives(w), window)
  {
    hide ViewInv, NodeReceives, Only;
    var m, id := w.cn[0], w.cn[0].id;
    var v, log := ViewOf(w, id), Record(w.arrN, id, MsgTokens(m));
    NodeKnows(w, window);
    FrontView(w);
    ClosedNodeGetsData(v, id, window);
    RecordFacts(w.arrN, id, MsgTokens(m));
    DropNInv(w, window, id, m.end, log);
    DropDataShape(w);
  }

  lemma DropDataShape(w: World)
    requires w.cn != [] && w.cn[0].DataMsg? && w.cn[0].channel.Stdout?
    requires w.cn[0].id in w.n.closed && !w.n.closed[w.cn[0].id]
    ensures var m := w.cn[0]; NodeReceives(w) == DropN(w, m.id, m.end, Record(w.arrN, m.id, MsgTokens(m)))
  {
    assert w.nc + [] == w.nc;
  }

  lemma NodeDropsCredit(w: World, window: nat)
    requires Inv(w, window) && w.cn != [] && w.cn[0].CreditMsg? && w.cn[0].id in w.n.closed
    ensures Inv(NodeReceives(w), window)
  {
    hide ViewInv, NodeReceives, Only;
    var id := w.cn[0].id;
    var v := ViewOf(w, id);
    NodeKnows(w, window);
    FrontView(w);
    ClosedNodeGetsCredit(v, id, window);
    DropNInv(w, window, id, w.n.closed[id], w.arrN);
    DropCreditShape(w);
  }

  lemma DropCreditShape(w: World)
    requires w.cn != [] && w.cn[0].CreditMsg? && w.cn[0].id in w.n.closed && w.cn[0].id !in w.n.streams
    ensures NodeReceives(w) == DropN(w, w.cn[0].id, w.n.closed[w.cn[0].id], w.arrN)
  {
    assert w.nc + [] == w.nc;
    assert w.n.closed[w.cn[0].id := w.n.closed[w.cn[0].id]] == w.n.closed;
  }

  lemma FlushIsPlain(id: U32, st: Stream, window: nat)
    requires Sound(st)
    ensures PlainTraffic(Flush(id, st, window).msgs, id)
  {
    DataPartData(id, st);
    FlushShape(id, st, window);
    DataIsPlain(DataPart(id, st).msgs, id, StdoutOnly(st.queue));
  }

  lemma CreditShape(w: World)
    requires w.cn != [] && w.cn[0].CreditMsg? && w.cn[0].id in w.n.streams
    requires w.n.streams[w.cn[0].id].credit + w.cn[0].delta <= MAX_STREAM_WINDOW
    ensures var id := w.cn[0].id;
            var st := w.n.streams[id].(credit := w.n.streams[id].credit + w.cn[0].delta);
            var f := Flush(id, st, w.n.window);
            NodeReceives(w) == if f.exited then CloseN(w, id, f.stream.peerClosed, f.msgs, true, w.exitSent)
                               else TakeN(w, id, f.stream, f.msgs, w.arrN)
  {
    hide Flush, MsgTokens;
  }

  lemma NodeTakesCredit(w: World, window: nat)
    requires Inv(w, window) && w.cn != [] && w.cn[0].CreditMsg? && w.cn[0].id !in w.n.closed
    ensures Inv(NodeReceives(w), window)
  {
    hide ViewInv, Live, NodeReceives, Only, Flush;
    var id := w.cn[0].id;
    var v := ViewOf(w, id);
    NodeKnows(w, window);
    FrontView(w);
    var st := v.n.value.(credit := v.n.value.credit + w.cn[0].delta);
    var f := Flush(id, st, window);
    NodeGetsCredit(v, id, window);
    RunningSound(v, id, window);
    FlushIsPlain(id, st, window);
    CreditShape(w);
    if f.exited {
      NodeClosesOnCredit(w, window, f);
    } else {
      TakeNInv(w, window, id, f.stream, f.msgs, w.arrN);
    }
  }

  lemma RunningSound(v: View, id: U32, window: nat)
    requires Running(v, id, window)
    ensures forall credit: nat :: Sound(v.n.value.(credit := credit))
  {
  }

  lemma NodeClosesOnCredit(w: World, window: nat, f: Flushed)
    requires Inv(w, window) && w.cn != [] && w.cn[0].CreditMsg? && w.cn[0].id in w.n.streams
    requires PlainTraffic(f.msgs, w.cn[0].id)
    requires var id := w.cn[0].id;
             ViewInv(ViewOf(w, id).(n := None, closed := Some(f.stream.peerClosed), cn := ViewOf(w, id).cn[1..],
                                    nc := ViewOf(w, id).nc + f.msgs), id, window)
    ensures Inv(CloseN(w, w.cn[0].id, f.stream.peerClosed, f.msgs, true, w.exitSent), window)
  {
    hide ViewInv, Only;
    var id := w.cn[0].id;
    FrontView(w);
    ConnectionPops(w, CloseN(w, id, f.stream.peerClosed, f.msgs, true, w.exitSent), window);
    CloseNInv(w, window, id, f.stream.peerClosed, f.msgs, true, w.exitSent);
  }

  lemma NextOpen(w: World, window: nat)
    requires Connection(w, window) && w.cn != [] && w.cn[0].OpenMsg?
    ensures w.cn[0].id == w.n.nextPeer && !w.n.receivedGoAway
    ensures var w' := w.(n := w.n.(nextPeer := NextU32(w.cn[0].id), streams := w.n.streams[w.cn[0].id := NewStream(window)]),
                         cn := w.cn[1..]);
            Connection(w', window)
  {
    assert OpenIds(w.cn) == [w.cn[0].id] + OpenIds(w.cn[1..]);
    assert OpenIds(w.cn)[0] == w.cn[0].id;
    assert forall i | 0 <= i < |OpenIds(w.cn[1..])| :: OpenIds(w.cn[1..])[i] == OpenIds(w.cn)[i + 1];
    assert forall i | 0 <= i < |w.cn[1..]| :: w.cn[1..][i] == w.cn[i + 1];
  }

  lemma OpenPhase(v: View, id: U32, window: nat)
    requires ViewInv(v, id, window) && v.cn != [] && v.cn[0].OpenMsg?
    ensures Opening(v, id, window)
  {
    if Running(v, id, window) || Exiting(v, id, window) || Gone(v, id, window) {
      TrafficPop(v.cn, id, true);
    }
  }

  lemma OpenShape(w: World, window: nat)
    requires w.cn != [] && w.cn[0].OpenMsg? && w.cn[0].id !in w.n.streams && w.n.window == window
    requires w.n.role.Node? && w.cn[0].id == w.n.nextPeer && !w.n.receivedGoAway && !w.n.sentGoAway
    ensures var id := w.cn[0].id;
            && NodeReceives(w) == w.(n := w.n.(nextPeer := NextU32(id), streams := w.n.streams[id := NewStream(window)]),
                                     cn := w.cn[1..])
            && ViewOf(NodeReceives(w), id) == ViewOf(w, id).(n := Some(NewStream(window)), cn := ViewOf(w, id).cn[1..])
            && NodeEvent(w, NodeReceives(w), id, [], true)
  {
    assert w.nc + [] == w.nc;
    FrontView(w);
  }

  lemma NodeAcceptsOpen(w: World, window: nat)
    requires Inv(w, window) && w.cn != [] && w.cn[0].OpenMsg? && !w.n.sentGoAway
    ensures Inv(NodeReceives(w), window)
  {
    hide ViewInv, Only;
    var id := w.cn[0].id;
    var v := ViewOf(w, id);
    NextOpen(w, window);
    FrontView(w);
    OpenPhase(v, id, window);
    OpenShape(w, window);
    NodeGetsOpen(v, id, window);
    InPhase(ViewOf(NodeReceives(w), id), id, window);
    AfterNodeEvent(w, NodeReceives(w), id, [], true, window);
  }

  lemma PoppedControl(q: seq<Msg>, k: U32)
    requires q != [] && !IsStreamMsg(q[0])
    ensures Only(q[1..], k) == Only(q, k)
  {
    Popped(q);
  }

  lemma NodeHearsControl(w: World, window: nat)
    requires Inv(w, window) && w.cn != [] && !IsStreamMsg(w.cn[0])
    ensures Inv(NodeReceives(w), window)
  {
    hide ViewInv, Only;
    var w' := NodeReceives(w);
    assert w.nc + [] == w.nc;
    AppendedControl(w.nc, PongMsg);
    forall k: U32 ensures ViewOf(w', k) == ViewOf(w, k) {
      PoppedControl(w.cn, k);
    }
    NoStream(w, w', window);
    ControlConnection(w, window);
  }

  lemma ControlConnection(w: World, window: nat)
    requires Connection(w, window) && w.cn != [] && !IsStreamMsg(w.cn[0])
    ensures Connection(NodeReceives(w), window)
  {
    var w' := NodeReceives(w);
    assert OpenIds(w.cn) == OpenIds(w'.cn);
    assert forall i | 0 <= i < |w'.cn| :: w'.cn[i] == w.cn[i + 1];
    if w.cn[0].GoAwayMsg? {
      NoOpenIds(w'.cn);
    }
  }

  /** The next message to the node is handled without error, unless it is an OPEN that crosses the node's GOAWAY. */
  lemma NodeDelivery(w: World, window: nat)
    requires Inv(w, window) && w.cn != [] && !(w.cn[0].OpenMsg? && w.n.sentGoAway)
    ensures Inv(NodeReceives(w), window)
  {
    if !IsStreamMsg(w.cn[0]) {
      NodeHearsControl(w, window);
    } else if w.cn[0].OpenMsg? {
      NodeAcceptsOpen(w, window);
    } else {
      NodeKnows(w, window);
      if w.cn[0].DataMsg? {
        if w.cn[0].id in w.n.closed {
          NodeDropsData(w, window);
        } else {
          NodeTakesData(w, window);
        }
      } else if w.cn[0].id in w.n.closed {
        NodeDropsCredit(w, window);
      } else {
        NodeTakesCredit(w, window);
      }
    }
  }

  // ---- to the controller --------------------------------------------------------------------------------------

  lemma FrontViewC(w: World)
    requires w.nc != [] && IsStreamMsg(w.nc[0])
    ensures var v := ViewOf(w, w.nc[0].id);
            v.nc != [] && v.nc[0] == w.nc[0] && v.nc[1..] == Only(w.nc[1..], w.nc[0].id)
  {
    Popped(w.nc);
  }

  function TakeC(w: World, id: U32, st: Stream, msgs: seq<Msg>, log: Log): World
    requires w.nc != []
  {
    w.(c := w.c.(streams := w.c.streams[id := st]), nc := w.nc[1..], cn := w.cn + msgs, gotC := log)
  }

  lemma TakeCView(w: World, id: U32, st: Stream, msgs: seq<Msg>, log: Log)
    requires w.nc != [] && IsFor(w.nc[0], id) && PlainTraffic(msgs, id) && SameBut(w.gotC, log, id)
    ensures ViewOf(TakeC(w, id, st, msgs, log), id) ==
            ViewOf(w, id).(c := Some(st), nc := ViewOf(w, id).nc[1..], cn := ViewOf(w, id).cn + msgs, gotC := Past(log, id))
    ensures ControllerEvent(w, TakeC(w, id, st, msgs, log), id, msgs, true)
  {
    assert AllFor(msgs, id);
    Appended(w.cn, msgs, id);
    FrontViewC(w);
  }

  lemma TakeCInv(w: World, window: nat, id: U32, st: Stream, msgs: seq<Msg>, log: Log)
    requires Inv(w, window) && w.nc != [] && IsFor(w.nc[0], id)
    requires PlainTraffic(msgs, id) && SameBut(w.gotC, log, id) && ViewOf(w, id) != UNISSUED
    requires ViewInv(ViewOf(w, id).(c := Some(st), nc := ViewOf(w, id).nc[1..], cn := ViewOf(w, id).cn + msgs,
                                    gotC := Past(log, id)), id, window)
    ensures Inv(TakeC(w, id, st, msgs, log), window)
  {
    TakeCView(w, id, st, msgs, log);
    AfterControllerEvent(w, TakeC(w, id, st, msgs, log), id, msgs, true, window);
  }

  lemma ControllerTakesData(w: World, window: nat)
    requires Inv(w, window) && w.nc != [] && w.nc[0].DataMsg?
    ensures Inv(ControllerReceives(w), window)
  {
    hide ViewInv, ControllerReceives, Only;
    var m, id := w.nc[0], w.nc[0].id;
    var v, log := ViewOf(w, id), Record(w.gotC, id, MsgTokens(m));
    FrontViewC(w);
    ClientGetsData(v, id, window);
    RecordFacts(w.gotC, id, MsgTokens(m));
    TakeCInv(w, window, id, Received(v.c.value, m), [], log) by {
      assert v.cn + [] == v.cn;
    }
    ControllerDataShape(w);
  }

  lemma ControllerDataShape(w: World)
    requires w.nc != [] && w.nc[0].DataMsg? && w.c.role.Controller? && w.c.closed == map[]
    requires w.nc[0].id in w.c.streams && !w.c.streams[w.nc[0].id].peerClosed
    requires HasRoom(w.c.streams[w.nc[0].id].recv, w.c.window, |w.nc[0].bytes|)
    ensures var m := w.nc[0];
            ControllerReceives(w) == TakeC(w, m.id, Received(w.c.streams[m.id], m), [], Record(w.gotC, m.id, MsgTokens(m)))
  {
  }

  lemma ClientCreditPlain(v: View, id: U32, window: nat)
    requires ViewInv(v, id, window) && v.nc != [] && v.nc[0].CreditMsg? && v.c.Some?
    ensures PlainTraffic(DataPart(id, v.c.value.(credit := v.c.value.credit + v.nc[0].delta)).msgs, id)
  {
    var st := v.c.value.(credit := v.c.value.credit + v.nc[0].delta);
    ClientSound(v, id, window);
    DataPartData(id, st);
    DataIsPlain(DataPart(id, st).msgs, id, StdoutOnly(st.queue));
  }

  lemma ControllerCreditShape(w: World)
    requires w.nc != [] && w.nc[0].CreditMsg? && w.nc[0].id in w.c.streams
    requires w.c.streams[w.nc[0].id].credit + w.nc[0].delta <= MAX_STREAM_WINDOW
    requires var st := w.c.streams[w.nc[0].id];
             !DataPart(w.nc[0].id, st.(credit := st.credit + w.nc[0].delta)).stream.exitPending
    ensures var id, st := w.nc[0].id, w.c.streams[w.nc[0].id];
            var d := DataPart(id, st.(credit := st.credit + w.nc[0].delta));
            ControllerReceives(w) == TakeC(w, id, d.stream, d.msgs, w.gotC)
  {
    hide DataPart, FlushInto, MsgTokens;
    var id, st := w.nc[0].id, w.c.streams[w.nc[0].id];
    FlushIntoShape(w.c, id, st.(credit := st.credit + w.nc[0].delta));
  }

  lemma ControllerTakesCredit(w: World, window: nat)
    requires Inv(w, window) && w.nc != [] && w.nc[0].CreditMsg?
    ensures Inv(ControllerReceives(w), window)
  {
    hide ViewInv, ControllerReceives, Only;
    var id := w.nc[0].id;
    var v := ViewOf(w, id);
    FrontViewC(w);
    ClientGetsCredit(v, id, window);
    ClientCreditPlain(v, id, window);
    ControllerCreditShape(w);
    var d := DataPart(id, v.c.value.(credit := v.c.value.credit + w.nc[0].delta));
    TakeCInv(w, window, id, d.stream, d.msgs, w.gotC);
  }

  lemma ControllerExitShape(w: World)
    requires w.nc != [] && w.nc[0].ExitMsg? && w.c.role.Controller? && w.nc[0].id in w.c.streams
    ensures var id, w' := w.nc[0].id, ControllerReceives(w);
            && w'.c.nextId == w.c.nextId && ControllerEvent(w, w', id, [], true)
            && ViewOf(w', id) == ViewOf(w, id).(c := None, nc := ViewOf(w, id).nc[1..])
  {
    FrontViewC(w);
    assert w.cn + [] == w.cn;
  }

  /** When the controller's `onExit` fires, it holds exactly what the node's `sendData` accepted, and the node's status. */
  lemma ExitAfterAllData(w: World, window: nat)
    requires Inv(w, window) && w.nc != [] && w.nc[0].ExitMsg?
    ensures var id, o := w.nc[0].id, Dispatch(w.c, w.nc[0]);
            && o.calls == [OnExit(id, w.nc[0].status)]
            && Past(w.gotC, id) == Past(w.sentN, id)
            && id in w.exitSent && w.exitSent[id] == w.nc[0].status
    ensures Inv(ControllerReceives(w), window)
  {
    var id := w.nc[0].id;
    FrontViewC(w);
    ClientGetsExit(ViewOf(w, id), id, window);
    assert id in w.c.streams by {
      assert ViewOf(w, id).c.Some?;
    }
    ControllerExitShape(w);
    AfterControllerEvent(w, ControllerReceives(w), id, [], true, window);
  }

  lemma ControllerHearsControl(w: World, window: nat)
    requires Inv(w, window) && w.nc != [] && !IsStreamMsg(w.nc[0])
    ensures Inv(ControllerReceives(w), window)
  {
    hide ViewInv;
    var w' := ControllerReceives(w);
    assert w.cn + [] == w.cn;
    AppendedControl(w.cn, PongMsg);
    forall k: U32 ensures ViewOf(w', k) == ViewOf(w, k) {
      PoppedControl(w.nc, k);
    }
    NoStream(w, w', window);
    ConnectionGrows(w, w', window, Dispatch(w.c, w.nc[0]).msgs);
  }

  lemma NoOpenToController(w: World, window: nat)
    requires Inv(w, window) && w.nc != []
    ensures !w.nc[0].OpenMsg?
  {
    if IsStreamMsg(w.nc[0]) {
      FrontViewC(w);
      FrontToController(ViewOf(w, w.nc[0].id), w.nc[0].id, window);
    }
  }

  lemma FrontToController(v: View, id: U32, window: nat)
    requires ViewInv(v, id, window) && v.nc != []
    ensures !v.nc[0].OpenMsg?
  {
    if Running(v, id, window) {
      TrafficPop(v.nc, id, false);
    } else if Exiting(v, id, window) && |v.nc| > 1 {
      assert v.nc[..|v.nc| - 1][0] == v.nc[0];
    }
  }

  /** The next message to the controller is handled without error. */
  lemma ControllerDelivery(w: World, window: nat)
    requires Inv(w, window) && w.nc != []
    ensures Inv(ControllerReceives(w), window)
  {
    NoOpenToController(w, window);
    match w.nc[0]
    case DataMsg(_, _, _, _) => ControllerTakesData(w, window);
    case CreditMsg(_, _) => ControllerTakesCredit(w, window);
    case ExitMsg(_, _) => ExitAfterAllData(w, window);
    case _ => ControllerHearsControl(w, window);
  }
}
