/** Every event on a stream keeps the stream invariant, and no delivery on an honest stream is an error. */
module StreamSteps {
  import opened Wire
  import opened Options
  import opened OpenPayload
  import opened ControlPayloads
  import opened Messages
  import opened CreditWindows
  import opened SessionSpec
  import opened FlowFacts
  import opened StreamInvariant

  function Sent(channel: Channel, bytes: seq<Byte>, end: bool): seq<Token> {
    Tag(channel, bytes) + EndToken(end)
  }

  /** What consuming writes. */
  function Grant(id: U32, delta: nat): seq<Msg> {
    if delta > 0 then [CreditMsg(id, delta % U32_LIMIT)] else []
  }

  /** The conjuncts of a live stream, one by one. */
  lemma LiveFromParts(v: View, c: Stream, n: Stream, cn: seq<Msg>, id: U32, window: nat)
    requires ClientOk(c, v.sentC) && SenderOk(n, v.sentN) && ReceiverOk(n.recv)
    requires Traffic(cn, id, true) && Traffic(v.nc, id, false)
    requires Carried(cn, Owed(c), v.sentC, v.arrN, n.peerClosed)
    requires Carried(v.nc, Owed(n), v.sentN, v.gotC, c.peerClosed)
    requires Balanced(c.credit, cn, Held(n.recv), v.nc, window)
    requires Balanced(n.credit, v.nc, Held(c.recv), cn, window)
    requires v.exitSent == (if n.exitPending then Some(n.status) else None)
    ensures Live(v, c, n, cn, id, window)
  {
  }

  lemma OpeningFromParts(v: View, id: U32, window: nat, cn: seq<Msg>)
    requires v.c.Some? && v.n.None? && v.closed.None? && v.nc == []
    requires v.cn != [] && v.cn[0].OpenMsg? && v.cn[0].id == id && v.cn[1..] == cn
    requires Live(v, v.c.value, NewStream(window), cn, id, window)
    ensures Opening(v, id, window)
  {
  }

  /** The conjuncts of an exiting stream; `front` is what the EXIT follows. */
  lemma ExitingFromParts(v: View, id: U32, window: nat, front: seq<Msg>)
    requires v.c.Some? && v.n.None? && v.closed.Some? && v.exitSent.Some?
    requires ClientOk(v.c.value, v.sentC)
    requires v.nc == front + [ExitMsg(id, v.exitSent.value)] && Traffic(front, id, false) && Traffic(v.cn, id, true)
    requires Carried(v.cn, Owed(v.c.value), v.sentC, v.arrN, v.closed.value)
    requires Carried(v.nc, [], v.sentN, v.gotC, v.c.value.peerClosed)
    requires v.c.value.credit + DataLen(v.cn) + CreditSum(v.nc) <= window
    requires DataLen(v.nc) + Held(v.c.value.recv) <= window
    ensures Exiting(v, id, window)
  {
    assert v.nc[..|v.nc| - 1] == front;
  }

  lemma ExitingParts(v: View, id: U32, window: nat)
    requires Exiting(v, id, window)
    ensures v.nc == v.nc[..|v.nc| - 1] + [ExitMsg(id, v.exitSent.value)]
  {
    SplitLast(v.nc);
  }

  lemma SplitLast<T>(q: seq<T>)
    requires q != []
    ensures q == q[..|q| - 1] + [q[|q| - 1]]
  {
  }

  lemma TrafficPop(q: seq<Msg>, id: U32, stdoutOnly: bool)
    requires q != [] && Traffic(q, id, stdoutOnly)
    ensures Traffic(q[1..], id, stdoutOnly) && (IsData(q[0], id, stdoutOnly) || IsCredit(q[0], id))
  {
  }

  // ---- the controller opens, sends and consumes ---------------------------------------------------------------

  lemma Issue(id: U32, r: OpenRequest, window: nat)
    ensures Opening(UNISSUED.(c := Some(NewStream(window)), cn := [OpenMsg(id, r)]), id, window)
  {
    assert [OpenMsg(id, r)][1..] == [];
    assert Owed(NewStream(window)) == [];
  }

  lemma LiveClientSends(v: View, c: Stream, n: Stream, cn: seq<Msg>, id: U32, window: nat, bytes: seq<Byte>, end: bool)
    requires Live(v, c, n, cn, id, window) && !c.localClosed
    ensures var d := DataPart(id, Enqueue(c, bytes, end, Stdout));
            Live(v.(sentC := v.sentC + Sent(Stdout, bytes, end)), d.stream, n, cn + d.msgs, id, window)
  {
    var sent := v.sentC + Sent(Stdout, bytes, end);
    EnqueueLeg(c, cn, v.sentC, v.arrN, n.peerClosed, bytes, end, Stdout);
    FlushLeg(id, Enqueue(c, bytes, end, Stdout), cn, sent, v.arrN, n.peerClosed, true);
  }

  lemma ExitingClientSends(v: View, id: U32, window: nat, bytes: seq<Byte>, end: bool)
    requires Exiting(v, id, window) && !v.c.value.localClosed
    ensures var d := DataPart(id, Enqueue(v.c.value, bytes, end, Stdout));
            Exiting(v.(c := Some(d.stream), cn := v.cn + d.msgs, sentC := v.sentC + Sent(Stdout, bytes, end)), id, window)
  {
    var sent := v.sentC + Sent(Stdout, bytes, end);
    EnqueueLeg(v.c.value, v.cn, v.sentC, v.arrN, v.closed.value, bytes, end, Stdout);
    FlushLeg(id, Enqueue(v.c.value, bytes, end, Stdout), v.cn, sent, v.arrN, v.closed.value, true);
    ExitingParts(v, id, window);
    var d := DataPart(id, Enqueue(v.c.value, bytes, end, Stdout));
    ExitingFromParts(v.(c := Some(d.stream), cn := v.cn + d.msgs, sentC := sent), id, window, v.nc[..|v.nc| - 1]);
  }

  lemma OpeningClientSends(v: View, id: U32, window: nat, bytes: seq<Byte>, end: bool)
    requires Opening(v, id, window) && !v.c.value.localClosed
    ensures var d := DataPart(id, Enqueue(v.c.value, bytes, end, Stdout));
            Opening(v.(c := Some(d.stream), cn := v.cn + d.msgs, sentC := v.sentC + Sent(Stdout, bytes, end)), id, window)
  {
    var d := DataPart(id, Enqueue(v.c.value, bytes, end, Stdout));
    LiveClientSends(v, v.c.value, NewStream(window), v.cn[1..], id, window, bytes, end);
    DropAppend(v.cn, d.msgs);
    OpeningFromParts(v.(c := Some(d.stream), cn := v.cn + d.msgs, sentC := v.sentC + Sent(Stdout, bytes, end)),
                     id, window, v.cn[1..] + d.msgs);
  }

  lemma RunningClientSends(v: View, id: U32, window: nat, bytes: seq<Byte>, end: bool)
    requires Running(v, id, window) && !v.c.value.localClosed
    ensures var d := DataPart(id, Enqueue(v.c.value, bytes, end, Stdout));
            Running(v.(c := Some(d.stream), cn := v.cn + d.msgs, sentC := v.sentC + Sent(Stdout, bytes, end)), id, window)
  {
    LiveClientSends(v, v.c.value, v.n.value, v.cn, id, window, bytes, end);
  }

  /** The controller's `sendData`. */
  lemma ClientSends(v: View, id: U32, window: nat, bytes: seq<Byte>, end: bool)
    requires ViewInv(v, id, window) && v.c.Some? && !v.c.value.localClosed
    ensures var d := DataPart(id, Enqueue(v.c.value, bytes, end, Stdout));
            ViewInv(v.(c := Some(d.stream), cn := v.cn + d.msgs, sentC := v.sentC + Sent(Stdout, bytes, end)), id, window)
    ensures !DataPart(id, Enqueue(v.c.value, bytes, end, Stdout)).stream.exitPending
  {
    if Opening(v, id, window) {
      OpeningClientSends(v, id, window, bytes, end);
    } else if Running(v, id, window) {
      RunningClientSends(v, id, window, bytes, end);
    } else {
      ExitingClientSends(v, id, window, bytes, end);
    }
  }

  lemma TrafficGrant(q: seq<Msg>, id: U32, stdoutOnly: bool, delta: nat)
    requires Traffic(q, id, stdoutOnly) && delta < U32_LIMIT
    ensures Traffic(q + Grant(id, delta), id, stdoutOnly)
  {
  }

  /** Advertising credit next to carried data. */
  lemma GrantLeg(q: seq<Msg>, id: U32, delta: nat, owed: seq<Token>, sent: seq<Token>, got: seq<Token>, ended: bool)
    requires Carried(q, owed, sent, got, ended) && delta < U32_LIMIT
    ensures Carried(q + Grant(id, delta), owed, sent, got, ended)
    ensures DataLen(q + Grant(id, delta)) == DataLen(q) && CreditSum(q + Grant(id, delta)) == CreditSum(q) + delta
  {
    if delta > 0 {
      SilentLeg(q, CreditMsg(id, delta), owed, sent, got, ended);
    } else {
      assert q + [] == q;
    }
  }

  lemma LiveClientConsumes(v: View, c: Stream, n: Stream, cn: seq<Msg>, id: U32, window: nat, k: nat)
    requires Live(v, c, n, cn, id, window) && window < U32_LIMIT
    ensures var (recv, delta) := Consumed(c.recv, window, k);
            Live(v, c.(recv := recv), n, cn + Grant(id, delta), id, window)
  {
    var (recv, delta) := Consumed(c.recv, window, k);
    TrafficGrant(cn, id, true, delta);
    GrantLeg(cn, id, delta, Owed(c), v.sentC, v.arrN, n.peerClosed);
    assert Owed(c.(recv := recv)) == Owed(c);
  }

  lemma ExitingClientConsumes(v: View, id: U32, window: nat, k: nat)
    requires Exiting(v, id, window) && window < U32_LIMIT
    ensures var (recv, delta) := Consumed(v.c.value.recv, window, k);
            Exiting(v.(c := Some(v.c.value.(recv := recv)), cn := v.cn + Grant(id, delta)), id, window)
  {
    var c := v.c.value;
    var (recv, delta) := Consumed(c.recv, window, k);
    TrafficGrant(v.cn, id, true, delta);
    GrantLeg(v.cn, id, delta, Owed(c), v.sentC, v.arrN, v.closed.value);
    assert Owed(c.(recv := recv)) == Owed(c) && ClientOk(c.(recv := recv), v.sentC);
    ExitingParts(v, id, window);
    ExitingFromParts(v.(c := Some(c.(recv := recv)), cn := v.cn + Grant(id, delta)), id, window, v.nc[..|v.nc| - 1]);
  }

  lemma OpeningClientConsumes(v: View, id: U32, window: nat, k: nat)
    requires Opening(v, id, window) && window < U32_LIMIT
    ensures var (recv, delta) := Consumed(v.c.value.recv, window, k);
            Opening(v.(c := Some(v.c.value.(recv := recv)), cn := v.cn + Grant(id, delta)), id, window)
  {
    var (recv, delta) := Consumed(v.c.value.recv, window, k);
    LiveClientConsumes(v, v.c.value, NewStream(window), v.cn[1..], id, window, k);
    DropAppend(v.cn, Grant(id, delta));
    OpeningFromParts(v.(c := Some(v.c.value.(recv := recv)), cn := v.cn + Grant(id, delta)),
                     id, window, v.cn[1..] + Grant(id, delta));
  }

  lemma RunningClientConsumes(v: View, id: U32, window: nat, k: nat)
    requires Running(v, id, window) && window < U32_LIMIT
    ensures var (recv, delta) := Consumed(v.c.value.recv, window, k);
            Running(v.(c := Some(v.c.value.(recv := recv)), cn := v.cn + Grant(id, delta)), id, window)
  {
    LiveClientConsumes(v, v.c.value, v.n.value, v.cn, id, window, k);
  }

  lemma ClientHolds(v: View, id: U32, window: nat)
    requires ViewInv(v, id, window) && v.c.Some?
    ensures Held(v.c.value.recv) <= window
  {
  }

  /** The controller's `consume`. */
  lemma ClientConsumes(v: View, id: U32, window: nat, k: nat)
    requires ViewInv(v, id, window) && v.c.Some? && window < U32_LIMIT
    ensures Consumed(v.c.value.recv, window, k).1 <= window
    ensures var (recv, delta) := Consumed(v.c.value.recv, window, k);
            ViewInv(v.(c := Some(v.c.value.(recv := recv)), cn := v.cn + Grant(id, delta)), id, window)
  {
    ClientHolds(v, id, window);
    if Opening(v, id, window) {
      OpeningClientConsumes(v, id, window, k);
    } else if Running(v, id, window) {
      RunningClientConsumes(v, id, window, k);
    } else {
      ExitingClientConsumes(v, id, window, k);
    }
  }

  // ---- the node sends, consumes and exits ---------------------------------------------------------------------

  /** The node's `sendData`. */
  lemma NodeSends(v: View, id: U32, window: nat, bytes: seq<Byte>, end: bool, channel: Channel)
    requires Running(v, id, window) && !v.n.value.localClosed
    ensures var d := DataPart(id, Enqueue(v.n.value, bytes, end, channel));
            && !d.stream.exitPending
            && Running(v.(n := Some(d.stream), nc := v.nc + d.msgs, sentN := v.sentN + Sent(channel, bytes, end)), id, window)
  {
    var sent := v.sentN + Sent(channel, bytes, end);
    EnqueueLeg(v.n.value, v.nc, v.sentN, v.gotC, v.c.value.peerClosed, bytes, end, channel);
    FlushLeg(id, Enqueue(v.n.value, bytes, end, channel), v.nc, sent, v.gotC, v.c.value.peerClosed, false);
  }

  /** The node's `consume`. */
  lemma NodeConsumes(v: View, id: U32, window: nat, k: nat)
    requires Running(v, id, window) && window < U32_LIMIT
    ensures var (recv, delta) := Consumed(v.n.value.recv, window, k);
            && delta <= window
            && Running(v.(n := Some(v.n.value.(recv := recv)), nc := v.nc + Grant(id, delta)), id, window)
  {
    var n := v.n.value;
    var (recv, delta) := Consumed(n.recv, window, k);
    TrafficGrant(v.nc, id, false, delta);
    GrantLeg(v.nc, id, delta, Owed(n), v.sentN, v.gotC, v.c.value.peerClosed);
    assert Owed(n.(recv := recv)) == Owed(n);
  }

  /** A node stream with nothing left to send may emit EXIT: all its data is ahead of it. */
  lemma NodeCloses(v: View, n: Stream, nc: seq<Msg>, id: U32, window: nat, status: ExitStatus)
    requires v.c.Some? && ClientOk(v.c.value, v.sentC)
    requires Traffic(v.cn, id, true) && Traffic(nc, id, false)
    requires Carried(v.cn, Owed(v.c.value), v.sentC, v.arrN, n.peerClosed)
    requires Carried(nc, Owed(n), v.sentN, v.gotC, v.c.value.peerClosed)
    requires Balanced(v.c.value.credit, v.cn, Held(n.recv), nc, window)
    requires Balanced(n.credit, nc, Held(v.c.value.recv), v.cn, window)
    requires n.queue == [] && !n.endPending
    ensures Exiting(v.(n := None, closed := Some(n.peerClosed), nc := nc + [ExitMsg(id, status)], exitSent := Some(status)),
                    id, window)
  {
    var exit := ExitMsg(id, status);
    assert Owed(n) == [];
    SilentLeg(nc, exit, [], v.sentN, v.gotC, v.c.value.peerClosed);
    assert (nc + [exit])[..|nc|] == nc;
  }

  /** `sendExit` with nothing queued. */
  lemma NodeExitsNow(v: View, id: U32, window: nat, status: ExitStatus)
    requires Running(v, id, window) && v.n.value.queue == [] && !v.n.value.endPending
    ensures Exiting(v.(n := None, closed := Some(v.n.value.peerClosed), nc := v.nc + [ExitMsg(id, status)],
                       exitSent := Some(status)), id, window)
  {
    NodeCloses(v, v.n.value, v.nc, id, window, status);
  }

  /** `sendExit` behind queued data. */
  lemma NodeExitsLater(v: View, id: U32, window: nat, status: ExitStatus)
    requires Running(v, id, window) && v.n.value.queue != []
    ensures Running(v.(n := Some(v.n.value.(localClosed := true, exitPending := true, status := status)),
                       exitSent := Some(status)), id, window)
  {
    var n' := v.n.value.(localClosed := true, exitPending := true, status := status);
    assert Owed(n') == Owed(v.n.value);
  }

  // ---- deliveries to the node ---------------------------------------------------------------------------------

  lemma NodeGetsOpen(v: View, id: U32, window: nat)
    requires Opening(v, id, window)
    ensures Running(v.(n := Some(NewStream(window)), cn := v.cn[1..]), id, window)
  {
  }

  lemma NodeGetsData(v: View, id: U32, window: nat)
    requires Running(v, id, window) && v.cn != [] && v.cn[0].DataMsg?
    ensures v.cn[0].channel.Stdout? && !v.n.value.peerClosed && HasRoom(v.n.value.recv, window, |v.cn[0].bytes|)
    ensures var n, m := v.n.value, v.cn[0];
            Running(v.(n := Some(n.(recv := Deliver(n.recv, |m.bytes|), peerClosed := m.end)), cn := v.cn[1..],
                       arrN := v.arrN + MsgTokens(m)), id, window)
  {
    var c, n, m := v.c.value, v.n.value, v.cn[0];
    assert IsData(m, id, true);
    DataLeg(v.cn, Owed(c), v.sentC, v.arrN, n.peerClosed);
    var n' := n.(recv := Deliver(n.recv, |m.bytes|), peerClosed := m.end);
    assert Owed(n') == Owed(n) && SenderOk(n', v.sentN) && ReceiverOk(n'.recv);
    assert Traffic(v.cn[1..], id, true);
    LiveFromParts(v.(arrN := v.arrN + MsgTokens(m)), c, n', v.cn[1..], id, window);
  }

  lemma ExitingNodeGetsData(v: View, id: U32, window: nat)
    requires Exiting(v, id, window) && v.cn != [] && v.cn[0].DataMsg?
    ensures v.cn[0].channel.Stdout? && !v.closed.value
    ensures Exiting(v.(closed := Some(v.cn[0].end), cn := v.cn[1..], arrN := v.arrN + MsgTokens(v.cn[0])), id, window)
  {
    TrafficPop(v.cn, id, true);
    DataLeg(v.cn, Owed(v.c.value), v.sentC, v.arrN, v.closed.value);
    ExitingParts(v, id, window);
    ExitingFromParts(v.(closed := Some(v.cn[0].end), cn := v.cn[1..], arrN := v.arrN + MsgTokens(v.cn[0])), id, window,
                     v.nc[..|v.nc| - 1]);
  }

  lemma GoneNodeGetsData(v: View, id: U32, window: nat)
    requires Gone(v, id, window) && v.cn != [] && v.cn[0].DataMsg?
    ensures v.cn[0].channel.Stdout? && !v.closed.value
    ensures Gone(v.(closed := Some(v.cn[0].end), cn := v.cn[1..], arrN := v.arrN + MsgTokens(v.cn[0])), id, window)
  {
    TrafficPop(v.cn, id, true);
    DataLeg(v.cn, [], v.arrN + Tokens(v.cn), v.arrN, v.closed.value);
    Assoc(v.arrN, MsgTokens(v.cn[0]), Tokens(v.cn[1..]));
  }

  /** DATA that crosses the node's EXIT is discarded without error, before and after the controller sees the EXIT. */
  lemma ClosedNodeGetsData(v: View, id: U32, window: nat)
    requires ViewInv(v, id, window) && v.closed.Some? && v.cn != [] && v.cn[0].DataMsg?
    ensures v.cn[0].channel.Stdout? && !v.closed.value
    ensures ViewInv(v.(closed := Some(v.cn[0].end), cn := v.cn[1..], arrN := v.arrN + MsgTokens(v.cn[0])), id, window)
  {
    if Exiting(v, id, window) {
      ExitingNodeGetsData(v, id, window);
    } else {
      GoneNodeGetsData(v, id, window);
    }
  }

  lemma ExitingNodeGetsCredit(v: View, id: U32, window: nat)
    requires Exiting(v, id, window) && v.cn != [] && v.cn[0].CreditMsg?
    ensures Exiting(v.(cn := v.cn[1..]), id, window)
  {
    TrafficPop(v.cn, id, true);
    CreditLeg(v.cn, Owed(v.c.value), v.sentC, v.arrN, v.closed.value);
    ExitingParts(v, id, window);
    ExitingFromParts(v.(cn := v.cn[1..]), id, window, v.nc[..|v.nc| - 1]);
  }

  /** Credit that crosses the node's EXIT is ignored. */
  lemma ClosedNodeGetsCredit(v: View, id: U32, window: nat)
    requires ViewInv(v, id, window) && v.closed.Some? && v.cn != [] && v.cn[0].CreditMsg?
    ensures ViewInv(v.(cn := v.cn[1..]), id, window)
  {
    if Exiting(v, id, window) {
      ExitingNodeGetsCredit(v, id, window);
    } else {
      TrafficPop(v.cn, id, true);
      CreditLeg(v.cn, [], v.arrN + Tokens(v.cn), v.arrN, v.closed.value);
      assert Tokens(v.cn) == Tokens(v.cn[1..]);
      assert Gone(v.(cn := v.cn[1..]), id, window);
    }
  }

  /** Credit for a running stream: it flushes the queue, and the EXIT waiting behind it if the queue empties. */
  lemma NodeGetsCredit(v: View, id: U32, window: nat)
    requires Running(v, id, window) && v.cn != [] && v.cn[0].CreditMsg?
    ensures v.n.value.credit + v.cn[0].delta <= window
    ensures var n := v.n.value.(credit := v.n.value.credit + v.cn[0].delta);
            var f := Flush(id, n, window);
            ViewInv(if f.exited
                    then v.(n := None, closed := Some(f.stream.peerClosed), cn := v.cn[1..], nc := v.nc + f.msgs)
                    else v.(n := Some(f.stream), cn := v.cn[1..], nc := v.nc + f.msgs), id, window)
  {
    hide Flush, DataPart, Tokens, QueueTokens, DataLen;
    var c, n := v.c.value, v.n.value.(credit := v.n.value.credit + v.cn[0].delta);
    TrafficPop(v.cn, id, true);
    CreditLeg(v.cn, Owed(c), v.sentC, v.arrN, v.n.value.peerClosed);
    assert Owed(n) == Owed(v.n.value);
    FlushLeg(id, n, v.nc, v.sentN, v.gotC, c.peerClosed, false);
    FlushShape(id, n, window);
    var d, f, w := DataPart(id, n), Flush(id, n, window), v.(cn := v.cn[1..]);
    if f.exited {
      NodeCloses(w, d.stream, v.nc + d.msgs, id, window, d.stream.status);
      Assoc(v.nc, d.msgs, [ExitMsg(id, d.stream.status)]);
    } else {
      assert f.msgs == d.msgs;
      DataPartSound(id, n);
      LiveFromParts(w.(nc := v.nc + d.msgs), c, d.stream, w.cn, id, window);
    }
  }

  // ---- deliveries to the controller ---------------------------------------------------------------------------

  function Received(c: Stream, m: Msg): Stream
    requires m.DataMsg?
  {
    c.(recv := Deliver(c.recv, |m.bytes|), peerClosed := m.end)
  }

  lemma RunningClientGetsData(v: View, id: U32, window: nat)
    requires Running(v, id, window) && v.nc != [] && v.nc[0].DataMsg?
    ensures !v.c.value.peerClosed && HasRoom(v.c.value.recv, window, |v.nc[0].bytes|)
    ensures Running(v.(c := Some(Received(v.c.value, v.nc[0])), nc := v.nc[1..], gotC := v.gotC + MsgTokens(v.nc[0])),
                    id, window)
  {
    var c, n, m := v.c.value, v.n.value, v.nc[0];
    assert IsData(m, id, false);
    DataLeg(v.nc, Owed(n), v.sentN, v.gotC, c.peerClosed);
    var c' := Received(c, m);
    assert Owed(c') == Owed(c) && ClientOk(c', v.sentC);
    assert Traffic(v.nc[1..], id, false);
    LiveFromParts(v.(nc := v.nc[1..], gotC := v.gotC + MsgTokens(m)), c', n, v.cn, id, window);
  }

  lemma ExitingClientGetsData(v: View, id: U32, window: nat)
    requires Exiting(v, id, window) && v.nc[0].DataMsg?
    ensures !v.c.value.peerClosed && HasRoom(v.c.value.recv, window, |v.nc[0].bytes|)
    ensures Exiting(v.(c := Some(Received(v.c.value, v.nc[0])), nc := v.nc[1..], gotC := v.gotC + MsgTokens(v.nc[0])),
                    id, window)
  {
    ExitingFront(v, id, window);
    DataLeg(v.nc, [], v.sentN, v.gotC, v.c.value.peerClosed);
    var c' := Received(v.c.value, v.nc[0]);
    assert Owed(c') == Owed(v.c.value) && ClientOk(c', v.sentC);
    ExitingFromParts(v.(c := Some(c'), nc := v.nc[1..], gotC := v.gotC + MsgTokens(v.nc[0])), id, window,
                     v.nc[1..|v.nc| - 1]);
  }

  lemma ClientGetsData(v: View, id: U32, window: nat)
    requires ViewInv(v, id, window) && v.nc != [] && v.nc[0].DataMsg?
    ensures v.c.Some? && !v.c.value.peerClosed && HasRoom(v.c.value.recv, window, |v.nc[0].bytes|)
    ensures ViewInv(v.(c := Some(Received(v.c.value, v.nc[0])), nc := v.nc[1..], gotC := v.gotC + MsgTokens(v.nc[0])),
                    id, window)
  {
    if Running(v, id, window) {
      RunningClientGetsData(v, id, window);
    } else {
      ExitingClientGetsData(v, id, window);
    }
  }

  /** Ahead of the EXIT there is only well-formed traffic. */
  lemma ExitingFront(v: View, id: U32, window: nat)
    requires Exiting(v, id, window) && !v.nc[0].ExitMsg?
    ensures |v.nc| > 1 && (IsData(v.nc[0], id, false) || IsCredit(v.nc[0], id))
    ensures v.nc[1..] == v.nc[1..|v.nc| - 1] + [ExitMsg(id, v.exitSent.value)]
    ensures Traffic(v.nc[1..|v.nc| - 1], id, false)
  {
    var front := v.nc[..|v.nc| - 1];
    assert front[0] == v.nc[0];
    SplitLast(v.nc[1..]);
    assert v.nc[1..][..|v.nc| - 2] == v.nc[1..|v.nc| - 1] == front[1..];
  }

  lemma RunningClientGetsCredit(v: View, id: U32, window: nat)
    requires Running(v, id, window) && v.nc != [] && v.nc[0].CreditMsg?
    ensures v.c.value.credit + v.nc[0].delta <= window
    ensures var d := DataPart(id, v.c.value.(credit := v.c.value.credit + v.nc[0].delta));
            && !d.stream.exitPending
            && Running(v.(c := Some(d.stream), nc := v.nc[1..], cn := v.cn + d.msgs), id, window)
  {
    var c, n := v.c.value.(credit := v.c.value.credit + v.nc[0].delta), v.n.value;
    assert Owed(c) == Owed(v.c.value);
    var d := DataPart(id, c);
    TrafficPop(v.nc, id, false);
    CreditLeg(v.nc, Owed(n), v.sentN, v.gotC, c.peerClosed);
    FlushLeg(id, c, v.cn, v.sentC, v.arrN, n.peerClosed, true);
    LiveFromParts(v.(nc := v.nc[1..]), d.stream, n, v.cn + d.msgs, id, window);
  }

  lemma ExitingClientGetsCredit(v: View, id: U32, window: nat)
    requires Exiting(v, id, window) && v.nc[0].CreditMsg?
    ensures v.c.value.credit + v.nc[0].delta <= window
    ensures var d := DataPart(id, v.c.value.(credit := v.c.value.credit + v.nc[0].delta));
            && !d.stream.exitPending
            && Exiting(v.(c := Some(d.stream), nc := v.nc[1..], cn := v.cn + d.msgs), id, window)
  {
    var c := v.c.value.(credit := v.c.value.credit + v.nc[0].delta);
    assert Owed(c) == Owed(v.c.value);
    var d := DataPart(id, c);
    ExitingFront(v, id, window);
    CreditLeg(v.nc, [], v.sentN, v.gotC, c.peerClosed);
    FlushLeg(id, c, v.cn, v.sentC, v.arrN, v.closed.value, true);
    ExitingFromParts(v.(c := Some(d.stream), nc := v.nc[1..], cn := v.cn + d.msgs), id, window, v.nc[1..|v.nc| - 1]);
  }

  lemma ClientGetsCredit(v: View, id: U32, window: nat)
    requires ViewInv(v, id, window) && v.nc != [] && v.nc[0].CreditMsg?
    ensures v.c.Some? && v.c.value.credit + v.nc[0].delta <= window
    ensures var d := DataPart(id, v.c.value.(credit := v.c.value.credit + v.nc[0].delta));
            && !d.stream.exitPending
            && ViewInv(v.(c := Some(d.stream), nc := v.nc[1..], cn := v.cn + d.msgs), id, window)
  {
    if Running(v, id, window) {
      RunningClientGetsCredit(v, id, window);
    } else {
      ExitingClientGetsCredit(v, id, window);
    }
  }

  /** EXIT is the last message of its stream. */
  lemma ExitIsLast(v: View, id: U32, window: nat)
    requires ViewInv(v, id, window)
    ensures v.nc != [] && v.nc[0].ExitMsg? ==> Exiting(v, id, window) && |v.nc| == 1
  {
    if Running(v, id, window) && v.nc != [] {
      assert IsData(v.nc[0], id, false) || IsCredit(v.nc[0], id);
    } else if Exiting(v, id, window) && |v.nc| > 1 {
      assert v.nc[..|v.nc| - 1][0] == v.nc[0];
    }
  }

  /** When EXIT reaches the controller, it has received exactly what the node sent, and the status the node reported. */
  lemma ClientGetsExit(v: View, id: U32, window: nat)
    requires ViewInv(v, id, window) && v.nc != [] && v.nc[0].ExitMsg?
    ensures v.c.Some? && v.exitSent == Some(v.nc[0].status) && v.gotC == v.sentN
    ensures ViewInv(v.(c := None, nc := v.nc[1..]), id, window)
  {
    ExitIsLast(v, id, window);
    assert v.nc == [v.nc[0]];
    FoldsOne(v.nc[0]);
    assert v.gotC + [] + [] == v.gotC;
    var t := v.arrN + Tokens(v.cn);
    PrefixEndLast(t, Owed(v.c.value));
    assert t + [] == t;
    assert Gone(v.(c := None, nc := v.nc[1..]), id, window);
  }

  lemma PrefixEndLast(a: seq<Token>, b: seq<Token>)
    requires EndLast(a + b)
    ensures EndLast(a)
  {
    forall i | 0 <= i < |a| - 1 ensures a[i] != End {
      assert (a + b)[i] == a[i];
    }
  }
}
