/** The protocol's laws stated on whole byte-level runs, and the run in which an OPEN crosses a GOAWAY. */
module RunTheorems {
  import opened Wire
  import opened FrameCodec
  import opened OpenPayload
  import opened Messages
  import opened SessionSpec
  import opened FlowFacts
  import opened TwoParty
  import opened HonestRuns
  import opened Options
  import opened ControlPayloads
  import opened StreamInvariant
  import SessionHistory

  /** In every state a run reaches, the bytes travelling are the messages of `w`, and per stream and direction the
      sender's credit, the data in flight, the receiver's unconsumed and unadvertised bytes and the credit in flight
      add up to the window: from the moment the controller opens the stream until the node's EXIT leaves. From then on
      what is left stays within the window. After a refusal the node's side stays as it was. */
  lemma CreditConservedInEveryRun(window: nat, steps: seq<Step>, id: U32) returns (w: World)
    requires Honest(window)
    ensures Conveys(NetRun(window, steps), w) && (!Refused(window, steps) ==> Carrying(NetRun(window, steps), w))
    ensures var net := NetRun(window, steps);
            && (id in net.c.streams && id !in net.n.closed ==>
                  CreditAddsUp(net.c.streams[id], NodeSide(net.n, id, window), Only(w.cn, id), Only(w.nc, id), window))
            && (id in net.c.streams && id in net.n.closed ==>
                  CreditWithin(net.c.streams[id], Only(w.cn, id), Only(w.nc, id), window))
            && (id !in net.c.streams ==> DataLen(Only(w.cn, id)) <= window && Only(w.nc, id) == [])
  {
    hide NetRun, Refused, TrueStdin, Honest, Inv, EncodeMsgs, DataLen, CreditSum, Only, TrueHistory, CreditAddsUp, CreditWithin;
    w := RunKeepsHistory(window, steps);
    FailsIffRefused(window, steps);
    Unfailed(w, window);
    CreditIsConserved(w, window, id);
  }

  lemma EmptyWire(q: seq<Msg>)
    ensures |q| > 0 ==> |EncodeMsgs(q)| >= HEADER_SIZE
  {
    if |q| > 0 {
      assert |EncodeMsg(q[0])| >= HEADER_SIZE;
    }
  }

  /** No run gets stuck on credit: with nothing in flight and everything consumed, a stream either end holds is held by
      both, has its full credit back at both ends, and owes no data, END_STREAM or EXIT. */
  lemma NoDeadlockInAnyRun(window: nat, steps: seq<Step>, id: U32)
    requires Honest(window) && !Refused(window, steps)
    requires var net := NetRun(window, steps);
             && net.cIn + net.toC == [] && net.nIn + net.toN == []
             && (id in net.c.streams || id in net.n.streams)
             && (id in net.c.streams ==> net.c.streams[id].recv.outstanding == 0)
             && (id in net.n.streams ==> net.n.streams[id].recv.outstanding == 0)
    ensures var net := NetRun(window, steps);
            && id in net.c.streams && id in net.n.streams
            && Replenished(net.c.streams[id], window) && Replenished(net.n.streams[id], window)
  {
    hide NetRun, Refused, TrueStdin, Inv, EncodeMsgs, Replenished, TrueHistory, FitsFrame;
    var w := RunKeepsInvariant(window, steps);
    EmptyWire(w.cn);
    EmptyWire(w.nc);
    NoCreditDeadlock(w, window, id);
  }

  // What a quiet run has delivered.

  /** The status the controller's handler was given last on stream `id`. */
  function ExitSeen(window: nat, steps: seq<Step>, id: U32): Option<ExitStatus> {
    if steps == [] then None
    else
      var before := steps[..|steps| - 1];
      var calls := ControllerCallbacks(NetRun(window, before), steps[|steps| - 1]);
      if calls != [] && calls[0].OnExit? && calls[0].id == id then Some(calls[0].status) else ExitSeen(window, before, id)
  }

  /** `onExit` is called for an EXIT that is heard, and for nothing else. */
  lemma ExitIsHeard(net: Net, step: Step, id: U32, status: ExitStatus)
    requires !NetNext(net, step).c.failed && !net.c.failed
    ensures var calls := ControllerCallbacks(net, step);
            && (calls != [] && calls[0] == OnExit(id, status) <==> SessionHistory.Got(ExitMsg(id, status)) in ControllerHears(net, step))
            && (calls != [] && calls[0].OnExit? ==> |calls| == 1)
  {
    hide ParseFront, Interpret, EncodeMsgs, Call, Valid, Flush;
  }

  lemma {:induction false} ExitSeenIff(window: nat, steps: seq<Step>, id: U32)
    requires Honest(window)
    ensures ExitSeen(window, steps, id).Some? <==> SessionHistory.ExitGot(ControllerHistory(window, steps), id)
    ensures ExitSeen(window, steps, id).Some? ==> ExitSeen(window, steps, id) == Reported(window, steps, id)
  {
    if steps != [] {
      var before, last := steps[..|steps| - 1], steps[|steps| - 1];
      var net, calls := NetRun(window, before), ControllerCallbacks(NetRun(window, before), last);
      ExitSeenIff(window, before, id);
      FailsIffRefused(window, before);
      FailsIffRefused(window, steps);
      assert ControllerHistory(window, steps) == ControllerHistory(window, before) + ControllerHears(net, last);
      ReportedStays(window, steps, id);
      hide NetRun, NetNext, Refused, Reported, ControllerHistory, ControllerCallbacks, ControllerHears, Honest;
      if calls != [] && calls[0].OnExit? && calls[0].id == id {
        OnlyCallback(net, last, calls[0]);
        ExitNeverOvertakesData(window, before, id, calls[0].status);
        assert NetRun(window, steps) == NetNext(net, last) by { RunStep(window, steps); }
        ExitIsHeard(net, last, id, calls[0].status);
      } else {
        assert NetRun(window, steps) == NetNext(net, last) by { RunStep(window, steps); }
        forall x | x in ControllerHears(net, last) ensures !(x.Got? && x.m.ExitMsg? && x.m.id == id) {
          if x.Got? && x.m.ExitMsg? && x.m.id == id { ExitIsHeard(net, last, id, x.m.status); }
        }
      }
    }
  }

  lemma RunStep(window: nat, steps: seq<Step>)
    requires steps != []
    ensures NetRun(window, steps) == NetNext(NetRun(window, steps[..|steps| - 1]), steps[|steps| - 1])
  {
    hide NetNext;
  }

  lemma OnlyCallback(net: Net, step: Step, c: Callback)
    requires ControllerCallbacks(net, step) != [] && ControllerCallbacks(net, step)[0] == c && c.OnExit?
    ensures ControllerCallbacks(net, step) == [c] && step == ControllerDispatch
  {
    hide ParseFront, Interpret, Valid, Flush;
  }

  /** The first report stands. */
  lemma ReportedStays(window: nat, steps: seq<Step>, id: U32)
    requires steps != []
    ensures Reported(window, steps[..|steps| - 1], id).Some? ==>
              Reported(window, steps, id) == Reported(window, steps[..|steps| - 1], id)
    ensures steps[|steps| - 1] == ControllerDispatch ==>
              Reported(window, steps, id) == Reported(window, steps[..|steps| - 1], id)
  {
    var before, last := steps[..|steps| - 1], steps[|steps| - 1];
    var h, heard := NodeHistory(window, before), NodeHears(NetRun(window, before), last);
    assert h + [] == h;
    assert NodeHistory(window, steps) == h + (if NetRun(window, steps).n.failed then [] else heard);
    AtMostOne(NetRun(window, before), last);
    hide NetRun, SessionHistory.ExitAsked, NodeHistory, NodeHears;
    if heard != [] {
      assert heard == [heard[0]];
      SessionHistory.Grows(Node, h, heard[0], id);
    }
  }

  lemma AtMostOne(net: Net, step: Step)
    ensures |NodeHears(net, step)| <= 1 && (step == ControllerDispatch ==> NodeHears(net, step) == [])
  {
    hide ParseFront, Interpret;
  }

  predicate Quiet(net: Net) {
    net.cIn + net.toC == [] && net.nIn + net.toN == []
  }

  /** Nothing the node was given to send gets stuck: once the bytes have all arrived and the controller has consumed what it
      was given on a stream, everything handed to the node's `sendData` has been delivered, and the exit it reported too. */
  lemma OutputArrives(window: nat, steps: seq<Step>, id: U32)
    requires Honest(window) && !Refused(window, steps) && Quiet(NetRun(window, steps))
    requires SessionHistory.Unread(ControllerHistory(window, steps), id) == 0
    ensures Delivered(window, steps, id) == Accepted(window, steps, id)
    ensures Reported(window, steps, id).Some? ==> ExitSeen(window, steps, id) == Reported(window, steps, id)
  {
    hide NetRun, Refused, EncodeMsgs, FitsFrame, Delivered, Accepted, Reported, Inv, ExitSeen, TrueStdin, SessionHistory.Unread, SessionHistory.ExitGot;
    var w := RunKeepsInvariant(window, steps);
    EmptyWire(w.cn);
    EmptyWire(w.nc);
    assert TrueHistory(window, steps, w, id);
    ControllerIsRecorded(window, steps);
    Unfailed(w, window);
    assert NetRun(window, steps).c.(failed := false) == w.c;
    ControllerRecord(w, window, ControllerHistory(window, steps), id);
    hide ControllerHistory;
    QuietOutput(w, window, id);
    if Reported(window, steps, id).Some? { ExitSeenIff(window, steps, id); }
  }

  /** What the controller's history says of a stream in a state of the two sessions. */
  lemma ControllerRecord(w: World, window: nat, h: seq<SessionHistory.Happening>, id: U32)
    requires SessionHistory.Recorded(Controller, window, h, SessionHistory.LifeOf(Controller, window, h))
    requires SessionHistory.LifeOf(Controller, window, h).ep == w.c && Inv(w, window)
    ensures id in w.c.streams ==> w.c.streams[id].recv.outstanding == SessionHistory.Unread(h, id)
    ensures id !in w.c.streams && ViewOf(w, id) != UNISSUED ==> SessionHistory.ExitGot(h, id)
  {
    var life := SessionHistory.LifeOf(Controller, window, h);
    assert SessionHistory.RecordOf(Controller, window, h, id, life);
    hide SessionHistory.LifeOf, Streams, Only, SessionHistory.Told, SessionHistory.ExitAsked, SessionHistory.MaySend, SessionHistory.Opened, SessionHistory.Unread, SessionHistory.ExitGot, SessionHistory.Granted, SessionHistory.Arrived, OpensInOrder, OpensFirst;
    if ViewOf(w, id) != UNISSUED { KnownIsIssued(w, id); }
    hide ViewOf;
  }

  lemma QuietOutput(w: World, window: nat, id: U32)
    requires Inv(w, window) && |w.cn| == 0 && |w.nc| == 0
    requires id in w.c.streams ==> w.c.streams[id].recv.outstanding == 0
    ensures Past(w.gotC, id) == Past(w.sentN, id)
    ensures Look(w.exitSent, id).Some? ==> id !in w.c.streams && ViewOf(w, id) != UNISSUED
  {
    hide ViewInv;
    var v := ViewOf(w, id);
    assert |v.cn| == 0 && |v.nc| == 0;
    QuietView(v, id, window);
  }

  lemma QuietView(v: View, id: U32, window: nat)
    requires ViewInv(v, id, window) && window > 0 && |v.cn| == 0 && |v.nc| == 0
    requires v.c.Some? ==> v.c.value.recv.outstanding == 0
    ensures v.gotC == v.sentN && (v.exitSent.Some? ==> v.c.None? && v != UNISSUED)
  {
    hide Live, Traffic, Carried, ClientOk;
    if v.c.Some? {
      QuietPhase(v, id, window);
      hide ViewInv;
      QuietRunning(v, id, window);
    }
  }

  lemma QuietRunning(v: View, id: U32, window: nat)
    requires Running(v, id, window) && window > 0 && |v.cn| == 0 && |v.nc| == 0 && v.c.value.recv.outstanding == 0
    ensures v.gotC == v.sentN && v.exitSent.None?
  {
    hide Live, SenderOk, Replenished, DataLen, CreditSum;
    RunningParts(v, id, window);
    FullCredit(v.n.value.credit, v.nc, v.c.value.recv, v.cn, window);
    FullCreditOwesNothing(v.n.value, v.sentN, window);
    NothingQueued(v, id, window);
  }

  lemma NothingQueued(v: View, id: U32, window: nat)
    requires Running(v, id, window) && Replenished(v.n.value, window) && |v.nc| == 0
    ensures v.gotC == v.sentN && v.exitSent.None?
  {
    assert Owed(v.n.value) == [] && Tokens(v.nc) == [];
    assert v.gotC + [] + [] == v.gotC;
  }

  /** The same towards the node, as long as no exit was reported there. */
  lemma StdinArrives(window: nat, steps: seq<Step>, id: U32)
    requires Honest(window) && !Refused(window, steps) && Quiet(NetRun(window, steps))
    requires SessionHistory.Unread(NodeHistory(window, steps), id) == 0 && Reported(window, steps, id).None?
    ensures StdinDelivered(window, steps, id) == StdinAccepted(window, steps, id)
  {
    hide NetRun, Refused, EncodeMsgs, FitsFrame, StdinDelivered, StdinAccepted, Reported, Inv, SessionHistory.Unread;
    var w := RunKeepsInvariant(window, steps);
    EmptyWire(w.cn);
    EmptyWire(w.nc);
    assert TrueStdin(window, steps, w, id) && TrueHistory(window, steps, w, id);
    NodeIsRecorded(window, steps);
    Unfailed(w, window);
    assert NetRun(window, steps).n.(failed := false) == w.n;
    NodeRecord(w, window, NodeHistory(window, steps), id);
    ReportedMeans(window, steps, id);
    hide NodeHistory, SessionHistory.LifeOf, SessionHistory.Recorded;
    QuietInput(w, window, id);
  }

  lemma ReportedMeans(window: nat, steps: seq<Step>, id: U32)
    ensures Reported(window, steps, id) == SessionHistory.ExitAsked(Node, NodeHistory(window, steps), id)
  {
  }

  lemma NodeRecord(w: World, window: nat, h: seq<SessionHistory.Happening>, id: U32)
    requires SessionHistory.Recorded(Node, window, h, SessionHistory.LifeOf(Node, window, h))
    requires SessionHistory.LifeOf(Node, window, h).ep == w.n
    ensures id in w.n.streams ==> w.n.streams[id].recv.outstanding == SessionHistory.Unread(h, id)
    ensures id in w.n.closed ==> SessionHistory.ExitAsked(Node, h, id).Some?
  {
    var life := SessionHistory.LifeOf(Node, window, h);
    assert SessionHistory.RecordOf(Node, window, h, id, life);
    hide SessionHistory.LifeOf, Only, SessionHistory.Told, SessionHistory.ExitAsked, SessionHistory.MaySend, SessionHistory.Opened, SessionHistory.Unread, SessionHistory.ExitGot, SessionHistory.Granted, SessionHistory.Arrived;
  }

  lemma QuietInput(w: World, window: nat, id: U32)
    requires Inv(w, window) && |w.cn| == 0 && |w.nc| == 0 && id !in w.n.closed
    requires id in w.n.streams ==> w.n.streams[id].recv.outstanding == 0
    ensures Past(w.arrN, id) == Past(w.sentC, id)
  {
    hide ViewInv;
    var v := ViewOf(w, id);
    assert |v.cn| == 0 && |v.nc| == 0;
    QuietInputView(v, id, window);
  }

  lemma QuietInputView(v: View, id: U32, window: nat)
    requires ViewInv(v, id, window) && window > 0 && |v.cn| == 0 && |v.nc| == 0 && v.closed.None?
    requires v.n.Some? ==> v.n.value.recv.outstanding == 0
    ensures v.arrN == v.sentC
  {
    hide Live, Traffic, Carried, ClientOk;
    if v.c.Some? {
      QuietPhase(v, id, window);
      hide ViewInv;
      QuietInputRunning(v, id, window);
    }
  }

  lemma QuietInputRunning(v: View, id: U32, window: nat)
    requires Running(v, id, window) && window > 0 && |v.cn| == 0 && |v.nc| == 0 && v.n.value.recv.outstanding == 0
    ensures v.arrN == v.sentC
  {
    hide Live, SenderOk, Replenished, DataLen, CreditSum;
    RunningParts(v, id, window);
    FullCredit(v.c.value.credit, v.cn, v.n.value.recv, v.nc, window);
    FullCreditOwesNothing(v.c.value, v.sentC, window);
    NoInputQueued(v, id, window);
  }

  lemma NoInputQueued(v: View, id: U32, window: nat)
    requires Running(v, id, window) && Replenished(v.c.value, window) && |v.cn| == 0
    ensures v.arrN == v.sentC
  {
    assert Owed(v.c.value) == [] && Tokens(v.cn) == [];
    assert v.arrN + [] + [] == v.arrN;
  }

  // The crossing.

  lemma RunMore(window: nat, steps: seq<Step>, step: Step)
    ensures NetRun(window, steps + [step]) == NetNext(NetRun(window, steps), step)
    ensures Crossed(window, steps + [step]) == (Crossed(window, steps) || Crosses(NetRun(window, steps), step))
    ensures Refused(window, steps + [step]) ==
            (Refused(window, steps) || Crosses(NetRun(window, steps), step) || Oversteps(NetRun(window, steps), step))
  {
    hide NetNext, Crosses, Oversteps;
    assert (steps + [step])[..|steps|] == steps;
  }

  function CrossingRun(r: OpenRequest): seq<Step> {
    ((([] + [ControllerCall(Open(r))]) + [NodeCall(GoAway)]) + [BytesToNode(|EncodeMsg(OpenMsg(1, r))|)]) + [NodeDispatch]
  }

  /** Opening a stream while the node announces that it goes away: the node fails on the OPEN. */
  lemma CrossingFailsTheNode(window: nat, r: OpenRequest)
    requires 0 < window <= DEFAULT_MAX_PAYLOAD && Valid(r) && |EncodeOpen(r)| <= DEFAULT_MAX_PAYLOAD
    ensures OpensFit(CrossingRun(r)) && Crossed(window, CrossingRun(r)) && NetRun(window, CrossingRun(r)).n.failed
  {
    hide NetRun, Refused, Crossed, EncodeOpen, ParseFront, EncodeMsgs, EncodeMsg, Valid;
    var open, bytes := ControllerCall(Open(r)), EncodeMsg(OpenMsg(1, r));
    var s1 := [] + [open];
    var s2 := s1 + [NodeCall(GoAway)];
    var s3 := s2 + [BytesToNode(|bytes|)];
    RunMore(window, [], open);
    RunMore(window, s1, NodeCall(GoAway));
    RunMore(window, s2, BytesToNode(|bytes|));
    RunMore(window, s3, NodeDispatch);
    BeforeAnything(window, []);
    OpenIsSent(window, r);
    var net := NetRun(window, s3);
    assert net.nIn == bytes && net.n.sentGoAway && !net.n.failed;
    OpenAtFront(r);
    RefusedFails(window, CrossingRun(r));
  }

  lemma BeforeAnything(window: nat, steps: seq<Step>)
    requires |steps| == 0
    ensures NetRun(window, steps) == Start(window)
  {
  }

  lemma OpenIsSent(window: nat, r: OpenRequest)
    requires Valid(r)
    ensures var o := CallOpen(NewEndpoint(Controller, window), r); o.msgs == [OpenMsg(1, r)]
    ensures EncodeMsgs([OpenMsg(1, r)]) == EncodeMsg(OpenMsg(1, r))
  {
    hide EncodeMsg;
    OneMessage(OpenMsg(1, r));
  }

  lemma OneMessage(m: Msg)
    ensures EncodeMsgs([m]) == EncodeMsg(m)
  {
    assert [m][1..] == [];
  }

  lemma OpenAtFront(r: OpenRequest)
    requires |EncodeOpen(r)| <= DEFAULT_MAX_PAYLOAD
    ensures ParseFront(EncodeMsg(OpenMsg(1, r)), DEFAULT_MAX_PAYLOAD) ==
            Complete(ToFrame(OpenMsg(1, r)), HEADER_SIZE + |EncodeOpen(r)|)
  {
    hide ParseFront, EncodeFrame;
    FrontOfEncoded(ToFrame(OpenMsg(1, r)), [], DEFAULT_MAX_PAYLOAD);
    assert EncodeMsg(OpenMsg(1, r)) + [] == EncodeMsg(OpenMsg(1, r));
  }

  /** So "honest sessions never fail" is false without the condition on crossings, for every window. */
  lemma SomeHonestRunFails(window: nat) returns (steps: seq<Step>)
    requires Honest(window)
    ensures OpensFit(steps) && NetRun(window, steps).n.failed
  {
    var r := OpenRequest([[120]], []);
    OpenLength(r);
    assert r.argv[1..] == [];
    assert EncodedLength(r.argv) == 5 + EncodedLength(r.argv[1..]);
    assert |EncodeOpen(r)| == 14;
    steps := CrossingRun(r);
    hide NetRun, CrossingRun, EncodeOpen, OpensFit;
    CrossingFailsTheNode(window, r);
  }

  // The oversized OPEN.

  function OversizedRun(r: OpenRequest): seq<Step> {
    (([] + [ControllerCall(Open(r))]) + [BytesToNode(HEADER_SIZE)]) + [NodeDispatch]
  }

  /** `open` accepts every valid request, but the header of one that does not fit a frame poisons the node. */
  lemma OversizedOpenFailsTheNode(window: nat, r: OpenRequest)
    requires Valid(r) && |EncodeOpen(r)| > DEFAULT_MAX_PAYLOAD
    ensures Refused(window, OversizedRun(r)) && NetRun(window, OversizedRun(r)).n.failed
  {
    hide NetRun, Refused, EncodeOpen, ParseFront, EncodeMsgs, EncodeMsg, Valid, DecodeU32;
    var open, bytes := ControllerCall(Open(r)), EncodeMsg(OpenMsg(1, r));
    var s1 := [] + [open];
    var s2 := s1 + [BytesToNode(HEADER_SIZE)];
    RunMore(window, [], open);
    RunMore(window, s1, BytesToNode(HEADER_SIZE));
    RunMore(window, s2, NodeDispatch);
    BeforeAnything(window, []);
    OpenIsSent(window, r);
    var net := NetRun(window, s2);
    assert |bytes| >= HEADER_SIZE && net.nIn == bytes[..HEADER_SIZE] && !net.n.failed by { HeaderFits(OpenMsg(1, r)); }
    OversizedHeader(r);
    RefusedFails(window, OversizedRun(r));
  }

  lemma HeaderFits(m: Msg)
    ensures |EncodeMsg(m)| >= HEADER_SIZE
  {
  }

  lemma OversizedHeader(r: OpenRequest)
    requires Valid(r) && |EncodeOpen(r)| > DEFAULT_MAX_PAYLOAD
    ensures var bytes := EncodeMsg(OpenMsg(1, r));
            && |bytes| >= HEADER_SIZE && bytes[..HEADER_SIZE][0] == TYPE_OPEN
            && DecodeU32(bytes[..HEADER_SIZE][6..10]) > DEFAULT_MAX_PAYLOAD
  {
    hide EncodeU32, DecodeU32, EncodeOpen, Valid, EncodeFrame;
    var f := ToFrame(OpenMsg(1, r));
    var bytes := EncodeMsg(OpenMsg(1, r));
    OpenLength(r);
    EncodedSlices(f, []);
    assert bytes + [] == bytes;
    assert bytes[..HEADER_SIZE][6..10] == bytes[6..10];
    U32RoundTrip(|f.payload|);
  }

  /** Such a request: 129 arguments of the largest permitted size. */
  lemma SomeValidOpenIsOversized() returns (r: OpenRequest)
    ensures Valid(r) && |EncodeOpen(r)| > DEFAULT_MAX_PAYLOAD
  {
    var arg := seq(MAX_ARGUMENT_BYTES, _ => 120 as Byte);
    r := OpenRequest(seq(129, _ => arg), []);
    OpenLength(r);
    UniformLength(r.argv, MAX_ARGUMENT_BYTES);
    assert forall i | 0 <= i < |r.argv| :: ValidString(r.argv[i], MAX_ARGUMENT_BYTES);
  }

  lemma {:induction false} UniformLength(argv: seq<seq<Byte>>, size: nat)
    requires forall i | 0 <= i < |argv| :: |argv[i]| == size
    ensures EncodedLength(argv) == |argv| * (4 + size)
  {
    if |argv| > 0 { UniformLength(argv[1..], size); }
  }
}
