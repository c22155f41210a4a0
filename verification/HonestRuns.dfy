/** Two sessions joined by byte channels. Bytes arrive in arbitrary chunks; a `receive` is an arrival followed by the
    dispatch of its complete frames, between which handlers may call back into the session. */
module HonestRuns {
  import opened Wire
  import opened Options
  import opened FrameCodec
  import opened OpenPayload
  import opened ControlPayloads
  import opened Messages
  import opened CreditWindows
  import opened SessionSpec
  import opened FlowFacts
  import opened StreamInvariant
  import opened StreamSteps
  import opened TwoParty
  import opened TwoPartySteps
  import opened TwoPartyDeliveries
  import SessionHistory

  /** Each session, the bytes in its decoder, and the bytes still travelling to it. */
  datatype Net = Net(c: Endpoint, n: Endpoint, cIn: seq<Byte>, nIn: seq<Byte>, toC: seq<Byte>, toN: seq<Byte>)

  datatype Step =
    | ControllerCall(api: Api)
    | NodeCall(api: Api)
    | BytesToController(count: nat)
    | BytesToNode(count: nat)
    | ControllerDispatch
    | NodeDispatch

  function Start(window: nat): Net {
    Net(NewEndpoint(Controller, window), NewEndpoint(Node, window), [], [], [], [])
  }

  function Least(a: nat, b: nat): nat {
    if a < b then a else b
  }

  /** One decoder turn: the new session state, what is left in the decoder, and what was written in reply. */
  function DecodeOne(ep: Endpoint, buffer: seq<Byte>): (Endpoint, seq<Byte>, seq<Byte>) {
    if ep.failed then (ep, buffer, [])
    else
      match ParseFront(buffer, DEFAULT_MAX_PAYLOAD)
      case Partial => (ep, buffer, [])
      case TooLong => (ep.(failed := true), buffer, [])
      case Complete(f, size) =>
        var o := DispatchFrame(ep, f);
        (o.ep, buffer[size..], EncodeMsgs(o.msgs))
  }

  function NetNext(net: Net, step: Step): Net {
    match step
    case ControllerCall(api) =>
      var o := Call(net.c, api);
      net.(c := o.ep, toN := net.toN + EncodeMsgs(o.msgs))
    case NodeCall(api) =>
      var o := Call(net.n, api);
      net.(n := o.ep, toC := net.toC + EncodeMsgs(o.msgs))
    case BytesToController(count) =>
      var k := Least(count, |net.toC|);
      net.(cIn := net.cIn + net.toC[..k], toC := net.toC[k..])
    case BytesToNode(count) =>
      var k := Least(count, |net.toN|);
      net.(nIn := net.nIn + net.toN[..k], toN := net.toN[k..])
    case ControllerDispatch =>
      var (c, rest, reply) := DecodeOne(net.c, net.cIn);
      net.(c := c, cIn := rest, toN := net.toN + reply)
    case NodeDispatch =>
      var (n, rest, reply) := DecodeOne(net.n, net.nIn);
      net.(n := n, nIn := rest, toC := net.toC + reply)
  }

  function NetRun(window: nat, steps: seq<Step>): Net {
    if steps == [] then Start(window)
    else NetNext(NetRun(window, steps[..|steps| - 1]), steps[|steps| - 1])
  }

  /** Both ends use the same window, no larger than a frame. */
  predicate Honest(window: nat) {
    0 < window <= DEFAULT_MAX_PAYLOAD
  }

  predicate FitsFrame(step: Step) {
    step.ControllerCall? && step.api.Open? ==> |EncodeOpen(step.api.request)| <= DEFAULT_MAX_PAYLOAD
  }

  /** Every OPEN of the run fits a frame. */
  predicate OpensFit(steps: seq<Step>) {
    forall i | 0 <= i < |steps| :: FitsFrame(steps[i])
  }

  /** The node is about to dispatch an OPEN although it has sent GOAWAY. */
  predicate Crosses(net: Net, step: Step) {
    && step.NodeDispatch? && !net.n.failed && net.n.sentGoAway
    && ParseFront(net.nIn, DEFAULT_MAX_PAYLOAD).Complete?
    && ParseFront(net.nIn, DEFAULT_MAX_PAYLOAD).frame.kind == TYPE_OPEN
  }

  /** The node is about to look at the header of an OPEN that announces more than a frame may hold. */
  predicate Oversteps(net: Net, step: Step) {
    && step.NodeDispatch? && !net.n.failed
    && |net.nIn| >= HEADER_SIZE && net.nIn[0] == TYPE_OPEN && DecodeU32(net.nIn[6..10]) > DEFAULT_MAX_PAYLOAD
  }

  predicate Crossed(window: nat, steps: seq<Step>) {
    if steps == [] then false
    else
      var before := steps[..|steps| - 1];
      Crossed(window, before) || Crosses(NetRun(window, before), steps[|steps| - 1])
  }

  /** At some point of the run the node refuses an OPEN, for either reason. */
  predicate Refused(window: nat, steps: seq<Step>) {
    if steps == [] then false
    else
      var before, last := steps[..|steps| - 1], steps[|steps| - 1];
      Refused(window, before) || Crosses(NetRun(window, before), last) || Oversteps(NetRun(window, before), last)
  }

  /** The byte-level state carries exactly the messages of `w`. */
  predicate Carrying(net: Net, w: World) {
    && net.c == w.c && net.n == w.n
    && net.nIn + net.toN == EncodeMsgs(w.cn)
    && net.cIn + net.toC == EncodeMsgs(w.nc)
  }

  // ---- what the applications see ------------------------------------------------------------------------------

  /** Tokens that a callback hands to the application on stream `id`. */
  function CallTokens(calls: seq<Callback>, id: U32): seq<Token> {
    if calls != [] && calls[0].OnData? && calls[0].id == id then Sent(calls[0].channel, calls[0].bytes, calls[0].end) else []
  }

  /** Callbacks that a step makes at the controller. */
  function ControllerCallbacks(net: Net, step: Step): seq<Callback> {
    if step.ControllerDispatch? && !net.c.failed && ParseFront(net.cIn, DEFAULT_MAX_PAYLOAD).Complete?
    then DispatchFrame(net.c, ParseFront(net.cIn, DEFAULT_MAX_PAYLOAD).frame).calls
    else []
  }

  // ---- the histories of the two sessions ----------------------------------------------------------------------

  /** What one step asks of the node's session, or brings it. */
  function NodeHears(net: Net, step: Step): seq<SessionHistory.Happening> {
    match step
    case NodeCall(api) => [SessionHistory.Asked(api)]
    case NodeDispatch => SessionHistory.Heard(net.nIn)
    case _ => []
  }

  function ControllerHears(net: Net, step: Step): seq<SessionHistory.Happening> {
    match step
    case ControllerCall(api) => [SessionHistory.Asked(api)]
    case ControllerDispatch => SessionHistory.Heard(net.cIn)
    case _ => []
  }

  /** The calls made on the node's session and the messages it took, in order, until it fails. */
  function NodeHistory(window: nat, steps: seq<Step>): seq<SessionHistory.Happening> {
    if steps == [] then []
    else
      var before := steps[..|steps| - 1];
      NodeHistory(window, before) +
      if NetRun(window, steps).n.failed then [] else NodeHears(NetRun(window, before), steps[|steps| - 1])
  }

  function ControllerHistory(window: nat, steps: seq<Step>): seq<SessionHistory.Happening> {
    if steps == [] then []
    else
      var before := steps[..|steps| - 1];
      ControllerHistory(window, before) +
      if NetRun(window, steps).c.failed then [] else ControllerHears(NetRun(window, before), steps[|steps| - 1])
  }

  /** Everything handed to the node's `sendData` on stream `id` in a run, from `onOpen` until its data is ended or its exit
      reported. */
  function Accepted(window: nat, steps: seq<Step>, id: U32): seq<Token> {
    SessionHistory.Told(Node, NodeHistory(window, steps), id)
  }

  /** Everything handed to the controller's `sendData` on stdout of stream `id` in a run, from its `open` until its data is
      ended or `onExit`. */
  function StdinAccepted(window: nat, steps: seq<Step>, id: U32): seq<Token> {
    SessionHistory.Told(Controller, ControllerHistory(window, steps), id)
  }

  /** The status of the first `sendExit` at the node on stream `id` since `onOpen`. */
  function Reported(window: nat, steps: seq<Step>, id: U32): Option<ExitStatus> {
    SessionHistory.ExitAsked(Node, NodeHistory(window, steps), id)
  }

  /** What the session takes of a step. */
  function NodeAccepts(net: Net, step: Step, id: U32): seq<Token> {
    if step.NodeCall? && step.api.SendData? && step.api.id == id && Accepts(net.n, id, step.api.channel)
    then Sent(step.api.channel, step.api.bytes, step.api.end) else []
  }

  /** Everything the controller's handler was given on stream `id` in a run. */
  function Delivered(window: nat, steps: seq<Step>, id: U32): seq<Token> {
    if steps == [] then []
    else
      var before := steps[..|steps| - 1];
      Delivered(window, before, id) + CallTokens(ControllerCallbacks(NetRun(window, before), steps[|steps| - 1]), id)
  }

  /** Callbacks that a step makes at the node. */
  function NodeCallbacks(net: Net, step: Step): seq<Callback> {
    if step.NodeDispatch? && !net.n.failed && ParseFront(net.nIn, DEFAULT_MAX_PAYLOAD).Complete?
    then DispatchFrame(net.n, ParseFront(net.nIn, DEFAULT_MAX_PAYLOAD).frame).calls
    else []
  }

  function ControllerAccepts(net: Net, step: Step, id: U32): seq<Token> {
    if step.ControllerCall? && step.api.SendData? && step.api.id == id && Accepts(net.c, id, step.api.channel)
    then Sent(step.api.channel, step.api.bytes, step.api.end) else []
  }

  /** Everything the node's handler was given on stream `id` in a run. */
  function StdinDelivered(window: nat, steps: seq<Step>, id: U32): seq<Token> {
    if steps == [] then []
    else
      var before := steps[..|steps| - 1];
      StdinDelivered(window, before, id) + CallTokens(NodeCallbacks(NetRun(window, before), steps[|steps| - 1]), id)
  }

  /** The logs of `w` at stream `id` grew by what the step did. */
  predicate Logged(net: Net, step: Step, w: World, w': World, id: U32) {
    && Past(w'.sentN, id) == Past(w.sentN, id) + NodeAccepts(net, step, id)
    && Past(w'.gotC, id) == Past(w.gotC, id) + CallTokens(ControllerCallbacks(net, step), id)
    && Look(w'.exitSent, id) ==
       if step.NodeCall? && step.api.SendExit? && step.api.id == id && TakesExit(net.n, id)
       then Some(step.api.status) else Look(w.exitSent, id)
  }

  /** The same towards the node. What reaches a stream it has closed is discarded without a callback. */
  predicate StdinLogged(net: Net, step: Step, w: World, w': World, id: U32) {
    && Past(w'.sentC, id) == Past(w.sentC, id) + ControllerAccepts(net, step, id)
    && (id in w.n.closed ==>
          && id in w'.n.closed && CallTokens(NodeCallbacks(net, step), id) == [] && Past(w.arrN, id) <= Past(w'.arrN, id))
    && (id !in w.n.closed ==> Past(w'.arrN, id) == Past(w.arrN, id) + CallTokens(NodeCallbacks(net, step), id))
  }

  // ---- message sizes ------------------------------------------------------------------------------------------

  lemma {:induction false} LenInSum(q: seq<Msg>, i: nat)
    requires i < |q|
    ensures MsgLen(q[i]) <= DataLen(q)
  {
    if i > 0 {
      LenInSum(q[1..], i - 1);
    }
  }

  lemma FrontsFit(v: View, id: U32, window: nat)
    requires ViewInv(v, id, window)
    ensures v.cn != [] && v.cn[0].DataMsg? ==> |v.cn[0].bytes| <= window
    ensures v.nc != [] && v.nc[0].DataMsg? ==> |v.nc[0].bytes| <= window
  {
    if v.cn != [] {
      LenInSum(v.cn, 0);
    }
    if v.nc != [] {
      LenInSum(v.nc, 0);
    }
  }

  lemma FrontsWellFormed(v: View, id: U32, window: nat)
    requires ViewInv(v, id, window) && id != 0
    ensures v.cn != [] && !v.cn[0].OpenMsg? ==> WellFormed(v.cn[0])
    ensures v.nc != [] ==> WellFormed(v.nc[0])
  {
    if v.cn != [] && !v.cn[0].OpenMsg? {
      FrontPhase(v, id, window);
      TrafficPop(v.cn, id, true);
    }
    if v.nc != [] {
      if Running(v, id, window) {
        TrafficPop(v.nc, id, false);
      } else if Exiting(v, id, window) && !v.nc[0].ExitMsg? {
        ExitingFront(v, id, window);
      }
    }
  }

  lemma SmallPayloads(m: Msg)
    ensures m.CreditMsg? || m.ExitMsg? || m.PingMsg? || m.PongMsg? || m.GoAwayMsg? ==> |ToFrame(m).payload| <= 5
    ensures m.DataMsg? ==> ToFrame(m).payload == m.bytes
    ensures m.OpenMsg? ==> ToFrame(m).payload == EncodeOpen(m.request)
  {
  }

  /** What is next on either channel can be decoded by the far end, unless it is an oversized OPEN. */
  lemma FrontsSendable(w: World, window: nat)
    requires Inv(w, window)
    ensures w.cn != [] && Fitting(w.cn[0]) ==> Sendable(w.cn[0])
    ensures w.cn != [] && w.cn[0].OpenMsg? ==> Valid(w.cn[0].request)
    ensures w.nc != [] ==> Sendable(w.nc[0])
  {
    hide ViewInv, EncodeOpen, Valid;
    if w.cn != [] {
      SmallPayloads(w.cn[0]);
      assert OpenValid(w.cn[0]);
      if IsStreamMsg(w.cn[0]) {
        StreamFront(w, w.cn[0].id, window);
        FrontView(w);
      }
    }
    if w.nc != [] {
      SmallPayloads(w.nc[0]);
      if IsStreamMsg(w.nc[0]) {
        StreamFront(w, w.nc[0].id, window);
        FrontViewC(w);
        NoOpenToController(w, window);
      }
    }
  }

  lemma StreamFront(w: World, id: U32, window: nat)
    requires Inv(w, window)
    ensures var v := ViewOf(w, id);
            && (v.cn != [] || v.nc != [] ==> id != 0)
            && (v.cn != [] && !v.cn[0].OpenMsg? ==> WellFormed(v.cn[0]))
            && (v.nc != [] ==> WellFormed(v.nc[0]))
            && (v.cn != [] && v.cn[0].DataMsg? ==> |v.cn[0].bytes| <= window)
            && (v.nc != [] && v.nc[0].DataMsg? ==> |v.nc[0].bytes| <= window)
  {
    hide ViewInv;
    var v := ViewOf(w, id);
    FrontsFit(v, id, window);
    if id != 0 {
      FrontsWellFormed(v, id, window);
    } else {
      assert v == UNISSUED;
    }
  }

  // ---- simulation ---------------------------------------------------------------------------------------------

  lemma WireGrows(buffer: seq<Byte>, wire: seq<Byte>, q: seq<Msg>, msgs: seq<Msg>)
    requires buffer + wire == EncodeMsgs(q)
    ensures buffer + (wire + EncodeMsgs(msgs)) == EncodeMsgs(q + msgs)
  {
    hide *;
    EncodeMsgsAppend(q, msgs);
    Assoc(buffer, wire, EncodeMsgs(msgs));
  }

  lemma WireMoves(buffer: seq<Byte>, wire: seq<Byte>, k: nat)
    requires k <= |wire|
    ensures (buffer + wire[..k]) + wire[k..] == buffer + wire
  {
  }

  /** A decoder turn on an honest byte stream either waits or dispatches exactly the next message. */
  lemma DecodeHonest(ep: Endpoint, buffer: seq<Byte>, wire: seq<Byte>, q: seq<Msg>)
    requires !ep.failed && buffer + wire == EncodeMsgs(q) && (q != [] ==> Sendable(q[0]))
    ensures var (ep', rest, reply) := DecodeOne(ep, buffer);
            || (!ParseFront(buffer, DEFAULT_MAX_PAYLOAD).Complete? && ep' == ep && rest == buffer && reply == [])
            || (&& q != [] && ParseFront(buffer, DEFAULT_MAX_PAYLOAD) == Complete(ToFrame(q[0]), |EncodeMsg(q[0])|)
                && ep' == Dispatch(ep, q[0]).ep && rest + wire == EncodeMsgs(q[1..])
                && reply == EncodeMsgs(Dispatch(ep, q[0]).msgs))
  {
    hide ParseFront, EncodeMsg, EncodeMsgs, Dispatch, ToFrame, Interpret, Sendable;
    FrontOfHonestStream(buffer, wire, q);
  }

  lemma OpenKind(m: Msg)
    ensures ToFrame(m).kind == TYPE_OPEN <==> m.OpenMsg?
  {
  }

  predicate AllFitting(q: seq<Msg>) {
    forall i | 0 <= i < |q| :: Fitting(q[i])
  }

  /** `w'` is reached from `w` by what `step` does, and the logs of both directions say so. */
  predicate Matches(net: Net, step: Step, w: World, w': World, window: nat) {
    && Carrying(NetNext(net, step), w') && Inv(w', window)
    && (AllFitting(w.cn) && FitsFrame(step) ==> AllFitting(w'.cn))
    && (forall id: U32 :: Logged(net, step, w, w', id))
    && (forall id: U32 :: StdinLogged(net, step, w, w', id))
  }

  /** One byte-level step is matched by at most one message-level step. */
  lemma Simulate(net: Net, w: World, step: Step, window: nat) returns (w': World)
    requires Carrying(net, w) && Inv(w, window) && !Crosses(net, step) && !Oversteps(net, step)
    ensures Matches(net, step, w, w', window)
  {
    hide Matches, Inv, Logged, StdinLogged;
    match step
    case ControllerCall(api) => w' := SimulateControllerCall(net, w, api, window);
    case NodeCall(api) => w' := SimulateNodeCall(net, w, api, window);
    case BytesToController(_) =>
      w' := w;
      SimulateArrival(net, w, step, window);
    case BytesToNode(_) =>
      w' := w;
      SimulateArrival(net, w, step, window);
    case ControllerDispatch => w' := SimulateControllerDispatch(net, w, window);
    case NodeDispatch => w' := SimulateNodeDispatch(net, w, window);
  }

  lemma SimulateArrival(net: Net, w: World, step: Step, window: nat)
    requires Carrying(net, w) && Inv(w, window) && (step.BytesToController? || step.BytesToNode?)
    ensures Matches(net, step, w, w, window)
  {
    hide Inv, Logged, StdinLogged, EncodeMsgs, AllFitting;
    if step.BytesToController? {
      WireMoves(net.cIn, net.toC, Least(step.count, |net.toC|));
    } else {
      WireMoves(net.nIn, net.toN, Least(step.count, |net.toN|));
    }
    forall id: U32 ensures Logged(net, step, w, w, id) && StdinLogged(net, step, w, w, id) {
      QuietLogged(net, step, w, w, id);
      QuietStdin(net, step, w, w, id);
    }
  }

  lemma SimulateControllerCall(net: Net, w: World, api: Api, window: nat) returns (w': World)
    requires Carrying(net, w) && Inv(w, window)
    ensures Matches(net, ControllerCall(api), w, w', window)
  {
    hide Inv, Call, EncodeMsgs, Logged, StdinLogged, AllFitting;
    w' := ControllerCalls(w, api);
    ControllerStep(w, window, api);
    WireGrows(net.nIn, net.toN, w.cn, Call(w.c, api).msgs);
    CallFits(w.c, api, w.cn);
    forall id: U32 ensures Logged(net, ControllerCall(api), w, w', id) && StdinLogged(net, ControllerCall(api), w, w', id) {
      QuietLogged(net, ControllerCall(api), w, w', id);
      ControllerCallLogged(net, w, api, id);
    }
  }

  lemma SimulateNodeCall(net: Net, w: World, api: Api, window: nat) returns (w': World)
    requires Carrying(net, w) && Inv(w, window)
    ensures Matches(net, NodeCall(api), w, w', window)
  {
    hide Inv, Call, EncodeMsgs, Logged, StdinLogged, AllFitting;
    w' := NodeCalls(w, api);
    NodeStep(w, window, api);
    WireGrows(net.cIn, net.toC, w.nc, Call(w.n, api).msgs);
    forall id: U32 ensures Logged(net, NodeCall(api), w, w', id) && StdinLogged(net, NodeCall(api), w, w', id) {
      NodeCallLogged(net, w, api, id);
      CallKeepsClosed(w.n, api, id);
      QuietStdin(net, NodeCall(api), w, w', id);
    }
  }

  /** Only `open` writes an OPEN. */
  lemma CallFits(ep: Endpoint, api: Api, q: seq<Msg>)
    ensures AllFitting(q) && FitsFrame(ControllerCall(api)) ==> AllFitting(q + Call(ep, api).msgs)
  {
    hide EncodeOpen, Drain;
    if api.SendData? && Accepts(ep, api.id, api.channel) {
      FlushOpensNothing(ep, api.id, Enqueue(ep.streams[api.id], api.bytes, api.end, api.channel));
    }
  }

  lemma FlushOpensNothing(ep: Endpoint, id: U32, st: Stream)
    ensures forall i | 0 <= i < |FlushInto(ep, id, st).msgs| :: !FlushInto(ep, id, st).msgs[i].OpenMsg?
  {
    hide Drain;
    DrainWritesData(id, st);
  }

  lemma DispatchFits(ep: Endpoint, m: Msg, q: seq<Msg>)
    ensures AllFitting(q) ==> AllFitting(q + Dispatch(ep, m).msgs)
  {
    hide EncodeOpen, Flush;
    if m.CreditMsg? && m.id in ep.streams {
      FlushOpensNothing(ep, m.id, ep.streams[m.id].(credit := ep.streams[m.id].credit + m.delta));
    }
  }

  lemma CallKeepsClosed(ep: Endpoint, api: Api, id: U32)
    ensures id in ep.closed ==> id in Call(ep, api).ep.closed
  {
    hide Flush;
  }

  lemma DispatchKeepsClosed(ep: Endpoint, m: Msg, id: U32)
    ensures id in ep.closed ==> id in Dispatch(ep, m).ep.closed
  {
    hide Flush;
  }

  /** A step that leaves the controller's sends and the node's receipts alone. */
  lemma QuietStdin(net: Net, step: Step, w: World, w': World, id: U32)
    requires !step.ControllerCall? && w'.sentC == w.sentC && w'.arrN == w.arrN
    requires CallTokens(NodeCallbacks(net, step), id) == [] && (id in w.n.closed ==> id in w'.n.closed)
    ensures StdinLogged(net, step, w, w', id)
  {
    assert Past(w.sentC, id) + [] == Past(w.sentC, id) && Past(w.arrN, id) + [] == Past(w.arrN, id);
  }

  lemma ControllerCallLogged(net: Net, w: World, api: Api, id: U32)
    requires Carrying(net, w)
    ensures StdinLogged(net, ControllerCall(api), w, ControllerCalls(w, api), id)
  {
    hide EncodeMsgs, Call, Sent;
    assert Past(w.sentC, id) + [] == Past(w.sentC, id) && Past(w.arrN, id) + [] == Past(w.arrN, id);
  }

  lemma NodeCallLogged(net: Net, w: World, api: Api, id: U32)
    requires Carrying(net, w)
    ensures Logged(net, NodeCall(api), w, NodeCalls(w, api), id)
  {
    hide EncodeMsgs, Call, Sent;
    assert Past(w.sentN, id) + [] == Past(w.sentN, id) && Past(w.gotC, id) + [] == Past(w.gotC, id);
  }

  /** A step that leaves the node's sends and the controller's receipts alone. */
  lemma QuietLogged(net: Net, step: Step, w: World, w': World, id: U32)
    requires !step.NodeCall? && w'.sentN == w.sentN && w'.gotC == w.gotC && w'.exitSent == w.exitSent
    requires CallTokens(ControllerCallbacks(net, step), id) == []
    ensures Logged(net, step, w, w', id)
  {
    assert Past(w.sentN, id) + [] == Past(w.sentN, id) && Past(w.gotC, id) + [] == Past(w.gotC, id);
  }

  lemma CallGoAway(ep: Endpoint, api: Api)
    ensures Call(ep, api).ep.sentGoAway ==> ep.sentGoAway || api == GoAway
  {
  }

  lemma DispatchGoAway(ep: Endpoint, m: Msg)
    ensures Dispatch(ep, m).ep.sentGoAway == ep.sentGoAway
  {
  }

  lemma Unfailed(w: World, window: nat)
    requires Inv(w, window)
    ensures !w.c.failed && !w.n.failed && w.c.closed == map[]
  {
  }

  lemma SimulateControllerDispatch(net: Net, w: World, window: nat) returns (w': World)
    requires Carrying(net, w) && Inv(w, window)
    ensures Matches(net, ControllerDispatch, w, w', window)
  {
    hide Inv, Dispatch, EncodeMsgs, DecodeOne, ParseFront, Sendable, Interpret, ToFrame, Logged, StdinLogged, AllFitting;
    Unfailed(w, window);
    FrontsSendable(w, window);
    DecodeHonest(net.c, net.cIn, net.toC, w.nc);
    if ParseFront(net.cIn, DEFAULT_MAX_PAYLOAD).Complete? {
      w' := ControllerReceives(w);
      ControllerDelivery(w, window);
      WireGrows(net.nIn, net.toN, w.cn, Dispatch(w.c, w.nc[0]).msgs);
      FrontMeans(net.cIn, net.toC, w.nc);
      Unfailed(w', window);
      DispatchFits(w.c, w.nc[0], w.cn);
      forall id: U32 ensures Logged(net, ControllerDispatch, w, w', id) && StdinLogged(net, ControllerDispatch, w, w', id) {
        DeliveryLogged(net, w, id);
        QuietStdin(net, ControllerDispatch, w, w', id);
      }
    } else {
      w' := w;
      assert net.toN + [] == net.toN;
      forall id: U32 ensures Logged(net, ControllerDispatch, w, w', id) && StdinLogged(net, ControllerDispatch, w, w', id) {
        QuietLogged(net, ControllerDispatch, w, w', id);
        QuietStdin(net, ControllerDispatch, w, w', id);
      }
    }
  }

  lemma FrontMeans(buffer: seq<Byte>, wire: seq<Byte>, q: seq<Msg>)
    requires buffer + wire == EncodeMsgs(q) && (q != [] ==> Sendable(q[0]))
    requires ParseFront(buffer, DEFAULT_MAX_PAYLOAD).Complete?
    ensures q != [] && Interpret(ParseFront(buffer, DEFAULT_MAX_PAYLOAD).frame) == Some(q[0])
  {
    hide ParseFront, EncodeMsg, EncodeMsgs, ToFrame, Interpret, Sendable;
    FrontOfHonestStream(buffer, wire, q);
  }

  /** A message delivered without failure gives the handler exactly its tokens. */
  lemma DeliveryLogged(net: Net, w: World, id: U32)
    requires net.c == w.c && !w.c.failed && w.c.closed == map[] && w.nc != [] && !ControllerReceives(w).c.failed
    requires ParseFront(net.cIn, DEFAULT_MAX_PAYLOAD).Complete?
    requires Interpret(ParseFront(net.cIn, DEFAULT_MAX_PAYLOAD).frame) == Some(w.nc[0])
    ensures Logged(net, ControllerDispatch, w, ControllerReceives(w), id)
  {
    hide ParseFront, Interpret, Flush, Tag, MsgTokens;
    DispatchTokens(w.c, w.nc[0], id);
    var t := CallTokens(Dispatch(w.c, w.nc[0]).calls, id);
    assert Past(w.sentN, id) + [] == Past(w.sentN, id) && Past(w.gotC, id) + [] == Past(w.gotC, id);
  }

  lemma DispatchTokens(ep: Endpoint, m: Msg, id: U32)
    requires !Dispatch(ep, m).ep.failed
    ensures CallTokens(Dispatch(ep, m).calls, id) == if m.DataMsg? && m.id == id && id !in ep.closed then MsgTokens(m) else []
  {
    hide Flush;
  }

  lemma SimulateNodeDispatch(net: Net, w: World, window: nat) returns (w': World)
    requires Carrying(net, w) && Inv(w, window) && !Crosses(net, NodeDispatch) && !Oversteps(net, NodeDispatch)
    ensures Matches(net, NodeDispatch, w, w', window)
  {
    hide Inv, Dispatch, EncodeMsgs, ParseFront, Sendable, ToFrame, Interpret, Logged, StdinLogged, AllFitting, Fitting;
    Unfailed(w, window);
    FrontsSendable(w, window);
    NodeFront(net, w, window);
    if ParseFront(net.nIn, DEFAULT_MAX_PAYLOAD).Complete? {
      w' := NodeTakesFront(net, w, window);
    } else {
      w' := w;
      assert net.toC + [] == net.toC;
      forall id: U32 ensures Logged(net, NodeDispatch, w, w', id) && StdinLogged(net, NodeDispatch, w, w', id) {
        QuietLogged(net, NodeDispatch, w, w', id);
        QuietStdin(net, NodeDispatch, w, w', id);
      }
    }
  }

  /** The node's decoder never gives up on honest bytes except at an oversized OPEN. */
  lemma NodeFront(net: Net, w: World, window: nat)
    requires Carrying(net, w) && Inv(w, window) && !Oversteps(net, NodeDispatch)
    ensures !ParseFront(net.nIn, DEFAULT_MAX_PAYLOAD).TooLong?
    ensures ParseFront(net.nIn, DEFAULT_MAX_PAYLOAD).Complete? ==> w.cn != [] && Sendable(w.cn[0])
  {
    hide Inv, EncodeMsgs, Sendable, ToFrame, Interpret, DecodeU32;
    Unfailed(w, window);
    FrontsSendable(w, window);
    if w.cn != [] && !Fitting(w.cn[0]) {
      FrontOfOversized(net.nIn, net.toN, w.cn);
    } else {
      FrontOfHonestStream(net.nIn, net.toN, w.cn);
    }
  }

  lemma NodeTakesFront(net: Net, w: World, window: nat) returns (w': World)
    requires Carrying(net, w) && Inv(w, window) && !Crosses(net, NodeDispatch)
    requires ParseFront(net.nIn, DEFAULT_MAX_PAYLOAD).Complete? && w.cn != [] && Sendable(w.cn[0])
    ensures Matches(net, NodeDispatch, w, w', window)
  {
    hide Inv, Dispatch, EncodeMsgs, DecodeOne, ParseFront, Sendable, ToFrame, Interpret, Logged, StdinLogged, Fitting;
    Unfailed(w, window);
    DecodeHonest(net.n, net.nIn, net.toN, w.cn);
    w' := NodeReceives(w);
    OpenKind(w.cn[0]);
    NodeDelivery(w, window);
    WireGrows(net.cIn, net.toC, w.nc, Dispatch(w.n, w.cn[0]).msgs);
    FrontMeans(net.nIn, net.toN, w.cn);
    Unfailed(w', window);
    forall id: U32 ensures Logged(net, NodeDispatch, w, w', id) && StdinLogged(net, NodeDispatch, w, w', id) {
      QuietLogged(net, NodeDispatch, w, w', id);
      ArrivalLogged(net, w, id);
    }
  }

  /** A message the node takes gives its handler exactly its tokens, unless it has closed that stream. */
  lemma ArrivalLogged(net: Net, w: World, id: U32)
    requires net.n == w.n && !w.n.failed && w.cn != [] && !NodeReceives(w).n.failed
    requires ParseFront(net.nIn, DEFAULT_MAX_PAYLOAD).Complete?
    requires Interpret(ParseFront(net.nIn, DEFAULT_MAX_PAYLOAD).frame) == Some(w.cn[0])
    ensures StdinLogged(net, NodeDispatch, w, NodeReceives(w), id)
  {
    hide ParseFront, Interpret, Dispatch, Tag, MsgTokens;
    DispatchTokens(w.n, w.cn[0], id);
    DispatchKeepsClosed(w.n, w.cn[0], id);
    assert Past(w.sentC, id) + [] == Past(w.sentC, id) && Past(w.arrN, id) + [] == Past(w.arrN, id);
  }

  lemma InitInv(window: nat)
    requires 0 < window <= DEFAULT_MAX_PAYLOAD
    ensures Inv(Init(window), window)
  {
    forall id: U32 ensures ViewOf(Init(window), id) == UNISSUED {
    }
  }

  /** The history of `w` is what the applications at both ends saw in the run. */
  predicate TrueHistory(window: nat, steps: seq<Step>, w: World, id: U32) {
    && Past(w.sentN, id) == Accepted(window, steps, id)
    && Past(w.gotC, id) == Delivered(window, steps, id)
    && Look(w.exitSent, id) == Reported(window, steps, id)
  }

  predicate TrueStdin(window: nat, steps: seq<Step>, w: World, id: U32) {
    && Past(w.sentC, id) == StdinAccepted(window, steps, id)
    && StdinDelivered(window, steps, id) <= Past(w.arrN, id)
    && (id !in w.n.closed ==> StdinDelivered(window, steps, id) == Past(w.arrN, id))
  }

  /** Every run in which the node refuses no OPEN is a run of the message-level protocol, with its invariant and true
      histories. */
  lemma {:induction false} RunKeepsInvariant(window: nat, steps: seq<Step>) returns (w: World)
    requires Honest(window) && !Refused(window, steps)
    ensures Carrying(NetRun(window, steps), w) && Inv(w, window)
    ensures OpensFit(steps) ==> AllFitting(w.cn)
    ensures forall id: U32 :: TrueHistory(window, steps, w, id)
    ensures forall id: U32 :: TrueStdin(window, steps, w, id)
  {
    hide Inv, Carrying, NetNext, Crosses, Oversteps, TrueHistory, TrueStdin, Logged, StdinLogged, AllFitting, FitsFrame;
    if steps == [] {
      w := Init(window);
      InitInv(window);
      StartCarries(window);
      StartHistory(window, steps, 0);
      forall id: U32 ensures TrueHistory(window, steps, w, id) && TrueStdin(window, steps, w, id) {
        StartHistory(window, steps, id);
      }
    } else {
      var before, last := steps[..|steps| - 1], steps[|steps| - 1];
      var w0 := RunKeepsInvariant(window, before);
      w := Simulate(NetRun(window, before), w0, last, window);
      forall id: U32 ensures TrueHistory(window, steps, w, id) && TrueStdin(window, steps, w, id) {
        assert TrueHistory(window, before, w0, id) && TrueStdin(window, before, w0, id);
        assert Logged(NetRun(window, before), last, w0, w, id) && StdinLogged(NetRun(window, before), last, w0, w, id);
        HistoryGrows(window, steps, w0, w, id);
        StdinGrows(window, steps, w0, w, id);
      }
    }
  }

  lemma StartHistory(window: nat, steps: seq<Step>, id: U32)
    requires steps == []
    ensures TrueHistory(window, steps, Init(window), id) && TrueStdin(window, steps, Init(window), id)
    ensures AllFitting(Init(window).cn)
  {
  }

  // ---- the runs are lives -------------------------------------------------------------------------------------

  /** One decoder turn of an unfailed session is what it hears, unless it fails. */
  lemma DecodeHears(ep: Endpoint, buffer: seq<Byte>)
    requires !ep.failed
    ensures var ep' := DecodeOne(ep, buffer).0;
            if ep'.failed then ep' == ep.(failed := true)
            else if |SessionHistory.Heard(buffer)| == 0 then ep' == ep
            else |SessionHistory.Heard(buffer)| == 1 && ep' == SessionHistory.React(ep, SessionHistory.Heard(buffer)[0]).ep
  {
    hide ParseFront, Interpret, Dispatch;
    var front := ParseFront(buffer, DEFAULT_MAX_PAYLOAD);
    if front.Complete? && DispatchFrame(ep, front.frame).ep.failed {
      SessionHistory.RefusalOnlyFails(ep, front.frame);
    }
  }

  lemma CallKeepsFailed(ep: Endpoint, api: Api)
    ensures Call(ep, api).ep.failed == ep.failed && (ep.failed ==> Call(ep, api).ep == ep)
  {
    hide Flush;
  }

  lemma NodeMoves(net: Net, step: Step)
    ensures var net', heard := NetNext(net, step), NodeHears(net, step);
            && (net.n.failed ==> net'.n == net.n)
            && (!net.n.failed && net'.n.failed ==> net'.n == net.n.(failed := true))
            && (!net'.n.failed ==>
                  |heard| <= 1 && net'.n == (if |heard| == 0 then net.n else SessionHistory.React(net.n, heard[0]).ep))
    ensures forall x :: x in NodeHears(net, step) && x.Got? ==> WellFormed(x.m)
  {
    hide Call, DecodeOne, SessionHistory.Heard, EncodeMsgs, WellFormed, Dispatch;
    match step
    case NodeCall(api) => CallKeepsFailed(net.n, api);
    case NodeDispatch =>
      SessionHistory.HeardIsFormed(net.nIn);
      if net.n.failed { FailedDecodes(net.n, net.nIn); } else { DecodeHears(net.n, net.nIn); }
    case _ =>
  }

  lemma FailedDecodes(ep: Endpoint, buffer: seq<Byte>)
    requires ep.failed
    ensures DecodeOne(ep, buffer).0 == ep
  {
  }

  lemma ControllerMoves(net: Net, step: Step)
    ensures var net', heard := NetNext(net, step), ControllerHears(net, step);
            && (net.c.failed ==> net'.c == net.c)
            && (!net.c.failed && net'.c.failed ==> net'.c == net.c.(failed := true))
            && (!net'.c.failed ==>
                  |heard| <= 1 && net'.c == (if |heard| == 0 then net.c else SessionHistory.React(net.c, heard[0]).ep))
    ensures forall x :: x in ControllerHears(net, step) && x.Got? ==> WellFormed(x.m)
  {
    hide Call, DecodeOne, SessionHistory.Heard, EncodeMsgs, WellFormed, Dispatch;
    match step
    case ControllerCall(api) => CallKeepsFailed(net.c, api);
    case ControllerDispatch =>
      SessionHistory.HeardIsFormed(net.cIn);
      if net.c.failed { FailedDecodes(net.c, net.cIn); } else { DecodeHears(net.c, net.cIn); }
    case _ =>
  }

  /** The node's session in a run is what its history makes of it, until it fails. */
  lemma {:induction false} NodeLives(window: nat, steps: seq<Step>)
    ensures SessionHistory.LifeOf(Node, window, NodeHistory(window, steps)).ep == NetRun(window, steps).n.(failed := false)
    ensures SessionHistory.Formed(NodeHistory(window, steps))
  {
    hide NetNext, SessionHistory.LifeOf, SessionHistory.React, NodeHears;
    if steps == [] {
      assert SessionHistory.LifeOf(Node, window, []).ep == NewEndpoint(Node, window) by { LifeStarts(Node, window); }
    } else {
      var before, last := steps[..|steps| - 1], steps[|steps| - 1];
      var h := NodeHistory(window, before);
      NodeLives(window, before);
      NodeMoves(NetRun(window, before), last);
      if NetRun(window, steps).n.failed {
        assert h + [] == h;
      } else {
        SessionHistory.AsLived(Node, window, h, NodeHears(NetRun(window, before), last));
      }
    }
  }

  lemma LifeStarts(role: Role, window: nat)
    ensures SessionHistory.LifeOf(role, window, []).ep == NewEndpoint(role, window)
  {
  }

  lemma {:induction false} ControllerLives(window: nat, steps: seq<Step>)
    ensures SessionHistory.LifeOf(Controller, window, ControllerHistory(window, steps)).ep == NetRun(window, steps).c.(failed := false)
    ensures SessionHistory.Formed(ControllerHistory(window, steps))
  {
    hide NetNext, SessionHistory.LifeOf, SessionHistory.React, ControllerHears;
    if steps == [] {
      assert SessionHistory.LifeOf(Controller, window, []).ep == NewEndpoint(Controller, window) by { LifeStarts(Controller, window); }
    } else {
      var before, last := steps[..|steps| - 1], steps[|steps| - 1];
      var h := ControllerHistory(window, before);
      ControllerLives(window, before);
      ControllerMoves(NetRun(window, before), last);
      if NetRun(window, steps).c.failed {
        assert h + [] == h;
      } else {
        SessionHistory.AsLived(Controller, window, h, ControllerHears(NetRun(window, before), last));
      }
    }
  }

  lemma NodeIsRecorded(window: nat, steps: seq<Step>)
    requires Honest(window)
    ensures SessionHistory.Recorded(Node, window, NodeHistory(window, steps), SessionHistory.LifeOf(Node, window, NodeHistory(window, steps)))
    ensures SessionHistory.LifeOf(Node, window, NodeHistory(window, steps)).ep == NetRun(window, steps).n.(failed := false)
  {
    hide SessionHistory.LifeOf, SessionHistory.Formed, NodeHistory, NetRun, SessionHistory.Recorded;
    NodeLives(window, steps);
    SessionHistory.HistoryIsRecorded(Node, window, NodeHistory(window, steps));
  }

  lemma ControllerIsRecorded(window: nat, steps: seq<Step>)
    requires Honest(window)
    ensures SessionHistory.Recorded(Controller, window, ControllerHistory(window, steps), SessionHistory.LifeOf(Controller, window, ControllerHistory(window, steps)))
    ensures SessionHistory.LifeOf(Controller, window, ControllerHistory(window, steps)).ep == NetRun(window, steps).c.(failed := false)
  {
    hide SessionHistory.LifeOf, SessionHistory.Formed, ControllerHistory, NetRun, SessionHistory.Recorded;
    ControllerLives(window, steps);
    SessionHistory.HistoryIsRecorded(Controller, window, ControllerHistory(window, steps));
  }

  /** What a call adds to what a session was told to send, and to the exit it was asked for, is what it takes. */
  lemma TakesWhatIsTold(role: Role, window: nat, h: seq<SessionHistory.Happening>, api: Api, id: U32)
    requires SessionHistory.Recorded(role, window, h, SessionHistory.LifeOf(role, window, h))
    ensures var ep, h' := SessionHistory.LifeOf(role, window, h).ep, h + [SessionHistory.Asked(api)];
            && SessionHistory.Told(role, h', id) == SessionHistory.Told(role, h, id) +
                 (if api.SendData? && api.id == id && Accepts(ep, id, api.channel) then Sent(api.channel, api.bytes, api.end) else [])
            && SessionHistory.ExitAsked(role, h', id) ==
                 (if api.SendExit? && api.id == id && TakesExit(ep, id) then Some(api.status) else SessionHistory.ExitAsked(role, h, id))
  {
    var x, life := SessionHistory.Asked(api), SessionHistory.LifeOf(role, window, h);
    hide SessionHistory.LifeOf, SessionHistory.Recorded, SessionHistory.MaySend, SessionHistory.Told, SessionHistory.ExitAsked, SessionHistory.Opened, Accepts, TakesExit, Call;
    SessionHistory.Grows(role, h, x, id);
    if api.SendData? && api.id == id { SessionHistory.SendStep(role, window, h, x, life); }
    if api.SendExit? && api.id == id { SessionHistory.ExitStep(role, window, h, x, life); }
  }

  /** What is heard from the peer adds nothing to what a session was told to send. */
  lemma HeardTellsNothing(role: Role, h: seq<SessionHistory.Happening>, buffer: seq<Byte>, id: U32)
    ensures SessionHistory.Told(role, h + SessionHistory.Heard(buffer), id) == SessionHistory.Told(role, h, id)
    ensures SessionHistory.ExitAsked(role, h + SessionHistory.Heard(buffer), id) == SessionHistory.ExitAsked(role, h, id)
  {
    hide ParseFront, Interpret, SessionHistory.MaySend, SessionHistory.Told, SessionHistory.ExitAsked, SessionHistory.Opened;
    assert h + [] == h;
    if |SessionHistory.Heard(buffer)| == 1 {
      SessionHistory.Grows(role, h, SessionHistory.Heard(buffer)[0], id);
      assert SessionHistory.Told(role, h, id) + [] == SessionHistory.Told(role, h, id);
    }
  }

  lemma FailedTakesNothing(ep: Endpoint, id: U32, channel: Channel)
    requires ep.failed
    ensures !Accepts(ep, id, channel) && !TakesExit(ep, id)
  {
  }

  lemma AcceptedGrows(window: nat, steps: seq<Step>, id: U32)
    requires Honest(window) && steps != []
    ensures var before, last := steps[..|steps| - 1], steps[|steps| - 1];
            var net := NetRun(window, before);
            && Accepted(window, steps, id) == Accepted(window, before, id) + NodeAccepts(net, last, id)
            && Reported(window, steps, id) ==
               (if last.NodeCall? && last.api.SendExit? && last.api.id == id && TakesExit(net.n, id)
                then Some(last.api.status) else Reported(window, before, id))
  {
    var before, last := steps[..|steps| - 1], steps[|steps| - 1];
    var net, h := NetRun(window, before), NodeHistory(window, before);
    assert NetRun(window, steps) == NetNext(net, last);
    NodeMoves(net, last);
    if last.NodeCall? { CallKeepsFailed(net.n, last.api); }
    NodeIsRecorded(window, before);
    hide NetRun, SessionHistory.LifeOf, SessionHistory.Recorded, SessionHistory.Told, SessionHistory.ExitAsked, Accepts, TakesExit, Call, SessionHistory.Heard, DecodeOne, Honest, Sent;
    assert h + [] == h;
    assert SessionHistory.Told(Node, h, id) + [] == SessionHistory.Told(Node, h, id);
    if net.n.failed {
      FailedTakesNothing(net.n, id, if last.NodeCall? && last.api.SendData? then last.api.channel else Stdout);
    } else if last.NodeCall? {
      assert net.n.(failed := false) == net.n;
      TakesWhatIsTold(Node, window, h, last.api, id);
    } else if last.NodeDispatch? {
      HeardTellsNothing(Node, h, net.nIn, id);
    }
  }

  lemma StdinAcceptedGrows(window: nat, steps: seq<Step>, id: U32)
    requires Honest(window) && steps != []
    ensures var before, last := steps[..|steps| - 1], steps[|steps| - 1];
            StdinAccepted(window, steps, id) == StdinAccepted(window, before, id) + ControllerAccepts(NetRun(window, before), last, id)
  {
    var before, last := steps[..|steps| - 1], steps[|steps| - 1];
    var net, h := NetRun(window, before), ControllerHistory(window, before);
    assert NetRun(window, steps) == NetNext(net, last);
    ControllerMoves(net, last);
    if last.ControllerCall? { CallKeepsFailed(net.c, last.api); }
    ControllerIsRecorded(window, before);
    hide NetRun, SessionHistory.LifeOf, SessionHistory.Recorded, SessionHistory.Told, SessionHistory.ExitAsked, Accepts, TakesExit, Call, SessionHistory.Heard, DecodeOne, Honest, Sent;
    assert h + [] == h;
    assert SessionHistory.Told(Controller, h, id) + [] == SessionHistory.Told(Controller, h, id);
    if net.c.failed {
      FailedTakesNothing(net.c, id, if last.ControllerCall? && last.api.SendData? then last.api.channel else Stdout);
    } else if last.ControllerCall? {
      assert net.c.(failed := false) == net.c;
      TakesWhatIsTold(Controller, window, h, last.api, id);
    } else if last.ControllerDispatch? {
      HeardTellsNothing(Controller, h, net.cIn, id);
    }
  }

  lemma HistoryGrows(window: nat, steps: seq<Step>, w: World, w': World, id: U32)
    requires Honest(window) && steps != [] && TrueHistory(window, steps[..|steps| - 1], w, id)
    requires Logged(NetRun(window, steps[..|steps| - 1]), steps[|steps| - 1], w, w', id)
    ensures TrueHistory(window, steps, w', id)
  {
    hide NetRun, CallTokens, NodeAccepts, ControllerCallbacks, Accepted, Reported;
    AcceptedGrows(window, steps, id);
  }

  lemma StdinGrows(window: nat, steps: seq<Step>, w: World, w': World, id: U32)
    requires Honest(window) && steps != [] && TrueStdin(window, steps[..|steps| - 1], w, id)
    requires StdinLogged(NetRun(window, steps[..|steps| - 1]), steps[|steps| - 1], w, w', id)
    ensures TrueStdin(window, steps, w', id)
  {
    hide NetRun, CallTokens, ControllerAccepts, NodeCallbacks, StdinAccepted;
    StdinAcceptedGrows(window, steps, id);
  }

  lemma StartCarries(window: nat)
    ensures Carrying(Start(window), Init(window))
  {
  }

  // ---- failure ------------------------------------------------------------------------------------------------

  lemma NodeFailureIsFinal(net: Net, step: Step)
    requires net.n.failed
    ensures NetNext(net, step).n.failed
  {
  }

  lemma CrossingFails(net: Net, step: Step)
    requires Crosses(net, step)
    ensures NetNext(net, step).n.failed
  {
    hide ParseFront, DecodeOpen;
    var f := ParseFront(net.nIn, DEFAULT_MAX_PAYLOAD).frame;
    assert DispatchFrame(net.n, f).ep.failed;
  }

  lemma OversteppingFails(net: Net, step: Step)
    requires Oversteps(net, step)
    ensures NetNext(net, step).n.failed
  {
  }

  lemma {:induction false} RefusedFails(window: nat, steps: seq<Step>)
    requires Refused(window, steps)
    ensures NetRun(window, steps).n.failed
  {
    hide NetNext, Crosses, Oversteps;
    var before, last := steps[..|steps| - 1], steps[|steps| - 1];
    var net := NetRun(window, before);
    if Refused(window, before) {
      RefusedFails(window, before);
      NodeFailureIsFinal(net, last);
    } else if Crosses(net, last) {
      CrossingFails(net, last);
    } else {
      OversteppingFails(net, last);
    }
  }

  // ---- after a refusal ------------------------------------------------------------------------------------------

  predicate EndsWith(a: seq<Byte>, b: seq<Byte>) {
    |b| <= |a| && a[|a| - |b|..] == b
  }

  /** As `Carrying`, but a node that has failed does nothing more: `w` keeps it as it was, and the messages it has not
      taken keep travelling to it, short of what its decoder has dropped. */
  predicate Conveys(net: Net, w: World) {
    && net.c == w.c && net.n == w.n.(failed := net.n.failed)
    && net.cIn + net.toC == EncodeMsgs(w.nc)
    && EndsWith(EncodeMsgs(w.cn), net.nIn + net.toN)
    && (!net.n.failed ==> net.nIn + net.toN == EncodeMsgs(w.cn))
  }

  lemma CarryingConveys(net: Net, w: World, window: nat)
    requires Carrying(net, w) && Inv(w, window)
    ensures Conveys(net, w)
  {
    hide EncodeMsgs, Inv;
    Unfailed(w, window);
  }

  /** The node refuses, or has refused before. */
  predicate IsSilenced(net: Net, step: Step) {
    net.n.failed || Crosses(net, step) || Oversteps(net, step)
  }

  predicate AtController(step: Step) {
    step.ControllerCall? || step.BytesToController? || step.ControllerDispatch?
  }

  /** What the controller's side of a step does does not depend on the node. */
  lemma SameAtController(net: Net, net': Net, step: Step)
    requires AtController(step) && net' == net.(n := net'.n, nIn := net'.nIn, toN := net'.toN)
    ensures var a, b := NetNext(net, step), NetNext(net', step);
            && b.c == a.c && b.cIn == a.cIn && b.toC == a.toC
            && a.n == net.n && b.n == net'.n && a.nIn == net.nIn && b.nIn == net'.nIn
            && exists more :: a.toN == net.toN + more && b.toN == net'.toN + more
  {
    hide ParseFront, DispatchFrame, EncodeMsgs, Call;
    assert net.toN + [] == net.toN && net'.toN + [] == net'.toN;
  }

  lemma SameLogs(net: Net, net': Net, step: Step, w: World, w': World, id: U32)
    requires AtController(step) && net' == net.(n := net'.n, nIn := net'.nIn, toN := net'.toN)
    ensures Logged(net, step, w, w', id) <==> Logged(net', step, w, w', id)
    ensures StdinLogged(net, step, w, w', id) <==> StdinLogged(net', step, w, w', id)
  {
    hide ParseFront, DispatchFrame, CallTokens, Past, Look, Sent;
  }

  /** A silenced node's own steps write nothing, call nothing back and leave it as it was. */
  lemma SilencedStep(net: Net, step: Step)
    requires IsSilenced(net, step) && !AtController(step)
    ensures var net' := NetNext(net, step);
            && net'.c == net.c && net'.cIn == net.cIn && net'.toC == net.toC
            && net'.n == net.n.(failed := net'.n.failed) && (net.n.failed ==> net'.n.failed)
            && EndsWith(net.nIn + net.toN, net'.nIn + net'.toN)
            && (!net'.n.failed ==> net'.nIn + net'.toN == net.nIn + net.toN)
    ensures NodeCallbacks(net, step) == []
    ensures forall id: U32 :: net.n.failed ==> NodeAccepts(net, step, id) == [] && !TakesExit(net.n, id)
  {
    hide EncodeMsgs, EncodeFrame, Valid;
    assert net.toC + [] == net.toC;
    if step.BytesToNode? {
      WireMoves(net.nIn, net.toN, Least(step.count, |net.toN|));
    } else if step.NodeDispatch? && !net.n.failed {
      RefusalIsQuiet(net);
    } else if step.NodeCall? {
      FailedCall(net.n, step.api);
    }
  }

  lemma FailedCall(ep: Endpoint, api: Api)
    requires ep.failed
    ensures Call(ep, api) == Nothing(ep) && EncodeMsgs(Call(ep, api).msgs) == []
  {
  }

  lemma RefusalIsQuiet(net: Net)
    requires !net.n.failed && (Crosses(net, NodeDispatch) || Oversteps(net, NodeDispatch))
    ensures var net' := NetNext(net, NodeDispatch);
            && net'.c == net.c && net'.cIn == net.cIn && net'.toC == net.toC
            && net'.n == net.n.(failed := true) && net'.toN == net.toN && EndsWith(net.nIn, net'.nIn)
    ensures NodeCallbacks(net, NodeDispatch) == []
  {
    assert net.toC + [] == net.toC;
    if Crosses(net, NodeDispatch) {
      hide ParseFront, DecodeOpen;
      var f := ParseFront(net.nIn, DEFAULT_MAX_PAYLOAD).frame;
      assert DispatchFrame(net.n, f) == Fail(net.n);
      FrontWithin(net.nIn);
    }
  }

  lemma FrontWithin(buffer: seq<Byte>)
    requires ParseFront(buffer, DEFAULT_MAX_PAYLOAD).Complete?
    ensures ParseFront(buffer, DEFAULT_MAX_PAYLOAD).size <= |buffer|
  {
  }

  lemma EndsMore(a: seq<Byte>, b: seq<Byte>, more: seq<Byte>)
    requires EndsWith(a, b)
    ensures EndsWith(a + more, b + more)
  {
  }

  lemma EndsThen(a: seq<Byte>, b: seq<Byte>, d: seq<Byte>)
    requires EndsWith(a, b) && EndsWith(b, d)
    ensures EndsWith(a, d)
  {
  }

  /** Once the node has refused, what it had sent still reaches the controller as if the node had merely fallen silent. */
  lemma SimulateSilenced(net: Net, w: World, step: Step, window: nat) returns (w': World)
    requires Conveys(net, w) && Inv(w, window) && IsSilenced(net, step)
    ensures Inv(w', window) && Conveys(NetNext(net, step), w')
    ensures forall id: U32 :: Logged(net, step, w, w', id) && StdinLogged(net, step, w, w', id)
  {
    hide Inv, EncodeMsgs, Logged, StdinLogged, NetNext, ParseFront, Crosses, Oversteps, EndsWith, TakesExit, AllFitting;
    if AtController(step) {
      var shadow := net.(n := w.n, nIn := EncodeMsgs(w.cn), toN := []);
      assert EncodeMsgs(w.cn) + [] == EncodeMsgs(w.cn);
      NotAtNode(shadow, step);
      w' := Simulate(shadow, w, step, window);
      SameAtController(net, shadow, step);
      var more :| NetNext(net, step).toN == net.toN + more && NetNext(shadow, step).toN == [] + more;
      assert EncodeMsgs(w'.cn) == EncodeMsgs(w.cn) + more;
      EndsMore(EncodeMsgs(w.cn), net.nIn + net.toN, more);
      Assoc(net.nIn, net.toN, more);
      forall id: U32 ensures Logged(net, step, w, w', id) && StdinLogged(net, step, w, w', id) {
        SameLogs(net, shadow, step, w, w', id);
      }
    } else {
      w' := w;
      SilencedStep(net, step);
      EndsThen(EncodeMsgs(w.cn), net.nIn + net.toN, NetNext(net, step).nIn + NetNext(net, step).toN);
      forall id: U32 ensures Logged(net, step, w, w', id) && StdinLogged(net, step, w, w', id) {
        SilencedLogs(net, step, w, id);
      }
    }
  }

  lemma NotAtNode(net: Net, step: Step)
    requires AtController(step)
    ensures !Crosses(net, step) && !Oversteps(net, step)
  {
  }

  lemma SilencedLogs(net: Net, step: Step, w: World, id: U32)
    requires IsSilenced(net, step) && !AtController(step) && NodeCallbacks(net, step) == []
    requires net.n.failed ==> NodeAccepts(net, step, id) == [] && !TakesExit(net.n, id)
    ensures Logged(net, step, w, w, id) && StdinLogged(net, step, w, w, id)
  {
    assert forall t: seq<Token> :: t + [] == t;
  }

  /** Every honest run, refused or not: a message-level world with the invariant, the controller's state, the node's as
      far as it got, and true histories. */
  lemma {:induction false} RunKeepsHistory(window: nat, steps: seq<Step>) returns (w: World)
    requires Honest(window)
    ensures Conveys(NetRun(window, steps), w) && Inv(w, window)
    ensures forall id: U32 :: TrueHistory(window, steps, w, id) && TrueStdin(window, steps, w, id)
  {
    hide Inv, Carrying, Conveys, NetNext, Crosses, Oversteps, TrueHistory, TrueStdin, Logged, StdinLogged, AllFitting, FitsFrame;
    if !Refused(window, steps) {
      w := RunKeepsInvariant(window, steps);
      CarryingConveys(NetRun(window, steps), w, window);
    } else {
      var before, last := steps[..|steps| - 1], steps[|steps| - 1];
      var w0 := RunKeepsHistory(window, before);
      if Refused(window, before) { RefusedFails(window, before); }
      w := SimulateSilenced(NetRun(window, before), w0, last, window);
      forall id: U32 ensures TrueHistory(window, steps, w, id) && TrueStdin(window, steps, w, id) {
        assert TrueHistory(window, before, w0, id) && TrueStdin(window, before, w0, id);
        assert Logged(NetRun(window, before), last, w0, w, id) && StdinLogged(NetRun(window, before), last, w0, w, id);
        HistoryGrows(window, steps, w0, w, id);
        StdinGrows(window, steps, w0, w, id);
      }
    }
  }

  /** In every interleaving and chunking, with any requests, a session fails exactly when the node refuses an OPEN: one
      that crosses its own GOAWAY, or one longer than a frame may be. The controller never does. */
  lemma FailsIffRefused(window: nat, steps: seq<Step>)
    requires Honest(window)
    ensures NetRun(window, steps).c.failed || NetRun(window, steps).n.failed <==> Refused(window, steps)
    ensures !NetRun(window, steps).c.failed
  {
    hide Inv, NetRun, Refused;
    var any := RunKeepsHistory(window, steps);
    Unfailed(any, window);
    if Refused(window, steps) {
      RefusedFails(window, steps);
    } else {
      var w := RunKeepsInvariant(window, steps);
      Unfailed(w, window);
    }
  }

  lemma FittingNeverOversteps(net: Net, w: World, window: nat, step: Step)
    requires Carrying(net, w) && Inv(w, window) && AllFitting(w.cn)
    ensures !Oversteps(net, step)
  {
    hide Inv, EncodeMsgs, Sendable, ToFrame, Interpret, DecodeU32;
    FrontsSendable(w, window);
    FrontOfHonestStream(net.nIn, net.toN, w.cn);
  }

  lemma {:induction false} RefusedIsCrossed(window: nat, steps: seq<Step>)
    requires Honest(window) && OpensFit(steps)
    ensures Refused(window, steps) <==> Crossed(window, steps)
  {
    hide NetRun, Inv, Carrying, Crosses, Oversteps, AllFitting, FitsFrame, TrueHistory, TrueStdin;
    if steps != [] {
      var before, last := steps[..|steps| - 1], steps[|steps| - 1];
      RefusedIsCrossed(window, before);
      if !Refused(window, before) {
        var w := RunKeepsInvariant(window, before);
        FittingNeverOversteps(NetRun(window, before), w, window, last);
      }
    }
  }

  /** When every OPEN fits a frame, crossings are the only failures. */
  lemma FailsIffCrossed(window: nat, steps: seq<Step>)
    requires Honest(window) && OpensFit(steps)
    ensures NetRun(window, steps).c.failed || NetRun(window, steps).n.failed <==> Crossed(window, steps)
  {
    hide NetRun, Refused, Crossed, OpensFit;
    FailsIffRefused(window, steps);
    RefusedIsCrossed(window, steps);
  }

  lemma {:induction false} SilentNodeNeverCrosses(window: nat, steps: seq<Step>)
    requires NodeCall(GoAway) !in steps
    ensures !Crossed(window, steps) && !NetRun(window, steps).n.sentGoAway
  {
    hide NetNext;
    if steps != [] {
      var before, last := steps[..|steps| - 1], steps[|steps| - 1];
      SilentNodeNeverCrosses(window, before);
      GoAwayOnlyByCall(NetRun(window, before), last);
    }
  }

  lemma GoAwayOnlyByCall(net: Net, step: Step)
    requires !net.n.sentGoAway && step != NodeCall(GoAway)
    ensures !NetNext(net, step).n.sentGoAway
  {
    hide ParseFront, Interpret, Call, Dispatch, EncodeMsgs;
    match step
    case NodeCall(api) => CallGoAway(net.n, api);
    case NodeDispatch =>
      var front := ParseFront(net.nIn, DEFAULT_MAX_PAYLOAD);
      if front.Complete? && Interpret(front.frame).Some? {
        DispatchGoAway(net.n, Interpret(front.frame).value);
      }
    case _ =>
  }

  /** Without `goAway` at the node, and with fitting OPENs, no session ever rejects what its peer sent. */
  lemma HonestSessionsNeverFail(window: nat, steps: seq<Step>)
    requires Honest(window) && OpensFit(steps) && NodeCall(GoAway) !in steps
    ensures !NetRun(window, steps).c.failed && !NetRun(window, steps).n.failed
  {
    SilentNodeNeverCrosses(window, steps);
    FailsIffCrossed(window, steps);
  }

  // ---- what holds in every honest state -----------------------------------------------------------------------

  /** The node's side of a stream it has not closed: until the OPEN arrives, the stream it will be given. */
  function NodeSide(n: Endpoint, id: U32, window: nat): Stream {
    if id in n.streams then n.streams[id] else NewStream(window)
  }

  /** In both directions: sender's credit, data in flight, receiver's unconsumed and unadvertised bytes, credit in flight. */
  predicate CreditAddsUp(c: Stream, n: Stream, cn: seq<Msg>, nc: seq<Msg>, window: nat) {
    && c.credit + DataLen(cn) + n.recv.outstanding + n.recv.pending + CreditSum(nc) == window
    && n.credit + DataLen(nc) + c.recv.outstanding + c.recv.pending + CreditSum(cn) == window
  }

  /** After the node's EXIT the credit it held is gone with its stream; what is left stays within the window. */
  predicate CreditWithin(c: Stream, cn: seq<Msg>, nc: seq<Msg>, window: nat) {
    && c.credit + DataLen(cn) + CreditSum(nc) <= window
    && DataLen(nc) + c.recv.outstanding + c.recv.pending <= window
  }

  /** Credit conservation for every stream the controller holds, from its OPEN on; and for one it no longer holds, what
      is still on the way to the node fits the window. */
  lemma CreditIsConserved(w: World, window: nat, id: U32)
    requires Inv(w, window)
    ensures id in w.c.streams && id !in w.n.closed ==>
              CreditAddsUp(w.c.streams[id], NodeSide(w.n, id, window), Only(w.cn, id), Only(w.nc, id), window)
    ensures id in w.c.streams && id in w.n.closed ==>
              CreditWithin(w.c.streams[id], Only(w.cn, id), Only(w.nc, id), window)
    ensures id !in w.c.streams ==> DataLen(Only(w.cn, id)) <= window && Only(w.nc, id) == []
  {
    hide Live, Exiting, Gone, Only, DataLen, CreditSum;
    var v := ViewOf(w, id);
    if Opening(v, id, window) {
      OpeningCredit(v, id, window);
    } else if Running(v, id, window) {
      RunningParts(v, id, window);
    } else if Exiting(v, id, window) {
      ExitingCredit(v, id, window);
    } else if Gone(v, id, window) {
      GoneCredit(v, id, window);
    } else {
      NothingInFlight(v.cn);
    }
  }

  lemma OpeningCredit(v: View, id: U32, window: nat)
    requires Opening(v, id, window)
    ensures v.c.Some? && v.n.None? && v.closed.None? && CreditAddsUp(v.c.value, NewStream(window), v.cn, v.nc, window)
  {
    hide Traffic, Carried, ClientOk, SenderOk;
    assert MsgLen(v.cn[0]) == 0 && MsgCredit(v.cn[0]) == 0;
  }

  lemma ExitingCredit(v: View, id: U32, window: nat)
    requires Exiting(v, id, window)
    ensures v.c.Some? && v.n.None? && v.closed.Some? && CreditWithin(v.c.value, v.cn, v.nc, window)
  {
    hide Traffic, Carried, ClientOk, DataLen, CreditSum;
  }

  lemma GoneCredit(v: View, id: U32, window: nat)
    requires Gone(v, id, window)
    ensures v.c.None? && DataLen(v.cn) <= window && v.nc == []
  {
    hide Traffic, Carried, DataLen;
  }

  predicate Replenished(st: Stream, window: nat) {
    st.credit == window && st.queue == [] && !st.endPending && !st.exitPending
  }

  lemma QuietPhase(v: View, id: U32, window: nat)
    requires ViewInv(v, id, window) && v.c.Some? && |v.cn| == 0 && |v.nc| == 0
    ensures Running(v, id, window)
  {
    hide Live;
  }

  lemma NothingInFlight(q: seq<Msg>)
    requires |q| == 0
    ensures DataLen(q) == 0 && CreditSum(q) == 0
  {
  }

  lemma FullCredit(credit: nat, q: seq<Msg>, r: Credit, credits: seq<Msg>, window: nat)
    requires credit + DataLen(q) + r.outstanding + r.pending + CreditSum(credits) == window
    requires r.outstanding == 0 && r.pending == 0 && |q| == 0 && |credits| == 0
    ensures credit == window
  {
    hide DataLen, CreditSum;
    NothingInFlight(q);
    NothingInFlight(credits);
  }

  lemma FullCreditOwesNothing(st: Stream, sent: seq<Token>, window: nat)
    requires SenderOk(st, sent) && st.credit == window && window > 0
    ensures Replenished(st, window)
  {
  }

  lemma RunningParts(v: View, id: U32, window: nat)
    requires Running(v, id, window)
    ensures SenderOk(v.c.value, v.sentC) && SenderOk(v.n.value, v.sentN)
    ensures var c, n := v.c.value, v.n.value;
            && c.credit + DataLen(v.cn) + n.recv.outstanding + n.recv.pending + CreditSum(v.nc) == window
            && n.credit + DataLen(v.nc) + c.recv.outstanding + c.recv.pending + CreditSum(v.cn) == window
            && (c.recv.outstanding == 0 ==> c.recv.pending == 0) && (n.recv.outstanding == 0 ==> n.recv.pending == 0)
  {
    hide Traffic, Carried, Owed, StdoutOnly, DataLen, CreditSum;
  }

  lemma QuietStream(v: View, id: U32, window: nat)
    requires Running(v, id, window) && window > 0 && |v.cn| == 0 && |v.nc| == 0
    requires v.c.value.recv.outstanding == 0 && v.n.value.recv.outstanding == 0
    ensures Replenished(v.c.value, window) && Replenished(v.n.value, window)
  {
    hide Live, SenderOk, Replenished, DataLen, CreditSum;
    RunningParts(v, id, window);
    FullCredit(v.c.value.credit, v.cn, v.n.value.recv, v.nc, window);
    FullCredit(v.n.value.credit, v.nc, v.c.value.recv, v.cn, window);
    FullCreditOwesNothing(v.c.value, v.sentC, window);
    FullCreditOwesNothing(v.n.value, v.sentN, window);
  }

  /** Every stream the node holds is held by the controller. */
  lemma NodeHoldsNoOther(v: View, id: U32, window: nat)
    requires ViewInv(v, id, window) && v.n.Some?
    ensures v.c.Some?
  {
    hide Live;
  }

  /** No credit deadlock: once the channels are empty and everything delivered is consumed, every stream either end holds
      is held by both, has its full credit back at both ends and owes nothing, neither data nor END_STREAM nor EXIT. */
  lemma NoCreditDeadlock(w: World, window: nat, id: U32)
    requires Inv(w, window) && |w.cn| == 0 && |w.nc| == 0
    requires id in w.c.streams || id in w.n.streams
    requires id in w.c.streams ==> w.c.streams[id].recv.outstanding == 0
    requires id in w.n.streams ==> w.n.streams[id].recv.outstanding == 0
    ensures id in w.c.streams && id in w.n.streams
    ensures Replenished(w.c.streams[id], window) && Replenished(w.n.streams[id], window)
  {
    hide ViewInv, Live;
    var v := ViewOf(w, id);
    if id in w.n.streams { NodeHoldsNoOther(v, id, window); }
    assert v.c == Some(w.c.streams[id]) && |v.cn| == 0 && |v.nc| == 0;
    QuietPhase(v, id, window);
    assert v.n == Some(w.n.streams[id]);
    QuietStream(v, id, window);
  }

  /** Until the exit, what the controller got is what the node's `sendData` accepted, short of what is in flight and
      then what is queued; afterwards nothing is short. */
  lemma NothingOvertakes(w: World, window: nat, id: U32)
    requires Inv(w, window) && id != 0 && id <= Issued(w.c.nextId)
    ensures Past(w.sentN, id) == Past(w.gotC, id) + Tokens(Only(w.nc, id)) +
                                 (if id in w.n.streams then Owed(w.n.streams[id]) else [])
    ensures id in w.c.streams ==>
              Past(w.sentC, id) == Past(w.arrN, id) + Tokens(Only(w.cn, id)) + Owed(w.c.streams[id])
    ensures id !in w.c.streams ==> Past(w.gotC, id) == Past(w.sentN, id)
  {
    hide ViewInv, Tokens, Owed;
    OrderedView(ViewOf(w, id), id, window);
  }

  lemma OrderedView(v: View, id: U32, window: nat)
    requires ViewInv(v, id, window)
    ensures v.sentN == v.gotC + Tokens(v.nc) + (if v.n.Some? then Owed(v.n.value) else [])
    ensures v.c.Some? ==> v.sentC == v.arrN + Tokens(v.cn) + Owed(v.c.value)
    ensures v.c.None? ==> v.gotC == v.sentN
  {
    if Opening(v, id, window) {
      assert Owed(NewStream(window)) == [];
      assert Tokens(v.cn) == Tokens(v.cn[1..]);
    } else if v.c.None? {
      assert v.gotC + [] + [] == v.gotC;
    }
  }

  /** EXIT never overtakes data: a controller whose `onExit` fires has been given exactly the bytes and half-close that
      the node's `sendData` accepted on that stream, and the status the node reported. */
  lemma ExitNeverOvertakesData(window: nat, steps: seq<Step>, id: U32, status: ExitStatus)
    requires Honest(window)
    requires ControllerCallbacks(NetRun(window, steps), ControllerDispatch) == [OnExit(id, status)]
    ensures Delivered(window, steps, id) == Accepted(window, steps, id)
    ensures Reported(window, steps, id) == Some(status)
  {
    hide NetRun, Delivered, Accepted, Reported, Inv, EncodeMsgs, ParseFront, Interpret, Refused, Honest, Dispatch, Sendable, TrueStdin;
    var w := RunKeepsHistory(window, steps);
    var net := NetRun(window, steps);
    FrontsSendable(w, window);
    FrontMeans(net.cIn, net.toC, w.nc);
    ExitCallback(w.c, w.nc[0], id, status);
    ExitAfterAllData(w, window);
    assert TrueHistory(window, steps, w, id);
  }

  lemma ExitCallback(ep: Endpoint, m: Msg, id: U32, status: ExitStatus)
    requires Dispatch(ep, m).calls == [OnExit(id, status)]
    ensures m == ExitMsg(id, status)
  {
    hide Flush;
  }

  /** Before the exit the controller holds a prefix of what the node accepted. */
  lemma DeliveredIsPrefix(window: nat, steps: seq<Step>, id: U32)
    requires Honest(window)
    ensures Delivered(window, steps, id) <= Accepted(window, steps, id)
  {
    hide NetRun, Delivered, Accepted, Reported, Inv, EncodeMsgs, Refused, Honest, Conveys, TrueStdin;
    var w := RunKeepsHistory(window, steps);
    assert TrueHistory(window, steps, w, id);
    OrderedWorld(w, window, id);
  }

  lemma OrderedWorld(w: World, window: nat, id: U32)
    requires Inv(w, window)
    ensures Past(w.gotC, id) <= Past(w.sentN, id)
  {
    hide ViewInv, Tokens, Owed;
    OrderedView(ViewOf(w, id), id, window);
  }

  /** Towards the node: what its handler was given is a prefix of what the controller's `sendData` accepted, in order, also
      after either end has closed the stream. */
  lemma StdinIsPrefix(window: nat, steps: seq<Step>, id: U32)
    requires Honest(window)
    ensures StdinDelivered(window, steps, id) <= StdinAccepted(window, steps, id)
  {
    hide NetRun, StdinDelivered, StdinAccepted, Inv, Refused, Honest, Conveys, TrueHistory;
    var w := RunKeepsHistory(window, steps);
    assert TrueStdin(window, steps, w, id);
    OrderedStdin(w, window, id);
  }

  lemma OrderedStdin(w: World, window: nat, id: U32)
    requires Inv(w, window)
    ensures Past(w.arrN, id) <= Past(w.sentC, id)
  {
    hide ViewInv;
    StdinView(ViewOf(w, id), id, window);
  }

  lemma StdinView(v: View, id: U32, window: nat)
    requires ViewInv(v, id, window)
    ensures v.arrN <= v.sentC
  {
    hide Tokens, Owed, ClientOk, SenderOk, Traffic, Balanced, DataLen, CreditSum;
  }
}
