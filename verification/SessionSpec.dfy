/** Receiver-side credit: the peer may have at most `window` bytes delivered and unconsumed. */
module CreditWindows {

  /** `outstanding`: delivered, not consumed. `pending`: consumed, not yet advertised to the peer. */
  datatype Credit = Credit(outstanding: nat, pending: nat)

  /** `onData` accepts `n` bytes exactly when the window has room for them. */
  predicate HasRoom(c: Credit, window: nat, n: nat) {
    n <= window - c.outstanding
  }

  function Deliver(c: Credit, n: nat): Credit {
    c.(outstanding := c.outstanding + n)
  }

  /** `onConsumed`: the new state and the increment to advertise (0 for none). */
  function Consumed(c: Credit, window: nat, n: nat): (r: (Credit, nat))
    ensures r.0.outstanding + r.0.pending + r.1 == c.outstanding + c.pending
    ensures r.0.outstanding == if n < c.outstanding then c.outstanding - n else 0
    ensures r.0.outstanding == 0 ==> r.0.pending == 0
    ensures r.0.pending == 0 || (r.1 == 0 && r.0.pending < window / 2)
    ensures r.1 == 0 || r.0.outstanding == 0 || r.1 >= window / 2
  {
    var taken := if n < c.outstanding then n else c.outstanding;
    var outstanding, freed := c.outstanding - taken, c.pending + taken;
    if freed > 0 && (freed >= window / 2 || outstanding == 0) then (Credit(outstanding, 0), freed)
    else (Credit(outstanding, freed), 0)
  }

  /** The credit window as the object the session holds per stream. */
  class CreditWindow {
    const window: nat
    var outstanding: nat
    var pendingUpdate: nat

    constructor (window: nat)
      ensures this.window == window && State() == Credit(0, 0)
    {
      this.window := window;
      outstanding, pendingUpdate := 0, 0;
    }

    function State(): Credit
      reads this
    {
      Credit(outstanding, pendingUpdate)
    }

    method OnData(n: nat) returns (ok: bool)
      modifies this
      ensures ok == HasRoom(old(State()), window, n)
      ensures State() == if ok then Deliver(old(State()), n) else old(State())
    {
      if n > window - outstanding {
        return false;
      }
      outstanding := outstanding + n;
      ok := true;
    }

    method OnConsumed(n: nat) returns (increment: nat)
      modifies this
      ensures (State(), increment) == Consumed(old(State()), window, n)
    {
      var taken := if n < outstanding then n else outstanding;
      outstanding := outstanding - taken;
      pendingUpdate := pendingUpdate + taken;
      increment := 0;
      if pendingUpdate > 0 && (pendingUpdate >= window / 2 || outstanding == 0) {
        increment := pendingUpdate;
        pendingUpdate := 0;
      }
    }
  }
}

/** One psx/1 session endpoint as a state machine on values: what each API call and each received message does. */
module SessionSpec {
  import opened Wire
  import opened FrameCodec
  import opened OpenPayload
  import opened ControlPayloads
  import opened Messages
  import opened CreditWindows

  const MAX_STREAM_WINDOW := 0x7FFF_FFFF

  datatype Role = Controller | Node

  datatype Segment = Segment(channel: Channel, bytes: seq<Byte>)

  /** `Session::Stream`. */
  datatype Stream = Stream(
    recv: Credit,
    credit: nat,
    queue: seq<Segment>,
    queued: int,
    endPending: bool,
    exitPending: bool,
    localClosed: bool,
    peerClosed: bool,
    status: ExitStatus)

  function NewStream(window: nat): Stream {
    Stream(Credit(0, 0), window, [], 0, false, false, false, false, ExitStatus(Exited, 0))
  }

  /** The session's fields; `closed` maps a locally closed stream to its `peerDataClosed` flag. */
  datatype Endpoint = Endpoint(
    role: Role,
    window: nat,
    streams: map<U32, Stream>,
    closed: map<U32, bool>,
    nextId: U32,
    nextPeer: U32,
    sentGoAway: bool,
    receivedGoAway: bool,
    failed: bool)

  function NewEndpoint(role: Role, window: nat): Endpoint {
    Endpoint(role, window, map[], map[], 1, 1, false, false, false)
  }

  /** Handler callbacks. */
  datatype Callback =
    | OnOpen(id: U32, request: OpenRequest)
    | OnData(id: U32, bytes: seq<Byte>, end: bool, channel: Channel)
    | OnExit(id: U32, status: ExitStatus)
    | OnGoAway
    | OnPong
    | OnWritable(id: U32)

  /** New state, messages written and callbacks made, each in order. */
  datatype Outcome = Outcome(ep: Endpoint, msgs: seq<Msg>, calls: seq<Callback>)

  function Nothing(ep: Endpoint): Outcome {
    Outcome(ep, [], [])
  }

  function Fail(ep: Endpoint): Outcome {
    Outcome(ep.(failed := true), [], [])
  }

  function NextU32(id: U32): U32 {
    if id == U32_LIMIT - 1 then 0 else id + 1
  }

  // ---- flushing -----------------------------------------------------------------------------------------------

  datatype Drained = Drained(stream: Stream, msgs: seq<Msg>)

  function Chunk(st: Stream): nat
    requires st.queue != []
  {
    if |st.queue[0].bytes| <= st.credit then |st.queue[0].bytes| else st.credit
  }

  /** One turn of the draining loop: the END_STREAM flag rides the last byte of the last segment. */
  function SendFront(id: U32, st: Stream): Drained
    requires st.queue != [] && st.credit > 0
  {
    var front, chunk := st.queue[0], Chunk(st);
    var whole := chunk == |front.bytes|;
    var last := whole && |st.queue| == 1 && st.endPending;
    var queue := if whole then st.queue[1..] else [Segment(front.channel, front.bytes[chunk..])] + st.queue[1..];
    Drained(st.(credit := st.credit - chunk, queued := st.queued - chunk, queue := queue,
                endPending := st.endPending && !last),
            [DataMsg(id, last, front.channel, front.bytes[..chunk])])
  }

  function Drain(id: U32, st: Stream): Drained
    decreases |st.queue|, st.credit
  {
    if st.queue == [] || st.credit == 0 then Drained(st, [])
    else
      var step := SendFront(id, st);
      var rest := Drain(id, step.stream);
      Drained(rest.stream, step.msgs + rest.msgs)
  }

  /** A pending end with nothing left to carry it rides a zero-length frame. */
  function SendEnd(id: U32, d: Drained): Drained {
    if d.stream.queue == [] && d.stream.endPending
    then Drained(d.stream.(endPending := false), d.msgs + [DataMsg(id, true, Stdout, [])])
    else d
  }

  /** `exited`: the deferred EXIT was emitted, so the stream is closed locally. */
  datatype Flushed = Flushed(stream: Stream, msgs: seq<Msg>, exited: bool, writable: bool)

  /** `flushStream`. */
  function Flush(id: U32, st: Stream, window: nat): Flushed {
    var d := SendEnd(id, Drain(id, st));
    if d.stream.queue == [] && !d.stream.endPending && d.stream.exitPending
    then Flushed(d.stream, d.msgs + [ExitMsg(id, d.stream.status)], true, false)
    else Flushed(d.stream, d.msgs, false, st.queued >= window && d.stream.queued < window)
  }

  function CloseLocally(ep: Endpoint, id: U32, peerClosed: bool): Endpoint {
    ep.(streams := ep.streams - {id}, closed := ep.closed[id := peerClosed])
  }

  function FlushInto(ep: Endpoint, id: U32, st: Stream): Outcome {
    var f := Flush(id, st, ep.window);
    Outcome(if f.exited then CloseLocally(ep, id, f.stream.peerClosed) else ep.(streams := ep.streams[id := f.stream]),
            f.msgs,
            if f.writable then [OnWritable(id)] else [])
  }

  // ---- API calls ----------------------------------------------------------------------------------------------

  datatype Api =
    | Open(request: OpenRequest)
    | SendData(id: U32, bytes: seq<Byte>, end: bool, channel: Channel)
    | SendExit(id: U32, status: ExitStatus)
    | Consume(id: U32, n: U32)
    | Ping
    | GoAway

  predicate CanOpen(ep: Endpoint, r: OpenRequest) {
    && !ep.failed && ep.role.Controller? && !ep.sentGoAway && !ep.receivedGoAway && ep.nextId != 0 && Valid(r)
  }

  function CallOpen(ep: Endpoint, r: OpenRequest): Outcome {
    if !CanOpen(ep, r) then Nothing(ep)
    else Outcome(ep.(nextId := NextU32(ep.nextId),
                     streams := if ep.nextId in ep.streams then ep.streams
                                else ep.streams[ep.nextId := NewStream(ep.window)]),
                 [OpenMsg(ep.nextId, r)], [])
  }

  /** Whether `sendData` takes the bytes, rather than ignoring the call. */
  predicate Accepts(ep: Endpoint, id: U32, channel: Channel) {
    && !ep.failed && (ep.role.Controller? ==> channel.Stdout?)
    && id in ep.streams && !ep.streams[id].localClosed && !ep.streams[id].exitPending
  }

  function Enqueue(st: Stream, bytes: seq<Byte>, end: bool, channel: Channel): Stream {
    st.(queue := if bytes == [] then st.queue else st.queue + [Segment(channel, bytes)],
        queued := st.queued + |bytes|,
        localClosed := st.localClosed || end,
        endPending := st.endPending || end)
  }

  function CallSendData(ep: Endpoint, id: U32, bytes: seq<Byte>, end: bool, channel: Channel): Outcome {
    if !Accepts(ep, id, channel) then Nothing(ep)
    else FlushInto(ep, id, Enqueue(ep.streams[id], bytes, end, channel))
  }

  /** Whether `sendExit` takes effect, now or deferred. */
  predicate TakesExit(ep: Endpoint, id: U32) {
    !ep.failed && ep.role.Node? && id in ep.streams && !ep.streams[id].exitPending
  }

  function CallSendExit(ep: Endpoint, id: U32, status: ExitStatus): Outcome {
    if !TakesExit(ep, id) then Nothing(ep)
    else
      var st := ep.streams[id].(localClosed := true);
      if st.queue != [] || st.endPending
      then Nothing(ep.(streams := ep.streams[id := st.(exitPending := true, status := status)]))
      else Outcome(CloseLocally(ep, id, st.peerClosed), [ExitMsg(id, status)], [])
  }

  function CallConsume(ep: Endpoint, id: U32, n: nat): Outcome {
    if ep.failed || id !in ep.streams then Nothing(ep)
    else
      var st := ep.streams[id];
      var (recv, delta) := Consumed(st.recv, ep.window, n);
      Outcome(ep.(streams := ep.streams[id := st.(recv := recv)]),
              if delta > 0 then [CreditMsg(id, delta % U32_LIMIT)] else [], [])
  }

  function Call(ep: Endpoint, api: Api): Outcome {
    match api
    case Open(r) => CallOpen(ep, r)
    case SendData(id, bytes, end, channel) => CallSendData(ep, id, bytes, end, channel)
    case SendExit(id, status) => CallSendExit(ep, id, status)
    case Consume(id, n) => CallConsume(ep, id, n)
    case Ping => if ep.failed then Nothing(ep) else Outcome(ep, [PingMsg], [])
    case GoAway =>
      if ep.failed || ep.sentGoAway then Nothing(ep) else Outcome(ep.(sentGoAway := true), [GoAwayMsg], [])
  }

  // ---- received messages --------------------------------------------------------------------------------------

  function ReceiveOpen(ep: Endpoint, id: U32, r: OpenRequest): Outcome {
    if !ep.role.Node? || ep.sentGoAway || ep.receivedGoAway || id != ep.nextPeer then Fail(ep)
    else Outcome(ep.(nextPeer := NextU32(id),
                     streams := if id in ep.streams then ep.streams else ep.streams[id := NewStream(ep.window)]),
                 [], [OnOpen(id, r)])
  }

  function ReceiveData(ep: Endpoint, id: U32, end: bool, channel: Channel, bytes: seq<Byte>): Outcome {
    if ep.role.Node? && channel.Stderr? then Fail(ep)
    else if id in ep.closed then
      if ep.closed[id] then Fail(ep) else Nothing(ep.(closed := ep.closed[id := end]))
    else if id !in ep.streams || ep.streams[id].peerClosed || !HasRoom(ep.streams[id].recv, ep.window, |bytes|)
    then Fail(ep)
    else
      var st := ep.streams[id];
      Outcome(ep.(streams := ep.streams[id := st.(recv := Deliver(st.recv, |bytes|), peerClosed := end)]),
              [], [OnData(id, bytes, end, channel)])
  }

  function ReceiveExit(ep: Endpoint, id: U32, status: ExitStatus): Outcome {
    if !ep.role.Controller? || id !in ep.streams then Fail(ep)
    else Outcome(ep.(streams := ep.streams - {id}), [], [OnExit(id, status)])
  }

  function ReceiveCredit(ep: Endpoint, id: U32, delta: U32): Outcome {
    if id !in ep.streams then (if id in ep.closed then Nothing(ep) else Fail(ep))
    else
      var st := ep.streams[id];
      if st.credit + delta > MAX_STREAM_WINDOW then Fail(ep)
      else FlushInto(ep, id, st.(credit := st.credit + delta))
  }

  /** `dispatch` of an interpreted message by an unfailed session. */
  function Dispatch(ep: Endpoint, m: Msg): Outcome {
    match m
    case OpenMsg(id, r) => ReceiveOpen(ep, id, r)
    case DataMsg(id, end, channel, bytes) => ReceiveData(ep, id, end, channel, bytes)
    case CreditMsg(id, delta) => ReceiveCredit(ep, id, delta)
    case ExitMsg(id, status) => ReceiveExit(ep, id, status)
    case PingMsg => Outcome(ep, [PongMsg], [])
    case PongMsg => Outcome(ep, [], [OnPong])
    case GoAwayMsg => Outcome(ep.(receivedGoAway := true), [], [OnGoAway])
  }

  /** `dispatch` of a raw frame. */
  function DispatchFrame(ep: Endpoint, f: Frame): Outcome {
    match Interpret(f)
    case None => Fail(ep)
    case Some(m) => Dispatch(ep, m)
  }
}
