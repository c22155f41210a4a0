/** The session object: mutable streams, counters and flags, a decoder buffer, and logs of what it wrote and called. */
module SessionObject {
  import opened Wire
  import opened FrameCodec
  import opened OpenPayload
  import opened ControlPayloads
  import opened Messages
  import opened CreditWindows
  import opened SessionSpec
  import opened FlowFacts

  /** Dispatching every complete frame in a buffer: state, leftover bytes, messages written, callbacks made. */
  datatype Intake = Intake(ep: Endpoint, rest: seq<Byte>, msgs: seq<Msg>, calls: seq<Callback>)

  /** API calls one after the other. */
  function CallAll(ep: Endpoint, apis: seq<Api>): Outcome
    decreases |apis|
  {
    if |apis| == 0 then Nothing(ep)
    else
      var o := Call(ep, apis[0]);
      var later := CallAll(o.ep, apis[1..]);
      Outcome(later.ep, o.msgs + later.msgs, o.calls + later.calls)
  }

  /** One frame, and what the handler calls from its callback; a dispatch touches nothing after its callback. */
  function Answered(ep: Endpoint, f: Frame, replies: seq<seq<Api>>): Outcome {
    var o := DispatchFrame(ep, f);
    var answer := CallAll(o.ep, if |replies| == 0 then [] else replies[0]);
    Outcome(answer.ep, o.msgs + answer.msgs, o.calls + answer.calls)
  }

  function Later(replies: seq<seq<Api>>): seq<seq<Api>> {
    if |replies| == 0 then [] else replies[1..]
  }

  function TakeIn(ep: Endpoint, buffer: seq<Byte>, replies: seq<seq<Api>>): Intake
    decreases |buffer|
  {
    if ep.failed then Intake(ep, buffer, [], [])
    else
      match ParseFront(buffer, DEFAULT_MAX_PAYLOAD)
      case Partial => Intake(ep, buffer, [], [])
      case TooLong => Intake(ep.(failed := true), buffer, [], [])
      case Complete(f, size) =>
        var o := Answered(ep, f, replies);
        var later := TakeIn(o.ep, buffer[size..], Later(replies));
        Intake(later.ep, later.rest, o.msgs + later.msgs, o.calls + later.calls)
  }

  class Session {
    const role: Role
    const initialWindow: nat
    var streams: map<U32, Stream>
    var locallyClosed: map<U32, bool>
    var nextStreamId: U32
    var nextPeerStreamId: U32
    var sentGoAway: bool
    var receivedGoAway: bool
    var protocolFailed: bool
    var buffer: seq<Byte>
    var wire: seq<Byte>
    var calls: seq<Callback>

    constructor (role: Role, initialWindow: nat)
      ensures State() == NewEndpoint(role, initialWindow) && buffer == [] && wire == [] && calls == []
    {
      this.role, this.initialWindow := role, initialWindow;
      streams, locallyClosed := map[], map[];
      nextStreamId, nextPeerStreamId := 1, 1;
      sentGoAway, receivedGoAway, protocolFailed := false, false, false;
      buffer, wire, calls := [], [], [];
    }

    function State(): Endpoint
      reads this
    {
      Endpoint(role, initialWindow, streams, locallyClosed, nextStreamId, nextPeerStreamId, sentGoAway, receivedGoAway,
               protocolFailed)
    }

    /** The object moved from `before` as `o` says, appending to its logs. */
    twostate predicate Did(o: Outcome)
      reads this
    {
      && State() == o.ep && buffer == old(buffer)
      && wire == old(wire) + EncodeMsgs(o.msgs) && calls == old(calls) + o.calls
    }

    /** `send`: nothing is written once the session has failed. */
    method Send(m: Msg)
      modifies this`wire
      ensures wire == if protocolFailed then old(wire) else old(wire) + EncodeMsg(m)
    {
      if protocolFailed {
        return;
      }
      wire := wire + EncodeMsg(m);
    }

    method Open(request: OpenRequest) returns (id: U32)
      modifies this
      ensures Did(CallOpen(old(State()), request))
      ensures id == if CanOpen(old(State()), request) then old(nextStreamId) else 0
    {
      Encodings([], PingMsg);
      if protocolFailed || role != Controller || sentGoAway || receivedGoAway || nextStreamId == 0 || !Valid(request) {
        return 0;
      }
      id := nextStreamId;
      nextStreamId := NextU32(nextStreamId);
      if id !in streams {
        streams := streams[id := NewStream(initialWindow)];
      }
      Encodings([], OpenMsg(id, request));
      Send(OpenMsg(id, request));
    }

    method SendData(id: U32, bytes: seq<Byte>, endStream: bool, channel: Channel)
      modifies this
      ensures Did(CallSendData(old(State()), id, bytes, endStream, channel))
    {
      Encodings([], PingMsg);
      if protocolFailed || (role == Controller && channel != Stdout) || id !in streams {
        return;
      }
      var stream := streams[id];
      if stream.localClosed || stream.exitPending {
        return;
      }
      if bytes != [] {
        stream := stream.(queue := stream.queue + [Segment(channel, bytes)], queued := stream.queued + |bytes|);
      }
      if endStream {
        stream := stream.(localClosed := true, endPending := true);
      }
      assert stream == Enqueue(streams[id], bytes, endStream, channel);
      FlushStream(id, stream);
    }

    /** The draining loop of `flushStream`. */
    method DrainQueue(id: U32, stream0: Stream) returns (stream: Stream)
      requires !protocolFailed
      modifies this`wire
      ensures stream == Drain(id, stream0).stream
      ensures wire == old(wire) + EncodeMsgs(Drain(id, stream0).msgs)
    {
      stream := stream0;
      ghost var sent: seq<Msg> := [];
      Encodings([], PingMsg);
      Resume(Drain(id, stream));
      while stream.queue != [] && stream.credit > 0
        invariant Drain(id, stream0) == After(sent, Drain(id, stream))
        invariant wire == old(wire) + EncodeMsgs(sent)
        decreases |stream.queue|, stream.credit
      {
        hide EncodeMsg, EncodeMsgs, Drain;
        var step := SendFront(id, stream);
        DrainStep(id, stream, sent);
        Encodings(sent, step.msgs[0]);
        Extend(old(wire), EncodeMsgs(sent), EncodeMsg(step.msgs[0]));
        Send(step.msgs[0]);
        sent := sent + step.msgs;
        stream := step.stream;
      }
      DrainEnds(id, stream, sent);
    }

    /** `flushStream` on the record `stream0` of an unfailed session: drain, then END_STREAM, then EXIT. */
    method FlushStream(id: U32, stream0: Stream)
      requires !protocolFailed
      modifies this
      ensures Did(FlushInto(old(State()), id, stream0))
    {
      hide EncodeMsg, EncodeMsgs, Drain;
      var wasFull := stream0.queued >= initialWindow;
      var stream := DrainQueue(id, stream0);
      ghost var sent := Drain(id, stream0).msgs;
      if stream.queue == [] && stream.endPending {
        var m := DataMsg(id, true, Stdout, []);
        Encodings(sent, m);
        Extend(old(wire), EncodeMsgs(sent), EncodeMsg(m));
        Send(m);
        sent := sent + [m];
        stream := stream.(endPending := false);
      }
      assert SendEnd(id, Drain(id, stream0)) == Drained(stream, sent);
      if stream.queue == [] && !stream.endPending && stream.exitPending {
        var m := ExitMsg(id, stream.status);
        Encodings(sent, m);
        Extend(old(wire), EncodeMsgs(sent), EncodeMsg(m));
        Send(m);
        CloseLocal(id, stream.peerClosed);
        return;
      }
      streams := streams[id := stream];
      if wasFull && stream.queued < initialWindow {
        calls := calls + [OnWritable(id)];
      }
    }

    method CloseLocal(id: U32, peerClosed: bool)
      modifies this`streams, this`locallyClosed
      ensures State() == CloseLocally(old(State()), id, peerClosed)
    {
      locallyClosed := locallyClosed[id := peerClosed];
      streams := streams - {id};
    }

    /** Room for the producer: less than a window of bytes is queued. An unknown stream holds nobody up. */
    method StreamWritable(id: U32) returns (writable: bool)
      ensures id !in streams ==> writable
      ensures id in streams && Sound(streams[id]) ==> (writable <==> QueueLen(streams[id].queue) < initialWindow)
    {
      writable := id !in streams || streams[id].queued < initialWindow;
    }

    method Consume(id: U32, n: U32)
      modifies this
      ensures Did(CallConsume(old(State()), id, n))
    {
      Encodings([], PingMsg);
      if protocolFailed || id !in streams {
        return;
      }
      var window := new CreditWindow(initialWindow);
      window.outstanding, window.pendingUpdate := streams[id].recv.outstanding, streams[id].recv.pending;
      var delta := window.OnConsumed(n);
      streams := streams[id := streams[id].(recv := window.State())];
      if delta > 0 {
        Encodings([], CreditMsg(id, delta % U32_LIMIT));
        Send(CreditMsg(id, delta % U32_LIMIT));
      }
    }

    method SendExit(id: U32, status: ExitStatus)
      modifies this
      ensures Did(CallSendExit(old(State()), id, status))
    {
      Encodings([], PingMsg);
      if protocolFailed || role != Node || id !in streams || streams[id].exitPending {
        return;
      }
      var stream := streams[id].(localClosed := true);
      if stream.queue != [] || stream.endPending {
        streams := streams[id := stream.(exitPending := true, status := status)];
        return;
      }
      Encodings([], ExitMsg(id, status));
      Send(ExitMsg(id, status));
      CloseLocal(id, stream.peerClosed);
    }

    method Ping()
      modifies this
      ensures Did(Call(old(State()), Api.Ping))
    {
      Encodings([], PingMsg);
      Send(PingMsg);
    }

    method GoAway()
      modifies this
      ensures Did(Call(old(State()), Api.GoAway))
    {
      Encodings([], GoAwayMsg);
      if protocolFailed || sentGoAway {
        return;
      }
      sentGoAway := true;
      Send(GoAwayMsg);
    }

    /** An API call, by value. */
    method Perform(api: Api)
      modifies this
      ensures Did(Call(old(State()), api))
    {
      match api
      case Open(request) => var _ := Open(request);
      case SendData(id, bytes, end, channel) => SendData(id, bytes, end, channel);
      case SendExit(id, status) => SendExit(id, status);
      case Consume(id, n) => Consume(id, n);
      case Ping => Ping();
      case GoAway => GoAway();
    }

    method PerformAll(apis: seq<Api>)
      modifies this
      ensures Did(CallAll(old(State()), apis))
    {
      hide EncodeMsg, Call;
      Encodings([], PingMsg);
      if |apis| == 0 {
        return;
      }
      ghost var first := Call(State(), apis[0]);
      ghost var rest := CallAll(first.ep, apis[1..]);
      Perform(apis[0]);
      PerformAll(apis[1..]);
      EncodeMsgsAppend(first.msgs, rest.msgs);
      Extend(old(wire), EncodeMsgs(first.msgs), EncodeMsgs(rest.msgs));
      Assoc(old(calls), first.calls, rest.calls);
    }

    /** One frame with the calls its handler makes back into the session. */
    method DispatchAndReply(frame: Frame, replies: seq<seq<Api>>)
      requires !protocolFailed
      modifies this
      ensures Did(Answered(old(State()), frame, replies))
    {
      hide EncodeMsgs, EncodeMsg, DispatchFrame, CallAll;
      ghost var o := DispatchFrame(State(), frame);
      var apis := if |replies| == 0 then [] else replies[0];
      ghost var answer := CallAll(o.ep, apis);
      Dispatch(frame);
      PerformAll(apis);
      EncodeMsgsAppend(o.msgs, answer.msgs);
      Extend(old(wire), EncodeMsgs(o.msgs), EncodeMsgs(answer.msgs));
      Assoc(old(calls), o.calls, answer.calls);
    }

    /** `receive`: `replies` are the calls the handler makes from the callbacks of the first, second, ... frame; `ok` is
        false exactly when the session is, or becomes, failed. */
    method Receive(bytes: seq<Byte>, replies: seq<seq<Api>>) returns (ok: bool)
      modifies this
      ensures var took := TakeIn(old(State()), if old(protocolFailed) then old(buffer) else old(buffer) + bytes, replies);
              && State() == took.ep && buffer == took.rest
              && wire == old(wire) + EncodeMsgs(took.msgs) && calls == old(calls) + took.calls
      ensures ok == !protocolFailed
    {
      Encodings([], PingMsg);
      if protocolFailed {
        return false;
      }
      buffer := buffer + bytes;
      ghost var whole := TakeIn(State(), buffer, replies);
      ghost var msgs: seq<Msg>, made: seq<Callback> := [], [];
      var left := replies;
      var front := ParseFront(buffer, DEFAULT_MAX_PAYLOAD);
      while !protocolFailed && front.Complete?
        invariant front == ParseFront(buffer, DEFAULT_MAX_PAYLOAD)
        invariant whole == Join(msgs, made, TakeIn(State(), buffer, left))
        invariant wire == old(wire) + EncodeMsgs(msgs) && calls == old(calls) + made
        decreases |buffer|
      {
        hide EncodeMsgs, EncodeMsg, ParseFront, Answered;
        ghost var o := Answered(State(), front.frame, left);
        TakeInStep(State(), buffer, left, msgs, made);
        EncodeMsgsAppend(msgs, o.msgs);
        Extend(old(wire), EncodeMsgs(msgs), EncodeMsgs(o.msgs));
        Assoc(old(calls), made, o.calls);
        DispatchAndReply(front.frame, left);
        buffer := buffer[front.size..];
        msgs, made := msgs + o.msgs, made + o.calls;
        left := Later(left);
        front := ParseFront(buffer, DEFAULT_MAX_PAYLOAD);
      }
      if !protocolFailed && front.TooLong? {
        protocolFailed := true;
      }
      assert msgs + [] == msgs && made + [] == made;
      ok := !protocolFailed;
    }

    /** `dispatch` on an unfailed session; a protocol violation poisons it. */
    method Dispatch(frame: Frame)
      requires !protocolFailed
      modifies this
      ensures Did(DispatchFrame(old(State()), frame))
    {
      Encodings([], PingMsg);
      var m := Interpret(frame);
      if m.None? {
        protocolFailed := true;
        return;
      }
      match m.value
      case OpenMsg(id, request) => OnOpenFrame(id, request);
      case DataMsg(id, end, channel, bytes) => OnDataFrame(id, end, channel, bytes);
      case CreditMsg(id, delta) => OnCreditFrame(id, delta);
      case ExitMsg(id, status) =>
        if role != Controller || id !in streams {
          protocolFailed := true;
          return;
        }
        streams := streams - {id};
        calls := calls + [OnExit(id, status)];
      case PingMsg =>
        Encodings([], PongMsg);
        Send(PongMsg);
      case PongMsg =>
        calls := calls + [OnPong];
      case GoAwayMsg =>
        receivedGoAway := true;
        calls := calls + [OnGoAway];
    }

    method OnOpenFrame(id: U32, request: OpenRequest)
      modifies this
      ensures Did(ReceiveOpen(old(State()), id, request))
    {
      Encodings([], PingMsg);
      if role != Node || sentGoAway || receivedGoAway || id != nextPeerStreamId {
        protocolFailed := true;
        return;
      }
      nextPeerStreamId := NextU32(id);
      if id !in streams {
        streams := streams[id := NewStream(initialWindow)];
      }
      calls := calls + [OnOpen(id, request)];
    }

    method OnDataFrame(id: U32, end: bool, channel: Channel, bytes: seq<Byte>)
      modifies this
      ensures Did(ReceiveData(old(State()), id, end, channel, bytes))
    {
      Encodings([], PingMsg);
      if role == Node && channel == Stderr {
        protocolFailed := true;
        return;
      }
      if id in locallyClosed {
        if locallyClosed[id] {
          protocolFailed := true;
        } else {
          locallyClosed := locallyClosed[id := end];
        }
        return;
      }
      if id !in streams || streams[id].peerClosed || |bytes| > initialWindow - streams[id].recv.outstanding {
        protocolFailed := true;
        return;
      }
      var recv := streams[id].recv;
      streams := streams[id := streams[id].(recv := recv.(outstanding := recv.outstanding + |bytes|), peerClosed := end)];
      calls := calls + [OnData(id, bytes, end, channel)];
    }

    method OnCreditFrame(id: U32, delta: U32)
      requires !protocolFailed
      modifies this
      ensures Did(ReceiveCredit(old(State()), id, delta))
    {
      Encodings([], PingMsg);
      if id !in streams {
        if id !in locallyClosed {
          protocolFailed := true;
        }
        return;
      }
      var stream := streams[id];
      if stream.credit + delta > MAX_STREAM_WINDOW {
        protocolFailed := true;
        return;
      }
      FlushStream(id, stream.(credit := stream.credit + delta));
    }
  }

  // ---- what a receive dispatches ------------------------------------------------------------------------------

  /** Frames one after the other, until one fails the session. */
  function AnswerAll(ep: Endpoint, frames: seq<Frame>, replies: seq<seq<Api>>): Outcome
    decreases |frames|
  {
    if ep.failed || |frames| == 0 then Nothing(ep)
    else
      var o := Answered(ep, frames[0], replies);
      var later := AnswerAll(o.ep, frames[1..], Later(replies));
      Outcome(later.ep, o.msgs + later.msgs, o.calls + later.calls)
  }

  /** A receive dispatches every complete frame there is, in order, up to the first error; an unfailed session keeps the
      incomplete rest and nothing else, and a frame that is too long is an error. */
  lemma {:induction false} EveryFrameIsTaken(ep: Endpoint, buffer: seq<Byte>, replies: seq<seq<Api>>)
    requires !ep.failed
    ensures var took, all := TakeIn(ep, buffer, replies), ParseAll(buffer, DEFAULT_MAX_PAYLOAD);
            var o := AnswerAll(ep, all.frames, replies);
            && took.msgs == o.msgs && took.calls == o.calls
            && took.ep == (if all.failed then o.ep.(failed := true) else o.ep)
            && (!took.ep.failed ==> took.rest == all.rest && ParseFront(took.rest, DEFAULT_MAX_PAYLOAD).Partial?)
    decreases |buffer|
  {
    hide ParseFront, Answered, Later;
    var front := ParseFront(buffer, DEFAULT_MAX_PAYLOAD);
    if front.Complete? {
      var o, tail := Answered(ep, front.frame, replies), ParseAll(buffer[front.size..], DEFAULT_MAX_PAYLOAD);
      assert ([front.frame] + tail.frames)[1..] == tail.frames;
      if o.ep.failed {
        FailedTakesNothing(o.ep, buffer[front.size..], tail.frames, Later(replies));
        assert o.ep.(failed := true) == o.ep;
      } else {
        EveryFrameIsTaken(o.ep, buffer[front.size..], Later(replies));
      }
    }
  }

  lemma FailedTakesNothing(ep: Endpoint, buffer: seq<Byte>, frames: seq<Frame>, replies: seq<seq<Api>>)
    requires ep.failed
    ensures TakeIn(ep, buffer, replies) == Intake(ep, buffer, [], []) && AnswerAll(ep, frames, replies) == Nothing(ep)
  {
  }

  // ---- loop bookkeeping ---------------------------------------------------------------------------------------

  function After(sent: seq<Msg>, d: Drained): Drained {
    Drained(d.stream, sent + d.msgs)
  }

  lemma Resume(d: Drained)
    ensures After([], d) == d
  {
    assert [] + d.msgs == d.msgs;
  }

  lemma DrainStep(id: U32, st: Stream, sent: seq<Msg>)
    requires st.queue != [] && st.credit > 0
    ensures After(sent, Drain(id, st)) == After(sent + SendFront(id, st).msgs, Drain(id, SendFront(id, st).stream))
  {
    var step := SendFront(id, st);
    Assoc(sent, step.msgs, Drain(id, step.stream).msgs);
  }

  lemma DrainEnds(id: U32, st: Stream, sent: seq<Msg>)
    requires st.queue == [] || st.credit == 0
    ensures After(sent, Drain(id, st)) == Drained(st, sent)
  {
    assert sent + [] == sent;
  }

  function Join(msgs: seq<Msg>, made: seq<Callback>, later: Intake): Intake {
    Intake(later.ep, later.rest, msgs + later.msgs, made + later.calls)
  }

  lemma TakeInStep(ep: Endpoint, buffer: seq<Byte>, replies: seq<seq<Api>>, msgs: seq<Msg>, made: seq<Callback>)
    requires !ep.failed && ParseFront(buffer, DEFAULT_MAX_PAYLOAD).Complete?
    ensures var front := ParseFront(buffer, DEFAULT_MAX_PAYLOAD);
            var o := Answered(ep, front.frame, replies);
            Join(msgs, made, TakeIn(ep, buffer, replies)) ==
            Join(msgs + o.msgs, made + o.calls, TakeIn(o.ep, buffer[front.size..], Later(replies)))
  {
    hide ParseFront, Answered, Later;
    var front := ParseFront(buffer, DEFAULT_MAX_PAYLOAD);
    var o := Answered(ep, front.frame, replies);
    var later := TakeIn(o.ep, buffer[front.size..], Later(replies));
    Assoc(msgs, o.msgs, later.msgs);
    Assoc(made, o.calls, later.calls);
  }

  lemma Encodings(sent: seq<Msg>, m: Msg)
    ensures EncodeMsgs([]) == []
    ensures EncodeMsgs([m]) == EncodeMsg(m)
    ensures EncodeMsgs(sent + [m]) == EncodeMsgs(sent) + EncodeMsg(m)
  {
    hide EncodeMsg;
    assert [m][1..] == [];
    EncodeMsgsAppend(sent, [m]);
  }

  lemma Extend(wire: seq<Byte>, a: seq<Byte>, b: seq<Byte>)
    ensures wire + (a + b) == (wire + a) + b
  {
  }
}
