/** What frames mean to a session: the seven psx/1 messages and their exact frame forms. */
module Messages {
  import opened Wire
  import opened Options
  import opened FrameCodec
  import opened OpenPayload
  import opened ControlPayloads

  datatype Channel = Stdout | Stderr

  datatype Msg =
    | OpenMsg(id: U32, request: OpenRequest)
    | DataMsg(id: U32, end: bool, channel: Channel, bytes: seq<Byte>)
    | CreditMsg(id: U32, delta: U32)
    | ExitMsg(id: U32, status: ExitStatus)
    | PingMsg
    | PongMsg
    | GoAwayMsg

  predicate IsStreamMsg(m: Msg) {
    m.OpenMsg? || m.DataMsg? || m.CreditMsg? || m.ExitMsg?
  }

  const TYPE_OPEN: Byte := 1
  const TYPE_DATA: Byte := 2
  const TYPE_WINDOW_UPDATE: Byte := 3
  const TYPE_EXIT: Byte := 4
  const TYPE_PING: Byte := 5
  const TYPE_PONG: Byte := 6
  const TYPE_GOAWAY: Byte := 7

  const FLAG_END_STREAM: Byte := 1
  const FLAG_STDERR: Byte := 2

  function DataFlags(end: bool, channel: Channel): Byte {
    (if end then FLAG_END_STREAM else 0) + (if channel.Stderr? then FLAG_STDERR else 0)
  }

  /** The frame a session writes for a message. */
  function ToFrame(m: Msg): Frame {
    match m
    case OpenMsg(id, request) => Frame(TYPE_OPEN, 0, id, EncodeOpen(request))
    case DataMsg(id, end, channel, bytes) => Frame(TYPE_DATA, DataFlags(end, channel), id, bytes)
    case CreditMsg(id, delta) => Frame(TYPE_WINDOW_UPDATE, 0, id, EncodeWindowUpdate(delta))
    case ExitMsg(id, status) => Frame(TYPE_EXIT, FLAG_END_STREAM, id, EncodeExit(status))
    case PingMsg => Frame(TYPE_PING, 0, 0, [])
    case PongMsg => Frame(TYPE_PONG, 0, 0, [])
    case GoAwayMsg => Frame(TYPE_GOAWAY, 0, 0, [])
  }

  /** The checks of `dispatch` that look at the frame alone: flags, stream id and payload form. The accepted flag
      sets are the low-bit masks 0, END_STREAM and END_STREAM|STDERR, so a mask test is a comparison. */
  function Interpret(f: Frame): Option<Msg> {
    if f.kind == TYPE_OPEN then InterpretOpen(f)
    else if f.kind == TYPE_DATA then InterpretData(f)
    else if f.kind == TYPE_WINDOW_UPDATE then InterpretCredit(f)
    else if f.kind == TYPE_EXIT then InterpretExit(f)
    else if f.id != 0 || f.flags != 0 || f.payload != [] then None
    else if f.kind == TYPE_PING then Some(PingMsg)
    else if f.kind == TYPE_PONG then Some(PongMsg)
    else if f.kind == TYPE_GOAWAY then Some(GoAwayMsg)
    else None
  }

  function InterpretOpen(f: Frame): Option<Msg> {
    if f.id == 0 || f.flags != 0 then None
    else match DecodeOpen(f.payload) case None => None case Some(r) => Some(OpenMsg(f.id, r))
  }

  function InterpretData(f: Frame): Option<Msg> {
    if f.id == 0 || f.flags > FLAG_END_STREAM + FLAG_STDERR then None
    else Some(DataMsg(f.id, f.flags % 2 == 1, if f.flags / 2 == 1 then Stderr else Stdout, f.payload))
  }

  function InterpretCredit(f: Frame): Option<Msg> {
    if f.id == 0 || f.flags != 0 then None
    else match DecodeWindowUpdate(f.payload) case None => None case Some(delta) => Some(CreditMsg(f.id, delta))
  }

  function InterpretExit(f: Frame): Option<Msg> {
    if f.id == 0 || f.flags > FLAG_END_STREAM then None
    else match DecodeExit(f.payload) case None => None case Some(status) => Some(ExitMsg(f.id, status))
  }

  /** A message an unfailed session may put on the wire. */
  predicate WellFormed(m: Msg) {
    && (IsStreamMsg(m) ==> m.id != 0)
    && (m.OpenMsg? ==> Valid(m.request))
    && (m.CreditMsg? ==> m.delta != 0)
  }

  /** A frame means `m` exactly when `m` is well formed and the frame is its form; only EXIT may omit its flag. */
  lemma InterpretIff(f: Frame, m: Msg)
    ensures Interpret(f) == Some(m) <==>
            WellFormed(m) && (f == ToFrame(m) || (m.ExitMsg? && f == ToFrame(m).(flags := 0)))
  {
    match m
    case OpenMsg(_, r) => DecodeOpenIff(f.payload, r);
    case DataMsg(_, _, _, _) =>
    case CreditMsg(_, delta) => DecodeWindowUpdateIff(f.payload, delta);
    case ExitMsg(_, status) => DecodeExitIff(f.payload, status);
    case PingMsg =>
    case PongMsg =>
    case GoAwayMsg =>
  }

  lemma MeaningIsWellFormed(f: Frame)
    requires Interpret(f).Some?
    ensures WellFormed(Interpret(f).value)
  {
    InterpretIff(f, Interpret(f).value);
  }

  function EncodeMsg(m: Msg): seq<Byte> {
    EncodeFrame(ToFrame(m))
  }

  function EncodeMsgs(ms: seq<Msg>): seq<Byte> {
    if ms == [] then [] else EncodeMsg(ms[0]) + EncodeMsgs(ms[1..])
  }

  lemma {:induction false} EncodeMsgsAppend(a: seq<Msg>, b: seq<Msg>)
    ensures EncodeMsgs(a + b) == EncodeMsgs(a) + EncodeMsgs(b)
  {
    if a == [] {
      assert a + b == b;
    } else {
      EncodeMsgsAppend(a[1..], b);
      assert (a + b)[1..] == a[1..] + b && (a + b)[0] == a[0];
      AppendAssociates(EncodeMsg(a[0]), EncodeMsgs(a[1..]), EncodeMsgs(b));
    }
  }

  lemma AppendAssociates(a: seq<Byte>, b: seq<Byte>, c: seq<Byte>)
    ensures a + (b + c) == (a + b) + c
  {
  }

  /** A message that a peer with the default payload limit decodes. */
  predicate Sendable(m: Msg) {
    WellFormed(m) && |ToFrame(m).payload| <= DEFAULT_MAX_PAYLOAD
  }

  /** What a decoder sees at the front of any prefix of an honest byte stream. */
  lemma FrontOfHonestStream(buffer: seq<Byte>, wire: seq<Byte>, ms: seq<Msg>)
    requires buffer + wire == EncodeMsgs(ms)
    requires ms != [] ==> Sendable(ms[0])
    ensures var front := ParseFront(buffer, DEFAULT_MAX_PAYLOAD);
            || front == Partial
            || (ms != [] && front == Complete(ToFrame(ms[0]), |EncodeMsg(ms[0])|) && Interpret(front.frame) == Some(ms[0]))
    ensures ParseFront(buffer, DEFAULT_MAX_PAYLOAD).Complete? ==>
              buffer[|EncodeMsg(ms[0])|..] + wire == EncodeMsgs(ms[1..])
  {
    if ms == [] {
      assert |buffer + wire| == 0;
      assert buffer == [];
    } else {
      var f, e := ToFrame(ms[0]), EncodeMsg(ms[0]);
      var rest := EncodeMsgs(ms[1..]);
      assert buffer + wire == e + rest;
      InterpretIff(f, ms[0]);
      if |buffer| < |e| {
        assert buffer == (buffer + wire)[..|buffer|] == (e + rest)[..|buffer|] == e[..|buffer|];
        PartialOfEncoded(f, |buffer|, DEFAULT_MAX_PAYLOAD);
      } else {
        assert buffer == (buffer + wire)[..|buffer|] == e + rest[..|buffer| - |e|];
        FrontOfEncoded(f, rest[..|buffer| - |e|], DEFAULT_MAX_PAYLOAD);
        assert buffer[|e|..] + wire == (buffer + wire)[|e|..] == (e + rest)[|e|..] == rest;
      }
    }
  }

  /** An OPEN payload may exceed the frame limit although its request is valid. */
  predicate Fitting(m: Msg) {
    m.OpenMsg? ==> |EncodeOpen(m.request)| <= DEFAULT_MAX_PAYLOAD
  }

  /** A decoder waits for the header of an oversized OPEN and then gives up. */
  lemma FrontOfOversized(buffer: seq<Byte>, wire: seq<Byte>, ms: seq<Msg>)
    requires buffer + wire == EncodeMsgs(ms) && ms != [] && !Fitting(ms[0]) && Valid(ms[0].request)
    ensures |buffer| < HEADER_SIZE ==> ParseFront(buffer, DEFAULT_MAX_PAYLOAD) == Partial
    ensures |buffer| >= HEADER_SIZE ==> ParseFront(buffer, DEFAULT_MAX_PAYLOAD) == TooLong && buffer[0] == TYPE_OPEN
  {
    hide EncodeFrame, EncodeU32, DecodeU32, EncodeOpen, Valid;
    if |buffer| >= HEADER_SIZE {
      var f, rest := ToFrame(ms[0]), EncodeMsgs(ms[1..]);
      OpenLength(ms[0].request);
      EncodedSlices(f, rest);
      U32RoundTrip(|f.payload|);
      HeaderOfPrefix(buffer, wire, EncodeFrame(f) + rest);
    }
  }

  lemma HeaderOfPrefix(buffer: seq<Byte>, wire: seq<Byte>, s: seq<Byte>)
    requires buffer + wire == s && |buffer| >= HEADER_SIZE
    ensures buffer[0] == s[0] && buffer[6..10] == s[6..10]
  {
  }
}
