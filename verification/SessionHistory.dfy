/** What a session owes its peer and its application, told from its history alone: the calls made and the messages that
    arrived. No field of the session is mentioned in what is owed. */
module SessionHistory {
  import opened Wire
  import opened FrameCodec
  import opened Options
  import opened OpenPayload
  import opened ControlPayloads
  import opened Messages
  import opened CreditWindows
  import opened SessionSpec
  import opened FlowFacts
  import opened StreamInvariant
  import opened StreamSteps
  import opened TwoParty

  /** The application asks for something, or a message of the peer arrives. */
  datatype Happening = Asked(api: Api) | Got(m: Msg)

  /** A session and everything it has written. */
  datatype Life = Life(ep: Endpoint, wrote: seq<Msg>)

  function React(ep: Endpoint, x: Happening): Outcome {
    match x
    case Asked(api) => Call(ep, api)
    case Got(m) => Dispatch(ep, m)
  }

  function LifeOf(role: Role, window: nat, h: seq<Happening>): Life {
    if |h| == 0 then Life(NewEndpoint(role, window), [])
    else
      var was := LifeOf(role, window, h[..|h| - 1]);
      if was.ep.failed then was
      else
        var o := React(was.ep, h[|h| - 1]);
        Life(o.ep, was.wrote + o.msgs)
  }

  // ---- what a history says ------------------------------------------------------------------------------------

  predicate GoneAway(h: seq<Happening>) {
    Asked(GoAway) in h || Got(GoAwayMsg) in h
  }

  /** A request within the bounds of an OPEN. */
  predicate Startable(r: OpenRequest) {
    && 1 <= |r.argv| <= 1024 && r.argv[0] != [] && |r.cwd| <= 32768
    && 0 !in r.cwd
    && (forall i :: 0 <= i < |r.argv| ==> |r.argv[i]| <= 131072 && 0 !in r.argv[i])
  }

  /** Whether this happening begins the next stream. */
  predicate Begins(role: Role, before: seq<Happening>, count: nat, x: Happening) {
    match role
    case Controller => x.Asked? && x.api.Open? && Startable(x.api.request) && !GoneAway(before) && count + 1 < U32_LIMIT
    case Node => x.Got? && x.m.OpenMsg?
  }

  /** How many streams have begun; they are numbered from 1. */
  function Opened(role: Role, h: seq<Happening>): nat {
    if |h| == 0 then 0
    else
      var before := h[..|h| - 1];
      Opened(role, before) + if Begins(role, before, Opened(role, before), h[|h| - 1]) then 1 else 0
  }

  predicate Begun(role: Role, h: seq<Happening>, id: U32) {
    0 < id <= Opened(role, h)
  }

  /** A controller sends on one channel only; anything else it asks for is ignored. */
  predicate Sends(role: Role, x: Happening, id: U32) {
    x.Asked? && x.api.SendData? && x.api.id == id && (role.Controller? ==> x.api.channel.Stdout?)
  }

  /** The end of what may be sent: the application ends its data, a node reports an exit, a controller is told of one. */
  predicate Closes(role: Role, x: Happening, id: U32) {
    || (Sends(role, x, id) && x.api.end)
    || (role.Node? && x.Asked? && x.api.SendExit? && x.api.id == id)
    || (x.Got? && x.m.ExitMsg? && x.m.id == id)
  }

  /** The stream has begun and nothing has closed it since. */
  predicate MaySend(role: Role, h: seq<Happening>, id: U32) {
    if |h| == 0 then false
    else
      var before, last := h[..|h| - 1], h[|h| - 1];
      !Closes(role, last, id) && (MaySend(role, before, id) || (Begun(role, h, id) && !Begun(role, before, id)))
  }

  /** What the session was told to send: every `sendData` from the stream's beginning until it is closed. */
  function Told(role: Role, h: seq<Happening>, id: U32): seq<Token> {
    if |h| == 0 then []
    else
      var before, last := h[..|h| - 1], h[|h| - 1];
      Told(role, before, id) +
      if Sends(role, last, id) && MaySend(role, before, id) then Sent(last.api.channel, last.api.bytes, last.api.end) else []
  }

  /** The status of the first `sendExit` since the stream began. */
  function ExitAsked(role: Role, h: seq<Happening>, id: U32): Option<ExitStatus> {
    if |h| == 0 then None
    else
      var before, last := h[..|h| - 1], h[|h| - 1];
      if ExitAsked(role, before, id).Some? then ExitAsked(role, before, id)
      else if role.Node? && last.Asked? && last.api.SendExit? && last.api.id == id && Begun(role, before, id)
      then Some(last.api.status)
      else None
  }

  /** Credit the peer has granted on a stream beyond the initial window. */
  function Granted(h: seq<Happening>, id: U32): nat {
    if |h| == 0 then 0
    else
      var last := h[|h| - 1];
      Granted(h[..|h| - 1], id) + if last.Got? && last.m.CreditMsg? && last.m.id == id then last.m.delta else 0
  }

  /** Data bytes that have arrived on a stream. */
  function Arrived(h: seq<Happening>, id: U32): nat {
    if |h| == 0 then 0
    else
      var last := h[|h| - 1];
      Arrived(h[..|h| - 1], id) + if last.Got? && last.m.DataMsg? && last.m.id == id then |last.m.bytes| else 0
  }

  /** Those of them the application has not consumed. */
  function Unread(h: seq<Happening>, id: U32): nat {
    if |h| == 0 then 0
    else
      var rest, last := Unread(h[..|h| - 1], id), h[|h| - 1];
      if last.Got? && last.m.DataMsg? && last.m.id == id then rest + |last.m.bytes|
      else if last.Asked? && last.api.Consume? && last.api.id == id then (if last.api.n < rest then rest - last.api.n else 0)
      else rest
  }

  /** The peer has ended its data. */
  predicate HalfClosed(h: seq<Happening>, id: U32) {
    exists x :: x in h && x.Got? && x.m.DataMsg? && x.m.id == id && x.m.end
  }

  predicate ExitGot(h: seq<Happening>, id: U32) {
    exists x :: x in h && x.Got? && x.m.ExitMsg? && x.m.id == id
  }

  predicate Formed(h: seq<Happening>) {
    forall x :: x in h && x.Got? ==> WellFormed(x.m)
  }

  // ---- what the session's records must say --------------------------------------------------------------------

  predicate NoExit(q: seq<Msg>) {
    forall m :: m in q ==> !m.ExitMsg?
  }

  /** Nothing is lost or added on the way to the wire, and credit is spent byte for byte. */
  predicate SendOk(st: Stream, own: seq<Msg>, told: seq<Token>, credit: nat) {
    Sound(st) && Tokens(own) + Owed(st) == told && st.credit + DataLen(own) == credit
  }

  /** What is consumed and not yet granted is less than half a window, and nothing once all is consumed. */
  predicate Little(c: Credit, window: nat) {
    (c.outstanding == 0 ==> c.pending == 0) && (c.pending == 0 || c.pending < window / 2)
  }

  predicate ReceiveOk(c: Credit, own: seq<Msg>, window: nat, h: seq<Happening>, id: U32) {
    && c.outstanding == Unread(h, id) <= window && Little(c, window)
    && c.outstanding + c.pending + CreditSum(own) == Arrived(h, id)
  }

  /** A live stream's books; credit may be unspent until the flush that follows. */
  predicate Books(st: Stream, own: seq<Msg>, role: Role, window: nat, h: seq<Happening>, id: U32) {
    && SendOk(st, own, Told(role, h, id), window + Granted(h, id)) && NoExit(own)
    && (MaySend(role, h, id) <==> !st.localClosed)
    && ExitAsked(role, h, id) == (if st.exitPending then Some(st.status) else None)
    && (st.peerClosed <==> HalfClosed(h, id)) && !ExitGot(h, id)
    && ReceiveOk(st.recv, own, window, h, id)
  }

  predicate LiveRecord(st: Stream, own: seq<Msg>, role: Role, window: nat, h: seq<Happening>, id: U32) {
    Flowing(st) && Books(st, own, role, window, h, id)
  }

  /** A stream the node has closed: its EXIT is the last thing written, behind all it was told to send. */
  predicate ClosedRecord(peerClosed: bool, own: seq<Msg>, role: Role, h: seq<Happening>, id: U32) {
    && role.Node? && ExitAsked(role, h, id).Some? && !MaySend(role, h, id)
    && |own| > 0 && NoExit(own[..|own| - 1]) && own[|own| - 1] == ExitMsg(id, ExitAsked(role, h, id).value)
    && Tokens(own) == Told(role, h, id)
    && (peerClosed <==> HalfClosed(h, id)) && !ExitGot(h, id)
  }

  /** A stream whose EXIT the controller has seen. */
  predicate DoneRecord(own: seq<Msg>, role: Role, h: seq<Happening>, id: U32) {
    && role.Controller? && ExitGot(h, id) && !MaySend(role, h, id) && NoExit(own)
    && Tokens(own) <= Told(role, h, id) && ExitAsked(role, h, id).None?
  }

  predicate FreshRecord(own: seq<Msg>, role: Role, h: seq<Happening>, id: U32) {
    && own == [] && !MaySend(role, h, id) && Told(role, h, id) == [] && ExitAsked(role, h, id).None?
    && Granted(h, id) == 0 && Arrived(h, id) == 0 && Unread(h, id) == 0 && !HalfClosed(h, id) && !ExitGot(h, id)
  }

  predicate Record(role: Role, window: nat, h: seq<Happening>, id: U32, st: Option<Stream>, closed: Option<bool>, own: seq<Msg>) {
    if st.Some? then closed.None? && Begun(role, h, id) && LiveRecord(st.value, own, role, window, h, id)
    else if closed.Some? then Begun(role, h, id) && ClosedRecord(closed.value, own, role, h, id)
    else if Begun(role, h, id) then DoneRecord(own, role, h, id)
    else FreshRecord(own, role, h, id)
  }

  predicate RecordOf(role: Role, window: nat, h: seq<Happening>, id: U32, life: Life) {
    Record(role, window, h, id, Look(life.ep.streams, id), Look(life.ep.closed, id), Only(life.wrote, id))
  }

  predicate Whole(role: Role, window: nat, h: seq<Happening>, ep: Endpoint) {
    && ep.role == role && ep.window == window && !ep.failed
    && Issued(if role.Controller? then ep.nextId else ep.nextPeer) == Opened(role, h)
    && (ep.sentGoAway <==> Asked(GoAway) in h) && (ep.receivedGoAway <==> Got(GoAwayMsg) in h)
  }

  predicate Recorded(role: Role, window: nat, h: seq<Happening>, life: Life) {
    Whole(role, window, h, life.ep) && forall id: U32 :: RecordOf(role, window, h, id, life)
  }

  // ---- one more happening -------------------------------------------------------------------------------------

  lemma Grows(role: Role, h: seq<Happening>, x: Happening, id: U32)
    ensures var h' := h + [x];
            && Opened(role, h') == Opened(role, h) + (if Begins(role, h, Opened(role, h), x) then 1 else 0)
            && (MaySend(role, h', id) <==>
                  !Closes(role, x, id) && (MaySend(role, h, id) || (Begun(role, h', id) && !Begun(role, h, id))))
            && Told(role, h', id) == Told(role, h, id) +
                 (if Sends(role, x, id) && MaySend(role, h, id) then Sent(x.api.channel, x.api.bytes, x.api.end) else [])
            && ExitAsked(role, h', id) ==
                 (if ExitAsked(role, h, id).Some? then ExitAsked(role, h, id)
                  else if role.Node? && x.Asked? && x.api.SendExit? && x.api.id == id && Begun(role, h, id) then Some(x.api.status)
                  else None)
  {
    assert (h + [x])[..|h|] == h;
  }

  lemma CountsGrow(h: seq<Happening>, x: Happening, id: U32)
    ensures var h' := h + [x];
            && Granted(h', id) == Granted(h, id) + (if x.Got? && x.m.CreditMsg? && x.m.id == id then x.m.delta else 0)
            && Arrived(h', id) == Arrived(h, id) + (if x.Got? && x.m.DataMsg? && x.m.id == id then |x.m.bytes| else 0)
            && Unread(h', id) ==
                 (if x.Got? && x.m.DataMsg? && x.m.id == id then Unread(h, id) + |x.m.bytes|
                  else if x.Asked? && x.api.Consume? && x.api.id == id
                  then (if x.api.n < Unread(h, id) then Unread(h, id) - x.api.n else 0)
                  else Unread(h, id))
            && (HalfClosed(h', id) <==> HalfClosed(h, id) || (x.Got? && x.m.DataMsg? && x.m.id == id && x.m.end))
            && (ExitGot(h', id) <==> ExitGot(h, id) || (x.Got? && x.m.ExitMsg? && x.m.id == id))
  {
    assert (h + [x])[..|h|] == h;
    assert forall y :: y in h + [x] <==> y in h || y == x;
  }

  /** Whether stream `id` has anything to do with this. */
  predicate About(role: Role, h: seq<Happening>, x: Happening, id: U32) {
    match x
    case Asked(Open(_)) => Begins(role, h, Opened(role, h), x) && id == Opened(role, h) + 1
    case Asked(SendData(j, _, _, _)) => id == j
    case Asked(SendExit(j, _)) => id == j
    case Asked(Consume(j, _)) => id == j
    case Asked(_) => false
    case Got(m) => IsFor(m, id)
  }

  /** What has nothing to do with a stream leaves its record true. */
  lemma Unconcerned(role: Role, window: nat, h: seq<Happening>, x: Happening, id: U32, st: Option<Stream>, closed: Option<bool>, own: seq<Msg>)
    requires Record(role, window, h, id, st, closed, own) && !About(role, h, x, id)
    requires role.Node? && x.Got? && x.m.OpenMsg? ==> x.m.id == Opened(role, h) + 1
    ensures Record(role, window, h + [x], id, st, closed, own)
  {
    hide Told, MaySend, ExitAsked, Granted, Arrived, Unread, HalfClosed, ExitGot, Opened, Tokens, DataLen, CreditSum, Owed, Flowing, Sound, GoneAway, Startable;
    Grows(role, h, x, id);
    CountsGrow(h, x, id);
    assert forall t: seq<Token> :: t + [] == t;
  }

  /** Nothing but stream `id` changes, and what is written is about it. */
  predicate OnlyTouches(ep: Endpoint, o: Outcome, id: U32) {
    && AllFor(o.msgs, id)
    && (forall j: U32 :: j != id ==> Look(o.ep.streams, j) == Look(ep.streams, j) && Look(o.ep.closed, j) == Look(ep.closed, j))
  }

  lemma OneStreamMoves(role: Role, window: nat, h: seq<Happening>, x: Happening, life: Life, o: Outcome, id: U32)
    requires Recorded(role, window, h, life) && OnlyTouches(life.ep, o, id)
    requires forall j: U32 :: j != id ==> !About(role, h, x, j)
    requires role.Node? && x.Got? && x.m.OpenMsg? ==> x.m.id == Opened(role, h) + 1
    requires Whole(role, window, h + [x], o.ep)
    requires Record(role, window, h + [x], id, Look(o.ep.streams, id), Look(o.ep.closed, id), Only(life.wrote, id) + o.msgs)
    ensures Recorded(role, window, h + [x], Life(o.ep, life.wrote + o.msgs))
  {
    hide Record, About, Whole, Opened;
    Appended(life.wrote, o.msgs, id);
    forall j: U32 ensures RecordOf(role, window, h + [x], j, Life(o.ep, life.wrote + o.msgs)) {
      if j != id {
        assert RecordOf(role, window, h, j, life);
        Unconcerned(role, window, h, x, j, Look(life.ep.streams, j), Look(life.ep.closed, j), Only(life.wrote, j));
      }
    }
  }

  lemma NoStreamMoves(role: Role, window: nat, h: seq<Happening>, x: Happening, life: Life, o: Outcome)
    requires Recorded(role, window, h, life) && o.ep.streams == life.ep.streams && o.ep.closed == life.ep.closed
    requires o.msgs == [] || (|o.msgs| == 1 && !IsStreamMsg(o.msgs[0]))
    requires (forall j: U32 :: !About(role, h, x, j)) && !(x.Got? && x.m.OpenMsg?)
    requires Whole(role, window, h + [x], o.ep)
    ensures Recorded(role, window, h + [x], Life(o.ep, life.wrote + o.msgs))
  {
    hide Record, About, Whole, Opened;
    forall j: U32 ensures RecordOf(role, window, h + [x], j, Life(o.ep, life.wrote + o.msgs)) {
      assert RecordOf(role, window, h, j, life);
      OnlyAppend(life.wrote, o.msgs, j);
      if o.msgs != [] { assert Only(o.msgs, j) == [] by { assert o.msgs[1..] == []; } }
      assert Only(life.wrote, j) + [] == Only(life.wrote, j);
      Unconcerned(role, window, h, x, j, Look(life.ep.streams, j), Look(life.ep.closed, j), Only(life.wrote, j));
    }
  }

  // ---- streams begin ------------------------------------------------------------------------------------------

  lemma StartableIsValid(r: OpenRequest)
    ensures Startable(r) <==> Valid(r)
  {
    forall i | 0 <= i < |r.argv| ensures ValidString(r.argv[i], MAX_ARGUMENT_BYTES) <==> |r.argv[i]| <= 131072 && 0 !in r.argv[i] {
    }
  }

  lemma StreamBegins(role: Role, window: nat, h: seq<Happening>, x: Happening, id: U32, own: seq<Msg>, msgs: seq<Msg>)
    requires id == Opened(role, h) + 1 && Begins(role, h, Opened(role, h), x) && FreshRecord([], role, h, id)
    requires msgs == [] || (|msgs| == 1 && msgs[0].OpenMsg?)
    requires (x.Asked? && x.api.Open?) || (x.Got? && x.m.OpenMsg?)
    ensures Record(role, window, h + [x], id, Some(NewStream(window)), None, [] + msgs)
  {
    Grows(role, h, x, id);
    CountsGrow(h, x, id);
    hide Told, MaySend, ExitAsked, Granted, Arrived, Unread, HalfClosed, ExitGot, Opened, Startable, GoneAway;
    assert [] + msgs == msgs;
    if msgs != [] {
      FoldsOne(msgs[0]);
      assert msgs == [msgs[0]];
    }
    assert Owed(NewStream(window)) == [];
  }

  // ---- sending ------------------------------------------------------------------------------------------------

  /** A flush of a stream whose books are in order leaves them in order: everything credit allows is written. */
  lemma FlushSends(id: U32, st: Stream, own: seq<Msg>, told: seq<Token>, credit: nat)
    requires SendOk(st, own, told, credit) && NoExit(own)
    ensures var d := DataPart(id, st);
            && SendOk(d.stream, own + d.msgs, told, credit) && NoExit(own + d.msgs) && SameFlags(d.stream, st)
            && CreditSum(own + d.msgs) == CreditSum(own) && AllFor(d.msgs, id)
            && (!d.stream.exitPending || d.stream.queue != [] ==> Flowing(d.stream))
            && (d.stream.queue == [] ==> Tokens(own + d.msgs) == told && !d.stream.endPending)
  {
    var d := DataPart(id, st);
    DataPartSound(id, st);
    DataPartData(id, st);
    DataPartTokens(id, st);
    FoldsAppend(own, d.msgs);
    Assoc(Tokens(own), Tokens(d.msgs), Owed(d.stream));
    AllDataPlain(d.msgs, id, StdoutOnly(st.queue));
    if d.stream.queue == [] && !d.stream.endPending {
      assert Owed(d.stream) == [];
      assert Tokens(own + d.msgs) + [] == Tokens(own + d.msgs);
    }
  }

  lemma AllDataPlain(q: seq<Msg>, id: U32, stdoutOnly: bool)
    requires AllData(q, id, stdoutOnly)
    ensures AllFor(q, id) && NoExit(q)
  {
    forall i | 0 <= i < |q| ensures IsFor(q[i], id) && !q[i].ExitMsg? {
      assert IsData(q[i], id, stdoutOnly);
    }
  }

  /** What accepting data changes before the flush. */
  lemma SendCounted(role: Role, window: nat, h: seq<Happening>, x: Happening, id: U32, st: Stream, own: seq<Msg>)
    requires LiveRecord(st, own, role, window, h, id) && Begun(role, h, id)
    requires Sends(role, x, id) && MaySend(role, h, id)
    ensures var st1, h' := Enqueue(st, x.api.bytes, x.api.end, x.api.channel), h + [x];
            Books(st1, own, role, window, h', id) && !st1.exitPending
  {
    var bytes, end, channel := x.api.bytes, x.api.end, x.api.channel;
    LiveParts(st, own, role, window, h, id);
    hide LiveRecord, Books, Told, MaySend, ExitAsked, Granted, HalfClosed, ExitGot, Opened, SendOk, ReceiveOk, Sent, Enqueue, NoExit;
    EnqueueOk(st, own, Told(role, h, id), window + Granted(h, id), bytes, end, channel);
    EnqueueKeeps(st, bytes, end, channel);
    ReceiveStays(st.recv, own, window, h, x, id);
    SendGrows(role, h, x, id);
    BooksBalance(Enqueue(st, bytes, end, channel), own, role, window, h + [x], id);
  }

  lemma LiveParts(st: Stream, own: seq<Msg>, role: Role, window: nat, h: seq<Happening>, id: U32)
    requires LiveRecord(st, own, role, window, h, id)
    ensures SendOk(st, own, Told(role, h, id), window + Granted(h, id)) && NoExit(own) && ReceiveOk(st.recv, own, window, h, id)
    ensures MaySend(role, h, id) <==> !st.localClosed
    ensures ExitAsked(role, h, id) == (if st.exitPending then Some(st.status) else None)
    ensures (st.peerClosed <==> HalfClosed(h, id)) && !ExitGot(h, id)
  {
    hide SendOk, NoExit, ReceiveOk, Told, MaySend, ExitAsked, HalfClosed, ExitGot, Granted, Flowing;
  }

  lemma BooksBalance(st: Stream, own: seq<Msg>, role: Role, window: nat, h: seq<Happening>, id: U32)
    requires SendOk(st, own, Told(role, h, id), window + Granted(h, id)) && NoExit(own) && ReceiveOk(st.recv, own, window, h, id)
    requires MaySend(role, h, id) <==> !st.localClosed
    requires ExitAsked(role, h, id) == (if st.exitPending then Some(st.status) else None)
    requires (st.peerClosed <==> HalfClosed(h, id)) && !ExitGot(h, id)
    ensures Books(st, own, role, window, h, id)
  {
    hide SendOk, NoExit, ReceiveOk, Told, MaySend, ExitAsked, HalfClosed, ExitGot, Granted;
  }

  lemma EnqueueKeeps(st: Stream, bytes: seq<Byte>, end: bool, channel: Channel)
    ensures var st1 := Enqueue(st, bytes, end, channel);
            && st1.recv == st.recv && st1.peerClosed == st.peerClosed && st1.exitPending == st.exitPending
            && st1.localClosed == (st.localClosed || end) && st1.status == st.status
  {
  }

  lemma SendGrows(role: Role, h: seq<Happening>, x: Happening, id: U32)
    requires Sends(role, x, id) && MaySend(role, h, id) && Begun(role, h, id)
    ensures var h' := h + [x];
            && Told(role, h', id) == Told(role, h, id) + Sent(x.api.channel, x.api.bytes, x.api.end)
            && (MaySend(role, h', id) <==> !x.api.end) && ExitAsked(role, h', id) == ExitAsked(role, h, id)
            && Granted(h', id) == Granted(h, id)
            && (HalfClosed(h', id) <==> HalfClosed(h, id)) && (ExitGot(h', id) <==> ExitGot(h, id))
  {
    hide Told, MaySend, ExitAsked, Granted, Arrived, Unread, HalfClosed, ExitGot, Opened, Sent;
    Grows(role, h, x, id);
    CountsGrow(h, x, id);
  }

  lemma EnqueueOk(st: Stream, own: seq<Msg>, told: seq<Token>, credit: nat, bytes: seq<Byte>, end: bool, channel: Channel)
    requires SendOk(st, own, told, credit) && !st.localClosed
    ensures SendOk(Enqueue(st, bytes, end, channel), own, told + Sent(channel, bytes, end), credit) && !st.exitPending
  {
    EnqueueOwed(st, bytes, end, channel);
    Assoc(Owed(st), Tag(channel, bytes), EndToken(end));
    Assoc(Tokens(own), Owed(st), Sent(channel, bytes, end));
    hide Owed, Tokens, DataLen;
  }

  /** A flush that writes no EXIT leaves a live stream's books in order. */
  lemma FlushedLive(role: Role, window: nat, h: seq<Happening>, id: U32, st: Stream, own: seq<Msg>)
    requires Books(st, own, role, window, h, id)
    ensures var f := Flush(id, st, window);
            && (!f.exited ==> LiveRecord(f.stream, own + f.msgs, role, window, h, id) && AllFor(f.msgs, id))
            && (f.exited ==> st.exitPending) && f.stream.peerClosed == st.peerClosed
  {
    hide Told, MaySend, ExitAsked, Granted, Arrived, Unread, HalfClosed, ExitGot, Opened, Flush, DataPart, Owed, Tokens, DataLen, CreditSum, Sound, NoExit;
    FlushShape(id, st, window);
    FlushSends(id, st, own, Told(role, h, id), window + Granted(h, id));
    assert DataPart(id, st).msgs + [] == DataPart(id, st).msgs;
  }

  lemma SendIgnored(role: Role, window: nat, h: seq<Happening>, x: Happening, id: U32, st: Option<Stream>, closed: Option<bool>, own: seq<Msg>)
    requires Record(role, window, h, id, st, closed, own) && x.Asked? && x.api.SendData? && x.api.id == id
    requires Sends(role, x, id) ==> !MaySend(role, h, id)
    ensures Record(role, window, h + [x], id, st, closed, own)
  {
    Grows(role, h, x, id);
    CountsGrow(h, x, id);
    hide Told, MaySend, ExitAsked, Granted, Arrived, Unread, HalfClosed, ExitGot, Opened, Flowing, Sound, Owed, Tokens, DataLen, CreditSum;
    assert forall t: seq<Token> :: t + [] == t;
  }

  // ---- exits --------------------------------------------------------------------------------------------------

  lemma {:induction false} ControllersReportNothing(h: seq<Happening>, id: U32)
    ensures ExitAsked(Controller, h, id).None?
  {
    if |h| > 0 { ControllersReportNothing(h[..|h| - 1], id); }
  }

  lemma ExitDeferred(role: Role, window: nat, h: seq<Happening>, x: Happening, id: U32, st: Stream, own: seq<Msg>)
    requires LiveRecord(st, own, role, window, h, id) && Begun(role, h, id) && !st.exitPending
    requires role.Node? && x.Asked? && x.api.SendExit? && x.api.id == id && st.queue != []
    ensures LiveRecord(st.(localClosed := true, exitPending := true, status := x.api.status), own, role, window, h + [x], id)
  {
    Grows(role, h, x, id);
    CountsGrow(h, x, id);
    hide Told, MaySend, ExitAsked, Granted, Arrived, Unread, HalfClosed, ExitGot, Opened, Tokens, DataLen, CreditSum;
    assert forall t: seq<Token> :: t + [] == t;
  }

  /** Nothing is owed any more: the EXIT goes out. */
  lemma ExitWritten(role: Role, h: seq<Happening>, id: U32, status: ExitStatus, own: seq<Msg>, peerClosed: bool)
    requires role.Node? && ExitAsked(role, h, id) == Some(status) && !MaySend(role, h, id) && NoExit(own)
    requires Tokens(own) == Told(role, h, id) && (peerClosed <==> HalfClosed(h, id)) && !ExitGot(h, id)
    ensures ClosedRecord(peerClosed, own + [ExitMsg(id, status)], role, h, id)
  {
    hide Told, MaySend, ExitAsked, HalfClosed, ExitGot;
    var all := own + [ExitMsg(id, status)];
    assert all[..|all| - 1] == own;
    FoldsAppend(own, [ExitMsg(id, status)]);
    FoldsOne(ExitMsg(id, status));
    assert Tokens(own) + [] == Tokens(own);
  }

  lemma ExitAtOnce(role: Role, window: nat, h: seq<Happening>, x: Happening, id: U32, st: Stream, own: seq<Msg>)
    requires LiveRecord(st, own, role, window, h, id) && Begun(role, h, id) && !st.exitPending
    requires role.Node? && x.Asked? && x.api.SendExit? && x.api.id == id && st.queue == [] && !st.endPending
    ensures ClosedRecord(st.peerClosed, own + [ExitMsg(id, x.api.status)], role, h + [x], id)
  {
    Grows(role, h, x, id);
    CountsGrow(h, x, id);
    assert Owed(st) == [];
    hide Told, MaySend, ExitAsked, Granted, Arrived, Unread, HalfClosed, ExitGot, Opened, DataLen, CreditSum;
    assert forall t: seq<Token> :: t + [] == t;
    hide Tokens;
    ExitWritten(role, h + [x], id, x.api.status, own, st.peerClosed);
  }

  lemma ExitIgnored(role: Role, window: nat, h: seq<Happening>, x: Happening, id: U32, st: Option<Stream>, closed: Option<bool>, own: seq<Msg>)
    requires Record(role, window, h, id, st, closed, own) && x.Asked? && x.api.SendExit? && x.api.id == id
    requires role.Controller? || st.None? || st.value.exitPending
    ensures Record(role, window, h + [x], id, st, closed, own)
  {
    Grows(role, h, x, id);
    CountsGrow(h, x, id);
    hide Told, MaySend, ExitAsked, Granted, Arrived, Unread, HalfClosed, ExitGot, Opened, Owed, Tokens, DataLen, CreditSum;
    assert forall t: seq<Token> :: t + [] == t;
  }

  // ---- receiving ----------------------------------------------------------------------------------------------

  /** Folds of the messages written, with a grant behind them. */
  lemma GrantCounts(id: U32, own: seq<Msg>, delta: nat)
    requires delta < U32_LIMIT
    ensures var own' := own + Grant(id, delta);
            && Tokens(own') == Tokens(own) && DataLen(own') == DataLen(own) && CreditSum(own') == CreditSum(own) + delta
            && (NoExit(own) ==> NoExit(own')) && AllFor(Grant(id, delta), id)
  {
    FoldsAppend(own, Grant(id, delta));
    assert Tokens(own) + [] == Tokens(own);
    if delta > 0 { FoldsOne(CreditMsg(id, delta)); }
  }

  lemma ConsumeReceives(c: Credit, window: nat, h: seq<Happening>, x: Happening, id: U32, own: seq<Msg>)
    requires ReceiveOk(c, own, window, h, id) && window <= MAX_STREAM_WINDOW
    requires x.Asked? && x.api.Consume? && x.api.id == id
    ensures var (recv, delta) := Consumed(c, window, x.api.n);
            delta < U32_LIMIT && ReceiveOk(recv, own + Grant(id, delta), window, h + [x], id)
  {
    CountsGrow(h, x, id);
    var (recv, delta) := Consumed(c, window, x.api.n);
    assert delta <= c.outstanding + c.pending < U32_LIMIT;
    GrantCounts(id, own, delta);
    hide Arrived, Unread, CreditSum, Granted, HalfClosed, ExitGot;
  }

  lemma ConsumeTaken(role: Role, window: nat, h: seq<Happening>, x: Happening, id: U32, st: Stream, own: seq<Msg>)
    requires LiveRecord(st, own, role, window, h, id) && Begun(role, h, id) && window <= MAX_STREAM_WINDOW
    requires x.Asked? && x.api.Consume? && x.api.id == id
    ensures var (recv, delta) := Consumed(st.recv, window, x.api.n);
            LiveRecord(st.(recv := recv), own + Grant(id, delta), role, window, h + [x], id) && AllFor(Grant(id, delta), id)
  {
    var (recv, delta) := Consumed(st.recv, window, x.api.n);
    ConsumeReceives(st.recv, window, h, x, id, own);
    GrantCounts(id, own, delta);
    OtherHalf(st, st.(recv := recv), own, own + Grant(id, delta), Told(role, h, id), window + Granted(h, id));
    hide Told, MaySend, ExitAsked, Granted, Arrived, Unread, HalfClosed, ExitGot, Opened, Tokens, DataLen, CreditSum, SendOk, ReceiveOk, Flowing, Consumed, NoExit, Grant;
    Grows(role, h, x, id);
    CountsGrow(h, x, id);
    assert Told(role, h, id) + [] == Told(role, h, id);
  }

  /** The sending side does not look at what was received. */
  lemma OtherHalf(st: Stream, st': Stream, own: seq<Msg>, own': seq<Msg>, told: seq<Token>, credit: nat)
    requires SendOk(st, own, told, credit) && Flowing(st) && Tokens(own') == Tokens(own) && DataLen(own') == DataLen(own)
    requires st' == st.(recv := st'.recv, peerClosed := st'.peerClosed)
    ensures SendOk(st', own', told, credit) && Flowing(st')
  {
  }

  lemma ConsumeIgnored(role: Role, window: nat, h: seq<Happening>, x: Happening, id: U32, closed: Option<bool>, own: seq<Msg>)
    requires Record(role, window, h, id, None, closed, own) && x.Asked? && x.api.Consume? && x.api.id == id
    ensures Record(role, window, h + [x], id, None, closed, own)
  {
    Grows(role, h, x, id);
    CountsGrow(h, x, id);
    hide Told, MaySend, ExitAsked, Granted, Arrived, Unread, HalfClosed, ExitGot, Opened, Tokens, DataLen, CreditSum;
    assert forall t: seq<Token> :: t + [] == t;
  }

  lemma DataTaken(role: Role, window: nat, h: seq<Happening>, x: Happening, id: U32, st: Stream, own: seq<Msg>)
    requires LiveRecord(st, own, role, window, h, id) && Begun(role, h, id) && x.Got? && x.m.DataMsg? && x.m.id == id
    requires !st.peerClosed && st.recv.outstanding + |x.m.bytes| <= window
    ensures LiveRecord(st.(recv := Deliver(st.recv, |x.m.bytes|), peerClosed := x.m.end), own, role, window, h + [x], id)
  {
    Grows(role, h, x, id);
    CountsGrow(h, x, id);
    hide Told, MaySend, ExitAsked, Granted, Arrived, Unread, HalfClosed, ExitGot, Opened, Tokens, DataLen, CreditSum;
    assert forall t: seq<Token> :: t + [] == t;
    OtherHalf(st, st.(recv := Deliver(st.recv, |x.m.bytes|), peerClosed := x.m.end), own, own, Told(role, h, id), window + Granted(h, id));
  }

  lemma DataDropped(role: Role, window: nat, h: seq<Happening>, x: Happening, id: U32, own: seq<Msg>)
    requires ClosedRecord(false, own, role, h, id) && Begun(role, h, id) && x.Got? && x.m.DataMsg? && x.m.id == id
    ensures ClosedRecord(x.m.end, own, role, h + [x], id) && Begun(role, h + [x], id)
  {
    Grows(role, h, x, id);
    CountsGrow(h, x, id);
    hide Told, MaySend, ExitAsked, Granted, Arrived, Unread, HalfClosed, ExitGot, Opened, Tokens;
    assert forall t: seq<Token> :: t + [] == t;
  }

  lemma CreditDropped(role: Role, window: nat, h: seq<Happening>, x: Happening, id: U32, closed: bool, own: seq<Msg>)
    requires ClosedRecord(closed, own, role, h, id) && Begun(role, h, id) && x.Got? && x.m.CreditMsg? && x.m.id == id
    ensures ClosedRecord(closed, own, role, h + [x], id) && Begun(role, h + [x], id)
  {
    Grows(role, h, x, id);
    CountsGrow(h, x, id);
    hide Told, MaySend, ExitAsked, Granted, Arrived, Unread, HalfClosed, ExitGot, Opened, Tokens;
    assert forall t: seq<Token> :: t + [] == t;
  }

  /** New credit lets more out, and a deferred EXIT behind the last of it. */
  lemma CreditTaken(role: Role, window: nat, h: seq<Happening>, x: Happening, id: U32, st: Stream, own: seq<Msg>)
    requires LiveRecord(st, own, role, window, h, id) && Begun(role, h, id) && x.Got? && x.m.CreditMsg? && x.m.id == id
    ensures var f := Flush(id, st.(credit := st.credit + x.m.delta), window);
            && AllFor(f.msgs, id) && f.stream.peerClosed == st.peerClosed && Begun(role, h + [x], id)
            && if f.exited then ClosedRecord(st.peerClosed, own + f.msgs, role, h + [x], id)
               else LiveRecord(f.stream, own + f.msgs, role, window, h + [x], id)
  {
    var st1 := st.(credit := st.credit + x.m.delta);
    CreditCounted(role, window, h, x, id, st, own);
    hide Books, LiveRecord, ClosedRecord, Flush, Told, MaySend, ExitAsked, Granted, Arrived, Unread, HalfClosed, ExitGot, Opened;
    FlushedLive(role, window, h + [x], id, st1, own);
    if Flush(id, st1, window).exited { FlushedClosed(role, window, h + [x], id, st1, own); }
  }

  /** A flush that writes the EXIT closes the stream. */
  lemma FlushedClosed(role: Role, window: nat, h: seq<Happening>, id: U32, st: Stream, own: seq<Msg>)
    requires Books(st, own, role, window, h, id) && role.Node? && !MaySend(role, h, id) && Flush(id, st, window).exited
    requires st.exitPending
    ensures var f := Flush(id, st, window);
            AllFor(f.msgs, id) && ClosedRecord(st.peerClosed, own + f.msgs, role, h, id)
  {
    var d := DataPart(id, st);
    hide Told, MaySend, ExitAsked, Granted, Arrived, Unread, HalfClosed, ExitGot, Opened, Flush, DataPart, Owed, Tokens, DataLen, CreditSum, Sound, NoExit;
    FlushShape(id, st, window);
    FlushSends(id, st, own, Told(role, h, id), window + Granted(h, id));
    ExitWritten(role, h, id, st.status, own + d.msgs, st.peerClosed);
    assert AllFor([ExitMsg(id, st.status)], id);
    AllForBoth(d.msgs, [ExitMsg(id, st.status)], id);
    Assoc(own, d.msgs, [ExitMsg(id, st.status)]);
  }

  lemma AllForBoth(a: seq<Msg>, b: seq<Msg>, id: U32)
    requires AllFor(a, id) && AllFor(b, id)
    ensures AllFor(a + b, id)
  {
  }

  lemma MoreCredit(st: Stream, own: seq<Msg>, told: seq<Token>, credit: nat, delta: nat)
    requires SendOk(st, own, told, credit)
    ensures SendOk(st.(credit := st.credit + delta), own, told, credit + delta) && (st.exitPending ==> st.localClosed)
  {
    hide Tokens, DataLen;
  }

  lemma ReceiveStays(c: Credit, own: seq<Msg>, window: nat, h: seq<Happening>, x: Happening, id: U32)
    requires ReceiveOk(c, own, window, h, id)
    requires !(x.Got? && x.m.DataMsg? && x.m.id == id) && !(x.Asked? && x.api.Consume? && x.api.id == id)
    ensures ReceiveOk(c, own, window, h + [x], id)
  {
    hide Arrived, Unread, CreditSum, Granted, HalfClosed, ExitGot;
    CountsGrow(h, x, id);
  }

  /** What credit changes before the flush. */
  lemma CreditCounted(role: Role, window: nat, h: seq<Happening>, x: Happening, id: U32, st: Stream, own: seq<Msg>)
    requires LiveRecord(st, own, role, window, h, id) && Begun(role, h, id) && x.Got? && x.m.CreditMsg? && x.m.id == id
    ensures var st1, h' := st.(credit := st.credit + x.m.delta), h + [x];
            && Books(st1, own, role, window, h', id) && Begun(role, h', id)
            && (st.exitPending ==> role.Node? && !MaySend(role, h', id))
  {
    LiveParts(st, own, role, window, h, id);
    hide LiveRecord, Books, Told, MaySend, ExitAsked, Granted, HalfClosed, ExitGot, Opened, SendOk, ReceiveOk, NoExit;
    MoreCredit(st, own, Told(role, h, id), window + Granted(h, id), x.m.delta);
    ReceiveStays(st.recv, own, window, h, x, id);
    CreditGrows(role, h, x, id);
    BooksBalance(st.(credit := st.credit + x.m.delta), own, role, window, h + [x], id);
    if role.Controller? { ControllersReportNothing(h, id); }
  }

  lemma CreditGrows(role: Role, h: seq<Happening>, x: Happening, id: U32)
    requires x.Got? && x.m.CreditMsg? && x.m.id == id && Begun(role, h, id)
    ensures var h' := h + [x];
            && Told(role, h', id) == Told(role, h, id) && Begun(role, h', id)
            && (MaySend(role, h', id) <==> MaySend(role, h, id)) && ExitAsked(role, h', id) == ExitAsked(role, h, id)
            && Granted(h', id) == Granted(h, id) + x.m.delta
            && (HalfClosed(h', id) <==> HalfClosed(h, id)) && (ExitGot(h', id) <==> ExitGot(h, id))
  {
    hide Told, MaySend, ExitAsked, Granted, Arrived, Unread, HalfClosed, ExitGot, Opened;
    Grows(role, h, x, id);
    CountsGrow(h, x, id);
    assert Told(role, h, id) + [] == Told(role, h, id);
  }

  lemma ExitTaken(role: Role, window: nat, h: seq<Happening>, x: Happening, id: U32, st: Stream, own: seq<Msg>)
    requires LiveRecord(st, own, role, window, h, id) && Begun(role, h, id) && role.Controller?
    requires x.Got? && x.m.ExitMsg? && x.m.id == id
    ensures Record(role, window, h + [x], id, None, None, own)
  {
    Grows(role, h, x, id);
    CountsGrow(h, x, id);
    ControllersReportNothing(h, id);
    hide Told, MaySend, ExitAsked, Granted, Arrived, Unread, HalfClosed, ExitGot, Opened, Owed, Tokens, DataLen, CreditSum;
    assert forall t: seq<Token> :: t + [] == t;
  }

  // ---- one step of the session --------------------------------------------------------------------------------

  lemma WholeStays(role: Role, window: nat, h: seq<Happening>, x: Happening, ep: Endpoint, ep': Endpoint)
    requires Whole(role, window, h, ep) && ep' == ep.(streams := ep'.streams, closed := ep'.closed)
    requires !Begins(role, h, Opened(role, h), x) && x != Asked(GoAway) && x != Got(GoAwayMsg)
    ensures Whole(role, window, h + [x], ep')
  {
    hide Begins, Opened;
    Grows(role, h, x, 0);
  }

  lemma OpenStep(role: Role, window: nat, h: seq<Happening>, r: OpenRequest, life: Life)
    requires Recorded(role, window, h, life)
    ensures var o := CallOpen(life.ep, r); Recorded(role, window, h + [Asked(Open(r))], Life(o.ep, life.wrote + o.msgs))
    ensures CanOpen(life.ep, r) <==> Begins(role, h, Opened(role, h), Asked(Open(r)))
  {
    var x, o := Asked(Open(r)), CallOpen(life.ep, r);
    StartableIsValid(r);
    hide Record, Opened, Startable, OpenPayload.Valid;
    if Begins(role, h, Opened(role, h), x) {
      var id := life.ep.nextId;
      OpenWhole(role, window, h, x, life.ep, o.ep);
      assert RecordOf(role, window, h, id, life);
      NotBegun(role, window, h, id, life);
      StreamBegins(role, window, h, x, id, Only(life.wrote, id), o.msgs);
      OneStreamMoves(role, window, h, x, life, o, id);
    } else {
      WholeStays(role, window, h, x, life.ep, o.ep);
      NoStreamMoves(role, window, h, x, life, o);
    }
  }

  lemma NotBegun(role: Role, window: nat, h: seq<Happening>, id: U32, life: Life)
    requires RecordOf(role, window, h, id, life) && !Begun(role, h, id)
    ensures id !in life.ep.streams && id !in life.ep.closed && FreshRecord([], role, h, id) && Only(life.wrote, id) == []
  {
    hide FreshRecord, LiveRecord, ClosedRecord, DoneRecord, Only;
    hide Opened;
    FreshOwn(Only(life.wrote, id), role, h, id);
  }

  lemma FreshOwn(own: seq<Msg>, role: Role, h: seq<Happening>, id: U32)
    ensures FreshRecord(own, role, h, id) ==> own == []
  {
  }

  lemma OpenWhole(role: Role, window: nat, h: seq<Happening>, x: Happening, ep: Endpoint, ep': Endpoint)
    requires Whole(role, window, h, ep) && Begins(role, h, Opened(role, h), x) && x != Asked(GoAway) && x != Got(GoAwayMsg)
    requires match role
             case Controller => ep.nextId != 0 && ep' == ep.(streams := ep'.streams, nextId := NextU32(ep.nextId))
             case Node => ep.nextPeer != 0 && ep' == ep.(streams := ep'.streams, nextPeer := NextU32(ep.nextPeer))
    ensures Whole(role, window, h + [x], ep')
  {
    hide Begins, Opened;
    Grows(role, h, x, 0);
  }

  lemma FlushTouches(ep: Endpoint, id: U32, st: Stream)
    requires AllFor(Flush(id, st, ep.window).msgs, id)
    ensures OnlyTouches(ep, FlushInto(ep, id, st), id)
    ensures var o, f := FlushInto(ep, id, st), Flush(id, st, ep.window);
            && o.msgs == f.msgs && o.ep == ep.(streams := o.ep.streams, closed := o.ep.closed)
            && Look(o.ep.streams, id) == (if f.exited then None else Some(f.stream))
            && Look(o.ep.closed, id) == (if f.exited then Some(f.stream.peerClosed) else Look(ep.closed, id))
  {
    hide Flush, AllFor;
  }

  lemma NothingTouches(ep: Endpoint, id: U32)
    ensures OnlyTouches(ep, Nothing(ep), id)
  {
  }

  lemma AboutOne(role: Role, h: seq<Happening>, x: Happening, id: U32)
    requires match x
             case Asked(SendData(j, _, _, _)) => j == id
             case Asked(SendExit(j, _)) => j == id
             case Asked(Consume(j, _)) => j == id
             case Asked(_) => false
             case Got(m) => IsStreamMsg(m) && m.id == id
    ensures forall j: U32 :: j != id ==> !About(role, h, x, j)
    ensures !x.Got? || !x.m.OpenMsg? ==> !Begins(role, h, Opened(role, h), x)
  {
    hide Opened;
  }

  lemma SendStep(role: Role, window: nat, h: seq<Happening>, x: Happening, life: Life)
    requires Recorded(role, window, h, life) && x.Asked? && x.api.SendData?
    ensures var o := Call(life.ep, x.api); Recorded(role, window, h + [x], Life(o.ep, life.wrote + o.msgs))
    ensures Accepts(life.ep, x.api.id, x.api.channel) <==> Sends(role, x, x.api.id) && MaySend(role, h, x.api.id)
  {
    var id, o := x.api.id, Call(life.ep, x.api);
    assert RecordOf(role, window, h, id, life);
    SendsWhenAllowed(role, window, h, id, life);
    AboutOne(role, h, x, id);
    hide Record, Flush, FlushInto, Enqueue, MaySend, About, OnlyTouches, Begins, Opened, LiveRecord, Only, Books;
    assert Accepts(life.ep, id, x.api.channel) <==> Sends(role, x, id) && MaySend(role, h, id);
    if Accepts(life.ep, id, x.api.channel) {
      hide Whole;
      LiveOf(role, window, h, id, life);
      BegunGrows(role, h, x, id);
      SameWindow(role, window, h, life);
      var st1 := Enqueue(life.ep.streams[id], x.api.bytes, x.api.end, x.api.channel);
      SendCounted(role, window, h, x, id, life.ep.streams[id], Only(life.wrote, id));
      FlushedLive(role, window, h + [x], id, st1, Only(life.wrote, id));
      FlushTouches(life.ep, id, st1);
      StillLive(role, window, h + [x], id, Look(o.ep.streams, id), Look(o.ep.closed, id), Only(life.wrote, id) + o.msgs);
    } else {
      SendIgnored(role, window, h, x, id, Look(life.ep.streams, id), Look(life.ep.closed, id), Only(life.wrote, id));
      NothingTouches(life.ep, id);
      assert Only(life.wrote, id) + [] == Only(life.wrote, id);
    }
    hide Accepts, Sends;
    WholeStays(role, window, h, x, life.ep, o.ep);
    OneStreamMoves(role, window, h, x, life, o, id);
  }

  lemma SameWindow(role: Role, window: nat, h: seq<Happening>, life: Life)
    requires Recorded(role, window, h, life)
    ensures life.ep.window == window && life.ep.role == role && !life.ep.failed
  {
    hide RecordOf;
  }

  lemma BegunGrows(role: Role, h: seq<Happening>, x: Happening, id: U32)
    requires Begun(role, h, id)
    ensures Begun(role, h + [x], id)
  {
    Grows(role, h, x, id);
  }

  lemma StillLive(role: Role, window: nat, h: seq<Happening>, id: U32, st: Option<Stream>, closed: Option<bool>, own: seq<Msg>)
    requires Begun(role, h, id) && st.Some? && closed.None? && LiveRecord(st.value, own, role, window, h, id)
    ensures Record(role, window, h, id, st, closed, own)
  {
  }

  lemma LiveOf(role: Role, window: nat, h: seq<Happening>, id: U32, life: Life)
    requires RecordOf(role, window, h, id, life) && id in life.ep.streams
    ensures Begun(role, h, id) && id !in life.ep.closed
    ensures LiveRecord(life.ep.streams[id], Only(life.wrote, id), role, window, h, id)
  {
    hide LiveRecord, Opened;
  }

  lemma SendsWhenAllowed(role: Role, window: nat, h: seq<Happening>, id: U32, life: Life)
    requires RecordOf(role, window, h, id, life)
    ensures MaySend(role, h, id) <==>
            id in life.ep.streams && !life.ep.streams[id].localClosed && !life.ep.streams[id].exitPending
  {
  }

  lemma ExitTouches(ep: Endpoint, id: U32, status: ExitStatus)
    ensures OnlyTouches(ep, CallSendExit(ep, id, status), id)
    ensures var ep' := CallSendExit(ep, id, status).ep; ep' == ep.(streams := ep'.streams, closed := ep'.closed)
  {
  }

  lemma ExitStep(role: Role, window: nat, h: seq<Happening>, x: Happening, life: Life)
    requires Recorded(role, window, h, life) && x.Asked? && x.api.SendExit?
    ensures var o := Call(life.ep, x.api); Recorded(role, window, h + [x], Life(o.ep, life.wrote + o.msgs))
    ensures TakesExit(life.ep, x.api.id) <==> role.Node? && Begun(role, h, x.api.id) && ExitAsked(role, h, x.api.id).None?
  {
    var id, o := x.api.id, Call(life.ep, x.api);
    assert RecordOf(role, window, h, id, life);
    ExitsWhenAllowed(role, window, h, id, life);
    SameWindow(role, window, h, life);
    AboutOne(role, h, x, id);
    ExitTouches(life.ep, id, x.api.status);
    hide Record, ExitAsked, Opened, Whole, About, OnlyTouches, Begins, Only, LiveRecord;
    if TakesExit(life.ep, id) {
      ExitTakes(role, window, h, x, life);
    } else {
      assert Only(life.wrote, id) + [] == Only(life.wrote, id);
      ExitIgnored(role, window, h, x, id, Look(life.ep.streams, id), Look(life.ep.closed, id), Only(life.wrote, id));
    }
    hide CallSendExit, TakesExit;
    WholeStays(role, window, h, x, life.ep, o.ep);
    OneStreamMoves(role, window, h, x, life, o, id);
  }

  lemma ExitTakes(role: Role, window: nat, h: seq<Happening>, x: Happening, life: Life)
    requires x.Asked? && x.api.SendExit? && TakesExit(life.ep, x.api.id) && role.Node?
    requires RecordOf(role, window, h, x.api.id, life)
    ensures var id, o := x.api.id, Call(life.ep, x.api);
            Record(role, window, h + [x], id, Look(o.ep.streams, id), Look(o.ep.closed, id), Only(life.wrote, id) + o.msgs)
  {
    hide Record, ExitAsked, MaySend, Opened;
    var id, o := x.api.id, Call(life.ep, x.api);
    var st, own := life.ep.streams[id], Only(life.wrote, id);
    LiveOf(role, window, h, id, life);
    BegunGrows(role, h, x, id);
    EndNeedsQueue(st, own, role, window, h, id);
    if st.queue != [] {
      ExitDeferred(role, window, h, x, id, st, own);
      assert own + [] == own;
      hide LiveRecord, ClosedRecord;
      StillLive(role, window, h + [x], id, Look(o.ep.streams, id), Look(o.ep.closed, id), own);
    } else {
      ExitAtOnce(role, window, h, x, id, st, own);
      hide LiveRecord, ClosedRecord;
      NowClosed(role, window, h + [x], id, Look(o.ep.streams, id), Look(o.ep.closed, id), own + o.msgs);
    }
  }

  lemma EndNeedsQueue(st: Stream, own: seq<Msg>, role: Role, window: nat, h: seq<Happening>, id: U32)
    requires LiveRecord(st, own, role, window, h, id)
    ensures st.endPending || st.exitPending ==> st.queue != []
  {
  }

  lemma NowClosed(role: Role, window: nat, h: seq<Happening>, id: U32, st: Option<Stream>, closed: Option<bool>, own: seq<Msg>)
    requires Begun(role, h, id) && st.None? && closed.Some? && ClosedRecord(closed.value, own, role, h, id)
    ensures Record(role, window, h, id, st, closed, own)
  {
  }

  lemma ExitsWhenAllowed(role: Role, window: nat, h: seq<Happening>, id: U32, life: Life)
    requires RecordOf(role, window, h, id, life)
    ensures id in life.ep.streams ==> (life.ep.streams[id].exitPending <==> ExitAsked(role, h, id).Some?)
    ensures role.Node? ==> (id in life.ep.streams && !life.ep.streams[id].exitPending <==> Begun(role, h, id) && ExitAsked(role, h, id).None?)
  {
  }

  lemma ConsumeTouches(ep: Endpoint, id: U32, n: U32)
    requires !ep.failed
    ensures var o := CallConsume(ep, id, n);
            && o.ep == ep.(streams := o.ep.streams, closed := o.ep.closed) && o.ep.closed == ep.closed
            && OnlyTouches(ep, o, id)
            && (id !in ep.streams ==> o.msgs == [] && id !in o.ep.streams)
            && (id in ep.streams ==>
                  var (recv, delta) := Consumed(ep.streams[id].recv, ep.window, n);
                  o.msgs == Grant(id, delta) && Look(o.ep.streams, id) == Some(ep.streams[id].(recv := recv)))
  {
    hide Consumed;
  }

  lemma ConsumeStep(role: Role, window: nat, h: seq<Happening>, x: Happening, life: Life)
    requires Recorded(role, window, h, life) && window <= MAX_STREAM_WINDOW && x.Asked? && x.api.Consume?
    ensures var o := Call(life.ep, x.api); Recorded(role, window, h + [x], Life(o.ep, life.wrote + o.msgs))
  {
    var id, o := x.api.id, Call(life.ep, x.api);
    assert RecordOf(role, window, h, id, life);
    SameWindow(role, window, h, life);
    AboutOne(role, h, x, id);
    ConsumeTouches(life.ep, id, x.api.n);
    hide Record, Consumed, Opened, Whole, About, OnlyTouches, Begins, Only, LiveRecord, CallConsume;
    if id in life.ep.streams {
      LiveOf(role, window, h, id, life);
      BegunGrows(role, h, x, id);
      ConsumeTaken(role, window, h, x, id, life.ep.streams[id], Only(life.wrote, id));
      StillLive(role, window, h + [x], id, Look(o.ep.streams, id), Look(o.ep.closed, id), Only(life.wrote, id) + o.msgs);
    } else {
      assert Only(life.wrote, id) + [] == Only(life.wrote, id);
      ConsumeIgnored(role, window, h, x, id, Look(life.ep.closed, id), Only(life.wrote, id));
    }
    WholeStays(role, window, h, x, life.ep, o.ep);
    OneStreamMoves(role, window, h, x, life, o, id);
  }

  lemma ControlStep(role: Role, window: nat, h: seq<Happening>, x: Happening, life: Life)
    requires Recorded(role, window, h, life)
    requires x == Asked(Ping) || x == Asked(GoAway) || (x.Got? && !IsStreamMsg(x.m))
    ensures var o := React(life.ep, x); Recorded(role, window, h + [x], Life(o.ep, life.wrote + o.msgs))
  {
    var o := React(life.ep, x);
    WholeOf(role, window, h, life);
    ControlKeepsWhole(role, window, h, x, life.ep);
    hide RecordOf, Opened, Whole;
    NoStreamMoves(role, window, h, x, life, o);
  }

  lemma ControlKeepsWhole(role: Role, window: nat, h: seq<Happening>, x: Happening, ep: Endpoint)
    requires Whole(role, window, h, ep)
    requires x == Asked(Ping) || x == Asked(GoAway) || (x.Got? && !IsStreamMsg(x.m))
    ensures Whole(role, window, h + [x], React(ep, x).ep)
  {
    hide Opened, Startable;
    Grows(role, h, x, 0);
  }

  lemma OpenTouches(ep: Endpoint, id: U32, r: OpenRequest)
    requires id !in ep.streams && !ReceiveOpen(ep, id, r).ep.failed && !ep.failed
    ensures var o := ReceiveOpen(ep, id, r);
            && OnlyTouches(ep, o, id) && o.msgs == [] && ep.role.Node? && id == ep.nextPeer
            && o.ep == ep.(streams := o.ep.streams, nextPeer := NextU32(ep.nextPeer))
            && Look(o.ep.streams, id) == Some(NewStream(ep.window)) && Look(o.ep.closed, id) == Look(ep.closed, id)
  {
  }

  /** The next stream's number is one more than there are streams. */
  lemma NextInLine(role: Role, window: nat, h: seq<Happening>, ep: Endpoint, id: U32)
    requires Whole(role, window, h, ep) && role.Node? && id != 0
    ensures id == ep.nextPeer <==> id == Opened(role, h) + 1
  {
    hide Opened;
  }

  lemma WholeOf(role: Role, window: nat, h: seq<Happening>, life: Life)
    requires Recorded(role, window, h, life)
    ensures Whole(role, window, h, life.ep)
  {
    hide RecordOf, Whole;
  }

  lemma OpenMsgStep(role: Role, window: nat, h: seq<Happening>, x: Happening, life: Life)
    requires Recorded(role, window, h, life) && x.Got? && x.m.OpenMsg? && x.m.id != 0
    requires !React(life.ep, x).ep.failed
    ensures var o := React(life.ep, x); Recorded(role, window, h + [x], Life(o.ep, life.wrote + o.msgs))
  {
    var id, o := x.m.id, React(life.ep, x);
    assert RecordOf(role, window, h, id, life);
    SameWindow(role, window, h, life);
    WholeOf(role, window, h, life);
    NextInLine(role, window, h, life.ep, id) by { assert role.Node?; }
    hide Record, Opened, About, OnlyTouches, Only, FreshRecord, LiveRecord, Whole;
    NotBegun(role, window, h, id, life);
    OpenTouches(life.ep, id, x.m.request);
    AboutOne(role, h, x, id);
    OpenWhole(role, window, h, x, life.ep, o.ep);
    StreamBegins(role, window, h, x, id, Only(life.wrote, id), o.msgs);
    OneStreamMoves(role, window, h, x, life, o, id);
  }

  lemma DataTouches(ep: Endpoint, m: Msg)
    requires m.DataMsg? && !Dispatch(ep, m).ep.failed && !ep.failed
    ensures var o := Dispatch(ep, m);
            && OnlyTouches(ep, o, m.id) && o.msgs == [] && o.ep == ep.(streams := o.ep.streams, closed := o.ep.closed)
            && (m.id in ep.closed ==>
                  !ep.closed[m.id] && Look(o.ep.closed, m.id) == Some(m.end) && Look(o.ep.streams, m.id) == Look(ep.streams, m.id))
            && (m.id !in ep.closed ==>
                  && m.id in ep.streams && !ep.streams[m.id].peerClosed && ep.streams[m.id].recv.outstanding + |m.bytes| <= ep.window
                  && Look(o.ep.closed, m.id) == None
                  && Look(o.ep.streams, m.id) ==
                     Some(ep.streams[m.id].(recv := Deliver(ep.streams[m.id].recv, |m.bytes|), peerClosed := m.end)))
  {
  }

  lemma DataStep(role: Role, window: nat, h: seq<Happening>, x: Happening, life: Life)
    requires Recorded(role, window, h, life) && x.Got? && x.m.DataMsg? && !React(life.ep, x).ep.failed
    ensures var o := React(life.ep, x); Recorded(role, window, h + [x], Life(o.ep, life.wrote + o.msgs))
  {
    var id, o, own := x.m.id, React(life.ep, x), Only(life.wrote, x.m.id);
    assert RecordOf(role, window, h, id, life);
    SameWindow(role, window, h, life);
    WholeOf(role, window, h, life);
    AboutOne(role, h, x, id);
    DataTouches(life.ep, x.m);
    hide Record, Opened, About, OnlyTouches, Only, LiveRecord, ClosedRecord, Whole, Dispatch;
    assert own + [] == own;
    if id in life.ep.closed {
      ClosedOf(role, window, h, id, life);
      DataDropped(role, window, h, x, id, own);
      NowClosed(role, window, h + [x], id, Look(o.ep.streams, id), Look(o.ep.closed, id), own);
    } else {
      LiveOf(role, window, h, id, life);
      BegunGrows(role, h, x, id);
      DataTaken(role, window, h, x, id, life.ep.streams[id], own);
      StillLive(role, window, h + [x], id, Look(o.ep.streams, id), Look(o.ep.closed, id), own);
    }
    WholeStays(role, window, h, x, life.ep, o.ep);
    OneStreamMoves(role, window, h, x, life, o, id);
  }

  lemma ClosedOf(role: Role, window: nat, h: seq<Happening>, id: U32, life: Life)
    requires RecordOf(role, window, h, id, life) && id in life.ep.closed
    ensures Begun(role, h, id) && id !in life.ep.streams
    ensures ClosedRecord(life.ep.closed[id], Only(life.wrote, id), role, h, id)
  {
    hide LiveRecord, ClosedRecord, Opened;
  }

  /** The record a flush leaves, whether or not it writes the EXIT. */
  predicate Leaves(f: Flushed, role: Role, window: nat, h: seq<Happening>, id: U32, own: seq<Msg>) {
    && AllFor(f.msgs, id) && Begun(role, h, id)
    && if f.exited then ClosedRecord(f.stream.peerClosed, own + f.msgs, role, h, id)
       else LiveRecord(f.stream, own + f.msgs, role, window, h, id)
  }

  lemma LeavesRecord(role: Role, window: nat, h: seq<Happening>, id: U32, f: Flushed, o: Outcome, ep: Endpoint, own: seq<Msg>)
    requires Leaves(f, role, window, h, id, own) && o.msgs == f.msgs && id !in ep.closed
    requires Look(o.ep.streams, id) == (if f.exited then None else Some(f.stream))
    requires Look(o.ep.closed, id) == (if f.exited then Some(f.stream.peerClosed) else Look(ep.closed, id))
    ensures Record(role, window, h, id, Look(o.ep.streams, id), Look(o.ep.closed, id), own + o.msgs)
  {
    hide LiveRecord, ClosedRecord, Opened, AllFor;
  }

  lemma CreditLeaves(role: Role, window: nat, h: seq<Happening>, x: Happening, id: U32, st: Stream, own: seq<Msg>)
    requires LiveRecord(st, own, role, window, h, id) && Begun(role, h, id) && x.Got? && x.m.CreditMsg? && x.m.id == id
    ensures Leaves(Flush(id, st.(credit := st.credit + x.m.delta), window), role, window, h + [x], id, own)
  {
    hide LiveRecord, ClosedRecord, Opened, Flush;
    CreditTaken(role, window, h, x, id, st, own);
  }

  lemma LeavesPlain(f: Flushed, role: Role, window: nat, h: seq<Happening>, id: U32, own: seq<Msg>)
    requires Leaves(f, role, window, h, id, own)
    ensures AllFor(f.msgs, id)
  {
  }

  /** Credit for a stream the session holds. */
  lemma CreditLive(role: Role, window: nat, h: seq<Happening>, x: Happening, ep: Endpoint, st: Stream, own: seq<Msg>, o: Outcome)
    requires x.Got? && x.m.CreditMsg? && x.m.id !in ep.closed && ep.window == window
    requires LiveRecord(st, own, role, window, h, x.m.id) && Begun(role, h, x.m.id)
    requires o == FlushInto(ep, x.m.id, st.(credit := st.credit + x.m.delta))
    ensures OnlyTouches(ep, o, x.m.id) && o.ep == ep.(streams := o.ep.streams, closed := o.ep.closed)
    ensures Record(role, window, h + [x], x.m.id, Look(o.ep.streams, x.m.id), Look(o.ep.closed, x.m.id), own + o.msgs)
  {
    hide Record, Leaves, OnlyTouches, LiveRecord, Flush, FlushInto, Opened;
    var st1 := st.(credit := st.credit + x.m.delta);
    CreditLeaves(role, window, h, x, x.m.id, st, own);
    LeavesPlain(Flush(x.m.id, st1, window), role, window, h + [x], x.m.id, own);
    FlushTouches(ep, x.m.id, st1);
    LeavesRecord(role, window, h + [x], x.m.id, Flush(x.m.id, st1, window), o, ep, own);
  }

  lemma CreditStep(role: Role, window: nat, h: seq<Happening>, x: Happening, life: Life)
    requires Recorded(role, window, h, life) && x.Got? && x.m.CreditMsg? && !React(life.ep, x).ep.failed
    ensures var o := React(life.ep, x); Recorded(role, window, h + [x], Life(o.ep, life.wrote + o.msgs))
  {
    var id := x.m.id;
    SameWindow(role, window, h, life);
    CreditMoves(life.ep, x.m);
    hide Recorded, Dispatch, FlushInto;
    if id in life.ep.streams {
      CreditHeld(role, window, h, x, life, React(life.ep, x));
    } else {
      CreditForClosed(role, window, h, x, life);
    }
  }

  lemma CreditHeld(role: Role, window: nat, h: seq<Happening>, x: Happening, life: Life, o: Outcome)
    requires Recorded(role, window, h, life) && x.Got? && x.m.CreditMsg? && x.m.id in life.ep.streams
    requires o == FlushInto(life.ep, x.m.id, life.ep.streams[x.m.id].(credit := life.ep.streams[x.m.id].credit + x.m.delta))
    ensures Recorded(role, window, h + [x], Life(o.ep, life.wrote + o.msgs))
  {
    var id, own := x.m.id, Only(life.wrote, x.m.id);
    assert RecordOf(role, window, h, id, life);
    SameWindow(role, window, h, life);
    WholeOf(role, window, h, life);
    AboutOne(role, h, x, id);
    hide Record, Opened, About, OnlyTouches, Only, LiveRecord, Whole, Flush, FlushInto, Begins;
    LiveOf(role, window, h, id, life);
    CreditLive(role, window, h, x, life.ep, life.ep.streams[id], own, o);
    WholeStays(role, window, h, x, life.ep, o.ep);
    OneStreamMoves(role, window, h, x, life, o, id);
  }

  lemma CreditForClosed(role: Role, window: nat, h: seq<Happening>, x: Happening, life: Life)
    requires Recorded(role, window, h, life) && x.Got? && x.m.CreditMsg? && x.m.id in life.ep.closed
    ensures Recorded(role, window, h + [x], Life(life.ep, life.wrote + []))
  {
    var id, own := x.m.id, Only(life.wrote, x.m.id);
    assert RecordOf(role, window, h, id, life);
    WholeOf(role, window, h, life);
    AboutOne(role, h, x, id);
    NothingTouches(life.ep, id);
    hide Record, Opened, About, OnlyTouches, Only, ClosedRecord, Whole, Begins;
    assert own + [] == own;
    ClosedOf(role, window, h, id, life);
    CreditDropped(role, window, h, x, id, life.ep.closed[id], own);
    NowClosed(role, window, h + [x], id, Look(life.ep.streams, id), Look(life.ep.closed, id), own);
    WholeStays(role, window, h, x, life.ep, life.ep);
    OneStreamMoves(role, window, h, x, life, Nothing(life.ep), id);
  }

  lemma CreditMoves(ep: Endpoint, m: Msg)
    requires m.CreditMsg? && !ep.failed && !Dispatch(ep, m).ep.failed
    ensures m.id in ep.streams ==>
              Dispatch(ep, m) == FlushInto(ep, m.id, ep.streams[m.id].(credit := ep.streams[m.id].credit + m.delta))
    ensures m.id !in ep.streams ==> Dispatch(ep, m) == Nothing(ep) && m.id in ep.closed
  {
    hide FlushInto;
  }

  lemma ExitMsgStep(role: Role, window: nat, h: seq<Happening>, x: Happening, life: Life)
    requires Recorded(role, window, h, life) && x.Got? && x.m.ExitMsg? && !React(life.ep, x).ep.failed
    ensures var o := React(life.ep, x); Recorded(role, window, h + [x], Life(o.ep, life.wrote + o.msgs))
  {
    var id, o, own := x.m.id, React(life.ep, x), Only(life.wrote, x.m.id);
    assert RecordOf(role, window, h, id, life);
    SameWindow(role, window, h, life);
    WholeOf(role, window, h, life);
    AboutOne(role, h, x, id);
    assert OnlyTouches(life.ep, o, id) && o.msgs == [] && role.Controller? && id in life.ep.streams;
    assert own + [] == own;
    hide Record, Opened, About, OnlyTouches, Only, LiveRecord, Whole;
    LiveOf(role, window, h, id, life);
    ExitTaken(role, window, h, x, id, life.ep.streams[id], own);
    WholeStays(role, window, h, x, life.ep, o.ep);
    OneStreamMoves(role, window, h, x, life, o, id);
  }

  lemma Step(role: Role, window: nat, h: seq<Happening>, x: Happening, life: Life)
    requires Recorded(role, window, h, life) && window <= MAX_STREAM_WINDOW && (x.Got? ==> WellFormed(x.m))
    requires !React(life.ep, x).ep.failed
    ensures var o := React(life.ep, x); Recorded(role, window, h + [x], Life(o.ep, life.wrote + o.msgs))
  {
    hide Recorded, Dispatch, Call;
    match x
    case Asked(Open(r)) => OpenCallStep(role, window, h, r, life);
    case Asked(SendData(_, _, _, _)) => SendStep(role, window, h, x, life);
    case Asked(SendExit(_, _)) => ExitStep(role, window, h, x, life);
    case Asked(Consume(_, _)) => ConsumeStep(role, window, h, x, life);
    case Got(OpenMsg(_, _)) => OpenMsgStep(role, window, h, x, life);
    case Got(DataMsg(_, _, _, _)) => DataStep(role, window, h, x, life);
    case Got(CreditMsg(_, _)) => CreditStep(role, window, h, x, life);
    case Got(ExitMsg(_, _)) => ExitMsgStep(role, window, h, x, life);
    case _ => ControlStep(role, window, h, x, life);
  }

  lemma OpenCallStep(role: Role, window: nat, h: seq<Happening>, r: OpenRequest, life: Life)
    requires Recorded(role, window, h, life)
    ensures var o := Call(life.ep, Open(r)); Recorded(role, window, h + [Asked(Open(r))], Life(o.ep, life.wrote + o.msgs))
  {
    hide Recorded, CallOpen;
    OpenStep(role, window, h, r, life);
  }

  lemma LifeMore(role: Role, window: nat, h: seq<Happening>, x: Happening)
    ensures var was := LifeOf(role, window, h);
            LifeOf(role, window, h + [x]) ==
            if was.ep.failed then was else Life(React(was.ep, x).ep, was.wrote + React(was.ep, x).msgs)
  {
    assert (h + [x])[..|h|] == h;
  }

  lemma StartIsRecorded(role: Role, window: nat)
    ensures Recorded(role, window, [], LifeOf(role, window, []))
  {
    forall id: U32 ensures RecordOf(role, window, [], id, LifeOf(role, window, [])) {
    }
  }

  /** As long as the session has not failed, its records say what the history says. */
  lemma {:induction false} HistoryIsRecorded(role: Role, window: nat, h: seq<Happening>)
    requires window <= MAX_STREAM_WINDOW && Formed(h) && !LifeOf(role, window, h).ep.failed
    ensures Recorded(role, window, h, LifeOf(role, window, h))
  {
    hide Recorded, React;
    if |h| == 0 {
      StartIsRecorded(role, window);
      assert h == [];
    } else {
      var before, last := h[..|h| - 1], h[|h| - 1];
      assert h == before + [last];
      LifeMore(role, window, before, last);
      HistoryIsRecorded(role, window, before);
      assert last in h;
      Step(role, window, before, last, LifeOf(role, window, before));
    }
  }

  // ---- frames heard -------------------------------------------------------------------------------------------

  /** The message at the front of a decoder's bytes. */
  function Heard(buffer: seq<Byte>): seq<Happening> {
    match ParseFront(buffer, DEFAULT_MAX_PAYLOAD)
    case Complete(f, _) => (match Interpret(f) case Some(m) => [Got(m)] case None => [])
    case _ => []
  }

  lemma RefusalOnlyFails(ep: Endpoint, f: Frame)
    requires DispatchFrame(ep, f).ep.failed && !ep.failed
    ensures DispatchFrame(ep, f) == Fail(ep)
  {
    hide Flush, Interpret;
  }

  lemma HeardIsFormed(buffer: seq<Byte>)
    ensures forall x :: x in Heard(buffer) && x.Got? ==> WellFormed(x.m)
  {
    hide ParseFront, Interpret, WellFormed;
    var front := ParseFront(buffer, DEFAULT_MAX_PAYLOAD);
    if front.Complete? && Interpret(front.frame).Some? {
      MeaningIsWellFormed(front.frame);
    }
  }

  lemma AsLived(role: Role, window: nat, h: seq<Happening>, heard: seq<Happening>)
    requires |heard| <= 1 && !LifeOf(role, window, h).ep.failed
    ensures LifeOf(role, window, h + heard).ep ==
            if |heard| == 0 then LifeOf(role, window, h).ep
            else React(LifeOf(role, window, h).ep, heard[0]).ep
    ensures LifeOf(role, window, h + heard).wrote ==
            LifeOf(role, window, h).wrote + if |heard| == 0 then [] else React(LifeOf(role, window, h).ep, heard[0]).msgs
  {
    hide LifeOf, React;
    if |heard| == 0 {
      assert h + heard == h;
    } else {
      assert h + heard == h + [heard[0]];
      LifeMore(role, window, h, heard[0]);
    }
  }
}
