/** One stream seen from both ends: its life cycle and what holds in each phase, whatever the other streams do. */
module StreamInvariant {
  import opened Wire
  import opened Options
  import opened ControlPayloads
  import opened Messages
  import opened CreditWindows
  import opened SessionSpec
  import opened FlowFacts

  /** A stream's state at the controller `c` and the node `n`/`closed`, its messages in flight in both directions, and
      its history: tokens accepted by each side's `sendData`, tokens that reached the peer, the reported exit. */
  datatype View = View(
    c: Option<Stream>,
    n: Option<Stream>,
    closed: Option<bool>,
    cn: seq<Msg>,
    nc: seq<Msg>,
    sentC: seq<Token>,
    arrN: seq<Token>,
    sentN: seq<Token>,
    gotC: seq<Token>,
    exitSent: Option<ExitStatus>)

  const UNISSUED := View(None, None, None, [], [], [], [], [], [], None)

  predicate IsCredit(m: Msg, id: U32) {
    m.CreditMsg? && m.id == id && m.delta > 0
  }

  predicate Traffic(q: seq<Msg>, id: U32, stdoutOnly: bool) {
    forall i | 0 <= i < |q| :: IsData(q[i], id, stdoutOnly) || IsCredit(q[i], id)
  }

  /** Half-close is final: no token follows END_STREAM. */
  predicate EndLast(s: seq<Token>) {
    forall i | 0 <= i < |s| - 1 :: s[i] != End
  }

  /** Nothing is lost, duplicated or reordered: what was sent is what arrived, what is in flight, what is owed. */
  predicate Carried(q: seq<Msg>, owed: seq<Token>, sent: seq<Token>, got: seq<Token>, ended: bool) {
    && sent == got + Tokens(q) + owed
    && EndLast(sent)
    && (ended <==> End in got)
  }

  /** A live sender: flushed, and closed once it has sent END_STREAM. */
  predicate SenderOk(s: Stream, sent: seq<Token>) {
    Flowing(s) && (End in sent ==> s.localClosed)
  }

  function Held(r: Credit): nat {
    r.outstanding + r.pending
  }

  /** Consumed credit is only withheld while bytes are outstanding. */
  predicate ReceiverOk(r: Credit) {
    r.outstanding == 0 ==> r.pending == 0
  }

  predicate ClientOk(c: Stream, sentC: seq<Token>) {
    SenderOk(c, sentC) && !c.exitPending && StdoutOnly(c.queue) && ReceiverOk(c.recv)
  }

  /** Credit conservation for one direction of a stream. */
  predicate Balanced(credit: nat, q: seq<Msg>, held: nat, credits: seq<Msg>, window: nat) {
    credit + DataLen(q) + held + CreditSum(credits) == window
  }

  /** Both ends hold the stream; `cn` is what follows the OPEN. */
  predicate Live(v: View, c: Stream, n: Stream, cn: seq<Msg>, id: U32, window: nat) {
    && ClientOk(c, v.sentC) && SenderOk(n, v.sentN) && ReceiverOk(n.recv)
    && Traffic(cn, id, true) && Traffic(v.nc, id, false)
    && Carried(cn, Owed(c), v.sentC, v.arrN, n.peerClosed)
    && Carried(v.nc, Owed(n), v.sentN, v.gotC, c.peerClosed)
    && Balanced(c.credit, cn, Held(n.recv), v.nc, window)
    && Balanced(n.credit, v.nc, Held(c.recv), cn, window)
    && v.exitSent == (if n.exitPending then Some(n.status) else None)
  }

  predicate Opening(v: View, id: U32, window: nat) {
    && v.c.Some? && v.n.None? && v.closed.None?
    && v.cn != [] && v.cn[0].OpenMsg? && v.cn[0].id == id && v.nc == []
    && Live(v, v.c.value, NewStream(window), v.cn[1..], id, window)
  }

  predicate Running(v: View, id: U32, window: nat) {
    && v.c.Some? && v.n.Some? && v.closed.None?
    && Live(v, v.c.value, v.n.value, v.cn, id, window)
  }

  /** The node has sent EXIT, which is the last message to the controller, behind all its data. */
  predicate Exiting(v: View, id: U32, window: nat) {
    && v.c.Some? && v.n.None? && v.closed.Some? && v.exitSent.Some?
    && ClientOk(v.c.value, v.sentC)
    && v.nc != [] && v.nc[|v.nc| - 1] == ExitMsg(id, v.exitSent.value)
    && Traffic(v.nc[..|v.nc| - 1], id, false) && Traffic(v.cn, id, true)
    && Carried(v.cn, Owed(v.c.value), v.sentC, v.arrN, v.closed.value)
    && Carried(v.nc, [], v.sentN, v.gotC, v.c.value.peerClosed)
    && v.c.value.credit + DataLen(v.cn) + CreditSum(v.nc) <= window
    && DataLen(v.nc) + Held(v.c.value.recv) <= window
  }

  /** The controller has seen EXIT, hence all the node's data; its own earlier traffic may still be on the way. */
  predicate Gone(v: View, id: U32, window: nat) {
    && v.c.None? && v.n.None? && v.closed.Some? && v.exitSent.Some?
    && v.nc == [] && Traffic(v.cn, id, true) && DataLen(v.cn) <= window
    && v.sentN == v.gotC && v.arrN + Tokens(v.cn) <= v.sentC
    && Carried(v.cn, [], v.arrN + Tokens(v.cn), v.arrN, v.closed.value)
  }

  predicate ViewInv(v: View, id: U32, window: nat) {
    v == UNISSUED || Opening(v, id, window) || Running(v, id, window) || Exiting(v, id, window) || Gone(v, id, window)
  }

  // ---- one direction ------------------------------------------------------------------------------------------

  lemma EnqueueOwed(st: Stream, bytes: seq<Byte>, end: bool, channel: Channel)
    requires Sound(st) && !st.localClosed
    ensures var st' := Enqueue(st, bytes, end, channel);
            Sound(st') && Owed(st') == Owed(st) + Tag(channel, bytes) + EndToken(end)
    ensures channel.Stdout? && StdoutOnly(st.queue) ==> StdoutOnly(Enqueue(st, bytes, end, channel).queue)
  {
    var q := QueueTokens(st.queue);
    if bytes == [] {
      assert Owed(st) + Tag(channel, bytes) == q;
    } else {
      QueueAppend(st.queue, Segment(channel, bytes));
      assert q + [] == q;
    }
  }

  /** Flushing moves tokens from the queue to the wire and leaves the carried sequence alone. */
  lemma FlushCarries(id: U32, st: Stream, q: seq<Msg>, sent: seq<Token>, got: seq<Token>)
    requires sent == got + Tokens(q) + Owed(st)
    ensures sent == got + Tokens(q + DataPart(id, st).msgs) + Owed(DataPart(id, st).stream)
  {
    var d := DataPart(id, st);
    DataPartTokens(id, st);
    FoldsAppend(q, d.msgs);
    Assoc(got + Tokens(q), Tokens(d.msgs), Owed(d.stream));
    Assoc(got, Tokens(q), Tokens(d.msgs));
  }

  lemma TrafficAppend(q: seq<Msg>, d: seq<Msg>, id: U32, stdoutOnly: bool, dataOnly: bool)
    requires Traffic(q, id, stdoutOnly) && AllData(d, id, dataOnly) && (stdoutOnly ==> dataOnly)
    ensures Traffic(q + d, id, stdoutOnly)
  {
    forall i | 0 <= i < |q + d|
      ensures IsData((q + d)[i], id, stdoutOnly) || IsCredit((q + d)[i], id)
    {
      if i >= |q| {
        assert IsData(d[i - |q|], id, dataOnly);
      }
    }
  }

  /** While DATA is on the way, its receiver has not seen END_STREAM. */
  lemma NotEndedYet(sent: seq<Token>, got: seq<Token>, q: seq<Msg>, owed: seq<Token>)
    requires sent == got + Tokens(q) + owed && EndLast(sent)
    requires q != [] && MsgTokens(q[0]) != []
    ensures End !in got
  {
    assert |Tokens(q)| >= |MsgTokens(q[0])| > 0;
    forall i | 0 <= i < |got| ensures got[i] != End {
      assert got[i] == sent[i];
    }
  }

  lemma EndArrives(got: seq<Token>, m: Msg)
    requires m.DataMsg? && End !in got
    ensures End in got + MsgTokens(m) <==> m.end
  {
    var t := Tag(m.channel, m.bytes);
    forall i | 0 <= i < |t| ensures t[i] != End {
      assert t[i] == Octet(m.channel, m.bytes[i]);
    }
    if m.end {
      assert (got + MsgTokens(m))[|got| + |t|] == End;
    }
  }

  /** Flushing a sender keeps its direction carried and pays byte for byte. */
  lemma FlushLeg(id: U32, s: Stream, q: seq<Msg>, sent: seq<Token>, got: seq<Token>, ended: bool, stdoutOnly: bool)
    requires Sound(s) && Traffic(q, id, stdoutOnly) && (stdoutOnly ==> StdoutOnly(s.queue))
    requires Carried(q, Owed(s), sent, got, ended)
    ensures var d := DataPart(id, s);
            && Carried(q + d.msgs, Owed(d.stream), sent, got, ended)
            && Traffic(q + d.msgs, id, stdoutOnly) && (stdoutOnly ==> StdoutOnly(d.stream.queue))
            && d.stream.credit + DataLen(q + d.msgs) == s.credit + DataLen(q)
            && CreditSum(q + d.msgs) == CreditSum(q)
            && SameFlags(d.stream, s)
            && (!d.stream.exitPending || d.stream.queue != [] ==> Flowing(d.stream))
  {
    var d := DataPart(id, s);
    DataPartSound(id, s);
    DataPartData(id, s);
    FlushCarries(id, s, q, sent, got);
    TrafficAppend(q, d.msgs, id, stdoutOnly, StdoutOnly(s.queue));
    FoldsAppend(q, d.msgs);
  }

  /** Delivering DATA hands its tokens to the receiver, who had not seen END_STREAM. */
  lemma DataLeg(q: seq<Msg>, owed: seq<Token>, sent: seq<Token>, got: seq<Token>, ended: bool)
    requires q != [] && q[0].DataMsg? && MsgTokens(q[0]) != [] && Carried(q, owed, sent, got, ended)
    ensures !ended && Carried(q[1..], owed, sent, got + MsgTokens(q[0]), q[0].end)
    ensures DataLen(q) == |q[0].bytes| + DataLen(q[1..]) && CreditSum(q) == CreditSum(q[1..])
  {
    NotEndedYet(sent, got, q, owed);
    Assoc(got, MsgTokens(q[0]), Tokens(q[1..]));
    EndArrives(got, q[0]);
  }

  /** Delivering credit leaves the data it travelled with alone. */
  lemma CreditLeg(q: seq<Msg>, owed: seq<Token>, sent: seq<Token>, got: seq<Token>, ended: bool)
    requires q != [] && q[0].CreditMsg? && Carried(q, owed, sent, got, ended)
    ensures Carried(q[1..], owed, sent, got, ended)
    ensures DataLen(q) == DataLen(q[1..]) && CreditSum(q) == q[0].delta + CreditSum(q[1..])
  {
    assert Tokens(q) == Tokens(q[1..]);
  }

  /** Sending a message without tokens, such as credit, leaves the data alone. */
  lemma SilentLeg(q: seq<Msg>, m: Msg, owed: seq<Token>, sent: seq<Token>, got: seq<Token>, ended: bool)
    requires !m.DataMsg? && Carried(q, owed, sent, got, ended)
    ensures Carried(q + [m], owed, sent, got, ended)
    ensures DataLen(q + [m]) == DataLen(q) && CreditSum(q + [m]) == CreditSum(q) + MsgCredit(m)
  {
    FoldsAppend(q, [m]);
    FoldsOne(m);
    assert Tokens(q + [m]) == Tokens(q);
  }

  /** Accepting data appends it to what is carried. */
  lemma EnqueueLeg(s: Stream, q: seq<Msg>, sent: seq<Token>, got: seq<Token>, ended: bool,
                   bytes: seq<Byte>, end: bool, channel: Channel)
    requires SenderOk(s, sent) && !s.localClosed && Carried(q, Owed(s), sent, got, ended)
    ensures var s', sent' := Enqueue(s, bytes, end, channel), sent + (Tag(channel, bytes) + EndToken(end));
            && Sound(s') && Carried(q, Owed(s'), sent', got, ended) && (End in sent' ==> s'.localClosed)
    ensures channel.Stdout? && StdoutOnly(s.queue) ==> StdoutOnly(Enqueue(s, bytes, end, channel).queue)
  {
    var t := Tag(channel, bytes) + EndToken(end);
    EnqueueOwed(s, bytes, end, channel);
    Assoc(Owed(s), Tag(channel, bytes), EndToken(end));
    Assoc(got + Tokens(q), Owed(s), t);
    TagHasNoEnd(channel, bytes);
    if !end {
      assert t == Tag(channel, bytes);
    }
  }

  lemma TagHasNoEnd(channel: Channel, bytes: seq<Byte>)
    ensures End !in Tag(channel, bytes)
  {
    forall i | 0 <= i < |bytes| ensures Tag(channel, bytes)[i] != End {
      assert Tag(channel, bytes)[i] == Octet(channel, bytes[i]);
    }
  }
}
