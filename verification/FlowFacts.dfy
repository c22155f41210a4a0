/** What a direction of a stream carries, as a token sequence, and what one flush does to it. */
module FlowFacts {
  import opened Wire
  import opened Messages
  import opened SessionSpec

  /** A byte on a channel, or the sender's half-close. */
  datatype Token = Octet(channel: Channel, b: Byte) | End

  function Tag(channel: Channel, bytes: seq<Byte>): (t: seq<Token>)
    ensures |t| == |bytes|
  {
    seq(|bytes|, i requires 0 <= i < |bytes| => Octet(channel, bytes[i]))
  }

  function EndToken(end: bool): seq<Token> {
    if end then [End] else []
  }

  function MsgTokens(m: Msg): seq<Token> {
    if m.DataMsg? then Tag(m.channel, m.bytes) + EndToken(m.end) else []
  }

  function MsgLen(m: Msg): nat {
    if m.DataMsg? then |m.bytes| else 0
  }

  function MsgCredit(m: Msg): nat {
    if m.CreditMsg? then m.delta else 0
  }

  lemma Assoc<T>(a: seq<T>, b: seq<T>, c: seq<T>)
    ensures a + (b + c) == (a + b) + c
  {
  }

  lemma DropAppend<T>(a: seq<T>, b: seq<T>)
    requires a != []
    ensures (a + b)[1..] == a[1..] + b && (a + b)[0] == a[0]
  {
  }

  lemma TagSplit(channel: Channel, bytes: seq<Byte>, k: nat)
    requires k <= |bytes|
    ensures Tag(channel, bytes) == Tag(channel, bytes[..k]) + Tag(channel, bytes[k..])
  {
  }

  // Folds over messages in flight: the tokens, the DATA bytes and the credit they carry.

  function Tokens(q: seq<Msg>): seq<Token> {
    if q == [] then [] else MsgTokens(q[0]) + Tokens(q[1..])
  }

  function DataLen(q: seq<Msg>): nat {
    if q == [] then 0 else MsgLen(q[0]) + DataLen(q[1..])
  }

  function CreditSum(q: seq<Msg>): nat {
    if q == [] then 0 else MsgCredit(q[0]) + CreditSum(q[1..])
  }

  lemma {:induction false} FoldsAppend(a: seq<Msg>, b: seq<Msg>)
    ensures Tokens(a + b) == Tokens(a) + Tokens(b)
    ensures DataLen(a + b) == DataLen(a) + DataLen(b)
    ensures CreditSum(a + b) == CreditSum(a) + CreditSum(b)
  {
    if a == [] {
      assert a + b == b;
    } else {
      FoldsAppend(a[1..], b);
      DropAppend(a, b);
      Assoc(MsgTokens(a[0]), Tokens(a[1..]), Tokens(b));
    }
  }

  lemma FoldsOne(m: Msg)
    ensures Tokens([m]) == MsgTokens(m) && DataLen([m]) == MsgLen(m) && CreditSum([m]) == MsgCredit(m)
  {
    assert [m][1..] == [];
  }

  function QueueTokens(q: seq<Segment>): seq<Token> {
    if q == [] then [] else Tag(q[0].channel, q[0].bytes) + QueueTokens(q[1..])
  }

  function QueueLen(q: seq<Segment>): nat {
    if q == [] then 0 else |q[0].bytes| + QueueLen(q[1..])
  }

  lemma {:induction false} QueueAppend(q: seq<Segment>, s: Segment)
    ensures QueueTokens(q + [s]) == QueueTokens(q) + Tag(s.channel, s.bytes)
    ensures QueueLen(q + [s]) == QueueLen(q) + |s.bytes|
  {
    if q == [] {
      assert q + [s] == [s];
    } else {
      QueueAppend(q[1..], s);
      assert (q + [s])[1..] == q[1..] + [s];
    }
  }

  /** What the sender still owes the wire on this stream. */
  function Owed(st: Stream): seq<Token> {
    QueueTokens(st.queue) + EndToken(st.endPending)
  }

  /** Queue shape that every operation keeps; `credit` may be unspent only between an update and its flush. */
  predicate Sound(st: Stream) {
    && (forall i | 0 <= i < |st.queue| :: st.queue[i].bytes != [])
    && st.queued == QueueLen(st.queue)
    && (st.endPending ==> st.localClosed)
    && (st.exitPending ==> st.localClosed)
  }

  /** A flushed stream: nothing is held back while credit remains. */
  predicate Flowing(st: Stream) {
    && Sound(st)
    && (st.queue != [] ==> st.credit == 0)
    && (st.endPending || st.exitPending ==> st.queue != [])
  }

  predicate SameFlags(a: Stream, b: Stream) {
    && a.recv == b.recv && a.exitPending == b.exitPending && a.localClosed == b.localClosed
    && a.peerClosed == b.peerClosed && a.status == b.status
  }

  /** DATA of one stream that carries at least one token; a sender restricted to stdout never tags stderr. */
  predicate IsData(m: Msg, id: U32, stdoutOnly: bool) {
    m.DataMsg? && m.id == id && MsgTokens(m) != [] && (stdoutOnly ==> m.channel.Stdout?)
  }

  predicate AllData(q: seq<Msg>, id: U32, stdoutOnly: bool) {
    forall i | 0 <= i < |q| :: IsData(q[i], id, stdoutOnly)
  }

  predicate StdoutOnly(q: seq<Segment>) {
    forall i | 0 <= i < |q| :: q[i].channel.Stdout?
  }

  /** One loop turn pays for what it sends and keeps the queue sound. */
  lemma SendFrontSound(id: U32, st: Stream)
    requires Sound(st) && st.queue != [] && st.credit > 0
    ensures Sound(SendFront(id, st).stream) && SameFlags(SendFront(id, st).stream, st)
    ensures SendFront(id, st).stream.credit + DataLen(SendFront(id, st).msgs) == st.credit
  {
    var d, front, chunk := SendFront(id, st), st.queue[0], Chunk(st);
    FoldsOne(d.msgs[0]);
    if chunk != |front.bytes| {
      assert d.stream.queue[1..] == st.queue[1..];
      assert d.stream.queue[0].bytes == front.bytes[chunk..];
    }
  }

  /** One loop turn moves tokens from the queue to the wire. */
  lemma SendFrontTokens(id: U32, st: Stream)
    requires st.queue != [] && st.credit > 0
    ensures Owed(st) == MsgTokens(SendFront(id, st).msgs[0]) + Owed(SendFront(id, st).stream)
  {
    var d, front, chunk := SendFront(id, st), st.queue[0], Chunk(st);
    var rest := QueueTokens(st.queue[1..]);
    if chunk == |front.bytes| {
      assert front.bytes[..chunk] == front.bytes;
      if |st.queue| == 1 {
        assert st.queue[1..] == [];
        assert Owed(d.stream) == EndToken(d.stream.endPending);
      }
      Assoc(Tag(front.channel, front.bytes), rest, EndToken(st.endPending));
    } else {
      var head, tail := Tag(front.channel, front.bytes[..chunk]), Tag(front.channel, front.bytes[chunk..]);
      assert d.stream.queue[1..] == st.queue[1..];
      TagSplit(front.channel, front.bytes, chunk);
      assert MsgTokens(d.msgs[0]) == head;
      Assoc(head, tail, rest);
      Assoc(head, tail + rest, EndToken(st.endPending));
    }
  }

  lemma SendFrontData(id: U32, st: Stream)
    requires Sound(st) && st.queue != [] && st.credit > 0
    ensures IsData(SendFront(id, st).msgs[0], id, StdoutOnly(st.queue))
    ensures StdoutOnly(st.queue) ==> StdoutOnly(SendFront(id, st).stream.queue)
  {
    assert |MsgTokens(SendFront(id, st).msgs[0])| >= Chunk(st);
  }

  /** The draining loop: it spends credit until the queue or the credit runs out. */
  lemma {:induction false} DrainSound(id: U32, st: Stream)
    requires Sound(st)
    ensures Sound(Drain(id, st).stream) && SameFlags(Drain(id, st).stream, st)
    ensures Drain(id, st).stream.queue == [] || Drain(id, st).stream.credit == 0
    ensures Drain(id, st).stream.credit + DataLen(Drain(id, st).msgs) == st.credit
    decreases |st.queue|, st.credit
  {
    if st.queue == [] || st.credit == 0 {
    } else {
      var step := SendFront(id, st);
      SendFrontSound(id, st);
      DrainSound(id, step.stream);
      FoldsAppend(step.msgs, Drain(id, step.stream).msgs);
    }
  }

  lemma {:induction false} DrainTokens(id: U32, st: Stream)
    ensures Owed(st) == Tokens(Drain(id, st).msgs) + Owed(Drain(id, st).stream)
    decreases |st.queue|, st.credit
  {
    if st.queue == [] || st.credit == 0 {
      assert [] + Owed(st) == Owed(st);
    } else {
      var step := SendFront(id, st);
      var rest := Drain(id, step.stream);
      SendFrontTokens(id, st);
      DrainTokens(id, step.stream);
      FoldsAppend(step.msgs, rest.msgs);
      FoldsOne(step.msgs[0]);
      Assoc(MsgTokens(step.msgs[0]), Tokens(rest.msgs), Owed(rest.stream));
    }
  }

  lemma {:induction false} DrainData(id: U32, st: Stream)
    requires Sound(st)
    ensures AllData(Drain(id, st).msgs, id, StdoutOnly(st.queue))
    ensures StdoutOnly(st.queue) ==> StdoutOnly(Drain(id, st).stream.queue)
    decreases |st.queue|, st.credit
  {
    if st.queue == [] || st.credit == 0 {
    } else {
      SendFrontSound(id, st);
      SendFrontData(id, st);
      DrainData(id, SendFront(id, st).stream);
    }
  }

  /** What a flush puts on the wire ahead of a deferred EXIT. */
  function DataPart(id: U32, st: Stream): Drained {
    SendEnd(id, Drain(id, st))
  }

  lemma {:induction false} DataHasNoCredit(q: seq<Msg>, id: U32, stdoutOnly: bool)
    requires AllData(q, id, stdoutOnly)
    ensures CreditSum(q) == 0
  {
    if q != [] {
      assert IsData(q[0], id, stdoutOnly);
      assert AllData(q[1..], id, stdoutOnly);
      DataHasNoCredit(q[1..], id, stdoutOnly);
    }
  }

  lemma DataPartSound(id: U32, st: Stream)
    requires Sound(st)
    ensures Sound(DataPart(id, st).stream) && SameFlags(DataPart(id, st).stream, st)
    ensures DataPart(id, st).stream.queue != [] ==> DataPart(id, st).stream.credit == 0
    ensures DataPart(id, st).stream.endPending ==> DataPart(id, st).stream.queue != []
    ensures DataPart(id, st).stream.credit + DataLen(DataPart(id, st).msgs) == st.credit
  {
    DrainSound(id, st);
    var end := DataMsg(id, true, Stdout, []);
    FoldsOne(end);
    FoldsAppend(Drain(id, st).msgs, [end]);
  }

  lemma DataPartTokens(id: U32, st: Stream)
    ensures Owed(st) == Tokens(DataPart(id, st).msgs) + Owed(DataPart(id, st).stream)
  {
    DrainTokens(id, st);
    var d, end := Drain(id, st), DataMsg(id, true, Stdout, []);
    if d.stream.queue == [] && d.stream.endPending {
      FoldsOne(end);
      FoldsAppend(d.msgs, [end]);
      assert MsgTokens(end) == [End] == Owed(d.stream);
      assert Owed(DataPart(id, st).stream) == [];
    }
  }

  lemma DataPartData(id: U32, st: Stream)
    requires Sound(st)
    ensures AllData(DataPart(id, st).msgs, id, StdoutOnly(st.queue))
    ensures StdoutOnly(st.queue) ==> StdoutOnly(DataPart(id, st).stream.queue)
    ensures CreditSum(DataPart(id, st).msgs) == 0
  {
    DrainData(id, st);
    assert MsgTokens(DataMsg(id, true, Stdout, [])) == [End];
    DataHasNoCredit(DataPart(id, st).msgs, id, StdoutOnly(st.queue));
  }

  /** A flush emits the data part and, exactly when nothing is left behind it, the deferred EXIT. */
  lemma FlushShape(id: U32, st: Stream, window: nat)
    ensures var f, d := Flush(id, st, window), DataPart(id, st);
            && f.stream == d.stream
            && f.msgs == d.msgs + (if f.exited then [ExitMsg(id, d.stream.status)] else [])
            && (f.exited <==> d.stream.queue == [] && !d.stream.endPending && d.stream.exitPending)
  {
    assert DataPart(id, st).msgs + [] == DataPart(id, st).msgs;
  }

  /** Draining writes DATA of its own stream and touches only the queue, its counters and the pending end. */
  lemma {:induction false} DrainWritesData(id: U32, st: Stream)
    ensures forall i | 0 <= i < |Drain(id, st).msgs| :: Drain(id, st).msgs[i].DataMsg? && Drain(id, st).msgs[i].id == id
    ensures Drain(id, st).stream == st.(queue := Drain(id, st).stream.queue, credit := Drain(id, st).stream.credit,
                                        queued := Drain(id, st).stream.queued, endPending := Drain(id, st).stream.endPending)
    decreases |st.queue|, st.credit
  {
    if st.queue != [] && st.credit > 0 {
      DrainWritesData(id, SendFront(id, st).stream);
    }
  }
}
