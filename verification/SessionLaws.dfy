/** The laws of one session against an arbitrary peer, each told by its history: what it writes, when it fails, what it
    tells its handler. */
module SessionLaws {
  import opened Wire
  import opened Options
  import opened OpenPayload
  import opened ControlPayloads
  import opened Messages
  import opened CreditWindows
  import opened SessionSpec
  import opened FlowFacts
  import opened StreamInvariant
  import opened StreamSteps
  import opened TwoParty
  import opened SessionHistory

  /** A history that an unfailed session with a permitted window can have had. */
  predicate Lived(role: Role, window: nat, h: seq<Happening>) {
    window <= MAX_STREAM_WINDOW && Formed(h) && !LifeOf(role, window, h).ep.failed
  }

  function Wrote(role: Role, window: nat, h: seq<Happening>): seq<Msg> {
    LifeOf(role, window, h).wrote
  }

  lemma {:induction false} OnlyHas(q: seq<Msg>, id: U32, m: Msg)
    ensures m in Only(q, id) <==> m in q && IsFor(m, id)
  {
    if q != [] {
      OnlyHas(q[1..], id, m);
      assert m in q <==> m == q[0] || m in q[1..];
    }
  }

  lemma RecordAt(role: Role, window: nat, h: seq<Happening>, id: U32)
    requires Lived(role, window, h)
    ensures RecordOf(role, window, h, id, LifeOf(role, window, h)) && Whole(role, window, h, LifeOf(role, window, h).ep)
  {
    hide RecordOf, LifeOf, Whole;
    HistoryIsRecorded(role, window, h);
  }

  // ---- what is written ----------------------------------------------------------------------------------------

  lemma OwedIfQueued(st: Stream)
    requires Sound(st) && st.queue != []
    ensures Owed(st) != []
  {
    assert |Tag(st.queue[0].channel, st.queue[0].bytes)| == |st.queue[0].bytes| > 0;
  }

  lemma PrefixOfSum(a: seq<Token>, b: seq<Token>, c: seq<Token>)
    requires a + b == c
    ensures a <= c && (a == c <==> b == [])
  {
    if b == [] { assert a + [] == a; }
  }

  /** On every stream, in order: what the session has put on the wire is what it was told to send, byte for byte and
      channel by channel, half-close included, short only of what the peer's credit does not allow yet (or, at a
      controller, of what was still waiting when the peer's EXIT came). */
  lemma SendsAllItIsTold(role: Role, window: nat, h: seq<Happening>, id: U32)
    requires Lived(role, window, h)
    ensures var own := Only(Wrote(role, window, h), id);
            && Tokens(own) <= Told(role, h, id)
            && (Tokens(own) != Told(role, h, id) && !ExitGot(h, id) ==> DataLen(own) == window + Granted(h, id))
  {
    RecordAt(role, window, h, id);
    var life := LifeOf(role, window, h);
    var own := Only(life.wrote, id);
    hide LifeOf, Told, Granted, ExitAsked, MaySend, HalfClosed, ExitGot, Only, Opened, Arrived, Unread, Tokens, DataLen, CreditSum, Owed, LiveRecord;
    if id in life.ep.streams {
      LiveOf(role, window, h, id, life);
      LiveSends(life.ep.streams[id], own, role, window, h, id);
    } else if !Begun(role, h, id) {
      NothingToSay();
    }
  }

  lemma LiveSends(st: Stream, own: seq<Msg>, role: Role, window: nat, h: seq<Happening>, id: U32)
    requires LiveRecord(st, own, role, window, h, id)
    ensures Tokens(own) <= Told(role, h, id)
    ensures Tokens(own) != Told(role, h, id) ==> DataLen(own) == window + Granted(h, id)
  {
    hide Told, Granted, ExitAsked, MaySend, HalfClosed, ExitGot, Tokens, DataLen, CreditSum, Owed, ReceiveOk;
    PrefixOfSum(Tokens(own), Owed(st), Told(role, h, id));
    if st.credit > 0 { NothingOwed(st); }
  }

  lemma NothingOwed(st: Stream)
    requires Flowing(st) && st.credit > 0
    ensures Owed(st) == []
  {
  }

  lemma NothingToSay()
    ensures Tokens([]) == [] && DataLen([]) == 0
  {
  }

  /** A node writes an EXIT exactly once it was asked for one and has written everything it was told to send; it has the
      status first asked for, is written once, and nothing on that stream follows it. */
  lemma ExitIsSent(role: Role, window: nat, h: seq<Happening>, id: U32, status: ExitStatus)
    requires Lived(role, window, h)
    ensures var own := Only(Wrote(role, window, h), id);
            && (ExitMsg(id, status) in Wrote(role, window, h) <==>
                  ExitAsked(role, h, id) == Some(status) && Tokens(own) == Told(role, h, id))
            && (ExitMsg(id, status) in Wrote(role, window, h) ==>
                  |own| > 0 && own[|own| - 1] == ExitMsg(id, status) && NoExit(own[..|own| - 1]))
  {
    RecordAt(role, window, h, id);
    var life := LifeOf(role, window, h);
    var own := Only(life.wrote, id);
    OnlyHas(life.wrote, id, ExitMsg(id, status));
    hide LifeOf, Told, Granted, ExitAsked, MaySend, HalfClosed, ExitGot, Only, Opened, Arrived, Unread, Tokens, DataLen, CreditSum, Owed, LiveRecord, ClosedRecord, NoExit;
    if id in life.ep.streams {
      LiveOf(role, window, h, id, life);
      LiveExit(life.ep.streams[id], own, role, window, h, id);
      ExitsInside(own, id, status);
    } else if id in life.ep.closed {
      ClosedOf(role, window, h, id, life);
      ClosedExit(life.ep.closed[id], own, role, h, id, status);
    } else {
      NothingAsked(role, window, h, id, own);
      ExitsInside(own, id, status);
    }
  }

  lemma ExitsInside(q: seq<Msg>, id: U32, status: ExitStatus)
    requires NoExit(q)
    ensures ExitMsg(id, status) !in q
  {
  }

  lemma NothingAsked(role: Role, window: nat, h: seq<Happening>, id: U32, own: seq<Msg>)
    requires SessionHistory.Record(role, window, h, id, None, None, own)
    ensures NoExit(own) && ExitAsked(role, h, id).None?
  {
    hide Told, Granted, ExitAsked, MaySend, HalfClosed, ExitGot, Opened, Arrived, Unread, Tokens;
  }

  lemma ClosedExit(peerClosed: bool, own: seq<Msg>, role: Role, h: seq<Happening>, id: U32, status: ExitStatus)
    requires ClosedRecord(peerClosed, own, role, h, id)
    ensures ExitMsg(id, status) in own <==> ExitAsked(role, h, id) == Some(status)
    ensures Tokens(own) == Told(role, h, id) && |own| > 0 && NoExit(own[..|own| - 1])
    ensures ExitMsg(id, status) in own ==> own[|own| - 1] == ExitMsg(id, status)
  {
    hide Told, ExitAsked, MaySend, HalfClosed, ExitGot, Tokens;
    LastOrBefore(own, ExitMsg(id, status));
  }

  lemma LiveExit(st: Stream, own: seq<Msg>, role: Role, window: nat, h: seq<Happening>, id: U32)
    requires LiveRecord(st, own, role, window, h, id)
    ensures NoExit(own) && (ExitAsked(role, h, id).Some? ==> Tokens(own) != Told(role, h, id))
  {
    hide Told, Granted, ExitAsked, MaySend, HalfClosed, ExitGot, Tokens, DataLen, CreditSum, Owed, ReceiveOk;
    PrefixOfSum(Tokens(own), Owed(st), Told(role, h, id));
    if st.exitPending { OwedIfQueued(st); }
  }

  lemma LastOrBefore(q: seq<Msg>, m: Msg)
    ensures m in q ==> m == q[|q| - 1] || m in q[..|q| - 1]
  {
  }

  predicate ExitSent(wrote: seq<Msg>, id: U32) {
    exists m :: m in wrote && m.ExitMsg? && m.id == id
  }

  /** Credit is given back for exactly what was consumed, all of it once everything is consumed, and otherwise but for
      less than half a window. */
  lemma CreditIsReturned(role: Role, window: nat, h: seq<Happening>, id: U32)
    requires Lived(role, window, h) && Begun(role, h, id) && !ExitGot(h, id) && !ExitSent(Wrote(role, window, h), id)
    ensures var given, consumed := CreditSum(Only(Wrote(role, window, h), id)), Arrived(h, id) - Unread(h, id);
            && given <= consumed && Unread(h, id) <= window
            && (Unread(h, id) == 0 ==> given == consumed)
            && (given == consumed || consumed - given < window / 2)
  {
    RecordAt(role, window, h, id);
    var life := LifeOf(role, window, h);
    hide LifeOf, Told, Granted, ExitAsked, MaySend, HalfClosed, ExitGot, Only, Opened, Arrived, Unread, Tokens, DataLen, CreditSum, Owed;
    if id in life.ep.closed {
      ClosedOf(role, window, h, id, life);
      OnlyHas(life.wrote, id, ExitMsg(id, ExitAsked(role, h, id).value));
    }
  }

  /** `open` writes the next stream's OPEN exactly at a controller whose request is within bounds, while neither end has
      gone away and numbers are left; otherwise it does nothing. */
  lemma OpensWhenAllowed(role: Role, window: nat, h: seq<Happening>, r: OpenRequest)
    requires Lived(role, window, h)
    ensures Call(LifeOf(role, window, h).ep, Open(r)).msgs ==
            if role.Controller? && Startable(r) && Asked(GoAway) !in h && Got(GoAwayMsg) !in h && Opened(role, h) < U32_LIMIT - 1
            then [OpenMsg(Opened(role, h) + 1, r)] else []
  {
    RecordAt(role, window, h, 0);
    hide LifeOf, Opened;
    StartableIsValid(r);
  }

  // ---- connection messages ------------------------------------------------------------------------------------

  function Controls(q: seq<Msg>): seq<Msg> {
    if |q| == 0 then [] else Controls(q[..|q| - 1]) + if IsStreamMsg(q[|q| - 1]) then [] else [q[|q| - 1]]
  }

  /** One PING per `ping`, one GOAWAY for the first `goAway`, one PONG per PING that arrives. */
  function DueControls(h: seq<Happening>): seq<Msg> {
    if |h| == 0 then []
    else
      var before := h[..|h| - 1];
      DueControls(before) +
      match h[|h| - 1]
      case Asked(Ping) => [PingMsg]
      case Asked(GoAway) => if Asked(GoAway) in before then [] else [GoAwayMsg]
      case Got(PingMsg) => [PongMsg]
      case _ => []
  }

  lemma {:induction false} ControlsAppend(a: seq<Msg>, b: seq<Msg>)
    ensures Controls(a + b) == Controls(a) + Controls(b)
    decreases |b|
  {
    if |b| == 0 {
      assert a + b == a;
    } else {
      assert (a + b)[..|a + b| - 1] == a + b[..|b| - 1];
      ControlsAppend(a, b[..|b| - 1]);
    }
  }

  lemma {:induction false} NoControls(q: seq<Msg>, id: U32)
    requires AllFor(q, id)
    ensures Controls(q) == []
  {
    if |q| > 0 {
      assert IsFor(q[|q| - 1], id);
      NoControls(q[..|q| - 1], id);
    }
  }

  lemma ReactControls(ep: Endpoint, x: Happening)
    ensures Controls(React(ep, x).msgs) ==
            match x
            case Asked(Ping) => if ep.failed then [] else [PingMsg]
            case Asked(GoAway) => if ep.failed || ep.sentGoAway then [] else [GoAwayMsg]
            case Got(PingMsg) => [PongMsg]
            case _ => []
  {
    hide Controls, Flush, Consumed, Valid;
    var msgs := React(ep, x).msgs;
    assert Controls([]) == [] by { NoControls([], 0); }
    match x
    case Asked(SendData(id, bytes, end, channel)) =>
      if Accepts(ep, id, channel) { FlushControls(ep, id, Enqueue(ep.streams[id], bytes, end, channel)); }
    case Got(CreditMsg(id, delta)) =>
      if id in ep.streams { FlushControls(ep, id, ep.streams[id].(credit := ep.streams[id].credit + delta)); }
    case _ => ShortControls(msgs);
  }

  lemma ShortControls(q: seq<Msg>)
    ensures |q| == 1 ==> Controls(q) == if IsStreamMsg(q[0]) then [] else q
  {
    if |q| == 1 { assert q == [q[0]]; }
  }

  lemma FlushControls(ep: Endpoint, id: U32, st: Stream)
    ensures Controls(FlushInto(ep, id, st).msgs) == []
  {
    hide Controls, DataPart, Flush;
    FlushShape(id, st, ep.window);
    DataPartPlain(id, st);
    NoControls(FlushInto(ep, id, st).msgs, id);
  }

  lemma DataPartPlain(id: U32, st: Stream)
    ensures AllFor(DataPart(id, st).msgs, id)
  {
    hide Drain;
    DrainWritesData(id, st);
  }

  /** Connection messages are written when due and at no other time. */
  lemma {:induction false} ControlsAreDue(role: Role, window: nat, h: seq<Happening>)
    requires Lived(role, window, h)
    ensures Controls(Wrote(role, window, h)) == DueControls(h)
  {
    hide React, Controls;
    if |h| > 0 {
      var before, last := h[..|h| - 1], h[|h| - 1];
      assert h == before + [last];
      LifeMore(role, window, before, last);
      ControlsAreDue(role, window, before);
      HistoryIsRecorded(role, window, before);
      var was := LifeOf(role, window, before);
      ControlsAppend(was.wrote, React(was.ep, last).msgs);
      ReactControls(was.ep, last);
      WholeOf(role, window, before, was);
      hide LifeOf;
    } else {
      assert Controls([]) == [] by { NoControls([], 0); }
    }
  }

  // ---- what is received ---------------------------------------------------------------------------------------

  /** A message the protocol does not permit after this history. */
  predicate Violates(role: Role, window: nat, h: seq<Happening>, m: Msg) {
    match m
    case OpenMsg(id, _) => role.Controller? || GoneAway(h) || id != Opened(role, h) + 1
    case DataMsg(id, _, channel, bytes) =>
      || (role.Node? && channel.Stderr?) || !Begun(role, h, id) || HalfClosed(h, id) || ExitGot(h, id)
      || (!ExitSent(Wrote(role, window, h), id) && Unread(h, id) + |bytes| > window)
    case CreditMsg(id, delta) =>
      || !Begun(role, h, id) || ExitGot(h, id)
      || (!ExitSent(Wrote(role, window, h), id)
          && window + Granted(h, id) + delta - DataLen(Only(Wrote(role, window, h), id)) > 0x7FFF_FFFF)
    case ExitMsg(id, _) => role.Node? || !Begun(role, h, id) || ExitGot(h, id)
    case _ => false
  }

  lemma ExitSentIff(role: Role, window: nat, h: seq<Happening>, id: U32)
    requires Lived(role, window, h)
    ensures ExitSent(Wrote(role, window, h), id) <==> id in LifeOf(role, window, h).ep.closed
  {
    RecordAt(role, window, h, id);
    var life := LifeOf(role, window, h);
    hide LifeOf, Told, Granted, ExitAsked, MaySend, HalfClosed, ExitGot, Only, Opened, Arrived, Unread, Tokens, DataLen, CreditSum, Owed;
    if id in life.ep.closed {
      ClosedOf(role, window, h, id, life);
      OnlyHas(life.wrote, id, ExitMsg(id, ExitAsked(role, h, id).value));
    } else if ExitSent(life.wrote, id) {
      var m :| m in life.wrote && m.ExitMsg? && m.id == id;
      OnlyHas(life.wrote, id, m);
    }
  }

  /** The session fails on a well-formed message exactly when the protocol does not permit it. */
  lemma FailsExactlyOnViolation(role: Role, window: nat, h: seq<Happening>, m: Msg)
    requires Lived(role, window, h) && WellFormed(m)
    ensures Dispatch(LifeOf(role, window, h).ep, m).ep.failed <==> Violates(role, window, h, m)
  {
    if m.OpenMsg? {
      OpenViolates(role, window, h, m);
    } else if m.DataMsg? {
      DataViolates(role, window, h, m);
    } else if m.CreditMsg? {
      CreditViolates(role, window, h, m);
    } else if m.ExitMsg? {
      ExitViolates(role, window, h, m);
    } else {
      hide LifeOf, Formed;
    }
  }

  lemma OpenViolates(role: Role, window: nat, h: seq<Happening>, m: Msg)
    requires Lived(role, window, h) && m.OpenMsg? && m.id != 0
    ensures Dispatch(LifeOf(role, window, h).ep, m).ep.failed <==> Violates(role, window, h, m)
  {
    RecordAt(role, window, h, m.id);
    hide LifeOf, Opened, RecordOf, Formed, Valid;
  }

  lemma DataViolates(role: Role, window: nat, h: seq<Happening>, m: Msg)
    requires Lived(role, window, h) && m.DataMsg?
    ensures Dispatch(LifeOf(role, window, h).ep, m).ep.failed <==> Violates(role, window, h, m)
  {
    RecordAt(role, window, h, m.id);
    ExitSentIff(role, window, h, m.id);
    hide LifeOf, Told, Granted, ExitAsked, MaySend, HalfClosed, ExitGot, ExitSent, Only, Opened, Arrived, Unread, Tokens, DataLen, CreditSum, Owed, Sound, Flowing, Formed, Wrote;
  }

  lemma CreditViolates(role: Role, window: nat, h: seq<Happening>, m: Msg)
    requires Lived(role, window, h) && m.CreditMsg?
    ensures Dispatch(LifeOf(role, window, h).ep, m).ep.failed <==> Violates(role, window, h, m)
  {
    RecordAt(role, window, h, m.id);
    ExitSentIff(role, window, h, m.id);
    hide LifeOf, Told, Granted, ExitAsked, MaySend, HalfClosed, ExitGot, ExitSent, Only, Opened, Arrived, Unread, Tokens, DataLen, CreditSum, Owed, Flush, Sound, Flowing;
  }

  lemma ExitViolates(role: Role, window: nat, h: seq<Happening>, m: Msg)
    requires Lived(role, window, h) && m.ExitMsg?
    ensures Dispatch(LifeOf(role, window, h).ep, m).ep.failed <==> Violates(role, window, h, m)
  {
    RecordAt(role, window, h, m.id);
    hide LifeOf, Told, Granted, ExitAsked, MaySend, HalfClosed, ExitGot, ExitSent, Only, Opened, Arrived, Unread, Tokens, DataLen, CreditSum, Owed, Flush, Sound, Flowing;
  }

  /** No call makes the session fail. */
  lemma CallsNeverFail(ep: Endpoint, api: Api)
    ensures Call(ep, api).ep.failed == ep.failed
  {
    hide Flush;
  }

  /** What the handler is told of a permitted message: everything but data for a stream the node has closed. Credit may
      make the stream writable. */
  lemma CallbacksAreDue(role: Role, window: nat, h: seq<Happening>, m: Msg)
    requires Lived(role, window, h) && WellFormed(m) && !Violates(role, window, h, m)
    ensures var calls := Dispatch(LifeOf(role, window, h).ep, m).calls;
            match m
            case OpenMsg(id, r) => calls == [OnOpen(id, r)]
            case DataMsg(id, end, channel, bytes) =>
              calls == if ExitSent(Wrote(role, window, h), id) then [] else [OnData(id, bytes, end, channel)]
            case CreditMsg(id, _) => calls == [] || calls == [OnWritable(id)]
            case ExitMsg(id, status) => calls == [OnExit(id, status)]
            case PingMsg => calls == []
            case PongMsg => calls == [OnPong]
            case GoAwayMsg => calls == [OnGoAway]
  {
    FailsExactlyOnViolation(role, window, h, m);
    if IsStreamMsg(m) { ExitSentIff(role, window, h, m.id); }
    hide LifeOf, Violates, ExitSent, Flush, Lived;
  }

  // ---- the same in terms of one stream ------------------------------------------------------------------------

  lemma {:induction false} DrainIsCompact(id: U32, st: Stream)
    requires Sound(st)
    ensures |Drain(id, st).msgs| <= |st.queue|
    ensures forall m :: m in Drain(id, st).msgs ==> m.DataMsg? && m.bytes != []
    ensures st.queue != [] && Drain(id, st).stream.queue == [] ==> !Drain(id, st).stream.endPending
    decreases |st.queue|, st.credit
  {
    if st.queue != [] && st.credit > 0 {
      var step := SendFront(id, st);
      SendFrontSound(id, st);
      if step.stream.queue == [] || step.stream.credit == 0 {
        assert Drain(id, step.stream) == Drained(step.stream, []);
      } else {
        DrainIsCompact(id, step.stream);
      }
    }
  }

  /** A flush wastes no frames: at most one per queued segment, none of them empty. A half-close rides the last of them;
      only when nothing is queued does it take an empty frame of its own. */
  lemma FlushIsCompact(id: U32, st: Stream)
    requires Sound(st)
    ensures |DataPart(id, st).msgs| <= if st.queue == [] then 1 else |st.queue|
    ensures forall m :: m in DataPart(id, st).msgs ==>
              m.DataMsg? && m.id == id && (m.bytes == [] ==> st.queue == [] && m.end && m.channel.Stdout?)
  {
    hide Drain, Sound;
    DrainIsCompact(id, st);
    DrainWritesData(id, st);
    if st.queue == [] { NothingDrains(id, st); }
  }

  lemma NothingDrains(id: U32, st: Stream)
    requires st.queue == []
    ensures Drain(id, st) == Drained(st, [])
  {
  }

  /** The producer is told exactly when a full queue has drained below the window and the stream goes on. */
  lemma WritableExactly(id: U32, st: Stream, window: nat)
    requires Sound(st)
    ensures var f := Flush(id, st, window);
            f.writable <==> !f.exited && QueueLen(st.queue) >= window && QueueLen(f.stream.queue) < window
  {
    hide Drain, QueueLen;
    DataPartSound(id, st);
  }

  /** On an unfailed session that holds the stream, with neither its data ended nor an exit reported, nothing handed to
      `sendData` gets lost: it is on the wire or owed, behind what was owed before. A controller sends on stdout only. */
  lemma SendDataKeepsAll(ep: Endpoint, id: U32, bytes: seq<Byte>, end: bool, channel: Channel)
    requires !ep.failed && id in ep.streams && Sound(ep.streams[id])
    requires !ep.streams[id].localClosed && !ep.streams[id].exitPending && (ep.role.Node? || channel.Stdout?)
    ensures var o := CallSendData(ep, id, bytes, end, channel);
            && id in o.ep.streams && !o.ep.failed
            && Owed(ep.streams[id]) + Tag(channel, bytes) + EndToken(end) == Tokens(o.msgs) + Owed(o.ep.streams[id])
            && (o.ep.streams[id].queue != [] ==> o.ep.streams[id].credit == 0)
            && o.ep.streams[id].credit + DataLen(o.msgs) == ep.streams[id].credit
            && o.ep.streams[id].localClosed == end
  {
    var st1 := Enqueue(ep.streams[id], bytes, end, channel);
    EnqueueOwed(ep.streams[id], bytes, end, channel);
    FlushShape(id, st1, ep.window);
    DataPartSound(id, st1);
    DataPartTokens(id, st1);
    hide Drain, Owed, Tokens, DataLen, DataPart, Flush, Sound;
    assert DataPart(id, st1).msgs + [] == DataPart(id, st1).msgs;
  }

  /** The first `sendExit` on a stream that an unfailed node holds writes the EXIT and forgets the stream, or leaves it
      pending with that status behind data that is not sent yet. */
  lemma FirstExitIsTaken(ep: Endpoint, id: U32, status: ExitStatus)
    requires !ep.failed && ep.role.Node? && id in ep.streams && !ep.streams[id].exitPending
    ensures var o := CallSendExit(ep, id, status);
            if ep.streams[id].queue == [] && !ep.streams[id].endPending
            then o.msgs == [ExitMsg(id, status)] && id !in o.ep.streams && Look(o.ep.closed, id) == Some(ep.streams[id].peerClosed)
            else o.msgs == [] && id in o.ep.streams
                 && o.ep.streams[id] == ep.streams[id].(localClosed := true, exitPending := true, status := status)
  {
  }
}
