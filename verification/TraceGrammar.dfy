/** One session against an arbitrary peer: whatever bytes arrive and whatever its application calls, what the session
    tells its handler and writes about each stream follows the stream grammar, until its first error silences it. */
module TraceGrammar {
  import opened Wire
  import opened FrameCodec
  import opened OpenPayload
  import opened ControlPayloads
  import opened Messages
  import opened CreditWindows
  import opened SessionSpec
  import opened FlowFacts
  import opened TwoParty

  /** What an observer of one session sees: messages written, callbacks made, bytes its application consumed. */
  datatype Note = Wrote(m: Msg) | Made(c: Callback) | Ate(stream: U32, n: int)

  datatype Phase = Absent | Live | Ended | Finished | Bad

  predicate Running(p: Phase) {
    p == Live || p == Ended
  }

  /** The stream grammar as an automaton over the notes of stream `id`. */
  function Advance(role: Role, p: Phase, note: Note, id: U32): Phase {
    match note
    case Wrote(m) => if IsFor(m, id) then AdvanceWrite(role, p, m) else p
    case Made(c) => AdvanceCall(role, p, c, id)
    case Ate(_, _) => p
  }

  /** Only a controller opens; only a node exits, once; nothing is written before the open or after the exit. */
  function AdvanceWrite(role: Role, p: Phase, m: Msg): Phase {
    if m.OpenMsg? then (if role.Controller? && p == Absent then Live else Bad)
    else if m.ExitMsg? then (if role.Node? && Running(p) then Finished else Bad)
    else if Running(p) then p
    else Bad
  }

  /** onOpen (node) first, then onData with at most one end, last, then at most one onExit (controller). */
  function AdvanceCall(role: Role, p: Phase, c: Callback, id: U32): Phase {
    if c.OnOpen? && c.id == id then (if role.Node? && p == Absent then Live else Bad)
    else if c.OnData? && c.id == id then (if p == Live then (if c.end then Ended else Live) else Bad)
    else if c.OnExit? && c.id == id then (if role.Controller? && Running(p) then Finished else Bad)
    else if c.OnWritable? && c.id == id then (if Running(p) then p else Bad)
    else p
  }

  function Watch(role: Role, p: Phase, notes: seq<Note>, id: U32): Phase
    decreases |notes|
  {
    if notes == [] then p else Watch(role, Advance(role, p, notes[0], id), notes[1..], id)
  }

  /** Ids announced by onOpen, in order. */
  function Announced(notes: seq<Note>): seq<U32> {
    if notes == [] then []
    else (if notes[0].Made? && notes[0].c.OnOpen? then [notes[0].c.id] else []) + Announced(notes[1..])
  }

  function Gain(note: Note, id: U32): int {
    if note.Made? && note.c.OnData? && note.c.id == id then |note.c.bytes|
    else if note.Ate? && note.stream == id then 0 - note.n
    else 0
  }

  /** Bytes delivered minus bytes consumed on stream `id`. */
  function Unconsumed(notes: seq<Note>, id: U32): int {
    if notes == [] then 0 else Gain(notes[0], id) + Unconsumed(notes[1..], id)
  }

  // ---- runs ---------------------------------------------------------------------------------------------------

  datatype Observed = Observed(ep: Endpoint, buffer: seq<Byte>, notes: seq<Note>)

  datatype Event = Calls(api: Api) | Arrive(bytes: seq<Byte>) | DispatchNext

  function WriteNotes(msgs: seq<Msg>): seq<Note> {
    seq(|msgs|, i requires 0 <= i < |msgs| => Wrote(msgs[i]))
  }

  function CallNotes(calls: seq<Callback>): seq<Note> {
    seq(|calls|, i requires 0 <= i < |calls| => Made(calls[i]))
  }

  function OutcomeNotes(o: Outcome): seq<Note> {
    WriteNotes(o.msgs) + CallNotes(o.calls)
  }

  /** The bytes a consume call really takes from the window. */
  function Eaten(ep: Endpoint, api: Api): seq<Note> {
    if api.Consume? && !ep.failed && api.id in ep.streams
    then [Ate(api.id, ep.streams[api.id].recv.outstanding - Consumed(ep.streams[api.id].recv, ep.window, api.n).0.outstanding)]
    else []
  }

  function Observe(s: Observed, e: Event): Observed {
    match e
    case Calls(api) =>
      var o := Call(s.ep, api);
      s.(ep := o.ep, notes := s.notes + (Eaten(s.ep, api) + OutcomeNotes(o)))
    case Arrive(bytes) => s.(buffer := s.buffer + bytes)
    case DispatchNext =>
      if s.ep.failed then s
      else
        match ParseFront(s.buffer, DEFAULT_MAX_PAYLOAD)
        case Partial => s
        case TooLong => s.(ep := s.ep.(failed := true))
        case Complete(f, size) =>
          var o := DispatchFrame(s.ep, f);
          Observed(o.ep, s.buffer[size..], s.notes + OutcomeNotes(o))
  }

  function ObservedRun(role: Role, window: nat, events: seq<Event>): Observed {
    if events == [] then Observed(NewEndpoint(role, window), [], [])
    else Observe(ObservedRun(role, window, events[..|events| - 1]), events[|events| - 1])
  }

  // ---- the invariant ------------------------------------------------------------------------------------------

  predicate Tidy(ep: Endpoint) {
    && ep.streams.Keys !! ep.closed.Keys
    && (ep.role.Controller? ==> ep.closed == map[] && ep.nextPeer == 1)
    && (ep.role.Node? ==> ep.nextId == 1)
    && (forall id | id in ep.streams :: TidyStream(ep, id))
    && (forall id | id in ep.closed :: 0 < id <= Issued(ep.nextPeer))
  }

  predicate TidyStream(ep: Endpoint, id: U32)
    requires id in ep.streams
  {
    && 0 < id <= Issued(if ep.role.Controller? then ep.nextId else ep.nextPeer)
    && ep.streams[id].recv.outstanding <= ep.window
    && (ep.role.Controller? ==> !ep.streams[id].exitPending)
  }

  function PhaseOf(ep: Endpoint, id: U32): Phase {
    if id in ep.streams then (if ep.streams[id].peerClosed then Ended else Live)
    else if id in ep.closed || (ep.role.Controller? && 0 < id <= Issued(ep.nextId)) then Finished
    else Absent
  }

  predicate Faithful(s: Observed, id: U32) {
    && Watch(s.ep.role, Absent, s.notes, id) == PhaseOf(s.ep, id)
    && (id in s.ep.streams ==> Unconsumed(s.notes, id) == s.ep.streams[id].recv.outstanding)
    && (PhaseOf(s.ep, id) == Absent ==> Unconsumed(s.notes, id) == 0)
  }

  predicate InOrder(s: Observed) {
    s.ep.role.Node? ==>
      |Announced(s.notes)| == Issued(s.ep.nextPeer)
      && forall i | 0 <= i < |Announced(s.notes)| :: Announced(s.notes)[i] == i + 1
  }

  // ---- folds --------------------------------------------------------------------------------------------------

  lemma {:induction false} WatchAppend(role: Role, p: Phase, a: seq<Note>, b: seq<Note>, id: U32)
    ensures Watch(role, p, a + b, id) == Watch(role, Watch(role, p, a, id), b, id)
    decreases |a|
  {
    hide Advance;
    if a == [] {
      assert a + b == b;
    } else {
      DropAppend(a, b);
      WatchAppend(role, Advance(role, p, a[0], id), a[1..], b, id);
    }
  }

  lemma {:induction false} UnconsumedAppend(a: seq<Note>, b: seq<Note>, id: U32)
    ensures Unconsumed(a + b, id) == Unconsumed(a, id) + Unconsumed(b, id)
  {
    if a == [] {
      assert a + b == b;
    } else {
      DropAppend(a, b);
      UnconsumedAppend(a[1..], b, id);
    }
  }

  lemma {:induction false} AnnouncedAppend(a: seq<Note>, b: seq<Note>)
    ensures Announced(a + b) == Announced(a) + Announced(b)
  {
    if a == [] {
      assert a + b == b;
    } else {
      DropAppend(a, b);
      AnnouncedAppend(a[1..], b);
      Assoc(if a[0].Made? && a[0].c.OnOpen? then [a[0].c.id] else [], Announced(a[1..]), Announced(b));
    }
  }

  lemma EmptyFolds(role: Role, p: Phase, id: U32)
    ensures Watch(role, p, [], id) == p && Unconsumed([], id) == 0 && Announced([]) == []
  {
  }

  lemma FoldOne(role: Role, p: Phase, note: Note, id: U32)
    ensures Watch(role, p, [note], id) == Advance(role, p, note, id)
    ensures Unconsumed([note], id) == Gain(note, id)
    ensures Announced([note]) == if note.Made? && note.c.OnOpen? then [note.c.id] else []
  {
    hide Advance;
    assert [note][1..] == [];
  }

  /** Writing DATA and credit on a running stream leaves every automaton where it is. */
  lemma {:induction false} PlainWrites(role: Role, p: Phase, msgs: seq<Msg>, stream: U32, id: U32)
    requires forall i | 0 <= i < |msgs| :: (msgs[i].DataMsg? || msgs[i].CreditMsg?) && msgs[i].id == stream
    requires id == stream ==> Running(p)
    ensures Watch(role, p, WriteNotes(msgs), id) == p
    ensures Unconsumed(WriteNotes(msgs), id) == 0 && Announced(WriteNotes(msgs)) == []
    decreases |msgs|
  {
    if msgs != [] {
      assert WriteNotes(msgs)[0] == Wrote(msgs[0]);
      assert WriteNotes(msgs)[1..] == WriteNotes(msgs[1..]);
      PlainWrites(role, p, msgs[1..], stream, id);
    }
  }

  // ---- one operation ------------------------------------------------------------------------------------------

  /** Going from `ep` to `ep'` while showing `notes` agrees with the grammar of stream `id`. */
  predicate Agrees(ep: Endpoint, notes: seq<Note>, ep': Endpoint, id: U32) {
    && Watch(ep.role, PhaseOf(ep, id), notes, id) == PhaseOf(ep', id)
    && (id in ep'.streams ==>
          (id in ep.streams || PhaseOf(ep, id) == Absent)
          && Unconsumed(notes, id) ==
             ep'.streams[id].recv.outstanding - (if id in ep.streams then ep.streams[id].recv.outstanding else 0))
    && (id !in ep'.streams ==> Unconsumed(notes, id) == 0)
    && (PhaseOf(ep', id) == Absent ==> PhaseOf(ep, id) == Absent && Unconsumed(notes, id) == 0)
  }

  lemma NoNotes(o: Outcome)
    requires o.msgs == [] && o.calls == []
    ensures OutcomeNotes(o) == []
  {
  }

  lemma OnlyCall(o: Outcome, c: Callback)
    requires o.msgs == [] && o.calls == [c]
    ensures OutcomeNotes(o) == [Made(c)]
  {
  }

  lemma OnlyWrite(o: Outcome, m: Msg)
    requires o.msgs == [m] && o.calls == []
    ensures OutcomeNotes(o) == [Wrote(m)]
  {
  }

  /** A flush on a running stream: its data, then EXIT and the end of the stream, or perhaps a writable signal. */
  lemma FlushNotes(ep: Endpoint, stream: U32, st: Stream, id: U32)
    requires stream in ep.streams && ep.streams[stream].peerClosed == st.peerClosed
    requires ep.role.Controller? ==> !st.exitPending
    ensures var o, f := FlushInto(ep, stream, st), Flush(stream, st, ep.window);
            && Watch(ep.role, PhaseOf(ep, id), OutcomeNotes(o), id) ==
               (if id == stream && f.exited then Finished else PhaseOf(ep, id))
            && Unconsumed(OutcomeNotes(o), id) == 0 && Announced(OutcomeNotes(o)) == []
  {
    hide Drain, PhaseOf, Watch, Unconsumed, Announced;
    RunningPhase(ep, stream);
    DrainWritesData(stream, st);
    FlushShape(stream, st, ep.window);
    var d, f, o, p := DataPart(stream, st), Flush(stream, st, ep.window), FlushInto(ep, stream, st), PhaseOf(ep, id);
    var tail := (if f.exited then [Wrote(ExitMsg(stream, st.status))] else []) + CallNotes(o.calls);
    assert OutcomeNotes(o) == WriteNotes(d.msgs) + tail;
    PlainWrites(ep.role, p, d.msgs, stream, id);
    WatchAppend(ep.role, p, WriteNotes(d.msgs), tail, id);
    UnconsumedAppend(WriteNotes(d.msgs), tail, id);
    AnnouncedAppend(WriteNotes(d.msgs), tail);
    EmptyFolds(ep.role, p, id);
    if tail != [] {
      assert tail == [if f.exited then Wrote(ExitMsg(stream, st.status)) else Made(OnWritable(stream))];
      FoldOne(ep.role, p, tail[0], id);
    }
  }

  lemma RunningPhase(ep: Endpoint, stream: U32)
    requires stream in ep.streams
    ensures Running(PhaseOf(ep, stream))
  {
  }

  lemma FlushKeepsRecord(id: U32, st: Stream, window: nat)
    ensures var f := Flush(id, st, window);
            f.stream.recv == st.recv && f.stream.peerClosed == st.peerClosed && f.stream.exitPending == st.exitPending
  {
    hide Drain;
    DrainWritesData(id, st);
  }

  lemma FlushAgrees(ep: Endpoint, stream: U32, st: Stream, id: U32)
    requires Tidy(ep) && stream in ep.streams && st.recv == ep.streams[stream].recv
    requires ep.streams[stream].peerClosed == st.peerClosed && (ep.role.Controller? ==> !st.exitPending)
    ensures Agrees(ep, OutcomeNotes(FlushInto(ep, stream, st)), FlushInto(ep, stream, st).ep, id)
    ensures Announced(OutcomeNotes(FlushInto(ep, stream, st))) == []
    ensures Tidy(FlushInto(ep, stream, st).ep)
  {
    hide Flush, Watch, Unconsumed, OutcomeNotes, Announced;
    FlushNotes(ep, stream, st, id);
    FlushKeepsRecord(stream, st, ep.window);
    ControllerNeverExits(ep, stream, st);
    FlushTidy(ep, stream, st);
  }

  lemma ControllerNeverExits(ep: Endpoint, stream: U32, st: Stream)
    requires ep.role.Controller? ==> !st.exitPending
    ensures ep.role.Controller? ==> !Flush(stream, st, ep.window).exited
  {
    hide Drain;
    DrainWritesData(stream, st);
  }

  lemma FlushTidy(ep: Endpoint, stream: U32, st: Stream)
    requires Tidy(ep) && stream in ep.streams && st.recv == ep.streams[stream].recv
    requires ep.role.Controller? ==> !st.exitPending
    ensures Tidy(FlushInto(ep, stream, st).ep)
  {
    hide Flush;
    FlushKeepsRecord(stream, st, ep.window);
    ControllerNeverExits(ep, stream, st);
    assert TidyStream(ep, stream);
    var ep' := FlushInto(ep, stream, st).ep;
    forall k | k in ep'.streams ensures TidyStream(ep', k) {
      if k != stream {
        assert k in ep.streams && TidyStream(ep, k);
      }
    }
  }

  // ---- API calls ----------------------------------------------------------------------------------------------

  lemma OpenAgrees(ep: Endpoint, r: OpenRequest, id: U32)
    requires Tidy(ep) && CanOpen(ep, r)
    ensures Agrees(ep, OutcomeNotes(CallOpen(ep, r)), CallOpen(ep, r).ep, id)
    ensures Announced(OutcomeNotes(CallOpen(ep, r))) == [] && Tidy(CallOpen(ep, r).ep)
  {
    var o := CallOpen(ep, r);
    OnlyWrite(o, OpenMsg(ep.nextId, r));
    FoldOne(ep.role, PhaseOf(ep, id), Wrote(OpenMsg(ep.nextId, r)), id);
    forall k | k in o.ep.streams ensures TidyStream(o.ep, k) {
      if k != ep.nextId {
        assert TidyStream(ep, k);
      }
    }
    assert ep.nextId !in ep.streams;
  }

  lemma QuietAgrees(ep: Endpoint, notes: seq<Note>, id: U32)
    requires notes == []
    ensures Agrees(ep, notes, ep, id) && Announced(notes) == []
  {
  }

  lemma SendAgrees(ep: Endpoint, stream: U32, bytes: seq<Byte>, end: bool, channel: Channel, id: U32)
    requires Tidy(ep)
    ensures var o := CallSendData(ep, stream, bytes, end, channel);
            Agrees(ep, OutcomeNotes(o), o.ep, id) && Announced(OutcomeNotes(o)) == [] && Tidy(o.ep)
  {
    hide FlushInto, OutcomeNotes, Agrees, Announced;
    var o := CallSendData(ep, stream, bytes, end, channel);
    if Accepts(ep, stream, channel) {
      assert TidyStream(ep, stream);
      FlushAgrees(ep, stream, Enqueue(ep.streams[stream], bytes, end, channel), id);
    } else {
      NoNotes(o);
      QuietAgrees(ep, OutcomeNotes(o), id);
    }
  }

  lemma CloseTidy(ep: Endpoint, stream: U32, peerClosed: bool)
    requires Tidy(ep) && stream in ep.streams && ep.role.Node?
    ensures Tidy(CloseLocally(ep, stream, peerClosed))
  {
    assert TidyStream(ep, stream);
    var ep' := CloseLocally(ep, stream, peerClosed);
    forall k | k in ep'.streams ensures TidyStream(ep', k) {
      assert TidyStream(ep, k);
    }
  }

  /** Replacing a record by one with the same receiving side. */
  lemma PutTidy(ep: Endpoint, stream: U32, st: Stream)
    requires Tidy(ep) && stream in ep.streams && st.recv.outstanding <= ep.window
    requires ep.role.Controller? ==> !st.exitPending
    ensures Tidy(ep.(streams := ep.streams[stream := st]))
  {
    assert TidyStream(ep, stream);
    var ep' := ep.(streams := ep.streams[stream := st]);
    forall k | k in ep'.streams ensures TidyStream(ep', k) {
      if k != stream {
        assert TidyStream(ep, k);
      }
    }
  }

  lemma ExitAgrees(ep: Endpoint, stream: U32, status: ExitStatus, id: U32)
    requires Tidy(ep)
    ensures var o := CallSendExit(ep, stream, status);
            Agrees(ep, OutcomeNotes(o), o.ep, id) && Announced(OutcomeNotes(o)) == [] && Tidy(o.ep)
  {
    hide OutcomeNotes, Announced, Unconsumed, Watch;
    var o, p := CallSendExit(ep, stream, status), PhaseOf(ep, id);
    if !TakesExit(ep, stream) {
      NoNotes(o);
      QuietAgrees(ep, OutcomeNotes(o), id);
    } else if o.msgs == [] {
      assert TidyStream(ep, stream);
      PutTidy(ep, stream, o.ep.streams[stream]);
      NoNotes(o);
      QuietAgrees(ep, OutcomeNotes(o), id);
    } else {
      OnlyWrite(o, ExitMsg(stream, status));
      FoldOne(ep.role, p, Wrote(ExitMsg(stream, status)), id);
      CloseTidy(ep, stream, ep.streams[stream].peerClosed);
    }
  }

  lemma ConsumeAgrees(ep: Endpoint, stream: U32, n: U32, id: U32)
    requires Tidy(ep)
    ensures var o, notes := CallConsume(ep, stream, n), Eaten(ep, Consume(stream, n)) + OutcomeNotes(CallConsume(ep, stream, n));
            Agrees(ep, notes, o.ep, id) && Announced(notes) == [] && Tidy(o.ep)
  {
    hide Announced, Unconsumed, Watch;
    var o, p, eaten := CallConsume(ep, stream, n), PhaseOf(ep, id), Eaten(ep, Consume(stream, n));
    var notes := OutcomeNotes(o);
    if ep.failed || stream !in ep.streams {
      QuietAgrees(ep, eaten + notes, id);
    } else {
      assert TidyStream(ep, stream);
      PutTidy(ep, stream, o.ep.streams[stream]);
      WatchAppend(ep.role, p, eaten, notes, id);
      UnconsumedAppend(eaten, notes, id);
      AnnouncedAppend(eaten, notes);
      FoldOne(ep.role, p, eaten[0], id);
      assert notes == WriteNotes(o.msgs);
      PlainWrites(ep.role, p, o.msgs, stream, id);
    }
  }

  lemma ControlAgrees(ep: Endpoint, o: Outcome, id: U32)
    requires Tidy(ep)
    requires o.ep == ep.(sentGoAway := o.ep.sentGoAway, receivedGoAway := o.ep.receivedGoAway, failed := o.ep.failed)
    requires (o.calls == [] && (o.msgs == [] || (|o.msgs| == 1 && !IsStreamMsg(o.msgs[0])))) ||
             (o.msgs == [] && |o.calls| == 1 && (o.calls[0].OnPong? || o.calls[0].OnGoAway?))
    ensures Agrees(ep, OutcomeNotes(o), o.ep, id) && Announced(OutcomeNotes(o)) == [] && Tidy(o.ep)
  {
    forall k | k in o.ep.streams ensures TidyStream(o.ep, k) {
      assert TidyStream(ep, k);
    }
    if |o.msgs| == 1 {
      OnlyWrite(o, o.msgs[0]);
      FoldOne(ep.role, PhaseOf(ep, id), Wrote(o.msgs[0]), id);
    } else if |o.calls| == 1 {
      OnlyCall(o, o.calls[0]);
      FoldOne(ep.role, PhaseOf(ep, id), Made(o.calls[0]), id);
    } else {
      NoNotes(o);
    }
  }

  /** Every API call agrees with the grammar of every stream. */
  lemma CallAgrees(ep: Endpoint, api: Api, id: U32)
    requires Tidy(ep)
    ensures var o, notes := Call(ep, api), Eaten(ep, api) + OutcomeNotes(Call(ep, api));
            && Agrees(ep, notes, o.ep, id) && Announced(notes) == [] && Tidy(o.ep)
            && o.ep.role == ep.role && o.ep.nextPeer == ep.nextPeer
  {
    hide OutcomeNotes, Agrees, Announced, Tidy, Flush;
    var o := Call(ep, api);
    if !api.Consume? {
      assert Eaten(ep, api) + OutcomeNotes(o) == OutcomeNotes(o);
    }
    match api
    case Open(r) =>
      if CanOpen(ep, r) {
        OpenAgrees(ep, r, id);
      } else {
        NoNotes(o);
        QuietAgrees(ep, OutcomeNotes(o), id);
      }
    case SendData(stream, bytes, end, channel) => SendAgrees(ep, stream, bytes, end, channel, id);
    case SendExit(stream, status) => ExitAgrees(ep, stream, status, id);
    case Consume(stream, n) => ConsumeAgrees(ep, stream, n, id);
    case Ping => ControlAgrees(ep, o, id);
    case GoAway => ControlAgrees(ep, o, id);
  }

  // ---- received frames ----------------------------------------------------------------------------------------

  lemma FailAgrees(ep: Endpoint, id: U32)
    requires Tidy(ep)
    ensures Agrees(ep, OutcomeNotes(Fail(ep)), Fail(ep).ep, id) && Announced(OutcomeNotes(Fail(ep))) == []
    ensures Tidy(Fail(ep).ep)
  {
    ControlAgrees(ep, Fail(ep), id);
  }

  lemma OpenFrameAgrees(ep: Endpoint, stream: U32, r: OpenRequest, id: U32)
    requires Tidy(ep) && stream != 0 && !ReceiveOpen(ep, stream, r).ep.failed && !ep.failed
    ensures var o := ReceiveOpen(ep, stream, r);
            && Agrees(ep, OutcomeNotes(o), o.ep, id) && Tidy(o.ep) && Announced(OutcomeNotes(o)) == [stream]
            && ep.role.Node? && stream == ep.nextPeer && o.ep.nextPeer == NextU32(stream)
  {
    var o := ReceiveOpen(ep, stream, r);
    OnlyCall(o, OnOpen(stream, r));
    FoldOne(ep.role, PhaseOf(ep, id), Made(OnOpen(stream, r)), id);
    assert stream !in ep.streams && stream !in ep.closed;
    forall k | k in o.ep.streams ensures TidyStream(o.ep, k) {
      if k != stream {
        assert TidyStream(ep, k);
      }
    }
  }

  lemma DroppedDataAgrees(ep: Endpoint, stream: U32, end: bool, id: U32)
    requires Tidy(ep) && stream in ep.closed
    ensures var o := Nothing(ep.(closed := ep.closed[stream := end]));
            Agrees(ep, OutcomeNotes(o), o.ep, id) && Announced(OutcomeNotes(o)) == [] && Tidy(o.ep)
  {
    var o := Nothing(ep.(closed := ep.closed[stream := end]));
    NoNotes(o);
    assert PhaseOf(o.ep, id) == PhaseOf(ep, id);
    forall k | k in o.ep.streams ensures TidyStream(o.ep, k) {
      assert TidyStream(ep, k);
    }
  }

  lemma TakenDataAgrees(ep: Endpoint, stream: U32, end: bool, channel: Channel, bytes: seq<Byte>, id: U32)
    requires Tidy(ep) && stream in ep.streams && !ep.streams[stream].peerClosed
    requires HasRoom(ep.streams[stream].recv, ep.window, |bytes|)
    ensures var st := ep.streams[stream];
            var ep' := ep.(streams := ep.streams[stream := st.(recv := Deliver(st.recv, |bytes|), peerClosed := end)]);
            var notes := [Made(OnData(stream, bytes, end, channel))];
            Agrees(ep, notes, ep', id) && Announced(notes) == [] && Tidy(ep')
  {
    hide Announced, Unconsumed, Watch;
    var st := ep.streams[stream];
    FoldOne(ep.role, PhaseOf(ep, id), Made(OnData(stream, bytes, end, channel)), id);
    assert TidyStream(ep, stream);
    PutTidy(ep, stream, st.(recv := Deliver(st.recv, |bytes|), peerClosed := end));
  }

  lemma DataFrameAgrees(ep: Endpoint, stream: U32, end: bool, channel: Channel, bytes: seq<Byte>, id: U32)
    requires Tidy(ep)
    ensures var o := ReceiveData(ep, stream, end, channel, bytes);
            Agrees(ep, OutcomeNotes(o), o.ep, id) && Announced(OutcomeNotes(o)) == [] && Tidy(o.ep)
  {
    hide Announced, Unconsumed, Watch, OutcomeNotes, Agrees, Tidy;
    var o := ReceiveData(ep, stream, end, channel, bytes);
    if o == Fail(ep) {
      FailAgrees(ep, id);
    } else if stream in ep.closed {
      DroppedDataAgrees(ep, stream, end, id);
    } else {
      OnlyCall(o, OnData(stream, bytes, end, channel));
      TakenDataAgrees(ep, stream, end, channel, bytes, id);
    }
  }

  lemma ExitFrameAgrees(ep: Endpoint, stream: U32, status: ExitStatus, id: U32)
    requires Tidy(ep)
    ensures var o := ReceiveExit(ep, stream, status);
            Agrees(ep, OutcomeNotes(o), o.ep, id) && Announced(OutcomeNotes(o)) == [] && Tidy(o.ep)
  {
    hide Announced, Unconsumed, Watch, OutcomeNotes;
    var o := ReceiveExit(ep, stream, status);
    if o == Fail(ep) {
      FailAgrees(ep, id);
    } else {
      assert TidyStream(ep, stream);
      OnlyCall(o, OnExit(stream, status));
      FoldOne(ep.role, PhaseOf(ep, id), Made(OnExit(stream, status)), id);
      forall k | k in o.ep.streams ensures TidyStream(o.ep, k) {
        assert TidyStream(ep, k);
      }
    }
  }

  lemma CreditFrameAgrees(ep: Endpoint, stream: U32, delta: U32, id: U32)
    requires Tidy(ep)
    ensures var o := ReceiveCredit(ep, stream, delta);
            Agrees(ep, OutcomeNotes(o), o.ep, id) && Announced(OutcomeNotes(o)) == [] && Tidy(o.ep)
  {
    hide FlushInto, OutcomeNotes, Agrees, Announced;
    var o := ReceiveCredit(ep, stream, delta);
    if o == Fail(ep) {
      FailAgrees(ep, id);
    } else if stream !in ep.streams {
      NoNotes(o);
      QuietAgrees(ep, OutcomeNotes(o), id);
    } else {
      assert TidyStream(ep, stream);
      FlushAgrees(ep, stream, ep.streams[stream].(credit := ep.streams[stream].credit + delta), id);
    }
  }

  /** Every received frame, well formed or not, agrees with the grammar of every stream. */
  lemma FrameAgrees(ep: Endpoint, f: Frame, id: U32)
    requires Tidy(ep) && !ep.failed
    ensures var o := DispatchFrame(ep, f);
            && Agrees(ep, OutcomeNotes(o), o.ep, id) && Tidy(o.ep) && o.ep.role == ep.role
            && (|| (Announced(OutcomeNotes(o)) == [] && o.ep.nextPeer == ep.nextPeer)
                || (&& ep.role.Node? && ep.nextPeer != 0 && Announced(OutcomeNotes(o)) == [ep.nextPeer]
                    && o.ep.nextPeer == NextU32(ep.nextPeer)))
  {
    hide OutcomeNotes, Agrees, Announced, Tidy, Flush, Interpret, Valid, HasRoom, Deliver;
    var o := DispatchFrame(ep, f);
    if Interpret(f).None? {
      FailAgrees(ep, id);
    } else {
      var m := Interpret(f).value;
      MeaningIsWellFormed(f);
      match m
      case OpenMsg(stream, r) =>
        if o.ep.failed {
          FailAgrees(ep, id);
        } else {
          OpenFrameAgrees(ep, stream, r, id);
        }
      case DataMsg(stream, end, channel, bytes) => DataFrameAgrees(ep, stream, end, channel, bytes, id);
      case CreditMsg(stream, delta) => CreditFrameAgrees(ep, stream, delta, id);
      case ExitMsg(stream, status) => ExitFrameAgrees(ep, stream, status, id);
      case PingMsg => ControlAgrees(ep, o, id);
      case PongMsg => ControlAgrees(ep, o, id);
      case GoAwayMsg => ControlAgrees(ep, o, id);
    }
  }

  // ---- whole runs ---------------------------------------------------------------------------------------------

  lemma FaithfulGrows(s: Observed, notes: seq<Note>, ep': Endpoint, buffer: seq<Byte>, id: U32)
    requires Faithful(s, id) && Agrees(s.ep, notes, ep', id) && ep'.role == s.ep.role
    ensures Faithful(Observed(ep', buffer, s.notes + notes), id)
  {
    hide PhaseOf, Watch, Unconsumed;
    WatchAppend(s.ep.role, Absent, s.notes, notes, id);
    UnconsumedAppend(s.notes, notes, id);
  }

  lemma InOrderGrows(s: Observed, notes: seq<Note>, ep': Endpoint, buffer: seq<Byte>)
    requires InOrder(s) && ep'.role == s.ep.role
    requires || (Announced(notes) == [] && ep'.nextPeer == s.ep.nextPeer)
             || (&& s.ep.role.Node? && s.ep.nextPeer != 0 && Announced(notes) == [s.ep.nextPeer]
                 && ep'.nextPeer == NextU32(s.ep.nextPeer))
    ensures InOrder(Observed(ep', buffer, s.notes + notes))
  {
    hide Announced;
    AnnouncedAppend(s.notes, notes);
    var a, b := Announced(s.notes), Announced(notes);
    if s.ep.role.Node? {
      assert forall i | 0 <= i < |a + b| :: (a + b)[i] == (if i < |a| then a[i] else b[i - |a|]);
    }
  }

  predicate Good(s: Observed) {
    Tidy(s.ep) && InOrder(s) && forall id: U32 :: Faithful(s, id)
  }

  lemma ObserveKeeps(s: Observed, e: Event)
    requires Good(s)
    ensures Good(Observe(s, e)) && Observe(s, e).ep.role == s.ep.role
  {
    hide Tidy, InOrder, Faithful, Agrees, OutcomeNotes, Announced, Call, DispatchFrame, ParseFront, Eaten;
    match e
    case Arrive(bytes) =>
      Rebuffered(s, s.buffer + bytes, false);
    case Calls(api) =>
      var o := Call(s.ep, api);
      var notes := Eaten(s.ep, api) + OutcomeNotes(o);
      CallAgrees(s.ep, api, 0);
      InOrderGrows(s, notes, o.ep, s.buffer);
      forall id: U32 ensures Faithful(Observe(s, e), id) {
        CallAgrees(s.ep, api, id);
        FaithfulGrows(s, notes, o.ep, s.buffer, id);
      }
    case DispatchNext =>
      var front := ParseFront(s.buffer, DEFAULT_MAX_PAYLOAD);
      if s.ep.failed || front.Partial? {
      } else if front.TooLong? {
        Rebuffered(s, s.buffer, true);
      } else {
        var o := DispatchFrame(s.ep, front.frame);
        FrameAgrees(s.ep, front.frame, 0);
        InOrderGrows(s, OutcomeNotes(o), o.ep, s.buffer[front.size..]);
        forall id: U32 ensures Faithful(Observe(s, e), id) {
          FrameAgrees(s.ep, front.frame, id);
          FaithfulGrows(s, OutcomeNotes(o), o.ep, s.buffer[front.size..], id);
        }
      }
  }

  lemma Rebuffered(s: Observed, buffer: seq<Byte>, fails: bool)
    requires Good(s)
    ensures Good(Observed(s.ep.(failed := s.ep.failed || fails), buffer, s.notes))
  {
    hide Watch, Unconsumed, Announced;
    var s' := Observed(s.ep.(failed := s.ep.failed || fails), buffer, s.notes);
    forall k | k in s'.ep.streams ensures TidyStream(s'.ep, k) {
      assert TidyStream(s.ep, k);
    }
    forall id: U32 ensures Faithful(s', id) {
      assert Faithful(s, id);
      assert PhaseOf(s'.ep, id) == PhaseOf(s.ep, id);
    }
  }

  lemma {:induction false} RunIsGood(role: Role, window: nat, events: seq<Event>)
    ensures Good(ObservedRun(role, window, events)) && ObservedRun(role, window, events).ep.role == role
  {
    hide Good, Observe;
    if events == [] {
      StartIsGood(role, window);
    } else {
      var before := events[..|events| - 1];
      RunIsGood(role, window, before);
      ObserveKeeps(ObservedRun(role, window, before), events[|events| - 1]);
    }
  }

  lemma StartIsGood(role: Role, window: nat)
    ensures Good(Observed(NewEndpoint(role, window), [], []))
  {
  }

  /** For arbitrary received bytes, API calls and chunking: the notes of every stream follow the grammar. */
  lemma TracesFollowTheGrammar(role: Role, window: nat, events: seq<Event>, id: U32)
    ensures Watch(role, Absent, ObservedRun(role, window, events).notes, id) != Bad
  {
    hide ObservedRun, Watch, Tidy, InOrder;
    RunIsGood(role, window, events);
    assert Faithful(ObservedRun(role, window, events), id);
  }

  /** A node announces streams 1, 2, 3, ... without gap or repetition. */
  lemma NodeAnnouncesInOrder(window: nat, events: seq<Event>, i: nat)
    requires i < |Announced(ObservedRun(Node, window, events).notes)|
    ensures Announced(ObservedRun(Node, window, events).notes)[i] == i + 1
  {
    hide ObservedRun, Announced, Faithful;
    RunIsGood(Node, window, events);
  }

  /** A step shows the notes of one operation, which agrees with the grammar of every stream. */
  lemma StepAgrees(s: Observed, e: Event, id: U32) returns (notes: seq<Note>)
    requires Good(s)
    ensures Observe(s, e).notes == s.notes + notes && Agrees(s.ep, notes, Observe(s, e).ep, id)
  {
    hide Tidy, InOrder, Faithful, Agrees, OutcomeNotes, Call, DispatchFrame, ParseFront, Eaten;
    notes := [];
    var front := ParseFront(s.buffer, DEFAULT_MAX_PAYLOAD);
    assert s.notes + [] == s.notes;
    if e.Calls? {
      notes := Eaten(s.ep, e.api) + OutcomeNotes(Call(s.ep, e.api));
      CallAgrees(s.ep, e.api, id);
    } else if e.DispatchNext? && !s.ep.failed && front.Complete? {
      notes := OutcomeNotes(DispatchFrame(s.ep, front.frame));
      FrameAgrees(s.ep, front.frame, id);
    } else {
      QuietAgrees(s.ep, [], id);
      FailAgrees(s.ep, id);
      NoNotes(Fail(s.ep));
    }
  }

  /** In every run, on every stream, open or closed: what was delivered and not consumed is within the window. */
  lemma {:induction false} DeliveryIsBounded(role: Role, window: nat, events: seq<Event>, id: U32)
    ensures 0 <= Unconsumed(ObservedRun(role, window, events).notes, id) <= window
  {
    hide Observe, Unconsumed, Watch, InOrder, Agrees;
    var s := ObservedRun(role, window, events);
    RunIsGood(role, window, events);
    WindowIsFixed(role, window, events);
    assert Faithful(s, id);
    if id in s.ep.streams {
      assert TidyStream(s.ep, id);
    } else if events != [] {
      var before := events[..|events| - 1];
      DeliveryIsBounded(role, window, before, id);
      RunIsGood(role, window, before);
      var notes := StepAgrees(ObservedRun(role, window, before), events[|events| - 1], id);
      ClosedGainsNothing(ObservedRun(role, window, before).ep, notes, s.ep, id);
      UnconsumedAppend(ObservedRun(role, window, before).notes, notes, id);
    }
  }

  lemma ClosedGainsNothing(ep: Endpoint, notes: seq<Note>, ep': Endpoint, id: U32)
    requires Agrees(ep, notes, ep', id) && id !in ep'.streams
    ensures Unconsumed(notes, id) == 0
  {
  }

  lemma {:induction false} WindowIsFixed(role: Role, window: nat, events: seq<Event>)
    ensures ObservedRun(role, window, events).ep.window == window
  {
    if events != [] {
      WindowIsFixed(role, window, events[..|events| - 1]);
      WindowStep(ObservedRun(role, window, events[..|events| - 1]), events[|events| - 1]);
    }
  }

  lemma WindowStep(s: Observed, e: Event)
    ensures Observe(s, e).ep.window == s.ep.window
  {
    hide Flush, ParseFront, Interpret, OutcomeNotes, Eaten;
  }

  /** After the first error nothing is written and no callback is made. */
  lemma ErrorsSilence(s: Observed, e: Event)
    requires s.ep.failed
    ensures Observe(s, e).ep == s.ep && Observe(s, e).notes == s.notes
  {
  }

  lemma {:induction false} ErrorsSilenceForever(role: Role, window: nat, events: seq<Event>, more: seq<Event>)
    requires ObservedRun(role, window, events).ep.failed
    ensures ObservedRun(role, window, events + more).notes == ObservedRun(role, window, events).notes
    ensures ObservedRun(role, window, events + more).ep.failed
    decreases |more|
  {
    hide Observe;
    if more == [] {
      assert events + more == events;
    } else {
      var all, before := events + more, more[..|more| - 1];
      assert all[..|all| - 1] == events + before && all[|all| - 1] == more[|more| - 1];
      ErrorsSilenceForever(role, window, events, before);
      ErrorsSilence(ObservedRun(role, window, events + before), more[|more| - 1]);
    }
  }
}
