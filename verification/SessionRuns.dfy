/** Any use of a session object is an observed run, so what holds of all runs holds of the object. */
module SessionRuns {
  import opened Wire
  import opened FrameCodec
  import opened Messages
  import opened SessionSpec
  import opened FlowFacts
  import opened StreamInvariant
  import opened SessionObject
  import opened TraceGrammar
  import SessionHistory

  // ---- queues stay sound --------------------------------------------------------------------------------------

  predicate AllSound(ep: Endpoint) {
    forall id | id in ep.streams :: Sound(ep.streams[id])
  }

  lemma FlushKeepsSound(ep: Endpoint, id: U32, st: Stream)
    requires AllSound(ep) && Sound(st)
    ensures AllSound(FlushInto(ep, id, st).ep)
  {
    hide Flush, Sound, DataPart;
    FlushShape(id, st, ep.window);
    DataPartSound(id, st);
  }

  lemma CallKeepsSound(ep: Endpoint, api: Api)
    requires AllSound(ep)
    ensures AllSound(Call(ep, api).ep)
  {
    hide FlushInto, QueueLen, Sound;
    match api
    case Open(_) => FreshIsSound(ep.window);
    case SendData(id, bytes, end, channel) =>
      if Accepts(ep, id, channel) {
        EnqueueOwed(ep.streams[id], bytes, end, channel);
        FlushKeepsSound(ep, id, Enqueue(ep.streams[id], bytes, end, channel));
      }
    case SendExit(id, status) =>
      if id in ep.streams { SoundIgnores(ep.streams[id], ep.streams[id].recv, status, ep.streams[id].peerClosed); }
    case Consume(id, n) =>
      if id in ep.streams {
        SoundIgnores(ep.streams[id], CallConsume(ep, id, n).ep.streams[id].recv, ep.streams[id].status, ep.streams[id].peerClosed);
      }
    case Ping =>
    case GoAway =>
  }

  lemma FreshIsSound(window: nat)
    ensures Sound(NewStream(window))
  {
  }

  /** The queue's soundness does not depend on what was received or on a deferred exit. */
  lemma SoundIgnores(st: Stream, recv: CreditWindows.Credit, status: ControlPayloads.ExitStatus, peerClosed: bool)
    requires Sound(st)
    ensures Sound(st.(recv := recv)) && Sound(st.(recv := recv, peerClosed := peerClosed))
    ensures Sound(st.(localClosed := true, exitPending := true, status := status))
  {
  }

  lemma DispatchKeepsSound(ep: Endpoint, f: Frame)
    requires AllSound(ep)
    ensures AllSound(DispatchFrame(ep, f).ep)
  {
    hide FlushInto, QueueLen, Sound, Interpret;
    if Interpret(f).Some? {
      match Interpret(f).value
      case OpenMsg(_, _) => FreshIsSound(ep.window);
      case DataMsg(id, end, _, bytes) =>
        if id in ep.streams {
          SoundIgnores(ep.streams[id], CreditWindows.Deliver(ep.streams[id].recv, |bytes|), ep.streams[id].status, end);
        }
      case CreditMsg(id, delta) =>
        if id in ep.streams {
          SoundCredit(ep.streams[id], ep.streams[id].credit + delta);
          FlushKeepsSound(ep, id, ep.streams[id].(credit := ep.streams[id].credit + delta));
        }
      case _ =>
    }
  }

  lemma SoundCredit(st: Stream, credit: nat)
    requires Sound(st)
    ensures Sound(st.(credit := credit))
  {
  }

  /** Whatever arrives and whatever is called, every stream's byte count is the length of its queue. */
  lemma {:induction false} QueuesStaySound(role: Role, window: nat, events: seq<Event>)
    ensures AllSound(ObservedRun(role, window, events).ep)
  {
    hide Call, DispatchFrame, ParseFront, Sound;
    if events != [] {
      var before, last := events[..|events| - 1], events[|events| - 1];
      var s := ObservedRun(role, window, before);
      QueuesStaySound(role, window, before);
      var front := ParseFront(s.buffer, DEFAULT_MAX_PAYLOAD);
      if last.Calls? {
        CallKeepsSound(s.ep, last.api);
      } else if last.DispatchNext? && !s.ep.failed && front.Complete? {
        DispatchKeepsSound(s.ep, front.frame);
      }
    }
  }

  // ---- the object as a run ------------------------------------------------------------------------------------

  /** Messages written and callbacks made, in order, among an observer's notes. */
  function Written(notes: seq<Note>): seq<Msg> {
    if |notes| == 0 then []
    else Written(notes[..|notes| - 1]) + if notes[|notes| - 1].Wrote? then [notes[|notes| - 1].m] else []
  }

  function MadeIn(notes: seq<Note>): seq<Callback> {
    if |notes| == 0 then []
    else MadeIn(notes[..|notes| - 1]) + if notes[|notes| - 1].Made? then [notes[|notes| - 1].c] else []
  }

  lemma {:induction false} FoldsSplit(a: seq<Note>, b: seq<Note>)
    ensures Written(a + b) == Written(a) + Written(b) && MadeIn(a + b) == MadeIn(a) + MadeIn(b)
    decreases |b|
  {
    if |b| == 0 {
      assert a + b == a;
    } else {
      assert (a + b)[..|a + b| - 1] == a + b[..|b| - 1];
      FoldsSplit(a, b[..|b| - 1]);
    }
  }

  lemma {:induction false} WritesOf(msgs: seq<Msg>)
    ensures Written(WriteNotes(msgs)) == msgs && MadeIn(WriteNotes(msgs)) == []
  {
    if |msgs| > 0 {
      var init := msgs[..|msgs| - 1];
      WritesOf(init);
      assert WriteNotes(msgs)[..|msgs| - 1] == WriteNotes(init);
      assert msgs == init + [msgs[|msgs| - 1]];
    }
  }

  lemma {:induction false} CallbacksOf(calls: seq<Callback>)
    ensures MadeIn(CallNotes(calls)) == calls && Written(CallNotes(calls)) == []
  {
    if |calls| > 0 {
      var init := calls[..|calls| - 1];
      CallbacksOf(init);
      assert CallNotes(calls)[..|calls| - 1] == CallNotes(init);
      assert calls == init + [calls[|calls| - 1]];
    }
  }

  lemma NotesOf(o: Outcome)
    ensures Written(OutcomeNotes(o)) == o.msgs && MadeIn(OutcomeNotes(o)) == o.calls
  {
    hide Written, MadeIn, WriteNotes, CallNotes;
    FoldsSplit(WriteNotes(o.msgs), CallNotes(o.calls));
    WritesOf(o.msgs);
    CallbacksOf(o.calls);
    assert o.msgs + [] == o.msgs && [] + o.calls == o.calls;
  }

  lemma NothingEaten(ep: Endpoint, api: Api)
    ensures Written(Eaten(ep, api)) == [] && MadeIn(Eaten(ep, api)) == []
  {
  }

  /** What an observed run has shown: state, buffer, everything written, every callback. */
  datatype Shown = Shown(ep: Endpoint, buffer: seq<Byte>, msgs: seq<Msg>, calls: seq<Callback>)

  function ShownBy(role: Role, window: nat, events: seq<Event>): Shown {
    var s := ObservedRun(role, window, events);
    Shown(s.ep, s.buffer, Written(s.notes), MadeIn(s.notes))
  }

  lemma RunMore(role: Role, window: nat, events: seq<Event>, e: Event)
    ensures ObservedRun(role, window, events + [e]) == Observe(ObservedRun(role, window, events), e)
  {
    assert (events + [e])[..|events|] == events;
  }

  lemma ShowCall(role: Role, window: nat, events: seq<Event>, api: Api)
    ensures var was, o := ShownBy(role, window, events), Call(ShownBy(role, window, events).ep, api);
            ShownBy(role, window, events + [Calls(api)]) == Shown(o.ep, was.buffer, was.msgs + o.msgs, was.calls + o.calls)
  {
    hide ObservedRun, Call, Written, MadeIn, OutcomeNotes, Eaten;
    RunMore(role, window, events, Calls(api));
    var s := ObservedRun(role, window, events);
    var o := Call(s.ep, api);
    FoldsSplit(s.notes, Eaten(s.ep, api) + OutcomeNotes(o));
    FoldsSplit(Eaten(s.ep, api), OutcomeNotes(o));
    NothingEaten(s.ep, api);
    NotesOf(o);
    assert [] + o.msgs == o.msgs && [] + o.calls == o.calls;
  }

  lemma ShowFrame(role: Role, window: nat, events: seq<Event>)
    requires !ShownBy(role, window, events).ep.failed
    requires ParseFront(ShownBy(role, window, events).buffer, DEFAULT_MAX_PAYLOAD).Complete?
    ensures var was := ShownBy(role, window, events);
            var front := ParseFront(was.buffer, DEFAULT_MAX_PAYLOAD);
            var o := DispatchFrame(was.ep, front.frame);
            ShownBy(role, window, events + [DispatchNext]) ==
            Shown(o.ep, was.buffer[front.size..], was.msgs + o.msgs, was.calls + o.calls)
  {
    hide ObservedRun, DispatchFrame, Written, MadeIn, OutcomeNotes, ParseFront;
    RunMore(role, window, events, DispatchNext);
    var s := ObservedRun(role, window, events);
    var o := DispatchFrame(s.ep, ParseFront(s.buffer, DEFAULT_MAX_PAYLOAD).frame);
    FoldsSplit(s.notes, OutcomeNotes(o));
    NotesOf(o);
  }

  /** Calls one after the other extend a run. */
  lemma {:induction false} ShowCalls(role: Role, window: nat, events: seq<Event>, apis: seq<Api>) returns (more: seq<Event>)
    ensures var was, o := ShownBy(role, window, events), CallAll(ShownBy(role, window, events).ep, apis);
            ShownBy(role, window, more) == Shown(o.ep, was.buffer, was.msgs + o.msgs, was.calls + o.calls)
    decreases |apis|
  {
    hide ShownBy, Call;
    var was := ShownBy(role, window, events);
    if |apis| == 0 {
      more := events;
      assert was.msgs + [] == was.msgs && was.calls + [] == was.calls;
    } else {
      ShowCall(role, window, events, apis[0]);
      var o := Call(was.ep, apis[0]);
      var later := CallAll(o.ep, apis[1..]);
      more := ShowCalls(role, window, events + [Calls(apis[0])], apis[1..]);
      Assoc(was.msgs, o.msgs, later.msgs);
      Assoc(was.calls, o.calls, later.calls);
    }
  }

  /** So do the frames of a buffer, with whatever their handlers call. */
  lemma {:induction false} ShowIntake(role: Role, window: nat, events: seq<Event>, replies: seq<seq<Api>>)
    returns (more: seq<Event>)
    ensures var was := ShownBy(role, window, events);
            var took := TakeIn(was.ep, was.buffer, replies);
            ShownBy(role, window, more) == Shown(took.ep, took.rest, was.msgs + took.msgs, was.calls + took.calls)
    decreases |ShownBy(role, window, events).buffer|
  {
    hide ShownBy, ParseFront, DispatchFrame, CallAll, Later;
    var was := ShownBy(role, window, events);
    var front := ParseFront(was.buffer, DEFAULT_MAX_PAYLOAD);
    assert was.msgs + [] == was.msgs && was.calls + [] == was.calls;
    if was.ep.failed || front.Partial? {
      more := events;
    } else if front.TooLong? {
      more := events + [DispatchNext];
      ShowPoison(role, window, events);
    } else {
      var o := DispatchFrame(was.ep, front.frame);
      var apis := if |replies| == 0 then [] else replies[0];
      var answer := CallAll(o.ep, apis);
      ShowFrame(role, window, events);
      var middle := ShowCalls(role, window, events + [DispatchNext], apis);
      more := ShowIntake(role, window, middle, Later(replies));
      var both := Answered(was.ep, front.frame, replies);
      var later := TakeIn(both.ep, was.buffer[front.size..], Later(replies));
      Regroup(was.msgs, o.msgs, answer.msgs, later.msgs);
      Regroup(was.calls, o.calls, answer.calls, later.calls);
    }
  }

  lemma Regroup<T>(a: seq<T>, b: seq<T>, c: seq<T>, d: seq<T>)
    ensures ((a + b) + c) + d == a + ((b + c) + d)
  {
  }

  lemma ShowPoison(role: Role, window: nat, events: seq<Event>)
    requires !ShownBy(role, window, events).ep.failed
    requires ParseFront(ShownBy(role, window, events).buffer, DEFAULT_MAX_PAYLOAD).TooLong?
    ensures var was := ShownBy(role, window, events);
            ShownBy(role, window, events + [DispatchNext]) == was.(ep := was.ep.(failed := true))
  {
    hide ObservedRun, Written, MadeIn, ParseFront;
    RunMore(role, window, events, DispatchNext);
  }

  lemma ShowArrival(role: Role, window: nat, events: seq<Event>, bytes: seq<Byte>)
    ensures var was := ShownBy(role, window, events);
            ShownBy(role, window, events + [Arrive(bytes)]) == was.(buffer := was.buffer + bytes)
  {
    hide ObservedRun, Written, MadeIn;
    RunMore(role, window, events, Arrive(bytes));
  }

  // ---- a run as a history -------------------------------------------------------------------------------------

  function Hears(s: Observed, e: Event): seq<SessionHistory.Happening> {
    match e
    case Calls(api) => [SessionHistory.Asked(api)]
    case DispatchNext => SessionHistory.Heard(s.buffer)
    case _ => []
  }

  /** The calls made and the messages taken in a run, in order, until the session fails. */
  function HistoryOf(role: Role, window: nat, events: seq<Event>): seq<SessionHistory.Happening> {
    if events == [] then []
    else
      var before := events[..|events| - 1];
      HistoryOf(role, window, before) +
      if ObservedRun(role, window, events).ep.failed then [] else Hears(ObservedRun(role, window, before), events[|events| - 1])
  }

  /** A step is what the session makes of what it hears, unless it fails, which leaves everything else as it was. */
  lemma ObserveHears(s: Observed, e: Event)
    ensures var s', heard := Observe(s, e), Hears(s, e);
            && (s'.ep.failed ==> s'.ep == s.ep.(failed := true) && Written(s'.notes) == Written(s.notes))
            && (!s'.ep.failed ==>
                  && !s.ep.failed && |heard| <= 1
                  && s'.ep == (if |heard| == 0 then s.ep else SessionHistory.React(s.ep, heard[0]).ep)
                  && Written(s'.notes) == Written(s.notes) + (if |heard| == 0 then [] else SessionHistory.React(s.ep, heard[0]).msgs))
    ensures forall x :: x in Hears(s, e) && x.Got? ==> WellFormed(x.m)
  {
    hide Call, Dispatch, Written, MadeIn, OutcomeNotes, Eaten, ParseFront, Interpret, WellFormed;
    SessionHistory.HeardIsFormed(s.buffer);
    assert Written(s.notes) + [] == Written(s.notes);
    match e
    case Calls(api) =>
      var o := Call(s.ep, api);
      CallKeepsFailing(s.ep, api);
      FoldsSplit(s.notes, Eaten(s.ep, api) + OutcomeNotes(o));
      FoldsSplit(Eaten(s.ep, api), OutcomeNotes(o));
      NothingEaten(s.ep, api);
      NotesOf(o);
      assert [] + o.msgs == o.msgs;
    case Arrive(_) =>
    case DispatchNext =>
      var front := ParseFront(s.buffer, DEFAULT_MAX_PAYLOAD);
      if !s.ep.failed && front.Complete? {
        var o := DispatchFrame(s.ep, front.frame);
        if o.ep.failed { SessionHistory.RefusalOnlyFails(s.ep, front.frame); }
        FoldsSplit(s.notes, OutcomeNotes(o));
        NotesOf(o);
      }
  }

  lemma CallKeepsFailing(ep: Endpoint, api: Api)
    ensures Call(ep, api).ep.failed == ep.failed && (ep.failed ==> Call(ep, api) == Nothing(ep))
  {
    hide Flush;
  }

  /** The session of a run, and all it has written, is what its history makes of it; so every law of histories is a law of
      runs. */
  lemma {:induction false} RunsAreLived(role: Role, window: nat, events: seq<Event>)
    ensures var s, h := ObservedRun(role, window, events), HistoryOf(role, window, events);
            && SessionHistory.LifeOf(role, window, h) == SessionHistory.Life(s.ep.(failed := false), Written(s.notes))
            && SessionHistory.Formed(h)
  {
    hide Observe, SessionHistory.LifeOf, SessionHistory.React, Hears, Written;
    if events == [] {
      StartsLived(role, window);
    } else {
      var before, last := events[..|events| - 1], events[|events| - 1];
      var s, h := ObservedRun(role, window, before), HistoryOf(role, window, before);
      RunsAreLived(role, window, before);
      ObserveHears(s, last);
      if ObservedRun(role, window, events).ep.failed {
        assert h + [] == h;
      } else {
        SessionHistory.AsLived(role, window, h, Hears(s, last));
      }
    }
  }

  lemma StartsLived(role: Role, window: nat)
    ensures SessionHistory.LifeOf(role, window, []) == SessionHistory.Life(NewEndpoint(role, window), Written([]))
  {
  }

  /** One use of the object: an API call, or received bytes with the calls its handlers make meanwhile. */
  datatype Use = Asks(api: Api) | Hears(bytes: seq<Byte>, replies: seq<seq<Api>>)

  /** The object shows exactly what the run of `events` shows. */
  ghost predicate Shows(s: Session, role: Role, window: nat, events: seq<Event>)
    reads s
  {
    var shown := ShownBy(role, window, events);
    s.State() == shown.ep && s.buffer == shown.buffer && s.wire == EncodeMsgs(shown.msgs) && s.calls == shown.calls
  }

  method UseOnce(s: Session, use: Use, ghost role: Role, ghost window: nat, ghost events: seq<Event>)
    returns (ghost more: seq<Event>)
    requires Shows(s, role, window, events)
    modifies s
    ensures Shows(s, role, window, more)
  {
    hide ShownBy, EncodeMsgs, Call, TakeIn;
    ghost var was := ShownBy(role, window, events);
    if use.Asks? {
      ShowCall(role, window, events, use.api);
      EncodeMsgsAppend(was.msgs, Call(was.ep, use.api).msgs);
      s.Perform(use.api);
      more := events + [Calls(use.api)];
    } else {
      ghost var arrived := if was.ep.failed then events else events + [Arrive(use.bytes)];
      ShowArrival(role, window, events, use.bytes);
      more := ShowIntake(role, window, arrived, use.replies);
      EncodeMsgsAppend(was.msgs, TakeIn(was.ep, ShownBy(role, window, arrived).buffer, use.replies).msgs);
      var _ := s.Receive(use.bytes, use.replies);
    }
  }

  /** A session object after any sequence of uses is in the state of some observed run, having written and called exactly
      what that run shows; so its queues are sound, its streams follow the grammar, and what it wrote is what its history
      makes of it. */
  method UseAll(role: Role, window: nat, uses: seq<Use>) returns (s: Session, ghost events: seq<Event>)
    ensures fresh(s) && Shows(s, role, window, events) && AllSound(s.State())
    ensures forall id: U32 :: Watch(role, Absent, ObservedRun(role, window, events).notes, id) != Bad
    ensures forall id: U32 :: 0 <= Unconsumed(ObservedRun(role, window, events).notes, id) <= window
    ensures var life := SessionHistory.LifeOf(role, window, HistoryOf(role, window, events));
            && SessionHistory.Formed(HistoryOf(role, window, events))
            && s.State().(failed := false) == life.ep && s.wire == EncodeMsgs(life.wrote)
  {
    hide Call, DispatchFrame, Watch, Unconsumed, Sound, SessionHistory.LifeOf, HistoryOf;
    s := new Session(role, window);
    events := [];
    assert EncodeMsgs([]) == [];
    for k := 0 to |uses|
      invariant fresh(s) && Shows(s, role, window, events)
    {
      hide Shows;
      events := UseOnce(s, uses[k], role, window, events);
    }
    QueuesStaySound(role, window, events);
    RunsAreLived(role, window, events);
    forall id: U32 ensures Watch(role, Absent, ObservedRun(role, window, events).notes, id) != Bad
      ensures 0 <= Unconsumed(ObservedRun(role, window, events).notes, id) <= window
    {
      TracesFollowTheGrammar(role, window, events, id);
      DeliveryIsBounded(role, window, events, id);
    }
  }
}
