/** What the node keeps per running stage, on top of its session's streams. */
module NodeStageSpec {
  import opened Wire
  import opened ControlPayloads
  import opened Messages
  import opened CreditWindows
  import opened SessionSpec
  import opened FlowFacts

  const READ_SIZE := 16 * 1024

  /** A running stage. `reading` and `writing` are its pipe interests; `received` and `fed` record the stdin bytes the
      controller sent and those the stage's pipe took; `broken` means the stage stopped reading its stdin. */
  datatype Stage = Stage(
    stdinBuffer: seq<Byte>, stdoutOpen: bool, stderrOpen: bool, stdinOpen: bool, endPending: bool,
    exited: bool, paused: bool, status: ExitStatus, reading: bool, writing: bool,
    received: seq<Byte>, fed: seq<Byte>, broken: bool)

  function NewStage(): Stage {
    Stage([], true, true, true, false, false, false, ExitStatus(Exited, 0), true, false, [], [], false)
  }

  predicate Over(g: Stage) {
    g.exited && !g.stdoutOpen && !g.stderrOpen
  }

  /** The stdin side: what is buffered is what was delivered and is not consumed. */
  predicate InputOk(window: nat, st: Stream, g: Stage) {
    && |g.stdinBuffer| == st.recv.outstanding <= window
    && (!g.broken ==> g.received == g.fed + g.stdinBuffer)
    && (g.writing <==> g.stdinOpen && g.stdinBuffer != []) && (g.broken ==> !g.stdinOpen)
    && (g.stdinOpen && g.stdinBuffer == [] ==> !g.endPending) && (!g.stdinOpen ==> g.endPending || g.broken)
  }

  /** The stdout side: bounded unsent bytes, and a paused stage waits for a full queue. */
  predicate OutputOk(window: nat, st: Stream, g: Stage) {
    && Sound(st) && !st.localClosed && !st.exitPending
    && st.queued < window + READ_SIZE
    && (g.paused ==> st.queued >= window) && (g.reading <==> !g.paused)
  }

  /** `x` is a stage in the middle of a handler. */
  predicate StageOk(ep: Endpoint, stages: map<U32, Stage>, id: U32) {
    && id in ep.streams && id in stages && !Over(stages[id])
    && InputOk(ep.window, ep.streams[id], stages[id]) && OutputOk(ep.window, ep.streams[id], stages[id])
  }

  ghost predicate IdsOk(ep: Endpoint, stages: map<U32, Stage>) {
    && (ep.nextPeer == 0 || forall id :: id in ep.streams || id in ep.closed ==> id < ep.nextPeer)
    && (forall id :: id in ep.streams ==> id !in ep.closed)
    && (forall id :: id in stages ==> id in ep.streams)
  }

  ghost predicate Healthy(ep: Endpoint, stages: map<U32, Stage>, x: set<U32>) {
    && ep.role.Node? && ep.window > 0
    && (!ep.failed ==> IdsOk(ep, stages) && forall id :: id in stages && id !in x ==> StageOk(ep, stages, id))
  }

  /** Only stream `id` was touched. */
  ghost predicate OnlyStream(ep: Endpoint, ep': Endpoint, id: U32) {
    && ep'.role == ep.role && ep'.window == ep.window && ep'.failed == ep.failed && ep'.nextPeer == ep.nextPeer
    && (forall j :: j != id ==> (j in ep'.streams <==> j in ep.streams) && (j in ep'.closed <==> j in ep.closed))
    && (forall j :: j != id && j in ep.streams ==> ep'.streams[j] == ep.streams[j])
  }

  lemma StreamChange(ep: Endpoint, ep': Endpoint, stages: map<U32, Stage>, stages': map<U32, Stage>, id: U32, x: set<U32>)
    requires Healthy(ep, stages, x) && OnlyStream(ep, ep', id) && (id in ep'.streams ==> id in ep.streams)
    requires (id in ep'.closed ==> id in ep.streams || id in ep.closed) && !(id in ep'.streams && id in ep'.closed)
    requires forall j :: j != id ==> (j in stages' <==> j in stages) && (j in stages ==> stages'[j] == stages[j])
    requires id in stages' ==> id in ep'.streams
    requires !ep.failed && id in stages' && id !in x ==> StageOk(ep', stages', id)
    ensures Healthy(ep', stages', x)
  {
    hide InputOk, OutputOk;
    if !ep.failed {
      forall j | j in stages' && j !in x ensures StageOk(ep', stages', j) {
        if j != id {
          assert StageOk(ep, stages, j);
        }
      }
    }
  }

  // Sending.

  lemma FlushOnly(ep: Endpoint, id: U32, st: Stream)
    requires id in ep.streams
    ensures OnlyStream(ep, FlushInto(ep, id, st).ep, id)
    ensures id !in ep.closed ==> !(id in FlushInto(ep, id, st).ep.streams && id in FlushInto(ep, id, st).ep.closed)
  {
    hide Flush;
  }

  /** Draining never grows the unsent bytes. */
  lemma {:induction false} DrainShrinks(id: U32, st: Stream)
    ensures Drain(id, st).stream.queued <= st.queued
    decreases |st.queue|, st.credit
  {
    if st.queue != [] && st.credit > 0 { DrainShrinks(id, SendFront(id, st).stream); }
  }

  /** A flush of a stream without a pending exit keeps it open and its queue sound, and reports a drained queue. */
  lemma FlushOpen(ep: Endpoint, id: U32, st: Stream)
    requires Sound(st) && !st.localClosed
    ensures var o := FlushInto(ep, id, st);
            && id in o.ep.streams
            && Sound(o.ep.streams[id]) && SameFlags(o.ep.streams[id], st) && o.ep.streams[id].queued <= st.queued
            && o.calls == if st.queued >= ep.window && o.ep.streams[id].queued < ep.window then [OnWritable(id)] else []
  {
    DrainSound(id, st);
    DrainShrinks(id, st);
    hide Drain, Sound;
  }

  lemma EnqueueSound(st: Stream, bytes: seq<Byte>, channel: Channel)
    requires Sound(st) && !st.localClosed
    ensures Sound(Enqueue(st, bytes, false, channel)) && SameFlags(Enqueue(st, bytes, false, channel), st)
    ensures Enqueue(st, bytes, false, channel).queued == st.queued + |bytes|
  {
    if bytes != [] { QueueAppend(st.queue, Segment(channel, bytes)); }
  }

  /** Sending one read's worth from an unpaused stage with room keeps it in order. */
  lemma SendKeeps(ep: Endpoint, stages: map<U32, Stage>, id: U32, bytes: seq<Byte>, channel: Channel)
    requires Healthy(ep, stages, {}) && !ep.failed && id in stages && !stages[id].paused
    requires ep.streams[id].queued < ep.window && |bytes| <= READ_SIZE
    ensures Healthy(CallSendData(ep, id, bytes, false, channel).ep, stages, {})
    ensures !CallSendData(ep, id, bytes, false, channel).ep.failed
  {
    assert StageOk(ep, stages, id);
    var st := Enqueue(ep.streams[id], bytes, false, channel);
    EnqueueSound(ep.streams[id], bytes, channel);
    FlushOpen(ep, id, st);
    FlushOnly(ep, id, st);
    hide FlushInto, Sound, Healthy;
    StreamChange(ep, FlushInto(ep, id, st).ep, stages, stages, id, {});
  }

  // Pausing and resuming.

  function Paused(g: Stage, paused: bool): Stage {
    g.(paused := paused, reading := !paused)
  }

  lemma PauseKeeps(ep: Endpoint, stages: map<U32, Stage>, id: U32, paused: bool, x: set<U32>)
    requires Healthy(ep, stages, x) && id in stages
    requires !ep.failed ==> StageOk(ep, stages, id) || (!paused && StageOk(ep, stages[id := Paused(stages[id], false)], id))
    requires !ep.failed && paused ==> id in ep.streams && ep.streams[id].queued >= ep.window
    ensures Healthy(ep, stages[id := Paused(stages[id], paused)], x - {id})
  {
    var stages' := stages[id := Paused(stages[id], paused)];
    if !ep.failed {
      forall j | j in stages' && j !in x - {id} ensures StageOk(ep, stages', j) {
        if j != id { assert StageOk(ep, stages, j); }
      }
    }
  }

  // Consuming stdin.

  /** What a write of `n` bytes to the stage does. */
  function Fed(g: Stage, n: nat): Stage
    requires n <= |g.stdinBuffer|
  {
    g.(stdinBuffer := g.stdinBuffer[n..], fed := g.fed + g.stdinBuffer[..n])
  }

  lemma ConsumeOnly(ep: Endpoint, id: U32, n: nat)
    requires !ep.failed && id in ep.streams
    ensures var ep' := CallConsume(ep, id, n).ep;
            && OnlyStream(ep, ep', id) && id in ep'.streams && ep'.closed == ep.closed
            && ep'.streams[id] == ep.streams[id].(recv := ep'.streams[id].recv)
            && ep'.streams[id].recv.outstanding == if n < ep.streams[id].recv.outstanding then ep.streams[id].recv.outstanding - n else 0
  {
  }

  /** The stdin invariant apart from the write interest, which is set at the end of a drain. */
  predicate Draining(window: nat, st: Stream, g: Stage) {
    && |g.stdinBuffer| == st.recv.outstanding <= window
    && (!g.broken ==> g.received == g.fed + g.stdinBuffer) && (g.broken ==> !g.stdinOpen)
    && (!g.stdinOpen ==> g.endPending || g.broken)
  }

  ghost predicate MidDrain(ep: Endpoint, stages: map<U32, Stage>, id: U32) {
    && Healthy(ep, stages, {id}) && id in stages
    && (!ep.failed ==> !Over(stages[id]) && Draining(ep.window, ep.streams[id], stages[id]) && OutputOk(ep.window, ep.streams[id], stages[id]))
  }

  lemma FeedDraining(window: nat, st: Stream, st': Stream, g: Stage, n: nat)
    requires Draining(window, st, g) && n <= |g.stdinBuffer|
    requires st'.recv.outstanding == if n < st.recv.outstanding then st.recv.outstanding - n else 0
    ensures Draining(window, st', Fed(g, n))
  {
    assert g.stdinBuffer == g.stdinBuffer[..n] + g.stdinBuffer[n..];
    assert g.fed + g.stdinBuffer == (g.fed + g.stdinBuffer[..n]) + g.stdinBuffer[n..];
  }

  lemma FeedKeeps(ep: Endpoint, stages: map<U32, Stage>, id: U32, n: nat)
    requires MidDrain(ep, stages, id) && n <= |stages[id].stdinBuffer|
    ensures MidDrain(CallConsume(ep, id, n).ep, stages[id := Fed(stages[id], n)], id)
  {
    var ep' := CallConsume(ep, id, n).ep;
    var stages' := stages[id := Fed(stages[id], n)];
    if ep.failed {
    } else {
      hide CallConsume, OutputOk, Draining, StageOk;
      ConsumeOnly(ep, id, n);
      FeedDraining(ep.window, ep.streams[id], ep'.streams[id], stages[id], n);
      SameOutput(ep.window, ep.streams[id], ep'.streams[id], stages[id], stages'[id]);
      StreamChange(ep, ep', stages, stages', id, {id});
    }
  }

  lemma SameOutput(window: nat, st: Stream, st': Stream, g: Stage, g': Stage)
    requires OutputOk(window, st, g) && st' == st.(recv := st'.recv) && g'.paused == g.paused && g'.reading == g.reading
    ensures OutputOk(window, st', g')
  {
  }

  /** What is left when the stage stopped reading: the rest is dropped and its credit freed. */
  function Dropped(g: Stage): Stage {
    g.(stdinBuffer := [], broken := true, stdinOpen := false, writing := false)
  }

  lemma DropKeeps(ep: Endpoint, stages: map<U32, Stage>, id: U32)
    requires MidDrain(ep, stages, id)
    ensures Healthy(CallConsume(ep, id, |stages[id].stdinBuffer|).ep, stages[id := Dropped(stages[id])], {})
  {
    var n := |stages[id].stdinBuffer|;
    var ep' := CallConsume(ep, id, n).ep;
    var stages' := stages[id := Dropped(stages[id])];
    if !ep.failed {
      ConsumeOnly(ep, id, n);
      SameOutput(ep.window, ep.streams[id], ep'.streams[id], stages[id], stages'[id]);
      hide CallConsume, OutputOk;
      StreamChange(ep, ep', stages, stages', id, {id});
      Settle(ep', stages', id);
    }
  }

  /** The stage in the middle of a handler is in order again. */
  lemma Settle(ep: Endpoint, stages: map<U32, Stage>, id: U32)
    requires Healthy(ep, stages, {id})
    requires !ep.failed && id in stages ==> StageOk(ep, stages, id)
    ensures Healthy(ep, stages, {})
  {
    hide StageOk;
  }

  lemma Unsettle(ep: Endpoint, stages: map<U32, Stage>, id: U32)
    requires Healthy(ep, stages, {})
    ensures Healthy(ep, stages, {id}) && (!ep.failed && id in stages ==> StageOk(ep, stages, id))
  {
    hide StageOk;
  }

  /** A handler's own change to its stage. */
  lemma StageChange(ep: Endpoint, stages: map<U32, Stage>, id: U32, g: Stage)
    requires Healthy(ep, stages, {id}) && id in stages
    ensures Healthy(ep, stages[id := g], {id})
    ensures !ep.failed && id in ep.streams && !Over(g) && InputOk(ep.window, ep.streams[id], g) && OutputOk(ep.window, ep.streams[id], g) ==>
              Healthy(ep, stages[id := g], {})
  {
    var stages' := stages[id := g];
    hide InputOk, OutputOk;
    if !ep.failed {
      forall j | j in stages' && j != id ensures StageOk(ep, stages', j) {
        assert StageOk(ep, stages, j);
      }
    }
  }

  // Finishing.

  ghost predicate MayBeOver(ep: Endpoint, stages: map<U32, Stage>, id: U32) {
    && Healthy(ep, stages, {id})
    && (!ep.failed && id in stages ==>
          InputOk(ep.window, ep.streams[id], stages[id]) && OutputOk(ep.window, ep.streams[id], stages[id]))
  }

  lemma ExitKeeps(ep: Endpoint, stages: map<U32, Stage>, id: U32, status: ExitStatus)
    requires Healthy(ep, stages, {id}) && (!ep.failed ==> id in ep.streams)
    ensures Healthy(CallSendExit(ep, id, status).ep, stages - {id}, {}) && CallSendExit(ep, id, status).ep.failed == ep.failed
  {
    var ep' := CallSendExit(ep, id, status).ep;
    hide InputOk, OutputOk;
    if !ep.failed {
      StreamChange(ep, ep', stages, stages - {id}, id, {id});
      Settle(ep', stages - {id}, id);
    }
  }

  // A stream without a stage.

  lemma SendAside(ep: Endpoint, stages: map<U32, Stage>, id: U32, bytes: seq<Byte>, channel: Channel)
    requires Healthy(ep, stages, {}) && id !in stages
    ensures Healthy(CallSendData(ep, id, bytes, false, channel).ep, stages, {})
    ensures CallSendData(ep, id, bytes, false, channel).ep.failed == ep.failed
  {
    if Accepts(ep, id, channel) {
      var st := Enqueue(ep.streams[id], bytes, false, channel);
      FlushOnly(ep, id, st);
      hide FlushInto, StageOk;
      StreamChange(ep, FlushInto(ep, id, st).ep, stages, stages, id, {});
    }
  }

  lemma ExitAside(ep: Endpoint, stages: map<U32, Stage>, id: U32, status: ExitStatus)
    requires Healthy(ep, stages, {}) && id !in stages
    ensures Healthy(CallSendExit(ep, id, status).ep, stages, {}) && CallSendExit(ep, id, status).ep.failed == ep.failed
  {
    hide StageOk;
    if TakesExit(ep, id) {
      StreamChange(ep, CallSendExit(ep, id, status).ep, stages, stages, id, {});
    }
  }

  lemma StartKeeps(ep: Endpoint, stages: map<U32, Stage>, id: U32)
    requires Healthy(ep, stages, {}) && id !in stages && (!ep.failed ==> id in ep.streams && ep.streams[id] == NewStream(ep.window))
    ensures Healthy(ep, stages[id := NewStage()], {})
  {
    var stages' := stages[id := NewStage()];
    if !ep.failed {
      forall j | j in stages' ensures StageOk(ep, stages', j) {
        if j != id { assert StageOk(ep, stages, j); }
      }
    }
  }

  // Arrivals.

  lemma OpenArrives(ep: Endpoint, stages: map<U32, Stage>, id: U32, r: OpenPayload.OpenRequest)
    requires Healthy(ep, stages, {}) && !ep.failed && id != 0
    ensures var o := ReceiveOpen(ep, id, r);
            && Healthy(o.ep, stages, {})
            && (!o.ep.failed ==> id !in stages && id in o.ep.streams && o.ep.streams[id] == NewStream(ep.window) && o.ep.window == ep.window)
  {
    var o := ReceiveOpen(ep, id, r);
    if !o.ep.failed {
      assert id !in ep.streams;
      forall j | j in stages ensures StageOk(o.ep, stages, j) {
        assert StageOk(ep, stages, j);
      }
    }
  }

  /** Bytes for a running stage: exactly that much more is outstanding than buffered until its handler has run. */
  lemma DataArrives(ep: Endpoint, stages: map<U32, Stage>, id: U32, end: bool, channel: Channel, bytes: seq<Byte>)
    requires Healthy(ep, stages, {}) && !ep.failed
    ensures var o := ReceiveData(ep, id, end, channel, bytes);
            && Healthy(o.ep, stages, {id})
            && (id !in stages ==> Healthy(o.ep, stages, {}))
            && (!o.ep.failed && id in stages ==>
                  && o.ep.window == ep.window && id in o.ep.streams
                  && o.ep.streams[id] == ep.streams[id].(recv := Deliver(ep.streams[id].recv, |bytes|), peerClosed := end)
                  && o.ep.streams[id].recv.outstanding <= ep.window)
  {
    var o := ReceiveData(ep, id, end, channel, bytes);
    Unsettle(ep, stages, id);
    hide InputOk, OutputOk;
    if !o.ep.failed {
      StreamChange(ep, o.ep, stages, stages, id, {id});
      if id !in stages { Settle(o.ep, stages, id); }
    }
  }

  lemma FlushCalls(ep: Endpoint, id: U32, st: Stream)
    ensures FlushInto(ep, id, st).calls == [] || FlushInto(ep, id, st).calls == [OnWritable(id)]
  {
    hide Flush;
  }

  /** After a flush a stage is in order, unless it was paused; then the session reports the stream writable. */
  lemma FlushedStage(ep: Endpoint, stages: map<U32, Stage>, id: U32, st: Stream)
    requires StageOk(ep, stages, id) && st == ep.streams[id].(credit := st.credit)
    ensures var o := FlushInto(ep, id, st);
            StageOk(o.ep, stages[id := Paused(stages[id], stages[id].paused && o.calls == [])], id)
  {
    FlushOpen(ep, id, st);
    FlushOnly(ep, id, st);
    hide FlushInto, Sound;
  }

  /** Credit for a stream: either its stage is in order, or the session reports it writable and resuming restores it. */
  lemma CreditArrives(ep: Endpoint, stages: map<U32, Stage>, id: U32, delta: U32)
    requires Healthy(ep, stages, {}) && !ep.failed
    ensures var o := ReceiveCredit(ep, id, delta);
            && Healthy(o.ep, stages, {id})
            && (!o.ep.failed && id in stages ==> StageOk(o.ep, stages[id := Paused(stages[id], stages[id].paused && o.calls == [])], id))
            && (id !in stages ==> Healthy(o.ep, stages, {}))
            && (id in stages ==> (stages[id].reading <==> !stages[id].paused))
            && (o.calls == [] || o.calls == [OnWritable(id)])
  {
    hide FlushInto, StageOk, Paused;
    var o := ReceiveCredit(ep, id, delta);
    Unsettle(ep, stages, id);
    if id in stages { InterestFits(ep, stages, id); }
    if id in ep.streams && ep.streams[id].credit + delta <= MAX_STREAM_WINDOW {
      var st := ep.streams[id].(credit := ep.streams[id].credit + delta);
      FlushOnly(ep, id, st);
      FlushCalls(ep, id, st);
      if id in stages {
        FlushedStage(ep, stages, id, st);
        StageHasStream(o.ep, stages, id, Paused(stages[id], stages[id].paused && o.calls == []));
      }
      CreditHealth(ep, o.ep, stages, id);
    }
  }

  lemma InterestFits(ep: Endpoint, stages: map<U32, Stage>, id: U32)
    requires StageOk(ep, stages, id)
    ensures stages[id].reading <==> !stages[id].paused
  {
  }

  lemma StageHasStream(ep: Endpoint, stages: map<U32, Stage>, id: U32, g: Stage)
    requires StageOk(ep, stages[id := g], id)
    ensures id in ep.streams
  {
  }

  lemma CreditHealth(ep: Endpoint, ep': Endpoint, stages: map<U32, Stage>, id: U32)
    requires Healthy(ep, stages, {id}) && !ep.failed && OnlyStream(ep, ep', id) && id in ep.streams
    requires !(id in ep'.streams && id in ep'.closed) && (id in stages ==> id in ep'.streams)
    ensures Healthy(ep', stages, {id}) && (id !in stages ==> Healthy(ep', stages, {}))
  {
    hide StageOk;
    StreamChange(ep, ep', stages, stages, id, {id});
    if id !in stages { Settle(ep', stages, id); }
  }

  // What the handlers rely on.

  lemma FullStage(ep: Endpoint, stages: map<U32, Stage>, id: U32)
    requires Healthy(ep, stages, {}) && id in stages
    ensures !ep.failed ==> StageOk(ep, stages, id)
  {
    hide StageOk;
  }

  lemma WritableStage(ep: Endpoint, stages: map<U32, Stage>, id: U32, bytes: seq<Byte>, channel: Channel)
    requires Healthy(ep, stages, {}) && id in stages && |bytes| <= READ_SIZE
    requires id !in ep.streams || ep.streams[id].queued < ep.window
    ensures Healthy(CallSendData(ep, id, bytes, false, channel).ep, stages, {})
    ensures CallSendData(ep, id, bytes, false, channel).ep.failed == ep.failed
  {
    if !ep.failed {
      assert StageOk(ep, stages, id);
      hide Healthy;
      SendKeeps(ep, stages, id, bytes, channel);
    }
  }

  function WithoutReader(g: Stage, isStdout: bool): Stage {
    if isStdout then g.(stdoutOpen := false) else g.(stderrOpen := false)
  }

  lemma CloseReaderKeeps(ep: Endpoint, stages: map<U32, Stage>, id: U32, isStdout: bool)
    requires Healthy(ep, stages, {}) && id in stages
    ensures MayBeOver(ep, stages[id := WithoutReader(stages[id], isStdout)], id)
  {
    Unsettle(ep, stages, id);
    StageChange(ep, stages, id, WithoutReader(stages[id], isStdout));
    hide Healthy;
  }

  lemma ReapKeeps(ep: Endpoint, stages: map<U32, Stage>, id: U32, status: ExitStatus)
    requires Healthy(ep, stages, {}) && id in stages
    ensures MayBeOver(ep, stages[id := stages[id].(exited := true, status := status)], id)
  {
    Unsettle(ep, stages, id);
    StageChange(ep, stages, id, stages[id].(exited := true, status := status));
    hide Healthy;
  }

  lemma NotOver(ep: Endpoint, stages: map<U32, Stage>, id: U32)
    requires Healthy(ep, stages, {}) && id in stages
    ensures MayBeOver(ep, stages, id)
  {
    Unsettle(ep, stages, id);
    hide Healthy;
  }

  lemma NothingToResume(ep: Endpoint, stages: map<U32, Stage>, id: U32)
    requires Healthy(ep, stages, {id}) && (id in stages ==> !stages[id].paused && (ep.failed || stages[id].reading))
    requires !ep.failed && id in stages ==> StageOk(ep, stages[id := Paused(stages[id], false)], id)
    ensures Healthy(ep, stages, {})
  {
    if !ep.failed && id in stages {
      forall j | j in stages ensures StageOk(ep, stages, j) {
        if j == id {
          SameWhenAwake(ep.window, ep.streams[id], stages[id]);
        }
      }
    }
  }

  lemma SameWhenAwake(window: nat, st: Stream, g: Stage)
    requires !g.paused && g.reading && OutputOk(window, st, Paused(g, false))
    ensures OutputOk(window, st, g)
  {
  }

  lemma MidStage(ep: Endpoint, stages: map<U32, Stage>, id: U32)
    requires MidDrain(ep, stages, id)
    ensures id in stages
  {
  }

  /** The end of a drain: an empty buffer closes or idles the pipe, a rest waits for it to become writable. */
  function AfterDrain(g: Stage): Stage {
    if g.stdinBuffer == [] then
      if g.endPending then g.(stdinOpen := false, writing := false) else g.(writing := false)
    else g.(writing := g.stdinOpen)
  }

  lemma DrainEnds(ep: Endpoint, stages: map<U32, Stage>, id: U32)
    requires MidDrain(ep, stages, id)
    ensures Healthy(ep, stages[id := AfterDrain(stages[id])], {})
  {
    var g := AfterDrain(stages[id]);
    if !ep.failed {
      SameOutput(ep.window, ep.streams[id], ep.streams[id], stages[id], g);
      hide OutputOk;
      StageChange(ep, stages, id, g);
    }
  }

  lemma DrainBegins(ep: Endpoint, stages: map<U32, Stage>, id: U32)
    requires Healthy(ep, stages, {}) && id in stages
    ensures MidDrain(ep, stages, id)
  {
    Unsettle(ep, stages, id);
    hide Healthy;
    if !ep.failed { assert StageOk(ep, stages, id); StreamThere(ep, stages, id); }
  }

  lemma StreamThere(ep: Endpoint, stages: map<U32, Stage>, id: U32)
    requires Healthy(ep, stages, {id}) && !ep.failed && id in stages
    ensures id in ep.streams
  {
  }

  /** The session counts `bytes` as outstanding that the stage has not buffered yet. */
  ghost predicate Delivered(ep: Endpoint, stages: map<U32, Stage>, id: U32, bytes: seq<Byte>) {
    && Healthy(ep, stages, {id}) && (id !in stages ==> Healthy(ep, stages, {}))
    && (!ep.failed && id in stages ==>
          && !Over(stages[id]) && OutputOk(ep.window, ep.streams[id], stages[id])
          && |stages[id].stdinBuffer| + |bytes| == ep.streams[id].recv.outstanding <= ep.window
          && (!stages[id].broken ==> stages[id].received == stages[id].fed + stages[id].stdinBuffer)
          && (stages[id].broken ==> !stages[id].stdinOpen) && (!stages[id].stdinOpen ==> stages[id].endPending || stages[id].broken))
  }

  function Joined(g: Stage, bytes: seq<Byte>, end: bool): Stage {
    g.(stdinBuffer := g.stdinBuffer + bytes, received := g.received + bytes, endPending := g.endPending || end)
  }

  lemma NobodyThere(ep: Endpoint, stages: map<U32, Stage>, id: U32, bytes: seq<Byte>)
    requires Delivered(ep, stages, id, bytes) && id !in stages
    ensures Healthy(ep, stages, {})
  {
  }

  lemma DeliveryJoins(ep: Endpoint, stages: map<U32, Stage>, id: U32, bytes: seq<Byte>, end: bool)
    requires Delivered(ep, stages, id, bytes) && id in stages
    ensures MidDrain(ep, stages[id := Joined(stages[id], bytes, end)], id)
  {
    var g := stages[id];
    StageChange(ep, stages, id, Joined(g, bytes, end));
    if !ep.failed {
      StreamThere(ep, stages, id);
      hide Healthy;
      SameOutput(ep.window, ep.streams[id], ep.streams[id], g, Joined(g, bytes, end));
      assert (g.fed + g.stdinBuffer) + bytes == g.fed + (g.stdinBuffer + bytes);
    }
  }

  lemma FailedIsHealthy(ep: Endpoint, stages: map<U32, Stage>)
    requires Healthy(ep, stages, {})
    ensures Healthy(Fail(ep).ep, stages, {})
  {
  }

  lemma DataIsDelivered(ep: Endpoint, stages: map<U32, Stage>, id: U32, end: bool, channel: Channel, bytes: seq<Byte>)
    requires Healthy(ep, stages, {}) && !ep.failed
    ensures var o := ReceiveData(ep, id, end, channel, bytes);
            && (o.calls != [] ==> Delivered(o.ep, stages, id, bytes))
            && (o.calls == [] ==> Healthy(o.ep, stages, {}))
            && (!o.ep.failed && id in stages ==> o.calls != [])
  {
    DataArrives(ep, stages, id, end, channel, bytes);
    var o := ReceiveData(ep, id, end, channel, bytes);
    if o.calls != [] && id in stages {
      assert StageOk(ep, stages, id);
      hide Healthy;
      DeliveredOutput(ep.window, ep.streams[id], o.ep.streams[id], stages[id]);
    }
  }

  lemma DeliveredOutput(window: nat, st: Stream, st': Stream, g: Stage)
    requires OutputOk(window, st, g) && st' == st.(recv := st'.recv, peerClosed := st'.peerClosed)
    ensures OutputOk(window, st', g)
  {
  }

  lemma OthersArrive(ep: Endpoint, stages: map<U32, Stage>, m: Msg)
    requires Healthy(ep, stages, {}) && !ep.failed && !m.OpenMsg? && !m.DataMsg? && !m.CreditMsg?
    ensures Healthy(Dispatch(ep, m).ep, stages, {})
  {
    hide InputOk, OutputOk;
    if !m.ExitMsg? {
      forall id | id in stages ensures StageOk(Dispatch(ep, m).ep, stages, id) {
        assert StageOk(ep, stages, id);
      }
    }
  }

  /** What the session's own step leaves for the handler to do. */
  lemma Arrives(ep: Endpoint, stages: map<U32, Stage>, m: Msg)
    requires Healthy(ep, stages, {}) && !ep.failed && WellFormed(m)
    ensures var o := Dispatch(ep, m);
            && (o.ep.failed ==> Healthy(o.ep, stages, {}))
            && (m.OpenMsg? ==> Healthy(o.ep, stages, {}))
            && (m.OpenMsg? && !o.ep.failed ==> m.id !in stages && m.id in o.ep.streams && o.ep.streams[m.id] == NewStream(o.ep.window))
            && (m.DataMsg? && o.calls != [] ==> Delivered(o.ep, stages, m.id, m.bytes))
            && (m.DataMsg? && o.calls == [] ==> Healthy(o.ep, stages, {}))
            && (m.DataMsg? && !o.ep.failed && m.id in stages ==> o.calls != [])
            && (!m.OpenMsg? && !m.DataMsg? && !m.CreditMsg? ==> Healthy(o.ep, stages, {}))
  {
    hide Delivered, StageOk, ReceiveOpen, ReceiveData, ReceiveCredit;
    match m
    case OpenMsg(id, r) => OpenArrives(ep, stages, id, r);
    case DataMsg(id, end, channel, bytes) =>
      DataIsDelivered(ep, stages, id, end, channel, bytes);
      DataArrives(ep, stages, id, end, channel, bytes);
    case CreditMsg(id, delta) => CreditArrives(ep, stages, id, delta);
    case _ => OthersArrive(ep, stages, m);
  }

  lemma CreditLeaves(ep: Endpoint, stages: map<U32, Stage>, id: U32, delta: U32)
    requires Healthy(ep, stages, {}) && !ep.failed
    ensures var o := ReceiveCredit(ep, id, delta);
            && Healthy(o.ep, stages, {id})
            && (o.calls == [] ==> Healthy(o.ep, stages, {}))
            && (o.calls != [] && !o.ep.failed && id in stages ==>
                  (stages[id].reading <==> !stages[id].paused) && StageOk(o.ep, stages[id := Paused(stages[id], false)], id))
  {
    CreditArrives(ep, stages, id, delta);
    var o := ReceiveCredit(ep, id, delta);
    if o.calls == [] && !o.ep.failed && id in stages {
      assert Paused(stages[id], stages[id].paused) == stages[id];
      assert stages[id := stages[id]] == stages;
      hide StageOk;
      Settle(o.ep, stages, id);
    }
  }

  /** Unsent output is bounded, a paused stage waits for a full queue, and buffered stdin is exactly the outstanding
      credit. */
  lemma Backpressure(ep: Endpoint, stages: map<U32, Stage>, id: U32)
    requires Healthy(ep, stages, {}) && !ep.failed && id in stages
    ensures id in ep.streams
    ensures QueueLen(ep.streams[id].queue) < ep.window + READ_SIZE
    ensures stages[id].paused ==> QueueLen(ep.streams[id].queue) >= ep.window
    ensures |stages[id].stdinBuffer| == ep.streams[id].recv.outstanding <= ep.window
  {
    assert StageOk(ep, stages, id);
  }

  /** The credit that brings a paused stage's queue below the window also makes the session call for a resume. */
  lemma ResumeIsNeverMissed(ep: Endpoint, stages: map<U32, Stage>, id: U32, delta: U32)
    requires Healthy(ep, stages, {}) && !ep.failed && id in stages && stages[id].paused
    ensures var o := ReceiveCredit(ep, id, delta);
            !o.ep.failed ==> id in o.ep.streams &&
                             (QueueLen(o.ep.streams[id].queue) < ep.window <==> o.calls == [OnWritable(id)])
  {
    assert StageOk(ep, stages, id);
    if ep.streams[id].credit + delta <= MAX_STREAM_WINDOW {
      var st := ep.streams[id].(credit := ep.streams[id].credit + delta);
      FlushOpen(ep, id, st);
      hide Healthy, FlushInto;
    }
  }

  // What a drain does to the stage's stdin.

  /** Part of a drain: the pipe took the front of the buffer. */
  predicate Takes(g: Stage, g': Stage) {
    && g' == g.(stdinBuffer := g'.stdinBuffer, fed := g'.fed)
    && g.fed <= g'.fed && g'.fed + g'.stdinBuffer == g.fed + g.stdinBuffer
  }

  /** A whole drain: the pipe took the front of the buffer; the rest is kept, or dropped if the pipe broke. Stdin is closed
      by that, or once everything is written and the end was announced, and not otherwise. A closed stdin takes nothing
      and what is buffered for it stays. */
  predicate Drains(g: Stage, g': Stage) {
    && g' == g.(stdinBuffer := g'.stdinBuffer, fed := g'.fed, stdinOpen := g'.stdinOpen, broken := g'.broken, writing := g'.writing)
    && g.fed <= g'.fed && g'.fed[|g.fed|..] <= g.stdinBuffer
    && (if g.stdinOpen && !g'.stdinOpen && g'.broken then g'.stdinBuffer == []
        else g'.broken == g.broken && g'.fed + g'.stdinBuffer == g.fed + g.stdinBuffer)
    && (g.stdinOpen && !g'.stdinOpen ==> g'.stdinBuffer == [] && (g.endPending || g'.broken))
    && (g'.stdinOpen && g'.stdinBuffer == [] ==> !g.endPending)
    && (!g.stdinOpen ==> g'.stdinBuffer == g.stdinBuffer && g'.fed == g.fed && g'.broken == g.broken && !g'.stdinOpen)
  }

  lemma TakesMore(g: Stage, g1: Stage, n: nat)
    requires Takes(g, g1) && n <= |g1.stdinBuffer|
    ensures Takes(g, Fed(g1, n))
  {
    assert g1.stdinBuffer == g1.stdinBuffer[..n] + g1.stdinBuffer[n..];
    assert (g1.fed + g1.stdinBuffer[..n]) + g1.stdinBuffer[n..] == g1.fed + g1.stdinBuffer;
  }

  lemma TakenFromFront(g: Stage, g1: Stage)
    requires Takes(g, g1)
    ensures g1.fed[|g.fed|..] <= g.stdinBuffer && |g1.stdinBuffer| <= |g.stdinBuffer|
  {
    var k := |g1.fed| - |g.fed|;
    assert (g1.fed + g1.stdinBuffer)[|g.fed|..|g1.fed|] == g1.fed[|g.fed|..];
    assert (g.fed + g.stdinBuffer)[|g.fed|..|g1.fed|] == g.stdinBuffer[..k];
  }

  lemma DrainThenEnd(g: Stage, g1: Stage)
    requires Takes(g, g1) && (!g.stdinOpen ==> g1 == g)
    ensures Drains(g, AfterDrain(g1))
  {
    TakenFromFront(g, g1);
    RestShape(g1);
    hide AfterDrain;
    var g2 := AfterDrain(g1);
    if !g.stdinOpen {
      assert g2.fed == g.fed && g2.stdinBuffer == g.stdinBuffer;
    }
  }

  lemma RestShape(g: Stage)
    ensures var g' := AfterDrain(g);
            && g' == g.(stdinOpen := g'.stdinOpen, writing := g'.writing) && (g'.stdinOpen ==> g.stdinOpen)
            && (g.stdinOpen && !g'.stdinOpen ==> g.stdinBuffer == [])
  {
    if g.stdinBuffer == [] {
      if g.endPending {
        assert AfterDrain(g) == g.(stdinOpen := false, writing := false);
      } else {
        assert AfterDrain(g) == g.(writing := false);
      }
    } else {
      assert AfterDrain(g) == g.(writing := g.stdinOpen);
    }
  }

  lemma DrainThenBreak(g: Stage, g1: Stage)
    requires Takes(g, g1) && g1.stdinOpen
    ensures Drains(g, Dropped(g1))
  {
    TakenFromFront(g, g1);
  }

  // Runs.

  /** What was granted to the controller on one stream. */
  function Granted(grants: seq<(U32, nat)>, id: U32): nat {
    if |grants| == 0 then 0
    else Granted(grants[..|grants| - 1], id) + if grants[|grants| - 1].0 == id then grants[|grants| - 1].1 else 0
  }

  lemma GrantedMore(grants: seq<(U32, nat)>, id: U32, n: nat, j: U32)
    ensures Granted(grants + [(id, n)], j) == Granted(grants, j) + if j == id then n else 0
  {
    assert (grants + [(id, n)])[..|grants|] == grants;
  }

  /** What the operating system saw of the stages' stdin pipes: those that failed a write, and what each of them took. */
  datatype Pipes = Pipes(broke: set<U32>, took: map<U32, seq<Byte>>)

  function Took(p: Pipes, id: U32): seq<Byte> {
    if id in p.took then p.took[id] else []
  }

  function Taking(p: Pipes, id: U32, bytes: seq<Byte>): Pipes {
    p.(took := p.took[id := Took(p, id) + bytes])
  }

  function Failing(p: Pipes, id: U32): Pipes {
    p.(broke := p.broke + {id})
  }

  /** The stage's own record of its stdin is what the pipe saw. */
  predicate PipeOk(p: Pipes, id: U32, g: Stage) {
    (g.broken <==> id in p.broke) && g.fed == Took(p, id)
  }

  predicate Untouched(p: Pipes, id: U32) {
    id !in p.broke && Took(p, id) == []
  }

  predicate SamePipe(p: Pipes, p': Pipes, id: U32) {
    (id in p'.broke <==> id in p.broke) && Took(p', id) == Took(p, id)
  }

  /** Only the pipe of `id` saw more. */
  ghost predicate OnePipe(p: Pipes, p': Pipes, id: U32) {
    p.broke <= p'.broke && forall j: U32 :: if j == id then Took(p, j) <= Took(p', j) else SamePipe(p, p', j)
  }

  ghost predicate PipesGrow(p: Pipes, p': Pipes) {
    p.broke <= p'.broke && forall j: U32 :: Took(p, j) <= Took(p', j)
  }

  lemma OnePipeOn(a: Pipes, b: Pipes, d: Pipes, id: U32)
    requires OnePipe(a, b, id) && OnePipe(b, d, id)
    ensures OnePipe(a, d, id)
  {
    forall j: U32 ensures if j == id then Took(a, j) <= Took(d, j) else SamePipe(a, d, j) {
      if j != id { assert SamePipe(a, b, j) && SamePipe(b, d, j); }
    }
  }

  lemma TakingIsOnePipe(p: Pipes, id: U32, bytes: seq<Byte>)
    ensures OnePipe(p, Taking(p, id, bytes), id) && OnePipe(p, Failing(p, id), id) && OnePipe(p, p, id)
  {
  }

  /** A runner's state, the record of the credit it granted, and what its pipes saw. */
  datatype Ledger = Ledger(session: Endpoint, stages: map<U32, Stage>, grants: seq<(U32, nat)>, pipes: Pipes)

  /** The node has been told of this stream. */
  predicate Known(ep: Endpoint, id: U32) {
    ep.nextPeer == 0 || id < ep.nextPeer
  }

  /** Over any stretch of a run: what was received and fed only grows. Once stdin is closed nothing is fed any more, and
      what arrives is kept in the buffer. */
  predicate StageEvolves(g: Stage, g': Stage) {
    && g.received <= g'.received && g.fed <= g'.fed && (g.exited ==> g'.exited)
    && (!g.stdoutOpen ==> !g'.stdoutOpen) && (!g.stderrOpen ==> !g'.stderrOpen)
    && (!g.stdinOpen ==>
          && !g'.stdinOpen && g'.fed == g.fed && g'.broken == g.broken
          && g'.stdinBuffer == g.stdinBuffer + g'.received[|g.received|..])
  }

  /** No stage, or one whose stdin is closed. */
  predicate Deaf(s: Ledger, id: U32) {
    Known(s.session, id) && (id in s.stages ==> !s.stages[id].stdinOpen)
  }

  /** Stages known before go on or go; nothing is granted for one whose stdin is closed. `x` are streams just opened. */
  ghost predicate EvolvesBut(s: Ledger, s': Ledger, x: set<U32>) {
    && (s'.session.nextPeer == 0 || (s.session.nextPeer != 0 && s.session.nextPeer <= s'.session.nextPeer))
    && (s.session.failed ==> s'.session.failed) && PipesGrow(s.pipes, s'.pipes)
    && (forall id :: id in s'.stages && id !in x && Known(s.session, id) ==>
          id in s.stages && StageEvolves(s.stages[id], s'.stages[id]))
    && (forall id: U32 :: Deaf(s, id) && id !in x ==> Granted(s'.grants, id) == Granted(s.grants, id))
  }

  ghost predicate Evolves(s: Ledger, s': Ledger) {
    EvolvesBut(s, s', {})
  }

  /** Every stage's books: each byte received was granted back or is still buffered, what was fed is what the pipe took,
      and stdin is broken exactly if a write to it failed. */
  ghost predicate Balanced(s: Ledger) {
    forall id: U32 ::
      && (id in s.stages ==>
            && Known(s.session, id) && Granted(s.grants, id) + |s.stages[id].stdinBuffer| == |s.stages[id].received|
            && PipeOk(s.pipes, id, s.stages[id]))
      && (!Known(s.session, id) ==> Granted(s.grants, id) == 0 && Untouched(s.pipes, id))
  }

  lemma StageEvolvesOn(a: Stage, b: Stage, d: Stage)
    requires StageEvolves(a, b) && StageEvolves(b, d)
    ensures StageEvolves(a, d)
  {
    if !a.stdinOpen {
      var r, s := b.received[|a.received|..], d.received[|b.received|..];
      assert d.received[|a.received|..] == r + s;
      assert a.stdinBuffer + (r + s) == (a.stdinBuffer + r) + s;
    }
  }

  lemma StageEvolvesRefl(g: Stage)
    ensures StageEvolves(g, g)
  {
  }

  lemma DrainsEvolves(g: Stage, g': Stage)
    requires Drains(g, g')
    ensures StageEvolves(g, g')
  {
  }

  lemma JoinsEvolves(g: Stage, bytes: seq<Byte>, end: bool)
    ensures StageEvolves(g, Joined(g, bytes, end))
  {
  }

  lemma EvolvesThen(a: Ledger, b: Ledger, d: Ledger, x: set<U32>, y: set<U32>)
    requires EvolvesBut(a, b, x) && EvolvesBut(b, d, y)
    ensures EvolvesBut(a, d, x + y)
  {
    forall id | id in d.stages && id !in x + y && Known(a.session, id)
      ensures id in a.stages && StageEvolves(a.stages[id], d.stages[id])
    {
      assert Known(b.session, id);
      StageEvolvesOn(a.stages[id], b.stages[id], d.stages[id]);
    }
    forall id: U32 | Deaf(a, id) && id !in x + y ensures Granted(d.grants, id) == Granted(a.grants, id) {
      assert Known(b.session, id) && Deaf(b, id);
    }
  }

  lemma EvolvesOn(a: Ledger, b: Ledger, d: Ledger)
    requires Evolves(a, b) && Evolves(b, d)
    ensures Evolves(a, d)
  {
    hide EvolvesBut;
    var none: set<U32> := {};
    EvolvesThen(a, b, d, none, none);
    assert none + none == none;
  }

  /** A stream that was not known before had no stage to go on from. */
  lemma NewcomerEvolves(a: Ledger, b: Ledger, id: U32)
    requires EvolvesBut(a, b, {id}) && !Known(a.session, id)
    ensures Evolves(a, b)
  {
  }

  lemma EvolvesRefl(s: Ledger)
    ensures Evolves(s, s)
  {
    forall id | id in s.stages ensures StageEvolves(s.stages[id], s.stages[id]) {
      StageEvolvesRefl(s.stages[id]);
    }
  }

  /** What a call into the session leaves alone: whether it failed, and which streams it has been told of. */
  predicate SameStanding(ep: Endpoint, ep': Endpoint) {
    ep'.failed == ep.failed && ep'.nextPeer == ep.nextPeer
  }

  /** Only stage `id` changed, or went, and grants are its own. */
  ghost predicate TouchesOne(s: Ledger, s': Ledger, id: U32) {
    && SameStanding(s.session, s'.session) && OnePipe(s.pipes, s'.pipes, id)
    && (forall j: U32 :: j != id ==>
          && (j in s'.stages <==> j in s.stages) && (j in s.stages ==> s'.stages[j] == s.stages[j])
          && Granted(s'.grants, j) == Granted(s.grants, j))
  }

  /** One stage goes on, granting what leaves its buffer. */
  lemma OneGoesOn(s: Ledger, s': Ledger, id: U32)
    requires Balanced(s) && TouchesOne(s, s', id) && id in s.stages && id in s'.stages
    requires StageEvolves(s.stages[id], s'.stages[id])
    requires Granted(s'.grants, id) + |s'.stages[id].stdinBuffer| - |s'.stages[id].received| ==
             Granted(s.grants, id) + |s.stages[id].stdinBuffer| - |s.stages[id].received|
    requires PipeOk(s'.pipes, id, s'.stages[id])
    ensures Evolves(s, s') && Balanced(s')
  {
    hide StageEvolves, Granted;
    BalanceKept(s, s', id);
    hide Balanced;
    forall j | j in s'.stages ensures j in s.stages && StageEvolves(s.stages[j], s'.stages[j]) {
      if j != id { StageEvolvesRefl(s.stages[j]); }
    }
    if !s.stages[id].stdinOpen { NothingGranted(s.stages[id], s'.stages[id]); }
  }

  /** One stage goes on without touching its stdin's books. */
  lemma OneChanges(s: Ledger, s': Ledger, id: U32)
    requires Balanced(s) && id in s.stages && id in s'.stages && s'.stages == s.stages[id := s'.stages[id]]
    requires s'.grants == s.grants && s'.pipes == s.pipes && SameStanding(s.session, s'.session)
    requires s'.stages[id].broken == s.stages[id].broken && s'.stages[id].fed == s.stages[id].fed
    requires StageEvolves(s.stages[id], s'.stages[id])
    requires |s'.stages[id].stdinBuffer| - |s'.stages[id].received| == |s.stages[id].stdinBuffer| - |s.stages[id].received|
    ensures Evolves(s, s') && Balanced(s')
  {
    assert PipeOk(s.pipes, id, s.stages[id]);
    TakingIsOnePipe(s.pipes, id, []);
    hide Balanced, EvolvesBut, StageEvolves, Granted, OnePipe;
    OneGoesOn(s, s', id);
  }

  lemma NothingGranted(g: Stage, g': Stage)
    requires StageEvolves(g, g') && !g.stdinOpen
    ensures |g'.stdinBuffer| - |g'.received| == |g.stdinBuffer| - |g.received|
  {
  }

  lemma BalanceKept(s: Ledger, s': Ledger, id: U32)
    requires Balanced(s) && TouchesOne(s, s', id) && id in s.stages
    requires id in s'.stages ==>
               Granted(s'.grants, id) + |s'.stages[id].stdinBuffer| - |s'.stages[id].received| ==
               Granted(s.grants, id) + |s.stages[id].stdinBuffer| - |s.stages[id].received|
    requires id in s'.stages ==> PipeOk(s'.pipes, id, s'.stages[id])
    ensures Balanced(s')
  {
    hide Granted;
    forall j: U32
      ensures j in s'.stages ==> Known(s'.session, j) && Granted(s'.grants, j) + |s'.stages[j].stdinBuffer| == |s'.stages[j].received|
      ensures j in s'.stages ==> PipeOk(s'.pipes, j, s'.stages[j])
      ensures !Known(s'.session, j) ==> Granted(s'.grants, j) == 0 && Untouched(s'.pipes, j)
    {
      if j != id { assert SamePipe(s.pipes, s'.pipes, j); }
      assert Known(s'.session, j) == Known(s.session, j);
    }
  }

  lemma OneGoes(s: Ledger, s': Ledger, id: U32)
    requires Balanced(s) && id in s.stages && s'.stages == s.stages - {id} && s'.grants == s.grants
    requires s'.pipes == s.pipes && SameStanding(s.session, s'.session)
    ensures Evolves(s, s') && Balanced(s')
  {
    BalanceKept(s, s', id);
    hide Balanced;
    forall j | j in s'.stages ensures j in s.stages && StageEvolves(s.stages[j], s'.stages[j]) {
      StageEvolvesRefl(s.stages[j]);
    }
  }

  lemma NothingMoves(s: Ledger, s': Ledger)
    requires s'.stages == s.stages && s'.grants == s.grants && s'.pipes == s.pipes && (s.session.failed ==> s'.session.failed)
    requires s'.session.nextPeer == 0 || (s.session.nextPeer != 0 && s.session.nextPeer <= s'.session.nextPeer)
    ensures Evolves(s, s') && (Balanced(s) ==> Balanced(s'))
  {
    EvolvesRefl(s);
  }

  /** A stage starts on a stream just announced. */
  lemma OneStarts(s: Ledger, s': Ledger, id: U32)
    requires Balanced(s) && id !in s.stages && Known(s.session, id) && Granted(s.grants, id) == 0 && Untouched(s.pipes, id)
    requires s' == s.(stages := s.stages[id := NewStage()])
    ensures EvolvesBut(s, s', {id}) && Balanced(s')
  {
    forall j | j in s'.stages && j != id ensures j in s.stages && StageEvolves(s.stages[j], s'.stages[j]) {
      StageEvolvesRefl(s.stages[j]);
    }
  }

  lemma AsideEvolves(s: Ledger, s': Ledger, id: U32)
    requires Balanced(s) && s'.stages == s.stages && s'.grants == s.grants && s'.pipes == s.pipes
    requires s'.session.failed == s.session.failed && s'.session.nextPeer == s.session.nextPeer
    ensures EvolvesBut(s, s', {id}) && Balanced(s')
  {
    NothingMoves(s, s');
  }

  lemma StartedEvolves(a: Ledger, b: Ledger, d: Ledger, id: U32)
    requires EvolvesBut(a, b, {id}) && Evolves(b, d)
    ensures EvolvesBut(a, d, {id})
  {
    hide EvolvesBut;
    EvolvesThen(a, b, d, {id}, {});
    assert {id} + {} == {id};
  }

  lemma AnnouncedEvolves(a: Ledger, b: Ledger, d: Ledger, id: U32)
    requires Evolves(a, b) && EvolvesBut(b, d, {id}) && !Known(a.session, id)
    ensures Evolves(a, d)
  {
    hide EvolvesBut;
    EvolvesThen(a, b, d, {}, {id});
    assert {} + {id} == {id};
    NewcomerEvolves(a, d, id);
  }

  lemma UnknownOwesNothing(s: Ledger, id: U32)
    requires Balanced(s)
    ensures !Known(s.session, id) ==> Granted(s.grants, id) == 0 && Untouched(s.pipes, id)
  {
  }

  /** Calls into the session never change which streams it has been told of. */
  lemma CallsKeepKnown(ep: Endpoint, id: U32, bytes: seq<Byte>, channel: Channel, status: ExitStatus, n: nat)
    ensures SameStanding(ep, CallSendData(ep, id, bytes, false, channel).ep)
    ensures SameStanding(ep, CallSendExit(ep, id, status).ep)
    ensures SameStanding(ep, CallConsume(ep, id, n).ep)
  {
    hide Flush;
  }

  // A drain, step by step.

  /** Since `s` the pipe took the front of the stage's buffer and that much was granted. */
  ghost predicate DrainedSince(s: Ledger, s': Ledger, id: U32) {
    && MidDrain(s'.session, s'.stages, id) && id in s.stages && id in s'.stages
    && SameStanding(s.session, s'.session) && s'.stages == s.stages[id := s'.stages[id]]
    && OnePipe(s.pipes, s'.pipes, id) && (PipeOk(s.pipes, id, s.stages[id]) ==> PipeOk(s'.pipes, id, s'.stages[id]))
    && Takes(s.stages[id], s'.stages[id]) && (!s.stages[id].stdinOpen ==> s'.stages[id] == s.stages[id])
    && GrantedFor(s, s', id)
  }

  /** Since `s` credit was granted on stream `id` alone, for as much as left its buffer. */
  ghost predicate GrantedFor(s: Ledger, s': Ledger, id: U32) {
    && id in s.stages && id in s'.stages
    && Granted(s'.grants, id) == Granted(s.grants, id) + |s.stages[id].stdinBuffer| - |s'.stages[id].stdinBuffer|
    && forall j: U32 :: j != id ==> Granted(s'.grants, j) == Granted(s.grants, j)
  }

  lemma DrainStarts(s: Ledger, id: U32)
    requires MidDrain(s.session, s.stages, id)
    ensures DrainedSince(s, s, id)
  {
    hide MidDrain, Granted;
    MidStage(s.session, s.stages, id);
    TakingIsOnePipe(s.pipes, id, []);
  }

  lemma GrantsFor(s: Ledger, s1: Ledger, s2: Ledger, id: U32, n: nat)
    requires GrantedFor(s, s1, id) && id in s2.stages && n == |s1.stages[id].stdinBuffer| - |s2.stages[id].stdinBuffer|
    requires s2.grants == s1.grants + [(id, n)]
    ensures GrantedFor(s, s2, id)
  {
    hide Granted;
    forall j: U32 ensures Granted(s2.grants, j) == Granted(s1.grants, j) + if j == id then n else 0 {
      GrantedMore(s1.grants, id, n, j);
    }
  }

  /** A write of `n` bytes, granted at once. */
  lemma DrainFeeds(s: Ledger, s1: Ledger, s2: Ledger, id: U32, n: nat)
    requires DrainedSince(s, s1, id) && n <= |s1.stages[id].stdinBuffer| && s1.stages[id].stdinOpen
    requires s2 == Ledger(CallConsume(s1.session, id, n).ep, s1.stages[id := Fed(s1.stages[id], n)], s1.grants + [(id, n)],
                          Taking(s1.pipes, id, s1.stages[id].stdinBuffer[..n]))
    ensures DrainedSince(s, s2, id)
  {
    hide MidDrain, CallConsume, Takes, GrantedFor;
    FeedKeeps(s1.session, s1.stages, id, n);
    CallsKeepKnown(s1.session, id, [], Stdout, s1.stages[id].status, n);
    TakesMore(s.stages[id], s1.stages[id], n);
    GrantsFor(s, s1, s2, id, n);
    TakingIsOnePipe(s1.pipes, id, s1.stages[id].stdinBuffer[..n]);
    OnePipeOn(s.pipes, s1.pipes, s2.pipes, id);
    hide OnePipe;
    TakesKeepsOpen(s.stages[id], s1.stages[id]);
  }

  lemma TakesKeepsOpen(g: Stage, g': Stage)
    requires Takes(g, g')
    ensures g'.stdinOpen == g.stdinOpen
  {
  }

  /** What a whole drain leaves. */
  ghost predicate DrainDone(s: Ledger, s': Ledger, id: U32) {
    && Healthy(s'.session, s'.stages, {}) && Balanced(s') && Evolves(s, s') && s'.session.failed == s.session.failed
    && id in s.stages && id in s'.stages && s'.stages == s.stages[id := s'.stages[id]]
    && Drains(s.stages[id], s'.stages[id]) && GrantedFor(s, s', id)
  }

  lemma DrainSettles(s: Ledger, s': Ledger, id: U32)
    requires Balanced(s) && Healthy(s'.session, s'.stages, {}) && SameStanding(s.session, s'.session) && GrantedFor(s, s', id)
    requires s'.stages == s.stages[id := s'.stages[id]] && Drains(s.stages[id], s'.stages[id])
    requires OnePipe(s.pipes, s'.pipes, id) && PipeOk(s'.pipes, id, s'.stages[id])
    ensures DrainDone(s, s', id)
  {
    hide Healthy, Balanced, EvolvesBut, Drains;
    DrainsEvolves(s.stages[id], s'.stages[id]);
    OneGoesOn(s, s', id) by { DrainsBooks(s.stages[id], s'.stages[id]); }
  }

  lemma DrainsBooks(g: Stage, g': Stage)
    requires Drains(g, g')
    ensures g'.received == g.received
  {
  }

  /** The pipe broke: the rest is dropped and granted. */
  lemma DrainBreaks(s: Ledger, s1: Ledger, s2: Ledger, id: U32)
    requires Balanced(s) && DrainedSince(s, s1, id) && s1.stages[id].stdinOpen
    requires var n := |s1.stages[id].stdinBuffer|;
             s2 == Ledger(CallConsume(s1.session, id, n).ep, s1.stages[id := Dropped(s1.stages[id])],
                          s1.grants + [(id, n)], Failing(s1.pipes, id))
    ensures DrainDone(s, s2, id)
  {
    assert PipeOk(s.pipes, id, s.stages[id]);
    assert PipeOk(s2.pipes, id, s2.stages[id]);
    hide MidDrain, Healthy, CallConsume, Takes, GrantedFor, Drains, DrainDone, Balanced;
    TakingIsOnePipe(s1.pipes, id, []);
    OnePipeOn(s.pipes, s1.pipes, s2.pipes, id);
    hide OnePipe;
    var n := |s1.stages[id].stdinBuffer|;
    DropKeeps(s1.session, s1.stages, id);
    CallsKeepKnown(s1.session, id, [], Stdout, s1.stages[id].status, n);
    DrainThenBreak(s.stages[id], s1.stages[id]);
    GrantsFor(s, s1, s2, id, n);
    DrainSettles(s, s2, id);
  }

  lemma DrainRests(s: Ledger, s1: Ledger, s2: Ledger, id: U32)
    requires Balanced(s) && DrainedSince(s, s1, id)
    requires s2 == s1.(stages := s1.stages[id := AfterDrain(s1.stages[id])])
    ensures DrainDone(s, s2, id)
  {
    assert PipeOk(s.pipes, id, s.stages[id]);
    assert s2.stages[id].broken == s1.stages[id].broken == s.stages[id].broken by { RestShape(s1.stages[id]); }
    hide MidDrain, Healthy, Takes, Drains, DrainDone, Balanced, Granted;
    DrainEnds(s1.session, s1.stages, id);
    DrainThenEnd(s.stages[id], s1.stages[id]);
    DrainSettles(s, s2, id);
  }

  lemma DispatchKeepsKnown(ep: Endpoint, m: Msg)
    requires WellFormed(m)
    ensures var ep' := Dispatch(ep, m).ep;
            && (ep'.nextPeer == 0 || (ep.nextPeer != 0 && ep.nextPeer <= ep'.nextPeer)) && (ep.failed ==> ep'.failed)
            && (m.OpenMsg? && !ep'.failed ==> !Known(ep, m.id) && Known(ep', m.id))
  {
    hide Flush, Drain;
  }

  // Bytes that arrive once stdin is closed.

  /** The pipe is watched exactly while it is open and has bytes waiting, so what waits for a closed one is not seen to. */
  lemma WriteInterest(ep: Endpoint, stages: map<U32, Stage>, id: U32)
    requires Healthy(ep, stages, {}) && !ep.failed && id in stages
    ensures stages[id].writing <==> stages[id].stdinOpen && stages[id].stdinBuffer != []
    ensures !stages[id].writing && stages[id].stdinBuffer != [] <==> !stages[id].stdinOpen && ep.streams[id].recv.outstanding > 0
  {
    assert StageOk(ep, stages, id);
  }

  /** A stage's stdin is closed only after the controller announced its end, unless a write to it failed; until one fails,
      all that was received was taken by the pipe, in order, or is still buffered. */
  lemma StdinClosedForCause(s: Ledger, id: U32)
    requires Healthy(s.session, s.stages, {}) && Balanced(s) && !s.session.failed && id in s.stages && id !in s.pipes.broke
    ensures !s.stages[id].stdinOpen ==> s.stages[id].endPending
    ensures s.stages[id].received == Took(s.pipes, id) + s.stages[id].stdinBuffer
  {
    assert PipeOk(s.pipes, id, s.stages[id]);
    hide Balanced;
    assert StageOk(s.session, s.stages, id);
  }

  /** Bytes that arrive are bound to stay in the buffer, whatever the pipe does, exactly when stdin was closed before. */
  lemma HeldIffClosed(g: Stage, bytes: seq<Byte>, end: bool)
    requires bytes != []
    ensures !g.stdinOpen <==> forall g' :: Drains(Joined(g, bytes, end), g') ==> g'.stdinBuffer == g.stdinBuffer + bytes
  {
    hide Drains;
    var g1 := Joined(g, bytes, end);
    if g.stdinOpen {
      var g2 := AllTaken(g1);
      assert Drains(Joined(g, bytes, end), g2) && g2.stdinBuffer != g.stdinBuffer + bytes;
    } else {
      forall g' | Drains(g1, g') ensures g'.stdinBuffer == g.stdinBuffer + bytes {
        ClosedHolds(g1, g');
      }
    }
  }

  lemma AllTaken(g: Stage) returns (g': Stage)
    requires g.stdinOpen
    ensures Drains(g, g') && g'.stdinBuffer == []
  {
    var g1 := Fed(g, |g.stdinBuffer|);
    TakesMore(g, g, |g.stdinBuffer|);
    hide Drains, Takes;
    DrainThenEnd(g, g1);
    g' := AfterDrain(g1);
  }

  lemma ClosedHolds(g: Stage, g': Stage)
    requires Drains(g, g') && !g.stdinOpen
    ensures g'.stdinBuffer == g.stdinBuffer
  {
  }

  /** From then on, as long as the stage lasts: nothing is fed, nothing granted, and all that arrives piles up. */
  lemma HeldForGood(s: Ledger, s': Ledger, id: U32)
    requires Balanced(s) && Evolves(s, s') && id in s.stages && !s.stages[id].stdinOpen && id in s'.stages
    ensures !s'.stages[id].stdinOpen && s'.stages[id].fed == s.stages[id].fed
    ensures s.stages[id].received <= s'.stages[id].received
    ensures s'.stages[id].stdinBuffer == s.stages[id].stdinBuffer + s'.stages[id].received[|s.stages[id].received|..]
    ensures Granted(s'.grants, id) == Granted(s.grants, id)
  {
    hide Granted;
    assert Known(s.session, id) && Deaf(s, id);
  }

  /** It happens: the first byte meets a broken pipe and is dropped; the second is held. */
  lemma SomeByteIsHeld(a: Byte, b: Byte) returns (broke: Stage, held: Stage)
    ensures Drains(Joined(NewStage(), [a], false), broke) && broke.broken && broke.stdinBuffer == []
    ensures Drains(Joined(broke, [b], false), held) && held.stdinBuffer == [b] && held.fed == [] && !held.writing
  {
    var g := Joined(NewStage(), [a], false);
    broke := Dropped(g);
    DrainThenBreak(g, g);
    held := AfterDrain(Joined(broke, [b], false));
    DrainThenEnd(Joined(broke, [b], false), Joined(broke, [b], false));
  }
}

/** The runner: pipes of the stages on one side, the session on the other. */
module NodeStage {
  import opened Wire
  import opened FrameCodec
  import opened OpenPayload
  import opened ControlPayloads
  import opened Messages
  import opened SessionSpec
  import opened NodeStageSpec

  /** How a series of reads ends once the bytes at hand are taken. */
  datatype ReadEnd = WouldBlock | EndOfFile | ReadFailed

  datatype WriteResult = Wrote(count: nat) | WriteWouldBlock | WriteFailed

  /** What comes of an OPEN: a policy refuses it, it cannot be started, or it runs. */
  datatype Start = Refused(diagnostic: seq<Byte>) | CannotStart | Runs(gone: bool)

  /** What was handed to `sendData`, in order. */
  datatype Passed = Passed(id: U32, channel: Channel, bytes: seq<Byte>)

  function PassedOn(log: seq<Passed>, id: U32, channel: Channel): seq<Byte> {
    if |log| == 0 then []
    else
      var last := log[|log| - 1];
      PassedOn(log[..|log| - 1], id, channel) + if last.id == id && last.channel == channel then last.bytes else []
  }

  lemma PassedMore(log: seq<Passed>, p: Passed, id: U32, channel: Channel)
    ensures PassedOn(log + [p], id, channel) ==
            PassedOn(log, id, channel) + if p.id == id && p.channel == channel then p.bytes else []
  {
    assert (log + [p])[..|log|] == log;
  }

  predicate HasRoom(ep: Endpoint, id: U32) {
    id !in ep.streams || ep.streams[id].queued < ep.window
  }

  /** The session after these sends. */
  function Replay(ep: Endpoint, log: seq<Passed>): Endpoint {
    if |log| == 0 then ep
    else
      var last := log[|log| - 1];
      CallSendData(Replay(ep, log[..|log| - 1]), last.id, last.bytes, false, last.channel).ep
  }

  lemma ReplayNothing(ep: Endpoint)
    ensures Replay(ep, []) == ep
  {
  }

  lemma ReplayMore(ep: Endpoint, log: seq<Passed>, p: Passed)
    ensures Replay(ep, log + [p]) == CallSendData(Replay(ep, log), p.id, p.bytes, false, p.channel).ep
  {
    assert (log + [p])[..|log|] == log;
  }

  function EndedBy(g: Stage, isStdout: bool, end: ReadEnd): Stage {
    if end.WouldBlock? then g else WithoutReader(g, isStdout)
  }

  /** The stages once reads from one pipe of stage `id` have come to this end: an end or error closes that reader, and a
      stage that has exited and has no reader left goes. */
  function AfterReads(stages: map<U32, Stage>, id: U32, isStdout: bool, end: ReadEnd): map<U32, Stage>
    requires id in stages
  {
    var g := EndedBy(stages[id], isStdout, end);
    if Over(g) then stages - {id} else stages[id := g]
  }

  /** The same in terms of the stage's two readers: other stages are left alone; an end or error closes this reader and only
      this one; the stage goes exactly if its child has exited and no reader is left, and otherwise is as it was. */
  lemma AfterReadsMeans(stages: map<U32, Stage>, id: U32, isStdout: bool, end: ReadEnd)
    requires id in stages
    ensures var m, g := AfterReads(stages, id, isStdout, end), stages[id];
            var out, err := g.stdoutOpen && !(isStdout && !end.WouldBlock?), g.stderrOpen && !(!isStdout && !end.WouldBlock?);
            && (forall j :: j != id ==> (j in m <==> j in stages) && (j in m ==> m[j] == stages[j]))
            && (id in m <==> !g.exited || out || err)
            && (id in m ==> m[id] == g.(stdoutOpen := out, stderrOpen := err))
  {
    ReaderMeans(stages[id], isStdout, end);
    hide EndedBy, Over;
  }

  lemma ReaderMeans(g: Stage, isStdout: bool, end: ReadEnd)
    ensures var out, err := g.stdoutOpen && !(isStdout && !end.WouldBlock?), g.stderrOpen && !(!isStdout && !end.WouldBlock?);
            && EndedBy(g, isStdout, end) == g.(stdoutOpen := out, stderrOpen := err)
            && (Over(EndedBy(g, isStdout, end)) <==> g.exited && !out && !err)
  {
  }

  lemma ReadsEnd(stages: map<U32, Stage>, ready: map<U32, Stage>, left: map<U32, Stage>, id: U32, isStdout: bool, end: ReadEnd)
    requires id in stages && ready == stages[id := EndedBy(stages[id], isStdout, end)]
    requires left == if Over(ready[id]) then ready - {id} else ready
    ensures left == AfterReads(stages, id, isStdout, end)
  {
    hide Over, EndedBy;
  }

  function Awake(stages: map<U32, Stage>, id: U32): (r: map<U32, Stage>)
    requires id in stages
    ensures id in r
  {
    stages[id := Paused(stages[id], false)]
  }

  /** The same when stdout and then stderr were read to these ends. */
  function AfterBothReads(stages: map<U32, Stage>, id: U32, out: ReadEnd, err: ReadEnd): map<U32, Stage>
    requires id in stages
  {
    var first := AfterReads(stages, id, true, out);
    if id in first then AfterReads(first, id, false, err) else first
  }

  /** What reads from one pipe leave, given whether the session had room to the last. */
  function AfterOne(stages: map<U32, Stage>, id: U32, isStdout: bool, end: ReadEnd, room: bool): map<U32, Stage>
    requires id in stages
  {
    if room then AfterReads(stages, id, isStdout, end) else stages[id := Paused(stages[id], true)]
  }

  lemma OneRead(m: map<U32, Stage>, m': map<U32, Stage>, id: U32, isStdout: bool, end: ReadEnd, room: bool)
    requires id in m && m' == AfterOne(m, id, isStdout, end, room)
    ensures id in m' ==> m' == m[id := m'[id]] && m'[id] == if room then EndedBy(m[id], isStdout, end) else Paused(m[id], true)
    ensures if room then m' == AfterReads(m, id, isStdout, end) else id in m'
  {
    hide Over, EndedBy, Paused;
  }

  lemma PausedOnce(g: Stage, isStdout: bool, end: ReadEnd)
    ensures Paused(Paused(g, true), true) == Paused(g, true) && Paused(g, true).paused
    ensures EndedBy(g, isStdout, end).paused == g.paused
  {
  }

  /** A stage paused while both pipes were to be read: at the first, or at the second, with the first perhaps ended. */
  lemma TwoReads(m0: map<U32, Stage>, m1: map<U32, Stage>, m2: map<U32, Stage>, id: U32, out: ReadEnd, err: ReadEnd,
                 room1: bool, room2: bool)
    requires id in m0 && !m0[id].paused && m1 == AfterOne(m0, id, true, out, room1)
    requires if id in m1 then m2 == AfterOne(m1, id, false, err, room2) && (room2 ==> room1) else m2 == m1
    ensures if id in m2 && m2[id].paused
            then (m2 == m0[id := Paused(m0[id], true)] || m2 == m0[id := Paused(EndedBy(m0[id], true, out), true)]) && id in m1 && !room2
            else m2 == AfterBothReads(m0, id, out, err)
  {
    hide AfterOne, AfterReads, EndedBy, Paused;
    OneRead(m0, m1, id, true, out, room1);
    PausedOnce(m0[id], true, out);
    if id in m1 {
      OneRead(m1, m2, id, false, err, room2);
      PausedOnce(m1[id], false, err);
    }
  }

  /** What the world around a frame does: what becomes of an OPEN, and what the pipes of a resumed stage hold. */
  datatype World = World(start: Start, out: seq<Byte>, outEnd: ReadEnd, err: seq<Byte>, errEnd: ReadEnd)

  datatype Event =
    | FrameArrives(f: Frame, world: World)
    | PipeReadable(id: U32, isStdout: bool, available: seq<Byte>, end: ReadEnd)
    | PipeWritable(id: U32)
    | ChildExits(id: U32, status: ExitStatus)

  function OutputChannel(isStdout: bool): Channel {
    if isStdout then Stdout else Stderr
  }

  /** What comes of an OPEN that the session has announced: `at` is the session then. */
  predicate Opened(at: Endpoint, id: U32, request: OpenRequest, start: Start, stages: map<U32, Stage>, stages': map<U32, Stage>, ep': Endpoint) {
    if request.argv == [] || start.CannotStart? then
      stages' == stages && ep' == CallSendExit(at, id, ExitStatus(Exited, 127)).ep
    else if start.Refused? then
      && stages' == stages
      && ep' == CallSendExit(CallSendData(at, id, start.diagnostic, false, Stderr).ep, id, ExitStatus(Exited, 126)).ep
    else
      && ep' == at && id in stages'
      && stages' == stages[id := NewStage().(exited := start.gone, status := stages'[id].status)]
  }

  /** What comes of the stages when a paused stage is read again: paused anew, with stdout perhaps ended, or read out. */
  predicate ReadAgain(stages: map<U32, Stage>, id: U32, outEnd: ReadEnd, errEnd: ReadEnd, stages': map<U32, Stage>)
    requires id in stages
  {
    var awake := Awake(stages, id);
    if id in stages' && stages'[id].paused
    then stages' == awake[id := Paused(awake[id], true)] || stages' == awake[id := Paused(EndedBy(awake[id], true, outEnd), true)]
    else stages' == AfterBothReads(awake, id, outEnd, errEnd)
  }

  /** What a frame does: the session's step, then what its callback has the runner do. */
  ghost predicate FrameHandled(f: Frame, world: World, s: Ledger, s': Ledger) {
    var o := DispatchFrame(s.session, f);
    if Interpret(f).None? || o.ep.failed then s' == s.(session := o.ep)
    else match Interpret(f).value
      case OpenMsg(id, request) => Opened(o.ep, id, request, world.start, s.stages, s'.stages, s'.session)
      case DataMsg(id, end, _, bytes) =>
        if id in s.stages then id in s'.stages && Drains(Joined(s.stages[id], bytes, end), s'.stages[id])
        else s' == s.(session := o.ep)
      case CreditMsg(id, _) =>
        if o.calls != [] && id in s.stages && s.stages[id].paused
        then ReadAgain(s.stages, id, world.outEnd, world.errEnd, s'.stages)
        else s' == s.(session := o.ep)
      case _ => s' == s.(session := o.ep)
  }

  /** What each event does. */
  ghost predicate Handles(e: Event, s: Ledger, s': Ledger) {
    match e
    case FrameArrives(f, world) => if s.session.failed then s' == s else FrameHandled(f, world, s, s')
    case PipeReadable(id, isStdout, _, end) =>
      if id in s.stages then exists room :: s'.stages == AfterOne(s.stages, id, isStdout, end, room) else s' == s
    case PipeWritable(id) =>
      if id in s.stages then id in s'.stages && Drains(s.stages[id], s'.stages[id]) && GrantedFor(s, s', id) else s' == s
    case ChildExits(id, status) =>
      if id !in s.stages then s' == s
      else if s.stages[id].stdoutOpen || s.stages[id].stderrOpen
      then s' == s.(stages := s.stages[id := s.stages[id].(exited := true, status := status)])
      else id !in s'.stages && s'.session == CallSendExit(s.session, id, status).ep
  }

  class NodeStageRunner {
    var session: Endpoint
    var stages: map<U32, Stage>
    var sent: seq<Msg>
    var passed: seq<Passed>
    var grants: seq<(U32, nat)>
    var pipes: Pipes

    constructor (window: nat)
      requires window > 0
      ensures Valid() && !session.failed && session.window == window && stages == map[] && grants == [] && pipes == Pipes({}, map[])
    {
      session := NewEndpoint(Node, window);
      stages, sent, passed, grants, pipes := map[], [], [], [], Pipes({}, map[]);
    }

    function State(): Ledger
      reads this
    {
      Ledger(session, stages, grants, pipes)
    }

    ghost predicate Valid()
      reads this
    {
      Healthy(session, stages, {}) && Balanced(State())
    }

    predicate StreamWritable(id: U32)
      reads this
    {
      HasRoom(session, id)
    }

    method SendData(id: U32, bytes: seq<Byte>, channel: Channel)
      modifies this`session, this`sent, this`passed
      ensures session == CallSendData(old(session), id, bytes, false, channel).ep
      ensures sent == old(sent) + CallSendData(old(session), id, bytes, false, channel).msgs
      ensures passed == old(passed) + [Passed(id, channel, bytes)]
    {
      var o := CallSendData(session, id, bytes, false, channel);
      session, sent := o.ep, sent + o.msgs;
      passed := passed + [Passed(id, channel, bytes)];
    }

    method SendExit(id: U32, status: ExitStatus)
      modifies this`session, this`sent
      ensures session == CallSendExit(old(session), id, status).ep
      ensures sent == old(sent) + CallSendExit(old(session), id, status).msgs
    {
      var o := CallSendExit(session, id, status);
      session, sent := o.ep, sent + o.msgs;
    }

    method Consume(id: U32, n: nat)
      modifies this`session, this`sent, this`grants
      ensures session == CallConsume(old(session), id, n).ep
      ensures sent == old(sent) + CallConsume(old(session), id, n).msgs
      ensures grants == old(grants) + [(id, n)]
    {
      var o := CallConsume(session, id, n);
      session, sent := o.ep, sent + o.msgs;
      grants := grants + [(id, n)];
    }

    method FinishIfDone(id: U32)
      requires MayBeOver(session, stages, id) && Balanced(State())
      modifies this`session, this`sent, this`stages
      ensures Valid() && session.failed == old(session.failed) && Evolves(old(State()), State())
      ensures stages == if old(id in stages && Over(stages[id])) then old(stages) - {id} else old(stages)
      ensures session == if old(id in stages && Over(stages[id])) then CallSendExit(old(session), id, old(stages[id].status)).ep else old(session)
    {
      if id in stages && Over(stages[id]) {
        ExitKeeps(session, stages, id, stages[id].status);
        CallsKeepKnown(session, id, [], Stdout, stages[id].status, 0);
        hide Healthy, Balanced, EvolvesBut, CallSendExit;
        SendExit(id, stages[id].status);
        stages := stages - {id};
        OneGoes(old(State()), State(), id);
      } else {
        Settle(session, stages, id);
        hide Healthy, Balanced, EvolvesBut;
        EvolvesRefl(State());
      }
    }

    /** `onReadable`: forwards the pipe's bytes while the stream is writable, else suspends reading. `taken` of the
        available bytes went to the session; fewer than all only when the stage had to be paused. The session may report
        the stream writable from inside `sendData`; the stage is not paused then, so there is nothing to resume. */
    method OnReadable(id: U32, isStdout: bool, available: seq<Byte>, end: ReadEnd) returns (taken: nat)
      requires Valid()
      modifies this
      ensures Valid() && session.failed == old(session.failed) && taken <= |available| && Evolves(old(State()), State())
      ensures PassedOn(passed, id, OutputChannel(isStdout)) == PassedOn(old(passed), id, OutputChannel(isStdout)) + available[..taken]
      ensures PassedOn(passed, id, OutputChannel(!isStdout)) == PassedOn(old(passed), id, OutputChannel(!isStdout))
      ensures id in old(stages) && taken < |available| ==> id in stages && stages[id].paused && !StreamWritable(id)
      ensures grants == old(grants) && pipes == old(pipes) && old(passed) <= passed
      ensures id in old(stages) ==>
                var room := HasRoom(Replay(old(session), passed[|old(passed)|..]), id);
                stages == AfterOne(old(stages), id, isStdout, end, room) && (room ==> taken == |available|)
      ensures id !in old(stages) ==> id !in stages && taken == 0 && State() == old(State())
      ensures old(id in stages && !StreamWritable(id)) ==> id in stages && stages[id].paused && taken == 0 && session == old(session)
      ensures var ep := Replay(old(session), passed[|old(passed)|..]);
              session == if id in old(stages) && id !in stages then CallSendExit(ep, id, old(stages)[id].status).ep else ep
    {
      hide Healthy, PassedOn, Balanced, EvolvesBut, CallSendData, CallSendExit, Replay, AfterReads;
      taken := 0;
      if id !in stages {
        EvolvesRefl(State());
        ReplayNothing(session);
        assert passed[|passed|..] == [];
        return;
      }
      var room;
      taken, room := ReadWhileRoom(id, isStdout, available);
      ghost var drained := State();
      if !room {
        FullStage(session, stages, id);
        PauseKeeps(session, stages, id, true, {});
        assert {} - {id} == {};
        stages := stages[id := Paused(stages[id], true)];
        OneChanges(drained, State(), id);
        EvolvesOn(old(State()), drained, State());
        return;
      }
      if !end.WouldBlock? {
        CloseReader(id, isStdout);
        EvolvesOn(old(State()), drained, State());
      } else {
        NotOver(session, stages, id);
      }
      ghost var ready := State();
      assert stages == old(stages)[id := EndedBy(old(stages)[id], isStdout, end)];
      FinishIfDone(id);
      EvolvesOn(old(State()), ready, State());
      ReadsEnd(old(stages), ready.stages, stages, id, isStdout, end);
    }

    /** The reading loop: bytes go from the pipe to the session until none is at hand or the session has no room. */
    method ReadWhileRoom(id: U32, isStdout: bool, available: seq<Byte>) returns (taken: nat, room: bool)
      requires Valid() && id in stages
      modifies this`session, this`sent, this`passed
      ensures Valid() && session.failed == old(session.failed) && taken <= |available| && Evolves(old(State()), State())
      ensures PassedOn(passed, id, OutputChannel(isStdout)) == PassedOn(old(passed), id, OutputChannel(isStdout)) + available[..taken]
      ensures PassedOn(passed, id, OutputChannel(!isStdout)) == PassedOn(old(passed), id, OutputChannel(!isStdout))
      ensures old(passed) <= passed && session == Replay(old(session), passed[|old(passed)|..])
      ensures room == HasRoom(session, id) && (room ==> taken == |available|)
      ensures old(!HasRoom(session, id)) ==> taken == 0 && session == old(session)
    {
      hide Healthy, PassedOn, Balanced, EvolvesBut, CallSendData, Replay;
      taken := 0;
      ReplayNothing(session);
      assert passed[|passed|..] == [];
      EvolvesRefl(State());
      while StreamWritable(id) && taken < |available|
        invariant Valid() && session.failed == old(session.failed) && id in stages && taken <= |available|
        invariant Evolves(old(State()), State())
        invariant PassedOn(passed, id, OutputChannel(isStdout)) == PassedOn(old(passed), id, OutputChannel(isStdout)) + available[..taken]
        invariant PassedOn(passed, id, OutputChannel(!isStdout)) == PassedOn(old(passed), id, OutputChannel(!isStdout))
        invariant old(!HasRoom(session, id)) ==> taken == 0 && session == old(session)
        invariant old(passed) <= passed && session == Replay(old(session), passed[|old(passed)|..])
      {
        hide Healthy, PassedOn, Balanced, EvolvesBut, CallSendData, Replay;
        var count := OsRead(available[taken..]);
        var bytes := available[taken..][..count];
        WritableStage(session, stages, id, bytes, OutputChannel(isStdout));
        CallsKeepKnown(session, id, bytes, OutputChannel(isStdout), stages[id].status, 0);
        ghost var before := State();
        ghost var p := Passed(id, OutputChannel(isStdout), bytes);
        PassedMore(passed, p, id, OutputChannel(isStdout));
        PassedMore(passed, p, id, OutputChannel(!isStdout));
        ReplayMore(old(session), passed[|old(passed)|..], p);
        assert (passed + [p])[|old(passed)|..] == passed[|old(passed)|..] + [p];
        SendData(id, bytes, OutputChannel(isStdout));
        NothingMoves(before, State());
        EvolvesOn(old(State()), before, State());
        assert available[..taken] + bytes == available[..taken + count];
        taken := taken + count;
      }
      room := StreamWritable(id);
    }

    method OsRead(bytes: seq<Byte>) returns (count: nat)
      requires bytes != []
      ensures 0 < count <= |bytes| && count <= READ_SIZE
    {
      var any: nat := *;
      var most := if |bytes| < READ_SIZE then |bytes| else READ_SIZE;
      count := if 0 < any < most then any else most;
    }

    method CloseReader(id: U32, isStdout: bool)
      requires Valid() && id in stages
      modifies this`stages
      ensures MayBeOver(session, stages, id) && Balanced(State()) && Evolves(old(State()), State())
      ensures stages == old(stages)[id := WithoutReader(old(stages[id]), isStdout)]
      ensures stages[id].stdoutOpen == (old(stages[id].stdoutOpen) && !isStdout)
      ensures stages[id].stderrOpen == (old(stages[id].stderrOpen) && isStdout)
    {
      hide Healthy, Balanced, EvolvesBut, MayBeOver;
      CloseReaderKeeps(session, stages, id, isStdout);
      stages := stages[id := WithoutReader(stages[id], isStdout)];
      OneChanges(old(State()), State(), id);
    }

    method OnStageExit(id: U32, status: ExitStatus)
      requires Valid()
      modifies this
      ensures Valid() && session.failed == old(session.failed) && Evolves(old(State()), State())
      ensures id in stages ==> stages[id].exited && stages[id].status == status && (stages[id].stdoutOpen || stages[id].stderrOpen)
      ensures id in old(stages) ==> (id in stages <==> old(stages[id].stdoutOpen || stages[id].stderrOpen))
      ensures id in old(stages) && id !in stages ==> session == CallSendExit(old(session), id, status).ep
      ensures id in old(stages) && id in stages ==>
                State() == old(State()).(stages := old(stages)[id := old(stages[id]).(exited := true, status := status)])
      ensures id !in old(stages) ==> State() == old(State())
    {
      hide Healthy, MayBeOver, Balanced, EvolvesBut, CallSendExit;
      if id !in stages {
        EvolvesRefl(State());
        return;
      }
      ReapKeeps(session, stages, id, status);
      stages := stages[id := stages[id].(exited := true, status := status)];
      OneChanges(old(State()), State(), id);
      ghost var reaped := State();
      FinishIfDone(id);
      EvolvesOn(old(State()), reaped, State());
    }

    /** The session reports that the stream drained below its window: a paused stage is read again at once. Unless it is
        paused anew, or finished by then, all that was available on both pipes has been handed to the session. */
    method ResumeReads(id: U32, out: seq<Byte>, outEnd: ReadEnd, err: seq<Byte>, errEnd: ReadEnd)
      requires Healthy(session, stages, {id}) && Balanced(State())
      requires !session.failed && id in stages ==>
                 && (stages[id].reading <==> !stages[id].paused)
                 && StageOk(session, stages[id := Paused(stages[id], false)], id)
      modifies this
      ensures Valid() && session.failed == old(session.failed) && Evolves(old(State()), State())
      ensures old(id in stages && stages[id].paused) && id in stages && !stages[id].paused ==>
                && PassedOn(passed, id, Stdout) == PassedOn(old(passed), id, Stdout) + out
                && PassedOn(passed, id, Stderr) == PassedOn(old(passed), id, Stderr) + err
      ensures old(id in stages && stages[id].paused) ==> ReadAgain(old(stages), id, outEnd, errEnd, stages)
      ensures old(id in stages && stages[id].paused) && id in stages && stages[id].paused ==> !StreamWritable(id)
      ensures !old(id in stages && stages[id].paused) ==> State() == old(State()) && sent == old(sent)
    {
      hide Healthy, PassedOn, StageOk, Balanced, EvolvesBut, Replay, CallSendExit, AfterOne, AfterBothReads, EndedBy, HasRoom;
      if id !in stages || !stages[id].paused {
        NothingToResume(session, stages, id);
        EvolvesRefl(State());
        return;
      }
      PauseKeeps(session, stages, id, false, {id});
      assert {id} - {id} == {};
      stages := stages[id := Paused(stages[id], false)];
      OneChanges(old(State()), State(), id);
      ghost var awake := State();
      var first := OnReadable(id, true, out, outEnd);
      ghost var between, room1 := State(), HasRoom(Replay(awake.session, passed[|old(passed)|..]), id);
      ghost var log := passed;
      EvolvesOn(old(State()), awake, between);
      var second := OnReadable(id, false, err, errEnd);
      EvolvesOn(old(State()), between, State());
      assert out[..|out|] == out && err[..|err|] == err;
      ghost var room2 := HasRoom(Replay(between.session, passed[|log|..]), id);
      TwoReads(awake.stages, between.stages, stages, id, outEnd, errEnd, room1, room2);
    }

    /** Writes what the stage's pipe takes, granting credit for exactly what leaves the buffer: what the pipe took, and the
        rest if it broke. */
    method DrainStdin(id: U32)
      requires MidDrain(session, stages, id) && Balanced(State())
      modifies this`session, this`sent, this`stages, this`grants, this`pipes
      ensures DrainDone(old(State()), State(), id) && Valid()
    {
      hide DrainedSince, MidDrain, Healthy, CallConsume, Balanced, EvolvesBut, Granted, Takes, Drains;
      MidStage(session, stages, id);
      DrainStarts(State(), id);
      while stages[id].stdinOpen && stages[id].stdinBuffer != []
        invariant id in stages && DrainedSince(old(State()), State(), id)
        decreases |stages[id].stdinBuffer|
      {
        hide DrainedSince, MidDrain, Healthy, CallConsume, Balanced, EvolvesBut, Granted, Takes, Drains;
        var stage := stages[id];
        ghost var before := State();
        var wrote := OsWrite(id, stage.stdinBuffer);
        if wrote.Wrote? && wrote.count > 0 {
          Consume(id, wrote.count);
          stages := stages[id := Fed(stage, wrote.count)];
          DrainFeeds(old(State()), before, State(), id, wrote.count);
        } else if wrote.Wrote? || wrote.WriteWouldBlock? {
          break;
        } else {
          Consume(id, |stage.stdinBuffer|);
          stages := stages[id := Dropped(stage)];
          DrainBreaks(old(State()), before, State(), id);
          return;
        }
      }
      ghost var before := State();
      stages := stages[id := AfterDrain(stages[id])];
      DrainRests(old(State()), before, State(), id);
    }

    /** A write to the stdin of stage `id`: some of the bytes, none for now, or an error. The pipe records it. */
    method OsWrite(id: U32, bytes: seq<Byte>) returns (r: WriteResult)
      modifies this`pipes
      ensures r.Wrote? ==> r.count <= |bytes|
      ensures pipes == if r.WriteFailed? then Failing(old(pipes), id)
                       else if r.Wrote? && r.count > 0 then Taking(old(pipes), id, bytes[..r.count]) else old(pipes)
    {
      var outcome: WriteResult := *;
      r := if outcome.Wrote? && outcome.count > |bytes| then Wrote(|bytes|) else outcome;
      if r.WriteFailed? {
        pipes := Failing(pipes, id);
      } else if r.Wrote? && r.count > 0 {
        pipes := Taking(pipes, id, bytes[..r.count]);
      }
    }

    method OnStdinWritable(id: U32)
      requires Valid()
      modifies this
      ensures Valid() && session.failed == old(session.failed) && Evolves(old(State()), State())
      ensures id !in old(stages) ==> State() == old(State())
      ensures id in old(stages) ==>
                id in stages && Drains(old(stages[id]), stages[id]) && GrantedFor(old(State()), State(), id)
    {
      hide Healthy, MidDrain, Balanced, EvolvesBut, Drains, GrantedFor;
      if id in stages {
        DrainBegins(session, stages, id);
        DrainStdin(id);
      } else {
        EvolvesRefl(State());
      }
    }

    /** The session delivered stdin bytes; they are outstanding and not yet buffered. */
    method OnData(id: U32, bytes: seq<Byte>, end: bool)
      requires Delivered(session, stages, id, bytes) && Balanced(State())
      modifies this
      ensures Valid() && session.failed == old(session.failed) && Evolves(old(State()), State())
      ensures id !in old(stages) ==> State() == old(State())
      ensures id in old(stages) ==>
                && id in stages
                && Drains(Joined(old(stages[id]), bytes, end), stages[id])
                && stages[id].received == old(stages[id].received) + bytes
                && stages[id].endPending == (old(stages[id].endPending) || end)
                && Granted(grants, id) == Granted(old(grants), id) + old(|stages[id].stdinBuffer|) + |bytes| - |stages[id].stdinBuffer|
    {
      hide Delivered, MidDrain, Healthy, Balanced, EvolvesBut, Granted;
      if id !in stages {
        NobodyThere(session, stages, id, bytes);
        EvolvesRefl(State());
        return;
      }
      DeliveryJoins(session, stages, id, bytes, end);
      JoinsEvolves(stages[id], bytes, end);
      stages := stages[id := Joined(stages[id], bytes, end)];
      OneChanges(old(State()), State(), id);
      ghost var joined := State();
      DrainStdin(id);
      EvolvesOn(old(State()), joined, State());
    }

    /** A new stream: refused with 126 and a diagnostic, unable to start with 127, or a running stage, which may be gone
        by the time it is watched. */
    method OnOpen(id: U32, request: OpenRequest, start: Start)
      requires Valid() && id !in stages
      requires !session.failed ==> id in session.streams && session.streams[id] == NewStream(session.window)
      requires Known(session, id) && Granted(grants, id) == 0 && Untouched(pipes, id)
      modifies this
      ensures Valid() && session.failed == old(session.failed) && EvolvesBut(old(State()), State(), {id})
      ensures Opened(old(session), id, request, start, old(stages), stages, session)
      ensures request.argv != [] && start.Runs? ==>
                var g := stages[id];
                && g.stdinOpen && g.stdoutOpen && g.stderrOpen && !g.endPending && !g.paused && g.reading && !g.writing && !g.broken
                && g.stdinBuffer == [] && g.received == [] && g.fed == [] && g.exited == start.gone
    {
      hide Healthy, PassedOn, Balanced, Evolves, EvolvesBut, CallSendExit, CallSendData, Granted;
      if request.argv == [] || start.CannotStart? {
        ExitAside(session, stages, id, ExitStatus(Exited, 127));
        CallsKeepKnown(session, id, [], Stderr, ExitStatus(Exited, 127), 0);
        SendExit(id, ExitStatus(Exited, 127));
        AsideEvolves(old(State()), State(), id);
      } else if start.Refused? {
        SendAside(session, stages, id, start.diagnostic, Stderr);
        CallsKeepKnown(session, id, start.diagnostic, Stderr, ExitStatus(Exited, 126), 0);
        SendData(id, start.diagnostic, Stderr);
        ExitAside(session, stages, id, ExitStatus(Exited, 126));
        CallsKeepKnown(session, id, start.diagnostic, Stderr, ExitStatus(Exited, 126), 0);
        SendExit(id, ExitStatus(Exited, 126));
        AsideEvolves(old(State()), State(), id);
      } else {
        StartKeeps(session, stages, id);
        stages := stages[id := NewStage()];
        OneStarts(old(State()), State(), id);
        if start.gone {
          var status: ExitStatus := *;
          ghost var started := State();
          OnStageExit(id, status);
          StartedEvolves(old(State()), started, State(), id);
        }
      }
    }

    /** One frame from the controller: the session's step, then the callback it makes. */
    method OnFrame(f: Frame, world: World)
      requires Valid() && !session.failed
      modifies this
      ensures Valid() && Evolves(old(State()), State())
      ensures FrameHandled(f, world, old(State()), State())
      ensures DispatchFrame(old(session), f).ep.failed ==> session.failed && stages == old(stages)
      ensures Interpret(f).Some? && Interpret(f).value.DataMsg? && !session.failed ==>
                var m := Interpret(f).value;
                m.id in old(stages) ==>
                  && m.id in stages && stages[m.id].received == old(stages)[m.id].received + m.bytes
                  && stages[m.id].endPending == (old(stages)[m.id].endPending || m.end)
    {
      hide Healthy, PassedOn, StageOk, Delivered, Balanced, Evolves, EvolvesBut, ReceiveOpen, ReceiveData, ReceiveCredit, Known, Granted;
      var o := DispatchFrame(session, f);
      if Interpret(f).None? {
        FailedIsHealthy(session, stages);
        session := o.ep;
        NothingMoves(old(State()), State());
        return;
      }
      var m := Interpret(f).value;
      InterpretIff(f, m);
      Arrives(session, stages, m);
      DispatchKeepsKnown(session, m);
      if m.OpenMsg? { UnknownOwesNothing(State(), m.id); }
      if m.CreditMsg? { CreditLeaves(session, stages, m.id, m.delta); }
      session, sent := o.ep, sent + o.msgs;
      NothingMoves(old(State()), State());
      if session.failed {
        return;
      }
      ghost var stepped := State();
      match m {
      case OpenMsg(id, request) =>
        OnOpen(id, request, world.start);
        AnnouncedEvolves(old(State()), stepped, State(), id);
      case DataMsg(id, end, _, bytes) =>
        if o.calls != [] {
          OnData(id, bytes, end);
          EvolvesOn(old(State()), stepped, State());
        }
      case CreditMsg(id, _) =>
        if o.calls != [] {
          ResumeReads(id, world.out, world.outEnd, world.err, world.errEnd);
          EvolvesOn(old(State()), stepped, State());
        }
      case _ =>
      }
    }

    /** After a protocol error no frame is dispatched. */
    method Handle(event: Event)
      requires Valid()
      modifies this
      ensures Valid() && Evolves(old(State()), State()) && Handles(event, old(State()), State())
    {
      hide Healthy, PassedOn, Balanced, Evolves, EvolvesBut, AfterOne, FrameHandled, Replay, GrantedFor, Drains, CallSendExit, HasRoom;
      EvolvesRefl(State());
      ghost var s := State();
      match event
      case FrameArrives(f, world) =>
        if !session.failed { OnFrame(f, world); }
      case PipeReadable(id, isStdout, available, end) =>
        var taken := OnReadable(id, isStdout, available, end);
      case PipeWritable(id) => OnStdinWritable(id);
      case ChildExits(id, status) => OnStageExit(id, status);
    }

    /** Any sequence of frames and pipe events, each handled in turn; the trace shows the states in between. */
    method Run(events: seq<Event>) returns (ghost trace: seq<Ledger>)
      requires Valid()
      modifies this
      ensures Valid() && Evolves(old(State()), State())
      ensures |trace| == |events| + 1 && trace[0] == old(State()) && trace[|events|] == State()
      ensures forall k :: 0 <= k < |events| ==>
                Healthy(trace[k].session, trace[k].stages, {}) && Balanced(trace[k]) && Handles(events[k], trace[k], trace[k + 1])
    {
      hide Healthy, Balanced, Evolves, Handles;
      EvolvesRefl(State());
      trace := [State()];
      for k := 0 to |events|
        invariant Valid() && Evolves(old(State()), State())
        invariant |trace| == k + 1 && trace[0] == old(State()) && trace[k] == State()
        invariant forall j :: 0 <= j < k ==>
                    Healthy(trace[j].session, trace[j].stages, {}) && Balanced(trace[j]) && Handles(events[j], trace[j], trace[j + 1])
      {
        hide Healthy, Balanced, Evolves, Handles;
        ghost var before := State();
        Handle(events[k]);
        EvolvesOn(old(State()), before, State());
        trace := trace + [State()];
      }
    }
  }
}
