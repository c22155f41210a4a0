/** The fan-out run: a sliding window of processes with retries, a deadline, cancellation and fail-fast. Process
    outcomes, and whether a child is already gone when it is first watched, are arbitrary. */
module Scheduler {
  import opened Options
  import opened SchedulerSpec
  import opened SchedulerFacts

  datatype Pipe = Out | Err | In

  function Close(w: Worker, pipe: Pipe): Worker {
    w.(outClosed := w.outClosed || pipe.Out?, errClosed := w.errClosed || pipe.Err?, inClosed := w.inClosed || pipe.In?)
  }

  /** What the reactor may report. An event that cannot happen in the present state is skipped. */
  datatype Event =
    | ChildExits(i: nat, code: Option<int>)
    | PipeCloses(i: nat, pipe: Pipe)
    | TimersCollected(batch: set<nat>)
    | BackoffFires(i: nat)
    | DeadlineFires
    | Interrupted
    | DrainExpires

  /** Failed by itself, not because a sibling's failure stopped it. */
  predicate FailedAlone(w: Worker) {
    !w.marks.aborted && (w.ExitCode() != 0 || w.marks.timedOut)
  }

  /** Nothing is left of the attempt before: no marks, no exit, open pipes. */
  predicate Afresh(w: Worker, before: Worker) {
    && w.attempt == before.attempt && w.spawns == before.spawns
    && !w.counted && !w.awaiting && !w.live && !w.exited && !w.outClosed && !w.errClosed && !w.inClosed
    && w.marks == Marks(false, false, false) && !w.startFailed && w.code == None && !w.transient
  }

  /** Worker `k` is the last of the first `n` that failed by itself. */
  ghost predicate LastFailure(workers: seq<Worker>, n: nat, k: int) {
    0 <= k < n <= |workers| && FailedAlone(workers[k]) && forall j :: k < j < n ==> !FailedAlone(workers[j])
  }

  /** A client failed by itself if no sibling's failure stopped it and it timed out, could not start, was lost, or exited
      with a code other than zero. The failure that aborts a fail-fast run is one of these. */
  lemma FailedAloneMeans(c: Config, s: Sched)
    requires Settled(c, s)
    ensures forall i :: 0 <= i < |s.workers| ==>
              (FailedAlone(s.workers[i]) <==>
                 !s.workers[i].marks.aborted
                 && (s.workers[i].marks.timedOut || s.workers[i].startFailed || s.workers[i].code != Some(0)))
    ensures s.aborted ==> exists i :: 0 <= i < |s.workers| && s.workers[i].counted &&
                            (s.workers[i].marks.timedOut || s.workers[i].startFailed || s.workers[i].code != Some(0))
  {
    if s.aborted { AbortHasCulprit(c, s); }
  }

  /** One client came through without failing, timing out or being aborted. */
  predicate Succeeded(w: Worker) {
    w.ExitCode() == 0 && !w.marks.timedOut && !w.marks.aborted
  }

  lemma ClosedShape(w: Worker, pipe: Pipe)
    ensures var w' := Close(w, pipe);
            && w' == w.(outClosed := w'.outClosed, errClosed := w'.errClosed, inClosed := w'.inClosed)
            && w'.live == w.live && w'.exited == w.exited
  {
  }

  lemma CloseOnly(w: Worker, pipe: Pipe)
    ensures var w' := Close(w, pipe);
            && w'.outClosed == (w.outClosed || pipe.Out?) && w'.errClosed == (w.errClosed || pipe.Err?)
            && w'.inClosed == (w.inClosed || pipe.In?)
  {
  }

  lemma SetAt(s: Sched, i: nat, w: Worker)
    requires i < |s.workers|
    ensures |Set(s, i, w).workers| == |s.workers| && Set(s, i, w).workers[i] == w
  {
  }

  /** What each event does to the run. */
  ghost predicate Handles(c: Config, e: Event, s: Sched, s': Sched) {
    match e
    case ChildExits(i, code) =>
      if i < |s.workers| && s.workers[i].live
      then s.inFlight > 0 && exists s2 :: Accounted(c, Reaped(s, i, code), i, s2) && Fills(s2, s')
      else s' == s
    case PipeCloses(i, pipe) =>
      if i < |s.workers| && !s.workers[i].counted && !Idle(s, i)
      then Accounted(c, Set(s, i, Close(s.workers[i], pipe)), i, s')
      else s' == s
    case TimersCollected(batch) => if s.due == {} && batch <= s.timers then s' == s.(due := batch) else s' == s
    case BackoffFires(i) =>
      if i in s.due
      then i < |s.workers| && if s.workers[i].counted then s' == s.(due := s.due - {i}) else Fills(Requeued(s, i), s')
      else s' == s
    case DeadlineFires => TearsDown(s, s', Deadline)
    case Interrupted => if s.cancelled then s' == s else TearsDown(s, s', Cancel)
    case DrainExpires => if s.drainArmed then s'.remaining == 0 else s' == s
  }

  class WorkerRun {
    const config: Config
    var workers: seq<Worker>
    var remaining: nat
    var nextToSpawn: nat
    var inFlight: nat
    var retryQueue: seq<nat>
    var retryTimers: set<nat>
    var due: set<nat>
    var cancelled: bool
    var aborted: bool
    var anyTimedOut: bool
    var stopRequested: bool
    var drainArmed: bool
    var filling: bool

    /** Zero concurrency means every worker at once. */
    constructor (count: nat, concurrency: nat, failFast: bool, maxRetries: int)
      requires count > 0
      ensures fresh(this) && Full(config, State(), -1) && Guarded(State()) && !filling
      ensures config == Config(if concurrency == 0 then count else concurrency, failFast, maxRetries)
      ensures |workers| == count && forall i :: 0 <= i < count ==> workers[i] == NewWorker()
      ensures forall i :: 0 <= i < count ==>
                && !workers[i].counted && !workers[i].awaiting && !workers[i].exited && !workers[i].live
                && workers[i].attempt == workers[i].spawns == 0 && !workers[i].startFailed && workers[i].code == None
                && workers[i].marks == Marks(false, false, false)
    {
      config := Config(if concurrency == 0 then count else concurrency, failFast, maxRetries);
      workers := seq(count, _ => NewWorker());
      remaining, nextToSpawn, inFlight := count, 0, 0;
      retryQueue, retryTimers, due := [], {}, {};
      cancelled, aborted, anyTimedOut, stopRequested, drainArmed, filling := false, false, false, false, false, false;
      new;
      FreshRun(config, State(), count);
    }

    function State(): Sched
      reads this
    {
      Sched(workers, remaining, nextToSpawn, inFlight, retryQueue, retryTimers, due,
            cancelled, aborted, anyTimedOut, stopRequested, drainArmed)
    }

    ghost predicate Valid()
      reads this
    {
      Settled(config, State()) && !filling
    }

    /** `account`: retry a transient failure, else count the worker off, and abort the run on a final failure. */
    method Account(i: nat)
      requires i < |workers| && Base(config, State(), i)
      requires workers[i].live || workers[i].exited
      requires i in retryQueue && !Skips(workers[i]) ==> !Retries(config, State(), workers[i])
      modifies this
      ensures filling == old(filling)
      ensures Base(config, State(), -1) && Accounted(config, old(State()), i, State())
      decreases if aborted then 0 else 1, 0
    {
      hide Base, TearsDown, Accounted;
      AccountCases(config, State(), i);
      var worker := workers[i];
      ghost var s := State();
      if worker.counted || worker.awaiting || !worker.Complete() {
        AccountSkips(config, s, i);
        return;
      }
      AccountCounts(config, s, i);
      if !cancelled && !aborted && worker.attempt < config.maxRetries && worker.Retryable() {
        AccountRetries(config, s, i);
        ScheduleRetry(i);
        return;
      }
      workers := workers[i := worker.(counted := true)];
      remaining := remaining - 1;
      if remaining == 0 {
        stopRequested := true;
        return;
      }
      if config.failFast && !aborted && !cancelled && worker.Failure() {
        AccountAborts(config, s, i);
        aborted := true;
        Teardown(FailFast);
      }
    }

    method ScheduleRetry(i: nat)
      requires i < |workers|
      modifies this`workers, this`retryTimers
      ensures State() == Retried(old(State()), i)
    {
      var worker := workers[i];
      workers := workers[i := worker.(awaiting := true, attempt := worker.attempt + 1)];
      retryTimers := retryTimers + {i};
    }

    /** Ends a worker that has nothing running: marked, every end closed, accounted for. */
    method Finish(i: nat, reason: Reason, ghost m: Sched)
      requires Base(config, State(), i) && i < nextToSpawn <= |workers| && !workers[i].live
      requires Raised(m, reason) && Sweep(m, State(), reason) && i < |m.workers| && Idle(m, i)
      modifies this
      ensures filling == old(filling)
      ensures Base(config, State(), -1) && Sweep(m, State(), reason)
      ensures Grows(old(State()), State(), reason) && i < |workers| && workers[i].counted
      ensures Frame(old(State()), State())
      decreases if aborted then 0 else 1, 1
    {
      hide Base, TearsDown, Sweep, Idle, Grows, Accounted, PlaceOk, Finished;
      ghost var s := State();
      RaisedStays(m, s, reason);
      Placed(config, s, i, i);
      FinishKeepsBase(config, s, i, reason);
      workers := workers[i := Finished(workers[i], reason)];
      ReadyToCount(config, s, i, reason);
      Account(i);
      FinishAccounted(config, m, s, State(), i, reason);
      AfterFinish(config, m, s, State(), i, reason);
      FrameFrom(config, s, State(), reason);
    }

    method Teardown(reason: Reason)
      requires Base(config, State(), -1) && (reason.FailFast? ==> aborted)
      modifies this
      ensures filling == old(filling)
      ensures Base(config, State(), -1) && TearsDown(old(State()), State(), reason)
      decreases if aborted then 0 else 1, 4
    {
      hide Base, TearsDown, Sweep, Handled, Grows, Raised;
      if reason.Cancel? {
        cancelled := true;
      } else if reason.Deadline? {
        anyTimedOut := true;
      }
      retryTimers := {};
      ghost var m := State();
      SweepBegins(config, old(State()), m, reason);
      FinishQueue(reason, m);
      ghost var q := State();
      FinishPending(reason, m);
      ghost var p := State();
      StopRunning(reason, m);
      SweepIsDone(config, old(State()), m, q, p, State(), reason);
      drainArmed := true;
    }

    /** Workers reset and queued for a respawn end now. The list is walked as it was when the walk began. */
    method FinishQueue(reason: Reason, ghost m: Sched)
      requires Base(config, m, -1) && m == State() && Sweep(m, m, reason) && Raised(m, reason)
      modifies this
      ensures filling == old(filling) && Frame(old(State()), State())
      ensures Base(config, State(), -1) && Sweep(m, State(), reason) && retryQueue == []
      ensures |workers| == |m.workers| && (forall i :: i in m.queue && i < |workers| ==> workers[i].counted)
      ensures forall i :: m.next <= i < nextToSpawn <= |workers| ==> workers[i].counted
      decreases if aborted then 0 else 1, 2
    {
      hide Base, Sweep;
      Bounds(config, m, -1);
      var queue := retryQueue;
      var k := 0;
      while k < |queue|
        invariant k <= |queue| && filling == old(filling)
        invariant Base(config, State(), -1) && Sweep(m, State(), reason) && Grows(m, State(), reason)
        invariant forall j :: 0 <= j < k ==> queue[j] < |workers| && workers[queue[j]].counted
        invariant Frame(old(State()), State())
      {
        hide Base, Sweep, Grows, Raised, Idle;
        var i := queue[k];
        assert i in m.queue;
        QueueMember(config, m, State(), i, reason);
        Loosen(config, State(), i);
        ghost var s := State();
        Finish(i, reason, m);
        GrowsOn(m, s, State(), reason);
        forall j | 0 <= j < k ensures queue[j] < |workers| && workers[queue[j]].counted {
          StaysCounted(s, State(), queue[j], reason);
        }
        k := k + 1;
      }
      SweptQueue(m, State(), reason);
      ClearQueue(config, State());
      retryQueue := [];
    }

    /** Pending workers never got a slot; they end without running. */
    method FinishPending(reason: Reason, ghost m: Sched)
      requires Base(config, State(), -1) && Sweep(m, State(), reason) && Raised(m, reason) && retryQueue == []
      modifies this
      ensures filling == old(filling) && Frame(old(State()), State())
      ensures Base(config, State(), -1) && Sweep(m, State(), reason) && Grows(old(State()), State(), reason)
      ensures retryQueue == [] && nextToSpawn == |workers|
      decreases if aborted then 0 else 1, 3
    {
      hide Base, Sweep, Grows, Raised, Idle;
      GrowsRefl(State(), reason);
      Bounds(config, State(), -1);
      while nextToSpawn < |workers|
        invariant filling == old(filling) && retryQueue == [] && Frame(old(State()), State())
        invariant Base(config, State(), -1) && Sweep(m, State(), reason) && Grows(old(State()), State(), reason)
        decreases |workers| - nextToSpawn
      {
        hide Base, Sweep, Grows, Raised, Idle;
        ghost var s := State();
        FinishNext(reason, m);
        GrowsOn(old(State()), s, State(), reason);
      }
    }

    method FinishNext(reason: Reason, ghost m: Sched)
      requires Base(config, State(), -1) && Sweep(m, State(), reason) && Raised(m, reason) && nextToSpawn < |workers|
      modifies this
      ensures filling == old(filling) && Frame(old(State()), State()) && nextToSpawn > old(nextToSpawn)
      ensures Base(config, State(), -1) && Sweep(m, State(), reason) && Grows(old(State()), State(), reason)
      decreases if aborted then 0 else 1, 2
    {
      hide Base, Sweep, Grows, Raised, Idle;
      var i := nextToSpawn;
      TakePending(config, State());
      SweptPending(m, State(), reason);
      nextToSpawn := nextToSpawn + 1;
      Finish(i, reason, m);
      PendingGrows(old(State()), State(), reason);
    }

    /** Backing-off workers end with their failed attempt; running ones are marked and signalled. */
    method StopRunning(reason: Reason, ghost m: Sched)
      requires Base(config, State(), -1) && Sweep(m, State(), reason) && Raised(m, reason)
      requires retryQueue == [] && nextToSpawn == |workers| == |m.workers|
      modifies this
      ensures filling == old(filling) && Frame(old(State()), State())
      ensures Base(config, State(), -1) && Sweep(m, State(), reason) && Grows(old(State()), State(), reason)
      ensures retryQueue == [] && nextToSpawn == |workers|
      ensures Handled(State(), |workers|, reason)
      decreases if aborted then 0 else 1, 3
    {
      hide Base, Sweep, Grows, Handled, Raised, Idle, Mark, Marked;
      GrowsRefl(State(), reason);
      NoneHandled(State(), reason);
      var k := 0;
      while k < |workers|
        invariant k <= |workers| && filling == old(filling) && retryQueue == [] && nextToSpawn == |workers|
        invariant Base(config, State(), -1) && Sweep(m, State(), reason) && Grows(old(State()), State(), reason)
        invariant Handled(State(), k, reason) && Frame(old(State()), State())
        decreases |workers| - k
      {
        hide Base, Sweep, Grows, Handled, Raised, Idle, Mark, Marked;
        ghost var s := State();
        StopWorker(k, reason, m);
        GrowsOn(old(State()), s, State(), reason);
        StaysHandled(s, State(), k, reason);
        k := k + 1;
      }
    }

    method StopWorker(i: nat, reason: Reason, ghost m: Sched)
      requires Base(config, State(), -1) && Sweep(m, State(), reason) && Raised(m, reason)
      requires i < nextToSpawn == |workers| == |m.workers|
      modifies this
      ensures filling == old(filling) && Frame(old(State()), State())
      ensures Base(config, State(), -1) && Sweep(m, State(), reason) && Grows(old(State()), State(), reason)
      ensures !workers[i].counted ==> Marked(workers[i], reason) && !workers[i].awaiting
      decreases if aborted then 0 else 1, 2
    {
      hide Base, Sweep, Grows, Raised, Idle, Mark, Marked;
      if workers[i].counted {
        GrowsRefl(State(), reason);
      } else if workers[i].awaiting {
        StillBackingOff(config, m, State(), i, reason);
        Loosen(config, State(), i);
        Finish(i, reason, m);
      } else {
        MarkStep(config, m, State(), i, reason);
        MarkIsMore(workers[i], reason);
        workers := workers[i := Mark(workers[i], reason)];
      }
    }

    /** `fillSlots`: starts queued, then pending workers while a slot is free. A nested call does nothing. */
    method FillSlots()
      requires Full(config, State(), -1)
      modifies this
      ensures Full(config, State(), -1) && Evolves(old(State()), State()) && filling == old(filling)
      ensures Fills(old(State()), State())
      ensures old(Guarded(State())) ==> Guarded(State())
      ensures !filling ==> Busy(config, State())
      ensures filling ==> State() == old(State())
      decreases if filling then 0 else 1, 0
    {
      hide Full, Evolves, Guarded, Busy, Fills;
      EvolvesRefl(State());
      FillsRefl(State());
      if filling {
        return;
      }
      filling := true;
      while inFlight < config.concurrency && (retryQueue != [] || nextToSpawn < |workers|)
        invariant Full(config, State(), -1) && Evolves(old(State()), State()) && filling
        invariant Fills(old(State()), State())
        invariant old(Guarded(State())) ==> Guarded(State())
        decreases |retryQueue| + |workers| - nextToSpawn
      {
        hide Full, Evolves, Guarded, Busy, Fills;
        ghost var s := State();
        StartNext();
        EvolvesOn(old(State()), s, State());
        FillsOn(old(State()), s, State());
        FullBounds(config, s);
        FullBounds(config, State());
      }
      filling := false;
      NowBusy(config, State());
    }

    method StartNext()
      requires Full(config, State(), -1) && filling
      requires inFlight < config.concurrency && (retryQueue != [] || nextToSpawn < |workers|)
      modifies this
      ensures Full(config, State(), -1) && Evolves(old(State()), State()) && filling && Fills(old(State()), State())
      ensures old(Guarded(State())) ==> Guarded(State())
      ensures |retryQueue| + old(nextToSpawn) < |old(retryQueue)| + nextToSpawn && |workers| == |old(workers)|
      decreases 0, 3
    {
      hide Full, Evolves, Guarded, StartOf, Frame, Unstarted, WorkerOk, Fills, FillsBut;
      ghost var s := State();
      FrontPlace(config, s);
      var i := Pop();
      var worker := Spawn(workers[i]);
      Install(i, worker, s);
      StartKeepsFull(config, s, worker);
      ghost var s1 := State();
      Arm(i);
      EvolvesOn(s, s1, State());
      StartFills(s, worker, State());
      StartShrinks(s, worker, State());
    }

    method Pop() returns (i: nat)
      requires retryQueue != [] || nextToSpawn < |workers|
      modifies this`retryQueue, this`nextToSpawn
      ensures i == Front(old(State())) && State() == Popped(old(State()))
    {
      if retryQueue != [] {
        i := retryQueue[0];
        retryQueue := retryQueue[1..];
      } else {
        i := nextToSpawn;
        nextToSpawn := nextToSpawn + 1;
      }
    }

    method Install(i: nat, worker: Worker, ghost s: Sched)
      requires State() == Popped(s) && i == Front(s) < |s.workers|
      modifies this`workers, this`inFlight
      ensures State() == Started(s, worker) && |workers| == |old(workers)| && workers[i] == worker
    {
      hide Popped, Front;
      workers := workers[i := worker];
      if worker.live {
        inFlight := inFlight + 1;
      }
    }

    /** Watching a started child, which may already be gone; one that could not start is complete. */
    method Arm(i: nat)
      requires i < |workers| && filling && Full(config, State(), if workers[i].live then -1 else i)
      requires (workers[i].live || workers[i].exited) && !Waits(State(), i) && nextToSpawn <= |workers|
      modifies this
      ensures Full(config, State(), -1) && Evolves(old(State()), State()) && filling && Frame(old(State()), State())
      ensures old(Guarded(State())) ==> Guarded(State())
      ensures FillsBut(old(State()), State(), i)
      decreases 0, 2
    {
      hide Full, Evolves, Guarded, Busy, FillsBut, Accounted, Reaped;
      if !workers[i].live {
        Settle(i);
        AccountFills(config, old(State()), i, State());
        return;
      }
      EvolvesRefl(State());
      NothingFills(State(), i);
      FullBounds(config, State());
      var gone: bool := *;
      if gone {
        var code: Option<int> := *;
        OnExit(i, code);
        GoneFills(config, old(State()), i, code, State());
      }
    }

    /** `account` on the one worker that may be ripe, with all it means for the run. */
    method Settle(i: nat)
      requires i < |workers| && Full(config, State(), i) && (workers[i].live || workers[i].exited)
      modifies this
      ensures filling == old(filling)
      ensures Full(config, State(), -1) && Evolves(old(State()), State()) && Frame(old(State()), State())
      ensures old(Guarded(State())) ==> Guarded(State())
      ensures old(Busy(config, State())) ==> Busy(config, State())
      ensures Accounted(config, old(State()), i, State())
      decreases if filling then 0 else 1, 0
    {
      hide Full, Evolves, Guarded, Busy, Base, Accounted, Frame;
      FullBase(config, State(), i);
      Account(i);
      AccountSettles(config, old(State()), i, State());
      AccountEvolves(config, old(State()), i, State());
    }

    /** Running a worker's command, or failing to. Its stdin may have nothing to feed. */
    method Spawn(worker: Worker) returns (r: Worker)
      ensures StartOf(worker, r) && r.spawns == worker.spawns + 1 && r.attempt == worker.attempt
      ensures || (r.live && r.exited == worker.exited && r.startFailed == worker.startFailed && r.code == worker.code)
              || (r.startFailed && r.exited && r.outClosed && r.errClosed && r.inClosed && r.live == worker.live)
    {
      var ok: bool := *;
      var noInput: bool := *;
      var transient: bool := *;
      if ok {
        r := worker.(spawns := worker.spawns + 1, live := true, inClosed := noInput, transient := transient);
      } else {
        r := worker.Shut().(spawns := worker.spawns + 1, startFailed := true);
      }
    }

    /** Collects the exit status and frees the slot. */
    method Reap(i: nat, code: Option<int>)
      requires i < |workers| && inFlight > 0
      modifies this`workers, this`inFlight
      ensures State() == Reaped(old(State()), i, code)
      ensures |workers| == |old(workers)| && workers[i] == old(workers[i]).(exited := true, live := false, code := code)
    {
      workers := workers[i := workers[i].(exited := true, live := false, code := code)];
      inFlight := inFlight - 1;
    }

    method OnExit(i: nat, code: Option<int>)
      requires Full(config, State(), -1) && i < |workers| && workers[i].live
      modifies this
      ensures Full(config, State(), -1) && Evolves(old(State()), State()) && filling == old(filling)
      ensures old(Guarded(State())) ==> Guarded(State())
      ensures !filling ==> Busy(config, State())
      ensures filling ==> Frame(old(State()), State())
      ensures old(inFlight) > 0
      ensures exists s2 :: Accounted(config, Reaped(old(State()), i, code), i, s2) && Evolves(s2, State()) && Fills(s2, State())
      ensures filling ==> Accounted(config, Reaped(old(State()), i, code), i, State())
      ensures old(Flagged(State()) && workers[i].outClosed && workers[i].errClosed && workers[i].inClosed) ==>
                i < |workers| && workers[i].counted
      decreases if filling then 0 else 1, 1
    {
      hide Full, Evolves, Guarded, Busy, Base, Reaped, Accounted, Fills;
      ghost var s := State();
      FullBase(config, s, -1);
      SlotOfLive(config, s, i, -1);
      ReapKeepsFull(config, s, i, code);
      Reap(i, code);
      ghost var s1 := State();
      Settle(i);
      EvolvesOn(s, s1, State());
      ghost var s2 := State();
      FillSlots();
      EvolvesOn(s, s2, State());
      if Flagged(s) && s1.workers[i].Complete() {
        DoomedIsCounted(config, s1, i, s2);
        StaysDone(s2, State(), i);
      }
    }

    /** End of stream or a broken pipe on one of a running worker's descriptors. */
    method OnPipeClosed(i: nat, pipe: Pipe)
      requires Valid() && i < |workers| && !workers[i].counted && !Idle(State(), i)
      modifies this
      ensures Valid() && Evolves(old(State()), State())
      ensures Accounted(config, Set(old(State()), i, Close(old(workers[i]), pipe)), i, State())
      ensures |workers| == |old(workers)| && (pipe.Out? ==> workers[i].outClosed) && (pipe.Err? ==> workers[i].errClosed)
      ensures (pipe.In? ==> workers[i].inClosed) && workers[i].exited == old(workers[i].exited)
      ensures !pipe.Out? ==> workers[i].outClosed == old(workers[i].outClosed)
      ensures !pipe.Err? ==> workers[i].errClosed == old(workers[i].errClosed)
      ensures !pipe.In? ==> workers[i].inClosed == old(workers[i].inClosed)
    {
      hide Full, Evolves, Guarded, Busy, Accounted, Frame, Idle, Close, Set;
      FullBase(config, State(), -1);
      RunningShape(config, State(), i);
      var worker := Close(workers[i], pipe);
      ClosedShape(workers[i], pipe);
      CloseKeepsFull(config, State(), i, worker);
      CloseOnly(workers[i], pipe);
      SetAt(State(), i, worker);
      Put(i, worker);
      ghost var s1 := State();
      Settle(i);
      EvolvesOn(old(State()), s1, State());
      AccountKeepsEnds(config, s1, i, State());
    }

    method Put(i: nat, worker: Worker)
      requires i < |workers|
      modifies this`workers
      ensures State() == Set(old(State()), i, worker) && workers == old(workers)[i := worker]
    {
      workers := workers[i := worker];
    }

    method OnChildExit(i: nat, code: Option<int>)
      requires Valid() && i < |workers| && workers[i].live
      modifies this
      ensures Valid() && Evolves(old(State()), State()) && old(inFlight) > 0
      ensures exists s2 :: Accounted(config, Reaped(old(State()), i, code), i, s2) && Evolves(s2, State()) && Fills(s2, State())
    {
      hide Full, Evolves, Guarded, Busy, Accounted, Reaped, Fills;
      OnExit(i, code);
    }

    /** The reactor moves due timers into one batch before it runs any of their handlers. */
    method Collect(batch: set<nat>)
      requires Valid() && due == {} && batch <= retryTimers
      modifies this`due
      ensures Valid() && Evolves(old(State()), State()) && State() == old(State()).(due := batch)
    {
      Collected(config, State(), batch);
      hide Settled, Evolves;
      due := batch;
    }

    /** A backoff timer fires, possibly after a teardown has finalized its worker. */
    method OnRetry(i: nat)
      requires Valid() && i in due
      modifies this
      ensures Valid() && Evolves(old(State()), State()) && i < |workers| == |old(workers)|
      ensures if old(workers)[i].counted then State() == old(State()).(due := old(due) - {i})
              else Fills(Requeued(old(State()), i), State())
      ensures !old(workers)[i].counted ==>
                exists queued :: Fills(queued, State()) && |queued.workers| == |workers|
                                 && queued.queue == old(retryQueue) + [i] && queued.timers == old(retryTimers) - {i}
                                 && Afresh(queued.workers[i], old(workers)[i])
    {
      hide Settled, Evolves, Full, Busy, Guarded, Fills;
      DueWorker(config, State(), i);
      if workers[i].counted {
        Discarded(config, State(), i);
        retryTimers := retryTimers - {i};
        due := due - {i};
        return;
      }
      SettledFull(config, State());
      DueIsArmed(config, State(), i);
      if cancelled {
        assert false;
      }
      RequeueKeepsFull(config, State(), i);
      Requeue(i);
      ghost var s1 := State();
      assert Afresh(s1.workers[i], old(workers)[i]);
      FillSlots();
      FullSettled(config, State());
      EvolvesOn(old(State()), s1, State());
    }

    method Requeue(i: nat)
      requires i < |workers|
      modifies this`workers, this`retryQueue, this`retryTimers, this`due
      ensures State() == Requeued(old(State()), i)
    {
      retryTimers := retryTimers - {i};
      due := due - {i};
      workers := workers[i := workers[i].Reset()];
      retryQueue := retryQueue + [i];
    }

    method OnDeadline()
      requires Valid()
      modifies this
      ensures Valid() && Evolves(old(State()), State()) && TearsDown(old(State()), State(), Deadline)
    {
      hide Settled, Evolves, TearsDown, Full, Base;
      SettledFull(config, State());
      FullBase(config, State(), -1);
      Teardown(Deadline);
      TeardownSettles(config, old(State()), State(), Deadline);
    }

    /** SIGINT; a second one while draining does nothing. */
    method OnCancel()
      requires Valid()
      modifies this
      ensures Valid() && Evolves(old(State()), State()) && cancelled
      ensures if old(cancelled) then State() == old(State()) else TearsDown(old(State()), State(), Cancel)
    {
      hide Settled, Evolves, TearsDown, Full, Base;
      EvolvesRefl(State());
      if cancelled {
        return;
      }
      SettledFull(config, State());
      FullBase(config, State(), -1);
      Teardown(Cancel);
      TeardownSettles(config, old(State()), State(), Cancel);
      TornCancels(old(State()), State());
    }

    /** The drain grace is over: whatever is left is closed, reaped and counted. */
    method OnDrainExpired()
      requires Valid() && drainArmed
      modifies this
      ensures Valid() && Evolves(old(State()), State()) && remaining == 0
    {
      hide Settled, Evolves, Full, Base, Guarded, Busy, Torn;
      DrainBegins(config, State());
      drainArmed := false;
      var k := 0;
      EvolvesUnarmed(old(State()), State());
      while k < |workers|
        invariant k <= |workers| && !filling && Full(config, State(), -1) && Flagged(State())
        invariant Evolves(old(State()), State()) && (drainArmed ==> Flagged(State()))
        invariant forall j :: 0 <= j < k ==> workers[j].counted
        decreases |workers| - k
      {
        hide Settled, Evolves, Full, Base, Guarded, Busy, Torn;
        ghost var s := State();
        Abandon(k);
        EvolvesOn(old(State()), s, State());
        StillFlagged(s, State(), k);
        k := k + 1;
      }
      DrainEnds(config, State());
    }

    method Abandon(i: nat)
      requires Full(config, State(), -1) && Flagged(State()) && i < |workers| && !filling
      modifies this
      ensures Full(config, State(), -1) && Evolves(old(State()), State()) && |workers| == |old(workers)| && !filling
      ensures workers[i].counted
    {
      hide Settled, Evolves, Full, Base, Guarded, Busy, Torn;
      if workers[i].Complete() {
        EvolvesRefl(State());
        CompleteIsCounted(config, State(), i);
        return;
      }
      StillRunning(config, State(), i);
      var worker := workers[i].(outClosed := true, errClosed := true, inClosed := true);
      CloseKeepsFull(config, State(), i, worker);
      Put(i, worker);
      ghost var s1 := State();
      if !workers[i].exited {
        Tighten(config, s1, i);
        var code: Option<int> := *;
        OnExit(i, code);
      } else {
        Settle(i);
        DoomedIsCounted(config, s1, i, State());
      }
      EvolvesOn(old(State()), s1, State());
    }

    /** `run`: fill the slots, then handle any sequence of reactor events, each in turn; the trace shows the states in
        between. */
    method Run(events: seq<Event>) returns (ghost trace: seq<Sched>)
      requires Full(config, State(), -1) && Guarded(State()) && !filling
      modifies this
      ensures Valid() && Evolves(old(State()), State())
      ensures |trace| == |events| + 1 && Fills(old(State()), trace[0]) && trace[|events|] == State()
      ensures forall k :: 0 <= k < |events| ==> Settled(config, trace[k]) && Handles(config, events[k], trace[k], trace[k + 1])
    {
      hide Settled, Evolves, Full, Busy, Guarded, Handles, Fills;
      FillSlots();
      FullSettled(config, State());
      trace := [State()];
      for k := 0 to |events|
        invariant Valid() && Evolves(old(State()), State())
        invariant |trace| == k + 1 && Fills(old(State()), trace[0]) && trace[k] == State()
        invariant forall j :: 0 <= j < k ==> Settled(config, trace[j]) && Handles(config, events[j], trace[j], trace[j + 1])
      {
        hide Settled, Evolves, Full, Busy, Guarded, Handles, Fills;
        ghost var s := State();
        Handle(events[k]);
        EvolvesOn(old(State()), s, State());
        trace := trace + [State()];
      }
    }

    method Handle(event: Event)
      requires Valid()
      modifies this
      ensures Valid() && Evolves(old(State()), State())
      ensures event.DrainExpires? && old(drainArmed) ==> remaining == 0
      ensures event.Interrupted? ==> cancelled
      ensures Handles(config, event, old(State()), State())
    {
      hide Settled, Evolves, Full, Busy, Guarded, TearsDown, Accounted, Idle, Fills, Reaped, Requeued, Close, Set;
      EvolvesRefl(State());
      match event
      case ChildExits(i, code) =>
        if i < |workers| && workers[i].live { OnChildExit(i, code); }
      case PipeCloses(i, pipe) =>
        if i < |workers| && !workers[i].counted && !Idle(State(), i) { OnPipeClosed(i, pipe); }
      case TimersCollected(batch) =>
        if due == {} && batch <= retryTimers { Collect(batch); }
      case BackoffFires(i) =>
        if i in due { OnRetry(i); }
      case DeadlineFires => OnDeadline();
      case Interrupted => OnCancel();
      case DrainExpires =>
        if drainArmed { OnDrainExpired(); }
    }

    /** The run's exit code: zero exactly when every client succeeded and nobody cancelled; 130 for a cancelled run.
        Otherwise it is the code of the last client that failed by itself, or 1 where that code is zero; an aborted client
        never hides it. Clients that were aborted, and no other failure, give 1. */
    method OverallExitCode() returns (overall: int)
      requires Valid() && stopRequested
      ensures overall == 0 <==>
                && !cancelled
                && forall i :: 0 <= i < |workers| ==>
                    && workers[i].code == Some(0) && !workers[i].startFailed
                    && !workers[i].marks.timedOut && !workers[i].marks.aborted
      ensures cancelled ==> overall == 130
      ensures aborted ==> overall != 0
      ensures forall k :: !cancelled && LastFailure(workers, |workers|, k) ==>
                overall == if workers[k].startFailed then 127
                           else match workers[k].code case None => -1 case Some(code) => if code == 0 then 1 else code
      ensures !cancelled && (forall i :: 0 <= i < |workers| ==> !FailedAlone(workers[i])) ==> overall == 0 || overall == 1
    {
      hide Settled;
      overall := 0;
      for i := 0 to |workers|
        invariant overall == 0 <==> forall j :: 0 <= j < i ==> Succeeded(workers[j])
        invariant forall k :: LastFailure(workers, i, k) ==> overall == if workers[k].ExitCode() == 0 then 1 else workers[k].ExitCode()
        invariant (forall j :: 0 <= j < i ==> !FailedAlone(workers[j])) ==> overall == 0 || overall == 1
      {
        hide Settled;
        var worker := workers[i];
        if worker.marks.aborted {
          if overall == 0 {
            overall := 1;
          }
        } else if worker.ExitCode() != 0 || worker.marks.timedOut {
          overall := if worker.ExitCode() == 0 then 1 else worker.ExitCode();
        }
      }
      if cancelled {
        overall := 130;
      }
      if aborted {
        AbortHasCulprit(config, State());
      }
    }
  }
}
