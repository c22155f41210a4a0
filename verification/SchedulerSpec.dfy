/** What a fan-out run keeps true: the workers' life stories, the counters over them, and where each one stands. */
module SchedulerSpec {
  import opened Options

  /** Why a worker was stopped. More than one reason may apply. */
  datatype Marks = Marks(timedOut: bool, cancelled: bool, aborted: bool)

  /** One child. `live` is an unreaped process; `spawns` counts the times one was started or tried. `transient` is
      whether its stderr reads as one of ssh's transient transport failures. */
  datatype Worker = Worker(
    counted: bool, awaiting: bool,
    exited: bool, outClosed: bool, errClosed: bool, inClosed: bool, live: bool,
    marks: Marks,
    attempt: nat, spawns: nat,
    startFailed: bool, code: Option<int>, transient: bool)
  {
    predicate Complete() {
      exited && outClosed && errClosed && inClosed
    }

    function ExitCode(): int {
      if startFailed then 127 else if code.None? then -1 else code.value
    }

    predicate Retryable() {
      !marks.timedOut && !startFailed && ExitCode() == 255 && transient
    }

    predicate Failure() {
      marks.timedOut || startFailed || ExitCode() != 0
    }

    function Reset(): Worker {
      NewWorker().(attempt := attempt, spawns := spawns)
    }

    function Shut(): Worker {
      this.(exited := true, outClosed := true, errClosed := true, inClosed := true)
    }
  }

  function NewWorker(): Worker {
    Worker(false, false, false, false, false, false, false, Marks(false, false, false), 0, 0, false, None, false)
  }

  datatype Reason = Deadline | Cancel | FailFast

  function MarksWith(m: Marks, reason: Reason): Marks {
    match reason
    case Deadline => m.(timedOut := true)
    case Cancel => m.(cancelled := true)
    case FailFast => m.(aborted := true)
  }

  function Mark(w: Worker, reason: Reason): Worker {
    w.(marks := MarksWith(w.marks, reason))
  }

  predicate Has(m: Marks, reason: Reason) {
    match reason
    case Deadline => m.timedOut
    case Cancel => m.cancelled
    case FailFast => m.aborted
  }

  predicate Marked(w: Worker, reason: Reason) {
    Has(w.marks, reason)
  }

  predicate Within(a: Marks, b: Marks) {
    (a.timedOut ==> b.timedOut) && (a.cancelled ==> b.cancelled) && (a.aborted ==> b.aborted)
  }

  /** `concurrency` is already resolved: zero on the command line means every worker at once. */
  datatype Config = Config(concurrency: nat, failFast: bool, maxRetries: int)

  /** A snapshot of the run. `due` holds the backoff timers the reactor has already collected for firing: cancelling a
      timer cannot take its handler out of that batch. */
  datatype Sched = Sched(
    workers: seq<Worker>, remaining: nat, next: nat, inFlight: nat,
    queue: seq<nat>, timers: set<nat>, due: set<nat>,
    cancelled: bool, aborted: bool, timedOut: bool, stopped: bool, drainArmed: bool)

  function Set(s: Sched, i: nat, w: Worker): (r: Sched)
    requires i < |s.workers|
  {
    s.(workers := s.workers[i := w])
  }

  function Uncounted(ws: seq<Worker>): nat {
    if |ws| == 0 then 0 else Uncounted(ws[..|ws| - 1]) + if ws[|ws| - 1].counted then 0 else 1
  }

  function Processes(ws: seq<Worker>): nat {
    if |ws| == 0 then 0 else Processes(ws[..|ws| - 1]) + if ws[|ws| - 1].live then 1 else 0
  }

  /** A complete worker that has been neither counted nor given a retry: one that `account` still has to see. */
  predicate Ripe(w: Worker) {
    w.Complete() && !w.counted && !w.awaiting
  }

  /** A teardown has reached this worker. */
  predicate Stopped(w: Worker) {
    w.marks.timedOut || w.marks.cancelled || w.marks.aborted
  }

  /** A worker that runs or has ended was started for its present attempt, unless a teardown ended it. */
  predicate WorkerOk(c: Config, w: Worker) {
    && (w.awaiting ==> w.Complete() && !w.counted && w.spawns == w.attempt)
    && (w.counted ==> w.Complete())
    && (w.live ==> !w.exited)
    && w.spawns <= w.attempt + 1
    && ((w.live || w.exited) && !w.awaiting ==> w.spawns == w.attempt + 1 || Stopped(w))
    && (w.attempt == 0 || w.attempt <= c.maxRetries)
  }

  predicate Unstarted(w: Worker) {
    w == w.Reset() && w.spawns == w.attempt
  }

  /** Workers are marked only for a reason the run was stopped for. */
  predicate MarksOk(s: Sched, w: Worker) {
    (w.marks.timedOut ==> s.timedOut) && (w.marks.cancelled ==> s.cancelled) && (w.marks.aborted ==> s.aborted)
  }

  /** Where one worker may stand. `x` is a worker that `account` is about to look at (none when it is no index). */
  predicate PlaceOk(c: Config, s: Sched, i: nat, x: int)
    requires i < |s.workers|
  {
    var w := s.workers[i];
    && WorkerOk(c, w) && MarksOk(s, w)
    && (i >= s.next ==> Unstarted(w) && w.spawns == 0)
    && (i in s.queue ==> i < s.next && !w.live && !w.awaiting && w.spawns <= w.attempt)
    && (i != x ==> !Ripe(w) && (i < s.next && i !in s.queue && !w.counted && !w.awaiting ==> w.live || w.exited))
  }

  predicate Counters(c: Config, s: Sched) {
    && s.remaining == Uncounted(s.workers)
    && s.inFlight == Processes(s.workers) <= c.concurrency
    && (s.stopped <==> s.remaining == 0)
    && s.next <= |s.workers|
    && (forall i :: i in s.queue ==> i < |s.workers|)
    && (forall i :: i in s.timers ==> i < |s.workers|)
  }

  /** What holds at every step, also halfway through a teardown. */
  predicate Base(c: Config, s: Sched, x: int) {
    Counters(c, s) && Blamed(s) && forall i :: 0 <= i < |s.workers| ==> PlaceOk(c, s, i, x)
  }

  /** A fail-fast abort has a culprit that finished for good. */
  predicate Blamed(s: Sched) {
    s.aborted ==> exists i :: 0 <= i < |s.workers| && s.workers[i].counted && s.workers[i].Failure()
  }

  predicate Distinct(q: seq<nat>) {
    forall i, j :: 0 <= i < j < |q| ==> q[i] != q[j]
  }

  predicate Flagged(s: Sched) {
    s.cancelled || s.aborted || s.timedOut
  }

  /** No retry can be started for this worker any more. */
  predicate Doomed(s: Sched, w: Worker) {
    && Stopped(w)
    && (s.cancelled || s.aborted || w.marks.timedOut)
  }

  predicate Torn(s: Sched) {
    && s.queue == [] && s.next == |s.workers| && s.timers == {}
    && forall i :: 0 <= i < |s.workers| && !s.workers[i].counted ==> Doomed(s, s.workers[i]) && !s.workers[i].awaiting
  }

  /** Backoff timers belong to the waiting workers, the queue to reset ones; the collected batch is never ahead. */
  predicate Tight(s: Sched) {
    && (forall i :: 0 <= i < |s.workers| ==> (s.workers[i].awaiting <==> i in s.timers))
    && Distinct(s.queue)
    && (forall i :: i in s.queue && i < |s.workers| ==> Unstarted(s.workers[i]))
    && (forall i :: i in s.due && i !in s.timers ==> i < |s.workers| && s.workers[i].counted)
  }

  predicate Full(c: Config, s: Sched, x: int) {
    Base(c, s, x) && Tight(s) && (Flagged(s) ==> Torn(s))
  }

  /** Work waits for a slot only while every slot is taken. */
  predicate Busy(c: Config, s: Sched) {
    s.queue != [] || s.next < |s.workers| ==> s.inFlight == c.concurrency
  }

  /** The drain timer stands guard over a torn-down run, and over nothing else. */
  predicate Guarded(s: Sched) {
    && (Flagged(s) && s.remaining > 0 ==> s.drainArmed)
    && (s.drainArmed ==> Flagged(s))
  }

  /** What holds between reactor events. */
  predicate Settled(c: Config, s: Sched) {
    Full(c, s, -1) && Busy(c, s) && Guarded(s)
  }

  // What `account` does to one worker.

  predicate Skips(w: Worker) {
    w.counted || w.awaiting || !w.Complete()
  }

  predicate Retries(c: Config, s: Sched, w: Worker) {
    !s.cancelled && !s.aborted && w.attempt < c.maxRetries && w.Retryable()
  }

  /** Counting off `w` aborts the run. */
  predicate Aborts(c: Config, s: Sched, w: Worker) {
    s.remaining > 1 && c.failFast && !s.aborted && !s.cancelled && w.Failure()
  }

  function Retried(s: Sched, i: nat): Sched
    requires i < |s.workers|
  {
    var w := s.workers[i];
    Set(s, i, w.(awaiting := true, attempt := w.attempt + 1)).(timers := s.timers + {i})
  }

  function CountedOff(s: Sched, i: nat): Sched
    requires i < |s.workers| && s.remaining > 0
  {
    Set(s, i, s.workers[i].(counted := true)).(remaining := s.remaining - 1, stopped := s.stopped || s.remaining == 1)
  }

  // What a teardown does.

  predicate SameButMarks(a: Worker, b: Worker) {
    b == a.(marks := b.marks) && Within(a.marks, b.marks)
  }

  function Final(w: Worker): Worker {
    w.Shut().(awaiting := false, counted := true)
  }

  /** Nothing of this worker runs: it is pending, queued for a respawn, or backing off. */
  predicate Idle(s: Sched, i: nat)
    requires i < |s.workers|
  {
    i >= s.next || i in s.queue || s.workers[i].awaiting
  }

  /** During a teardown a worker only gains marks, or, if it was idle, is marked and finished off. A fail-fast abort
      that starts inside the teardown may be the one to finish it. */
  predicate Partway(w: Worker, w': Worker, idle: bool, reason: Reason) {
    || SameButMarks(w, w')
    || (idle && !w.counted && SameButMarks(Final(w), w') && (Marked(w', reason) || w'.marks.aborted))
  }

  /** Some way into the teardown that began at `m`. */
  predicate Sweep(m: Sched, s: Sched, reason: Reason) {
    && |s.workers| == |m.workers|
    && (forall i :: 0 <= i < |m.workers| ==> Partway(m.workers[i], s.workers[i], Idle(m, i), reason))
    && (s.queue == m.queue || (s.queue == [] && forall i :: i in m.queue && i < |s.workers| ==> s.workers[i].counted))
    && m.next <= s.next
    && s.timers == {} && s.due == m.due && s.inFlight == m.inFlight
    && s.cancelled == m.cancelled && s.timedOut == m.timedOut && (m.aborted ==> s.aborted)
    && (m.drainArmed ==> s.drainArmed)
  }

  predicate Raised(s: Sched, reason: Reason) {
    match reason
    case Deadline => s.timedOut
    case Cancel => s.cancelled
    case FailFast => s.aborted
  }

  /** A whole teardown: idle workers are finished, running ones are marked and keep running, counted ones stay. */
  predicate TornWorker(s: Sched, i: nat, w': Worker, reason: Reason)
    requires i < |s.workers|
  {
    var w := s.workers[i];
    && SameButMarks(if Idle(s, i) && !w.counted then Final(w) else w, w')
    && (!w.counted ==> Marked(w', reason) || w'.marks.aborted)
    && (!w'.counted ==> Marked(w', reason))
  }

  predicate TearsDown(s: Sched, s': Sched, reason: Reason) {
    && |s'.workers| == |s.workers|
    && (s'.cancelled <==> s.cancelled || reason.Cancel?)
    && (s'.timedOut <==> s.timedOut || reason.Deadline?)
    && (s.aborted || reason.FailFast? ==> s'.aborted)
    && s'.drainArmed && s'.due == s.due && s'.inFlight == s.inFlight && Torn(s')
    && forall i :: 0 <= i < |s.workers| ==> TornWorker(s, i, s'.workers[i], reason)
  }

  /** What `account(i)` leads to: nothing, a retry, a count, or a count that aborts the rest of the run. */
  predicate Accounted(c: Config, s: Sched, i: nat, s': Sched)
    requires i < |s.workers|
  {
    var w := s.workers[i];
    if Skips(w) then s' == s
    else
      && s.remaining > 0
      && if Retries(c, s, w) then s' == Retried(s, i)
         else if Aborts(c, s, w) then TearsDown(CountedOff(s, i).(aborted := true), s', FailFast)
         else s' == CountedOff(s, i)
  }

  /** Waiting for a slot. */
  predicate Waits(s: Sched, i: nat) {
    i >= s.next || i in s.queue
  }

  /** Starting whoever waits, the queue from its front and before the pending workers: a worker that waited still does,
      untouched, or has been started, or was counted off by an abort on the way. The others change only by such an abort;
      `x` is being started itself. */
  ghost predicate FillsBut(s: Sched, s': Sched, x: int) {
    && |s'.workers| == |s.workers| && s.next <= s'.next && (s.aborted ==> s'.aborted)
    && Tail(s.queue, s'.queue) && (s.next < s'.next ==> s'.queue == [])
    && forall i :: 0 <= i < |s.workers| ==>
        && s.workers[i].spawns <= s'.workers[i].spawns
        && (i == x || Turned(s.workers[i], s'.workers[i], Waits(s, i), Waits(s', i), s'.aborted && !s.aborted))
  }

  predicate Turned(w: Worker, w': Worker, waited: bool, waits: bool, abort: bool) {
    && (if waited && !waits then w.spawns < w'.spawns || (abort && w'.counted) else w' == w || (!waited && abort))
    && (waits ==> waited)
  }

  predicate Tail(q: seq<nat>, q': seq<nat>) {
    |q'| <= |q| && q' == q[|q| - |q'|..]
  }

  ghost predicate Fills(s: Sched, s': Sched) {
    FillsBut(s, s', -1)
  }

  /** Over any stretch of a run: nothing counted comes back to life, attempts and marks of the run only grow. */
  predicate Evolves(s: Sched, s': Sched) {
    && |s'.workers| == |s.workers|
    && (s.cancelled ==> s'.cancelled) && (s.aborted ==> s'.aborted) && (s.timedOut ==> s'.timedOut)
    && (s.stopped ==> s'.stopped)
    && forall i :: 0 <= i < |s.workers| ==>
        && s.workers[i].spawns <= s'.workers[i].spawns && s.workers[i].attempt <= s'.workers[i].attempt
        && (s.workers[i].counted ==> SameButMarks(s.workers[i], s'.workers[i]))
  }
}
