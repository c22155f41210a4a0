/** Lemmas about the scheduler's counters, `account`, and whole runs. */
module SchedulerFacts {
  import opened Options
  import opened SchedulerSpec

  function Bit(b: bool): nat {
    if b then 1 else 0
  }

  lemma {:induction false} CountsAfterSet(ws: seq<Worker>, i: nat, w: Worker)
    requires i < |ws|
    ensures Uncounted(ws[i := w]) + Bit(!ws[i].counted) == Uncounted(ws) + Bit(!w.counted)
    ensures Processes(ws[i := w]) + Bit(ws[i].live) == Processes(ws) + Bit(w.live)
  {
    var last := |ws| - 1;
    if i == last {
      assert ws[i := w][..last] == ws[..last];
    } else {
      CountsAfterSet(ws[..last], i, w);
      assert ws[i := w][..last] == ws[..last][i := w];
    }
  }

  lemma {:induction false} SomeUncounted(ws: seq<Worker>) returns (i: nat)
    requires Uncounted(ws) > 0
    ensures i < |ws| && !ws[i].counted
  {
    var last := |ws| - 1;
    if ws[last].counted { i := SomeUncounted(ws[..last]); } else { i := last; }
  }

  lemma {:induction false} SomeProcess(ws: seq<Worker>) returns (i: nat)
    requires Processes(ws) > 0
    ensures i < |ws| && ws[i].live
  {
    var last := |ws| - 1;
    if ws[last].live { i := last; } else { i := SomeProcess(ws[..last]); }
  }

  lemma {:induction false} NoneUncounted(ws: seq<Worker>)
    requires forall i :: 0 <= i < |ws| ==> ws[i].counted
    ensures Uncounted(ws) == 0
  {
    if |ws| > 0 { NoneUncounted(ws[..|ws| - 1]); }
  }

  lemma {:induction false} NoProcess(ws: seq<Worker>)
    requires forall i :: 0 <= i < |ws| ==> !ws[i].live
    ensures Processes(ws) == 0
  {
    if |ws| > 0 { NoProcess(ws[..|ws| - 1]); }
  }

  lemma {:induction false} AllCounted(ws: seq<Worker>)
    requires Uncounted(ws) == 0
    ensures forall i :: 0 <= i < |ws| ==> ws[i].counted
  {
    if |ws| > 0 { AllCounted(ws[..|ws| - 1]); }
  }

  /** One worker changes and the counters follow: enough to re-check that worker. */
  lemma Touch(c: Config, s: Sched, s': Sched, i: nat, x: int, x': int)
    requires Base(c, s, x) && i < |s.workers| && (x == i || x == x')
    requires |s'.workers| == |s.workers| && s'.workers == s.workers[i := s'.workers[i]] && s'.queue == s.queue && s'.next == s.next
    requires forall j :: j in s'.timers ==> j < |s.workers|
    requires s'.remaining + Bit(!s.workers[i].counted) == s.remaining + Bit(!s'.workers[i].counted)
    requires s'.inFlight + Bit(s.workers[i].live) == s.inFlight + Bit(s'.workers[i].live) <= c.concurrency + Bit(s.workers[i].live)
    requires s'.stopped <==> s'.remaining == 0
    requires s'.cancelled == s.cancelled && s'.aborted == s.aborted && s'.timedOut == s.timedOut
    requires PlaceOk(c, s', i, x') && Blamed(s')
    ensures Base(c, s', x')
  {
    hide Blamed, WorkerOk, Unstarted, Ripe;
    CountsAfterSet(s.workers, i, s'.workers[i]);
    forall j | 0 <= j < |s'.workers| ensures PlaceOk(c, s', j, x') {
      assert PlaceOk(c, s, j, x);
    }
  }

  /** The same when that worker also enters or leaves the retry queue, or leaves the pending list. */
  lemma Shift(c: Config, s: Sched, s': Sched, i: nat, x: int, x': int)
    requires Base(c, s, x) && i < |s.workers| && (x == i || x == x')
    requires |s'.workers| == |s.workers| && s'.workers == s.workers[i := s'.workers[i]]
    requires forall j :: j != i ==> (j in s'.queue <==> j in s.queue)
    requires s'.next == s.next || (s.next == i && s'.next == i + 1)
    requires forall j :: j in s'.timers ==> j < |s.workers|
    requires s'.remaining == s.remaining && s'.stopped == s.stopped && s'.workers[i].counted == s.workers[i].counted
    requires s'.inFlight + Bit(s.workers[i].live) == s.inFlight + Bit(s'.workers[i].live) <= c.concurrency + Bit(s.workers[i].live)
    requires s'.cancelled == s.cancelled && s'.aborted == s.aborted && s'.timedOut == s.timedOut
    requires PlaceOk(c, s', i, x') && Blamed(s')
    ensures Base(c, s', x')
  {
    hide Blamed, WorkerOk, Unstarted, Ripe;
    CountsAfterSet(s.workers, i, s'.workers[i]);
    forall j | 0 <= j < |s'.workers| ensures PlaceOk(c, s', j, x') {
      assert PlaceOk(c, s, j, x);
    }
  }

  lemma StillBlamed(s: Sched, s': Sched)
    requires Blamed(s) && s'.aborted == s.aborted && |s'.workers| == |s.workers|
    requires forall i :: 0 <= i < |s.workers| && s.workers[i].counted ==> SameButMarks(s.workers[i], s'.workers[i])
    ensures Blamed(s')
  {
    if s.aborted {
      var i :| 0 <= i < |s.workers| && s.workers[i].counted && s.workers[i].Failure();
      assert s'.workers[i].counted && s'.workers[i].Failure();
    }
  }

  // `account`.

  lemma AccountSkips(c: Config, s: Sched, i: nat)
    requires Base(c, s, i) && i < |s.workers| && Skips(s.workers[i])
    requires s.workers[i].live || s.workers[i].exited
    ensures Base(c, s, -1)
  {
    forall j | 0 <= j < |s.workers| ensures PlaceOk(c, s, j, -1) {
      assert PlaceOk(c, s, j, i);
    }
  }

  lemma AccountRetries(c: Config, s: Sched, i: nat)
    requires Base(c, s, i) && i < |s.workers| && !Skips(s.workers[i]) && Retries(c, s, s.workers[i])
    requires i !in s.queue
    ensures Base(c, Retried(s, i), -1)
  {
    var s' := Retried(s, i);
    assert PlaceOk(c, s, i, i);
    StillBlamed(s, s');
    Touch(c, s, s', i, i, -1);
  }

  lemma AccountCounts(c: Config, s: Sched, i: nat)
    requires Base(c, s, i) && i < |s.workers| && !Skips(s.workers[i])
    ensures s.remaining > 0 && Base(c, CountedOff(s, i), -1)
  {
    assert PlaceOk(c, s, i, i);
    CountsAfterSet(s.workers, i, s.workers[i].(counted := true));
    var s' := CountedOff(s, i);
    StillBlamed(s, s');
    Touch(c, s, s', i, i, -1);
  }

  lemma AccountAborts(c: Config, s: Sched, i: nat)
    requires Base(c, s, i) && i < |s.workers| && !Skips(s.workers[i]) && s.workers[i].Failure()
    ensures s.remaining > 0 && Base(c, CountedOff(s, i).(aborted := true), -1)
  {
    AccountCounts(c, s, i);
    var s1, s' := CountedOff(s, i), CountedOff(s, i).(aborted := true);
    assert s'.workers[i].counted && s'.workers[i].Failure();
    forall j | 0 <= j < |s'.workers| ensures PlaceOk(c, s', j, -1) {
      assert PlaceOk(c, s1, j, -1);
    }
  }

  // `teardown`.

  function Finished(w: Worker, reason: Reason): Worker {
    Mark(w.Shut().(awaiting := false), reason)
  }

  /** Marks and counts are never taken back, and the lists only shrink: what leaves the pending list is counted. */
  predicate Grows(s: Sched, s': Sched, reason: Reason) {
    && |s'.workers| == |s.workers| && s.next <= s'.next && (s'.queue == s.queue || s'.queue == [])
    && forall j :: 0 <= j < |s.workers| ==>
        && (s.workers[j].counted || s.next <= j < s'.next ==> s'.workers[j].counted)
        && (Marked(s.workers[j], reason) ==> Marked(s'.workers[j], reason))
        && (s'.workers[j].awaiting ==> s.workers[j].awaiting)
  }

  lemma FinishKeepsBase(c: Config, s: Sched, i: nat, reason: Reason)
    requires Base(c, s, i) && i < s.next && !s.workers[i].live && Raised(s, reason)
    ensures Base(c, Set(s, i, Finished(s.workers[i], reason)), i)
  {
    var s' := Set(s, i, Finished(s.workers[i], reason));
    assert PlaceOk(c, s, i, i);
    StillBlamed(s, s');
    Touch(c, s, s', i, i, i);
  }

  lemma MarkKeepsBase(c: Config, s: Sched, i: nat, reason: Reason)
    requires Base(c, s, -1) && i < s.next && Raised(s, reason)
    ensures Base(c, Set(s, i, Mark(s.workers[i], reason)), -1)
  {
    var s' := Set(s, i, Mark(s.workers[i], reason));
    assert PlaceOk(c, s, i, -1);
    if i in s.queue || s.workers[i].counted || s.workers[i].awaiting || s.workers[i].live || s.workers[i].exited {
      StillBlamed(s, s');
      Touch(c, s, s', i, -1, -1);
    }
  }

  lemma SweepOne(m: Sched, s: Sched, s': Sched, i: nat, reason: Reason)
    requires Sweep(m, s, reason) && i < |m.workers|
    requires |s'.workers| == |s.workers| && s'.workers == s.workers[i := s'.workers[i]]
    requires s' == s.(workers := s'.workers, remaining := s'.remaining, stopped := s'.stopped)
    requires Partway(m.workers[i], s'.workers[i], Idle(m, i), reason)
    requires s.workers[i].counted ==> s'.workers[i].counted
    ensures Sweep(m, s', reason)
  {
    hide Partway, Idle;
  }

  lemma PartwayFinish(w: Worker, w1: Worker, reason: Reason)
    requires Partway(w, w1, true, reason) && !w1.counted
    ensures Partway(w, Finished(w1, reason).(counted := true), true, reason)
  {
  }

  lemma PartwayMark(w: Worker, w1: Worker, idle: bool, reason: Reason)
    requires Partway(w, w1, idle, reason)
    ensures Partway(w, Mark(w1, reason), idle, reason)
  {
    MarkIsMore(w1, reason);
    MarksTwice(w, w1, Mark(w1, reason));
    MarksTwice(Final(w), w1, Mark(w1, reason));
    hide SameButMarks, Mark, Final;
  }

  lemma MarkIsMore(w: Worker, reason: Reason)
    ensures SameButMarks(w, Mark(w, reason)) && Marked(Mark(w, reason), reason)
    ensures w.marks.aborted ==> Mark(w, reason).marks.aborted
  {
  }

  lemma SweepCounts(m: Sched, s: Sched, i: nat, reason: Reason)
    requires Sweep(m, s, reason) && i < |m.workers| && Idle(m, i) && !s.workers[i].counted && s.remaining > 0
    ensures Sweep(m, CountedOff(Set(s, i, Finished(s.workers[i], reason)), i), reason)
  {
    PartwayFinish(m.workers[i], s.workers[i], reason);
    hide Partway, Idle, Finished;
    SweepOne(m, s, CountedOff(Set(s, i, Finished(s.workers[i], reason)), i), i, reason);
  }

  lemma SweepMarks(m: Sched, s: Sched, i: nat, reason: Reason)
    requires Sweep(m, s, reason) && i < |m.workers|
    ensures Sweep(m, Set(s, i, Mark(s.workers[i], reason)), reason)
  {
    hide Partway, Idle;
    PartwayMark(m.workers[i], s.workers[i], Idle(m, i), reason);
    SweepOne(m, s, Set(s, i, Mark(s.workers[i], reason)), i, reason);
  }

  lemma PartwayThenTorn(m: Sched, s: Sched, s': Sched, i: nat, reason: Reason)
    requires Sweep(m, s, reason) && TearsDown(s, s', FailFast) && i < |m.workers|
    ensures Partway(m.workers[i], s'.workers[i], Idle(m, i), reason)
    ensures i in m.queue ==> s'.workers[i].counted
  {
    hide Torn;
    assert Partway(m.workers[i], s.workers[i], Idle(m, i), reason);
    assert TornWorker(s, i, s'.workers[i], FailFast);
    if Idle(s, i) && !s.workers[i].counted {
      assert SameButMarks(m.workers[i], s.workers[i]);
      assert Idle(m, i);
      FinalThenMarks(m.workers[i], s.workers[i], s'.workers[i]);
    } else {
      MarksTwice(m.workers[i], s.workers[i], s'.workers[i]);
      MarksTwice(Final(m.workers[i]), s.workers[i], s'.workers[i]);
    }
  }

  lemma MarksTwice(a: Worker, b: Worker, d: Worker)
    requires SameButMarks(b, d)
    ensures SameButMarks(a, b) ==> SameButMarks(a, d)
  {
  }

  lemma FinalThenMarks(a: Worker, b: Worker, d: Worker)
    requires SameButMarks(a, b) && SameButMarks(Final(b), d)
    ensures SameButMarks(Final(a), d)
  {
  }

  lemma SweepThenTorn(m: Sched, s: Sched, s': Sched, reason: Reason)
    requires Sweep(m, s, reason) && TearsDown(s, s', FailFast) && s.next <= |s.workers|
    ensures Sweep(m, s', reason)
  {
    forall i | 0 <= i < |m.workers|
      ensures Partway(m.workers[i], s'.workers[i], Idle(m, i), reason)
      ensures i in m.queue ==> s'.workers[i].counted
    {
      PartwayThenTorn(m, s, s', i, reason);
    }
  }

  lemma TornGrows(s: Sched, s': Sched, reason: Reason)
    requires TearsDown(s, s', FailFast) && s.next <= |s.workers|
    ensures Grows(s, s', reason)
  {
    forall j | 0 <= j < |s.workers|
      ensures s.workers[j].counted || s.next <= j < s'.next ==> s'.workers[j].counted
      ensures Marked(s.workers[j], reason) ==> Marked(s'.workers[j], reason)
      ensures s'.workers[j].awaiting ==> s.workers[j].awaiting
    {
      assert TornWorker(s, j, s'.workers[j], FailFast);
    }
  }

  lemma GrowsOn(a: Sched, b: Sched, d: Sched, reason: Reason)
    requires Grows(a, b, reason) && Grows(b, d, reason)
    ensures Grows(a, d, reason)
  {
    forall j | 0 <= j < |a.workers|
      ensures a.workers[j].counted || a.next <= j < d.next ==> d.workers[j].counted
      ensures Marked(a.workers[j], reason) ==> Marked(d.workers[j], reason)
      ensures d.workers[j].awaiting ==> a.workers[j].awaiting
    {
      assert d.workers[j].awaiting ==> b.workers[j].awaiting;
      assert a.workers[j].counted ==> b.workers[j].counted;
    }
  }

  lemma ClearQueue(c: Config, s: Sched)
    requires Base(c, s, -1)
    requires forall i :: i in s.queue && i < |s.workers| ==> s.workers[i].counted
    ensures Base(c, s.(queue := []), -1)
  {
    var s' := s.(queue := []);
    forall j | 0 <= j < |s'.workers| ensures PlaceOk(c, s', j, -1) {
      assert PlaceOk(c, s, j, -1);
    }
  }

  /** Taking the next pending worker off the list; `account` is about to see it. */
  lemma TakePending(c: Config, s: Sched)
    requires Base(c, s, -1) && s.next < |s.workers|
    ensures Base(c, s.(next := s.next + 1), s.next) && !s.workers[s.next].live
  {
    var s' := s.(next := s.next + 1);
    assert PlaceOk(c, s, s.next, -1);
    forall j | 0 <= j < |s'.workers| ensures PlaceOk(c, s', j, s.next) {
      assert PlaceOk(c, s, j, -1);
    }
  }

  lemma Loosen(c: Config, s: Sched, i: nat)
    requires Base(c, s, -1)
    ensures Base(c, s, i)
  {
    forall j | 0 <= j < |s.workers| ensures PlaceOk(c, s, j, i) {
      assert PlaceOk(c, s, j, -1);
    }
  }

  lemma SweepBegins(c: Config, s: Sched, m: Sched, reason: Reason)
    requires Base(c, s, -1)
    requires m == s.(cancelled := s.cancelled || reason.Cancel?, timedOut := s.timedOut || reason.Deadline?, timers := {})
    requires reason.FailFast? ==> s.aborted
    ensures Base(c, m, -1) && Sweep(m, m, reason) && Raised(m, reason)
  {
    forall j | 0 <= j < |m.workers| ensures PlaceOk(c, m, j, -1) {
      assert PlaceOk(c, s, j, -1);
    }
  }

  lemma GrowsOne(s: Sched, s': Sched, i: nat, reason: Reason)
    requires i < |s.workers| && |s'.workers| == |s.workers| && s'.workers == s.workers[i := s'.workers[i]]
    requires s'.next == s.next && s'.queue == s.queue
    requires s.workers[i].counted ==> s'.workers[i].counted
    requires Marked(s'.workers[i], reason) && (s'.workers[i].awaiting ==> s.workers[i].awaiting)
    ensures Grows(s, s', reason)
  {
  }

  /** What `account` makes of a worker that a teardown has just finished off. */
  lemma AfterFinish(c: Config, m: Sched, s: Sched, s': Sched, i: nat, reason: Reason)
    requires Sweep(m, s, reason) && i < |s.workers| && Idle(m, i) && s.next <= |s.workers| && WorkerOk(c, s.workers[i])
    requires var s1 := Set(s, i, Finished(s.workers[i], reason));
             if s.workers[i].counted then s' == s1
             else s.remaining > 0 && (s' == CountedOff(s1, i) || TearsDown(CountedOff(s1, i).(aborted := true), s', FailFast))
    ensures Sweep(m, s', reason) && Grows(s, s', reason) && s'.workers[i].counted
  {
    MarkIsMore(s.workers[i].Shut().(awaiting := false), reason);
    if s.workers[i].counted {
      assert Finished(s.workers[i], reason) == Mark(s.workers[i], reason);
      SweepMarks(m, s, i, reason);
      GrowsOne(s, s', i, reason);
    } else {
      AfterCount(m, s, s', i, reason);
    }
  }

  lemma AfterCount(m: Sched, s: Sched, s': Sched, i: nat, reason: Reason)
    requires Sweep(m, s, reason) && i < |s.workers| == |m.workers| && Idle(m, i) && s.next <= |s.workers|
    requires !s.workers[i].counted && s.remaining > 0
    requires var s2 := CountedOff(Set(s, i, Finished(s.workers[i], reason)), i);
             s' == s2 || TearsDown(s2.(aborted := true), s', FailFast)
    ensures Sweep(m, s', reason) && Grows(s, s', reason) && s'.workers[i].counted
  {
    hide Sweep, TearsDown, Idle, Grows;
    var s2 := CountedOff(Set(s, i, Finished(s.workers[i], reason)), i);
    MarkIsMore(s.workers[i].Shut().(awaiting := false), reason);
    SweepCounts(m, s, i, reason);
    GrowsOne(s, s2, i, reason);
    if s' != s2 {
      var s3 := s2.(aborted := true);
      AbortedSweep(m, s2, reason);
      SweepThenTorn(m, s3, s', reason);
      GrowsOne(s, s3, i, reason);
      TornGrows(s3, s', reason);
      StaysCounted(s3, s', i, reason);
      GrowsOn(s, s3, s', reason);
    }
  }

  lemma StaysCounted(s: Sched, s': Sched, i: nat, reason: Reason)
    requires Grows(s, s', reason) && i < |s.workers| && s.workers[i].counted
    ensures |s'.workers| == |s.workers| && s'.workers[i].counted
  {
  }

  lemma AbortedSweep(m: Sched, s: Sched, reason: Reason)
    requires Sweep(m, s, reason)
    ensures Sweep(m, s.(aborted := true), reason)
  {
  }

  lemma RaisedStays(m: Sched, s: Sched, reason: Reason)
    requires Sweep(m, s, reason) && Raised(m, reason)
    ensures Raised(s, reason)
  {
  }

  lemma Placed(c: Config, s: Sched, i: nat, x: int)
    requires Base(c, s, x) && i < |s.workers|
    ensures PlaceOk(c, s, i, x) && s.next <= |s.workers| && WorkerOk(c, s.workers[i])
  {
  }

  lemma ReadyToCount(c: Config, s: Sched, i: nat, reason: Reason)
    requires Raised(s, reason) && i < |s.workers|
    ensures var s1, w1 := Set(s, i, Finished(s.workers[i], reason)), Finished(s.workers[i], reason);
            !Retries(c, s1, w1) && w1.exited
  {
  }

  lemma FinishAccounted(c: Config, m: Sched, s: Sched, s': Sched, i: nat, reason: Reason)
    requires Raised(s, reason) && i < |s.workers| && WorkerOk(c, s.workers[i])
    requires Accounted(c, Set(s, i, Finished(s.workers[i], reason)), i, s')
    ensures var s1 := Set(s, i, Finished(s.workers[i], reason));
            if s.workers[i].counted then s' == s1
            else s.remaining > 0 && (s' == CountedOff(s1, i) || TearsDown(CountedOff(s1, i).(aborted := true), s', FailFast))
    ensures s.aborted ==> s'.aborted
  {
  }

  /** The branches of `account`, read off the state before it. */
  lemma AccountCases(c: Config, s: Sched, i: nat)
    requires i < |s.workers|
    ensures Skips(s.workers[i]) ==> Accounted(c, s, i, s)
    ensures !Skips(s.workers[i]) && s.remaining > 0 && Retries(c, s, s.workers[i]) ==> Accounted(c, s, i, Retried(s, i))
    ensures !Skips(s.workers[i]) && s.remaining > 0 && !Retries(c, s, s.workers[i]) && !Aborts(c, s, s.workers[i]) ==>
              Accounted(c, s, i, CountedOff(s, i))
    ensures !Skips(s.workers[i]) && s.remaining > 0 && !Retries(c, s, s.workers[i]) && Aborts(c, s, s.workers[i]) ==>
              forall s' :: TearsDown(CountedOff(s, i).(aborted := true), s', FailFast) ==> Accounted(c, s, i, s')
  {
  }

  /** The worker just taken off the pending list is counted by the time `account` returns. */
  lemma PendingGrows(s: Sched, s': Sched, reason: Reason)
    requires s.next < |s.workers| && Grows(s.(next := s.next + 1), s', reason) && s'.workers[s.next].counted
    ensures Grows(s, s', reason)
  {
  }

  lemma Bounds(c: Config, s: Sched, x: int)
    requires Base(c, s, x)
    ensures s.next <= |s.workers|
  {
  }

  lemma GrowsRefl(s: Sched, reason: Reason)
    ensures Grows(s, s, reason)
  {
  }

  predicate Handled(s: Sched, k: nat, reason: Reason) {
    forall j :: 0 <= j < k && j < |s.workers| && !s.workers[j].counted ==> Marked(s.workers[j], reason) && !s.workers[j].awaiting
  }

  lemma StaysHandled(s: Sched, s': Sched, k: nat, reason: Reason)
    requires Grows(s, s', reason) && Handled(s, k, reason) && k < |s.workers|
    requires !s'.workers[k].counted ==> Marked(s'.workers[k], reason) && !s'.workers[k].awaiting
    ensures Handled(s', k + 1, reason)
  {
  }

  lemma NoneHandled(s: Sched, reason: Reason)
    ensures Handled(s, 0, reason)
  {
  }

  /** The plain bookkeeping of a teardown step. */
  predicate Frame(s: Sched, s': Sched) {
    && |s'.workers| == |s.workers| && s.next <= s'.next <= |s.workers| && (s'.queue == s.queue || s'.queue == [])
    && (s.aborted ==> s'.aborted)
  }

  lemma FrameFrom(c: Config, s: Sched, s': Sched, reason: Reason)
    requires Grows(s, s', reason) && Base(c, s', -1) && (s.aborted ==> s'.aborted)
    ensures Frame(s, s')
  {
  }

  lemma QueueMember(c: Config, m: Sched, s: Sched, i: nat, reason: Reason)
    requires Base(c, m, -1) && Base(c, s, -1) && Sweep(m, s, reason) && i in m.queue
    ensures i < s.next <= |s.workers| == |m.workers| && !s.workers[i].live && Idle(m, i)
  {
    assert PlaceOk(c, m, i, -1);
    assert PlaceOk(c, s, i, -1);
  }

  lemma SweptQueue(m: Sched, s: Sched, reason: Reason)
    requires Sweep(m, s, reason) && forall i :: i in m.queue && i < |s.workers| ==> s.workers[i].counted
    ensures forall i :: i in s.queue && i < |s.workers| ==> s.workers[i].counted
    ensures Sweep(m, s.(queue := []), reason)
  {
  }

  lemma SweptPending(m: Sched, s: Sched, reason: Reason)
    requires Sweep(m, s, reason) && s.next < |s.workers|
    ensures Sweep(m, s.(next := s.next + 1), reason) && |m.workers| == |s.workers| && Idle(m, s.next)
  {
  }

  /** A worker still backing off was doing so when the teardown began. */
  lemma StillBackingOff(c: Config, m: Sched, s: Sched, i: nat, reason: Reason)
    requires Base(c, s, -1) && Sweep(m, s, reason) && i < |s.workers| && s.workers[i].awaiting
    ensures |m.workers| == |s.workers| && Idle(m, i) && !s.workers[i].live
  {
    assert PlaceOk(c, s, i, -1);
    assert Partway(m.workers[i], s.workers[i], Idle(m, i), reason);
  }

  lemma ArmedSweep(c: Config, m: Sched, s: Sched, reason: Reason)
    requires Base(c, s, -1) && Sweep(m, s, reason)
    ensures Base(c, s.(drainArmed := true), -1) && Sweep(m, s.(drainArmed := true), reason)
  {
    var s' := s.(drainArmed := true);
    forall j | 0 <= j < |s'.workers| ensures PlaceOk(c, s', j, -1) {
      assert PlaceOk(c, s, j, -1);
    }
  }

  /** Queue, then pending list, then running workers: the sweep is complete. */
  lemma SweepIsDone(c: Config, s0: Sched, m: Sched, q: Sched, p: Sched, r: Sched, reason: Reason)
    requires Sweep(m, r, reason) && Base(c, r, -1) && Raised(m, reason)
    requires m == s0.(cancelled := s0.cancelled || reason.Cancel?, timedOut := s0.timedOut || reason.Deadline?, timers := {})
    requires |q.workers| == |m.workers|
    requires forall j :: j in m.queue && j < |q.workers| ==> q.workers[j].counted
    requires forall j :: m.next <= j < q.next <= |q.workers| ==> q.workers[j].counted
    requires Grows(q, p, reason) && Grows(p, r, reason)
    requires r.queue == [] && r.next == |r.workers| && Handled(r, |r.workers|, reason)
    ensures Base(c, r.(drainArmed := true), -1) && TearsDown(s0, r.(drainArmed := true), reason)
  {
    var s := r.(drainArmed := true);
    ArmedSweep(c, m, r, reason);
    RaisedStays(m, s, reason);
    GrowsOn(q, p, r, reason);
    forall i | 0 <= i < |s0.workers| ensures TornWorker(s0, i, s.workers[i], reason) {
      hide TornWorker;
      SweptWorker(c, m, q, s, i, reason);
      SameTorn(s0, m, i, s.workers[i], reason);
    }
    SweptIsTorn(c, m, s, reason);
    hide Torn, TornWorker, Grows, Base, Handled;
  }

  lemma SameTorn(s: Sched, m: Sched, i: nat, w': Worker, reason: Reason)
    requires m.workers == s.workers && m.queue == s.queue && m.next == s.next && i < |m.workers|
    ensures TornWorker(s, i, w', reason) == TornWorker(m, i, w', reason)
  {
  }

  lemma SweptIsTorn(c: Config, m: Sched, s: Sched, reason: Reason)
    requires Sweep(m, s, reason) && Raised(s, reason) && s.queue == [] && s.next == |s.workers|
    requires Handled(s, |s.workers|, reason)
    ensures Torn(s)
  {
    hide Partway, Idle;
  }

  /** Marking one running worker during a teardown. */
  lemma MarkStep(c: Config, m: Sched, s: Sched, i: nat, reason: Reason)
    requires Base(c, s, -1) && Sweep(m, s, reason) && Raised(m, reason) && i < s.next <= |s.workers| == |m.workers|
    ensures var s' := Set(s, i, Mark(s.workers[i], reason));
            && Base(c, s', -1) && Sweep(m, s', reason) && Grows(s, s', reason) && Frame(s, s')
            && Marked(s'.workers[i], reason)
  {
    RaisedStays(m, s, reason);
    hide Base, Sweep, Grows, Mark, Marked, Raised;
    MarkKeepsBase(c, s, i, reason);
    SweepMarks(m, s, i, reason);
    MarkIsMore(s.workers[i], reason);
    GrowsOne(s, Set(s, i, Mark(s.workers[i], reason)), i, reason);
  }

  lemma SweptWorker(c: Config, m: Sched, q: Sched, s: Sched, i: nat, reason: Reason)
    requires Sweep(m, s, reason) && Base(c, s, -1) && i < |m.workers| == |q.workers|
    requires i in m.queue || m.next <= i < q.next ==> q.workers[i].counted
    requires Grows(q, s, reason) && s.next == |s.workers| && Handled(s, |s.workers|, reason)
    ensures TornWorker(m, i, s.workers[i], reason)
  {
    assert Partway(m.workers[i], s.workers[i], Idle(m, i), reason);
    assert PlaceOk(c, s, i, -1);
    hide Base, PlaceOk;
  }

  // From a step to the facts that hold between events.

  lemma RetryKeepsFull(c: Config, s: Sched, i: nat)
    requires Full(c, s, i) && i < |s.workers| && !Skips(s.workers[i]) && Retries(c, s, s.workers[i])
    ensures Full(c, Retried(s, i), -1) && (Guarded(s) ==> Guarded(Retried(s, i)))
  {
    assert i !in s.queue;
    AccountRetries(c, s, i);
    assert !Flagged(s);
    TightAfterRetry(s, i);
  }

  lemma TightAfterRetry(s: Sched, i: nat)
    requires Tight(s) && i < |s.workers| && s.workers[i].Complete() && !s.workers[i].counted
    ensures Tight(Retried(s, i))
  {
    assert i !in s.queue;
  }

  lemma CountKeepsFull(c: Config, s: Sched, i: nat)
    requires Full(c, s, i) && i < |s.workers| && !Skips(s.workers[i])
    ensures s.remaining > 0 && Full(c, CountedOff(s, i), -1) && (Guarded(s) ==> Guarded(CountedOff(s, i)))
  {
    AccountCounts(c, s, i);
    TightAfterCount(s, i);
    hide Base, Tight;
  }

  lemma TightAfterCount(s: Sched, i: nat)
    requires Tight(s) && i < |s.workers| && s.workers[i].Complete() && s.remaining > 0
    ensures Tight(CountedOff(s, i))
  {
    assert i !in s.queue;
  }

  lemma TornIsFull(c: Config, s: Sched, s': Sched, reason: Reason)
    requires TearsDown(s, s', reason) && Base(c, s', -1) && Tight(s) && (forall i :: i in s.timers ==> i < |s.workers|)
    ensures Full(c, s', -1) && Busy(c, s') && Guarded(s')
  {
    forall i | 0 <= i < |s'.workers| ensures s'.workers[i].awaiting <==> i in s'.timers {
      assert PlaceOk(c, s', i, -1);
    }
    forall i | i in s'.due && i !in s'.timers ensures i < |s'.workers| && s'.workers[i].counted {
      assert i < |s.workers| ==> TornWorker(s, i, s'.workers[i], reason);
    }
  }

  lemma TornEvolves(c: Config, s: Sched, s': Sched, reason: Reason)
    requires TearsDown(s, s', reason) && Base(c, s', -1) && (s.stopped ==> Uncounted(s.workers) == 0)
    ensures Evolves(s, s')
  {
    forall i | 0 <= i < |s.workers|
      ensures s.workers[i].spawns <= s'.workers[i].spawns && s.workers[i].attempt <= s'.workers[i].attempt
      ensures s.workers[i].counted ==> SameButMarks(s.workers[i], s'.workers[i])
    {
      assert TornWorker(s, i, s'.workers[i], reason);
    }
    if s.stopped {
      AllCounted(s.workers);
      NoneUncounted(s'.workers);
    }
  }

  lemma EvolvesOn(a: Sched, b: Sched, d: Sched)
    requires Evolves(a, b) && Evolves(b, d)
    ensures Evolves(a, d)
  {
    forall i | 0 <= i < |a.workers|
      ensures a.workers[i].spawns <= d.workers[i].spawns && a.workers[i].attempt <= d.workers[i].attempt
      ensures a.workers[i].counted ==> SameButMarks(a.workers[i], d.workers[i])
    {
      assert a.workers[i].spawns <= b.workers[i].spawns;
    }
  }

  lemma EvolvesOne(s: Sched, s': Sched, i: nat)
    requires i < |s.workers| && |s'.workers| == |s.workers| && s'.workers == s.workers[i := s'.workers[i]]
    requires s'.cancelled == s.cancelled && s'.aborted == s.aborted && s'.timedOut == s.timedOut
    requires s.stopped ==> s'.stopped
    requires s.workers[i].spawns <= s'.workers[i].spawns && s.workers[i].attempt <= s'.workers[i].attempt
    requires s.workers[i].counted ==> SameButMarks(s.workers[i], s'.workers[i])
    ensures Evolves(s, s')
  {
  }

  /** `account` brings a run with one ripe worker back in order. */
  lemma AccountSettles(c: Config, s: Sched, i: nat, s': Sched)
    requires Full(c, s, i) && i < |s.workers| && Base(c, s', -1) && Accounted(c, s, i, s')
    ensures Full(c, s', -1) && Frame(s, s') && (Guarded(s) ==> Guarded(s')) && (Busy(c, s) ==> Busy(c, s'))
  {
    hide Base, Tight, TearsDown, Evolves, Guarded, Busy;
    Bounds(c, s, i);
    var w := s.workers[i];
    if Skips(w) {
    } else if Retries(c, s, w) {
      RetryKeepsFull(c, s, i);
      SameBusy(c, s, s');
    } else if Aborts(c, s, w) {
      CountKeepsFull(c, s, i);
      AbortSettles(c, s, i, s');
    } else {
      CountKeepsFull(c, s, i);
      SameBusy(c, s, s');
    }
  }

  lemma SameBusy(c: Config, s: Sched, s': Sched)
    requires s'.queue == s.queue && s'.next == s.next && |s'.workers| == |s.workers| && s'.inFlight == s.inFlight
    ensures Busy(c, s') == Busy(c, s)
  {
  }

  lemma AbortSettles(c: Config, s: Sched, i: nat, s': Sched)
    requires Full(c, s, i) && i < |s.workers| && Base(c, s', -1) && s.workers[i].Complete() && s.remaining > 0
    requires TearsDown(CountedOff(s, i).(aborted := true), s', FailFast)
    ensures Full(c, s', -1) && Frame(s, s') && Guarded(s') && Busy(c, s')
  {
    var s1 := CountedOff(s, i).(aborted := true);
    TightAfterCount(s, i);
    assert Tight(s1);
    TornIsFull(c, s1, s', FailFast);
  }

  lemma AccountEvolves(c: Config, s: Sched, i: nat, s': Sched)
    requires Base(c, s, i) && i < |s.workers| && Base(c, s', -1) && Accounted(c, s, i, s')
    ensures Evolves(s, s')
  {
    hide Base, TearsDown, Evolves;
    var w := s.workers[i];
    if Skips(w) || Retries(c, s, w) || !Aborts(c, s, w) {
      EvolvesOne(s, s', i);
    } else {
      var s1 := CountedOff(s, i);
      EvolvesOne(s, s1, i);
      AbortEvolves(s, s1);
      AccountCounts(c, s, i);
      CountersOf(c, s1, -1);
      TornEvolves(c, s1.(aborted := true), s', FailFast);
      EvolvesOn(s, s1.(aborted := true), s');
    }
  }

  lemma CountersOf(c: Config, s: Sched, x: int)
    requires Base(c, s, x)
    ensures Counters(c, s)
  {
  }

  lemma AbortEvolves(s: Sched, s': Sched)
    requires Evolves(s, s')
    ensures Evolves(s, s'.(aborted := true))
  {
  }

  // The other events, one worker at a time.

  function Reaped(s: Sched, i: nat, code: Option<int>): Sched
    requires i < |s.workers| && s.inFlight > 0
  {
    Set(s, i, s.workers[i].(exited := true, live := false, code := code)).(inFlight := s.inFlight - 1)
  }

  lemma SlotOfLive(c: Config, s: Sched, i: nat, x: int)
    requires Base(c, s, x) && i < |s.workers| && s.workers[i].live
    ensures s.inFlight > 0
  {
    CountsAfterSet(s.workers, i, s.workers[i].(live := false));
  }

  lemma ReapKeepsFull(c: Config, s: Sched, i: nat, code: Option<int>)
    requires Full(c, s, -1) && i < |s.workers| && s.workers[i].live && s.inFlight > 0
    ensures Full(c, Reaped(s, i, code), i) && Evolves(s, Reaped(s, i, code))
    ensures Guarded(s) ==> Guarded(Reaped(s, i, code))
  {
    var s' := Reaped(s, i, code);
    assert PlaceOk(c, s, i, -1);
    StillBlamed(s, s');
    Loosen(c, s, i);
    Touch(c, s, s', i, i, i);
    EvolvesOne(s, s', i);
    hide Base, Evolves;
  }

  /** Closing pipe ends of a running worker. */
  lemma CloseKeepsFull(c: Config, s: Sched, i: nat, w: Worker)
    requires Full(c, s, -1) && i < |s.workers| && !s.workers[i].counted && !Idle(s, i)
    requires w == s.workers[i].(outClosed := w.outClosed, errClosed := w.errClosed, inClosed := w.inClosed)
    ensures Full(c, Set(s, i, w), i) && Evolves(s, Set(s, i, w)) && (Guarded(s) ==> Guarded(Set(s, i, w)))
    ensures Busy(c, s) ==> Busy(c, Set(s, i, w))
  {
    var s' := Set(s, i, w);
    assert PlaceOk(c, s, i, -1);
    StillBlamed(s, s');
    Loosen(c, s, i);
    Touch(c, s, s', i, i, i);
    EvolvesOne(s, s', i);
    hide Base, Evolves;
  }

  /** Taking the next index to start: the front of the retry queue, else the next pending worker. */
  function Front(s: Sched): nat
  {
    if s.queue != [] then s.queue[0] else s.next
  }

  function Popped(s: Sched): (r: Sched)
    ensures |r.workers| == |s.workers|
  {
    if s.queue != [] then s.(queue := s.queue[1..]) else s.(next := s.next + 1)
  }

  /** What starting a worker may make of it: a live process, or a start failure that completes it at once. */
  predicate StartOf(w: Worker, w': Worker) {
    || w' == w.(spawns := w.spawns + 1, live := true, inClosed := w'.inClosed, transient := w'.transient)
    || w' == w.Shut().(spawns := w.spawns + 1, startFailed := true)
  }

  function Started(s: Sched, w: Worker): Sched
    requires Front(s) < |s.workers|
  {
    Set(Popped(s), Front(s), w).(inFlight := Popped(s).inFlight + if w.live then 1 else 0)
  }

  lemma FrontPlace(c: Config, s: Sched)
    requires Full(c, s, -1) && (s.queue != [] || s.next < |s.workers|)
    ensures Front(s) < |s.workers| && Unstarted(s.workers[Front(s)]) && Front(s) !in Popped(s).queue
    ensures Front(s) < Popped(s).next <= |s.workers| && !Flagged(s) && WorkerOk(c, s.workers[Front(s)])
  {
    assert s.queue != [] ==> s.queue[0] in s.queue;
    assert PlaceOk(c, s, Front(s), -1);
    assert forall j :: j in Popped(s).queue ==> j in s.queue;
  }

  lemma StartPlace(c: Config, s: Sched, w: Worker)
    requires Full(c, s, -1) && (s.queue != [] || s.next < |s.workers|) && Front(s) < |s.workers|
    requires StartOf(s.workers[Front(s)], w)
    ensures PlaceOk(c, Started(s, w), Front(s), Front(s)) && (w.live ==> PlaceOk(c, Started(s, w), Front(s), -1))
    ensures !w.counted && !s.workers[Front(s)].live && !s.workers[Front(s)].counted
    ensures forall j :: j != Front(s) ==> (j in Started(s, w).queue <==> j in s.queue)
  {
    FrontPlace(c, s);
    hide Full;
  }

  lemma StartKeepsBase(c: Config, s: Sched, w: Worker)
    requires Full(c, s, -1) && (s.queue != [] || s.next < |s.workers|) && Front(s) < |s.workers|
    requires s.inFlight < c.concurrency && StartOf(s.workers[Front(s)], w)
    ensures Base(c, Started(s, w), Front(s)) && (w.live ==> Base(c, Started(s, w), -1))
  {
    StartPlace(c, s, w);
    hide StartOf, PlaceOk, Tight, Torn;
    var i, s' := Front(s), Started(s, w);
    StillBlamed(s, s');
    Loosen(c, s, i);
    Shift(c, s, s', i, i, i);
    if w.live {
      Shift(c, s, s', i, -1, -1);
    }
  }

  lemma StartKeepsTight(c: Config, s: Sched, w: Worker)
    requires Full(c, s, -1) && (s.queue != [] || s.next < |s.workers|) && Front(s) < |s.workers|
    requires StartOf(s.workers[Front(s)], w)
    ensures Tight(Started(s, w)) && !Flagged(Started(s, w)) && Evolves(s, Started(s, w))
    ensures Guarded(s) ==> Guarded(Started(s, w))
  {
    FrontPlace(c, s);
    var i, s' := Front(s), Started(s, w);
    hide Base;
    assert forall j :: j in s'.queue ==> j in s.queue;
    EvolvesOne(s, s', i);
  }

  /** A fired backoff timer resets its worker and queues it. */
  function Requeued(s: Sched, i: nat): Sched
    requires i < |s.workers|
  {
    Set(s, i, s.workers[i].Reset()).(queue := s.queue + [i], timers := s.timers - {i}, due := s.due - {i})
  }

  lemma RequeueKeepsFull(c: Config, s: Sched, i: nat)
    requires Full(c, s, -1) && i in s.timers
    ensures i < |s.workers| && Full(c, Requeued(s, i), -1) && Evolves(s, Requeued(s, i))
    ensures Guarded(s) ==> Guarded(Requeued(s, i))
  {
    var s' := Requeued(s, i);
    assert PlaceOk(c, s, i, -1);
    StillBlamed(s, s');
    Shift(c, s, s', i, -1, -1);
    RequeueKeepsTight(s, i);
    hide Base, PlaceOk, Tight;
    EvolvesOne(s, s', i);
  }

  lemma RequeueKeepsTight(s: Sched, i: nat)
    requires Tight(s) && i in s.timers && i < |s.workers| && s.workers[i].spawns == s.workers[i].attempt
    ensures Tight(Requeued(s, i))
  {
    assert i !in s.queue;
  }

  lemma StartKeepsFull(c: Config, s: Sched, w: Worker)
    requires Full(c, s, -1) && (s.queue != [] || s.next < |s.workers|) && Front(s) < |s.workers|
    requires s.inFlight < c.concurrency && StartOf(s.workers[Front(s)], w)
    ensures Full(c, Started(s, w), Front(s)) && (w.live ==> Full(c, Started(s, w), -1))
    ensures Evolves(s, Started(s, w)) && (Guarded(s) ==> Guarded(Started(s, w)))
    ensures Base(c, Started(s, w), Front(s)) && Front(s) !in Started(s, w).queue && (w.live || w.exited)
  {
    StartKeepsBase(c, s, w);
    StartKeepsTight(c, s, w);
    FrontPlace(c, s);
    hide Base, Tight, Evolves, Guarded;
  }

  lemma StartShrinks(s: Sched, w: Worker, s': Sched)
    requires Front(s) < |s.workers| && Frame(Started(s, w), s')
    ensures |s'.queue| + s.next < |s.queue| + s'.next && |s'.workers| == |s.workers|
  {
  }

  /** Whatever a teardown starts from, the run is in order after it. */
  lemma TeardownSettles(c: Config, s: Sched, s': Sched, reason: Reason)
    requires Full(c, s, -1) && TearsDown(s, s', reason) && Base(c, s', -1)
    ensures Settled(c, s') && Evolves(s, s')
  {
    CountersOf(c, s, -1);
    hide Base;
    TornIsFull(c, s, s', reason);
    TornEvolves(c, s, s', reason);
  }

  lemma Collected(c: Config, s: Sched, batch: set<nat>)
    requires Settled(c, s) && batch <= s.timers
    ensures Settled(c, s.(due := batch)) && Evolves(s, s.(due := batch))
  {
    var s' := s.(due := batch);
    forall i | 0 <= i < |s'.workers| ensures PlaceOk(c, s', i, -1) {
      assert PlaceOk(c, s, i, -1);
    }
  }

  /** A collected timer whose worker is still uncounted is armed, and the run is not being torn down. */
  lemma DueIsArmed(c: Config, s: Sched, i: nat)
    requires Full(c, s, -1) && i in s.due && i < |s.workers| && !s.workers[i].counted
    ensures i in s.timers && !s.cancelled && s.workers[i].awaiting
  {
  }

  lemma Discarded(c: Config, s: Sched, i: nat)
    requires Settled(c, s) && i in s.due && i < |s.workers| && s.workers[i].counted
    ensures var s' := s.(due := s.due - {i}, timers := s.timers - {i}); Settled(c, s') && Evolves(s, s') && s'.timers == s.timers
  {
    assert PlaceOk(c, s, i, -1);
    var s' := s.(due := s.due - {i}, timers := s.timers - {i});
    assert s'.timers == s.timers;
    forall j | 0 <= j < |s'.workers| ensures PlaceOk(c, s', j, -1) {
      assert PlaceOk(c, s, j, -1);
    }
  }

  lemma RunningShape(c: Config, s: Sched, i: nat)
    requires Base(c, s, -1) && i < |s.workers| && !s.workers[i].counted && !Idle(s, i)
    ensures s.workers[i].live || s.workers[i].exited
  {
    assert PlaceOk(c, s, i, -1);
  }

  lemma DueWorker(c: Config, s: Sched, i: nat)
    requires Settled(c, s) && i in s.due
    ensures i < |s.workers|
  {
  }

  lemma SettledFull(c: Config, s: Sched)
    requires Settled(c, s)
    ensures Full(c, s, -1) && Guarded(s)
  {
  }

  lemma FullSettled(c: Config, s: Sched)
    requires Full(c, s, -1) && Guarded(s) && Busy(c, s)
    ensures Settled(c, s)
  {
  }

  lemma TornCancels(s: Sched, s': Sched)
    requires TearsDown(s, s', Cancel)
    ensures s'.cancelled
  {
  }

  lemma DrainBegins(c: Config, s: Sched)
    requires Settled(c, s) && s.drainArmed
    ensures Full(c, s.(drainArmed := false), -1) && Flagged(s)
  {
    var s' := s.(drainArmed := false);
    forall j | 0 <= j < |s'.workers| ensures PlaceOk(c, s', j, -1) {
      assert PlaceOk(c, s, j, -1);
    }
  }

  lemma EvolvesUnarmed(s: Sched, s': Sched)
    requires s' == s.(drainArmed := false)
    ensures Evolves(s, s')
  {
  }

  lemma StillFlagged(s: Sched, s': Sched, k: nat)
    requires Evolves(s, s') && Flagged(s) && forall j :: 0 <= j < k && j < |s.workers| ==> s.workers[j].counted
    ensures Flagged(s') && |s'.workers| == |s.workers|
    ensures forall j :: 0 <= j < k && j < |s'.workers| ==> s'.workers[j].counted
  {
    forall j | 0 <= j < k && j < |s'.workers| ensures s'.workers[j].counted {
      assert s.workers[j].counted;
    }
  }

  lemma DrainEnds(c: Config, s: Sched)
    requires Full(c, s, -1) && Flagged(s) && forall j :: 0 <= j < |s.workers| ==> s.workers[j].counted
    ensures s.remaining == 0 && Settled(c, s)
  {
    NoneUncounted(s.workers);
  }

  /** Once the run is being torn down, completing a worker counts it. */
  lemma DoomedIsCounted(c: Config, s: Sched, i: nat, s': Sched)
    requires i < |s.workers| && Flagged(s) && s.workers[i].Complete()
    requires Full(c, s, i) && Accounted(c, s, i, s')
    ensures i < |s'.workers| && s'.workers[i].counted
  {
    hide Tight, Base;
    var w := s.workers[i];
    assert !w.counted ==> Doomed(s, w) && !w.awaiting && !Skips(w) && !Retries(c, s, w);
    if !w.counted && Aborts(c, s, w) {
      assert TornWorker(CountedOff(s, i).(aborted := true), i, s'.workers[i], FailFast);
    }
  }

  lemma CompleteIsCounted(c: Config, s: Sched, i: nat)
    requires i < |s.workers| && Flagged(s) && s.workers[i].Complete() && Full(c, s, -1)
    ensures s.workers[i].counted
  {
    assert PlaceOk(c, s, i, -1);
  }

  lemma StaysDone(s: Sched, s': Sched, i: nat)
    requires Evolves(s, s') && i < |s.workers| && s.workers[i].counted
    ensures i < |s'.workers| && s'.workers[i].counted
  {
  }

  lemma StillRunning(c: Config, s: Sched, i: nat)
    requires Full(c, s, -1) && Flagged(s) && i < |s.workers| && !s.workers[i].Complete()
    ensures !s.workers[i].counted && !Idle(s, i) && (s.workers[i].live || s.workers[i].exited)
  {
    assert PlaceOk(c, s, i, -1);
  }

  lemma Tighten(c: Config, s: Sched, i: nat)
    requires Full(c, s, i) && i < |s.workers| && !s.workers[i].exited && s.workers[i].live
    ensures Full(c, s, -1)
  {
    AccountSkips(c, s, i);
    hide Base;
  }

  lemma EvolvesRefl(s: Sched)
    ensures Evolves(s, s)
  {
  }

  lemma FullBase(c: Config, s: Sched, i: int)
    requires Full(c, s, i)
    ensures Base(c, s, i)
    ensures 0 <= i < |s.workers| && s.workers[i].exited ==> i !in s.queue
  {
    hide Base, Torn;
  }

  lemma FullBounds(c: Config, s: Sched)
    requires Full(c, s, -1)
    ensures s.next <= |s.workers|
  {
  }

  lemma NowBusy(c: Config, s: Sched)
    requires Full(c, s, -1) && (s.inFlight >= c.concurrency || (s.queue == [] && s.next >= |s.workers|))
    ensures Busy(c, s)
  {
  }

  lemma FreshRun(c: Config, s: Sched, count: nat)
    requires |s.workers| == s.remaining == count > 0 && forall i :: 0 <= i < count ==> s.workers[i] == NewWorker()
    requires s == Sched(s.workers, count, 0, 0, [], {}, {}, false, false, false, false, false)
    ensures Full(c, s, -1) && Guarded(s)
  {
    FreshCounts(s.workers);
    forall i | 0 <= i < |s.workers| ensures PlaceOk(c, s, i, -1) {
    }
  }

  lemma {:induction false} FreshCounts(ws: seq<Worker>)
    requires forall i :: 0 <= i < |ws| ==> ws[i] == NewWorker()
    ensures Uncounted(ws) == |ws| && Processes(ws) == 0
  {
    if |ws| > 0 { FreshCounts(ws[..|ws| - 1]); }
  }

  // What filling the slots does.

  lemma FillsRefl(s: Sched)
    ensures Fills(s, s)
  {
  }

  lemma TailOn(a: seq<nat>, b: seq<nat>, d: seq<nat>)
    requires Tail(a, b) && Tail(b, d)
    ensures Tail(a, d)
  {
  }

  lemma TailOfNothing(q: seq<nat>, q': seq<nat>)
    requires Tail(q, q')
    ensures q == [] ==> q' == []
  {
  }

  lemma TurnedOn(u: Worker, v: Worker, w: Worker, waitedU: bool, waitsV: bool, waitsW: bool, first: bool, later: bool)
    requires Turned(u, v, waitedU, waitsV, first) && Turned(v, w, waitsV, waitsW, later)
    requires u.spawns <= v.spawns <= w.spawns && !(first && later)
    ensures Turned(u, w, waitedU, waitsW, first || later)
  {
  }

  lemma FillsOn(a: Sched, b: Sched, d: Sched)
    requires Fills(a, b) && Fills(b, d)
    ensures Fills(a, d)
  {
    hide Turned, Waits, Tail;
    TailOn(a.queue, b.queue, d.queue);
    TailOfNothing(b.queue, d.queue);
    forall i | 0 <= i < |a.workers|
      ensures a.workers[i].spawns <= d.workers[i].spawns
      ensures Turned(a.workers[i], d.workers[i], Waits(a, i), Waits(d, i), d.aborted && !a.aborted)
    {
      TurnedOn(a.workers[i], b.workers[i], d.workers[i], Waits(a, i), Waits(b, i), Waits(d, i),
               b.aborted && !a.aborted, d.aborted && !b.aborted);
    }
  }

  /** What `account` makes of a worker that has its slot leaves those that wait alone, unless it aborts the run. */
  lemma AccountFills(c: Config, s: Sched, i: nat, s': Sched)
    requires i < |s.workers| && !Waits(s, i) && s.next <= |s.workers| && Accounted(c, s, i, s')
    ensures FillsBut(s, s', i)
  {
    hide TearsDown, Skips, Retries, Aborts;
    if !Skips(s.workers[i]) && !Retries(c, s, s.workers[i]) && Aborts(c, s, s.workers[i]) {
      AbortIsFirst(c, s, s.workers[i]);
      AbortFills(s, i, CountedOff(s, i).(aborted := true), s');
    }
  }

  lemma AbortIsFirst(c: Config, s: Sched, w: Worker)
    requires Aborts(c, s, w)
    ensures !s.aborted
  {
  }

  lemma AbortFills(s: Sched, i: nat, m: Sched, s': Sched)
    requires i < |s.workers| && !Waits(s, i) && s.next <= |s.workers| && !s.aborted && s.remaining > 0
    requires m == CountedOff(s, i).(aborted := true) && TearsDown(m, s', FailFast)
    ensures FillsBut(s, s', i)
  {
    forall j | 0 <= j < |s.workers|
      ensures s.workers[j].spawns <= s'.workers[j].spawns
      ensures j == i || Turned(s.workers[j], s'.workers[j], Waits(s, j), Waits(s', j), s'.aborted && !s.aborted)
    {
      assert TornWorker(m, j, s'.workers[j], FailFast);
      hide TearsDown;
    }
  }

  /** The same for a worker whose process was reaped first. */
  lemma TouchFills(s: Sched, s1: Sched, s': Sched, i: nat)
    requires i < |s.workers| == |s1.workers| && !Waits(s, i) && FillsBut(s1, s', i)
    requires s1 == Set(s, i, s1.workers[i]).(inFlight := s1.inFlight) && s1.workers[i].spawns == s.workers[i].spawns
    ensures FillsBut(s, s', i)
  {
    hide Turned;
    forall j | 0 <= j < |s.workers|
      ensures s.workers[j].spawns <= s'.workers[j].spawns
      ensures j == i || Turned(s.workers[j], s'.workers[j], Waits(s, j), Waits(s', j), s'.aborted && !s.aborted)
    {
      assert j == i || (s1.workers[j] == s.workers[j] && Waits(s1, j) == Waits(s, j));
    }
  }

  /** A child that was gone when it was first watched. */
  lemma GoneFills(c: Config, s: Sched, i: nat, code: Option<int>, s': Sched)
    requires i < |s.workers| && s.inFlight > 0 && !Waits(s, i) && s.next <= |s.workers|
    requires Accounted(c, Reaped(s, i, code), i, s')
    ensures FillsBut(s, s', i)
  {
    hide Accounted, FillsBut;
    AccountFills(c, Reaped(s, i, code), i, s');
    TouchFills(s, Reaped(s, i, code), s', i);
  }

  lemma NothingFills(s: Sched, x: int)
    ensures FillsBut(s, s, x)
  {
  }

  /** Starting the first in line. */
  lemma StartFills(s: Sched, w: Worker, s': Sched)
    requires (s.queue != [] || s.next < |s.workers|) && Front(s) < |s.workers| && Front(s) !in Popped(s).queue
    requires StartOf(s.workers[Front(s)], w) && FillsBut(Started(s, w), s', Front(s)) && Front(s) < Popped(s).next
    ensures Fills(s, s')
  {
    hide StartOf, Turned;
    var f, s1 := Front(s), Started(s, w);
    StartSpawns(s.workers[f], w);
    assert Tail(s.queue, s1.queue);
    TailOn(s.queue, s1.queue, s'.queue);
    forall j | 0 <= j < |s.workers|
      ensures s.workers[j].spawns <= s'.workers[j].spawns
      ensures Turned(s.workers[j], s'.workers[j], Waits(s, j), Waits(s', j), s'.aborted && !s.aborted)
    {
      if j == f {
        StartTurns(s.workers[f], s'.workers[f], s'.aborted && !s.aborted);
        assert Waits(s, f) && !Waits(s', f);
      } else {
        OthersWait(s, j);
      }
    }
  }

  lemma StartTurns(w: Worker, w': Worker, abort: bool)
    requires w.spawns < w'.spawns
    ensures Turned(w, w', true, false, abort)
  {
  }

  lemma StartSpawns(w: Worker, w': Worker)
    requires StartOf(w, w')
    ensures w'.spawns == w.spawns + 1
  {
  }

  lemma OthersWait(s: Sched, j: nat)
    requires j != Front(s)
    ensures Waits(Popped(s), j) == Waits(s, j)
  {
    if s.queue != [] {
      assert s.queue == [s.queue[0]] + s.queue[1..];
    }
  }

  // Whole-run consequences.

  /** What a teardown does, in terms of the workers: whoever has nothing running is shut and counted, whoever runs goes on
      running with the reason noted (unless a fail-fast abort inside the teardown noted its own), whoever was counted
      stays as it was but for the reason; nobody waits any more. */
  lemma TearsDownMeans(s: Sched, s': Sched, reason: Reason, i: nat)
    requires TearsDown(s, s', reason) && i < |s.workers|
    ensures i < |s'.workers| == |s.workers| == s'.next && s'.queue == [] && s'.timers == {}
    ensures var w, w' := s.workers[i], s'.workers[i];
            && (!w.counted && (i >= s.next || i in s.queue || w.awaiting) ==>
                  w'.counted && !w'.awaiting && w'.exited && w'.outClosed && w'.errClosed && w'.inClosed)
            && (w.counted || !(i >= s.next || i in s.queue || w.awaiting) ==> w' == w.(marks := w'.marks))
            && (!w'.counted ==>
                  match reason case Deadline => w'.marks.timedOut case Cancel => w'.marks.cancelled case FailFast => w'.marks.aborted)
            && (w.marks.timedOut ==> w'.marks.timedOut) && (w.marks.cancelled ==> w'.marks.cancelled)
            && w'.attempt == w.attempt && w'.spawns == w.spawns && w'.code == w.code && w'.live == w.live
            && (reason.Cancel? ==> s'.cancelled) && (reason.Deadline? ==> s'.timedOut) && (reason.FailFast? ==> s'.aborted)
  {
    assert TornWorker(s, i, s'.workers[i], reason) && Torn(s');
    UncountedIsReached(s', i);
    hide TearsDown, Torn;
    TornMeans(s, i, s'.workers[i], reason);
  }

  lemma UncountedIsReached(s: Sched, i: nat)
    requires Torn(s) && i < |s.workers|
    ensures s.queue == [] && s.timers == {} && s.next == |s.workers|
  {
  }

  lemma TornMeans(s: Sched, i: nat, w': Worker, reason: Reason)
    requires i < |s.workers| && TornWorker(s, i, w', reason)
    ensures var w := s.workers[i];
            && (!w.counted && (i >= s.next || i in s.queue || w.awaiting) ==>
                  w'.counted && !w'.awaiting && w'.exited && w'.outClosed && w'.errClosed && w'.inClosed)
            && (w.counted || !(i >= s.next || i in s.queue || w.awaiting) ==> w' == w.(marks := w'.marks))
            && (!w'.counted ==>
                  match reason case Deadline => w'.marks.timedOut case Cancel => w'.marks.cancelled case FailFast => w'.marks.aborted)
            && (w.marks.timedOut ==> w'.marks.timedOut) && (w.marks.cancelled ==> w'.marks.cancelled)
            && w'.attempt == w.attempt && w'.spawns == w.spawns && w'.code == w.code && w'.live == w.live
  {
    var w := s.workers[i];
    MarksMean(if Idle(s, i) && !w.counted then Final(w) else w, w');
    FinalMeans(w);
    hide Final, SameButMarks;
  }

  lemma MarksMean(a: Worker, b: Worker)
    requires SameButMarks(a, b)
    ensures b == a.(marks := b.marks) && (a.marks.timedOut ==> b.marks.timedOut) && (a.marks.cancelled ==> b.marks.cancelled)
  {
  }

  lemma FinalMeans(w: Worker)
    ensures Final(w) == w.(exited := true, outClosed := true, errClosed := true, inClosed := true, awaiting := false, counted := true)
  {
  }

  /** Accounting opens and closes nothing of the worker itself. */
  lemma AccountKeepsEnds(c: Config, s: Sched, i: nat, s': Sched)
    requires i < |s.workers| && Accounted(c, s, i, s')
    ensures i < |s'.workers| == |s.workers|
    ensures var w, w' := s.workers[i], s'.workers[i];
            && w'.exited == w.exited && w'.outClosed == w.outClosed && w'.errClosed == w.errClosed && w'.inClosed == w.inClosed
  {
    var w := s.workers[i];
    if !Skips(w) && !Retries(c, s, w) && Aborts(c, s, w) {
      assert TornWorker(CountedOff(s, i).(aborted := true), i, s'.workers[i], FailFast);
      hide TearsDown;
    }
  }

  /** What `account` does, in terms of what became of the worker. One whose child is gone and whose pipes are closed gets
      another attempt exactly if the run goes on, retries are left, and ssh itself failed for a passing reason: code 255,
      a transient message, no timeout, no start failure. Any other is counted, once, and a failure aborts the rest of a
      fail-fast run. */
  lemma AccountedMeans(c: Config, s: Sched, i: nat, s': Sched)
    requires i < |s.workers| && Accounted(c, s, i, s')
    ensures i < |s'.workers| == |s.workers|
    ensures var w, w' := s.workers[i], s'.workers[i];
            var ripe := !w.counted && !w.awaiting && w.exited && w.outClosed && w.errClosed && w.inClosed;
            var again := !s.cancelled && !s.aborted && w.attempt < c.maxRetries
                         && w.code == Some(255) && w.transient && !w.marks.timedOut && !w.startFailed;
            var failure := w.code != Some(0) || w.startFailed || w.marks.timedOut;
            && (!ripe ==> s' == s)
            && (ripe && again <==> w'.awaiting && !w.awaiting)
            && (ripe && again ==> !w'.counted && w'.attempt == w.attempt + 1 && s'.timers == s.timers + {i} && s'.remaining == s.remaining)
            && (ripe && !again <==> w'.counted && !w.counted)
            && (ripe && !again ==> w'.attempt == w.attempt && w'.code == w.code)
            && (s'.aborted && !s.aborted <==>
                  ripe && !again && failure && c.failFast && !s.cancelled && !s.aborted && s.remaining > 1)
            && (!(s'.aborted && !s.aborted) ==> forall j :: 0 <= j < |s.workers| && j != i ==> s'.workers[j] == s.workers[j])
            && (!(s'.aborted && !s.aborted) && ripe && !again ==> s'.remaining == s.remaining - 1)
  {
    var w := s.workers[i];
    if !Skips(w) && !Retries(c, s, w) && Aborts(c, s, w) {
      var m := CountedOff(s, i).(aborted := true);
      assert m.workers[i].counted;
      assert TornWorker(m, i, s'.workers[i], FailFast);
      hide TearsDown;
    }
  }

  /** Short of completion somebody is running or a backoff timer is armed. */
  lemma Progress(c: Config, s: Sched)
    requires Settled(c, s) && s.remaining > 0 && c.concurrency > 0
    ensures s.timers != {} ||
            exists i :: 0 <= i < |s.workers| && !Idle(s, i) && !s.workers[i].counted && !s.workers[i].Complete()
  {
    var i := SomeUncounted(s.workers);
    assert PlaceOk(c, s, i, -1);
    if i >= s.next || i in s.queue {
      var k := SomeProcess(s.workers);
      assert PlaceOk(c, s, k, -1);
    }
  }

  /** An uncounted worker is in exactly one place; a running one has an unreaped process or an open pipe. */
  lemma Partition(c: Config, s: Sched, i: nat)
    requires Settled(c, s) && i < |s.workers| && !s.workers[i].counted
    ensures var pending, queued, backingOff := i >= s.next, i in s.queue, i in s.timers;
            && !(pending && queued) && !(pending && backingOff) && !(queued && backingOff)
            && (!pending && !queued && !backingOff ==>
                  !s.workers[i].Complete() && s.workers[i].live == !s.workers[i].exited)
            && (pending || queued || backingOff ==> !s.workers[i].live)
  {
    assert PlaceOk(c, s, i, -1);
  }

  /** Each worker is started at most once per permitted attempt. */
  lemma SpawnBound(c: Config, s: Sched, i: nat)
    requires Settled(c, s) && i < |s.workers|
    ensures s.workers[i].spawns <= (if c.maxRetries > 0 then c.maxRetries else 0) + 1
  {
    assert PlaceOk(c, s, i, -1);
  }

  /** Nobody is counted without having been started for its last attempt, unless a teardown ended it first. */
  lemma CountedWasStarted(c: Config, s: Sched, i: nat)
    requires Settled(c, s) && i < |s.workers| && s.workers[i].counted
    ensures !Stopped(s.workers[i]) ==> s.workers[i].spawns == s.workers[i].attempt + 1
    ensures !Flagged(s) ==> !Stopped(s.workers[i])
  {
    assert PlaceOk(c, s, i, -1);
  }

  /** When the loop is told to stop, nothing is left behind. */
  lemma StopIsClean(c: Config, s: Sched)
    requires Settled(c, s) && s.stopped
    ensures s.inFlight == 0 && s.timers == {} && s.queue == [] && s.next == |s.workers|
    ensures forall i :: 0 <= i < |s.workers| ==> s.workers[i].counted && s.workers[i].Complete() && !s.workers[i].live
  {
    assert |s.queue| > 0 ==> s.queue[0] in s.queue;
    assert s.next < |s.workers| ==> PlaceOk(c, s, s.next, -1);
    AllCounted(s.workers);
    forall i | 0 <= i < |s.workers|
      ensures s.workers[i].Complete() && !s.workers[i].live && i < s.next && i !in s.queue && i !in s.timers
    {
      assert PlaceOk(c, s, i, -1);
    }
    NoProcess(s.workers);
  }

  /** A fail-fast abort is never without a worker that finished in failure. */
  lemma AbortHasCulprit(c: Config, s: Sched)
    requires Settled(c, s) && s.aborted
    ensures exists i :: 0 <= i < |s.workers| && s.workers[i].counted && s.workers[i].Failure()
  {
  }
}
