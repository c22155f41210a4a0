/** What a run over native connections keeps true. */
module ControllerSpec {

  datatype CancelKind = Other | Timeout | Interrupt | FailFast

  datatype HostResult = HostResult(
    host: string, ok: bool, exitCode: int, error: string, timedOut: bool, cancelled: bool, aborted: bool)

  /** One connection. It stays `active` from launch until it is retired, one reactor turn after it is done. */
  datatype Conn = Conn(result: HostResult, active: bool, done: bool)

  function NewConn(host: string): Conn {
    Conn(HostResult(host, false, 0, "", false, false, false), false, false)
  }

  /** `retiring` holds the connections whose retire timer is armed. */
  datatype Ctl = Ctl(
    conns: seq<Conn>, next: nat, active: nat, remaining: nat, retiring: set<nat>,
    cancelling: bool, completed: bool, outcomes: seq<seq<HostResult>>)

  function Results(conns: seq<Conn>): seq<HostResult> {
    seq(|conns|, i requires 0 <= i < |conns| => conns[i].result)
  }

  function Undone(conns: seq<Conn>): nat {
    if |conns| == 0 then 0 else Undone(conns[..|conns| - 1]) + if conns[|conns| - 1].done then 0 else 1
  }

  function Actives(conns: seq<Conn>): nat {
    if |conns| == 0 then 0 else Actives(conns[..|conns| - 1]) + if conns[|conns| - 1].active then 1 else 0
  }

  /** A final result that `--fail-fast` reacts to. */
  predicate Bad(r: HostResult) {
    !r.ok || r.exitCode != 0 || r.error != ""
  }

  /** `fail` on a connection that is not done. */
  function Failed(r: HostResult, message: string, kind: CancelKind): HostResult {
    r.(error := message, ok := false, timedOut := kind.Timeout?, cancelled := kind.Interrupt?, aborted := kind.FailFast?)
  }

  /** Well-known reasons select a kind when none was given. */
  function KindOf(reason: string, kind: CancelKind): CancelKind {
    if !kind.Other? then kind
    else if reason == "timed out" then Timeout
    else if reason == "fail-fast" then FailFast
    else if reason == "cancelled" || reason == "interrupted" then Interrupt
    else Other
  }

  /** One connection's place: pending, running, done and awaiting retirement, or retired. `x` are done connections whose
      retire timer is about to be armed. */
  predicate ConnOk(s: Ctl, i: nat, x: set<nat>)
    requires i < |s.conns|
  {
    && (i >= s.next ==> !s.conns[i].active && (s.conns[i].done ==> s.cancelling))
    && (!s.conns[i].done ==> s.conns[i].result == HostResult(s.conns[i].result.host, false, 0, "", false, false, false))
    && (i < s.next ==> s.conns[i].active || s.conns[i].done)
    && (i in s.retiring ==> s.conns[i].active && s.conns[i].done)
    && (s.conns[i].active && s.conns[i].done && i !in x ==> i in s.retiring)
  }

  /** `owed` counts completions not yet subtracted. Completion was reported exactly if the run is completed, with every
      result in target order. */
  predicate Base(limit: nat, s: Ctl, x: set<nat>, owed: nat) {
    && s.active == Actives(s.conns) <= limit && s.remaining == Undone(s.conns) + owed && s.next <= |s.conns|
    && (forall i :: i in s.retiring ==> i < |s.conns|)
    && (forall i :: 0 <= i < |s.conns| ==> ConnOk(s, i, x))
    && (s.completed ==> s.remaining == 0 && s.active == 0)
    && s.outcomes == if s.completed then [Results(s.conns)] else []
  }

  /** What holds between reactor events. */
  predicate Inv(limit: nat, s: Ctl) {
    && Base(limit, s, {}, 0)
    && (s.completed <==> s.remaining == 0 && s.active == 0)
    && (s.cancelling ==> s.remaining == 0)
    && (!s.cancelling && s.next < |s.conns| ==> s.active == limit)
  }

  /** Over any stretch of a run: results are final once done, nothing launches after cancelling starts, and a reported
      outcome stands. */
  predicate Evolves(s: Ctl, s': Ctl) {
    && |s'.conns| == |s.conns| && s.next <= s'.next
    && (s.cancelling ==> s'.cancelling && s'.next == s.next)
    && (s.completed ==> s'.completed && s'.outcomes == s.outcomes)
    && forall i :: 0 <= i < |s.conns| ==>
        && s'.conns[i].result.host == s.conns[i].result.host
        && (s.conns[i].done ==> s'.conns[i].done && s'.conns[i].result == s.conns[i].result)
        && (i < s.next && !s.conns[i].active ==> !s'.conns[i].active)
  }

  // Counting.

  function Bit(b: bool): nat {
    if b then 1 else 0
  }

  lemma {:induction false} CountsAfterSet(conns: seq<Conn>, i: nat, c: Conn)
    requires i < |conns|
    ensures Undone(conns[i := c]) + Bit(!conns[i].done) == Undone(conns) + Bit(!c.done)
    ensures Actives(conns[i := c]) + Bit(conns[i].active) == Actives(conns) + Bit(c.active)
  {
    var last := |conns| - 1;
    if i == last {
      assert conns[i := c][..last] == conns[..last];
    } else {
      CountsAfterSet(conns[..last], i, c);
      assert conns[i := c][..last] == conns[..last][i := c];
    }
  }

  lemma {:induction false} NoneUndone(conns: seq<Conn>)
    ensures Undone(conns) == 0 <==> forall i :: 0 <= i < |conns| ==> conns[i].done
  {
    if |conns| > 0 {
      var init := conns[..|conns| - 1];
      NoneUndone(init);
      assert forall i :: 0 <= i < |init| ==> init[i] == conns[i];
    }
  }

  lemma {:induction false} SomeActive(conns: seq<Conn>)
    ensures Actives(conns) == 0 <==> forall i :: 0 <= i < |conns| ==> !conns[i].active
  {
    if |conns| > 0 {
      var init := conns[..|conns| - 1];
      SomeActive(init);
      assert forall i :: 0 <= i < |init| ==> init[i] == conns[i];
    }
  }

  lemma EvolvesOn(a: Ctl, b: Ctl, d: Ctl)
    requires Evolves(a, b) && Evolves(b, d)
    ensures Evolves(a, d)
  {
    forall i | 0 <= i < |a.conns|
      ensures d.conns[i].result.host == a.conns[i].result.host
      ensures a.conns[i].done ==> d.conns[i].done && d.conns[i].result == a.conns[i].result
      ensures i < a.next && !a.conns[i].active ==> !d.conns[i].active
    {
      assert b.conns[i].result.host == a.conns[i].result.host;
    }
  }

  lemma EvolvesRefl(s: Ctl)
    ensures Evolves(s, s)
  {
  }

  // Consequences.

  /** Short of completion some connection is unretired, so another event is due. */
  lemma Progress(limit: nat, s: Ctl)
    requires Inv(limit, s) && !s.completed && limit > 0
    ensures exists i :: 0 <= i < |s.conns| && s.conns[i].active
  {
    SomeActive(s.conns);
    NoneUndone(s.conns);
    if s.active == 0 {
      forall i | 0 <= i < |s.conns| ensures s.conns[i].done {
        assert ConnOk(s, i, {});
      }
    }
  }

  /** A reported outcome has one result per target, in order, after everything is done and retired. */
  lemma CompletionIsWhole(limit: nat, s: Ctl, i: nat)
    requires Inv(limit, s) && s.outcomes != [] && i < |s.conns|
    ensures |s.outcomes| == 1 && |s.outcomes[0]| == |s.conns| && s.outcomes[0][i] == s.conns[i].result
    ensures s.conns[i].done && !s.conns[i].active
  {
    NoneUndone(s.conns);
    SomeActive(s.conns);
  }

  // Steps.

  function Finished(s: Ctl, i: nat, r: HostResult): Ctl
    requires i < |s.conns|
  {
    s.(conns := s.conns[i := s.conns[i].(result := r, done := true)])
  }

  lemma FinishKeeps(limit: nat, s: Ctl, i: nat, r: HostResult, x: set<nat>)
    requires Base(limit, s, x, 0) && i < |s.conns| && !s.conns[i].done && r.host == s.conns[i].result.host
    requires i < s.next || s.cancelling
    ensures Base(limit, Finished(s, i, r), x + {i}, 1) && Evolves(s, Finished(s, i, r)) && !s.completed
    ensures Undone(Finished(s, i, r).conns) == Undone(s.conns) - 1
  {
    var s' := Finished(s, i, r);
    CountsAfterSet(s.conns, i, s'.conns[i]);
    NoneUndone(s.conns);
    forall j | 0 <= j < |s'.conns| ensures ConnOk(s', j, x + {i}) {
      assert ConnOk(s, j, x);
    }
  }

  lemma SubtractKeeps(limit: nat, s: Ctl, x: set<nat>)
    requires Base(limit, s, x, 1) && !s.completed
    ensures s.remaining > 0 && Base(limit, s.(remaining := s.remaining - 1), x, 0)
  {
    var s' := s.(remaining := s.remaining - 1);
    forall j | 0 <= j < |s'.conns| ensures ConnOk(s', j, x) {
      assert ConnOk(s, j, x);
    }
  }

  lemma ArmKeeps(limit: nat, s: Ctl, i: nat, x: set<nat>)
    requires Base(limit, s, x + {i}, 0) && i < |s.conns| && s.conns[i].done
    ensures Base(limit, if s.conns[i].active then s.(retiring := s.retiring + {i}) else s, x, 0)
  {
    var s' := if s.conns[i].active then s.(retiring := s.retiring + {i}) else s;
    forall j | 0 <= j < |s'.conns| ensures ConnOk(s', j, x) {
      assert ConnOk(s, j, x + {i});
    }
  }

  lemma LaunchKeeps(limit: nat, s: Ctl)
    requires Base(limit, s, {}, 0) && s.next < |s.conns| && s.active < limit && !s.completed && !s.cancelling
    ensures var s' := s.(next := s.next + 1, active := s.active + 1, conns := s.conns[s.next := s.conns[s.next].(active := true)]);
            Base(limit, s', {}, 0) && Evolves(s, s') && !s.conns[s.next].done
  {
    var s' := s.(next := s.next + 1, active := s.active + 1, conns := s.conns[s.next := s.conns[s.next].(active := true)]);
    CountsAfterSet(s.conns, s.next, s'.conns[s.next]);
    assert ConnOk(s, s.next, {});
    forall j | 0 <= j < |s'.conns| ensures ConnOk(s', j, {}) {
      assert ConnOk(s, j, {});
    }
  }

  function Retired(s: Ctl, i: nat): Ctl
    requires i < |s.conns| && s.active > 0
  {
    s.(retiring := s.retiring - {i}, active := s.active - 1, conns := s.conns[i := s.conns[i].(active := false)])
  }

  lemma RetireKeeps(limit: nat, s: Ctl, i: nat)
    requires Base(limit, s, {}, 0) && i in s.retiring && !s.completed
    ensures i < |s.conns| && s.active > 0 && Base(limit, Retired(s, i), {}, 0) && Evolves(s, Retired(s, i))
  {
    assert ConnOk(s, i, {});
    CountsAfterSet(s.conns, i, s.conns[i].(active := false));
    var s' := Retired(s, i);
    forall j | 0 <= j < |s'.conns| ensures ConnOk(s', j, {}) {
      assert ConnOk(s, j, {});
    }
  }

  lemma CompleteKeeps(limit: nat, s: Ctl, x: set<nat>)
    requires Base(limit, s, x, 0) && s.remaining == 0 && s.active == 0 && !s.completed
    ensures var s' := s.(completed := true, outcomes := [Results(s.conns)]); Base(limit, s', x, 0) && Evolves(s, s')
  {
    var s' := s.(completed := true, outcomes := [Results(s.conns)]);
    forall j | 0 <= j < |s'.conns| ensures ConnOk(s', j, x) {
      assert ConnOk(s, j, x);
    }
  }

  lemma CancelKeeps(limit: nat, s: Ctl, x: set<nat>)
    requires Base(limit, s, x, 0)
    ensures Base(limit, s.(cancelling := true), x, 0) && Evolves(s, s.(cancelling := true))
  {
    var s' := s.(cancelling := true);
    forall j | 0 <= j < |s'.conns| ensures ConnOk(s', j, x) {
      assert ConnOk(s, j, x);
    }
  }

  lemma {:induction false} FreshCounts(conns: seq<Conn>)
    requires forall i :: 0 <= i < |conns| ==> !conns[i].done && !conns[i].active
    ensures Undone(conns) == |conns| && Actives(conns) == 0
  {
    if |conns| > 0 { FreshCounts(conns[..|conns| - 1]); }
  }

  lemma FreshBase(limit: nat, s: Ctl)
    requires forall i :: 0 <= i < |s.conns| ==> s.conns[i] == NewConn(s.conns[i].result.host)
    requires s == Ctl(s.conns, 0, 0, |s.conns|, {}, false, false, [])
    ensures Base(limit, s, {}, 0)
  {
    FreshCounts(s.conns);
  }

  lemma SubtractEvolves(s: Ctl)
    ensures forall k: nat :: Evolves(s, s.(remaining := k))
  {
  }

  lemma ArmEvolves(s: Ctl, retiring: set<nat>)
    ensures Evolves(s, s.(retiring := retiring))
  {
  }

  lemma StaysDone(s: Ctl, s': Ctl, i: nat)
    requires Evolves(s, s') && i < |s.conns| && s.conns[i].done
    ensures i < |s'.conns| == |s.conns| && s'.conns[i].done && s'.conns[i].result == s.conns[i].result
  {
  }

  lemma AllStayDone(s: Ctl, s': Ctl, k: nat)
    requires Evolves(s, s') && k <= |s.conns| && forall j :: 0 <= j < k ==> s.conns[j].done
    ensures |s'.conns| == |s.conns| && forall j :: 0 <= j < k ==> s'.conns[j].done
  {
  }

  lemma StillCancelling(s: Ctl, s': Ctl)
    requires Evolves(s, s') && s.cancelling
    ensures s'.cancelling
  {
  }

  lemma CompletedMeans(limit: nat, s: Ctl, x: set<nat>)
    requires Base(limit, s, x, 0) && s.completed
    ensures s.remaining == 0 && s.active == 0
  {
  }

  lemma AtMostLimit(limit: nat, s: Ctl)
    requires Base(limit, s, {}, 0)
    ensures s.active <= limit && s.next <= |s.conns|
  {
  }

  lemma SameSize(s: Ctl, s': Ctl)
    requires Evolves(s, s')
    ensures |s'.conns| == |s.conns|
  {
  }

  lemma LaunchedBefore(limit: nat, s: Ctl, i: nat)
    requires Base(limit, s, {}, 0) && i < |s.conns| && s.conns[i].active
    ensures i < s.next
  {
    assert ConnOk(s, i, {});
  }

  lemma UndoneIsBlank(limit: nat, s: Ctl, i: nat)
    requires Base(limit, s, {}, 0) && i < |s.conns| && !s.conns[i].done
    ensures s.conns[i].result == HostResult(s.conns[i].result.host, false, 0, "", false, false, false)
  {
    assert ConnOk(s, i, {});
  }

  lemma FailFastFails(r: HostResult)
    ensures Failed(r, "fail-fast", KindOf("fail-fast", FailFast)) ==
            r.(error := "fail-fast", ok := false, timedOut := false, cancelled := false, aborted := true)
  {
  }

  lemma DoneMeans(limit: nat, s: Ctl)
    requires Base(limit, s, {}, 0)
    ensures s.remaining == Undone(s.conns)
  {
  }

  lemma RetiringMeansRunning(limit: nat, s: Ctl, i: nat)
    requires Inv(limit, s) && i in s.retiring
    ensures !s.completed && i < |s.conns| && s.conns[i].active
  {
    assert ConnOk(s, i, {});
    SomeActive(s.conns);
  }

  lemma StaysRetired(s: Ctl, s': Ctl, i: nat)
    requires Evolves(s, s') && i < |s.conns| && i < s.next && !s.conns[i].active
    ensures i < |s'.conns| && !s'.conns[i].active
  {
  }

  lemma UndoneAfterRetire(s: Ctl, i: nat)
    requires i < |s.conns|
    ensures Undone(s.conns[i := s.conns[i].(active := false)]) == Undone(s.conns)
  {
    CountsAfterSet(s.conns, i, s.conns[i].(active := false));
  }
}

/** The controller of a native run: a sliding window of connections, completed once all are done and retired. Whether a
    connection can be set up, and what it reports, is arbitrary. */
module NativeController {
  import opened ControllerSpec

  datatype Event =
    | HostExits(i: nat, exited: bool, code: int)
    | HostFails(i: nat, message: string)
    | RetireFires(i: nat)
    | CancelRequested(reason: string, kind: CancelKind)

  /** What each event does to the run; one that cannot happen in the present state does nothing. */
  ghost predicate Handles(failFast: bool, e: Event, s: Ctl, s': Ctl) {
    && |s'.conns| == |s.conns|
    && match e
       case HostExits(i, exited, code) =>
         if i < |s.conns| && s.conns[i].active && !s.conns[i].done
         then s'.conns[i].done && s'.conns[i].result == s.conns[i].result.(ok := true, exitCode := if exited then code else -1)
              && (s'.cancelling <==> s.cancelling || (failFast && (!exited || code != 0)))
         else s' == s
       case HostFails(i, message) =>
         if i < |s.conns| && s.conns[i].active && !s.conns[i].done
         then s'.conns[i].done && !s'.conns[i].result.ok && s'.conns[i].result.error == message
              && (s'.cancelling <==> s.cancelling || failFast)
         else s' == s
       case RetireFires(i) =>
         if i in s.retiring then i < |s.conns| && s.conns[i].active && !s'.conns[i].active else s' == s
       case CancelRequested(reason, _) =>
         && (s.completed ==> s' == s) && s'.remaining == 0
         && forall j :: 0 <= j < |s.conns| ==>
              s'.conns[j].done && (!s.conns[j].done ==> !s'.conns[j].result.ok && s'.conns[j].result.error == reason)
  }

  class Controller {
    const limit: nat
    const failFast: bool
    var conns: seq<Conn>
    var nextToStart: nat
    var active: nat
    var remaining: nat
    var retiring: set<nat>
    var cancelling: bool
    var completed: bool
    var filling: bool
    var outcomes: seq<seq<HostResult>>

    function State(): Ctl
      reads this
    {
      Ctl(conns, nextToStart, active, remaining, retiring, cancelling, completed, outcomes)
    }

    ghost predicate Valid()
      reads this
    {
      Inv(limit, State()) && !filling
    }

    /** `start`: without targets the run completes at once, with no results. */
    constructor (hosts: seq<string>, concurrency: nat, failFast: bool)
      ensures Valid() && fresh(this)
      ensures |conns| == |hosts| && forall i :: 0 <= i < |hosts| ==> conns[i].result.host == hosts[i]
      ensures limit == (if concurrency == 0 then |hosts| else concurrency)
    {
      limit := if concurrency == 0 then |hosts| else concurrency;
      this.failFast := failFast;
      conns := seq(|hosts|, i requires 0 <= i < |hosts| => NewConn(hosts[i]));
      nextToStart, active, remaining, retiring := 0, 0, |hosts|, {};
      cancelling, completed, filling := false, false, false;
      outcomes := [];
      new;
      FreshBase(limit, State());
      if hosts == [] {
        completed := true;
        outcomes := [[]];
        CompleteKeeps(limit, State().(completed := false, outcomes := []), {});
        assert Results(conns) == [];
        return;
      }
      FillSlots();
    }

    method CompleteIfReady(ghost x: set<nat>)
      requires Base(limit, State(), x, 0)
      modifies this`completed, this`outcomes
      ensures Base(limit, State(), x, 0) && Evolves(old(State()), State())
      ensures completed <==> remaining == 0 && active == 0
    {
      hide Evolves;
      EvolvesRefl(State());
      if remaining != 0 || active != 0 || completed {
        return;
      }
      CompleteKeeps(limit, State(), x);
      assert outcomes + [Results(conns)] == [Results(conns)];
      completed := true;
      outcomes := outcomes + [Results(conns)];
    }

    /** Ends a connection with its final result. */
    method Finish(i: nat, result: HostResult, ghost x: set<nat>)
      requires Base(limit, State(), x, 0) && i < |conns| && !conns[i].done && (i < nextToStart || cancelling)
      requires result.host == conns[i].result.host
      modifies this
      ensures Base(limit, State(), x, 0) && Evolves(old(State()), State()) && filling == old(filling)
      ensures i < |conns| && conns[i].done && conns[i].result == result && nextToStart == old(nextToStart)
      ensures cancelling != old(cancelling) ==> Undone(conns) == 0
      ensures Undone(conns) < old(Undone(conns)) && active == old(active)
      ensures completed <==> remaining == 0 && active == 0
      ensures old(cancelling) || !cancelling ==> conns == old(conns)[i := old(conns[i]).(result := result, done := true)]
      ensures cancelling <==> old(cancelling) || (failFast && (!result.ok || result.exitCode != 0 || result.error != ""))
      ensures cancelling && !old(cancelling) ==> |conns| == |old(conns)| && forall j :: 0 <= j < |conns| && !old(conns[j].done) && j != i ==>
                  && conns[j].done && conns[j].result.aborted && !conns[j].result.ok && !conns[j].result.timedOut
                  && !conns[j].result.cancelled && conns[j].result.error == "fail-fast"
      decreases Undone(conns), 0
    {
      hide Base, Evolves;
      ghost var s := State();
      FinishKeeps(limit, s, i, result, x);
      conns := conns[i := conns[i].(result := result, done := true)];
      ghost var s1 := State();
      OnConnDone(i, x);
      EvolvesOn(s, s1, State());
      StaysDone(s1, State(), i);
    }

    method OnConnDone(i: nat, ghost x: set<nat>)
      requires Base(limit, State(), x + {i}, 1) && i < |conns| && conns[i].done && !completed
      modifies this
      ensures Base(limit, State(), x, 0) && Evolves(old(State()), State()) && filling == old(filling)
      ensures nextToStart == old(nextToStart)
      ensures cancelling != old(cancelling) ==> Undone(conns) == 0
      ensures Undone(conns) <= old(Undone(conns)) && active == old(active)
      ensures completed <==> remaining == 0 && active == 0
      ensures old(cancelling) ==> conns == old(conns)
      ensures var r := old(conns[i].result);
              cancelling <==> old(cancelling) || (failFast && (!r.ok || r.exitCode != 0 || r.error != ""))
      ensures cancelling && !old(cancelling) ==> |conns| == |old(conns)| && forall j :: 0 <= j < |conns| && !old(conns[j].done) ==>
                  && conns[j].done && conns[j].result.aborted && !conns[j].result.ok && !conns[j].result.timedOut
                  && !conns[j].result.cancelled && conns[j].result.error == "fail-fast"
      ensures !cancelling ==> conns == old(conns)
      decreases Undone(conns), 2
    {
      hide Base, Evolves, KindOf, Failed, Undone;
      ghost var s := State();
      SubtractKeeps(limit, s, x + {i});
      remaining := remaining - 1;
      ghost var s1 := State();
      SubtractEvolves(s);
      if failFast && !cancelling && Bad(conns[i].result) {
        Cancel("fail-fast", FailFast, x + {i});
        NoneUndone(conns);
        forall j | 0 <= j < |conns| && !s.conns[j].done
          ensures conns[j].result == s.conns[j].result.(error := "fail-fast", ok := false, timedOut := false, cancelled := false, aborted := true)
        {
          FailFastFails(s.conns[j].result);
        }
        EvolvesOn(s, s1, State());
        StaysDone(s1, State(), i);
      }
      ghost var s2 := State();
      ArmKeeps(limit, s2, i, x);
      if conns[i].active {
        retiring := retiring + {i};
      }
      ghost var s3 := State();
      ArmEvolves(s2, s3.retiring);
      EvolvesOn(s, s2, s3);
      CompleteIfReady(x);
      EvolvesOn(s, s3, State());
    }

    /** `cancel`: every connection that is not done fails with the reason; nothing is launched any more. */
    method Cancel(reason: string, kind: CancelKind, ghost x: set<nat>)
      requires Base(limit, State(), x, 0)
      modifies this
      ensures Base(limit, State(), x, 0) && Evolves(old(State()), State()) && filling == old(filling)
      ensures nextToStart == old(nextToStart) && Undone(conns) <= old(Undone(conns)) && active == old(active)
      ensures completed <==> remaining == 0 && active == 0
      ensures if old(completed) then State() == old(State()) else cancelling && Undone(conns) == 0
      ensures |conns| == |old(conns)| && forall j :: 0 <= j < |conns| && !old(conns[j].done) && !old(completed) ==>
                conns[j].result == Failed(old(conns[j].result), reason, KindOf(reason, kind))
      decreases Undone(conns), 1
    {
      hide Base, Evolves, KindOf, Undone;
      ghost var s := State();
      EvolvesRefl(s);
      if completed {
        CompletedMeans(limit, s, x);
        return;
      }
      CancelKeeps(limit, s, x);
      cancelling := true;
      var final := KindOf(reason, kind);
      for i := 0 to |conns|
        invariant Base(limit, State(), x, 0) && Evolves(s, State()) && filling == old(filling) && cancelling
        invariant active == old(active) && nextToStart == old(nextToStart) && Undone(conns) <= Undone(s.conns) && |conns| == |s.conns|
        invariant forall j :: 0 <= j < i ==> conns[j].done
        invariant forall j :: 0 <= j < |conns| && !s.conns[j].done ==>
                    conns[j].result == if j < i then Failed(s.conns[j].result, reason, final) else s.conns[j].result
        invariant forall j :: i <= j < |conns| ==> conns[j].done == s.conns[j].done
      {
        hide Base, Evolves, KindOf, Undone;
        if !conns[i].done {
          ghost var s1 := State();
          Finish(i, Failed(conns[i].result, reason, final), x);
          EvolvesOn(s, s1, State());
          AllStayDone(s1, State(), i);
          StillCancelling(s1, State());
        }
      }
      NoneUndone(conns);
      ghost var s2 := State();
      CompleteIfReady(x);
      EvolvesOn(s, s2, State());
    }

    /** `fillSlots`: launches pending connections while the limit allows and nobody cancels. */
    method FillSlots()
      requires Base(limit, State(), {}, 0) && !filling && (cancelling ==> Undone(conns) == 0)
      modifies this
      ensures Base(limit, State(), {}, 0) && Evolves(old(State()), State()) && !filling
      ensures cancelling ==> Undone(conns) == 0
      ensures !completed && !cancelling && nextToStart < |conns| ==> active == limit
      ensures active >= old(active) && completed == old(completed)
      ensures old(!completed && !cancelling && nextToStart < |conns| && active < limit) ==> active > 0
    {
      hide Base, Evolves;
      ghost var s := State();
      EvolvesRefl(s);
      if completed || cancelling || filling {
        return;
      }
      filling := true;
      AtMostLimit(limit, s);
      while nextToStart < |conns| && active < limit && !cancelling
        invariant Base(limit, State(), {}, 0) && Evolves(s, State()) && filling && !completed
        invariant cancelling ==> Undone(conns) == 0
        invariant old(active) <= active <= limit && (State() == s || active > 0) && |conns| == |s.conns|
        decreases |conns| - nextToStart
      {
        hide Base, Evolves;
        ghost var s1 := State();
        var connected: bool := *;
        var message: string := *;
        Launch(connected, message);
        EvolvesOn(s, s1, State());
        SameSize(s1, State());
        AtMostLimit(limit, State());
      }
      filling := false;
    }

    /** Starts the next connection; setting it up may fail at once, with this message. */
    method Launch(connected: bool, message: string)
      requires Base(limit, State(), {}, 0) && nextToStart < |conns| && active < limit && !completed && !cancelling
      modifies this
      ensures Base(limit, State(), {}, 0) && Evolves(old(State()), State()) && filling == old(filling) && !completed
      ensures nextToStart == old(nextToStart) + 1 && active == old(active) + 1
      ensures cancelling ==> Undone(conns) == 0
      ensures |conns| == |old(conns)| && (cancelling <==> failFast && conns[old(nextToStart)].done)
      ensures conns[old(nextToStart)].done <==> !connected
      ensures !connected ==> !conns[old(nextToStart)].result.ok && conns[old(nextToStart)].result.error == message
      ensures !cancelling ==> forall j :: 0 <= j < |conns| && j != old(nextToStart) ==> conns[j] == old(conns[j])
    {
      hide Base, Evolves;
      ghost var s := State();
      LaunchKeeps(limit, s);
      var i := nextToStart;
      nextToStart := nextToStart + 1;
      conns := conns[i := conns[i].(active := true)];
      active := active + 1;
      ghost var s1 := State();
      if !connected {
        Finish(i, Failed(conns[i].result, message, Other), {});
        EvolvesOn(s, s1, State());
      }
    }

    /** The remote command ended. */
    method OnExit(i: nat, exited: bool, code: int)
      requires Valid() && i < |conns| && conns[i].active
      modifies this
      ensures Valid() && Evolves(old(State()), State()) && i < |conns| && conns[i].done
      ensures !old(conns[i].done) ==> conns[i].result == old(conns[i].result).(ok := true, exitCode := if exited then code else -1)
      ensures !old(conns[i].done) && !old(cancelling) ==>
                (cancelling <==> failFast && (!exited || code != 0))
      ensures old(conns[i].done) || old(cancelling) ==> cancelling == old(cancelling)
      ensures old(conns[i].done) ==> State() == old(State())
      ensures cancelling && !old(cancelling) ==> |conns| == |old(conns)| && forall j :: 0 <= j < |conns| && !old(conns[j].done) && j != i ==>
                  && conns[j].done && conns[j].result.aborted && !conns[j].result.ok && !conns[j].result.timedOut
                  && !conns[j].result.cancelled && conns[j].result.error == "fail-fast"
    {
      hide Base, Evolves;
      EvolvesRefl(State());
      if conns[i].done {
        return;
      }
      ghost var s := State();
      LaunchedBefore(limit, s, i);
      UndoneIsBlank(limit, s, i);
      DoneMeans(limit, s);
      Finish(i, conns[i].result.(ok := true, exitCode := if exited then code else -1), {});
      DoneMeans(limit, State());
      SameSize(s, State());
    }

    /** The connection broke. */
    method OnError(i: nat, message: string)
      requires Valid() && i < |conns| && conns[i].active
      modifies this
      ensures Valid() && Evolves(old(State()), State()) && i < |conns| && conns[i].done
      ensures !old(conns[i].done) ==>
                conns[i].result == old(conns[i].result).(error := message, ok := false, timedOut := false, cancelled := false, aborted := false)
      ensures !old(conns[i].done) ==> (cancelling <==> old(cancelling) || failFast)
      ensures old(conns[i].done) ==> State() == old(State())
      ensures cancelling && !old(cancelling) ==> |conns| == |old(conns)| && forall j :: 0 <= j < |conns| && !old(conns[j].done) && j != i ==>
                  && conns[j].done && conns[j].result.aborted && !conns[j].result.ok && !conns[j].result.timedOut
                  && !conns[j].result.cancelled && conns[j].result.error == "fail-fast"
    {
      hide Base, Evolves;
      EvolvesRefl(State());
      if conns[i].done {
        return;
      }
      ghost var s := State();
      LaunchedBefore(limit, s, i);
      DoneMeans(limit, s);
      Finish(i, Failed(conns[i].result, message, Other), {});
      DoneMeans(limit, State());
      SameSize(s, State());
    }

    method OnCancel(reason: string, kind: CancelKind)
      requires Valid()
      modifies this
      ensures Valid() && Evolves(old(State()), State()) && remaining == 0 && Undone(conns) == 0
      ensures nextToStart == old(nextToStart) && (old(completed) ==> State() == old(State()))
      ensures |conns| == |old(conns)| && forall j :: 0 <= j < |conns| && !old(conns[j].done) ==>
                var r := conns[j].result;
                && conns[j].done && !r.ok && r.exitCode == 0 && r.error == reason
                && (r.timedOut <==> kind.Timeout? || (kind.Other? && reason == "timed out"))
                && (r.aborted <==> kind.FailFast? || (kind.Other? && reason == "fail-fast"))
                && (r.cancelled <==> kind.Interrupt? || (kind.Other? && (reason == "cancelled" || reason == "interrupted")))
    {
      hide Base, Evolves;
      ghost var s := State();
      DoneMeans(limit, s);
      NoneUndone(conns);
      Cancel(reason, kind, {});
      DoneMeans(limit, State());
      NoneUndone(conns);
      forall j | 0 <= j < |conns| && !s.conns[j].done ensures s.conns[j].result.exitCode == 0 {
        UndoneIsBlank(limit, s, j);
      }
    }

    /** The deferred retirement of a connection that is done: its slot is free for the next one. */
    method Retire(i: nat)
      requires Valid() && i in retiring
      modifies this
      ensures i < |old(conns)| && old(conns[i].active)
      ensures Valid() && Evolves(old(State()), State()) && i < |conns| && !conns[i].active
    {
      hide Base, Evolves;
      ghost var s := State();
      RetiringMeansRunning(limit, s, i);
      RetireKeeps(limit, s, i);
      DoneMeans(limit, s);
      retiring := retiring - {i};
      conns := conns[i := conns[i].(active := false)];
      active := active - 1;
      ghost var s1 := State();
      UndoneAfterRetire(s, i);
      LaunchedBefore(limit, s, i);
      EvolvesRefl(s1);
      if !cancelling {
        FillSlots();
        EvolvesOn(s, s1, State());
      }
      ghost var s2 := State();
      CompleteIfReady({});
      EvolvesOn(s, s2, State());
      EvolvesOn(s1, s2, State());
      StaysRetired(s1, State(), i);
      DoneMeans(limit, State());
    }

    method Handle(event: Event)
      requires Valid()
      modifies this
      ensures Valid() && Evolves(old(State()), State()) && Handles(failFast, event, old(State()), State())
    {
      hide Base, Evolves, Inv, Undone;
      EvolvesRefl(State());
      ghost var s := State();
      match event
      case HostExits(i, exited, code) =>
        if i < |conns| && conns[i].active {
          OnExit(i, exited, code);
          SameSize(s, State());
        }
      case HostFails(i, message) =>
        if i < |conns| && conns[i].active {
          OnError(i, message);
          SameSize(s, State());
        }
      case RetireFires(i) =>
        if i in retiring {
          Retire(i);
          SameSize(s, State());
        }
      case CancelRequested(reason, kind) =>
        OnCancel(reason, kind);
        NoneUndone(conns);
    }

    /** Any sequence of events: each is handled, one after the other; the trace shows the states in between. */
    method Run(events: seq<Event>) returns (ghost trace: seq<Ctl>)
      requires Valid()
      modifies this
      ensures Valid() && Evolves(old(State()), State())
      ensures |trace| == |events| + 1 && trace[0] == old(State()) && trace[|events|] == State()
      ensures forall k :: 0 <= k < |events| ==> Inv(limit, trace[k]) && Handles(failFast, events[k], trace[k], trace[k + 1])
    {
      hide Base, Evolves, Inv, Handles;
      EvolvesRefl(State());
      trace := [State()];
      for k := 0 to |events|
        invariant Valid() && Evolves(old(State()), State())
        invariant |trace| == k + 1 && trace[0] == old(State()) && trace[k] == State()
        invariant forall j :: 0 <= j < k ==> Inv(limit, trace[j]) && Handles(failFast, events[j], trace[j], trace[j + 1])
      {
        hide Base, Evolves, Inv, Handles;
        ghost var s := State();
        Handle(events[k]);
        EvolvesOn(old(State()), s, State());
        trace := trace + [State()];
      }
    }
  }
}
