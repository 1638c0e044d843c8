/** SIGINT_HANDLER reaches every scheduler of the list (src/Scheduler.hpp:50-57). */
module RuntimeHandler {
  import opened Options
  import opened Runtime
  import opened RuntimeInvariant
  import opened RuntimeSafety
  import opened RuntimeProgress
  import opened RuntimeShutdown
  import opened TaskMembers

  // --- Empty handles in a queue ----------------------------------------------------------------------

  function CountNull(hs: seq<Handle>): nat {
    if hs == [] then 0 else CountNull(hs[..|hs| - 1]) + (if hs[|hs| - 1] == Null then 1 else 0)
  }

  lemma {:induction false} MoreNulls(a: seq<Handle>, b: seq<Handle>)
    requires a <= b
    ensures CountNull(a) <= CountNull(b)
    decreases |b|
  {
    if |a| < |b| {
      MoreNulls(a, b[..|b| - 1]);
    } else {
      assert a == b;
    }
  }

  /** The handler's loop over threads_ runs once for each worker of the scheduler. */
  lemma {:induction false} OncePerWorker(s: State, q: nat)
    ensures CountWorkers(s.threads, q) == |Workers(s, q)|
    decreases |s.threads|
  {
    if s.threads == [] {
      assert Workers(s, q) == {};
    } else {
      var n := |s.threads| - 1;
      var s' := s.(threads := s.threads[..n]);
      OncePerWorker(s', q);
      assert Workers(s, q) == if s.threads[n].home == Worker(q) then Workers(s', q) + {n} else Workers(s', q);
    }
  }

  // --- How far the handler has come ------------------------------------------------------------------

  /** What has been pushed to q since s0. */
  function NewItems(s0: State, s: State, q: nat): seq<Handle>
    requires q < |s0.ready| && q < |s.ready| && |s0.ready[q].items| <= |s.ready[q].items|
  {
    s.ready[q].items[|s0.ready[q].items|..]
  }

  /** Scheduler q has been stopped, and n empty handles at least have been pushed to it since s0. */
  predicate Swept(s0: State, s: State, q: nat, n: nat) {
    && q < |s0.ready| && q < |s.ready| && q < |s.running| && s0.ready[q].items <= s.ready[q].items
    && !s.running[q] && CountNull(NewItems(s0, s, q)) >= n
  }

  predicate SweptBefore(s0: State, s: State, q: nat) {
    forall p: nat :: p < q && p < |s.running| ==> Swept(s0, s, p, CountWorkers(s.threads, p))
  }

  ghost predicate HandlerAt(s0: State, s: State) {
    && |s0.ready| == |s.ready| == |s.running|
    && (forall q :: 0 <= q < |s.ready| ==> s0.ready[q].items <= s.ready[q].items)
    && match s.sig
       case Stop(q) => SweptBefore(s0, s, q)
       case Flood(q, k) => SweptBefore(s0, s, q) && Swept(s0, s, q, k)
       case Off => SweptBefore(s0, s, |s.running|)
  }

  /** No step takes anything back. */
  lemma StepGrows(s: State, t: nat, a: Act, s': State, q: nat)
    requires Inv(s) && Step(s, t, a, s') && q < |s.ready|
    ensures q < |s.running| && q < |s'.running| && q < |s'.ready|
    ensures s.ready[q].items <= s'.ready[q].items && (s'.running[q] ==> s.running[q])
    ensures SignalAct(a) || s'.sig == s.sig
  {
    StepShape(s, t, a, s');
    assert QueuesOk(s);
    if LoopAct(a) {
      LoopMoves(s, t, a, s');
    } else if SignalAct(a) {
      SignalGrows(s, t, a, s', q);
    } else {
      hide Do, Enabled;
      OthersLengthen(s, t, a, s', q);
    }
  }

  lemma SignalGrows(s: State, t: nat, a: Act, s': State, q: nat)
    requires Step(s, t, a, s') && SignalAct(a) && q < |s.ready| == |s.running|
    ensures |s'.ready| == |s'.running| == |s.ready|
    ensures s.ready[q].items <= s'.ready[q].items && (s'.running[q] ==> s.running[q])
  {
  }

  lemma SweptStays(s0: State, s: State, s': State, q: nat, n: nat)
    requires Swept(s0, s, q, n) && q < |s'.ready| && q < |s'.running|
    requires s.ready[q].items <= s'.ready[q].items && (s'.running[q] ==> s.running[q])
    ensures Swept(s0, s', q, n)
  {
    var m := |s0.ready[q].items|;
    assert s0.ready[q].items == s.ready[q].items[..m] == s'.ready[q].items[..m];
    assert NewItems(s0, s, q) == NewItems(s0, s', q)[..|s.ready[q].items| - m];
    MoreNulls(NewItems(s0, s, q), NewItems(s0, s', q));
  }

  lemma SweptBeforeStays(s0: State, s: State, t: nat, a: Act, s': State, q: nat)
    requires Inv(s) && Step(s, t, a, s') && SweptBefore(s0, s, q)
    ensures SweptBefore(s0, s', q)
  {
    StepShape(s, t, a, s');
    hide Do, Enabled, Inv, Swept;
    forall p: nat | p < q && p < |s'.running| ensures Swept(s0, s', p, CountWorkers(s'.threads, p)) {
      AboutSchedulers(s);
      StepGrows(s, t, a, s', p);
      SweptStays(s0, s, s', p, CountWorkers(s.threads, p));
      WorkersFixed(s.threads, s'.threads, p);
    }
  }

  lemma AboutSchedulers(s: State)
    requires Inv(s)
    ensures |s.running| == |s.ready|
  {
  }

  lemma StepHandler(s0: State, s: State, t: nat, a: Act, s': State)
    requires Inv(s) && Step(s, t, a, s') && HandlerAt(s0, s) && s.sig != Off
    ensures HandlerAt(s0, s')
  {
    StepShape(s, t, a, s');
    forall q | 0 <= q < |s.ready| ensures s0.ready[q].items <= s'.ready[q].items {
      StepGrows(s, t, a, s', q);
    }
    var q := s.sig.q;
    SweptBeforeStays(s0, s, t, a, s', q);
    AboutSchedulers(s);
    if SignalAct(a) {
      OwnStep(s0, s, t, a, s');
    } else if |s.ready| > 0 {
      StepGrows(s, t, a, s', 0);
      if s.sig.Flood? {
        StepGrows(s, t, a, s', q);
        SweptStays(s0, s, s', q, s.sig.k);
      }
    } else {
      NoSchedulers(s, t, a, s');
    }
  }

  lemma NoSchedulers(s: State, t: nat, a: Act, s': State)
    requires Inv(s) && Step(s, t, a, s') && !SignalAct(a)
    ensures s'.sig == s.sig
  {
    if LoopAct(a) {
      LoopMoves(s, t, a, s');
    }
  }

  /** The handler's own steps. */
  lemma OwnStep(s0: State, s: State, t: nat, a: Act, s': State)
    requires Inv(s) && Step(s, t, a, s') && SignalAct(a) && s.sig != Off && HandlerAt(s0, s)
    requires SweptBefore(s0, s', s.sig.q) && |s'.running| == |s.running|
    ensures match s'.sig
            case Stop(q) => SweptBefore(s0, s', q)
            case Flood(q, k) => SweptBefore(s0, s', q) && Swept(s0, s', q, k)
            case Off => SweptBefore(s0, s', |s'.running|)
  {
    if a == SigFlood {
      assert s' == DoFlood(s);
      assert QueuesOk(s);
      hide Step, Inv;
      OwnFlood(s0, s, s');
    } else {
      assert s' == DoStop(s);
      hide Step, Inv;
    }
  }

  lemma OwnFlood(s0: State, s: State, s': State)
    requires s.sig.Flood? && s' == DoFlood(s) && QueuesOk(s) && HandlerAt(s0, s)
    requires SweptBefore(s0, s', s.sig.q)
    ensures if s'.sig.Flood? then s'.sig.q == s.sig.q && Swept(s0, s', s'.sig.q, s'.sig.k)
            else s'.sig.Stop? && SweptBefore(s0, s', s'.sig.q)
  {
    var q := s.sig.q;
    if s'.sig.Flood? {
      var had, has := NewItems(s0, s, q), NewItems(s0, s', q);
      assert has == had + [Null] && has[..|has| - 1] == had;
    }
  }

  // --- The whole handler -----------------------------------------------------------------------------

  lemma {:induction false} HandlerSweeps(ss: seq<State>, es: seq<Event>, i: nat, j: nat)
    requires Execution(ss, es) && i < j < |ss| && es[i].a == SigBegin
    requires forall k :: i < k < j ==> ss[k].sig != Off
    ensures HandlerAt(ss[i], ss[j])
    decreases j
  {
    RunKeepsInv(ss, es, j - 1);
    assert StepAt(ss, es, j - 1);
    if j == i + 1 {
      assert QueuesOk(ss[i]);
    } else {
      HandlerSweeps(ss, es, i, j - 1);
      StepHandler(ss[i], ss[j - 1], es[j - 1].t, es[j - 1].a, ss[j]);
    }
  }

  /** The handler misses nobody: when it returns, every scheduler has been stopped, and has been given,
      since the handler was entered, an empty handle at least for each of its workers. */
  lemma HandlerStopsAll(ss: seq<State>, es: seq<Event>, i: nat, j: nat, q: nat)
    requires Execution(ss, es) && i < j < |ss| && es[i].a == SigBegin && ss[j].sig == Off
    requires forall k :: i < k < j ==> ss[k].sig != Off
    requires q < |ss[j].running|
    ensures q < |ss[i].ready| && q < |ss[j].ready| && ss[i].ready[q].items <= ss[j].ready[q].items
    ensures !ss[j].running[q]
    ensures CountNull(ss[j].ready[q].items[|ss[i].ready[q].items|..]) >= |Workers(ss[j], q)|
  {
    OncePerWorker(ss[j], q);
    HandlerSweeps(ss, es, i, j);
    assert Swept(ss[i], ss[j], q, CountWorkers(ss[j].threads, q));
  }

  // --- Shutdown of the whole server ------------------------------------------------------------------

  predicate EveryoneExited(s: State) {
    forall u :: 0 <= u < |s.threads| && s.threads[u].home.Worker? ==> s.threads[u].loop == Exited
  }

  /** Every worker thread is back from its last resume. */
  predicate EveryoneBack(s: State) {
    forall u :: 0 <= u < |s.threads| && s.threads[u].home.Worker? ==>
      s.threads[u].frames == [] && s.threads[u].unlocking == None
  }

  lemma {:induction false} ExitFrom(ss: seq<State>, es: seq<Event>, q: nat) returns (ss': seq<State>, es': seq<Event>)
    requires Execution(ss, es) && q <= |ss[|es|].running|
    requires forall p: nat :: p < |ss[|es|].running| ==> WindingDown(ss[|es|], p)
    requires forall p: nat :: p < q ==> AllExited(ss[|es|], p)
    ensures Execution(ss', es') && |es| <= |es'| && ss'[..|ss|] == ss && es'[..|es|] == es
    ensures ss'[|es'|].running == ss[|es|].running
    ensures forall p: nat :: p < |ss[|es|].running| ==> AllExited(ss'[|es'|], p)
    decreases |ss[|es|].running| - q
  {
    hide StepAt, Init, WindingDown, AllExited;
    if q == |ss[|es|].running| {
      ss', es' := ss, es;
    } else {
      assert WindingDown(ss[|es|], q);
      var ss1, es1 := OneExits(ss, es, q);
      ss', es' := ExitFrom(ss1, es1, q + 1);
      assert ss'[..|ss|] == ss'[..|ss1|][..|ss|] && es'[..|es|] == es'[..|es1|][..|es|];
    }
  }

  lemma OneExits(ss: seq<State>, es: seq<Event>, q: nat) returns (ss': seq<State>, es': seq<Event>)
    requires Execution(ss, es) && WindingDown(ss[|es|], q)
    ensures Execution(ss', es') && |es| <= |es'| && |ss'| == |es'| + 1 && ss'[..|ss|] == ss && es'[..|es|] == es
    ensures ss'[|es'|].running == ss[|es|].running && AllExited(ss'[|es'|], q)
    ensures forall p: nat :: WindingDown(ss[|es|], p) ==> WindingDown(ss'[|es'|], p)
    ensures forall p: nat :: AllExited(ss[|es|], p) ==> AllExited(ss'[|es'|], p)
  {
    ss', es' := StockedExit(ss, es, q);
  }

  /** Ctrl-C: a run in which the handler has been entered and has returned, and every worker of every
      scheduler is back from its last resume, goes on to one in which every worker thread has exited. */
  lemma ServerShutsDown(ss: seq<State>, es: seq<Event>, i: nat) returns (ss': seq<State>, es': seq<Event>)
    requires Execution(ss, es) && i < |es| && es[i].a == SigBegin && ss[|es|].sig == Off
    requires forall k :: i < k < |es| ==> ss[k].sig != Off
    requires EveryoneBack(ss[|es|])
    ensures Execution(ss', es') && |es| <= |es'| && ss'[..|ss|] == ss && es'[..|es|] == es
    ensures EveryoneExited(ss'[|es'|])
  {
    var s := ss[|es|];
    RunKeepsEnough(ss, es, |es|);
    assert QueuesOk(s);
    forall p: nat | p < |s.running| ensures WindingDown(s, p) {
      HandlerStopsAll(ss, es, i, |es|, p);
      assert EnoughFor(s, p);
      forall u | 0 <= u < |s.threads| && s.threads[u].home == Worker(p) ensures Back(s, u) {
      }
    }
    ss', es' := ExitFrom(ss, es, 0);
    RunKeepsInv(ss', es', |es'|);
    var s' := ss'[|es'|];
    forall u | 0 <= u < |s'.threads| && s'.threads[u].home.Worker? ensures s'.threads[u].loop == Exited {
      assert ThreadOk(s', u) && QueuesOk(s');
      assert AllExited(s', s'.threads[u].home.q);
    }
  }

  // --- The handler without interruption --------------------------------------------------------------

  function Floods(n: nat): seq<Act> {
    seq(n, _ => SigFlood)
  }

  /** What the handler does from scheduler q on. */
  function HandlerActs(s: State, q: nat): seq<Act>
    decreases |s.running| - q
  {
    if q >= |s.running| then [SigStop] + []
    else [SigStop] + (Floods(CountWorkers(s.threads, q) + 1) + HandlerActs(s, q + 1))
  }

  /** u is s but for what stopping the schedulers from q on does to them. */
  predicate StoppedFrom(s: State, u: State, q: nat) {
    && u == s.(running := u.running, ready := u.ready, sig := Off)
    && |u.running| == |u.ready| == |s.ready| == |s.running|
    && forall p: nat :: p < |s.running| ==> StoppedIf(s, u, p, q)
  }

  predicate StoppedIf(s: State, u: State, p: nat, q: nat)
    requires p < |s.running| == |s.ready| && p < |u.running| == |u.ready|
  {
    && u.running[p] == (s.running[p] && p < q)
    && u.ready[p] == if p < q then s.ready[p] else StopEffect(s.ready[p], CountWorkers(s.threads, p))
  }

  lemma {:induction false} FloodLoop(s: State, t: nat, q: nat, k: nat) returns (u: State)
    requires !s.fault && s.sig == Flood(q, k) && q < |s.ready| && k <= CountWorkers(s.threads, q)
    ensures Uninterrupted(s, t, Floods(CountWorkers(s.threads, q) - k + 1), u)
    ensures u == s.(sig := Stop(q + 1),
                    ready := s.ready[q := StopEffect(s.ready[q], CountWorkers(s.threads, q) - k)])
    decreases CountWorkers(s.threads, q) - k
  {
    hide Uninterrupted, CountWorkers;
    var n := CountWorkers(s.threads, q);
    var s1 := DoFlood(s);
    assert Do(s, t, SigFlood) == s1;
    assert Floods(n - k + 1) == [SigFlood] + Floods(n - k);
    if k == n {
      u := s1;
      NoneLeft(u, t);
      assert Floods(0) == [];
      assert s.ready[q].items + Nulls(0) == s.ready[q].items && s.ready[q := s.ready[q]] == s.ready;
    } else {
      u := FloodLoop(s1, t, q, k + 1);
      assert s.ready[q].items + [Null] + Nulls(n - k - 1) == s.ready[q].items + Nulls(n - k);
      assert s1.ready[q := u.ready[q]] == s.ready[q := u.ready[q]];
    }
    FirstOf(s, t, SigFlood, Floods(n - k), u);
  }

  lemma {:induction false} HandlerLoop(s: State, t: nat, q: nat) returns (u: State)
    requires !s.fault && s.sig == Stop(q) && |s.ready| == |s.running|
    ensures Uninterrupted(s, t, HandlerActs(s, q), u) && StoppedFrom(s, u, q)
    decreases |s.running| - q
  {
    hide Uninterrupted, CountWorkers, StopEffect;
    var s1 := DoStop(s);
    assert Do(s, t, SigStop) == s1;
    if q >= |s.running| {
      u := s1;
      NoneLeft(u, t);
      FirstOf(s, t, SigStop, [], u);
    } else {
      var n := CountWorkers(s.threads, q);
      var s2 := FloodLoop(s1, t, q, 0);
      u := HandlerLoop(s2, t, q + 1);
      SameActs(s, s2, q + 1);
      UninterruptedThen(s1, t, Floods(n + 1), s2, HandlerActs(s, q + 1), u);
      FirstOf(s, t, SigStop, Floods(n + 1) + HandlerActs(s, q + 1), u);
      forall p: nat | p < |s.running| ensures StoppedIf(s, u, p, q) {
        assert StoppedIf(s2, u, p, q + 1);
      }
    }
  }

  lemma {:induction false} SameActs(s: State, s': State, q: nat)
    requires |s'.running| == |s.running| && s'.threads == s.threads
    ensures HandlerActs(s', q) == HandlerActs(s, q)
    decreases |s.running| - q
  {
    if q < |s.running| {
      SameActs(s, s', q + 1);
    }
  }

  /** SIGINT_HANDLER: in every reachable state its steps, uninterrupted, have the member's effect on every
      scheduler, and no other. */
  lemma SigintHandlerIsSteps(s: State, t: nat) returns (u: State)
    requires Inv(s) && s.sig == Off
    ensures Uninterrupted(s, t, [SigBegin] + HandlerActs(s, 0), u)
    ensures u == s.(running := u.running, ready := u.ready) && |u.running| == |u.ready| == |s.running|
    ensures forall q :: 0 <= q < |u.running| ==>
              !u.running[q] && u.ready[q] == StopEffect(s.ready[q], CountWorkers(s.threads, q))
  {
    assert QueuesOk(s) && !s.fault;
    hide Uninterrupted, Inv, CountWorkers, StopEffect;
    var s1 := s.(sig := Stop(0));
    assert Do(s, t, SigBegin) == s1;
    u := HandlerLoop(s1, t, 0);
    SameActs(s, s1, 0);
    FirstOf(s, t, SigBegin, HandlerActs(s, 0), u);
    forall q | 0 <= q < |u.running|
      ensures !u.running[q] && u.ready[q] == StopEffect(s.ready[q], CountWorkers(s.threads, q))
    {
      assert StoppedIf(s1, u, q, 0);
    }
  }
}
