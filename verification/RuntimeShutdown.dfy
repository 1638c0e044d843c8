/** SIGINT_HANDLER takes every worker out of its loop (src/Scheduler.hpp:50-72). */
module RuntimeShutdown {
  import opened Options
  import opened Runtime
  import opened RuntimeInvariant
  import opened RuntimeSafety

  function Count(b: bool): nat {
    if b then 1 else 0
  }

  // --- The queue holds enough for every worker that still pulls --------------------------------------

  function CountPulling(threads: seq<Thread>, q: nat): nat {
    if threads == [] then 0
    else CountPulling(threads[..|threads| - 1], q) + Pulling(threads[|threads| - 1], q)
  }

  function Pulling(th: Thread, q: nat): nat {
    if th.home == Worker(q) && th.loop == AtPull then 1 else 0
  }

  lemma {:induction false} CountUpdate(threads: seq<Thread>, t: nat, th: Thread, q: nat)
    requires t < |threads|
    ensures CountPulling(threads[t := th], q) + Pulling(threads[t], q) == CountPulling(threads, q) + Pulling(th, q)
    decreases |threads|
  {
    var n := |threads| - 1;
    if t == n {
      assert threads[t := th][..n] == threads[..n];
    } else {
      CountUpdate(threads[..n], t, th, q);
      assert threads[t := th][..n] == threads[..n][t := th];
    }
  }

  lemma {:induction false} PullersAreWorkers(threads: seq<Thread>, q: nat)
    ensures CountPulling(threads, q) <= CountWorkers(threads, q)
  {
    if threads != [] {
      PullersAreWorkers(threads[..|threads| - 1], q);
    }
  }

  lemma {:induction false} SomeonePulls(threads: seq<Thread>, q: nat, t: nat)
    requires t < |threads| && threads[t].home == Worker(q) && threads[t].loop == AtPull
    ensures CountPulling(threads, q) > 0
    decreases |threads|
  {
    if t < |threads| - 1 {
      SomeonePulls(threads[..|threads| - 1], q, t);
    }
  }

  lemma {:induction false} WorkersFixed(threads: seq<Thread>, threads': seq<Thread>, q: nat)
    requires |threads| == |threads'|
    requires forall u :: 0 <= u < |threads| ==> threads'[u].home == threads[u].home
    ensures CountWorkers(threads', q) == CountWorkers(threads, q)
  {
    if threads != [] {
      WorkersFixed(threads[..|threads| - 1], threads'[..|threads| - 1], q);
    }
  }

  /** The empty handles the handler has yet to push to scheduler q. */
  function Owed(s: State, q: nat): nat {
    if s.sig.Flood? && s.sig.q == q && s.sig.k <= CountWorkers(s.threads, q)
    then CountWorkers(s.threads, q) - s.sig.k else 0
  }

  ghost predicate EnoughFor(s: State, q: nat)
    requires q < |s.ready|
  {
    |s.ready[q].items| - s.ready[q].head + Owed(s, q) >= CountPulling(s.threads, q)
  }

  ghost predicate Enough(s: State) {
    forall q :: 0 <= q < |s.ready| && q < |s.running| && !s.running[q] ==> EnoughFor(s, q)
  }

  /** Only the loop actions change where a worker is in its loop. */
  predicate LoopAct(a: Act) {
    a.LoopCheck? || a.LoopPull? || a.LoopResume? || a.LoopReturn?
  }

  predicate SignalAct(a: Act) {
    a.SigBegin? || a.SigStop? || a.SigFlood?
  }

  lemma OthersKeepLoops(s: State, t: nat, a: Act, s': State)
    requires Inv(s) && Step(s, t, a, s') && !LoopAct(a) && !a.ReleaseOne?
    ensures |s'.threads| == |s.threads|
    ensures forall u :: 0 <= u < |s.threads| ==>
              s'.threads[u].loop == s.threads[u].loop && s'.threads[u].home == s.threads[u].home
  {
  }

  lemma ReleaseKeepsLoops(s: State, t: nat)
    requires Inv(s) && Enabled(s, t, ReleaseOne)
    ensures DoRelease(s, t).threads == s.threads && Do(s, t, ReleaseOne) == DoRelease(s, t)
  {
    AboutTop(s, t);
    AboutHandle(s, InOthers(Top(s, t), s.co[Top(s, t)].iter));
  }

  lemma {:induction false} SamePulling(threads: seq<Thread>, threads': seq<Thread>, q: nat)
    requires |threads| == |threads'|
    requires forall u :: 0 <= u < |threads| ==>
               threads'[u].loop == threads[u].loop && threads'[u].home == threads[u].home
    ensures CountPulling(threads', q) == CountPulling(threads, q)
    ensures CountWorkers(threads', q) == CountWorkers(threads, q)
  {
    if threads != [] {
      SamePulling(threads[..|threads| - 1], threads'[..|threads| - 1], q);
    }
  }

  /** A step outside thread_start and the handler only ever lengthens a queue. */
  lemma OthersLengthen(s: State, t: nat, a: Act, s': State, q: nat)
    requires Inv(s) && Step(s, t, a, s') && !LoopAct(a) && !SignalAct(a) && q < |s.ready|
    ensures |s'.ready| == |s.ready| && s'.running == s.running && s'.sig == s.sig
    ensures s'.ready[q].head == s.ready[q].head && s.ready[q].items <= s'.ready[q].items
  {
  }

  /** A loop action changes one thread, and pulls one handle if it is a pull. */
  lemma LoopMoves(s: State, t: nat, a: Act, s': State)
    requires Inv(s) && Step(s, t, a, s') && LoopAct(a)
    ensures t < |s.threads| == |s'.threads| && s'.threads == s.threads[t := s'.threads[t]]
    ensures s'.threads[t].home == s.threads[t].home && s.threads[t].home.Worker?
    ensures s'.running == s.running && s'.sig == s.sig && |s'.ready| == |s.ready|
    ensures forall q :: 0 <= q < |s.ready| ==>
              && s'.ready[q].items == s.ready[q].items
              && s'.ready[q].head == s.ready[q].head + Count(a.LoopPull? && s.threads[t].home.q == q)
    ensures a.LoopPull? ==> s.threads[t].loop == AtPull && s'.threads[t].loop != AtPull
    ensures s'.threads[t].loop == AtPull ==> s.threads[t].home.q < |s.running| && s.running[s.threads[t].home.q]
  {
    assert ThreadOk(s, t);
  }

  lemma SignalEnough(s: State, t: nat, a: Act, s': State)
    requires Inv(s) && Step(s, t, a, s') && SignalAct(a) && Enough(s)
    ensures Enough(s')
  {
    forall q | 0 <= q < |s'.ready| && !s'.running[q] ensures EnoughFor(s', q) {
      PullersAreWorkers(s.threads, q);
      assert !s.running[q] ==> EnoughFor(s, q);
    }
  }

  lemma StepKeepsEnough(s: State, t: nat, a: Act, s': State)
    requires Inv(s) && Step(s, t, a, s') && Enough(s)
    ensures Enough(s')
  {
    hide Do, Enabled, Inv;
    StepKeepsInv(s, t, a, s');
    StepShape(s, t, a, s');
    if SignalAct(a) {
      SignalEnough(s, t, a, s');
    } else {
      forall q | 0 <= q < |s'.ready| && q < |s'.running| && !s'.running[q] ensures EnoughFor(s', q) {
        if LoopAct(a) {
          LoopMoves(s, t, a, s');
          CountUpdate(s.threads, t, s'.threads[t], q);
          WorkersFixed(s.threads, s'.threads, q);
        } else {
          if a.ReleaseOne? {
            ReleaseKeepsLoops(s, t);
          } else {
            OthersKeepLoops(s, t, a, s');
          }
          OthersLengthen(s, t, a, s', q);
          SamePulling(s.threads, s'.threads, q);
        }
        assert EnoughFor(s, q);
      }
    }
  }

  /** In every reachable state a stopped scheduler's queue, with what the handler still owes it,
      holds at least as many handles as there are workers about to pull. */
  lemma {:induction false} RunKeepsEnough(ss: seq<State>, es: seq<Event>, n: nat)
    requires Execution(ss, es) && n < |ss|
    ensures Inv(ss[n]) && Enough(ss[n])
  {
    hide Do, Enabled;
    RunKeepsInv(ss, es, n);
    if n > 0 {
      RunKeepsEnough(ss, es, n - 1);
      assert StepAt(ss, es, n - 1);
      StepKeepsEnough(ss[n - 1], es[n - 1].t, es[n - 1].a, ss[n]);
    }
  }

  // --- Each worker has at most two loop actions left, one of them a pull ------------------------------

  function ActsLeft(l: Loop): nat {
    match l
    case Exited => 0
    case AtCheck => 1
    case Holding(_) => 1
    case AtPull => 2
    case Resuming => 2
  }

  function PullsLeft(l: Loop): nat {
    if l == AtPull then 1 else 0
  }

  predicate StoppedWorker(s: State, u: nat) {
    IsWorker(s, u) && !s.running[s.threads[u].home.q]
  }

  /** What one step by thread t does to the loop of a stopped worker u. */
  ghost predicate WindsDown(s: State, t: nat, a: Act, s': State, u: nat)
    requires StoppedWorker(s, u)
  {
    && StoppedWorker(s', u) && s'.threads[u].home == s.threads[u].home
    && ActsLeft(s'.threads[u].loop) + Count(t == u && LoopAct(a)) == ActsLeft(s.threads[u].loop)
    && PullsLeft(s'.threads[u].loop) + Count(t == u && a.LoopPull?) == PullsLeft(s.threads[u].loop)
    && !(t == u && a.LoopResume? && s'.threads[u].loop != Exited)
  }

  lemma LoopWindsDown(s: State, t: nat, a: Act, u: nat)
    requires Inv(s) && Enabled(s, t, a) && LoopAct(a) && StoppedWorker(s, u)
    ensures WindsDown(s, t, a, Do(s, t, a), u)
  {
  }

  lemma StoppedStep(s: State, t: nat, a: Act, s': State, u: nat)
    requires Inv(s) && Step(s, t, a, s') && StoppedWorker(s, u)
    ensures WindsDown(s, t, a, s', u)
  {
    hide Do, Enabled, Inv;
    if LoopAct(a) {
      LoopWindsDown(s, t, a, u);
    } else if SignalAct(a) {
      SignalLengthens(s, t, a, s', s.threads[u].home.q);
    } else {
      if a.ReleaseOne? {
        ReleaseKeepsLoops(s, t);
          } else {
        OthersKeepLoops(s, t, a, s');
      }
      OthersLengthen(s, t, a, s', s.threads[u].home.q);
    }
  }

  lemma StoppedAt(ss: seq<State>, es: seq<Event>, k: nat, u: nat)
    requires Execution(ss, es) && k < |es| && StoppedWorker(ss[k], u)
    ensures WindsDown(ss[k], es[k].t, es[k].a, ss[k + 1], u)
  {
    RunKeepsInv(ss, es, k);
    assert StepAt(ss, es, k);
    StoppedStep(ss[k], es[k].t, es[k].a, ss[k + 1], u);
  }

  /** Events of a run that satisfy a predicate on thread u's actions. */
  function CountActs(es: seq<Event>, u: nat, pulls: bool): nat {
    if es == [] then 0
    else
      var e := es[|es| - 1];
      CountActs(es[..|es| - 1], u, pulls) + Count(e.t == u && if pulls then e.a.LoopPull? else LoopAct(e.a))
  }

  lemma CountActsStep(es: seq<Event>, i: nat, j: nat, u: nat, pulls: bool)
    requires i < j <= |es|
    ensures var e := es[j - 1];
            CountActs(es[i..j], u, pulls)
            == CountActs(es[i..j - 1], u, pulls) + Count(e.t == u && if pulls then e.a.LoopPull? else LoopAct(e.a))
  {
    assert es[i..j][..j - 1 - i] == es[i..j - 1];
  }

  /** After running_ is false, over any continuation of the run, a worker of that scheduler takes at
      most two more loop actions, at most one of them a pull. */
  lemma {:induction false} WorkerWindsDown(ss: seq<State>, es: seq<Event>, i: nat, j: nat, u: nat)
    requires Execution(ss, es) && i <= j < |ss| && StoppedWorker(ss[i], u)
    ensures StoppedWorker(ss[j], u)
    ensures ActsLeft(ss[j].threads[u].loop) + CountActs(es[i..j], u, false) == ActsLeft(ss[i].threads[u].loop) <= 2
    ensures PullsLeft(ss[j].threads[u].loop) + CountActs(es[i..j], u, true) == PullsLeft(ss[i].threads[u].loop) <= 1
    decreases j - i
  {
    if i < j {
      var k := j - 1;
      WorkerWindsDown(ss, es, i, k, u);
      StoppedAt(ss, es, k, u);
      CountActsStep(es, i, j, u, false);
      CountActsStep(es, i, j, u, true);
    }
  }

  /** And what it still pulls it does not resume: it leaves its loop instead. */
  lemma StoppedWorkersResumeNothing(ss: seq<State>, es: seq<Event>, i: nat, k: nat)
    requires Execution(ss, es) && i <= k < |es| && es[k].a.LoopResume? && StoppedWorker(ss[i], es[k].t)
    ensures StoppedWorker(ss[k + 1], es[k].t) && ss[k + 1].threads[es[k].t].loop == Exited
  {
    WorkerWindsDown(ss, es, i, k, es[k].t);
    StoppedAt(ss, es, k, es[k].t);
  }

  // --- Once the empty handles are in, nothing can hold a stopped worker back ------------------------------

  /** The stopped scheduler q has a handle for every worker that is about to pull. */
  predicate Stocked(s: State, q: nat) {
    && q < |s.ready| == |s.running| && !s.running[q]
    && |s.ready[q].items| - s.ready[q].head >= CountPulling(s.threads, q)
  }

  /** That is so as soon as the handler owes nothing, and it stays so, also when the handler is entered
      again. */
  lemma StepKeepsStocked(s: State, t: nat, a: Act, s': State, q: nat)
    requires Inv(s) && Step(s, t, a, s') && Stocked(s, q)
    ensures Stocked(s', q)
  {
    if LoopAct(a) {
      LoopMoves(s, t, a, s');
      CountUpdate(s.threads, t, s'.threads[t], q);
    } else if SignalAct(a) {
      SignalLengthens(s, t, a, s', q);
    } else {
      if a.ReleaseOne? {
        ReleaseKeepsLoops(s, t);
      } else {
        OthersKeepLoops(s, t, a, s');
      }
      OthersLengthen(s, t, a, s', q);
      SamePulling(s.threads, s'.threads, q);
    }
  }

  lemma SignalLengthens(s: State, t: nat, a: Act, s': State, q: nat)
    requires Step(s, t, a, s') && SignalAct(a) && q < |s.ready| == |s.running| && !s.running[q]
    ensures s'.threads == s.threads && |s'.ready| == |s'.running| == |s.ready| && !s'.running[q]
    ensures s'.ready[q].head == s.ready[q].head && s.ready[q].items <= s'.ready[q].items
  {
  }

  /** The last resume of worker u has returned. */
  predicate Back(s: State, u: nat) {
    StoppedWorker(s, u) && s.threads[u].frames == [] && s.threads[u].unlocking == None
  }

  lemma StepKeepsBack(s: State, t: nat, a: Act, s': State, u: nat)
    requires Inv(s) && Step(s, t, a, s') && Back(s, u)
    ensures Back(s', u)
  {
    StoppedStep(s, t, a, s', u);
    StepShape(s, t, a, s');
    if t == u && !SignalAct(a) {
      IdleDoesLoop(s, t, a);
    }
  }

  /** A worker with no frame does nothing but its loop, which, once stopped, resumes nothing. */
  lemma IdleDoesLoop(s: State, t: nat, a: Act)
    requires Back(s, t) && Enabled(s, t, a) && !SignalAct(a)
    ensures LoopAct(a) && Do(s, t, a).threads[t].frames == [] && Do(s, t, a).threads[t].unlocking == None
  {
  }

  /** A stopped worker that is back and has not exited can take its next loop action. */
  lemma NextLoopActEnabled(s: State, u: nat)
    requires Inv(s) && Back(s, u) && Stocked(s, s.threads[u].home.q) && s.threads[u].loop != Exited
    ensures LoopAct(NextLoopAct(s.threads[u].loop)) && Enabled(s, u, NextLoopAct(s.threads[u].loop))
  {
    if s.threads[u].loop == AtPull {
      SomeonePulls(s.threads, s.threads[u].home.q, u);
    }
  }

  /** From the moment the handler owes nothing, a worker whose last resume has returned can go on
      until it has exited: at every later moment of the run it is back still, and has exited or can
      take its next loop action, whatever the others pull and however often the handler is entered
      again. */
  lemma {:induction false} NeverHeldBack(ss: seq<State>, es: seq<Event>, i: nat, j: nat, u: nat)
    requires Execution(ss, es) && i <= j < |ss|
    requires Back(ss[i], u) && Owed(ss[i], ss[i].threads[u].home.q) == 0
    ensures Back(ss[j], u) && ss[j].threads[u].home == ss[i].threads[u].home && Stocked(ss[j], ss[j].threads[u].home.q)
    ensures ss[j].threads[u].loop == Exited || exists a :: LoopAct(a) && Enabled(ss[j], u, a)
    decreases j - i
  {
    hide Do, Enabled, Inv;
    RunKeepsInv(ss, es, j);
    if i == j {
      RunKeepsEnough(ss, es, i);
      assert EnoughFor(ss[i], ss[i].threads[u].home.q);
    } else {
      NeverHeldBack(ss, es, i, j - 1, u);
      RunKeepsInv(ss, es, j - 1);
      var e := es[j - 1];
      assert StepAt(ss, es, j - 1);
      StepKeepsBack(ss[j - 1], e.t, e.a, ss[j], u);
      StoppedStep(ss[j - 1], e.t, e.a, ss[j], u);
      StepKeepsStocked(ss[j - 1], e.t, e.a, ss[j], ss[j].threads[u].home.q);
    }
    if ss[j].threads[u].loop != Exited {
      NextLoopActEnabled(ss[j], u);
    }
  }

  // --- All workers exit -------------------------------------------------------------------------------------

  /** The loop actions that the workers of q have left, together. */
  function TotalLeft(threads: seq<Thread>, q: nat): nat {
    if threads == [] then 0
    else TotalLeft(threads[..|threads| - 1], q) + Left(threads[|threads| - 1], q)
  }

  function Left(th: Thread, q: nat): nat {
    if th.home == Worker(q) then ActsLeft(th.loop) else 0
  }

  lemma {:induction false} TotalUpdate(threads: seq<Thread>, t: nat, th: Thread, q: nat)
    requires t < |threads|
    ensures TotalLeft(threads[t := th], q) + Left(threads[t], q) == TotalLeft(threads, q) + Left(th, q)
    decreases |threads|
  {
    var n := |threads| - 1;
    if t == n {
      assert threads[t := th][..n] == threads[..n];
    } else {
      TotalUpdate(threads[..n], t, th, q);
      assert threads[t := th][..n] == threads[..n][t := th];
    }
  }

  /** The measure: every loop action of a worker of a stopped scheduler takes one off it, and no other
      step changes it. */
  lemma StepTakesOne(s: State, t: nat, a: Act, s': State, q: nat)
    requires Inv(s) && Step(s, t, a, s') && q < |s.running| && !s.running[q]
    ensures |s'.threads| == |s.threads| && q < |s'.running| && !s'.running[q]
    ensures TotalLeft(s'.threads, q) + Count(LoopActOf(s.threads, t, a, q)) == TotalLeft(s.threads, q)
  {
    StepShape(s, t, a, s');
    assert QueuesOk(s) && (t < |s.threads| ==> ThreadOk(s, t)) && (LoopAct(a) ==> t < |s.threads|);
    hide Do, Enabled, Inv;
    if LoopAct(a) {
      LoopMoves(s, t, a, s');
    } else if SignalAct(a) {
      SignalLengthens(s, t, a, s', q);
    } else {
      OthersLengthen(s, t, a, s', q);
    }
    if t < |s.threads| {
      assert s'.threads == s.threads[t := s'.threads[t]];
      TotalUpdate(s.threads, t, s'.threads[t], q);
      if s.threads[t].home == Worker(q) {
        StoppedStep(s, t, a, s', t);
      }
    } else {
      assert s'.threads == s.threads;
    }
  }

  predicate LoopActOf(threads: seq<Thread>, t: nat, a: Act, q: nat) {
    t < |threads| && threads[t].home == Worker(q) && LoopAct(a)
  }

  /** The loop actions of q's workers among the events. */
  function CountLoop(es: seq<Event>, threads: seq<Thread>, q: nat): nat {
    if es == [] then 0
    else
      var e := es[|es| - 1];
      CountLoop(es[..|es| - 1], threads, q) + Count(LoopActOf(threads, e.t, e.a, q))
  }

  /** So over any continuation of the run the measure falls by one with each loop action of q's workers,
      and the workers of q take at most TotalLeft of them, however long the run. */
  lemma {:induction false} TotalFalls(ss: seq<State>, es: seq<Event>, i: nat, j: nat, q: nat)
    requires Execution(ss, es) && i <= j < |ss| && q < |ss[i].running| && !ss[i].running[q]
    ensures SameHomes(ss[i].threads, ss[j].threads) && q < |ss[j].running| && !ss[j].running[q]
    ensures TotalLeft(ss[j].threads, q) + CountLoop(es[i..j], ss[i].threads, q) == TotalLeft(ss[i].threads, q)
    decreases j - i
  {
    hide Do, Enabled, Inv;
    if i < j {
      var k, e := j - 1, es[j - 1];
      TotalFalls(ss, es, i, k, q);
      RunKeepsInv(ss, es, k);
      assert StepAt(ss, es, k);
      StepTakesOne(ss[k], e.t, e.a, ss[j], q);
      StepShape(ss[k], e.t, e.a, ss[j]);
      assert es[i..j][..k - i] == es[i..k];
    }
  }

  predicate SameHomes(threads: seq<Thread>, threads': seq<Thread>) {
    |threads| == |threads'| && forall u :: 0 <= u < |threads| ==> threads'[u].home == threads[u].home
  }

  predicate AllBack(s: State, q: nat) {
    forall u :: 0 <= u < |s.threads| && s.threads[u].home == Worker(q) ==> Back(s, u)
  }

  /** Nothing holds the workers of q back. */
  predicate WindingDown(s: State, q: nat) {
    Stocked(s, q) && AllBack(s, q)
  }

  predicate AllExited(s: State, q: nat) {
    forall u :: 0 <= u < |s.threads| && s.threads[u].home == Worker(q) ==> s.threads[u].loop == Exited
  }

  /** Whichever way a run goes on after that, where it leaves no worker of q a loop action they have all
      exited; and by TotalFalls it leaves them only so many. */
  lemma StuckMeansExited(ss: seq<State>, es: seq<Event>, i: nat, j: nat, q: nat)
    requires Execution(ss, es) && i <= j < |ss| && Owed(ss[i], q) == 0 && AllBack(ss[i], q)
    requires q < |ss[i].running| && !ss[i].running[q]
    requires forall u: nat, a :: LoopActOf(ss[j].threads, u, a, q) ==> !Enabled(ss[j], u, a)
    ensures AllExited(ss[j], q)
  {
    TotalFalls(ss, es, i, j, q);
    forall u | 0 <= u < |ss[j].threads| && ss[j].threads[u].home == Worker(q) ensures ss[j].threads[u].loop == Exited {
      assert Back(ss[i], u);
      NeverHeldBack(ss, es, i, j, u);
      assert forall a :: LoopAct(a) ==> LoopActOf(ss[j].threads, u, a, q);
    }
  }

  /** Clean shutdown: a run at whose end scheduler q has been stopped, the handler owes it nothing and
      the last resume of each of its workers has returned, goes on to one in which all of them have
      exited, so that the joins of ~Scheduler return, in as many steps as the measure says. */
  lemma AllExit(ss: seq<State>, es: seq<Event>, q: nat) returns (ss': seq<State>, es': seq<Event>)
    requires Execution(ss, es) && q < |ss[|es|].running| && !ss[|es|].running[q]
    requires Owed(ss[|es|], q) == 0 && AllBack(ss[|es|], q)
    ensures Execution(ss', es') && |es| <= |es'| && ss'[..|ss|] == ss && es'[..|es|] == es
    ensures |es'| - |es| == TotalLeft(ss[|es|].threads, q)
    ensures AllExited(ss'[|es'|], q)
  {
    RunKeepsEnough(ss, es, |es|);
    assert EnoughFor(ss[|es|], q);
    ss', es' := StockedExit(ss, es, q);
  }

  lemma {:induction false} StockedExit(ss: seq<State>, es: seq<Event>, q: nat)
    returns (ss': seq<State>, es': seq<Event>)
    requires Execution(ss, es) && Stocked(ss[|es|], q) && AllBack(ss[|es|], q)
    ensures Execution(ss', es') && |es| <= |es'| && ss'[..|ss|] == ss && es'[..|es|] == es
    ensures |es'| - |es| == TotalLeft(ss[|es|].threads, q)
    ensures AllExited(ss'[|es'|], q)
    ensures ss'[|es'|].running == ss[|es|].running && SameHomes(ss[|es|].threads, ss'[|es'|].threads)
    ensures forall p: nat :: WindingDown(ss[|es|], p) ==> WindingDown(ss'[|es'|], p)
    ensures forall p: nat :: AllExited(ss[|es|], p) ==> AllExited(ss'[|es'|], p)
    decreases TotalLeft(ss[|es|].threads, q)
  {
    hide Do, Enabled, Inv;
    var s := ss[|es|];
    RunKeepsInv(ss, es, |es|);
    if AllExited(s, q) {
      ss', es' := ss, es;
      NothingLeft(s.threads, q);
    } else {
      var u :| 0 <= u < |s.threads| && s.threads[u].home == Worker(q) && s.threads[u].loop != Exited;
      var a := NextLoopAct(s.threads[u].loop);
      assert Back(s, u);
      NextLoopActEnabled(s, u);
      var s' := Do(s, u, a);
      StepTakesOne(s, u, a, s', q);
      LoopMoves(s, u, a, s');
      forall p: nat | WindingDown(s, p) ensures WindingDown(s', p) {
        StepKeepsStocked(s, u, a, s', p);
        StepKeepsAllBack(s, u, a, s', p);
      }
      assert WindingDown(s, q);
      var ss1, es1 := ss + [s'], es + [Event(u, a)];
      OneMore(ss, es, u, a, s');
      ss', es' := StockedExit(ss1, es1, q);
      assert ss'[..|ss|] == ss'[..|ss1|][..|ss|] && es'[..|es|] == es'[..|es1|][..|es|];
      assert SameHomes(s.threads, s'.threads);
      forall p: nat | AllExited(s, p) ensures AllExited(s', p) {
      }
    }
  }

  lemma OneMore(ss: seq<State>, es: seq<Event>, t: nat, a: Act, s': State)
    requires Execution(ss, es) && Step(ss[|es|], t, a, s')
    ensures Execution(ss + [s'], es + [Event(t, a)])
  {
    hide Step, Init;
    var ss', es' := ss + [s'], es + [Event(t, a)];
    forall i | 0 <= i < |es'| ensures StepAt(ss', es', i) {
      assert i < |es| ==> StepAt(ss, es, i);
    }
  }

  lemma StepKeepsAllBack(s: State, t: nat, a: Act, s': State, q: nat)
    requires Inv(s) && Step(s, t, a, s') && AllBack(s, q)
    ensures AllBack(s', q)
  {
    StepShape(s, t, a, s');
    forall u | 0 <= u < |s'.threads| && s'.threads[u].home == Worker(q) ensures Back(s', u) {
      StepKeepsBack(s, t, a, s', u);
    }
  }

  lemma {:induction false} NothingLeft(threads: seq<Thread>, q: nat)
    requires forall u :: 0 <= u < |threads| && threads[u].home == Worker(q) ==> threads[u].loop == Exited
    ensures TotalLeft(threads, q) == 0
  {
    if threads != [] {
      NothingLeft(threads[..|threads| - 1], q);
    }
  }

  function NextLoopAct(l: Loop): Act {
    match l
    case AtCheck => LoopCheck
    case AtPull => LoopPull
    case Holding(_) => LoopResume
    case _ => LoopReturn
  }
}
