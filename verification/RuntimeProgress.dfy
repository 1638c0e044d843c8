/** The server never gets stuck while a request is unfinished.

    The server's coroutines only await tasks they have called themselves (src/EPoll.cpp:106), so
    waiting follows the call tree, whose indices grow; and a wait loop occupies a worker for ever,
    but the server has twice as many workers as wait loops (src/TCPServer.cpp:24-45). */
module RuntimeProgress {
  import opened Options
  import opened Runtime
  import opened RuntimeInvariant
  import opened RuntimeSafety

  predicate OwnChild(s: State, t: nat, a: Act)
    requires Enabled(s, t, a)
  {
    a.AwaitTask? ==> s.co[a.d].parent == Some(Top(s, t))
  }

  ghost predicate OwnChildAt(ss: seq<State>, es: seq<Event>, i: nat)
    requires |ss| == |es| + 1 && i < |es|
  {
    Enabled(ss[i], es[i].t, es[i].a) && OwnChild(ss[i], es[i].t, es[i].a)
  }

  ghost predicate Disciplined(ss: seq<State>, es: seq<Event>) {
    && Execution(ss, es)
    && forall i :: 0 <= i < |es| ==> OwnChildAt(ss, es, i)
  }

  // --- The call tree and the wait loops ----------------------------------------------------------

  /** Where the handle of a wait loop can be: on a thread's outermost frame, or in or between the
      queue and the workers of scheduler 0, which is the server's `s_`. */
  predicate LoopPlace(threads: seq<Thread>, p: Place) {
    match p
    case OnThread(t, i) =>
      i == 0 && t < |threads| && (threads[t].home == External || threads[t].home == Worker(0))
    case InQueue(q, _) => q == 0
    case InOthers(_, _) => false
    case Held(t) => t < |threads| && threads[t].home == Worker(0)
    case _ => true
  }

  ghost predicate Family(s: State, c: nat)
    requires c < |s.co|
  {
    var co := s.co[c];
    && (co.parent.Some? ==> co.parent.value < c)
    && (Target(co.pc).Some? ==>
          Target(co.pc).value < |s.co| && s.co[Target(co.pc).value].parent == Some(c))
    && (co.isLoop ==>
          && co.parent == None && Target(co.pc) == None
          && (co.pc.Enqueue? ==> co.pc.q == 0)
          && LoopPlace(s.threads, co.place))
  }

  lemma CallFamily(s: State, t: nat, isVoid: bool, isLoop: bool)
    requires Inv(s) && Enabled(s, t, Call(isVoid, isLoop))
    ensures Family(DoCall(s, t, isVoid, isLoop), |s.co|)
  {
  }

  lemma FamilyStep(s: State, t: nat, a: Act, s': State, c: nat)
    requires Inv(s) && Step(s, t, a, s') && OwnChild(s, t, a)
    requires forall d :: 0 <= d < |s.co| ==> Family(s, d)
    requires c < |s'.co|
    ensures Family(s', c)
  {
    StepShape(s, t, a, s');
    if c == |s.co| {
      CallFamily(s, t, a.isVoid, a.isLoop);
    } else {
      assert Family(s, c);
      StepEvolves(s, t, a, s', c);
      if Target(s'.co[c].pc).Some? {
        StepEvolves(s, t, a, s', Target(s'.co[c].pc).value);
      }
    }
  }

  lemma {:induction false} RunKeepsFamily(ss: seq<State>, es: seq<Event>, n: nat)
    requires Disciplined(ss, es) && n < |ss|
    ensures Inv(ss[n])
    ensures forall c :: 0 <= c < |ss[n].co| ==> Family(ss[n], c)
  {
    RunKeepsInv(ss, es, n);
    if n > 0 {
      RunKeepsFamily(ss, es, n - 1);
      var e := es[n - 1];
      assert StepAt(ss, es, n - 1) && OwnChildAt(ss, es, n - 1);
      forall c | 0 <= c < |ss[n].co| ensures Family(ss[n], c) {
        FamilyStep(ss[n - 1], e.t, e.a, ss[n], c);
      }
    }
  }

  // --- Waiting ends at a coroutine that can run ------------------------------------------------------

  predicate AllRunning(s: State) {
    forall q :: 0 <= q < |s.running| ==> s.running[q]
  }

  ghost predicate Good(s: State) {
    && Inv(s) && AllRunning(s)
    && forall c :: 0 <= c < |s.co| ==> Family(s, c)
  }

  /** An unfinished handler or request coroutine. */
  predicate Unfinished(s: State, c: nat) {
    c < |s.co| && s.co[c].pc != Gone && !s.co[c].isLoop
  }

  predicate CanBeRun(p: Place) {
    p.OnThread? || p.InQueue? || p.Held?
  }

  /** c waits for e: it is registered with a task that is e or waits for e, and so on; or it is e. */
  predicate WaitsFor(s: State, c: nat, e: nat)
    decreases |s.co| - c
  {
    || c == e
    || (c < |s.co| && s.co[c].place.InOthers? && c < s.co[c].place.d && WaitsFor(s, s.co[c].place.d, e))
  }

  /** Follow what c waits for: the end is a coroutine that is on a thread or in a ready queue. */
  lemma {:induction false} WaitChain(s: State, c: nat) returns (e: nat)
    requires Good(s) && Unfinished(s, c)
    ensures WaitsFor(s, c, e) && Unfinished(s, e)
    ensures CanBeRun(s.co[e].place)
    decreases |s.co| - c
  {
    assert OwnOk(s, c) && OwnerOk(s, c) && Located(s, c) && Family(s, c);
    if s.co[c].place.InOthers? {
      var d := s.co[c].place.d;
      assert Family(s, d);
      e := WaitChain(s, d);
    } else {
      e := c;
    }
  }

  /** Thread t is a worker blocked in, or about to enter, a wait loop's own code. */
  predicate InWait(s: State, t: nat) {
    Executing(s, t) && s.co[Top(s, t)].isLoop && s.co[Top(s, t)].pc == Body
  }

  /** An action of thread t's own code, which is not that of a wait loop. */
  predicate Productive(s: State, t: nat, a: Act) {
    && Enabled(s, t, a) && !InWait(s, t)
    && !a.Call? && !a.SigBegin? && !a.SigStop? && !a.SigFlood?
  }

  /** The next action of a coroutine whose mutex, if it needs one, is free. */
  function NextOf(s: State, t: nat): Act
    requires Executing(s, t)
  {
    var me := s.co[Top(s, t)];
    match me.pc
    case Body => Throw
    case Enqueue(_) => PushSelf
    case WaitLock(_) => LockTask
    case WaitCheck(_) => CheckTask
    case WaitPush(_) => PushOther
    case WaitUnlock(_) => UnlockReady
    case Read(_) => ReadResult
    case FinLock => LockFinal
    case FinSet => SetFinished
    case FinLoop => if me.iter < |me.others| then ReleaseOne else ReleaseDone
    case FinUnlock => UnlockFinal
    case FinDestroy => Destroy
    case Gone => Destroy
  }

  /** The mutex that a coroutine is about to lock. */
  function Wanted(s: State, c: nat): Option<nat>
    requires c < |s.co|
  {
    match s.co[c].pc
    case WaitLock(d) => Some(d)
    case FinLock => Some(c)
    case _ => None
  }

  lemma NextIsProductive(s: State, t: nat)
    requires Inv(s) && Executing(s, t) && !InWait(s, t)
    requires var d := Wanted(s, Top(s, t)); d.Some? ==> d.value < |s.co| && s.co[d.value].lock == None
    ensures Productive(s, t, NextOf(s, t))
  {
    AboutTop(s, t);
    assert !s.fault;
    hide Enabled;
    if Target(s.co[Top(s, t)].pc).Some? {
      NextAwaiting(s, t);
    } else {
      NextOwn(s, t);
    }
  }

  lemma NextAwaiting(s: State, t: nat)
    requires !s.fault && Waiting(s, t)
    requires s.co[Top(s, t)].pc.WaitLock? ==> s.co[s.co[Top(s, t)].pc.d].lock == None
    ensures Enabled(s, t, NextOf(s, t)) && !NextOf(s, t).Call?
  {
  }

  lemma NextOwn(s: State, t: nat)
    requires !s.fault && Executing(s, t) && Target(s.co[Top(s, t)].pc) == None
    requires SchedulerOk(s.co[Top(s, t)], |s.ready|) && s.co[Top(s, t)].pc != Gone
    requires s.co[Top(s, t)].pc == FinLock ==> s.co[Top(s, t)].lock == None
    ensures Enabled(s, t, NextOf(s, t)) && !NextOf(s, t).Call?
  {
  }

  lemma UnlockIsProductive(s: State, t: nat)
    requires Inv(s) && t < |s.threads| && s.threads[t].unlocking.Some?
    ensures Productive(s, t, UnlockSuspended)
  {
    assert ThreadOk(s, t);
  }

  /** Whoever holds a task's mutex can go on. */
  lemma HolderGoesOn(s: State, d: nat) returns (u: nat, a: Act)
    requires Inv(s) && d < |s.co| && s.co[d].lock.Some?
    ensures s.co[d].lock == Some(u) && Productive(s, u, a)
  {
    hide Productive, Enabled;
    assert LockOk(s, d);
    u := s.co[d].lock.value;
    if s.threads[u].unlocking == Some(d) {
      a := UnlockSuspended;
      UnlockIsProductive(s, u);
    } else {
      a := NextOf(s, u);
      NextIsProductive(s, u);
    }
  }

  /** Thread t executes a coroutine that is about to lock a mutex, and thread u has it. */
  predicate BlockedBy(s: State, t: nat, u: nat) {
    && Executing(s, t) && Wanted(s, Top(s, t)).Some?
    && Wanted(s, Top(s, t)).value < |s.co| && s.co[Wanted(s, Top(s, t)).value].lock == Some(u)
  }

  /** A thread that executes a coroutine outside wait loops can go on, or the holder of the mutex
      it waits for can. */
  lemma ThreadGoesOn(s: State, t: nat) returns (u: nat, a: Act)
    requires Inv(s) && t < |s.threads|
    requires s.threads[t].frames != [] || s.threads[t].unlocking.Some?
    requires !InWait(s, t)
    ensures (u == t || BlockedBy(s, t, u)) && Productive(s, u, a)
  {
    hide Productive, Enabled;
    if s.threads[t].unlocking.Some? {
      u, a := t, UnlockSuspended;
      UnlockIsProductive(s, t);
    } else {
      assert HandleAt(s, OnThread(t, |s.threads[t].frames| - 1)).Some?;
      AboutTop(s, t);
      var d := Wanted(s, Top(s, t));
      if d.Some? && s.co[d.value].lock.Some? {
        u, a := HolderGoesOn(s, d.value);
      } else {
        u, a := t, NextOf(s, t);
        NextIsProductive(s, t);
      }
    }
  }

  /** A worker outside wait loops can go on if its queue holds something. */
  lemma WorkerGoesOn(s: State, t: nat) returns (u: nat, a: Act)
    requires Inv(s) && AllRunning(s) && IsWorker(s, t) && !InWait(s, t)
    requires s.ready[s.threads[t].home.q].head < |s.ready[s.threads[t].home.q].items|
    ensures (u == t || BlockedBy(s, t, u)) && Productive(s, u, a)
  {
    u := t;
    assert ThreadOk(s, t);
    if s.threads[t].frames != [] || s.threads[t].unlocking.Some? {
      u, a := ThreadGoesOn(s, t);
    } else {
      a := match s.threads[t].loop
           case AtCheck => LoopCheck
           case AtPull => LoopPull
           case Holding(_) => LoopResume
           case Resuming => LoopReturn
           case Exited => LoopReturn;
    }
  }

  // --- Counting: wait loops cannot take all workers ---------------------------------------------------

  function Workers(s: State, q: nat): set<nat> {
    set t | 0 <= t < |s.threads| && s.threads[t].home == Worker(q)
  }

  function Waiters(s: State, q: nat): set<nat> {
    set t | t in Workers(s, q) && InWait(s, t)
  }

  function Loops(s: State): set<nat> {
    set c | 0 <= c < |s.co| && s.co[c].isLoop && s.co[c].pc != Gone
  }

  /** An injection bounds one set by another. */
  lemma {:induction false} Injection(a: set<nat>, b: set<nat>, f: nat -> nat)
    requires forall x :: x in a ==> f(x) in b
    requires forall x, y :: x in a && y in a && f(x) == f(y) ==> x == y
    ensures |a| <= |b|
  {
    if a != {} {
      var x :| x in a;
      Injection(a - {x}, b - {f(x)}, f);
    }
  }

  function Outermost(s: State, t: nat): nat {
    if t < |s.threads| && s.threads[t].frames != [] then s.threads[t].frames[0] else 0
  }

  /** At least |Workers| - |Loops| workers of a scheduler are outside EPoll::wait (N of 2N for the
      server's `s_`), and all workers of any other scheduler are. */
  lemma WorkersOutside(s: State, q: nat)
    requires Good(s)
    ensures |Workers(s, q) - Waiters(s, q)| >= |Workers(s, q)| - (if q == 0 then |Loops(s)| else 0)
  {
    forall t | t in Waiters(s, q)
      ensures q == 0 && Outermost(s, t) in Loops(s) && s.co[Outermost(s, t)].place == OnThread(t, 0)
    {
      AboutTop(s, t);
      assert Family(s, Top(s, t));
    }
    Injection(Waiters(s, q), Loops(s), t => Outermost(s, t));
    assert Workers(s, q) == (Workers(s, q) - Waiters(s, q)) + Waiters(s, q);
  }

  /** A thread that executes some other coroutine is not in a wait loop. */
  lemma NotInWait(s: State, t: nat, c: nat)
    requires Good(s) && Unfinished(s, c) && s.co[c].place.OnThread? && s.co[c].place.t == t
    ensures t < |s.threads| && s.threads[t].frames != [] && !InWait(s, t)
  {
    assert Located(s, c);
    if Executing(s, t) {
      AboutTop(s, t);
      assert Family(s, Top(s, t));
    }
  }

  /** Thread t is the one to take coroutine e further: it has e on its stack or in its hand, or is a
      worker of e's ready queue that is not inside a wait loop. */
  predicate Carries(s: State, t: nat, e: nat)
    requires e < |s.co|
  {
    match s.co[e].place
    case OnThread(u, _) => t == u
    case Held(u) => t == u
    case InQueue(q, _) => t in Workers(s, q) - Waiters(s, q)
    case _ => false
  }

  /** Every scheduler has a worker, and scheduler 0 has more workers than there are wait loops. */
  ghost predicate EnoughWorkers(s: State) {
    forall q: nat :: q < |s.ready| ==> |Workers(s, q)| > if q == 0 then |Loops(s)| else 0
  }

  /** c waits for e, which can be run; thread t is the one to take e further; and thread u, which is t
      or has the mutex that t is about to lock, can do a. */
  predicate GoesOn(s: State, c: nat, e: nat, t: nat, u: nat, a: Act) {
    && WaitsFor(s, c, e) && Unfinished(s, e) && CanBeRun(s.co[e].place)
    && Carries(s, t, e) && (u == t || BlockedBy(s, t, u))
    && Productive(s, u, a)
  }

  /** Progress: in every reachable state with no scheduler stopped, an unfinished handler or request
      coroutine c waits, through the tasks it is registered with, for one, e, that is on a thread or in
      a ready queue; and the thread that is to take e further can take a step of its own, or the
      thread can that has the mutex it is about to lock.  This provided that there are enough workers. */
  lemma Progress(ss: seq<State>, es: seq<Event>, n: nat, c: nat)
    requires Disciplined(ss, es) && n < |ss| && AllRunning(ss[n]) && Unfinished(ss[n], c)
    requires EnoughWorkers(ss[n])
    ensures exists e: nat, t: nat, u: nat, a :: GoesOn(ss[n], c, e, t, u, a)
  {
    var s := ss[n];
    RunKeepsFamily(ss, es, n);
    var e := WaitChain(s, c);
    assert Located(s, e);
    var t, u, a;
    match s.co[e].place {
      case OnThread(v, i) =>
        NotInWait(s, v, e);
        t := v;
        u, a := ThreadGoesOn(s, v);
      case InQueue(q, k) =>
        WorkersOutside(s, q);
        t :| t in Workers(s, q) - Waiters(s, q);
        u, a := WorkerGoesOn(s, t);
      case Held(v) =>
        assert ThreadOk(s, v);
        t, u, a := v, v, LoopResume;
    }
    assert GoesOn(s, c, e, t, u, a);
  }
}
