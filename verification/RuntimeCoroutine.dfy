/** The life of one coroutine: what a call makes of it, what its body may do, and that everything else it
    does comes to an end. */
module RuntimeCoroutine {
  import opened Options
  import opened Runtime
  import opened RuntimeInvariant
  import opened RuntimeSafety

  // --- The call ---------------------------------------------------------------------------------------------

  /** Who is calling on thread t: a coroutine, or the program outside. */
  function Caller(s: State, t: nat): Option<nat> {
    if Executing(s, t) then Some(Top(s, t)) else None
  }

  lemma CallStarts(s: State, t: nat, isVoid: bool, isLoop: bool)
    requires Enabled(s, t, Call(isVoid, isLoop))
    ensures var s', c := Do(s, t, Call(isVoid, isLoop)), |s.co|;
            && |s'.co| == c + 1 && At(s', t, Body) && Top(s', t) == c
            && s'.co[c].isVoid == isVoid && s'.co[c].isLoop == isLoop
            && s'.co[c].parent == Caller(s, t)
            && s'.ready == s.ready && forall d :: 0 <= d < c ==> s'.co[d] == s.co[d]
  {
  }

  /** A call runs the new coroutine's body at once, on the caller's thread and without a queue; and what
      it is, and whose child, stays for ever. */
  lemma {:induction false} CallMakesChild(ss: seq<State>, es: seq<Event>, i: nat, j: nat)
    requires Execution(ss, es) && i < |es| && i < j < |ss| && es[i].a.Call?
    ensures var c, t := |ss[i].co|, es[i].t;
            && At(ss[i + 1], t, Body) && Top(ss[i + 1], t) == c && ss[i + 1].ready == ss[i].ready
            && c < |ss[j].co| && ss[j].co[c].isVoid == es[i].a.isVoid && ss[j].co[c].isLoop == es[i].a.isLoop
            && ss[j].co[c].parent == Caller(ss[i], t)
    decreases j
  {
    hide Do, Enabled;
    assert StepAt(ss, es, i);
    CallStarts(ss[i], es[i].t, es[i].a.isVoid, es[i].a.isLoop);
    if i + 1 < j {
      CallMakesChild(ss, es, i, j - 1);
      RunKeepsInv(ss, es, j - 1);
      assert StepAt(ss, es, j - 1);
      StepEvolves(ss[j - 1], es[j - 1].t, es[j - 1].a, ss[j], |ss[i].co|);
    }
  }

  /** The call returns when the coroutine first suspends, or when it ends: one that is not on a thread has
      given its caller its Task object, which can be awaited from then on. */
  lemma CallReturns(ss: seq<State>, es: seq<Event>, n: nat, c: nat)
    requires Execution(ss, es) && n < |ss| && c < |ss[n].co|
    requires forall t: nat :: t < |ss[n].threads| ==> c !in ss[n].threads[t].frames
    ensures ss[n].co[c].returned
    ensures forall t: nat :: BodyOf(ss[n], t) ==> Enabled(ss[n], t, AwaitTask(c))
  {
    RunKeepsInv(ss, es, n);
    assert OwnOk(ss[n], c) && Located(ss[n], c);
  }

  /** Thread t is in the body of a coroutine that is no wait loop. */
  predicate BodyOf(s: State, t: nat) {
    At(s, t, Body) && !s.co[Top(s, t)].isLoop
  }

  // --- The body -----------------------------------------------------------------------------------------------

  /** A body may do what it likes: return any value, throw, call, await any scheduler, and, unless it is a
      wait loop, any task whose Task object there is. */
  lemma BodyIsFree(s: State, t: nat)
    requires !s.fault && At(s, t, Body)
    ensures forall v :: Enabled(s, t, CoReturn(v))
    ensures Enabled(s, t, Throw) && forall isVoid :: Enabled(s, t, Call(isVoid, false))
    ensures !s.co[Top(s, t)].isLoop ==>
              && (forall q: nat :: q < |s.ready| ==> Enabled(s, t, AwaitScheduler(q)))
              && (forall d: nat :: d < |s.co| && s.co[d].returned ==> Enabled(s, t, AwaitTask(d)))
  {
  }

  /** The program can start: with workers at their first test and a thread that calls. */
  lemma ProgramStarts(workers: nat) returns (s: State)
    ensures Init(s) && |s.threads| == workers + 1 && CountWorkers(s.threads, 0) == workers
    ensures forall isVoid, isLoop :: Enabled(s, workers, Call(isVoid, isLoop))
  {
    var worker, main := Thread(Worker(0), AtCheck, [], None), Thread(External, Resuming, [], None);
    var threads := seq(workers, _ => worker) + [main];
    s := State(threads, [true], [Ready([], 0)], [], Off, false);
    AllWorkers(workers, worker);
    assert threads[..|threads| - 1] == seq(workers, _ => worker);
  }

  lemma {:induction false} AllWorkers(n: nat, worker: Thread)
    requires worker.home == Worker(0)
    ensures CountWorkers(seq(n, _ => worker), 0) == n
  {
    if n > 0 {
      assert seq(n, _ => worker)[..n - 1] == seq(n - 1, _ => worker);
      AllWorkers(n - 1, worker);
    }
  }

  // --- Everything else comes to an end --------------------------------------------------------------------------

  /** How many actions a coroutine is from its body, or from its end. */
  function ToGo(co: Co): nat {
    match co.pc
    case Body => 0
    case Enqueue(_) => 1
    case WaitLock(_) => 4
    case WaitCheck(_) => 3
    case WaitPush(_) => 2
    case WaitUnlock(_) => 2
    case Read(_) => 1
    case FinLock => |co.others| + 5
    case FinSet => |co.others| + 4
    case FinLoop => |co.others| - (if co.iter <= |co.others| then co.iter else |co.others|) + 3
    case FinUnlock => 2
    case FinDestroy => 1
    case Gone => 0
  }

  /** Outside its body every action of a coroutine brings it nearer: an await is at most four actions, and
      the end of a coroutine five and one for each awaiter. */
  lemma EveryActionCounts(s: State, t: nat, a: Act, s': State)
    requires Inv(s) && Step(s, t, a, s') && Executing(s, t) && s.co[Top(s, t)].pc != Body
    requires !a.SigBegin? && !a.SigStop? && !a.SigFlood?
    ensures Top(s, t) < |s'.co| && ToGo(s'.co[Top(s, t)]) < ToGo(s.co[Top(s, t)])
  {
    AboutTop(s, t);
    var c := Top(s, t);
    if a.ReleaseOne? {
      AboutHandle(s, InOthers(c, s.co[c].iter));
    }
    assert ThreadOk(s, t);
    StepKeepsInv(s, t, a, s');
    assert !s'.fault;
    hide Inv, Enabled, Do;
    if Target(s.co[c].pc).Some? {
      AwaitCounts(s, t, a);
    } else {
      OwnCounts(s, t, a);
    }
  }

  lemma AwaitCounts(s: State, t: nat, a: Act)
    requires Enabled(s, t, a) && Executing(s, t) && Target(s.co[Top(s, t)].pc).Some? && ThreadOk(s, t) && TopOk(s, t)
    requires !a.SigBegin? && !a.SigStop? && !a.SigFlood? && !Do(s, t, a).fault
    ensures Top(s, t) < |Do(s, t, a).co| && ToGo(Do(s, t, a).co[Top(s, t)]) < ToGo(s.co[Top(s, t)])
  {
  }

  lemma OwnCounts(s: State, t: nat, a: Act)
    requires Enabled(s, t, a) && Executing(s, t) && Target(s.co[Top(s, t)].pc) == None && s.co[Top(s, t)].pc != Body
    requires ThreadOk(s, t) && TopOk(s, t) && !Do(s, t, a).fault
    requires !a.SigBegin? && !a.SigStop? && !a.SigFlood?
    requires a.ReleaseOne? ==> s.co[Top(s, t)].others[s.co[Top(s, t)].iter] != Top(s, t) && s.co[Top(s, t)].sched.Some?
    ensures Top(s, t) < |Do(s, t, a).co| && ToGo(Do(s, t, a).co[Top(s, t)]) < ToGo(s.co[Top(s, t)])
  {
    if a.ReleaseOne? {
      ReleaseCounts(s, t);
    }
  }

  lemma ReleaseCounts(s: State, t: nat)
    requires Enabled(s, t, ReleaseOne) && TopOk(s, t) && !DoRelease(s, t).fault && s.co[Top(s, t)].sched.Some?
    requires s.co[Top(s, t)].others[s.co[Top(s, t)].iter] != Top(s, t)
    ensures Top(s, t) < |DoRelease(s, t).co| && ToGo(DoRelease(s, t).co[Top(s, t)]) < ToGo(s.co[Top(s, t)])
  {
  }
}
