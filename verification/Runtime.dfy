/** The coroutine runtime of src/Task.hpp and src/Scheduler.hpp as a step machine.

    One action is one lock, unlock, enqueue, pull, test or assignment of one thread; every
    interleaving of the threads is a run.  An action whose code would dereference a destroyed
    frame, resume a handle that is null, dead or not suspended, use a null `scheduler`, or read
    a result before its body has ended sets `fault`; the runs that fault are runs too. */
module Runtime {
  import opened Options

  /** A std::coroutine_handle<>: null, or the coroutine with that index. */
  datatype Handle = Null | H(c: nat)

  // --- Coroutines ---------------------------------------------------------------------------

  /** The next thing a coroutine does when its thread runs it, or when it is next resumed. */
  datatype Pc =
    | Body               // its own code
    | Enqueue(q: nat)    // inside Scheduler::await_suspend, about to push its own handle
    | WaitLock(d: nat)   // inside Task::await_suspend of task d: m_->lock()
    | WaitCheck(d: nat)  // if (*finished_)
    | WaitPush(d: nat)   // handle_.promise().others.push_back(handle)
    | WaitUnlock(d: nat) // m_->unlock(); return false
    | Read(d: nat)       // await_resume of task d
    | FinLock            // inside final_suspend: m->lock()
    | FinSet             // *finished = true
    | FinLoop            // the loop over others
    | FinUnlock          // m->unlock()
    | FinDestroy         // suspend_never: the frame is destroyed
    | Gone

  /** The shared result cell: default-constructed, assigned by return_value, or moved out. */
  datatype Cell = Default | Stored(v: int) | Moved

  /** How the body ended. */
  datatype Outcome = Pending | Returned(v: int) | Threw

  /** Auxiliary: where the coroutine's handle is.  No action reads it. */
  datatype Place =
    | OnThread(t: nat, i: nat)  // frame i of thread t's stack
    | InQueue(q: nat, k: nat)   // the k-th handle ever pushed to scheduler q, not yet pulled
    | InOthers(d: nat, j: nat)  // others[j] of task d, not yet released
    | Held(t: nat)              // in worker t's local `handle`, between pull and resume
    | Leaked(q: nat)            // dropped by a worker of q that left its loop
    | Destroyed

  datatype Co = Co(
    // constant: which Task form, whether it is an EPoll::wait loop, and who called it
    isVoid: bool, isLoop: bool, parent: Option<nat>,
    // the frame with its promise; it exists until pc == Gone
    pc: Pc, suspended: bool, sched: Option<nat>, others: seq<nat>, iter: nat,
    // its Task object has reached its caller
    returned: bool,
    // what the Task object shares with the promise
    lock: Option<nat>, finished: bool, cell: Cell,
    // history: how the body ended; what each await_resume of this task found; how often
    // Task::await_suspend told this coroutine to stay suspended and a final_suspend enqueued it
    outcome: Outcome, seen: seq<Cell>, waits: nat, wakes: nat,
    place: Place)

  // --- Threads and schedulers ---------------------------------------------------------------

  datatype Home = Worker(q: nat) | External

  /** thread_start. */
  datatype Loop = AtCheck | AtPull | Holding(h: Handle) | Resuming | Exited

  /** `frames` are the coroutines the thread is executing, innermost last; `unlocking` is a task
      whose await_suspend has registered the awaiter and is about to unlock. */
  datatype Thread = Thread(home: Home, loop: Loop, frames: seq<nat>, unlocking: Option<nat>)

  /** The ready queue: everything ever pushed, and how much of it has been pulled.  One push or
      pull is one action, which is what the monitor's theorems about the queue justify. */
  datatype Ready = Ready(items: seq<Handle>, head: nat)

  /** SIGINT_HANDLER: off, about to stop scheduler q, or k empty handles into its loop. */
  datatype Sig = Off | Stop(q: nat) | Flood(q: nat, k: nat)

  datatype State = State(
    threads: seq<Thread>,
    running: seq<bool>,  // per scheduler
    ready: seq<Ready>,   // per scheduler
    co: seq<Co>,
    sig: Sig,
    fault: bool)

  /** threads_.size() of scheduler q. */
  function CountWorkers(threads: seq<Thread>, q: nat): nat {
    if threads == [] then 0
    else
      CountWorkers(threads[..|threads| - 1], q)
      + (if threads[|threads| - 1].home == Worker(q) then 1 else 0)
  }

  // --- Reading the state ----------------------------------------------------------------------

  /** Thread t is executing coroutine Top(s, t). */
  predicate Executing(s: State, t: nat) {
    && t < |s.threads|
    && s.threads[t].unlocking == None
    && s.threads[t].frames != []
    && s.threads[t].frames[|s.threads[t].frames| - 1] < |s.co|
  }

  function Top(s: State, t: nat): nat
    requires Executing(s, t)
  {
    s.threads[t].frames[|s.threads[t].frames| - 1]
  }

  predicate At(s: State, t: nat, pc: Pc) {
    Executing(s, t) && s.co[Top(s, t)].pc == pc
  }

  /** The task that a coroutine at pc is awaiting. */
  function Target(pc: Pc): Option<nat> {
    match pc
    case WaitLock(d) => Some(d)
    case WaitCheck(d) => Some(d)
    case WaitPush(d) => Some(d)
    case WaitUnlock(d) => Some(d)
    case Read(d) => Some(d)
    case _ => None
  }

  /** Thread t is inside an await of a task that exists. */
  predicate Waiting(s: State, t: nat) {
    && Executing(s, t)
    && Target(s.co[Top(s, t)].pc).Some?
    && Target(s.co[Top(s, t)].pc).value < |s.co|
  }

  predicate IsWorker(s: State, t: nat) {
    && t < |s.threads| && s.threads[t].home.Worker?
    && s.threads[t].home.q < |s.running| == |s.ready|
  }

  /** A thread of the program outside any coroutine, such as main in serverStart. */
  predicate Outside(s: State, t: nat) {
    && t < |s.threads| && s.threads[t].home == External
    && s.threads[t].frames == [] && s.threads[t].unlocking == None
  }

  // --- Writing the state ----------------------------------------------------------------------

  function Put(s: State, c: nat, co: Co): State
    requires c < |s.co|
  {
    s.(co := s.co[c := co])
  }

  function PutThread(s: State, t: nat, th: Thread): State
    requires t < |s.threads|
  {
    s.(threads := s.threads[t := th])
  }

  function SetLoop(s: State, t: nat, l: Loop): State
    requires t < |s.threads|
  {
    PutThread(s, t, s.threads[t].(loop := l))
  }

  function Append(s: State, q: nat, h: Handle): State
    requires q < |s.ready|
  {
    s.(ready := s.ready[q := s.ready[q].(items := s.ready[q].items + [h])])
  }

  /** The innermost frame of thread t leaves its stack. */
  function Pop(s: State, t: nat, unlocking: Option<nat>): State
    requires Executing(s, t)
  {
    var th := s.threads[t];
    PutThread(s, t, th.(frames := th.frames[..|th.frames| - 1], unlocking := unlocking))
  }

  /** handle.resume() on thread t. */
  function Resume(s: State, t: nat, c: nat): State
    requires t < |s.threads| && c < |s.co|
  {
    var th := s.threads[t];
    Put(PutThread(s, t, th.(loop := Resuming, frames := th.frames + [c])),
        c, s.co[c].(suspended := false, place := OnThread(t, |th.frames|)))
  }

  predicate Resumable(s: State, h: Handle) {
    h.H? && h.c < |s.co| && s.co[h.c].pc != Gone && s.co[h.c].suspended
  }

  function Fault(s: State): State {
    s.(fault := true)
  }

  // --- Actions ------------------------------------------------------------------------------

  datatype Act =
    | LoopCheck | LoopPull | LoopResume | LoopReturn                   // thread_start
    | Call(isVoid: bool, isLoop: bool)                                 // calling a coroutine
    | AwaitScheduler(q: nat) | PushSelf                                // co_await a Scheduler
    | AwaitTask(d: nat) | LockTask | CheckTask | PushOther             // co_await a Task
    | UnlockSuspended | UnlockReady | ReadResult
    | CoReturn(v: int) | Throw                                         // the body ends
    | LockFinal | SetFinished | ReleaseOne | ReleaseDone | UnlockFinal // final_suspend
    | Destroy
    | SigBegin | SigStop | SigFlood                                    // SIGINT_HANDLER

  predicate Enabled(s: State, t: nat, a: Act) {
    !s.fault &&
    match a
    case LoopCheck => IsWorker(s, t) && s.threads[t].loop == AtCheck
    case LoopPull =>
      IsWorker(s, t) && s.threads[t].loop == AtPull && var r := s.ready[s.threads[t].home.q]; r.head < |r.items|
    case LoopResume => IsWorker(s, t) && s.threads[t].loop.Holding?
    case LoopReturn =>
      IsWorker(s, t) && s.threads[t].loop == Resuming && s.threads[t].frames == [] && s.threads[t].unlocking == None
    case Call(_, isLoop) =>
      // serverStart calls EPoll::wait from outside any coroutine
      Outside(s, t) || (!isLoop && At(s, t, Body))
    case AwaitScheduler(q) => At(s, t, Body) && q < |s.ready| && (s.co[Top(s, t)].isLoop ==> q == 0)
    case PushSelf => Executing(s, t) && s.co[Top(s, t)].pc.Enqueue? && s.co[Top(s, t)].pc.q < |s.ready|
    case AwaitTask(d) =>
      // any task whose Task object exists; a wait loop awaits none
      At(s, t, Body) && d < |s.co| && s.co[d].returned && !s.co[Top(s, t)].isLoop
    case LockTask => Waiting(s, t) && s.co[Top(s, t)].pc.WaitLock? && s.co[s.co[Top(s, t)].pc.d].lock == None
    case CheckTask => Waiting(s, t) && s.co[Top(s, t)].pc.WaitCheck?
    case PushOther => Waiting(s, t) && s.co[Top(s, t)].pc.WaitPush?
    case UnlockSuspended =>
      t < |s.threads| && s.threads[t].unlocking.Some? && s.threads[t].unlocking.value < |s.co|
    case UnlockReady => Waiting(s, t) && s.co[Top(s, t)].pc.WaitUnlock?
    case ReadResult => Waiting(s, t) && s.co[Top(s, t)].pc.Read?
    case CoReturn(_) => At(s, t, Body)
    case Throw => At(s, t, Body)
    case LockFinal => At(s, t, FinLock) && s.co[Top(s, t)].lock == None
    case SetFinished => At(s, t, FinSet)
    case ReleaseOne => At(s, t, FinLoop) && s.co[Top(s, t)].iter < |s.co[Top(s, t)].others|
    case ReleaseDone => At(s, t, FinLoop) && s.co[Top(s, t)].iter >= |s.co[Top(s, t)].others|
    case UnlockFinal => At(s, t, FinUnlock)
    case Destroy => At(s, t, FinDestroy)
    case SigBegin => s.sig == Off
    case SigStop => s.sig.Stop?
    case SigFlood => s.sig.Flood?
  }

  function Do(s: State, t: nat, a: Act): State
    requires Enabled(s, t, a)
  {
    match a
    case LoopCheck => DoCheckLoop(s, t)
    case LoopPull => DoPull(s, t)
    case LoopResume => DoResume(s, t)
    case LoopReturn => SetLoop(s, t, AtCheck)
    case Call(isVoid, isLoop) => DoCall(s, t, isVoid, isLoop)
    case AwaitScheduler(q) => DoAwaitScheduler(s, t, q)
    case PushSelf => DoPushSelf(s, t)
    case AwaitTask(d) => DoAwaitTask(s, t, d)
    case LockTask => DoLockTask(s, t)
    case CheckTask => DoCheckTask(s, t)
    case PushOther => DoPushOther(s, t)
    case UnlockSuspended => DoUnlockSuspended(s, t)
    case UnlockReady => DoUnlockReady(s, t)
    case ReadResult => DoRead(s, t)
    case CoReturn(v) => DoCoReturn(s, t, v)
    case Throw => DoThrow(s, t)
    case LockFinal => DoLockFinal(s, t)
    case SetFinished => DoSetFinished(s, t)
    case ReleaseOne => DoRelease(s, t)
    case ReleaseDone => Advance(s, Top(s, t), FinUnlock)
    case UnlockFinal => DoUnlockFinal(s, t)
    case Destroy => DoDestroy(s, t)
    case SigBegin => s.(sig := Stop(0))
    case SigStop => DoStop(s)
    case SigFlood => DoFlood(s)
  }

  function Advance(s: State, c: nat, pc: Pc): State
    requires c < |s.co|
  {
    Put(s, c, s.co[c].(pc := pc))
  }

  // --- thread_start ---

  /** while (running_) */
  function DoCheckLoop(s: State, t: nat): State
    requires IsWorker(s, t)
  {
    SetLoop(s, t, if s.running[s.threads[t].home.q] then AtPull else Exited)
  }

  /** auto handle = queue_->pull(); the value is taken inside the queue's lock. */
  function DoPull(s: State, t: nat): State
    requires IsWorker(s, t)
    requires s.ready[s.threads[t].home.q].head < |s.ready[s.threads[t].home.q].items|
  {
    var q := s.threads[t].home.q;
    var r := s.ready[q];
    var h := r.items[r.head];
    var u := SetLoop(s, t, Holding(h)).(ready := s.ready[q := r.(head := r.head + 1)]);
    if h.H? && h.c < |s.co| then Put(u, h.c, s.co[h.c].(place := Held(t))) else u
  }

  /** if (!running_) break; handle.resume(); */
  function DoResume(s: State, t: nat): State
    requires IsWorker(s, t) && s.threads[t].loop.Holding?
  {
    var q := s.threads[t].home.q;
    var h := s.threads[t].loop.h;
    if !s.running[q] then Leave(s, t, h, q)
    else if Resumable(s, h) then Resume(s, t, h.c)
    else Fault(s)
  }

  /** The worker leaves its loop with a handle it will not resume. */
  function Leave(s: State, t: nat, h: Handle, q: nat): State
    requires t < |s.threads|
  {
    var u := SetLoop(s, t, Exited);
    if h.H? && h.c < |s.co| then Put(u, h.c, s.co[h.c].(place := Leaked(q))) else u
  }

  // --- Calling a coroutine ---

  /** Its body starts at once, on its caller's thread. */
  function DoCall(s: State, t: nat, isVoid: bool, isLoop: bool): State
    requires t < |s.threads|
  {
    var th := s.threads[t];
    var parent := if Executing(s, t) then Some(Top(s, t)) else None;
    PutThread(s, t, th.(frames := th.frames + [|s.co|])).(
      co := s.co + [Co(isVoid, isLoop, parent, Body, false, None, [], 0, false, None, false, Default,
                       Pending, [], 0, 0, OnThread(t, |th.frames|))])
  }

  // --- co_await of a Scheduler ---

  /** await_transform remembers the scheduler in the promise. */
  function DoAwaitScheduler(s: State, t: nat, q: nat): State
    requires Executing(s, t)
  {
    var c := Top(s, t);
    Put(s, c, s.co[c].(pc := Enqueue(q), sched := Some(q), suspended := true))
  }

  /** Scheduler::await_suspend. */
  function DoPushSelf(s: State, t: nat): State
    requires Executing(s, t) && s.co[Top(s, t)].pc.Enqueue? && s.co[Top(s, t)].pc.q < |s.ready|
  {
    var c := Top(s, t);
    var q := s.co[c].pc.q;
    Put(Append(Pop(s, t, None), q, H(c)),
        c, s.co[c].(pc := Body, returned := true, place := InQueue(q, |s.ready[q].items|)))
  }

  // --- co_await of a Task: await_suspend and await_resume ---

  function DoAwaitTask(s: State, t: nat, d: nat): State
    requires Executing(s, t)
  {
    var c := Top(s, t);
    Put(s, c, s.co[c].(pc := WaitLock(d), suspended := true))
  }

  function DoLockTask(s: State, t: nat): State
    requires Waiting(s, t) && s.co[Top(s, t)].pc.WaitLock?
  {
    var c := Top(s, t);
    var d := s.co[c].pc.d;
    Advance(Put(s, d, s.co[d].(lock := Some(t))), c, WaitCheck(d))
  }

  function DoCheckTask(s: State, t: nat): State
    requires Waiting(s, t) && s.co[Top(s, t)].pc.WaitCheck?
  {
    var c := Top(s, t);
    var d := s.co[c].pc.d;
    Advance(s, c, if s.co[d].finished then WaitUnlock(d) else WaitPush(d))
  }

  /** The awaiter registers in the promise of d, whose frame must exist. */
  function DoPushOther(s: State, t: nat): State
    requires Waiting(s, t) && s.co[Top(s, t)].pc.WaitPush?
  {
    var c := Top(s, t);
    var d := s.co[c].pc.d;
    if s.co[d].pc == Gone then Fault(s)
    else
      var u := Put(Pop(s, t, Some(d)), d, s.co[d].(others := s.co[d].others + [c]));
      Put(u, c, u.co[c].(pc := Read(d), returned := true, waits := u.co[c].waits + 1,
                         place := InOthers(d, |s.co[d].others|)))
  }

  /** m_->unlock(); return true; */
  function DoUnlockSuspended(s: State, t: nat): State
    requires t < |s.threads| && s.threads[t].unlocking.Some? && s.threads[t].unlocking.value < |s.co|
  {
    var d := s.threads[t].unlocking.value;
    PutThread(Put(s, d, s.co[d].(lock := None)), t, s.threads[t].(unlocking := None))
  }

  /** m_->unlock(); return false; the coroutine goes on. */
  function DoUnlockReady(s: State, t: nat): State
    requires Waiting(s, t) && s.co[Top(s, t)].pc.WaitUnlock?
  {
    var c := Top(s, t);
    var d := s.co[c].pc.d;
    var u := Put(s, d, s.co[d].(lock := None));
    Put(u, c, u.co[c].(pc := Read(d), suspended := false))
  }

  function DoRead(s: State, t: nat): State
    requires Waiting(s, t) && s.co[Top(s, t)].pc.Read?
  {
    var c := Top(s, t);
    var d := s.co[c].pc.d;
    if s.co[d].outcome == Pending then Fault(s)
    else Advance(Put(s, d, s.co[d].(cell := Moved, seen := s.co[d].seen + [s.co[d].cell])), c, Body)
  }

  // --- The body ends: return_value, or unhandled_exception ---

  function DoCoReturn(s: State, t: nat, v: int): State
    requires Executing(s, t)
  {
    var c := Top(s, t);
    Put(s, c, s.co[c].(pc := FinLock, outcome := Returned(v), cell := Stored(v)))
  }

  function DoThrow(s: State, t: nat): State
    requires Executing(s, t)
  {
    var c := Top(s, t);
    Put(s, c, s.co[c].(pc := FinLock, outcome := Threw))
  }

  // --- final_suspend ---

  function DoLockFinal(s: State, t: nat): State
    requires Executing(s, t)
  {
    var c := Top(s, t);
    Put(s, c, s.co[c].(pc := FinSet, lock := Some(t)))
  }

  function DoSetFinished(s: State, t: nat): State
    requires Executing(s, t)
  {
    var c := Top(s, t);
    Put(s, c, s.co[c].(pc := FinLoop, finished := true))
  }

  /** One turn of the loop over others. */
  function DoRelease(s: State, t: nat): State
    requires Executing(s, t) && s.co[Top(s, t)].iter < |s.co[Top(s, t)].others|
  {
    var c := Top(s, t);
    var me := s.co[c];
    var o := me.others[me.iter];
    if o >= |s.co| then Fault(s)
    else if me.sched.Some? then
      if me.sched.value < |s.ready| then EnqueueOther(s, c, o, me.sched.value) else Fault(s)
    else if me.isVoid || !Resumable(s, H(o)) then
      Fault(s)  // Task<void> has no null test before scheduler->enqueue
    else Resume(Put(s, c, me.(iter := me.iter + 1)), t, o)
  }

  /** scheduler->enqueue(o) */
  function EnqueueOther(s: State, c: nat, o: nat, q: nat): State
    requires c < |s.co| && o < |s.co| && q < |s.ready|
  {
    var u := Put(s, c, s.co[c].(iter := s.co[c].iter + 1));
    Put(Append(u, q, H(o)),
        o, u.co[o].(wakes := u.co[o].wakes + 1, place := InQueue(q, |s.ready[q].items|)))
  }

  function DoUnlockFinal(s: State, t: nat): State
    requires Executing(s, t)
  {
    var c := Top(s, t);
    Put(s, c, s.co[c].(pc := FinDestroy, lock := None))
  }

  function DoDestroy(s: State, t: nat): State
    requires Executing(s, t)
  {
    var c := Top(s, t);
    Put(Pop(s, t, None), c, s.co[c].(pc := Gone, returned := true, place := Destroyed))
  }

  // --- SIGINT_HANDLER ---

  /** s->running_ = false, for one scheduler of the list. */
  function DoStop(s: State): State
    requires s.sig.Stop?
  {
    var q := s.sig.q;
    if q < |s.running| then s.(running := s.running[q := false], sig := Flood(q, 0))
    else s.(sig := Off)
  }

  /** One turn of the inner loop: an empty handle for each thread. */
  function DoFlood(s: State): State
    requires s.sig.Flood?
  {
    var q, k := s.sig.q, s.sig.k;
    if q < |s.ready| && k < CountWorkers(s.threads, q) then Append(s, q, Null).(sig := Flood(q, k + 1))
    else s.(sig := Stop(q + 1))
  }

  // --- Runs ---------------------------------------------------------------------------------

  /** Before the first coroutine: workers about to enter their loop, empty queues. */
  ghost predicate Init(s: State) {
    && |s.running| == |s.ready|
    && s.co == []
    && (forall t :: 0 <= t < |s.threads| ==> InitThread(s.threads[t], |s.running|))
    && (forall q :: 0 <= q < |s.running| ==> s.running[q])
    && (forall q :: 0 <= q < |s.ready| ==> s.ready[q] == Ready([], 0))
    && s.sig == Off && !s.fault
  }

  predicate InitThread(th: Thread, n: nat) {
    && th.frames == [] && th.unlocking == None
    && match th.home
       case Worker(q) => q < n && th.loop == AtCheck
       case External => th.loop == Resuming
  }

  /** The programming rule every coroutine of the server keeps: it awaits a scheduler before it
      first awaits a task. */
  predicate SchedulerFirst(s: State, t: nat, a: Act)
    requires Enabled(s, t, a)
  {
    a.AwaitTask? ==> s.co[Top(s, t)].sched.Some?
  }

  ghost predicate Step(s: State, t: nat, a: Act, s': State) {
    && Enabled(s, t, a)
    && SchedulerFirst(s, t, a)
    && s' == Do(s, t, a)
  }

  datatype Event = Event(t: nat, a: Act)

  ghost predicate StepAt(ss: seq<State>, es: seq<Event>, i: nat)
    requires |ss| == |es| + 1 && i < |es|
  {
    Step(ss[i], es[i].t, es[i].a, ss[i + 1])
  }

  /** A run: any interleaving of the threads' actions from the initial state. */
  ghost predicate Execution(ss: seq<State>, es: seq<Event>) {
    && |ss| == |es| + 1
    && Init(ss[0])
    && forall i :: 0 <= i < |es| ==> StepAt(ss, es, i)
  }
}
