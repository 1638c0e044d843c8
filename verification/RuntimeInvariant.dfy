/** What every step of the runtime keeps. */
module RuntimeInvariant {
  import opened Options
  import opened Runtime

  // --- One owner ------------------------------------------------------------------------------

  /** The handle that is at a place, if any. */
  function HandleAt(s: State, p: Place): Option<nat> {
    match p
    case OnThread(t, i) =>
      if t < |s.threads| && i < |s.threads[t].frames| then Some(s.threads[t].frames[i]) else None
    case InQueue(q, k) =>
      if q < |s.ready| && s.ready[q].head <= k < |s.ready[q].items| && s.ready[q].items[k].H?
      then Some(s.ready[q].items[k].c) else None
    case InOthers(d, j) =>
      if d < |s.co| && s.co[d].pc != Gone && s.co[d].iter <= j < |s.co[d].others|
      then Some(s.co[d].others[j]) else None
    case Held(t) =>
      if t < |s.threads| && s.threads[t].loop.Holding? && s.threads[t].loop.h.H?
      then Some(s.threads[t].loop.h.c) else None
    case Leaked(_) => None
    case Destroyed => None
  }

  predicate Lost(p: Place) {
    p.Leaked? || p.Destroyed?
  }

  /** `place` is exact: handles are where places say, and nowhere else. */
  ghost predicate PlacesOk(s: State) {
    && (forall p :: HandleAt(s, p).Some? ==>
          HandleAt(s, p).value < |s.co| && s.co[HandleAt(s, p).value].place == p)
    && (forall c :: 0 <= c < |s.co| ==> Located(s, c))
  }

  ghost predicate Located(s: State, c: nat)
    requires c < |s.co|
  {
    Lost(s.co[c].place) || HandleAt(s, s.co[c].place) == Some(c)
  }

  // --- What one coroutine's fields say about each other -------------------------------------------

  /** The body is over. */
  predicate Ended(pc: Pc) {
    pc.FinLock? || pc.FinSet? || Told(pc)
  }

  /** `finished` has been set. */
  predicate Told(pc: Pc) {
    pc.FinLoop? || Released(pc)
  }

  /** Every awaiter has been enqueued. */
  predicate Released(pc: Pc) {
    pc.FinUnlock? || pc.FinDestroy? || pc.Gone?
  }

  /** Between the suspension of a coroutine and the end of its await_suspend. */
  predicate Awaiting(pc: Pc) {
    pc.Enqueue? || pc.WaitLock? || pc.WaitCheck? || pc.WaitPush? || pc.WaitUnlock?
  }

  /** What the first await_resume of a task finds. */
  function Result(o: Outcome): Cell {
    if o.Returned? then Stored(o.v) else Default
  }

  predicate LifeOk(co: Co) {
    && (co.finished <==> Told(co.pc))
    && (co.outcome == Pending <==> !Ended(co.pc))
    && (!co.finished ==> co.iter == 0)
    && co.iter <= |co.others|
    && (Released(co.pc) ==> co.iter == |co.others|)
    && (co.pc == Gone <==> co.place == Destroyed)
    && (co.pc != Gone ==> (co.suspended <==> !co.place.OnThread? || Awaiting(co.pc)))
    && (!co.place.OnThread? && co.pc != Gone ==> co.pc == Body || co.pc.Read?)
    && (!co.place.OnThread? ==> co.returned)
    && (co.place.InOthers? ==> co.pc == Read(co.place.d))
  }

  predicate SchedulerOk(co: Co, n: nat) {
    && (co.sched.Some? ==> co.sched.value < n)
    && (co.others != [] ==> co.sched.Some?)
    && (co.returned ==> co.sched.Some? || co.pc == Gone)
    && (Target(co.pc).Some? ==> co.sched.Some?)
    && (co.pc.Enqueue? ==> co.sched == Some(co.pc.q))
  }

  predicate HistoryOk(co: Co) {
    && co.waits == co.wakes + (if co.place.InOthers? then 1 else 0)
    && if co.seen == [] then co.cell == Result(co.outcome)
       else co.outcome != Pending && co.cell == Moved && Drained(co.seen, co.outcome)
  }

  /** The first await_resume found the result, all later ones what it left behind. */
  predicate Drained(seen: seq<Cell>, o: Outcome) {
    seen != [] && seen[0] == Result(o) && forall k :: 1 <= k < |seen| ==> seen[k] == Moved
  }

  predicate Own(co: Co, n: nat) {
    LifeOk(co) && SchedulerOk(co, n) && HistoryOk(co)
  }

  predicate OwnOk(s: State, c: nat)
    requires c < |s.co|
  {
    Own(s.co[c], |s.ready|)
  }

  // --- What a coroutine says about others ---------------------------------------------------------

  /** The task whose mutex a coroutine c at pc holds. */
  function Crit(pc: Pc, c: nat): Option<nat> {
    match pc
    case WaitCheck(d) => Some(d)
    case WaitPush(d) => Some(d)
    case WaitUnlock(d) => Some(d)
    case FinSet => Some(c)
    case FinLoop => Some(c)
    case FinUnlock => Some(c)
    case _ => None
  }

  /** The awaited task exists, and where `finished` has been tested it is what was seen. */
  ghost predicate TargetOk(s: State, c: nat)
    requires c < |s.co|
  {
    var pc := s.co[c].pc;
    Target(pc).Some? ==>
      var d := Target(pc).value;
      && d < |s.co|
      && s.co[d].returned
      && (pc.WaitPush? ==> !s.co[d].finished)
      && (pc.WaitUnlock? || (pc.Read? && !s.co[c].place.InOthers?) ==> s.co[d].finished)
  }

  /** Inside a critical section the thread owns the mutex; only the innermost frame of a thread is
      anywhere but in its own code; and handles are dropped only after their scheduler stopped. */
  ghost predicate OwnerOk(s: State, c: nat)
    requires c < |s.co|
  {
    var pc, p := s.co[c].pc, s.co[c].place;
    && (p.OnThread? && pc != Body ==>
          p.t < |s.threads| && p.i == |s.threads[p.t].frames| - 1 && s.threads[p.t].unlocking == None)
    && (Crit(pc, c).Some? ==>
          p.OnThread? && Crit(pc, c).value < |s.co| && s.co[Crit(pc, c).value].lock == Some(p.t))
    && (p.Leaked? ==> p.q < |s.running| && !s.running[p.q])
  }

  /** A locked mutex has a thread inside its critical section. */
  ghost predicate LockOk(s: State, d: nat)
    requires d < |s.co|
  {
    s.co[d].lock.Some? ==>
      var t := s.co[d].lock.value;
      && t < |s.threads|
      && (s.threads[t].unlocking == Some(d)
          || (Executing(s, t) && Crit(s.co[Top(s, t)].pc, Top(s, t)) == Some(d)))
  }

  ghost predicate ThreadOk(s: State, t: nat)
    requires t < |s.threads|
  {
    var th := s.threads[t];
    && (th.home.Worker? ==> th.home.q < |s.ready|)
    && (th.home == External || th.frames != [] || th.unlocking != None ==> th.loop == Resuming)
    && (th.loop == Holding(Null) || th.loop == Exited ==>
          th.home.Worker? && th.home.q < |s.running| && !s.running[th.home.q])
    && (th.unlocking.Some? ==> th.unlocking.value < |s.co| && s.co[th.unlocking.value].lock == Some(t))
  }

  ghost predicate QueuesOk(s: State) {
    && |s.running| == |s.ready|
    && (forall q :: 0 <= q < |s.ready| ==> s.ready[q].head <= |s.ready[q].items|)
    && (forall q, k ::
          0 <= q < |s.ready| && s.ready[q].head <= k < |s.ready[q].items| && s.ready[q].items[k] == Null ==>
            !s.running[q])
    && (s.sig.Flood? ==> s.sig.q < |s.running| && !s.running[s.sig.q])
  }

  ghost predicate Inv(s: State) {
    && PlacesOk(s)
    && QueuesOk(s)
    && (forall c :: 0 <= c < |s.co| ==> OwnOk(s, c))
    && (forall c :: 0 <= c < |s.co| ==> TargetOk(s, c))
    && (forall c :: 0 <= c < |s.co| ==> OwnerOk(s, c))
    && (forall d :: 0 <= d < |s.co| ==> LockOk(s, d))
    && (forall t :: 0 <= t < |s.threads| ==> ThreadOk(s, t))
    && !s.fault
  }

  lemma InitInv(s: State)
    requires Init(s)
    ensures Inv(s)
  {
  }

  // --- One step changes little ----------------------------------------------------------------------

  /** Thread t may set `finished` of a task only while it has that task's mutex, and may only
      take a free mutex or release its own. */
  predicate Grows(co: Co, co': Co, t: nat) {
    && (co.returned ==> co'.returned)
    && (co.finished ==> co'.finished)
    && (co'.finished ==> co.finished || co.lock == Some(t))
    && (co'.lock == co.lock || (co.lock == None && co'.lock == Some(t)) || (co.lock == Some(t) && co'.lock == None))
  }

  ghost predicate GrowsAt(s: State, s': State, t: nat, c: nat)
    requires c < |s.co| <= |s'.co|
  {
    Grows(s.co[c], s'.co[c], t)
  }

  predicate SameSpot(co: Co, co': Co) {
    co.pc == co'.pc && co.place == co'.place
  }

  /** A step of thread t that moves no coroutine but x (none, if x is out of range): either it
      leaves t's stack, the mutexes and `finished` alone, or t executes no other non-body code. */
  ghost predicate Local(s: State, s': State, t: nat, x: nat) {
    && t < |s.threads| == |s'.threads|
    && |s.co| <= |s'.co|
    && |s.ready| == |s'.ready| && |s.running| == |s'.running|
    && (forall u :: 0 <= u < |s.threads| && u != t ==> s'.threads[u] == s.threads[u])
    && (forall c :: 0 <= c < |s.co| && c != x ==> SameSpot(s.co[c], s'.co[c]))
    && (forall c :: 0 <= c < |s.co| ==> GrowsAt(s, s', t, c))
    && (forall q :: 0 <= q < |s.running| && s'.running[q] ==> s.running[q])
    && (x < |s.co| && s.co[x].place.OnThread? ==> s.co[x].place.t == t)
    && (Quiet(s, s', t) || Alone(s, t, x))
  }

  ghost predicate Quiet(s: State, s': State, t: nat)
    requires t < |s.threads| == |s'.threads| && |s.co| <= |s'.co|
  {
    && s'.threads[t].frames == s.threads[t].frames
    && s'.threads[t].unlocking == s.threads[t].unlocking
    && forall c :: 0 <= c < |s.co| ==> s'.co[c].lock == s.co[c].lock && s'.co[c].finished == s.co[c].finished
  }

  ghost predicate Alone(s: State, t: nat, x: nat) {
    forall c :: 0 <= c < |s.co| && c != x && s.co[c].place.OnThread? && s.co[c].place.t == t ==> s.co[c].pc == Body
  }

  /** The innermost coroutine of a thread is alone in that sense. */
  lemma TopAlone(s: State, t: nat)
    requires Inv(s) && Executing(s, t)
    ensures Alone(s, t, Top(s, t))
    ensures s.co[Top(s, t)].place == OnThread(t, |s.threads[t].frames| - 1)
  {
    assert HandleAt(s, OnThread(t, |s.threads[t].frames| - 1)) == Some(Top(s, t));
    forall c | 0 <= c < |s.co| && c != Top(s, t) && s.co[c].place.OnThread? && s.co[c].place.t == t
      ensures s.co[c].pc == Body
    {
      assert OwnerOk(s, c) && Located(s, c);
    }
  }

  lemma CoroutineKept(s: State, s': State, t: nat, x: nat, c: nat)
    requires Inv(s) && Local(s, s', t, x) && c < |s.co| && c != x
    ensures TargetOk(s', c) && OwnerOk(s', c)
  {
    assert TargetOk(s, c) && OwnerOk(s, c);
    assert Target(s.co[c].pc).Some? ==> GrowsAt(s, s', t, Target(s.co[c].pc).value);
    assert Crit(s.co[c].pc, c).Some? ==> GrowsAt(s, s', t, Crit(s.co[c].pc, c).value);
  }

  lemma LockKept(s: State, s': State, t: nat, x: nat, d: nat)
    requires Inv(s) && Local(s, s', t, x) && d < |s.co| && s'.co[d].lock != Some(t)
    ensures LockOk(s', d)
  {
    assert LockOk(s, d) && GrowsAt(s, s', t, d);
    if s'.co[d].lock.Some? && s.threads[s.co[d].lock.value].unlocking != Some(d) {
      var u := s.co[d].lock.value;
      assert HandleAt(s, OnThread(u, |s.threads[u].frames| - 1)) == Some(Top(s, u));
    }
  }

  /** The handle of x, if it has one, went from its old place to its new one; no other moved. */
  ghost predicate Shifted(s: State, s': State, x: nat) {
    && (x < |s'.co| && !Lost(s'.co[x].place) && !(x < |s.co| && s.co[x].place == s'.co[x].place) ==>
          HandleAt(s, s'.co[x].place) == None)
    && (forall p :: HandleAt(s', p) ==
          if x < |s'.co| && p == s'.co[x].place && !Lost(p) then Some(x)
          else if x < |s.co| && p == s.co[x].place then None
          else HandleAt(s, p))
  }

  lemma PlacesKept(s: State, s': State, x: nat)
    requires PlacesOk(s) && Shifted(s, s', x)
    requires |s'.co| == |s.co| || (x == |s.co| && |s'.co| == |s.co| + 1)
    requires forall c :: 0 <= c < |s.co| && c != x ==> s'.co[c].place == s.co[c].place
    ensures PlacesOk(s')
  {
    forall p | HandleAt(s', p).Some?
      ensures HandleAt(s', p).value < |s'.co| && s'.co[HandleAt(s', p).value].place == p
    {
      assert HandleAt(s, p).Some? ==> s.co[HandleAt(s, p).value].place == p;
    }
    forall c | 0 <= c < |s'.co|
      ensures Located(s', c)
    {
      assert c < |s.co| ==> Located(s, c);
      assert x < |s.co| ==> Located(s, x);
    }
  }

  /** So a step keeps the invariant if what it touches is right afterwards. */
  lemma Kept(s: State, s': State, t: nat, x: nat)
    requires Inv(s) && Local(s, s', t, x) && Shifted(s, s', x)
    requires |s'.co| == |s.co| || (x == |s.co| && |s'.co| == |s.co| + 1)
    requires QueuesOk(s') && !s'.fault
    requires forall c :: 0 <= c < |s'.co| ==> (c < |s.co| && s'.co[c] == s.co[c]) || OwnOk(s', c)
    requires x < |s'.co| ==> TargetOk(s', x) && OwnerOk(s', x)
    requires ThreadOk(s', t)
    requires forall d :: 0 <= d < |s'.co| && (s'.co[d].lock == Some(t) || d == |s.co|) ==> LockOk(s', d)
    ensures Inv(s')
  {
    PlacesKept(s, s', x);
    forall c | 0 <= c < |s.co| && c != x ensures TargetOk(s', c) && OwnerOk(s', c) {
      CoroutineKept(s, s', t, x, c);
    }
    forall d | 0 <= d < |s.co| && s'.co[d].lock != Some(t) ensures LockOk(s', d) {
      LockKept(s, s', t, x, d);
    }
    forall u | 0 <= u < |s.threads| && u != t ensures ThreadOk(s', u) {
      assert ThreadOk(s, u);
      assert s.threads[u].unlocking.Some? ==> GrowsAt(s, s', t, s.threads[u].unlocking.value);
    }
    forall c | 0 <= c < |s'.co| ensures OwnOk(s', c) {
      assert c < |s.co| ==> OwnOk(s, c);
    }
  }

  // --- Steps inside the innermost coroutine --------------------------------------------------------

  /** A step that only changes fields of coroutines and moves no handle. */
  lemma StillShifted(s: State, s': State, x: nat)
    requires PlacesOk(s)
    requires s'.threads == s.threads && s'.ready == s.ready && |s'.co| == |s.co|
    requires forall c :: 0 <= c < |s.co| ==>
               && s'.co[c].place == s.co[c].place && s'.co[c].iter == s.co[c].iter
               && s'.co[c].others == s.co[c].others && (s'.co[c].pc == Gone <==> s.co[c].pc == Gone)
    ensures Shifted(s, s', x)
  {
    forall p
      ensures HandleAt(s', p) == HandleAt(s, p)
    {
    }
    assert x < |s.co| ==> Located(s, x);
  }

  /** A step of the innermost coroutine that leaves all stacks, queues and `others` alone. */
  ghost predicate FrameStep(s: State, s': State, t: nat)
    requires Executing(s, t)
  {
    && s' == s.(co := s'.co) && |s'.co| == |s.co|
    && s.co[Top(s, t)].pc != Gone && s'.co[Top(s, t)].pc != Gone
    && (forall d :: 0 <= d < |s.co| ==> FrameCo(s, s', t, d))
  }

  ghost predicate FrameCo(s: State, s': State, t: nat, d: nat)
    requires Executing(s, t) && d < |s.co| == |s'.co|
  {
    var co, co' := s.co[d], s'.co[d];
    && Grows(co, co', t)
    && co'.place == co.place && co'.iter == co.iter && co'.others == co.others
    && (d != Top(s, t) ==> co'.pc == co.pc)
    && (co' == co || Own(co', |s.ready|))
    && (co'.lock == Some(t) ==> Crit(s'.co[Top(s, t)].pc, Top(s, t)) == Some(d))
  }

  lemma FrameStepLocal(s: State, s': State, t: nat)
    requires Inv(s) && Executing(s, t) && FrameStep(s, s', t)
    ensures Local(s, s', t, Top(s, t)) && Shifted(s, s', Top(s, t))
  {
    TopAlone(s, t);
    forall d | 0 <= d < |s.co|
      ensures GrowsAt(s, s', t, d) && (d != Top(s, t) ==> SameSpot(s.co[d], s'.co[d]))
    {
      assert FrameCo(s, s', t, d);
    }
    forall c | 0 <= c < |s.co|
      ensures s'.co[c].place == s.co[c].place && s'.co[c].iter == s.co[c].iter
      ensures s'.co[c].others == s.co[c].others && (s'.co[c].pc == Gone <==> s.co[c].pc == Gone)
    {
      assert FrameCo(s, s', t, c);
    }
    StillShifted(s, s', Top(s, t));
  }

  lemma InFrame(s: State, s': State, t: nat)
    requires Inv(s) && Executing(s, t) && FrameStep(s, s', t)
    requires TargetOk(s', Top(s, t)) && OwnerOk(s', Top(s, t))
    ensures Inv(s')
  {
    FrameStepLocal(s, s', t);
    assert ThreadOk(s, t);
    forall d | 0 <= d < |s'.co|
      ensures s'.co[d].lock == Some(t) ==> LockOk(s', d)
      ensures s'.co[d] == s.co[d] || OwnOk(s', d)
    {
      assert FrameCo(s, s', t, d);
    }
    Kept(s, s', t, Top(s, t));
  }

  /** What the invariant says about the innermost coroutine of a thread. */
  ghost predicate TopOk(s: State, t: nat)
    requires Executing(s, t)
  {
    var c := Top(s, t);
    && s.co[c].place == OnThread(t, |s.threads[t].frames| - 1)
    && OwnerOk(s, c) && TargetOk(s, c) && OwnOk(s, c)
    && (forall d :: 0 <= d < |s.co| && s.co[d].lock == Some(t) ==> Crit(s.co[c].pc, c) == Some(d))
  }

  lemma AboutTop(s: State, t: nat)
    requires Inv(s) && Executing(s, t)
    ensures TopOk(s, t)
  {
    TopAlone(s, t);
    forall d | 0 <= d < |s.co| && s.co[d].lock == Some(t) ensures Crit(s.co[Top(s, t)].pc, Top(s, t)) == Some(d) {
      assert LockOk(s, d);
    }
  }

  lemma AboutThread(s: State, t: nat)
    requires Inv(s) && t < |s.threads|
    ensures ThreadOk(s, t) && QueuesOk(s) && !s.fault
  {
  }

  /** The same, with the task it is awaiting. */
  lemma AboutTarget(s: State, t: nat)
    requires Inv(s) && Waiting(s, t)
    ensures OwnOk(s, Target(s.co[Top(s, t)].pc).value)
  {
  }

  lemma KeepAwaitScheduler(s: State, t: nat, q: nat)
    requires Inv(s) && At(s, t, Body) && q < |s.ready|
    ensures Inv(DoAwaitScheduler(s, t, q))
  {
    AboutTop(s, t);
    InFrame(s, DoAwaitScheduler(s, t, q), t);
  }

  lemma KeepAwaitTask(s: State, t: nat, d: nat)
    requires Inv(s) && At(s, t, Body) && d < |s.co| && s.co[d].returned && s.co[Top(s, t)].sched.Some?
    ensures Inv(DoAwaitTask(s, t, d))
  {
    AboutTop(s, t);
    InFrame(s, DoAwaitTask(s, t, d), t);
  }

  /** A step that changes its own coroutine and the task that coroutine awaits. */
  lemma TwoFrame(s: State, s': State, t: nat, d: nat)
    requires Executing(s, t) && d < |s.co| && TopOk(s, t)
    requires s' == s.(co := s'.co) && |s'.co| == |s.co|
    requires s.co[Top(s, t)].pc != Gone && s'.co[Top(s, t)].pc != Gone
    requires Crit(s.co[Top(s, t)].pc, Top(s, t)) == None || Crit(s.co[Top(s, t)].pc, Top(s, t)) == Some(d)
    requires forall k :: 0 <= k < |s.co| && k != d && k != Top(s, t) ==> s'.co[k] == s.co[k]
    requires FrameCo(s, s', t, d) && FrameCo(s, s', t, Top(s, t))
    ensures FrameStep(s, s', t)
  {
    forall k | 0 <= k < |s.co| ensures FrameCo(s, s', t, k) {
    }
  }

  lemma LockTaskCo(s: State, t: nat, k: nat)
    requires Waiting(s, t) && s.co[Top(s, t)].pc.WaitLock? && s.co[s.co[Top(s, t)].pc.d].lock == None
    requires TopOk(s, t) && OwnOk(s, s.co[Top(s, t)].pc.d) && k < |s.co|
    requires k == Top(s, t) || k == s.co[Top(s, t)].pc.d
    ensures FrameCo(s, DoLockTask(s, t), t, k)
  {
  }

  lemma LockTaskFrame(s: State, t: nat)
    requires Waiting(s, t) && s.co[Top(s, t)].pc.WaitLock? && s.co[s.co[Top(s, t)].pc.d].lock == None
    requires TopOk(s, t) && OwnOk(s, s.co[Top(s, t)].pc.d)
    ensures FrameStep(s, DoLockTask(s, t), t)
    ensures TargetOk(DoLockTask(s, t), Top(s, t)) && OwnerOk(DoLockTask(s, t), Top(s, t))
  {
    LockTaskCo(s, t, Top(s, t));
    LockTaskCo(s, t, s.co[Top(s, t)].pc.d);
    hide FrameCo, OwnOk;
    TwoFrame(s, DoLockTask(s, t), t, s.co[Top(s, t)].pc.d);
  }

  lemma KeepLockTask(s: State, t: nat)
    requires Inv(s) && Waiting(s, t) && s.co[Top(s, t)].pc.WaitLock? && s.co[s.co[Top(s, t)].pc.d].lock == None
    ensures Inv(DoLockTask(s, t))
  {
    hide Inv, FrameStep, TargetOk, OwnerOk;
    AboutTop(s, t);
    AboutTarget(s, t);
    LockTaskFrame(s, t);
    InFrame(s, DoLockTask(s, t), t);
  }

  lemma KeepCheckTask(s: State, t: nat)
    requires Inv(s) && Waiting(s, t) && s.co[Top(s, t)].pc.WaitCheck?
    ensures Inv(DoCheckTask(s, t))
  {
    AboutTop(s, t);
    InFrame(s, DoCheckTask(s, t), t);
  }

  lemma UnlockReadyCo(s: State, t: nat, k: nat)
    requires Waiting(s, t) && s.co[Top(s, t)].pc.WaitUnlock?
    requires TopOk(s, t) && OwnOk(s, s.co[Top(s, t)].pc.d) && k < |s.co|
    requires k == Top(s, t) || k == s.co[Top(s, t)].pc.d
    ensures FrameCo(s, DoUnlockReady(s, t), t, k)
  {
  }

  lemma UnlockReadyFrame(s: State, t: nat)
    requires Waiting(s, t) && s.co[Top(s, t)].pc.WaitUnlock?
    requires TopOk(s, t) && OwnOk(s, s.co[Top(s, t)].pc.d)
    ensures FrameStep(s, DoUnlockReady(s, t), t)
    ensures TargetOk(DoUnlockReady(s, t), Top(s, t)) && OwnerOk(DoUnlockReady(s, t), Top(s, t))
  {
    UnlockReadyCo(s, t, Top(s, t));
    UnlockReadyCo(s, t, s.co[Top(s, t)].pc.d);
    hide FrameCo, OwnOk;
    TwoFrame(s, DoUnlockReady(s, t), t, s.co[Top(s, t)].pc.d);
  }

  lemma KeepUnlockReady(s: State, t: nat)
    requires Inv(s) && Waiting(s, t) && s.co[Top(s, t)].pc.WaitUnlock?
    ensures Inv(DoUnlockReady(s, t))
  {
    hide Inv, FrameStep, TargetOk, OwnerOk;
    AboutTop(s, t);
    AboutTarget(s, t);
    UnlockReadyFrame(s, t);
    InFrame(s, DoUnlockReady(s, t), t);
  }

  lemma ReadCo(s: State, t: nat, k: nat)
    requires Waiting(s, t) && s.co[Top(s, t)].pc.Read?
    requires TopOk(s, t) && OwnOk(s, s.co[Top(s, t)].pc.d) && k < |s.co|
    requires k == Top(s, t) || k == s.co[Top(s, t)].pc.d
    ensures FrameCo(s, DoRead(s, t), t, k)
  {
  }

  lemma ReadFrame(s: State, t: nat)
    requires Waiting(s, t) && s.co[Top(s, t)].pc.Read?
    requires TopOk(s, t) && OwnOk(s, s.co[Top(s, t)].pc.d)
    ensures FrameStep(s, DoRead(s, t), t)
    ensures TargetOk(DoRead(s, t), Top(s, t)) && OwnerOk(DoRead(s, t), Top(s, t))
  {
    ReadCo(s, t, Top(s, t));
    ReadCo(s, t, s.co[Top(s, t)].pc.d);
    hide FrameCo, OwnOk;
    TwoFrame(s, DoRead(s, t), t, s.co[Top(s, t)].pc.d);
  }

  lemma KeepRead(s: State, t: nat)
    requires Inv(s) && Waiting(s, t) && s.co[Top(s, t)].pc.Read?
    ensures Inv(DoRead(s, t))
  {
    hide Inv, FrameStep, TargetOk, OwnerOk;
    AboutTop(s, t);
    AboutTarget(s, t);
    ReadFrame(s, t);
    InFrame(s, DoRead(s, t), t);
  }

  lemma KeepCoReturn(s: State, t: nat, v: int)
    requires Inv(s) && At(s, t, Body)
    ensures Inv(DoCoReturn(s, t, v))
  {
    AboutTop(s, t);
    InFrame(s, DoCoReturn(s, t, v), t);
  }

  lemma KeepThrow(s: State, t: nat)
    requires Inv(s) && At(s, t, Body)
    ensures Inv(DoThrow(s, t))
  {
    AboutTop(s, t);
    InFrame(s, DoThrow(s, t), t);
  }

  lemma KeepLockFinal(s: State, t: nat)
    requires Inv(s) && At(s, t, FinLock) && s.co[Top(s, t)].lock == None
    ensures Inv(DoLockFinal(s, t))
  {
    AboutTop(s, t);
    InFrame(s, DoLockFinal(s, t), t);
  }

  lemma KeepSetFinished(s: State, t: nat)
    requires Inv(s) && At(s, t, FinSet)
    ensures Inv(DoSetFinished(s, t))
  {
    AboutTop(s, t);
    InFrame(s, DoSetFinished(s, t), t);
  }

  lemma KeepReleaseDone(s: State, t: nat)
    requires Inv(s) && At(s, t, FinLoop) && s.co[Top(s, t)].iter >= |s.co[Top(s, t)].others|
    ensures Inv(Advance(s, Top(s, t), FinUnlock))
  {
    AboutTop(s, t);
    InFrame(s, Advance(s, Top(s, t), FinUnlock), t);
  }

  lemma KeepUnlockFinal(s: State, t: nat)
    requires Inv(s) && At(s, t, FinUnlock)
    ensures Inv(DoUnlockFinal(s, t))
  {
    AboutTop(s, t);
    InFrame(s, DoUnlockFinal(s, t), t);
  }

  // --- Steps that move a handle -------------------------------------------------------------------

  /** The queues after pushing a handle that may be empty only once the scheduler has stopped. */
  lemma AppendOk(s: State, q: nat, h: Handle)
    requires QueuesOk(s) && q < |s.ready| && (h == Null ==> !s.running[q])
    ensures QueuesOk(Append(s, q, h))
    ensures forall p :: HandleAt(Append(s, q, h), p) ==
              if h.H? && p == InQueue(q, |s.ready[q].items|) then Some(h.c) else HandleAt(s, p)
    ensures HandleAt(s, InQueue(q, |s.ready[q].items|)) == None
  {
  }

  /** A thread with no frame and nothing to unlock owns no mutex and executes no coroutine. */
  lemma IdleOwnsNothing(s: State, t: nat)
    requires Inv(s) && t < |s.threads| && s.threads[t].frames == []
    ensures Alone(s, t, |s.co|)
    ensures forall d :: 0 <= d < |s.co| && s.co[d].lock == Some(t) ==> s.threads[t].unlocking == Some(d)
  {
    forall d | 0 <= d < |s.co|
      ensures s.co[d].lock == Some(t) ==> s.threads[t].unlocking == Some(d)
      ensures s.co[d].place.OnThread? ==> s.co[d].place.t != t
    {
      assert LockOk(s, d) && Located(s, d);
    }
  }

  lemma PopShifted(s: State, s': State, t: nat)
    requires Executing(s, t) && s.co[Top(s, t)].place == OnThread(t, |s.threads[t].frames| - 1)
    requires |s'.threads| == |s.threads| && s'.threads == Pop(s, t, s'.threads[t].unlocking).threads
    requires |s'.co| == |s.co|
    requires var to := s'.co[Top(s, t)].place;
             && !to.OnThread? && HandleAt(s, to) == None
             && (forall p: Place :: !p.OnThread? ==>
                   HandleAt(s', p) == if p == to && !Lost(to) then Some(Top(s, t)) else HandleAt(s, p))
    ensures Shifted(s, s', Top(s, t))
  {
    forall p: Place | p.OnThread?
      ensures HandleAt(s', p) == if p == s.co[Top(s, t)].place then None else HandleAt(s, p)
    {
    }
  }

  lemma PushSelfShifted(s: State, t: nat)
    requires Executing(s, t) && s.co[Top(s, t)].pc.Enqueue? && s.co[Top(s, t)].pc.q < |s.ready| && QueuesOk(s)
    requires s.co[Top(s, t)].place == OnThread(t, |s.threads[t].frames| - 1)
    ensures Shifted(s, DoPushSelf(s, t), Top(s, t)) && QueuesOk(DoPushSelf(s, t))
  {
    var c, s' := Top(s, t), DoPushSelf(s, t);
    AppendOk(s, s.co[c].pc.q, H(c));
    forall p: Place | !p.OnThread?
      ensures HandleAt(s', p) == HandleAt(Append(s, s.co[c].pc.q, H(c)), p)
    {
    }
    PopShifted(s, s', t);
  }

  lemma KeepPushSelf(s: State, t: nat)
    requires Inv(s) && Executing(s, t) && s.co[Top(s, t)].pc.Enqueue? && s.co[Top(s, t)].pc.q < |s.ready|
    ensures Inv(DoPushSelf(s, t))
  {
    hide Shifted, HandleAt, Located;
    AboutTop(s, t);
    TopAlone(s, t);
    PushSelfShifted(s, t);
    assert ThreadOk(s, t);
    Kept(s, DoPushSelf(s, t), t, Top(s, t));
  }

  lemma DestroyMoves(s: State, t: nat)
    requires At(s, t, FinDestroy) && s.co[Top(s, t)].iter == |s.co[Top(s, t)].others| && Alone(s, t, Top(s, t))
    requires s.co[Top(s, t)].place == OnThread(t, |s.threads[t].frames| - 1)
    ensures Shifted(s, DoDestroy(s, t), Top(s, t)) && Local(s, DoDestroy(s, t), t, Top(s, t))
  {
    PopShifted(s, DoDestroy(s, t), t);
  }

  lemma KeepDestroy(s: State, t: nat)
    requires Inv(s) && At(s, t, FinDestroy)
    ensures Inv(DoDestroy(s, t))
  {
    hide Shifted, Local, Alone, HandleAt, Located;
    AboutTop(s, t);
    TopAlone(s, t);
    DestroyMoves(s, t);
    assert ThreadOk(s, t);
    Kept(s, DoDestroy(s, t), t, Top(s, t));
  }

  lemma PushOtherMoves(s: State, t: nat)
    requires Waiting(s, t) && s.co[Top(s, t)].pc.WaitPush? && s.co[s.co[Top(s, t)].pc.d].pc != Gone
    requires s.co[s.co[Top(s, t)].pc.d].iter <= |s.co[s.co[Top(s, t)].pc.d].others|
    requires s.co[Top(s, t)].place == OnThread(t, |s.threads[t].frames| - 1) && Alone(s, t, Top(s, t))
    ensures Shifted(s, DoPushOther(s, t), Top(s, t)) && Local(s, DoPushOther(s, t), t, Top(s, t))
  {
    PopShifted(s, DoPushOther(s, t), t);
  }

  lemma PushOtherOwn(s: State, t: nat, k: nat)
    requires Waiting(s, t) && s.co[Top(s, t)].pc.WaitPush? && k < |s.co|
    requires TopOk(s, t) && OwnOk(s, s.co[Top(s, t)].pc.d)
    requires k == Top(s, t) || k == s.co[Top(s, t)].pc.d
    ensures s.co[s.co[Top(s, t)].pc.d].pc != Gone && k < |DoPushOther(s, t).co| && OwnOk(DoPushOther(s, t), k)
  {
  }

  lemma PushOtherRest(s: State, t: nat)
    requires Waiting(s, t) && s.co[Top(s, t)].pc.WaitPush? && s.co[s.co[Top(s, t)].pc.d].pc != Gone
    requires TopOk(s, t) && ThreadOk(s, t) && QueuesOk(s) && !s.fault
    ensures var s' := DoPushOther(s, t);
            && QueuesOk(s') && !s'.fault && |s'.co| == |s.co| && ThreadOk(s', t)
            && (forall k :: 0 <= k < |s.co| && k != Top(s, t) && k != s.co[Top(s, t)].pc.d ==> s'.co[k] == s.co[k])
            && TargetOk(s', Top(s, t)) && OwnerOk(s', Top(s, t))
            && forall d :: 0 <= d < |s'.co| && s'.co[d].lock == Some(t) ==> LockOk(s', d)
  {
  }

  lemma KeepPushOther(s: State, t: nat)
    requires Inv(s) && Waiting(s, t) && s.co[Top(s, t)].pc.WaitPush?
    ensures Inv(DoPushOther(s, t))
  {
    AboutTop(s, t);
    AboutTarget(s, t);
    TopAlone(s, t);
    assert ThreadOk(s, t) && QueuesOk(s) && !s.fault;
    hide Inv, Shifted, Local, Alone, TargetOk, OwnerOk, LockOk, ThreadOk, QueuesOk, DoPushOther;
    PushOtherOwn(s, t, Top(s, t));
    PushOtherOwn(s, t, s.co[Top(s, t)].pc.d);
    PushOtherRest(s, t);
    PushOtherMoves(s, t);
    Kept(s, DoPushOther(s, t), t, Top(s, t));
  }

  /** Facts about a coroutine whose handle is at a place. */
  lemma AboutHandle(s: State, p: Place)
    requires Inv(s) && HandleAt(s, p).Some?
    ensures var c := HandleAt(s, p).value;
            c < |s.co| && s.co[c].place == p && OwnOk(s, c) && TargetOk(s, c) && OwnerOk(s, c)
  {
  }

  lemma PullShifted(s: State, t: nat)
    requires IsWorker(s, t) && s.threads[t].loop == AtPull && QueuesOk(s)
    requires s.ready[s.threads[t].home.q].head < |s.ready[s.threads[t].home.q].items|
    requires var r, q := s.ready[s.threads[t].home.q], s.threads[t].home.q;
             r.items[r.head].H? ==> r.items[r.head].c < |s.co| && s.co[r.items[r.head].c].place == InQueue(q, r.head)
    ensures var r := s.ready[s.threads[t].home.q];
            Shifted(s, DoPull(s, t), if r.items[r.head].H? then r.items[r.head].c else |s.co|)
    ensures QueuesOk(DoPull(s, t))
  {
  }

  lemma PullLocal(s: State, t: nat)
    requires IsWorker(s, t) && s.threads[t].loop == AtPull && Alone(s, t, |s.co|)
    requires s.ready[s.threads[t].home.q].head < |s.ready[s.threads[t].home.q].items|
    requires var r, q := s.ready[s.threads[t].home.q], s.threads[t].home.q;
             r.items[r.head].H? ==> r.items[r.head].c < |s.co| && s.co[r.items[r.head].c].place == InQueue(q, r.head)
    ensures var r := s.ready[s.threads[t].home.q];
            Local(s, DoPull(s, t), t, if r.items[r.head].H? then r.items[r.head].c else |s.co|)
  {
  }

  lemma KeepPull(s: State, t: nat)
    requires Inv(s) && IsWorker(s, t) && s.threads[t].loop == AtPull
    requires s.ready[s.threads[t].home.q].head < |s.ready[s.threads[t].home.q].items|
    ensures Inv(DoPull(s, t))
  {
    hide Shifted, Local, Alone, Located;
    var q := s.threads[t].home.q;
    var h := s.ready[q].items[s.ready[q].head];
    assert ThreadOk(s, t);
    IdleOwnsNothing(s, t);
    if h.H? {
      AboutHandle(s, InQueue(q, s.ready[q].head));
    }
    PullShifted(s, t);
    PullLocal(s, t);
    Kept(s, DoPull(s, t), t, if h.H? then h.c else |s.co|);
  }

  lemma ResumeMoves(s: State, t: nat, c: nat)
    requires t < |s.threads| && c < |s.co| && s.threads[t].loop == Holding(H(c)) && s.co[c].place == Held(t)
    requires QueuesOk(s) && Alone(s, t, |s.co|)
    ensures Shifted(s, Resume(s, t, c), c) && Local(s, Resume(s, t, c), t, c)
  {
  }

  lemma LeaveMoves(s: State, t: nat, h: Handle, q: nat)
    requires t < |s.threads| && s.threads[t].loop == Holding(h) && Alone(s, t, |s.co|)
    requires h.H? ==> h.c < |s.co| && s.co[h.c].place == Held(t)
    ensures Shifted(s, Leave(s, t, h, q), if h.H? then h.c else |s.co|)
    ensures Local(s, Leave(s, t, h, q), t, if h.H? then h.c else |s.co|)
  {
  }

  lemma KeepLeave(s: State, t: nat, q: nat)
    requires Inv(s) && t < |s.threads| && s.threads[t].loop.Holding?
    requires s.threads[t].home == Worker(q) && q < |s.running| && !s.running[q]
    ensures Inv(Leave(s, t, s.threads[t].loop.h, q))
  {
    hide Shifted, Local, Alone, Located;
    var h := s.threads[t].loop.h;
    assert ThreadOk(s, t);
    IdleOwnsNothing(s, t);
    if h.H? {
      AboutHandle(s, Held(t));
    }
    LeaveMoves(s, t, h, q);
    Kept(s, Leave(s, t, h, q), t, if h.H? then h.c else |s.co|);
  }

  lemma KeepResumeHandle(s: State, t: nat, c: nat)
    requires Inv(s) && t < |s.threads| && s.threads[t].loop == Holding(H(c))
    requires s.threads[t].home.Worker?
    ensures Resumable(s, H(c)) && Inv(Resume(s, t, c))
  {
    hide Shifted, Local, Located;
    assert ThreadOk(s, t);
    IdleOwnsNothing(s, t);
    AboutHandle(s, Held(t));
    ResumeMoves(s, t, c);
    Kept(s, Resume(s, t, c), t, c);
  }

  lemma KeepResume(s: State, t: nat)
    requires Inv(s) && IsWorker(s, t) && s.threads[t].loop.Holding?
    ensures Inv(DoResume(s, t))
  {
    assert ThreadOk(s, t);
    if !s.running[s.threads[t].home.q] {
      KeepLeave(s, t, s.threads[t].home.q);
    } else {
      KeepResumeHandle(s, t, s.threads[t].loop.h.c);
    }
  }

  lemma ReleaseShifted(s: State, c: nat, q: nat)
    requires c < |s.co| && q < |s.ready| && s.co[c].pc != Gone && s.co[c].iter < |s.co[c].others| && QueuesOk(s)
    requires s.co[c].others[s.co[c].iter] < |s.co|
    requires s.co[s.co[c].others[s.co[c].iter]].place == InOthers(c, s.co[c].iter)
    ensures Shifted(s, EnqueueOther(s, c, s.co[c].others[s.co[c].iter], q), s.co[c].others[s.co[c].iter])
    ensures QueuesOk(EnqueueOther(s, c, s.co[c].others[s.co[c].iter], q))
  {
  }

  lemma EnqueueOtherLocal(s: State, t: nat, c: nat, o: nat, q: nat)
    requires t < |s.threads| && c < |s.co| && o < |s.co| && q < |s.ready| && QueuesOk(s)
    requires !s.co[o].place.OnThread? && o != c
    ensures Local(s, EnqueueOther(s, c, o, q), t, o)
  {
  }

  lemma EnqueueOtherOwn(s: State, c: nat, o: nat, q: nat)
    requires c < |s.co| && o < |s.co| && q < |s.ready| && o != c
    requires OwnOk(s, c) && OwnOk(s, o)
    requires s.co[c].pc == FinLoop && s.co[c].iter < |s.co[c].others| && s.co[o].place.InOthers?
    ensures OwnOk(EnqueueOther(s, c, o, q), c) && OwnOk(EnqueueOther(s, c, o, q), o)
  {
  }

  lemma EnqueueOtherRest(s: State, t: nat, c: nat, o: nat, q: nat)
    requires Executing(s, t) && c == Top(s, t) && TopOk(s, t)
    requires s.co[c].pc == FinLoop && s.co[c].iter < |s.co[c].others|
    requires o == s.co[c].others[s.co[c].iter] < |s.co| && q < |s.ready| && o != c && ThreadOk(s, t)
    requires TargetOk(s, o) && OwnerOk(s, o) && !s.co[o].place.OnThread?
    requires OwnOk(s, o) && s.co[o].place == InOthers(c, s.co[c].iter)
    ensures var s' := EnqueueOther(s, c, o, q);
            && |s'.co| == |s.co| && ThreadOk(s', t) && TargetOk(s', o) && OwnerOk(s', o) && s'.fault == s.fault
            && forall k :: 0 <= k < |s.co| && k != c && k != o ==> s'.co[k] == s.co[k]
  {
  }

  lemma EnqueueOtherLocks(s: State, c: nat, o: nat, q: nat, d: nat)
    requires Inv(s) && c < |s.co| && o < |s.co| && q < |s.ready| && o != c && d < |s.co|
    ensures d < |EnqueueOther(s, c, o, q).co| && LockOk(EnqueueOther(s, c, o, q), d)
  {
    assert LockOk(s, d);
    hide Inv;
  }

  lemma KeepEnqueueOther(s: State, t: nat, c: nat, o: nat, q: nat)
    requires Inv(s) && At(s, t, FinLoop) && c == Top(s, t) && s.co[c].iter < |s.co[c].others|
    requires o == s.co[c].others[s.co[c].iter] < |s.co| && q < |s.ready|
    requires s.co[c].sched.Some?
    ensures Inv(EnqueueOther(s, c, o, q))
  {
    hide Inv, Shifted, Local, TargetOk, OwnerOk, LockOk, ThreadOk, QueuesOk, Own, EnqueueOther, Grows;
    AboutTop(s, t);
    AboutThread(s, t);
    AboutHandle(s, InOthers(c, s.co[c].iter));
    assert !s.co[o].place.OnThread? && o != c;
    ReleaseShifted(s, c, q);
    EnqueueOtherLocal(s, t, c, o, q);
    EnqueueOtherOwn(s, c, o, q);
    EnqueueOtherRest(s, t, c, o, q);
    forall d | 0 <= d < |s.co| ensures LockOk(EnqueueOther(s, c, o, q), d) {
      EnqueueOtherLocks(s, c, o, q, d);
    }
    Kept(s, EnqueueOther(s, c, o, q), t, o);
  }

  lemma KeepRelease(s: State, t: nat)
    requires Inv(s) && At(s, t, FinLoop) && s.co[Top(s, t)].iter < |s.co[Top(s, t)].others|
    ensures Inv(DoRelease(s, t))
  {
    var c := Top(s, t);
    AboutTop(s, t);
    AboutHandle(s, InOthers(c, s.co[c].iter));
    KeepEnqueueOther(s, t, c, s.co[c].others[s.co[c].iter], s.co[c].sched.value);
  }

  lemma CallShifted(s: State, t: nat, isVoid: bool, isLoop: bool)
    requires t < |s.threads|
    ensures Shifted(s, DoCall(s, t, isVoid, isLoop), |s.co|)
  {
  }

  lemma KeepCall(s: State, t: nat, isVoid: bool, isLoop: bool)
    requires Inv(s) && (Outside(s, t) || At(s, t, Body))
    ensures Inv(DoCall(s, t, isVoid, isLoop))
  {
    assert ThreadOk(s, t);
    if Outside(s, t) {
      IdleOwnsNothing(s, t);
    } else {
      AboutTop(s, t);
      TopAlone(s, t);
    }
    assert Alone(s, t, |s.co|) by {
      forall c | 0 <= c < |s.co| && s.co[c].place.OnThread? && s.co[c].place.t == t ensures s.co[c].pc == Body {
        assert Located(s, c);
      }
    }
    CallShifted(s, t, isVoid, isLoop);
    Kept(s, DoCall(s, t, isVoid, isLoop), t, |s.co|);
  }

  lemma UnlockShifted(s: State, t: nat)
    requires t < |s.threads| && s.threads[t].unlocking.Some? && s.threads[t].unlocking.value < |s.co|
    ensures Shifted(s, DoUnlockSuspended(s, t), |s.co|)
  {
  }

  lemma KeepUnlockSuspended(s: State, t: nat)
    requires Inv(s) && t < |s.threads| && s.threads[t].unlocking.Some? && s.threads[t].unlocking.value < |s.co|
    ensures Inv(DoUnlockSuspended(s, t))
  {
    var s' := DoUnlockSuspended(s, t);
    assert ThreadOk(s, t);
    UnlockShifted(s, t);
    forall c | 0 <= c < |s.co|
      ensures s.co[c].place.OnThread? && s.co[c].place.t == t ==> s.co[c].pc == Body
      ensures OwnOk(s', c)
      ensures s'.co[c].lock != Some(t)
    {
      assert OwnerOk(s, c) && OwnOk(s, c) && LockOk(s, c);
    }
    Kept(s, s', t, |s.co|);
  }

  // --- Steps that touch no coroutine ----------------------------------------------------------------

  lemma KeepLoop(s: State, t: nat, l: Loop)
    requires Inv(s) && t < |s.threads| && s.threads[t].home.Worker?
    requires s.threads[t].frames == [] && s.threads[t].unlocking == None
    requires !s.threads[t].loop.Holding? && !l.Holding?
    requires l == Exited ==> s.threads[t].home.q < |s.running| && !s.running[s.threads[t].home.q]
    ensures Inv(SetLoop(s, t, l))
  {
    assert ThreadOk(s, t);
    IdleOwnsNothing(s, t);
    Kept(s, SetLoop(s, t, l), t, |s.co|);
  }

  lemma KeepLoopAt(s: State, t: nat, from: Loop, l: Loop)
    requires Inv(s) && IsWorker(s, t) && s.threads[t].loop == from && !from.Holding? && !l.Holding?
    requires from == Resuming ==> s.threads[t].frames == [] && s.threads[t].unlocking == None
    requires l == Exited ==> !s.running[s.threads[t].home.q]
    ensures Inv(SetLoop(s, t, l))
  {
    assert ThreadOk(s, t);
    KeepLoop(s, t, l);
  }

  lemma KeepSignal(s: State, s': State)
    requires Inv(s) && s'.threads == s.threads && s'.co == s.co && !s'.fault && QueuesOk(s')
    requires |s'.ready| == |s.ready|
    requires forall q :: 0 <= q < |s.running| && s'.running[q] ==> s.running[q]
    requires forall p :: HandleAt(s', p) == HandleAt(s, p)
    ensures Inv(s')
  {
    forall c | 0 <= c < |s.co|
      ensures OwnOk(s', c) && TargetOk(s', c) && OwnerOk(s', c) && LockOk(s', c) && Located(s', c)
    {
      assert OwnOk(s, c) && TargetOk(s, c) && OwnerOk(s, c) && LockOk(s, c) && Located(s, c);
    }
    forall t | 0 <= t < |s.threads| ensures ThreadOk(s', t) {
      assert ThreadOk(s, t);
    }
  }

  lemma KeepSignalled(s: State, s': State)
    requires Inv(s) && (s' == s.(sig := Stop(0)) || (s.sig.Stop? && s' == DoStop(s)))
    ensures Inv(s')
  {
    KeepSignal(s, s');
  }

  lemma KeepFlood(s: State)
    requires Inv(s) && s.sig.Flood?
    ensures Inv(DoFlood(s))
  {
    if s.sig.q < |s.ready| {
      AppendOk(s, s.sig.q, Null);
    }
    KeepSignal(s, DoFlood(s));
  }

  // --- Every step, every run -------------------------------------------------------------------------

  lemma StepKeepsInv(s: State, t: nat, a: Act, s': State)
    requires Inv(s) && Step(s, t, a, s')
    ensures Inv(s')
  {
    hide Inv;
    match a {
      case LoopCheck => KeepLoopAt(s, t, AtCheck, if s.running[s.threads[t].home.q] then AtPull else Exited);
      case LoopPull => KeepPull(s, t);
      case LoopResume => KeepResume(s, t);
      case LoopReturn => KeepLoopAt(s, t, Resuming, AtCheck);
      case Call(isVoid, isLoop) => KeepCall(s, t, isVoid, isLoop);
      case AwaitScheduler(q) => KeepAwaitScheduler(s, t, q);
      case PushSelf => KeepPushSelf(s, t);
      case AwaitTask(d) => KeepAwaitTask(s, t, d);
      case LockTask => KeepLockTask(s, t);
      case CheckTask => KeepCheckTask(s, t);
      case PushOther => KeepPushOther(s, t);
      case UnlockSuspended => KeepUnlockSuspended(s, t);
      case UnlockReady => KeepUnlockReady(s, t);
      case ReadResult => KeepRead(s, t);
      case CoReturn(v) => KeepCoReturn(s, t, v);
      case Throw => KeepThrow(s, t);
      case LockFinal => KeepLockFinal(s, t);
      case SetFinished => KeepSetFinished(s, t);
      case ReleaseOne => KeepRelease(s, t);
      case ReleaseDone => KeepReleaseDone(s, t);
      case UnlockFinal => KeepUnlockFinal(s, t);
      case Destroy => KeepDestroy(s, t);
      case SigBegin => KeepSignalled(s, s');
      case SigStop => KeepSignalled(s, s');
      case SigFlood => KeepFlood(s);
    }
  }

  /** What no step changes: the threads with their homes, the other threads altogether, the
      schedulers, and, but for a call, the coroutines there are. */
  lemma StepShape(s: State, t: nat, a: Act, s': State)
    requires Step(s, t, a, s')
    ensures SameShape(s, s', t) && |s'.co| == |s.co| + if a.Call? then 1 else 0
  {
    if a.LoopCheck? || a.LoopPull? || a.LoopResume? || a.LoopReturn? || a.Call? || a.ReleaseOne? {
      LoopShape(s, t, a);
    } else if a.AwaitScheduler? || a.PushSelf? || a.AwaitTask? || a.LockTask? || a.CheckTask? || a.PushOther? {
      AwaitShape(s, t, a);
    } else {
      OtherShape(s, t, a);
    }
  }

  predicate SameShape(s: State, s': State, t: nat) {
    && |s'.threads| == |s.threads| && |s'.ready| == |s.ready| && |s'.running| == |s.running|
    && (forall u :: 0 <= u < |s.threads| ==> s'.threads[u].home == s.threads[u].home)
    && (forall u :: 0 <= u < |s.threads| && u != t ==> s'.threads[u] == s.threads[u])
  }

  lemma LoopShape(s: State, t: nat, a: Act)
    requires Enabled(s, t, a)
    requires a.LoopCheck? || a.LoopPull? || a.LoopResume? || a.LoopReturn? || a.Call? || a.ReleaseOne?
    ensures SameShape(s, Do(s, t, a), t) && |Do(s, t, a).co| == |s.co| + if a.Call? then 1 else 0
  {
  }

  lemma AwaitShape(s: State, t: nat, a: Act)
    requires Enabled(s, t, a)
    requires a.AwaitScheduler? || a.PushSelf? || a.AwaitTask? || a.LockTask? || a.CheckTask? || a.PushOther?
    ensures SameShape(s, Do(s, t, a), t) && |Do(s, t, a).co| == |s.co|
  {
  }

  lemma OtherShape(s: State, t: nat, a: Act)
    requires Enabled(s, t, a) && !a.Call? && !a.ReleaseOne?
    requires !(a.LoopCheck? || a.LoopPull? || a.LoopResume? || a.LoopReturn?)
    requires !(a.AwaitScheduler? || a.PushSelf? || a.AwaitTask? || a.LockTask? || a.CheckTask? || a.PushOther?)
    ensures SameShape(s, Do(s, t, a), t) && |Do(s, t, a).co| == |s.co|
  {
  }

  // --- How one step may change one coroutine ---------------------------------------------------------

  /** The ways a handle moves. */
  ghost predicate Moves(s: State, t: nat, co: Co, to: Place) {
    || to == co.place
    || match (co.place, to)
       case (OnThread(u, _), InQueue(q, k)) => u == t && co.pc == Enqueue(q) && q < |s.ready| && k == |s.ready[q].items|
       case (OnThread(u, _), InOthers(d, _)) => u == t && co.pc == WaitPush(d)
       case (OnThread(u, _), Destroyed) => u == t && co.pc == FinDestroy
       case (InQueue(q, k), Held(u)) =>
         u == t && t < |s.threads| && s.threads[t].home == Worker(q) && q < |s.ready| && k == s.ready[q].head
       case (Held(u), OnThread(v, i)) => u == v == t && i == 0
       case (Held(u), Leaked(q)) => u == t && t < |s.threads| && s.threads[t].home == Worker(q)
       case (InOthers(d, _), InQueue(q, _)) => d < |s.co| && s.co[d].sched == Some(q)
       case _ => false
  }

  ghost predicate Evolves(s: State, t: nat, a: Act, s': State, c: nat)
    requires c < |s.co| <= |s'.co|
  {
    var co, co' := s.co[c], s'.co[c];
    var starts := At(s, t, Body) && c == Top(s, t);
    && co'.isVoid == co.isVoid && co'.isLoop == co.isLoop && co'.parent == co.parent
    && (co.outcome != Pending ==> co'.outcome == co.outcome)
    && (co.finished ==> co'.finished)
    && (co.pc == Gone ==> co'.pc == Gone)
    && (co'.sched == co.sched || (starts && a.AwaitScheduler? && co'.sched == Some(a.q) && co'.pc == Enqueue(a.q)))
    && (|| Target(co'.pc) == None || Target(co'.pc) == Target(co.pc)
        || (starts && a.AwaitTask? && co'.pc == WaitLock(a.d)))
    && (co'.others == co.others || (Executing(s, t) && Target(s.co[Top(s, t)].pc) == Some(c)))
    && (co'.pc.Enqueue? ==> co'.pc == co.pc || (starts && a.AwaitScheduler? && co'.pc == Enqueue(a.q)))
    && (co.pc.Enqueue? && co'.pc != co.pc ==> a.PushSelf? && Executing(s, t) && c == Top(s, t))
    && Moves(s, t, co, co'.place)
  }

  lemma LoopEvolves(s: State, t: nat, a: Act, c: nat)
    requires Inv(s) && Enabled(s, t, a) && c < |s.co|
    requires a.LoopCheck? || a.LoopPull? || a.LoopResume? || a.LoopReturn? || a.Call?
    ensures Evolves(s, t, a, Do(s, t, a), c)
  {
    assert ThreadOk(s, t);
    match a {
      case LoopPull =>
        var r := s.ready[s.threads[t].home.q];
        if r.items[r.head].H? {
          AboutHandle(s, InQueue(s.threads[t].home.q, r.head));
        }
      case LoopResume =>
        if s.threads[t].loop.h.H? {
          AboutHandle(s, Held(t));
        }
      case _ =>
    }
  }

  lemma AwaitEvolves(s: State, t: nat, a: Act, c: nat)
    requires Inv(s) && Enabled(s, t, a) && c < |s.co|
    requires a.AwaitScheduler? || a.AwaitTask? || a.LockTask? || a.CheckTask?
    ensures Evolves(s, t, a, Do(s, t, a), c)
  {
    hide Inv, OwnerOk, TargetOk;
    AboutTop(s, t);
  }

  lemma PushSelfEvolves(s: State, t: nat, c: nat)
    requires Inv(s) && Enabled(s, t, PushSelf) && c < |s.co|
    ensures Evolves(s, t, PushSelf, Do(s, t, PushSelf), c)
  {
    AboutTop(s, t);
    hide Inv, OwnerOk, TargetOk;
  }

  lemma PushOtherEvolves(s: State, t: nat, c: nat)
    requires Inv(s) && Enabled(s, t, PushOther) && c < |s.co|
    ensures Evolves(s, t, PushOther, Do(s, t, PushOther), c)
  {
    AboutTop(s, t);
    hide Inv, OwnerOk, TargetOk;
  }

  lemma UnlockSuspendedEvolves(s: State, t: nat, c: nat)
    requires Inv(s) && Enabled(s, t, UnlockSuspended) && c < |s.co|
    ensures Evolves(s, t, UnlockSuspended, Do(s, t, UnlockSuspended), c)
  {
    hide Inv;
  }

  lemma UnlockReadyEvolves(s: State, t: nat, c: nat)
    requires Inv(s) && Enabled(s, t, UnlockReady) && c < |s.co|
    ensures Evolves(s, t, UnlockReady, Do(s, t, UnlockReady), c)
  {
    AboutTop(s, t);
    hide Inv, OwnerOk, TargetOk;
  }

  lemma ReadEvolves(s: State, t: nat, c: nat)
    requires Inv(s) && Enabled(s, t, ReadResult) && c < |s.co|
    ensures Evolves(s, t, ReadResult, Do(s, t, ReadResult), c)
  {
    AboutTop(s, t);
    hide Inv, OwnerOk, TargetOk;
  }

  lemma EndEvolves(s: State, t: nat, a: Act, c: nat)
    requires Inv(s) && Enabled(s, t, a) && c < |s.co|
    requires a.CoReturn? || a.Throw?
    ensures Evolves(s, t, a, Do(s, t, a), c)
  {
    AboutTop(s, t);
    hide Inv, OwnerOk, TargetOk;
  }

  lemma DestroyEvolves(s: State, t: nat, c: nat)
    requires Inv(s) && Enabled(s, t, Destroy) && c < |s.co|
    ensures Evolves(s, t, Destroy, Do(s, t, Destroy), c)
  {
    AboutTop(s, t);
    hide Inv, OwnerOk, TargetOk;
  }

  lemma FinalBeginsEvolves(s: State, t: nat, a: Act, c: nat)
    requires Inv(s) && Enabled(s, t, a) && c < |s.co|
    requires a.LockFinal? || a.SetFinished?
    ensures Evolves(s, t, a, Do(s, t, a), c)
  {
    AboutTop(s, t);
    hide Inv, OwnerOk, TargetOk;
  }

  lemma FinalEndsEvolves(s: State, t: nat, a: Act, c: nat)
    requires Inv(s) && Enabled(s, t, a) && c < |s.co|
    requires a.ReleaseDone? || a.UnlockFinal?
    ensures Evolves(s, t, a, Do(s, t, a), c)
  {
    AboutTop(s, t);
    hide Inv, OwnerOk, TargetOk;
  }

  lemma SignalEvolves(s: State, t: nat, a: Act, c: nat)
    requires Inv(s) && Enabled(s, t, a) && c < |s.co|
    requires a.SigBegin? || a.SigStop? || a.SigFlood?
    ensures Evolves(s, t, a, Do(s, t, a), c)
  {
  }

  lemma ReleaseEvolves(s: State, t: nat, c: nat)
    requires Inv(s) && Enabled(s, t, ReleaseOne) && c < |s.co|
    ensures Evolves(s, t, ReleaseOne, Do(s, t, ReleaseOne), c)
  {
    AboutTop(s, t);
    AboutHandle(s, InOthers(Top(s, t), s.co[Top(s, t)].iter));
  }

  lemma StepEvolves(s: State, t: nat, a: Act, s': State, c: nat)
    requires Inv(s) && Step(s, t, a, s') && c < |s.co|
    ensures |s.co| <= |s'.co| && Evolves(s, t, a, s', c)
  {
    hide Inv, Evolves, Enabled;
    StepShape(s, t, a, s');
    if a.LoopCheck? || a.LoopPull? || a.LoopResume? || a.LoopReturn? || a.Call? {
      LoopEvolves(s, t, a, c);
    } else if a.AwaitScheduler? || a.AwaitTask? || a.LockTask? || a.CheckTask? {
      AwaitEvolves(s, t, a, c);
    } else if a.PushSelf? {
      PushSelfEvolves(s, t, c);
    } else if a.PushOther? {
      PushOtherEvolves(s, t, c);
    } else if a.UnlockSuspended? {
      UnlockSuspendedEvolves(s, t, c);
    } else if a.UnlockReady? {
      UnlockReadyEvolves(s, t, c);
    } else if a.ReadResult? {
      ReadEvolves(s, t, c);
    } else if a.CoReturn? || a.Throw? {
      EndEvolves(s, t, a, c);
    } else if a.Destroy? {
      DestroyEvolves(s, t, c);
    } else if a.LockFinal? || a.SetFinished? {
      FinalBeginsEvolves(s, t, a, c);
    } else if a.ReleaseDone? || a.UnlockFinal? {
      FinalEndsEvolves(s, t, a, c);
    } else if a.ReleaseOne? {
      ReleaseEvolves(s, t, c);
    } else {
      SignalEvolves(s, t, a, c);
    }
  }
}
