/** The members of src/Task.hpp and src/Scheduler.hpp as their code stands: objects whose fields they
    change.  Each is specified by what it does when no other thread comes between, and the step machine
    of module Runtime takes each apart into steps that, uninterrupted, do the same. */
module TaskMembers {
  import opened Options
  import opened Runtime
  import opened RuntimeInvariant

  function Handles(os: seq<nat>): seq<Handle> {
    seq(|os|, i requires 0 <= i < |os| => H(os[i]))
  }

  function Nulls(n: nat): seq<Handle> {
    seq(n, _ => Null)
  }

  /** What SIGINT_HANDLER does to the ready queue of a scheduler with n threads. */
  function StopEffect(r: Ready, n: nat): (r': Ready)
    ensures r'.head == r.head && r.items <= r'.items && |r'.items| == |r.items| + n
    ensures forall k :: |r.items| <= k < |r'.items| ==> r'.items[k] == Null
  {
    r.(items := r.items + Nulls(n))
  }

  // --- The objects ------------------------------------------------------------------------------------------

  /** What a shared_ptr of a Task points to. */
  class Shared<T> {
    var v: T

    constructor (v: T)
      ensures this.v == v
    {
      this.v := v;
    }
  }

  class Scheduler {
    const threads: nat  // threads_.size()
    var running: bool
    var ready: Ready

    constructor (count: nat)
      ensures threads == count && running && ready == Ready([], 0)
    {
      threads, running, ready := count, true, Ready([], 0);
    }

    method Enqueue(handle: Handle)
      modifies this`ready
      ensures ready == old(ready).(items := old(ready).items + [handle])
    {
      ready := ready.(items := ready.items + [handle]);
    }

    /** SIGINT_HANDLER, over the list of all schedulers. */
    static method SigintHandler(list: seq<Scheduler>)
      requires forall i, j :: 0 <= i < j < |list| ==> list[i] != list[j]
      modifies list
      ensures forall s :: s in list ==>
                !s.running && s.ready == StopEffect(old(s.ready), s.threads)
    {
      for i := 0 to |list|
        invariant forall j :: 0 <= j < i ==>
                    && !list[j].running
                    && list[j].ready == old(list[j].ready).(items := old(list[j].ready).items + Nulls(list[j].threads))
        invariant forall j :: i <= j < |list| ==> list[j].ready == old(list[j].ready)
      {
        var s := list[i];
        s.running := false;
        for k := 0 to s.threads
          invariant !s.running && s.ready == old(s.ready).(items := old(s.ready).items + Nulls(k))
          modifies s
        {
          assert Nulls(k + 1) == Nulls(k) + [Null];
          s.Enqueue(Null);
        }
      }
    }
  }

  // --- What the members do, as functions ----------------------------------------------------------------------

  /** What final_suspend does with the awaiters: pushes them, resumes them on this thread, or has a null
      pointer in its hands. */
  datatype Ending = Pushed(ready: Ready) | ResumedHere(resumed: seq<nat>) | NullScheduler

  function FinalEffect(isVoid: bool, sched: Option<Ready>, others: seq<nat>): Ending {
    match sched
    case Some(r) => Pushed(r.(items := r.items + Handles(others)))
    case None => if isVoid && others != [] then NullScheduler else ResumedHere(others)
  }

  /** Whether await_suspend leaves the awaiter suspended, and who is registered afterwards. */
  function AwaitEffect(finished: bool, others: seq<nat>, awaiter: nat): (bool, seq<nat>) {
    if finished then (false, others) else (true, others + [awaiter])
  }

  // --- The promise and the Task object ----------------------------------------------------------------------------

  /** promise_type: the coroutine's frame, which is there while `alive`, and its share of what the
      Task object uses too. */
  class Promise {
    const finished: Shared<bool>
    const result: Shared<Cell>
    var alive: bool
    var others: seq<nat>
    var scheduler: Scheduler?
    ghost var outcome: Outcome  // how the body ended
    ghost var taken: bool       // an await_resume has moved the result out

    /** Until somebody takes it, the result is what the body ended with. */
    ghost predicate Keeps()
      reads this, result
    {
      !taken ==> result.v == Result(outcome)
    }

    constructor ()
      ensures fresh(finished) && fresh(result) && !finished.v && Keeps() && outcome == Pending && !taken
      ensures alive && others == [] && scheduler == null
    {
      finished := new Shared(false);
      result := new Shared(Default);
      alive, others, scheduler, outcome, taken := true, [], null, Pending, false;
    }

    /** co_await of a scheduler: await_transform, then its await_suspend. */
    method AwaitScheduler(s: Scheduler, me: nat)
      modifies this`scheduler, s`ready
      ensures scheduler == s && s.ready == old(s.ready).(items := old(s.ready).items + [H(me)])
    {
      scheduler := s;
      s.Enqueue(H(me));
    }

    method ReturnValue(value: int)
      requires outcome == Pending
      modifies result, this`outcome
      ensures outcome == Returned(value) && Keeps()
    {
      result.v := Stored(value);
      outcome := Returned(value);
    }

    /** A SocketException is reported and dropped. */
    method UnhandledException()
      requires outcome == Pending && Keeps()
      modifies this`outcome
      ensures outcome == Threw && Keeps()
    {
      outcome := Threw;
    }

    /** final_suspend of Task<T>, or of Task<void>. */
    method FinalSuspend(isVoid: bool) returns (ending: Ending)
      modifies finished, scheduler
      ensures finished.v
      ensures ending == FinalEffect(isVoid, if scheduler == null then None else Some(old(scheduler.ready)), others)
      ensures ending.Pushed? ==> scheduler.ready == ending.ready && scheduler.running == old(scheduler.running)
      ensures scheduler != null ==> scheduler.ready.items == old(scheduler.ready.items) + Handles(others)
      ensures scheduler == null ==> ending == if isVoid && others != [] then NullScheduler else ResumedHere(others)
    {
      finished.v := true;
      if scheduler != null {
        for i := 0 to |others|
          invariant scheduler.ready == old(scheduler.ready).(items := old(scheduler.ready).items + Handles(others[..i]))
          invariant finished.v && scheduler.running == old(scheduler.running)
          modifies scheduler
        {
          assert Handles(others[..i + 1]) == Handles(others[..i]) + [H(others[i])];
          scheduler.Enqueue(H(others[i]));
        }
        assert others[..|others|] == others;
        return Pushed(scheduler.ready);
      }
      var resumed := [];
      for i := 0 to |others|
        invariant resumed == others[..i] && (isVoid ==> i == 0)
      {
        if isVoid {
          return NullScheduler;
        }
        resumed := resumed + [others[i]];
      }
      return ResumedHere(resumed);
    }

    /** The end of a coroutine: return_value or unhandled_exception, final_suspend, and the frame goes.
        The Task objects keep what they share: `finished` is set, the result is the outcome, and every
        awaiter has been dealt with. */
    method Finish(isVoid: bool, how: Outcome) returns (ending: Ending)
      requires alive && outcome == Pending && how != Pending && Keeps()
      modifies this`outcome, this`alive, finished, result, scheduler
      ensures finished.v && outcome == how && Keeps()
      ensures !taken ==> result.v == if how.Returned? then Stored(how.v) else Default
      ensures ending == FinalEffect(isVoid, if scheduler == null then None else Some(old(scheduler.ready)), others)
      ensures ending.Pushed? ==> scheduler.ready == ending.ready
      ensures alive <==> ending == NullScheduler
    {
      match how {
        case Returned(v) => ReturnValue(v);
        case Threw => UnhandledException();
      }
      ending := FinalSuspend(isVoid);
      if ending != NullScheduler {
        alive := false;
      }
    }
  }

  class Task {
    const handle: Promise
    const result: Shared<Cell>
    const finished: Shared<bool>

    /** get_return_object. */
    constructor (p: Promise)
      ensures handle == p && result == p.result && finished == p.finished
    {
      handle, result, finished := p, p.result, p.finished;
    }

    /** What makes the dereference of handle_ sound: the frame is gone only if `finished` is set. */
    predicate Sound()
      reads this, handle, finished
    {
      finished.v || handle.alive
    }

    /** Whether the awaiter stays suspended; it is registered exactly then, in a frame that exists. */
    method AwaitSuspend(awaiter: nat) returns (suspended: bool)
      requires Sound()
      modifies handle`others
      ensures (suspended, handle.others) == AwaitEffect(finished.v, old(handle.others), awaiter)
      ensures suspended ==> handle.alive
    {
      if finished.v {
        return false;
      } else {
        handle.others := handle.others + [awaiter];
        return true;
      }
    }

    /** The first await_resume hands over what the body ended with, whether or not the frame is still
        there. */
    method AwaitResume() returns (value: Cell)
      requires result == handle.result && handle.Keeps()
      modifies result, handle`taken
      ensures handle.taken && handle.Keeps()
      ensures !old(handle.taken) ==> value == if handle.outcome.Returned? then Stored(handle.outcome.v) else Default
    {
      value := result.v;
      result.v := Moved;
      handle.taken := true;
    }
  }

  // --- The same in the step machine ----------------------------------------------------------------------------

  /** Thread t does `acts` with no other thread in between, from s to u. */
  ghost predicate Uninterrupted(s: State, t: nat, acts: seq<Act>, u: State)
    decreases |acts|
  {
    if acts == [] then u == s
    else
      && Enabled(s, t, acts[0]) && SchedulerFirst(s, t, acts[0])
      && Uninterrupted(Do(s, t, acts[0]), t, acts[1..], u)
  }

  function Releases(n: nat): seq<Act> {
    seq(n, _ => ReleaseOne)
  }

  /** The loop of final_suspend pushes exactly the registered handles, in their order. */
  lemma {:induction false} ReleaseLoop(s: State, t: nat, c: nat, q: nat) returns (u: State)
    requires !s.fault && At(s, t, FinLoop) && c == Top(s, t)
    requires s.co[c].sched == Some(q) && q < |s.ready| && s.co[c].iter <= |s.co[c].others|
    requires forall o :: o in s.co[c].others ==> o < |s.co| && o != c
    ensures Uninterrupted(s, t, Releases(|s.co[c].others| - s.co[c].iter), u)
    ensures !u.fault && At(u, t, FinLoop) && Top(u, t) == c && u.threads == s.threads && u.running == s.running
    ensures u.co[c] == s.co[c].(iter := |s.co[c].others|)
    ensures u.ready == s.ready[q := s.ready[q].(items := s.ready[q].items + Handles(s.co[c].others[s.co[c].iter..]))]
    decreases |s.co[c].others| - s.co[c].iter
  {
    hide Enabled, Do, SchedulerFirst;
    var me := s.co[c];
    if me.iter == |me.others| {
      u := s;
      assert s.ready[q].items + Handles(me.others[me.iter..]) == s.ready[q].items;
      assert s.ready[q := s.ready[q]] == s.ready;
    } else {
      var o := me.others[me.iter];
      assert o in me.others;
      var s1 := ReleaseStep(s, t, c, q);
      u := ReleaseLoop(s1, t, c, q);
      assert Releases(|me.others| - me.iter)[1..] == Releases(|me.others| - (me.iter + 1));
      var items, rest := s.ready[q].items, Handles(me.others[me.iter + 1..]);
      assert Handles(me.others[me.iter..]) == [H(o)] + rest;
      assert items + [H(o)] + rest == items + ([H(o)] + rest);
      assert s1.ready[q].items + rest == items + Handles(me.others[me.iter..]);
      assert u.ready[q] == s.ready[q].(items := items + Handles(me.others[me.iter..]));
      assert s1.ready[q := u.ready[q]] == s.ready[q := u.ready[q]];
    }
  }

  lemma ReleaseStep(s: State, t: nat, c: nat, q: nat) returns (s1: State)
    requires !s.fault && At(s, t, FinLoop) && c == Top(s, t)
    requires s.co[c].sched == Some(q) && q < |s.ready| && s.co[c].iter < |s.co[c].others|
    requires s.co[c].others[s.co[c].iter] < |s.co| && s.co[c].others[s.co[c].iter] != c
    ensures Enabled(s, t, ReleaseOne) && SchedulerFirst(s, t, ReleaseOne) && s1 == Do(s, t, ReleaseOne)
    ensures !s1.fault && At(s1, t, FinLoop) && Top(s1, t) == c && s1.threads == s.threads && s1.running == s.running
    ensures |s1.co| == |s.co| && s1.co[c] == s.co[c].(iter := s.co[c].iter + 1)
    ensures s1.ready == s.ready[q := s.ready[q].(items := s.ready[q].items + [H(s.co[c].others[s.co[c].iter])])]
  {
    s1 := EnqueueOther(s, c, s.co[c].others[s.co[c].iter], q);
  }

  lemma {:induction false} UninterruptedThen(s: State, t: nat, a: seq<Act>, u: State, b: seq<Act>, w: State)
    requires Uninterrupted(s, t, a, u) && Uninterrupted(u, t, b, w)
    ensures Uninterrupted(s, t, a + b, w)
    decreases |a|
  {
    hide Enabled, Do, SchedulerFirst;
    if a == [] {
      assert a + b == b;
    } else {
      UninterruptedThen(Do(s, t, a[0]), t, a[1..], u, b, w);
      assert (a + b)[1..] == a[1..] + b;
    }
  }

  lemma FirstOf(s: State, t: nat, a: Act, b: seq<Act>, u: State)
    requires Enabled(s, t, a) && SchedulerFirst(s, t, a) && Uninterrupted(Do(s, t, a), t, b, u)
    ensures Uninterrupted(s, t, [a] + b, u)
  {
    hide Enabled, Do, SchedulerFirst;
    assert ([a] + b)[1..] == b;
  }

  lemma FinalBegins(s: State, t: nat, c: nat) returns (u: State)
    requires !s.fault && At(s, t, FinLock) && c == Top(s, t) && s.co[c].lock == None
    ensures Uninterrupted(s, t, [LockFinal] + ([SetFinished] + []), u)
    ensures At(u, t, FinLoop) && Top(u, t) == c && !u.fault && u.ready == s.ready
    ensures u.co == s.co[c := s.co[c].(pc := FinLoop, lock := Some(t), finished := true)]
  {
    hide Uninterrupted;
    var s1 := DoLockFinal(s, t);
    assert Do(s, t, LockFinal) == s1;
    u := DoSetFinished(s1, t);
    assert Do(s1, t, SetFinished) == u;
    NoneLeft(u, t);
    FirstOf(s1, t, SetFinished, [], u);
    FirstOf(s, t, LockFinal, [SetFinished] + [], u);
  }

  lemma NoneLeft(u: State, t: nat)
    ensures Uninterrupted(u, t, [], u)
  {
  }

  lemma FinalEnds(s: State, t: nat, c: nat) returns (u: State)
    requires !s.fault && At(s, t, FinLoop) && c == Top(s, t) && s.co[c].iter == |s.co[c].others|
    ensures Uninterrupted(s, t, [ReleaseDone] + ([UnlockFinal] + []), u)
    ensures !u.fault && u.ready == s.ready && c < |u.co|
    ensures u.co[c] == s.co[c].(pc := FinDestroy, lock := None)
  {
    hide Uninterrupted;
    var s1 := Advance(s, c, FinUnlock);
    assert Do(s, t, ReleaseDone) == s1;
    u := DoUnlockFinal(s1, t);
    assert Do(s1, t, UnlockFinal) == u;
    NoneLeft(u, t);
    FirstOf(s1, t, UnlockFinal, [], u);
    FirstOf(s, t, ReleaseDone, [UnlockFinal] + [], u);
  }

  /** The ready queue that a coroutine's promise knows. */
  function ReadyOf(s: State, c: nat): Option<Ready>
    requires c < |s.co|
  {
    match s.co[c].sched
    case Some(q) => if q < |s.ready| then Some(s.ready[q]) else None
    case None => None
  }

  /** final_suspend: in every reachable state its steps, uninterrupted, set `finished`, have the member's
      effect on the awaiters, in which there is no null pointer, and leave the mutex free. */
  lemma FinalSuspendIsSteps(s: State, t: nat, c: nat) returns (u: State)
    requires Inv(s) && At(s, t, FinLock) && c == Top(s, t) && s.co[c].lock == None
    ensures Uninterrupted(s, t, [LockFinal, SetFinished] + Releases(|s.co[c].others|) + [ReleaseDone, UnlockFinal], u)
    ensures c < |u.co| && u.co[c].finished && u.co[c].lock == None && u.co[c].pc == FinDestroy && !u.fault
    ensures match FinalEffect(s.co[c].isVoid, ReadyOf(s, c), s.co[c].others)
            case Pushed(r) =>
              s.co[c].sched.Some? && s.co[c].sched.value < |s.ready| && u.ready == s.ready[s.co[c].sched.value := r]
            case ResumedHere(os) => os == [] && u.ready == s.ready
            case NullScheduler => false
  {
    hide Enabled, Do, SchedulerFirst, Uninterrupted;
    OthersElsewhere(s, t, c);
    var s1 := FinalBegins(s, t, c);
    var s2 := s1;
    if s.co[c].sched.Some? {
      s2 := ReleaseLoop(s1, t, c, s.co[c].sched.value);
      assert s.co[c].others[0..] == s.co[c].others;
    } else {
      NoneLeft(s1, t);
      assert Releases(0) == [];
    }
    u := FinalEnds(s2, t, c);
    var loop := Releases(|s.co[c].others|);
    var begin, end := [LockFinal] + ([SetFinished] + []), [ReleaseDone] + ([UnlockFinal] + []);
    UninterruptedThen(s, t, begin, s1, loop, s2);
    UninterruptedThen(s, t, begin + loop, s2, end, u);
    assert begin == [LockFinal, SetFinished] && end == [ReleaseDone, UnlockFinal];
  }

  lemma OthersElsewhere(s: State, t: nat, c: nat)
    requires Inv(s) && At(s, t, FinLock) && c == Top(s, t)
    ensures s.co[c].iter == 0 && (s.co[c].sched.Some? ==> s.co[c].sched.value < |s.ready|)
    ensures s.co[c].sched == None ==> s.co[c].others == []
    ensures forall o :: o in s.co[c].others ==> o < |s.co| && o != c
  {
    assert OwnOk(s, c) && OwnerOk(s, c) && Located(s, c);
    forall o | o in s.co[c].others ensures o < |s.co| && o != c {
      var j :| 0 <= j < |s.co[c].others| && s.co[c].others[j] == o;
      assert HandleAt(s, InOthers(c, j)) == Some(o);
      assert HandleAt(s, OnThread(t, |s.threads[t].frames| - 1)) == Some(c);
    }
  }

  lemma AwaitBegins(s: State, t: nat, c: nat, d: nat) returns (u: State)
    requires !s.fault && At(s, t, WaitLock(d)) && c == Top(s, t) && d < |s.co| && s.co[d].lock == None
    ensures Enabled(s, t, LockTask) && SchedulerFirst(s, t, LockTask)
    ensures var s1 := Do(s, t, LockTask);
            Enabled(s1, t, CheckTask) && SchedulerFirst(s1, t, CheckTask) && u == Do(s1, t, CheckTask)
    ensures At(u, t, if s.co[d].finished then WaitUnlock(d) else WaitPush(d)) && Top(u, t) == c
    ensures !u.fault && u.ready == s.ready && |u.co| == |s.co| && u.co[d].others == s.co[d].others
    ensures u.co[c].suspended == s.co[c].suspended && (s.co[d].pc != Gone && d != c ==> u.co[d].pc != Gone)
  {
    u := DoCheckTask(DoLockTask(s, t), t);
  }

  lemma AwaitGoesOn(s: State, t: nat, c: nat, d: nat) returns (u: State)
    requires !s.fault && At(s, t, WaitUnlock(d)) && c == Top(s, t) && d < |s.co|
    ensures Enabled(s, t, UnlockReady) && SchedulerFirst(s, t, UnlockReady) && u == Do(s, t, UnlockReady)
    ensures |u.co| == |s.co| && u.co[d].lock == None && !u.fault && u.ready == s.ready
    ensures u.co[d].others == s.co[d].others && u.co[c].pc == Read(d) && !u.co[c].suspended
  {
    u := DoUnlockReady(s, t);
  }

  lemma AwaitStays(s: State, t: nat, c: nat, d: nat) returns (u: State)
    requires !s.fault && At(s, t, WaitPush(d)) && c == Top(s, t) && d < |s.co| && s.co[d].pc != Gone
    ensures Enabled(s, t, PushOther) && SchedulerFirst(s, t, PushOther)
    ensures var s1 := Do(s, t, PushOther);
            Enabled(s1, t, UnlockSuspended) && SchedulerFirst(s1, t, UnlockSuspended) && u == Do(s1, t, UnlockSuspended)
    ensures |u.co| == |s.co| && u.co[d].lock == None && !u.fault && u.ready == s.ready
    ensures u.co[d].others == s.co[d].others + [c] && u.co[c].pc == Read(d) && u.co[c].suspended == s.co[c].suspended
  {
    u := DoUnlockSuspended(DoPushOther(s, t), t);
  }

  lemma SameActs()
    ensures [LockTask] + ([CheckTask] + ([UnlockReady] + [])) == [LockTask, CheckTask, UnlockReady]
    ensures [LockTask] + ([CheckTask] + ([PushOther] + ([UnlockSuspended] + [])))
         == [LockTask, CheckTask, PushOther, UnlockSuspended]
  {
  }

  /** Task::await_suspend: in every reachable state its steps, uninterrupted, have the member's effect:
      they register the awaiter exactly if the task is unfinished, and otherwise let it go on. */
  lemma AwaitSuspendIsSteps(s: State, t: nat, c: nat, d: nat) returns (u: State)
    requires Inv(s) && At(s, t, WaitLock(d)) && c == Top(s, t) && d < |s.co| && s.co[d].lock == None
    ensures if s.co[d].finished then Uninterrupted(s, t, [LockTask, CheckTask, UnlockReady], u)
            else Uninterrupted(s, t, [LockTask, CheckTask, PushOther, UnlockSuspended], u)
    ensures d < |u.co| && c < |u.co| && u.co[d].lock == None && !u.fault && u.ready == s.ready
    ensures u.co[c].pc == Read(d)
    ensures (u.co[c].suspended, u.co[d].others) == AwaitEffect(s.co[d].finished, s.co[d].others, c)
  {
    assert OwnOk(s, c) && OwnOk(s, d) && Located(s, c) && OwnerOk(s, c);
    AboutTop(s, t);
    hide Enabled, Do, SchedulerFirst, Uninterrupted;
    var s2 := AwaitBegins(s, t, c, d);
    var rest;
    if s.co[d].finished {
      u := AwaitGoesOn(s2, t, c, d);
      NoneLeft(u, t);
      rest := [UnlockReady] + [];
      FirstOf(s2, t, UnlockReady, [], u);
    } else {
      u := AwaitStays(s2, t, c, d);
      NoneLeft(u, t);
      rest := [PushOther] + ([UnlockSuspended] + []);
      FirstOf(Do(s2, t, PushOther), t, UnlockSuspended, [], u);
      FirstOf(s2, t, PushOther, [UnlockSuspended] + [], u);
    }
    FirstOf(Do(s, t, LockTask), t, CheckTask, rest, u);
    FirstOf(s, t, LockTask, [CheckTask] + rest, u);
    SameActs();
  }
}
