/** What holds in every state of every run of the coroutine runtime. */
module RuntimeSafety {
  import opened Options
  import opened Runtime
  import opened RuntimeInvariant

  /** The invariant holds along every run. */
  lemma {:induction false} RunKeepsInv(ss: seq<State>, es: seq<Event>, n: nat)
    requires Execution(ss, es) && n < |ss|
    ensures Inv(ss[n])
  {
    if n == 0 {
      InitInv(ss[0]);
    } else {
      RunKeepsInv(ss, es, n - 1);
      assert StepAt(ss, es, n - 1);
      StepKeepsInv(ss[n - 1], es[n - 1].t, es[n - 1].a, ss[n]);
    }
  }

  /** No run resumes a null, destroyed or running coroutine, dereferences a destroyed promise,
      uses a null scheduler, or reads a result before its body has ended. */
  lemma RunsNeverFault(ss: seq<State>, es: seq<Event>)
    requires Execution(ss, es)
    ensures forall n :: 0 <= n < |ss| ==> !ss[n].fault
  {
    forall n | 0 <= n < |ss| ensures !ss[n].fault {
      RunKeepsInv(ss, es, n);
    }
  }

  /** What that means for each action of a run, in the terms of the state it finds: a worker that runs
      resumes only a handle that is not null, of a coroutine whose frame exists and is suspended; an
      awaiter is put into a promise that exists, of a task that has not finished; an awaiter is released
      through a scheduler that is not null, and is itself there and suspended; and a result is read after
      the body has ended. */
  lemma NoMisuse(ss: seq<State>, es: seq<Event>, n: nat)
    requires Execution(ss, es) && n < |es|
    ensures var s, t := ss[n], es[n].t;
            match es[n].a
            case LoopResume =>
              IsWorker(s, t) && s.threads[t].loop.Holding? &&
              (s.running[s.threads[t].home.q] ==>
                 var h := s.threads[t].loop.h;
                 h.H? && h.c < |s.co| && s.co[h.c].pc != Gone && s.co[h.c].suspended && s.co[h.c].place == Held(t))
            case PushOther =>
              Waiting(s, t) && s.co[Top(s, t)].pc.WaitPush? &&
              var d := s.co[Top(s, t)].pc.d;
              s.co[d].pc != Gone && !s.co[d].finished && s.co[d].lock == Some(t)
            case ReleaseOne =>
              Executing(s, t) &&
              var me := s.co[Top(s, t)];
              && me.finished && me.lock == Some(t) && me.sched.Some? && me.sched.value < |s.ready|
              && me.iter < |me.others| && me.others[me.iter] < |s.co|
              && s.co[me.others[me.iter]].pc != Gone && s.co[me.others[me.iter]].suspended
            case ReadResult =>
              Waiting(s, t) && s.co[Top(s, t)].pc.Read? &&
              s.co[s.co[Top(s, t)].pc.d].finished && s.co[s.co[Top(s, t)].pc.d].outcome != Pending
            case _ => true
  {
    var s, t := ss[n], es[n].t;
    RunKeepsInv(ss, es, n);
    assert StepAt(ss, es, n);
    match es[n].a {
      case LoopResume =>
        assert ThreadOk(s, t);
        if s.threads[t].loop.h.H? {
          AboutHandle(s, Held(t));
        }
      case PushOther => PromiseOutlivesRegistration(ss, es, n, t);
      case ReleaseOne =>
        AboutTop(s, t);
        AboutHandle(s, InOthers(Top(s, t), s.co[Top(s, t)].iter));
      case ReadResult =>
        AboutTop(s, t);
        AboutTarget(s, t);
      case _ =>
    }
  }

  /** One owner per handle: in every reachable state a coroutine's handle is in at most one place,
      in none once its frame is destroyed, and in exactly one while its frame exists and no
      scheduler has been stopped. */
  lemma OneOwner(ss: seq<State>, es: seq<Event>, n: nat, c: nat)
    requires Execution(ss, es) && n < |ss| && c < |ss[n].co|
    ensures forall p, p' :: HandleAt(ss[n], p) == Some(c) && HandleAt(ss[n], p') == Some(c) ==> p == p'
    ensures ss[n].co[c].pc == Gone ==> forall p :: HandleAt(ss[n], p) != Some(c)
    ensures ss[n].co[c].pc != Gone && (forall q :: 0 <= q < |ss[n].running| ==> ss[n].running[q]) ==>
              exists p :: HandleAt(ss[n], p) == Some(c)
  {
    var s := ss[n];
    RunKeepsInv(ss, es, n);
    assert Located(s, c) && OwnOk(s, c) && OwnerOk(s, c);
    if s.co[c].pc == Gone {
      forall p ensures HandleAt(s, p) != Some(c) {
        assert HandleAt(s, p).Some? ==> s.co[HandleAt(s, p).value].place == p;
      }
    }
  }

  /** Frame lifetime: whenever a thread is about to dereference the promise of the task it awaits,
      it owns the task's mutex, `finished` is still false and the frame still exists. */
  lemma PromiseOutlivesRegistration(ss: seq<State>, es: seq<Event>, n: nat, t: nat)
    requires Execution(ss, es) && n < |ss|
    requires Waiting(ss[n], t) && ss[n].co[Top(ss[n], t)].pc.WaitPush?
    ensures var d := ss[n].co[Top(ss[n], t)].pc.d;
            ss[n].co[d].pc != Gone && !ss[n].co[d].finished && ss[n].co[d].lock == Some(t)
  {
    RunKeepsInv(ss, es, n);
    AboutTop(ss[n], t);
    AboutTarget(ss[n], t);
  }

  /** Mutual exclusion: two threads are never inside critical sections of the same task. */
  lemma TaskMutexExcludes(ss: seq<State>, es: seq<Event>, n: nat, c: nat, c': nat, d: nat)
    requires Execution(ss, es) && n < |ss| && c < |ss[n].co| && c' < |ss[n].co|
    requires Crit(ss[n].co[c].pc, c) == Some(d) && Crit(ss[n].co[c'].pc, c') == Some(d)
    ensures c == c'
  {
    var s := ss[n];
    RunKeepsInv(ss, es, n);
    assert OwnerOk(s, c) && OwnerOk(s, c') && Located(s, c) && Located(s, c');
  }

  /** No lost wake-up.  A coroutine that Task::await_suspend told to stay suspended has been
      enqueued by a final_suspend exactly as often as it was told so, except that while it is still
      registered one wake-up is owed; it is then registered once, with a task that has a scheduler
      and has not yet been through its release loop. */
  lemma NoLostWakeUp(ss: seq<State>, es: seq<Event>, n: nat, c: nat)
    requires Execution(ss, es) && n < |ss| && c < |ss[n].co|
    ensures var s := ss[n];
            var co := s.co[c];
            if co.place.InOthers? then
              var d, j := co.place.d, co.place.j;
              && co.waits == co.wakes + 1
              && d < |s.co| && s.co[d].iter <= j < |s.co[d].others| && s.co[d].others[j] == c
              && !Released(s.co[d].pc)
              && s.co[d].sched.Some? && s.co[d].sched.value < |s.ready|
              && co.pc == Read(d)
            else
              && co.waits == co.wakes
              && forall d, j :: HandleAt(s, InOthers(d, j)) != Some(c)
  {
    var s := ss[n];
    RunKeepsInv(ss, es, n);
    assert Located(s, c) && OwnOk(s, c);
    if s.co[c].place.InOthers? {
      assert OwnOk(s, s.co[c].place.d);
    }
  }

  /** How a task's result reaches its awaiter: an await_resume only ever happens once the body has
      ended, and the first one finds the value given to return_value, or a default-constructed one
      if the body ended by a SocketException; every later one finds a value that has been moved away. */
  lemma ResultBeforeResume(ss: seq<State>, es: seq<Event>, n: nat)
    requires Execution(ss, es) && n < |ss|
    ensures forall t {:trigger Waiting(ss[n], t)} :: Waiting(ss[n], t) && ss[n].co[Top(ss[n], t)].pc.Read? ==>
              var d := ss[n].co[ss[n].co[Top(ss[n], t)].pc.d];
              d.finished && d.outcome != Pending
    ensures forall d :: 0 <= d < |ss[n].co| && ss[n].co[d].seen != [] ==>
              var co := ss[n].co[d];
              && (match co.outcome
                  case Returned(v) => co.seen[0] == Stored(v)
                  case Threw => co.seen[0] == Default
                  case Pending => false)
              && forall k :: 1 <= k < |co.seen| ==> co.seen[k] == Moved
  {
    var s := ss[n];
    RunKeepsInv(ss, es, n);
    forall t | Waiting(s, t) && s.co[Top(s, t)].pc.Read?
      ensures s.co[s.co[Top(s, t)].pc.d].finished && s.co[s.co[Top(s, t)].pc.d].outcome != Pending
    {
      AboutTop(s, t);
      AboutTarget(s, t);
    }
    forall d | 0 <= d < |s.co| && s.co[d].seen != []
      ensures s.co[d].outcome != Pending && Drained(s.co[d].seen, s.co[d].outcome)
    {
      assert OwnOk(s, d);
    }
  }

  /** How the body of a coroutine ended stays how it ended. */
  lemma {:induction false} OutcomeStays(ss: seq<State>, es: seq<Event>, i: nat, j: nat, d: nat)
    requires Execution(ss, es) && i <= j < |ss| && d < |ss[i].co| && ss[i].co[d].outcome != Pending
    ensures d < |ss[j].co| && ss[j].co[d].outcome == ss[i].co[d].outcome
    decreases j - i
  {
    hide Do, Enabled, Inv;
    if i < j {
      OutcomeStays(ss, es, i, j - 1, d);
      RunKeepsInv(ss, es, j - 1);
      assert StepAt(ss, es, j - 1);
      StepEvolves(ss[j - 1], es[j - 1].t, es[j - 1].a, ss[j], d);
    }
  }

  /** What goes into a task comes out of it: if the body of d ends with event i, by return_value(v) or
      by a SocketException, and event j is the first await_resume of d, then j comes after i and finds
      v, or a default-constructed value. */
  lemma ValueIsHandedOver(ss: seq<State>, es: seq<Event>, i: nat, j: nat, d: nat)
    requires Execution(ss, es) && i < |es| && j < |es|
    requires (es[i].a.CoReturn? || es[i].a.Throw?) && Executing(ss[i], es[i].t) && Top(ss[i], es[i].t) == d
    requires es[j].a == ReadResult && At(ss[j], es[j].t, Read(d)) && d < |ss[j].co| && ss[j].co[d].seen == []
    ensures i < j && d < |ss[j + 1].co|
    ensures match es[i].a
            case CoReturn(v) => ss[j + 1].co[d].seen == [Stored(v)]
            case _ => ss[j + 1].co[d].seen == [Default]
  {
    RunKeepsInv(ss, es, i);
    RunKeepsInv(ss, es, j);
    assert StepAt(ss, es, i) && StepAt(ss, es, j);
    assert OwnOk(ss[i], d) && OwnOk(ss[j], d);
    AboutTop(ss[j], es[j].t);
    hide Inv;
    if j <= i {
      OutcomeStays(ss, es, j, i, d);
    } else {
      OutcomeStays(ss, es, i + 1, j, d);
    }
  }
}
