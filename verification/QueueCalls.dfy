/** The queue as its callers see it (src/MultiThreadQueue.hpp:60-81): the theorems about the monitor, in
    terms of the arguments and results of the calls. */
module QueueCalls {
  import opened Options
  import opened MultiThreadQueue
  import opened QueueMonitor

  /** The argument of the last push that thread t has begun. */
  function Argument<T>(es: seq<Event<T>>, t: nat): Option<T> {
    if es == [] then None
    else
      var e := es[|es| - 1];
      if e.t == t && e.a.BeginPush? then Some(e.a.x) else Argument(es[..|es| - 1], t)
  }

  /** The arguments of the calls that have written, in the order of writing. */
  function Written<T>(es: seq<Event<T>>): seq<T> {
    if es == [] then []
    else
      var e, before := es[|es| - 1], es[..|es| - 1];
      Written(before) + (if e.a.Write? && Argument(before, e.t).Some? then [Argument(before, e.t).value] else [])
  }

  lemma OthersStay<T>(s: State<T>, t: nat, a: Act<T>, dflt: T, u: nat)
    requires Enabled(s, t, a) && u < |s.pcs|
    ensures |Do(s, t, a, dflt).pcs| == |s.pcs|
    ensures u != t && !(a.Notify? && a.sleeper == u) ==> Do(s, t, a, dflt).pcs[u] == s.pcs[u]
    ensures u != t && a.Notify? && a.sleeper == u ==> s.pcs[u].Asleep? && Do(s, t, a, dflt).pcs[u].Woken?
  {
  }

  /** A thread that is inside push, before it writes, has the argument of its call. */
  ghost predicate Carries<T>(pc: Pc<T>, x: Option<T>) {
    match pc
    case PushLock(y) => x == Some(y)
    case PushWrite(y) => x == Some(y)
    case _ => true
  }

  ghost predicate AllCarry<T>(s: State<T>, es: seq<Event<T>>) {
    forall u: nat :: u < |s.pcs| ==> Carries(s.pcs[u], Argument(es, u))
  }

  lemma CarryStep<T>(s: State<T>, e: Event<T>, dflt: T, es: seq<Event<T>>)
    requires Enabled(s, e.t, e.a) && AllCarry(s, es)
    ensures AllCarry(Do(s, e.t, e.a, dflt), es + [e])
  {
    var s' := Do(s, e.t, e.a, dflt);
    assert (es + [e])[..|es|] == es;
    forall u: nat | u < |s'.pcs| ensures Carries(s'.pcs[u], Argument(es + [e], u)) {
      assert Carries(s.pcs[u], Argument(es, u));
      if u != e.t {
        OthersStay(s, e.t, e.a, dflt, u);
      }
    }
  }

  lemma {:induction false} CallsCarry<T>(ss: seq<State<T>>, es: seq<Event<T>>, dflt: T, n: nat)
    requires Execution(ss, es, dflt) && n < |ss|
    ensures AllCarry(ss[n], es[..n]) && ss[n].pushed == Written(es[..n])
  {
    if n > 0 {
      CallsCarry(ss, es, dflt, n - 1);
      var e := es[n - 1];
      assert StepAt(ss, es, n - 1, dflt);
      assert es[..n] == es[..n - 1] + [e];
      CarryStep(ss[n - 1], e, dflt, es[..n - 1]);
      PushedStep(ss[n - 1], e, dflt, es[..n - 1]);
    }
  }

  lemma PushedStep<T>(s: State<T>, e: Event<T>, dflt: T, es: seq<Event<T>>)
    requires Enabled(s, e.t, e.a) && AllCarry(s, es) && s.pushed == Written(es)
    ensures Do(s, e.t, e.a, dflt).pushed == Written(es + [e])
  {
    assert (es + [e])[..|es|] == es;
    assert Carries(s.pcs[e.t], Argument(es, e.t));
  }

  /** Over every interleaving the queue is one FIFO of the pushed arguments: what has been taken, by
      whichever threads, and then what is in the ring, are the arguments of the calls of push that have
      written, in the order of their writes. */
  lemma CallsAreFifo<T>(ss: seq<State<T>>, es: seq<Event<T>>, dflt: T, n: nat)
    requires Execution(ss, es, dflt) && n < |ss|
    ensures Valid(ss[n].ring) && Written(es[..n]) == ss[n].pulled + View(ss[n].ring)
  {
    CallsCarry(ss, es, dflt, n);
    RunKeepsInv(ss, es, dflt, n);
  }

  /** A write puts in the argument of its thread's last call of push. */
  lemma WriteIsArgument<T>(ss: seq<State<T>>, es: seq<Event<T>>, dflt: T, n: nat)
    requires Execution(ss, es, dflt) && n < |es| && es[n].a == Write
    ensures Argument(es[..n], es[n].t).Some?
    ensures ss[n + 1].pushed == ss[n].pushed + [Argument(es[..n], es[n].t).value]
  {
    CallsCarry(ss, es, dflt, n);
    assert StepAt(ss, es, n, dflt);
    assert Carries(ss[n].pcs[es[n].t], Argument(es[..n], es[n].t));
  }

  // --- A call does what it is called for before it returns --------------------------------------------------

  lemma {:induction false} SameThreads<T>(ss: seq<State<T>>, es: seq<Event<T>>, dflt: T, i: nat, j: nat)
    requires Execution(ss, es, dflt) && i <= j < |ss|
    ensures |ss[j].pcs| == |ss[i].pcs|
    decreases j - i
  {
    if i < j {
      SameThreads(ss, es, dflt, i, j - 1);
      assert StepAt(ss, es, j - 1, dflt);
    }
  }

  /** A thread is back from a push only after its own write. */
  lemma {:induction false} BackFromPush<T>(ss: seq<State<T>>, es: seq<Event<T>>, dflt: T, i: nat, j: nat, t: nat)
    requires Execution(ss, es, dflt) && i < j < |ss| && es[i].t == t && es[i].a.BeginPush?
    ensures t < |ss[j].pcs|
    ensures ss[j].pcs[t].PushLock? || ss[j].pcs[t].PushWrite? || exists k: nat :: i < k < j && es[k] == Event(t, Write)
    decreases j
  {
    assert StepAt(ss, es, i, dflt) && StepAt(ss, es, j - 1, dflt);
    SameThreads(ss, es, dflt, i, j);
    SameThreads(ss, es, dflt, i, j - 1);
    if i < j - 1 {
      BackFromPush(ss, es, dflt, i, j - 1, t);
      if ss[j - 1].pcs[t].PushLock? || ss[j - 1].pcs[t].PushWrite? {
        PushingStep(ss[j - 1], es[j - 1], dflt, t);
      }
    }
  }

  lemma PushingStep<T>(s: State<T>, e: Event<T>, dflt: T, t: nat)
    requires Enabled(s, e.t, e.a) && t < |s.pcs| && (s.pcs[t].PushLock? || s.pcs[t].PushWrite?)
    ensures t < |Do(s, e.t, e.a, dflt).pcs|
    ensures var pc := Do(s, e.t, e.a, dflt).pcs[t]; pc.PushLock? || pc.PushWrite? || e == Event(t, Write)
  {
    OthersStay(s, e.t, e.a, dflt, t);
  }

  predicate Before<T>(pc: Pc<T>) {
    pc.PullLock? || pc.PullCheck? || pc.Asleep? || pc.Woken? || pc.PullTake?
  }

  /** Thread t has taken, and perhaps copied, between events i and j. */
  predicate Took<T(==)>(es: seq<Event<T>>, t: nat, i: nat, j: nat) {
    exists k: nat :: i < k < j && k < |es| && es[k] == Event(t, Take)
  }

  predicate TookAndCopied<T(==)>(es: seq<Event<T>>, t: nat, i: nat, j: nat) {
    exists k: nat :: i < k < j && k < |es| && es[k] == Event(t, Copy) && Took(es, t, i, k)
  }

  /** A thread is back from a pull only after its own take, and its caller's copy. */
  lemma {:induction false} BackFromPull<T>(ss: seq<State<T>>, es: seq<Event<T>>, dflt: T, i: nat, j: nat, t: nat)
    requires Execution(ss, es, dflt) && i < j < |ss| && es[i] == Event(t, BeginPull)
    ensures t < |ss[j].pcs|
    ensures Before(ss[j].pcs[t]) || (HasRef(ss[j].pcs[t]) && Took(es, t, i, j)) || TookAndCopied(es, t, i, j)
    decreases j
  {
    assert StepAt(ss, es, i, dflt) && StepAt(ss, es, j - 1, dflt);
    SameThreads(ss, es, dflt, i, j);
    SameThreads(ss, es, dflt, i, j - 1);
    if i < j - 1 {
      BackFromPull(ss, es, dflt, i, j - 1, t);
      hide Do, Enabled;
      if TookAndCopied(es, t, i, j - 1) {
        var k: nat :| i < k < j - 1 && k < |es| && es[k] == Event(t, Copy) && Took(es, t, i, k);
        assert es[k] == Event(t, Copy) && Took(es, t, i, k);
      } else if Before(ss[j - 1].pcs[t]) {
        PullingStep(ss[j - 1], es[j - 1], dflt, t);
      } else {
        TakenStep(ss[j - 1], es[j - 1], dflt, t);
      }
    }
  }

  lemma TakenStep<T>(s: State<T>, e: Event<T>, dflt: T, t: nat)
    requires Enabled(s, e.t, e.a) && t < |s.pcs| && HasRef(s.pcs[t])
    ensures t < |Do(s, e.t, e.a, dflt).pcs| && (HasRef(Do(s, e.t, e.a, dflt).pcs[t]) || e == Event(t, Copy))
  {
    OthersStay(s, e.t, e.a, dflt, t);
  }

  lemma PullingStep<T>(s: State<T>, e: Event<T>, dflt: T, t: nat)
    requires Enabled(s, e.t, e.a) && t < |s.pcs| && Before(s.pcs[t])
    ensures t < |Do(s, e.t, e.a, dflt).pcs| && (Before(Do(s, e.t, e.a, dflt).pcs[t]) || e == Event(t, Take))
  {
    OthersStay(s, e.t, e.a, dflt, t);
  }

  /** Where a thread's reference comes from: its own take, with only its unlock since. */
  lemma {:induction false} OwnReference<T>(ss: seq<State<T>>, es: seq<Event<T>>, dflt: T, n: nat, t: nat)
    returns (k: nat)
    requires Execution(ss, es, dflt) && n < |ss| && t < |ss[n].pcs| && HasRef(ss[n].pcs[t])
    ensures k < n && es[k] == Event(t, Take) && ss[k].ring.curr != 0 && ss[n].pcs[t].ref == RefTo(ss[k])
    ensures forall i :: k < i < n && es[i].t == t ==> es[i].a == UnlockPull
    decreases n
  {
    if n > 0 {
      var e := es[n - 1];
      assert StepAt(ss, es, n - 1, dflt);
      RefsComeFrom(ss[n - 1], e.t, e.a, dflt, t);
      if e == Event(t, Take) {
        k := n - 1;
      } else {
        k := OwnReference(ss, es, dflt, n - 1, t);
        OnlyUnlock(ss[n - 1], e, dflt, t);
      }
    }
  }

  lemma OnlyUnlock<T>(s: State<T>, e: Event<T>, dflt: T, t: nat)
    requires Enabled(s, e.t, e.a) && t < |s.pcs| && HasRef(s.pcs[t])
    requires t < |Do(s, e.t, e.a, dflt).pcs| && HasRef(Do(s, e.t, e.a, dflt).pcs[t])
    ensures e.t == t ==> e.a == UnlockPull
  {
  }

  /** What a caller of pull gets.  Its copy is made after its own take, k, which took the front of the
      queue; if fewer than c - n elements have been written since, for the c slots and n elements left
      there were then, the copy is that element, and with the (c - n)-th it is that one. */
  lemma PullGetsFront<T>(ss: seq<State<T>>, es: seq<Event<T>>, dflt: T, n: nat, t: nat) returns (k: nat)
    requires Execution(ss, es, dflt) && n < |es| && es[n] == Event(t, Copy)
    ensures k < n && es[k] == Event(t, Take) && Valid(ss[k].ring) && View(ss[k].ring) != []
    ensures |ss[n].copied| < |ss[n + 1].copied| && ss[n + 1].copied[..|ss[n].copied|] == ss[n].copied
    ensures var r, front := ss[k].ring, View(ss[k].ring)[0];
            var got, writes := ss[n + 1].copied[|ss[n].copied|], |Written(es[..n])| - |Written(es[..k])|;
            && ss[k + 1].pulled == ss[k].pulled + [front]
            && (writes < |r.data| - (r.curr - 1) ==> got == Some(front))
            && (writes == |r.data| - (r.curr - 1) ==> got == Some(Written(es[..n])[|Written(es[..n])| - 1]))
  {
    CopyFindsPulled(ss, es, dflt, n, t);
    k := OwnReference(ss, es, dflt, n, t);
    CallsCarry(ss, es, dflt, k);
    CallsCarry(ss, es, dflt, n);
    RunKeepsInv(ss, es, dflt, k);
    assert StepAt(ss, es, k, dflt);
    TakenStays(ss, es, dflt, k + 1, n);
  }

  lemma {:induction false} TakenStays<T>(ss: seq<State<T>>, es: seq<Event<T>>, dflt: T, i: nat, j: nat)
    requires Execution(ss, es, dflt) && i <= j < |ss|
    ensures ss[i].pulled <= ss[j].pulled
    decreases j
  {
    if i < j {
      TakenStays(ss, es, dflt, i, j - 1);
      assert StepAt(ss, es, j - 1, dflt);
      OnlyWriteAndTake(ss[j - 1], es[j - 1].t, es[j - 1].a, dflt);
    }
  }

  // --- Nobody is held up -----------------------------------------------------------------------------------------

  /** What a thread inside a call does next, once it has the mutex if it needs it. */
  function NextAct<T>(pc: Pc<T>, sleeper: nat): Act<T> {
    match pc
    case PushLock(_) => LockPush
    case PushWrite(_) => Write
    case PushUnlock => UnlockPush
    case PushNotify => Notify(sleeper)
    case PullLock => LockPull
    case Woken => LockPull
    case PullCheck(_) => Check
    case PullTake(_) => Take
    case PullUnlock(_) => UnlockPull
    case PullCopy(_) => Copy
    case Asleep => Spurious
    case Idle => BeginPull
  }

  lemma CanGoOn<T>(s: State<T>, t: nat) returns (v: nat)
    requires QueueMonitor.Inv(s) && t < |s.pcs|
    requires s.pcs[t].PushLock? || s.pcs[t].PullLock? || s.pcs[t].Woken? ==> s.holder == None
    ensures Enabled(s, t, NextAct(s.pcs[t], v))
  {
    v := |s.pcs|;
    if exists u: nat :: u < |s.pcs| && s.pcs[u].Asleep? {
      v :| v < |s.pcs| && s.pcs[v].Asleep?;
    }
  }

  /** In every reachable state a thread outside can begin any call, and a thread inside one that does not
      sleep can go on, or the one that has the mutex can. */
  lemma NobodyHeldUp<T>(ss: seq<State<T>>, es: seq<Event<T>>, dflt: T, n: nat, t: nat) returns (u: nat, v: nat)
    requires Execution(ss, es, dflt) && n < |ss| && t < |ss[n].pcs|
    ensures ss[n].pcs[t].Idle? ==> Enabled(ss[n], t, BeginPull) && forall x :: Enabled(ss[n], t, BeginPush(x))
    ensures u != t ==>
              ss[n].holder == Some(u) && (ss[n].pcs[t].PushLock? || ss[n].pcs[t].PullLock? || ss[n].pcs[t].Woken?)
    ensures u < |ss[n].pcs| && Enabled(ss[n], u, NextAct(ss[n].pcs[u], v))
  {
    var s := ss[n];
    RunKeepsInv(ss, es, dflt, n);
    u := t;
    if s.holder.Some? && (s.pcs[t].PushLock? || s.pcs[t].PullLock? || s.pcs[t].Woken?) {
      u := s.holder.value;
    }
    v := CanGoOn(s, u);
  }

  /** How far a thread is from the end of its call; from sleep, of its next look at the queue. */
  function ToGo<T>(pc: Pc<T>): nat {
    match pc
    case Idle => 0
    case PushLock(_) => 4
    case PushWrite(_) => 3
    case PushUnlock => 2
    case PushNotify => 1
    case Asleep => 7
    case Woken => 6
    case PullLock => 6
    case PullCheck(_) => 5
    case PullTake(_) => 4
    case PullUnlock(_) => 2
    case PullCopy(_) => 1
  }

  /** Every action inside a call brings it nearer to its end, but for a look that finds the queue empty;
      being notified, or woken for no reason, too. */
  lemma EveryActionCounts<T>(s: State<T>, t: nat, a: Act<T>, dflt: T, u: nat)
    requires Enabled(s, t, a) && u < |s.pcs| && (u == t || (a.Notify? && a.sleeper == u))
    requires s.pcs[u] != Idle && !(a == Check && s.ring.curr == 0)
    ensures u < |Do(s, t, a, dflt).pcs| && ToGo(Do(s, t, a, dflt).pcs[u]) < ToGo(s.pcs[u])
  {
  }
}
