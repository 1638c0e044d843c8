/** The queue's mutex and condition variable (src/MultiThreadQueue.hpp:60-81) as a step machine:
    any number of threads push and pull, one lock, unlock, test, wait or notify at a time, with
    spurious wake-ups.  The ring inside is the one of module MultiThreadQueue. */
module QueueMonitor {
  import opened Options
  import opened MultiThreadQueue

  datatype Pc<T> =
    | Idle
    // push(x)
    | PushLock(x: T)
    | PushWrite(x: T)        // holds the mutex
    | PushUnlock             // holds the mutex, the element is in
    | PushNotify             // past lock.unlock(), before cond_.notify_one()
    // pull(); `woken` tells a puller that has slept from one that has not
    | PullLock
    | PullCheck(woken: bool) // holds the mutex, evaluating curr_size_ != 0
    | Asleep                 // in cond_.wait, the mutex released
    | Woken                  // notified or woken spuriously, must take the mutex again
    | PullTake(woken: bool)  // holds the mutex, the predicate was true
    | PullUnlock(ref: Ref<T>) // holds the mutex, the element is out
    | PullCopy(ref: Ref<T>)   // past the return of pull(), before the caller copies what it refers to

  /** The reference that pull() returns: a slot of the array there was.  The rest is history: the size of
      that array, how many elements the pull left in it, how many writes there had been, and which pull
      it was. */
  datatype Ref<T> = Ref(slot: nat, size: nat, left: nat, written: nat, no: nat)

  datatype State<T> = State(
    ring: Ring<T>,
    holder: Option<nat>,
    pcs: seq<Pc<T>>,
    pushed: seq<T>,          // history: what was written, in order
    pulled: seq<T>,          // history: what was taken, in order
    copied: seq<Option<T>>)  // history: what the callers of pull() found, None in an array that is gone

  datatype Act<T> =
    | BeginPush(x: T) | LockPush | Write | UnlockPush | Notify(sleeper: nat)
    | BeginPull | LockPull | Check | Take | UnlockPull | Copy
    | Spurious

  predicate Holding<T>(pc: Pc<T>) {
    pc.PushWrite? || pc.PushUnlock? || pc.PullCheck? || pc.PullTake? || pc.PullUnlock?
  }

  ghost predicate Enabled<T>(s: State<T>, t: nat, a: Act<T>) {
    && t < |s.pcs|
    && match a
       case BeginPush(_) => s.pcs[t].Idle?
       case LockPush => s.pcs[t].PushLock? && s.holder == None
       case Write => s.pcs[t].PushWrite? && Valid(s.ring)
       case UnlockPush => s.pcs[t].PushUnlock?
       case Notify(v) =>
         // wakes one sleeper, whichever; does nothing if none sleeps
         && s.pcs[t].PushNotify?
         && if v < |s.pcs| then s.pcs[v].Asleep? else forall u :: 0 <= u < |s.pcs| ==> !s.pcs[u].Asleep?
       case BeginPull => s.pcs[t].Idle?
       case LockPull => (s.pcs[t].PullLock? || s.pcs[t].Woken?) && s.holder == None
       case Check => s.pcs[t].PullCheck?
       case Take => s.pcs[t].PullTake? && Valid(s.ring) && s.ring.curr != 0
       case UnlockPull => s.pcs[t].PullUnlock?
       case Copy => s.pcs[t].PullCopy?
       case Spurious => s.pcs[t].Asleep?
  }

  function Goto<T>(s: State<T>, t: nat, pc: Pc<T>): State<T>
    requires t < |s.pcs|
  {
    s.(pcs := s.pcs[t := pc])
  }

  ghost function Do<T>(s: State<T>, t: nat, a: Act<T>, dflt: T): State<T>
    requires Enabled(s, t, a)
  {
    match a
    case BeginPush(x) => Goto(s, t, PushLock(x))
    case LockPush => Goto(s, t, PushWrite(s.pcs[t].x)).(holder := Some(t))
    case Write =>
      var x := s.pcs[t].x;
      Goto(s, t, PushUnlock).(ring := Push(s.ring, x, dflt), pushed := s.pushed + [x])
    case UnlockPush => Goto(s, t, PushNotify).(holder := None)
    case Notify(v) => if v < |s.pcs| then Goto(Goto(s, v, Woken), t, Idle) else Goto(s, t, Idle)
    case BeginPull => Goto(s, t, PullLock)
    case LockPull => Goto(s, t, PullCheck(s.pcs[t].Woken?)).(holder := Some(t))
    case Check =>
      if s.ring.curr != 0 then Goto(s, t, PullTake(s.pcs[t].woken))
      else Goto(s, t, Asleep).(holder := None)  // releases the mutex and sleeps in one step
    case Take =>
      var r := s.ring;
      Goto(s, t, PullUnlock(RefTo(s))).(
        ring := Pull(r), pulled := s.pulled + [r.data[r.top]])
    case UnlockPull => Goto(s, t, PullCopy(s.pcs[t].ref)).(holder := None)
    case Copy => Goto(s, t, Idle).(copied := s.copied + [Found(s, s.pcs[t].ref)])
    case Spurious => Goto(s, t, Woken)
  }

  /** The reference to the front. */
  function RefTo<T>(s: State<T>): Ref<T>
    requires s.ring.curr != 0
  {
    Ref(s.ring.top, |s.ring.data|, s.ring.curr - 1, |s.pushed|, |s.pulled|)
  }

  /** What a reference refers to now.  Arrays only get larger, so the size tells which one it is. */
  function Found<T>(s: State<T>, ref: Ref<T>): Option<T> {
    if |s.ring.data| == ref.size && ref.slot < ref.size then Some(s.ring.data[ref.slot]) else None
  }

  datatype Event<T> = Event(t: nat, a: Act<T>)

  ghost predicate InitState<T>(s: State<T>, dflt: T) {
    && s.ring == Init(dflt) && s.holder == None && s.pushed == [] && s.pulled == [] && s.copied == []
    && forall t :: 0 <= t < |s.pcs| ==> s.pcs[t].Idle?
  }

  ghost predicate StepAt<T>(ss: seq<State<T>>, es: seq<Event<T>>, i: nat, dflt: T)
    requires |ss| == |es| + 1 && i < |es|
  {
    Enabled(ss[i], es[i].t, es[i].a) && ss[i + 1] == Do(ss[i], es[i].t, es[i].a, dflt)
  }

  ghost predicate Execution<T>(ss: seq<State<T>>, es: seq<Event<T>>, dflt: T) {
    && |ss| == |es| + 1
    && InitState(ss[0], dflt)
    && forall i :: 0 <= i < |es| ==> StepAt(ss, es, i, dflt)
  }

  // --- Credits: the wake-ups still under way -------------------------------------------------------

  /** A woken puller that has not yet taken or gone back to sleep, or a pusher that has not yet
      notified. */
  function Credit<T>(pc: Pc<T>): nat {
    match pc
    case PushUnlock => 1
    case PushNotify => 1
    case Woken => 1
    case PullCheck(woken) => if woken then 1 else 0
    case PullTake(woken) => if woken then 1 else 0
    case _ => 0
  }

  function Credits<T>(pcs: seq<Pc<T>>): nat {
    if pcs == [] then 0 else Credits(pcs[..|pcs| - 1]) + Credit(pcs[|pcs| - 1])
  }

  lemma {:induction false} CreditsUpdate<T>(pcs: seq<Pc<T>>, t: nat, pc: Pc<T>)
    requires t < |pcs|
    ensures Credits(pcs[t := pc]) + Credit(pcs[t]) == Credits(pcs) + Credit(pc)
    decreases |pcs|
  {
    var n := |pcs| - 1;
    if t == n {
      assert pcs[t := pc][..n] == pcs[..n];
    } else {
      CreditsUpdate(pcs[..n], t, pc);
      assert pcs[t := pc][..n] == pcs[..n][t := pc];
    }
  }

  lemma {:induction false} NoCredits<T>(pcs: seq<Pc<T>>)
    requires forall t :: 0 <= t < |pcs| ==> Credit(pcs[t]) == 0
    ensures Credits(pcs) == 0
  {
    if pcs != [] {
      NoCredits(pcs[..|pcs| - 1]);
    }
  }

  // --- The invariant ---------------------------------------------------------------------------------

  ghost predicate LockOk<T>(s: State<T>) {
    && (s.holder.Some? ==> s.holder.value < |s.pcs| && Holding(s.pcs[s.holder.value]))
    && (forall t :: 0 <= t < |s.pcs| && Holding(s.pcs[t]) ==> s.holder == Some(t))
    && (forall t :: 0 <= t < |s.pcs| && s.pcs[t].PullTake? ==> s.ring.curr != 0)
  }

  ghost predicate FifoOk<T>(s: State<T>) {
    Valid(s.ring) && s.pushed == s.pulled + View(s.ring)
  }

  /** No lost signal. */
  ghost predicate SignalsOk<T>(s: State<T>) {
    forall t :: 0 <= t < |s.pcs| && s.pcs[t].Asleep? ==> s.ring.curr <= Credits(s.pcs)
  }

  /** A reference and what has happened since: up to the last write that its slot outlives, the array is
      the same, `tail` has moved once per write and the slot holds what was pulled; with one write more
      it holds that write. */
  ghost predicate RefOk<T>(s: State<T>, ref: Ref<T>) {
    && ref.slot < ref.size && ref.left < ref.size && ref.written <= |s.pushed| && ref.no < |s.pulled|
    && var c, n, k := ref.size, ref.left, |s.pushed| - ref.written;
    && (k < c - n ==>
          && |s.ring.data| == c && s.ring.curr <= n + k && s.ring.tail == Wrap(ref.slot + 1 + n + k, c)
          && s.ring.data[ref.slot] == s.pulled[ref.no])
    && (k == c - n ==> |s.ring.data| == c && s.ring.data[ref.slot] == s.pushed[|s.pushed| - 1])
  }

  predicate HasRef<T>(pc: Pc<T>) {
    pc.PullUnlock? || pc.PullCopy?
  }

  ghost predicate RefsOk<T>(s: State<T>) {
    forall t :: 0 <= t < |s.pcs| && HasRef(s.pcs[t]) ==> RefOk(s, s.pcs[t].ref)
  }

  ghost predicate Inv<T>(s: State<T>) {
    LockOk(s) && FifoOk(s) && SignalsOk(s) && RefsOk(s)
  }

  lemma StepKeepsLock<T>(s: State<T>, t: nat, a: Act<T>, dflt: T)
    requires Inv(s) && Enabled(s, t, a)
    ensures LockOk(Do(s, t, a, dflt))
  {
    if a.Write? {
      PushAppends(s.ring, s.pcs[t].x, dflt);
    }
  }

  lemma StepKeepsFifo<T>(s: State<T>, t: nat, a: Act<T>, dflt: T)
    requires Inv(s) && Enabled(s, t, a)
    ensures FifoOk(Do(s, t, a, dflt))
  {
    if a.Write? {
      FifoStep(s.ring, DoPush(s.pcs[t].x), dflt, s.pushed, s.pulled);
    } else if a.Take? {
      FifoStep(s.ring, DoPull, dflt, s.pushed, s.pulled);
    }
  }

  lemma NotifyKeepsSignals<T>(s: State<T>, t: nat, v: nat, dflt: T)
    requires SignalsOk(s) && Enabled(s, t, Notify(v))
    ensures SignalsOk(Do(s, t, Notify(v), dflt))
  {
    if v < |s.pcs| {
      CreditsUpdate(s.pcs, v, Woken);
      CreditsUpdate(s.pcs[v := Woken], t, Idle);
    } else {
      CreditsUpdate(s.pcs, t, Idle);
    }
  }

  lemma StepKeepsSignals<T>(s: State<T>, t: nat, a: Act<T>, dflt: T)
    requires Inv(s) && Enabled(s, t, a)
    ensures SignalsOk(Do(s, t, a, dflt))
  {
    hide RefsOk, RefOk, Push;
    if a.Notify? {
      NotifyKeepsSignals(s, t, a.sleeper, dflt);
    } else {
      var s' := Do(s, t, a, dflt);
      CreditsUpdate(s.pcs, t, s'.pcs[t]);
      assert s'.pcs == s.pcs[t := s'.pcs[t]];
      if a.Write? {
        PushAppends(s.ring, s.pcs[t].x, dflt);
      }
    }
  }

  lemma WriteKeepsRef<T>(s: State<T>, x: T, dflt: T, s': State<T>, ref: Ref<T>)
    requires Valid(s.ring) && RefOk(s, ref)
    requires s'.ring == Push(s.ring, x, dflt) && s'.pushed == s.pushed + [x] && s'.pulled == s.pulled
    ensures RefOk(s', ref)
  {
  }

  lemma TakeKeepsRef<T>(s: State<T>, s': State<T>, ref: Ref<T>)
    requires Valid(s.ring) && s.ring.curr != 0 && RefOk(s, ref)
    requires s'.ring == Pull(s.ring) && s'.pushed == s.pushed && s'.pulled == s.pulled + [s.ring.data[s.ring.top]]
    ensures RefOk(s', ref)
  {
  }

  lemma NewRef<T>(s: State<T>, s': State<T>)
    requires Valid(s.ring) && s.ring.curr != 0
    requires s'.ring == Pull(s.ring) && s'.pushed == s.pushed && s'.pulled == s.pulled + [s.ring.data[s.ring.top]]
    ensures RefOk(s', RefTo(s))
  {
  }

  /** Where a thread gets its reference from. */
  lemma RefsComeFrom<T>(s: State<T>, t: nat, a: Act<T>, dflt: T, u: nat)
    requires Enabled(s, t, a) && u < |Do(s, t, a, dflt).pcs| && HasRef(Do(s, t, a, dflt).pcs[u])
    ensures u < |s.pcs|
    ensures if u == t && a.Take? then
              Do(s, t, a, dflt).pcs[u].ref == RefTo(s)
            else HasRef(s.pcs[u]) && Do(s, t, a, dflt).pcs[u].ref == s.pcs[u].ref
  {
  }

  lemma OnlyWriteAndTake<T>(s: State<T>, t: nat, a: Act<T>, dflt: T)
    requires Enabled(s, t, a)
    ensures var s' := Do(s, t, a, dflt);
            match a
            case Write =>
              && s'.ring == Push(s.ring, s.pcs[t].x, dflt)
              && s'.pushed == s.pushed + [s.pcs[t].x] && s'.pulled == s.pulled
            case Take =>
              && s'.ring == Pull(s.ring)
              && s'.pushed == s.pushed && s'.pulled == s.pulled + [s.ring.data[s.ring.top]]
            case _ => s'.ring == s.ring && s'.pushed == s.pushed && s'.pulled == s.pulled
  {
  }

  lemma StepKeepsRefs<T>(s: State<T>, t: nat, a: Act<T>, dflt: T)
    requires Inv(s) && Enabled(s, t, a)
    ensures RefsOk(Do(s, t, a, dflt))
  {
    hide Enabled, Do, RefOk, LockOk, SignalsOk;
    var s' := Do(s, t, a, dflt);
    forall u | 0 <= u < |s'.pcs| && HasRef(s'.pcs[u]) ensures RefOk(s', s'.pcs[u].ref) {
      RefsComeFrom(s, t, a, dflt, u);
      RefStays(s, t, a, s', s'.pcs[u].ref, dflt);
    }
  }

  lemma RefStays<T>(s: State<T>, t: nat, a: Act<T>, s': State<T>, ref: Ref<T>, dflt: T)
    requires Enabled(s, t, a) && s' == Do(s, t, a, dflt) && Valid(s.ring)
    requires RefOk(s, ref) || (a.Take? && ref == RefTo(s))
    ensures RefOk(s', ref)
  {
    OnlyWriteAndTake(s, t, a, dflt);
    hide RefOk, Do;
    if a.Write? {
      WriteKeepsRef(s, s.pcs[t].x, dflt, s', ref);
    } else if a.Take? {
      NewRef(s, s');
      if RefOk(s, ref) {
        TakeKeepsRef(s, s', ref);
      }
    } else {
      SameRef(s, s', ref);
    }
  }

  lemma SameRef<T>(s: State<T>, s': State<T>, ref: Ref<T>)
    requires RefOk(s, ref) && s'.ring == s.ring && s'.pushed == s.pushed && s'.pulled == s.pulled
    ensures RefOk(s', ref)
  {
  }

  lemma {:induction false} RunKeepsInv<T>(ss: seq<State<T>>, es: seq<Event<T>>, dflt: T, n: nat)
    requires Execution(ss, es, dflt) && n < |ss|
    ensures Inv(ss[n])
  {
    if n > 0 {
      RunKeepsInv(ss, es, dflt, n - 1);
      assert StepAt(ss, es, n - 1, dflt);
      StepKeepsLock(ss[n - 1], es[n - 1].t, es[n - 1].a, dflt);
      StepKeepsFifo(ss[n - 1], es[n - 1].t, es[n - 1].a, dflt);
      StepKeepsSignals(ss[n - 1], es[n - 1].t, es[n - 1].a, dflt);
      StepKeepsRefs(ss[n - 1], es[n - 1].t, es[n - 1].a, dflt);
    }
  }

  // --- What it gives ---------------------------------------------------------------------------------

  /** Over every interleaving the queue is one FIFO: what has been taken, by whichever threads, is
      a prefix of what has been written, and the ring holds the rest in order. */
  lemma ConcurrentFifo<T>(ss: seq<State<T>>, es: seq<Event<T>>, dflt: T, n: nat)
    requires Execution(ss, es, dflt) && n < |ss|
    ensures Valid(ss[n].ring) && ss[n].pushed == ss[n].pulled + View(ss[n].ring)
    ensures forall t, u ::
              0 <= t < |ss[n].pcs| && 0 <= u < |ss[n].pcs| && Holding(ss[n].pcs[t]) && Holding(ss[n].pcs[u]) ==>
                t == u
  {
    RunKeepsInv(ss, es, dflt, n);
  }

  /** No lost signal: while anyone sleeps, every element in the queue has a wake-up under way. */
  lemma NoLostSignal<T>(ss: seq<State<T>>, es: seq<Event<T>>, dflt: T, n: nat, t: nat)
    requires Execution(ss, es, dflt) && n < |ss| && t < |ss[n].pcs| && ss[n].pcs[t].Asleep?
    ensures ss[n].ring.curr <= Credits(ss[n].pcs)
  {
    RunKeepsInv(ss, es, dflt, n);
  }

  /** So a puller only stays asleep over an empty queue: once no push and no woken pull is under
      way, a sleeper means there is nothing to pull. */
  lemma SettledSleeperMeansEmpty<T>(ss: seq<State<T>>, es: seq<Event<T>>, dflt: T, n: nat, t: nat)
    requires Execution(ss, es, dflt) && n < |ss| && t < |ss[n].pcs| && ss[n].pcs[t].Asleep?
    requires forall u :: 0 <= u < |ss[n].pcs| ==> ss[n].pcs[u].Idle? || ss[n].pcs[u].Asleep?
    ensures Valid(ss[n].ring) && View(ss[n].ring) == [] && ss[n].pulled == ss[n].pushed
  {
    RunKeepsInv(ss, es, dflt, n);
    NoCredits(ss[n].pcs);
  }

  /** The reference that pull() returns, copied after the lock is gone: with c slots and n elements left
      by the pull, the caller finds what was pulled as long as fewer than c - n elements have been written
      since, by whichever threads; with the (c - n)-th it finds that one instead. */
  lemma CopyFindsPulled<T>(ss: seq<State<T>>, es: seq<Event<T>>, dflt: T, n: nat, t: nat)
    requires Execution(ss, es, dflt) && n < |es| && es[n].t == t && es[n].a == Copy
    ensures t < |ss[n].pcs| && ss[n].pcs[t].PullCopy?
    ensures ss[n + 1].copied == ss[n].copied + [Found(ss[n], ss[n].pcs[t].ref)]
    ensures var s, ref := ss[n], ss[n].pcs[t].ref;
            && ref.no < |s.pulled| && ref.written <= |s.pushed| && ref.left < ref.size
            && var writes := |s.pushed| - ref.written;
            && (writes < ref.size - ref.left ==> Found(s, ref) == Some(s.pulled[ref.no]))
            && (writes == ref.size - ref.left ==> Found(s, ref) == Some(s.pushed[|s.pushed| - 1]))
  {
    assert StepAt(ss, es, n, dflt);
    RunKeepsInv(ss, es, dflt, n);
  }
}
