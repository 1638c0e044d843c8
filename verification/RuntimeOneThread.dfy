/** A scheduler with one thread serialises (the log schedulers, src/TCPServer.hpp:112 and
    src/Logs.hpp:10): the coroutines that await it as their last suspension run from there on one at a
    time, in the order of enqueueing. */
module RuntimeOneThread {
  import opened Options
  import opened Runtime
  import opened RuntimeInvariant
  import opened RuntimeSafety

  /** A coroutine that has awaited scheduler q never suspends again.  What it did before, and who
      awaits it, is free. */
  predicate OnceOnly(s: State, t: nat, a: Act, q: nat)
    requires Enabled(s, t, a)
  {
    a.AwaitScheduler? || a.AwaitTask? ==> s.co[Top(s, t)].sched != Some(q)
  }

  ghost predicate OnceOnlyAt(ss: seq<State>, es: seq<Event>, i: nat, q: nat)
    requires |ss| == |es| + 1 && i < |es|
  {
    Enabled(ss[i], es[i].t, es[i].a) && OnceOnly(ss[i], es[i].t, es[i].a, q)
  }

  ghost predicate OnceOnlyRun(ss: seq<State>, es: seq<Event>, q: nat) {
    Execution(ss, es) && forall i :: 0 <= i < |es| ==> OnceOnlyAt(ss, es, i, q)
  }

  predicate OnlyWorker(s: State, q: nat, w: nat) {
    && q < |s.ready| && w < |s.threads| && s.threads[w].home == Worker(q)
    && forall t :: 0 <= t < |s.threads| && s.threads[t].home == Worker(q) ==> t == w
  }

  // --- The invariant --------------------------------------------------------------------------------

  /** Coroutine c has awaited q and is enqueued there, or has been. */
  predicate Enqueued(s: State, q: nat, c: nat)
    requires c < |s.co|
  {
    s.co[c].sched == Some(q) && !s.co[c].pc.Enqueue?
  }

  /** It awaits no task, and it is in the queue's history. */
  ghost predicate Single(s: State, q: nat, c: nat)
    requires c < |s.co| && q < |s.ready|
  {
    && (s.co[c].sched == Some(q) ==> Target(s.co[c].pc) == None)
    && (Enqueued(s, q, c) ==> H(c) in s.ready[q].items)
  }

  /** Place k of the queue's history is the one that such a coroutine got when it awaited q: the last
      it ever got.  (An earlier one can come from a task of q that released it.) */
  predicate Turn(s: State, q: nat, k: nat) {
    && q < |s.ready| && k < |s.ready[q].items| && s.ready[q].items[k].H? && s.ready[q].items[k].c < |s.co|
    && Enqueued(s, q, s.ready[q].items[k].c)
    && s.ready[q].items[k] !in s.ready[q].items[k + 1..]
  }

  /** Once pulled, the coroutine is with the worker until it is gone, and only the last one pulled can
      still be there. */
  predicate InTurn(s: State, q: nat, w: nat, k: nat) {
    Turn(s, q, k) && k < s.ready[q].head ==>
      var p := s.co[s.ready[q].items[k].c].place;
      p == Leaked(q) || p == Destroyed || (k == s.ready[q].head - 1 && (p == Held(w) || p == OnThread(w, 0)))
  }

  predicate Known(s: State, q: nat, k: nat) {
    q < |s.ready| && k < |s.ready[q].items| && s.ready[q].items[k].H? ==> s.ready[q].items[k].c < |s.co|
  }

  ghost predicate Serial(s: State, q: nat, w: nat) {
    && OnlyWorker(s, q, w)
    && (forall k: nat :: Known(s, q, k))
    && (forall c :: 0 <= c < |s.co| ==> Single(s, q, c))
    && (forall k: nat :: InTurn(s, q, w, k))
  }

  /** How the queue of q moves: a pull by its only worker, or a push. */
  ghost predicate QueueStep(s: State, t: nat, a: Act, s': State, q: nat, w: nat)
    requires OnlyWorker(s, q, w)
  {
    q < |s'.ready| &&
    var r, r' := s.ready[q], s'.ready[q];
    && (a.PushSelf? && Executing(s, t) && s.co[Top(s, t)].pc == Enqueue(q) ==>
          r' == r.(items := r.items + [H(Top(s, t))]))
    && (|| r' == r
        || (r'.head == r.head && |r'.items| == |r.items| + 1 && r'.items[..|r.items|] == r.items
            && (r'.items[|r.items|].H? ==> r'.items[|r.items|].c < |s'.co|))
        || (s.threads[w].loop == AtPull && r.head < |r.items| && r' == r.(head := r.head + 1)
            && (r.items[r.head].H? ==>
                  r.items[r.head].c < |s'.co| && s'.co[r.items[r.head].c].place == Held(w))))
  }

  lemma PullMovesQueue(s: State, t: nat, q: nat, w: nat)
    requires Inv(s) && Enabled(s, t, LoopPull) && OnlyWorker(s, q, w)
    ensures QueueStep(s, t, LoopPull, DoPull(s, t), q, w)
  {
    assert ThreadOk(s, t);
    var r := s.ready[s.threads[t].home.q];
    if r.items[r.head].H? {
      AboutHandle(s, InQueue(s.threads[t].home.q, r.head));
    }
  }

  lemma ReleaseMovesQueue(s: State, t: nat, q: nat, w: nat)
    requires Inv(s) && Enabled(s, t, ReleaseOne) && OnlyWorker(s, q, w)
    ensures QueueStep(s, t, ReleaseOne, DoRelease(s, t), q, w)
  {
    AboutTop(s, t);
    AboutHandle(s, InOthers(Top(s, t), s.co[Top(s, t)].iter));
  }

  lemma StepMovesQueue(s: State, t: nat, a: Act, s': State, q: nat, w: nat)
    requires Inv(s) && Step(s, t, a, s') && OnlyWorker(s, q, w)
    ensures QueueStep(s, t, a, s', q, w)
  {
    hide Inv;
    if a.LoopPull? {
      PullMovesQueue(s, t, q, w);
    } else if a.ReleaseOne? {
      ReleaseMovesQueue(s, t, q, w);
    }
  }

  lemma StepKeepsSingle(s: State, t: nat, a: Act, s': State, q: nat, w: nat, c: nat)
    requires Inv(s) && Enabled(s, t, a) && OnceOnly(s, t, a, q) && Serial(s, q, w) && c < |s.co| <= |s'.co|
    requires Evolves(s, t, a, s', c) && QueueStep(s, t, a, s', q, w)
    ensures Single(s', q, c)
  {
    assert Single(s, q, c) && OwnOk(s, c);
    var items, items' := s.ready[q].items, s'.ready[q].items;
    assert items'[..|items|] == items;
    assert H(c) in items ==> H(c) in items'[..|items|];
  }

  /** While its only worker pulls, everything pulled from q before is gone. */
  lemma PullerIsFree(s: State, q: nat, w: nat, k: nat)
    requires Inv(s) && Serial(s, q, w) && s.threads[w].loop == AtPull
    requires Turn(s, q, k) && k < s.ready[q].head
    ensures Lost(s.co[s.ready[q].items[k].c].place)
  {
    assert InTurn(s, q, w, k) && Located(s, s.ready[q].items[k].c) && ThreadOk(s, w);
  }

  /** A turn is there from the moment its coroutine pushes itself. */
  lemma TurnIsOld(s: State, t: nat, a: Act, s': State, q: nat, w: nat, k: nat)
    requires Inv(s) && Serial(s, q, w) && QueueStep(s, t, a, s', q, w) && |s.co| <= |s'.co|
    requires Turn(s', q, k) && k < |s.ready[q].items|
    requires s.ready[q].items[k].c < |s.co| && Evolves(s, t, a, s', s.ready[q].items[k].c)
    ensures Turn(s, q, k) && s'.ready[q].items[k] == s.ready[q].items[k]
  {
    var items, items', h := s.ready[q].items, s'.ready[q].items, s.ready[q].items[k];
    assert items'[..|items|] == items;
    forall j | k < j < |items| ensures items[j] != h {
      assert items'[k + 1..][j - (k + 1)] == items'[j] == items[j];
    }
    assert OwnOk(s, h.c);
    assert |items'| > |items| ==> items'[|items|] == items'[k + 1..][|items| - (k + 1)];
  }

  lemma StepKeepsTurn(s: State, t: nat, a: Act, s': State, q: nat, w: nat, k: nat)
    requires Inv(s) && Serial(s, q, w) && QueueStep(s, t, a, s', q, w)
    requires |s.co| <= |s'.co| && forall c :: 0 <= c < |s.co| ==> Evolves(s, t, a, s', c)
    ensures InTurn(s', q, w, k)
  {
    assert QueuesOk(s);
    hide Inv;
    if Turn(s', q, k) && k < s'.ready[q].head {
      var h := s.ready[q].items[k];
      assert Known(s, q, k);
      assert Evolves(s, t, a, s', h.c);
      TurnIsOld(s, t, a, s', q, w, k);
      assert InTurn(s, q, w, k) && Single(s, q, h.c);
      if k < s.ready[q].head && s.threads[w].loop == AtPull {
        PullerIsFree(s, q, w, k);
      }
    }
  }

  lemma StepEvolvesAll(s: State, t: nat, a: Act, s': State)
    requires Inv(s) && Step(s, t, a, s')
    ensures |s.co| <= |s'.co| && forall c :: 0 <= c < |s.co| ==> Evolves(s, t, a, s', c)
  {
    hide Inv, Enabled, Do, Evolves;
    StepShape(s, t, a, s');
    forall c | 0 <= c < |s.co| ensures Evolves(s, t, a, s', c) {
      StepEvolves(s, t, a, s', c);
    }
  }

  lemma StepKeepsKnown(s: State, t: nat, a: Act, s': State, q: nat, w: nat, k: nat)
    requires Serial(s, q, w) && QueueStep(s, t, a, s', q, w) && |s.co| <= |s'.co|
    ensures Known(s', q, k)
  {
    assert Known(s, q, k);
    assert s'.ready[q].items[..|s.ready[q].items|] == s.ready[q].items;
  }

  lemma StepKeepsSerial(s: State, t: nat, a: Act, s': State, q: nat, w: nat)
    requires Inv(s) && Step(s, t, a, s') && OnceOnly(s, t, a, q) && Serial(s, q, w)
    ensures Serial(s', q, w)
  {
    hide Inv, Enabled, Do, Evolves, QueueStep, Single, InTurn, Known, OnceOnly;
    StepShape(s, t, a, s');
    StepEvolvesAll(s, t, a, s');
    StepMovesQueue(s, t, a, s', q, w);
    forall c | 0 <= c < |s'.co| ensures Single(s', q, c) {
      if c < |s.co| {
        StepKeepsSingle(s, t, a, s', q, w, c);
      } else {
        NewIsSingle(s, t, a, s', q);
      }
    }
    forall k: nat ensures InTurn(s', q, w, k) && Known(s', q, k) {
      StepKeepsTurn(s, t, a, s', q, w, k);
      StepKeepsKnown(s, t, a, s', q, w, k);
    }
  }

  lemma NewIsSingle(s: State, t: nat, a: Act, s': State, q: nat)
    requires Step(s, t, a, s') && a.Call? && q < |s.ready|
    ensures |s'.ready| == |s.ready| && |s'.co| == |s.co| + 1 && Single(s', q, |s.co|)
  {
  }

  lemma {:induction false} RunKeepsSerial(ss: seq<State>, es: seq<Event>, n: nat, q: nat, w: nat)
    requires OnceOnlyRun(ss, es, q) && OnlyWorker(ss[0], q, w) && n < |ss|
    ensures Inv(ss[n]) && Serial(ss[n], q, w)
  {
    RunKeepsInv(ss, es, n);
    if n > 0 {
      RunKeepsSerial(ss, es, n - 1, q, w);
      assert StepAt(ss, es, n - 1) && OnceOnlyAt(ss, es, n - 1, q);
      var e := es[n - 1];
      StepKeepsSerial(ss[n - 1], e.t, e.a, ss[n], q, w);
    }
  }

  // --- Serialisation -----------------------------------------------------------------------------------

  lemma {:induction false} LastPlace(items: seq<Handle>, h: Handle) returns (k: nat)
    requires h in items
    ensures k < |items| && items[k] == h && h !in items[k + 1..]
  {
    var n := |items| - 1;
    if items[n] == h {
      k := n;
    } else {
      assert items == items[..n] + [items[n]];
      k := LastPlace(items[..n], h);
      assert items[k + 1..] == items[..n][k + 1..] + [items[n]];
    }
  }

  /** Every coroutine that has awaited q, and pushed itself, has a turn there, */
  lemma EveryoneHasATurn(ss: seq<State>, es: seq<Event>, n: nat, q: nat, w: nat, c: nat) returns (k: nat)
    requires OnceOnlyRun(ss, es, q) && OnlyWorker(ss[0], q, w) && n < |ss|
    requires c < |ss[n].co| && Enqueued(ss[n], q, c)
    ensures Turn(ss[n], q, k) && ss[n].ready[q].items[k] == H(c)
  {
    RunKeepsSerial(ss, es, n, q, w);
    assert Single(ss[n], q, c);
    k := LastPlace(ss[n].ready[q].items, H(c));
  }

  /** and while the one-thread scheduler q runs, the turns are taken in order: all that were pulled
      before the last pull have run to their end; the last one pulled is with the worker, or has ended
      too; and the rest still wait in the queue.  So no two of them run at once. */
  lemma OneThreadSerialises(ss: seq<State>, es: seq<Event>, n: nat, q: nat, w: nat, k: nat)
    requires OnceOnlyRun(ss, es, q) && OnlyWorker(ss[0], q, w) && n < |ss|
    requires q < |ss[n].ready| && q < |ss[n].running| && ss[n].running[q] && Turn(ss[n], q, k)
    ensures var s, r := ss[n], ss[n].ready[q];
            var c := r.items[k].c;
            && (k < r.head - 1 ==> s.co[c].pc == Gone)
            && (k == r.head - 1 ==> s.co[c].pc == Gone || s.co[c].place == Held(w) || s.co[c].place == OnThread(w, 0))
            && (r.head <= k ==> s.co[c].place == InQueue(q, k))
  {
    var s := ss[n];
    RunKeepsSerial(ss, es, n, q, w);
    assert InTurn(s, q, w, k);
    var c := s.ready[q].items[k].c;
    assert OwnOk(s, c) && OwnerOk(s, c);
    if s.ready[q].head <= k {
      AboutHandle(s, InQueue(q, k));
    }
  }
}
