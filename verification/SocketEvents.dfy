/** What the event loops make of their events (src/EPoll.cpp:79-99), over whole runs: every event that
    epoll_wait reports is handled, once and in order; a connection that accept gives is served; it is
    closed if it hangs up, and only then. */
module SocketEvents {
  import opened Options
  import opened SocketTable

  /** The loop whose action a is. */
  function LoopOf(a: Action): Option<nat> {
    match a
    case Wait(l, _) => Some(l)
    case End(l) => Some(l)
    case Accept(l, _) => Some(l)
    case Take(l) => Some(l)
    case Lock(l) => Some(l)
    case Work(l) => Some(l)
    case _ => None
  }

  lemma OtherLoopsStay(s: State, a: Action, l: nat)
    requires Enabled(s, a) && l < |s.loops|
    ensures |Do(s, a).loops| == |s.loops|
    ensures LoopOf(a) != Some(l) ==> Do(s, a).loops[l] == s.loops[l]
    ensures Do(s, a).master == s.master
  {
  }

  lemma {:induction false} SameLoops(ss: seq<State>, es: seq<Action>, n: nat)
    requires Execution(ss, es) && n < |ss|
    ensures |ss[n].loops| == |ss[0].loops| && ss[n].master == ss[0].master
  {
    if n > 0 {
      SameLoops(ss, es, n - 1);
      assert StepAt(ss, es, n - 1);
      if |ss[0].loops| > 0 {
        OtherLoopsStay(ss[n - 1], es[n - 1], 0);
      } else {
        NoLoops(ss[n - 1], es[n - 1]);
      }
    }
  }

  lemma NoLoops(s: State, a: Action)
    requires Enabled(s, a) && s.loops == []
    ensures Do(s, a).loops == [] && Do(s, a).master == s.master
  {
  }

  // --- Every event is handled, once and in order ------------------------------------------------------------

  /** What epoll_wait has reported to loop l. */
  function Reported(es: seq<Action>, l: nat): seq<Event> {
    if es == [] then []
    else
      var a := es[|es| - 1];
      Reported(es[..|es| - 1], l) + (if a.Wait? && a.l == l then a.events else [])
  }

  /** The events it has turned to: by accept those of the listening socket, by Take all others. */
  function Handled(ss: seq<State>, es: seq<Action>, l: nat): seq<Event>
    requires |ss| == |es| + 1
    decreases |es|
  {
    if es == [] then []
    else
      var a, s := es[|es| - 1], ss[|es| - 1];
      Handled(ss[..|es|], es[..|es| - 1], l)
      + (if (a == Take(l) || (a.Accept? && a.l == l)) && l < |s.loops| && s.loops[l].batch != []
         then [s.loops[l].batch[0]] else [])
  }

  lemma BatchStep(s: State, a: Action, l: nat)
    requires Enabled(s, a) && l < |s.loops|
    ensures |Do(s, a).loops| == |s.loops|
    ensures var batch, batch' := s.loops[l].batch, Do(s, a).loops[l].batch;
            if a.Wait? && a.l == l then batch == [] && batch' == a.events
            else if a == Take(l) || (a.Accept? && a.l == l) then batch != [] && batch == [batch[0]] + batch'
            else batch' == batch
  {
  }

  /** The events reported to a loop are those it has turned to, in their order, and those it has still to
      handle. */
  lemma {:induction false} EventsInOrder(ss: seq<State>, es: seq<Action>, l: nat)
    requires Execution(ss, es) && l < |ss[0].loops|
    ensures l < |ss[|es|].loops|
    ensures Reported(es, l) == Handled(ss, es, l) + ss[|es|].loops[l].batch
    decreases |es|
  {
    hide Do, Enabled;
    if es != [] {
      var n := |es| - 1;
      Shorter(ss, es);
      EventsInOrder(ss[..|es|], es[..n], l);
      assert StepAt(ss, es, n);
      BatchStep(ss[n], es[n], l);
    }
  }

  lemma Shorter(ss: seq<State>, es: seq<Action>)
    requires Execution(ss, es) && es != []
    ensures Execution(ss[..|es|], es[..|es| - 1])
  {
    hide Enabled, Do, Init;
    var ss', es' := ss[..|es|], es[..|es| - 1];
    forall i | 0 <= i < |es'| ensures StepAt(ss', es', i) {
      assert StepAt(ss, es, i);
    }
  }

  // --- A connection stays served until it hangs up ------------------------------------------------------------

  /** Whatever happens, a served connection stays served by its loop, unless that loop is in delSocket
      for it. */
  lemma StepKeepsServed(s: State, a: Action, l: nat, fd: nat)
    requires Inv(s) && Enabled(s, a) && l < |s.loops| && Served(s, l, fd)
    ensures Served(Do(s, a), l, fd) || (a == Work(l) && s.loops[l].pc == DelStore(fd))
  {
    match a {
      case Work(k) => assert LoopOk(s, k);
      case _ =>
    }
  }

  /** Loop l is on its way to close fd. */
  predicate Closing(pc: Pc, fd: nat) {
    pc == DelLock(fd) || pc == DelStore(fd) || pc == DelClose(fd)
  }

  /** It got there by a hang-up event of that connection. */
  lemma {:induction false} ClosingStarts(ss: seq<State>, es: seq<Action>, n: nat, l: nat, fd: nat) returns (i: nat)
    requires Execution(ss, es) && n < |ss| && l < |ss[n].loops| && Closing(ss[n].loops[l].pc, fd)
    ensures i < n && es[i] == Take(l) && l < |ss[i].loops|
    ensures ss[i].loops[l].batch != [] && ss[i].loops[l].batch[0] == Event(fd, true)
    ensures forall k :: i < k <= n ==> l < |ss[k].loops| && Closing(ss[k].loops[l].pc, fd)
    decreases n
  {
    if n > 0 {
      assert StepAt(ss, es, n - 1);
      SameLoops(ss, es, n);
      SameLoops(ss, es, n - 1);
      ClosingStep(ss[n - 1], es[n - 1], l, fd);
      if Closing(ss[n - 1].loops[l].pc, fd) {
        i := ClosingStarts(ss, es, n - 1, l, fd);
      } else {
        i := n - 1;
      }
    }
  }

  lemma ClosingStep(s: State, a: Action, l: nat, fd: nat)
    requires Enabled(s, a) && l < |s.loops| && l < |Do(s, a).loops| && Closing(Do(s, a).loops[l].pc, fd)
    ensures Closing(s.loops[l].pc, fd)
            || (a == Take(l) && s.loops[l].batch != [] && s.loops[l].batch[0] == Event(fd, true))
  {
  }

  /** A client is closed only because it hung up: if it goes with event n, then that is the close in
      delSocket of a loop that took a hang-up event of it before and has been on its way since. */
  lemma ClosedOnlyByHangUp(ss: seq<State>, es: seq<Action>, n: nat, fd: nat) returns (i: nat, l: nat)
    requires Execution(ss, es) && n < |es| && ss[n].os.IsClient(fd) && !ss[n + 1].os.IsClient(fd)
    ensures es[n] == Work(l) && l < |ss[n].loops| && ss[n].loops[l].pc == DelClose(fd)
    ensures i < n && es[i] == Take(l) && l < |ss[i].loops|
    ensures ss[i].loops[l].batch != [] && ss[i].loops[l].batch[0] == Event(fd, true)
    ensures forall k :: i < k <= n ==> l < |ss[k].loops| && Closing(ss[k].loops[l].pc, fd)
  {
    assert StepAt(ss, es, n);
    l := CloserOf(ss[n], es[n], fd);
    i := ClosingStarts(ss, es, n, l, fd);
  }

  lemma CloserOf(s: State, a: Action, fd: nat) returns (l: nat)
    requires Enabled(s, a) && s.os.IsClient(fd) && !Do(s, a).os.IsClient(fd)
    ensures a == Work(l) && l < |s.loops| && s.loops[l].pc == DelClose(fd)
  {
    assert a.Work?;
    l := a.l;
  }

  // --- What becomes of an event -----------------------------------------------------------------------------------

  /** A loop that has handled an event, and is idle again, has done what the event asks for. */
  predicate ClosesAt(ss: seq<State>, es: seq<Action>, k: nat, l: nat, fd: nat) {
    && k < |es| && |ss| == |es| + 1 && es[k] == Work(l) && l < |ss[k].loops| && ss[k].loops[l].pc == DelClose(fd)
    && fd in ss[k].os.open && fd !in ss[k + 1].os.open
  }

  /** A hang-up closes the connection. */
  lemma HangUpIsClosed(ss: seq<State>, es: seq<Action>, i: nat, j: nat, l: nat, fd: nat)
    requires Execution(ss, es) && i < |es| && i < j < |ss|
    requires es[i] == Take(l) && l < |ss[i].loops|
    requires ss[i].loops[l].batch != [] && ss[i].loops[l].batch[0] == Event(fd, true)
    requires l < |ss[j].loops| && ss[j].loops[l].pc == Idle
    ensures exists k: nat :: i < k < j && ClosesAt(ss, es, k, l, fd)
  {
    StillClosing(ss, es, i, j, l, fd);
  }

  lemma {:induction false} StillClosing(ss: seq<State>, es: seq<Action>, i: nat, j: nat, l: nat, fd: nat)
    requires Execution(ss, es) && i < |es| && i < j < |ss| && l < |ss[i].loops|
    requires es[i] == Take(l) && ss[i].loops[l].batch != [] && ss[i].loops[l].batch[0] == Event(fd, true)
    ensures l < |ss[j].loops|
    ensures Closing(ss[j].loops[l].pc, fd) || exists k: nat :: i < k < j && ClosesAt(ss, es, k, l, fd)
    decreases j
  {
    assert StepAt(ss, es, j - 1);
    SameLoops(ss, es, i);
    SameLoops(ss, es, j);
    SameLoops(ss, es, j - 1);
    if i < j - 1 {
      StillClosing(ss, es, i, j - 1, l, fd);
      if Closing(ss[j - 1].loops[l].pc, fd) {
        RunKeepsInv(ss, es, j - 1);
        assert LoopOk(ss[j - 1], l);
        OtherLoopsStay(ss[j - 1], es[j - 1], l);
        ClosingGoesOn(ss[j - 1], es[j - 1], l, fd);
        if !Closing(ss[j].loops[l].pc, fd) {
          assert ClosesAt(ss, es, j - 1, l, fd);
        }
      }
    }
  }

  lemma ClosingGoesOn(s: State, a: Action, l: nat, fd: nat)
    requires Inv(s) && Enabled(s, a) && l < |s.loops| && Closing(s.loops[l].pc, fd) && l < |Do(s, a).loops|
    ensures Closing(Do(s, a).loops[l].pc, fd)
            || (a == Work(l) && s.loops[l].pc == DelClose(fd) && fd in s.os.open && fd !in Do(s, a).os.open)
  {
    assert LoopOk(s, l);
  }

  predicate Adding(pc: Pc, fd: nat) {
    pc == AddLock(fd) || pc == AddCheck(fd) || pc == AddRegister(fd) || pc == AddStore(fd)
  }

  predicate ServedAt(ss: seq<State>, k: nat, l: nat, fd: nat) {
    k < |ss| && Served(ss[k], l, fd)
  }

  /** A connection that accept gives, other than descriptor 0, gets served by that loop. */
  lemma AcceptedIsServed(ss: seq<State>, es: seq<Action>, i: nat, j: nat, l: nat, fd: nat)
    requires Execution(ss, es) && i < |es| && i < j < |ss| && es[i] == Accept(l, Descriptor(fd)) && fd > 0
    requires l < |ss[j].loops| && ss[j].loops[l].pc == Idle
    ensures exists k: nat :: i < k <= j && ServedAt(ss, k, l, fd)
  {
    StillAdding(ss, es, i, j, l, fd);
  }

  lemma {:induction false} StillAdding(ss: seq<State>, es: seq<Action>, i: nat, j: nat, l: nat, fd: nat)
    requires Execution(ss, es) && i < |es| && i < j < |ss| && es[i] == Accept(l, Descriptor(fd)) && fd > 0
    ensures l < |ss[j].loops|
    ensures Adding(ss[j].loops[l].pc, fd) || exists k: nat :: i < k <= j && ServedAt(ss, k, l, fd)
    decreases j
  {
    assert StepAt(ss, es, j - 1) && StepAt(ss, es, i);
    SameLoops(ss, es, i);
    SameLoops(ss, es, j);
    SameLoops(ss, es, j - 1);
    if i < j - 1 {
      StillAdding(ss, es, i, j - 1, l, fd);
      if Adding(ss[j - 1].loops[l].pc, fd) {
        RunKeepsInv(ss, es, j - 1);
        RunKeepsInv(ss, es, j);
        AddingGoesOn(ss[j - 1], es[j - 1], l, fd);
        assert Adding(ss[j].loops[l].pc, fd) || ServedAt(ss, j, l, fd);
      }
    }
  }

  lemma AddingGoesOn(s: State, a: Action, l: nat, fd: nat)
    requires Inv(s) && Enabled(s, a) && l < |s.loops| && Adding(s.loops[l].pc, fd) && l < |Do(s, a).loops|
    requires Inv(Do(s, a))
    ensures Adding(Do(s, a).loops[l].pc, fd) || Served(Do(s, a), l, fd)
  {
    assert LoopOk(s, l) && FdOk(s, fd);
    OtherLoopsStay(s, a, l);
  }

  /** Nothing else happens: an event without a hang-up only leaves the batch, nobody waiting and
      descriptor 0 change no table, and a loop that stops, or whose accept has failed, is over. */
  lemma NothingElse(s: State, a: Action, l: nat)
    requires Enabled(s, a) && LoopOf(a) == Some(l)
    ensures a == End(l) ==> Do(s, a).loops[l].pc == Ended && Do(s, a).os == s.os && Do(s, a).vec == s.vec
    ensures a.Take? && !s.loops[l].batch[0].hangUp ==>
              Do(s, a) == s.(loops := s.loops[l := Loop(Idle, s.loops[l].batch[1..])])
    ensures a == Accept(l, Again) ==> Do(s, a) == s.(loops := s.loops[l := Loop(Idle, s.loops[l].batch[1..])])
    ensures a == Accept(l, Descriptor(0)) ==> Do(s, a).loops[l].pc == Idle && Do(s, a).vec == s.vec
    ensures a == Accept(l, Failed) ==> Do(s, a).loops[l].pc == Ended
  {
  }

  /** An idle loop takes what is next in its batch, and waits if there is nothing. */
  lemma IdleLoopGoesOn(s: State, l: nat, fd: nat)
    requires IdleAt(s, l) && (s.loops[l].batch == [] || s.loops[l].batch[0].fd != s.master ||  fd !in s.os.open)
    ensures if s.loops[l].batch == [] then Enabled(s, Wait(l, [])) && Enabled(s, End(l))
            else if s.loops[l].batch[0].fd == s.master then
              Enabled(s, Accept(l, Descriptor(fd))) && Enabled(s, Accept(l, Again)) && Enabled(s, Accept(l, Failed))
            else Enabled(s, Take(l))
  {
  }

  /** No loop is held up for ever by the mutex: whoever has an event in hand can go on, or the loop inside
      the lock can. */
  lemma NoDeadlock(ss: seq<State>, es: seq<Action>, n: nat, l: nat)
    requires Execution(ss, es) && n < |ss| && l < |ss[n].loops|
    requires ss[n].loops[l].pc != Idle && ss[n].loops[l].pc != Ended
    ensures Enabled(ss[n], Lock(l)) || exists k: nat :: ss[n].lock == Some(k) && Enabled(ss[n], Work(k))
  {
    var s := ss[n];
    RunKeepsInv(ss, es, n);
    assert LoopOk(s, l);
    if s.lock.Some? {
      var k := s.lock.value;
      assert LoopOk(s, k);
      assert Enabled(s, Work(k));
    }
  }

  /** A loop that is over stays over. */
  lemma {:induction false} OverIsOver(ss: seq<State>, es: seq<Action>, i: nat, j: nat, l: nat)
    requires Execution(ss, es) && i <= j < |ss| && l < |ss[i].loops| && ss[i].loops[l].pc == Ended
    ensures l < |ss[j].loops| && ss[j].loops[l] == ss[i].loops[l]
    decreases j
  {
    if i < j {
      OverIsOver(ss, es, i, j - 1, l);
      assert StepAt(ss, es, j - 1);
      OtherLoopsStay(ss[j - 1], es[j - 1], l);
    }
  }
}
