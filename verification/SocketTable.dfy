/** The socket table that the event loops share (src/EPoll.cpp:82-97, 120-143): a vector indexed by
    descriptor number under one mutex, while the operating system hands out the same numbers again. */
module SocketTable {
  import opened Options

  const CLOSED := 0
  const OPEN := 1

  // --- The table and the operating system's side --------------------------------------------------------

  /** resize: the vector grows with zeros as far as fd needs. */
  function Grown(vec: seq<int>, fd: nat): seq<int> {
    if fd >= |vec| then vec + seq(fd + 1 - |vec|, _ => CLOSED) else vec
  }

  predicate IsOpen(vec: seq<int>, fd: nat) {
    fd < |vec| && vec[fd] == OPEN
  }

  /** What a descriptor stands for, if it is open. */
  datatype Kind = Client | Other

  /** The operating system's tables: open descriptors, and the epolls each is registered with. */
  datatype Os = Os(open: map<nat, Kind>, reg: map<nat, set<nat>>) {
    function Regs(fd: nat): set<nat> {
      if fd in reg then reg[fd] else {}
    }

    predicate IsClient(fd: nat) {
      fd in open && open[fd] == Client
    }

    /** A descriptor number that is not in use is handed out. */
    function Opened(fd: nat, k: Kind): Os {
      this.(open := open[fd := k])
    }

    /** epoll_ctl with EPOLL_CTL_ADD, whose result the caller ignores. */
    function Added(epoll: nat, fd: nat): Os {
      if fd in open then this.(reg := reg[fd := Regs(fd) + {epoll}]) else this
    }

    /** close ends the registrations too. */
    function ClosedAt(fd: nat): Os {
      Os(open - {fd}, reg - {fd})
    }
  }

  // --- The event loops as a step machine --------------------------------------------------------------------

  datatype Event = Event(fd: nat, hangUp: bool)

  /** Where a loop stands.  Idle: between two events, or in epoll_wait if none is left. */
  datatype Pc =
    | Idle
    | AddLock(fd: nat)      // accepted fd, before m_.lock()
    | AddCheck(fd: nat)     // in addSocket: resize and check
    | AddRegister(fd: nat)  // epoll_ctl
    | AddStore(fd: nat)     // socket_vec_[fd] = Open
    | DelLock(fd: nat)      // hang-up of fd, before m_.lock()
    | DelStore(fd: nat)     // in delSocket: check and socket_vec_[fd] = Closed
    | DelClose(fd: nat)     // close(fd)
    | Release               // before m_.unlock()
    | Ended                 // stopped, or accept failed
    | Thrown                // addSocket or delSocket has thrown

  predicate Critical(pc: Pc) {
    pc.AddCheck? || pc.AddRegister? || pc.AddStore? || pc.DelStore? || pc.DelClose? || pc.Release?
  }

  datatype Loop = Loop(pc: Pc, batch: seq<Event>)

  datatype State = State(vec: seq<int>, os: Os, lock: Option<nat>, loops: seq<Loop>, master: nat) {
    function At(l: nat, pc: Pc): State
      requires l < |loops|
    {
      this.(loops := loops[l := loops[l].(pc := pc)])
    }
  }

  /** What accept may do: give a descriptor, find nobody waiting, or fail. */
  datatype Accepted = Descriptor(fd: nat) | Again | Failed

  datatype Action =
    | Wait(l: nat, events: seq<Event>)
    | End(l: nat)
    | Accept(l: nat, outcome: Accepted)
    | Take(l: nat)
    | Lock(l: nat)
    | Work(l: nat)
    | OpenOther(fd: nat)
    | CloseOther(fd: nat)

  predicate DistinctEvents(es: seq<Event>) {
    forall i, j :: 0 <= i < j < |es| ==> es[i].fd != es[j].fd
  }

  predicate IdleAt(s: State, l: nat) {
    l < |s.loops| && s.loops[l].pc == Idle
  }

  /** epoll_wait reports each descriptor at most once, and only registered ones; accept gives a number
      that is not in use; the rest of the program opens and closes descriptors of its own. */
  predicate Enabled(s: State, a: Action) {
    match a
    case Wait(l, es) =>
      && IdleAt(s, l) && s.loops[l].batch == [] && |es| <= 20 && DistinctEvents(es)
      && forall i :: 0 <= i < |es| ==> l in s.os.Regs(es[i].fd)
    case End(l) => IdleAt(s, l) && s.loops[l].batch == []
    case Accept(l, outcome) =>
      && IdleAt(s, l) && s.loops[l].batch != [] && s.loops[l].batch[0].fd == s.master
      && (outcome.Descriptor? ==> outcome.fd !in s.os.open)
    case Take(l) => IdleAt(s, l) && s.loops[l].batch != [] && s.loops[l].batch[0].fd != s.master
    case Lock(l) => l < |s.loops| && s.lock == None && (s.loops[l].pc.AddLock? || s.loops[l].pc.DelLock?)
    case Work(l) => l < |s.loops| && Critical(s.loops[l].pc)
    case OpenOther(fd) => fd !in s.os.open
    case CloseOther(fd) => fd in s.os.open && s.os.open[fd] == Other && fd != s.master
  }

  /** One step inside the lock. */
  function DoWork(s: State, l: nat): State
    requires Enabled(s, Work(l))
  {
    match s.loops[l].pc
    case AddCheck(fd) =>
      var vec := Grown(s.vec, fd);
      s.(vec := vec).At(l, if vec[fd] != 0 then Thrown else AddRegister(fd))
    case AddRegister(fd) => s.(os := s.os.Added(l, fd)).At(l, AddStore(fd))
    case AddStore(fd) =>
      (if fd < |s.vec| then s.(vec := s.vec[fd := OPEN]) else s).At(l, Release)
    case DelStore(fd) =>
      if fd >= |s.vec| then s.At(l, Thrown) else s.(vec := s.vec[fd := CLOSED]).At(l, DelClose(fd))
    case DelClose(fd) => s.(os := s.os.ClosedAt(fd)).At(l, Release)
    case Release => s.(lock := None).At(l, Idle)
  }

  function Do(s: State, a: Action): State
    requires Enabled(s, a)
  {
    match a
    case Wait(l, es) => s.(loops := s.loops[l := Loop(Idle, es)])
    case End(l) => s.At(l, Ended)
    case Accept(l, outcome) =>
      var rest := s.loops[l].batch[1..];
      (match outcome
       case Descriptor(fd) =>
         s.(os := s.os.Opened(fd, Client), loops := s.loops[l := Loop(if fd > 0 then AddLock(fd) else Idle, rest)])
       case Again => s.(loops := s.loops[l := Loop(Idle, rest)])
       case Failed => s.(loops := s.loops[l := Loop(Ended, rest)]))
    case Take(l) =>
      var e := s.loops[l].batch[0];
      s.(loops := s.loops[l := Loop(if e.hangUp then DelLock(e.fd) else Idle, s.loops[l].batch[1..])])
    case Lock(l) =>
      var pc := s.loops[l].pc;
      s.(lock := Some(l)).At(l, if pc.AddLock? then AddCheck(pc.fd) else DelStore(pc.fd))
    case Work(l) => DoWork(s, l)
    case OpenOther(fd) => s.(os := s.os.Opened(fd, Other))
    case CloseOther(fd) => s.(os := s.os.ClosedAt(fd))
  }

  /** Any number of loops, each with the listening socket registered; an empty table; whatever other
      descriptors the process has. */
  predicate Init(s: State) {
    && s.vec == [] && s.lock == None
    && (forall l :: 0 <= l < |s.loops| ==> s.loops[l] == Loop(Idle, []))
    && s.master in s.os.open && (forall fd :: fd in s.os.open ==> s.os.open[fd] == Other)
    && (forall fd :: fd in s.os.reg ==> fd in s.os.open && (fd != s.master ==> s.os.reg[fd] == {}))
  }

  predicate StepAt(ss: seq<State>, es: seq<Action>, i: nat)
    requires |ss| == |es| + 1 && i < |es|
  {
    Enabled(ss[i], es[i]) && ss[i + 1] == Do(ss[i], es[i])
  }

  /** A run: any interleaving of the loops' actions and of what else happens to descriptors. */
  ghost predicate Execution(ss: seq<State>, es: seq<Action>) {
    && |ss| == |es| + 1
    && Init(ss[0])
    && forall i :: 0 <= i < |es| ==> StepAt(ss, es, i)
  }

  // --- The invariant -------------------------------------------------------------------------------------------

  /** A client registered with exactly epoll l. */
  predicate ClientOf(s: State, l: nat, fd: nat) {
    s.os.IsClient(fd) && fd != 0 && fd != s.master && s.os.Regs(fd) == {l}
  }

  /** The normal state of a connection: in the table, and a client of l. */
  predicate Served(s: State, l: nat, fd: nat) {
    ClientOf(s, l, fd) && IsOpen(s.vec, fd)
  }

  /** A client that is on its way into the table. */
  predicate Arriving(s: State, fd: nat) {
    s.os.IsClient(fd) && fd != 0 && fd != s.master && s.os.Regs(fd) == {} && !IsOpen(s.vec, fd)
  }

  predicate HasClosedEntry(s: State, fd: nat) {
    fd < |s.vec| && s.vec[fd] == CLOSED
  }

  predicate PcOk(s: State, l: nat, pc: Pc) {
    match pc
    case AddLock(fd) => Arriving(s, fd)
    case AddCheck(fd) => Arriving(s, fd)
    case AddRegister(fd) => Arriving(s, fd) && HasClosedEntry(s, fd)
    case AddStore(fd) => ClientOf(s, l, fd) && HasClosedEntry(s, fd)
    case DelLock(fd) => Served(s, l, fd)
    case DelStore(fd) => Served(s, l, fd)
    case DelClose(fd) => ClientOf(s, l, fd) && HasClosedEntry(s, fd)
    case Thrown => false
    case _ => true
  }

  /** An event still to be handled is about a connection of this loop that nobody is closing. */
  predicate EventOk(s: State, l: nat, e: Event)
    requires l < |s.loops|
  {
    e.fd == s.master || (Served(s, l, e.fd) && Fd(s.loops[l].pc) != Some(e.fd))
  }

  function Fd(pc: Pc): Option<nat> {
    match pc
    case AddLock(fd) => Some(fd)
    case AddCheck(fd) => Some(fd)
    case AddRegister(fd) => Some(fd)
    case AddStore(fd) => Some(fd)
    case DelLock(fd) => Some(fd)
    case DelStore(fd) => Some(fd)
    case DelClose(fd) => Some(fd)
    case _ => None
  }

  predicate LoopOk(s: State, l: nat)
    requires l < |s.loops|
  {
    && PcOk(s, l, s.loops[l].pc)
    && (Critical(s.loops[l].pc) <==> s.lock == Some(l))
    && DistinctEvents(s.loops[l].batch)
    && forall i :: 0 <= i < |s.loops[l].batch| ==> EventOk(s, l, s.loops[l].batch[i])
  }

  /** Loop l has the client fd in hand: it is not in the table yet, or not any more. */
  predicate InHand(s: State, l: nat, fd: nat) {
    l < |s.loops| && Fd(s.loops[l].pc) == Some(fd) && !s.loops[l].pc.DelLock? && !s.loops[l].pc.DelStore?
  }

  ghost predicate FdOk(s: State, fd: nat) {
    && (IsOpen(s.vec, fd) ==> exists l: nat :: l < |s.loops| && Served(s, l, fd))
    && (s.os.IsClient(fd) && fd != 0 && !IsOpen(s.vec, fd) ==> exists l: nat :: InHand(s, l, fd))
    && (fd < |s.vec| ==> s.vec[fd] == OPEN || s.vec[fd] == CLOSED)
    && ((if s.os.IsClient(fd) then fd == 0 else fd != s.master) ==> s.os.Regs(fd) == {})
  }

  ghost predicate Inv(s: State) {
    && s.master in s.os.open && s.os.open[s.master] == Other
    && (s.lock.Some? ==> s.lock.value < |s.loops|)
    && (forall l: nat :: l < |s.loops| ==> LoopOk(s, l))
    && (forall fd: nat :: FdOk(s, fd))
    && (forall l: nat, l': nat, fd: nat :: InHand(s, l, fd) && InHand(s, l', fd) ==> l == l')
  }

  lemma InitInv(s: State)
    requires Init(s)
    ensures Inv(s)
  {
  }

  /** Whether two states agree on a descriptor, but for an entry with a zero. */
  predicate Agree(s: State, s': State, fd: nat) {
    && (fd in s'.os.open <==> fd in s.os.open) && (fd in s.os.open ==> s'.os.open[fd] == s.os.open[fd])
    && s'.os.Regs(fd) == s.os.Regs(fd)
    && IsOpen(s'.vec, fd) == IsOpen(s.vec, fd) && (HasClosedEntry(s, fd) ==> HasClosedEntry(s', fd))
    && (fd < |s'.vec| ==> IsOpen(s'.vec, fd) || HasClosedEntry(s', fd))
  }

  /** A step of loop l, or of none, that touches descriptor f only. */
  ghost predicate Touches(s: State, s': State, l: nat, f: nat) {
    && s'.master == s.master != f && |s'.loops| == |s.loops|
    && (|| s'.lock == s.lock || (s.lock == Some(l) && s'.lock == None)
        || (s.lock == None && s'.lock == Some(l) && l < |s.loops|))
    && (forall k: nat :: k < |s.loops| && k != l ==> s'.loops[k] == s.loops[k])
    && (forall fd: nat :: fd != f ==> Agree(s, s', fd))
  }

  /** The loops other than l have nothing to do with f. */
  predicate MineOnly(s: State, l: nat, f: nat) {
    InHand(s, l, f) || ClientOf(s, l, f) || !s.os.IsClient(f)
  }

  /** So they do not notice the step. */
  lemma OtherLoop(s: State, s': State, l: nat, k: nat, f: nat)
    requires Inv(s) && Touches(s, s', l, f) && (MineOnly(s, l, f) || Agree(s, s', f))
    requires k < |s.loops| && k != l
    ensures LoopOk(s', k)
  {
    assert LoopOk(s, k) && (l < |s.loops| ==> LoopOk(s, l));
    var lp := s.loops[k];
    match Fd(lp.pc) {
      case None =>
      case Some(fd) =>
        assert fd != f ==> Agree(s, s', fd);
        assert InHand(s, l, f) && InHand(s, k, f) ==> k == l;
    }
    forall i | 0 <= i < |lp.batch| ensures EventOk(s', k, lp.batch[i]) {
      assert EventOk(s, k, lp.batch[i]);
      assert lp.batch[i].fd != f ==> Agree(s, s', lp.batch[i].fd);
    }
  }

  /** Nor is anything lost about the other descriptors. */
  lemma OtherFd(s: State, s': State, l: nat, f: nat, fd: nat)
    requires Inv(s) && Touches(s, s', l, f) && Agree(s, s', fd)
    requires InHand(s, l, fd) ==> InHand(s', l, fd)
    ensures FdOk(s', fd)
  {
    assert FdOk(s, fd);
    if IsOpen(s.vec, fd) {
      var k: nat :| k < |s.loops| && Served(s, k, fd);
      assert Served(s', k, fd);
    } else if s.os.IsClient(fd) && fd != 0 {
      var k: nat :| InHand(s, k, fd);
      assert InHand(s', k, fd);
    }
  }

  lemma StepInv(s: State, s': State, l: nat, f: nat)
    requires Inv(s) && Touches(s, s', l, f) && (MineOnly(s, l, f) || Agree(s, s', f))
    requires l < |s.loops| ==> LoopOk(s', l)
    requires FdOk(s', f)
    requires forall fd: nat :: fd != f ==> InHand(s', l, fd) == InHand(s, l, fd)
    requires InHand(s', l, f) ==> InHand(s, l, f) || !s.os.IsClient(f) || ClientOf(s, l, f)
    ensures Inv(s')
  {
    forall k: nat | k < |s.loops| ensures LoopOk(s', k) {
      if k != l {
        OtherLoop(s, s', l, k, f);
      }
    }
    forall fd: nat ensures FdOk(s', fd) {
      if fd != f {
        OtherFd(s, s', l, f, fd);
      }
    }
    assert Agree(s, s', s.master);
    forall j: nat, k: nat, fd: nat | InHand(s', j, fd) && InHand(s', k, fd) ensures j == k {
      assert j != l ==> InHand(s, j, fd) && LoopOk(s, j);
      assert k != l ==> InHand(s, k, fd) && LoopOk(s, k);
    }
  }

  /** A step that agrees on every descriptor. */
  lemma QuietInv(s: State, s': State, l: nat)
    requires Inv(s) && (forall fd: nat :: Agree(s, s', fd))
    requires Touches(s, s', l, s.master + 1)
    requires l < |s.loops| ==> LoopOk(s', l)
    requires forall fd: nat :: InHand(s', l, fd) == InHand(s, l, fd)
    ensures Inv(s')
  {
    var f := s.master + 1;
    assert Agree(s, s', f) && InHand(s', l, f) == InHand(s, l, f);
    OtherFd(s, s', l, f, f);
    StepInv(s, s', l, f);
  }

  lemma AllAgree(s: State, s': State, fd: nat)
    requires Inv(s) && s'.os == s.os && s'.vec == s.vec
    ensures Agree(s, s', fd)
  {
    assert FdOk(s, fd);
  }

  /** A step that changes only the place of one loop, and perhaps the lock. */
  lemma PlaceOnly(s: State, s': State, l: nat)
    requires Inv(s) && s'.os == s.os && s'.vec == s.vec && s'.master == s.master && |s'.loops| == |s.loops|
    requires s'.lock == s.lock || (s.lock == Some(l) && s'.lock == None) || (s.lock == None && s'.lock == Some(l))
    requires forall k: nat :: k < |s.loops| && k != l ==> s'.loops[k] == s.loops[k]
    requires l < |s.loops| && LoopOk(s', l)
    requires forall fd: nat :: InHand(s', l, fd) == InHand(s, l, fd)
    ensures Inv(s')
  {
    forall fd: nat ensures Agree(s, s', fd) {
      AllAgree(s, s', fd);
    }
    QuietInv(s, s', l);
  }

  lemma KeepWait(s: State, l: nat, es: seq<Event>)
    requires Inv(s) && Enabled(s, Wait(l, es))
    ensures Inv(Do(s, Wait(l, es)))
  {
    var s' := Do(s, Wait(l, es));
    assert LoopOk(s, l);
    forall i | 0 <= i < |es| ensures EventOk(s', l, es[i]) {
      if es[i].fd != s.master {
        RegisteredIsServed(s, l, es[i].fd);
      }
    }
    PlaceOnly(s, s', l);
  }

  /** An idle loop's registrations are its connections. */
  lemma RegisteredIsServed(s: State, l: nat, fd: nat)
    requires Inv(s) && IdleAt(s, l) && l in s.os.Regs(fd) && fd != s.master
    ensures Served(s, l, fd)
  {
    assert FdOk(s, fd);
    forall k: nat ensures !InHand(s, k, fd) {
      assert k < |s.loops| ==> LoopOk(s, k);
    }
  }

  lemma KeepTake(s: State, l: nat)
    requires Inv(s) && Enabled(s, Take(l))
    ensures Inv(Do(s, Take(l)))
  {
    var s' := Do(s, Take(l));
    assert LoopOk(s, l);
    assert EventOk(s, l, s.loops[l].batch[0]);
    forall i | 0 <= i < |s'.loops[l].batch| ensures EventOk(s', l, s'.loops[l].batch[i]) {
      assert EventOk(s, l, s.loops[l].batch[i + 1]);
    }
    PlaceOnly(s, s', l);
  }

  lemma KeepAccept(s: State, l: nat, outcome: Accepted)
    requires Inv(s) && Enabled(s, Accept(l, outcome))
    ensures Inv(Do(s, Accept(l, outcome)))
  {
    var s' := Do(s, Accept(l, outcome));
    assert LoopOk(s, l);
    var rest := s.loops[l].batch[1..];
    match outcome {
      case Descriptor(f) =>
        assert FdOk(s, f);
        forall fd: nat | fd != f ensures Agree(s, s', fd) {
          assert FdOk(s, fd);
        }
        forall i | 0 <= i < |rest| ensures EventOk(s', l, rest[i]) {
          assert EventOk(s, l, s.loops[l].batch[i + 1]);
        }
        assert f > 0 ==> InHand(s', l, f);
        StepInv(s, s', l, f);
      case _ =>
        forall i | 0 <= i < |rest| ensures EventOk(s', l, rest[i]) {
          assert EventOk(s, l, s.loops[l].batch[i + 1]);
        }
        PlaceOnly(s, s', l);
    }
  }

  lemma KeepLock(s: State, l: nat)
    requires Inv(s) && Enabled(s, Lock(l))
    ensures Inv(Do(s, Lock(l)))
  {
    var s' := Do(s, Lock(l));
    assert LoopOk(s, l);
    SameEvents(s, s', l);
    PlaceOnly(s, s', l);
  }

  /** The events of a loop stay as they are if nothing happens to their descriptors. */
  lemma SameEvents(s: State, s': State, l: nat)
    requires l < |s.loops| == |s'.loops| && LoopOk(s, l)
    requires s'.loops[l].batch == s.loops[l].batch && s'.master == s.master
    requires forall fd: nat :: Served(s, l, fd) && Fd(s.loops[l].pc) != Some(fd) ==>
               Served(s', l, fd) && Fd(s'.loops[l].pc) != Some(fd)
    ensures forall i :: 0 <= i < |s'.loops[l].batch| ==> EventOk(s', l, s'.loops[l].batch[i])
  {
    forall i | 0 <= i < |s'.loops[l].batch| ensures EventOk(s', l, s'.loops[l].batch[i]) {
      assert EventOk(s, l, s.loops[l].batch[i]);
    }
  }

  lemma KeepWork(s: State, l: nat)
    requires Inv(s) && Enabled(s, Work(l))
    ensures Inv(Do(s, Work(l)))
  {
    var s' := Do(s, Work(l));
    assert LoopOk(s, l);
    match s.loops[l].pc {
      case AddCheck(f) =>
        forall fd: nat ensures Agree(s, s', fd) {
          assert FdOk(s, fd);
        }
        assert FdOk(s, f);
        SameEvents(s, s', l);
        QuietInv(s, s', l);
      case AddRegister(f) => Touched(s, s', l, f);
      case AddStore(f) => Touched(s, s', l, f);
      case DelStore(f) => Touched(s, s', l, f);
      case DelClose(f) => Touched(s, s', l, f);
      case Release =>
        SameEvents(s, s', l);
        PlaceOnly(s, s', l);
    }
  }

  lemma Touched(s: State, s': State, l: nat, f: nat)
    requires Inv(s) && Enabled(s, Work(l)) && s' == Do(s, Work(l)) && Fd(s.loops[l].pc) == Some(f)
    requires !s.loops[l].pc.AddCheck?
    ensures Inv(s')
  {
    assert LoopOk(s, l);
    forall fd: nat | fd != f ensures Agree(s, s', fd) {
      assert FdOk(s, fd);
    }
    assert FdOk(s, f);
    SameEvents(s, s', l);
    assert InHand(s', l, f) || Served(s', l, f) || f !in s'.os.open;
    StepInv(s, s', l, f);
  }

  lemma KeepOther(s: State, a: Action)
    requires Inv(s) && Enabled(s, a) && (a.OpenOther? || a.CloseOther?)
    ensures Inv(Do(s, a))
  {
    var s' := Do(s, a);
    forall fd: nat | fd != a.fd ensures Agree(s, s', fd) {
      assert FdOk(s, fd);
    }
    assert FdOk(s, a.fd);
    StepInv(s, s', |s.loops|, a.fd);
  }

  lemma StepKeepsInv(s: State, a: Action)
    requires Inv(s) && Enabled(s, a)
    ensures Inv(Do(s, a))
  {
    match a
    case Wait(l, es) => KeepWait(s, l, es);
    case End(l) =>
      assert LoopOk(s, l);
      PlaceOnly(s, Do(s, a), l);
    case Accept(l, outcome) => KeepAccept(s, l, outcome);
    case Take(l) => KeepTake(s, l);
    case Lock(l) => KeepLock(s, l);
    case Work(l) => KeepWork(s, l);
    case OpenOther(_) => KeepOther(s, a);
    case CloseOther(_) => KeepOther(s, a);
  }

  lemma {:induction false} RunKeepsInv(ss: seq<State>, es: seq<Action>, n: nat)
    requires Execution(ss, es) && n < |ss|
    ensures Inv(ss[n])
  {
    if n == 0 {
      InitInv(ss[0]);
    } else {
      RunKeepsInv(ss, es, n - 1);
      assert StepAt(ss, es, n - 1);
      StepKeepsInv(ss[n - 1], es[n - 1]);
    }
  }

  // --- What holds in every run -----------------------------------------------------------------------------------

  /** Neither throw of addSocket and delSocket is ever reached: where addSocket looks, the entry is zero or
      beyond the vector, and where delSocket looks there is one.  And one loop at a time is inside the
      lock. */
  lemma NeverThrows(ss: seq<State>, es: seq<Action>, n: nat, l: nat)
    requires Execution(ss, es) && n < |ss| && l < |ss[n].loops|
    ensures match ss[n].loops[l].pc
            case AddCheck(fd) => fd < |ss[n].vec| ==> ss[n].vec[fd] == 0
            case DelStore(fd) => fd < |ss[n].vec|
            case Thrown => false
            case _ => true
    ensures Critical(ss[n].loops[l].pc) <==> ss[n].lock == Some(l)
  {
    RunKeepsInv(ss, es, n);
    assert LoopOk(ss[n], l);
    match ss[n].loops[l].pc {
      case AddCheck(fd) => assert FdOk(ss[n], fd);
      case _ =>
    }
  }

  /** An Open entry is an open client, registered with exactly one of the epolls; and a client that no
      loop is just adding or closing is in the table.  (Descriptor 0 is accepted, but never served.) */
  lemma TableIsTrue(ss: seq<State>, es: seq<Action>, n: nat, fd: nat)
    requires Execution(ss, es) && n < |ss|
    ensures var s := ss[n];
            && (IsOpen(s.vec, fd) ==> s.os.IsClient(fd) && fd != 0 && exists l :: l < |s.loops| && s.os.Regs(fd) == {l})
            && ((forall l: nat :: !InHand(s, l, fd)) ==> (IsOpen(s.vec, fd) <==> s.os.IsClient(fd) && fd != 0))
  {
    RunKeepsInv(ss, es, n);
    var s := ss[n];
    assert FdOk(s, fd);
    if IsOpen(s.vec, fd) {
      var l: nat :| l < |s.loops| && Served(s, l, fd);
      assert s.os.Regs(fd) == {l};
    }
  }

  /** The number of a closed connection may come back while the loop that closed it still holds the
      lock: the runs above include those in which another loop accepts it then. */
  lemma NumberComesBackInsideLock(s: State, l: nat, k: nat)
    requires Inv(s) && l < |s.loops| && s.loops[l].pc.DelClose?
    requires IdleAt(s, k) && s.loops[k].batch != [] && s.loops[k].batch[0].fd == s.master
    ensures var fd, s' := s.loops[l].pc.fd, Do(s, Work(l));
            && Enabled(s', Accept(k, Descriptor(fd)))
            && var s'' := Do(s', Accept(k, Descriptor(fd)));
               s''.lock == Some(l) && s''.loops[k].pc == AddLock(fd) && Inv(s'')
  {
    assert LoopOk(s, l);
    var fd, s' := s.loops[l].pc.fd, Do(s, Work(l));
    StepKeepsInv(s, Work(l));
    StepKeepsInv(s', Accept(k, Descriptor(fd)));
  }

  /** Such a run: two loops; the first serves descriptor 5, sees it hang up and closes it, and before it
      releases the lock the second is given 5 by accept. */
  lemma SomeRunComesBackInsideLock() returns (ss: seq<State>, es: seq<Action>)
    ensures Execution(ss, es)
    ensures var s := ss[|es|];
            s.lock == Some(0) && |s.loops| == 2 && s.loops[0].pc == Release && s.loops[1].pc == AddLock(5)
  {
    ss, es := RunHangsUp();
    ss, es := Extended(ss, es, Work(0));
    ss, es := Extended(ss, es, Accept(1, Descriptor(5)));
  }

  lemma Extended(ss: seq<State>, es: seq<Action>, a: Action) returns (ss': seq<State>, es': seq<Action>)
    requires Execution(ss, es) && Enabled(ss[|es|], a)
    ensures Execution(ss', es') && |es'| == |es| + 1 && ss'[|es'|] == Do(ss[|es|], a)
  {
    hide Enabled, Do, Init;
    ss', es' := ss + [Do(ss[|es|], a)], es + [a];
    forall i | 0 <= i < |es'| ensures StepAt(ss', es', i) {
      assert i < |es| ==> StepAt(ss, es, i);
    }
  }

  /** Loops 0 and 1 as given, listening socket 3, and 5 as a client of loop 0. */
  function Serving5(vec: seq<int>, lock: Option<nat>, loop0: Loop, loop1: Loop): State {
    State(vec, Os(map[3 := Other, 5 := Client], map[3 := {0, 1}, 5 := {0}]), lock, [loop0, loop1], 3)
  }

  lemma RunAccepts() returns (ss: seq<State>, es: seq<Action>)
    ensures Execution(ss, es)
    ensures ss[|es|] == State(Grown([], 5), Os(map[3 := Other, 5 := Client], map[3 := {0, 1}]), Some(0),
                                  [Loop(AddRegister(5), []), Loop(Idle, [])], 3)
  {
    var idle := Loop(Idle, []);
    ss, es := [State([], Os(map[3 := Other], map[3 := {0, 1}]), None, [idle, idle], 3)], [];
    ss, es := Extended(ss, es, Wait(0, [Event(3, false)]));
    ss, es := Extended(ss, es, Accept(0, Descriptor(5)));
    assert [Event(3, false)][1..] == [];
    assert ss[|es|].loops == [Loop(AddLock(5), []), idle];
    ss, es := Extended(ss, es, Lock(0));
    ss, es := Extended(ss, es, Work(0));
    assert ss[|es|].loops == [Loop(AddRegister(5), []), idle];
  }

  lemma RunServes() returns (ss: seq<State>, es: seq<Action>)
    ensures Execution(ss, es) && ss[|es|] == Serving5(Grown([], 5)[5 := OPEN], None, Loop(Idle, []), Loop(Idle, []))
  {
    ss, es := RunAccepts();
    ss, es := Extended(ss, es, Work(0));
    assert ss[|es|].loops == [Loop(AddStore(5), []), Loop(Idle, [])];
    assert {} + {0} == {0} && map[3 := {0, 1}][5 := {0}] == map[3 := {0, 1}, 5 := {0}];
    ss, es := Extended(ss, es, Work(0));
    ss, es := Extended(ss, es, Work(0));
    assert ss[|es|].loops == [Loop(Idle, []), Loop(Idle, [])];
  }

  lemma RunSees() returns (ss: seq<State>, es: seq<Action>)
    ensures Execution(ss, es)
    ensures ss[|es|] == Serving5(Grown([], 5)[5 := OPEN], None,
                                     Loop(Idle, [Event(5, true)]), Loop(Idle, [Event(3, false)]))
  {
    ss, es := RunServes();
    ss, es := Extended(ss, es, Wait(1, [Event(3, false)]));
    ss, es := Extended(ss, es, Wait(0, [Event(5, true)]));
    assert ss[|es|].loops == [Loop(Idle, [Event(5, true)]), Loop(Idle, [Event(3, false)])];
  }

  lemma RunHangsUp() returns (ss: seq<State>, es: seq<Action>)
    ensures Execution(ss, es)
    ensures ss[|es|] == Serving5(Grown([], 5), Some(0), Loop(DelClose(5), []), Loop(Idle, [Event(3, false)]))
  {
    var listening := Loop(Idle, [Event(3, false)]);
    ss, es := RunSees();
    ss, es := Extended(ss, es, Take(0));
    assert [Event(5, true)][1..] == [];
    assert ss[|es|].loops == [Loop(DelLock(5), []), listening];
    ss, es := Extended(ss, es, Lock(0));
    ss, es := Extended(ss, es, Work(0));
    assert ss[|es|].loops == [Loop(DelClose(5), []), listening];
    assert Grown([], 5)[5 := OPEN][5 := CLOSED] == Grown([], 5);
  }

  // --- The members that work on the table --------------------------------------------------------------------------

  datatype Outcome<T> = Ok(value: T) | AlreadyExists | NotExisting

  function Add(vec: seq<int>, os: Os, epoll: nat, fd: nat): Outcome<(seq<int>, Os)> {
    if fd < |vec| && vec[fd] != 0 then AlreadyExists
    else Ok((Grown(vec, fd)[fd := OPEN], os.Added(epoll, fd)))
  }

  function Del(vec: seq<int>, os: Os, fd: nat): Outcome<(seq<int>, Os)> {
    if fd >= |vec| then NotExisting else Ok((vec[fd := CLOSED], os.ClosedAt(fd)))
  }

  /** What the loops share. */
  class Shared {
    var socketVec: seq<int>
    var os: Os

    constructor (os: Os)
      ensures socketVec == [] && this.os == os
    {
      socketVec, this.os := [], os;
    }
  }

  class EPoll {
    const epollFd: nat
    const shared: Shared
    var tempEvent: nat  // data.fd of temp_event_

    constructor (epollFd: nat, shared: Shared, master: nat)
      ensures this.epollFd == epollFd && this.shared == shared && tempEvent == master
    {
      this.epollFd, this.shared, tempEvent := epollFd, shared, master;
    }

    method AddSocket(fd: nat) returns (r: Outcome<()>)
      modifies this, shared
      ensures match Add(old(shared.socketVec), old(shared.os), epollFd, fd)
              case Ok((vec, os)) => r == Ok(()) && shared.socketVec == vec && shared.os == os && tempEvent == fd
              case _ => r == AlreadyExists && shared.socketVec == old(shared.socketVec) && shared.os == old(shared.os)
    {
      if fd >= |shared.socketVec| {
        shared.socketVec := shared.socketVec + seq(fd + 1 - |shared.socketVec|, _ => 0);
      }
      if shared.socketVec[fd] != 0 {
        return AlreadyExists;
      }
      tempEvent := fd;
      shared.os := shared.os.Added(epollFd, tempEvent);
      shared.socketVec := shared.socketVec[fd := OPEN];
      return Ok(());
    }

    method DelSocket(fd: nat) returns (r: Outcome<()>)
      modifies shared
      ensures match Del(old(shared.socketVec), old(shared.os), fd)
              case Ok((vec, os)) => r == Ok(()) && shared.socketVec == vec && shared.os == os
              case _ => r == NotExisting && shared.socketVec == old(shared.socketVec) && shared.os == old(shared.os)
    {
      if fd >= |shared.socketVec| {
        return NotExisting;
      }
      shared.socketVec := shared.socketVec[fd := CLOSED];
      shared.os := shared.os.ClosedAt(fd);
      return Ok(());
    }
  }

  /** n steps of loop l inside the lock. */
  function Works(s: State, l: nat, n: nat): Option<State>
    decreases n
  {
    if n == 0 then Some(s)
    else if !Enabled(s, Work(l)) then None
    else Works(Do(s, Work(l)), l, n - 1)
  }

  /** The machine takes the two members apart: three of its steps are an uninterrupted addSocket, two
      are a delSocket, and in every reachable state they succeed. */
  lemma AddIsThreeSteps(s: State, l: nat, fd: nat)
    requires Inv(s) && l < |s.loops| && s.loops[l].pc == AddCheck(fd)
    ensures var r := Add(s.vec, s.os, l, fd);
            r.Ok? && Works(s, l, 3) == Some(s.(vec := r.value.0, os := r.value.1).At(l, Release))
  {
    assert LoopOk(s, l) && FdOk(s, fd);
    var r := Add(s.vec, s.os, l, fd);
    var s1 := s.(vec := Grown(s.vec, fd)).At(l, AddRegister(fd));
    var s2 := s.(vec := Grown(s.vec, fd), os := r.value.1).At(l, AddStore(fd));
    var s3 := s.(vec := r.value.0, os := r.value.1).At(l, Release);
    assert Do(s, Work(l)) == s1;
    assert Do(s1, Work(l)).loops == s2.loops;
    assert Do(s2, Work(l)).loops == s3.loops;
    assert Works(s2, l, 1) == Works(s3, l, 0);
    assert Works(s1, l, 2) == Works(s2, l, 1);
  }

  lemma DelIsTwoSteps(s: State, l: nat, fd: nat)
    requires Inv(s) && l < |s.loops| && s.loops[l].pc == DelStore(fd)
    ensures var r := Del(s.vec, s.os, fd);
            r.Ok? && Works(s, l, 2) == Some(s.(vec := r.value.0, os := r.value.1).At(l, Release))
  {
    assert LoopOk(s, l);
    var r := Del(s.vec, s.os, fd);
    var s1 := s.(vec := r.value.0).At(l, DelClose(fd));
    var s2 := s.(vec := r.value.0, os := r.value.1).At(l, Release);
    assert Do(s, Work(l)) == s1;
    assert Do(s1, Work(l)).loops == s2.loops;
    assert Works(s1, l, 1) == Works(s2, l, 0);
  }
}
