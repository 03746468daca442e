/** Every step of the reactor keeps the invariant. */
module ReactorSteps {
  import opened Buffers
  import opened Reactors
  import opened Ownership
  import opened ReactorInvariants
  import P = EpollPollers
  import L = EventLoops
  import C = Connections
  import N = Names

  // ---- Operations on the stream ----

  /** Where the ownership puts a connection, by its state. */
  lemma PlaceOf(s: Reactor, c: Id)
    requires Owner(s) && c in s.conns
    ensures !s.loop.pc.Stopped? && (s.conns[c].state == C.Connected || s.conns[c].state == C.Disconnecting)
            ==> c in s.connections.Values
    ensures s.conns[c].state == C.Connected && (s.ops != [] ==> !s.ops[0].Destroy?)
            ==> c in s.connections.Values
    ensures c in s.connections.Values ==> c in s.epoll.index
    ensures s.conns[c].state != C.Connecting
  {
  }

  lemma ConnIsValid(s: Reactor, c: Id)
    requires Rest(s) && c in s.conns
    ensures s.conns[c].Valid()
  {
  }

  /** A channel's write callback works on a registered connection, a functor with a bare `this` on one that
      is registered or closed. */
  lemma IoFacts(s: Reactor)
    requires Inv(s) && s.ops != [] && (s.ops[0].Send? || s.ops[0].Shutdown? || s.ops[0].Write?)
    ensures var c := s.ops[0].conn;
            c in s.conns && (s.ops[0].Write? || (s.ops[0].Send? && s.conns[c].state != C.Disconnected) ==> c in s.epoll.index)
    ensures InCallback(s)
  {
    hide Kernel, Fds, Streams, L.Inv, States;
    OpsAreHeld(s);
    PlaceOf(s, s.ops[0].conn);
    assert s.ops[0] in CoreOf(s).ops;
  }

  lemma InvExecIo(s: Reactor, k: C.WriteResult, r: ReadResult)
    requires Inv(s) && WellFormed(s) && Enabled(s, Exec(k, r)) && s.ops[0].conn in Alive(s)
    requires s.ops[0].Write? || s.ops[0].Send? || s.ops[0].Shutdown?
    ensures Inv(ExecLive(s, k, r))
  {
    hide Inv, Commit, C.HandleWrite, C.SendInLoop, C.ShutdownInLoop, N.ConnName, Owned;
    IoFacts(s);
    ConnIsFine(s, s.ops[0].conn);
    InvDrop(s);
    var c := s.ops[0].conn;
    var rest := s.(ops := s.ops[1..]);
    assert Alive(rest) == Alive(s) by { SameAlive(s, rest); }
    match s.ops[0]
    case Write(_) => InvCommit(rest, c, C.HandleWriteOp(k));
    case Send(_, data) => OpFacts(s.code, s.conns[c], C.SendInLoopOp(data, k)); InvCommit(rest, c, C.SendInLoopOp(data, k));
    case Shutdown(_) => InvCommit(rest, c, C.ShutdownInLoopOp);
  }

  lemma ConnIsFine(s: Reactor, c: Id)
    requires Inv(s) && c in s.conns
    ensures s.conns[c].Valid()
  {
    ConnIsValid(s, c);
  }

  lemma InvExec(s: Reactor, k: C.WriteResult, r: ReadResult)
    requires Inv(s) && WellFormed(s) && Enabled(s, Exec(k, r))
    ensures Inv(ExecOne(s, k, r))
  {
    hide Inv, Commit, ExecLive, Alive;
    if s.ops[0].conn in Alive(s) {
      InvExecLive(s, k, r);
    } else {
      InvDangled(s);
    }
  }

  lemma InvDangled(s: Reactor)
    requires Inv(s)
    ensures Inv(s.(dangled := true))
  {
    hide CoreInv, Rest, Queue;
    var s' := s.(dangled := true);
    assert CoreOf(s') == CoreOf(s);
    SameRest(s, s');
  }

  lemma InvExecLive(s: Reactor, k: C.WriteResult, r: ReadResult)
    requires Inv(s) && WellFormed(s) && Enabled(s, Exec(k, r)) && s.ops[0].conn in Alive(s)
    ensures Inv(ExecLive(s, k, r))
  {
    hide Inv, Commit, Alive;
    var c := s.ops[0].conn;
    match s.ops[0]
    case Close(_) => InvClose(s, c);
    case Erase(_) => InvErase(s, c);
    case Read(_) =>
      match r {
        case Bytes => InvRead(s, UserCode);
        case EndOfFile => InvRead(s, Close(c));
        case ReadError => InvDrop(s);
      }
    case Destroy(_) =>
      if s.conns[c].state == C.Connected {
        InvDestroyConnected(s, c);
      } else {
        InvDestroyClosed(s, c);
      }
    case Remove(_) => InvRemove(s, c);
    case _ => InvExecIo(s, k, r);
  }

  // ---- User code ----

  lemma InvUserSend(s: Reactor, c: Id, data: seq<Byte>, k: C.WriteResult)
    requires Inv(s) && WellFormed(s) && Enabled(s, ByUser(UserSend(c, data, k)))
    ensures Inv(Commit(s, c, C.Send(s.conns[c], data, k)))
  {
    hide Commit, Rest, CoreInv;
    ConnIsValid(s, c);
    PlaceOf(s, c);
    OpFacts(s.code, s.conns[c], C.SendOp(data, k));
    InvCommit(s, c, C.SendOp(data, k));
  }

  /** `shutdown()` marks the connection. */
  lemma InvMark(s: Reactor, c: Id)
    requires Inv(s) && c in s.conns && s.conns[c].state == C.Connected
    ensures Inv(s.(conns := s.conns[c := C.MarkShutdown(s.conns[c])]))
  {
    hide CoreInv, L.Inv, WellFormed, Kernel, Fds, Places, Streams;
    var s' := s.(conns := s.conns[c := C.MarkShutdown(s.conns[c])]);
    MarkDown(CoreOf(s), c, C.Disconnecting);
    assert StateMap(s'.conns) == StateMap(s.conns)[c := C.Disconnecting];
    assert CoreOf(s') == CoreOf(s).(states := StateMap(s.conns)[c := C.Disconnecting]);
    MarkRest(s, c);
  }

  lemma MarkRest(s: Reactor, c: Id)
    requires Rest(s) && c in s.conns
    ensures Rest(s.(conns := s.conns[c := C.MarkShutdown(s.conns[c])]))
  {
    hide L.Inv, WellFormed, Kernel, Streams;
    var s' := s.(conns := s.conns[c := C.MarkShutdown(s.conns[c])]);
    MarkWellFormed(s, c);
    MarkKernel(s, c);
    MarkStreams(s, c);
    assert Alive(s') == Alive(s);
    hide Alive;
    FdsFrom(s, s');
  }

  lemma MarkWellFormed(s: Reactor, c: Id)
    requires WellFormed(s) && c in s.conns
    ensures WellFormed(s.(conns := s.conns[c := C.MarkShutdown(s.conns[c])]))
  {
  }

  lemma MarkKernel(s: Reactor, c: Id)
    requires Kernel(s) && c in s.conns
    ensures Kernel(s.(conns := s.conns[c := C.MarkShutdown(s.conns[c])]))
  {
    hide P.Agrees;
    assert Chans(s.conns[c := C.MarkShutdown(s.conns[c])]) == Chans(s.conns);
  }

  lemma MarkStreams(s: Reactor, c: Id)
    requires Streams(s) && c in s.conns
    ensures Streams(s.(conns := s.conns[c := C.MarkShutdown(s.conns[c])]))
  {
  }

  lemma InvUserShutdown(s: Reactor, c: Id)
    requires Inv(s) && WellFormed(s) && Enabled(s, ByUser(UserShutdown(c)))
    ensures Inv(Commit(s, c, C.Quiet(C.Shutdown(s.conns[c]))))
  {
    hide Inv, Commit;
    if s.conns[c].state == C.Connected {
      InvMark(s, c);
      var marked := s.(conns := s.conns[c := C.MarkShutdown(s.conns[c])]);
      assert Alive(marked) == Alive(s);
      InvCommit(marked, c, C.ShutdownInLoopOp);
      CommitTwice(s, c, C.MarkShutdown(s.conns[c]), C.Shutdown(s.conns[c]));
    } else {
      CommitNothing(s, c);
    }
  }

  lemma CommitTwice(s: Reactor, c: Id, middle: C.Conn, last: C.Conn)
    requires InCallback(s)
    ensures Commit(s.(conns := s.conns[c := middle]), c, C.Quiet(last)) == Commit(s, c, C.Quiet(last))
  {
  }

  lemma CommitNothing(s: Reactor, c: Id)
    requires InCallback(s) && c in s.conns
    ensures Commit(s, c, C.Quiet(s.conns[c])) == s
  {
  }

  lemma InvUser(s: Reactor, action: UserAction)
    requires Inv(s) && WellFormed(s) && Enabled(s, ByUser(action))
    ensures Inv(UserOne(s, action))
  {
    hide Inv, Commit;
    match action
    case UserSend(c, data, k) => InvUserSend(s, c, data, k);
    case UserShutdown(c) => InvUserShutdown(s, c);
    case UserQueue(id) => InvQueueUser(s, id);
    case UserQuit => InvLoopOnly(s, L.OwnQuit);
    case UserReturn => InvDrop(s);
  }

  // ---- Steps of the loop and of other threads ----

  /** The loop's protocol moves on while nothing else does. */
  lemma RestWithLoop(s: Reactor, l: L.Loop<Task>)
    requires Rest(s) && L.Inv(l) && !l.mustWake && l.next <= |l.batch|
    requires Holders(l.batch) + Holders(l.pending) <= Holders(s.loop.batch) + Holders(s.loop.pending)
    requires forall t :: t in l.batch || t in l.pending ==> t in s.loop.batch || t in s.loop.pending
    requires s.inFrame ==> l.pc == s.loop.pc
    requires s.active != [] ==> l.pc.Dispatching?
    requires l.pc.Dispatching? || l.pc.Swapping? || forall t :: t in l.pending ==> !t.Destroyed?
    ensures Rest(s.(loop := l))
  {
    hide L.Inv, Kernel, Streams, Fds, WellFormed, Places, Alive;
    var s' := s.(loop := l);
    SameBut(s, s');
    AliveWithLoop(s, s');
    FdsFrom(s, s');
    WellFormedWithLoop(s, l);
    PlacesWithLoop(s, l);
  }

  lemma AliveWithLoop(s: Reactor, s': Reactor)
    requires s' == s.(loop := s'.loop)
    requires Holders(s'.loop.batch) + Holders(s'.loop.pending) <= Holders(s.loop.batch) + Holders(s.loop.pending)
    ensures Alive(s') <= Alive(s)
  {
    hide Holders;
    assert Callers(s') == Callers(s);
  }

  lemma WellFormedWithLoop(s: Reactor, l: L.Loop<Task>)
    requires WellFormed(s) && !l.mustWake && l.next <= |l.batch|
    requires forall t :: t in l.batch || t in l.pending ==> t in s.loop.batch || t in s.loop.pending
    requires s.inFrame ==> l.pc == s.loop.pc
    requires s.active != [] ==> l.pc.Dispatching?
    ensures WellFormed(s.(loop := l))
  {
  }

  lemma PlacesWithLoop(s: Reactor, l: L.Loop<Task>)
    requires Places(s) && (l.pc.Dispatching? || l.pc.Swapping? || forall t :: t in l.pending ==> !t.Destroyed?)
    ensures Places(s.(loop := l))
  {
    hide N.ConnName;
  }

  /** Events of the loop that neither queue nor run anything nor change the phase. */
  lemma InvLoopOnly(s: Reactor, e: L.Event<Task>)
    requires Inv(s) && L.Enabled(s.loop, e)
    requires e.OwnQuit? || e.Quit? || e.Wake? || e.ReadWakeup?
    ensures Inv(s.(loop := L.Step(s.loop, e)))
  {
    hide CoreInv, L.Inv, Rest, Queue, Holders;
    LoopIsFine(s);
    NoDoomPending(s);
    L.StepKeepsInv(s.loop, e);
    var l := L.Step(s.loop, e);
    QueueOfSame(s.loop, l);
    assert CoreOf(s.(loop := l)) == CoreOf(s);
    RestWithLoop(s, l);
  }

  lemma NoDoomPending(s: Reactor)
    requires Rest(s)
    ensures s.loop.pc.Dispatching? || s.loop.pc.Swapping? || forall t :: t in s.loop.pending ==> !t.Destroyed?
  {
  }

  lemma QueueOfSame(l: L.Loop<Task>, l': L.Loop<Task>)
    requires l.next <= |l.batch| && l'.batch == l.batch && l'.next == l.next && l'.pending == l.pending
    ensures Queue(l') == Queue(l)
  {
  }

  /** The loop thread goes on to its next phase. */
  lemma InvPhase(s: Reactor, e: L.Event<Task>)
    requires Inv(s) && L.Enabled(s.loop, e) && !s.inFrame
    requires e.Begin? || e.Test? || e.Poll? || e.Swap? || e.EndBatch? || (e.StartCalling? && s.active == [])
    ensures Inv(s.(loop := L.Step(s.loop, e)))
  {
    hide CoreInv, L.Inv, Rest, Queue, Holders;
    LoopIsFine(s);
    NoDoomPending(s);
    L.StepKeepsInv(s.loop, e);
    var l := L.Step(s.loop, e);
    QueueInPhase(s.loop, e);
    HoldersInPhase(s.loop, e);
    ChangePhase(CoreOf(s), l.pc.Stopped?, l.pc.Dispatching?);
    assert CoreOf(s.(loop := l)) == CoreOf(s).(stopped := l.pc.Stopped?, dispatching := l.pc.Dispatching?);
    RestWithLoop(s, l);
  }

  lemma QueueInPhase(l: L.Loop<Task>, e: L.Event<Task>)
    requires L.Inv(l) && L.Enabled(l, e)
    requires e.Begin? || e.Test? || e.Poll? || e.Swap? || e.EndBatch? || e.StartCalling? || e.PollReturns?
    ensures var l' := L.Step(l, e);
            && l'.next <= |l'.batch| && Queue(l') == Queue(l) && !l'.mustWake
            && (forall t :: t in l'.batch || t in l'.pending ==> t in l.batch || t in l.pending)
            && (l.pc.Stopped? ==> l'.pc.Stopped?) && (l'.pc.Dispatching? ==> e.PollReturns?)
            && (l'.pc.Dispatching? || l'.pc.Swapping? || l.pc.Swapping? ||
                (forall t :: t in l'.pending ==> t in l.pending))
            && (l.pc.Swapping? ==> l'.pending == [])
            && (l.pc.Dispatching? ==> l'.pc.Swapping?)
  {
  }

  lemma HoldersInPhase(l: L.Loop<Task>, e: L.Event<Task>)
    requires L.Inv(l) && L.Enabled(l, e)
    requires e.Begin? || e.Test? || e.Poll? || e.Swap? || e.EndBatch? || e.StartCalling? || e.PollReturns?
    ensures var l' := L.Step(l, e);
            Holders(l'.batch) + Holders(l'.pending) <= Holders(l.batch) + Holders(l.pending)
  {
  }

  /** `poll` returns with channels the kernel has entries for. */
  lemma InvWait(s: Reactor, ready: seq<Ready>)
    requires Inv(s) && L.Enabled(s.loop, L.PollReturns) && !s.inFrame
    requires forall r :: r in ready ==> InKernel(s.epoll, r.conn)
    ensures Inv(s.(loop := L.Step(s.loop, L.PollReturns), active := ready))
  {
    hide CoreInv, L.Inv, Rest, Queue, Holders, InKernel;
    LoopIsFine(s);
    L.StepKeepsInv(s.loop, L.PollReturns);
    var l := L.Step(s.loop, L.PollReturns);
    QueueInPhase(s.loop, L.PollReturns);
    HoldersInPhase(s.loop, L.PollReturns);
    ChangePhase(CoreOf(s), false, true);
    assert CoreOf(s.(loop := l, active := ready)) == CoreOf(s).(stopped := false, dispatching := true);
    RestWithLoop(s, l);
    RestWithActive(s.(loop := l), ready);
  }

  lemma RestWithActive(s: Reactor, ready: seq<Ready>)
    requires Rest(s) && s.loop.pc.Dispatching?
    requires forall r :: r in ready ==> InKernel(s.epoll, r.conn) || r in s.active
    ensures Rest(s.(active := ready))
  {
  }

  lemma KernelIsRegistered(s: Reactor, c: Id)
    requires Kernel(s) && InKernel(s.epoll, c)
    ensures c in s.epoll.index && c in s.conns
  {
  }

  /** Another thread pushes. */
  lemma InvOtherPush(s: Reactor, tid: L.Tid, t: Task)
    requires Inv(s) && L.Enabled(s.loop, L.Push(tid, t)) && (t.User? || t.RawSend? || t.RawShutdown?)
    requires !t.User? ==> t.conn in s.conns
    ensures Inv(s.(loop := L.Step(s.loop, L.Push(tid, t))))
  {
    hide CoreInv, L.Inv, Rest;
    LoopIsFine(s);
    L.StepKeepsInv(s.loop, L.Push(tid, t));
    var l := L.Step(s.loop, L.Push(tid, t));
    assert Queue(l) == Queue(s.loop) + [t];
    PushPlain(CoreOf(s), t);
    assert CoreOf(s.(loop := l)) == CoreOf(s).(queue := Queue(s.loop) + [t]);
    RestAfterPush(s, l, t);
  }

  lemma InvOther(s: Reactor, tid: L.Tid, deed: OtherAction)
    requires Inv(s) && WellFormed(s) && Enabled(s, ByOther(tid, deed))
    ensures Inv(OtherOne(s, tid, deed))
  {
    hide Inv;
    match deed
    case TestSend(c, data) => InvCallers(s, s.callers[tid := SendCall(c, data)]);
    case TestShutdown(c) =>
      InvMark(s, c);
      var marked := s.(conns := s.conns[c := C.MarkShutdown(s.conns[c])]);
      assert Alive(marked) == Alive(s) by { SameAlive(s, marked); }
      InvCallers(marked, s.callers[tid := ShutdownCall(c)]);
    case PushCall =>
      InvOtherPush(s, tid, AsTask(s.callers[tid]));
      InvCallers(s.(loop := L.Step(s.loop, L.Push(tid, AsTask(s.callers[tid])))), s.callers - {tid});
    case OtherQueue(id) => InvOtherPush(s, tid, User(id));
    case OtherQuit => InvLoopOnly(s, L.Quit(tid));
    case OtherWake => InvLoopOnly(s, L.Wake(tid));
  }

  /** Calls begin on connections that are alive, and end. */
  lemma InvCallers(s: Reactor, callers: map<L.Tid, Call>)
    requires Inv(s)
    requires forall tid :: tid in callers ==>
               (tid in s.callers && callers[tid] == s.callers[tid]) ||
               (callers[tid].conn in s.conns && callers[tid].conn in Alive(s))
    ensures Inv(s.(callers := callers))
  {
    hide CoreInv, Queue, L.Inv, Kernel, Streams, Fds, Alive, Places;
    var s' := s.(callers := callers);
    assert CoreOf(s') == CoreOf(s);
    SameBut(s, s');
    AliveWithCallers(s, s');
    FdsFrom(s, s');
    SamePlaces(s, s');
  }

  lemma AliveWithCallers(s: Reactor, s': Reactor)
    requires s' == s.(callers := s'.callers)
    requires forall tid :: tid in s'.callers ==>
               (tid in s.callers && s'.callers[tid] == s.callers[tid]) || s'.callers[tid].conn in Alive(s)
    ensures Alive(s') <= Alive(s)
  {
    hide Owned;
    assert Owned(s') == Owned(s) by { SameOwned(s, s'); }
  }

  lemma SamePlaces(s: Reactor, s': Reactor)
    requires Places(s) && s' == s.(callers := s'.callers)
    ensures Places(s')
  {
    hide N.ConnName;
  }

  lemma SameOwned(s: Reactor, s': Reactor)
    requires s'.loop == s.loop && s'.connections == s.connections && s'.holds == s.holds
    ensures Owned(s') == Owned(s)
  {
  }

  lemma SameRest(s: Reactor, s': Reactor)
    requires Rest(s) && s' == s.(dangled := s'.dangled)
    ensures Rest(s')
  {
    hide L.Inv, Kernel, Streams, Fds, Alive, WellFormed, Places;
    SameBut(s, s');
    SameAlive(s, s');
    FdsFrom(s, s');
    SameWellFormed(s, s');
    PlacesDangled(s, s');
  }

  lemma SameWellFormed(s: Reactor, s': Reactor)
    requires WellFormed(s) && s' == s.(dangled := s'.dangled)
    ensures WellFormed(s')
  {
  }

  lemma PlacesDangled(s: Reactor, s': Reactor)
    requires Places(s) && s' == s.(dangled := s'.dangled)
    ensures Places(s')
  {
    hide N.ConnName;
  }

  // ---- Frames ----

  /** Frames, the active list and the users' pointers change, within what is alive. */
  lemma RestWithFrame(s: Reactor, s': Reactor)
    requires Rest(s)
    requires s' == s.(active := s'.active, inFrame := s'.inFrame, ops := s'.ops, holds := s'.holds, users := s'.users)
    requires s'.holds <= Alive(s) && s'.holds <= s.conns.Keys && s'.users <= s.users + Alive(s) && s'.users <= s.conns.Keys
    requires forall r :: r in s'.active ==> r in s.active
    requires s'.inFrame ==> InCallback(s)
    requires !s'.inFrame ==> s'.ops == [] && s'.holds == {}
    requires forall op :: op in s'.ops && !op.UserCode? ==>
               op.conn in s.conns && (!op.Send? && !op.Shutdown? ==> op.conn in s'.holds)
    ensures Rest(s')
  {
    hide L.Inv, Kernel, Streams, Fds, Places, WellFormed, Alive;
    SameBut(s, s');
    AliveWithFrame(s, s');
    FdsFrom(s, s');
    WellFormedOf(s);
    WellFormedWithFrame(s, s');
    PlacesWithFrame(s, s');
  }

  lemma AliveWithFrame(s: Reactor, s': Reactor)
    requires s'.connections == s.connections && s'.loop == s.loop && s'.callers == s.callers
    requires s'.holds <= Alive(s) && s'.users <= s.users + Alive(s)
    ensures Alive(s') <= Alive(s)
  {
  }

  lemma DispatchOpsFacts(c: Id, callbacks: seq<P.Callback>)
    ensures forall op :: op in DispatchOps(c, callbacks) ==>
              DispatchOp(op) && !op.Erase? && !op.UserCode? && op.conn == c
  {
  }

  /** The channel of an active entry is registered, hence its connection is alive: the tie never fails. */
  lemma ActiveIsAlive(s: Reactor, r: Ready)
    requires Inv(s) && r in s.active
    ensures r.conn in s.epoll.index && r.conn in Owned(s) && r.conn in Alive(s) && r.conn in s.conns
  {
    hide Kernel, Fds, Streams, L.Inv, CoreInv;
    RegisteredIsOwned(s, r.conn);
  }

  function Wanted(c: Id, close: bool, error: bool, read: bool, write: bool): seq<Op> {
    (if close then [Close(c)] else []) + (if error then [Close(c)] else []) +
    (if read then [Read(c)] else []) + (if write then [Write(c)] else [])
  }

  /** What an event mask asks of a connection, in order: a close for a hang-up without input and another for
      an error, a read for input, a write for room to write. */
  function Asked(c: Id, revents: P.Mask): seq<Op> {
    Wanted(c, revents & P.EPOLLHUP != 0 && revents & P.EPOLLIN == 0, revents & P.EPOLLERR != 0,
           revents & P.EPOLLIN != 0, revents & P.EPOLLOUT != 0)
  }

  lemma WantedMembers(c: Id, close: bool, error: bool, read: bool, write: bool)
    ensures var ops := Wanted(c, close, error, read, write);
            (Read(c) in ops <==> read) && (Write(c) in ops <==> write) && (Close(c) in ops <==> close || error)
  {
  }

  lemma DispatchOpsOfSum(c: Id, a: seq<P.Callback>, b: seq<P.Callback>)
    ensures DispatchOps(c, a + b) == DispatchOps(c, a) + DispatchOps(c, b)
  {
  }

  lemma DispatchOpsOfOne(c: Id, callback: P.Callback, given: bool)
    ensures DispatchOps(c, if given then [callback] else []) ==
            if !given then []
            else if callback.ReadCallback? then [Read(c)] else if callback.WriteCallback? then [Write(c)] else [Close(c)]
  {
  }

  /** The frames of a dispatch are what the mask asks for: each callback does what it is bound to. */
  lemma DispatchDoesWhatIsAsked(c: Id, revents: P.Mask)
    ensures DispatchOps(c, P.Callbacks(revents)) == Asked(c, revents)
    ensures Read(c) in Asked(c, revents) <==> revents & P.EPOLLIN != 0
    ensures Write(c) in Asked(c, revents) <==> revents & P.EPOLLOUT != 0
  {
    hide DispatchOps, Wanted, P.Chosen;
    var close := revents & P.EPOLLHUP != 0 && revents & P.EPOLLIN == 0;
    ChosenOps(c, close, revents & P.EPOLLERR != 0, revents & 1 != 0, revents & P.EPOLLOUT != 0);
    WantedMembers(c, close, revents & P.EPOLLERR != 0, revents & P.EPOLLIN != 0, revents & P.EPOLLOUT != 0);
  }

  lemma ChosenOps(c: Id, close: bool, error: bool, read: bool, write: bool)
    ensures DispatchOps(c, P.Chosen(close, error, read, write)) == Wanted(c, close, error, read, write)
  {
    hide DispatchOps;
    var cs, es := if close then [P.CloseCallback] else [], if error then [P.ErrorCallback] else [];
    var rs, ws := if read then [P.ReadCallback] else [], if write then [P.WriteCallback] else [];
    DispatchOpsOfSum(c, cs + es + rs, ws);
    DispatchOpsOfSum(c, cs + es, rs);
    DispatchOpsOfSum(c, cs, es);
    DispatchOpsOfOne(c, P.CloseCallback, close);
    DispatchOpsOfOne(c, P.ErrorCallback, error);
    DispatchOpsOfOne(c, P.ReadCallback, read);
    DispatchOpsOfOne(c, P.WriteCallback, write);
  }

  /** A dispatch opens a frame that holds the connection and does what the mask asks for. */
  lemma InvDispatch(s: Reactor)
    requires Inv(s) && WellFormed(s) && Enabled(s, Dispatch)
    ensures Inv(DispatchOne(s))
    ensures var s' := DispatchOne(s); var r := s.active[0];
            s'.ops == Asked(r.conn, r.revents) && s'.holds == {r.conn} && s'.inFrame && s'.active == s.active[1..]
  {
    hide Inv, DispatchOne, Asked;
    KeepDispatch(s);
    DispatchFrame(s);
  }

  lemma DispatchFrame(s: Reactor)
    requires Inv(s) && WellFormed(s) && Enabled(s, Dispatch)
    ensures var s' := DispatchOne(s); var r := s.active[0];
            s'.ops == Asked(r.conn, r.revents) && s'.holds == {r.conn} && s'.inFrame && s'.active == s.active[1..]
  {
    hide Inv, WellFormed, Alive, Asked, DispatchOps;
    DispatchDoesWhatIsAsked(s.active[0].conn, s.active[0].revents);
    ActiveIsAlive(s, s.active[0]);
  }

  lemma KeepDispatch(s: Reactor)
    requires Inv(s) && WellFormed(s) && Enabled(s, Dispatch)
    ensures Inv(DispatchOne(s))
  {
    hide Rest, CoreInv, Alive, Queue;
    var r := s.active[0];
    ActiveIsAlive(s, r);
    LoopIsFine(s);
    var ops := DispatchOps(r.conn, P.Callbacks(r.revents));
    DispatchOpsFacts(r.conn, P.Callbacks(r.revents));
    var s' := DispatchOne(s);
    assert forall q :: q in s'.active ==> q in s.active;
    OpenDispatch(CoreOf(s), r.conn, ops);
    assert CoreOf(s') == CoreOf(s).(ops := ops);
    UsersAreAlive(s);
    RestWithFrame(s, s');
  }

  lemma UsersAreAlive(s: Reactor)
    requires WellFormed(s)
    ensures s.users <= Alive(s) && s.holds <= Alive(s) && s.users <= s.conns.Keys
  {
  }

  /** The next functor opens a frame that does what it was queued for, and holds what it bound. */
  lemma InvRunTask(s: Reactor)
    requires Inv(s) && WellFormed(s) && Enabled(s, RunTask)
    ensures Inv(RunTaskOne(s))
    ensures var s' := RunTaskOne(s); var t := s.loop.batch[s.loop.next];
            && s'.inFrame && s'.loop.ran == s.loop.ran + [t]
            && (t.Destroyed? || t.Callback? ==> s'.holds == {t.conn})
            && s'.ops == (match t
                          case Destroyed(c) => [Destroy(c)]
                          case RawSend(c, data) => [Send(c, data)]
                          case RawShutdown(c) => [Shutdown(c)]
                          case _ => [UserCode])
  {
    hide Rest, CoreInv, L.Inv, Alive;
    LoopIsFine(s);
    NoDoomPending(s);
    UsersAreAlive(s);
    var t := s.loop.batch[s.loop.next];
    L.StepKeepsInv(s.loop, L.RunNext);
    var l := L.Step(s.loop, L.RunNext);
    TaskFacts(s, t);
    assert Queue(s.loop) == [t] + Queue(l) by {
      assert s.loop.batch[s.loop.next..] == [t] + s.loop.batch[s.loop.next + 1..];
    }
    OpenFunctor(CoreOf(s), t, Queue(l));
    var s' := RunTaskOne(s);
    assert CoreOf(s') == CoreOf(s).(queue := Queue(l), ops := Body(t));
    RestWithLoop(s, l);
    var moved := s.(loop := l);
    assert Alive(moved) == Alive(s) by { SameAlive(s, moved); }
    RestWithFrame(moved, s');
  }

  lemma SameAlive(s: Reactor, s': Reactor)
    requires s'.loop.batch == s.loop.batch && s'.loop.pending == s.loop.pending
    requires s'.connections == s.connections && s'.holds == s.holds && s'.users == s.users && s'.callers == s.callers
    ensures Alive(s') == Alive(s)
  {
  }

  lemma TaskFacts(s: Reactor, t: Task)
    requires WellFormed(s) && t in s.loop.batch
    ensures Holders([t]) <= Alive(s) && Holders([t]) <= s.conns.Keys
    ensures forall op :: op in Body(t) && !op.UserCode? ==>
              op.conn in s.conns && (!op.Send? && !op.Shutdown? ==> op.conn in Holders([t]))
  {
  }

  lemma InvReturn(s: Reactor)
    requires Inv(s) && s.ops == []
    ensures Inv(s.(inFrame := false, holds := {}))
  {
    hide Rest, CoreInv, Queue;
    var s' := s.(inFrame := false, holds := {});
    assert CoreOf(s') == CoreOf(s);
    LoopIsFine(s);
    assert WellFormed(s) by { WellFormedOf(s); }
    UsersAreAlive(s);
    RestWithFrame(s, s');
  }

  lemma WellFormedOf(s: Reactor)
    requires Rest(s)
    ensures WellFormed(s)
  {
  }

  lemma InvUsers(s: Reactor, users: set<Id>)
    requires Inv(s) && users <= Alive(s) && users <= s.conns.Keys
    ensures Inv(s.(users := users))
  {
    hide Rest, CoreInv, Queue;
    var s' := s.(users := users);
    assert CoreOf(s') == CoreOf(s);
    LoopIsFine(s);
    WellFormedOf(s);
    UsersAreAlive(s);
    OpsAreHeld(s);
    RestWithFrame(s, s');
  }

  // ---- The server comes and goes ----

  lemma InvDestruct(s: Reactor, name: string)
    requires Inv(s) && WellFormed(s) && Enabled(s, Destruct(name))
    ensures Inv(DestructOne(s, name))
  {
    hide Rest, CoreInv, Queue, Holders, N.ConnName;
    var c := s.connections[name];
    LoopIsFine(s);
    ListedFacts(s, name);
    EraseByName(s, c);
    UsersAreAlive(s);
    var s' := DestructOne(s, name);
    DestructCore(s, s', c);
    var held := s.(inFrame := true, holds := {c}, ops := [Destroy(c)]);
    RestWithFrame(s, held);
    RestUnlisted(held, name);
  }

  lemma DestructCore(s: Reactor, s': Reactor, c: Id)
    requires Owner(s) && s.loop.pc.Stopped? && s.ops == [] && c in s.connections.Values
    requires s' == s.(connections := s'.connections, inFrame := true, holds := {c}, ops := [Destroy(c)])
    requires s'.connections.Values == s.connections.Values - {c}
    ensures Owner(s')
  {
    hide CoreInv, Queue;
    ResetOne(CoreOf(s), c);
    assert CoreOf(s') == CoreOf(s).(listed := s.connections.Values - {c}, ops := [Destroy(c)]);
  }

  lemma ListedFacts(s: Reactor, name: string)
    requires Rest(s) && name in s.connections
    ensures name == Name(s, s.connections[name]) && s.connections[name] in s.conns
    ensures s.connections[name] in s.connections.Values && s.connections[name] in Alive(s)
  {
    hide Kernel, Fds, Streams, L.Inv, N.ConnName;
  }

  /** A name given to a new connection is not in the map. */
  lemma NewNameIsFresh(s: Reactor)
    requires WellFormed(s) && Places(s)
    ensures Name(s, s.nextConnId) !in s.connections
  {
    var n := Name(s, s.nextConnId);
    if n in s.connections {
      var d := s.connections[n];
      assert d in s.conns && n == Name(s, d);
      N.NamesAreDistinct(s.server, s.ipPort, d, s.nextConnId);
    }
  }

  lemma ValuesAfterInsert(m: map<string, Id>, n: string, c: Id)
    requires n !in m
    ensures m[n := c].Values == m.Values + {c}
  {
    assert m[n := c][n] == c;
    forall d | d in m.Values
      ensures d in m[n := c].Values
    {
      var k :| k in m && m[k] == d;
      assert m[n := c][k] == d;
    }
  }

  lemma BornRest(s: Reactor, conn: C.Conn)
    requires Rest(s) && !s.inFrame && s.loop.pc.Dispatching? && s.nextConnId < N.INT_MAX && s.nextConnId >= 1
    requires s.epoll.index.Keys <= s.conns.Keys && s.nextConnId !in s.conns
    requires forall c :: c in Alive(s) && c in s.conns ==> s.conns[c].fd != conn.fd
    requires conn.Valid() && C.HalfInv(s.code, conn) && (s.code.offersReadable ==> C.PrefixInv(conn))
    ensures Rest(Born(s, conn))
  {
    hide L.Inv, WellFormed, Kernel, Streams, Places, Fds, Alive;
    BornWellFormed(s, conn);
    BornKernel(s, conn);
    BornPlaces(s, conn);
    BornFds(s, conn);
    BornStreams(s, conn);
  }

  lemma BornWellFormed(s: Reactor, conn: C.Conn)
    requires WellFormed(s) && s.loop.pc.Dispatching? && s.nextConnId < N.INT_MAX && s.nextConnId >= 1 && conn.Valid()
    ensures WellFormed(Born(s, conn))
  {
    hide N.ConnName;
    assert s.conns.Keys <= Born(s, conn).conns.Keys;
  }

  lemma BornKernel(s: Reactor, conn: C.Conn)
    requires Kernel(s) && s.epoll.index.Keys <= s.conns.Keys && s.nextConnId !in s.conns
    ensures Kernel(Born(s, conn))
  {
    hide P.Agrees, N.ConnName;
    P.UnlistedIsNoParty(s.epoll, Chans(s.conns), s.nextConnId, P.Chan(conn.fd, conn.events));
    assert Chans(Born(s, conn).conns) == Chans(s.conns)[s.nextConnId := P.Chan(conn.fd, conn.events)];
  }

  lemma BornPlaces(s: Reactor, conn: C.Conn)
    requires Places(s)
    ensures Places(Born(s, conn))
  {
  }

  lemma BornFds(s: Reactor, conn: C.Conn)
    requires Fds(s) && WellFormed(s) && !s.inFrame && s.nextConnId !in s.conns
    requires forall c :: c in Alive(s) && c in s.conns ==> s.conns[c].fd != conn.fd
    ensures Fds(Born(s, conn))
  {
    hide N.ConnName, Holders;
    assert Alive(Born(s, conn)) <= Alive(s) + {s.nextConnId};
    hide Alive;
  }

  lemma BornStreams(s: Reactor, conn: C.Conn)
    requires Streams(s) && conn.Valid() && C.HalfInv(s.code, conn) && (s.code.offersReadable ==> C.PrefixInv(conn))
    ensures Streams(Born(s, conn))
  {
  }

  lemma NewStream(code: C.Code, fd: int, mark: nat, wc: bool, hw: bool)
    requires C.Sound(code)
    ensures var conn := C.NewConn(fd, mark, wc, hw);
            && conn.Valid() && C.HalfInv(code, conn) && C.PrefixInv(conn)
            && var e := C.Establish(conn);
               && e.conn.Valid() && e.conn.fd == fd && e.updates && e.notes == [] && e.conn.state == C.Connected
               && C.HalfInv(code, e.conn) && C.PrefixInv(e.conn)
  {
  }

  lemma NewIsUnshared(s: Reactor, fd: int)
    requires Owner(s) && Places(s) && Kernel(s)
    requires forall c :: c in Alive(s) && c in s.conns ==> s.conns[c].fd != fd
    ensures fd !in s.epoll.channels
  {
    if fd in s.epoll.channels {
      var d := s.epoll.channels[fd];
      assert d in s.epoll.index && Chans(s.conns)[d].fd == fd;
      RegisteredIsOwned(s, d);
    }
  }

  lemma AcceptCore(s: Reactor, conn: C.Conn)
    requires Owner(s) && WellFormed(s) && s.ops == [] && s.loop.pc.Dispatching? && s.nextConnId !in s.conns
    requires Name(s, s.nextConnId) !in s.connections
    ensures InCallback(Born(s, conn)) && Owner(Commit(Born(s, conn), s.nextConnId, C.Establish(conn)))
  {
    hide CoreInv, Commit, Queue;
    AcceptedCore(s, conn);
    PartiesExist(s);
    AcceptNew(CoreOf(s), s.nextConnId, C.Connected);
  }

  lemma PartiesExist(s: Reactor)
    requires WellFormed(s) && s.loop.next <= |s.loop.batch|
    ensures forall t :: t in Queue(s.loop) && !t.User? ==> t.conn in s.conns
    ensures s.epoll.index.Keys <= s.conns.Keys
  {
  }

  lemma AcceptedCore(s: Reactor, conn: C.Conn)
    requires s.loop.next <= |s.loop.batch| && !s.loop.mustWake && s.loop.pc.Dispatching?
    requires Name(s, s.nextConnId) !in s.connections
    ensures InCallback(Born(s, conn))
    ensures var c := s.nextConnId; var s' := Commit(Born(s, conn), c, C.Establish(conn));
            && s'.loop == s.loop
            && CoreOf(s') == CoreOf(s).(states := StateMap(s.conns)[c := C.Connected], listed := s.connections.Values + {c},
                                        registered := s.epoll.index.Keys + {c}, ops := [UserCode])
  {
    hide N.ConnName, P.Epoll.UpdateChannel, P.Epoll.CtlSucceeds, P.Epoll.UpdateOp, Queue;
    var c := s.nextConnId;
    var e := C.Establish(conn);
    var s' := Commit(Born(s, conn), c, e);
    IndexAfterUpdate(s.epoll, c, P.Chan(e.conn.fd, e.conn.events));
    ValuesAfterInsert(s.connections, Name(s, c), c);
    assert StateMap(s'.conns) == StateMap(s.conns)[c := C.Connected];
  }

  /** `newConnection` with a descriptor that no live connection has: the name is new, so the map gains an
      entry and loses none; the connection is established and registered at once. */
  lemma InvAccept(s: Reactor, fd: int, mark: nat, wc: bool, hw: bool)
    requires Inv(s) && WellFormed(s) && Enabled(s, Accept(fd, mark, wc, hw))
    ensures Inv(AcceptOne(s, fd, mark, wc, hw))
  {
    var c := s.nextConnId;
    var conn := C.NewConn(fd, mark, wc, hw);
    AcceptPieces(s, fd);
    hide Inv, Rest, Owner, Kernel, Places, Fds, Alive, Commit, L.Inv, C.HalfInv, C.PrefixInv, WellFormed, C.Establish;
    NewStream(s.code, fd, mark, wc, hw);
    BornRest(s, conn);
    AcceptCore(s, conn);
    BornFacts(s, conn);
    CommitKeepsRest(Born(s, conn), c, C.Establish(conn));
    JoinInv(AcceptOne(s, fd, mark, wc, hw));
  }

  lemma JoinInv(s: Reactor)
    requires Owner(s) && Rest(s)
    ensures Inv(s)
  {
    hide Owner, Rest;
  }

  lemma BornFacts(s: Reactor, conn: C.Conn)
    requires WellFormed(s) && s.loop.pc.Dispatching?
    ensures var b := Born(s, conn);
            && InCallback(b) && s.nextConnId in b.conns && b.conns[s.nextConnId] == conn
            && s.nextConnId in Alive(b) && b.epoll == s.epoll && b.code == s.code
  {
  }

  lemma AcceptPieces(s: Reactor, fd: int)
    requires Inv(s) && !s.inFrame && s.loop.pc.Dispatching?
    requires forall c :: c in Alive(s) && c in s.conns ==> s.conns[c].fd != fd
    ensures WellFormed(s) && Owner(s) && Rest(s) && s.ops == [] && s.nextConnId !in s.conns && C.Sound(s.code)
    ensures s.epoll.index.Keys <= s.conns.Keys && s.nextConnId >= 1
    ensures Name(s, s.nextConnId) !in s.connections && fd !in s.epoll.channels
  {
    hide L.Inv, CoreInv, Kernel, Alive, Fds;
    NewNameIsFresh(s);
    NewIsUnshared(s, fd);
  }

  // ---- All steps ----

  lemma StepKeepsInv(s: Reactor, step: Step)
    requires Inv(s) && WellFormed(s) && Enabled(s, step)
    ensures Inv(Next(s, step))
  {
    hide Inv, Commit, WellFormed, Alive;
    match step
    case LoopStep(e) => if e.ReadWakeup? { InvLoopOnly(s, e); } else { InvPhase(s, e); }
    case Wait(ready) => UserPointers(s); InvWait(s, ready);
    case Accept(fd, mark, wc, hw) => InvAccept(s, fd, mark, wc, hw);
    case Dispatch => InvDispatch(s);
    case RunTask => InvRunTask(s);
    case Exec(k, r) => InvExec(s, k, r);
    case Return => InvReturn(s);
    case ByUser(action) => InvUser(s, action);
    case Acquire(c) => UserPointers(s); InvUsers(s, s.users + {c});
    case Release(c) => UserPointers(s); InvUsers(s, s.users - {c});
    case Destruct(name) => InvDestruct(s, name);
    case ByOther(tid, deed) => InvOther(s, tid, deed);
  }

  lemma UserPointers(s: Reactor)
    requires WellFormed(s)
    ensures s.users <= Alive(s) && s.users <= s.conns.Keys
    ensures s.loop.pc.Polling? ==> !s.inFrame
  {
  }
}
