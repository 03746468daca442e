/** A run of the server that ends with a bare `this` of a connection that is gone. */
module Dangling {
  import opened Buffers
  import opened Reactors
  import opened Ownership
  import opened ReactorInvariants
  import opened ReactorSteps
  import opened Runs
  import opened BareFunctors
  import P = EpollPollers
  import L = EventLoops
  import C = Connections
  import N = Names

  /** The loop waits at its poll with nothing queued, in no frame, and nobody is in the library. */
  ghost predicate AtRest(s: Reactor) {
    && s.loop.pc.Polling? && !s.loop.quit && !s.loop.calling && s.loop.pending == [] && s.loop.batch == [] && s.loop.next == 0
    && !s.loop.mustWake && s.loop.pushers == {} && s.loop.quitters == {}
    && !s.inFrame && s.ops == [] && s.holds == {} && s.active == [] && !s.dangled
  }

  /** From the test of `quit_` to the poll. */
  lemma ToPoll(s: Reactor) returns (s': Reactor)
    requires Reachable(s) && s.loop.pc.Testing? && !s.loop.quit && !s.inFrame && s.active == [] && !s.dangled
    ensures Reachable(s') && s' == s.(loop := s.loop.(pc := L.Polling, polls := s.loop.polls + 1))
  {
    hide Reachable, WellFormed, Inv;
    ReachableIsInv(s);
    var s1 := Next(s, LoopStep(L.Test));
    ReachableNext(s, LoopStep(L.Test));
    ReachableIsInv(s1);
    ReachableNext(s1, LoopStep(L.Poll));
    s' := Next(s1, LoopStep(L.Poll));
  }

  /** From the end of a dispatch to the batch. */
  lemma ToBatch(s: Reactor) returns (s': Reactor)
    requires Reachable(s) && s.loop.pc.Dispatching? && !s.inFrame && s.active == [] && !s.dangled
    ensures Reachable(s')
    ensures s' == s.(loop := s.loop.(pc := L.Running, calling := true, batch := s.loop.pending, next := 0, pending := []))
  {
    hide Reachable, WellFormed, Inv;
    ReachableIsInv(s);
    var s1 := Next(s, LoopStep(L.StartCalling));
    ReachableNext(s, LoopStep(L.StartCalling));
    ReachableIsInv(s1);
    ReachableNext(s1, LoopStep(L.Swap));
    s' := Next(s1, LoopStep(L.Swap));
  }

  /** A batch that is done, then the poll. */
  lemma ToRest(s: Reactor) returns (s': Reactor)
    requires Reachable(s) && s.loop.pc.Running? && s.loop.next == |s.loop.batch| && !s.loop.mustWake && !s.loop.quit
    requires !s.inFrame && s.active == [] && !s.dangled
    ensures Reachable(s')
    ensures s' == s.(loop := s.loop.(pc := L.Polling, polls := s.loop.polls + 1, calling := false, batch := [], next := 0))
  {
    hide Reachable, WellFormed, Inv;
    ReachableIsInv(s);
    ReachableNext(s, LoopStep(L.EndBatch));
    s' := ToPoll(Next(s, LoopStep(L.EndBatch)));
  }

  /** A server with one open connection, which user code holds. */
  ghost predicate Open(s: Reactor) {
    && AtRest(s) && 1 in s.conns && s.conns[1].state == C.Connected && s.users == {1} && s.callers == map[]
    && s.connections == map[Name(s, 1) := 1] && InKernel(s.epoll, 1)
  }

  lemma StartIsReachable(code: C.Code)
    requires C.Sound(code)
    ensures Reachable(Start(code, "", ""))
  {
    hide Start, WellFormed, Enabled;
    assert Legal(Start(code, "", ""), []) && After(Start(code, "", ""), []) == Start(code, "", "");
  }

  lemma Begun(code: C.Code) returns (s: Reactor)
    requires C.Sound(code)
    ensures Reachable(s) && AtRest(s) && s == Start(code, "", "").(loop := s.loop)
  {
    hide Reachable, WellFormed, Inv;
    var start := Start(code, "", "");
    StartIsReachable(code);
    ReachableIsInv(start);
    ReachableNext(start, LoopStep(L.Begin));
    s := ToPoll(Next(start, LoopStep(L.Begin)));
  }

  /** A client connects, and user code keeps the connection it is given. */
  lemma Accepted(code: C.Code, fd: int) returns (s: Reactor)
    requires C.Sound(code)
    ensures Reachable(s) && Open(s)
  {
    hide Reachable, WellFormed, Inv, N.ConnName, InKernel;
    var s0 := Begun(code);
    ReachableIsInv(s0);
    ReachableNext(s0, Wait([]));
    var s1 := Next(s0, Wait([]));
    var s2 := Connected(s1, fd);
    var s3 := ToBatch(s2);
    s := ToRest(s3);
  }

  lemma Connected(s: Reactor, fd: int) returns (s': Reactor)
    requires Reachable(s) && s.loop.pc.Dispatching? && !s.inFrame && s.active == [] && !s.dangled && s.ops == []
    requires s.nextConnId == 1 && s.conns == map[] && s.connections == map[] && s.users == {} && s.holds == {} && s.callers == map[]
    requires s.epoll == P.Epoll(map[], map[], map[])
    ensures Reachable(s') && s'.loop == s.loop && !s'.inFrame && s'.active == [] && !s'.dangled && s'.ops == [] && s'.holds == {}
    ensures 1 in s'.conns && s'.conns[1].state == C.Connected && s'.users == {1} && s'.callers == map[]
    ensures s'.connections == map[Name(s', 1) := 1] && InKernel(s'.epoll, 1)
  {
    hide Reachable, WellFormed, Inv, N.ConnName, AcceptOne, InKernel;
    ReachableIsInv(s);
    var step := Accept(fd, 0, false, false);
    ReachableNext(s, step);
    var s1 := Next(s, step);
    AcceptPlace(s, fd, 0, false, false);
    AcceptedConn(s, fd);
    ReachableIsInv(s1);
    ReachableNext(s1, ByUser(UserReturn));
    var s2 := Next(s1, ByUser(UserReturn));
    ReachableIsInv(s2);
    ReachableNext(s2, Return);
    var s3 := Next(s2, Return);
    ReachableIsInv(s3);
    assert 1 in s3.connections.Values by { assert s3.connections[Name(s3, 1)] == 1; }
    ReachableNext(s3, Acquire(1));
    s' := Next(s3, Acquire(1));
  }

  lemma AcceptedConn(s: Reactor, fd: int)
    requires WellFormed(s) && Enabled(s, Accept(fd, 0, false, false)) && s.nextConnId == 1
    requires s.epoll == P.Epoll(map[], map[], map[])
    ensures var s' := AcceptOne(s, fd, 0, false, false);
            && 1 in s'.conns && s'.conns[1].state == C.Connected && s'.inFrame && s'.active == s.active && !s'.dangled
            && s'.server == s.server && s'.ipPort == s.ipPort && s'.users == s.users && InKernel(s'.epoll, 1)
  {
    hide Alive, Commit, N.ConnName;
    var conn := C.NewConn(fd, 0, false, false);
    CommitFacts(Born(s, conn), 1, C.Establish(conn));
    assert AcceptOne(s, fd, 0, false, false).epoll.kernel[fd].channel == 1;
  }

  /** What the thread is doing that has passed its test by `deed`. */
  function CallOf(deed: OtherAction): Call
    requires deed.TestSend? || deed.TestShutdown?
  {
    if deed.TestSend? then SendCall(deed.conn, deed.data) else ShutdownCall(deed.conn)
  }

  /** A thread is in the middle of a call on connection 1. */
  ghost predicate Called(s: Reactor, call: Call) {
    && 1 in s.conns && s.users == {1} && s.callers == map[0 := call] && call.conn == 1
  }

  /** The thread finds the connection connected; the client then hangs up. */
  lemma CalledAndHungUp(s: Reactor, deed: OtherAction) returns (s': Reactor)
    requires Reachable(s) && Open(s) && (deed.TestSend? || deed.TestShutdown?) && deed.conn == 1
    ensures Reachable(s') && Called(s', CallOf(deed)) && s'.connections == map[Name(s', 1) := 1] && s'.active == [] && !s'.dangled
    ensures s'.inFrame && s'.ops == [Close(1)] && s'.loop == s.loop.(pc := L.Dispatching)
  {
    hide Reachable, WellFormed, Inv, N.ConnName, InKernel, Owned;
    ReachableIsInv(s);
    ReachableNext(s, ByOther(0, deed));
    var s1 := Next(s, ByOther(0, deed));
    ReachableIsInv(s1);
    var ready := [Ready(1, P.EPOLLHUP)];
    ReachableNext(s1, Wait(ready));
    var s2 := Next(s1, Wait(ready));
    ReachableIsInv(s2);
    ReachableNext(s2, Dispatch);
    s' := Next(s2, Dispatch);
    HangUpCloses();
  }

  lemma HangUpCloses()
    ensures DispatchOps(1, P.Callbacks(P.EPOLLHUP)) == [Close(1)]
  {
    var m := P.EPOLLHUP;
    assert m & P.EPOLLHUP != 0 && m & P.EPOLLIN == 0 && m & P.EPOLLERR == 0 && m & 1 == 0 && m & P.EPOLLOUT == 0;
    assert P.Callbacks(m) == [P.CloseCallback];
  }

  /** `handleClose`, with a user who does nothing, and `removeConnectionInLoop`. */
  lemma Closed(s: Reactor, call: Call) returns (s': Reactor)
    requires Reachable(s) && Called(s, call) && s.connections == map[Name(s, 1) := 1] && s.active == [] && !s.dangled
    requires s.inFrame && s.ops == [Close(1)] && s.loop.pc.Dispatching? && s.loop.pending == [] && !s.loop.calling && !s.loop.mustWake
    ensures Reachable(s') && Called(s', call) && s'.connections == map[] && s'.active == [] && !s'.dangled
    ensures s'.conns[1].state == C.Disconnected && !s'.inFrame && s'.ops == [] && s'.holds == {}
    ensures s'.loop == s.loop.(pending := [Destroyed(1)], pushed := s'.loop.pushed)
  {
    hide Reachable, WellFormed, Inv, N.ConnName, Owned, Commit;
    ReachableIsInv(s);
    var step := Exec(C.Wrote(0), EndOfFile);
    ReachableNext(s, step);
    var s1 := Next(s, step);
    CloseEffectOf(s, C.Wrote(0), EndOfFile);
    ReachableIsInv(s1);
    ReachableNext(s1, ByUser(UserReturn));
    var s2 := Next(s1, ByUser(UserReturn));
    ReachableIsInv(s2);
    ReachableNext(s2, step);
    var s3 := Next(s2, step);
    assert s3.connections == map[];
    ReachableIsInv(s3);
    ReachableNext(s3, Return);
    s' := Next(s3, Return);
  }

  lemma CloseEffectOf(s: Reactor, k: C.WriteResult, r: ReadResult)
    requires WellFormed(s) && Enabled(s, Exec(k, r)) && s.ops == [Close(1)] && 1 in s.users
    ensures var s' := ExecOne(s, k, r);
            && s' == s.(ops := [UserCode, Erase(1)], conns := s'.conns, epoll := s'.epoll, refused := s'.refused)
            && 1 in s'.conns && s'.conns[1].state == C.Disconnected
  {
    hide WellFormed, Owned, Commit;
    ClosingCommit(s);
  }

  lemma ClosingCommit(s: Reactor)
    requires WellFormed(s) && s.ops == [Close(1)]
    ensures InCallback(s) && 1 in s.conns
    ensures var framed := s.(ops := [UserCode, Erase(1)] + s.ops[1..]); var e := C.Close(s.conns[1]);
            && framed.ops == [UserCode, Erase(1)] && Commit(framed, 1, e).loop == s.loop
            && Commit(framed, 1, e) == framed.(conns := Commit(framed, 1, e).conns, epoll := Commit(framed, 1, e).epoll,
                                               refused := Commit(framed, 1, e).refused)
            && Commit(framed, 1, e).conns == s.conns[1 := e.conn]
  {
    assert s.ops[0] in s.ops;
  }

  /** The batch destroys the connection, which lives on by the user's pointer. */
  lemma DestroyedInBatch(s: Reactor, call: Call) returns (s': Reactor)
    requires Reachable(s) && Called(s, call) && s.connections == map[] && s.active == [] && !s.dangled && !s.inFrame
    requires s.conns[1].state == C.Disconnected && s.ops == [] && s.holds == {}
    requires s.loop.pc.Running? && s.loop.batch == [Destroyed(1)] && s.loop.next == 0 && !s.loop.mustWake && s.loop.pending == []
    ensures Reachable(s') && Called(s', call) && s'.connections == map[] && s'.active == [] && !s'.dangled && !s'.inFrame
    ensures s'.ops == [] && s'.holds == {} && s'.loop == s.loop.(next := 1, ran := s'.loop.ran)
  {
    hide Reachable, WellFormed, Inv, N.ConnName, Owned, Commit, P.Epoll.RemoveChannel;
    ReachableIsInv(s);
    ReachableNext(s, RunTask);
    var s1 := Next(s, RunTask);
    var step := Exec(C.Wrote(0), EndOfFile);
    ReachableIsInv(s1);
    ReachableNext(s1, step);
    var s2 := Next(s1, step);
    assert s2.ops == [Remove(1)];
    ReachableIsInv(s2);
    ReachableNext(s2, step);
    var s3 := Next(s2, step);
    assert s3.ops == [];
    ReachableIsInv(s3);
    ReachableNext(s3, Return);
    s' := Next(s3, Return);
  }

  /** The thread pushes at last, returns, and the user gives up the pointer; then the functor runs. */
  lemma PushedLate(s: Reactor, call: Call) returns (s': Reactor)
    requires Reachable(s) && AtRest(s) && Called(s, call) && s.connections == map[]
    ensures Reachable(s') && s'.dangled && s'.ops == Body(AsTask(call))
  {
    hide Reachable, WellFormed, Inv, N.ConnName, Alive;
    ReachableIsInv(s);
    ReachableNext(s, ByOther(0, PushCall));
    var s1 := Next(s, ByOther(0, PushCall));
    ReachableIsInv(s1);
    ReachableNext(s1, ByOther(0, OtherWake));
    var s2 := Next(s1, ByOther(0, OtherWake));
    ReachableIsInv(s2);
    ReachableNext(s2, Release(1));
    var s3 := Next(s2, Release(1));
    ReachableIsInv(s3);
    ReachableNext(s3, Wait([]));
    var s4 := ToBatch(Next(s3, Wait([])));
    s' := RunLate(s4, call);
  }

  lemma RunLate(s: Reactor, call: Call) returns (s': Reactor)
    requires Reachable(s) && s.loop.pc.Running? && s.loop.batch == [AsTask(call)] && s.loop.next == 0 && !s.loop.mustWake
    requires s.loop.pending == [] && !s.inFrame && !s.dangled && s.connections == map[] && s.users == {} && s.callers == map[]
    requires 1 in s.conns && call.conn == 1
    ensures Reachable(s') && s'.dangled && s'.ops == Body(AsTask(call))
  {
    hide Reachable, WellFormed, Inv, N.ConnName, Commit;
    ReachableIsInv(s);
    ReachableNext(s, RunTask);
    var s1 := Next(s, RunTask);
    ReachableIsInv(s1);
    var step := Exec(C.Failed(C.Pipe), EndOfFile);
    ReachableNext(s1, step);
    ExecDangles(s1, C.Failed(C.Pipe), EndOfFile);
    s' := Next(s1, step);
  }

  /** The failing run: a client connects and user code keeps the connection; another thread calls `send` (or
      `shutdown`) and finds it connected; the client hangs up, and the connection is closed, taken from the
      map and destroyed; the thread pushes its functor and returns, and the last pointer is dropped; the
      functor then runs on a connection that is gone.  For any payload, in any form of the code. */
  lemma BareThisCanDangle(code: C.Code, fd: int, deed: OtherAction) returns (s: Reactor)
    requires C.Sound(code) && (deed.TestSend? || deed.TestShutdown?) && deed.conn == 1
    ensures Reachable(s) && s.dangled && s.ops == Body(AsTask(CallOf(deed)))
  {
    hide Reachable, Called;
    var s0 := Accepted(code, fd);
    var s1 := CalledAndHungUp(s0, deed);
    var s2 := Closed(s1, CallOf(deed));
    var s3 := ToBatch(s2);
    SameCalled(s2, s3, CallOf(deed));
    var s4 := DestroyedInBatch(s3, CallOf(deed));
    var s5 := ToRest(s4);
    SameCalled(s4, s5, CallOf(deed));
    s := PushedLate(s5, CallOf(deed));
  }

  lemma SameCalled(s: Reactor, s': Reactor, call: Call)
    requires Called(s, call) && s' == s.(loop := s'.loop)
    ensures Called(s', call)
  {
  }
}
