/** Each connection within the whole server: what happens to it is a run of its own machine, so what is
    proved of those runs holds in the server. */
module Machines {
  import opened Buffers
  import opened Reactors
  import opened Ownership
  import opened ReactorInvariants
  import opened ReactorSteps
  import opened Runs
  import opened StepShapes
  import P = EpollPollers
  import L = EventLoops
  import C = Connections
  import N = Names

  // ---- Each connection within the whole ----

  /** `conn` is what `connectEstablished` and then `ops` make of a new connection. */
  ghost predicate MadeBy(code: C.Code, conn: C.Conn, start: C.Conn, ops: seq<C.Op>) {
    && start.Valid() && C.Legal(code, start, [C.EstablishOp] + ops)
    && conn == C.Run(code, start, [C.EstablishOp] + ops) && C.EstablishOp !in ops
  }

  /** The connections accepted in a run, in order; the ids that `nextConnId_` gives them count from 1. */
  function Accepts(steps: seq<Step>): (accepts: seq<Step>)
    ensures forall i :: 0 <= i < |accepts| ==> accepts[i].Accept?
    decreases |steps|
  {
    if steps == [] then []
    else Accepts(steps[..|steps| - 1]) + if steps[|steps| - 1].Accept? then [steps[|steps| - 1]] else []
  }

  /** The connection that `newConnection` constructs. */
  function Newborn(accept: Step): C.Conn
    requires accept.Accept?
  {
    C.NewConn(accept.fd, accept.highWaterMark, accept.hasWriteComplete, accept.hasHighWater)
  }

  /** What the steps of a run did to connection `c`, in their order. */
  ghost function History(s: Reactor, steps: seq<Step>, c: Id): seq<C.Op>
    requires Legal(s, steps)
    decreases |steps|
  {
    if steps == [] then []
    else History(s, steps[..|steps| - 1], c) + OpOn(After(s, steps[..|steps| - 1]), steps[|steps| - 1], c)
  }

  lemma MadeByMore(code: C.Code, conn: C.Conn, start: C.Conn, ops: seq<C.Op>, op: C.Op)
    requires conn.Valid() && MadeBy(code, conn, start, ops) && C.May(code, conn, op) && !op.EstablishOp?
    ensures MadeBy(code, C.Apply(code, conn, op).conn, start, ops + [op])
  {
    hide C.Apply, C.May;
    C.ExtendRun(code, start, [C.EstablishOp] + ops, op);
    assert [C.EstablishOp] + ops + [op] == [C.EstablishOp] + (ops + [op]);
  }

  lemma MadeByNone(code: C.Code, start: C.Conn)
    requires start.Valid() && start.state == C.Connecting
    ensures MadeBy(code, C.Establish(start).conn, start, [])
  {
  }

  /** Each connection so far is what its own history makes of it. */
  ghost predicate Historic(s: Reactor, steps: seq<Step>)
    requires Legal(s, steps)
  {
    var now, accepts := After(s, steps), Accepts(steps);
    && now.code == s.code && now.nextConnId == |accepts| + 1
    && (forall c :: 1 <= c <= |accepts| <==> c in now.conns)
    && forall c :: c in now.conns ==> MadeBy(s.code, now.conns[c], Newborn(accepts[c - 1]), History(s, steps, c))
  }

  /** Refinement: in every run of the whole server, each connection is exactly what its own machine makes of it:
      constructed as its `newConnection` said, established, and then put through the operations that the steps
      of the server performed on it, in their order and no others.  What is proved of the runs of that machine
      therefore holds in the server. */
  lemma {:induction false} EachConnectionRunsItsMachine(code: C.Code, server: string, ipPort: string, steps: seq<Step>)
    requires C.Sound(code) && |ipPort| <= N.LONGEST && Legal(Start(code, server, ipPort), steps)
    ensures var start := Start(code, server, ipPort); var s := After(start, steps); var accepts := Accepts(steps);
            && s.code == code && s.nextConnId == |accepts| + 1 && (forall c :: 1 <= c <= |accepts| <==> c in s.conns)
            && forall c :: c in s.conns ==>
                 s.conns[c].Valid() && MadeBy(code, s.conns[c], Newborn(accepts[c - 1]), History(start, steps, c))
    decreases |steps|
  {
    hide Inv, Next, Enabled, MadeBy;
    var start := Start(code, server, ipPort);
    StartIsFine(code, server, ipPort);
    RunsKeepInv(start, steps);
    InvIsWellFormed(After(start, steps));
    ValidConns(After(start, steps));
    if steps != [] {
      EachConnectionRunsItsMachine(code, server, ipPort, steps[..|steps| - 1]);
      MachinesGoOn(start, steps);
    }
  }

  /** No open connection is forgotten: while the loop runs, the kernel watches every connection that is not
      closed, on behalf of its own channel and with interest in input, so that it can notice its peer. */
  lemma OpenConnectionsAreWatched(code: C.Code, server: string, ipPort: string, steps: seq<Step>, c: Id)
    requires C.Sound(code) && |ipPort| <= N.LONGEST && Legal(Start(code, server, ipPort), steps)
    requires var s := After(Start(code, server, ipPort), steps);
             !s.loop.pc.Stopped? && c in s.conns && s.conns[c].state != C.Disconnected
    ensures var s := After(Start(code, server, ipPort), steps);
            && s.conns[c].fd in s.epoll.kernel
            && s.epoll.kernel[s.conns[c].fd] == P.Interest(s.conns[c].events, c)
            && s.conns[c].events & P.READ == P.READ
  {
    hide After, Legal, Start, Inv;
    StartIsFine(code, server, ipPort);
    RunsKeepInv(Start(code, server, ipPort), steps);
    EachConnectionRunsItsMachine(code, server, ipPort, steps);
    var s := After(Start(code, server, ipPort), steps);
    MadeConnsListen(code, s.conns[c], Newborn(Accepts(steps)[c - 1]), History(Start(code, server, ipPort), steps, c));
    OpenIsInKernel(s, c);
  }

  lemma MadeConnsListen(code: C.Code, conn: C.Conn, start: C.Conn, ops: seq<C.Op>)
    requires MadeBy(code, conn, start, ops) && start.state == C.Connecting && start.events == P.NONE
    ensures C.InterestInv(conn)
  {
    C.ListensUntilClosed(code, start, [C.EstablishOp] + ops);
  }

  lemma OpenIsInKernel(s: Reactor, c: Id)
    requires Inv(s) && !s.loop.pc.Stopped? && c in s.conns
    requires s.conns[c].state != C.Disconnected && C.InterestInv(s.conns[c])
    ensures s.conns[c].fd in s.epoll.kernel && s.epoll.kernel[s.conns[c].fd] == P.Interest(s.conns[c].events, c)
    ensures s.conns[c].events & P.READ == P.READ
  {
    hide CoreInv, WellFormed, Fds, Places, Streams, L.Inv, P.Agrees;
    PlaceOf(s, c);
    assert Chans(s.conns)[c] == P.Chan(s.conns[c].fd, s.conns[c].events);
    P.AgreementMeans(s.epoll, Chans(s.conns), c);
    assert P.NONE & P.READ != P.READ;
    IndexIsNeverNew(s.epoll, Chans(s.conns), c);
  }

  lemma IndexIsNeverNew(p: P.Epoll<Id>, chans: map<Id, P.Chan>, c: Id)
    requires P.Agrees(p, chans) && c in p.index
    ensures p.IndexOf(c) != P.New
  {
  }

  lemma MachinesGoOn(s: Reactor, steps: seq<Step>)
    requires Legal(s, steps) && steps != [] && Historic(s, steps[..|steps| - 1])
    ensures Historic(s, steps)
  {
    hide WellFormed, Enabled, Next, MadeBy, History;
    KeysAfter(After(s, steps[..|steps| - 1]), steps[|steps| - 1]);
    forall c | c in After(s, steps).conns
      ensures 1 <= c <= |Accepts(steps)|
      ensures MadeBy(s.code, After(s, steps).conns[c], Newborn(Accepts(steps)[c - 1]), History(s, steps, c))
    {
      MachineGoesOn(s, steps, c);
    }
  }

  lemma MachineGoesOn(s: Reactor, steps: seq<Step>, c: Id)
    requires Legal(s, steps) && steps != [] && Historic(s, steps[..|steps| - 1]) && c in After(s, steps).conns
    ensures 1 <= c <= |Accepts(steps)|
    ensures MadeBy(s.code, After(s, steps).conns[c], Newborn(Accepts(steps)[c - 1]), History(s, steps, c))
  {
    hide WellFormed, Enabled, Next, MadeBy, OpOn, Newborn;
    var before, step := steps[..|steps| - 1], steps[|steps| - 1];
    var b := After(s, before);
    KeysAfter(b, step);
    if c in b.conns {
      HistoryGoesOn(b, step, c, Newborn(Accepts(before)[c - 1]), History(s, before, c));
    } else {
      HistoryBegins(s, before, c);
      AcceptIsNewRun(b, step, c);
      assert [] + OpOn(b, step, c) == OpOn(b, step, c);
    }
  }

  lemma HistoryGoesOn(s: Reactor, step: Step, c: Id, start: C.Conn, ops: seq<C.Op>)
    requires WellFormed(s) && Enabled(s, step) && c in s.conns && MadeBy(s.code, s.conns[c], start, ops)
    ensures c in Next(s, step).conns && MadeBy(s.code, Next(s, step).conns[c], start, ops + OpOn(s, step, c))
  {
    hide WellFormed, Enabled, Next, MadeBy, OpOn, C.May, C.Apply;
    var more := StepIsAnOperation(s, step, c);
    if more == [] {
      assert ops + more == ops;
    } else {
      assert more == [more[0]];
      MadeByMore(s.code, s.conns[c], start, ops, more[0]);
    }
  }

  /** Before it exists, nothing is done to a connection. */
  lemma {:induction false} HistoryBegins(s: Reactor, steps: seq<Step>, c: Id)
    requires Legal(s, steps) && c !in After(s, steps).conns
    ensures History(s, steps, c) == []
    decreases |steps|
  {
    hide WellFormed, Enabled, Next, OpOn;
    if steps != [] {
      var b := After(s, steps[..|steps| - 1]);
      KeysAfter(b, steps[|steps| - 1]);
      HistoryBegins(s, steps[..|steps| - 1], c);
      NoOpOnNone(b, steps[|steps| - 1], c);
    }
  }

  lemma NoOpOnNone(s: Reactor, step: Step, c: Id)
    requires WellFormed(s) && Enabled(s, step) && c !in s.conns
    ensures OpOn(s, step, c) == []
  {
  }

  lemma AcceptIsNewRun(s: Reactor, step: Step, c: Id)
    requires WellFormed(s) && Enabled(s, step) && c in Next(s, step).conns && c !in s.conns && step.Accept?
    ensures MadeBy(s.code, Next(s, step).conns[c], Newborn(step), OpOn(s, step, c))
  {
    hide WellFormed, Alive, MadeBy;
    AcceptShape(s, step.fd, step.highWaterMark, step.hasWriteComplete, step.hasHighWater);
    MadeByNone(s.code, Newborn(step));
  }

  // ---- Leaving the kernel ----

  lemma ReachableListens(s: Reactor, c: Id)
    requires Reachable(s) && c in s.conns
    ensures C.InterestInv(s.conns[c])
  {
    var code, server, ipPort, steps :|
      && C.Sound(code) && |ipPort| <= N.LONGEST
      && Legal(Start(code, server, ipPort), steps) && s == After(Start(code, server, ipPort), steps);
    hide Legal, After;
    EachConnectionRunsItsMachine(code, server, ipPort, steps);
    MadeConnsListen(code, s.conns[c], Newborn(Accepts(steps)[c - 1]), History(Start(code, server, ipPort), steps, c));
  }

  lemma DroppedHasNoEntry(p: P.Epoll<Id>, chans: map<Id, P.Chan>, c: Id)
    requires P.Agrees(p, chans) && p.IndexOf(c) == P.Deleted
    ensures forall fd :: fd in p.kernel ==> p.kernel[fd].channel != c
  {
  }

  /** The update that empties a registered channel's mask. */
  lemma EmptyingLeaves(s: Reactor, c: Id)
    requires Owner(s) && Places(s) && Kernel(s) && Fds(s) && c in Alive(s) && c in s.conns && c in s.epoll.index
    ensures var chan := P.Chan(s.conns[c].fd, P.NONE); var p := s.epoll.UpdateChannel(c, chan);
            && s.epoll.CtlSucceeds(s.epoll.UpdateOp(c, P.NONE), chan.fd)
            && P.Leaves(p, c, chan, s.epoll.IndexOf(c) == P.Added)
            && (s.epoll.IndexOf(c) == P.Added ==> forall fd :: fd in p.kernel ==> p.kernel[fd].channel != c)
            && (s.conns[c].events != P.NONE ==> s.epoll.IndexOf(c) == P.Added)
  {
    hide Owner, Places, Fds, Alive, P.Agrees;
    AliveIsUnshared(s, c);
    var chan := P.Chan(s.conns[c].fd, P.NONE);
    assert Chans(s.conns)[c] == P.Chan(s.conns[c].fd, s.conns[c].events);
    P.UpdateKeepsAgreement(s.epoll, Chans(s.conns), c, chan);
    P.AgreementMeans(s.epoll, Chans(s.conns), c);
    IndexIsNeverNew(s.epoll, Chans(s.conns), c);
    if s.epoll.IndexOf(c) == P.Added {
      DroppedHasNoEntry(s.epoll.UpdateChannel(c, chan), Chans(s.conns)[c := chan], c);
    }
  }

  lemma ClosingEmpties(code: C.Code, conn: C.Conn, op: C.Op)
    requires conn.Valid() && C.May(code, conn, op) && (op.CloseOp? || (op.DestroyOp? && conn.state == C.Connected))
    ensures var e := C.Apply(code, conn, op);
            && e.updates && e.conn.state == C.Disconnected && e.conn.events == P.NONE && e.conn.fd == conn.fd
    ensures C.InterestInv(conn) && conn.state != C.Disconnected && conn.state != C.Connecting ==> conn.events != P.NONE
  {
    assert P.NONE & P.READ != P.READ;
  }

  /** A close takes the connection out of the kernel.  `handleClose`, or `connectDestroyed` of a connection that
      is still connected, issues one accepted `epoll_ctl` call: for an open connection it is the DEL, after which
      the index is kDeleted and the kernel has neither the descriptor nor any other entry for the channel.  A
      second `handleClose` finds the index kDeleted and registers the descriptor again, with an empty mask. */
  lemma CloseLeavesTheKernel(s: Reactor, k: C.WriteResult, r: ReadResult)
    requires Reachable(s) && WellFormed(s) && Enabled(s, Exec(k, r))
    requires s.ops[0].Close? || (s.ops[0].Destroy? && s.ops[0].conn in s.conns && s.conns[s.ops[0].conn].state == C.Connected)
    ensures var c := s.ops[0].conn; var s' := Next(s, Exec(k, r));
            && c in s.conns && c in s'.conns && s'.conns[c].state == C.Disconnected && s'.conns[c].fd == s.conns[c].fd
            && s'.refused == s.refused
            && P.Leaves(s'.epoll, c, P.Chan(s.conns[c].fd, P.NONE), s.epoll.IndexOf(c) == P.Added)
            && (s.epoll.IndexOf(c) == P.Added ==> forall fd :: fd in s'.epoll.kernel ==> s'.epoll.kernel[fd].channel != c)
            && (s.conns[c].state != C.Disconnected ==> s.epoll.IndexOf(c) == P.Added)
  {
    hide Reachable, CoreInv, WellFormed, Alive, Kernel, Fds, Places, Streams, L.Inv, ExecLive, Commit, C.Apply, C.May;
    hide P.Epoll.UpdateChannel, P.Epoll.CtlSucceeds, P.Epoll.UpdateOp, P.Leaves, P.Epoll.IndexOf, C.InterestInv;
    var c := s.ops[0].conn;
    ReachableIsInv(s);
    OpRegistered(s);
    OpsAreHeld(s);
    PlacedOrClosed(s, c);
    HeldIsAlive(s, c);
    ExecShape(s, k, r);
    ReachableListens(s, c);
    ClosingEmpties(s.code, s.conns[c], HeadOp(s, k)[0]);
    EmptyingLeaves(s, c);
    CommitFacts(s.(ops := Follow(s.ops[0]) + s.ops[1..]), c, C.Apply(s.code, s.conns[c], HeadOp(s, k)[0]));
  }

  lemma HeldIsAlive(s: Reactor, c: Id)
    requires c in s.holds
    ensures c in Alive(s)
  {
  }

  /** The destruction of a connection that is still connected closes it, and its connection callback runs before
      its channel is removed; of any other it only removes the channel. */
  lemma DestructionTellsTheUser(s: Reactor, k: C.WriteResult, r: ReadResult)
    requires Reachable(s) && WellFormed(s) && Enabled(s, Exec(k, r)) && s.ops[0].Destroy?
    ensures var c, s' := s.ops[0].conn, Next(s, Exec(k, r));
            && c in s.conns && c in s'.conns && !s'.dangled && s'.conns[c].state != C.Connected
            && (forall d :: d in s.conns && d != c ==> d in s'.conns && s'.conns[d] == s.conns[d])
            && s'.ops == (if s.conns[c].state == C.Connected then [UserCode] else []) + [Remove(c)] + s.ops[1..]
            && (s.conns[c].state != C.Connected ==> s'.conns == s.conns && s'.epoll == s.epoll)
  {
    hide Reachable, Inv, WellFormed, Alive, Commit, C.Apply, C.May, N.ConnName;
    ReachableIsInv(s);
    OpRegistered(s);
    DestroyedIsAlive(s);
    EnabledIsDefined(s, Exec(k, r));
    if s.conns[s.ops[0].conn].state == C.Connected {
      ExecShape(s, k, r);
      DestroyedIsDown(s.code, s.conns[s.ops[0].conn]);
      CommitFacts(s.(ops := Follow(s.ops[0]) + s.ops[1..]), s.ops[0].conn,
                  C.Apply(s.code, s.conns[s.ops[0].conn], C.DestroyOp));
    }
  }

  lemma DestroyedIsAlive(s: Reactor)
    requires Inv(s) && s.ops != [] && s.ops[0].Destroy?
    ensures s.ops[0].conn in Alive(s)
  {
    hide Owner, Rest;
    OpsAreHeld(s);
  }

  lemma DestroyedIsDown(code: C.Code, conn: C.Conn)
    requires conn.Valid() && C.May(code, conn, C.DestroyOp)
    ensures C.Apply(code, conn, C.DestroyOp).conn.state != C.Connected
  {
  }

  lemma EnabledIsDefined(s: Reactor, step: Step)
    requires WellFormed(s) && Enabled(s, step)
    ensures !s.dangled
  {
  }

  // ---- Drains and shutdowns, within the whole ----

  /** In the server, when `handleWrite` comes up with writing armed and the kernel takes some of what it is
      offered: exactly that much goes on the wire; if no more than was readable was taken, what waited is
      what went followed by what still waits; write-complete is queued exactly when nothing waits any more; and the
      half-close comes just when a connection shutting down is left unarmed.  Otherwise nothing is sent. */
  lemma DrainsTakeEffect(s: Reactor, k: C.WriteResult, r: ReadResult)
    requires Reachable(s) && WellFormed(s) && Enabled(s, Exec(k, r)) && s.ops[0].Write?
    ensures var c, s' := s.ops[0].conn, Next(s, Exec(k, r));
            && c in s.conns && c in s'.conns && s.conns[c].Valid() && s'.conns[c].Valid()
            && var b, b' := s.conns[c], s'.conns[c];
               && b.wire <= b'.wire && b'.accepted == b.accepted && b'.state == b.state
               && if P.IsWriting(b.events) && k.Wrote? && k.n > 0 then
                    && |b'.wire| == |b.wire| + k.n
                    && (k.n <= |b.Buffered()| ==> b.Buffered() == b'.wire[|b.wire|..] + b'.Buffered())
                    && (k.n >= |b.Buffered()| ==> b'.Buffered() == [])
                    && (Callback(c, C.WriteComplete) in Pushes(s, Exec(k, r)) <==> b'.Buffered() == [])
                    && (b'.halfCloses > b.halfCloses <==> b.state == C.Disconnecting && !P.IsWriting(b'.events))
                  else b' == b.(broken := b'.broken) && Callback(c, C.WriteComplete) !in Pushes(s, Exec(k, r))
  {
    hide Reachable, Inv, Alive, Next, WellFormed, Pushes, C.Apply, C.May;
    var c := s.ops[0].conn;
    ReachableIsInv(s);
    OpRegistered(s);
    WriterIsAlive(s);
    ValidConns(s);
    ValidConnsAfter(s, Exec(k, r));
    var ops := StepIsAnOperation(s, Exec(k, r), c);
    HandleWriteDrains(s.code, s.conns[c], k);
  }

  lemma WriterIsAlive(s: Reactor)
    requires Inv(s) && s.ops != [] && s.ops[0].Write?
    ensures s.ops[0].conn in Alive(s)
  {
    hide Owner, Rest;
    OpsAreHeld(s);
  }

  lemma ValidConnsAfter(s: Reactor, step: Step)
    requires Reachable(s) && WellFormed(s) && Enabled(s, step)
    ensures forall c :: c in Next(s, step).conns ==> Next(s, step).conns[c].Valid()
  {
    hide Reachable, WellFormed, Enabled, Next;
    ReachableNext(s, step);
    ReachableIsInv(Next(s, step));
    ValidConns(Next(s, step));
  }

  lemma HandleWriteDrains(code: C.Code, b: C.Conn, k: C.WriteResult)
    requires b.Valid() && C.May(code, b, C.HandleWriteOp(k))
    ensures var e := C.Apply(code, b, C.HandleWriteOp(k)); var b' := e.conn;
            && b'.Valid() && b.wire <= b'.wire && b'.accepted == b.accepted && b'.state == b.state
            && if P.IsWriting(b.events) && k.Wrote? && k.n > 0 then
                 && |b'.wire| == |b.wire| + k.n
                 && (k.n <= |b.Buffered()| ==> b.Buffered() == b'.wire[|b.wire|..] + b'.Buffered())
                 && (k.n >= |b.Buffered()| ==> b'.Buffered() == [])
                 && (C.WriteComplete in e.notes <==> b'.Buffered() == [])
                 && (b'.halfCloses > b.halfCloses <==> b.state == C.Disconnecting && !P.IsWriting(b'.events))
               else b' == b.(broken := b'.broken) && C.WriteComplete !in e.notes
  {
    if P.IsWriting(b.events) && k.Wrote? && k.n > 0 {
      C.DrainSummary(code, b, k);
      hide C.HandleWrite, P.IsWriting;
    }
  }

  /** In the server, `shutdown()` called by user code in the loop's thread: a connected connection is shutting
      down and half-closed at once unless writing is armed; any other is left as it is. */
  lemma ShutdownsTakeEffect(s: Reactor, c: Id)
    requires WellFormed(s) && Enabled(s, ByUser(UserShutdown(c)))
    ensures var s' := Next(s, ByUser(UserShutdown(c))); var b := s.conns[c]; var armed := P.IsWriting(b.events);
            && s'.epoll == s.epoll && s'.loop == s.loop && s'.ops == s.ops
            && s'.conns == s.conns[c := if b.state != C.Connected then b
                                        else b.(state := C.Disconnecting, halfCloses := b.halfCloses + if armed then 0 else 1,
                                                broken := b.broken || !armed)]
  {
    hide WellFormed, Alive, P.IsWriting;
  }

  // ---- The life of a connection ----

  /** The state does not go back, and what is accepted or on the wire is never taken back. */
  ghost predicate Advances(a: C.Conn, b: C.Conn) {
    C.Rank(b.state) >= C.Rank(a.state) && b.fd == a.fd && a.accepted <= b.accepted && a.wire <= b.wire
  }

  lemma OperationAdvances(code: C.Code, conn: C.Conn, op: C.Op)
    requires conn.Valid() && C.May(code, conn, op)
    ensures Advances(conn, C.Apply(code, conn, op).conn)
  {
    C.StepShrinks(code, conn, op);
    match op
    case SendOp(data, k) => if conn.state == C.Connected { C.SendSummary(conn, data, k); }
    case SendInLoopOp(data, k) => if conn.state != C.Disconnected { C.SendSummary(conn, data, k); }
    case HandleWriteOp(k) =>
      if P.IsWriting(conn.events) && k.Wrote? && k.n > 0 { C.DrainSummary(code, conn, k); }
    case _ =>
  }

  /** Life cycle: over every stretch of every run each connection only advances; it has been established
      from the moment it exists, hence before it can be destroyed. */
  lemma {:induction false} ConnectionsOnlyAdvance(s: Reactor, steps: seq<Step>, c: Id)
    requires Inv(s) && Legal(s, steps) && c in s.conns
    ensures c in After(s, steps).conns && Advances(s.conns[c], After(s, steps).conns[c])
    ensures s.conns[c].state != C.Connecting
    decreases |steps|
  {
    hide Inv, Next, Enabled, WellFormed;
    PlacedOrClosed(s, c);
    if steps != [] {
      ConnectionsOnlyAdvance(s, steps[..|steps| - 1], c);
      var b := After(s, steps[..|steps| - 1]);
      var ops := StepIsAnOperation(b, steps[|steps| - 1], c);
      if ops != [] {
        OperationAdvances(b.code, b.conns[c], ops[0]);
      }
    }
  }

  lemma PlacedOrClosed(s: Reactor, c: Id)
    requires Inv(s) && c in s.conns
    ensures s.conns[c].state != C.Connecting
  {
    hide Rest;
    PlaceOf(s, c);
  }

  lemma CommitIndex(s: Reactor, c: Id, e: C.Effect)
    requires InCallback(s)
    ensures Commit(s, c, e).epoll.index.Keys == s.epoll.index.Keys + if e.updates then {c} else {}
  {
    hide P.Epoll.UpdateChannel, P.Epoll.CtlSucceeds, P.Epoll.UpdateOp;
    IndexAfterUpdate(s.epoll, c, P.Chan(e.conn.fd, e.conn.events));
  }

  /** Which channels a piece of the library's code can register: only one that is registered already. */
  lemma ExecIndex(s: Reactor, k: C.WriteResult, r: ReadResult)
    requires Inv(s) && WellFormed(s) && Enabled(s, Exec(k, r))
    ensures ExecOne(s, k, r).epoll.index.Keys <= s.epoll.index.Keys
  {
    hide Inv, WellFormed, Alive, ExecLive, Commit, HeadOp, C.Apply, C.May;
    if HeadOp(s, k) == [] {
      IdleIndex(s, k, r);
    } else {
      ExecShape(s, k, r);
      HeadIsRegistered(s, k);
      CommitIndex(s.(ops := Follow(s.ops[0]) + s.ops[1..]), s.ops[0].conn,
                  C.Apply(s.code, s.conns[s.ops[0].conn], HeadOp(s, k)[0]));
    }
  }

  lemma IdleIndex(s: Reactor, k: C.WriteResult, r: ReadResult)
    requires WellFormed(s) && Enabled(s, Exec(k, r)) && HeadOp(s, k) == []
    ensures ExecLive(s, k, r).epoll.index.Keys <= s.epoll.index.Keys
  {
    hide WellFormed, L.Queued, N.ConnName;
  }

  lemma HeadIsRegistered(s: Reactor, k: C.WriteResult)
    requires Inv(s) && WellFormed(s) && s.ops != [] && !s.ops[0].UserCode? && HeadOp(s, k) != []
    requires s.ops[0].conn in s.conns && s.conns[s.ops[0].conn].Valid()
    requires C.May(s.code, s.conns[s.ops[0].conn], HeadOp(s, k)[0])
    ensures C.Apply(s.code, s.conns[s.ops[0].conn], HeadOp(s, k)[0]).updates ==> s.ops[0].conn in s.epoll.index
  {
    hide Inv, WellFormed, Alive;
    OpRegistered(s);
    if s.ops[0].Send? {
      IoFacts(s);
      OpFacts(s.code, s.conns[s.ops[0].conn], HeadOp(s, k)[0]);
    }
    hide C.HandleWrite, C.SendInLoop;
  }

  lemma OpRegistered(s: Reactor)
    requires Inv(s) && s.ops != [] && !s.ops[0].UserCode?
    ensures s.ops[0].conn in s.conns && InCallback(s)
    ensures s.ops[0].Close? || s.ops[0].Write? ==> s.ops[0].conn in s.epoll.index
    ensures s.ops[0].Destroy? && s.conns[s.ops[0].conn].state == C.Connected ==> s.ops[0].conn in s.epoll.index
  {
    hide Kernel, Fds, Streams, L.Inv, Shapes;
    OpsAreHeld(s);
    assert s.ops[0] in CoreOf(s).ops;
    assert CoreOf(s).states[s.ops[0].conn] == s.conns[s.ops[0].conn].state;
    if s.ops[0].Destroy? {
      assert Doomed(CoreOf(s), s.ops[0].conn);
    }
  }

  /** No step registers the channel of a connection that is closed and unregistered. */
  lemma ClosedIsNotRegisteredAgain(s: Reactor, step: Step, c: Id)
    requires Inv(s) && WellFormed(s) && Enabled(s, step) && c in s.conns
    requires s.conns[c].state == C.Disconnected && c !in s.epoll.index
    ensures c !in Next(s, step).epoll.index
  {
    hide Inv, WellFormed, Alive, ExecOne, Commit, N.ConnName, L.Queued, L.Step, OtherOne;
    match step
    case Exec(k, r) => ExecIndex(s, k, r);
    case ByUser(action) =>
      ValidConns(s);
      TurnIsCallback(s);
      match action {
        case UserSend(d, data, k) => CommitIndex(s, d, C.Send(s.conns[d], data, k));
        case UserShutdown(d) => CommitIndex(s, d, C.Quiet(C.Shutdown(s.conns[d])));
        case _ =>
      }
    case Accept(fd, mark, wc, hw) =>
      AcceptShape(s, fd, mark, wc, hw);
      TurnIsCallback(s);
      CommitIndex(Born(s, C.NewConn(fd, mark, wc, hw)), s.nextConnId, C.Establish(C.NewConn(fd, mark, wc, hw)));
    case ByOther(tid, deed) => OtherIndex(s, tid, deed);
    case _ =>
  }

  lemma OtherIndex(s: Reactor, tid: L.Tid, deed: OtherAction)
    requires WellFormed(s) && Enabled(s, ByOther(tid, deed))
    ensures OtherOne(s, tid, deed).epoll == s.epoll
  {
    hide WellFormed;
  }

  lemma TurnIsCallback(s: Reactor)
    requires WellFormed(s)
    ensures s.inFrame ==> InCallback(s)
    ensures s.loop.pc.Dispatching? ==> InCallback(s)
  {
  }

  /** Once closed and gone, gone for good: no later step of any run registers the channel again. */
  lemma {:induction false} ClosedStaysGone(s: Reactor, steps: seq<Step>, c: Id)
    requires Inv(s) && Legal(s, steps) && c in s.conns
    requires s.conns[c].state == C.Disconnected && c !in s.epoll.index
    ensures var s' := After(s, steps);
            c in s'.conns && s'.conns[c].state == C.Disconnected && c !in s'.epoll.index
    decreases |steps|
  {
    hide Inv, Next, Enabled, WellFormed;
    if steps != [] {
      var before := steps[..|steps| - 1];
      ClosedStaysGone(s, before, c);
      RunsKeepInv(s, before);
      ConnectionsOnlyAdvance(s, steps, c);
      ClosedIsNotRegisteredAgain(After(s, before), steps[|steps| - 1], c);
    }
  }

  // ---- The streams, within the whole ----

  /** In the server, with the readable length offered: at every moment what is on a connection's wire is a
      prefix of what it accepted, and without a fault the wire followed by the buffer is all of it. */
  lemma StreamsAreSound(s: Reactor, c: Id)
    requires Reachable(s) && c in s.conns && s.code.offersReadable
    ensures s.conns[c].Valid() && s.conns[c].wire <= s.conns[c].accepted
    ensures !s.conns[c].faulted ==> s.conns[c].Conserved()
  {
    hide Reachable, Owner, Kernel, Fds, Places, L.Inv, C.HalfInv;
    ReachableIsInv(s);
    ValidConns(s);
    assert s.conns[c].wire <= s.conns[c].wire + s.conns[c].Buffered();
  }

  /** In the server, as written or repaired: a half-close of a connection that is not closed and has lost
      nothing to a fault comes only when every payload accepted is on the wire. */
  lemma HalfClosesAreSound(s: Reactor, step: Step, c: Id)
    requires Reachable(s) && WellFormed(s) && Enabled(s, step) && c in s.conns && c in Next(s, step).conns
    requires var conn := Next(s, step).conns[c];
             conn.halfCloses > s.conns[c].halfCloses && conn.state != C.Disconnected && !conn.faulted
    ensures Next(s, step).conns[c].wire == Next(s, step).conns[c].accepted
  {
    hide Reachable, Next, Enabled, WellFormed, Owner, Kernel, Fds, Places, L.Inv;
    ReachableIsInv(s);
    var ops := StepIsAnOperation(s, step, c);
    C.HalfCloseNeedsUnarmed(s.code, s.conns[c], ops[0]);
    C.StepKeepsHalf(s.code, s.conns[c], ops[0]);
  }

  /** In the server: a step pushes a high-water callback for a connection exactly when it takes its buffer
      across the mark upwards, with the new length; and, with the readable length offered, it pushes a
      write-complete callback for a connection without a fault only when everything accepted is on the wire. */
  lemma CallbacksAreSound(s: Reactor, step: Step, c: Id)
    requires Reachable(s) && WellFormed(s) && Enabled(s, step) && c in s.conns
    ensures c in Next(s, step).conns && s.conns[c].Valid() && Next(s, step).conns[c].Valid()
    ensures var b := s.conns[c]; var b' := Next(s, step).conns[c];
            && (forall n :: Callback(c, C.HighWater(n)) in Pushes(s, step) <==>
                  b.hasHighWater && |b.Buffered()| < b.highWaterMark <= |b'.Buffered()| && n == |b'.Buffered()|)
            && (s.code.offersReadable && Callback(c, C.WriteComplete) in Pushes(s, step) && !b'.faulted ==>
                  b'.wire == b'.accepted)
  {
    hide Reachable, WellFormed, Enabled, Next, C.Apply, C.May, Pushes, C.Completes;
    var ops := StepIsAnOperation(s, step, c);
    ReachableNext(s, step);
    ReachableIsInv(Next(s, step));
    ValidConns(Next(s, step));
    if ops != [] {
      C.StepNotes(s.code, s.conns[c], ops[0]);
    }
    if s.code.offersReadable {
      StreamsAreSound(Next(s, step), c);
    }
    var b' := Next(s, step).conns[c];
    assert b'.Buffered() == [] ==> b'.wire + b'.Buffered() == b'.wire;
  }
}
