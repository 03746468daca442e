/** Functors that bind a bare `this`: another thread's `send` or `shutdown` finds the connection connected and
    pushes its functor later, so the push can come after the connection's destruction was queued or even
    run.  When such a functor finds its connection gone, and that it can. */
module BareFunctors {
  import opened Buffers
  import opened Reactors
  import opened Ownership
  import opened ReactorInvariants
  import opened ReactorSteps
  import opened Runs
  import opened StepShapes
  import P = EpollPollers
  import L = EventLoops
  import C = Connections
  import N = Names

  // ---- What the library keeps, and for how long ----

  /** The connections that the library holds until the next swap at least: those in the server's map and
      those of functors waiting for it. */
  function Kept(s: Reactor): set<Id> {
    s.connections.Values + Holders(s.loop.pending)
  }

  /** The p-th functor ever pushed has been swapped into a batch. */
  predicate Swapped(s: Reactor, p: nat) {
    p + |s.loop.pending| < |s.loop.pushed|
  }

  /** The connections that the library holds until the p-th functor has run: a batch keeps its functors
      until its end. */
  function KeptFor(s: Reactor, p: nat): set<Id> {
    Kept(s) + if Swapped(s, p) then Holders(s.loop.batch) else {}
  }

  /** The p-th functor has still to run, or is running. */
  predicate Unfinished(s: Reactor, p: nat) {
    p >= |s.loop.ran| || (p + 1 == |s.loop.ran| && s.inFrame && s.loop.pc.Running?)
  }

  /** The loop's sequences as a step finds or leaves them, with what the library keeps. */
  ghost predicate SameKept(s: Reactor, s': Reactor) {
    && Kept(s') == Kept(s) && s'.loop.batch == s.loop.batch && s'.loop.ran == s.loop.ran
    && |s'.loop.pushed| - |s'.loop.pending| == |s.loop.pushed| - |s.loop.pending|
    && |s'.loop.pushed| >= |s.loop.pushed|
  }

  /** In a dispatch whatever is registered is kept: it is in the map, or its destruction is queued. */
  lemma RegisteredIsKept(s: Reactor, c: Id)
    requires Inv(s) && s.loop.pc.Dispatching? && c in s.epoll.index
    ensures c in Kept(s)
  {
    hide Kernel, Fds, Streams, Places, L.QuitIsSeen, L.Announced, States;
    assert s.loop.batch == [];
    assert c in CoreOf(s).registered;
    if c !in s.connections.Values {
      assert Destroyed(c) in Queue(s.loop);
      HolderIn(Destroyed(c), s.loop.pending);
    }
  }

  /** While the loop runs, an open connection is in the map. */
  lemma OpenIsKept(s: Reactor, c: Id)
    requires Inv(s) && !s.loop.pc.Stopped? && c in s.conns && s.conns[c].state != C.Disconnected
    ensures c in Kept(s)
  {
    hide Rest;
    PlaceOf(s, c);
  }

  lemma HoldersOfPush(tasks: seq<Task>, t: Task)
    ensures Holders(tasks + [t]) == Holders(tasks) + if t.Destroyed? || t.Callback? then {t.conn} else {}
  {
    HoldersOfSum(tasks, [t]);
  }

  /** An operation takes effect: what it pushes, if anything, holds only what is kept. */
  lemma CommitKeeps(s: Reactor, c: Id, e: C.Effect)
    requires InCallback(s) && (e.notes != [] ==> c in Kept(s))
    ensures SameKept(s, Commit(s, c, e))
  {
    hide Commit, L.Inv;
    CommitFacts(s, c, e);
    if e.notes != [] {
      HoldersOfPush(s.loop.pending, Callback(c, e.notes[0]));
    }
  }

  lemma SendNotesNeedOpen(code: C.Code, conn: C.Conn, op: C.Op)
    requires conn.Valid() && C.May(code, conn, op) && C.Apply(code, conn, op).notes != []
    ensures op.SendOp? || op.SendInLoopOp? || op.HandleWriteOp?
    ensures !op.HandleWriteOp? ==> conn.state != C.Disconnected
  {
    hide Buf.Append, Buf.Readable, P.IsWriting;
  }

  lemma ExecKeeps(s: Reactor, k: C.WriteResult, r: ReadResult)
    requires Inv(s) && WellFormed(s) && Enabled(s, Exec(k, r)) && !s.loop.pc.Stopped?
    ensures SameKept(s, ExecOne(s, k, r))
  {
    hide Inv, WellFormed, Alive, ExecLive, Commit, C.Apply, C.May, Kept;
    var c := s.ops[0].conn;
    if c !in Alive(s) {
      SameLoop(s, s.(dangled := true));
    } else if HeadOp(s, k) == [] {
      IdleKeeps(s, k, r);
    } else {
      ExecShape(s, k, r);
      var framed := s.(ops := Follow(s.ops[0]) + s.ops[1..]);
      var e := C.Apply(s.code, s.conns[c], HeadOp(s, k)[0]);
      SameLoop(s, framed);
      if e.notes != [] {
        SendNotesNeedOpen(s.code, s.conns[c], HeadOp(s, k)[0]);
        NotedIsKept(s, k, c);
      }
      CommitKeeps(framed, c, e);
    }
  }

  lemma NotedIsKept(s: Reactor, k: C.WriteResult, c: Id)
    requires Inv(s) && WellFormed(s) && !s.loop.pc.Stopped? && s.ops != [] && !s.ops[0].UserCode? && c == s.ops[0].conn
    requires c in s.conns && HeadOp(s, k) != []
    requires HeadOp(s, k)[0].HandleWriteOp? || (HeadOp(s, k)[0].SendInLoopOp? && s.conns[c].state != C.Disconnected)
    ensures c in Kept(s)
  {
    hide Inv, WellFormed, Kept;
    if s.ops[0].Write? {
      IoFacts(s);
      WritesInDispatch(s);
      RegisteredIsKept(s, c);
    } else {
      OpenIsKept(s, c);
    }
  }

  lemma WritesInDispatch(s: Reactor)
    requires Inv(s) && s.ops != [] && (s.ops[0].Write? || s.ops[0].Erase?)
    ensures s.loop.pc.Dispatching? && (s.ops[0].Erase? ==> s.ops[0].conn in s.epoll.index)
  {
    hide Rest, States;
    ReadIsInDispatch(CoreOf(s));
    assert s.ops[0] in CoreOf(s).ops;
  }

  lemma SameLoop(s: Reactor, s': Reactor)
    requires s'.loop == s.loop && s'.connections == s.connections
    ensures SameKept(s, s') && Kept(s') == Kept(s)
  {
  }

  lemma IdleKeeps(s: Reactor, k: C.WriteResult, r: ReadResult)
    requires Inv(s) && WellFormed(s) && Enabled(s, Exec(k, r)) && HeadOp(s, k) == []
    ensures SameKept(s, ExecLive(s, k, r))
  {
    hide Inv, WellFormed, L.Queued, N.ConnName, Holders, Kept;
    FrameIsCallback(s);
    var c := s.ops[0].conn;
    if s.ops[0].Erase? {
      EraseKeeps(s, c);
    } else {
      SameLoop(s, ExecLive(s, k, r));
    }
  }

  lemma FrameIsCallback(s: Reactor)
    requires Inv(s) && s.ops != []
    ensures InCallback(s)
  {
    hide Owner, Rest;
    OpsAreHeld(s);
  }

  lemma EraseKeeps(s: Reactor, c: Id)
    requires Inv(s) && WellFormed(s) && s.ops != [] && s.ops[0] == Erase(c) && InCallback(s)
    ensures SameKept(s, QueueOwn(s.(ops := s.ops[1..], connections := s.connections - {Name(s, c)}), Destroyed(c)))
  {
    hide Owner, WellFormed, Kernel, Fds, Streams, Places, L.Inv, L.Queued, N.ConnName, Holders;
    WritesInDispatch(s);
    RegisteredIsKept(s, c);
    OpsAreHeld(s);
    EraseByName(s, c);
    QueuedFacts(s.loop, Destroyed(c));
    HoldersOfPush(s.loop.pending, Destroyed(c));
  }

  /** Every step but the swap, the end of a batch and a new connection leaves what is kept as it was. */
  lemma StepKeeps(s: Reactor, step: Step)
    requires Inv(s) && WellFormed(s) && Enabled(s, step) && !s.loop.pc.Stopped?
    requires !step.Accept? && !step.RunTask? && !(step.LoopStep? && (step.e.Swap? || step.e.EndBatch?))
    ensures SameKept(s, Next(s, step))
  {
    hide Inv, WellFormed, Alive, ExecOne, Commit, Kept, DispatchOne;
    if step.Exec? {
      ExecKeeps(s, step.k, step.r);
    } else if step.ByUser? {
      UserKeeps(s, step.action);
    } else if step.ByOther? {
      OtherKeeps(s, step.tid, step.deed);
    } else if step.Dispatch? {
      DispatchKeeps(s);
    } else if !step.Destruct? {
      SamePending(s, Next(s, step));
    }
  }

  lemma SamePending(s: Reactor, s': Reactor)
    requires s'.loop.pending == s.loop.pending && s'.loop.batch == s.loop.batch && s'.connections == s.connections
    requires s'.loop.pushed == s.loop.pushed && s'.loop.ran == s.loop.ran
    ensures SameKept(s, s')
  {
  }

  lemma DispatchKeeps(s: Reactor)
    requires WellFormed(s) && Enabled(s, Dispatch)
    ensures SameKept(s, DispatchOne(s))
  {
    hide WellFormed, Alive, Holders;
  }

  lemma UserKeeps(s: Reactor, action: UserAction)
    requires Inv(s) && WellFormed(s) && Enabled(s, ByUser(action)) && !s.loop.pc.Stopped?
    ensures SameKept(s, UserOne(s, action))
  {
    hide Inv, WellFormed, Alive, UserOne, Commit, C.Apply, C.May, Kept;
    UserShape(s, action);
    if UserOp(action) != [] {
      var c := action.conn;
      var e := C.Apply(s.code, s.conns[c], UserOp(action)[0]);
      if e.notes != [] {
        SendNotesNeedOpen(s.code, s.conns[c], UserOp(action)[0]);
        OpenIsKept(s, c);
      }
      CommitKeeps(s, c, e);
    } else {
      UserIdleKeeps(s, action);
    }
  }

  lemma UserIdleKeeps(s: Reactor, action: UserAction)
    requires WellFormed(s) && Enabled(s, ByUser(action)) && UserOp(action) == [] && InCallback(s)
    ensures SameKept(s, UserOne(s, action))
  {
    hide WellFormed, Alive, L.Queued, Holders;
    if action.UserQueue? {
      QueuedFacts(s.loop, User(action.id));
      HoldersOfPush(s.loop.pending, User(action.id));
    }
  }

  lemma OtherKeeps(s: Reactor, tid: L.Tid, deed: OtherAction)
    requires WellFormed(s) && Enabled(s, ByOther(tid, deed))
    ensures SameKept(s, OtherOne(s, tid, deed))
  {
    hide WellFormed, Alive, Holders;
    if deed.PushCall? {
      HoldersOfPush(s.loop.pending, AsTask(s.callers[tid]));
    } else if deed.OtherQueue? {
      HoldersOfPush(s.loop.pending, User(deed.id));
    }
  }

  // ---- A functor on its way ----

  /** The loop thread's place after a piece of library code or of user code is where it was. */
  lemma ExecPlace(s: Reactor, k: C.WriteResult, r: ReadResult)
    requires WellFormed(s) && Enabled(s, Exec(k, r))
    ensures var s' := ExecOne(s, k, r);
            s'.loop.pc == s.loop.pc && s'.inFrame == s.inFrame && s'.holds == s.holds && s'.users == s.users
            && s'.callers == s.callers
  {
    hide WellFormed, Alive, ExecLive, Commit, C.Apply, C.May, HeadOp;
    if s.ops[0].conn in Alive(s) {
      if HeadOp(s, k) == [] {
        ExecIdle(s, k, r);
      } else {
        ExecShape(s, k, r);
        CommitFacts(s.(ops := Follow(s.ops[0]) + s.ops[1..]), s.ops[0].conn,
                    C.Apply(s.code, s.conns[s.ops[0].conn], HeadOp(s, k)[0]));
      }
    }
  }

  lemma UserPlace(s: Reactor, action: UserAction)
    requires WellFormed(s) && Enabled(s, ByUser(action))
    ensures var s' := UserOne(s, action);
            && s'.loop.pc == s.loop.pc && s'.inFrame == s.inFrame && s'.holds == s.holds && s'.users == s.users
            && s'.callers == s.callers && s'.ops == if action.UserReturn? then s.ops[1..] else s.ops
  {
    hide WellFormed, Alive, UserOne, Commit, C.Apply, C.May;
    UserShape(s, action);
    if UserOp(action) != [] {
      CommitFacts(s, action.conn, C.Apply(s.code, s.conns[action.conn], UserOp(action)[0]));
    }
  }

  lemma AcceptPlace(s: Reactor, fd: int, mark: nat, wc: bool, hw: bool)
    requires WellFormed(s) && Enabled(s, Accept(fd, mark, wc, hw))
    ensures var s' := AcceptOne(s, fd, mark, wc, hw);
            && s'.loop == s.loop && s'.ops == [UserCode] && s'.users == s.users && s'.callers == s.callers
            && s'.connections == s.connections[Name(s, s.nextConnId) := s.nextConnId]
  {
    hide Alive, Owned, Commit, N.ConnName;
    var conn := C.NewConn(fd, mark, wc, hw);
    CommitFacts(Born(s, conn), s.nextConnId, C.Establish(conn));
    CommitQuietly(Born(s, conn), s.nextConnId, C.Establish(conn));
  }

  lemma CommitQuietly(s: Reactor, c: Id, e: C.Effect)
    requires InCallback(s) && e.notes == []
    ensures Commit(s, c, e).loop == s.loop
  {
  }

  /** A loop that has stopped stays so, and a frame of the batch is opened by `RunTask` only. */
  lemma PlaceAfter(s: Reactor, step: Step)
    requires WellFormed(s) && Enabled(s, step)
    ensures s.loop.pc.Stopped? ==> Next(s, step).loop.pc.Stopped?
    ensures !step.RunTask? && Next(s, step).inFrame && Next(s, step).loop.pc.Running? ==> s.inFrame && s.loop.pc.Running?
  {
    hide Alive, ExecOne, UserOne, AcceptOne, WellFormed, N.ConnName, OtherOne;
    match step
    case Exec(k, r) => ExecPlace(s, k, r);
    case ByUser(action) => UserPlace(s, action);
    case Accept(fd, mark, wc, hw) => AcceptPlace(s, fd, mark, wc, hw);
    case ByOther(tid, deed) => OtherPlace(s, tid, deed);
    case _ =>
  }

  lemma OtherPlace(s: Reactor, tid: L.Tid, deed: OtherAction)
    requires WellFormed(s) && Enabled(s, ByOther(tid, deed))
    ensures var s' := OtherOne(s, tid, deed);
            && s'.loop.pc == s.loop.pc && s'.inFrame == s.inFrame && s'.ops == s.ops && s'.holds == s.holds
            && s'.users == s.users
  {
    hide Alive, WellFormed;
  }

  /** The swap, the end of a batch, the next functor and a new connection, seen from an unfinished functor. */
  lemma TurnKeeps(s: Reactor, step: Step, p: nat, c: Id)
    requires Inv(s) && WellFormed(s) && Enabled(s, step) && c in s.conns && p < |s.loop.pushed|
    requires step.Accept? || step.RunTask? || (step.LoopStep? && (step.e.Swap? || step.e.EndBatch?))
    requires Unfinished(Next(s, step), p)
    ensures Unfinished(s, p) && |Next(s, step).loop.pushed| >= |s.loop.pushed|
    ensures c in KeptFor(Next(s, step), p) <==> c in KeptFor(s, p)
  {
    hide Owner, WellFormed, Kernel, Fds, Streams, Places, Alive, Holders, AcceptOne, N.ConnName, L.QuitIsSeen, L.Announced;
    match step
    case Accept(fd, mark, wc, hw) =>
      AcceptPlace(s, fd, mark, wc, hw);
      NewKeeps(s, c);
    case LoopStep(e) =>
      assert s.loop.next <= |s.loop.batch| && |s.loop.ran| + (|s.loop.batch| - s.loop.next) + |s.loop.pending| == |s.loop.pushed|;
      if e.Swap? {
        assert Holders([]) == {} by { NoHolders(); }
      }
    case RunTask =>
  }

  lemma NoHolders()
    ensures Holders([]) == {}
  {
  }

  lemma NewKeeps(s: Reactor, c: Id)
    requires Inv(s) && WellFormed(s) && c in s.conns
    ensures c in s.connections[Name(s, s.nextConnId) := s.nextConnId].Values <==> c in s.connections.Values
  {
    hide Owner, Kernel, Fds, Streams, L.Inv, N.ConnName;
    NewNameIsFresh(s);
    ValuesAfterInsert(s.connections, Name(s, s.nextConnId), s.nextConnId);
  }

  /** Whether the library keeps a connection for a functor on its way never changes until the functor has run:
      nothing that can be pushed meanwhile holds a connection that is not kept already. */
  lemma KeptForStays(s: Reactor, step: Step, p: nat, c: Id)
    requires Inv(s) && WellFormed(s) && Enabled(s, step) && c in s.conns && p < |s.loop.pushed|
    requires Unfinished(Next(s, step), p) && !Next(s, step).loop.pc.Stopped?
    ensures Unfinished(s, p) && !s.loop.pc.Stopped? && |Next(s, step).loop.pushed| >= |s.loop.pushed|
    ensures c in KeptFor(Next(s, step), p) <==> c in KeptFor(s, p)
  {
    hide Inv, WellFormed, Enabled, Next, Kept;
    PlaceAfter(s, step);
    if step.Accept? || step.RunTask? || (step.LoopStep? && (step.e.Swap? || step.e.EndBatch?)) {
      TurnKeeps(s, step, p, c);
    } else {
      StepKeeps(s, step);
    }
  }

  lemma {:induction false} GrowsLong(s: Reactor, steps: seq<Step>, c: Id)
    requires Inv(s) && Legal(s, steps) && c in s.conns
    ensures c in After(s, steps).conns && |After(s, steps).loop.pushed| >= |s.loop.pushed|
    decreases |steps|
  {
    hide Inv, Next, Enabled, WellFormed;
    if steps != [] {
      GrowsLong(s, steps[..|steps| - 1], c);
      var _ := StepIsAnOperation(After(s, steps[..|steps| - 1]), steps[|steps| - 1], c);
    }
  }

  lemma {:induction false} KeptForStaysLong(s: Reactor, steps: seq<Step>, p: nat, c: Id)
    requires Inv(s) && Legal(s, steps) && c in s.conns && p < |s.loop.pushed|
    requires Unfinished(After(s, steps), p) && !After(s, steps).loop.pc.Stopped?
    ensures Unfinished(s, p) && !s.loop.pc.Stopped?
    ensures c in KeptFor(After(s, steps), p) <==> c in KeptFor(s, p)
    decreases |steps|
  {
    hide Inv, Next, Enabled, WellFormed, KeptFor, Unfinished;
    if steps != [] {
      var before := steps[..|steps| - 1];
      RunsKeepInv(s, before);
      GrowsLong(s, before, c);
      KeptForStays(After(s, before), steps[|steps| - 1], p, c);
      KeptForStaysLong(s, before, p, c);
    }
  }

  // ---- The frame of such a functor ----

  /** The frame of a functor with a bare `this` holds no pointer. */
  ghost predicate HoldsNothing(s: Reactor) {
    forall op :: op in s.ops && (op.Send? || op.Shutdown?) ==> s.holds == {}
  }

  lemma ExecHolds(s: Reactor, k: C.WriteResult, r: ReadResult)
    requires WellFormed(s) && Enabled(s, Exec(k, r)) && HoldsNothing(s)
    ensures HoldsNothing(ExecOne(s, k, r))
  {
    hide WellFormed, Alive, ExecLive, Commit, C.Apply, C.May, HeadOp;
    ExecPlace(s, k, r);
    ExecOps(s, k, r);
  }

  lemma ExecOps(s: Reactor, k: C.WriteResult, r: ReadResult)
    requires WellFormed(s) && Enabled(s, Exec(k, r))
    ensures forall op :: op in ExecOne(s, k, r).ops && (op.Send? || op.Shutdown?) ==> op in s.ops
  {
    hide WellFormed, Alive, ExecLive, Commit, C.Apply, C.May;
    if s.ops[0].conn in Alive(s) {
      if HeadOp(s, k) == [] {
        IdleOps(s, k, r);
      } else {
        ExecShape(s, k, r);
        CommitFacts(s.(ops := Follow(s.ops[0]) + s.ops[1..]), s.ops[0].conn,
                    C.Apply(s.code, s.conns[s.ops[0].conn], HeadOp(s, k)[0]));
      }
    }
  }

  lemma IdleOps(s: Reactor, k: C.WriteResult, r: ReadResult)
    requires WellFormed(s) && Enabled(s, Exec(k, r)) && HeadOp(s, k) == []
    ensures forall op :: op in ExecLive(s, k, r).ops && (op.Send? || op.Shutdown?) ==> op in s.ops
  {
    hide WellFormed, L.Queued, N.ConnName;
  }

  lemma StepHolds(s: Reactor, step: Step)
    requires WellFormed(s) && Enabled(s, step) && HoldsNothing(s)
    ensures HoldsNothing(Next(s, step))
  {
    hide Alive, ExecOne, UserOne, AcceptOne, WellFormed, N.ConnName, OtherOne, DispatchOne;
    match step
    case Exec(k, r) => ExecHolds(s, k, r);
    case ByUser(action) => UserPlace(s, action);
    case Accept(fd, mark, wc, hw) => AcceptPlace(s, fd, mark, wc, hw);
    case ByOther(tid, deed) => OtherPlace(s, tid, deed);
    case Dispatch => DispatchHolds(s);
    case RunTask =>
      var t := s.loop.batch[s.loop.next];
      assert (t.RawSend? || t.RawShutdown?) ==> Holders([t]) == {};
    case _ =>
  }

  lemma DispatchHolds(s: Reactor)
    requires WellFormed(s) && Enabled(s, Dispatch)
    ensures HoldsNothing(DispatchOne(s))
  {
    hide Alive;
    DispatchOpsFacts(s.active[0].conn, P.Callbacks(s.active[0].revents));
  }

  lemma {:induction false} RunsHold(s: Reactor, steps: seq<Step>)
    requires Legal(s, steps) && HoldsNothing(s)
    ensures HoldsNothing(After(s, steps))
    decreases |steps|
  {
    hide Next, Enabled, WellFormed, HoldsNothing;
    if steps != [] {
      RunsHold(s, steps[..|steps| - 1]);
      StepHolds(After(s, steps[..|steps| - 1]), steps[|steps| - 1]);
    }
  }

  lemma ReachableHolds(s: Reactor)
    requires Reachable(s)
    ensures HoldsNothing(s)
  {
    var code, server, ipPort, steps :|
      && C.Sound(code) && |ipPort| <= N.LONGEST
      && Legal(Start(code, server, ipPort), steps) && s == After(Start(code, server, ipPort), steps);
    hide Legal, After;
    RunsHold(Start(code, server, ipPort), steps);
  }

  // ---- Exactly when it dangles ----

  /** The push of another thread's call, as a step. */
  lemma PushFacts(s: Reactor, tid: L.Tid)
    requires Inv(s) && WellFormed(s) && Enabled(s, ByOther(tid, PushCall))
    ensures var s' := Next(s, ByOther(tid, PushCall)); var p := |s.loop.pushed|; var c := s.callers[tid].conn;
            && p < |s'.loop.pushed| && c in s'.conns && (c in KeptFor(s', p) <==> c in Kept(s))
  {
    hide Owner, WellFormed, Kernel, Fds, Streams, Places, Holders, Alive, L.QuitIsSeen, L.Announced;
    CallerFacts(s, tid);
    HoldersOfPush(s.loop.pending, AsTask(s.callers[tid]));
  }

  lemma CallerFacts(s: Reactor, tid: L.Tid)
    requires WellFormed(s) && tid in s.callers
    ensures s.callers[tid].conn in s.conns
  {
  }

  /** While a functor with a bare `this` runs, what the library owns is what it keeps for it. */
  lemma OwnedInFrame(s: Reactor, p: nat)
    requires Inv(s) && HoldsNothing(s) && s.loop.pc.Running? && s.inFrame && |s.loop.ran| == p + 1
    requires s.ops != [] && (s.ops[0].Send? || s.ops[0].Shutdown?)
    ensures Owned(s) == KeptFor(s, p) && Unfinished(s, p)
  {
    hide Owner, WellFormed, Kernel, Fds, Streams, Places, Holders, L.QuitIsSeen, L.Announced;
    assert s.ops[0] in s.ops;
    assert |s.loop.ran| + (|s.loop.batch| - s.loop.next) + |s.loop.pending| == |s.loop.pushed|;
  }

  /** Exactly when a bare `this` dangles.  Another thread, in a `send` or `shutdown` that found the connection
      connected, pushes its functor in state `s`; later the functor's body is about to run.  The connection is
      gone by then if and only if the push came late (the connection was no longer in the server's map, and no
      functor waiting for the next swap held it) and user code has not kept a pointer until now. */
  lemma BareThisDanglesExactlyWhen(s: Reactor, tid: L.Tid, steps: seq<Step>, k: C.WriteResult, r: ReadResult)
    requires Reachable(s) && WellFormed(s) && Enabled(s, ByOther(tid, PushCall))
    requires Legal(Next(s, ByOther(tid, PushCall)), steps)
    requires var s' := After(Next(s, ByOther(tid, PushCall)), steps);
             && s'.loop.pc.Running? && |s'.loop.ran| == |s.loop.pushed| + 1 && s'.ops == Body(AsTask(s.callers[tid]))
             && WellFormed(s') && Enabled(s', Exec(k, r))
    ensures var s' := After(Next(s, ByOther(tid, PushCall)), steps); var c := s.callers[tid].conn;
            && Next(s', Exec(k, r)).dangled == (c !in Alive(s'))
            && (c !in Alive(s') <==> c !in Kept(s) && c !in s'.users && c !in Callers(s'))
  {
    hide Reachable, Inv, Next, Legal, After, Kept, KeptFor, Unfinished, HoldsNothing, WellFormed, Owned, Callers;
    var pushed := Next(s, ByOther(tid, PushCall));
    var s' := After(pushed, steps);
    var p, c := |s.loop.pushed|, s.callers[tid].conn;
    ReachableIsInv(s);
    PushFacts(s, tid);
    PushKeepsInv(s, tid);
    RunsKeepInv(pushed, steps);
    ReachableNext(s, ByOther(tid, PushCall));
    ReachableAfter(pushed, steps);
    ReachableHolds(s');
    OwnedInFrame(s', p);
    KeptForStaysLong(pushed, steps, p, c);
    ExecDangles(s', k, r);
  }

  lemma PushKeepsInv(s: Reactor, tid: L.Tid)
    requires Inv(s) && WellFormed(s) && Enabled(s, ByOther(tid, PushCall))
    ensures Inv(Next(s, ByOther(tid, PushCall)))
  {
    hide Inv, WellFormed, Enabled, Next;
    StepKeepsInv(s, ByOther(tid, PushCall));
  }

  lemma ExecDangles(s: Reactor, k: C.WriteResult, r: ReadResult)
    requires WellFormed(s) && Enabled(s, Exec(k, r))
    ensures Next(s, Exec(k, r)).dangled == (s.ops[0].conn !in Alive(s))
  {
    hide WellFormed, Alive, ExecLive, Commit, C.Apply, C.May, HeadOp;
    if s.ops[0].conn in Alive(s) {
      if HeadOp(s, k) == [] {
        ExecIdle(s, k, r);
      } else {
        ExecShape(s, k, r);
        CommitFacts(s.(ops := Follow(s.ops[0]) + s.ops[1..]), s.ops[0].conn,
                    C.Apply(s.code, s.conns[s.ops[0].conn], HeadOp(s, k)[0]));
      }
    }
  }

  // ---- Users who keep their pointers ----

  lemma OtherStepsAreDefined(s: Reactor, step: Step)
    requires WellFormed(s) && Enabled(s, step) && !step.Exec?
    ensures !Next(s, step).dangled
  {
    hide Alive, UserOne, AcceptOne, WellFormed, N.ConnName, OtherOne, Commit, C.Apply, C.May;
    match step
    case ByUser(action) =>
      UserShape(s, action);
      if UserOp(action) != [] {
        CommitFacts(s, action.conn, C.Apply(s.code, s.conns[action.conn], UserOp(action)[0]));
      }
    case Accept(fd, mark, wc, hw) => AcceptIsDefined(s, fd, mark, wc, hw);
    case ByOther(tid, deed) => OtherIsDefined(s, tid, deed);
    case _ =>
  }

  lemma AcceptIsDefined(s: Reactor, fd: int, mark: nat, wc: bool, hw: bool)
    requires WellFormed(s) && Enabled(s, Accept(fd, mark, wc, hw))
    ensures !AcceptOne(s, fd, mark, wc, hw).dangled
  {
    hide Alive, Commit, N.ConnName;
    var conn := C.NewConn(fd, mark, wc, hw);
    CommitFacts(Born(s, conn), s.nextConnId, C.Establish(conn));
  }

  lemma OtherIsDefined(s: Reactor, tid: L.Tid, deed: OtherAction)
    requires WellFormed(s) && Enabled(s, ByOther(tid, deed))
    ensures !OtherOne(s, tid, deed).dangled
  {
    hide Alive, WellFormed;
  }

  /** What a frame does to a connection other than by a bare `this` it does to one it holds. */
  lemma OthersAreHeld(s: Reactor)
    requires Inv(s)
    ensures forall op :: op in s.ops && !op.UserCode? && !op.Send? && !op.Shutdown? ==> op.conn in Owned(s)
  {
    hide Owner, Rest;
    OpsAreHeld(s);
  }

  /** Nothing but a bare `this` ever dangles: when a run has become undefined, the code about to run was that
      of another thread's `send` or `shutdown`, and neither the library nor user code holds its connection.
      Every other piece of library code finds its connection kept alive by the library itself. */
  lemma OnlyBareThisDangles(s: Reactor, steps: seq<Step>)
    requires Inv(s) && !s.dangled && Legal(s, steps)
    ensures var s' := After(s, steps);
            && (s'.dangled ==> s'.ops != [] && (s'.ops[0].Send? || s'.ops[0].Shutdown?) && s'.ops[0].conn !in Alive(s'))
            && forall op :: op in s'.ops && !op.UserCode? && !op.Send? && !op.Shutdown? ==> op.conn in Owned(s')
  {
    hide Inv, Next, Enabled, WellFormed, Alive, Owned;
    RunsKeepInv(s, steps);
    OthersAreHeld(After(s, steps));
    if steps != [] && After(s, steps).dangled {
      var b, step := After(s, steps[..|steps| - 1]), steps[|steps| - 1];
      RunsKeepInv(s, steps[..|steps| - 1]);
      LastStepDangles(b, step);
    }
  }

  lemma LastStepDangles(s: Reactor, step: Step)
    requires Inv(s) && WellFormed(s) && Enabled(s, step) && Next(s, step).dangled
    ensures var s' := Next(s, step);
            s'.ops != [] && (s'.ops[0].Send? || s'.ops[0].Shutdown?) && s'.ops[0].conn !in Alive(s')
  {
    hide Inv, WellFormed, Owned, ExecLive, Commit;
    if step.Exec? {
      ExecDangles(s, step.k, step.r);
      OthersAreHeld(s);
      assert s.ops[0] in s.ops;
      assert Owned(s.(dangled := true)) == Owned(s) by { SameOwned(s, s.(dangled := true)); }
    } else {
      OtherStepsAreDefined(s, step);
      assert false;
    }
  }

  /** A call or functor with a bare `this` of connection `c` is under way. */
  ghost predicate OnItsWay(s: Reactor, c: Id)
    requires s.loop.next <= |s.loop.batch|
  {
    || c in Callers(s)
    || (exists t :: t in Queue(s.loop) && (t.RawSend? || t.RawShutdown?) && t.conn == c)
    || (exists op :: op in s.ops && (op.Send? || op.Shutdown?) && op.conn == c)
  }

  /** User code holds every connection that is being called. */
  ghost predicate CallsAreHeld(s: Reactor)
    requires s.loop.next <= |s.loop.batch|
  {
    forall c :: OnItsWay(s, c) ==> c in s.users
  }

  /** In the run nobody gives up the last user pointer to a connection with a call under way. */
  ghost predicate Patient(s: Reactor, steps: seq<Step>)
    requires Legal(s, steps)
    decreases |steps|
  {
    steps == [] ||
    (&& Patient(s, steps[..|steps| - 1])
     && var b := After(s, steps[..|steps| - 1]); var step := steps[|steps| - 1];
        step.Release? ==> !OnItsWay(b, step.conn))
  }

  /** The functors with a bare `this` that a step pushes are those of calls. */
  lemma RawPushes(s: Reactor, step: Step)
    requires WellFormed(s) && Enabled(s, step)
    ensures Next(s, step).loop.pushed == s.loop.pushed + Pushes(s, step)
    ensures forall t :: t in Pushes(s, step) && (t.RawSend? || t.RawShutdown?) ==> t.conn in Callers(s)
    ensures !(step.ByOther? && step.deed.PushCall?) ==>
              forall t :: t in Pushes(s, step) ==> !t.RawSend? && !t.RawShutdown?
    ensures step.ByOther? && step.deed.PushCall? ==>
              step.tid in s.callers && Pushes(s, step) == [AsTask(s.callers[step.tid])]
  {
    hide WellFormed, Alive, ExecLive, UserOne, AcceptOne, OtherOne, Commit, HeadOp, UserOp, C.May, C.Apply;
    match step
    case Exec(k, r) => ExecPushesNoRaw(s, k, r);
    case ByUser(action) => UserPushesNoRaw(s, action);
    case Accept(fd, mark, wc, hw) =>
      AcceptShape(s, fd, mark, wc, hw);
      PushesAre(s, step, []);
    case ByOther(tid, deed) =>
      OtherShape(s, tid, deed);
      PushesAre(s, step, OtherTask(s, step));
    case _ =>
      IdleShape(s, step);
      PushesAre(s, step, []);
  }

  lemma ExecPushesNoRaw(s: Reactor, k: C.WriteResult, r: ReadResult)
    requires WellFormed(s) && Enabled(s, Exec(k, r))
    ensures Next(s, Exec(k, r)).loop.pushed == s.loop.pushed + Pushes(s, Exec(k, r))
    ensures forall t :: t in Pushes(s, Exec(k, r)) ==> !t.RawSend? && !t.RawShutdown?
  {
    hide WellFormed, Alive, ExecLive, Commit, C.Apply, C.May, HeadOp;
    if s.ops[0].conn !in Alive(s) {
      PushesAre(s, Exec(k, r), []);
    } else if HeadOp(s, k) == [] {
      ExecIdle(s, k, r);
      PushesAre(s, Exec(k, r), if s.ops[0].Erase? then [Destroyed(s.ops[0].conn)] else []);
    } else {
      var c := s.ops[0].conn;
      ExecShape(s, k, r);
      var e := C.Apply(s.code, s.conns[c], HeadOp(s, k)[0]);
      CommitFacts(s.(ops := Follow(s.ops[0]) + s.ops[1..]), c, e);
      PushesAre(s, Exec(k, r), NotesAsTasks(c, e.notes));
    }
  }

  lemma UserPushesNoRaw(s: Reactor, action: UserAction)
    requires WellFormed(s) && Enabled(s, ByUser(action))
    ensures Next(s, ByUser(action)).loop.pushed == s.loop.pushed + Pushes(s, ByUser(action))
    ensures forall t :: t in Pushes(s, ByUser(action)) ==> !t.RawSend? && !t.RawShutdown?
  {
    hide WellFormed, Alive, UserOne, Commit, C.Apply, C.May;
    UserShape(s, action);
    if UserOp(action) == [] {
      PushesAre(s, ByUser(action), if action.UserQueue? then [User(action.id)] else []);
    } else {
      var e := C.Apply(s.code, s.conns[action.conn], UserOp(action)[0]);
      CommitFacts(s, action.conn, e);
      PushesAre(s, ByUser(action), NotesAsTasks(action.conn, e.notes));
    }
  }

  /** What is still to run is what was pushed and has not run. */
  lemma QueueIsRest(s: Reactor)
    requires Inv(s)
    ensures s.loop.next <= |s.loop.batch| && |s.loop.ran| <= |s.loop.pushed|
    ensures Queue(s.loop) == s.loop.pushed[|s.loop.ran|..]
  {
    hide Owner, WellFormed, Kernel, Fds, Streams, Places, L.QuitIsSeen, L.Announced;
    assert s.loop.ran + Queue(s.loop) == s.loop.pushed;
  }

  lemma QueueAfter(s: Reactor, step: Step, t: Task)
    requires Inv(s) && WellFormed(s) && Enabled(s, step) && Inv(Next(s, step))
    requires Next(s, step).loop.pushed == s.loop.pushed + Pushes(s, step)
    requires |Next(s, step).loop.ran| >= |s.loop.ran|
    requires Next(s, step).loop.next <= |Next(s, step).loop.batch| && t in Queue(Next(s, step).loop)
    ensures t in Queue(s.loop) || t in Pushes(s, step)
  {
    hide Inv, WellFormed, Enabled, Next, Pushes, Queue;
    QueueIsRest(s);
    QueueIsRest(Next(s, step));
    var pushed, ran := Next(s, step).loop.pushed, |Next(s, step).loop.ran|;
    var i :| 0 <= i < |pushed[ran..]| && pushed[ran..][i] == t;
    assert pushed[ran + i] == t;
    if ran + i < |s.loop.pushed| {
      assert s.loop.pushed[|s.loop.ran|..][ran + i - |s.loop.ran|] == t;
    }
  }

  /** Who is called and what the frames have to do, after any step. */
  lemma CallsAfter(s: Reactor, step: Step)
    requires Inv(s) && WellFormed(s) && Enabled(s, step)
    ensures var s' := Next(s, step);
            && |s'.loop.ran| >= |s.loop.ran|
            && s.users - (if step.Release? then {step.conn} else {}) <= s'.users
            && (forall c :: c in Callers(s') ==> c in Callers(s) || (c in s.users && !step.Release?))
            && forall op :: op in s'.ops && (op.Send? || op.Shutdown?) ==>
                 op in s.ops || (step.RunTask? && s.loop.next < |s.loop.batch| && op in Body(s.loop.batch[s.loop.next]))
  {
    hide Inv, Alive, ExecOne, UserOne, AcceptOne, WellFormed, N.ConnName, OtherOne, DispatchOne;
    match step
    case Exec(k, r) => ExecPlace(s, k, r); ExecOps(s, k, r); ExecKeepsRan(s, k, r);
    case ByUser(action) => UserPlace(s, action); UserKeepsRan(s, action);
    case Accept(fd, mark, wc, hw) => AcceptPlace(s, fd, mark, wc, hw);
    case ByOther(tid, deed) => OtherPlace(s, tid, deed); OtherCalls(s, tid, deed);
    case Dispatch => DispatchCalls(s);
    case _ =>
  }

  lemma ExecKeepsRan(s: Reactor, k: C.WriteResult, r: ReadResult)
    requires WellFormed(s) && Enabled(s, Exec(k, r))
    ensures ExecOne(s, k, r).loop.ran == s.loop.ran
  {
    hide WellFormed, Alive, ExecLive, Commit, C.Apply, C.May, HeadOp;
    if s.ops[0].conn in Alive(s) {
      if HeadOp(s, k) == [] {
        IdleKeepsRan(s, k, r);
      } else {
        ExecShape(s, k, r);
        CommitFacts(s.(ops := Follow(s.ops[0]) + s.ops[1..]), s.ops[0].conn,
                    C.Apply(s.code, s.conns[s.ops[0].conn], HeadOp(s, k)[0]));
      }
    }
  }

  lemma IdleKeepsRan(s: Reactor, k: C.WriteResult, r: ReadResult)
    requires WellFormed(s) && Enabled(s, Exec(k, r)) && HeadOp(s, k) == []
    ensures ExecLive(s, k, r).loop.ran == s.loop.ran
  {
    hide N.ConnName, L.Queued;
    if s.ops[0].Erase? {
      QueuedFacts(s.loop, Destroyed(s.ops[0].conn));
    }
  }

  lemma UserKeepsRan(s: Reactor, action: UserAction)
    requires WellFormed(s) && Enabled(s, ByUser(action))
    ensures UserOne(s, action).loop.ran == s.loop.ran
  {
    hide WellFormed, Alive, Commit, C.Apply, C.May, L.Queued;
    UserShape(s, action);
    if UserOp(action) != [] {
      CommitFacts(s, action.conn, C.Apply(s.code, s.conns[action.conn], UserOp(action)[0]));
    } else if action.UserQueue? {
      QueuedFacts(s.loop, User(action.id));
    }
  }

  lemma OtherCalls(s: Reactor, tid: L.Tid, deed: OtherAction)
    requires WellFormed(s) && Enabled(s, ByOther(tid, deed))
    ensures OtherOne(s, tid, deed).loop.ran == s.loop.ran
    ensures forall c :: c in Callers(OtherOne(s, tid, deed)) ==> c in Callers(s) || c in s.users
  {
    hide WellFormed, Alive;
  }

  lemma DispatchCalls(s: Reactor)
    requires WellFormed(s) && Enabled(s, Dispatch)
    ensures var s' := DispatchOne(s);
            && s'.loop == s.loop && s'.users == s.users && s'.callers == s.callers
            && forall op :: op in s'.ops && (op.Send? || op.Shutdown?) ==> op in s.ops
  {
    hide Alive;
    DispatchOpsFacts(s.active[0].conn, P.Callbacks(s.active[0].revents));
  }

  lemma BodyIsOnItsWay(s: Reactor, op: Op)
    requires WellFormed(s) && Enabled(s, RunTask) && op in Body(s.loop.batch[s.loop.next]) && (op.Send? || op.Shutdown?)
    ensures OnItsWay(s, op.conn)
  {
    var t := s.loop.batch[s.loop.next];
    assert t == s.loop.batch[s.loop.next..][0];
    assert t in Queue(s.loop) && (t.RawSend? || t.RawShutdown?) && t.conn == op.conn;
    hide WellFormed;
  }

  /** What is on its way after a step was so before, or user code holds it. */
  lemma WayBefore(s: Reactor, step: Step, c: Id)
    requires Inv(s) && WellFormed(s) && Enabled(s, step) && Inv(Next(s, step)) && s.loop.next <= |s.loop.batch|
    requires Next(s, step).loop.next <= |Next(s, step).loop.batch| && OnItsWay(Next(s, step), c)
    ensures OnItsWay(s, c) || (c in s.users && !step.Release?)
  {
    hide Inv, WellFormed, Next, Enabled, Pushes, Callers, Queue;
    var s' := Next(s, step);
    CallsAfter(s, step);
    if c in Callers(s') {
    } else if t :| t in Queue(s'.loop) && (t.RawSend? || t.RawShutdown?) && t.conn == c {
      RawPushes(s, step);
      QueueAfter(s, step, t);
    } else {
      var op :| op in s'.ops && (op.Send? || op.Shutdown?) && op.conn == c;
      if op !in s.ops {
        BodyIsOnItsWay(s, op);
      }
    }
  }

  lemma PatienceHolds(s: Reactor, step: Step)
    requires Inv(s) && WellFormed(s) && Enabled(s, step) && Inv(Next(s, step)) && s.loop.next <= |s.loop.batch|
    requires CallsAreHeld(s) && (step.Release? ==> !OnItsWay(s, step.conn))
    ensures Next(s, step).loop.next <= |Next(s, step).loop.batch| && CallsAreHeld(Next(s, step)) && !Next(s, step).dangled
  {
    hide Inv, WellFormed, Next, Enabled, Pushes, OnItsWay;
    var s' := Next(s, step);
    QueueIsRest(s');
    CallsAfter(s, step);
    forall c | OnItsWay(s', c)
      ensures c in s'.users
    {
      WayBefore(s, step, c);
    }
    NotDangled(s, step);
  }

  lemma NotDangled(s: Reactor, step: Step)
    requires Inv(s) && WellFormed(s) && Enabled(s, step) && s.loop.next <= |s.loop.batch| && CallsAreHeld(s)
    ensures !Next(s, step).dangled
  {
    hide Inv, WellFormed, Next, Owned, Callers, Queue;
    if step.Exec? {
      var op := s.ops[0];
      assert op in s.ops;
      ExecDangles(s, step.k, step.r);
      OthersAreHeld(s);
      assert op.Send? || op.Shutdown? ==> OnItsWay(s, op.conn);
    } else {
      OtherStepsAreDefined(s, step);
    }
  }

  /** It is enough that users keep their pointers: a run in which nobody gives up the last user pointer to a
      connection while a call on it is under way never dangles. */
  lemma {:induction false} PatientUsersAreSafe(code: C.Code, server: string, ipPort: string, steps: seq<Step>)
    requires C.Sound(code) && |ipPort| <= N.LONGEST && Legal(Start(code, server, ipPort), steps)
    requires Patient(Start(code, server, ipPort), steps)
    ensures var s := After(Start(code, server, ipPort), steps);
            !s.dangled && s.loop.next <= |s.loop.batch| && CallsAreHeld(s)
    decreases |steps|
  {
    hide Inv, Next, Enabled, WellFormed, OnItsWay;
    var start := Start(code, server, ipPort);
    StartIsFine(code, server, ipPort);
    if steps != [] {
      var before := steps[..|steps| - 1];
      PatientUsersAreSafe(code, server, ipPort, before);
      RunsKeepInv(start, before);
      RunsKeepInv(start, steps);
      PatienceHolds(After(start, before), steps[|steps| - 1]);
    } else {
      NothingOnItsWay(code, server, ipPort);
    }
  }

  lemma NothingOnItsWay(code: C.Code, server: string, ipPort: string)
    ensures var s := Start(code, server, ipPort);
            s.loop.next <= |s.loop.batch| && forall c :: !OnItsWay(s, c)
  {
  }
}
