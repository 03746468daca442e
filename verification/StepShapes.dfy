/** What each step of the reactor does to the connections and to the queue, in the terms of a connection's
    own machine: nothing, or one of its operations, whose effect is then committed. */
module StepShapes {
  import opened Buffers
  import opened Reactors
  import opened Ownership
  import opened ReactorInvariants
  import opened ReactorSteps
  import P = EpollPollers
  import L = EventLoops
  import C = Connections
  import N = Names

  // ---- Library code in a frame ----

  /** The operation of a connection's machine that the next op of the frames performs, if any. */
  ghost function HeadOp(s: Reactor, k: C.WriteResult): (ops: seq<C.Op>)
    requires WellFormed(s) && s.ops != [] && !s.ops[0].UserCode?
    ensures |ops| <= 1 && C.EstablishOp !in ops
  {
    match s.ops[0]
    case Close(_) => [C.CloseOp]
    case Write(_) => [C.HandleWriteOp(k)]
    case Destroy(c) => if s.conns[c].state == C.Connected then [C.DestroyOp] else []
    case Send(_, data) => [C.SendInLoopOp(data, k)]
    case Shutdown(_) => [C.ShutdownInLoopOp]
    case _ => []
  }

  /** What the next op of the frames leaves to be done after it. */
  function Follow(op: Op): seq<Op> {
    match op
    case Close(c) => [UserCode, Erase(c)]
    case Destroy(c) => [UserCode, Remove(c)]
    case _ => []
  }

  /** The frames and the connections after a piece of library code on a live connection are those of one
      operation of its machine. */
  lemma ExecShape(s: Reactor, k: C.WriteResult, r: ReadResult)
    requires WellFormed(s) && Enabled(s, Exec(k, r)) && HeadOp(s, k) != []
    ensures var c := s.ops[0].conn;
            && InCallback(s) && c in s.conns && s.conns[c].Valid() && C.May(s.code, s.conns[c], HeadOp(s, k)[0])
            && ExecLive(s, k, r) ==
               Commit(s.(ops := Follow(s.ops[0]) + s.ops[1..]), c, C.Apply(s.code, s.conns[c], HeadOp(s, k)[0]))
  {
    hide Commit, C.HandleWrite, C.SendInLoop, C.ShutdownInLoop;
    assert [] + s.ops[1..] == s.ops[1..];
  }

  /** The other pieces of library code touch no connection and queue at most a destruction. */
  lemma ExecIdle(s: Reactor, k: C.WriteResult, r: ReadResult)
    requires WellFormed(s) && Enabled(s, Exec(k, r)) && HeadOp(s, k) == []
    ensures var s' := ExecLive(s, k, r); var c := s.ops[0].conn;
            && s'.conns == s.conns && s'.code == s.code && c in s.conns
            && s'.loop.pushed == s.loop.pushed + (if s.ops[0].Erase? then [Destroyed(c)] else [])
            && s'.loop.pc == s.loop.pc && s'.inFrame == s.inFrame && s'.holds == s.holds && s'.users == s.users
            && s'.callers == s.callers && s'.active == s.active && s'.dangled == s.dangled
            && s'.nextConnId == s.nextConnId
  {
    hide N.ConnName, P.Epoll.RemoveChannel, L.Queued;
    if s.ops[0].Erase? {
      QueuedFacts(s.loop, Destroyed(s.ops[0].conn));
    }
  }

  // ---- User code, other threads, the loop ----

  /** The operation that user code applies to a connection, if any. */
  function UserOp(action: UserAction): seq<C.Op> {
    match action
    case UserSend(_, data, k) => [C.SendOp(data, k)]
    case UserShutdown(_) => [C.ShutdownOp]
    case _ => []
  }

  lemma UserShape(s: Reactor, action: UserAction)
    requires WellFormed(s) && Enabled(s, ByUser(action))
    ensures InCallback(s)
    ensures UserOp(action) != [] ==>
              var c := action.conn;
              && c in s.conns && s.conns[c].Valid() && C.May(s.code, s.conns[c], UserOp(action)[0])
              && UserOne(s, action) == Commit(s, c, C.Apply(s.code, s.conns[c], UserOp(action)[0]))
    ensures UserOp(action) == [] ==>
              var s' := UserOne(s, action);
              && s'.conns == s.conns && s'.code == s.code && s'.nextConnId == s.nextConnId
              && s'.loop.pushed == s.loop.pushed + (if action.UserQueue? then [User(action.id)] else [])
              && s'.loop.pc == s.loop.pc && s'.inFrame == s.inFrame && s'.holds == s.holds && s'.users == s.users
              && s'.callers == s.callers && s'.active == s.active && s'.dangled == s.dangled
              && s'.ops == if action.UserReturn? then s.ops[1..] else s.ops
  {
    hide Commit, Alive, L.Queued, C.SendInLoop, C.ShutdownInLoop;
    if action.UserQueue? {
      QueuedFacts(s.loop, User(action.id));
    }
  }

  /** The functor that another thread's step pushes, if any. */
  function OtherTask(s: Reactor, step: Step): seq<Task> {
    if !step.ByOther? then []
    else
      match step.deed
      case PushCall => if step.tid in s.callers then [AsTask(s.callers[step.tid])] else []
      case OtherQueue(id) => [User(id)]
      case _ => []
  }

  /** The steps that are no operation of any connection's machine. */
  predicate TouchesNone(step: Step) {
    !step.Exec? && !step.ByUser? && !step.Accept? && !(step.ByOther? && step.deed.TestShutdown?)
  }

  lemma IdleShape(s: Reactor, step: Step)
    requires WellFormed(s) && Enabled(s, step) && TouchesNone(step)
    ensures Next(s, step).conns == s.conns && Next(s, step).code == s.code && Next(s, step).nextConnId == s.nextConnId
    ensures Next(s, step).loop.pushed == s.loop.pushed + OtherTask(s, step)
  {
    hide Alive, Owned, N.ConnName, WellFormed;
    match step
    case ByOther(tid, deed) => OtherShape(s, tid, deed);
    case LoopStep(e) =>
    case _ =>
  }

  lemma OtherShape(s: Reactor, tid: L.Tid, deed: OtherAction)
    requires WellFormed(s) && Enabled(s, ByOther(tid, deed))
    ensures var s' := OtherOne(s, tid, deed);
            && s'.code == s.code && s'.loop.pushed == s.loop.pushed + OtherTask(s, ByOther(tid, deed))
            && s'.nextConnId == s.nextConnId
            && (if deed.TestShutdown? then
                  deed.conn in s.conns && s'.conns == s.conns[deed.conn := C.MarkShutdown(s.conns[deed.conn])]
                else s'.conns == s.conns)
  {
    UsersExist(s);
    hide Alive, Owned, WellFormed;
  }

  lemma UsersExist(s: Reactor)
    requires WellFormed(s)
    ensures s.users <= s.conns.Keys
  {
  }

  /** A new connection is its machine's first operation. */
  lemma AcceptShape(s: Reactor, fd: int, mark: nat, wc: bool, hw: bool)
    requires WellFormed(s) && Enabled(s, Accept(fd, mark, wc, hw))
    ensures var s' := AcceptOne(s, fd, mark, wc, hw); var conn := C.Establish(C.NewConn(fd, mark, wc, hw)).conn;
            && s'.conns == s.conns[s.nextConnId := conn] && s'.code == s.code && s.nextConnId !in s.conns
            && s'.loop.pushed == s.loop.pushed && s'.nextConnId == s.nextConnId + 1
  {
    hide Alive, Commit, N.ConnName;
    var conn := C.NewConn(fd, mark, wc, hw);
    CommitFacts(Born(s, conn), s.nextConnId, C.Establish(conn));
    assert s.conns[s.nextConnId := conn][s.nextConnId := C.Establish(conn).conn]
           == s.conns[s.nextConnId := C.Establish(conn).conn];
  }

  lemma ValidConns(s: Reactor)
    requires WellFormed(s)
    ensures forall c :: c in s.conns ==> s.conns[c].Valid()
  {
  }

  // ---- Any step, seen from one connection ----

  /** The functors that a step pushes. */
  ghost function Pushes(s: Reactor, step: Step): seq<Task>
    requires WellFormed(s) && Enabled(s, step)
  {
    var before, after := s.loop.pushed, Next(s, step).loop.pushed;
    if |before| <= |after| then after[|before|..] else []
  }

  /** The operation of its machine that a step performs on connection `c`, if any: the piece of work that the
      loop's frames come to, the user's call, or the mark of another thread's `shutdown`. */
  ghost function OpOn(s: Reactor, step: Step, c: Id): seq<C.Op>
    requires WellFormed(s)
  {
    if step.Exec? && s.ops != [] && !s.ops[0].UserCode? && s.ops[0].conn == c && c in Alive(s) then HeadOp(s, step.k)
    else if step.ByUser? && UserOp(step.action) != [] && step.action.conn == c then UserOp(step.action)
    else if step.ByOther? && step.deed.TestShutdown? && step.deed.conn == c then [C.MarkShutdownOp]
    else []
  }

  lemma PushesAre(s: Reactor, step: Step, tasks: seq<Task>)
    requires WellFormed(s) && Enabled(s, step) && Next(s, step).loop.pushed == s.loop.pushed + tasks
    ensures Pushes(s, step) == tasks
  {
    hide WellFormed, Enabled, Next;
  }

  lemma NotesAreFew(code: C.Code, conn: C.Conn, op: C.Op, c: Id)
    requires conn.Valid() && C.May(code, conn, op)
    ensures var notes := C.Apply(code, conn, op).notes;
            |notes| <= 1 && forall note :: Callback(c, note) in NotesAsTasks(c, notes) <==> note in notes
  {
    hide Buf.Append, Buf.Readable, Buf.Retrieve, P.IsWriting;
  }

  /** What a step of the reactor is to one connection: nothing, or one operation its machine allows, whose
      callbacks are then the callbacks pushed for it. */
  lemma StepIsAnOperation(s: Reactor, step: Step, c: Id) returns (ops: seq<C.Op>)
    requires WellFormed(s) && Enabled(s, step) && c in s.conns
    ensures s.conns[c].Valid() && c in Next(s, step).conns && Next(s, step).code == s.code
    ensures Next(s, step).loop.pushed == s.loop.pushed + Pushes(s, step)
    ensures ops == OpOn(s, step, c) && |ops| <= 1 && C.EstablishOp !in ops
    ensures ops == [] ==> Next(s, step).conns[c] == s.conns[c] && forall note :: Callback(c, note) !in Pushes(s, step)
    ensures |ops| == 1 ==>
              && C.May(s.code, s.conns[c], ops[0])
              && var e := C.Apply(s.code, s.conns[c], ops[0]);
                 Next(s, step).conns[c] == e.conn && forall note :: Callback(c, note) in Pushes(s, step) <==> note in e.notes
  {
    hide WellFormed, Alive, ExecLive, UserOne, AcceptOne, OtherOne, Commit, HeadOp, UserOp, C.May, C.Apply;
    ValidConns(s);
    if step.Exec? {
      ops := ExecIsAnOperation(s, step.k, step.r, c);
    } else if step.ByUser? {
      ops := UserIsAnOperation(s, step.action, c);
    } else if step.Accept? {
      ops := [];
      AcceptShape(s, step.fd, step.highWaterMark, step.hasWriteComplete, step.hasHighWater);
      PushesAre(s, step, []);
    } else if TouchesNone(step) {
      ops := [];
      IdleShape(s, step);
      PushesAre(s, step, OtherTask(s, step));
    } else {
      OtherShape(s, step.tid, step.deed);
      PushesAre(s, step, OtherTask(s, step));
      ops := if step.deed.conn == c then [C.MarkShutdownOp] else [];
      MarkIsAnOperation(s.code, s.conns[c]);
    }
  }

  lemma MarkIsAnOperation(code: C.Code, conn: C.Conn)
    requires conn.Valid()
    ensures C.May(code, conn, C.MarkShutdownOp)
    ensures C.Apply(code, conn, C.MarkShutdownOp) == C.Quiet(C.MarkShutdown(conn))
  {
  }

  /** An operation on `d`, committed, seen from `c`. */
  lemma CommitSeenFrom(s: Reactor, d: Id, op: C.Op, c: Id)
    requires InCallback(s) && c in s.conns && d in s.conns && s.conns[d].Valid() && C.May(s.code, s.conns[d], op)
    ensures var e := C.Apply(s.code, s.conns[d], op); var s' := Commit(s, d, e); var tasks := NotesAsTasks(d, e.notes);
            && c in s'.conns && s'.code == s.code && s'.loop.pushed == s.loop.pushed + tasks
            && (if c == d then s'.conns[c] == e.conn && forall note :: Callback(c, note) in tasks <==> note in e.notes
                else s'.conns[c] == s.conns[c] && forall note :: Callback(c, note) !in tasks)
  {
    hide Commit, C.Apply, C.May;
    CommitFacts(s, d, C.Apply(s.code, s.conns[d], op));
    NotesAreFew(s.code, s.conns[d], op, d);
  }

  lemma ExecIsAnOperation(s: Reactor, k: C.WriteResult, r: ReadResult, c: Id) returns (ops: seq<C.Op>)
    requires WellFormed(s) && Enabled(s, Exec(k, r)) && c in s.conns && s.conns[c].Valid()
    ensures var step := Exec(k, r);
            && c in Next(s, step).conns && Next(s, step).code == s.code
            && Next(s, step).loop.pushed == s.loop.pushed + Pushes(s, step)
            && ops == OpOn(s, step, c) && |ops| <= 1 && C.EstablishOp !in ops
            && (ops == [] ==> Next(s, step).conns[c] == s.conns[c] && forall note :: Callback(c, note) !in Pushes(s, step))
            && (|ops| == 1 ==>
                  && C.May(s.code, s.conns[c], ops[0])
                  && var e := C.Apply(s.code, s.conns[c], ops[0]);
                     Next(s, step).conns[c] == e.conn && forall note :: Callback(c, note) in Pushes(s, step) <==> note in e.notes)
  {
    hide WellFormed, Alive, ExecLive, Commit, C.May, C.Apply;
    var d := s.ops[0].conn;
    ops := [];
    if d !in Alive(s) {
      PushesAre(s, Exec(k, r), []);
    } else if HeadOp(s, k) == [] {
      ExecIdle(s, k, r);
      PushesAre(s, Exec(k, r), if s.ops[0].Erase? then [Destroyed(d)] else []);
    } else {
      var op := HeadOp(s, k)[0];
      ExecShape(s, k, r);
      CommitSeenFrom(s.(ops := Follow(s.ops[0]) + s.ops[1..]), d, op, c);
      PushesAre(s, Exec(k, r), NotesAsTasks(d, C.Apply(s.code, s.conns[d], op).notes));
      ops := if c == d then [op] else [];
    }
  }

  lemma UserIsAnOperation(s: Reactor, action: UserAction, c: Id) returns (ops: seq<C.Op>)
    requires WellFormed(s) && Enabled(s, ByUser(action)) && c in s.conns && s.conns[c].Valid()
    ensures var step := ByUser(action);
            && c in Next(s, step).conns && Next(s, step).code == s.code
            && Next(s, step).loop.pushed == s.loop.pushed + Pushes(s, step)
            && ops == OpOn(s, step, c) && |ops| <= 1 && C.EstablishOp !in ops
            && (ops == [] ==> Next(s, step).conns[c] == s.conns[c] && forall note :: Callback(c, note) !in Pushes(s, step))
            && (|ops| == 1 ==>
                  && C.May(s.code, s.conns[c], ops[0])
                  && var e := C.Apply(s.code, s.conns[c], ops[0]);
                     Next(s, step).conns[c] == e.conn && forall note :: Callback(c, note) in Pushes(s, step) <==> note in e.notes)
  {
    hide WellFormed, Alive, UserOne, Commit, C.May, C.Apply;
    UserShape(s, action);
    if UserOp(action) == [] {
      ops := [];
      PushesAre(s, ByUser(action), if action.UserQueue? then [User(action.id)] else []);
    } else {
      var op := UserOp(action)[0];
      CommitSeenFrom(s, action.conn, op, c);
      PushesAre(s, ByUser(action), NotesAsTasks(action.conn, C.Apply(s.code, s.conns[action.conn], op).notes));
      ops := if c == action.conn then [op] else [];
    }
  }

  /** Only `newConnection` makes a connection, and nothing forgets one. */
  lemma KeysAfter(s: Reactor, step: Step)
    requires WellFormed(s) && Enabled(s, step)
    ensures Next(s, step).code == s.code && s.conns.Keys <= Next(s, step).conns.Keys
    ensures !step.Accept? ==> Next(s, step).conns.Keys == s.conns.Keys && Next(s, step).nextConnId == s.nextConnId
    ensures step.Accept? ==>
              && Next(s, step).conns.Keys == s.conns.Keys + {s.nextConnId} && s.nextConnId !in s.conns
              && Next(s, step).nextConnId == s.nextConnId + 1
  {
    hide WellFormed, Alive, ExecLive, UserOne, AcceptOne, OtherOne, Commit, HeadOp, C.May, C.Apply;
    if step.Exec? {
      ExecKeys(s, step.k, step.r);
    } else if step.ByUser? {
      UserShape(s, step.action);
      if UserOp(step.action) != [] {
        CommitFacts(s, step.action.conn, C.Apply(s.code, s.conns[step.action.conn], UserOp(step.action)[0]));
      }
    } else if step.Accept? {
      AcceptShape(s, step.fd, step.highWaterMark, step.hasWriteComplete, step.hasHighWater);
    } else if TouchesNone(step) {
      IdleShape(s, step);
    } else {
      OtherShape(s, step.tid, step.deed);
    }
  }

  lemma ExecKeys(s: Reactor, k: C.WriteResult, r: ReadResult)
    requires WellFormed(s) && Enabled(s, Exec(k, r))
    ensures ExecOne(s, k, r).code == s.code && ExecOne(s, k, r).conns.Keys == s.conns.Keys
    ensures ExecOne(s, k, r).nextConnId == s.nextConnId
  {
    hide WellFormed, Alive, ExecLive, Commit, C.May, C.Apply;
    if HeadOp(s, k) == [] {
      ExecIdle(s, k, r);
    } else {
      ExecShape(s, k, r);
      CommitFacts(s.(ops := Follow(s.ops[0]) + s.ops[1..]), s.ops[0].conn,
                  C.Apply(s.code, s.conns[s.ops[0].conn], HeadOp(s, k)[0]));
    }
  }
}
