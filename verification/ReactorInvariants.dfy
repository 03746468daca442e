/** What every step of the reactor keeps. */
module ReactorInvariants {
  import opened Buffers
  import opened Reactors
  import opened Ownership
  import P = EpollPollers
  import L = EventLoops
  import C = Connections
  import N = Names

  // ---- The invariant ----

  function StateMap(conns: map<Id, C.Conn>): map<Id, C.State> {
    map c | c in conns :: conns[c].state
  }

  function Chans(conns: map<Id, C.Conn>): map<Id, P.Chan> {
    map c | c in conns :: P.Chan(conns[c].fd, conns[c].events)
  }

  ghost function CoreOf(s: Reactor): Core
    requires s.loop.next <= |s.loop.batch|
  {
    Core(s.loop.pc.Stopped?, s.loop.pc.Dispatching?, StateMap(s.conns), s.connections.Values,
         s.epoll.index.Keys, Queue(s.loop), s.ops)
  }

  ghost predicate Owner(s: Reactor) {
    s.loop.next <= |s.loop.batch| && CoreInv(CoreOf(s))
  }

  /** The four parties agree and no `epoll_ctl` call was ever refused. */
  ghost predicate Kernel(s: Reactor) {
    P.Agrees(s.epoll, Chans(s.conns)) && s.refused == 0
  }

  /** Connections that are alive have different descriptors. */
  ghost predicate Fds(s: Reactor) {
    forall a, b :: a in Alive(s) && b in Alive(s) && a in s.conns && b in s.conns ==>
      (s.conns[a].fd == s.conns[b].fd ==> a == b)
  }

  /** The map's keys are the names, the frames hold what they work on, the active channels are registered,
      and destructions are queued only between a dispatch and the swap after it. */
  ghost predicate Places(s: Reactor) {
    && |s.ipPort| <= N.LONGEST
    && (forall n :: n in s.connections ==> n == Name(s, s.connections[n]))
    && (forall op :: op in s.ops && !op.UserCode? && !op.Send? && !op.Shutdown? ==> op.conn in s.holds)
    && (forall r :: r in s.active ==> r.conn in s.epoll.index)
    && (s.loop.pc.Dispatching? || s.loop.pc.Swapping? || forall t :: t in s.loop.pending ==> !t.Destroyed?)
  }

  /** Each connection's stream is as the code in use keeps it. */
  ghost predicate Streams(s: Reactor) {
    && C.Sound(s.code)
    && forall c :: c in s.conns && s.conns[c].Valid() ==>
         C.HalfInv(s.code, s.conns[c]) && (s.code.offersReadable ==> C.PrefixInv(s.conns[c]))
  }

  ghost predicate Rest(s: Reactor) {
    WellFormed(s) && Kernel(s) && Fds(s) && Places(s) && Streams(s) && L.Inv(s.loop)
  }

  ghost predicate Inv(s: Reactor) {
    Owner(s) && Rest(s)
  }

  lemma StartIsFine(code: C.Code, server: string, ipPort: string)
    requires C.Sound(code) && |ipPort| <= N.LONGEST
    ensures Inv(Start(code, server, ipPort))
  {
    var s := Start(code, server, ipPort);
    StartIsOwned(code, server, ipPort);
    hide Owner, CoreInv;
    assert Alive(s) == {};
    assert Kernel(s) && WellFormed(s);
    hide Kernel, WellFormed;
  }

  lemma StartIsOwned(code: C.Code, server: string, ipPort: string)
    ensures Owner(Start(code, server, ipPort))
  {
  }

  // ---- What the parts of a step do ----

  ghost predicate InCallback(s: Reactor) {
    !s.loop.mustWake && (s.loop.pc.Dispatching? || s.loop.pc.Running? || s.loop.pc.Stopped?)
  }

  lemma QueuedFacts(l: L.Loop<Task>, t: Task)
    requires !l.mustWake && (l.pc.Dispatching? || l.pc.Running? || l.pc.Stopped?)
    ensures var l' := L.Queued(l, L.Own, t);
            && l'.pc == l.pc && l'.batch == l.batch && l'.next == l.next && l'.pending == l.pending + [t]
            && !l'.mustWake && (L.Inv(l) ==> L.Inv(l'))
            && l'.pushed == l.pushed + [t] && l'.ran == l.ran
            && (l.next <= |l.batch| ==> l'.batch[l'.next..] + l'.pending == l.batch[l.next..] + l.pending + [t])
  {
    if L.Inv(l) {
      L.StepKeepsInv(l, L.OwnPush(t));
      if l.calling {
        L.StepKeepsInv(L.Step(l, L.OwnPush(t)), L.OwnWake);
      }
    }
  }

  function NotesAsTasks(c: Id, notes: seq<C.Note>): seq<Task> {
    if notes == [] then [] else [Callback(c, notes[0])]
  }

  lemma CommitFacts(s: Reactor, c: Id, e: C.Effect)
    requires InCallback(s)
    ensures var s' := Commit(s, c, e);
            && s'.conns == s.conns[c := e.conn]
            && s' == s.(conns := s'.conns, epoll := s'.epoll, refused := s'.refused, loop := s'.loop)
            && s'.epoll == (if e.updates then s.epoll.UpdateChannel(c, P.Chan(e.conn.fd, e.conn.events)) else s.epoll)
            && (!e.updates ==> s'.refused == s.refused)
            && (e.updates && s.epoll.CtlSucceeds(s.epoll.UpdateOp(c, e.conn.events), e.conn.fd) ==> s'.refused == s.refused)
            && s'.loop.pc == s.loop.pc && s'.loop.batch == s.loop.batch && s'.loop.next == s.loop.next
            && s'.loop.pending == s.loop.pending + NotesAsTasks(c, e.notes) && !s'.loop.mustWake
            && s'.loop.pushed == s.loop.pushed + NotesAsTasks(c, e.notes) && s'.loop.ran == s.loop.ran
            && (L.Inv(s.loop) ==> L.Inv(s'.loop))
  {
    if e.notes != [] {
      QueuedFacts(s.loop, Callback(c, e.notes[0]));
    }
  }

  lemma HoldersOfSum(a: seq<Task>, b: seq<Task>)
    ensures Holders(a + b) == Holders(a) + Holders(b)
  {
  }

  lemma HolderIn(t: Task, tasks: seq<Task>)
    requires t in tasks && (t.Destroyed? || t.Callback?)
    ensures t.conn in Holders(tasks)
  {
  }

  // ---- Lifetime ----

  lemma QueuedIsHeld(l: L.Loop<Task>, c: Id)
    requires l.next <= |l.batch| && Destroyed(c) in Queue(l)
    ensures c in Holders(l.batch) + Holders(l.pending)
  {
    assert Destroyed(c) in l.batch[l.next..] || Destroyed(c) in l.pending;
    if Destroyed(c) in l.pending {
      HolderIn(Destroyed(c), l.pending);
    } else {
      HolderIn(Destroyed(c), l.batch);
    }
  }

  /** Whatever is registered with the poller is owned: listed, or held by the functor that will destroy it,
      or by the frame that is destroying it. */
  lemma RegisteredIsOwned(s: Reactor, c: Id)
    requires Owner(s) && Places(s) && c in s.epoll.index
    ensures c in Owned(s) && c in s.conns
  {
    hide States, Shapes, Holders, Queue, N.ConnName;
    var k := CoreOf(s);
    assert c in k.registered;
    if c !in s.connections.Values {
      assert Doomed(k, c);
      if Destroyed(c) in k.queue {
        QueuedIsHeld(s.loop, c);
      } else {
        assert Destroy(c) in s.ops || Remove(c) in s.ops;
      }
    }
  }

  /** So no other registered channel has the descriptor of a connection that is alive. */
  lemma AliveIsUnshared(s: Reactor, c: Id)
    requires Owner(s) && Places(s) && Kernel(s) && Fds(s) && c in Alive(s) && c in s.conns
    ensures P.Unshared(s.epoll, c, s.conns[c].fd)
  {
    var fd := s.conns[c].fd;
    if fd in s.epoll.channels {
      var d := s.epoll.channels[fd];
      assert d in s.epoll.index && Chans(s.conns)[d].fd == fd;
      RegisteredIsOwned(s, d);
    }
  }

  // ---- Operations of a connection ----

  predicate KeepsState(op: C.Op) {
    op.SendOp? || op.SendInLoopOp? || op.HandleWriteOp? || op.ShutdownInLoopOp?
  }

  /** What an operation leaves alone in the connection it is applied to. */
  lemma OpFacts(code: C.Code, conn: C.Conn, op: C.Op)
    requires conn.Valid() && C.May(code, conn, op)
    ensures var e := C.Apply(code, conn, op);
            && e.conn.Valid() && e.conn.fd == conn.fd
            && (!e.updates ==> e.conn.events == conn.events)
            && (KeepsState(op) ==> e.conn.state == conn.state)
            && (op.SendOp? && conn.state != C.Connected ==> !e.updates)
            && (op.SendInLoopOp? && conn.state == C.Disconnected ==> !e.updates)
  {
    C.StepShrinks(code, conn, op);
    match op
    case SendOp(data, k) => if conn.state == C.Connected { C.SendSummary(conn, data, k); }
    case SendInLoopOp(data, k) => if conn.state != C.Disconnected { C.SendSummary(conn, data, k); }
    case HandleWriteOp(k) => if P.IsWriting(conn.events) && k.Wrote? && k.n > 0 { C.DrainSummary(code, conn, k); }
    case _ =>
  }

  lemma OpKeepsStream(code: C.Code, conn: C.Conn, op: C.Op)
    requires conn.Valid() && C.May(code, conn, op) && C.Sound(code) && C.HalfInv(code, conn)
    requires code.offersReadable ==> C.PrefixInv(conn)
    ensures C.HalfInv(code, C.Apply(code, conn, op).conn)
    ensures code.offersReadable ==> C.PrefixInv(C.Apply(code, conn, op).conn)
  {
    C.StepKeepsHalf(code, conn, op);
    if code.offersReadable {
      C.StepKeepsPrefix(code, conn, op);
    }
  }

  // ---- Pieces of steps, each keeping the invariant ----

  lemma FdsFrom(s: Reactor, s': Reactor)
    requires Fds(s) && Alive(s') <= Alive(s) && s'.conns.Keys == s.conns.Keys
    requires forall c :: c in s.conns ==> s'.conns[c].fd == s.conns[c].fd
    ensures Fds(s')
  {
  }

  lemma WellFormedWithFrame(s: Reactor, s': Reactor)
    requires WellFormed(s) && s' == s.(active := s'.active, inFrame := s'.inFrame, ops := s'.ops, holds := s'.holds, users := s'.users)
    requires s'.holds <= s.conns.Keys && s'.users <= s.conns.Keys
    requires forall r :: r in s'.active ==> r in s.active
    requires s'.inFrame ==> InCallback(s)
    requires !s'.inFrame ==> s'.ops == [] && s'.holds == {}
    requires forall op :: op in s'.ops && !op.UserCode? ==> op.conn in s.conns
    ensures WellFormed(s')
  {
    assert s'.active != [] ==> s'.active[0] in s.active;
  }

  lemma PlacesWithFrame(s: Reactor, s': Reactor)
    requires Places(s) && s' == s.(active := s'.active, inFrame := s'.inFrame, ops := s'.ops, holds := s'.holds, users := s'.users)
    requires forall r :: r in s'.active ==> r in s.active
    requires forall op :: op in s'.ops && !op.UserCode? && !op.Send? && !op.Shutdown? ==> op.conn in s'.holds
    ensures Places(s')
  {
    hide N.ConnName;
  }

  /** A change of the frames alone. */
  lemma RestWithOps(s: Reactor, ops: seq<Op>)
    requires Rest(s) && s.inFrame
    requires forall op :: op in ops && !op.UserCode? ==>
               op.conn in s.conns && (!op.Send? && !op.Shutdown? ==> op.conn in s.holds)
    ensures Rest(s.(ops := ops))
  {
    hide L.Inv, Kernel, Streams, Places, Fds, InCallback;
    var s' := s.(ops := ops);
    SameBut(s, s');
    FrameFacts(s);
    WellFormedWithFrame(s, s');
    PlacesWithFrame(s, s');
    hide WellFormed;
    assert Alive(s') == Alive(s);
    SameFds(s, s');
  }

  lemma FrameFacts(s: Reactor)
    requires WellFormed(s)
    ensures s.holds <= s.conns.Keys && s.users <= s.conns.Keys && (s.inFrame ==> InCallback(s))
  {
  }

  lemma OpsAreHeld(s: Reactor)
    requires Rest(s)
    ensures forall op :: op in s.ops && !op.UserCode? ==>
              op.conn in s.conns && (!op.Send? && !op.Shutdown? ==> op.conn in s.holds)
    ensures s.ops != [] ==> s.inFrame && InCallback(s) && s.ops == [s.ops[0]] + s.ops[1..] && s.ops[0] in s.ops
    ensures forall op :: op in s.ops[if s.ops == [] then 0 else 1..] ==> op in s.ops
  {
    hide Kernel, Fds, Streams, L.Inv;
  }

  /** A finished op is dropped. */
  lemma InvDrop(s: Reactor)
    requires Inv(s) && s.ops != []
    requires s.ops[0].Read? || s.ops[0].Write? || s.ops[0].Send? || s.ops[0].Shutdown? || s.ops[0].UserCode?
    ensures Inv(s.(ops := s.ops[1..]))
  {
    hide CoreInv, Rest, Queue;
    OpsAreHeld(s);
    DropOp(CoreOf(s), s.ops[0], s.ops[1..]);
    assert CoreOf(s.(ops := s.ops[1..])) == CoreOf(s).(ops := s.ops[1..]);
    RestWithOps(s, s.ops[1..]);
  }

  lemma IndexAfterUpdate(p: P.Epoll<Id>, c: Id, chan: P.Chan)
    ensures p.UpdateChannel(c, chan).index.Keys == p.index.Keys + {c}
  {
  }

  lemma OwnerAfterCommit(s: Reactor, c: Id, e: C.Effect)
    requires Owner(s) && InCallback(s) && c in s.conns && e.conn.state == s.conns[c].state
    requires e.updates ==> c in s.epoll.index
    ensures Owner(Commit(s, c, e))
  {
    hide Commit, CoreInv, L.Inv, P.Epoll.UpdateChannel, P.Epoll.CtlSucceeds, P.Epoll.UpdateOp;
    CommitFacts(s, c, e);
    IndexAfterUpdate(s.epoll, c, P.Chan(e.conn.fd, e.conn.events));
    var s' := Commit(s, c, e);
    assert StateMap(s'.conns) == StateMap(s.conns);
    assert s'.epoll.index.Keys == s.epoll.index.Keys;
    assert Queue(s'.loop) == Queue(s.loop) + NotesAsTasks(c, e.notes);
    if e.notes == [] {
      assert CoreOf(s') == CoreOf(s);
    } else {
      PushPlain(CoreOf(s), Callback(c, e.notes[0]));
      assert CoreOf(s') == CoreOf(s).(queue := Queue(s.loop) + [Callback(c, e.notes[0])]);
    }
  }

  lemma KernelAfterCommit(s: Reactor, c: Id, e: C.Effect)
    requires Kernel(s) && InCallback(s) && c in s.conns && e.conn.fd == s.conns[c].fd
    requires P.Unshared(s.epoll, c, e.conn.fd) && (!e.updates ==> e.conn.events == s.conns[c].events)
    ensures Kernel(Commit(s, c, e))
  {
    hide Commit, P.Agrees, L.Inv, P.Epoll.UpdateChannel, P.Epoll.CtlSucceeds, P.Epoll.UpdateOp;
    CommitFacts(s, c, e);
    var s' := Commit(s, c, e);
    var chan := P.Chan(e.conn.fd, e.conn.events);
    if e.updates {
      P.UpdateKeepsAgreement(s.epoll, Chans(s.conns), c, chan);
    }
    assert Chans(s'.conns) == Chans(s.conns)[c := chan];
    if !e.updates {
      assert Chans(s.conns)[c] == chan;
      assert Chans(s'.conns) == Chans(s.conns);
    }
  }

  lemma AliveAfterCommit(s: Reactor, c: Id, e: C.Effect)
    requires InCallback(s) && (c in Alive(s) || e.notes == [])
    ensures Alive(Commit(s, c, e)) == Alive(s)
  {
    CommitFacts(s, c, e);
    HoldersOfSum(s.loop.pending, NotesAsTasks(c, e.notes));
    if e.notes == [] {
      assert Holders(NotesAsTasks(c, e.notes)) == {};
    } else {
      assert Holders([Callback(c, e.notes[0])]) == {c};
    }
  }

  lemma WellFormedAfterCommit(s: Reactor, c: Id, e: C.Effect)
    requires WellFormed(s) && InCallback(s) && c in s.conns && e.conn.Valid()
    ensures WellFormed(Commit(s, c, e))
  {
    hide WellFormed, Commit, L.Inv, P.Epoll.UpdateChannel, P.Epoll.CtlSucceeds, P.Epoll.UpdateOp;
    CommitFacts(s, c, e);
    IndexAfterUpdate(s.epoll, c, P.Chan(e.conn.fd, e.conn.events));
    WellFormedWithEffect(s, Commit(s, c, e), c, NotesAsTasks(c, e.notes));
  }

  lemma WellFormedWithEffect(s: Reactor, s': Reactor, c: Id, tasks: seq<Task>)
    requires WellFormed(s) && s' == s.(conns := s'.conns, epoll := s'.epoll, refused := s'.refused, loop := s'.loop)
    requires c in s.conns && c in s'.conns && s'.conns[c].Valid() && s'.conns == s.conns[c := s'.conns[c]]
    requires s'.loop.pc == s.loop.pc && s'.loop.batch == s.loop.batch && s'.loop.next == s.loop.next && !s'.loop.mustWake
    requires s'.loop.pending == s.loop.pending + tasks && forall t :: t in tasks ==> !t.User? && t.conn == c
    requires s'.epoll.index.Keys <= s.epoll.index.Keys + {c}
    ensures WellFormed(s')
  {
    assert s'.conns.Keys == s.conns.Keys;
    assert forall t :: t in s'.loop.pending ==> t in s.loop.pending || t in tasks;
  }

  lemma PlacesAfterCommit(s: Reactor, c: Id, e: C.Effect)
    requires Places(s) && InCallback(s)
    ensures Places(Commit(s, c, e))
  {
    CommitFacts(s, c, e);
    var s' := Commit(s, c, e);
    assert forall t :: t in s'.loop.pending ==> t in s.loop.pending || t in NotesAsTasks(c, e.notes);
    assert s.epoll.index.Keys <= s'.epoll.index.Keys;
  }

  lemma StreamsAfterCommit(s: Reactor, c: Id, e: C.Effect)
    requires Streams(s) && InCallback(s) && e.conn.Valid() && C.HalfInv(s.code, e.conn)
    requires s.code.offersReadable ==> C.PrefixInv(e.conn)
    ensures Streams(Commit(s, c, e))
  {
    CommitFacts(s, c, e);
    hide C.HalfInv, C.PrefixInv;
  }

  /** An operation that leaves the state alone takes effect. */
  lemma InvCommit(s: Reactor, c: Id, op: C.Op)
    requires Inv(s) && InCallback(s) && c in s.conns && c in Alive(s)
    requires C.May(s.code, s.conns[c], op) && KeepsState(op)
    requires C.Apply(s.code, s.conns[c], op).updates ==> c in s.epoll.index
    ensures Inv(Commit(s, c, C.Apply(s.code, s.conns[c], op)))
  {
    OpFacts(s.code, s.conns[c], op);
    OpKeepsStream(s.code, s.conns[c], op);
    AliveIsUnshared(s, c);
    CommitKeepsInv(s, c, C.Apply(s.code, s.conns[c], op));
  }

  lemma CommitKeepsInv(s: Reactor, c: Id, e: C.Effect)
    requires Inv(s) && InCallback(s) && c in s.conns && c in Alive(s)
    requires e.conn.Valid() && e.conn.fd == s.conns[c].fd && e.conn.state == s.conns[c].state
    requires (if e.updates then c in s.epoll.index else e.conn.events == s.conns[c].events)
    requires P.Unshared(s.epoll, c, e.conn.fd)
    requires C.HalfInv(s.code, e.conn) && (s.code.offersReadable ==> C.PrefixInv(e.conn))
    ensures Inv(Commit(s, c, e))
  {
    hide Rest, Owner, Commit, Alive, C.HalfInv, C.PrefixInv;
    OwnerAfterCommit(s, c, e);
    CommitKeepsRest(s, c, e);
  }

  lemma CommitKeepsRest(s: Reactor, c: Id, e: C.Effect)
    requires Rest(s) && InCallback(s) && c in s.conns && c in Alive(s)
    requires e.conn.Valid() && e.conn.fd == s.conns[c].fd
    requires e.updates || e.conn.events == s.conns[c].events
    requires P.Unshared(s.epoll, c, e.conn.fd)
    requires C.HalfInv(s.code, e.conn) && (s.code.offersReadable ==> C.PrefixInv(e.conn))
    ensures Rest(Commit(s, c, e))
  {
    hide Alive, C.HalfInv, C.PrefixInv, P.Agrees, P.Unshared, Commit, WellFormed, Kernel, Places, Streams, L.Inv;
    KernelAfterCommit(s, c, e);
    AliveAfterCommit(s, c, e);
    WellFormedAfterCommit(s, c, e);
    PlacesAfterCommit(s, c, e);
    StreamsAfterCommit(s, c, e);
    CommitFacts(s, c, e);
    FdsFrom(s, Commit(s, c, e));
  }

  /** A push, seen from everything but the ownership. */
  lemma RestAfterPush(s: Reactor, l: L.Loop<Task>, t: Task)
    requires Rest(s) && L.Inv(l) && l.pc == s.loop.pc && l.batch == s.loop.batch && l.next == s.loop.next
    requires l.pending == s.loop.pending + [t] && !l.mustWake
    requires !t.User? ==> t.conn in s.conns && (t.Destroyed? || t.Callback? ==> t.conn in Alive(s))
    requires t.Destroyed? ==> s.loop.pc.Dispatching?
    ensures Rest(s.(loop := l))
  {
    hide L.Inv, WellFormed, Places, Alive;
    var s' := s.(loop := l);
    WellFormedAfterPush(s, l, t);
    PlacesAfterPush(s, l, t);
    AliveAfterPush(s, l, t);
    FdsFrom(s, s');
    SameBut(s, s');
  }

  lemma WellFormedAfterPush(s: Reactor, l: L.Loop<Task>, t: Task)
    requires WellFormed(s) && l.pc == s.loop.pc && l.batch == s.loop.batch && l.next == s.loop.next
    requires l.pending == s.loop.pending + [t] && !l.mustWake && (!t.User? ==> t.conn in s.conns)
    ensures WellFormed(s.(loop := l))
  {
    assert forall u :: u in l.pending <==> u in s.loop.pending || u == t;
  }

  lemma PlacesAfterPush(s: Reactor, l: L.Loop<Task>, t: Task)
    requires Places(s) && l.pc == s.loop.pc && l.pending == s.loop.pending + [t]
    requires t.Destroyed? ==> s.loop.pc.Dispatching?
    ensures Places(s.(loop := l))
  {
  }

  /** The kernel's side and the streams do not depend on the rest. */
  lemma SameBut(s: Reactor, s': Reactor)
    requires s'.epoll == s.epoll && s'.refused == s.refused && s'.conns == s.conns && s'.code == s.code
    ensures Kernel(s) ==> Kernel(s')
    ensures Streams(s) ==> Streams(s')
  {
  }

  lemma AliveAfterPush(s: Reactor, l: L.Loop<Task>, t: Task)
    requires l.batch == s.loop.batch && l.pending == s.loop.pending + [t]
    requires t.Destroyed? || t.Callback? ==> t.conn in Alive(s)
    ensures Alive(s.(loop := l)) == Alive(s)
  {
  }

  /** An entry is taken out of the server's map. */
  lemma RestUnlisted(s: Reactor, name: string)
    requires Rest(s)
    ensures Rest(s.(connections := s.connections - {name}))
  {
    hide L.Inv, Kernel, Streams, Fds, WellFormed, Places, Alive;
    var s' := s.(connections := s.connections - {name});
    PlacesUnlisted(s, name);
    FdsFrom(s, s');
    SameBut(s, s');
  }

  lemma PlacesUnlisted(s: Reactor, name: string)
    requires WellFormed(s) && Places(s)
    ensures var s' := s.(connections := s.connections - {name});
            WellFormed(s') && Places(s') && Alive(s') <= Alive(s)
  {
  }

  /** The loop thread queues a functor of the user's. */
  lemma InvQueueUser(s: Reactor, id: nat)
    requires Inv(s) && InCallback(s)
    ensures Inv(QueueOwn(s, User(id)))
  {
    hide Rest, Owner, L.Queued, L.Inv;
    LoopIsFine(s);
    QueuedFacts(s.loop, User(id));
    OwnerPlain(s, QueueOwn(s, User(id)), User(id));
    RestAfterPush(s, L.Queued(s.loop, L.Own, User(id)), User(id));
  }

  lemma LoopIsFine(s: Reactor)
    requires Rest(s)
    ensures L.Inv(s.loop) && !s.loop.mustWake && s.loop.next <= |s.loop.batch|
    ensures s.inFrame ==> InCallback(s)
    ensures s.active != [] ==> s.loop.pc.Dispatching?
    ensures !s.inFrame ==> s.ops == [] && s.holds == {}
  {
  }

  /** The next op's connection. */
  lemma HeadFacts(s: Reactor)
    requires Inv(s) && s.ops != [] && !s.ops[0].UserCode? && !s.ops[0].Send? && !s.ops[0].Shutdown?
    ensures var c := s.ops[0].conn;
            c in s.conns && s.conns[c].Valid() && c in s.holds && c in Alive(s) && P.Unshared(s.epoll, c, s.conns[c].fd)
    ensures s.inFrame && InCallback(s) && s.ops == [s.ops[0]] + s.ops[1..]
    ensures forall op :: op in s.ops[1..] && !op.UserCode? ==>
              op.conn in s.conns && (!op.Send? && !op.Shutdown? ==> op.conn in s.holds)
  {
    hide Owner, Kernel, Fds, Streams, L.Inv;
    OpsAreHeld(s);
    AliveIsUnshared(s, s.ops[0].conn);
  }

  lemma OwnerPlain(s: Reactor, s': Reactor, t: Task)
    requires Owner(s) && (t.User? || t.Callback?) && s'.loop.next <= |s'.loop.batch|
    requires Queue(s'.loop) == Queue(s.loop) + [t] && s'.loop.pc == s.loop.pc
    requires s' == s.(loop := s'.loop)
    ensures Owner(s')
  {
    hide CoreInv, Queue;
    PushPlain(CoreOf(s), t);
    assert CoreOf(s') == CoreOf(s).(queue := Queue(s.loop) + [t]);
  }

  // ---- The close ----

  lemma InvClose(s: Reactor, c: Id)
    requires Inv(s) && s.ops != [] && s.ops[0] == Close(c) && InCallback(s) && c in s.conns
    ensures Inv(Commit(s.(ops := [UserCode, Erase(c)] + s.ops[1..]), c, C.Close(s.conns[c])))
  {
    hide Rest, Kernel, Places, CoreInv, P.Unshared, Alive, C.HalfInv, C.PrefixInv;
    HeadFacts(s);
    ClosedStream(s, c);
    CloseOne(CoreOf(s), c, s.ops[1..]);
    var framed := s.(ops := [UserCode, Erase(c)] + s.ops[1..]);
    RestWithOps(s, framed.ops);
    CloseEffect(s, framed, c);
    CloseCore(s, c, C.Close(s.conns[c]), framed.ops);
  }

  /** The effect of `handleClose` on everything but the ownership. */
  lemma CloseEffect(s: Reactor, framed: Reactor, c: Id)
    requires Rest(framed) && framed == s.(ops := framed.ops) && InCallback(s) && c in s.conns
    requires s.conns[c].Valid() && c in Alive(s) && P.Unshared(s.epoll, c, s.conns[c].fd)
    requires C.HalfInv(s.code, C.Close(s.conns[c]).conn)
    requires s.code.offersReadable ==> C.PrefixInv(C.Close(s.conns[c]).conn)
    ensures Rest(Commit(framed, c, C.Close(s.conns[c])))
  {
    hide Rest, P.Unshared, C.HalfInv, C.PrefixInv, Commit;
    assert Alive(framed) == Alive(s);
    CommitKeepsRest(framed, c, C.Close(s.conns[c]));
  }

  lemma ClosedStream(s: Reactor, c: Id)
    requires Rest(s) && c in s.conns
    ensures s.conns[c].Valid()
    ensures C.HalfInv(s.code, C.Close(s.conns[c]).conn)
    ensures s.code.offersReadable ==> C.PrefixInv(C.Close(s.conns[c]).conn)
  {
    hide Kernel, Fds, Places, L.Inv;
    OpKeepsStream(s.code, s.conns[c], C.CloseOp);
  }

  lemma CloseCore(s: Reactor, c: Id, e: C.Effect, ops: seq<Op>)
    requires s.loop.next <= |s.loop.batch| && InCallback(s) && c in s.conns && c in s.epoll.index
    requires e.updates && e.notes == [] && e.conn.state == C.Disconnected
    ensures var s' := Commit(s.(ops := ops), c, e);
            && s'.loop.next <= |s'.loop.batch|
            && CoreOf(s') == CoreOf(s).(states := StateMap(s.conns)[c := C.Disconnected], ops := ops)
  {
    hide P.Epoll.UpdateChannel, P.Epoll.CtlSucceeds, P.Epoll.UpdateOp;
    IndexAfterUpdate(s.epoll, c, P.Chan(e.conn.fd, e.conn.events));
    var s' := Commit(s.(ops := ops), c, e);
    assert StateMap(s'.conns) == StateMap(s.conns)[c := C.Disconnected];
  }

  /** A name stands for one connection: erasing it takes that connection out of the map and no other. */
  lemma EraseByName(s: Reactor, c: Id)
    requires Rest(s) && c in s.conns
    ensures (s.connections - {Name(s, c)}).Values == s.connections.Values - {c}
  {
    hide Kernel, Fds, Streams, L.Inv;
    var m := s.connections - {Name(s, c)};
    forall d | d in m.Values
      ensures d != c
    {
      var n :| n in m && m[n] == d;
      assert n == Name(s, d);
    }
    forall d | d in s.connections.Values && d != c
      ensures d in m.Values
    {
      var n :| n in s.connections && s.connections[n] == d;
      assert n == Name(s, d);
      if n == Name(s, c) {
        N.NamesAreDistinct(s.server, s.ipPort, c, d);
      }
      assert m[n] == d;
    }
  }

  lemma ErasesInDispatch(s: Reactor)
    requires Owner(s) && s.ops != [] && s.ops[0].Erase?
    ensures s.loop.pc.Dispatching?
  {
    ReadIsInDispatch(CoreOf(s));
  }

  lemma InvErase(s: Reactor, c: Id)
    requires Inv(s) && s.ops != [] && s.ops[0] == Erase(c) && InCallback(s) && c in s.conns
    ensures Inv(QueueOwn(s.(ops := s.ops[1..], connections := s.connections - {Name(s, c)}), Destroyed(c)))
  {
    hide CoreInv, Rest, L.Queued, L.Inv, P.Unshared;
    HeadFacts(s);
    LoopIsFine(s);
    EraseByName(s, c);
    QueuedFacts(s.loop, Destroyed(c));
    ErasesInDispatch(s);
    var dropped := s.(ops := s.ops[1..]);
    RestWithOps(s, dropped.ops);
    var unlisted := dropped.(connections := s.connections - {Name(s, c)});
    RestUnlisted(dropped, Name(s, c));
    assert c in Alive(unlisted);
    RestAfterPush(unlisted, L.Queued(s.loop, L.Own, Destroyed(c)), Destroyed(c));
    EraseOne(CoreOf(s), c, s.ops[1..]);
    var s' := QueueOwn(unlisted, Destroyed(c));
    assert CoreOf(s') == CoreOf(s).(listed := s.connections.Values - {c}, queue := Queue(s.loop) + [Destroyed(c)],
                                    ops := s.ops[1..]);
  }

  lemma InvRead(s: Reactor, op: Op)
    requires Inv(s) && s.ops != [] && s.ops[0].Read? && (op == UserCode || op == Close(s.ops[0].conn))
    ensures Inv(s.(ops := [op] + s.ops[1..]))
  {
    hide CoreInv, Rest, Queue;
    OpsAreHeld(s);
    ReplaceRead(CoreOf(s), s.ops[0].conn, op, s.ops[1..]);
    assert CoreOf(s.(ops := [op] + s.ops[1..])) == CoreOf(s).(ops := [op] + s.ops[1..]);
    RestWithOps(s, [op] + s.ops[1..]);
  }

  // ---- The destruction ----

  lemma DestructionIsAlone(s: Reactor)
    requires Owner(s) && s.ops != [] && (s.ops[0].Destroy? || s.ops[0].Remove?)
    ensures s.ops == [s.ops[0]] && s.ops[1..] == []
  {
    assert s.ops[0] in s.ops;
  }

  /** `connectDestroyed` of a connection that is still connected. */
  lemma InvDestroyConnected(s: Reactor, c: Id)
    requires Inv(s) && s.ops != [] && s.ops[0] == Destroy(c) && InCallback(s)
    requires c in s.conns && s.conns[c].state == C.Connected
    ensures Inv(Commit(s.(ops := [UserCode, Remove(c)] + s.ops[1..]), c, C.Destroy(s.conns[c])))
  {
    hide Rest, Kernel, Places, CoreInv, P.Unshared, Alive, C.HalfInv, C.PrefixInv;
    HeadFacts(s);
    DestructionIsAlone(s);
    assert [UserCode, Remove(c)] + s.ops[1..] == [UserCode, Remove(c)];
    ClosedStream(s, c);
    DestroyOne(CoreOf(s), c, C.Disconnected, [UserCode, Remove(c)]);
    var framed := s.(ops := [UserCode, Remove(c)]);
    RestWithOps(s, framed.ops);
    CloseEffect(s, framed, c);
    CloseCore(s, c, C.Close(s.conns[c]), framed.ops);
  }

  lemma InvDestroyClosed(s: Reactor, c: Id)
    requires Inv(s) && s.ops != [] && s.ops[0] == Destroy(c) && c in s.conns && s.conns[c].state != C.Connected
    ensures Inv(s.(ops := [Remove(c)] + s.ops[1..]))
  {
    hide CoreInv, Rest, Queue;
    OpsAreHeld(s);
    DestructionIsAlone(s);
    assert [Remove(c)] + s.ops[1..] == [Remove(c)];
    DestroyOne(CoreOf(s), c, s.conns[c].state, [Remove(c)]);
    assert StateMap(s.conns)[c := s.conns[c].state] == StateMap(s.conns);
    assert CoreOf(s.(ops := [Remove(c)])) == CoreOf(s).(ops := [Remove(c)]);
    RestWithOps(s, [Remove(c)]);
  }

  lemma InvRemove(s: Reactor, c: Id)
    requires Inv(s) && s.ops != [] && s.ops[0] == Remove(c) && c in s.conns
    ensures Inv(Unregister(s.(ops := s.ops[1..]), c))
  {
    hide CoreInv, Rest, P.Agrees, P.Unshared, Alive;
    HeadFacts(s);
    DestructionIsAlone(s);
    NoDispatchNow(s);
    LoopIsFine(s);
    RemoveOne(CoreOf(s), c);
    var dropped := s.(ops := s.ops[1..]);
    RestWithOps(s, dropped.ops);
    RemoveRest(dropped, c);
    var s' := Unregister(dropped, c);
    assert s'.epoll.index.Keys == s.epoll.index.Keys - {c};
    assert CoreOf(s') == CoreOf(s).(registered := s.epoll.index.Keys - {c}, ops := []);
  }

  lemma RemoveRest(s: Reactor, c: Id)
    requires Rest(s) && s.active == [] && c in s.conns && P.Unshared(s.epoll, c, s.conns[c].fd)
    ensures Rest(Unregister(s, c))
  {
    hide Fds, L.Inv, C.HalfInv, C.PrefixInv, P.Agrees, P.Unshared, WellFormed, Places, Streams;
    P.RemoveKeepsAgreement(s.epoll, Chans(s.conns), c);
    var s' := Unregister(s, c);
    assert s'.epoll == s.epoll.RemoveChannel(c, Chans(s.conns)[c]);
    assert s'.epoll.index.Keys <= s.epoll.index.Keys;
    assert Kernel(s');
    hide Unregister, Kernel, P.Epoll.RemoveChannel;
    assert Alive(s') == Alive(s);
    SameFds(s, s');
    SmallerIndex(s, s');
  }

  lemma SmallerIndex(s: Reactor, s': Reactor)
    requires WellFormed(s) && Places(s) && Streams(s) && s.active == [] && s'.epoll.index.Keys <= s.epoll.index.Keys
    requires s' == s.(epoll := s'.epoll, refused := s'.refused)
    ensures WellFormed(s') && Places(s') && Streams(s')
  {
    hide C.HalfInv, C.PrefixInv, N.ConnName;
    assert WellFormed(s') by { hide Places, Streams; }
    assert Places(s') by { hide WellFormed, Streams; }
    assert Streams(s') by { hide WellFormed, Places; }
  }

  lemma SameFds(s: Reactor, s': Reactor)
    requires Fds(s) && Alive(s') == Alive(s) && s'.conns == s.conns
    ensures Fds(s')
  {
  }

  lemma NoDispatchNow(s: Reactor)
    requires Owner(s) && s.ops != [] && (s.ops[0].Destroy? || s.ops[0].Remove?)
    ensures !s.loop.pc.Dispatching?
  {
    assert s.ops[0] in s.ops;
  }
}
