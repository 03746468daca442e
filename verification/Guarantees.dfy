/** What the reactor guarantees over all its runs: any number of connections and other threads, any
    interleaving, any behaviour of the kernel, the clients and the users' callbacks. */
module Guarantees {
  import opened Buffers
  import opened Reactors
  import opened Ownership
  import opened ReactorInvariants
  import opened ReactorSteps
  import opened Runs
  import opened StepShapes
  import opened BareFunctors
  import P = EpollPollers
  import L = EventLoops
  import C = Connections
  import N = Names

  // ---- Lifetime ----

  /** Lifetime: every channel that the poller's map, the kernel's set or the undispatched part of the active
      list points to belongs to a connection that the library itself keeps alive.  In particular the tie of
      a dispatched channel can always be locked. */
  lemma ChannelsBelongToLiveConnections(s: Reactor)
    requires Reachable(s)
    ensures forall fd :: fd in s.epoll.channels ==> s.epoll.channels[fd] in Owned(s)
    ensures forall fd :: fd in s.epoll.kernel ==> s.epoll.kernel[fd].channel in Owned(s)
    ensures forall r :: r in s.active ==> r.conn in Owned(s)
  {
    hide Reachable, Owned, L.Inv, Streams, Fds, CoreInv;
    ReachableIsInv(s);
    forall fd | fd in s.epoll.channels
      ensures s.epoll.channels[fd] in Owned(s)
    {
      RegisteredIsOwned(s, s.epoll.channels[fd]);
    }
    forall fd | fd in s.epoll.kernel
      ensures s.epoll.kernel[fd].channel in Owned(s)
    {
      assert InKernel(s.epoll, s.epoll.kernel[fd].channel);
      KernelIsRegistered(s, s.epoll.kernel[fd].channel);
      RegisteredIsOwned(s, s.epoll.kernel[fd].channel);
    }
    forall r | r in s.active
      ensures r.conn in Owned(s)
    {
      RegisteredIsOwned(s, r.conn);
    }
  }

  /** Between iterations, and after the loop, no destruction is pending. */
  lemma NothingDoomedOutside(s: Reactor)
    requires Inv(s) && !s.inFrame
    requires s.loop.pc.Testing? || s.loop.pc.Entering? || s.loop.pc.Polling? || s.loop.pc.Stopped?
    ensures s.ops == [] && forall c :: !Doomed(CoreOf(s), c)
  {
    hide Streams, Fds, Kernel, CoreInv, L.QuitIsSeen, L.Announced, L.InOrder;
    assert s.loop.batch == [];
    assert Queue(s.loop) == s.loop.pending;
  }

  /** Whenever the loop is between iterations, a connection that has been closed, by however many
      `handleClose` calls, is in neither the poller's map nor the kernel's set, and its index is kNew. */
  lemma ClosedIsGoneAtThePoll(s: Reactor, c: Id)
    requires Reachable(s) && c in s.conns && s.conns[c].state == C.Disconnected
    requires s.loop.pc.Testing? || s.loop.pc.Entering? || s.loop.pc.Polling?
    ensures s.epoll.IndexOf(c) == P.New
    ensures forall fd :: fd in s.epoll.channels ==> s.epoll.channels[fd] != c
    ensures forall fd :: fd in s.epoll.kernel ==> s.epoll.kernel[fd].channel != c
  {
    hide Reachable, L.Inv, Streams, Fds, Places, Shapes, P.Agrees;
    ReachableIsInv(s);
    NothingDoomedOutside(s);
    assert CoreOf(s).states[c] == C.Disconnected;
    assert c !in CoreOf(s).registered;
    assert c in Chans(s.conns);
    P.AgreementMeans(s.epoll, Chans(s.conns), c);
  }

  /** When `loop()` has returned and `~TcpServer` has been through all connections, the poller and the
      kernel are left with none. */
  lemma DestructorLeavesNothing(s: Reactor)
    requires Reachable(s) && s.loop.pc.Stopped? && !s.inFrame && s.connections == map[]
    ensures s.epoll.channels == map[] && s.epoll.kernel == map[] && s.epoll.index == map[]
  {
    hide Reachable, L.Inv, Streams, Fds, Places, Shapes, States;
    ReachableIsInv(s);
    NothingDoomedOutside(s);
    assert forall c :: c !in CoreOf(s).listed;
    assert s.epoll.index.Keys == CoreOf(s).registered == {};
    NoIndexNoEntries(s.epoll, Chans(s.conns));
  }

  lemma NoIndexNoEntries(p: P.Epoll<Id>, chans: map<Id, P.Chan>)
    requires P.Agrees(p, chans) && p.index == map[]
    ensures p.channels == map[] && p.kernel == map[]
  {
    forall fd
      ensures fd !in p.channels && fd !in p.kernel
    {
      if fd in p.channels || fd in p.kernel {
        EntryHasIndex(p, chans, fd);
        assert false;
      }
    }
    assert p.channels.Keys == {} && p.kernel.Keys == {};
  }

  lemma EntryHasIndex(p: P.Epoll<Id>, chans: map<Id, P.Chan>, fd: int)
    requires P.Agrees(p, chans) && (fd in p.channels || fd in p.kernel)
    ensures |p.index| > 0
  {
  }

  // ---- The kernel ----

  /** In every reachable state the indexes, the masks, the map and the kernel agree, and no `epoll_ctl` has
      ever been refused: the fatal branch for EEXIST and ENOENT is unreachable. */
  lemma KernelAlwaysAgrees(s: Reactor)
    requires Reachable(s)
    ensures P.Agrees(s.epoll, Chans(s.conns)) && s.refused == 0
  {
    ReachableIsInv(s);
  }

  // ---- The queue ----

  /** In the whole server, too, tasks run once each in the order of their pushes, no wakeup is lost, and
      once `quit_` is set at most one poll begins. */
  lemma QueueIsSound(s: Reactor)
    requires Reachable(s)
    ensures L.InOrder(s.loop) && s.loop.pollsSinceQuit <= 1
    ensures s.loop.pc.Polling? && s.loop.pending != [] ==> s.loop.counter > 0 || s.loop.pushers != {}
    ensures s.loop.pc.Polling? && s.loop.quit ==> s.loop.counter > 0 || s.loop.quitters != {}
  {
    ReachableIsInv(s);
    LoopIsFine(s);
  }

  // ---- Names ----

  /** A new connection never displaces another from the server's map, and `EraseByName` takes out one.  It is
      open, with the descriptor, the mark and the callbacks it was given and interest in reading alone, and
      the frame that holds it has its connection callback to run. */
  lemma NewConnectionsDisplaceNone(s: Reactor, fd: int, mark: nat, wc: bool, hw: bool)
    requires Reachable(s) && WellFormed(s) && Enabled(s, Accept(fd, mark, wc, hw))
    ensures Name(s, s.nextConnId) !in s.connections && s.nextConnId !in s.conns
    ensures var c, s' := s.nextConnId, Next(s, Accept(fd, mark, wc, hw));
            && s'.connections == s.connections[Name(s, c) := c]
            && s'.connections.Values == s.connections.Values + {c}
            && s'.inFrame && s'.holds == {c} && s'.ops == [UserCode]
            && s'.conns.Keys == s.conns.Keys + {c} && (forall d :: d in s.conns ==> s'.conns[d] == s.conns[d])
            && s'.conns[c] == C.Conn(fd, C.Connected, P.READ, FRESH, mark, wc, hw, [], [], 0, false, false)
  {
    hide Reachable, Inv, WellFormed, N.ConnName, Alive, Commit, AcceptOne;
    ReachableIsInv(s);
    NewNameIsFree(s);
    ValuesAfterInsert(s.connections, Name(s, s.nextConnId), s.nextConnId);
    AcceptPlace(s, fd, mark, wc, hw);
    AcceptShape(s, fd, mark, wc, hw);
    AcceptFrame(s, fd, mark, wc, hw);
    C.EstablishedIsOpen(fd, mark, wc, hw);
  }

  lemma NewNameIsFree(s: Reactor)
    requires Inv(s)
    ensures Name(s, s.nextConnId) !in s.connections
  {
    hide Owner, Kernel, Fds, Streams, L.Inv, N.ConnName;
    NewNameIsFresh(s);
  }

  lemma AcceptFrame(s: Reactor, fd: int, mark: nat, wc: bool, hw: bool)
    requires WellFormed(s) && Enabled(s, Accept(fd, mark, wc, hw))
    ensures AcceptOne(s, fd, mark, wc, hw).inFrame && AcceptOne(s, fd, mark, wc, hw).holds == {s.nextConnId}
  {
    assert InCallback(s);
    hide WellFormed, Alive, Commit, N.ConnName;
    CommitFacts(Born(s, C.NewConn(fd, mark, wc, hw)), s.nextConnId, C.Establish(C.NewConn(fd, mark, wc, hw)));
  }
}
