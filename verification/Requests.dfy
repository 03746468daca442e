/** What the threads ask of the loop and the kernel reports to it, and that none of it is lost: the reported
    channels are all dispatched, the queued functors are all in the queue, and `quit_` is set exactly when some
    thread asked for it. */
module Requests {
  import opened Reactors
  import opened ReactorInvariants
  import opened ReactorSteps
  import opened Runs
  import opened StepShapes
  import opened BareFunctors
  import P = EpollPollers
  import L = EventLoops
  import C = Connections
  import N = Names

  // ---- What the steps of a run say ----

  /** What `poll` has returned so far, in order. */
  function Reported(steps: seq<Step>): seq<Ready>
    decreases |steps|
  {
    if steps == [] then []
    else Reported(steps[..|steps| - 1]) + if steps[|steps| - 1].Wait? then steps[|steps| - 1].ready else []
  }

  /** The channels whose `handleEvent` has been called, with the masks they were called with. */
  ghost function Dispatched(s: Reactor, steps: seq<Step>): seq<Ready>
    requires Legal(s, steps)
    decreases |steps|
  {
    if steps == [] then []
    else
      Dispatched(s, steps[..|steps| - 1]) +
      if steps[|steps| - 1].Dispatch? then [After(s, steps[..|steps| - 1]).active[0]] else []
  }

  /** The functors that user code has queued, in the loop's thread and in others. */
  function Queued(steps: seq<Step>): seq<nat>
    decreases |steps|
  {
    if steps == [] then [] else Queued(steps[..|steps| - 1]) + QueuedBy(steps[|steps| - 1])
  }

  function QueuedBy(step: Step): seq<nat> {
    if step.ByUser? && step.action.UserQueue? then [step.action.id]
    else if step.ByOther? && step.deed.OtherQueue? then [step.deed.id]
    else []
  }

  predicate AsksToQuit(step: Step) {
    (step.ByUser? && step.action.UserQuit?) || (step.ByOther? && step.deed.OtherQuit?)
  }

  /** Some thread has asked the loop to quit, since `loop()` was called if it has been. */
  predicate AskedToQuit(steps: seq<Step>)
    decreases |steps|
  {
    steps != [] &&
    var step := steps[|steps| - 1];
    (AsksToQuit(step) || (AskedToQuit(steps[..|steps| - 1]) && step != LoopStep(L.Begin)))
  }

  /** The functors among these that user code queued. */
  function OfUsers(tasks: seq<Task>): seq<nat> {
    if tasks == [] then []
    else OfUsers(tasks[..|tasks| - 1]) + if tasks[|tasks| - 1].User? then [tasks[|tasks| - 1].id] else []
  }

  lemma OfUsersOfOne(tasks: seq<Task>, t: Task)
    ensures OfUsers(tasks + [t]) == OfUsers(tasks) + if t.User? then [t.id] else []
  {
    assert (tasks + [t])[..|tasks + [t]| - 1] == tasks;
  }

  // ---- One step ----

  /** A step's part in all this. */
  ghost predicate Answers(s: Reactor, step: Step, s': Reactor) {
    && s'.loop.quit == (AsksToQuit(step) || (s.loop.quit && step != LoopStep(L.Begin)))
    && s'.active == (if step.Wait? then step.ready else if step.Dispatch? && s.active != [] then s.active[1..] else s.active)
    && OfUsers(s'.loop.pushed) == OfUsers(s.loop.pushed) + QueuedBy(step)
  }

  lemma CommitAnswers(s: Reactor, c: Id, e: C.Effect)
    requires InCallback(s)
    ensures var s' := Commit(s, c, e);
            && s'.loop.quit == s.loop.quit && s'.active == s.active && OfUsers(s'.loop.pushed) == OfUsers(s.loop.pushed)
  {
    hide P.Epoll.UpdateChannel, P.Epoll.CtlSucceeds, P.Epoll.UpdateOp;
    CommitFacts(s, c, e);
    if e.notes != [] {
      OfUsersOfOne(s.loop.pushed, Callback(c, e.notes[0]));
    }
    hide OfUsers;
  }

  lemma ExecAnswers(s: Reactor, k: C.WriteResult, r: ReadResult)
    requires WellFormed(s) && Enabled(s, Exec(k, r))
    ensures Answers(s, Exec(k, r), ExecOne(s, k, r))
  {
    hide WellFormed, Alive, ExecLive, Commit, C.Apply, C.May, OfUsers;
    var c := s.ops[0].conn;
    assert s.loop.pushed + [] == s.loop.pushed;
    if c in Alive(s) {
      if HeadOp(s, k) == [] {
        ExecIdle(s, k, r);
        IdleAnswers(s, k, r);
        OfUsersOfOne(s.loop.pushed, Destroyed(c));
      } else {
        ExecShape(s, k, r);
        CommitAnswers(s.(ops := Follow(s.ops[0]) + s.ops[1..]), c, C.Apply(s.code, s.conns[c], HeadOp(s, k)[0]));
      }
    }
  }

  lemma IdleAnswers(s: Reactor, k: C.WriteResult, r: ReadResult)
    requires WellFormed(s) && Enabled(s, Exec(k, r)) && HeadOp(s, k) == []
    ensures ExecLive(s, k, r).loop.quit == s.loop.quit
  {
    QueuedKeepsQuit(s.loop, s.ops[0].conn);
    hide WellFormed, N.ConnName, P.Epoll.RemoveChannel, L.Queued, Alive, C.Apply;
  }

  lemma QueuedKeepsQuit(l: L.Loop<Task>, c: Id)
    ensures !l.mustWake && (l.pc.Dispatching? || l.pc.Running? || l.pc.Stopped?) ==>
              L.Queued(l, L.Own, Destroyed(c)).quit == l.quit
  {
  }

  lemma UserAnswers(s: Reactor, action: UserAction)
    requires WellFormed(s) && Enabled(s, ByUser(action))
    ensures Answers(s, ByUser(action), UserOne(s, action))
  {
    hide WellFormed, Alive, UserOne, Commit, C.Apply, C.May, OfUsers;
    UserShape(s, action);
    assert s.loop.pushed + [] == s.loop.pushed;
    if UserOp(action) != [] {
      CommitAnswers(s, action.conn, C.Apply(s.code, s.conns[action.conn], UserOp(action)[0]));
    } else {
      UserQuits(s, action);
      if action.UserQueue? {
        OfUsersOfOne(s.loop.pushed, User(action.id));
      }
    }
  }

  lemma UserQuits(s: Reactor, action: UserAction)
    requires WellFormed(s) && Enabled(s, ByUser(action)) && UserOp(action) == []
    ensures UserOne(s, action).loop.quit == (s.loop.quit || action.UserQuit?)
  {
    hide Alive;
  }

  lemma OtherAnswers(s: Reactor, tid: L.Tid, deed: OtherAction)
    requires WellFormed(s) && Enabled(s, ByOther(tid, deed))
    ensures Answers(s, ByOther(tid, deed), OtherOne(s, tid, deed))
  {
    hide WellFormed, Alive, OfUsers;
    if deed.PushCall? {
      OfUsersOfOne(s.loop.pushed, AsTask(s.callers[tid]));
    } else if deed.OtherQueue? {
      OfUsersOfOne(s.loop.pushed, User(deed.id));
    }
  }

  lemma StepAnswers(s: Reactor, step: Step)
    requires WellFormed(s) && Enabled(s, step)
    ensures Answers(s, step, Next(s, step))
  {
    hide WellFormed, Alive, ExecOne, UserOne, AcceptOne, OtherOne, N.ConnName, OfUsers, Answers;
    if step.Exec? {
      ExecAnswers(s, step.k, step.r);
    } else if step.ByUser? {
      UserAnswers(s, step.action);
    } else if step.ByOther? {
      OtherAnswers(s, step.tid, step.deed);
    } else if step.Accept? {
      AcceptAnswers(s, step.fd, step.highWaterMark, step.hasWriteComplete, step.hasHighWater);
    } else {
      LoopAnswers(s, step);
    }
  }

  lemma AcceptAnswers(s: Reactor, fd: int, mark: nat, wc: bool, hw: bool)
    requires WellFormed(s) && Enabled(s, Accept(fd, mark, wc, hw))
    ensures Answers(s, Accept(fd, mark, wc, hw), AcceptOne(s, fd, mark, wc, hw))
  {
    assert InCallback(s);
    hide WellFormed, Alive, Commit, N.ConnName, OfUsers;
    var conn := C.NewConn(fd, mark, wc, hw);
    CommitAnswers(Born(s, conn), s.nextConnId, C.Establish(conn));
  }

  lemma LoopAnswers(s: Reactor, step: Step)
    requires WellFormed(s) && Enabled(s, step)
    requires !step.Exec? && !step.ByUser? && !step.ByOther? && !step.Accept?
    ensures Answers(s, step, Next(s, step))
  {
    hide WellFormed, Alive, OfUsers;
  }

  // ---- Over runs ----

  /** Nothing is lost on the way to the loop.  In every run: the channels that `poll` reported are those whose
      `handleEvent` has been called, each once and in the order of the report, and the ones that the dispatch
      under way has still to come to; the functors queued by user code, in any thread, are in the queue once each
      in their order; and `quit_` is set exactly when some thread has called `quit` since `loop()` began. */
  lemma {:induction false} NothingAskedIsLost(code: C.Code, server: string, ipPort: string, steps: seq<Step>)
    requires Legal(Start(code, server, ipPort), steps)
    ensures var start := Start(code, server, ipPort); var s := After(start, steps);
            && Reported(steps) == Dispatched(start, steps) + s.active
            && OfUsers(s.loop.pushed) == Queued(steps)
            && s.loop.quit == AskedToQuit(steps)
    decreases |steps|
  {
    hide WellFormed, Enabled, Next, OfUsers;
    var start := Start(code, server, ipPort);
    if steps == [] {
      assert OfUsers([]) == [] by { NoneOfUsers(); }
    } else {
      var before, step := steps[..|steps| - 1], steps[|steps| - 1];
      var b := After(start, before);
      NothingAskedIsLost(code, server, ipPort, before);
      StepAnswers(b, step);
      NothingActiveAtThePoll(b, step);
    }
  }

  lemma NoneOfUsers()
    ensures OfUsers([]) == []
  {
  }

  lemma NothingActiveAtThePoll(s: Reactor, step: Step)
    requires WellFormed(s) && Enabled(s, step)
    ensures step.Wait? ==> s.active == []
    ensures step.Dispatch? ==> s.active != [] && s.active == [s.active[0]] + s.active[1..]
  {
  }

  /** So between dispatches every report has been dealt with, and the user's functors that have run are the first
      ones queued. */
  lemma ReportsAreDealtWith(code: C.Code, server: string, ipPort: string, steps: seq<Step>)
    requires C.Sound(code) && |ipPort| <= N.LONGEST && Legal(Start(code, server, ipPort), steps)
    ensures var start := Start(code, server, ipPort); var s := After(start, steps);
            && (!s.loop.pc.Dispatching? ==> Dispatched(start, steps) == Reported(steps))
            && OfUsers(s.loop.ran) <= Queued(steps)
  {
    hide Inv, Next, Enabled, WellFormed, Legal, After, Reported, Dispatched, Queued;
    var start := Start(code, server, ipPort);
    var s := After(start, steps);
    StartIsFine(code, server, ipPort);
    RunsKeepInv(start, steps);
    NothingAskedIsLost(code, server, ipPort, steps);
    OnlyActiveInDispatch(s);
    QueueIsRest(s);
    RanIsFirst(s);
    OfUsersOfPrefix(s.loop.pushed, |s.loop.ran|);
  }

  lemma OnlyActiveInDispatch(s: Reactor)
    requires Inv(s)
    ensures !s.loop.pc.Dispatching? ==> s.active == []
  {
    InvIsWellFormed(s);
    hide Inv;
  }

  lemma RanIsFirst(s: Reactor)
    requires Inv(s)
    ensures |s.loop.ran| <= |s.loop.pushed| && s.loop.ran == s.loop.pushed[..|s.loop.ran|]
  {
    LoopIsFine(s);
    hide Inv;
    assert s.loop.pushed == s.loop.ran + (s.loop.batch[s.loop.next..] + s.loop.pending);
  }

  lemma {:induction false} OfUsersOfPrefix(tasks: seq<Task>, n: nat)
    requires n <= |tasks|
    ensures OfUsers(tasks[..n]) <= OfUsers(tasks)
  {
    if n < |tasks| {
      OfUsersOfPrefix(tasks[..|tasks| - 1], n);
      assert tasks[..|tasks| - 1][..n] == tasks[..n];
    } else {
      assert tasks[..n] == tasks;
    }
  }
}
