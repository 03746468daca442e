/** What becomes of the payloads given to `send` and of the calls of `shutdown` that come from other threads:
    each is carried out as it was called, and what a connection accepts is exactly what it was given. */
module Payloads {
  import opened Buffers
  import opened Reactors
  import opened Ownership
  import opened ReactorInvariants
  import opened ReactorSteps
  import opened Runs
  import opened StepShapes
  import opened BareFunctors
  import P = EpollPollers
  import L = EventLoops
  import C = Connections
  import N = Names

  // ---- Where a functor comes from, by the run alone ----

  datatype Origin = NoCall | Of(call: Call)

  /** The call that a thread began last, as its own steps show it. */
  function Begun(steps: seq<Step>, tid: L.Tid): Origin
    decreases |steps|
  {
    if steps == [] then NoCall
    else
      var step := steps[|steps| - 1];
      if step.ByOther? && step.tid == tid && step.deed.TestSend? then Of(SendCall(step.deed.conn, step.deed.data))
      else if step.ByOther? && step.tid == tid && step.deed.TestShutdown? then Of(ShutdownCall(step.deed.conn))
      else Begun(steps[..|steps| - 1], tid)
  }

  function NoCalls(n: nat): seq<Origin> {
    seq(n, _ => NoCall)
  }

  /** Which call each functor ever pushed belongs to. */
  ghost function Origins(s: Reactor, steps: seq<Step>): seq<Origin>
    requires Legal(s, steps)
    decreases |steps|
  {
    if steps == [] then []
    else
      var before, step := steps[..|steps| - 1], steps[|steps| - 1];
      Origins(s, before) +
      if step.ByOther? && step.deed.PushCall? then [Begun(before, step.tid)]
      else NoCalls(|Pushes(After(s, before), step)|)
  }

  /** The functor is the one the call asks for. */
  predicate IsFor(t: Task, origin: Origin) {
    match origin
    case NoCall => !t.RawSend? && !t.RawShutdown?
    case Of(SendCall(c, data)) => t == RawSend(c, data)
    case Of(ShutdownCall(c)) => t == RawShutdown(c)
  }

  ghost predicate Matches(s: Reactor, origins: seq<Origin>) {
    && |origins| == |s.loop.pushed| && |s.loop.ran| <= |origins|
    && forall p :: 0 <= p < |origins| ==> IsFor(s.loop.pushed[p], origins[p])
  }

  ghost predicate CallsBegun(s: Reactor, steps: seq<Step>) {
    forall tid :: tid in s.callers ==> Begun(steps, tid) == Of(s.callers[tid])
  }

  /** The calls under way after a step. */
  lemma CallersAfter(s: Reactor, step: Step)
    requires WellFormed(s) && Enabled(s, step)
    ensures Next(s, step).callers ==
            if step.ByOther? && step.deed.TestSend? then s.callers[step.tid := SendCall(step.deed.conn, step.deed.data)]
            else if step.ByOther? && step.deed.TestShutdown? then s.callers[step.tid := ShutdownCall(step.deed.conn)]
            else if step.ByOther? && step.deed.PushCall? then s.callers - {step.tid}
            else s.callers
  {
    hide Alive, ExecOne, UserOne, AcceptOne, WellFormed, N.ConnName;
    match step
    case Exec(k, r) => ExecPlace(s, k, r);
    case ByUser(action) => UserPlace(s, action);
    case Accept(fd, mark, wc, hw) => AcceptPlace(s, fd, mark, wc, hw);
    case _ =>
  }

  lemma CallsGoOn(s: Reactor, steps: seq<Step>, step: Step)
    requires WellFormed(s) && Enabled(s, step) && CallsBegun(s, steps)
    ensures CallsBegun(Next(s, step), steps + [step])
  {
    hide WellFormed, Enabled, Next;
    CallersAfter(s, step);
    assert (steps + [step])[..|steps + [step]| - 1] == steps;
  }

  /** The functors run are the first ones pushed, and a step runs one only by starting it. */
  lemma RanAfter(s: Reactor, step: Step)
    requires Inv(s) && WellFormed(s) && Enabled(s, step)
    ensures !step.RunTask? ==> Next(s, step).loop.ran == s.loop.ran
    ensures step.RunTask? ==>
              && |s.loop.ran| < |s.loop.pushed| && s.loop.batch[s.loop.next] == s.loop.pushed[|s.loop.ran|]
              && Next(s, step).loop.ran == s.loop.ran + [s.loop.pushed[|s.loop.ran|]]
  {
    hide Inv, Alive, ExecOne, UserOne, AcceptOne, WellFormed, N.ConnName, OtherOne, DispatchOne;
    match step
    case Exec(k, r) => ExecKeepsRan(s, k, r);
    case ByUser(action) => UserKeepsRan(s, action);
    case Accept(fd, mark, wc, hw) => AcceptPlace(s, fd, mark, wc, hw);
    case ByOther(tid, deed) => OtherCalls(s, tid, deed);
    case Dispatch => DispatchCalls(s);
    case RunTask =>
      QueueIsRest(s);
      assert s.loop.batch[s.loop.next] == Queue(s.loop)[0];
    case _ =>
  }

  lemma MatchesGoesOn(s: Reactor, steps: seq<Step>, origins: seq<Origin>, step: Step)
    requires Inv(s) && WellFormed(s) && Enabled(s, step) && Matches(s, origins) && CallsBegun(s, steps)
    ensures Matches(Next(s, step), origins +
              if step.ByOther? && step.deed.PushCall? then [Begun(steps, step.tid)] else NoCalls(|Pushes(s, step)|))
  {
    hide Inv, WellFormed, Enabled, Next, Pushes;
    RawPushes(s, step);
    RanAfter(s, step);
  }

  /** The op that a call comes to. */
  function BareOp(call: Call): Op {
    match call
    case SendCall(c, data) => Send(c, data)
    case ShutdownCall(c) => Shutdown(c)
  }

  /** The functor that is running belongs to this call. */
  function Current(s: Reactor, origins: seq<Origin>): Origin {
    if s.inFrame && s.loop.pc.Running? && 0 < |s.loop.ran| <= |origins| then origins[|s.loop.ran| - 1] else NoCall
  }

  /** A call's functor does what was called, once; no other frame does a `sendInLoop` or `shutdownInLoop` of
      that kind. */
  ghost predicate FrameIs(s: Reactor, origin: Origin) {
    match origin
    case NoCall => forall op :: op in s.ops ==> !op.Send? && !op.Shutdown?
    case Of(call) => s.ops == [] || s.ops == [BareOp(call)]
  }

  lemma CurrentAfter(s: Reactor, step: Step, origins: seq<Origin>, more: seq<Origin>)
    requires Inv(s) && WellFormed(s) && Enabled(s, step) && Matches(s, origins) && !step.RunTask?
    ensures Next(s, step).inFrame && Next(s, step).loop.pc.Running? ==>
              s.inFrame && s.loop.pc.Running? && Current(Next(s, step), origins + more) == Current(s, origins)
    ensures !(Next(s, step).inFrame && Next(s, step).loop.pc.Running?) ==> Current(Next(s, step), origins + more) == NoCall
  {
    hide Inv, WellFormed, Enabled, Next;
    RanAfter(s, step);
    PlaceAfter(s, step);
  }

  lemma FrameStarts(s: Reactor, origins: seq<Origin>)
    requires Inv(s) && WellFormed(s) && Enabled(s, RunTask) && Matches(s, origins)
    ensures var s' := Next(s, RunTask);
            && |s.loop.ran| < |origins| && Current(s', origins) == origins[|s.loop.ran|] && FrameIs(s', Current(s', origins))
            && s'.ops != [] && (Current(s', origins).Of? ==> s'.ops == [BareOp(Current(s', origins).call)])
  {
    hide Inv, WellFormed;
    RanAfter(s, RunTask);
    InvRunTask(s);
    hide Enabled;
  }

  lemma FrameGoesOn(s: Reactor, step: Step, origins: seq<Origin>, more: seq<Origin>)
    requires Inv(s) && WellFormed(s) && Enabled(s, step) && Matches(s, origins) && FrameIs(s, Current(s, origins))
    requires !step.RunTask?
    ensures FrameIs(Next(s, step), Current(Next(s, step), origins + more))
  {
    hide Inv, WellFormed;
    CurrentAfter(s, step, origins, more);
    if Current(s, origins).Of? && Next(s, step).inFrame && Next(s, step).loop.pc.Running? {
      CallFrame(s, step, Current(s, origins).call);
    } else {
      CallsAfter(s, step);
      BareOutside(s, step, origins);
    }
    hide Enabled, Next;
  }

  /** Outside the frames of calls no such op stays. */
  lemma BareOutside(s: Reactor, step: Step, origins: seq<Origin>)
    requires Inv(s) && WellFormed(s) && Enabled(s, step) && FrameIs(s, Current(s, origins)) && !step.RunTask?
    requires !(Current(s, origins).Of? && Next(s, step).inFrame && Next(s, step).loop.pc.Running?)
    ensures forall op :: op in Next(s, step).ops ==> !op.Send? && !op.Shutdown?
  {
    hide Inv, WellFormed, Enabled, Next;
    CallsAfter(s, step);
    if Current(s, origins).Of? {
      LeavingIsDone(s, step);
    }
  }

  /** A frame of the batch is left only when it is done. */
  lemma LeavingIsDone(s: Reactor, step: Step)
    requires WellFormed(s) && Enabled(s, step) && s.inFrame && s.loop.pc.Running? && !step.RunTask?
    requires !(Next(s, step).inFrame && Next(s, step).loop.pc.Running?)
    ensures Next(s, step).ops == []
  {
    hide Alive, ExecOne, UserOne, N.ConnName, OtherOne, AcceptOne;
    match step
    case Exec(k, r) => ExecPlace(s, k, r);
    case ByUser(action) => UserPlace(s, action);
    case ByOther(tid, deed) => OtherPlace(s, tid, deed);
    case _ =>
  }

  /** Within the frame of a call: its op is executed, or the frame stays as it is. */
  lemma CallFrame(s: Reactor, step: Step, call: Call)
    requires Inv(s) && WellFormed(s) && Enabled(s, step) && s.inFrame && s.loop.pc.Running? && FrameIs(s, Of(call))
    requires Next(s, step).inFrame
    ensures Next(s, step).ops == if step.Exec? && s.ops[0].conn in Alive(s) then [] else s.ops
    ensures step.Exec? ==> s.ops == [BareOp(call)]
    ensures !step.ByUser? && !step.Accept?
  {
    hide Inv, Alive, ExecOne, UserOne, N.ConnName, OtherOne, AcceptOne;
    match step
    case Exec(k, r) => BareExec(s, k, r);
    case ByOther(tid, deed) => OtherPlace(s, tid, deed);
    case _ =>
  }

  lemma BareExec(s: Reactor, k: C.WriteResult, r: ReadResult)
    requires WellFormed(s) && Enabled(s, Exec(k, r)) && |s.ops| == 1 && (s.ops[0].Send? || s.ops[0].Shutdown?)
    ensures ExecOne(s, k, r).ops == if s.ops[0].conn in Alive(s) then [] else s.ops
  {
    hide WellFormed, Alive, ExecLive, Commit, C.Apply, C.May;
    if s.ops[0].conn in Alive(s) {
      ExecShape(s, k, r);
      CommitFacts(s.(ops := Follow(s.ops[0]) + s.ops[1..]), s.ops[0].conn,
                  C.Apply(s.code, s.conns[s.ops[0].conn], HeadOp(s, k)[0]));
    }
  }

  // ---- What a step accepts ----

  /** The payload that a step hands to `sendInLoop` of connection `c`. */
  ghost function Took(s: Reactor, step: Step, c: Id): seq<Byte>
    requires c in s.conns
  {
    if step.Exec? && s.ops != [] && s.ops[0].Send? && s.ops[0].conn == c && c in Alive(s) && s.conns[c].state != C.Disconnected
    then s.ops[0].data
    else if step.ByUser? && step.action.UserSend? && step.action.conn == c && s.conns[c].state == C.Connected
    then step.action.data
    else []
  }

  lemma ExecTakes(s: Reactor, k: C.WriteResult, r: ReadResult, c: Id)
    requires WellFormed(s) && Enabled(s, Exec(k, r)) && c in s.conns
    ensures c in ExecOne(s, k, r).conns
    ensures ExecOne(s, k, r).conns[c].accepted == s.conns[c].accepted + Took(s, Exec(k, r), c)
    ensures s.ops[0].Send? || s.ops[0].Shutdown? ==> ExecOne(s, k, r).conns[c].state == s.conns[c].state
  {
    hide WellFormed, Alive, ExecLive, Commit, C.Apply, C.May;
    var d := s.ops[0].conn;
    if d in Alive(s) {
      if HeadOp(s, k) == [] {
        ExecIdle(s, k, r);
      } else {
        ExecShape(s, k, r);
        var op := HeadOp(s, k)[0];
        CommitFacts(s.(ops := Follow(s.ops[0]) + s.ops[1..]), d, C.Apply(s.code, s.conns[d], op));
        C.StepAccepts(s.code, s.conns[d], op);
        if op.SendInLoopOp? || op.ShutdownInLoopOp? {
          BareKeepsState(s.code, s.conns[d], op);
        }
      }
    }
  }

  lemma BareKeepsState(code: C.Code, conn: C.Conn, op: C.Op)
    requires conn.Valid() && C.May(code, conn, op) && (op.SendInLoopOp? || op.ShutdownInLoopOp?)
    ensures C.Apply(code, conn, op).conn.state == conn.state
  {
    if op.SendInLoopOp? && conn.state != C.Disconnected {
      C.SendSummary(conn, op.data, op.k);
    }
  }

  lemma UserTakes(s: Reactor, action: UserAction, c: Id)
    requires WellFormed(s) && Enabled(s, ByUser(action)) && c in s.conns
    ensures c in UserOne(s, action).conns
    ensures UserOne(s, action).conns[c].accepted == s.conns[c].accepted + Took(s, ByUser(action), c)
  {
    hide WellFormed, Alive, UserOne, Commit, C.Apply, C.May;
    UserShape(s, action);
    if UserOp(action) != [] {
      var d, op := action.conn, UserOp(action)[0];
      CommitFacts(s, d, C.Apply(s.code, s.conns[d], op));
      C.StepAccepts(s.code, s.conns[d], op);
    }
  }

  lemma StepTakes(s: Reactor, step: Step, c: Id)
    requires WellFormed(s) && Enabled(s, step) && c in s.conns
    ensures c in Next(s, step).conns
    ensures Next(s, step).conns[c].accepted == s.conns[c].accepted + Took(s, step, c)
    ensures !step.ByUser? && (step.Exec? ==> s.ops[0].Send? || s.ops[0].Shutdown?) ==>
              (Next(s, step).conns[c].state == C.Disconnected <==> s.conns[c].state == C.Disconnected)
  {
    hide WellFormed, Alive, ExecOne, UserOne, AcceptOne, OtherOne;
    if step.Exec? {
      ExecTakes(s, step.k, step.r, c);
    } else if step.ByUser? {
      UserTakes(s, step.action, c);
    } else if step.Accept? {
      AcceptShape(s, step.fd, step.highWaterMark, step.hasWriteComplete, step.hasHighWater);
    } else if TouchesNone(step) {
      IdleShape(s, step);
    } else {
      OtherShape(s, step.tid, step.deed);
    }
  }

  // ---- The law ----

  /** The payload of a `send` from another thread whose functor has done its work on an open connection and
      has yet to return. */
  ghost function Finished(s: Reactor, origin: Origin, c: Id): seq<Byte> {
    if && s.ops == [] && origin.Of? && origin.call.SendCall? && origin.call.conn == c
       && c in s.conns && s.conns[c].state != C.Disconnected
    then origin.call.data
    else []
  }

  /** What a step adds to the payloads sent to `c`: a user's `send` that finds the connection connected, or the
      return of the functor of another thread's `send` on a connection that is not closed. */
  ghost function Credited(s: Reactor, step: Step, origin: Origin, c: Id): seq<Byte> {
    if step.ByUser? && step.action.UserSend? && step.action.conn == c && c in s.conns && s.conns[c].state == C.Connected
    then step.action.data
    else if step.Return? then Finished(s, origin, c)
    else []
  }

  /** The payloads sent to `c` in the course of a run, in the order in which they were carried out. */
  ghost function SentTo(s: Reactor, steps: seq<Step>, c: Id): seq<Byte>
    requires Legal(s, steps)
    decreases |steps|
  {
    if steps == [] then []
    else
      var before := steps[..|steps| - 1];
      var b := After(s, before);
      SentTo(s, before, c) + Credited(b, steps[|steps| - 1], Current(b, Origins(s, before)), c)
  }

  /** What a step takes it is credited with, at once or when the functor returns. */
  lemma StepPays(s: Reactor, step: Step, origins: seq<Origin>, more: seq<Origin>, c: Id)
    requires Inv(s) && WellFormed(s) && Enabled(s, step) && Matches(s, origins) && FrameIs(s, Current(s, origins))
    requires c in s.conns
    ensures c in Next(s, step).conns
    ensures Credited(s, step, Current(s, origins), c) + Finished(Next(s, step), Current(Next(s, step), origins + more), c)
            == Finished(s, Current(s, origins), c) + Took(s, step, c)
  {
    hide Inv, WellFormed, Next, Enabled, Current, Matches, Alive, FrameIs, Credited, Finished, Took;
    StepTakes(s, step, c);
    if step.RunTask? {
      StartPays(s, origins, more, c);
    } else {
      CurrentAfter(s, step, origins, more);
      CurrentIsInFrame(s, origins);
      if Current(s, origins).NoCall? {
        NoCallPays(s, step, c);
        CurrentStaysNoCall(s, step, origins, more);
      } else if Next(s, step).inFrame && Next(s, step).loop.pc.Running? {
        FramePays(s, step, Current(s, origins).call, c);
      } else {
        LeavePays(s, step, Current(s, origins).call, c);
      }
    }
  }

  lemma CurrentStaysNoCall(s: Reactor, step: Step, origins: seq<Origin>, more: seq<Origin>)
    requires Inv(s) && WellFormed(s) && Enabled(s, step) && Matches(s, origins) && !step.RunTask?
    requires Current(s, origins) == NoCall
    ensures Current(Next(s, step), origins + more) == NoCall
  {
    hide Inv, WellFormed, Next, Enabled, Current, Matches;
    CurrentAfter(s, step, origins, more);
  }

  /** Outside the frames of calls. */
  lemma NoCallPays(s: Reactor, step: Step, c: Id)
    requires WellFormed(s) && Enabled(s, step) && FrameIs(s, NoCall) && !step.RunTask? && c in s.conns
    requires c in Next(s, step).conns
    ensures Credited(s, step, NoCall, c) + Finished(Next(s, step), NoCall, c) == Finished(s, NoCall, c) + Took(s, step, c)
  {
    hide Alive, Next, WellFormed;
    if step.Exec? {
      assert s.ops[0] in s.ops;
    }
    hide Enabled;
  }

  /** Within the frame of a call. */
  lemma FramePays(s: Reactor, step: Step, call: Call, c: Id)
    requires Inv(s) && WellFormed(s) && Enabled(s, step) && s.inFrame && s.loop.pc.Running? && FrameIs(s, Of(call))
    requires Next(s, step).inFrame && !step.RunTask? && c in s.conns && c in Next(s, step).conns
    ensures Credited(s, step, Of(call), c) + Finished(Next(s, step), Of(call), c)
            == Finished(s, Of(call), c) + Took(s, step, c)
  {
    hide Inv, WellFormed, Next, Alive;
    CallFrame(s, step, call);
    StepTakes(s, step, c);
    assert !step.Return? by { ReturnLeaves(s, step); }
    hide Enabled;
  }

  lemma ReturnLeaves(s: Reactor, step: Step)
    requires WellFormed(s) && Enabled(s, step) && Next(s, step).inFrame
    ensures !step.Return?
  {
  }

  /** The return from the frame of a call. */
  lemma LeavePays(s: Reactor, step: Step, call: Call, c: Id)
    requires WellFormed(s) && Enabled(s, step) && s.inFrame && s.loop.pc.Running? && FrameIs(s, Of(call))
    requires !(Next(s, step).inFrame && Next(s, step).loop.pc.Running?) && !step.RunTask? && c in s.conns
    ensures Credited(s, step, Of(call), c) + Finished(Next(s, step), NoCall, c) == Finished(s, Of(call), c) + Took(s, step, c)
  {
    hide WellFormed, Next, Alive, Enabled, FrameIs;
    LeftByReturn(s, step, Of(call));
  }

  /** The start of a functor's frame. */
  lemma StartPays(s: Reactor, origins: seq<Origin>, more: seq<Origin>, c: Id)
    requires Inv(s) && WellFormed(s) && Enabled(s, RunTask) && Matches(s, origins) && c in s.conns
    ensures var s' := Next(s, RunTask);
            Credited(s, RunTask, Current(s, origins), c) + Finished(s', Current(s', origins + more), c)
            == Finished(s, Current(s, origins), c) + Took(s, RunTask, c)
  {
    hide Inv, WellFormed, Next, Alive, Enabled, Current, Matches;
    RunTaskPays(s, origins, more);
  }

  lemma CurrentIsInFrame(s: Reactor, origins: seq<Origin>)
    ensures Current(s, origins).Of? ==> s.inFrame && s.loop.pc.Running?
  {
  }

  lemma RunTaskPays(s: Reactor, origins: seq<Origin>, more: seq<Origin>)
    requires Inv(s) && WellFormed(s) && Enabled(s, RunTask) && Matches(s, origins)
    ensures !s.inFrame && s.ops == [] && Next(s, RunTask).ops != [] && Current(s, origins) == NoCall
  {
    hide Inv, Alive;
    FrameStarts(s, origins);
  }

  /** The frame of a call is left by its return only. */
  lemma LeftByReturn(s: Reactor, step: Step, origin: Origin)
    requires WellFormed(s) && Enabled(s, step) && s.inFrame && s.loop.pc.Running? && !step.RunTask?
    requires origin.Of? && FrameIs(s, origin)
    requires !(Next(s, step).inFrame && Next(s, step).loop.pc.Running?)
    ensures step.Return?
  {
    hide Alive, ExecOne, UserOne, N.ConnName, OtherOne, AcceptOne;
    match step
    case Exec(k, r) => ExecPlace(s, k, r);
    case ByUser(action) => UserPlace(s, action);
    case ByOther(tid, deed) => OtherPlace(s, tid, deed);
    case _ =>
  }

  // ---- Over runs ----

  /** A connection is new: it has accepted nothing, and its first frame has its callback to run. */
  lemma NewHasNothing(s: Reactor, step: Step, c: Id)
    requires WellFormed(s) && Enabled(s, step) && c !in s.conns && c in Next(s, step).conns
    ensures Next(s, step).conns[c].accepted == [] && Next(s, step).ops != []
    ensures step.Accept?
  {
    hide WellFormed, Alive, AcceptOne, Next;
    KeysAfter(s, step);
    NewShape(s, step);
  }

  lemma NewShape(s: Reactor, step: Step)
    requires WellFormed(s) && Enabled(s, step) && step.Accept?
    ensures var s' := Next(s, step);
            && s'.conns.Keys == s.conns.Keys + {s.nextConnId} && s.nextConnId !in s.conns
            && s'.conns[s.nextConnId].accepted == [] && s'.ops == [UserCode]
  {
    hide WellFormed, Alive, AcceptOne;
    AcceptShape(s, step.fd, step.highWaterMark, step.hasWriteComplete, step.hasHighWater);
    AcceptPlace(s, step.fd, step.highWaterMark, step.hasWriteComplete, step.hasHighWater);
  }

  /** The bookkeeping of a run: the calls under way and the functors pushed are those that the threads' own
      steps show, and the frame that is open is that of its functor. */
  ghost predicate Tracked(s: Reactor, steps: seq<Step>)
    requires Legal(s, steps)
  {
    var now, origins := After(s, steps), Origins(s, steps);
    CallsBegun(now, steps) && Matches(now, origins) && FrameIs(now, Current(now, origins))
  }

  /** What connection `c` has accepted is what was sent to it, with the payload of a functor that is about to
      return. */
  ghost predicate Paid(s: Reactor, steps: seq<Step>, c: Id)
    requires Legal(s, steps)
  {
    var now, origins := After(s, steps), Origins(s, steps);
    if c in now.conns then now.conns[c].accepted == SentTo(s, steps, c) + Finished(now, Current(now, origins), c)
    else SentTo(s, steps, c) == []
  }

  lemma TrackingGoesOn(s: Reactor, steps: seq<Step>)
    requires Legal(s, steps) && steps != [] && Tracked(s, steps[..|steps| - 1])
    requires Inv(After(s, steps[..|steps| - 1]))
    ensures Tracked(s, steps)
  {
    hide Inv, WellFormed, Enabled, Next, Matches, CallsBegun, FrameIs, Current, Pushes;
    var before, step := steps[..|steps| - 1], steps[|steps| - 1];
    var b, origins := After(s, before), Origins(s, before);
    var more := if step.ByOther? && step.deed.PushCall? then [Begun(before, step.tid)] else NoCalls(|Pushes(b, step)|);
    assert before + [step] == steps;
    CallsGoOn(b, before, step);
    MatchesGoesOn(b, before, origins, step);
    if step.RunTask? {
      FrameStarts(b, origins);
      StartedCurrent(b, origins, more);
    } else {
      FrameGoesOn(b, step, origins, more);
    }
  }

  lemma StartedCurrent(s: Reactor, origins: seq<Origin>, more: seq<Origin>)
    requires Inv(s) && WellFormed(s) && Enabled(s, RunTask) && Matches(s, origins)
    ensures Current(Next(s, RunTask), origins + more) == Current(Next(s, RunTask), origins)
  {
    hide Inv, WellFormed, Enabled, Next;
    RanAfter(s, RunTask);
  }

  lemma PayingGoesOn(s: Reactor, steps: seq<Step>, c: Id)
    requires Legal(s, steps) && steps != [] && Tracked(s, steps[..|steps| - 1]) && Paid(s, steps[..|steps| - 1], c)
    requires Inv(After(s, steps[..|steps| - 1]))
    ensures Paid(s, steps, c)
  {
    hide Inv, WellFormed, Enabled, Next, Matches, CallsBegun, FrameIs, Current, Pushes, Took, Credited, Finished;
    var before, step := steps[..|steps| - 1], steps[|steps| - 1];
    var b, origins := After(s, before), Origins(s, before);
    var more := if step.ByOther? && step.deed.PushCall? then [Begun(before, step.tid)] else NoCalls(|Pushes(b, step)|);
    KeysAfter(b, step);
    NothingYet(b, step, Current(b, origins), c);
    NothingYet(Next(b, step), step, Current(Next(b, step), origins + more), c);
    if c in b.conns {
      StepTakes(b, step, c);
      StepPays(b, step, origins, more, c);
      var sent, paid := SentTo(s, before, c), Credited(b, step, Current(b, origins), c);
      var left := Finished(b, Current(b, origins), c);
      var left' := Finished(Next(b, step), Current(Next(b, step), origins + more), c);
      assert (sent + left) + Took(b, step, c) == (sent + paid) + left' by {
        Regroup(sent, left, Took(b, step, c), paid, left');
      }
    } else if c in Next(b, step).conns {
      NewHasNothing(b, step, c);
    }
  }

  lemma NothingYet(s: Reactor, step: Step, origin: Origin, c: Id)
    ensures c !in s.conns ==> Credited(s, step, origin, c) == []
    ensures s.ops != [] ==> Finished(s, origin, c) == []
  {
  }

  lemma Regroup(sent: seq<Byte>, left: seq<Byte>, took: seq<Byte>, paid: seq<Byte>, left': seq<Byte>)
    requires paid + left' == left + took
    ensures (sent + left) + took == (sent + paid) + left'
  {
    assert (sent + left) + took == sent + (left + took);
    assert (sent + paid) + left' == sent + (paid + left');
  }

  lemma {:induction false} RunsPay(code: C.Code, server: string, ipPort: string, steps: seq<Step>, c: Id)
    requires C.Sound(code) && |ipPort| <= N.LONGEST && Legal(Start(code, server, ipPort), steps)
    ensures Tracked(Start(code, server, ipPort), steps) && Paid(Start(code, server, ipPort), steps, c)
    decreases |steps|
  {
    hide Inv, Next, Enabled, WellFormed, Tracked, Paid;
    var start := Start(code, server, ipPort);
    StartIsFine(code, server, ipPort);
    if steps == [] {
      StartsTracked(code, server, ipPort, c);
    } else {
      var before := steps[..|steps| - 1];
      RunsPay(code, server, ipPort, before, c);
      RunsKeepInv(start, before);
      TrackingGoesOn(start, steps);
      PayingGoesOn(start, steps, c);
    }
  }

  lemma StartsTracked(code: C.Code, server: string, ipPort: string, c: Id)
    ensures Tracked(Start(code, server, ipPort), []) && Paid(Start(code, server, ipPort), [], c)
  {
  }

  /** Nothing sent is lost, doubled or changed.  In every run of the server, what a connection has accepted is
      the concatenation, in the order in which they were carried out, of the payloads given to users' `send`
      calls that found it connected and to other threads' `send` calls whose functors ran before the close. */
  lemma AcceptedIsWhatWasSent(code: C.Code, server: string, ipPort: string, steps: seq<Step>, c: Id)
    requires C.Sound(code) && |ipPort| <= N.LONGEST && Legal(Start(code, server, ipPort), steps)
    requires c in After(Start(code, server, ipPort), steps).conns
    ensures var start := Start(code, server, ipPort); var s := After(start, steps);
            s.conns[c].accepted == SentTo(start, steps, c) + Finished(s, Current(s, Origins(start, steps)), c)
  {
    hide Legal, After, Origins, SentTo, Finished, Current, Tracked;
    RunsPay(code, server, ipPort, steps, c);
  }

  /** A `shutdown` or `send` of another thread is carried out as it was called: the functor of the call opens a
      frame with the one piece of work that the call asks for.  On a connection that is alive, the piece is one
      `shutdownInLoop`, or one `sendInLoop` that accepts exactly the payload unless the connection is closed,
      and then the frame is done. */
  lemma CallsAreCarriedOut(code: C.Code, server: string, ipPort: string, steps: seq<Step>, k: C.WriteResult, r: ReadResult)
    requires C.Sound(code) && |ipPort| <= N.LONGEST && Legal(Start(code, server, ipPort), steps)
    requires var s := After(Start(code, server, ipPort), steps); WellFormed(s) && Enabled(s, RunTask)
    ensures var start := Start(code, server, ipPort); var s := After(start, steps); var origins := Origins(start, steps);
            && |s.loop.ran| < |origins| == |s.loop.pushed|
            && var origin := origins[|s.loop.ran|]; var s' := Next(s, RunTask);
               && (origin.Of? ==> s'.ops == [BareOp(origin.call)] && s'.conns == s.conns)
               && (origin.Of? && origin.call.conn in Alive(s') && WellFormed(s') && Enabled(s', Exec(k, r)) ==>
                     CarriedOut(s', origin.call, Next(s', Exec(k, r))))
  {
    hide Inv, WellFormed, Enabled, Next, Alive, CarriedOut, Matches, Legal, After, Origins, Current;
    var start := Start(code, server, ipPort);
    var s, origins := After(start, steps), Origins(start, steps);
    RunsPay(code, server, ipPort, steps, 0);
    StartIsFine(code, server, ipPort);
    RunsKeepInv(start, steps);
    FrameStarts(s, origins);
    MatchesMeans(s, origins);
    var s', origin := Next(s, RunTask), origins[|s.loop.ran|];
    if origin.Of? {
      RunTaskKeepsConns(s);
      if origin.call.conn in Alive(s') && WellFormed(s') && Enabled(s', Exec(k, r)) {
        BareIsCarriedOut(s', origin.call, k, r);
      }
    }
  }

  lemma MatchesMeans(s: Reactor, origins: seq<Origin>)
    requires Matches(s, origins)
    ensures |origins| == |s.loop.pushed|
  {
  }

  lemma RunTaskKeepsConns(s: Reactor)
    requires WellFormed(s) && Enabled(s, RunTask)
    ensures Next(s, RunTask).conns == s.conns
  {
  }

  /** What carrying out a call does: all of it and nothing more. */
  ghost predicate CarriedOut(s: Reactor, call: Call, s': Reactor) {
    var c := call.conn;
    && c in s.conns && s'.ops == [] && s'.conns.Keys == s.conns.Keys && !s'.dangled
    && (forall d :: d in s.conns && d != c ==> s'.conns[d] == s.conns[d])
    && s'.conns[c].state == s.conns[c].state
    && (match call
        case SendCall(_, data) =>
          && s'.conns[c].halfCloses == s.conns[c].halfCloses
          && s'.conns[c].accepted == s.conns[c].accepted + if s.conns[c].state == C.Disconnected then [] else data
        case ShutdownCall(_) =>
          s'.conns[c] ==
          if P.IsWriting(s.conns[c].events) then s.conns[c]
          else s.conns[c].(halfCloses := s.conns[c].halfCloses + 1, broken := true))
  }

  lemma BareIsCarriedOut(s: Reactor, call: Call, k: C.WriteResult, r: ReadResult)
    requires WellFormed(s) && Enabled(s, Exec(k, r)) && s.ops == [BareOp(call)] && call.conn in Alive(s)
    ensures CarriedOut(s, call, Next(s, Exec(k, r)))
  {
    hide WellFormed, Alive, ExecLive, Commit, C.Apply, C.May;
    ExecShape(s, k, r);
    var op := HeadOp(s, k)[0];
    var conn := s.conns[call.conn];
    CommitFacts(s.(ops := Follow(s.ops[0]) + s.ops[1..]), call.conn, C.Apply(s.code, conn, op));
    C.StepAccepts(s.code, conn, op);
    BareKeepsState(s.code, conn, op);
    BareHalfCloses(s.code, conn, op);
    EnabledIsDefined(s, Exec(k, r));
    hide Enabled;
  }

  lemma EnabledIsDefined(s: Reactor, step: Step)
    requires WellFormed(s) && Enabled(s, step)
    ensures !s.dangled
  {
  }

  lemma BareHalfCloses(code: C.Code, conn: C.Conn, op: C.Op)
    requires conn.Valid() && C.May(code, conn, op) && (op.SendInLoopOp? || op.ShutdownInLoopOp?)
    ensures var conn' := C.Apply(code, conn, op).conn;
            if op.SendInLoopOp? then conn'.halfCloses == conn.halfCloses
            else conn' == if P.IsWriting(conn.events) then conn else conn.(halfCloses := conn.halfCloses + 1, broken := true)
  {
    if op.SendInLoopOp? && conn.state != C.Disconnected {
      C.SendSummary(conn, op.data, op.k);
    }
  }
}
