/** How often one dispatch of a channel runs `handleClose`: the error callback is bound to it as well, and a
    read that meets the end of the stream calls it too. */
module Dispatches {
  import opened Reactors
  import opened Ownership
  import opened ReactorInvariants
  import opened ReactorSteps
  import opened Runs
  import opened StepShapes
  import opened BareFunctors
  import P = EpollPollers
  import L = EventLoops
  import C = Connections
  import N = Names

  /** The callbacks that may run `handleClose`: all but the write callback. */
  function Closings(callbacks: seq<P.Callback>): nat {
    if callbacks == [] then 0 else (if callbacks[0].WriteCallback? then 0 else 1) + Closings(callbacks[1..])
  }

  lemma {:induction false} ClosingsOfSum(a: seq<P.Callback>, b: seq<P.Callback>)
    ensures Closings(a + b) == Closings(a) + Closings(b)
  {
    if a == [] {
      assert a + b == b;
    } else {
      assert (a + b)[1..] == a[1..] + b;
      ClosingsOfSum(a[1..], b);
    }
  }

  lemma ClosingsOfChosen(close: bool, error: bool, read: bool, write: bool)
    ensures Closings(P.Chosen(close, error, read, write))
            == (if close then 1 else 0) + (if error then 1 else 0) + (if read then 1 else 0)
  {
    var cs := if close then [P.CloseCallback] else [];
    var es := if error then [P.ErrorCallback] else [];
    var rs := if read then [P.ReadCallback] else [];
    var ws := if write then [P.WriteCallback] else [];
    ClosingsOfSum(cs + es + rs, ws);
    ClosingsOfSum(cs + es, rs);
    ClosingsOfSum(cs, es);
  }

  /** What is left of the frames that may still run `handleClose`. */
  function Potential(ops: seq<Op>): nat {
    if ops == [] then 0 else (if ops[0].Close? || ops[0].Read? then 1 else 0) + Potential(ops[1..])
  }

  lemma {:induction false} PotentialOfDispatch(c: Id, callbacks: seq<P.Callback>)
    ensures Potential(DispatchOps(c, callbacks)) == Closings(callbacks)
  {
    if callbacks != [] {
      PotentialOfDispatch(c, callbacks[1..]);
      assert DispatchOps(c, callbacks)[1..] == DispatchOps(c, callbacks[1..]);
    }
  }

  lemma PotentialOf(op: Op, tail: seq<Op>)
    ensures Potential([op] + tail) == (if op.Close? || op.Read? then 1 else 0) + Potential(tail)
  {
    assert ([op] + tail)[1..] == tail;
  }

  /** The step executes a `handleClose`. */
  ghost predicate Closes(s: Reactor, step: Step) {
    step.Exec? && s.ops != [] && s.ops[0].Close? && s.ops[0].conn in Alive(s)
  }

  /** The `handleClose` calls that a run executes. */
  ghost function CloseCount(s: Reactor, steps: seq<Step>): nat
    requires Legal(s, steps)
    decreases |steps|
  {
    if steps == [] then 0
    else
      var before := steps[..|steps| - 1];
      CloseCount(s, before) + if Closes(After(s, before), steps[|steps| - 1]) then 1 else 0
  }

  // ---- No more than the mask allows ----

  lemma ExecSpends(s: Reactor, k: C.WriteResult, r: ReadResult)
    requires WellFormed(s) && Enabled(s, Exec(k, r))
    ensures var s' := ExecOne(s, k, r);
            Potential(s'.ops) + (if Closes(s, Exec(k, r)) then 1 else 0) <= Potential(s.ops)
  {
    hide WellFormed, Alive, ExecLive, Commit, C.Apply, C.May;
    var tail := s.ops[1..];
    if s.ops[0].conn in Alive(s) {
      assert s.ops == [s.ops[0]] + tail;
      PotentialOf(s.ops[0], tail);
      if HeadOp(s, k) == [] {
        IdleSpends(s, k, r);
      } else {
        ExecShape(s, k, r);
        CommitFacts(s.(ops := Follow(s.ops[0]) + tail), s.ops[0].conn,
                    C.Apply(s.code, s.conns[s.ops[0].conn], HeadOp(s, k)[0]));
        FollowIsSpent(s.ops[0], tail);
      }
    }
  }

  lemma PotentialOfTwo(a: Op, b: Op, tail: seq<Op>)
    requires !a.Close? && !a.Read? && !b.Close? && !b.Read?
    ensures Potential([a, b] + tail) == Potential(tail)
  {
    PotentialOf(b, tail);
    PotentialOf(a, [b] + tail);
    assert [a, b] + tail == [a] + ([b] + tail);
    hide Potential;
  }

  lemma FollowIsSpent(op: Op, tail: seq<Op>)
    ensures Potential(Follow(op) + tail) == Potential(tail)
  {
    hide Potential;
    if op.Close? {
      PotentialOfTwo(UserCode, Erase(op.conn), tail);
    } else if op.Destroy? {
      PotentialOfTwo(UserCode, Remove(op.conn), tail);
    } else {
      assert [] + tail == tail;
    }
  }

  lemma IdleSpends(s: Reactor, k: C.WriteResult, r: ReadResult)
    requires WellFormed(s) && Enabled(s, Exec(k, r)) && HeadOp(s, k) == []
    ensures !s.ops[0].Close? && Potential(ExecLive(s, k, r).ops) <= Potential([s.ops[0]] + s.ops[1..])
  {
    hide WellFormed, L.Queued, N.ConnName;
    var c, tail := s.ops[0].conn, s.ops[1..];
    PotentialOf(s.ops[0], tail);
    PotentialOf(UserCode, tail);
    PotentialOf(Close(c), tail);
    PotentialOf(Remove(c), tail);
  }

  lemma StepSpends(s: Reactor, step: Step)
    requires WellFormed(s) && Enabled(s, step) && s.inFrame && step != Return
    ensures Next(s, step).inFrame
    ensures Potential(Next(s, step).ops) + (if Closes(s, step) then 1 else 0) <= Potential(s.ops)
  {
    hide Alive, ExecOne, UserOne, OtherOne, Potential, N.ConnName;
    match step
    case Exec(k, r) => ExecPlace(s, k, r); ExecSpends(s, k, r);
    case ByUser(action) =>
      UserPlace(s, action);
      PotentialOf(s.ops[0], s.ops[1..]);
      assert s.ops == [s.ops[0]] + s.ops[1..];
    case ByOther(tid, deed) => OtherPlace(s, tid, deed);
    case Acquire(_) =>
    case Release(_) =>
    case _ => assert false;
  }

  /** Within a frame no more `handleClose` calls are executed than its ops allow. */
  lemma {:induction false} FrameSpends(s: Reactor, steps: seq<Step>)
    requires s.inFrame && Legal(s, steps) && Return !in steps
    ensures After(s, steps).inFrame && CloseCount(s, steps) + Potential(After(s, steps).ops) <= Potential(s.ops)
    decreases |steps|
  {
    hide Next, Enabled, WellFormed, Potential, Closes;
    if steps != [] {
      assert steps[|steps| - 1] in steps;
      FrameSpends(s, steps[..|steps| - 1]);
      StepSpends(After(s, steps[..|steps| - 1]), steps[|steps| - 1]);
    }
  }

  // ---- And as many as that ----

  lemma {:induction false} Prepend(s: Reactor, step: Step, rest: seq<Step>)
    requires WellFormed(s) && Enabled(s, step) && Legal(Next(s, step), rest)
    ensures Legal(s, [step] + rest) && After(s, [step] + rest) == After(Next(s, step), rest)
    ensures CloseCount(s, [step] + rest) == (if Closes(s, step) then 1 else 0) + CloseCount(Next(s, step), rest)
    decreases |rest|
  {
    hide Next, Enabled, WellFormed, Closes;
    var steps := [step] + rest;
    if rest == [] {
      assert steps[..0] == [];
      assert Legal(s, []) && After(s, []) == s;
    } else {
      Prepend(s, step, rest[..|rest| - 1]);
      assert steps[..|steps| - 1] == [step] + rest[..|rest| - 1];
    }
  }

  /** How many steps an op of a dispatch takes at most. */
  function Work(op: Op): nat {
    if op.Read? then 4 else if op.Close? then 3 else 1
  }

  function WorkOf(ops: seq<Op>): nat {
    if ops == [] then 0 else Work(ops[0]) + WorkOf(ops[1..])
  }

  lemma WorkOfPrepended(op: Op, tail: seq<Op>)
    ensures WorkOf([op] + tail) == Work(op) + WorkOf(tail)
  {
    assert ([op] + tail)[1..] == tail;
  }

  /** A channel's callbacks are being run. */
  ghost predicate InDispatch(s: Reactor) {
    s.inFrame && s.loop.pc.Dispatching? && !s.dangled && forall op :: op in s.ops ==> DispatchOp(op)
  }

  /** The next step of the run in which every write fails and every read meets the end of the stream. */
  function Worst(ops: seq<Op>): Step
    requires ops != []
  {
    if ops[0].UserCode? then ByUser(UserReturn) else Exec(C.Failed(C.Pipe), EndOfFile)
  }

  lemma WorstStep(s: Reactor)
    requires Inv(s) && WellFormed(s) && InDispatch(s) && s.ops != []
    ensures Enabled(s, Worst(s.ops)) && InDispatch(Next(s, Worst(s.ops)))
    ensures var s' := Next(s, Worst(s.ops));
            && WorkOf(s'.ops) < WorkOf(s.ops)
            && Potential(s'.ops) + (if Closes(s, Worst(s.ops)) then 1 else 0) == Potential(s.ops)
  {
    hide Inv, WellFormed, Alive, ExecOne, UserOne, Potential;
    var op, tail := s.ops[0], s.ops[1..];
    assert s.ops == [op] + tail;
    PotentialOf(op, tail);
    WorkOfPrepended(op, tail);
    if op.UserCode? {
      UserPlace(s, UserReturn);
      OtherStepsAreDefined(s, ByUser(UserReturn));
    } else {
      var k := C.Failed(C.Pipe);
      OthersAreHeld(s);
      assert op in s.ops;
      OwnedIsAlive(s, op.conn);
      ExecPlace(s, k, EndOfFile);
      ExecDangles(s, k, EndOfFile);
      WorstOps(s, op, tail);
    }
  }

  lemma OwnedIsAlive(s: Reactor, c: Id)
    requires c in Owned(s)
    ensures c in Alive(s)
  {
    hide Owned;
  }

  lemma WorstOps(s: Reactor, op: Op, tail: seq<Op>)
    requires WellFormed(s) && s.ops == [op] + tail && DispatchOp(op) && !op.UserCode? && op.conn in Alive(s)
    requires Enabled(s, Exec(C.Failed(C.Pipe), EndOfFile))
    ensures var ops := ExecOne(s, C.Failed(C.Pipe), EndOfFile).ops;
            && (forall o :: o in ops ==> o in tail || DispatchOp(o))
            && WorkOf(ops) < Work(op) + WorkOf(tail)
            && Potential(ops) + (if op.Close? then 1 else 0) == (if op.Close? || op.Read? then 1 else 0) + Potential(tail)
  {
    hide WellFormed, Alive, ExecLive, Commit, C.Apply, C.May;
    var k := C.Failed(C.Pipe);
    assert s.ops[1..] == tail;
    if op.Read? {
      ReadAtEnd(s, k);
      PotentialOf(Close(op.conn), tail);
      WorkOfPrepended(Close(op.conn), tail);
    } else if op.Erase? {
      EraseOps(s, k, EndOfFile);
    } else {
      ExecShape(s, k, EndOfFile);
      CommitFacts(s.(ops := Follow(op) + tail), op.conn, C.Apply(s.code, s.conns[op.conn], HeadOp(s, k)[0]));
      FollowIsSpent(op, tail);
      FollowWorks(op, tail);
    }
  }

  lemma FollowWorks(op: Op, tail: seq<Op>)
    requires op.Close? || op.Write?
    ensures WorkOf(Follow(op) + tail) < Work(op) + WorkOf(tail)
  {
    if op.Close? {
      WorkOfPrepended(Erase(op.conn), tail);
      WorkOfPrepended(UserCode, [Erase(op.conn)] + tail);
      assert [UserCode, Erase(op.conn)] + tail == [UserCode] + ([Erase(op.conn)] + tail);
    } else {
      assert [] + tail == tail;
    }
  }

  lemma ReadAtEnd(s: Reactor, k: C.WriteResult)
    requires WellFormed(s) && Enabled(s, Exec(k, EndOfFile)) && s.ops[0].Read?
    ensures ExecLive(s, k, EndOfFile).ops == [Close(s.ops[0].conn)] + s.ops[1..]
  {
    hide WellFormed;
  }

  lemma EraseOps(s: Reactor, k: C.WriteResult, r: ReadResult)
    requires WellFormed(s) && Enabled(s, Exec(k, r)) && s.ops[0].Erase?
    ensures ExecLive(s, k, r).ops == s.ops[1..]
  {
    hide L.Queued, N.ConnName;
  }

  /** The run that closes as often as it can. */
  lemma WorstRun(s: Reactor) returns (steps: seq<Step>)
    requires Inv(s) && InDispatch(s)
    ensures Legal(s, steps) && Return !in steps && CloseCount(s, steps) == Potential(s.ops)
    decreases WorkOf(s.ops)
  {
    hide Inv, WellFormed, Enabled, Next, Closes, InDispatch, WorkOf;
    steps := [];
    if s.ops != [] {
      InvIsWellFormed(s);
      WorstStep(s);
      StepKeepsInv(s, Worst(s.ops));
      var rest := WorstRun(Next(s, Worst(s.ops)));
      Prepend(s, Worst(s.ops), rest);
      steps := [Worst(s.ops)] + rest;
    }
  }

  // ---- The dispatch of a mask ----

  lemma DispatchOpens(s: Reactor)
    requires Inv(s) && WellFormed(s) && Enabled(s, Dispatch)
    ensures var s' := Next(s, Dispatch); var r := s.active[0];
            InDispatch(s') && s'.ops == DispatchOps(r.conn, P.Callbacks(r.revents))
  {
    hide Inv, WellFormed, Owned;
    ActiveIsAlive(s, s.active[0]);
    DispatchOpsFacts(s.active[0].conn, P.Callbacks(s.active[0].revents));
  }

  /** A dispatch of a mask executes at most `Closings` `handleClose` calls, whatever the socket delivers, the
      users do and the other threads do until it returns; and some run executes that many. */
  lemma ADispatchClosesUpTo(s: Reactor)
    requires Inv(s) && WellFormed(s) && Enabled(s, Dispatch)
    ensures var s' := Next(s, Dispatch); var most := Closings(P.Callbacks(s.active[0].revents));
            && (forall steps :: Legal(s', steps) && Return !in steps ==> CloseCount(s', steps) <= most)
            && exists steps :: Legal(s', steps) && Return !in steps && CloseCount(s', steps) == most
  {
    hide Inv, WellFormed, Next, Closings;
    var s' := Next(s, Dispatch);
    DispatchOpens(s);
    StepKeepsInv(s, Dispatch);
    PotentialOfDispatch(s.active[0].conn, P.Callbacks(s.active[0].revents));
    forall steps | Legal(s', steps) && Return !in steps
      ensures CloseCount(s', steps) <= Closings(P.Callbacks(s.active[0].revents))
    {
      FrameSpends(s', steps);
    }
    var worst := WorstRun(s');
  }

  /** One down callback a dispatch, exactly: every run of the dispatch executes `handleClose` at most once if
      and only if the mask does not join an error to a hang-up or to input. */
  lemma ADispatchClosesOnceExactlyWhen(s: Reactor)
    requires Inv(s) && WellFormed(s) && Enabled(s, Dispatch)
    ensures var s' := Next(s, Dispatch); var m := s.active[0].revents;
            (forall steps :: Legal(s', steps) && Return !in steps ==> CloseCount(s', steps) <= 1) <==>
            !(m & P.EPOLLERR != 0 && (m & P.EPOLLHUP != 0 || m & P.EPOLLIN != 0))
  {
    hide Inv, WellFormed, Next, Closings, P.Chosen;
    ADispatchClosesUpTo(s);
    var m := s.active[0].revents;
    ClosingsOfChosen(m & P.EPOLLHUP != 0 && m & P.EPOLLIN == 0, m & P.EPOLLERR != 0, m & 1 != 0, m & P.EPOLLOUT != 0);
  }

  // ---- The whole account of a dispatch ----

  datatype Kind = Closing | Reading | Writing | Erasing | Telling

  predicate OfKind(op: Op, kind: Kind) {
    match kind
    case Closing => op.Close?
    case Reading => op.Read?
    case Writing => op.Write?
    case Erasing => op.Erase?
    case Telling => op.UserCode?
  }

  function Count(ops: seq<Op>, kind: Kind): nat {
    if ops == [] then 0 else (if OfKind(ops[0], kind) then 1 else 0) + Count(ops[1..], kind)
  }

  lemma {:induction false} CountOfSum(a: seq<Op>, b: seq<Op>, kind: Kind)
    ensures Count(a + b, kind) == Count(a, kind) + Count(b, kind)
  {
    if a == [] {
      assert a + b == b;
    } else {
      assert (a + b)[1..] == a[1..] + b;
      CountOfSum(a[1..], b, kind);
    }
  }

  /** The step completes an op of this kind: library code is executed, or a callback of the user's returns. */
  ghost predicate Completes(s: Reactor, step: Step, kind: Kind) {
    && s.ops != [] && OfKind(s.ops[0], kind)
    && (if kind.Telling? then step == ByUser(UserReturn) else step.Exec?)
  }

  ghost function Completed(s: Reactor, steps: seq<Step>, kind: Kind): nat
    requires Legal(s, steps)
    decreases |steps|
  {
    if steps == [] then 0
    else
      var before := steps[..|steps| - 1];
      Completed(s, before, kind) + if Completes(After(s, before), steps[|steps| - 1], kind) then 1 else 0
  }

  /** The step is a `handleRead` that meets this result. */
  ghost predicate Meets(s: Reactor, step: Step, r: ReadResult) {
    s.ops != [] && s.ops[0].Read? && step.Exec? && step.r == r
  }

  /** The `handleRead` calls that met this result. */
  ghost function Met(s: Reactor, steps: seq<Step>, r: ReadResult): nat
    requires Legal(s, steps)
    decreases |steps|
  {
    if steps == [] then 0
    else
      var before := steps[..|steps| - 1];
      Met(s, before, r) + if Meets(After(s, before), steps[|steps| - 1], r) then 1 else 0
  }

  /** What comes in the place of an op of a dispatch: `handleClose` tells the user, then the server; a read
      tells the user of bytes, closes at the end of the stream, and only logs an error. */
  function InPlaceOf(op: Op, r: ReadResult): seq<Op> {
    match op
    case Close(c) => [UserCode, Erase(c)]
    case Read(c) => (match r case Bytes => [UserCode] case EndOfFile => [Close(c)] case ReadError => [])
    case _ => []
  }

  lemma DispatchedOps(s: Reactor, k: C.WriteResult, r: ReadResult)
    requires WellFormed(s) && Enabled(s, Exec(k, r)) && DispatchOp(s.ops[0]) && s.ops[0].conn in Alive(s)
    ensures ExecOne(s, k, r).ops == InPlaceOf(s.ops[0], r) + s.ops[1..]
  {
    hide WellFormed, Alive, ExecLive, Commit, C.Apply, C.May;
    var op, tail := s.ops[0], s.ops[1..];
    if op.Read? {
      ReadOps(s, k, r);
    } else if op.Erase? {
      EraseOps(s, k, r);
    } else {
      ExecShape(s, k, r);
      CommitFacts(s.(ops := Follow(op) + tail), op.conn, C.Apply(s.code, s.conns[op.conn], HeadOp(s, k)[0]));
    }
    assert [] + tail == tail;
  }

  lemma ReadOps(s: Reactor, k: C.WriteResult, r: ReadResult)
    requires WellFormed(s) && Enabled(s, Exec(k, r)) && s.ops[0].Read?
    ensures ExecLive(s, k, r).ops == InPlaceOf(s.ops[0], r) + s.ops[1..]
  {
    hide WellFormed;
    assert [] + s.ops[1..] == s.ops[1..];
  }

  /** The balance of one step: what it completes leaves the frames, and what takes its place enters them. */
  lemma StepBalances(s: Reactor, step: Step, kind: Kind)
    requires Inv(s) && WellFormed(s) && Enabled(s, step) && InDispatch(s) && step != Return
    ensures InDispatch(Next(s, step))
    ensures Count(Next(s, step).ops, kind) + (if Completes(s, step, kind) then 1 else 0) ==
            Count(s.ops, kind) +
            (match kind
             case Closing => if Meets(s, step, EndOfFile) then 1 else 0
             case Telling => (if Completes(s, step, Closing) then 1 else 0) + (if Meets(s, step, Bytes) then 1 else 0)
             case Erasing => if Completes(s, step, Closing) then 1 else 0
             case _ => 0)
  {
    hide Inv, Alive, ExecOne, UserOne, OtherOne, N.ConnName, Count, WellFormed;
    InFrameOnly(s, step);
    if step.Exec? {
      ExecBalances(s, step.k, step.r, kind);
    } else if step.ByUser? {
      UserPlace(s, step.action);
      OtherStepsAreDefined(s, step);
      assert s.ops == [s.ops[0]] + s.ops[1..];
      CountOfSum([s.ops[0]], s.ops[1..], kind);
      CountOfOne(s.ops[0], kind);
    } else if step.ByOther? {
      OtherPlace(s, step.tid, step.deed);
      OtherStepsAreDefined(s, step);
    }
  }

  lemma InFrameOnly(s: Reactor, step: Step)
    requires WellFormed(s) && Enabled(s, step) && s.inFrame && step != Return
    ensures step.Exec? || step.ByUser? || step.ByOther? || step.Acquire? || step.Release?
  {
    hide Alive, N.ConnName;
  }

  lemma CountOfOne(op: Op, kind: Kind)
    ensures Count([op], kind) == if OfKind(op, kind) then 1 else 0
  {
  }

  lemma CountInPlace(op: Op, r: ReadResult, kind: Kind)
    requires DispatchOp(op) && !op.UserCode?
    ensures Count(InPlaceOf(op, r), kind) ==
            match kind
            case Closing => if op.Read? && r.EndOfFile? then 1 else 0
            case Telling => if op.Close? || (op.Read? && r.Bytes?) then 1 else 0
            case Erasing => if op.Close? then 1 else 0
            case _ => 0
    ensures forall o :: o in InPlaceOf(op, r) ==> DispatchOp(o)
  {
    if op.Close? {
      CountOfSum([UserCode], [Erase(op.conn)], kind);
      assert [UserCode, Erase(op.conn)] == [UserCode] + [Erase(op.conn)];
      CountOfOne(UserCode, kind);
      CountOfOne(Erase(op.conn), kind);
    } else if op.Read? {
      CountOfOne(UserCode, kind);
      CountOfOne(Close(op.conn), kind);
    }
  }

  lemma ExecBalances(s: Reactor, k: C.WriteResult, r: ReadResult, kind: Kind)
    requires Inv(s) && WellFormed(s) && Enabled(s, Exec(k, r)) && InDispatch(s)
    ensures var s' := ExecOne(s, k, r); var op := s.ops[0];
            && InDispatch(s')
            && Count(s'.ops, kind) + (if OfKind(op, kind) then 1 else 0) ==
               Count(s.ops, kind) +
               (match kind
                case Closing => if op.Read? && r.EndOfFile? then 1 else 0
                case Telling => if op.Close? || (op.Read? && r.Bytes?) then 1 else 0
                case Erasing => if op.Close? then 1 else 0
                case _ => 0)
  {
    hide Inv, WellFormed, Alive, ExecOne, Count, InPlaceOf;
    var op, tail := s.ops[0], s.ops[1..];
    assert op in s.ops && s.ops == [op] + tail;
    OthersAreHeld(s);
    OwnedIsAlive(s, op.conn);
    ExecPlace(s, k, r);
    ExecDangles(s, k, r);
    DispatchedOps(s, k, r);
    CountInPlace(op, r, kind);
    CountOfSum(InPlaceOf(op, r), tail, kind);
    CountOfSum([op], tail, kind);
    CountOfOne(op, kind);
  }

  /** The balance over any run within the frame. */
  lemma {:induction false} RunBalances(s: Reactor, steps: seq<Step>)
    requires Inv(s) && InDispatch(s) && Legal(s, steps) && Return !in steps
    ensures var ops := After(s, steps).ops;
            && InDispatch(After(s, steps))
            && Count(ops, Closing) + Completed(s, steps, Closing) == Count(s.ops, Closing) + Met(s, steps, EndOfFile)
            && Count(ops, Reading) + Completed(s, steps, Reading) == Count(s.ops, Reading)
            && Count(ops, Writing) + Completed(s, steps, Writing) == Count(s.ops, Writing)
            && Count(ops, Erasing) + Completed(s, steps, Erasing) ==
               Count(s.ops, Erasing) + Completed(s, steps, Closing)
            && Count(ops, Telling) + Completed(s, steps, Telling) ==
               Count(s.ops, Telling) + Completed(s, steps, Closing) + Met(s, steps, Bytes)
    decreases |steps|
  {
    hide Inv, Next, Enabled, WellFormed, InDispatch, Count, Completes, Meets;
    if steps != [] {
      var before, step := steps[..|steps| - 1], steps[|steps| - 1];
      var b := After(s, before);
      assert step in steps;
      RunBalances(s, before);
      RunsKeepInv(s, before);
      StepBalances(b, step, Closing);
      StepBalances(b, step, Reading);
      StepBalances(b, step, Writing);
      StepBalances(b, step, Erasing);
      StepBalances(b, step, Telling);
    }
  }

  lemma CountOfChoice(op: Op, given: bool, kind: Kind)
    ensures Count(if given then [op] else [], kind) == if given && OfKind(op, kind) then 1 else 0
  {
  }

  lemma CountsWanted(c: Id, close: bool, error: bool, read: bool, write: bool, kind: Kind)
    ensures Count(Wanted(c, close, error, read, write), kind) ==
            match kind
            case Closing => (if close then 1 else 0) + (if error then 1 else 0)
            case Reading => if read then 1 else 0
            case Writing => if write then 1 else 0
            case _ => 0
  {
    hide Count;
    var cs, es := if close then [Close(c)] else [], if error then [Close(c)] else [];
    var rs, ws := if read then [Read(c)] else [], if write then [Write(c)] else [];
    CountOfSum(cs + es + rs, ws, kind);
    CountOfSum(cs + es, rs, kind);
    CountOfSum(cs, es, kind);
    CountOfChoice(Close(c), close, kind);
    CountOfChoice(Close(c), error, kind);
    CountOfChoice(Read(c), read, kind);
    CountOfChoice(Write(c), write, kind);
  }

  lemma CountsAsked(c: Id, revents: P.Mask, kind: Kind)
    ensures Count(Asked(c, revents), kind) ==
            match kind
            case Closing => (if revents & P.EPOLLHUP != 0 && revents & P.EPOLLIN == 0 then 1 else 0) +
                            (if revents & P.EPOLLERR != 0 then 1 else 0)
            case Reading => if revents & P.EPOLLIN != 0 then 1 else 0
            case Writing => if revents & P.EPOLLOUT != 0 then 1 else 0
            case _ => 0
  {
    hide Count, Wanted;
    CountsWanted(c, revents & P.EPOLLHUP != 0 && revents & P.EPOLLIN == 0, revents & P.EPOLLERR != 0,
                 revents & P.EPOLLIN != 0, revents & P.EPOLLOUT != 0, kind);
  }

  /** The account of a dispatch by its return, in every run: it reads once exactly if there is input and writes
      once exactly if there is room, and it closes once for a hang-up without input, once for an error and
      once for each read that met the end of the stream; for each close it tells the user and takes the
      connection from the server's map once, and it tells the user once of each delivery. */
  lemma ADispatchDoesWhatIsAsked(s: Reactor, steps: seq<Step>)
    requires Inv(s) && WellFormed(s) && Enabled(s, Dispatch)
    requires Legal(Next(s, Dispatch), steps) && Return !in steps && After(Next(s, Dispatch), steps).ops == []
    ensures var s' := Next(s, Dispatch); var m := s.active[0].revents;
            && Completed(s', steps, Reading) == (if m & P.EPOLLIN != 0 then 1 else 0)
            && Completed(s', steps, Writing) == (if m & P.EPOLLOUT != 0 then 1 else 0)
            && Completed(s', steps, Closing) == (if m & P.EPOLLHUP != 0 && m & P.EPOLLIN == 0 then 1 else 0) +
                                                (if m & P.EPOLLERR != 0 then 1 else 0) + Met(s', steps, EndOfFile)
            && Completed(s', steps, Erasing) == Completed(s', steps, Closing)
            && Completed(s', steps, Telling) == Completed(s', steps, Closing) + Met(s', steps, Bytes)
  {
    hide Inv, WellFormed, Next, Asked, Legal, After;
    var s', r := Next(s, Dispatch), s.active[0];
    DispatchOpens(s);
    DispatchDoesWhatIsAsked(r.conn, r.revents);
    StepKeepsInv(s, Dispatch);
    RunBalances(s', steps);
    CountsAsked(r.conn, r.revents, Closing);
    CountsAsked(r.conn, r.revents, Reading);
    CountsAsked(r.conn, r.revents, Writing);
    CountsAsked(r.conn, r.revents, Erasing);
    CountsAsked(r.conn, r.revents, Telling);
  }
}
