/** The whole server as one machine: the event loop with its task queue, the poller, the connections, the
    server's map of them, and any number of other threads.  A step is one atomic piece of the code of one
    thread; the kernel, the clients, the users' callbacks and the scheduler choose which step comes next. */
module Reactors {
  import opened Buffers
  import P = EpollPollers
  import L = EventLoops
  import C = Connections
  import N = Names

  /** A connection is identified by the value of `nextConnId_` it was made with. */
  type Id = nat

  /** A functor in the loop's queue.  `Destroyed` and `Callback` bind a shared pointer to the connection;
      the two raw ones, from `send` and `shutdown` in another thread, bind a bare `this`. */
  datatype Task =
    | Destroyed(conn: Id)
    | Callback(conn: Id, note: C.Note)
    | RawSend(conn: Id, data: seq<Byte>)
    | RawShutdown(conn: Id)
    | User(id: nat)

  /** The connections that a sequence of functors keeps alive. */
  function Holders(tasks: seq<Task>): set<Id> {
    set t | t in tasks && (t.Destroyed? || t.Callback?) :: t.conn
  }

  /** What remains to be done in the frames of the callback that the loop thread is executing: a piece of
      the library's code, or a callback of the user's, which may do anything the public interface allows. */
  datatype Op =
    | Close(conn: Id)
    | Erase(conn: Id)
    | Read(conn: Id)
    | Write(conn: Id)
    | Destroy(conn: Id)
    | Remove(conn: Id)
    | Send(conn: Id, data: seq<Byte>)
    | Shutdown(conn: Id)
    | UserCode

  /** A `send` or `shutdown` that another thread is in the middle of: it has found the connection connected
      and has yet to push the functor. */
  datatype Call = SendCall(conn: Id, data: seq<Byte>) | ShutdownCall(conn: Id)

  function AsTask(call: Call): Task {
    match call
    case SendCall(c, data) => RawSend(c, data)
    case ShutdownCall(c) => RawShutdown(c)
  }

  /** What `readFd` returned. */
  datatype ReadResult = Bytes | EndOfFile | ReadError

  datatype Ready = Ready(conn: Id, revents: P.Mask)

  /** `ops` is what the current callback has still to do and `holds` the connections its frames hold
      shared pointers to; `users` are the connections that user code holds and `callers` the calls that other
      threads are in.  `refused` counts the `epoll_ctl` calls the kernel refused.  `dangled`: library code was
      about to use a connection that is gone, after which nothing is defined. */
  datatype Reactor = Reactor(
    code: C.Code,
    server: string,
    ipPort: string,
    loop: L.Loop<Task>,
    epoll: P.Epoll<Id>,
    refused: nat,
    conns: map<Id, C.Conn>,
    connections: map<string, Id>,
    nextConnId: nat,
    active: seq<Ready>,
    inFrame: bool,
    ops: seq<Op>,
    holds: set<Id>,
    users: set<Id>,
    callers: map<L.Tid, Call>,
    dangled: bool)

  function Start(code: C.Code, server: string, ipPort: string): Reactor {
    Reactor(code, server, ipPort, L.Initial(), P.Epoll(map[], map[], map[]), 0, map[], map[], 1, [], false, [], {}, {},
            map[], false)
  }

  /** The functors still to run, in the order in which they will. */
  function Queue(l: L.Loop<Task>): seq<Task>
    requires l.next <= |l.batch|
  {
    l.batch[l.next..] + l.pending
  }

  /** The connections owned by the library: by the server's map, by a functor of the batch (which keeps its
      functors until it is finished) or of the queue, or by an executing frame. */
  function Owned(s: Reactor): set<Id> {
    s.connections.Values + s.holds + Holders(s.loop.batch) + Holders(s.loop.pending)
  }

  /** The connections that other threads are calling: a caller holds its pointer until the push. */
  function Callers(s: Reactor): set<Id> {
    set tid | tid in s.callers :: s.callers[tid].conn
  }

  /** The connections whose reference count is not zero. */
  function Alive(s: Reactor): set<Id> {
    Owned(s) + s.users + Callers(s)
  }

  function Name(s: Reactor, c: Id): string {
    N.ConnName(s.server, s.ipPort, c)
  }

  // ---- Steps ----

  datatype Step =
    | LoopStep(e: L.Event<Task>)
    | Wait(ready: seq<Ready>)
    | Accept(fd: int, highWaterMark: nat, hasWriteComplete: bool, hasHighWater: bool)
    | Dispatch
    | RunTask
    | Exec(k: C.WriteResult, r: ReadResult)
    | Return
    | ByUser(action: UserAction)
    | Acquire(conn: Id)
    | Release(conn: Id)
    | Destruct(name: string)
    | ByOther(tid: L.Tid, deed: OtherAction)

  /** What user code does when it is called back in the loop's thread. */
  datatype UserAction =
    | UserSend(conn: Id, data: seq<Byte>, k: C.WriteResult)
    | UserShutdown(conn: Id)
    | UserQueue(id: nat)
    | UserQuit
    | UserReturn

  /** What another thread does.  `send` and `shutdown` are a test of the state (which for `shutdown` also
      marks it), later the push, and later still the write of the eventfd. */
  datatype OtherAction =
    | TestSend(conn: Id, data: seq<Byte>)
    | TestShutdown(conn: Id)
    | PushCall
    | OtherQueue(id: nat)
    | OtherQuit
    | OtherWake

  /** Everything referred to exists, and frames are open only where callbacks run. */
  ghost predicate WellFormed(s: Reactor) {
    && (forall c :: c in s.conns ==> s.conns[c].Valid() && 1 <= c < s.nextConnId)
    && 1 <= s.nextConnId <= N.INT_MAX
    && (forall n :: n in s.connections ==> s.connections[n] in s.conns)
    && s.loop.next <= |s.loop.batch|
    && (forall t :: t in s.loop.batch && !t.User? ==> t.conn in s.conns)
    && (forall t :: t in s.loop.pending && !t.User? ==> t.conn in s.conns)
    && (forall op :: op in s.ops && !op.UserCode? ==> op.conn in s.conns)
    && (forall r :: r in s.active ==> r.conn in s.conns)
    && s.holds <= s.conns.Keys && s.users <= s.conns.Keys && s.epoll.index.Keys <= s.conns.Keys
    && !s.loop.mustWake
    && (s.inFrame ==> s.loop.pc.Dispatching? || s.loop.pc.Running? || s.loop.pc.Stopped?)
    && (!s.inFrame ==> s.ops == [] && s.holds == {})
    && (s.active != [] ==> s.loop.pc.Dispatching?)
    && (forall tid :: tid in s.callers ==> s.callers[tid].conn in s.conns)
  }

  /** The kernel has an entry for this channel. */
  ghost predicate InKernel(p: P.Epoll<Id>, c: Id) {
    exists fd :: fd in p.kernel && p.kernel[fd].channel == c
  }

  ghost predicate UserTurn(s: Reactor) {
    s.inFrame && s.ops != [] && s.ops[0].UserCode?
  }

  /** The thread is not inside a call of the library. */
  predicate Idle(s: Reactor, tid: L.Tid) {
    tid !in s.callers && tid !in s.loop.pushers && tid !in s.loop.quitters
  }

  ghost predicate Enabled(s: Reactor, step: Step)
    requires WellFormed(s)
  {
    !s.dangled &&
    match step
    case LoopStep(e) =>
      && L.Enabled(s.loop, e) && !s.inFrame
      && (e.Begin? || e.Test? || e.Poll? || e.Swap? || e.EndBatch? || e.ReadWakeup? || (e.StartCalling? && s.active == []))
    case Wait(ready) =>
      && L.Enabled(s.loop, L.PollReturns)
      && (forall r :: r in ready ==> InKernel(s.epoll, r.conn))
      && (forall i, j :: 0 <= i < j < |ready| ==> ready[i].conn != ready[j].conn)
    case Accept(fd, _, _, _) =>
      && s.loop.pc.Dispatching? && !s.inFrame && s.nextConnId < N.INT_MAX
      && (forall c :: c in Alive(s) && c in s.conns ==> s.conns[c].fd != fd)
    case Dispatch => s.loop.pc.Dispatching? && !s.inFrame && s.active != []
    case RunTask => L.Enabled(s.loop, L.RunNext) && !s.inFrame
    case Exec(k, _) =>
      && s.inFrame && s.ops != [] && !s.ops[0].UserCode?
      && var c := s.conns[s.ops[0].conn];
         (match s.ops[0]
          case Write(_) => c.KernelMay(k, C.Offered(s.code, c.out))
          case Send(_, data) => c.KernelMay(k, |data|)
          case _ => true)
    case Return => s.inFrame && s.ops == []
    case ByUser(action) =>
      && UserTurn(s)
      && (action.UserSend? || action.UserShutdown? ==> action.conn in Alive(s) && action.conn in s.conns)
      && (action.UserSend? ==> s.conns[action.conn].KernelMay(action.k, |action.data|))
    case Acquire(c) => c in Alive(s) && c in s.conns
    case Release(c) => c in s.users
    case Destruct(name) => s.loop.pc.Stopped? && !s.inFrame && name in s.connections
    case ByOther(tid, deed) =>
      (match deed
       case TestSend(c, _) => Idle(s, tid) && c in s.users && s.conns[c].state == C.Connected
       case TestShutdown(c) => Idle(s, tid) && c in s.users && s.conns[c].state == C.Connected
       case PushCall => tid in s.callers && L.Enabled(s.loop, L.Push(tid, AsTask(s.callers[tid])))
       case OtherQueue(id) => Idle(s, tid) && L.Enabled(s.loop, L.Push(tid, User(id)))
       case OtherQuit => Idle(s, tid) && L.Enabled(s.loop, L.Quit(tid))
       case OtherWake => L.Enabled(s.loop, L.Wake(tid)))
  }

  /** `queueInLoop` called in the loop's own thread. */
  ghost function QueueOwn(s: Reactor, t: Task): Reactor
    requires !s.loop.mustWake && (s.loop.pc.Dispatching? || s.loop.pc.Running? || s.loop.pc.Stopped?)
  {
    s.(loop := L.Queued(s.loop, L.Own, t))
  }

  /** An operation of connection `c` takes effect: on it, on the poller if the channel called `update()`,
      and on the queue if a callback was queued. */
  ghost function Commit(s: Reactor, c: Id, e: C.Effect): Reactor
    requires !s.loop.mustWake && (s.loop.pc.Dispatching? || s.loop.pc.Running? || s.loop.pc.Stopped?)
  {
    var chan := P.Chan(e.conn.fd, e.conn.events);
    var done := s.(conns := s.conns[c := e.conn]);
    var updated := if !e.updates then done else
        done.(epoll := s.epoll.UpdateChannel(c, chan),
              refused := s.refused + if s.epoll.CtlSucceeds(s.epoll.UpdateOp(c, chan.events), chan.fd) then 0 else 1);
    if e.notes == [] then updated else QueueOwn(updated, Callback(c, e.notes[0]))
  }

  /** The channel of connection `c` is removed. */
  ghost function Unregister(s: Reactor, c: Id): Reactor
    requires c in s.conns
  {
    var chan := P.Chan(s.conns[c].fd, s.conns[c].events);
    s.(epoll := s.epoll.RemoveChannel(c, chan),
       refused := s.refused + if s.epoll.IndexOf(c) == P.Added && !s.epoll.CtlSucceeds(P.Del, chan.fd) then 1 else 0)
  }

  /** The callbacks of an event mask, as bound in the constructor of the connection: errors close it too. */
  function DispatchOps(c: Id, callbacks: seq<P.Callback>): seq<Op> {
    seq(|callbacks|, i requires 0 <= i < |callbacks| =>
      match callbacks[i]
      case CloseCallback => Close(c)
      case ErrorCallback => Close(c)
      case ReadCallback => Read(c)
      case WriteCallback => Write(c))
  }

  function Body(t: Task): seq<Op> {
    match t
    case Destroyed(c) => [Destroy(c)]
    case Callback(_, _) => [UserCode]
    case RawSend(c, data) => [Send(c, data)]
    case RawShutdown(c) => [Shutdown(c)]
    case User(_) => [UserCode]
  }

  /** `newConnection` up to the call of `connectEstablished`: the connection exists and is in the map. */
  ghost function Born(s: Reactor, conn: C.Conn): Reactor {
    var c := s.nextConnId;
    s.(connections := s.connections[Name(s, c) := c], nextConnId := c + 1, conns := s.conns[c := conn],
       inFrame := true, ops := [UserCode], holds := {c})
  }

  /** `newConnection`, and `connectEstablished` up to its callback. */
  ghost function AcceptOne(s: Reactor, fd: int, mark: nat, wc: bool, hw: bool): Reactor
    requires WellFormed(s) && Enabled(s, Accept(fd, mark, wc, hw))
  {
    var conn := C.NewConn(fd, mark, wc, hw);
    Commit(Born(s, conn), s.nextConnId, C.Establish(conn))
  }

  /** The next piece of the library's code in the current frames. */
  ghost function ExecOne(s: Reactor, k: C.WriteResult, r: ReadResult): Reactor
    requires WellFormed(s) && Enabled(s, Exec(k, r))
  {
    if s.ops[0].conn in Alive(s) then ExecLive(s, k, r) else s.(dangled := true)
  }

  ghost function ExecLive(s: Reactor, k: C.WriteResult, r: ReadResult): Reactor
    requires WellFormed(s) && Enabled(s, Exec(k, r))
  {
    var c := s.ops[0].conn;
    var rest := s.(ops := s.ops[1..]);
    var conn := s.conns[c];
    match s.ops[0]
    case Close(_) => Commit(rest.(ops := [UserCode, Erase(c)] + rest.ops), c, C.Close(conn))
    case Erase(_) => QueueOwn(rest.(connections := s.connections - {Name(s, c)}), Destroyed(c))
    case Read(_) =>
      (match r
       case Bytes => rest.(ops := [UserCode] + rest.ops)
       case EndOfFile => rest.(ops := [Close(c)] + rest.ops)
       case ReadError => rest)
    case Write(_) => Commit(rest, c, C.HandleWrite(s.code, conn, k))
    case Destroy(_) =>
      if conn.state == C.Connected then Commit(rest.(ops := [UserCode, Remove(c)] + rest.ops), c, C.Destroy(conn))
      else rest.(ops := [Remove(c)] + rest.ops)
    case Remove(_) => Unregister(rest, c)
    case Send(_, data) => Commit(rest, c, C.SendInLoop(conn, data, k))
    case Shutdown(_) => Commit(rest, c, C.Quiet(C.ShutdownInLoop(conn)))
  }

  /** `handleEvent` of the next active channel: the tie is locked, and without it no callback runs. */
  ghost function DispatchOne(s: Reactor): Reactor
    requires WellFormed(s) && Enabled(s, Dispatch)
  {
    var r := s.active[0];
    var popped := s.(active := s.active[1..]);
    if r.conn in Alive(s) then
      popped.(inFrame := true, holds := {r.conn}, ops := DispatchOps(r.conn, P.Callbacks(r.revents)))
    else popped
  }

  ghost function RunTaskOne(s: Reactor): Reactor
    requires WellFormed(s) && Enabled(s, RunTask)
  {
    var t := s.loop.batch[s.loop.next];
    s.(loop := L.Step(s.loop, L.RunNext), inFrame := true, holds := Holders([t]), ops := Body(t))
  }

  /** `~TcpServer`, one entry: it is reset and its connection destroyed in place. */
  ghost function DestructOne(s: Reactor, name: string): Reactor
    requires WellFormed(s) && Enabled(s, Destruct(name))
  {
    var c := s.connections[name];
    s.(connections := s.connections - {name}, inFrame := true, holds := {c}, ops := [Destroy(c)])
  }

  /** User code, called back in the loop's thread, uses the public interface or returns. */
  ghost function UserOne(s: Reactor, action: UserAction): Reactor
    requires WellFormed(s) && Enabled(s, ByUser(action))
  {
    match action
    case UserSend(c, data, k) => Commit(s, c, C.Send(s.conns[c], data, k))
    case UserShutdown(c) => Commit(s, c, C.Quiet(C.Shutdown(s.conns[c])))
    case UserQueue(id) => QueueOwn(s, User(id))
    case UserQuit => s.(loop := L.Step(s.loop, L.OwnQuit))
    case UserReturn => s.(ops := s.ops[1..])
  }

  /** One step of another thread. */
  ghost function OtherOne(s: Reactor, tid: L.Tid, deed: OtherAction): Reactor
    requires WellFormed(s) && Enabled(s, ByOther(tid, deed))
  {
    match deed
    case TestSend(c, data) => s.(callers := s.callers[tid := SendCall(c, data)])
    case TestShutdown(c) =>
      s.(callers := s.callers[tid := ShutdownCall(c)], conns := s.conns[c := C.MarkShutdown(s.conns[c])])
    case PushCall =>
      s.(loop := L.Step(s.loop, L.Push(tid, AsTask(s.callers[tid]))), callers := s.callers - {tid})
    case OtherQueue(id) => s.(loop := L.Step(s.loop, L.Push(tid, User(id))))
    case OtherQuit => s.(loop := L.Step(s.loop, L.Quit(tid)))
    case OtherWake => s.(loop := L.Step(s.loop, L.Wake(tid)))
  }

  ghost function Next(s: Reactor, step: Step): Reactor
    requires WellFormed(s) && Enabled(s, step)
  {
    match step
    case LoopStep(e) => s.(loop := L.Step(s.loop, e))
    case Wait(ready) => s.(loop := L.Step(s.loop, L.PollReturns), active := ready)
    case Accept(fd, mark, wc, hw) => AcceptOne(s, fd, mark, wc, hw)
    case Dispatch => DispatchOne(s)
    case RunTask => RunTaskOne(s)
    case Exec(k, r) => ExecOne(s, k, r)
    case Return => s.(inFrame := false, holds := {})
    case ByUser(action) => UserOne(s, action)
    case Acquire(c) => s.(users := s.users + {c})
    case Release(c) => s.(users := s.users - {c})
    case Destruct(name) => DestructOne(s, name)
    case ByOther(tid, deed) => OtherOne(s, tid, deed)
  }
}
