/** One TCP connection as a value (TcpConnection.cc): its state, interest mask and output buffer, with
    the bytes accepted for sending and the bytes on the wire beside them.  The kernel's answers are
    parameters.  The class `TcpConnection` is proved against these functions, and the reactor is built of them. */
module Connections {
  import opened Buffers
  import opened EpollPollers

  /** The two places where the code departs from its evident intent, so that both can be told apart:
      whether `writeFd` offers the readable bytes (as written: `writableBytes()` of them), and whether
      `handleWrite` disables writing once the buffer has drained (as written: never). */
  datatype Code = Code(offersReadable: bool, disarmsWhenDrained: bool)

  const AS_WRITTEN: Code := Code(false, false)
  const INTENDED: Code := Code(true, true)

  datatype State = Connecting | Connected | Disconnecting | Disconnected

  function Rank(s: State): nat {
    match s
    case Connecting => 0
    case Connected => 1
    case Disconnecting => 2
    case Disconnected => 3
  }

  datatype Errno = WouldBlock | Pipe | Reset | OtherError
  datatype WriteResult = Wrote(n: nat) | Failed(errno: Errno)

  function IsFault(k: WriteResult): bool {
    k.Failed? && (k.errno.Pipe? || k.errno.Reset?)
  }

  /** A user callback that a connection queues on its loop. */
  datatype Note = WriteComplete | HighWater(len: nat)

  /** `faulted`: a payload was dropped for EPIPE or ECONNRESET.  `broken`: the kernel fails every
      further write, after such an error or after the half-close. */
  datatype Conn = Conn(
    fd: int,
    state: State,
    events: Mask,
    out: Buf,
    highWaterMark: nat,
    hasWriteComplete: bool,
    hasHighWater: bool,
    accepted: seq<Byte>,
    wire: seq<Byte>,
    halfCloses: nat,
    faulted: bool,
    broken: bool)
  {
    ghost predicate Valid() {
      out.Valid()
    }

    function Buffered(): seq<Byte>
      requires Valid()
    {
      out.Readable()
    }

    /** Nothing lost, doubled or reordered: the wire followed by the buffer is what was accepted. */
    ghost predicate Conserved()
      requires Valid()
    {
      wire + Buffered() == accepted
    }

    /** What a write of `len` bytes can return. */
    predicate KernelMay(k: WriteResult, len: nat) {
      (k.Wrote? ==> k.n <= len) && (broken ==> IsFault(k))
    }
  }

  function NewConn(fd: int, highWaterMark: nat, hasWriteComplete: bool, hasHighWater: bool): Conn {
    Conn(fd, Connecting, NONE, FRESH, highWaterMark, hasWriteComplete, hasHighWater, [], [], 0, false, false)
  }

  /** The connection afterwards, whether its channel called `update()`, and the callbacks queued. */
  datatype Effect = Effect(conn: Conn, updates: bool, notes: seq<Note>)

  function Quiet(c: Conn): Effect {
    Effect(c, false, [])
  }

  // ---- The operations ----

  /** Nothing is armed and nothing waits: only then does `sendInLoop` write by itself. */
  predicate WritesDirectly(c: Conn)
    requires c.Valid()
  {
    !IsWriting(c.events) && |c.Buffered()| == 0
  }

  /** `sendInLoop` drops the payload. */
  predicate Drops(c: Conn, k: WriteResult)
    requires c.Valid()
  {
    WritesDirectly(c) && IsFault(k)
  }

  /** How much of the payload the direct write took. */
  function Taken(c: Conn, k: WriteResult): nat
    requires c.Valid()
  {
    if WritesDirectly(c) && k.Wrote? then k.n else 0
  }

  /** `sendInLoop`: `k` is the answer to the direct write, if one is made. */
  function SendInLoop(c: Conn, data: seq<Byte>, k: WriteResult): Effect
    requires c.Valid() && c.KernelMay(k, |data|)
  {
    if c.state == Disconnected then Quiet(c)
    else
      var rest := data[Taken(c, k)..];
      var sent := c.(accepted := c.accepted + data, wire := c.wire + data[..Taken(c, k)],
                     faulted := c.faulted || Drops(c, k), broken := c.broken || Drops(c, k));
      if !Drops(c, k) && |rest| > 0 then
        Effect(sent.(out := c.out.Append(rest), events := Changed(c.events, EnableWriting)),
               !IsWriting(c.events), SendCallbacks(c, |rest|, k))
      else
        Effect(sent, false, SendCallbacks(c, |rest|, k))
  }

  /** The callbacks `sendInLoop` queues when `remaining` bytes of the payload were not taken. */
  function SendCallbacks(c: Conn, remaining: nat, k: WriteResult): seq<Note>
    requires c.Valid()
  {
    var oldLen := |c.Buffered()|;
    if WritesDirectly(c) && k.Wrote? && remaining == 0 && c.hasWriteComplete then [WriteComplete]
    else if !Drops(c, k) && remaining > 0 && oldLen + remaining >= c.highWaterMark
            && oldLen < c.highWaterMark && c.hasHighWater then [HighWater(oldLen + remaining)]
    else []
  }

  /** `send` in the loop's thread. */
  function Send(c: Conn, data: seq<Byte>, k: WriteResult): Effect
    requires c.Valid() && c.KernelMay(k, |data|)
  {
    if c.state == Connected then SendInLoop(c, data, k) else Quiet(c)
  }

  /** How many bytes `writeFd` offers to the kernel. */
  function Offered(code: Code, b: Buf): nat
    requires b.Valid()
  {
    if code.offersReadable then |b.Readable()| else b.Writable()
  }

  function HandleWrite(code: Code, c: Conn, k: WriteResult): Effect
    requires c.Valid() && c.KernelMay(k, Offered(code, c.out))
  {
    if !IsWriting(c.events) then Quiet(c)
    else if k.Wrote? && k.n > 0 then
      var left := c.out.Retrieve(k.n);
      var drained := k.n >= |c.Buffered()|;
      var disarm := drained && code.disarmsWhenDrained;
      var c' := c.(wire := c.wire + c.out.Window(k.n), out := left,
                   events := if disarm then Changed(c.events, DisableWriting) else c.events);
      Effect(if c.state == Disconnecting then ShutdownInLoop(c') else c',
             disarm, if drained then [WriteComplete] else [])
    else Quiet(c.(broken := c.broken || IsFault(k)))
  }

  /** `shutdownInLoop`; after a half-close the kernel refuses every write. */
  function ShutdownInLoop(c: Conn): Conn {
    if IsWriting(c.events) then c else c.(halfCloses := c.halfCloses + 1, broken := true)
  }

  /** The part of `shutdown` that any thread does. */
  function MarkShutdown(c: Conn): Conn {
    if c.state == Connected then c.(state := Disconnecting) else c
  }

  /** `shutdown` in the loop's thread. */
  function Shutdown(c: Conn): Conn {
    if c.state == Connected then ShutdownInLoop(MarkShutdown(c)) else c
  }

  function Establish(c: Conn): Effect {
    Effect(c.(state := Connected, events := Changed(c.events, EnableReading)), true, [])
  }

  /** `handleClose` up to its callbacks. */
  function Close(c: Conn): Effect {
    Effect(c.(state := Disconnected, events := Changed(c.events, DisableAll)), true, [])
  }

  /** `connectDestroyed` up to its callback; what remains is the removal of the channel. */
  function Destroy(c: Conn): Effect {
    if c.state == Connected then Close(c) else Quiet(c)
  }

  /** A connection as `newConnection` leaves it: open, registered for reading alone, with the marks and callbacks
      given, and nothing in its buffers or on its wire. */
  lemma EstablishedIsOpen(fd: int, mark: nat, hasWriteComplete: bool, hasHighWater: bool)
    ensures var e := Establish(NewConn(fd, mark, hasWriteComplete, hasHighWater)); var c := e.conn;
            && c.Valid() && c.state == Connected && c.fd == fd && c.events == READ && e.updates && e.notes == []
            && c.highWaterMark == mark && c.hasWriteComplete == hasWriteComplete && c.hasHighWater == hasHighWater
            && c.Buffered() == c.accepted == c.wire == [] && c.halfCloses == 0 && !c.faulted && !c.broken
  {
  }

  // ---- Runs ----

  datatype Op =
    | SendOp(data: seq<Byte>, k: WriteResult)
    | SendInLoopOp(data: seq<Byte>, k: WriteResult)
    | HandleWriteOp(k: WriteResult)
    | ShutdownOp
    | MarkShutdownOp
    | ShutdownInLoopOp
    | EstablishOp
    | CloseOp
    | DestroyOp

  /** The kernel keeps to its ranges; `connectEstablished` is called on a connection being set up. */
  ghost predicate May(code: Code, c: Conn, op: Op)
    requires c.Valid()
  {
    match op
    case SendOp(data, k) => c.KernelMay(k, |data|)
    case SendInLoopOp(data, k) => c.KernelMay(k, |data|)
    case HandleWriteOp(k) => c.KernelMay(k, Offered(code, c.out))
    case EstablishOp => c.state == Connecting
    case _ => true
  }

  function Apply(code: Code, c: Conn, op: Op): (e: Effect)
    requires c.Valid() && May(code, c, op)
    ensures e.conn.Valid()
  {
    match op
    case SendOp(data, k) => SendIsValid(c, data, k); Send(c, data, k)
    case SendInLoopOp(data, k) => SendIsValid(c, data, k); SendInLoop(c, data, k)
    case HandleWriteOp(k) => HandleWrite(code, c, k)
    case ShutdownOp => Quiet(Shutdown(c))
    case MarkShutdownOp => Quiet(MarkShutdown(c))
    case ShutdownInLoopOp => Quiet(ShutdownInLoop(c))
    case EstablishOp => Establish(c)
    case CloseOp => Close(c)
    case DestroyOp => Destroy(c)
  }

  lemma SendIsValid(c: Conn, data: seq<Byte>, k: WriteResult)
    requires c.Valid() && c.KernelMay(k, |data|)
    ensures SendInLoop(c, data, k).conn.Valid()
  {
  }

  ghost predicate Legal(code: Code, c: Conn, ops: seq<Op>)
    requires c.Valid()
    decreases |ops|, 0
  {
    ops == [] ||
    (Legal(code, c, ops[..|ops| - 1]) && May(code, Run(code, c, ops[..|ops| - 1]), ops[|ops| - 1]))
  }

  ghost function Run(code: Code, c: Conn, ops: seq<Op>): (r: Conn)
    requires c.Valid() && Legal(code, c, ops)
    ensures r.Valid()
    decreases |ops|, 1
  {
    if ops == [] then c else Apply(code, Run(code, c, ops[..|ops| - 1]), ops[|ops| - 1]).conn
  }

  lemma ExtendRun(code: Code, c: Conn, ops: seq<Op>, op: Op)
    requires c.Valid() && Legal(code, c, ops) && May(code, Run(code, c, ops), op)
    ensures Legal(code, c, ops + [op])
    ensures Run(code, c, ops + [op]) == Apply(code, Run(code, c, ops), op).conn
  {
  }

  /** The last step of a run. */
  ghost function Before(code: Code, c: Conn, ops: seq<Op>): Conn
    requires c.Valid() && Legal(code, c, ops) && ops != []
  {
    Run(code, c, ops[..|ops| - 1])
  }

  // ---- The byte stream ----

  /** The step does not hand the kernel bytes that were never put in the buffer. */
  ghost predicate CleanStep(c: Conn, op: Op)
    requires c.Valid()
  {
    op.HandleWriteOp? && op.k.Wrote? && IsWriting(c.events) ==> op.k.n <= |c.Buffered()|
  }

  ghost predicate Clean(code: Code, c: Conn, ops: seq<Op>)
    requires c.Valid() && Legal(code, c, ops)
    decreases |ops|
  {
    ops == [] || (Clean(code, c, ops[..|ops| - 1]) && CleanStep(Before(code, c, ops), ops[|ops| - 1]))
  }

  /** More bytes are out or waiting than were ever accepted. */
  ghost predicate Surplus(c: Conn)
    requires c.Valid()
  {
    |c.wire| + |c.Buffered()| > |c.accepted|
  }

  lemma LengthsAgree(c: Conn)
    requires c.Valid()
    ensures c.Conserved() ==> |c.wire| + |c.Buffered()| == |c.accepted|
  {
  }

  /** What one `sendInLoop` does: to the buffer, to the stream, to the interest mask, and what it queues. */
  lemma SendSummary(c: Conn, data: seq<Byte>, k: WriteResult)
    requires c.Valid() && c.KernelMay(k, |data|) && c.state != Disconnected
    ensures var e := SendInLoop(c, data, k); var c' := e.conn;
            && c'.Valid()
            && c'.accepted == c.accepted + data && c'.state == c.state && c'.halfCloses == c.halfCloses
            && c'.faulted == (c.faulted || Drops(c, k)) && c'.broken == (c.broken || Drops(c, k))
            && c'.wire == c.wire + data[..Taken(c, k)]
            && c'.Buffered() == (if Drops(c, k) then c.Buffered() else c.Buffered() + data[Taken(c, k)..])
    ensures var e := SendInLoop(c, data, k); var c' := e.conn;
            && (IsWriting(c'.events) <==> IsWriting(c.events) || |c'.Buffered()| > |c.Buffered()|)
            && e.updates == (!IsWriting(c.events) && IsWriting(c'.events))
            && (!e.updates ==> c'.events == c.events)
  {
    AppendIsSafe(c.out, data[Taken(c, k)..]);
    WritingAfter(c.events, EnableWriting);
    if IsWriting(c.events) {
      ArmedStaysPut(c.events);
    }
    hide Buf.Append, Changed, IsWriting;
    if Drops(c, k) {
      assert data[..0] == [];
    } else if Taken(c, k) == |data| {
      assert data[|data|..] == [];
    }
  }

  /** The callbacks that one `sendInLoop` queues. */
  lemma SendNotes(c: Conn, data: seq<Byte>, k: WriteResult)
    requires c.Valid() && c.KernelMay(k, |data|) && c.state != Disconnected
    ensures SendInLoop(c, data, k).conn.Valid()
    ensures var e := SendInLoop(c, data, k); var c' := e.conn;
            && (WriteComplete in e.notes ==> c'.Buffered() == [])
            && (WriteComplete in e.notes <==> WritesDirectly(c) && k == Wrote(|data|) && c.hasWriteComplete)
            && (forall n :: HighWater(n) in e.notes <==>
                  c.hasHighWater && |c.Buffered()| < c.highWaterMark <= |c'.Buffered()| && n == |c'.Buffered()|)
            && c'.highWaterMark == c.highWaterMark && c'.fd == c.fd && |e.notes| <= 1
  {
    SendSummary(c, data, k);
    NotesOfSend(c, data, k);
    hide SendInLoop, Buf.Append, Buf.Readable, Changed, IsWriting;
  }

  lemma NotesOfSend(c: Conn, data: seq<Byte>, k: WriteResult)
    requires c.Valid() && c.KernelMay(k, |data|) && c.state != Disconnected
    ensures var e := SendInLoop(c, data, k);
            && e.notes == SendCallbacks(c, |data| - Taken(c, k), k)
            && e.conn.highWaterMark == c.highWaterMark && e.conn.fd == c.fd
  {
  }

  /** What a successful `handleWrite` does. */
  lemma DrainSummary(code: Code, c: Conn, k: WriteResult)
    requires c.Valid() && c.KernelMay(k, Offered(code, c.out)) && IsWriting(c.events) && k.Wrote? && k.n > 0
    ensures var e := HandleWrite(code, c, k); var c' := e.conn;
            && c'.Valid()
            && c'.accepted == c.accepted && c'.faulted == c.faulted && c'.state == c.state
            && c'.wire == c.wire + c.out.Window(k.n)
            && |c'.Buffered()| == Max(0, |c.Buffered()| - k.n)
            && (k.n <= |c.Buffered()| ==> c.Buffered() == c.out.Window(k.n) + c'.Buffered())
    ensures var e := HandleWrite(code, c, k); var c' := e.conn;
            && (IsWriting(c'.events) <==> !(code.disarmsWhenDrained && c'.Buffered() == []))
            && e.updates == !IsWriting(c'.events) && (!e.updates ==> c'.events == c.events)
            && e.notes == (if c'.Buffered() == [] then [WriteComplete] else [])
            && c'.halfCloses == c.halfCloses + (if c.state.Disconnecting? && !IsWriting(c'.events) then 1 else 0)
            && c'.highWaterMark == c.highWaterMark && c'.fd == c.fd
  {
    SentThenRetrieved(c.out, k.n);
    WritingAfter(c.events, DisableWriting);
    hide Buf.Retrieve, Buf.Window, Changed, IsWriting;
  }

  /** One `sendInLoop`, as a step of the stream. */
  lemma SendStream(c: Conn, data: seq<Byte>, k: WriteResult)
    requires c.Valid() && c.KernelMay(k, |data|) && c.state != Disconnected
    ensures var c' := SendInLoop(c, data, k).conn;
            && c'.Valid() && c'.accepted == c.accepted + data && (c.faulted ==> c'.faulted)
            && (!Drops(c, k) ==> c'.wire + c'.Buffered() == c.wire + c.Buffered() + data)
            && (Drops(c, k) ==> c'.faulted && c'.broken && c'.wire == c.wire && c'.Buffered() == c.Buffered())
  {
    SendSummary(c, data, k);
    hide SendInLoop, IsWriting, Buf.Readable;
    if !Drops(c, k) {
      Interleave(c.wire, c.Buffered(), data, Taken(c, k));
    }
  }

  lemma Interleave(wire: seq<Byte>, waiting: seq<Byte>, data: seq<Byte>, n: nat)
    requires n <= |data| && (n == 0 || waiting == [])
    ensures wire + data[..n] + (waiting + data[n..]) == wire + waiting + data
  {
  }

  /** What `send` accepts in the loop's thread: all of the payload if the connection is connected, which then,
      unless it is dropped for a fault, comes after everything before it; and otherwise nothing happens. */
  lemma SendAccepts(c: Conn, data: seq<Byte>, k: WriteResult)
    requires c.Valid() && c.KernelMay(k, |data|)
    ensures var c' := Send(c, data, k).conn;
            && c'.Valid()
            && (c.state == Connected ==> c'.accepted == c.accepted + data && c'.state == Connected)
            && (c.state == Connected && !Drops(c, k) ==> c'.wire + c'.Buffered() == c.wire + c.Buffered() + data)
            && (c.state == Connected && Drops(c, k) ==> c'.faulted && c'.wire == c.wire && c'.Buffered() == c.Buffered())
    ensures c.state != Connected ==> Send(c, data, k) == Quiet(c)
  {
    if c.state == Connected {
      SendStream(c, data, k);
      SendSummary(c, data, k);
      hide SendInLoop;
    }
  }

  /** One `handleWrite`, as a step of the stream. */
  lemma DrainStream(code: Code, c: Conn, k: WriteResult)
    requires c.Valid() && c.KernelMay(k, Offered(code, c.out))
    ensures var c' := HandleWrite(code, c, k).conn;
            && c'.Valid() && c'.faulted == c.faulted && c'.accepted == c.accepted
            && (CleanStep(c, HandleWriteOp(k)) ==> c'.wire + c'.Buffered() == c.wire + c.Buffered())
            && (!CleanStep(c, HandleWriteOp(k)) ==> |c'.wire| + |c'.Buffered()| > |c.wire| + |c.Buffered()|)
            && |c'.wire| + |c'.Buffered()| >= |c.wire| + |c.Buffered()|
  {
    if k.Wrote? && k.n > 0 && IsWriting(c.events) {
      DrainSummary(code, c, k);
      hide HandleWrite, IsWriting, Buf.Readable, Buf.Window;
      Reassociate(c.wire, c.out.Window(k.n), HandleWrite(code, c, k).conn.Buffered());
    }
  }

  lemma Reassociate(a: seq<Byte>, b: seq<Byte>, c: seq<Byte>)
    ensures a + b + c == a + (b + c) && |a + b + c| == |a| + |b| + |c|
  {
  }

  lemma StepStream(code: Code, c: Conn, op: Op)
    requires c.Valid() && May(code, c, op)
    ensures var c' := Apply(code, c, op).conn;
            && (c.faulted ==> c'.faulted)
            && (c.Conserved() && !c'.faulted ==> if CleanStep(c, op) then c'.Conserved() else Surplus(c'))
            && (Surplus(c) && !c'.faulted ==> Surplus(c'))
  {
    match op
    case SendOp(data, k) => if c.state == Connected { SendStream(c, data, k); }
    case SendInLoopOp(data, k) => if c.state != Disconnected { SendStream(c, data, k); }
    case HandleWriteOp(k) => DrainStream(code, c, k);
    case _ =>
  }

  /** The payload that an operation is given and has to accept: `send` on a connected connection, and a
      `sendInLoop` that another thread asked for, on one that is not closed. */
  function Given(c: Conn, op: Op): seq<Byte> {
    match op
    case SendOp(data, _) => if c.state == Connected then data else []
    case SendInLoopOp(data, _) => if c.state != Disconnected then data else []
    case _ => []
  }

  ghost function AllGiven(code: Code, c: Conn, ops: seq<Op>): seq<Byte>
    requires c.Valid() && Legal(code, c, ops)
    decreases |ops|
  {
    if ops == [] then [] else AllGiven(code, c, ops[..|ops| - 1]) + Given(Before(code, c, ops), ops[|ops| - 1])
  }

  lemma StepAccepts(code: Code, c: Conn, op: Op)
    requires c.Valid() && May(code, c, op)
    ensures Apply(code, c, op).conn.accepted == c.accepted + Given(c, op)
  {
    match op
    case SendOp(data, k) => SendAccepts(c, data, k);
    case SendInLoopOp(data, k) => if c.state != Disconnected { SendSummary(c, data, k); }
    case HandleWriteOp(k) => DrainStream(code, c, k);
    case _ =>
  }

  /** Over every run what has been accepted is what there was and then every payload given, whole and in
      order: none is lost on the way in, and none comes from elsewhere. */
  lemma {:induction false} AcceptedIsWhatWasGiven(code: Code, c: Conn, ops: seq<Op>)
    requires c.Valid() && Legal(code, c, ops)
    ensures Run(code, c, ops).accepted == c.accepted + AllGiven(code, c, ops)
    decreases |ops|
  {
    hide Apply, May, Given;
    if ops != [] {
      var before := ops[..|ops| - 1];
      AcceptedIsWhatWasGiven(code, c, before);
      StepAccepts(code, Run(code, c, before), ops[|ops| - 1]);
    }
  }

  /** Conservation, exactly: over every fault-free run, with any short writes and refusals and in either
      form of the code, the wire followed by the buffer is the accepted payloads in order just when no
      `writeFd` took more than was readable.  A violation is never made good later. */
  lemma {:induction false} StreamIsConservedExactlyWhenClean(code: Code, c: Conn, ops: seq<Op>)
    requires c.Valid() && c.Conserved() && Legal(code, c, ops) && !Run(code, c, ops).faulted
    ensures Run(code, c, ops).Conserved() <==> Clean(code, c, ops)
    ensures !Clean(code, c, ops) ==> Surplus(Run(code, c, ops))
    decreases |ops|
  {
    if ops != [] {
      StepStream(code, Before(code, c, ops), ops[|ops| - 1]);
      StreamIsConservedExactlyWhenClean(code, c, ops[..|ops| - 1]);
      LengthsAgree(Run(code, c, ops));
    }
  }

  /** With the readable length offered every run is clean. */
  lemma {:induction false} OfferingReadableIsClean(code: Code, c: Conn, ops: seq<Op>)
    requires code.offersReadable && c.Valid() && Legal(code, c, ops)
    ensures Clean(code, c, ops)
    decreases |ops|
  {
    if ops != [] {
      OfferingReadableIsClean(code, c, ops[..|ops| - 1]);
    }
  }

  /** As written, one `handleWrite` is safe against every kernel exactly when the free space is no larger
      than what is waiting; and with no free space at all it makes no progress. */
  lemma AsWrittenDrainIsSafeExactlyWhen(c: Conn)
    requires c.Valid() && c.Conserved() && IsWriting(c.events) && !c.broken
    ensures (forall k :: c.KernelMay(k, Offered(AS_WRITTEN, c.out)) ==> HandleWrite(AS_WRITTEN, c, k).conn.Conserved())
            <==> c.out.Writable() <= |c.Buffered()|
    ensures c.out.Writable() == 0 ==>
            forall k :: c.KernelMay(k, Offered(AS_WRITTEN, c.out)) ==> HandleWrite(AS_WRITTEN, c, k).conn.wire == c.wire
  {
    forall k | c.KernelMay(k, Offered(AS_WRITTEN, c.out))
      ensures c.out.Writable() <= |c.Buffered()| ==> HandleWrite(AS_WRITTEN, c, k).conn.Conserved()
    {
      DrainStream(AS_WRITTEN, c, k);
    }
    if c.out.Writable() > |c.Buffered()| {
      var k := Wrote(c.out.Writable());
      DrainStream(AS_WRITTEN, c, k);
      LengthsAgree(HandleWrite(AS_WRITTEN, c, k).conn);
      LengthsAgree(c);
    }
  }

  /** A connection that has just buffered one byte: the code as written may put a second, stale byte on the wire. */
  lemma StaleBytesCanReachTheWire(b: Byte)
    ensures var c := SendInLoop(Establish(NewConn(5, 100, true, true)).conn, [b], Failed(WouldBlock)).conn;
            && c.Valid() && c.Conserved() && c.KernelMay(Wrote(2), Offered(AS_WRITTEN, c.out))
            && var c' := HandleWrite(AS_WRITTEN, c, Wrote(2)).conn;
               c'.accepted == [b] && |c'.wire| == 2 && !c'.Conserved()
  {
  }

  // ---- Faults ----

  /** What a clean run keeps even when payloads are dropped: the stream so far is a prefix of what was
      accepted, and after a drop nothing more is ever buffered. */
  ghost predicate PrefixInv(c: Conn)
    requires c.Valid()
  {
    && c.wire + c.Buffered() <= c.accepted
    && (!c.faulted ==> c.Conserved())
    && (c.faulted ==> c.broken && c.Buffered() == [] && !IsWriting(c.events))
  }

  lemma StepKeepsPrefix(code: Code, c: Conn, op: Op)
    requires c.Valid() && May(code, c, op) && CleanStep(c, op) && PrefixInv(c)
    ensures PrefixInv(Apply(code, c, op).conn)
  {
    match op
    case SendOp(data, k) => if c.state == Connected { SendStream(c, data, k); SendSummary(c, data, k); }
    case SendInLoopOp(data, k) => if c.state != Disconnected { SendStream(c, data, k); SendSummary(c, data, k); }
    case HandleWriteOp(k) => DrainStream(code, c, k);
    case EstablishOp => WritingAfter(c.events, EnableReading);
    case CloseOp => WritingAfter(c.events, DisableAll);
    case DestroyOp => WritingAfter(c.events, DisableAll);
    case _ =>
  }

  /** With EPIPE and ECONNRESET sticky, as the kernel has them, what is on the wire is at every moment a
      prefix of the accepted payloads: a dropped payload is never followed by a later one. */
  lemma {:induction false} WireIsAlwaysAPrefix(code: Code, c: Conn, ops: seq<Op>)
    requires c.Valid() && PrefixInv(c) && Legal(code, c, ops) && Clean(code, c, ops)
    ensures PrefixInv(Run(code, c, ops)) && Run(code, c, ops).wire <= Run(code, c, ops).accepted
    decreases |ops|
  {
    if ops != [] {
      WireIsAlwaysAPrefix(code, c, ops[..|ops| - 1]);
      StepKeepsPrefix(code, Before(code, c, ops), ops[|ops| - 1]);
    }
  }

  // ---- The half-close ----

  /** Until the connection is closed: bytes wait only while writing is armed, and when it is not armed
      everything accepted is on the wire.  With both departures repaired, armed means bytes wait. */
  ghost predicate HalfInv(code: Code, c: Conn)
    requires c.Valid()
  {
    c.state != Disconnected ==>
      && (!IsWriting(c.events) ==> c.Buffered() == [] && (!c.faulted ==> c.wire == c.accepted))
      && (code.offersReadable && !c.faulted ==> c.Conserved())
      && (code.offersReadable && code.disarmsWhenDrained && IsWriting(c.events) ==> c.Buffered() != [])
  }

  /** Both the code as written and the code as intended; only disarming without the right length is left out. */
  predicate Sound(code: Code) {
    code.offersReadable || !code.disarmsWhenDrained
  }

  lemma StepKeepsHalf(code: Code, c: Conn, op: Op)
    requires c.Valid() && May(code, c, op) && Sound(code) && HalfInv(code, c)
    ensures HalfInv(code, Apply(code, c, op).conn)
  {
    match op
    case SendOp(data, k) => if c.state == Connected { SendKeepsHalf(code, c, data, k); }
    case SendInLoopOp(data, k) => if c.state != Disconnected { SendKeepsHalf(code, c, data, k); }
    case HandleWriteOp(k) => DrainKeepsHalf(code, c, k);
    case EstablishOp => WritingAfter(c.events, EnableReading);
    case _ =>
  }

  lemma SendKeepsHalf(code: Code, c: Conn, data: seq<Byte>, k: WriteResult)
    requires c.Valid() && c.KernelMay(k, |data|) && HalfInv(code, c) && c.state != Disconnected
    ensures SendInLoop(c, data, k).conn.Valid() && HalfInv(code, SendInLoop(c, data, k).conn)
  {
    SendStream(c, data, k);
    SendSummary(c, data, k);
    hide SendInLoop, IsWriting;
    var c' := SendInLoop(c, data, k).conn;
    assert c.wire + c.Buffered() == c.accepted ==> c.wire + c.Buffered() + data == c.accepted + data;
    if !IsWriting(c.events) {
      assert c.wire + c.Buffered() == c.wire;
      if !IsWriting(c'.events) {
        assert c'.Buffered() == [];
        assert c'.wire + c'.Buffered() == c'.wire;
      }
    }
  }

  lemma DrainKeepsHalf(code: Code, c: Conn, k: WriteResult)
    requires c.Valid() && c.KernelMay(k, Offered(code, c.out)) && Sound(code) && HalfInv(code, c)
    ensures HandleWrite(code, c, k).conn.Valid() && HalfInv(code, HandleWrite(code, c, k).conn)
  {
    if IsWriting(c.events) && k.Wrote? && k.n > 0 {
      DrainStream(code, c, k);
      DrainSummary(code, c, k);
      hide HandleWrite, IsWriting;
      var c' := HandleWrite(code, c, k).conn;
      assert c'.Buffered() == [] ==> c'.wire + c'.Buffered() == c'.wire;
    }
  }

  lemma {:induction false} RunKeepsHalf(code: Code, c: Conn, ops: seq<Op>)
    requires c.Valid() && Sound(code) && HalfInv(code, c) && Legal(code, c, ops)
    ensures HalfInv(code, Run(code, c, ops))
    decreases |ops|
  {
    if ops != [] {
      RunKeepsHalf(code, c, ops[..|ops| - 1]);
      StepKeepsHalf(code, Before(code, c, ops), ops[|ops| - 1]);
    }
  }

  /** Half-close safety: whenever a step of any run shuts the write side of a connection that is not
      closed and has lost nothing to a fault, every payload accepted so far is already on the wire. */
  lemma HalfCloseOnlyWhenAllIsSent(code: Code, c: Conn, ops: seq<Op>)
    requires c.Valid() && Sound(code) && HalfInv(code, c) && Legal(code, c, ops) && ops != []
    requires Run(code, c, ops).halfCloses > Before(code, c, ops).halfCloses
    requires Run(code, c, ops).state != Disconnected && !Run(code, c, ops).faulted
    ensures Run(code, c, ops).wire == Run(code, c, ops).accepted
  {
    RunKeepsHalf(code, c, ops);
    HalfCloseNeedsUnarmed(code, Before(code, c, ops), ops[|ops| - 1]);
  }

  lemma HalfCloseNeedsUnarmed(code: Code, c: Conn, op: Op)
    requires c.Valid() && May(code, c, op)
    ensures Apply(code, c, op).conn.halfCloses > c.halfCloses ==> !IsWriting(Apply(code, c, op).conn.events)
  {
    match op
    case SendOp(data, k) => if c.state == Connected { SendSummary(c, data, k); }
    case SendInLoopOp(data, k) => if c.state != Disconnected { SendSummary(c, data, k); }
    case HandleWriteOp(k) => if IsWriting(c.events) && k.Wrote? && k.n > 0 { DrainSummary(code, c, k); }
    case _ =>
  }

  /** What can happen to a connection until its close: everything but the close itself, including what other
      threads queued before or after a `shutdown()`. */
  predicate UntilClose(op: Op) {
    !op.EstablishOp? && !op.CloseOp? && !op.DestroyOp?
  }

  /** The bytes of a payload that `sendInLoop` accepts although the connection is shutting down: another
      thread queued it while the connection was connected. */
  function LateBytes(ops: seq<Op>): nat {
    if ops == [] then 0
    else LateBytes(ops[..|ops| - 1]) + if ops[|ops| - 1].SendInLoopOp? then |ops[|ops| - 1].data| else 0
  }

  /** The functors of other threads' `shutdown()` calls that run. */
  function LateShutdowns(ops: seq<Op>): nat {
    if ops == [] then 0
    else LateShutdowns(ops[..|ops| - 1]) + if ops[|ops| - 1].ShutdownInLoopOp? then 1 else 0
  }

  /** The `handleWrite` calls of a run that wrote something. */
  ghost function Successes(code: Code, c: Conn, ops: seq<Op>): nat
    requires c.Valid() && Legal(code, c, ops)
    decreases |ops|
  {
    if ops == [] then 0
    else
      var op := ops[|ops| - 1];
      Successes(code, c, ops[..|ops| - 1]) +
      if Drains(Before(code, c, ops), op) then 1 else 0
  }

  /** The step is a `handleWrite` that takes something out of the buffer. */
  predicate Drains(c: Conn, op: Op) {
    op.HandleWriteOp? && op.k.Wrote? && op.k.n > 0 && IsWriting(c.events)
  }

  /** Half-close progress, both departures repaired, with everything other threads may have queued.  Once
      `shutdownInLoop` has run, called by `shutdown()` in the loop's thread (then `c` is `MarkShutdown` of a
      connected connection) or as another thread's functor, each successful `handleWrite` takes at least one
      of the bytes that were waiting or came late, and until the half-close bytes wait; so no more successes
      than such bytes come before it.  It is never undone, and without further functors of that kind it
      happens at most once. */
  lemma {:induction false} HalfCloseFollowsTheDrain(c: Conn, ops: seq<Op>)
    requires c.Valid() && HalfInv(INTENDED, c) && c.state == Disconnecting
    requires Legal(INTENDED, ShutdownInLoop(c), ops) && forall op :: op in ops ==> UntilClose(op)
    ensures var s := Run(INTENDED, ShutdownInLoop(c), ops);
            && s.state == Disconnecting && HalfInv(INTENDED, s)
            && |s.Buffered()| + Successes(INTENDED, ShutdownInLoop(c), ops) <= |c.Buffered()| + LateBytes(ops)
            && c.halfCloses <= s.halfCloses <= c.halfCloses + 1 + LateShutdowns(ops)
            && (if s.halfCloses == c.halfCloses then IsWriting(s.events) && |s.Buffered()| > 0
                else !IsWriting(s.events) && s.broken)
    decreases |ops|
  {
    if ops != [] {
      var op := ops[|ops| - 1];
      assert op in ops;
      HalfCloseFollowsTheDrain(c, ops[..|ops| - 1]);
      var b := Before(INTENDED, ShutdownInLoop(c), ops);
      StepKeepsHalf(INTENDED, b, op);
      StepTowardsHalfClose(b, op);
      hide Apply, HalfInv, ShutdownInLoop, IsWriting;
    }
  }

  lemma StepTowardsHalfClose(c: Conn, op: Op)
    requires c.Valid() && HalfInv(INTENDED, c) && May(INTENDED, c, op)
    requires c.state == Disconnecting && UntilClose(op) && (IsWriting(c.events) || c.broken)
    ensures var c' := Apply(INTENDED, c, op).conn;
            && c'.state == Disconnecting
            && |c'.Buffered()| + (if Drains(c, op) then 1 else 0)
               <= |c.Buffered()| + (if op.SendInLoopOp? then |op.data| else 0)
            && (IsWriting(c'.events) ==> c'.halfCloses == c.halfCloses && IsWriting(c.events))
            && (!IsWriting(c'.events) ==> c'.broken)
            && (!IsWriting(c'.events) ==>
                  c'.halfCloses == c.halfCloses + (if IsWriting(c.events) || op.ShutdownInLoopOp? then 1 else 0))
  {
    match op
    case SendInLoopOp(data, k) => SendSummary(c, data, k);
    case HandleWriteOp(k) => if Drains(c, op) { DrainSummary(INTENDED, c, k); }
    case _ =>
  }

  /** As written, the drain never disarms: `shutdownInLoop` half-closes just when writing is not armed at that
      moment, and then at once (and again for every further functor of another thread's `shutdown()`); if it
      is armed, no half-close ever follows, whatever other threads have queued. */
  lemma {:induction false} AsWrittenHalfCloseExactly(c: Conn, ops: seq<Op>)
    requires c.Valid() && HalfInv(AS_WRITTEN, c) && c.state == Disconnecting
    requires Legal(AS_WRITTEN, ShutdownInLoop(c), ops) && forall op :: op in ops ==> UntilClose(op)
    ensures var s := Run(AS_WRITTEN, ShutdownInLoop(c), ops);
            && s.halfCloses == c.halfCloses + (if IsWriting(c.events) then 0 else 1 + LateShutdowns(ops))
            && s.state == Disconnecting && HalfInv(AS_WRITTEN, s) && IsWriting(s.events) == IsWriting(c.events)
            && (!IsWriting(s.events) ==> s.broken)
    decreases |ops|
  {
    if ops != [] {
      var op := ops[|ops| - 1];
      assert op in ops;
      AsWrittenHalfCloseExactly(c, ops[..|ops| - 1]);
      var b := Before(AS_WRITTEN, ShutdownInLoop(c), ops);
      StepKeepsHalf(AS_WRITTEN, b, op);
      StepAsWritten(b, op);
      hide Apply, HalfInv, ShutdownInLoop, IsWriting;
    }
  }

  lemma StepAsWritten(c: Conn, op: Op)
    requires c.Valid() && HalfInv(AS_WRITTEN, c) && May(AS_WRITTEN, c, op)
    requires c.state == Disconnecting && UntilClose(op) && (IsWriting(c.events) || c.broken)
    ensures var c' := Apply(AS_WRITTEN, c, op).conn;
            && c'.state == Disconnecting && IsWriting(c'.events) == IsWriting(c.events)
            && (!IsWriting(c.events) ==> c'.broken)
            && c'.halfCloses == c.halfCloses + if !IsWriting(c.events) && op.ShutdownInLoopOp? then 1 else 0
  {
    match op
    case SendInLoopOp(data, k) => SendSummary(c, data, k);
    case HandleWriteOp(k) => if Drains(c, op) { DrainSummary(AS_WRITTEN, c, k); }
    case _ =>
  }

  /** `shutdown()` in the loop's thread: a connected connection is marked and, exactly when writing is not
      armed, half-closed at once; in any other state nothing happens. */
  lemma ShutdownActsAtOnce(c: Conn)
    ensures c.state == Connected ==>
              var c' := Shutdown(c);
              && c'.state == Disconnecting && c'.halfCloses == c.halfCloses + (if IsWriting(c.events) then 0 else 1)
              && c' == c.(state := Disconnecting, halfCloses := c'.halfCloses, broken := c'.broken)
              && (c'.broken <==> c.broken || !IsWriting(c.events))
    ensures c.state != Connected ==> Shutdown(c) == c
  {
  }

  /** Half-close progress, from `shutdown()` on a connected connection in the loop's thread: the statement of
      `HalfCloseFollowsTheDrain`, with the half-close at once when writing is not armed. */
  lemma ShutdownLeadsToTheHalfClose(c: Conn, ops: seq<Op>)
    requires c.Valid() && HalfInv(INTENDED, c) && c.state == Connected
    requires Legal(INTENDED, Shutdown(c), ops) && forall op :: op in ops ==> UntilClose(op)
    ensures var s := Run(INTENDED, Shutdown(c), ops);
            && s.state == Disconnecting
            && |s.Buffered()| + Successes(INTENDED, Shutdown(c), ops) <= |c.Buffered()| + LateBytes(ops)
            && c.halfCloses + (if IsWriting(c.events) then 0 else 1) <= s.halfCloses
            && s.halfCloses <= c.halfCloses + 1 + LateShutdowns(ops)
            && (if s.halfCloses == c.halfCloses then IsWriting(s.events) && |s.Buffered()| > 0
                else !IsWriting(s.events) && s.broken)
  {
    ShutdownActsAtOnce(c);
    var marked := MarkShutdown(c);
    assert marked.Valid() && marked.Buffered() == c.Buffered() && HalfInv(INTENDED, marked);
    assert Shutdown(c) == ShutdownInLoop(marked);
    HalfCloseFollowsTheDrain(marked, ops);
    HalfClosesOnlyGrow(INTENDED, Shutdown(c), ops);
  }

  lemma {:induction false} HalfClosesOnlyGrow(code: Code, c: Conn, ops: seq<Op>)
    requires c.Valid() && Legal(code, c, ops)
    ensures Run(code, c, ops).halfCloses >= c.halfCloses
    decreases |ops|
  {
    if ops != [] {
      HalfClosesOnlyGrow(code, c, ops[..|ops| - 1]);
      HalfClosesGrow(code, Before(code, c, ops), ops[|ops| - 1]);
      hide Apply;
    }
  }

  lemma HalfClosesGrow(code: Code, c: Conn, op: Op)
    requires c.Valid() && May(code, c, op)
    ensures Apply(code, c, op).conn.halfCloses >= c.halfCloses
  {
    match op
    case SendOp(data, k) => if c.state == Connected { SendSummary(c, data, k); }
    case SendInLoopOp(data, k) => if c.state != Disconnected { SendSummary(c, data, k); }
    case HandleWriteOp(k) => if Drains(c, op) { DrainSummary(code, c, k); }
    case _ =>
  }

  /** As written, from `shutdown()` on a connected connection in the loop's thread. */
  lemma AsWrittenShutdownExactly(c: Conn, ops: seq<Op>)
    requires c.Valid() && HalfInv(AS_WRITTEN, c) && c.state == Connected
    requires Legal(AS_WRITTEN, Shutdown(c), ops) && forall op :: op in ops ==> UntilClose(op)
    ensures var s := Run(AS_WRITTEN, Shutdown(c), ops);
            && s.state == Disconnecting && IsWriting(s.events) == IsWriting(c.events)
            && s.halfCloses == c.halfCloses + (if IsWriting(c.events) then 0 else 1 + LateShutdowns(ops))
  {
    var marked := MarkShutdown(c);
    assert marked.Valid() && marked.Buffered() == c.Buffered() && HalfInv(AS_WRITTEN, marked);
    assert Shutdown(c) == ShutdownInLoop(marked);
    AsWrittenHalfCloseExactly(marked, ops);
  }

  /** The half-close that never comes: one byte has to be buffered, `shutdown()` is called, and the byte goes
      out; everything is on the wire, and the code as written does not half-close. */
  lemma TheHalfCloseCanBeLost(b: Byte)
    ensures var c := SendInLoop(Establish(NewConn(5, 100, true, true)).conn, [b], Failed(WouldBlock)).conn;
            && c.Valid() && Shutdown(c).KernelMay(Wrote(1), Offered(AS_WRITTEN, c.out))
            && var c' := HandleWrite(AS_WRITTEN, Shutdown(c), Wrote(1)).conn;
               c'.state == Disconnecting && c'.wire == c'.accepted == [b] && c'.halfCloses == 0
  {
  }

  /** Some step of the run put bytes in the buffer. */
  ghost predicate EverBuffered(code: Code, c: Conn, ops: seq<Op>)
    requires c.Valid() && Legal(code, c, ops)
    decreases |ops|
  {
    ops != [] && (EverBuffered(code, c, ops[..|ops| - 1]) ||
                  |Run(code, c, ops).Buffered()| > |Before(code, c, ops).Buffered()|)
  }

  /** As written and until the close, writing is armed just when some payload ever had to be buffered. */
  lemma {:induction false} AsWrittenArmedExactly(c: Conn, ops: seq<Op>)
    requires c.Valid() && !IsWriting(c.events) && Legal(AS_WRITTEN, c, ops)
    requires !Run(AS_WRITTEN, c, ops).state.Disconnected?
    ensures IsWriting(Run(AS_WRITTEN, c, ops).events) <==> EverBuffered(AS_WRITTEN, c, ops)
    decreases |ops|
  {
    if ops != [] {
      var b := Before(AS_WRITTEN, c, ops);
      RankNeverDecreases(AS_WRITTEN, b, ops[|ops| - 1]);
      AsWrittenArmedExactly(c, ops[..|ops| - 1]);
      ArmedAfterStep(b, ops[|ops| - 1]);
    }
  }

  lemma ArmedAfterStep(c: Conn, op: Op)
    requires c.Valid() && May(AS_WRITTEN, c, op) && Apply(AS_WRITTEN, c, op).conn.state != Disconnected
    ensures var c' := Apply(AS_WRITTEN, c, op).conn;
            IsWriting(c'.events) <==> IsWriting(c.events) || |c'.Buffered()| > |c.Buffered()|
  {
    match op
    case SendOp(data, k) => if c.state == Connected { SendSummary(c, data, k); }
    case SendInLoopOp(data, k) => if c.state != Disconnected { SendSummary(c, data, k); }
    case HandleWriteOp(k) => if IsWriting(c.events) && k.Wrote? && k.n > 0 { DrainSummary(AS_WRITTEN, c, k); }
    case EstablishOp => WritingAfter(c.events, EnableReading);
    case _ =>
  }

  lemma ArmedStaysPut(events: Mask)
    requires IsWriting(events)
    ensures Changed(events, EnableWriting) == events
  {
  }

  // ---- Callbacks ----

  /** The step leaves nothing to send: a payload taken whole by a direct write, if the user asked to be told,
      or a drain that empties the buffer. */
  ghost predicate Completes(code: Code, c: Conn, op: Op)
    requires c.Valid() && May(code, c, op)
  {
    match op
    case SendOp(data, k) => c.state == Connected && WritesDirectly(c) && k == Wrote(|data|) && c.hasWriteComplete
    case SendInLoopOp(data, k) => c.state != Disconnected && WritesDirectly(c) && k == Wrote(|data|) && c.hasWriteComplete
    case HandleWriteOp(k) =>
      IsWriting(c.events) && k.Wrote? && k.n > 0 && Apply(code, c, op).conn.Buffered() == []
    case _ => false
  }

  /** At any point of any run, in either form of the code: a high-water callback is queued exactly when the
      buffer crosses the mark upwards, and it reports the new length; a write-complete callback exactly when
      a step leaves nothing to send, and as long as no `writeFd` took more than was readable, everything
      accepted is then on the wire. */
  lemma CallbacksMeanWhatTheySay(code: Code, c: Conn, ops: seq<Op>, op: Op)
    requires c.Valid() && c.Conserved() && Legal(code, c, ops) && May(code, Run(code, c, ops), op)
    ensures var b := Run(code, c, ops); var e := Apply(code, b, op);
            && (forall n :: HighWater(n) in e.notes <==>
                  b.hasHighWater && |b.Buffered()| < b.highWaterMark <= |e.conn.Buffered()| && n == |e.conn.Buffered()|)
            && (WriteComplete in e.notes <==> Completes(code, b, op))
            && (Clean(code, c, ops) && CleanStep(b, op) && WriteComplete in e.notes && !e.conn.faulted ==>
                  e.conn.wire == e.conn.accepted)
  {
    var b := Run(code, c, ops);
    StepNotes(code, b, op);
    StepStream(code, b, op);
    if !b.faulted {
      StreamIsConservedExactlyWhenClean(code, c, ops);
    }
    hide Apply, Run, Legal, Completes;
    var c' := Apply(code, b, op).conn;
    assert c'.Buffered() == [] ==> c'.wire + c'.Buffered() == c'.wire;
  }

  lemma StepNotes(code: Code, c: Conn, op: Op)
    requires c.Valid() && May(code, c, op)
    ensures var e := Apply(code, c, op);
            && (WriteComplete in e.notes ==> e.conn.Buffered() == [])
            && (WriteComplete in e.notes <==> Completes(code, c, op))
            && (forall n :: HighWater(n) in e.notes <==>
                  c.hasHighWater && |c.Buffered()| < c.highWaterMark <= |e.conn.Buffered()| && n == |e.conn.Buffered()|)
  {
    match op
    case SendOp(data, k) => if c.state == Connected { SendNotes(c, data, k); }
    case SendInLoopOp(data, k) => if c.state != Disconnected { SendNotes(c, data, k); }
    case HandleWriteOp(k) => if IsWriting(c.events) && k.Wrote? && k.n > 0 { DrainSummary(code, c, k); }
    case _ =>
  }

  /** Without a successful `handleWrite` the buffer does not shrink. */
  lemma {:induction false} OnlyDrainsShrink(code: Code, c: Conn, ops: seq<Op>)
    requires c.Valid() && Legal(code, c, ops) && Successes(code, c, ops) == 0
    ensures |Run(code, c, ops).Buffered()| >= |c.Buffered()| && Run(code, c, ops).highWaterMark == c.highWaterMark
    decreases |ops|
  {
    if ops != [] {
      OnlyDrainsShrink(code, c, ops[..|ops| - 1]);
      var b := Before(code, c, ops);
      StepShrinks(code, b, ops[|ops| - 1]);
    }
  }

  lemma StepShrinks(code: Code, c: Conn, op: Op)
    requires c.Valid() && May(code, c, op)
    ensures var c' := Apply(code, c, op).conn;
            && c'.highWaterMark == c.highWaterMark && c'.fd == c.fd
            && (!Drains(c, op) ==> |c'.Buffered()| >= |c.Buffered()|)
            && Rank(c'.state) >= Rank(c.state)
  {
    hide SendInLoop, HandleWrite;
    match op
    case SendOp(data, k) => SendShrinks(c, data, k);
    case SendInLoopOp(data, k) => SendShrinks(c, data, k);
    case HandleWriteOp(k) => DrainShrinks(code, c, k);
    case _ =>
  }

  lemma SendShrinks(c: Conn, data: seq<Byte>, k: WriteResult)
    requires c.Valid() && c.KernelMay(k, |data|)
    ensures var c' := SendInLoop(c, data, k).conn;
            && c'.Valid() && c'.highWaterMark == c.highWaterMark && c'.fd == c.fd
            && |c'.Buffered()| >= |c.Buffered()| && c'.state == c.state
  {
    if c.state != Disconnected {
      SendSummary(c, data, k);
      SendNotes(c, data, k);
      hide SendInLoop;
    }
  }

  lemma DrainShrinks(code: Code, c: Conn, k: WriteResult)
    requires c.Valid() && c.KernelMay(k, Offered(code, c.out))
    ensures var c' := HandleWrite(code, c, k).conn;
            && c'.Valid() && c'.highWaterMark == c.highWaterMark && c'.fd == c.fd && c'.state == c.state
            && (!Drains(c, HandleWriteOp(k)) ==> |c'.Buffered()| >= |c.Buffered()|)
  {
    if Drains(c, HandleWriteOp(k)) {
      DrainSummary(code, c, k);
      hide HandleWrite;
    }
  }

  /** Two high-water callbacks are separated by a drain: the buffer went below the mark in between. */
  lemma HighWatersAreSeparated(code: Code, c: Conn, first: Op, ops: seq<Op>, last: Op, m: nat, n: nat)
    requires c.Valid() && May(code, c, first) && HighWater(m) in Apply(code, c, first).notes
    requires var c1 := Apply(code, c, first).conn;
             && Legal(code, c1, ops) && May(code, Run(code, c1, ops), last)
             && HighWater(n) in Apply(code, Run(code, c1, ops), last).notes
    ensures var c1 := Apply(code, c, first).conn;
            Successes(code, c1, ops) > 0 && |Run(code, c1, ops).Buffered()| < c.highWaterMark <= |c1.Buffered()|
  {
    var c1 := Apply(code, c, first).conn;
    MarkIsFixed(code, c1, ops);
    CallbackCrosses(code, c, first, m);
    CallbackCrosses(code, Run(code, c1, ops), last, n);
    StepShrinks(code, c, first);
    hide Apply;
    if Successes(code, c1, ops) == 0 {
      OnlyDrainsShrink(code, c1, ops);
    }
  }

  lemma CallbackCrosses(code: Code, c: Conn, op: Op, n: nat)
    requires c.Valid() && May(code, c, op) && HighWater(n) in Apply(code, c, op).notes
    ensures |c.Buffered()| < c.highWaterMark <= |Apply(code, c, op).conn.Buffered()|
  {
    match op
    case SendOp(data, k) => SendNotes(c, data, k);
    case SendInLoopOp(data, k) => SendNotes(c, data, k);
    case HandleWriteOp(k) => DrainSummary(code, c, k);
  }

  lemma {:induction false} MarkIsFixed(code: Code, c: Conn, ops: seq<Op>)
    requires c.Valid() && Legal(code, c, ops)
    ensures Run(code, c, ops).highWaterMark == c.highWaterMark && Run(code, c, ops).fd == c.fd
    decreases |ops|
  {
    if ops != [] {
      MarkIsFixed(code, c, ops[..|ops| - 1]);
      StepShrinks(code, Before(code, c, ops), ops[|ops| - 1]);
    }
  }

  // ---- Interest ----

  /** An open connection asks for input whatever else it asks for; a closed one asks for nothing. */
  ghost predicate InterestInv(c: Conn) {
    && (c.state == Connected || c.state == Disconnecting ==> c.events & READ == READ)
    && (c.state == Disconnected ==> c.events == NONE)
  }

  lemma StepKeepsInterest(code: Code, c: Conn, op: Op)
    requires c.Valid() && May(code, c, op) && InterestInv(c)
    ensures InterestInv(Apply(code, c, op).conn)
  {
    hide SendInLoop, HandleWrite, IsWriting, Buf.Readable;
    match op
    case SendOp(data, k) => SendKeepsInterest(c, data, k);
    case SendInLoopOp(data, k) => SendKeepsInterest(c, data, k);
    case HandleWriteOp(k) => DrainKeepsInterest(code, c, k);
    case EstablishOp => SetRead(c.events);
    case _ =>
  }

  lemma SendKeepsInterest(c: Conn, data: seq<Byte>, k: WriteResult)
    requires c.Valid() && c.KernelMay(k, |data|) && InterestInv(c)
    ensures InterestInv(SendInLoop(c, data, k).conn)
  {
  }

  lemma DrainKeepsInterest(code: Code, c: Conn, k: WriteResult)
    requires c.Valid() && c.KernelMay(k, Offered(code, c.out)) && InterestInv(c)
    ensures InterestInv(HandleWrite(code, c, k).conn)
  {
  }

  /** Over every run: from its establishment until its close a connection can notice its peer. */
  lemma {:induction false} ListensUntilClosed(code: Code, c: Conn, ops: seq<Op>)
    requires c.Valid() && InterestInv(c) && Legal(code, c, ops)
    ensures InterestInv(Run(code, c, ops))
    decreases |ops|
  {
    if ops != [] {
      ListensUntilClosed(code, c, ops[..|ops| - 1]);
      StepKeepsInterest(code, Before(code, c, ops), ops[|ops| - 1]);
    }
  }

  // ---- The life of a connection ----

  /** No operation moves the state back, and a closed connection stays closed. */
  lemma RankNeverDecreases(code: Code, c: Conn, op: Op)
    requires c.Valid() && May(code, c, op)
    ensures Rank(Apply(code, c, op).conn.state) >= Rank(c.state)
    ensures Apply(code, c, op).conn.fd == c.fd
  {
    StepShrinks(code, c, op);
  }
}
