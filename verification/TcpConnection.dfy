/** The objects of TcpConnection.cc and TcpServer.cc, code as written, each method proved to do what the
    function of the same name in `Connections` does to the connection's `View()`. */
module TcpConnections {
  import opened Buffers
  import opened EpollPollers
  import opened Connections
  import L = EventLoops
  import N = Names

  /** What a connection puts in its loop's queue: its callbacks, its destruction, and the calls that another
      thread hands over. */
  datatype Functor =
    | Notify(conn: TcpConnection, note: Note)
    | DestroyLater(conn: TcpConnection)
    | SendLater(conn: TcpConnection, data: seq<Byte>)
    | ShutdownLater(conn: TcpConnection)

  /** What `readv` does: it delivers bytes, none at the end of the stream, or fails. */
  datatype Input = Delivered(data: seq<Byte>) | ReadFailed

  /** The loop's thread may queue here. */
  ghost predicate InLoop(s: L.Loop<Functor>) {
    !s.mustWake && (s.pc.Dispatching? || s.pc.Running? || s.pc.Stopped?)
  }

  /** The loop's thread has queued `f`. */
  ghost predicate Pushed(s: L.Loop<Functor>, s': L.Loop<Functor>, f: Functor) {
    InLoop(s) && InLoop(s') && s' == L.Queued(s, L.Own, f)
  }

  /** The queue after the callbacks of an effect. */
  ghost function AfterNotes(s: L.Loop<Functor>, conn: TcpConnection, notes: seq<Note>): (s': L.Loop<Functor>)
    requires InLoop(s)
    ensures InLoop(s')
  {
    if notes == [] then s else L.Queued(s, L.Own, Notify(conn, notes[0]))
  }

  /** The callback queued when `remaining` more bytes have to wait. */
  function HighWaterNotes(c: Conn, remaining: nat): seq<Note>
    requires c.Valid()
  {
    var oldLen := |c.Buffered()|;
    if oldLen + remaining >= c.highWaterMark && oldLen < c.highWaterMark && c.hasHighWater
    then [HighWater(oldLen + remaining)] else []
  }

  lemma NoNotes(s: L.Loop<Functor>, conn: TcpConnection)
    requires InLoop(s)
    ensures AfterNotes(s, conn, []) == s
  {
  }

  /** The connection after the direct write of `sendInLoop`, if it makes one. */
  function Tried(c: Conn, data: seq<Byte>, k: WriteResult): (t: Conn)
    requires c.Valid() && c.KernelMay(k, |data|)
    ensures t.Valid() && t.out == c.out && t.events == c.events
  {
    c.(wire := c.wire + data[..Taken(c, k)], faulted := c.faulted || Drops(c, k), broken := c.broken || Drops(c, k))
  }

  /** The callback queued when the direct write took everything. */
  function TriedNotes(c: Conn, data: seq<Byte>, k: WriteResult): seq<Note>
    requires c.Valid() && c.KernelMay(k, |data|)
  {
    if WritesDirectly(c) && k.Wrote? && Taken(c, k) == |data| && c.hasWriteComplete then [WriteComplete] else []
  }

  /** `sendInLoop` is its direct write, then the keeping of what is left. */
  lemma SendParts(c: Conn, data: seq<Byte>, k: WriteResult)
    requires c.Valid() && c.KernelMay(k, |data|)
    ensures var e := SendInLoop(c, data, k);
            var sent := Tried(c, data, k).(accepted := c.accepted + data);
            var rest := data[Taken(c, k)..];
            if c.state == Disconnected then e == Quiet(c)
            else if !Drops(c, k) && |rest| > 0 then
              && TriedNotes(c, data, k) == []
              && e == Effect(sent.(out := c.out.Append(rest), events := Changed(c.events, EnableWriting)),
                             !IsWriting(c.events), HighWaterNotes(sent, |rest|))
            else e == Effect(sent, false, TriedNotes(c, data, k))
  {
    hide Buf.Append, Buf.Readable, Changed, IsWriting;
  }

  /** `handleWrite` as written is its write, and a half-close that finds writing armed. */
  lemma DrainParts(c: Conn, k: WriteResult)
    requires c.Valid() && c.KernelMay(k, Offered(AS_WRITTEN, c.out))
    ensures c.out.Retrieve(if k.Wrote? then k.n else 0).Valid()
    ensures var e := HandleWrite(AS_WRITTEN, c, k);
            if !IsWriting(c.events) then e == Quiet(c)
            else if k.Wrote? && k.n > 0 then
              var left := c.(wire := c.wire + c.out.Window(k.n), out := c.out.Retrieve(k.n));
              e == Effect(if c.state == Disconnecting then ShutdownInLoop(left) else left, false,
                          if |left.Buffered()| == 0 then [WriteComplete] else [])
            else e == Quiet(c.(broken := c.broken || IsFault(k)))
  {
  }

  class TcpConnection {
    const loop: L.EventLoop<Functor>
    const name: string
    const channel: Channel
    const inputBuffer: Buffer
    const outputBuffer: Buffer
    const highWaterMark: nat
    const hasWriteComplete: bool
    const hasHighWater: bool
    /** The server to which `closeCallback_` is bound. */
    const server: TcpServer
    var state: State
    /** The payloads accepted, the bytes on the wire, the calls of `shutdownWrite`, and the socket's faults. */
    ghost var accepted: seq<Byte>
    ghost var wire: seq<Byte>
    ghost var halfCloses: nat
    ghost var faulted: bool
    ghost var broken: bool

    ghost function Poller(): EPollPoller {
      channel.poller
    }

    ghost predicate Valid()
      reads this, channel, Poller(), Poller().chans.Keys, loop
      reads inputBuffer, inputBuffer.data, outputBuffer, outputBuffer.data
    {
      && Poller().Valid() && Poller().Knows(channel)
      && inputBuffer.Valid() && outputBuffer.Valid()
      && inputBuffer != outputBuffer && inputBuffer.data != outputBuffer.data
      && loop.Valid() && InLoop(loop.Run())
    }

    ghost function View(): Conn
      reads this, channel, outputBuffer, outputBuffer.data
    {
      Conn(channel.fd, state, channel.events, outputBuffer.State(), highWaterMark, hasWriteComplete, hasHighWater,
           accepted, wire, halfCloses, faulted, broken)
    }

    constructor (loop: L.EventLoop<Functor>, poller: EPollPoller, server: TcpServer, name: string, sockfd: int,
                 highWaterMark: nat, hasWriteComplete: bool, hasHighWater: bool)
      requires poller.Valid() && sockfd !in poller.view.channels && loop.Valid() && InLoop(loop.Run())
      ensures this.loop == loop && this.server == server && this.name == name && channel.poller == poller
      ensures fresh(channel) && channel.index == New && !channel.tied
      ensures fresh(inputBuffer) && fresh(inputBuffer.data) && fresh(outputBuffer) && fresh(outputBuffer.data)
      ensures Valid() && View() == NewConn(sockfd, highWaterMark, hasWriteComplete, hasHighWater)
      ensures state == Connecting && channel.fd == sockfd && channel.events == NONE
      ensures this.highWaterMark == highWaterMark
      ensures this.hasWriteComplete == hasWriteComplete && this.hasHighWater == hasHighWater
      ensures inputBuffer.Contents() == outputBuffer.Contents() == accepted == wire == []
      ensures halfCloses == 0 && !faulted && !broken
    {
      this.loop, this.server, this.name := loop, server, name;
      this.highWaterMark, this.hasWriteComplete, this.hasHighWater := highWaterMark, hasWriteComplete, hasHighWater;
      channel := new Channel(poller, sockfd);
      inputBuffer := new Buffer();
      outputBuffer := new Buffer();
      state := Connecting;
      accepted, wire, halfCloses, faulted, broken := [], [], 0, false, false;
    }

    /** `send` in the loop's thread. */
    method Send(data: seq<Byte>, k: WriteResult)
      requires Valid() && View().KernelMay(k, |data|)
      modifies this, channel, Poller(), outputBuffer, outputBuffer.data, loop
      ensures Valid() && (outputBuffer.data == old(outputBuffer.data) || fresh(outputBuffer.data))
      ensures Did(old(View()), View(), Connections.Send(old(View()), data, k),
                  old(Poller().view), Poller().view, old(loop.Run()), loop.Run())
      ensures accepted == old(accepted) + if old(state) == Connected then data else []
      ensures state == old(state)
      ensures state == Connected && !Drops(old(View()), k) ==>
                wire + outputBuffer.Contents() == old(wire) + old(outputBuffer.Contents()) + data
    {
      SendAccepts(View(), data, k);
      hide Connections.SendInLoop, Drops;
      if state == Connected {
        SendInLoop(data, k);
      }
    }

    /** The test that `send` begins with in another thread; whatever the loop's thread does comes in between. */
    method TestSend() returns (connected: bool)
      ensures connected == (state == Connected)
    {
      connected := state == Connected;
    }

    /** The rest of `send` in another thread, whatever has become of the connection since the test. */
    method PushSend(tid: L.Tid, data: seq<Byte>)
      requires loop.Valid() && L.Enabled(loop.Run(), L.Push(tid, SendLater(this, data)))
      modifies loop
      ensures loop.Valid() && loop.Run() == L.Queued(old(loop.Run()), L.Other(tid), SendLater(this, data))
    {
      hide L.Legal, L.Exec, L.InOrder, L.Phases;
      var _ := loop.RunInLoop(L.Other(tid), SendLater(this, data));
    }

    /** The effect `e` has happened: to the connection, to the poller and to the loop's queue. */
    ghost predicate Did(before: Conn, after: Conn, e: Effect, poller: Epoll<Channel>, poller': Epoll<Channel>,
                        loop: L.Loop<Functor>, loop': L.Loop<Functor>)
    {
      && after == e.conn
      && poller' == (if e.updates then poller.UpdateChannel(channel, Chan(e.conn.fd, e.conn.events)) else poller)
      && InLoop(loop) && loop' == AfterNotes(loop, this, e.notes)
    }

    /** `queueInLoop` of a callback bound to this connection. */
    method Queue(note: Note)
      requires Valid()
      modifies loop
      ensures Valid() && loop.Run() == AfterNotes(old(loop.Run()), this, [note])
    {
      hide L.Legal, L.Exec, L.InOrder, L.Phases, Agrees;
      loop.QueueInLoop(L.Own, Notify(this, note));
    }

    method SendInLoop(data: seq<Byte>, k: WriteResult)
      requires Valid() && View().KernelMay(k, |data|)
      modifies this, channel, Poller(), outputBuffer, outputBuffer.data, loop
      ensures Valid() && (outputBuffer.data == old(outputBuffer.data) || fresh(outputBuffer.data))
      ensures Did(old(View()), View(), Connections.SendInLoop(old(View()), data, k),
                  old(Poller().view), Poller().view, old(loop.Run()), loop.Run())
    {
      hide Connections.SendInLoop, L.Legal, L.Exec, L.InOrder, L.Phases, L.Queued, Agrees, Buf.Append, Changed,
           Epoll.UpdateChannel, Taken, Drops, TriedNotes, HighWaterNotes, AfterNotes, EPollPoller.Valid, EPollPoller.Coupled,
           IsWriting, Buf.Readable, L.Step, Connections.WritesDirectly;
      NoNotes(loop.Run(), this);
      SendParts(View(), data, k);
      if state == Disconnected {
        return;
      }
      var nwrote, remaining, faultError := TryWrite(data, k);
      accepted := accepted + data;
      if !faultError && remaining > 0 {
        Keep(data[nwrote..]);
      }
    }

    /** The first half of `sendInLoop`: if nothing is armed and nothing waits, the kernel is asked at once. */
    method TryWrite(data: seq<Byte>, k: WriteResult) returns (nwrote: nat, remaining: nat, faultError: bool)
      requires Valid() && View().KernelMay(k, |data|)
      modifies this`wire, this`faulted, this`broken, loop
      ensures Valid() && View() == Tried(old(View()), data, k)
      ensures nwrote == Taken(old(View()), k) && remaining == |data| - nwrote && faultError == Drops(old(View()), k)
      ensures loop.Run() == AfterNotes(old(loop.Run()), this, TriedNotes(old(View()), data, k))
    {
      hide L.Legal, L.Exec, L.InOrder, L.Phases, AfterNotes, Agrees;
      NoNotes(loop.Run(), this);
      nwrote, remaining, faultError := 0, |data|, false;
      var waiting := outputBuffer.ReadableBytes();
      if !IsWriting(channel.events) && waiting == 0 {
        match k {
          case Wrote(n) =>
            nwrote := n;
            wire := wire + data[..n];
            remaining := |data| - nwrote;
            if remaining == 0 && hasWriteComplete {
              Queue(WriteComplete);
            }
          case Failed(errno) =>
            if errno != WouldBlock {
              if errno == Pipe || errno == Reset {
                faultError := true;
                faulted, broken := true, true;
              }
            }
        }
      }
      assert data[..0] == [];
    }

    /** The second half: what the kernel did not take is kept, and writing is armed. */
    method Keep(rest: seq<Byte>)
      requires Valid() && |rest| > 0
      modifies channel, Poller(), outputBuffer, outputBuffer.data, loop
      ensures Valid() && (outputBuffer.data == old(outputBuffer.data) || fresh(outputBuffer.data))
      ensures View() == old(View()).(out := old(outputBuffer.State()).Append(rest),
                                     events := Changed(old(channel.events), EnableWriting))
      ensures Poller().view == if IsWriting(old(channel.events)) then old(Poller().view)
                               else old(Poller().view).UpdateChannel(channel, channel.AsChan())
      ensures loop.Run() == AfterNotes(old(loop.Run()), this, HighWaterNotes(old(View()), |rest|))
    {
      hide L.Legal, L.Exec, L.InOrder, L.Phases, Agrees, Buf.Append, Epoll.UpdateChannel, AfterNotes, HighWaterNotes;
      Hold(rest);
      Arm();
    }

    /** What the kernel did not take waits in the output buffer. */
    method Hold(rest: seq<Byte>)
      requires Valid() && |rest| > 0
      modifies outputBuffer, outputBuffer.data, loop
      ensures Valid() && (outputBuffer.data == old(outputBuffer.data) || fresh(outputBuffer.data))
      ensures View() == old(View()).(out := old(outputBuffer.State()).Append(rest))
      ensures loop.Run() == AfterNotes(old(loop.Run()), this, HighWaterNotes(old(View()), |rest|))
    {
      hide L.Legal, L.Exec, L.InOrder, L.Phases, AfterNotes, Agrees, Buf.Append;
      NoNotes(loop.Run(), this);
      var oldLen := outputBuffer.ReadableBytes();
      if oldLen + |rest| >= highWaterMark && oldLen < highWaterMark && hasHighWater {
        Queue(HighWater(oldLen + |rest|));
      }
      outputBuffer.Append(rest);
    }

    /** `enableWriting`, unless it is. */
    method Arm()
      requires Valid()
      modifies channel, Poller()
      ensures Valid()
      ensures View() == old(View()).(events := Changed(old(channel.events), EnableWriting))
      ensures Poller().view == if IsWriting(old(channel.events)) then old(Poller().view)
                               else old(Poller().view).UpdateChannel(channel, channel.AsChan())
    {
      hide L.Legal, L.Exec, L.InOrder, L.Phases, Agrees, Epoll.UpdateChannel;
      if !IsWriting(channel.events) {
        channel.Set(EnableWriting);
      } else {
        ArmedStaysPut(channel.events);
      }
    }

    method HandleWrite(k: WriteResult)
      requires Valid() && View().KernelMay(k, Offered(AS_WRITTEN, outputBuffer.State()))
      modifies this`wire, this`halfCloses, this`broken, outputBuffer, loop
      ensures Valid()
      ensures Did(old(View()), View(), Connections.HandleWrite(AS_WRITTEN, old(View()), k),
                  old(Poller().view), Poller().view, old(loop.Run()), loop.Run())
    {
      hide Connections.HandleWrite, L.Legal, L.Exec, L.InOrder, L.Phases, L.Queued, L.Step, Agrees, Epoll.UpdateChannel,
           AfterNotes, Buf.Retrieve, EPollPoller.Valid, EPollPoller.Coupled, IsWriting;
      DrainParts(View(), k);
      NoNotes(loop.Run(), this);
      if IsWriting(channel.events) {
        var n, sent := 0, [];
        if k.Wrote? {
          n, sent := outputBuffer.WriteFd(k.n);
        }
        if n > 0 {
          TakeOut(sent);
          if state == Disconnecting {
            ShutdownInLoop();
          }
        } else {
          broken := broken || IsFault(k);
        }
      }
    }

    /** `sent` has gone out of the buffer to the wire. */
    method TakeOut(sent: seq<Byte>)
      requires Valid()
      modifies this`wire, outputBuffer, loop
      ensures Valid()
      ensures View() == old(View()).(wire := old(wire) + sent, out := old(outputBuffer.State()).Retrieve(|sent|))
      ensures loop.Run() == AfterNotes(old(loop.Run()), this, if |outputBuffer.Contents()| == 0 then [WriteComplete] else [])
    {
      hide L.Legal, L.Exec, L.InOrder, L.Phases, Agrees, AfterNotes, Buf.Retrieve;
      NoNotes(loop.Run(), this);
      wire := wire + sent;
      outputBuffer.Retrieve(|sent|);
      var left := outputBuffer.ReadableBytes();
      if left == 0 {
        Queue(WriteComplete);
      }
    }

    method ShutdownInLoop()
      requires Valid()
      modifies this`halfCloses, this`broken
      ensures Valid() && View() == Connections.ShutdownInLoop(old(View()))
    {
      hide L.Legal, L.Exec, L.InOrder, L.Phases, Agrees;
      if !IsWriting(channel.events) {
        halfCloses, broken := halfCloses + 1, true;
      }
    }

    /** `shutdown` in the loop's thread. */
    method Shutdown()
      requires Valid()
      modifies this`state, this`halfCloses, this`broken
      ensures Valid() && View() == Connections.Shutdown(old(View()))
      ensures state == if old(state) == Connected then Disconnecting else old(state)
      ensures halfCloses == old(halfCloses) + if old(state) == Connected && !IsWriting(channel.events) then 1 else 0
    {
      hide L.Legal, L.Exec, L.InOrder, L.Phases, Agrees;
      var marked := TestShutdown();
      if marked {
        ShutdownInLoop();
      }
    }

    /** The test and the mark that `shutdown` begins with in any thread. */
    method TestShutdown() returns (marked: bool)
      modifies this`state
      ensures marked == (old(state) == Connected) && View() == MarkShutdown(old(View()))
    {
      marked := state == Connected;
      if marked {
        state := Disconnecting;
      }
    }

    /** The rest of `shutdown` in another thread, whatever has become of the connection since the mark. */
    method PushShutdown(tid: L.Tid)
      requires loop.Valid() && L.Enabled(loop.Run(), L.Push(tid, ShutdownLater(this)))
      modifies loop
      ensures loop.Valid() && loop.Run() == L.Queued(old(loop.Run()), L.Other(tid), ShutdownLater(this))
    {
      hide L.Legal, L.Exec, L.InOrder, L.Phases;
      var _ := loop.RunInLoop(L.Other(tid), ShutdownLater(this));
    }

    /** `connectEstablished` up to the user's callback. */
    method ConnectEstablished()
      requires Valid()
      modifies this`state, channel, Poller()
      ensures Valid() && channel.tied && channel.index != New
      ensures Did(old(View()), View(), Establish(old(View())),
                  old(Poller().view), Poller().view, old(loop.Run()), loop.Run())
    {
      hide L.Legal, L.Exec, L.InOrder, L.Phases, L.Step, L.Queued, Agrees, Epoll.UpdateChannel, Changed, InLoop;
      state := Connected;
      channel.Tie();
      channel.Set(EnableReading);
    }

    /** `connectDestroyed` without the user's callback: whatever the state, no trace of the channel stays. */
    method ConnectDestroyed()
      requires Poller().Valid() && Poller().Knows(channel)
      modifies this`state, channel, Poller()
      ensures Poller().Valid() && Poller().Knows(channel) && (old(Valid()) ==> Valid())
      ensures View() == Destroy(old(View())).conn && channel.index == New
      ensures state == if old(state) == Connected then Disconnected else old(state)
      ensures channel.events == if old(state) == Connected then NONE else old(channel.events)
      ensures Poller().view.index == old(Poller().view).index - {channel}
      ensures Poller().view.channels == old(Poller().view).channels - {channel.fd}
      ensures channel.fd !in Poller().view.kernel
    {
      hide L.Legal, L.Exec, L.InOrder, L.Phases, Agrees, Epoll.UpdateChannel, Epoll.RemoveChannel;
      if state == Connected {
        GoDown();
      }
      assert View() == Destroy(old(View())).conn;
      GoneAfterRemoval(old(Poller().view), Poller().view, channel, channel.AsChan());
      channel.Remove();
    }

    /** The state and the mask of a connection that is closed. */
    method GoDown()
      requires Poller().Valid() && Poller().Knows(channel)
      modifies this`state, channel, Poller()
      ensures Poller().Valid() && Poller().Knows(channel) && (old(Valid()) ==> Valid())
      ensures View() == Close(old(View())).conn && channel.AsChan() == Chan(channel.fd, NONE)
      ensures Poller().view == old(Poller().view).UpdateChannel(channel, channel.AsChan())
      ensures Leaves(Poller().view, channel, Chan(channel.fd, NONE), old(channel.index) == Added)
    {
      hide L.Legal, L.Exec, L.InOrder, L.Phases, L.Step, L.Queued, Agrees, Epoll.UpdateChannel, InLoop,
           EPollPoller.Coupled, EPollPoller.Valid;
      state := Disconnected;
      channel.Set(DisableAll);
    }

    /** `handleClose` without the user's callback. */
    method HandleClose()
      requires Valid()
      modifies this`state, channel, Poller(), server`connections, loop
      ensures Valid() && View() == Close(old(View())).conn
      ensures Poller().view == old(Poller().view).UpdateChannel(channel, channel.AsChan())
      ensures Leaves(Poller().view, channel, Chan(channel.fd, NONE), old(channel.index) == Added)
      ensures server.connections == old(server.connections) - {name}
      ensures Pushed(old(loop.Run()), loop.Run(), DestroyLater(this))
    {
      hide L.Legal, L.Exec, L.InOrder, L.Phases, Agrees, Epoll.UpdateChannel, Pushed;
      GoDown();
      server.RemoveConnectionInLoop(this);
    }

    /** `handleRead`; `message` tells whether the user's callback is called. */
    method HandleRead(input: Input) returns (message: bool)
      requires Valid() && (input.Delivered? ==> |input.data| <= inputBuffer.State().ReadCapacity())
      modifies this`state, channel, Poller(), inputBuffer, inputBuffer.data, server`connections, loop
      ensures Valid() && message == (input.Delivered? && |input.data| > 0)
      ensures inputBuffer.Contents() == old(inputBuffer.Contents()) + if input.Delivered? then input.data else []
      ensures View() == if input == Delivered([]) then Close(old(View())).conn else old(View())
      ensures server.connections == old(server.connections) - if input == Delivered([]) then {name} else {}
      ensures Poller().view ==
              if input == Delivered([]) then old(Poller().view).UpdateChannel(channel, channel.AsChan()) else old(Poller().view)
      ensures if input == Delivered([]) then Pushed(old(loop.Run()), loop.Run(), DestroyLater(this))
              else loop.Run() == old(loop.Run())
    {
      hide L.Legal, L.Exec, L.InOrder, L.Phases, Agrees, Epoll.UpdateChannel, L.Queued;
      message := false;
      if input.Delivered? {
        var n := inputBuffer.ReadFd(input.data);
        if n > 0 {
          message := true;
        } else {
          HandleClose();
        }
      }
    }
  }

  /** After an update or none, the removal of a channel leaves nothing of it and all of the others. */
  lemma GoneAfterRemoval(p: Epoll<Channel>, q: Epoll<Channel>, ch: Channel, chan: Chan)
    requires q == p || q == p.UpdateChannel(ch, chan)
    ensures q.RemoveChannel(ch, chan).index == p.index - {ch}
    ensures q.RemoveChannel(ch, chan).channels == p.channels - {chan.fd}
  {
    if q != p {
      assert q.index - {ch} == p.index - {ch};
      assert q.channels - {chan.fd} == p.channels - {chan.fd};
    }
  }

  lemma OthersRemain(p: Epoll<Channel>, q: Epoll<Channel>, ch: Channel, gone: Channel)
    requires ch != gone && q.index == p.index - {gone} && q.channels == p.channels - {gone.fd}
    ensures q.IndexOf(ch) == p.IndexOf(ch) && (Unshared(p, ch, ch.fd) ==> Unshared(q, ch, ch.fd))
  {
  }

  /** A new channel leaves those registered before as they were. */
  lemma OthersStay(p: Epoll<Channel>, chans: map<Channel, Chan>, ch: Channel, newcomer: Channel, chan: Chan)
    requires Agrees(p, chans) && ch in p.index && ch != newcomer && chan.fd !in p.channels
    ensures ch in chans && p.UpdateChannel(newcomer, chan).IndexOf(ch) == p.IndexOf(ch)
    ensures Unshared(p.UpdateChannel(newcomer, chan), ch, chans[ch].fd)
  {
  }

  ghost function ChannelsOf(connections: map<string, TcpConnection>): set<Channel> {
    set n | n in connections :: connections[n].channel
  }

  lemma NoChannels()
    ensures ChannelsOf(map[]) == {}
  {
  }

  lemma ChannelsWithout(connections: map<string, TcpConnection>, name: string)
    requires name in connections
    ensures ChannelsOf(connections - {name}) + {connections[name].channel} == ChannelsOf(connections)
  {
    var rest := connections - {name};
    forall ch | ch in ChannelsOf(connections)
      ensures ch in ChannelsOf(rest) + {connections[name].channel}
    {
      var n :| n in connections && connections[n].channel == ch;
      if n != name {
        assert rest[n].channel == ch;
      }
    }
    assert connections[name].channel in ChannelsOf(connections);
    forall ch | ch in ChannelsOf(rest)
      ensures ch in ChannelsOf(connections)
    {
      var n :| n in rest && rest[n].channel == ch;
      assert connections[n].channel == ch;
    }
  }

  class TcpServer {
    const loop: L.EventLoop<Functor>
    const poller: EPollPoller
    const name: string
    const ipPort: string
    var nextConnId: nat
    var connections: map<string, TcpConnection>

    ghost function Channels(): set<Channel>
      reads this`connections
    {
      ChannelsOf(connections)
    }

    /** The entries are this server's registered connections, each under its own name. */
    ghost predicate Listed()
      reads this`connections, poller, Channels()
    {
      forall n :: n in connections ==> Lists(n, connections[n])
    }

    ghost predicate Lists(n: string, conn: TcpConnection)
      reads poller, conn.channel
    {
      && conn.name == n && conn.server == this && conn.loop == loop && conn.channel.poller == poller
      && poller.Knows(conn.channel) && conn.channel.index != New
    }

    /** No two entries share a channel. */
    ghost predicate Apart()
      reads this`connections
    {
      forall m, n :: m in connections && n in connections && m != n ==> connections[m].channel != connections[n].channel
    }

    /** The names in use are those of ids already given out. */
    ghost predicate Named()
      reads this
    {
      && |ipPort| <= N.LONGEST && 1 <= nextConnId
      && forall n :: n in connections ==> exists id: nat :: id < nextConnId && n == N.ConnName(name, ipPort, id)
    }

    ghost predicate Valid()
      reads this, loop, poller, poller.chans.Keys, Channels()
    {
      Named() && Listed() && Apart() && poller.Valid() && loop.Valid() && InLoop(loop.Run())
    }

    constructor (loop: L.EventLoop<Functor>, poller: EPollPoller, name: string, ipPort: string)
      requires loop.Valid() && InLoop(loop.Run()) && poller.Valid() && |ipPort| <= N.LONGEST
      ensures Valid() && connections == map[] && nextConnId == 1
      ensures this.loop == loop && this.poller == poller && this.name == name && this.ipPort == ipPort
    {
      this.loop, this.poller, this.name, this.ipPort := loop, poller, name, ipPort;
      nextConnId := 1;
      connections := map[];
    }

    /** `newConnection` of an accepted socket; the name it forms is new, so no entry is displaced. */
    method NewConnection(sockfd: int, highWaterMark: nat, hasWriteComplete: bool, hasHighWater: bool)
      returns (conn: TcpConnection)
      requires Valid() && nextConnId < N.INT_MAX && sockfd !in poller.view.channels
      modifies this, poller
      ensures Valid() && fresh(conn) && conn.Valid() && nextConnId == old(nextConnId) + 1
      ensures conn.name == N.ConnName(name, ipPort, old(nextConnId)) && conn.name !in old(connections)
      ensures connections == old(connections)[conn.name := conn]
      ensures conn.View() == Establish(NewConn(sockfd, highWaterMark, hasWriteComplete, hasHighWater)).conn
      ensures conn.state == Connected && conn.channel.fd == sockfd && conn.channel.events == READ
      ensures conn.highWaterMark == highWaterMark
      ensures conn.hasWriteComplete == hasWriteComplete && conn.hasHighWater == hasHighWater
      ensures conn.outputBuffer.Contents() == conn.accepted == conn.wire == []
      ensures poller.view == old(poller.view).UpdateChannel(conn.channel, conn.channel.AsChan())
    {
      hide L.Legal, L.Exec, L.InOrder, L.Phases, L.Step, Agrees, Epoll.UpdateChannel, N.ConnName, Changed,
           Establish, NewConn, EPollPoller.Coupled, EPollPoller.Valid, InLoop, Unshared;
      EstablishedIsOpen(sockfd, highWaterMark, hasWriteComplete, hasHighWater);
      var connName := N.ConnName(name, ipPort, nextConnId);
      FreshName();
      nextConnId := nextConnId + 1;
      conn := new TcpConnection(loop, poller, this, connName, sockfd, highWaterMark, hasWriteComplete, hasHighWater);
      Enlist(conn);
      NamedMore(nextConnId - 1);
    }

    /** The entry is made, and the connection established. */
    method Enlist(conn: TcpConnection)
      requires Listed() && Apart() && conn.Valid()
      requires conn.loop == loop && conn.server == this && conn.channel.poller == poller
      requires conn.channel.index == New && conn.channel.fd !in poller.view.channels && conn.name !in connections
      modifies this`connections, conn`state, conn.channel, poller
      ensures Listed() && Apart() && conn.Valid() && connections == old(connections)[conn.name := conn]
      ensures conn.View() == Establish(old(conn.View())).conn
      ensures poller.view == old(poller.view).UpdateChannel(conn.channel, conn.channel.AsChan())
    {
      hide L.Legal, L.Exec, L.InOrder, L.Phases, Agrees, Epoll.UpdateChannel;
      connections := connections[conn.name := conn];
      assert Apart();
      conn.ConnectEstablished();
      forall n | n in old(connections)
        ensures Lists(n, connections[n])
      {
        assert old(Lists(n, connections[n]));
        OthersStay(old(poller.view), old(poller.chans), connections[n].channel, conn.channel, conn.channel.AsChan());
      }
    }

    lemma NamedMore(id: nat)
      requires |ipPort| <= N.LONGEST && 1 <= id && nextConnId == id + 1
      requires forall n :: n in connections ==>
                 n == N.ConnName(name, ipPort, id) || exists i: nat :: i < id && n == N.ConnName(name, ipPort, i)
      ensures Named()
    {
    }

    lemma FreshName()
      requires Named() && nextConnId <= N.INT_MAX
      ensures N.ConnName(name, ipPort, nextConnId) !in connections
    {
      var connName := N.ConnName(name, ipPort, nextConnId);
      if connName in connections {
        var id: nat :| id < nextConnId && connName == N.ConnName(name, ipPort, id);
        N.NamesAreDistinct(name, ipPort, id, nextConnId);
        assert false;
      }
    }

    method RemoveConnectionInLoop(conn: TcpConnection)
      requires conn.loop.Valid() && InLoop(conn.loop.Run())
      modifies this`connections, conn.loop
      ensures connections == old(connections) - {conn.name}
      ensures conn.loop.Valid() && InLoop(conn.loop.Run())
      ensures Pushed(old(conn.loop.Run()), conn.loop.Run(), DestroyLater(conn))
    {
      hide L.Legal, L.Exec, L.InOrder, L.Phases;
      connections := connections - {conn.name};
      conn.loop.QueueInLoop(L.Own, DestroyLater(conn));
    }

    /** `~TcpServer` in the loop's thread: every entry is reset and its connection destroyed on the spot.
        Of the poller's channels exactly this server's are gone. */
    method Destruct()
      requires Listed() && Apart() && poller.Valid()
      modifies this`connections, poller, ChannelsOf(connections), set n | n in connections :: connections[n]
      ensures connections == map[] && poller.Valid()
      ensures poller.view.index == old(poller.view.index) - old(ChannelsOf(connections))
      ensures forall n :: n in old(connections) ==>
                old(connections)[n].channel.index == New && old(connections)[n].state != Connected
    {
      hide *;
      ghost var all := connections;
      while connections != map[]
        invariant Listed() && Apart() && poller.Valid()
        invariant forall n :: n in connections ==> n in all && connections[n] == all[n]
        invariant ChannelsOf(connections) <= old(ChannelsOf(connections))
        invariant poller.view.index - ChannelsOf(connections) == old(poller.view.index) - old(ChannelsOf(connections))
        invariant forall n :: n in all && n !in connections ==> all[n].channel.index == New && all[n].state != Connected
        decreases connections.Keys
      {
        var name :| name in connections;
        var conn := connections[name];
        assert conn.channel in ChannelsOf(connections) by { ChannelsWithout(connections, name); }
        assert conn == all[name];
        Reset(name, conn);
      }
      assert ChannelsOf(connections) == {} by { NoChannels(); }
    }

    /** One round of the destructor's loop. */
    method Reset(name: string, conn: TcpConnection)
      requires Listed() && Apart() && poller.Valid() && name in connections && connections[name] == conn
      modifies this`connections, poller, conn`state, conn.channel
      ensures Listed() && Apart() && poller.Valid() && connections == old(connections) - {name}
      ensures conn.channel.index == New && conn.state != Connected
      ensures ChannelsOf(connections) + {conn.channel} == old(ChannelsOf(connections))
      ensures poller.view.index == old(poller.view.index) - {conn.channel}
    {
      hide TcpConnection.Valid, EPollPoller.Valid, Agrees, Named, Epoll.IndexOf, Unshared, ChannelsOf;
      ChannelsWithout(connections, name);
      connections := connections - {name};
      conn.ConnectDestroyed();
      forall n | n in connections
        ensures Lists(n, connections[n])
      {
        assert old(Lists(n, connections[n])) && connections[n].channel != conn.channel;
        OthersRemain(old(poller.view), poller.view, connections[n].channel, conn.channel);
      }
    }
  }
}
