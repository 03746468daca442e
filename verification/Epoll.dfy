/** Channels and the epoll poller (Channel.h, Channel.cc, EPollPoller.cc).  `Epoll<C>` is the poller
    together with the kernel's interest set, over channels of any identity type `C`; the classes
    `Channel` and `EPollPoller` are proved to do what the functions on `Epoll<Channel>` do. */
module EpollPollers {
  type Mask = bv32

  const EPOLLIN: Mask := 1
  const EPOLLPRI: Mask := 2
  const EPOLLOUT: Mask := 4
  const EPOLLERR: Mask := 8
  const EPOLLHUP: Mask := 16

  const NONE: Mask := 0
  const READ: Mask := EPOLLIN | EPOLLPRI
  const WRITE: Mask := EPOLLOUT

  predicate IsWriting(events: Mask) {
    events & WRITE != 0
  }

  /** The four ways in which a channel changes its own mask before it calls `update()`. */
  datatype Change = EnableReading | DisableReading | EnableWriting | DisableWriting | DisableAll

  function Changed(events: Mask, change: Change): Mask {
    match change
    case EnableReading => events | READ
    case DisableReading => events & !READ
    case EnableWriting => events | WRITE
    case DisableWriting => events & !WRITE
    case DisableAll => NONE
  }

  lemma SetReadKeepsWrite(e: Mask)
    ensures (e | READ) & WRITE == e & WRITE
  {
  }

  lemma ClearReadKeepsWrite(e: Mask)
    ensures (e & !READ) & WRITE == e & WRITE
  {
  }

  lemma SetWrite(e: Mask)
    ensures (e | WRITE) & WRITE == WRITE
  {
  }

  lemma ClearWrite(e: Mask)
    ensures (e & !WRITE) & WRITE == NONE
  {
  }

  lemma SetRead(e: Mask)
    ensures (e | READ) & READ == READ
  {
  }

  /** Reading and writing interest are independent bits: each change does to `isWriting()` what its name says. */
  lemma WritingAfter(events: Mask, change: Change)
    ensures IsWriting(Changed(events, change)) <==>
            change.EnableWriting? || ((change.EnableReading? || change.DisableReading?) && IsWriting(events))
  {
    match change
    case EnableReading => SetReadKeepsWrite(events);
    case DisableReading => ClearReadKeepsWrite(events);
    case EnableWriting => SetWrite(events);
    case DisableWriting => ClearWrite(events);
    case DisableAll =>
  }

  lemma ClearRead(e: Mask)
    ensures (e & !READ) & READ == NONE
  {
  }

  lemma SetWriteKeepsRead(e: Mask)
    ensures (e | WRITE) & READ == e & READ
  {
  }

  lemma ClearWriteKeepsRead(e: Mask)
    ensures (e & !WRITE) & READ == e & READ
  {
  }

  /** The same of `isReading()`, both of whose bits go together. */
  lemma ReadingAfter(events: Mask, change: Change)
    ensures Changed(events, change) & READ ==
            if change.EnableReading? then READ
            else if change.DisableReading? || change.DisableAll? then NONE else events & READ
  {
    match change
    case EnableReading => SetRead(events);
    case DisableReading => ClearRead(events);
    case EnableWriting => SetWriteKeepsRead(events);
    case DisableWriting => ClearWriteKeepsRead(events);
    case DisableAll =>
  }

  // ---- Which callbacks an event mask runs, in order ----

  datatype Callback = CloseCallback | ErrorCallback | ReadCallback | WriteCallback

  function Chosen(close: bool, error: bool, read: bool, write: bool): seq<Callback> {
    (if close then [CloseCallback] else []) + (if error then [ErrorCallback] else []) +
    (if read then [ReadCallback] else []) + (if write then [WriteCallback] else [])
  }

  /** The mask for reading in the code is `EPOLLIN || EPOLLPRI`, a truth value, hence 1. */
  function Callbacks(revents: Mask): seq<Callback> {
    Chosen(revents & EPOLLHUP != 0 && revents & EPOLLIN == 0, revents & EPOLLERR != 0, revents & 1 != 0,
           revents & EPOLLOUT != 0)
  }

  /** The order in which callbacks of one dispatch come. */
  function Place(c: Callback): nat {
    match c
    case CloseCallback => 0
    case ErrorCallback => 1
    case ReadCallback => 2
    case WriteCallback => 3
  }

  lemma ChosenMembers(close: bool, error: bool, read: bool, write: bool)
    ensures var cs := Chosen(close, error, read, write);
            && (CloseCallback in cs <==> close) && (ErrorCallback in cs <==> error)
            && (ReadCallback in cs <==> read) && (WriteCallback in cs <==> write)
  {
  }

  lemma ChosenInOrder(close: bool, error: bool, read: bool, write: bool)
    ensures var cs := Chosen(close, error, read, write);
            forall i, j :: 0 <= i < j < |cs| ==> Place(cs[i]) < Place(cs[j])
  {
  }

  lemma UrgentIsNoOther()
    ensures EPOLLPRI & EPOLLHUP == 0 && EPOLLPRI & EPOLLERR == 0 && EPOLLPRI & 1 == 0 && EPOLLPRI & EPOLLOUT == 0
    ensures READ & EPOLLPRI != 0
  {
  }

  /** Exactly which callbacks a mask runs: each at most once and in this order; close only for a hang-up
      without input, read only for plain input.  Urgent data alone runs nothing, though channels ask for it. */
  lemma CallbacksFollowTheMask(revents: Mask)
    ensures CloseCallback in Callbacks(revents) <==> revents & EPOLLHUP != 0 && revents & EPOLLIN == 0
    ensures ErrorCallback in Callbacks(revents) <==> revents & EPOLLERR != 0
    ensures ReadCallback in Callbacks(revents) <==> revents & EPOLLIN != 0
    ensures WriteCallback in Callbacks(revents) <==> revents & EPOLLOUT != 0
    ensures forall i, j :: 0 <= i < j < |Callbacks(revents)| ==> Place(Callbacks(revents)[i]) < Place(Callbacks(revents)[j])
    ensures READ & EPOLLPRI != 0 && Callbacks(EPOLLPRI) == []
  {
    hide Place;
    var close := revents & EPOLLHUP != 0 && revents & EPOLLIN == 0;
    ChosenMembers(close, revents & EPOLLERR != 0, revents & 1 != 0, revents & EPOLLOUT != 0);
    ChosenInOrder(close, revents & EPOLLERR != 0, revents & 1 != 0, revents & EPOLLOUT != 0);
    UrgentIsNoOther();
    NoneChosen();
    hide Chosen;
  }

  lemma NoneChosen()
    ensures Chosen(false, false, false, false) == []
  {
  }

  // ---- The poller and the kernel ----

  datatype Index = New | Added | Deleted
  datatype Interest<C> = Interest(events: Mask, channel: C)
  datatype Chan = Chan(fd: int, events: Mask)
  datatype CtlOp = Add | Mod | Del

  /** `index` holds the channels whose `index_` is not kNew. */
  datatype Epoll<C(==)> = Epoll(channels: map<int, C>, index: map<C, Index>, kernel: map<int, Interest<C>>) {
    function IndexOf(ch: C): Index {
      if ch in index then index[ch] else New
    }

    /** Whether `epoll_ctl` accepts the call: ADD fails with EEXIST, MOD and DEL with ENOENT. */
    predicate CtlSucceeds(op: CtlOp, fd: int) {
      if op.Add? then fd !in kernel else fd in kernel
    }

    function Ctl(op: CtlOp, fd: int, interest: Interest<C>): Epoll<C> {
      if !CtlSucceeds(op, fd) then this
      else if op.Del? then this.(kernel := kernel - {fd})
      else this.(kernel := kernel[fd := interest])
    }

    function UpdateOp(ch: C, events: Mask): CtlOp {
      if IndexOf(ch) != Added then Add else if events == NONE then Del else Mod
    }

    function UpdateChannel(ch: C, chan: Chan): Epoll<C> {
      var listed := if IndexOf(ch) == New then this.(channels := channels[chan.fd := ch]) else this;
      var op := UpdateOp(ch, chan.events);
      listed.(index := index[ch := if op.Del? then Deleted else Added])
            .Ctl(op, chan.fd, Interest(chan.events, ch))
    }

    function RemoveChannel(ch: C, chan: Chan): Epoll<C> {
      var erased := this.(channels := channels - {chan.fd}, index := index - {ch});
      if IndexOf(ch) == Added then erased.Ctl(Del, chan.fd, Interest(chan.events, ch)) else erased
    }
  }

  /** The agreement of the four parties: each listed channel's index, its events, the map, the kernel. */
  ghost predicate Agrees<C>(p: Epoll<C>, chans: map<C, Chan>) {
    && (forall ch :: ch in p.index ==>
          && ch in chans && p.index[ch] != New
          && chans[ch].fd in p.channels && p.channels[chans[ch].fd] == ch)
    && (forall fd :: fd in p.channels ==> p.channels[fd] in p.index && chans[p.channels[fd]].fd == fd)
    && (forall ch :: ch in p.index && p.index[ch] == Added ==>
          chans[ch].fd in p.kernel && p.kernel[chans[ch].fd] == Interest(chans[ch].events, ch))
    && (forall ch :: ch in p.index && p.index[ch] == Deleted ==>
          chans[ch].fd !in p.kernel && chans[ch].events == NONE)
    && (forall fd :: fd in p.kernel ==> fd in p.channels && p.index[p.channels[fd]] == Added)
  }

  /** No other listed channel has this descriptor. */
  ghost predicate Unshared<C>(p: Epoll<C>, ch: C, fd: int) {
    fd in p.channels ==> p.channels[fd] == ch
  }

  /** The agreement, read channel by channel. */
  lemma AgreementMeans<C>(p: Epoll<C>, chans: map<C, Chan>, ch: C)
    requires Agrees(p, chans) && ch in chans
    ensures p.IndexOf(ch) == Added <==>
            chans[ch].fd in p.kernel && p.kernel[chans[ch].fd] == Interest(chans[ch].events, ch)
    ensures p.IndexOf(ch) == Deleted ==>
            chans[ch].fd in p.channels && chans[ch].fd !in p.kernel && chans[ch].events == NONE
    ensures p.IndexOf(ch) == New <==> forall fd :: fd in p.channels ==> p.channels[fd] != ch
    ensures p.IndexOf(ch) == New ==> forall fd :: fd in p.kernel ==> p.kernel[fd].channel != ch
  {
  }

  /** A channel that is not registered with the kernel becomes so, by ADD. */
  lemma AddKeepsAgreement<C>(p: Epoll<C>, chans: map<C, Chan>, ch: C, chan: Chan)
    requires Agrees(p, chans) && ch in chans && chan.fd == chans[ch].fd && Unshared(p, ch, chan.fd)
    requires p.IndexOf(ch) != Added
    ensures chan.fd !in p.kernel
    ensures Agrees(Epoll(p.channels[chan.fd := ch], p.index[ch := Added], p.kernel[chan.fd := Interest(chan.events, ch)]),
                   chans[ch := chan])
  {
  }

  lemma ModKeepsAgreement<C>(p: Epoll<C>, chans: map<C, Chan>, ch: C, chan: Chan)
    requires Agrees(p, chans) && ch in chans && chan.fd == chans[ch].fd && p.IndexOf(ch) == Added
    ensures chan.fd in p.kernel
    ensures Agrees(p.(kernel := p.kernel[chan.fd := Interest(chan.events, ch)]), chans[ch := chan])
  {
  }

  lemma DelKeepsAgreement<C>(p: Epoll<C>, chans: map<C, Chan>, ch: C, chan: Chan)
    requires Agrees(p, chans) && ch in chans && chan.fd == chans[ch].fd && p.IndexOf(ch) == Added
    requires chan.events == NONE
    ensures chan.fd in p.kernel
    ensures Agrees(p.(index := p.index[ch := Deleted], kernel := p.kernel - {chan.fd}), chans[ch := chan])
  {
  }

  /** What `updateChannel` leaves of a channel.  `dropped`: it was registered with the kernel and now asks
      for nothing; then the kernel no longer has the descriptor and the index is kDeleted.  Otherwise the
      kernel maps the descriptor to exactly this mask and channel, and the index is kAdded. */
  ghost predicate Leaves<C>(r: Epoll<C>, ch: C, chan: Chan, dropped: bool) {
    if dropped then r.IndexOf(ch) == Deleted && chan.fd !in r.kernel
    else r.IndexOf(ch) == Added && chan.fd in r.kernel && r.kernel[chan.fd] == Interest(chan.events, ch)
  }

  /** `updateChannel` keeps the agreement under the channel's new mask, and its `epoll_ctl` call
      is accepted: ADD finds the descriptor absent, MOD and DEL find it present. */
  lemma UpdateKeepsAgreement<C>(p: Epoll<C>, chans: map<C, Chan>, ch: C, chan: Chan)
    requires Agrees(p, chans) && ch in chans && chan.fd == chans[ch].fd && Unshared(p, ch, chan.fd)
    ensures Agrees(p.UpdateChannel(ch, chan), chans[ch := chan])
    ensures p.CtlSucceeds(p.UpdateOp(ch, chan.events), chan.fd)
    ensures var r := p.UpdateChannel(ch, chan);
            && r.IndexOf(ch) != New && r.index == p.index[ch := r.IndexOf(ch)]
            && r.channels == p.channels[chan.fd := ch]
            && Leaves(r, ch, chan, p.IndexOf(ch) == Added && chan.events == NONE)
  {
    match p.UpdateOp(ch, chan.events)
    case Add =>
      AddKeepsAgreement(p, chans, ch, chan);
      assert p.IndexOf(ch) == Deleted ==> p.channels[chan.fd := ch] == p.channels;
    case Mod =>
      ModKeepsAgreement(p, chans, ch, chan);
      assert p.index[ch := Added] == p.index;
    case Del =>
      DelKeepsAgreement(p, chans, ch, chan);
  }

  /** `removeChannel` keeps the agreement, its DEL (if any) is accepted, and no trace of the channel stays. */
  lemma RemoveKeepsAgreement<C>(p: Epoll<C>, chans: map<C, Chan>, ch: C)
    requires Agrees(p, chans) && ch in chans && Unshared(p, ch, chans[ch].fd)
    ensures Agrees(p.RemoveChannel(ch, chans[ch]), chans)
    ensures p.IndexOf(ch) == Added ==> p.CtlSucceeds(Del, chans[ch].fd)
    ensures var r := p.RemoveChannel(ch, chans[ch]);
            r.IndexOf(ch) == New && chans[ch].fd !in r.channels && chans[ch].fd !in r.kernel
  {
    AgreementMeans(p, chans, ch);
  }

  // ---- Any sequence of operations on channels with distinct descriptors ----

  datatype PollerOp<C> = Set(channel: C, change: Change) | Remove(channel: C)

  datatype Registry<C(==)> = Registry(epoll: Epoll<C>, chans: map<C, Chan>, refused: nat) {
    function Apply(op: PollerOp<C>): Registry<C>
      requires op.channel in chans
    {
      var ch := op.channel;
      match op
      case Set(_, change) =>
        var chan := chans[ch].(events := Changed(chans[ch].events, change));
        Registry(epoll.UpdateChannel(ch, chan), chans[ch := chan],
                 refused + if epoll.CtlSucceeds(epoll.UpdateOp(ch, chan.events), chan.fd) then 0 else 1)
      case Remove(_) =>
        Registry(epoll.RemoveChannel(ch, chans[ch]), chans,
                 refused + if epoll.IndexOf(ch) == Added && !epoll.CtlSucceeds(Del, chans[ch].fd) then 1 else 0)
    }
  }

  ghost predicate DistinctFds<C>(chans: map<C, Chan>) {
    forall a, b :: a in chans && b in chans && chans[a].fd == chans[b].fd ==> a == b
  }

  ghost function ApplyAll<C>(r: Registry<C>, ops: seq<PollerOp<C>>): Registry<C>
    requires forall i :: 0 <= i < |ops| ==> ops[i].channel in r.chans
    decreases |ops|
  {
    if ops == [] then r else ApplyAll(r.Apply(ops[0]), ops[1..])
  }

  /** For every sequence of enables, disables and removals on channels with distinct descriptors the
      parties agree at the end, and no `epoll_ctl` call is ever refused. */
  lemma {:induction false} EveryRunAgrees<C>(r: Registry<C>, ops: seq<PollerOp<C>>)
    requires Agrees(r.epoll, r.chans) && DistinctFds(r.chans)
    requires forall i :: 0 <= i < |ops| ==> ops[i].channel in r.chans
    ensures var s := ApplyAll(r, ops); Agrees(s.epoll, s.chans) && s.refused == r.refused
    decreases |ops|
  {
    if ops != [] {
      var ch := ops[0].channel;
      match ops[0] {
        case Set(_, change) =>
          UpdateKeepsAgreement(r.epoll, r.chans, ch, r.chans[ch].(events := Changed(r.chans[ch].events, change)));
        case Remove(_) => RemoveKeepsAgreement(r.epoll, r.chans, ch);
      }
      EveryRunAgrees(r.Apply(ops[0]), ops[1..]);
    }
  }

  // ---- The objects ----

  /** A channel that is not listed has no part in the agreement. */
  lemma UnlistedIsNoParty<C>(p: Epoll<C>, chans: map<C, Chan>, ch: C, chan: Chan)
    requires Agrees(p, chans) && p.IndexOf(ch) == New
    ensures Agrees(p, chans[ch := chan])
    ensures Agrees(p, chans - {ch})
  {
  }

  class Channel {
    const fd: int
    const poller: EPollPoller
    var index: Index
    var events: Mask
    var revents: Mask
    var tied: bool

    constructor (poller: EPollPoller, fd: int)
      ensures this.fd == fd && this.poller == poller
      ensures index == New && events == NONE && revents == NONE && !tied
    {
      this.fd, this.poller := fd, poller;
      index, events, revents, tied := New, NONE, NONE, false;
    }

    ghost function AsChan(): Chan
      reads this
    {
      Chan(fd, events)
    }

    method Tie()
      modifies this`tied
      ensures tied
    {
      tied := true;
    }

    /** Applies `change` to the mask and then calls `update()`, as each enable and disable does. */
    method Set(change: Change)
      requires poller.Valid() && poller.Knows(this)
      modifies this`index, this`events, poller
      ensures poller.Valid() && poller.Knows(this)
      ensures events == Changed(old(events), change) && index != New
      ensures Leaves(poller.view, this, AsChan(), old(index) == Added && events == NONE)
      ensures index == if old(index) == Added && events == NONE then Deleted else Added
      ensures poller.view == old(poller.view).UpdateChannel(this, AsChan())
      ensures old(poller.view).CtlSucceeds(old(poller.view).UpdateOp(this, events), fd)
    {
      events := Changed(events, change);
      Update();
    }

    method Update()
      requires poller.ValidBut(this) && poller.Knows(this)
      modifies this`index, poller
      ensures poller.Valid() && poller.Knows(this) && index != New
      ensures Leaves(poller.view, this, AsChan(), old(index) == Added && events == NONE)
      ensures index == if old(index) == Added && events == NONE then Deleted else Added
      ensures poller.view == old(poller.view).UpdateChannel(this, AsChan())
      ensures old(poller.view).CtlSucceeds(old(poller.view).UpdateOp(this, events), fd)
    {
      hide Agrees, Epoll.UpdateChannel;
      poller.Admit(this);
      UpdateKeepsAgreement(poller.view, poller.chans, this, AsChan());
      poller.UpdateChannel(this);
    }

    method Remove()
      requires poller.Valid() && poller.Knows(this)
      modifies this`index, poller
      ensures poller.Valid() && poller.Knows(this)
      ensures index == New && fd !in poller.channels && fd !in poller.view.kernel
      ensures poller.view == old(poller.view).RemoveChannel(this, AsChan())
    {
      poller.Admit(this);
      RemoveKeepsAgreement(poller.view, poller.chans, this);
      poller.RemoveChannel(this);
    }

    /** `handleEvent`: with a tie the callbacks run only when the owner could be locked. */
    method HandleEvent(ownerAlive: bool) returns (ran: seq<Callback>)
      ensures ran == if tied && !ownerAlive then [] else Callbacks(revents)
    {
      ran := [];
      if tied {
        var guard := ownerAlive;
        if guard {
          ran := HandleEventWithGuard();
        }
      } else {
        ran := HandleEventWithGuard();
      }
    }

    method HandleEventWithGuard() returns (ran: seq<Callback>)
      ensures ran == Callbacks(revents)
    {
      ran := [];
      if revents & EPOLLHUP != 0 && revents & EPOLLIN == 0 {
        ran := ran + [CloseCallback];
      }
      if revents & EPOLLERR != 0 {
        ran := ran + [ErrorCallback];
      }
      if revents & 1 != 0 {
        ran := ran + [ReadCallback];
      }
      if revents & EPOLLOUT != 0 {
        ran := ran + [WriteCallback];
      }
    }
  }

  class EPollPoller {
    var channels: map<int, Channel>
    /** The poller as a value; `view.kernel` is the kernel's side of it. */
    ghost var view: Epoll<Channel>
    /** Descriptor and mask of the channels this poller has dealt with. */
    ghost var chans: map<Channel, Chan>

    constructor ()
      ensures Valid() && channels == map[] && view == Epoll(map[], map[], map[])
    {
      channels := map[];
      view := Epoll(map[], map[], map[]);
      chans := map[];
    }

    ghost predicate Coupled()
      reads this, chans.Keys
    {
      && channels == view.channels
      && view.index.Keys <= chans.Keys
      && forall ch :: ch in view.index ==> ch.index == view.index[ch] && ch.AsChan() == chans[ch]
    }

    ghost predicate Valid()
      reads this, chans.Keys
    {
      Coupled() && Agrees(view, chans)
    }

    /** As `Valid`, but `ch` may have changed its mask since it last called `update()`. */
    ghost predicate ValidBut(ch: Channel)
      reads this, chans.Keys
    {
      && channels == view.channels
      && view.index.Keys <= chans.Keys
      && (forall c :: c in view.index ==> c.index == view.index[c] && chans[c].fd == c.fd)
      && (forall c :: c in view.index && c != ch ==> c.events == chans[c].events)
      && Agrees(view, chans)
    }

    /** The channel is this poller's and is the only one listed under its descriptor. */
    ghost predicate Knows(ch: Channel)
      reads this, ch
    {
      && ch.poller == this
      && ch.index == view.IndexOf(ch)
      && Unshared(view, ch, ch.fd)
    }

    /** Records the descriptor and mask of a channel before it is first listed. */
    ghost method Admit(ch: Channel)
      requires ValidBut(ch) && Knows(ch)
      modifies this`chans
      ensures ValidBut(ch) && Knows(ch) && ch in chans && chans[ch].fd == ch.fd
      ensures ch.index == New ==> chans[ch] == ch.AsChan()
      ensures ch.index != New ==> chans == old(chans)
    {
      if ch.index == New {
        UnlistedIsNoParty(view, chans, ch, ch.AsChan());
        chans := chans[ch := ch.AsChan()];
      }
    }

    method UpdateChannel(channel: Channel)
      requires channel in chans && channel.index == view.IndexOf(channel) && channels == view.channels
      modifies this, channel`index
      ensures view == old(view).UpdateChannel(channel, channel.AsChan())
      ensures chans == old(chans)[channel := channel.AsChan()]
      ensures channel.index == view.IndexOf(channel) && channels == view.channels
      ensures channel.index == if old(channel.index) == Added && channel.events == NONE then Deleted else Added
    {
      var index := channel.index;
      if index == New || index == Deleted {
        if index == New {
          channels := channels[channel.fd := channel];
        }
        channel.index := Added;
        Control(Add, channel);
      } else {
        if channel.events == NONE {
          Control(Del, channel);
          channel.index := Deleted;
        } else {
          Control(Mod, channel);
        }
      }
      view := view.(channels := channels, index := view.index[channel := channel.index]);
      chans := chans[channel := channel.AsChan()];
    }

    method RemoveChannel(channel: Channel)
      requires channel.index == view.IndexOf(channel) && channels == view.channels
      modifies this, channel`index
      ensures view == old(view).RemoveChannel(channel, channel.AsChan())
      ensures chans == old(chans)
      ensures channel.index == view.IndexOf(channel) == New && channels == view.channels
    {
      channels := channels - {channel.fd};
      if channel.index == Added {
        Control(Del, channel);
      }
      channel.index := New;
      view := view.(channels := channels, index := view.index - {channel});
    }

    /** `EPollPoller::update`: `epoll_ctl` on the modelled kernel set. */
    method Control(operation: CtlOp, channel: Channel)
      modifies this`view
      ensures view == old(view).Ctl(operation, channel.fd, Interest(channel.events, channel))
    {
      view := view.Ctl(operation, channel.fd, Interest(channel.events, channel));
    }

    /** `fillActiveChannels`: reports land in the channels' `revents_`, the channels in the active list. */
    method FillActiveChannels(reported: seq<Interest<Channel>>) returns (active: seq<Channel>)
      modifies set r | r in reported :: r.channel`revents
      ensures |active| == |reported|
      ensures forall i :: 0 <= i < |active| ==> active[i] == reported[i].channel
      ensures (forall i, j :: 0 <= i < j < |reported| ==> reported[i].channel != reported[j].channel) ==>
              forall i :: 0 <= i < |active| ==> active[i].revents == reported[i].events
    {
      active := [];
      for i := 0 to |reported|
        invariant |active| == i
        invariant forall k :: 0 <= k < i ==> active[k] == reported[k].channel
        invariant (forall i, j :: 0 <= i < j < |reported| ==> reported[i].channel != reported[j].channel) ==>
                  forall k :: 0 <= k < i ==> active[k].revents == reported[k].events
      {
        var channel := reported[i].channel;
        channel.revents := reported[i].events;
        active := active + [channel];
      }
    }
  }
}
