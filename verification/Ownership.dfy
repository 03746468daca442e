/** Who keeps a connection alive, and in what order it goes: the part of the reactor that the lifetime
    argument needs.  `Core` is that part as a value; each lemma is one kind of step on it. */
module Ownership {
  import opened Reactors
  import C = Connections

  /** `listed`: in the server's map.  `registered`: known to the poller (`index_` is not kNew). */
  datatype Core = Core(
    stopped: bool,
    dispatching: bool,
    states: map<Id, C.State>,
    listed: set<Id>,
    registered: set<Id>,
    queue: seq<Task>,
    ops: seq<Op>)

  /** The destruction of `c` is on its way: queued, or being executed. */
  ghost predicate Doomed(k: Core, c: Id) {
    Destroyed(c) in k.queue || Destroy(c) in k.ops || Remove(c) in k.ops
  }

  ghost predicate DispatchOp(op: Op) {
    op.Close? || op.Erase? || op.Read? || op.Write? || op.UserCode?
  }

  /** While channels are dispatched the frames hold only channel callbacks; otherwise one functor's body. */
  ghost predicate Shapes(k: Core) {
    if k.dispatching then !k.stopped && forall op :: op in k.ops ==> DispatchOp(op)
    else
      || k.ops == [] || k.ops == [UserCode]
      || (|k.ops| == 1 && (k.ops[0].Destroy? || k.ops[0].Remove?))
      || (|k.ops| == 1 && (k.ops[0].Send? || k.ops[0].Shutdown?) && !k.stopped)
      || (|k.ops| == 2 && k.ops[0].UserCode? && k.ops[1].Remove?)
  }

  /** What is registered is listed or doomed; what is listed is registered and not doomed; and channel
      callbacks work on registered connections. */
  ghost predicate Anchored(k: Core) {
    && (forall c :: c in k.registered ==> c in k.states && (c in k.listed || Doomed(k, c)))
    && (forall c :: c in k.listed ==> c in k.registered && !Doomed(k, c))
    && (forall c :: Doomed(k, c) ==> c in k.states)
    && (forall op :: op in k.ops && DispatchOp(op) && !op.UserCode? ==> op.conn in k.registered)
  }

  /** How the state of a connection goes with its place. */
  ghost predicate States(k: Core) {
    && (forall c :: c in k.states ==> k.states[c] != C.Connecting)
    && (forall c :: c in k.states && k.states[c] == C.Disconnected && c in k.registered ==>
          Doomed(k, c) || Erase(c) in k.ops)
    && (forall c :: c in k.states && k.states[c] == C.Connected ==>
          c in k.listed || (k.stopped && c in k.registered && Destroy(c) in k.ops))
    && (forall c :: c in k.states && k.states[c] == C.Disconnecting && !k.stopped ==> c in k.listed)
    && (!k.stopped ==> forall c :: Doomed(k, c) ==> c in k.states && k.states[c] == C.Disconnected)
    && (forall c :: Erase(c) in k.ops ==> c in k.states && k.states[c] == C.Disconnected)
  }

  ghost predicate CoreInv(k: Core) {
    Shapes(k) && Anchored(k) && States(k)
  }

  // ---- Steps that leave the connections in their places ----

  /** Any functor but a destruction may be pushed at any time; one with a bare `this` owns nothing. */
  lemma PushPlain(k: Core, t: Task)
    requires CoreInv(k) && !t.Destroyed?
    ensures CoreInv(k.(queue := k.queue + [t]))
  {
    var k' := k.(queue := k.queue + [t]);
    assert forall c :: Destroyed(c) in k'.queue <==> Destroyed(c) in k.queue;
    assert forall c :: Doomed(k', c) <==> Doomed(k, c);
  }

  /** `shutdown()` marks a connected connection. */
  lemma MarkDown(k: Core, c: Id, state: C.State)
    requires CoreInv(k) && c in k.states && k.states[c] == C.Connected && state == C.Disconnecting
    ensures CoreInv(k.(states := k.states[c := state]))
  {
  }

  // ---- Frames ----

  /** An op that a dispatch frame may have to do. */
  ghost predicate OkInDispatch(k: Core, op: Op) {
    DispatchOp(op) && (!op.UserCode? ==> op.conn in k.registered)
    && (op.Erase? ==> op.conn in k.states && k.states[op.conn] == C.Disconnected)
  }

  lemma OpsInDispatch(k: Core)
    requires CoreInv(k) && k.dispatching
    ensures forall op :: op in k.ops ==> OkInDispatch(k, op)
  {
  }

  /** In a dispatch frame only pending erasures matter: they may not be forgotten. */
  lemma SwapOps(k: Core, ops: seq<Op>)
    requires CoreInv(k) && k.dispatching
    requires forall op :: op in ops ==> OkInDispatch(k, op)
    requires forall op :: op in k.ops && op.Erase? ==> op in ops || Doomed(k, op.conn)
    ensures CoreInv(k.(ops := ops))
  {
    var k' := k.(ops := ops);
    assert forall d :: Doomed(k', d) <==> Doomed(k, d);
  }

  /** An op is finished that has no further effect here. */
  lemma DropOp(k: Core, op: Op, tail: seq<Op>)
    requires CoreInv(k) && k.ops == [op] + tail
    requires op.Read? || op.Write? || op.Send? || op.Shutdown? || op.UserCode?
    ensures CoreInv(k.(ops := tail))
  {
    if k.dispatching {
      OpsInDispatch(k);
      assert forall o :: o in tail ==> o in k.ops;
      SwapOps(k, tail);
    } else {
      assert k.ops[1..] == tail;
      assert k.ops[0] == op;
      DropInFunctor(k);
    }
  }

  lemma DropInFunctor(k: Core)
    requires CoreInv(k) && !k.dispatching && k.ops != []
    requires k.ops[0].Send? || k.ops[0].Shutdown? || k.ops[0].UserCode?
    ensures CoreInv(k.(ops := k.ops[1..]))
  {
  }

  lemma ReadIsInDispatch(k: Core)
    requires Shapes(k) && k.ops != [] && (k.ops[0].Read? || k.ops[0].Close? || k.ops[0].Erase? || k.ops[0].Write?)
    ensures k.dispatching
  {
  }

  /** A read callback goes on to the user, or to the close. */
  lemma ReplaceRead(k: Core, c: Id, op: Op, tail: seq<Op>)
    requires CoreInv(k) && k.ops == [Read(c)] + tail
    requires op == UserCode || op == Close(c)
    ensures CoreInv(k.(ops := [op] + tail))
  {
    ReadIsInDispatch(k);
    OpsInDispatch(k);
    assert Read(c) in k.ops;
    assert forall o :: o in tail ==> o in k.ops;
    SwapOps(k, [op] + tail);
  }

  lemma OpenDispatch(k: Core, c: Id, ops: seq<Op>)
    requires CoreInv(k) && k.dispatching && k.ops == [] && c in k.registered
    requires forall op :: op in ops ==> DispatchOp(op) && !op.Erase? && !op.UserCode? && op.conn == c
    ensures CoreInv(k.(ops := ops))
  {
    var k' := k.(ops := ops);
    assert forall d :: Doomed(k', d) <==> Doomed(k, d);
  }

  /** The next functor is taken from the queue. */
  lemma OpenFunctor(k: Core, t: Task, rest: seq<Task>)
    requires CoreInv(k) && !k.dispatching && !k.stopped && k.ops == [] && k.queue == [t] + rest
    ensures CoreInv(k.(queue := rest, ops := Body(t)))
  {
    var k' := k.(queue := rest, ops := Body(t));
    assert forall u :: u in k.queue <==> u == t || u in rest;
    assert forall d :: Doomed(k', d) <==> Doomed(k, d);
    StatesOpened(k, k');
    assert Anchored(k') by { hide States; }
    hide States, Anchored;
  }

  lemma StatesOpened(k: Core, k': Core)
    requires States(k) && !k.stopped && k' == k.(queue := k'.queue, ops := k'.ops)
    requires forall d :: Doomed(k', d) <==> Doomed(k, d)
    requires forall op :: op in k.ops || op in k'.ops ==> !op.Erase?
    ensures States(k')
  {
  }

  // ---- The close ----

  /** `handleClose` up to the user's callback. */
  lemma CloseOne(k: Core, c: Id, tail: seq<Op>)
    requires CoreInv(k) && k.ops == [Close(c)] + tail
    ensures CoreInv(k.(states := k.states[c := C.Disconnected], ops := [UserCode, Erase(c)] + tail))
    ensures c in k.registered
  {
    ReadIsInDispatch(k);
    OpsInDispatch(k);
    assert Close(c) in k.ops;
    assert forall o :: o in tail ==> o in k.ops;
    CloseState(k, c, [UserCode, Erase(c)] + tail);
  }

  lemma CloseState(k: Core, c: Id, ops: seq<Op>)
    requires CoreInv(k) && k.dispatching && c in k.registered && Erase(c) in ops
    requires forall op :: op in ops ==> OkInDispatch(k, op) || op == Erase(c)
    requires forall op :: op in k.ops && op.Erase? ==> op in ops
    ensures CoreInv(k.(states := k.states[c := C.Disconnected], ops := ops))
  {
    var k' := k.(states := k.states[c := C.Disconnected], ops := ops);
    assert forall d :: Doomed(k', d) <==> Doomed(k, d);
    AnchoredClosed(k, k');
    StatesClosed(k, k', c);
    hide Anchored, States;
  }

  lemma AnchoredClosed(k: Core, k': Core)
    requires Anchored(k) && k' == k.(states := k'.states, ops := k'.ops) && k.states.Keys <= k'.states.Keys
    requires forall d :: Doomed(k', d) <==> Doomed(k, d)
    requires forall op :: op in k'.ops ==> DispatchOp(op) && (!op.UserCode? ==> op.conn in k.registered)
    ensures Anchored(k')
  {
  }

  lemma StatesClosed(k: Core, k': Core, c: Id)
    requires States(k) && c in k.states && k' == k.(states := k.states[c := C.Disconnected], ops := k'.ops)
    requires (forall d :: Doomed(k', d) <==> Doomed(k, d)) && Erase(c) in k'.ops && !k.stopped
    requires forall op :: op in k'.ops && op.Erase? ==>
               op == Erase(c) || (op.conn in k.states && k.states[op.conn] == C.Disconnected)
    requires forall op :: op in k.ops && op.Erase? ==> op in k'.ops
    ensures States(k')
  {
    hide Doomed;
  }

  /** `removeConnectionInLoop`: out of the map, the destruction queued. */
  lemma EraseOne(k: Core, c: Id, tail: seq<Op>)
    requires CoreInv(k) && k.ops == [Erase(c)] + tail
    ensures CoreInv(k.(listed := k.listed - {c}, queue := k.queue + [Destroyed(c)], ops := tail))
  {
    ReadIsInDispatch(k);
    OpsInDispatch(k);
    assert Erase(c) in k.ops;
    assert forall o :: o in tail ==> o in k.ops;
    Unlist(k, c);
    SwapOps(k.(listed := k.listed - {c}, queue := k.queue + [Destroyed(c)]), tail);
  }

  lemma Unlist(k: Core, c: Id)
    requires CoreInv(k) && k.dispatching && c in k.registered
    requires c in k.states && k.states[c] == C.Disconnected
    ensures var k' := k.(listed := k.listed - {c}, queue := k.queue + [Destroyed(c)]);
            && CoreInv(k') && Doomed(k', c) && (forall d :: Doomed(k, d) ==> Doomed(k', d))
  {
    var k' := k.(listed := k.listed - {c}, queue := k.queue + [Destroyed(c)]);
    assert forall d :: Destroyed(d) in k'.queue <==> d == c || Destroyed(d) in k.queue;
    assert forall d :: Doomed(k', d) <==> d == c || Doomed(k, d);
  }

  // ---- The destruction ----

  /** `connectDestroyed` up to the removal of the channel; `ops` is what is left to do. */
  lemma DestroyOne(k: Core, c: Id, state: C.State, ops: seq<Op>)
    requires CoreInv(k) && k.ops == [Destroy(c)] && c in k.states
    requires state == if k.states[c] == C.Connected then C.Disconnected else k.states[c]
    requires ops == [UserCode, Remove(c)] || ops == [Remove(c)]
    ensures CoreInv(k.(states := k.states[c := state], ops := ops))
    ensures k.states[c] == C.Connected ==> c in k.registered
  {
    var k' := k.(states := k.states[c := state], ops := ops);
    assert !k.dispatching;
    assert Destroy(c) in k.ops && Remove(c) in k'.ops;
    assert forall d :: Destroy(d) in k.ops <==> d == c;
    assert forall d :: Remove(d) in k'.ops <==> d == c;
    assert forall d :: Doomed(k', d) <==> Doomed(k, d);
    assert Anchored(k') by { hide States; }
    StatesDestroyed(k, k', c);
    hide States;
  }

  lemma StatesDestroyed(k: Core, k': Core, c: Id)
    requires States(k) && k.ops == [Destroy(c)] && c in k.states && Doomed(k, c)
    requires k' == k.(states := k'.states, ops := k'.ops)
    requires k'.states == k.states[c := if k.states[c] == C.Connected then C.Disconnected else k.states[c]]
    requires forall d :: Doomed(k', d) <==> Doomed(k, d)
    requires forall op :: op in k'.ops ==> op == UserCode || op == Remove(c)
    ensures States(k')
  {
    hide Doomed;
  }

  lemma RemoveOne(k: Core, c: Id)
    requires CoreInv(k) && k.ops == [Remove(c)]
    ensures CoreInv(k.(registered := k.registered - {c}, ops := []))
  {
  }

  // ---- Coming and going of the server ----

  lemma AcceptNew(k: Core, c: Id, state: C.State)
    requires CoreInv(k) && k.dispatching && k.ops == [] && c !in k.states && state == C.Connected
    requires forall t :: t in k.queue && !t.User? ==> t.conn in k.states
    requires k.registered <= k.states.Keys
    ensures CoreInv(k.(states := k.states[c := state], listed := k.listed + {c}, registered := k.registered + {c},
                       ops := [UserCode]))
  {
    var k' := k.(states := k.states[c := state], listed := k.listed + {c}, registered := k.registered + {c},
                 ops := [UserCode]);
    assert forall d :: Doomed(k', d) <==> Doomed(k, d);
  }

  /** `~TcpServer` after `loop()` has returned. */
  lemma ResetOne(k: Core, c: Id)
    requires CoreInv(k) && k.stopped && k.ops == [] && c in k.listed
    ensures CoreInv(k.(listed := k.listed - {c}, ops := [Destroy(c)]))
  {
    var k' := k.(listed := k.listed - {c}, ops := [Destroy(c)]);
    assert Destroy(c) in k'.ops;
    assert forall d :: Doomed(k', d) <==> d == c || Doomed(k, d);
  }

  /** The loop thread goes from one phase to another between callbacks. */
  lemma ChangePhase(k: Core, stopped: bool, dispatching: bool)
    requires CoreInv(k) && k.ops == [] && (k.stopped ==> stopped) && !(stopped && dispatching)
    ensures CoreInv(k.(stopped := stopped, dispatching := dispatching))
  {
    var k' := k.(stopped := stopped, dispatching := dispatching);
    assert forall d :: Doomed(k', d) <==> Doomed(k, d);
  }
}
