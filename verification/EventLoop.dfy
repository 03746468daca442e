/** The task queue of an event loop and its wakeup protocol (EventLoop.cc).  `Loop<T>` with its events
    is the protocol: one loop thread and any number of others, each step of each thread an event, in
    any interleaving.  The class `EventLoop` is the code; each of its methods extends a legal run. */
module EventLoops {
  /** Threads other than the loop's own. */
  type Tid = nat

  /** The largest value an eventfd holds; a non-blocking write beyond it fails. */
  const EVENTFD_MAX: nat := 0xffff_ffff_ffff_fffe

  /** Where the loop thread is: before `loop()`, at the test of `quit_`, past the test, in `poll`, in
      the dispatch of active channels, between `callingPendingFunctors_ = true` and the swap, in the
      batch, and after `loop()`. */
  datatype Pc = Starting | Testing | Entering | Polling | Dispatching | Swapping | Running | Stopped

  /** `pushers` and `quitters` are the threads between their push (or `quit_ = true`) and their write to
      the eventfd; `mustWake` says the same of the loop's own thread.  `pushed` and `ran` list all tasks
      ever pushed and run; `polls` counts the polls begun and `pollsSinceQuit` those begun since `quit_`
      became true. */
  datatype Loop<T> = Loop(
    pc: Pc,
    quit: bool,
    calling: bool,
    pending: seq<T>,
    batch: seq<T>,
    next: nat,
    counter: nat,
    mustWake: bool,
    pushers: set<Tid>,
    quitters: set<Tid>,
    pushed: seq<T>,
    ran: seq<T>,
    polls: nat,
    pollsSinceQuit: nat)

  datatype Event<T> =
    | Begin
    | Test
    | Poll
    | PollReturns
    | ReadWakeup(counter: nat)
    | OwnPush(task: T)
    | OwnWake
    | OwnQuit
    | StartCalling
    | Swap
    | RunNext
    | EndBatch
    | Push(tid: Tid, task: T)
    | Quit(tid: Tid)
    | Wake(tid: Tid)

  function Initial<T>(): Loop<T> {
    Loop(Starting, false, false, [], [], 0, 0, false, {}, {}, [], [], 0, 0)
  }

  predicate Enabled<T>(s: Loop<T>, e: Event<T>) {
    match e
    case Begin => s.pc.Starting?
    case Test => s.pc.Testing?
    case Poll => s.pc.Entering?
    case PollReturns => s.pc.Polling?
    case ReadWakeup(_) => s.pc.Dispatching?
    case OwnPush(_) => !s.mustWake && (s.pc.Starting? || s.pc.Dispatching? || s.pc.Running? || s.pc.Stopped?)
    case OwnWake => s.mustWake
    case OwnQuit => s.pc.Starting? || s.pc.Dispatching? || s.pc.Running? || s.pc.Stopped?
    case StartCalling => s.pc.Dispatching?
    case Swap => s.pc.Swapping?
    case RunNext => s.pc.Running? && s.next < |s.batch| && !s.mustWake
    case EndBatch => s.pc.Running? && s.next >= |s.batch| && !s.mustWake
    case Push(tid, _) => tid !in s.pushers && tid !in s.quitters
    case Quit(tid) => tid !in s.pushers && tid !in s.quitters
    case Wake(tid) => tid in s.pushers || tid in s.quitters
  }

  /** One more on the eventfd, unless it is full. */
  function Bumped(counter: nat): nat {
    if counter < EVENTFD_MAX then counter + 1 else counter
  }

  function Step<T>(s: Loop<T>, e: Event<T>): Loop<T>
    requires Enabled(s, e)
  {
    match e
    case Begin => s.(pc := Testing, quit := false, pollsSinceQuit := 0)
    case Test => s.(pc := if s.quit then Stopped else Entering)
    case Poll => s.(pc := Polling, polls := s.polls + 1, pollsSinceQuit := s.pollsSinceQuit + if s.quit then 1 else 0)
    case PollReturns => s.(pc := Dispatching)
    case ReadWakeup(counter) => s.(counter := counter)
    case OwnPush(t) => s.(pending := s.pending + [t], pushed := s.pushed + [t], mustWake := s.calling)
    case OwnWake => s.(counter := Bumped(s.counter), mustWake := false)
    case OwnQuit => s.(quit := true)
    case StartCalling => s.(pc := Swapping, calling := true)
    case Swap => s.(pc := Running, batch := s.pending, next := 0, pending := [])
    case RunNext => s.(next := s.next + 1, ran := s.ran + [s.batch[s.next]])
    case EndBatch => s.(pc := Testing, calling := false, batch := [], next := 0)
    case Push(tid, t) =>
      s.(pending := s.pending + [t], pushed := s.pushed + [t], pushers := s.pushers + {tid})
    case Quit(tid) => s.(quit := true, quitters := s.quitters + {tid})
    case Wake(tid) =>
      s.(counter := Bumped(s.counter), pushers := s.pushers - {tid}, quitters := s.quitters - {tid})
  }

  // ---- Runs ----

  ghost predicate Legal<T>(s: Loop<T>, es: seq<Event<T>>)
    decreases |es|, 0
  {
    es == [] || (Legal(s, es[..|es| - 1]) && Enabled(Exec(s, es[..|es| - 1]), es[|es| - 1]))
  }

  ghost function Exec<T>(s: Loop<T>, es: seq<Event<T>>): Loop<T>
    requires Legal(s, es)
    decreases |es|, 1
  {
    if es == [] then s else Step(Exec(s, es[..|es| - 1]), es[|es| - 1])
  }

  lemma Extend<T>(s: Loop<T>, es: seq<Event<T>>, e: Event<T>)
    requires Legal(s, es) && Enabled(Exec(s, es), e)
    ensures Legal(s, es + [e]) && Exec(s, es + [e]) == Step(Exec(s, es), e)
  {
  }

  /** The loop's own thread queues nothing before it calls `loop()`. */
  ghost predicate NoEarlyPush<T>(s: Loop<T>, es: seq<Event<T>>)
    requires Legal(s, es)
    decreases |es|
  {
    es == [] ||
    (NoEarlyPush(s, es[..|es| - 1]) && !(es[|es| - 1].OwnPush? && Exec(s, es[..|es| - 1]).pc.Starting?))
  }

  // ---- What every step keeps ----

  /** A queued task is announced: the eventfd is readable, or some thread has yet to write it. */
  ghost predicate Announced<T>(s: Loop<T>) {
    s.pending == [] || s.counter > 0 || s.pushers != {} || s.mustWake
  }

  /** Tasks run, then the rest of the batch, then the queue, are the pushes in their order. */
  ghost predicate InOrder<T>(s: Loop<T>) {
    s.next <= |s.batch| && s.ran + s.batch[s.next..] + s.pending == s.pushed
  }

  ghost predicate Phases<T>(s: Loop<T>) {
    && (s.calling <==> s.pc.Swapping? || s.pc.Running?)
    && (!s.pc.Running? ==> s.batch == [] && s.next == 0 && !s.mustWake)
  }

  /** Once `quit_` is set at most one poll begins, and that one cannot block. */
  ghost predicate QuitIsSeen<T>(s: Loop<T>) {
    && (!s.quit ==> s.pollsSinceQuit == 0)
    && (s.pc.Entering? ==> s.pollsSinceQuit == 0)
    && s.pollsSinceQuit <= 1
    && (s.quit && (s.pc.Entering? || s.pc.Polling?) ==> s.counter > 0 || s.quitters != {})
    && (s.pc.Starting? ==> s.pollsSinceQuit == 0)
  }

  ghost predicate Waking(pc: Pc) {
    pc.Starting? || pc.Testing? || pc.Entering? || pc.Polling? || pc.Running?
  }

  ghost predicate Inv<T>(s: Loop<T>) {
    InOrder(s) && Phases(s) && QuitIsSeen(s) && (Waking(s.pc) ==> Announced(s))
  }

  lemma StepKeepsOrder<T>(s: Loop<T>, e: Event<T>)
    requires Enabled(s, e) && InOrder(s) && Phases(s)
    ensures InOrder(Step(s, e)) && Phases(Step(s, e))
  {
  }

  lemma StepKeepsInv<T>(s: Loop<T>, e: Event<T>)
    requires Enabled(s, e) && Inv(s) && !(e.OwnPush? && s.pc.Starting?)
    ensures Inv(Step(s, e))
  {
    StepKeepsOrder(s, e);
    if e.Push? {
      assert e.tid in Step(s, e).pushers;
    } else if e.Quit? {
      assert e.tid in Step(s, e).quitters;
    }
  }

  lemma {:induction false} RunKeepsInv<T>(s: Loop<T>, es: seq<Event<T>>)
    requires Inv(s) && Legal(s, es) && NoEarlyPush(s, es)
    ensures Inv(Exec(s, es))
    decreases |es|
  {
    if es != [] {
      RunKeepsInv(s, es[..|es| - 1]);
      StepKeepsInv(Exec(s, es[..|es| - 1]), es[|es| - 1]);
    }
  }

  /** No lost wakeup: for any number of threads, any interleaving and any effect of `handleRead` on the
      eventfd, whenever the loop is at its poll with tasks queued, the poll cannot block for good. */
  lemma NoLostWakeup<T>(es: seq<Event<T>>)
    requires Legal(Initial(), es) && NoEarlyPush(Initial(), es)
    ensures var s := Exec(Initial(), es);
            s.pc.Polling? && s.pending != [] ==> s.counter > 0 || s.pushers != {}
  {
    RunKeepsInv(Initial(), es);
  }

  /** The hypothesis is exact: `loop()` is safe to call just when what is queued by then is announced.  A
      task that the loop's own thread queues before `loop()`, with nothing on the eventfd, sleeps in the queue. */
  lemma BeginIsSafeExactlyWhenAnnounced<T>(s: Loop<T>)
    requires s.pc.Starting? && InOrder(s) && Phases(s) && QuitIsSeen(s)
    ensures Announced(s) <==>
            forall es :: Legal(s, [Begin] + es) && NoEarlyPush(s, [Begin] + es) && Exec(s, [Begin] + es).pc.Polling?
                         ==> Announced(Exec(s, [Begin] + es))
  {
    if Announced(s) {
      forall es | Legal(s, [Begin] + es) && NoEarlyPush(s, [Begin] + es) && Exec(s, [Begin] + es).pc.Polling?
        ensures Announced(Exec(s, [Begin] + es))
      {
        RunKeepsInv(s, [Begin] + es);
      }
    } else {
      var e0: seq<Event<T>> := [];
      var e1: seq<Event<T>> := [Begin];
      var e2: seq<Event<T>> := [Begin, Test];
      var e3: seq<Event<T>> := [Begin] + [Test, Poll];
      assert e1[..0] == e0 && e2[..1] == e1 && e3[..2] == e2;
      assert Legal(s, e0) && Exec(s, e0) == s && NoEarlyPush(s, e0);
      assert Legal(s, e1) && Exec(s, e1) == Step(s, Begin) && NoEarlyPush(s, e1);
      assert Legal(s, e2) && NoEarlyPush(s, e2);
      assert Legal(s, e3) && NoEarlyPush(s, e3);
      assert Exec(s, e3).pc.Polling? && !Announced(Exec(s, e3));
    }
  }

  /** Exactly once, in order: the batches refine one plain queue, whoever pushes and whenever. */
  lemma {:induction false} TasksRunInOrder<T>(es: seq<Event<T>>)
    requires Legal(Initial(), es)
    ensures var s := Exec(Initial(), es); InOrder(s) && Phases(s) && s.ran <= s.pushed
    decreases |es|
  {
    if es != [] {
      TasksRunInOrder(es[..|es| - 1]);
      StepKeepsOrder(Exec(Initial(), es[..|es| - 1]), es[|es| - 1]);
    }
    var s := Exec(Initial(), es);
    assert s.ran + (s.batch[s.next..] + s.pending) == s.pushed;
  }

  lemma StepKeepsQuit<T>(s: Loop<T>, e: Event<T>)
    requires Enabled(s, e) && QuitIsSeen(s)
    ensures QuitIsSeen(Step(s, e))
  {
    if e.Quit? {
      assert e.tid in Step(s, e).quitters;
    }
  }

  /** After `quit_` is set (once `loop()` has reset it) at most one further poll begins, and while the
      loop is at that poll the eventfd is readable or the quitting thread has yet to write it. */
  lemma {:induction false} QuitStopsTheLoop<T>(es: seq<Event<T>>)
    requires Legal(Initial(), es)
    ensures var s := Exec(Initial(), es);
            && s.pollsSinceQuit <= 1
            && (s.quit && s.pc.Polling? ==> s.counter > 0 || s.quitters != {})
    ensures QuitIsSeen(Exec(Initial(), es))
    decreases |es|
  {
    if es != [] {
      QuitStopsTheLoop(es[..|es| - 1]);
      StepKeepsQuit(Exec(Initial(), es[..|es| - 1]), es[|es| - 1]);
    }
  }

  lemma StepInBatch<T>(s: Loop<T>, e: Event<T>)
    requires s.pc.Running? && s.next <= |s.batch| && Enabled(s, e) && !e.EndBatch?
    ensures var s' := Step(s, e);
            && s'.pc.Running? && s'.batch == s.batch && s.next <= s'.next <= |s.batch|
            && s'.ran == s.ran + s.batch[s.next..s'.next]
  {
  }

  /** While a batch runs it is fixed, and what has run is its first part, in order. */
  lemma {:induction false} RunsWithinBatch<T>(s: Loop<T>, es: seq<Event<T>>)
    requires s.pc.Running? && s.next <= |s.batch| && Legal(s, es) && EndBatch !in es
    ensures var s' := Exec(s, es);
            && s'.pc.Running? && s'.batch == s.batch && s.next <= s'.next <= |s.batch|
            && s'.ran == s.ran + s.batch[s.next..s'.next]
    decreases |es|
  {
    hide Step, Enabled;
    if es != [] {
      RunsWithinBatch(s, es[..|es| - 1]);
      assert es[|es| - 1] in es;
      var b := Exec(s, es[..|es| - 1]);
      StepInBatch(b, es[|es| - 1]);
      var last := Step(b, es[|es| - 1]).next;
      assert s.batch[s.next..b.next] + s.batch[b.next..last] == s.batch[s.next..last];
    }
  }

  /** One `doPendingFunctor` runs exactly the tasks that were queued at its swap, in order, however many more
      the tasks themselves and other threads queue meanwhile. */
  lemma BatchIsFixedAtSwap<T>(s: Loop<T>, es: seq<Event<T>>)
    requires s.pc.Swapping? && EndBatch !in es
    requires Legal(Step(s, Swap), es) && Enabled(Exec(Step(s, Swap), es), EndBatch)
    ensures Exec(Step(s, Swap), es).ran == s.ran + s.pending
  {
    RunsWithinBatch(Step(s, Swap), es);
    assert s.pending[0..|s.pending|] == s.pending;
  }

  // ---- The object ----

  /** Who calls: the thread of the loop (`isInLoopThread()`), or another. */
  datatype Caller = Own | Other(tid: Tid)

  /** What happens while a callback runs in the loop's thread, one statement after another. */
  datatype Act<T> = QueueTask(task: T) | CallQuit | Meanwhile(others: seq<Event<T>>)

  function TasksOf<T>(acts: seq<Act<T>>): seq<T> {
    if acts == [] then []
    else TasksOf(acts[..|acts| - 1]) + if acts[|acts| - 1].QueueTask? then [acts[|acts| - 1].task] else []
  }

  /** No other thread acts between these statements. */
  predicate Alone<T(==)>(acts: seq<Act<T>>) {
    forall act :: act in acts ==> !act.Meanwhile?
  }

  lemma NoTasks<T>()
    ensures TasksOf<T>([]) == []
  {
  }

  lemma OneMoreAct<T>(acts: seq<Act<T>>, act: Act<T>)
    ensures TasksOf(acts + [act]) == TasksOf(acts) + if act.QueueTask? then [act.task] else []
  {
    assert (acts + [act])[..|acts + [act]| - 1] == acts;
  }

  class EventLoop<T(==)> {
    var quit: bool
    var looping: bool
    var calling: bool
    var pending: seq<T>
    /** The value of the eventfd. */
    var counter: nat
    /** The threads that are inside `queueInLoop` or `quit`, before their write: the scheduler's, not a field. */
    var midway: set<Tid>
    /** The run so far, as a run of the protocol. */
    ghost var trace: seq<Event<T>>

    ghost predicate Valid()
      reads this
    {
      && Legal(Initial(), trace)
      && var s := Run();
         && InOrder(s) && Phases(s)
         && quit == s.quit && calling == s.calling && pending == s.pending && counter == s.counter
         && midway == s.pushers + s.quitters
    }

    ghost function Run(): Loop<T>
      reads this
      requires Legal(Initial(), trace)
    {
      Exec(Initial(), trace)
    }

    constructor ()
      ensures Valid() && trace == []
    {
      quit, looping, calling := false, false, false;
      pending := [];
      counter := 0;
      midway := {};
      trace := [];
    }

    ghost method Record(e: Event<T>)
      requires Legal(Initial(), trace) && Enabled(Run(), e) && InOrder(Run()) && Phases(Run())
      modifies this`trace
      ensures trace == old(trace) + [e] && Legal(Initial(), trace) && Run() == Step(old(Run()), e)
      ensures InOrder(Run()) && Phases(Run())
    {
      StepKeepsOrder(Run(), e);
      Extend(Initial(), trace, e);
      trace := trace + [e];
    }

    /** The write of 1 to the eventfd. */
    method Wakeup(who: Caller)
      requires Valid()
      requires Enabled(Run(), if who.Own? then OwnWake else Wake(who.tid))
      modifies this`counter, this`midway, this`trace
      ensures Valid() && Run() == Step(old(Run()), if who.Own? then OwnWake else Wake(who.tid))
      ensures counter == Bumped(old(counter))
    {
      if counter < EVENTFD_MAX {
        counter := counter + 1;
      }
      if who.Other? {
        midway := midway - {who.tid};
      }
      Record(if who.Own? then OwnWake else Wake(who.tid));
    }

    method QueueInLoop(who: Caller, task: T)
      requires Valid()
      requires Enabled(Run(), if who.Own? then OwnPush(task) else Push(who.tid, task))
      modifies this`pending, this`counter, this`midway, this`trace
      ensures Valid() && Run() == Queued(old(Run()), who, task)
      ensures pending == old(pending) + [task]
      ensures counter == if who.Own? && !calling then old(counter) else Bumped(old(counter))
    {
      PushTask(who, task);
      if !who.Own? || calling {
        Wakeup(who);
      }
    }

    /** The part of `queueInLoop` under the mutex. */
    method PushTask(who: Caller, task: T)
      requires Valid()
      requires Enabled(Run(), if who.Own? then OwnPush(task) else Push(who.tid, task))
      modifies this`pending, this`midway, this`trace
      ensures Valid() && pending == old(pending) + [task]
      ensures Run() == Step(old(Run()), if who.Own? then OwnPush(task) else Push(who.tid, task))
    {
      pending := pending + [task];
      if who.Other? {
        midway := midway + {who.tid};
      }
      Record(if who.Own? then OwnPush(task) else Push(who.tid, task));
    }

    /** Runs the task in the caller if the caller is the loop's thread, else queues it. */
    method RunInLoop(who: Caller, task: T) returns (runNow: bool)
      requires Valid() && (who.Other? ==> Enabled(Run(), Push(who.tid, task)))
      modifies this`pending, this`counter, this`midway, this`trace
      ensures Valid() && runNow == who.Own?
      ensures Run() == if who.Own? then old(Run()) else Queued(old(Run()), who, task)
    {
      runNow := who.Own?;
      if !runNow {
        QueueInLoop(who, task);
      }
    }

    method QuitLoop(who: Caller)
      requires Valid() && Enabled(Run(), if who.Own? then OwnQuit else Quit(who.tid))
      modifies this`quit, this`counter, this`midway, this`trace
      ensures Valid() && quit
      ensures Run() == if who.Own? then Step(old(Run()), OwnQuit)
                       else Step(Step(old(Run()), Quit(who.tid)), Wake(who.tid))
    {
      SetQuit(who);
      if !who.Own? {
        Wakeup(who);
      }
    }

    method SetQuit(who: Caller)
      requires Valid() && Enabled(Run(), if who.Own? then OwnQuit else Quit(who.tid))
      modifies this`quit, this`midway, this`trace
      ensures Valid() && quit
      ensures Run() == Step(old(Run()), if who.Own? then OwnQuit else Quit(who.tid))
    {
      quit := true;
      if who.Other? {
        midway := midway + {who.tid};
      }
      Record(if who.Own? then OwnQuit else Quit(who.tid));
    }

    /** `handleRead` writes the eventfd where it might have drained it. */
    method HandleRead()
      requires Valid() && Run().pc.Dispatching?
      modifies this`counter, this`trace
      ensures Valid() && Run() == Step(old(Run()), ReadWakeup(counter)) && counter == Bumped(old(counter))
    {
      if counter < EVENTFD_MAX {
        counter := counter + 1;
      }
      Record(ReadWakeup(counter));
    }

    /** Other threads take the steps scheduled for them; one that its thread cannot take is skipped. */
    method Interfere(others: seq<Event<T>>)
      requires Valid()
      modifies this`quit, this`pending, this`counter, this`midway, this`trace
      ensures Valid() && OthersOnly(old(Run()), Run()) && (old(quit) ==> quit)
      ensures others == [] ==> Run() == old(Run())
    {
      for i := 0 to |others|
        invariant Valid() && OthersOnly(old(Run()), Run()) && (old(quit) ==> quit)
        invariant i == 0 ==> Run() == old(Run())
      {
        match others[i] {
          case Push(tid, task) =>
            if tid !in midway {
              PushTask(Other(tid), task);
            }
          case Quit(tid) =>
            if tid !in midway {
              SetQuit(Other(tid));
            }
          case Wake(tid) =>
            if tid in midway {
              Wakeup(Other(tid));
            }
          case _ =>
        }
      }
    }

    /** A callback in the loop's thread: it queues tasks and calls `quit()`, and other threads act between. */
    method RunScript(acts: seq<Act<T>>)
      requires Valid() && !Run().mustWake && (Run().pc.Dispatching? || Run().pc.Running?)
      modifies this`quit, this`pending, this`counter, this`midway, this`trace
      ensures Valid() && OthersOnly(old(Run()), Run()) && (old(quit) || CallQuit in acts ==> quit)
      ensures Alone(acts) ==> pending == old(pending) + TasksOf(acts)
    {
      hide Legal, Exec, InOrder, Phases, TasksOf;
      NoTasks<T>();
      for i := 0 to |acts|
        invariant Valid() && OthersOnly(old(Run()), Run()) && (old(quit) || CallQuit in acts[..i] ==> quit)
        invariant Alone(acts) ==> pending == old(pending) + TasksOf(acts[..i])
      {
        assert acts[..i + 1] == acts[..i] + [acts[i]];
        OneMoreAct(acts[..i], acts[i]);
        RunAct(acts[i]);
      }
      assert acts[..|acts|] == acts;
    }

    method RunAct(act: Act<T>)
      requires Valid() && !Run().mustWake && (Run().pc.Dispatching? || Run().pc.Running?)
      modifies this`quit, this`pending, this`counter, this`midway, this`trace
      ensures Valid() && OthersOnly(old(Run()), Run()) && (old(quit) || act.CallQuit? ==> quit)
      ensures !act.Meanwhile? ==> pending == old(pending) + if act.QueueTask? then [act.task] else []
    {
      match act {
        case QueueTask(task) => QueueInLoop(Own, task);
        case CallQuit => QuitLoop(Own);
        case Meanwhile(others) => Interfere(others);
      }
    }

    /** `doPendingFunctor`, where running a task `t` does `body(t)` and other threads do `others(i)` before the
        swap (0) and after the i-th task.  What runs is the batch taken at the swap, in order, whatever is
        queued meanwhile. */
    method DoPendingFunctor(body: T -> seq<Act<T>>, others: nat -> seq<Event<T>>) returns (functors: seq<T>)
      requires Valid() && Run().pc.Dispatching?
      modifies this
      ensures Valid() && Run().pc.Testing?
      ensures old(pending) <= functors && Run().ran == old(Run().ran) + functors
      ensures looping == old(looping) && Run().polls == old(Run().polls) && (old(quit) ==> quit)
      ensures forall t :: t in functors && CallQuit in body(t) ==> quit
    {
      hide Legal, Exec, InOrder, Phases, TasksOf, Alone;
      functors := TakeBatch(others(0));
      for i := 0 to |functors|
        invariant Valid() && Run().pc.Running? && !Run().mustWake
        invariant Run().batch == functors && Run().next == i && looping == old(looping)
        invariant Run().ran == old(Run().ran) + functors[..i] && Run().polls == old(Run().polls)
        invariant (old(quit) ==> quit) && forall j :: 0 <= j < i && CallQuit in body(functors[j]) ==> quit
      {
        RunFunctor(functors[i], body(functors[i]));
        Interfere(others(i + 1));
      }
      calling := false;
      Record(EndBatch);
    }

    /** The first half of `doPendingFunctor`: the flag, then the swap under the mutex. */
    method TakeBatch(others: seq<Event<T>>) returns (functors: seq<T>)
      requires Valid() && Run().pc.Dispatching?
      modifies this
      ensures Valid() && Run().pc.Running? && !Run().mustWake && looping == old(looping)
      ensures Run().batch == functors && Run().next == 0 && Run().ran == old(Run().ran)
      ensures old(pending) <= functors && Run().polls == old(Run().polls) && (old(quit) ==> quit)
    {
      calling := true;
      Record(StartCalling);
      Interfere(others);
      functors := pending;
      pending := [];
      Record(Swap);
    }

    method RunFunctor(functor: T, body: seq<Act<T>>)
      requires Valid() && Run().pc.Running? && !Run().mustWake
      requires Run().next < |Run().batch| && Run().batch[Run().next] == functor
      modifies this
      ensures Valid() && Run().pc.Running? && !Run().mustWake && looping == old(looping)
      ensures Run().batch == old(Run()).batch && Run().next == old(Run()).next + 1
      ensures Run().ran == old(Run()).ran + [functor] && Run().polls == old(Run()).polls
      ensures old(quit) || CallQuit in body ==> quit
      ensures Alone(body) ==> pending == old(pending) + TasksOf(body)
    {
      Record(RunNext);
      RunScript(body);
    }

    /** `loop()`, cut off after `most` polls because an event loop need not end.  In its k-th round the
        channels that are dispatched before and after the wakeup channel do `first(k)` and `last(k)`.  Each round
        polls once and then runs at least what was queued before it; `loop()` goes on until a round, which
        is then the last, has left `quit_` set. */
    method RunLoop(most: nat, first: nat -> seq<Act<T>>, last: nat -> seq<Act<T>>, body: T -> seq<Act<T>>,
                   others: (nat, nat) -> seq<Event<T>>) returns (rounds: nat)
      requires Valid() && Run().pc.Starting?
      modifies this
      ensures Valid() && (if looping then Run().pc.Testing? && !quit else Run().pc.Stopped? && quit)
      ensures Run().polls == old(Run().polls) + rounds && rounds <= most && (looping ==> rounds == most)
      ensures most > 0 ==> rounds > 0 && old(Run().ran) + old(pending) <= Run().ran
      ensures forall k :: 0 <= k < rounds && (CallQuit in first(k) || CallQuit in last(k)) ==> k == rounds - 1 && quit
    {
      hide Legal, Exec, InOrder, Phases;
      Start();
      rounds := 0;
      while !quit && rounds < most
        invariant Valid() && Run().pc.Testing? && looping && (rounds == 0 ==> !quit)
        invariant rounds <= most && Run().polls == old(Run().polls) + rounds
        invariant if rounds == 0 then Run().ran == old(Run().ran) && pending == old(pending)
                  else old(Run().ran) + old(pending) <= Run().ran
        invariant forall k :: 0 <= k < rounds && (CallQuit in first(k) || CallQuit in last(k)) ==> k == rounds - 1 && quit
      {
        PollAndDispatch(first(rounds), last(rounds), others(rounds, 0), others(rounds, 1));
        var _ := DoPendingFunctor(body, (i: nat) => others(rounds, i + 2));
        rounds := rounds + 1;
      }
      if quit {
        Record(Test);
        looping := false;
      }
    }

    method Start()
      requires Valid() && Run().pc.Starting?
      modifies this
      ensures Valid() && Run() == Step(old(Run()), Begin) && looping && !quit && pending == old(pending)
    {
      looping := true;
      quit := false;
      Record(Begin);
    }

    /** The body of the loop up to `doPendingFunctor`, the test of `quit_` having just failed: the callbacks
        of the active channels, with the wakeup channel among them if the eventfd was readable. */
    method PollAndDispatch(first: seq<Act<T>>, last: seq<Act<T>>, before: seq<Event<T>>, during: seq<Event<T>>)
      requires Valid() && Run().pc.Testing? && !quit
      modifies this
      ensures Valid() && Run().pc.Dispatching? && looping == old(looping)
      ensures Run().polls == old(Run().polls) + 1 && Run().ran == old(Run().ran) && old(pending) <= pending
      ensures CallQuit in first || CallQuit in last ==> quit
      ensures before == [] && during == [] && Alone(first) && Alone(last) ==>
                pending == old(pending) + TasksOf(first) + TasksOf(last)
    {
      hide Legal, Exec, InOrder, Phases, TasksOf, Alone;
      var readable := AwaitEvents(before, during);
      RunScript(first);
      if readable {
        HandleRead();
      }
      RunScript(last);
    }

    /** The test of `quit_`, which fails, and `poll`. */
    method AwaitEvents(before: seq<Event<T>>, during: seq<Event<T>>) returns (readable: bool)
      requires Valid() && Run().pc.Testing? && !quit
      modifies this
      ensures Valid() && Run().pc.Dispatching? && looping == old(looping) && !Run().mustWake
      ensures Run().polls == old(Run().polls) + 1 && Run().ran == old(Run().ran) && old(pending) <= pending
      ensures before == [] && during == [] ==> pending == old(pending)
    {
      hide Legal, Exec, InOrder;
      Record(Test);
      Interfere(before);
      Record(Poll);
      Interfere(during);
      readable := counter > 0;
      Record(PollReturns);
    }
  }

  /** `queueInLoop` as a whole: the push, then the wakeup where the code asks for one. */
  function Queued<T>(s: Loop<T>, who: Caller, task: T): Loop<T>
    requires Enabled(s, if who.Own? then OwnPush(task) else Push(who.tid, task))
  {
    match who
    case Own => var p := Step(s, OwnPush(task)); if s.calling then Step(p, OwnWake) else p
    case Other(tid) => Step(Step(s, Push(tid, task)), Wake(tid))
  }

  /** Steps that leave the loop thread where it was and the batch as it was; the queue can only have grown. */
  ghost predicate OthersOnly<T>(s: Loop<T>, s': Loop<T>) {
    && s'.pc == s.pc && s'.calling == s.calling && s'.batch == s.batch && s'.next == s.next
    && s'.mustWake == s.mustWake && s'.ran == s.ran && s.pending <= s'.pending && s'.polls == s.polls
  }
}
