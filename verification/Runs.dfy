/** Runs of the reactor from its start, and that they keep its invariant. */
module Runs {
  import opened Reactors
  import opened Ownership
  import opened ReactorInvariants
  import opened ReactorSteps
  import L = EventLoops
  import C = Connections
  import N = Names

  ghost predicate Legal(s: Reactor, steps: seq<Step>)
    decreases |steps|, 0
  {
    steps == [] ||
    (&& Legal(s, steps[..|steps| - 1])
     && WellFormed(After(s, steps[..|steps| - 1]))
     && Enabled(After(s, steps[..|steps| - 1]), steps[|steps| - 1]))
  }

  ghost function After(s: Reactor, steps: seq<Step>): Reactor
    requires Legal(s, steps)
    decreases |steps|, 1
  {
    if steps == [] then s else Next(After(s, steps[..|steps| - 1]), steps[|steps| - 1])
  }

  /** The server may be in state `s`. */
  ghost predicate Reachable(s: Reactor) {
    exists code, server, ipPort, steps ::
      && C.Sound(code) && |ipPort| <= N.LONGEST
      && Legal(Start(code, server, ipPort), steps) && s == After(Start(code, server, ipPort), steps)
  }

  /** Every reachable state satisfies the invariant; being well-formed is part of it, so it limits no run. */
  lemma {:induction false} RunsKeepInv(s: Reactor, steps: seq<Step>)
    requires Inv(s) && Legal(s, steps)
    ensures Inv(After(s, steps))
    decreases |steps|
  {
    hide Inv, Next, Enabled;
    if steps != [] {
      RunsKeepInv(s, steps[..|steps| - 1]);
      StepKeepsInv(After(s, steps[..|steps| - 1]), steps[|steps| - 1]);
    }
  }

  lemma ReachableIsInv(s: Reactor)
    requires Reachable(s)
    ensures Inv(s) && WellFormed(s)
  {
    var code, server, ipPort, steps :|
      && C.Sound(code) && |ipPort| <= N.LONGEST
      && Legal(Start(code, server, ipPort), steps) && s == After(Start(code, server, ipPort), steps);
    hide CoreInv, Kernel, Fds, Places, Streams, L.Inv, WellFormed, Legal, After;
    StartIsFine(code, server, ipPort);
    RunsKeepInv(Start(code, server, ipPort), steps);
  }

  lemma ExtendRun(s: Reactor, steps: seq<Step>, step: Step)
    requires Legal(s, steps) && WellFormed(After(s, steps)) && Enabled(After(s, steps), step)
    ensures Legal(s, steps + [step]) && After(s, steps + [step]) == Next(After(s, steps), step)
  {
    hide WellFormed, Enabled, Next;
    assert (steps + [step])[..|steps + [step]| - 1] == steps;
  }

  /** One more step from a reachable state leads to a reachable state. */
  lemma ReachableNext(s: Reactor, step: Step)
    requires Reachable(s) && WellFormed(s) && Enabled(s, step)
    ensures Reachable(Next(s, step))
  {
    var code, server, ipPort, steps :|
      && C.Sound(code) && |ipPort| <= N.LONGEST
      && Legal(Start(code, server, ipPort), steps) && s == After(Start(code, server, ipPort), steps);
    hide WellFormed, Enabled, Next, Start, Legal, After, C.Sound;
    ExtendRun(Start(code, server, ipPort), steps, step);
  }

  lemma {:induction false} ReachableAfter(s: Reactor, steps: seq<Step>)
    requires Reachable(s) && Legal(s, steps)
    ensures Reachable(After(s, steps))
    decreases |steps|
  {
    hide Reachable, WellFormed, Enabled, Next;
    if steps != [] {
      ReachableAfter(s, steps[..|steps| - 1]);
      ReachableNext(After(s, steps[..|steps| - 1]), steps[|steps| - 1]);
    }
  }

  lemma InvIsWellFormed(s: Reactor)
    requires Inv(s)
    ensures WellFormed(s)
  {
    hide Owner, Rest;
    WellFormedOf(s);
  }
}
