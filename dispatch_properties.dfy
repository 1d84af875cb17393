/** Properties of the dispatch loop that hold for every arrangement of test
    closures, or for whole families of them. */
module DispatchProperties {
  import opened Events
  import opened DispatchModel

  /** No test closure (or only a spent, silent one) on event `e`. */
  predicate Inert(handlers: map<Event, Handler>, e: Event)
  {
    HandlerFor(handlers, e) == Absent
  }

  /** An event without a test closure only traces its name. */
  lemma FireInert(m: Machine, e: Event)
    requires Inert(m.handlers, e)
    ensures Fire(m, e) == Fired(m.(trace := m.trace + [Name(e)]), Continue)
  {
    var m' := m.(trace := m.trace + [Name(e)]);
    assert NoteTrace(HandlerFor(m'.handlers, e)) == [];
    assert m'.trace + [] == m'.trace;
  }

  /** No test closure on any event fired before the action runs. */
  predicate QuietOpening(handlers: map<Event, Handler>)
  {
    Inert(handlers, BeforeDispatch) && Inert(handlers, BeforeExecuteRoute) && Inert(handlers, AfterInitialize)
  }

  /** No test closure on any event fired after the action runs. */
  predicate QuietClosing(handlers: map<Event, Handler>)
  {
    Inert(handlers, AfterExecuteRoute) && Inert(handlers, AfterDispatch)
  }

  /** The labels of a cycle up to and including the action: the initialize hook and
      `afterInitialize` appear on the controller's first cycle only. */
  function Opening(initialized: bool, action: string): seq<string>
  {
    [Name(BeforeDispatch), Name(BeforeExecuteRoute), BeforeExecuteRouteHook]
    + (if initialized then [] else [InitializeHook, Name(AfterInitialize)])
    + [ActionLabel(action)]
  }

  /** The labels of a cycle after the action. */
  const Closing: seq<string> := [Name(AfterExecuteRoute), AfterExecuteRouteHook, Name(AfterDispatch)]

  /** Without closures on `beforeDispatch` and `beforeExecuteRoute`, a cycle
      starts with those two events and the controller's before-hook. */
  lemma {:induction false} StartOfCycle(m: Machine)
    requires Inert(m.handlers, BeforeDispatch) && Inert(m.handlers, BeforeExecuteRoute)
    ensures Cycle(m) ==
      RunPhases(m.(trace := m.trace + [Name(BeforeDispatch), Name(BeforeExecuteRoute), BeforeExecuteRouteHook],
                   forwarded := false),
                CyclePhases[3..])
  {
    var m0 := m.(forwarded := false);
    assert CyclePhases[0..] == CyclePhases;
    EmitStep(m0, 0);
    FireInert(m0, BeforeDispatch);
    var m1 := m0.(trace := m0.trace + [Name(BeforeDispatch)]);
    EmitStep(m1, 1);
    FireInert(m1, BeforeExecuteRoute);
    var m2 := m1.(trace := m1.trace + [Name(BeforeExecuteRoute)]);
    HookStep(m2, 2);
    assert m2.trace + [BeforeExecuteRouteHook] == m.trace + [Name(BeforeDispatch), Name(BeforeExecuteRoute), BeforeExecuteRouteHook];
  }

  /** Without a closure on `afterInitialize`, the initialization (first cycle only)
      and the action follow. */
  lemma {:induction false} ActionOfCycle(m: Machine)
    requires Inert(m.handlers, AfterInitialize) && !m.forwarded
    ensures RunPhases(m, CyclePhases[3..]) ==
      RunPhases(m.(trace := m.trace + (if m.initialized then [] else [InitializeHook, Name(AfterInitialize)])
                                    + [ActionLabel(m.pending)],
                   initialized := true),
                CyclePhases[5..])
  {
    RunFrom(m, 3);
    var m4 := if m.initialized then m
              else m.(trace := m.trace + [InitializeHook, Name(AfterInitialize)], initialized := true);
    if !m.initialized {
      FireInert(m.(trace := m.trace + [InitializeHook], initialized := true), AfterInitialize);
      assert Step(m, Initialize) == Fired(m4, Continue);
    }
    ExecuteStep(m4, 4);
    var extra := if m.initialized then [] else [InitializeHook, Name(AfterInitialize)];
    assert m4.trace == m.trace + extra;
    assert m4.trace + [ActionLabel(m4.pending)] == m.trace + extra + [ActionLabel(m.pending)];
  }

  /** Without closures before the action, a cycle runs its steps in the canonical
      order up to the action and marks the controller initialized. */
  lemma OpeningOfCycle(m: Machine)
    requires QuietOpening(m.handlers)
    ensures Cycle(m) ==
      RunPhases(m.(trace := m.trace + Opening(m.initialized, m.pending), forwarded := false, initialized := true),
                CyclePhases[5..])
  {
    StartOfCycle(m);
    var m3 := m.(trace := m.trace + [Name(BeforeDispatch), Name(BeforeExecuteRoute), BeforeExecuteRouteHook],
                 forwarded := false);
    ActionOfCycle(m3);
    var extra := if m.initialized then [] else [InitializeHook, Name(AfterInitialize)];
    assert m3.trace + extra + [ActionLabel(m3.pending)] == m.trace + Opening(m.initialized, m.pending);
  }

  /** Without closures after the action, the rest of a cycle is `afterExecuteRoute`,
      the controller's after-hook and `afterDispatch`, and the loop ends there. */
  lemma {:induction false} ClosingOfCycle(m: Machine)
    requires QuietClosing(m.handlers) && !m.forwarded
    ensures RunPhases(m, CyclePhases[5..]) == Cycled(m.(trace := m.trace + Closing), Done)
  {
    EmitStep(m, 5);
    FireInert(m, AfterExecuteRoute);
    var m6 := m.(trace := m.trace + [Name(AfterExecuteRoute)]);
    HookStep(m6, 6);
    var m7 := m6.(trace := m6.trace + [AfterExecuteRouteHook]);
    EmitStep(m7, 7);
    FireInert(m7, AfterDispatch);
    var m8 := m7.(trace := m7.trace + [Name(AfterDispatch)]);
    assert CyclePhases[8..] == [];
    assert m8.trace == m.trace + Closing;
  }

  /** The canonical order of one cycle: with no test closure inside the cycle, it
      traces exactly the opening and the closing labels and ends the loop. */
  lemma PlainCycle(m: Machine)
    requires QuietOpening(m.handlers) && QuietClosing(m.handlers)
    ensures Cycle(m) ==
      Cycled(m.(trace := m.trace + Opening(m.initialized, m.pending) + Closing, forwarded := false, initialized := true),
             Done)
  {
    OpeningOfCycle(m);
    ClosingOfCycle(m.(trace := m.trace + Opening(m.initialized, m.pending), forwarded := false, initialized := true));
  }

  /** With no test closure at all, a dispatch traces the canonical sequence of
      events and hooks once and returns normally. */
  lemma CanonicalDispatch(fuel: nat)
    requires fuel >= 1
    ensures Run(Start(map[]), fuel) ==
      Dispatched(
        Machine([Name(BeforeDispatchLoop)] + Opening(false, DefaultAction) + Closing + [Name(AfterDispatchLoop)],
                map[], DefaultAction, false, true),
        Ok)
  {
    FireInert(Start(map[]), BeforeDispatchLoop);
    var m1 := Start(map[]).(trace := [Name(BeforeDispatchLoop)]);
    assert Fire(Start(map[]), BeforeDispatchLoop) == Fired(m1, Continue) by {
      assert Start(map[]).trace + [Name(BeforeDispatchLoop)] == [Name(BeforeDispatchLoop)];
    }
    PlainCycle(m1);
    var m2 := m1.(trace := m1.trace + Opening(false, DefaultAction) + Closing, initialized := true);
    assert Loop(m1, fuel) == Looped(m2, Finished);
    FireInert(m2, AfterDispatchLoop);
    assert Finish(m1, fuel) == Dispatched(m2.(trace := m2.trace + [Name(AfterDispatchLoop)]), Ok);
    assert Run(Start(map[]), fuel) == Finish(m1, fuel);
  }

  /** False from `beforeDispatchLoop` ends the dispatch at once, whatever other
      closures are attached: nothing but that event (and the closure's own note) is
      traced, no cycle runs and `afterDispatchLoop` does not fire. */
  lemma StopBeforeDispatchLoop(m: Machine, fuel: nat)
    requires HandlerFor(m.handlers, BeforeDispatchLoop).action == Halt
    ensures Run(m, fuel).outcome == Ok
    ensures Run(m, fuel).m.trace == m.trace + [Name(BeforeDispatchLoop)] + NoteTrace(HandlerFor(m.handlers, BeforeDispatchLoop))
  {
  }

  /** Without a closure on `beforeDispatchLoop`, a dispatch is that event followed
      by the loop. */
  lemma OpenDispatch(m: Machine, fuel: nat)
    requires Inert(m.handlers, BeforeDispatchLoop)
    ensures Run(m, fuel) == Finish(m.(trace := m.trace + [Name(BeforeDispatchLoop)]), fuel)
  {
    FireInert(m, BeforeDispatchLoop);
  }

  /** A cycle that ends the loop normally is followed by `afterDispatchLoop`; without
      a closure there, the dispatch returns. */
  lemma FinishAfterDone(m: Machine, fuel: nat)
    requires fuel >= 1 && Cycle(m).ending == Done && Inert(Cycle(m).m.handlers, AfterDispatchLoop)
    ensures Finish(m, fuel) == Dispatched(Cycle(m).m.(trace := Cycle(m).m.trace + [Name(AfterDispatchLoop)]), Ok)
  {
    assert Loop(m, fuel) == Looped(Cycle(m).m, Finished);
    FireInert(Cycle(m).m, AfterDispatchLoop);
  }

  /** A cycle that ends in a forward is followed by the loop for the forwarded
      action, with one cycle fewer to go. */
  lemma FinishAfterNext(m: Machine, fuel: nat)
    requires fuel >= 1 && Cycle(m).ending == Next
    ensures Finish(m, fuel) == Finish(Cycle(m).m, fuel - 1)
  {
    assert Loop(m, fuel) == Loop(Cycle(m).m, fuel - 1);
  }

  /** A cycle whose exception nobody discarded aborts the dispatch with that
      exception, and `afterDispatchLoop` does not fire. */
  lemma FinishAfterFailed(m: Machine, fuel: nat)
    requires fuel >= 1 && Cycle(m).ending.Failed?
    ensures Finish(m, fuel) == Dispatched(Cycle(m).m, Err(Cycle(m).ending.message))
  {
    assert Loop(m, fuel) == Looped(Cycle(m).m, Aborted(Cycle(m).ending.message));
  }

  /** With no test closure left, the loop runs one plain cycle and then
      `afterDispatchLoop`. */
  lemma PlainFinish(m: Machine, fuel: nat)
    requires fuel >= 1 && QuietOpening(m.handlers) && QuietClosing(m.handlers) && Inert(m.handlers, AfterDispatchLoop)
    ensures Finish(m, fuel) ==
      Dispatched(m.(trace := m.trace + Opening(m.initialized, m.pending) + Closing + [Name(AfterDispatchLoop)],
                    forwarded := false, initialized := true),
                 Ok)
  {
    PlainCycle(m);
    FinishAfterDone(m, fuel);
  }

  /** Without closures before the action, the first event that can change the
      course of a cycle is `afterExecuteRoute`. */
  lemma {:induction false} CycleAtAfterExecuteRoute(m: Machine)
    requires QuietOpening(m.handlers)
    ensures
      var f := Fire(m.(trace := m.trace + Opening(m.initialized, m.pending), forwarded := false, initialized := true),
                    AfterExecuteRoute);
      Cycle(m) == if Proceeds(f) then RunPhases(f.m, CyclePhases[6..]) else Conclusion(f)
  {
    OpeningOfCycle(m);
    EmitStep(m.(trace := m.trace + Opening(m.initialized, m.pending), forwarded := false, initialized := true), 5);
  }

  /** The labels of a first cycle's opening, spelled out. */
  lemma FirstOpeningLabels(action: string)
    ensures Opening(false, action) == [
      "beforeDispatch", "beforeExecuteRoute", "beforeExecuteRoute-method",
      "initialize-method", "afterInitialize", ActionLabel(action)]
  {
  }

  /** A plain first cycle for `action` and `afterDispatchLoop`, spelled out. */
  lemma FirstCycleLabels(prefix: seq<string>, action: string)
    ensures prefix + Opening(false, action) + Closing + [Name(AfterDispatchLoop)] == prefix + [
      "beforeDispatch", "beforeExecuteRoute", "beforeExecuteRoute-method",
      "initialize-method", "afterInitialize", ActionLabel(action),
      "afterExecuteRoute", "afterExecuteRoute-method", "afterDispatch", "afterDispatchLoop"]
  {
    FirstOpeningLabels(action);
  }

  /** A plain later cycle for `action` and `afterDispatchLoop`, spelled out. */
  lemma LaterCycleLabels(prefix: seq<string>, action: string)
    ensures prefix + Opening(true, action) + Closing + [Name(AfterDispatchLoop)] == prefix + [
      "beforeDispatch", "beforeExecuteRoute", "beforeExecuteRoute-method", ActionLabel(action),
      "afterExecuteRoute", "afterExecuteRoute-method", "afterDispatch", "afterDispatchLoop"]
  {
    assert Opening(true, action) == [Name(BeforeDispatch), Name(BeforeExecuteRoute), BeforeExecuteRouteHook, ActionLabel(action)];
  }

  /** A test dispatcher's state right after `beforeDispatchLoop` fired without a
      closure on it. */
  function Opened(handlers: map<Event, Handler>): (m: Machine)
    ensures m == Start(handlers).(trace := Start(handlers).trace + [Name(BeforeDispatchLoop)])
  {
    Machine([Name(BeforeDispatchLoop)], handlers, DefaultAction, false, false)
  }

  /** A test dispatcher's state in its first cycle just before `afterExecuteRoute`
      fires, when no closure acted earlier. */
  function AtAfterExecuteRoute(handlers: map<Event, Handler>): (m: Machine)
    ensures m == Opened(handlers).(trace := Opened(handlers).trace + Opening(false, DefaultAction),
                                  forwarded := false, initialized := true)
    ensures m.trace == [
      "beforeDispatchLoop", "beforeDispatch", "beforeExecuteRoute", "beforeExecuteRoute-method",
      "initialize-method", "afterInitialize", "indexAction"]
  {
    FirstOpeningLabels(DefaultAction);
    assert ActionLabel(DefaultAction) == "indexAction";
    Machine([Name(BeforeDispatchLoop)] + Opening(false, DefaultAction), handlers, DefaultAction, false, true)
  }

  /** A dispatch whose first cycle ends the loop normally finishes with
      `afterDispatchLoop` and returns. */
  lemma DispatchDone(handlers: map<Event, Handler>, fuel: nat)
    requires fuel >= 1 && Inert(handlers, BeforeDispatchLoop)
    requires Cycle(Opened(handlers)).ending == Done && Inert(Cycle(Opened(handlers)).m.handlers, AfterDispatchLoop)
    ensures
      var c := Cycle(Opened(handlers));
      Run(Start(handlers), fuel) == Dispatched(c.m.(trace := c.m.trace + [Name(AfterDispatchLoop)]), Ok)
  {
    OpenDispatch(Start(handlers), fuel);
    FinishAfterDone(Opened(handlers), fuel);
  }

  /** A dispatch whose first cycle forwards, and which has no closure left that
      acts, runs one plain cycle for the forwarded action, then
      `afterDispatchLoop`, and returns. */
  lemma DispatchForwarded(handlers: map<Event, Handler>, fuel: nat)
    requires fuel >= 2 && Inert(handlers, BeforeDispatchLoop) && Cycle(Opened(handlers)).ending == Next
    requires
      var h := Cycle(Opened(handlers)).m.handlers;
      QuietOpening(h) && QuietClosing(h) && Inert(h, AfterDispatchLoop)
    ensures
      var m := Cycle(Opened(handlers)).m;
      Run(Start(handlers), fuel) ==
        Dispatched(m.(trace := m.trace + Opening(m.initialized, m.pending) + Closing + [Name(AfterDispatchLoop)],
                      forwarded := false, initialized := true),
                   Ok)
  {
    OpenDispatch(Start(handlers), fuel);
    FinishAfterNext(Opened(handlers), fuel);
    PlainFinish(Cycle(Opened(handlers)).m, fuel - 1);
  }

  /** A dispatch whose first cycle ends in an exception nobody discards lets that
      exception escape, without `afterDispatchLoop`. */
  lemma DispatchFailed(handlers: map<Event, Handler>, fuel: nat)
    requires fuel >= 1 && Inert(handlers, BeforeDispatchLoop) && Cycle(Opened(handlers)).ending.Failed?
    ensures
      var c := Cycle(Opened(handlers));
      Run(Start(handlers), fuel) == Dispatched(c.m, Err(c.ending.message))
  {
    OpenDispatch(Start(handlers), fuel);
    FinishAfterFailed(Opened(handlers), fuel);
  }

  /** Without closures before the action, an exception thrown from
      `afterExecuteRoute` by a silent closure goes straight to `beforeException`;
      a closure that throws only once is spent by then. */
  lemma ThrowAtAfterExecuteRoute(m: Machine)
    requires QuietOpening(m.handlers)
    requires HandlerFor(m.handlers, AfterExecuteRoute).action.Raise? && HandlerFor(m.handlers, AfterExecuteRoute).note == None
    ensures
      var h := HandlerFor(m.handlers, AfterExecuteRoute);
      var thrown := m.(trace := m.trace + Opening(m.initialized, m.pending) + [Name(AfterExecuteRoute)],
                       handlers := if h.once then m.handlers[AfterExecuteRoute := Absent] else m.handlers,
                       forwarded := false, initialized := true);
      Cycle(m) == Settle(Recover(thrown, h.action.message))
  {
    CycleAtAfterExecuteRoute(m);
    var ma := m.(trace := m.trace + Opening(m.initialized, m.pending), forwarded := false, initialized := true);
    assert NoteTrace(HandlerFor(m.handlers, AfterExecuteRoute)) == [];
  }

  /** No event outside `acting` has a test closure that does anything. */
  predicate OnlyOn(handlers: map<Event, Handler>, acting: set<Event>)
  {
    forall e :: e !in acting ==> Inert(handlers, e)
  }

  /** Spending the closure on `e` leaves only the other acting events. */
  lemma {:induction false} Spend(handlers: map<Event, Handler>, acting: set<Event>, e: Event)
    requires OnlyOn(handlers, acting)
    ensures OnlyOn(handlers[e := Absent], acting - {e})
  {
    forall e' | e' !in acting - {e} ensures Inert(handlers[e := Absent], e') {
      if e' != e {
        assert HandlerFor(handlers[e := Absent], e') == HandlerFor(handlers, e');
      }
    }
  }
}
