/** The `afterExecuteRoute` scenarios: a closure on that event forwards, returns
    false or throws, and `beforeException` discards, re-throws or forwards. Each
    lemma states the whole trace and the outcome of `dispatch()` for any message,
    note and forward target, and whatever other closures are attached as long as
    they do nothing. */
module AfterExecuteRouteTests {
  import opened Events
  import opened DispatchModel
  import opened DispatchProperties

  /** Forwarding once from `afterExecuteRoute` abandons the rest of the first cycle
      (no after-hook, no `afterDispatch`), runs one full cycle for the target
      without initializing the controller again, and ends with one
      `afterDispatchLoop`. */
  lemma {:induction false} ForwardOnce(handlers: map<Event, Handler>, target: string, fuel: nat)
    requires fuel >= 2 && OnlyOn(handlers, {AfterExecuteRoute})
    requires HandlerFor(handlers, AfterExecuteRoute) == Handler(None, Redirect(target), true)
    ensures
      var r := Run(Start(handlers), fuel);
      r.outcome == Ok &&
      r.m.trace == [
        "beforeDispatchLoop",
        "beforeDispatch",
        "beforeExecuteRoute",
        "beforeExecuteRoute-method",
        "initialize-method",
        "afterInitialize",
        "indexAction",
        "afterExecuteRoute",
        "beforeDispatch",
        "beforeExecuteRoute",
        "beforeExecuteRoute-method",
        ActionLabel(target),
        "afterExecuteRoute",
        "afterExecuteRoute-method",
        "afterDispatch",
        "afterDispatchLoop"
      ]
  {
    var m1 := Opened(handlers);
    CycleAtAfterExecuteRoute(m1);
    var first := AtAfterExecuteRoute(handlers).trace + [Name(AfterExecuteRoute)];
    var spent := handlers[AfterExecuteRoute := Absent];
    assert Cycle(m1) == Cycled(Machine(first, spent, target, true, true), Next) by {
      assert NoteTrace(HandlerFor(handlers, AfterExecuteRoute)) == [];
    }
    Spend(handlers, {AfterExecuteRoute}, AfterExecuteRoute);
    DispatchForwarded(handlers, fuel);
    LaterCycleLabels(first, target);
  }

  /** False from `afterExecuteRoute` skips the after-hook and `afterDispatch`, but
      the loop still ends with `afterDispatchLoop` and the dispatch returns. */
  lemma {:induction false} ReturnFalse(handlers: map<Event, Handler>, note: string, fuel: nat)
    requires fuel >= 1 && OnlyOn(handlers, {AfterExecuteRoute})
    requires HandlerFor(handlers, AfterExecuteRoute) == Handler(Some(note), Halt, false)
    ensures
      var r := Run(Start(handlers), fuel);
      r.outcome == Ok &&
      r.m.trace == [
        "beforeDispatchLoop",
        "beforeDispatch",
        "beforeExecuteRoute",
        "beforeExecuteRoute-method",
        "initialize-method",
        "afterInitialize",
        "indexAction",
        "afterExecuteRoute",
        note,
        "afterDispatchLoop"
      ]
  {
    var m1 := Opened(handlers);
    CycleAtAfterExecuteRoute(m1);
    var m := AtAfterExecuteRoute(handlers);
    assert Cycle(m1) == Cycled(m.(trace := m.trace + [Name(AfterExecuteRoute), note]), Done);
    DispatchDone(handlers, fuel);
  }

  /** An exception from `afterExecuteRoute` that `beforeException` discards by
      returning false does not escape; the loop ends and `afterDispatchLoop` fires. */
  lemma {:induction false} ThrowSuppressed(handlers: map<Event, Handler>, message: string, fuel: nat)
    requires fuel >= 1 && OnlyOn(handlers, {AfterExecuteRoute, BeforeException})
    requires HandlerFor(handlers, AfterExecuteRoute) == Handler(None, Raise(message), false)
    requires HandlerFor(handlers, BeforeException) == Handler(None, Halt, false)
    ensures
      var r := Run(Start(handlers), fuel);
      r.outcome == Ok &&
      r.m.trace == [
        "beforeDispatchLoop",
        "beforeDispatch",
        "beforeExecuteRoute",
        "beforeExecuteRoute-method",
        "initialize-method",
        "afterInitialize",
        "indexAction",
        "afterExecuteRoute",
        ExceptionLabel(message),
        "afterDispatchLoop"
      ]
  {
    var m1 := Opened(handlers);
    ThrowAtAfterExecuteRoute(m1);
    var m := AtAfterExecuteRoute(handlers);
    var thrown := m.(trace := m.trace + [Name(AfterExecuteRoute)]);
    assert Cycle(m1) == Settle(Recover(thrown, message));
    assert Recover(thrown, message) == Recovered(thrown.(trace := thrown.trace + [ExceptionLabel(message)]), Suppressed);
    DispatchDone(handlers, fuel);
  }

  /** An exception from `afterExecuteRoute` that `beforeException` does not discard
      escapes `dispatch()` with its own message, after both `beforeException`
      handlers ran in attachment order; `afterDispatchLoop` does not fire. */
  lemma {:induction false} ThrowBubbles(handlers: map<Event, Handler>, message: string, note: string, fuel: nat)
    requires fuel >= 1 && OnlyOn(handlers, {AfterExecuteRoute, BeforeException})
    requires HandlerFor(handlers, AfterExecuteRoute) == Handler(None, Raise(message), false)
    requires HandlerFor(handlers, BeforeException) == Handler(Some(note), Proceed, false)
    ensures
      var r := Run(Start(handlers), fuel);
      r.outcome == Err(message) &&
      r.m.trace == [
        "beforeDispatchLoop",
        "beforeDispatch",
        "beforeExecuteRoute",
        "beforeExecuteRoute-method",
        "initialize-method",
        "afterInitialize",
        "indexAction",
        "afterExecuteRoute",
        ExceptionLabel(message),
        note
      ]
  {
    var m1 := Opened(handlers);
    ThrowAtAfterExecuteRoute(m1);
    var m := AtAfterExecuteRoute(handlers);
    var thrown := m.(trace := m.trace + [Name(AfterExecuteRoute)]);
    assert Cycle(m1) == Settle(Recover(thrown, message));
    assert Recover(thrown, message) == Recovered(thrown.(trace := thrown.trace + [ExceptionLabel(message), note]), Fatal(message));
    DispatchFailed(handlers, fuel);
  }

  /** An exception thrown once from `afterExecuteRoute`, with `beforeException`
      forwarding, does not escape: one full cycle for the target follows, without
      initializing the controller again, and then `afterDispatchLoop`. */
  lemma {:induction false} ThrowOnceForwarded(handlers: map<Event, Handler>, message: string, note: string, target: string, fuel: nat)
    requires fuel >= 2 && OnlyOn(handlers, {AfterExecuteRoute, BeforeException})
    requires HandlerFor(handlers, AfterExecuteRoute) == Handler(None, Raise(message), true)
    requires HandlerFor(handlers, BeforeException) == Handler(Some(note), Redirect(target), false)
    ensures
      var r := Run(Start(handlers), fuel);
      r.outcome == Ok &&
      r.m.trace == [
        "beforeDispatchLoop",
        "beforeDispatch",
        "beforeExecuteRoute",
        "beforeExecuteRoute-method",
        "initialize-method",
        "afterInitialize",
        "indexAction",
        "afterExecuteRoute",
        ExceptionLabel(message),
        note,
        "beforeDispatch",
        "beforeExecuteRoute",
        "beforeExecuteRoute-method",
        ActionLabel(target),
        "afterExecuteRoute",
        "afterExecuteRoute-method",
        "afterDispatch",
        "afterDispatchLoop"
      ]
  {
    var m1 := Opened(handlers);
    ThrowAtAfterExecuteRoute(m1);
    var spent := handlers[AfterExecuteRoute := Absent];
    var m := AtAfterExecuteRoute(handlers);
    var thrown := m.(trace := m.trace + [Name(AfterExecuteRoute)], handlers := spent);
    var first := thrown.trace + [ExceptionLabel(message), note];
    assert HandlerFor(spent, BeforeException) == HandlerFor(handlers, BeforeException);
    assert Recover(thrown, message) == Recovered(Machine(first, spent, target, true, true), Resumed);
    assert Cycle(m1) == Cycled(Machine(first, spent, target, true, true), Next);
    Spend(handlers, {AfterExecuteRoute, BeforeException}, AfterExecuteRoute);
    DispatchForwarded(handlers, fuel);
    LaterCycleLabels(first, target);
  }
}
