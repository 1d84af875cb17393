/** The `beforeDispatchLoop` scenarios: a closure on that event forwards, returns
    false or throws, and `beforeException` discards, re-throws or forwards. Each
    lemma states the whole trace and the outcome of `dispatch()` for any message,
    note and forward target, and whatever other closures are attached as long as
    they do nothing. */
module BeforeDispatchLoopTests {
  import opened Events
  import opened DispatchModel
  import opened DispatchProperties

  /** Forwarding from `beforeDispatchLoop` replaces the default action before any
      cycle runs: the single cycle runs the target, initializing the controller. */
  lemma {:induction false} Forward(handlers: map<Event, Handler>, target: string, fuel: nat)
    requires fuel >= 1 && OnlyOn(handlers, {BeforeDispatchLoop})
    requires HandlerFor(handlers, BeforeDispatchLoop) == Handler(None, Redirect(target), false)
    ensures
      var r := Run(Start(handlers), fuel);
      r.outcome == Ok &&
      r.m.trace == [
        "beforeDispatchLoop",
        "beforeDispatch",
        "beforeExecuteRoute",
        "beforeExecuteRoute-method",
        "initialize-method",
        "afterInitialize",
        ActionLabel(target),
        "afterExecuteRoute",
        "afterExecuteRoute-method",
        "afterDispatch",
        "afterDispatchLoop"
      ]
  {
    var m1 := Machine([Name(BeforeDispatchLoop)], handlers, target, true, false);
    assert Fire(Start(handlers), BeforeDispatchLoop) == Fired(m1, Continue) by {
      assert NoteTrace(HandlerFor(handlers, BeforeDispatchLoop)) == [];
    }
    PlainFinish(m1, fuel);
    FirstCycleLabels([Name(BeforeDispatchLoop)], target);
  }

  /** False from `beforeDispatchLoop` cancels the dispatch at once: no cycle runs
      and `afterDispatchLoop` does not fire. */
  lemma {:induction false} ReturnFalse(handlers: map<Event, Handler>, fuel: nat)
    requires HandlerFor(handlers, BeforeDispatchLoop) == Handler(None, Halt, false)
    ensures
      var r := Run(Start(handlers), fuel);
      r.outcome == Ok && r.m.trace == ["beforeDispatchLoop"]
  {
    StopBeforeDispatchLoop(Start(handlers), fuel);
  }

  /** An exception from `beforeDispatchLoop` that `beforeException` discards by
      returning false cancels the dispatch without escaping. */
  lemma {:induction false} ThrowSuppressed(handlers: map<Event, Handler>, message: string, fuel: nat)
    requires HandlerFor(handlers, BeforeDispatchLoop) == Handler(None, Raise(message), false)
    requires HandlerFor(handlers, BeforeException) == Handler(None, Halt, false)
    ensures
      var r := Run(Start(handlers), fuel);
      r.outcome == Ok && r.m.trace == ["beforeDispatchLoop", ExceptionLabel(message)]
  {
    var m1 := Machine([Name(BeforeDispatchLoop)], handlers, DefaultAction, false, false);
    assert Fire(Start(handlers), BeforeDispatchLoop) == Fired(m1, Thrown(message)) by {
      assert NoteTrace(HandlerFor(handlers, BeforeDispatchLoop)) == [];
    }
    assert Recover(m1, message) == Recovered(m1.(trace := m1.trace + [ExceptionLabel(message)]), Suppressed);
  }

  /** An exception from `beforeDispatchLoop` that `beforeException` does not
      discard escapes `dispatch()` with its own message, after both
      `beforeException` handlers ran in attachment order. */
  lemma {:induction false} ThrowBubbles(handlers: map<Event, Handler>, message: string, note: string, fuel: nat)
    requires HandlerFor(handlers, BeforeDispatchLoop) == Handler(None, Raise(message), false)
    requires HandlerFor(handlers, BeforeException) == Handler(Some(note), Proceed, false)
    ensures
      var r := Run(Start(handlers), fuel);
      r.outcome == Err(message) && r.m.trace == ["beforeDispatchLoop", ExceptionLabel(message), note]
  {
    var m1 := Machine([Name(BeforeDispatchLoop)], handlers, DefaultAction, false, false);
    assert Fire(Start(handlers), BeforeDispatchLoop) == Fired(m1, Thrown(message)) by {
      assert NoteTrace(HandlerFor(handlers, BeforeDispatchLoop)) == [];
    }
    assert Recover(m1, message) == Recovered(m1.(trace := m1.trace + [ExceptionLabel(message), note]), Fatal(message));
  }

  /** A forward from `beforeException` resumes the dispatch at the loop. */
  lemma Resume(handlers: map<Event, Handler>, message: string, note: string, target: string, fuel: nat)
    requires HandlerFor(handlers, BeforeDispatchLoop) == Handler(None, Raise(message), false)
    requires HandlerFor(handlers, BeforeException) == Handler(Some(note), Redirect(target), false)
    ensures Run(Start(handlers), fuel) ==
      Finish(Machine([Name(BeforeDispatchLoop), ExceptionLabel(message), note], handlers, target, true, false), fuel)
  {
    var m1 := Machine([Name(BeforeDispatchLoop)], handlers, DefaultAction, false, false);
    assert Fire(Start(handlers), BeforeDispatchLoop) == Fired(m1, Thrown(message)) by {
      assert NoteTrace(HandlerFor(handlers, BeforeDispatchLoop)) == [];
    }
    var m2 := Machine([Name(BeforeDispatchLoop), ExceptionLabel(message), note], handlers, target, true, false);
    assert RunCustom(m1.(trace := m1.trace + [ExceptionLabel(message)]), BeforeException) == Fired(m2, Continue);
    assert Recover(m1, message) == Recovered(m2, Resumed);
  }

  /** The trace of the forward-from-`beforeException` test, spelled out. */
  lemma ThrowForwardedLabels(message: string, note: string, target: string)
    ensures [Name(BeforeDispatchLoop), ExceptionLabel(message), note] + Opening(false, target) + Closing + [Name(AfterDispatchLoop)] == [
      "beforeDispatchLoop", ExceptionLabel(message), note,
      "beforeDispatch", "beforeExecuteRoute", "beforeExecuteRoute-method",
      "initialize-method", "afterInitialize", ActionLabel(target),
      "afterExecuteRoute", "afterExecuteRoute-method", "afterDispatch", "afterDispatchLoop"]
  {
    FirstCycleLabels([Name(BeforeDispatchLoop), ExceptionLabel(message), note], target);
  }

  /** An exception from `beforeDispatchLoop`, with `beforeException` forwarding,
      does not escape: the loop runs one cycle for the target and
      `afterDispatchLoop` fires. */
  lemma {:induction false} ThrowForwarded(handlers: map<Event, Handler>, message: string, note: string, target: string, fuel: nat)
    requires fuel >= 1 && OnlyOn(handlers, {BeforeDispatchLoop, BeforeException})
    requires HandlerFor(handlers, BeforeDispatchLoop) == Handler(None, Raise(message), false)
    requires HandlerFor(handlers, BeforeException) == Handler(Some(note), Redirect(target), false)
    ensures
      var r := Run(Start(handlers), fuel);
      r.outcome == Ok &&
      r.m.trace == [
        "beforeDispatchLoop",
        ExceptionLabel(message),
        note,
        "beforeDispatch",
        "beforeExecuteRoute",
        "beforeExecuteRoute-method",
        "initialize-method",
        "afterInitialize",
        ActionLabel(target),
        "afterExecuteRoute",
        "afterExecuteRoute-method",
        "afterDispatch",
        "afterDispatchLoop"
      ]
  {
    var first := [Name(BeforeDispatchLoop), ExceptionLabel(message), note];
    var m2 := Machine(first, handlers, target, true, false);
    Resume(handlers, message, note, target, fuel);
    PlainFinish(m2, fuel);
    ThrowForwardedLabels(message, note, target);
  }
}
