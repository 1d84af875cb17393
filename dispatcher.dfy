/** The dispatcher under test: its events manager holds the early listener (which
    sees every event first) and at most one test closure per event. `Dispatch` runs
    the dispatch loop, appending to the listener's trace as it goes. */
module Mvc {
  import opened Events
  import opened DispatchModel
  import Listener

  class Dispatcher {
    /** The early listener; the test controller traces into it too. */
    const listener: Listener.DispatcherListener
    /** The test closures attached to the events manager, one per event at most. */
    var handlers: map<Event, Handler>
    /** The action the next cycle runs. */
    var pending: string
    /** Set by `Forward`; cleared at the start of each cycle. */
    var forwarded: bool
    /** Whether the controller's initialize hook has run. */
    var initialized: bool

    /** The dispatcher and its listener's trace as one value. */
    function State(): Machine
      reads this, listener
    {
      Machine(listener.trace, handlers, pending, forwarded, initialized)
    }

    /** A dispatcher routed to the default action, with `listener` attached as its
        early listener and no test closure. */
    constructor (listener: Listener.DispatcherListener)
      ensures this.listener == listener
      ensures State() == Start(map[]).(trace := listener.trace)
    {
      this.listener := listener;
      handlers := map[];
      pending := DefaultAction;
      forwarded := false;
      initialized := false;
    }

    /** Attaches a test closure to `e`, after the early listener. */
    method Attach(e: Event, h: Handler)
      requires e !in handlers
      modifies this
      ensures handlers == old(handlers)[e := h]
      ensures pending == old(pending) && forwarded == old(forwarded) && initialized == old(initialized)
    {
      handlers := handlers[e := h];
    }

    /** Queues `target` as the action of the next cycle; nothing runs yet. */
    method Forward(target: string)
      modifies this
      ensures pending == target && forwarded
      ensures handlers == old(handlers) && initialized == old(initialized)
    {
      pending := target;
      forwarded := true;
    }

    /** Runs the test closure attached to `e`, if any; a closure marked `once`
        disarms itself after its first run. */
    method RunHandler(e: Event) returns (s: Signal)
      modifies this, listener
      ensures Fired(State(), s) == RunCustom(old(State()), e)
    {
      var h := HandlerFor(handlers, e);
      if h.note.Some? {
        listener.Trace(h.note.value);
      }
      if h.once {
        handlers := handlers[e := Handler(h.note, Proceed, false)];
      }
      match h.action
      case Proceed => s := Continue;
      case Halt => s := Stop;
      case Raise(message) => s := Thrown(message);
      case Redirect(target) =>
        Forward(target);
        s := Continue;
    }

    /** Fires an ordinary event: the early listener's method first, then the test
        closure. */
    method FireEvent(e: Event) returns (s: Signal)
      requires e != BeforeException
      modifies this, listener
      ensures Fired(State(), s) == Fire(old(State()), e)
    {
      match e {
      case BeforeDispatchLoop => listener.BeforeDispatchLoop();
      case BeforeDispatch => listener.BeforeDispatch();
      case BeforeExecuteRoute => listener.BeforeExecuteRoute();
      case AfterInitialize => listener.AfterInitialize();
      case AfterExecuteRoute => listener.AfterExecuteRoute();
      case AfterDispatch => listener.AfterDispatch();
      case AfterDispatchLoop => listener.AfterDispatchLoop();
      case BeforeNotFoundAction => listener.BeforeNotFoundAction();
      }
      s := RunHandler(e);
    }

    /** Fires `beforeException` for an exception and decides its fate. */
    method HandleException(message: string) returns (v: Verdict)
      modifies this, listener
      ensures Recovered(State(), v) == Recover(old(State()), message)
    {
      listener.BeforeException(message);
      var s := RunHandler(BeforeException);
      if s == Stop {
        v := Suppressed;
      } else if s.Thrown? {
        v := Fatal(s.message);
      } else if forwarded {
        v := Resumed;
      } else {
        v := Fatal(message);
      }
    }

    /** How a cycle ends after an event that stopped, forwarded or threw. */
    method Conclude(s: Signal) returns (ending: Ending)
      requires s != Continue || forwarded
      modifies this, listener
      ensures Cycled(State(), ending) == Conclusion(Fired(old(State()), s))
    {
      match s
      case Stop => ending := Done;
      case Continue => ending := Next;
      case Thrown(message) =>
        var v := HandleException(message);
        match v
        case Suppressed => ending := Done;
        case Resumed => ending := Next;
        case Fatal(other) => ending := Failed(other);
    }

    /** Fires an event inside a cycle; `over` tells that the cycle ends there, with
        `ending`. */
    method FireInCycle(e: Event) returns (over: bool, ending: Ending)
      requires e != BeforeException
      modifies this, listener
      ensures over == !Proceeds(Fire(old(State()), e))
      ensures over ==> Cycled(State(), ending) == Conclusion(Fire(old(State()), e))
      ensures !over ==> State() == Fire(old(State()), e).m
    {
      var s := FireEvent(e);
      over := s != Continue || forwarded;
      ending := Next;
      if over {
        ending := Conclude(s);
      }
    }

    /** One dispatch cycle for the pending action: `beforeDispatch`, then the route. */
    method RunCycle() returns (ending: Ending)
      modifies this, listener
      ensures Cycled(State(), ending) == Cycle(old(State()))
    {
      forwarded := false;
      assert CyclePhases[0..] == CyclePhases;
      EmitStep(State(), 0);
      var over;
      over, ending := FireInCycle(BeforeDispatch);
      if !over {
        ending := ExecuteRoute();
      }
    }

    /** `beforeExecuteRoute` and the controller's before-hook, then the action. */
    method ExecuteRoute() returns (ending: Ending)
      requires !forwarded
      modifies this, listener
      ensures Cycled(State(), ending) == RunPhases(old(State()), CyclePhases[1..])
    {
      EmitStep(State(), 1);
      var over;
      over, ending := FireInCycle(BeforeExecuteRoute);
      if !over {
        HookStep(State(), 2);
        listener.Trace(BeforeExecuteRouteHook);
        ending := InvokeAction();
      }
    }

    /** The controller's initialize hook and `afterInitialize`, on the first cycle
        only; `over` tells that the cycle ends there, with `ending`. */
    method InitializeController() returns (over: bool, ending: Ending)
      modifies this, listener
      ensures over == !Proceeds(Step(old(State()), Initialize))
      ensures over ==> Cycled(State(), ending) == Conclusion(Step(old(State()), Initialize))
      ensures !over ==> State() == Step(old(State()), Initialize).m
    {
      over, ending := forwarded, Next;
      if !initialized {
        listener.Trace(InitializeHook);
        initialized := true;
        over, ending := FireInCycle(AfterInitialize);
      }
    }

    /** The first-cycle initialization, then the pending action itself. */
    method InvokeAction() returns (ending: Ending)
      requires !forwarded
      modifies this, listener
      ensures Cycled(State(), ending) == RunPhases(old(State()), CyclePhases[3..])
    {
      RunFrom(State(), 3);
      var over;
      over, ending := InitializeController();
      if !over {
        ExecuteStep(State(), 4);
        listener.Trace(ActionLabel(pending));
        ending := CompleteCycle();
      }
    }

    /** `afterExecuteRoute`, the controller's after-hook and `afterDispatch`. */
    method CompleteCycle() returns (ending: Ending)
      requires !forwarded
      modifies this, listener
      ensures Cycled(State(), ending) == RunPhases(old(State()), CyclePhases[5..])
    {
      EmitStep(State(), 5);
      var over;
      over, ending := FireInCycle(AfterExecuteRoute);
      if over {
        return;
      }
      HookStep(State(), 6);
      listener.Trace(AfterExecuteRouteHook);
      EmitStep(State(), 7);
      over, ending := FireInCycle(AfterDispatch);
      if !over {
        assert CyclePhases[8..] == [];
        ending := Done;
      }
    }

    /** Runs cycles while each one ends in a forward, at most `maxCycles` of them. */
    method RunLoop(maxCycles: nat) returns (end: LoopEnd)
      modifies this, listener
      ensures Looped(State(), end) == Loop(old(State()), maxCycles)
    {
      ghost var loopStart := State();
      var left := maxCycles;
      end := OutOfCycles;
      var looping := true;
      while looping && left > 0
        invariant looping ==> Loop(State(), left) == Loop(loopStart, maxCycles)
        invariant !looping ==> Looped(State(), end) == Loop(loopStart, maxCycles)
        invariant looping ==> end == OutOfCycles
        decreases left
      {
        ghost var m := State();
        var ending := RunCycle();
        assert Loop(m, left) == match ending
          case Next => Loop(State(), left - 1)
          case Done => Looped(State(), Finished)
          case Failed(message) => Looped(State(), Aborted(message));
        left := left - 1;
        match ending
        case Next =>
        case Done =>
          end := Finished;
          looping := false;
        case Failed(message) =>
          end := Aborted(message);
          looping := false;
      }
    }

    /** The loop of cycles, then `afterDispatchLoop` if the loop finished. */
    method FinishLoop(maxCycles: nat) returns (outcome: Outcome)
      modifies this, listener
      ensures Dispatched(State(), outcome) == Finish(old(State()), maxCycles)
    {
      var end := RunLoop(maxCycles);
      match end
      case Aborted(message) => outcome := Err(message);
      case OutOfCycles => outcome := CycleLimit;
      case Finished =>
        var s := FireEvent(AfterDispatchLoop);
        outcome := Ok;
        if s.Thrown? {
          var v := HandleException(s.message);
          if v.Fatal? {
            outcome := Err(v.message);
          }
        }
    }

    /** One `dispatch()` call running at most `maxCycles` cycles. */
    method Dispatch(maxCycles: nat) returns (outcome: Outcome)
      modifies this, listener
      ensures Dispatched(State(), outcome) == Run(old(State()), maxCycles)
    {
      var s := FireEvent(BeforeDispatchLoop);
      if s == Stop {
        return Ok;
      }
      if s.Thrown? {
        var v := HandleException(s.message);
        match v
        case Suppressed => return Ok;
        case Fatal(other) => return Err(other);
        case Resumed =>
      }
      outcome := FinishLoop(maxCycles);
    }
  }
}
