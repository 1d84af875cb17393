/** The dispatch loop as a function of values: what one `dispatch()` call does to
    the trace, the attached closures, the pending action and the dispatcher's flags.
    The class `Mvc.Dispatcher` is proved to behave exactly as `Run` says. */
module DispatchModel {
  import opened Events

  datatype Option<T> = None | Some(value: T)

  /** What a test closure does once it has traced its note. */
  datatype Action =
    | Proceed                  // returns nothing (null)
    | Halt                     // returns false
    | Raise(message: string)   // throws an exception with this message
    | Redirect(target: string) // calls forward(['action' => target])

  /** A closure a test attaches to one event. With `once`, the closure performs its
      action the first time it runs only: it captures a `$forwarded` flag by
      reference and flips it. */
  datatype Handler = Handler(note: Option<string>, action: Action, once: bool)

  /** What an event without a test closure behaves like. */
  const Absent: Handler := Handler(None, Proceed, false)

  /** The action the test dispatcher starts from. */
  const DefaultAction: string := "index"

  /** Labels the test controller traces from its hook methods. */
  const BeforeExecuteRouteHook: string := "beforeExecuteRoute-method"
  const InitializeHook: string := "initialize-method"
  const AfterExecuteRouteHook: string := "afterExecuteRoute-method"

  /** The label the test controller traces when action `name` runs. */
  function ActionLabel(name: string): (text: string)
    ensures |text| == |name| + 6 && text[..|name|] == name && text[|name|..] == "Action"
  {
    name + "Action"
  }

  /** The state one dispatch works on: the listener's trace, the closures attached
      to the events manager, the action the next cycle runs, whether a forward
      happened in the current cycle, and whether the controller was initialized. */
  datatype Machine = Machine(
    trace: seq<string>,
    handlers: map<Event, Handler>,
    pending: string,
    forwarded: bool,
    initialized: bool)

  /** A fresh test dispatcher with the given closures attached and an empty trace. */
  function Start(handlers: map<Event, Handler>): (m: Machine)
    ensures m.trace == [] && m.handlers == handlers && m.pending == DefaultAction
    ensures !m.forwarded && !m.initialized
  {
    Machine([], handlers, DefaultAction, false, false)
  }

  function HandlerFor(handlers: map<Event, Handler>, e: Event): Handler
  {
    if e in handlers then handlers[e] else Absent
  }

  function NoteTrace(h: Handler): seq<string>
  {
    if h.note.Some? then [h.note.value] else []
  }

  /** The messages of the exceptions the attached closures can still throw. */
  function Raised(handlers: map<Event, Handler>): set<string>
  {
    set e | e in handlers && handlers[e].action.Raise? :: handlers[e].action.message
  }

  /** The labels the attached closures trace. */
  function Notes(handlers: map<Event, Handler>): set<string>
  {
    set e | e in handlers && handlers[e].note.Some? :: handlers[e].note.value
  }

  /** What firing an event amounts to for the dispatcher: the value the last
      handler returned, or the exception one of them threw. */
  datatype Signal = Continue | Stop | Thrown(message: string)

  datatype Fired = Fired(m: Machine, signal: Signal)

  /** Runs the test closure attached to `e`, if there is one. */
  function RunCustom(m: Machine, e: Event): (r: Fired)
    ensures r.m.trace == m.trace + NoteTrace(HandlerFor(m.handlers, e))
    ensures r.m.initialized == m.initialized
    ensures r.m.forwarded == (m.forwarded || HandlerFor(m.handlers, e).action.Redirect?)
    ensures r.m.pending == if HandlerFor(m.handlers, e).action.Redirect? then HandlerFor(m.handlers, e).action.target else m.pending
    ensures r.signal == Stop <==> HandlerFor(m.handlers, e).action == Halt
    ensures Raised(r.m.handlers) <= Raised(m.handlers)
    ensures Notes(r.m.handlers) <= Notes(m.handlers)
    ensures r.signal.Thrown? ==> r.signal.message in Raised(m.handlers)
  {
    var h := HandlerFor(m.handlers, e);
    var m1 := m.(trace := m.trace + NoteTrace(h),
                 handlers := if h.once then m.handlers[e := Handler(h.note, Proceed, false)] else m.handlers);
    assert Raised(m1.handlers) <= Raised(m.handlers) by {
      forall x | x in Raised(m1.handlers) ensures x in Raised(m.handlers) {
        var e' :| e' in m1.handlers && m1.handlers[e'].action.Raise? && m1.handlers[e'].action.message == x;
        assert e' != e || !h.once;
      }
    }
    assert Notes(m1.handlers) <= Notes(m.handlers) by {
      forall x | x in Notes(m1.handlers) ensures x in Notes(m.handlers) {
        var e' :| e' in m1.handlers && m1.handlers[e'].note.Some? && m1.handlers[e'].note.value == x;
        assert e' in m.handlers && m.handlers[e'].note == m1.handlers[e'].note;
      }
    }
    match h.action
    case Proceed => Fired(m1, Continue)
    case Halt => Fired(m1, Stop)
    case Raise(message) => Fired(m1, Thrown(message))
    case Redirect(target) => Fired(m1.(pending := target, forwarded := true), Continue)
  }

  /** Fires an ordinary event: the early listener traces the event's name, then the
      test closure runs. */
  function Fire(m: Machine, e: Event): (r: Fired)
    ensures r.m.trace == m.trace + [Name(e)] + NoteTrace(HandlerFor(m.handlers, e))
    ensures Raised(r.m.handlers) <= Raised(m.handlers)
    ensures Notes(r.m.handlers) <= Notes(m.handlers)
    ensures r.signal.Thrown? ==> r.signal.message in Raised(m.handlers)
  {
    RunCustom(m.(trace := m.trace + [Name(e)]), e)
  }

  /** How `beforeException` settles an exception: discarded, discarded with a
      forward to resume from, or re-thrown. */
  datatype Verdict = Suppressed | Resumed | Fatal(message: string)

  datatype Recovered = Recovered(m: Machine, verdict: Verdict)

  /** Routes an exception through `beforeException`. Returning false discards it;
      a forward without false discards it and resumes at the forwarded action;
      anything else re-throws the original exception (or the one the handler
      itself threw). */
  function Recover(m: Machine, message: string): (r: Recovered)
    ensures r.m.trace == m.trace + [ExceptionLabel(message)] + NoteTrace(HandlerFor(m.handlers, BeforeException))
    ensures r.verdict == Suppressed <==> HandlerFor(m.handlers, BeforeException).action == Halt
    ensures !m.forwarded ==>
      (r.verdict == Resumed <==> HandlerFor(m.handlers, BeforeException).action.Redirect?)
    ensures HandlerFor(m.handlers, BeforeException).action == Proceed && !m.forwarded ==> r.verdict == Fatal(message)
    ensures Raised(r.m.handlers) <= Raised(m.handlers)
    ensures Notes(r.m.handlers) <= Notes(m.handlers)
    ensures r.verdict.Fatal? ==> r.verdict.message == message || r.verdict.message in Raised(m.handlers)
  {
    var f := RunCustom(m.(trace := m.trace + [ExceptionLabel(message)]), BeforeException);
    var verdict :=
      match f.signal
      case Stop => Suppressed
      case Thrown(other) => Fatal(other)
      case Continue => if f.m.forwarded then Resumed else Fatal(message);
    Recovered(f.m, verdict)
  }

  /** One step of a dispatch cycle. */
  datatype Phase =
    | Emit(event: Event)      // fire a dispatch event
    | Hook(text: string)      // a controller hook method; it never stops the cycle
    | Initialize              // the controller's initialize hook and afterInitialize, first cycle only
    | Execute                 // the pending action itself

  /** The steps of one dispatch cycle, in order. */
  const CyclePhases: seq<Phase> := [
    Emit(BeforeDispatch),
    Emit(BeforeExecuteRoute),
    Hook(BeforeExecuteRouteHook),
    Initialize,
    Execute,
    Emit(AfterExecuteRoute),
    Hook(AfterExecuteRouteHook),
    Emit(AfterDispatch)
  ]

  function Step(m: Machine, p: Phase): (r: Fired)
    ensures m.trace <= r.m.trace
    ensures Raised(r.m.handlers) <= Raised(m.handlers)
    ensures Notes(r.m.handlers) <= Notes(m.handlers)
    ensures r.signal.Thrown? ==> r.signal.message in Raised(m.handlers)
  {
    match p
    case Emit(e) => Fire(m, e)
    case Hook(text) => Fired(m.(trace := m.trace + [text]), Continue)
    case Initialize =>
      if m.initialized then Fired(m, Continue)
      else Fire(m.(trace := m.trace + [InitializeHook], initialized := true), AfterInitialize)
    case Execute => Fired(m.(trace := m.trace + [ActionLabel(m.pending)]), Continue)
  }

  /** How a cycle ends: another cycle for a forwarded action, the end of the loop,
      or an exception nobody discarded. */
  datatype Ending = Next | Done | Failed(message: string)

  datatype Cycled = Cycled(m: Machine, ending: Ending)

  /** An exception inside a cycle: a discarded one ends the loop normally, a forward
      starts another cycle, anything else aborts the dispatch. */
  function Settle(r: Recovered): (c: Cycled)
    ensures c.m == r.m
    ensures c.ending == Done <==> r.verdict == Suppressed
    ensures c.ending == Next <==> r.verdict == Resumed
    ensures c.ending.Failed? <==> r.verdict.Fatal?
    ensures c.ending.Failed? ==> c.ending.message == r.verdict.message
  {
    match r.verdict
    case Suppressed => Cycled(r.m, Done)
    case Resumed => Cycled(r.m, Next)
    case Fatal(message) => Cycled(r.m, Failed(message))
  }

  /** How a cycle ends after a step that stopped, forwarded or threw. */
  function Conclusion(f: Fired): (c: Cycled)
    ensures f.signal == Stop ==> c == Cycled(f.m, Done)
    ensures f.signal == Continue ==> c == Cycled(f.m, Next)
    ensures f.signal.Thrown? ==>
      c.m.trace == f.m.trace + [ExceptionLabel(f.signal.message)] + NoteTrace(HandlerFor(f.m.handlers, BeforeException))
    ensures f.signal.Thrown? ==>
      (c.ending == Done <==> HandlerFor(f.m.handlers, BeforeException).action == Halt)
    ensures c.ending.Failed? ==> f.signal.Thrown?
  {
    match f.signal
    case Stop => Cycled(f.m, Done)
    case Thrown(message) => Settle(Recover(f.m, message))
    case Continue => Cycled(f.m, Next)
  }

  /** Whether the cycle goes on to its next step after `f`. */
  predicate Proceeds(f: Fired)
  {
    f.signal == Continue && !f.m.forwarded
  }

  /** A cycle goes on past an event exactly when no forward is pending and the
      event's closure (if any) returns nothing: false, a throw or a forward all
      end the cycle there. */
  lemma ProceedsAfterFire(m: Machine, e: Event)
    ensures Proceeds(Fire(m, e)) <==> !m.forwarded && HandlerFor(m.handlers, e).action == Proceed
  {
  }

  /** Runs what is left of a cycle. A stop ends the loop; a forward skips the rest
      of the cycle; an exception goes to `beforeException`. */
  function RunPhases(m: Machine, phases: seq<Phase>): (r: Cycled)
    decreases |phases|
    ensures m.trace <= r.m.trace
    ensures Raised(r.m.handlers) <= Raised(m.handlers)
    ensures Notes(r.m.handlers) <= Notes(m.handlers)
    ensures r.ending.Failed? ==> r.ending.message in Raised(m.handlers)
  {
    if phases == [] then Cycled(m, if m.forwarded then Next else Done)
    else
      var f := Step(m, phases[0]);
      if Proceeds(f) then RunPhases(f.m, phases[1..]) else Conclusion(f)
  }

  /** Running the cycle from its `i`-th step: that step, then the rest or the end. */
  lemma {:induction false} RunFrom(m: Machine, i: nat)
    requires i < |CyclePhases|
    ensures
      var f := Step(m, CyclePhases[i]);
      RunPhases(m, CyclePhases[i..]) ==
        if Proceeds(f) then RunPhases(f.m, CyclePhases[i + 1..]) else Conclusion(f)
  {
    assert CyclePhases[i..][0] == CyclePhases[i];
    assert CyclePhases[i..][1..] == CyclePhases[i + 1..];
  }

  /** A controller hook step of the cycle traces its label and moves on. */
  lemma HookStep(m: Machine, i: nat)
    requires i < |CyclePhases| && CyclePhases[i].Hook? && !m.forwarded
    ensures RunPhases(m, CyclePhases[i..]) ==
      RunPhases(m.(trace := m.trace + [CyclePhases[i].text]), CyclePhases[i + 1..])
  {
    RunFrom(m, i);
  }

  /** The action step of the cycle traces the pending action and moves on. */
  lemma ExecuteStep(m: Machine, i: nat)
    requires i < |CyclePhases| && CyclePhases[i] == Execute && !m.forwarded
    ensures RunPhases(m, CyclePhases[i..]) ==
      RunPhases(m.(trace := m.trace + [ActionLabel(m.pending)]), CyclePhases[i + 1..])
  {
    RunFrom(m, i);
  }

  /** An event step of the cycle moves on or ends the cycle, as the event's
      handlers decide. */
  lemma EmitStep(m: Machine, i: nat)
    requires i < |CyclePhases| && CyclePhases[i].Emit?
    ensures
      var f := Fire(m, CyclePhases[i].event);
      RunPhases(m, CyclePhases[i..]) == if Proceeds(f) then RunPhases(f.m, CyclePhases[i + 1..]) else Conclusion(f)
  {
    RunFrom(m, i);
  }

  /** One dispatch cycle for the pending action; the forwarded flag starts clear. */
  function Cycle(m: Machine): (r: Cycled)
    ensures m.trace <= r.m.trace
    ensures Raised(r.m.handlers) <= Raised(m.handlers)
    ensures Notes(r.m.handlers) <= Notes(m.handlers)
    ensures r.ending.Failed? ==> r.ending.message in Raised(m.handlers)
  {
    RunPhases(m.(forwarded := false), CyclePhases)
  }

  /** How the loop of cycles ends. `OutOfCycles`: the cycle bound was reached with
      a forward still pending. */
  datatype LoopEnd = Finished | Aborted(message: string) | OutOfCycles

  datatype Looped = Looped(m: Machine, end: LoopEnd)

  /** Runs cycles while each one ends in a forward, at most `fuel` of them. */
  function Loop(m: Machine, fuel: nat): (r: Looped)
    decreases fuel
    ensures m.trace <= r.m.trace
    ensures Raised(r.m.handlers) <= Raised(m.handlers)
    ensures Notes(r.m.handlers) <= Notes(m.handlers)
    ensures r.end.Aborted? ==> r.end.message in Raised(m.handlers)
    ensures fuel == 0 ==> r.end == OutOfCycles
  {
    if fuel == 0 then Looped(m, OutOfCycles)
    else
      var c := Cycle(m);
      match c.ending
      case Next => Loop(c.m, fuel - 1)
      case Done => Looped(c.m, Finished)
      case Failed(message) => Looped(c.m, Aborted(message))
  }

  /** What `dispatch()` reports: a normal return, an exception escaping to the
      caller, or the cycle bound reached. */
  datatype Outcome = Ok | Err(message: string) | CycleLimit

  datatype Dispatched = Dispatched(m: Machine, outcome: Outcome)

  /** The loop of cycles followed by `afterDispatchLoop`, which fires only when the
      loop finished without an escaping exception. */
  function Finish(m: Machine, fuel: nat): (r: Dispatched)
    ensures m.trace <= r.m.trace
    ensures r.outcome.Err? ==> r.outcome.message in Raised(m.handlers)
  {
    var l := Loop(m, fuel);
    match l.end
    case Aborted(message) => Dispatched(l.m, Err(message))
    case OutOfCycles => Dispatched(l.m, CycleLimit)
    case Finished =>
      var f := Fire(l.m, AfterDispatchLoop);
      match f.signal
      case Thrown(message) =>
        var r := Recover(f.m, message);
        Dispatched(r.m, if r.verdict.Fatal? then Err(r.verdict.message) else Ok)
      case _ => Dispatched(f.m, Ok)
  }

  /** One `dispatch()` call. `beforeDispatchLoop` fires first, once; false there
      ends the dispatch at once, and an exception there that `beforeException`
      discards ends it too, in both cases without `afterDispatchLoop`. */
  function Run(m: Machine, fuel: nat): (r: Dispatched)
    ensures m.trace <= r.m.trace
    ensures |r.m.trace| > |m.trace| && r.m.trace[|m.trace|] == Name(BeforeDispatchLoop)
    ensures r.outcome.Err? ==> r.outcome.message in Raised(m.handlers)
  {
    var f := Fire(m, BeforeDispatchLoop);
    match f.signal
    case Stop => Dispatched(f.m, Ok)
    case Thrown(message) =>
      var r := Recover(f.m, message);
      (match r.verdict
       case Suppressed => Dispatched(r.m, Ok)
       case Fatal(other) => Dispatched(r.m, Err(other))
       case Resumed => Finish(r.m, fuel))
    case Continue => Finish(f.m, fuel)
  }
}
