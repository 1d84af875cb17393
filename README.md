# Dispatcher event loop of the Phalcon MVC tests, in Dafny

This project models two parts of the Phalcon dispatcher tests (`tests/unit/Mvc/Dispatcher`):

- **the trace recorder** `DispatcherListener`. It is an append-only list of labels, with clear, read and strict compare. It has one method per dispatch event, each appending that event's name, and a `beforeException` method that appends `"beforeException: "` followed by the exception's message.
- **the dispatch event loop**, as the two test files pin it down with literal expected traces. Those files are `DispatcherAfterExecuteRouteTest.php` and `DispatcherBeforeDispatchLoopTest.php`.

The modules follow the program's structure:

- `Events` (events.dfy): the dispatch events and the labels the early listener traces for them.
- `Listener` (listener.dfy): the class `DispatcherListener`. Its field `trace` stands for `$_trace`. The PHP methods append to that array in place and `clearTrace` replaces it by an empty one; the Dafny methods assign each new value of the sequence.
- `DispatchModel` (dispatch_model.dfy): the dispatch loop as functions of values.
  - A `Machine` holds the trace, the attached test closures, the pending action (`index` at first), the forwarded flag and the controller-initialized flag.
  - `Fire` fires one event: the early listener traces its label, then the test closure on that event runs.
  - `Recover` routes an exception through `beforeException`.
  - `RunPhases`/`Cycle` runs one dispatch cycle. `Loop` repeats cycles while they forward. `Finish` adds `afterDispatchLoop`. `Run` is one whole `dispatch()` call.
- `Mvc` (dispatcher.dfy): the class `Dispatcher`. Its fields are the handlers, the pending action and the two flags, plus the listener it traces into. Each method is proved to do exactly what the matching `DispatchModel` function says.
- `DispatchProperties` (dispatch_properties.dfy): general lemmas. They cover the canonical order of a cycle, what a stop, a forward or an exception does, and that false in `beforeDispatchLoop` ends everything.
- `TraceCounts` (trace_counts.dfy): in a dispatch from a fresh test dispatcher whose closures trace none of these labels themselves, `beforeDispatchLoop` is traced exactly once, and `afterDispatchLoop` and `initialize-method` at most once each.
- `AfterExecuteRouteTests` (after_execute_route.dfy) and `BeforeDispatchLoopTests` (before_dispatch_loop.dfy): one lemma per test. Each states the exact trace and outcome for any message, note and forward target, with any other attached closures as long as they do nothing.
- `DispatcherTests` (dispatcher_tests.dfy): the ten tests replayed on the dispatcher class with the tests' own strings. Each returns the trace the test compares and whether an exception reached the test.

A test closure is a `Handler(note, action, once)`:

- `note` is a label the closure traces itself (`afterExecuteRoute: custom return false`, `beforeException: custom before exception bubble`, …).
- `action` is one of:
  - return nothing (`Proceed`);
  - return false (`Halt`);
  - throw an exception with a message (`Raise`);
  - call `forward(['action' => target])` (`Redirect`).
- `once` models the closures that capture `$forwarded` by reference and act only the first time they run.

`dispatch()` ends in one of three `Outcome`s: `Ok`, `Err(message)`, or `CycleLimit`. `Err(message)` is the exception that escapes to the test. `CycleLimit` means the cycle bound the caller passes was reached.

Two behaviours the tests pin down are easy to get wrong:

- A forward inside a cycle ends that cycle at once. The controller's after-hook and `afterDispatch` do not fire for it (`DispatcherAfterExecuteRouteTest.php:60-61`).
- `afterDispatchLoop` still fires after an in-cycle exception that `beforeException` discards. It does not fire after the same thing happens in `beforeDispatchLoop`.

## Model

| member | source | states |
|---|---|---|
| Listener.DispatcherListener.constructor | tests/unit/Mvc/Dispatcher/Helper/DispatcherListener.php:31 | a new listener's trace is empty |
| Listener.DispatcherListener.ClearTrace | tests/unit/Mvc/Dispatcher/Helper/DispatcherListener.php:33-36 | afterwards the trace is empty, whatever it held, so clearing twice equals clearing once |
| Listener.DispatcherListener.Trace | tests/unit/Mvc/Dispatcher/Helper/DispatcherListener.php:38-41 | the new trace is the old one followed by the label; it is one longer, earlier entries are unchanged and the last entry is the label |
| Listener.DispatcherListener.GetTrace | tests/unit/Mvc/Dispatcher/Helper/DispatcherListener.php:43-46 | returns the current trace and modifies nothing |
| Listener.DispatcherListener.Compare | tests/unit/Mvc/Dispatcher/Helper/DispatcherListener.php:48-51 | true exactly when the trace has the expected length and the expected label at every position; modifies nothing |
| Listener.DispatcherListener.BeforeDispatchLoop | tests/unit/Mvc/Dispatcher/Helper/DispatcherListener.php:53-56 | appends exactly `beforeDispatchLoop` |
| Listener.DispatcherListener.BeforeDispatch | tests/unit/Mvc/Dispatcher/Helper/DispatcherListener.php:58-61 | appends exactly `beforeDispatch` |
| Listener.DispatcherListener.BeforeExecuteRoute | tests/unit/Mvc/Dispatcher/Helper/DispatcherListener.php:63-66 | appends exactly `beforeExecuteRoute` |
| Listener.DispatcherListener.AfterInitialize | tests/unit/Mvc/Dispatcher/Helper/DispatcherListener.php:68-71 | appends exactly `afterInitialize` |
| Listener.DispatcherListener.AfterExecuteRoute | tests/unit/Mvc/Dispatcher/Helper/DispatcherListener.php:73-76 | appends exactly `afterExecuteRoute` |
| Listener.DispatcherListener.AfterDispatch | tests/unit/Mvc/Dispatcher/Helper/DispatcherListener.php:78-81 | appends exactly `afterDispatch` |
| Listener.DispatcherListener.AfterDispatchLoop | tests/unit/Mvc/Dispatcher/Helper/DispatcherListener.php:83-86 | appends exactly `afterDispatchLoop` |
| Listener.DispatcherListener.BeforeNotFoundAction | tests/unit/Mvc/Dispatcher/Helper/DispatcherListener.php:88-91 | appends exactly `beforeNotFoundAction` |
| Listener.DispatcherListener.BeforeException | tests/unit/Mvc/Dispatcher/Helper/DispatcherListener.php:93-96 | appends exactly `"beforeException: "` followed by the message |
| Events.ExceptionLabel | tests/unit/Mvc/Dispatcher/Helper/DispatcherListener.php:95 | the label is the 17-character prefix `beforeException: ` followed by the whole message |
| Events.Name | tests/unit/Mvc/Dispatcher/Helper/DispatcherListener.php:53-91 | each event is traced under its own name, which is that of the listener method handling it and starts `before` or `after` |
| Events.NamesDistinct | tests/unit/Mvc/Dispatcher/Helper/DispatcherListener.php:53-91 | two events get the same label exactly when they are the same event |
| Events.ExceptionLabelIsNoName | tests/unit/Mvc/Dispatcher/Helper/DispatcherListener.php:93-96 | an exception label never equals an event's own label |
| DispatchModel.ActionLabel | tests/unit/Mvc/Dispatcher/DispatcherAfterExecuteRouteTest.php:59 | the controller traces an action as its name followed by `Action` |
| DispatchModel.Start | tests/unit/Mvc/Dispatcher/DispatcherAfterExecuteRouteTest.php:41 | a fresh test dispatcher has an empty trace, the default action `index`, no forward and an uninitialized controller |
| DispatchModel.RunCustom | tests/unit/Mvc/Dispatcher/DispatcherAfterExecuteRouteTest.php:43-48 | a closure traces its note; it stops exactly when it returns false; a forward sets the pending action and the forwarded flag; the controller flag is unchanged; the exceptions closures can throw and the notes they trace only ever shrink, and a thrown exception is one of them |
| DispatchModel.Fire | tests/unit/Mvc/Dispatcher/DispatcherAfterExecuteRouteTest.php:102-103 | the early listener's label precedes the closure's note; an escaping exception is one an attached closure can throw |
| DispatchModel.Recover | tests/unit/Mvc/Dispatcher/DispatcherAfterExecuteRouteTest.php:125-145 | traces the exception label, then the handler's note; the exception is discarded exactly when `beforeException` returns false; outside a forward it resumes exactly when the handler forwards; a handler that returns nothing re-throws the original message; a re-thrown message is the original or one a closure can throw |
| DispatchModel.Step | tests/unit/Mvc/Dispatcher/DispatcherAfterExecuteRouteTest.php:54-60 | a step only appends to the trace and never enables a new exception |
| DispatchModel.Settle | tests/unit/Mvc/Dispatcher/DispatcherAfterExecuteRouteTest.php:134-192 | after `beforeException`, the cycle ends the loop exactly when the exception was discarded, starts another cycle exactly when the handler forwarded, and fails with the re-thrown message otherwise |
| DispatchModel.Conclusion | tests/unit/Mvc/Dispatcher/DispatcherAfterExecuteRouteTest.php:88-192 | after a stop the loop ends; after a forward the next cycle starts; after an exception `beforeException`'s label and note are traced and the loop ends exactly when its handler returns false; a cycle fails only through an exception |
| DispatchModel.ProceedsAfterFire | tests/unit/Mvc/Dispatcher/DispatcherAfterExecuteRouteTest.php:43-48 | a cycle goes on past an event exactly when no forward is pending and the event's closure returns nothing; false, a throw or a forward end the cycle there |
| DispatchModel.RunPhases | tests/unit/Mvc/Dispatcher/DispatcherAfterExecuteRouteTest.php:52-69 | the rest of a cycle only appends to the trace; an exception that aborts it is one a closure can throw |
| DispatchModel.Cycle | tests/unit/Mvc/Dispatcher/DispatcherAfterExecuteRouteTest.php:61-67 | one cycle only appends to the trace; an aborting exception comes from a closure |
| DispatchModel.Loop | tests/unit/Mvc/Dispatcher/DispatcherAfterExecuteRouteTest.php:225-244 | only appends to the trace; an aborting exception comes from a closure; with no cycles left the result is the cycle limit |
| DispatchModel.Finish | tests/unit/Mvc/Dispatcher/DispatcherAfterExecuteRouteTest.php:94-105 | the loop plus `afterDispatchLoop`; only appends; an escaping exception comes from a closure |
| DispatchModel.Run | tests/unit/Mvc/Dispatcher/DispatcherBeforeDispatchLoopTest.php:48-60 | `beforeDispatchLoop` is the first label a dispatch traces; an escaping exception comes from a closure |
| Mvc.Dispatcher.constructor | tests/unit/Mvc/Dispatcher/DispatcherAfterExecuteRouteTest.php:41 | the dispatcher starts as `Start` with no closure, on the listener's trace |
| Mvc.Dispatcher.Attach | tests/unit/Mvc/Dispatcher/DispatcherAfterExecuteRouteTest.php:43 | attaches one closure to an event; nothing else changes |
| Mvc.Dispatcher.Forward | tests/unit/Mvc/Dispatcher/DispatcherAfterExecuteRouteTest.php:45 | sets the pending action and the forwarded flag; runs nothing |
| Mvc.Dispatcher.RunHandler | tests/unit/Mvc/Dispatcher/DispatcherAfterExecuteRouteTest.php:43-48 | the new state and the signal are exactly `RunCustom`'s |
| Mvc.Dispatcher.FireEvent | tests/unit/Mvc/Dispatcher/DispatcherAfterExecuteRouteTest.php:102-103 | calls the listener's method for the event, then the closure; equals `Fire` |
| Mvc.Dispatcher.HandleException | tests/unit/Mvc/Dispatcher/DispatcherAfterExecuteRouteTest.php:165-192 | calls the listener's `beforeException`, then the closure; equals `Recover` |
| Mvc.Dispatcher.RunCycle | tests/unit/Mvc/Dispatcher/DispatcherAfterExecuteRouteTest.php:61-67 | one cycle of the class equals `Cycle` |
| Mvc.Dispatcher.Conclude | tests/unit/Mvc/Dispatcher/DispatcherAfterExecuteRouteTest.php:165-192 | a stop ends the loop, a forward starts the next cycle, an exception goes through `beforeException`; equals `Conclusion` |
| Mvc.Dispatcher.FireInCycle | tests/unit/Mvc/Dispatcher/DispatcherAfterExecuteRouteTest.php:94-103 | fires an event inside a cycle and reports that the cycle ends exactly when the event stopped, forwarded or threw; the state is `Fire`'s, or `Conclusion`'s when it ends |
| Mvc.Dispatcher.ExecuteRoute | tests/unit/Mvc/Dispatcher/DispatcherAfterExecuteRouteTest.php:62-64 | `beforeExecuteRoute`, the before-hook and the rest of the cycle equal `RunPhases` from the second step |
| Mvc.Dispatcher.InitializeController | tests/unit/Mvc/Dispatcher/DispatcherAfterExecuteRouteTest.php:57-58 | the initialize hook and `afterInitialize` run on the controller's first cycle only; equals the `Initialize` step |
| Mvc.Dispatcher.InvokeAction | tests/unit/Mvc/Dispatcher/DispatcherAfterExecuteRouteTest.php:57-59 | the initialization, the action and the rest of the cycle equal `RunPhases` from the fourth step |
| Mvc.Dispatcher.CompleteCycle | tests/unit/Mvc/Dispatcher/DispatcherAfterExecuteRouteTest.php:65-67 | `afterExecuteRoute`, the after-hook and `afterDispatch` equal `RunPhases` from the sixth step |
| Mvc.Dispatcher.RunLoop | tests/unit/Mvc/Dispatcher/DispatcherAfterExecuteRouteTest.php:225-244 | the `while` loop over cycles equals `Loop` |
| Mvc.Dispatcher.FinishLoop | tests/unit/Mvc/Dispatcher/DispatcherAfterExecuteRouteTest.php:94-105 | the loop and `afterDispatchLoop` equal `Finish` |
| Mvc.Dispatcher.Dispatch | tests/unit/Mvc/Dispatcher/DispatcherBeforeDispatchLoopTest.php:42-60 | one `dispatch()` call of the class equals `Run` in its new state and its outcome |
| DispatchProperties.FireInert | tests/unit/Mvc/Dispatcher/Helper/DispatcherListener.php:53-91 | an event without a test closure only traces its own name |
| DispatchModel.RunFrom | tests/unit/Mvc/Dispatcher/DispatcherAfterExecuteRouteTest.php:61-67 | the rest of a cycle from any step is that step, then either the following steps or the end of the cycle |
| DispatchModel.HookStep | tests/unit/Mvc/Dispatcher/DispatcherAfterExecuteRouteTest.php:63 | a controller hook traces its label and the cycle moves on |
| DispatchModel.ExecuteStep | tests/unit/Mvc/Dispatcher/DispatcherAfterExecuteRouteTest.php:59 | the action traces its label and the cycle moves on |
| DispatchModel.EmitStep | tests/unit/Mvc/Dispatcher/DispatcherAfterExecuteRouteTest.php:60 | an event either lets the cycle move on or ends it as its closure decided |
| DispatchProperties.StartOfCycle | tests/unit/Mvc/Dispatcher/DispatcherAfterExecuteRouteTest.php:54-56 | with no closures on the first two events, a cycle starts `beforeDispatch`, `beforeExecuteRoute`, the before-hook |
| DispatchProperties.ActionOfCycle | tests/unit/Mvc/Dispatcher/DispatcherAfterExecuteRouteTest.php:57-59 | with no closure on `afterInitialize`, the initialization appears on the first cycle only, then the action label |
| DispatchProperties.OpeningOfCycle | tests/unit/Mvc/Dispatcher/DispatcherAfterExecuteRouteTest.php:54-59 | with no closures before the action, a cycle starts `beforeDispatch`, `beforeExecuteRoute`, the before-hook, `initialize-method` and `afterInitialize` on the first cycle only, then the action, and marks the controller initialized |
| DispatchProperties.ClosingOfCycle | tests/unit/Mvc/Dispatcher/DispatcherAfterExecuteRouteTest.php:240-242 | with no closures after the action, the cycle ends `afterExecuteRoute`, the after-hook, `afterDispatch`, and the loop ends |
| DispatchProperties.PlainCycle | tests/unit/Mvc/Dispatcher/DispatcherAfterExecuteRouteTest.php:236-242 | a cycle without acting closures traces exactly the opening and the closing labels |
| DispatchProperties.CanonicalDispatch | tests/unit/Mvc/Dispatcher/DispatcherAfterExecuteRouteTest.php:52-69 | with no closure at all, a dispatch traces the canonical order once for `index` and returns |
| DispatchProperties.OpenDispatch | tests/unit/Mvc/Dispatcher/DispatcherBeforeDispatchLoopTest.php:48-49 | with no closure on `beforeDispatchLoop`, a dispatch is that label followed by the loop |
| DispatchProperties.FinishAfterDone | tests/unit/Mvc/Dispatcher/DispatcherAfterExecuteRouteTest.php:99-105 | a cycle that ends the loop is followed by `afterDispatchLoop` and a normal return |
| DispatchProperties.FinishAfterNext | tests/unit/Mvc/Dispatcher/DispatcherAfterExecuteRouteTest.php:225-236 | a cycle that forwards is followed by the loop for the new action, with one cycle fewer |
| DispatchProperties.FinishAfterFailed | tests/unit/Mvc/Dispatcher/DispatcherAfterExecuteRouteTest.php:173-180 | a cycle whose exception is not discarded aborts the dispatch with that message, without `afterDispatchLoop` |
| DispatchProperties.PlainFinish | tests/unit/Mvc/Dispatcher/DispatcherAfterExecuteRouteTest.php:236-243 | with no acting closure left, the loop is one plain cycle, then `afterDispatchLoop`, then a normal return |
| DispatchProperties.CycleAtAfterExecuteRoute | tests/unit/Mvc/Dispatcher/DispatcherAfterExecuteRouteTest.php:54-60 | with no closures before the action, the first event that can change a cycle's course is `afterExecuteRoute` |
| DispatchProperties.AtAfterExecuteRoute | tests/unit/Mvc/Dispatcher/DispatcherAfterExecuteRouteTest.php:53-59 | the state just before the first `afterExecuteRoute` has exactly the seven opening labels and an initialized controller |
| DispatchProperties.DispatchDone | tests/unit/Mvc/Dispatcher/DispatcherAfterExecuteRouteTest.php:94-105 | a dispatch whose first cycle ends the loop traces that cycle and `afterDispatchLoop`, then returns |
| DispatchProperties.Spend | tests/unit/Mvc/Dispatcher/DispatcherAfterExecuteRouteTest.php:43-48 | disarming a once-only closure leaves only the other events acting |
| DispatchProperties.StopBeforeDispatchLoop | tests/unit/Mvc/Dispatcher/DispatcherBeforeDispatchLoopTest.php:78-85 | false in `beforeDispatchLoop` ends the dispatch normally, with only that label and the closure's note traced, whatever else is attached |
| DispatchProperties.ThrowAtAfterExecuteRoute | tests/unit/Mvc/Dispatcher/DispatcherAfterExecuteRouteTest.php:134-143 | with no closures before the action, an exception thrown from `afterExecuteRoute` by a closure that traces no note of its own goes straight to `beforeException`, with a once-only closure spent |
| DispatchProperties.DispatchForwarded | tests/unit/Mvc/Dispatcher/DispatcherAfterExecuteRouteTest.php:236-243 | after a forward, one plain cycle for the new action and `afterDispatchLoop` follow |
| DispatchProperties.DispatchFailed | tests/unit/Mvc/Dispatcher/DispatcherAfterExecuteRouteTest.php:173-180 | an exception nobody discards escapes with its message, without `afterDispatchLoop` |
| TraceCounts.FireScore | tests/unit/Mvc/Dispatcher/Helper/DispatcherListener.php:53-91 | firing an event adds one occurrence of its own label and none of the other reserved labels |
| TraceCounts.RecoverScore | tests/unit/Mvc/Dispatcher/Helper/DispatcherListener.php:93-96 | `beforeException` adds none of `beforeDispatchLoop`, `afterDispatchLoop` and `initialize-method` |
| TraceCounts.StepScore | tests/unit/Mvc/Dispatcher/DispatcherAfterExecuteRouteTest.php:54-60 | a cycle step adds no `beforeDispatchLoop` or `afterDispatchLoop`, and `initialize-method` only by initializing |
| TraceCounts.InitializeScore | tests/unit/Mvc/Dispatcher/DispatcherAfterExecuteRouteTest.php:57-58 | `initialize-method` is traced exactly when the controller becomes initialized |
| TraceCounts.CycleScore | tests/unit/Mvc/Dispatcher/DispatcherAfterExecuteRouteTest.php:61-67 | one cycle keeps the count of each reserved label, with a pending initialization counted as one |
| TraceCounts.LoopScore | tests/unit/Mvc/Dispatcher/DispatcherAfterExecuteRouteTest.php:225-244 | the loop of cycles keeps the same counts, through any forwards |
| TraceCounts.FinishScore | tests/unit/Mvc/Dispatcher/DispatcherAfterExecuteRouteTest.php:94-105 | the loop and its end add at most one `afterDispatchLoop` and nothing else reserved |
| TraceCounts.RunPhasesScore | tests/unit/Mvc/Dispatcher/DispatcherAfterExecuteRouteTest.php:225-244 | no step of a cycle adds `beforeDispatchLoop` or `afterDispatchLoop`; `initialize-method` is added only by initializing the controller |
| TraceCounts.RunScoreBeforeDispatchLoop | tests/unit/Mvc/Dispatcher/DispatcherBeforeDispatchLoopTest.php:186-187 | a dispatch adds exactly one `beforeDispatchLoop`, through any exception and forward from `beforeException` |
| TraceCounts.RunScoreInitialize | tests/unit/Mvc/Dispatcher/DispatcherBeforeDispatchLoopTest.php:186-195 | a dispatch traces `initialize-method` only by initializing the controller, so at most once |
| TraceCounts.RunScoreAfterDispatchLoop | tests/unit/Mvc/Dispatcher/DispatcherBeforeDispatchLoopTest.php:186-200 | a dispatch adds at most one `afterDispatchLoop`, however often it forwards |
| TraceCounts.LoopLabelsOnce | tests/unit/Mvc/Dispatcher/DispatcherBeforeDispatchLoopTest.php:48-60 | from a fresh dispatcher, `beforeDispatchLoop` is traced first and exactly once, and `afterDispatchLoop` and `initialize-method` at most once, through any forwards and exceptions |
| AfterExecuteRouteTests.ForwardOnce | tests/unit/Mvc/Dispatcher/DispatcherAfterExecuteRouteTest.php:43-69 | the exact 16-label trace, with no after-hook or `afterDispatch` for the first cycle and no second initialization; the dispatch returns |
| AfterExecuteRouteTests.ReturnFalse | tests/unit/Mvc/Dispatcher/DispatcherAfterExecuteRouteTest.php:88-105 | the exact trace ending with the closure's note and `afterDispatchLoop`; the dispatch returns |
| AfterExecuteRouteTests.ThrowSuppressed | tests/unit/Mvc/Dispatcher/DispatcherAfterExecuteRouteTest.php:125-145 | the exact trace ending with the exception label and `afterDispatchLoop`; nothing escapes |
| AfterExecuteRouteTests.ThrowBubbles | tests/unit/Mvc/Dispatcher/DispatcherAfterExecuteRouteTest.php:165-192 | the exception escapes with its message; the trace ends with both `beforeException` labels in order, without `afterDispatchLoop` |
| AfterExecuteRouteTests.ThrowOnceForwarded | tests/unit/Mvc/Dispatcher/DispatcherAfterExecuteRouteTest.php:212-244 | the exact 18-label trace: a full cycle for the target without initialization, then `afterDispatchLoop`; nothing escapes |
| BeforeDispatchLoopTests.Forward | tests/unit/Mvc/Dispatcher/DispatcherBeforeDispatchLoopTest.php:42-60 | exactly one cycle, for the target, with initialization, between one `beforeDispatchLoop` and one `afterDispatchLoop` |
| BeforeDispatchLoopTests.ReturnFalse | tests/unit/Mvc/Dispatcher/DispatcherBeforeDispatchLoopTest.php:78-85 | the trace is exactly `beforeDispatchLoop`; the dispatch returns |
| BeforeDispatchLoopTests.ThrowSuppressed | tests/unit/Mvc/Dispatcher/DispatcherBeforeDispatchLoopTest.php:105-117 | the trace is exactly `beforeDispatchLoop` and the exception label, with no `afterDispatchLoop`; nothing escapes |
| BeforeDispatchLoopTests.ThrowBubbles | tests/unit/Mvc/Dispatcher/DispatcherBeforeDispatchLoopTest.php:137-157 | the exception escapes with its message; the trace is exactly `beforeDispatchLoop` and both `beforeException` labels in order |
| BeforeDispatchLoopTests.Resume | tests/unit/Mvc/Dispatcher/DispatcherBeforeDispatchLoopTest.php:179-190 | a forward from `beforeException` resumes the dispatch at the loop without firing `beforeDispatchLoop` again |
| BeforeDispatchLoopTests.ThrowForwarded | tests/unit/Mvc/Dispatcher/DispatcherBeforeDispatchLoopTest.php:176-200 | the exact 13-label trace: both `beforeException` labels, one full cycle for the target, `afterDispatchLoop`; nothing escapes |
| DispatcherTests.AfterExecuteRouteForwardOnce | tests/unit/Mvc/Dispatcher/DispatcherAfterExecuteRouteTest.php:35-72 | the dispatcher class produces the test's literal trace and no exception |
| DispatcherTests.AfterExecuteRouteReturnFalse | tests/unit/Mvc/Dispatcher/DispatcherAfterExecuteRouteTest.php:80-108 | the dispatcher class produces the test's literal trace and no exception |
| DispatcherTests.AfterExecuteRouteWithBeforeExceptionReturningFalse | tests/unit/Mvc/Dispatcher/DispatcherAfterExecuteRouteTest.php:118-148 | the dispatcher class produces the test's literal trace and no exception |
| DispatcherTests.AfterExecuteRouteWithBeforeExceptionBubble | tests/unit/Mvc/Dispatcher/DispatcherAfterExecuteRouteTest.php:157-195 | the exception reaches the test, and the trace is the test's literal trace |
| DispatcherTests.AfterExecuteRouteWithBeforeExceptionForwardOnce | tests/unit/Mvc/Dispatcher/DispatcherAfterExecuteRouteTest.php:203-247 | the dispatcher class produces the test's literal trace and no exception |
| DispatcherTests.BeforeDispatchLoopForward | tests/unit/Mvc/Dispatcher/DispatcherBeforeDispatchLoopTest.php:35-63 | the dispatcher class produces the test's literal trace and no exception |
| DispatcherTests.BeforeDispatchLoopReturnFalse | tests/unit/Mvc/Dispatcher/DispatcherBeforeDispatchLoopTest.php:71-88 | the dispatcher class produces the test's literal trace and no exception |
| DispatcherTests.BeforeDispatchLoopWithBeforeExceptionReturningFalse | tests/unit/Mvc/Dispatcher/DispatcherBeforeDispatchLoopTest.php:98-120 | the dispatcher class produces the test's literal trace and no exception |
| DispatcherTests.BeforeDispatchLoopWithBeforeExceptionBubble | tests/unit/Mvc/Dispatcher/DispatcherBeforeDispatchLoopTest.php:129-160 | the exception reaches the test, and the trace is the test's literal trace |
| DispatcherTests.BeforeDispatchLoopWithBeforeExceptionForward | tests/unit/Mvc/Dispatcher/DispatcherBeforeDispatchLoopTest.php:168-202 | the dispatcher class produces the test's literal trace and no exception |

## Left out

- The Phalcon dispatcher, events manager, DI container, `BaseDispatcher` and the test controller are not part of this model. The loop is modelled from the traces the tests expect. The controller is reduced to the labels its hooks and actions trace.
- Controller hooks never return false or throw: no test gives them a behaviour.
- Mvc.Dispatcher.Attach: at most one test closure per event. No test attaches two closures to one event, so how several closures' results combine is not modelled. Whether false from one closure stops the others is not modelled either.
- Closures on the other in-cycle events (`beforeDispatch`, `beforeExecuteRoute`, `afterInitialize`, `afterDispatch`) follow the same rules as `afterExecuteRoute`. A stop ends the loop, a forward ends the cycle, and an exception goes to `beforeException`. The tests pin down only `afterExecuteRoute` and `beforeDispatchLoop`.
- A closure on `afterDispatchLoop` runs after the loop is over. A forward from it is dropped and no further cycle runs. False from it changes nothing. An exception from it goes to `beforeException`; if that handler forwards, the dispatch returns normally without running the forwarded action. No test pins these down.
- A closure on `beforeException` follows its own rules, given by `DispatchModel.Recover`. False discards the exception, a forward resumes the loop at the forwarded action, and a throw replaces the exception. Returning nothing re-throws it. An exception it throws is not routed through `beforeException` again.
- A closure performs one action. A closure that both forwards and returns false is not modelled.
- `beforeNotFoundAction` is only a listener label; the loop never fires it, since not-found actions are not modelled.
- An exception thrown by a `beforeException` closure escapes with its own message (`Fatal`). No lemma asserts that case, since no test pins it down.
- Forward parameters other than the action name, and exception objects beyond their message.
- Mvc.Dispatcher.Dispatch: the real dispatcher's cyclic-routing guard is not modelled. The model takes a cycle bound from the caller instead and reports `CycleLimit` when it is reached. The test replays pass a bound of 8, and each test forwards at most once.
- The Codeception `specify`/`expect` plumbing; the replays return the trace and the caught flag that the tests compare.
