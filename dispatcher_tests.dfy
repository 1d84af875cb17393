/** The dispatcher tests replayed on the dispatcher class: each method builds a
    fresh listener and dispatcher, attaches the test's closures, dispatches, and
    returns what the test inspects (the listener's trace, and whether the
    exception reached the test). An exception entry is written as the listener
    builds it, the `beforeException: ` prefix followed by the thrown message. */
module DispatcherTests {
  import opened Events
  import opened DispatchModel
  import Listener
  import Mvc
  import AfterExecuteRouteTests
  import BeforeDispatchLoopTests

  /** A cycle bound no test reaches: each test forwards at most once. */
  const Cycles: nat := 8

  /** The controller's label for the action the tests forward to. */
  lemma Index2Label()
    ensures ActionLabel("index2") == "index2Action"
  {
  }

  method AfterExecuteRouteForwardOnce() returns (trace: seq<string>, caught: bool)
    ensures !caught
    ensures trace == [
      "beforeDispatchLoop",
      "beforeDispatch",
      "beforeExecuteRoute",
      "beforeExecuteRoute-method",
      "initialize-method",
      "afterInitialize",
      "indexAction",
      "afterExecuteRoute",
      "beforeDispatch",
      "beforeExecuteRoute",
      "beforeExecuteRoute-method",
      "index2Action",
      "afterExecuteRoute",
      "afterExecuteRoute-method",
      "afterDispatch",
      "afterDispatchLoop"
    ]
  {
    var listener := new Listener.DispatcherListener();
    var dispatcher := new Mvc.Dispatcher(listener);
    dispatcher.Attach(AfterExecuteRoute, Handler(None, Redirect("index2"), true));
    var start := dispatcher.State();
    var outcome := dispatcher.Dispatch(Cycles);
    AfterExecuteRouteTests.ForwardOnce(start.handlers, "index2", Cycles);
    Index2Label();
    caught := outcome.Err?;
    trace := listener.GetTrace();
  }

  method AfterExecuteRouteReturnFalse() returns (trace: seq<string>, caught: bool)
    ensures !caught
    ensures trace == [
      "beforeDispatchLoop",
      "beforeDispatch",
      "beforeExecuteRoute",
      "beforeExecuteRoute-method",
      "initialize-method",
      "afterInitialize",
      "indexAction",
      "afterExecuteRoute",
      "afterExecuteRoute: custom return false",
      "afterDispatchLoop"
    ]
  {
    var listener := new Listener.DispatcherListener();
    var dispatcher := new Mvc.Dispatcher(listener);
    dispatcher.Attach(AfterExecuteRoute, Handler(Some("afterExecuteRoute: custom return false"), Halt, false));
    var start := dispatcher.State();
    var outcome := dispatcher.Dispatch(Cycles);
    AfterExecuteRouteTests.ReturnFalse(start.handlers, "afterExecuteRoute: custom return false", Cycles);
    caught := outcome.Err?;
    trace := listener.GetTrace();
  }

  method AfterExecuteRouteWithBeforeExceptionReturningFalse() returns (trace: seq<string>, caught: bool)
    ensures !caught
    ensures trace == [
      "beforeDispatchLoop",
      "beforeDispatch",
      "beforeExecuteRoute",
      "beforeExecuteRoute-method",
      "initialize-method",
      "afterInitialize",
      "indexAction",
      "afterExecuteRoute",
      "beforeException: " + "afterExecuteRoute exception occurred",
      "afterDispatchLoop"
    ]
  {
    var listener := new Listener.DispatcherListener();
    var dispatcher := new Mvc.Dispatcher(listener);
    dispatcher.Attach(AfterExecuteRoute, Handler(None, Raise("afterExecuteRoute exception occurred"), false));
    dispatcher.Attach(BeforeException, Handler(None, Halt, false));
    var start := dispatcher.State();
    var outcome := dispatcher.Dispatch(Cycles);
    AfterExecuteRouteTests.ThrowSuppressed(start.handlers, "afterExecuteRoute exception occurred", Cycles);
    caught := outcome.Err?;
    trace := listener.GetTrace();
  }

  method AfterExecuteRouteWithBeforeExceptionBubble() returns (trace: seq<string>, caught: bool)
    ensures caught
    ensures trace == [
      "beforeDispatchLoop",
      "beforeDispatch",
      "beforeExecuteRoute",
      "beforeExecuteRoute-method",
      "initialize-method",
      "afterInitialize",
      "indexAction",
      "afterExecuteRoute",
      "beforeException: " + "afterExecuteRoute exception occurred",
      "beforeException: custom before exception bubble"
    ]
  {
    var listener := new Listener.DispatcherListener();
    var dispatcher := new Mvc.Dispatcher(listener);
    dispatcher.Attach(AfterExecuteRoute, Handler(None, Raise("afterExecuteRoute exception occurred"), false));
    dispatcher.Attach(BeforeException, Handler(Some("beforeException: custom before exception bubble"), Proceed, false));
    var start := dispatcher.State();
    var outcome := dispatcher.Dispatch(Cycles);
    AfterExecuteRouteTests.ThrowBubbles(start.handlers, "afterExecuteRoute exception occurred",
                                        "beforeException: custom before exception bubble", Cycles);
    caught := outcome.Err?;
    trace := listener.GetTrace();
  }

  method AfterExecuteRouteWithBeforeExceptionForwardOnce() returns (trace: seq<string>, caught: bool)
    ensures !caught
    ensures trace == [
      "beforeDispatchLoop",
      "beforeDispatch",
      "beforeExecuteRoute",
      "beforeExecuteRoute-method",
      "initialize-method",
      "afterInitialize",
      "indexAction",
      "afterExecuteRoute",
      "beforeException: " + "afterExecuteRoute exception occurred",
      "beforeException: custom before exception forward",
      "beforeDispatch",
      "beforeExecuteRoute",
      "beforeExecuteRoute-method",
      "index2Action",
      "afterExecuteRoute",
      "afterExecuteRoute-method",
      "afterDispatch",
      "afterDispatchLoop"
    ]
  {
    var listener := new Listener.DispatcherListener();
    var dispatcher := new Mvc.Dispatcher(listener);
    dispatcher.Attach(AfterExecuteRoute, Handler(None, Raise("afterExecuteRoute exception occurred"), true));
    dispatcher.Attach(BeforeException, Handler(Some("beforeException: custom before exception forward"), Redirect("index2"), false));
    var start := dispatcher.State();
    var outcome := dispatcher.Dispatch(Cycles);
    AfterExecuteRouteTests.ThrowOnceForwarded(start.handlers, "afterExecuteRoute exception occurred",
                                              "beforeException: custom before exception forward", "index2", Cycles);
    Index2Label();
    caught := outcome.Err?;
    trace := listener.GetTrace();
  }

  method BeforeDispatchLoopForward() returns (trace: seq<string>, caught: bool)
    ensures !caught
    ensures trace == [
      "beforeDispatchLoop",
      "beforeDispatch",
      "beforeExecuteRoute",
      "beforeExecuteRoute-method",
      "initialize-method",
      "afterInitialize",
      "index2Action",
      "afterExecuteRoute",
      "afterExecuteRoute-method",
      "afterDispatch",
      "afterDispatchLoop"
    ]
  {
    var listener := new Listener.DispatcherListener();
    var dispatcher := new Mvc.Dispatcher(listener);
    dispatcher.Attach(BeforeDispatchLoop, Handler(None, Redirect("index2"), false));
    var start := dispatcher.State();
    var outcome := dispatcher.Dispatch(Cycles);
    BeforeDispatchLoopTests.Forward(start.handlers, "index2", Cycles);
    Index2Label();
    caught := outcome.Err?;
    trace := listener.GetTrace();
  }

  method BeforeDispatchLoopReturnFalse() returns (trace: seq<string>, caught: bool)
    ensures !caught
    ensures trace == ["beforeDispatchLoop"]
  {
    var listener := new Listener.DispatcherListener();
    var dispatcher := new Mvc.Dispatcher(listener);
    dispatcher.Attach(BeforeDispatchLoop, Handler(None, Halt, false));
    var start := dispatcher.State();
    var outcome := dispatcher.Dispatch(Cycles);
    BeforeDispatchLoopTests.ReturnFalse(start.handlers, Cycles);
    caught := outcome.Err?;
    trace := listener.GetTrace();
  }

  method BeforeDispatchLoopWithBeforeExceptionReturningFalse() returns (trace: seq<string>, caught: bool)
    ensures !caught
    ensures trace == [
      "beforeDispatchLoop",
      "beforeException: " + "beforeDispatchLoop exception occurred"
    ]
  {
    var listener := new Listener.DispatcherListener();
    var dispatcher := new Mvc.Dispatcher(listener);
    dispatcher.Attach(BeforeDispatchLoop, Handler(None, Raise("beforeDispatchLoop exception occurred"), false));
    dispatcher.Attach(BeforeException, Handler(None, Halt, false));
    var start := dispatcher.State();
    var outcome := dispatcher.Dispatch(Cycles);
    BeforeDispatchLoopTests.ThrowSuppressed(start.handlers, "beforeDispatchLoop exception occurred", Cycles);
    caught := outcome.Err?;
    trace := listener.GetTrace();
  }

  method BeforeDispatchLoopWithBeforeExceptionBubble() returns (trace: seq<string>, caught: bool)
    ensures caught
    ensures trace == [
      "beforeDispatchLoop",
      "beforeException: " + "beforeDispatchLoop exception occurred",
      "beforeException: custom before exception bubble"
    ]
  {
    var listener := new Listener.DispatcherListener();
    var dispatcher := new Mvc.Dispatcher(listener);
    dispatcher.Attach(BeforeDispatchLoop, Handler(None, Raise("beforeDispatchLoop exception occurred"), false));
    dispatcher.Attach(BeforeException, Handler(Some("beforeException: custom before exception bubble"), Proceed, false));
    var start := dispatcher.State();
    var outcome := dispatcher.Dispatch(Cycles);
    BeforeDispatchLoopTests.ThrowBubbles(start.handlers, "beforeDispatchLoop exception occurred",
                                         "beforeException: custom before exception bubble", Cycles);
    caught := outcome.Err?;
    trace := listener.GetTrace();
  }

  method BeforeDispatchLoopWithBeforeExceptionForward() returns (trace: seq<string>, caught: bool)
    ensures !caught
    ensures trace == [
      "beforeDispatchLoop",
      "beforeException: " + "beforeDispatchLoop exception occurred",
      "beforeException: custom before exception forward",
      "beforeDispatch",
      "beforeExecuteRoute",
      "beforeExecuteRoute-method",
      "initialize-method",
      "afterInitialize",
      "index2Action",
      "afterExecuteRoute",
      "afterExecuteRoute-method",
      "afterDispatch",
      "afterDispatchLoop"
    ]
  {
    var listener := new Listener.DispatcherListener();
    var dispatcher := new Mvc.Dispatcher(listener);
    dispatcher.Attach(BeforeDispatchLoop, Handler(None, Raise("beforeDispatchLoop exception occurred"), false));
    dispatcher.Attach(BeforeException, Handler(Some("beforeException: custom before exception forward"), Redirect("index2"), false));
    var start := dispatcher.State();
    var outcome := dispatcher.Dispatch(Cycles);
    BeforeDispatchLoopTests.ThrowForwarded(start.handlers, "beforeDispatchLoop exception occurred",
                                           "beforeException: custom before exception forward", "index2", Cycles);
    Index2Label();
    caught := outcome.Err?;
    trace := listener.GetTrace();
  }
}
