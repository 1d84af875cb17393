/** The dispatch events a listener can be attached to, and the labels the early
    listener writes into its trace when each one fires. */
module Events {

  datatype Event =
    | BeforeDispatchLoop
    | BeforeDispatch
    | BeforeExecuteRoute
    | AfterInitialize
    | AfterExecuteRoute
    | AfterDispatch
    | AfterDispatchLoop
    | BeforeNotFoundAction
    | BeforeException

  /** The event's name, which is also the label the early listener traces for it:
      every dispatch event is named `before…` or `after…`. */
  function Name(e: Event): (n: string)
    ensures (|n| > 6 && n[..6] == "before") || (|n| > 5 && n[..5] == "after")
  {
    match e
    case BeforeDispatchLoop => "beforeDispatchLoop"
    case BeforeDispatch => "beforeDispatch"
    case BeforeExecuteRoute => "beforeExecuteRoute"
    case AfterInitialize => "afterInitialize"
    case AfterExecuteRoute => "afterExecuteRoute"
    case AfterDispatch => "afterDispatch"
    case AfterDispatchLoop => "afterDispatchLoop"
    case BeforeNotFoundAction => "beforeNotFoundAction"
    case BeforeException => "beforeException"
  }

  /** The label the early listener traces when `beforeException` fires for an
      exception carrying `message`. */
  function ExceptionLabel(message: string): (text: string)
    ensures |text| == |"beforeException: "| + |message|
    ensures text[..17] == "beforeException: " && text[17..] == message
  {
    "beforeException: " + message
  }

  /** Different events are traced under different labels. */
  lemma NamesDistinct(e1: Event, e2: Event)
    ensures Name(e1) == Name(e2) <==> e1 == e2
  {
    if e1 != e2 {
      assert Name(e1)[..6] != Name(e2)[..6] || Name(e1)[6..] != Name(e2)[6..];
    }
  }

  /** A `beforeException` label is never the bare name of an event, so the trace
      tells the exception entries and the event entries apart. */
  lemma {:induction false} ExceptionLabelIsNoName(message: string, e: Event)
    ensures ExceptionLabel(message) != Name(e)
  {
    var text := ExceptionLabel(message);
    assert text[..17] == "beforeException: ";
    match e
    case BeforeDispatchLoop => assert text[6] != Name(e)[6];
    case BeforeDispatch => assert text[6] != Name(e)[6];
    case BeforeExecuteRoute => assert text[8] != Name(e)[8];
    case AfterInitialize => assert text[0] != Name(e)[0];
    case AfterExecuteRoute => assert text[0] != Name(e)[0];
    case AfterDispatch => assert text[0] != Name(e)[0];
    case AfterDispatchLoop => assert text[0] != Name(e)[0];
    case BeforeNotFoundAction => assert text[6] != Name(e)[6];
    case BeforeException => assert |text| != |Name(e)|;
  }
}
