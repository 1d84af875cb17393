/** The early listener of the dispatcher tests: it is attached to every dispatch
    event before any test-specific closure and records, in order, a label for each
    event it sees. The test controller and the closures write into the same trace. */
module Listener {
  import Events

  class DispatcherListener {
    /** The labels recorded so far, oldest first. */
    var trace: seq<string>

    /** A new listener has recorded nothing. */
    constructor ()
      ensures trace == []
    {
      trace := [];
    }

    /** Forgets everything recorded so far. The new trace does not depend on the
        old one, so clearing twice leaves what clearing once leaves. */
    method ClearTrace()
      modifies this
      ensures trace == []
    {
      trace := [];
    }

    /** Appends one label at the end of the trace. */
    method Trace(text: string)
      modifies this
      ensures trace == old(trace) + [text]
      ensures |trace| == |old(trace)| + 1
      ensures trace[..|old(trace)|] == old(trace) && trace[|old(trace)|] == text
    {
      trace := trace + [text];
    }

    /** The trace as it stands; nothing changes. */
    method GetTrace() returns (t: seq<string>)
      ensures t == trace
    {
      t := trace;
    }

    /** Strict comparison with an expected trace: same length and the same label
        at every position. Nothing changes. */
    method Compare(expected: seq<string>) returns (same: bool)
      ensures same <==> |trace| == |expected| && forall i :: 0 <= i < |trace| ==> trace[i] == expected[i]
    {
      same := trace == expected;
    }

    method BeforeDispatchLoop()
      modifies this
      ensures trace == old(trace) + [Events.Name(Events.BeforeDispatchLoop)]
    {
      Trace("beforeDispatchLoop");
    }

    method BeforeDispatch()
      modifies this
      ensures trace == old(trace) + [Events.Name(Events.BeforeDispatch)]
    {
      Trace("beforeDispatch");
    }

    method BeforeExecuteRoute()
      modifies this
      ensures trace == old(trace) + [Events.Name(Events.BeforeExecuteRoute)]
    {
      Trace("beforeExecuteRoute");
    }

    method AfterInitialize()
      modifies this
      ensures trace == old(trace) + [Events.Name(Events.AfterInitialize)]
    {
      Trace("afterInitialize");
    }

    method AfterExecuteRoute()
      modifies this
      ensures trace == old(trace) + [Events.Name(Events.AfterExecuteRoute)]
    {
      Trace("afterExecuteRoute");
    }

    method AfterDispatch()
      modifies this
      ensures trace == old(trace) + [Events.Name(Events.AfterDispatch)]
    {
      Trace("afterDispatch");
    }

    method AfterDispatchLoop()
      modifies this
      ensures trace == old(trace) + [Events.Name(Events.AfterDispatchLoop)]
    {
      Trace("afterDispatchLoop");
    }

    method BeforeNotFoundAction()
      modifies this
      ensures trace == old(trace) + [Events.Name(Events.BeforeNotFoundAction)]
    {
      Trace("beforeNotFoundAction");
    }

    /** Records the message of the exception being routed through `beforeException`. */
    method BeforeException(message: string)
      modifies this
      ensures trace == old(trace) + [Events.ExceptionLabel(message)]
    {
      Trace("beforeException: " + message);
    }
  }
}
