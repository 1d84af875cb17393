/** How often the loop-level labels can appear in one dispatch's trace:
    `beforeDispatchLoop` exactly once, `afterDispatchLoop` at most once, and the
    controller's `initialize-method` at most once, whatever closures are attached
    (as long as no closure traces one of these labels itself). */
module TraceCounts {
  import opened Events
  import opened DispatchModel

  /** How many times `x` occurs in `t`. */
  function Count(t: seq<string>, x: string): (n: nat)
    ensures n <= |t|
  {
    if t == [] then 0 else Count(t[..|t| - 1], x) + (if t[|t| - 1] == x then 1 else 0)
  }

  /** The occurrences in a concatenation are those of its two parts added up. */
  lemma {:induction false} CountConcat(a: seq<string>, b: seq<string>, x: string)
    ensures Count(a + b, x) == Count(a, x) + Count(b, x)
    decreases |b|
  {
    if b == [] {
      assert a + b == a;
    } else {
      var b' := b[..|b| - 1];
      assert (a + b)[..|a + b| - 1] == a + b';
      CountConcat(a, b', x);
    }
  }

  /** The labels whose number the dispatch loop itself governs. */
  predicate Reserved(x: string)
  {
    x == Name(BeforeDispatchLoop) || x == Name(AfterDispatchLoop) || x == InitializeHook
  }

  /** The occurrences of `x` in the trace, plus the controller initialization still
      to come when `x` is its label: every step of a cycle keeps this number. */
  function Score(m: Machine, x: string): nat
  {
    Count(m.trace, x) + (if x == InitializeHook && !m.initialized then 1 else 0)
  }

  /** A closure's note is never a reserved label. */
  lemma NoteCount(handlers: map<Event, Handler>, e: Event, x: string)
    requires x !in Notes(handlers)
    ensures Count(NoteTrace(HandlerFor(handlers, e)), x) == 0
  {
    if e in handlers && handlers[e].note.Some? {
      assert handlers[e].note.value in Notes(handlers);
    }
  }

  /** The label of an action run is never a reserved label: it ends in `Action`. */
  lemma ActionLabelNotReserved(name: string, x: string)
    requires Reserved(x)
    ensures ActionLabel(name) != x
  {
  }

  /** The label of an exception is never a reserved label. */
  lemma ExceptionLabelNotReserved(message: string, x: string)
    requires Reserved(x)
    ensures ExceptionLabel(message) != x
  {
    ExceptionLabelIsNoName(message, BeforeDispatchLoop);
    ExceptionLabelIsNoName(message, AfterDispatchLoop);
    assert ExceptionLabel(message)[0] == "beforeException: "[0];
  }

  /** Firing an event adds one occurrence of its own name and nothing else that
      is reserved. */
  lemma {:induction false} FireScore(m: Machine, e: Event, x: string)
    requires Reserved(x) && x !in Notes(m.handlers)
    ensures Score(Fire(m, e).m, x) == Score(m, x) + (if Name(e) == x then 1 else 0)
  {
    var h := HandlerFor(m.handlers, e);
    CountConcat(m.trace + [Name(e)], NoteTrace(h), x);
    CountConcat(m.trace, [Name(e)], x);
    NoteCount(m.handlers, e, x);
    assert Count([Name(e)], x) == (if Name(e) == x then 1 else 0) by {
      assert [Name(e)][..0] == [];
    }
  }

  /** Appending one label that is not `x` keeps the count of `x`. */
  lemma CountOther(t: seq<string>, y: string, x: string)
    requires y != x
    ensures Count(t + [y], x) == Count(t, x)
  {
    assert (t + [y])[..|t|] == t;
  }

  lemma {:induction false} RecoverScore(m: Machine, message: string, x: string)
    requires Reserved(x) && x !in Notes(m.handlers)
    ensures Score(Recover(m, message).m, x) == Score(m, x)
  {
    var h := HandlerFor(m.handlers, BeforeException);
    CountConcat(m.trace + [ExceptionLabel(message)], NoteTrace(h), x);
    CountConcat(m.trace, [ExceptionLabel(message)], x);
    NoteCount(m.handlers, BeforeException, x);
    ExceptionLabelNotReserved(message, x);
    assert Count([ExceptionLabel(message)], x) == 0 by {
      assert [ExceptionLabel(message)][..0] == [];
    }
  }

  /** Every step of a cycle keeps the score of every reserved label. */
  lemma {:induction false} StepScore(m: Machine, k: nat, x: string)
    requires k < |CyclePhases| && Reserved(x) && x !in Notes(m.handlers)
    ensures Score(Step(m, CyclePhases[k]).m, x) == Score(m, x)
  {
    if CyclePhases[k].Emit? {
      CycleEventScore(m, CyclePhases[k].event, x);
    } else if k == 2 || k == 6 {
      CountOther(m.trace, CyclePhases[k].text, x);
    } else if k == 3 {
      InitializeScore(m, x);
    } else {
      ActionLabelNotReserved(m.pending, x);
      CountOther(m.trace, ActionLabel(m.pending), x);
    }
  }

  /** The events fired inside a cycle are not reserved. */
  lemma CycleEventScore(m: Machine, e: Event, x: string)
    requires e in {BeforeDispatch, BeforeExecuteRoute, AfterExecuteRoute, AfterDispatch}
    requires Reserved(x) && x !in Notes(m.handlers)
    ensures Score(Fire(m, e).m, x) == Score(m, x)
  {
    FireScore(m, e, x);
    NamesDistinct(e, BeforeDispatchLoop);
    NamesDistinct(e, AfterDispatchLoop);
  }

  /** The controller's initialization trades the pending initialization for one
      `initialize-method`. */
  lemma {:induction false} InitializeScore(m: Machine, x: string)
    requires Reserved(x) && x !in Notes(m.handlers)
    ensures Score(Step(m, Initialize).m, x) == Score(m, x)
  {
    if !m.initialized {
      var m' := m.(trace := m.trace + [InitializeHook], initialized := true);
      assert (m.trace + [InitializeHook])[..|m.trace|] == m.trace;
      FireScore(m', AfterInitialize, x);
    }
  }

  lemma {:induction false} RunPhasesScore(m: Machine, k: nat, x: string)
    requires k <= |CyclePhases| && Reserved(x) && x !in Notes(m.handlers)
    ensures Score(RunPhases(m, CyclePhases[k..]).m, x) == Score(m, x)
    decreases |CyclePhases| - k
  {
    if k == |CyclePhases| {
      assert CyclePhases[k..] == [];
    } else {
      RunFrom(m, k);
      var f := Step(m, CyclePhases[k]);
      StepScore(m, k, x);
      if Proceeds(f) {
        RunPhasesScore(f.m, k + 1, x);
      } else if f.signal.Thrown? {
        RecoverScore(f.m, f.signal.message, x);
      }
    }
  }

  /** A cycle keeps the score of every reserved label. */
  lemma CycleScore(m: Machine, x: string)
    requires Reserved(x) && x !in Notes(m.handlers)
    ensures Score(Cycle(m).m, x) == Score(m, x)
  {
    assert CyclePhases[0..] == CyclePhases;
    RunPhasesScore(m.(forwarded := false), 0, x);
  }

  lemma {:induction false} LoopScore(m: Machine, fuel: nat, x: string)
    requires Reserved(x) && x !in Notes(m.handlers)
    ensures Score(Loop(m, fuel).m, x) == Score(m, x)
    decreases fuel
  {
    if fuel > 0 {
      CycleScore(m, x);
      if Cycle(m).ending == Next {
        LoopScore(Cycle(m).m, fuel - 1, x);
      }
    }
  }

  /** After the loop only `afterDispatchLoop` can add a reserved label, once. */
  lemma {:induction false} FinishScore(m: Machine, fuel: nat, x: string)
    requires Reserved(x) && x !in Notes(m.handlers)
    ensures x != Name(AfterDispatchLoop) ==> Score(Finish(m, fuel).m, x) == Score(m, x)
    ensures Score(Finish(m, fuel).m, x) <= Score(m, x) + 1
  {
    var l := Loop(m, fuel);
    LoopScore(m, fuel, x);
    if l.end == Finished {
      var f := Fire(l.m, AfterDispatchLoop);
      FireScore(l.m, AfterDispatchLoop, x);
      if f.signal.Thrown? {
        RecoverScore(f.m, f.signal.message, x);
      }
    }
  }

  /** One dispatch adds exactly one `beforeDispatchLoop`: the one it fires first. */
  lemma {:induction false} RunScoreBeforeDispatchLoop(m: Machine, fuel: nat)
    requires Name(BeforeDispatchLoop) !in Notes(m.handlers)
    ensures Score(Run(m, fuel).m, Name(BeforeDispatchLoop)) == Score(m, Name(BeforeDispatchLoop)) + 1
  {
    var x := Name(BeforeDispatchLoop);
    var f := Fire(m, BeforeDispatchLoop);
    FireScore(m, BeforeDispatchLoop, x);
    if f.signal == Continue {
      FinishScore(f.m, fuel, x);
    } else if f.signal.Thrown? {
      RecoverScore(f.m, f.signal.message, x);
      var r := Recover(f.m, f.signal.message);
      if r.verdict == Resumed {
        FinishScore(r.m, fuel, x);
      }
    }
  }

  /** One dispatch traces `initialize-method` only by initializing the controller. */
  lemma {:induction false} RunScoreInitialize(m: Machine, fuel: nat)
    requires InitializeHook !in Notes(m.handlers)
    ensures Score(Run(m, fuel).m, InitializeHook) == Score(m, InitializeHook)
  {
    var x := InitializeHook;
    var f := Fire(m, BeforeDispatchLoop);
    FireScore(m, BeforeDispatchLoop, x);
    if f.signal == Continue {
      FinishScore(f.m, fuel, x);
    } else if f.signal.Thrown? {
      RecoverScore(f.m, f.signal.message, x);
      var r := Recover(f.m, f.signal.message);
      if r.verdict == Resumed {
        FinishScore(r.m, fuel, x);
      }
    }
  }

  /** One dispatch adds at most one `afterDispatchLoop`, however often it forwards. */
  lemma {:induction false} RunScoreAfterDispatchLoop(m: Machine, fuel: nat)
    requires Name(AfterDispatchLoop) !in Notes(m.handlers)
    ensures Score(Run(m, fuel).m, Name(AfterDispatchLoop)) <= Score(m, Name(AfterDispatchLoop)) + 1
  {
    var x := Name(AfterDispatchLoop);
    var f := Fire(m, BeforeDispatchLoop);
    FireScore(m, BeforeDispatchLoop, x);
    if f.signal == Continue {
      FinishScore(f.m, fuel, x);
    } else if f.signal.Thrown? {
      RecoverScore(f.m, f.signal.message, x);
      var r := Recover(f.m, f.signal.message);
      if r.verdict == Resumed {
        FinishScore(r.m, fuel, x);
      }
    }
  }

  /** In every dispatch from a fresh test dispatcher, `beforeDispatchLoop` is traced
      exactly once (first), and `afterDispatchLoop` and the controller's
      `initialize-method` at most once each: forwards and exceptions never repeat
      them. */
  lemma LoopLabelsOnce(handlers: map<Event, Handler>, fuel: nat)
    requires "beforeDispatchLoop" !in Notes(handlers) && "afterDispatchLoop" !in Notes(handlers)
    requires "initialize-method" !in Notes(handlers)
    ensures
      var t := Run(Start(handlers), fuel).m.trace;
      |t| > 0 && t[0] == "beforeDispatchLoop" &&
      Count(t, "beforeDispatchLoop") == 1 &&
      Count(t, "afterDispatchLoop") <= 1 &&
      Count(t, "initialize-method") <= 1
  {
    RunScoreBeforeDispatchLoop(Start(handlers), fuel);
    RunScoreAfterDispatchLoop(Start(handlers), fuel);
    RunScoreInitialize(Start(handlers), fuel);
  }
}
