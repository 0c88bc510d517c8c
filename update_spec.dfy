/** The state of one update runner as a value, and each operation of the
    runner as a function from the old state to the new one (with what the
    operation returns or raises). The class in module UpdateBase is proved
    against these functions. */
module UpdateSpec {
  import opened UpdateTypes

  /** The runner's `_todo`, `_result` and `_progress` slots, and every line
      printed so far to its output stream. */
  datatype State<Todo, Result, Sink> = State(
    todo: Option<Todo>,
    result: Option<Result>,
    progress: Option<Sink>,
    output: seq<string>)

  /** A freshly constructed runner: the three slots hold `None` and the output
      holds whatever was on the stream before. */
  function Initial<Todo, Result, Sink>(output: seq<string>): State<Todo, Result, Sink>
  {
    State(None, None, None, output)
  }

  /** The accessor guard `if not slot: raise missing; return slot`,
      where `None` is falsy. */
  function ReadSlot<T, E>(slot: Option<T>, truthy: T -> bool, missing: Exception<E>): Outcome<T, E>
  {
    match slot
    case None => Raised(missing)
    case Some(x) => if truthy(x) then Returned(x) else Raised(missing)
  }

  /** The `todo` property. */
  function ReadTodo<Todo, Result, Sink, E>(s: State<Todo, Result, Sink>, v: Variant<Todo, Result>): (r: Outcome<Todo, E>)
    // a value comes back exactly when a truthy todo is stored, and it is that todo
    ensures r.Returned? <==> s.todo.Some? && v.todoTruthy(s.todo.value)
    ensures r.Returned? ==> s.todo == Some(r.value)
    // otherwise the only exception is UpdateNotPlanned
    ensures r.Raised? ==> r.exception == NotPlanned
  {
    ReadSlot(s.todo, v.todoTruthy, NotPlanned)
  }

  /** The `result` property. */
  function ReadResult<Todo, Result, Sink, E>(s: State<Todo, Result, Sink>, v: Variant<Todo, Result>): (r: Outcome<Result, E>)
    ensures r.Returned? <==> s.result.Some? && v.resultTruthy(s.result.value)
    ensures r.Returned? ==> s.result == Some(r.value)
    ensures r.Raised? ==> r.exception == NotRun
  {
    ReadSlot(s.result, v.resultTruthy, NotRun)
  }

  /** `plan(show_preview=showPreview)`, given how the variant's `_plan` ended. */
  function Plan<Todo, Result, Sink, E>(
    s: State<Todo, Result, Sink>, v: Variant<Todo, Result>, planned: Outcome<Todo, E>, showPreview: bool)
    : (r: (State<Todo, Result, Sink>, Outcome<Todo, E>))
    // returns exactly what `_plan` produced, or propagates what it raised
    ensures r.1 == planned
    // success overwrites the todo slot; failure leaves the whole runner alone
    ensures planned.Returned? ==> r.0.todo == Some(planned.value)
    ensures planned.Raised? ==> r.0 == s
    // the preview is printed once, only after success and only on opt-in
    ensures r.0.output == s.output + (if planned.Returned? && showPreview then [v.preview(planned.value)] else [])
    ensures r.0.result == s.result && r.0.progress == s.progress
    // reading `todo` afterwards yields the new plan, unless that plan is falsy
    ensures planned.Returned? ==>
      ReadTodo<Todo, Result, Sink, E>(r.0, v) == (if v.todoTruthy(planned.value) then planned else Raised(NotPlanned))
  {
    match planned
    case Raised(_) => (s, planned)
    case Returned(t) =>
      var stored := s.(todo := Some(t));
      (if showPreview then stored.(output := stored.output + [v.preview(t)]) else stored, planned)
  }

  /** `run(show_report=showReport)`, given how the variant's `_run` ended. */
  function Run<Todo, Result, Sink, E>(
    s: State<Todo, Result, Sink>, v: Variant<Todo, Result>, ran: Outcome<Result, E>, showReport: bool)
    : (r: (State<Todo, Result, Sink>, Outcome<Result, E>))
    ensures r.1 == ran
    ensures ran.Returned? ==> r.0.result == Some(ran.value)
    ensures ran.Raised? ==> r.0 == s
    ensures r.0.output == s.output + (if ran.Returned? && showReport then [v.report(ran.value)] else [])
    ensures r.0.todo == s.todo && r.0.progress == s.progress
    ensures ran.Returned? ==>
      ReadResult<Todo, Result, Sink, E>(r.0, v) == (if v.resultTruthy(ran.value) then ran else Raised(NotRun))
  {
    match ran
    case Raised(_) => (s, ran)
    case Returned(x) =>
      var stored := s.(result := Some(x));
      (if showReport then stored.(output := stored.output + [v.report(x)]) else stored, ran)
  }

  /** `confirm()`, given what the prompt's `confirm()` raised (`None` when the
      user accepted). The result is what `confirm()` raises, `None` if nothing.
      It does not touch the runner's state. */
  function Confirm<E>(reply: Option<Exception<E>>): (raised: Option<Exception<E>>)
    // confirm() returns normally exactly when the prompt did
    ensures raised.None? <==> reply.None?
    // a decline (an AssertionError) becomes UpdateAborted ...
    ensures reply == Some(AssertionFailed) ==> raised == Some(Aborted)
    // ... and every other failure of the prompt passes through unchanged
    ensures reply.Some? && reply.value != AssertionFailed ==> raised == reply
    // so UpdateAborted comes out only from a decline or from a prompt that raised it itself
    ensures raised == Some(Aborted) <==> reply == Some(AssertionFailed) || reply == Some(Aborted)
  {
    match reply
    case None => None
    case Some(AssertionFailed) => Some(Aborted)
    case Some(_) => reply
  }

  /** Entering the `progress_bar` scope: the sink becomes `progress`. */
  function EnterProgressBar<Todo, Result, Sink>(s: State<Todo, Result, Sink>, sink: Sink): (r: State<Todo, Result, Sink>)
    ensures r.progress == Some(sink)
    ensures r.todo == s.todo && r.result == s.result && r.output == s.output
  {
    s.(progress := Some(sink))
  }

  /** The sink writing `text` while the scope is open: it reaches the runner's
      output only when progress is shown; otherwise it goes to a throwaway
      buffer. With no sink in place (`progress` is `None`, for instance after
      a nested scope was left) the source raises AttributeError from
      `self.progress.update()`; the state is unchanged. */
  function SinkWrite<Todo, Result, Sink>(s: State<Todo, Result, Sink>, showProgress: bool, text: string)
    : (r: State<Todo, Result, Sink>)
    ensures r.output == s.output + (if s.progress.Some? && showProgress then [text] else [])
    ensures !showProgress ==> r == s
    ensures r.todo == s.todo && r.result == s.result && r.progress == s.progress
  {
    if s.progress.Some? && showProgress then s.(output := s.output + [text]) else s
  }

  /** Leaving the `progress_bar` scope, normally (`raised == None`) or because
      the body raised: `progress` is cleared on both paths and the body's
      exception propagates unchanged. */
  function ExitProgressBar<Todo, Result, Sink, E>(s: State<Todo, Result, Sink>, raised: Option<Exception<E>>)
    : (r: (State<Todo, Result, Sink>, Option<Exception<E>>))
    ensures r.0.progress == None
    ensures r.1 == raised
    ensures r.0.todo == s.todo && r.0.result == s.result && r.0.output == s.output
  {
    (s.(progress := None), raised)
  }

  lemma FreshRunnerIsNotPlanned<Todo, Result, Sink, E>(v: Variant<Todo, Result>, output: seq<string>)
    ensures ReadTodo<Todo, Result, Sink, E>(Initial(output), v) == Raised(NotPlanned)
    ensures ReadResult<Todo, Result, Sink, E>(Initial(output), v) == Raised(NotRun)
    ensures Initial<Todo, Result, Sink>(output).progress == None
  {
  }

  // The constructor as written binds none of `_todo`, `_result`, `_progress`.

  /** A Python attribute: never bound, or bound to a possibly-`None` value. */
  datatype Attr<T> = Unbound | Bound(slot: Option<T>)

  /** The instance attributes right after `__init__` as written. */
  datatype Attrs<Todo, Result, Sink> = Attrs(todo: Attr<Todo>, result: Attr<Result>, progress: Attr<Sink>)

  function FreshAsWritten<Todo, Result, Sink>(): Attrs<Todo, Result, Sink>
  {
    Attrs(Unbound, Unbound, Unbound)
  }

  /** Reading an attribute that was never bound raises AttributeError
      before the accessor's own guard is reached. */
  function ReadAttr<T, E>(a: Attr<T>, truthy: T -> bool, missing: Exception<E>): Outcome<T, E>
  {
    match a
    case Unbound => Raised(Other("AttributeError"))
    case Bound(slot) => ReadSlot(slot, truthy, missing)
  }

  function ReadProgressAttr<Sink, E>(a: Attr<Sink>): Outcome<Option<Sink>, E>
  {
    match a
    case Unbound => Raised(Other("AttributeError"))
    case Bound(slot) => Returned(slot)
  }

  /** On a fresh runner as written, `todo`, `result` and `progress` all raise
      AttributeError instead of UpdateNotPlanned, UpdateNotRun and `None`. */
  lemma FreshRunnerRaisesAttributeError<Todo, Result, Sink, E>(v: Variant<Todo, Result>)
    ensures ReadAttr<Todo, E>(FreshAsWritten<Todo, Result, Sink>().todo, v.todoTruthy, NotPlanned)
      == Raised(Other("AttributeError")) != Raised(NotPlanned)
    ensures ReadAttr<Result, E>(FreshAsWritten<Todo, Result, Sink>().result, v.resultTruthy, NotRun)
      == Raised(Other("AttributeError")) != Raised(NotRun)
    ensures ReadProgressAttr<Sink, E>(FreshAsWritten<Todo, Result, Sink>().progress)
      == Raised(Other("AttributeError")) != Returned(None)
  {
  }
}
