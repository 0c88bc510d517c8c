/** The runner object: the slots the plan, run and progress-scope methods
    overwrite or clear in place, and the output stream they print to. Every
    method is proved to move the runner exactly as the matching function of
    module UpdateSpec says. */
module UpdateBase {
  import opened UpdateTypes
  import UpdateSpec

  class BaseUpdateRunner<Todo, Result, Sink, E> {
    const variant: Variant<Todo, Result>
    const showProgress: bool

    var todo: Option<Todo>         // `_todo`
    var result: Option<Result>     // `_result`
    var progress: Option<Sink>     // `_progress`
    var output: seq<string>        // the lines printed to the output stream

    ghost function Snapshot(): UpdateSpec.State<Todo, Result, Sink>
      reads this
    {
      UpdateSpec.State(todo, result, progress, output)
    }

    /** A fresh runner: nothing planned, nothing run, no progress scope open.
        The three slots start as `None`. */
    constructor (variant: Variant<Todo, Result>, output: seq<string>, showProgress: bool)
      ensures Snapshot() == UpdateSpec.Initial(output)
      ensures this.variant == variant && this.showProgress == showProgress
    {
      this.variant := variant;
      this.showProgress := showProgress;
      todo, result, progress := None, None, None;
      this.output := output;
    }

    /** The `progress` property. */
    method ReadProgress() returns (r: Option<Sink>)
      ensures r == progress
    {
      r := progress;
    }

    /** The `result` property. */
    method ReadResult() returns (r: Outcome<Result, E>)
      ensures r == UpdateSpec.ReadResult<Todo, Result, Sink, E>(Snapshot(), variant)
    {
      if result.None? || !variant.resultTruthy(result.value) {
        r := Raised(NotRun);
      } else {
        r := Returned(result.value);
      }
    }

    /** The `todo` property. */
    method ReadTodo() returns (r: Outcome<Todo, E>)
      ensures r == UpdateSpec.ReadTodo<Todo, Result, Sink, E>(Snapshot(), variant)
    {
      if todo.None? || !variant.todoTruthy(todo.value) {
        r := Raised(NotPlanned);
      } else {
        r := Returned(todo.value);
      }
    }

    /** `confirm()`: `reply` is what the prompt raised, `None` when it accepted. */
    method Confirm(reply: Option<Exception<E>>) returns (raised: Option<Exception<E>>)
      ensures raised == UpdateSpec.Confirm(reply)
    {
      match reply {
        case None =>
          raised := None;
        case Some(AssertionFailed) =>
          raised := Some(Aborted);
        case Some(_) =>
          raised := reply;
      }
    }

    /** `plan(show_preview=showPreview)`: `planned` is how `_plan` ended. */
    method Plan(planned: Outcome<Todo, E>, showPreview: bool) returns (r: Outcome<Todo, E>)
      modifies this
      ensures (Snapshot(), r) == UpdateSpec.Plan(old(Snapshot()), variant, planned, showPreview)
    {
      match planned {
        case Raised(_) =>
          r := planned;
        case Returned(t) =>
          todo := Some(t);
          if showPreview {
            output := output + [variant.preview(t)];
          }
          r := Returned(todo.value);
      }
    }

    /** `run(show_report=showReport)`: `ran` is how `_run` ended. */
    method Run(ran: Outcome<Result, E>, showReport: bool) returns (r: Outcome<Result, E>)
      modifies this
      ensures (Snapshot(), r) == UpdateSpec.Run(old(Snapshot()), variant, ran, showReport)
    {
      match ran {
        case Raised(_) =>
          r := ran;
        case Returned(x) =>
          result := Some(x);
          if showReport {
            output := output + [variant.report(x)];
          }
          r := Returned(result.value);
      }
    }

    /** Entering `progress_bar`: `sink` is the bar created for the scope. */
    method EnterProgressBar(sink: Sink)
      modifies this
      ensures Snapshot() == UpdateSpec.EnterProgressBar(old(Snapshot()), sink)
    {
      progress := Some(sink);
    }

    /** The sink inside the scope writing `text` to its destination: the
        output stream when progress is shown, a throwaway buffer otherwise. */
    method WriteToSink(text: string)
      requires progress.Some?
      modifies this
      ensures Snapshot() == UpdateSpec.SinkWrite(old(Snapshot()), showProgress, text)
    {
      if showProgress {
        output := output + [text];
      }
    }

    /** Leaving `progress_bar`: `raised` is what the body raised, `None` if
        it completed; the result is what propagates to the caller. */
    method ExitProgressBar(raised: Option<Exception<E>>) returns (propagated: Option<Exception<E>>)
      modifies this
      ensures (Snapshot(), propagated) == UpdateSpec.ExitProgressBar(old(Snapshot()), raised)
    {
      progress := None;
      propagated := raised;
    }
  }
}
