# Update runner: plan, then run

This project models `BaseUpdateRunner` from `arugifa/cli/update/base.py`. It is the base of every
update workflow in the toolbox. An update is first planned: the variant's `_plan` computes a todo,
and the runner stores it and may print a preview. The user may then confirm. Then the update is run:
the variant's `_run` produces a result, and the runner stores it and may print a report. While
running, a variant can open a `progress_bar` scope. Inside it, `progress` holds the progress sink,
and it is cleared again however the scope ends.

Modules:

- `UpdateTypes` (`update_types.dfy`) holds `Option` (Python's `None`), `Exception` and `Outcome`.
  `Exception` covers the exceptions the workflow raises, translates or lets through.
  `BaseUpdatePlanFailure(errors)` and `BaseUpdateRunFailure(errors)` are its constructors
  `PlanFailure` and `RunFailure`, and they carry their errors. `Outcome` says how a call into a
  collaborator ended. `Variant` holds what a concrete runner supplies: the Python truthiness of its
  todo and result values, and its `preview` and `report` texts.
- `UpdateSpec` (`update_spec.dfy`) treats the runner's state as a value: the slots `_todo`, `_result`
  and `_progress`, and the lines printed to `output`. Each operation is a function from the old state
  to the new one, and its contract states what the source promises.
- `UpdateTrace` (`update_trace.dfy`) drives a runner through any sequence of calls. Each call comes
  with the outcome its collaborator produced, and the trace goes on past failures, as for a caller
  that catches them. It proves the properties of the plan, run and progress tracks over whole traces.
- `UpdateBase` (`update_base.dfy`) holds the class `BaseUpdateRunner`. Its fields are updated in
  place, and each method is proved to change the object exactly as the matching `UpdateSpec`
  function says.

The variant's abstract members are parameters. How `_plan` and `_run` end is passed in as an
`Outcome`. What the prompt raised is passed in as an `Option<Exception>`, which is `None` when the
user accepted. What the progress sink writes is passed in as text. Each `print` to the output stream
appends one line to `output`.

In these places the code does something a reader may not expect, and the model follows the code:

- Reading `todo` raises `UpdateNotPlanned` whenever the stored todo is absent OR falsy. So a plan
  that returned an empty todo also reads as not planned, although `plan()` returned it. The same holds
  for `result` and `UpdateNotRun`.
- `plan()` and `run()` propagate whatever `_plan`/`_run` raise, not only the two failure classes.
- Nothing checks that the errors of a plan or run failure are non-empty, so the model does not
  require it either.
- The constructor does not bind `_todo`, `_result` or `_progress` (see Findings). The model starts
  from the intended state, with all three `None`.

## Model

| member | source | states |
|---|---|---|
| `UpdateBase.BaseUpdateRunner.constructor` | arugifa/cli/update/base.py:37-45 | a fresh runner has nothing planned, nothing run, no progress and the given output; it keeps its variant and show-progress flag |
| `UpdateSpec.ReadTodo` | arugifa/cli/update/base.py:79-84 | `todo` yields the stored todo exactly when one is stored and it is truthy; otherwise it raises UpdateNotPlanned and nothing else |
| `UpdateSpec.ReadResult` | arugifa/cli/update/base.py:72-77 | `result` yields the stored result exactly when one is stored and it is truthy; otherwise it raises UpdateNotRun and nothing else |
| `UpdateSpec.Plan` | arugifa/cli/update/base.py:94-101 | returns or propagates exactly what `_plan` produced; success overwrites the todo and then `todo` reads it back unless it is falsy; failure changes nothing; the preview is printed once, after success, only when asked; result and progress untouched |
| `UpdateSpec.Run` | arugifa/cli/update/base.py:103-110 | the same for `_run`, the result slot, the report and `show_report`; todo and progress untouched |
| `UpdateSpec.Confirm` | arugifa/cli/update/base.py:88-92 | returns normally exactly when the prompt did; a decline (AssertionError) becomes UpdateAborted; every other prompt failure passes through unchanged; UpdateAborted comes only from a decline or from a prompt that raised it |
| `UpdateSpec.EnterProgressBar` | arugifa/cli/update/base.py:112-118 | inside the scope `progress` holds the sink; nothing else changes |
| `UpdateSpec.SinkWrite` | arugifa/cli/update/base.py:114-117 | what the sink writes reaches the runner's output only when progress is shown; with progress hidden the runner is unchanged |
| `UpdateSpec.ExitProgressBar` | arugifa/cli/update/base.py:116-121 | on leaving the scope, normally or by an exception, `progress` is `None` and the body's exception propagates unchanged; nothing else changes |
| `UpdateSpec.FreshRunnerIsNotPlanned` | arugifa/cli/update/base.py:37-45 | with the slots initialised to `None`, a fresh runner reads as not planned and not run, with no progress |
| `UpdateSpec.FreshRunnerRaisesAttributeError` | arugifa/cli/update/base.py:37-45 | with the constructor as written, reading `todo`, `result` or `progress` on a fresh runner raises AttributeError instead |
| `UpdateTrace.TodoKeptWithoutSuccessfulPlan` | arugifa/cli/update/base.py:94-99 | over any trace without a successful plan, the todo slot keeps its value |
| `UpdateTrace.TodoIsLastSuccessfulPlan` | arugifa/cli/update/base.py:94-101 | after any trace, the todo slot holds the value of the last successful plan: re-planning replaces it, later failed plans do not |
| `UpdateTrace.NotPlannedBeforeAnyPlan` | arugifa/cli/update/base.py:79-84 | from a fresh runner, `todo` raises UpdateNotPlanned until some plan succeeds |
| `UpdateTrace.TodoReadsLastSuccessfulPlan` | arugifa/cli/update/base.py:79-101 | after the last successful plan, `todo` yields that plan's value, or UpdateNotPlanned if the value is falsy |
| `UpdateTrace.ResultKeptWithoutSuccessfulRun` | arugifa/cli/update/base.py:103-108 | over any trace without a successful run, the result slot keeps its value |
| `UpdateTrace.ResultIsLastSuccessfulRun` | arugifa/cli/update/base.py:103-110 | after any trace, the result slot holds the value of the last successful run |
| `UpdateTrace.NotRunBeforeAnyRun` | arugifa/cli/update/base.py:72-77 | from a fresh runner, `result` raises UpdateNotRun until some run succeeds |
| `UpdateTrace.ResultReadsLastSuccessfulRun` | arugifa/cli/update/base.py:72-110 | after the last successful run, `result` yields that run's value, or UpdateNotRun if the value is falsy |
| `UpdateTrace.ProgressKeptOutsideScopes` | arugifa/cli/update/base.py:112-121 | calls that neither enter nor leave a progress scope do not change `progress` |
| `UpdateTrace.ProgressFollowsLastScopeCall` | arugifa/cli/update/base.py:112-121 | after any trace, `progress` is the sink of the last scope entered, or `None` once the last scope has been left, normally or by an exception |
| `UpdateTrace.InnerExitClearsOuterScope` | arugifa/cli/update/base.py:118-121 | leaving a nested scope clears `progress` although the outer scope is still open |
| `UpdateTrace.HiddenProgressPrintsOnlyPreviewsAndReports` | arugifa/cli/update/base.py:94-121 | with progress hidden, the output receives exactly the previews and reports of the successful opted-in calls, in order, and nothing from the sink |
| `UpdateTrace.InertCallsChangeNothing` | arugifa/cli/update/base.py:88-110 | failed plans, failed runs and confirmations, in any number, leave the runner exactly as it was, todo and result included |
| `UpdateBase.BaseUpdateRunner.ReadProgress` | arugifa/cli/update/base.py:68-70 | `progress` returns the progress slot |
| `UpdateBase.BaseUpdateRunner.ReadResult` | arugifa/cli/update/base.py:72-77 | the accessor returns what `UpdateSpec.ReadResult` gives for the object's state |
| `UpdateBase.BaseUpdateRunner.ReadTodo` | arugifa/cli/update/base.py:79-84 | the accessor returns what `UpdateSpec.ReadTodo` gives for the object's state |
| `UpdateBase.BaseUpdateRunner.Confirm` | arugifa/cli/update/base.py:88-92 | raises what `UpdateSpec.Confirm` gives and modifies nothing |
| `UpdateBase.BaseUpdateRunner.Plan` | arugifa/cli/update/base.py:94-101 | the object's new state and the return value are those of `UpdateSpec.Plan` on its old state |
| `UpdateBase.BaseUpdateRunner.Run` | arugifa/cli/update/base.py:103-110 | the object's new state and the return value are those of `UpdateSpec.Run` on its old state |
| `UpdateBase.BaseUpdateRunner.EnterProgressBar` | arugifa/cli/update/base.py:112-118 | the object's new state is that of `UpdateSpec.EnterProgressBar` |
| `UpdateBase.BaseUpdateRunner.WriteToSink` | arugifa/cli/update/base.py:114-117 | the object's new state is that of `UpdateSpec.SinkWrite` for its show-progress flag |
| `UpdateBase.BaseUpdateRunner.ExitProgressBar` | arugifa/cli/update/base.py:119-121 | the object's new state and the propagated exception are those of `UpdateSpec.ExitProgressBar` |

## Findings

| source | as written | input that shows it | evidently intended | confidence | as-written member | corrected member |
|---|---|---|---|---|---|---|
| arugifa/cli/update/base.py:37-45 | `__init__` never binds `_todo`, `_result` or `_progress` | a freshly constructed runner whose `todo`, `result` or `progress` is read before the first successful `plan()`, successful `run()` or `progress_bar()`; for instance a runner whose first `plan()` raised, then `todo` is read | UpdateNotPlanned, UpdateNotRun and `None`, as the accessors' guards are written for | not executed | `UpdateSpec.FreshRunnerRaisesAttributeError` | `UpdateSpec.FreshRunnerIsNotPlanned` |

The rest of the model, including `UpdateBase.BaseUpdateRunner.constructor`, uses the corrected
initial state.

## Left out

- Asynchrony: `plan()` and `run()` await `_plan` and `_run`. Only storing on success and propagating
  on failure matter here, so the calls are modelled as synchronous and their outcome is a parameter.
- The domain manager is left out. The runner only stores it for the variants.
- The prompt's terminal I/O is left out, and so is the default `Prompt(output=output)`. Only what the
  prompt's `confirm()` raised is modelled.
- tqdm is left out. This covers the `total` argument, the bar's rendering and the bar's own close on
  scope exit. The sink is an opaque token, and its writes are given as text. A failure while the bar
  is being created (which also reaches the `finally`) is not modelled.
- `print` formatting and faults of the output stream are left out. Each print is one line of
  `output`, and the trailing newline is not modelled. Text the prompt prints is not modelled either.
- The `preview` and `report` texts are modelled as functions of the value just stored. A variant
  whose `preview` reads the `todo` property, and so raises when the todo is falsy, is not modelled.
- The `__str__` methods of the failure classes are left out. They are abstract and defined per variant.
- `show_progress` is a constant of the object. The source never reassigns it.
- The keyword defaults are not modelled: `show_preview=False`, `show_report=False`, `output=sys.stdout`
  and `show_progress=True` become parameters that every caller of the model passes explicitly.
- Concurrent use of one runner and cancellation are left out. The source provides no locking.
- `UpdateBase.BaseUpdateRunner.WriteToSink` requires an open scope. Outside a scope the source's
  `progress` is `None`, and writing through it fails.
