/** A runner driven by a sequence of calls, each with the outcome its
    collaborator produced, and the properties of its three independent
    tracks: the plan track, the run track and the progress track. */
module UpdateTrace {
  import opened UpdateTypes
  import opened UpdateSpec

  /** One call on the runner. A caller that catches the exception of a call
      may go on with the next one, so a trace continues past failures. */
  datatype Call<Todo, Result, Sink, E> =
    | PlanCall(planned: Outcome<Todo, E>, showPreview: bool)
    | RunCall(ran: Outcome<Result, E>, showReport: bool)
    | ConfirmCall(reply: Option<Exception<E>>)
    | EnterCall(sink: Sink)
    | WriteCall(text: string)   // with no sink in place the source raises AttributeError; the state is unchanged
    | ExitCall(raised: Option<Exception<E>>)

  function Step<Todo, Result, Sink, E>(
    s: State<Todo, Result, Sink>, v: Variant<Todo, Result>, showProgress: bool, c: Call<Todo, Result, Sink, E>)
    : State<Todo, Result, Sink>
  {
    match c
    case PlanCall(planned, showPreview) => Plan(s, v, planned, showPreview).0
    case RunCall(ran, showReport) => Run(s, v, ran, showReport).0
    case ConfirmCall(_) => s
    case EnterCall(sink) => EnterProgressBar(s, sink)
    case WriteCall(text) => SinkWrite(s, showProgress, text)
    case ExitCall(raised) => ExitProgressBar(s, raised).0
  }

  /** The state after the calls, in order. */
  function Execute<Todo, Result, Sink, E>(
    s: State<Todo, Result, Sink>, v: Variant<Todo, Result>, showProgress: bool, calls: seq<Call<Todo, Result, Sink, E>>)
    : State<Todo, Result, Sink>
    decreases |calls|
  {
    if calls == [] then s else Execute(Step(s, v, showProgress, calls[0]), v, showProgress, calls[1..])
  }

  predicate PlanSucceeds<Todo, Result, Sink, E>(c: Call<Todo, Result, Sink, E>)
  {
    c.PlanCall? && c.planned.Returned?
  }

  predicate RunSucceeds<Todo, Result, Sink, E>(c: Call<Todo, Result, Sink, E>)
  {
    c.RunCall? && c.ran.Returned?
  }

  /** Entering or leaving a progress scope. */
  predicate ScopeCall<Todo, Result, Sink, E>(c: Call<Todo, Result, Sink, E>)
  {
    c.EnterCall? || c.ExitCall?
  }

  /** A call that changes nothing: a plan or run whose procedure raised, or a confirmation. */
  predicate Inert<Todo, Result, Sink, E>(c: Call<Todo, Result, Sink, E>)
  {
    (c.PlanCall? && c.planned.Raised?) || (c.RunCall? && c.ran.Raised?) || c.ConfirmCall?
  }

  /** The previews and reports the calls print, in order. */
  function Printed<Todo, Result, Sink, E>(v: Variant<Todo, Result>, calls: seq<Call<Todo, Result, Sink, E>>): seq<string>
    decreases |calls|
  {
    if calls == [] then []
    else
      var here := match calls[0]
        case PlanCall(Returned(t), true) => [v.preview(t)]
        case RunCall(Returned(x), true) => [v.report(x)]
        case _ => [];
      here + Printed(v, calls[1..])
  }

  // ----- plan track -----

  /** Without a successful plan, the todo slot keeps its value. */
  lemma {:induction false} TodoKeptWithoutSuccessfulPlan<Todo, Result, Sink, E>(
    s: State<Todo, Result, Sink>, v: Variant<Todo, Result>, showProgress: bool, calls: seq<Call<Todo, Result, Sink, E>>)
    requires forall j :: 0 <= j < |calls| ==> !PlanSucceeds(calls[j])
    ensures Execute(s, v, showProgress, calls).todo == s.todo
    decreases |calls|
  {
    if calls != [] {
      assert !PlanSucceeds(calls[0]);
      TodoKeptWithoutSuccessfulPlan(Step(s, v, showProgress, calls[0]), v, showProgress, calls[1..]);
    }
  }

  /** The todo slot holds the value of the last successful plan: re-planning
      replaces it, and later failed plans do not. */
  lemma {:induction false} TodoIsLastSuccessfulPlan<Todo, Result, Sink, E>(
    s: State<Todo, Result, Sink>, v: Variant<Todo, Result>, showProgress: bool, calls: seq<Call<Todo, Result, Sink, E>>, i: nat)
    requires i < |calls| && PlanSucceeds(calls[i])
    requires forall j :: i < j < |calls| ==> !PlanSucceeds(calls[j])
    ensures Execute(s, v, showProgress, calls).todo == Some(calls[i].planned.value)
    decreases |calls|
  {
    var next := Step(s, v, showProgress, calls[0]);
    if i == 0 {
      TodoKeptWithoutSuccessfulPlan(next, v, showProgress, calls[1..]);
    } else {
      TodoIsLastSuccessfulPlan(next, v, showProgress, calls[1..], i - 1);
    }
  }

  /** Before any successful plan, reading `todo` raises UpdateNotPlanned. */
  lemma NotPlannedBeforeAnyPlan<Todo, Result, Sink, E>(
    v: Variant<Todo, Result>, showProgress: bool, output: seq<string>, calls: seq<Call<Todo, Result, Sink, E>>)
    requires forall j :: 0 <= j < |calls| ==> !PlanSucceeds(calls[j])
    ensures ReadTodo<Todo, Result, Sink, E>(Execute(Initial(output), v, showProgress, calls), v) == Raised(NotPlanned)
  {
    TodoKeptWithoutSuccessfulPlan(Initial(output), v, showProgress, calls);
  }

  /** After the last successful plan, reading `todo` yields its value,
      or raises UpdateNotPlanned when that value is falsy. */
  lemma TodoReadsLastSuccessfulPlan<Todo, Result, Sink, E>(
    s: State<Todo, Result, Sink>, v: Variant<Todo, Result>, showProgress: bool, calls: seq<Call<Todo, Result, Sink, E>>, i: nat)
    requires i < |calls| && PlanSucceeds(calls[i])
    requires forall j :: i < j < |calls| ==> !PlanSucceeds(calls[j])
    ensures ReadTodo<Todo, Result, Sink, E>(Execute(s, v, showProgress, calls), v)
      == if v.todoTruthy(calls[i].planned.value) then calls[i].planned else Raised(NotPlanned)
  {
    TodoIsLastSuccessfulPlan(s, v, showProgress, calls, i);
  }

  // ----- run track -----

  lemma {:induction false} ResultKeptWithoutSuccessfulRun<Todo, Result, Sink, E>(
    s: State<Todo, Result, Sink>, v: Variant<Todo, Result>, showProgress: bool, calls: seq<Call<Todo, Result, Sink, E>>)
    requires forall j :: 0 <= j < |calls| ==> !RunSucceeds(calls[j])
    ensures Execute(s, v, showProgress, calls).result == s.result
    decreases |calls|
  {
    if calls != [] {
      assert !RunSucceeds(calls[0]);
      ResultKeptWithoutSuccessfulRun(Step(s, v, showProgress, calls[0]), v, showProgress, calls[1..]);
    }
  }

  lemma {:induction false} ResultIsLastSuccessfulRun<Todo, Result, Sink, E>(
    s: State<Todo, Result, Sink>, v: Variant<Todo, Result>, showProgress: bool, calls: seq<Call<Todo, Result, Sink, E>>, i: nat)
    requires i < |calls| && RunSucceeds(calls[i])
    requires forall j :: i < j < |calls| ==> !RunSucceeds(calls[j])
    ensures Execute(s, v, showProgress, calls).result == Some(calls[i].ran.value)
    decreases |calls|
  {
    var next := Step(s, v, showProgress, calls[0]);
    if i == 0 {
      ResultKeptWithoutSuccessfulRun(next, v, showProgress, calls[1..]);
    } else {
      ResultIsLastSuccessfulRun(next, v, showProgress, calls[1..], i - 1);
    }
  }

  lemma NotRunBeforeAnyRun<Todo, Result, Sink, E>(
    v: Variant<Todo, Result>, showProgress: bool, output: seq<string>, calls: seq<Call<Todo, Result, Sink, E>>)
    requires forall j :: 0 <= j < |calls| ==> !RunSucceeds(calls[j])
    ensures ReadResult<Todo, Result, Sink, E>(Execute(Initial(output), v, showProgress, calls), v) == Raised(NotRun)
  {
    ResultKeptWithoutSuccessfulRun(Initial(output), v, showProgress, calls);
  }

  lemma ResultReadsLastSuccessfulRun<Todo, Result, Sink, E>(
    s: State<Todo, Result, Sink>, v: Variant<Todo, Result>, showProgress: bool, calls: seq<Call<Todo, Result, Sink, E>>, i: nat)
    requires i < |calls| && RunSucceeds(calls[i])
    requires forall j :: i < j < |calls| ==> !RunSucceeds(calls[j])
    ensures ReadResult<Todo, Result, Sink, E>(Execute(s, v, showProgress, calls), v)
      == if v.resultTruthy(calls[i].ran.value) then calls[i].ran else Raised(NotRun)
  {
    ResultIsLastSuccessfulRun(s, v, showProgress, calls, i);
  }

  // ----- progress track -----

  lemma {:induction false} ProgressKeptOutsideScopes<Todo, Result, Sink, E>(
    s: State<Todo, Result, Sink>, v: Variant<Todo, Result>, showProgress: bool, calls: seq<Call<Todo, Result, Sink, E>>)
    requires forall j :: 0 <= j < |calls| ==> !ScopeCall(calls[j])
    ensures Execute(s, v, showProgress, calls).progress == s.progress
    decreases |calls|
  {
    if calls != [] {
      assert !ScopeCall(calls[0]);
      ProgressKeptOutsideScopes(Step(s, v, showProgress, calls[0]), v, showProgress, calls[1..]);
    }
  }

  /** `progress` is the sink of the last scope entered, or `None` once the
      last scope has been left, whether normally or by an exception. */
  lemma {:induction false} ProgressFollowsLastScopeCall<Todo, Result, Sink, E>(
    s: State<Todo, Result, Sink>, v: Variant<Todo, Result>, showProgress: bool, calls: seq<Call<Todo, Result, Sink, E>>, i: nat)
    requires i < |calls| && ScopeCall(calls[i])
    requires forall j :: i < j < |calls| ==> !ScopeCall(calls[j])
    ensures Execute(s, v, showProgress, calls).progress
      == if calls[i].EnterCall? then Some(calls[i].sink) else None
    decreases |calls|
  {
    var next := Step(s, v, showProgress, calls[0]);
    if i == 0 {
      ProgressKeptOutsideScopes(next, v, showProgress, calls[1..]);
    } else {
      ProgressFollowsLastScopeCall(next, v, showProgress, calls[1..], i - 1);
    }
  }

  /** Leaving a nested scope clears `progress` although the outer scope is
      still open: the outer sink is no longer reachable through `progress`. */
  lemma InnerExitClearsOuterScope<Todo, Result, Sink, E>(
    s: State<Todo, Result, Sink>, v: Variant<Todo, Result>, showProgress: bool, outer: Sink, inner: Sink)
    ensures Execute<Todo, Result, Sink, E>(s, v, showProgress, [EnterCall(outer), EnterCall(inner), ExitCall(None)]).progress
      == None
  {
    ProgressFollowsLastScopeCall<Todo, Result, Sink, E>(s, v, showProgress, [EnterCall(outer), EnterCall(inner), ExitCall(None)], 2);
  }

  // ----- output and untouched state -----

  /** With progress hidden, the output receives exactly the previews and
      reports of the successful opted-in calls: nothing the sink writes. */
  lemma {:induction false} HiddenProgressPrintsOnlyPreviewsAndReports<Todo, Result, Sink, E>(
    s: State<Todo, Result, Sink>, v: Variant<Todo, Result>, calls: seq<Call<Todo, Result, Sink, E>>)
    ensures Execute(s, v, false, calls).output == s.output + Printed(v, calls)
    decreases |calls|
  {
    if calls != [] {
      var next := Step(s, v, false, calls[0]);
      HiddenProgressPrintsOnlyPreviewsAndReports(next, v, calls[1..]);
      assert next.output == s.output + Printed(v, calls[..1]);
    }
  }

  /** Failed plans, failed runs and confirmations change nothing at all. */
  lemma {:induction false} InertCallsChangeNothing<Todo, Result, Sink, E>(
    s: State<Todo, Result, Sink>, v: Variant<Todo, Result>, showProgress: bool, calls: seq<Call<Todo, Result, Sink, E>>)
    requires forall j :: 0 <= j < |calls| ==> Inert(calls[j])
    ensures Execute(s, v, showProgress, calls) == s
    decreases |calls|
  {
    if calls != [] {
      assert Inert(calls[0]);
      InertCallsChangeNothing(Step(s, v, showProgress, calls[0]), v, showProgress, calls[1..]);
    }
  }
}
