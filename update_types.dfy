/** Values shared by the model of the plan-then-run update workflow: optional
    attributes, the exceptions the workflow raises or lets through, how a call
    into a collaborator ended, and what each concrete runner variant supplies. */
module UpdateTypes {

  /** An attribute that may hold Python's `None`. */
  datatype Option<+T> = None | Some(value: T)

  /** The exceptions that matter to the workflow. `E` is the type of one
      domain error record, an element of the `UpdateErrors` collection. */
  datatype Exception<+E> =
    | PlanFailure(errors: seq<E>)   // a BaseUpdatePlanFailure carrying its errors
    | RunFailure(errors: seq<E>)    // a BaseUpdateRunFailure carrying its errors
    | NotPlanned                    // UpdateNotPlanned
    | NotRun                        // UpdateNotRun
    | Aborted                       // UpdateAborted
    | AssertionFailed               // any AssertionError instance, subclasses included: how the prompt says "declined"
    | Other(name: string)           // any other exception outside the AssertionError class, named by its class

  /** How a call into a collaborator ended: it returned a value or it raised. */
  datatype Outcome<+T, +E> = Returned(value: T) | Raised(exception: Exception<E>)

  /** What a concrete runner variant and its value types contribute:
      Python truthiness of a todo and of a result (what `not x` negates),
      and the `preview` and `report` texts rendered from the stored value. */
  datatype Variant<-Todo, -Result> = Variant(
    todoTruthy: Todo -> bool,
    resultTruthy: Result -> bool,
    preview: Todo -> string,
    report: Result -> string)
}
