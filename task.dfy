/** The vocabulary of an execution report: step kinds, statuses, the default priority and entries. */
module Task {

  /** The `type` of an output entry. */
  datatype StepKind = PreconditionTest | PreconditionSolve | Command | Cleanup {

    predicate IsPrecondition() {
      PreconditionTest? || PreconditionSolve?
    }
  }

  /** A step's or a whole run's `status`. */
  datatype Status = Success | Failure

  /** The priority a bundle without one runs under. */
  const DefaultPriority: string := "medium"

  /** One element of `outputs`: what ran, what it printed, and how it was classified. */
  datatype Entry = Entry(kind: StepKind, command: string, output: string, status: Status)

}
