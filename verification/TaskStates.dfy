/** Task states and the terminal subset shared by the task store, the polling loop and the stream. */
module TaskStates {

  datatype TaskState =
    | Submitted | Working | InputRequired | Completed | Canceled | Failed | Rejected | AuthRequired | Unknown

  predicate Terminal(s: TaskState) {
    s in {Completed, Canceled, Failed, Rejected}
  }

  /** The states the polling fallback keeps polling on. */
  predicate AutoPolled(s: TaskState) {
    s in {Submitted, Working, Unknown}
  }

  /** Every state is final, is polled on, or waits for the client; and no two of these. */
  lemma StatesPartition(s: TaskState)
    ensures Terminal(s) || AutoPolled(s) || s == InputRequired || s == AuthRequired
    ensures !(Terminal(s) && AutoPolled(s))
    ensures s == InputRequired || s == AuthRequired ==> !Terminal(s) && !AutoPolled(s)
  {
  }
}
