/** Where a query of the plan stands. */
module QueryStates {
  datatype QueryStatus = Queued | InProgress | Done | Skipped | Errored

  predicate Runnable(s: QueryStatus) { s == Queued || s == InProgress }
}
