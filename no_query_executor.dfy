/** The query executor installed when queries are switched off. */
module NoQueryExecutor {
  import opened Exceptions

  /** The executor's structured answer; never produced here. */
  type TimeSeriesResult

  const QueriesNotEnabled := "Queries are not enabled"

  /** The contract of every query executor: a failure is an execution
      exception carrying at least one reason. */
  predicate FailsWithReasons<T>(r: Outcome<T>)
  {
    r.Err? ==> r.error.Execution? && |r.error.errors| > 0
  }

  /** `executeQuery`: throws before any query is looked at. */
  function ExecuteQuery(query: string): (r: Outcome<TimeSeriesResult>)
    ensures r.Err? && r.error.Execution?
    ensures |r.error.errors| == 1 && r.error.errors[0] == QueriesNotEnabled
    ensures FailsWithReasons(r)
  {
    Err(Execution([QueriesNotEnabled]))
  }

  /** The outcome does not depend on the query. */
  lemma ExecuteQueryIgnoresQuery(q1: string, q2: string)
    ensures ExecuteQuery(q1) == ExecuteQuery(q2)
  {
  }
}
