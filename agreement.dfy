/** The query and mutation executors side by side: for the same settled
    `execute` call they make the same updates to their cells. */
module ExecutorAgreement {
  import opened GraphQL
  import opened Executors
  import opened Queries
  import opened Mutations

  /** The two executors leave the same cells behind for the same settlement,
      except for the fallback text when something other than an `Error` was
      raised; the mutation raises exactly when the query records an error. */
  lemma MutationAgreesWithQuery(c: Cells, s: Settlement)
    ensures Mutated(c, s).data == Fetched(c, s).data
    ensures Mutated(c, s).loading == Fetched(c, s).loading
    ensures Mutated(c, s).error.Some? <==> Fetched(c, s).error.Some?
    ensures !(s.Raised? && s.reason.OtherValue?) ==> Mutated(c, s) == Fetched(c, s)
    ensures MutateReturn(s).Failure? <==> Fetched(c, s).error.Some?
  {
  }
}
