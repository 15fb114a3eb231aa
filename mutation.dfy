/** The mutation executor of composables/useMutation.ts: the same three
    cells as the query executor, and `mutate`, which records a failure and
    then raises it again instead of absorbing it. */
module Mutations {
  import opened Wrappers
  import opened GraphQL
  import opened Executors

  const MutationFallbackMessage := "Произошла ошибка при выполнении операции"

  /** The cells after one whole `mutate` call: never loading, and with an
      error exactly when `mutate` raises. */
  function Mutated(c: Cells, s: Settlement): (r: Cells)
    ensures !r.loading
    ensures r.error.Some? <==> MutateReturn(s).Failure?
  {
    Settled(Started(c), s, MutationFallbackMessage)
  }

  /** What `mutate` gives its caller: `response.data` itself (not `|| null`),
      or the very value that was caught, raised again. */
  function MutateReturn(s: Settlement): (r: Result<Option<Json>, Thrown>)
    ensures r.Success? <==> s.Resolved? && s.response.errors.None?
    ensures r.Success? ==> r.value == s.response.data
    ensures s.Resolved? && s.response.errors.Some? ==> r == Failure(ErrorObject(s.response.errors.value.first.message))
    ensures s.Raised? ==> r == Failure(s.reason)
  {
    match TryRaises(s)
    case Some(t) => Failure(t)
    case None => Success(s.response.data)
  }

  /** After one `mutate`: `loading` is false on both the return and the
      raise path; it raises exactly when it records an error, and the
      recorded message is the raised error's; on success `data` is the
      response's data or null, and the return value is the data as is. */
  lemma MutateResult(c: Cells, s: Settlement)
    ensures !Mutated(c, s).loading
    ensures MutateReturn(s).Failure? <==> Mutated(c, s).error.Some?
    ensures MutateReturn(s).Failure? ==>
      Mutated(c, s).data == c.data && Mutated(c, s).error == Some(CaughtMessage(MutateReturn(s).error, MutationFallbackMessage))
    ensures MutateReturn(s).Success? ==>
      Mutated(c, s) == Cells(OrNull(MutateReturn(s).value), false, None)
  {
  }

  /** Against the real `execute`: a status outside 2xx is recorded and raised
      as an `Error` naming the status, and the prior data stays. */
  lemma MutateHttpError(c: Cells, status: nat, body: BodyRead)
    requires !HttpOk(status)
    ensures MutateReturn(ExecuteSettlement(Received(status, body))) == Failure(ErrorObject(HttpErrorMessage(status)))
    ensures Mutated(c, ExecuteSettlement(Received(status, body))) == Cells(c.data, false, Some(HttpErrorMessage(status)))
  {
  }

  /** The state `useMutation(mutation)` creates. */
  class Mutation {
    var data: Option<Json>
    var loading: bool
    var error: Option<string>

    function Snapshot(): Cells
      reads this
    {
      Cells(data, loading, error)
    }

    /** Data null, not loading, no error. */
    constructor ()
      ensures Snapshot() == Cells(None, false, None)
    {
      data, loading, error := None, false, None;
    }

    /** The part of `mutate` before the `await`. */
    method Start()
      modifies this
      ensures Snapshot() == Started(old(Snapshot()))
    {
      loading := true;
      error := None;
    }

    /** The part of `mutate` after the `await`: the try block returns the
        data, the catch block records the error and raises it again, and
        the finally block runs on both paths. */
    method Settle(s: Settlement) returns (result: Result<Option<Json>, Thrown>)
      modifies this
      ensures Snapshot() == Settled(old(Snapshot()), s, MutationFallbackMessage)
      ensures result == MutateReturn(s)
    {
      if s.Resolved? && s.response.errors.None? {
        data := OrNull(s.response.data);
        result := Success(s.response.data);
      } else {
        var caught := if s.Raised? then s.reason else ErrorObject(s.response.errors.value.first.message);
        error := Some(CaughtMessage(caught, MutationFallbackMessage));
        result := Failure(caught);
      }
      loading := false;
    }

    /** One whole `mutate` call; `waiting` is what the cells hold while it
        is suspended on `execute`. */
    method Mutate(s: Settlement) returns (result: Result<Option<Json>, Thrown>, ghost waiting: Cells)
      modifies this
      ensures waiting == Started(old(Snapshot()))
      ensures Snapshot() == Mutated(old(Snapshot()), s)
      ensures result == MutateReturn(s)
    {
      Start();
      waiting := Snapshot();
      result := Settle(s);
    }
  }
}
