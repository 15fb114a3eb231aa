/** The query executor of composables/useQuery.ts: three reactive cells and
    `fetch`, which moves them through a fixed sequence around one awaited
    `execute` call whose settlement is an input. */
module Queries {
  import opened Wrappers
  import opened GraphQL
  import opened Executors

  const QueryFallbackMessage := "Произошла ошибка при загрузке данных"

  /** The cells after one whole `fetch` call: never loading, and with an
      error exactly when the try block raised. */
  function Fetched(c: Cells, s: Settlement): (r: Cells)
    ensures !r.loading
    ensures r.error.Some? <==> TryRaises(s).Some?
  {
    Settled(Started(c), s, QueryFallbackMessage)
  }

  /** After one `fetch`: `loading` is false whatever the outcome; `error` is
      set exactly when the call failed, and then `data` keeps its value;
      otherwise `data` is the response's data, or null when that is falsy. */
  lemma FetchResult(c: Cells, s: Settlement)
    ensures !Fetched(c, s).loading
    ensures Fetched(c, s).error.Some? <==> TryRaises(s).Some?
    ensures s.Resolved? && s.response.errors.Some? ==>
      Fetched(c, s) == Cells(c.data, false, Some(s.response.errors.value.first.message))
    ensures s.Resolved? && s.response.errors.None? ==>
      Fetched(c, s) == Cells(OrNull(s.response.data), false, None)
  {
  }

  /** Against the real `execute`: a status outside 2xx leaves the prior data
      and an error naming the status. */
  lemma FetchHttpError(c: Cells, status: nat, body: BodyRead)
    requires !HttpOk(status)
    ensures Fetched(c, ExecuteSettlement(Received(status, body))) == Cells(c.data, false, Some(HttpErrorMessage(status)))
  {
  }

  /** Against the real `execute`: a 2xx body with errors leaves the prior
      data and its first message; a 2xx body without errors gives its data. */
  lemma FetchBody(c: Cells, status: nat, body: Response)
    requires HttpOk(status)
    ensures body.errors.Some? ==>
      Fetched(c, ExecuteSettlement(Received(status, Parsed(body)))) == Cells(c.data, false, Some(body.errors.value.first.message))
    ensures body.errors.None? ==>
      Fetched(c, ExecuteSettlement(Received(status, Parsed(body)))) == Cells(OrNull(body.data), false, None)
  {
  }

  /** Against the real `execute`, the query fallback message never shows:
      `execute` resolves, and every error it reports is an `Error`. */
  lemma FetchNeverFallsBack(c: Cells, outcome: FetchOutcome)
    ensures TryRaises(ExecuteSettlement(outcome)).Some? ==>
      Fetched(c, ExecuteSettlement(outcome)).error == Some(Execute(outcome).errors.value.first.message)
  {
  }

  /** The state `useQuery(query, variables)` creates. */
  class Query {
    var data: Option<Json>
    var loading: bool
    var error: Option<string>

    function Snapshot(): Cells
      reads this
    {
      Cells(data, loading, error)
    }

    /** Data null, not loading, no error. */
    constructor ()
      ensures Snapshot() == Cells(None, false, None)
    {
      data, loading, error := None, false, None;
    }

    /** The part of `fetch` before the `await`. */
    method Start()
      modifies this
      ensures Snapshot() == Started(old(Snapshot()))
    {
      loading := true;
      error := None;
    }

    /** The part of `fetch` after the `await`: the try, catch and finally
      blocks. It never raises to its caller. */
    method Settle(s: Settlement)
      modifies this
      ensures Snapshot() == Settled(old(Snapshot()), s, QueryFallbackMessage)
    {
      var raised: Option<Thrown> := None;
      if s.Raised? {
        raised := Some(s.reason);
      } else if s.response.errors.Some? {
        raised := Some(ErrorObject(s.response.errors.value.first.message));
      } else {
        data := OrNull(s.response.data);
      }
      if raised.Some? {
        error := Some(CaughtMessage(raised.value, QueryFallbackMessage));
      }
      loading := false;
    }

    /** One whole `fetch` call; `waiting` is what the cells hold while it
        is suspended on `execute`. */
    method Fetch(s: Settlement) returns (ghost waiting: Cells)
      modifies this
      ensures waiting == Started(old(Snapshot()))
      ensures Snapshot() == Fetched(old(Snapshot()), s)
    {
      Start();
      waiting := Snapshot();
      Settle(s);
    }
  }
}
