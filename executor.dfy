/** What the query and mutation executors share: the three reactive cells
    `data`, `loading` and `error`, and the updates that both `fetch` in
    composables/useQuery.ts and `mutate` in composables/useMutation.ts make
    to them around one awaited `execute` call whose settlement is an input. */
module Executors {
  import opened Wrappers
  import opened GraphQL

  /** The cells `data`, `loading` and `error` at one moment. */
  datatype Cells = Cells(data: Option<Json>, loading: bool, error: Option<string>)

  /** The message a catch block stores: an `Error`'s own, or the fallback. */
  function CaughtMessage(t: Thrown, fallback: string): (m: string)
    ensures t.ErrorObject? ==> m == t.message
    ensures t.OtherValue? ==> m == fallback
  {
    match t
    case ErrorObject(msg) => msg
    case OtherValue => fallback
  }

  /** What the try block raises, if anything, for a settled `execute`:
      the first error of a response with errors becomes an `Error`. */
  function TryRaises(s: Settlement): (t: Option<Thrown>)
    ensures t.None? <==> s.Resolved? && s.response.errors.None?
    ensures s.Resolved? && s.response.errors.Some? ==> t == Some(ErrorObject(s.response.errors.value.first.message))
    ensures s.Raised? ==> t == Some(s.reason)
  {
    match s
    case Raised(t) => Some(t)
    case Resolved(r) => if r.errors.Some? then Some(ErrorObject(r.errors.value.first.message)) else None
  }

  /** The cells once a call has started and is waiting on `execute`. */
  function Started(c: Cells): (r: Cells)
    ensures r.loading && r.error.None? && r.data == c.data
  {
    c.(loading := true, error := None)
  }

  /** The cells once the awaited call has settled and `finally` has run. */
  function Settled(c: Cells, s: Settlement, fallback: string): (r: Cells)
    ensures !r.loading
    ensures r.error.Some? <==> TryRaises(s).Some? || c.error.Some?
    ensures TryRaises(s).Some? ==> r.data == c.data && r.error == Some(CaughtMessage(TryRaises(s).value, fallback))
    ensures TryRaises(s).None? ==> r.data == OrNull(s.response.data) && r.error == c.error
  {
    match TryRaises(s)
    case Some(t) => c.(error := Some(CaughtMessage(t, fallback)), loading := false)
    case None => c.(data := OrNull(s.response.data), loading := false)
  }
}
