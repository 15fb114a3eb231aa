/** The fetch wrapper of composables/useGraphQL.ts: the `GraphQLResponse`
    shape and `execute`, which turns whatever the network did into a
    response value and never raises. The network itself is an input. */
module GraphQL {
  import opened Wrappers
  import Decimal

  /** A JSON value, as `response.json()` produces it. Numbers are ideal
      reals: NaN is not modelled. */
  datatype Json =
    | JNull
    | JBool(b: bool)
    | JNumber(n: real)
    | JString(s: string)
    | JArray(elements: seq<Json>)
    | JObject(members: seq<(string, Json)>)

  /** JavaScript truthiness of a JSON value: exactly `null`, `false`, `0`
      and the empty string are falsy. */
  predicate Truthy(v: Json)
    ensures !Truthy(v) <==> v == JNull || v == JBool(false) || v == JNumber(0.0) || v == JString("")
  {
    match v
    case JNull => false
    case JBool(b) => b
    case JNumber(n) => n != 0.0
    case JString(s) => s != ""
    case JArray(_) => true
    case JObject(_) => true
  }

  /** `d || null`, with `None` standing for both `undefined` and `null`. */
  function OrNull(d: Option<Json>): (r: Option<Json>)
    ensures r.Some? <==> d.Some? && Truthy(d.value)
    ensures r.Some? ==> r == d
  {
    if d.Some? && Truthy(d.value) then d else None
  }

  datatype Location = Location(line: int, column: int)

  /** One entry of a response's `errors` array. */
  datatype ErrorEntry = ErrorEntry(message: string, locations: Option<seq<Location>>, path: Option<seq<string>>)

  /** A present `errors` array; it is never empty. */
  datatype ErrorList = ErrorList(first: ErrorEntry, rest: seq<ErrorEntry>) {
    function Entries(): (es: seq<ErrorEntry>)
      ensures |es| == 1 + |rest| && es[0] == first
    {
      [first] + rest
    }
  }

  /** `GraphQLResponse<T>`: both fields are optional. */
  datatype Response = Response(data: Option<Json>, errors: Option<ErrorList>)

  /** What a `catch` clause receives: an `Error` object or some other value. */
  datatype Thrown = ErrorObject(message: string) | OtherValue

  /** Reading the body of a 2xx response: a parsed value, or a throw
      (the body is not JSON, or is `null`). A body that is a number,
      string, boolean or array does not throw; README, "## Left out",
      says how the model treats it. */
  datatype BodyRead = Parsed(body: Response) | ReadFailed(reason: Thrown)

  /** What the network did for one request. */
  datatype FetchOutcome =
    | Rejected(reason: Thrown)            // `fetch` itself threw
    | Received(status: nat, body: BodyRead) // an HTTP response arrived

  /** How the promise of an `execute`-like call settles. */
  datatype Settlement = Resolved(response: Response) | Raised(reason: Thrown)

  const HttpErrorPrefix := "HTTP error! status: "
  const FallbackMessage := "Произошла ошибка при выполнении запроса"

  /** `response.ok`: the status is in the 2xx range. */
  predicate HttpOk(status: nat)
    ensures HttpOk(status) <==> status / 100 == 2
  {
    200 <= status <= 299
  }

  /** The message of the `Error` thrown for a status outside 2xx: the
      fixed prefix, then the status as a template literal writes it. */
  function HttpErrorMessage(status: nat): (m: string)
    ensures |m| > |HttpErrorPrefix| && m[..|HttpErrorPrefix|] == HttpErrorPrefix
  {
    HttpErrorPrefix + Decimal.FromNat(status)
  }

  /** The failure value `{ errors: [{ message }] }`. */
  function Failed(message: string): (r: Response)
    ensures IsFailure(r, message) && r.errors.value.first.message == message
  {
    Response(None, Some(ErrorList(ErrorEntry(message, None, None), [])))
  }

  /** The catch block of `execute`. */
  function Caught(t: Thrown): (r: Response)
    ensures t.ErrorObject? ==> IsFailure(r, t.message)
    ensures t.OtherValue? ==> IsFailure(r, FallbackMessage)
  {
    match t
    case ErrorObject(m) => Failed(m)
    case OtherValue => Failed(FallbackMessage)
  }

  /** A response that carries an error, and nothing else: no data and
      exactly one error entry with neither locations nor path. */
  predicate IsFailure(r: Response, message: string) {
    r.data.None? && r.errors.Some? && r.errors.value.Entries() == [ErrorEntry(message, None, None)]
  }

  /** `execute`: every outcome of the network becomes a response value. */
  function Execute(outcome: FetchOutcome): (r: Response)
    // the result is the parsed body itself exactly when the body arrived
    // with a 2xx status and has no `errors`; otherwise it is a failure
    ensures r.errors.None? <==>
      outcome.Received? && HttpOk(outcome.status) && outcome.body.Parsed? && outcome.body.body.errors.None?
    ensures r.errors.None? ==> r == outcome.body.body
    ensures r.errors.Some? ==> IsFailure(r, r.errors.value.first.message)
    // a non-2xx status: the message names the status, the body is not read
    ensures outcome.Received? && !HttpOk(outcome.status) ==> IsFailure(r, HttpErrorMessage(outcome.status))
    // a 2xx body with errors: only the first upstream message survives
    ensures outcome.Received? && HttpOk(outcome.status) && outcome.body.Parsed? && outcome.body.body.errors.Some? ==>
      IsFailure(r, outcome.body.body.errors.value.first.message)
    // a thrown `Error` keeps its message; any other thrown value gives the fallback
    ensures outcome.Rejected? || (outcome.Received? && HttpOk(outcome.status) && outcome.body.ReadFailed?) ==>
      var t := if outcome.Rejected? then outcome.reason else outcome.body.reason;
      IsFailure(r, if t.ErrorObject? then t.message else FallbackMessage)
  {
    match outcome
    case Rejected(t) => Caught(t)
    case Received(status, body) =>
      if !HttpOk(status) then Failed(HttpErrorMessage(status))
      else
        match body
        case ReadFailed(t) => Caught(t)
        case Parsed(resp) =>
          if resp.errors.Some? then Failed(resp.errors.value.first.message) else resp
  }

  /** The promise `execute` returns never rejects. */
  function ExecuteSettlement(outcome: FetchOutcome): Settlement {
    Resolved(Execute(outcome))
  }

  /** The HTTP error message determines the status it reports. */
  lemma HttpErrorMessageNamesStatus(status: nat)
    ensures |HttpErrorMessage(status)| > |HttpErrorPrefix|
    ensures HttpErrorMessage(status)[..|HttpErrorPrefix|] == HttpErrorPrefix
    ensures HttpErrorMessage(status)[|HttpErrorPrefix|..] == Decimal.FromNat(status)
    ensures var digits := HttpErrorMessage(status)[|HttpErrorPrefix|..];
      Decimal.AllDigits(digits) && Decimal.ToNat(digits) == status
  {
    var m := HttpErrorMessage(status);
    assert m[|HttpErrorPrefix|..] == Decimal.FromNat(status);
    Decimal.ToNatFromNat(status);
  }

  /** Two failing statuses with the same message are the same status. */
  lemma HttpErrorMessageInjective(s1: nat, s2: nat)
    requires HttpErrorMessage(s1) == HttpErrorMessage(s2)
    ensures s1 == s2
  {
    HttpErrorMessageNamesStatus(s1);
    HttpErrorMessageNamesStatus(s2);
  }

}
