/**
 * The HTTP layer shared by every request module: the credentials a request is made
 * with, the request that goes out, and the outcome that comes back, taken as an
 * input. Axios treats exactly the 2xx statuses as success and throws an error that
 * carries the response for every other status.
 */
module Http {
  import opened Js

  const SpotifyApiBase: string := "https://api.spotify.com/v1"

  /** The error every request function throws, before any request, when nobody is signed in. */
  const NotAuthenticated: Exn := Error("User is not authenticated")

  /** What a request function reads from the authentication service. */
  datatype Credentials = Credentials(authenticated: bool, accessToken: Json)

  datatype Method = Get | Put | Post | Delete

  /** A request as it goes out; `params` and `data` are `JUndef` when not sent. */
  datatype Request = Request(verb: Method, url: string, headers: seq<(string, string)>, params: Json, data: Json)

  /**
   * The outcome of one request: a reply with a status and a parsed body, an axios
   * error without a reply (the network failed), or an error of another kind.
   */
  datatype Outcome = Replied(status: int, body: Json) | NoReply | Crashed

  /** Axios resolves exactly on these statuses and rejects on every other one. */
  predicate IsSuccess(status: int) {
    200 <= status < 300
  }

  predicate Succeeded(o: Outcome) {
    o.Replied? && IsSuccess(o.status)
  }

  /** The bearer credential of section 2.1 of RFC 6750, built with a template literal. */
  function Bearer(creds: Credentials): (h: string)
    ensures |h| >= 7 && h[..7] == "Bearer "
    ensures creds.accessToken.JStr? ==> h[7..] == creds.accessToken.s
  {
    "Bearer " + ToJsString(creds.accessToken)
  }

  function AuthorizationOnly(creds: Credentials): seq<(string, string)> {
    [("Authorization", Bearer(creds))]
  }

  function JsonHeaders(creds: Credentials): seq<(string, string)> {
    AuthorizationOnly(creds) + [("Content-Type", "application/json")]
  }

  /** A request function's effect: the request it sent (none when it stopped first) and its result. */
  datatype Exchange<T> = Exchange(sent: Option<Request>, result: Result<T>)

  /** The optional `config` of makeRequest: params and data, `JUndef` when absent. */
  datatype Config = Config(params: Json, data: Json)

  /** `error.response?.data?.error?.message || "An API error occurred"`, as `new Error` turns it into a message. */
  function ApiErrorMessage(body: Json): (m: string)
    ensures Truthy(Prop(Prop(body, "error"), "message")) ==> m == ToJsString(Prop(Prop(body, "error"), "message"))
    ensures !Truthy(Prop(Prop(body, "error"), "message")) ==> m == "An API error occurred"
  {
    ToJsString(Or(Prop(Prop(body, "error"), "message"), JStr("An API error occurred")))
  }

  /** makeRequest: the guard, then one request to the API base, with the error mapping of its catch block. */
  function MakeRequest(creds: Credentials, verb: Method, endpoint: string, config: Config, outcome: Outcome): (x: Exchange<Json>)
    ensures !creds.authenticated ==> x == Exchange(None, Thrown(NotAuthenticated))
    ensures creds.authenticated ==>
      x.sent == Some(Request(verb, SpotifyApiBase + "/" + endpoint, JsonHeaders(creds), config.params, config.data))
    ensures creds.authenticated ==> (x.result.Ok? <==> Succeeded(outcome))
    ensures creds.authenticated && Succeeded(outcome) ==> x.result == Ok(outcome.body)
    ensures creds.authenticated && outcome.Replied? && !IsSuccess(outcome.status) ==>
      x.result == Thrown(Error(ApiErrorMessage(outcome.body)))
    ensures creds.authenticated && outcome.NoReply? ==> x.result == Thrown(Error("An API error occurred"))
    ensures creds.authenticated && outcome.Crashed? ==> x.result == Thrown(Error("An unknown error occurred"))
  {
    if !creds.authenticated then Exchange(None, Thrown(NotAuthenticated))
    else
      var req := Request(verb, SpotifyApiBase + "/" + endpoint, JsonHeaders(creds), config.params, config.data);
      var result :=
        match outcome
        case Replied(status, body) =>
          if IsSuccess(status) then Ok(body) else Thrown(Error(ApiErrorMessage(body)))
        case NoReply => Thrown(Error(ApiErrorMessage(JUndef)))
        case Crashed => Thrown(Error("An unknown error occurred"));
      Exchange(Some(req), result)
  }

  /** The message of the error makeRequest throws for an outcome that is not a 2xx reply. */
  function FailureMessage(o: Outcome): (m: string)
    ensures o.Replied? ==> m == ApiErrorMessage(o.body)
    ensures o.NoReply? ==> m == "An API error occurred"
    ensures o.Crashed? ==> m == "An unknown error occurred"
  {
    match o
    case Replied(_, body) => ApiErrorMessage(body)
    case NoReply => ApiErrorMessage(JUndef)
    case Crashed => "An unknown error occurred"
  }

  /**
   * What every function built on makeRequest does: nothing but the guard's error when
   * nobody is signed in; otherwise it sends exactly the request for `verb`, `endpoint`
   * and `config`, rethrows the dispatcher's error for a failed outcome, and hands the
   * data of a 2xx reply to `onData`.
   */
  predicate Performs<T(==)>(x: Exchange<T>, creds: Credentials, verb: Method, endpoint: string, config: Config,
                        outcome: Outcome, onData: Json -> Result<T>) {
    (!creds.authenticated ==> x == Exchange(None, Thrown(NotAuthenticated)))
    && (creds.authenticated ==>
          x.sent == Some(Request(verb, SpotifyApiBase + "/" + endpoint, JsonHeaders(creds), config.params, config.data)))
    && (creds.authenticated && Succeeded(outcome) ==> x.result == onData(outcome.body))
    && (creds.authenticated && !Succeeded(outcome) ==> x.result == Thrown(Error(FailureMessage(outcome))))
  }

  /** What the caller does with makeRequest's data once it resolves; a rejection passes through. */
  function Then<T, U>(x: Exchange<T>, f: T -> Result<U>): (y: Exchange<U>)
    ensures y.sent == x.sent
    ensures x.result.Thrown? ==> y.result == Thrown(x.result.exn)
    ensures x.result.Ok? ==> y.result == f(x.result.value)
  {
    match x.result
    case Ok(v) => Exchange(x.sent, f(v))
    case Thrown(e) => Exchange(x.sent, Thrown(e))
  }

  // ---------------------------------------------------------------------------
  // The try/catch shape of the per-feature request modules, which call axios directly.

  /** What a catch block sees: an axios error (with the reply's status when there was one) or any other error. */
  datatype Caught = AxiosFailure(status: Option<int>) | OtherFailure

  datatype Attempt<T> = Done(value: T) | Failed(caught: Caught)

  /**
   * A try block: the axios call, then `process` on the status and body of a 2xx reply.
   * An error thrown while processing is caught too, as an error that is not an axios error.
   */
  function Try<T>(outcome: Outcome, process: (int, Json) -> Result<T>): (a: Attempt<T>)
    ensures Succeeded(outcome) ==>
      (process(outcome.status, outcome.body).Ok? ==> a == Done(process(outcome.status, outcome.body).value))
      && (process(outcome.status, outcome.body).Thrown? ==> a == Failed(OtherFailure))
    ensures outcome.Replied? && !IsSuccess(outcome.status) ==> a == Failed(AxiosFailure(Some(outcome.status)))
    ensures outcome.NoReply? ==> a == Failed(AxiosFailure(None))
    ensures outcome.Crashed? ==> a == Failed(OtherFailure)
  {
    match outcome
    case Replied(status, body) =>
      if IsSuccess(status) then
        match process(status, body)
        case Ok(v) => Done(v)
        case Thrown(_) => Failed(OtherFailure)
      else Failed(AxiosFailure(Some(status)))
    case NoReply => Failed(AxiosFailure(None))
    case Crashed => Failed(OtherFailure)
  }

  /** A request a per-feature module sends to the API directly. */
  function ApiRequest(verb: Method, path: string, headers: seq<(string, string)>, params: Json, data: Json): (req: Request)
    ensures req.url == SpotifyApiBase + "/" + path
  {
    Request(verb, SpotifyApiBase + "/" + path, headers, params, data)
  }

  /**
   * What every per-feature function does: nothing but the guard's error when nobody is
   * signed in; otherwise it sends exactly `req`, returns what `process` makes of a 2xx
   * reply, and otherwise returns what its catch block `handler` makes of the failure,
   * where an error while processing a 2xx reply reaches the catch block as a non-axios error.
   */
  predicate Attempts<T(==)>(x: Exchange<T>, creds: Credentials, req: Request, outcome: Outcome,
                            process: (int, Json) -> Result<T>, handler: Caught -> Result<T>) {
    (!creds.authenticated ==> x == Exchange(None, Thrown(NotAuthenticated)))
    && (creds.authenticated ==> x.sent == Some(req))
    && (creds.authenticated && Succeeded(outcome) && process(outcome.status, outcome.body).Ok? ==>
          x.result == process(outcome.status, outcome.body))
    && (creds.authenticated && Succeeded(outcome) && process(outcome.status, outcome.body).Thrown? ==>
          x.result == handler(OtherFailure))
    && (creds.authenticated && outcome.Replied? && !IsSuccess(outcome.status) ==>
          x.result == handler(AxiosFailure(Some(outcome.status))))
    && (creds.authenticated && outcome.NoReply? ==> x.result == handler(AxiosFailure(None)))
    && (creds.authenticated && outcome.Crashed? ==> x.result == handler(OtherFailure))
  }

  /** The guard, then the request in a try block whose catch block is `handler`. */
  function TryRequest<T(==)>(creds: Credentials, req: Request, outcome: Outcome, process: (int, Json) -> Result<T>,
                             handler: Caught -> Result<T>): (x: Exchange<T>)
    ensures Attempts(x, creds, req, outcome, process, handler)
  {
    if !creds.authenticated then Exchange(None, Thrown(NotAuthenticated))
    else
      match Try(outcome, process)
      case Done(v) => Exchange(Some(req), Ok(v))
      case Failed(c) => Exchange(Some(req), handler(c))
  }

  /** Discards the reply's data and answers `{ success: true }`, as every write does once its request resolves. */
  function Acknowledge(data: Json): (r: Result<Json>)
    ensures r == Ok(SuccessTrue)
  {
    Ok(SuccessTrue)
  }

  /** Answers the reply's data unchanged. */
  function PassThrough(data: Json): (r: Result<Json>)
    ensures r == Ok(data)
  {
    Ok(data)
  }

  /** A try block that looks only at the reply's data, never at its status. */
  function OnData<T>(f: Json -> Result<T>): (p: (int, Json) -> Result<T>)
    ensures forall status, data :: p(status, data) == f(data)
  {
    (status, data) => f(data)
  }

  /** A catch block that ignores what it caught and ends in `r`, returned or thrown. */
  function Always<T>(r: Result<T>): (h: Caught -> Result<T>)
    ensures forall c :: h(c) == r
  {
    c => r
  }

  /** The catch block caught an axios error carrying a reply with status `s`. */
  predicate HasStatus(c: Caught, s: int) {
    c.AxiosFailure? && c.status == Some(s)
  }

  /** A catch block never sees a successful status, so a test for 204 there can never hold. */
  lemma CatchNeverSeesSuccess<T>(outcome: Outcome, process: (int, Json) -> Result<T>, s: int)
    requires IsSuccess(s)
    ensures !(Try(outcome, process).Failed? && HasStatus(Try(outcome, process).caught, s))
  {
  }

  /** The object literal `{ success: true }`. */
  const SuccessTrue: Json := JObj(map["success" := JBool(true)])

  /** The object literal `{ success: false, error: message }`. */
  function SuccessFalse(message: string): Json {
    JObj(map["success" := JBool(false), "error" := JStr(message)])
  }

  /** The object `{ message: text }` the player functions return for a 204 reply. */
  function MessageObject(text: string): Json {
    JObj(map["message" := JStr(text)])
  }
}
