/**
 * The request lifecycle of the `useHttp` hook: error-text selection, the
 * auto-fetch condition on the request config, and the state record
 * `{data, isLoading, error, success}` with its transitions.
 *
 * The network is abstract: what `fetch` and `response.json()` produced is a
 * parameter (`Fetched`), never computed here.
 */
module HttpRequest {
  import opened Outcomes

  /** Text thrown for a non-ok response whose body carries no message. */
  const DefaultSendError: string := "Something went wrong, failed to send request."

  /** Text stored when the caught error has no message. */
  const DefaultCaughtError: string := "Something went wrong!"

  /** A request config: the method, the headers and the body. */
  datatype Config<B> = Config(httpMethod: Option<string>, headers: seq<(string, string)>, body: Option<B>)

  /** What `fetch` is called with. */
  datatype Request<B> = Request(url: string, config: Config<B>)

  /** A parsed response: the `ok` flag, the parsed body, and the body's
      `message` field when it has one. */
  datatype Response<T> = Response(ok: bool, body: T, message: Option<string>)

  /** What the network produced: a response whose body parsed, or a rejection
      (transport failure, or a body that did not parse) with its message. */
  datatype Fetched<T> = Received(response: Response<T>) | Rejected(reason: Option<string>)

  /** What `sendHttpRequest` settles to: the parsed body, or a thrown error
      with its message. */
  datatype Outcome<T> = Ok(body: T) | Fail(message: Option<string>)

  /** The hook's state record. `error` is `undefined` until the first failure. */
  datatype RequestState<T> = RequestState(data: T, isLoading: bool, error: Option<string>, success: bool)

  /** The message a non-ok response throws: the body's message when truthy,
      otherwise the fixed fallback. */
  function ErrorText(bodyMessage: Option<string>): (t: string)
    ensures t != ""
    ensures Truthy(bodyMessage) ==> t == bodyMessage.value
    ensures !Truthy(bodyMessage) ==> t == DefaultSendError
  {
    OrElse(bodyMessage, DefaultSendError)
  }

  /** `sendHttpRequest`: an ok response yields its body unchanged, a non-ok
      one throws `ErrorText`, and a rejection passes through. */
  function SendHttpRequest<T>(f: Fetched<T>): (o: Outcome<T>)
    ensures f.Received? && f.response.ok ==> o == Ok(f.response.body)
    ensures f.Received? && !f.response.ok ==> o == Fail(Some(ErrorText(f.response.message)))
    ensures f.Rejected? ==> o == Fail(f.reason)
  {
    match f
    case Rejected(reason) => Fail(reason)
    case Received(r) => if !r.ok then Fail(Some(ErrorText(r.message))) else Ok(r.body)
  }

  /** The config handed to `fetch`: the hook's config spread, with `body`
      replaced by the argument. Spreading an absent config gives `{}`. */
  function WithBody<B>(config: Option<Config<B>>, body: Option<B>): (c: Config<B>)
    ensures c.body == body
    ensures config.Some? ==> c.httpMethod == config.value.httpMethod && c.headers == config.value.headers
    ensures config.None? ==> c.httpMethod == None && c.headers == []
  {
    match config
    case None => Config(None, [], body)
    case Some(cfg) => cfg.(body := body)
  }

  /** The hook's mount condition, as written:
      `(config && (config.method === "GET" || !config.method)) || !config`. */
  function AutoFetch<B>(config: Option<Config<B>>): (fires: bool)
    ensures fires <==>
      || config.None?
      || config.value.httpMethod == None
      || config.value.httpMethod == Some("")
      || config.value.httpMethod == Some("GET")
  {
    (config.Some? && (config.value.httpMethod == Some("GET") || !Truthy(config.value.httpMethod))) || config.None?
  }

  /** The state before any request. */
  function Initial<T>(initialData: T): (s: RequestState<T>)
    ensures s.data == initialData && !s.isLoading && s.error.None? && !s.success
  {
    RequestState(initialData, false, None, false)
  }

  /** `setIsLoading(true)` on entry to `sendRequest`. */
  function Start<T>(s: RequestState<T>): (r: RequestState<T>)
    ensures r.isLoading
    ensures r.data == s.data && r.error == s.error && r.success == s.success
  {
    s.(isLoading := true)
  }

  /** The state after the awaited call settles: the success or the catch
      branch, then `setIsLoading(false)`. */
  function Settle<T>(s: RequestState<T>, o: Outcome<T>): (r: RequestState<T>)
    ensures !r.isLoading
    ensures o.Ok? ==> r.data == o.body && r.success && r.error == s.error
    ensures o.Fail? ==> r.data == s.data && r.success == s.success
    ensures o.Fail? ==> r.error == Some(OrElse(o.message, DefaultCaughtError))
  {
    match o
    case Ok(body) => s.(data := body, success := true, isLoading := false)
    case Fail(m) => s.(error := Some(OrElse(m, DefaultCaughtError)), isLoading := false)
  }

  /** `clearData`: back to the initial data and no success; the error and the
      loading flag stay. */
  function ClearData<T>(s: RequestState<T>, initialData: T): (r: RequestState<T>)
    ensures r.data == initialData && !r.success
    ensures r.error == s.error && r.isLoading == s.isLoading
  {
    s.(data := initialData, success := false)
  }

  /** One `sendRequest(body)` call: the request issued, the state while it is
      in flight, and the state once it has settled. */
  datatype Exchange<T, B> = Exchange(request: Request<B>, loading: RequestState<T>, settled: RequestState<T>)

  /** `sendRequest(requestBody)` against a network that produced `f`. */
  function SendRequest<T, B>(s: RequestState<T>, url: string, config: Option<Config<B>>,
                             requestBody: Option<B>, f: Fetched<T>): (x: Exchange<T, B>)
    ensures x.request == Request(url, WithBody(config, requestBody))
    ensures x.loading.isLoading && !x.settled.isLoading
    ensures f.Received? && f.response.ok ==>
      x.settled == RequestState(f.response.body, false, s.error, true)
    ensures f.Received? && !f.response.ok ==>
      x.settled == s.(isLoading := false, error := Some(ErrorText(f.response.message)))
    ensures f.Rejected? ==>
      x.settled == s.(isLoading := false, error := Some(OrElse(f.reason, DefaultCaughtError)))
  {
    var loading := Start(s);
    Exchange(Request(url, WithBody(config, requestBody)), loading, Settle(loading, SendHttpRequest(f)))
  }

  /** A server error always shows a non-empty text of its own: the caught
      fallback is reachable only through a rejection without a message. */
  lemma CaughtFallbackOnlyOnRejection<T, B>(s: RequestState<T>, url: string, config: Option<Config<B>>,
                                            requestBody: Option<B>, f: Fetched<T>)
    requires SendHttpRequest(f).Fail?
    ensures var e := SendRequest(s, url, config, requestBody, f).settled.error;
      e.Some? && e.value != ""
    ensures (f.Rejected? && !Truthy(f.reason)) <==> !Truthy(SendHttpRequest(f).message)
  {
  }

  /** Replacing the body twice keeps only the last one. */
  lemma WithBodyLastWins<B>(config: Option<Config<B>>, b1: Option<B>, b2: Option<B>)
    ensures WithBody(Some(WithBody(config, b1)), b2) == WithBody(config, b2)
  {
  }

  /** An error survives a later success: the state keeps the stale message. */
  lemma ErrorSurvivesSuccess<T, B>(s: RequestState<T>, url: string, config: Option<Config<B>>,
                                   b: Option<B>, bad: Fetched<T>, good: Response<T>)
    requires SendHttpRequest(bad).Fail?
    requires good.ok
    ensures var failed := SendRequest(s, url, config, b, bad).settled;
      var again := SendRequest(failed, url, config, b, Received(good)).settled;
      again.success && again.data == good.body && again.error == failed.error && again.error.Some?
  {
  }

  /** Clearing after a success restores the initial data and is idempotent. */
  lemma ClearAfterSuccess<T, B>(s: RequestState<T>, init: T, url: string, config: Option<Config<B>>,
                                b: Option<B>, good: Response<T>)
    requires good.ok
    ensures var done := SendRequest(s, url, config, b, Received(good)).settled;
      var cleared := ClearData(done, init);
      cleared == RequestState(init, false, s.error, false)
      && ClearData(cleared, init) == cleared
  {
  }

  /** The menu's empty config fires on mount; a POST config does not. */
  lemma AutoFetchExamples<B>()
    ensures AutoFetch<B>(Some(Config(None, [], None)))
    ensures AutoFetch<B>(None)
    ensures !AutoFetch<B>(Some(Config(Some("POST"), [], None)))
  {
  }

  /** A 422 response carrying `{message: "bad email"}` leaves that text as the error. */
  lemma BadEmailExample<T, B>(s: RequestState<T>, url: string, config: Option<Config<B>>, b: Option<B>, body: T)
    ensures var x := SendRequest(s, url, config, b, Received(Response(false, body, Some("bad email"))));
      x.settled.error == Some("bad email") && !x.settled.isLoading && x.settled.data == s.data
  {
  }
}
