/** The HTTP client of the front end: the choice and normalisation of the
    base URL, and the response interceptor that turns transport failures into
    the messages the pages show. The transport itself is a parameter. */
module Api {
  import opened Wrappers

  // ---- base URL ----

  /** `url.replace(/\/$/, '')`: one trailing slash is removed, nothing else. */
  function Normalized(url: string): (r: string)
    ensures url != [] && url[|url| - 1] == '/' ==> r + "/" == url
    ensures url == [] || url[|url| - 1] != '/' ==> r == url
  {
    if url != [] && url[|url| - 1] == '/' then url[..|url| - 1] else url
  }

  /** Appending a slash and normalising gives the URL back, and only one
      slash of several is removed. */
  lemma NormalizedUndoesSlash(url: string)
    ensures Normalized(url + "/") == url
    ensures Normalized(url + "//") == url + "/"
  {
    assert (url + "/")[..|url|] == url;
    assert (url + "//")[..|url| + 1] == url + "/";
  }

  /** `baseURL`: the configured base when it is set and non-empty, otherwise
      the page's origin (absent, that is empty, outside a browser), and then
      normalised. */
  function BaseUrl(envBase: Option<string>, origin: Option<string>): (r: string)
    ensures envBase.Some? && envBase.value != "" ==> r == envBase.value || r + "/" == envBase.value
    ensures (envBase.None? || envBase.value == "") && origin.Some? ==> r == origin.value || r + "/" == origin.value
    ensures (envBase.None? || envBase.value == "") && origin.None? ==> r == ""
  {
    var configured := envBase.GetOr("");
    var runtimeOrigin := origin.GetOr("");
    Normalized(if configured != "" then configured else runtimeOrigin)
  }

  /** A non-empty configured base always wins; an empty or missing one falls
      back to the origin; either way at most one trailing slash is dropped. */
  lemma BaseUrlChoice(envBase: Option<string>, origin: Option<string>)
    ensures envBase.Some? && envBase.value != "" ==> BaseUrl(envBase, origin) == Normalized(envBase.value)
    ensures (envBase.None? || envBase.value == "") && origin.Some? ==> BaseUrl(envBase, origin) == Normalized(origin.value)
    ensures (envBase.None? || envBase.value == "") && origin.None? ==> BaseUrl(envBase, origin) == ""
  {
  }

  /** The client's request timeout in milliseconds; a request that exceeds it
      fails with the code `ECONNABORTED`. */
  const TimeoutMs: nat := 10000

  // ---- the response interceptor ----

  /** A failed request as the client reports it: the HTTP status when a
      response arrived, the error code, and the error's own message. */
  datatype RequestError = RequestError(status: Option<int>, code: Option<string>, message: string)

  /** What the interceptor throws: a new error with its own message, or the original error. */
  datatype Thrown = Replaced(message: string) | Rethrown(original: RequestError)

  const NotFoundMessage: string := "Company not found"
  const ServerErrorMessage: string := "Server error. Please try again later."
  const TimeoutMessage: string := "Request timeout. Please check your connection."

  /** The error branch of the response interceptor. */
  function Intercept(e: RequestError): (t: Thrown)
    ensures t.Rethrown? ==> t.original == e
    ensures t.Replaced? ==> t.message in [NotFoundMessage, ServerErrorMessage, TimeoutMessage]
    ensures e.status.Some? && (e.status.value == 404 || e.status.value >= 500) ==> t.Replaced? && t.message != TimeoutMessage
  {
    if e.status == Some(404) then Replaced(NotFoundMessage)
    else if e.status.Some? && e.status.value >= 500 then Replaced(ServerErrorMessage)
    else if e.code == Some("ECONNABORTED") then Replaced(TimeoutMessage)
    else Rethrown(e)
  }

  /** Status 404 is checked first, then a server status, then the timeout
      code; everything else is rethrown unchanged. */
  lemma InterceptCases(e: RequestError)
    ensures Intercept(e) == Replaced(NotFoundMessage) <==> e.status == Some(404)
    ensures Intercept(e) == Replaced(ServerErrorMessage) <==> e.status.Some? && e.status.value >= 500
    ensures Intercept(e) == Replaced(TimeoutMessage) <==>
      (e.status.None? || (e.status.value != 404 && e.status.value < 500)) && e.code == Some("ECONNABORTED")
    ensures Intercept(e) == Rethrown(e) <==>
      (e.status.None? || (e.status.value != 404 && e.status.value < 500)) && e.code != Some("ECONNABORTED")
    ensures Intercept(e).Rethrown? ==> Intercept(e).original == e
  {
  }

  /** A not-found or server status outranks a timeout code. */
  lemma StatusOutranksCode(status: int, message: string)
    requires status == 404 || status >= 500
    ensures Intercept(RequestError(Some(status), Some("ECONNABORTED"), message)) != Replaced(TimeoutMessage)
  {
  }

  /** The message of what the interceptor throws. */
  function ThrownMessage(t: Thrown): string
  {
    match t
    case Replaced(m) => m
    case Rethrown(e) => e.message
  }

  /** How the transport settled a request. */
  datatype Transport<R> = Responded(response: R) | Failed(error: RequestError)

  /** The outcome a caller of the client sees. */
  datatype CallResult<R> = Delivered(response: R) | Threw(thrown: Thrown)

  /** One request through the client: the request interceptor forwards the
      configuration as it is, a response passes the response interceptor
      unchanged, and a failure is mapped by `Intercept`. */
  function Call<R>(transport: Transport<R>): (r: CallResult<R>)
    ensures transport.Responded? <==> r.Delivered?
    ensures transport.Responded? ==> r.response == transport.response
    ensures transport.Failed? ==> r.thrown == Intercept(transport.error)
    ensures r.Threw? ==> ThrownMessage(r.thrown) in [NotFoundMessage, ServerErrorMessage, TimeoutMessage, transport.error.message]
  {
    match transport
    case Responded(resp) => Delivered(resp)
    case Failed(e) => Threw(Intercept(e))
  }
}
