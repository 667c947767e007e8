/** `Exceptions\ApiException`: the base of the two exceptions the client raises,
    which captures the request and response of the transport exception it wraps. */
module Exceptions {
  import opened Wrappers
  import opened Values
  import opened Requests
  import opened Responses

  /** The `$previous` throwable an exception is built with: nothing, a Guzzle
      `RequestException` (which always has a request and may have a response),
      or any other throwable. */
  datatype Previous =
    | NoPrevious
    | TransportRequestError(request: PsrRequest, response: Option<PsrResponse>)
    | OtherThrowable

  datatype ApiException = ApiException(
    message: string,
    code: int,
    previous: Previous,
    request: Option<Request>,
    response: Option<Response>)

  /** The constructor: a transport request exception's request is captured, and
      its response too when it has one, each upgraded to the library's own
      class; any other previous throwable captures nothing. */
  function NewApiException(message: string, code: int, previous: Previous): (e: ApiException)
    ensures e.message == message && e.code == code && e.previous == previous
    ensures e.request.Some? <==> previous.TransportRequestError?
    ensures e.response.Some? <==> previous.TransportRequestError? && previous.response.Some?
    ensures e.request.Some? ==> e.request.value == FromRequest(previous.request)
    ensures e.response.Some? ==> e.response.value == FromResponse(previous.response.value)
  {
    match previous
    case TransportRequestError(q, p) =>
      var response := match p case Some(raw) => Some(FromResponse(raw)) case None => None;
      ApiException(message, code, previous, Some(FromRequest(q)), response)
    case _ => ApiException(message, code, previous, None, None)
  }

  /** `getRequest()`. */
  function GetRequest(e: ApiException): Option<Request> {
    e.request
  }

  /** `setRequest($request)`: stores the request, upgraded to the library's own
      class; nothing else changes. */
  function SetRequest(e: ApiException, q: PsrRequest): (e': ApiException)
    ensures GetRequest(e') == Some(FromRequest(q))
    ensures e'.(request := e.request) == e
  {
    e.(request := Some(FromRequest(q)))
  }

  /** `setResponse($response)`: stores the response, upgraded to the library's
      own class (so without a request or cached array); nothing else changes. */
  function SetResponse(e: ApiException, p: PsrResponse): (e': ApiException)
    ensures GetResponse(e') == Some(FromResponse(p))
    ensures AsPsr(GetResponse(e').value) == p && GetResponse(e').value.cache.None?
    ensures e'.(response := e.response) == e
  {
    e.(response := Some(FromResponse(p)))
  }

  /** `getResponse()`. */
  function GetResponse(e: ApiException): Option<Response> {
    e.response
  }

  /** `getCurlRequest()`: null when no request was captured, otherwise the
      (external) curl formatter's rendering of it. */
  function GetCurlRequest(e: ApiException, format: Request -> string): (s: Option<string>)
    ensures s.None? <==> GetRequest(e).None?
    ensures s.Some? ==> s.value == format(GetRequest(e).value)
  {
    match e.request
    case None => None
    case Some(q) => Some(format(q))
  }

  /** `getResponseArray()`: the empty array without a response, otherwise the
      response's `toArray()`. */
  function GetResponseArray(e: ApiException, decode: Decoder): (res: Result<PhpArray, JsonError>)
    ensures GetResponse(e).None? ==> res == Ok(map[])
    ensures GetResponse(e).Some? ==> res == ToArray(GetResponse(e).value, decode)
  {
    match e.response
    case None => Ok(map[])
    case Some(r) => ToArray(r, decode)
  }

  /** A captured response is freshly upgraded, so its array is the one decoded
      from the transport's body, and it carries no request of its own. */
  lemma CapturedResponseArray(message: string, code: int, q: PsrRequest, p: PsrResponse, decode: Decoder)
    ensures var e := NewApiException(message, code, TransportRequestError(q, Some(p)));
      && GetResponseArray(e, decode) == DecodeArray(FromResponse(p), decode)
      && Responses.GetRequest(GetResponse(e).value).None?
  {
  }

  /** Without a transport request exception there is nothing to inspect: no
      request, no curl command, and the empty response array. */
  lemma NothingCapturedWithoutTransportError(message: string, code: int, previous: Previous, format: Request -> string, decode: Decoder)
    requires !previous.TransportRequestError?
    ensures var e := NewApiException(message, code, previous);
      && GetCurlRequest(e, format).None?
      && GetResponseArray(e, decode) == Ok(map[])
  {
  }
}
