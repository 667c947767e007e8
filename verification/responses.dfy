/** `Message\Response`: a PSR-7 response that keeps the request it answers and
    converts a JSON body into an array, memoising the array object it builds. */
module Responses {
  import opened Wrappers
  import opened Values
  import opened ContentType
  import opened Requests

  /** Any PSR-7 response, as the transport returns it. */
  datatype PsrResponse = PsrResponse(
    status: int,
    headers: HeaderMap,
    body: string,
    version: string,
    reason: string)

  /** The library's own response. `cache` is the array held by the memoised
      array object (`$arrayObject`), absent until `toObject()` first runs. */
  datatype Response = Response(
    status: int,
    headers: HeaderMap,
    body: string,
    version: string,
    reason: string,
    request: Option<PsrRequest>,
    cache: Option<PhpArray>)

  /** `GuzzleHttp\json_decode($body, true)`: the decoded value, or None where it
      throws on malformed input. */
  type Decoder = string -> Option<Value>

  /** The exception `json_decode` throws; `toArray` does not catch it. */
  datatype JsonError = MalformedJson

  /** `Response::fromResponse`: a new response with the same status, headers,
      body, protocol version and reason phrase, no request and nothing cached. */
  function FromResponse(p: PsrResponse): (r: Response)
    ensures r.request.None? && r.cache.None?
  {
    Response(p.status, p.headers, p.body, p.version, p.reason, None, None)
  }

  /** The PSR-7 view of a response. */
  function AsPsr(r: Response): PsrResponse {
    PsrResponse(r.status, r.headers, r.body, r.version, r.reason)
  }

  /** Upgrading a response preserves everything PSR-7 can see of it. */
  lemma FromResponsePreserves(p: PsrResponse)
    ensures AsPsr(FromResponse(p)) == p
  {
  }

  /** `getRequest()`. */
  function GetRequest(r: Response): Option<PsrRequest> {
    r.request
  }

  /** `setRequest($request)`: attaches the request, changing nothing else. */
  function SetRequest(r: Response, q: PsrRequest): (r': Response)
    ensures GetRequest(r') == Some(q)
    ensures r'.(request := r.request) == r
  {
    r.(request := Some(q))
  }

  /** `getCurlRequest()`: null without a request, otherwise the (external) curl
      formatter's rendering of that request. */
  function GetCurlRequest(r: Response, format: PsrRequest -> string): (s: Option<string>)
    ensures s.None? <==> GetRequest(r).None?
    ensures s.Some? ==> s.value == format(GetRequest(r).value)
  {
    match r.request
    case None => None
    case Some(q) => Some(format(q))
  }

  /** The response's `isJson()`. */
  predicate IsJsonResponse(r: Response) {
    IsJson(ContentTypeOf(r.headers))
  }

  /** The uncached part of `toArray()`: not JSON gives the empty array whatever
      the body; JSON gives the decoded array, or the empty array when the body
      decodes to a scalar; a malformed JSON body throws. */
  function DecodeArray(r: Response, decode: Decoder): (res: Result<PhpArray, JsonError>)
    ensures !IsJsonResponse(r) ==> res == Ok(map[])
    ensures IsJsonResponse(r) ==> (res.Err? <==> decode(r.body).None?)
    ensures IsJsonResponse(r) && decode(r.body).Some? && decode(r.body).value.Arr? ==>
      res == Ok(decode(r.body).value.items)
    ensures IsJsonResponse(r) && decode(r.body).Some? && !decode(r.body).value.Arr? ==>
      res == Ok(map[])
  {
    if !IsJsonResponse(r) then Ok(map[])
    else
      match decode(r.body)
      case None => Err(MalformedJson)
      case Some(Arr(items)) => Ok(items)
      case Some(_) => Ok(map[])
  }

  /** `toArray()`: the cached array once there is one, otherwise the array
      decoded from the body. */
  function ToArray(r: Response, decode: Decoder): (res: Result<PhpArray, JsonError>)
    ensures r.cache.Some? ==> res == Ok(r.cache.value)
    ensures r.cache.None? ==> res == DecodeArray(r, decode)
  {
    match r.cache
    case Some(a) => Ok(a)
    case None => DecodeArray(r, decode)
  }

  /** Without a JSON content type, `toArray()` of an uncached response is the
      empty array whatever the body and whatever the decoder would say. */
  lemma NonJsonIsEmptyArray(r: Response, decode: Decoder)
    requires r.cache.None? && !IsJsonResponse(r)
    ensures forall body: string :: ToArray(r.(body := body), decode) == Ok(map[])
  {
  }

  /** `toObject()`: builds and caches the array object on the first call; the
      returned response is the same one with the cache filled in. */
  function ToObject(r: Response, decode: Decoder): (res: Result<(Response, PhpArray), JsonError>)
    ensures r.cache.Some? ==> res == Ok((r, r.cache.value))
    ensures res.Ok? <==> ToArray(r, decode).Ok?
    ensures res.Ok? ==> res.value.1 == ToArray(r, decode).value
    ensures res.Ok? ==> res.value.0 == r.(cache := Some(res.value.1))
  {
    match r.cache
    case Some(a) => Ok((r, a))
    case None =>
      var a :- DecodeArray(r, decode);
      Ok((r.(cache := Some(a)), a))
  }

  /** Memoisation: once `toObject()` has run, calling it again returns the same
      object and leaves the response as it is, without decoding the body again
      (any decoder gives the same answer). */
  lemma ToObjectMemoised(r: Response, decode: Decoder, later: Decoder)
    requires ToObject(r, decode).Ok?
    ensures var (r', a) := ToObject(r, decode).value;
      ToObject(r', later) == Ok((r', a)) && ToArray(r', later) == Ok(a)
  {
  }

  /** `__get($name)`: the cached object's entry, null when absent. */
  function GetProperty(r: Response, name: string, decode: Decoder): (res: Result<(Response, Value), JsonError>)
    ensures res.Ok? <==> ToObject(r, decode).Ok?
    ensures res.Ok? ==> res.value.0 == ToObject(r, decode).value.0
    ensures res.Ok? ==> res.value.1 == Coalesce(ToObject(r, decode).value.1, name, Null)
  {
    var (r', a) :- ToObject(r, decode);
    Ok((r', if name in a then a[name] else Null))
  }

  /** `__isset($name)`: whether the cached object has the entry. */
  function HasProperty(r: Response, name: string, decode: Decoder): (res: Result<(Response, bool), JsonError>)
    ensures res.Ok? <==> ToObject(r, decode).Ok?
    ensures res.Ok? ==> res.value.0 == ToObject(r, decode).value.0
    ensures res.Ok? ==> (res.value.1 <==> name in ToObject(r, decode).value.1)
  {
    var (r', a) :- ToObject(r, decode);
    Ok((r', name in a))
  }

  /** `__set($name, $value)`: writes the entry into the cached object. */
  function SetProperty(r: Response, name: string, value: Value, decode: Decoder): (res: Result<Response, JsonError>)
    ensures res.Ok? <==> ToObject(r, decode).Ok?
    ensures res.Ok? ==> res.value.cache == Some(ToObject(r, decode).value.1[name := value])
    ensures res.Ok? ==> res.value == r.(cache := res.value.cache)
  {
    var (r', a) :- ToObject(r, decode);
    Ok(r'.(cache := Some(a[name := value])))
  }

  /** A property written through the response shows in `toArray()` from then on,
      together with everything else the body decoded to, and reads back. */
  lemma SetPropertyReflected(r: Response, name: string, value: Value, decode: Decoder, later: Decoder)
    requires SetProperty(r, name, value, decode).Ok?
    ensures var r' := SetProperty(r, name, value, decode).value;
      && ToArray(r', later) == Ok(ToArray(r, decode).value[name := value])
      && GetProperty(r', name, later) == Ok((r', value))
  {
  }

  /** `(string) $response`: the body text. */
  function ToString(r: Response): string {
    r.body
  }

  /** The text of a response is its body as received, before and after the
      array object is built. */
  lemma ToStringIsBody(p: PsrResponse, decode: Decoder)
    ensures ToString(FromResponse(p)) == p.body
    ensures ToObject(FromResponse(p), decode).Ok? ==>
      ToString(ToObject(FromResponse(p), decode).value.0) == p.body
  {
  }
}
