/** `Client`: the façade's client as a value. It holds a base URI, default
    headers, the JSON flag and its configuration, resolves request paths against
    the base URI, assembles requests, and maps transport failures to the
    library's two exception kinds. */
module HyperClient {
  import opened Wrappers
  import opened PhpStrings
  import opened Values
  import opened ContentType
  import opened Requests
  import opened Responses
  import opened Exceptions
  import Forms

  const AcceptHeader: string := "Accept"
  const DefaultVersion: string := "1.1"
  const BaseUriKey: string := "base_uri"
  const HeadersKey: string := "headers"

  /** The Guzzle client a client sends through: one the caller supplied
      (identified by `id`), or one `Hyper::make` built from a Guzzle config. */
  datatype GuzzleClient = Supplied(id: nat) | Built(config: PhpArray)

  /** The client's state. `applyJsonHeaders` starts out null (`None`). */
  datatype Client = Client(
    baseUri: Option<string>,
    headers: HeaderMap,
    applyJsonHeaders: Option<bool>,
    config: PhpArray,
    guzzle: GuzzleClient)

  // ---------------------------------------------------------------------------
  // URL resolution

  /** `preg_match('#^https?://#', $uri)`: lower-case `http://` or `https://`. */
  predicate IsAbsolute(uri: string) {
    HasPrefix(uri, "http://") || HasPrefix(uri, "https://")
  }

  /** The path with one `/` put in front unless it already starts with one. */
  function SlashPrefixed(uri: string): (r: string)
    ensures HasPrefix(r, "/")
    ensures HasPrefix(uri, "/") ==> r == uri
    ensures !HasPrefix(uri, "/") ==> r == "/" + uri
  {
    if HasPrefix(uri, "/") then uri else "/" + uri
  }

  /** `preg_replace('#/$#', '', $base)`: removes one `/` at the end, or one just
      before a final newline (where PCRE's `$` also matches). */
  function StripTrailingSlash(base: string): (r: string)
    ensures HasSuffix(base, "/") ==> r + "/" == base
    ensures !HasSuffix(base, "/") && HasSuffix(base, "/\n") ==>
      |r| >= 1 && r[|r| - 1] == '\n' && r[..|r| - 1] + "/\n" == base
    ensures !HasSuffix(base, "/") && !HasSuffix(base, "/\n") ==> r == base
  {
    if HasSuffix(base, "/") then base[..|base| - 1]
    else if HasSuffix(base, "/\n") then
      var r := base[..|base| - 2] + "\n";
      assert r[..|r| - 1] == base[..|base| - 2];
      r
    else base
  }

  /** `if ($this->baseUri)`: a base URI that is set and truthy in PHP. */
  predicate HasTruthyBase(c: Client) {
    c.baseUri.Some? && IsTruthy(c.baseUri.value)
  }

  /** `url($uri)`: an absolute `http(s)://` input is returned as it is; any other
      input gets a leading slash and, when there is a truthy base URI, the base
      with one trailing slash removed in front. */
  function Url(c: Client, uri: string): (r: string)
    ensures IsAbsolute(uri) ==> r == uri
    ensures !IsAbsolute(uri) && !HasTruthyBase(c) ==> r == SlashPrefixed(uri)
    ensures !IsAbsolute(uri) && HasTruthyBase(c) ==>
      r == StripTrailingSlash(c.baseUri.value) + SlashPrefixed(uri)
  {
    if IsAbsolute(uri) then uri
    else
      var path := SlashPrefixed(uri);
      if HasTruthyBase(c) then StripTrailingSlash(c.baseUri.value) + path else path
  }

  /** An absolute URL is used as it is, whatever the base URI. */
  lemma AbsoluteUrlIgnoresBase(c: Client, base: Option<string>, uri: string)
    requires IsAbsolute(uri)
    ensures Url(c.(baseUri := base), uri) == uri
  {
  }

  /** A string starting with neither `h` nor `/` is a relative path. */
  lemma RelativeByFirstChar(uri: string)
    requires |uri| > 0 && uri[0] != 'h' && uri[0] != '/'
    ensures !IsAbsolute(uri) && !HasPrefix(uri, "/")
  {
    assert uri[..1][0] == uri[0];
    assert |uri| >= 7 ==> uri[..7][0] == uri[0];
    assert |uri| >= 8 ==> uri[..8][0] == uri[0];
  }

  /** Only lower-case `http://` and `https://` count as absolute: an upper-case
      scheme or another scheme is resolved like a path, under the base URI. */
  lemma OtherSchemesAreRelative(c: Client, rest: string)
    ensures var u := "HTTP://" + rest; Url(c, u) == Url(c, "/" + u)
    ensures var f := "ftp://" + rest; Url(c, f) == Url(c, "/" + f)
  {
    RelativeByFirstChar("HTTP://" + rest);
    RelativeByFirstChar("ftp://" + rest);
    LeadingSlashIrrelevant(c, "HTTP://" + rest);
    LeadingSlashIrrelevant(c, "ftp://" + rest);
  }

  /** `url("x")` and `url("/x")` resolve alike. */
  lemma LeadingSlashIrrelevant(c: Client, path: string)
    requires !IsAbsolute(path) && !HasPrefix(path, "/")
    ensures Url(c, path) == Url(c, "/" + path)
  {
    assert HasPrefix("/" + path, "/");
    assert !IsAbsolute("/" + path) by {
      assert ("/" + path)[0] == '/';
    }
  }

  /** A base with one trailing slash resolves like the same base without it.
      (The base "0" is the exception: PHP counts it as absent, but not "0/".) */
  lemma TrailingSlashIrrelevant(c: Client, base: string, path: string)
    requires !IsAbsolute(path)
    requires !HasSuffix(base, "/") && !HasSuffix(base, "/\n") && base != "0"
    ensures Url(c.(baseUri := Some(base + "/")), path) == Url(c.(baseUri := Some(base)), path)
  {
    assert HasSuffix(base + "/", "/");
    assert (base + "/")[..|base|] == base;
  }

  /** Without a truthy base URI (null, "" or "0") the result is just the
      slash-prefixed path. */
  lemma NoBaseGivesPath(c: Client, path: string)
    requires !IsAbsolute(path)
    requires c.baseUri in {None, Some(""), Some("0")}
    ensures Url(c, path) == SlashPrefixed(path)
  {
  }

  /** Exactly one slash joins base and path, whichever of them carries it. */
  lemma ExactlyOneSlash(c: Client, base: string, path: string)
    requires IsTruthy(base) && !HasSuffix(base, "/") && !HasSuffix(base, "/\n")
    requires !HasPrefix(path, "/") && !IsAbsolute(path)
    ensures Url(c.(baseUri := Some(base)), path) == base + "/" + path
    ensures Url(c.(baseUri := Some(base + "/")), "/" + path) == base + "/" + path
  {
    LeadingSlashIrrelevant(c.(baseUri := Some(base + "/")), path);
    TrailingSlashIrrelevant(c, base, path);
  }

  /** How a request target is given: a string path or URL, or a URI object
      (`UriInterface`), which is used as it is. */
  datatype Target = Path(s: string) | UriObject(uri: string)

  /** `makeUri($uri)`. */
  function MakeUri(c: Client, t: Target): (r: string)
    ensures t.Path? ==> r == Url(c, t.s)
    ensures t.UriObject? ==> r == t.uri
  {
    match t
    case Path(s) => Url(c, s)
    case UriObject(u) => u
  }

  // ---------------------------------------------------------------------------
  // Headers and request assembly

  /** `mergeHeaders`/`array_merge`: per-call values win on an equal key (keys
      compared exactly) and every other default survives unchanged. */
  function MergeHeaders(defaults: HeaderMap, perCall: HeaderMap): (r: HeaderMap)
    ensures r.Keys == defaults.Keys + perCall.Keys
    ensures forall k :: k in perCall ==> r[k] == perCall[k]
    ensures forall k :: k in defaults && k !in perCall ==> r[k] == defaults[k]
  {
    defaults + perCall
  }

  /** `if (!isset($h[$k])) $h[$k] = $v;` */
  function SetDefault(h: HeaderMap, k: string, v: string): (r: HeaderMap)
    ensures k in r && (k in h ==> r[k] == h[k]) && (k !in h ==> r[k] == v)
    ensures forall k' :: k' in h ==> k' in r && r[k'] == h[k']
    ensures r.Keys == h.Keys + {k}
  {
    if k in h then h else h[k := v]
  }

  /** `sanitizeMethod`: `strtoupper(trim($method))`; unknown verbs pass through.
      The result relates to the input as `SanitizeMethodMatchesTrim` states. */
  function SanitizeMethod(m: string): (r: string)
    ensures IsTrimmed(r)
    ensures forall i :: 0 <= i < |r| ==> !IsAsciiLower(r[i])
  {
    ToUpperKeepsTrimmed(Trim(m));
    ToUpper(Trim(m))
  }

  /** The sanitized method is the trimmed method up to ASCII letter case, so
      `get`, ` GET ` and `Get` all become `GET`. */
  lemma SanitizeMethodMatchesTrim(m: string)
    ensures EqualsIgnoreCase(SanitizeMethod(m), Trim(m))
  {
  }

  /** Sanitizing a sanitized method changes nothing. */
  lemma SanitizeMethodIdempotent(m: string)
    ensures SanitizeMethod(SanitizeMethod(m)) == SanitizeMethod(m)
  {
    var u := SanitizeMethod(m);
    ToUpperKeepsTrimmed(Trim(m));
    TrimOfTrimmed(u);
    ToUpperIdempotent(Trim(m));
  }

  /** A method name with no surrounding whitespace and no lower-case letter is
      sent as it is. */
  lemma CanonicalMethodUnchanged(m: string)
    requires IsTrimmed(m) && forall i :: 0 <= i < |m| ==> !IsAsciiLower(m[i])
    ensures SanitizeMethod(m) == m
  {
    TrimOfTrimmed(m);
    ToUpperOfUpper(m);
  }

  lemma PostIsSanitized()
    ensures SanitizeMethod("POST") == "POST"
  {
    CanonicalMethodUnchanged("POST");
  }

  lemma GetIsSanitized()
    ensures SanitizeMethod("GET") == "GET"
  {
    CanonicalMethodUnchanged("GET");
  }

  lemma DeleteIsSanitized()
    ensures SanitizeMethod("DELETE") == "DELETE"
  {
    CanonicalMethodUnchanged("DELETE");
  }

  /** A request body as a caller passes it: null, a string, or an array (which
      is to be JSON-encoded). */
  datatype Body = NoBody | Text(s: string) | Structured(a: PhpArray)

  /** JSON encoding of an array (`json_encode`), a parameter of the model. */
  type Encoder = PhpArray -> string

  /** The body stream's text: null is the empty stream, an array its JSON. */
  function BodyText(body: Body, encode: Encoder): string {
    match body
    case NoBody => ""
    case Text(s) => s
    case Structured(a) => encode(a)
  }

  /** The header part of `createRequest`: defaults merged under the per-call
      headers; an array body defaults Content-Type to JSON; the JSON flag
      defaults both Content-Type and Accept to JSON. Defaults never replace a
      header that is already there. */
  function RequestHeaders(c: Client, headers: HeaderMap, body: Body): (r: HeaderMap)
    ensures forall k :: k in headers ==> k in r && r[k] == headers[k]
    ensures forall k :: k in c.headers && k !in headers ==> k in r && r[k] == c.headers[k]
    ensures forall k :: k in r ==> k in c.headers || k in headers || k == ContentTypeHeader || k == AcceptHeader
    ensures ContentTypeHeader in r <==>
      ContentTypeHeader in c.headers || ContentTypeHeader in headers || body.Structured? || c.applyJsonHeaders == Some(true)
    ensures AcceptHeader in r <==>
      AcceptHeader in c.headers || AcceptHeader in headers || c.applyJsonHeaders == Some(true)
    ensures ContentTypeHeader in r && ContentTypeHeader !in c.headers && ContentTypeHeader !in headers ==>
      r[ContentTypeHeader] == Json
    ensures AcceptHeader in r && AcceptHeader !in c.headers && AcceptHeader !in headers ==>
      r[AcceptHeader] == Json
  {
    var merged := MergeHeaders(c.headers, headers);
    var withBodyType := if body.Structured? then SetDefault(merged, ContentTypeHeader, Json) else merged;
    if c.applyJsonHeaders == Some(true) then
      SetDefault(SetDefault(withBodyType, ContentTypeHeader, Json), AcceptHeader, Json)
    else
      withBodyType
  }

  /** Without the JSON flag and with a body that is not an array, nothing is
      added to the merged headers. */
  lemma PlainRequestAddsNoHeaders(c: Client, headers: HeaderMap, body: Body)
    requires c.applyJsonHeaders != Some(true) && !body.Structured?
    ensures RequestHeaders(c, headers, body) == MergeHeaders(c.headers, headers)
  {
  }

  /** `createRequest`: the sanitized method, the resolved URI, the assembled
      headers, the body text (an array JSON-encoded), protocol version 1.1 unless
      given, and the options stored on the request. */
  function CreateRequest(
    c: Client, verb: string, uri: Target, headers: HeaderMap, body: Body,
    version: Option<string>, options: PhpArray, encode: Encoder): (r: Request)
    ensures r.httpMethod == SanitizeMethod(verb)
    ensures r.uri == MakeUri(c, uri)
    ensures r.headers == RequestHeaders(c, headers, body)
    ensures Requests.ToString(r) == BodyText(body, encode)
    ensures r.version == version.GetOr(DefaultVersion)
    ensures GetOptions(r) == options
  {
    var guzzleRequest := Foreign(SanitizeMethod(verb), MakeUri(c, uri), RequestHeaders(c, headers, body),
                                 BodyText(body, encode), version.GetOr(DefaultVersion));
    SetOptions(FromRequest(guzzleRequest), options)
  }

  /** With an array body, Content-Type is the per-call one, else the client's,
      else JSON. */
  lemma ArrayBodyContentType(c: Client, headers: HeaderMap, a: PhpArray)
    ensures ContentTypeOf(RequestHeaders(c, headers, Structured(a))) ==
      (if ContentTypeHeader in headers then headers[ContentTypeHeader]
       else if ContentTypeHeader in c.headers then c.headers[ContentTypeHeader]
       else Json)
  {
  }

  /** An array body becomes its JSON text, and Content-Type becomes JSON only
      where no Content-Type was given. */
  lemma ArrayBodyIsJson(c: Client, verb: string, uri: Target, headers: HeaderMap, a: PhpArray,
                        options: PhpArray, encode: Encoder)
    ensures var r := CreateRequest(c, verb, uri, headers, Structured(a), None, options, encode);
      && Requests.ToString(r) == encode(a)
      && RequestContentType(r) ==
         (if ContentTypeHeader in headers then headers[ContentTypeHeader]
          else if ContentTypeHeader in c.headers then c.headers[ContentTypeHeader]
          else Json)
  {
    ArrayBodyContentType(c, headers, a);
    assert BodyText(Structured(a), encode) == encode(a);
  }

  /** A per-call header replaces the client's default of the same name. */
  lemma RuntimeHeaderOverridesClientHeader(c: Client, key: string, clientValue: string, callValue: string,
                                           verb: string, uri: Target, headers: HeaderMap, body: Body,
                                           version: Option<string>, options: PhpArray, encode: Encoder)
    ensures var c' := c.(headers := c.headers[key := clientValue]);
      CreateRequest(c', verb, uri, headers[key := callValue], body, version, options, encode)
        .headers[key] == callValue
  {
  }

  // ---------------------------------------------------------------------------
  // The verbs and `call`

  /** What a verb method hands to `call`. */
  datatype CallArgs = CallArgs(verb: string, uri: Target, body: Body, headers: HeaderMap, options: PhpArray)

  /** The request `call` builds from its arguments. */
  function Prepare(c: Client, args: CallArgs, encode: Encoder): (r: Request)
    ensures r.httpMethod == SanitizeMethod(args.verb)
    ensures r.uri == MakeUri(c, args.uri)
    ensures r.headers == RequestHeaders(c, args.headers, args.body)
    ensures Requests.ToString(r) == BodyText(args.body, encode)
    ensures r.version == DefaultVersion
    ensures GetOptions(r) == args.options
  {
    CreateRequest(c, args.verb, UriObject(MakeUri(c, args.uri)), args.headers, args.body, None, args.options, encode)
  }

  /** `post`, `put` and `patch` JSON-encode an array body themselves, so the
      body reaches `createRequest` as a string. */
  function EncodeUpFront(body: Body, encode: Encoder): (r: Body)
    ensures !r.Structured?
    ensures BodyText(r, encode) == BodyText(body, encode)
  {
    match body
    case Structured(a) => Text(encode(a))
    case _ => body
  }

  /** `get`: the resolved URI with its query replaced by the built query string
      (URI parsing and `http_build_query` are parameters); body, headers and
      options go to `call` as given. */
  function GetArgs(c: Client, uri: Target, query: PhpArray, body: Body, headers: HeaderMap, options: PhpArray,
                   buildQuery: PhpArray -> string, withQuery: (string, string) -> string): (r: CallArgs)
    ensures r.verb == "GET"
    ensures r.uri == UriObject(withQuery(MakeUri(c, uri), buildQuery(query)))
    ensures r.body == body && r.headers == headers && r.options == options
  {
    CallArgs("GET", UriObject(withQuery(MakeUri(c, uri), buildQuery(query))), body, headers, options)
  }

  /** `post`: an array body is JSON-encoded before `call`, any other body is
      passed as it is; the URI is left for `call` to resolve. */
  function PostArgs(uri: Target, body: Body, headers: HeaderMap, options: PhpArray, encode: Encoder): (r: CallArgs)
    ensures r.verb == "POST" && r.uri == uri && r.headers == headers && r.options == options
    ensures !r.body.Structured? && BodyText(r.body, encode) == BodyText(body, encode)
    ensures !body.Structured? ==> r.body == body
  {
    CallArgs("POST", uri, EncodeUpFront(body, encode), headers, options)
  }

  /** `put`: as `post`, with method PUT. */
  function PutArgs(uri: Target, body: Body, headers: HeaderMap, options: PhpArray, encode: Encoder): (r: CallArgs)
    ensures r.verb == "PUT" && r.uri == uri && r.headers == headers && r.options == options
    ensures !r.body.Structured? && BodyText(r.body, encode) == BodyText(body, encode)
    ensures !body.Structured? ==> r.body == body
  {
    CallArgs("PUT", uri, EncodeUpFront(body, encode), headers, options)
  }

  /** `patch`: as `post`, with method PATCH. */
  function PatchArgs(uri: Target, body: Body, headers: HeaderMap, options: PhpArray, encode: Encoder): (r: CallArgs)
    ensures r.verb == "PATCH" && r.uri == uri && r.headers == headers && r.options == options
    ensures !r.body.Structured? && BodyText(r.body, encode) == BodyText(body, encode)
    ensures !body.Structured? ==> r.body == body
  {
    CallArgs("PATCH", uri, EncodeUpFront(body, encode), headers, options)
  }

  /** `delete`: the URI resolved up front and the body passed through as given,
      so an array body is left for `createRequest` to encode. */
  function DeleteArgs(c: Client, uri: Target, body: Body, headers: HeaderMap, options: PhpArray): (r: CallArgs)
    ensures r.verb == "DELETE" && r.uri == UriObject(MakeUri(c, uri))
    ensures r.body == body && r.headers == headers && r.options == options
  {
    CallArgs("DELETE", UriObject(MakeUri(c, uri)), body, headers, options)
  }

  /** `postForm`: a POST with no body, Content-Type forced to the url-encoded
      form type, and the params under the `form_params` option (see
      `FormArgsShape`). */
  function PostFormArgs(uri: Target, params: PhpArray, headers: HeaderMap, options: PhpArray): CallArgs
  {
    CallArgs("POST", uri, NoBody, headers[ContentTypeHeader := Forms.UrlEncoded],
             options[Forms.FormParamsOption := Arr(params)])
  }

  /** `postMultipartForm`: a POST with no body, Content-Type forced to
      `multipart/form-data`, and the parts under the `multipart` option (see
      `FormArgsShape`). */
  function PostMultipartFormArgs(uri: Target, parts: PhpArray, headers: HeaderMap, options: PhpArray): CallArgs
  {
    CallArgs("POST", uri, NoBody, headers[ContentTypeHeader := Forms.Multipart],
             options[Forms.MultipartOption := Arr(parts)])
  }

  /** What the form helpers hand to `call`: a bodiless POST to the URI as
      given, Content-Type forced to the form's type and the data under the
      form's option, with every other header and option kept. */
  lemma FormArgsShape(uri: Target, data: PhpArray, headers: HeaderMap, options: PhpArray)
    ensures var r := PostFormArgs(uri, data, headers, options);
      && r.verb == "POST" && r.uri == uri && r.body == NoBody
      && ContentTypeHeader in r.headers && r.headers[ContentTypeHeader] == Forms.UrlEncoded
      && r.headers - {ContentTypeHeader} == headers - {ContentTypeHeader}
      && Forms.FormParamsOption in r.options && r.options[Forms.FormParamsOption] == Arr(data)
      && r.options - {Forms.FormParamsOption} == options - {Forms.FormParamsOption}
    ensures var r := PostMultipartFormArgs(uri, data, headers, options);
      && r.verb == "POST" && r.uri == uri && r.body == NoBody
      && ContentTypeHeader in r.headers && r.headers[ContentTypeHeader] == Forms.Multipart
      && r.headers - {ContentTypeHeader} == headers - {ContentTypeHeader}
      && Forms.MultipartOption in r.options && r.options[Forms.MultipartOption] == Arr(data)
      && r.options - {Forms.MultipartOption} == options - {Forms.MultipartOption}
  {
  }

  /** The request `get` sends carries the built query on the resolved URI, and
      the body as given. */
  lemma GetRequestCarriesQuery(c: Client, uri: Target, query: PhpArray, body: Body, headers: HeaderMap,
                               options: PhpArray, buildQuery: PhpArray -> string,
                               withQuery: (string, string) -> string, encode: Encoder)
    ensures var r := Prepare(c, GetArgs(c, uri, query, body, headers, options, buildQuery, withQuery), encode);
      && r.httpMethod == "GET"
      && r.uri == withQuery(MakeUri(c, uri), buildQuery(query))
      && Requests.ToString(r) == BodyText(body, encode)
      && GetOptions(r) == options
  {
    GetIsSanitized();
  }

  /** Unlike `post`, `delete` hands an array body to `createRequest`, so the
      request gets the JSON text and Content-Type defaults to JSON even on a
      client without the JSON flag. */
  lemma DeleteArrayBodyIsJson(c: Client, uri: Target, a: PhpArray, headers: HeaderMap, options: PhpArray,
                              encode: Encoder)
    requires ContentTypeHeader !in c.headers && ContentTypeHeader !in headers
    ensures var r := Prepare(c, DeleteArgs(c, uri, Structured(a), headers, options), encode);
      && r.httpMethod == "DELETE"
      && r.uri == MakeUri(c, uri)
      && Requests.ToString(r) == encode(a)
      && RequestContentType(r) == Json
  {
    DeleteIsSanitized();
    ArrayBodyIsJson(c, "DELETE", UriObject(MakeUri(c, uri)), headers, a, options, encode);
  }

  /** The request `postForm` sends is a url-encoded form whose form data reads
      back as the params, whatever Content-Type the caller passed or the client
      defaults to. */
  lemma PostFormRoundTrip(c: Client, uri: Target, params: PhpArray, headers: HeaderMap, options: PhpArray,
                          encode: Encoder)
    ensures var r := Prepare(c, PostFormArgs(uri, params, headers, options), encode);
      && r.httpMethod == "POST" && Requests.ToString(r) == ""
      && Forms.IsUrlEncodedForm(r)
      && Forms.GetFormData(r) == Ok(Arr(params))
  {
    var args := PostFormArgs(uri, params, headers, options);
    var r := Prepare(c, args, encode);
    PostIsSanitized();
    assert RequestContentType(r) == Forms.UrlEncoded;
    assert GetOptions(r) == args.options;
  }

  /** The request `postMultipartForm` sends is a multipart form whose form data
      reads back as the parts. */
  lemma PostMultipartFormRoundTrip(c: Client, uri: Target, parts: PhpArray, headers: HeaderMap,
                                   options: PhpArray, encode: Encoder)
    ensures var r := Prepare(c, PostMultipartFormArgs(uri, parts, headers, options), encode);
      && r.httpMethod == "POST" && Requests.ToString(r) == ""
      && Forms.IsMultipartForm(r)
      && Forms.GetFormData(r) == Ok(Arr(parts))
  {
    var args := PostMultipartFormArgs(uri, parts, headers, options);
    var r := Prepare(c, args, encode);
    PostIsSanitized();
    assert RequestContentType(r) == Forms.Multipart;
    assert GetOptions(r) == args.options;
  }

  /** The `...Json` variants run the verb on `usingJson()`: where neither the
      client nor the call gives Content-Type or Accept, both become JSON. */
  lemma JsonVariantSetsJsonHeaders(c: Client, args: CallArgs, encode: Encoder)
    requires ContentTypeHeader !in c.headers && ContentTypeHeader !in args.headers
    requires AcceptHeader !in c.headers && AcceptHeader !in args.headers
    ensures var r := Prepare(UsingJson(c, true), args, encode);
      r.headers[ContentTypeHeader] == Json && r.headers[AcceptHeader] == Json
  {
  }

  /** `post` with an array body on a client without the JSON flag sends the JSON
      text but adds no Content-Type: the array is encoded before `createRequest`
      could see it. */
  lemma PostArrayBodyAddsNoContentType(c: Client, uri: Target, a: PhpArray, headers: HeaderMap,
                                       options: PhpArray, encode: Encoder)
    requires c.applyJsonHeaders != Some(true)
    requires ContentTypeHeader !in c.headers && ContentTypeHeader !in headers
    ensures var r := Prepare(c, PostArgs(uri, Structured(a), headers, options, encode), encode);
      Requests.ToString(r) == encode(a) && RequestContentType(r) == ""
  {
  }

  /** A failure the transport reports: a bad-response exception (an error
      status came back), any other request exception (no usable round trip),
      or a Guzzle exception that is not a request exception. */
  datatype TransportError =
    | BadResponse(message: string, code: int, request: PsrRequest, response: PsrResponse)
    | RequestFailed(message: string, code: int, request: PsrRequest, partial: Option<PsrResponse>)
    | OtherFailure(message: string, code: int)

  datatype TransportOutcome = Received(response: PsrResponse) | Failed(error: TransportError)

  /** The two exception kinds `call` raises: `ResponseException` and `RequestException`. */
  datatype ErrorKind = ResponseError | RequestError

  /** What escapes `call`: one of the library's exceptions, or a transport
      exception that is not caught. */
  datatype CallFailure = Raised(kind: ErrorKind, exception: ApiException) | Uncaught(error: TransportError)

  /** The `catch` clauses of `call`: a bad response becomes a response error, any
      other request exception a request error, each wrapping the original so
      that its request (and response, if any) is captured; anything else passes
      through. */
  function MapTransportError(t: TransportError): (f: CallFailure)
    ensures f.Raised? <==> !t.OtherFailure?
    ensures t.OtherFailure? ==> f == Uncaught(t)
    ensures f.Raised? ==> (f.kind == ResponseError <==> t.BadResponse?)
    ensures f.Raised? ==> f.exception.message == t.message && f.exception.code == t.code
    ensures f.Raised? ==> f.exception.request == Some(FromRequest(t.request))
    ensures t.BadResponse? ==> f.exception.response == Some(FromResponse(t.response))
    ensures t.RequestFailed? ==> (f.exception.response.Some? <==> t.partial.Some?)
    ensures t.RequestFailed? && t.partial.Some? ==> f.exception.response == Some(FromResponse(t.partial.value))
  {
    match t
    case BadResponse(m, code, q, p) =>
      Raised(ResponseError, NewApiException(m, code, TransportRequestError(q, Some(p))))
    case RequestFailed(m, code, q, p) =>
      Raised(RequestError, NewApiException(m, code, TransportRequestError(q, p)))
    case OtherFailure(_, _) => Uncaught(t)
  }

  /** The tail of `call`: a received response gets the request attached, a
      transport error is mapped as `call` maps it. */
  function Deliver(q: Request, outcome: TransportOutcome): (res: Result<Response, CallFailure>)
    ensures res.Ok? <==> outcome.Received?
    ensures res.Ok? ==> && AsPsr(res.value) == outcome.response
                        && Responses.GetRequest(res.value) == Some(Native(q))
                        && res.value.cache.None?
    ensures res.Err? ==> res.error == MapTransportError(outcome.error)
  {
    match outcome
    case Received(p) => Ok(Responses.SetRequest(FromResponse(p), Native(q)))
    case Failed(e) => Err(MapTransportError(e))
  }

  /** `call` (with `send`): prepare the request, hand it with its options to the
      transport, and wrap what comes back with the request attached. */
  function Call(c: Client, args: CallArgs, encode: Encoder, transport: Request -> TransportOutcome)
    : (res: Result<Response, CallFailure>)
    ensures var q := Prepare(c, args, encode); var outcome := transport(q);
      && (res.Ok? <==> outcome.Received?)
      && (res.Ok? ==> AsPsr(res.value) == outcome.response
                      && Responses.GetRequest(res.value) == Some(Native(q))
                      && res.value.cache.None?)
      && (res.Err? ==> res.error == MapTransportError(outcome.error))
  {
    var q := Prepare(c, args, encode);
    Deliver(q, transport(q))
  }

  // ---------------------------------------------------------------------------
  // Accessors and the copy-on-write helpers (as values)

  /** `getHeader($key, $default)`: the stored value, else the default. */
  function GetHeader(c: Client, key: string, default: Option<string>): (r: Option<string>)
    ensures key in c.headers ==> r == Some(c.headers[key])
    ensures key !in c.headers ==> r == default
  {
    if key in c.headers then Some(c.headers[key]) else default
  }

  /** `setHeader($key, $value)`: sets or replaces one header. */
  function SetHeader(c: Client, key: string, value: string): (r: Client)
    ensures forall d :: GetHeader(r, key, d) == Some(value)
    ensures forall k, d :: k != key ==> GetHeader(r, k, d) == GetHeader(c, k, d)
    ensures r.(headers := c.headers) == c
  {
    c.(headers := c.headers[key := value])
  }

  /** `setHeaders($headers)`: replaces all headers. */
  function SetHeaders(c: Client, headers: HeaderMap): (r: Client)
    ensures forall k, d :: GetHeader(r, k, d) == (if k in headers then Some(headers[k]) else d)
    ensures r.(headers := c.headers) == c
  {
    c.(headers := headers)
  }

  /** `addHeaders($headers)`: merges headers in, existing keys overwritten. */
  function AddHeaders(c: Client, headers: HeaderMap): (r: Client)
    ensures forall k, d :: k in headers ==> GetHeader(r, k, d) == Some(headers[k])
    ensures forall k, d :: k !in headers ==> GetHeader(r, k, d) == GetHeader(c, k, d)
    ensures r.(headers := c.headers) == c
  {
    c.(headers := MergeHeaders(c.headers, headers))
  }

  /** The state of `usingJson($enabled)`'s result: the receiver itself when the
      flag already equals `enabled`, otherwise a copy differing only in the flag. */
  function UsingJson(c: Client, enabled: bool): (r: Client)
    ensures r.applyJsonHeaders == Some(enabled)
    ensures c.applyJsonHeaders == Some(enabled) ==> r == c
    ensures r.(applyJsonHeaders := c.applyJsonHeaders) == c
  {
    if c.applyJsonHeaders == Some(enabled) then c else c.(applyJsonHeaders := Some(enabled))
  }

  /** `getBaseUri()`. */
  function GetBaseUri(c: Client): Option<string> {
    c.baseUri
  }

  /** `setBaseUri($uri)`. */
  function SetBaseUri(c: Client, uri: string): (r: Client)
    ensures GetBaseUri(r) == Some(uri)
    ensures r.(baseUri := c.baseUri) == c
  {
    c.(baseUri := Some(uri))
  }

  /** The configuration shapes the client documents: `base_uri` a string (or
      null) and, when `headers` is an array, a map of header strings. */
  predicate WellTypedConfig(config: PhpArray) {
    && (BaseUriKey in config ==> config[BaseUriKey].Null? || config[BaseUriKey].Str?)
    && (HeadersKey in config && config[HeadersKey].Arr? ==>
          forall k :: k in config[HeadersKey].items ==> config[HeadersKey].items[k].Str?)
  }

  function HeaderMapOf(items: PhpArray): (h: HeaderMap)
    requires forall k :: k in items ==> items[k].Str?
    ensures h.Keys == items.Keys
    ensures forall k :: k in items ==> items[k] == Str(h[k])
  {
    map k | k in items :: items[k].s
  }

  /** `setConfig($config)`: a set `base_uri` becomes the base URI; an array
      `headers` entry replaces the headers and is removed from the stored
      configuration; everything else is stored as given. */
  function SetConfig(c: Client, config: PhpArray): (r: Client)
    requires WellTypedConfig(config)
    ensures BaseUriKey in config && config[BaseUriKey].Str? ==> r.baseUri == Some(config[BaseUriKey].s)
    ensures !(BaseUriKey in config && config[BaseUriKey].Str?) ==> r.baseUri == c.baseUri
    ensures HeadersKey in config && config[HeadersKey].Arr? ==>
      && r.config == config - {HeadersKey}
      && (forall k :: k in config[HeadersKey].items <==> k in r.headers)
      && (forall k :: k in r.headers ==> config[HeadersKey].items[k] == Str(r.headers[k]))
    ensures !(HeadersKey in config && config[HeadersKey].Arr?) ==> r.config == config && r.headers == c.headers
    ensures r.applyJsonHeaders == c.applyJsonHeaders && r.guzzle == c.guzzle
  {
    var c1 := if BaseUriKey in config && config[BaseUriKey].Str? then SetBaseUri(c, config[BaseUriKey].s) else c;
    if HeadersKey in config && config[HeadersKey].Arr? then
      SetHeaders(c1, HeaderMapOf(config[HeadersKey].items)).(config := config - {HeadersKey})
    else
      c1.(config := config)
  }

  /** `getConfig()`. */
  function GetConfig(c: Client): PhpArray {
    c.config
  }

  /** The constructor: a fresh client on the given Guzzle client, configured by
      `setConfig`. */
  function NewClient(guzzle: GuzzleClient, config: PhpArray): (r: Client)
    requires WellTypedConfig(config)
    ensures r.guzzle == guzzle && r.applyJsonHeaders.None?
    ensures BaseUriKey in config && config[BaseUriKey].Str? ==> r.baseUri == Some(config[BaseUriKey].s)
    ensures !(BaseUriKey in config && config[BaseUriKey].Str?) ==> r.baseUri.None?
    ensures GetConfig(r).Keys <= config.Keys
    ensures HeadersKey in config && config[HeadersKey].Arr? ==>
      r.headers == HeaderMapOf(config[HeadersKey].items) && GetConfig(r) == config - {HeadersKey}
    ensures !(HeadersKey in config && config[HeadersKey].Arr?) ==> r.headers == map[] && GetConfig(r) == config
  {
    SetConfig(Client(None, map[], None, map[], guzzle), config)
  }

  /** Configuring a base URI after construction keeps it in the configuration
      and makes it the base URI. */
  lemma SetConfigBaseUri(c: Client, base: string)
    ensures var r := SetConfig(c, map[BaseUriKey := Str(base)]);
      BaseUriKey in GetConfig(r) && GetBaseUri(r) == Some(base)
  {
  }
}
