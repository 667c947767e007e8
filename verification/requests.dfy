/** `Message\Request`: a PSR-7 request that also remembers the transport options
    it is to be sent with. */
module Requests {
  import opened Values
  import opened ContentType

  /** The library's own request. The body is the text of the body stream (a
      missing body is the empty stream, ""). */
  datatype Request = Request(
    httpMethod: string,
    uri: string,
    headers: HeaderMap,
    body: string,
    version: string,
    options: PhpArray)

  /** Any PSR-7 request: either already the library's own, or a request of
      another class (such as Guzzle's), which has no transport options. */
  datatype PsrRequest =
    | Native(request: Request)
    | Foreign(httpMethod: string, uri: string, headers: HeaderMap, body: string, version: string)

  function MethodOf(p: PsrRequest): string {
    match p
    case Native(r) => r.httpMethod
    case Foreign(m, _, _, _, _) => m
  }

  function UriOf(p: PsrRequest): string {
    match p
    case Native(r) => r.uri
    case Foreign(_, u, _, _, _) => u
  }

  function HeadersOf(p: PsrRequest): HeaderMap {
    match p
    case Native(r) => r.headers
    case Foreign(_, _, h, _, _) => h
  }

  function BodyOf(p: PsrRequest): string {
    match p
    case Native(r) => r.body
    case Foreign(_, _, _, b, _) => b
  }

  function VersionOf(p: PsrRequest): string {
    match p
    case Native(r) => r.version
    case Foreign(_, _, _, _, v) => v
  }

  /** `Request::fromRequest`: the library's own request is returned as it is
      (options included); any other request is rebuilt with the same method, URI,
      headers, body and protocol version and no options. */
  function FromRequest(p: PsrRequest): (r: Request)
    ensures p.Native? ==> r == p.request
    ensures r.httpMethod == MethodOf(p) && r.uri == UriOf(p) && r.headers == HeadersOf(p)
    ensures r.body == BodyOf(p) && r.version == VersionOf(p)
    ensures p.Foreign? ==> r.options == map[]
  {
    match p
    case Native(r) => r
    case Foreign(m, u, h, b, v) => Request(m, u, h, b, v, map[])
  }

  /** Upgrading twice is upgrading once. */
  lemma FromRequestIdempotent(p: PsrRequest)
    ensures FromRequest(Native(FromRequest(p))) == FromRequest(p)
  {
  }

  /** Rebuilding a request from its PSR-7 fields loses exactly its options. */
  lemma FromForeignForgetsOnlyOptions(r: Request)
    ensures FromRequest(Foreign(r.httpMethod, r.uri, r.headers, r.body, r.version)) == r.(options := map[])
  {
  }

  /** `setOptions`: stores the options and nothing else. */
  function SetOptions(r: Request, options: PhpArray): (r': Request)
    ensures GetOptions(r') == options
    ensures r'.(options := r.options) == r
  {
    r.(options := options)
  }

  /** `getOptions`: the stored options (the empty array unless set). */
  function GetOptions(r: Request): PhpArray {
    r.options
  }

  /** `(string) $request`: the body text. */
  function ToString(r: Request): string {
    r.body
  }

  /** Converting any request to the library's own keeps its text. */
  lemma UpgradeKeepsText(p: PsrRequest)
    ensures ToString(FromRequest(p)) == BodyOf(p)
  {
  }

  /** The Content-Type line of a request. */
  function RequestContentType(r: Request): string {
    ContentTypeOf(r.headers)
  }
}
