# Hyper HTTP client, modelled in Dafny

A model of the request/response logic of the `rexlabs/hyper-http` PHP library.
The library is a thin client in front of Guzzle. This model covers the logic the
library itself contains:

- how a client resolves request paths against its base URI;
- how it merges and defaults headers and sanitizes the HTTP method;
- how the verb helpers (`get`, `post`, `postForm`, the `...Json` variants, ...)
  shape what they hand to `call`, and how `call` maps transport failures to the
  library's exceptions;
- which messages count as JSON and which requests count as forms;
- how a response turns its body into an array and memoises the array object;
- what an `ApiException` captures from the transport exception it wraps;
- the static factory `Hyper`: recursive config merge, the two configuration
  conflicts, base-URI precedence, and the per-class instance registry.

PHP values are the `Value` datatype (`values.dfy`). PHP arrays are
`map<string, Value>`. Headers are `map<string, string>` with exact-match keys.
Mutable PHP objects are immutable records. Object identity is modelled for
clients, where `withHeaders` and `usingJson` clone while the setters mutate:
client objects live in a `Heap` of ids (`client_objects.dfy`), and the
factory's static state is a `World` (`hyper.dfy`). The `ArrayObject` a response
memoises is shared in PHP as well; that aliasing is not modelled (see the
`Responses.ToObject` line under "Left out").

JSON encoding and decoding, `http_build_query` and `withQuery`, the curl
formatter and the transport are function parameters. The model says nothing
about what they compute. Turning a resolved string into a `Uri` object is the
identity here (see the `HyperClient.MakeUri` line under "Left out").

| file | module | models |
|---|---|---|
| wrappers.dfy | Wrappers | `Option`, `Result` |
| php_strings.dfy | PhpStrings | `trim`, `strtoupper`, prefix/suffix tests, truthiness |
| values.dfy | Values | PHP values, `??`, `array_replace_recursive` |
| content_type.dfy | ContentType | `ContentTypeTrait` |
| requests.dfy | Requests | `Message\Request` |
| forms.dfy | Forms | `FormTrait` |
| responses.dfy | Responses | `Message\Response` |
| exceptions.dfy | Exceptions | `Exceptions\ApiException` |
| client.dfy | HyperClient | `Client` as a value |
| client_objects.dfy | ClientObjects | client object identity (clone vs mutate) |
| hyper.dfy | Hyper | the `Hyper` factory and instance registry |

## Model

| member | source | states |
|---|---|---|
| PhpStrings.Trim | src/Client.php:598-601 | `trim` result: neither end is a character `trim` strips, and it is no longer than the input |
| PhpStrings.TrimIsSlice | src/Client.php:598-601 | `trim` result is a contiguous slice of the input with only trim characters cut from either side |
| PhpStrings.TrimOfTrimmed | src/Client.php:598-601 | an already-trimmed string is returned unchanged |
| PhpStrings.TrimIdempotent | src/Client.php:598-601 | trimming twice is trimming once |
| PhpStrings.ToUpper | src/Client.php:598-601 | `strtoupper` result: equal to the input up to ASCII case, and has no lower-case letter |
| PhpStrings.ToUpperIdempotent | src/Client.php:598-601 | upper-casing twice is upper-casing once |
| PhpStrings.ToUpperOfUpper | src/Client.php:598-601 | a string with no lower-case letter is its own upper case |
| Values.Coalesce | src/Message/FormTrait.php:17 | `$a[$k] ?? $d`: the stored value when present and not null, otherwise the default |
| Values.ReplaceRecursive | src/Hyper.php:60 | `array_replace_recursive`: keys are the union; base-only entries are kept; a replacement entry wins unless both sides are arrays, which merge recursively |
| Values.ReplacementLeafWins | src/Hyper.php:60 | a non-array value at any path of the provided config is the merged value at that path |
| Values.DefaultSurvives | src/Hyper.php:60 | a default entry at any depth survives when the provided config lacks that path and every prefix of it the provided config has is an array |
| Values.NestedDefaultKept | src/Hyper.php:60 | a nested default such as `guzzle.timeout` survives a provided `guzzle` array that does not set it |
| Values.ReplaceWithSelf | src/Hyper.php:60 | merging a config over itself gives it back |
| Values.ReplaceIdentities | src/Hyper.php:60 | an empty default or an empty provided config is a neutral element of the merge |
| ContentType.ContentTypeOf | src/Message/ContentTypeTrait.php:13-16 | the Content-Type line as stored, parameters included, or "" when the header is absent |
| ContentType.IsJson | src/Message/ContentTypeTrait.php:22-33 | `isJson()` on a Content-Type line; characterised by `ContentType.IsJsonCharacterised` |
| ContentType.MatchesJsonSuffixIsRegex | src/Message/ContentTypeTrait.php:28 | the direct `+json` test agrees on every input with the pattern `^application/.+\+json$` under the `i` flag, where `.` excludes newline and `$` also matches before a final newline |
| ContentType.IsJsonCharacterised | src/Message/ContentTypeTrait.php:22-33 | `isJson` holds iff the line is exactly `application/json` or matches the `+json` pattern |
| ContentType.PlusJsonTypesAreJson | src/Message/ContentTypeTrait.php:28-30 | every `application/<subtype>+json` with a non-empty, newline-free subtype is JSON |
| ContentType.JsonSuffixIgnoresCase | src/Message/ContentTypeTrait.php:28 | the `+json` test gives the same answer for two lines equal up to ASCII case |
| ContentType.JsonApiIsJson | src/Message/ContentTypeTrait.php:28-30 | `application/vnd.api+json` is JSON |
| ContentType.CalendarJsonIsJson | src/Message/ContentTypeTrait.php:28-30 | `application/calendar+json` is JSON |
| ContentType.CollectionJsonIsJson | src/Message/ContentTypeTrait.php:28-30 | `application/vnd.collection+json` is JSON |
| ContentType.UpperCasedPlusJsonIsJson | src/Message/ContentTypeTrait.php:28 | an upper-cased `application/<subtype>+json` is still JSON: the pattern matches regardless of letter case |
| ContentType.OtherTypesAreNotJson | src/Message/ContentTypeTrait.php:22-33 | not JSON: text/html, text/plain, "", `application/+json`, `+json` not at the end, `application/json; charset=UTF-8`, and `APPLICATION/JSON` (the exact comparison is case-sensitive) |
| Requests.FromRequest | src/Message/Request.php:22-26 | a native request is returned as it is; any other is rebuilt with the same method, URI, headers, body and version, with no options |
| Requests.FromRequestIdempotent | src/Message/Request.php:22-26 | upgrading an upgraded request changes nothing |
| Requests.FromForeignForgetsOnlyOptions | src/Message/Request.php:22-26 | rebuilding a request from its PSR-7 fields loses exactly its options |
| Requests.SetOptions | src/Message/Request.php:45-60 | `getOptions` after `setOptions(o)` is `o`, and nothing else changes |
| Requests.UpgradeKeepsText | src/Message/Request.php:65-68 | the string form of any upgraded request is the original body |
| Requests.GetOptions | src/Message/Request.php:57-60 | `getOptions()`; what it reads after a set is stated by `Requests.SetOptions` |
| Requests.ToString | src/Message/Request.php:65-68 | `(string) $request`; stated for every upgraded request by `Requests.UpgradeKeepsText` |
| Forms.GetFormData | src/Message/FormTrait.php:14-25 | fails with the Content-Type line exactly when the request is not a form; otherwise gives the `form_params` or `multipart` option, defaulting to `[]` |
| Forms.IsUrlEncodedForm | src/Message/FormTrait.php:49-52 | `isUrlEncodedForm()`; characterised by `Forms.FormClassification` |
| Forms.IsMultipartForm | src/Message/FormTrait.php:59-62 | `isMultipartForm()`; characterised by `Forms.FormClassification` |
| Forms.IsForm | src/Message/FormTrait.php:32-42 | `isForm()`; characterised by `Forms.FormClassification` |
| Forms.FormClassification | src/Message/FormTrait.php:32-62 | a request is a form iff its method is exactly `POST` and its whole Content-Type line is one of the two form types, so a multipart type with a boundary parameter is not a form; the clause about a stored method `post` concerns a state only the model reaches, since Guzzle upper-cases methods |
| Forms.FormKindsExclusive | src/Message/FormTrait.php:49-62 | no request is both a url-encoded and a multipart form |
| Forms.ClassificationIgnoresOptions | src/Message/FormTrait.php:32-62 | two requests with the same method and Content-Type line are classified alike, whatever their options |
| Forms.FormDataRoundTrip | src/Message/FormTrait.php:14-22 | storing data under the option a form reads makes `getFormData` return it |
| Responses.FromResponse | src/Message/Response.php:33-42 | the upgraded response has no request and nothing cached |
| Responses.FromResponsePreserves | src/Message/Response.php:33-42 | upgrading keeps status, headers, body, protocol version and reason phrase |
| Responses.GetRequest | src/Message/Response.php:49-52 | `getRequest()`; what it reads after a set is stated by `Responses.SetRequest` |
| Responses.SetRequest | src/Message/Response.php:49-66 | `getRequest` after `setRequest(q)` is `q`, and nothing else changes |
| Responses.GetCurlRequest | src/Message/Response.php:73-80 | null exactly when no request is attached, else the formatter's text for that request |
| Responses.DecodeArray | src/Message/Response.php:94-102 | not JSON gives `[]` whatever the body; JSON gives the decoded array, `[]` for a decoded scalar, and an error exactly when decoding throws |
| Responses.ToArray | src/Message/Response.php:88-103 | the cached array once there is one, otherwise the decoded one |
| Responses.NonJsonIsEmptyArray | src/Message/Response.php:94-95 | without a JSON content type the uncached array is `[]` for every body |
| Responses.ToObject | src/Message/Response.php:112-119 | the first call fills the cache with `toArray()`; a filled cache is returned as it is |
| Responses.ToObjectMemoised | src/Message/Response.php:112-119 | after one `toObject`, later calls return the same object and leave the response unchanged, whatever a decoder would now say |
| Responses.GetProperty | src/Message/Response.php:153-156 | `__get` reads the entry of the memoised object, null when absent |
| Responses.HasProperty | src/Message/Response.php:178-181 | `__isset` says whether the memoised object has the entry |
| Responses.SetProperty | src/Message/Response.php:166-169 | `__set` writes the entry into the memoised object, building it first when needed and failing exactly when that build fails; nothing but the memoised object changes |
| Responses.SetPropertyReflected | src/Message/Response.php:90-92 | a property written through the response reads back and shows in `toArray()`, alongside everything decoded before |
| Responses.ToString | src/Message/Response.php:188-191 | `(string) $response`; stated by `Responses.ToStringIsBody` |
| Responses.ToStringIsBody | src/Message/Response.php:188-191 | the string form is the received body, before and after the array object is built |
| Exceptions.NewApiException | src/Exceptions/ApiException.php:31-42 | a transport request exception's request is captured, and its response exactly when it has one, each upgraded; any other previous captures nothing |
| Exceptions.GetRequest | src/Exceptions/ApiException.php:47-50 | `getRequest()`; what it reads after a set is stated by `Exceptions.SetRequest` |
| Exceptions.GetResponse | src/Exceptions/ApiException.php:67-70 | `getResponse()`; what it reads after a set is stated by `Exceptions.SetResponse` |
| Exceptions.SetRequest | src/Exceptions/ApiException.php:57-62 | the stored request is the upgraded argument, and nothing else changes |
| Exceptions.SetResponse | src/Exceptions/ApiException.php:77-82 | the stored response is the upgraded argument (no request, no cache), and nothing else changes |
| Exceptions.GetCurlRequest | src/Exceptions/ApiException.php:87-94 | null exactly when no request was captured |
| Exceptions.GetResponseArray | src/Exceptions/ApiException.php:99-107 | `[]` without a response, otherwise the response's `toArray()` |
| Exceptions.CapturedResponseArray | src/Exceptions/ApiException.php:35-41 | a captured response's array is the one decoded from the transport's body |
| Exceptions.NothingCapturedWithoutTransportError | src/Exceptions/ApiException.php:35-41 | without a transport request exception there is no curl command and the response array is `[]` |
| HyperClient.SlashPrefixed | src/Client.php:379 | the path starts with `/`; exactly one is added when missing |
| HyperClient.StripTrailingSlash | src/Client.php:381 | one `/` at the end, or one just before a final newline, is removed; anything else is left alone |
| HyperClient.Url | src/Client.php:374-386 | an absolute `http(s)://` input is returned unchanged; otherwise the slash-prefixed path, with the stripped base in front when the base is truthy |
| HyperClient.AbsoluteUrlIgnoresBase | src/Client.php:378 | an absolute URL resolves to itself whatever the base URI |
| HyperClient.OtherSchemesAreRelative | src/Client.php:378 | `HTTP://...` and `ftp://...` are resolved like relative paths |
| HyperClient.LeadingSlashIrrelevant | src/Client.php:379 | `url("x") == url("/x")` for a relative `x` |
| HyperClient.TrailingSlashIrrelevant | src/Client.php:380-381 | bases with and without one trailing slash resolve alike (except the base "0") |
| HyperClient.NoBaseGivesPath | src/Client.php:380 | with a null, empty or "0" base the result is the slash-prefixed path |
| HyperClient.ExactlyOneSlash | src/Client.php:379-382 | exactly one slash joins base and path, whichever of them carried it |
| HyperClient.MakeUri | src/Client.php:608-615 | a URI object is used as it is; a string goes through `url` |
| HyperClient.MergeHeaders | src/Client.php:586-589 | per-call values win on an equal (exact) key, and every other default survives unchanged |
| HyperClient.SetDefault | src/Client.php:328-339 | `if (!isset(...))`: a header is added only when absent, and nothing else changes |
| HyperClient.SanitizeMethod | src/Client.php:598-601 | the result is trimmed and has no lower-case letter |
| HyperClient.SanitizeMethodMatchesTrim | src/Client.php:598-601 | the result equals the trimmed input up to ASCII case |
| HyperClient.CanonicalMethodUnchanged | src/Client.php:598-601 | a trimmed method with no lower-case letter is sent as it is |
| HyperClient.GetIsSanitized | src/Client.php:68 | `GET` is sent as `GET` |
| HyperClient.DeleteIsSanitized | src/Client.php:251 | `DELETE` is sent as `DELETE` |
| HyperClient.SanitizeMethodIdempotent | src/Client.php:598-601 | sanitizing twice is sanitizing once |
| HyperClient.RequestHeaders | src/Client.php:324-340 | per-call headers win over client headers; an array body, or the JSON flag, adds Content-Type: application/json only when absent; the JSON flag adds Accept likewise; no other header appears |
| HyperClient.PlainRequestAddsNoHeaders | src/Client.php:326-340 | without the JSON flag and with a non-array body the headers are just the merge |
| HyperClient.CreateRequest | src/Client.php:316-350 | method sanitized, URI resolved, headers assembled, body text (an array JSON-encoded), version 1.1 unless given, options stored |
| HyperClient.ArrayBodyContentType | src/Client.php:324-331 | with an array body, Content-Type is the per-call one, else the client's, else application/json |
| HyperClient.ArrayBodyIsJson | src/Client.php:326-331 | an array body is sent as its JSON text with Content-Type application/json unless one was given |
| HyperClient.RuntimeHeaderOverridesClientHeader | src/Client.php:324 | for any verb, URI and body, a per-call header replaces the client default of the same name |
| HyperClient.Prepare | src/Client.php:289 | the request `call` builds: sanitized method, URI resolved by `makeUri`, merged headers, body text, default protocol version 1.1 and the call's options |
| HyperClient.EncodeUpFront | src/Client.php:101-104 | `post`/`put`/`patch` turn an array body into its JSON text before `call` |
| HyperClient.GetArgs | src/Client.php:66-70 | `get` calls `call` with GET, the resolved URI with the built query, and body, headers and options as given |
| HyperClient.PostArgs | src/Client.php:101-104 | `post` calls `call` with POST and the URI, headers and options as given; the body is no longer an array but has the same text, and a non-array body is unchanged |
| HyperClient.PutArgs | src/Client.php:180-183 | `put`: as `post`, with PUT |
| HyperClient.PatchArgs | src/Client.php:213-216 | `patch`: as `post`, with PATCH |
| HyperClient.DeleteArgs | src/Client.php:249-252 | `delete` calls `call` with DELETE, the resolved URI, and body (an array left as it is), headers and options as given |
| HyperClient.FormArgsShape | src/Client.php:134-166 | `postForm`/`postMultipartForm` call `call` with a bodiless POST, Content-Type set to the form type and the data under the form option; every other header and option is kept |
| HyperClient.PostFormArgs | src/Client.php:134-140 | what `postForm` passes to `call`; stated by `HyperClient.FormArgsShape` |
| HyperClient.PostMultipartFormArgs | src/Client.php:155-166 | what `postMultipartForm` passes to `call`; stated by `HyperClient.FormArgsShape` |
| HyperClient.GetRequestCarriesQuery | src/Client.php:66-70 | the request `get` sends has method GET, the resolved URI with the built query, the body text and the call's options |
| HyperClient.DeleteArrayBodyIsJson | src/Client.php:249-252 | unlike `post`, `delete` with an array body sends its JSON text with Content-Type application/json when none was given |
| HyperClient.PostFormRoundTrip | src/Client.php:134-140 | `postForm` sends a POST with an empty body that is a url-encoded form whose form data is the params, whatever Content-Type the caller passed |
| HyperClient.PostMultipartFormRoundTrip | src/Client.php:155-166 | `postMultipartForm` sends a POST with an empty body that is a multipart form whose form data is the parts |
| HyperClient.JsonVariantSetsJsonHeaders | src/Client.php:116-119 | a `...Json` variant sends Content-Type and Accept as application/json where neither client nor call set them |
| HyperClient.PostArrayBodyAddsNoContentType | src/Client.php:101-104 | plain `post` with an array body sends the JSON text but adds no Content-Type |
| HyperClient.MapTransportError | src/Client.php:295-299 | a bad response becomes a response error, any other request exception a request error; each captures the request, and the response exactly when the transport had one; other exceptions pass through |
| HyperClient.Deliver | src/Client.php:290-301 | a received response comes back with the sent request attached and no cached array; a transport error is mapped as `call`'s catch blocks map it |
| HyperClient.Call | src/Client.php:286-302 | success exactly when the transport returns a response, which comes back upgraded with the sent request attached; a failure is mapped as above |
| HyperClient.GetHeader | src/Client.php:495-498 | the stored header value, otherwise the default |
| HyperClient.SetHeader | src/Client.php:508-513 | the key then reads back as the value; every other key reads as before |
| HyperClient.SetHeaders | src/Client.php:522-527 | the headers become exactly the given ones |
| HyperClient.AddHeaders | src/Client.php:548-553 | given keys read back with the given values (overwriting); other keys read as before |
| HyperClient.UsingJson | src/Client.php:567-577 | the flag becomes the given value; the state is unchanged when the flag already had that value; nothing else differs |
| HyperClient.SetBaseUri | src/Client.php:480-485 | `getBaseUri` then returns the new URI, and nothing else changes |
| HyperClient.SetConfig | src/Client.php:447-463 | a string `base_uri` sets the base URI; an array `headers` entry replaces the headers and is removed from the stored config; the rest is stored |
| HyperClient.NewClient | src/Client.php:45-50 | a new client has a null JSON flag and the given Guzzle client; an array `headers` entry becomes its headers and leaves the stored config, otherwise the headers are empty and the config is stored whole |
| HyperClient.SetConfigBaseUri | src/Client.php:450-452 | a `base_uri` set through `setConfig` becomes the base URI and stays in the config |
| ClientObjects.Alloc | src/Client.php:538 | a new object gets an id no existing object has, and no existing object changes |
| ClientObjects.Store | src/Client.php:508-553 | a fluent setter changes only its receiver |
| ClientObjects.SetHeaderOn | src/Client.php:508-513 | `setHeader` on one object: the header reads back there, its other headers and every other field of it stay as they were, and other objects are unchanged |
| ClientObjects.AddHeadersOn | src/Client.php:548-553 | `addHeaders` on one object: the headers read back there, its headers not given and every other field of it stay as they were, and other objects are unchanged |
| ClientObjects.WithHeaders | src/Client.php:536-539 | a new object with the headers merged in; the receiver and every other object are unchanged |
| ClientObjects.UsingJsonOn | src/Client.php:567-577 | the receiver itself when its flag already equals the argument, else a new object differing only in the flag; the receiver never changes |
| ClientObjects.WithHeadersIsolated | src/Client.php:536-539 | after `withHeaders`, setting a header on the copy leaves the original untouched |
| ClientObjects.UsingJsonAliases | src/Client.php:569-571 | with the flag already set, `usingJson` returns the receiver, so later changes through the result show on the receiver |
| ClientObjects.FreshClientAlwaysCloned | src/Client.php:571 | a client whose flag was never set (null) is cloned by `usingJson(false)` too |
| ClientObjects.ManipulateHeaders | src/Client.php:495-513 | set, read back and overwrite headers on one object |
| Hyper.GuzzleConfig | src/Hyper.php:61 | the Guzzle config is the `guzzle` array, or `[]` when absent or null |
| Hyper.ResolvedBaseUri | src/Hyper.php:70 | the class override when non-null, else a string `guzzle.base_uri`, else none |
| Hyper.GuzzleConfigWithBase | src/Hyper.php:79-81 | a resolved base URI is set as the Guzzle config's `base_uri`; every other entry is kept |
| Hyper.ConfiguredClient | src/Hyper.php:98-106 | a resolved base URI becomes the client's, over any `base_uri` in the client config; an array `headers` entry becomes the client's headers and leaves its config, otherwise the headers are empty |
| Hyper.BuildClient | src/Hyper.php:58-109 | refused exactly when a Guzzle client comes with a non-empty Guzzle config, or with a base URI; otherwise the `guzzle` key is not in the client config, the base URI follows the precedence, and the built Guzzle client gets the Guzzle config; an array `headers` entry in the merged config becomes the client's headers and is not stored in its config, otherwise the client has no headers |
| Hyper.Make | src/Hyper.php:58-60 | `make` builds from the provided config merged over the default, as a new object; nothing else changes |
| Hyper.Instance | src/Hyper.php:192-199 | the stored client for the class if there is one, otherwise a client made and stored for the class |
| Hyper.ClearInstances | src/Hyper.php:356-359 | the registry is emptied; the client objects live on |
| Hyper.SetDefaultConfig | src/Hyper.php:116-119 | the default config is replaced; nothing else changes |
| Hyper.InstanceShared | src/Hyper.php:194-198 | a second `instance()` for the same class returns the same object and changes nothing, whatever its arguments |
| Hyper.MakeNotShared | src/Hyper.php:58-109 | `make()` never returns a registered instance |
| Hyper.InstancesPerClass | src/Hyper.php:194-195 | two classes get two different instances |
| Hyper.ClearThenFresh | src/Hyper.php:356-359 | after `clearInstances()`, `instance()` constructs a new object |
| Hyper.DefaultMakeHasEmptyConfig | src/Hyper.php:60-62 | `make()` with empty defaults yields client config `[]` and a self-built Guzzle client |
| Hyper.GuzzleOptionsStayWithGuzzle | src/Hyper.php:61-62 | Guzzle options reach the Guzzle client and not the client config |
| Hyper.HeadersConfigBuilds | src/Hyper.php:98-106 | a merged config holding only a `headers` array builds a client with exactly those headers and an empty stored config |
| Hyper.HeadersViaConstructor | tests/Unit/HyperTest.php:178-188 | `make(['headers' => [...]])` gives a client whose headers are exactly the given ones, read back by `getHeader`, with an empty stored config |
| Hyper.GuzzleClientWithConfigRefused | src/Hyper.php:66-68 | a Guzzle client with a non-empty Guzzle config is refused |
| Hyper.BaseUriPrecedence | src/Hyper.php:70-106 | the chosen base URI (override first) is what relative paths resolve under |
| Hyper.InitialWorldValid | src/Hyper.php:30-44 | the registry invariant holds in the initial state |

## Left out

- The transport send path (`send`, Guzzle's `send`) is a parameter of `Call`. The handler stack, the logging middleware, the `log_curl` option, logger getters and setters, and `setGuzzleClient`/`getGuzzleClient` are not modelled. They are plumbing into libraries outside this code.
- The static forwarding methods of `Hyper` (`get`, `post`, ... `call`) are not modelled. Each only calls `instance()` and then the client method of the same name.
- Curl text: `getCurl`, the text returned by `getCurlRequest`, and `Message/CurlMessageFormatter.php` belong to an external formatter, which is a parameter here. `src/Exceptions/ResponseException.php` and `src/Exceptions/RequestException.php` are not part of this model. Only the two exception kinds are distinguished, by `ErrorKind`.
- JSON encoding and decoding are parameters. A decoder that throws is `None`. Encoding is assumed not to fail, although `json_encode` in `post` returns `false` on failure while Guzzle's `json_encode` in `createRequest` throws.
- `Exceptions.GetResponseArray`: the fallback that decodes a response which is not the library's own (`src/Exceptions/ApiException.php:109`) is not modelled. `setResponse` always upgrades, so the stored response is always the library's own.
- Header names are compared exactly, as `array_merge` does. Guzzle's later case-insensitive normalisation, the `Host` header its `Request` constructor adds from an absolute URI, and Guzzle possibly changing the method's case happen outside this code, so `HyperClient.CreateRequest` states the headers without `Host`.
- PHP array key order is not modelled, nor is the renumbering of integer keys by `array_merge` (`src/Client.php:550` and `src/Client.php:588`). Keys are strings. `array_replace_recursive` keeps integer keys and matches entries by key, so apart from key order `Values.ReplaceRecursive` over decimal-string keys agrees with PHP on integer-keyed config arrays.
- `HyperClient.SetHeader`: PHP casts the value with `(string)`. Here values are already strings.
- The `ArrayObject` returned by `toObject` is modelled as its underlying array. Dot-path access (`get('a.b')`), `__call` delegation and `toJson` are not modelled.
- `Responses.ToObject`: PHP returns the response's own cached `ArrayObject`, so `$o = $r->toObject(); $o->set('k', 1);` changes what `$r->toArray()` and `$r->k` give afterwards. Here the result is a value copy, so writes through the returned object do not reach the response; only writes through `__set` (`Responses.SetProperty`) do.
- `HyperClient.GetArgs`: `http_build_query` and `Uri::withQuery` are parameters, so the query string itself is not modelled. A URI object target passes through `makeUri` unchanged.
- `HyperClient.MakeUri`: `new Uri($this->url($uri))` (`src/Client.php:614`) is the identity on the resolved string. Guzzle's `Uri` constructor can throw on a malformed URI, lower-cases scheme and host, and percent-encodes the path; none of that is modelled.
- `ContentType.ContentTypeOf`: PSR-7's `getHeaderLine` matches the header name case-insensitively and joins repeated values with ", ". Here the name is matched exactly and one value is stored. So a request carrying `content-type: application/json` is JSON to PHP but has line "" here. A caller's `content-type: text/plain` with an array body gives the line `text/plain, application/json` in PHP, where `HyperClient.ArrayBodyIsJson` states JSON.
- `Value` has no floating-point case. Decoded JSON numbers with a fraction, and Guzzle options such as `timeout => 2.5`, are outside the model; floats only pass through this code untouched.
- `Hyper.BuildClient`: when the factory builds the Guzzle client, `Built(gc)` stands for `gc` with a `handler` entry added (a fresh handler stack unless `gc` has one, with the logging middleware pushed), as `src/Hyper.php:85-96` does. The same holds for the exact Guzzle configs in `Hyper.DefaultMakeHasEmptyConfig` and `Hyper.GuzzleOptionsStayWithGuzzle`.
- `Hyper.BuildClient` requires the `guzzle` entry to be an array or null and its `base_uri` a string or null, the shapes the factory documents. Other values would make PHP warn or coerce.
- `HyperClient.SetConfig` requires `base_uri` to be a string or null and an array `headers` entry to hold strings, as documented.
- `makeClient`, `makeConfig` and `makeGuzzleConfig` are used as `Hyper` defines them (the identity and `new Client`). Subclass overrides other than `getBaseUri` are not modelled.
- `ContentType.OtherTypesAreNotJson`: the unit test asserting `application/json; charset=UTF-8` is JSON disagrees with the code, which does not strip parameters. The model follows the code.
- `tests/Unit/ClientTest.php` targets an older API and is not a source of properties here.
