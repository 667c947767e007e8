/** `FormTrait`: classifying a request as a url-encoded or multipart form by its
    method and Content-Type, and reading the form data back from its options. */
module Forms {
  import opened Wrappers
  import opened Values
  import opened ContentType
  import opened Requests

  const UrlEncoded: string := "application/x-www-form-urlencoded"
  const Multipart: string := "multipart/form-data"
  const FormParamsOption: string := "form_params"
  const MultipartOption: string := "multipart"

  /** The RuntimeException `getFormData` throws, naming the content type. */
  datatype FormError = NotAForm(contentType: string)

  /** `isUrlEncodedForm()`: method exactly `POST`, Content-Type line exactly the
      url-encoded form type. */
  predicate IsUrlEncodedForm(r: Request) {
    r.httpMethod == "POST" && RequestContentType(r) == UrlEncoded
  }

  /** `isMultipartForm()`: method exactly `POST`, Content-Type line exactly
      `multipart/form-data`. */
  predicate IsMultipartForm(r: Request) {
    r.httpMethod == "POST" && RequestContentType(r) == Multipart
  }

  /** `isForm()`. */
  predicate IsForm(r: Request) {
    IsUrlEncodedForm(r) || IsMultipartForm(r)
  }

  /** `getFormData()`: the `form_params` option of a url-encoded form, the
      `multipart` option of a multipart form (each the empty array when unset),
      and an error for any other request. */
  function GetFormData(r: Request): (res: Result<Value, FormError>)
    ensures res.Err? <==> !IsForm(r)
    ensures res.Err? ==> res.error == NotAForm(RequestContentType(r))
    ensures IsUrlEncodedForm(r) ==> res == Ok(Coalesce(GetOptions(r), FormParamsOption, Arr(map[])))
    ensures IsMultipartForm(r) ==> res == Ok(Coalesce(GetOptions(r), MultipartOption, Arr(map[])))
  {
    if IsUrlEncodedForm(r) then Ok(Coalesce(GetOptions(r), FormParamsOption, Arr(map[])))
    else if IsMultipartForm(r) then Ok(Coalesce(GetOptions(r), MultipartOption, Arr(map[])))
    else Err(NotAForm(RequestContentType(r)))
  }

  /** A form is a request whose method is exactly `POST` and whose whole
      Content-Type line is one of the two form types, with no parameters after
      it. The method comparison is exact; requests built by the client carry an
      upper-cased method (and Guzzle upper-cases any method it is given), so a
      stored `post` only arises in this model, not in the running library. */
  lemma FormClassification(r: Request)
    ensures IsForm(r) <==> r.httpMethod == "POST" && RequestContentType(r) in {UrlEncoded, Multipart}
    ensures r.httpMethod == "post" ==> !IsForm(r)
    ensures RequestContentType(r) == Multipart + "; boundary=x" ==> !IsForm(r)
  {
  }

  /** No request is both kinds of form. */
  lemma FormKindsExclusive(r: Request)
    ensures !(IsUrlEncodedForm(r) && IsMultipartForm(r))
  {
  }

  /** Classification looks only at method and Content-Type line: two requests
      that agree on those (whatever their options, URI, body or other headers)
      are classified alike. */
  lemma ClassificationIgnoresOptions(r: Request, r': Request)
    requires r.httpMethod == r'.httpMethod && RequestContentType(r) == RequestContentType(r')
    ensures IsUrlEncodedForm(r) == IsUrlEncodedForm(r')
    ensures IsMultipartForm(r) == IsMultipartForm(r')
    ensures GetFormData(r).Err? == GetFormData(r').Err?
  {
  }

  /** Storing form data under the option of the request's form kind and reading
      it back gives the same data. */
  lemma FormDataRoundTrip(r: Request, data: PhpArray)
    requires IsForm(r)
    ensures IsUrlEncodedForm(r) ==>
      GetFormData(SetOptions(r, r.options[FormParamsOption := Arr(data)])) == Ok(Arr(data))
    ensures IsMultipartForm(r) ==>
      GetFormData(SetOptions(r, r.options[MultipartOption := Arr(data)])) == Ok(Arr(data))
  {
  }
}
