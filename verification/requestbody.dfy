/**
 The body decision of the load tester's request builder (`generateBody` in
 main.go). Header and data values come from a JSON configuration and are
 dynamically typed; only their being a string matters here. The encoders
 themselves (JSON marshalling, form url-encoding) are opaque: a body records
 which encoder it takes and the fields it is built from.
 */
module RequestBody {

  /** A decoded JSON value: a string, or anything else (number, bool, null, array, object) */
  datatype JsonValue = JsonString(str: string) | JsonOther

  type Fields = map<string, JsonValue>

  const MethodPost: string := "POST"
  const MethodPut: string := "PUT"
  const MethodPatch: string := "PATCH"

  /** The HTTP methods that carry a request body */
  const MethodsOfUsingBody: seq<string> := [MethodPost, MethodPut, MethodPatch]

  const JsonType: string := "application/json"
  const FormType: string := "application/x-www-form-urlencoded"
  const ContentTypeKey: string := "Content-Type"

  /** The request payload decided for one request */
  datatype Body =
    | NoBody
    | JsonBody(fields: Fields)
    | FormBody(fields: Fields)
    | /** the configured content type cannot be encoded: a fatal error of the run */
      Unsupported(verb: string)

  /** Linear search of `a` in `list`, front to back */
  function StringInSlice(a: string, list: seq<string>): (r: bool)
    ensures r <==> a in list
  {
    if |list| == 0 then false
    else if list[0] == a then true
    else StringInSlice(a, list[1..])
  }

  /**
   The `Content-Type` header as Go's comma-ok type assertion `v.(string)` sees it:
   the string value, or the empty string when the header is missing or not a
   string.
   */
  function DeclaredContentType(headers: Fields): string {
    if ContentTypeKey in headers && headers[ContentTypeKey].JsonString? then
      headers[ContentTypeKey].str
    else
      ""
  }

  /** A body is wanted: the method is exactly POST, PUT or PATCH and there is data */
  predicate UsesBody(verb: string, data: Fields) {
    (verb == "POST" || verb == "PUT" || verb == "PATCH") && |data| != 0
  }

  /** The header map declares exactly the string `t` as content type */
  predicate Declares(headers: Fields, t: string) {
    ContentTypeKey in headers && headers[ContentTypeKey] == JsonString(t)
  }

  /**
   The body for a request: none unless a body is wanted; then JSON or form
   encoding of the data exactly when the header declares that content type
   verbatim, and a fatal error for every other header (missing, not a string,
   or any other text).
   */
  function GenerateBody(verb: string, headers: Fields, data: Fields): (b: Body)
    ensures b.NoBody? <==> !UsesBody(verb, data)
    ensures b.JsonBody? <==> UsesBody(verb, data) && Declares(headers, "application/json")
    ensures b.FormBody? <==> UsesBody(verb, data) && Declares(headers, "application/x-www-form-urlencoded")
    ensures b.Unsupported? <==>
              && UsesBody(verb, data)
              && !Declares(headers, "application/json")
              && !Declares(headers, "application/x-www-form-urlencoded")
    ensures (b.JsonBody? || b.FormBody?) ==> b.fields == data
    ensures b.Unsupported? ==> b.verb == verb
  {
    if StringInSlice(verb, MethodsOfUsingBody) && |data| != 0 then
      var str := DeclaredContentType(headers);
      if str == JsonType then JsonBody(data)
      else if str == FormType then FormBody(data)
      else Unsupported(verb)
    else
      NoBody
  }

  /**
   A missing header, a header that is not a string and an empty string header
   lead to the same decision.
   */
  lemma UntypedContentTypeIsEmpty(verb: string, headers: Fields, data: Fields)
    ensures GenerateBody(verb, headers - {ContentTypeKey}, data)
              == GenerateBody(verb, headers[ContentTypeKey := JsonOther], data)
              == GenerateBody(verb, headers[ContentTypeKey := JsonString("")], data)
  {
  }

  /** Method names are matched case-sensitively: lower-case `post` carries no body */
  lemma MethodIsCaseSensitive(headers: Fields, data: Fields)
    ensures GenerateBody("post", headers, data) == NoBody
  {
  }

  /** A media-type parameter such as a charset makes the JSON content type unsupported */
  lemma CharsetParameterIsUnsupported(headers: Fields, data: Fields)
    requires |data| != 0
    ensures GenerateBody("POST", headers[ContentTypeKey := JsonString("application/json; charset=utf-8")], data)
              == Unsupported("POST")
  {
  }

  /** GET with no data and no headers: no body */
  lemma ScenarioGetIsEmpty()
    ensures GenerateBody("GET", map[], map[]) == NoBody
  {
  }

  /** POST with a JSON content type: the data is sent JSON-encoded */
  lemma ScenarioPostJson()
    ensures GenerateBody("POST", map[ContentTypeKey := JsonString(JsonType)], map["a" := JsonString("1")])
              == JsonBody(map["a" := JsonString("1")])
  {
  }

  /** POST with a form content type: the data is sent form-encoded */
  lemma ScenarioPostForm()
    ensures GenerateBody("POST", map[ContentTypeKey := JsonString(FormType)],
                         map["a" := JsonString("1"), "b" := JsonString("2")])
              == FormBody(map["a" := JsonString("1"), "b" := JsonString("2")])
  {
  }

  /** PATCH with a plain-text content type and some data: fatal */
  lemma ScenarioPatchPlainText()
    ensures GenerateBody("PATCH", map[ContentTypeKey := JsonString("text/plain")], map["a" := JsonString("1")])
              == Unsupported("PATCH")
  {
  }
}
