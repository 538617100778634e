/**
 * Content negotiation: whether a request carries a JSON body
 * (`is_json_content_type`, `JSONRequestDeserializer`), the content type a
 * request declares (`Request.get_content_type`), and which serializer
 * renders the response (XML unless the query says exactly `ContentType=JSON`).
 */
module Negotiation {
  import opened Base
  import opened Strings
  import opened Values

  /** Outcome of `request.params.get("ContentType")`. */
  datatype ParamLookup =
    | Param(value: string)
    | NoParam
    | ParamsUnreadable(error: Exc)   // webob raised while reading the parameters

  /** The parts of a webob request the core reads. `contentType` is the
      mimetype of the Content-Type header (None when the header is absent);
      `verb` is the HTTP method; `locale` is the result of matching Accept-Language against the
      available translations. */
  datatype Request = Request(
    verb: string,
    contentTypeParam: ParamLookup,
    contentType: Option<string>,
    contentLength: Option<int>,
    body: string,
    locale: string)

  /** webob's `request.content_type`: the empty string when there is no header. */
  function HeaderContentType(req: Request): string {
    req.contentType.GetOr("")
  }

  /** A content type the deserializer treats as JSON once the
      backward-compatibility fallback is applied. */
  predicate JsonLike(ct: string) {
    ct == "" || StartsWith(ct, "text/plain") || ct == "JSON" || ct == "application/json"
  }

  /** `is_json_content_type` */
  predicate IsJsonContentType(req: Request): (r: bool)
    ensures r ==> StartsWith(req.body, "{")
    ensures req.verb != "GET" ==>
      (r <==> JsonLike(HeaderContentType(req)) && StartsWith(req.body, "{"))
    ensures req.verb == "GET" && req.contentTypeParam.Param? && req.contentTypeParam.value != "" ==>
      (r <==> JsonLike(req.contentTypeParam.value) && StartsWith(req.body, "{"))
    ensures req.verb == "GET" && !(req.contentTypeParam.Param? && req.contentTypeParam.value != "") ==>
      (r <==> JsonLike(HeaderContentType(req)) && StartsWith(req.body, "{"))
  {
    var declared :=
      if req.verb == "GET" then
        var awsContentType := if req.contentTypeParam.Param? then req.contentTypeParam.value else "";
        if awsContentType != "" then awsContentType else HeaderContentType(req)
      else HeaderContentType(req);
    var contentType :=
      if declared == "" || StartsWith(declared, "text/plain") then "application/json" else declared;
    (contentType == "JSON" || contentType == "application/json") && StartsWith(req.body, "{")
  }

  /** `JSONRequestDeserializer.has_body`; a missing Content-Length compares
      as not positive. */
  predicate HasBody(req: Request): (r: bool)
    ensures r <==> req.contentLength.Some? && req.contentLength.value > 0 && IsJsonContentType(req)
  {
    match req.contentLength
    case Some(n) => n > 0 && IsJsonContentType(req)
    case None => false
  }

  /** `JSONRequestDeserializer.default`: `{'body': parsed}` when there is a
      body, `{}` otherwise; a parse failure is an HTTP 400 carrying the
      parser's message. */
  function DeserializeDefault(req: Request, lib: Foreign): (r: Result<map<string, Value>, Exc>)
    ensures !HasBody(req) ==> r == Success(map[])
    ensures HasBody(req) && lib.loads(req.body).Success? ==>
      r == Success(map["body" := lib.loads(req.body).value])
    ensures HasBody(req) && lib.loads(req.body).Failure? ==>
      r.Failure? && r.error.HttpException? && r.error.code == 400 &&
      r.error.detail == Plain(lib.loads(req.body).error)
    ensures r.Success? ==> r.value.Keys <= {"body"}
  {
    if HasBody(req) then
      match lib.loads(req.body)
      case Success(parsed) => Success(map["body" := parsed])
      case Failure(message) => Failure(HttpBadRequest(Plain(message)))
    else Success(map[])
  }

  /** `exception.InvalidContentType(content_type=...)` */
  datatype InvalidContentType = InvalidContentType(contentType: Option<string>)

  /** `Request.get_content_type`: the declared type, which must be present and allowed. */
  function GetContentType(req: Request, allowed: seq<string>): (r: Result<string, InvalidContentType>)
    ensures r.Success? <==> req.contentType.Some? && req.contentType.value in allowed
    ensures r.Success? ==> r.value == req.contentType.value
    ensures r.Failure? ==> r.error.contentType == req.contentType
  {
    match req.contentType
    case None => Failure(InvalidContentType(None))
    case Some(ct) => if ct in allowed then Success(ct) else Failure(InvalidContentType(Some(ct)))
  }

  /** The serializer a request gets: one supplied to the Resource, or else a
      built-in one. */
  datatype SerializerChoice<S> = Supplied(serializer: S) | JsonSerializer | XmlSerializer

  /** The serializer choice of `Resource.__call__`: a supplied serializer
      always wins; otherwise JSON exactly when the `ContentType` query value is
      the string "JSON", and XML in every other case, absence included. */
  function ChooseSerializer<S>(supplied: Option<S>, contentTypeParam: Option<string>): (r: SerializerChoice<S>)
    ensures supplied.Some? ==> r == Supplied(supplied.value)
    ensures supplied.None? ==> !r.Supplied?
    ensures supplied.None? ==> (r.JsonSerializer? <==> contentTypeParam == Some("JSON"))
    ensures supplied.None? ==> (r.XmlSerializer? <==> contentTypeParam != Some("JSON"))
  {
    match supplied
    case Some(s) => Supplied(s)
    case None => if contentTypeParam == Some("JSON") then JsonSerializer else XmlSerializer
  }

  /** For GET, a non-empty `ContentType` query parameter overrides the header. */
  lemma GetParameterOverridesHeader(req: Request, header: Option<string>)
    requires req.verb == "GET" && req.contentTypeParam.Param? && req.contentTypeParam.value != ""
    ensures IsJsonContentType(req) == IsJsonContentType(req.(contentType := header))
  {
  }

  /** Other methods ignore the query parameter. */
  lemma OtherMethodsIgnoreParameter(req: Request, param: ParamLookup)
    requires req.verb != "GET"
    ensures IsJsonContentType(req) == IsJsonContentType(req.(contentTypeParam := param))
  {
  }

  /** A GET with `ContentType=JSON`, no Content-Type header and an empty body
      has no body; the same request with a positive length and a body that
      starts with `{` has one. */
  lemma GetWithJsonParameter(req: Request)
    requires req.verb == "GET" && req.contentTypeParam == Param("JSON") && req.contentType.None?
    ensures req.body == "" ==> !HasBody(req)
    ensures StartsWith(req.body, "{") && req.contentLength.Some? && req.contentLength.value > 0 ==> HasBody(req)
  {
  }
}
