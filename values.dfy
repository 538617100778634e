/**
 * The data that flows through the request pipeline: JSON-like values,
 * translatable texts, the exceptions raised by handlers, and the foreign
 * library functions (JSON encoding/decoding, `str`, message localisation)
 * that the model takes as parameters.
 */
module Values {
  import opened Base

  /** A Python value as the serializers see it. `Object` is any other object
      (a datetime, an empty tuple, say): it carries its own truth value
      (`__nonzero__`/`__len__`), may fail `str`, and may not be JSON. */
  datatype Value =
    | Null
    | Bool(b: bool)
    | Int(i: int)
    | Str(s: string)
    | List(items: seq<Value>)
    | Dict(entries: seq<(string, Value)>)   // `items()` in iteration order
    | Object(repr: string, truthy: bool)

  /** Python truthiness. */
  predicate Truthy(v: Value) {
    match v
    case Null => false
    case Bool(b) => b
    case Int(i) => i != 0
    case Str(s) => s != ""
    case List(items) => items != []
    case Dict(entries) => entries != []
    case Object(_, t) => t
  }

  /** An XML element: tag, optional text, children in document order. */
  datatype Element = Element(tag: string, text: Option<string>, children: seq<Element>)

  /** Library functions the source calls but does not define. */
  datatype Foreign = Foreign(
    dumps: Value -> Result<string, Exc>,          // json.dumps(v), or the exception it raises
    dumpsSanitized: Value -> Result<string, Exc>, // json.dumps(v, default=sanitizer), or its exception
    str: Value -> Option<string>,            // str(v); None when it raises UnicodeEncodeError
    loads: string -> Result<Value, string>,  // json.loads; Failure carries the ValueError text
    localize: (string, string) -> string,    // translation of a message id into a locale
    validTag: string -> bool,                // lxml accepts the string as an element name
    validText: string -> bool,               // lxml accepts the string as element text
    tostring: Element -> string)             // etree.tostring

  /** A text is either a translatable `gettextutils.Message` or a plain string. */
  datatype Text = Message(msgid: string) | Plain(s: string)

  /** `gettextutils.get_localized_message`: a Message becomes its translation,
      any other text is returned as it is. */
  function Localize(t: Text, locale: string, lib: Foreign): (r: Text)
    ensures r.Plain?
    ensures t.Plain? ==> r == t
  {
    match t
    case Message(id) => Plain(lib.localize(id, locale))
    case Plain(_) => t
  }

  datatype PyErrorKind =
    | TypeError
    | AttributeError
    | ValueError
    | KeyError
    | IndexError
    | UnicodeEncodeError
    | OtherError(name: string)

  /** The status codes of webob's `HTTPException` classes: `HTTPOk` (2xx),
      `HTTPRedirection` (3xx) and `HTTPError` (4xx and 5xx). */
  type HttpCode = c: int | 200 <= c < 600 witness 200

  /** An exception object as raised by a handler. HTTP exceptions are webob's
      `HTTPException` family, identified by their status code. */
  datatype Exc =
    | PyError(kind: PyErrorKind, message: Text)
    | HttpException(code: HttpCode, message: Text, explanation: Text, detail: Text)

  /** webob's `HTTPOk` and `HTTPRedirection`: the 2xx and 3xx status classes
      of section 6 of RFC 7231. */
  predicate IsSuccessOrRedirect(code: int) {
    200 <= code < 400
  }

  /** webob's `HTTPError`: the 4xx and 5xx status classes. */
  predicate IsHttpError(code: int) {
    400 <= code < 600
  }

  /** webob's own explanation of a 400, a plain (not translatable) string. */
  const BAD_REQUEST_EXPLANATION: string :=
    "The server could not comply with the request since it is either malformed or otherwise incorrect."

  /** `webob.exc.HTTPBadRequest(detail)`: the argument becomes both the
      exception's message and its detail. */
  function HttpBadRequest(detail: Text): (e: Exc)
    ensures e.HttpException? && e.code == 400 && IsHttpError(e.code)
    ensures e.message == detail && e.detail == detail
    ensures e.explanation.Plain?
  {
    HttpException(400, detail, Plain(BAD_REQUEST_EXPLANATION), detail)
  }

  /** Nothing left to translate in the texts an HTTP error shows. */
  predicate FullyLocalized(e: Exc) {
    && e.message.Plain?
    && (e.HttpException? && IsHttpError(e.code) ==> e.explanation.Plain? && e.detail.Plain?)
  }

  /** `translate_exception`: localise the message; for an HTTP error whose
      explanation is webob's generic one, show the message instead and clear
      the detail, otherwise localise explanation and detail as well. */
  function TranslateException(exc: Exc, locale: string, lib: Foreign): (r: Exc)
    ensures r.PyError? <==> exc.PyError?
    ensures r.PyError? ==> r.kind == exc.kind
    ensures r.HttpException? ==> r.code == exc.code
    ensures r.message == Localize(exc.message, locale, lib)
    ensures FullyLocalized(r)
    ensures exc.HttpException? && IsHttpError(exc.code) && !exc.explanation.Message? ==>
      r.explanation == r.message && r.detail == Plain("")
    ensures exc.HttpException? && IsHttpError(exc.code) && exc.explanation.Message? ==>
      r.explanation == Localize(exc.explanation, locale, lib) && r.detail == Localize(exc.detail, locale, lib)
    ensures exc.HttpException? && !IsHttpError(exc.code) ==>
      r.explanation == exc.explanation && r.detail == exc.detail
  {
    match exc
    case PyError(kind, message) => PyError(kind, Localize(message, locale, lib))
    case HttpException(code, message, explanation, detail) =>
      var localized := Localize(message, locale, lib);
      if !IsHttpError(code) then HttpException(code, localized, explanation, detail)
      else if !explanation.Message? then HttpException(code, localized, localized, Plain(""))
      else HttpException(code, localized, Localize(explanation, locale, lib), Localize(detail, locale, lib))
  }
}
