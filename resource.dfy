/**
 * The dispatch pipeline of `Resource.__call__`: routing arguments become
 * action arguments, the deserializer's, controller's and serializer's
 * handlers are looked up by action name with a `default` fallback, the
 * controller's exceptions are sorted into the four outcomes, and a result
 * that cannot be serialized is handed back as it is. Also `Router._dispatch`,
 * which answers 404 before any Resource runs.
 */
module Resource {
  import opened Base
  import opened Values
  import opened Negotiation
  import opened Xml

  /** `environ['wsgiorg.routing_args'][1]`: the key may be absent, the match
      may be None, or it is the dictionary of matched route values. */
  datatype RoutingArgs = NoRoutingArgs | NoMatch | Matched(args: map<string, Value>)

  /** The response fields the serializers write. */
  datatype Response = Response(contentType: string, body: string)

  /** `webob.Response(request=request)` before a serializer touches it. */
  const FRESH_RESPONSE: Response := Response("text/html", "")

  /** What a controller action returns: data for the serializer, or a
      response object (typically an API exception). Only API exceptions
      offer `get_unserialized_body`. */
  datatype ActionResult =
    | Data(value: Value)
    | ResponseObject(unserializedBody: Option<Value>, response: Response)

  /** A serializer method writes fields of its target and may then raise;
      fields written before the exception stay written. */
  datatype SerializerStep = SerializerStep(target: Response, raised: Option<Exc>)

  type DeserializerAction = Request -> Result<map<string, Value>, Exc>
  type ControllerAction = (Request, map<string, Value>) -> Result<ActionResult, Exc>
  type SerializerAction = (Response, ActionResult) -> SerializerStep

  /** The three roles of a Resource, each an explicit table from action name
      to handler; a `default` entry is the fallback. */
  datatype Resource = Resource(
    controller: map<string, ControllerAction>,
    deserializer: map<string, DeserializerAction>,
    serializer: Option<map<string, SerializerAction>>)

  /** `HTTPExceptionDisguise` marks an HTTP error that must travel through
      the middleware as an exception rather than as a ready response. */
  datatype Raised = Undisguised(exc: Exc) | Disguised(exc: Exc)

  datatype CallOutcome =
    | Responded(response: Response)
    | ReturnedResult(result: ActionResult)
    | Raised(raised: Raised)

  /** `getattr` only accepts a string attribute name. */
  function ActionName(action: Option<Value>): (r: Option<string>)
    ensures r.Some? <==> action.Some? && action.value.Str?
    ensures r.Some? ==> action == Some(Str(r.value))
  {
    match action
    case Some(Str(s)) => Some(s)
    case _ => None
  }

  /** `Resource.dispatch`: the handler named `action`, else `default`. A name
      that is not a string is a TypeError, a missing `default` an AttributeError. */
  function Dispatch<H>(role: map<string, H>, action: Option<string>): (r: Result<H, Exc>)
    ensures r.Success? <==> action.Some? && (action.value in role || "default" in role)
    ensures r.Success? ==> exists k :: k in role && r.value == role[k]
    ensures action.Some? && action.value in role ==> r == Success(role[action.value])
    ensures action.Some? && action.value !in role && "default" in role ==> r == Success(role["default"])
    ensures action.None? ==> r.Failure? && r.error == PyError(TypeError, Plain("attribute name must be string"))
    ensures action.Some? && action.value !in role && "default" !in role ==>
      r.Failure? && r.error == PyError(AttributeError, Plain("default"))
  {
    match action
    case None => Failure(PyError(TypeError, Plain("attribute name must be string")))
    case Some(name) =>
      if name in role then Success(role[name])
      else if "default" in role then Success(role["default"])
      else Failure(PyError(AttributeError, Plain("default")))
  }

  /** `get_action_args`: a copy of the route values without `controller` and
      `format`; `{}` when there are no routing values to copy. */
  method GetActionArgs(routing: RoutingArgs) returns (args: map<string, Value>)
    ensures !routing.Matched? ==> args == map[]
    ensures routing.Matched? ==>
      forall k :: k in args <==> k in routing.args && k != "controller" && k != "format"
    ensures forall k :: k in args ==> routing.Matched? && args[k] == routing.args[k]
  {
    if !routing.Matched? {
      return map[];
    }
    args := routing.args;
    args := args - {"controller"};
    args := args - {"format"};
  }

  /** `action_args = get_action_args(...)` then `action_args.pop('action', None)`:
      the action name, and the route values left for the controller. */
  method PopAction(routing: RoutingArgs) returns (name: Option<string>, args: map<string, Value>)
    ensures name == RouteAction(routing)
    ensures args == RouteActionArgs(routing)
  {
    args := GetActionArgs(routing);
    var action: Option<Value> := None;
    if "action" in args {
      action := Some(args["action"]);
      args := args - {"action"};
    }
    name := ActionName(action);
  }

  /** The route values a controller receives before the deserializer's are merged in. */
  function RouteActionArgs(routing: RoutingArgs): map<string, Value> {
    if routing.Matched? then routing.args - {"controller", "format", "action"} else map[]
  }

  /** The names `dispatch(self, obj, action, *args, **kwargs)` binds itself:
      a keyword argument spelled like one of them is a second value for it. */
  const DISPATCH_PARAMETERS: set<string> := {"self", "obj", "action"}

  /** Calling `dispatch` with these keyword arguments raises TypeError. */
  predicate BindsTwice(kwargs: map<string, Value>) {
    kwargs.Keys * DISPATCH_PARAMETERS != {}
  }

  const MULTIPLE_VALUES: Exc := PyError(TypeError, Plain("dispatch() got multiple values for keyword argument"))

  /** `action_args.update(deserialized)`: the route values without controller,
      format and action, overridden by the keys the deserializer returned. */
  function MergedArgs(routing: RoutingArgs, deserialized: map<string, Value>): (m: map<string, Value>)
    ensures forall k :: k in deserialized ==> k in m && m[k] == deserialized[k]
    ensures forall k :: k in m && k !in deserialized ==>
      routing.Matched? && k in routing.args && k != "controller" && k != "format" && k != "action" &&
      m[k] == routing.args[k]
    ensures routing.Matched? ==>
      forall k :: k in routing.args && k != "controller" && k != "format" && k != "action" ==> k in m
  {
    RouteActionArgs(routing) + deserialized
  }

  /** The action name of a routed request. */
  function RouteAction(routing: RoutingArgs): Option<string> {
    if routing.Matched? && "action" in routing.args then ActionName(Some(routing.args["action"]))
    else None
  }

  /** The `ContentType` query value as `__call__` reads it. */
  function ContentTypeParam(req: Request): Option<string> {
    if req.contentTypeParam.Param? then Some(req.contentTypeParam.value) else None
  }

  /** The message of the 400 a TypeError from the controller becomes. */
  const MALFORMED_REQUEST: string :=
    "The server could not comply with the request since\r\nit is either malformed or otherwise incorrect.\r\n"

  /** The `except` ladder around the controller call. */
  function ControllerFailure(e: Exc, locale: string, lib: Foreign): (r: Raised)
    ensures r.Disguised? <==>
      (e.PyError? && e.kind == TypeError) || (e.HttpException? && !IsSuccessOrRedirect(e.code))
    ensures r.Disguised? ==> r.exc.HttpException? && IsHttpError(r.exc.code) && FullyLocalized(r.exc)
    ensures e.PyError? && e.kind == TypeError ==>
      r == Disguised(TranslateException(HttpBadRequest(Message(MALFORMED_REQUEST)), locale, lib)) &&
      r.exc.code == 400
    ensures e.HttpException? && IsSuccessOrRedirect(e.code) ==> r == Undisguised(e)
    ensures e.HttpException? && !IsSuccessOrRedirect(e.code) ==> r == Disguised(TranslateException(e, locale, lib))
    ensures e.PyError? && e.kind != TypeError ==>
      r == Undisguised(TranslateException(e, locale, lib)) && r.exc.PyError? && r.exc.kind == e.kind
  {
    match e
    case PyError(TypeError, _) =>
      Disguised(TranslateException(HttpBadRequest(Message(MALFORMED_REQUEST)), locale, lib))
    case HttpException(code, _, _, _) =>
      if IsSuccessOrRedirect(code) then Undisguised(e)
      else Disguised(TranslateException(e, locale, lib))
    case PyError(_, _) => Undisguised(TranslateException(e, locale, lib))
  }

  /** The exception `json.dumps(obj, default=sanitizer)` raises on an object
      the sanitizer hands back unchanged. */
  const CIRCULAR: Exc := PyError(ValueError, Plain("Circular reference detected"))

  /** `JSONResponseSerializer.default(target, result)`: the JSON content type
      is set first, so it stays set when encoding the body then raises; the
      body is written only when the result is data that encodes, and otherwise
      the exception of `json.dumps` escapes. A response object is not JSON
      data: the sanitizer returns it as it is, which `json.dumps` reports as a
      circular reference. */
  function JsonDefaultStep(lib: Foreign, target: Response, result: ActionResult): (s: SerializerStep)
    ensures s.target.contentType == "application/json"
    ensures s.raised.None? <==> result.Data? && lib.dumpsSanitized(result.value).Success?
    ensures s.raised.None? ==> s.target.body == lib.dumpsSanitized(result.value).value
    ensures s.raised.Some? ==> s.target.body == target.body
    ensures result.Data? && s.raised.Some? ==> s.raised == Some(lib.dumpsSanitized(result.value).error)
    ensures result.ResponseObject? ==> s.raised == Some(CIRCULAR)
  {
    var typed := target.(contentType := "application/json");
    match result
    case Data(v) =>
      (match lib.dumpsSanitized(v)
       case Success(text) => SerializerStep(typed.(body := text), None)
       case Failure(e) => SerializerStep(typed, Some(e)))
    case ResponseObject(_, _) => SerializerStep(typed, Some(CIRCULAR))
  }

  /** `XMLResponseSerializer.default(target, result)`: the XML content type is
      set first; the body is the serialized tree of `to_xml` when the result
      is data the encoder accepts, and otherwise `to_xml` raises what the
      encoder raised and the body is left alone. A response object has no
      `keys`. */
  function XmlDefaultStep(lib: Foreign, target: Response, result: ActionResult): (s: SerializerStep)
    ensures s.target.contentType == "application/xml"
    ensures s.raised.None? <==>
      && result.Data? && result.value.Dict? && result.value.entries != []
      && lib.validTag(result.value.entries[0].0) && Encodable(result.value.entries[0].1, lib)
    ensures s.raised.None? ==>
      exists tree :: ToXmlTree(result.value, lib) == Success(tree) && tree.tag == result.value.entries[0].0 &&
        s.target.body == lib.tostring(tree)
    ensures s.raised.Some? ==> s.target.body == target.body
    ensures result.ResponseObject? ==> s.raised == Some(PyError(AttributeError, Plain("keys")))
    ensures result.Data? && s.raised.Some? ==> s.raised == Some(ToXmlTree(result.value, lib).error)
  {
    var typed := target.(contentType := "application/xml");
    match result
    case Data(v) =>
      (match ToXmlTree(v, lib)
       case Success(tree) => SerializerStep(typed.(body := lib.tostring(tree)), None)
       case Failure(e) => SerializerStep(typed, Some(e)))
    case ResponseObject(_, _) => SerializerStep(typed, Some(PyError(AttributeError, Plain("keys"))))
  }

  /** The bound `default` method of a built-in serializer. */
  function JsonDefault(lib: Foreign): SerializerAction {
    (target: Response, result: ActionResult) => JsonDefaultStep(lib, target, result)
  }

  function XmlDefault(lib: Foreign): SerializerAction {
    (target: Response, result: ActionResult) => XmlDefaultStep(lib, target, result)
  }

  /** The table of a serializer choice. */
  function SerializerTable(choice: SerializerChoice<map<string, SerializerAction>>, lib: Foreign): map<string, SerializerAction> {
    match choice
    case Supplied(table) => table
    case JsonSerializer => map["default" := JsonDefault(lib)]
    case XmlSerializer => map["default" := XmlDefault(lib)]
  }

  /** `Resource.__call__`. `controllerArgs` are the keyword arguments the
      controller action was called with, when it was called. */
  method Call(resource: Resource, request: Request, routing: RoutingArgs, lib: Foreign)
    returns (outcome: CallOutcome, controllerArgs: Option<map<string, Value>>)
    // unreadable query parameters fail before any handler runs
    ensures request.contentTypeParam.ParamsUnreadable? ==>
      outcome == Raised(Undisguised(request.contentTypeParam.error)) && controllerArgs.None?
    // a missing or non-string action fails at the deserializer lookup, untranslated
    ensures !request.contentTypeParam.ParamsUnreadable? && RouteAction(routing).None? ==>
      outcome == Raised(Undisguised(PyError(TypeError, Plain("attribute name must be string")))) &&
      controllerArgs.None?
    // the deserializer's lookup failure and its own exceptions propagate untranslated
    ensures !request.contentTypeParam.ParamsUnreadable? ==>
      var d := Dispatch(resource.deserializer, RouteAction(routing));
      && (d.Failure? ==> outcome == Raised(Undisguised(d.error)) && controllerArgs.None?)
      && (d.Success? && d.value(request).Failure? ==>
            outcome == Raised(Undisguised(d.value(request).error)) && controllerArgs.None?)
    // merged arguments named `self`, `obj` or `action` (a route variable, or a
    // key of the deserializer's dict) make the call of `dispatch` itself raise
    // TypeError, before the controller is looked up
    ensures !request.contentTypeParam.ParamsUnreadable? ==>
      var d := Dispatch(resource.deserializer, RouteAction(routing));
      d.Success? && d.value(request).Success? && BindsTwice(MergedArgs(routing, d.value(request).value)) ==>
        outcome == Raised(ControllerFailure(MULTIPLE_VALUES, request.locale, lib)) && controllerArgs.None?
    // otherwise a controller without the action or a default goes through the
    // except ladder; with one, it is called
    ensures !request.contentTypeParam.ParamsUnreadable? ==>
      var d := Dispatch(resource.deserializer, RouteAction(routing));
      var c := Dispatch(resource.controller, RouteAction(routing));
      d.Success? && d.value(request).Success? && !BindsTwice(MergedArgs(routing, d.value(request).value)) ==>
        && (c.Failure? ==> outcome == Raised(ControllerFailure(c.error, request.locale, lib)) && controllerArgs.None?)
        && (c.Success? ==> controllerArgs.Some?)
    // the controller gets the route values minus controller/format/action,
    // overridden by whatever the deserializer returned
    ensures controllerArgs.Some? ==>
      var d := Dispatch(resource.deserializer, RouteAction(routing));
      && d.Success? && d.value(request).Success?
      && controllerArgs.value == MergedArgs(routing, d.value(request).value)
      && !BindsTwice(controllerArgs.value)
    // the controller's exceptions are sorted by the except ladder
    ensures controllerArgs.Some? ==>
      var c := Dispatch(resource.controller, RouteAction(routing));
      && c.Success?
      && (c.value(request, controllerArgs.value).Failure? ==>
            outcome == Raised(ControllerFailure(c.value(request, controllerArgs.value).error, request.locale, lib)))
      && (c.value(request, controllerArgs.value).Success? ==> !outcome.Raised?)
    // a result is a response iff the serializer's handler exists and does not
    // raise, and the response is what that handler wrote; otherwise the result
    // is handed back as `UnserializedResult` describes
    ensures controllerArgs.Some? ==>
      var c := Dispatch(resource.controller, RouteAction(routing));
      c.Success? && c.value(request, controllerArgs.value).Success? ==>
        var res := c.value(request, controllerArgs.value).value;
        var table := SerializerTable(ChooseSerializer(resource.serializer, ContentTypeParam(request)), lib);
        var s := Dispatch(table, RouteAction(routing));
        && (outcome.Responded? <==> s.Success? && s.value(FRESH_RESPONSE, res).raised.None?)
        && (outcome.Responded? ==> outcome.response == s.value(FRESH_RESPONSE, res).target)
        && (!outcome.Responded? ==> outcome == ReturnedResult(UnserializedResult(ContentTypeParam(request), table, res)))
    // every disguised exception is a translated 4xx/5xx
    ensures outcome.Raised? && outcome.raised.Disguised? ==>
      outcome.raised.exc.HttpException? && IsHttpError(outcome.raised.exc.code) &&
      FullyLocalized(outcome.raised.exc)
    // without a supplied serializer the response is XML unless ContentType is exactly JSON
    ensures outcome.Responded? && resource.serializer.None? ==>
      outcome.response.contentType ==
        (if ContentTypeParam(request) == Some("JSON") then "application/json" else "application/xml")
    // an unserializable result is returned itself; only a JSON request may
    // have its error body re-serialized into it
    ensures outcome.ReturnedResult? ==>
      var c := Dispatch(resource.controller, RouteAction(routing));
      && controllerArgs.Some? && c.Success? && c.value(request, controllerArgs.value).Success?
      && (ContentTypeParam(request) != Some("JSON") ==> outcome.result == c.value(request, controllerArgs.value).value)
      && (outcome.result.Data? ==> outcome.result == c.value(request, controllerArgs.value).value)
  {
    var name, actionArgs := PopAction(routing);
    var contentType: Option<string>;
    match request.contentTypeParam {
      case Param(v) => contentType := Some(v);
      case NoParam => contentType := None;
      case ParamsUnreadable(e) => return Raised(Undisguised(e)), None;
    }

    var deserializer := Dispatch(resource.deserializer, name);
    if deserializer.Failure? {
      return Raised(Undisguised(deserializer.error)), None;
    }
    var deserialized := deserializer.value(request);
    if deserialized.Failure? {
      return Raised(Undisguised(deserialized.error)), None;
    }
    actionArgs := actionArgs + deserialized.value;
    assert contentType == ContentTypeParam(request);
    var called;
    outcome, called := CallController(resource, request, name, contentType, actionArgs, lib);
    controllerArgs := if called then Some(actionArgs) else None;
  }

  /** The first `try` of `__call__` and what follows it: `dispatch` of the
      controller with the merged keyword arguments `kwargs`, the except
      ladder, then `Serialize`. `called` tells whether the controller action
      ran. */
  method CallController(resource: Resource, request: Request, name: Option<string>, contentType: Option<string>,
                        kwargs: map<string, Value>, lib: Foreign)
    returns (outcome: CallOutcome, called: bool)
    // a keyword named like a parameter of `dispatch` is a TypeError of the call itself
    ensures BindsTwice(kwargs) ==>
      outcome == Raised(ControllerFailure(MULTIPLE_VALUES, request.locale, lib)) && !called
    ensures !BindsTwice(kwargs) ==>
      var c := Dispatch(resource.controller, name);
      && (c.Failure? ==> outcome == Raised(ControllerFailure(c.error, request.locale, lib)) && !called)
      && (c.Success? ==> called)
    ensures called ==>
      var c := Dispatch(resource.controller, name);
      && !BindsTwice(kwargs) && c.Success?
      && (c.value(request, kwargs).Failure? ==>
            outcome == Raised(ControllerFailure(c.value(request, kwargs).error, request.locale, lib)))
      && (c.value(request, kwargs).Success? ==>
            var res := c.value(request, kwargs).value;
            var table := SerializerTable(ChooseSerializer(resource.serializer, contentType), lib);
            var s := Dispatch(table, name);
            && (outcome.Responded? <==> s.Success? && s.value(FRESH_RESPONSE, res).raised.None?)
            && (outcome.Responded? ==> outcome.response == s.value(FRESH_RESPONSE, res).target)
            && (!outcome.Responded? ==> outcome == ReturnedResult(UnserializedResult(contentType, table, res))))
    ensures outcome.Raised? ==> outcome.raised.Disguised? ==>
      outcome.raised.exc.HttpException? && IsHttpError(outcome.raised.exc.code) &&
      FullyLocalized(outcome.raised.exc)
    ensures !outcome.Raised? ==>
      var c := Dispatch(resource.controller, name);
      called && c.Success? && c.value(request, kwargs).Success?
  {
    if BindsTwice(kwargs) {
      return Raised(ControllerFailure(MULTIPLE_VALUES, request.locale, lib)), false;
    }
    var controller := Dispatch(resource.controller, name);
    if controller.Failure? {
      // only an AttributeError can come from this lookup
      return Raised(ControllerFailure(controller.error, request.locale, lib)), false;
    }
    var actionResult := controller.value(request, kwargs);
    if actionResult.Failure? {
      return Raised(ControllerFailure(actionResult.error, request.locale, lib)), true;
    }
    var serializer := SerializerTable(ChooseSerializer(resource.serializer, contentType), lib);
    outcome := Serialize(serializer, name, contentType, actionResult.value);
    called := true;
  }

  /** The second `try` of `__call__`: the chosen serializer's handler writes a
      fresh response; when there is none or it raises, the result is handed
      back, for a JSON request with the API exception's error body serialized
      into it first. */
  method Serialize(table: map<string, SerializerAction>, name: Option<string>, contentType: Option<string>,
                   result: ActionResult)
    returns (outcome: CallOutcome)
    ensures !outcome.Raised?
    ensures var s := Dispatch(table, name);
      && (outcome.Responded? <==> s.Success? && s.value(FRESH_RESPONSE, result).raised.None?)
      && (outcome.Responded? ==> outcome.response == s.value(FRESH_RESPONSE, result).target)
      && (!outcome.Responded? ==> outcome == ReturnedResult(UnserializedResult(contentType, table, result)))
  {
    var serialize := Dispatch(table, name);
    if serialize.Success? {
      var step := serialize.value(FRESH_RESPONSE, result);
      if step.raised.None? {
        return Responded(step.target);
      }
    }
    var handedBack := result;
    if contentType == Some("JSON") && result.ResponseObject? && result.unserializedBody.Some? && "default" in table {
      var step := table["default"](result.response, Data(result.unserializedBody.value));
      handedBack := result.(response := step.target);
    }
    outcome := ReturnedResult(handedBack);
  }

  /** The `except Exception` branch of `__call__`: the result is handed back
      as it is, except that for a JSON request an API exception's response
      first receives what the `default` serializer writes for its
      unserialized error body (whether or not that then raises). */
  function UnserializedResult(contentType: Option<string>, table: map<string, SerializerAction>, result: ActionResult): (r: ActionResult)
    ensures r.Data? <==> result.Data?
    ensures r.Data? ==> r == result
    ensures r.ResponseObject? ==> r.unserializedBody == result.unserializedBody
    ensures contentType != Some("JSON") || "default" !in table || result.Data? || result.unserializedBody.None? ==>
      r == result
    ensures contentType == Some("JSON") && "default" in table && result.ResponseObject? && result.unserializedBody.Some? ==>
      r.response == table["default"](result.response, Data(result.unserializedBody.value)).target
  {
    if contentType == Some("JSON") && result.ResponseObject? && result.unserializedBody.Some? && "default" in table then
      result.(response := table["default"](result.response, Data(result.unserializedBody.value)).target)
    else result
  }

  /** What `Router._dispatch` does with a routed request. */
  datatype RouteDecision = NotFound | RouteTo(app: Value) | RouteFailed(error: Exc)

  /** `Router._dispatch`: no match, or an empty one, is a 404 before any
      Resource is called; otherwise the matched `controller` application. */
  function RouterDispatch(routing: RoutingArgs): (r: RouteDecision)
    ensures r.NotFound? <==> routing.NoMatch? || (routing.Matched? && routing.args == map[])
    ensures r.RouteTo? <==> routing.Matched? && "controller" in routing.args
    ensures r.RouteTo? ==> r.app == routing.args["controller"]
    ensures r.RouteFailed? ==> r.error.PyError? && r.error.kind == KeyError
    ensures routing.NoRoutingArgs? ==> r == RouteFailed(PyError(KeyError, Plain("wsgiorg.routing_args")))
    ensures routing.Matched? && routing.args != map[] && "controller" !in routing.args ==>
      r == RouteFailed(PyError(KeyError, Plain("controller")))
  {
    match routing
    case NoRoutingArgs => RouteFailed(PyError(KeyError, Plain("wsgiorg.routing_args")))
    case NoMatch => NotFound
    case Matched(m) =>
      if m == map[] then NotFound
      else if "controller" in m then RouteTo(m["controller"])
      else RouteFailed(PyError(KeyError, Plain("controller")))
  }
}
