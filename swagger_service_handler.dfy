/** SwaggerServiceHandler: the route handler built for one OpenAPI operation. The
    operationId names a controller class and one of its methods; each request binds
    every parameter of that method from the routing context, calls it under a time
    limit, and writes what it returns (or the exception it throws) as the response.
    Reflection and dependency injection are replaced by a registry from controller
    class names to their methods. */
module SwaggerServiceHandler {
  import opened Json
  import opened Wrappers
  import opened KotlinText
  import opened Responses
  import opened Binding

  /** A controller method: its parameters and the length of its `@Timeout`, if any. */
  datatype ServiceMethod = ServiceMethod(params: seq<KParam>, timeoutAnnotation: Option<int>)

  /** Controller classes of the controller package, by simple name, with their members by name. */
  type Registry = map<string, map<string, ServiceMethod>>

  /** The time limit of a method without `@Timeout`, in milliseconds. */
  const DefaultTimeout: int := 30000

  /** The handler `createServiceHandlers` returns, with what it captured. */
  datatype ServiceHandlerDef = ServiceHandlerDef(
    opId: string,
    controller: string,
    methodName: string,
    params: seq<KParam>,
    timeout: int,
    swaggerParams: Option<seq<SwaggerParam>>)

  /** A Java class name as `Class.forName` resolves it: a non-empty name starting with a
      Java identifier letter. */
  predicate ClassName(s: string)
  {
    s != [] && (('A' <= s[0] <= 'Z') || ('a' <= s[0] <= 'z') || s[0] == '_' || s[0] == '$')
  }

  predicate WellFormed(registry: Registry)
  {
    forall name :: name in registry ==> ClassName(name)
  }

  /** `createServiceHandlers`: the operationId destructured into its first two
      '.'-separated parts (fewer than two throw), the controller class looked up by the
      first, its first member named by the second (none throws), and one handler whose
      time limit is the method's `@Timeout` or 30000 ms. */
  function CreateServiceHandlers(swaggerParams: Option<seq<SwaggerParam>>, opId: string, registry: Registry)
    : (r: Result<seq<ServiceHandlerDef>, Failure>)
    ensures |Split(opId, '.')| < 2 ==> r == Err(Thrown(IndexOutOfBounds, None))
    ensures |Split(opId, '.')| >= 2 && Split(opId, '.')[0] !in registry ==> r == Err(Thrown(ClassNotFound, None))
    ensures |Split(opId, '.')| >= 2 && Split(opId, '.')[0] in registry && Split(opId, '.')[1] !in registry[Split(opId, '.')[0]] ==>
      r == Err(Thrown(Runtime, Some("Unable to parse operation " + opId)))
    ensures r.Ok? ==> |r.value| == 1
    ensures r.Ok? ==> var h := r.value[0];
      h.opId == opId && h.swaggerParams == swaggerParams &&
      h.controller == Split(opId, '.')[0] && h.methodName == Split(opId, '.')[1] &&
      h.controller in registry && h.methodName in registry[h.controller] &&
      h.params == registry[h.controller][h.methodName].params &&
      h.timeout == registry[h.controller][h.methodName].timeoutAnnotation.GetOr(DefaultTimeout)
  {
    var parts := Split(opId, '.');
    if |parts| < 2 then Err(Thrown(IndexOutOfBounds, None))
    else
      var controllerName := parts[0];
      var methodName := parts[1];
      if controllerName !in registry then Err(Thrown(ClassNotFound, None))
      else if methodName !in registry[controllerName] then
        Err(Thrown(Runtime, Some("Unable to parse operation " + opId)))
      else
        var m := registry[controllerName][methodName];
        Ok([ServiceHandlerDef(opId, controllerName, methodName, m.params, m.timeoutAnnotation.GetOr(DefaultTimeout), swaggerParams)])
  }

  /** An operationId `Controller.member...` whose controller has that member gets its
      handler; the rest of the id after the second part is ignored. */
  lemma CreateFromOperationId(controller: string, member: string, tail: string,
                              swaggerParams: Option<seq<SwaggerParam>>, registry: Registry)
    requires '.' !in controller && '.' !in member
    requires tail == [] || tail[0] == '.'
    requires controller in registry && member in registry[controller]
    ensures CreateServiceHandlers(swaggerParams, controller + "." + member + tail, registry) ==
      Ok([ServiceHandlerDef(controller + "." + member + tail, controller, member, registry[controller][member].params,
                            registry[controller][member].timeoutAnnotation.GetOr(DefaultTimeout), swaggerParams)])
  {
    var id := controller + "." + member + tail;
    SplitFirstTwo(controller, member, tail, '.');
    var parts := Split(id, '.');
    assert |parts| >= 2 && parts[0] == controller && parts[1] == member;
  }

  // ---------------------------------------------------------------------------
  // Binding: every parameter gets an entry

  /** `injectBody`: the shared `@Body` binding, with null for a parameter of any other type. */
  function InjectBody(p: KParam, body: RequestBody): (r: Result<Arg, Failure>)
    requires p.body.Some?
    ensures !IsNotBlank(p.body.value) && !(p.ptype in {JsonObjectType, JsonArrayType, StringType}) ==> r == Ok(NullArg)
    ensures BodyArg(p, body).Err? <==> r.Err?
    ensures r.Err? ==> r.error == BodyArg(p, body).error
    ensures r.Ok? && BodyArg(p, body).value.Some? ==> r.value == BodyArg(p, body).value.value
    ensures !IsNotBlank(p.body.value) && p.ptype == JsonObjectType && body.asObject.Parsed? ==>
      r == Ok(JsonArg(JObj(body.asObject.value)))
    ensures !IsNotBlank(p.body.value) && p.ptype == JsonArrayType && body.asArray.Parsed? ==>
      r == Ok(JsonArg(JArr(body.asArray.value)))
  {
    match BodyArg(p, body)
    case Err(e) => Err(e)
    case Ok(None) => Ok(NullArg)
    case Ok(Some(a)) => Ok(a)
  }

  /** `injectParams`: null unless an OpenAPI parameter of the same name is declared in
      the path or the query; a path value is parsed, a query parameter is the whole list
      for a List parameter, else its first value parsed, else null. */
  function InjectParams(p: KParam, req: Request, sps: Option<seq<SwaggerParam>>): (r: Result<Arg, Failure>)
    ensures FindSwaggerParam(sps, p.name).None? ==> r == Ok(NullArg)
    ensures FindSwaggerParam(sps, p.name).Some? && !(FindSwaggerParam(sps, p.name).value.location in {"path", "query"}) ==>
      r == Ok(NullArg)
    ensures FindSwaggerParam(sps, p.name).Some? && FindSwaggerParam(sps, p.name).value.location == "path" ==>
      r == PathArg(p, req)
    ensures FindSwaggerParam(sps, p.name).Some? && FindSwaggerParam(sps, p.name).value.location == "query" ==>
      r == match QueryArg(p, req)
           case Err(e) => Err(e)
           case Ok(None) => Ok(NullArg)
           case Ok(Some(a)) => Ok(a)
  {
    match FindSwaggerParam(sps, p.name)
    case None => Ok(NullArg)
    case Some(sp) =>
      if sp.location == "path" then PathArg(p, req)
      else if sp.location == "query" then
        match QueryArg(p, req)
        case Err(e) => Err(e)
        case Ok(None) => Ok(NullArg)
        case Ok(Some(a)) => Ok(a)
      else Ok(NullArg)
  }

  /** The value `callWithParams` puts in the map for one parameter: the controller for the
      instance parameter, the context for a RoutingContext, the body for `@Body`, and
      otherwise the path or query value. */
  function ServiceArg(p: KParam, req: Request, sps: Option<seq<SwaggerParam>>): (r: Result<Arg, Failure>)
    ensures p.kind == Instance ==> r == Ok(Controller)
    ensures p.kind != Instance && p.ptype == RoutingContextType ==> r == Ok(Context)
    ensures p.kind != Instance && p.ptype != RoutingContextType && p.body.Some? ==> r == InjectBody(p, req.body)
    ensures p.kind != Instance && p.ptype != RoutingContextType && p.body.None? ==> r == InjectParams(p, req, sps)
  {
    if p.kind == Instance then Ok(Controller)
    else if p.ptype == RoutingContextType then Ok(Context)
    else if p.body.Some? then InjectBody(p, req.body)
    else InjectParams(p, req, sps)
  }

  function Always(r: Result<Arg, Failure>): Result<Option<Arg>, Failure>
  {
    match r
    case Err(e) => Err(e)
    case Ok(a) => Ok(Some(a))
  }

  function Bindings(ps: seq<KParam>, req: Request, sps: Option<seq<SwaggerParam>>): (rs: seq<Result<Option<Arg>, Failure>>)
    ensures |rs| == |ps|
    ensures forall i :: 0 <= i < |ps| ==> rs[i] == Always(ServiceArg(ps[i], req, sps))
  {
    seq(|ps|, i requires 0 <= i < |ps| => Always(ServiceArg(ps[i], req, sps)))
  }

  /** The argument map `callWithParams` hands to `callSuspendBy`, or the first exception. */
  function ServiceArgs(ps: seq<KParam>, req: Request, sps: Option<seq<SwaggerParam>>): Result<map<nat, Arg>, Failure>
  {
    Collect(Bindings(ps, req, sps), |ps|)
  }

  /** `callWithParams`' `forEach`: each parameter in turn gets its entry. */
  method CallWithParams(ps: seq<KParam>, req: Request, sps: Option<seq<SwaggerParam>>) returns (r: Result<map<nat, Arg>, Failure>)
    ensures r == ServiceArgs(ps, req, sps)
  {
    ghost var rs := Bindings(ps, req, sps);
    var params: map<nat, Arg> := map[];
    var n := 0;
    while n < |ps|
      invariant 0 <= n <= |ps|
      invariant Collect(rs, n) == Ok(params)
    {
      var p := ps[n];
      var a: Result<Arg, Failure>;
      if p.kind == Instance {
        a := Ok(Controller);
      } else if p.ptype == RoutingContextType {
        a := Ok(Context);
      } else if p.body.Some? {
        a := InjectBody(p, req.body);
      } else {
        a := InjectParams(p, req, sps);
      }
      assert rs[n] == Always(a);
      if a.Err? {
        CollectStops(rs, n + 1, |ps|);
        return Err(a.error);
      }
      params := params[n := a.value];
      n := n + 1;
    }
    r := Ok(params);
  }

  /** Unlike SwaggerRouter, binding never leaves a parameter out: when it succeeds, every
      parameter has an entry, and it is that parameter's own binding. Binding fails
      exactly when some parameter's binding throws, with the first such exception. */
  lemma {:induction false} EveryParameterBound(ps: seq<KParam>, req: Request, sps: Option<seq<SwaggerParam>>)
    ensures ServiceArgs(ps, req, sps).Ok? <==> forall i :: 0 <= i < |ps| ==> ServiceArg(ps[i], req, sps).Ok?
    ensures ServiceArgs(ps, req, sps).Ok? ==>
      (forall i :: i in ServiceArgs(ps, req, sps).value <==> 0 <= i < |ps|) &&
      (forall i :: 0 <= i < |ps| ==> ServiceArgs(ps, req, sps).value[i] == ServiceArg(ps[i], req, sps).value)
    ensures ServiceArgs(ps, req, sps).Err? ==>
      exists k :: 0 <= k < |ps| && ServiceArg(ps[k], req, sps) == Err(ServiceArgs(ps, req, sps).error) &&
        forall i :: 0 <= i < k ==> ServiceArg(ps[i], req, sps).Ok?
  {
    var rs := Bindings(ps, req, sps);
    CollectSpec(rs, |ps|);
    var r := ServiceArgs(ps, req, sps);
    if r.Ok? {
      forall i | 0 <= i < |ps|
        ensures i in r.value && r.value[i] == ServiceArg(ps[i], req, sps).value
      {
        assert rs[i] == Always(ServiceArg(ps[i], req, sps));
      }
    } else {
      var k :| 0 <= k < |ps| && rs[k] == Err(r.error) && (forall i :: 0 <= i < k ==> rs[i].Ok?);
      assert rs[k] == Always(ServiceArg(ps[k], req, sps));
      forall i | 0 <= i < k
        ensures ServiceArg(ps[i], req, sps).Ok?
      {
        assert rs[i] == Always(ServiceArg(ps[i], req, sps));
      }
    }
  }

  /** A value parameter the OpenAPI operation does not declare is passed null, even
      when it has a default value. */
  lemma UndeclaredParameterIsNull(p: KParam, req: Request, sps: Option<seq<SwaggerParam>>)
    requires p.kind == ValueParam && p.ptype != RoutingContextType && p.body.None?
    requires FindSwaggerParam(sps, p.name).None?
    ensures ServiceArg(p, req, sps) == Ok(NullArg)
  {
  }

  // ---------------------------------------------------------------------------
  // Responses

  /** `handleResponse` of SwaggerServiceHandler: a ClusterSerializable is written as
      JSON; anything else but Unit by its toString() -- a Single is not subscribed to,
      so what is written is the Single object's own text; Unit ends the response with no
      body. Something is always written, with status 200. */
  function HandleResponse(v: Value): (r: Reply)
    ensures r.status == DefaultStatus
    ensures r.jsonContentType <==> v.Serializable?
    ensures v.Serializable? ==> r.body == Encoded(v.json)
    ensures v.UnitValue? <==> r.body == Empty
    ensures v.SingleOk? ==> r.body == Text(v.printed)
    ensures v.SingleError? ==> r.body == Text(v.printed)
    ensures v.Plain? ==> r.body == Text(v.text)
    ensures v.NullValue? ==> r.body == Text("null")
  {
    match v
    case Serializable(j) => Reply(DefaultStatus, true, Encoded(j))
    case UnitValue => Reply(DefaultStatus, false, Empty)
    case SingleOk(_, printed) => Reply(DefaultStatus, false, Text(printed))
    case SingleError(_, printed) => Reply(DefaultStatus, false, Text(printed))
    case Plain(text) => Reply(DefaultStatus, false, Text(text))
    case NullValue => Reply(DefaultStatus, false, Text("null"))
  }

  /** The two `handleResponse` versions agree on JSON values, null and plain objects;
      they differ on Unit (an empty response here, nothing written by the shared one)
      and on a Single (its text here, its outcome there). */
  lemma HandleResponseVersions(v: Value, contextStatus: int)
    ensures v.Serializable? || v.NullValue? || v.Plain? ==>
      Responses.HandleResponse(contextStatus, v) == Some(HandleResponse(v))
    ensures v.UnitValue? ==> Responses.HandleResponse(contextStatus, v).None? && HandleResponse(v).body == Empty
    ensures v.SingleOk? && v.inner.Serializable? ==>
      Responses.HandleResponse(contextStatus, v) == Some(Reply(DefaultStatus, true, Encoded(v.inner.json))) &&
      !HandleResponse(v).jsonContentType
  {
  }

  /** `createFailureHandlers`: the failure handler replies with the context's failure; a
      null failure throws before anything is written. */
  function FailureReply(contextStatus: int, failure: Option<Failure>): (r: Option<Reply>)
    ensures failure.None? ==> r.None?
    ensures failure.Some? && failure.value.ResponseCode? ==>
      r == Some(Reply(StatusOf(failure.value.kind), true, ErrorJson(failure.value.kind, failure.value.message, failure.value.data)))
    ensures failure.Some? && failure.value.Thrown? ==>
      r == Some(Reply(FallbackStatus(contextStatus), false, Text(failure.value.text.GetOr(""))))
  {
    ReplyWithError(contextStatus, failure)
  }

  // ---------------------------------------------------------------------------
  // The time limit

  /** The TimeoutException the handler means to reply with: its message, and the
      operationId as its data. */
  function TimeoutFailure(opId: string): (f: Failure)
    ensures f.ResponseCode? && f.kind == TimedOut && f.data == [JStr(opId)]
  {
    ResponseCode(TimedOut, Some("Timed out waiting for response"), [JStr(opId)])
  }

  /** The reply on timeout, with the operationId as a one-element JSON array. */
  function TimeoutReply(opId: string): (r: Option<Reply>)
    ensures r == Some(Reply(504, true, ErrorJson(TimedOut, Some("Timed out waiting for response"), [JStr(opId)])))
  {
    ReplyWithError(NoStatus, Some(TimeoutFailure(opId)))
  }

  /** The timeout branch as written: the TimeoutException is built with `JsonArray(opId)`;
      when that throws, the exception leaves the catch block and the coroutine, and
      nothing is written (None); when the operationId decodes as a JSON array, the 504
      carries its elements. */
  function TimeoutReplyAsWritten(opId: string, decode: string -> Option<seq<Json>>): (r: Option<Reply>)
    ensures DecodeArrayText(opId, decode).Err? ==> r.None?
    ensures CannotStartArray(opId) ==> r.None?
    ensures DecodeArrayText(opId, decode).Ok? ==>
      r == Some(Reply(504, true, ErrorJson(TimedOut, Some("Timed out waiting for response"), DecodeArrayText(opId, decode).value)))
  {
    match DecodeArrayText(opId, decode)
    case Err(_) => None
    case Ok(data) => ReplyWithError(NoStatus, Some(ResponseCode(TimedOut, Some("Timed out waiting for response"), data)))
  }

  /** For every handler `createServiceHandlers` can build, the timeout branch as written
      writes no response, whatever the JSON decoder, where the evident intent is a 504
      carrying the operationId. */
  lemma TimeoutNeverReplied(swaggerParams: Option<seq<SwaggerParam>>, opId: string, registry: Registry,
                            decode: string -> Option<seq<Json>>)
    requires WellFormed(registry)
    requires CreateServiceHandlers(swaggerParams, opId, registry).Ok?
    ensures opId != [] && ClassName(opId)
    ensures TimeoutReplyAsWritten(opId, decode).None?
    ensures TimeoutReply(opId).Some? && TimeoutReply(opId).value.status == 504
  {
    var parts := Split(opId, '.');
    var c := parts[0];
    assert ClassName(c);
    SplitPrefix(opId, '.');
    assert opId[0] == c[0];
  }

  /** The first part of a split is a prefix of the text. */
  lemma SplitPrefix(s: string, d: char)
    ensures |Split(s, d)[0]| <= |s| && s[..|Split(s, d)[0]|] == Split(s, d)[0]
  {
  }

  /** How the handler's coroutine ends for the controller call: it returns (or throws)
      after some milliseconds, or it never completes. */
  datatype Completion = Completes(result: Result<Value, Failure>, millis: nat) | NeverCompletes

  /** One request on the handler: a time limit of zero or less expires at once; binding
      failures and controller exceptions are replied with as errors (no status is set on
      the context, so a plain exception gives 500); a call that does not complete within
      the limit is replied with the TimeoutException; otherwise its value is written.
      The timeout reply is the intended one (see TimeoutNeverReplied). */
  function ServeRequest(h: ServiceHandlerDef, req: Request, invoke: map<nat, Arg> -> Completion): (r: Option<Reply>)
    ensures r.Some?
    ensures r.value.status == DefaultStatus ==>
      (h.timeout > 0 && ServiceArgs(h.params, req, h.swaggerParams).Ok? &&
       var c := invoke(ServiceArgs(h.params, req, h.swaggerParams).value);
       c.Completes? && c.millis < h.timeout && c.result.Ok?)
  {
    if h.timeout <= 0 then TimeoutReply(h.opId)
    else match ServiceArgs(h.params, req, h.swaggerParams)
      case Err(e) => ReplyWithError(NoStatus, Some(e))
      case Ok(args) =>
        match invoke(args)
        case NeverCompletes => TimeoutReply(h.opId)
        case Completes(result, millis) =>
          if millis >= h.timeout then TimeoutReply(h.opId)
          else match result
            case Err(e) => ReplyWithError(NoStatus, Some(e))
            case Ok(v) => Some(HandleResponse(v))
  }

  /** Every request gets exactly one response, and it is an error response unless the
      controller completed in time with a value. */
  lemma AlwaysReplies(h: ServiceHandlerDef, req: Request, invoke: map<nat, Arg> -> Completion)
    ensures ServeRequest(h, req, invoke).Some?
    ensures ServeRequest(h, req, invoke).value.status != DefaultStatus ==>
      400 <= ServeRequest(h, req, invoke).value.status < 600
    ensures ServeRequest(h, req, invoke).value.status == DefaultStatus ==>
      h.timeout > 0 && ServiceArgs(h.params, req, h.swaggerParams).Ok? &&
      var c := invoke(ServiceArgs(h.params, req, h.swaggerParams).value);
      c.Completes? && c.millis < h.timeout && c.result.Ok? &&
      ServeRequest(h, req, invoke).value == HandleResponse(c.result.value)
  {
    var r := ServeRequest(h, req, invoke);
    if h.timeout > 0 && ServiceArgs(h.params, req, h.swaggerParams).Ok? {
      var c := invoke(ServiceArgs(h.params, req, h.swaggerParams).value);
      if c.Completes? && c.millis < h.timeout && c.result.Err? {
        ErrorReplyIsError(NoStatus, c.result.error);
      }
    } else if h.timeout > 0 {
      ErrorReplyIsError(NoStatus, ServiceArgs(h.params, req, h.swaggerParams).error);
    }
  }

  /** A controller that does not finish within the handler's limit gets a 504 with the
      operationId, whatever it would have returned. */
  lemma SlowCallTimesOut(h: ServiceHandlerDef, req: Request, invoke: map<nat, Arg> -> Completion)
    requires ServiceArgs(h.params, req, h.swaggerParams).Ok?
    requires var c := invoke(ServiceArgs(h.params, req, h.swaggerParams).value);
      c.NeverCompletes? || c.millis >= h.timeout
    ensures ServeRequest(h, req, invoke) ==
      Some(Reply(504, true, ErrorJson(TimedOut, Some("Timed out waiting for response"), [JStr(h.opId)])))
  {
  }

  /** A ResponseCodeException from the controller keeps its status; any other exception
      is a 500 carrying its message. */
  lemma ControllerExceptionStatus(h: ServiceHandlerDef, req: Request, invoke: map<nat, Arg> -> Completion, e: Failure)
    requires h.timeout > 0 && ServiceArgs(h.params, req, h.swaggerParams).Ok?
    requires var c := invoke(ServiceArgs(h.params, req, h.swaggerParams).value);
      c.Completes? && c.millis < h.timeout && c.result == Err(e)
    ensures e.ResponseCode? ==> ServeRequest(h, req, invoke) == Some(Reply(StatusOf(e.kind), true, ErrorJson(e.kind, e.message, e.data)))
    ensures e.Thrown? ==> ServeRequest(h, req, invoke) == Some(Reply(InternalError, false, Text(e.text.GetOr(""))))
  {
  }
}
