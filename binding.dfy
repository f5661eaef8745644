/** The descriptors and request record that argument binding works on, shared by
    SwaggerRouter and SwaggerServiceHandler. Reflection is replaced by plain records:
    a KParameter becomes `KParam`, an OpenAPI parameter `SwaggerParam`, and the routing
    context the parts of the request binding reads. */
module Binding {
  import opened Json
  import opened Wrappers
  import opened KotlinText
  import opened Responses

  /** The erased class of a parameter's type, as far as `isSubclassOf` checks go. */
  datatype ParamType =
    | RoutingContextType
    | JsonObjectType
    | JsonArrayType
    | StringType
    | IntType
    | BooleanType
    | ListType
    | OtherType(name: string)

  datatype ParamKind = Instance | ValueParam

  /** A KParameter: kind, name, erased type, the key of its `@Body` annotation when it has
      one, and whether it has a default value. */
  datatype KParam = KParam(kind: ParamKind, name: string, ptype: ParamType, body: Option<string>, isOptional: bool)

  /** An OpenAPI parameter: its name and its `in` location. */
  datatype SwaggerParam = SwaggerParam(name: string, location: string)

  /** A request body as one of the RoutingContext getters sees it: no body (null), a
      parsed value, or text that does not parse (DecodeException). */
  datatype Parse<T> = Absent | Parsed(value: T) | Malformed

  datatype RequestBody = RequestBody(
    asString: Option<string>,
    asObject: Parse<map<string, Json>>,
    asArray: Parse<seq<Json>>)

  /** The parts of a RoutingContext that binding reads. */
  datatype Request = Request(
    pathParams: map<string, string>,
    query: map<string, seq<string>>,
    body: RequestBody)

  /** A bound argument. */
  datatype Arg =
    | Controller
    | Context
    | JsonArg(json: Json)
    | TextArg(text: string)
    | IntArg(i: int)
    | BoolArg(b: bool)
    | TextList(texts: seq<string>)
    | NullArg

  /** A JSON value read from the body as an argument; JSON null is a null argument. */
  function FromJson(v: Json): (a: Arg)
    ensures a == NullArg <==> v == JNull
  {
    if v == JNull then NullArg else JsonArg(v)
  }

  /** `context.queryParam(name)`: every value given for the name, possibly none. */
  function QueryValues(req: Request, name: string): seq<string>
  {
    if name in req.query then req.query[name] else []
  }

  /** Kotlin's `Char.isWhitespace`: Java's `Character.isWhitespace` (the controls U+0009 to
      U+000D and U+001C to U+001F, and the Unicode space, line and paragraph separators
      other than the no-break ones) or `Character.isSpaceChar` (every Unicode space, line
      and paragraph separator), by the character categories of Unicode 6.3 and later. */
  predicate IsWhitespace(c: char)
  {
    ('\U{0009}' <= c <= '\U{000D}') || ('\U{001C}' <= c <= '\U{0020}') || c == '\U{00A0}' ||
    c == '\U{1680}' || ('\U{2000}' <= c <= '\U{200A}') || c == '\U{2028}' || c == '\U{2029}' ||
    c == '\U{202F}' || c == '\U{205F}' || c == '\U{3000}'
  }

  /** `isNotBlank`: some character is not white space. */
  predicate IsNotBlank(s: string)
  {
    exists i :: 0 <= i < |s| && !IsWhitespace(s[i])
  }

  /** `swaggerParams?.find { it.name == name }`: the first OpenAPI parameter of that name. */
  function FindSwaggerParam(params: Option<seq<SwaggerParam>>, name: string): (r: Option<SwaggerParam>)
    ensures r.Some? ==> params.Some? && r.value in params.value && r.value.name == name
    ensures r.None? ==> params.None? || forall i :: 0 <= i < |params.value| ==> params.value[i].name != name
    decreases if params.Some? then |params.value| else 0
  {
    match params
    case None => None
    case Some(ps) =>
      if ps == [] then None
      else if ps[0].name == name then Some(ps[0])
      else FindSwaggerParam(Some(ps[1..]), name)
  }

  /** When several OpenAPI parameters share the name (a path `id` and a query `id`), the
      first one in declaration order is found. */
  lemma {:induction false} FindSwaggerParamFirst(ps: seq<SwaggerParam>, name: string, i: nat)
    requires i < |ps| && ps[i].name == name
    requires forall j :: 0 <= j < i ==> ps[j].name != name
    ensures FindSwaggerParam(Some(ps), name) == Some(ps[i])
  {
    if i > 0 {
      assert ps[0].name != name;
      assert ps[1..][i - 1] == ps[i];
      FindSwaggerParamFirst(ps[1..], name, i - 1);
    }
  }

  /** `parseParam`: Int parameters through `toInt` (which may throw), Boolean parameters
      through `toBoolean`, anything else the text unchanged. */
  function ParseParam(t: ParamType, value: string): (r: Result<Arg, Failure>)
    ensures t == IntType ==> (r.Ok? <==> ToInt(value).Some?)
    ensures t == IntType && r.Ok? ==> r.value == IntArg(ToInt(value).value)
    ensures t == IntType && r.Err? ==> r.error == Thrown(NumberFormat, None)
    ensures t == BooleanType ==> r == Ok(BoolArg(ToBoolean(value)))
    ensures t != IntType && t != BooleanType ==> r == Ok(TextArg(value))
  {
    if t == IntType then
      match ToInt(value)
      case Some(n) => Ok(IntArg(n))
      case None => Err(Thrown(NumberFormat, None))
    else if t == BooleanType then Ok(BoolArg(ToBoolean(value)))
    else Ok(TextArg(value))
  }

  /** What `parseParam` reads back is what `toString` wrote, for every type it converts. */
  lemma ParseParamRoundTrip(n: int, b: bool, s: string, t: ParamType)
    requires MinInt <= n <= MaxInt
    requires t != IntType && t != BooleanType
    ensures ParseParam(IntType, IntToString(n)) == Ok(IntArg(n))
    ensures ParseParam(BooleanType, BoolToString(b)) == Ok(BoolArg(b))
    ensures ParseParam(t, s) == Ok(TextArg(s))
  {
    ToIntOfIntToString(n);
    ToBooleanOfBoolToString(b);
  }

  /** A path parameter: a null from `pathParam` fails the non-null argument check. */
  function PathArg(p: KParam, req: Request): (r: Result<Arg, Failure>)
    ensures p.name !in req.pathParams ==> r == Err(Thrown(IllegalState, None))
    ensures p.name in req.pathParams ==> r == ParseParam(p.ptype, req.pathParams[p.name])
  {
    if p.name in req.pathParams then ParseParam(p.ptype, req.pathParams[p.name])
    else Err(Thrown(IllegalState, None))
  }

  /** A query parameter: the whole list for a List parameter, else the first value
      parsed, else nothing (None). */
  function QueryArg(p: KParam, req: Request): (r: Result<Option<Arg>, Failure>)
    ensures p.ptype == ListType ==> r == Ok(Some(TextList(QueryValues(req, p.name))))
    ensures p.ptype != ListType && QueryValues(req, p.name) == [] ==> r == Ok(None)
    ensures p.ptype != ListType && QueryValues(req, p.name) != [] ==>
      match ParseParam(p.ptype, QueryValues(req, p.name)[0])
      case Ok(a) => r == Ok(Some(a))
      case Err(e) => r == Err(e)
  {
    var values := QueryValues(req, p.name);
    if p.ptype == ListType then Ok(Some(TextList(values)))
    else if values == [] then Ok(None)
    else match ParseParam(p.ptype, values[0])
      case Ok(a) => Ok(Some(a))
      case Err(e) => Err(e)
  }

  /** `context.bodyAsJson` and `context.bodyAsJsonArray` as arguments. */
  function ParsedArg<T>(view: Parse<T>, wrap: T -> Json): (r: Result<Arg, Failure>)
    ensures view.Absent? ==> r == Ok(NullArg)
    ensures view.Malformed? ==> r == Err(Thrown(Decode, None))
    ensures view.Parsed? ==> r == Ok(JsonArg(wrap(view.value)))
  {
    match view
    case Absent => Ok(NullArg)
    case Malformed => Err(Thrown(Decode, None))
    case Parsed(v) => Ok(JsonArg(wrap(v)))
  }

  /** `context.bodyAsJson.getValue(key)`: null body fails, a missing key or a JSON null
      gives null. */
  function BodyFieldArg(body: RequestBody, key: string): (r: Result<Arg, Failure>)
    ensures body.asObject.Absent? ==> r == Err(Thrown(NullPointer, None))
    ensures body.asObject.Malformed? ==> r == Err(Thrown(Decode, None))
    ensures body.asObject.Parsed? ==> r == Ok(FromJson(Lookup(body.asObject.value, key)))
  {
    match body.asObject
    case Absent => Err(Thrown(NullPointer, None))
    case Malformed => Err(Thrown(Decode, None))
    case Parsed(m) => Ok(FromJson(Lookup(m, key)))
  }

  /** The `@Body` binding both callWithParams versions share: a non-blank key selects a
      body field; otherwise a JsonObject, JsonArray or String parameter gets the whole
      body in that form; any other type gets None (the callers differ on what that means). */
  function BodyArg(p: KParam, body: RequestBody): (r: Result<Option<Arg>, Failure>)
    requires p.body.Some?
    ensures IsNotBlank(p.body.value) ==>
      match BodyFieldArg(body, p.body.value)
      case Ok(a) => r == Ok(Some(a))
      case Err(e) => r == Err(e)
    ensures !IsNotBlank(p.body.value) && !(p.ptype in {JsonObjectType, JsonArrayType, StringType}) ==> r == Ok(None)
    ensures !IsNotBlank(p.body.value) && p.ptype == JsonObjectType ==>
      (body.asObject.Absent? ==> r == Ok(Some(NullArg))) &&
      (body.asObject.Malformed? ==> r == Err(Thrown(Decode, None))) &&
      (body.asObject.Parsed? ==> r == Ok(Some(JsonArg(JObj(body.asObject.value)))))
    ensures !IsNotBlank(p.body.value) && p.ptype == JsonArrayType ==>
      (body.asArray.Absent? ==> r == Ok(Some(NullArg))) &&
      (body.asArray.Malformed? ==> r == Err(Thrown(Decode, None))) &&
      (body.asArray.Parsed? ==> r == Ok(Some(JsonArg(JArr(body.asArray.value)))))
    ensures !IsNotBlank(p.body.value) && p.ptype == StringType ==>
      r == Ok(Some(if body.asString.Some? then TextArg(body.asString.value) else NullArg))
  {
    if IsNotBlank(p.body.value) then
      match BodyFieldArg(body, p.body.value)
      case Ok(a) => Ok(Some(a))
      case Err(e) => Err(e)
    else if p.ptype == JsonObjectType then
      match ParsedArg(body.asObject, (m: map<string, Json>) => JObj(m))
      case Ok(a) => Ok(Some(a))
      case Err(e) => Err(e)
    else if p.ptype == JsonArrayType then
      match ParsedArg(body.asArray, (xs: seq<Json>) => JArr(xs))
      case Ok(a) => Ok(Some(a))
      case Err(e) => Err(e)
    else if p.ptype == StringType then
      Ok(Some(if body.asString.Some? then TextArg(body.asString.value) else NullArg))
    else Ok(None)
  }

  // ---------------------------------------------------------------------------
  // The argument map

  /** The argument map the first n parameters' bindings give (a binding of None leaves
      its parameter out), or the first exception among them. */
  function Collect(rs: seq<Result<Option<Arg>, Failure>>, n: nat): (r: Result<map<nat, Arg>, Failure>)
    requires n <= |rs|
    ensures r.Ok? ==> forall k :: k in r.value ==> k < n
  {
    if n == 0 then Ok(map[])
    else match Collect(rs, n - 1)
      case Err(e) => Err(e)
      case Ok(m) =>
        match rs[n - 1]
        case Err(e) => Err(e)
        case Ok(None) => Ok(m)
        case Ok(Some(a)) => Ok(m[n - 1 := a])
  }

  /** Collecting succeeds when every binding does, and then holds each bound argument;
      otherwise it gives the first exception. */
  lemma {:induction false} CollectSpec(rs: seq<Result<Option<Arg>, Failure>>, n: nat)
    requires n <= |rs|
    ensures Collect(rs, n).Ok? <==> forall i :: 0 <= i < n ==> rs[i].Ok?
    ensures Collect(rs, n).Ok? ==> forall i :: 0 <= i < n ==> (i in Collect(rs, n).value <==> rs[i].value.Some?)
    ensures Collect(rs, n).Ok? ==> forall i :: 0 <= i < n && i in Collect(rs, n).value ==>
      Collect(rs, n).value[i] == rs[i].value.value
    ensures Collect(rs, n).Err? ==>
      exists k :: 0 <= k < n && rs[k] == Err(Collect(rs, n).error) && (forall i :: 0 <= i < k ==> rs[i].Ok?)
  {
    if n > 0 {
      CollectSpec(rs, n - 1);
    }
  }

  /** Collecting stops at the first exception. */
  lemma {:induction false} CollectStops(rs: seq<Result<Option<Arg>, Failure>>, n: nat, m: nat)
    requires n <= m <= |rs|
    requires Collect(rs, n).Err?
    ensures Collect(rs, m) == Collect(rs, n)
    decreases m - n
  {
    if m > n {
      CollectStops(rs, n, m - 1);
    }
  }
}
