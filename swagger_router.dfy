/** SwaggerRouter.kt: builds one route per OpenAPI operation, and per request checks
    roles, binds the controller method's arguments and writes the response.

    Reflection and dependency injection are replaced by a registry map: the controller
    classes of the controller package by simple name, each with its members by name and
    their parameters. The controller method itself is a function from bound arguments
    to what it returns or throws. */
module SwaggerRouter {
  import opened Json
  import opened Wrappers
  import opened KotlinText
  import opened Responses
  import opened Binding
  import JwtAuthHelper

  type Roles = JwtAuthHelper.Roles

  /** Parameters of each member of each controller class. */
  type Registry = map<string, map<string, seq<KParam>>>

  /** An OpenAPI operation: operationId, the `x-auth-roles` extension when it is a map,
      and the declared parameters. */
  datatype Operation = Operation(operationId: Option<string>, roles: Option<Roles>, parameters: Option<seq<SwaggerParam>>)

  /** A path of the OpenAPI file with its operations by verb, in `readOperationsMap` order. */
  datatype PathItem = PathItem(path: string, operations: seq<(string, Operation)>)

  /** One operation together with the path and verb it is declared under. */
  datatype OpEntry = OpEntry(path: string, verb: string, op: Operation)

  /** A registered route handler chain. */
  datatype RouteDef = RouteDef(
    verb: string,
    path: string,
    jwt: bool,                 // JWTAuthHandler attached, and roles checked
    roles: Option<Roles>,
    controller: string,
    methodName: string,
    params: seq<KParam>,
    swaggerParams: Option<seq<SwaggerParam>>)

  datatype RegisteredRoute =
    | CatchAll(produces: string, bodyLimit: int, timeout: int)
    | OperationRoute(def: RouteDef)

  class Router {
    var routes: seq<RegisteredRoute>

    constructor()
      ensures routes == []
    {
      routes := [];
    }
  }

  // ---------------------------------------------------------------------------
  // Route building

  const BodyLimit: int := 5120000
  const RouteTimeout: int := 30000

  /** `path.replace('{', ':').replace("}", "")`: `{name}` segments become `:name`. */
  function ConvertPath(path: string): (r: string)
    ensures '{' !in r && '}' !in r
    ensures |r| == |path| - multiset(path)['}']
  {
    var replaced := ReplaceChar(path, '{', ':');
    RemoveCharSpec(replaced, '}');
    ReplacedCount(path);
    assert multiset(replaced)['{'] == 0;
    RemoveChar(replaced, '}')
  }

  /** Replacing '{' by ':' does not change how many '}' there are. */
  lemma {:induction false} ReplacedCount(path: string)
    ensures multiset(ReplaceChar(path, '{', ':'))['}'] == multiset(path)['}']
    ensures '{' !in ReplaceChar(path, '{', ':')
  {
    if path != [] {
      var r := ReplaceChar(path, '{', ':');
      var rest := ReplaceChar(path[1..], '{', ':');
      ReplacedCount(path[1..]);
      assert r == [r[0]] + rest;
      assert path == [path[0]] + path[1..];
      assert multiset(r) == multiset([r[0]]) + multiset(rest);
      assert multiset(path) == multiset([path[0]]) + multiset(path[1..]);
      assert r[0] == '}' <==> path[0] == '}';
    }
  }

  /** A template segment at the end of a path, `prefix{name}`, becomes `prefix:name`;
      so "/inventory/{id}" is registered as "/inventory/:id". */
  lemma ConvertPathSegment(prefix: string, name: string)
    requires '{' !in prefix && '}' !in prefix && '{' !in name && '}' !in name
    ensures ConvertPath(prefix + "{" + name + "}") == prefix + ":" + name
  {
    var path := prefix + "{" + name + "}";
    var kept := prefix + ":" + name;
    assert ReplaceChar(path, '{', ':') == kept + "}" by {
      forall k | 0 <= k < |path|
        ensures ReplaceChar(path, '{', ':')[k] == (kept + "}")[k]
      {
        if k < |prefix| {
          assert path[k] == prefix[k];
        } else if k > |prefix| && k < |path| - 1 {
          assert path[k] == name[k - |prefix| - 1];
        }
      }
    }
    RemoveCharAppend(kept, "}", '}');
    RemoveCharAbsent(kept, '}');
    assert RemoveChar("}", '}') == [];
  }

  /** A path without template braces is registered as it is. */
  lemma {:induction false} ConvertPathPlain(path: string)
    requires '{' !in path && '}' !in path
    ensures ConvertPath(path) == path
  {
    assert ReplaceChar(path, '{', ':') == path;
    RemoveCharAbsent(path, '}');
  }

  /** The operationId split on '.': the controller name and the method name, or the
      RuntimeException for an id with fewer than two segments ("" when absent). */
  function ParseOperationId(operationId: Option<string>, path: string): (r: Result<(string, string), Failure>)
    ensures r.Ok? <==> '.' in operationId.GetOr("")
    ensures r.Ok? ==> r.value.0 == Split(operationId.GetOr(""), '.')[0] && r.value.1 == Split(operationId.GetOr(""), '.')[1]
    ensures r.Err? ==> r.error == Thrown(Runtime, Some("Unable to parse operation " + operationId.GetOr("") + " for path " + path))
  {
    var opId := operationId.GetOr("");
    var split := Split(opId, '.');
    SplitHasTwoParts(opId, '.');
    if |split| < 2 then Err(Thrown(Runtime, Some("Unable to parse operation " + opId + " for path " + path)))
    else Ok((split[0], split[1]))
  }

  /** "Controller.method" names that controller and that method, and so does
      "Controller.method.anything": further segments are ignored. */
  lemma OperationIdSegments(controller: string, member: string, tail: string, path: string)
    requires '.' !in controller && '.' !in member
    requires tail == [] || tail[0] == '.'
    ensures ParseOperationId(Some(controller + "." + member + tail), path) == Ok((controller, member))
  {
    SplitFirstTwo(controller, member, tail, '.');
  }

  /** A missing operationId or one without a '.' stops route building. */
  lemma MissingOperationIdFails(path: string)
    ensures ParseOperationId(None, path).Err?
    ensures ParseOperationId(Some("inventory"), path).Err?
  {
  }

  /** The JWT handler is attached when the roles map is present and not empty. */
  function NeedsJwt(roles: Option<Roles>): (b: bool)
    ensures b <==> roles.Some? && roles.value != map[]
  {
    roles.Some? && |roles.value| > 0
  }

  /** The route one operation yields, or the exception that stops route building. */
  function RouteFor(e: OpEntry, registry: Registry): (r: Result<RouteDef, Failure>)
    ensures r.Ok? ==> r.value.controller in registry && r.value.methodName in registry[r.value.controller]
    ensures r.Ok? ==> r.value.params == registry[r.value.controller][r.value.methodName]
    ensures r.Ok? ==> r.value.path == ConvertPath(e.path) && r.value.verb == e.verb
    ensures r.Ok? ==> r.value.jwt == NeedsJwt(e.op.roles) && r.value.roles == e.op.roles
    ensures ParseOperationId(e.op.operationId, e.path).Err? ==> r == Err(ParseOperationId(e.op.operationId, e.path).error)
  {
    match ParseOperationId(e.op.operationId, e.path)
    case Err(f) => Err(f)
    case Ok((controllerName, methodName)) =>
      if controllerName !in registry then Err(Thrown(ClassNotFound, None))
      else if methodName !in registry[controllerName] then
        Err(Thrown(Runtime, Some("Method " + methodName + " not found for controller " + controllerName)))
      else Ok(RouteDef(e.verb, ConvertPath(e.path), NeedsJwt(e.op.roles), e.op.roles, controllerName, methodName,
                       registry[controllerName][methodName], e.op.parameters))
  }

  function Entries(item: PathItem): (es: seq<OpEntry>)
    ensures |es| == |item.operations|
    ensures forall j :: 0 <= j < |es| ==> es[j] == OpEntry(item.path, item.operations[j].0, item.operations[j].1)
  {
    seq(|item.operations|, j requires 0 <= j < |item.operations| => OpEntry(item.path, item.operations[j].0, item.operations[j].1))
  }

  /** Every operation of the file, path by path. */
  function Flatten(file: seq<PathItem>): seq<OpEntry>
  {
    if file == [] then [] else Flatten(file[..|file| - 1]) + Entries(file[|file| - 1])
  }

  lemma FlattenStep(file: seq<PathItem>, i: nat)
    requires i < |file|
    ensures Flatten(file[..i + 1]) == Flatten(file[..i]) + Entries(file[i])
  {
    assert file[..i + 1][..i] == file[..i];
  }

  /** The operations of the whole file are those of its first i paths, then the rest. */
  lemma {:induction false} FlattenSplit(file: seq<PathItem>, i: nat)
    requires i <= |file|
    ensures Flatten(file) == Flatten(file[..i]) + Flatten(file[i..])
    decreases |file|
  {
    if i == |file| {
      assert file[..i] == file;
      assert file[i..] == [];
    } else {
      var init := file[..|file| - 1];
      FlattenSplit(init, i);
      assert init[..i] == file[..i];
      assert file[i..][..|file[i..]| - 1] == init[i..];
    }
  }

  /** The routes built so far, and the failure that stopped route building, if any. */
  datatype Plan = Plan(routes: seq<RouteDef>, error: Option<Failure>)

  /** One operation's effect on the plan: nothing once building has stopped. */
  function Step(p: Plan, e: OpEntry, registry: Registry): (q: Plan)
    ensures p.error.Some? ==> q == p
    ensures p.error.None? && RouteFor(e, registry).Ok? ==> q == Plan(p.routes + [RouteFor(e, registry).value], None)
    ensures p.error.None? && RouteFor(e, registry).Err? ==> q == Plan(p.routes, Some(RouteFor(e, registry).error))
  {
    Apply(p, RouteFor(e, registry))
  }

  /** One outcome's effect on the plan: a route is appended, or building stops with
      the failure; nothing once building has stopped. */
  function Apply(p: Plan, o: Result<RouteDef, Failure>): Plan
  {
    if p.error.Some? then p
    else match o
      case Ok(rd) => Plan(p.routes + [rd], None)
      case Err(f) => Plan(p.routes, Some(f))
  }

  /** A sequence of outcomes applied in order. */
  function Fold(p: Plan, os: seq<Result<RouteDef, Failure>>): Plan
    decreases |os|
  {
    if os == [] then p else Fold(Apply(p, os[0]), os[1..])
  }

  /** What each operation yields, in order. */
  function Outcomes(ops: seq<OpEntry>, registry: Registry): (os: seq<Result<RouteDef, Failure>>)
    ensures |os| == |ops|
    ensures forall i :: 0 <= i < |ops| ==> os[i] == RouteFor(ops[i], registry)
  {
    seq(|ops|, i requires 0 <= i < |ops| => RouteFor(ops[i], registry))
  }

  /** The operations in order, from a plan built so far. */
  function PlanFrom(p: Plan, ops: seq<OpEntry>, registry: Registry): Plan
    decreases |ops|
  {
    if ops == [] then p else PlanFrom(Step(p, ops[0], registry), ops[1..], registry)
  }

  /** What route building yields for the operations of a file. */
  function PlanRoutes(ops: seq<OpEntry>, registry: Registry): Plan
  {
    PlanFrom(Plan([], None), ops, registry)
  }

  lemma {:induction false} PlanFromConcat(p: Plan, a: seq<OpEntry>, b: seq<OpEntry>, registry: Registry)
    ensures PlanFrom(p, a + b, registry) == PlanFrom(PlanFrom(p, a, registry), b, registry)
    decreases |a|
  {
    if a != [] {
      assert (a + b)[1..] == a[1..] + b;
      PlanFromConcat(Step(p, a[0], registry), a[1..], b, registry);
    } else {
      assert a + b == b;
    }
  }

  /** Once an operation fails, nothing after it is looked at. */
  lemma {:induction false} PlanFromStopped(p: Plan, ops: seq<OpEntry>, registry: Registry)
    requires p.error.Some?
    ensures PlanFrom(p, ops, registry) == p
    decreases |ops|
  {
    if ops != [] {
      PlanFromStopped(p, ops[1..], registry);
    }
  }

  /** One more operation of a prefix is one more step. */
  lemma PlanFromTake(p: Plan, ops: seq<OpEntry>, j: nat, registry: Registry)
    requires j < |ops|
    ensures PlanFrom(p, ops[..j + 1], registry) == Step(PlanFrom(p, ops[..j], registry), ops[j], registry)
  {
    assert ops[..j + 1] == ops[..j] + [ops[j]];
    PlanFromSnoc(p, ops[..j], ops[j], registry);
  }

  /** A plan that has failed on a prefix of the operations is the plan of all of them. */
  lemma PlanFromPrefixFailed(p: Plan, ops: seq<OpEntry>, k: nat, registry: Registry)
    requires k <= |ops| && PlanFrom(p, ops[..k], registry).error.Some?
    ensures PlanFrom(p, ops, registry) == PlanFrom(p, ops[..k], registry)
  {
    assert ops == ops[..k] + ops[k..];
    PlanFromConcat(p, ops[..k], ops[k..], registry);
    PlanFromStopped(PlanFrom(p, ops[..k], registry), ops[k..], registry);
  }

  lemma PlanFromSnoc(p: Plan, a: seq<OpEntry>, e: OpEntry, registry: Registry)
    ensures PlanFrom(p, a + [e], registry) == Step(PlanFrom(p, a, registry), e, registry)
  {
    PlanFromConcat(p, a, [e], registry);
    assert PlanFrom(Step(PlanFrom(p, a, registry), e, registry), [], registry) == Step(PlanFrom(p, a, registry), e, registry);
  }

  /** Building routes from the operations is folding their outcomes. */
  lemma {:induction false} PlanFromIsFold(p: Plan, ops: seq<OpEntry>, registry: Registry)
    ensures PlanFrom(p, ops, registry) == Fold(p, Outcomes(ops, registry))
    decreases |ops|
  {
    if ops != [] {
      PlanFromIsFold(Step(p, ops[0], registry), ops[1..], registry);
      assert Outcomes(ops, registry)[1..] == Outcomes(ops[1..], registry);
    }
  }

  /** Without a failure, the fold extends the routes it started from by one route per
      outcome. */
  lemma {:induction false} FoldOkShape(p: Plan, os: seq<Result<RouteDef, Failure>>)
    requires Fold(p, os).error.None?
    ensures p.error.None?
    ensures |Fold(p, os).routes| == |p.routes| + |os|
    ensures Fold(p, os).routes[..|p.routes|] == p.routes
    decreases |os|
  {
    if os != [] {
      var q := Apply(p, os[0]);
      FoldOkShape(q, os[1..]);
      var r := Fold(q, os[1..]).routes;
      assert q.routes == p.routes + [os[0].value];
      assert r[..|p.routes|] == q.routes[..|p.routes|];
    }
  }

  /** Without a failure, outcome i is the route at offset i after the routes the fold
      started from. */
  lemma {:induction false} FoldOkAt(p: Plan, os: seq<Result<RouteDef, Failure>>, i: nat)
    requires Fold(p, os).error.None?
    requires i < |os|
    ensures |p.routes| + i < |Fold(p, os).routes|
    ensures os[i] == Ok(Fold(p, os).routes[|p.routes| + i])
    decreases i
  {
    var q := Apply(p, os[0]);
    FoldOkShape(q, os[1..]);
    var r := Fold(q, os[1..]).routes;
    assert p.error.None? && os[0].Ok?;
    assert q.routes == p.routes + [os[0].value];
    if i == 0 {
      assert r[|p.routes|] == r[..|q.routes|][|p.routes|];
    } else {
      FoldOkAt(q, os[1..], i - 1);
    }
  }

  /** Without a failure, the plan adds one route per operation, route i built from
      operation i. */
  lemma PlanFromOk(p: Plan, ops: seq<OpEntry>, registry: Registry)
    requires PlanFrom(p, ops, registry).error.None?
    ensures |PlanFrom(p, ops, registry).routes| == |p.routes| + |ops|
    ensures forall i :: 0 <= i < |ops| ==> RouteFor(ops[i], registry) == Ok(PlanFrom(p, ops, registry).routes[|p.routes| + i])
  {
    var os := Outcomes(ops, registry);
    PlanFromIsFold(p, ops, registry);
    FoldOkShape(p, os);
    forall i | 0 <= i < |ops|
      ensures RouteFor(ops[i], registry) == Ok(Fold(p, os).routes[|p.routes| + i])
    {
      FoldOkAt(p, os, i);
    }
  }

  /** Without a failure, route i is built from operation i, one route per operation. */
  lemma PlanRoutesPointwise(ops: seq<OpEntry>, registry: Registry)
    requires PlanRoutes(ops, registry).error.None?
    ensures |PlanRoutes(ops, registry).routes| == |ops|
    ensures forall i :: 0 <= i < |ops| ==> RouteFor(ops[i], registry) == Ok(PlanRoutes(ops, registry).routes[i])
  {
    PlanFromOk(Plan([], None), ops, registry);
  }

  /** A failing operation stops route building with its own failure, keeping the routes
      of the operations before it. */
  lemma FirstFailureWins(ops: seq<OpEntry>, k: nat, registry: Registry)
    requires k < |ops|
    requires PlanRoutes(ops[..k], registry).error.None?
    requires RouteFor(ops[k], registry).Err?
    ensures PlanRoutes(ops, registry) == Plan(PlanRoutes(ops[..k], registry).routes, Some(RouteFor(ops[k], registry).error))
  {
    assert ops == ops[..k] + [ops[k]] + ops[k + 1..];
    PlanFromSnoc(Plan([], None), ops[..k], ops[k], registry);
    PlanFromConcat(Plan([], None), ops[..k] + [ops[k]], ops[k + 1..], registry);
    PlanFromStopped(PlanRoutes(ops[..k] + [ops[k]], registry), ops[k + 1..], registry);
  }

  predicate NoDuplicates(xs: seq<string>)
  {
    forall a, b :: 0 <= a < b < |xs| ==> xs[a] != xs[b]
  }

  function AsRoutes(defs: seq<RouteDef>): (rs: seq<RegisteredRoute>)
    ensures |rs| == |defs|
    ensures forall i :: 0 <= i < |defs| ==> rs[i] == OperationRoute(defs[i])
  {
    seq(|defs|, i requires 0 <= i < |defs| => OperationRoute(defs[i]))
  }

  lemma AsRoutesAppend(defs: seq<RouteDef>, d: RouteDef)
    ensures AsRoutes(defs + [d]) == AsRoutes(defs) + [OperationRoute(d)]
  {
  }

  /** The controller cache `controllerInstances`: every cached controller is the
      registry's, and `created` lists the cached names in creation order, each once. */
  ghost predicate CacheOk(controllerInstances: Registry, created: seq<string>, registry: Registry)
  {
    && (forall c :: c in controllerInstances <==> c in created)
    && (forall c :: c in controllerInstances ==> c in registry && controllerInstances[c] == registry[c])
    && NoDuplicates(created)
  }

  /** The body of the inner `forEach` of `addRoutesFromSwaggerFile`: one operation. */
  method AddOperationRoute(router: Router, entry: OpEntry, registry: Registry,
                           controllerInstances: Registry, created: seq<string>)
    returns (failure: Option<Failure>, instances': Registry, created': seq<string>)
    requires CacheOk(controllerInstances, created, registry)
    modifies router
    ensures CacheOk(instances', created', registry)
    ensures forall c :: c in created ==> c in created'
    ensures failure.Some? ==> RouteFor(entry, registry) == Err(failure.value) && router.routes == old(router.routes)
    ensures failure.None? ==> RouteFor(entry, registry).Ok?
    ensures failure.None? ==> router.routes == old(router.routes) + [OperationRoute(RouteFor(entry, registry).value)]
    ensures failure.None? ==> RouteFor(entry, registry).value.controller in created'
  {
    instances', created' := controllerInstances, created;
    var opId := entry.op.operationId.GetOr("");
    var split := Split(opId, '.');
    SplitHasTwoParts(opId, '.');
    if |split| < 2 {
      return Some(Thrown(Runtime, Some("Unable to parse operation " + opId + " for path " + entry.path))), instances', created';
    }
    var controllerName := split[0];
    var methodName := split[1];
    var roles := entry.op.roles;
    var controller;
    if controllerName in instances' {
      controller := instances'[controllerName];
    } else {
      if controllerName !in registry {
        return Some(Thrown(ClassNotFound, None)), instances', created';
      }
      controller := registry[controllerName];
      instances' := instances'[controllerName := controller];
      created' := created' + [controllerName];
    }
    if methodName !in controller {
      return Some(Thrown(Runtime, Some("Method " + methodName + " not found for controller " + controllerName))), instances', created';
    }
    var route := RouteDef(entry.verb, ConvertPath(entry.path), roles.Some? && |roles.value| > 0, roles,
                          controllerName, methodName, controller[methodName], entry.op.parameters);
    router.routes := router.routes + [OperationRoute(route)];
    failure := None;
  }

  /** What holds after each operation of `addRoutesFromSwaggerFile` that did not fail:
      the router holds `base` and then the plan's routes, and the cache covers their
      controllers. */
  ghost predicate Progress(routes: seq<RegisteredRoute>, base: seq<RegisteredRoute>, plan: Plan,
                           controllerInstances: Registry, created: seq<string>, registry: Registry)
  {
    && plan.error.None?
    && routes == base + AsRoutes(plan.routes)
    && CacheOk(controllerInstances, created, registry)
    && forall rd :: rd in plan.routes ==> rd.controller in created
  }

  /** An operation that succeeded keeps `Progress` for the plan one step further. */
  lemma ProgressStep(routes: seq<RegisteredRoute>, routes': seq<RegisteredRoute>, base: seq<RegisteredRoute>,
                     q: Plan, entry: OpEntry, registry: Registry,
                     controllerInstances: Registry, created: seq<string>,
                     instances': Registry, created': seq<string>)
    requires Progress(routes, base, q, controllerInstances, created, registry)
    requires RouteFor(entry, registry).Ok?
    requires routes' == routes + [OperationRoute(RouteFor(entry, registry).value)]
    requires CacheOk(instances', created', registry)
    requires forall c :: c in created ==> c in created'
    requires RouteFor(entry, registry).value.controller in created'
    ensures Progress(routes', base, Step(q, entry, registry), instances', created', registry)
  {
    AsRoutesAppend(q.routes, RouteFor(entry, registry).value);
  }

  /** The outer `forEach` body of `addRoutesFromSwaggerFile`: the operations of one path,
      continuing the plan `p` of the paths before it. */
  method AddPathRoutes(router: Router, item: PathItem, registry: Registry,
                       controllerInstances: Registry, created: seq<string>,
                       ghost base: seq<RegisteredRoute>, ghost p: Plan)
    returns (failure: Option<Failure>, instances': Registry, created': seq<string>)
    requires Progress(router.routes, base, p, controllerInstances, created, registry)
    modifies router
    ensures failure == PlanFrom(p, Entries(item), registry).error
    ensures router.routes == base + AsRoutes(PlanFrom(p, Entries(item), registry).routes)
    ensures CacheOk(instances', created', registry)
    ensures forall rd :: rd in PlanFrom(p, Entries(item), registry).routes ==> rd.controller in created'
    ensures failure.None? ==> Progress(router.routes, base, PlanFrom(p, Entries(item), registry), instances', created', registry)
  {
    instances', created' := controllerInstances, created;
    var es := Entries(item);
    var j := 0;
    assert es[..0] == [];
    while j < |item.operations|
      invariant 0 <= j <= |item.operations|
      invariant Progress(router.routes, base, PlanFrom(p, es[..j], registry), instances', created', registry)
    {
      var entry := es[j];
      ghost var q := PlanFrom(p, es[..j], registry);
      ghost var before := router.routes;
      ghost var (instances0, created0) := (instances', created');
      failure, instances', created' := AddOperationRoute(router, entry, registry, instances', created');
      PlanFromTake(p, es, j, registry);
      if failure.Some? {
        PlanFromPrefixFailed(p, es, j + 1, registry);
        return;
      }
      ProgressStep(before, router.routes, base, q, entry, registry, instances0, created0, instances', created');
      j := j + 1;
    }
    assert es[..j] == es;
    failure := None;
  }

  /** The plan of the first i + 1 paths continues the plan of the first i with path i. */
  lemma FilePlanStep(file: seq<PathItem>, i: nat, registry: Registry)
    requires i < |file|
    ensures PlanRoutes(Flatten(file[..i + 1]), registry)
         == PlanFrom(PlanRoutes(Flatten(file[..i]), registry), Entries(file[i]), registry)
  {
    FlattenStep(file, i);
    PlanFromConcat(Plan([], None), Flatten(file[..i]), Entries(file[i]), registry);
  }

  /** A plan that has failed on the first k paths is the plan of the whole file. */
  lemma FilePrefixFailed(file: seq<PathItem>, k: nat, registry: Registry)
    requires k <= |file| && PlanRoutes(Flatten(file[..k]), registry).error.Some?
    ensures PlanRoutes(Flatten(file), registry) == PlanRoutes(Flatten(file[..k]), registry)
  {
    FlattenSplit(file, k);
    PlanFromConcat(Plan([], None), Flatten(file[..k]), Flatten(file[k..]), registry);
    PlanFromStopped(PlanRoutes(Flatten(file[..k]), registry), Flatten(file[k..]), registry);
  }

  /** `addRoutesFromSwaggerFile`: one route per operation, in file order, until an
      operation fails; `created` lists the controllers in the order they were
      instantiated, each once, because `controllerInstances` caches them. */
  method AddRoutesFromSwaggerFile(router: Router, file: seq<PathItem>, registry: Registry)
    returns (error: Option<Failure>, created: seq<string>)
    modifies router
    ensures router.routes == old(router.routes) + AsRoutes(PlanRoutes(Flatten(file), registry).routes)
    ensures error == PlanRoutes(Flatten(file), registry).error
    ensures NoDuplicates(created)
    ensures forall c :: c in created ==> c in registry
    ensures forall rd :: rd in PlanRoutes(Flatten(file), registry).routes ==> rd.controller in created
  {
    var controllerInstances: Registry := map[];
    created := [];
    ghost var start := router.routes;
    ghost var plan := Plan([], None);
    var i := 0;
    assert file[..0] == [];
    while i < |file|
      invariant 0 <= i <= |file|
      invariant plan == PlanRoutes(Flatten(file[..i]), registry)
      invariant Progress(router.routes, start, plan, controllerInstances, created, registry)
    {
      var failure;
      failure, controllerInstances, created :=
        AddPathRoutes(router, file[i], registry, controllerInstances, created, start, plan);
      FilePlanStep(file, i, registry);
      plan := PlanFrom(plan, Entries(file[i]), registry);
      if failure.Some? {
        FilePrefixFailed(file, i + 1, registry);
        return failure, created;
      }
      i := i + 1;
    }
    assert file[..i] == file;
    error := None;
  }

  /** `route`: a catch-all route producing JSON with a 5120000-byte body limit and a
      30000 ms timeout, then the operation routes. */
  method Route(router: Router, file: seq<PathItem>, registry: Registry)
    returns (error: Option<Failure>, created: seq<string>)
    modifies router
    ensures router.routes == old(router.routes) + [CatchAll("application/json", BodyLimit, RouteTimeout)]
                             + AsRoutes(PlanRoutes(Flatten(file), registry).routes)
    ensures error == PlanRoutes(Flatten(file), registry).error
    ensures NoDuplicates(created)
  {
    router.routes := router.routes + [CatchAll("application/json", BodyLimit, RouteTimeout)];
    error, created := AddRoutesFromSwaggerFile(router, file, registry);
  }

  // ---------------------------------------------------------------------------
  // Role check in the route handler

  /** AuthorizationException, with its default message. */
  const AuthorizationFailure: Failure := ResponseCode(AuthorizationError, None, [])

  /** The router's own `anyOf`: scans the whole list, remembering whether some entry
      matched. */
  method AnyOf(user: seq<Json>, required: seq<string>) returns (hasOne: bool)
    ensures hasOne <==> exists j :: 0 <= j < |required| && JwtAuthHelper.HasRole(user, required[j])
  {
    hasOne := false;
    var i := 0;
    while i < |required|
      invariant 0 <= i <= |required|
      invariant hasOne <==> exists j :: 0 <= j < i && JwtAuthHelper.HasRole(user, required[j])
    {
      if JStr(required[i]) in user {
        hasOne := true;
      }
      i := i + 1;
    }
  }

  /** `authenticateUser`: false where the source throws AuthorizationException. Its
      `oneOf` and `allOf` are JwtAuthHelper's, line for line. */
  method AuthenticateUser(required: Roles, user: seq<Json>) returns (ok: bool)
    ensures ok <==> JwtAuthHelper.Authorized(required, user)
  {
    ok := true;
    if "oneOf" in required {
      ok := JwtAuthHelper.OneOf(user, required["oneOf"]);
    }
    if ok && "anyOf" in required {
      ok := AnyOf(user, required["anyOf"]);
      JwtAuthHelper.MatchesPositive(user, required["anyOf"]);
    }
    if ok && "allOf" in required {
      ok := JwtAuthHelper.AllOf(user, required["allOf"]);
    }
  }

  /** The failure the role step of the route handler raises, if any. The principal's
      "roles" is read with `getJsonArray("roles", JsonArray())` and passed on as it is:
      a null there fails Kotlin's non-null argument check, a non-array the cast. */
  function RoleFailure(required: Roles, principal: map<string, Json>): (r: Option<Failure>)
    ensures JwtAuthHelper.GetRolesField(principal).RolesArray? ==>
      (r.None? <==> JwtAuthHelper.Authorized(required, JwtAuthHelper.GetRolesField(principal).roles))
    ensures JwtAuthHelper.GetRolesField(principal).RolesArray? && r.Some? ==> r.value == AuthorizationFailure
    ensures JwtAuthHelper.GetRolesField(principal).RolesNull? ==> r == Some(Thrown(IllegalState, None))
    ensures JwtAuthHelper.GetRolesField(principal).RolesNotArray? ==> r == Some(Thrown(ClassCast, None))
  {
    match JwtAuthHelper.GetRolesField(principal)
    case RolesArray(user) => if JwtAuthHelper.Authorized(required, user) then None else Some(AuthorizationFailure)
    case RolesNull => Some(Thrown(IllegalState, None))
    case RolesNotArray => Some(Thrown(ClassCast, None))
  }

  /** The role step as the handler runs it. */
  method CheckRoles(required: Roles, principal: map<string, Json>) returns (r: Option<Failure>)
    ensures r == RoleFailure(required, principal)
  {
    var field := JwtAuthHelper.GetRolesField(principal);
    if field.RolesNull? {
      return Some(Thrown(IllegalState, None));
    } else if field.RolesNotArray? {
      return Some(Thrown(ClassCast, None));
    }
    var ok := AuthenticateUser(required, field.roles);
    r := if ok then None else Some(AuthorizationFailure);
  }

  /** With a role array the router decides as JwtAuthHelper's role handler does; with a
      null "roles" it fails where JwtAuthHelper falls back to no roles, e.g. for a
      requirement `{allOf: []}` that no roles satisfy. */
  lemma RouterAndJwtAuthHelperAgree(required: Roles, principal: map<string, Json>)
    ensures JwtAuthHelper.GetRolesField(principal).RolesArray? ==>
      (RoleFailure(required, principal).None? <==> JwtAuthHelper.RoleCheckOutcome(required, principal) == JwtAuthHelper.Pass)
    ensures "roles" in principal && principal["roles"] == JNull && required == map["allOf" := []] ==>
      RoleFailure(required, principal).Some? && JwtAuthHelper.RoleCheckOutcome(required, principal) == JwtAuthHelper.Pass
  {
    if "roles" in principal && principal["roles"] == JNull && required == map["allOf" := []] {
      assert Strings([]) == [];
    }
  }

  // ---------------------------------------------------------------------------
  // Argument binding

  /** `instanceParameter`: the first parameter of kind INSTANCE, if any. */
  function InstanceIndex(ps: seq<KParam>): (r: Option<nat>)
    ensures r.Some? ==> r.value < |ps| && ps[r.value].kind == Instance
    ensures r.Some? ==> forall k :: 0 <= k < r.value ==> ps[k].kind != Instance
    ensures r.None? ==> forall k :: 0 <= k < |ps| ==> ps[k].kind != Instance
  {
    if ps == [] then None
    else if ps[0].kind == Instance then Some(0)
    else match InstanceIndex(ps[1..])
      case None => None
      case Some(k) => Some(k + 1)
  }

  /** What `callWithParams` leaves in `params` for parameter i: Some(argument), None when
      the parameter is left out (so that its default applies), or the exception that
      binding it raises. */
  function RouterArg(ps: seq<KParam>, i: nat, req: Request, sps: Option<seq<SwaggerParam>>): (r: Result<Option<Arg>, Failure>)
    requires i < |ps|
    ensures ps[i].ptype == RoutingContextType ==> r == Ok(Some(Context))
    ensures ps[i].kind == Instance && ps[i].ptype != RoutingContextType && ps[i].body.None? && InstanceIndex(ps) == Some(i) ==>
      r == Ok(Some(Controller))
    ensures ps[i].kind == ValueParam && ps[i].ptype != RoutingContextType && ps[i].body.None? ==>
      (r == Ok(None) <==> ps[i].isOptional && r.Ok? && r.value.None?)
    ensures ps[i].kind == ValueParam && ps[i].body.None? && !ps[i].isOptional && r.Ok? ==> r.value.Some?
  {
    var p := ps[i];
    var pre: Option<Arg> := if InstanceIndex(ps) == Some(i) then Some(Controller) else None;
    if p.ptype == RoutingContextType then Ok(Some(Context))
    else if p.body.Some? then
      match BodyArg(p, req.body)
      case Err(e) => Err(e)
      case Ok(None) => Ok(pre)
      case Ok(Some(a)) => Ok(Some(a))
    else if p.kind == Instance then Ok(pre)
    else
      var found: Result<Option<Arg>, Failure> :=
        match FindSwaggerParam(sps, p.name)
        case None => Ok(None)
        case Some(sp) =>
          if sp.location == "path" then
            (match PathArg(p, req)
             case Ok(a) => Ok(Some(a))
             case Err(e) => Err(e))
          else if sp.location == "query" then QueryArg(p, req)
          else Ok(None);
      match found
      case Err(e) => Err(e)
      case Ok(None) => if p.isOptional then Ok(None) else Ok(Some(NullArg))
      case Ok(Some(a)) => Ok(Some(a))
  }

  /** Each parameter's binding, in parameter order. */
  function Bindings(ps: seq<KParam>, req: Request, sps: Option<seq<SwaggerParam>>): (rs: seq<Result<Option<Arg>, Failure>>)
    ensures |rs| == |ps|
    ensures forall i :: 0 <= i < |ps| ==> rs[i] == RouterArg(ps, i, req, sps)
  {
    seq(|ps|, i requires 0 <= i < |ps| => RouterArg(ps, i, req, sps))
  }

  /** The argument map `callWithParams` passes to `callBy`, or the exception binding raises. */
  function BoundArgs(ps: seq<KParam>, req: Request, sps: Option<seq<SwaggerParam>>): Result<map<nat, Arg>, Failure>
  {
    Collect(Bindings(ps, req, sps), |ps|)
  }

  /** One turn of `callWithParams`' `forEach`: parameter n's entry in `params`. Before
      its turn a parameter has an entry only if it is the instance parameter. */
  method BindParameter(ps: seq<KParam>, n: nat, req: Request, sps: Option<seq<SwaggerParam>>, params: map<nat, Arg>)
    returns (r: Result<map<nat, Arg>, Failure>)
    requires n < |ps|
    requires n in params <==> InstanceIndex(ps) == Some(n)
    requires n in params ==> params[n] == Controller
    ensures r.Err? ==> RouterArg(ps, n, req, sps) == Err(r.error)
    ensures r.Ok? ==> RouterArg(ps, n, req, sps).Ok?
    ensures r.Ok? && RouterArg(ps, n, req, sps).value.None? ==> r.value == params && n !in params
    ensures r.Ok? && RouterArg(ps, n, req, sps).value.Some? ==> r.value == params[n := RouterArg(ps, n, req, sps).value.value]
  {
    var p := ps[n];
    var out := params;
    if p.ptype == RoutingContextType {
      out := out[n := Context];
    } else if p.body.Some? {
      var b := BodyArg(p, req.body);
      if b.Err? {
        return Err(b.error);
      } else if b.value.Some? {
        out := out[n := b.value.value];
      }
    } else if p.kind != Instance {
      var sp := FindSwaggerParam(sps, p.name);
      if sp.Some? {
        if sp.value.location == "path" {
          var a := PathArg(p, req);
          if a.Err? {
            return Err(a.error);
          }
          out := out[n := a.value];
        } else if sp.value.location == "query" {
          var q := QueryArg(p, req);
          if q.Err? {
            return Err(q.error);
          }
          if q.value.Some? {
            out := out[n := q.value.value];
          }
        }
      }
      if n !in out && !p.isOptional {
        out := out[n := NullArg];
      }
    }
    if n in out {
      assert out == params[n := out[n]];
    }
    r := Ok(out);
  }

  /** The entry `params` holds ahead of the loop: the controller, for an instance
      parameter the loop has not reached yet. */
  function Pending(instance: Option<nat>, n: nat): map<nat, Arg>
  {
    if instance.Some? && instance.value >= n then map[instance.value := Controller] else map[]
  }

  lemma PendingStep(before: map<nat, Arg>, instance: Option<nat>, n: nat, a: Arg)
    requires forall k :: k in before ==> k < n
    ensures (before + Pending(instance, n))[n := a] == before[n := a] + Pending(instance, n + 1)
  {
  }

  lemma PendingSkip(before: map<nat, Arg>, instance: Option<nat>, n: nat)
    requires instance != Some(n)
    ensures before + Pending(instance, n) == before + Pending(instance, n + 1)
  {
  }

  /** `params` after n turns of the loop: the first n bindings collected, plus the
      instance entry when the loop has not reached it yet. */
  ghost predicate Bound(rs: seq<Result<Option<Arg>, Failure>>, n: nat, instance: Option<nat>, params: map<nat, Arg>)
    requires n <= |rs|
  {
    Collect(rs, n).Ok? && params == Collect(rs, n).value + Pending(instance, n)
  }

  /** One turn of the loop keeps `params` equal to the collected bindings plus the
      pending instance entry. */
  lemma BindStep(rs: seq<Result<Option<Arg>, Failure>>, n: nat, instance: Option<nat>,
                 params: map<nat, Arg>, next: map<nat, Arg>)
    requires n < |rs| && Collect(rs, n).Ok? && rs[n].Ok?
    requires params == Collect(rs, n).value + Pending(instance, n)
    requires rs[n].value.None? ==> next == params && instance != Some(n)
    requires rs[n].value.Some? ==> next == params[n := rs[n].value.value]
    ensures Bound(rs, n + 1, instance, next)
  {
    var before := Collect(rs, n).value;
    if rs[n].value.Some? {
      PendingStep(before, instance, n, rs[n].value.value);
    } else {
      PendingSkip(before, instance, n);
    }
  }

  /** `callWithParams`' loop: `params` gets the controller for the instance parameter
      first, then each parameter's binding in turn. */
  method CallWithParams(ps: seq<KParam>, req: Request, sps: Option<seq<SwaggerParam>>) returns (r: Result<map<nat, Arg>, Failure>)
    ensures r == BoundArgs(ps, req, sps)
  {
    ghost var rs := Bindings(ps, req, sps);
    var params: map<nat, Arg> := map[];
    var instance := InstanceIndex(ps);
    if instance.Some? {
      params := params[instance.value := Controller];
    }
    var n := 0;
    while n < |ps|
      invariant 0 <= n <= |ps|
      invariant Bound(rs, n, instance, params)
    {
      assert n in params <==> instance == Some(n);
      var next := BindParameter(ps, n, req, sps, params);
      if next.Err? {
        CollectStops(rs, n + 1, |ps|);
        return next;
      }
      assert rs[n] == RouterArg(ps, n, req, sps);
      BindStep(rs, n, instance, params, next.value);
      params := next.value;
      n := n + 1;
    }
    assert Pending(instance, n) == map[];
    assert params == Collect(rs, n).value;
    r := Ok(params);
  }

  /** An optional parameter with no value is left out of the argument map, so Kotlin's
      default applies; a required one is passed null. */
  lemma UnboundParameters(ps: seq<KParam>, i: nat, req: Request, sps: Option<seq<SwaggerParam>>)
    requires i < |ps| && ps[i].kind == ValueParam && ps[i].ptype != RoutingContextType && ps[i].body.None?
    requires FindSwaggerParam(sps, ps[i].name).None?
    ensures ps[i].isOptional ==> RouterArg(ps, i, req, sps) == Ok(None)
    ensures !ps[i].isOptional ==> RouterArg(ps, i, req, sps) == Ok(Some(NullArg))
  {
  }

  /** A query parameter: a List parameter gets every value, another the first value
      parsed, and with no value it is left out or passed null as above. */
  lemma QueryParameters(ps: seq<KParam>, i: nat, req: Request, sps: Option<seq<SwaggerParam>>)
    requires i < |ps| && ps[i].kind == ValueParam && ps[i].ptype != RoutingContextType && ps[i].body.None?
    requires FindSwaggerParam(sps, ps[i].name) == Some(SwaggerParam(ps[i].name, "query"))
    ensures ps[i].ptype == ListType ==> RouterArg(ps, i, req, sps) == Ok(Some(TextList(QueryValues(req, ps[i].name))))
    ensures ps[i].ptype == StringType && QueryValues(req, ps[i].name) != [] ==>
      RouterArg(ps, i, req, sps) == Ok(Some(TextArg(QueryValues(req, ps[i].name)[0])))
    ensures ps[i].ptype != ListType && QueryValues(req, ps[i].name) == [] ==>
      RouterArg(ps, i, req, sps) == (if ps[i].isOptional then Ok(None) else Ok(Some(NullArg)))
  {
  }

  // ---------------------------------------------------------------------------
  // One request

  /** One request on an operation route, after JWT verification and request
      validation: the role step when the route has roles, binding, the controller call,
      and the reply that the handler or the failure handler writes (None: nothing is
      written). `invoke` stands for the controller method. */
  function ServeRequest(route: RouteDef, principal: map<string, Json>, req: Request,
                        invoke: map<nat, Arg> -> Result<Value, Failure>): (r: Option<Reply>)
    ensures r.Some? && r.value.status != DefaultStatus ==> 400 <= r.value.status < 600
    ensures r.None? ==>
      (BoundArgs(route.params, req, route.swaggerParams).Ok? &&
       invoke(BoundArgs(route.params, req, route.swaggerParams).value).Ok? &&
       Settled(invoke(BoundArgs(route.params, req, route.swaggerParams).value).value).UnitValue?)
  {
    var denied := if NeedsJwt(route.roles) then RoleFailure(route.roles.value, principal) else None;
    if denied.Some? then ReplyWithError(NoStatus, denied)
    else match BoundArgs(route.params, req, route.swaggerParams)
      case Err(e) => ReplyWithError(NoStatus, Some(e))
      case Ok(args) =>
        match invoke(args)
        case Err(e) => ReplyWithError(NoStatus, Some(e))
        case Ok(v) => HandleResponse(NoStatus, v)
  }

  /** A caller without the required roles gets 403 and the controller is never called. */
  lemma DeniedBeforeBinding(route: RouteDef, principal: map<string, Json>, req: Request,
                            invoke: map<nat, Arg> -> Result<Value, Failure>,
                            other: map<nat, Arg> -> Result<Value, Failure>)
    requires NeedsJwt(route.roles)
    requires JwtAuthHelper.GetRolesField(principal).RolesArray?
    requires !JwtAuthHelper.Authorized(route.roles.value, JwtAuthHelper.GetRolesField(principal).roles)
    ensures ServeRequest(route, principal, req, invoke) == Some(Reply(403, true, ErrorJson(AuthorizationError, None, [])))
    ensures ServeRequest(route, principal, req, invoke) == ServeRequest(route, principal, req, other)
  {
  }

  /** A route without roles ignores the principal. */
  lemma NoRolesNoCheck(route: RouteDef, p1: map<string, Json>, p2: map<string, Json>, req: Request,
                       invoke: map<nat, Arg> -> Result<Value, Failure>)
    requires !NeedsJwt(route.roles)
    ensures ServeRequest(route, p1, req, invoke) == ServeRequest(route, p2, req, invoke)
  {
  }

  /** A path value that is not a number, for an Int parameter, ends in a 500 reply
      without calling the controller. */
  lemma BadNumberIs500(route: RouteDef, principal: map<string, Json>, req: Request,
                       invoke: map<nat, Arg> -> Result<Value, Failure>, i: nat)
    requires !NeedsJwt(route.roles)
    requires i < |route.params|
    requires forall k :: 0 <= k < i ==> RouterArg(route.params, k, req, route.swaggerParams).Ok?
    requires RouterArg(route.params, i, req, route.swaggerParams) == Err(Thrown(NumberFormat, None))
    ensures ServeRequest(route, principal, req, invoke) == Some(Reply(500, false, Text("")))
  {
    var rs := Bindings(route.params, req, route.swaggerParams);
    CollectSpec(rs, |rs|);
    var b := BoundArgs(route.params, req, route.swaggerParams);
    assert b.Err?;
    var k :| 0 <= k < |rs| && rs[k] == Err(b.error) && forall j :: 0 <= j < k ==> rs[j].Ok?;
    assert k == i;
  }
}
