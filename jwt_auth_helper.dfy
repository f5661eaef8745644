/** Role checks on a verified JWT principal (JwtAuthHelper.kt).

    A route's `x-auth-roles` requirement maps up to three bucket names to role lists.
    Each bucket that is present must pass:
      - "oneOf": exactly one entry of the required list is among the user's roles,
        counting the entries of the required list (a repeated role counts twice);
      - "anyOf": some entry of the required list is among the user's roles;
      - "allOf": the user's role array equals the required list, element by element. */
module JwtAuthHelper {
  import opened Json
  import opened Wrappers

  /** `Roles`: bucket name to required role names. */
  type Roles = map<string, seq<string>>

  /** What a request gets from the authorization handlers. */
  datatype AuthOutcome =
    | Pass              // handed on to the route's next handler
    | Unauthenticated   // the JWT handler rejected the token (401)
    | Stalled           // a handler returned without replying and without handing the request on
    | Denied            // AuthorizationException
    | Crashed           // a runtime exception other than AuthorizationException

  /** `userRoles.contains(role)` for a required role name. */
  predicate HasRole(user: seq<Json>, role: string)
  {
    JStr(role) in user
  }

  /** How many entries of `required` the user holds, counting repeated entries each time. */
  function Matches(user: seq<Json>, required: seq<string>): nat
  {
    if required == [] then 0
    else Matches(user, required[..|required| - 1]) + (if HasRole(user, required[|required| - 1]) then 1 else 0)
  }

  /** Extending the required list never lowers the count. */
  lemma {:induction false} MatchesPrefix(user: seq<Json>, required: seq<string>, i: nat)
    requires i <= |required|
    ensures Matches(user, required[..i]) <= Matches(user, required)
    decreases |required| - i
  {
    if i < |required| {
      MatchesPrefix(user, required, i + 1);
      assert required[..i + 1][..i] == required[..i];
    } else {
      assert required[..i] == required;
    }
  }

  /** The count is positive exactly when some required entry is held. */
  lemma {:induction false} MatchesPositive(user: seq<Json>, required: seq<string>)
    ensures Matches(user, required) > 0 <==> exists j :: 0 <= j < |required| && HasRole(user, required[j])
  {
    if required != [] {
      var init := required[..|required| - 1];
      MatchesPositive(user, init);
      if exists j :: 0 <= j < |init| && HasRole(user, init[j]) {
        var j :| 0 <= j < |init| && HasRole(user, init[j]);
        assert required[j] == init[j];
      }
      if exists j :: 0 <= j < |required| && HasRole(user, required[j]) {
        var j :| 0 <= j < |required| && HasRole(user, required[j]);
        if j < |init| {
          assert init[j] == required[j];
        }
      }
    }
  }

  /** The predicate every present bucket must satisfy. */
  predicate Authorized(required: Roles, user: seq<Json>)
  {
    && ("oneOf" in required ==> Matches(user, required["oneOf"]) == 1)
    && ("anyOf" in required ==> Matches(user, required["anyOf"]) > 0)
    && ("allOf" in required ==> user == Strings(required["allOf"]))
  }

  /** `oneOf`: scans the required list with a `hasOne` flag and gives up at the second match. */
  method OneOf(user: seq<Json>, required: seq<string>) returns (b: bool)
    ensures b <==> Matches(user, required) == 1
  {
    var hasOne := false;
    var i := 0;
    while i < |required|
      invariant 0 <= i <= |required|
      invariant Matches(user, required[..i]) <= 1
      invariant hasOne <==> Matches(user, required[..i]) == 1
    {
      assert required[..i + 1][..i] == required[..i];
      if JStr(required[i]) in user {
        if hasOne {
          MatchesPrefix(user, required, i + 1);
          return false;
        }
        hasOne := true;
      }
      i := i + 1;
    }
    assert required[..i] == required;
    return hasOne;
  }

  /** `anyOf`: returns at the first required role the user holds. */
  method AnyOf(user: seq<Json>, required: seq<string>) returns (b: bool)
    ensures b <==> exists j :: 0 <= j < |required| && HasRole(user, required[j])
  {
    var i := 0;
    while i < |required|
      invariant 0 <= i <= |required|
      invariant forall j :: 0 <= j < i ==> !HasRole(user, required[j])
    {
      if JStr(required[i]) in user {
        return true;
      }
      i := i + 1;
    }
    return false;
  }

  /** `allOf`: JsonArray equality, so the same roles in the same order and nothing more. */
  function AllOf(user: seq<Json>, required: seq<string>): (b: bool)
    ensures b ==> |user| == |required|
    ensures b <==> |user| == |required| && forall j :: 0 <= j < |user| ==> user[j] == JStr(required[j])
  {
    user == Strings(required)
  }

  /** `authenticateUserRoles`: true where the source returns, false where it throws
      AuthorizationException. */
  method AuthenticateUserRoles(required: Roles, user: seq<Json>) returns (ok: bool)
    ensures ok <==> Authorized(required, user)
  {
    ok := true;
    if "oneOf" in required {
      var one := OneOf(user, required["oneOf"]);
      ok := ok && one;
    }
    if ok && "anyOf" in required {
      var any := AnyOf(user, required["anyOf"]);
      MatchesPositive(user, required["anyOf"]);
      ok := ok && any;
    }
    if ok && "allOf" in required {
      ok := AllOf(user, required["allOf"]);
    }
  }

  /** The principal's "roles" field as `getJsonArray("roles", JsonArray())` sees it. */
  datatype RolesField = RolesArray(roles: seq<Json>) | RolesNull | RolesNotArray

  function GetRolesField(principal: map<string, Json>): (f: RolesField)
    ensures "roles" !in principal ==> f == RolesArray([])
    ensures "roles" in principal && principal["roles"].JArr? ==> f == RolesArray(principal["roles"].items)
    ensures f == RolesNull <==> "roles" in principal && principal["roles"] == JNull
  {
    if "roles" !in principal then RolesArray([])
    else match principal["roles"]
      case JNull => RolesNull
      case JArr(xs) => RolesArray(xs)
      case _ => RolesNotArray
  }

  /** What the role-check handler decides: a null "roles" falls back to no roles; a
      "roles" field that is not an array fails the cast. */
  function RoleCheckOutcome(required: Roles, principal: map<string, Json>): (o: AuthOutcome)
    ensures o != Unauthenticated && o != Stalled
  {
    match GetRolesField(principal)
    case RolesArray(user) => if Authorized(required, user) then Pass else Denied
    case RolesNull => if Authorized(required, []) then Pass else Denied
    case RolesNotArray => Crashed
  }

  /** The role-check handler of `createAuthHandlers`. */
  method CheckRoles(required: Roles, principal: map<string, Json>) returns (o: AuthOutcome)
    ensures o == RoleCheckOutcome(required, principal)
  {
    var field := GetRolesField(principal);
    if field.RolesNotArray? {
      return Crashed;
    }
    var user := if field.RolesArray? then field.roles else [];
    var ok := AuthenticateUserRoles(required, user);
    o := if ok then Pass else Denied;
  }

  /** The handlers `createAuthHandlers` returns, in order. A role check either calls
      `context.next()` once the roles are accepted, or simply returns. */
  datatype AuthHandler = VerifyJwt | RoleCheck(required: Roles, callsNext: bool)

  /** As written: the role handler returns after `authenticateUserRoles` without calling
      `context.next()`. */
  function CreateAuthHandlers(required: Roles): (hs: seq<AuthHandler>)
    ensures |hs| == 2 && hs[0].VerifyJwt? && hs[1] == RoleCheck(required, false)
  {
    [VerifyJwt, RoleCheck(required, false)]
  }

  /** Corrected: the role handler hands an accepted request on with `context.next()`. */
  function CreateAuthHandlersCorrected(required: Roles): (hs: seq<AuthHandler>)
    ensures |hs| == 2 && hs[0].VerifyJwt? && hs[1] == RoleCheck(required, true)
  {
    [VerifyJwt, RoleCheck(required, true)]
  }

  /** Runs a handler chain the way Vert.x web does: each handler hands the request on
      (`Pass`) or ends it; a handler that returns without `next()` and without a reply
      leaves the request stalled. */
  function RunChain(hs: seq<AuthHandler>, tokenValid: bool, principal: map<string, Json>): AuthOutcome
  {
    if hs == [] then Pass
    else
      var here := match hs[0]
        case VerifyJwt => if tokenValid then Pass else Unauthenticated
        case RoleCheck(required, callsNext) =>
          var o := RoleCheckOutcome(required, principal);
          if o == Pass && !callsNext then Stalled else o;
      if here == Pass then RunChain(hs[1..], tokenValid, principal) else here
  }

  // ---------------------------------------------------------------------------
  // Properties

  /** As written, a bad token is rejected first, and a request whose roles are accepted
      is stalled: it is never handed on to the route's service handlers. */
  lemma AuthHandlersOrderAsWritten(required: Roles, tokenValid: bool, principal: map<string, Json>)
    ensures !tokenValid ==> RunChain(CreateAuthHandlers(required), tokenValid, principal) == Unauthenticated
    ensures tokenValid ==> RunChain(CreateAuthHandlers(required), tokenValid, principal)
                           == (if RoleCheckOutcome(required, principal) == Pass then Stalled else RoleCheckOutcome(required, principal))
    ensures RunChain(CreateAuthHandlers(required), tokenValid, principal) != Pass
  {
    var hs := CreateAuthHandlers(required);
    assert hs[1..] == [RoleCheck(required, false)];
    if tokenValid {
      assert RunChain(hs, tokenValid, principal) == RunChain(hs[1..], tokenValid, principal);
    }
  }

  /** Corrected, the JWT handler runs first: a bad token is rejected before roles are
      looked at, and with a good token the role check alone decides. */
  lemma AuthHandlersOrder(required: Roles, tokenValid: bool, principal: map<string, Json>)
    ensures !tokenValid ==> RunChain(CreateAuthHandlersCorrected(required), tokenValid, principal) == Unauthenticated
    ensures tokenValid ==> RunChain(CreateAuthHandlersCorrected(required), tokenValid, principal) == RoleCheckOutcome(required, principal)
  {
    var hs := CreateAuthHandlersCorrected(required);
    var rest := [RoleCheck(required, true)];
    assert hs[1..] == rest && rest[1..] == [];
    if tokenValid {
      assert RunChain(hs, tokenValid, principal) == RunChain(rest, tokenValid, principal);
      var o := RoleCheckOutcome(required, principal);
      assert RunChain(rest, tokenValid, principal) == if o == Pass then RunChain([], tokenValid, principal) else o;
    }
  }

  /** Absent buckets impose nothing: an empty requirement always passes. */
  lemma EmptyRequirementPasses(user: seq<Json>)
    ensures Authorized(map[], user)
  {
  }

  /** A principal without roles fails every oneOf and anyOf bucket. */
  lemma NoRolesFailsOneOfAndAnyOf(required: Roles, principal: map<string, Json>)
    requires "roles" !in principal || principal["roles"] == JNull
    requires "oneOf" in required || "anyOf" in required
    ensures RoleCheckOutcome(required, principal) == Denied
  {
    if "oneOf" in required {
      MatchesPositive([], required["oneOf"]);
    } else {
      MatchesPositive([], required["anyOf"]);
    }
  }

  /** oneOf is "exactly one": holding both of [admin, owner] fails, holding one passes. */
  lemma OneOfIsExactlyOne()
    ensures !Authorized(map["oneOf" := ["admin", "owner"]], [JStr("admin"), JStr("owner")])
    ensures Authorized(map["oneOf" := ["admin", "owner"]], [JStr("admin")])
  {
    var req := ["admin", "owner"];
    assert req[..1] == ["admin"];
    assert req[..1][..0] == [];
  }

  /** oneOf counts entries of the required list: a held role listed twice fails. */
  lemma OneOfCountsRepeatedEntries(role: string, user: seq<Json>)
    requires HasRole(user, role)
    ensures Matches(user, [role, role]) == 2
    ensures !Authorized(map["oneOf" := [role, role]], user)
  {
    assert [role, role][..1] == [role];
    assert [role][..0] == [];
    assert Matches(user, [role]) == 1;
  }

  /** An empty required list fails both oneOf and anyOf. */
  lemma EmptyListsFail(user: seq<Json>)
    ensures !Authorized(map["oneOf" := []], user)
    ensures !Authorized(map["anyOf" := []], user)
  {
  }

  /** anyOf passes exactly when some required role is held. */
  lemma AnyOfMeansSomeMatch(required: seq<string>, user: seq<Json>)
    ensures Authorized(map["anyOf" := required], user) <==> exists j :: 0 <= j < |required| && HasRole(user, required[j])
  {
    MatchesPositive(user, required);
  }

  /** allOf is not a subset check: an extra role fails it. */
  lemma AllOfRejectsSuperset(required: seq<string>, extra: Json)
    ensures Authorized(map["allOf" := required], Strings(required))
    ensures !Authorized(map["allOf" := required], Strings(required) + [extra])
  {
  }

  /** allOf is ordered: the same two roles the other way round fail it. */
  lemma AllOfRejectsReordering(a: string, b: string)
    requires a != b
    ensures !Authorized(map["allOf" := [a, b]], [JStr(b), JStr(a)])
  {
    assert Strings([a, b])[0] == JStr(a);
  }
}
