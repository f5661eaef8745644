/** DatabaseVerticle: an event-bus consumer that dispatches each message to a repository
    method. The classpath scan for Repository subclasses becomes a sequence of class
    descriptions, and calling the chosen method (and the Single it returns) becomes a
    parameter. */
module DatabaseVerticles {
  import opened Json
  import opened Wrappers
  import opened KotlinText
  import opened Responses

  /** A public method as reflection reports it: its name and its parameters' names. */
  datatype MethodDecl = MethodDecl(name: string, params: seq<string>)

  /** A Repository subclass found by the scan: its simple name and its public methods,
      in `getMethods()` order. */
  datatype ResourceClass = ResourceClass(simpleName: string, methods: seq<MethodDecl>)

  /** What calling the method gives: a Single that emits a value or fails, an exception
      thrown by the call itself, or a result that is not a Single. */
  datatype Invocation = Emits(value: Json) | Fails(error: Failure) | ThrowsNow(thrown: Failure) | NotSingle

  /** How the consumer ends: a reply to the message, or an exception out of the handler
      (no reply is sent). */
  datatype Outcome = Replies(reply: Json) | Throws(failure: Failure)

  // ---------------------------------------------------------------------------
  // modelResources

  /** The resource key of a class: its simple name lower-cased, without a trailing "repo"
      and then without a trailing "repository". */
  function ResourceKey(simpleName: string): (k: string)
    ensures |k| <= |simpleName|
    ensures forall i :: 0 <= i < |k| ==> k[i] == LowerChar(simpleName[i])
  {
    RemoveSuffix(RemoveSuffix(Lower(simpleName), "repo"), "repository")
  }

  lemma LowerAppend(a: string, b: string)
    ensures Lower(a + b) == Lower(a) + Lower(b)
  {
    var t := Lower(a) + Lower(b);
    forall i | 0 <= i < |a + b|
      ensures LowerChar((a + b)[i]) == t[i]
    {
      if i < |a| {
        assert (a + b)[i] == a[i] && t[i] == Lower(a)[i];
      } else {
        assert (a + b)[i] == b[i - |a|] && t[i] == Lower(b)[i - |a|];
      }
    }
    LowerIs(a + b, t);
  }

  lemma LowerIs(s: string, t: string)
    requires |s| == |t| && forall i :: 0 <= i < |s| ==> LowerChar(s[i]) == t[i]
    ensures Lower(s) == t
  {
  }

  lemma RemoveSuffixOf(x: string, suffix: string)
    ensures RemoveSuffix(x + suffix, suffix) == x
  {
    assert (x + suffix)[|x|..] == suffix;
  }

  lemma LowerRepo()
    ensures Lower("Repo") == "repo"
  {
    LowerIs("Repo", "repo");
  }

  lemma LowerRepository()
    ensures Lower("Repository") == "repository"
  {
    LowerIs("Repository", "repository");
  }

  /** A text that ends with a suffix ends with the suffix's last character. */
  lemma EndsWithLast(s: string, suffix: string)
    requires suffix != []
    ensures EndsWith(s, suffix) ==> s[|s| - 1] == suffix[|suffix| - 1]
  {
    if EndsWith(s, suffix) {
      assert s[|s| - |suffix|..][|suffix| - 1] == s[|s| - 1];
    }
  }

  /** The two suffix removals on a lower-cased name ending in "repo". */
  lemma StripRepo(n: string)
    requires !EndsWith(n, "repository")
    ensures RemoveSuffix(RemoveSuffix(n + "repo", "repo"), "repository") == n
  {
    RemoveSuffixOf(n, "repo");
  }

  /** The two suffix removals on a lower-cased name ending in "repository". */
  lemma StripRepository(n: string)
    ensures RemoveSuffix(RemoveSuffix(n + "repository", "repo"), "repository") == n
  {
    var lowered := n + "repository";
    EndsWithLast(lowered, "repo");
    assert lowered[|lowered| - 1] == 'y';
    RemoveSuffixOf(n, "repository");
  }

  /** A class named `<Name>Repo` is keyed by its lower-cased name. */
  lemma ResourceKeyOfRepo(name: string)
    requires !EndsWith(Lower(name), "repository")
    ensures ResourceKey(name + "Repo") == Lower(name)
  {
    LowerRepo();
    LowerAppend(name, "Repo");
    StripRepo(Lower(name));
  }

  /** A class named `<Name>Repository` is keyed by its lower-cased name. */
  lemma ResourceKeyOfRepository(name: string)
    ensures ResourceKey(name + "Repository") == Lower(name)
  {
    LowerRepository();
    LowerAppend(name, "Repository");
    StripRepository(Lower(name));
  }

  lemma LowerInventory()
    ensures Lower("Inventory") == "inventory"
  {
    LowerIs("Inventory", "inventory");
  }

  lemma InventoryRepoName()
    ensures "Inventory" + "Repo" == "InventoryRepo"
  {
  }

  lemma InventoryRepoKey()
    ensures ResourceKey("InventoryRepo") == "inventory"
  {
    InventoryRepoName();
    LowerInventory();
    ResourceKeyOfRepo("Inventory");
  }

  /** `modelResources`: each scanned class under its resource key; a later class with
      the same key replaces an earlier one (`toMap`). */
  function ModelResources(classes: seq<ResourceClass>): (r: map<string, ResourceClass>)
  {
    if classes == [] then map[]
    else
      var last := classes[|classes| - 1];
      ModelResources(classes[..|classes| - 1])[ResourceKey(last.simpleName) := last]
  }

  /** Every scanned class is reachable by its key, and each key holds a scanned class
      with that key. */
  lemma {:induction false} ModelResourcesSpec(classes: seq<ResourceClass>)
    ensures forall c :: c in classes ==> ResourceKey(c.simpleName) in ModelResources(classes)
    ensures forall k :: k in ModelResources(classes) ==>
      ModelResources(classes)[k] in classes && ResourceKey(ModelResources(classes)[k].simpleName) == k
  {
    if classes != [] {
      var init := classes[..|classes| - 1];
      assert classes == init + [classes[|classes| - 1]];
      ModelResourcesSpec(init);
    }
  }

  /** The last scanned class with a key is the one kept. */
  lemma LaterClassWins(classes: seq<ResourceClass>, c: ResourceClass)
    ensures ModelResources(classes + [c])[ResourceKey(c.simpleName)] == c
  {
    assert (classes + [c])[..|classes|] == classes;
  }

  // ---------------------------------------------------------------------------
  // The consumer

  /** `methods.filter { it.name.toLowerCase() == action.toLowerCase() }.first()`: the
      first method whose name matches the action ignoring case. */
  function SelectMethod(methods: seq<MethodDecl>, action: string): (r: Option<MethodDecl>)
    ensures r.Some? ==> r.value in methods && Lower(r.value.name) == Lower(action)
    ensures r.None? <==> forall i :: 0 <= i < |methods| ==> Lower(methods[i].name) != Lower(action)
  {
    if methods == [] then None
    else if Lower(methods[0].name) == Lower(action) then Some(methods[0])
    else SelectMethod(methods[1..], action)
  }

  /** When several methods match, the first one in the order reflection returns them is chosen. */
  lemma {:induction false} SelectMethodFirst(methods: seq<MethodDecl>, action: string, i: nat)
    requires i < |methods| && Lower(methods[i].name) == Lower(action)
    requires forall j :: 0 <= j < i ==> Lower(methods[j].name) != Lower(action)
    ensures SelectMethod(methods, action) == Some(methods[i])
  {
    if i > 0 {
      assert Lower(methods[0].name) != Lower(action);
      assert methods[1..][i - 1] == methods[i];
      SelectMethodFirst(methods[1..], action, i - 1);
    }
  }

  /** `params`: one argument per declared parameter, in order, each the body's value under
      the parameter's name (null when absent). The body is a platform value passed as a
      non-null argument, so a null body fails Kotlin's check before any parameter is
      read, whatever the parameters are. */
  function Params(body: Option<map<string, Json>>, names: seq<string>): (r: Result<seq<Json>, Failure>)
    ensures body.None? ==> r == Err(Thrown(IllegalState, None))
    ensures body.Some? ==> r.Ok? && |r.value| == |names|
    ensures body.Some? ==> forall i :: 0 <= i < |names| ==> r.value[i] == Lookup(body.value, names[i])
  {
    match body
    case None => Err(Thrown(IllegalState, None))
    case Some(fields) => Ok(Lookups(fields, names))
  }

  /** The `fold` of `params`: the values under the names, appended one by one. */
  function Lookups(fields: map<string, Json>, names: seq<string>): (vs: seq<Json>)
    ensures |vs| == |names|
    ensures forall i :: 0 <= i < |names| ==> vs[i] == Lookup(fields, names[i])
  {
    if names == [] then []
    else Lookups(fields, names[..|names| - 1]) + [Lookup(fields, names[|names| - 1])]
  }

  /** A missing header renders as "null" in a string template. */
  function Shown(header: Option<string>): string
  {
    match header
    case None => "null"
    case Some(s) => s
  }

  class DatabaseVerticle {
    var resources: map<string, ResourceClass>
    var dbName: string

    constructor()
      ensures resources == map[] && dbName == ""
    {
      resources := map[];
      dbName := "";
    }

    /** `rxStart`, once the pool is configured: the database name from the configuration
        and the resources from the scan. */
    method Start(configuredDbName: string, scanned: seq<ResourceClass>)
      modifies this
      ensures dbName == configuredDbName
      ensures resources == ModelResources(scanned)
    {
      dbName := configuredDbName;
      resources := ModelResources(scanned);
    }

    /** The address the consumer listens on. */
    function Address(): (a: string)
      reads this
      ensures a == "db." + dbName
    {
      "db." + dbName
    }

    /** One message: the resource header selects a resource (an unknown or missing one
        throws IllegalArgumentException naming both headers), and the rest is `Run`. */
    function Consume(headers: map<string, string>, body: Option<map<string, Json>>,
                     invoke: (ResourceClass, MethodDecl, seq<Json>) -> Invocation): (r: Outcome)
      reads this
      ensures !("resource" in headers && headers["resource"] in resources) ==>
        r == Throws(Thrown(IllegalArgument, Some("invalid action: " + Shown(Header(headers, "action")) +
                                                 ", on resource: " + Shown(Header(headers, "resource")))))
      ensures "resource" in headers && headers["resource"] in resources ==>
        r == Run(resources[headers["resource"]], Header(headers, "action"), body, invoke)
    {
      var resource := Header(headers, "resource");
      var action := Header(headers, "action");
      if resource.None? || resource.value !in resources then
        Throws(Thrown(IllegalArgument, Some("invalid action: " + Shown(action) + ", on resource: " + Shown(resource))))
      else Run(resources[resource.value], action, body, invoke)
    }
  }

  function Header(headers: map<string, string>, name: string): (r: Option<string>)
    ensures r.Some? <==> name in headers
    ensures r.Some? ==> r.value == headers[name]
  {
    if name in headers then Some(headers[name]) else None
  }

  /** The message on a known resource: the action header selects its first method by
      name ignoring case (none throws NoSuchElementException; a missing action fails on
      `toLowerCase` as soon as there is a method to compare), the body supplies the
      arguments, and the Single's value is the reply, or "error" when it fails. */
  function Run(resourceObj: ResourceClass, action: Option<string>, body: Option<map<string, Json>>,
               invoke: (ResourceClass, MethodDecl, seq<Json>) -> Invocation): (r: Outcome)
    ensures action.Some? && SelectMethod(resourceObj.methods, action.value).None? ==> r == Throws(Thrown(NoSuchElement, None))
    ensures action.Some? && SelectMethod(resourceObj.methods, action.value).Some? && body.None? ==>
      r == Throws(Thrown(IllegalState, None))
    ensures action.Some? && SelectMethod(resourceObj.methods, action.value).Some? && body.Some? ==>
      var m := SelectMethod(resourceObj.methods, action.value).value;
      var args := Params(body, m.params).value;
      match invoke(resourceObj, m, args)
      case Emits(v) => r == Replies(v)
      case Fails(_) => r == Replies(JStr("error"))
      case ThrowsNow(e) => r == Throws(e)
      case NotSingle => r == Throws(Thrown(ClassCast, None))
  {
    if action.None? then
      Throws(Thrown(if resourceObj.methods == [] then NoSuchElement else NullPointer, None))
    else RunSelected(resourceObj, SelectMethod(resourceObj.methods, action.value), body, invoke)
  }

  /** The message once the method has been selected, or none was. */
  function RunSelected(resourceObj: ResourceClass, selected: Option<MethodDecl>, body: Option<map<string, Json>>,
                       invoke: (ResourceClass, MethodDecl, seq<Json>) -> Invocation): Outcome
  {
    match selected
    case None => Throws(Thrown(NoSuchElement, None))
    case Some(m) =>
      match Params(body, m.params)
      case Err(e) => Throws(e)
      case Ok(args) =>
        match invoke(resourceObj, m, args)
        case Emits(v) => Replies(v)
        case Fails(_) => Replies(JStr("error"))
        case ThrowsNow(e) => Throws(e)
        case NotSingle => Throws(Thrown(ClassCast, None))
  }

  /** The action is matched ignoring case: actions that lower-case alike give the same outcome. */
  lemma ActionIgnoresCase(resourceObj: ResourceClass, a: string, b: string, body: Option<map<string, Json>>,
                          invoke: (ResourceClass, MethodDecl, seq<Json>) -> Invocation)
    requires Lower(a) == Lower(b)
    ensures Run(resourceObj, Some(a), body, invoke) == Run(resourceObj, Some(b), body, invoke)
  {
    SelectSameForSameLower(resourceObj.methods, a, b);
    assert Run(resourceObj, Some(a), body, invoke) == RunSelected(resourceObj, SelectMethod(resourceObj.methods, a), body, invoke);
  }

  /** The method called gets one argument per parameter, the body's value under that
      parameter's name, in declaration order. */
  lemma DispatchArguments(resourceObj: ResourceClass, action: string, fields: map<string, Json>,
                          invoke: (ResourceClass, MethodDecl, seq<Json>) -> Invocation)
    requires SelectMethod(resourceObj.methods, action).Some?
    ensures var m := SelectMethod(resourceObj.methods, action).value;
      Params(Some(fields), m.params) == Ok(seq(|m.params|, i requires 0 <= i < |m.params| => Lookup(fields, m.params[i])))
  {
    var m := SelectMethod(resourceObj.methods, action).value;
    var args := seq(|m.params|, i requires 0 <= i < |m.params| => Lookup(fields, m.params[i]));
    assert Params(Some(fields), m.params).value == args;
  }

  lemma {:induction false} SelectSameForSameLower(methods: seq<MethodDecl>, a: string, b: string)
    requires Lower(a) == Lower(b)
    ensures SelectMethod(methods, a) == SelectMethod(methods, b)
  {
    if methods != [] {
      SelectSameForSameLower(methods[1..], a, b);
    }
  }
}
