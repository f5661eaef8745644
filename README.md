# vertx-kuickstart core, modelled in Dafny

This project models the request-handling core of vertx-kuickstart, a Kotlin service template on Vert.x. An OpenAPI file describes the HTTP API. Each operation's `operationId` (`Controller.method`) names the controller method that serves it.

The modelled core covers:

- **SwaggerRouter**: builds one route per OpenAPI operation; checks the JWT roles listed under `x-auth-roles`; binds path, query and body values to the method's parameters; writes the result or the error as the response.
- **SwaggerServiceHandler**: the same binding behind a per-method time limit (`@Timeout`, default 30000 ms).
- **ServiceHandler**: forwards the request body over the event bus to the operationId's address.
- **JwtAuthHelper**: the `oneOf` / `anyOf` / `allOf` role checks.
- **ImmutableJson**: value-semantics views over Vert.x's mutable `JsonObject` and `JsonArray`.
- **DatabaseVerticle**: an event-bus consumer that dispatches a message to a repository method by its `resource` and `action` headers.
- **Repository**: table access, and the shaping of SQL rows into JSON objects.
- **InventoryController**: get, post, merge-patch and delete of inventory items.

How the model is built:

- JSON values are the `Json` datatype (`json.dfy`).
- Vert.x's mutable containers are classes whose methods change their fields (`mutable_json.dfy`).
- Exceptions are values of `Failure` (`responses.dfy`).
- A written HTTP response is a `Reply`: its status, whether the JSON content type was set, and its body.
- Reflection is replaced by explicit descriptions: the controller classes become a `Registry` map, and a method's parameters become `KParam` values.
- These become parameters of the functions that use them:
  - the database, as a function from query text and arguments to rows;
  - the event bus, as a function from address and body to an outcome;
  - the controller call, as a function from the argument map to a completion.

Notes on behaviour, where the model follows the code rather than the documented intent:

- **`replyWithError` with a null failure.** The failure handlers pass `context.failure()` to `replyWithError`, whose parameter is non-null. A null failure therefore throws, and nothing is written. `Responses.ReplyWithError` gives `None` in that case.
- **Optional parameters in SwaggerServiceHandler.** Its `callWithParams` puts an entry for every parameter, so an optional parameter is passed null and its Kotlin default is never used. SwaggerRouter leaves such a parameter out of the argument map.
- **`oneOf` means exactly one.** Entries are counted along the required list, so a held role listed twice fails. `allOf` is JsonArray equality: the same roles in the same order, and nothing more.
- **Roles in SwaggerRouter.** `getJsonArray("roles", JsonArray())` returns null for an explicit JSON null. SwaggerRouter passes that null to `authenticateUser`, whose parameter is non-null, so Kotlin's argument check throws an IllegalStateException. JwtAuthHelper falls back to an empty array instead.
- **A `Unit` result.** SwaggerServiceHandler ends the response empty. SwaggerRouter and ServiceHandler write nothing.
- **Exception status codes.** A `ResponseCodeException` carries its own status. The exceptions package is not part of this model, so the codes are assumed: authorization 403, model not found 404, timeout 504.
- **Parameter names.** The model binds parameters by their declared names. This assumes the code is compiled so that reflection sees the source names (`-java-parameters`); otherwise reflection reports `arg0`, `arg1`, ….

## Model

| member | source | states |
|---|---|---|
| KotlinText.Split | src/main/kotlin/dev/fuelyour/tools/SwaggerRouter.kt:55 | `split('.')` always yields at least one part, and no part contains the delimiter |
| KotlinText.JoinSplit | src/main/kotlin/dev/fuelyour/tools/SwaggerRouter.kt:55 | joining the parts of a split with the delimiter gives the original text back |
| KotlinText.SplitJoin | src/main/kotlin/dev/fuelyour/tools/SwaggerRouter.kt:55 | splitting the join of delimiter-free parts gives those parts back |
| KotlinText.SplitFirstPart | src/main/kotlin/dev/fuelyour/tools/SwaggerRouter.kt:55-58 | a delimiter-free prefix followed by the delimiter is the first part, and the rest splits on its own |
| KotlinText.SplitHasTwoParts | src/main/kotlin/dev/fuelyour/tools/SwaggerRouter.kt:55-57 | a split has at least two parts exactly when the delimiter occurs in the text |
| KotlinText.IndexOfChar | src/main/kotlin/dev/fuelyour/tools/SwaggerRouter.kt:55 | the index found holds the character, and no earlier position does |
| KotlinText.ReplaceChar | src/main/kotlin/dev/fuelyour/tools/SwaggerRouter.kt:52 | `replace(a, b)` keeps the length, and each position holds b where the text had a and the same character elsewhere |
| KotlinText.RemoveCharSpec | src/main/kotlin/dev/fuelyour/tools/SwaggerRouter.kt:52 | `replace("}", "")` leaves no `}`, keeps every other character as often as it occurs, and shortens the text by the number of `}` |
| KotlinText.RemoveCharAppend | src/main/kotlin/dev/fuelyour/tools/SwaggerRouter.kt:52 | deleting a character distributes over concatenation |
| KotlinText.RemoveCharAbsent | src/main/kotlin/dev/fuelyour/tools/SwaggerRouter.kt:52 | deleting a character that does not occur changes nothing |
| KotlinText.Lower | src/main/kotlin/dev/fuelyour/verticles/DatabaseVerticle.kt:31 | `toLowerCase()` keeps the length, lower-cases each position, and leaves no ASCII capital |
| KotlinText.RemoveSuffix | src/main/kotlin/dev/fuelyour/verticles/DatabaseVerticle.kt:43 | `removeSuffix` drops the suffix exactly once when the text ends with it, and otherwise changes nothing |
| KotlinText.ToInt | src/main/kotlin/dev/fuelyour/tools/SwaggerRouter.kt:163-164 | `toInt()` succeeds exactly on an optional sign followed by at least one digit whose value fits in 32 bits, and then gives that value |
| KotlinText.NatToString | src/main/kotlin/dev/fuelyour/tools/SwaggerRouter.kt:163-164 | the decimal text of a number is non-empty and all digits |
| KotlinText.DigitsOfNatToString | src/main/kotlin/dev/fuelyour/tools/SwaggerRouter.kt:163-164 | reading the digits of a number's decimal text gives the number back |
| KotlinText.ToIntOfIntToString | src/main/kotlin/dev/fuelyour/tools/SwaggerRouter.kt:163-164 | `toInt()` of the text of any 32-bit integer gives that integer back |
| KotlinText.ToBoolean | src/main/kotlin/dev/fuelyour/tools/SwaggerRouter.kt:165-166 | `toBoolean()` is true exactly for "true" in any letter case |
| KotlinText.ToBooleanOfBoolToString | src/main/kotlin/dev/fuelyour/tools/SwaggerRouter.kt:165-166 | a Boolean written as text and read back is unchanged |
| Json.Lookup | src/main/kotlin/dev/fuelyour/verticles/DatabaseVerticle.kt:65 | `getValue(key)` is the bound value, or null when the key is absent |
| MutableJson.IndexOf | src/main/kotlin/dev/fuelyour/tools/ImmutableJson.kt:390-394 | the index found holds the value, and no earlier element equals it |
| MutableJson.RemoveFirstMultiset | src/main/kotlin/dev/fuelyour/tools/ImmutableJson.kt:390-394 | `remove(item)` takes exactly one copy of the item out of the multiset of elements, and shortens the array by one exactly when the item was present |
| MutableJson.JsonObject.constructor | src/main/kotlin/dev/fuelyour/tools/ImmutableJson.kt:51-53 | a new object holds exactly the given entries |
| MutableJson.JsonObject.Put | src/main/kotlin/dev/fuelyour/repositories/Repository.kt:62 | `put` binds the key, also to null, and leaves every other entry |
| MutableJson.JsonObject.Remove | src/main/kotlin/dev/fuelyour/controllers/InventoryController.kt:50 | `remove` unbinds the key and returns what it held, or null |
| MutableJson.JsonObject.MergeIn | src/main/kotlin/dev/fuelyour/controllers/InventoryController.kt:49 | `mergeIn` puts every entry of the other object over this one's |
| MutableJson.JsonObject.Copy | src/main/kotlin/dev/fuelyour/tools/ImmutableJson.kt:204-205 | `copy` is a fresh object with the same entries |
| MutableJson.JsonArray.constructor | src/main/kotlin/dev/fuelyour/tools/ImmutableJson.kt:244-246 | a new array holds exactly the given elements |
| MutableJson.JsonArray.Add | src/main/kotlin/dev/fuelyour/tools/ImmutableJson.kt:299-303 | `add` appends one element at the end |
| MutableJson.JsonArray.AddAll | src/main/kotlin/dev/fuelyour/tools/ImmutableJson.kt:293-297 | `addAll` appends the other elements, in order |
| MutableJson.JsonArray.RemoveValue | src/main/kotlin/dev/fuelyour/tools/ImmutableJson.kt:390-394 | `remove(item)` drops only the first equal element, and reports whether there was one |
| MutableJson.JsonArray.RemoveAt | src/main/kotlin/dev/fuelyour/tools/ImmutableJson.kt:396-400 | `remove(index)` drops exactly the element at an index in range, and fails and changes nothing otherwise |
| MutableJson.JsonArray.Copy | src/main/kotlin/dev/fuelyour/tools/ImmutableJson.kt:290-291 | `copy` is a fresh array with the same elements |
| ImmutableJson.Merge | src/main/kotlin/dev/fuelyour/tools/ImmutableJson.kt:207-223 | `obj + other` has both key sets; the other's value wins, and every other key keeps this object's value |
| ImmutableJson.WithoutKeys | src/main/kotlin/dev/fuelyour/tools/ImmutableJson.kt:225-235 | `obj - keys` has exactly the keys not listed, with their values unchanged |
| ImmutableJson.RemoveEachMultiset | src/main/kotlin/dev/fuelyour/tools/ImmutableJson.kt:384-388 | `arr - other` removes exactly one copy of each element of `other` that is still present (multiset difference) |
| ImmutableJson.RemoveEachKeepsNoNulls | src/main/kotlin/dev/fuelyour/tools/ImmutableJson.kt:493-497 | removing elements from a null-free array leaves it null-free |
| ImmutableJson.RemoveFirstKeepsNoNulls | src/main/kotlin/dev/fuelyour/tools/ImmutableJson.kt:499-503 | removing one element from a null-free array leaves it null-free |
| ImmutableJson.FilterNullsSpec | src/main/kotlin/dev/fuelyour/tools/ImmutableJson.kt:419-422 | `filterNulls` has no null, and keeps every non-null element as often as it occurs |
| ImmutableJson.FilterNullsAppend | src/main/kotlin/dev/fuelyour/tools/ImmutableJson.kt:419-422 | `filterNulls` keeps the original order: it distributes over concatenation |
| ImmutableJson.FilterNullsIdentity | src/main/kotlin/dev/fuelyour/tools/ImmutableJson.kt:419-422 | `filterNulls` of a null-free array is the same array |
| ImmutableJson.PutEach | src/main/kotlin/dev/fuelyour/tools/ImmutableJson.kt:207-211 | putting every entry one at a time is the right-biased merge |
| ImmutableJson.ImmutableJsonObject.constructor | src/main/kotlin/dev/fuelyour/tools/ImmutableJson.kt:51-53 | the public constructor holds its own fresh copy of the source object |
| ImmutableJson.ImmutableJsonObject.Internal | src/main/kotlin/dev/fuelyour/tools/ImmutableJson.kt:55-57 | the internal constructor copies when asked to, and otherwise adopts the object itself |
| ImmutableJson.ImmutableJsonObject.ContainsKey | src/main/kotlin/dev/fuelyour/tools/ImmutableJson.kt:59-60 | `containsKey` is key membership, and implies a non-zero size |
| ImmutableJson.ImmutableJsonObject.Size | src/main/kotlin/dev/fuelyour/tools/ImmutableJson.kt:188-189 | `size` is the number of keys |
| ImmutableJson.ImmutableJsonObject.IsEmpty | src/main/kotlin/dev/fuelyour/tools/ImmutableJson.kt:163-164 | `isEmpty` holds exactly when the size is zero |
| ImmutableJson.ImmutableJsonObject.Equals | src/main/kotlin/dev/fuelyour/tools/ImmutableJson.kt:74-78 | `equals` compares entries with another view or a raw JsonObject, and is false for anything else |
| ImmutableJson.ImmutableJsonObject.GetValue | src/main/kotlin/dev/fuelyour/tools/ImmutableJson.kt:154-155 | `getValue` is the stored value (null when absent), with nested containers returned as fresh immutable views of the same contents |
| ImmutableJson.ImmutableJsonObject.ToJsonObject | src/main/kotlin/dev/fuelyour/tools/ImmutableJson.kt:204-205 | `toJsonObject` is a fresh copy of the entries |
| ImmutableJson.ImmutableJsonObject.Copy | src/main/kotlin/dev/fuelyour/tools/ImmutableJson.kt:62-63 | `copy` is a fresh view with the same entries |
| ImmutableJson.ImmutableJsonObject.PlusObject | src/main/kotlin/dev/fuelyour/tools/ImmutableJson.kt:207-211 | `obj + JsonObject` is a fresh view of the right-biased merge |
| ImmutableJson.ImmutableJsonObject.PlusPair | src/main/kotlin/dev/fuelyour/tools/ImmutableJson.kt:213-217 | `obj + (k to v)` binds k to v, and grows the size by one exactly when k was new |
| ImmutableJson.ImmutableJsonObject.PlusImmutable | src/main/kotlin/dev/fuelyour/tools/ImmutableJson.kt:219-223 | `obj + view` is a fresh view of the right-biased merge |
| ImmutableJson.ImmutableJsonObject.MinusKey | src/main/kotlin/dev/fuelyour/tools/ImmutableJson.kt:225-229 | `obj - key` lacks the key, and shrinks the size by one exactly when the key was present |
| ImmutableJson.ImmutableJsonObject.MinusKeys | src/main/kotlin/dev/fuelyour/tools/ImmutableJson.kt:231-235 | `obj - keys` has exactly the entries whose key is not listed |
| ImmutableJson.MakeImmutable | src/main/kotlin/dev/fuelyour/tools/ImmutableJson.kt:34-39 | objects and arrays are wrapped in fresh views with the same contents; every other value passes through unchanged |
| ImmutableJson.ImmutableJsonArray.NullableCopy | src/main/kotlin/dev/fuelyour/tools/ImmutableJson.kt:321 | the public nullable constructor holds its own copy |
| ImmutableJson.ImmutableJsonArray.Nullable | src/main/kotlin/dev/fuelyour/tools/ImmutableJson.kt:323 | the internal nullable constructor copies when asked to, and otherwise adopts the array |
| ImmutableJson.ImmutableJsonArray.NoNullsUnchecked | src/main/kotlin/dev/fuelyour/tools/ImmutableJson.kt:430 | the private no-nulls constructor adopts a null-free array as it is |
| ImmutableJson.ImmutableJsonArray.Size | src/main/kotlin/dev/fuelyour/tools/ImmutableJson.kt:278-279 | `size` is the number of elements |
| ImmutableJson.ImmutableJsonArray.IsEmpty | src/main/kotlin/dev/fuelyour/tools/ImmutableJson.kt:272-273 | `isEmpty` holds exactly when the size is zero |
| ImmutableJson.ImmutableJsonArray.Contains | src/main/kotlin/dev/fuelyour/tools/ImmutableJson.kt:248-249 | `contains` is element membership; a no-nulls array never contains null |
| ImmutableJson.ImmutableJsonArray.Equals | src/main/kotlin/dev/fuelyour/tools/ImmutableJson.kt:257-261 | `equals` against another immutable view or a raw JsonArray holds exactly when the elements are equal position by position; against anything else it is false |
| ImmutableJson.ImmutableJsonArray.GetValueAt | src/main/kotlin/dev/fuelyour/tools/ImmutableJson.kt:365-366 | `getValue(pos)` fails exactly outside the index range; otherwise it is the element, with containers wrapped; a no-nulls array never yields null |
| ImmutableJson.ImmutableJsonArray.ToJsonArray | src/main/kotlin/dev/fuelyour/tools/ImmutableJson.kt:290-291 | `toJsonArray` is a fresh copy of the elements |
| ImmutableJson.ImmutableJsonArray.Copy | src/main/kotlin/dev/fuelyour/tools/ImmutableJson.kt:325-326 | `copy` is a fresh array of the same variant with the same elements (lines 432-433 for the no-nulls variant) |
| ImmutableJson.ImmutableJsonArray.PlusItem | src/main/kotlin/dev/fuelyour/tools/ImmutableJson.kt:299-303 | `arr + item` appends the item and is the nullable variant |
| ImmutableJson.ImmutableJsonArray.PlusJsonArray | src/main/kotlin/dev/fuelyour/tools/ImmutableJson.kt:293-297 | `arr + JsonArray` is the in-order concatenation |
| ImmutableJson.ImmutableJsonArray.PlusArray | src/main/kotlin/dev/fuelyour/tools/ImmutableJson.kt:305-309 | `arr + view` is the in-order concatenation |
| ImmutableJson.ImmutableJsonArray.PlusNoNulls | src/main/kotlin/dev/fuelyour/tools/ImmutableJson.kt:487-491 | the concatenation of two no-nulls arrays is itself no-nulls |
| ImmutableJson.ImmutableJsonArray.RemoveEachFromCopy | src/main/kotlin/dev/fuelyour/tools/ImmutableJson.kt:384-388 | removing the elements one by one from a fresh copy leaves the receiver alone |
| ImmutableJson.ImmutableJsonArray.SameVariant | src/main/kotlin/dev/fuelyour/tools/ImmutableJson.kt:384-406 | a computed array is wrapped in the receiver's own variant |
| ImmutableJson.ImmutableJsonArray.MinusJsonArray | src/main/kotlin/dev/fuelyour/tools/ImmutableJson.kt:384-388 | `arr - JsonArray` removes one first occurrence per element of the other array and keeps the variant (lines 493-497 for no-nulls) |
| ImmutableJson.ImmutableJsonArray.MinusArray | src/main/kotlin/dev/fuelyour/tools/ImmutableJson.kt:402-406 | `arr - view` removes one first occurrence per element and keeps the variant (lines 511-515 for no-nulls) |
| ImmutableJson.ImmutableJsonArray.MinusItem | src/main/kotlin/dev/fuelyour/tools/ImmutableJson.kt:390-394 | `arr - item` removes only the first occurrence and keeps the variant (lines 499-503 for no-nulls) |
| ImmutableJson.ImmutableJsonArray.MinusIndex | src/main/kotlin/dev/fuelyour/tools/ImmutableJson.kt:396-400 | `arr - index` fails exactly outside the range, and otherwise drops exactly that position (lines 505-509 for no-nulls) |
| ImmutableJson.ImmutableJsonArray.NoNulls | src/main/kotlin/dev/fuelyour/tools/ImmutableJson.kt:408-409 | `noNulls()` fails exactly when a null is present, and otherwise adopts the same array without copying |
| ImmutableJson.ImmutableJsonArray.FilterNullElements | src/main/kotlin/dev/fuelyour/tools/ImmutableJson.kt:411-412 | `filterNulls()` is a fresh no-nulls array of the non-null elements, in order |
| ImmutableJson.MakeNoNulls | src/main/kotlin/dev/fuelyour/tools/ImmutableJson.kt:419-428 | the no-nulls constructor filters when asked to; otherwise it throws exactly when the array holds null, and adopts it as it is when it does not |
| ImmutableJson.SourceMutationIsInvisible | src/main/kotlin/dev/fuelyour/tools/ImmutableJson.kt:51-53 | changing the source object after building a view leaves the view unchanged |
| ImmutableJson.CopyMutationIsInvisible | src/main/kotlin/dev/fuelyour/tools/ImmutableJson.kt:204-205 | changing what `toJsonObject` returned leaves the view unchanged |
| ImmutableJson.PlusLeavesReceiver | src/main/kotlin/dev/fuelyour/tools/ImmutableJson.kt:213-217 | `obj + pair` leaves the receiver unchanged |
| ImmutableJson.ArraySourceMutationIsInvisible | src/main/kotlin/dev/fuelyour/tools/ImmutableJson.kt:321 | changing the source array after building a view leaves the view unchanged |
| Responses.StatusOf | src/main/kotlin/dev/fuelyour/tools/SwaggerServiceHandler.kt:176 | every ResponseCodeException status is an HTTP error status |
| Responses.FallbackStatus | src/main/kotlin/dev/fuelyour/tools/SwaggerServiceHandler.kt:178-185 | a context status that was set is kept; otherwise the status is 500 |
| Responses.ErrorReply | src/main/kotlin/dev/fuelyour/tools/SwaggerServiceHandler.kt:171-187 | a ResponseCodeException is written as JSON with its own status; any other failure is written as its message, or an empty text, with the context status or 500 |
| Responses.ErrorReplyIsError | src/main/kotlin/dev/fuelyour/tools/SwaggerRouter.kt:100-110 | the status of an error reply is always an HTTP error status, given a context status that is unset or an error |
| Responses.ValueReply | src/main/kotlin/dev/fuelyour/tools/SwaggerRouter.kt:177-183 | a value reply is status 200, has the JSON content type exactly for a ClusterSerializable, and carries its encoding or its text ("null" for null) |
| Responses.ReplyWithError | src/main/kotlin/dev/fuelyour/tools/ServiceHandler.kt:30-37 | the failure handler writes a reply exactly when there is a failure, and that reply is the error reply |
| Responses.Settled | src/main/kotlin/dev/fuelyour/tools/SwaggerRouter.kt:172-175 | following successful Singles ends in a value that is not a successful Single |
| Responses.HandleResponse | src/main/kotlin/dev/fuelyour/tools/SwaggerRouter.kt:170-185 | nothing is written exactly for Unit; a failed Single is the error reply; any other value is the value reply of what the Single chain settles on |
| Responses.HandleResponseContentType | src/main/kotlin/dev/fuelyour/tools/ServiceHandler.kt:39-54 | a written success carries the JSON content type exactly when the value is ClusterSerializable, and has status 200 unless the Single failed |
| Responses.DecodeArrayText | src/main/kotlin/dev/fuelyour/repositories/Repository.kt:24 | `JsonArray(text)` throws a DecodeException on text that cannot begin a JSON array, whatever the decoder; otherwise it gives the decoded elements exactly when the text is a JSON array, and throws a DecodeException when it is not |
| Binding.FromJson | src/main/kotlin/dev/fuelyour/tools/SwaggerRouter.kt:122 | a body value is a null argument exactly when it is JSON null |
| Binding.FindSwaggerParam | src/main/kotlin/dev/fuelyour/tools/SwaggerRouter.kt:131 | the OpenAPI parameter found has the name asked for; none is found only when no declared parameter has that name |
| Binding.FindSwaggerParamFirst | src/main/kotlin/dev/fuelyour/tools/SwaggerRouter.kt:131 | when several OpenAPI parameters share the name, the first in declaration order is found |
| Binding.ParseParam | src/main/kotlin/dev/fuelyour/tools/SwaggerRouter.kt:162-168 | Int parameters succeed exactly when `toInt` does, and fail with NumberFormatException otherwise; Boolean parameters use `toBoolean`; anything else is the text |
| Binding.ParseParamRoundTrip | src/main/kotlin/dev/fuelyour/tools/SwaggerServiceHandler.kt:136-142 | parsing the text of an Int or a Boolean gives it back; other parameters take the text as it is |
| Binding.PathArg | src/main/kotlin/dev/fuelyour/tools/SwaggerRouter.kt:133-134 | a missing path value fails Kotlin's non-null argument check with IllegalStateException; a present one is parsed |
| Binding.QueryArg | src/main/kotlin/dev/fuelyour/tools/SwaggerRouter.kt:135-141 | a List parameter gets every value; another parameter gets its first value parsed, and no entry when there is none |
| Binding.ParsedArg | src/main/kotlin/dev/fuelyour/tools/SwaggerRouter.kt:123-126 | an absent body binds null, a malformed body throws DecodeException, and a parsed body binds its JSON |
| Binding.BodyFieldArg | src/main/kotlin/dev/fuelyour/tools/SwaggerRouter.kt:121-122 | `bodyAsJson.getValue(key)` throws NullPointerException without a body and DecodeException on a malformed one; otherwise it is the value under the key |
| Binding.BodyArg | src/main/kotlin/dev/fuelyour/tools/SwaggerRouter.kt:119-129 | the `@Body` binding: a non-blank key selects a field. With a blank key, a JsonObject or JsonArray parameter gets the whole body in that form: null without a body, DecodeException on a malformed one. A String parameter gets the text, and any other type gets no entry |
| Binding.Collect | src/main/kotlin/dev/fuelyour/tools/SwaggerServiceHandler.kt:71-81 | a collected argument map only holds indices of parameters looked at |
| Binding.CollectSpec | src/main/kotlin/dev/fuelyour/tools/SwaggerRouter.kt:116-148 | the argument map succeeds exactly when every binding does, holds exactly the bound parameters with their values, and otherwise fails with the first binding's failure |
| Binding.CollectStops | src/main/kotlin/dev/fuelyour/tools/SwaggerRouter.kt:113-160 | after the first exception, the later parameters are never looked at |
| JwtAuthHelper.MatchesPrefix | src/main/kotlin/dev/fuelyour/tools/JwtAuthHelper.kt:66-76 | the count of held entries only grows along the required list |
| JwtAuthHelper.MatchesPositive | src/main/kotlin/dev/fuelyour/tools/JwtAuthHelper.kt:78-81 | some required entry is held exactly when the count is positive |
| JwtAuthHelper.OneOf | src/main/kotlin/dev/fuelyour/tools/JwtAuthHelper.kt:66-76 | the early-exit scan with a `hasOne` flag is true exactly when exactly one required entry is held |
| JwtAuthHelper.AnyOf | src/main/kotlin/dev/fuelyour/tools/JwtAuthHelper.kt:78-81 | `anyOf` is true exactly when some required role is held |
| JwtAuthHelper.AllOf | src/main/kotlin/dev/fuelyour/tools/JwtAuthHelper.kt:83 | `allOf` holds exactly when the user's roles are the required ones, in the same order |
| JwtAuthHelper.AuthenticateUserRoles | src/main/kotlin/dev/fuelyour/tools/JwtAuthHelper.kt:47-58 | returns exactly when every bucket present is satisfied, and throws otherwise |
| JwtAuthHelper.GetRolesField | src/main/kotlin/dev/fuelyour/tools/JwtAuthHelper.kt:36-37 | a missing "roles" field is the empty array; an array is itself; the result is null exactly for an explicit JSON null |
| JwtAuthHelper.RoleCheckOutcome | src/main/kotlin/dev/fuelyour/tools/JwtAuthHelper.kt:35-39 | the role handler never reports a missing authentication |
| JwtAuthHelper.CheckRoles | src/main/kotlin/dev/fuelyour/tools/JwtAuthHelper.kt:35-39 | the role handler decides by the principal's roles, with null falling back to no roles |
| JwtAuthHelper.CreateAuthHandlers | src/main/kotlin/dev/fuelyour/tools/JwtAuthHelper.kt:31-41 | two handlers: JWT verification, then a role check that never hands the request on |
| JwtAuthHelper.CreateAuthHandlersCorrected | src/main/kotlin/dev/fuelyour/tools/JwtAuthHelper.kt:31-41 | corrected (see ## Findings): the same two handlers, with the role check handing an accepted request on |
| JwtAuthHelper.AuthHandlersOrderAsWritten | src/main/kotlin/dev/fuelyour/tools/JwtAuthHelper.kt:31-41 | as written, a bad token is rejected before the roles are looked at, a denied role check throws, and an accepted request is left pending: the chain never passes a request on |
| JwtAuthHelper.AuthHandlersOrder | src/main/kotlin/dev/fuelyour/tools/JwtAuthHelper.kt:31-41 | corrected (see ## Findings): a bad token is rejected before the roles are looked at; a good one leaves the decision to the role check |
| JwtAuthHelper.EmptyRequirementPasses | src/main/kotlin/dev/fuelyour/tools/JwtAuthHelper.kt:60-61 | buckets that are absent impose nothing |
| JwtAuthHelper.NoRolesFailsOneOfAndAnyOf | src/main/kotlin/dev/fuelyour/tools/JwtAuthHelper.kt:36-38 | a principal without roles is denied by any oneOf or anyOf bucket |
| JwtAuthHelper.OneOfIsExactlyOne | src/main/kotlin/dev/fuelyour/tools/JwtAuthHelper.kt:66-76 | holding both of [admin, owner] fails oneOf; holding one passes |
| JwtAuthHelper.OneOfCountsRepeatedEntries | src/main/kotlin/dev/fuelyour/tools/JwtAuthHelper.kt:66-76 | a held role listed twice in oneOf fails it |
| JwtAuthHelper.EmptyListsFail | src/main/kotlin/dev/fuelyour/tools/JwtAuthHelper.kt:66-81 | an empty oneOf or anyOf list always fails |
| JwtAuthHelper.AnyOfMeansSomeMatch | src/main/kotlin/dev/fuelyour/tools/JwtAuthHelper.kt:78-81 | an anyOf bucket passes exactly when some required role is held |
| JwtAuthHelper.AllOfRejectsSuperset | src/main/kotlin/dev/fuelyour/tools/JwtAuthHelper.kt:83 | allOf passes the exact roles and fails them with one extra role |
| JwtAuthHelper.AllOfRejectsReordering | src/main/kotlin/dev/fuelyour/tools/JwtAuthHelper.kt:83 | allOf fails the same two roles in the other order |
| SwaggerRouter.Router.constructor | src/main/kotlin/dev/fuelyour/tools/SwaggerRouter.kt:38 | a new router has no routes |
| SwaggerRouter.ConvertPath | src/main/kotlin/dev/fuelyour/tools/SwaggerRouter.kt:52 | a converted path has no braces, and is shorter by exactly the number of `}` |
| SwaggerRouter.ReplacedCount | src/main/kotlin/dev/fuelyour/tools/SwaggerRouter.kt:52 | the first replacement leaves no `{` and keeps every `}` |
| SwaggerRouter.ConvertPathSegment | src/main/kotlin/dev/fuelyour/tools/SwaggerRouter.kt:52 | a trailing `{name}` segment becomes `:name` |
| SwaggerRouter.ConvertPathPlain | src/main/kotlin/dev/fuelyour/tools/SwaggerRouter.kt:52 | a path without braces is registered as it is |
| SwaggerRouter.ParseOperationId | src/main/kotlin/dev/fuelyour/tools/SwaggerRouter.kt:54-59 | the operationId parses exactly when it contains '.', into its first two parts; otherwise it fails with the "Unable to parse operation … for path …" message |
| SwaggerRouter.OperationIdSegments | src/main/kotlin/dev/fuelyour/tools/SwaggerRouter.kt:54-59 | `Controller.member…` names that controller and that member |
| SwaggerRouter.MissingOperationIdFails | src/main/kotlin/dev/fuelyour/tools/SwaggerRouter.kt:54-57 | a missing operationId, or one without '.', stops route building |
| SwaggerRouter.NeedsJwt | src/main/kotlin/dev/fuelyour/tools/SwaggerRouter.kt:73-74 | the JWT handler is attached exactly when a non-empty roles map is present |
| SwaggerRouter.RouteFor | src/main/kotlin/dev/fuelyour/tools/SwaggerRouter.kt:52-88 | a built route names an existing controller member with its parameters, the converted path, the verb and the roles; an unparsable operationId gives its own failure |
| SwaggerRouter.Entries | src/main/kotlin/dev/fuelyour/tools/SwaggerRouter.kt:53 | the operations of one path, in order, each under that path |
| SwaggerRouter.FlattenStep | src/main/kotlin/dev/fuelyour/tools/SwaggerRouter.kt:51-53 | the operations of one more path come after those of the earlier paths |
| SwaggerRouter.FlattenSplit | src/main/kotlin/dev/fuelyour/tools/SwaggerRouter.kt:51-53 | the file's operations are those of its first paths followed by those of the rest |
| SwaggerRouter.Step | src/main/kotlin/dev/fuelyour/tools/SwaggerRouter.kt:53-88 | after a failure nothing happens; otherwise an operation adds its route or records its failure |
| SwaggerRouter.PlanFromConcat | src/main/kotlin/dev/fuelyour/tools/SwaggerRouter.kt:51-89 | route building over two runs of operations is building over the first, then the second |
| SwaggerRouter.PlanFromStopped | src/main/kotlin/dev/fuelyour/tools/SwaggerRouter.kt:51-89 | once an operation has failed, later operations change nothing |
| SwaggerRouter.PlanFromSnoc | src/main/kotlin/dev/fuelyour/tools/SwaggerRouter.kt:51-89 | one more operation is one more step |
| SwaggerRouter.PlanFromOk | src/main/kotlin/dev/fuelyour/tools/SwaggerRouter.kt:51-89 | without a failure, one route is added per operation, in order, each built from its operation |
| SwaggerRouter.PlanRoutesPointwise | src/main/kotlin/dev/fuelyour/tools/SwaggerRouter.kt:51-89 | without a failure, route i is built from operation i |
| SwaggerRouter.FirstFailureWins | src/main/kotlin/dev/fuelyour/tools/SwaggerRouter.kt:56-57 | the first failing operation stops route building with its own failure, keeping the routes before it |
| SwaggerRouter.AsRoutes | src/main/kotlin/dev/fuelyour/tools/SwaggerRouter.kt:72-87 | one registered route per route definition, in order |
| SwaggerRouter.AsRoutesAppend | src/main/kotlin/dev/fuelyour/tools/SwaggerRouter.kt:72-87 | registering one more definition appends one route |
| SwaggerRouter.AddOperationRoute | src/main/kotlin/dev/fuelyour/tools/SwaggerRouter.kt:53-88 | one operation registers exactly its route or fails with its failure, changing no route, and keeps the controller cache consistent |
| SwaggerRouter.AddPathRoutes | src/main/kotlin/dev/fuelyour/tools/SwaggerRouter.kt:51-89 | one path's operations register the routes of the plan, and stop at the plan's failure |
| SwaggerRouter.AddRoutesFromSwaggerFile | src/main/kotlin/dev/fuelyour/tools/SwaggerRouter.kt:47-90 | one route per operation in file order until the first failure, which is raised; each controller is created once and only from the registry |
| SwaggerRouter.Route | src/main/kotlin/dev/fuelyour/tools/SwaggerRouter.kt:38-45 | a catch-all JSON route with a 5120000-byte body limit and a 30000 ms timeout, followed by the operation routes |
| SwaggerRouter.AnyOf | src/main/kotlin/dev/fuelyour/tools/SwaggerRouter.kt:212-216 | the router's `anyOf` is true exactly when some required role is held |
| SwaggerRouter.AuthenticateUser | src/main/kotlin/dev/fuelyour/tools/SwaggerRouter.kt:92-98 | returns exactly when the requirement is met, and otherwise throws AuthorizationException |
| SwaggerRouter.RoleFailure | src/main/kotlin/dev/fuelyour/tools/SwaggerRouter.kt:81-85 | with a roles array the step fails exactly on a failed requirement; a null roles value throws IllegalStateException and a non-array value throws ClassCastException |
| SwaggerRouter.CheckRoles | src/main/kotlin/dev/fuelyour/tools/SwaggerRouter.kt:81-85 | the role step raises exactly the failure RoleFailure gives |
| SwaggerRouter.RouterAndJwtAuthHelperAgree | src/main/kotlin/dev/fuelyour/tools/SwaggerRouter.kt:92-98 | with a roles array, the router decides as JwtAuthHelper does; with null roles they differ |
| SwaggerRouter.InstanceIndex | src/main/kotlin/dev/fuelyour/tools/SwaggerRouter.kt:115 | `instanceParameter` is the first parameter of kind INSTANCE, or none when there is none |
| SwaggerRouter.RouterArg | src/main/kotlin/dev/fuelyour/tools/SwaggerRouter.kt:115-146 | the routing context for a context parameter, the controller for the instance parameter, a value for every required value parameter |
| SwaggerRouter.Bindings | src/main/kotlin/dev/fuelyour/tools/SwaggerRouter.kt:116 | one binding per parameter, in parameter order |
| SwaggerRouter.BindParameter | src/main/kotlin/dev/fuelyour/tools/SwaggerRouter.kt:116-146 | one loop turn adds exactly that parameter's entry, or none, or fails with its failure |
| SwaggerRouter.PendingStep | src/main/kotlin/dev/fuelyour/tools/SwaggerRouter.kt:115-118 | the instance entry put ahead of the loop is replaced by the loop's own entry |
| SwaggerRouter.PendingSkip | src/main/kotlin/dev/fuelyour/tools/SwaggerRouter.kt:115-146 | a parameter that gets no entry leaves the pending instance entry in place |
| SwaggerRouter.CallWithParams | src/main/kotlin/dev/fuelyour/tools/SwaggerRouter.kt:112-160 | the loop's argument map is the collection of the per-parameter bindings |
| SwaggerRouter.UnboundParameters | src/main/kotlin/dev/fuelyour/tools/SwaggerRouter.kt:144-145 | an optional parameter with no value gets no entry, so its default applies; a required one is passed null |
| SwaggerRouter.QueryParameters | src/main/kotlin/dev/fuelyour/tools/SwaggerRouter.kt:135-141 | a List parameter gets every value; another gets its first value parsed, or null when it is required and has none |
| SwaggerRouter.ServeRequest | src/main/kotlin/dev/fuelyour/tools/SwaggerRouter.kt:80-87 | a written reply has status 200 or an HTTP error status; nothing is written only when the arguments bound, the controller returned, and its value settles on Unit |
| SwaggerRouter.DeniedBeforeBinding | src/main/kotlin/dev/fuelyour/tools/SwaggerRouter.kt:80-87 | a caller without the required roles gets 403 and the controller is never called |
| SwaggerRouter.NoRolesNoCheck | src/main/kotlin/dev/fuelyour/tools/SwaggerRouter.kt:81 | a route without roles ignores the principal |
| SwaggerRouter.BadNumberIs500 | src/main/kotlin/dev/fuelyour/tools/SwaggerRouter.kt:162-164 | a non-numeric path value for an Int parameter ends in a 500 with an empty body |
| SwaggerServiceHandler.CreateServiceHandlers | src/main/kotlin/dev/fuelyour/tools/SwaggerServiceHandler.kt:33-62 | fewer than two parts throws IndexOutOfBounds; an unknown controller throws ClassNotFound; a missing method throws "Unable to parse operation …"; otherwise one handler with the `@Timeout` length or 30000 ms |
| SwaggerServiceHandler.CreateFromOperationId | src/main/kotlin/dev/fuelyour/tools/SwaggerServiceHandler.kt:34-45 | `Controller.member…` of an existing member yields its handler |
| SwaggerServiceHandler.InjectBody | src/main/kotlin/dev/fuelyour/tools/SwaggerServiceHandler.kt:96-112 | the shared `@Body` binding, with null for a parameter of any other type; with a blank key, a JsonObject or JsonArray parameter gets the parsed body |
| SwaggerServiceHandler.InjectParams | src/main/kotlin/dev/fuelyour/tools/SwaggerServiceHandler.kt:114-134 | null unless an OpenAPI parameter of that name is declared; a path value is parsed; a query value is bound as in the router, and null when there is none |
| SwaggerServiceHandler.ServiceArg | src/main/kotlin/dev/fuelyour/tools/SwaggerServiceHandler.kt:71-80 | the controller for INSTANCE, the context, the body binding or the parameter binding, tested in that order |
| SwaggerServiceHandler.Bindings | src/main/kotlin/dev/fuelyour/tools/SwaggerServiceHandler.kt:71 | one binding per parameter, in order, each of which always gives an entry |
| SwaggerServiceHandler.CallWithParams | src/main/kotlin/dev/fuelyour/tools/SwaggerServiceHandler.kt:64-94 | the loop's argument map is the collection of the per-parameter bindings |
| SwaggerServiceHandler.EveryParameterBound | src/main/kotlin/dev/fuelyour/tools/SwaggerServiceHandler.kt:71-81 | binding succeeds exactly when every parameter's does, and then every parameter has an entry holding its value |
| SwaggerServiceHandler.UndeclaredParameterIsNull | src/main/kotlin/dev/fuelyour/tools/SwaggerServiceHandler.kt:119 | a value parameter the operation does not declare is passed null, even when it is optional |
| SwaggerServiceHandler.HandleResponse | src/main/kotlin/dev/fuelyour/tools/SwaggerServiceHandler.kt:156-169 | always status 200; the JSON content type exactly for a ClusterSerializable; an empty response exactly for Unit; any other value is written as its text |
| SwaggerServiceHandler.HandleResponseVersions | src/main/kotlin/dev/fuelyour/tools/SwaggerServiceHandler.kt:156-169 | this version agrees with the router's on JSON, null and plain values; it ends an empty response for Unit where the router writes nothing; it writes a Single as text instead of following it |
| SwaggerServiceHandler.FailureReply | src/main/kotlin/dev/fuelyour/tools/SwaggerServiceHandler.kt:147-154 | the failure handler writes nothing without a failure, the exception's own status for a ResponseCodeException, and the fallback status otherwise |
| SwaggerServiceHandler.TimeoutFailure | src/main/kotlin/dev/fuelyour/tools/SwaggerServiceHandler.kt:50-54 | the timeout exception is a TimeoutException whose data is the one-element array of the operationId |
| SwaggerServiceHandler.TimeoutReply | src/main/kotlin/dev/fuelyour/tools/SwaggerServiceHandler.kt:49-54 | a timeout is answered with 504 and the JSON error carrying the message and the operationId |
| SwaggerServiceHandler.TimeoutReplyAsWritten | src/main/kotlin/dev/fuelyour/tools/SwaggerServiceHandler.kt:49-54 | as written, when `JsonArray(opId)` fails to decode, no reply is written; an operationId that decoded as a JSON array would give a 504 carrying its elements |
| SwaggerServiceHandler.TimeoutNeverReplied | src/main/kotlin/dev/fuelyour/tools/SwaggerServiceHandler.kt:34-54 | for every handler that can be built, the operationId cannot begin a JSON array, so the written timeout branch never replies, whatever the decoder, where the intended one replies 504 |
| SwaggerServiceHandler.SplitPrefix | src/main/kotlin/dev/fuelyour/tools/SwaggerServiceHandler.kt:34 | the controller name is a prefix of the operationId |
| SwaggerServiceHandler.ServeRequest | src/main/kotlin/dev/fuelyour/tools/SwaggerServiceHandler.kt:41-59 | corrected (see ## Findings): a reply is always written, and it has status 200 only when the controller completed in time with a value |
| SwaggerServiceHandler.AlwaysReplies | src/main/kotlin/dev/fuelyour/tools/SwaggerServiceHandler.kt:41-59 | corrected (see ## Findings): every request gets exactly one response, and it is an error response unless the controller returned in time |
| SwaggerServiceHandler.SlowCallTimesOut | src/main/kotlin/dev/fuelyour/tools/SwaggerServiceHandler.kt:45-54 | corrected (see ## Findings): a call that does not finish within the limit gets the 504 timeout reply |
| SwaggerServiceHandler.ControllerExceptionStatus | src/main/kotlin/dev/fuelyour/tools/SwaggerServiceHandler.kt:55-57 | a ResponseCodeException from the controller keeps its status and JSON body; any other exception is 500 with its message |
| ServiceHandler.MessageBody | src/main/kotlin/dev/fuelyour/tools/ServiceHandler.kt:21 | the message body is null without a request body and the object otherwise; a body that is not a JSON object throws DecodeException |
| ServiceHandler.ServeRequestAsWritten | src/main/kotlin/dev/fuelyour/tools/ServiceHandler.kt:16-28 | as written, a reply is written as the Message's text, with status 200 and no JSON content type |
| ServiceHandler.ServeRequest | src/main/kotlin/dev/fuelyour/tools/ServiceHandler.kt:16-28 | corrected (see ## Findings): a bad body is 500; a failed request is the error reply of its failure; a reply's body is handled as `handleResponse` handles a value |
| ServiceHandler.SendsBodyToOperationAddress | src/main/kotlin/dev/fuelyour/tools/ServiceHandler.kt:20-21 | the response depends only on the bus's answer to the request body sent to the operationId's address |
| ServiceHandler.ReplyBodyIsLost | src/main/kotlin/dev/fuelyour/tools/ServiceHandler.kt:21-23 | as written, a JSON reply is never written as JSON; corrected, it is the encoded JSON with the JSON content type |
| ServiceHandler.BusFailureIsError | src/main/kotlin/dev/fuelyour/tools/ServiceHandler.kt:24 | a failed bus request gets an HTTP error status, 500 unless it is a ResponseCodeException |
| Repositories.ColumnIndex | src/main/kotlin/dev/fuelyour/repositories/Repository.kt:56 | the column index found is the first one with that name |
| Repositories.OverlayKeys | src/main/kotlin/dev/fuelyour/repositories/Repository.kt:60-63 | the keys after the `put` loop are the base's and those of the columns other than "data" |
| Repositories.OverlayColumn | src/main/kotlin/dev/fuelyour/repositories/Repository.kt:60-63 | a column other than "data" holds the row's value at its last index |
| Repositories.OverlayBase | src/main/kotlin/dev/fuelyour/repositories/Repository.kt:55-63 | an entry of the data object that no other column names keeps its value |
| Repositories.OverlaySpec | src/main/kotlin/dev/fuelyour/repositories/Repository.kt:60-63 | the keys are the base's and the regular columns'; a regular column holds its last value; every other base entry is kept |
| Repositories.JsonRow | src/main/kotlin/dev/fuelyour/repositories/Repository.kt:54-65 | the loop of `put` calls builds exactly the row object |
| Repositories.RowObjectSpec | src/main/kotlin/dev/fuelyour/repositories/Repository.kt:54-65 | without a "data" column the row is an object of its columns; with one, it is the data object with every other column put over it, or a ClassCastException when "data" is not an object |
| Repositories.RowObjects | src/main/kotlin/dev/fuelyour/repositories/Repository.kt:51 | one object per row, in row order, failing exactly when some row does |
| Repositories.AsObjects | src/main/kotlin/dev/fuelyour/repositories/Repository.kt:51 | each row object becomes a JSON object, in order |
| Repositories.GetRows | src/main/kotlin/dev/fuelyour/repositories/Repository.kt:50-52 | `getRows` has one object per row, in order, and fails exactly when some row's shaping fails |
| Repositories.GetRow | src/main/kotlin/dev/fuelyour/repositories/Repository.kt:46-48 | `getRow` is the first row's object, or empty without rows, after shaping every row |
| Repositories.CheckFound | src/main/kotlin/dev/fuelyour/repositories/Repository.kt:23-24 | an empty result becomes ModelNotFound carrying the id; anything else passes through |
| Repositories.CheckFoundAsWritten | src/main/kotlin/dev/fuelyour/repositories/Repository.kt:23-24 | as written, an empty result becomes a DecodeException when the id is not a JSON array, and a ModelNotFound carrying the decoded elements when it is; anything else is as intended |
| Repositories.MissingRowIs500AsWritten | src/main/kotlin/dev/fuelyour/repositories/Repository.kt:41-42 | as written, a missing row under an id that cannot begin a JSON array is a 500 with an empty body; as intended, it is a 404 with the JSON error |
| Repositories.ArrayIdIs404AsWritten | src/main/kotlin/dev/fuelyour/repositories/Repository.kt:23-24 | as written, a missing row under an id that decodes as a JSON array is a 404 whose data is the decoded elements |
| Repositories.ArrayIdExample | src/main/kotlin/dev/fuelyour/repositories/Repository.kt:23-24 | id "[1]" as written gives a 404 carrying [1], not the intended text "[1]" |
| Repositories.MissingRowExample | src/main/kotlin/dev/fuelyour/repositories/Repository.kt:23-24 | id "42" as written gives a DecodeException |
| Repositories.Repository.constructor | src/main/kotlin/dev/fuelyour/repositories/Repository.kt:13-15 | `tableName` is the schema, a dot, and the table |
| Repositories.Repository.All | src/main/kotlin/dev/fuelyour/repositories/Repository.kt:17-19 | `all` fails exactly when some row's object fails; otherwise element i is row i's object, one per row, in order |
| Repositories.Repository.Find | src/main/kotlin/dev/fuelyour/repositories/Repository.kt:21-26 | corrected (see ## Findings): `find` gives ModelNotFound with the id when no row matches, and succeeds exactly when the first row's object exists and is non-empty, giving that object; a failing row is passed on as its failure |
| Repositories.Repository.Delete | src/main/kotlin/dev/fuelyour/repositories/Repository.kt:38-44 | corrected (see ## Findings): `delete` gives ModelNotFound with the id when no row was deleted, and succeeds exactly when the returned row's object exists and is non-empty, giving that object; a failing row is passed on as its failure |
| InventoryControllers.NullKeys | src/main/kotlin/dev/fuelyour/controllers/InventoryController.kt:50 | exactly the keys the patch sets to null |
| InventoryControllers.Drop | src/main/kotlin/dev/fuelyour/controllers/InventoryController.kt:50 | exactly the entries whose key is not dropped, unchanged |
| InventoryControllers.MergePatch | src/main/kotlin/dev/fuelyour/controllers/InventoryController.kt:46-53 | a key the patch sets to a value takes it; a key it sets to null is gone; every other key is as stored |
| InventoryControllers.MergePatchIdempotent | src/main/kotlin/dev/fuelyour/controllers/InventoryController.kt:49-50 | applying the same patch twice is applying it once |
| InventoryControllers.FlatPatchIsRfc7386 | src/main/kotlin/dev/fuelyour/controllers/InventoryController.kt:49-50 | on a patch without nested objects, the patch agrees with the merge patch of section 2 of RFC 7386 |
| InventoryControllers.NestedObjectReplaced | src/main/kotlin/dev/fuelyour/controllers/InventoryController.kt:49 | a nested object in the patch replaces the stored one whole, where RFC 7386 merges into it |
| InventoryControllers.NestedObjectExample | src/main/kotlin/dev/fuelyour/controllers/InventoryController.kt:49 | patching `{"m":{"a":1}}` with `{"m":{"b":2}}` gives `{"m":{"b":2}}`, where RFC 7386 gives `{"m":{"a":1,"b":2}}` |
| InventoryControllers.MergeThenDrop | src/main/kotlin/dev/fuelyour/controllers/InventoryController.kt:49-50 | merging the body in and then dropping its null keys is the merge patch |
| InventoryControllers.RemoveNullKeys | src/main/kotlin/dev/fuelyour/controllers/InventoryController.kt:50 | the `forEach` removes exactly the keys the body sets to null |
| InventoryControllers.InventoryController.constructor | src/main/kotlin/dev/fuelyour/controllers/InventoryController.kt:29-32 | the controller keeps its repository |
| InventoryControllers.InventoryController.Get | src/main/kotlin/dev/fuelyour/controllers/InventoryController.kt:34-39 | with an id, the found object or its failure; without one, every object as an array, or the failure |
| InventoryControllers.InventoryController.Post | src/main/kotlin/dev/fuelyour/controllers/InventoryController.kt:41-44 | the body comes back unchanged |
| InventoryControllers.InventoryController.Patch | src/main/kotlin/dev/fuelyour/controllers/InventoryController.kt:46-53 | a missing item is find's failure; otherwise the result is the update with the merge patch of the stored item |
| InventoryControllers.InventoryController.Delete | src/main/kotlin/dev/fuelyour/controllers/InventoryController.kt:55-57 | nothing exactly when the delete succeeded, and otherwise its failure |
| DatabaseVerticles.ResourceKey | src/main/kotlin/dev/fuelyour/verticles/DatabaseVerticle.kt:43 | the key is a lower-cased prefix of the class's simple name |
| DatabaseVerticles.LowerAppend | src/main/kotlin/dev/fuelyour/verticles/DatabaseVerticle.kt:43 | lower-casing distributes over concatenation |
| DatabaseVerticles.RemoveSuffixOf | src/main/kotlin/dev/fuelyour/verticles/DatabaseVerticle.kt:43 | removing a suffix the text was built with gives back the text before it |
| DatabaseVerticles.ResourceKeyOfRepo | src/main/kotlin/dev/fuelyour/verticles/DatabaseVerticle.kt:43 | `<Name>Repo` is keyed by the lower-cased name |
| DatabaseVerticles.ResourceKeyOfRepository | src/main/kotlin/dev/fuelyour/verticles/DatabaseVerticle.kt:43 | `<Name>Repository` is keyed by the lower-cased name |
| DatabaseVerticles.InventoryRepoKey | src/main/kotlin/dev/fuelyour/verticles/DatabaseVerticle.kt:43 | `InventoryRepo` is keyed "inventory" |
| DatabaseVerticles.ModelResourcesSpec | src/main/kotlin/dev/fuelyour/verticles/DatabaseVerticle.kt:41-46 | every scanned class is reachable by its key, and every key holds a scanned class with that key |
| DatabaseVerticles.LaterClassWins | src/main/kotlin/dev/fuelyour/verticles/DatabaseVerticle.kt:46 | when two classes share a key, the later one is kept |
| DatabaseVerticles.SelectMethod | src/main/kotlin/dev/fuelyour/verticles/DatabaseVerticle.kt:31 | the chosen method is declared and matches the action ignoring case; none is chosen exactly when no method matches |
| DatabaseVerticles.SelectMethodFirst | src/main/kotlin/dev/fuelyour/verticles/DatabaseVerticle.kt:31 | when several methods match, the first in the order reflection returns them is chosen |
| DatabaseVerticles.Params | src/main/kotlin/dev/fuelyour/verticles/DatabaseVerticle.kt:63-66 | a null body fails Kotlin's non-null argument check with IllegalStateException, whatever the parameters; otherwise one argument per parameter, in order, each the body's value under its name |
| DatabaseVerticles.DatabaseVerticle.constructor | src/main/kotlin/dev/fuelyour/verticles/DatabaseVerticle.kt:17-20 | a new verticle has no resources |
| DatabaseVerticles.DatabaseVerticle.Start | src/main/kotlin/dev/fuelyour/verticles/DatabaseVerticle.kt:22-23 | starting sets the database name and the resources of the scanned classes |
| DatabaseVerticles.DatabaseVerticle.Address | src/main/kotlin/dev/fuelyour/verticles/DatabaseVerticle.kt:24 | the consumer listens on "db." and the database name |
| DatabaseVerticles.DatabaseVerticle.Consume | src/main/kotlin/dev/fuelyour/verticles/DatabaseVerticle.kt:24-38 | an unknown or missing resource throws IllegalArgumentException naming the action and the resource; a known one runs the action on it |
| DatabaseVerticles.Header | src/main/kotlin/dev/fuelyour/verticles/DatabaseVerticle.kt:25-27 | a header is present exactly when it was sent, with its value |
| DatabaseVerticles.Run | src/main/kotlin/dev/fuelyour/verticles/DatabaseVerticle.kt:31-34 | no matching method throws NoSuchElementException; a null body throws IllegalStateException before any method is called; otherwise the selected method is called with the body's arguments, and its value or "error" is the reply |
| DatabaseVerticles.ActionIgnoresCase | src/main/kotlin/dev/fuelyour/verticles/DatabaseVerticle.kt:31 | actions that lower-case alike give the same outcome |
| DatabaseVerticles.DispatchArguments | src/main/kotlin/dev/fuelyour/verticles/DatabaseVerticle.kt:31-33 | the method called gets one argument per parameter, the body's value under that parameter's name |
| DatabaseVerticles.SelectSameForSameLower | src/main/kotlin/dev/fuelyour/verticles/DatabaseVerticle.kt:31 | the same method is selected for actions that lower-case alike |

## Left out

- HTTP plumbing is not modelled: BodyHandler, TimeoutHandler, OpenAPI request validation, header writing. JWT signature checking is reduced to a token-valid flag. These are library code.
- Concurrency is not modelled: coroutine scheduling, `GlobalScope.launch`, Rx subscription threads. A controller call that finishes after its time limit is modelled as timed out, and its own late writes are not modelled.
- Reflection, dependency injection and the classpath scan are replaced by an explicit registry and an explicit sequence of scanned classes. The scan order is that sequence.
- SQL is not modelled: query execution, transactions and connection pooling. A database is a function from query text and arguments to rows, and row values are already JSON. The conversion of SQL types to JSON is not modelled.
- Event-bus transport, its delivery timeout and codecs are not modelled. The bus is a function from address and body to an outcome.
- JSON text encoding and decoding are not modelled beyond what the core needs: a body is absent, parsed or malformed, and a reply body is `Encoded(json)`.
- Floating-point numbers, binary values and Instants in JSON are not modelled. The immutable views' typed getters (`getString`, `getInteger`, …), iteration, streams, buffers, hashCode and the `copy(copyFunc)` overloads are left out because they only delegate to Vert.x. `hasNull` is left out for the same reason.
- KotlinText.ToInt: only the ASCII digits '0' to '9' are read. `Integer.parseInt` also accepts other Unicode decimal digits, such as Arabic-Indic ones.
- ImmutableJson.ImmutableJsonObject.PlusObject, ImmutableJson.ImmutableJsonObject.PlusPair, ImmutableJson.ImmutableJsonArray.PlusItem, ImmutableJson.ImmutableJsonArray.PlusJsonArray: in the source, `+` with a raw JsonObject, JsonArray or pair stores the caller's nested containers without copying them. A later change by the caller to such a container shows through the immutable view. The model works on values, so it cannot show this aliasing; its results behave as deep copies.
- KotlinText.Lower: only ASCII letters are lower-cased. Locale-specific and non-ASCII case folding is not modelled.
- Responses.DecodeArrayText: JSON decoding is a parameter. The model fixes only one rule: text that cannot begin a JSON array always throws. What the Vert.x decoder makes of other text, such as the repository id "[1]", is whatever that parameter gives.
- DatabaseVerticles.SelectMethod: when several public methods match the action ignoring case (the overloads of `wait`, say), the one called is the first that `getMethods()` returns. The JVM does not fix that order, so the source does not determine which overload runs. The model takes the order as given.
- Binding.IsWhitespace: follows the character categories of Unicode 6.3 and later. A JVM on an older Unicode version also counts U+180E as white space.
- JVM exception messages (of NullPointerException, NumberFormatException and the like) are modelled as absent. A 500 reply for them is therefore written with an empty text.
- `Repositories.Repository.Insert` and `Repositories.Repository.Update` are modelled only as the row the database returns: `getRow` of their query's result. They carry no contract of their own. `InventoryController.post` does not call insert.
- InventoryRepo (`repositories/InventoryRepo.kt`) and the DatabaseAccess helper are not part of this model. The controller is modelled against the Repository class, and each call takes the database it runs against.
- The exceptions package is not part of this model. The status codes of the ResponseCodeException subclasses (403, 404, 504) and their JSON form are assumed.
- `DatabaseVerticle.configureConnections` is not modelled (configuration reading, pool options). `Start` takes the configured database name as given.
- `generateToken` of JwtAuthHelper is not modelled; it only delegates to the JWT library.

## Findings

| source | as written | input that shows it | evidently intended | confidence | as-written member | corrected member |
|---|---|---|---|---|---|---|
| src/main/kotlin/dev/fuelyour/tools/SwaggerServiceHandler.kt:49-54 | on timeout, the TimeoutException is built with `JsonArray(opId)`. That constructor decodes its argument as JSON text, so it throws a DecodeException inside the catch block, and no response is written | any operation that times out, e.g. operationId `InventoryController.get` with a `@Timeout` shorter than the call | a 504 reply with the message "Timed out waiting for response" and the operationId as a one-element array | not executed | SwaggerServiceHandler.TimeoutReplyAsWritten, SwaggerServiceHandler.TimeoutNeverReplied | SwaggerServiceHandler.TimeoutReply |
| src/main/kotlin/dev/fuelyour/repositories/Repository.kt:23-24, 41-42 | `find` and `delete` build the ModelNotFoundException with `JsonArray(id)`. That decodes the id as JSON text and throws a DecodeException for any id that is not a JSON array (every numeric id), so a missing row is a 500 whose text is the DecodeException's message (written empty here, because JVM messages are modelled as absent) | `find("42", conn)` on a table without row 42 | a 404 ModelNotFound reply carrying the id | not executed | Repositories.CheckFoundAsWritten, Repositories.MissingRowIs500AsWritten, Repositories.MissingRowExample, Repositories.ArrayIdExample | Repositories.CheckFound |
| src/main/kotlin/dev/fuelyour/tools/ServiceHandler.kt:21-23 | the handler passes the reply Message itself to `handleResponse`. A Message is neither a Single nor ClusterSerializable, so the response is the Message's `toString()`, without the JSON content type | a consumer replying with the JSON object `{"id":1}` | the reply's body (`it.body()`) written as JSON | not executed | ServiceHandler.ServeRequestAsWritten, ServiceHandler.ReplyBodyIsLost | ServiceHandler.ServeRequest |
| src/main/kotlin/dev/fuelyour/tools/JwtAuthHelper.kt:34-40 | the role handler checks the roles and returns without calling `context.next()`. An accepted request is neither answered nor handed on to the operation's handlers, so it stays pending until it times out | a valid token whose roles are [admin], on a route that requires anyOf [admin] | call `context.next()` after `authenticateUserRoles` succeeds | not executed | JwtAuthHelper.CreateAuthHandlers, JwtAuthHelper.AuthHandlersOrderAsWritten | JwtAuthHelper.CreateAuthHandlersCorrected, JwtAuthHelper.AuthHandlersOrder |
