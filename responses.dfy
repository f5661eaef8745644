/** What a handler hands back and what ends up on the wire, shared by SwaggerRouter,
    SwaggerServiceHandler and ServiceHandler. JSON text encoding is not modelled: an
    encoded body is kept as the JSON value it encodes. */
module Responses {
  import opened Json
  import opened Wrappers

  /** Why a runtime exception that is not a ResponseCodeException was raised. */
  datatype Cause =
    | NullPointer        // a method called on a null
    | IllegalState       // Kotlin's check on a null platform value passed as a non-null argument
    | Decode             // a request body that is not the JSON it is read as
    | NumberFormat       // `toInt` on text that is not a 32-bit integer
    | IndexOutOfBounds   // a list destructured into more parts than it has
    | IllegalArgument
    | NoSuchElement
    | ClassCast
    | ClassNotFound      // `Class.forName` on a name no controller class has
    | Runtime            // RuntimeException / Exception raised by the source itself
    | Invocation         // anything the invoked controller method throws

  /** The ResponseCodeException subclasses the core raises. */
  datatype ResponseCodeKind =
    | AuthorizationError   // AuthorizationException
    | ModelNotFound        // ModelNotFoundException
    | TimedOut             // TimeoutException

  /** The HTTP status each of them carries. */
  function StatusOf(kind: ResponseCodeKind): (s: int)
    ensures 400 <= s < 600
  {
    match kind
    case AuthorizationError => 403
    case ModelNotFound => 404
    case TimedOut => 504
  }

  /** A thrown failure: a ResponseCodeException carries its kind and the message and
      data that `asJson()` renders (None: the class's own default message); any other
      Throwable only its message. */
  datatype Failure =
    | ResponseCode(kind: ResponseCodeKind, message: Option<string>, data: seq<Json>)
    | Thrown(cause: Cause, text: Option<string>)

  /** What a controller method returned, as `handleResponse` distinguishes it. */
  datatype Value =
    | SingleOk(inner: Value, printed: string)       // an io.reactivex.Single that emits `inner`
    | SingleError(error: Failure, printed: string)  // an io.reactivex.Single that fails
    | Serializable(json: Json)        // a ClusterSerializable: JsonObject, JsonArray or an immutable view
    | UnitValue                       // kotlin.Unit
    | NullValue                       // null
    | Plain(text: string)             // any other object, by its toString()
  // (`printed` is what toString() gives for the Single object itself)

  datatype Body =
    | Empty
    | Text(text: string)
    | Encoded(json: Json)                          // `encode()` of a JSON value
    | ErrorJson(kind: ResponseCodeKind, message: Option<string>, data: seq<Json>) // `failure.asJson().encode()`

  /** One written response: status code, whether content-type application/json was set, body. */
  datatype Reply = Reply(status: int, jsonContentType: bool, body: Body)

  /** The status a response has when nothing set one. */
  const DefaultStatus: int := 200
  /** HTTPStatusCode.INTERNAL_ERROR. */
  const InternalError: int := 500
  /** `context.statusCode()` when the handler itself caught the exception: no failure
      status has been set on the context (-1). */
  const NoStatus: int := -1

  /** The status chosen for a failure that is not a ResponseCodeException. */
  function FallbackStatus(contextStatus: int): (s: int)
    ensures s > 0
    ensures contextStatus > 0 ==> s == contextStatus
  {
    if contextStatus <= 0 then InternalError else contextStatus
  }

  /** The error reply of `replyWithError` for a non-null failure: a ResponseCodeException
      gives its own status and a JSON body; anything else the context's status (500 when
      there is none) and its message as text. */
  function ErrorReply(contextStatus: int, failure: Failure): (r: Reply)
    ensures failure.ResponseCode? ==> r == Reply(StatusOf(failure.kind), true, ErrorJson(failure.kind, failure.message, failure.data))
    ensures failure.Thrown? ==> !r.jsonContentType && r.body == Text(failure.text.GetOr(""))
    ensures failure.Thrown? && contextStatus <= 0 ==> r.status == InternalError
    ensures failure.Thrown? && contextStatus > 0 ==> r.status == contextStatus
  {
    match failure
    case ResponseCode(kind, message, data) => Reply(StatusOf(kind), true, ErrorJson(kind, message, data))
    case Thrown(_, text) => Reply(FallbackStatus(contextStatus), false, Text(text.GetOr("")))
  }

  /** An error reply is never a success: its status is an HTTP error status whenever
      the context's own status, if it has one, is. */
  lemma ErrorReplyIsError(contextStatus: int, failure: Failure)
    requires contextStatus <= 0 || 400 <= contextStatus < 600
    ensures 400 <= ErrorReply(contextStatus, failure).status < 600
  {
  }

  /** The reply for a successful ClusterSerializable or a plain value. */
  function ValueReply(v: Value): (r: Reply)
    requires v.Serializable? || v.NullValue? || v.Plain?
    ensures r.status == DefaultStatus
    ensures r.jsonContentType <==> v.Serializable?
    ensures v.Serializable? ==> r.body == Encoded(v.json)
    ensures v.Plain? ==> r.body == Text(v.text)
    ensures v.NullValue? ==> r.body == Text("null")
  {
    match v
    case Serializable(j) => Reply(DefaultStatus, true, Encoded(j))
    case Plain(t) => Reply(DefaultStatus, false, Text(t))
    case NullValue => Reply(DefaultStatus, false, Text("null"))
  }

  /** `replyWithError(context, context.failure())`: the failure parameter is declared
      non-null, so a null failure fails Kotlin's argument check before anything is
      written (None); any other failure gets its error reply. The same rule in
      SwaggerRouter, SwaggerServiceHandler and ServiceHandler. */
  function ReplyWithError(contextStatus: int, failure: Option<Failure>): (r: Option<Reply>)
    ensures r.Some? <==> failure.Some?
    ensures failure.Some? ==> r.value == ErrorReply(contextStatus, failure.value)
  {
    match failure
    case None => None
    case Some(f) => Some(ErrorReply(contextStatus, f))
  }

  /** What a handled value finally is once every successful Single has been unwrapped. */
  function Settled(v: Value): (s: Value)
    ensures !s.SingleOk?
  {
    if v.SingleOk? then Settled(v.inner) else v
  }

  /** `handleResponse` of SwaggerRouter and ServiceHandler: a Single is subscribed to and
      its value handled by the same rules, its error replied with; a ClusterSerializable
      is written as JSON; Unit writes nothing (None); anything else by its toString(). */
  function HandleResponse(contextStatus: int, v: Value): (r: Option<Reply>)
    ensures r.None? <==> Settled(v).UnitValue?
    ensures Settled(v).SingleError? ==> r == Some(ErrorReply(contextStatus, Settled(v).error))
    ensures Settled(v).Serializable? || Settled(v).Plain? || Settled(v).NullValue? ==>
      r == Some(ValueReply(Settled(v)))
  {
    match v
    case SingleOk(inner, _) => HandleResponse(contextStatus, inner)
    case SingleError(e, _) => Some(ErrorReply(contextStatus, e))
    case UnitValue => None
    case Serializable(_) => Some(ValueReply(v))
    case Plain(_) => Some(ValueReply(v))
    case NullValue => Some(ValueReply(v))
  }

  /** A written reply carries the JSON content type exactly when it is an encoded JSON
      value or a ResponseCodeException, and a success status unless it is an error. */
  lemma HandleResponseContentType(contextStatus: int, v: Value)
    requires HandleResponse(contextStatus, v).Some?
    ensures HandleResponse(contextStatus, v).value.jsonContentType <==>
      Settled(v).Serializable? || (Settled(v).SingleError? && Settled(v).error.ResponseCode?)
    ensures !Settled(v).SingleError? ==> HandleResponse(contextStatus, v).value.status == DefaultStatus
  {
  }

  // ---------------------------------------------------------------------------
  // JsonArray(String)

  /** Text that no JSON array text can be: empty, or not starting with '[' or JSON
      white space. */
  predicate CannotStartArray(text: string)
  {
    text == [] || !(text[0] in {'[', ' ', '\t', '\n', '\r'})
  }

  /** `JsonArray(text)`: Vert.x's String constructor decodes its argument as JSON text.
      JSON decoding itself is the parameter `decode`: the elements of the text when it is
      a JSON array, None when it is not. Text that cannot begin a JSON array throws a
      DecodeException whatever the decoder. */
  function DecodeArrayText(text: string, decode: string -> Option<seq<Json>>): (r: Result<seq<Json>, Failure>)
    ensures CannotStartArray(text) ==> r == Err(Thrown(Decode, None))
    ensures r.Err? ==> r.error == Thrown(Decode, None)
    ensures r.Ok? <==> !CannotStartArray(text) && decode(text).Some?
    ensures r.Ok? ==> r.value == decode(text).value
  {
    if CannotStartArray(text) then Err(Thrown(Decode, None))
    else match decode(text)
      case None => Err(Thrown(Decode, None))
      case Some(elements) => Ok(elements)
  }
}
