/** ServiceHandler: the route handler that forwards a request over the event bus. Each
    operation's handler sends the request body, as JSON, to the address named by the
    operationId, and writes the reply it gets back, or the failure, as the response.
    The event bus is a parameter: a function from address and message body to the
    outcome of the request. */
module ServiceHandler {
  import opened Json
  import opened Wrappers
  import opened Responses
  import opened Binding

  /** The outcome of `rxRequest`: a reply Message, with the body the consumer replied
      with and the Message object's own toString(), or a failure (a ReplyException:
      no handler, timeout or the consumer's `fail`). */
  datatype BusOutcome = Replied(body: Value, printed: string) | BusFailed(error: Failure)

  /** `context.bodyAsJson` as the message body: null without a body, the object
      otherwise; a body that is not a JSON object throws. */
  function MessageBody(body: RequestBody): (r: Result<Json, Failure>)
    ensures body.asObject.Absent? ==> r == Ok(JNull)
    ensures body.asObject.Parsed? ==> r == Ok(JObj(body.asObject.value))
    ensures body.asObject.Malformed? ==> r == Err(Thrown(Decode, None))
  {
    match body.asObject
    case Absent => Ok(JNull)
    case Parsed(m) => Ok(JObj(m))
    case Malformed => Err(Thrown(Decode, None))
  }

  /** One request on the handler of `opId`, as written: the reply handed to
      `handleResponse` is the Message itself, which is neither a Single nor
      ClusterSerializable, so the response is the Message's toString(). An exception
      in the handler (a body that is not JSON) goes to the failure handler with no
      status set on the context. */
  function ServeRequestAsWritten(opId: string, body: RequestBody, bus: (string, Json) -> BusOutcome): (r: Option<Reply>)
    ensures MessageBody(body).Ok? && bus(opId, MessageBody(body).value).Replied? ==>
      r == Some(Reply(DefaultStatus, false, Text(bus(opId, MessageBody(body).value).printed)))
  {
    match MessageBody(body)
    case Err(e) => ReplyWithError(NoStatus, Some(e))
    case Ok(payload) =>
      match bus(opId, payload)
      case BusFailed(e) => ReplyWithError(NoStatus, Some(e))
      case Replied(_, printed) => HandleResponse(NoStatus, Plain(printed))
  }

  /** One request on the handler of `opId`, with the reply's body handled as the
      evident intent is (`it.body()`): a JSON reply is written as JSON, a Single is
      followed, Unit writes nothing, anything else its text. */
  function ServeRequest(opId: string, body: RequestBody, bus: (string, Json) -> BusOutcome): (r: Option<Reply>)
    ensures MessageBody(body).Err? ==> r == Some(Reply(InternalError, false, Text("")))
    ensures MessageBody(body).Ok? && bus(opId, MessageBody(body).value).BusFailed? ==>
      r == ReplyWithError(NoStatus, Some(bus(opId, MessageBody(body).value).error))
    ensures MessageBody(body).Ok? && bus(opId, MessageBody(body).value).Replied? ==>
      r == HandleResponse(NoStatus, bus(opId, MessageBody(body).value).body)
  {
    match MessageBody(body)
    case Err(e) => ReplyWithError(NoStatus, Some(e))
    case Ok(payload) =>
      match bus(opId, payload)
      case BusFailed(e) => ReplyWithError(NoStatus, Some(e))
      case Replied(v, _) => HandleResponse(NoStatus, v)
  }

  /** The handler sends exactly one message, to the operationId's address, carrying
      the request body: any two buses that answer that message alike give the same
      response, in both versions. */
  lemma SendsBodyToOperationAddress(opId: string, body: RequestBody, bus1: (string, Json) -> BusOutcome,
                                    bus2: (string, Json) -> BusOutcome)
    requires MessageBody(body).Ok? ==> bus1(opId, MessageBody(body).value) == bus2(opId, MessageBody(body).value)
    ensures ServeRequest(opId, body, bus1) == ServeRequest(opId, body, bus2)
    ensures ServeRequestAsWritten(opId, body, bus1) == ServeRequestAsWritten(opId, body, bus2)
  {
  }

  /** As written, a successful reply is never written as JSON and never carries the
      consumer's data: it is the Message's text, whatever the body was. With the body
      handled, a JSON reply is the encoded JSON with the JSON content type. */
  lemma ReplyBodyIsLost(opId: string, body: RequestBody, bus: (string, Json) -> BusOutcome, data: Json)
    requires MessageBody(body).Ok?
    requires bus(opId, MessageBody(body).value).Replied?
    requires bus(opId, MessageBody(body).value).body == Serializable(data)
    ensures ServeRequestAsWritten(opId, body, bus).Some?
    ensures !ServeRequestAsWritten(opId, body, bus).value.jsonContentType
    ensures ServeRequestAsWritten(opId, body, bus).value.body != Encoded(data)
    ensures ServeRequest(opId, body, bus) == Some(Reply(DefaultStatus, true, Encoded(data)))
  {
  }

  /** A failed event-bus request is replied with as an error: a ResponseCodeException
      by its own status, any other failure (a ReplyException) as 500 with its message. */
  lemma BusFailureIsError(opId: string, body: RequestBody, bus: (string, Json) -> BusOutcome)
    requires MessageBody(body).Ok?
    requires bus(opId, MessageBody(body).value).BusFailed?
    ensures ServeRequest(opId, body, bus).Some?
    ensures 400 <= ServeRequest(opId, body, bus).value.status < 600
    ensures bus(opId, MessageBody(body).value).error.Thrown? ==>
      ServeRequest(opId, body, bus).value.status == InternalError
  {
    ErrorReplyIsError(NoStatus, bus(opId, MessageBody(body).value).error);
  }
}
