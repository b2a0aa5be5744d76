/** Values exchanged with the message-queue HTTP SDK.  The SDK itself is not
    modelled: every request the adapter issues becomes an `SdkCall` value, and
    every answer the broker gives is an input of the model. */
module Sdk {

  datatype Option<+T> = None | Some(value: T)

  /** A caller's message before serialisation (`msg: unknown`); its contents
      are never inspected by the adapter. */
  type JsValue(==)

  /** The text handed to `publishMessage`: either `JSON.stringify(v)`, kept as
      an uninterpreted term, or a string passed through verbatim. */
  datatype WireBody = JsonOf(value: JsValue) | Verbatim(text: string)

  /** A property-bag value (`string | number`). */
  datatype PropValue = Num(n: int) | Str(s: string)

  /** The property bag a caller passes to a publish, in `for...in` order. */
  type PropBag = seq<(string, PropValue)>

  /** One call on a fresh `MessageProperties` builder. */
  datatype PropCall =
    | StartDeliverTime(timeMillis: PropValue)
    | TransCheckImmunityTime(timeSeconds: PropValue)
    | MessageKey(key: PropValue)
    | PutProperty(name: string, value: PropValue)

  /** One record fetched by a consume (the SDK's `MessageBody`). */
  datatype MessageBody = MessageBody(
    messageId: string,
    messageBodyMD5: string,
    publishTime: int,
    nextConsumeTime: int,
    firstConsumeTime: int,
    consumedTimes: int,
    receiptHandle: string,
    messageBody: string,
    messageTag: string,
    startDeliverTime: Option<int>,
    messageKey: Option<int>,
    properties: Option<map<string, string>>)

  /** The body of a publish response; the receipt handle is present only for
      transactional messages. */
  datatype PublishBody = PublishBody(messageId: string, messageBodyMD5: string, receiptHandle: Option<string>)

  datatype ResponsePublish = ResponsePublish(code: int, requestId: string, body: PublishBody)

  datatype ConfirmError = ConfirmError(errorCode: string, errorMessage: string, receiptHandle: string)

  datatype ResponseConfirm = ResponseConfirm(code: int, requestId: string, body: Option<seq<ConfirmError>>)

  /** The three SDK channel objects a client owns. */
  datatype Endpoint = Producer | TransProducer | Consumer

  /** A request issued to the broker. */
  datatype SdkCall =
    | PublishMessage(channel: Endpoint, body: WireBody, tag: Option<string>, props: Option<seq<PropCall>>)
    | ConsumeMessage(numOfMessages: int, waitSeconds: Option<int>)
    | ConsumeHalfMessage(numOfMessages: int, waitSeconds: Option<int>)
    | AckMessage(receiptHandles: seq<string>)
    | Commit(receiptHandle: Option<string>)
    | Rollback(receiptHandle: Option<string>)

  /** The channel object that carries a request. */
  function EndpointOf(c: SdkCall): Endpoint
  {
    match c
    case PublishMessage(ch, _, _, _) => ch
    case ConsumeMessage(_, _) => Consumer
    case ConsumeHalfMessage(_, _) => TransProducer
    case AckMessage(_) => Consumer
    case Commit(_) => TransProducer
    case Rollback(_) => TransProducer
  }
}
