/** lib/topicClient.ts: the older `TopicClient` façade.  Its publish
    operations make a single attempt with the message text as given, and its
    event-dispatch loops report every thrown error, `MessageNotExist`
    included, and forward `waitSeconds` without a default.  `log` is the
    sequence of everything the client does. */
module TopicClient {
  import opened Sdk
  import opened Errors
  import opened Props
  import opened Handles
  import opened ConsumeLoop

  class TopicClient {
    var log: seq<Action>

    constructor ()
      ensures log == []
    {
      log := [];
    }

    /** `props ? this.parseMsgProps(props) : null`, run through the loop of
        `parseMsgProps`. */
    static method BuildProps(props: Option<PropBag>) returns (msgProps: Option<seq<PropCall>>)
      ensures msgProps == PropsArg(props)
    {
      msgProps := None;
      if props.Some? {
        var calls := ParseMsgProps(props.value);
        msgProps := Some(calls);
      }
    }

    /** `send(msg, tag, props)`: one publish on the plain producer with `msg`
        unchanged; its reply is the caller's, with no retry. */
    method Send(msg: string, tag: Option<string>, props: Option<PropBag>, reply: Reply<ResponsePublish>)
      returns (r: Reply<ResponsePublish>)
      modifies this`log
      ensures log == old(log) + [Call(PublishMessage(Producer, Verbatim(msg), tag, PropsArg(props)))]
      ensures r == reply
    {
      var msgProps := BuildProps(props);
      log := log + [Call(PublishMessage(Producer, Verbatim(msg), tag, msgProps))];
      r := reply;
    }

    /** `sendTrans(msg, tag, props)`: one publish on the transactional
        producer; the response body is wrapped unchanged. */
    method SendTrans(msg: string, tag: Option<string>, props: Option<PropBag>, reply: Reply<ResponsePublish>)
      returns (r: Reply<TransMessage>)
      modifies this`log
      ensures log == old(log) + [Call(PublishMessage(TransProducer, Verbatim(msg), tag, PropsArg(props)))]
      ensures r.Delivered? <==> reply.Delivered?
      ensures reply.Delivered? ==> r.response.message == reply.response.body
      ensures reply.Failed? ==> r.error == reply.error
    {
      var msgProps := BuildProps(props);
      log := log + [Call(PublishMessage(TransProducer, Verbatim(msg), tag, msgProps))];
      match reply {
        case Delivered(res) => r := Delivered(TransMessage(res.body));
        case Failed(e) => r := Failed(e);
      }
    }

    /** `ack(message)`: one acknowledgement of the record's handle alone. */
    method Ack(message: MessageBody, reply: Reply<ResponseConfirm>) returns (r: Reply<ResponseConfirm>)
      modifies this`log
      ensures log == old(log) + [Call(AckMessage([message.receiptHandle]))]
      ensures r == reply
    {
      log := log + [Call(AckMessage([message.receiptHandle]))];
      r := reply;
    }

    /** `subscribe(options)`: the event-dispatch loop on the consumer,
        without the `MessageNotExist` filter. */
    method Subscribe(options: SubscribeOptions, polls: seq<PollResult>)
      modifies this`log
      ensures log == old(log) + DispatchTrace(Normal, false, AsGivenPoll(Normal, options), polls)
    {
      var acts := RunDispatch(Normal, false, AsGivenPoll(Normal, options), polls);
      log := log + acts;
    }

    /** `subscribeHalfMessage(options)`: the same on half messages. */
    method SubscribeHalfMessage(options: SubscribeOptions, polls: seq<PollResult>)
      modifies this`log
      ensures log == old(log) + DispatchTrace(Half, false, AsGivenPoll(Half, options), polls)
    {
      var acts := RunDispatch(Half, false, AsGivenPoll(Half, options), polls);
      log := log + acts;
    }
  }

  /** A thrown `MessageNotExist` error reaches the topic client's error
      channel, while the same outcome is silent in lib/index.ts. */
  lemma NotExistIsReported(kind: Kind, call: SdkCall, e: ErrorValue)
    requires IsNotExist(e)
    ensures DispatchTrace(kind, false, call, [Thrown(e)]) == [Call(call), Emit(ErrorEvent(kind, e))]
    ensures DispatchTrace(kind, true, call, [Thrown(e)]) == [Call(call)]
  {
    var b := DispatchBodies(kind, false, [Thrown(e)]);
    var b' := DispatchBodies(kind, true, [Thrown(e)]);
    assert b[..0] == [] && b'[..0] == [];
    assert b[0] == Emits([ErrorEvent(kind, e)]) == [Emit(ErrorEvent(kind, e))];
    assert Loop(call, b) == Loop(call, b[..0]) + [Call(call)] + b[0];
  }
}
