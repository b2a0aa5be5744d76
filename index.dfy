/** lib/index.ts: the `Client` façade.  Publishing and acknowledging are
    functions from the broker's replies to the caller's result and the
    requests issued; the consume loops and the two single-handler slots live
    in the `Client` class, whose `log` is the sequence of everything the
    client does (SDK requests, `emit`s, handler calls). */
module Index {
  import opened Sdk
  import opened Errors
  import opened Props
  import opened Handles
  import opened ConsumeLoop

  /** The publish request of `send`: `JSON.stringify(msg)` with the tag and
      the parsed properties, on the plain producer. */
  function SendCall(msg: JsValue, tag: Option<string>, props: Option<PropBag>): SdkCall
  {
    PublishMessage(Producer, JsonOf(msg), tag, PropsArg(props))
  }

  /** How many attempts `send` may make: the retry flag buys one more. */
  function AttemptBudget(retry: bool): nat
  {
    if retry then 2 else 1
  }

  /** `send(msg, tag, props, retry)`.  `replies[i]` is how the `i`-th publish
      attempt settles; the trace answers every attempt the budget allows. */
  function Send(msg: JsValue, tag: Option<string>, props: Option<PropBag>, retry: bool,
                replies: seq<Reply<ResponsePublish>>): (r: Outcome<ResponsePublish>)
    requires |replies| >= AttemptBudget(retry)
    ensures 1 <= |r.calls| <= AttemptBudget(retry)
    ensures forall i :: 0 <= i < |r.calls| ==> r.calls[i] == SendCall(msg, tag, props)
    ensures |r.calls| == 2 <==> retry && replies[0].Failed?
    ensures r.result == replies[|r.calls| - 1]
    ensures r.result.Failed? ==>
      |r.calls| == AttemptBudget(retry) && forall i :: 0 <= i < |r.calls| ==> replies[i].Failed?
    decreases retry
  {
    var call := SendCall(msg, tag, props);
    match replies[0]
    case Delivered(res) => Outcome(Delivered(res), [call])
    case Failed(e) =>
      if retry then
        var again := Send(msg, tag, props, false, replies[1..]);
        Outcome(again.result, [call] + again.calls)
      else Outcome(Failed(e), [call])
  }

  /** `send` succeeds exactly when one of its (at most two) attempts does,
      and then returns that attempt's response unchanged. */
  lemma SendSucceedsIff(msg: JsValue, tag: Option<string>, props: Option<PropBag>, replies: seq<Reply<ResponsePublish>>)
    requires |replies| >= 2
    ensures var r := Send(msg, tag, props, true, replies);
      && (r.result.Delivered? <==> replies[0].Delivered? || replies[1].Delivered?)
      && (replies[0].Delivered? ==> r == Outcome(replies[0], [SendCall(msg, tag, props)]))
      && (replies[0].Failed? ==> r == Outcome(replies[1], [SendCall(msg, tag, props), SendCall(msg, tag, props)]))
  {
  }

  /** `sendTrans(msg, tag, props)`: one attempt on the transactional
      producer; its response body is wrapped unchanged, a failure is passed
      on as it is. */
  function SendTrans(msg: JsValue, tag: Option<string>, props: Option<PropBag>,
                     reply: Reply<ResponsePublish>): (r: Outcome<TransMessage>)
    ensures r.calls == [PublishMessage(TransProducer, JsonOf(msg), tag, PropsArg(props))]
    ensures r.result.Delivered? <==> reply.Delivered?
    ensures reply.Delivered? ==> r.result.response.message == reply.response.body
    ensures reply.Failed? ==> r.result.error == reply.error
  {
    var call := PublishMessage(TransProducer, JsonOf(msg), tag, PropsArg(props));
    match reply
    case Delivered(res) => Outcome(Delivered(TransMessage(res.body)), [call])
    case Failed(e) => Outcome(Failed(e), [call])
  }

  /** Only `send` retries: after a failed first attempt and a successful
      second one, `send` succeeds with two requests while `sendTrans`
      fails with one. */
  lemma OnlySendRetries(msg: JsValue, tag: Option<string>, props: Option<PropBag>, e: ErrorValue, res: ResponsePublish)
    ensures Send(msg, tag, props, true, [Failed(e), Delivered(res)]) == Outcome(Delivered(res), [SendCall(msg, tag, props), SendCall(msg, tag, props)])
    ensures SendTrans(msg, tag, props, Failed(e)).result == Failed(e)
    ensures |SendTrans(msg, tag, props, Failed(e)).calls| == 1
  {
  }

  /** `ack(message)`: one acknowledgement whose only handle is the record's. */
  function Ack(message: MessageBody, reply: Reply<ResponseConfirm>): (r: Outcome<ResponseConfirm>)
    ensures r.result == reply
    ensures |r.calls| == 1 && EndpointOf(r.calls[0]) == Consumer
    ensures r.calls[0].AckMessage? && r.calls[0].receiptHandles == [message.receiptHandle]
  {
    Outcome(reply, [AckMessage([message.receiptHandle])])
  }

  /** Acknowledging through the client and through the handle are the same
      request. */
  lemma AckIsDone(message: MessageBody, reply: Reply<ResponseConfirm>)
    ensures Ack(message, reply) == Message(message).Done(reply)
  {
  }

  /** `nextTrans`, `subscribe` and `subscribeHalfMessage` substitute 10 for
      an absent or zero wait. */
  function DefaultedCall(kind: Kind, options: SubscribeOptions): SdkCall
  {
    PollCall(kind, options.numOfMessages, DefaultWait(options.waitSeconds))
  }

  /** Only `next` can issue a poll without a wait or with a zero wait. */
  lemma WaitDefaults(kind: Kind, options: SubscribeOptions)
    ensures DefaultedCall(kind, options).waitSeconds.Some? && DefaultedCall(kind, options).waitSeconds.value != 0
    ensures AsGivenPoll(Normal, options).waitSeconds == options.waitSeconds
    ensures options.waitSeconds.Some? && options.waitSeconds.value != 0 ==>
      DefaultedCall(kind, options).waitSeconds == options.waitSeconds
  {
  }

  class Client {
    /** Everything the client has done, in order. */
    var log: seq<Action>
    var msgSyncHandler: Option<HandlerId>
    var msgTransSyncHandler: Option<HandlerId>

    constructor ()
      ensures log == [] && msgSyncHandler == None && msgTransSyncHandler == None
    {
      log := [];
      msgSyncHandler := None;
      msgTransSyncHandler := None;
    }

    /** `next(options)` over a finite trace of rounds; every handler call goes
        to whatever is in `msgSyncHandler`. */
    method Next(options: SubscribeOptions, rounds: seq<Round>)
      requires forall i :: 0 <= i < |rounds| ==> Settles(rounds[i])
      modifies this`log
      ensures log == old(log) + SyncTrace(Normal, msgSyncHandler, AsGivenPoll(Normal, options), rounds)
    {
      var acts := RunSync(Normal, msgSyncHandler, AsGivenPoll(Normal, options), rounds);
      log := log + acts;
    }

    /** `nextTrans(options)`: the same on half messages, with the wait
        defaulted and the `msgTransSyncHandler` slot. */
    method NextTrans(options: SubscribeOptions, rounds: seq<Round>)
      requires forall i :: 0 <= i < |rounds| ==> Settles(rounds[i])
      modifies this`log
      ensures log == old(log) + SyncTrace(Half, msgTransSyncHandler, DefaultedCall(Half, options), rounds)
    {
      var acts := RunSync(Half, msgTransSyncHandler, DefaultedCall(Half, options), rounds);
      log := log + acts;
    }

    /** `onMessageSync(options, fn)`: a set slot makes the call a no-op;
        otherwise `fn` is stored and exactly one loop starts with it. */
    method OnMessageSync(options: SubscribeOptions, fn: HandlerId, rounds: seq<Round>)
      requires forall i :: 0 <= i < |rounds| ==> Settles(rounds[i])
      modifies this
      ensures msgTransSyncHandler == old(msgTransSyncHandler)
      ensures old(msgSyncHandler).Some? ==> msgSyncHandler == old(msgSyncHandler) && log == old(log)
      ensures old(msgSyncHandler).None? ==>
        msgSyncHandler == Some(fn) &&
        log == old(log) + SyncTrace(Normal, Some(fn), AsGivenPoll(Normal, options), rounds)
    {
      if msgSyncHandler.Some? {
        return;
      }
      msgSyncHandler := Some(fn);
      Next(options, rounds);
    }

    /** `onHalfMessageSync(options, fn)`: the same for the half-message slot. */
    method OnHalfMessageSync(options: SubscribeOptions, fn: HandlerId, rounds: seq<Round>)
      requires forall i :: 0 <= i < |rounds| ==> Settles(rounds[i])
      modifies this
      ensures msgSyncHandler == old(msgSyncHandler)
      ensures old(msgTransSyncHandler).Some? ==> msgTransSyncHandler == old(msgTransSyncHandler) && log == old(log)
      ensures old(msgTransSyncHandler).None? ==>
        msgTransSyncHandler == Some(fn) &&
        log == old(log) + SyncTrace(Half, Some(fn), DefaultedCall(Half, options), rounds)
    {
      if msgTransSyncHandler.Some? {
        return;
      }
      msgTransSyncHandler := Some(fn);
      NextTrans(options, rounds);
    }

    /** `subscribe(options)`: the event-dispatch loop on the consumer, with
        the `MessageNotExist` filter and the defaulted wait. */
    method Subscribe(options: SubscribeOptions, polls: seq<PollResult>)
      modifies this`log
      ensures log == old(log) + DispatchTrace(Normal, true, DefaultedCall(Normal, options), polls)
    {
      var acts := RunDispatch(Normal, true, DefaultedCall(Normal, options), polls);
      log := log + acts;
    }

    /** `subscribeHalfMessage(options)`: the same on half messages. */
    method SubscribeHalfMessage(options: SubscribeOptions, polls: seq<PollResult>)
      modifies this`log
      ensures log == old(log) + DispatchTrace(Half, true, DefaultedCall(Half, options), polls)
    {
      var acts := RunDispatch(Half, true, DefaultedCall(Half, options), polls);
      log := log + acts;
    }
  }

  /** A second registration leaves the first handler in place: after
      `onMessageSync(o, f)` and `onMessageSync(o', g)` only `f`'s loop runs,
      and it calls `f` alone. */
  method RegisterTwice(o1: SubscribeOptions, o2: SubscribeOptions, f: HandlerId, g: HandlerId, r1: seq<Round>, r2: seq<Round>)
    returns (slot: Option<HandlerId>, log: seq<Action>)
    requires forall i :: 0 <= i < |r1| ==> Settles(r1[i])
    requires forall i :: 0 <= i < |r2| ==> Settles(r2[i])
    ensures slot == Some(f)
    ensures log == SyncTrace(Normal, Some(f), AsGivenPoll(Normal, o1), r1)
    ensures forall i :: 0 <= i < |log| && log[i].Invoke? ==> log[i].handler == f
  {
    var c := new Client();
    c.OnMessageSync(o1, f, r1);
    c.OnMessageSync(o2, g, r2);
    slot, log := c.msgSyncHandler, c.log;
    SyncTraceInvokesOnly(Normal, f, AsGivenPoll(Normal, o1), r1);
  }
}
