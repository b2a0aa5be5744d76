/** The handles given to callers: `Message` (lib/message.ts) wraps one fetched
    record, `TransMessage` (lib/transMessage.ts) wraps the body of a
    transactional publish response.  Both are immutable; each operation
    issues one request keyed by the wrapped receipt handle and forwards the
    broker's reply unchanged.  The client reference they hold only selects
    the channel, which `EndpointOf` names. */
module Handles {
  import opened Sdk
  import opened Errors

  datatype Message = Message(message: MessageBody)
  {
    /** `done()`: acknowledge this record on the consumer channel. */
    function Done(reply: Reply<ResponseConfirm>): (r: Outcome<ResponseConfirm>)
      ensures r.result == reply
      ensures |r.calls| == 1 && EndpointOf(r.calls[0]) == Consumer
      ensures r.calls[0].AckMessage? && r.calls[0].receiptHandles == [message.receiptHandle]
    {
      Outcome(reply, [AckMessage([message.receiptHandle])])
    }

    /** `commit()`: commit this (half-)message on the transactional channel. */
    function Commit(reply: Reply<ResponseConfirm>): (r: Outcome<ResponseConfirm>)
      ensures r.result == reply
      ensures |r.calls| == 1 && EndpointOf(r.calls[0]) == TransProducer
      ensures r.calls[0].Commit? && r.calls[0].receiptHandle == Some(message.receiptHandle)
    {
      Outcome(reply, [Sdk.Commit(Some(message.receiptHandle))])
    }

    /** `rollback()`: roll this (half-)message back on the transactional channel. */
    function Rollback(reply: Reply<ResponseConfirm>): (r: Outcome<ResponseConfirm>)
      ensures r.result == reply
      ensures |r.calls| == 1 && EndpointOf(r.calls[0]) == TransProducer
      ensures r.calls[0].Rollback? && r.calls[0].receiptHandle == Some(message.receiptHandle)
    {
      Outcome(reply, [Sdk.Rollback(Some(message.receiptHandle))])
    }
  }

  /** The publish body's receipt handle is optional in the SDK's type; it is
      forwarded as it is, absent or not. */
  datatype TransMessage = TransMessage(message: PublishBody)
  {
    function Commit(reply: Reply<ResponseConfirm>): (r: Outcome<ResponseConfirm>)
      ensures r.result == reply
      ensures |r.calls| == 1 && EndpointOf(r.calls[0]) == TransProducer
      ensures r.calls[0].Commit? && r.calls[0].receiptHandle == message.receiptHandle
    {
      Outcome(reply, [Sdk.Commit(message.receiptHandle)])
    }

    function Rollback(reply: Reply<ResponseConfirm>): (r: Outcome<ResponseConfirm>)
      ensures r.result == reply
      ensures |r.calls| == 1 && EndpointOf(r.calls[0]) == TransProducer
      ensures r.calls[0].Rollback? && r.calls[0].receiptHandle == message.receiptHandle
    {
      Outcome(reply, [Sdk.Rollback(message.receiptHandle)])
    }
  }

  /** The receipt handle a request is keyed by, if it names exactly one. */
  function KeyedBy(c: SdkCall): Option<string>
  {
    match c
    case AckMessage(hs) => if |hs| == 1 then Some(hs[0]) else None
    case Commit(h) => h
    case Rollback(h) => h
    case _ => None
  }

  /** The three requests of a `Message` are keyed by its own receipt handle,
      are pairwise different, and `done` is the only one on the consumer
      channel.  By being functions of the wrapped record alone, repeated
      calls issue identical requests. */
  lemma MessageRequests(m: Message, a: Reply<ResponseConfirm>, b: Reply<ResponseConfirm>, c: Reply<ResponseConfirm>)
    ensures var d, k, rb := m.Done(a).calls[0], m.Commit(b).calls[0], m.Rollback(c).calls[0];
      && KeyedBy(d) == KeyedBy(k) == KeyedBy(rb) == Some(m.message.receiptHandle)
      && d != k && k != rb && d != rb
      && EndpointOf(d) == Consumer && EndpointOf(k) == EndpointOf(rb) == TransProducer
  {
  }

  /** Two handles issue the same request exactly when they wrap the same
      receipt handle. */
  lemma DoneIdentifiesReceipt(m1: Message, m2: Message, a: Reply<ResponseConfirm>, b: Reply<ResponseConfirm>)
    ensures m1.Done(a).calls == m2.Done(b).calls <==> m1.message.receiptHandle == m2.message.receiptHandle
  {
  }

  /** A `TransMessage` only ever addresses the transactional channel, with
      the receipt handle of the publish response; it never acknowledges. */
  lemma TransMessageRequests(t: TransMessage, a: Reply<ResponseConfirm>, b: Reply<ResponseConfirm>)
    ensures var k, rb := t.Commit(a).calls[0], t.Rollback(b).calls[0];
      && KeyedBy(k) == KeyedBy(rb) == t.message.receiptHandle
      && k != rb && !k.AckMessage? && !rb.AckMessage?
      && EndpointOf(k) == EndpointOf(rb) == TransProducer
  {
  }
}
