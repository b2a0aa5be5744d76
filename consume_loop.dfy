/** The consume loops of lib/index.ts and lib/topicClient.ts, one iteration at
    a time.  A loop is driven by a finite trace of poll outcomes (and, in
    single-handler mode, the settled results of the handler calls); what it
    does is a log of `Action`s: the SDK requests it issues, the events it
    emits, the handler calls it starts and the `Promise.allSettled` barrier it
    waits on. */
module ConsumeLoop {
  import opened Sdk
  import opened Errors
  import opened Handles

  /** `subscribe` / `next` poll the consumer; `subscribeHalfMessage` /
      `nextTrans` poll the transactional producer for half messages. */
  datatype Kind = Normal | Half

  datatype SubscribeOptions = SubscribeOptions(numOfMessages: int, waitSeconds: Option<int>)

  /** What one long poll settles with. */
  datatype PollResult =
    | Responded(code: int, requestId: Option<string>, records: seq<MessageBody>)
    | Thrown(error: ErrorValue)

  /** How one handler promise of a batch settled. */
  datatype Settled = Fulfilled | Rejected(reason: ErrorValue)

  /** The identity of a registered single handler. */
  type HandlerId = nat

  datatype Event =
    | MessageEvent(message: Message)
    | HalfMessageEvent(message: Message)
    | MessageError(error: ErrorValue)
    | HalfMessageError(error: ErrorValue)
    | ConsumeError(reason: ErrorValue)

  datatype Action =
    | Call(call: SdkCall)
    | Emit(event: Event)
    | Invoke(handler: HandlerId, message: Message)
    | AllSettled(results: seq<Settled>)

  /** `waitSeconds || 10`: an absent or zero wait becomes 10. */
  function DefaultWait(w: Option<int>): (r: Option<int>)
    ensures r.Some? && r.value != 0
    ensures w.Some? && w.value != 0 ==> r == w
    ensures w == None || w == Some(0) ==> r == Some(10)
  {
    match w
    case Some(s) => if s != 0 then w else Some(10)
    case None => Some(10)
  }

  /** The long poll a loop of the given kind issues. */
  function PollCall(kind: Kind, numOfMessages: int, wait: Option<int>): (c: SdkCall)
    ensures EndpointOf(c) == (if kind == Normal then Consumer else TransProducer)
    ensures (c.ConsumeMessage? || c.ConsumeHalfMessage?) && c.numOfMessages == numOfMessages && c.waitSeconds == wait
  {
    match kind
    case Normal => ConsumeMessage(numOfMessages, wait)
    case Half => ConsumeHalfMessage(numOfMessages, wait)
  }

  /** The poll of `next` and of the topic client's loops: both options as
      given, with no default for the wait. */
  function AsGivenPoll(kind: Kind, options: SubscribeOptions): (c: SdkCall)
    ensures (c.ConsumeMessage? || c.ConsumeHalfMessage?) && c.waitSeconds == options.waitSeconds
  {
    PollCall(kind, options.numOfMessages, options.waitSeconds)
  }

  function ErrorEvent(kind: Kind, e: ErrorValue): Event
  {
    match kind
    case Normal => MessageError(e)
    case Half => HalfMessageError(e)
  }

  function MessageEventOf(kind: Kind, m: Message): Event
  {
    match kind
    case Normal => MessageEvent(m)
    case Half => HalfMessageEvent(m)
  }

  /** The events of one kind's loop use only that kind's channels, and the
      channel says whether an event carries a message or an error. */
  predicate OnChannel(kind: Kind, e: Event)
  {
    match kind
    case Normal => e.MessageEvent? || e.MessageError?
    case Half => e.HalfMessageEvent? || e.HalfMessageError?
  }

  predicate IsMessageEvent(e: Event)
  {
    e.MessageEvent? || e.HalfMessageEvent?
  }

  function Emits(events: seq<Event>): (r: seq<Action>)
    ensures |r| == |events|
    ensures forall i :: 0 <= i < |r| ==> r[i] == Emit(events[i])
  {
    seq(|events|, i requires 0 <= i < |events| => Emit(events[i]))
  }

  /** The `while (true)` skeleton shared by every loop: each iteration issues
      the same long poll `call` (the model treats the caller's options object
      as immutable) and then performs the actions its outcome leads to. */
  function Loop(call: SdkCall, bodies: seq<seq<Action>>): seq<Action>
    decreases |bodies|
  {
    if bodies == [] then []
    else Loop(call, bodies[..|bodies| - 1]) + [Call(call)] + bodies[|bodies| - 1]
  }

  /** The SDK requests in a log, in order. */
  function Calls(t: seq<Action>): seq<SdkCall>
  {
    if t == [] then []
    else Calls(t[..|t| - 1]) + (if t[|t| - 1].Call? then [t[|t| - 1].call] else [])
  }

  predicate NoCalls(t: seq<Action>)
  {
    forall i :: 0 <= i < |t| ==> !t[i].Call?
  }

  lemma {:induction false} CallsAppend(a: seq<Action>, b: seq<Action>)
    ensures Calls(a + b) == Calls(a) + Calls(b)
    decreases |b|
  {
    if b != [] {
      var b' := b[..|b| - 1];
      assert (a + b)[..|a + b| - 1] == a + b';
      assert (a + b)[|a + b| - 1] == b[|b| - 1];
      CallsAppend(a, b');
    } else {
      assert a + b == a;
    }
  }

  lemma {:induction false} CallsOfNoCalls(t: seq<Action>)
    requires NoCalls(t)
    ensures Calls(t) == []
    decreases |t|
  {
    if t != [] {
      CallsOfNoCalls(t[..|t| - 1]);
    }
  }

  /** Iterations do not interfere: the log of a trace is the log of its first
      part followed by the log of the rest. */
  lemma {:induction false} LoopAppend(call: SdkCall, a: seq<seq<Action>>, b: seq<seq<Action>>)
    ensures Loop(call, a + b) == Loop(call, a) + Loop(call, b)
    decreases |b|
  {
    if b != [] {
      var b' := b[..|b| - 1];
      assert (a + b)[..|a + b| - 1] == a + b';
      assert (a + b)[|a + b| - 1] == b[|b| - 1];
      LoopAppend(call, a, b');
    } else {
      assert a + b == a;
    }
  }

  /** The loop never stops early: it issues exactly one long poll per outcome
      of the trace, every one with the arguments it started with. */
  lemma {:induction false} LoopPollsOncePerOutcome(call: SdkCall, bodies: seq<seq<Action>>)
    requires forall i :: 0 <= i < |bodies| ==> NoCalls(bodies[i])
    ensures Calls(Loop(call, bodies)) == seq(|bodies|, _ => call)
    decreases |bodies|
  {
    if bodies != [] {
      var init := bodies[..|bodies| - 1];
      LoopPollsOncePerOutcome(call, init);
      CallsAppend(Loop(call, init) + [Call(call)], bodies[|bodies| - 1]);
      CallsAppend(Loop(call, init), [Call(call)]);
      CallsOfNoCalls(bodies[|bodies| - 1]);
      assert Calls([Call(call)]) == [call] by {
        assert [Call(call)][..0] == [];
      }
    }
  }

  /** Whatever the first `i` outcomes were, the loop then issues poll `i` and
      handles its outcome exactly as it would have from a fresh start. */
  lemma LoopContinues(call: SdkCall, bodies: seq<seq<Action>>, i: nat)
    requires i < |bodies|
    ensures Loop(call, bodies) == Loop(call, bodies[..i]) + [Call(call)] + bodies[i] + Loop(call, bodies[i + 1..])
  {
    assert bodies == bodies[..i + 1] + bodies[i + 1..];
    LoopAppend(call, bodies[..i + 1], bodies[i + 1..]);
    assert bodies[..i + 1][..i] == bodies[..i];
  }

  // ---------------------------------------------------------------------
  // Event-dispatch mode: `subscribe` and `subscribeHalfMessage`.

  /** The events emitted for one poll outcome.  `skipNotExist` is the
      `MessageNotExist` filter that lib/index.ts has and lib/topicClient.ts
      lacks. */
  function Dispatch(kind: Kind, skipNotExist: bool, poll: PollResult): (r: seq<Event>)
    ensures forall i :: 0 <= i < |r| ==> OnChannel(kind, r[i])
    ensures poll.Responded? && poll.code != 200 ==>
      r == [ErrorEvent(kind, ResponseError(StatusError(poll.code, poll.requestId, poll.records)))]
    ensures poll.Responded? && poll.code == 200 ==>
      |r| == |poll.records| &&
      forall j :: 0 <= j < |r| ==> r[j] == MessageEventOf(kind, Message(poll.records[j]))
    ensures poll.Thrown? ==>
      (r == [] <==> skipNotExist && IsNotExist(poll.error)) &&
      (r != [] ==> r == [ErrorEvent(kind, poll.error)])
  {
    match poll
    case Responded(code, requestId, records) =>
      if code != 200 then [ErrorEvent(kind, ResponseError(StatusError(code, requestId, records)))]
      else seq(|records|, j requires 0 <= j < |records| => MessageEventOf(kind, Message(records[j])))
    case Thrown(e) =>
      if skipNotExist && IsNotExist(e) then [] else [ErrorEvent(kind, e)]
  }

  /** Every record of a successful poll is delivered with its receipt handle
      unchanged, and an unsuccessful poll delivers no message at all. */
  lemma DispatchPreservesReceipts(kind: Kind, skipNotExist: bool, poll: PollResult)
    ensures var r := Dispatch(kind, skipNotExist, poll);
      && (poll.Responded? && poll.code == 200 ==>
            seq(|r|, j requires 0 <= j < |r| => r[j].message.message.receiptHandle)
              == seq(|poll.records|, j requires 0 <= j < |poll.records| => poll.records[j].receiptHandle))
      && (!(poll.Responded? && poll.code == 200) ==> forall j :: 0 <= j < |r| ==> !IsMessageEvent(r[j]))
  {
  }

  /** The two clients' loops agree on every outcome except a thrown
      `MessageNotExist` error, which only lib/index.ts passes over. */
  lemma DispatchVariantsDiffer(kind: Kind, poll: PollResult)
    ensures Dispatch(kind, true, poll) != Dispatch(kind, false, poll)
        <==> poll.Thrown? && IsNotExist(poll.error)
    ensures poll.Thrown? && IsNotExist(poll.error) ==>
      Dispatch(kind, true, poll) == [] && Dispatch(kind, false, poll) == [ErrorEvent(kind, poll.error)]
  {
  }

  function DispatchBodies(kind: Kind, skipNotExist: bool, polls: seq<PollResult>): (r: seq<seq<Action>>)
    ensures |r| == |polls|
    ensures forall i :: 0 <= i < |polls| ==> r[i] == Emits(Dispatch(kind, skipNotExist, polls[i]))
  {
    seq(|polls|, i requires 0 <= i < |polls| => Emits(Dispatch(kind, skipNotExist, polls[i])))
  }

  /** The log of an event-dispatch loop over a trace of poll outcomes. */
  function DispatchTrace(kind: Kind, skipNotExist: bool, call: SdkCall, polls: seq<PollResult>): seq<Action>
  {
    Loop(call, DispatchBodies(kind, skipNotExist, polls))
  }

  /** One more outcome extends the log by exactly one iteration. */
  lemma DispatchTraceStep(kind: Kind, skipNotExist: bool, call: SdkCall, polls: seq<PollResult>, i: nat)
    requires i < |polls|
    ensures DispatchTrace(kind, skipNotExist, call, polls[..i + 1])
         == DispatchTrace(kind, skipNotExist, call, polls[..i]) + [Call(call)] + Emits(Dispatch(kind, skipNotExist, polls[i]))
  {
    var b := DispatchBodies(kind, skipNotExist, polls[..i + 1]);
    assert b[..i] == DispatchBodies(kind, skipNotExist, polls[..i]);
  }

  /** An event-dispatch loop polls exactly once per outcome, whatever the
      outcomes are. */
  lemma DispatchPollsOncePerOutcome(kind: Kind, skipNotExist: bool, call: SdkCall, polls: seq<PollResult>)
    ensures Calls(DispatchTrace(kind, skipNotExist, call, polls)) == seq(|polls|, _ => call)
  {
    var bodies := DispatchBodies(kind, skipNotExist, polls);
    forall i | 0 <= i < |bodies| ensures NoCalls(bodies[i]) {
    }
    LoopPollsOncePerOutcome(call, bodies);
  }

  /** The trace [200 with two records, a non-200 status, 200 with no record,
      200 with one record] yields two messages, one error, nothing, one
      message, with a poll before each. */
  lemma DispatchScenario(kind: Kind, call: SdkCall, m1: MessageBody, m2: MessageBody, m3: MessageBody, rid: Option<string>)
    ensures DispatchTrace(kind, true, call, [Responded(200, rid, [m1, m2]), Responded(500, rid, []), Responded(200, rid, []), Responded(200, rid, [m3])])
         == [Call(call), Emit(MessageEventOf(kind, Message(m1))), Emit(MessageEventOf(kind, Message(m2))),
             Call(call), Emit(ErrorEvent(kind, ResponseError(StatusError(500, rid, [])))),
             Call(call),
             Call(call), Emit(MessageEventOf(kind, Message(m3)))]
  {
    var polls := [Responded(200, rid, [m1, m2]), Responded(500, rid, []), Responded(200, rid, []), Responded(200, rid, [m3])];
    var bodies := DispatchBodies(kind, true, polls);
    assert bodies[0] == [Emit(MessageEventOf(kind, Message(m1))), Emit(MessageEventOf(kind, Message(m2)))];
    assert bodies[1] == [Emit(ErrorEvent(kind, ResponseError(StatusError(500, rid, []))))];
    assert bodies[2] == [];
    assert bodies[3] == [Emit(MessageEventOf(kind, Message(m3)))];
    assert bodies[..1][..0] == [] && bodies[..2][..1] == bodies[..1];
    assert bodies[..3][..2] == bodies[..2] && bodies[..4] == bodies;
    assert Loop(call, bodies[..1]) == [Call(call)] + bodies[0];
    assert Loop(call, bodies[..2]) == [Call(call)] + bodies[0] + [Call(call)] + bodies[1];
    assert Loop(call, bodies[..3]) == Loop(call, bodies[..2]) + [Call(call)] + bodies[2];
    assert Loop(call, bodies) == Loop(call, bodies[..3]) + [Call(call)] + bodies[3];
  }

  // ---------------------------------------------------------------------
  // Single-handler mode: `next` and `nextTrans` in lib/index.ts.

  /** One iteration's input: the poll outcome and, for a 200 response, how
      the handler promise of each record settled (`Promise.allSettled`
      yields one result per promise, in record order). */
  datatype Round = Round(poll: PollResult, settled: seq<Settled>)

  predicate Settles(r: Round)
  {
    r.poll.Responded? && r.poll.code == 200 ==> |r.settled| == |r.poll.records|
  }

  /** The `catch` block: a caught error whose message contains
      `MessageNotExist` is passed over, any other is emitted. */
  function Caught(kind: Kind, e: ErrorValue): (r: seq<Action>)
    ensures r == [] <==> IsNotExist(e)
    ensures r != [] ==> r == [Emit(ErrorEvent(kind, e))]
  {
    if IsNotExist(e) then [] else [Emit(ErrorEvent(kind, e))]
  }

  const NormalSlotError := "this.msgSyncHandler is not a function"
  const HalfSlotError := "this.msgTransSyncHandler is not a function"

  lemma NormalSlotErrorHasNoMarker()
    ensures Search(NormalSlotError, NotExistMarker) == -1
  {
    NoMarkerWithoutCapitalM(NormalSlotError);
  }

  lemma HalfSlotErrorHasNoMarker()
    ensures Search(HalfSlotError, NotExistMarker) == -1
  {
    NoMarkerWithoutCapitalM(HalfSlotError);
  }

  /** The `TypeError` raised when the loop calls an empty handler slot. */
  function NotAFunction(kind: Kind): (e: ErrorValue)
    ensures !IsNotExist(e)
  {
    match kind
    case Normal => NormalSlotErrorHasNoMarker(); RequestError(NormalSlotError)
    case Half => HalfSlotErrorHasNoMarker(); RequestError(HalfSlotError)
  }

  /** One handler call per record, in record order. */
  function Invokes(h: HandlerId, records: seq<MessageBody>): (r: seq<Action>)
    ensures |r| == |records|
    ensures forall j :: 0 <= j < |r| ==> r[j] == Invoke(h, Message(records[j]))
  {
    seq(|records|, j requires 0 <= j < |records| => Invoke(h, Message(records[j])))
  }

  /** One `CONSUME_ERROR` per rejected handler promise, in batch order. */
  function ConsumeErrors(settled: seq<Settled>): (r: seq<Action>)
    ensures |r| <= |settled|
    ensures forall i :: 0 <= i < |r| ==> r[i].Emit? && r[i].event.ConsumeError?
  {
    if settled == [] then []
    else
      ConsumeErrors(settled[..|settled| - 1]) +
      (match settled[|settled| - 1] case Rejected(x) => [Emit(ConsumeError(x))] case Fulfilled => [])
  }

  /** The number of rejected results in a batch. */
  function RejectedCount(settled: seq<Settled>): nat
  {
    if settled == [] then 0
    else RejectedCount(settled[..|settled| - 1]) + (if settled[|settled| - 1].Rejected? then 1 else 0)
  }

  /** `CONSUME_ERROR`s follow the batch: the errors of a concatenation are
      the errors of its parts, a rejection yields its reason and a fulfilled
      result yields nothing; so there is one per rejection. */
  lemma {:induction false} ConsumeErrorsAppend(a: seq<Settled>, b: seq<Settled>)
    ensures ConsumeErrors(a + b) == ConsumeErrors(a) + ConsumeErrors(b)
    ensures RejectedCount(a + b) == RejectedCount(a) + RejectedCount(b)
    decreases |b|
  {
    if b != [] {
      var b' := b[..|b| - 1];
      assert (a + b)[..|a + b| - 1] == a + b';
      assert (a + b)[|a + b| - 1] == b[|b| - 1];
      ConsumeErrorsAppend(a, b');
    } else {
      assert a + b == a;
    }
  }

  lemma {:induction false} ConsumeErrorsCount(settled: seq<Settled>)
    ensures |ConsumeErrors(settled)| == RejectedCount(settled)
    ensures (forall i :: 0 <= i < |settled| ==> settled[i].Fulfilled?) ==> ConsumeErrors(settled) == []
    decreases |settled|
  {
    if settled != [] {
      ConsumeErrorsCount(settled[..|settled| - 1]);
    }
  }

  /** The rejection at position `i` gives the `CONSUME_ERROR` numbered by
      the rejections before it, carrying its own reason. */
  lemma {:induction false} ConsumeErrorAt(settled: seq<Settled>, i: nat)
    requires i < |settled| && settled[i].Rejected?
    ensures RejectedCount(settled[..i]) < |ConsumeErrors(settled)|
    ensures ConsumeErrors(settled)[RejectedCount(settled[..i])] == Emit(ConsumeError(settled[i].reason))
    decreases |settled|
  {
    var init := settled[..|settled| - 1];
    ConsumeErrorsCount(init);
    if i < |init| {
      ConsumeErrorAt(init, i);
      assert settled[..i] == init[..i];
    } else {
      assert settled[..i] == init;
    }
  }

  /** Each rejection is reported with its own reason, in batch order. */
  lemma ConsumeErrorsReasons(settled: seq<Settled>)
    ensures forall i :: 0 <= i < |settled| && settled[i].Rejected? ==>
      RejectedCount(settled[..i]) < |ConsumeErrors(settled)| &&
      ConsumeErrors(settled)[RejectedCount(settled[..i])] == Emit(ConsumeError(settled[i].reason))
  {
    forall i | 0 <= i < |settled| && settled[i].Rejected?
      ensures RejectedCount(settled[..i]) < |ConsumeErrors(settled)|
      ensures ConsumeErrors(settled)[RejectedCount(settled[..i])] == Emit(ConsumeError(settled[i].reason))
    {
      ConsumeErrorAt(settled, i);
    }
  }

  /** What one iteration does after its poll, given the handler slot. */
  function SyncBody(kind: Kind, handler: Option<HandlerId>, round: Round): seq<Action>
    requires Settles(round)
  {
    match round.poll
    case Thrown(e) => Caught(kind, e)
    case Responded(code, requestId, records) =>
      if code != 200 then Caught(kind, ResponseError(StatusError(code, requestId, records)))
      else if records == [] then [AllSettled([])]
      else
        match handler
        case None => Caught(kind, NotAFunction(kind))
        case Some(h) => Invokes(h, records) + [AllSettled(round.settled)] + ConsumeErrors(round.settled)
  }

  /** A non-200 response is thrown and caught, and is always reported: one
      error event carrying the status, no handler call. */
  lemma SyncStatusError(kind: Kind, handler: Option<HandlerId>, round: Round)
    requires round.poll.Responded? && round.poll.code != 200
    ensures SyncBody(kind, handler, round)
         == [Emit(ErrorEvent(kind, ResponseError(StatusError(round.poll.code, round.poll.requestId, round.poll.records))))]
  {
    StatusErrorIsNotNotExist(round.poll.code, round.poll.requestId, round.poll.records);
  }

  /** A 200 batch with a handler set: the handler is called once per record
      in record order, the loop then waits for all of them, and afterwards
      reports one `CONSUME_ERROR` per rejection and nothing else. */
  lemma SyncBatch(kind: Kind, h: HandlerId, round: Round)
    requires Settles(round) && round.poll.Responded? && round.poll.code == 200
    ensures var body := SyncBody(kind, Some(h), round);
      var n := |round.poll.records|;
      && |body| == n + 1 + RejectedCount(round.settled)
      && (forall j :: 0 <= j < n ==> body[j] == Invoke(h, Message(round.poll.records[j])))
      && body[n] == AllSettled(round.settled)
      && (forall j :: n < j < |body| ==> body[j].Emit? && body[j].event.ConsumeError?)
      && body[n + 1..] == ConsumeErrors(round.settled)
  {
    ConsumeErrorsCount(round.settled);
  }

  /** Whether a handler promise is still in flight after the actions `t`,
      starting from `p`. */
  function PendingAfter(p: bool, t: seq<Action>): bool
    decreases |t|
  {
    if t == [] then p
    else PendingAfter(if t[0].Invoke? then true else if t[0].AllSettled? then false else p, t[1..])
  }

  lemma {:induction false} PendingAfterAppend(p: bool, a: seq<Action>, b: seq<Action>)
    ensures PendingAfter(p, a + b) == PendingAfter(PendingAfter(p, a), b)
    decreases |a|
  {
    if a != [] {
      assert (a + b)[0] == a[0];
      assert (a + b)[1..] == a[1..] + b;
      PendingAfterAppend(if a[0].Invoke? then true else if a[0].AllSettled? then false else p, a[1..], b);
    } else {
      assert a + b == b;
    }
  }

  /** Actions that neither start nor settle a handler leave the state alone. */
  lemma {:induction false} PendingAfterNeutral(p: bool, t: seq<Action>)
    requires forall i :: 0 <= i < |t| ==> !t[i].Invoke? && !t[i].AllSettled?
    ensures PendingAfter(p, t) == p
    decreases |t|
  {
    if t != [] {
      PendingAfterNeutral(p, t[1..]);
    }
  }

  /** No long poll is issued while a handler promise is in flight. */
  predicate PollsOnlyWhenSettled(t: seq<Action>)
  {
    forall i :: 0 <= i < |t| && t[i].Call? ==> !PendingAfter(false, t[..i])
  }

  /** One iteration's body issues no request and leaves nothing in flight. */
  lemma SyncBodySettles(kind: Kind, handler: Option<HandlerId>, round: Round)
    requires Settles(round)
    ensures NoCalls(SyncBody(kind, handler, round))
    ensures !PendingAfter(false, SyncBody(kind, handler, round))
  {
    var body := SyncBody(kind, handler, round);
    if round.poll.Responded? && round.poll.code == 200 && round.poll.records != [] && handler.Some? {
      var inv := Invokes(handler.value, round.poll.records);
      var errs := ConsumeErrors(round.settled);
      assert body == inv + [AllSettled(round.settled)] + errs;
      PendingAfterAppend(false, inv + [AllSettled(round.settled)], errs);
      PendingAfterAppend(false, inv, [AllSettled(round.settled)]);
      PendingAfterNeutral(false, errs);
    } else if round.poll.Responded? && round.poll.code == 200 && round.poll.records == [] {
      assert body == [AllSettled([])];
    } else {
      PendingAfterNeutral(false, body);
    }
  }

  /** Appending one iteration that issues its poll while nothing is in
      flight and settles everything it starts keeps the barrier. */
  lemma SettledExtend(before: seq<Action>, call: SdkCall, body: seq<Action>)
    requires PollsOnlyWhenSettled(before) && !PendingAfter(false, before)
    requires NoCalls(body) && !PendingAfter(false, body)
    ensures PollsOnlyWhenSettled(before + [Call(call)] + body)
    ensures !PendingAfter(false, before + [Call(call)] + body)
  {
    var t := before + [Call(call)] + body;
    PendingAfterAppend(false, before, [Call(call)]);
    PendingAfterAppend(false, before + [Call(call)], body);
    forall i | 0 <= i < |t| && t[i].Call? ensures !PendingAfter(false, t[..i]) {
      if i < |before| {
        assert t[..i] == before[..i];
      } else if i == |before| {
        assert t[..i] == before;
      }
    }
  }

  function SyncBodies(kind: Kind, handler: Option<HandlerId>, rounds: seq<Round>): (r: seq<seq<Action>>)
    requires forall i :: 0 <= i < |rounds| ==> Settles(rounds[i])
    ensures |r| == |rounds|
    ensures forall i :: 0 <= i < |rounds| ==> r[i] == SyncBody(kind, handler, rounds[i])
  {
    seq(|rounds|, i requires 0 <= i < |rounds| => SyncBody(kind, handler, rounds[i]))
  }

  /** The log of a single-handler loop over a trace of rounds. */
  function SyncTrace(kind: Kind, handler: Option<HandlerId>, call: SdkCall, rounds: seq<Round>): seq<Action>
    requires forall i :: 0 <= i < |rounds| ==> Settles(rounds[i])
  {
    Loop(call, SyncBodies(kind, handler, rounds))
  }

  lemma SyncTraceStep(kind: Kind, handler: Option<HandlerId>, call: SdkCall, rounds: seq<Round>, i: nat)
    requires forall i :: 0 <= i < |rounds| ==> Settles(rounds[i])
    requires i < |rounds|
    ensures SyncTrace(kind, handler, call, rounds[..i + 1])
         == SyncTrace(kind, handler, call, rounds[..i]) + [Call(call)] + SyncBody(kind, handler, rounds[i])
  {
    var b := SyncBodies(kind, handler, rounds[..i + 1]);
    assert b[..i] == SyncBodies(kind, handler, rounds[..i]);
  }

  /** The barrier: each long poll after the first starts only once every
      handler promise of the previous batch has settled, and the loop never
      stops early. */
  lemma {:induction false} SyncTraceSettlesBeforePolling(kind: Kind, handler: Option<HandlerId>, call: SdkCall, rounds: seq<Round>)
    requires forall i :: 0 <= i < |rounds| ==> Settles(rounds[i])
    ensures PollsOnlyWhenSettled(SyncTrace(kind, handler, call, rounds))
    ensures !PendingAfter(false, SyncTrace(kind, handler, call, rounds))
    ensures Calls(SyncTrace(kind, handler, call, rounds)) == seq(|rounds|, _ => call)
    decreases |rounds|
  {
    var bodies := SyncBodies(kind, handler, rounds);
    forall i | 0 <= i < |bodies| ensures NoCalls(bodies[i]) {
      SyncBodySettles(kind, handler, rounds[i]);
    }
    LoopPollsOncePerOutcome(call, bodies);
    if rounds != [] {
      var n := |rounds| - 1;
      SyncTraceSettlesBeforePolling(kind, handler, call, rounds[..n]);
      SyncTraceStep(kind, handler, call, rounds, n);
      assert rounds[..n + 1] == rounds;
      SyncBodySettles(kind, handler, rounds[n]);
      SettledExtend(SyncTrace(kind, handler, call, rounds[..n]), call, SyncBody(kind, handler, rounds[n]));
    }
  }

  /** Every handler call of a loop goes to the handler in its slot. */
  lemma {:induction false} SyncTraceInvokesOnly(kind: Kind, h: HandlerId, call: SdkCall, rounds: seq<Round>)
    requires forall i :: 0 <= i < |rounds| ==> Settles(rounds[i])
    ensures var t := SyncTrace(kind, Some(h), call, rounds);
      forall i :: 0 <= i < |t| && t[i].Invoke? ==> t[i].handler == h
    decreases |rounds|
  {
    if rounds != [] {
      var n := |rounds| - 1;
      SyncTraceInvokesOnly(kind, h, call, rounds[..n]);
      SyncTraceStep(kind, Some(h), call, rounds, n);
      assert rounds[..n + 1] == rounds;
      var body := SyncBody(kind, Some(h), rounds[n]);
      if rounds[n].poll.Responded? && rounds[n].poll.code == 200 && rounds[n].poll.records != [] {
        var inv := Invokes(h, rounds[n].poll.records);
        var errs := ConsumeErrors(rounds[n].settled);
        assert body == inv + [AllSettled(rounds[n].settled)] + errs;
        assert forall j :: 0 <= j < |body| && body[j].Invoke? ==> body[j].handler == h;
      }
    }
  }

  // ---------------------------------------------------------------------
  // The loops themselves.

  /** One iteration of `subscribe` / `subscribeHalfMessage` after its poll:
      the `try` block's emissions, or the `catch` block's. */
  method DispatchOnce(kind: Kind, skipNotExist: bool, poll: PollResult) returns (acts: seq<Action>)
    ensures acts == Emits(Dispatch(kind, skipNotExist, poll))
  {
    acts := [];
    match poll {
      case Responded(code, requestId, records) =>
        if code != 200 {
          acts := [Emit(ErrorEvent(kind, ResponseError(StatusError(code, requestId, records))))];
        } else {
          var j := 0;
          while j < |records|
            invariant 0 <= j <= |records|
            invariant |acts| == j
            invariant forall k :: 0 <= k < j ==> acts[k] == Emit(MessageEventOf(kind, Message(records[k])))
          {
            acts := acts + [Emit(MessageEventOf(kind, Message(records[j])))];
            j := j + 1;
          }
        }
      case Thrown(e) =>
        if skipNotExist && Search(MessageOf(e), NotExistMarker) >= 0 {
          // continue
        } else {
          acts := [Emit(ErrorEvent(kind, e))];
        }
    }
  }

  /** The `while (true)` of `subscribe` / `subscribeHalfMessage`, run over a
      finite trace of poll outcomes: it ends only when the trace does. */
  method RunDispatch(kind: Kind, skipNotExist: bool, call: SdkCall, polls: seq<PollResult>) returns (log: seq<Action>)
    ensures log == DispatchTrace(kind, skipNotExist, call, polls)
  {
    log := [];
    var i := 0;
    while i < |polls|
      invariant 0 <= i <= |polls|
      invariant log == DispatchTrace(kind, skipNotExist, call, polls[..i])
    {
      DispatchTraceStep(kind, skipNotExist, call, polls, i);
      var acts := DispatchOnce(kind, skipNotExist, polls[i]);
      log := log + [Call(call)] + acts;
      i := i + 1;
    }
    assert polls[..i] == polls;
  }

  /** The handler calls of one batch, in record order. */
  method InvokeAll(h: HandlerId, records: seq<MessageBody>) returns (acts: seq<Action>)
    ensures acts == Invokes(h, records)
  {
    acts := [];
    var j := 0;
    while j < |records|
      invariant 0 <= j <= |records|
      invariant |acts| == j
      invariant forall k :: 0 <= k < j ==> acts[k] == Invoke(h, Message(records[k]))
    {
      acts := acts + [Invoke(h, Message(records[j]))];
      j := j + 1;
    }
  }

  /** The `for (const item of workerRes)` loop over the settled batch. */
  method ReportRejections(settled: seq<Settled>) returns (acts: seq<Action>)
    ensures acts == ConsumeErrors(settled)
  {
    acts := [];
    var k := 0;
    while k < |settled|
      invariant 0 <= k <= |settled|
      invariant acts == ConsumeErrors(settled[..k])
    {
      assert settled[..k + 1][..k] == settled[..k];
      if settled[k].Rejected? {
        acts := acts + [Emit(ConsumeError(settled[k].reason))];
      }
      k := k + 1;
    }
    assert settled[..k] == settled;
  }

  /** One iteration of `next` / `nextTrans` after its poll. */
  method SyncOnce(kind: Kind, handler: Option<HandlerId>, round: Round) returns (acts: seq<Action>)
    requires Settles(round)
    ensures acts == SyncBody(kind, handler, round)
  {
    acts := [];
    var caught: Option<ErrorValue> := None;
    match round.poll {
      case Thrown(e) =>
        caught := Some(e);
      case Responded(code, requestId, records) =>
        if code != 200 {
          caught := Some(ResponseError(StatusError(code, requestId, records)));
        } else if records == [] {
          acts := [AllSettled([])];
        } else if handler.None? {
          caught := Some(NotAFunction(kind));
        } else {
          var started := InvokeAll(handler.value, records);
          var reported := ReportRejections(round.settled);
          acts := started + [AllSettled(round.settled)] + reported;
        }
    }
    if caught.Some? {
      if Search(MessageOf(caught.value), NotExistMarker) >= 0 {
        // continue
      } else {
        acts := [Emit(ErrorEvent(kind, caught.value))];
      }
    }
  }

  /** The `while (1)` of `next` / `nextTrans`, run over a finite trace of
      rounds.  `handler` is the content of the slot the loop reads. */
  method RunSync(kind: Kind, handler: Option<HandlerId>, call: SdkCall, rounds: seq<Round>) returns (log: seq<Action>)
    requires forall i :: 0 <= i < |rounds| ==> Settles(rounds[i])
    ensures log == SyncTrace(kind, handler, call, rounds)
  {
    log := [];
    var i := 0;
    while i < |rounds|
      invariant 0 <= i <= |rounds|
      invariant log == SyncTrace(kind, handler, call, rounds[..i])
    {
      SyncTraceStep(kind, handler, call, rounds, i);
      var acts := SyncOnce(kind, handler, rounds[i]);
      log := log + [Call(call)] + acts;
      i := i + 1;
    }
    assert rounds[..i] == rounds;
  }
}
