# ali-rocketmq: a Dafny model of the adapter logic

The repository is a thin TypeScript adapter over the Aliyun MQ (RocketMQ) HTTP
SDK. It has two façades, `Client` (lib/index.ts) and the older `TopicClient`
(lib/topicClient.ts), plus two immutable handles, `Message` and
`TransMessage`. This project models the part that decides things once the
transport is taken away:

- how a property bag becomes builder calls (`parseMsgProps`);
- the publish policies: `send` retries once in `Client` and never in
  `TopicClient`, `sendTrans` makes a single attempt, and `ack` sends one
  singleton acknowledgement;
- the never-ending consume loops. There are two in event-dispatch mode
  (`subscribe`, `subscribeHalfMessage`) and two in single-handler mode
  (`next` and `nextTrans`, started by `onMessageSync` / `onHalfMessageSync`);
- the at-most-once handler slots;
- the requests issued by the handles' `done`, `commit` and `rollback`.

## How the model is built

The SDK is an oracle. Every request the adapter would send is an `SdkCall`
value: publish, consume, consume half message, ack, commit or rollback. Every
answer is an input to the model:

- a `Reply` for each publish or confirm;
- a `PollResult` for each long poll, either `Responded(code, requestId, records)`
  or `Thrown(error)`;
- in single-handler mode, the settled result of each handler promise of a
  batch (`Round.settled`).

The loops of both clients and the forwarders of `TopicClient` append their
effects to `log`, a field of type `seq<Action>`. `Client`'s `send`, `sendTrans`
and `ack` are functions instead: they return their requests in `Outcome.calls`
and leave `Client.log` alone. An `Action` is one of four things:

- an SDK request;
- an `emit` on one of the channels `MESSAGE`, `HALF_MESSAGE`, `MESSAGE_ERROR`,
  `HALF_MESSAGE_ERROR` or `CONSUME_ERROR`;
- a call of the registered handler;
- the `Promise.allSettled` barrier.

Modules follow the source:

- `Sdk` (sdk.dfy): the SDK's records, responses and requests, shaped after
  index.d.ts.
- `Errors` (errors.dfy): `ConsumeResponseError`, the error values that reach a
  `catch`, and a model of `String.prototype.search`. It also proves that the
  status error built for a non-200 response can never match
  `'MessageNotExist'`.
- `Props` (props.dfy): `parseMsgProps`. This is the imperative loop, its
  specification function, and the round trip back to the bag. The function is
  the same in both façades.
- `Handles` (handles.dfy): `Message` and `TransMessage` as datatypes with member
  functions.
- `ConsumeLoop` (consume_loop.dfy): one iteration of each loop kind as a
  function, the `while (true)` skeleton `Loop`, the loop methods (`RunDispatch`,
  `RunSync`) proved equal to those functions, and the loop properties.
- `Index` (index.dfy): `Send` (a recursive retry), `SendTrans` and `Ack` as
  functions, and the class `Client` with the two handler slots and the four
  loops.
- `TopicClient` (topic_client.dfy): the class `TopicClient`. Its one-call
  forwarders record their request in `log`. It also has the loops that lack
  the `MessageNotExist` filter and the `waitSeconds` default.

A `while (true)` loop cannot be run to its end. Each loop is therefore run over
an arbitrary finite trace of outcomes and stops only when the trace runs out.
The lemmas about `Loop` state that the loop polls exactly once per outcome,
always with the same arguments (the options object is taken as immutable).
They also state that each outcome is handled the same way whatever came before
it. So no outcome ends the loop early. This assumes that the error listeners
do not throw: see "## Left out".

Some behaviour of the code is easy to miss. The model keeps it:

- Half messages are wrapped in `Message`, the same handle as normal messages
  (lib/index.ts:146, 226; lib/topicClient.ts:130). So a half message
  exposes `done` as well as `commit` and `rollback`.
- `waitSeconds` defaults to 10 only in `subscribe`, `subscribeHalfMessage` and
  `nextTrans` of lib/index.ts. `next` and both `TopicClient` loops pass it on
  unchanged.
- A second `onMessageSync` / `onHalfMessageSync` is a silent no-op
  (lib/index.ts:165-167). Its return value is not modelled.
- A failed poll is followed at once by the next poll.
- `MessageBody.MessageKey` is a number, as index.d.ts declares it.

## Model

| member | source | states |
|---|---|---|
| `Errors.Search` | lib/index.ts:122 | `s.search(p)` is the first index where `p` occurs, is -1 exactly when `p` does not occur, and no earlier index matches |
| `Errors.StatusError` | lib/index.ts:106-111 | the error for a non-200 response carries that response's code, request id and body, and the status message |
| `Errors.StatusMessageCarriesCode` | lib/index.ts:107 | the status message is the fixed prefix followed by the decimal digits of the code, which read back as the code |
| `Errors.DecimalRoundTrip` | lib/index.ts:107 | the digits the template literal renders for a non-negative code denote that code |
| `Errors.StatusErrorIsNotNotExist` | lib/index.ts:121-126 | for every code, the status error's message never contains `MessageNotExist`, so the catch block of `next` / `nextTrans` always reports it |
| `Props.PropCallFor` | lib/index.ts:67-75 | `sdTime` selects `startDeliverTime`, `tciTime` selects `transCheckImmunityTime`, `key` selects `messageKey`, and each holds only for its key; every other key selects `putProperty`; the call keeps the key and the value |
| `Props.PropCallsPointwise` | lib/index.ts:66-76 | one builder call per key of the bag, and the `i`-th call is the one the `i`-th key selects |
| `Props.UnparsePropCalls` | lib/index.ts:64-78 | the builder calls give back the bag exactly: no call is missing, extra or reordered |
| `Props.PropCallsInjective` | lib/topicClient.ts:58-72 | different bags never produce the same builder calls |
| `Props.ParseMsgProps` | lib/topicClient.ts:58-72 | the `for...in` loop issues exactly the calls `PropCalls` describes, one per key in order (identical to lib/index.ts:64-78) |
| `Props.PropsArg` | lib/index.ts:82 | an absent bag gives no builder (`null`); a present bag, even an empty one, gives a builder whose calls give back the bag |
| `Props.FourKeyBag` | lib/index.ts:66-76 | `{sdTime: T, tciTime: S, key: "k", custom: 5}` gives exactly the four corresponding builder calls |
| `Handles.Message.Done` | lib/message.ts:6-8 | one request, on the consumer channel, an ack whose handle list is the singleton of the record's receipt handle; the reply is returned unchanged |
| `Handles.Message.Commit` | lib/message.ts:9-11 | one commit on the transactional producer, keyed by the record's receipt handle |
| `Handles.Message.Rollback` | lib/message.ts:12-14 | one rollback on the transactional producer, keyed by the record's receipt handle |
| `Handles.TransMessage.Commit` | lib/transMessage.ts:6-8 | one commit on the transactional producer, keyed by the publish response's receipt handle as delivered |
| `Handles.TransMessage.Rollback` | lib/transMessage.ts:9-11 | one rollback on the transactional producer, keyed by the same receipt handle |
| `Handles.MessageRequests` | lib/message.ts:4-15 | done, commit and rollback all key on the wrapped handle and are pairwise different; only done uses the consumer channel |
| `Handles.DoneIdentifiesReceipt` | lib/message.ts:5-8 | two handles' `done` requests are equal exactly when they wrap the same receipt handle |
| `Handles.TransMessageRequests` | lib/transMessage.ts:4-12 | a `TransMessage` only commits or rolls back on the transactional channel and never acknowledges |
| `ConsumeLoop.DefaultWait` | lib/index.ts:185 | `waitSeconds \|\| 10` is never absent or zero, keeps a non-zero wait and turns an absent or zero wait into 10 |
| `ConsumeLoop.PollCall` | lib/index.ts:214 | a half-message loop polls the transactional producer and a normal loop polls the consumer, each with the given batch size and wait |
| `ConsumeLoop.LoopAppend` | lib/index.ts:183-205 | the log of a trace is the log of its first part followed by the log of the rest: iterations do not influence each other |
| `ConsumeLoop.LoopPollsOncePerOutcome` | lib/topicClient.ts:90-109 | a loop issues exactly one long poll per outcome, always the loop's own poll request (with the options treated as immutable) |
| `ConsumeLoop.LoopContinues` | lib/index.ts:212-234 | after any `i` outcomes the loop issues poll `i` and handles its outcome exactly as it would from a fresh start |
| `ConsumeLoop.Dispatch` | lib/index.ts:185-203 | non-200 gives exactly one error event with that code, request id and body and no message event; 200 gives one message event per record, in order, wrapping the record unchanged; a thrown error gives one error event unless it is filtered as `MessageNotExist`; events stay on their kind's channels |
| `ConsumeLoop.DispatchPreservesReceipts` | lib/index.ts:196-198 | the delivered handles' receipt handles are exactly the records' receipt handles, in order; other outcomes deliver no message |
| `ConsumeLoop.DispatchVariantsDiffer` | lib/topicClient.ts:106-108 | the two façades' event loops differ exactly on a thrown `MessageNotExist` error, which only lib/index.ts passes over |
| `ConsumeLoop.DispatchPollsOncePerOutcome` | lib/index.ts:180-207 | `subscribe`'s loop polls once per outcome whatever the outcomes are |
| `ConsumeLoop.DispatchScenario` | lib/index.ts:183-205 | the trace [200 with 2 records, non-200, 200 with none, 200 with 1] gives 2 messages, 1 error, nothing, 1 message, with a poll before each |
| `ConsumeLoop.Caught` | lib/index.ts:121-126 | a caught error is passed over exactly when its message contains `MessageNotExist`, otherwise it is emitted once |
| `ConsumeLoop.NotAFunction` | lib/index.ts:115 | calling an empty slot raises an error that is never taken for `MessageNotExist` |
| `ConsumeLoop.Invokes` | lib/index.ts:115 | the handler is called once per record, in record order, with each record wrapped unchanged |
| `ConsumeLoop.ConsumeErrors` | lib/index.ts:116-120 | the settled batch yields at most one action per result, and every action is a `CONSUME_ERROR` emit |
| `ConsumeLoop.ConsumeErrorsReasons` | lib/index.ts:116-119 | every rejected result is reported with its own `reason`, in batch order: the rejection at position `i` gives the `CONSUME_ERROR` numbered by the rejections before it |
| `ConsumeLoop.ConsumeErrorsAppend` | lib/index.ts:147-151 | `CONSUME_ERROR`s follow batch order: the errors of a concatenation are the errors of its parts |
| `ConsumeLoop.ConsumeErrorsCount` | lib/index.ts:116-120 | one `CONSUME_ERROR` per rejected result; an all-fulfilled batch reports nothing |
| `ConsumeLoop.SyncStatusError` | lib/index.ts:105-114 | in `next` / `nextTrans` a non-200 response yields exactly one error event with its status and no handler call |
| `ConsumeLoop.SyncBatch` | lib/index.ts:115-120 | a 200 batch calls the handler once per record in order, then waits for all of them, then reports exactly `ConsumeErrors` of the settled batch: one `CONSUME_ERROR` per rejection, in order |
| `ConsumeLoop.SyncBodySettles` | lib/index.ts:136-151 | one iteration of `next` / `nextTrans` issues no request after its poll and leaves no handler promise in flight |
| `ConsumeLoop.SettledExtend` | lib/index.ts:102-130 | appending an iteration that polls while nothing is in flight and settles what it starts keeps the barrier |
| `ConsumeLoop.SyncTraceSettlesBeforePolling` | lib/index.ts:102-130 | no long poll of `next` / `nextTrans` starts while a handler promise is in flight; the loop polls once per round with fixed arguments |
| `ConsumeLoop.SyncTraceInvokesOnly` | lib/index.ts:146 | every handler call of a loop goes to the handler in its slot |
| `ConsumeLoop.DispatchOnce` | lib/index.ts:184-204 | one iteration of `subscribe` emits exactly the events `Dispatch` describes |
| `ConsumeLoop.RunDispatch` | lib/index.ts:209-236 | the event loop's log over a trace is `DispatchTrace` of that trace |
| `ConsumeLoop.InvokeAll` | lib/index.ts:146 | the batch's handler calls are those `Invokes` describes |
| `ConsumeLoop.ReportRejections` | lib/index.ts:147-151 | the loop over the settled batch emits exactly `ConsumeErrors` of it |
| `ConsumeLoop.SyncOnce` | lib/index.ts:135-160 | one iteration of `next` / `nextTrans` does exactly what `SyncBody` describes |
| `ConsumeLoop.RunSync` | lib/index.ts:133-162 | the single-handler loop's log over a trace of rounds is `SyncTrace` of it |
| `Index.Send` | lib/index.ts:80-90 | at most two attempts and exactly as many as the budget allows when failing; all attempts are the same publish of `JSON.stringify(msg)`; a second attempt happens exactly when retry is on and the first failed; the result is the reply to the last attempt; a failure means every attempt failed |
| `Index.SendSucceedsIff` | lib/index.ts:81-89 | `send` succeeds exactly when one of its two attempts does, with one request on first success and two identical ones otherwise |
| `Index.SendTrans` | lib/index.ts:92-95 | exactly one publish on the transactional producer; success wraps the response body unchanged; failure is passed on as it is |
| `Index.OnlySendRetries` | lib/index.ts:93-94 | after a failed first attempt `send` retries and can succeed, while `sendTrans` fails with its single request |
| `Index.Ack` | lib/index.ts:97-99 | one ack on the consumer with the singleton list of the record's receipt handle; the reply is returned unchanged |
| `Index.AckIsDone` | lib/index.ts:98 | `client.ack(record)` issues the same request as the handle's `done()` |
| `Index.WaitDefaults` | lib/index.ts:104 | `next` forwards `waitSeconds` unchanged, while `nextTrans` and the subscribe loops never poll with an absent or zero wait |
| `Index.Client.constructor` | lib/index.ts:55-62 | a new client has an empty log and both handler slots empty |
| `Index.Client.Next` | lib/index.ts:101-131 | appends the single-handler loop over the rounds, with `waitSeconds` as given and the `msgSyncHandler` slot |
| `Index.Client.NextTrans` | lib/index.ts:133-162 | appends the half-message single-handler loop, with the defaulted wait and the `msgTransSyncHandler` slot |
| `Index.Client.OnMessageSync` | lib/index.ts:164-170 | a set slot makes the call a no-op (same slot, nothing logged); an empty slot gets `fn` and exactly one loop with `fn` starts; the other slot is untouched |
| `Index.Client.OnHalfMessageSync` | lib/index.ts:172-178 | the same for the half-message slot |
| `Index.Client.Subscribe` | lib/index.ts:180-207 | appends the event loop on the consumer with the `MessageNotExist` filter and the defaulted wait |
| `Index.Client.SubscribeHalfMessage` | lib/index.ts:209-236 | appends the event loop on half messages with the filter and the defaulted wait |
| `Index.RegisterTwice` | lib/index.ts:165-167 | after two registrations the slot holds the first handler, only its loop ran, and every handler call went to it |
| `ConsumeLoop.AsGivenPoll` | lib/topicClient.ts:92 | the polls of `next` and of the topic client's loops forward `waitSeconds` as given, with no default |
| `TopicClient.TopicClient.constructor` | lib/topicClient.ts:49-56 | a new topic client has an empty log |
| `TopicClient.TopicClient.BuildProps` | lib/topicClient.ts:75 | running `parseMsgProps` on a present bag, and `null` otherwise, gives `PropsArg` |
| `TopicClient.TopicClient.Send` | lib/topicClient.ts:74-76 | exactly one publish on the producer with `msg` unchanged (no stringify) and the parsed properties; the reply is returned as it is, with no retry |
| `TopicClient.TopicClient.SendTrans` | lib/topicClient.ts:78-81 | exactly one publish on the transactional producer; success wraps the response body unchanged |
| `TopicClient.TopicClient.Ack` | lib/topicClient.ts:83-85 | exactly one ack with the singleton list of the record's receipt handle |
| `TopicClient.TopicClient.Subscribe` | lib/topicClient.ts:87-111 | appends the event loop on the consumer without the `MessageNotExist` filter and with `waitSeconds` as given |
| `TopicClient.TopicClient.SubscribeHalfMessage` | lib/topicClient.ts:113-137 | appends the same loop on half messages |
| `TopicClient.NotExistIsReported` | lib/topicClient.ts:106-108 | a thrown `MessageNotExist` error is emitted as `MESSAGE_ERROR` by the topic client and passed over by lib/index.ts |

## Left out

- The SDK (`MQClient`, the producers, the consumer, `MessageProperties`): it is a foreign HTTP client. Its requests are values and its answers are inputs. The channel objects the constructors build from the endpoint and credentials are only named by `Endpoint`.
- `EventEmitter`: `emit` appends to the log. Listener registration (`onMessage`, `onHalfMessage`, `onMessageError`, `onHalfMessageError`, `onConsumeError`, lib/index.ts:238-256 and lib/topicClient.ts:139-153) is not modelled. The same goes for listener invocation. A listener that throws synchronously inside `emit` is also not modelled. There are two cases. A throw from an emit inside the `try` (lib/index.ts:118, 149, 193, 197, 222, 226; lib/topicClient.ts:100, 104, 126, 130) is caught by the loop's `catch` and cuts the batch short. A throw from the error emits inside the `catch` (lib/index.ts:126, 157, 203, 232; lib/topicClient.ts:107, 133) leaves the `while`. The loop's promise rejects, nobody awaits it (lib/index.ts:169, 177, 181, 210), and the loop ends. So does a non-200 error whose listener throws: it is caught once and re-emitted from the `catch`. The model's loops never end early, because they assume the listeners do not throw.
- A handler that throws synchronously instead of returning a rejected promise. It would abort the whole `map` of lib/index.ts:115 (lib/index.ts:146 in `nextTrans`), and the `catch` block would then handle the error. That means silence when its message contains `MessageNotExist` (lib/index.ts:122-125, 153-156). Otherwise it is a `MESSAGE_ERROR` in `next` (lib/index.ts:126) and a `HALF_MESSAGE_ERROR` in `nextTrans` (lib/index.ts:157). Every handler outcome here is a settled promise.
- `process.nextTick` and the interleaving of concurrently running loops with each other and with the caller. Each loop's trace is appended in one go.
- The concurrency of `Promise.allSettled`: a batch is a sequence of settled results, and only the all-settled barrier is kept. What a handler itself does (for example `done()` inside it) is not in the log.
- `JSON.stringify`: an uninterpreted term `JsonOf(msg)` over an abstract type of caller messages. Being a datatype constructor, it is injective, though no contract relies on that. `JSON.stringify` is assumed not to throw. With a cyclic or BigInt `msg` it would throw inside `send`'s `try` (lib/index.ts:82). `send` would then retry and reject without a single publish, while `Index.Send` ensures at least one.
- JavaScript `for...in` key order: the bag's order is the given sequence.
- A thrown value without `.message` (which would make the `catch` block itself throw): every error carries a message.
- JavaScript numbers are modelled as unbounded integers. NaN and fractional codes or waits are not modelled. `search` is modelled for a pattern without regular-expression metacharacters, which `'MessageNotExist'` is.
- `ConsumeResponseError.Body` is typed as the response's record list, the only body the loops pass it.
- Aliasing of the caller's objects: every iteration of a loop reads `options.numOfMessages` and `options.waitSeconds` again (lib/index.ts:104, 136, 185, 214; lib/topicClient.ts:92, 118). `send`'s retry runs `JSON.stringify(msg)` and `parseMsgProps(props)` again after an `await` (lib/index.ts:82, 86). The model takes `options`, `msg` and `props` as immutable values. A caller that mutates them meanwhile would change the later requests, which "same poll every iteration" (`ConsumeLoop.LoopPollsOncePerOutcome`) and "identical retry" (`Index.Send`) do not cover.
- Index.Send: its reply trace must answer every attempt the budget allows (two when retrying), even when the first attempt succeeds. Replies the code never waits for are ignored.
- Index.Client.OnMessageSync: the loop it starts is run over the given finite trace. The slot can never be changed while the loop runs, so the loop reads the slot's value once.
- lib/requestError.ts is not part of this model. It is only used as a type cast.
- The example/ scripts and the import/export naming mismatches between the files.
