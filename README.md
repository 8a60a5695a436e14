# Messaging core of chat-server-rabbitmq, in Dafny

This project models the messaging layer of the repository: the user
service's correlation-id request/response endpoint
(`RabbitMQService`), and the demo topic subscriber (`RabbitConsumer`) and
topic publisher (`RabbitMQProducer`). The rest of the repository is not
modelled.

The broker client is replaced by an abstract channel. `Amqp.Broker` keeps
the log of every call a client has issued to the broker, in order:
connect, create channel, assert exchange/queue, bind, prefetch, consume,
publish, send to queue, ack, nack, close channel and close connection.
Whether the broker accepts a call is an input. A call it rejects throws in
the client and leaves no entry in the log. Each source method becomes a
method of a class with the same fields (`hasConnection` and `hasChannel`
stand for the nullable `connection` and `channel` handles). It takes
`failAt`, the index of the first rejected call, and its `ensures` states
the log it produces as a prefix of a plan (`Amqp.Issued`). The
properties are proved about those plans.

* `rpc_service.dfy` (module `RpcService`): `init` declares both queues
  durable, sets prefetch 1, then registers the request consumer with
  manual acknowledgment. On failure it runs `cleanup` and rethrows.
  `cleanup` closes the channel, then the connection, each only if set,
  and swallows its errors. `getUserDetails` strips the password or
  raises `ApiError(404, "User not found")`. Each delivery becomes the
  calls in `RequestOps`: for a found user, reply then ack; for a missing
  user, ack then reply `{error: "User not found"}`; for anything else,
  nack with requeue. Every reply echoes the correlation id and is
  persistent, and every delivery gets exactly one ack or nack call.
* `config.dfy` (module `Config`): the topic demo's defaults (URL,
  exchange name and type, routing keys).
* `topic_consumer.dfy` (module `TopicConsumer`): `connect`
  asserts the exchange once and durable. It then declares and binds each
  binding's queue in list order, sets prefetch 1, and swallows every
  failure. `consume` throws "Channel not initialized" without a channel.
  Otherwise it registers one consumer per binding, in order. The delivery
  callback ignores a null delivery. It passes the content and routing key
  to the handler, then acks on success or nacks with requeue on failure.
* `topic_producer.dfy` (module `TopicProducer`): `connect` asserts the
  exchange and rethrows failures. `publishMessage` throws "Channel not
  initialized" without a channel. Otherwise it publishes the message
  unchanged, persistent, with expiration 900000 ms and the given
  timestamp. `close` closes the channel, then the connection, and
  rethrows.
* `scenario.dfy` (module `Scenario`): the two demo drivers, run against a
  broker that accepts everything, and the literal routing keys they
  share.

The consumer registers its consumers with `noAck: true` but still acks
and nacks by hand (dummy/src/topic/consumer.ts:75). The RPC service uses
`noAck: false` (user-service/src/services/RabbitMQService.ts:120). The
model records this as it is written: `ConsumePlan` issues
`Consume(queue, true)` and the callback still issues `Ack` and `Nack`.
What the broker does with acks on a no-ack consumer is not modelled.

`listenForRequests` does not await `channel.consume`, so a rejected
registration never fails `init`. The model keeps this: when the
registration is the rejected call, `Init` still passes and the log has no
`Consume`.

## Behaviour of note

- Connect-time failures in the topic consumer are swallowed
  (dummy/src/topic/consumer.ts:46).
- On "not found" the request is acked before the error reply is sent
  (user-service/src/services/RabbitMQService.ts:101-113).
- Only the RPC service retries `init`; the model leaves that retry out.
- The topic consumer's ordering (every queue declared and prefetch 1 set
  before any consumer is registered, `TopologyBeforeConsume`) holds only
  after a full `connect`. A rejected call from the exchange assert onwards
  is swallowed with the channel already set, so the guard of `consume`
  (dummy/src/topic/consumer.ts:52) does not fire and `consume` registers
  on undeclared queues with no prefetch limit
  (`PartialConnectBreaksOrder`, `Scenario.ConsumerMainRefusedQueue`).
  This rests on the model's assumption that a rejected call leaves the
  channel usable. Against a real broker a refused declaration usually
  closes the channel, and `consume` would then throw instead.

## Model

| member | source | states |
|---|---|---|
| `Amqp.ClosePlan` | dummy/src/topic/consumer.ts:84-92 | A channel close is issued exactly when the channel is set, a connection close exactly when the connection is set, and the channel is closed before the connection |
| `RpcService.GetUserDetails` | user-service/src/services/RabbitMQService.ts:152-158 | Succeeds exactly for a stored, reachable id, with the document minus its `password` field and every other field unchanged. A missing id gives the 404 `ApiError` "User not found". A failing query gives a non-404 error |
| `RpcService.Lookup` | user-service/src/services/RabbitMQService.ts:79-82 | The outcome is Found exactly when the parsed id is stored and reachable, carrying `getUserDetails`' result. It is NotFound exactly when the id parsed but is not stored. Everything else is OtherError |
| `RpcService.RequestOps` | user-service/src/services/RabbitMQService.ts:78-117 | Every reply goes to the response queue, persistent, with the request's correlation id. The request is nacked with requeue (allUpTo false) exactly when the lookup failed or the found user's reply was rejected, and acked otherwise. Found: reply, then ack. Not found: ack first, then the error reply if accepted |
| `RpcService.RequestSettledOnce` | user-service/src/services/RabbitMQService.ts:78-117 | Each delivered request gets exactly one ack or nack, for its own delivery tag |
| `RpcService.RequestRepliesAtMostOnce` | user-service/src/services/RabbitMQService.ts:84-112 | At most one reply per request. A reply is sent exactly when the lookup did not fail otherwise and the broker accepts it |
| `RpcService.FoundUserReplied` | user-service/src/services/RabbitMQService.ts:82-95 | For a stored user, the calls are the password-free document sent with the correlation id, then the ack |
| `RpcService.MissingUserAnswered` | user-service/src/services/RabbitMQService.ts:100-112 | For an unknown user, the calls are the ack, then `{error: "User not found"}` with the correlation id. The request is never requeued |
| `RpcService.FailedRequestRequeued` | user-service/src/services/RabbitMQService.ts:113-116 | A parse failure or a non-404 lookup failure issues only a nack with allUpTo false and requeue true |
| `RpcService.DeliveriesSettledOnce` | user-service/src/services/RabbitMQService.ts:73-118 | Over any sequence of deliveries, the number of acks plus nacks equals the number of non-null deliveries |
| `RpcService.InitPlan` | user-service/src/services/RabbitMQService.ts:20-57 | `init` issues five calls before registering, starting with connect to the configured URL and then create channel |
| `RpcService.StartupDeclaresFirst` | user-service/src/services/RabbitMQService.ts:47-60 | Both queues are asserted durable and prefetch 1 is set before the only consume, a `noAck: false` registration on the request queue. This holds for whatever prefix of startup reaches the broker |
| `RpcService.RabbitMQService.constructor` | user-service/src/services/RabbitMQService.ts:7-10 | A new service has no connection, no channel and an empty log |
| `RpcService.RabbitMQService.Init` | user-service/src/services/RabbitMQService.ts:20-69 | The log grows by the accepted prefix of connect, channel, two durable queue asserts, prefetch 1 and consume. `init` fails exactly when a call before the registration is rejected. On failure, `cleanup` follows on the handles set so far and the broker error is rethrown |
| `RpcService.RabbitMQService.Setup` | user-service/src/services/RabbitMQService.ts:21-57 | The `try` block up to `listenForRequests`: the log grows by the accepted prefix of `InitPlan`, it succeeds exactly when all five calls are accepted, and each handle is set once its call succeeds |
| `RpcService.RabbitMQService.ListenForRequests` | user-service/src/services/RabbitMQService.ts:71-130 | Registers a manual-ack consumer on the request queue. A rejected registration is not observed |
| `RpcService.RabbitMQService.Cleanup` | user-service/src/services/RabbitMQService.ts:132-143 | Closes the channel, then the connection, each only if set. A rejected close ends it silently |
| `RpcService.RabbitMQService.Shutdown` | user-service/src/services/RabbitMQService.ts:146-149 | Same calls as `cleanup` |
| `RpcService.RabbitMQService.OnRequest` | user-service/src/services/RabbitMQService.ts:75-118 | A null delivery issues nothing. Otherwise the log grows by `RequestOps` of the lookup outcome. The callback rejects only when the not-found reply is rejected |
| `TopicConsumer.BindingOpsAt` | dummy/src/topic/consumer.ts:36-43 | The loop issues two calls per binding, in list order: assert the binding's queue durable, then bind it to the exchange with its routing key |
| `TopicConsumer.ConnectPlanShape` | dummy/src/topic/consumer.ts:29-46 | `connect` issues connect, create channel, then the exchange assert (durable, configured name and type, and the only one). Then the i-th binding's queue assert and bind, and prefetch 1 last |
| `TopicConsumer.ConnectPlanRegistersNothing` | dummy/src/topic/consumer.ts:29-47 | `connect` registers no consumer, and its only prefetch is its last call |
| `TopicConsumer.PartialConnectBreaksOrder` | dummy/src/topic/consumer.ts:29-57 | When any call from the exchange assert onwards is rejected, `connect` swallows it with the channel set, and a following `consume` registers its first consumer with no prefetch before it: the ordering fails |
| `TopicConsumer.ConnectPlanDeclares` | dummy/src/topic/consumer.ts:36-46 | In `connect`, binding `i`'s queue is asserted durable at call `3 + 2·i`, and prefetch 1 is the last call |
| `TopicConsumer.ConnectBindsConfiguredQueues` | dummy/src/topic/consumer.ts:36-43 | Under each routing key, `connect` binds to the exchange exactly the queues configured with that key, in order |
| `TopicConsumer.ConsumePlanAt` | dummy/src/topic/consumer.ts:56-77 | `consume` issues exactly one registration per binding, on that binding's queue, in binding order, with `noAck: true` |
| `TopicConsumer.ConsumePlanPrefix` | dummy/src/topic/consumer.ts:56-77 | The first `i` registrations of `consume` are exactly those for the first `i` bindings |
| `TopicConsumer.TopologyBeforeConsume` | dummy/src/topic/consumer.ts:29-77 | After a full `connect`, every registration from `consume` comes after its queue's durable assert and after prefetch 1 |
| `TopicConsumer.DeliveryOps` | dummy/src/topic/consumer.ts:59-74 | A null delivery issues nothing. Otherwise the delivery is acked exactly when the handler succeeds and nacked with requeue exactly when it fails. Both are for its own tag |
| `TopicConsumer.DeliverySettledOnce` | dummy/src/topic/consumer.ts:59-74 | A non-null delivery on a set channel gets exactly one ack or nack call. A null delivery gets none |
| `TopicConsumer.RabbitConsumer.constructor` | dummy/src/topic/consumer.ts:17-27 | Keeps the exchange name and type, URL and bindings (defaults from the config). Starts with no handles and an empty log |
| `TopicConsumer.RabbitConsumer.Connect` | dummy/src/topic/consumer.ts:29-47 | The log grows by the accepted part of connect, create channel and the durable exchange assert, then of the binding loop, then of prefetch 1. When none is rejected it is exactly `ConnectPlan`. Handles are set as their calls succeed, and no error reaches the caller |
| `TopicConsumer.RabbitConsumer.Open` | dummy/src/topic/consumer.ts:31-35 | The first three calls of `connect`: the log grows by the accepted prefix of connect, create channel and the durable exchange assert. It succeeds exactly when all three are accepted, and each handle is set once its call succeeds |
| `TopicConsumer.RabbitConsumer.DeclareBindings` | dummy/src/topic/consumer.ts:36-43 | The loop's calls up to the first rejected one, and success exactly when all `2·n` are accepted |
| `TopicConsumer.RabbitConsumer.Consume` | dummy/src/topic/consumer.ts:49-82 | Without a channel it throws "Channel not initialized" and issues nothing. Otherwise the registrations run up to the first rejected one, whose error is rethrown |
| `TopicConsumer.RabbitConsumer.OnMessage` | dummy/src/topic/consumer.ts:59-74 | The handler gets the content unchanged and the routing key, or nothing for a null delivery. The log grows by `DeliveryOps` |
| `TopicConsumer.RabbitConsumer.Close` | dummy/src/topic/consumer.ts:84-92 | Closes the channel, then the connection, each if set. The first rejected close is rethrown |
| `TopicProducer.Envelope` | dummy/src/topic/producer.ts:42-50 | The publish goes to the given exchange with the caller's routing key and the message unchanged. It is persistent, expires in 900000 ms and carries the timestamp |
| `TopicProducer.RabbitMQProducer.constructor` | dummy/src/topic/producer.ts:11-19 | Keeps the exchange name and type and the URL (defaults `logs_exchange`, `topic`, `amqp://localhost`). Starts with no handles, an empty log and the publish invariant |
| `TopicProducer.RabbitMQProducer.Connect` | dummy/src/topic/producer.ts:21-35 | The log grows by the accepted prefix of connect, create channel and the durable exchange assert. Handles are set as their calls succeed, and any failure is rethrown |
| `TopicProducer.RabbitMQProducer.PublishMessage` | dummy/src/topic/producer.ts:37-56 | Without a channel it throws "Channel not initialized" and publishes nothing. Otherwise it issues exactly the `Envelope` publish, and fails exactly when the broker rejects it. Every publish in the log stays persistent with the 15-minute expiration |
| `TopicProducer.RabbitMQProducer.Close` | dummy/src/topic/producer.ts:58-66 | Closes the channel, then the connection, each if set. The first rejected close is rethrown |
| `Scenario.ProducerMain` | dummy/src/topic/main.producer.ts:5-34 | Default producer: connect, the info, error and warning messages on their keys, then channel and connection closes. Every publish is persistent with a 900000 ms expiration |
| `Scenario.ConsumerMain` | dummy/src/topic/main.consumer.ts:5-31 | The consumer demo declares and binds `error_queue`, `info_queue` and `warning_queue` to their keys, sets prefetch 1, then registers on each queue, all declared before use |
| `Scenario.ConsumerMainRefusedQueue` | dummy/src/topic/main.consumer.ts:5-31 | When the broker refuses the demo's first queue declaration, the log is the opening calls followed by the three registrations, and the ordering fails |
| `Scenario.ConsumerMainPlans` | dummy/src/topic/main.consumer.ts:7-11 | For the demo bindings, the `connect` and `consume` plans come out to the literal call list |
| `Scenario.MainKeysBindOneQueue` | dummy/src/topic/main.consumer.ts:7-11 | Each routing key the producer demo publishes is bound, literally, to exactly one queue of the consumer demo: the queue named after its level |

## Left out

- Reconnection: the `on("error")` and `on("close")` listeners and the
  5-second `setTimeout` retries are asynchronous scheduling. They are
  not modelled. This covers the constructor's retry of `init`, the
  retry after a connection close, and the retry in `listenForRequests`.
- `RpcService.RabbitMQService.constructor`: the source constructor also
  starts `init` immediately. The model leaves that to an explicit
  `Init` call.
- The process signal handlers and the module-level singleton of the RPC
  service are process glue and are not modelled.
- `JSON.parse` and `JSON.stringify` are abstracted. The request's parse
  result is the `decoded` input: its `userId`, or none when parsing
  throws. Content that parses but has no `userId` field reaches the store
  lookup as an id like any other. A response body is the JSON object as a
  map of fields.
- `User.findById(...).select("-password")` is the `UserStore` value: the
  stored documents, and the ids whose query throws.
- Acks and nacks are modelled as never throwing, and the model assumes
  the broker accepts them. This is an assumption, not a property of the
  broker: on the topic consumer, registered with `noAck: true`
  (dummy/src/topic/consumer.ts:75), a manual ack refers to a delivery
  tag the broker does not know, and the broker refuses it.
  `TopicConsumer.DeliverySettledOnce` and `RpcService.DeliveriesSettledOnce`
  count the ack and nack calls the client issues, not settlement at the
  broker.
- Byte/string conversions are dropped: `Buffer.from(message)`
  (dummy/src/topic/producer.ts:45) and `msg.content.toString()`
  (dummy/src/topic/consumer.ts:64) become plain `string` contents
  (`Text`), with no encoding.
- A rejected broker call is taken to leave the channel usable; a channel
  closed by the broker after a refused declaration is not modelled.
- `TopicProducer.RabbitMQProducer.PublishMessage`: does not return the
  boolean of `channel.publish` (the write-buffer flow-control flag). It
  returns only success or the thrown error.
- Topic wildcard routing (`*`, `#`) happens inside the broker, and no
  code in the repository implements it. The scenario relates only the
  literal keys the demos use.
- `config.msgBrokerURL` is not part of this model. It is the
  constructor argument `msgBrokerUrl`.
- Logging, and the handler's own work in the consumer demo (a one-second
  sleep), are not modelled.
- A broker call that throws is taken to have no effect. The model does
  not capture a call that takes effect at the broker and then reports an
  error.
