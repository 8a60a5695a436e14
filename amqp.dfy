/**
 * The broker client (amqplib) replaced by an abstract channel: every call a
 * client issues on its connection or channel is recorded, in order, in the
 * log of a `Broker` object. Whether the broker accepts a call is an input
 * of the model (the `fail` argument of `Broker.Call`); a call the broker
 * rejects throws in the client and leaves no trace in the log.
 */
module Amqp {

  /** Message content. `JSON.stringify` of a flat object is abstracted as
      the object itself: a map from field names to field values. */
  datatype Payload = Text(text: string) | JsonObject(fields: map<string, string>)

  /** The options record of `channel.publish`. */
  datatype PublishOptions = PublishOptions(persistent: bool, expiration: nat, timestamp: int)

  /** The options record of `channel.sendToQueue`. */
  datatype SendOptions = SendOptions(correlationId: Option<string>, persistent: bool)

  datatype Option<T> = None | Some(value: T)

  /** One call issued to the broker. */
  datatype Op =
    | Connect(url: string)
    | CreateChannel
    | AssertExchange(exchange: string, kind: string, durable: bool)
    | AssertQueue(queue: string, durable: bool)
    | BindQueue(queue: string, exchange: string, routingKey: string)
    | Prefetch(count: nat)
    | Consume(queue: string, noAck: bool)
    | Publish(exchange: string, routingKey: string, content: Payload, options: PublishOptions)
    | SendToQueue(queue: string, content: Payload, properties: SendOptions)
    | Ack(tag: nat)
    | Nack(tag: nat, allUpTo: bool, requeue: bool)
    | CloseChannel
    | CloseConnection
  {
    /** Ack and nack are the two calls that terminate a delivery. */
    predicate IsTerminal() { Ack? || Nack? }
  }

  /** A message as a consumer callback receives it. */
  datatype Message = Message(tag: nat, content: string, routingKey: string, correlationId: Option<string>)

  /** The exceptions the core raises or lets through. */
  datatype Error =
    | PlainError(message: string)                // `new Error(message)`
    | ApiError(statusCode: int, message: string) // the service's own error class
    | BrokerError                                // anything amqplib throws
    | SyntaxError                                // `JSON.parse` on malformed content
    | StoreError                                 // the user store failed

  /** The settled state of an awaited promise that carries no value. */
  datatype Outcome = Pass | Fail(error: Error)

  /** The settled state of an awaited promise that carries a value. */
  datatype Result<T> = Ok(value: T) | Err(error: Error)

  const ChannelNotInitialized: string := "Channel not initialized"

  function Min(a: nat, b: nat): (m: nat) { if a <= b then a else b }

  /** The calls of `plan` that reach the broker when the call at index
      `failAt` throws and ends the sequence (none throws when
      `failAt >= |plan|`). */
  function Issued(plan: seq<Op>, failAt: nat): (issued: seq<Op>)
    ensures |issued| <= |plan|
    ensures failAt >= |plan| ==> issued == plan
    ensures failAt < |plan| ==> |issued| == failAt && issued == plan[..failAt]
  {
    plan[..Min(failAt, |plan|)]
  }

  /** Running two plans one after the other: the second starts only if
      the first went through. */
  lemma IssuedAppend(a: seq<Op>, b: seq<Op>, failAt: nat)
    ensures Issued(a + b, failAt) ==
              Issued(a, failAt) + (if failAt >= |a| then Issued(b, failAt - |a|) else [])
  {
  }

  /** Opening a session for a topic client: connect, create a channel and
      assert the exchange, durable. */
  function OpenPlan(url: string, exchange: string, kind: string): (plan: seq<Op>)
  {
    [Connect(url), CreateChannel, AssertExchange(exchange, kind, true)]
  }

  /** `channel?.close()` then `connection?.close()`: each handle is closed
      only when it is set, and the channel always before the connection. */
  function ClosePlan(hasChannel: bool, hasConnection: bool): (plan: seq<Op>)
    ensures CloseChannel in plan <==> hasChannel
    ensures CloseConnection in plan <==> hasConnection
    ensures |plan| == (if hasChannel then 1 else 0) + (if hasConnection then 1 else 0)
    ensures hasChannel && hasConnection ==> plan == [CloseChannel, CloseConnection]
  {
    (if hasChannel then [CloseChannel] else []) + (if hasConnection then [CloseConnection] else [])
  }

  /** Every consumer registration in `log` comes after the durable
      declaration of its queue and after a prefetch limit of one. */
  ghost predicate DeclaredBeforeConsume(log: seq<Op>)
  {
    forall k :: 0 <= k < |log| && log[k].Consume? ==>
      (exists j :: 0 <= j < k && log[j] == AssertQueue(log[k].queue, true)) &&
      (exists j :: 0 <= j < k && log[j] == Prefetch(1))
  }

  /** Whatever part of a well-ordered plan reaches the broker is well
      ordered too. */
  lemma IssuedKeepsOrder(plan: seq<Op>, failAt: nat)
    requires DeclaredBeforeConsume(plan)
    ensures DeclaredBeforeConsume(Issued(plan, failAt))
  {
  }

  /** The number of acks and nacks in a log. */
  function Terminals(log: seq<Op>): (n: nat)
  {
    if log == [] then 0
    else (if log[0].IsTerminal() then 1 else 0) + Terminals(log[1..])
  }

  lemma {:induction false} TerminalsAppend(a: seq<Op>, b: seq<Op>)
    ensures Terminals(a + b) == Terminals(a) + Terminals(b)
  {
    if a == [] {
      assert a + b == b;
    } else {
      assert (a + b)[1..] == a[1..] + b;
      TerminalsAppend(a[1..], b);
    }
  }

  /**
   * The broker as one client sees it through its connection and channel.
   * `log` holds the calls the broker has accepted, oldest first.
   */
  class Broker {
    var log: seq<Op>

    constructor ()
      ensures log == []
    {
      log := [];
    }

    /** Issue `op`; the broker rejects it (the client's call throws) when
        `fail` holds. */
    method Call(op: Op, fail: bool) returns (ok: bool)
      modifies this
      ensures ok == !fail
      ensures log == if fail then old(log) else old(log) + [op]
    {
      ok := !fail;
      if ok {
        log := log + [op];
      }
    }
  }
}
