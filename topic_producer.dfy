/**
 * The topic publisher (dummy/src/topic/producer.ts): declares the durable
 * exchange, then publishes persistent messages that expire after fifteen
 * minutes.
 */
module TopicProducer {
  import opened Amqp
  import Config

  /** `15 * 60 * 1000`: fifteen minutes, in milliseconds. */
  const MessageTtlMs: nat := 15 * 60 * 1000

  /** The `channel.publish` call for one message; `timestamp` stands for
      `new Date().getTime()` at the time of the call. */
  function Envelope(exchange: string, routingKey: string, message: string, timestamp: int): (op: Op)
    ensures op.Publish? && op.exchange == exchange && op.routingKey == routingKey
    ensures op.content == Text(message)
    ensures op.options.persistent && op.options.expiration == 900000 && op.options.timestamp == timestamp
  {
    Publish(exchange, routingKey, Text(message), PublishOptions(true, MessageTtlMs, timestamp))
  }

  /** Every message a log publishes goes to `exchange`, persistent and
      with the fifteen-minute expiration. */
  ghost predicate PublishesWellFormed(log: seq<Op>, exchange: string)
  {
    forall k :: 0 <= k < |log| && log[k].Publish? ==>
      log[k].exchange == exchange && log[k].options.persistent && log[k].options.expiration == MessageTtlMs
  }

  class RabbitMQProducer {
    const exchangeName: string
    const exchangeType: string
    const rabbitUrl: string
    const broker: Broker
    var hasConnection: bool
    var hasChannel: bool

    /** Every publish so far was built by `Envelope` for this exchange. */
    ghost predicate Valid()
      reads this, broker
    {
      PublishesWellFormed(broker.log, exchangeName)
    }

    constructor (exchangeName: string := Config.ExchangeName, exchangeType: string := Config.ExchangeType,
                 rabbitUrl: string := Config.Url)
      ensures this.exchangeName == exchangeName && this.exchangeType == exchangeType && this.rabbitUrl == rabbitUrl
      ensures fresh(broker) && broker.log == []
      ensures !hasConnection && !hasChannel
      ensures Valid()
    {
      this.exchangeName := exchangeName;
      this.exchangeType := exchangeType;
      this.rabbitUrl := rabbitUrl;
      broker := new Broker();
      hasConnection, hasChannel := false, false;
    }

    /** `connect`: the call at index `failAt` of `OpenPlan` is the first
        the broker rejects, and its error is rethrown. */
    method Connect(failAt: nat) returns (r: Outcome)
      requires Valid()
      modifies this, broker
      ensures Valid()
      ensures broker.log == old(broker.log) + Issued(OpenPlan(rabbitUrl, exchangeName, exchangeType), failAt)
      ensures hasConnection == (old(hasConnection) || failAt >= 1)
      ensures hasChannel == (old(hasChannel) || failAt >= 2)
      ensures r.Pass? <==> failAt >= 3
      ensures r.Fail? ==> r.error == BrokerError
    {
      var ok := broker.Call(Op.Connect(rabbitUrl), failAt == 0);
      if ok {
        hasConnection := true;
        ok := broker.Call(CreateChannel, failAt == 1);
      }
      if ok {
        hasChannel := true;
        ok := broker.Call(AssertExchange(exchangeName, exchangeType, true), failAt == 2);
      }
      r := if ok then Pass else Fail(BrokerError);
    }

    /**
     * `publishMessage`: with no channel, throws "Channel not initialized"
     * and publishes nothing; otherwise publishes `message` unchanged under
     * `routingKey` to the configured exchange, persistent and expiring
     * after fifteen minutes. `accepted` is whether the broker takes it.
     */
    method PublishMessage(routingKey: string, message: string, timestamp: int, accepted: bool) returns (r: Outcome)
      requires Valid()
      modifies broker
      ensures Valid()
      ensures !hasChannel ==> r == Fail(PlainError(ChannelNotInitialized)) && broker.log == old(broker.log)
      ensures hasChannel ==> (r.Pass? <==> accepted)
      ensures hasChannel ==>
                broker.log == old(broker.log) + (if accepted then [Envelope(exchangeName, routingKey, message, timestamp)] else [])
      ensures hasChannel && r.Fail? ==> r.error == BrokerError
    {
      if !hasChannel {
        return Fail(PlainError(ChannelNotInitialized));
      }
      var ok := broker.Call(Envelope(exchangeName, routingKey, message, timestamp), !accepted);
      r := if ok then Pass else Fail(BrokerError);
    }

    /** `close`: the channel, then the connection, each if set; the first
        rejected close is rethrown. */
    method Close(failAt: nat) returns (r: Outcome)
      requires Valid()
      modifies broker
      ensures Valid()
      ensures broker.log == old(broker.log) + Issued(ClosePlan(hasChannel, hasConnection), failAt)
      ensures r.Pass? <==> failAt >= |ClosePlan(hasChannel, hasConnection)|
      ensures r.Fail? ==> r.error == BrokerError
    {
      var ok := true;
      if hasChannel {
        ok := broker.Call(CloseChannel, failAt == 0);
      }
      if ok && hasConnection {
        ok := broker.Call(CloseConnection, failAt == (if hasChannel then 1 else 0));
      }
      r := if ok then Pass else Fail(BrokerError);
    }
  }
}
