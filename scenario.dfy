/**
 * The two demo drivers (dummy/src/topic/main.producer.ts and
 * main.consumer.ts) run against a broker that accepts every call.
 */
module Scenario {
  import opened Amqp
  import Config
  import TopicConsumer
  import TopicProducer

  /** The bindings of the consumer demo: one queue per log level. */
  const MainBindings: seq<TopicConsumer.BindingConfig> := [
    TopicConsumer.BindingConfig(Config.ErrorKey, "error_queue"),
    TopicConsumer.BindingConfig(Config.InfoKey, "info_queue"),
    TopicConsumer.BindingConfig(Config.WarningKey, "warning_queue")
  ]

  /** What the producer demo sends: the exchange, three messages, one per
      log level, each stamped with the time it was published, then the
      closes of its `finally` block. */
  function ProducerMainLog(infoAt: int, errorAt: int, warningAt: int): (log: seq<Op>)
  {
    [ Op.Connect(Config.Url), CreateChannel, AssertExchange(Config.ExchangeName, Config.ExchangeType, true),
      TopicProducer.Envelope(Config.ExchangeName, Config.InfoKey, "Normal operation message", infoAt),
      TopicProducer.Envelope(Config.ExchangeName, Config.ErrorKey, "System error occurred", errorAt),
      TopicProducer.Envelope(Config.ExchangeName, Config.WarningKey, "Warning: High memory usage", warningAt),
      CloseChannel, CloseConnection ]
  }

  /** What the consumer demo sends: the exchange, each level's queue and
      binding, the prefetch limit, then one registration per queue. */
  function ConsumerMainLog(): (log: seq<Op>)
  {
    [ Op.Connect(Config.Url), CreateChannel, AssertExchange(Config.ExchangeName, Config.ExchangeType, true),
      AssertQueue("error_queue", true), BindQueue("error_queue", Config.ExchangeName, Config.ErrorKey),
      AssertQueue("info_queue", true), BindQueue("info_queue", Config.ExchangeName, Config.InfoKey),
      AssertQueue("warning_queue", true), BindQueue("warning_queue", Config.ExchangeName, Config.WarningKey),
      Prefetch(1),
      Op.Consume("error_queue", true), Op.Consume("info_queue", true), Op.Consume("warning_queue", true) ]
  }

  /** `main` of the producer demo; the three timestamps are the clock
      readings at each publish. */
  method ProducerMain(infoAt: int, errorAt: int, warningAt: int) returns (log: seq<Op>)
    ensures log == ProducerMainLog(infoAt, errorAt, warningAt)
    ensures forall k :: 0 <= k < |log| && log[k].Publish? ==>
              log[k].exchange == Config.ExchangeName && log[k].options.persistent && log[k].options.expiration == 900000
  {
    var producer := new TopicProducer.RabbitMQProducer();
    var r := producer.Connect(3);
    if r.Pass? {
      r := producer.PublishMessage(Config.InfoKey, "Normal operation message", infoAt, true);
    }
    if r.Pass? {
      r := producer.PublishMessage(Config.ErrorKey, "System error occurred", errorAt, true);
    }
    if r.Pass? {
      r := producer.PublishMessage(Config.WarningKey, "Warning: High memory usage", warningAt, true);
    }
    r := producer.Close(2);
    log := producer.broker.log;
  }

  /** `main` of the consumer demo up to the registration of its handler. */
  method ConsumerMain() returns (log: seq<Op>)
    ensures log == ConsumerMainLog()
    ensures DeclaredBeforeConsume(log)
  {
    var consumer := new TopicConsumer.RabbitConsumer(bindings := MainBindings);
    TopicConsumer.ConnectPlanShape(Config.Url, Config.ExchangeName, Config.ExchangeType, MainBindings);
    consumer.Connect(10);
    var r := consumer.Consume(3);
    TopicConsumer.ConsumePlanAt(MainBindings);
    TopicConsumer.TopologyBeforeConsume(Config.Url, Config.ExchangeName, Config.ExchangeType, MainBindings, 3);
    ConsumerMainPlans();
    log := consumer.broker.log;
  }

  /** The consumer demo when the broker refuses the first queue
      declaration: `connect` swallows the error with the channel already
      set, and `consume` then registers on all three queues, none of them
      declared and with no prefetch limit. */
  method ConsumerMainRefusedQueue() returns (log: seq<Op>)
    ensures log == OpenPlan(Config.Url, Config.ExchangeName, Config.ExchangeType) + TopicConsumer.ConsumePlan(MainBindings)
    ensures !DeclaredBeforeConsume(log)
  {
    var consumer := new TopicConsumer.RabbitConsumer(bindings := MainBindings);
    consumer.Connect(3);
    var r := consumer.Consume(10);
    TopicConsumer.ConsumePlanPrefix(MainBindings, 3);
    TopicConsumer.BindingOpsLength(Config.ExchangeName, MainBindings);
    TopicConsumer.PartialConnectBreaksOrder(Config.Url, Config.ExchangeName, Config.ExchangeType, MainBindings, 3);
    assert Issued(TopicConsumer.ConnectPlan(Config.Url, Config.ExchangeName, Config.ExchangeType, MainBindings), 3) ==
           OpenPlan(Config.Url, Config.ExchangeName, Config.ExchangeType);
    log := consumer.broker.log;
  }

  /** The consumer demo's log is its `connect` plan followed by its
      `consume` registrations. */
  lemma ConsumerMainPlans()
    ensures TopicConsumer.ConnectPlan(Config.Url, Config.ExchangeName, Config.ExchangeType, MainBindings) +
            TopicConsumer.ConsumePlan(MainBindings) == ConsumerMainLog()
  {
    var plan := TopicConsumer.ConnectPlan(Config.Url, Config.ExchangeName, Config.ExchangeType, MainBindings);
    var consume := TopicConsumer.ConsumePlan(MainBindings);
    TopicConsumer.ConnectPlanShape(Config.Url, Config.ExchangeName, Config.ExchangeType, MainBindings);
    TopicConsumer.ConsumePlanAt(MainBindings);
    var b0, b1, b2 := MainBindings[0], MainBindings[1], MainBindings[2];
    assert plan[3] == AssertQueue(b0.queueName, true) && plan[4] == BindQueue(b0.queueName, Config.ExchangeName, b0.routingKey);
    assert plan[5] == AssertQueue(b1.queueName, true) && plan[6] == BindQueue(b1.queueName, Config.ExchangeName, b1.routingKey);
    assert plan[7] == AssertQueue(b2.queueName, true) && plan[8] == BindQueue(b2.queueName, Config.ExchangeName, b2.routingKey);
    assert consume == [Op.Consume(b0.queueName, true), Op.Consume(b1.queueName, true), Op.Consume(b2.queueName, true)];
  }

  /** Every message the producer demo publishes carries a routing key that
      the consumer demo binds, literally, to exactly one queue: the one
      named for its log level. */
  lemma MainKeysBindOneQueue(infoAt: int, errorAt: int, warningAt: int)
    ensures var published := ProducerMainLog(infoAt, errorAt, warningAt);
            forall k :: 0 <= k < |published| && published[k].Publish? ==>
              |TopicConsumer.QueuesBoundTo(ConsumerMainLog(), published[k].exchange, published[k].routingKey)| == 1
    ensures TopicConsumer.QueuesBoundTo(ConsumerMainLog(), Config.ExchangeName, Config.ErrorKey) == ["error_queue"]
    ensures TopicConsumer.QueuesBoundTo(ConsumerMainLog(), Config.ExchangeName, Config.InfoKey) == ["info_queue"]
    ensures TopicConsumer.QueuesBoundTo(ConsumerMainLog(), Config.ExchangeName, Config.WarningKey) == ["warning_queue"]
  {
    var plan := TopicConsumer.ConnectPlan(Config.Url, Config.ExchangeName, Config.ExchangeType, MainBindings);
    var consume := TopicConsumer.ConsumePlan(MainBindings);
    ConsumerMainPlans();
    TopicConsumer.ConsumePlanAt(MainBindings);
    var one, two := MainBindings[..1], MainBindings[..2];
    assert two[..1] == one && one[..0] == [] && MainBindings[..2] == two;
    assert TopicConsumer.QueuesWithKey(one, Config.ErrorKey) == ["error_queue"];
    assert TopicConsumer.QueuesWithKey(one, Config.InfoKey) == [];
    assert TopicConsumer.QueuesWithKey(one, Config.WarningKey) == [];
    assert TopicConsumer.QueuesWithKey(two, Config.ErrorKey) == ["error_queue"];
    assert TopicConsumer.QueuesWithKey(two, Config.InfoKey) == ["info_queue"];
    assert TopicConsumer.QueuesWithKey(two, Config.WarningKey) == [];
    forall key | key in {Config.ErrorKey, Config.InfoKey, Config.WarningKey}
      ensures TopicConsumer.QueuesBoundTo(ConsumerMainLog(), Config.ExchangeName, key) ==
                TopicConsumer.QueuesWithKey(MainBindings, key)
    {
      TopicConsumer.QueuesBoundToAppend(plan, consume, Config.ExchangeName, key);
      TopicConsumer.QueuesBoundToNone(consume, Config.ExchangeName, key);
      TopicConsumer.ConnectBindsConfiguredQueues(Config.Url, Config.ExchangeName, Config.ExchangeType, MainBindings, key);
    }
  }
}
