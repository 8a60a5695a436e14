/**
 * The topic subscriber (dummy/src/topic/consumer.ts): declares a durable
 * exchange and one durable queue per binding, bound with that binding's
 * routing key, then registers one consumer per queue whose callback acks
 * on handler success and nacks with requeue on handler failure.
 */
module TopicConsumer {
  import opened Amqp
  import Config

  datatype BindingConfig = BindingConfig(routingKey: string, queueName: string)

  /** The declarations the `connect` loop issues for `bindings`, in order:
      the queue, durable, then its binding to the exchange. */
  function BindingOps(exchange: string, bindings: seq<BindingConfig>): (ops: seq<Op>)
  {
    if bindings == [] then []
    else
      var last := bindings[|bindings| - 1];
      BindingOps(exchange, bindings[..|bindings| - 1]) +
        [AssertQueue(last.queueName, true), BindQueue(last.queueName, exchange, last.routingKey)]
  }

  lemma {:induction false} BindingOpsLength(exchange: string, bindings: seq<BindingConfig>)
    ensures |BindingOps(exchange, bindings)| == 2 * |bindings|
  {
    if bindings != [] {
      BindingOpsLength(exchange, bindings[..|bindings| - 1]);
    }
  }

  lemma {:induction false} BindingOpsAt(exchange: string, bindings: seq<BindingConfig>)
    ensures |BindingOps(exchange, bindings)| == 2 * |bindings|
    ensures forall i :: 0 <= i < |bindings| ==>
              BindingOps(exchange, bindings)[2 * i] == AssertQueue(bindings[i].queueName, true) &&
              BindingOps(exchange, bindings)[2 * i + 1] == BindQueue(bindings[i].queueName, exchange, bindings[i].routingKey)
  {
    if bindings != [] {
      var init := bindings[..|bindings| - 1];
      BindingOpsAt(exchange, init);
      forall i | 0 <= i < |init| ensures init[i] == bindings[i] { }
    }
  }

  /** The declarations of binding `i` extend those of the bindings before it. */
  lemma BindingOpsStep(exchange: string, bindings: seq<BindingConfig>, i: nat)
    requires i < |bindings|
    ensures var ops := BindingOps(exchange, bindings);
            2 * i + 2 <= |ops| &&
            ops[..2 * i + 1] == ops[..2 * i] + [AssertQueue(bindings[i].queueName, true)] &&
            ops[..2 * i + 2] == ops[..2 * i + 1] + [BindQueue(bindings[i].queueName, exchange, bindings[i].routingKey)]
  {
    var ops := BindingOps(exchange, bindings);
    BindingOpsAt(exchange, bindings);
    assert ops[..2 * i + 1] == ops[..2 * i] + [ops[2 * i]];
    assert ops[..2 * i + 2] == ops[..2 * i + 1] + [ops[2 * i + 1]];
  }

  /** Every call `connect` issues when none fails. */
  function ConnectPlan(url: string, exchange: string, kind: string, bindings: seq<BindingConfig>): (plan: seq<Op>)
  {
    OpenPlan(url, exchange, kind) + BindingOps(exchange, bindings) + [Prefetch(1)]
  }

  /** `connect` opens the connection and channel, asserts the exchange
      exactly once, durable and first, declares and binds every binding's
      queue in list order, and ends with a prefetch of one. */
  lemma ConnectPlanShape(url: string, exchange: string, kind: string, bindings: seq<BindingConfig>)
    ensures var plan := ConnectPlan(url, exchange, kind, bindings);
            |plan| == 4 + 2 * |bindings| &&
            plan[0] == Connect(url) && plan[1] == CreateChannel &&
            plan[2] == AssertExchange(exchange, kind, true) &&
            plan[|plan| - 1] == Prefetch(1)
    ensures var plan := ConnectPlan(url, exchange, kind, bindings);
            forall k :: 0 <= k < |plan| && plan[k].AssertExchange? ==> k == 2
    ensures var plan := ConnectPlan(url, exchange, kind, bindings);
            forall i :: 0 <= i < |bindings| ==>
              plan[3 + 2 * i] == AssertQueue(bindings[i].queueName, true) &&
              plan[4 + 2 * i] == BindQueue(bindings[i].queueName, exchange, bindings[i].routingKey)
  {
    var plan := ConnectPlan(url, exchange, kind, bindings);
    var ops := BindingOps(exchange, bindings);
    BindingOpsAt(exchange, bindings);
    assert forall k :: 3 <= k < 3 + |ops| ==> plan[k] == ops[k - 3];
    forall k | 3 <= k < 3 + |ops| ensures plan[k].AssertQueue? || plan[k].BindQueue? {
      var i := (k - 3) / 2;
      assert ops[2 * i] == AssertQueue(bindings[i].queueName, true);
      assert k == 3 + 2 * i || k == 4 + 2 * i;
    }
  }

  /** The queues that `log` binds to `exchange` under `routingKey`, in
      the order of the bindings. */
  function QueuesBoundTo(log: seq<Op>, exchange: string, routingKey: string): (queues: seq<string>)
  {
    if log == [] then []
    else
      var last := log[|log| - 1];
      QueuesBoundTo(log[..|log| - 1], exchange, routingKey) +
        (if last.BindQueue? && last.exchange == exchange && last.routingKey == routingKey then [last.queue] else [])
  }

  lemma {:induction false} QueuesBoundToAppend(a: seq<Op>, b: seq<Op>, exchange: string, routingKey: string)
    ensures QueuesBoundTo(a + b, exchange, routingKey) ==
              QueuesBoundTo(a, exchange, routingKey) + QueuesBoundTo(b, exchange, routingKey)
  {
    if b == [] {
      assert a + b == a;
    } else {
      assert (a + b)[..|a + b| - 1] == a + b[..|b| - 1];
      QueuesBoundToAppend(a, b[..|b| - 1], exchange, routingKey);
    }
  }

  /** A log with no `bindQueue` call binds nothing. */
  lemma {:induction false} QueuesBoundToNone(log: seq<Op>, exchange: string, routingKey: string)
    requires forall k :: 0 <= k < |log| ==> !log[k].BindQueue?
    ensures QueuesBoundTo(log, exchange, routingKey) == []
  {
    if log != [] {
      QueuesBoundToNone(log[..|log| - 1], exchange, routingKey);
    }
  }

  /** The queues of `bindings` whose routing key is `routingKey`, in order. */
  function QueuesWithKey(bindings: seq<BindingConfig>, routingKey: string): (queues: seq<string>)
  {
    if bindings == [] then []
    else
      var last := bindings[|bindings| - 1];
      QueuesWithKey(bindings[..|bindings| - 1], routingKey) +
        (if last.routingKey == routingKey then [last.queueName] else [])
  }

  /** `connect` binds to the exchange, under each routing key, exactly the
      queues configured with that key, and nothing to any other exchange. */
  lemma {:induction false} ConnectBindsConfiguredQueues(url: string, exchange: string, kind: string,
                                                       bindings: seq<BindingConfig>, routingKey: string)
    ensures QueuesBoundTo(ConnectPlan(url, exchange, kind, bindings), exchange, routingKey) == QueuesWithKey(bindings, routingKey)
  {
    var head := OpenPlan(url, exchange, kind);
    var ops := BindingOps(exchange, bindings);
    assert ConnectPlan(url, exchange, kind, bindings) == head + ops + [Prefetch(1)];
    QueuesBoundToAppend(head + ops, [Prefetch(1)], exchange, routingKey);
    QueuesBoundToAppend(head, ops, exchange, routingKey);
    assert QueuesBoundTo([Prefetch(1)], exchange, routingKey) == [];
    assert QueuesBoundTo(head[..2], exchange, routingKey) == [] by {
      assert head[..2][..1] == [Connect(url)];
      assert QueuesBoundTo(head[..2][..1], exchange, routingKey) == [] by {
        assert head[..2][..1][..0] == [];
      }
    }
    assert head[..|head| - 1] == head[..2];
    BindingOpsBindConfigured(exchange, bindings, routingKey);
  }

  lemma {:induction false} BindingOpsBindConfigured(exchange: string, bindings: seq<BindingConfig>, routingKey: string)
    ensures QueuesBoundTo(BindingOps(exchange, bindings), exchange, routingKey) == QueuesWithKey(bindings, routingKey)
  {
    if bindings != [] {
      var init := bindings[..|bindings| - 1];
      var last := bindings[|bindings| - 1];
      BindingOpsBindConfigured(exchange, init, routingKey);
      var prev := BindingOps(exchange, init);
      var ops := BindingOps(exchange, bindings);
      assert ops[..|ops| - 1] == prev + [AssertQueue(last.queueName, true)];
      assert (prev + [AssertQueue(last.queueName, true)])[..|prev|] == prev;
    }
  }

  /** The registrations `consume` issues when none fails: one per binding,
      on that binding's queue, in list order (with `noAck: true`). */
  function ConsumePlan(bindings: seq<BindingConfig>): (plan: seq<Op>)
  {
    if bindings == [] then []
    else ConsumePlan(bindings[..|bindings| - 1]) + [Consume(bindings[|bindings| - 1].queueName, true)]
  }

  lemma {:induction false} ConsumePlanAt(bindings: seq<BindingConfig>)
    ensures |ConsumePlan(bindings)| == |bindings|
    ensures forall i :: 0 <= i < |bindings| ==> ConsumePlan(bindings)[i] == Consume(bindings[i].queueName, true)
  {
    if bindings != [] {
      var init := bindings[..|bindings| - 1];
      ConsumePlanAt(init);
      forall i | 0 <= i < |init| ensures init[i] == bindings[i] { }
    }
  }

  /** The first `i` registrations are those of the first `i` bindings. */
  lemma ConsumePlanPrefix(bindings: seq<BindingConfig>, i: nat)
    requires i <= |bindings|
    ensures |ConsumePlan(bindings)| == |bindings|
    ensures ConsumePlan(bindings)[..i] == ConsumePlan(bindings[..i])
  {
    ConsumePlanAt(bindings);
    ConsumePlanAt(bindings[..i]);
  }

  /** A successful `connect` followed by `consume` declares every queue and
      sets the prefetch limit before any consumer is registered. */
  lemma TopologyBeforeConsume(url: string, exchange: string, kind: string, bindings: seq<BindingConfig>, failAt: nat)
    ensures DeclaredBeforeConsume(ConnectPlan(url, exchange, kind, bindings) + Issued(ConsumePlan(bindings), failAt))
  {
    var connect := ConnectPlan(url, exchange, kind, bindings);
    var consume := Issued(ConsumePlan(bindings), failAt);
    var log := connect + consume;
    ConnectPlanRegistersNothing(url, exchange, kind, bindings);
    ConsumePlanAt(bindings);
    assert forall k :: 0 <= k < |connect| ==> log[k] == connect[k];
    forall k | 0 <= k < |log| && log[k].Consume?
      ensures exists j :: 0 <= j < k && log[j] == AssertQueue(log[k].queue, true)
      ensures exists j :: 0 <= j < k && log[j] == Prefetch(1)
    {
      var i := k - |connect|;
      assert log[k] == consume[i] == Consume(bindings[i].queueName, true);
      ConnectPlanDeclares(url, exchange, kind, bindings, i);
      assert log[3 + 2 * i] == AssertQueue(bindings[i].queueName, true);
      assert log[|connect| - 1] == Prefetch(1);
    }
  }

  /** `connect` registers no consumer, and sets the prefetch limit only
      with its last call. */
  lemma ConnectPlanRegistersNothing(url: string, exchange: string, kind: string, bindings: seq<BindingConfig>)
    ensures var plan := ConnectPlan(url, exchange, kind, bindings);
            forall k :: 0 <= k < |plan| ==> !plan[k].Consume?
    ensures var plan := ConnectPlan(url, exchange, kind, bindings);
            forall k :: 0 <= k < |plan| - 1 ==> !plan[k].Prefetch?
  {
    var plan := ConnectPlan(url, exchange, kind, bindings);
    var ops := BindingOps(exchange, bindings);
    BindingOpsDeclareOnly(exchange, bindings);
    forall k | 0 <= k < |plan| - 1 ensures !plan[k].Consume? && !plan[k].Prefetch? {
      if 3 <= k {
        assert plan[k] == ops[k - 3];
      }
    }
  }

  /** The binding loop only declares queues and binds them. */
  lemma {:induction false} BindingOpsDeclareOnly(exchange: string, bindings: seq<BindingConfig>)
    ensures forall k :: 0 <= k < |BindingOps(exchange, bindings)| ==>
              BindingOps(exchange, bindings)[k].AssertQueue? || BindingOps(exchange, bindings)[k].BindQueue?
  {
    if bindings != [] {
      var last := bindings[|bindings| - 1];
      var prev := BindingOps(exchange, bindings[..|bindings| - 1]);
      BindingOpsDeclareOnly(exchange, bindings[..|bindings| - 1]);
      var ops := BindingOps(exchange, bindings);
      assert ops == prev + [AssertQueue(last.queueName, true), BindQueue(last.queueName, exchange, last.routingKey)];
      forall k | 0 <= k < |ops| ensures ops[k].AssertQueue? || ops[k].BindQueue? {
        if k < |prev| {
          assert ops[k] == prev[k];
        }
      }
    }
  }

  /**
   * The ordering needs a full `connect`. Any rejected call from the exchange
   * assert onwards leaves the channel set (the failure is swallowed), so a
   * later `consume` registers on every binding's queue although the
   * prefetch limit was never set: the first registration has no prefetch
   * before it.
   */
  lemma PartialConnectBreaksOrder(url: string, exchange: string, kind: string, bindings: seq<BindingConfig>,
                                  failAt: nat)
    requires bindings != []
    requires 2 <= failAt < |ConnectPlan(url, exchange, kind, bindings)|
    ensures !DeclaredBeforeConsume(Issued(ConnectPlan(url, exchange, kind, bindings), failAt) + ConsumePlan(bindings))
  {
    var plan := ConnectPlan(url, exchange, kind, bindings);
    var issued := Issued(plan, failAt);
    var log := issued + ConsumePlan(bindings);
    ConnectPlanRegistersNothing(url, exchange, kind, bindings);
    ConsumePlanAt(bindings);
    var k := |issued|;
    assert log[k] == Consume(bindings[0].queueName, true);
    forall j | 0 <= j < k ensures log[j] != Prefetch(1) {
      assert log[j] == plan[j];
    }
  }

  /** In `connect`, the queue of binding `i` is declared, durable, at index
      `3 + 2 * i`, and the prefetch limit is the last call. */
  lemma ConnectPlanDeclares(url: string, exchange: string, kind: string, bindings: seq<BindingConfig>, i: nat)
    requires i < |bindings|
    ensures var plan := ConnectPlan(url, exchange, kind, bindings);
            |plan| == 4 + 2 * |bindings| && plan[3 + 2 * i] == AssertQueue(bindings[i].queueName, true) &&
            plan[|plan| - 1] == Prefetch(1)
  {
    var ops := BindingOps(exchange, bindings);
    BindingOpsAt(exchange, bindings);
    assert ops[2 * i] == AssertQueue(bindings[i].queueName, true);
  }

  /** The calls the consume callback issues for one delivery: nothing for
      a null delivery, otherwise an ack when the handler succeeds and a nack
      with requeue when it fails (both through `channel?.`). */
  function DeliveryOps(msg: Option<Message>, handlerOk: bool, hasChannel: bool): (ops: seq<Op>)
    ensures msg.None? || !hasChannel ==> ops == []
    ensures msg.Some? && hasChannel ==>
              (Ack(msg.value.tag) in ops <==> handlerOk) &&
              (Nack(msg.value.tag, false, true) in ops <==> !handlerOk)
    ensures forall k :: 0 <= k < |ops| ==> ops[k].IsTerminal() && ops[k].tag == msg.value.tag
  {
    match msg
    case None => []
    case Some(m) =>
      if !hasChannel then []
      else if handlerOk then [Ack(m.tag)]
      else [Nack(m.tag, false, true)]
  }

  /** A delivery gets exactly one ack or nack call when a channel exists,
      and none when it is null. */
  lemma DeliverySettledOnce(msg: Option<Message>, handlerOk: bool, hasChannel: bool)
    ensures Terminals(DeliveryOps(msg, handlerOk, hasChannel)) == (if msg.Some? && hasChannel then 1 else 0)
  {
  }

  class RabbitConsumer {
    const exchangeName: string
    const exchangeType: string
    const rabbitUrl: string
    const bindings: seq<BindingConfig>
    const broker: Broker
    var hasConnection: bool
    var hasChannel: bool

    constructor (exchangeName: string := Config.ExchangeName, exchangeType: string := Config.ExchangeType,
                 rabbitUrl: string := Config.Url, bindings: seq<BindingConfig>)
      ensures this.exchangeName == exchangeName && this.exchangeType == exchangeType
      ensures this.rabbitUrl == rabbitUrl && this.bindings == bindings
      ensures fresh(broker) && broker.log == []
      ensures !hasConnection && !hasChannel
    {
      this.exchangeName := exchangeName;
      this.exchangeType := exchangeType;
      this.rabbitUrl := rabbitUrl;
      this.bindings := bindings;
      broker := new Broker();
      hasConnection, hasChannel := false, false;
    }

    /**
     * `connect`: the call at index `failAt` of `ConnectPlan` is the first
     * the broker rejects, so the log grows by the accepted part of the
     * opening calls, of the binding declarations and of the prefetch. The
     * error is swallowed: nothing reaches the caller, and the channel may
     * stay unset.
     */
    method Connect(failAt: nat)
      modifies this, broker
      ensures broker.log == old(broker.log) + Issued(OpenPlan(rabbitUrl, exchangeName, exchangeType), failAt)
                + (if failAt >= 3 then Issued(BindingOps(exchangeName, bindings), failAt - 3) else [])
                + (if failAt >= 4 + 2 * |bindings| then [Prefetch(1)] else [])
      ensures failAt >= 4 + 2 * |bindings| ==>
                broker.log == old(broker.log) + ConnectPlan(rabbitUrl, exchangeName, exchangeType, bindings)
      ensures hasConnection == (old(hasConnection) || failAt >= 1)
      ensures hasChannel == (old(hasChannel) || failAt >= 2)
    {
      var ok := Open(failAt);
      ghost var afterOpen := broker.log;
      if ok {
        ok := DeclareBindings(failAt - 3);
      }
      ghost var declared := broker.log;
      assert declared == afterOpen + (if failAt >= 3 then Issued(BindingOps(exchangeName, bindings), failAt - 3) else []);
      assert ok <==> failAt >= 3 + 2 * |bindings|;
      if ok {
        ok := broker.Call(Prefetch(1), failAt == 3 + 2 * |bindings|);
      }
      assert broker.log == declared + (if failAt >= 4 + 2 * |bindings| then [Prefetch(1)] else []);
      if failAt >= 4 + 2 * |bindings| {
        BindingOpsLength(exchangeName, bindings);
      }
    }

    /** The first three awaited calls of `connect`: the connection, the
        channel and the durable exchange; the call at index `failAt` is the
        first rejected. */
    method Open(failAt: nat) returns (ok: bool)
      modifies this, broker
      ensures broker.log == old(broker.log) + Issued(OpenPlan(rabbitUrl, exchangeName, exchangeType), failAt)
      ensures ok <==> failAt >= 3
      ensures hasConnection == (old(hasConnection) || failAt >= 1)
      ensures hasChannel == (old(hasChannel) || failAt >= 2)
    {
      ok := broker.Call(Op.Connect(rabbitUrl), failAt == 0);
      if ok {
        hasConnection := true;
        ok := broker.Call(CreateChannel, failAt == 1);
      }
      if ok {
        hasChannel := true;
        ok := broker.Call(AssertExchange(exchangeName, exchangeType, true), failAt == 2);
      }
    }

    /** The `for` loop of `connect`: each binding's queue, durable, then
        its binding; the call at index `failAt` is the first rejected. */
    method DeclareBindings(failAt: nat) returns (ok: bool)
      modifies broker
      ensures broker.log == old(broker.log) + Issued(BindingOps(exchangeName, bindings), failAt)
      ensures ok <==> failAt >= 2 * |bindings|
    {
      ghost var ops := BindingOps(exchangeName, bindings);
      BindingOpsLength(exchangeName, bindings);
      for i := 0 to |bindings|
        invariant 2 * i <= failAt
        invariant broker.log == old(broker.log) + ops[..2 * i]
      {
        BindingOpsStep(exchangeName, bindings, i);
        ok := broker.Call(AssertQueue(bindings[i].queueName, true), failAt == 2 * i);
        if !ok { return; }
        ok := broker.Call(BindQueue(bindings[i].queueName, exchangeName, bindings[i].routingKey), failAt == 2 * i + 1);
        if !ok { return; }
      }
      assert ops[..2 * |bindings|] == ops;
      ok := true;
    }

    /**
     * `consume`: with no channel, throws "Channel not initialized" and
     * registers nothing; otherwise registers one consumer per binding, in
     * order, and rethrows the first rejected registration.
     */
    method Consume(failAt: nat) returns (r: Outcome)
      modifies broker
      ensures !hasChannel ==> r == Fail(PlainError(ChannelNotInitialized)) && broker.log == old(broker.log)
      ensures hasChannel ==> broker.log == old(broker.log) + Issued(ConsumePlan(bindings), failAt)
      ensures hasChannel ==> (r.Pass? <==> failAt >= |bindings|)
      ensures hasChannel && r.Fail? ==> r.error == BrokerError
    {
      if !hasChannel {
        return Fail(PlainError(ChannelNotInitialized));
      }
      ghost var start := broker.log;
      for i := 0 to |bindings|
        invariant i <= failAt
        invariant broker.log == start + ConsumePlan(bindings[..i])
      {
        assert bindings[..i + 1][..i] == bindings[..i];
        var ok := broker.Call(Op.Consume(bindings[i].queueName, true), failAt == i);
        if !ok {
          ConsumePlanPrefix(bindings, i);
          return Fail(BrokerError);
        }
      }
      assert bindings[..|bindings|] == bindings;
      ConsumePlanPrefix(bindings, |bindings|);
      r := Pass;
    }

    /**
     * The consume callback for one delivery: a null delivery is ignored;
     * otherwise the handler gets the content unchanged and the routing key
     * (`handled`), and the delivery is acked or nacked with requeue
     * according to `handlerOk`.
     */
    method OnMessage(msg: Option<Message>, handlerOk: bool) returns (handled: Option<(string, string)>)
      modifies broker
      ensures handled == if msg.None? then None else Some((msg.value.content, msg.value.routingKey))
      ensures broker.log == old(broker.log) + DeliveryOps(msg, handlerOk, hasChannel)
    {
      if msg.None? {
        return None;
      }
      var m := msg.value;
      handled := Some((m.content, m.routingKey));
      if handlerOk {
        if hasChannel {
          var _ := broker.Call(Ack(m.tag), false);
        }
      } else {
        if hasChannel {
          var _ := broker.Call(Nack(m.tag, false, true), false);
        }
      }
    }

    /** `close`: the channel, then the connection, each if set; the first
        rejected close is rethrown. */
    method Close(failAt: nat) returns (r: Outcome)
      modifies broker
      ensures broker.log == old(broker.log) + Issued(ClosePlan(hasChannel, hasConnection), failAt)
      ensures r.Pass? <==> failAt >= |ClosePlan(hasChannel, hasConnection)|
      ensures r.Fail? ==> r.error == BrokerError
    {
      var ok := true;
      if hasChannel {
        ok := broker.Call(CloseChannel, failAt == 0);
      }
      if ok && hasConnection {
        ok := broker.Call(CloseConnection, failAt == (if hasChannel then 1 else 0));
      }
      r := if ok then Pass else Fail(BrokerError);
    }
  }
}
