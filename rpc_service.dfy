/**
 * The user service's request/response endpoint over two durable queues
 * (user-service/src/services/RabbitMQService.ts). Requests arrive on
 * USER_DETAILS_REQUEST carrying a user id; each is answered on
 * USER_DETAILS_RESPONSE with the same correlation id, then settled by
 * exactly one ack or nack.
 */
module RpcService {
  import opened Amqp

  const RequestQueue: string := "USER_DETAILS_REQUEST"
  const ResponseQueue: string := "USER_DETAILS_RESPONSE"
  const NotFoundMessage: string := "User not found"

  /** The user collection seen by `User.findById(id).select("-password")`:
      documents by id, and the ids for which the query itself throws
      (the store is down, or the id is not a well-formed key). */
  datatype UserStore = UserStore(users: map<string, map<string, string>>, failing: set<string>)

  /** The error that stands for "retrying will not help". */
  predicate IsNotFound(e: Error)
  {
    e.ApiError? && e.statusCode == 404
  }

  /** `getUserDetails`: the stored document without its password field,
      or `ApiError(404, "User not found")` when there is none. */
  function GetUserDetails(store: UserStore, userId: string): (r: Result<map<string, string>>)
    ensures r.Ok? <==> userId !in store.failing && userId in store.users
    ensures r.Ok? ==> "password" !in r.value
    ensures r.Ok? ==> forall f :: f in store.users[userId] && f != "password" ==>
                        f in r.value && r.value[f] == store.users[userId][f]
    ensures r.Ok? ==> forall f :: f in r.value ==> f in store.users[userId]
    ensures r.Err? ==> (IsNotFound(r.error) <==> userId !in store.failing)
    ensures r.Err? && IsNotFound(r.error) ==> r.error.message == NotFoundMessage
  {
    if userId in store.failing then Err(StoreError)
    else if userId !in store.users then Err(ApiError(404, NotFoundMessage))
    else Ok(store.users[userId] - {"password"})
  }

  /** What the lookup of one request comes to: `decoded` is the `userId`
      that `JSON.parse` of the content yields, `None` when parsing throws. */
  datatype LookupOutcome = Found(details: map<string, string>) | NotFound | OtherError

  function Lookup(decoded: Option<string>, store: UserStore): (o: LookupOutcome)
    ensures o.Found? <==> decoded.Some? && decoded.value in store.users && decoded.value !in store.failing
    ensures o.Found? ==> GetUserDetails(store, decoded.value) == Ok(o.details)
    ensures o.NotFound? <==> decoded.Some? && decoded.value !in store.users && decoded.value !in store.failing
  {
    match decoded
    case None => OtherError
    case Some(userId) =>
      match GetUserDetails(store, userId)
      case Ok(details) => Found(details)
      case Err(e) => if IsNotFound(e) then NotFound else OtherError
  }

  /** The response properties: the request's correlation id, persistent. */
  function ReplyOptions(m: Message): (options: SendOptions)
  {
    SendOptions(m.correlationId, true)
  }

  /** The response body sent when the user does not exist. */
  function NotFoundBody(): (body: Payload)
  {
    JsonObject(map["error" := NotFoundMessage])
  }

  /** A request that must be retried. */
  function Requeue(m: Message): (op: Op)
  {
    Nack(m.tag, false, true)
  }

  /** Whether a request ends requeued: its lookup failed for a reason other
      than "not found", or the reply to a found user could not be sent. */
  predicate Requeued(outcome: LookupOutcome, sendOk: bool)
  {
    outcome.OtherError? || (outcome.Found? && !sendOk)
  }

  /** The calls the consume callback issues for the delivered request `m`,
      given its lookup outcome and whether the broker accepts the reply. */
  function RequestOps(m: Message, outcome: LookupOutcome, sendOk: bool): (ops: seq<Op>)
    ensures forall k :: 0 <= k < |ops| && ops[k].SendToQueue? ==>
              ops[k].queue == ResponseQueue && ops[k].properties == SendOptions(m.correlationId, true)
    ensures forall k :: 0 <= k < |ops| ==> ops[k].SendToQueue? || ops[k] == Ack(m.tag) || ops[k] == Requeue(m)
    ensures Requeue(m) in ops <==> Requeued(outcome, sendOk)
    ensures Ack(m.tag) in ops <==> !Requeued(outcome, sendOk)
    ensures Requeued(outcome, sendOk) ==> ops == [Requeue(m)]
    ensures outcome.Found? && sendOk ==>
              |ops| == 2 && ops[0] == SendToQueue(ResponseQueue, JsonObject(outcome.details), ReplyOptions(m)) &&
              ops[1] == Ack(m.tag)
    ensures outcome.NotFound? ==>
              ops[0] == Ack(m.tag) &&
              (|ops| == 2 <==> sendOk) &&
              (sendOk ==> ops[1] == SendToQueue(ResponseQueue, NotFoundBody(), ReplyOptions(m)))
  {
    match outcome
    case Found(details) =>
      if sendOk then [SendToQueue(ResponseQueue, JsonObject(details), ReplyOptions(m)), Ack(m.tag)]
      else [Requeue(m)]
    case NotFound =>
      [Ack(m.tag)] + (if sendOk then [SendToQueue(ResponseQueue, NotFoundBody(), ReplyOptions(m))] else [])
    case OtherError =>
      [Requeue(m)]
  }

  /** Every request gets exactly one settling call: one ack or one nack,
      for its own delivery tag, never both and never neither. */
  lemma RequestSettledOnce(m: Message, outcome: LookupOutcome, sendOk: bool)
    ensures Terminals(RequestOps(m, outcome, sendOk)) == 1
    ensures forall k :: 0 <= k < |RequestOps(m, outcome, sendOk)| && RequestOps(m, outcome, sendOk)[k].IsTerminal() ==>
              RequestOps(m, outcome, sendOk)[k].tag == m.tag
  {
    var ops := RequestOps(m, outcome, sendOk);
    if |ops| == 1 {
      assert ops[1..] == [];
    } else {
      var rest := ops[1..];
      assert rest[1..] == [];
      assert Terminals(rest) == (if rest[0].IsTerminal() then 1 else 0);
      assert ops[0].IsTerminal() != ops[1].IsTerminal();
    }
  }

  /** At most one reply is sent per request, and one is sent unless the
      request is requeued or the broker rejects the reply. */
  lemma RequestRepliesAtMostOnce(m: Message, outcome: LookupOutcome, sendOk: bool)
    ensures var ops := RequestOps(m, outcome, sendOk);
            (exists k :: 0 <= k < |ops| && ops[k].SendToQueue?) <==> (sendOk && !outcome.OtherError?)
    ensures var ops := RequestOps(m, outcome, sendOk);
            forall k, l :: 0 <= k < l < |ops| ==> !(ops[k].SendToQueue? && ops[l].SendToQueue?)
  {
    var ops := RequestOps(m, outcome, sendOk);
    if sendOk && !outcome.OtherError? {
      assert ops[0].SendToQueue? || ops[1].SendToQueue?;
    }
  }

  /** A request naming a stored user is answered with that user's
      document minus its password, under the request's correlation id,
      and only then acked. */
  lemma FoundUserReplied(m: Message, userId: string, store: UserStore)
    requires userId in store.users && userId !in store.failing
    ensures RequestOps(m, Lookup(Some(userId), store), true) ==
              [SendToQueue(ResponseQueue, JsonObject(store.users[userId] - {"password"}), SendOptions(m.correlationId, true)),
               Ack(m.tag)]
  {
  }

  /** A request naming no stored user is acked, never requeued, and then
      answered with `{error: "User not found"}` under its correlation id. */
  lemma MissingUserAnswered(m: Message, userId: string, store: UserStore)
    requires userId !in store.users && userId !in store.failing
    ensures RequestOps(m, Lookup(Some(userId), store), true) ==
              [Ack(m.tag), SendToQueue(ResponseQueue, JsonObject(map["error" := "User not found"]), SendOptions(m.correlationId, true))]
    ensures Requeue(m) !in RequestOps(m, Lookup(Some(userId), store), true)
  {
  }

  /** A request whose content does not parse, or whose lookup fails for
      another reason, is nacked with requeue and gets no reply. */
  lemma FailedRequestRequeued(m: Message, decoded: Option<string>, store: UserStore, sendOk: bool)
    requires decoded.None? || decoded.value in store.failing
    ensures RequestOps(m, Lookup(decoded, store), sendOk) == [Nack(m.tag, false, true)]
  {
  }

  /** One delivery as the callback sees it: the message (`None` when the
      consumer is cancelled), the decoded user id, and whether the broker
      accepts the reply. */
  datatype Delivery = Delivery(msg: Option<Message>, decoded: Option<string>, sendOk: bool)

  /** The calls a sequence of deliveries causes, in order. */
  function DeliveriesOps(ds: seq<Delivery>, store: UserStore): (ops: seq<Op>)
  {
    if ds == [] then []
    else
      (match ds[0].msg
       case None => []
       case Some(m) => RequestOps(m, Lookup(ds[0].decoded, store), ds[0].sendOk))
      + DeliveriesOps(ds[1..], store)
  }

  /** The number of non-null deliveries. */
  function Delivered(ds: seq<Delivery>): (n: nat)
  {
    if ds == [] then 0 else (if ds[0].msg.Some? then 1 else 0) + Delivered(ds[1..])
  }

  /** Over any run of deliveries, the service settles exactly as many
      messages as it was given. */
  lemma {:induction false} DeliveriesSettledOnce(ds: seq<Delivery>, store: UserStore)
    ensures Terminals(DeliveriesOps(ds, store)) == Delivered(ds)
  {
    if ds != [] {
      DeliveriesSettledOnce(ds[1..], store);
      var head := match ds[0].msg
        case None => []
        case Some(m) => RequestOps(m, Lookup(ds[0].decoded, store), ds[0].sendOk);
      TerminalsAppend(head, DeliveriesOps(ds[1..], store));
      if ds[0].msg.Some? {
        RequestSettledOnce(ds[0].msg.value, Lookup(ds[0].decoded, store), ds[0].sendOk);
      }
    }
  }

  /** `init` up to the consume registration. */
  function InitPlan(url: string): (plan: seq<Op>)
    ensures |plan| == 5 && plan[0] == Connect(url) && plan[1] == CreateChannel
  {
    [Connect(url), CreateChannel, AssertQueue(RequestQueue, true), AssertQueue(ResponseQueue, true), Prefetch(1)]
  }

  /** `init` including the consume registration of `listenForRequests`. */
  function StartupPlan(url: string): (plan: seq<Op>)
  {
    InitPlan(url) + [Consume(RequestQueue, false)]
  }

  /** Both queues are declared durable, and the request queue is consumed,
      with manual acknowledgment, only after both declarations and the
      prefetch limit. */
  lemma StartupDeclaresFirst(url: string, failAt: nat)
    ensures DeclaredBeforeConsume(Issued(StartupPlan(url), failAt))
    ensures var plan := StartupPlan(url);
            forall k :: 0 <= k < |plan| && plan[k].Consume? ==> k == 5 && plan[k] == Consume(RequestQueue, false)
    ensures var plan := StartupPlan(url);
            AssertQueue(RequestQueue, true) in plan[..5] && AssertQueue(ResponseQueue, true) in plan[..5]
  {
    var plan := StartupPlan(url);
    assert plan[2] == AssertQueue(plan[5].queue, true);
    assert plan[4] == Prefetch(1);
    IssuedKeepsOrder(plan, failAt);
  }

  /**
   * The singleton service. The connection and channel references stay set
   * once assigned: neither `cleanup` nor a failed `init` clears them.
   */
  class RabbitMQService {
    const msgBrokerUrl: string
    const broker: Broker
    var hasConnection: bool
    var hasChannel: bool

    constructor (msgBrokerUrl: string)
      ensures this.msgBrokerUrl == msgBrokerUrl
      ensures fresh(broker) && broker.log == []
      ensures !hasConnection && !hasChannel
    {
      this.msgBrokerUrl := msgBrokerUrl;
      broker := new Broker();
      hasConnection, hasChannel := false, false;
    }

    /**
     * `init`: connect, open a channel, declare both queues durable, set a
     * prefetch of one and register the request consumer. The call at index
     * `failAt` of `StartupPlan` is the first the broker rejects. The
     * registration is not awaited, so its rejection does not fail `init`;
     * any earlier failure runs `cleanup` (whose first rejected close is
     * `cleanupFailAt`) and is rethrown.
     */
    method Init(failAt: nat, cleanupFailAt: nat) returns (r: Outcome)
      modifies this, broker
      ensures hasConnection == (old(hasConnection) || failAt >= 1)
      ensures hasChannel == (old(hasChannel) || failAt >= 2)
      ensures r.Pass? <==> failAt >= |InitPlan(msgBrokerUrl)|
      ensures r.Pass? ==> broker.log == old(broker.log) + Issued(StartupPlan(msgBrokerUrl), failAt)
      ensures r.Fail? ==> r.error == BrokerError
      ensures r.Fail? ==> broker.log == old(broker.log) + Issued(InitPlan(msgBrokerUrl), failAt)
                            + Issued(ClosePlan(hasChannel, hasConnection), cleanupFailAt)
    {
      var ok := Setup(failAt);
      if ok {
        IssuedAppend(InitPlan(msgBrokerUrl), [Consume(RequestQueue, false)], failAt);
        ListenForRequests(failAt == 5);
        r := Pass;
      } else {
        Cleanup(cleanupFailAt);
        r := Fail(BrokerError);
      }
    }

    /** The `try` block of `init` up to `listenForRequests`: the call at
        index `failAt` of `InitPlan` is the first the broker rejects. */
    method Setup(failAt: nat) returns (ok: bool)
      modifies this, broker
      ensures broker.log == old(broker.log) + Issued(InitPlan(msgBrokerUrl), failAt)
      ensures ok <==> failAt >= |InitPlan(msgBrokerUrl)|
      ensures hasConnection == (old(hasConnection) || failAt >= 1)
      ensures hasChannel == (old(hasChannel) || failAt >= 2)
    {
      ok := broker.Call(Connect(msgBrokerUrl), failAt == 0);
      if ok {
        hasConnection := true;
        ok := broker.Call(CreateChannel, failAt == 1);
      }
      if ok {
        hasChannel := true;
        ok := broker.Call(AssertQueue(RequestQueue, true), failAt == 2);
      }
      if ok {
        ok := broker.Call(AssertQueue(ResponseQueue, true), failAt == 3);
      }
      if ok {
        ok := broker.Call(Prefetch(1), failAt == 4);
      }
    }

    /** `listenForRequests`: register the request consumer, with manual
        acknowledgment; a rejected registration goes unobserved. */
    method ListenForRequests(fail: bool)
      modifies broker
      ensures broker.log == old(broker.log) + (if fail then [] else [Consume(RequestQueue, false)])
    {
      var _ := broker.Call(Consume(RequestQueue, false), fail);
    }

    /** `cleanup`: close the channel, then the connection, each only if set;
        the first rejected close ends it, and its error is swallowed. */
    method Cleanup(failAt: nat)
      modifies broker
      ensures broker.log == old(broker.log) + Issued(ClosePlan(hasChannel, hasConnection), failAt)
    {
      var ok := true;
      if hasChannel {
        ok := broker.Call(CloseChannel, failAt == 0);
      }
      if ok && hasConnection {
        ok := broker.Call(CloseConnection, failAt == (if hasChannel then 1 else 0));
      }
    }

    /** `shutdown`: the graceful stop, which is `cleanup`. */
    method Shutdown(failAt: nat)
      modifies broker
      ensures broker.log == old(broker.log) + Issued(ClosePlan(hasChannel, hasConnection), failAt)
    {
      Cleanup(failAt);
    }

    /**
     * The consume callback for one delivery. A null delivery does nothing.
     * Otherwise the outcome is decided by parsing and lookup: a found user
     * is replied to and acked; "not found" is acked and then answered with
     * an error body; anything else, including a rejected reply to a found
     * user, is nacked with requeue. `r` fails only when the "not found"
     * reply is rejected: that exception escapes the callback.
     */
    method OnRequest(msg: Option<Message>, decoded: Option<string>, store: UserStore, sendFails: bool)
      returns (r: Outcome)
      modifies broker
      ensures msg.None? ==> broker.log == old(broker.log) && r.Pass?
      ensures msg.Some? ==>
                broker.log == old(broker.log) + RequestOps(msg.value, Lookup(decoded, store), !sendFails)
      ensures r.Fail? <==> msg.Some? && Lookup(decoded, store).NotFound? && sendFails
    {
      if msg.None? {
        return Pass;
      }
      var m := msg.value;
      var caught: Option<Error> := None;
      match decoded {
        case None =>
          caught := Some(SyntaxError);
        case Some(userId) =>
          var details := GetUserDetails(store, userId);
          if details.Err? {
            caught := Some(details.error);
          } else {
            var sent := broker.Call(SendToQueue(ResponseQueue, JsonObject(details.value), ReplyOptions(m)), sendFails);
            if sent {
              var _ := broker.Call(Ack(m.tag), false);
            } else {
              caught := Some(BrokerError);
            }
          }
      }
      r := Pass;
      if caught.Some? {
        if IsNotFound(caught.value) {
          var _ := broker.Call(Ack(m.tag), false);
          var sent := broker.Call(SendToQueue(ResponseQueue, NotFoundBody(), ReplyOptions(m)), sendFails);
          if !sent {
            r := Fail(BrokerError);
          }
        } else {
          var _ := broker.Call(Requeue(m), false);
        }
      }
    }
  }
}
