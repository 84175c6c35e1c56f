/** `initStrategy` with `handlerExchangeDeclare` and `handlerQueueDeclare`,
    as the calls they make on a fresh channel when none of them throws. */
module Topology {
  import opened Php
  import opened Amqp
  import opened Jobs

  const DELAYED_EXCHANGE_TYPE := "x-delayed-message"
  const DELAYED_TYPE_ARG := "x-delayed-type"
  const DEAD_LETTER_EXCHANGE_ARG := "x-dead-letter-exchange"
  const DEAD_LETTER_ROUTING_KEY_ARG := "x-dead-letter-routing-key"

  /** The exchange branch is taken when exchange name and type are both truthy. */
  predicate UsesExchange(e: ExchangeSettings)
  {
    StrTruthy(e.name) && StrTruthy(e.exchangeType)
  }

  /** Dead-lettering is set up when the flag is on and both its exchange and
      its routing key are truthy. */
  predicate DeadLetterConfigured(d: DeadLetterSettings)
  {
    d.enabled && StrTruthy(d.exchangeName) && StrTruthy(d.routingKey)
  }

  /** The `exchange_declare` call. A delayed exchange is declared with type
      x-delayed-message and remembers the configured type under
      x-delayed-type, every other argument kept; otherwise the type and the
      arguments are the job's own. */
  function ExchangeDeclareOp(e: ExchangeSettings, delay: bool): (op: Op)
    ensures op.ExchangeDeclare? && op.exchange == e.name
    ensures op.passive == e.passive && op.durable == e.durable
    ensures op.autoDelete == e.autoDelete && op.internal == e.internal
    ensures op.nowait == e.nowait && op.ticket == Ticket(e.ticket)
    ensures delay ==>
      && op.exchangeType == DELAYED_EXCHANGE_TYPE
      && op.arguments.Keys == e.args.Keys + {DELAYED_TYPE_ARG}
      && op.arguments[DELAYED_TYPE_ARG] == Str(e.exchangeType)
      && forall k :: k in e.args && k != DELAYED_TYPE_ARG ==> op.arguments[k] == e.args[k]
    ensures !delay ==> op.exchangeType == e.exchangeType && op.arguments == e.args
  {
    var exchangeType := if delay then DELAYED_EXCHANGE_TYPE else e.exchangeType;
    var arguments :=
      if delay then ArrayMerge(e.args, map[DELAYED_TYPE_ARG := Str(e.exchangeType)])
      else e.args;
    ExchangeDeclare(e.name, exchangeType, e.passive, e.durable, e.autoDelete, e.internal, e.nowait,
                    arguments, Ticket(e.ticket))
  }

  /** The `queue_declare` call. With dead-lettering configured the queue
      arguments gain the dead-letter exchange and routing key, every other
      argument kept; otherwise they are the job's own. */
  function QueueDeclareOp(q: QueueSettings, d: DeadLetterSettings): (op: Op)
    ensures op.QueueDeclare? && op.queue == q.name
    ensures op.passive == q.passive && op.durable == q.durable
    ensures op.exclusive == q.exclusive && op.autoDelete == q.autoDelete
    ensures op.nowait == q.nowait && op.ticket == Ticket(q.ticket)
    ensures DeadLetterConfigured(d) ==>
      && op.arguments.Keys == q.args.Keys + {DEAD_LETTER_EXCHANGE_ARG, DEAD_LETTER_ROUTING_KEY_ARG}
      && op.arguments[DEAD_LETTER_EXCHANGE_ARG] == Str(d.exchangeName)
      && op.arguments[DEAD_LETTER_ROUTING_KEY_ARG] == Str(d.routingKey)
      && forall k :: k in q.args && k != DEAD_LETTER_EXCHANGE_ARG && k != DEAD_LETTER_ROUTING_KEY_ARG
                     ==> op.arguments[k] == q.args[k]
    ensures !DeadLetterConfigured(d) ==> op.arguments == q.args
  {
    var arguments :=
      if DeadLetterConfigured(d) then
        ArrayMerge(q.args, map[DEAD_LETTER_EXCHANGE_ARG := Str(d.exchangeName),
                               DEAD_LETTER_ROUTING_KEY_ARG := Str(d.routingKey)])
      else
        q.args;
    QueueDeclare(q.name, q.passive, q.durable, q.exclusive, q.autoDelete, q.nowait, arguments, Ticket(q.ticket))
  }

  /** The key the queue is bound with: the queue-bind routing key if truthy,
      else the routing key. */
  function BindRoutingKey(r: RoutingSettings): (key: string)
    ensures StrTruthy(r.queueBindRoutingKey) ==> key == r.queueBindRoutingKey
    ensures !StrTruthy(r.queueBindRoutingKey) ==> key == r.routingKey
  {
    if StrTruthy(r.queueBindRoutingKey) then r.queueBindRoutingKey else r.routingKey
  }

  function QosOp(q: QosSettings): Op
  {
    BasicQos(q.prefetchSize, q.prefetchCount, q.global)
  }

  /** The handler installations of the confirm block: each handler that is
      not null. */
  function HandlerOps(c: ConfirmSettings): seq<Op>
  {
    (if c.ackHandler.Some? then [SetAckHandler(c.ackHandler.value)] else [])
    + (if c.nackHandler.Some? then [SetNackHandler(c.nackHandler.value)] else [])
  }

  /** Confirm mode and the handlers that are not null, when confirms are on. */
  function ConfirmOps(c: ConfirmSettings): seq<Op>
  {
    if c.enabled then [ConfirmSelect(c.selectNowait)] + HandlerOps(c) else []
  }

  /** The confirm block only sets up confirms; it selects confirm mode exactly
      when confirms are on, and installs a handler exactly when confirms are
      on and that handler is not null. */
  lemma ConfirmOpsShape(c: ConfirmSettings)
    ensures var ops := ConfirmOps(c);
      && (forall i :: 0 <= i < |ops| ==> ops[i].IsConfirmSetup())
      && (c.enabled <==> ConfirmSelect(c.selectNowait) in ops)
      && (!c.enabled ==> ops == [])
      && (forall h :: SetAckHandler(h) in ops <==> c.enabled && c.ackHandler == Some(h))
      && (forall h :: SetNackHandler(h) in ops <==> c.enabled && c.nackHandler == Some(h))
  {
  }

  /** The declarations: exchange, queue and binding to the queue name the
      broker answered, or the queue alone. A missing answer ends the calls
      after the queue declaration (the helper's `string` return type throws). */
  function TopologyOps(job: QueueJob, reply: Option<string>): seq<Op>
  {
    if UsesExchange(job.exchange) then
      [ExchangeDeclareOp(job.exchange, job.delay.enabled), QueueDeclareOp(job.queue, job.deadLetter)]
      + (if reply.Some? then [QueueBind(reply.value, job.exchange.name, BindRoutingKey(job.routing))] else [])
    else
      [QueueDeclareOp(job.queue, job.deadLetter)]
  }

  /** The declaration block only declares and binds. */
  lemma TopologyOpsShape(job: QueueJob, reply: Option<string>)
    ensures var t := TopologyOps(job, reply);
      && (forall i :: 0 <= i < |t| ==> t[i].IsTopology())
      && (UsesExchange(job.exchange) && reply.Some? ==>
            t == [ExchangeDeclareOp(job.exchange, job.delay.enabled), QueueDeclareOp(job.queue, job.deadLetter), QueueBind(reply.value, job.exchange.name, BindRoutingKey(job.routing))])
      && (UsesExchange(job.exchange) && reply.None? ==> t == [ExchangeDeclareOp(job.exchange, job.delay.enabled), QueueDeclareOp(job.queue, job.deadLetter)])
      && (!UsesExchange(job.exchange) ==> t == [QueueDeclareOp(job.queue, job.deadLetter)])
  {
  }

  /** Every call `initStrategy` makes when none throws, `reply` being what
      `queue_declare` returns. */
  function InitPlan(job: QueueJob, reply: Option<string>): seq<Op>
  {
    ConfirmOps(job.confirm) + [QosOp(job.qos)] + TopologyOps(job, reply)
  }

  lemma InitPlanParts(job: QueueJob, reply: Option<string>)
    ensures var c, ops := ConfirmOps(job.confirm), InitPlan(job, reply);
      && |ops| == |c| + 1 + |TopologyOps(job, reply)|
      && (forall i :: 0 <= i < |c| ==> ops[i] == c[i])
      && ops[|c|] == QosOp(job.qos)
      && (forall i :: |c| < i < |ops| ==> ops[i] == TopologyOps(job, reply)[i - |c| - 1])
  {
  }

  /** Confirm mode is selected exactly when publisher confirms are on, and an
      ack or nack handler is installed only then and only when it is not null. */
  lemma InitPlanConfirm(job: QueueJob, reply: Option<string>)
    ensures var ops := InitPlan(job, reply);
      && (job.confirm.enabled <==> ConfirmSelect(job.confirm.selectNowait) in ops)
      && (!job.confirm.enabled ==> forall op :: op in ops ==> !op.IsConfirmSetup())
      && (forall h :: SetAckHandler(h) in ops <==> job.confirm.enabled && job.confirm.ackHandler == Some(h))
      && (forall h :: SetNackHandler(h) in ops <==> job.confirm.enabled && job.confirm.nackHandler == Some(h))
  {
    ConfirmOpsShape(job.confirm);
    TopologyOpsShape(job, reply);
    var c, t := ConfirmOps(job.confirm), TopologyOps(job, reply);
    var ops := InitPlan(job, reply);
    assert forall op :: op in ops <==> op in c || op == QosOp(job.qos) || op in t;
  }

  /** QoS is set exactly once, after all confirm set-up and before every
      declaration. */
  lemma InitPlanQos(job: QueueJob, reply: Option<string>)
    ensures var ops := InitPlan(job, reply);
      exists q ::
        && 0 <= q < |ops| && ops[q] == BasicQos(job.qos.prefetchSize, job.qos.prefetchCount, job.qos.global)
        && (forall i :: 0 <= i < q ==> ops[i].IsConfirmSetup())
        && (forall i :: q < i < |ops| ==> ops[i].IsTopology())
  {
    InitPlanParts(job, reply);
    ConfirmOpsShape(job.confirm);
    TopologyOpsShape(job, reply);
    var q := |ConfirmOps(job.confirm)|;
    assert InitPlan(job, reply)[q] == QosOp(job.qos);
  }

  /** With an exchange, the calls end with QoS, the exchange declaration, the
      queue declaration and the binding of the broker's queue name under the
      bind routing key; without an answer from `queue_declare` they stop after
      the queue declaration. */
  lemma InitPlanExchangeBranch(job: QueueJob, reply: Option<string>)
    requires UsesExchange(job.exchange)
    ensures var ops, qos := InitPlan(job, reply), BasicQos(job.qos.prefetchSize, job.qos.prefetchCount, job.qos.global);
      && (reply.Some? ==>
            && |ops| >= 4
            && ops[|ops| - 4..] == [qos, ExchangeDeclareOp(job.exchange, job.delay.enabled), QueueDeclareOp(job.queue, job.deadLetter),
                                    QueueBind(reply.value, job.exchange.name, BindRoutingKey(job.routing))])
      && (reply.None? ==>
            && |ops| >= 3
            && ops[|ops| - 3..] == [qos, ExchangeDeclareOp(job.exchange, job.delay.enabled), QueueDeclareOp(job.queue, job.deadLetter)])
  {
    TopologyOpsShape(job, reply);
    var c, t := ConfirmOps(job.confirm), TopologyOps(job, reply);
    assert InitPlan(job, reply)[|c|..] == [QosOp(job.qos)] + t;
  }

  /** Without an exchange, the calls end with QoS and the queue declaration,
      and no exchange is declared and nothing is bound. */
  lemma InitPlanQueueBranch(job: QueueJob, reply: Option<string>)
    requires !UsesExchange(job.exchange)
    ensures var ops := InitPlan(job, reply);
      && |ops| >= 2
      && ops[|ops| - 2..] == [BasicQos(job.qos.prefetchSize, job.qos.prefetchCount, job.qos.global), QueueDeclareOp(job.queue, job.deadLetter)]
      && forall op :: op in ops ==> !op.ExchangeDeclare? && !op.QueueBind?
  {
    TopologyOpsShape(job, reply);
    var c, t := ConfirmOps(job.confirm), TopologyOps(job, reply);
    var ops := InitPlan(job, reply);
    assert ops[|c|..] == [QosOp(job.qos)] + t;
    assert forall op :: op in ops <==> op in c || op == QosOp(job.qos) || op in t;
  }
}
