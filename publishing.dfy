/** The calls of `producer` and the `basic_consume` call of `consumer`. */
module Publishing {
  import opened Php
  import opened Amqp
  import opened Jobs

  const DELAY_HEADER := "x-delay"

  /** The message `producer` builds: the body, the job's content type and
      delivery mode, and an `x-delay` header holding the TTL exactly when
      delay is on and the TTL is truthy (any non-zero int, negatives too). */
  function NewMessage(job: QueueJob, body: string): (m: Message)
    ensures m.body == body && m.contentType == job.message.contentType && m.deliveryMode == job.message.deliveryMode
    ensures m.applicationHeaders.Some? <==> job.delay.enabled && IntTruthy(job.delay.ttl)
    ensures m.applicationHeaders.Some? ==> m.applicationHeaders.value == map[DELAY_HEADER := Int(job.delay.ttl)]
  {
    var headers := if job.delay.enabled && IntTruthy(job.delay.ttl) then Some(map[DELAY_HEADER := Int(job.delay.ttl)]) else None;
    Message(body, job.message.contentType, job.message.deliveryMode, headers)
  }

  /** The routing key of a publish: the routing key if truthy, else the queue name. */
  function PublishRoutingKey(job: QueueJob): (key: string)
    ensures StrTruthy(job.routing.routingKey) ==> key == job.routing.routingKey
    ensures !StrTruthy(job.routing.routingKey) ==> key == job.queue.name
  {
    if StrTruthy(job.routing.routingKey) then job.routing.routingKey else job.queue.name
  }

  /** Every call `producer` makes when none throws: one publish of the
      message to the exchange name, followed by a wait for pending acks
      exactly when publisher confirms are on. No confirm set-up and no
      declaration happens here. */
  function PublishPlan(job: QueueJob, body: string): (ops: seq<Op>)
    ensures |ops| > 0 && ops[0] == BasicPublish(NewMessage(job, body), job.exchange.name, PublishRoutingKey(job))
    ensures forall i :: 0 <= i < |ops| && ops[i].BasicPublish? ==> i == 0
    ensures job.confirm.enabled <==> WaitForPendingAcks(job.confirm.waitTime) in ops
    ensures forall op :: op in ops ==> op.BasicPublish? || op == WaitForPendingAcks(job.confirm.waitTime)
    ensures forall op :: op in ops ==> !op.IsConfirmSetup() && !op.IsTopology()
  {
    [BasicPublish(NewMessage(job, body), job.exchange.name, PublishRoutingKey(job))]
    + (if job.confirm.enabled then [WaitForPendingAcks(job.confirm.waitTime)] else [])
  }

  /** The `basic_consume` call: the job's queue, tag, flags and callback, the
      ticket only when positive, and the consumer arguments. */
  function ConsumeOp(job: QueueJob): (op: Op)
    ensures op.BasicConsume? && op.queue == job.queue.name && op.consumerTag == job.consumer.tag
    ensures op.noLocal == job.consumer.noLocal && op.noAck == job.consumer.autoAck
    ensures op.exclusive == job.consumer.exclusive && op.nowait == job.consumer.nowait
    ensures op.callback == job.consumer.callback && op.ticket == Ticket(job.consumer.ticket)
    ensures op.arguments == job.consumer.args
  {
    BasicConsume(job.queue.name, job.consumer.tag, job.consumer.noLocal, job.consumer.autoAck,
                 job.consumer.exclusive, job.consumer.nowait, job.consumer.callback,
                 Ticket(job.consumer.ticket), job.consumer.args)
  }
}
