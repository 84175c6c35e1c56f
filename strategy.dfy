/** `initStrategy` and the two declaration helpers it calls. They use only
    the channel and the job they are given, never the service's own fields. */
module Strategy {
  import opened Php
  import opened Errors
  import opened Amqp
  import opened Jobs
  import opened Topology

  /** The queue name `handlerQueueDeclare` returns once corrected: with
      nowait the library answers nothing, and the job's own queue name is used
      instead; otherwise the broker's answer. */
  function DeclaredName(q: QueueSettings, b: Broker): Option<string>
  {
    if q.nowait then Some(q.name) else b.declaredQueue
  }

  /** How `initStrategy` ends when the calls that throw are `fails` and
      `handlerQueueDeclare` gets `name` back: with a library exception if one
      of its calls throws, with a type error if there is no name, and normally
      otherwise. */
  function InitResult(job: QueueJob, name: Option<string>, fails: CallFailure): (r: Result<()>)
    ensures r.Ok? <==> AllSucceed(InitPlan(job, name), fails) && name.Some?
    ensures r.Err? ==> r.error == Transport || r.error == QueueNameNotString
  {
    if !AllSucceed(InitPlan(job, name), fails) then Err(Transport)
    else if name.None? then Err(QueueNameNotString)
    else Ok(())
  }

  /** As written, a job whose queue is declared with nowait never gets
      through `initStrategy`: the library answers null and the `string`
      return type of `handlerQueueDeclare` throws, whatever the broker does. */
  lemma NowaitInitFailsAsWritten(job: QueueJob, b: Broker, fails: CallFailure)
    requires job.queue.nowait
    ensures InitResult(job, QueueDeclareReply(b, job.queue.nowait), fails).Err?
    ensures !UsesExchange(job.exchange) && AllSucceed(InitPlan(job, None), fails) ==>
      InitResult(job, QueueDeclareReply(b, job.queue.nowait), fails) == Err(QueueNameNotString)
  {
  }

  /** Corrected, a nowait job gets through `initStrategy` exactly when none
      of its calls throws, and an exchange job binds its own queue name. */
  lemma NowaitInitCorrected(job: QueueJob, b: Broker, fails: CallFailure)
    requires job.queue.nowait
    ensures InitResult(job, DeclaredName(job.queue, b), fails).Ok? <==>
      AllSucceed(InitPlan(job, Some(job.queue.name)), fails)
    ensures UsesExchange(job.exchange) ==>
      QueueBind(job.queue.name, job.exchange.name, BindRoutingKey(job.routing)) in InitPlan(job, DeclaredName(job.queue, b))
  {
    if UsesExchange(job.exchange) {
      InitPlanExchangeBranch(job, DeclaredName(job.queue, b));
    }
  }

  /** `initStrategy`: the confirm set-up, QoS, then the declarations, as
      `InitPlan` lists them; the first call that throws ends the rest. */
  method InitStrategy(ch: Channel, job: QueueJob) returns (r: Result<()>)
    modifies ch
    ensures ch.open == old(ch.open)
    ensures ch.log == old(ch.log) + Issued(InitPlan(job, DeclaredName(job.queue, ch.broker)), Refusal(ch.broker, ch.open))
    ensures r == InitResult(job, DeclaredName(job.queue, ch.broker), Refusal(ch.broker, ch.open))
  {
    ghost var fails := Refusal(ch.broker, ch.open);
    IssuedAppend(ConfirmOps(job.confirm) + [QosOp(job.qos)], TopologyOps(job, DeclaredName(job.queue, ch.broker)), fails);
    var ok := ConfirmAndQos(ch, job);
    if !ok {
      return Err(Transport);
    }
    IssuedAll(ConfirmOps(job.confirm) + [QosOp(job.qos)], fails);
    r := DeclareTopology(ch, job);
  }

  /** The confirm block of `initStrategy` followed by its `basic_qos` call. */
  method ConfirmAndQos(ch: Channel, job: QueueJob) returns (ok: bool)
    modifies ch
    ensures ch.open == old(ch.open)
    ensures ch.log == old(ch.log) + Issued(ConfirmOps(job.confirm) + [QosOp(job.qos)], Refusal(ch.broker, ch.open))
    ensures ok == AllSucceed(ConfirmOps(job.confirm) + [QosOp(job.qos)], Refusal(ch.broker, ch.open))
  {
    ghost var fails := Refusal(ch.broker, ch.open);
    IssuedAppend(ConfirmOps(job.confirm), [QosOp(job.qos)], fails);
    IssuedSingle(QosOp(job.qos), fails);
    ok := ConfirmSetup(ch, job.confirm);
    if !ok {
      return;
    }
    IssuedAll(ConfirmOps(job.confirm), fails);
    ok := ch.Call(QosOp(job.qos));
  }

  /** The first block of `initStrategy`: confirm mode and the handlers that
      are not null, when publisher confirms are on. */
  method ConfirmSetup(ch: Channel, c: ConfirmSettings) returns (ok: bool)
    modifies ch
    ensures ch.open == old(ch.open)
    ensures ch.log == old(ch.log) + Issued(ConfirmOps(c), Refusal(ch.broker, ch.open))
    ensures ok == AllSucceed(ConfirmOps(c), Refusal(ch.broker, ch.open))
  {
    ghost var fails, h := Refusal(ch.broker, ch.open), HandlerOps(c);
    ok := true;
    if c.enabled {
      var select := ConfirmSelect(c.selectNowait);
      assert ConfirmOps(c) == [select] + h;
      IssuedCons([select] + h, fails);
      assert ([select] + h)[1..] == h;
      ok := ch.Call(select);
      if ok {
        ok := InstallHandlers(ch, c);
      }
    } else {
      assert |ConfirmOps(c)| == 0;
    }
  }

  /** The handler installations of the confirm block. */
  method InstallHandlers(ch: Channel, c: ConfirmSettings) returns (ok: bool)
    modifies ch
    ensures ch.open == old(ch.open)
    ensures ch.log == old(ch.log) + Issued(HandlerOps(c), Refusal(ch.broker, ch.open))
    ensures ok == AllSucceed(HandlerOps(c), Refusal(ch.broker, ch.open))
  {
    ghost var fails := Refusal(ch.broker, ch.open);
    ghost var acks := if c.ackHandler.Some? then [SetAckHandler(c.ackHandler.value)] else [];
    ghost var nacks := if c.nackHandler.Some? then [SetNackHandler(c.nackHandler.value)] else [];
    assert HandlerOps(c) == acks + nacks;
    IssuedAppend(acks, nacks, fails);
    ok := true;
    if c.ackHandler.Some? {
      var install := SetAckHandler(c.ackHandler.value);
      IssuedSingle(install, fails);
      ok := ch.Call(install);
      if !ok {
        return;
      }
    } else {
      assert |acks| == 0;
    }
    if c.nackHandler.Some? {
      var install := SetNackHandler(c.nackHandler.value);
      IssuedSingle(install, fails);
      ok := ch.Call(install);
    } else {
      assert |nacks| == 0;
    }
  }

  /** The last block of `initStrategy`: exchange, queue and binding, or the
      queue alone. */
  method DeclareTopology(ch: Channel, job: QueueJob) returns (r: Result<()>)
    modifies ch
    ensures ch.open == old(ch.open)
    ensures ch.log == old(ch.log) + Issued(TopologyOps(job, DeclaredName(job.queue, ch.broker)), Refusal(ch.broker, ch.open))
    ensures r == if !AllSucceed(TopologyOps(job, DeclaredName(job.queue, ch.broker)), Refusal(ch.broker, ch.open)) then Err(Transport)
                 else if DeclaredName(job.queue, ch.broker).None? then Err(QueueNameNotString)
                 else Ok(())
  {
    ghost var fails, reply := Refusal(ch.broker, ch.open), DeclaredName(job.queue, ch.broker);
    ghost var queue := QueueDeclareOp(job.queue, job.deadLetter);
    if UsesExchange(job.exchange) {
      ghost var binds := if reply.Some? then [QueueBind(reply.value, job.exchange.name, BindRoutingKey(job.routing))] else [];
      ghost var exchange := ExchangeDeclareOp(job.exchange, job.delay.enabled);
      assert TopologyOps(job, reply) == [exchange] + ([queue] + binds);
      IssuedCons([exchange] + ([queue] + binds), fails);
      assert ([exchange] + ([queue] + binds))[1..] == [queue] + binds;
      IssuedCons([queue] + binds, fails);
      assert ([queue] + binds)[1..] == binds;
      var ok := HandlerExchangeDeclare(ch, job);
      if !ok {
        return Err(Transport);
      }
      var queueName := HandlerQueueDeclare(ch, job);
      if queueName.Err? {
        return Err(queueName.error);
      }
      var bind := QueueBind(queueName.value, job.exchange.name, BindRoutingKey(job.routing));
      assert binds == [bind];
      IssuedSingle(bind, fails);
      ok := ch.Call(bind);
      if !ok {
        return Err(Transport);
      }
    } else {
      assert TopologyOps(job, reply) == [queue];
      IssuedSingle(queue, fails);
      var queueName := HandlerQueueDeclare(ch, job);
      if queueName.Err? {
        return Err(queueName.error);
      }
    }
    r := Ok(());
  }

  /** `handlerExchangeDeclare`. */
  method HandlerExchangeDeclare(ch: Channel, job: QueueJob) returns (ok: bool)
    modifies ch
    ensures ch.open == old(ch.open) && ch.log == old(ch.log) + [ExchangeDeclareOp(job.exchange, job.delay.enabled)]
    ensures ok == !Refusal(ch.broker, ch.open).Fails(ExchangeDeclareOp(job.exchange, job.delay.enabled))
  {
    ok := ch.Call(ExchangeDeclareOp(job.exchange, job.delay.enabled));
  }

  /** `handlerQueueDeclare` as written: the first element of what
      `queue_declare` returns, which is null when the queue is declared with
      nowait, so that the `string` return type then always throws. */
  method HandlerQueueDeclareAsWritten(ch: Channel, job: QueueJob) returns (r: Result<string>)
    modifies ch
    ensures ch.open == old(ch.open) && ch.log == old(ch.log) + [QueueDeclareOp(job.queue, job.deadLetter)]
    ensures Refusal(ch.broker, ch.open).Fails(QueueDeclareOp(job.queue, job.deadLetter)) ==> r == Err(Transport)
    ensures !Refusal(ch.broker, ch.open).Fails(QueueDeclareOp(job.queue, job.deadLetter)) ==>
      r == if !job.queue.nowait && ch.broker.declaredQueue.Some? then Ok(ch.broker.declaredQueue.value)
           else Err(QueueNameNotString)
    ensures job.queue.nowait ==> r.Err?
  {
    var ok, reply := ch.CallQueueDeclare(QueueDeclareOp(job.queue, job.deadLetter));
    if !ok {
      return Err(Transport);
    }
    if reply.None? {
      return Err(QueueNameNotString);
    }
    r := Ok(reply.value);
  }

  /** `handlerQueueDeclare`, corrected: the declared queue's name as the
      broker gives it, or the job's own queue name when it is declared with
      nowait and the library answers nothing. */
  method HandlerQueueDeclare(ch: Channel, job: QueueJob) returns (r: Result<string>)
    modifies ch
    ensures ch.open == old(ch.open) && ch.log == old(ch.log) + [QueueDeclareOp(job.queue, job.deadLetter)]
    ensures Refusal(ch.broker, ch.open).Fails(QueueDeclareOp(job.queue, job.deadLetter)) ==> r == Err(Transport)
    ensures !Refusal(ch.broker, ch.open).Fails(QueueDeclareOp(job.queue, job.deadLetter)) ==>
      r == if DeclaredName(job.queue, ch.broker).Some? then Ok(DeclaredName(job.queue, ch.broker).value)
           else Err(QueueNameNotString)
    ensures !Refusal(ch.broker, ch.open).Fails(QueueDeclareOp(job.queue, job.deadLetter)) && job.queue.nowait ==>
      r == Ok(job.queue.name)
  {
    var ok, reply := ch.CallQueueDeclare(QueueDeclareOp(job.queue, job.deadLetter));
    if !ok {
      return Err(Transport);
    }
    if reply.None? {
      if job.queue.nowait {
        return Ok(job.queue.name);
      }
      return Err(QueueNameNotString);
    }
    r := Ok(reply.value);
  }
}
