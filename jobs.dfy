/** A queue job: one value per getter of `QueueInterface` that the service
    calls, grouped by the part of the service that reads them. A getter that
    may return null for a string is modelled by "", which PHP treats the same
    way in every condition the service evaluates. */
module Jobs {
  import opened Php
  import opened Amqp

  /** The settings of `exchange_declare`. */
  datatype ExchangeSettings = ExchangeSettings(
    name: string,                             // getExchangeName
    exchangeType: string,                     // getExchangeType
    passive: bool,                            // isExchangePassive
    durable: bool,                            // isExchangeDurable
    autoDelete: bool,                         // isExchangeAutoDelete
    internal: bool,                           // isExchangeInternal
    nowait: bool,                             // isExchangeNowait
    args: map<string, Value>,                 // getExchangeArgs
    ticket: int)                              // getExchangeTicket

  /** The settings of `queue_declare`. */
  datatype QueueSettings = QueueSettings(
    name: string,                             // getQueueName
    passive: bool,                            // isQueuePassive
    durable: bool,                            // isQueueDurable
    exclusive: bool,                          // isQueueExclusive
    autoDelete: bool,                         // isQueueAutoDelete
    nowait: bool,                             // isQueueNowait
    args: map<string, Value>,                 // getQueueArgs
    ticket: int)                              // getQueueTicket

  /** The routing keys of a publish and of the queue binding. */
  datatype RoutingSettings = RoutingSettings(
    routingKey: string,                       // getRoutingKey
    queueBindRoutingKey: string)              // getQueueBindRoutingKey

  /** Delayed messages (the delayed-message exchange plugin). */
  datatype DelaySettings = DelaySettings(
    enabled: bool,                            // isDelay
    ttl: int)                                 // getDelayTTL

  /** Dead-lettering of the queue. */
  datatype DeadLetterSettings = DeadLetterSettings(
    enabled: bool,                            // isDeadLetter
    exchangeName: string,                     // getDeadLetterExchangeName
    routingKey: string)                       // getDeadLetterRoutingKey

  /** The arguments of `basic_qos`. */
  datatype QosSettings = QosSettings(
    prefetchSize: int,                        // getQosPrefetchSize
    prefetchCount: int,                       // getQosPrefetchCount
    global: bool)                             // isQosGlobal

  /** Publisher confirms. */
  datatype ConfirmSettings = ConfirmSettings(
    enabled: bool,                            // isPublisherConfirm
    selectNowait: bool,                       // getConfirmSelectNowait
    ackHandler: Option<Callback>,             // getPublisherConfirmsAckHandler
    nackHandler: Option<Callback>,            // getPublisherConfirmsNackHandler
    waitTime: Value)                          // getPublisherConfirmWaitTime

  /** The arguments of `basic_consume`, the queue name apart. */
  datatype ConsumerSettings = ConsumerSettings(
    tag: string,                              // getConsumerTag
    noLocal: bool,                            // isConsumerNoLocal
    autoAck: bool,                            // isAutoAck
    exclusive: bool,                          // isConsumerExclusive
    nowait: bool,                             // isConsumerNowait
    callback: Callback,                       // getCallback
    ticket: int,                              // getConsumerTicket
    args: map<string, Value>)                 // getConsumerArgs

  /** The properties of a published message. */
  datatype MessageSettings = MessageSettings(
    contentType: string,                      // getContentType
    deliveryMode: int)                        // getMessageDeliveryMode

  datatype QueueJob = QueueJob(
    connectName: string,                      // getConnectName
    exchange: ExchangeSettings,
    queue: QueueSettings,
    routing: RoutingSettings,
    delay: DelaySettings,
    deadLetter: DeadLetterSettings,
    qos: QosSettings,
    confirm: ConfirmSettings,
    consumer: ConsumerSettings,
    message: MessageSettings)

  /** `($ticket > 0) ? $ticket : null`: only a positive ticket is passed on. */
  function Ticket(t: int): (r: Option<int>)
    ensures r.Some? <==> t > 0
    ensures r.Some? ==> r.value == t
  {
    if t > 0 then Some(t) else None
  }
}
