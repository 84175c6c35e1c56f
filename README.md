# webman-amqp: a verified model of the AMQP queue service

`Sai97\WebManAmqp` is a webman plugin around php-amqplib. Its `AmqpQueueService`
keeps a registry of named managers. Each manager is a connection, a channel on it and
the queue job (a `QueueInterface`) the channel was set up for. `register` opens the
connection and the channel for a job and runs `initStrategy` on the channel:

- confirm mode and the confirm handlers, when publisher confirms are on;
- QoS;
- the exchange, the queue and the binding, or the queue alone.

`Connection(name)` selects a stored manager. `producer` publishes on the selected
channel. `consumer` starts consuming on it. `close`, `closeChannel` and
`closeConnection` release the current handles. `Heartbeat::start` is the bootstrap:
it registers one job per configured connection when the main webman worker starts.

The model is imperative where the service is:

- `AmqpQueueService` is a class whose `managers` map and current
  connection, channel and job are fields;
- a php-amqplib channel is a `Channel` object with a log of every call made on it;
- `register`, `initStrategy`, the two declaration helpers, `producer`, `consumer`, the
  close methods and `start` are methods that append to that log or update the fields.

Each method is proved against a specification function:

- `RegisterOutcome` and `InitPlan` for registration;
- `PublishPlan` for `producer`;
- `ConsumeOp` for `consumer`;
- `Registrations` for `start`.

Lemmas prove what the source promises about those functions.

The library and the broker are an oracle, `Amqp.Broker`. It decides three things:

- whether a connection can be opened;
- which calls throw;
- what `queue_declare` answers when it is not called with nowait.

A PHP exception is modelled with two functions:

- `Issued(ops, fails)` is the calls that actually reach the channel when the calls `ops` are made one after another and the first one that throws ends the rest;
- `AllSucceed(ops, fails)` holds when none of them throws.

Errors that PHP raises are `Errors.Error` values in a `Result`:

- the service's own `AmqpQueueException`s;
- library exceptions (`Transport`);
- a method called on null (`NullReceiver`);
- the `string` return type of `handlerQueueDeclare` receiving null (`QueueNameNotString`);
- the `array` return type of `getManagers` receiving null (`ManagersNotArray`).

Files (one module each): `php.dfy` (PHP values, truthiness, `??`, `array_merge`),
`errors.dfy`, `config.dfy` (the plugin configuration, connection parameters),
`amqp.dfy` (the library as seen by the service), `jobs.dfy` (the job's getters),
`topology.dfy` (the calls of `initStrategy` and the argument rewriting),
`publishing.dfy` (message, publish and consume calls), `strategy.dfy` (`initStrategy`
and its helpers), `service.dfy` (`AmqpQueueService`), `heartbeat.dfy`
(`Heartbeat::start`).

## Notes on the source

- `initStrategy` runs once per job, from `register` (src/AmqpQueueService.php:88), whatever
  the job is later used for. In the exchange branch it always declares the queue and binds
  it (src/AmqpQueueService.php:197-207).
- Confirm mode, the confirm handlers and QoS are all set at registration
  (src/AmqpQueueService.php:181-195). `producer` only publishes and then waits for acks
  (src/AmqpQueueService.php:138-147).
- The `x-delay` header is attached whenever the TTL is truthy, so a negative TTL gets it
  too (src/AmqpQueueService.php:130).
- `close()`, `closeChannel()` and `closeConnection()` act on the currently selected
  handles and take no name (src/AmqpQueueService.php:282-310).
- Only `Connection(name)` checks a name (src/AmqpQueueService.php:108). `producer` and
  `consumer` with nothing selected fail by calling a method on null.
- `start` requires `enable` to be exactly the boolean `true` (src/Heartbeat.php:23).
- php-amqplib's connection `close()` closes the connection's channels first. So after
  `closeConnection()` the current channel, which is the one stored in `managers`, is
  closed too, and a later `producer` call throws.

## Model

| member | source | states |
|---|---|---|
| Config.LookupConnection | src/AmqpQueueService.php:61 | The entry for a name is absent exactly when no configured connection has that name; when present it is the configured entry of that name. |
| Config.ConnectionParams | src/AmqpQueueService.php:66-84 | Host, port, user and password are read unguarded (absent reads as null). Every other parameter takes the entry's value when it is set and not null, and otherwise the default: "/", false, "AMQPLAIN", null, "en_US", 3.0, 3.0, null, false, 0, 0.0, null, null. |
| Jobs.Ticket | src/AmqpQueueService.php:167 | A ticket is passed on exactly when it is positive, and unchanged; otherwise null is passed. |
| Topology.ExchangeDeclareOp | src/AmqpQueueService.php:217-243 | The exchange is declared with the job's name, flags and ticket. With delay on, the type is x-delayed-message and the arguments are the job's arguments plus x-delayed-type = the configured type, all other keys kept. With delay off, the type and arguments are the job's. |
| Topology.QueueDeclareOp | src/AmqpQueueService.php:250-274 | The queue is declared with the job's name, flags and ticket. When dead-lettering is on and both its exchange and routing key are truthy, the arguments gain x-dead-letter-exchange and x-dead-letter-routing-key, all other keys kept. Otherwise they are the job's own. |
| Topology.BindRoutingKey | src/AmqpQueueService.php:204 | The binding key is the queue-bind routing key when truthy, else the routing key. |
| Topology.ConfirmOpsShape | src/AmqpQueueService.php:181-193 | The confirm block only sets up confirms. confirm_select(nowait) is made exactly when confirms are on. A handler is installed exactly when confirms are on and that handler is not null. |
| Topology.TopologyOpsShape | src/AmqpQueueService.php:197-210 | With exchange name and type truthy: exchange_declare, queue_declare, then queue_bind to the name the broker answered (no bind when it answered nothing). Otherwise queue_declare alone. |
| Topology.InitPlanParts | src/AmqpQueueService.php:179-211 | The calls of `initStrategy` are the confirm block, then basic_qos, then the declarations, in that order. |
| Topology.InitPlanConfirm | src/AmqpQueueService.php:181-193 | Over all of `initStrategy`: confirm_select appears iff confirms are on. No confirm set-up happens without confirms. Each handler appears iff confirms are on and that handler is set. |
| Topology.InitPlanQos | src/AmqpQueueService.php:195 | basic_qos with the job's size, count and global flag is made at one position; everything before it is confirm set-up and everything after it is a declaration or binding. |
| Topology.InitPlanExchangeBranch | src/AmqpQueueService.php:197-207 | In the exchange branch the calls end with basic_qos, exchange_declare, queue_declare and queue_bind(answered name, exchange, bind key). When queue_declare answered nothing, they end after queue_declare. |
| Topology.InitPlanQueueBranch | src/AmqpQueueService.php:208-210 | Without an exchange the calls end with basic_qos and queue_declare, and no exchange is declared and nothing is bound. |
| Amqp.IssuedShape | src/AmqpQueueService.php:179-211 | The calls that reach the channel are a prefix of the calls the code makes. They are all of them when none throws. Otherwise they end with the first call that throws, and every call before it succeeded. |
| Amqp.IssuedAppend | src/AmqpQueueService.php:137-147 | Making two runs of calls one after the other is making their concatenation: the second run is reached only if the first made all its calls. |
| Publishing.NewMessage | src/AmqpQueueService.php:124-134 | The message carries the body, content type and delivery mode. It has an x-delay header holding the TTL exactly when delay is on and the TTL is non-zero. |
| Publishing.PublishRoutingKey | src/AmqpQueueService.php:140 | The publish routing key is the routing key when truthy, else the queue name. |
| Publishing.PublishPlan | src/AmqpQueueService.php:137-147 | `producer` publishes exactly once, first, to the exchange name. It then waits for pending acks iff confirms are on. It never sets up confirms and never declares or binds. |
| Publishing.ConsumeOp | src/AmqpQueueService.php:159-169 | basic_consume gets the queue name, the consumer tag, flags, callback and arguments, and the ticket only when positive. |
| Strategy.InitResult | src/AmqpQueueService.php:179-211 | `initStrategy` ends normally iff none of its calls throws and `handlerQueueDeclare` has a queue name to return. Otherwise it ends with a library exception or the return-type error. |
| Strategy.InitStrategy | src/AmqpQueueService.php:179-211 | The channel receives exactly the calls of `initStrategy` up to the first that throws, binding the name of the corrected `handlerQueueDeclare`. The outcome is `InitResult`. |
| Strategy.ConfirmAndQos | src/AmqpQueueService.php:181-195 | The confirm block and then basic_qos reach the channel up to the first call that throws. The result says whether all succeeded. |
| Strategy.ConfirmSetup | src/AmqpQueueService.php:181-193 | The confirm block's calls reach the channel up to the first that throws. The result says whether all succeeded. |
| Strategy.InstallHandlers | src/AmqpQueueService.php:184-192 | The ack handler and then the nack handler installation (each only when not null) reach the channel up to the first that throws. |
| Strategy.DeclareTopology | src/AmqpQueueService.php:197-210 | The declaration calls reach the channel up to the first that throws. The result is a library exception, the return-type error when there is no queue name, or success. |
| Strategy.HandlerExchangeDeclare | src/AmqpQueueService.php:217-244 | Exactly the exchange_declare call is made. It succeeds iff the channel accepts it. |
| Strategy.HandlerQueueDeclareAsWritten | src/AmqpQueueService.php:250-277 | As written: exactly the queue_declare call is made. It returns the broker's queue name, a library exception when the call throws, or the return-type error when the library answers null. With nowait the library always answers null, so it always fails. |
| Strategy.HandlerQueueDeclare | src/AmqpQueueService.php:250-277 | Corrected: as written, except that with nowait it returns the job's own queue name instead of failing. |
| Strategy.NowaitInitFailsAsWritten | src/AmqpQueueService.php:250-276 | As written, no nowait job ever gets through `initStrategy`, whatever the broker does. Without an exchange, once every call succeeds, it ends with the return-type error. |
| Strategy.NowaitInitCorrected | src/AmqpQueueService.php:197-210 | Corrected, a nowait job gets through `initStrategy` exactly when none of its calls throws. An exchange job binds its own queue name. |
| Service.ConnectOutcome | src/AmqpQueueService.php:66-87 | Opening a manager succeeds iff the broker is reachable, no `initStrategy` call throws on the new channel, and there is a queue name to bind. Its errors are library exceptions or the return-type error. |
| Service.RegisterOutcome | src/AmqpQueueService.php:54-95 | A registered name fails first, whatever the configuration. Then a missing or empty connection entry fails. Success needs a new name, a non-empty entry, a reachable broker, and an `initStrategy` with no failing call and a queue name. |
| Service.OpenManager | src/AmqpQueueService.php:66-92 | It fails exactly as `ConnectOutcome` says. On success it holds a new open connection with `ConnectionParams` of the entry, whose only channel is a new open channel that received every call of `initStrategy`, and the job. |
| Service.AmqpQueueService.constructor | src/AmqpQueueService.php:42-49 | A new service has the given configuration, no managers and nothing selected. |
| Service.AmqpQueueService.Register | src/AmqpQueueService.php:54-95 | The result is `RegisterOutcome`, and the service invariant is kept. A failure stores nothing. A success adds exactly the job's connect name and leaves the other entries untouched. The new entry is a fresh open connection with the entry's parameters, its only channel (fresh, open, having received every call of `initStrategy`), and the job. The selected handles are unchanged. |
| Service.AmqpQueueService.Store | src/AmqpQueueService.php:94 | The manager is stored under its job's connection name and nothing else changes. The invariant holds afterwards: every stored channel belongs to its stored connection. |
| Service.AmqpQueueService.GetManagersAsWritten | src/AmqpQueueService.php:97-100 | As written: it fails with the return-type error exactly when no manager has been registered (the property is still null), and otherwise returns the registry. |
| Service.AmqpQueueService.GetManagers | src/AmqpQueueService.php:97-100 | Corrected: it returns exactly the registered managers, also when there are none. |
| Service.AmqpQueueService.Connection | src/AmqpQueueService.php:106-115 | An unregistered name fails and changes nothing. Otherwise the current connection, channel and job become the stored triple, so the current channel belongs to the current connection. The registry is unchanged either way. |
| Service.AmqpQueueService.Producer | src/AmqpQueueService.php:122-148 | With nothing selected it fails before any call. Otherwise the calls of `PublishPlan` reach the channel up to the first that throws, and it succeeds iff none throws. |
| Service.AmqpQueueService.Consumer | src/AmqpQueueService.php:154-169 | With nothing selected it fails before any call. Otherwise exactly `ConsumeOp` reaches the channel, and it succeeds iff that call does not throw. |
| Service.AmqpQueueService.Close | src/AmqpQueueService.php:282-286 | The current channel is closed, then the current connection with all its channels, each only if present. Each channel is sent close once, and only if it was open. Both handles are forgotten. The registry and the selected job stay. |
| Service.AmqpQueueService.CloseConnection | src/AmqpQueueService.php:292-298 | The current connection, if any, is closed once, which first closes every channel it handed out. The current channel is among them, so it ends closed. The connection is forgotten. The registry, the current channel reference and the job stay. |
| Service.AmqpQueueService.CloseChannel | src/AmqpQueueService.php:304-310 | The current channel, if any, is closed (sent close only if it was open) and forgotten. Nothing else changes. |
| Heartbeat.Instantiate | src/Heartbeat.php:32 | `new $connection["instance"]` succeeds exactly when the entry's instance is the name of a loadable job class, and builds that class's job. |
| Heartbeat.Step | src/Heartbeat.php:31-33 | A pass that registers a job registers the entry's own job, under a name not yet taken. |
| Heartbeat.StartPassFresh | src/Heartbeat.php:32 | A pass of `start` never registers a name already registered. |
| Heartbeat.RegistrationsPasses | src/Heartbeat.php:31-33 | The loop registers at most one job per entry, in configuration order. The job at each position is what that entry's pass gives with all earlier names taken. |
| Heartbeat.RegistrationsStop | src/Heartbeat.php:31-42 | When the loop stops before the last entry, the pass for the next entry throws: the catch-all ends the loop at the first failure. |
| Heartbeat.RegistrationsFresh | src/Heartbeat.php:31-33 | No name registered by `start` existed before, and no two registered jobs share a name. |
| Heartbeat.RegisterEntry | src/Heartbeat.php:32 | One pass: on success the registry grows by that job and the job heads the remaining registrations. On failure the registry is unchanged and the loop registers nothing more. |
| Heartbeat.RegisterAll | src/Heartbeat.php:31-33 | After the loop the registry is the old one extended by exactly `Registrations`: old entries untouched, each registered job stored under its name. |
| Heartbeat.Start | src/Heartbeat.php:16-43 | Unless the worker is "webman", `enable` is exactly true and connections are non-empty, nothing changes. Otherwise the registry is extended by exactly the jobs registered before the first failure. No error escapes, and the selected handles are untouched. |

## Left out

- php-amqplib is not modelled beyond what the service relies on. Each library call is a logged
  `Op`, and the `Broker` oracle decides what it does. A rejected call is assumed not to close
  the channel. `close()` on a channel or connection is assumed never to throw.
- Three library behaviours are modelled: `queue_declare` answers null when called with
  nowait; closing a closed channel sends nothing; a connection's `close()` closes its channels.
  The library closes the channels only while the connection is still connected. The model
  closes them on every `close()`, which is the same in every state the service can reach.
- Connection and channel opening are one `reachable` flag. `new AMQPStreamConnection`
  and `channel()` fail or succeed together.
- The blocking receive loop of `consumer` (src/AmqpQueueService.php:171-173) is network I/O that
  need not terminate. The model stops after `basic_consume`.
- The `echo`/`date` logging in `consumer` and `start` is console output and is left out.
- Floating point: the timeouts 3.0 and 0.0 are opaque literals, not numbers.
- `__destruct` (src/AmqpQueueService.php:315-320) is left out: when it runs depends on the PHP runtime.
- The constructor's `config()` call and its "configuration not found" exception
  (src/AmqpQueueService.php:44-48) are left out. The configuration is a constructor parameter.
- `Container::get` and the job classes are parameters: `start` receives the service, and `classes` maps a
  class name to the job its constructor builds. `new` on a value that is not
  a class-name string is treated as throwing.
- The brokers behind connection names are a parameter of `start` (`brokers`). A name
  without one is unreachable.
- `array_merge` renumbers integer keys. The argument maps here have string keys only.
- String getters that may return null are modelled by "", which behaves the same in every
  condition the service evaluates.
- A connection entry is modelled as an array. A non-array entry in the configuration is not modelled.
- The commented-out heartbeat timer (src/Heartbeat.php:35-38) is not implemented in the source.
- src/Install.php (copying the configuration into the application) is not part of this model.
- The helpers of `initStrategy` are module-level methods in `Strategy`: they read no field
  of the service.
- Service.AmqpQueueService.Register: it uses the corrected `handlerQueueDeclare` (see Findings), and so do
  `InitStrategy`, `ConnectOutcome`, `RegisterOutcome` and `start`. As written, a job whose queue is declared
  with nowait never registers; `HandlerQueueDeclareAsWritten` and `NowaitInitFailsAsWritten` state that.
- Heartbeat.Start: the model states which jobs end up registered and under which names.
  The per-entry connection facts are stated by `Register` and are not repeated in its ensures.

## Findings

| source | as written | input that shows it | evidently intended | confidence | as-written member | corrected member |
|---|---|---|---|---|---|---|
| src/AmqpQueueService.php:97-100 | `$managers` is never initialised, so it is null until the first successful `register`. `getManagers(): array` then returns null, which PHP's declared return type turns into a TypeError. | `getManagers()` on a fresh service, or after only failed registrations | return an empty array when nothing is registered | high, not executed | Service.AmqpQueueService.GetManagersAsWritten | Service.AmqpQueueService.GetManagers |
| src/AmqpQueueService.php:250-276 | With nowait set, php-amqplib's `queue_declare` returns null. `list($queueName)` then gives null, and the `string` return type of `handlerQueueDeclare` throws. So `register` always fails for a job whose `isQueueNowait()` is true. | a job with `isQueueNowait()` true and every call accepted by the broker | with nowait, return the job's own queue name (the one it declared) | medium, not executed | Strategy.HandlerQueueDeclareAsWritten | Strategy.HandlerQueueDeclare |
