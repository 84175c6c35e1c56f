/** `AmqpQueueService`: the registry of named managers, the current
    connection, channel and job chosen with `Connection(name)`, channel
    initialisation at registration, publishing, the start of consuming, and
    closing. */
module Service {
  import opened Php
  import opened Errors
  import opened Config
  import opened Amqp
  import opened Jobs
  import opened Topology
  import opened Publishing
  import opened Strategy

  /** One entry of `managers`. */
  datatype Manager = Manager(connection: StreamConnection, channel: Channel, queueJob: QueueJob)

  /** How opening a manager ends: an unreachable broker throws when the
      connection is made, and otherwise it ends as `initStrategy` does on the
      new channel. */
  function ConnectOutcome(job: QueueJob, b: Broker): (r: Result<()>)
    ensures r.Ok? <==>
      b.reachable && AllSucceed(InitPlan(job, DeclaredName(job.queue, b)), Refusal(b, true)) && DeclaredName(job.queue, b).Some?
    ensures r.Err? ==> r.error in {Transport, QueueNameNotString}
  {
    if !b.reachable then Err(Transport) else InitResult(job, DeclaredName(job.queue, b), Refusal(b, true))
  }

  /** How `register` ends, given the names already registered. A registered
      name fails first, whatever the configuration; then a missing or empty
      connection entry; then the connection, and last the channel
      initialisation. */
  function RegisterOutcome(keys: set<string>, config: AppConfig, job: QueueJob, b: Broker): (r: Result<()>)
    ensures job.connectName in keys ==> r == Err(ManagerExists(job.connectName))
    ensures job.connectName !in keys && !HasConnection(config, job.connectName) ==>
      r == Err(NoConnectionConfig(job.connectName))
    ensures r.Ok? <==>
      && job.connectName !in keys && HasConnection(config, job.connectName) && b.reachable
      && AllSucceed(InitPlan(job, DeclaredName(job.queue, b)), Refusal(b, true)) && DeclaredName(job.queue, b).Some?
  {
    if job.connectName in keys then Err(ManagerExists(job.connectName))
    else if !HasConnection(config, job.connectName) then Err(NoConnectionConfig(job.connectName))
    else ConnectOutcome(job, b)
  }

  /** `m` is a manager just opened for `job` with the connection entry `cfg`
      to `broker`: an open connection with the entry's parameters whose one
      channel is `m`'s, open and carrying every call of `initStrategy`. */
  ghost predicate Opened(m: Manager, cfg: ConnConfig, job: QueueJob, broker: Broker)
    reads m.connection, m.channel
  {
    && m.queueJob == job
    && m.connection.params == ConnectionParams(cfg)
    && m.connection.open && m.connection.channels == [m.channel]
    && m.channel.open && m.channel.broker == broker
    && m.channel.log == InitPlan(job, DeclaredName(job.queue, broker))
  }

  /** The connection, channel and initialisation part of `register`: a new
      connection with the entry's parameters, a channel on it, and the
      channel initialised for the job. */
  method OpenManager(cfg: ConnConfig, job: QueueJob, broker: Broker) returns (r: Result<Manager>)
    ensures r.Err? <==> ConnectOutcome(job, broker).Err?
    ensures r.Err? ==> r.error == ConnectOutcome(job, broker).error
    ensures r.Ok? ==> fresh(r.value.connection) && fresh(r.value.channel) && Opened(r.value, cfg, job, broker)
  {
    if !broker.reachable {
      return Err(Transport);
    }
    var connection := new StreamConnection(ConnectionParams(cfg), broker);
    var channel := connection.OpenChannel();
    var init := InitStrategy(channel, job);
    if init.Err? {
      return Err(init.error);
    }
    IssuedAll(InitPlan(job, DeclaredName(job.queue, broker)), Refusal(broker, true));
    r := Ok(Manager(connection, channel, job));
  }

  class AmqpQueueService {
    const config: AppConfig
    var managers: map<string, Manager>
    var connection: StreamConnection?
    var channel: Channel?
    var queueJob: Option<QueueJob>

    /** Every manager is stored under its job's connection name, every
        stored channel belongs to the connection stored with it, and so does
        the current channel to the current connection. */
    ghost predicate Valid()
      reads this, connection, set n | n in managers :: managers[n].connection
    {
      && (forall n :: n in managers ==> managers[n].queueJob.connectName == n)
      && (forall n :: n in managers ==> managers[n].channel in managers[n].connection.channels)
      && (connection != null && channel != null ==> channel in connection.channels)
    }

    constructor (config: AppConfig)
      ensures Valid() && this.config == config
      ensures managers == map[] && connection == null && channel == null && queueJob == None
    {
      this.config := config;
      managers := map[];
      connection := null;
      channel := null;
      queueJob := None;
    }

    /** `register`: open a connection and a channel for the job's connection
        name, initialise the channel, and store the triple under that name.
        A failure at any point stores nothing. */
    method Register(job: QueueJob, broker: Broker) returns (r: Result<()>)
      requires Valid()
      modifies this
      ensures Valid()
      ensures r == RegisterOutcome(old(managers).Keys, config, job, broker)
      ensures connection == old(connection) && channel == old(channel) && queueJob == old(queueJob)
      ensures r.Err? ==> managers == old(managers)
      ensures r.Ok? ==>
        && managers.Keys == old(managers).Keys + {job.connectName}
        && (forall n :: n in old(managers) ==> managers[n] == old(managers)[n])
        && var m := managers[job.connectName];
           && fresh(m.connection) && fresh(m.channel)
           && Opened(m, LookupConnection(config.connections, job.connectName).value, job, broker)
    {
      var name := job.connectName;
      if name in managers {
        return Err(ManagerExists(name));
      }
      var cfg := LookupConnection(config.connections, name);
      if cfg.None? || |cfg.value| == 0 {
        return Err(NoConnectionConfig(name));
      }
      var manager := OpenManager(cfg.value, job, broker);
      if manager.Err? {
        return Err(manager.error);
      }
      Store(manager.value);
      r := Ok(());
    }

    /** The last step of `register`: `m` stored under its job's connection
        name. */
    method Store(m: Manager)
      requires Valid() && m.channel in m.connection.channels
      modifies this
      ensures Valid()
      ensures managers == old(managers)[m.queueJob.connectName := m]
      ensures connection == old(connection) && channel == old(channel) && queueJob == old(queueJob)
    {
      managers := managers[m.queueJob.connectName := m];
    }

    /** `getManagers` as written: the property is null until the first
        registration, and the declared `array` return type then throws. */
    method GetManagersAsWritten() returns (r: Result<map<string, Manager>>)
      ensures r.Err? <==> managers == map[]
      ensures r.Err? ==> r.error == ManagersNotArray
      ensures r.Ok? ==> r.value == managers
    {
      if managers == map[] {
        return Err(ManagersNotArray);
      }
      return Ok(managers);
    }

    /** `getManagers` with the property initialised to an empty array: every
        registered manager, and nothing else. */
    method GetManagers() returns (m: map<string, Manager>)
      ensures m.Keys == managers.Keys
      ensures forall n :: n in m ==> m[n] == managers[n]
    {
      m := managers;
    }

    /** `Connection(name)`: make the stored triple the current one. */
    method Connection(name: string) returns (r: Result<()>)
      requires Valid()
      modifies this
      ensures Valid()
      ensures managers == old(managers)
      ensures name !in managers ==>
        && r == Err(ManagerNotFound(name))
        && connection == old(connection) && channel == old(channel) && queueJob == old(queueJob)
      ensures name in managers ==>
        && r == Ok(())
        && connection == managers[name].connection && channel == managers[name].channel
        && queueJob == Some(managers[name].queueJob)
    {
      if name !in managers {
        return Err(ManagerNotFound(name));
      }
      var manager := managers[name];
      connection := manager.connection;
      channel := manager.channel;
      queueJob := Some(manager.queueJob);
      r := Ok(());
    }

    /** `producer`: publish `body` on the current channel with the current
        job's settings, then wait for confirms when they are on. */
    method Producer(body: string) returns (r: Result<()>)
      requires Valid()
      modifies channel
      ensures Valid()
      ensures queueJob.None? || channel == null ==> r == Err(NullReceiver)
      ensures queueJob.None? && channel != null ==> channel.log == old(channel.log)
      ensures queueJob.Some? && channel != null ==>
        var plan, fails := PublishPlan(queueJob.value, body), Refusal(channel.broker, channel.open);
        && channel.open == old(channel.open)
        && channel.log == old(channel.log) + Issued(plan, fails)
        && r == if AllSucceed(plan, fails) then Ok(()) else Err(Transport)
    {
      if queueJob.None? {
        return Err(NullReceiver);
      }
      var job := queueJob.value;
      var message := NewMessage(job, body);
      if channel == null {
        return Err(NullReceiver);
      }
      ghost var fails := Refusal(channel.broker, channel.open);
      var publish := BasicPublish(message, job.exchange.name, PublishRoutingKey(job));
      ghost var wait := if job.confirm.enabled then [WaitForPendingAcks(job.confirm.waitTime)] else [];
      IssuedAppend([publish], wait, fails);
      var ok := channel.Call(publish);
      if !ok {
        return Err(Transport);
      }
      if job.confirm.enabled {
        ok := channel.Call(WaitForPendingAcks(job.confirm.waitTime));
        if !ok {
          return Err(Transport);
        }
      }
      r := Ok(());
    }

    /** `consumer` up to its receive loop: register the current job's
        callback with `basic_consume` on the current channel. */
    method Consumer() returns (r: Result<()>)
      requires Valid()
      modifies channel
      ensures Valid()
      ensures channel == null || queueJob.None? ==> r == Err(NullReceiver)
      ensures channel != null && queueJob.None? ==> channel.log == old(channel.log)
      ensures channel != null && queueJob.Some? ==>
        && channel.open == old(channel.open)
        && channel.log == old(channel.log) + [ConsumeOp(queueJob.value)]
        && r == if Refusal(channel.broker, channel.open).Fails(ConsumeOp(queueJob.value)) then Err(Transport) else Ok(())
    {
      if channel == null || queueJob.None? {
        return Err(NullReceiver);
      }
      var ok := channel.Call(ConsumeOp(queueJob.value));
      r := if ok then Ok(()) else Err(Transport);
    }

    /** The channels of the current connection, none when there is none. */
    function ConnectionChannels(): seq<Channel>
      reads this, connection
    {
      if connection == null then [] else connection.channels
    }

    /** `close`: the channel, then the connection. */
    method Close()
      requires Valid()
      modifies this, channel, connection, ConnectionChannels()
      ensures Valid()
      ensures channel == null && connection == null
      ensures managers == old(managers) && queueJob == old(queueJob)
      ensures old(channel) != null ==>
        !old(channel).open && old(channel).log == old(channel.log) + ClosingCalls(old(channel.open))
      ensures old(connection) != null ==>
        && !old(connection).open && old(connection).closeCalls == old(connection.closeCalls) + 1
        && old(connection).channels == old(connection.channels)
        && forall c :: c in old(connection.channels) ==> !c.open && c.log == old(c.log) + ClosingCalls(old(c.open))
    {
      ghost var closing := ConnectionChannels();
      CloseChannel();
      assert closing == ConnectionChannels();
      CloseConnection();
    }

    /** `closeConnection`: close the current connection if there is one, and
        forget it; the manager entry stays. Closing the connection closes its
        channels, the current one among them. */
    method CloseConnection()
      requires Valid()
      modifies this, connection, ConnectionChannels()
      ensures Valid()
      ensures connection == null
      ensures managers == old(managers) && channel == old(channel) && queueJob == old(queueJob)
      ensures old(connection) != null ==>
        && !old(connection).open && old(connection).closeCalls == old(connection.closeCalls) + 1
        && old(connection).channels == old(connection.channels)
        && forall c :: c in old(connection.channels) ==> !c.open && c.log == old(c.log) + ClosingCalls(old(c.open))
      ensures old(connection) != null && channel != null ==> !channel.open
    {
      if connection != null {
        connection.Close();
      }
      connection := null;
    }

    /** `closeChannel`: close the current channel if there is one, and forget
        it; the manager entry stays. */
    method CloseChannel()
      requires Valid()
      modifies this, channel
      ensures Valid()
      ensures channel == null
      ensures managers == old(managers) && connection == old(connection) && queueJob == old(queueJob)
      ensures old(channel) != null ==>
        !old(channel).open && old(channel).log == old(channel.log) + ClosingCalls(old(channel.open))
    {
      if channel != null {
        channel.Close();
      }
      channel := null;
    }
  }
}
