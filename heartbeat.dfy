/** `Heartbeat::start`, the bootstrap that registers one job per configured
    connection when the main webman worker starts. */
module Heartbeat {
  import opened Php
  import opened Errors
  import opened Config
  import opened Amqp
  import opened Jobs
  import opened Service

  const MAIN_WORKER := "webman"

  /** The three guards: the worker is the main webman worker, `enable` is
      exactly the boolean true, and `connections` is set and not empty. A
      null worker reads its name as null, which is not "webman". */
  predicate Starts(worker: Option<string>, config: AppConfig)
  {
    worker == Some(MAIN_WORKER) && config.enable == Bool(true) && |config.connections| > 0
  }

  /** `new $connection["instance"]`: the job class the entry names, or None
      when that throws (no such class, or a name that is not a string).
      `classes` maps each loadable class name to the job its constructor
      builds. */
  function Instantiate(classes: map<string, QueueJob>, entry: ConnConfig): (job: Option<QueueJob>)
    ensures job.Some? <==> "instance" in entry && entry["instance"].Str? && entry["instance"].s in classes
    ensures job.Some? ==> job.value == classes[entry["instance"].s]
  {
    var name := Index(entry, "instance");
    if name.Str? && name.s in classes then Some(classes[name.s]) else None
  }

  /** The broker a connection registered under `name` reaches; a name with
      no broker behind it cannot be connected to. */
  function BrokerFor(brokers: map<string, Broker>, name: string): (b: Broker)
    ensures name !in brokers ==> !b.reachable
    ensures name in brokers ==> b == brokers[name]
  {
    if name in brokers then brokers[name] else Broker(false, {}, None)
  }

  /** One pass of the loop, with `keys` registered so far: the job it
      registers, or None when building the job or registering it throws. */
  function Step(keys: set<string>, config: AppConfig, entry: ConnConfig,
                classes: map<string, QueueJob>, brokers: map<string, Broker>): (r: Option<QueueJob>)
    ensures r.Some? ==> r == Instantiate(classes, entry) && r.value.connectName !in keys
  {
    var job := Instantiate(classes, entry);
    if job.None? then None
    else if RegisterOutcome(keys, config, job.value, BrokerFor(brokers, job.value.connectName)).Err? then None
    else job
  }

  /** A pass of the loop as a function of the names registered so far and
      the entry. */
  type Pass = (set<string>, ConnConfig) -> Option<QueueJob>

  /** The pass `start` makes for the given configuration, classes and brokers. */
  function StartPass(config: AppConfig, classes: map<string, QueueJob>, brokers: map<string, Broker>): Pass
  {
    (keys: set<string>, entry: ConnConfig) => Step(keys, config, entry, classes, brokers)
  }

  /** A pass never registers a name that is already taken. */
  lemma StartPassFresh(config: AppConfig, classes: map<string, QueueJob>, brokers: map<string, Broker>)
    ensures forall keys, entry :: StartPass(config, classes, brokers)(keys, entry).Some? ==>
      StartPass(config, classes, brokers)(keys, entry).value.connectName !in keys
  {
  }

  /** The connect names of `jobs`. */
  function Names(jobs: seq<QueueJob>): set<string>
  {
    if |jobs| == 0 then {} else {jobs[0].connectName} + Names(jobs[1..])
  }

  /** The names of two runs of jobs are the names of each. */
  lemma {:induction false} NamesAppend(a: seq<QueueJob>, b: seq<QueueJob>)
    ensures Names(a + b) == Names(a) + Names(b)
  {
    if |a| == 0 {
      assert a + b == b;
    } else {
      assert (a + b)[1..] == a[1..] + b;
      NamesAppend(a[1..], b);
    }
  }

  /** Registering one more job adds its name. */
  lemma NamesSnoc(jobs: seq<QueueJob>, job: QueueJob)
    ensures Names(jobs + [job]) == Names(jobs) + {job.connectName}
  {
    NamesAppend(jobs, [job]);
    assert [job][1..] == [];
  }

  lemma AppendAssoc(a: seq<QueueJob>, b: seq<QueueJob>, c: seq<QueueJob>)
    ensures a + (b + c) == (a + b) + c
  {
  }

  /** A name is among the names exactly when some job carries it. */
  lemma {:induction false} NamesIn(jobs: seq<QueueJob>, n: string)
    ensures n in Names(jobs) <==> exists i :: 0 <= i < |jobs| && jobs[i].connectName == n
  {
    if |jobs| > 0 {
      NamesIn(jobs[1..], n);
      if n in Names(jobs[1..]) {
        var i :| 0 <= i < |jobs[1..]| && jobs[1..][i].connectName == n;
        assert jobs[i + 1].connectName == n;
      }
      assert forall i :: 0 < i < |jobs| ==> jobs[i] == jobs[1..][i - 1];
    }
  }

  /** The jobs a loop of passes registers over `entries`, in order: it stops
      at the first pass that throws, the catch-all around it ending `start`. */
  function Registrations(keys: set<string>, entries: seq<(string, ConnConfig)>, pass: Pass): seq<QueueJob>
    decreases |entries|
  {
    if |entries| == 0 then []
    else
      match pass(keys, entries[0].1)
      case None => []
      case Some(job) => [job] + Registrations(keys + {job.connectName}, entries[1..], pass)
  }

  /** The loop registers, in configuration order, the job of each entry up
      to the first pass that throws: the job at each position is what the
      pass gives for that entry with the names before it taken. */
  lemma {:induction false} RegistrationsPasses(keys: set<string>, entries: seq<(string, ConnConfig)>, pass: Pass)
    ensures |Registrations(keys, entries, pass)| <= |entries|
    ensures forall i :: 0 <= i < |Registrations(keys, entries, pass)| ==>
      pass(keys + Names(Registrations(keys, entries, pass)[..i]), entries[i].1) == Some(Registrations(keys, entries, pass)[i])
    decreases |entries|
  {
    if |entries| > 0 && pass(keys, entries[0].1).Some? {
      var job := pass(keys, entries[0].1).value;
      var keys' := keys + {job.connectName};
      var rest := Registrations(keys', entries[1..], pass);
      RegistrationsPasses(keys', entries[1..], pass);
      var jobs := [job] + rest;
      assert Registrations(keys, entries, pass) == jobs;
      assert keys + Names(jobs[..0]) == keys;
      forall i | 0 < i < |jobs|
        ensures pass(keys + Names(jobs[..i]), entries[i].1) == Some(jobs[i])
      {
        assert jobs[..i][1..] == rest[..i - 1];
        assert keys + Names(jobs[..i]) == keys' + Names(rest[..i - 1]);
        assert entries[i] == entries[1..][i - 1];
      }
    }
  }

  /** When the loop stops before the last entry, the next pass throws, with
      the names of all the registered jobs taken. */
  lemma {:induction false} RegistrationsStop(keys: set<string>, entries: seq<(string, ConnConfig)>, pass: Pass)
    ensures |Registrations(keys, entries, pass)| < |entries| ==>
      pass(keys + Names(Registrations(keys, entries, pass)), entries[|Registrations(keys, entries, pass)|].1).None?
    decreases |entries|
  {
    if |entries| > 0 && pass(keys, entries[0].1).Some? {
      var job := pass(keys, entries[0].1).value;
      var keys' := keys + {job.connectName};
      var rest := Registrations(keys', entries[1..], pass);
      RegistrationsStop(keys', entries[1..], pass);
      var jobs := [job] + rest;
      assert Registrations(keys, entries, pass) == jobs;
      assert jobs[1..] == rest;
      assert keys + Names(jobs) == keys' + Names(rest);
      if |jobs| < |entries| {
        assert entries[|jobs|] == entries[1..][|rest|];
      }
    } else {
      assert keys + Names([]) == keys;
    }
  }

  /** With passes that never register a taken name, every registered name is
      new: none was registered before the loop, and no two registered jobs
      share one. */
  lemma {:induction false} RegistrationsFresh(keys: set<string>, entries: seq<(string, ConnConfig)>, pass: Pass)
    requires forall k, e :: pass(k, e).Some? ==> pass(k, e).value.connectName !in k
    ensures forall i :: 0 <= i < |Registrations(keys, entries, pass)| ==> Registrations(keys, entries, pass)[i].connectName !in keys
    ensures forall i, j :: 0 <= i < j < |Registrations(keys, entries, pass)| ==>
      Registrations(keys, entries, pass)[i].connectName != Registrations(keys, entries, pass)[j].connectName
    decreases |entries|
  {
    if |entries| > 0 && pass(keys, entries[0].1).Some? {
      var job := pass(keys, entries[0].1).value;
      var keys' := keys + {job.connectName};
      var rest := Registrations(keys', entries[1..], pass);
      RegistrationsFresh(keys', entries[1..], pass);
      var jobs := [job] + rest;
      forall i | 0 < i < |jobs|
        ensures jobs[i].connectName !in keys && jobs[i].connectName != job.connectName
      {
        assert jobs[i] == rest[i - 1];
      }
      forall i, j | 0 < i < j < |jobs|
        ensures jobs[i].connectName != jobs[j].connectName
      {
        assert jobs[i] == rest[i - 1] && jobs[j] == rest[j - 1];
      }
    }
  }

  /** `managers` is `managers0` with the jobs `jobs` registered: the names
      are those of `managers0` and of the jobs, the entries of `managers0`
      are untouched, and each job is stored under its connect name. */
  ghost predicate Extends(managers: map<string, Manager>, managers0: map<string, Manager>, jobs: seq<QueueJob>)
  {
    && managers.Keys == managers0.Keys + Names(jobs)
    && (forall n :: n in managers0 ==> managers[n] == managers0[n])
    && (forall k :: 0 <= k < |jobs| ==> jobs[k].connectName in managers && managers[jobs[k].connectName].queueJob == jobs[k])
  }

  /** Storing one more job under a new name extends the registry by it. */
  lemma ExtendsSnoc(managers0: map<string, Manager>, before: map<string, Manager>, after: map<string, Manager>,
                    jobs: seq<QueueJob>, job: QueueJob)
    requires Extends(before, managers0, jobs)
    requires after.Keys == before.Keys + {job.connectName}
    requires forall n :: n in before ==> after[n] == before[n]
    requires job.connectName in after && after[job.connectName].queueJob == job
    ensures Extends(after, managers0, jobs + [job])
  {
    NamesSnoc(jobs, job);
    forall k | 0 <= k < |jobs + [job]|
      ensures (jobs + [job])[k].connectName in after && after[(jobs + [job])[k].connectName].queueJob == (jobs + [job])[k]
    {
      if k < |jobs| {
        assert (jobs + [job])[k] == jobs[k];
      }
    }
  }

  /** One pass of the loop, on the first of the entries left: build the
      entry's job and register it. A registered job extends the registry
      and is the first of the jobs the remaining entries register; a pass
      that throws leaves the registry as it was and ends the loop. */
  method RegisterEntry(service: AmqpQueueService, entries: seq<(string, ConnConfig)>,
                       classes: map<string, QueueJob>, brokers: map<string, Broker>,
                       ghost managers0: map<string, Manager>, ghost done: seq<QueueJob>)
    returns (job: Option<QueueJob>)
    requires |entries| > 0
    requires service.Valid() && Extends(service.managers, managers0, done)
    modifies service
    ensures service.Valid()
    ensures service.connection == old(service.connection) && service.channel == old(service.channel)
    ensures service.queueJob == old(service.queueJob)
    ensures job == StartPass(service.config, classes, brokers)(old(service.managers).Keys, entries[0].1)
    ensures job.None? ==>
      && service.managers == old(service.managers)
      && Registrations(old(service.managers).Keys, entries, StartPass(service.config, classes, brokers)) == []
    ensures job.Some? ==>
      && Extends(service.managers, managers0, done + [job.value])
      && Registrations(old(service.managers).Keys, entries, StartPass(service.config, classes, brokers))
         == [job.value] + Registrations(service.managers.Keys, entries[1..], StartPass(service.config, classes, brokers))
  {
    ghost var before := service.managers;
    assert StartPass(service.config, classes, brokers)(before.Keys, entries[0].1)
        == Step(before.Keys, service.config, entries[0].1, classes, brokers);
    job := Instantiate(classes, entries[0].1);
    if job.None? {
      return;
    }
    var registered := service.Register(job.value, BrokerFor(brokers, job.value.connectName));
    if registered.Err? {
      job := None;
      return;
    }
    ExtendsSnoc(managers0, before, service.managers, done, job.value);
  }

  /** `Heartbeat::start`: nothing happens unless the guards hold; then each
      connection entry's job is registered in order until one throws, and
      the error is swallowed. Registrations made before it stay. */
  method Start(worker: Option<string>, service: AmqpQueueService,
               classes: map<string, QueueJob>, brokers: map<string, Broker>)
    requires service.Valid()
    modifies service
    ensures service.Valid()
    ensures service.connection == old(service.connection) && service.channel == old(service.channel)
    ensures service.queueJob == old(service.queueJob)
    ensures !Starts(worker, service.config) ==> service.managers == old(service.managers)
    ensures Starts(worker, service.config) ==>
      Extends(service.managers, old(service.managers),
              Registrations(old(service.managers).Keys, service.config.connections, StartPass(service.config, classes, brokers)))
  {
    if worker != Some(MAIN_WORKER) {
      return;
    }
    if service.config.enable != Bool(true) {
      return;
    }
    if |service.config.connections| == 0 {
      return;
    }
    RegisterAll(service, classes, brokers);
  }

  /** The `foreach` of `start` inside its try block: register each entry's
      job in order, and stop at the first pass that throws. */
  method RegisterAll(service: AmqpQueueService, classes: map<string, QueueJob>, brokers: map<string, Broker>)
    requires service.Valid()
    modifies service
    ensures service.Valid()
    ensures service.connection == old(service.connection) && service.channel == old(service.channel)
    ensures service.queueJob == old(service.queueJob)
    ensures Extends(service.managers, old(service.managers),
                    Registrations(old(service.managers).Keys, service.config.connections, StartPass(service.config, classes, brokers)))
  {
    var connections := service.config.connections;
    ghost var managers0 := service.managers;
    ghost var pass := StartPass(service.config, classes, brokers);
    ghost var done: seq<QueueJob> := [];
    var i := 0;
    while i < |connections|
      invariant 0 <= i <= |connections|
      invariant service.Valid()
      invariant service.connection == old(service.connection) && service.channel == old(service.channel)
      invariant service.queueJob == old(service.queueJob)
      invariant Registrations(managers0.Keys, connections, pass) == done + Registrations(service.managers.Keys, connections[i..], pass)
      invariant Extends(service.managers, managers0, done)
    {
      assert connections[i..][1..] == connections[i + 1..];
      var job := RegisterEntry(service, connections[i..], classes, brokers, managers0, done);
      if job.None? {
        assert done + [] == done;
        break;
      }
      ghost var rest := Registrations(service.managers.Keys, connections[i + 1..], pass);
      AppendAssoc(done, [job.value], rest);
      done := done + [job.value];
      i := i + 1;
    }
    assert connections[|connections|..] == [] && done + [] == done;
  }
}
