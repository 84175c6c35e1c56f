/** The plugin configuration (`plugin.sai97.webman-amqp.app`) and the
    parameters the service derives from one named connection entry. */
module Config {
  import opened Php

  /** One entry of `connections`: a PHP array of settings. */
  type ConnConfig = map<string, Value>

  /** The configuration array. `connections` keeps PHP's insertion order; an
      absent `connections` key is the empty list and an absent `enable` key is
      Null (PHP's `isset` treats absent and null alike). */
  datatype AppConfig = AppConfig(enable: Value, connections: seq<(string, ConnConfig)>)

  /** `$config["connections"][$name]`, if set. */
  function LookupConnection(conns: seq<(string, ConnConfig)>, name: string): (r: Option<ConnConfig>)
    ensures r.None? <==> forall i :: 0 <= i < |conns| ==> conns[i].0 != name
    ensures r.Some? ==> exists i :: 0 <= i < |conns| && conns[i] == (name, r.value)
  {
    if |conns| == 0 then None
    else if conns[0].0 == name then Some(conns[0].1)
    else
      var r := LookupConnection(conns[1..], name);
      assert r.Some? ==> exists i :: 1 <= i < |conns| && conns[i] == (name, r.value) by {
        if r.Some? {
          var j :| 0 <= j < |conns[1..]| && conns[1..][j] == (name, r.value);
          assert conns[j + 1] == (name, r.value);
        }
      }
      r
  }

  /** Both guards of `register` on the configuration: the entry is set and not empty. */
  predicate HasConnection(config: AppConfig, name: string)
  {
    var c := LookupConnection(config.connections, name);
    c.Some? && |c.value| > 0
  }

  /** The seventeen arguments of `new AMQPStreamConnection(...)`, in order. */
  datatype ConnParams = ConnParams(
    host: Value, port: Value, user: Value, password: Value,
    vhost: Value, insist: Value, loginMethod: Value, loginResponse: Value,
    locale: Value, connectionTimeout: Value, readWriteTimeout: Value,
    context: Value, keepalive: Value, heartbeat: Value,
    channelRpcTimeout: Value, sslProtocol: Value, config: Value)

  const DEFAULT_TIMEOUT := Float("3.0")
  const DEFAULT_RPC_TIMEOUT := Float("0.0")

  /** `v` is what `$cfg[$key] ?? $default` gives. */
  predicate Defaulted(cfg: ConnConfig, key: string, default: Value, v: Value)
  {
    if key in cfg && cfg[key] != Null then v == cfg[key] else v == default
  }

  /** `v` is what the unguarded read `$cfg[$key]` gives. */
  predicate Given(cfg: ConnConfig, key: string, v: Value)
  {
    if key in cfg then v == cfg[key] else v == Null
  }

  /** The connection parameters built from an entry: host, port, user and
      password read as given, every other setting falling back to its
      documented default when it is absent or null. */
  function ConnectionParams(cfg: ConnConfig): (p: ConnParams)
    ensures Given(cfg, "host", p.host) && Given(cfg, "port", p.port)
    ensures Given(cfg, "user", p.user) && Given(cfg, "password", p.password)
    ensures Defaulted(cfg, "vhost", Str("/"), p.vhost)
    ensures Defaulted(cfg, "insist", Bool(false), p.insist)
    ensures Defaulted(cfg, "login_method", Str("AMQPLAIN"), p.loginMethod)
    ensures Defaulted(cfg, "login_response", Null, p.loginResponse)
    ensures Defaulted(cfg, "locale", Str("en_US"), p.locale)
    ensures Defaulted(cfg, "connection_timeout", DEFAULT_TIMEOUT, p.connectionTimeout)
    ensures Defaulted(cfg, "read_write_timeout", DEFAULT_TIMEOUT, p.readWriteTimeout)
    ensures Defaulted(cfg, "context", Null, p.context)
    ensures Defaulted(cfg, "keepalive", Bool(false), p.keepalive)
    ensures Defaulted(cfg, "heartbeat", Int(0), p.heartbeat)
    ensures Defaulted(cfg, "channel_rpc_timeout", DEFAULT_RPC_TIMEOUT, p.channelRpcTimeout)
    ensures Defaulted(cfg, "ssl_protocol", Null, p.sslProtocol)
    ensures Defaulted(cfg, "config", Null, p.config)
  {
    ConnParams(
      Index(cfg, "host"), Index(cfg, "port"), Index(cfg, "user"), Index(cfg, "password"),
      Coalesce(cfg, "vhost", Str("/")),
      Coalesce(cfg, "insist", Bool(false)),
      Coalesce(cfg, "login_method", Str("AMQPLAIN")),
      Coalesce(cfg, "login_response", Null),
      Coalesce(cfg, "locale", Str("en_US")),
      Coalesce(cfg, "connection_timeout", DEFAULT_TIMEOUT),
      Coalesce(cfg, "read_write_timeout", DEFAULT_TIMEOUT),
      Coalesce(cfg, "context", Null),
      Coalesce(cfg, "keepalive", Bool(false)),
      Coalesce(cfg, "heartbeat", Int(0)),
      Coalesce(cfg, "channel_rpc_timeout", DEFAULT_RPC_TIMEOUT),
      Coalesce(cfg, "ssl_protocol", Null),
      Coalesce(cfg, "config", Null))
  }

}
