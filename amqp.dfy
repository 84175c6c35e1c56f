/** The AMQP library (php-amqplib) as the service sees it: a channel that
    records, in order, every call the service makes on it, a connection that
    hands out channels, and a broker oracle that decides which calls fail and
    what `queue_declare` answers. */
module Amqp {
  import opened Php
  import opened Config

  /** A PHP callable (an ack, nack or message handler), kept opaque. */
  datatype Callback = Callback(id: nat)

  /** An `AMQPMessage`: the body, the two properties the producer sets, and
      the `application_headers` table when one is attached. */
  datatype Message = Message(
    body: string,
    contentType: string,
    deliveryMode: int,
    applicationHeaders: Option<map<string, Value>>)

  /** One call on a channel, with the arguments the service passes. An absent
      ticket is `None` (PHP null). */
  datatype Op =
    | ConfirmSelect(nowait: bool)
    | SetAckHandler(handler: Callback)
    | SetNackHandler(handler: Callback)
    | BasicQos(prefetchSize: int, prefetchCount: int, global: bool)
    | ExchangeDeclare(exchange: string, exchangeType: string, passive: bool, durable: bool,
                      autoDelete: bool, internal: bool, nowait: bool,
                      arguments: map<string, Value>, ticket: Option<int>)
    | QueueDeclare(queue: string, passive: bool, durable: bool, exclusive: bool,
                   autoDelete: bool, nowait: bool, arguments: map<string, Value>, ticket: Option<int>)
    | QueueBind(queue: string, exchange: string, routingKey: string)
    | BasicPublish(message: Message, exchange: string, routingKey: string)
    | WaitForPendingAcks(timeout: Value)
    | BasicConsume(queue: string, consumerTag: string, noLocal: bool, noAck: bool,
                   exclusive: bool, nowait: bool, callback: Callback, ticket: Option<int>,
                   arguments: map<string, Value>)
    | Close
  {
    /** Putting the channel in confirm mode or installing a confirm handler. */
    predicate IsConfirmSetup()
    {
      ConfirmSelect? || SetAckHandler? || SetNackHandler?
    }

    /** Declaring or binding an exchange or a queue. */
    predicate IsTopology()
    {
      ExchangeDeclare? || QueueDeclare? || QueueBind?
    }
  }

  /** What the far side does: whether a connection and a channel can be
      opened, which calls throw, and the first element of `queue_declare`'s
      reply (None when the library returns null instead of a tuple). */
  datatype Broker = Broker(reachable: bool, rejects: set<Op>, declaredQueue: Option<string>)

  /** The calls that throw on a channel: every call when it is closed, and
      the calls the broker rejects. */
  datatype CallFailure = CallFailure(open: bool, rejected: set<Op>)
  {
    predicate Fails(op: Op)
    {
      !open || op in rejected
    }
  }

  /** The failing calls on a channel to `b` in the given open state. */
  function Refusal(b: Broker, open: bool): CallFailure
  {
    CallFailure(open, b.rejects)
  }

  /** None of the calls `ops` throws. */
  predicate AllSucceed(ops: seq<Op>, fails: CallFailure)
  {
    |ops| == 0 || (!fails.Fails(ops[0]) && AllSucceed(ops[1..], fails))
  }

  /** The calls all succeed exactly when each one does. */
  lemma {:induction false} AllSucceedEach(ops: seq<Op>, fails: CallFailure)
    ensures AllSucceed(ops, fails) <==> forall i :: 0 <= i < |ops| ==> !fails.Fails(ops[i])
  {
    if |ops| > 0 {
      AllSucceedEach(ops[1..], fails);
      assert forall i :: 0 < i < |ops| ==> ops[i] == ops[1..][i - 1];
    }
  }

  /** The calls that reach the channel when the service makes the calls `ops`
      one after another and the first call that throws ends the sequence. */
  function Issued(ops: seq<Op>, fails: CallFailure): seq<Op>
  {
    if |ops| == 0 then []
    else if fails.Fails(ops[0]) then [ops[0]]
    else [ops[0]] + Issued(ops[1..], fails)
  }

  /** What reaches the channel is a prefix of the calls: all of them when none
      throws, and otherwise the calls up to and including the first that
      throws. */
  lemma {:induction false} IssuedShape(ops: seq<Op>, fails: CallFailure)
    ensures var issued := Issued(ops, fails);
      && |issued| <= |ops| && issued == ops[..|issued|]
      && (AllSucceed(ops, fails) ==> issued == ops)
      && (!AllSucceed(ops, fails) ==>
            |issued| > 0 && fails.Fails(issued[|issued| - 1]) && AllSucceed(issued[..|issued| - 1], fails))
  {
    if |ops| > 0 && !fails.Fails(ops[0]) {
      var rest := Issued(ops[1..], fails);
      IssuedShape(ops[1..], fails);
      var issued := [ops[0]] + rest;
      assert ops[..|rest| + 1] == [ops[0]] + ops[1..][..|rest|];
      if !AllSucceed(ops[1..], fails) {
        var n := |rest|;
        assert issued[..n] == [ops[0]] + rest[..n - 1];
        assert issued[..n][1..] == rest[..n - 1];
      }
    }
  }

  /** Issuing `a` and then `b` is issuing `a + b`. */
  lemma {:induction false} IssuedAppend(a: seq<Op>, b: seq<Op>, fails: CallFailure)
    ensures AllSucceed(a + b, fails) <==> AllSucceed(a, fails) && AllSucceed(b, fails)
    ensures Issued(a + b, fails) == if AllSucceed(a, fails) then a + Issued(b, fails) else Issued(a, fails)
  {
    if |a| == 0 {
      assert a + b == b;
    } else {
      assert (a + b)[0] == a[0];
      assert (a + b)[1..] == a[1..] + b;
      IssuedAppend(a[1..], b, fails);
    }
  }

  /** The first call is made; the rest are made only if it succeeds. */
  lemma IssuedCons(ops: seq<Op>, fails: CallFailure)
    requires |ops| > 0
    ensures Issued(ops, fails) == if fails.Fails(ops[0]) then [ops[0]] else [ops[0]] + Issued(ops[1..], fails)
    ensures AllSucceed(ops, fails) <==> !fails.Fails(ops[0]) && AllSucceed(ops[1..], fails)
  {
  }

  /** A single call is made, and succeeds exactly when it does not throw. */
  lemma IssuedSingle(op: Op, fails: CallFailure)
    ensures Issued([op], fails) == [op]
    ensures AllSucceed([op], fails) <==> !fails.Fails(op)
  {
    assert [op][1..] == [];
  }

  /** When no call throws, every call is made. */
  lemma {:induction false} IssuedAll(ops: seq<Op>, fails: CallFailure)
    requires AllSucceed(ops, fails)
    ensures Issued(ops, fails) == ops
  {
    if |ops| > 0 {
      IssuedAll(ops[1..], fails);
    }
  }

  /** The first element of what `queue_declare` returns: nothing when the
      call is made with nowait (the library then returns null without waiting
      for the broker), and otherwise the broker's answer. */
  function QueueDeclareReply(b: Broker, nowait: bool): Option<string>
  {
    if nowait then None else b.declaredQueue
  }

  /** An `AMQPChannel`. `log` is every call made on it, in order. */
  class Channel {
    const broker: Broker
    var log: seq<Op>
    var open: bool

    constructor (broker: Broker)
      ensures this.broker == broker && log == [] && open
    {
      this.broker := broker;
      log := [];
      open := true;
    }

    /** A call that answers nothing: it is recorded, and it throws when the
        channel is closed or the broker rejects it. */
    method Call(op: Op) returns (ok: bool)
      modifies this
      ensures log == old(log) + [op] && open == old(open)
      ensures ok == !Refusal(broker, open).Fails(op)
    {
      log := log + [op];
      ok := open && op !in broker.rejects;
    }

    /** `queue_declare`: like `Call`, and on success what the library
        returns for the queue name. */
    method CallQueueDeclare(op: Op) returns (ok: bool, reply: Option<string>)
      requires op.QueueDeclare?
      modifies this
      ensures log == old(log) + [op] && open == old(open)
      ensures ok == !Refusal(broker, open).Fails(op)
      ensures reply == if ok then QueueDeclareReply(broker, op.nowait) else None
    {
      ok := Call(op);
      reply := if ok then QueueDeclareReply(broker, op.nowait) else None;
    }

    /** `close()`: an open channel is sent a close and is closed afterwards;
        closing a closed channel does nothing. */
    method Close()
      modifies this
      ensures !open
      ensures log == old(log) + ClosingCalls(old(open))
    {
      if open {
        log := log + [Op.Close];
      }
      open := false;
    }
  }

  /** The calls `close()` sends on a channel in the given open state. */
  function ClosingCalls(open: bool): seq<Op>
  {
    if open then [Op.Close] else []
  }

  /** An `AMQPStreamConnection`, opened with `params` to the broker `broker`.
      `channels` are the channels it has handed out, in order. */
  class StreamConnection {
    const params: ConnParams
    const broker: Broker
    var open: bool
    var closeCalls: nat
    var channels: seq<Channel>

    constructor (params: ConnParams, broker: Broker)
      ensures this.params == params && this.broker == broker && open && closeCalls == 0 && channels == []
    {
      this.params := params;
      this.broker := broker;
      open := true;
      closeCalls := 0;
      channels := [];
    }

    /** `channel()`: a new open channel to the same broker, remembered by the
        connection. */
    method OpenChannel() returns (ch: Channel)
      modifies this
      ensures fresh(ch) && ch.broker == broker && ch.log == [] && ch.open
      ensures channels == old(channels) + [ch]
      ensures open == old(open) && closeCalls == old(closeCalls)
    {
      ch := new Channel(broker);
      channels := channels + [ch];
    }

    /** `close()`: every channel of the connection is closed first, then the
        connection itself. */
    method Close()
      modifies this, channels
      ensures !open && closeCalls == old(closeCalls) + 1 && channels == old(channels)
      ensures forall c :: c in channels ==> !c.open && c.log == old(c.log) + ClosingCalls(old(c.open))
    {
      var i := 0;
      while i < |channels|
        invariant 0 <= i <= |channels|
        invariant channels == old(channels) && open == old(open) && closeCalls == old(closeCalls)
        invariant forall c :: c in channels[..i] ==> !c.open && c.log == old(c.log) + ClosingCalls(old(c.open))
        invariant forall c :: c in channels[i..] && c !in channels[..i] ==> c.open == old(c.open) && c.log == old(c.log)
      {
        var c := channels[i];
        c.Close();
        assert channels[..i + 1] == channels[..i] + [c];
        i := i + 1;
      }
      assert channels[..i] == channels;
      open := false;
      closeCalls := closeCalls + 1;
    }
  }
}
