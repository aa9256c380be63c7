/** Exchanges, queues and bindings; the publisher that sets them up and publishes into the two delay queues. */
module RabbitMq {
  import opened Domain
  import Delay

  const WAIT_EXCHANGE := "wait.exchange"
  const RETRY_EXCHANGE := "retry.exchange"
  const NOTIFICATIONS_EXCHANGE := "notifications.exchange"
  const NOTIFICATIONS_QUEUE := "notifications.queue.process"
  const WAIT_QUEUE := "wait.queue.delay"
  const RETRY_QUEUE := "retry.queue.delay"

  /** One declaration the publisher makes on its channel. */
  datatype Declaration =
    | Exchange(name: string)
    | QueueOf(name: string, deadLetterExchange: Option<string>)
    | Bind(queue: string, key: string, exchange: string)

  datatype Binding = Binding(queue: string, key: string, exchange: string)

  datatype Topology = Topology(exchanges: set<string>, queues: map<string, Option<string>>, bindings: set<Binding>)

  const EMPTY := Topology({}, map[], {})

  function Declare(t: Topology, d: Declaration): Topology {
    match d
    case Exchange(name) => t.(exchanges := t.exchanges + {name})
    case QueueOf(name, dlx) => t.(queues := t.queues[name := dlx])
    case Bind(queue, key, exchange) => t.(bindings := t.bindings + {Binding(queue, key, exchange)})
  }

  function DeclareAll(t: Topology, ds: seq<Declaration>): Topology {
    if ds == [] then t else Declare(DeclareAll(t, ds[..|ds|-1]), ds[|ds|-1])
  }

  const DECLARATIONS: seq<Declaration> := [
    Exchange(NOTIFICATIONS_EXCHANGE), Exchange(WAIT_EXCHANGE), Exchange(RETRY_EXCHANGE),
    QueueOf(NOTIFICATIONS_QUEUE, None),
    QueueOf(WAIT_QUEUE, Some(NOTIFICATIONS_EXCHANGE)),
    QueueOf(RETRY_QUEUE, Some(NOTIFICATIONS_EXCHANGE)),
    Bind(NOTIFICATIONS_QUEUE, "", NOTIFICATIONS_EXCHANGE),
    Bind(WAIT_QUEUE, "", WAIT_EXCHANGE),
    Bind(RETRY_QUEUE, "", RETRY_EXCHANGE)]

  /** A direct exchange routes to the queues bound with exactly the message's key
      (section 3.1.3.1 of the AMQP 0-9-1 specification). */
  function Route(t: Topology, exchange: string, key: string): set<string> {
    set b | b in t.bindings && b.exchange == exchange && b.key == key :: b.queue
  }

  /** Where an expired message goes: to the dead-letter exchange, with its own key. */
  function Hop(t: Topology, queue: string, key: string): set<string> {
    if queue in t.queues && t.queues[queue].Some? then Route(t, t.queues[queue].value, key) else {}
  }

  const READY: Topology := Topology(
    {NOTIFICATIONS_EXCHANGE, WAIT_EXCHANGE, RETRY_EXCHANGE},
    map[NOTIFICATIONS_QUEUE := None,
        WAIT_QUEUE := Some(NOTIFICATIONS_EXCHANGE),
        RETRY_QUEUE := Some(NOTIFICATIONS_EXCHANGE)],
    {Binding(NOTIFICATIONS_QUEUE, "", NOTIFICATIONS_EXCHANGE), Binding(WAIT_QUEUE, "", WAIT_EXCHANGE),
     Binding(RETRY_QUEUE, "", RETRY_EXCHANGE)})

  lemma {:induction false} DeclareAllStep(t: Topology, ds: seq<Declaration>, k: nat)
    requires k < |ds|
    ensures DeclareAll(t, ds[..k+1]) == Declare(DeclareAll(t, ds[..k]), ds[k])
  {
    assert ds[..k+1][..k] == ds[..k];
  }

  /** The nine declarations build the intended topology on an empty broker. */
  lemma DeclaresReady()
    ensures DeclareAll(EMPTY, DECLARATIONS) == READY
  {
    var ds := DECLARATIONS;
    assert DeclareAll(EMPTY, ds[..0]) == EMPTY && ds[..9] == ds;
    hide DeclareAll;
    DeclareAllStep(EMPTY, ds, 0); DeclareAllStep(EMPTY, ds, 1); DeclareAllStep(EMPTY, ds, 2);
    DeclareAllStep(EMPTY, ds, 3); DeclareAllStep(EMPTY, ds, 4); DeclareAllStep(EMPTY, ds, 5);
    DeclareAllStep(EMPTY, ds, 6); DeclareAllStep(EMPTY, ds, 7); DeclareAllStep(EMPTY, ds, 8);
  }

  /** On that topology only the empty key routes; a message published to the wait or the retry exchange sits in
      that one delay queue, then in the processing queue, and nowhere else; and no message ever takes a second hop. */
  lemma Routing(exchange: string, key: string)
    ensures Route(READY, WAIT_EXCHANGE, "") == {WAIT_QUEUE} && Route(READY, RETRY_EXCHANGE, "") == {RETRY_QUEUE}
    ensures Hop(READY, WAIT_QUEUE, "") == Hop(READY, RETRY_QUEUE, "") == {NOTIFICATIONS_QUEUE}
    ensures Route(READY, "wait.exchange", "") == {"wait.queue.delay"}
    ensures Route(READY, "retry.exchange", "") == {"retry.queue.delay"}
    ensures Hop(READY, "wait.queue.delay", "") == Hop(READY, "retry.queue.delay", "") == {"notifications.queue.process"}
    ensures Route(READY, exchange, key) != {} ==>
      key == "" && exchange in {"wait.exchange", "retry.exchange", "notifications.exchange"}
    ensures forall q | q in Route(READY, exchange, key) ::
      forall r | r in Hop(READY, q, key) :: r == NOTIFICATIONS_QUEUE && Hop(READY, r, key) == {}
  {
    assert Binding(WAIT_QUEUE, "", WAIT_EXCHANGE) in READY.bindings;
    assert Binding(RETRY_QUEUE, "", RETRY_EXCHANGE) in READY.bindings;
    assert Binding(NOTIFICATIONS_QUEUE, "", NOTIFICATIONS_EXCHANGE) in READY.bindings;
  }

  datatype Publishing = Publishing(body: Notification, expiration: int)

  /** What waits in each queue, head first. */
  type Contents = map<string, seq<Publishing>>

  /** The broker as one channel sees it. */
  class Channel {
    var topology: Topology
    var contents: Contents

    constructor ()
      ensures topology == EMPTY && contents == map[]
    {
      topology, contents := EMPTY, map[];
    }

    method Apply(d: Declaration, ok: bool) returns (r: bool)
      modifies this`topology
      ensures r == ok && topology == if ok then Declare(old(topology), d) else old(topology)
    {
      if ok { topology := Declare(topology, d); }
      r := ok;
    }

    method PublishWithContext(exchange: string, key: string, msg: Publishing, o: Outcome) returns (ok: bool)
      modifies this`contents
      ensures ok == o.Done?
      ensures contents ==
        if Applied(o) then Delivered(old(contents), Route(topology, exchange, key), msg) else old(contents)
    {
      if Applied(o) { contents := Delivered(contents, Route(topology, exchange, key), msg); }
      ok := o.Done?;
    }
  }

  /** Every routed queue gets the message at its end. */
  function Delivered(contents: Contents, queues: set<string>, msg: Publishing): Contents {
    map q | q in contents.Keys + queues ::
      (if q in contents then contents[q] else []) + (if q in queues then [msg] else [])
  }

  lemma DeliveredToOne(contents: Contents, queue: string, msg: Publishing)
    ensures Delivered(contents, {queue}, msg) == contents[queue := QueueContents(contents, queue) + [msg]]
  {
    var d := Delivered(contents, {queue}, msg);
    forall q | q in d ensures d[q] == contents[queue := QueueContents(contents, queue) + [msg]][q] {
      if q != queue { assert contents[q] + [] == contents[q]; }
    }
  }

  class RabbitMQQueue {
    const ch: Channel

    constructor (ch: Channel)
      ensures this.ch == ch
    {
      this.ch := ch;
    }

    /** Declarations are made in order; the first failure, if any, is at call number `failAt` and ends the setup. */
    method SetupTopology(failAt: nat) returns (ok: bool)
      modifies ch`topology
      ensures ok <==> failAt >= |DECLARATIONS|
      ensures ch.topology == DeclareAll(old(ch.topology), if ok then DECLARATIONS else DECLARATIONS[..failAt])
    {
      var exchanges := [NOTIFICATIONS_EXCHANGE, WAIT_EXCHANGE, RETRY_EXCHANGE];
      var i := 0;
      assert DECLARATIONS[..0] == [];
      while i < |exchanges|
        invariant 0 <= i <= 3 && i <= failAt
        invariant ch.topology == DeclareAll(old(ch.topology), DECLARATIONS[..i])
      {
        assert Exchange(exchanges[i]) == DECLARATIONS[i];
        DeclareAllStep(old(ch.topology), DECLARATIONS, i);
        ok := ch.Apply(Exchange(exchanges[i]), failAt != i);
        if !ok { return; }
        i := i + 1;
      }
      DeclareAllStep(old(ch.topology), DECLARATIONS, 3);
      ok := ch.Apply(QueueOf(NOTIFICATIONS_QUEUE, None), failAt != 3);
      if !ok { return; }
      DeclareAllStep(old(ch.topology), DECLARATIONS, 4);
      ok := ch.Apply(QueueOf(WAIT_QUEUE, Some(NOTIFICATIONS_EXCHANGE)), failAt != 4);
      if !ok { return; }
      DeclareAllStep(old(ch.topology), DECLARATIONS, 5);
      ok := ch.Apply(QueueOf(RETRY_QUEUE, Some(NOTIFICATIONS_EXCHANGE)), failAt != 5);
      if !ok { return; }
      DeclareAllStep(old(ch.topology), DECLARATIONS, 6);
      ok := ch.Apply(Bind(NOTIFICATIONS_QUEUE, "", NOTIFICATIONS_EXCHANGE), failAt != 6);
      if !ok { return; }
      DeclareAllStep(old(ch.topology), DECLARATIONS, 7);
      ok := ch.Apply(Bind(WAIT_QUEUE, "", WAIT_EXCHANGE), failAt != 7);
      if !ok { return; }
      DeclareAllStep(old(ch.topology), DECLARATIONS, 8);
      ok := ch.Apply(Bind(RETRY_QUEUE, "", RETRY_EXCHANGE), failAt != 8);
      assert DECLARATIONS[..9] == DECLARATIONS;
    }

    method Publish(n: Notification, now: Time, o: Outcome) returns (ok: bool)
      requires ch.topology == READY
      modifies ch`contents
      ensures ok == o.Done?
      ensures ch.contents
           == Queued(old(ch.contents), WAIT_QUEUE, Publishing(n, Delay.PublishTtl(n.scheduledAt, now)), o)
    {
      var delay := Delay.Until(n.scheduledAt, now);
      if delay < 0 { delay := 0; }
      Routing(WAIT_EXCHANGE, "");
      DeliveredToOne(ch.contents, WAIT_QUEUE, Publishing(n, Delay.Milliseconds(delay)));
      ok := ch.PublishWithContext(WAIT_EXCHANGE, "", Publishing(n, Delay.Milliseconds(delay)), o);
    }

    method PublishRetry(n: Notification, retryDelay: int, o: Outcome) returns (ok: bool)
      requires ch.topology == READY
      modifies ch`contents
      ensures ok == o.Done?
      ensures ch.contents == Queued(old(ch.contents), RETRY_QUEUE, Publishing(n, Delay.Milliseconds(retryDelay)), o)
    {
      Routing(RETRY_EXCHANGE, "");
      DeliveredToOne(ch.contents, RETRY_QUEUE, Publishing(n, Delay.Milliseconds(retryDelay)));
      ok := ch.PublishWithContext(RETRY_EXCHANGE, "", Publishing(n, Delay.Milliseconds(retryDelay)), o);
    }
  }

  function QueueContents(contents: Contents, queue: string): seq<Publishing> {
    if queue in contents then contents[queue] else []
  }

  /** One queue got one message, no other changed. */
  function Queued(contents: Contents, queue: string, msg: Publishing, o: Outcome): Contents {
    if Applied(o) then contents[queue := QueueContents(contents, queue) + [msg]] else contents
  }
}
