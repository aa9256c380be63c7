/** The worker: what one delivery does to the stores, the queues and the channel, and the loop over deliveries. */
module Consumer {
  import opened Domain
  import Delay
  import CacheAside
  import RabbitMq
  import Notifiers
  import Service

  datatype Settlement = Acked | Requeued | Dropped

  /** A delivery; the body is missing when it cannot be decoded. */
  datatype Delivery = Delivery(tag: nat, body: Option<Notification>)

  /** How the foreign calls inside one handleMessage turn out. */
  datatype HandleEnv = HandleEnv(
    read: CacheAside.ReadEnv,
    transportOk: bool,
    db: Outcome,
    inval: Outcome,
    publish: Outcome)

  /** The stores and queues after a delivery, how it was settled, and the result of the send if there was one. */
  datatype Handled = Handled(
    world: CacheAside.World,
    contents: RabbitMq.Contents,
    settlement: Settlement,
    sent: Option<bool>)

  /** Write a terminal status; a failure puts the original message back. */
  function Finish(w: CacheAside.World, contents: RabbitMq.Contents, n: Notification, now: Time, env: HandleEnv,
                  sent: bool): Handled
  {
    var (w1, e) := CacheAside.Update(w, n, now, env.db, env.inval);
    Handled(w1, contents, if e.Some? then Requeued else Acked, Some(sent))
  }

  function HandleUnsent(w: CacheAside.World, contents: RabbitMq.Contents, n: Notification, now: Time, env: HandleEnv)
    : Handled
  {
    var n1 := MarkUnsent(n);
    if n1.attempts >= MAX_RETRIES then Finish(w, contents, n1, now, env, false)
    else
      var msg := RabbitMq.Publishing(n1, Delay.RetryTtl(n1.attempts));
      Handled(w, RabbitMq.Queued(contents, RabbitMq.RETRY_QUEUE, msg, env.publish),
              if env.publish.Done? then Acked else Requeued, Some(false))
  }

  function Handle(w: CacheAside.World, contents: RabbitMq.Contents, body: Option<Notification>,
                  notifiers: Notifiers.Table, now: Time, env: HandleEnv): Handled
  {
    if body.None? then Handled(w, contents, Dropped, None)
    else
      var n := body.value;
      var (w1, latest) := CacheAside.Get(w, n.id, now, env.read);
      if latest.Err? || latest.value.status != Scheduled then Handled(w1, contents, Acked, None)
      else if Notifiers.Dispatch(notifiers, n, env.transportOk) == Notifiers.Accepted
      then Finish(w1, contents, MarkSent(n, now), now, env, true)
      else HandleUnsent(w1, contents, n, now, env)
  }

  datatype Job = Job(msg: Delivery, now: Time, env: HandleEnv)

  datatype Work = Work(world: CacheAside.World, contents: RabbitMq.Contents, settled: seq<(nat, Settlement)>)

  function HandleJob(work: Work, job: Job, notifiers: Notifiers.Table): Work {
    var h := Handle(work.world, work.contents, job.msg.body, notifiers, job.now, job.env);
    Work(h.world, h.contents, work.settled + [(job.msg.tag, h.settlement)])
  }

  function HandleAll(work: Work, jobs: seq<Job>, notifiers: Notifiers.Table): Work {
    if jobs == [] then work else HandleJob(HandleAll(work, jobs[..|jobs|-1], notifiers), jobs[|jobs|-1], notifiers)
  }

  /** The settlements a worker sends on its channel. */
  class WorkerChannel {
    var settled: seq<(nat, Settlement)>

    constructor ()
      ensures settled == []
    {
      settled := [];
    }

    method Ack(tag: nat)
      modifies this
      ensures settled == old(settled) + [(tag, Acked)]
    {
      settled := settled + [(tag, Acked)];
    }

    method Nack(tag: nat, requeue: bool)
      modifies this
      ensures settled == old(settled) + [(tag, if requeue then Requeued else Dropped)]
    {
      settled := settled + [(tag, if requeue then Requeued else Dropped)];
    }
  }

  class Consumer {
    const service: Service.NotificationService
    const queue: RabbitMq.RabbitMQQueue
    const notifier: Notifiers.Dispatcher

    ghost predicate Valid()
      reads this, service, service.repo, service.repo.primary, service.queue.ch, queue.ch
    {
      service.Valid() && queue.ch.topology == RabbitMq.READY
    }

    constructor (service: Service.NotificationService, queue: RabbitMq.RabbitMQQueue, notifier: Notifiers.Dispatcher)
      requires service.Valid() && queue.ch.topology == RabbitMq.READY
      ensures Valid() && this.service == service && this.queue == queue && this.notifier == notifier
    {
      this.service := service;
      this.queue := queue;
      this.notifier := notifier;
    }

    /** One delivery is handled to the end and settled exactly once. */
    method HandleMessage(msg: Delivery, ch: WorkerChannel, now: Time, env: HandleEnv) returns (sent: Option<bool>)
      requires Valid()
      modifies service.repo.primary, service.repo.cache, queue.ch`contents, ch
      ensures Valid()
      ensures var h := Handle(old(service.repo.View()), old(queue.ch.contents), msg.body, notifier.notifiers, now, env);
        && service.repo.View() == h.world && queue.ch.contents == h.contents && sent == h.sent
        && ch.settled == old(ch.settled) + [(msg.tag, h.settlement)]
    {
      if msg.body.None? {
        ch.Nack(msg.tag, false);
        return None;
      }
      var notification := msg.body.value;
      var latest := service.GetNotificationByID(notification.id, now, env.read);
      if latest.Err? || latest.value.status != Scheduled {
        ch.Ack(msg.tag);
        return None;
      }
      var r := notifier.Send(notification, env.transportOk);
      if r != Notifiers.Accepted {
        HandleSendError(notification, msg, ch, now, env);
        return Some(false);
      }
      sent := Some(true);
      notification := notification.(status := Sent, sentAt := Some(now));
      var e := service.UpdateNotification(notification, now, env.db, env.inval);
      if e.Some? {
        ch.Nack(msg.tag, true);
        return;
      }
      ch.Ack(msg.tag);
    }

    method HandleSendError(n0: Notification, msg: Delivery, ch: WorkerChannel, now: Time, env: HandleEnv)
      requires Valid()
      modifies service.repo.primary, service.repo.cache, queue.ch`contents, ch
      ensures Valid()
      ensures var h := HandleUnsent(old(service.repo.View()), old(queue.ch.contents), n0, now, env);
        && service.repo.View() == h.world && queue.ch.contents == h.contents
        && ch.settled == old(ch.settled) + [(msg.tag, h.settlement)]
    {
      var n := n0.(attempts := n0.attempts + 1);
      if n.attempts >= MAX_RETRIES {
        n := n.(status := Failed);
        var e := service.UpdateNotification(n, now, env.db, env.inval);
        if e.Some? {
          ch.Nack(msg.tag, true);
          return;
        }
        ch.Ack(msg.tag);
        return;
      }
      var backoff := Delay.Backoff(n.attempts);
      var ok := queue.PublishRetry(n, backoff, env.publish);
      if !ok {
        ch.Nack(msg.tag, true);
        return;
      }
      ch.Ack(msg.tag);
    }

    /** The worker's loop: each delivery of the stream is handled in turn and settled exactly once, in order. */
    method RunWorker(jobs: seq<Job>, ch: WorkerChannel)
      requires Valid()
      modifies service.repo.primary, service.repo.cache, queue.ch`contents, ch
      ensures Valid()
      ensures Work(service.repo.View(), queue.ch.contents, ch.settled)
           == HandleAll(Work(old(service.repo.View()), old(queue.ch.contents), old(ch.settled)), jobs,
                        notifier.notifiers)
    {
      ghost var start := Work(service.repo.View(), queue.ch.contents, ch.settled);
      var i := 0;
      assert jobs[..0] == [];
      while i < |jobs|
        invariant 0 <= i <= |jobs| && Valid()
        invariant Work(service.repo.View(), queue.ch.contents, ch.settled)
               == HandleAll(start, jobs[..i], notifier.notifiers)
      {
        assert jobs[..i+1][..i] == jobs[..i];
        var _ := HandleMessage(jobs[i].msg, ch, jobs[i].now, jobs[i].env);
        i := i + 1;
      }
      assert jobs[..|jobs|] == jobs;
    }
  }

  /** Exactly-once settlement over a whole worker run: one entry per delivery, in delivery order. */
  lemma {:induction false} SettledOnce(work: Work, jobs: seq<Job>, notifiers: Notifiers.Table)
    ensures var done := HandleAll(work, jobs, notifiers).settled;
      && |done| == |work.settled| + |jobs|
      && (forall i | 0 <= i < |work.settled| :: done[i] == work.settled[i])
      && (forall i | 0 <= i < |jobs| :: done[|work.settled| + i].0 == jobs[i].msg.tag)
  {
    if jobs != [] { SettledOnce(work, jobs[..|jobs|-1], notifiers); }
  }

  /** The deliveries are handled in turn: the i-th by the handler, on the state the first i left, and settled with its
      own tag as the handler settles it. */
  lemma HandledInTurn(work: Work, jobs: seq<Job>, i: nat, notifiers: Notifiers.Table)
    requires i < |jobs|
    ensures HandleAll(work, jobs[..0], notifiers) == work && jobs[..|jobs|] == jobs
    ensures var before := HandleAll(work, jobs[..i], notifiers);
      var h := Handle(before.world, before.contents, jobs[i].msg.body, notifiers, jobs[i].now, jobs[i].env);
      HandleAll(work, jobs[..i+1], notifiers)
      == Work(h.world, h.contents, before.settled + [(jobs[i].msg.tag, h.settlement)])
  {
    hide Handle;
    assert jobs[..0] == [] && jobs[..i+1][..i] == jobs[..i] && jobs[..i+1][i] == jobs[i];
  }

  /** A settlement is never revised. */
  lemma {:induction false} SettledPrefix(work: Work, jobs: seq<Job>, k: nat, notifiers: Notifiers.Table)
    requires k <= |jobs|
    ensures HandleAll(work, jobs[..k], notifiers).settled <= HandleAll(work, jobs, notifiers).settled
    decreases |jobs|
  {
    hide Handle;
    if k == |jobs| { assert jobs[..k] == jobs; }
    else {
      assert jobs[..|jobs|-1][..k] == jobs[..k];
      SettledPrefix(work, jobs[..|jobs|-1], k, notifiers);
    }
  }

  /** The notification is sent: the read showed it scheduled, and the notifier accepted it. */
  predicate Delivers(w: CacheAside.World, n: Notification, notifiers: Notifiers.Table, now: Time, env: HandleEnv) {
    Checks(w, n, now, env) && Notifiers.Dispatch(notifiers, n, env.transportOk) == Notifiers.Accepted
  }

  /** The handler's read shows the notification as scheduled. */
  predicate Checks(w: CacheAside.World, n: Notification, now: Time, env: HandleEnv) {
    var r := CacheAside.Get(w, n.id, now, env.read).1; r.Ok? && r.value.status == Scheduled
  }

  /** After a successful send: the row gets status sent, the message's attempts and the time of the send, to the
      microsecond, and keeps all else; nothing is published; the delivery is acknowledged exactly if that was
      confirmed. */
  lemma DeliveredMeans(w: CacheAside.World, contents: RabbitMq.Contents, n: Notification, notifiers: Notifiers.Table,
                       now: Time, env: HandleEnv)
    requires Delivers(w, n, notifiers, now, env) && -32768 <= n.attempts < 32768
    ensures var h := Handle(w, contents, Some(n), notifiers, now, env);
      && h.sent == Some(true) && h.contents == contents
      && h.settlement == (if env.db == Done && n.id in w.rows then Acked else Requeued)
      && h.world.rows == (if env.db == Refused || n.id !in w.rows then w.rows
                          else w.rows[n.id := w.rows[n.id].(status := Sent, attempts := n.attempts,
                                                            sentAt := Some(now - now % 1000),
                                                            updatedAt := now - now % 1000)])
  {
    hide Notifiers.Dispatch;
    CacheAside.GetMeans(w, n.id, now, env.read);
    CacheAside.UpdateMeans(CacheAside.Get(w, n.id, now, env.read).0, n.(status := Sent, sentAt := Some(now)), now,
                           env.db, env.inval);
  }

  /** After a failed send with attempts left: the row stays; the message goes to the retry queue with one more attempt
      and nothing else changed, due in 5 * 2^attempts seconds; it is acknowledged exactly if that was confirmed. */
  lemma RetriedMeans(w: CacheAside.World, contents: RabbitMq.Contents, n: Notification, notifiers: Notifiers.Table,
                     now: Time, env: HandleEnv)
    requires Checks(w, n, now, env) && !Delivers(w, n, notifiers, now, env) && 0 <= n.attempts < 4
    ensures var h := Handle(w, contents, Some(n), notifiers, now, env); var retry := n.(attempts := n.attempts + 1);
      && h.sent == Some(false) && h.world.rows == w.rows
      && h.settlement == (if env.publish == Done then Acked else Requeued)
      && h.contents == (if env.publish == Refused then contents
                        else contents["retry.queue.delay" := RabbitMq.QueueContents(contents, "retry.queue.delay")
                               + [RabbitMq.Publishing(retry, 5_000 * Delay.Pow2(n.attempts + 1))]])
  {
    hide Notifiers.Dispatch, Delay.RetryTtl, Delay.Backoff, Delay.Milliseconds, Delay.Pow2;
    CacheAside.GetMeans(w, n.id, now, env.read);
    Delay.ReachableRetryTtl(n.attempts + 1);
  }

  /** After the fifth failed send: the row gets status failed and the attempts, and keeps all else; nothing is
      published; the delivery is acknowledged exactly if that was confirmed. */
  lemma FailedMeans(w: CacheAside.World, contents: RabbitMq.Contents, n: Notification, notifiers: Notifiers.Table,
                    now: Time, env: HandleEnv)
    requires Checks(w, n, now, env) && !Delivers(w, n, notifiers, now, env) && 4 <= n.attempts < 32767
    ensures var h := Handle(w, contents, Some(n), notifiers, now, env);
      && h.sent == Some(false) && h.contents == contents
      && h.settlement == (if env.db == Done && n.id in w.rows then Acked else Requeued)
      && h.world.rows == (if env.db == Refused || n.id !in w.rows then w.rows
                          else w.rows[n.id := w.rows[n.id].(status := Failed, attempts := n.attempts + 1,
                                                            sentAt := CacheAside.Cut(n.sentAt),
                                                            updatedAt := now - now % 1000)])
  {
    hide Notifiers.Dispatch;
    CacheAside.GetMeans(w, n.id, now, env.read);
    CacheAside.UpdateMeans(CacheAside.Get(w, n.id, now, env.read).0, n.(attempts := n.attempts + 1, status := Failed),
                           now, env.db, env.inval);
  }

  /** Without a send the table and the queues stay as they are: dropped if undecodable, acknowledged otherwise. */
  lemma SkippedMeans(w: CacheAside.World, contents: RabbitMq.Contents, body: Option<Notification>,
                     notifiers: Notifiers.Table, now: Time, env: HandleEnv)
    requires body.None? || !Checks(w, body.value, now, env)
    ensures var h := Handle(w, contents, body, notifiers, now, env);
      && h.sent == None && h.contents == contents && h.world.rows == w.rows
      && h.settlement == (if body.None? then Dropped else Acked)
  {
    if body.Some? { CacheAside.GetMeans(w, body.value.id, now, env.read); }
  }

  /** The result after a send is terminal: it was accepted, or was the last attempt. */
  predicate Ends(n: Notification, sent: bool) { sent || n.attempts + 1 >= MAX_RETRIES }

  /** Exactly when a notification is sent, and exactly how its delivery is settled: dropped if it cannot be decoded;
      requeued if the terminal status could not be recorded, or the retry not published; acknowledged otherwise. */
  lemma SettlementMeans(w: CacheAside.World, contents: RabbitMq.Contents, body: Option<Notification>,
                        notifiers: Notifiers.Table, now: Time, env: HandleEnv)
    ensures var h := Handle(w, contents, body, notifiers, now, env);
      && (h.settlement == Dropped <==> body.None?)
      && (h.sent.Some? <==> body.Some? && var r := CacheAside.Get(w, body.value.id, now, env.read).1;
                            r.Ok? && r.value.status == Scheduled)
      && (h.settlement == Requeued <==>
            && h.sent.Some?
            && if Ends(body.value, h.sent.value) then body.value.id !in w.rows || !env.db.Done? else !env.publish.Done?)
  {
  }

  /** Exactly when a scheduled notification that the cache does not misreport is acknowledged without a send: the table
      is down and the cache has no live entry to fall back on. */
  lemma AcknowledgedUnsentIff(w: CacheAside.World, contents: RabbitMq.Contents, n: Notification,
                              notifiers: Notifiers.Table, now: Time, env: HandleEnv)
    requires n.id in w.rows && w.rows[n.id].status == Scheduled
    requires n.id in w.cache ==> w.cache[n.id].value == w.rows[n.id]
    ensures var h := Handle(w, contents, Some(n), notifiers, now, env);
      h.settlement == Acked && h.sent == None
      <==> !env.read.dbUp && !(env.read.cacheUp && CacheAside.Live(w, n.id, now))
  {
    hide Notifiers.Dispatch;
  }
}
