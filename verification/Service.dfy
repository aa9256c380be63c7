/** NotificationService: create (save, then publish), read, update, and cancel (check, then delete). */
module Service {
  import opened Domain
  import Mappers
  import Delay
  import CacheAside
  import Redis
  import RabbitMq

  /** The outcomes of the foreign calls inside one CreateNotification. */
  datatype CreateEnv = CreateEnv(db: Outcome, fill: Outcome, publish: Outcome)

  datatype Created = Created(world: CacheAside.World, contents: RabbitMq.Contents, result: Result<Notification>)

  /** Validate, save, publish. The draft's own uuid is lost: the row, and so the message, carry `newId`. */
  function Create(w: CacheAside.World, contents: RabbitMq.Contents, req: Request, v: Verdict,
                  uuid: Id, newId: Id, now: Time, publishAt: Time, env: CreateEnv): Created
  {
    var draft := Draft(req, v, uuid, now);
    if draft.Err? then Created(w, contents, draft)
    else
      var (w1, saved) := CacheAside.Save(w, draft.value, newId, now, env.db, env.fill);
      if saved.Err? then Created(w1, contents, saved)
      else
        var msg := RabbitMq.Publishing(saved.value, Delay.PublishTtl(saved.value.scheduledAt, publishAt));
        Created(w1, RabbitMq.Queued(contents, RabbitMq.WAIT_QUEUE, msg, env.publish),
                if env.publish.Done? then saved else Err(NotPublished))
  }

  /** Check, then soft-delete. */
  function Cancel(w: CacheAside.World, id: Id, now: Time, env: CacheAside.ReadEnv, db: Outcome, inval: Outcome)
    : (CacheAside.World, Option<Error>)
  {
    var (w1, r) := CacheAside.Get(w, id, now, env);
    if r.Err? then (w1, Some(r.error))
    else if r.value.status != Scheduled then (w1, Some(NotScheduled(r.value.status)))
    else CacheAside.Delete(w1, id, now, db, inval)
  }

  class NotificationService {
    const repo: Redis.CachedNotificationRepository
    const queue: RabbitMq.RabbitMQQueue

    ghost predicate Valid()
      reads this, repo, repo.primary, queue.ch
    {
      repo.Valid() && queue.ch.topology == RabbitMq.READY
    }

    constructor (repo: Redis.CachedNotificationRepository, queue: RabbitMq.RabbitMQQueue)
      requires repo.Valid() && queue.ch.topology == RabbitMq.READY
      ensures Valid() && this.repo == repo && this.queue == queue
    {
      this.repo := repo;
      this.queue := queue;
    }

    method CreateNotification(req: Request, v: Verdict, uuid: Id, newId: Id, now: Time, publishAt: Time, env: CreateEnv)
      returns (r: Result<Notification>)
      requires Valid()
      modifies repo.primary, repo.cache, queue.ch`contents
      ensures Valid()
      ensures Created(repo.View(), queue.ch.contents, r)
           == Create(old(repo.View()), old(queue.ch.contents), req, v, uuid, newId, now, publishAt, env)
    {
      var notification: Notification;
      match req.channel {
        case Email =>
          if !v.addressOk { return Err(InvalidRecipient); }
          notification := NewEmailNotification(uuid, req.recipient, req.subject, req.message, req.scheduledAt,
                                               req.authorId, now);
        case Telegram =>
          if v.chatId.None? { return Err(InvalidRecipient); }
          notification := NewTelegramNotification(uuid, v.chatId.value, req.subject, req.message, req.scheduledAt,
                                                  req.authorId, now);
        case Other(_) => return Err(UnknownChannel);
      }
      r := repo.Save(notification, newId, now, env.db, env.fill);
      if r.Err? { return; }
      var ok := queue.Publish(r.value, publishAt, env.publish);
      if !ok { return Err(NotPublished); }
    }

    method GetNotificationByID(id: Id, now: Time, env: CacheAside.ReadEnv) returns (r: Result<Notification>)
      requires Valid()
      modifies repo.cache
      ensures Valid()
      ensures (repo.View(), r) == CacheAside.Get(old(repo.View()), id, now, env)
    {
      r := repo.GetByID(id, now, env);
    }

    method UpdateNotification(n: Notification, now: Time, db: Outcome, inval: Outcome) returns (e: Option<Error>)
      requires Valid()
      modifies repo.primary, repo.cache
      ensures Valid()
      ensures (repo.View(), e) == CacheAside.Update(old(repo.View()), n, now, db, inval)
    {
      e := repo.Update(n, now, db, inval);
    }

    method CancelNotification(id: Id, now: Time, env: CacheAside.ReadEnv, db: Outcome, inval: Outcome)
      returns (e: Option<Error>)
      requires Valid()
      modifies repo.primary, repo.cache
      ensures Valid()
      ensures (repo.View(), e) == Cancel(old(repo.View()), id, now, env, db, inval)
    {
      var r := repo.GetByID(id, now, env);
      if r.Err? { return Some(r.error); }
      if r.value.status != Scheduled { return Some(NotScheduled(r.value.status)); }
      e := repo.Delete(id, now, db, inval);
    }
  }

  /** A create that reports success leaves exactly one new scheduled row with the request's content, its message at the
      end of the wait queue with the remaining delay, and touches no other row and no other queue. */
  lemma CreateSucceeds(w: CacheAside.World, contents: RabbitMq.Contents, req: Request, v: Verdict,
                       uuid: Id, newId: Id, now: Time, publishAt: Time, env: CreateEnv)
    requires Sane(req, v)
    ensures var c := Create(w, contents, req, v, uuid, newId, now, publishAt, env);
      c.result.Ok? ==>
        && var n := c.result.value;
           newId !in w.rows && c.world.rows == w.rows[newId := n] && WellFormed(n) && n.id == newId
           && n.subject == req.subject && n.message == req.message
           && n.channel == req.channel && n.authorId == req.authorId
           && n.email == (if req.channel == Email then Some(req.recipient) else None)
           && n.telegram == (if req.channel == Telegram then v.chatId else None)
           && n.status == Scheduled && n.attempts == 0 && n.sentAt == None
           && n.scheduledAt == req.scheduledAt - req.scheduledAt % 1000
           && n.createdAt == n.updatedAt == now - now % 1000
           && RabbitMq.QueueContents(c.contents, "wait.queue.delay")
              == RabbitMq.QueueContents(contents, "wait.queue.delay")
                 + [RabbitMq.Publishing(n, Delay.PublishTtl(n.scheduledAt, publishAt))]
           && (forall q | q != "wait.queue.delay" ::
                 RabbitMq.QueueContents(c.contents, q) == RabbitMq.QueueContents(contents, q))
  {
    var draft := Draft(req, v, uuid, now);
    if draft.Ok? { CacheAside.SaveMeans(w, draft.value, newId, now, env.db, env.fill); }
    if draft.Ok? && newId !in w.rows { Mappers.SaveRoundTrip(newId, draft.value, now); }
  }

  /** The answers of a create, exactly; a request that is not valid changes nothing. */
  lemma CreateAnswers(w: CacheAside.World, contents: RabbitMq.Contents, req: Request, v: Verdict,
                      uuid: Id, newId: Id, now: Time, publishAt: Time, env: CreateEnv)
    requires Sane(req, v)
    ensures var c := Create(w, contents, req, v, uuid, newId, now, publishAt, env); var r := c.result;
      var valid := (req.channel == Email && v.addressOk) || (req.channel == Telegram && v.chatId.Some?);
      && (r == Err(UnknownChannel) <==> req.channel != Email && req.channel != Telegram)
      && (r == Err(InvalidRecipient)
          <==> (req.channel == Email && !v.addressOk) || (req.channel == Telegram && v.chatId.None?))
      && (!valid ==> c.world == w && c.contents == contents)
      && (valid ==>
            && (r == Err(Duplicate) <==> env.db == Done && newId in w.rows)
            && (r == Err(Storage) <==> env.db != Done)
            && (r == Err(NotPublished) <==> env.db == Done && newId !in w.rows && env.publish != Done)
            && (r.Ok? <==> env.db == Done && newId !in w.rows && env.publish == Done))
  {
  }

  /** The answers and the effect of a cancel, given what its read returned: the read's error; the status it saw; or the
      answer of the soft delete, which changes the status and the stamp and nothing else. */
  lemma CancelMeans(w: CacheAside.World, id: Id, now: Time, env: CacheAside.ReadEnv, db: Outcome, inval: Outcome)
    ensures var (w', e) := Cancel(w, id, now, env, db, inval); var read := CacheAside.Get(w, id, now, env).1;
      && (read.Err? ==> e == Some(read.error) && w'.rows == w.rows)
      && (read.Ok? && read.value.status != Scheduled ==>
            e == Some(NotScheduled(read.value.status)) && w'.rows == w.rows)
      && (read.Ok? && read.value.status == Scheduled ==>
            && (e == None <==> db == Done && id in w.rows)
            && (e == Some(NotFound) <==> db == Done && id !in w.rows)
            && (e == Some(Storage) <==> db != Done)
            && w'.rows == if id !in w.rows || db == Refused then w.rows
                          else w.rows[id := w.rows[id].(status := Cancelled, updatedAt := now - now % 1000)])
  {
    CacheAside.GetMeans(w, id, now, env);
    CacheAside.DeleteMeans(CacheAside.Get(w, id, now, env).0, id, now, db, inval);
  }

  /** Exactly when a create fails yet leaves a scheduled row that no message was confirmed for. */
  lemma CreateOrphansIff(w: CacheAside.World, contents: RabbitMq.Contents, req: Request, v: Verdict,
                         uuid: Id, newId: Id, now: Time, publishAt: Time, env: CreateEnv)
    requires Sane(req, v) && newId !in w.rows
    ensures var c := Create(w, contents, req, v, uuid, newId, now, publishAt, env);
      (c.result.Err? && newId in c.world.rows) <==>
        Draft(req, v, uuid, now).Ok? && (env.db.Unconfirmed? || (env.db.Done? && !env.publish.Done?))
  {
  }
}
