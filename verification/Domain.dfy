/** The notification, its statuses, the two constructors, and the outcomes a foreign call can have. */
module Domain {

  datatype Option<+T> = None | Some(value: T)

  datatype Result<+T> = Ok(value: T) | Err(error: Error)

  datatype Error =
    | NotFound
    | Duplicate
    | Storage
    | InvalidRecipient
    | UnknownChannel
    | NotScheduled(status: Status)
    | NotPublished

  /** How a write to the database, the cache or the broker ends. `Done`: applied and reported;
      `Unconfirmed`: applied, but the caller sees an error; `Refused`: not applied, error. */
  datatype Outcome = Done | Unconfirmed | Refused

  predicate Applied(o: Outcome) { o != Refused }

  type Id = nat
  /** Nanoseconds on one common clock. */
  type Time = int

  const MILLISECOND: int := 1_000_000
  const SECOND: int := 1_000_000_000
  const CACHE_TTL: int := 24 * 3600 * SECOND
  const MAX_RETRIES: int := 5
  const DEFAULT_WORKER_COUNT: nat := 5

  datatype Channel = Email | Telegram | Other(name: string)

  datatype Status = Scheduled | Sent | Failed | Cancelled

  datatype Notification = Notification(
    id: Id,
    subject: string,
    message: string,
    channel: Channel,
    status: Status,
    attempts: int,
    authorId: Option<string>,
    email: Option<string>,
    telegram: Option<int>,
    scheduledAt: Time,
    sentAt: Option<Time>,
    createdAt: Time,
    updatedAt: Time)

  function NewEmailNotification(uuid: Id, to: string, subject: string, message: string, scheduledAt: Time,
                                authorId: Option<string>, now: Time): Notification
  {
    Notification(uuid, subject, message, Email, Scheduled, 0, authorId, Some(to), None, scheduledAt, None, now, now)
  }

  function NewTelegramNotification(uuid: Id, chatId: int, subject: string, message: string, scheduledAt: Time,
                                   authorId: Option<string>, now: Time): Notification
  {
    Notification(uuid, subject, message, Telegram, Scheduled, 0, authorId, None, Some(chatId), scheduledAt, None,
                 now, now)
  }

  /** Exactly the recipient that belongs to the channel is present. */
  predicate WellFormed(n: Notification) {
    || (n.channel == Email && n.email.Some? && n.email.value != "" && n.telegram.None?)
    || (n.channel == Telegram && n.telegram.Some? && n.email.None?)
  }

  /** A cache value with its Redis expiry. */
  datatype Entry = Entry(value: Notification, expiresAt: Time)

  /** What the API caller passes to CreateNotification. */
  datatype Request = Request(
    recipient: string,
    channel: Channel,
    subject: string,
    message: string,
    scheduledAt: Time,
    authorId: Option<string>)

  /** What the two library parsers say about the recipient text. */
  datatype Verdict = Verdict(addressOk: bool, chatId: Option<int>)

  /** The only fact used about the parsers: an empty address is never accepted. */
  predicate Sane(req: Request, v: Verdict) {
    v.addressOk ==> req.recipient != ""
  }

  /** The validation and construction part of CreateNotification. */
  function Draft(req: Request, v: Verdict, uuid: Id, now: Time): (r: Result<Notification>)
    ensures r.Ok? && Sane(req, v) ==>
      && WellFormed(r.value)
      && r.value.status == Scheduled && r.value.attempts == 0 && r.value.sentAt.None?
      && r.value.scheduledAt == req.scheduledAt
    ensures r.Ok? <==> (req.channel == Email && v.addressOk) || (req.channel == Telegram && v.chatId.Some?)
  {
    match req.channel
    case Email =>
      if v.addressOk then
        Ok(NewEmailNotification(uuid, req.recipient, req.subject, req.message, req.scheduledAt, req.authorId, now))
      else Err(InvalidRecipient)
    case Telegram =>
      if v.chatId.Some? then
        Ok(NewTelegramNotification(uuid, v.chatId.value, req.subject, req.message, req.scheduledAt, req.authorId, now))
      else Err(InvalidRecipient)
    case Other(_) => Err(UnknownChannel)
  }

  /** The in-memory changes a handler makes after a successful send. */
  function MarkSent(n: Notification, now: Time): Notification {
    n.(status := Sent, sentAt := Some(now))
  }

  /** The in-memory changes a handler makes after a failed send. */
  function MarkUnsent(n: Notification): Notification {
    if n.attempts + 1 >= MAX_RETRIES
    then n.(attempts := n.attempts + 1, status := Failed)
    else n.(attempts := n.attempts + 1)
  }
}
