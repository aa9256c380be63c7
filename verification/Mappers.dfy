/** Domain values to database parameters and back, with the integer narrowing and time precision of the columns. */
module Mappers {
  import opened Domain

  datatype DbRow = DbRow(
    id: Id,
    subject: string,
    message: string,
    authorId: Option<string>,
    emailTo: Option<string>,
    telegramChatId: Option<int>,
    channel: Channel,
    status: Status,
    attempts: int,
    scheduledAt: Time,
    sentAt: Option<Time>,
    createdAt: Time,
    updatedAt: Time)

  datatype CreateParams = CreateParams(
    subject: string,
    message: string,
    authorId: Option<string>,
    emailTo: Option<string>,
    telegramChatId: Option<int>,
    channel: Channel,
    status: Status,
    attempts: int,
    scheduledAt: Time)

  datatype UpdateParams = UpdateParams(id: Id, status: Status, attempts: int, sentAt: Option<Time>)

  predicate InInt16(x: int) { -0x8000 <= x < 0x8000 }

  /** Go's conversion int16(x): keep the low 16 bits. */
  function ToInt16(x: int): (r: int)
    ensures InInt16(r)
    ensures r == x <==> InInt16(x)
  {
    var m := x % 0x1_0000;
    if m >= 0x8000 then m - 0x1_0000 else m
  }

  /** A TIMESTAMPTZ column keeps whole microseconds. */
  function StoreTime(t: Time): (r: Time)
    ensures r <= t < r + 1000
    ensures r % 1000 == 0
  {
    t - t % 1000
  }

  function StoreOptionalTime(t: Option<Time>): (r: Option<Time>)
    ensures r == None <==> t == None
    ensures t.Some? ==> r.value == t.value - t.value % 1000
  {
    if t.Some? then Some(StoreTime(t.value)) else None
  }

  /** Constraint chk_recipient_channel. */
  predicate CheckRecipientChannel(channel: Channel, emailTo: Option<string>, chatId: Option<int>) {
    || (channel == Email && emailTo.Some? && chatId.None?)
    || (channel == Telegram && chatId.Some? && emailTo.None?)
  }

  predicate RowCheck(row: DbRow) {
    CheckRecipientChannel(row.channel, row.emailTo, row.telegramChatId)
  }

  predicate HasRecipient(n: Notification) {
    || (n.channel == Email && n.email.Some? && n.email.value != "")
    || (n.channel == Telegram && n.telegram.Some?)
  }

  function ToCreateParams(n: Notification): (r: Result<CreateParams>)
    ensures r.Ok? <==> HasRecipient(n)
    ensures r.Ok? ==> CheckRecipientChannel(r.value.channel, r.value.emailTo, r.value.telegramChatId)
  {
    var p := CreateParams(n.subject, n.message, n.authorId, None, None, n.channel, n.status, ToInt16(n.attempts),
                          n.scheduledAt);
    match n.channel
    case Email =>
      if n.email.None? || n.email.value == "" then Err(InvalidRecipient)
      else Ok(p.(emailTo := n.email))
    case Telegram =>
      if n.telegram.None? then Err(InvalidRecipient)
      else Ok(p.(telegramChatId := n.telegram))
    case Other(_) => Err(UnknownChannel)
  }

  function ToUpdateParams(n: Notification): UpdateParams {
    UpdateParams(n.id, n.status, ToInt16(n.attempts), n.sentAt)
  }

  /** INSERT ... RETURNING: the database chooses the id and stamps the row. */
  function InsertedRow(id: Id, p: CreateParams, now: Time): DbRow {
    DbRow(id, p.subject, p.message, p.authorId, p.emailTo, p.telegramChatId, p.channel, p.status, p.attempts,
          StoreTime(p.scheduledAt), None, StoreTime(now), StoreTime(now))
  }

  /** UPDATE ... SET status, attempts, sent_at WHERE id: no guard on the old status. */
  function UpdatedRow(row: DbRow, p: UpdateParams, now: Time): DbRow {
    row.(status := p.status, attempts := p.attempts, sentAt := StoreOptionalTime(p.sentAt), updatedAt := StoreTime(now))
  }

  /** UPDATE ... SET status = 'cancelled' WHERE id: no guard on the old status. */
  function CancelledRow(row: DbRow, now: Time): DbRow {
    row.(status := Cancelled, updatedAt := StoreTime(now))
  }

  function ToDomain(row: DbRow): Notification {
    Notification(row.id, row.subject, row.message, row.channel, row.status, row.attempts, row.authorId,
                 if row.channel == Email then row.emailTo else None,
                 if row.channel == Telegram then row.telegramChatId else None,
                 row.scheduledAt, row.sentAt, row.createdAt, row.updatedAt)
  }

  /** The three row transitions as the domain sees them. */
  function Stored(id: Id, n: Notification, now: Time): Notification
    requires HasRecipient(n)
  {
    ToDomain(InsertedRow(id, ToCreateParams(n).value, now))
  }

  function Rewritten(row: Notification, n: Notification, now: Time): Notification {
    row.(status := n.status, attempts := ToInt16(n.attempts), sentAt := StoreOptionalTime(n.sentAt),
         updatedAt := StoreTime(now))
  }

  function Withdrawn(row: Notification, now: Time): Notification {
    row.(status := Cancelled, updatedAt := StoreTime(now))
  }

  /** Saving and reading back loses nothing but sub-microsecond time and, outside int16, the attempt count;
      and the stored notification carries exactly its channel's recipient even when the saved one carried both. */
  lemma SaveRoundTrip(id: Id, n: Notification, now: Time)
    requires HasRecipient(n)
    ensures var m := Stored(id, n, now);
      && m.id == id && m.subject == n.subject && m.message == n.message && m.authorId == n.authorId
      && m.channel == n.channel && m.status == n.status
      && m.email == (if n.channel == Email then n.email else None)
      && m.telegram == (if n.channel == Telegram then n.telegram else None)
      && WellFormed(m)
      && (m.attempts == n.attempts <==> InInt16(n.attempts))
      && m.scheduledAt <= n.scheduledAt < m.scheduledAt + 1000
      && (m.scheduledAt == n.scheduledAt <==> n.scheduledAt % 1000 == 0)
      && m.sentAt == None
      && m.createdAt == m.updatedAt == now - now % 1000
  {
  }

  /** Reading a row back and saving it again under the same id changes only the three generated stamps. */
  lemma SaveIsIdempotent(id: Id, n: Notification, now: Time, later: Time)
    requires HasRecipient(n)
    ensures var m := Stored(id, n, now);
      HasRecipient(m) && Stored(id, m, later) == m.(createdAt := StoreTime(later), updatedAt := StoreTime(later))
  {
    SaveRoundTrip(id, n, now);
  }

  /** Updating and cancelling commute with the mapping, and keep the CHECK constraint. */
  lemma WritesCommuteWithMapping(row: DbRow, n: Notification, now: Time)
    ensures ToDomain(UpdatedRow(row, ToUpdateParams(n), now)) == Rewritten(ToDomain(row), n, now)
    ensures ToDomain(CancelledRow(row, now)) == Withdrawn(ToDomain(row), now)
    ensures RowCheck(row) ==> RowCheck(UpdatedRow(row, ToUpdateParams(n), now)) && RowCheck(CancelledRow(row, now))
  {
  }
}
