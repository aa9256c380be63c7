/** The table and its four queries, updated in place. */
module Postgres {
  import opened Domain
  import opened Mappers
  import opened CacheAside

  class NotificationRepository {
    var table: map<Id, DbRow>

    ghost predicate Valid()
      reads this
    {
      forall id | id in table :: table[id].id == id && RowCheck(table[id])
    }

    /** The table as the domain sees it. */
    ghost function Rows(): Rows
      reads this
    {
      map id | id in table :: ToDomain(table[id])
    }

    constructor ()
      ensures Valid() && Rows() == map[]
    {
      table := map[];
    }

    /** INSERT: the primary key and the CHECK constraint may refuse the row. */
    method InsertRow(p: CreateParams, newId: Id, now: Time, db: Outcome) returns (r: Result<DbRow>)
      requires Valid()
      modifies this
      ensures CheckRecipientChannel(p.channel, p.emailTo, p.telegramChatId) ==> Valid()
      ensures !CheckRecipientChannel(p.channel, p.emailTo, p.telegramChatId) ==>
        table == old(table) && r == Err(Storage)
      ensures CheckRecipientChannel(p.channel, p.emailTo, p.telegramChatId) && newId in old(table) ==>
        table == old(table) && r == Err(if db.Done? then Duplicate else Storage)
      ensures CheckRecipientChannel(p.channel, p.emailTo, p.telegramChatId) && newId !in old(table) ==>
        && table == (if Applied(db) then old(table)[newId := InsertedRow(newId, p, now)] else old(table))
        && r == (if db.Done? then Ok(InsertedRow(newId, p, now)) else Err(Storage))
    {
      var row := InsertedRow(newId, p, now);
      if !RowCheck(row) || db.Refused? { return Err(Storage); }
      if newId in table { return Err(if db.Done? then Duplicate else Storage); }
      table := table[newId := row];
      r := if db.Done? then Ok(row) else Err(Storage);
    }

    method Save(n: Notification, newId: Id, now: Time, db: Outcome) returns (r: Result<Notification>)
      requires Valid()
      modifies this
      ensures Valid()
      ensures (Rows(), r) == PlainSave(old(Rows()), n, newId, now, db)
    {
      var params := ToCreateParams(n);
      if params.Err? { return Err(params.error); }
      var created := InsertRow(params.value, newId, now, db);
      assert Rows() == PlainSave(old(Rows()), n, newId, now, db).0;
      if created.Err? { return Err(created.error); }
      r := Ok(ToDomain(created.value));
    }

    method GetByID(id: Id, up: bool) returns (r: Result<Notification>)
      requires Valid()
      ensures r == PlainGet(Rows(), id, up)
    {
      if !up { return Err(Storage); }
      if id !in table { return Err(NotFound); }
      r := Ok(ToDomain(table[id]));
    }

    /** UPDATE ... WHERE id = $1 RETURNING: no row, no answer. */
    method WriteRow(id: Id, row: DbRow, db: Outcome) returns (e: Option<Error>)
      requires Valid() && id in table && row.id == id && RowCheck(row)
      modifies this
      ensures Valid()
      ensures (Rows(), e) == Wrote(old(Rows()), id, ToDomain(row), db)
    {
      if db.Refused? { return Some(Storage); }
      table := table[id := row];
      assert Rows() == old(Rows())[id := ToDomain(row)];
      e := if db.Done? then None else Some(Storage);
    }

    method Update(n: Notification, now: Time, db: Outcome) returns (e: Option<Error>)
      requires Valid()
      modifies this
      ensures Valid()
      ensures (Rows(), e) == PlainUpdate(old(Rows()), n, now, db)
    {
      var params := ToUpdateParams(n);
      if params.id !in table { return Some(Missing(db)); }
      WritesCommuteWithMapping(table[n.id], n, now);
      e := WriteRow(params.id, UpdatedRow(table[params.id], params, now), db);
    }

    method Delete(id: Id, now: Time, db: Outcome) returns (e: Option<Error>)
      requires Valid()
      modifies this
      ensures Valid()
      ensures (Rows(), e) == PlainDelete(old(Rows()), id, now, db)
    {
      if id !in table { return Some(Missing(db)); }
      WritesCommuteWithMapping(table[id], ToDomain(table[id]), now);
      e := WriteRow(id, CancelledRow(table[id], now), db);
    }
  }
}
