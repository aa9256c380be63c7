/** The repository operations as functions: the table alone, and the table behind the cache; and when the
    second cannot be told from the first. */
module CacheAside {
  import opened Domain
  import opened Mappers

  type Rows = map<Id, Notification>

  // ---- the table alone ------------------------------------------------------------------------

  function PlainSave(rows: Rows, n: Notification, newId: Id, now: Time, db: Outcome): (Rows, Result<Notification>) {
    if !HasRecipient(n) then (rows, Err(if n.channel.Other? then UnknownChannel else InvalidRecipient))
    else if newId in rows then (rows, Err(if db.Done? then Duplicate else Storage))
    else
      var row := Stored(newId, n, now);
      match db
      case Done => (rows[newId := row], Ok(row))
      case Unconfirmed => (rows[newId := row], Err(Storage))
      case Refused => (rows, Err(Storage))
  }

  function PlainGet(rows: Rows, id: Id, up: bool): Result<Notification> {
    if !up then Err(Storage) else if id in rows then Ok(rows[id]) else Err(NotFound)
  }

  /** The outcome of a write that found its row. */
  function Wrote(rows: Rows, id: Id, row: Notification, db: Outcome): (Rows, Option<Error>) {
    match db
    case Done => (rows[id := row], None)
    case Unconfirmed => (rows[id := row], Some(Storage))
    case Refused => (rows, Some(Storage))
  }

  /** What a write without a row answers; a query that fails cannot tell. */
  function Missing(db: Outcome): Error { if db.Done? then NotFound else Storage }

  function PlainUpdate(rows: Rows, n: Notification, now: Time, db: Outcome): (Rows, Option<Error>) {
    if n.id !in rows then (rows, Some(Missing(db))) else Wrote(rows, n.id, Rewritten(rows[n.id], n, now), db)
  }

  function PlainDelete(rows: Rows, id: Id, now: Time, db: Outcome): (Rows, Option<Error>) {
    if id !in rows then (rows, Some(Missing(db))) else Wrote(rows, id, Withdrawn(rows[id], now), db)
  }

  // ---- behind the cache -----------------------------------------------------------------------

  datatype World = World(rows: Rows, cache: map<Id, Entry>)

  /** How the foreign calls of one GetByID turn out. */
  datatype ReadEnv = ReadEnv(cacheUp: bool, dbUp: bool, fill: Outcome)

  function Put(w: World, n: Notification, now: Time, o: Outcome): World {
    if Applied(o) then w.(cache := w.cache[n.id := Entry(n, now + CACHE_TTL)]) else w
  }

  function Drop(w: World, id: Id, o: Outcome): World {
    if Applied(o) then w.(cache := w.cache - {id}) else w
  }

  predicate Live(w: World, id: Id, now: Time) { id in w.cache && now < w.cache[id].expiresAt }

  function Save(w: World, n: Notification, newId: Id, now: Time, db: Outcome, fill: Outcome)
    : (World, Result<Notification>)
  {
    var (rows, r) := PlainSave(w.rows, n, newId, now, db);
    var w1 := w.(rows := rows);
    (if r.Ok? then Put(w1, r.value, now, fill) else w1, r)
  }

  function Get(w: World, id: Id, now: Time, env: ReadEnv): (World, Result<Notification>) {
    if env.cacheUp && Live(w, id, now) then (w, Ok(w.cache[id].value))
    else
      var r := PlainGet(w.rows, id, env.dbUp);
      (if r.Ok? then Put(w, r.value, now, env.fill) else w, r)
  }

  function Update(w: World, n: Notification, now: Time, db: Outcome, inval: Outcome): (World, Option<Error>) {
    var (rows, e) := PlainUpdate(w.rows, n, now, db);
    var w1 := w.(rows := rows);
    (if e.None? then Drop(w1, n.id, inval) else w1, e)
  }

  function Delete(w: World, id: Id, now: Time, db: Outcome, inval: Outcome): (World, Option<Error>) {
    var (rows, e) := PlainDelete(w.rows, id, now, db);
    var w1 := w.(rows := rows);
    (if e.None? then Drop(w1, id, inval) else w1, e)
  }

  // ---- effects and answers, column by column ---------------------------------------------------

  /** The answer of a read, and the entry it leaves: a live entry wins; else not found exactly if the table says so,
      a storage error exactly if it is down. A row that is read is cached for a day. */
  lemma GetMeans(w: World, id: Id, now: Time, env: ReadEnv)
    ensures var (w', r) := Get(w, id, now, env); var hit := env.cacheUp && id in w.cache && now < w.cache[id].expiresAt;
      && (hit ==> r == Ok(w.cache[id].value))
      && (!hit ==>
            && (r == Err(NotFound) <==> env.dbUp && id !in w.rows)
            && (r == Err(Storage) <==> !env.dbUp)
            && (r.Ok? <==> env.dbUp && id in w.rows)
            && (r.Ok? ==> r.value == w.rows[id]))
      && w'.rows == w.rows
      && w'.cache == if !hit && r.Ok? && env.fill != Refused
                     then w.cache[r.value.id := Entry(r.value, now + 86_400_000_000_000)] else w.cache
  {
  }

  /** A stamp in whole microseconds. */
  function Cut(t: Option<Time>): Option<Time> { if t == None then None else Some(t.value - t.value % 1000) }

  /** An update writes status, attempts and sent time, stamps the row, and drops the cache entry. */
  lemma UpdateMeans(w: World, n: Notification, now: Time, db: Outcome, inval: Outcome)
    requires -32768 <= n.attempts < 32768
    ensures var (w', e) := Update(w, n, now, db, inval);
      && (e == None <==> db == Done && n.id in w.rows)
      && (e == Some(NotFound) <==> db == Done && n.id !in w.rows)
      && (e == Some(Storage) <==> db != Done)
      && w'.rows == (if n.id !in w.rows || db == Refused then w.rows
                     else w.rows[n.id := w.rows[n.id].(status := n.status, attempts := n.attempts,
                                                       sentAt := Cut(n.sentAt), updatedAt := now - now % 1000)])
      && w'.cache == (if e == None && inval != Refused then w.cache - {n.id} else w.cache)
  {
  }

  /** A soft delete writes the status and the stamp, nothing else, and drops the cache entry. */
  lemma DeleteMeans(w: World, id: Id, now: Time, db: Outcome, inval: Outcome)
    ensures var (w', e) := Delete(w, id, now, db, inval);
      && (e == None <==> db == Done && id in w.rows)
      && (e == Some(NotFound) <==> db == Done && id !in w.rows)
      && (e == Some(Storage) <==> db != Done)
      && w'.rows == (if id !in w.rows || db == Refused then w.rows
                     else w.rows[id := w.rows[id].(status := Cancelled, updatedAt := now - now % 1000)])
      && w'.cache == (if e == None && inval != Refused then w.cache - {id} else w.cache)
  {
  }

  /** A save adds the row with the recipient of its channel, under the new id, and caches it for a day. */
  lemma SaveMeans(w: World, n: Notification, newId: Id, now: Time, db: Outcome, fill: Outcome)
    requires -32768 <= n.attempts < 32768
    ensures var (w', r) := Save(w, n, newId, now, db, fill); var stamp := now - now % 1000;
      && (r == Err(UnknownChannel) <==> n.channel.Other?)
      && (r == Err(InvalidRecipient) <==> || (n.channel == Email && (n.email == None || n.email == Some("")))
                                          || (n.channel == Telegram && n.telegram == None))
      && (r.Err? && r.error in {UnknownChannel, InvalidRecipient} ==> w' == w)
      && var valid := r !in {Err(UnknownChannel), Err(InvalidRecipient)};
      && (r == Err(Duplicate) <==> valid && db == Done && newId in w.rows)
      && (r == Err(Storage) <==> valid && db != Done)
      && (r.Ok? <==> valid && db == Done && newId !in w.rows)
      && (newId in w'.rows <==> newId in w.rows || (valid && db != Refused))
      && (w'.rows != w.rows ==> newId in w'.rows && newId !in w.rows)
      && (newId in w'.rows && newId !in w.rows ==>
            && w'.rows == w.rows[newId := w'.rows[newId]]
            && w'.rows[newId] == n.(id := newId, email := (if n.channel == Email then n.email else None),
                                    telegram := (if n.channel == Telegram then n.telegram else None),
                                    scheduledAt := n.scheduledAt - n.scheduledAt % 1000, sentAt := None,
                                    createdAt := stamp, updatedAt := stamp))
      && (r.Ok? ==> newId in w'.rows && r.value == w'.rows[newId])
      && w'.cache == (if r.Ok? && fill != Refused
                      then w.cache[newId := Entry(r.value, now + 86_400_000_000_000)] else w.cache)
  {
  }

  // ---- refinement -----------------------------------------------------------------------------

  /** Every cached entry, expired or not, is the current row. */
  ghost predicate Coherent(w: World) {
    && (forall id | id in w.rows :: w.rows[id].id == id)
    && (forall id | id in w.cache :: id in w.rows && w.cache[id].value == w.rows[id])
  }

  datatype Op =
    | OpSave(n: Notification, newId: Id, now: Time, db: Outcome, fill: Outcome)
    | OpGet(id: Id, now: Time, env: ReadEnv)
    | OpUpdate(n: Notification, now: Time, db: Outcome, inval: Outcome)
    | OpDelete(id: Id, now: Time, db: Outcome, inval: Outcome)
    | OpEvict(id: Id)

  datatype Answer = Row(r: Result<Notification>) | Status(e: Option<Error>)

  function Do(w: World, op: Op): (World, Answer) {
    match op
    case OpSave(n, newId, now, db, fill) => var (w', r) := Save(w, n, newId, now, db, fill); (w', Row(r))
    case OpGet(id, now, env) => var (w', r) := Get(w, id, now, env); (w', Row(r))
    case OpUpdate(n, now, db, inval) => var (w', e) := Update(w, n, now, db, inval); (w', Status(e))
    case OpDelete(id, now, db, inval) => var (w', e) := Delete(w, id, now, db, inval); (w', Status(e))
    case OpEvict(id) => (w.(cache := w.cache - {id}), Status(None))
  }

  function PlainDo(rows: Rows, op: Op): (Rows, Answer) {
    match op
    case OpSave(n, newId, now, db, _) => var (rows', r) := PlainSave(rows, n, newId, now, db); (rows', Row(r))
    case OpGet(id, _, env) => (rows, Row(PlainGet(rows, id, env.dbUp)))
    case OpUpdate(n, now, db, _) => var (rows', e) := PlainUpdate(rows, n, now, db); (rows', Status(e))
    case OpDelete(id, now, db, _) => var (rows', e) := PlainDelete(rows, id, now, db); (rows', Status(e))
    case OpEvict(_) => (rows, Status(None))
  }

  /** A write that reaches the table is confirmed, and its invalidation reaches the cache; a read may fall back
      on the table. Cache reads and fills may fail in any way. */
  predicate Invalidating(op: Op) {
    match op
    case OpUpdate(_, _, db, inval) => !db.Unconfirmed? && Applied(inval)
    case OpDelete(_, _, db, inval) => !db.Unconfirmed? && Applied(inval)
    case OpGet(_, _, env) => env.dbUp
    case _ => true
  }

  function DoAll(w: World, ops: seq<Op>): (World, seq<Answer>)
    decreases |ops|
  {
    if ops == [] then (w, [])
    else
      var (w1, a) := Do(w, ops[0]);
      var (w2, rest) := DoAll(w1, ops[1..]);
      (w2, [a] + rest)
  }

  function PlainDoAll(rows: Rows, ops: seq<Op>): (Rows, seq<Answer>)
    decreases |ops|
  {
    if ops == [] then (rows, [])
    else
      var (rows1, a) := PlainDo(rows, ops[0]);
      var (rows2, rest) := PlainDoAll(rows1, ops[1..]);
      (rows2, [a] + rest)
  }

  lemma OpRefines(w: World, op: Op)
    requires Coherent(w) && Invalidating(op)
    ensures var (w', a) := Do(w, op); Coherent(w') && PlainDo(w.rows, op) == (w'.rows, a)
  {
    match op
    case OpSave(n, newId, now, _, _) => if HasRecipient(n) { SaveRoundTrip(newId, n, now); }
    case _ =>
  }

  /** Whatever happens to cache reads, fills and evictions, a run of calls answers exactly as the table alone would. */
  lemma {:induction false} CachedRefinesPlain(w: World, ops: seq<Op>)
    requires Coherent(w) && forall i | 0 <= i < |ops| :: Invalidating(ops[i])
    ensures var (w', answers) := DoAll(w, ops);
      Coherent(w') && PlainDoAll(w.rows, ops) == (w'.rows, answers)
    decreases |ops|
  {
    if ops != [] {
      OpRefines(w, ops[0]);
      CachedRefinesPlain(Do(w, ops[0]).0, ops[1..]);
    }
  }

  /** With the table down, a coherent cache still answers with the current row or passes the failure on. */
  lemma ReadWithTableDown(w: World, id: Id, now: Time, env: ReadEnv)
    requires Coherent(w) && !env.dbUp
    ensures var (w', r) := Get(w, id, now, env);
      w' == w && (r == Err(Storage) || (id in w.rows && r == Ok(w.rows[id])))
  {
  }

  /** Exactly when an update leaves the cache right: it wrote nothing new, or the entry was not there, or it was
      confirmed and the invalidation reached the cache. */
  lemma UpdateKeepsCoherenceIff(w: World, n: Notification, now: Time, db: Outcome, inval: Outcome)
    requires Coherent(w)
    ensures Coherent(Update(w, n, now, db, inval).0) <==>
      || n.id !in w.rows || db.Refused? || Rewritten(w.rows[n.id], n, now) == w.rows[n.id]
      || n.id !in w.cache
      || (db.Done? && Applied(inval))
  {
    var w' := Update(w, n, now, db, inval).0;
    if n.id in w.cache && n.id in w'.cache && n.id in w.rows { assert w'.cache[n.id] == w.cache[n.id]; }
  }

  lemma DeleteKeepsCoherenceIff(w: World, id: Id, now: Time, db: Outcome, inval: Outcome)
    requires Coherent(w)
    ensures Coherent(Delete(w, id, now, db, inval).0) <==>
      || id !in w.rows || db.Refused? || Withdrawn(w.rows[id], now) == w.rows[id]
      || id !in w.cache
      || (db.Done? && Applied(inval))
  {
    var w' := Delete(w, id, now, db, inval).0;
    if id in w.cache && id in w'.cache && id in w.rows { assert w'.cache[id] == w.cache[id]; }
  }

  /** A lost invalidation shows: after a cancel whose cache delete fails, a reader still sees the old row, with
      status scheduled, until the entry expires. */
  lemma LostInvalidationIsVisible(w: World, id: Id, now: Time, later: Time, env: ReadEnv)
    requires Coherent(w) && id in w.rows && w.rows[id].status == Scheduled && Live(w, id, later) && env.cacheUp
    ensures var (w', e) := Delete(w, id, now, Done, Refused);
      && e == None && w'.rows[id].status == Cancelled
      && Get(w', id, later, env).1 == Ok(w.rows[id]) && Get(w', id, later, env).1.value.status == Scheduled
  {
  }
}
