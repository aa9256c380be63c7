/** The keyed Redis store, and the cached repository over it. */
module Redis {
  import opened Domain
  import opened CacheAside
  import opened Postgres

  class NotificationCache {
    /** Keys are injective in the id, so the id stands for the key. */
    var store: map<Id, Entry>

    constructor ()
      ensures store == map[]
    {
      store := map[];
    }

    method Get(id: Id, now: Time, up: bool) returns (r: Result<Notification>)
      ensures r == if !up then Err(Storage)
                   else if id in store && now < store[id].expiresAt then Ok(store[id].value) else Err(NotFound)
    {
      if !up { return Err(Storage); }
      if id !in store || store[id].expiresAt <= now { return Err(NotFound); }
      r := Ok(store[id].value);
    }

    method Set(n: Notification, now: Time, expiration: int, o: Outcome) returns (ok: bool)
      modifies this
      ensures ok == o.Done?
      ensures store == if Applied(o) then old(store)[n.id := Entry(n, now + expiration)] else old(store)
    {
      if Applied(o) { store := store[n.id := Entry(n, now + expiration)]; }
      ok := o.Done?;
    }

    method Delete(id: Id, o: Outcome) returns (ok: bool)
      modifies this
      ensures ok == o.Done?
      ensures store == if Applied(o) then old(store) - {id} else old(store)
    {
      if Applied(o) { store := store - {id}; }
      ok := o.Done?;
    }

    /** Redis may forget a key at any time. */
    method Evict(id: Id)
      modifies this
      ensures store == old(store) - {id}
    {
      store := store - {id};
    }
  }

  class CachedNotificationRepository {
    const primary: NotificationRepository
    const cache: NotificationCache
    const ttl: int

    ghost predicate Valid()
      reads this, primary
    {
      primary.Valid() && ttl == CACHE_TTL
    }

    ghost function View(): World
      reads this, primary, cache
    {
      World(primary.Rows(), cache.store)
    }

    constructor (primary: NotificationRepository, cache: NotificationCache)
      requires primary.Valid()
      ensures Valid() && this.primary == primary && this.cache == cache
    {
      this.primary := primary;
      this.cache := cache;
      ttl := CACHE_TTL;
    }

    method Save(n: Notification, newId: Id, now: Time, db: Outcome, fill: Outcome) returns (r: Result<Notification>)
      requires Valid()
      modifies primary, cache
      ensures Valid()
      ensures (View(), r) == CacheAside.Save(old(View()), n, newId, now, db, fill)
    {
      r := primary.Save(n, newId, now, db);
      if r.Err? { return; }
      var _ := cache.Set(r.value, now, ttl, fill);
    }

    method GetByID(id: Id, now: Time, env: ReadEnv) returns (r: Result<Notification>)
      requires Valid()
      modifies cache
      ensures Valid()
      ensures (View(), r) == CacheAside.Get(old(View()), id, now, env)
    {
      r := cache.Get(id, now, env.cacheUp);
      if r.Ok? { return; }
      r := primary.GetByID(id, env.dbUp);
      if r.Err? { return; }
      var _ := cache.Set(r.value, now, ttl, env.fill);
    }

    method Update(n: Notification, now: Time, db: Outcome, inval: Outcome) returns (e: Option<Error>)
      requires Valid()
      modifies primary, cache
      ensures Valid()
      ensures (View(), e) == CacheAside.Update(old(View()), n, now, db, inval)
    {
      e := primary.Update(n, now, db);
      if e.Some? { return; }
      var _ := cache.Delete(n.id, inval);
    }

    method Delete(id: Id, now: Time, db: Outcome, inval: Outcome) returns (e: Option<Error>)
      requires Valid()
      modifies primary, cache
      ensures Valid()
      ensures (View(), e) == CacheAside.Delete(old(View()), id, now, db, inval)
    {
      e := primary.Delete(id, now, db);
      if e.Some? { return; }
      var _ := cache.Delete(id, inval);
    }
  }
}
