/** Handlers and API calls that run one after another, each to its end, with invalidations that reach the cache:
    the status of a notification is then a proper state machine. */
module Atomic {
  import opened Domain
  import opened CacheAside
  import Notifiers
  import Service
  import Consumer

  datatype Act =
    | Create(req: Request, verdict: Verdict, uuid: Id, newId: Id, now: Time, publishAt: Time, create: Service.CreateEnv)
    | Read(id: Id, now: Time, read: ReadEnv)
    | CancelAct(id: Id, now: Time, read: ReadEnv, db: Outcome, inval: Outcome)
    | Deliver(body: Notification, now: Time, env: Consumer.HandleEnv)
    | Forget(id: Id)

  /** Status writes are confirmed or refused, and invalidations reach the cache. */
  predicate Sound(a: Act) {
    match a
    case CancelAct(_, _, _, db, inval) => !db.Unconfirmed? && Applied(inval)
    case Deliver(_, _, env) => !env.db.Unconfirmed? && Applied(env.inval)
    case _ => true
  }

  function After(w: World, a: Act, notifiers: Notifiers.Table): World {
    match a
    case Create(req, v, uuid, newId, now, at, env) => Service.Create(w, map[], req, v, uuid, newId, now, at, env).world
    case Read(id, now, env) => Get(w, id, now, env).0
    case CancelAct(id, now, env, db, inval) => Service.Cancel(w, id, now, env, db, inval).0
    case Deliver(b, now, env) => Consumer.Handle(w, map[], Some(b), notifiers, now, env).world
    case Forget(id) => w.(cache := w.cache - {id})
  }

  /** This act sends the notification successfully. */
  predicate Delivers(w: World, a: Act, id: Id, notifiers: Notifiers.Table) {
    a.Deliver? && a.body.id == id && Consumer.Handle(w, map[], Some(a.body), notifiers, a.now, a.env).sent == Some(true)
  }

  /** This act sends successfully but fails to record it. */
  predicate Forgets(w: World, a: Act, id: Id, notifiers: Notifiers.Table) {
    Delivers(w, a, id, notifiers) && !a.env.db.Done?
  }

  lemma GetKeeps(w: World, id: Id, now: Time, env: ReadEnv)
    requires Coherent(w)
    ensures var (w', r) := Get(w, id, now, env);
      Coherent(w') && w'.rows == w.rows && (r.Ok? ==> id in w.rows && r.value == w.rows[id])
  {
  }

  lemma CoherentAfter(w: World, a: Act, notifiers: Notifiers.Table)
    requires Coherent(w) && Sound(a)
    ensures Coherent(After(w, a, notifiers))
  {
    hide Coherent, Get, Save, Update, Delete;
    match a
    case Create(req, v, uuid, newId, now, _, env) =>
      var draft := Draft(req, v, uuid, now);
      if draft.Ok? { OpRefines(w, OpSave(draft.value, newId, now, env.db, env.fill)); }
    case Read(id, now, env) => GetKeeps(w, id, now, env);
    case CancelAct(id, now, env, db, inval) =>
      GetKeeps(w, id, now, env);
      OpRefines(Get(w, id, now, env).0, OpDelete(id, now, db, inval));
    case Deliver(b, now, env) =>
      GetKeeps(w, b.id, now, env.read);
      var w1 := Get(w, b.id, now, env.read).0;
      OpRefines(w1, OpUpdate(MarkSent(b, now), now, env.db, env.inval));
      OpRefines(w1, OpUpdate(MarkUnsent(b), now, env.db, env.inval));
    case Forget(id) => OpRefines(w, OpEvict(id));
  }

  /** The only row transitions are scheduled to sent, failed or cancelled; a row that has left scheduled never
      changes again in any column, and a scheduled row changes only together with its status. */
  lemma StatusMachine(w: World, a: Act, id: Id, notifiers: Notifiers.Table)
    requires Coherent(w) && Sound(a) && id in w.rows
    ensures var w' := After(w, a, notifiers);
      && id in w'.rows
      && (w.rows[id].status != Scheduled ==> w'.rows[id] == w.rows[id])
      && (w'.rows[id] != w.rows[id] ==>
            || (a.Deliver? && a.body.id == id && w'.rows[id].status in {Sent, Failed})
            || (a.CancelAct? && a.id == id && w'.rows[id].status == Cancelled))
  {
    match a
    case Deliver(b, now, env) => GetKeeps(w, b.id, now, env.read);
    case CancelAct(i, now, env, _, _) => GetKeeps(w, i, now, env);
    case _ =>
  }

  /** A cancel of a scheduled row whose write is confirmed cancels it; a create whose insert is confirmed adds its
      row. */
  lemma ActsTakeEffect(w: World, a: Act, id: Id, notifiers: Notifiers.Table)
    requires Coherent(w)
    ensures a.CancelAct? && a.id == id && id in w.rows && w.rows[id].status == Scheduled
            && a.read.dbUp && a.db == Done ==>
      id in After(w, a, notifiers).rows && After(w, a, notifiers).rows[id].status == Cancelled
    ensures a.Create? && a.newId == id && id !in w.rows && Sane(a.req, a.verdict) && a.create.db == Done
            && Draft(a.req, a.verdict, a.uuid, a.now).Ok? ==>
      id in After(w, a, notifiers).rows && After(w, a, notifiers).rows[id].status == Scheduled
  {
    match a
    case CancelAct(i, now, env, db, inval) =>
      GetKeeps(w, i, now, env);
      Service.CancelMeans(w, i, now, env, db, inval);
    case Create(req, v, uuid, newId, now, at, env) =>
      hide Coherent;
      var draft := Draft(req, v, uuid, now);
      if draft.Ok? { SaveMeans(w, draft.value, newId, now, env.db, env.fill); }
    case _ =>
  }

  /** A delivery of a finished notification sends nothing; a recorded one finishes it. */
  lemma DeliversOnlyScheduled(w: World, a: Act, id: Id, notifiers: Notifiers.Table)
    requires Coherent(w) && Sound(a) && Delivers(w, a, id, notifiers)
    ensures id in w.rows && w.rows[id].status == Scheduled
    ensures var w' := After(w, a, notifiers);
      id in w'.rows && (Forgets(w, a, id, notifiers) <==> w'.rows[id].status == Scheduled)
      && (!Forgets(w, a, id, notifiers) ==> w'.rows[id].status == Sent)
  {
    GetKeeps(w, id, a.now, a.env.read);
  }

  function RunActs(w: World, acts: seq<Act>, notifiers: Notifiers.Table): World
    decreases |acts|
  {
    if acts == [] then w else RunActs(After(w, acts[0], notifiers), acts[1..], notifiers)
  }

  function Deliveries(w: World, acts: seq<Act>, id: Id, notifiers: Notifiers.Table): nat
    decreases |acts|
  {
    if acts == [] then 0
    else
      (if Delivers(w, acts[0], id, notifiers) then 1 else 0)
      + Deliveries(After(w, acts[0], notifiers), acts[1..], id, notifiers)
  }

  function Forgotten(w: World, acts: seq<Act>, id: Id, notifiers: Notifiers.Table): nat
    decreases |acts|
  {
    if acts == [] then 0
    else
      (if Forgets(w, acts[0], id, notifiers) then 1 else 0)
      + Forgotten(After(w, acts[0], notifiers), acts[1..], id, notifiers)
  }

  /** Over any sequence of acts: terminal rows are frozen, and a notification is sent successfully at most once
      more than its successful sends went unrecorded; never, once it is finished. */
  lemma {:induction false} SentAtMostOnce(w: World, acts: seq<Act>, id: Id, notifiers: Notifiers.Table)
    requires Coherent(w) && id in w.rows && forall i | 0 <= i < |acts| :: Sound(acts[i])
    ensures var w' := RunActs(w, acts, notifiers);
      && Coherent(w') && id in w'.rows
      && (w.rows[id].status != Scheduled ==> w'.rows[id] == w.rows[id])
    ensures Deliveries(w, acts, id, notifiers)
         <= (if w.rows[id].status == Scheduled then 1 else 0) + Forgotten(w, acts, id, notifiers)
    decreases |acts|
  {
    hide Coherent, After, Delivers, Forgets;
    if acts != [] {
      var w1 := After(w, acts[0], notifiers);
      CoherentAfter(w, acts[0], notifiers);
      StatusMachine(w, acts[0], id, notifiers);
      if Delivers(w, acts[0], id, notifiers) { DeliversOnlyScheduled(w, acts[0], id, notifiers); }
      else { assert !Forgets(w, acts[0], id, notifiers) by { ForgetsDelivers(w, acts[0], id, notifiers); } }
      SentAtMostOnce(w1, acts[1..], id, notifiers);
    }
  }

  lemma ForgetsDelivers(w: World, a: Act, id: Id, notifiers: Notifiers.Table)
    ensures Forgets(w, a, id, notifiers) ==> Delivers(w, a, id, notifiers)
  {
  }
}
