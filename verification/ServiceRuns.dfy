/** The service's calls run to their end without interruption are interleaved runs too: the protocol's steps, in
    the order CreateNotification, GetNotificationByID and CancelNotification make their calls, change the stores
    and the wait queue exactly as those functions do. */
module ServiceRuns {
  import opened Domain
  import Mappers
  import Delay
  import CacheAside
  import RabbitMq
  import Service
  import opened Protocol
  import opened Answers
  import opened Embedding

  /** What a call that has not published leaves alone. */
  ghost predicate Around(s: Sys, s': Sys) {
    && s'.msgs == s.msgs && s'.next == s.next && s'.now == s.now
    && s'.rows.Keys == s.rows.Keys && s'.hist.Keys == s.hist.Keys
  }

  lemma AroundTransitive(s: Sys, s1: Sys, s2: Sys)
    requires Around(s, s1) && Around(s1, s2)
    ensures Around(s, s2)
  {
  }

  // ---- reads ----------------------------------------------------------------------------------

  predicate ReadsAt(c: Call, id: Id, pc: ReadPc) { c == Getting(id, pc) || c == Cancelling(id, pc) }

  ghost predicate AtRead(s: Sys, call: nat, id: Id, pc: ReadPc) { call in s.calls && ReadsAt(s.calls[call], id, pc) }

  lemma ReturnCalls(s: Sys, call: nat, id: Id, pc: ReadPc, ev: ReadEvent, v: Notification)
    requires AtRead(s, call, id, pc) && ReadEnabled(s, id, pc, ev) && ReadNext(s, id, pc, ev) == Return(v)
    ensures Enabled(s, CallRead(call, ev))
    ensures Apply(s, CallRead(call, ev)).calls == CallsAfterRead(s.calls, call, s.calls[call], Return(v))
  {
    assert Enabled(s, CallRead(call, ev));
    hide Enabled, Apply, ReadEnabled, ReadNext;
    CallReadResult(s, call, ev);
  }

  lemma ReadOfReturn(s: Sys, call: nat, id: Id, pc: ReadPc, ev: ReadEvent)
    requires AtRead(s, call, id, pc) && ReadEnabled(s, id, pc, ev)
    ensures Enabled(s, CallRead(call, ev)) && ReadOf(s, CallRead(call, ev), call) == Some(ReadNext(s, id, pc, ev))
  {
    hide ReadEnabled, ReadNext;
  }

  lemma CallHit(s: Sys, call: nat, id: Id)
    requires AtRead(s, call, id, AtCache) && CacheAside.Live(WorldOf(s), id, s.now)
    ensures Enabled(s, CallRead(call, Hit))
    ensures var s' := Apply(s, CallRead(call, Hit));
      WorldOf(s') == WorldOf(s) && Around(s, s')
      && s'.calls == CallsAfterRead(s.calls, call, s.calls[call], Return(s.cache[id].value))
    ensures ReadOf(s, CallRead(call, Hit), call) == Some(Return(s.cache[id].value))
  {
    ReturnCalls(s, call, id, AtCache, Hit, s.cache[id].value);
    ReadOfReturn(s, call, id, AtCache, Hit);
    CallReadFrame(s, call, Hit);
    hide Enabled, Apply, ReadOf, CallsAfterRead;
  }

  lemma CallMiss(s: Sys, call: nat, id: Id)
    requires AtRead(s, call, id, AtCache)
    ensures Enabled(s, CallRead(call, Miss))
    ensures var s' := Apply(s, CallRead(call, Miss));
      WorldOf(s') == WorldOf(s) && Around(s, s') && s'.calls == s.calls[call := s.calls[call].(read := AtPrimary)]
  {
  }

  lemma CallError(s: Sys, call: nat, id: Id)
    requires AtRead(s, call, id, AtPrimary)
    ensures Enabled(s, CallRead(call, ReadError))
    ensures var s' := Apply(s, CallRead(call, ReadError));
      WorldOf(s') == WorldOf(s) && Around(s, s') && s'.calls == s.calls - {call}
    ensures ReadOf(s, CallRead(call, ReadError), call) == Some(Fail)
  {
  }

  lemma CallRow(s: Sys, call: nat, id: Id)
    requires AtRead(s, call, id, AtPrimary) && id in s.rows
    ensures Enabled(s, CallRead(call, RowRead))
    ensures var s' := Apply(s, CallRead(call, RowRead));
      WorldOf(s') == WorldOf(s) && Around(s, s')
      && s'.calls == s.calls[call := s.calls[call].(read := AtFill(s.rows[id], s.now))]
  {
  }

  lemma CallFill(s: Sys, call: nat, id: Id, v: Notification, at: Time, o: Outcome)
    requires AtRead(s, call, id, AtFill(v, at))
    ensures Enabled(s, CallRead(call, Fill(o)))
    ensures var s' := Apply(s, CallRead(call, Fill(o)));
      WorldOf(s') == CacheAside.Put(WorldOf(s), v, s.now, o) && Around(s, s')
      && s'.calls == CallsAfterRead(s.calls, call, s.calls[call], Return(v))
    ensures ReadOf(s, CallRead(call, Fill(o)), call) == Some(Return(v))
  {
    ReturnCalls(s, call, id, AtFill(v, at), Fill(o), v);
    ReadOfReturn(s, call, id, AtFill(v, at), Fill(o));
    CallReadFrame(s, call, Fill(o));
    hide Enabled, Apply, ReadOf, CallsAfterRead;
  }

  function CallReadSteps(s: Sys, call: nat, id: Id, env: CacheAside.ReadEnv): seq<Step> {
    if env.cacheUp && CacheAside.Live(WorldOf(s), id, s.now) then [CallRead(call, Hit)]
    else if env.dbUp && id in s.rows
    then [CallRead(call, Miss)] + [CallRead(call, RowRead)] + [CallRead(call, Fill(env.fill))]
    else [CallRead(call, Miss)] + [CallRead(call, ReadError)]
  }

  lemma CallReadRuns(s: Sys, call: nat, id: Id, env: CacheAside.ReadEnv)
    requires AtRead(s, call, id, AtCache)
    ensures var steps := CallReadSteps(s, call, id, env); var (w, r) := CacheAside.Get(WorldOf(s), id, s.now, env);
      && CanRun(s, steps)
      && WorldOf(Run(s, steps)) == w && Around(s, Run(s, steps))
      && Run(s, steps).calls == CallsAfterRead(s.calls, call, s.calls[call], AsRead(r))
      && LastRead(s, steps, call) == Some(AsRead(r))
  {
    hide Enabled, Apply, CanRun, Run, Around, LastRead, ReadOf;
    if env.cacheUp && CacheAside.Live(WorldOf(s), id, s.now) {
      CallHit(s, call, id);
      RunOne(s, CallRead(call, Hit));
      LastReadOne(s, CallRead(call, Hit), call);
    } else {
      CallMiss(s, call, id);
      RunOne(s, CallRead(call, Miss));
      var s1 := Apply(s, CallRead(call, Miss));
      assert s1.rows == s.rows && s1.now == s.now by { SameClock(s, s1); }
      if env.dbUp && id in s.rows { CallRowRuns(s, s1, call, id, env.fill); }
      else {
        CallError(s1, call, id);
        RunThen(s, [CallRead(call, Miss)], CallRead(call, ReadError));
        LastReadAppend(s, [CallRead(call, Miss)], CallRead(call, ReadError), call);
        AroundTransitive(s, s1, Apply(s1, CallRead(call, ReadError)));
        assert s1.calls - {call} == s.calls - {call};
      }
    }
  }

  lemma SameClock(s: Sys, s': Sys)
    requires Around(s, s')
    ensures s'.now == s.now && s'.rows.Keys == s.rows.Keys && s'.hist.Keys == s.hist.Keys
  {
  }

  lemma CallRowRuns(s: Sys, s1: Sys, call: nat, id: Id, o: Outcome)
    requires AtRead(s, call, id, AtCache) && id in s.rows
    requires CanRun(s, [CallRead(call, Miss)]) && s1 == Run(s, [CallRead(call, Miss)])
    requires Around(s, s1) && WorldOf(s1) == WorldOf(s)
    requires s1.calls == s.calls[call := s.calls[call].(read := AtPrimary)]
    ensures var steps := [CallRead(call, Miss)] + [CallRead(call, RowRead)] + [CallRead(call, Fill(o))];
      && CanRun(s, steps)
      && WorldOf(Run(s, steps)) == CacheAside.Put(WorldOf(s), s.rows[id], s.now, o) && Around(s, Run(s, steps))
      && Run(s, steps).calls == CallsAfterRead(s.calls, call, s.calls[call], Return(s.rows[id]))
      && LastRead(s, steps, call) == Some(Return(s.rows[id]))
  {
    hide Enabled, Apply, CanRun, Run, Around, LastRead, ReadOf;
    assert s1.rows == s.rows && s1.now == s.now by { SameClock(s, s1); }
    CallRow(s1, call, id);
    RunThen(s, [CallRead(call, Miss)], CallRead(call, RowRead));
    var s2 := Apply(s1, CallRead(call, RowRead));
    AroundTransitive(s, s1, s2);
    SameClock(s, s2);
    CallFill(s2, call, id, s.rows[id], s.now, o);
    RunThen(s, [CallRead(call, Miss)] + [CallRead(call, RowRead)], CallRead(call, Fill(o)));
    LastReadAppend(s, [CallRead(call, Miss)] + [CallRead(call, RowRead)], CallRead(call, Fill(o)), call);
    AroundTransitive(s, s2, Apply(s2, CallRead(call, Fill(o))));
    assert s2.calls - {call} == s.calls - {call};
    assert s2.calls[call := CancelChecked(id)] == s.calls[call := CancelChecked(id)];
  }

  /** GetNotificationByID is a run, and answers what the run's last read returned. */
  lemma GetRuns(s: Sys, call: nat, id: Id, env: CacheAside.ReadEnv)
    requires call !in s.calls
    ensures var steps := [BeginGet(call, id)] + CallReadSteps(s, call, id, env);
      && CanRun(s, steps)
      && var (w, r) := CacheAside.Get(WorldOf(s), id, s.now, env);
         && WorldOf(Run(s, steps)) == w && LastRead(s, steps, call) == Some(AsRead(r))
         && Around(s, Run(s, steps)) && Run(s, steps).calls == s.calls
  {
    var s1 := Apply(s, BeginGet(call, id));
    assert AtRead(s1, call, id, AtCache) && WorldOf(s1) == WorldOf(s) && Around(s, s1) && s1.calls - {call} == s.calls;
    hide Enabled, Apply, CanRun, Run, Around, LastRead, ReadOf;
    SameClock(s, s1);
    CallReadRuns(s1, call, id, env);
    RunCons(s, BeginGet(call, id), CallReadSteps(s, call, id, env));
    LastReadCons(s, BeginGet(call, id), CallReadSteps(s, call, id, env), call);
    AroundTransitive(s, s1, Run(s1, CallReadSteps(s, call, id, env)));
  }

  // ---- cancel ---------------------------------------------------------------------------------

  lemma CancelWriteStep(s: Sys, call: nat, id: Id, o: Outcome)
    requires call in s.calls && s.calls[call] == CancelChecked(id) && s.rows.Keys == s.hist.Keys
    ensures Enabled(s, CancelWrite(call, o))
    ensures var s' := Apply(s, CancelWrite(call, o)); var (rows, e) := CacheAside.PlainDelete(s.rows, id, s.now, o);
      && WorldOf(s') == WorldOf(s).(rows := rows) && Around(s, s')
      && s'.calls == if e.None? then s.calls[call := CancelWritten(id)] else s.calls - {call}
  {
    hide Mappers.Withdrawn;
    assert s.calls - {call} == s.calls[call := CancelWritten(id)] - {call};
  }

  lemma CancelInvalidateStep(s: Sys, call: nat, id: Id, o: Outcome)
    requires call in s.calls && s.calls[call] == CancelWritten(id)
    ensures Enabled(s, CancelInvalidate(call, o))
    ensures var s' := Apply(s, CancelInvalidate(call, o));
      WorldOf(s') == CacheAside.Drop(WorldOf(s), id, o) && Around(s, s') && s'.calls == s.calls - {call}
  {
  }

  /** The two steps of the soft delete; the second only after a confirmed first. */
  function DeleteSteps(s: Sys, call: nat, id: Id, db: Outcome, inval: Outcome): seq<Step> {
    [CancelWrite(call, db)]
    + if CacheAside.PlainDelete(s.rows, id, s.now, db).1.None? then [CancelInvalidate(call, inval)] else []
  }

  lemma DeleteRuns(s: Sys, call: nat, id: Id, db: Outcome, inval: Outcome)
    requires call in s.calls && s.calls[call] == CancelChecked(id) && s.rows.Keys == s.hist.Keys
    ensures var steps := DeleteSteps(s, call, id, db, inval);
      && CanRun(s, steps)
      && WorldOf(Run(s, steps)) == CacheAside.Delete(WorldOf(s), id, s.now, db, inval).0
      && Around(s, Run(s, steps)) && Run(s, steps).calls == s.calls - {call}
  {
    hide Enabled, Apply, CanRun, Run, Around, CacheAside.PlainDelete, CacheAside.Drop;
    CancelWriteStep(s, call, id, db);
    RunOne(s, CancelWrite(call, db));
    var s1 := Apply(s, CancelWrite(call, db));
    if CacheAside.PlainDelete(s.rows, id, s.now, db).1.None? {
      CancelInvalidateStep(s1, call, id, inval);
      RunThen(s, [CancelWrite(call, db)], CancelInvalidate(call, inval));
      AroundTransitive(s, s1, Apply(s1, CancelInvalidate(call, inval)));
      assert s1.calls - {call} == s.calls - {call};
    } else {
      assert [CancelWrite(call, db)] + [] == [CancelWrite(call, db)];
    }
  }

  /** The steps of a cancel after it has begun. */
  function CancelBody(s: Sys, call: nat, id: Id, env: CacheAside.ReadEnv, db: Outcome, inval: Outcome): seq<Step> {
    var r := CacheAside.Get(WorldOf(s), id, s.now, env).1;
    CallReadSteps(s, call, id, env)
    + if r.Ok? && r.value.status == Scheduled then DeleteSteps(s, call, id, db, inval) else []
  }

  /** What the caller of a cancel is told, given what its read returned and whether the delete was confirmed. */
  predicate CancelAnswer(read: Result<Notification>, steps: seq<Step>, e: Option<Error>) {
    match read
    case Err(error) => e == Some(error)
    case Ok(n) => if n.status != Scheduled then e == Some(NotScheduled(n.status)) else e.None? <==> Confirmed(steps)
  }

  /** The run ends in the invalidation that only a confirmed delete is followed by. */
  predicate Confirmed(steps: seq<Step>) { steps != [] && steps[|steps|-1].CancelInvalidate? }

  lemma CancelBodyRuns(s: Sys, call: nat, id: Id, env: CacheAside.ReadEnv, db: Outcome, inval: Outcome)
    requires call in s.calls && s.calls[call] == Cancelling(id, AtCache) && s.rows.Keys == s.hist.Keys
    ensures var steps := CancelBody(s, call, id, env, db, inval);
      && CanRun(s, steps)
      && var (w, e) := Service.Cancel(WorldOf(s), id, s.now, env, db, inval);
         && var r := CacheAside.Get(WorldOf(s), id, s.now, env).1;
         && WorldOf(Run(s, steps)) == w && LastRead(s, steps, call) == Some(AsRead(r)) && CancelAnswer(r, steps, e)
         && Around(s, Run(s, steps)) && Run(s, steps).calls == s.calls - {call}
  {
    hide Enabled, Apply, CanRun, Run, Around, LastRead, CacheAside.Delete, DeleteSteps, CancelAnswer;
    CancelAnswers(s, call, id, env, db, inval);
    var (w, r) := CacheAside.Get(WorldOf(s), id, s.now, env);
    assert w.rows == s.rows;
    var read := CallReadSteps(s, call, id, env);
    hide CacheAside.Get, CallReadSteps;
    CallReadRuns(s, call, id, env);
    var s1 := Run(s, read);
    SameClock(s, s1);
    if r.Ok? && r.value.status == Scheduled {
      var rest := DeleteSteps(s, call, id, db, inval);
      assert DeleteSteps(s1, call, id, db, inval) == rest by { SameDelete(s, s1, call, id, db, inval); }
      DeleteRuns(s1, call, id, db, inval);
      RunConcat(s, read, rest);
      DeleteAnswers(s1, call, id, db, inval);
      LastReadConcat(s, read, rest, call);
      AroundTransitive(s, s1, Run(s1, rest));
      assert s1.calls - {call} == s.calls - {call};
    } else {
      assert read + [] == read;
    }
  }

  lemma CancelAnswers(s: Sys, call: nat, id: Id, env: CacheAside.ReadEnv, db: Outcome, inval: Outcome)
    ensures CancelAnswer(CacheAside.Get(WorldOf(s), id, s.now, env).1, CancelBody(s, call, id, env, db, inval),
                         Service.Cancel(WorldOf(s), id, s.now, env, db, inval).1)
  {
    hide CallReadSteps, DeleteSteps, CacheAside.Delete;
    var (w, r) := CacheAside.Get(WorldOf(s), id, s.now, env);
    if r.Ok? && r.value.status == Scheduled {
      DeleteAnswers(s, call, id, db, inval);
      SameDeleteAnswer(WorldOf(s), w, id, s.now, db, inval);
      var read, rest := CallReadSteps(s, call, id, env), DeleteSteps(s, call, id, db, inval);
      assert (read + rest)[|read + rest| - 1] == rest[|rest| - 1];
    }
  }

  lemma SameDeleteAnswer(w: CacheAside.World, w': CacheAside.World, id: Id, now: Time, db: Outcome, inval: Outcome)
    requires w'.rows == w.rows
    ensures CacheAside.Delete(w', id, now, db, inval).1 == CacheAside.Delete(w, id, now, db, inval).1
  {
  }

  lemma SameDelete(s: Sys, s': Sys, call: nat, id: Id, db: Outcome, inval: Outcome)
    requires s'.rows == s.rows && s'.now == s.now
    ensures DeleteSteps(s', call, id, db, inval) == DeleteSteps(s, call, id, db, inval)
  {
  }

  lemma DeleteAnswers(s: Sys, call: nat, id: Id, db: Outcome, inval: Outcome)
    ensures var steps := DeleteSteps(s, call, id, db, inval);
      && steps != [] && (forall i | 0 <= i < |steps| :: !steps[i].CallRead?)
      && (Confirmed(steps) <==> CacheAside.Delete(WorldOf(s), id, s.now, db, inval).1.None?)
  {
  }

  lemma SameBody(s: Sys, s': Sys, call: nat, id: Id, env: CacheAside.ReadEnv, db: Outcome, inval: Outcome)
    requires WorldOf(s') == WorldOf(s) && s'.now == s.now
    ensures CancelBody(s', call, id, env, db, inval) == CancelBody(s, call, id, env, db, inval)
  {
  }

  lemma BodyAnswers(s: Sys, call: nat, id: Id, env: CacheAside.ReadEnv, db: Outcome, inval: Outcome, e: Option<Error>)
    requires CancelAnswer(CacheAside.Get(WorldOf(s), id, s.now, env).1, CancelBody(s, call, id, env, db, inval), e)
    ensures CancelAnswer(CacheAside.Get(WorldOf(s), id, s.now, env).1,
                         [BeginCancel(call, id)] + CancelBody(s, call, id, env, db, inval), e)
  {
    hide CacheAside.Get, CallReadSteps;
    DeleteAnswers(s, call, id, db, inval);
  }

  /** CancelNotification is a run; its answer follows from what the run's read returned and how the run ended. */
  lemma CancelRuns(s: Sys, call: nat, id: Id, env: CacheAside.ReadEnv, db: Outcome, inval: Outcome)
    requires call !in s.calls && s.rows.Keys == s.hist.Keys
    ensures var steps := [BeginCancel(call, id)] + CancelBody(s, call, id, env, db, inval);
      && CanRun(s, steps)
      && var (w, e) := Service.Cancel(WorldOf(s), id, s.now, env, db, inval);
         && var r := CacheAside.Get(WorldOf(s), id, s.now, env).1;
         && WorldOf(Run(s, steps)) == w && LastRead(s, steps, call) == Some(AsRead(r)) && CancelAnswer(r, steps, e)
         && Around(s, Run(s, steps)) && Run(s, steps).calls == s.calls
  {
    hide Enabled, Apply, CanRun, Run, Around, LastRead, ReadOf;
    hide CancelBody, CancelAnswer, Service.Cancel, CacheAside.Get;
    CancelBegins(s, call, id);
    var s1 := Apply(s, BeginCancel(call, id));
    SameClock(s, s1);
    SameBody(s, s1, call, id, env, db, inval);
    var body := CancelBody(s, call, id, env, db, inval);
    CancelBodyRuns(s1, call, id, env, db, inval);
    RunCons(s, BeginCancel(call, id), body);
    LastReadCons(s, BeginCancel(call, id), body, call);
    BodyAnswers(s, call, id, env, db, inval, Service.Cancel(WorldOf(s), id, s.now, env, db, inval).1);
    AroundTransitive(s, s1, Run(s1, body));
  }

  lemma CancelBegins(s: Sys, call: nat, id: Id)
    requires call !in s.calls
    ensures Enabled(s, BeginCancel(call, id))
    ensures var s1 := Apply(s, BeginCancel(call, id));
      && call in s1.calls && s1.calls[call] == Cancelling(id, AtCache) && s1.calls - {call} == s.calls
      && WorldOf(s1) == WorldOf(s) && Around(s, s1)
  {
  }

  // ---- create ---------------------------------------------------------------------------------

  lemma InsertStep(s: Sys, call: nat, id: Id, req: Request, v: Verdict, uuid: Id, o: Outcome)
    requires call !in s.calls && id !in s.rows && Sane(req, v) && Draft(req, v, uuid, s.now).Ok?
    ensures Enabled(s, Insert(call, id, req, v, o))
    ensures var s' := Apply(s, Insert(call, id, req, v, o));
      var (rows, r) := CacheAside.PlainSave(s.rows, Draft(req, v, uuid, s.now).value, id, s.now, o);
      && WorldOf(s') == WorldOf(s).(rows := rows) && s'.msgs == s.msgs && s'.next == s.next && s'.now == s.now
      && s'.unpublished == s.unpublished + (if o.Unconfirmed? then {id} else {})
      && (r.Ok? ==> s'.calls == s.calls[call := Creating(r.value, s.now)] && id in s'.log && r.value.id == id)
      && (r.Err? ==> s'.calls == s.calls)
  {
    Mappers.SaveRoundTrip(id, Draft(req, v, uuid, s.now).value, s.now);
  }

  /** From the stored row on: the cache, then some time, then the TTL. */
  lemma FillCreatedStep(s: Sys, call: nat, n: Notification, at: Time, o: Outcome)
    requires call in s.calls && s.calls[call] == Creating(n, at)
    ensures Enabled(s, FillCreated(call, o))
    ensures var s' := Apply(s, FillCreated(call, o));
      && WorldOf(s') == CacheAside.Put(WorldOf(s), n, s.now, o) && s'.calls == s.calls[call := Saved(n)]
      && s'.msgs == s.msgs && s'.next == s.next && s'.now == s.now && s'.log == s.log && s'.unpublished == s.unpublished
  {
  }

  lemma ComputeTtlStep(s: Sys, call: nat, n: Notification)
    requires call in s.calls && s.calls[call] == Saved(n)
    ensures Enabled(s, ComputeTtl(call))
    ensures var s' := Apply(s, ComputeTtl(call));
      s' == s.(calls := s.calls[call := Publishing(n, Delay.PublishTtl(n.scheduledAt, s.now))])
  {
    hide Delay.PublishTtl;
  }

  lemma SavedSteps(s: Sys, call: nat, n: Notification, at: Time, fill: Outcome, dt: nat)
    requires call in s.calls && s.calls[call] == Creating(n, at)
    ensures var steps := [FillCreated(call, fill)] + [Tick(dt)] + [ComputeTtl(call)];
      && CanRun(s, steps)
      && var s' := Run(s, steps);
         && WorldOf(s') == CacheAside.Put(WorldOf(s), n, s.now, fill)
         && s'.msgs == s.msgs && s'.next == s.next && s'.now == s.now + dt && s'.log == s.log
         && s'.unpublished == s.unpublished
         && s'.calls == s.calls[call := Publishing(n, Delay.PublishTtl(n.scheduledAt, s.now + dt))]
  {
    FillCreatedStep(s, call, n, at, fill);
    var s1 := Apply(s, FillCreated(call, fill));
    assert Enabled(s1, Tick(dt)) && Apply(s1, Tick(dt)) == s1.(now := s1.now + dt);
    hide Enabled, Apply, CanRun, Run, CacheAside.Put, Delay.PublishTtl;
    RunOne(s, FillCreated(call, fill));
    RunThen(s, [FillCreated(call, fill)], Tick(dt));
    ComputeTtlStep(s1.(now := s1.now + dt), call, n);
    RunThen(s, [FillCreated(call, fill)] + [Tick(dt)], ComputeTtl(call));
  }

  lemma PublishStep(s: Sys, call: nat, n: Notification, ttl: nat, o: Outcome)
    requires call in s.calls && s.calls[call] == Publishing(n, ttl) && n.id in s.log
    requires Applied(o) ==> ttl <= Delay.MAX_TTL
    ensures Enabled(s, Publish(call, o))
    ensures var s' := Apply(s, Publish(call, o));
      && WorldOf(s') == WorldOf(s) && s'.calls == s.calls - {call} && s'.now == s.now
      && s'.unpublished == s.unpublished + (if o.Refused? then {n.id} else {})
      && s'.msgs == WithCopy(s.msgs, s.next, FirstCopy(n, ttl, s.now, o))
  {
  }

  /** The message a creation leaves in the wait queue, if any. */
  function FirstCopy(n: Notification, ttl: nat, now: Time, o: Outcome): seq<Message> {
    if Applied(o) then [Message(n, InWait(now + ttl * MILLISECOND))] else []
  }

  function CreateSteps(call: nat, id: Id, req: Request, v: Verdict, dt: nat, env: Service.CreateEnv): seq<Step> {
    [Insert(call, id, req, v, env.db)] + if env.db.Done? then PublishSteps(call, dt, env) else []
  }

  function PublishSteps(call: nat, dt: nat, env: Service.CreateEnv): seq<Step> {
    ([FillCreated(call, env.fill)] + [Tick(dt)] + [ComputeTtl(call)]) + [Publish(call, env.publish)]
  }

  lemma PublishRuns(s: Sys, call: nat, n: Notification, at: Time, dt: nat, env: Service.CreateEnv)
    requires call in s.calls && s.calls[call] == Creating(n, at) && n.id in s.log
    requires Applied(env.publish) ==> Delay.PublishTtl(n.scheduledAt, s.now + dt) <= Delay.MAX_TTL
    ensures CanRun(s, PublishSteps(call, dt, env))
    ensures var s' := Run(s, PublishSteps(call, dt, env));
      && WorldOf(s') == CacheAside.Put(WorldOf(s), n, s.now, env.fill) && s'.calls == s.calls - {call}
      && s'.now == s.now + dt && s'.unpublished == s.unpublished + (if env.publish.Refused? then {n.id} else {})
      && s'.msgs == WithCopy(s.msgs, s.next,
                             FirstCopy(n, Delay.PublishTtl(n.scheduledAt, s.now + dt), s.now + dt, env.publish))
  {
    hide Enabled, Apply, CanRun, Run, Delay.PublishTtl, FirstCopy, CacheAside.Put;
    SavedSteps(s, call, n, at, env.fill, dt);
    var steps := [FillCreated(call, env.fill)] + [Tick(dt)] + [ComputeTtl(call)];
    var s1 := Run(s, steps);
    PublishStep(s1, call, n, Delay.PublishTtl(n.scheduledAt, s.now + dt), env.publish);
    RunThen(s, steps, Publish(call, env.publish));
    assert s1.calls - {call} == s.calls - {call};
  }

  /** The message a create leaves behind, if any. */
  function CreateCopy(draft: Notification, id: Id, now: Time, later: Time, env: Service.CreateEnv): seq<Message>
    requires Mappers.HasRecipient(draft)
  {
    var row := Mappers.Stored(id, draft, now);
    if env.db.Done? then FirstCopy(row, Delay.PublishTtl(row.scheduledAt, later), later, env.publish) else []
  }

  /** CreateNotification, from an accepted request on, is a run: same stores, and the message the publisher puts
      into the wait queue is the one the protocol releases after the same delay. The caller is told of success exactly
      if row and message were confirmed; the id is recorded as unpublished exactly if a row is stored without one. */
  lemma CreateRuns(s: Sys, call: nat, contents: RabbitMq.Contents, req: Request, v: Verdict,
                   uuid: Id, id: Id, dt: nat, env: Service.CreateEnv)
    requires call !in s.calls && id !in s.rows && Sane(req, v) && Draft(req, v, uuid, s.now).Ok?
    requires Applied(env.publish) ==> Delay.PublishTtl(Mappers.StoreTime(req.scheduledAt), s.now + dt) <= Delay.MAX_TTL
    ensures Mappers.HasRecipient(Draft(req, v, uuid, s.now).value)
    ensures var steps := CreateSteps(call, id, req, v, dt, env);
      var c := Service.Create(WorldOf(s), contents, req, v, uuid, id, s.now, s.now + dt, env);
      var copy := CreateCopy(Draft(req, v, uuid, s.now).value, id, s.now, s.now + dt, env);
      && CanRun(s, steps)
      && var s' := Run(s, steps);
         && WorldOf(s') == c.world && s'.calls == s.calls && s'.now == s.now + (if env.db.Done? then dt else 0)
         && s'.msgs == WithCopy(s.msgs, s.next, copy) && SamePublished(contents, c.contents, copy, s.now + dt)
         && s'.unpublished == s.unpublished + (if id in s'.rows && copy == [] then {id} else {})
         && CreateAnswer(c.result, s', id, copy, env)
  {
    hide Enabled, Apply, CanRun, Run, Draft, CacheAside.Put, PublishSteps;
    hide SamePublished, Delay.PublishTtl, Service.Create;
    var draft := Draft(req, v, uuid, s.now).value;
    assert Mappers.HasRecipient(draft);
    var row := Mappers.Stored(id, draft, s.now);
    assert row.scheduledAt == Mappers.StoreTime(req.scheduledAt) && row.id == id;
    CreateMatches(WorldOf(s), contents, req, v, uuid, id, s.now, s.now + dt, env);
    InsertStep(s, call, id, req, v, uuid, env.db);
    RunOne(s, Insert(call, id, req, v, env.db));
    hide Mappers.Stored;
    var s1 := Apply(s, Insert(call, id, req, v, env.db));
    if env.db.Done? {
      PublishRuns(s1, call, row, s.now, dt, env);
      PutKeepsRows(WorldOf(s1), row, s1.now, env.fill);
      RunCons(s, Insert(call, id, req, v, env.db), PublishSteps(call, dt, env));
      assert s1.calls - {call} == s.calls;
    } else {
      assert [Insert(call, id, req, v, env.db)] + [] == [Insert(call, id, req, v, env.db)];
      assert WithCopy(s.msgs, s.next, []) == s.msgs;
    }
  }

  lemma PutKeepsRows(w: CacheAside.World, n: Notification, now: Time, o: Outcome)
    ensures CacheAside.Put(w, n, now, o).rows == w.rows
  {
  }

  /** What Create does with an accepted request, in terms of the stored row and the message for it. */
  lemma CreateMatches(w: CacheAside.World, contents: RabbitMq.Contents, req: Request, v: Verdict,
                      uuid: Id, id: Id, now: Time, later: Time, env: Service.CreateEnv)
    requires id !in w.rows && Sane(req, v) && Draft(req, v, uuid, now).Ok?
    ensures var c := Service.Create(w, contents, req, v, uuid, id, now, later, env);
      var draft := Draft(req, v, uuid, now).value; var row := Mappers.Stored(id, draft, now);
      var w1 := w.(rows := CacheAside.PlainSave(w.rows, draft, id, now, env.db).0);
      && c.world == (if env.db.Done? then CacheAside.Put(w1, row, now, env.fill) else w1)
      && SamePublished(contents, c.contents, CreateCopy(draft, id, now, later, env), later)
      && (c.result.Ok? <==> env.db.Done? && env.publish.Done?) && (c.result.Ok? ==> c.result.value == row)
  {
    hide Draft, CacheAside.Put, Delay.PublishTtl, Mappers.Stored;
  }

  /** What the caller of a create is told. */
  ghost predicate CreateAnswer(r: Result<Notification>, s: Sys, id: Id, copy: seq<Message>, env: Service.CreateEnv) {
    && (r.Ok? <==> env.db.Done? && env.publish.Done?)
    && (r.Ok? ==> |copy| == 1 && copy[0].body == r.value && id in s.rows && s.rows[id] == r.value)
  }

  /** The publisher's queue and the protocol's messages got the same first copy, with the same delay. */
  ghost predicate SamePublished(before: RabbitMq.Contents, after: RabbitMq.Contents,
                                copy: seq<Message>, now: Time)
  {
    if copy == [] then after == before
    else
      var n := copy[0].body; var ttl := Delay.PublishTtl(n.scheduledAt, now);
      var waiting := RabbitMq.QueueContents(before, RabbitMq.WAIT_QUEUE);
      && after == before[RabbitMq.WAIT_QUEUE := waiting + [RabbitMq.Publishing(n, ttl)]]
      && copy[0].place == InWait(now + ttl * MILLISECOND)
  }
}
