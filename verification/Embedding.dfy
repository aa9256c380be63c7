/** The handler run to its end without interruption is one of the interleaved runs: the protocol's steps, in the
    order the handler makes its calls, change stores and queues exactly as the handler does. So whatever holds in
    every reachable state of the protocol holds after the handler. */
module Embedding {
  import opened Domain
  import Mappers
  import Delay
  import CacheAside
  import RabbitMq
  import Notifiers
  import Consumer
  import opened Protocol
  import opened Answers

  function WorldOf(s: Sys): CacheAside.World { CacheAside.World(s.rows, s.cache) }

  /** The handler holds message `tag` at `pc`; its id is known to rows and bookkeeping. */
  ghost predicate Holding(s: Sys, tag: nat, pc: Pc) {
    && At(s, tag) && s.msgs[tag].place.pc == pc && tag < s.next
    && s.rows.Keys == s.hist.Keys == s.log.Keys
    && 0 <= s.msgs[tag].body.attempts < MAX_RETRIES
  }

  /** Only the handled message has moved, to `pc`; stores aside, all else is as it was. */
  ghost predicate Moved(s: Sys, s': Sys, tag: nat, pc: Pc) {
    && tag in s.msgs && s.msgs[tag].place.Held?
    && s'.msgs == s.msgs[tag := s.msgs[tag].(place := Held(s.msgs[tag].place.worker, pc))]
    && s'.now == s.now && s'.next == s.next
    && s'.log.Keys == s.log.Keys && s'.hist.Keys == s.hist.Keys && s'.rows.Keys == s.rows.Keys
  }

  lemma MovedHolds(s: Sys, s': Sys, tag: nat, from: Pc, to: Pc)
    requires Holding(s, tag, from) && Moved(s, s', tag, to)
    ensures Holding(s', tag, to) && s'.msgs[tag].body == s.msgs[tag].body
  {
  }

  lemma MovedTransitive(s: Sys, s1: Sys, s2: Sys, tag: nat, pc: Pc, pc': Pc)
    requires Moved(s, s1, tag, pc) && Moved(s1, s2, tag, pc')
    ensures Moved(s, s2, tag, pc')
  {
  }

  // ---- single steps ---------------------------------------------------------------------------

  lemma HitStep(s: Sys, tag: nat)
    requires Holding(s, tag, Reading(AtCache)) && CacheAside.Live(WorldOf(s), s.msgs[tag].body.id, s.now)
    ensures Enabled(s, WorkerRead(tag, Hit))
    ensures var s' := Apply(s, WorkerRead(tag, Hit));
      WorldOf(s') == WorldOf(s) && s'.log == s.log && Moved(s, s', tag, AfterRead(s.cache[s.msgs[tag].body.id].value))
  {
  }

  lemma MissStep(s: Sys, tag: nat)
    requires Holding(s, tag, Reading(AtCache))
    ensures Enabled(s, WorkerRead(tag, Miss))
    ensures var s' := Apply(s, WorkerRead(tag, Miss));
      WorldOf(s') == WorldOf(s) && s'.log == s.log && Moved(s, s', tag, Reading(AtPrimary))
  {
  }

  lemma ErrorStep(s: Sys, tag: nat)
    requires Holding(s, tag, Reading(AtPrimary))
    ensures Enabled(s, WorkerRead(tag, ReadError))
    ensures var s' := Apply(s, WorkerRead(tag, ReadError));
      WorldOf(s') == WorldOf(s) && s'.log == s.log && Moved(s, s', tag, Acking(ReadFailed))
  {
  }

  lemma RowStep(s: Sys, tag: nat)
    requires Holding(s, tag, Reading(AtPrimary)) && s.msgs[tag].body.id in s.rows
    ensures Enabled(s, WorkerRead(tag, RowRead))
    ensures var s' := Apply(s, WorkerRead(tag, RowRead));
      && WorldOf(s') == WorldOf(s) && s'.log == s.log
      && Moved(s, s', tag, Reading(AtFill(s.rows[s.msgs[tag].body.id], s.now)))
  {
  }

  lemma FillStep(s: Sys, tag: nat, v: Notification, at: Time, o: Outcome)
    requires Holding(s, tag, Reading(AtFill(v, at)))
    ensures Enabled(s, WorkerRead(tag, Fill(o)))
    ensures var s' := Apply(s, WorkerRead(tag, Fill(o)));
      WorldOf(s') == CacheAside.Put(WorldOf(s), v, s.now, o) && s'.log == s.log && Moved(s, s', tag, AfterRead(v))
  {
  }

  function AfterSending(b: Notification, now: Time, ok: bool): Pc {
    if ok then Accepted(MarkSent(b, now)) else Rejected(MarkUnsent(b))
  }

  /** A send, if there was one, is counted by its result. */
  function SentLedger(l: Ledger, sent: Option<bool>, now: Time): Ledger {
    match sent
    case None => l
    case Some(true) => l.(delivered := l.delivered + 1, times := l.times + {now})
    case Some(false) => l.(failed := l.failed + 1)
  }

  lemma SendStep(s: Sys, tag: nat, ok: bool)
    requires Holding(s, tag, Checked)
    ensures Enabled(s, Send(tag, ok))
    ensures var s' := Apply(s, Send(tag, ok));
      && WorldOf(s') == WorldOf(s) && Moved(s, s', tag, AfterSending(s.msgs[tag].body, s.now, ok))
      && s'.log == s.log[s.msgs[tag].body.id := SentLedger(s.log[s.msgs[tag].body.id], Some(ok), s.now)]
  {
  }

  /** The handler's status write, up to the point where the result is known. */
  lemma UpdateStep(s: Sys, tag: nat, pc: Pc, o: Outcome)
    requires Holding(s, tag, pc) && s.msgs[tag].body.id in s.rows && (pc.Accepted? || IsRejectedFinally(pc))
    requires pc.n.id == s.msgs[tag].body.id
    ensures Enabled(s, Update(tag, o))
    ensures var s' := Apply(s, Update(tag, o));
      && WorldOf(s') == WorldOf(s).(rows := CacheAside.PlainUpdate(s.rows, pc.n, s.now, o).0)
      && s'.log == s.log && Moved(s, s', tag, if o.Done? then Written else Nacking(false))
  {
    hide Mappers.Rewritten;
  }

  lemma InvalidateStep(s: Sys, tag: nat, o: Outcome)
    requires Holding(s, tag, Written)
    ensures Enabled(s, Invalidate(tag, o))
    ensures var s' := Apply(s, Invalidate(tag, o));
      && WorldOf(s') == CacheAside.Drop(WorldOf(s), s.msgs[tag].body.id, o) && s'.log == s.log
      && Moved(s, s', tag, Acking(Finished))
  {
  }

  /** A retry copy, when the broker accepts one, appears behind everything else. */
  lemma RetryStep(s: Sys, tag: nat, n: Notification, o: Outcome)
    requires Holding(s, tag, Rejected(n)) && 0 <= n.attempts < MAX_RETRIES
    ensures Enabled(s, PublishRetry(tag, o))
    ensures var s' := Apply(s, PublishRetry(tag, o));
      var place := Held(s.msgs[tag].place.worker, if o.Done? then Acking(Retried) else Nacking(Applied(o)));
      && WorldOf(s') == WorldOf(s) && s'.log == s.log && s'.now == s.now && s'.rows.Keys == s'.hist.Keys == s'.log.Keys
      && s'.msgs == WithCopy(s.msgs[tag := s.msgs[tag].(place := place)], s.next, RetryCopy(n, s.now, o))
      && s'.next == s.next + |RetryCopy(n, s.now, o)|
  {
  }

  function RetryCopy(n: Notification, now: Time, o: Outcome): seq<Message> {
    if Applied(o) then [Message(n, InRetry(now + Delay.RetryTtl(n.attempts) * MILLISECOND))] else []
  }

  function WithCopy(msgs: map<nat, Message>, next: nat, copy: seq<Message>): map<nat, Message> {
    if copy == [] then msgs else msgs[next := copy[0]]
  }

  /** After the settlement: an acknowledged message is gone, a requeued one is back with its original body. */
  ghost predicate SettledAs(s: Sys, s': Sys, tag: nat, settlement: Consumer.Settlement, copy: seq<Message>) {
    && tag in s.msgs && s'.now == s.now && s'.next == s.next + |copy|
    && var rest := if settlement.Requeued? then s.msgs[tag := s.msgs[tag].(place := InReady)] else s.msgs - {tag};
       s'.msgs == WithCopy(rest, s.next, copy)
  }

  /** The moment before settling. */
  ghost predicate AboutTo(s: Sys, s1: Sys, tag: nat, pc: Pc, copy: seq<Message>) {
    && tag in s.msgs && s.msgs[tag].place.Held? && tag < s.next && At(s1, tag)
    && s1.now == s.now && s1.next == s.next + |copy|
    && s1.msgs == WithCopy(s.msgs[tag := s.msgs[tag].(place := Held(s.msgs[tag].place.worker, pc))], s.next, copy)
  }

  lemma AckStep(s: Sys, s1: Sys, tag: nat, why: Why, copy: seq<Message>)
    requires AboutTo(s, s1, tag, Acking(why), copy)
    ensures Enabled(s1, Ack(tag))
    ensures var s' := Apply(s1, Ack(tag));
      WorldOf(s') == WorldOf(s1) && s'.log == s1.log && SettledAs(s, s', tag, Consumer.Acked, copy)
  {
  }

  lemma NackStep(s: Sys, s1: Sys, tag: nat, dup: bool, copy: seq<Message>)
    requires AboutTo(s, s1, tag, Nacking(dup), copy)
    ensures Enabled(s1, Nack(tag))
    ensures var s', id := Apply(s1, Nack(tag)), s.msgs[tag].body.id;
      && WorldOf(s') == WorldOf(s1) && SettledAs(s, s', tag, Consumer.Requeued, copy)
      && id in s1.log && s'.log == s1.log[id := Charged(s1.log[id], if dup then AfterRetry else AfterSend)]
  {
    RedeliverFrame(s1, tag);
    hide Redeliver;
  }

  // ---- the handler ----------------------------------------------------------------------------

  function ReadSteps(s: Sys, tag: nat, id: Id, env: CacheAside.ReadEnv): seq<Step> {
    if env.cacheUp && CacheAside.Live(WorldOf(s), id, s.now) then [WorkerRead(tag, Hit)]
    else if env.dbUp && id in s.rows
    then [WorkerRead(tag, Miss), WorkerRead(tag, RowRead), WorkerRead(tag, Fill(env.fill))]
    else [WorkerRead(tag, Miss), WorkerRead(tag, ReadError)]
  }

  function PcAfterGet(r: Result<Notification>): Pc {
    PcAfter(AsRead(r))
  }

  lemma MissRuns(s: Sys, tag: nat, o: Outcome)
    requires Holding(s, tag, Reading(AtCache)) && s.msgs[tag].body.id in s.rows
    ensures var steps := [WorkerRead(tag, Miss), WorkerRead(tag, RowRead), WorkerRead(tag, Fill(o))];
      var v := s.rows[s.msgs[tag].body.id];
      && CanRun(s, steps)
      && WorldOf(Run(s, steps)) == CacheAside.Put(WorldOf(s), v, s.now, o)
      && Run(s, steps).log == s.log && Moved(s, Run(s, steps), tag, AfterRead(v))
  {
    var id := s.msgs[tag].body.id;
    hide Enabled, Apply, CanRun, Run, Holding, Moved, AfterRead, CacheAside.Put;
    MissStep(s, tag);
    RunOne(s, WorkerRead(tag, Miss));
    var s1 := Apply(s, WorkerRead(tag, Miss));
    MovedHolds(s, s1, tag, Reading(AtCache), Reading(AtPrimary));
    SameNow(s, s1, tag, Reading(AtPrimary));
    RowStep(s1, tag);
    RunThen(s, [WorkerRead(tag, Miss)], WorkerRead(tag, RowRead));
    var s2 := Apply(s1, WorkerRead(tag, RowRead));
    var pc := Reading(AtFill(s.rows[id], s.now));
    MovedHolds(s1, s2, tag, Reading(AtPrimary), pc);
    MovedTransitive(s, s1, s2, tag, Reading(AtPrimary), pc);
    SameNow(s, s2, tag, pc);
    FillStep(s2, tag, s.rows[id], s.now, o);
    RunThen(s, [WorkerRead(tag, Miss)] + [WorkerRead(tag, RowRead)], WorkerRead(tag, Fill(o)));
    MovedTransitive(s, s2, Apply(s2, WorkerRead(tag, Fill(o))), tag, pc, AfterRead(s.rows[id]));
    assert [WorkerRead(tag, Miss)] + [WorkerRead(tag, RowRead)] + [WorkerRead(tag, Fill(o))]
        == [WorkerRead(tag, Miss), WorkerRead(tag, RowRead), WorkerRead(tag, Fill(o))];
  }

  lemma ErrorRuns(s: Sys, tag: nat)
    requires Holding(s, tag, Reading(AtCache))
    ensures var steps := [WorkerRead(tag, Miss), WorkerRead(tag, ReadError)];
      CanRun(s, steps) && WorldOf(Run(s, steps)) == WorldOf(s) && Run(s, steps).log == s.log
      && Moved(s, Run(s, steps), tag, Acking(ReadFailed))
  {
    hide Enabled, Apply, CanRun, Run, Holding, Moved;
    MissStep(s, tag);
    RunOne(s, WorkerRead(tag, Miss));
    var s1 := Apply(s, WorkerRead(tag, Miss));
    MovedHolds(s, s1, tag, Reading(AtCache), Reading(AtPrimary));
    ErrorStep(s1, tag);
    RunThen(s, [WorkerRead(tag, Miss)], WorkerRead(tag, ReadError));
    MovedTransitive(s, s1, Apply(s1, WorkerRead(tag, ReadError)), tag, Reading(AtPrimary), Acking(ReadFailed));
    assert [WorkerRead(tag, Miss)] + [WorkerRead(tag, ReadError)]
        == [WorkerRead(tag, Miss), WorkerRead(tag, ReadError)];
  }

  lemma ReadRuns(s: Sys, tag: nat, env: CacheAside.ReadEnv)
    requires Holding(s, tag, Reading(AtCache))
    ensures var id := s.msgs[tag].body.id; var steps := ReadSteps(s, tag, id, env);
      && CanRun(s, steps)
      && var (w, r) := CacheAside.Get(WorldOf(s), id, s.now, env);
         WorldOf(Run(s, steps)) == w && Run(s, steps).log == s.log && Moved(s, Run(s, steps), tag, PcAfterGet(r))
  {
    var id := s.msgs[tag].body.id;
    hide Enabled, Apply, CanRun, Run, Holding, Moved;
    if env.cacheUp && CacheAside.Live(WorldOf(s), id, s.now) {
      HitStep(s, tag);
      RunOne(s, WorkerRead(tag, Hit));
    } else if env.dbUp && id in s.rows {
      MissRuns(s, tag, env.fill);
    } else {
      ErrorRuns(s, tag);
    }
  }

  lemma SameNow(s: Sys, s': Sys, tag: nat, pc: Pc)
    requires Moved(s, s', tag, pc)
    ensures s'.now == s.now && s'.rows.Keys == s.rows.Keys && tag in s'.msgs && s'.msgs[tag].body == s.msgs[tag].body
  {
  }

  lemma MovedIsAboutTo(s: Sys, s1: Sys, tag: nat, from: Pc, pc: Pc)
    requires Holding(s, tag, from) && Moved(s, s1, tag, pc)
    ensures AboutTo(s, s1, tag, pc, [])
  {
  }

  /** The steps after a send whose result ends the notification. */
  function FinishSteps(tag: nat, env: Consumer.HandleEnv): seq<Step> {
    if env.db.Done? then [Update(tag, env.db), Invalidate(tag, env.inval), Ack(tag)]
    else [Update(tag, env.db), Nack(tag)]
  }

  /** A requeue is counted as a duplicate if the broker has the retry copy, and as a plain requeue otherwise. */
  function Settled(log: map<Id, Ledger>, id: Id, settlement: Consumer.Settlement, copy: seq<Message>): map<Id, Ledger>
    requires id in log
  {
    if settlement.Requeued? then log[id := Charged(log[id], if copy == [] then AfterSend else AfterRetry)] else log
  }

  lemma HoldingIsLogged(s: Sys, tag: nat, pc: Pc)
    requires Holding(s, tag, pc)
    ensures tag in s.msgs && s.msgs[tag].body.id in s.log
  {
  }

  /** What Finish does to a row that is there. */
  lemma FinishMeans(w: CacheAside.World, contents: RabbitMq.Contents, n: Notification, now: Time,
                    env: Consumer.HandleEnv, sent: bool)
    requires n.id in w.rows
    ensures var h := Consumer.Finish(w, contents, n, now, env, sent);
      var w1 := w.(rows := CacheAside.PlainUpdate(w.rows, n, now, env.db).0);
      && h.world == (if env.db.Done? then CacheAside.Drop(w1, n.id, env.inval) else w1)
      && h.settlement == if env.db.Done? then Consumer.Acked else Consumer.Requeued
  {
    hide CacheAside.Drop, Mappers.Rewritten;
  }

  lemma FinishRuns(s: Sys, tag: nat, pc: Pc, contents: RabbitMq.Contents, env: Consumer.HandleEnv, sent: bool)
    requires Holding(s, tag, pc) && s.msgs[tag].body.id in s.rows && (pc.Accepted? || IsRejectedFinally(pc))
    requires pc.n.id == s.msgs[tag].body.id
    ensures CanRun(s, FinishSteps(tag, env))
    ensures var s' := Run(s, FinishSteps(tag, env));
      var h := Consumer.Finish(WorldOf(s), contents, pc.n, s.now, env, sent);
      && WorldOf(s') == h.world && SettledAs(s, s', tag, h.settlement, [])
      && s.msgs[tag].body.id in s.log && s'.log == Settled(s.log, s.msgs[tag].body.id, h.settlement, [])
  {
    hide Enabled, Apply, CanRun, Run, Holding, Moved, SettledAs, AboutTo, Charged;
    hide Consumer.Finish, CacheAside.PlainUpdate, CacheAside.Drop;
    HoldingIsLogged(s, tag, pc);
    FinishMeans(WorldOf(s), contents, pc.n, s.now, env, sent);
    UpdateStep(s, tag, pc, env.db);
    RunOne(s, Update(tag, env.db));
    var s1 := Apply(s, Update(tag, env.db));
    if env.db.Done? {
      MovedHolds(s, s1, tag, pc, Written);
      InvalidateStep(s1, tag, env.inval);
      RunThen(s, [Update(tag, env.db)], Invalidate(tag, env.inval));
      var s2 := Apply(s1, Invalidate(tag, env.inval));
      MovedTransitive(s, s1, s2, tag, Written, Acking(Finished));
      MovedIsAboutTo(s, s2, tag, pc, Acking(Finished));
      AckStep(s, s2, tag, Finished, []);
      RunThen(s, [Update(tag, env.db)] + [Invalidate(tag, env.inval)], Ack(tag));
      assert [Update(tag, env.db)] + [Invalidate(tag, env.inval)] + [Ack(tag)] == FinishSteps(tag, env);
    } else {
      MovedIsAboutTo(s, s1, tag, pc, Nacking(false));
      NackStep(s, s1, tag, false, []);
      RunThen(s, [Update(tag, env.db)], Nack(tag));
      assert [Update(tag, env.db)] + [Nack(tag)] == FinishSteps(tag, env);
    }
  }

  function RetrySteps(tag: nat, env: Consumer.HandleEnv): seq<Step> {
    if env.publish.Done? then [PublishRetry(tag, env.publish), Ack(tag)]
    else [PublishRetry(tag, env.publish), Nack(tag)]
  }

  function RetrySettlement(env: Consumer.HandleEnv): Consumer.Settlement {
    if env.publish.Done? then Consumer.Acked else Consumer.Requeued
  }

  lemma RetryRuns(s: Sys, tag: nat, n: Notification, env: Consumer.HandleEnv)
    requires Holding(s, tag, Rejected(n)) && 0 <= n.attempts < MAX_RETRIES
    ensures CanRun(s, RetrySteps(tag, env))
    ensures var s' := Run(s, RetrySteps(tag, env));
      && WorldOf(s') == WorldOf(s)
      && SettledAs(s, s', tag, RetrySettlement(env), RetryCopy(n, s.now, env.publish))
      && s.msgs[tag].body.id in s.log
      && s'.log == Settled(s.log, s.msgs[tag].body.id, RetrySettlement(env), RetryCopy(n, s.now, env.publish))
  {
    assert RetryCopy(n, s.now, env.publish) == [] <==> !Applied(env.publish);
    hide Enabled, Apply, CanRun, Run, SettledAs, AboutTo, RetryCopy, Charged;
    RetryStep(s, tag, n, env.publish);
    RunOne(s, PublishRetry(tag, env.publish));
    var s1 := Apply(s, PublishRetry(tag, env.publish));
    var copy := RetryCopy(n, s.now, env.publish);
    if env.publish.Done? {
      RetryAboutTo(s, s1, tag, Rejected(n), Acking(Retried), copy);
      AckStep(s, s1, tag, Retried, copy);
      RunThen(s, [PublishRetry(tag, env.publish)], Ack(tag));
      assert [PublishRetry(tag, env.publish)] + [Ack(tag)] == RetrySteps(tag, env);
    } else {
      RetryAboutTo(s, s1, tag, Rejected(n), Nacking(Applied(env.publish)), copy);
      NackStep(s, s1, tag, Applied(env.publish), copy);
      RunThen(s, [PublishRetry(tag, env.publish)], Nack(tag));
      assert [PublishRetry(tag, env.publish)] + [Nack(tag)] == RetrySteps(tag, env);
    }
  }

  lemma RetryAboutTo(s: Sys, s1: Sys, tag: nat, from: Pc, pc: Pc, copy: seq<Message>)
    requires Holding(s, tag, from) && s1.now == s.now && s1.next == s.next + |copy|
    requires WorldOf(s1) == WorldOf(s) && s1.rows.Keys == s1.hist.Keys == s1.log.Keys
    requires s1.msgs == WithCopy(s.msgs[tag := s.msgs[tag].(place := Held(s.msgs[tag].place.worker, pc))], s.next, copy)
    ensures AboutTo(s, s1, tag, pc, copy)
  {
  }

  lemma SettledFrom(s: Sys, s1: Sys, s': Sys, tag: nat, pc: Pc, settlement: Consumer.Settlement, copy: seq<Message>)
    requires Moved(s, s1, tag, pc) && SettledAs(s1, s', tag, settlement, copy)
    ensures SettledAs(s, s', tag, settlement, copy)
  {
  }

  /** The steps once the status check has passed. */
  function AfterCheckSteps(tag: nat, b: Notification, ok: bool, env: Consumer.HandleEnv): seq<Step> {
    [Send(tag, ok)] + if Consumer.Ends(b, ok) then FinishSteps(tag, env) else RetrySteps(tag, env)
  }

  /** All the steps of one handled delivery. */
  function HandlerSteps(s: Sys, tag: nat, b: Notification, ok: bool, env: Consumer.HandleEnv): seq<Step> {
    var r := CacheAside.Get(WorldOf(s), b.id, s.now, env.read).1;
    ReadSteps(s, tag, b.id, env.read) + (
      if r.Err? || r.value.status != Scheduled then [Ack(tag)]
      else AfterCheckSteps(tag, b, ok, env))
  }

  /** The retry copy the handler leaves behind, if any. */
  function HandlerCopy(s: Sys, b: Notification, ok: bool, env: Consumer.HandleEnv): seq<Message> {
    var r := CacheAside.Get(WorldOf(s), b.id, s.now, env.read).1;
    if r.Err? || r.value.status != Scheduled || Consumer.Ends(b, ok) then []
    else RetryCopy(MarkUnsent(b), s.now, env.publish)
  }

  /** The ledger after a handled delivery. */
  function LedgerAfter(log: map<Id, Ledger>, id: Id, sent: Option<bool>, settlement: Consumer.Settlement,
                       copy: seq<Message>, now: Time): map<Id, Ledger>
    requires id in log
  {
    Settled(log[id := SentLedger(log[id], sent, now)], id, settlement, copy)
  }

  lemma AfterSendRuns(s: Sys, tag: nat, contents: RabbitMq.Contents, notifiers: Notifiers.Table,
                      env: Consumer.HandleEnv)
    requires Holding(s, tag, Checked) && s.msgs[tag].body.id in s.rows
    ensures var b := s.msgs[tag].body;
      var ok := Notifiers.Dispatch(notifiers, b, env.transportOk) == Notifiers.Accepted;
      var steps := AfterCheckSteps(tag, b, ok, env);
      var h := if ok then Consumer.Finish(WorldOf(s), contents, MarkSent(b, s.now), s.now, env, true)
               else Consumer.HandleUnsent(WorldOf(s), contents, b, s.now, env);
      && CanRun(s, steps)
      && WorldOf(Run(s, steps)) == h.world
      && SettledAs(s, Run(s, steps), tag, h.settlement,
                   if Consumer.Ends(b, ok) then [] else RetryCopy(MarkUnsent(b), s.now, env.publish))
      && b.id in s.log
      && Run(s, steps).log == LedgerAfter(s.log, b.id, Some(ok), h.settlement,
           if Consumer.Ends(b, ok) then [] else RetryCopy(MarkUnsent(b), s.now, env.publish), s.now)
  {
    var b := s.msgs[tag].body;
    assert 0 <= b.attempts;
    hide Enabled, Apply, CanRun, Run, Holding, Moved, SettledAs, RetryCopy, Notifiers.Dispatch, FinishSteps, RetrySteps;
    var ok := Notifiers.Dispatch(notifiers, b, env.transportOk) == Notifiers.Accepted;
    SendStep(s, tag, ok);
    RunOne(s, Send(tag, ok));
    var s1 := Apply(s, Send(tag, ok));
    var pc := AfterSending(b, s.now, ok);
    MovedHolds(s, s1, tag, Checked, pc);
    SameNow(s, s1, tag, pc);
    if Consumer.Ends(b, ok) {
      FinishRuns(s1, tag, pc, contents, env, ok);
      RunConcat(s, [Send(tag, ok)], FinishSteps(tag, env));
      SettledFrom(s, s1, Run(s1, FinishSteps(tag, env)), tag, pc,
                  Consumer.Finish(WorldOf(s), contents, pc.n, s.now, env, ok).settlement, []);
    } else {
      RetryRuns(s1, tag, MarkUnsent(b), env);
      RunConcat(s, [Send(tag, ok)], RetrySteps(tag, env));
      SettledFrom(s, s1, Run(s1, RetrySteps(tag, env)), tag, pc,
                  RetrySettlement(env), RetryCopy(MarkUnsent(b), s.now, env.publish));
    }
  }

  /** The publisher's queue and the protocol's messages got the same retry copy, with the same delay. */
  ghost predicate SameCopy(before: RabbitMq.Contents, after: RabbitMq.Contents, copy: seq<Message>, now: Time) {
    if copy == [] then after == before
    else
      var n := copy[0].body; var ttl := Delay.RetryTtl(n.attempts);
      var waiting := RabbitMq.QueueContents(before, RabbitMq.RETRY_QUEUE);
      && after == before[RabbitMq.RETRY_QUEUE := waiting + [RabbitMq.Publishing(n, ttl)]]
      && copy[0].place == InRetry(now + ttl * MILLISECOND)
  }

  lemma HandlerCopyMatches(s: Sys, b: Notification, contents: RabbitMq.Contents, notifiers: Notifiers.Table,
                           env: Consumer.HandleEnv)
    ensures var ok := Notifiers.Dispatch(notifiers, b, env.transportOk) == Notifiers.Accepted;
      var h := Consumer.Handle(WorldOf(s), contents, Some(b), notifiers, s.now, env);
      SameCopy(contents, h.contents, HandlerCopy(s, b, ok, env), s.now)
  {
    hide CacheAside.Get, CacheAside.Update, Notifiers.Dispatch;
  }

  /** From any state in which a worker has just received a message, the protocol's steps run to the end of the
      handler and leave stores, settlement and retry queue exactly as the handler leaves them; the ledger counts the
      handler's send and requeue, and nothing else. */
  lemma HandlerRuns(s: Sys, tag: nat, contents: RabbitMq.Contents, notifiers: Notifiers.Table,
                    env: Consumer.HandleEnv)
    requires Holding(s, tag, Reading(AtCache)) && s.msgs[tag].body.id in s.rows
    ensures var b := s.msgs[tag].body;
      var ok := Notifiers.Dispatch(notifiers, b, env.transportOk) == Notifiers.Accepted;
      var steps := HandlerSteps(s, tag, b, ok, env);
      var h := Consumer.Handle(WorldOf(s), contents, Some(b), notifiers, s.now, env);
      && CanRun(s, steps)
      && WorldOf(Run(s, steps)) == h.world
      && SettledAs(s, Run(s, steps), tag, h.settlement, HandlerCopy(s, b, ok, env))
      && SameCopy(contents, h.contents, HandlerCopy(s, b, ok, env), s.now)
      && b.id in s.log
      && Run(s, steps).log == LedgerAfter(s.log, b.id, h.sent, h.settlement, HandlerCopy(s, b, ok, env), s.now)
  {
    var b := s.msgs[tag].body;
    HandlerCopyMatches(s, b, contents, notifiers, env);
    hide SameCopy;
    hide Enabled, Apply, CanRun, Run, Holding, Moved, SettledAs, Notifiers.Dispatch;
    hide FinishSteps, RetrySteps, ReadSteps, CacheAside.Get;
    var ok := Notifiers.Dispatch(notifiers, b, env.transportOk) == Notifiers.Accepted;
    var read := ReadSteps(s, tag, b.id, env.read);
    ReadRuns(s, tag, env.read);
    var (w, r) := CacheAside.Get(WorldOf(s), b.id, s.now, env.read);
    var s1 := Run(s, read);
    MovedHolds(s, s1, tag, Reading(AtCache), PcAfterGet(r));
    SameNow(s, s1, tag, PcAfterGet(r));
    if r.Err? || r.value.status != Scheduled {
      MovedIsAboutTo(s, s1, tag, Reading(AtCache), PcAfterGet(r));
      AckStep(s, s1, tag, PcAfterGet(r).why, []);
      RunThen(s, read, Ack(tag));
    } else {
      var rest := AfterCheckSteps(tag, b, ok, env);
      AfterSendRuns(s1, tag, contents, notifiers, env);
      RunConcat(s, read, rest);
      var h := if ok then Consumer.Finish(w, contents, MarkSent(b, s.now), s.now, env, true)
               else Consumer.HandleUnsent(w, contents, b, s.now, env);
      SettledFrom(s, s1, Run(s1, rest), tag, Checked, h.settlement, HandlerCopy(s, b, ok, env));
    }
  }
}
