/** The two ways a scheduled row is given up, and that it is then given up for good. */
module Orphans {
  import opened Domain
  import Mappers
  import opened Protocol
  import opened Invariant
  import opened InvariantSteps
  import opened Shapes
  import opened Accounting
  import opened Safety

  /** Nothing is left that could act on this id. */
  ghost predicate Orphaned(s: Sys, id: Id) {
    && id in s.log && NoMessages(s, id)
    && (forall c | c in s.calls :: !PendingFor(s, id, c))
  }

  lemma OrphanedCalls(s: Sys, s': Sys, id: Id)
    requires Orphaned(s, id) && s'.msgs == s.msgs && id in s'.log
    requires PendingShrinks(s, s')
          || forall c | c in s'.calls && IsPending(s'.calls[c]) :: s'.calls[c].n.id != id || PendingFor(s, id, c)
    ensures Orphaned(s', id)
  {
    forall c | c in s'.calls ensures !PendingFor(s', id, c) { if c in s.calls { assert !PendingFor(s, id, c); } }
  }

  lemma OrphanedMessages(s: Sys, s': Sys, id: Id)
    requires Orphaned(s, id) && id in s'.log
    requires forall c | c in s'.calls :: c in s.calls && s'.calls[c] == s.calls[c]
    requires forall t | t in s'.msgs :: exists u :: u in s.msgs && s.msgs[u].body.id == s'.msgs[t].body.id
    ensures Orphaned(s', id)
  {
    forall c | c in s'.calls ensures !PendingFor(s', id, c) { assert !PendingFor(s, id, c); }
  }

  lemma OrphanedStarts(s: Sys, s': Sys, call: nat, id: Id)
    requires Orphaned(s, id) && Starts(s, s', call)
    ensures Orphaned(s', id) && s'.log[id] == s.log[id]
  {
    assert !PendingFor(s, id, call);
    forall c | c in s'.calls ensures !PendingFor(s', id, c) { assert !PendingFor(s, id, c); }
  }

  lemma OrphanedStep(s: Sys, step: Step, s': Sys, id: Id)
    requires Shape(s, step, s') && Orphaned(s, id)
    ensures Orphaned(s', id) && s'.log[id] == s.log[id]
  {
    assert id in s.log;
    hide Orphaned;
    if step.Insert? || Still(s, s') { OrphanedCalls(s, s', id); }
    else if step.Publish? { OrphanedStarts(s, s', step.call, id); }
    else { OrphanedHandling(s, step, s', id); }
  }

  lemma OrphanedHandling(s: Sys, step: Step, s': Sys, id: Id)
    requires Shape(s, step, s') && Orphaned(s, id) && Works(step)
    ensures Orphaned(s', id) && s'.log[id] == s.log[id]
  {
    assert id in s.log && step.tag in s.msgs && s.msgs[step.tag].body.id != id by { ShapeTag(s, step, s'); }
    forall t | t in s'.msgs ensures exists u :: u in s.msgs && s.msgs[u].body.id == s'.msgs[t].body.id {
      var u := if IsFork(step) && t == s.next then step.tag else t;
      assert u in s.msgs && s.msgs[u].body.id == s'.msgs[t].body.id;
    }
    hide Orphaned;
    OrphanedMessages(s, s', id);
  }

  /** No continuation ever makes a message for an orphaned id, or sends it again. */
  lemma {:induction false} OrphanIsFinal(s: Sys, steps: seq<Step>, id: Id)
    requires Good(s) && CanRun(s, steps) && Orphaned(s, id)
    ensures Orphaned(Run(s, steps), id) && Run(s, steps).log[id] == s.log[id]
    decreases |steps|
  {
    hide Good, Enabled, Apply, Shape, Orphaned, Grows;
    if steps != [] {
      GoodStep(s, steps[0]);
      OrphanedStep(s, steps[0], Apply(s, steps[0]), id);
      OrphanIsFinal(Apply(s, steps[0]), steps[1..], id);
    }
  }

  /** A first publish that the broker refuses orphans the row it has just stored, in every reachable state. */
  lemma RefusedPublishOrphans(s: Sys, call: nat)
    requires Good(s) && call in s.calls && s.calls[call].Publishing?
    ensures Enabled(s, Publish(call, Refused))
    ensures var s', id := Apply(s, Publish(call, Refused)), s.calls[call].n.id;
      Orphaned(s', id) && s'.rows == s.rows && s'.log[id].Sends() == 0
  {
    hide Inv, Prefetch, AllCounted;
    assert FreshAt(s, call);
    var s', id := Apply(s, Publish(call, Refused)), s.calls[call].n.id;
    forall c | c in s'.calls ensures !PendingFor(s', id, c) { }
  }

  /** A failing status read orphans the row of the only message its worker holds. */
  lemma FailedReadOrphans(s: Sys, tag: nat)
    requires Good(s) && At(s, tag) && s.msgs[tag].place.pc == Reading(AtPrimary)
    requires forall t | t in s.msgs && s.msgs[t].body.id == s.msgs[tag].body.id :: t == tag
    ensures var steps := [WorkerRead(tag, ReadError), Ack(tag)];
      && CanRun(s, steps)
      && Orphaned(Run(s, steps), s.msgs[tag].body.id) && Run(s, steps).rows == s.rows
  {
    hide Good, Run, CanRun;
    FailedReadEffect(s, tag);
    var s1 := Apply(s, WorkerRead(tag, ReadError));
    var s2 := Apply(s1, Ack(tag));
    hide Enabled, Apply;
    assert CanRun(s2, []) && Run(s2, []) == s2 by { RunNone(s2); }
    assert [Ack(tag)] + [] == [Ack(tag)];
    RunCons(s1, Ack(tag), []);
    assert [WorkerRead(tag, ReadError)] + [Ack(tag)] == [WorkerRead(tag, ReadError), Ack(tag)];
    RunCons(s, WorkerRead(tag, ReadError), [Ack(tag)]);
  }

  lemma FailedReadEffect(s: Sys, tag: nat)
    requires Good(s) && At(s, tag) && s.msgs[tag].place.pc == Reading(AtPrimary)
    requires forall t | t in s.msgs && s.msgs[t].body.id == s.msgs[tag].body.id :: t == tag
    ensures Enabled(s, WorkerRead(tag, ReadError))
    ensures var s1 := Apply(s, WorkerRead(tag, ReadError));
      Enabled(s1, Ack(tag)) && Orphaned(Apply(s1, Ack(tag)), s.msgs[tag].body.id) && Apply(s1, Ack(tag)).rows == s.rows
  {
    hide Inv, Fresh, Prefetch, AllCounted;
    var s2, id := Apply(Apply(s, WorkerRead(tag, ReadError)), Ack(tag)), s.msgs[tag].body.id;
    assert s2.calls == s.calls;
    forall c | c in s2.calls ensures !PendingFor(s2, id, c) {
      if PendingFor(s, id, c) { PendingHasNoMessages(s, id, c); assert false; }
    }
  }

  lemma PendingHasNoMessages(s: Sys, id: Id, c: nat)
    requires Fresh(s) && PendingFor(s, id, c)
    ensures NoMessages(s, id)
  {
    assert FreshAt(s, c);
  }

  // ---- the two records tell exactly which scheduled rows are lost ------------------------------

  ghost predicate Recorded(s: Sys) {
    && (forall id | id in s.unpublished :: Orphaned(s, id))
    && (forall id | id in s.abandoned :: id in s.log && s.log[id].published.Some?)
  }

  /** Which steps may add to the two records. */
  lemma BooksOf(s: Sys, step: Step, s': Sys)
    requires Shape(s, step, s')
    ensures !step.Insert? && !step.Publish? && !step.CallDies? ==> s'.unpublished == s.unpublished
    ensures !step.Ack? ==> s'.abandoned == s.abandoned
  {
  }

  /** A creation that ends without a message in the broker leaves an orphan. */
  lemma EndedCreationOrphans(s: Sys, s': Sys, call: nat)
    requires Fresh(s) && call in s.calls && IsPending(s.calls[call])
    requires s'.msgs == s.msgs && s'.log == s.log && s'.calls == s.calls - {call}
    ensures Orphaned(s', s.calls[call].n.id)
  {
    assert FreshAt(s, call);
    forall c | c in s'.calls ensures !PendingFor(s', s.calls[call].n.id, c) {}
  }

  /** So does an insert that the caller does not hear about. */
  lemma UnheardInsertOrphans(s: Sys, s': Sys, id: Id, call: nat)
    requires Fresh(s) && Births(s, s', id, call) && s'.calls == s.calls
    ensures Orphaned(s', id)
  {
    forall c | c in s'.calls ensures !PendingFor(s', id, c) { assert PendingFor(s, id, c) ==> FreshAt(s, c); }
  }

  lemma InsertRecords(s: Sys, call: nat, i: Id, req: Request, v: Verdict, o: Outcome, id: Id)
    requires Inv(s) && Fresh(s) && Enabled(s, Insert(call, i, req, v, o))
    requires id in Apply(s, Insert(call, i, req, v, o)).unpublished && id !in s.unpublished
    ensures Orphaned(Apply(s, Insert(call, i, req, v, o)), id)
  {
    hide Inv, Fresh, Draft, Mappers.Stored, Orphaned, Still;
    var s' := Apply(s, Insert(call, i, req, v, o));
    InsertShape(s, call, i, req, v, o);
    assert id == i && s'.log != s.log && s'.calls == s.calls by { KeysOf(s); }
    assert Births(s, s', id, call) by { StillLog(s, s'); }
    UnheardInsertOrphans(s, s', id, call);
  }

  lemma StillLog(s: Sys, s': Sys)
    ensures Still(s, s') ==> s'.log == s.log
  {
  }

  lemma CreationRecords(s: Sys, call: nat, o: Outcome, id: Id)
    requires Fresh(s)
    ensures Enabled(s, Publish(call, o)) && id in Apply(s, Publish(call, o)).unpublished && id !in s.unpublished
      ==> Orphaned(Apply(s, Publish(call, o)), id)
    ensures Enabled(s, CallDies(call)) && id in Apply(s, CallDies(call)).unpublished && id !in s.unpublished
      ==> Orphaned(Apply(s, CallDies(call)), id)
  {
    hide Fresh, Orphaned;
    if Enabled(s, Publish(call, o)) && id in Apply(s, Publish(call, o)).unpublished && id !in s.unpublished {
      EndedCreationOrphans(s, Apply(s, Publish(call, o)), call);
    }
    if Enabled(s, CallDies(call)) && id in Apply(s, CallDies(call)).unpublished && id !in s.unpublished {
      EndedCreationOrphans(s, Apply(s, CallDies(call)), call);
    }
  }

  lemma AckRecords(s: Sys, tag: nat, id: Id)
    requires Inv(s) && Enabled(s, Ack(tag)) && id in Apply(s, Ack(tag)).abandoned && id !in s.abandoned
    ensures var s' := Apply(s, Ack(tag)); id in s'.log && s'.log[id].published.Some?
  {
    hide Inv;
    TheMessage(s, tag);
  }

  lemma RecordedStep(s: Sys, step: Step)
    requires Good(s) && Recorded(s) && Enabled(s, step)
    ensures Recorded(Apply(s, step))
  {
    hide Inv, Fresh, Prefetch, AllCounted, Enabled, Apply, Shape, Orphaned;
    GoodStep(s, step);
    BooksOf(s, step, Apply(s, step));
    var s' := Apply(s, step);
    forall id | id in s'.unpublished ensures Orphaned(s', id) {
      if id in s.unpublished { OrphanedStep(s, step, s', id); }
      else {
        match step
        case Insert(call, i, req, v, o) => InsertRecords(s, call, i, req, v, o, id);
        case Publish(call, o) => CreationRecords(s, call, o, id);
        case CallDies(call) => CreationRecords(s, call, Done, id);
        case _ =>
      }
    }
    forall id | id in s'.abandoned ensures id in s'.log && s'.log[id].published.Some? {
      if id in s.abandoned { assert LedgerGrows(s.log[id], s'.log[id]); } else { AckRecords(s, step.tag, id); }
    }
  }

  lemma {:induction false} RecordedRun(s: Sys, steps: seq<Step>)
    requires Good(s) && Recorded(s) && CanRun(s, steps)
    ensures Good(Run(s, steps)) && Recorded(Run(s, steps))
    decreases |steps|
  {
    hide Good, Recorded, Enabled, Apply, Shape, Grows;
    if steps != [] {
      GoodStep(s, steps[0]);
      RecordedStep(s, steps[0]);
      RecordedRun(Apply(s, steps[0]), steps[1..]);
    }
  }

  lemma ReachableRecorded(s: Sys)
    requires Reachable(s)
    ensures Good(s) && Recorded(s)
  {
    hide Good, Run, CanRun;
    var workers: nat, now: Time, steps: seq<Step> :|
      CanRun(Init(workers, now), steps) && Run(Init(workers, now), steps) == s;
    InitGood(workers, now);
    assert Recorded(Init(workers, now));
    hide Recorded, Init;
    RecordedRun(Init(workers, now), steps);
  }

  /** Exactly which scheduled rows are lost: those whose message never reached the broker, and those with a
      message acknowledged on a failed read and no other message left. */
  lemma ScheduledRowIsLostIff(s: Sys, id: Id)
    requires Reachable(s) && id in s.rows && s.rows[id].status == Scheduled
    ensures Orphaned(s, id) <==> id in s.unpublished || (id in s.abandoned && NoMessages(s, id))
  {
    hide Inv, Fresh, Prefetch, AllCounted, Reachable, Orphaned;
    ReachableRecorded(s);
    if Orphaned(s, id) { OrphanedIsGivenUp(s, id); }
    else if id in s.abandoned && NoMessages(s, id) { AbandonedIsOrphaned(s, id); }
  }

  lemma OrphanedIsGivenUp(s: Sys, id: Id)
    requires Good(s) && Orphaned(s, id) && id in s.rows && s.rows[id].status == Scheduled
    ensures GivenUp(s, id) && NoMessages(s, id)
  {
    hide Fresh, Prefetch;
    CurrentValue(s, id);
    hide Inv;
    assert Counted(s, id);
    assert forall t: nat :: !SupportedBy(s, id, t);
  }

  lemma AbandonedIsOrphaned(s: Sys, id: Id)
    requires Good(s) && Recorded(s) && id in s.abandoned && NoMessages(s, id)
    ensures Orphaned(s, id)
  {
    hide Inv, Prefetch, AllCounted;
    forall c | c in s.calls ensures !PendingFor(s, id, c) { assert PendingFor(s, id, c) ==> FreshAt(s, c); }
  }

  /** Such states are reached: four steps from an empty system to a scheduled row nobody will ever send. */
  lemma SomeRowIsOrphaned(now: Time)
    ensures exists s: Sys, id: Id :: Reachable(s) && id in s.rows && s.rows[id].status == Scheduled && Orphaned(s, id)
  {
    hide Reachable, Good, Draft, Mappers.Stored;
    var req := Request("a", Email, "s", "m", now, None);
    var v := Verdict(true, None);
    var s0 := Init(1, now);
    ReachableInit(1, now);
    var row := StoredDraft(req, v, now);
    var s1 := Apply(s0, Insert(0, 0, req, v, Done));
    ReachableStep(s0, Insert(0, 0, req, v, Done));
    assert s1.rows[0] == row && s1.calls[0] == Creating(row, now) && 0 in s1.log;
    var s2 := Apply(s1, FillCreated(0, Done));
    ReachableStep(s1, FillCreated(0, Done));
    assert s2.calls[0] == Saved(row) && s2.rows == s1.rows && s2.log == s1.log;
    var s3 := Apply(s2, ComputeTtl(0));
    ReachableStep(s2, ComputeTtl(0));
    assert s3.calls[0].Publishing? && s3.calls[0].n == row && s3.rows == s1.rows && s3.log == s1.log;
    hide Apply, Enabled;
    ReachableGood(s3);
    RefusedPublishOrphans(s3, 0);
    ReachableStep(s3, Publish(0, Refused));
    var s4 := Apply(s3, Publish(0, Refused));
    assert s4.rows[0] == row;
  }

  lemma StoredDraft(req: Request, v: Verdict, now: Time) returns (row: Notification)
    requires Sane(req, v) && req.channel == Email && v.addressOk
    ensures Draft(req, v, 0, now).Ok? && Mappers.HasRecipient(Draft(req, v, 0, now).value)
    ensures row == Mappers.Stored(0, Draft(req, v, 0, now).value, now) && row.id == 0 && row.status == Scheduled
  {
    row := Mappers.Stored(0, Draft(req, v, 0, now).value, now);
    Mappers.SaveRoundTrip(0, Draft(req, v, 0, now).value, now);
  }
}
