/** The main results, over every state that any interleaved run can reach. */
module Theorems {
  import opened Domain
  import Delay
  import opened Protocol
  import opened Invariant
  import opened InvariantSteps
  import opened Shapes
  import opened Accounting
  import opened Safety
  import Notifiers
  import Quiet
  import Drain

  lemma Parts(s: Sys)
    requires Reachable(s)
    ensures Inv(s) && Fresh(s) && Prefetch(s) && AllCounted(s) && Keys(s)
  {
    hide Inv, Fresh, Prefetch, AllCounted;
    ReachableGood(s);
    KeysOf(s);
  }

  /** No scheduled notification is lost: unless it was given up, an unfinished message for it is alive, or its
      creation is still going to publish one. */
  lemma NoScheduledRowIsLost(s: Sys, id: Id)
    requires Reachable(s) && id in s.rows && s.rows[id].status == Scheduled
    requires id !in s.unpublished && id !in s.abandoned
    ensures
      || (exists t :: t in s.msgs && s.msgs[t].body.id == id && !IsFinished(s.msgs[t].place))
      || (exists c :: c in s.calls && IsPending(s.calls[c]) && s.calls[c].n.id == id)
  {
    hide Inv, Fresh, Prefetch, Reachable;
    Parts(s);
    CurrentValue(s, id);
    assert Counted(s, id);
    if c :| PendingFor(s, id, c) { assert s.calls[c].n.id == id; }
    else { var t :| SupportedBy(s, id, t); assert s.msgs[t].body.id == id; }
  }

  /** Sends are bounded by the attempts, the redeliveries after a send and the duplicated retry copies. */
  lemma SendBound(s: Sys, id: Id)
    requires Reachable(s) && id in s.rows
    ensures id in s.log
    ensures s.log[id].Sends() <= 5 + s.log[id].requeues + 5 * s.log[id].duplicates
  {
    hide Fresh, Prefetch, Reachable, Total;
    Parts(s);
    Ranges(s);
    hide Inv;
    assert Counted(s, id);
    var w := PotentialOf(id);
    forall t | t in s.msgs ensures w(s.msgs[t]) >= 0 { RangeOf(s, t); }
    TotalAtLeast(s.msgs, s.next, w);
  }

  /** How often a notification is reported as sent, whatever interleaves: once, and once more for each redelivery of
      a copy that had been handed to the notifier and for each copy whose retry was published twice. */
  lemma DeliveryBound(s: Sys, id: Id)
    requires Reachable(s) && id in s.rows
    ensures id in s.log
    ensures s.log[id].delivered <= 1 + s.log[id].requeues + s.log[id].duplicates
  {
    hide Fresh, Prefetch, Reachable, Total, Budget, Exact, Covered;
    Parts(s);
    hide Inv;
    assert Counted(s, id);
    TotalAtLeast(s.msgs, s.next, ChanceOf(id));
  }

  lemma {:induction false} FaultlessRun(s: Sys, steps: seq<Step>)
    requires Good(s) && CanRun(s, steps) && Faultless(s) && forall i | 0 <= i < |steps| :: !IsReturn(steps[i])
    ensures Faultless(Run(s, steps))
    decreases |steps|
  {
    hide Good, Enabled, Apply, Shape, Faultless, Grows;
    if steps != [] {
      GoodStep(s, steps[0]);
      FaultlessStep(s, steps[0], Apply(s, steps[0]));
      FaultlessRun(Apply(s, steps[0]), steps[1..]);
    }
  }

  /** A run without requeues and crashes sends a notification at most five times, and successfully at most once. */
  lemma SendBoundWithoutFaults(workers: nat, now: Time, steps: seq<Step>, id: Id)
    requires CanRun(Init(workers, now), steps) && id in Run(Init(workers, now), steps).rows
    requires forall i | 0 <= i < |steps| :: !IsReturn(steps[i])
    ensures var s := Run(Init(workers, now), steps);
      id in s.log && s.log[id].Sends() <= 5 && s.log[id].delivered <= 1
  {
    hide Good, Run, CanRun, Reachable;
    InitGood(workers, now);
    assert Faultless(Init(workers, now));
    FaultlessRun(Init(workers, now), steps);
    assert Reachable(Run(Init(workers, now), steps)) by { RunReaches(workers, now, steps); }
    SendBound(Run(Init(workers, now), steps), id);
    DeliveryBound(Run(Init(workers, now), steps), id);
  }

  lemma RunReaches(workers: nat, now: Time, steps: seq<Step>)
    requires CanRun(Init(workers, now), steps)
    ensures Reachable(Run(Init(workers, now), steps))
  {
  }

  /** The sends a copy's body and place account for. */
  function Accounted(m: Message, requeues: nat): int {
    m.body.attempts + requeues + (if PhaseOf(m.place) == AfterSend then 1 else 0)
  }

  /** While no copy was duplicated: one active copy at most, and its body and place tell exactly how many sends
      were made; so a notification is failed on the send that makes them five plus the requeues. */
  lemma ExactSends(s: Sys, t: nat)
    requires Reachable(s) && t in s.msgs && Active(s.msgs[t])
    ensures s.msgs[t].body.id in s.log
    ensures var id := s.msgs[t].body.id; var l := s.log[id];
      l.duplicates == 0 ==> l.Sends() == Accounted(s.msgs[t], l.requeues)
    ensures var id := s.msgs[t].body.id;
      s.log[id].duplicates == 0 ==> forall u | u in s.msgs && s.msgs[u].body.id == id && Active(s.msgs[u]) :: u == t
    ensures var l := s.log[s.msgs[t].body.id];
      l.duplicates == 0 && s.msgs[t].place.Held? && IsRejectedFinally(s.msgs[t].place.pc)
      ==> l.Sends() == 5 + l.requeues
  {
    hide Inv, Fresh, Prefetch, Reachable;
    Parts(s);
    TheMessage(s, t);
    hide Carries, Due;
    assert Counted(s, s.msgs[t].body.id) by { TagCounted(s, t); }
  }

  lemma TagCounted(s: Sys, t: nat)
    requires Inv(s) && AllCounted(s) && t in s.msgs
    ensures s.msgs[t].body.id in s.log && Counted(s, s.msgs[t].body.id)
  {
    hide Inv, Counted;
    TheMessage(s, t);
    KeysOf(s);
  }

  /** Terminal statuses are truthful, and a sent time is the time of a successful send, to the microsecond. */
  lemma StatusesAreTruthful(s: Sys, id: Id)
    requires Reachable(s) && id in s.rows
    ensures id in s.log
    ensures var row, l := s.rows[id], s.log[id];
      && (row.status == Failed ==> l.failed >= 5 && row.attempts == 5 && row.sentAt.None?)
      && (row.status == Sent ==> l.delivered >= 1 && row.attempts <= 4 && row.sentAt.Some?)
      && (row.sentAt.Some? ==> l.delivered >= 1 && exists t :: t in l.times && row.sentAt.value == t - t % 1000)
    ensures forall t | t in s.msgs && s.msgs[t].body.id == id :: s.msgs[t].body.attempts <= s.log[id].failed
  {
    hide Fresh, Prefetch, AllCounted, Reachable;
    Parts(s);
    TheRow(s, id);
    forall t | t in s.msgs && s.msgs[t].body.id == id ensures s.msgs[t].body.attempts <= s.log[id].failed {
      TheMessage(s, t);
    }
    hide Inv;
    assert Truthful(s.log[id], s.hist[id][|s.hist[id]|-1].row);
  }

  /** A cancelled row that never was sent or failed is what was inserted, but for the status and the stamp: no attempts,
      no sent time. */
  lemma CancelledOnly(s: Sys, id: Id)
    requires Reachable(s) && id in s.rows && id in s.hist
    requires forall i | 0 <= i < |s.hist[id]| :: s.hist[id][i].row.status !in {Sent, Failed}
    ensures |s.hist[id]| >= 1
    ensures var row, first := s.rows[id], s.hist[id][0].row;
      && row == first.(status := row.status, updatedAt := row.updatedAt)
      && row.attempts == 0 && row.sentAt.None?
  {
    hide Inv, Fresh, Prefetch, AllCounted, Reachable, HistoryOk;
    Parts(s);
    TheRow(s, id);
    HistoryStarts(id, s.hist[id], s.log[id], s.now);
    OnlyCancelled(id, s.hist[id], s.log[id], s.now, |s.hist[id]| - 1);
  }

  lemma HistoryStarts(id: Id, h: seq<Version>, l: Ledger, now: Time)
    requires HistoryOk(id, h, l, now)
    ensures |h| > 0
  {
  }

  lemma {:induction false} OnlyCancelled(id: Id, h: seq<Version>, l: Ledger, now: Time, i: nat)
    requires HistoryOk(id, h, l, now) && i < |h|
    requires forall j | 0 <= j < |h| :: h[j].row.status !in {Sent, Failed}
    ensures h[i].row == h[0].row.(status := h[i].row.status, updatedAt := h[i].row.updatedAt)
    ensures h[0].row.attempts == 0 && h[0].row.sentAt.None?
  {
    if i > 0 {
      OnlyCancelled(id, h, l, now, i - 1);
      assert Successive(h, i - 1);
    }
  }

  /** Every message repeats its row's original content, with 0..4 attempts, status scheduled and no sent time. */
  lemma MessagesCarryTheRow(s: Sys, t: nat)
    requires Reachable(s) && t in s.msgs
    ensures var b := s.msgs[t].body;
      && b.id in s.rows && b.status == Scheduled && b.sentAt.None? && 0 <= b.attempts <= 4
      && var row := s.rows[b.id];
         b == row.(status := Scheduled, attempts := b.attempts, sentAt := None, updatedAt := b.updatedAt)
    ensures WellFormed(s.msgs[t].body)
  {
    hide Fresh, Prefetch, AllCounted, Reachable;
    Parts(s);
    TheMessage(s, t);
    TheRow(s, s.msgs[t].body.id);
    hide Inv;
    var h := s.hist[s.msgs[t].body.id];
    assert SameContent(h[|h|-1].row, h[0].row);
  }

  /** So no send ever fails for want of a notifier or by a notifier's own guard: it fails exactly if the transport does,
      and is accepted exactly if the transport is, or the notifier only logs. */
  lemma SendsFailOnlyInTransport(s: Sys, t: nat, notifiers: Notifiers.Table, transportOk: bool)
    requires Reachable(s) && t in s.msgs && Notifiers.Complete(notifiers)
    ensures var b := s.msgs[t].body; var r := Notifiers.Dispatch(notifiers, b, transportOk);
      && b.channel in notifiers
      && (r == Notifiers.Accepted <==> transportOk || notifiers[b.channel] == Notifiers.LogNotifier)
      && (r == Notifiers.TransportError <==> !transportOk && notifiers[b.channel] != Notifiers.LogNotifier)
  {
    hide Reachable;
    MessagesCarryTheRow(s, t);
    Notifiers.OnlyTransportFails(notifiers, s.msgs[t].body, transportOk);
  }

  /** A row that is still scheduled is exactly as it was inserted. */
  lemma ScheduledMeansUntouched(s: Sys, id: Id)
    requires Reachable(s) && id in s.rows && s.rows[id].status == Scheduled
    ensures id in s.hist && |s.hist[id]| == 1 && s.hist[id][0].row == s.rows[id]
    ensures s.rows[id].attempts == 0 && s.rows[id].sentAt.None?
  {
    hide Fresh, Prefetch, AllCounted, Reachable;
    Parts(s);
    TheRow(s, id);
    CurrentValue(s, id);
  }

  /** No continuation of any run makes a row scheduled again. */
  lemma NeverScheduledAgain(s: Sys, id: Id, steps: seq<Step>)
    requires Reachable(s) && id in s.rows && s.rows[id].status != Scheduled && CanRun(s, steps)
    ensures id in Run(s, steps).rows && Run(s, steps).rows[id].status != Scheduled
  {
    hide Good, Inv, Reachable, CanRun, Run;
    ReachableGood(s);
    GoodRun(s, steps);
    var s' := Run(s, steps);
    assert Left(s, id) by { GoodInv(s); TheRow(s, id); CurrentValue(s, id); }
    LeftGrows(s, s', id);
    hide Grows;
    GoodInv(s');
    KeysOf(s');
    CurrentValue(s', id);
  }

  /** Whatever a read step returns, to a worker or to an API call, is a value the row really held at an earlier
      time; a cache hit shows the value at the time it was fetched for the cache. */
  lemma ReadsAreHistorical(s: Sys, id: Id, pc: ReadPc, ev: ReadEvent)
    requires Reachable(s) && ReadEnabled(s, id, pc, ev) && ReadNext(s, id, pc, ev).Return?
    requires (exists t :: t in s.msgs && s.msgs[t].body.id == id
                          && s.msgs[t].place.Held? && s.msgs[t].place.pc == Reading(pc))
          || (exists c :: c in s.calls && (s.calls[c] == Getting(id, pc) || s.calls[c] == Cancelling(id, pc)))
    ensures id in s.hist && exists t | t <= s.now :: HeldAt(s.hist[id], ReadNext(s, id, pc, ev).value, t)
    ensures ev.Hit? ==> id in s.fetched && HeldAt(s.hist[id], ReadNext(s, id, pc, ev).value, s.fetched[id])
  {
    hide Fresh, Prefetch, AllCounted, Reachable;
    Parts(s);
    if t :| t in s.msgs && s.msgs[t].body.id == id && s.msgs[t].place.Held? && s.msgs[t].place.pc == Reading(pc) {
      TheMessage(s, t);
    } else {
      var c :| c in s.calls && (s.calls[c] == Getting(id, pc) || s.calls[c] == Cancelling(id, pc));
      TheCall(s, c);
    }
    assert ReadOk(s, id, pc);
    if ev.Hit? { TheEntry(s, id); assert HeldAt(s.hist[id], s.cache[id].value, s.fetched[id]); }
    else { assert HeldAt(s.hist[id], pc.value, pc.readAt); }
  }

  /** If every cache fill follows its primary read or insert within d, a hit shows a value that was current
      less than the TTL plus d ago. */
  lemma HitsAreFresh(s: Sys, id: Id, d: nat)
    requires Reachable(s) && id in s.cache && s.now < s.cache[id].expiresAt
    requires id in s.fetched && (s.cache[id].expiresAt - CACHE_TTL) - s.fetched[id] <= d
    ensures id in s.hist
    ensures exists t | s.now - 86_400_000_000_000 - d < t <= s.now :: HeldAt(s.hist[id], s.cache[id].value, t)
  {
    hide Fresh, Prefetch, AllCounted, Reachable;
    Parts(s);
    TheEntry(s, id);
    hide Inv;
    assert HeldAt(s.hist[id], s.cache[id].value, s.fetched[id]);
  }

  /** A message in the ready queue or in a worker's hands, hence every send, comes later than its row's schedule
      less one millisecond plus ten times (2^attempts - 1) seconds, and no earlier than the first publish plus the
      same. */
  lemma SendsAreNotEarly(s: Sys, t: nat)
    requires Reachable(s) && t in s.msgs && (s.msgs[t].place.InReady? || s.msgs[t].place.Held?)
    ensures var b := s.msgs[t].body;
      && b.id in s.rows && b.id in s.log && s.log[b.id].published.Some? && 0 <= b.attempts <= 4
      && s.now > s.rows[b.id].scheduledAt - 1_000_000 + 10 * (Delay.Pow2(b.attempts) - 1) * 1_000_000_000
      && s.now >= s.log[b.id].published.value + 10 * (Delay.Pow2(b.attempts) - 1) * 1_000_000_000
  {
    MessagesCarryTheRow(s, t);
    hide Fresh, Prefetch, AllCounted, Reachable;
    Parts(s);
    TheMessage(s, t);
    hide Inv, Carries;
    Delay.RetryWaitClosedForm(s.msgs[t].body.attempts);
  }

  /** After a failed send the attempts are 1 to 5: exactly five is recorded as failed, and a retry published
      before that waits exactly 10, 20, 40 or 80 seconds. */
  lemma RetriesWaitExactly(s: Sys, t: nat, o: Outcome)
    requires Reachable(s) && t in s.msgs && s.msgs[t].place.Held? && s.msgs[t].place.pc.Rejected?
    ensures var n := s.msgs[t].place.pc.n;
      && n.attempts == s.msgs[t].body.attempts + 1 && 1 <= n.attempts <= 5
      && n.status == (if n.attempts == 5 then Failed else Scheduled)
      && (n.attempts < 5 ==> Delay.RetryTtl(n.attempts) == 5_000 * Delay.Pow2(n.attempts))
    ensures Enabled(s, Update(t, o)) <==> s.msgs[t].place.pc.n.attempts == 5
    ensures Enabled(s, PublishRetry(t, o)) <==> s.msgs[t].place.pc.n.attempts < 5
  {
    hide Inv, Fresh, Prefetch, AllCounted, Reachable, Enabled;
    Parts(s);
    RejectedBody(s, t);
    var n := s.msgs[t].place.pc.n;
    if n.attempts < MAX_RETRIES { Delay.ReachableRetryTtl(n.attempts); }
    RejectedNext(s, t, o);
  }

  lemma RejectedBody(s: Sys, t: nat)
    requires Inv(s) && t in s.msgs && s.msgs[t].place.Held? && s.msgs[t].place.pc.Rejected?
    ensures At(s, t) && s.msgs[t].place.pc.n == MarkUnsent(s.msgs[t].body)
    ensures s.msgs[t].body.status == Scheduled && 0 <= s.msgs[t].body.attempts < MAX_RETRIES
  {
    hide Inv, Due;
    TheMessage(s, t);
  }

  lemma RejectedNext(s: Sys, t: nat, o: Outcome)
    requires At(s, t) && s.msgs[t].place.pc.Rejected? && 0 <= s.msgs[t].place.pc.n.attempts
    ensures Enabled(s, Update(t, o)) <==> s.msgs[t].place.pc.n.attempts >= MAX_RETRIES
    ensures Enabled(s, PublishRetry(t, o)) <==> s.msgs[t].place.pc.n.attempts < MAX_RETRIES
  {
  }

  /** Prefetch one: a worker never holds two unsettled deliveries. */
  lemma OneUnsettledPerWorker(s: Sys, t: nat, u: nat)
    requires Reachable(s) && t in s.msgs && u in s.msgs && s.msgs[t].place.Held? && s.msgs[u].place.Held?
    requires s.msgs[t].place.worker == s.msgs[u].place.worker
    ensures t == u
  {
    hide Inv, Fresh, AllCounted, Reachable;
    Parts(s);
  }

  /** Once a row has left status scheduled and nothing shows it as scheduled any more, at most the workers past
      the status check send again, in any continuation: no more than there are workers, and one at most for a
      single message. */
  lemma LateSendsAreBounded(s: Sys, id: Id, steps: seq<Step>)
    requires Reachable(s) && id in s.rows && Quiet.IsQuiet(s, id) && CanRun(s, steps)
    ensures id in s.log && id in Run(s, steps).log
    ensures Run(s, steps).log[id].Sends() <= s.log[id].Sends() + Quiet.Exposed(s, id)
    ensures Quiet.Exposed(s, id) <= s.workers
    ensures Quiet.Single(s, id) ==> Quiet.Exposed(s, id) <= 1
  {
    hide Good, Reachable, Inv, Quiet.IsQuiet, Quiet.Exposed, Run, CanRun;
    ReachableGood(s);
    GoodInv(s);
    KeysOf(s);
    Quiet.QuietRun(s, steps, id);
    Quiet.ExposedAtMostWorkers(s, id);
    Quiet.ExposedAtMostWorkers(Run(s, steps), id);
    if Quiet.Single(s, id) { Quiet.ExposedOfSingle(s, id); }
  }

  /** With the five workers of one process: five late sends at most. */
  lemma LateSendsOfOneProcess(now: Time, before: seq<Step>, steps: seq<Step>, id: Id)
    requires CanRun(Init(5, now), before)
    requires var s := Run(Init(5, now), before);
      id in s.rows && Quiet.IsQuiet(s, id) && CanRun(s, steps)
    ensures var s := Run(Init(5, now), before);
      id in s.log && id in Run(s, steps).log && Run(s, steps).log[id].Sends() <= s.log[id].Sends() + 5
  {
    hide Good, Reachable, Quiet.IsQuiet, Quiet.Exposed, Run, CanRun;
    InitGood(5, now);
    GoodRun(Init(5, now), before);
    assert Reachable(Run(Init(5, now), before)) by { RunReaches(5, now, before); }
    LateSendsAreBounded(Run(Init(5, now), before), id, steps);
  }

  /** With repository calls taken as one step each, and their invalidation reaching the cache: from the moment a
      worker records a terminal status, at most the workers already past the status check send again; nobody does if
      the recorded message was the only one. */
  lemma SendsAfterUpdate(s: Sys, tag: nat, steps: seq<Step>)
    requires Reachable(s) && CanRun(s, steps) && |steps| >= 2
    requires steps[0] == Update(tag, Done) && steps[1] == Invalidate(tag, Done)
    requires tag in s.msgs && Quiet.NoStaleReaders(s, s.msgs[tag].body.id)
    ensures var s', id := Run(s, steps), s.msgs[tag].body.id;
      && id in s.log && id in s'.log
      && s'.log[id].Sends() <= s.log[id].Sends() + Quiet.Exposed(s, id) && Quiet.Exposed(s, id) <= s.workers
      && (Quiet.Single(s, id) ==> s'.log[id].Sends() <= s.log[id].Sends())
  {
    assert !Quiet.PastCheckAt(s.msgs[tag].place);
    hide Good, Reachable, Enabled, Apply;
    hide Quiet.Single, Quiet.IsQuiet, Quiet.Exposed, Quiet.NoStaleReaders, Quiet.PastCheckAt;
    ReachableGood(s);
    Quiet.UpdateQuiets(s, tag);
    SplitRun(s, steps);
    if Quiet.Single(s, s.msgs[tag].body.id) { Quiet.ExposedOfSingle(s, s.msgs[tag].body.id); }
    QuietFrom(s, Apply(Apply(s, steps[0]), steps[1]), steps[1..][1..], s.msgs[tag].body.id);
  }

  /** The same from the moment a cancel commits; with a single message, one send at most. */
  lemma SendsAfterCancel(s: Sys, call: nat, steps: seq<Step>)
    requires Reachable(s) && CanRun(s, steps) && |steps| >= 2
    requires steps[0] == CancelWrite(call, Done) && steps[1] == CancelInvalidate(call, Done)
    requires call in s.calls && s.calls[call].CancelChecked? && s.calls[call].id in s.log
    requires Quiet.NoStaleReaders(s, s.calls[call].id)
    ensures var s', id := Run(s, steps), s.calls[call].id;
      && id in s'.log
      && s'.log[id].Sends() <= s.log[id].Sends() + Quiet.Exposed(s, id) && Quiet.Exposed(s, id) <= s.workers
      && (Quiet.Single(s, id) ==> s'.log[id].Sends() <= s.log[id].Sends() + 1)
  {
    hide Good, Reachable, Enabled, Apply, Quiet.Single, Quiet.IsQuiet, Quiet.Exposed, Quiet.NoStaleReaders;
    ReachableGood(s);
    if Quiet.Single(s, s.calls[call].id) { Quiet.ExposedOfSingle(s, s.calls[call].id); }
    SplitRun(s, steps);
    Quiet.CancelQuiets(s, Apply(s, steps[0]), Apply(Apply(s, steps[0]), steps[1]), call, s.calls[call].id);
    QuietFrom(s, Apply(Apply(s, steps[0]), steps[1]), steps[1..][1..], s.calls[call].id);
  }

  lemma SplitRun(s: Sys, steps: seq<Step>)
    requires CanRun(s, steps) && |steps| >= 2
    ensures Enabled(s, steps[0]) && Enabled(Apply(s, steps[0]), steps[1])
    ensures var s2, rest := Apply(Apply(s, steps[0]), steps[1]), steps[1..][1..];
      CanRun(s2, rest) && Run(s, steps) == Run(s2, rest)
  {
    hide Enabled, Apply;
  }

  lemma QuietFrom(s: Sys, s': Sys, rest: seq<Step>, id: Id)
    requires Good(s) && Good(s') && Quiet.IsQuiet(s', id) && CanRun(s', rest)
    requires id in s.log && id in s'.log && id in s'.rows
    requires s'.log[id].Sends() == s.log[id].Sends() && Quiet.Exposed(s', id) <= Quiet.Exposed(s, id)
    ensures id in Run(s', rest).log && Run(s', rest).log[id].Sends() <= s.log[id].Sends() + Quiet.Exposed(s, id)
    ensures Quiet.Exposed(s, id) <= s.workers
  {
    hide Good, Quiet.IsQuiet, Quiet.Exposed, Run, CanRun;
    Quiet.QuietRun(s', rest, id);
    Quiet.ExposedAtMostWorkers(s, id);
    Quiet.ExposedAtMostWorkers(Run(s', rest), id);
  }

  /** The queues can always be emptied, and an emptied system has nothing scheduled left but what was given up
      or not yet published. */
  lemma DrainLeavesNothing(s: Sys) returns (steps: seq<Step>)
    requires Reachable(s) && s.workers > 0
    ensures CanRun(s, steps) && Drain.AllSmooth(steps) && Drain.MacroSteps(steps) <= 15 * |s.msgs|
    ensures var s' := Run(s, steps); s'.msgs == map[] && forall id | id in s'.rows ::
      s'.rows[id].status != Scheduled || GivenUp(s', id) || exists c :: PendingFor(s', id, c)
  {
    hide Good, Reachable, Run, CanRun, Inv;
    ReachableGood(s);
    steps := Drain.CanDrain(s);
    Drain.DrainBound(s, steps);
    GoodRun(s, steps);
    var s' := Run(s, steps);
    forall id | id in s'.rows
      ensures s'.rows[id].status != Scheduled || GivenUp(s', id) || exists c :: PendingFor(s', id, c)
    {
      Drain.EmptyMeansDone(s', id);
    }
  }
}
