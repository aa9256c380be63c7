/** What each step does to the live messages, the ledger and the pending creations, in nine shapes. Everything
    about counting is proved from the shapes alone. */
module Shapes {
  import opened Domain
  import Delay
  import Mappers
  import opened Protocol
  import opened Invariant

  /** A creation whose message has not reached the broker. */
  ghost predicate IsPending(c: Call) { c.Creating? || c.Saved? || c.Publishing? }

  ghost predicate PendingShrinks(s: Sys, s': Sys) {
    forall c | c in s'.calls && IsPending(s'.calls[c]) ::
      && c in s.calls && IsPending(s.calls[c]) && s.calls[c].n == s'.calls[c].n
      && (s'.calls[c] == s.calls[c] || Advances(s.calls[c], s'.calls[c], s.now))
  }

  /** A creation makes its next step towards publishing. */
  predicate Advances(c: Call, c': Call, now: Time) {
    c.Creating? || (c.Saved? && c' == Publishing(c.n, Delay.PublishTtl(c.n.scheduledAt, now)))
  }

  /** A pending creation goes on pending, or is given up and recorded. */
  ghost predicate PendingKept(s: Sys, s': Sys) {
    forall c | c in s.calls && IsPending(s.calls[c]) ::
      (c in s'.calls && IsPending(s'.calls[c]) && s'.calls[c].n == s.calls[c].n) || s.calls[c].n.id in s'.unpublished
  }

  ghost predicate Still(s: Sys, s': Sys) {
    && s'.msgs == s.msgs && s'.next == s.next && s'.log == s.log && s'.abandoned == s.abandoned
    && PendingShrinks(s, s') && PendingKept(s, s')
  }

  ghost predicate Untouched(s: Sys, s': Sys) { Still(s, s') && s'.unpublished == s.unpublished }

  ghost predicate Unwritten(s: Sys, s': Sys) { Untouched(s, s') && SameRows(s, s') }

  ghost predicate SameRecords(s: Sys, s': Sys) { s'.unpublished == s.unpublished && s'.abandoned == s.abandoned }

  /** A message passes to a worker only from the broker, and only when the worker holds nothing. */
  ghost predicate Fetches(s: Sys, p: Place, p': Place) {
    p'.Held? ==> (p.Held? && p.worker == p'.worker) || Idle(s, p'.worker)
  }

  ghost predicate SameRows(s: Sys, s': Sys) { s'.rows == s.rows && s'.hist == s.hist }

  predicate IsAcking(p: Place) { p.Held? && p.pc.Acking? }

  predicate IsRetired(p: Place) { p.Held? && p.pc == Acking(Retried) }

  predicate IsRejected(p: Place) { p.Held? && p.pc.Rejected? }

  /** A send has been made and its result not acted upon. */
  predicate HasResult(p: Place) { p.Held? && (p.pc.Accepted? || p.pc.Rejected?) }

  /** Whether a copy at this place may still be sent successfully before anything is redelivered. */
  function Chance(p: Place): int {
    if PhaseOf(p) == BeforeSend || IsRejected(p) then 1 else 0
  }

  /** One message changes place and nothing else about it. */
  ghost predicate Moves(s: Sys, s': Sys, tag: nat) {
    && tag in s.msgs && tag in s'.msgs && tag < s.next
    && s.msgs[tag].body.id in s.log
    && s'.msgs == s.msgs[tag := s.msgs[tag].(place := s'.msgs[tag].place)]
    && s'.next == s.next && s'.calls == s.calls && SameRecords(s, s')
    && Fetches(s, s.msgs[tag].place, s'.msgs[tag].place) && !IsRetired(s'.msgs[tag].place)
    && !IsDelayed(s'.msgs[tag].place)
  }

  ghost predicate Shift(s: Sys, s': Sys, tag: nat) {
    && Moves(s, s', tag) && s'.log == s.log
    && PhaseOf(s'.msgs[tag].place) == PhaseOf(s.msgs[tag].place)
    && Chance(s'.msgs[tag].place) <= Chance(s.msgs[tag].place) && !HasResult(s'.msgs[tag].place)
  }

  ghost predicate Sends(s: Sys, s': Sys, tag: nat) {
    && Moves(s, s', tag)
    && PhaseOf(s.msgs[tag].place) == BeforeSend && PhaseOf(s'.msgs[tag].place) == AfterSend
    && var id := s.msgs[tag].body.id; var l := s.log[id];
       || (s'.log == s.log[id := Delivered(l, s.now)] && !IsRejected(s'.msgs[tag].place))
       || s'.log == s.log[id := l.(failed := l.failed + 1)]
  }

  ghost predicate Returns(s: Sys, s': Sys, tag: nat) {
    && Moves(s, s', tag) && s'.msgs[tag].place == InReady
    && var id := s.msgs[tag].body.id;
       s'.log == s.log[id := Charged(s.log[id], PhaseOf(s.msgs[tag].place))]
  }

  ghost predicate Leaves(s: Sys, s': Sys, tag: nat) {
    && tag in s.msgs && tag < s.next && s'.msgs == s.msgs - {tag} && IsAcking(s.msgs[tag].place)
    && s'.next == s.next && s'.log == s.log && s'.calls == s.calls && s'.unpublished == s.unpublished
    && s'.abandoned == s.abandoned + (if s.msgs[tag].place.pc.why.ReadFailed? then {s.msgs[tag].body.id} else {})
  }

  /** A retry copy with one more attempt appears; the handled copy only waits to be settled. */
  ghost predicate Forks(s: Sys, s': Sys, tag: nat) {
    && tag in s.msgs && tag < s.next && tag in s'.msgs && s.next in s'.msgs
    && s.msgs[tag].body.id in s.log
    && s'.msgs == s.msgs[tag := s.msgs[tag].(place := s'.msgs[tag].place)][s.next := s'.msgs[s.next]]
    && s'.next == s.next + 1 && s'.calls == s.calls && s'.log == s.log && SameRecords(s, s')
    && PhaseOf(s.msgs[tag].place) == AfterSend && IsRejected(s.msgs[tag].place)
    && PhaseOf(s'.msgs[tag].place) == AfterRetry
    && Fetches(s, s.msgs[tag].place, s'.msgs[tag].place)
    && s'.msgs[s.next].place.InRetry?
    && s.msgs[tag].body.attempts + 1 < MAX_RETRIES
    && s'.msgs[s.next].body == s.msgs[tag].body.(attempts := s.msgs[tag].body.attempts + 1)
  }

  ghost predicate Starts(s: Sys, s': Sys, call: nat) {
    && call in s.calls && IsPending(s.calls[call]) && s.calls[call].n.id in s.log && s.calls[call].n.attempts == 0
    && s.next in s'.msgs
    && s'.msgs == s.msgs[s.next := s'.msgs[s.next]]
    && s'.msgs[s.next].body == s.calls[call].n && s'.msgs[s.next].place.InWait?
    && s'.next == s.next + 1 && s'.calls == s.calls - {call} && SameRecords(s, s')
    && var id := s.calls[call].n.id;
       s'.log == s.log[id := s.log[id].(published := Some(s.now))]
  }

  ghost predicate Births(s: Sys, s': Sys, id: Id, call: nat) {
    && id !in s.log && s'.log == s.log[id := Ledger(0, 0, 0, 0, None, {})]
    && s'.msgs == s.msgs && s'.next == s.next && s'.abandoned == s.abandoned
    && call !in s.calls
    && (|| (s'.calls == s.calls && id in s'.unpublished)
        || (exists c :: IsPending(c) && c.n.id == id && s'.calls == s.calls[call := c]))
  }

  /** Steps that move one message without any effect on the counts. */
  predicate IsShift(step: Step) {
    || step.Release? || step.Deliver? || step.WorkerRead? || step.Update? || step.Invalidate?
    || (step.PublishRetry? && step.outcome.Refused?)
  }

  predicate IsReturn(step: Step) { step.Nack? || step.Crash? }

  predicate IsFork(step: Step) { step.PublishRetry? && Applied(step.outcome) }

  /** A step of the broker or of a worker. */
  predicate Works(step: Step) { IsShift(step) || IsReturn(step) || IsFork(step) || step.Send? || step.Ack? }

  predicate IsStart(step: Step) { step.Publish? && Applied(step.outcome) }

  predicate WritesRow(step: Step) { step.Insert? || step.Update? || step.CancelWrite? }

  ghost predicate Shape(s: Sys, step: Step, s': Sys) {
    Effect(s, step, s') && (WritesRow(step) || SameRows(s, s'))
  }

  ghost predicate Effect(s: Sys, step: Step, s': Sys) {
    if IsShift(step) then Shift(s, s', step.tag)
    else if step.Send? then Sends(s, s', step.tag)
    else if IsReturn(step) then Returns(s, s', step.tag)
    else if IsFork(step) then Forks(s, s', step.tag)
    else if step.Ack? then Leaves(s, s', step.tag)
    else if IsStart(step) then Starts(s, s', step.call)
    else if step.Insert? then Still(s, s') || Births(s, s', step.id, step.call)
    else if step.Publish? || step.CallDies? then Still(s, s')
    else Untouched(s, s')
  }

  // ---- every step has its shape ---------------------------------------------------------------

  lemma TagFacts(s: Sys, tag: nat)
    requires Inv(s) && tag in s.msgs
    ensures tag < s.next && s.msgs[tag].body.id in s.log && s.msgs[tag].body.id in s.rows
  {
    TheMessage(s, tag);
    KeysOf(s);
  }

  lemma PendingUntouched(s: Sys, s': Sys, call: nat)
    requires forall c | c in s'.calls && c != call :: c in s.calls && s'.calls[c] == s.calls[c]
    requires call in s'.calls ==> !IsPending(s'.calls[call])
    requires call in s.calls ==> !IsPending(s.calls[call]) || s.calls[call].n.id in s'.unpublished
    requires forall c | c in s.calls && c != call :: c in s'.calls
    ensures PendingShrinks(s, s') && PendingKept(s, s')
  {
  }

  lemma CreateCallShape(s: Sys, call: nat, o: Outcome)
    ensures Enabled(s, FillCreated(call, o)) ==> Unwritten(s, Apply(s, FillCreated(call, o)))
    ensures Enabled(s, ComputeTtl(call)) ==> Unwritten(s, Apply(s, ComputeTtl(call)))
  {
  }

  lemma CancelWriteShape(s: Sys, call: nat, o: Outcome)
    requires Enabled(s, CancelWrite(call, o))
    ensures Untouched(s, Apply(s, CancelWrite(call, o)))
  {
    hide Mappers.Withdrawn, PendingShrinks, PendingKept;
    PendingUntouched(s, Apply(s, CancelWrite(call, o)), call);
  }

  lemma CancelInvalidateShape(s: Sys, call: nat, o: Outcome)
    requires Enabled(s, CancelInvalidate(call, o))
    ensures Unwritten(s, Apply(s, CancelInvalidate(call, o)))
  {
    hide PendingShrinks, PendingKept;
    PendingUntouched(s, Apply(s, CancelInvalidate(call, o)), call);
  }

  lemma CallDiesShape(s: Sys, call: nat)
    requires Enabled(s, CallDies(call))
    ensures Still(s, Apply(s, CallDies(call))) && SameRows(s, Apply(s, CallDies(call)))
  {
    hide PendingShrinks, PendingKept;
    PendingUntouched(s, Apply(s, CallDies(call)), call);
  }

  lemma BeginGetShape(s: Sys, call: nat, id: Id)
    requires Enabled(s, BeginGet(call, id)) || Enabled(s, BeginCancel(call, id))
    ensures Unwritten(s, Apply(s, BeginGet(call, id)))
    ensures Unwritten(s, Apply(s, BeginCancel(call, id)))
  {
    hide PendingShrinks, PendingKept;
    PendingUntouched(s, Apply(s, BeginGet(call, id)), call);
    PendingUntouched(s, Apply(s, BeginCancel(call, id)), call);
  }

  lemma TickShape(s: Sys, id: Id, dt: nat)
    ensures Unwritten(s, Apply(s, Tick(dt)))
    ensures Unwritten(s, Apply(s, Evict(id)))
  {
  }

  lemma CallReadPending(s: Sys, call: nat, ev: ReadEvent)
    requires Enabled(s, CallRead(call, ev))
    ensures var s' := Apply(s, CallRead(call, ev)); PendingShrinks(s, s') && PendingKept(s, s')
  {
    hide PendingShrinks, PendingKept;
    PendingUntouched(s, Apply(s, CallRead(call, ev)), call);
  }

  lemma CallReadShape(s: Sys, call: nat, ev: ReadEvent)
    requires Enabled(s, CallRead(call, ev))
    ensures Unwritten(s, Apply(s, CallRead(call, ev)))
  {
    CallReadFrame(s, call, ev);
    CallReadPending(s, call, ev);
    hide Apply, ReadEffect, PendingShrinks, PendingKept;
  }

  lemma InsertShape(s: Sys, call: nat, id: Id, req: Request, verdict: Verdict, o: Outcome)
    requires Inv(s) && Enabled(s, Insert(call, id, req, verdict, o))
    ensures var s' := Apply(s, Insert(call, id, req, verdict, o)); Still(s, s') || Births(s, s', id, call)
  {
    hide Inv, Draft, Mappers.Stored;
    KeysOf(s);
    var draft := Draft(req, verdict, id, s.now).value;
    if !o.Refused? && Mappers.HasRecipient(draft) {
      var row := Mappers.Stored(id, draft, s.now);
      assert row.id == id by { Mappers.SaveRoundTrip(id, draft, s.now); }
      assert IsPending(Creating(row, s.now));
    }
  }

  lemma PublishShape(s: Sys, call: nat, o: Outcome)
    requires Inv(s) && Enabled(s, Publish(call, o))
    ensures var s' := Apply(s, Publish(call, o));
      SameRows(s, s') && if Applied(o) then Starts(s, s', call) else Still(s, s')
  {
    hide Inv;
    TheCall(s, call);
    assert s.calls[call].n.attempts == 0 by { TheRow(s, s.calls[call].n.id); }
    hide CallOk;
  }

  lemma BrokerShape(s: Sys, tag: nat, worker: nat)
    requires Inv(s)
    ensures Enabled(s, Release(tag)) ==> Shift(s, Apply(s, Release(tag)), tag) && SameRows(s, Apply(s, Release(tag)))
    ensures Enabled(s, Deliver(tag, worker)) ==>
      Shift(s, Apply(s, Deliver(tag, worker)), tag) && SameRows(s, Apply(s, Deliver(tag, worker)))
  {
    hide Inv, IsHead, Idle;
    if tag in s.msgs { TagFacts(s, tag); }
  }

  lemma AckShape(s: Sys, tag: nat)
    requires Inv(s) && Enabled(s, Ack(tag))
    ensures Leaves(s, Apply(s, Ack(tag)), tag) && SameRows(s, Apply(s, Ack(tag)))
  {
    hide Inv;
    TagFacts(s, tag);
  }

  lemma WorkerReadShape(s: Sys, tag: nat, ev: ReadEvent)
    requires Inv(s) && Enabled(s, WorkerRead(tag, ev))
    ensures Shift(s, Apply(s, WorkerRead(tag, ev)), tag) && SameRows(s, Apply(s, WorkerRead(tag, ev)))
  {
    hide Inv;
    TagFacts(s, tag);
  }

  lemma SendShape(s: Sys, tag: nat, ok: bool)
    requires Inv(s) && Enabled(s, Send(tag, ok))
    ensures Sends(s, Apply(s, Send(tag, ok)), tag) && SameRows(s, Apply(s, Send(tag, ok)))
  {
    hide Inv;
    TagFacts(s, tag);
  }

  lemma UpdateShape(s: Sys, tag: nat, o: Outcome)
    requires Inv(s) && Enabled(s, Update(tag, o))
    ensures Shift(s, Apply(s, Update(tag, o)), tag)
  {
    hide Inv, Mappers.Rewritten;
    TagFacts(s, tag);
  }

  lemma InvalidateShape(s: Sys, tag: nat, o: Outcome)
    requires Inv(s) && Enabled(s, Invalidate(tag, o))
    ensures Shift(s, Apply(s, Invalidate(tag, o)), tag) && SameRows(s, Apply(s, Invalidate(tag, o)))
  {
    hide Inv;
    TagFacts(s, tag);
  }

  lemma RedeliverShape(s: Sys, tag: nat)
    requires Inv(s)
    ensures Enabled(s, Nack(tag)) ==> Returns(s, Apply(s, Nack(tag)), tag) && SameRows(s, Apply(s, Nack(tag)))
    ensures Enabled(s, Crash(tag)) ==> Returns(s, Apply(s, Crash(tag)), tag) && SameRows(s, Apply(s, Crash(tag)))
  {
    hide Inv, PhaseOf, Charged;
    if tag in s.msgs { TagFacts(s, tag); }
  }

  lemma RetryFacts(s: Sys, tag: nat)
    requires tag in s.msgs && s.msgs[tag].place.Held? && s.msgs[tag].place.pc.Rejected?
    requires 0 <= s.msgs[tag].place.pc.n.attempts < MAX_RETRIES && Inv(s)
    ensures tag < s.next && tag in s.msgs && s.msgs[tag].body.id in s.log
    ensures var b, n := s.msgs[tag].body, s.msgs[tag].place.pc.n;
      n == b.(attempts := b.attempts + 1) && b.attempts + 1 < MAX_RETRIES
  {
    hide Inv;
    TagFacts(s, tag);
    TheMessage(s, tag);
  }

  lemma RetryRows(s: Sys, tag: nat, o: Outcome)
    requires Enabled(s, PublishRetry(tag, o))
    ensures SameRows(s, Apply(s, PublishRetry(tag, o)))
  {
    hide Delay.RetryTtl;
  }

  lemma RetryShape(s: Sys, tag: nat, o: Outcome)
    requires Inv(s) && Enabled(s, PublishRetry(tag, o))
    ensures var s' := Apply(s, PublishRetry(tag, o));
      SameRows(s, s') && if Applied(o) then Forks(s, s', tag) else Shift(s, s', tag)
  {
    hide Inv, SameRows, Delay.RetryTtl;
    RetryFacts(s, tag);
    RetryRows(s, tag, o);
  }

  lemma ShapeOf(s: Sys, step: Step)
    requires Inv(s) && Enabled(s, step)
    ensures Shape(s, step, Apply(s, step))
  {
    hide Inv, Enabled, Apply, Still, Untouched, SameRows, Shift, Sends, Returns, Leaves, Forks, Starts, Births;
    match step
    case Tick(dt) => TickShape(s, 0, dt);
    case Evict(id) => TickShape(s, id, 0);
    case Insert(call, id, req, v, o) => InsertShape(s, call, id, req, v, o);
    case FillCreated(call, o) => CreateCallShape(s, call, o);
    case ComputeTtl(call) => CreateCallShape(s, call, Done);
    case Publish(call, o) => PublishShape(s, call, o);
    case BeginGet(call, id) => BeginGetShape(s, call, id);
    case BeginCancel(call, id) => BeginGetShape(s, call, id);
    case CallRead(call, ev) => CallReadShape(s, call, ev);
    case CancelWrite(call, o) => CancelWriteShape(s, call, o);
    case CancelInvalidate(call, o) => CancelInvalidateShape(s, call, o);
    case CallDies(call) => CallDiesShape(s, call);
    case Release(tag) => BrokerShape(s, tag, 0);
    case Deliver(tag, w) => BrokerShape(s, tag, w);
    case WorkerRead(tag, ev) => WorkerReadShape(s, tag, ev);
    case Send(tag, ok) => SendShape(s, tag, ok);
    case Update(tag, o) => UpdateShape(s, tag, o);
    case Invalidate(tag, o) => InvalidateShape(s, tag, o);
    case PublishRetry(tag, o) => RetryShape(s, tag, o);
    case Ack(tag) => AckShape(s, tag);
    case Nack(tag) => RedeliverShape(s, tag);
    case Crash(tag) => RedeliverShape(s, tag);
  }
}
