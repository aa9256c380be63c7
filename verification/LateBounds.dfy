/** States from which no run sends a notification more often than the workers past the status check do. */
module LateBounds {
  import opened Domain
  import Delay
  import opened Protocol
  import opened Invariant
  import opened Shapes
  import opened Accounting
  import opened Safety
  import opened Quiet
  import opened Horizon
  import opened QueueOrder
  import opened Arrival

  // ---- without workers ------------------------------------------------------------------------

  lemma NoWorkersStep(s: Sys, step: Step, id: Id)
    requires Good(s) && s.workers == 0 && Enabled(s, step) && id in s.log
    ensures var s' := Apply(s, step);
      Good(s') && s'.workers == 0 && id in s'.log && s'.log[id].Sends() == s.log[id].Sends()
  {
    assert !step.Send? by { if step.Send? { SendNeedsWorker(s, step.tag, step.ok); } }
    hide Good, Enabled, Apply, Shape;
    GoodStep(s, step);
    OnlySendCounts(s, step, Apply(s, step), id);
  }

  lemma SendNeedsWorker(s: Sys, tag: nat, ok: bool)
    requires Good(s) && Enabled(s, Send(tag, ok))
    ensures s.workers > 0
  {
    hide Good;
    HeldFacts(s, tag);
  }

  lemma {:induction false} NoWorkersRun(s: Sys, steps: seq<Step>, id: Id)
    requires Good(s) && s.workers == 0 && CanRun(s, steps) && id in s.log
    ensures id in Run(s, steps).log && Run(s, steps).log[id].Sends() == s.log[id].Sends()
    decreases |steps|
  {
    hide Good, Enabled, Apply;
    if steps != [] {
      NoWorkersStep(s, steps[0], id);
      NoWorkersRun(Apply(s, steps[0]), steps[1..], id);
    }
  }

  // ---- without a message, now or ever ---------------------------------------------------------

  /** Where a new message comes from: a first publish, or a retry of a handled one. */
  lemma MessageOrigin(s: Sys, step: Step, s': Sys, t: nat)
    requires Shape(s, step, s') && TagsBelow(s) && t in s'.msgs
    ensures || (t in s.msgs && s'.msgs[t].body == s.msgs[t].body)
            || (IsStart(step) && t == s.next && Starts(s, s', step.call))
            || (IsFork(step) && t == s.next && step.tag in s.msgs && s.msgs[step.tag].place.Held?
                && s'.msgs[t].body.id == s.msgs[step.tag].body.id)
  {
  }

  lemma PendingOrigin(s: Sys, step: Step, s': Sys, c: nat, id: Id)
    requires Shape(s, step, s') && id in s.log && PendingFor(s', id, c)
    ensures PendingFor(s, id, c) && (s'.calls[c] == s.calls[c] || Advances(s.calls[c], s'.calls[c], s.now))
  {
  }

  lemma MayAlready(s: Sys, step: Step, s': Sys, c: nat, id: Id)
    requires Shape(s, step, s') && id in s.log && MayPublish(s', id, c)
    ensures ArrivesEver(s, id)
  {
    PendingOrigin(s, step, s', c, id);
    hide Shape;
    assert MayPublish(s, id, c);
  }

  lemma StartFits(s: Sys, call: nat, o: Outcome)
    requires Enabled(s, Publish(call, o)) && Applied(o)
    ensures Publishable(s.calls[call])
  {
  }

  lemma SendIsHeld(s: Sys, tag: nat, ok: bool)
    requires Enabled(s, Send(tag, ok))
    ensures tag in s.msgs && s.msgs[tag].place.Held?
  {
  }

  lemma SilentStep(s: Sys, step: Step, id: Id)
    requires Good(s) && !ArrivesEver(s, id) && Enabled(s, step) && id in s.log
    ensures var s' := Apply(s, step);
      Good(s') && !ArrivesEver(s', id) && id in s'.log && s'.log[id].Sends() == s.log[id].Sends()
  {
    hide Good, Enabled, Apply, Shape, Starts, Publishable;
    if step.Send? {
      SendIsHeld(s, step.tag, step.ok);
      assert !HasMessage(s, id, step.tag);
    }
    if IsStart(step) { StartFits(s, step.call, step.outcome); }
    GoodStep(s, step);
    GoodTags(s);
    var s' := Apply(s, step);
    forall t ensures !HasMessage(s', id, t) {
      if HasMessage(s', id, t) {
        MessageOrigin(s, step, s', t);
        OriginArrives(s, step, s', id, t);
      }
    }
    forall c ensures !MayPublish(s', id, c) {
      if MayPublish(s', id, c) { MayAlready(s, step, s', c, id); }
    }
    SendsElsewhere(s, step, s', id);
  }

  lemma OriginArrives(s: Sys, step: Step, s': Sys, id: Id, t: nat)
    requires t in s'.msgs && s'.msgs[t].body.id == id
    requires || (t in s.msgs && s'.msgs[t].body == s.msgs[t].body)
             || (IsStart(step) && t == s.next && Starts(s, s', step.call) && Publishable(s.calls[step.call]))
             || (IsFork(step) && step.tag in s.msgs && s'.msgs[t].body.id == s.msgs[step.tag].body.id)
    ensures ArrivesEver(s, id)
  {
    if t in s.msgs && s'.msgs[t].body == s.msgs[t].body { assert HasMessage(s, id, t); }
    else if IsFork(step) { assert HasMessage(s, id, step.tag); }
    else { assert MayPublish(s, id, step.call); }
  }

  lemma SendsElsewhere(s: Sys, step: Step, s': Sys, id: Id)
    requires Shape(s, step, s') && id in s.log
    requires step.Send? && step.tag in s.msgs ==> s.msgs[step.tag].body.id != id
    ensures id in s'.log && s'.log[id].Sends() == s.log[id].Sends()
  {
  }

  lemma {:induction false} SilentRun(s: Sys, steps: seq<Step>, id: Id)
    requires Good(s) && !ArrivesEver(s, id) && CanRun(s, steps) && id in s.log
    ensures id in Run(s, steps).log && Run(s, steps).log[id].Sends() == s.log[id].Sends()
    decreases |steps|
  {
    hide Good, ArrivesEver, Enabled, Apply;
    if steps != [] {
      SilentStep(s, steps[0], id);
      SilentRun(Apply(s, steps[0]), steps[1..], id);
    }
  }

  // ---- with a live entry that expires before anything arrives ----------------------------------

  ghost predicate MessagesWait(s: Sys, id: Id, e: Time) { forall t | HasMessage(s, id, t) :: HeldBack(s, t, e) }

  ghost predicate CreationsWait(s: Sys, id: Id, e: Time) {
    forall c | PendingFor(s, id, c) :: !s.calls[c].Creating? && !PublishesBefore(s, s.calls[c], e)
  }

  /** The cache may show the old value until time e, and no message gets to a worker before. */
  ghost predicate Guarded(s: Sys, id: Id, e: Time) {
    Fading(s, id, e) && id in s.log && MessagesWait(s, id, e) && CreationsWait(s, id, e)
  }

  lemma HeldStays(s: Sys, step: Step, g: nat, t: nat, retry: bool, e: Time)
    requires Good(s) && Enabled(s, step) && HoldsBack(s, g, t, retry, e) && s.now < e
    ensures HoldsBack(Apply(s, step), g, t, retry, e)
    ensures t in Apply(s, step).msgs && Apply(s, step).msgs[t] == s.msgs[t]
  {
    hide Good, Enabled, Apply, Shape, IsHead;
    GoodStep(s, step);
    GoodTags(s);
    if Works(step) && step.tag == g { OnlyRelease(s, step, g, retry); }
    if Works(step) && step.tag == t {
      OnlyRelease(s, step, t, retry);
      HeadIsFirst(s, g, t, retry);
    }
    DelayedStays(s, step, Apply(s, step), g, retry);
    DelayedStays(s, step, Apply(s, step), t, retry);
  }

  lemma BlockedStays(s: Sys, step: Step, e: Time)
    requires Good(s) && Enabled(s, step) && Blocked(s, e) && s.now < e
    ensures Blocked(Apply(s, step), e)
  {
    hide Good, Enabled, Apply;
    var g: nat :| Queued(s, g, false) && s.msgs[g].place.expiry >= e;
    assert HoldsBack(s, g, g, false, e);
    HeldStays(s, step, g, g, false, e);
  }

  /** A held back message is in no worker's hands. */
  lemma WaitsOutside(s: Sys, id: Id, t: nat, e: Time)
    requires MessagesWait(s, id, e) && HasMessage(s, id, t)
    ensures IsDelayed(s.msgs[t].place)
  {
    var g: nat, retry: bool :| HoldsBack(s, g, t, retry, e);
  }

  lemma StartEffect(s: Sys, call: nat, o: Outcome)
    requires Enabled(s, Publish(call, o)) && Applied(o)
    ensures var s', c := Apply(s, Publish(call, o)), s.calls[call];
      && c.Publishing? && c.ttl <= Delay.MAX_TTL
      && s'.msgs == s.msgs[s.next := Message(c.n, InWait(s.now + c.ttl * MILLISECOND))]
  {
  }

  lemma NewMessageWaits(s: Sys, call: nat, o: Outcome, id: Id, e: Time)
    requires Good(s) && Enabled(s, Publish(call, o)) && Applied(o) && s.calls[call].n.id == id
    requires CreationsWait(s, id, e) && s.now < e
    ensures HeldBack(Apply(s, Publish(call, o)), s.next, e)
  {
    hide Good, Enabled, Apply, CreationsWait;
    StartEffect(s, call, o);
    GoodTags(s);
    assert call in s.calls && !PublishesBefore(s, s.calls[call], e) by { CreationWaits(s, call, o, id, e); }
    BehindOrLate(s, Apply(s, Publish(call, o)), s.calls[call], e);
  }

  lemma CreationWaits(s: Sys, call: nat, o: Outcome, id: Id, e: Time)
    requires Enabled(s, Publish(call, o)) && s.calls[call].n.id == id && CreationsWait(s, id, e)
    ensures call in s.calls && !PublishesBefore(s, s.calls[call], e)
  {
    assert PendingFor(s, id, call);
  }

  lemma BehindOrLate(s: Sys, s': Sys, c: Call, e: Time)
    requires c.Publishing? && Publishable(c) && !PublishesBefore(s, c, e) && TagsBelow(s)
    requires s'.msgs == s.msgs[s.next := Message(c.n, InWait(s.now + c.ttl * MILLISECOND))]
    ensures HeldBack(s', s.next, e)
  {
    assert Queued(s', s.next, false);
    if g: nat :| Queued(s, g, false) && s.msgs[g].place.expiry >= e { assert HoldsBack(s', g, s.next, false, e); }
    else { assert HoldsBack(s', s.next, s.next, false, e); }
  }

  lemma MessagesStillWait(s: Sys, step: Step, id: Id, e: Time)
    requires Good(s) && Enabled(s, step) && Guarded(s, id, e) && s.now < e
    ensures MessagesWait(Apply(s, step), id, e)
  {
    hide Good, Fading, Enabled, Apply, Shape, Starts, HeldBack, CreationsWait;
    GoodStep(s, step);
    GoodTags(s);
    var s' := Apply(s, step);
    forall t | HasMessage(s', id, t) ensures HeldBack(s', t, e) {
      MessageOrigin(s, step, s', t);
      if HasMessage(s, id, t) { StillHeld(s, step, t, e); }
      else if IsFork(step) { WaitsOutside(s, id, step.tag, e); }
      else {
        assert s.calls[step.call].n.id == id by { StartsFor(s, s', step.call); }
        NewMessageWaits(s, step.call, step.outcome, id, e);
      }
    }
  }

  lemma StartsFor(s: Sys, s': Sys, call: nat)
    requires Starts(s, s', call)
    ensures call in s.calls && IsPending(s.calls[call]) && s.next in s'.msgs && s'.msgs[s.next].body == s.calls[call].n
  {
  }

  lemma StillHeld(s: Sys, step: Step, t: nat, e: Time)
    requires Good(s) && Enabled(s, step) && HeldBack(s, t, e) && s.now < e
    ensures HeldBack(Apply(s, step), t, e)
  {
    hide Good, Enabled, Apply;
    var g: nat, retry: bool :| HoldsBack(s, g, t, retry, e);
    HeldStays(s, step, g, t, retry, e);
    assert HoldsBack(Apply(s, step), g, t, retry, e);
  }

  lemma CreationsStillWait(s: Sys, step: Step, id: Id, e: Time)
    requires Good(s) && Enabled(s, step) && Guarded(s, id, e) && s.now < e
    ensures CreationsWait(Apply(s, step), id, e)
  {
    hide Good, Fading, Enabled, Apply, Shape, MessagesWait, Blocked;
    GoodStep(s, step);
    var s' := Apply(s, step);
    forall c | PendingFor(s', id, c) ensures !s'.calls[c].Creating? && !PublishesBefore(s', s'.calls[c], e) {
      PendingOrigin(s, step, s', c, id);
      if Blocked(s, e) { BlockedStays(s, step, e); }
      else { LaterStill(s, s', s.calls[c], s'.calls[c], e); }
    }
  }

  lemma LaterStill(s: Sys, s': Sys, c: Call, c': Call, e: Time)
    requires !c.Creating? && IsPending(c) && !PublishesBefore(s, c, e) && !Blocked(s, e) && s.now <= s'.now
    requires c' == c || Advances(c, c', s.now)
    ensures !PublishesBefore(s', c', e) && !c'.Creating?
  {
    hide Blocked;
    if c' != c && Publishable(c') { Delay.PublishTtlBounds(c.n.scheduledAt, s.now); }
  }

  lemma GuardedStep(s: Sys, step: Step, id: Id, e: Time)
    requires Good(s) && Enabled(s, step) && Guarded(s, id, e) && s.now < e
    ensures var s' := Apply(s, step);
      Good(s') && Guarded(s', id, e) && s'.log[id].Sends() == s.log[id].Sends()
  {
    hide Good, Fading, Enabled, Apply, Shape, MessagesWait, CreationsWait;
    if step.Send? {
      SendIsHeld(s, step.tag, step.ok);
      if HasMessage(s, id, step.tag) { WaitsOutside(s, id, step.tag, e); }
    }
    MessagesStillWait(s, step, id, e);
    CreationsStillWait(s, step, id, e);
    FadingStep(s, step, id, e);
    SendsElsewhere(s, step, Apply(s, step), id);
  }

  lemma {:induction false} GuardedRun(s: Sys, steps: seq<Step>, id: Id, e: Time)
    requires Good(s) && Guarded(s, id, e) && CanRun(s, steps)
    ensures id in s.log && id in Run(s, steps).log && Run(s, steps).log[id].Sends() <= s.log[id].Sends()
    decreases |steps|
  {
    hide Good, Fading, Enabled, Apply, MessagesWait, CreationsWait;
    if s.now >= e { ExpiredRun(s, steps, id, e); }
    else if steps != [] {
      GuardedStep(s, steps[0], id, e);
      GuardedRun(Apply(s, steps[0]), steps[1..], id, e);
    }
  }

  lemma ExpiredRun(s: Sys, steps: seq<Step>, id: Id, e: Time)
    requires Good(s) && Guarded(s, id, e) && s.now >= e && CanRun(s, steps)
    ensures id in Run(s, steps).log && Run(s, steps).log[id].Sends() <= s.log[id].Sends()
  {
    assert IsQuiet(s, id) && id in s.rows;
    assert Exposed(s, id) == 0 by {
      forall t | t in s.msgs ensures PastCheck(id)(s.msgs[t]) == 0 {
        if HasMessage(s, id, t) { WaitsOutside(s, id, t, e); }
      }
      TotalZero(s.msgs, s.next, PastCheck(id));
    }
    hide Good, Guarded, IsQuiet, Exposed, CanRun, Run;
    QuietRun(s, steps, id);
    ExposedAtMostWorkers(Run(s, steps), id);
  }

  /** A live entry that expires before any message arrives does no harm. */
  lemma NothingArrives(s: Sys, id: Id)
    requires Good(s) && Left(s, id) && NoStaleReaders(s, id) && StaleCache(s, id) && id in s.rows && id in s.log
    requires !Arrives(s, id, s.cache[id].expiresAt)
    ensures Guarded(s, id, s.cache[id].expiresAt)
  {
    hide Good, Left, HeldBack, PublishesBefore;
    var e := s.cache[id].expiresAt;
    forall t | HasMessage(s, id, t) ensures HeldBack(s, t, e) { assert !MessageArrives(s, id, t, e); }
    forall c | PendingFor(s, id, c) ensures !s.calls[c].Creating? && !PublishesBefore(s, s.calls[c], e) {
      assert HarmlessCall(s.calls[c], id);
      assert !CreationArrives(s, id, c, e);
    }
  }
}
