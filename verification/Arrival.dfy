/** When a message can get into a worker's hands: out of its delay queue, or out of another worker's. */
module Arrival {
  import opened Domain
  import Delay
  import DelayQueue
  import opened Protocol
  import opened Invariant
  import opened Shapes
  import opened Accounting
  import opened Safety
  import opened Quiet
  import opened QueueOrder

  // ---- what arrives before a given time -------------------------------------------------------

  /** Message g, in front of message t or t itself, stays in their delay queue until time e. */
  ghost predicate HoldsBack(s: Sys, g: nat, t: nat, retry: bool, e: Time) {
    g <= t && Queued(s, t, retry) && Queued(s, g, retry) && s.msgs[g].place.expiry >= e
  }

  ghost predicate HeldBack(s: Sys, t: nat, e: Time) { exists g: nat, retry: bool :: HoldsBack(s, g, t, retry, e) }

  /** In terms of the queue: the latest expiry up to the message. */
  lemma HeldBackIff(s: Sys, retry: bool, i: nat, e: Time)
    requires i < |Contents(s, s.next, retry)| && TagsBelow(s)
    ensures var q := Contents(s, s.next, retry); HeldBack(s, q[i].item, e) <==> DelayQueue.Latest(q, i) >= e
  {
    var q := Contents(s, s.next, retry);
    ContentsMean(s, s.next, retry);
    var t := q[i].item;
    assert Shows(s, q[i], s.next, retry);
    if g, r :| HoldsBack(s, g, t, r, e) {
      ContentsHold(s, s.next, retry, g);
      var j :| 0 <= j < |q| && q[j].item == g;
      assert Shows(s, q[j], s.next, retry);
      DelayQueue.LatestMonotone(q, j, i);
    }
    if DelayQueue.Latest(q, i) >= e {
      var j := DelayQueue.LatestIsReached(q, i);
      assert Shows(s, q[j], s.next, retry);
      assert HoldsBack(s, q[j].item, t, retry, e);
    }
  }

  /** The publish of a first message can still succeed. */
  predicate Publishable(c: Call) { c.Publishing? ==> c.ttl <= Delay.MAX_TTL }

  /** The wait queue will be blocked until time e. */
  ghost predicate Blocked(s: Sys, e: Time) { exists g: nat :: Queued(s, g, false) && s.msgs[g].place.expiry >= e }

  /** The creation can publish a message that leaves the wait queue before time e. A creation that has not filled the
      cache yet is no case of this: it carries the scheduled value itself. */
  ghost predicate PublishesBefore(s: Sys, c: Call, e: Time) {
    && !Blocked(s, e) && Publishable(c)
    && match c
       case Saved(n) => n.scheduledAt - MILLISECOND + 1 < e
       case Publishing(n, ttl) => s.now + ttl * MILLISECOND < e
       case _ => false
  }

  ghost predicate MessageArrives(s: Sys, id: Id, t: nat, e: Time) {
    t in s.msgs && s.msgs[t].body.id == id && !HeldBack(s, t, e)
  }

  ghost predicate CreationArrives(s: Sys, id: Id, c: nat, e: Time) {
    PendingFor(s, id, c) && PublishesBefore(s, s.calls[c], e)
  }

  /** Some message for this id can be in a worker's hands before time e. */
  ghost predicate Arrives(s: Sys, id: Id, e: Time) {
    (exists t :: MessageArrives(s, id, t, e)) || (exists c :: CreationArrives(s, id, c, e))
  }

  ghost predicate HasMessage(s: Sys, id: Id, t: nat) { t in s.msgs && s.msgs[t].body.id == id }

  ghost predicate MayPublish(s: Sys, id: Id, c: nat) { PendingFor(s, id, c) && Publishable(s.calls[c]) }

  /** Some message for this id exists, or can still be published. */
  ghost predicate ArrivesEver(s: Sys, id: Id) {
    (exists t :: HasMessage(s, id, t)) || (exists c :: MayPublish(s, id, c))
  }

  lemma ArrivesBefore(s: Sys, id: Id, e: Time)
    requires Arrives(s, id, e)
    ensures ArrivesEver(s, id)
  {
    if t :| MessageArrives(s, id, t, e) { assert HasMessage(s, id, t); }
    else {
      var c :| CreationArrives(s, id, c, e);
      assert MayPublish(s, id, c);
    }
  }

  // ---- out of the delay queue -----------------------------------------------------------------

  /** Now, or the latest expiry in the queue below tag n. */
  ghost function Front(s: Sys, n: nat, retry: bool): Time {
    if n == 0 then s.now
    else
      var rest := Front(s, n - 1, retry);
      if Queued(s, n - 1, retry) && s.msgs[n-1].place.expiry > rest then s.msgs[n-1].place.expiry else rest
  }

  lemma {:induction false} FrontIsLatest(s: Sys, n: nat, retry: bool, e: Time)
    requires s.now < e && forall g: nat | g < n && Queued(s, g, retry) :: s.msgs[g].place.expiry < e
    ensures s.now <= Front(s, n, retry) < e
    ensures forall g: nat | g < n && Queued(s, g, retry) :: s.msgs[g].place.expiry <= Front(s, n, retry)
  {
    if n > 0 { FrontIsLatest(s, n - 1, retry, e); }
  }

  /** The messages of one delay queue below tag n are ready; nothing else has changed. */
  ghost predicate Released(s: Sys, s': Sys, n: nat, retry: bool) {
    && s'.cache == s.cache && s'.now == s.now && s'.workers == s.workers && s'.log == s.log && s'.next == s.next
    && s'.calls == s.calls && s'.msgs.Keys == s.msgs.Keys
    && (forall t | t in s.msgs :: s'.msgs[t] ==
          if t < n && Queued(s, t, retry) then s.msgs[t].(place := InReady) else s.msgs[t])
  }

  lemma ReleaseOne(s: Sys, s1: Sys, n: nat, retry: bool)
    requires Released(s, s1, n, retry) && Queued(s, n, retry) && s.msgs[n].place.expiry <= s.now
    ensures Enabled(s1, Release(n)) && Released(s, Apply(s1, Release(n)), n + 1, retry)
  {
  }

  /** Expired messages leave in order. */
  lemma {:induction false} ReleaseBelow(s: Sys, n: nat, retry: bool) returns (steps: seq<Step>)
    requires Good(s) && forall g: nat | g < n && Queued(s, g, retry) :: s.msgs[g].place.expiry <= s.now
    ensures CanRun(s, steps) && Good(Run(s, steps)) && Released(s, Run(s, steps), n, retry)
  {
    hide Good, CanRun, Run, Enabled, Apply, Shape;
    if n == 0 {
      steps := [];
      RunNone(s);
    } else {
      steps := ReleaseBelow(s, n - 1, retry);
      if Queued(s, n - 1, retry) {
        var s1 := Run(s, steps);
        ReleaseOne(s, s1, n - 1, retry);
        GoodStep(s1, Release(n - 1));
        RunThen(s, steps, Release(n - 1));
        steps := steps + [Release(n - 1)];
      }
    }
  }

  // ---- into a worker's hands ------------------------------------------------------------------

  /** A message for this id is ready, and a worker is free to take it. */
  ghost predicate Checkable(s: Sys, id: Id, tag: nat, worker: nat) {
    HasMessage(s, id, tag) && s.msgs[tag].place.InReady? && worker < s.workers && Idle(s, worker)
  }

  lemma CrashReturns(s: Sys, tag: nat)
    requires At(s, tag)
    ensures Enabled(s, Crash(tag))
    ensures var m := s.msgs[tag];
      Apply(s, Crash(tag)) == s.(msgs := s.msgs[tag := m.(place := InReady)],
                                 log := s.log[m.body.id := Charged(s.log[m.body.id], PhaseOf(m.place))])
  {
    RedeliverFrame(s, tag);
    hide Redeliver, Charged, PhaseOf;
  }

  lemma NowIdle(s: Sys, s': Sys, tag: nat)
    requires Prefetch(s) && tag in s.msgs && s.msgs[tag].place.Held?
    requires s'.msgs == s.msgs[tag := s.msgs[tag].(place := InReady)]
    ensures Idle(s', s.msgs[tag].place.worker)
  {
  }

  lemma CrashFrees(s: Sys, tag: nat)
    requires Good(s) && tag in s.msgs && s.msgs[tag].place.Held?
    ensures Enabled(s, Crash(tag))
    ensures var s', w := Apply(s, Crash(tag)), s.msgs[tag].place.worker;
      && s'.msgs == s.msgs[tag := s.msgs[tag].(place := InReady)] && w < s'.workers && Idle(s', w)
      && s'.cache == s.cache && s'.now == s.now && s'.calls == s.calls
      && s'.log.Keys == s.log.Keys && forall id | id in s.log :: s'.log[id].Sends() == s.log[id].Sends()
  {
    hide Good, Enabled, Apply, Idle, Prefetch, PhaseOf, Charged;
    HeldFacts(s, tag);
    GoodPrefetch(s);
    CrashReturns(s, tag);
    ChargedSends(s.log[s.msgs[tag].body.id], PhaseOf(s.msgs[tag].place));
    NowIdle(s, Apply(s, Crash(tag)), tag);
  }

  lemma ChargedSends(l: Ledger, phase: Phase)
    ensures Charged(l, phase).Sends() == l.Sends()
  {
  }

  lemma GoodPrefetch(s: Sys)
    requires Good(s)
    ensures Prefetch(s)
  {
    hide Inv, Fresh, AllCounted;
  }

  lemma HeldFacts(s: Sys, tag: nat)
    requires Good(s) && tag in s.msgs && s.msgs[tag].place.Held?
    ensures At(s, tag) && s.msgs[tag].place.worker < s.workers
  {
    hide Good;
    GoodMessage(s, tag);
  }

  /** A worker that crashes gives its message back and is free; so any message out of the delay queues can be taken. */
  lemma MakeCheckable(s: Sys, id: Id, tag: nat) returns (steps: seq<Step>, worker: nat)
    requires Good(s) && HasMessage(s, id, tag) && !IsDelayed(s.msgs[tag].place) && s.workers > 0 && id in s.log
    ensures CanRun(s, steps)
    ensures var s' := Run(s, steps);
      && Good(s') && Checkable(s', id, tag, worker) && s'.cache == s.cache && s'.now == s.now
      && id in s'.log && s'.log[id].Sends() == s.log[id].Sends()
  {
    hide Good, CanRun, Run, Enabled, Apply, Shape;
    var held := if s.msgs[tag].place.Held? then tag else Holder(s);
    if held in s.msgs && s.msgs[held].place.Held? {
      CrashFrees(s, held);
      GoodStep(s, Crash(held));
      RunOne(s, Crash(held));
      steps, worker := [Crash(held)], s.msgs[held].place.worker;
    } else {
      RunNone(s);
      steps, worker := [], 0;
    }
  }

  /** The message the first worker holds, if it holds one; otherwise no held message at all. */
  ghost function Holder(s: Sys): (t: nat)
    ensures Idle(s, 0) || (t in s.msgs && s.msgs[t].place.Held?)
  {
    if t: nat :| t in s.msgs && s.msgs[t].place.Held? && s.msgs[t].place.worker == 0 then t else 0
  }
}
