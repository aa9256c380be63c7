/** The protocol's two delay queues obey the head-of-line law: a message leaves no earlier than the latest expiry
    among itself and those ahead of it. */
module QueueOrder {
  import opened Domain
  import Delay
  import DelayQueue
  import Drain
  import opened Protocol
  import opened Invariant
  import opened Shapes
  import opened Accounting
  import opened Safety

  /** The wait queue or the retry queue. */
  predicate InQueue(p: Place, retry: bool) { if retry then p.InRetry? else p.InWait? }

  ghost predicate Queued(s: Sys, t: nat, retry: bool) { t in s.msgs && InQueue(s.msgs[t].place, retry) }

  /** A delay queue, head first, as a log of messages seen now. */
  ghost function Contents(s: Sys, n: nat, retry: bool): seq<DelayQueue.Delayed<nat>> {
    if n == 0 then []
    else if Queued(s, n - 1, retry)
    then Contents(s, n - 1, retry) + [DelayQueue.Delayed(n - 1, s.now, s.msgs[n-1].place.expiry)]
    else Contents(s, n - 1, retry)
  }

  ghost predicate Shows(s: Sys, d: DelayQueue.Delayed<nat>, n: nat, retry: bool) {
    d.item < n && Queued(s, d.item, retry) && d.expiry == s.msgs[d.item].place.expiry
  }

  lemma {:induction false} ContentsMean(s: Sys, n: nat, retry: bool)
    ensures forall d | d in Contents(s, n, retry) :: Shows(s, d, n, retry)
    ensures forall i, j | 0 <= i < j < |Contents(s, n, retry)| ::
      Contents(s, n, retry)[i].item < Contents(s, n, retry)[j].item
  {
    if n > 0 {
      ContentsMean(s, n - 1, retry);
      var rest, q := Contents(s, n - 1, retry), Contents(s, n, retry);
      forall d | d in q ensures Shows(s, d, n, retry) { assert d in rest ==> Shows(s, d, n - 1, retry); }
      forall i, j | 0 <= i < j < |q| ensures q[i].item < q[j].item {
        assert q[i] == rest[i] && Shows(s, rest[i], n - 1, retry);
        if j < |rest| { assert q[j] == rest[j]; }
      }
    }
  }

  lemma {:induction false} ContentsHold(s: Sys, n: nat, retry: bool, t: nat)
    requires t < n && Queued(s, t, retry)
    ensures exists j :: 0 <= j < |Contents(s, n, retry)| && Contents(s, n, retry)[j].item == t
  {
    var rest, q := Contents(s, n - 1, retry), Contents(s, n, retry);
    if t == n - 1 { assert q[|rest|].item == t; }
    else {
      ContentsHold(s, n - 1, retry, t);
      var j :| 0 <= j < |rest| && rest[j].item == t;
      assert q[j] == rest[j];
    }
  }

  /** Only its release touches a delayed message. */
  lemma DelayedStays(s: Sys, step: Step, s': Sys, t: nat, retry: bool)
    requires TagsBelow(s) && Shape(s, step, s') && Queued(s, t, retry)
    requires Works(step) && step.tag == t ==> step.Release?
    ensures (t in s'.msgs && s'.msgs[t] == s.msgs[t]) || step == Release(t)
  {
  }

  lemma OnlyRelease(s: Sys, step: Step, t: nat, retry: bool)
    requires Enabled(s, step) && Queued(s, t, retry) && Works(step) && step.tag == t
    ensures step == Release(t) && s.msgs[t].place.expiry <= s.now && IsHead(s, t)
  {
    hide IsHead;
  }

  /** A step takes at most the head, and the head only when it has expired. */
  lemma HeadFirst(s: Sys, step: Step, t: nat, u: nat, retry: bool)
    requires Good(s) && Enabled(s, step) && t <= u && Queued(s, t, retry) && Queued(s, u, retry)
    ensures var s' := Apply(s, step); var e := s.msgs[t].place.expiry;
      && Good(s') && s.now <= s'.now
      && ((t in s'.msgs && s'.msgs[t] == s.msgs[t]) || e <= s'.now)
      && ((u in s'.msgs && s'.msgs[u] == s.msgs[u]) || e <= s'.now)
  {
    hide Good, Enabled, Apply, Shape, IsHead;
    GoodStep(s, step);
    assert TagsBelow(s) by { GoodTags(s); }
    if Works(step) && step.tag == t { OnlyRelease(s, step, t, retry); }
    if Works(step) && step.tag == u { OnlyRelease(s, step, u, retry); HeadIsFirst(s, t, u, retry); }
    var s' := Apply(s, step);
    DelayedStays(s, step, s', t, retry);
    DelayedStays(s, step, s', u, retry);
    assert s.now <= s'.now;
  }

  lemma HeadIsFirst(s: Sys, t: nat, u: nat, retry: bool)
    requires Queued(s, t, retry) && Queued(s, u, retry) && t <= u && IsHead(s, u)
    ensures t == u
  {
  }

  lemma {:induction false} LeavesInOrder(s: Sys, steps: seq<Step>, t: nat, u: nat, retry: bool, e: Time)
    requires Good(s) && CanRun(s, steps) && t <= u && Queued(s, u, retry)
    requires e <= s.now || (Queued(s, t, retry) && s.msgs[t].place.expiry == e)
    ensures Good(Run(s, steps)) && s.now <= Run(s, steps).now
    ensures Queued(Run(s, steps), u, retry) || e <= Run(s, steps).now
    decreases |steps|
  {
    hide Good, Enabled, Apply, Shape, Grows;
    if e <= s.now { TimeGrows(s, steps); }
    else if steps != [] {
      HeadFirst(s, steps[0], t, u, retry);
      var s1 := Apply(s, steps[0]);
      if e <= s1.now { TimeGrows(s1, steps[1..]); }
      else { LeavesInOrder(s1, steps[1..], t, u, retry, e); }
    }
  }

  lemma TimeGrows(s: Sys, steps: seq<Step>)
    requires Good(s) && CanRun(s, steps)
    ensures Good(Run(s, steps)) && s.now <= Run(s, steps).now
  {
    hide Good, CanRun, Run;
    GoodRun(s, steps);
  }

  /** From any reachable state on: by the time a message has left its delay queue, the latest expiry among it and
      those ahead of it in that queue has passed. */
  lemma LeavesAfterLatest(s: Sys, steps: seq<Step>, retry: bool, i: nat)
    requires Reachable(s) && CanRun(s, steps) && i < |Contents(s, s.next, retry)|
    ensures var q := Contents(s, s.next, retry);
      Queued(Run(s, steps), q[i].item, retry) || DelayQueue.Latest(q, i) <= Run(s, steps).now
  {
    hide Good, Reachable, CanRun, Run;
    ReachableGood(s);
    var q := Contents(s, s.next, retry);
    ContentsMean(s, s.next, retry);
    var j := DelayQueue.LatestIsReached(q, i);
    assert Shows(s, q[i], s.next, retry) && Shows(s, q[j], s.next, retry) && q[j].item <= q[i].item;
    LeavesInOrder(s, steps, q[j].item, q[i].item, retry, q[j].expiry);
  }

  // ---- lateness in the retry queue ------------------------------------------------------------

  /** Retry copies have 80 s at most to go, and none expires more than 70 s later than one published after it. */
  ghost predicate RetriesClose(s: Sys) {
    && (forall t | Queued(s, t, true) :: s.msgs[t].place.expiry <= s.now + 80 * SECOND)
    && (forall t, u | Queued(s, t, true) && Queued(s, u, true) && t < u ::
          s.msgs[t].place.expiry <= s.msgs[u].place.expiry + 70 * SECOND)
  }

  lemma RetryOrigin(s: Sys, step: Step, s': Sys, t: nat)
    requires Shape(s, step, s') && TagsBelow(s) && Queued(s', t, true)
    ensures (t in s.msgs && s'.msgs[t] == s.msgs[t]) || (IsFork(step) && t == s.next)
  {
    hide Fetches, PendingShrinks, PendingKept, SameRows, SameRecords;
  }

  lemma ForkExpiry(s: Sys, tag: nat, o: Outcome)
    requires Good(s) && Enabled(s, PublishRetry(tag, o)) && Applied(o)
    ensures var s' := Apply(s, PublishRetry(tag, o));
      && s'.now == s.now && Queued(s', s.next, true)
      && s.now + 10 * SECOND <= s'.msgs[s.next].place.expiry <= s.now + 80 * SECOND
  {
    hide Good, Delay.RetryTtl;
    Drain.RejectedRange(s, tag);
    Delay.ReachableRetryTtl(s.msgs[tag].place.pc.n.attempts);
  }

  lemma RetriesCloseStep(s: Sys, step: Step)
    requires Good(s) && RetriesClose(s) && Enabled(s, step)
    ensures Good(Apply(s, step)) && RetriesClose(Apply(s, step))
  {
    hide Good, Enabled, Apply, Shape;
    GoodStep(s, step);
    GoodTags(s);
    var s' := Apply(s, step);
    if IsFork(step) { ForkExpiry(s, step.tag, step.outcome); }
    forall t | Queued(s', t, true) ensures Queued(s, t, true) || (IsFork(step) && t == s.next) {
      RetryOrigin(s, step, s', t);
    }
    forall t | Queued(s', t, true) && t in s.msgs ensures s'.msgs[t] == s.msgs[t] { RetryOrigin(s, step, s', t); }
    assert s.now <= s'.now by { NowGrows(s, s'); }
  }

  lemma {:induction false} RetriesCloseRun(s: Sys, steps: seq<Step>)
    requires Good(s) && RetriesClose(s) && CanRun(s, steps)
    ensures RetriesClose(Run(s, steps))
    decreases |steps|
  {
    hide Good, RetriesClose, Enabled, Apply;
    if steps != [] {
      RetriesCloseStep(s, steps[0]);
      RetriesCloseRun(Apply(s, steps[0]), steps[1..]);
    }
  }

  /** In every reachable state a retry copy can leave at most 70 s after its own expiry, whatever is in front of it. */
  lemma RetryLateness(s: Sys, i: nat)
    requires Reachable(s) && i < |Contents(s, s.next, true)|
    ensures var q := Contents(s, s.next, true);
      q[i].expiry <= DelayQueue.Latest(q, i) <= q[i].expiry + 70 * SECOND
  {
    var q := Contents(s, s.next, true);
    ContentsMean(s, s.next, true);
    var j := DelayQueue.LatestIsReached(q, i);
    DelayQueue.LatestMonotone(q, i, i);
    assert Shows(s, q[i], s.next, true) && Shows(s, q[j], s.next, true);
    assert RetriesClose(s) by { ReachableRetries(s); }
  }

  lemma ReachableRetries(s: Sys)
    requires Reachable(s)
    ensures RetriesClose(s)
  {
    hide Good, Run, CanRun;
    var workers: nat, now: Time, steps: seq<Step> :|
      CanRun(Init(workers, now), steps) && Run(Init(workers, now), steps) == s;
    InitGood(workers, now);
    assert RetriesClose(Init(workers, now));
    hide RetriesClose, Init;
    RetriesCloseRun(Init(workers, now), steps);
  }
}
