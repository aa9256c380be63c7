/** Exactly when a notification that has left status scheduled can be sent more often than the workers past the
    status check account for. */
module LateSends {
  import opened Domain
  import opened Protocol
  import opened Invariant
  import opened Shapes
  import opened Safety
  import opened Quiet
  import opened Horizon
  import opened QueueOrder
  import opened Arrival
  import opened LateRuns
  import opened LateBounds

  /** The cache shows the old value, and a message gets to a worker while it does; or somebody who read the old value
      is yet to fill the cache, and some message exists or can be published. */
  ghost predicate Exposable(s: Sys, id: Id) {
    && s.workers > 0
    && (|| (StaleCache(s, id) && Arrives(s, id, s.cache[id].expiresAt))
        || (!NoStaleReaders(s, id) && ArrivesEver(s, id)))
  }

  lemma BoundedNotExceeded(s: Sys, id: Id)
    requires id in s.log
    requires forall steps | CanRun(s, steps) :: id in Run(s, steps).log && Run(s, steps).log[id].Sends() <= Score(s, id)
    ensures !CanExceed(s, id)
  {
    hide CanRun, Run, Score;
    forall steps | CanRun(s, steps) ensures !SendsMoreThan(s, steps, id, Score(s, id)) {}
  }

  /** Without an old value in reach, no run sends beyond the workers past the check. */
  lemma QuietNotExceeded(s: Sys, steps: seq<Step>, id: Id)
    requires Good(s) && Left(s, id) && !StaleCache(s, id) && NoStaleReaders(s, id) && CanRun(s, steps)
    ensures id in s.log && id in Run(s, steps).log && Run(s, steps).log[id].Sends() <= Score(s, id)
  {
    hide Good, Left, StaleCache, NoStaleReaders, CanRun, Run, Exposed, IsQuiet;
    LeftRow(s, id);
    assert IsQuiet(s, id) by { QuietMeans(s, id); }
    QuietRun(s, steps, id);
    ExposedAtMostWorkers(Run(s, steps), id);
  }

  lemma NotExceeded(s: Sys, steps: seq<Step>, id: Id)
    requires Good(s) && Left(s, id) && !Exposable(s, id) && CanRun(s, steps)
    ensures id in s.log && id in Run(s, steps).log && Run(s, steps).log[id].Sends() <= Score(s, id)
  {
    LeftRow(s, id);
    if !StaleCache(s, id) && NoStaleReaders(s, id) { QuietNotExceeded(s, steps, id); }
    else {
      hide Good, Left, CanRun, Run, Exposed, Arrives, ArrivesEver;
      ExposedAtMostWorkers(s, id);
      if s.workers == 0 { NoWorkersRun(s, steps, id); }
      else if !ArrivesEver(s, id) { SilentRun(s, steps, id); }
      else {
        NothingArrives(s, id);
        hide Guarded, StaleCache, NoStaleReaders;
        GuardedRun(s, steps, id, s.cache[id].expiresAt);
      }
    }
  }

  /** The exact condition, for every state and every row that has left status scheduled. */
  lemma LateSendIff(s: Sys, id: Id)
    requires Good(s) && Left(s, id)
    ensures id in s.log
    ensures CanExceed(s, id) <==> Exposable(s, id)
  {
    LeftRow(s, id);
    hide Good, Left, CanRun, Run, Score, CanExceed, Arrives;
    if Exposable(s, id) {
      hide NoStaleReaders;
      if StaleCache(s, id) && Arrives(s, id, s.cache[id].expiresAt) { StaleCacheExceeds(s, id); }
      else { StaleReaderExceeds(s, id); }
    } else {
      hide Exposable;
      forall steps | CanRun(s, steps) ensures id in Run(s, steps).log && Run(s, steps).log[id].Sends() <= Score(s, id) {
        NotExceeded(s, steps, id);
      }
      BoundedNotExceeded(s, id);
    }
  }

  // ---- after an update, after a cancel --------------------------------------------------------

  /** A message in a worker's hands arrives at once. */
  lemma HeldArrives(s: Sys, id: Id, tag: nat, e: Time)
    requires HasMessage(s, id, tag) && s.msgs[tag].place.Held?
    ensures Arrives(s, id, e) && ArrivesEver(s, id)
  {
    assert MessageArrives(s, id, tag, e);
  }

  /** After a worker's terminal write, exactly when its cache invalidation does not stop further sends. The worker still
      holds the message, so nothing more is needed. */
  lemma LateSendAfterUpdateIff(s: Sys, tag: nat, o: Outcome)
    requires Enabled(s, Invalidate(tag, o)) && Good(s)
    ensures var s', id := Apply(s, Invalidate(tag, o)), s.msgs[tag].body.id;
      && id in s'.log
      && (CanExceed(s', id) <==> (!Applied(o) && StaleCache(s, id)) || !NoStaleReaders(s, id))
  {
    hide Good, CanExceed, StaleCache, NoStaleReaders, Left, Arrives, ArrivesEver;
    var s', id := Apply(s, Invalidate(tag, o)), s.msgs[tag].body.id;
    assert id in s'.log;
    assert HasMessage(s', id, tag) && s'.msgs[tag].place.Held?;
    GoodMessage(s, tag);
    InvalidateEffect(s, tag, o);
    hide Enabled, Apply, Shape;
    GoodStep(s, Invalidate(tag, o));
    HeldFacts(s', tag);
    LateSendIff(s', id);
    HeldArrives(s', id, tag, if id in s'.cache then s'.cache[id].expiresAt else 0);
    assert StaleCache(s', id) ==> id in s'.cache by { StaleIsCached(s', id); }
  }

  lemma EndKeepsQueues(s: Sys, s': Sys, call: nat, id: Id, e: Time)
    requires call in s.calls && s.calls[call] == CancelWritten(id)
    requires s'.msgs == s.msgs && s'.now == s.now && s'.calls == s.calls - {call}
    ensures Arrives(s', id, e) <==> Arrives(s, id, e)
    ensures ArrivesEver(s', id) <==> ArrivesEver(s, id)
  {
    assert forall t: nat, retry: bool :: Queued(s', t, retry) <==> Queued(s, t, retry);
    assert forall g: nat, t: nat, retry: bool :: HoldsBack(s', g, t, retry, e) <==> HoldsBack(s, g, t, retry, e);
    assert Blocked(s', e) <==> Blocked(s, e);
    assert forall t :: MessageArrives(s', id, t, e) <==> MessageArrives(s, id, t, e);
    hide HeldBack, Blocked, HoldsBack;
    assert forall c :: CreationArrives(s', id, c, e) <==> CreationArrives(s, id, c, e);
    assert forall t :: HasMessage(s', id, t) <==> HasMessage(s, id, t);
    assert forall c :: MayPublish(s', id, c) <==> MayPublish(s, id, c);
  }

  lemma CancelEnds(s: Sys, call: nat, o: Outcome)
    requires Enabled(s, CancelInvalidate(call, o))
    ensures var s' := Apply(s, CancelInvalidate(call, o));
      && s'.msgs == s.msgs && s'.now == s.now && s'.calls == s.calls - {call} && s'.workers == s.workers
      && (!Applied(o) ==> s'.cache == s.cache)
  {
  }

  /** After a cancel: its invalidation was lost and a message arrives before the entry expires; or a reader of the old
      value is yet to fill the cache and a message exists or can be published. */
  lemma LateSendAfterCancelIff(s: Sys, s': Sys, call: nat, id: Id, o: Outcome)
    requires Enabled(s, CancelInvalidate(call, o)) && s' == Apply(s, CancelInvalidate(call, o))
    requires call in s.calls && s.calls[call] == CancelWritten(id) && Good(s)
    ensures id in s'.log
    ensures CanExceed(s', id) <==>
      && s.workers > 0
      && (|| (!Applied(o) && StaleCache(s, id) && Arrives(s, id, s.cache[id].expiresAt))
          || (!NoStaleReaders(s, id) && ArrivesEver(s, id)))
  {
    hide Good, CanExceed, StaleCache, NoStaleReaders, Left, Arrives, ArrivesEver;
    assert Left(s, id) by { GoodCall(s, call); }
    CancelEffect(s, call, o);
    CancelEnds(s, call, o);
    hide Enabled, Apply, Shape;
    GoodStep(s, CancelInvalidate(call, o));
    LateSendIff(s', id);
    StaleIsCached(s, id);
    StaleIsCached(s', id);
    EndKeepsQueues(s, s', call, id, if id in s.cache then s.cache[id].expiresAt else 0);
  }
}
