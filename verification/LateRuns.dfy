/** Runs that send a notification more often than the workers past the status check account for. */
module LateRuns {
  import opened Domain
  import Delay
  import Drain
  import opened Protocol
  import opened Invariant
  import opened Shapes
  import opened Accounting
  import opened Safety
  import opened Quiet
  import opened QueueOrder
  import opened Arrival

  /** The sends so far and those of the workers past the check. */
  ghost function Score(s: Sys, id: Id): int
    requires id in s.log
  {
    s.log[id].Sends() + Exposed(s, id)
  }

  /** Some continuation sends more often than the workers past the check do. */
  ghost predicate CanExceed(s: Sys, id: Id)
    requires id in s.log
  {
    exists steps :: CanRun(s, steps) && SendsMoreThan(s, steps, id, Score(s, id))
  }

  ghost predicate SendsMoreThan(s: Sys, steps: seq<Step>, id: Id, n: int)
    requires CanRun(s, steps)
  {
    id in Run(s, steps).log && Run(s, steps).log[id].Sends() > n
  }

  // ---- steps towards a late send --------------------------------------------------------------

  lemma RunPrefix(s: Sys, steps: seq<Step>, id: Id)
    requires CanRun(s, steps) && id in s.log && id in Run(s, steps).log
    requires Score(s, id) <= Score(Run(s, steps), id) && CanExceed(Run(s, steps), id)
    ensures CanExceed(s, id)
  {
    hide CanRun, Run, Score;
    var s' := Run(s, steps);
    var rest :| CanRun(s', rest) && SendsMoreThan(s', rest, id, Score(s', id));
    RunConcat(s, steps, rest);
    assert SendsMoreThan(s, steps + rest, id, Score(s, id));
  }

  lemma StepPrefix(s: Sys, step: Step, id: Id)
    requires Enabled(s, step) && id in s.log && id in Apply(s, step).log
    requires Score(s, id) <= Score(Apply(s, step), id) && CanExceed(Apply(s, step), id)
    ensures CanExceed(s, id)
  {
    hide Enabled, Apply, CanRun, Run, Score, CanExceed;
    RunOne(s, step);
    RunPrefix(s, [step], id);
  }

  /** Whoever was past the check still is; nothing was sent. */
  lemma ScoreKept(s: Sys, s': Sys, id: Id)
    requires id in s.log && id in s'.log && s'.log[id].Sends() == s.log[id].Sends()
    requires s'.next == s.next || s'.next == s.next + 1
    requires forall t | HasMessage(s, id, t) && PastCheckAt(s.msgs[t].place) ::
               HasMessage(s', id, t) && PastCheckAt(s'.msgs[t].place)
    ensures Score(s, id) <= Score(s', id)
  {
    TotalFalls(s'.msgs, s.msgs, s.next, s.next, PastCheck(id));
  }

  // ---- a stale reader fills the cache ---------------------------------------------------------

  /** The cache now shows the old value; at most one worker has moved, past the check. */
  ghost predicate FillsStale(s: Sys, s': Sys, id: Id) {
    && StaleCache(s', id) && s'.cache[id].expiresAt == s.now + CACHE_TTL
    && s'.now == s.now && s'.workers == s.workers && s'.log == s.log && s'.rows == s.rows && s'.hist == s.hist
    && s'.msgs.Keys == s.msgs.Keys && s'.next == s.next
    && (forall t | t in s.msgs :: s'.msgs[t] == s.msgs[t] || Passes(s.msgs[t], s'.msgs[t]))
  }

  /** A worker goes past the check. */
  ghost predicate Passes(m: Message, m': Message) {
    m.place.Held? && m.place.pc.Reading? && m'.place == Held(m.place.worker, Checked) && m'.body == m.body
  }

  lemma CallFillsStale(s: Sys, call: nat, id: Id)
    requires Good(s) && call in s.calls && (s.calls[call].Getting? || s.calls[call].Cancelling?)
    requires s.calls[call].id == id && StaleRead(s.calls[call].read)
    ensures Enabled(s, CallRead(call, Fill(Done)))
    ensures FillsStale(s, Apply(s, CallRead(call, Fill(Done))), id)
  {
    hide Good;
    GoodCall(s, call);
    CallReadFrame(s, call, Fill(Done));
    hide Apply;
  }

  lemma CreationFillsStale(s: Sys, call: nat, id: Id)
    requires Good(s) && call in s.calls && s.calls[call].Creating? && s.calls[call].n.id == id
    ensures Enabled(s, FillCreated(call, Done))
    ensures FillsStale(s, Apply(s, FillCreated(call, Done)), id)
  {
    hide Good;
    assert s.calls[call].n.status == Scheduled by { CreatesScheduled(s, call); }
  }

  lemma CreatesScheduled(s: Sys, call: nat)
    requires Good(s) && call in s.calls && s.calls[call].Creating?
    ensures s.calls[call].n.status == Scheduled
  {
    hide Inv, Fresh, Prefetch, AllCounted;
    TheCall(s, call);
    TheRow(s, s.calls[call].n.id);
  }

  lemma WorkerFillsStale(s: Sys, tag: nat, id: Id)
    requires Good(s) && tag in s.msgs && s.msgs[tag].body.id == id && s.msgs[tag].place.Held?
    requires s.msgs[tag].place.pc.Reading? && StaleRead(s.msgs[tag].place.pc.read)
    ensures Enabled(s, WorkerRead(tag, Fill(Done)))
    ensures FillsStale(s, Apply(s, WorkerRead(tag, Fill(Done))), id)
  {
    hide Good;
    HeldFacts(s, tag);
    assert s.msgs[tag].place.pc.read.value.id == id by { GoodMessage(s, tag); }
  }

  /** Whoever still carries the old value can bring it back into the cache in one step. */
  lemma StaleReaderFills(s: Sys, id: Id) returns (step: Step)
    requires Good(s) && !NoStaleReaders(s, id)
    ensures Enabled(s, step) && FillsStale(s, Apply(s, step), id)
  {
    hide Good, Enabled, Apply, FillsStale, StaleRead;
    if t :| t in s.msgs && s.msgs[t].body.id == id && s.msgs[t].place.Held? && s.msgs[t].place.pc.Reading?
            && StaleRead(s.msgs[t].place.pc.read)
    {
      WorkerFillsStale(s, t, id);
      step := WorkerRead(t, Fill(Done));
    } else {
      var c :| c in s.calls && !HarmlessCall(s.calls[c], id);
      if s.calls[c].Creating? {
        CreationFillsStale(s, c, id);
        step := FillCreated(c, Done);
      } else {
        CallFillsStale(s, c, id);
        step := CallRead(c, Fill(Done));
      }
    }
  }

  lemma FillKeepsScore(s: Sys, s': Sys, id: Id)
    requires FillsStale(s, s', id) && id in s.log
    ensures id in s'.log && Score(s, id) <= Score(s', id)
  {
    hide StaleCache, Score;
    ScoreKept(s, s', id);
  }

  // ---- with a live entry, any message in reach is sent once too often -------------------------

  lemma {:induction false} SomeExposed(s: Sys, n: nat, id: Id) returns (tag: nat)
    requires Total(s.msgs, n, PastCheck(id)) > 0
    ensures tag in s.msgs && s.msgs[tag].body.id == id && PastCheckAt(s.msgs[tag].place)
  {
    if Weigh(s.msgs, n - 1, PastCheck(id)) > 0 { tag := n - 1; } else { tag := SomeExposed(s, n - 1, id); }
  }

  /** Workers past the check have sent; nothing else has changed but where they are. */
  ghost predicate AfterSends(s: Sys, s': Sys) {
    && s'.cache == s.cache && s'.now == s.now && s'.workers == s.workers && s'.calls == s.calls && s'.next == s.next
    && s'.msgs.Keys == s.msgs.Keys
    && (forall t | t in s.msgs :: s'.msgs[t].body == s.msgs[t].body
          && (s'.msgs[t].place == s.msgs[t].place || (s'.msgs[t].place.Held? && s.msgs[t].place.Held?)))
  }

  lemma OneSend(s: Sys, tag: nat)
    requires Enabled(s, Send(tag, true))
    ensures AfterSends(s, Apply(s, Send(tag, true)))
  {
  }

  lemma AfterSendsTransitive(s: Sys, s1: Sys, s2: Sys)
    requires AfterSends(s, s1) && AfterSends(s1, s2)
    ensures AfterSends(s, s2)
  {
  }

  lemma NoSendsYet(s: Sys)
    ensures AfterSends(s, s)
  {
  }

  lemma ExposedTag(s: Sys, id: Id) returns (tag: nat)
    requires Good(s) && Exposed(s, id) > 0
    ensures Enabled(s, Send(tag, true)) && s.msgs[tag].body.id == id
  {
    hide Good;
    tag := SomeExposed(s, s.next, id);
    HeldFacts(s, tag);
  }

  /** All workers past the check send. */
  lemma {:induction false} SendExposed(s: Sys, id: Id) returns (steps: seq<Step>)
    requires Good(s) && id in s.log
    ensures CanRun(s, steps)
    ensures var s' := Run(s, steps);
      Good(s') && AfterSends(s, s') && id in s'.log && s'.log[id].Sends() == Score(s, id)
    decreases Exposed(s, id)
  {
    hide Good, Exposed, CanRun, Run, Enabled, Apply, Shape, AfterSends;
    ExposedAtMostWorkers(s, id);
    if Exposed(s, id) == 0 {
      steps := [];
      RunNone(s);
      NoSendsYet(s);
    } else {
      var sent := ExposedTag(s, id);
      var s1 := Apply(s, Send(sent, true));
      GoodStep(s, Send(sent, true));
      SendExposure(s, sent, true, id);
      OneMoreSend(s, sent);
      OneSend(s, sent);
      var rest := SendExposed(s1, id);
      AfterSendsTransitive(s, s1, Run(s1, rest));
      RunCons(s, Send(sent, true), rest);
      steps := [Send(sent, true)] + rest;
    }
  }

  /** After those past the check have sent, the message is taken, checked against the cache, and sent. */
  lemma InReachExceeds(s: Sys, id: Id, tag: nat)
    requires Good(s) && StaleCache(s, id) && HasMessage(s, id, tag) && !IsDelayed(s.msgs[tag].place)
    requires s.workers > 0 && id in s.log
    ensures CanExceed(s, id)
  {
    hide Good, StaleCache, CanRun, Run, Score, Idle;
    var sends := SendExposed(s, id);
    var s1 := Run(s, sends);
    var frees, worker := MakeCheckable(s1, id, tag);
    var s2 := Run(s1, frees);
    assert StaleCache(s2, id) by { SameStale(s, s2, id); }
    LateSend(s2, tag, worker);
    var late := [Deliver(tag, worker), WorkerRead(tag, Hit), Send(tag, true)];
    RunConcat(s, sends, frees);
    RunConcat(s, sends + frees, late);
    assert SendsMoreThan(s, (sends + frees) + late, id, Score(s, id));
  }

  lemma SameStale(s: Sys, s': Sys, id: Id)
    requires StaleCache(s, id) && s'.cache == s.cache && s'.now <= s.now
    ensures StaleCache(s', id)
  {
  }

  // ---- a delayed message that leaves in time --------------------------------------------------

  lemma TickEffect(s: Sys, dt: nat, id: Id)
    requires Good(s) && id in s.log
    ensures Enabled(s, Tick(dt)) && Apply(s, Tick(dt)) == s.(now := s.now + dt) && Good(Apply(s, Tick(dt)))
    ensures Score(s.(now := s.now + dt), id) == Score(s, id)
  {
    hide Good, Enabled, Apply, Shape, Score;
    TickIs(s, dt);
    GoodStep(s, Tick(dt));
    SameScore(s, s.(now := s.now + dt), id);
  }

  lemma TickIs(s: Sys, dt: nat)
    ensures Enabled(s, Tick(dt)) && Apply(s, Tick(dt)) == s.(now := s.now + dt)
  {
  }

  lemma SameScore(s: Sys, s': Sys, id: Id)
    requires s'.msgs == s.msgs && s'.next == s.next && s'.log == s.log && id in s.log
    ensures Score(s', id) == Score(s, id)
  {
  }

  lemma ReleasedScore(s: Sys, s': Sys, n: nat, retry: bool, id: Id)
    requires Released(s, s', n, retry) && id in s.log
    ensures id in s'.log && Score(s, id) <= Score(s', id)
  {
    hide Score;
    ScoreKept(s, s', id);
  }

  /** Wait for the latest expiry in front of the message, release up to it, and there it is. */
  lemma WaitingExceeds(s: Sys, id: Id, tag: nat, retry: bool)
    requires Good(s) && StaleCache(s, id) && HasMessage(s, id, tag) && Queued(s, tag, retry)
    requires !HeldBack(s, tag, s.cache[id].expiresAt) && s.workers > 0 && id in s.log
    ensures CanExceed(s, id)
  {
    hide Good, CanRun, Run, Score, Enabled, Apply, CanExceed;
    var e := s.cache[id].expiresAt;
    forall g: nat | g < tag + 1 && Queued(s, g, retry) ensures s.msgs[g].place.expiry < e {
      assert !HoldsBack(s, g, tag, retry, e);
    }
    FrontIsLatest(s, tag + 1, retry, e);
    var dt := Front(s, tag + 1, retry) - s.now;
    TickEffect(s, dt, id);
    var s1 := s.(now := s.now + dt);
    assert forall g: nat :: Queued(s1, g, retry) <==> Queued(s, g, retry);
    var release := ReleaseBelow(s1, tag + 1, retry);
    var s2 := Run(s1, release);
    assert StaleCache(s2, id) && HasMessage(s2, id, tag) && s2.msgs[tag].place.InReady?;
    ReleasedScore(s1, s2, tag + 1, retry, id);
    hide Released, StaleCache, HeldBack;
    InReachExceeds(s2, id, tag);
    RunPrefix(s1, release, id);
    StepPrefix(s, Tick(dt), id);
  }

  lemma MessageExceeds(s: Sys, id: Id, tag: nat)
    requires Good(s) && StaleCache(s, id) && MessageArrives(s, id, tag, s.cache[id].expiresAt)
    requires s.workers > 0 && id in s.log
    ensures CanExceed(s, id)
  {
    hide Good, CanExceed, HeldBack;
    if s.msgs[tag].place.InWait? { WaitingExceeds(s, id, tag, false); }
    else if s.msgs[tag].place.InRetry? { WaitingExceeds(s, id, tag, true); }
    else { InReachExceeds(s, id, tag); }
  }

  // ---- a message that is published in time ----------------------------------------------------

  ghost predicate Published(s: Sys, s': Sys, call: nat, n: Notification, expiry: Time) {
    && s'.msgs == s.msgs[s.next := Message(n, InWait(expiry))] && s'.next == s.next + 1
    && s'.calls == s.calls - {call} && s'.cache == s.cache && s'.now == s.now && s'.workers == s.workers
    && n.id in s.log && n.id in s'.log && s'.log[n.id].Sends() == s.log[n.id].Sends()
  }

  lemma PublishEffect(s: Sys, call: nat, n: Notification, ttl: nat)
    requires Good(s) && call in s.calls && s.calls[call] == Publishing(n, ttl) && ttl <= Delay.MAX_TTL
    ensures Enabled(s, Publish(call, Done))
    ensures Good(Apply(s, Publish(call, Done)))
    ensures Published(s, Apply(s, Publish(call, Done)), call, n, s.now + ttl * MILLISECOND)
    ensures n.id in s.log && Score(s, n.id) <= Score(Apply(s, Publish(call, Done)), n.id) && TagsBelow(s)
  {
    hide Good;
    assert n.id in s.log by { PendingKnown(s, call); }
    var s' := Apply(s, Publish(call, Done));
    assert Published(s, s', call, n, s.now + ttl * MILLISECOND);
    GoodTags(s);
    hide Enabled, Apply, Shape, Score;
    ScoreKept(s, s', n.id);
    GoodStep(s, Publish(call, Done));
  }

  lemma PendingKnown(s: Sys, call: nat)
    requires Good(s) && call in s.calls && IsPending(s.calls[call])
    ensures s.calls[call].n.id in s.log
  {
    hide Inv, Prefetch, AllCounted;
    assert FreshAt(s, call);
  }

  lemma PublishedArrives(s: Sys, s': Sys, call: nat, n: Notification, expiry: Time, e: Time)
    requires Published(s, s', call, n, expiry) && !Blocked(s, e) && expiry < e && TagsBelow(s)
    ensures MessageArrives(s', n.id, s.next, e)
  {
    assert Queued(s', s.next, false);
    forall g: nat, retry: bool ensures !HoldsBack(s', g, s.next, retry, e) {
      assert Queued(s', g, retry) && g != s.next ==> Queued(s, g, retry);
    }
  }

  lemma PublishingExceeds(s: Sys, id: Id, call: nat)
    requires Good(s) && StaleCache(s, id) && call in s.calls && s.calls[call].Publishing? && s.calls[call].n.id == id
    requires PublishesBefore(s, s.calls[call], s.cache[id].expiresAt) && s.workers > 0 && id in s.log
    ensures CanExceed(s, id)
  {
    hide Good, StaleCache, CanExceed, Score, Enabled, Apply, Blocked, Published, MessageArrives, TagsBelow;
    StaleIsCached(s, id);
    var n, ttl, e := s.calls[call].n, s.calls[call].ttl, s.cache[id].expiresAt;
    PublishEffect(s, call, n, ttl);
    var s' := Apply(s, Publish(call, Done));
    PublishedMeans(s, s', call, n, s.now + ttl * MILLISECOND);
    PublishedArrives(s, s', call, n, s.now + ttl * MILLISECOND, e);
    SameStale(s, s', id);
    MessageExceeds(s', id, s.next);
    StepPrefix(s, Publish(call, Done), id);
  }

  lemma PublishedMeans(s: Sys, s': Sys, call: nat, n: Notification, expiry: Time)
    requires Published(s, s', call, n, expiry)
    ensures s'.cache == s.cache && s'.now == s.now && s'.workers == s.workers && n.id in s'.log
  {
  }

  /** The moment from which on the first TTL is zero. */
  function DueFrom(n: Notification): Time { n.scheduledAt - MILLISECOND + 1 }

  lemma ZeroTtl(scheduledAt: Time, now: Time)
    requires now >= scheduledAt - MILLISECOND + 1
    ensures Delay.PublishTtl(scheduledAt, now) == 0
  {
  }

  lemma ComputeEffect(s: Sys, call: nat, n: Notification, id: Id)
    requires Good(s) && call in s.calls && s.calls[call] == Saved(n) && s.now >= DueFrom(n) && id in s.log
    ensures Enabled(s, ComputeTtl(call))
    ensures Apply(s, ComputeTtl(call)) == s.(calls := s.calls[call := Publishing(n, 0)])
    ensures Good(Apply(s, ComputeTtl(call))) && Score(Apply(s, ComputeTtl(call)), id) == Score(s, id)
  {
    hide Good, Enabled, Apply, Shape, Score;
    ComputeIs(s, call, n);
    GoodStep(s, ComputeTtl(call));
    SameScore(s, s.(calls := s.calls[call := Publishing(n, 0)]), id);
  }

  lemma ComputeIs(s: Sys, call: nat, n: Notification)
    requires call in s.calls && s.calls[call] == Saved(n) && s.now >= DueFrom(n)
    ensures Enabled(s, ComputeTtl(call))
    ensures Apply(s, ComputeTtl(call)) == s.(calls := s.calls[call := Publishing(n, 0)])
  {
    ZeroTtl(n.scheduledAt, s.now);
    hide Delay.PublishTtl;
  }

  lemma SavedExceeds(s: Sys, id: Id, call: nat)
    requires Good(s) && StaleCache(s, id) && call in s.calls && s.calls[call].Saved? && s.calls[call].n.id == id
    requires PublishesBefore(s, s.calls[call], s.cache[id].expiresAt) && s.workers > 0 && id in s.log
    ensures CanExceed(s, id)
  {
    hide Good, CanExceed, Score, Enabled, Apply;
    var n := s.calls[call].n;
    var dt := if s.now < DueFrom(n) then DueFrom(n) - s.now else 0;
    TickEffect(s, dt, id);
    var s1 := s.(now := s.now + dt);
    ComputeEffect(s1, call, n, id);
    var s2 := s1.(calls := s1.calls[call := Publishing(n, 0)]);
    assert StaleCache(s2, id);
    assert !Blocked(s2, s.cache[id].expiresAt) by {
      forall g: nat ensures !(Queued(s2, g, false) && s2.msgs[g].place.expiry >= s.cache[id].expiresAt) {
        assert Queued(s2, g, false) ==> Queued(s, g, false);
      }
    }
    hide StaleCache, Blocked;
    PublishingExceeds(s2, id, call);
    StepPrefix(s1, ComputeTtl(call), id);
    StepPrefix(s, Tick(dt), id);
  }

  /** With a live entry, whatever arrives before it expires. */
  lemma StaleCacheExceeds(s: Sys, id: Id)
    requires Good(s) && StaleCache(s, id) && Arrives(s, id, s.cache[id].expiresAt) && s.workers > 0 && id in s.log
    ensures CanExceed(s, id)
  {
    hide Good, CanExceed, MessageArrives;
    var e := s.cache[id].expiresAt;
    if t :| MessageArrives(s, id, t, e) { MessageExceeds(s, id, t); }
    else {
      var c :| CreationArrives(s, id, c, e);
      if s.calls[c].Saved? { SavedExceeds(s, id, c); } else { PublishingExceeds(s, id, c); }
    }
  }

  // ---- a stale reader waits as long as it takes -----------------------------------------------

  ghost predicate AllExpired(s: Sys) {
    forall t: nat, retry: bool :: Queued(s, t, retry) ==> s.msgs[t].place.expiry <= s.now
  }

  lemma WaitForAll(s: Sys, id: Id, until: Time) returns (dt: nat)
    requires Good(s) && id in s.log
    ensures Enabled(s, Tick(dt)) && Apply(s, Tick(dt)) == s.(now := s.now + dt) && Good(Apply(s, Tick(dt)))
    ensures Score(s.(now := s.now + dt), id) == Score(s, id)
    ensures AllExpired(s.(now := s.now + dt)) && s.now + dt >= until
  {
    hide Good, Score, Enabled, Apply;
    GoodTags(s);
    Drain.LastExpiryIsLast(s, s.next);
    var last := Drain.LastExpiry(s, s.next);
    dt := if until > last then until - s.now else last - s.now;
    TickEffect(s, dt, id);
    var s1 := s.(now := s.now + dt);
    forall t: nat, retry: bool | Queued(s1, t, retry) ensures s1.msgs[t].place.expiry <= s1.now {
      assert Drain.Delayed(s, t) && t < s.next;
    }
  }

  lemma SameReaders(s: Sys, s': Sys, id: Id)
    requires s'.msgs == s.msgs && s'.calls == s.calls
    ensures NoStaleReaders(s', id) <==> NoStaleReaders(s, id)
  {
  }

  lemma FilledArrives(s: Sys, s': Sys, id: Id, tag: nat)
    requires FillsStale(s, s', id) && AllExpired(s) && HasMessage(s, id, tag)
    ensures MessageArrives(s', id, tag, s'.cache[id].expiresAt)
  {
    var e := s'.cache[id].expiresAt;
    hide StaleCache;
    forall g: nat, retry: bool ensures !HoldsBack(s', g, tag, retry, e) {
      assert Queued(s', g, retry) ==> Queued(s, g, retry) && s.msgs[g].place.expiry <= s.now;
    }
  }

  lemma ReaderWithMessage(s: Sys, id: Id, tag: nat)
    requires Good(s) && !NoStaleReaders(s, id) && HasMessage(s, id, tag) && s.workers > 0 && id in s.log
    ensures CanExceed(s, id)
  {
    hide Good, NoStaleReaders, CanExceed, Score, Enabled, Apply, FillsStale, Shape, AllExpired, MessageArrives;
    var dt := WaitForAll(s, id, s.now);
    var s1 := s.(now := s.now + dt);
    SameReaders(s, s1, id);
    var step := StaleReaderFills(s1, id);
    var s2 := Apply(s1, step);
    GoodStep(s1, step);
    FilledArrives(s1, s2, id, tag);
    FillKeepsScore(s1, s2, id);
    FillFrame(s1, s2, id);
    MessageExceeds(s2, id, tag);
    StepPrefix(s1, step, id);
    StepPrefix(s, Tick(dt), id);
  }

  lemma FillFrame(s: Sys, s': Sys, id: Id)
    requires FillsStale(s, s', id)
    ensures StaleCache(s', id) && s'.workers == s.workers
  {
  }

  /** The reader is none of the calls that publish. */
  lemma ReaderWithPublishing(s: Sys, id: Id, call: nat)
    requires Good(s) && !NoStaleReaders(s, id) && call in s.calls && s.calls[call].Publishing?
    requires s.calls[call].n.id == id && Publishable(s.calls[call]) && s.workers > 0 && id in s.log
    ensures CanExceed(s, id)
  {
    hide Good, CanExceed, Score, Enabled, Apply;
    PublishEffect(s, call, s.calls[call].n, s.calls[call].ttl);
    var s' := Apply(s, Publish(call, Done));
    assert HasMessage(s', id, s.next);
    assert !NoStaleReaders(s', id) by { PublishKeepsReaders(s, s', id, call); }
    hide NoStaleReaders, Published;
    ReaderWithMessage(s', id, s.next);
    StepPrefix(s, Publish(call, Done), id);
  }

  lemma PublishKeepsReaders(s: Sys, s': Sys, id: Id, call: nat)
    requires TagsBelow(s) && call in s.calls && s.calls[call].Publishing? && !NoStaleReaders(s, id)
    requires s.next in s'.msgs && s'.msgs == s.msgs[s.next := s'.msgs[s.next]] && s'.calls == s.calls - {call}
    ensures !NoStaleReaders(s', id)
  {
    if c :| c in s.calls && !HarmlessCall(s.calls[c], id) { assert c in s'.calls && !HarmlessCall(s'.calls[c], id); }
    else {
      var t :| t in s.msgs && s.msgs[t].body.id == id && s.msgs[t].place.Held? && s.msgs[t].place.pc.Reading?
               && StaleRead(s.msgs[t].place.pc.read);
      assert t in s'.msgs && s'.msgs[t] == s.msgs[t];
    }
  }

  lemma ReaderWithSaved(s: Sys, id: Id, call: nat)
    requires Good(s) && !NoStaleReaders(s, id) && call in s.calls && s.calls[call].Saved?
    requires s.calls[call].n.id == id && s.workers > 0 && id in s.log
    ensures CanExceed(s, id)
  {
    hide Good, CanExceed, Score, Enabled, Apply;
    var n := s.calls[call].n;
    var dt := if s.now < DueFrom(n) then DueFrom(n) - s.now else 0;
    TickEffect(s, dt, id);
    var s1 := s.(now := s.now + dt);
    ComputeEffect(s1, call, n, id);
    var s2 := s1.(calls := s1.calls[call := Publishing(n, 0)]);
    assert !NoStaleReaders(s2, id) by { ComputeKeepsReaders(s, s2, id, call); }
    hide NoStaleReaders;
    ReaderWithPublishing(s2, id, call);
    StepPrefix(s1, ComputeTtl(call), id);
    StepPrefix(s, Tick(dt), id);
  }

  lemma ComputeKeepsReaders(s: Sys, s': Sys, id: Id, call: nat)
    requires call in s.calls && s.calls[call].Saved? && !NoStaleReaders(s, id)
    requires call in s'.calls && s'.msgs == s.msgs && s'.calls == s.calls[call := s'.calls[call]]
    ensures !NoStaleReaders(s', id)
  {
    if c :| c in s.calls && !HarmlessCall(s.calls[c], id) { assert c in s'.calls && !HarmlessCall(s'.calls[c], id); }
  }

  /** A creation that is yet to fill the cache waits, fills it, and publishes at once. */
  lemma CreatingExceeds(s: Sys, id: Id, call: nat)
    requires Good(s) && call in s.calls && s.calls[call].Creating? && s.calls[call].n.id == id
    requires s.workers > 0 && id in s.log
    ensures CanExceed(s, id)
  {
    hide Good, CanExceed, Score, Enabled, Apply, AllExpired, Shape;
    var n := s.calls[call].n;
    var dt := WaitForAll(s, id, DueFrom(n));
    var s1 := s.(now := s.now + dt);
    CreationFillsStale(s1, call, id);
    var s2 := Apply(s1, FillCreated(call, Done));
    GoodStep(s1, FillCreated(call, Done));
    FillKeepsScore(s1, s2, id);
    assert call in s2.calls && s2.calls[call] == Saved(n) by { FillCreatedCall(s1, call); }
    assert !Blocked(s2, s2.cache[id].expiresAt) by { FilledUnblocked(s1, s2, id); }
    FillFrame(s1, s2, id);
    assert PublishesBefore(s2, s2.calls[call], s2.cache[id].expiresAt) by { FillExpiry(s1, s2, id); }
    hide PublishesBefore, FillsStale;
    SavedExceeds(s2, id, call);
    StepPrefix(s1, FillCreated(call, Done), id);
    StepPrefix(s, Tick(dt), id);
  }

  lemma FillExpiry(s: Sys, s': Sys, id: Id)
    requires FillsStale(s, s', id)
    ensures id in s'.cache && s'.cache[id].expiresAt == s.now + CACHE_TTL
  {
  }

  lemma FillCreatedCall(s: Sys, call: nat)
    requires Enabled(s, FillCreated(call, Done))
    ensures var s' := Apply(s, FillCreated(call, Done)); call in s'.calls && s'.calls[call] == Saved(s.calls[call].n)
  {
  }

  lemma FilledUnblocked(s: Sys, s': Sys, id: Id)
    requires FillsStale(s, s', id) && AllExpired(s)
    ensures !Blocked(s', s'.cache[id].expiresAt)
  {
    forall g: nat ensures !(Queued(s', g, false) && s'.msgs[g].place.expiry >= s'.cache[id].expiresAt) {
      assert Queued(s', g, false) ==> Queued(s, g, false);
    }
  }

  /** Somebody carries the old value and a message exists or can be published: it is sent once too often. */
  lemma StaleReaderExceeds(s: Sys, id: Id)
    requires Good(s) && !NoStaleReaders(s, id) && ArrivesEver(s, id) && s.workers > 0 && id in s.log
    ensures CanExceed(s, id)
  {
    hide Good, NoStaleReaders, CanExceed;
    if t :| HasMessage(s, id, t) { ReaderWithMessage(s, id, t); }
    else {
      var c :| MayPublish(s, id, c);
      if s.calls[c].Publishing? { ReaderWithPublishing(s, id, c); }
      else if s.calls[c].Saved? { ReaderWithSaved(s, id, c); }
      else { CreatingExceeds(s, id, c); }
    }
  }
}
