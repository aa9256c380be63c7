/** Runs from an empty system to the states in which the stronger claims fail. */
module Witnesses {
  import opened Domain
  import CacheAside
  import Delay
  import Mappers
  import Service
  import opened Protocol
  import opened Invariant
  import opened InvariantSteps
  import opened Accounting
  import opened Safety
  import opened Quiet
  import opened Arrival
  import opened LateRuns
  import opened LateSends
  import opened Answers
  import opened Embedding
  import opened ServiceRuns
  import opened Overwrites

  lemma ReachableRun(s: Sys, steps: seq<Step>)
    requires Reachable(s) && CanRun(s, steps)
    ensures Reachable(Run(s, steps))
  {
    hide CanRun, Run, Init;
    var workers: nat, now: Time, before: seq<Step> :|
      CanRun(Init(workers, now), before) && Run(Init(workers, now), before) == s;
    RunConcat(Init(workers, now), before, steps);
  }

  const CALM_READ := CacheAside.ReadEnv(true, true, Done)

  /** One worker, one scheduled notification, in the table, in the cache and in the ready queue; nothing else. */
  ghost predicate JustReady(s: Sys, row: Notification) {
    && s.workers == 1 && row.id == 0 && row.status == Scheduled
    && s.rows == map[0 := row] && 0 in s.hist && 0 in s.log
    && s.cache == map[0 := Entry(row, s.now + CACHE_TTL)]
    && s.msgs == map[0 := Message(row, InReady)] && s.calls == map[]
  }

  const REQUEST := Request("a", Email, "s", "m", 0, None)
  const VERDICT := Verdict(true, None)
  const CONFIRMED := Service.CreateEnv(Done, Done, Done)

  lemma ZeroTtl()
    ensures Delay.PublishTtl(0, 0) == 0 && Mappers.StoreTime(0) == 0
  {
  }

  lemma CreatedRow(req: Request, v: Verdict) returns (row: Notification)
    requires Sane(req, v) && req.channel == Email && v.addressOk && req.scheduledAt == 0
    ensures Draft(req, v, 0, 0).Ok? && Mappers.HasRecipient(Draft(req, v, 0, 0).value)
    ensures row == Mappers.Stored(0, Draft(req, v, 0, 0).value, 0)
    ensures row.id == 0 && row.status == Scheduled && row.scheduledAt == 0
  {
    row := Mappers.Stored(0, Draft(req, v, 0, 0).value, 0);
    Mappers.SaveRoundTrip(0, Draft(req, v, 0, 0).value, 0);
  }

  /** What CreateNotification leaves when every call succeeds. */
  lemma CreatedWorld(req: Request, v: Verdict, row: Notification)
    requires Sane(req, v) && Draft(req, v, 0, 0).Ok? && Mappers.HasRecipient(Draft(req, v, 0, 0).value)
    requires row == Mappers.Stored(0, Draft(req, v, 0, 0).value, 0) && row.id == 0 && row.scheduledAt == 0
    ensures Service.Create(CacheAside.World(map[], map[]), map[], req, v, 0, 0, 0, 0, CONFIRMED).world
         == CacheAside.World(map[0 := row], map[0 := Entry(row, CACHE_TTL)])
    ensures CreateCopy(Draft(req, v, 0, 0).value, 0, 0, 0, CONFIRMED) == [Message(row, InWait(0))]
  {
    ZeroTtl();
    hide Draft, Mappers.Stored, Delay.PublishTtl;
  }

  ghost predicate JustCreated(s: Sys, row: Notification) {
    && s.now == 0 && WorldOf(s) == CacheAside.World(map[0 := row], map[0 := Entry(row, CACHE_TTL)])
    && s.msgs == map[0 := Message(row, InWait(0))] && s.calls == map[]
  }

  lemma CreatedRun(s: Sys, req: Request, v: Verdict, row: Notification)
    requires WorldOf(s) == CacheAside.World(map[], map[]) && s.now == 0 && s.next == 0
    requires s.msgs == map[] && s.calls == map[]
    requires Sane(req, v) && Draft(req, v, 0, 0).Ok? && req.scheduledAt == 0
    requires Mappers.HasRecipient(Draft(req, v, 0, 0).value)
    requires row == Mappers.Stored(0, Draft(req, v, 0, 0).value, 0) && row.id == 0 && row.scheduledAt == 0
    ensures var steps := CreateSteps(0, 0, req, v, 0, CONFIRMED); CanRun(s, steps) && JustCreated(Run(s, steps), row)
  {
    hide CanRun, Run, Draft, Mappers.Stored, Mappers.HasRecipient, Delay.PublishTtl, CreateSteps, CreateCopy;
    hide Service.Create, CreateAnswer, SamePublished;
    CreatedWorld(req, v, row);
    ZeroTtl();
    hide Mappers.StoreTime;
    CreateRuns(s, 0, map[], req, v, 0, 0, 0, CONFIRMED);
  }

  lemma WorkersStay(s: Sys, steps: seq<Step>)
    requires Reachable(s) && CanRun(s, steps)
    ensures Reachable(Run(s, steps)) && Run(s, steps).workers == s.workers
  {
    hide Reachable, Good, CanRun, Run;
    ReachableGood(s);
    GoodRun(s, steps);
    ReachableRun(s, steps);
  }

  lemma ReleaseReady(s: Sys, row: Notification)
    requires JustCreated(s, row) && s.workers == 1 && row.id == 0 && row.status == Scheduled
    requires s.rows.Keys == s.hist.Keys == s.log.Keys
    ensures Enabled(s, Release(0)) && JustReady(Apply(s, Release(0)), row)
  {
  }

  lemma ReachableKeys(s: Sys)
    requires Reachable(s)
    ensures s.rows.Keys == s.hist.Keys == s.log.Keys
  {
    hide Reachable, Inv, Fresh, Prefetch, AllCounted;
    ReachableGood(s);
    KeysOf(s);
  }

  /** A notification created for now, with every call successful, and released. */
  lemma ReachReady() returns (s: Sys, row: Notification)
    ensures Reachable(s) && JustReady(s, row)
  {
    hide Reachable, CanRun, Run, Draft, Mappers.Stored, CreateSteps, Enabled, Apply, JustCreated, JustReady;
    row := CreatedRow(REQUEST, VERDICT);
    ReachableInit(1, 0);
    CreatedRun(Init(1, 0), REQUEST, VERDICT, row);
    var steps := CreateSteps(0, 0, REQUEST, VERDICT, 0, CONFIRMED);
    WorkersStay(Init(1, 0), steps);
    var s1 := Run(Init(1, 0), steps);
    ReachableKeys(s1);
    ReleaseReady(s1, row);
    ReachableStep(s1, Release(0));
    s := Apply(s1, Release(0));
  }

  // ---- a cancelled notification is sent -------------------------------------------------------

  /** Cancelled, no worker past the check; and yet some continuation sends it. */
  ghost predicate SentAfterCancel(s: Sys, id: Id) {
    && id in s.rows && s.rows[id].status == Cancelled
    && Exposed(s, id) == 0 && id in s.log && CanExceed(s, id)
  }

  /** The row is cancelled, its one message is still ready, the worker free. */
  ghost predicate CancelledReady(s: Sys, row: Notification) {
    && s.workers == 1 && 0 in s.rows && s.rows[0].status == Cancelled
    && s.msgs == map[0 := Message(row, InReady)] && row.id == 0
  }

  lemma CancelledIsLeft(s: Sys, row: Notification)
    requires Reachable(s) && CancelledReady(s, row)
    ensures Good(s) && Left(s, 0) && 0 in s.log && Exposed(s, 0) == 0
    ensures ArrivesEver(s, 0) && forall e: Time :: Arrives(s, 0, e)
  {
    hide Reachable, Inv, Fresh, Prefetch, AllCounted;
    ReachableGood(s);
    KeysOf(s);
    assert Left(s, 0) by { CurrentValue(s, 0); TheRow(s, 0); }
    TotalZero(s.msgs, s.next, PastCheck(0));
    assert HasMessage(s, 0, 0);
    forall e: Time ensures Arrives(s, 0, e) { assert MessageArrives(s, 0, 0, e); }
  }

  lemma LostInvalidation(s: Sys, row: Notification)
    requires JustReady(s, row)
    ensures var w := Service.Cancel(WorldOf(s), 0, s.now, CALM_READ, Done, Refused).0;
      0 in w.rows && w.rows[0].status == Cancelled && w.cache == s.cache
  {
  }

  /** A cancel whose cache delete fails: the worker then still finds status scheduled in the cache. */
  lemma SomeCancelledIsSent()
    ensures exists s: Sys, id: Id :: Reachable(s) && SentAfterCancel(s, id)
  {
    hide Reachable, Good, Left, CanRun, Run, Arrives, ArrivesEver, CanExceed, Exposed, NoStaleReaders;
    hide Service.Cancel, CancelBody;
    hide CancelAnswer, LastRead;
    var s, row := ReachReady();
    ReachableKeys(s);
    CancelRuns(s, 0, 0, CALM_READ, Done, Refused);
    var cancel := [BeginCancel(0, 0)] + CancelBody(s, 0, 0, CALM_READ, Done, Refused);
    LostInvalidation(s, row);
    WorkersStay(s, cancel);
    var s' := Run(s, cancel);
    CancelledIsLeft(s', row);
    LateSendIff(s', 0);
    assert SentAfterCancel(s', 0);
  }

  // ---- and so it is, though nothing fails, behind a slow reader -------------------------------

  /** A reader that has fetched the row while it was scheduled, and is yet to fill the cache. */
  ghost predicate SlowReader(s: Sys, call: nat, id: Id) {
    && call in s.calls && s.calls[call].Getting? && s.calls[call].id == id
    && s.calls[call].read.AtFill? && id in s.rows && s.calls[call].read.value == s.rows[id]
    && s.rows[id].status == Scheduled
  }

  /** While the reader waits, a cancel runs to its end, its cache delete succeeds, and the cache holds nothing of the
      notification; and yet it can be sent. */
  ghost predicate SentBehindReader(s: Sys, cancel: seq<Step>, call: nat, id: Id) {
    && SlowReader(s, call, id) && CanRun(s, cancel) && Confirmed(cancel)
    && var s' := Run(s, cancel); id !in s'.cache && SentAfterCancel(s', id)
  }

  /** One day later, when the cache entry has expired, a reader has fetched the row. */
  ghost predicate ReaderWaits(s: Sys, row: Notification) {
    && s.workers == 1 && row.id == 0 && row.status == Scheduled
    && s.rows == map[0 := row] && s.msgs == map[0 := Message(row, InReady)]
    && (0 in s.cache ==> s.cache[0].expiresAt <= s.now)
    && s.calls == map[1 := Getting(0, AtFill(row, s.now))]
  }

  lemma ReaderStarts(s: Sys, row: Notification)
    requires JustReady(s, row)
    ensures Enabled(s, Tick(CACHE_TTL))
    ensures var s1 := Apply(s, Tick(CACHE_TTL));
      && Enabled(s1, BeginGet(1, 0))
      && var s2 := Apply(s1, BeginGet(1, 0));
         && s2.calls == map[1 := Getting(0, AtCache)] && s2.cache == s.cache && s2.now == s.now + CACHE_TTL
         && s2.rows == s.rows && s2.msgs == s.msgs && s2.workers == 1
  {
  }

  lemma ReaderMisses(s: Sys)
    requires s.calls == map[1 := Getting(0, AtCache)]
    ensures Enabled(s, CallRead(1, Miss))
    ensures Apply(s, CallRead(1, Miss)) == s.(calls := map[1 := Getting(0, AtPrimary)])
  {
  }

  lemma ReaderFetches(s: Sys, row: Notification)
    requires s.calls == map[1 := Getting(0, AtPrimary)] && s.rows == map[0 := row]
    ensures Enabled(s, CallRead(1, RowRead))
    ensures Apply(s, CallRead(1, RowRead)) == s.(calls := map[1 := Getting(0, AtFill(row, s.now))])
  {
  }

  lemma ReachReader() returns (s: Sys, row: Notification)
    ensures Reachable(s) && ReaderWaits(s, row)
  {
    hide Reachable, Enabled, Apply;
    var s0: Sys;
    s0, row := ReachReady();
    ReaderStarts(s0, row);
    ReachableStep(s0, Tick(CACHE_TTL));
    var s1 := Apply(s0, Tick(CACHE_TTL));
    ReachableStep(s1, BeginGet(1, 0));
    var s2 := Apply(s1, BeginGet(1, 0));
    ReaderMisses(s2);
    ReachableStep(s2, CallRead(1, Miss));
    var s3 := Apply(s2, CallRead(1, Miss));
    ReaderFetches(s3, row);
    ReachableStep(s3, CallRead(1, RowRead));
    s := Apply(s3, CallRead(1, RowRead));
  }

  lemma CleanCancel(s: Sys, row: Notification)
    requires ReaderWaits(s, row)
    ensures var (w, e) := Service.Cancel(WorldOf(s), 0, s.now, CALM_READ, Done, Done);
      e == None && 0 in w.rows && w.rows[0].status == Cancelled && 0 !in w.cache
    ensures CacheAside.Get(WorldOf(s), 0, s.now, CALM_READ).1 == Ok(row)
  {
  }

  lemma ReaderIsStale(s: Sys, row: Notification)
    requires row.status == Scheduled && s.calls == map[1 := Getting(0, AtFill(row, s.now))]
    ensures !NoStaleReaders(s, 0)
  {
    assert !HarmlessCall(s.calls[1], 0);
  }

  /** Every call succeeds; the reader was merely slow. */
  lemma SomeIsSentBehindReader()
    ensures exists s: Sys, cancel: seq<Step>, call: nat, id: Id :: Reachable(s) && SentBehindReader(s, cancel, call, id)
  {
    hide Reachable, Good, Left, CanRun, Run, Arrives, ArrivesEver, CanExceed, Exposed, NoStaleReaders;
    hide Service.Cancel, CancelBody;
    hide CacheAside.Get, LastRead, Confirmed;
    var s, row := ReachReader();
    ReachableKeys(s);
    CancelRuns(s, 0, 0, CALM_READ, Done, Done);
    var cancel := [BeginCancel(0, 0)] + CancelBody(s, 0, 0, CALM_READ, Done, Done);
    CleanCancel(s, row);
    WorkersStay(s, cancel);
    var s' := Run(s, cancel);
    CancelledIsLeft(s', row);
    ReaderIsStale(s', row);
    LateSendIff(s', 0);
    assert SentBehindReader(s, cancel, 1, 0);
  }

  // ---- one terminal status over another -------------------------------------------------------

  lemma WorkerTakes(s: Sys, row: Notification)
    requires JustReady(s, row)
    ensures Enabled(s, Deliver(0, 0))
    ensures var s1 := Apply(s, Deliver(0, 0));
      && Enabled(s1, WorkerRead(0, Hit))
      && var s2 := Apply(s1, WorkerRead(0, Hit));
         && s2.msgs == map[0 := Message(row, Held(0, Checked))] && s2.calls == map[] && s2.cache == s.cache
         && s2.now == s.now && s2.rows == s.rows && s2.hist == s.hist && s2.log == s.log
  {
  }

  lemma WorkerSends(s: Sys, row: Notification)
    requires s.msgs == map[0 := Message(row, Held(0, Checked))] && row.id == 0 && 0 in s.log && 0 in s.hist
    ensures Enabled(s, Send(0, true))
    ensures var s' := Apply(s, Send(0, true));
      && SendAccepted(s', 0, 0)
      && s'.calls == s.calls && s'.cache == s.cache && s'.now == s.now && s'.rows == s.rows && s'.hist == s.hist
  {
  }

  lemma CancelJoins(s: Sys, tag: nat)
    requires SendAccepted(s, tag, 0)
    requires s.calls == map[] && StaleCache(s, 0) && 0 in s.rows && 0 in s.hist
    ensures Enabled(s, BeginCancel(0, 0))
    ensures var s1 := Apply(s, BeginCancel(0, 0));
      && Enabled(s1, CallRead(0, Hit)) && Race(Apply(s1, CallRead(0, Hit)), tag, 0, 0)
  {
    CancelPasses(s, 0, 0);
    CallReadFrame(Apply(s, BeginCancel(0, 0)), 0, Hit);
  }

  lemma ReachRace() returns (s: Sys)
    ensures Reachable(s) && Race(s, 0, 0, 0)
  {
    hide Reachable, Enabled, Apply, Race, SendAccepted;
    var s0, row := ReachReady();
    WorkerTakes(s0, row);
    ReachableStep(s0, Deliver(0, 0));
    var s1 := Apply(s0, Deliver(0, 0));
    ReachableStep(s1, WorkerRead(0, Hit));
    var s2 := Apply(s1, WorkerRead(0, Hit));
    WorkerSends(s2, row);
    ReachableStep(s2, Send(0, true));
    var s3 := Apply(s2, Send(0, true));
    CancelJoins(s3, 0);
    ReachableStep(s3, BeginCancel(0, 0));
    var s4 := Apply(s3, BeginCancel(0, 0));
    ReachableStep(s4, CallRead(0, Hit));
    s := Apply(s4, CallRead(0, Hit));
  }

  /** From s, these two steps turn a recorded status into another terminal one. */
  ghost predicate Overwritten(s: Sys, first: Step, second: Step, id: Id, before: Status, after: Status) {
    && Enabled(s, first)
    && var s1 := Apply(s, first);
       && id in s1.rows && s1.rows[id].status == before && Enabled(s1, second)
       && var s2 := Apply(s1, second); id in s2.rows && s2.rows[id].status == after
  }

  /** Sent becomes cancelled, or cancelled sent, depending on who writes last; nothing fails in either run. */
  lemma SomeStatusIsOverwritten()
    ensures exists s: Sys, tag: nat, call: nat, id: Id ::
      && Reachable(s)
      && Overwritten(s, Update(tag, Done), CancelWrite(call, Done), id, Sent, Cancelled)
      && Overwritten(s, CancelWrite(call, Done), Update(tag, Done), id, Cancelled, Sent)
  {
    hide Reachable, Enabled, Apply;
    var s := ReachRace();
    LastWriterWins(s, 0, 0, 0);
    assert Overwritten(s, Update(0, Done), CancelWrite(0, Done), 0, Sent, Cancelled);
    assert Overwritten(s, CancelWrite(0, Done), Update(0, Done), 0, Cancelled, Sent);
  }
}
