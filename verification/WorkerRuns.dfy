/** The worker's loop over its deliveries, run without interruption by others, is one of the interleaved runs: for
    every delivery the clock, the broker's delivery, and the handler's steps. Table, cache, settlements and retry
    copies agree. */
module WorkerRuns {
  import opened Domain
  import CacheAside
  import Delay
  import RabbitMq
  import Notifiers
  import opened Consumer
  import opened Protocol
  import opened Invariant
  import opened Accounting
  import opened Safety
  import opened Embedding

  /** The delivery is the next the broker makes to this worker: it is ready, and the worker is free. */
  ghost predicate Offers(s: Sys, worker: nat, job: Job) {
    && job.msg.body.Some? && s.now <= job.now && worker < s.workers && Idle(s, worker)
    && job.msg.tag in s.msgs && s.msgs[job.msg.tag] == Message(job.msg.body.value, InReady)
  }

  function JobSteps(s: Sys, worker: nat, job: Job, notifiers: Notifiers.Table): seq<Step>
    requires job.msg.body.Some? && s.now <= job.now
  {
    var b, tag := job.msg.body.value, job.msg.tag;
    var ok := Notifiers.Dispatch(notifiers, b, job.env.transportOk) == Notifiers.Accepted;
    [Tick(job.now - s.now)] + ([Deliver(tag, worker)] + HandlerSteps(s.(now := job.now), tag, b, ok, job.env))
  }

  /** The retry copy that one delivery leaves. */
  function JobCopy(s: Sys, job: Job, notifiers: Notifiers.Table): seq<Message>
    requires job.msg.body.Some?
  {
    var b := job.msg.body.value;
    var ok := Notifiers.Dispatch(notifiers, b, job.env.transportOk) == Notifiers.Accepted;
    HandlerCopy(s.(now := job.now), b, ok, job.env)
  }

  /** After one delivery: it is gone, or ready again; its retry copy, if any, is behind everything else. */
  ghost predicate Worked(s: Sys, s': Sys, tag: nat, settlement: Settlement, copy: seq<Message>) {
    && s'.next == s.next + |copy| && s'.workers == s.workers
    && s'.msgs == WithCopy(if settlement.Requeued? then s.msgs else s.msgs - {tag}, s.next, copy)
  }

  lemma Delivered(s: Sys, worker: nat, job: Job)
    requires Offers(s, worker, job)
    ensures Enabled(s, Tick(job.now - s.now))
    ensures var s1 := Apply(s, Tick(job.now - s.now));
      && s1 == s.(now := job.now) && Enabled(s1, Deliver(job.msg.tag, worker))
      && Apply(s1, Deliver(job.msg.tag, worker))
         == s1.(msgs := s.msgs[job.msg.tag := Message(job.msg.body.value, Held(worker, Reading(AtCache)))])
  {
    hide Idle;
    assert Idle(s.(now := job.now), worker) by { SameIdle(s, s.(now := job.now), worker); }
  }

  lemma SameIdle(s: Sys, s': Sys, worker: nat)
    requires Idle(s, worker) && s'.msgs == s.msgs
    ensures Idle(s', worker)
  {
  }

  lemma OfferHolds(s: Sys, s2: Sys, worker: nat, job: Job)
    requires Offers(s, worker, job) && Placed(s, job.msg.tag)
    requires s2 == s.(now := job.now,
                      msgs := s.msgs[job.msg.tag := Message(job.msg.body.value, Held(worker, Reading(AtCache)))])
    ensures Holding(s2, job.msg.tag, Reading(AtCache)) && s2.msgs[job.msg.tag].body.id in s2.rows
  {
    hide Idle;
  }

  /** What every message of a reachable state satisfies. */
  ghost predicate Placed(s: Sys, tag: nat) {
    && tag in s.msgs && tag < s.next && 0 <= s.msgs[tag].body.attempts < MAX_RETRIES
    && s.msgs[tag].body.id in s.rows && s.rows.Keys == s.hist.Keys == s.log.Keys
  }

  lemma GoodPlaced(s: Sys, tag: nat)
    requires Good(s) && tag in s.msgs
    ensures Placed(s, tag)
  {
    hide Inv, Fresh, Prefetch, AllCounted;
    TheMessage(s, tag);
    KeysOf(s);
  }

  /** Any delivery offered to the worker can be worked off, with the handler's effect. */
  lemma JobRuns(s: Sys, worker: nat, job: Job, contents: RabbitMq.Contents, notifiers: Notifiers.Table)
    requires Good(s) && Offers(s, worker, job)
    ensures var steps := JobSteps(s, worker, job, notifiers);
      var h := Handle(WorldOf(s), contents, job.msg.body, notifiers, job.now, job.env);
      && CanRun(s, steps)
      && WorldOf(Run(s, steps)) == h.world && Run(s, steps).now == job.now
      && Worked(s, Run(s, steps), job.msg.tag, h.settlement, JobCopy(s, job, notifiers))
      && SameCopy(contents, h.contents, JobCopy(s, job, notifiers), job.now)
  {
    hide Good, Offers, Enabled, Apply, CanRun, Run, Holding, Handle, HandlerSteps, HandlerCopy, SameCopy;
    hide Notifiers.Dispatch;
    OfferMeans(s, worker, job);
    Delivered(s, worker, job);
    var b, tag := job.msg.body.value, job.msg.tag;
    var ok := Notifiers.Dispatch(notifiers, b, job.env.transportOk) == Notifiers.Accepted;
    var s1 := s.(now := job.now);
    var s2 := Apply(s1, Deliver(tag, worker));
    GoodPlaced(s, tag);
    OfferHolds(s, s2, worker, job);
    HandlerRuns(s2, tag, contents, notifiers, job.env);
    SameHandler(s1, s2, tag, b, ok, job.env);
    var rest := HandlerSteps(s1, tag, b, ok, job.env);
    RunCons(s1, Deliver(tag, worker), rest);
    RunCons(s, Tick(job.now - s.now), [Deliver(tag, worker)] + rest);
    var h := Handle(WorldOf(s), contents, job.msg.body, notifiers, job.now, job.env);
    HandledIsWorked(s, s2, Run(s2, rest), tag, Message(b, Held(worker, Reading(AtCache))), h.settlement,
                    JobCopy(s, job, notifiers));
    assert Run(s, JobSteps(s, worker, job, notifiers)).workers == s.workers by {
      GoodRun(s, JobSteps(s, worker, job, notifiers));
    }
  }

  lemma OfferMeans(s: Sys, worker: nat, job: Job)
    requires Offers(s, worker, job)
    ensures job.msg.body.Some? && s.now <= job.now && job.msg.tag in s.msgs
    ensures s.msgs[job.msg.tag] == Message(job.msg.body.value, InReady)
  {
  }

  lemma SameHandler(s: Sys, s': Sys, tag: nat, b: Notification, ok: bool, env: HandleEnv)
    requires WorldOf(s') == WorldOf(s) && s'.now == s.now
    ensures HandlerSteps(s', tag, b, ok, env) == HandlerSteps(s, tag, b, ok, env)
    ensures HandlerCopy(s', b, ok, env) == HandlerCopy(s, b, ok, env)
  {
  }

  lemma HandledIsWorked(s: Sys, s2: Sys, s': Sys, tag: nat, held: Message, settlement: Settlement, copy: seq<Message>)
    requires tag in s.msgs && s.msgs[tag].place == InReady && held.body == s.msgs[tag].body
    requires s2.msgs == s.msgs[tag := held] && s2.next == s.next && SettledAs(s2, s', tag, settlement, copy)
    ensures s'.next == s.next + |copy|
    ensures s'.msgs == WithCopy(if settlement.Requeued? then s.msgs else s.msgs - {tag}, s.next, copy)
  {
    assert s2.msgs[tag := held.(place := InReady)] == s.msgs;
    assert s2.msgs - {tag} == s.msgs - {tag};
  }

  // ---- the loop -------------------------------------------------------------------------------

  /** The broker offers the worker these deliveries one after another. */
  ghost predicate Served(s: Sys, worker: nat, jobs: seq<Job>, notifiers: Notifiers.Table)
    decreases |jobs|
  {
    jobs == [] || (
      && Offers(s, worker, jobs[0]) && CanRun(s, JobSteps(s, worker, jobs[0], notifiers))
      && Served(Run(s, JobSteps(s, worker, jobs[0], notifiers)), worker, jobs[1..], notifiers))
  }

  ghost function LoopSteps(s: Sys, worker: nat, jobs: seq<Job>, notifiers: Notifiers.Table): seq<Step>
    requires Served(s, worker, jobs, notifiers)
    decreases |jobs|
  {
    if jobs == [] then []
    else
      var steps := JobSteps(s, worker, jobs[0], notifiers);
      steps + LoopSteps(Run(s, steps), worker, jobs[1..], notifiers)
  }

  lemma {:induction false} HandleFirst(work: Work, jobs: seq<Job>, notifiers: Notifiers.Table)
    requires jobs != []
    ensures HandleAll(work, jobs, notifiers) == HandleAll(HandleJob(work, jobs[0], notifiers), jobs[1..], notifiers)
    decreases |jobs|
  {
    hide HandleJob;
    var n := |jobs| - 1;
    if n > 0 {
      HandleFirst(work, jobs[..n], notifiers);
      assert jobs[..n][1..] == jobs[1..][..n-1] && jobs[1..][n-1] == jobs[n] && jobs[..n][0] == jobs[0];
    }
  }

  /** The messages posted between two states are the retry copies that the publisher queued, in order. */
  ghost predicate Posted(s: Sys, s': Sys, before: RabbitMq.Contents, after: RabbitMq.Contents) {
    var q := RabbitMq.QueueContents(before, RabbitMq.RETRY_QUEUE);
    var q' := RabbitMq.QueueContents(after, RabbitMq.RETRY_QUEUE);
    && q <= q' && s.next <= s'.next && s.now <= s'.now && |q'| - |q| == s'.next - s.next
    && (forall k: nat | |q| <= k < |q'| :: PostedAs(s, s', |q|, q', k))
    && (forall name | name != RabbitMq.RETRY_QUEUE ::
          RabbitMq.QueueContents(after, name) == RabbitMq.QueueContents(before, name))
  }

  /** The k-th publishing of the queue, of which n were there before, is the (k - n)-th message posted since. */
  ghost predicate PostedAs(s: Sys, s': Sys, n: nat, q: seq<RabbitMq.Publishing>, k: nat)
    requires k < |q|
  {
    var tag, p := s.next + (k - n), q[k];
    && tag in s'.msgs && s'.msgs[tag].body == p.body && s'.msgs[tag].place.InRetry?
    && s.now <= s'.msgs[tag].place.expiry - p.expiration * MILLISECOND <= s'.now
  }

  lemma JobPosts(s: Sys, s': Sys, tag: nat, settlement: Settlement, copy: seq<Message>,
                 before: RabbitMq.Contents, after: RabbitMq.Contents, now: Time)
    requires Worked(s, s', tag, settlement, copy) && SameCopy(before, after, copy, now) && |copy| <= 1
    requires s.now <= now == s'.now && TagsBelow(s) && tag < s.next
    ensures Posted(s, s', before, after)
  {
    hide Delay.RetryTtl;
    if copy != [] {
      var q := RabbitMq.QueueContents(before, RabbitMq.RETRY_QUEUE);
      var q' := RabbitMq.QueueContents(after, RabbitMq.RETRY_QUEUE);
      assert q' == q + [RabbitMq.Publishing(copy[0].body, Delay.RetryTtl(copy[0].body.attempts))];
      assert PostedAs(s, s', |q|, q', |q|);
    }
  }

  /** A later delivery of this worker is a ready message, so the copies posted before stay where they are. */
  lemma PostedTransitive(s: Sys, s1: Sys, s2: Sys, tag: nat, settlement: Settlement, copy: seq<Message>,
                         c: RabbitMq.Contents, c1: RabbitMq.Contents, c2: RabbitMq.Contents)
    requires Worked(s, s1, tag, settlement, copy) && |copy| <= 1
    requires Posted(s, s1, c, c1) && Posted(s1, s2, c1, c2)
    requires forall t | t in s1.msgs && s1.msgs[t].place.InRetry? :: t in s2.msgs && s2.msgs[t] == s1.msgs[t]
    ensures Posted(s, s2, c, c2)
  {
    var q := RabbitMq.QueueContents(c, RabbitMq.RETRY_QUEUE);
    var q1 := RabbitMq.QueueContents(c1, RabbitMq.RETRY_QUEUE);
    var q2 := RabbitMq.QueueContents(c2, RabbitMq.RETRY_QUEUE);
    assert q <= q1 <= q2;
    forall k: nat | |q| <= k < |q2| ensures PostedAs(s, s2, |q|, q2, k) {
      if k < |q1| { assert PostedAs(s, s1, |q|, q1, k) && q2[k] == q1[k]; }
      else { assert PostedAs(s1, s2, |q1|, q2, k); }
    }
  }

  /** The retry copies of s are untouched in s'. */
  ghost predicate RetriesStay(s: Sys, s': Sys) {
    forall t | t in s.msgs && s.msgs[t].place.InRetry? :: t in s'.msgs && s'.msgs[t] == s.msgs[t]
  }

  lemma WorkedStays(s: Sys, s': Sys, tag: nat, settlement: Settlement, copy: seq<Message>)
    requires Worked(s, s', tag, settlement, copy) && tag in s.msgs && s.msgs[tag].place.InReady? && TagsBelow(s)
    ensures RetriesStay(s, s')
  {
  }

  /** How the last delivery ended, in the messages. */
  ghost predicate EndsAs(s: Sys, job: Job, settlement: Settlement) {
    && (settlement == Acked ==> job.msg.tag !in s.msgs)
    && (settlement == Requeued ==> job.msg.body.Some? && job.msg.tag in s.msgs
                                   && s.msgs[job.msg.tag] == Message(job.msg.body.value, InReady))
  }

  lemma JobDone(s: Sys, worker: nat, job: Job, contents: RabbitMq.Contents, notifiers: Notifiers.Table)
    requires Good(s) && Offers(s, worker, job)
    ensures var steps := JobSteps(s, worker, job, notifiers);
      var h := Handle(WorldOf(s), contents, job.msg.body, notifiers, job.now, job.env);
      && CanRun(s, steps)
      && var s' := Run(s, steps);
         && Good(s') && WorldOf(s') == h.world && Posted(s, s', contents, h.contents) && RetriesStay(s, s')
         && EndsAs(s', job, h.settlement) && h.settlement != Dropped
         && Worked(s, s', job.msg.tag, h.settlement, JobCopy(s, job, notifiers))
  {
    hide Good, CanRun, Run, JobSteps, Handle, JobCopy, SameCopy, Posted, Idle, Notifiers.Dispatch;
    JobRuns(s, worker, job, contents, notifiers);
    var steps := JobSteps(s, worker, job, notifiers);
    var h := Handle(WorldOf(s), contents, job.msg.body, notifiers, job.now, job.env);
    GoodRun(s, steps);
    GoodTags(s);
    var copy := JobCopy(s, job, notifiers);
    assert |copy| <= 1 by { OneCopy(s, job, notifiers); }
    JobPosts(s, Run(s, steps), job.msg.tag, h.settlement, copy, contents, h.contents, job.now);
    WorkedStays(s, Run(s, steps), job.msg.tag, h.settlement, copy);
    NeverDropped(WorldOf(s), contents, job, notifiers);
  }

  lemma OneCopy(s: Sys, job: Job, notifiers: Notifiers.Table)
    requires job.msg.body.Some?
    ensures |JobCopy(s, job, notifiers)| <= 1
  {
    hide CacheAside.Get, Notifiers.Dispatch;
  }

  lemma NeverDropped(w: CacheAside.World, contents: RabbitMq.Contents, job: Job, notifiers: Notifiers.Table)
    requires job.msg.body.Some?
    ensures Handle(w, contents, job.msg.body, notifiers, job.now, job.env).settlement != Dropped
  {
    SettlementMeans(w, contents, job.msg.body, notifiers, job.now, job.env);
  }

  /** The whole loop. With every prefix of a served sequence served, this says for each delivery how it ended. */
  lemma {:induction false} LoopRuns(s: Sys, worker: nat, jobs: seq<Job>, work: Work, notifiers: Notifiers.Table)
    requires Good(s) && Served(s, worker, jobs, notifiers) && work.world == WorldOf(s)
    ensures var steps := LoopSteps(s, worker, jobs, notifiers); var done := HandleAll(work, jobs, notifiers);
      && CanRun(s, steps)
      && var s' := Run(s, steps);
         && Good(s') && WorldOf(s') == done.world
         && Posted(s, s', work.contents, done.contents) && RetriesStay(s, s')
         && (jobs != [] ==> done.settled != [] && EndsAs(s', jobs[|jobs|-1], done.settled[|done.settled|-1].1))
    decreases |jobs|
  {
    hide Good, CanRun, Run, JobSteps, Handle, JobCopy, Worked, Posted, RetriesStay, EndsAs, Offers, HandleJob;
    if jobs == [] {
      RunNone(s);
      NothingPosted(s, work.contents);
    } else {
      var job := jobs[0];
      OfferMeans(s, worker, job);
      JobDone(s, worker, job, work.contents, notifiers);
      var steps := JobSteps(s, worker, job, notifiers);
      var s1, work1 := Run(s, steps), HandleJob(work, job, notifiers);
      assert work1.world == WorldOf(s1) by { JobIs(work, job, notifiers); }
      HandleFirst(work, jobs, notifiers);
      LoopRuns(s1, worker, jobs[1..], work1, notifiers);
      var rest := LoopSteps(s1, worker, jobs[1..], notifiers);
      RunConcat(s, steps, rest);
      JoinLoop(s, worker, job, s1, Run(s1, rest), work, work1, HandleAll(work1, jobs[1..], notifiers), notifiers);
      if |jobs| == 1 { JobIs(work, job, notifiers); RunNone(s1); }
    }
  }

  lemma JobIs(work: Work, job: Job, notifiers: Notifiers.Table)
    ensures var h := Handle(work.world, work.contents, job.msg.body, notifiers, job.now, job.env);
      HandleJob(work, job, notifiers) == Work(h.world, h.contents, work.settled + [(job.msg.tag, h.settlement)])
  {
    hide Handle;
  }

  lemma NothingPosted(s: Sys, contents: RabbitMq.Contents)
    ensures Posted(s, s, contents, contents) && RetriesStay(s, s)
  {
  }

  lemma JoinLoop(s: Sys, worker: nat, job: Job, s1: Sys, s2: Sys, work: Work, work1: Work, work2: Work,
                 notifiers: Notifiers.Table)
    requires Good(s) && Offers(s, worker, job) && work.world == WorldOf(s) && work1 == HandleJob(work, job, notifiers)
    requires CanRun(s, JobSteps(s, worker, job, notifiers)) && s1 == Run(s, JobSteps(s, worker, job, notifiers))
    requires Posted(s1, s2, work1.contents, work2.contents) && RetriesStay(s1, s2)
    ensures Posted(s, s2, work.contents, work2.contents) && RetriesStay(s, s2)
  {
    hide Good, CanRun, Run, JobSteps, Handle, JobCopy, Worked, Posted, EndsAs, HandleJob, Idle, Notifiers.Dispatch;
    JobDone(s, worker, job, work.contents, notifiers);
    JobIs(work, job, notifiers);
    var h := Handle(work.world, work.contents, job.msg.body, notifiers, job.now, job.env);
    OneCopy(s, job, notifiers);
    PostedTransitive(s, s1, s2, job.msg.tag, h.settlement, JobCopy(s, job, notifiers),
                     work.contents, work1.contents, work2.contents);
  }

  /** A prefix of what is served is served. */
  lemma {:induction false} ServedPrefix(s: Sys, worker: nat, jobs: seq<Job>, k: nat, notifiers: Notifiers.Table)
    requires Served(s, worker, jobs, notifiers) && k <= |jobs|
    ensures Served(s, worker, jobs[..k], notifiers)
    decreases |jobs|
  {
    hide Offers, CanRun, Run, JobSteps;
    if k > 0 {
      OfferMeans(s, worker, jobs[0]);
      ServedPrefix(Run(s, JobSteps(s, worker, jobs[0], notifiers)), worker, jobs[1..], k - 1, notifiers);
      assert jobs[..k][1..] == jobs[1..][..k-1] && jobs[..k][0] == jobs[0];
    }
  }

  /** And the broker can offer any ready message next, to a worker that is free. */
  lemma ServedOn(s: Sys, worker: nat, job: Job, notifiers: Notifiers.Table)
    requires Good(s) && Offers(s, worker, job)
    ensures Served(s, worker, [job], notifiers)
  {
    hide Good, CanRun, Run, JobSteps, Handle, JobCopy, Worked, Posted, RetriesStay, EndsAs;
    JobDone(s, worker, job, map[], notifiers);
    assert [job][1..] == [];
  }
}
