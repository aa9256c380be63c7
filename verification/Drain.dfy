/** Draining: while status writes and publishes succeed and no worker crashes, every message takes at most
    fifteen release, deliver and settle steps; the queues can always be emptied; and then nothing is left
    scheduled but what was given up or never published. */
module Drain {
  import opened Domain
  import opened Protocol
  import opened Invariant
  import opened InvariantSteps
  import opened Shapes
  import opened Accounting
  import opened Safety

  /** Release, deliver and settle steps a message still needs at most. */
  function Stage(m: Message): int {
    var left := 3 * (MAX_RETRIES - 1 - m.body.attempts);
    match m.place
    case InWait(_) => left + 3
    case InRetry(_) => left + 3
    case InReady => left + 2
    case Held(_, Acking(_)) => 1
    case Held(_, Nacking(_)) => left + 3
    case Held(_, _) => left + 1
  }

  /** Steps inside the handler before the delivery is settled. */
  function Micro(p: Place): int {
    match p
    case Held(_, Reading(AtCache)) => 7
    case Held(_, Reading(AtPrimary)) => 6
    case Held(_, Reading(AtFill(_, _))) => 5
    case Held(_, Checked) => 4
    case Held(_, Accepted(_)) => 3
    case Held(_, Rejected(_)) => 3
    case Held(_, Written) => 2
    case Held(_, _) => 1
    case _ => 0
  }

  const STAGES: Message -> int := (m: Message) => Stage(m)
  const FUEL: Message -> int := (m: Message) => 8 * Stage(m) + Micro(m.place)
  const ONES: Message -> int := (m: Message) => 1

  /** No crash, no new message from the API, and no failing status write or retry publish. */
  predicate Smooth(step: Step) {
    && !step.Publish? && !step.Crash?
    && (step.Update? || step.PublishRetry? ==> step.outcome.Done?)
  }

  /** The steps that move a message between queue, worker and settlement. */
  predicate Macro(step: Step) { step.Release? || step.Deliver? || step.Ack? || step.Nack? }

  // ---- one step -------------------------------------------------------------------------------

  ghost predicate Falls(m: Message, m': Message, macro: bool) {
    && STAGES(m') <= STAGES(m) - (if macro then 1 else 0)
    && FUEL(m') < FUEL(m)
  }

  lemma ReleaseFalls(s: Sys, tag: nat, w: nat)
    requires tag in s.msgs
    ensures Enabled(s, Release(tag)) ==> Falls(s.msgs[tag], Apply(s, Release(tag)).msgs[tag], true)
    ensures Enabled(s, Deliver(tag, w)) ==> Falls(s.msgs[tag], Apply(s, Deliver(tag, w)).msgs[tag], true)
  {
    hide IsHead, Idle;
  }

  lemma NackFalls(s: Sys, tag: nat)
    requires Enabled(s, Nack(tag))
    ensures Falls(s.msgs[tag], Apply(s, Nack(tag)).msgs[tag], true)
  {
    hide PhaseOf, Charged;
  }

  lemma ReadFalls(s: Sys, tag: nat, ev: ReadEvent)
    requires Enabled(s, WorkerRead(tag, ev)) && 0 <= s.msgs[tag].body.attempts < MAX_RETRIES
    ensures Falls(s.msgs[tag], Apply(s, WorkerRead(tag, ev)).msgs[tag], false)
  {
  }

  lemma SendFalls(s: Sys, tag: nat, ok: bool)
    requires Enabled(s, Send(tag, ok))
    ensures Falls(s.msgs[tag], Apply(s, Send(tag, ok)).msgs[tag], false)
  {
  }

  lemma UpdateFalls(s: Sys, tag: nat)
    requires Enabled(s, Update(tag, Done))
    requires 0 <= s.msgs[tag].body.attempts < MAX_RETRIES && s.msgs[tag].body.id in s.rows
    ensures Falls(s.msgs[tag], Apply(s, Update(tag, Done)).msgs[tag], false)
  {
  }

  lemma InvalidateFalls(s: Sys, tag: nat, o: Outcome)
    requires Enabled(s, Invalidate(tag, o)) && 0 <= s.msgs[tag].body.attempts < MAX_RETRIES
    ensures Falls(s.msgs[tag], Apply(s, Invalidate(tag, o)).msgs[tag], false)
  {
  }

  /** A retry turns the fuel of the handled copy into that of the new one. */
  lemma ForkFalls(s: Sys, s': Sys, tag: nat)
    requires Forks(s, s', tag) && IsRejected(s.msgs[tag].place) && IsRetired(s'.msgs[tag].place)
    ensures STAGES(s'.msgs[tag]) + STAGES(s'.msgs[s.next]) <= STAGES(s.msgs[tag])
    ensures FUEL(s'.msgs[tag]) + FUEL(s'.msgs[s.next]) < FUEL(s.msgs[tag])
  {
  }

  lemma RetryPlaces(s: Sys, tag: nat)
    requires Good(s) && Enabled(s, PublishRetry(tag, Done))
    ensures tag < s.next && IsRejected(s.msgs[tag].place) && tag in Apply(s, PublishRetry(tag, Done)).msgs
    ensures IsRetired(Apply(s, PublishRetry(tag, Done)).msgs[tag].place)
  {
    hide Good;
    assert tag < s.next by { Tagged(s, tag); }
  }

  lemma Tagged(s: Sys, tag: nat)
    requires Good(s) && tag in s.msgs
    ensures tag < s.next && 0 <= s.msgs[tag].body.attempts < MAX_RETRIES && s.msgs[tag].body.id in s.rows
    ensures s.msgs[tag].body.id in s.log && s.msgs[tag].body.id in s.hist
  {
    hide Inv, Fresh, Prefetch, AllCounted;
    TheMessage(s, tag);
  }

  lemma MoveFalls(s: Sys, step: Step)
    requires Good(s) && Enabled(s, step) && Smooth(step) && Works(step) && !IsFork(step) && !step.Ack?
    ensures step.tag in s.msgs && step.tag in Apply(s, step).msgs
    ensures Falls(s.msgs[step.tag], Apply(s, step).msgs[step.tag], Macro(step))
  {
    hide Good, Enabled, Apply, Falls, Shape;
    EnabledTag(s, step);
    Tagged(s, step.tag);
    MovedTag(s, step);
    match step
    case Release(tag) => ReleaseFalls(s, tag, 0);
    case Deliver(tag, w) => ReleaseFalls(s, tag, w);
    case Nack(tag) => NackFalls(s, tag);
    case WorkerRead(tag, ev) => ReadFalls(s, tag, ev);
    case Send(tag, ok) => SendFalls(s, tag, ok);
    case Update(tag, _) => UpdateFalls(s, tag);
    case Invalidate(tag, o) => InvalidateFalls(s, tag, o);
    case _ =>
  }

  lemma EnabledTag(s: Sys, step: Step)
    requires Good(s) && Enabled(s, step) && Works(step)
    ensures step.tag in s.msgs
  {
    hide Good, Enabled, Apply, Shift, Sends, Returns, Forks, Leaves;
    GoodStep(s, step);
    ShapeTag(s, step, Apply(s, step));
  }

  lemma MovedTag(s: Sys, step: Step)
    requires Good(s) && Enabled(s, step) && Works(step) && !IsFork(step) && !step.Ack?
    ensures Moves(s, Apply(s, step), step.tag)
  {
    hide Good, Enabled, Apply;
    GoodStep(s, step);
  }

  ghost function Stages(s: Sys): int { Total(s.msgs, s.next, STAGES) }

  ghost function Fuel(s: Sys): int { Total(s.msgs, s.next, FUEL) }

  /** Each smooth step of broker or worker uses fuel, and each macro step a stage; other smooth steps use nothing. */
  lemma SmoothStep(s: Sys, step: Step)
    requires Good(s) && Enabled(s, step) && Smooth(step)
    ensures var s' := Apply(s, step);
      && Stages(s') <= Stages(s) - (if Macro(step) then 1 else 0)
      && Fuel(s') <= Fuel(s) - (if Works(step) then 1 else 0)
  {
    hide Good, Enabled, Apply, Total, Shift, Sends, Returns, Stage, Micro;
    GoodStep(s, step);
    var s' := Apply(s, step);
    if IsFork(step) {
      RetryPlaces(s, step.tag); ForkFalls(s, s', step.tag); GoodTags(s);
      ForksTotal(s, s', step.tag, STAGES); ForksTotal(s, s', step.tag, FUEL);
    } else if step.Ack? {
      AckWeights(s, s', step.tag);
      LeavesTotal(s, s', step.tag, STAGES); LeavesTotal(s, s', step.tag, FUEL);
    } else if Works(step) {
      MovedTag(s, step); MoveFalls(s, step);
      MovesTotal(s, s', step.tag, STAGES); MovesTotal(s, s', step.tag, FUEL);
    }
  }

  lemma AckWeights(s: Sys, s': Sys, tag: nat)
    requires Leaves(s, s', tag)
    ensures STAGES(s.msgs[tag]) == 1 && FUEL(s.msgs[tag]) == 9
  {
  }

  // ---- runs -----------------------------------------------------------------------------------

  predicate AllSmooth(steps: seq<Step>) { forall i | 0 <= i < |steps| :: Smooth(steps[i]) }

  function MacroSteps(steps: seq<Step>): nat {
    if steps == [] then 0 else (if Macro(steps[0]) then 1 else 0) + MacroSteps(steps[1..])
  }

  function WorkSteps(steps: seq<Step>): nat {
    if steps == [] then 0 else (if Works(steps[0]) then 1 else 0) + WorkSteps(steps[1..])
  }

  lemma {:induction false} SmoothRun(s: Sys, steps: seq<Step>)
    requires Good(s) && CanRun(s, steps) && AllSmooth(steps)
    ensures Good(Run(s, steps))
    ensures MacroSteps(steps) <= Stages(s) - Stages(Run(s, steps))
    ensures WorkSteps(steps) <= Fuel(s) - Fuel(Run(s, steps))
    decreases |steps|
  {
    hide Good, Enabled, Apply, Stages, Fuel, Macro, Works, Shape, Grows;
    if steps != [] {
      GoodStep(s, steps[0]);
      SmoothStep(s, steps[0]);
      SmoothRun(Apply(s, steps[0]), steps[1..]);
    }
  }

  lemma {:induction false} CountIsSize(msgs: map<nat, Message>, n: nat)
    ensures Total(msgs, n, ONES) == |set t | t in msgs && t < n|
  {
    if n == 0 { assert (set t | t in msgs && t < n) == {}; }
    else {
      CountIsSize(msgs, n - 1);
      var below := set t | t in msgs && t < n - 1;
      assert (set t | t in msgs && t < n) == if n - 1 in msgs then below + {n - 1} else below;
    }
  }

  lemma {:induction false} TotalScaled(msgs: map<nat, Message>, n: nat, w: Message -> int, k: int)
    requires forall t | t in msgs :: 0 <= w(msgs[t]) <= k
    ensures 0 <= Total(msgs, n, w) <= k * Total(msgs, n, ONES)
  {
    if n > 0 { TotalScaled(msgs, n - 1, w, k); }
  }

  lemma WeightRange(s: Sys)
    requires Good(s)
    ensures 0 <= Stages(s) <= 15 * |s.msgs| && 0 <= Fuel(s)
  {
    hide Good;
    forall t | t in s.msgs ensures 0 <= STAGES(s.msgs[t]) <= 15 && 0 <= FUEL(s.msgs[t]) <= 127 { Tagged(s, t); }
    GoodTags(s);
    TotalScaled(s.msgs, s.next, STAGES, 15);
    TotalScaled(s.msgs, s.next, FUEL, 127);
    CountIsSize(s.msgs, s.next);
    assert (set t | t in s.msgs && t < s.next) == s.msgs.Keys;
  }

  /** Fifteen release, deliver and settle steps per message, whatever else happens in between. */
  lemma DrainBound(s: Sys, steps: seq<Step>)
    requires Good(s) && CanRun(s, steps) && AllSmooth(steps)
    ensures MacroSteps(steps) <= 15 * |s.msgs|
  {
    hide Good;
    SmoothRun(s, steps);
    WeightRange(s);
    WeightRange(Run(s, steps));
  }

  // ---- progress -------------------------------------------------------------------------------

  ghost predicate Expired(s: Sys) {
    forall t | t in s.msgs && (s.msgs[t].place.InWait? || s.msgs[t].place.InRetry?) :: s.msgs[t].place.expiry <= s.now
  }

  /** The next step of a worker that holds a message, when all goes well. */
  function NextStep(s: Sys, tag: nat): Step
    requires tag in s.msgs && s.msgs[tag].place.Held?
  {
    match s.msgs[tag].place.pc
    case Reading(AtCache) => WorkerRead(tag, Miss)
    case Reading(AtPrimary) => WorkerRead(tag, RowRead)
    case Reading(AtFill(_, _)) => WorkerRead(tag, Fill(Done))
    case Checked => Send(tag, true)
    case Accepted(_) => Update(tag, Done)
    case Rejected(n) => if n.attempts >= MAX_RETRIES then Update(tag, Done) else PublishRetry(tag, Done)
    case Written => Invalidate(tag, Done)
    case Acking(_) => Ack(tag)
    case Nacking(_) => Nack(tag)
  }

  lemma HeldProgress(s: Sys, tag: nat)
    requires Good(s) && tag in s.msgs && s.msgs[tag].place.Held?
    ensures var step := NextStep(s, tag); Enabled(s, step) && Smooth(step) && Works(step)
  {
    hide Good;
    Tagged(s, tag);
    if s.msgs[tag].place.pc.Rejected? { RejectedRange(s, tag); }
  }

  lemma RejectedRange(s: Sys, tag: nat)
    requires Good(s) && tag in s.msgs && IsRejected(s.msgs[tag].place)
    ensures s.msgs[tag].place.pc.n.attempts >= 1
  {
    hide Inv, Fresh, Prefetch, AllCounted;
    TheMessage(s, tag);
  }

  ghost predicate Delayed(s: Sys, t: nat) { t in s.msgs && (s.msgs[t].place.InWait? || s.msgs[t].place.InRetry?) }

  lemma {:induction false} Least(s: Sys, tag: nat) returns (t: nat)
    requires Delayed(s, tag)
    ensures Delayed(s, t) && forall u: nat | Delayed(s, u) :: t <= u
  {
    if u: nat :| Delayed(s, u) && u < tag { t := Least(s, u); } else { t := tag; }
  }

  /** With all delays over and at least one worker, some smooth step of broker or worker is possible
      as long as any message is left. */
  lemma Progress(s: Sys) returns (step: Step)
    requires Good(s) && s.workers > 0 && Expired(s) && s.msgs != map[]
    ensures Enabled(s, step) && Smooth(step) && Works(step)
  {
    hide Good;
    if tag :| tag in s.msgs && s.msgs[tag].place.Held? { HeldProgress(s, tag); step := NextStep(s, tag); }
    else if tag :| tag in s.msgs && s.msgs[tag].place.InReady? { step := Deliver(tag, 0); }
    else {
      var any :| any in s.msgs;
      var tag := Least(s, any);
      assert forall t | t in s.msgs && t < tag :: !Delayed(s, t);
      step := Release(tag);
    }
  }

  ghost function LastExpiry(s: Sys, n: nat): int {
    if n == 0 then s.now
    else
      var rest := LastExpiry(s, n - 1);
      if Delayed(s, n - 1) && s.msgs[n-1].place.expiry > rest then s.msgs[n-1].place.expiry else rest
  }

  lemma {:induction false} LastExpiryIsLast(s: Sys, n: nat)
    ensures LastExpiry(s, n) >= s.now
    ensures forall t: nat | t < n && Delayed(s, t) :: s.msgs[t].place.expiry <= LastExpiry(s, n)
  {
    if n > 0 { LastExpiryIsLast(s, n - 1); }
  }

  /** From every reachable state the queues can be emptied by waiting and smooth steps alone. */
  lemma {:induction false} CanDrain(s: Sys) returns (steps: seq<Step>)
    requires Good(s) && s.workers > 0
    ensures CanRun(s, steps) && AllSmooth(steps) && Run(s, steps).msgs == map[]
    decreases Fuel(s)
  {
    hide Good, Fuel, Stages, Enabled, Apply, CanRun, Run, Works, Macro, Smooth;
    if s.msgs == map[] { steps := []; RunNone(s); }
    else {
      WeightRange(s);
      var dt := LastExpiry(s, s.next) - s.now;
      LastExpiryIsLast(s, s.next);
      var s1 := Waited(s, dt);
      var step := Progress(s1);
      GoodStep(s1, step);
      SmoothStep(s1, step);
      var rest := CanDrain(Apply(s1, step));
      RunCons(s1, step, rest);
      RunCons(s, Tick(dt), [step] + rest);
      steps := [Tick(dt)] + ([step] + rest);
    }
  }

  lemma Waited(s: Sys, dt: nat) returns (s1: Sys)
    requires Good(s) && s.now + dt >= LastExpiry(s, s.next)
    ensures Enabled(s, Tick(dt)) && s1 == Apply(s, Tick(dt)) && Good(s1) && s1.msgs == s.msgs && s1.next == s.next
    ensures s1.workers == s.workers && Expired(s1) && Fuel(s1) == Fuel(s) && Smooth(Tick(dt))
  {
    hide Good;
    s1 := Apply(s, Tick(dt));
    GoodStep(s, Tick(dt));
    LastExpiryIsLast(s, s.next);
    forall t: nat | Delayed(s, t) ensures s.msgs[t].place.expiry <= s1.now { Tagged(s, t); }
    assert forall t: nat :: Delayed(s, t) <==> Delayed(s1, t);
  }

  /** Once no message is left, a row is still scheduled only if it was given up or its creation has not published. */
  lemma EmptyMeansDone(s: Sys, id: Id)
    requires Good(s) && id in s.rows && s.msgs == map[]
    ensures s.rows[id].status != Scheduled || GivenUp(s, id) || exists c :: PendingFor(s, id, c)
  {
    hide Fresh, Prefetch;
    TheRow(s, id);
    CurrentValue(s, id);
    hide Inv;
    assert Counted(s, id);
    assert forall t: nat :: !SupportedBy(s, id, t);
  }
}
