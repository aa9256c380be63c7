/** Exactly when the terminal status of a row can still change. */
module StatusChanges {
  import opened Domain
  import Mappers
  import opened Protocol
  import opened Invariant
  import opened InvariantSteps
  import opened Shapes
  import opened Accounting
  import opened Safety
  import opened Quiet
  import opened Horizon
  import opened Arrival
  import LateBounds
  import opened LateRuns
  import opened LateSends
  import opened Overwrites

  /** Some continuation gives the row another status. */
  ghost predicate CanChange(s: Sys, id: Id)
    requires id in s.rows
  {
    exists steps :: CanRun(s, steps) && EndsOther(s, steps, id, s.rows[id].status)
  }

  ghost predicate EndsOther(s: Sys, steps: seq<Step>, id: Id, st: Status)
    requires CanRun(s, steps)
  {
    id in Run(s, steps).rows && Run(s, steps).rows[id].status != st
  }

  /** A worker whose result, or whose send, leads to another status: an accepted send is about to become sent, a last
      rejected one failed, and a worker past the check can get either, failed only on the last attempt. */
  ghost predicate Turns(m: Message, st: Status) {
    m.place.Held? && match m.place.pc
      case Accepted(_) => st != Sent
      case Rejected(n) => n.attempts >= MAX_RETRIES && st != Failed
      case Checked => st != Sent || m.body.attempts + 1 >= MAX_RETRIES
      case _ => false
  }

  ghost predicate WorkerTurns(s: Sys, id: Id, t: nat, st: Status) { HasMessage(s, id, t) && Turns(s.msgs[t], st) }

  /** A cancel is past its check, or can still get past it. */
  ghost predicate CancelComes(s: Sys, id: Id) {
    (exists c :: CancelWrites(s, id, c)) || StaleCache(s, id) || !NoStaleReaders(s, id)
  }

  /** What can change a terminal status: a worker; a cancel, unless the row is cancelled already; a late send, if the
      row is cancelled. */
  ghost predicate Changeable(s: Sys, id: Id, st: Status) {
    || (exists t :: WorkerTurns(s, id, t, st))
    || (if st == Cancelled then Exposable(s, id) else CancelComes(s, id))
  }

  // ---- who changes it -------------------------------------------------------------------------

  lemma ResultIs(s: Sys, tag: nat)
    requires Good(s) && tag in s.msgs && HasResult(s.msgs[tag].place)
    ensures At(s, tag) && s.msgs[tag].body.id in s.rows && s.msgs[tag].body.status == Scheduled
    ensures s.msgs[tag].place.pc.Accepted? ==> s.msgs[tag].place.pc.n.status == Sent
    ensures s.msgs[tag].place.pc.Rejected? ==> s.msgs[tag].place.pc.n == MarkUnsent(s.msgs[tag].body)
  {
    hide Good;
    HeldFacts(s, tag);
    GoodMessage(s, tag);
    GoodRow(s, s.msgs[tag].body.id);
  }

  lemma UpdateSets(s: Sys, tag: nat, o: Outcome)
    requires Enabled(s, Update(tag, o)) && s.msgs[tag].body.id in s.rows
    ensures var s', id := Apply(s, Update(tag, o)), s.msgs[tag].body.id;
      id in s'.rows && s'.rows[id].status == if Applied(o) then s.msgs[tag].place.pc.n.status else s.rows[id].status
  {
  }

  /** The status a result leads to. */
  lemma ResultTurns(s: Sys, tag: nat, st: Status)
    requires Good(s) && tag in s.msgs && Writing(s.msgs[tag].place)
    ensures Enabled(s, Update(tag, Done))
    ensures s.msgs[tag].place.pc.n.status != st <==> Turns(s.msgs[tag], st)
    ensures var s', id := Apply(s, Update(tag, Done)), s.msgs[tag].body.id;
      id in s'.rows && s'.rows[id].status == s.msgs[tag].place.pc.n.status
  {
    hide Good;
    ResultIs(s, tag);
    UpdateSets(s, tag, Done);
    hide Apply;
  }

  lemma SendResult(s: Sys, tag: nat, ok: bool)
    requires Good(s) && tag in s.msgs && PastCheckAt(s.msgs[tag].place)
    ensures Enabled(s, Send(tag, ok))
    ensures var s', b := Apply(s, Send(tag, ok)), s.msgs[tag].body;
      && tag in s'.msgs && s'.msgs[tag].body == b && s'.rows == s.rows
      && s'.msgs[tag].place == Held(s.msgs[tag].place.worker,
                                    if ok then Accepted(MarkSent(b, s.now)) else Rejected(MarkUnsent(b)))
  {
    hide Good;
    HeldFacts(s, tag);
  }

  lemma EndsWith(s: Sys, step: Step, id: Id, st: Status)
    requires Enabled(s, step) && id in Apply(s, step).rows && Apply(s, step).rows[id].status != st
    ensures CanRun(s, [step]) && EndsOther(s, [step], id, st)
  {
    hide Enabled, Apply, CanRun, Run;
    RunOne(s, step);
  }

  lemma EndsAfter(s: Sys, before: seq<Step>, rest: seq<Step>, id: Id, st: Status)
    requires CanRun(s, before) && CanRun(Run(s, before), rest) && EndsOther(Run(s, before), rest, id, st)
    ensures CanRun(s, before + rest) && EndsOther(s, before + rest, id, st)
  {
    hide CanRun, Run;
    RunConcat(s, before, rest);
  }

  lemma WriterChanges(s: Sys, id: Id, t: nat, st: Status) returns (steps: seq<Step>)
    requires Good(s) && HasMessage(s, id, t) && Writing(s.msgs[t].place) && Turns(s.msgs[t], st)
    ensures CanRun(s, steps) && EndsOther(s, steps, id, st)
  {
    hide Good, Enabled, Apply, CanRun, Run, Turns, EndsOther;
    ResultTurns(s, t, st);
    EndsWith(s, Update(t, Done), id, st);
    steps := [Update(t, Done)];
  }

  lemma CheckedChanges(s: Sys, id: Id, t: nat, st: Status) returns (steps: seq<Step>)
    requires Good(s) && HasMessage(s, id, t) && PastCheckAt(s.msgs[t].place) && Turns(s.msgs[t], st)
    ensures CanRun(s, steps) && EndsOther(s, steps, id, st)
  {
    hide Good, Enabled, Apply, CanRun, Run, EndsOther, Shape;
    var ok := st != Sent;
    SendResult(s, t, ok);
    GoodStep(s, Send(t, ok));
    var s1 := Apply(s, Send(t, ok));
    ScheduledBody(s, t);
    var rest := WriterChanges(s1, id, t, st);
    RunOne(s, Send(t, ok));
    EndsAfter(s, [Send(t, ok)], rest, id, st);
    steps := [Send(t, ok)] + rest;
  }

  lemma ScheduledBody(s: Sys, t: nat)
    requires Good(s) && t in s.msgs
    ensures s.msgs[t].body.status == Scheduled && 0 <= s.msgs[t].body.attempts < MAX_RETRIES
  {
    hide Good;
    GoodMessage(s, t);
  }

  lemma WorkerChanges(s: Sys, id: Id, t: nat, st: Status) returns (steps: seq<Step>)
    requires Good(s) && WorkerTurns(s, id, t, st)
    ensures CanRun(s, steps) && EndsOther(s, steps, id, st)
  {
    hide Good, CanRun, Run, EndsOther;
    if PastCheckAt(s.msgs[t].place) { steps := CheckedChanges(s, id, t, st); }
    else { steps := WriterChanges(s, id, t, st); }
  }

  lemma CancelChanges(s: Sys, id: Id, st: Status) returns (steps: seq<Step>)
    requires Good(s) && CancelComes(s, id) && st != Cancelled && id in s.rows && id in s.hist
    ensures CanRun(s, steps) && EndsOther(s, steps, id, st)
  {
    hide Good, StaleCache, NoStaleReaders, CanRun, Run, Enabled, Apply;
    if StaleCache(s, id) { steps := StaleCacheWrites(s, id); }
    else if !NoStaleReaders(s, id) { steps := StaleReaderWrites(s, id); }
    else {
      var c :| CancelWrites(s, id, c);
      CancelWritesRow(s, c, id);
      RunOne(s, CancelWrite(c, Done));
      steps := [CancelWrite(c, Done)];
    }
  }

  // ---- a late send over a cancel --------------------------------------------------------------

  /** The first send for this id in a run that makes one. */
  lemma {:induction false} FirstSend(s: Sys, steps: seq<Step>, id: Id) returns (before: seq<Step>, tag: nat)
    requires Good(s) && CanRun(s, steps) && id in s.log && id in Run(s, steps).log
    requires Run(s, steps).log[id].Sends() > s.log[id].Sends()
    ensures CanRun(s, before) && Good(Run(s, before))
    ensures HasMessage(Run(s, before), id, tag) && PastCheckAt(Run(s, before).msgs[tag].place)
    decreases |steps|
  {
    hide Good, Enabled, Apply, Shape;
    if steps == [] { assert false; }
    else {
      var step := steps[0];
      GoodStep(s, step);
      if step.Send? { SendIsChecked(s, step.tag, step.ok); }
      if step.Send? && s.msgs[step.tag].body.id == id {
        before, tag := [], step.tag;
      } else {
        LateBounds.SendsElsewhere(s, step, Apply(s, step), id);
        var rest;
        rest, tag := FirstSend(Apply(s, step), steps[1..], id);
        RunCons(s, step, rest);
        before := [step] + rest;
      }
    }
  }

  lemma SendIsChecked(s: Sys, tag: nat, ok: bool)
    requires Enabled(s, Send(tag, ok))
    ensures tag in s.msgs && PastCheckAt(s.msgs[tag].place)
  {
  }

  /** With a late send a cancelled row becomes sent, unless it changed before that already. */
  lemma LateSendChanges(s: Sys, id: Id) returns (steps: seq<Step>)
    requires Good(s) && Left(s, id) && Exposable(s, id)
    ensures CanRun(s, steps) && EndsOther(s, steps, id, Cancelled)
  {
    hide Good, Left, Exposable, CanRun, Run, Exposed, Enabled, Apply;
    LateSendIff(s, id);
    ExposedAtMostWorkers(s, id);
    var late :| CanRun(s, late) && SendsMoreThan(s, late, id, Score(s, id));
    var before, tag := FirstSend(s, late, id);
    var s1 := Run(s, before);
    var rest := CheckedChanges(s1, id, tag, Cancelled);
    EndsAfter(s, before, rest, id, Cancelled);
    steps := before + rest;
  }

  // ---- where nothing changes it ---------------------------------------------------------------

  /** Only a send produces a result. */
  lemma ResultOrigin(s: Sys, step: Step, s': Sys, t: nat)
    requires Shape(s, step, s') && TagsBelow(s) && t in s'.msgs && HasResult(s'.msgs[t].place)
    ensures (t in s.msgs && s'.msgs[t] == s.msgs[t]) || (step.Send? && step.tag == t)
  {
    hide Fetches, PendingShrinks, PendingKept, SameRows, SameRecords, Chance;
    if !Works(step) { hide Shift, Sends, Returns, Leaves, Forks; }
    else if !IsFork(step) { hide Forks, Starts, Births; }
  }

  /** Writes to this row come from a worker with a result for it, or from a cancel. */
  lemma StatusAfter(s: Sys, step: Step, id: Id)
    requires Good(s) && Enabled(s, step) && id in s.rows
    ensures id in Apply(s, step).rows
    ensures var s' := Apply(s, step);
      || s'.rows[id].status == s.rows[id].status
      || (s'.rows[id].status == Cancelled && step.CancelWrite? && CancelWrites(s, id, step.call))
      || (step.Update? && HasMessage(s, id, step.tag) && Writing(s.msgs[step.tag].place)
          && s'.rows[id].status == s.msgs[step.tag].place.pc.n.status)
  {
    hide Good, Enabled, Apply, Shape, Writing;
    GoodStep(s, step);
    if !WritesRow(step) { NotWritten(s, step, Apply(s, step)); }
    else {
      match step
      case Insert(call, i, req, v, o) => InsertLeaves(s, call, i, req, v, o, id);
      case Update(tag, o) => UpdateStatus(s, tag, o, id);
      case CancelWrite(call, o) => CancelStatus(s, call, o, id);
    }
  }

  lemma InsertLeaves(s: Sys, call: nat, i: Id, req: Request, v: Verdict, o: Outcome, id: Id)
    requires Enabled(s, Insert(call, i, req, v, o)) && id in s.rows
    ensures var s' := Apply(s, Insert(call, i, req, v, o)); id in s'.rows && s'.rows[id] == s.rows[id]
  {
    hide Draft, Mappers.Stored;
  }

  lemma UpdateStatus(s: Sys, tag: nat, o: Outcome, id: Id)
    requires Enabled(s, Update(tag, o)) && id in s.rows
    ensures id in Apply(s, Update(tag, o)).rows
    ensures var s' := Apply(s, Update(tag, o));
      || s'.rows[id].status == s.rows[id].status
      || (HasMessage(s, id, tag) && Writing(s.msgs[tag].place) && s'.rows[id].status == s.msgs[tag].place.pc.n.status)
  {
  }

  lemma CancelStatus(s: Sys, call: nat, o: Outcome, id: Id)
    requires Enabled(s, CancelWrite(call, o)) && id in s.rows
    ensures id in Apply(s, CancelWrite(call, o)).rows
    ensures var s' := Apply(s, CancelWrite(call, o));
      || s'.rows[id].status == s.rows[id].status
      || (s'.rows[id].status == Cancelled && CancelWrites(s, id, call))
  {
  }

  // A quiet row that is sent or failed.

  ghost predicate NoTurner(s: Sys, id: Id, st: Status) { forall t :: !WorkerTurns(s, id, t, st) }

  ghost predicate Settled(s: Sys, id: Id, st: Status) {
    && IsQuiet(s, id) && NoTurner(s, id, st) && (forall c :: !CancelWrites(s, id, c))
    && id in s.rows && s.rows[id].status == st && (st == Sent || st == Failed)
  }

  lemma SendTurnsNothing(s: Sys, tag: nat, ok: bool, st: Status)
    requires Good(s) && Enabled(s, Send(tag, ok)) && !Turns(s.msgs[tag], st)
    ensures tag in Apply(s, Send(tag, ok)).msgs && !Turns(Apply(s, Send(tag, ok)).msgs[tag], st)
  {
    SendIsChecked(s, tag, ok);
    hide Good, Enabled, Apply;
    SendResult(s, tag, ok);
  }

  lemma TurnerOrigin(s: Sys, step: Step, id: Id, t: nat, st: Status)
    requires Good(s) && Enabled(s, step) && Calm(s, Apply(s, step), id) && WorkerTurns(Apply(s, step), id, t, st)
    ensures WorkerTurns(s, id, t, st)
  {
    hide Good, Enabled, Apply, Shape;
    GoodStep(s, step);
    GoodTags(s);
    var s' := Apply(s, step);
    if !(t in s.msgs && s'.msgs[t] == s.msgs[t]) {
      assert CalmPlace(s, t, id, s'.msgs[t].place);
      hide Calm, CalmPlace;
      ResultOrigin(s, step, s', t);
      SendIsChecked(s, t, step.ok);
      if !Turns(s.msgs[t], st) { SendTurnsNothing(s, t, step.ok, st); }
    }
  }

  lemma SettledStep(s: Sys, step: Step, id: Id, st: Status)
    requires Good(s) && Settled(s, id, st) && Enabled(s, step) && id in s.log
    ensures var s' := Apply(s, step); Good(s') && Settled(s', id, st) && id in s'.log
  {
    hide Good, IsQuiet, Enabled, Apply, Shape, Calm, Exposed, WorkerTurns, CancelWrites;
    QuietStep(s, step, id);
    StepCalm(s, step, id);
    var s' := Apply(s, step);
    forall t ensures !WorkerTurns(s', id, t, st) {
      if WorkerTurns(s', id, t, st) { TurnerOrigin(s, step, id, t, st); }
    }
    forall c ensures !CancelWrites(s', id, c) {
      if CancelWrites(s', id, c) { CancelOrigin(s, s', id, c); }
    }
    StatusAfter(s, step, id);
    if step.Update? && HasMessage(s, id, step.tag) && Writing(s.msgs[step.tag].place) {
      SameStatus(s, id, step.tag, st);
    }
  }

  lemma CancelOrigin(s: Sys, s': Sys, id: Id, c: nat)
    requires Calm(s, s', id) && CancelWrites(s', id, c)
    ensures CancelWrites(s, id, c)
  {
  }

  lemma SameStatus(s: Sys, id: Id, tag: nat, st: Status)
    requires Good(s) && HasMessage(s, id, tag) && Writing(s.msgs[tag].place) && !WorkerTurns(s, id, tag, st)
    ensures s.msgs[tag].place.pc.n.status == st
  {
    hide Good, Enabled, Apply, Turns;
    ResultTurns(s, tag, st);
  }

  lemma {:induction false} SettledRun(s: Sys, steps: seq<Step>, id: Id, st: Status)
    requires Good(s) && Settled(s, id, st) && CanRun(s, steps) && id in s.log
    ensures Settled(Run(s, steps), id, st)
    decreases |steps|
  {
    hide Good, Settled, Enabled, Apply;
    if steps != [] {
      SettledStep(s, steps[0], id, st);
      SettledRun(Apply(s, steps[0]), steps[1..], id, st);
    }
  }

  // A cancelled row that no run sends.

  /** No run from here sends. */
  ghost predicate Mute(s: Sys, id: Id)
    requires id in s.log
  {
    forall steps | CanRun(s, steps) :: !SendsMoreThan(s, steps, id, s.log[id].Sends())
  }

  lemma MuteStays(s: Sys, step: Step, id: Id)
    requires Good(s) && id in s.log && Mute(s, id) && Enabled(s, step)
    ensures id in Apply(s, step).log && Mute(Apply(s, step), id)
    ensures step.Send? ==> step.tag in s.msgs && s.msgs[step.tag].body.id != id
  {
    hide Good, Enabled, Apply, CanRun, Run, Shape;
    GoodStep(s, step);
    var s' := Apply(s, step);
    assert id in s'.log && s.log[id].Sends() <= s'.log[id].Sends() by { SendsGrow(s, s', id); }
    forall steps | CanRun(s', steps) ensures !SendsMoreThan(s', steps, id, s'.log[id].Sends()) {
      RunCons(s, step, steps);
      assert !SendsMoreThan(s, [step] + steps, id, s.log[id].Sends());
    }
    if step.Send? {
      SendIsChecked(s, step.tag, step.ok);
      if s.msgs[step.tag].body.id == id { SendBreaksMute(s, step.tag, step.ok, id); }
    }
  }

  lemma SendBreaksMute(s: Sys, tag: nat, ok: bool, id: Id)
    requires Enabled(s, Send(tag, ok)) && tag in s.msgs && s.msgs[tag].body.id == id && id in s.log
    ensures !Mute(s, id)
  {
    hide Enabled, Apply, CanRun, Run;
    RunOne(s, Send(tag, ok));
    SendCounts(s, tag, ok);
    assert SendsMoreThan(s, [Send(tag, ok)], id, s.log[id].Sends());
  }

  lemma SendsGrow(s: Sys, s': Sys, id: Id)
    requires Grows(s, s') && id in s.log
    ensures id in s'.log && s.log[id].Sends() <= s'.log[id].Sends()
  {
    assert LedgerGrows(s.log[id], s'.log[id]);
  }

  lemma SendCounts(s: Sys, tag: nat, ok: bool)
    requires Enabled(s, Send(tag, ok))
    ensures var s', id := Apply(s, Send(tag, ok)), s.msgs[tag].body.id;
      id in s.log && id in s'.log && s'.log[id].Sends() == s.log[id].Sends() + 1
  {
  }

  ghost predicate NoWriter(s: Sys, id: Id) { forall t | HasMessage(s, id, t) :: !Writing(s.msgs[t].place) }

  /** Cancelled, no result is waiting to be written, and no send will come. */
  ghost predicate StaysCancelled(s: Sys, id: Id) {
    id in s.log && Mute(s, id) && NoWriter(s, id) && id in s.rows && s.rows[id].status == Cancelled
  }

  lemma StaysCancelledStep(s: Sys, step: Step, id: Id)
    requires Good(s) && StaysCancelled(s, id) && Enabled(s, step)
    ensures Good(Apply(s, step)) && StaysCancelled(Apply(s, step), id)
  {
    hide Good, Mute, Enabled, Apply, Shape, Writing;
    GoodStep(s, step);
    GoodTags(s);
    MuteStays(s, step, id);
    StatusAfter(s, step, id);
    var s' := Apply(s, step);
    forall t | HasMessage(s', id, t) ensures !Writing(s'.msgs[t].place) {
      if Writing(s'.msgs[t].place) {
        WritingHasResult(s'.msgs[t].place);
        ResultOrigin(s, step, s', t);
        if step.Send? && step.tag == t { SameBody(s, t, step.ok); }
      }
    }
  }

  lemma WritingHasResult(p: Place)
    requires Writing(p)
    ensures HasResult(p)
  {
  }

  lemma SameBody(s: Sys, tag: nat, ok: bool)
    requires Enabled(s, Send(tag, ok))
    ensures tag in Apply(s, Send(tag, ok)).msgs && Apply(s, Send(tag, ok)).msgs[tag].body == s.msgs[tag].body
  {
  }

  lemma {:induction false} StaysCancelledRun(s: Sys, steps: seq<Step>, id: Id)
    requires Good(s) && StaysCancelled(s, id) && CanRun(s, steps)
    ensures StaysCancelled(Run(s, steps), id)
    decreases |steps|
  {
    hide Good, StaysCancelled, Enabled, Apply;
    if steps != [] {
      StaysCancelledStep(s, steps[0], id);
      StaysCancelledRun(Apply(s, steps[0]), steps[1..], id);
    }
  }

  lemma CancelledIsMute(s: Sys, id: Id)
    requires Good(s) && Left(s, id) && !Changeable(s, id, Cancelled) && id in s.rows && s.rows[id].status == Cancelled
    ensures StaysCancelled(s, id)
  {
    hide Good, Left, Exposable, CanRun, Run;
    LeftRow(s, id);
    LateSendIff(s, id);
    forall t | HasMessage(s, id, t) ensures !Writing(s.msgs[t].place) && !PastCheckAt(s.msgs[t].place) {
      assert !WorkerTurns(s, id, t, Cancelled);
    }
    assert Exposed(s, id) == 0 by {
      forall t | t in s.msgs ensures PastCheck(id)(s.msgs[t]) == 0 {
        assert HasMessage(s, id, t) ==> !PastCheckAt(s.msgs[t].place);
      }
      TotalZero(s.msgs, s.next, PastCheck(id));
    }
    hide Exposed;
    forall steps | CanRun(s, steps) ensures !SendsMoreThan(s, steps, id, s.log[id].Sends()) {
      assert !SendsMoreThan(s, steps, id, Score(s, id));
    }
  }

  // ---- the exact condition --------------------------------------------------------------------

  lemma UnchangeableStays(s: Sys, steps: seq<Step>, id: Id)
    requires Good(s) && Left(s, id) && id in s.rows && !Changeable(s, id, s.rows[id].status) && CanRun(s, steps)
    ensures id in Run(s, steps).rows && Run(s, steps).rows[id].status == s.rows[id].status
  {
    hide Good, Left, StaysCancelled, Settled, Changeable, CanRun, Run;
    LeftRow(s, id);
    LeftIsTerminal(s, id);
    var st := s.rows[id].status;
    if st == Cancelled {
      CancelledIsMute(s, id);
      StaysCancelledRun(s, steps, id);
      StaysMeans(Run(s, steps), id);
    } else {
      UnchangeableIsSettled(s, id);
      SettledRun(s, steps, id, st);
      SettledMeans(Run(s, steps), id, st);
    }
  }

  lemma UnchangeableIsSettled(s: Sys, id: Id)
    requires Left(s, id) && id in s.rows && s.rows[id].status in {Sent, Failed} && !Changeable(s, id, s.rows[id].status)
    ensures Settled(s, id, s.rows[id].status)
  {
    hide Left, StaleCache, NoStaleReaders, WorkerTurns, CancelWrites;
    QuietMeans(s, id);
  }

  lemma StaysMeans(s: Sys, id: Id)
    requires StaysCancelled(s, id)
    ensures id in s.rows && s.rows[id].status == Cancelled
  {
  }

  lemma SettledMeans(s: Sys, id: Id, st: Status)
    requires Settled(s, id, st)
    ensures id in s.rows && s.rows[id].status == st
  {
  }

  lemma LeftIsTerminal(s: Sys, id: Id)
    requires Good(s) && Left(s, id) && id in s.rows
    ensures s.rows[id].status != Scheduled
  {
    hide Fresh, Prefetch, AllCounted;
    CurrentValue(s, id);
  }

  /** The status of a row that has left scheduled can change in some run if and only if a worker is past its check, or
      holds a result, that leads elsewhere; or the row is not cancelled and a cancel is past its check or can still get
      past it; or the row is cancelled and can still be sent late. */
  lemma CanChangeIff(s: Sys, id: Id)
    requires Good(s) && Left(s, id) && id in s.rows
    ensures CanChange(s, id) <==> Changeable(s, id, s.rows[id].status)
  {
    LeftRow(s, id);
    var st := s.rows[id].status;
    assert id in s.hist;
    hide Good, Left, CanRun, Run, Exposable, CancelComes;
    if Changeable(s, id, st) {
      var steps;
      if t :| WorkerTurns(s, id, t, st) { steps := WorkerChanges(s, id, t, st); }
      else if st == Cancelled { steps := LateSendChanges(s, id); }
      else { steps := CancelChanges(s, id, st); }
      assert CanChange(s, id);
    } else {
      hide Changeable;
      forall steps | CanRun(s, steps) ensures !EndsOther(s, steps, id, st) { UnchangeableStays(s, steps, id); }
    }
  }
}
