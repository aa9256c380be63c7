/** The SQL has no guard on the old status. Exactly when a row that has left status scheduled can be written again. */
module Overwrites {
  import opened Domain
  import Mappers
  import opened Protocol
  import opened Invariant
  import opened Shapes
  import opened Safety
  import opened Quiet
  import opened Horizon
  import opened Arrival
  import opened LateRuns

  /** Some continuation writes the row. */
  ghost predicate CanWrite(s: Sys, id: Id)
    requires id in s.hist
  {
    exists steps :: CanRun(s, steps) && WritesIn(s, steps, id)
  }

  ghost predicate WritesIn(s: Sys, steps: seq<Step>, id: Id)
    requires CanRun(s, steps) && id in s.hist
  {
    id in Run(s, steps).hist && |Run(s, steps).hist[id]| > |s.hist[id]|
  }

  /** A worker that is past the status check, or is about to write what the check led to; a cancel that is. */
  ghost predicate HasWriter(s: Sys, id: Id) {
    || (exists t :: WorkerWrites(s, id, t))
    || (exists c :: CancelWrites(s, id, c))
  }

  ghost predicate WorkerWrites(s: Sys, id: Id, t: nat) {
    t in s.msgs && s.msgs[t].body.id == id && (PastCheckAt(s.msgs[t].place) || Writing(s.msgs[t].place))
  }

  ghost predicate CancelWrites(s: Sys, id: Id, c: nat) { c in s.calls && s.calls[c] == CancelChecked(id) }

  ghost predicate Frozen(s: Sys, id: Id) { IsQuiet(s, id) && !HasWriter(s, id) }

  // ---- a frozen row stays frozen --------------------------------------------------------------

  lemma CalmKeepsWriters(s: Sys, s': Sys, id: Id)
    requires Calm(s, s', id) && !HasWriter(s, id)
    ensures !HasWriter(s', id)
  {
    forall t ensures !WorkerWrites(s', id, t) { assert !WorkerWrites(s, id, t); }
    forall c ensures !CancelWrites(s', id, c) { assert !CancelWrites(s, id, c); }
  }

  ghost predicate SameRow(s: Sys, s': Sys, id: Id)
    requires id in s.rows && id in s.hist
  {
    id in s'.rows && id in s'.hist && s'.rows[id] == s.rows[id] && s'.hist[id] == s.hist[id]
  }

  lemma UpdateElsewhere(s: Sys, tag: nat, o: Outcome, id: Id)
    requires Enabled(s, Update(tag, o)) && !HasWriter(s, id) && id in s.rows && id in s.hist
    ensures SameRow(s, Apply(s, Update(tag, o)), id)
  {
    hide Mappers.Rewritten;
    assert !WorkerWrites(s, id, tag);
  }

  lemma CancelElsewhere(s: Sys, call: nat, o: Outcome, id: Id)
    requires Enabled(s, CancelWrite(call, o)) && !HasWriter(s, id) && id in s.rows && id in s.hist
    ensures SameRow(s, Apply(s, CancelWrite(call, o)), id)
  {
    hide Mappers.Withdrawn;
    assert !CancelWrites(s, id, call);
  }

  lemma InsertElsewhere(s: Sys, call: nat, i: Id, req: Request, v: Verdict, o: Outcome, id: Id)
    requires Enabled(s, Insert(call, i, req, v, o)) && id in s.rows && id in s.hist
    ensures SameRow(s, Apply(s, Insert(call, i, req, v, o)), id)
  {
    hide Draft, Mappers.Stored;
  }

  lemma NotWritten(s: Sys, step: Step, s': Sys)
    requires Shape(s, step, s') && !WritesRow(step)
    ensures SameRows(s, s')
  {
  }

  lemma RowStays(s: Sys, step: Step, id: Id)
    requires Enabled(s, step) && Shape(s, step, Apply(s, step)) && !HasWriter(s, id) && id in s.rows && id in s.hist
    ensures SameRow(s, Apply(s, step), id)
  {
    hide Enabled, Apply, HasWriter, Shape;
    if !WritesRow(step) { NotWritten(s, step, Apply(s, step)); }
    else {
      match step
      case Insert(call, i, req, v, o) => InsertElsewhere(s, call, i, req, v, o, id);
      case Update(tag, o) => UpdateElsewhere(s, tag, o, id);
      case CancelWrite(call, o) => CancelElsewhere(s, call, o, id);
    }
  }

  lemma FrozenStep(s: Sys, step: Step, id: Id)
    requires Good(s) && Frozen(s, id) && Enabled(s, step) && id in s.rows && id in s.log && id in s.hist
    ensures var s' := Apply(s, step);
      Good(s') && Frozen(s', id) && id in s'.log && SameRow(s, s', id)
  {
    hide Good, IsQuiet, HasWriter, Enabled, Apply, Shape, Calm, Exposed, Grows;
    GoodStep(s, step);
    QuietStep(s, step, id);
    StepCalm(s, step, id);
    CalmKeepsWriters(s, Apply(s, step), id);
    RowStays(s, step, id);
  }

  lemma {:induction false} FrozenRun(s: Sys, steps: seq<Step>, id: Id)
    requires Good(s) && Frozen(s, id) && CanRun(s, steps) && id in s.rows && id in s.log && id in s.hist
    ensures Frozen(Run(s, steps), id) && SameRow(s, Run(s, steps), id)
    decreases |steps|
  {
    hide Good, Frozen, Enabled, Apply;
    if steps != [] {
      FrozenStep(s, steps[0], id);
      FrozenRun(Apply(s, steps[0]), steps[1..], id);
    }
  }

  // ---- any writer that is left, or can still arise, writes ------------------------------------

  lemma UpdateWrites(s: Sys, tag: nat)
    requires Good(s) && tag in s.msgs && Writing(s.msgs[tag].place)
    ensures Enabled(s, Update(tag, Done)) && s.msgs[tag].body.id in s.hist
    ensures var s', id := Apply(s, Update(tag, Done)), s.msgs[tag].body.id;
      id in s'.hist && |s'.hist[id]| == |s.hist[id]| + 1
  {
    hide Good, Mappers.Rewritten;
    HeldFacts(s, tag);
    GoodRow(s, s.msgs[tag].body.id);
  }

  lemma SendThenWrites(s: Sys, tag: nat)
    requires Good(s) && tag in s.msgs && PastCheckAt(s.msgs[tag].place)
    ensures Enabled(s, Send(tag, true))
    ensures var s' := Apply(s, Send(tag, true));
      s'.hist == s.hist && tag in s'.msgs && s'.msgs[tag].body == s.msgs[tag].body && Writing(s'.msgs[tag].place)
  {
    hide Good;
    HeldFacts(s, tag);
  }

  lemma CancelWritesRow(s: Sys, call: nat, id: Id)
    requires call in s.calls && s.calls[call] == CancelChecked(id) && id in s.rows && id in s.hist
    ensures Enabled(s, CancelWrite(call, Done))
    ensures var s' := Apply(s, CancelWrite(call, Done));
      && id in s'.hist && |s'.hist[id]| == |s.hist[id]| + 1
      && id in s'.rows && s'.rows[id].status == Cancelled
  {
  }

  /** A new cancel that is shown status scheduled by the cache gets past its check. */
  lemma CancelPasses(s: Sys, call: nat, id: Id)
    requires call !in s.calls && StaleCache(s, id)
    ensures Enabled(s, BeginCancel(call, id))
    ensures var s1 := Apply(s, BeginCancel(call, id));
      && Enabled(s1, CallRead(call, Hit))
      && var s2 := Apply(s1, CallRead(call, Hit));
         s2.rows == s.rows && s2.hist == s.hist && call in s2.calls && s2.calls[call] == CancelChecked(id)
  {
  }

  ghost function Unused(calls: set<nat>): (c: nat)
    ensures forall d | d in calls :: d < c
  {
    if calls == {} then 0 else
      var d :| d in calls;
      assert calls == {d} + (calls - {d});
      var rest := Unused(calls - {d});
      if d < rest then rest else d + 1
  }

  ghost predicate EndsCancelled(s: Sys, steps: seq<Step>, id: Id)
    requires CanRun(s, steps)
  {
    id in Run(s, steps).rows && Run(s, steps).rows[id].status == Cancelled
  }

  lemma StaleCacheWrites(s: Sys, id: Id) returns (steps: seq<Step>)
    requires StaleCache(s, id) && id in s.rows && id in s.hist
    ensures CanRun(s, steps) && WritesIn(s, steps, id) && EndsCancelled(s, steps, id)
  {
    var c := Unused(s.calls.Keys);
    assert c !in s.calls;
    hide StaleCache, CanRun, Run, Enabled, Apply;
    CancelPasses(s, c, id);
    var s1 := Apply(s, BeginCancel(c, id));
    var s2 := Apply(s1, CallRead(c, Hit));
    CancelWritesRow(s2, c, id);
    RunOne(s2, CancelWrite(c, Done));
    RunCons(s1, CallRead(c, Hit), [CancelWrite(c, Done)]);
    RunCons(s, BeginCancel(c, id), [CallRead(c, Hit)] + [CancelWrite(c, Done)]);
    steps := [BeginCancel(c, id)] + ([CallRead(c, Hit)] + [CancelWrite(c, Done)]);
  }

  lemma WorkerWritesRow(s: Sys, id: Id, tag: nat) returns (steps: seq<Step>)
    requires Good(s) && WorkerWrites(s, id, tag) && id in s.hist
    ensures CanRun(s, steps) && WritesIn(s, steps, id)
  {
    hide Good, CanRun, Run, Enabled, Apply, Shape;
    if Writing(s.msgs[tag].place) {
      UpdateWrites(s, tag);
      RunOne(s, Update(tag, Done));
      steps := [Update(tag, Done)];
    } else {
      SendThenWrites(s, tag);
      GoodStep(s, Send(tag, true));
      var s1 := Apply(s, Send(tag, true));
      UpdateWrites(s1, tag);
      RunOne(s1, Update(tag, Done));
      RunCons(s, Send(tag, true), [Update(tag, Done)]);
      steps := [Send(tag, true)] + [Update(tag, Done)];
    }
  }

  lemma StaleReaderWrites(s: Sys, id: Id) returns (steps: seq<Step>)
    requires Good(s) && !NoStaleReaders(s, id) && id in s.rows && id in s.hist
    ensures CanRun(s, steps) && WritesIn(s, steps, id) && EndsCancelled(s, steps, id)
  {
    hide Good, NoStaleReaders, StaleCache, CanRun, Run, Enabled, Apply;
    var step := StaleReaderFills(s, id);
    var rest := StaleCacheWrites(Apply(s, step), id);
    RunCons(s, step, rest);
    steps := [step] + rest;
  }

  lemma UnfrozenWrites(s: Sys, id: Id) returns (steps: seq<Step>)
    requires Good(s) && Left(s, id) && !Frozen(s, id) && id in s.rows && id in s.hist
    ensures CanRun(s, steps) && WritesIn(s, steps, id)
  {
    hide Good, Left, IsQuiet, NoStaleReaders, StaleCache, CanRun, Run, WorkerWrites, WritesIn;
    QuietMeans(s, id);
    if StaleCache(s, id) { steps := StaleCacheWrites(s, id); }
    else if !NoStaleReaders(s, id) { steps := StaleReaderWrites(s, id); }
    else if t :| WorkerWrites(s, id, t) { steps := WorkerWritesRow(s, id, t); }
    else {
      var c :| CancelWrites(s, id, c);
      CancelWritesRow(s, c, id);
      RunOne(s, CancelWrite(c, Done));
      steps := [CancelWrite(c, Done)];
      assert WritesIn(s, steps, id) by { WritesOne(s, CancelWrite(c, Done), id); }
    }
  }

  lemma WritesOne(s: Sys, step: Step, id: Id)
    requires Enabled(s, step) && CanRun(s, [step]) && Run(s, [step]) == Apply(s, step)
    requires id in s.hist && id in Apply(s, step).hist && |Apply(s, step).hist[id]| > |s.hist[id]|
    ensures WritesIn(s, [step], id)
  {
    hide Enabled, Apply, CanRun, Run;
  }

  /** The exact condition. A row that has left status scheduled is never written again, in any continuation, if and
      only if no worker is past its check for it, no cancel is, the cache does not show the old value and nobody who
      read it is yet to fill the cache. */
  lemma CanWriteIff(s: Sys, id: Id)
    requires Good(s) && Left(s, id)
    ensures id in s.rows && id in s.log && id in s.hist
    ensures CanWrite(s, id) <==> HasWriter(s, id) || StaleCache(s, id) || !NoStaleReaders(s, id)
    ensures !CanWrite(s, id) ==>
      forall steps | CanRun(s, steps) :: id in Run(s, steps).rows && Run(s, steps).rows[id] == s.rows[id]
  {
    hide Good, IsQuiet, NoStaleReaders, StaleCache, CanRun, Run, HasWriter, WritesIn;
    LeftRow(s, id);
    assert id in s.hist;
    hide Left;
    QuietMeans(s, id);
    if Frozen(s, id) {
      forall steps | CanRun(s, steps)
        ensures !WritesIn(s, steps, id) && id in Run(s, steps).rows && Run(s, steps).rows[id] == s.rows[id]
      {
        FrozenNeverWritten(s, steps, id);
      }
    } else {
      var steps := UnfrozenWrites(s, id);
      assert CanWrite(s, id);
    }
  }

  lemma FrozenNeverWritten(s: Sys, steps: seq<Step>, id: Id)
    requires Good(s) && Frozen(s, id) && CanRun(s, steps) && id in s.rows && id in s.log && id in s.hist
    ensures !WritesIn(s, steps, id) && id in Run(s, steps).rows && Run(s, steps).rows[id] == s.rows[id]
  {
    hide Good, Frozen, CanRun, Run;
    FrozenRun(s, steps, id);
  }

  // ---- one terminal status over another -------------------------------------------------------

  /** A send was accepted and a cancel has passed its check, for the same notification. */
  ghost predicate Race(s: Sys, tag: nat, call: nat, id: Id) {
    && SendAccepted(s, tag, id)
    && call in s.calls && s.calls[call] == CancelChecked(id) && id in s.rows && id in s.hist
  }

  ghost predicate SendAccepted(s: Sys, tag: nat, id: Id) {
    && At(s, tag) && s.msgs[tag].body.id == id
    && s.msgs[tag].place.pc.Accepted? && s.msgs[tag].place.pc.n.status == Sent
  }

  /** A worker with an accepted send and a cancel past its check: whichever writes last wins, in either order. */
  lemma LastWriterWins(s: Sys, tag: nat, call: nat, id: Id)
    requires Race(s, tag, call, id)
    ensures Enabled(s, Update(tag, Done)) && Enabled(s, CancelWrite(call, Done))
    ensures var s1 := Apply(s, Update(tag, Done));
      && id in s1.rows && s1.rows[id].status == Sent && Enabled(s1, CancelWrite(call, Done))
      && var s2 := Apply(s1, CancelWrite(call, Done)); id in s2.rows && s2.rows[id].status == Cancelled
    ensures var s1 := Apply(s, CancelWrite(call, Done));
      && id in s1.rows && s1.rows[id].status == Cancelled && Enabled(s1, Update(tag, Done))
      && var s2 := Apply(s1, Update(tag, Done)); id in s2.rows && s2.rows[id].status == Sent
  {
  }
}
