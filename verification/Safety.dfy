/** The invariants that are not monotone - coverage of scheduled rows and one message per worker - and their
    conjunction with everything else, over all steps and then over all runs. */
module Safety {
  import opened Domain
  import opened Protocol
  import opened Invariant
  import opened InvariantSteps
  import opened Shapes
  import opened Accounting

  // ---- one unsettled message per worker -------------------------------------------------------

  ghost predicate Prefetch(s: Sys) {
    forall t, u | t in s.msgs && u in s.msgs && s.msgs[t].place.Held? && s.msgs[u].place.Held?
                  && s.msgs[t].place.worker == s.msgs[u].place.worker :: t == u
  }

  lemma PrefetchMoves(s: Sys, s': Sys, tag: nat)
    requires Prefetch(s) && (Moves(s, s', tag) || (TagsBelow(s) && Forks(s, s', tag)))
    ensures Prefetch(s')
  {
    forall t | t in s'.msgs && t != tag && s'.msgs[t].place.Held? ensures t in s.msgs && s'.msgs[t] == s.msgs[t] {}
    assert Fetches(s, s.msgs[tag].place, s'.msgs[tag].place);
  }

  lemma PrefetchStep(s: Sys, step: Step, s': Sys)
    requires Prefetch(s) && TagsBelow(s) && Shape(s, step, s')
    ensures Prefetch(s')
  {
    hide Prefetch;
    if step.Insert? || Still(s, s') { PrefetchSame(s, s'); }
    else if step.Publish? { PrefetchPost(s, s'); }
    else if step.Ack? { PrefetchPost(s, s'); }
    else { PrefetchMoves(s, s', step.tag); }
  }

  lemma PrefetchSame(s: Sys, s': Sys)
    requires Prefetch(s) && s'.msgs == s.msgs
    ensures Prefetch(s')
  {
  }

  lemma PrefetchPost(s: Sys, s': Sys)
    requires Prefetch(s)
    requires forall t | t in s'.msgs && s'.msgs[t].place.Held? :: t in s.msgs && s'.msgs[t] == s.msgs[t]
    ensures Prefetch(s')
  {
  }

  // ---- no scheduled notification is lost ------------------------------------------------------

  /** A message that only waits to be acknowledged because its work is done. */
  predicate IsFinished(p: Place) { p.Held? && p.pc.Acking? && !p.pc.why.ReadFailed? }

  ghost predicate SupportedBy(s: Sys, id: Id, t: nat) {
    t in s.msgs && s.msgs[t].body.id == id && !IsFinished(s.msgs[t].place)
  }

  ghost predicate PendingFor(s: Sys, id: Id, c: nat) {
    c in s.calls && IsPending(s.calls[c]) && s.calls[c].n.id == id
  }

  /** The two ways the code gives a scheduled row up: its message never reached the broker, or a failing read
      made a worker acknowledge one. */
  ghost predicate GivenUp(s: Sys, id: Id) { id in s.unpublished || id in s.abandoned }

  /** The row has left status scheduled, or was given up, or something is still going to act on it: a creation
      that has not published, or a live message other than a finished one. */
  ghost predicate Covered(s: Sys, id: Id) {
    || Left(s, id) || GivenUp(s, id)
    || (exists c :: PendingFor(s, id, c))
    || (exists t :: SupportedBy(s, id, t))
  }

  lemma MessageCovers(s: Sys, step: Step, s': Sys, id: Id, t: nat)
    requires Shape(s, step, s') && TagsBelow(s) && Inv(s') && SupportedBy(s, id, t)
    ensures Covered(s', id)
  {
    hide Inv, Left;
    if Works(step) && step.tag == t {
      hide Shape;
      HandledCovers(s, step, s', id);
    } else {
      assert SupportedBy(s', id, t);
    }
  }

  lemma HandledCovers(s: Sys, step: Step, s': Sys, id: Id)
    requires Works(step) && Shape(s, step, s') && TagsBelow(s) && Inv(s') && SupportedBy(s, id, step.tag)
    ensures Covered(s', id)
  {
    hide Inv, Left;
    if IsFork(step) { assert SupportedBy(s', id, s.next); }
    else if !step.Ack? && IsFinished(s'.msgs[step.tag].place) { AckIsJustified(s', step.tag); }
    else if !step.Ack? { assert SupportedBy(s', id, step.tag); }
  }

  /** A finished message that was not replaced by a retry copy belongs to a row that has left scheduled. */
  lemma AckIsJustified(s: Sys, t: nat)
    requires Inv(s) && t in s.msgs && IsFinished(s.msgs[t].place) && !IsRetired(s.msgs[t].place)
    ensures Left(s, s.msgs[t].body.id)
  {
    hide Inv;
    TheMessage(s, t);
  }

  lemma CallCovers(s: Sys, step: Step, s': Sys, id: Id, c: nat)
    requires Shape(s, step, s') && PendingFor(s, id, c)
    ensures Covered(s', id)
  {
    hide Left;
    if Still(s, s') { assert PendingFor(s', id, c) || id in s'.unpublished; }
    else if step.Publish? && step.call == c { assert SupportedBy(s', id, s.next); }
    else { assert PendingFor(s', id, c); }
  }

  lemma CoveredStep(s: Sys, step: Step, s': Sys, id: Id)
    requires Inv(s') && TagsBelow(s) && Shape(s, step, s') && Grows(s, s') && Covered(s, id)
    ensures Covered(s', id)
  {
    hide Inv, Shape, TagsBelow;
    if Left(s, id) { LeftGrows(s, s', id); }
    else if !GivenUp(s, id) {
      if c :| PendingFor(s, id, c) { CallCovers(s, step, s', id, c); }
      else { var t :| SupportedBy(s, id, t); MessageCovers(s, step, s', id, t); }
    }
  }

  /** A new id can only come from an insert, and is covered, unspent and exactly counted from the start. */
  lemma Birth(s: Sys, step: Step, s': Sys, id: Id)
    requires Fresh(s) && Shape(s, step, s') && id !in s.log && id in s'.log
    ensures Covered(s', id) && Budget(s', id) == 0 && Outlook(s', id) == 0 && Exact(s', id)
    ensures step.Insert? && step.id == id
  {
    hide Fresh, Covered, Budget, Outlook, Exact, Still, Births, Shift, Sends, Returns, Leaves, Forks, Starts;
    LogKeys(s, step, s');
    BornCovered(s, s', step.id, step.call);
    BornUncounted(s, s', step.id, step.call);
  }

  lemma BornCovered(s: Sys, s': Sys, id: Id, call: nat)
    requires Births(s, s', id, call)
    ensures Covered(s', id)
  {
    hide Left;
    if s'.calls != s.calls { assert PendingFor(s', id, call); }
  }

  lemma BornUncounted(s: Sys, s': Sys, id: Id, call: nat)
    requires Fresh(s) && Births(s, s', id, call)
    ensures Budget(s', id) == 0 && Outlook(s', id) == 0 && Exact(s', id)
  {
    assert NoMessages(s', id);
    TotalZero(s'.msgs, s'.next, PotentialOf(id));
    TotalZero(s'.msgs, s'.next, ChanceOf(id));
  }

  lemma LogKeys(s: Sys, step: Step, s': Sys)
    requires Shape(s, step, s')
    ensures s'.log.Keys == s.log.Keys
         || (step.Insert? && Births(s, s', step.id, step.call) && s'.log.Keys == s.log.Keys + {step.id})
  {
  }

  // ---- all of it, over all steps and all runs --------------------------------------------------

  ghost predicate Counted(s: Sys, id: Id)
    requires id in s.log
  {
    Budget(s, id) <= MAX_RETRIES && Outlook(s, id) <= 1 && Exact(s, id) && Covered(s, id)
  }

  ghost predicate AllCounted(s: Sys) { forall id | id in s.log :: Counted(s, id) }

  ghost predicate Good(s: Sys) {
    Inv(s) && Fresh(s) && Prefetch(s) && AllCounted(s)
  }

  lemma GoodTags(s: Sys)
    requires Good(s)
    ensures TagsBelow(s)
  {
    hide Inv, Prefetch, AllCounted;
  }

  lemma GoodInv(s: Sys)
    requires Good(s)
    ensures Inv(s)
  {
    hide Inv, Fresh, Prefetch, AllCounted;
  }

  lemma InitGood(workers: nat, now: Time)
    ensures Good(Init(workers, now))
  {
    InitInv(workers, now);
  }

  lemma Ranges(s: Sys)
    requires Inv(s)
    ensures InRange(s)
  {
    hide Inv;
    forall t | t in s.msgs ensures 0 <= s.msgs[t].body.attempts < MAX_RETRIES { TheMessage(s, t); }
  }

  lemma NotPublishedYet(s: Sys, call: nat, o: Outcome)
    requires Fresh(s) && Enabled(s, Publish(call, o))
    ensures s.log[s.calls[call].n.id].published.None?
  {
    assert FreshAt(s, call);
  }

  lemma CountedStep(s: Sys, step: Step, s': Sys)
    requires Fresh(s) && InRange(s) && AllCounted(s) && Shape(s, step, s') && Inv(s') && Grows(s, s')
    ensures AllCounted(s')
  {
    hide Fresh, InRange, Shape, Inv, Grows, Budget, Outlook, Exact, Covered;
    assert TagsBelow(s) by { FreshTags(s); }
    forall id | id in s'.log ensures Counted(s', id) {
      if id in s.log {
        assert Counted(s, id);
        BudgetStep(s, step, s', id);
        OutlookStep(s, step, s', id);
        ExactStep(s, step, s', id);
        CoveredStep(s, step, s', id);
      } else {
        Birth(s, step, s', id);
      }
    }
  }

  lemma GoodStep(s: Sys, step: Step)
    requires Good(s) && Enabled(s, step)
    ensures Good(Apply(s, step)) && Grows(s, Apply(s, step)) && Shape(s, step, Apply(s, step))
  {
    hide Inv, Fresh, Prefetch, AllCounted, Enabled, Apply, Shape, Grows;
    if step.Publish? { NotPublishedYet(s, step.call, step.outcome); }
    StepInv(s, step);
    ShapeOf(s, step);
    var s' := Apply(s, step);
    assert TagsBelow(s) by { FreshTags(s); }
    FreshStep(s, step, s');
    PrefetchStep(s, step, s');
    Ranges(s);
    CountedStep(s, step, s');
  }

  lemma {:induction false} GoodRun(s: Sys, steps: seq<Step>)
    requires Good(s) && CanRun(s, steps)
    ensures Good(Run(s, steps)) && Grows(s, Run(s, steps))
    decreases |steps|
  {
    hide Good, Grows, Enabled, Apply;
    if steps == [] { KeepRecords(s, s); }
    else {
      GoodStep(s, steps[0]);
      GoodRun(Apply(s, steps[0]), steps[1..]);
      GrowsTransitive(s, Apply(s, steps[0]), Run(s, steps));
    }
  }

  lemma ReachableGood(s: Sys)
    requires Reachable(s)
    ensures Good(s)
  {
    hide Good;
    var workers: nat, now: Time, steps: seq<Step> :|
      CanRun(Init(workers, now), steps) && Run(Init(workers, now), steps) == s;
    InitGood(workers, now);
    GoodRun(Init(workers, now), steps);
  }
}
