/** A stale cache entry does harm only until it expires: from then on the row is quiet in every continuation. */
module Horizon {
  import opened Domain
  import opened Protocol
  import opened Invariant
  import opened Shapes
  import opened Accounting
  import opened Safety
  import opened Quiet

  // ---- steps that may show the old value, but never renew it ----------------------------------

  ghost predicate MildMessages(s: Sys, s': Sys, id: Id) {
    forall t | t in s'.msgs && s'.msgs[t].body.id == id ::
      (t in s.msgs && s'.msgs[t] == s.msgs[t]) || !ReadsStale(s'.msgs[t].place)
  }

  predicate ReadsStale(p: Place) {
    p.Held? && p.pc.Reading? && p.pc.read.AtFill? && p.pc.read.value.status == Scheduled
  }

  ghost predicate MildCalls(s: Sys, s': Sys, id: Id) {
    forall c | c in s'.calls :: (c in s.calls && s'.calls[c] == s.calls[c]) || HarmlessCall(s'.calls[c], id)
  }

  /** No new reader carries the old value, and the cache does not get it again. */
  ghost predicate Mild(s: Sys, s': Sys, id: Id) {
    CalmCache(s, s', id) && MildMessages(s, s', id) && MildCalls(s, s', id)
  }

  lemma CalmIsMild(s: Sys, s': Sys, id: Id)
    requires Calm(s, s', id)
    ensures Mild(s, s', id)
  {
    forall t | t in s'.msgs && s'.msgs[t].body.id == id && !(t in s.msgs && s'.msgs[t] == s.msgs[t])
      ensures !ReadsStale(s'.msgs[t].place)
    {
      assert CalmPlace(s, t, id, s'.msgs[t].place);
    }
    forall c | c in s'.calls && !(c in s.calls && s'.calls[c] == s.calls[c]) ensures HarmlessCall(s'.calls[c], id) {
      assert CalmCall(s'.calls[c], id);
    }
  }

  lemma WorkerReadMild(s: Sys, tag: nat, ev: ReadEvent, id: Id)
    requires Good(s) && Left(s, id) && NoStaleReaders(s, id) && Enabled(s, WorkerRead(tag, ev))
    ensures Mild(s, Apply(s, WorkerRead(tag, ev)), id)
  {
    hide Good, CalmCache;
    var b, pc := s.msgs[tag].body, s.msgs[tag].place.pc.read;
    assert ReadOk(s, b.id, pc) by { GoodMessage(s, tag); }
    hide MessageOk, ReadOk, Left;
    QuietReadCalm(s, id, b.id, pc, ev);
    WorkerReadFrame(s, tag, ev);
    var s1, s' := ReadEffect(s, pc, ev), Apply(s, WorkerRead(tag, ev));
    assert CalmCache(s, s', id) by { CacheOnly(s, s1, s', id); }
    hide Apply, ReadEffect, NoStaleReaders, Enabled;
  }

  lemma CallReadMild(s: Sys, call: nat, ev: ReadEvent, id: Id)
    requires Good(s) && Left(s, id) && NoStaleReaders(s, id) && Enabled(s, CallRead(call, ev))
    ensures Mild(s, Apply(s, CallRead(call, ev)), id)
  {
    hide Good, CalmCache;
    var c := s.calls[call];
    assert ReadOk(s, c.id, c.read) by { GoodCall(s, call); }
    assert HarmlessCall(c, id);
    hide CallOk, ReadOk, Left, NoStaleReaders, ReadEnabled;
    QuietReadCalm(s, id, c.id, c.read, ev);
    CallReadFrame(s, call, ev);
    var s1, s' := ReadEffect(s, c.read, ev), Apply(s, CallRead(call, ev));
    assert MildCalls(s, s', id) by { ReadMildCalls(s, call, ev, id); }
    hide HarmlessCall, MildCalls, Apply, ReadEffect, ReadNext;
    assert CalmCache(s, s', id) by { CacheOnly(s, s1, s', id); }
  }

  lemma ReadMildCalls(s: Sys, call: nat, ev: ReadEvent, id: Id)
    requires Enabled(s, CallRead(call, ev))
    requires s.calls[call].id == id ==>
      var r := ReadNext(s, id, s.calls[call].read, ev); r.Continue? ==> !StaleRead(r.pc)
    ensures MildCalls(s, Apply(s, CallRead(call, ev)), id)
  {
    CallReadResult(s, call, ev);
    hide Apply, ReadEnabled, ReadNext, StaleRead;
  }

  lemma StepMild(s: Sys, step: Step, id: Id)
    requires Good(s) && Left(s, id) && NoStaleReaders(s, id) && id in s.rows && Enabled(s, step)
    ensures Mild(s, Apply(s, step), id)
  {
    hide Good, Left, NoStaleReaders, Calm, Mild, Enabled, Apply;
    match step
    case CallRead(call, ev) => CallReadMild(s, call, ev, id);
    case WorkerRead(tag, ev) => WorkerReadMild(s, tag, ev, id);
    case _ =>
      OtherStepCalm(s, step, id);
      CalmIsMild(s, Apply(s, step), id);
  }

  // ---- the horizon ----------------------------------------------------------------------------

  /** No reader carries the old value, and the cache shows it until time e at most. */
  ghost predicate Fading(s: Sys, id: Id, e: Time) {
    && Left(s, id) && NoStaleReaders(s, id) && id in s.rows
    && (id in s.cache && s.cache[id].value.status == Scheduled ==> s.cache[id].expiresAt <= e)
  }

  lemma MildKeepsFading(s: Sys, s': Sys, id: Id, e: Time)
    requires Grows(s, s') && Fading(s, id, e) && Mild(s, s', id)
    ensures Fading(s', id, e)
  {
    LeftGrows(s, s', id);
    assert id in s'.rows;
    hide Left, Grows;
    forall c | c in s'.calls ensures HarmlessCall(s'.calls[c], id) {
      if c in s.calls { assert HarmlessCall(s.calls[c], id); }
    }
  }

  lemma FadingStep(s: Sys, step: Step, id: Id, e: Time)
    requires Good(s) && Fading(s, id, e) && Enabled(s, step)
    ensures var s' := Apply(s, step); Good(s') && Fading(s', id, e) && Shape(s, step, s') && s.now <= s'.now
  {
    hide Good, Left, NoStaleReaders, Mild, Enabled, Apply, Shape, Grows;
    GoodStep(s, step);
    StepMild(s, step, id);
    hide Fading;
    MildKeepsFading(s, Apply(s, step), id, e);
    assert s.now <= Apply(s, step).now by { NowGrows(s, Apply(s, step)); }
  }

  lemma {:induction false} FadingRun(s: Sys, steps: seq<Step>, id: Id, e: Time)
    requires Good(s) && Fading(s, id, e) && CanRun(s, steps)
    ensures Good(Run(s, steps)) && Fading(Run(s, steps), id, e) && s.now <= Run(s, steps).now
    decreases |steps|
  {
    hide Good, Fading, Enabled, Apply, Shape, Grows;
    if steps != [] {
      FadingStep(s, steps[0], id, e);
      FadingRun(Apply(s, steps[0]), steps[1..], id, e);
    }
  }

  /** However many invalidations were lost: once nobody carries the old value, and the entry of the cache has had the
      time to expire, the row is quiet, whatever happened in between. */
  lemma QuietFromExpiryOn(s: Sys, steps: seq<Step>, id: Id)
    requires Good(s) && Left(s, id) && NoStaleReaders(s, id) && CanRun(s, steps)
    requires id in s.cache ==> s.cache[id].expiresAt <= Run(s, steps).now
    ensures IsQuiet(Run(s, steps), id)
    ensures id in s.cache ==> s.cache[id].expiresAt <= s.now + CACHE_TTL
  {
    hide Good, Left, NoStaleReaders, CanRun, Run;
    LeftRow(s, id);
    var e := if id in s.cache then s.cache[id].expiresAt else s.now;
    FadingRun(s, steps, id, e);
    QuietMeans(Run(s, steps), id);
  }

  lemma LeftRow(s: Sys, id: Id)
    requires Good(s) && Left(s, id)
    ensures id in s.rows && id in s.log
    ensures id in s.cache ==> s.cache[id].expiresAt <= s.now + CACHE_TTL
  {
    hide Fresh, Prefetch, AllCounted;
    KeysOf(s);
    if id in s.cache { TheEntry(s, id); }
  }
}
