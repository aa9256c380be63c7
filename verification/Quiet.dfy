/** After a row has left status scheduled: which further sends are possible, and exactly when there are none
    beyond the workers already past the status check. */
module Quiet {
  import opened Domain
  import Delay
  import Mappers
  import opened Protocol
  import opened Invariant
  import opened InvariantSteps
  import opened Shapes
  import opened Accounting
  import opened Safety

  ghost predicate StaleRead(pc: ReadPc) { pc.AtFill? && pc.value.status == Scheduled }

  /** Neither past the check nor about to put a scheduled value into the cache. */
  ghost predicate Harmless(p: Place) {
    p.Held? ==> p.pc != Checked && (p.pc.Reading? ==> !StaleRead(p.pc.read))
  }

  ghost predicate HarmlessCall(c: Call, id: Id) {
    && (c.Creating? ==> c.n.id != id)
    && ((c.Getting? || c.Cancelling?) && c.id == id ==> !StaleRead(c.read))
  }

  /** A reader would be shown status scheduled from the cache. */
  ghost predicate StaleCache(s: Sys, id: Id) {
    id in s.cache && s.cache[id].value.status == Scheduled && s.now < s.cache[id].expiresAt
  }

  lemma StaleIsCached(s: Sys, id: Id)
    ensures StaleCache(s, id) ==> id in s.cache
  {
  }

  /** No process carries an old scheduled value of this row towards the cache. */
  ghost predicate NoStaleReaders(s: Sys, id: Id) {
    && (forall t | t in s.msgs && s.msgs[t].body.id == id && s.msgs[t].place.Held? && s.msgs[t].place.pc.Reading? ::
          !StaleRead(s.msgs[t].place.pc.read))
    && (forall c | c in s.calls :: HarmlessCall(s.calls[c], id))
  }

  /** The row has left status scheduled and nothing can show it as scheduled any more. */
  ghost predicate IsQuiet(s: Sys, id: Id) {
    Left(s, id) && !StaleCache(s, id) && NoStaleReaders(s, id)
  }

  // ---- workers past the check -----------------------------------------------------------------

  function PastCheck(id: Id): Message -> int {
    (m: Message) => if m.body.id == id && m.place.Held? && m.place.pc == Checked then 1 else 0
  }

  /** How many workers hold a message for this id and have seen status scheduled but not sent yet. */
  ghost function Exposed(s: Sys, id: Id): int { Total(s.msgs, s.next, PastCheck(id)) }

  ghost function Holders(s: Sys, n: nat): set<nat> {
    set t: nat | t < n && t in s.msgs && s.msgs[t].place.Held? :: s.msgs[t].place.worker
  }

  lemma {:induction false} ExposedAtMostHolders(s: Sys, n: nat, id: Id)
    requires Prefetch(s)
    ensures Total(s.msgs, n, PastCheck(id)) <= |Holders(s, n)|
  {
    if n > 0 {
      ExposedAtMostHolders(s, n - 1, id);
      var t := n - 1;
      if t in s.msgs && s.msgs[t].place.Held? {
        var w := s.msgs[t].place.worker;
        assert w !in Holders(s, t);
        assert Holders(s, n) == Holders(s, t) + {w};
      } else {
        assert Holders(s, n) == Holders(s, t);
      }
    }
  }

  ghost function Below(n: nat): (r: set<nat>)
    ensures forall i: nat :: i in r <==> i < n
    ensures |r| == n
  {
    if n == 0 then {} else Below(n - 1) + {n - 1}
  }

  lemma {:induction false} SubsetSize(a: set<nat>, b: set<nat>)
    requires a <= b
    ensures |a| <= |b|
  {
    if a != {} {
      var x :| x in a;
      SubsetSize(a - {x}, b - {x});
    }
  }

  /** Prefetch one: never more than the workers there are. */
  lemma ExposedAtMostWorkers(s: Sys, id: Id)
    requires Good(s)
    ensures 0 <= Exposed(s, id) <= s.workers
  {
    hide Inv;
    ExposedAtMostHolders(s, s.next, id);
    var all := Below(s.workers);
    forall w | w in Holders(s, s.next) ensures w in all {
      var t :| t in s.msgs && s.msgs[t].place.Held? && s.msgs[t].place.worker == w;
      TheMessage(s, t);
    }
    SubsetSize(Holders(s, s.next), all);
    TotalAtLeast(s.msgs, s.next, PastCheck(id));
  }

  /** A single message can be past the check once at most. */
  lemma {:induction false} ExposedByOne(s: Sys, n: nat, id: Id)
    requires Single(s, id)
    ensures Total(s.msgs, n, PastCheck(id)) <= 1
  {
    if n > 0 {
      ExposedByOne(s, n - 1, id);
      if n - 1 in s.msgs && s.msgs[n-1].body.id == id {
        TotalSame(map[], s.msgs, n - 1, PastCheck(id));
        TotalZero(map[], n - 1, PastCheck(id));
      }
    }
  }

  /** At most one message exists for this id. */
  ghost predicate Single(s: Sys, id: Id) {
    forall t, u | t in s.msgs && u in s.msgs && s.msgs[t].body.id == id && s.msgs[u].body.id == id :: t == u
  }

  lemma ExposedOfSingle(s: Sys, id: Id)
    requires Single(s, id)
    ensures Exposed(s, id) <= 1
    ensures (exists t :: t in s.msgs && s.msgs[t].body.id == id && !PastCheckAt(s.msgs[t].place))
      ==> Exposed(s, id) == 0
  {
    ExposedByOne(s, s.next, id);
    if t :| t in s.msgs && s.msgs[t].body.id == id && !PastCheckAt(s.msgs[t].place) {
      TotalZero(s.msgs, s.next, PastCheck(id));
    }
  }

  // ---- quietness is kept ----------------------------------------------------------------------

  /** About to write a terminal status. */
  predicate Writing(p: Place) { p.Held? && (p.pc.Accepted? || IsRejectedFinally(p.pc)) }

  predicate PastCheckAt(p: Place) { p.Held? && p.pc.Checked? }

  ghost predicate CalmPlace(s: Sys, t: nat, id: Id, p': Place) {
    Harmless(p') && (Writing(p') ==> t in s.msgs && s.msgs[t].body.id == id && PastCheckAt(s.msgs[t].place))
  }

  ghost predicate CalmCall(c: Call, id: Id) { HarmlessCall(c, id) && c != CancelChecked(id) }

  ghost predicate CalmCache(s: Sys, s': Sys, id: Id) {
    id in s'.cache ==> (id in s.cache && s'.cache[id] == s.cache[id]) || s'.cache[id].value.status != Scheduled
  }

  ghost predicate CalmMessages(s: Sys, s': Sys, id: Id) {
    forall t | t in s'.msgs && s'.msgs[t].body.id == id ::
      (t in s.msgs && s'.msgs[t] == s.msgs[t]) || CalmPlace(s, t, id, s'.msgs[t].place)
  }

  ghost predicate CalmCalls(s: Sys, s': Sys, id: Id) {
    forall c | c in s'.calls :: (c in s.calls && s'.calls[c] == s.calls[c]) || CalmCall(s'.calls[c], id)
  }

  /** A step that brings in no scheduled view of this id, and no writer but a worker that was past the check. */
  ghost predicate Calm(s: Sys, s': Sys, id: Id) {
    CalmCache(s, s', id) && CalmMessages(s, s', id) && CalmCalls(s, s', id)
  }

  lemma SameCalm(s: Sys, s': Sys, id: Id)
    ensures s'.cache == s.cache ==> CalmCache(s, s', id)
    ensures s'.msgs == s.msgs ==> CalmMessages(s, s', id)
    ensures s'.calls == s.calls ==> CalmCalls(s, s', id)
  {
  }

  lemma OneMessageCalm(s: Sys, s': Sys, id: Id, tag: nat)
    requires forall t | t in s'.msgs && t != tag :: (t in s.msgs && s'.msgs[t] == s.msgs[t]) || !s'.msgs[t].place.Held?
    requires tag in s'.msgs && s'.msgs[tag].body.id == id ==> CalmPlace(s, tag, id, s'.msgs[tag].place)
    ensures CalmMessages(s, s', id)
  {
  }

  lemma OneCallCalm(s: Sys, s': Sys, id: Id, call: nat)
    requires forall c | c in s'.calls && c != call :: c in s.calls && s'.calls[c] == s.calls[c]
    requires call in s'.calls ==> CalmCall(s'.calls[call], id)
    ensures CalmCalls(s, s', id)
  {
  }

  lemma QuietReadCalm(s: Sys, id: Id, rid: Id, pc: ReadPc, ev: ReadEvent)
    requires Good(s) && Left(s, id) && ReadEnabled(s, rid, pc, ev) && ReadOk(s, rid, pc)
    requires rid == id ==> !StaleRead(pc)
    ensures CalmCache(s, ReadEffect(s, pc, ev), id)
    ensures rid == id ==>
      var r := ReadNext(s, rid, pc, ev);
      (r.Continue? ==> !StaleRead(r.pc)) && (r.Return? && !StaleCache(s, id) ==> r.value.status != Scheduled)
  {
    hide Inv, Fresh, Prefetch, AllCounted;
    if ev.RowRead? && rid == id { CurrentValue(s, id); }
  }

  lemma WorkerReadCalm(s: Sys, tag: nat, ev: ReadEvent, id: Id)
    requires Good(s) && IsQuiet(s, id) && Enabled(s, WorkerRead(tag, ev))
    ensures Calm(s, Apply(s, WorkerRead(tag, ev)), id)
  {
    hide Good, CalmCache, CalmMessages, CalmCalls;
    var b, pc := s.msgs[tag].body, s.msgs[tag].place.pc.read;
    assert ReadOk(s, b.id, pc) by { GoodMessage(s, tag); }
    hide MessageOk, ReadOk, Left;
    QuietReadCalm(s, id, b.id, pc, ev);
    var s1, s' := ReadEffect(s, pc, ev), Apply(s, WorkerRead(tag, ev));
    WorkerReadFrame(s, tag, ev);
    assert CalmCache(s, s', id) by { CacheOnly(s, s1, s', id); }
    SameCalm(s, s', id);
    hide Apply, ReadEffect;
    OneMessageCalm(s, s', id, tag);
  }

  /** A worker's read step moves its message, to the place its result leads to, and when it fills, the cache. */
  lemma WorkerReadFrame(s: Sys, tag: nat, ev: ReadEvent)
    requires Enabled(s, WorkerRead(tag, ev))
    ensures var m, s' := s.msgs[tag], Apply(s, WorkerRead(tag, ev)); var pc := m.place.pc.read;
      && s'.cache == ReadEffect(s, pc, ev).cache && s'.calls == s.calls
      && s'.msgs == s.msgs[tag := m.(place := Held(m.place.worker, PcAfter(ReadNext(s, m.body.id, pc, ev))))]
  {
    ReadEffectFrame(s, s.msgs[tag].place.pc.read, ev);
    hide ReadEnabled, ReadNext, ReadEffect;
  }

  lemma CacheOnly(s: Sys, s1: Sys, s': Sys, id: Id)
    requires CalmCache(s, s1, id) && s'.cache == s1.cache
    ensures CalmCache(s, s', id)
  {
  }

  lemma CallReadCalm(s: Sys, call: nat, ev: ReadEvent, id: Id)
    requires Good(s) && IsQuiet(s, id) && Enabled(s, CallRead(call, ev))
    ensures Calm(s, Apply(s, CallRead(call, ev)), id)
  {
    hide Good, CalmCache, CalmMessages, CalmCalls;
    var c := s.calls[call];
    assert ReadOk(s, c.id, c.read) by { GoodCall(s, call); }
    assert HarmlessCall(c, id);
    hide CallOk, ReadOk, Left, NoStaleReaders, ReadEnabled;
    QuietReadCalm(s, id, c.id, c.read, ev);
    CallReadCalls(s, call, ev, id);
    CallReadFrame(s, call, ev);
    hide HarmlessCall, Apply, ReadEffect, ReadNext;
    var s1, s' := ReadEffect(s, c.read, ev), Apply(s, CallRead(call, ev));
    assert CalmCache(s, s', id) by { CacheOnly(s, s1, s', id); }
    SameCalm(s, s', id);
  }

  lemma CallReadCalls(s: Sys, call: nat, ev: ReadEvent, id: Id)
    requires Enabled(s, CallRead(call, ev))
    requires s.calls[call].id == id ==>
      var r := ReadNext(s, id, s.calls[call].read, ev);
      (r.Continue? ==> !StaleRead(r.pc)) && (r.Return? ==> r.value.status != Scheduled)
    ensures CalmCalls(s, Apply(s, CallRead(call, ev)), id)
  {
    CallReadResult(s, call, ev);
    hide Apply, CalmCalls, ReadEnabled, ReadNext, StaleRead;
    OneCallCalm(s, Apply(s, CallRead(call, ev)), id, call);
  }

  lemma GoodMessage(s: Sys, tag: nat)
    requires Good(s) && tag in s.msgs
    ensures MessageOk(s, s.msgs[tag]) && s.msgs[tag].body.id in s.log
  {
    hide Inv, Fresh, Prefetch, AllCounted;
    TheMessage(s, tag);
  }

  lemma GoodCall(s: Sys, call: nat)
    requires Good(s) && call in s.calls
    ensures CallOk(s, s.calls[call])
  {
    hide Inv, Fresh, Prefetch, AllCounted;
    TheCall(s, call);
  }

  lemma InsertCalm(s: Sys, call: nat, i: Id, req: Request, v: Verdict, o: Outcome, id: Id)
    requires id in s.rows && Enabled(s, Insert(call, i, req, v, o))
    ensures Calm(s, Apply(s, Insert(call, i, req, v, o)), id)
  {
    hide CalmCache, CalmMessages, CalmCalls, Draft, Mappers.Stored;
    var s' := Apply(s, Insert(call, i, req, v, o));
    Mappers.SaveRoundTrip(i, Draft(req, v, i, s.now).value, s.now);
    SameCalm(s, s', id);
    OneCallCalm(s, s', id, call);
  }

  lemma FillCreatedCalm(s: Sys, call: nat, o: Outcome, id: Id)
    requires NoStaleReaders(s, id) && Enabled(s, FillCreated(call, o))
    ensures Calm(s, Apply(s, FillCreated(call, o)), id)
  {
    hide CalmMessages, CalmCalls;
    assert HarmlessCall(s.calls[call], id);
    var s' := Apply(s, FillCreated(call, o));
    SameCalm(s, s', id);
    OneCallCalm(s, s', id, call);
  }

  lemma PublishCalm(s: Sys, call: nat, o: Outcome, id: Id)
    ensures Enabled(s, ComputeTtl(call)) ==> Calm(s, Apply(s, ComputeTtl(call)), id)
    ensures Enabled(s, Publish(call, o)) ==> Calm(s, Apply(s, Publish(call, o)), id)
  {
    hide CalmCache, CalmMessages, CalmCalls;
    if Enabled(s, ComputeTtl(call)) {
      SameCalm(s, Apply(s, ComputeTtl(call)), id);
      OneCallCalm(s, Apply(s, ComputeTtl(call)), id, call);
    }
    if Enabled(s, Publish(call, o)) {
      SameCalm(s, Apply(s, Publish(call, o)), id);
      OneCallCalm(s, Apply(s, Publish(call, o)), id, call);
      if Applied(o) { OneMessageCalm(s, Apply(s, Publish(call, o)), id, s.next); }
    }
  }

  lemma BeginCalm(s: Sys, call: nat, i: Id, id: Id)
    ensures Enabled(s, BeginGet(call, i)) ==> Calm(s, Apply(s, BeginGet(call, i)), id)
    ensures Enabled(s, BeginCancel(call, i)) ==> Calm(s, Apply(s, BeginCancel(call, i)), id)
  {
  }

  lemma TimeCalm(s: Sys, dt: nat, i: Id, id: Id)
    ensures Calm(s, Apply(s, Tick(dt)), id)
    ensures Calm(s, Apply(s, Evict(i)), id)
  {
  }

  lemma CancelWriteCalm(s: Sys, call: nat, o: Outcome, id: Id)
    requires Enabled(s, CancelWrite(call, o))
    ensures Calm(s, Apply(s, CancelWrite(call, o)), id)
  {
    hide CalmCache, CalmMessages, CalmCalls, Mappers.Withdrawn;
    var s' := Apply(s, CancelWrite(call, o));
    SameCalm(s, s', id);
    OneCallCalm(s, s', id, call);
  }

  lemma CancelInvalidateCalm(s: Sys, call: nat, o: Outcome, id: Id)
    requires Enabled(s, CancelInvalidate(call, o))
    ensures Calm(s, Apply(s, CancelInvalidate(call, o)), id)
  {
    hide CalmMessages, CalmCalls;
    var s' := Apply(s, CancelInvalidate(call, o));
    SameCalm(s, s', id);
    OneCallCalm(s, s', id, call);
  }

  lemma CallDiesCalm(s: Sys, call: nat, id: Id)
    requires Enabled(s, CallDies(call))
    ensures Calm(s, Apply(s, CallDies(call)), id)
  {
    hide CalmCache, CalmMessages, CalmCalls;
    var s' := Apply(s, CallDies(call));
    SameCalm(s, s', id);
    OneCallCalm(s, s', id, call);
  }

  lemma BrokerCalm(s: Sys, tag: nat, w: nat, id: Id)
    ensures Enabled(s, Release(tag)) ==> Calm(s, Apply(s, Release(tag)), id)
    ensures Enabled(s, Deliver(tag, w)) ==> Calm(s, Apply(s, Deliver(tag, w)), id)
  {
    hide IsHead, Idle, CalmCache, CalmMessages, CalmCalls;
    if tag in s.msgs {
      var s1, s2 := Move(s, tag, InReady), Move(s, tag, Held(w, Reading(AtCache)));
      SameCalm(s, s1, id); SameCalm(s, s2, id);
      OneMessageCalm(s, s1, id, tag); OneMessageCalm(s, s2, id, tag);
    }
  }

  lemma AckCalm(s: Sys, tag: nat, id: Id)
    requires Enabled(s, Ack(tag))
    ensures Calm(s, Apply(s, Ack(tag)), id)
  {
  }

  lemma RedeliverCalm(s: Sys, tag: nat, id: Id)
    requires At(s, tag)
    ensures Calm(s, Redeliver(s, tag), id)
  {
    hide CalmCache, CalmMessages, CalmCalls, PhaseOf, Charged;
    var s' := Redeliver(s, tag);
    SameCalm(s, s', id);
    OneMessageCalm(s, s', id, tag);
  }

  lemma ReturnCalm(s: Sys, tag: nat, id: Id)
    ensures Enabled(s, Nack(tag)) ==> Calm(s, Apply(s, Nack(tag)), id)
    ensures Enabled(s, Crash(tag)) ==> Calm(s, Apply(s, Crash(tag)), id)
  {
    hide Calm, Redeliver;
    if At(s, tag) { RedeliverCalm(s, tag, id); }
  }

  lemma SendCalm(s: Sys, tag: nat, ok: bool, id: Id)
    requires Enabled(s, Send(tag, ok))
    ensures Calm(s, Apply(s, Send(tag, ok)), id)
  {
    hide CalmCache, CalmMessages, CalmCalls;
    SameCalm(s, Apply(s, Send(tag, ok)), id);
    OneMessageCalm(s, Apply(s, Send(tag, ok)), id, tag);
  }

  lemma UpdateCalm(s: Sys, tag: nat, o: Outcome, id: Id)
    requires Enabled(s, Update(tag, o))
    ensures Calm(s, Apply(s, Update(tag, o)), id)
  {
    UpdateFrame(s, tag, o);
    hide Apply, CalmCache, CalmMessages, CalmCalls;
    SameCalm(s, Apply(s, Update(tag, o)), id);
    OneMessageCalm(s, Apply(s, Update(tag, o)), id, tag);
  }

  lemma UpdateFrame(s: Sys, tag: nat, o: Outcome)
    requires Enabled(s, Update(tag, o))
    ensures var m, s' := s.msgs[tag], Apply(s, Update(tag, o));
      && s'.cache == s.cache && s'.calls == s.calls
      && var pc := if m.body.id in s.rows && o.Done? then Written else Nacking(false);
         s'.msgs == s.msgs[tag := m.(place := Held(m.place.worker, pc))]
  {
    hide Mappers.Rewritten;
  }

  lemma InvalidateCalm(s: Sys, tag: nat, o: Outcome, id: Id)
    requires Enabled(s, Invalidate(tag, o))
    ensures Calm(s, Apply(s, Invalidate(tag, o)), id)
  {
    hide CalmMessages, CalmCalls;
    SameCalm(s, Apply(s, Invalidate(tag, o)), id);
    OneMessageCalm(s, Apply(s, Invalidate(tag, o)), id, tag);
  }

  lemma RetryCalm(s: Sys, tag: nat, o: Outcome, id: Id)
    requires Enabled(s, PublishRetry(tag, o))
    ensures Calm(s, Apply(s, PublishRetry(tag, o)), id)
  {
    hide CalmCache, CalmMessages, CalmCalls, Delay.RetryTtl;
    SameCalm(s, Apply(s, PublishRetry(tag, o)), id);
    OneMessageCalm(s, Apply(s, PublishRetry(tag, o)), id, tag);
  }

  lemma StepCalm(s: Sys, step: Step, id: Id)
    requires Good(s) && IsQuiet(s, id) && id in s.rows && Enabled(s, step)
    ensures Calm(s, Apply(s, step), id)
  {
    hide Good, Calm, Enabled, Apply;
    match step
    case CallRead(call, ev) => CallReadCalm(s, call, ev, id);
    case WorkerRead(tag, ev) => WorkerReadCalm(s, tag, ev, id);
    case _ => OtherStepCalm(s, step, id);
  }

  /** Only reads can bring a scheduled view in, unless a creation is yet to fill the cache. */
  lemma OtherStepCalm(s: Sys, step: Step, id: Id)
    requires NoStaleReaders(s, id) && id in s.rows && Enabled(s, step) && !step.CallRead? && !step.WorkerRead?
    ensures Calm(s, Apply(s, step), id)
  {
    hide NoStaleReaders, Calm, Enabled, Apply;
    match step
    case Tick(dt) => TimeCalm(s, dt, 0, id);
    case Evict(i) => TimeCalm(s, 0, i, id);
    case Insert(call, i, req, v, o) => InsertCalm(s, call, i, req, v, o, id);
    case FillCreated(call, o) => FillCreatedCalm(s, call, o, id);
    case ComputeTtl(call) => PublishCalm(s, call, Done, id);
    case Publish(call, o) => PublishCalm(s, call, o, id);
    case BeginGet(call, i) => BeginCalm(s, call, i, id);
    case BeginCancel(call, i) => BeginCalm(s, call, i, id);
    case CancelWrite(call, o) => CancelWriteCalm(s, call, o, id);
    case CancelInvalidate(call, o) => CancelInvalidateCalm(s, call, o, id);
    case CallDies(call) => CallDiesCalm(s, call, id);
    case Release(tag) => BrokerCalm(s, tag, 0, id);
    case Deliver(tag, w) => BrokerCalm(s, tag, w, id);
    case Send(tag, ok) => SendCalm(s, tag, ok, id);
    case Update(tag, o) => UpdateCalm(s, tag, o, id);
    case Invalidate(tag, o) => InvalidateCalm(s, tag, o, id);
    case PublishRetry(tag, o) => RetryCalm(s, tag, o, id);
    case Ack(tag) => AckCalm(s, tag, id);
    case Nack(tag) => ReturnCalm(s, tag, id);
    case Crash(tag) => ReturnCalm(s, tag, id);
  }

  lemma CalmKeepsQuiet(s: Sys, s': Sys, id: Id)
    requires Grows(s, s') && IsQuiet(s, id) && Calm(s, s', id)
    ensures IsQuiet(s', id)
  {
    LeftGrows(s, s', id);
    assert s.now <= s'.now;
    hide Left, Grows;
    forall c | c in s'.calls ensures HarmlessCall(s'.calls[c], id) {
      if c in s.calls { assert HarmlessCall(s.calls[c], id); }
    }
  }

  lemma {:induction false} TotalFalls(msgs: map<nat, Message>, msgs': map<nat, Message>, n: nat, n': nat,
                                      w: Message -> int)
    requires n <= n' && forall t: nat | t < n' :: Weigh(msgs', t, w) <= if t < n then Weigh(msgs, t, w) else 0
    ensures Total(msgs', n', w) <= Total(msgs, n, w)
  {
    if n' > 0 {
      if n < n' { TotalFalls(msgs, msgs', n, n' - 1, w); } else { TotalFalls(msgs, msgs', n - 1, n' - 1, w); }
    }
  }

  /** Nothing gets past the check in a calm step, so the exposure can only fall. */
  lemma CalmExposure(s: Sys, s': Sys, id: Id)
    requires Calm(s, s', id) && TagsBelow(s) && s.next <= s'.next
    ensures Exposed(s', id) <= Exposed(s, id)
  {
    var w := PastCheck(id);
    forall t: nat | t < s'.next ensures Weigh(s'.msgs, t, w) <= if t < s.next then Weigh(s.msgs, t, w) else 0 {
      if t in s'.msgs && s'.msgs[t].body.id == id && !(t in s.msgs && s'.msgs[t] == s.msgs[t]) {
        assert CalmPlace(s, t, id, s'.msgs[t].place);
      }
    }
    TotalFalls(s.msgs, s'.msgs, s.next, s'.next, w);
  }

  /** A send uses up one of the workers past the check. */
  lemma SendExposure(s: Sys, tag: nat, ok: bool, id: Id)
    requires Good(s) && Enabled(s, Send(tag, ok)) && id in s.log
    ensures var s' := Apply(s, Send(tag, ok));
      id in s'.log && s'.log[id].Sends() + Exposed(s', id) == s.log[id].Sends() + Exposed(s, id)
  {
    hide Good, Total;
    assert tag < s.next by { GoodTags(s); }
    TotalChange(s.msgs, Apply(s, Send(tag, ok)).msgs, s.next, tag, PastCheck(id));
  }

  lemma OnlySendCounts(s: Sys, step: Step, s': Sys, id: Id)
    requires Shape(s, step, s') && !step.Send? && id in s.log
    ensures id in s'.log && s'.log[id].Sends() == s.log[id].Sends()
  {
  }

  lemma QuietStep(s: Sys, step: Step, id: Id)
    requires Good(s) && IsQuiet(s, id) && Enabled(s, step) && id in s.rows && id in s.log
    ensures var s' := Apply(s, step);
      && Good(s') && IsQuiet(s', id) && id in s'.rows && id in s'.log
      && s'.log[id].Sends() + Exposed(s', id) <= s.log[id].Sends() + Exposed(s, id)
  {
    hide Good, IsQuiet, Calm, Enabled, Apply, Shape, Exposed;
    GoodStep(s, step);
    StepCalm(s, step, id);
    CalmKeepsQuiet(s, Apply(s, step), id);
    if step.Send? { SendExposure(s, step.tag, step.ok, id); }
    else {
      GoodTags(s);
      CalmExposure(s, Apply(s, step), id);
      OnlySendCounts(s, step, Apply(s, step), id);
    }
  }

  /** From a quiet state on, however the run continues, at most the workers already past the check send again. */
  lemma {:induction false} QuietRun(s: Sys, steps: seq<Step>, id: Id)
    requires Good(s) && IsQuiet(s, id) && CanRun(s, steps) && id in s.rows && id in s.log
    ensures var s' := Run(s, steps);
      && Good(s') && IsQuiet(s', id) && id in s'.log
      && s'.log[id].Sends() + Exposed(s', id) <= s.log[id].Sends() + Exposed(s, id)
    decreases |steps|
  {
    hide Good, IsQuiet, Enabled, Apply, Exposed;
    if steps != [] {
      QuietStep(s, steps[0], id);
      QuietRun(Apply(s, steps[0]), steps[1..], id);
    }
  }

  /** What a worker's invalidation leaves: the row has left scheduled, readers are as they were, and the cache
      shows the old value exactly if it did before and the invalidation was lost. */
  lemma InvalidateEffect(s: Sys, tag: nat, o: Outcome)
    requires Enabled(s, Invalidate(tag, o)) && Left(s, s.msgs[tag].body.id)
    ensures var s', id := Apply(s, Invalidate(tag, o)), s.msgs[tag].body.id;
      && Left(s', id)
      && (NoStaleReaders(s', id) <==> NoStaleReaders(s, id))
      && (StaleCache(s', id) <==> !Applied(o) && StaleCache(s, id))
  {
    var s', id := Apply(s, Invalidate(tag, o)), s.msgs[tag].body.id;
    assert NoStaleReaders(s', id) <==> NoStaleReaders(s, id) by {
      assert s'.calls == s.calls;
      forall t | t in s.msgs
        ensures t in s'.msgs && s'.msgs[t].body == s.msgs[t].body && (t != tag ==> s'.msgs[t] == s.msgs[t])
      {
      }
    }
  }

  lemma CancelEffect(s: Sys, call: nat, o: Outcome)
    requires Enabled(s, CancelInvalidate(call, o)) && Left(s, s.calls[call].id)
    ensures var s', id := Apply(s, CancelInvalidate(call, o)), s.calls[call].id;
      && Left(s', id)
      && (NoStaleReaders(s', id) <==> NoStaleReaders(s, id))
      && (StaleCache(s', id) <==> !Applied(o) && StaleCache(s, id))
  {
    var s', id := Apply(s, CancelInvalidate(call, o)), s.calls[call].id;
    assert s'.msgs == s.msgs;
    forall c | c in s.calls
      ensures HarmlessCall(s.calls[c], id) <==> (c in s'.calls ==> HarmlessCall(s'.calls[c], id))
    {
    }
  }

  /** A worker's invalidation makes the row quiet exactly if it reached the cache, or the cache did not show the old
      value, and no reader still carries it. */
  lemma QuietAfterInvalidateIff(s: Sys, tag: nat, o: Outcome)
    requires Good(s) && Enabled(s, Invalidate(tag, o))
    ensures var id := s.msgs[tag].body.id;
      IsQuiet(Apply(s, Invalidate(tag, o)), id) <==> (Applied(o) || !StaleCache(s, id)) && NoStaleReaders(s, id)
  {
    hide Good, IsQuiet, Left, NoStaleReaders, StaleCache;
    GoodMessage(s, tag);
    InvalidateEffect(s, tag, o);
    QuietMeans(Apply(s, Invalidate(tag, o)), s.msgs[tag].body.id);
  }

  /** The same for a cancel, whose row has always left scheduled by then. */
  lemma QuietAfterCancelIff(s: Sys, call: nat, o: Outcome)
    requires Enabled(s, CancelInvalidate(call, o)) && Left(s, s.calls[call].id)
    ensures var id := s.calls[call].id;
      IsQuiet(Apply(s, CancelInvalidate(call, o)), id) <==> (Applied(o) || !StaleCache(s, id)) && NoStaleReaders(s, id)
  {
    hide IsQuiet, Left, NoStaleReaders, StaleCache;
    CancelEffect(s, call, o);
    QuietMeans(Apply(s, CancelInvalidate(call, o)), s.calls[call].id);
  }

  lemma CalmKeepsReaders(s: Sys, s': Sys, id: Id)
    requires NoStaleReaders(s, id) && Calm(s, s', id)
    ensures NoStaleReaders(s', id)
  {
    forall c | c in s'.calls ensures HarmlessCall(s'.calls[c], id) {
      if c in s.calls { assert HarmlessCall(s.calls[c], id); }
    }
  }

  /** A calm step other than a send: readers stay fresh, exposure does not grow, nothing is sent. */
  lemma CalmStep(s: Sys, step: Step, id: Id)
    requires Good(s) && Enabled(s, step) && Calm(s, Apply(s, step), id)
    requires NoStaleReaders(s, id) && !step.Send? && id in s.log
    ensures var s' := Apply(s, step);
      && Good(s') && NoStaleReaders(s', id) && Exposed(s', id) <= Exposed(s, id)
      && id in s'.log && s'.log[id].Sends() == s.log[id].Sends()
  {
    hide Good, Calm, Enabled, Apply, Shape, Exposed, NoStaleReaders;
    GoodStep(s, step);
    GoodTags(s);
    CalmKeepsReaders(s, Apply(s, step), id);
    CalmExposure(s, Apply(s, step), id);
    OnlySendCounts(s, step, Apply(s, step), id);
  }

  /** The two steps of a worker's terminal update, done and invalidated, leave the row quiet. */
  lemma UpdateQuiets(s: Sys, tag: nat)
    requires Good(s) && Enabled(s, Update(tag, Done)) && NoStaleReaders(s, s.msgs[tag].body.id)
    requires Enabled(Apply(s, Update(tag, Done)), Invalidate(tag, Done))
    ensures var s', id := Apply(Apply(s, Update(tag, Done)), Invalidate(tag, Done)), s.msgs[tag].body.id;
      && Good(s') && IsQuiet(s', id) && id in s.log && id in s'.log && id in s'.rows
      && s'.log[id].Sends() == s.log[id].Sends() && Exposed(s', id) <= Exposed(s, id)
  {
    hide Good, Calm, Exposed, NoStaleReaders, IsQuiet;
    var id := s.msgs[tag].body.id;
    var s1 := Apply(s, Update(tag, Done));
    assert s1.msgs[tag].body.id == id;
    GoodMessage(s, tag);
    hide Enabled, Apply;
    UpdateCalm(s, tag, Done, id);
    CalmStep(s, Update(tag, Done), id);
    InvalidateCalm(s1, tag, Done, id);
    CalmStep(s1, Invalidate(tag, Done), id);
    QuietAfterInvalidateIff(s1, tag, Done);
    GoodRow(Apply(s1, Invalidate(tag, Done)), id);
  }

  lemma GoodRow(s: Sys, id: Id)
    requires Good(s) && id in s.log
    ensures id in s.rows
  {
    hide Fresh, Prefetch, AllCounted;
    KeysOf(s);
  }

  lemma CancelQuiets(s: Sys, s1: Sys, s2: Sys, call: nat, id: Id)
    requires call in s.calls && s.calls[call] == CancelChecked(id) && id in s.log
    requires Good(s) && Enabled(s, CancelWrite(call, Done)) && s1 == Apply(s, CancelWrite(call, Done))
    requires Enabled(s1, CancelInvalidate(call, Done)) && s2 == Apply(s1, CancelInvalidate(call, Done))
    requires NoStaleReaders(s, id)
    ensures Good(s2) && IsQuiet(s2, id) && id in s2.log && id in s2.rows
    ensures s2.log[id].Sends() == s.log[id].Sends() && Exposed(s2, id) <= Exposed(s, id)
  {
    hide Good, Calm, Exposed, NoStaleReaders, IsQuiet;
    assert s1.calls[call] == CancelWritten(id);
    hide Enabled, Apply;
    CancelWriteCalm(s, call, Done, id);
    CalmStep(s, CancelWrite(call, Done), id);
    CancelInvalidateCalm(s1, call, Done, id);
    CalmStep(s1, CancelInvalidate(call, Done), id);
    assert Left(s1, id) by { GoodCall(s1, call); }
    QuietAfterCancelIff(s1, call, Done);
    GoodRow(s2, id);
  }

  lemma QuietMeans(s: Sys, id: Id)
    ensures IsQuiet(s, id) <==> Left(s, id) && !StaleCache(s, id) && NoStaleReaders(s, id)
  {
  }

  /** With a live scheduled entry in the cache a free worker takes a ready message past the check. */
  lemma LateCheck(s: Sys, tag: nat, worker: nat)
    requires tag in s.msgs && s.msgs[tag].place.InReady? && worker < s.workers && Idle(s, worker)
    requires s.msgs[tag].body.id in s.log && s.msgs[tag].body.id in s.hist
    requires StaleCache(s, s.msgs[tag].body.id)
    ensures Enabled(s, Deliver(tag, worker))
    ensures var s1 := Apply(s, Deliver(tag, worker));
      && Enabled(s1, WorkerRead(tag, Hit))
      && var s2 := Apply(s1, WorkerRead(tag, Hit)); var id := s.msgs[tag].body.id;
         Enabled(s2, Send(tag, true)) && s2.log == s.log && id in s.log && s2.msgs[tag].body.id == id
  {
    DeliverIs(s, tag, worker);
    hide Idle;
    HitIs(s.(msgs := s.msgs[tag := s.msgs[tag].(place := Held(worker, Reading(AtCache)))]), tag);
  }

  lemma DeliverIs(s: Sys, tag: nat, worker: nat)
    requires tag in s.msgs && s.msgs[tag].place.InReady? && worker < s.workers && Idle(s, worker)
    ensures Enabled(s, Deliver(tag, worker))
    ensures Apply(s, Deliver(tag, worker))
         == s.(msgs := s.msgs[tag := s.msgs[tag].(place := Held(worker, Reading(AtCache)))])
  {
    hide Idle;
  }

  lemma HitIs(s: Sys, tag: nat)
    requires At(s, tag) && s.msgs[tag].place.pc == Reading(AtCache) && StaleCache(s, s.msgs[tag].body.id)
    ensures Enabled(s, WorkerRead(tag, Hit))
    ensures var s' := Apply(s, WorkerRead(tag, Hit));
      Enabled(s', Send(tag, true)) && s'.log == s.log && s'.msgs[tag].body == s.msgs[tag].body
  {
  }

  lemma LateSend(s: Sys, tag: nat, worker: nat)
    requires Good(s) && tag in s.msgs && s.msgs[tag].place.InReady? && worker < s.workers && Idle(s, worker)
    requires StaleCache(s, s.msgs[tag].body.id)
    ensures var steps := [Deliver(tag, worker), WorkerRead(tag, Hit), Send(tag, true)]; var id := s.msgs[tag].body.id;
      && CanRun(s, steps) && id in s.log && id in Run(s, steps).log
      && Run(s, steps).log[id].Sends() == s.log[id].Sends() + 1
  {
    hide Good, Idle, Run, CanRun, StaleCache;
    assert s.msgs[tag].body.id in s.log && s.msgs[tag].body.id in s.hist by { GoodMessage(s, tag); }
    LateCheck(s, tag, worker);
    hide Enabled, Apply;
    var s1 := Apply(s, Deliver(tag, worker));
    var s2 := Apply(s1, WorkerRead(tag, Hit));
    var s3 := Apply(s2, Send(tag, true));
    OneMoreSend(s2, tag);
    assert CanRun(s3, []) && Run(s3, []) == s3 by { RunNone(s3); }
    assert [Send(tag, true)] + [] == [Send(tag, true)];
    RunCons(s2, Send(tag, true), []);
    assert [WorkerRead(tag, Hit)] + [Send(tag, true)] == [WorkerRead(tag, Hit), Send(tag, true)];
    RunCons(s1, WorkerRead(tag, Hit), [Send(tag, true)]);
    assert [Deliver(tag, worker)] + [WorkerRead(tag, Hit), Send(tag, true)]
        == [Deliver(tag, worker), WorkerRead(tag, Hit), Send(tag, true)];
    RunCons(s, Deliver(tag, worker), [WorkerRead(tag, Hit), Send(tag, true)]);
  }

  lemma OneMoreSend(s: Sys, tag: nat)
    requires Enabled(s, Send(tag, true))
    ensures var s', id := Apply(s, Send(tag, true)), s.msgs[tag].body.id;
      id in s.log && id in s'.log && s'.log[id].Sends() == s.log[id].Sends() + 1
  {
  }
}
