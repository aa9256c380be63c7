/** Every step preserves the invariant. */
module InvariantSteps {
  import opened Domain
  import Mappers
  import Delay
  import opened Protocol
  import opened Invariant

  ghost predicate Preserves(s: Sys, step: Step)
    requires Enabled(s, step)
  {
    Inv(Apply(s, step)) && Grows(s, Apply(s, step))
  }

  lemma InitInv(workers: nat, now: Time)
    ensures Inv(Init(workers, now))
  {
  }

  // ---- reads ---------------------------------------------------------------------------------

  /** The current row is a value the row holds now. */
  lemma CurrentValue(s: Sys, id: Id)
    requires Inv(s) && id in s.rows
    ensures ValueOk(s, id, s.rows[id], s.now)
    ensures (s.rows[id].status == Scheduled) == (|s.hist[id]| == 1)
    ensures s.rows[id].id == id
  {
    TheRow(s, id);
    var h := s.hist[id];
    assert SameContent(h[|h|-1].row, h[0].row);
    assert HeldIn(h, |h| - 1, s.rows[id], s.now);
  }

  /** A read that does not see status scheduled, however stale, proves the row has left it for good. */
  lemma StaleButTerminal(s: Sys, id: Id, v: Notification, t: Time)
    requires Inv(s) && id in s.rows && ValueOk(s, id, v, t)
    ensures v.status != Scheduled ==> Left(s, id)
  {
    TheRow(s, id);
    var h := s.hist[id];
    var i :| 0 <= i < |h| && HeldIn(h, i, v, t);
  }

  lemma FillInv(s: Sys, n: Notification, readAt: Time, outcome: Outcome)
    requires Inv(s) && ValueOk(s, n.id, n, readAt)
    ensures var s' := FillCache(s, n, readAt, outcome); Inv(s') && Grows(s, s')
  {
    hide RowsOk, MessageOk, CallOk, Grows;
    var s' := FillCache(s, n, readAt, outcome);
    KeepRecords(s, s');
    if Applied(outcome) { ValueGrows(s, s', n.id, n, readAt); assert CacheOk(s', n.id); }
    hide CacheOk;
    KeepRows(s, s'); KeepCache(s, s'); KeepMessages(s, s'); KeepCalls(s, s');
  }

  lemma DropInv(s: Sys, id: Id, outcome: Outcome)
    requires Inv(s)
    ensures var s' := DropCache(s, id, outcome); Inv(s') && Grows(s, s')
  {
    hide RowsOk, MessageOk, CallOk, CacheOk, Grows;
    var s' := DropCache(s, id, outcome);
    KeepRecords(s, s');
    forall i | i in s'.cache ensures CacheOk(s', i) { TheEntry(s, i); CacheGrows(s, s', i); }
    KeepRows(s, s'); KeepCache(s, s'); KeepMessages(s, s'); KeepCalls(s, s');
  }

  /** What a read step does, for whoever performs it. */
  lemma ReadInv(s: Sys, id: Id, pc: ReadPc, ev: ReadEvent)
    requires Inv(s) && ReadEnabled(s, id, pc, ev) && ReadOk(s, id, pc)
    ensures var s' := ReadEffect(s, pc, ev); Inv(s') && Grows(s, s')
    ensures var r := ReadNext(s, id, pc, ev);
      && (r.Continue? ==> ReadOk(s, id, r.pc))
      && (r.Return? ==> exists t :: ValueOk(s, id, r.value, t))
  {
    KeepRecords(s, s);
    hide Inv, Grows;
    if ev.Fill? {
      FillInv(s, pc.value, pc.readAt, ev.outcome);
      assert ValueOk(s, id, pc.value, pc.readAt);
    }
    if ev.Hit? { TheEntry(s, id); assert ValueOk(s, id, s.cache[id].value, s.fetched[id]); }
    if ev.RowRead? { CurrentValue(s, id); }
  }

  // ---- rows ----------------------------------------------------------------------------------

  lemma HistoryAppend(id: Id, h: seq<Version>, l: Ledger, now: Time, row: Notification)
    requires HistoryOk(id, h, l, now)
    requires row.status != Scheduled && SameContent(row, h[0].row) && Truthful(l, row) && Follows(h[|h|-1].row, row)
    ensures HistoryOk(id, h + [Version(row, now)], l, now)
    ensures HistoryGrows(h, h + [Version(row, now)], now)
  {
    var h' := h + [Version(row, now)];
    forall i ensures Successive(h', i) { assert Successive(h, i); }
  }

  lemma OneRowChanges(s: Sys, s': Sys, id: Id)
    requires RowsOk(s) && Keys(s') && id in s'.rows && RowOk(s', id) && s'.now == s.now
    requires forall i | i in s'.rows && i != id ::
      i in s.rows && s'.rows[i] == s.rows[i] && s'.hist[i] == s.hist[i] && s'.log[i] == s.log[i]
    ensures RowsOk(s')
  {
    hide HistoryOk;
    forall i | i in s'.rows ensures RowOk(s', i) { if i != id { assert RowOk(s, i); } }
  }

  lemma OneRecordGrows(s: Sys, s': Sys, id: Id)
    requires s'.workers == s.workers && s.now == s'.now && s.next == s'.next
    requires s.abandoned == s'.abandoned && s.unpublished == s'.unpublished
    requires s.rows.Keys <= s'.rows.Keys && s.log.Keys <= s'.log.Keys && s.hist.Keys <= s'.hist.Keys
    requires forall i | i in s.hist && i != id :: s'.hist[i] == s.hist[i]
    requires forall i | i in s.log && i != id :: s'.log[i] == s.log[i]
    requires id in s.hist ==> HistoryGrows(s.hist[id], s'.hist[id], s.now)
    requires id in s.log ==> LedgerGrows(s.log[id], s'.log[id])
    ensures Grows(s, s')
  {
    forall i | i in s.hist ensures HistoryGrows(s.hist[i], s'.hist[i], s.now) { SameHistory(s.hist[i], s.now); }
    forall i | i in s.log ensures LedgerGrows(s.log[i], s'.log[i]) { SameLedger(s.log[i]); }
  }

  lemma SetRowInv(s: Sys, id: Id, row: Notification)
    requires Inv(s) && id in s.rows && id in s.hist && id in s.log && |s.hist[id]| > 0
    requires row.status != Scheduled && SameContent(row, s.hist[id][0].row) && Truthful(s.log[id], row)
    requires Follows(s.rows[id], row)
    ensures var s' := SetRow(s, id, row); Inv(s') && Grows(s, s') && Left(s', id)
  {
    hide RowsOk, CachesOk, MessagesOk, CallsOk, Grows, HistoryOk, HistoryGrows, SameContent, Truthful, Follows;
    var s' := SetRow(s, id, row);
    TheRow(s, id);
    HistoryAppend(id, s.hist[id], s.log[id], s.now, row);
    OneRecordGrows(s, s', id);
    OneRowChanges(s, s', id);
    KeepWholeCache(s, s');
    assert MessagesOk(s') by { hide RowOk; MessagesGrow(s, s'); }
    assert CallsOk(s') by { hide RowOk; CallsGrow(s, s'); }
  }

  lemma SameHistory(h: seq<Version>, now: Time)
    ensures HistoryGrows(h, h, now)
  {
  }

  lemma SameLedger(l: Ledger)
    ensures LedgerGrows(l, l)
  {
  }

  lemma RewriteContent(row: Notification, n: Notification, first: Notification, now: Time)
    requires SameContent(row, first)
    ensures SameContent(Mappers.Rewritten(row, n, now), first)
    ensures SameContent(Mappers.Withdrawn(row, now), first)
  {
  }

  // ---- the ledger, messages, calls -----------------------------------------------------------

  lemma LedgerInv(s: Sys, id: Id, l: Ledger)
    requires Inv(s) && id in s.log && LedgerGrows(s.log[id], l)
    ensures var s' := SetLedger(s, id, l); Inv(s') && Grows(s, s')
  {
    hide RowsOk, MessageOk, CallOk, CacheOk, HistoryGrows, LedgerGrows;
    var s' := SetLedger(s, id, l);
    assert Grows(s, s') by {
      forall i | i in s.hist ensures HistoryGrows(s.hist[i], s'.hist[i], s.now) { SameHistory(s.hist[i], s.now); }
      forall i | i in s.log ensures LedgerGrows(s.log[i], s'.log[i]) { SameLedger(s.log[i]); }
    }
    hide Grows;
    KeepRows(s, s'); KeepWholeCache(s, s'); KeepMessages(s, s'); KeepCalls(s, s');
  }

  lemma MoveInv(s: Sys, tag: nat, place: Place)
    requires Inv(s) && tag in s.msgs && MessageOk(s, s.msgs[tag].(place := place))
    ensures var s' := Move(s, tag, place); Inv(s') && Grows(s, s')
  {
    hide RowsOk, MessageOk, CallOk, CacheOk, Grows;
    var s' := Move(s, tag, place);
    KeepRecords(s, s');
    KeepRows(s, s'); KeepWholeCache(s, s'); KeepMessages(s, s'); KeepCalls(s, s');
  }

  lemma GotoInv(s: Sys, tag: nat, pc: Pc)
    requires Inv(s) && At(s, tag) && PcOk(s, s.msgs[tag].body, pc)
    ensures var s' := Goto(s, tag, pc); Inv(s') && Grows(s, s')
  {
    TheMessage(s, tag);
    hide Inv, Grows, Due, Carries, PcOk;
    MoveInv(s, tag, Held(s.msgs[tag].place.worker, pc));
  }

  lemma PostInv(s: Sys, m: Message)
    requires Inv(s) && MessageOk(s, m)
    ensures var s' := Post(s, m); Inv(s') && Grows(s, s')
  {
    hide RowsOk, MessageOk, CallOk, CacheOk, Grows;
    var s' := Post(s, m);
    KeepRecords(s, s');
    KeepRows(s, s'); KeepWholeCache(s, s'); KeepMessages(s, s'); KeepCalls(s, s');
  }

  lemma SetCallInv(s: Sys, call: nat, c: Call)
    requires Inv(s) && CallOk(s, c)
    ensures var s' := s.(calls := s.calls[call := c]); Inv(s') && Grows(s, s')
  {
    hide RowsOk, MessageOk, CallOk, CacheOk, Grows;
    var s' := s.(calls := s.calls[call := c]);
    KeepRecords(s, s');
    KeepRows(s, s'); KeepWholeCache(s, s'); KeepMessages(s, s'); KeepCalls(s, s');
  }

  lemma EndCallInv(s: Sys, call: nat)
    requires Inv(s)
    ensures var s' := EndCall(s, call); Inv(s') && Grows(s, s')
  {
    hide RowsOk, MessageOk, CallOk, CacheOk, Grows;
    var s' := EndCall(s, call);
    KeepRecords(s, s');
    KeepRows(s, s'); KeepWholeCache(s, s'); KeepMessages(s, s'); KeepCalls(s, s');
  }

  lemma BooksInv(s: Sys, unpublished: set<Id>, abandoned: set<Id>)
    requires Inv(s) && s.unpublished <= unpublished && s.abandoned <= abandoned
    ensures var s' := s.(unpublished := unpublished, abandoned := abandoned); Inv(s') && Grows(s, s')
  {
    hide RowsOk, MessageOk, CallOk, CacheOk, Grows;
    var s' := s.(unpublished := unpublished, abandoned := abandoned);
    KeepRecords(s, s');
    KeepRows(s, s'); KeepWholeCache(s, s'); KeepMessages(s, s'); KeepCalls(s, s');
  }

  lemma RedeliverInv(s: Sys, tag: nat)
    requires Inv(s) && At(s, tag)
    ensures Inv(Redeliver(s, tag)) && Grows(s, Redeliver(s, tag))
  {
    hide Inv, Grows, PhaseOf;
    TheMessage(s, tag);
    MoveInv(s, tag, InReady);
    hide MessageOk;
    var s1, id := Move(s, tag, InReady), s.msgs[tag].body.id;
    LedgerInv(s1, id, Charged(s.log[id], PhaseOf(s.msgs[tag].place)));
    GrowsTransitive(s, s1, Redeliver(s, tag));
  }

  // ---- the steps -----------------------------------------------------------------------------

  lemma NewRowInv(s: Sys, id: Id, row: Notification)
    requires Inv(s) && id !in s.rows && Original(id, row)
    ensures var s' := s.(rows := s.rows[id := row], hist := s.hist[id := [Version(row, s.now)]],
                         log := s.log[id := Ledger(0, 0, 0, 0, None, {})]);
      Inv(s') && Grows(s, s')
  {
    hide RowsOk, CachesOk, MessagesOk, CallsOk, Grows, HistoryGrows, LedgerGrows;
    assert Keys(s) by { KeysOf(s); }
    var s' := s.(rows := s.rows[id := row], hist := s.hist[id := [Version(row, s.now)]],
                 log := s.log[id := Ledger(0, 0, 0, 0, None, {})]);
    OneRecordGrows(s, s', id);
    assert RowOk(s', id);
    hide RowOk;
    OneRowChanges(s, s', id);
    KeepWholeCache(s, s'); MessagesGrow(s, s'); CallsGrow(s, s');
  }

  lemma InsertInv(s: Sys, call: nat, id: Id, req: Request, verdict: Verdict, outcome: Outcome)
    requires Inv(s) && Enabled(s, Insert(call, id, req, verdict, outcome))
    ensures Preserves(s, Insert(call, id, req, verdict, outcome))
  {
    hide Inv, Grows;
    KeepRecords(s, s);
    var draft := Draft(req, verdict, id, s.now).value;
    Mappers.SaveRoundTrip(id, draft, s.now);
    if !outcome.Refused? {
      var row := Mappers.Stored(id, draft, s.now);
      var s1 := s.(rows := s.rows[id := row], hist := s.hist[id := [Version(row, s.now)]],
                   log := s.log[id := Ledger(0, 0, 0, 0, None, {})]);
      NewRowInv(s, id, row);
      CurrentValue(s1, id);
      SetCallInv(s1, call, Creating(row, s.now));
      BooksInv(s1, s.unpublished + {id}, s.abandoned);
      GrowsTransitive(s, s1, Apply(s, Insert(call, id, req, verdict, outcome)));
    }
  }

  lemma FillCreatedInv(s: Sys, call: nat, outcome: Outcome)
    requires Inv(s) && Enabled(s, FillCreated(call, outcome))
    ensures Preserves(s, FillCreated(call, outcome))
  {
    hide Inv, Grows;
    KeepRecords(s, Apply(s, FillCreated(call, outcome)));
    var c := s.calls[call];
    TheCall(s, call);
    FillInv(s, c.n, c.insertedAt, outcome);
    SetCallInv(FillCache(s, c.n, c.insertedAt, outcome), call, Saved(c.n));
  }

  lemma ComputeTtlInv(s: Sys, call: nat)
    requires Inv(s) && Enabled(s, ComputeTtl(call))
    ensures Preserves(s, ComputeTtl(call))
  {
    hide Inv, Grows;
    KeepRecords(s, Apply(s, ComputeTtl(call)));
    var n := s.calls[call].n;
    TheCall(s, call);
    var ttl := Delay.PublishTtl(n.scheduledAt, s.now);
    if ttl <= Delay.MAX_TTL { Delay.PublishTtlBounds(n.scheduledAt, s.now); }
    SetCallInv(s, call, Publishing(n, ttl));
  }

  lemma PublishInv(s: Sys, call: nat, outcome: Outcome)
    requires Inv(s) && Enabled(s, Publish(call, outcome))
    requires s.log[s.calls[call].n.id].published.None?
    ensures Preserves(s, Publish(call, outcome))
  {
    hide Inv, Grows;
    var n, ttl := s.calls[call].n, s.calls[call].ttl;
    TheCall(s, call);
    TheRow(s, n.id);
    var s1 := s;
    KeepRecords(s, s);
    if Applied(outcome) {
      var l := s.log[n.id].(published := Some(s.now));
      LedgerInv(s, n.id, l);
      var s0 := SetLedger(s, n.id, l);
      PostInv(s0, Message(n, InWait(s.now + ttl * MILLISECOND)));
      s1 := Post(s0, Message(n, InWait(s.now + ttl * MILLISECOND)));
      GrowsTransitive(s, s0, s1);
    }
    BooksInv(s1, s1.unpublished + {n.id}, s1.abandoned);
    var s2 := if Applied(outcome) then s1 else s1.(unpublished := s.unpublished + {n.id});
    KeepRecords(s1, s2);
    EndCallInv(s2, call);
    GrowsTransitive(s1, s2, EndCall(s2, call));
    GrowsTransitive(s, s1, EndCall(s2, call));
  }

  lemma CallReadGrows(s: Sys, call: nat, ev: ReadEvent)
    requires Enabled(s, CallRead(call, ev))
    ensures Grows(s, Apply(s, CallRead(call, ev)))
  {
    hide Enabled, Apply, Grows, ReadEffect;
    CallReadFrame(s, call, ev);
    KeepRecords(s, Apply(s, CallRead(call, ev)));
  }

  lemma CallReadInv(s: Sys, call: nat, ev: ReadEvent)
    requires Inv(s) && Enabled(s, CallRead(call, ev))
    ensures Preserves(s, CallRead(call, ev))
  {
    hide Inv, Grows;
    CallReadFrame(s, call, ev);
    CallReadGrows(s, call, ev);
    var c := s.calls[call];
    TheCall(s, call);
    ReadInv(s, c.id, c.read, ev);
    var s1 := ReadEffect(s, c.read, ev);
    EndCallInv(s1, call);
    match ReadNext(s, c.id, c.read, ev)
    case Continue(pc) => ReadGrows(s, s1, c.id, pc); SetCallInv(s1, call, c.(read := pc));
    case Return(v) => SetCallInv(s1, call, CancelChecked(c.id));
    case Fail =>
  }

  lemma CancelWriteInv(s: Sys, call: nat, outcome: Outcome)
    requires Inv(s) && Enabled(s, CancelWrite(call, outcome))
    ensures Preserves(s, CancelWrite(call, outcome))
  {
    hide Inv, Grows;
    var id := s.calls[call].id;
    EndCallInv(s, call);
    if id in s.rows && Applied(outcome) {
      var row := Mappers.Withdrawn(s.rows[id], s.now);
      var h := s.hist[id];
      TheRow(s, id);
      assert Truthful(s.log[id], h[|h|-1].row) && SameContent(h[|h|-1].row, h[0].row);
      RewriteContent(s.rows[id], row, h[0].row, s.now);
      SetRowInv(s, id, row);
      var s1 := SetRow(s, id, row);
      SetCallInv(s1, call, CancelWritten(id));
      EndCallInv(s1, call);
      GrowsTransitive(s, s1, Apply(s, CancelWrite(call, outcome)));
    }
  }

  lemma CancelInvalidateInv(s: Sys, call: nat, outcome: Outcome)
    requires Inv(s) && Enabled(s, CancelInvalidate(call, outcome))
    ensures Preserves(s, CancelInvalidate(call, outcome))
  {
    hide Inv, Grows;
    KeepRecords(s, Apply(s, CancelInvalidate(call, outcome)));
    DropInv(s, s.calls[call].id, outcome);
    EndCallInv(DropCache(s, s.calls[call].id, outcome), call);
  }

  lemma CallDiesInv(s: Sys, call: nat)
    requires Inv(s) && Enabled(s, CallDies(call))
    ensures Preserves(s, CallDies(call))
  {
    hide Inv, Grows;
    var c := s.calls[call];
    EndCallInv(s, call);
    if c.Creating? || c.Saved? || c.Publishing? {
      var s1 := s.(unpublished := s.unpublished + {c.n.id});
      BooksInv(s, s.unpublished + {c.n.id}, s.abandoned);
      EndCallInv(s1, call);
      GrowsTransitive(s, s1, EndCall(s1, call));
    }
  }

  lemma TickInv(s: Sys, dt: nat)
    requires Inv(s)
    ensures Preserves(s, Tick(dt))
  {
    hide RowsOk, CachesOk, MessagesOk, CallsOk, Grows;
    var s' := s.(now := s.now + dt);
    KeepRecords(s, s');
    KeepRows(s, s'); KeepWholeCache(s, s'); MessagesGrow(s, s'); CallsGrow(s, s');
  }

  lemma ReleaseInv(s: Sys, tag: nat)
    requires Inv(s) && Enabled(s, Release(tag))
    ensures Preserves(s, Release(tag))
  {
    hide Inv, Grows, Carries, IsHead;
    TheMessage(s, tag);
    MoveInv(s, tag, InReady);
  }

  lemma DeliverInv(s: Sys, tag: nat, worker: nat)
    requires Inv(s) && Enabled(s, Deliver(tag, worker))
    ensures Preserves(s, Deliver(tag, worker))
  {
    hide Inv, Grows, Carries, Due, Idle;
    TheMessage(s, tag);
    assert s.msgs[tag].body.id in s.log by { TheRow(s, s.msgs[tag].body.id); }
    MoveInv(s, tag, Held(worker, Reading(AtCache)));
  }

  lemma WorkerReadInv(s: Sys, tag: nat, ev: ReadEvent)
    requires Inv(s) && Enabled(s, WorkerRead(tag, ev))
    ensures Preserves(s, WorkerRead(tag, ev))
  {
    hide Inv, Grows;
    KeepRecords(s, Apply(s, WorkerRead(tag, ev)));
    var b, pc := s.msgs[tag].body, s.msgs[tag].place.pc.read;
    TheMessage(s, tag);
    ReadInv(s, b.id, pc, ev);
    var s1 := ReadEffect(s, pc, ev);
    match ReadNext(s, b.id, pc, ev)
    case Continue(pc') => ReadGrows(s, s1, b.id, pc'); GotoInv(s1, tag, Reading(pc'));
    case Return(v) =>
      var t :| ValueOk(s, b.id, v, t);
      StaleButTerminal(s, b.id, v, t);
      GotoInv(s1, tag, if v.status == Scheduled then Checked else Acking(Skipped));
    case Fail => GotoInv(s1, tag, Acking(ReadFailed));
  }

  lemma SendInv(s: Sys, tag: nat, ok: bool)
    requires Inv(s) && Enabled(s, Send(tag, ok))
    ensures Preserves(s, Send(tag, ok))
  {
    hide Inv, Grows;
    var b := s.msgs[tag].body;
    var l := s.log[b.id];
    TheMessage(s, tag);
    var l' := if ok then Delivered(l, s.now) else l.(failed := l.failed + 1);
    LedgerInv(s, b.id, l');
    GotoInv(SetLedger(s, b.id, l'), tag, if ok then Accepted(MarkSent(b, s.now)) else Rejected(MarkUnsent(b)));
    GrowsTransitive(s, SetLedger(s, b.id, l'), Apply(s, Send(tag, ok)));
  }

  /** What the handler is about to write is terminal and true, and the int16 column holds it exactly. */
  lemma UpdateIsTruthful(s: Sys, m: Message)
    requires Keys(s) && m.body.id in s.rows && RowOk(s, m.body.id) && MessageOk(s, m)
    requires m.place.Held? && (m.place.pc.Accepted? || IsRejectedFinally(m.place.pc))
    ensures m.place.pc.n.id == m.body.id && Mappers.InInt16(m.place.pc.n.attempts)
    ensures var row := Mappers.Rewritten(s.rows[m.body.id], m.place.pc.n, s.now);
      && row.status != Scheduled && row.attempts == m.place.pc.n.attempts
      && Truthful(s.log[m.body.id], row) && SameContent(row, s.hist[m.body.id][0].row)
      && Follows(s.rows[m.body.id], row)
  {
    var n, l := m.place.pc.n, s.log[m.body.id];
    if n.sentAt.Some? { assert Stamps(l.times, n.sentAt.value - n.sentAt.value % 1000); }
    var h := s.hist[m.body.id];
    assert SameContent(h[|h|-1].row, h[0].row);
    RewriteContent(s.rows[m.body.id], m.place.pc.n, h[0].row, s.now);
  }

  lemma UpdateInv(s: Sys, tag: nat, outcome: Outcome)
    requires Inv(s) && Enabled(s, Update(tag, outcome))
    ensures Preserves(s, Update(tag, outcome))
  {
    hide Inv, Grows, MessageOk, Truthful, SameContent, Follows, Mappers.Rewritten, Left;
    var id, n := s.msgs[tag].body.id, s.msgs[tag].place.pc.n;
    TheMessage(s, tag);
    TheRow(s, id);
    UpdateIsTruthful(s, s.msgs[tag]);
    if outcome.Refused? { GotoInv(s, tag, Nacking(false)); }
    else {
      var row := Mappers.Rewritten(s.rows[id], n, s.now);
      SetRowInv(s, id, row);
      GotoInv(SetRow(s, id, row), tag, if outcome.Done? then Written else Nacking(false));
      GrowsTransitive(s, SetRow(s, id, row), Apply(s, Update(tag, outcome)));
    }
  }

  lemma InvalidateInv(s: Sys, tag: nat, outcome: Outcome)
    requires Inv(s) && Enabled(s, Invalidate(tag, outcome))
    ensures Preserves(s, Invalidate(tag, outcome))
  {
    hide Inv, Grows;
    KeepRecords(s, Apply(s, Invalidate(tag, outcome)));
    TheMessage(s, tag);
    var id := s.msgs[tag].body.id;
    assert Left(s, id);
    DropInv(s, id, outcome);
    var s1 := DropCache(s, id, outcome);
    assert Left(s1, id) && At(s1, tag);
    GotoInv(s1, tag, Acking(Finished));
  }

  /** The copy a retry publishes carries one more attempt and is due one backoff later. */
  lemma RetryCopyOk(s: Sys, m: Message)
    requires MessageOk(s, m) && m.place.Held? && m.place.pc.Rejected? && m.place.pc.n.attempts < MAX_RETRIES
    ensures var n := m.place.pc.n;
      n.attempts >= 1 && MessageOk(s, Message(n, InRetry(s.now + Delay.RetryTtl(n.attempts) * MILLISECOND)))
  {
    var b, n := m.body, m.place.pc.n;
    Delay.ReachableRetryTtl(n.attempts);
    assert Delay.RetryWait(n.attempts) == Delay.RetryWait(b.attempts) + 5 * Delay.Pow2(n.attempts) * SECOND;
  }

  lemma PublishRetryInv(s: Sys, tag: nat, outcome: Outcome)
    requires Inv(s) && Enabled(s, PublishRetry(tag, outcome))
    ensures Preserves(s, PublishRetry(tag, outcome))
  {
    hide Inv, Grows;
    var n := s.msgs[tag].place.pc.n;
    TheMessage(s, tag);
    RetryCopyOk(s, s.msgs[tag]);
    hide MessageOk;
    var pc := if outcome.Done? then Acking(Retried) else Nacking(Applied(outcome));
    GotoInv(s, tag, pc);
    var s1 := Goto(s, tag, pc);
    if Applied(outcome) {
      var m := Message(n, InRetry(s.now + Delay.RetryTtl(n.attempts) * MILLISECOND));
      MessageGrows(s, s1, m);
      PostInv(s1, m);
      GrowsTransitive(s, s1, Post(s1, m));
    }
  }

  lemma AckInv(s: Sys, tag: nat)
    requires Inv(s) && Enabled(s, Ack(tag))
    ensures Preserves(s, Ack(tag))
  {
    hide RowsOk, MessageOk, CallOk, CacheOk, Grows;
    var s' := Apply(s, Ack(tag));
    KeepRecords(s, s');
    KeepRows(s, s'); KeepWholeCache(s, s'); KeepMessages(s, s'); KeepCalls(s, s');
  }

  lemma BeginInv(s: Sys, call: nat, id: Id)
    requires Inv(s) && (Enabled(s, BeginGet(call, id)) || Enabled(s, BeginCancel(call, id)))
    ensures Preserves(s, BeginGet(call, id)) && Preserves(s, BeginCancel(call, id))
  {
    hide Inv, Grows;
    SetCallInv(s, call, Getting(id, AtCache));
    SetCallInv(s, call, Cancelling(id, AtCache));
  }

  lemma EvictInv(s: Sys, id: Id)
    requires Inv(s)
    ensures Preserves(s, Evict(id))
  {
    DropInv(s, id, Done);
  }

  lemma StepInv(s: Sys, step: Step)
    requires Inv(s) && Enabled(s, step)
    requires step.Publish? ==> s.log[s.calls[step.call].n.id].published.None?
    ensures Preserves(s, step)
  {
    hide Inv, Grows, Enabled, Apply, Preserves;
    match step
    case Tick(dt) => TickInv(s, dt);
    case Evict(id) => EvictInv(s, id);
    case Insert(call, id, req, v, o) => InsertInv(s, call, id, req, v, o);
    case FillCreated(call, o) => FillCreatedInv(s, call, o);
    case ComputeTtl(call) => ComputeTtlInv(s, call);
    case Publish(call, o) => PublishInv(s, call, o);
    case BeginGet(call, id) => BeginInv(s, call, id);
    case BeginCancel(call, id) => BeginInv(s, call, id);
    case CallRead(call, ev) => CallReadInv(s, call, ev);
    case CancelWrite(call, o) => CancelWriteInv(s, call, o);
    case CancelInvalidate(call, o) => CancelInvalidateInv(s, call, o);
    case CallDies(call) => CallDiesInv(s, call);
    case Release(tag) => ReleaseInv(s, tag);
    case Deliver(tag, w) => DeliverInv(s, tag, w);
    case WorkerRead(tag, ev) => WorkerReadInv(s, tag, ev);
    case Send(tag, ok) => SendInv(s, tag, ok);
    case Update(tag, o) => UpdateInv(s, tag, o);
    case Invalidate(tag, o) => InvalidateInv(s, tag, o);
    case PublishRetry(tag, o) => PublishRetryInv(s, tag, o);
    case Ack(tag) => AckInv(s, tag);
    case Nack(tag) => RedeliveryInv(s, tag);
    case Crash(tag) => RedeliveryInv(s, tag);
  }

  lemma RedeliveryInv(s: Sys, tag: nat)
    requires Inv(s) && (Enabled(s, Nack(tag)) || Enabled(s, Crash(tag)))
    ensures Enabled(s, Nack(tag)) ==> Preserves(s, Nack(tag))
    ensures Enabled(s, Crash(tag)) ==> Preserves(s, Crash(tag))
  {
    hide Inv, Grows;
    RedeliverInv(s, tag);
  }
}
