/** What every reachable state satisfies: histories, message shape, truthfulness of statuses, timing. All of it
    is preserved when a state merely grows, so a step need only re-establish what it touches. */
module Invariant {
  import opened Domain
  import Delay
  import opened Protocol

  /** The value every row starts with. */
  ghost predicate Original(id: Id, n: Notification) {
    n.id == id && n.status == Scheduled && n.attempts == 0 && n.sentAt.None? && WellFormed(n)
  }

  /** A later version differs from the original only in status, attempts and the two stamps. */
  ghost predicate SameContent(n: Notification, m: Notification) {
    n == m.(status := n.status, attempts := n.attempts, sentAt := n.sentAt, updatedAt := n.updatedAt)
  }

  /** A column holds one of these times, cut to whole microseconds. */
  ghost predicate Stamps(times: set<Time>, stamp: Time) {
    exists u :: u in times && stamp == u - u % 1000
  }

  /** A later version records a result, or is the one before it with status cancelled. */
  ghost predicate Follows(m: Notification, n: Notification) {
    n.status in {Sent, Failed} || n == m.(status := Cancelled, updatedAt := n.updatedAt)
  }

  ghost predicate Successive(h: seq<Version>, i: int) {
    0 <= i < |h| - 1 ==> Follows(h[i].row, h[i+1].row)
  }

  /** A terminal status tells the truth about the sends made so far. */
  ghost predicate Truthful(l: Ledger, n: Notification) {
    && 0 <= n.attempts <= MAX_RETRIES
    && n.attempts <= l.failed
    && (n.status == Failed ==> n.attempts == MAX_RETRIES && n.sentAt.None?)
    && (n.status == Sent ==> n.attempts < MAX_RETRIES && n.sentAt.Some?)
    && (n.sentAt.Some? ==> l.delivered >= 1 && Stamps(l.times, n.sentAt.value))
  }

  ghost predicate HistoryOk(id: Id, h: seq<Version>, l: Ledger, now: Time) {
    && |h| > 0
    && Original(id, h[0].row)
    && (forall i | 0 < i < |h| :: h[i].row.status != Scheduled)
    && (forall i | 0 <= i < |h| :: SameContent(h[i].row, h[0].row) && Truthful(l, h[i].row) && h[i].since <= now)
    && (forall i, j | 0 <= i < j < |h| :: h[i].since <= h[j].since)
    && (forall i :: Successive(h, i))
  }

  /** v was the value of the row at time t. */
  ghost predicate HeldAt(h: seq<Version>, v: Notification, t: Time) {
    exists i | 0 <= i < |h| :: HeldIn(h, i, v, t)
  }

  ghost predicate HeldIn(h: seq<Version>, i: nat, v: Notification, t: Time)
    requires i < |h|
  {
    h[i].row == v && h[i].since <= t && (i + 1 < |h| ==> t <= h[i+1].since)
  }

  ghost predicate ValueOk(s: Sys, id: Id, v: Notification, t: Time) {
    id in s.hist && v.id == id && t <= s.now && HeldAt(s.hist[id], v, t)
  }

  ghost predicate RowOk(s: Sys, id: Id)
    requires Keys(s) && id in s.rows
  {
    && HistoryOk(id, s.hist[id], s.log[id], s.now)
    && s.rows[id] == s.hist[id][|s.hist[id]|-1].row
  }

  ghost predicate CacheOk(s: Sys, id: Id)
    requires id in s.cache
  {
    && id in s.fetched
    && ValueOk(s, id, s.cache[id].value, s.fetched[id])
    && s.fetched[id] + CACHE_TTL <= s.cache[id].expiresAt <= s.now + CACHE_TTL
  }

  ghost predicate ReadOk(s: Sys, id: Id, pc: ReadPc) {
    pc.AtFill? ==> ValueOk(s, id, pc.value, pc.readAt)
  }

  /** The row has left status scheduled. */
  ghost predicate Left(s: Sys, id: Id) {
    id in s.hist && |s.hist[id]| >= 2
  }

  ghost predicate Carries(s: Sys, b: Notification) {
    && b.id in s.hist && b.id in s.log && |s.hist[b.id]| > 0
    && b == s.hist[b.id][0].row.(attempts := b.attempts)
    && b.status == Scheduled
    && 0 <= b.attempts < MAX_RETRIES
    && b.attempts <= s.log[b.id].failed
    && s.log[b.id].published.Some?
  }

  /** Time t is late enough for a body with this many attempts. */
  ghost predicate Due(s: Sys, b: Notification, t: Time)
    requires b.id in s.log && s.log[b.id].published.Some? && b.attempts >= 0
  {
    && t > b.scheduledAt - MILLISECOND + Delay.RetryWait(b.attempts)
    && t >= s.log[b.id].published.value + Delay.RetryWait(b.attempts)
  }

  ghost predicate PcOk(s: Sys, b: Notification, pc: Pc)
    requires b.id in s.log
  {
    match pc
    case Reading(r) => ReadOk(s, b.id, r)
    case Checked => true
    case Accepted(n) =>
      n.sentAt.Some? && n == b.(status := Sent, sentAt := n.sentAt) && SentThen(s.log[b.id], n.sentAt.value)
    case Rejected(n) => n == MarkUnsent(b) && s.log[b.id].failed > b.attempts
    case Written => Left(s, b.id)
    case Acking(why) => why == Skipped || why == Finished ==> Left(s, b.id)
    case Nacking(_) => true
  }

  ghost predicate SentThen(l: Ledger, t: Time) { l.delivered >= 1 && t in l.times }

  ghost predicate MessageOk(s: Sys, m: Message) {
    && Carries(s, m.body)
    && match m.place
       case InWait(e) => Due(s, m.body, e)
       case InRetry(e) => Due(s, m.body, e)
       case InReady => Due(s, m.body, s.now)
       case Held(w, pc) => w < s.workers && Due(s, m.body, s.now) && PcOk(s, m.body, pc)
  }

  ghost predicate PendingOk(s: Sys, n: Notification) {
    n.id in s.hist && n.id in s.rows && |s.hist[n.id]| > 0 && n == s.hist[n.id][0].row
  }

  ghost predicate CallOk(s: Sys, c: Call) {
    match c
    case Creating(n, at) => PendingOk(s, n) && ValueOk(s, n.id, n, at)
    case Saved(n) => PendingOk(s, n)
    case Publishing(n, ttl) =>
      PendingOk(s, n) && (ttl <= Delay.MAX_TTL ==> s.now + ttl * MILLISECOND > n.scheduledAt - MILLISECOND)
    case Getting(id, r) => ReadOk(s, id, r)
    case Cancelling(id, r) => ReadOk(s, id, r)
    case CancelChecked(_) => true
    case CancelWritten(id) => Left(s, id)
  }

  ghost predicate Keys(s: Sys) {
    s.rows.Keys == s.hist.Keys == s.log.Keys
  }

  ghost predicate RowsOk(s: Sys) { Keys(s) && forall id | id in s.rows :: RowOk(s, id) }

  ghost predicate CachesOk(s: Sys) { forall id | id in s.cache :: CacheOk(s, id) }

  ghost predicate MessagesOk(s: Sys) { forall t | t in s.msgs :: t < s.next && MessageOk(s, s.msgs[t]) }

  ghost predicate CallsOk(s: Sys) { forall c | c in s.calls :: CallOk(s, s.calls[c]) }

  ghost predicate Inv(s: Sys) {
    RowsOk(s) && CachesOk(s) && MessagesOk(s) && CallsOk(s)
  }

  // ---- growth --------------------------------------------------------------------------------

  ghost predicate LedgerGrows(l: Ledger, l': Ledger) {
    && l.delivered <= l'.delivered && l.failed <= l'.failed && l.times <= l'.times
    && (l.published.Some? ==> l'.published == l.published)
  }

  ghost predicate HistoryGrows(h: seq<Version>, h': seq<Version>, now: Time) {
    && |h| <= |h'|
    && (forall i | 0 <= i < |h| :: h'[i] == h[i])
    && (forall i | |h| <= i < |h'| :: h'[i].since >= now)
  }

  /** Everything recorded stays recorded; time does not run backwards. */
  ghost predicate Grows(s: Sys, s': Sys) {
    && s'.workers == s.workers && s.now <= s'.now && s.next <= s'.next
    && s.rows.Keys <= s'.rows.Keys
    && s.log.Keys <= s'.log.Keys && (forall id | id in s.log :: LedgerGrows(s.log[id], s'.log[id]))
    && s.hist.Keys <= s'.hist.Keys && (forall id | id in s.hist :: HistoryGrows(s.hist[id], s'.hist[id], s.now))
    && s.abandoned <= s'.abandoned && s.unpublished <= s'.unpublished
  }

  lemma NowGrows(s: Sys, s': Sys)
    requires Grows(s, s')
    ensures s.now <= s'.now
  {
  }

  lemma ValueGrows(s: Sys, s': Sys, id: Id, v: Notification, t: Time)
    requires Grows(s, s') && ValueOk(s, id, v, t)
    ensures ValueOk(s', id, v, t)
  {
    var h, h' := s.hist[id], s'.hist[id];
    assert HistoryGrows(h, h', s.now);
    var i :| 0 <= i < |h| && HeldIn(h, i, v, t);
    assert h'[i] == h[i];
    assert HeldIn(h', i, v, t);
  }

  lemma ReadGrows(s: Sys, s': Sys, id: Id, pc: ReadPc)
    requires Grows(s, s') && ReadOk(s, id, pc)
    ensures ReadOk(s', id, pc)
  {
    if pc.AtFill? { ValueGrows(s, s', id, pc.value, pc.readAt); }
  }

  lemma LeftGrows(s: Sys, s': Sys, id: Id)
    requires Grows(s, s') && Left(s, id)
    ensures Left(s', id)
  {
    assert HistoryGrows(s.hist[id], s'.hist[id], s.now);
  }

  lemma CarriesGrows(s: Sys, s': Sys, b: Notification)
    requires Grows(s, s') && Carries(s, b)
    ensures Carries(s', b) && s'.log[b.id].published == s.log[b.id].published
  {
    assert HistoryGrows(s.hist[b.id], s'.hist[b.id], s.now);
    assert LedgerGrows(s.log[b.id], s'.log[b.id]);
    assert s'.hist[b.id][0] == s.hist[b.id][0];
  }

  lemma PcGrows(s: Sys, s': Sys, b: Notification, pc: Pc)
    requires Grows(s, s') && Carries(s, b) && PcOk(s, b, pc)
    ensures b.id in s'.log && PcOk(s', b, pc)
  {
    assert LedgerGrows(s.log[b.id], s'.log[b.id]);
    match pc
    case Reading(r) => ReadGrows(s, s', b.id, r);
    case Written => LeftGrows(s, s', b.id);
    case Acking(why) => if why == Skipped || why == Finished { LeftGrows(s, s', b.id); }
    case _ =>
  }

  lemma MessageGrows(s: Sys, s': Sys, m: Message)
    requires Grows(s, s') && MessageOk(s, m)
    ensures MessageOk(s', m)
  {
    CarriesGrows(s, s', m.body);
    if m.place.Held? { PcGrows(s, s', m.body, m.place.pc); }
  }

  lemma CallGrows(s: Sys, s': Sys, c: Call)
    requires Grows(s, s') && CallOk(s, c)
    ensures CallOk(s', c)
  {
    match c
    case Creating(n, at) => PendingGrows(s, s', n); ValueGrows(s, s', n.id, n, at);
    case Saved(n) => PendingGrows(s, s', n);
    case Publishing(n, _) => PendingGrows(s, s', n);
    case Getting(id, r) => ReadGrows(s, s', id, r);
    case Cancelling(id, r) => ReadGrows(s, s', id, r);
    case CancelChecked(_) =>
    case CancelWritten(id) => LeftGrows(s, s', id);
  }

  lemma PendingGrows(s: Sys, s': Sys, n: Notification)
    requires Grows(s, s') && PendingOk(s, n)
    ensures PendingOk(s', n)
  {
    assert HistoryGrows(s.hist[n.id], s'.hist[n.id], s.now);
  }

  lemma HistoryOkGrows(id: Id, h: seq<Version>, l: Ledger, l': Ledger, now: Time, now': Time)
    requires HistoryOk(id, h, l, now) && LedgerGrows(l, l') && now <= now'
    ensures HistoryOk(id, h, l', now')
  {
    forall i | 0 <= i < |h| ensures Truthful(l', h[i].row) {
      assert Truthful(l, h[i].row);
      if h[i].row.sentAt.Some? { StampsGrow(l.times, l'.times, h[i].row.sentAt.value); }
    }
  }

  lemma StampsGrow(times: set<Time>, times': set<Time>, stamp: Time)
    requires Stamps(times, stamp) && times <= times'
    ensures Stamps(times', stamp)
  {
    var u :| u in times && stamp == u - u % 1000;
    assert u in times';
  }

  lemma CacheGrows(s: Sys, s': Sys, id: Id)
    requires Grows(s, s') && id in s.cache && CacheOk(s, id)
    requires id in s'.cache && s'.cache[id] == s.cache[id] && id in s'.fetched && s'.fetched[id] == s.fetched[id]
    ensures CacheOk(s', id)
  {
    ValueGrows(s, s', id, s.cache[id].value, s.fetched[id]);
  }

  // What a step leaves alone stays good, so a step need only account for what it touches.

  lemma KeepRows(s: Sys, s': Sys)
    requires RowsOk(s) && Grows(s, s') && s'.rows == s.rows && s'.hist == s.hist && s'.log.Keys == s.log.Keys
    ensures RowsOk(s')
  {
    forall id | id in s'.rows ensures RowOk(s', id) {
      assert RowOk(s, id);
      HistoryOkGrows(id, s.hist[id], s.log[id], s'.log[id], s.now, s'.now);
    }
  }

  lemma KeepCache(s: Sys, s': Sys)
    requires CachesOk(s) && Grows(s, s')
    requires forall id | id in s'.cache ::
      || CacheOk(s', id)
      || (&& id in s.cache && s'.cache[id] == s.cache[id]
          && id in s'.fetched && id in s.fetched && s'.fetched[id] == s.fetched[id])
    ensures CachesOk(s')
  {
    forall id | id in s'.cache ensures CacheOk(s', id) {
      if !CacheOk(s', id) { CacheGrows(s, s', id); }
    }
  }

  lemma KeepWholeCache(s: Sys, s': Sys)
    requires CachesOk(s) && Grows(s, s') && s'.cache == s.cache && s'.fetched == s.fetched
    ensures CachesOk(s')
  {
    forall id | id in s'.cache ensures CacheOk(s', id) { CacheGrows(s, s', id); }
  }

  lemma KeepMessages(s: Sys, s': Sys)
    requires MessagesOk(s) && Grows(s, s')
    requires forall t | t in s'.msgs ::
      (t < s'.next && MessageOk(s, s'.msgs[t])) || (t in s.msgs && s'.msgs[t] == s.msgs[t])
    ensures MessagesOk(s')
  {
    forall t | t in s'.msgs ensures t < s'.next && MessageOk(s', s'.msgs[t]) {
      MessageGrows(s, s', s'.msgs[t]);
    }
  }

  lemma MessagesGrow(s: Sys, s': Sys)
    requires MessagesOk(s) && Grows(s, s') && s'.msgs == s.msgs
    ensures MessagesOk(s')
  {
    forall t | t in s'.msgs ensures t < s'.next && MessageOk(s', s'.msgs[t]) { MessageGrows(s, s', s.msgs[t]); }
  }

  lemma CallsGrow(s: Sys, s': Sys)
    requires CallsOk(s) && Grows(s, s') && s'.calls == s.calls
    ensures CallsOk(s')
  {
    forall c | c in s'.calls ensures CallOk(s', s'.calls[c]) { CallGrows(s, s', s.calls[c]); }
  }

  lemma KeepCalls(s: Sys, s': Sys)
    requires CallsOk(s) && Grows(s, s')
    requires forall c | c in s'.calls :: CallOk(s, s'.calls[c]) || (c in s.calls && s'.calls[c] == s.calls[c])
    ensures CallsOk(s')
  {
    forall c | c in s'.calls ensures CallOk(s', s'.calls[c]) { CallGrows(s, s', s'.calls[c]); }
  }

  lemma KeepRecords(s: Sys, s': Sys)
    requires s'.workers == s.workers && s.now <= s'.now && s.next <= s'.next
    requires s'.rows == s.rows && s'.hist == s.hist && s'.log == s.log
    requires s.abandoned <= s'.abandoned && s.unpublished <= s'.unpublished
    ensures Grows(s, s')
  {
  }

  lemma GrowsTransitive(s: Sys, s': Sys, s'': Sys)
    requires Grows(s, s') && Grows(s', s'')
    ensures Grows(s, s'')
  {
    forall id | id in s.log ensures LedgerGrows(s.log[id], s''.log[id]) {
      assert LedgerGrows(s.log[id], s'.log[id]) && LedgerGrows(s'.log[id], s''.log[id]);
    }
    forall id | id in s.hist ensures HistoryGrows(s.hist[id], s''.hist[id], s.now) {
      assert HistoryGrows(s.hist[id], s'.hist[id], s.now) && HistoryGrows(s'.hist[id], s''.hist[id], s'.now);
    }
  }

  // The parts of the invariant, one at a time.

  lemma KeysOf(s: Sys)
    requires Inv(s)
    ensures Keys(s)
  {
  }

  lemma TheRow(s: Sys, id: Id)
    requires Inv(s) && id in s.rows
    ensures Keys(s) && RowOk(s, id)
  {
  }

  lemma TheEntry(s: Sys, id: Id)
    requires Inv(s) && id in s.cache
    ensures CacheOk(s, id)
  {
  }

  lemma TheMessage(s: Sys, tag: nat)
    requires Inv(s) && tag in s.msgs
    ensures tag < s.next && MessageOk(s, s.msgs[tag]) && s.msgs[tag].body.id in s.rows
  {
  }

  lemma TheCall(s: Sys, call: nat)
    requires Inv(s) && call in s.calls
    ensures CallOk(s, s.calls[call])
  {
  }
}
