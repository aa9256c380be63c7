/** The delayed-delivery protocol as a state machine: one table, one cache, the broker's queues, a pool of
    workers and any number of API calls. Every foreign call is a step of its own, so steps of different
    processes interleave freely, and every write may be lost or left unconfirmed. */
module Protocol {
  import opened Domain
  import Mappers
  import Delay

  /** One value a row has held, and since when. */
  datatype Version = Version(row: Notification, since: Time)

  /** History of one notification: sends by result, redeliveries after a send, redeliveries after the broker had
      accepted a retry copy, the time the first message entered the wait queue, and the times of successful sends. */
  datatype Ledger = Ledger(
    delivered: nat,
    failed: nat,
    requeues: nat,
    duplicates: nat,
    published: Option<Time>,
    times: set<Time>)
  {
    function Sends(): nat { delivered + failed }
  }

  /** Inside GetByID of the cached repository. */
  datatype ReadPc = AtCache | AtPrimary | AtFill(value: Notification, readAt: Time)

  datatype ReadEvent = Hit | Miss | RowRead | ReadError | Fill(outcome: Outcome)

  datatype ReadResult = Continue(pc: ReadPc) | Return(value: Notification) | Fail

  datatype Why = Skipped | ReadFailed | Finished | Retried

  /** Where a worker is inside handleMessage. */
  datatype Pc =
    | Reading(read: ReadPc)           // in GetNotificationByID
    | Checked                         // saw status scheduled, about to send
    | Accepted(n: Notification)       // notifier accepted; about to write status sent
    | Rejected(n: Notification)       // send failed; about to retry, or to write status failed
    | Written                         // row written; about to invalidate the cache
    | Acking(why: Why)                // about to acknowledge
    | Nacking(duplicated: bool)       // about to nack with requeue; a retry copy may already exist

  datatype Place =
    | InWait(expiry: Time)
    | InRetry(expiry: Time)
    | InReady
    | Held(worker: nat, pc: Pc)       // delivered to a worker and not settled

  datatype Message = Message(body: Notification, place: Place)

  /** API calls that have started and not finished. */
  datatype Call =
    | Creating(n: Notification, insertedAt: Time)   // row inserted; about to fill the cache
    | Saved(n: Notification)                        // about to compute the TTL
    | Publishing(n: Notification, ttl: nat)         // about to publish
    | Getting(id: Id, read: ReadPc)
    | Cancelling(id: Id, read: ReadPc)
    | CancelChecked(id: Id)                         // saw status scheduled, about to write cancelled
    | CancelWritten(id: Id)                         // about to invalidate the cache

  /** Message tags grow with publication, so among messages of one delay queue the order of tags is FIFO order.
      `fetched`, `log`, `hist`, `unpublished` (rows whose message never reached the broker) and `abandoned` (rows
      with a message acknowledged because a read failed) only record history. */
  datatype Sys = Sys(
    workers: nat,
    now: Time,
    rows: map<Id, Notification>,
    cache: map<Id, Entry>,
    msgs: map<nat, Message>,
    next: nat,
    calls: map<nat, Call>,
    fetched: map<Id, Time>,
    log: map<Id, Ledger>,
    hist: map<Id, seq<Version>>,
    unpublished: set<Id>,
    abandoned: set<Id>)

  datatype Step =
    | Tick(dt: nat)
    | Evict(id: Id)
    | Insert(call: nat, id: Id, req: Request, verdict: Verdict, outcome: Outcome)
    | FillCreated(call: nat, outcome: Outcome)
    | ComputeTtl(call: nat)
    | Publish(call: nat, outcome: Outcome)
    | BeginGet(call: nat, id: Id)
    | BeginCancel(call: nat, id: Id)
    | CallRead(call: nat, event: ReadEvent)
    | CancelWrite(call: nat, outcome: Outcome)
    | CancelInvalidate(call: nat, outcome: Outcome)
    | CallDies(call: nat)
    | Release(tag: nat)
    | Deliver(tag: nat, worker: nat)
    | WorkerRead(tag: nat, event: ReadEvent)
    | Send(tag: nat, ok: bool)
    | Update(tag: nat, outcome: Outcome)
    | Invalidate(tag: nat, outcome: Outcome)
    | PublishRetry(tag: nat, outcome: Outcome)
    | Ack(tag: nat)
    | Nack(tag: nat)
    | Crash(tag: nat)

  function Init(workers: nat, now: Time): Sys {
    Sys(workers, now, map[], map[], map[], 0, map[], map[], map[], map[], {}, {})
  }

  /** In a delay queue. */
  predicate IsDelayed(p: Place) { p.InWait? || p.InRetry? }

  // ---- reading through the cache -------------------------------------------------------------

  predicate ReadEnabled(s: Sys, id: Id, pc: ReadPc, ev: ReadEvent) {
    match ev
    case Hit => pc.AtCache? && id in s.cache && s.now < s.cache[id].expiresAt
    case Miss => pc.AtCache?
    case RowRead => pc.AtPrimary? && id in s.rows
    case ReadError => pc.AtPrimary?
    case Fill(_) => pc.AtFill?
  }

  function ReadNext(s: Sys, id: Id, pc: ReadPc, ev: ReadEvent): ReadResult
    requires ReadEnabled(s, id, pc, ev)
  {
    match ev
    case Hit => Return(s.cache[id].value)
    case Miss => Continue(AtPrimary)
    case RowRead => Continue(AtFill(s.rows[id], s.now))
    case ReadError => Fail
    case Fill(_) => Return(pc.value)
  }

  function FillCache(s: Sys, n: Notification, readAt: Time, outcome: Outcome): Sys {
    if Applied(outcome)
    then s.(cache := s.cache[n.id := Entry(n, s.now + CACHE_TTL)], fetched := s.fetched[n.id := readAt])
    else s
  }

  function ReadEffect(s: Sys, pc: ReadPc, ev: ReadEvent): Sys {
    if ev.Fill? && pc.AtFill? then FillCache(s, pc.value, pc.readAt, ev.outcome) else s
  }

  function DropCache(s: Sys, id: Id, outcome: Outcome): Sys {
    if Applied(outcome) then s.(cache := s.cache - {id}) else s
  }

  // ---- rows, messages, calls -----------------------------------------------------------------

  /** A row takes a new value; its history grows by one version. */
  function SetRow(s: Sys, id: Id, row: Notification): Sys
    requires id in s.hist
  {
    s.(rows := s.rows[id := row], hist := s.hist[id := s.hist[id] + [Version(row, s.now)]])
  }

  function Move(s: Sys, tag: nat, place: Place): Sys
    requires tag in s.msgs
  {
    s.(msgs := s.msgs[tag := s.msgs[tag].(place := place)])
  }

  function Goto(s: Sys, tag: nat, pc: Pc): Sys
    requires tag in s.msgs && s.msgs[tag].place.Held?
  {
    Move(s, tag, Held(s.msgs[tag].place.worker, pc))
  }

  function Post(s: Sys, m: Message): Sys {
    s.(msgs := s.msgs[s.next := m], next := s.next + 1)
  }

  function EndCall(s: Sys, call: nat): Sys {
    s.(calls := s.calls - {call})
  }

  function SetLedger(s: Sys, id: Id, l: Ledger): Sys {
    s.(log := s.log[id := l])
  }

  predicate At(s: Sys, tag: nat) {
    tag in s.msgs && s.msgs[tag].place.Held? && s.msgs[tag].body.id in s.log && s.msgs[tag].body.id in s.hist
  }

  /** How far the handling of a message has gone, for the bookkeeping of redeliveries. */
  datatype Phase = BeforeSend | AfterSend | AfterRetry

  function PhaseOf(p: Place): Phase {
    match p
    case Held(_, Accepted(_)) => AfterSend
    case Held(_, Rejected(_)) => AfterSend
    case Held(_, Written) => AfterSend
    case Held(_, Acking(Finished)) => AfterSend
    case Held(_, Acking(Retried)) => AfterRetry
    case Held(_, Nacking(dup)) => if dup then AfterRetry else AfterSend
    case _ => BeforeSend
  }

  /** What a redelivery costs, by how far the handling had gone. */
  function Charged(l: Ledger, phase: Phase): Ledger {
    match phase
    case BeforeSend => l
    case AfterSend => l.(requeues := l.requeues + 1)
    case AfterRetry => l.(duplicates := l.duplicates + 1)
  }

  /** Back to the ready queue with the original body: whatever the handler changed in memory is lost. */
  function Redeliver(s: Sys, tag: nat): Sys
    requires At(s, tag)
  {
    var id := s.msgs[tag].body.id;
    SetLedger(Move(s, tag, InReady), id, Charged(s.log[id], PhaseOf(s.msgs[tag].place)))
  }

  /** A delay queue releases only its head, and only when the head has expired. */
  predicate IsHead(s: Sys, tag: nat)
    requires tag in s.msgs
  {
    && (s.msgs[tag].place.InWait? ==> forall t | t in s.msgs && t < tag :: !s.msgs[t].place.InWait?)
    && (s.msgs[tag].place.InRetry? ==> forall t | t in s.msgs && t < tag :: !s.msgs[t].place.InRetry?)
  }

  predicate Idle(s: Sys, worker: nat) {
    forall t | t in s.msgs :: s.msgs[t].place.Held? ==> s.msgs[t].place.worker != worker
  }

  predicate IsRejectedFinally(pc: Pc) { pc.Rejected? && pc.n.attempts >= MAX_RETRIES }

  // ---- steps ---------------------------------------------------------------------------------

  predicate CallAt(s: Sys, call: nat) {
    call in s.calls
  }

  predicate Enabled(s: Sys, step: Step) {
    match step
    case Tick(_) => true
    case Evict(_) => true
    case Insert(call, id, req, verdict, _) =>
      && !CallAt(s, call) && id !in s.rows && Sane(req, verdict) && Draft(req, verdict, id, s.now).Ok?
    case FillCreated(call, _) => CallAt(s, call) && s.calls[call].Creating?
    case ComputeTtl(call) => CallAt(s, call) && s.calls[call].Saved?
    case Publish(call, outcome) =>
      && CallAt(s, call) && s.calls[call].Publishing? && s.calls[call].n.id in s.log
      && (Applied(outcome) ==> s.calls[call].ttl <= Delay.MAX_TTL)
    case BeginGet(call, _) => !CallAt(s, call)
    case BeginCancel(call, _) => !CallAt(s, call)
    case CallRead(call, ev) =>
      && CallAt(s, call) && (s.calls[call].Getting? || s.calls[call].Cancelling?)
      && ReadEnabled(s, s.calls[call].id, s.calls[call].read, ev)
    case CancelWrite(call, _) =>
      && CallAt(s, call) && s.calls[call].CancelChecked?
      && (s.calls[call].id in s.rows ==> s.calls[call].id in s.hist)
    case CancelInvalidate(call, _) => CallAt(s, call) && s.calls[call].CancelWritten?
    case CallDies(call) => CallAt(s, call)
    case Release(tag) =>
      && tag in s.msgs && (s.msgs[tag].place.InWait? || s.msgs[tag].place.InRetry?)
      && s.msgs[tag].place.expiry <= s.now && IsHead(s, tag)
    case Deliver(tag, worker) =>
      && tag in s.msgs && s.msgs[tag].place.InReady? && worker < s.workers && Idle(s, worker)
    case WorkerRead(tag, ev) =>
      && At(s, tag) && s.msgs[tag].place.pc.Reading?
      && ReadEnabled(s, s.msgs[tag].body.id, s.msgs[tag].place.pc.read, ev)
    case Send(tag, _) => At(s, tag) && s.msgs[tag].place.pc.Checked?
    case Update(tag, _) =>
      && At(s, tag) && (s.msgs[tag].place.pc.Accepted? || IsRejectedFinally(s.msgs[tag].place.pc))
    case Invalidate(tag, _) => At(s, tag) && s.msgs[tag].place.pc.Written?
    case PublishRetry(tag, _) =>
      && At(s, tag) && s.msgs[tag].place.pc.Rejected? && 0 <= s.msgs[tag].place.pc.n.attempts < MAX_RETRIES
    case Ack(tag) => At(s, tag) && s.msgs[tag].place.pc.Acking?
    case Nack(tag) => At(s, tag) && s.msgs[tag].place.pc.Nacking?
    case Crash(tag) => At(s, tag)
  }

  function Apply(s: Sys, step: Step): Sys
    requires Enabled(s, step)
  {
    match step
    case Tick(dt) => s.(now := s.now + dt)
    case Evict(id) => s.(cache := s.cache - {id})
    case Insert(call, id, req, verdict, outcome) => DoInsert(s, call, id, Draft(req, verdict, id, s.now).value, outcome)
    case FillCreated(call, outcome) =>
      var n := s.calls[call].n;
      FillCache(s, n, s.calls[call].insertedAt, outcome).(calls := s.calls[call := Saved(n)])
    case ComputeTtl(call) =>
      var n := s.calls[call].n;
      s.(calls := s.calls[call := Publishing(n, Delay.PublishTtl(n.scheduledAt, s.now))])
    case Publish(call, outcome) => DoPublish(s, call, outcome)
    case BeginGet(call, id) => s.(calls := s.calls[call := Getting(id, AtCache)])
    case BeginCancel(call, id) => s.(calls := s.calls[call := Cancelling(id, AtCache)])
    case CallRead(call, ev) => DoCallRead(s, call, ev)
    case CancelWrite(call, outcome) => DoCancelWrite(s, call, outcome)
    case CancelInvalidate(call, outcome) => EndCall(DropCache(s, s.calls[call].id, outcome), call)
    case CallDies(call) => DoCallDies(s, call)
    case Release(tag) => Move(s, tag, InReady)
    case Deliver(tag, worker) => Move(s, tag, Held(worker, Reading(AtCache)))
    case WorkerRead(tag, ev) => DoWorkerRead(s, tag, ev)
    case Send(tag, ok) => DoSend(s, tag, ok)
    case Update(tag, outcome) => DoUpdate(s, tag, outcome)
    case Invalidate(tag, outcome) =>
      Goto(DropCache(s, s.msgs[tag].body.id, outcome), tag, Acking(Finished))
    case PublishRetry(tag, outcome) => DoPublishRetry(s, tag, outcome)
    case Ack(tag) => DoAck(s, tag)
    case Nack(tag) => Redeliver(s, tag)
    case Crash(tag) => Redeliver(s, tag)
  }

  function DoInsert(s: Sys, call: nat, id: Id, draft: Notification, outcome: Outcome): Sys {
    if outcome.Refused? || !Mappers.HasRecipient(draft) then s
    else
      var row := Mappers.Stored(id, draft, s.now);
      var s1 := s.(rows := s.rows[id := row], hist := s.hist[id := [Version(row, s.now)]],
                   log := s.log[id := Ledger(0, 0, 0, 0, None, {})]);
      if outcome.Done? then s1.(calls := s.calls[call := Creating(row, s.now)])
      else s1.(unpublished := s.unpublished + {id})
  }

  function DoPublish(s: Sys, call: nat, outcome: Outcome): Sys
    requires Enabled(s, Publish(call, outcome))
  {
    var n, ttl := s.calls[call].n, s.calls[call].ttl;
    var s1 := if Applied(outcome)
              then SetLedger(Post(s, Message(n, InWait(s.now + ttl * MILLISECOND))), n.id,
                             s.log[n.id].(published := Some(s.now)))
              else s;
    EndCall(if Applied(outcome) then s1 else s1.(unpublished := s.unpublished + {n.id}), call)
  }

  function DoCallRead(s: Sys, call: nat, ev: ReadEvent): Sys
    requires Enabled(s, CallRead(call, ev))
  {
    var c := s.calls[call];
    ReadEffect(s, c.read, ev).(calls := CallsAfterRead(s.calls, call, c, ReadNext(s, c.id, c.read, ev)))
  }

  /** The calls after an API call's read step: a finished read ends its call, except that a cancel of a scheduled
      notification goes on. */
  function CallsAfterRead(calls: map<nat, Call>, call: nat, c: Call, r: ReadResult): map<nat, Call>
    requires c.Getting? || c.Cancelling?
  {
    match r
    case Continue(pc) => calls[call := c.(read := pc)]
    case Return(v) =>
      if c.Cancelling? && v.status == Scheduled then calls[call := CancelChecked(c.id)] else calls - {call}
    case Fail => calls - {call}
  }

  function DoCancelWrite(s: Sys, call: nat, outcome: Outcome): Sys
    requires Enabled(s, CancelWrite(call, outcome))
  {
    var id := s.calls[call].id;
    if id !in s.rows || outcome.Refused? then EndCall(s, call)
    else
      var s1 := SetRow(s, id, Mappers.Withdrawn(s.rows[id], s.now));
      if outcome.Done? then s1.(calls := s.calls[call := CancelWritten(id)]) else EndCall(s1, call)
  }

  function DoCallDies(s: Sys, call: nat): Sys
    requires CallAt(s, call)
  {
    var c := s.calls[call];
    EndCall(if c.Creating? || c.Saved? || c.Publishing? then s.(unpublished := s.unpublished + {c.n.id}) else s, call)
  }

  function DoWorkerRead(s: Sys, tag: nat, ev: ReadEvent): Sys
    requires Enabled(s, WorkerRead(tag, ev))
  {
    var id, pc := s.msgs[tag].body.id, s.msgs[tag].place.pc.read;
    Goto(ReadEffect(s, pc, ev), tag, PcAfter(ReadNext(s, id, pc, ev)))
  }

  /** Where a read leads its worker. */
  function PcAfter(r: ReadResult): Pc {
    match r
    case Continue(pc) => Reading(pc)
    case Return(v) => AfterRead(v)
    case Fail => Acking(ReadFailed)
  }

  function AfterRead(v: Notification): Pc {
    if v.status == Scheduled then Checked else Acking(Skipped)
  }

  function Delivered(l: Ledger, now: Time): Ledger {
    l.(delivered := l.delivered + 1, times := l.times + {now})
  }

  function DoSend(s: Sys, tag: nat, ok: bool): Sys
    requires Enabled(s, Send(tag, ok))
  {
    var b := s.msgs[tag].body;
    var l := s.log[b.id];
    if ok then Goto(SetLedger(s, b.id, Delivered(l, s.now)), tag, Accepted(MarkSent(b, s.now)))
    else Goto(SetLedger(s, b.id, l.(failed := l.failed + 1)), tag, Rejected(MarkUnsent(b)))
  }

  function DoUpdate(s: Sys, tag: nat, outcome: Outcome): Sys
    requires Enabled(s, Update(tag, outcome))
  {
    var id, n := s.msgs[tag].body.id, s.msgs[tag].place.pc.n;
    if id !in s.rows || outcome.Refused? then Goto(s, tag, Nacking(false))
    else
      var s1 := SetRow(s, id, Mappers.Rewritten(s.rows[id], n, s.now));
      Goto(s1, tag, if outcome.Done? then Written else Nacking(false))
  }

  function DoPublishRetry(s: Sys, tag: nat, outcome: Outcome): Sys
    requires Enabled(s, PublishRetry(tag, outcome))
  {
    var n := s.msgs[tag].place.pc.n;
    var s1 := Goto(s, tag, if outcome.Done? then Acking(Retried) else Nacking(Applied(outcome)));
    if Applied(outcome)
    then Post(s1, Message(n, InRetry(s.now + Delay.RetryTtl(n.attempts) * MILLISECOND)))
    else s1
  }

  function DoAck(s: Sys, tag: nat): Sys
    requires Enabled(s, Ack(tag))
  {
    var abandoned := if s.msgs[tag].place.pc.why.ReadFailed? then s.abandoned + {s.msgs[tag].body.id} else s.abandoned;
    s.(msgs := s.msgs - {tag}, abandoned := abandoned)
  }

  /** An API call's read step touches the calls and, when it fills, the cache. */
  lemma CallReadFrame(s: Sys, call: nat, ev: ReadEvent)
    requires Enabled(s, CallRead(call, ev))
    ensures var s', s1 := Apply(s, CallRead(call, ev)), ReadEffect(s, s.calls[call].read, ev);
      && s' == s1.(calls := s'.calls)
      && s1 == s.(cache := s1.cache, fetched := s1.fetched)
  {
    ReadEffectFrame(s, s.calls[call].read, ev);
    hide ReadEnabled, ReadNext, ReadEffect;
  }

  lemma CallReadResult(s: Sys, call: nat, ev: ReadEvent)
    requires Enabled(s, CallRead(call, ev))
    ensures var c := s.calls[call];
      Apply(s, CallRead(call, ev)).calls == CallsAfterRead(s.calls, call, c, ReadNext(s, c.id, c.read, ev))
  {
    hide ReadEnabled, ReadNext, ReadEffect, CallsAfterRead;
  }

  lemma ReadEffectFrame(s: Sys, pc: ReadPc, ev: ReadEvent)
    ensures var s1 := ReadEffect(s, pc, ev); s1 == s.(cache := s1.cache, fetched := s1.fetched)
  {
  }

  lemma RedeliverFrame(s: Sys, tag: nat)
    requires At(s, tag)
    ensures var s', m := Redeliver(s, tag), s.msgs[tag];
      s' == s.(msgs := s.msgs[tag := m.(place := InReady)],
               log := s.log[m.body.id := Charged(s.log[m.body.id], PhaseOf(m.place))])
  {
    hide PhaseOf, Charged;
  }

  // ---- runs ----------------------------------------------------------------------------------

  ghost predicate CanRun(s: Sys, steps: seq<Step>)
    decreases |steps|
  {
    steps == [] || (Enabled(s, steps[0]) && CanRun(Apply(s, steps[0]), steps[1..]))
  }

  ghost function Run(s: Sys, steps: seq<Step>): Sys
    requires CanRun(s, steps)
    decreases |steps|
  {
    if steps == [] then s else Run(Apply(s, steps[0]), steps[1..])
  }

  lemma RunNone(s: Sys)
    ensures CanRun(s, []) && Run(s, []) == s
  {
  }

  lemma RunCons(s: Sys, step: Step, rest: seq<Step>)
    requires Enabled(s, step) && CanRun(Apply(s, step), rest)
    ensures CanRun(s, [step] + rest) && Run(s, [step] + rest) == Run(Apply(s, step), rest)
  {
    hide Enabled, Apply;
    assert ([step] + rest)[1..] == rest;
  }

  lemma {:induction false} RunConcat(s: Sys, a: seq<Step>, b: seq<Step>)
    requires CanRun(s, a) && CanRun(Run(s, a), b)
    ensures CanRun(s, a + b) && Run(s, a + b) == Run(Run(s, a), b)
    decreases |a|
  {
    hide Enabled, Apply;
    if a == [] { assert a + b == b; }
    else {
      RunConcat(Apply(s, a[0]), a[1..], b);
      assert (a + b)[1..] == a[1..] + b && (a + b)[0] == a[0];
    }
  }

  lemma RunOne(s: Sys, step: Step)
    requires Enabled(s, step)
    ensures CanRun(s, [step]) && Run(s, [step]) == Apply(s, step)
  {
    hide Enabled, Apply;
    RunNone(Apply(s, step));
    RunCons(s, step, []);
    assert [step] + [] == [step];
  }

  lemma RunThen(s: Sys, a: seq<Step>, step: Step)
    requires CanRun(s, a) && Enabled(Run(s, a), step)
    ensures CanRun(s, a + [step]) && Run(s, a + [step]) == Apply(Run(s, a), step)
  {
    hide Enabled, Apply, CanRun, Run;
    RunOne(Run(s, a), step);
    RunConcat(s, a, [step]);
  }

  /** The states some run from an empty system reaches. */
  ghost predicate Reachable(s: Sys) {
    exists workers: nat, now: Time, steps: seq<Step> ::
      CanRun(Init(workers, now), steps) && Run(Init(workers, now), steps) == s
  }

  lemma ReachableInit(workers: nat, now: Time)
    ensures Reachable(Init(workers, now))
  {
    assert CanRun(Init(workers, now), []) && Run(Init(workers, now), []) == Init(workers, now);
  }

  lemma ReachableStep(s: Sys, step: Step)
    requires Reachable(s) && Enabled(s, step)
    ensures Reachable(Apply(s, step))
  {
    hide Enabled, Apply, Init;
    var workers: nat, now: Time, steps: seq<Step> :|
      CanRun(Init(workers, now), steps) && Run(Init(workers, now), steps) == s;
    assert CanRun(Apply(s, step), []) && Run(Apply(s, step), []) == Apply(s, step);
    RunCons(s, step, []);
    assert [step] + [] == [step];
    RunConcat(Init(workers, now), steps, [step]);
  }
}
