/** Counting sends: a creation is pending until its message exists, the send budget of a notification never
    grows except by redeliveries, and without duplicated copies the count is exact. */
module Accounting {
  import opened Domain
  import opened Protocol
  import opened Shapes

  // ---- sums over the live messages -----------------------------------------------------------

  ghost function Weigh(msgs: map<nat, Message>, tag: nat, w: Message -> int): int {
    if tag in msgs then w(msgs[tag]) else 0
  }

  /** The sum of w over the messages with tags below n. */
  ghost function Total(msgs: map<nat, Message>, n: nat, w: Message -> int): int {
    if n == 0 then 0 else Total(msgs, n - 1, w) + Weigh(msgs, n - 1, w)
  }

  lemma {:induction false} TotalSame(msgs: map<nat, Message>, msgs': map<nat, Message>, n: nat, w: Message -> int)
    requires forall t: nat | t < n :: Weigh(msgs', t, w) == Weigh(msgs, t, w)
    ensures Total(msgs', n, w) == Total(msgs, n, w)
  {
    if n > 0 { TotalSame(msgs, msgs', n - 1, w); }
  }

  lemma {:induction false} TotalChange(msgs: map<nat, Message>, msgs': map<nat, Message>, n: nat, tag: nat,
                                       w: Message -> int)
    requires tag < n
    requires forall t: nat | t < n && t != tag :: Weigh(msgs', t, w) == Weigh(msgs, t, w)
    ensures Total(msgs', n, w) == Total(msgs, n, w) - Weigh(msgs, tag, w) + Weigh(msgs', tag, w)
  {
    if tag == n - 1 { TotalSame(msgs, msgs', n - 1, w); } else { TotalChange(msgs, msgs', n - 1, tag, w); }
  }

  lemma {:induction false} TotalZero(msgs: map<nat, Message>, n: nat, w: Message -> int)
    requires forall t | t in msgs :: w(msgs[t]) == 0
    ensures Total(msgs, n, w) == 0
  {
    if n > 0 { TotalZero(msgs, n - 1, w); }
  }

  lemma {:induction false} TotalAtLeast(msgs: map<nat, Message>, n: nat, w: Message -> int)
    requires forall t | t in msgs :: w(msgs[t]) >= 0
    ensures Total(msgs, n, w) >= 0
  {
    if n > 0 { TotalAtLeast(msgs, n - 1, w); }
  }

  ghost predicate TagsBelow(s: Sys) { forall t | t in s.msgs :: t < s.next }

  /** The effect of each shape on a sum. */
  lemma MovesTotal(s: Sys, s': Sys, tag: nat, w: Message -> int)
    requires Moves(s, s', tag)
    ensures Total(s'.msgs, s'.next, w) == Total(s.msgs, s.next, w) - w(s.msgs[tag]) + w(s'.msgs[tag])
  {
    TotalChange(s.msgs, s'.msgs, s.next, tag, w);
  }

  lemma LeavesTotal(s: Sys, s': Sys, tag: nat, w: Message -> int)
    requires Leaves(s, s', tag)
    ensures Total(s'.msgs, s'.next, w) == Total(s.msgs, s.next, w) - w(s.msgs[tag])
  {
    TotalChange(s.msgs, s'.msgs, s.next, tag, w);
  }

  lemma PostsTotal(s: Sys, s': Sys, w: Message -> int)
    requires TagsBelow(s) && s'.next == s.next + 1 && s.next in s'.msgs && s'.msgs == s.msgs[s.next := s'.msgs[s.next]]
    ensures Total(s'.msgs, s'.next, w) == Total(s.msgs, s.next, w) + w(s'.msgs[s.next])
  {
    TotalSame(s.msgs, s'.msgs, s.next, w);
  }

  lemma ForksTotal(s: Sys, s': Sys, tag: nat, w: Message -> int)
    requires TagsBelow(s) && Forks(s, s', tag)
    ensures Total(s'.msgs, s'.next, w)
         == Total(s.msgs, s.next, w) - w(s.msgs[tag]) + w(s'.msgs[tag]) + w(s'.msgs[s.next])
  {
    TotalChange(s.msgs, s'.msgs, s.next, tag, w);
  }

  // ---- pending creations ---------------------------------------------------------------------

  ghost predicate NoMessages(s: Sys, id: Id) { forall t | t in s.msgs :: s.msgs[t].body.id != id }

  /** A pending creation is the only one for its id, and nothing has happened to that id yet. */
  ghost predicate FreshAt(s: Sys, c: nat)
    requires c in s.calls && IsPending(s.calls[c])
  {
    var id := s.calls[c].n.id;
    && id in s.log && s.log[id] == Ledger(0, 0, 0, 0, None, {}) && NoMessages(s, id)
    && (forall c' | c' in s.calls && IsPending(s.calls[c']) && s.calls[c'].n.id == id :: c' == c)
  }

  ghost predicate Fresh(s: Sys) {
    && TagsBelow(s)
    && (forall t | t in s.msgs :: s.msgs[t].body.id in s.log)
    && (forall c | c in s.calls && IsPending(s.calls[c]) :: FreshAt(s, c))
  }

  lemma FreshMoves(s: Sys, s': Sys, tag: nat)
    requires Fresh(s) && Moves(s, s', tag)
    requires s.log.Keys <= s'.log.Keys
    requires forall id | id in s.log && id != s.msgs[tag].body.id :: s'.log[id] == s.log[id]
    ensures Fresh(s')
  {
    forall t | t in s'.msgs ensures t < s'.next && s'.msgs[t].body.id in s'.log && s'.msgs[t].body == s.msgs[t].body {}
    forall c | c in s'.calls && IsPending(s'.calls[c]) ensures FreshAt(s', c) {
      assert FreshAt(s, c);
    }
  }

  lemma FreshStarts(s: Sys, s': Sys, call: nat)
    requires Fresh(s) && Starts(s, s', call)
    ensures Fresh(s')
  {
    assert FreshAt(s, call);
    forall c | c in s'.calls && IsPending(s'.calls[c]) ensures FreshAt(s', c) {
      assert FreshAt(s, c);
      assert s.calls[c].n.id != s.calls[call].n.id;
    }
  }

  lemma FreshForks(s: Sys, s': Sys, tag: nat)
    requires Fresh(s) && Forks(s, s', tag)
    ensures Fresh(s')
  {
    assert s'.msgs[s.next].body.id == s.msgs[tag].body.id;
    forall t | t in s'.msgs ensures t < s'.next && s'.msgs[t].body.id in s'.log {
      if t != s.next { assert s'.msgs[t].body == s.msgs[t].body; }
    }
    forall c | c in s'.calls && IsPending(s'.calls[c]) ensures FreshAt(s', c) {
      assert FreshAt(s, c);
      assert s.calls[c].n.id != s.msgs[tag].body.id;
    }
  }

  lemma FreshBirths(s: Sys, s': Sys, id: Id, call: nat)
    requires Fresh(s) && Births(s, s', id, call)
    ensures Fresh(s')
  {
    forall c | c in s'.calls && IsPending(s'.calls[c]) ensures FreshAt(s', c) {
      if s'.calls == s.calls || c != call { assert FreshAt(s, c); }
      else {
        forall c' | c' in s.calls && IsPending(s.calls[c']) ensures s.calls[c'].n.id != id { assert FreshAt(s, c'); }
      }
    }
  }

  lemma FreshStep(s: Sys, step: Step, s': Sys)
    requires Fresh(s) && Shape(s, step, s')
    ensures Fresh(s')
  {
    hide Fresh;
    if Still(s, s') { FreshStill(s, s'); }
    else {
      if step.Insert? { FreshBirths(s, s', step.id, step.call); }
      else if step.Publish? { FreshStarts(s, s', step.call); }
      else if step.Ack? { FreshLeaves(s, s', step.tag); }
      else if IsFork(step) { FreshForks(s, s', step.tag); }
      else { FreshMoves(s, s', step.tag); }
    }
  }

  lemma FreshStill(s: Sys, s': Sys)
    requires Fresh(s) && Still(s, s')
    ensures Fresh(s')
  {
    forall c | c in s'.calls && IsPending(s'.calls[c]) ensures FreshAt(s', c) { assert FreshAt(s, c); }
  }

  lemma FreshLeaves(s: Sys, s': Sys, tag: nat)
    requires Fresh(s) && Leaves(s, s', tag)
    ensures Fresh(s')
  {
    forall c | c in s'.calls && IsPending(s'.calls[c]) ensures FreshAt(s', c) { assert FreshAt(s, c); }
  }

  // ---- the send budget -----------------------------------------------------------------------

  /** The sends a copy may still cause on its own. */
  function Potential(m: Message): int {
    match PhaseOf(m.place)
    case BeforeSend => MAX_RETRIES - m.body.attempts
    case AfterSend => MAX_RETRIES - 1 - m.body.attempts
    case AfterRetry => 0
  }

  function PotentialOf(id: Id): Message -> int {
    (m: Message) => if m.body.id == id then Potential(m) else 0
  }

  ghost function Budget(s: Sys, id: Id): int
    requires id in s.log
  {
    s.log[id].Sends() + Total(s.msgs, s.next, PotentialOf(id)) - s.log[id].requeues - MAX_RETRIES * s.log[id].duplicates
  }

  ghost predicate InRange(s: Sys) { forall t | t in s.msgs :: 0 <= s.msgs[t].body.attempts < MAX_RETRIES }

  lemma MoveBudget(s: Sys, s': Sys, tag: nat, id: Id)
    requires Shift(s, s', tag) || Sends(s, s', tag) || Returns(s, s', tag)
    requires id in s.log && s.msgs[tag].body.attempts >= 0
    ensures id in s'.log && Budget(s', id) <= Budget(s, id)
  {
    hide Total;
    MovesTotal(s, s', tag, PotentialOf(id));
  }

  lemma ForkBudget(s: Sys, s': Sys, tag: nat, id: Id)
    requires TagsBelow(s) && Forks(s, s', tag) && id in s.log
    ensures id in s'.log && Budget(s', id) == Budget(s, id)
  {
    hide Total;
    ForksTotal(s, s', tag, PotentialOf(id));
  }

  lemma LeaveBudget(s: Sys, s': Sys, tag: nat, id: Id)
    requires Leaves(s, s', tag) && id in s.log && s.msgs[tag].body.attempts < MAX_RETRIES
    ensures id in s'.log && Budget(s', id) <= Budget(s, id)
  {
    hide Total;
    LeavesTotal(s, s', tag, PotentialOf(id));
  }

  /** No step raises the budget, except that a first publish sets it to five. */
  lemma BudgetStep(s: Sys, step: Step, s': Sys, id: Id)
    requires Fresh(s) && InRange(s) && Shape(s, step, s') && id in s.log
    ensures id in s'.log
    ensures Budget(s', id) <= if step.Publish? then MathMax(Budget(s, id), MAX_RETRIES) else Budget(s, id)
  {
    hide Fresh, InRange, Budget, Still, Births, Shift, Sends, Returns, Leaves, Forks, Starts;
    if step.Insert? || Still(s, s') { StillBudget(s, step, s', id); }
    else if step.Publish? { PublishBudget(s, s', step.call, id); }
    else {
      assert TagsBelow(s) by { FreshTags(s); }
      assert 0 <= s.msgs[step.tag].body.attempts < MAX_RETRIES by { ShapeTag(s, step, s'); RangeOf(s, step.tag); }
      if step.Ack? { LeaveBudget(s, s', step.tag, id); }
      else if IsFork(step) { ForkBudget(s, s', step.tag, id); }
      else { MoveBudget(s, s', step.tag, id); }
    }
  }

  lemma StillBudget(s: Sys, step: Step, s': Sys, id: Id)
    requires Still(s, s') || (step.Insert? && Births(s, s', step.id, step.call))
    requires id in s.log
    ensures id in s'.log && Budget(s', id) == Budget(s, id)
  {
  }

  lemma ShapeTag(s: Sys, step: Step, s': Sys)
    requires Shape(s, step, s') && (IsShift(step) || IsReturn(step) || IsFork(step) || step.Send? || step.Ack?)
    ensures step.tag in s.msgs
  {
  }

  function MathMax(a: int, b: int): int { if a < b then b else a }

  lemma FreshTags(s: Sys)
    requires Fresh(s)
    ensures TagsBelow(s)
  {
  }

  lemma RangeOf(s: Sys, tag: nat)
    requires InRange(s) && tag in s.msgs
    ensures 0 <= s.msgs[tag].body.attempts < MAX_RETRIES
  {
  }

  lemma PublishBudget(s: Sys, s': Sys, call: nat, id: Id)
    requires Fresh(s) && Starts(s, s', call) && id in s.log
    ensures id in s'.log && Budget(s', id) == if id == s.calls[call].n.id then MAX_RETRIES else Budget(s, id)
  {
    var w := PotentialOf(id);
    PostsTotal(s, s', w);
    if id == s.calls[call].n.id {
      assert FreshAt(s, call);
      TotalZero(s.msgs, s.next, w);
    }
  }

  // ---- how often a notification is reported as sent ------------------------------------------------

  function ChanceOf(id: Id): Message -> int {
    (m: Message) => if m.body.id == id then Chance(m.place) else 0
  }

  /** Successful sends so far and those the live copies may still add, less what redeliveries account for. */
  ghost function Outlook(s: Sys, id: Id): int
    requires id in s.log
  {
    s.log[id].delivered + Total(s.msgs, s.next, ChanceOf(id)) - s.log[id].requeues - s.log[id].duplicates
  }

  lemma MoveOutlook(s: Sys, s': Sys, tag: nat, id: Id)
    requires Shift(s, s', tag) || Sends(s, s', tag) || Returns(s, s', tag)
    requires id in s.log
    ensures id in s'.log && Outlook(s', id) <= Outlook(s, id)
  {
    hide Total;
    MovesTotal(s, s', tag, ChanceOf(id));
  }

  lemma ForkOutlook(s: Sys, s': Sys, tag: nat, id: Id)
    requires TagsBelow(s) && Forks(s, s', tag) && id in s.log
    ensures id in s'.log && Outlook(s', id) == Outlook(s, id)
  {
    hide Total;
    ForksTotal(s, s', tag, ChanceOf(id));
  }

  lemma LeaveOutlook(s: Sys, s': Sys, tag: nat, id: Id)
    requires Leaves(s, s', tag) && id in s.log
    ensures id in s'.log && Outlook(s', id) <= Outlook(s, id)
  {
    hide Total;
    LeavesTotal(s, s', tag, ChanceOf(id));
  }

  lemma PublishOutlook(s: Sys, s': Sys, call: nat, id: Id)
    requires Fresh(s) && Starts(s, s', call) && id in s.log
    ensures id in s'.log && Outlook(s', id) == if id == s.calls[call].n.id then 1 else Outlook(s, id)
  {
    var w := ChanceOf(id);
    PostsTotal(s, s', w);
    if id == s.calls[call].n.id {
      assert FreshAt(s, call);
      TotalZero(s.msgs, s.next, w);
    }
  }

  lemma StillOutlook(s: Sys, step: Step, s': Sys, id: Id)
    requires Still(s, s') || (step.Insert? && Births(s, s', step.id, step.call))
    requires id in s.log
    ensures id in s'.log && Outlook(s', id) == Outlook(s, id)
  {
  }

  /** No step raises the outlook, except that a first publish sets it to one. */
  lemma OutlookStep(s: Sys, step: Step, s': Sys, id: Id)
    requires Fresh(s) && Shape(s, step, s') && id in s.log
    ensures id in s'.log && Outlook(s', id) <= if step.Publish? then MathMax(Outlook(s, id), 1) else Outlook(s, id)
  {
    hide Fresh, Outlook, Still, Births, Shift, Sends, Returns, Leaves, Forks, Starts;
    assert TagsBelow(s) by { FreshTags(s); }
    if step.Insert? || Still(s, s') { StillOutlook(s, step, s', id); }
    else if step.Publish? { PublishOutlook(s, s', step.call, id); }
    else if step.Ack? { LeaveOutlook(s, s', step.tag, id); }
    else if IsFork(step) { ForkOutlook(s, s', step.tag, id); }
    else { MoveOutlook(s, s', step.tag, id); }
  }

  // ---- exact counting without duplicates -----------------------------------------------------

  /** Not merely waiting to be settled after its retry copy was published. */
  predicate Active(m: Message) { PhaseOf(m.place) != AfterRetry }

  /** While no copy was ever duplicated there is one active copy at most, and its body's attempts together with
      the requeues tell exactly how many sends were made. */
  ghost predicate Exact(s: Sys, id: Id)
    requires id in s.log
  {
    s.log[id].duplicates == 0 ==>
      && (forall t, u | t in s.msgs && u in s.msgs && s.msgs[t].body.id == id && s.msgs[u].body.id == id
                        && Active(s.msgs[t]) && Active(s.msgs[u]) :: t == u)
      && (forall t | t in s.msgs && s.msgs[t].body.id == id :: CountOk(s.msgs[t], s.log[id]))
  }

  ghost predicate CountOk(m: Message, l: Ledger) {
    match PhaseOf(m.place)
    case BeforeSend => l.Sends() == m.body.attempts + l.requeues
    case AfterSend => l.Sends() == m.body.attempts + 1 + l.requeues
    case AfterRetry => true
  }

  /** The count stays exact, or a duplicate has just been recorded. */
  ghost predicate KeepsCount(m: Message, l: Ledger, m': Message, l': Ledger) {
    || l'.duplicates > 0
    || (l.duplicates == 0 && Active(m) && (CountOk(m, l) ==> CountOk(m', l')))
    || (l' == l && PhaseOf(m'.place) == PhaseOf(m.place))
  }

  lemma ExactMoves(s: Sys, s': Sys, tag: nat, id: Id)
    requires Moves(s, s', tag) && id in s.log && id in s'.log && Exact(s, id)
    requires id != s.msgs[tag].body.id ==> s'.log[id] == s.log[id]
    requires id == s.msgs[tag].body.id ==> KeepsCount(s.msgs[tag], s.log[id], s'.msgs[tag], s'.log[id])
    ensures Exact(s', id)
  {
    forall t | t in s'.msgs
      ensures t in s.msgs && s'.msgs[t].body == s.msgs[t].body && (t != tag ==> s'.msgs[t] == s.msgs[t])
    {
    }
  }

  lemma ExactForks(s: Sys, s': Sys, tag: nat, id: Id)
    requires TagsBelow(s) && Forks(s, s', tag) && id in s.log && Exact(s, id)
    ensures Exact(s', id)
  {
    hide Fetches, SameRecords;
    forall t | t in s'.msgs && t != s.next
      ensures t in s.msgs && s'.msgs[t].body == s.msgs[t].body && (t != tag ==> s'.msgs[t] == s.msgs[t]) {}
  }

  lemma ExactStarts(s: Sys, s': Sys, call: nat, id: Id)
    requires Fresh(s) && Starts(s, s', call) && id in s.log && Exact(s, id)
    ensures Exact(s', id)
  {
    assert FreshAt(s, call);
    forall t | t in s'.msgs && t != s.next ensures t in s.msgs && s'.msgs[t] == s.msgs[t] {}
  }

  lemma ExactStep(s: Sys, step: Step, s': Sys, id: Id)
    requires Fresh(s) && Shape(s, step, s') && id in s.log && Exact(s, id)
    ensures id in s'.log && Exact(s', id)
  {
    hide Fresh, Exact;
    assert TagsBelow(s) by { FreshTags(s); }
    if step.Insert? || Still(s, s') { ExactSame(s, s', id); }
    else if step.Publish? { ExactStarts(s, s', step.call, id); }
    else if step.Ack? { ExactLeaves(s, s', step.tag, id); }
    else if IsFork(step) { ExactForks(s, s', step.tag, id); }
    else { ExactMoves(s, s', step.tag, id); }
  }

  lemma ExactSame(s: Sys, s': Sys, id: Id)
    requires id in s.log && Exact(s, id) && s'.msgs == s.msgs && id in s'.log && s'.log[id] == s.log[id]
    ensures Exact(s', id)
  {
  }

  lemma ExactLeaves(s: Sys, s': Sys, tag: nat, id: Id)
    requires Leaves(s, s', tag) && id in s.log && Exact(s, id)
    ensures Exact(s', id)
  {
    forall t | t in s'.msgs ensures t in s.msgs && s'.msgs[t] == s.msgs[t] {}
  }

  // ---- runs without redelivery -----------------------------------------------------------------

  /** Nothing was ever redelivered after a send. */
  ghost predicate Faultless(s: Sys) { forall id | id in s.log :: s.log[id].requeues == 0 && s.log[id].duplicates == 0 }

  lemma FaultlessStep(s: Sys, step: Step, s': Sys)
    requires Shape(s, step, s') && !IsReturn(step) && Faultless(s)
    ensures Faultless(s')
  {
  }
}
