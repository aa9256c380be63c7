/** A broker queue with per-message TTL: messages expire only at the head. Exactly when each is released. */
module DelayQueue {
  import opened Domain
  import Delay

  datatype Delayed<+T> = Delayed(item: T, arrival: Time, expiry: Time)
  datatype Released<+T> = Released(item: T, at: Time)

  /** The latest expiry among messages 0..i. */
  ghost function Latest<T>(log: seq<Delayed<T>>, i: nat): Time
    requires i < |log|
  {
    if i == 0 then log[0].expiry
    else if Latest(log, i - 1) > log[i].expiry then Latest(log, i - 1) else log[i].expiry
  }

  ghost predicate Ordered<T>(log: seq<Delayed<T>>) {
    && (forall i, j | 0 <= i < j < |log| :: log[i].arrival <= log[j].arrival)
    && (forall i | 0 <= i < |log| :: log[i].arrival <= log[i].expiry)
  }

  lemma {:induction false} LatestMonotone<T>(log: seq<Delayed<T>>, i: nat, j: nat)
    requires i <= j < |log|
    ensures log[i].expiry <= Latest(log, i) <= Latest(log, j)
  {
    if i < j { LatestMonotone(log, i, j - 1); }
  }

  lemma {:induction false} LatestOfPrefix<T>(log: seq<Delayed<T>>, d: Delayed<T>, i: nat)
    requires i < |log|
    ensures Latest(log + [d], i) == Latest(log, i)
  {
    if i > 0 { LatestOfPrefix(log, d, i - 1); }
  }

  /** Some message up to i has the latest expiry. */
  lemma {:induction false} LatestIsReached<T>(log: seq<Delayed<T>>, i: nat) returns (j: nat)
    requires i < |log|
    ensures j <= i && log[j].expiry == Latest(log, i)
  {
    if i == 0 || Latest(log, i - 1) <= log[i].expiry { j := i; } else { j := LatestIsReached(log, i - 1); }
  }

  // ---- the head-of-line law -------------------------------------------------------------------

  /** A message is never released early, and on time exactly when no earlier message expires later. */
  lemma OnTimeIff<T>(log: seq<Delayed<T>>, i: nat)
    requires i < |log|
    ensures Latest(log, i) >= log[i].expiry
    ensures Latest(log, i) == log[i].expiry <==> forall j | 0 <= j < i :: log[j].expiry <= log[i].expiry
  {
    forall j | 0 <= j <= i ensures log[j].expiry <= Latest(log, i) { LatestMonotone(log, j, i); }
    var j := LatestIsReached(log, i);
  }

  /** Retry copies: with delays of 10, 20, 40 and 80 seconds a message is at most 70 seconds late, however long
      the queue. */
  lemma RetryLateness<T>(log: seq<Delayed<T>>, i: nat)
    requires Ordered(log) && i < |log|
    requires forall j | 0 <= j < |log| ::
      exists a :: 1 <= a < MAX_RETRIES && log[j].expiry == log[j].arrival + Delay.RetryTtl(a) * MILLISECOND
    ensures 0 <= Latest(log, i) - log[i].expiry <= 70 * SECOND
  {
    var j := LatestIsReached(log, i);
    OnTimeIff(log, i);
    RetryDelay(log, j); RetryDelay(log, i);
  }

  lemma RetryDelay<T>(log: seq<Delayed<T>>, j: nat)
    requires j < |log|
    requires exists a :: 1 <= a < MAX_RETRIES && log[j].expiry == log[j].arrival + Delay.RetryTtl(a) * MILLISECOND
    ensures 10 * SECOND <= log[j].expiry - log[j].arrival <= 80 * SECOND
  {
    var a :| 1 <= a < MAX_RETRIES && log[j].expiry == log[j].arrival + Delay.RetryTtl(a) * MILLISECOND;
    Delay.ReachableRetryTtl(a);
  }

  /** Seventy seconds is reached: a first retry right behind a fourth one. */
  lemma RetryLatenessIsTight(now: Time)
    ensures var log := [Delayed(0, now, now + Delay.RetryTtl(4) * MILLISECOND),
                        Delayed(1, now, now + Delay.RetryTtl(1) * MILLISECOND)];
      Ordered(log) && Latest(log, 1) - log[1].expiry == 70 * SECOND
  {
    Delay.BackoffExactIff(4); Delay.BackoffExactIff(1); Delay.Pow2Small();
  }

  /** The wait queue has no such bound: a notification due now, published behind one with any admissible delay,
      is late by that whole delay. */
  lemma WaitLateness(now: Time, ttl: nat)
    requires ttl <= Delay.MAX_TTL
    ensures var log := [Delayed(0, now, now + ttl * MILLISECOND),
                        Delayed(1, now, now + Delay.PublishTtl(now, now) * MILLISECOND)];
      Ordered(log) && log[1].expiry == now && Latest(log, 1) - log[1].expiry == ttl * MILLISECOND
  {
  }

  // ---- the queue itself -----------------------------------------------------------------------

  /** What has been published is what was released, each at its latest expiry so far, followed by what waits. */
  ghost predicate Accounts<T>(log: seq<Delayed<T>>, released: seq<Released<T>>, pending: seq<Delayed<T>>, now: Time) {
    && |log| == |released| + |pending| && pending == log[|released|..]
    && Ordered(log) && (forall i | 0 <= i < |log| :: log[i].arrival <= now)
    && (forall i | 0 <= i < |released| :: released[i] == Released(log[i].item, Latest(log, i)) && Latest(log, i) <= now)
  }

  /** The broker is eager: a message is still waiting only because its turn has not come. */
  ghost predicate Waiting<T>(log: seq<Delayed<T>>, k: nat, now: Time)
    requires k <= |log|
  {
    forall i | k <= i < |log| :: Latest(log, i) > now
  }

  lemma Appended<T>(log: seq<Delayed<T>>, d: Delayed<T>, k: nat, now: Time)
    requires Ordered(log) && k <= |log| && d.arrival == now <= d.expiry
    requires forall i | 0 <= i < |log| :: log[i].arrival <= now
    ensures Ordered(log + [d]) && (log + [d])[k..] == log[k..] + [d]
    ensures forall i | 0 <= i < |log| + 1 :: (log + [d])[i].arrival <= now
    ensures forall i | 0 <= i < |log| :: (log + [d])[i] == log[i] && Latest(log + [d], i) == Latest(log, i)
  {
    forall i | 0 <= i < |log| ensures Latest(log + [d], i) == Latest(log, i) { LatestOfPrefix(log, d, i); }
  }

  /** The new message is due at its own expiry or when its predecessor leaves, whichever is later. */
  lemma NewLatest<T>(log: seq<Delayed<T>>, d: Delayed<T>)
    ensures Latest(log + [d], |log|) ==
      if |log| > 0 && Latest(log, |log| - 1) > d.expiry then Latest(log, |log| - 1) else d.expiry
  {
    if |log| > 0 { LatestOfPrefix(log, d, |log| - 1); }
  }

  lemma LeftAtOnce<T>(log: seq<Delayed<T>>, released: seq<Released<T>>, now: Time, d: Delayed<T>)
    requires Accounts(log, released, [], now) && d.arrival == now == d.expiry
    ensures Accounts(log + [d], released + [Released(d.item, now)], [], now)
  {
    hide Latest, Ordered;
    Appended(log, d, |log|, now);
    NewLatest(log, d);
    assert Latest(log + [d], |log|) == now by { if |log| > 0 { assert Latest(log, |log| - 1) <= now; } }
    var log', released' := log + [d], released + [Released(d.item, now)];
    assert |released| == |log| && log'[|log'|..] == [];
    forall i | 0 <= i < |released'|
      ensures released'[i] == Released(log'[i].item, Latest(log', i)) && Latest(log', i) <= now
    {
      if i < |log| { assert released'[i] == released[i] && log'[i] == log[i] && Latest(log', i) == Latest(log, i); }
    }
  }

  lemma Enqueued<T>(log: seq<Delayed<T>>, released: seq<Released<T>>, pending: seq<Delayed<T>>, now: Time,
                    d: Delayed<T>)
    requires Accounts(log, released, pending, now) && Waiting(log, |released|, now)
    requires d.arrival == now <= d.expiry && (pending != [] || d.expiry > now)
    ensures Accounts(log + [d], released, pending + [d], now) && Waiting(log + [d], |released|, now)
  {
    hide Latest, Ordered;
    Appended(log, d, |released|, now);
    NewLatest(log, d);
    if pending != [] { assert Latest(log, |log| - 1) > now; }
  }

  lemma Dequeued<T>(log: seq<Delayed<T>>, released: seq<Released<T>>, pending: seq<Delayed<T>>, now: Time)
    requires Accounts(log, released, pending, now) && pending != []
    requires pending[0].expiry <= now ==> |released| > 0 && Latest(log, |released| - 1) == now
    ensures var at := if now < pending[0].expiry then pending[0].expiry else now;
      && at == Latest(log, |released|)
      && Accounts(log, released + [Released(pending[0].item, at)], pending[1..], at)
  {
    assert pending[0] == log[|released|];
    assert log[|released| + 1..] == pending[1..];
  }

  lemma TimeReached<T>(log: seq<Delayed<T>>, released: seq<Released<T>>, pending: seq<Delayed<T>>, now: Time, t: Time)
    requires Accounts(log, released, pending, now) && now <= t && (pending != [] ==> pending[0].expiry > t)
    ensures Accounts(log, released, pending, t) && Waiting(log, |released|, t)
    ensures forall i | 0 <= i < |log| :: i < |released| <==> Latest(log, i) <= t
  {
    hide Latest, Ordered;
    forall i | |released| <= i < |log| ensures Latest(log, i) > t { LatestMonotone(log, |released|, i); }
  }

  /** The queue of an eager broker: whatever can be released is released at once. */
  class Queue<T> {
    var now: Time
    var pending: seq<Delayed<T>>
    var released: seq<Released<T>>
    ghost var log: seq<Delayed<T>>

    ghost predicate Valid()
      reads this
    {
      Accounts(log, released, pending, now) && Waiting(log, |released|, now)
    }

    constructor (now: Time)
      ensures Valid() && this.now == now && log == []
    {
      this.now := now;
      pending, released, log := [], [], [];
    }

    /** A message is appended; it can leave at once only if nothing waits and it has no delay. */
    method Publish(item: T, ttl: nat)
      requires Valid()
      modifies this
      ensures Valid() && now == old(now)
      ensures log == old(log) + [Delayed(item, now, now + ttl * MILLISECOND)]
    {
      var d := Delayed(item, now, now + ttl * MILLISECOND);
      if pending == [] && ttl == 0 {
        LeftAtOnce(log, released, now, d);
        released := released + [Released(item, now)];
      } else {
        Enqueued(log, released, pending, now, d);
        pending := pending + [d];
      }
      log := log + [d];
    }

    /** Time passes to t: heads that expire on the way are released at their moment, in order. Message i of the
        log has been released by t if and only if the latest expiry up to i is at most t, and then at that time. */
    method Advance(t: Time)
      requires Valid() && now <= t
      modifies this
      ensures Valid() && now == t && log == old(log)
      ensures forall i | 0 <= i < |log| :: i < |released| <==> Latest(log, i) <= t
      ensures forall i | 0 <= i < |released| :: released[i] == Released(log[i].item, Latest(log, i))
    {
      hide Latest, Ordered;
      if pending != [] { HeadWaits(log, released, pending, now); }
      while pending != [] && pending[0].expiry <= t
        invariant Accounts(log, released, pending, now) && log == old(log) && now <= t
        invariant pending != [] && pending[0].expiry <= now ==> |released| > 0 && Latest(log, |released| - 1) == now
        decreases |pending|
      {
        Dequeued(log, released, pending, now);
        if now < pending[0].expiry { now := pending[0].expiry; }
        released := released + [Released(pending[0].item, now)];
        pending := pending[1..];
      }
      TimeReached(log, released, pending, now, t);
      now := t;
    }
  }

  lemma HeadWaits<T>(log: seq<Delayed<T>>, released: seq<Released<T>>, pending: seq<Delayed<T>>, now: Time)
    requires Accounts(log, released, pending, now) && Waiting(log, |released|, now) && pending != []
    ensures pending[0].expiry > now
  {
    assert pending[0] == log[|released|];
    assert Latest(log, |released|) > now;
    if |released| > 0 { assert Latest(log, |released| - 1) <= now; }
  }
}
