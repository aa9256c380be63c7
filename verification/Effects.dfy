/** What the writing steps of the protocol do, column by column and counter by counter. */
module Effects {
  import opened Domain
  import CacheAside
  import Delay
  import Mappers
  import opened Protocol

  /** A send: the pending value and the counter of its result; table, cache and calls stay. A successful one is stamped
      with the time of the send; a failed one has one more attempt, and is failed from the fifth on. */
  lemma SendMeans(s: Sys, tag: nat, ok: bool)
    requires Enabled(s, Send(tag, ok))
    ensures var s', m := Apply(s, Send(tag, ok)), s.msgs[tag]; var b, l := m.body, s.log[m.body.id];
      var result := if ok then Accepted(b.(status := Sent, sentAt := Some(s.now)))
                    else Rejected(b.(attempts := b.attempts + 1,
                                     status := if b.attempts + 1 >= 5 then Failed else b.status));
      && s'.msgs == s.msgs[tag := Message(b, Held(m.place.worker, result))]
      && s'.log == s.log[b.id := if ok then l.(delivered := l.delivered + 1, times := l.times + {s.now})
                                 else l.(failed := l.failed + 1)]
      && s'.rows == s.rows && s'.hist == s.hist && s'.cache == s.cache && s'.calls == s.calls && s'.now == s.now
  {
  }

  /** A worker's write: status, attempts and sent time of the pending value, to the microsecond, whatever the row's
      status was; every applied write is a version of the row. */
  lemma UpdateMeans(s: Sys, tag: nat, o: Outcome)
    requires Enabled(s, Update(tag, o)) && s.msgs[tag].body.id in s.rows
    requires -32768 <= s.msgs[tag].place.pc.n.attempts < 32768
    ensures var s', id, n := Apply(s, Update(tag, o)), s.msgs[tag].body.id, s.msgs[tag].place.pc.n;
      var row := s.rows[id].(status := n.status, attempts := n.attempts, sentAt := CacheAside.Cut(n.sentAt),
                             updatedAt := s.now - s.now % 1000);
      && s'.rows == (if o == Refused then s.rows else s.rows[id := row])
      && s'.hist == (if o == Refused then s.hist else s.hist[id := s.hist[id] + [Version(row, s.now)]])
      && s'.cache == s.cache && s'.log == s.log
  {
  }

  /** A cancel's write: status and stamp, and nothing else. */
  lemma CancelWriteMeans(s: Sys, call: nat, o: Outcome)
    requires Enabled(s, CancelWrite(call, o)) && s.calls[call].id in s.rows
    ensures var s', id := Apply(s, CancelWrite(call, o)), s.calls[call].id;
      var row := s.rows[id].(status := Cancelled, updatedAt := s.now - s.now % 1000);
      && s'.rows == (if o == Refused then s.rows else s.rows[id := row])
      && s'.hist == (if o == Refused then s.hist else s.hist[id := s.hist[id] + [Version(row, s.now)]])
      && s'.cache == s.cache && s'.log == s.log && s'.msgs == s.msgs
  {
  }

  /** A redelivery: the message is ready with its original body; it counts as a duplicate if the broker had the retry
      copy, as a requeue if only the send had been made, and as nothing before. */
  lemma RedeliveryMeans(s: Sys, tag: nat)
    requires Enabled(s, Crash(tag))
    ensures var s', m := Apply(s, Crash(tag)), s.msgs[tag]; var l, pc := s.log[m.body.id], m.place.pc;
      && s'.msgs == s.msgs[tag := Message(m.body, InReady)]
      && s'.log == s.log[m.body.id :=
           if pc == Acking(Retried) || pc == Nacking(true) then l.(duplicates := l.duplicates + 1)
           else if pc.Accepted? || pc.Rejected? || pc.Written? || pc == Acking(Finished) || pc == Nacking(false)
           then l.(requeues := l.requeues + 1)
           else l]
      && s'.rows == s.rows && s'.cache == s.cache && s'.calls == s.calls
  {
  }

  /** A first publish: the stored row is the body, and the delay is what is left to the schedule, in whole milliseconds
      and not below zero. */
  lemma PublishMeans(s: Sys, call: nat, o: Outcome)
    requires Enabled(s, Publish(call, o)) && Applied(o)
    ensures var s', c := Apply(s, Publish(call, o)), s.calls[call];
      && s'.msgs == s.msgs[s.next := Message(c.n, InWait(s.now + c.ttl * 1_000_000))] && s'.next == s.next + 1
      && c.ttl <= 4_294_967_295 && s'.rows == s.rows && s'.cache == s.cache
  {
  }

  lemma ComputeTtlMeans(s: Sys, call: nat)
    requires Enabled(s, ComputeTtl(call))
    requires s.calls[call].n.scheduledAt - s.now <= 0x7FFF_FFFF_FFFF_FFFF
    ensures var n := s.calls[call].n;
      Apply(s, ComputeTtl(call)) == s.(calls := s.calls[call :=
        Publishing(n, if n.scheduledAt <= s.now then 0 else (n.scheduledAt - s.now) / 1_000_000)])
  {
  }

  /** A retry publish: the pending value is the body, and the delay is 5 * 2^attempts seconds. */
  lemma PublishRetryMeans(s: Sys, tag: nat, o: Outcome)
    requires Enabled(s, PublishRetry(tag, o)) && Applied(o) && s.msgs[tag].place.pc.n.attempts >= 1 && tag < s.next
    ensures var s', n := Apply(s, PublishRetry(tag, o)), s.msgs[tag].place.pc.n;
      && s.next in s'.msgs && s'.next == s.next + 1
      && s'.msgs[s.next] == Message(n, InRetry(s.now + 5 * Delay.Pow2(n.attempts) * 1_000_000_000))
      && tag in s'.msgs && s'.msgs[tag].body == s.msgs[tag].body
      && s'.rows == s.rows && s'.cache == s.cache
  {
    hide Delay.RetryTtl, Delay.Pow2;
    Delay.ReachableRetryTtl(s.msgs[tag].place.pc.n.attempts);
  }
}
