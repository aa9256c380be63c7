/** What the reads inside a run returned to the API call that made them. */
module Answers {
  import opened Domain
  import opened Protocol

  /** What the last read step of this call returned. */
  ghost function LastRead(s: Sys, steps: seq<Step>, call: nat): Option<ReadResult>
    requires CanRun(s, steps)
    decreases |steps|
  {
    if steps == [] then None
    else
      var rest := LastRead(Apply(s, steps[0]), steps[1..], call);
      if rest.Some? then rest else ReadOf(s, steps[0], call)
  }

  ghost function ReadOf(s: Sys, step: Step, call: nat): Option<ReadResult>
    requires Enabled(s, step)
  {
    if step.CallRead? && step.call == call
    then Some(ReadNext(s, s.calls[call].id, s.calls[call].read, step.event))
    else None
  }

  lemma {:induction false} LastReadAppend(s: Sys, a: seq<Step>, step: Step, call: nat)
    requires CanRun(s, a) && Enabled(Run(s, a), step) && CanRun(s, a + [step])
    ensures LastRead(s, a + [step], call)
         == var r := ReadOf(Run(s, a), step, call); if r.Some? then r else LastRead(s, a, call)
    decreases |a|
  {
    hide Enabled, Apply, ReadOf;
    if a == [] {
      assert a + [step] == [step];
      assert [step][1..] == [];
    } else {
      assert (a + [step])[1..] == a[1..] + [step] && (a + [step])[0] == a[0];
      LastReadAppend(Apply(s, a[0]), a[1..], step, call);
    }
  }

  lemma LastReadOne(s: Sys, step: Step, call: nat)
    requires Enabled(s, step) && CanRun(s, [step])
    ensures LastRead(s, [step], call) == ReadOf(s, step, call)
  {
    hide Enabled, Apply, ReadOf;
    assert LastRead(Apply(s, step), [], call) == None;
  }

  lemma LastReadCons(s: Sys, step: Step, rest: seq<Step>, call: nat)
    requires Enabled(s, step) && CanRun(Apply(s, step), rest) && CanRun(s, [step] + rest)
    ensures LastRead(s, [step] + rest, call)
         == var r := LastRead(Apply(s, step), rest, call); if r.Some? then r else ReadOf(s, step, call)
  {
    hide Enabled, Apply, ReadOf;
    assert ([step] + rest)[1..] == rest;
  }

  /** Steps that are no reads of this call do not change its answer. */
  lemma {:induction false} LastReadConcat(s: Sys, a: seq<Step>, b: seq<Step>, call: nat)
    requires CanRun(s, a) && CanRun(Run(s, a), b) && CanRun(s, a + b)
    requires forall i | 0 <= i < |b| :: !b[i].CallRead?
    ensures LastRead(s, a + b, call) == LastRead(s, a, call)
    decreases |b|
  {
    hide Enabled, Apply, CanRun, Run, LastRead;
    if b == [] { assert a + b == a; }
    else {
      var front, last := b[..|b|-1], b[|b|-1];
      assert b == front + [last];
      RunSplit(Run(s, a), front, last);
      RunConcat(s, a, front);
      assert a + b == (a + front) + [last];
      LastReadConcat(s, a, front, call);
      LastReadAppend(s, a + front, last, call);
    }
  }

  lemma {:induction false} RunSplit(s: Sys, front: seq<Step>, last: Step)
    requires CanRun(s, front + [last])
    ensures CanRun(s, front) && Enabled(Run(s, front), last)
    decreases |front|
  {
    hide Enabled, Apply;
    if front == [] { assert (front + [last])[0] == last; }
    else {
      assert (front + [last])[1..] == front[1..] + [last] && (front + [last])[0] == front[0];
      RunSplit(Apply(s, front[0]), front[1..], last);
    }
  }

  /** The repository's answer as the protocol's read gives it. */
  function AsRead(r: Result<Notification>): ReadResult {
    if r.Ok? then Return(r.value) else Fail
  }
}
