/**
 The queue that runs URL operations one at a time (`RouteMutationQueue` in plugin-external-urls/src/index.ts):
 each operation is chained to the settling, good or bad, of the one submitted before it.
 */
module MutationQueue {

  datatype Phase = Chained | Running | Fulfilled | Rejected

  predicate Settled(p: Phase) { p == Fulfilled || p == Rejected }

  /** The operations in the order they were submitted. */
  type Queue = seq<Phase>

  datatype Step = Submit | Begin(i: nat) | Settle(i: nat, ok: bool)

  /** The tail an operation was chained to has settled; the first one's tail is settled from the start. */
  predicate TailSettled(q: Queue, i: nat) { i < |q| && (i == 0 || Settled(q[i - 1])) }

  function Next(q: Queue, s: Step): Queue {
    match s
    case Submit => q + [Chained]
    case Begin(i) => if TailSettled(q, i) && q[i] == Chained then q[i := Running] else q
    case Settle(i, ok) => if i < |q| && q[i] == Running then q[i := if ok then Fulfilled else Rejected] else q
  }

  function Run(q: Queue, steps: seq<Step>): Queue
    decreases |steps|
  {
    if steps == [] then q else Run(Next(q, steps[0]), steps[1..])
  }

  /** Before anything that has begun, everything has settled. */
  ghost predicate InOrder(q: Queue) { forall i, j :: 0 <= i < j < |q| && q[j] != Chained ==> Settled(q[i]) }

  lemma StepInOrder(q: Queue, s: Step)
    requires InOrder(q)
    ensures InOrder(Next(q, s))
  {
    if s.Begin? && TailSettled(q, s.i) && s.i > 0 {
      forall k | 0 <= k < s.i ensures Settled(q[k]) {
        if k < s.i - 1 { assert q[s.i - 1] != Chained; }
      }
    }
  }

  lemma {:induction false} RunInOrder(q: Queue, steps: seq<Step>)
    requires InOrder(q)
    ensures InOrder(Run(q, steps))
    decreases |steps|
  {
    hide InOrder, Next;
    if steps != [] {
      StepInOrder(q, steps[0]);
      RunInOrder(Next(q, steps[0]), steps[1..]);
    }
  }

  /** In every run at most one operation runs, all submitted before it have settled, and none after it has begun. */
  lemma OneAtATime(steps: seq<Step>, i: nat, j: nat)
    requires var q := Run([], steps); i < |q| && j < |q| && q[i] == Running
    ensures var q := Run([], steps);
      (q[j] == Running ==> i == j) && (j < i ==> Settled(q[j])) && (j > i ==> q[j] == Chained)
  {
    RunInOrder([], steps);
  }

  /** A failed operation does not hold the queue up: as long as something waits, something runs or may begin. */
  lemma NeverStuck(steps: seq<Step>, j: nat)
    requires j < |Run([], steps)| && Run([], steps)[j] == Chained
    ensures var q := Run([], steps); exists i :: 0 <= i <= j && (q[i] == Running || (q[i] == Chained && TailSettled(q, i)))
  {
    var q := Run([], steps);
    var i := j;
    while i > 0 && q[i - 1] == Chained
      invariant 0 <= i <= j && q[i] == Chained
    {
      i := i - 1;
    }
    if i > 0 && q[i - 1] == Running { assert q[i - 1] == Running; } else { assert TailSettled(q, i); }
  }
}
