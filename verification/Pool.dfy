/** `boundedMap`: workers that share one index into a list of items. */
module Pool {
  import opened Sets
  import opened Integers

  /** A worker at its loop test, waiting for an item's action, or through. */
  datatype Worker = Testing | Awaiting(item: nat) | Exited | Rejected(item: nat)

  datatype Pool = Pool(
    total: nat,           // how many items there are
    index: nat,           // the shared index
    workers: seq<Worker>,
    settled: seq<nat>)    // the items whose action returned, in that order

  datatype Step = Take(worker: nat) | Exit(worker: nat) | Settle(worker: nat) | Reject(worker: nat)

  function Started(total: nat, concurrency: nat): Pool {
    Pool(total, 0, seq(Min(concurrency, total), _ => Testing), [])
  }

  /** What a worker can do next; its action may return or reject whenever it likes. */
  predicate Enabled(p: Pool, step: Step) {
    step.worker < |p.workers| &&
    match step
    case Take(k) => p.workers[k].Testing? && p.index < p.total
    case Exit(k) => p.workers[k].Testing? && p.index >= p.total
    case Settle(k) => p.workers[k].Awaiting?
    case Reject(k) => p.workers[k].Awaiting?
  }

  function Apply(p: Pool, step: Step): Pool
    requires Enabled(p, step)
  {
    match step
    case Take(k) => p.(workers := p.workers[k := Awaiting(p.index)], index := p.index + 1)
    case Exit(k) => p.(workers := p.workers[k := Exited])
    case Settle(k) => p.(workers := p.workers[k := Testing], settled := p.settled + [p.workers[k].item])
    case Reject(k) => p.(workers := p.workers[k := Rejected(p.workers[k].item)])
  }

  predicate Holds(w: Worker, item: nat) {
    (w.Awaiting? || w.Rejected?) && w.item == item
  }

  predicate HeldBy(p: Pool, item: nat) {
    exists k | 0 <= k < |p.workers| :: Holds(p.workers[k], item)
  }

  /** Each item taken is with exactly one worker or has settled exactly once; the others wait. */
  predicate Sound(p: Pool) {
    && p.index <= p.total
    && (forall k | 0 <= k < |p.workers| :: p.workers[k].Exited? ==> p.index == p.total)
    && (forall k | 0 <= k < |p.workers| :: p.workers[k].Awaiting? || p.workers[k].Rejected? ==>
          p.workers[k].item < p.index)
    && (forall j, k | 0 <= j < k < |p.workers| ::
          (p.workers[j].Awaiting? || p.workers[j].Rejected?) ==> !Holds(p.workers[k], p.workers[j].item))
    && (forall i | 0 <= i < |p.settled| :: p.settled[i] < p.index && !HeldBy(p, p.settled[i]))
    && (forall i, j | 0 <= i < j < |p.settled| :: p.settled[i] != p.settled[j])
    && (forall item | 0 <= item < p.index :: item in p.settled || HeldBy(p, item))
  }

  lemma HeldAfter(p: Pool, k: nat, w: Worker, item: nat)
    requires k < |p.workers|
    ensures HeldBy(p.(workers := p.workers[k := w]), item) ==> Holds(w, item) || HeldBy(p, item)
    ensures Holds(w, item) ==> HeldBy(p.(workers := p.workers[k := w]), item)
    ensures HeldBy(p, item) && !Holds(p.workers[k], item) ==> HeldBy(p.(workers := p.workers[k := w]), item)
  {
    var p' := p.(workers := p.workers[k := w]);
    if HeldBy(p, item) && !Holds(p.workers[k], item) {
      var j :| 0 <= j < |p.workers| && Holds(p.workers[j], item);
      assert Holds(p'.workers[j], item);
    }
    if Holds(w, item) {
      assert Holds(p'.workers[k], item);
    }
  }

  lemma StepKeepsSound(p: Pool, step: Step)
    requires Sound(p) && Enabled(p, step)
    ensures Sound(Apply(p, step))
  {
    var k, p' := step.worker, Apply(p, step);
    var w := p'.workers[k];
    forall i | 0 <= i < |p'.settled| ensures p'.settled[i] < p'.index && !HeldBy(p', p'.settled[i]) {
      HeldAfter(p, k, w, p'.settled[i]);
      if i == |p.settled| { SettledIsReleased(p, k); }
    }
    forall item | 0 <= item < p'.index ensures item in p'.settled || HeldBy(p', item) {
      HeldAfter(p, k, w, item);
      if item < p.index && item in p.settled {
        assert item in p'.settled;
      }
    }
    forall i, j | 0 <= i < j < |p'.settled| ensures p'.settled[i] != p'.settled[j] {
      if j == |p.settled| {
        assert Holds(p.workers[k], p'.settled[j]);
        assert HeldBy(p, p'.settled[j]);
      }
    }
  }

  lemma SettledIsReleased(p: Pool, k: nat)
    requires Sound(p) && k < |p.workers| && p.workers[k].Awaiting?
    ensures !HeldBy(p.(workers := p.workers[k := Testing]), p.workers[k].item)
  {
    var p' := p.(workers := p.workers[k := Testing]);
    forall j | 0 <= j < |p.workers| ensures !Holds(p'.workers[j], p.workers[k].item) {
      if j < k {
        assert !(p.workers[j].Awaiting? || p.workers[j].Rejected?) || !Holds(p.workers[k], p.workers[j].item);
      }
    }
  }

  predicate Possible(p: Pool, steps: seq<Step>)
    decreases |steps|
  {
    steps == [] || (Enabled(p, steps[0]) && Possible(Apply(p, steps[0]), steps[1..]))
  }

  function After(p: Pool, steps: seq<Step>): Pool
    requires Possible(p, steps)
    decreases |steps|
  {
    if steps == [] then p else After(Apply(p, steps[0]), steps[1..])
  }

  /** The items taken, in the order they were taken. */
  function Taken(p: Pool, steps: seq<Step>): seq<nat>
    requires Possible(p, steps)
    decreases |steps|
  {
    if steps == [] then []
    else (if steps[0].Take? then [p.index] else []) + Taken(Apply(p, steps[0]), steps[1..])
  }

  /** The items from one index up to another, in order. */
  predicate InIndexOrder(taken: seq<nat>, from: nat, to: nat) {
    from + |taken| == to && forall i | 0 <= i < |taken| :: taken[i] == from + i
  }

  function Weight(w: Worker): nat {
    match w
    case Awaiting(_) => 2
    case Testing => 1
    case _ => 0
  }

  function Weights(workers: seq<Worker>): nat {
    if workers == [] then 0 else Weight(workers[0]) + Weights(workers[1..])
  }

  /** What is left to do: the items not taken, and what their workers have before them. */
  function Left(p: Pool): int { 3 * (p.total - p.index) + Weights(p.workers) }

  lemma {:induction false} WeightsAfter(workers: seq<Worker>, k: nat, w: Worker)
    requires k < |workers|
    ensures Weights(workers[k := w]) == Weights(workers) - Weight(workers[k]) + Weight(w)
    decreases |workers|
  {
    if k > 0 {
      assert workers[k := w][1..] == workers[1..][k - 1 := w];
      WeightsAfter(workers[1..], k - 1, w);
    } else {
      assert workers[0 := w][1..] == workers[1..];
    }
  }

  lemma StepLeavesLess(p: Pool, step: Step)
    requires Sound(p) && Enabled(p, step)
    ensures 0 <= Left(Apply(p, step)) < Left(p)
  {
    StepKeepsSound(p, step);
    WeightsAfter(p.workers, step.worker, Apply(p, step).workers[step.worker]);
  }

  /** Every interleaving takes the items in index order and each once, never has more than
      `concurrency` in flight, and is finite, with the items and workers left as the measure. */
  lemma {:induction false} RunsAreOrderly(p: Pool, steps: seq<Step>)
    requires Sound(p) && Possible(p, steps)
    ensures var p' := After(p, steps);
            && Sound(p') && p'.total == p.total && |p'.workers| == |p.workers| && p.index <= p'.index
            && InIndexOrder(Taken(p, steps), p.index, p'.index)
            && |steps| <= Left(p) - Left(p')
    decreases |steps|
  {
    if steps == [] {
    } else {
      StepKeepsSound(p, steps[0]);
      StepLeavesLess(p, steps[0]);
      RunsAreOrderly(Apply(p, steps[0]), steps[1..]);
    }
  }

  predicate Through(p: Pool) {
    forall k | 0 <= k < |p.workers| :: p.workers[k].Exited? || p.workers[k].Rejected?
  }

  lemma StartedIsSound(total: nat, concurrency: nat)
    ensures Sound(Started(total, concurrency))
  {
  }

  /** Until every worker is through, one of them can go on. */
  lemma NoWorkerIsStuck(p: Pool)
    requires !Through(p)
    ensures exists step :: Enabled(p, step)
  {
    var k :| 0 <= k < |p.workers| && !(p.workers[k].Exited? || p.workers[k].Rejected?);
    var step := if p.workers[k].Awaiting? then Settle(k) else if p.index < p.total then Take(k) else Exit(k);
    assert Enabled(p, step);
  }

  lemma AllExitedMeansAllSettled(p: Pool)
    requires Sound(p) && (p.total > 0 ==> |p.workers| > 0)
    requires AllExited(p)
    ensures p.index == p.total
    ensures forall item | 0 <= item < p.total :: item in p.settled
  {
    if p.total > 0 {
      assert p.workers[0].Exited?;
    }
    forall item | 0 <= item < p.total ensures item in p.settled {
      assert !HeldBy(p, item);
    }
  }

  predicate AllExited(p: Pool) {
    forall k | 0 <= k < |p.workers| :: p.workers[k].Exited?
  }

  /** Every item has been taken in index order and run to its end exactly once. */
  predicate AllDone(p: Pool, taken: seq<nat>) {
    && (forall item | 0 <= item < p.total :: item in p.settled)
    && (forall i, j | 0 <= i < j < |p.settled| :: p.settled[i] != p.settled[j])
    && InIndexOrder(taken, 0, p.total)
  }

  lemma ExitedMeansDone(p: Pool, steps: seq<Step>)
    requires Sound(p) && p.index == 0 && (p.total > 0 ==> |p.workers| > 0)
    requires Possible(p, steps) && AllExited(After(p, steps))
    ensures After(p, steps).total == p.total && AllDone(After(p, steps), Taken(p, steps))
  {
    RunsAreOrderly(p, steps);
    AllExitedMeansAllSettled(After(p, steps));
  }

  /** When all workers have exited, which is when `boundedMap` resolves, all is done, provided there
      is at least one worker for at least one item. */
  lemma ResolvedMeansAllDone(total: nat, concurrency: nat, steps: seq<Step>)
    requires concurrency >= 1 && Possible(Started(total, concurrency), steps)
    requires AllExited(After(Started(total, concurrency), steps))
    ensures After(Started(total, concurrency), steps).total == total
    ensures AllDone(After(Started(total, concurrency), steps), Taken(Started(total, concurrency), steps))
  {
    StartedIsSound(total, concurrency);
    ExitedMeansDone(Started(total, concurrency), steps);
  }

  /** Never more than `concurrency` items are in flight. */
  function InFlight(workers: seq<Worker>): set<nat> {
    set k | 0 <= k < |workers| && workers[k].Awaiting?
  }

  lemma {:induction false} FewInFlight(workers: seq<Worker>)
    ensures |InFlight(workers)| <= |workers|
    decreases |workers|
  {
    if workers == [] {
    } else {
      var front := workers[..|workers| - 1];
      FewInFlight(front);
      assert InFlight(workers) <= InFlight(front) + {|workers| - 1};
      SubsetIsSmaller(InFlight(workers), InFlight(front) + {|workers| - 1});
    }
  }

  lemma ConcurrencyIsBounded(total: nat, concurrency: nat, steps: seq<Step>)
    requires Possible(Started(total, concurrency), steps)
    ensures |InFlight(After(Started(total, concurrency), steps).workers)| <= concurrency
  {
    StartedIsSound(total, concurrency);
    RunsAreOrderly(Started(total, concurrency), steps);
    FewInFlight(After(Started(total, concurrency), steps).workers);
  }

  /** And so many can be: the workers of a fresh call can all have taken an item before any is through. */
  lemma {:induction false} AllCanBeInFlight(total: nat, concurrency: nat, busy: nat) returns (steps: seq<Step>)
    requires busy <= concurrency && busy <= total
    ensures Possible(Started(total, concurrency), steps)
    ensures var p := After(Started(total, concurrency), steps);
            && |InFlight(p.workers)| == busy && p.index == busy && p.settled == []
    decreases busy
  {
    steps := seq(busy, k requires 0 <= k < busy => Take(k));
    TakesInTurn(Started(total, concurrency), steps, 0);
  }

  lemma {:induction false} TakesInTurn(p: Pool, steps: seq<Step>, first: nat)
    requires forall k | 0 <= k < |steps| :: steps[k] == Take(first + k)
    requires p.index == first && first + |steps| <= p.total && first + |steps| <= |p.workers|
    requires forall k | 0 <= k < |p.workers| :: if k < first then p.workers[k].Awaiting? else p.workers[k].Testing?
    ensures Possible(p, steps)
    ensures var q := After(p, steps);
            |InFlight(q.workers)| == first + |steps| && q.index == first + |steps| && q.settled == p.settled
    decreases |steps|
  {
    if steps == [] {
      FirstInFlight(p.workers, first);
    } else {
      TakesInTurn(Apply(p, steps[0]), steps[1..], first + 1);
    }
  }

  lemma {:induction false} FirstInFlight(workers: seq<Worker>, first: nat)
    requires first <= |workers|
    requires forall k | 0 <= k < |workers| :: workers[k].Awaiting? <==> k < first
    ensures |InFlight(workers)| == first
    decreases first
  {
    if first == 0 {
      assert InFlight(workers) == {};
    } else {
      var less := workers[first - 1 := Testing];
      FirstInFlight(less, first - 1);
      assert InFlight(workers) == InFlight(less) + {first - 1};
    }
  }
}
