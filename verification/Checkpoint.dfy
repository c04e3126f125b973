/** The chain of checkpoint writes behind `save`. Each call appends a write to a promise chain;
    a write takes its snapshot of the live state when its turn comes and replaces the checkpoint
    file in one rename. */
module Checkpoint {
  import opened Options

  datatype Chain<S> = Chain(
    mem: S,             // the live state
    disk: Option<S>,    // the checkpoint file
    writing: Option<S>, // the snapshot being written, if a write is in progress
    resolved: nat,      // how many calls of `save` have resolved
    // Bookkeeping of what happened in this process:
    history: seq<S>,    // every live state so far, oldest first
    calls: seq<nat>,    // for each call of `save`, the index in history of the state at the call
    written: nat,       // the index of the state on disk
    snapshot: nat       // the index of the state being written
  )

  datatype Step<S> = Mutate(to: S) | Call | Begin | Commit

  /** A process starts from the checkpoint, or from a fresh state if there is none. */
  function Opened<S>(disk: Option<S>, initial: S): Chain<S> {
    var mem := if disk.Some? then disk.value else initial;
    Chain(mem, disk, None, 0, [mem], [], 0, 0)
  }

  predicate Enabled<S>(c: Chain<S>, step: Step<S>) {
    match step
    case Mutate(_) => true
    case Call => c.history != []
    case Begin => c.writing.None? && c.resolved < |c.calls| && c.history != []
    case Commit => c.writing.Some?
  }

  function Apply<S>(c: Chain<S>, step: Step<S>): Chain<S>
    requires Enabled(c, step)
  {
    match step
    case Mutate(to) => c.(mem := to, history := c.history + [to])
    case Call => c.(calls := c.calls + [|c.history| - 1])
    case Begin => c.(writing := Some(c.mem), snapshot := |c.history| - 1)
    case Commit => c.(disk := c.writing, written := c.snapshot, writing := None, resolved := c.resolved + 1)
  }

  predicate Valid<S(==)>(c: Chain<S>) {
    && c.history != [] && c.mem == c.history[|c.history| - 1]
    && c.resolved <= |c.calls|
    && (forall i | 0 <= i < |c.calls| :: c.calls[i] < |c.history|)
    && (forall i, j | 0 <= i <= j < |c.calls| :: c.calls[i] <= c.calls[j])
    && (c.disk.Some? ==> c.written < |c.history| && c.disk.value == c.history[c.written])
    && (c.resolved > 0 ==> c.disk.Some? && c.calls[c.resolved - 1] <= c.written)
    && (c.writing.Some? ==>
          && c.resolved < |c.calls| && c.calls[c.resolved] <= c.snapshot
          && c.snapshot < |c.history| && c.writing.value == c.history[c.snapshot]
          && (c.disk.Some? ==> c.written <= c.snapshot))
  }

  lemma StepKeepsValid<S>(c: Chain<S>, step: Step<S>)
    requires Valid(c) && Enabled(c, step)
    ensures Valid(Apply(c, step))
  {
  }

  ghost predicate Possible<S>(c: Chain<S>, steps: seq<Step<S>>)
    decreases |steps|
  {
    steps == [] || (Enabled(c, steps[0]) && Possible(Apply(c, steps[0]), steps[1..]))
  }

  ghost function After<S>(c: Chain<S>, steps: seq<Step<S>>): Chain<S>
    requires Possible(c, steps)
    decreases |steps|
  {
    if steps == [] then c else After(Apply(c, steps[0]), steps[1..])
  }

  /** Whatever the interleaving, the checkpoint is a whole past state of the process, and it
      never goes back to an older one. */
  lemma {:induction false} CheckpointNeverGoesBack<S>(c: Chain<S>, steps: seq<Step<S>>)
    requires Valid(c) && Possible(c, steps)
    ensures var c' := After(c, steps);
            && Valid(c') && c.history <= c'.history && c.calls <= c'.calls && c.resolved <= c'.resolved
            && (c.disk.Some? ==> c'.disk.Some? && c.written <= c'.written)
    decreases |steps|
  {
    if steps == [] {
    } else {
      StepKeepsValid(c, steps[0]);
      CheckpointNeverGoesBack(Apply(c, steps[0]), steps[1..]);
    }
  }

  /** When a call of `save` has resolved, the checkpoint holds the state at the call or a later one. */
  lemma {:induction false} ResolvedSaveIsOnDisk<S>(c: Chain<S>, steps: seq<Step<S>>)
    requires Valid(c) && Possible(c, [Call] + steps)
    requires After(c, [Call] + steps).resolved > |c.calls|
    ensures var c' := After(c, [Call] + steps);
            && c'.disk.Some? && |c.history| - 1 <= c'.written < |c'.history|
            && c.history <= c'.history && c'.disk.value == c'.history[c'.written]
  {
    var called := Apply(c, Call);
    assert ([Call] + steps)[1..] == steps;
    StepKeepsValid(c, Call);
    CheckpointNeverGoesBack(called, steps);
    var c' := After(called, steps);
    assert c'.calls[|c.calls|] == called.calls[|c.calls|] == |c.history| - 1;
  }

  /** What a step leaves of a write that has begun. */
  predicate Meanwhile<S>(step: Step<S>) { step.Mutate? || step.Call? }

  /** A write stores the live state of the moment it begins, whatever calls and changes come meanwhile, and
      whichever call it was begun for. */
  lemma {:induction false} WriteIsOfItsBegin<S>(c: Chain<S>, meanwhile: seq<Step<S>>)
    requires Enabled(c, Begin) && forall k | 0 <= k < |meanwhile| :: Meanwhile(meanwhile[k])
    ensures var steps := [Begin] + meanwhile + [Commit];
            Possible(c, steps) && After(c, steps).disk == Some(c.mem)
  {
    var begun := Apply(c, Begin);
    WriteGoesOn(begun, meanwhile);
    assert ([Begin] + meanwhile + [Commit])[1..] == meanwhile + [Commit];
  }

  lemma {:induction false} WriteGoesOn<S>(c: Chain<S>, meanwhile: seq<Step<S>>)
    requires c.writing.Some? && c.history != [] && forall k | 0 <= k < |meanwhile| :: Meanwhile(meanwhile[k])
    ensures Possible(c, meanwhile + [Commit]) && After(c, meanwhile + [Commit]).disk == c.writing
    decreases |meanwhile|
  {
    if meanwhile == [] {
      assert meanwhile + [Commit] == [Commit] && (meanwhile + [Commit])[1..] == [];
      assert Possible(Apply(c, Commit), []);
    } else {
      WriteGoesOn(Apply(c, meanwhile[0]), meanwhile[1..]);
      assert (meanwhile + [Commit])[1..] == meanwhile[1..] + [Commit];
    }
  }

  function Owed<S>(c: Chain<S>): int {
    2 * (|c.calls| - c.resolved) - (if c.writing.Some? then 1 else 0)
  }

  /** No call waits for ever: while one is owed a write can begin or commit, and each brings the
      end nearer. */
  lemma WritesGetDone<S>(c: Chain<S>)
    requires Valid(c) && c.resolved < |c.calls|
    ensures exists step: Step<S> | step.Begin? || step.Commit? ::
              Enabled(c, step) && 0 <= Owed(Apply(c, step)) < Owed(c)
  {
    var step: Step<S> := if c.writing.Some? then Commit else Begin;
    assert Enabled(c, step) && 0 <= Owed(Apply(c, step)) < Owed(c);
  }
}
