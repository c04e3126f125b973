/** The export as a step system: walks that claim names, save, and only then download; items in
    flight; checkpoint writes; crashes and resumes, all interleaved freely. */
module Protocol {
  import opened JsText
  import opened Options
  import opened PathTree
  import opened CustomerPaths
  import opened ExportStates
  import opened Layout
  import Checkpoint

  /** A listing whose names are claimed; its downloads wait for the save with this ticket. */
  datatype Walk = Walk(jobs: seq<Job>, ticket: nat)

  /** What an item is for: a customer file, or something of the export's own, such as a listing, a
      setting, a history, a bundle, or a walk over stored objects, which has no output. */
  datatype Action = Customer(job: Job) | Own(id: Text)

  function IdOf(action: Action): Text { if action.Customer? then action.job.relative else action.id }

  /** An item whose action has begun; placed once its output has been moved into place. */
  datatype Flight = Flight(action: Action, placed: bool)

  datatype System = System(
    chain: Checkpoint.Chain<ExportState>,
    files: map<Text, Origin>, // the customer files on disk, by path
    own: set<Text>,           // the export's own files on disk
    walks: seq<Walk>,
    flights: map<nat, Flight>)

  datatype Step =
    | Claim(base: Text, paths: seq<Text>)     // tree on a listing, then the call of save
    | Start(flight: nat, walk: nat, job: nat) // the item of a download, up to its action
    | StartOwn(flight: nat, id: Text)         // any other item, up to its action
    | Place(flight: nat)                      // the output is moved into place
    | Succeed(flight: nat, record: Record)    // item, after an action that returned
    | Fail(flight: nat, error: Text)          // item, after an action that threw
    | Forget(id: Text)                        // a walk over stored objects is not to be skipped
    | Warn(id: Text, error: Text)             // a warning that is no item's
    | Write(path: Text)                       // a file of the export's own that is no item's
    | Unwarn                                  // a run deletes the walk's own warning
    | Save                                    // any other call of save
    | Begin                                   // a checkpoint write takes its snapshot
    | Commit                                  // and replaces the checkpoint
    | Lose(path: Text)                        // a file disappears from the disk
    | Crash                                   // the process ends and a new one resumes

  const FIRST_RUN := System(Checkpoint.Opened(None, NEW_EXPORT), map[], {}, [], map[])

  predicate OnDisk(s: System, path: Text) { path in s.files || path in s.own }

  /** `item` returns at once: the item is finished and all its outputs are still there. */
  predicate Skips(s: System, id: Text) {
    id in s.chain.mem.finished && forall output | output in s.chain.mem.finished[id].outputs :: OnDisk(s, output)
  }

  /** A customer file is its item's output. Another item may have found there was nothing to write, as a
      walk over stored objects always does. */
  predicate RecordFits(flight: Flight, record: Record) {
    || (record.outputs == [IdOf(flight.action)] && flight.placed && !ObjectWalkId(IdOf(flight.action)))
    || (record.outputs == [] && flight.action.Own?)
  }

  predicate Enabled(bases: set<Text>, s: System, step: Step) {
    match step
    case Claim(base, _) => base in bases
    case Start(flight, walk, job) =>
      && flight !in s.flights && walk < |s.walks| && job < |s.walks[walk].jobs|
      && s.walks[walk].ticket < s.chain.resolved
    case StartOwn(flight, id) => flight !in s.flights && !Under(bases, id) && !NoteId(id)
    case Place(flight) => flight in s.flights
    case Succeed(flight, record) => flight in s.flights && RecordFits(s.flights[flight], record)
    case Fail(flight, _) => flight in s.flights
    case Forget(id) => ObjectWalkId(id)
    case Warn(id, _) => NoteId(id)
    case Write(path) => !Under(bases, path)
    case Begin => Checkpoint.Enabled(s.chain, Checkpoint.Begin)
    case Commit => Checkpoint.Enabled(s.chain, Checkpoint.Commit)
    case _ => true
  }

  function Mutate(c: Checkpoint.Chain<ExportState>, to: ExportState): Checkpoint.Chain<ExportState> {
    Checkpoint.Apply(c, Checkpoint.Mutate(to))
  }

  function CallSave(c: Checkpoint.Chain<ExportState>): Checkpoint.Chain<ExportState> {
    if c.history == [] then c else Checkpoint.Apply(c, Checkpoint.Call)
  }

  /** `item` up to its action. */
  function Enter(s: System, flight: nat, action: Action): System {
    if Skips(s, IdOf(action)) then s
    else s.(chain := Mutate(s.chain, Started(s.chain.mem, IdOf(action))),
           flights := s.flights[flight := Flight(action, false)])
  }

  function PlaceOutput(s: System, flight: nat): System
    requires flight in s.flights
  {
    var action := s.flights[flight].action;
    var s' := s.(flights := s.flights[flight := Flight(action, true)]);
    match action
    case Customer(job) => s'.(files := s.files[job.relative := job.origin])
    case Own(id) => s'.(own := s.own + {id})
  }

  /** `item` after its action. */
  function Finish(s: System, flight: nat, to: ExportState): System {
    s.(chain := CallSave(Mutate(s.chain, to)), flights := s.flights - {flight})
  }

  function Apply(p: Scheme, bases: set<Text>, s: System, step: Step): System
    requires Enabled(bases, s, step)
  {
    var mem := s.chain.mem;
    match step
    case Claim(base, paths) =>
      var r := ClaimAll(p, mem, base, paths);
      if r.jobs.None? then s.(chain := Mutate(s.chain, r.state))
      else s.(chain := CallSave(Mutate(s.chain, r.state)), walks := s.walks + [Walk(r.jobs.value, |s.chain.calls|)])
    case Start(flight, walk, job) => Enter(s, flight, Customer(s.walks[walk].jobs[job]))
    case StartOwn(flight, id) => Enter(s, flight, Own(id))
    case Place(flight) => PlaceOutput(s, flight)
    case Succeed(flight, record) => Finish(s, flight, Succeeded(mem, IdOf(s.flights[flight].action), record))
    case Fail(flight, error) => Finish(s, flight, Failed(mem, IdOf(s.flights[flight].action), error))
    case Forget(id) => s.(chain := Mutate(s.chain, Started(mem, id)))
    case Warn(id, error) => s.(chain := Mutate(s.chain, Failed(mem, id, error)))
    case Write(path) => s.(own := s.own + {path})
    case Unwarn => s.(chain := Mutate(s.chain, mem.(warnings := mem.warnings - {WALK})))
    case Save => s.(chain := CallSave(s.chain))
    case Begin => s.(chain := Checkpoint.Apply(s.chain, Checkpoint.Begin))
    case Commit => s.(chain := Checkpoint.Apply(s.chain, Checkpoint.Commit))
    case Lose(path) => s.(files := s.files - {path}, own := s.own - {path})
    case Crash => System(Checkpoint.Opened(s.chain.disk, NEW_EXPORT), s.files, s.own, [], map[])
  }

  // ---- the invariant ----

  ghost predicate Owned(p: Scheme, bases: set<Text>, claims: Claims, path: Text) {
    exists o: Origin :: o.base in bases && Assigned(p, claims, o, path)
  }

  /** A finished customer file has its claim, and its path is its one output. */
  ghost predicate FinishedOwned(p: Scheme, bases: set<Text>, st: ExportState) {
    forall id | id in st.finished && Under(bases, id) ::
      st.finished[id].outputs == [id] && Owned(p, bases, st.claims, id)
  }

  /** Walks over stored objects have no outputs. */
  predicate WalksBare(st: ExportState) {
    forall id | id in st.finished && ObjectWalkId(id) :: st.finished[id].outputs == []
  }

  ghost predicate HistoryGood(p: Scheme, bases: set<Text>, history: seq<ExportState>) {
    && (forall i, j | 0 <= i <= j < |history| :: Extends(history[i].claims, history[j].claims))
    && (forall i | 0 <= i < |history| :: FinishedOwned(p, bases, history[i]) && WalksBare(history[i]))
  }

  ghost predicate WalksGood(p: Scheme, bases: set<Text>, c: Checkpoint.Chain<ExportState>, walks: seq<Walk>) {
    forall w | 0 <= w < |walks| ::
      && walks[w].ticket < |c.calls| && c.calls[walks[w].ticket] < |c.history|
      && forall j | 0 <= j < |walks[w].jobs| ::
           JobClaimed(p, bases, c.history[c.calls[walks[w].ticket]], walks[w].jobs[j])
  }

  ghost predicate FlightsGood(p: Scheme, bases: set<Text>, disk: Option<ExportState>, flights: map<nat, Flight>) {
    forall f | f in flights && flights[f].action.Customer? ::
      disk.Some? && JobClaimed(p, bases, disk.value, flights[f].action.job)
  }

  /** The export's own items and files keep out of the customer directories. */
  predicate OwnApart(bases: set<Text>, own: set<Text>, flights: map<nat, Flight>) {
    && (forall path | path in own :: !Under(bases, path))
    && (forall f | f in flights && flights[f].action.Own? :: !Under(bases, flights[f].action.id))
  }

  /** Every customer file on disk has its path claimed for it in the durable checkpoint. */
  ghost predicate FilesClaimed(p: Scheme, bases: set<Text>, disk: Option<ExportState>, files: map<Text, Origin>) {
    forall path | path in files :: disk.Some? && JobClaimed(p, bases, disk.value, Job(files[path], path))
  }

  ghost predicate Safe(p: Scheme, bases: set<Text>, s: System) {
    && Checkpoint.Valid(s.chain)
    && HistoryGood(p, bases, s.chain.history)
    && WalksGood(p, bases, s.chain, s.walks)
    && FlightsGood(p, bases, s.chain.disk, s.flights)
    && FilesClaimed(p, bases, s.chain.disk, s.files)
    && OwnApart(bases, s.own, s.flights)
  }

  /** The durable claims never shrink and never change owner, crashes included. */
  ghost predicate DiskGrows(before: Option<ExportState>, after: Option<ExportState>) {
    before.Some? ==> after.Some? && Extends(before.value.claims, after.value.claims)
  }

  // ---- each step keeps it ----

  lemma FinishedOwnedGrows(p: Scheme, bases: set<Text>, before: ExportState, after: ExportState)
    requires FinishedOwned(p, bases, before) && Extends(before.claims, after.claims)
    requires forall id | id in after.finished && Under(bases, id) ::
               || (id in before.finished && after.finished[id] == before.finished[id])
               || (after.finished[id].outputs == [id] && Owned(p, bases, after.claims, id))
    ensures FinishedOwned(p, bases, after)
  {
    forall id | id in after.finished && Under(bases, id) && id in before.finished
      ensures Owned(p, bases, after.claims, id)
    {
      var o: Origin :| o.base in bases && Assigned(p, before.claims, o, id);
      AssignedIsStable(p, before.claims, after.claims, o, id);
    }
  }

  /** A live state that grows the claims can be appended to the history. */
  lemma MutateKeeps(p: Scheme, bases: set<Text>, s: System, to: ExportState)
    requires Safe(p, bases, s) && Extends(s.chain.mem.claims, to.claims)
    requires FinishedOwned(p, bases, to) && WalksBare(to)
    ensures Safe(p, bases, s.(chain := Mutate(s.chain, to)))
  {
    var c, c' := s.chain, Mutate(s.chain, to);
    forall i, j | 0 <= i <= j < |c'.history| ensures Extends(c'.history[i].claims, c'.history[j].claims) {
      if i < |c.history| {
        assert Extends(c.history[i].claims, c.mem.claims);
      }
    }
  }

  lemma CallSaveKeeps(p: Scheme, bases: set<Text>, s: System)
    requires Safe(p, bases, s)
    ensures Safe(p, bases, s.(chain := CallSave(s.chain)))
    ensures CallSave(s.chain).calls == s.chain.calls + [|s.chain.history| - 1]
  {
  }

  lemma ClaimKeeps(p: Scheme, bases: set<Text>, s: System, base: Text, paths: seq<Text>)
    requires Safe(p, bases, s) && base in bases
    ensures Safe(p, bases, Apply(p, bases, s, Claim(base, paths)))
  {
    var r := ClaimAll(p, s.chain.mem, base, paths);
    ClaimAllAssigns(p, bases, s.chain.mem, base, paths);
    FinishedOwnedGrows(p, bases, s.chain.mem, r.state);
    MutateKeeps(p, bases, s, r.state);
    var s1 := s.(chain := Mutate(s.chain, r.state));
    CallSaveKeeps(p, bases, s1);
  }

  /** A resolved save has made the claims of its walk durable. */
  lemma StartedJobIsDurable(p: Scheme, bases: set<Text>, s: System, walk: nat, job: nat)
    requires Safe(p, bases, s)
    requires walk < |s.walks| && job < |s.walks[walk].jobs| && s.walks[walk].ticket < s.chain.resolved
    ensures s.chain.disk.Some? && JobClaimed(p, bases, s.chain.disk.value, s.walks[walk].jobs[job])
  {
    var c, t := s.chain, s.walks[walk].ticket;
    var j := s.walks[walk].jobs[job];
    assert c.calls[t] <= c.calls[c.resolved - 1] <= c.written;
    assert Extends(c.history[c.calls[t]].claims, c.history[c.written].claims);
    AssignedIsStable(p, c.history[c.calls[t]].claims, c.disk.value.claims, j.origin, j.relative);
  }

  /** The live claims extend the durable ones. */
  lemma MemExtendsDisk(p: Scheme, bases: set<Text>, s: System)
    requires Safe(p, bases, s) && s.chain.disk.Some?
    ensures Extends(s.chain.disk.value.claims, s.chain.mem.claims)
  {
  }

  lemma StartKeeps(p: Scheme, bases: set<Text>, s: System, flight: nat, walk: nat, job: nat)
    requires Safe(p, bases, s) && Enabled(bases, s, Start(flight, walk, job))
    ensures Safe(p, bases, Apply(p, bases, s, Start(flight, walk, job)))
  {
    StartedJobIsDurable(p, bases, s, walk, job);
    ForgetKeeps(p, bases, s, s.walks[walk].jobs[job].relative);
  }

  lemma StartOwnKeeps(p: Scheme, bases: set<Text>, s: System, flight: nat, id: Text)
    requires Safe(p, bases, s) && Enabled(bases, s, StartOwn(flight, id))
    ensures Safe(p, bases, Apply(p, bases, s, StartOwn(flight, id)))
  {
    ForgetKeeps(p, bases, s, id);
  }

  /** Forgetting a record leaves no finished file unclaimed. */
  lemma ForgetKeeps(p: Scheme, bases: set<Text>, s: System, id: Text)
    requires Safe(p, bases, s)
    ensures Safe(p, bases, s.(chain := Mutate(s.chain, Started(s.chain.mem, id))))
  {
    FinishedOwnedGrows(p, bases, s.chain.mem, Started(s.chain.mem, id));
    MutateKeeps(p, bases, s, Started(s.chain.mem, id));
  }

  lemma WarningsKeep(p: Scheme, bases: set<Text>, s: System, to: ExportState)
    requires Safe(p, bases, s) && to == s.chain.mem.(warnings := to.warnings)
    ensures Safe(p, bases, s.(chain := Mutate(s.chain, to)))
  {
    FinishedOwnedGrows(p, bases, s.chain.mem, to);
    MutateKeeps(p, bases, s, to);
  }

  lemma PlaceKeeps(p: Scheme, bases: set<Text>, s: System, flight: nat)
    requires Safe(p, bases, s) && flight in s.flights
    ensures Safe(p, bases, Apply(p, bases, s, Place(flight)))
  {
    PlacedIsClaimed(p, bases, s, flight);
    PlacedFlightsStay(p, bases, s, flight);
  }

  lemma PlacedFlightsStay(p: Scheme, bases: set<Text>, s: System, flight: nat)
    requires FlightsGood(p, bases, s.chain.disk, s.flights) && OwnApart(bases, s.own, s.flights) && flight in s.flights
    ensures var s' := PlaceOutput(s, flight);
            s'.chain == s.chain && s'.walks == s.walks
            && FlightsGood(p, bases, s.chain.disk, s'.flights) && OwnApart(bases, s'.own, s'.flights)
  {
    var s' := PlaceOutput(s, flight);
    assert forall f | f in s'.flights :: s'.flights[f].action == s.flights[f].action;
  }

  lemma PlacedIsClaimed(p: Scheme, bases: set<Text>, s: System, flight: nat)
    requires FlightsGood(p, bases, s.chain.disk, s.flights) && FilesClaimed(p, bases, s.chain.disk, s.files)
    requires flight in s.flights
    ensures FilesClaimed(p, bases, s.chain.disk, PlaceOutput(s, flight).files)
  {
    match s.flights[flight].action
    case Customer(j) => assert Job(j.origin, j.relative) == j;
    case Own(_) =>
  }

  lemma SucceedKeeps(p: Scheme, bases: set<Text>, s: System, flight: nat, record: Record)
    requires Safe(p, bases, s) && Enabled(bases, s, Succeed(flight, record))
    ensures Safe(p, bases, Apply(p, bases, s, Succeed(flight, record)))
  {
    var to := Succeeded(s.chain.mem, IdOf(s.flights[flight].action), record);
    FlightIsOwned(p, bases, s, flight);
    FinishedOwnedGrows(p, bases, s.chain.mem, to);
    MutateKeeps(p, bases, s, to);
    CallSaveKeeps(p, bases, s.(chain := Mutate(s.chain, to)));
  }

  lemma FlightIsOwned(p: Scheme, bases: set<Text>, s: System, flight: nat)
    requires Safe(p, bases, s) && flight in s.flights
    ensures match s.flights[flight].action
            case Customer(job) => Owned(p, bases, s.chain.mem.claims, job.relative)
            case Own(id) => !Under(bases, id)
  {
    if s.flights[flight].action.Customer? {
      var j := s.flights[flight].action.job;
      MemExtendsDisk(p, bases, s);
      AssignedIsStable(p, s.chain.disk.value.claims, s.chain.mem.claims, j.origin, j.relative);
      assert Owned(p, bases, s.chain.mem.claims, j.relative);
    }
  }

  lemma FailKeeps(p: Scheme, bases: set<Text>, s: System, flight: nat, error: Text)
    requires Safe(p, bases, s) && flight in s.flights
    ensures Safe(p, bases, Apply(p, bases, s, Fail(flight, error)))
  {
    var to := Failed(s.chain.mem, IdOf(s.flights[flight].action), error);
    WarningsKeep(p, bases, s, to);
    CallSaveKeeps(p, bases, s.(chain := Mutate(s.chain, to)));
  }

  lemma CommitKeeps(p: Scheme, bases: set<Text>, s: System)
    requires Safe(p, bases, s) && s.chain.writing.Some?
    ensures Safe(p, bases, Apply(p, bases, s, Commit))
    ensures DiskGrows(s.chain.disk, Apply(p, bases, s, Commit).chain.disk)
  {
    var s' := Apply(p, bases, s, Commit);
    if s.chain.disk.Some? {
      var d, d' := s.chain.disk.value, s'.chain.disk.value;
      assert Extends(d.claims, d'.claims);
      forall path | path in s.files ensures JobClaimed(p, bases, d', Job(s.files[path], path)) {
        AssignedIsStable(p, d.claims, d'.claims, s.files[path], path);
      }
      forall f | f in s.flights && s.flights[f].action.Customer?
        ensures JobClaimed(p, bases, d', s.flights[f].action.job)
      {
        AssignedIsStable(p, d.claims, d'.claims, s.flights[f].action.job.origin, s.flights[f].action.job.relative);
      }
    }
  }

  lemma CrashKeeps(p: Scheme, bases: set<Text>, s: System)
    requires Safe(p, bases, s)
    ensures Safe(p, bases, Apply(p, bases, s, Crash))
  {
  }

  lemma BeginKeeps(p: Scheme, bases: set<Text>, s: System)
    requires Safe(p, bases, s) && Enabled(bases, s, Begin)
    ensures Safe(p, bases, Apply(p, bases, s, Begin))
  {
    Checkpoint.StepKeepsValid(s.chain, Checkpoint.Begin);
  }

  lemma LoseKeeps(p: Scheme, bases: set<Text>, s: System, path: Text)
    requires Safe(p, bases, s)
    ensures Safe(p, bases, Apply(p, bases, s, Lose(path)))
  {
  }

  predicate ItemStep(step: Step) {
    step.Claim? || step.Start? || step.StartOwn? || step.Place? || step.Succeed? || step.Fail?
  }

  lemma ItemStepKeepsSafe(p: Scheme, bases: set<Text>, s: System, step: Step)
    requires Safe(p, bases, s) && Enabled(bases, s, step) && ItemStep(step)
    ensures Safe(p, bases, Apply(p, bases, s, step))
  {
    match step
    case Claim(base, paths) => ClaimKeeps(p, bases, s, base, paths);
    case Start(flight, walk, job) => StartKeeps(p, bases, s, flight, walk, job);
    case StartOwn(flight, id) => StartOwnKeeps(p, bases, s, flight, id);
    case Place(flight) => PlaceKeeps(p, bases, s, flight);
    case Succeed(flight, record) => SucceedKeeps(p, bases, s, flight, record);
    case Fail(flight, error) => FailKeeps(p, bases, s, flight, error);
  }

  lemma OtherStepKeepsSafe(p: Scheme, bases: set<Text>, s: System, step: Step)
    requires Safe(p, bases, s) && Enabled(bases, s, step) && !ItemStep(step)
    ensures Safe(p, bases, Apply(p, bases, s, step))
  {
    var mem := s.chain.mem;
    match step
    case Forget(id) => ForgetKeeps(p, bases, s, id);
    case Warn(id, error) => WarningsKeep(p, bases, s, Failed(mem, id, error));
    case Write(path) =>
    case Unwarn => WarningsKeep(p, bases, s, mem.(warnings := mem.warnings - {WALK}));
    case Save => CallSaveKeeps(p, bases, s);
    case Begin => BeginKeeps(p, bases, s);
    case Commit => CommitKeeps(p, bases, s);
    case Lose(path) => LoseKeeps(p, bases, s, path);
    case Crash => CrashKeeps(p, bases, s);
  }

  /** A file that disappears is gone, and all else is as it was: items that count on it no longer skip. */
  lemma LostIsGone(p: Scheme, bases: set<Text>, s: System, path: Text, id: Text)
    ensures var s' := Apply(p, bases, s, Lose(path));
            && !OnDisk(s', path) && (forall other | other != path :: OnDisk(s', other) <==> OnDisk(s, other))
            && s'.chain == s.chain && s'.walks == s.walks && s'.flights == s.flights
            && (id in s.chain.mem.finished && path in s.chain.mem.finished[id].outputs ==> !Skips(s', id))
  {
  }

  lemma OnlyCommitWrites(p: Scheme, bases: set<Text>, s: System, step: Step)
    requires Enabled(bases, s, step) && !step.Commit?
    ensures Apply(p, bases, s, step).chain.disk == s.chain.disk
  {
  }

  lemma StepGrowsDisk(p: Scheme, bases: set<Text>, s: System, step: Step)
    requires Safe(p, bases, s) && Enabled(bases, s, step)
    ensures DiskGrows(s.chain.disk, Apply(p, bases, s, step).chain.disk)
  {
    if step.Commit? {
      CommitKeeps(p, bases, s);
    } else {
      OnlyCommitWrites(p, bases, s, step);
    }
  }

  lemma {:induction false} StepKeepsSafe(p: Scheme, bases: set<Text>, s: System, step: Step)
    requires Safe(p, bases, s) && Enabled(bases, s, step)
    ensures Safe(p, bases, Apply(p, bases, s, step))
  {
    if ItemStep(step) {
      ItemStepKeepsSafe(p, bases, s, step);
    } else {
      OtherStepKeepsSafe(p, bases, s, step);
    }
  }

  // ---- whole runs ----

  predicate Possible(p: Scheme, bases: set<Text>, s: System, steps: seq<Step>)
    decreases |steps|
  {
    steps == [] || (Enabled(bases, s, steps[0]) && Possible(p, bases, Apply(p, bases, s, steps[0]), steps[1..]))
  }

  function After(p: Scheme, bases: set<Text>, s: System, steps: seq<Step>): System
    requires Possible(p, bases, s, steps)
    decreases |steps|
  {
    if steps == [] then s else After(p, bases, Apply(p, bases, s, steps[0]), steps[1..])
  }

  lemma FirstRunIsSafe(p: Scheme, bases: set<Text>)
    ensures Safe(p, bases, FIRST_RUN)
  {
  }

  /** Over any interleaving, crashes and resumes included, every customer file on disk has its
      claim in the durable checkpoint, and so has every finished one. */
  lemma {:induction false} RunsStaySafe(p: Scheme, bases: set<Text>, s: System, steps: seq<Step>)
    requires Safe(p, bases, s) && Possible(p, bases, s, steps)
    ensures Safe(p, bases, After(p, bases, s, steps))
    ensures DiskGrows(s.chain.disk, After(p, bases, s, steps).chain.disk)
    decreases |steps|
  {
    if steps == [] {
    } else {
      StepKeepsSafe(p, bases, s, steps[0]);
      StepGrowsDisk(p, bases, s, steps[0]);
      RunsStaySafe(p, bases, Apply(p, bases, s, steps[0]), steps[1..]);
    }
  }

  /** In every checkpoint that reaches the disk, a finished customer file has its claim. */
  lemma CheckpointedFilesAreClaimed(p: Scheme, bases: set<Text>, steps: seq<Step>, id: Text)
    requires Possible(p, bases, FIRST_RUN, steps) && Under(bases, id)
    requires After(p, bases, FIRST_RUN, steps).chain.disk.Some?
    requires id in After(p, bases, FIRST_RUN, steps).chain.disk.value.finished
    ensures Owned(p, bases, After(p, bases, FIRST_RUN, steps).chain.disk.value.claims, id)
  {
    FirstRunIsSafe(p, bases);
    RunsStaySafe(p, bases, FIRST_RUN, steps);
  }

  /** A path that once held a customer file never holds another one, in this run or any later
      one, nor does a path that folds onto it or lies below it. */
  lemma PathsAreNeverReassigned(p: Scheme, bases: set<Text>, steps: seq<Step>, later: seq<Step>, path1: Text,
                                path2: Text)
    requires UsableScheme(p) && BasesApart(p, bases)
    requires Possible(p, bases, FIRST_RUN, steps) && Possible(p, bases, After(p, bases, FIRST_RUN, steps), later)
    requires var s1 := After(p, bases, FIRST_RUN, steps);
             path1 in s1.files && path2 in After(p, bases, s1, later).files
    requires FoldsOnto(p, path1, path2) || FoldsOnto(p, path2, path1)
    ensures var s1 := After(p, bases, FIRST_RUN, steps);
            path1 == path2 && After(p, bases, s1, later).files[path2] == s1.files[path1]
  {
    FirstRunIsSafe(p, bases);
    RunsStaySafe(p, bases, FIRST_RUN, steps);
    var s1 := After(p, bases, FIRST_RUN, steps);
    RunsStaySafe(p, bases, s1, later);
    var s2 := After(p, bases, s1, later);
    var d1, d2 := s1.chain.disk.value.claims, s2.chain.disk.value.claims;
    var o1, o2 := s1.files[path1], s2.files[path2];
    AssignedIsStable(p, d1, d2, o1, path1);
    if FoldsOnto(p, path1, path2) {
      OneFilePerPath(p, d2, bases, o1, o2, path1, path2);
    } else {
      OneFilePerPath(p, d2, bases, o2, o1, path2, path1);
    }
  }

  /** When a resumed item skips, the file on disk was written for the same customer path. */
  lemma SkippedFileIsTheRightOne(p: Scheme, bases: set<Text>, steps: seq<Step>, walk: nat, job: nat)
    requires UsableScheme(p) && BasesApart(p, bases) && Possible(p, bases, FIRST_RUN, steps)
    requires var s := After(p, bases, FIRST_RUN, steps);
             && walk < |s.walks| && job < |s.walks[walk].jobs| && s.walks[walk].ticket < s.chain.resolved
             && Skips(s, s.walks[walk].jobs[job].relative)
    ensures var s := After(p, bases, FIRST_RUN, steps);
            var j := s.walks[walk].jobs[job];
            j.relative in s.files && s.files[j.relative] == j.origin
  {
    FirstRunIsSafe(p, bases);
    RunsStaySafe(p, bases, FIRST_RUN, steps);
    var s := After(p, bases, FIRST_RUN, steps);
    var j := s.walks[walk].jobs[job];
    StartedJobIsDurable(p, bases, s, walk, job);
    AssignedIsUnder(p, bases, s.chain.disk.value.claims, j.origin, j.relative);
    assert FinishedOwned(p, bases, s.chain.mem);
    assert j.relative in s.chain.mem.finished[j.relative].outputs;
    assert FoldsOnto(p, j.relative, j.relative);
    OneFilePerPath(p, s.chain.disk.value.claims, bases, s.files[j.relative], j.origin, j.relative, j.relative);
  }
}
