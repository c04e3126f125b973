/** The bookkeeping of items that run side by side: what `finished` and `warnings` say when a run
    of the step system ends. */
module Ledger {
  import opened JsText
  import opened Options
  import opened PathTree
  import opened CustomerPaths
  import opened ExportStates
  import opened Layout
  import opened Protocol

  /** How the last run of an item in this process went; Forgotten is a walk over stored objects
      that is to be made again. */
  datatype Outcome = Skipped | Stored | Lacking | Forgotten

  /** What happened in this process: */
  datatype Books = Books(
    outcomes: map<Text, Outcome>, // of the items that are over
    started: set<Text>,           // every item started
    lost: set<Text>,              // files that disappeared and were not written again
    found: set<Text>)             // the warnings there were when the process opened the export

  const NEW_BOOKS := Books(map[], {}, {}, {})

  /** The item a step starts. */
  function StartedBy(s: System, step: Step): Option<Text> {
    match step
    case Start(_, walk, job) =>
      if walk < |s.walks| && job < |s.walks[walk].jobs| then Some(s.walks[walk].jobs[job].relative) else None
    case StartOwn(_, id) => Some(id)
    case _ => None
  }

  function NoteStart(s: System, books: Books, id: Text): Books {
    books.(started := books.started + {id},
           outcomes := if Skips(s, id) then books.outcomes[id := Skipped] else books.outcomes - {id})
  }

  function NoteForgotten(books: Books, id: Text): Books {
    if id in books.outcomes && !books.outcomes[id].Lacking? then books.(outcomes := books.outcomes[id := Forgotten])
    else books
  }

  function WarnedOnDisk(s: System): set<Text> {
    if s.chain.disk.Some? then s.chain.disk.value.warnings.Keys else {}
  }

  function Note(s: System, books: Books, step: Step): Books {
    if StartedBy(s, step).Some? then NoteStart(s, books, StartedBy(s, step).value)
    else match step
      case Place(flight) =>
        if flight in s.flights then books.(lost := books.lost - {IdOf(s.flights[flight].action)}) else books
      case Succeed(flight, _) =>
        if flight in s.flights then books.(outcomes := books.outcomes[IdOf(s.flights[flight].action) := Stored])
        else books
      case Fail(flight, _) =>
        if flight in s.flights then books.(outcomes := books.outcomes[IdOf(s.flights[flight].action) := Lacking])
        else books
      case Forget(id) => NoteForgotten(books, id)
      case Write(path) => books.(lost := books.lost - {path})
      case Lose(path) => books.(lost := books.lost + {path})
      case Crash => Books(map[], {}, {}, WarnedOnDisk(s))
      case _ => books
  }

  /** No item starts while another with the same id is in flight. */
  predicate NoOverlap(s: System, step: Step) {
    StartedBy(s, step).Some? ==> forall f | f in s.flights :: IdOf(s.flights[f].action) != StartedBy(s, step).value
  }

  /** No item is both finished and warned of. */
  predicate Disjoint(st: ExportState) {
    forall id | id in st.finished :: id !in st.warnings && !NoteId(id)
  }

  ghost predicate AllDisjoint(history: seq<ExportState>) {
    forall i | 0 <= i < |history| :: Disjoint(history[i])
  }

  predicate FlightsApart(flights: map<nat, Flight>) {
    forall f, g | f in flights && g in flights && f != g :: IdOf(flights[f].action) != IdOf(flights[g].action)
  }

  function InFlight(flights: map<nat, Flight>): set<Text> { set f | f in flights :: IdOf(flights[f].action) }

  /** An item in flight is neither finished nor settled, and its output, once placed, is on disk
      unless lost. */
  predicate FlightsOpen(s: System, books: Books) {
    forall f | f in s.flights ::
      var id := IdOf(s.flights[f].action);
      && id !in s.chain.mem.finished && id !in books.outcomes && !NoteId(id)
      && (s.flights[f].placed ==> OnDisk(s, id) || id in books.lost)
  }

  predicate OutputsThere(s: System, lost: set<Text>, id: Text)
    requires id in s.chain.mem.finished
  {
    forall output | output in s.chain.mem.finished[id].outputs :: OnDisk(s, output) || output in lost
  }

  /** What is booked of an item that is over. */
  predicate BookedRight(s: System, lost: set<Text>, id: Text, outcome: Outcome) {
    match outcome
    case Lacking => id in s.chain.mem.warnings && id !in s.chain.mem.finished
    case Forgotten => ObjectWalkId(id) && id !in s.chain.mem.warnings && id !in s.chain.mem.finished
    case _ => id in s.chain.mem.finished && OutputsThere(s, lost, id)
  }

  predicate OutcomesBooked(s: System, books: Books) {
    forall id | id in books.outcomes :: !NoteId(id) && BookedRight(s, books.lost, id, books.outcomes[id])
  }

  /** Every item started is over or in flight. */
  predicate NoneForgotten(s: System, books: Books) { books.started == books.outcomes.Keys + InFlight(s.flights) }

  /** Warnings of items not started are those the process found. */
  ghost predicate OthersUntouched(s: System, books: Books) {
    forall id | id !in books.started && !NoteId(id) :: id in s.chain.mem.warnings <==> id in books.found
  }

  /** The states of the chain, live and written. */
  ghost predicate ChainBalanced(s: System) {
    && s.chain.history != [] && s.chain.mem == s.chain.history[|s.chain.history| - 1]
    && (s.chain.disk.Some? ==> Disjoint(s.chain.disk.value))
    && (s.chain.writing.Some? ==> Disjoint(s.chain.writing.value))
    && AllDisjoint(s.chain.history)
  }

  /** The bookkeeping agrees with how the items went. */
  ghost predicate ItemsBalanced(s: System, books: Books) {
    && FlightsApart(s.flights) && FlightsOpen(s, books)
    && OutcomesBooked(s, books) && NoneForgotten(s, books) && OthersUntouched(s, books)
  }

  ghost predicate Balanced(s: System, books: Books) { ChainBalanced(s) && ItemsBalanced(s, books) }

  ghost predicate Orderly(p: Scheme, bases: set<Text>, s: System, steps: seq<Step>)
    decreases |steps|
  {
    steps == [] ||
    (Enabled(bases, s, steps[0]) && NoOverlap(s, steps[0])
     && Orderly(p, bases, Apply(p, bases, s, steps[0]), steps[1..]))
  }

  ghost function Booked(p: Scheme, bases: set<Text>, s: System, books: Books, steps: seq<Step>): (System, Books)
    requires Orderly(p, bases, s, steps)
    decreases |steps|
  {
    if steps == [] then (s, books)
    else Booked(p, bases, Apply(p, bases, s, steps[0]), Note(s, books, steps[0]), steps[1..])
  }

  /** Customer files are exported under directories that are no warning's id. */
  predicate CustomerDirs(bases: set<Text>) { forall base | base in bases :: CustomerDir(base) }

  lemma NotesAreNotUnder(bases: set<Text>, id: Text)
    requires CustomerDirs(bases) && Under(bases, id)
    ensures !NoteId(id) && !OwnId(id) && !ObjectWalkId(id)
  {
    var base :| base in bases && base + [SLASH] <= id;
    UnderIsInside(base, id);
    SplitHead(base);
    SplitHead(id);
    SplitAtSlash(base, id[|base| + 1..]);
    assert id == base + [SLASH] + id[|base| + 1..];
    assert Split(id)[0] == Split(base)[0];
    KindsOfIdsDiffer(id);
  }

  /** All the walk's own ids may be started as such. */
  lemma OwnIdsMayStart(bases: set<Text>, id: Text)
    requires CustomerDirs(bases) && (OwnId(id) || ObjectWalkId(id))
    ensures !Under(bases, id) && !NoteId(id)
  {
    KindsOfIdsDiffer(id);
    if Under(bases, id) { NotesAreNotUnder(bases, id); }
  }

  lemma StartedJobIsUnder(p: Scheme, bases: set<Text>, s: System, walk: nat, job: nat)
    requires Safe(p, bases, s) && walk < |s.walks| && job < |s.walks[walk].jobs|
    ensures Under(bases, s.walks[walk].jobs[job].relative)
  {
    var j := s.walks[walk].jobs[job];
    var called := s.chain.history[s.chain.calls[s.walks[walk].ticket]];
    assert JobClaimed(p, bases, called, j);
    AssignedIsUnder(p, bases, called.claims, j.origin, j.relative);
  }

  lemma NoNoteStarts(p: Scheme, bases: set<Text>, s: System, step: Step)
    requires Safe(p, bases, s) && CustomerDirs(bases) && Enabled(bases, s, step) && StartedBy(s, step).Some?
    ensures !NoteId(StartedBy(s, step).value)
  {
    if step.Start? {
      StartedJobIsUnder(p, bases, s, step.walk, step.job);
      NotesAreNotUnder(bases, StartedBy(s, step).value);
    }
  }

  // ---- each step keeps it ----

  /** A new live state that books no item otherwise than it should leaves the chain balanced. */
  lemma ChainStaysBalanced(s: System, to: ExportState)
    requires ChainBalanced(s) && Disjoint(to)
    ensures ChainBalanced(s.(chain := Mutate(s.chain, to))) && ChainBalanced(s.(chain := CallSave(Mutate(s.chain, to))))
  {
  }

  lemma SkipBalances(s: System, books: Books, flight: nat, action: Action)
    requires Balanced(s, books) && Skips(s, IdOf(action)) && !NoteId(IdOf(action))
    requires forall f | f in s.flights :: IdOf(s.flights[f].action) != IdOf(action)
    ensures Balanced(Enter(s, flight, action), NoteStart(s, books, IdOf(action)))
  {
  }

  lemma FlightsEnter(flights: map<nat, Flight>, flight: nat, action: Action)
    requires flight !in flights && FlightsApart(flights)
    requires forall f | f in flights :: IdOf(flights[f].action) != IdOf(action)
    ensures var flights' := flights[flight := Flight(action, false)];
            InFlight(flights') == InFlight(flights) + {IdOf(action)} && FlightsApart(flights')
  {
    var flights' := flights[flight := Flight(action, false)];
    assert flights'[flight].action == action;
    forall id | id in InFlight(flights) ensures id in InFlight(flights') {
      var f :| f in flights && IdOf(flights[f].action) == id;
      assert f in flights' && IdOf(flights'[f].action) == id;
    }
  }

  lemma FlightsLeave(flights: map<nat, Flight>, flight: nat)
    requires flight in flights && FlightsApart(flights)
    ensures InFlight(flights - {flight}) == InFlight(flights) - {IdOf(flights[flight].action)}
    ensures FlightsApart(flights - {flight})
  {
    forall id | id in InFlight(flights) && id != IdOf(flights[flight].action)
      ensures id in InFlight(flights - {flight})
    {
      var f :| f in flights && IdOf(flights[f].action) == id;
      assert f in flights - {flight};
    }
  }

  lemma EnterBalances(s: System, books: Books, flight: nat, action: Action)
    requires Balanced(s, books) && flight !in s.flights && !Skips(s, IdOf(action)) && !NoteId(IdOf(action))
    requires forall f | f in s.flights :: IdOf(s.flights[f].action) != IdOf(action)
    ensures Balanced(Enter(s, flight, action), NoteStart(s, books, IdOf(action)))
  {
    assert Disjoint(s.chain.mem);
    ChainStaysBalanced(s, Started(s.chain.mem, IdOf(action)));
    ItemsEnter(s, books, flight, action, Enter(s, flight, action));
  }

  lemma ItemsEnter(s: System, books: Books, flight: nat, action: Action, s': System)
    requires ItemsBalanced(s, books) && flight !in s.flights && !Skips(s, IdOf(action)) && !NoteId(IdOf(action))
    requires forall f | f in s.flights :: IdOf(s.flights[f].action) != IdOf(action)
    requires s'.chain.mem == Started(s.chain.mem, IdOf(action)) && s'.files == s.files && s'.own == s.own
    requires s'.flights == s.flights[flight := Flight(action, false)]
    ensures ItemsBalanced(s', NoteStart(s, books, IdOf(action)))
  {
    FlightsEnter(s.flights, flight, action);
    forall x | x in books.outcomes && x != IdOf(action) ensures BookedRight(s', books.lost, x, books.outcomes[x]) {
      assert BookedRight(s, books.lost, x, books.outcomes[x]);
    }
  }

  lemma StartBalances(p: Scheme, bases: set<Text>, s: System, books: Books, step: Step)
    requires Safe(p, bases, s) && CustomerDirs(bases) && Balanced(s, books)
    requires Enabled(bases, s, step) && NoOverlap(s, step) && StartedBy(s, step).Some?
    ensures Balanced(Apply(p, bases, s, step), Note(s, books, step))
  {
    NoNoteStarts(p, bases, s, step);
    var action := if step.Start? then Customer(s.walks[step.walk].jobs[step.job]) else Own(step.id);
    if Skips(s, IdOf(action)) {
      SkipBalances(s, books, step.flight, action);
    } else {
      EnterBalances(s, books, step.flight, action);
    }
  }

  lemma PlacedIsOnDisk(s: System, flight: nat)
    requires flight in s.flights
    ensures var id := IdOf(s.flights[flight].action);
            forall path :: OnDisk(PlaceOutput(s, flight), path) <==> OnDisk(s, path) || path == id
    ensures var s' := PlaceOutput(s, flight);
            && s'.chain == s.chain && s'.flights == s.flights[flight := Flight(s.flights[flight].action, true)]
            && InFlight(s'.flights) == InFlight(s.flights)
    ensures FlightsApart(s.flights) ==> FlightsApart(PlaceOutput(s, flight).flights)
  {
    var s' := PlaceOutput(s, flight);
    assert forall f | f in s.flights :: s'.flights[f].action == s.flights[f].action;
  }

  lemma PlaceBalances(s: System, books: Books, flight: nat)
    requires Balanced(s, books) && flight in s.flights
    ensures Balanced(PlaceOutput(s, flight), books.(lost := books.lost - {IdOf(s.flights[flight].action)}))
  {
    PlacedIsOnDisk(s, flight);
    PlacedBalances(s, books, flight, PlaceOutput(s, flight));
  }

  lemma PlacedBalances(s: System, books: Books, flight: nat, s': System)
    requires Balanced(s, books) && flight in s.flights && s'.chain == s.chain
    requires var id := IdOf(s.flights[flight].action);
             forall path :: OnDisk(s', path) <==> OnDisk(s, path) || path == id
    requires s'.flights == s.flights[flight := Flight(s.flights[flight].action, true)]
    requires InFlight(s'.flights) == InFlight(s.flights) && FlightsApart(s'.flights)
    ensures Balanced(s', books.(lost := books.lost - {IdOf(s.flights[flight].action)}))
  {
    ChainAlike(s, s');
    ItemsPlaced(s, books, flight, s');
  }

  lemma ChainAlike(s: System, s': System)
    requires ChainBalanced(s) && s'.chain == s.chain
    ensures ChainBalanced(s')
  {
  }

  lemma ItemsPlaced(s: System, books: Books, flight: nat, s': System)
    requires ItemsBalanced(s, books) && flight in s.flights && s'.chain == s.chain
    requires var id := IdOf(s.flights[flight].action);
             forall path :: OnDisk(s', path) <==> OnDisk(s, path) || path == id
    requires s'.flights == s.flights[flight := Flight(s.flights[flight].action, true)]
    requires InFlight(s'.flights) == InFlight(s.flights) && FlightsApart(s'.flights)
    ensures ItemsBalanced(s', books.(lost := books.lost - {IdOf(s.flights[flight].action)}))
  {
    var lost := books.lost - {IdOf(s.flights[flight].action)};
    forall x | x in books.outcomes ensures BookedRight(s', lost, x, books.outcomes[x]) {
      assert BookedRight(s, books.lost, x, books.outcomes[x]);
    }
  }

  lemma SucceedBalances(s: System, books: Books, flight: nat, record: Record)
    requires Balanced(s, books) && flight in s.flights && RecordFits(s.flights[flight], record)
    ensures var id := IdOf(s.flights[flight].action);
            Balanced(Finish(s, flight, Succeeded(s.chain.mem, id, record)),
                     books.(outcomes := books.outcomes[id := Stored]))
  {
    var id, to := IdOf(s.flights[flight].action), Succeeded(s.chain.mem, IdOf(s.flights[flight].action), record);
    NewStateIsDisjoint(s, to, id);
    ItemsSucceed(s, books, flight, record, Finish(s, flight, to));
  }

  lemma FailBalances(s: System, books: Books, flight: nat, error: Text)
    requires Balanced(s, books) && flight in s.flights
    ensures var id := IdOf(s.flights[flight].action);
            Balanced(Finish(s, flight, Failed(s.chain.mem, id, error)),
                     books.(outcomes := books.outcomes[id := Lacking]))
  {
    var id, to := IdOf(s.flights[flight].action), Failed(s.chain.mem, IdOf(s.flights[flight].action), error);
    NewStateIsDisjoint(s, to, id);
    ItemsFail(s, books, flight, error, Finish(s, flight, to));
  }

  lemma NewStateIsDisjoint(s: System, to: ExportState, id: Text)
    requires ChainBalanced(s) && !NoteId(id) && (id in to.finished ==> id !in to.warnings)
    requires forall x | x != id ::
               (x in to.finished ==> x in s.chain.mem.finished) && (x in to.warnings ==> x in s.chain.mem.warnings)
    ensures ChainBalanced(s.(chain := CallSave(Mutate(s.chain, to))))
  {
    assert Disjoint(s.chain.mem);
    assert Disjoint(to);
    ChainStaysBalanced(s, to);
  }

  lemma ItemsSucceed(s: System, books: Books, flight: nat, record: Record, s': System)
    requires ItemsBalanced(s, books) && flight in s.flights && RecordFits(s.flights[flight], record)
    requires s'.chain.mem == Succeeded(s.chain.mem, IdOf(s.flights[flight].action), record)
    requires s'.files == s.files && s'.own == s.own && s'.flights == s.flights - {flight}
    ensures ItemsBalanced(s', books.(outcomes := books.outcomes[IdOf(s.flights[flight].action) := Stored]))
  {
    FlightsLeave(s.flights, flight);
    var id := IdOf(s.flights[flight].action);
    var books' := books.(outcomes := books.outcomes[id := Stored]);
    forall x | x in books'.outcomes ensures BookedRight(s', books'.lost, x, books'.outcomes[x]) {
      if x != id { assert BookedRight(s, books.lost, x, books.outcomes[x]); }
    }
  }

  lemma ItemsFail(s: System, books: Books, flight: nat, error: Text, s': System)
    requires ItemsBalanced(s, books) && flight in s.flights
    requires s'.chain.mem == Failed(s.chain.mem, IdOf(s.flights[flight].action), error)
    requires s'.files == s.files && s'.own == s.own && s'.flights == s.flights - {flight}
    ensures ItemsBalanced(s', books.(outcomes := books.outcomes[IdOf(s.flights[flight].action) := Lacking]))
  {
    FlightsLeave(s.flights, flight);
    var id := IdOf(s.flights[flight].action);
    var books' := books.(outcomes := books.outcomes[id := Lacking]);
    forall x | x in books'.outcomes ensures BookedRight(s', books'.lost, x, books'.outcomes[x]) {
      if x != id { assert BookedRight(s, books.lost, x, books.outcomes[x]); }
    }
  }

  /** A live state that differs in warnings that are no item's, or in claims. */
  lemma SameBookingsBalance(s: System, books: Books, to: ExportState, s': System)
    requires Balanced(s, books) && to.finished == s.chain.mem.finished
    requires forall id | !NoteId(id) :: id in to.warnings <==> id in s.chain.mem.warnings
    requires s' == s.(chain := s'.chain, walks := s'.walks)
    requires s'.chain == Mutate(s.chain, to) || s'.chain == CallSave(Mutate(s.chain, to))
    ensures Balanced(s', books)
  {
    assert Disjoint(s.chain.mem);
    assert Disjoint(to);
    ChainStaysBalanced(s, to);
  }

  lemma ForgetBalances(s: System, books: Books, id: Text)
    requires Balanced(s, books) && ObjectWalkId(id)
    ensures Balanced(s.(chain := Mutate(s.chain, Started(s.chain.mem, id))), NoteForgotten(books, id))
  {
    assert Disjoint(s.chain.mem);
    ChainStaysBalanced(s, Started(s.chain.mem, id));
  }

  lemma CrashBalances(p: Scheme, bases: set<Text>, s: System, books: Books)
    requires Balanced(s, books)
    ensures Balanced(Apply(p, bases, s, Crash), Note(s, books, Crash))
  {
    assert InFlight(map[]) == {};
  }

  lemma WriteOwnBalances(p: Scheme, bases: set<Text>, s: System, books: Books, path: Text)
    requires Balanced(s, books) && Enabled(bases, s, Write(path))
    ensures Balanced(Apply(p, bases, s, Write(path)), Note(s, books, Write(path)))
  {
    ChainAlike(s, Apply(p, bases, s, Write(path)));
    ItemsWritten(s, books, path, Apply(p, bases, s, Write(path)));
  }

  lemma ItemsWritten(s: System, books: Books, path: Text, s': System)
    requires ItemsBalanced(s, books) && s' == s.(own := s.own + {path})
    ensures ItemsBalanced(s', books.(lost := books.lost - {path}))
  {
    forall x | x in books.outcomes ensures BookedRight(s', books.lost - {path}, x, books.outcomes[x]) {
      assert BookedRight(s, books.lost, x, books.outcomes[x]);
    }
  }

  lemma LoseBalances(p: Scheme, bases: set<Text>, s: System, books: Books, path: Text)
    requires Balanced(s, books)
    ensures Balanced(Apply(p, bases, s, Lose(path)), Note(s, books, Lose(path)))
  {
  }

  lemma WriteBalances(p: Scheme, bases: set<Text>, s: System, books: Books, step: Step)
    requires Balanced(s, books) && Enabled(bases, s, step) && (step.Save? || step.Begin? || step.Commit?)
    ensures Balanced(Apply(p, bases, s, step), books)
  {
    assert Disjoint(s.chain.mem);
    ItemsAlike(s, books, Apply(p, bases, s, step));
  }

  lemma ItemsAlike(s: System, books: Books, s': System)
    requires ItemsBalanced(s, books) && s' == s.(chain := s'.chain) && s'.chain.mem == s.chain.mem
    ensures ItemsBalanced(s', books)
  {
  }

  lemma ItemStepBalances(p: Scheme, bases: set<Text>, s: System, books: Books, step: Step)
    requires Safe(p, bases, s) && CustomerDirs(bases) && Balanced(s, books)
    requires Enabled(bases, s, step) && NoOverlap(s, step) && ItemStep(step)
    ensures Balanced(Apply(p, bases, s, step), Note(s, books, step))
  {
    match step
    case Start(_, _, _) => StartBalances(p, bases, s, books, step);
    case StartOwn(_, _) => StartBalances(p, bases, s, books, step);
    case Place(flight) => PlaceBalances(s, books, flight);
    case Succeed(flight, record) => SucceedBalances(s, books, flight, record);
    case Fail(flight, error) => FailBalances(s, books, flight, error);
    case Claim(base, paths) =>
      SameBookingsBalance(s, books, ClaimAll(p, s.chain.mem, base, paths).state, Apply(p, bases, s, step));
  }

  lemma OtherStepBalances(p: Scheme, bases: set<Text>, s: System, books: Books, step: Step)
    requires Balanced(s, books) && Enabled(bases, s, step) && !ItemStep(step)
    ensures Balanced(Apply(p, bases, s, step), Note(s, books, step))
  {
    var mem, s' := s.chain.mem, Apply(p, bases, s, step);
    match step
    case Forget(id) => ForgetBalances(s, books, id);
    case Warn(id, error) => SameBookingsBalance(s, books, Failed(mem, id, error), s');
    case Unwarn => SameBookingsBalance(s, books, mem.(warnings := mem.warnings - {WALK}), s');
    case Write(path) => WriteOwnBalances(p, bases, s, books, path);
    case Lose(path) => LoseBalances(p, bases, s, books, path);
    case Crash => CrashBalances(p, bases, s, books);
    case _ => WriteBalances(p, bases, s, books, step);
  }

  lemma StepBalances(p: Scheme, bases: set<Text>, s: System, books: Books, step: Step)
    requires Safe(p, bases, s) && CustomerDirs(bases) && Balanced(s, books)
    requires Enabled(bases, s, step) && NoOverlap(s, step)
    ensures Balanced(Apply(p, bases, s, step), Note(s, books, step))
  {
    if ItemStep(step) {
      ItemStepBalances(p, bases, s, books, step);
    } else {
      OtherStepBalances(p, bases, s, books, step);
    }
  }

  // ---- whole runs ----

  /** Over any interleaving in which items of the same id do not overlap, crashes and resumes
      included, no item is both finished and warned of, every item started is over or in flight,
      and each that is over is finished or warned of just as its last action went. */
  lemma {:induction false} RunsStayBalanced(p: Scheme, bases: set<Text>, s: System, books: Books, steps: seq<Step>)
    requires Safe(p, bases, s) && CustomerDirs(bases) && Balanced(s, books) && Orderly(p, bases, s, steps)
    ensures var (s', books') := Booked(p, bases, s, books, steps); Safe(p, bases, s') && Balanced(s', books')
    decreases |steps|
  {
    if steps == [] {
    } else {
      StepKeepsSafe(p, bases, s, steps[0]);
      StepBalances(p, bases, s, books, steps[0]);
      RunsStayBalanced(p, bases, Apply(p, bases, s, steps[0]), Note(s, books, steps[0]), steps[1..]);
    }
  }

  lemma FirstRunBalances()
    ensures Balanced(FIRST_RUN, NEW_BOOKS)
  {
    assert InFlight(map[]) == {};
  }

  /** When nothing is in flight, every item started is over, and the warnings that are items' are
      exactly those of items whose last action threw and the old ones of items not started. */
  lemma WarningsTellWhatIsLacking(p: Scheme, bases: set<Text>, steps: seq<Step>)
    requires CustomerDirs(bases) && Orderly(p, bases, FIRST_RUN, steps)
    requires Booked(p, bases, FIRST_RUN, NEW_BOOKS, steps).0.flights == map[]
    ensures var (s, books) := Booked(p, bases, FIRST_RUN, NEW_BOOKS, steps);
            && books.started == books.outcomes.Keys
            && forall id | !NoteId(id) :: id in s.chain.mem.warnings <==>
                 if id in books.started then books.outcomes[id].Lacking? else id in books.found
  {
    FirstRunIsSafe(p, bases);
    FirstRunBalances();
    RunsStayBalanced(p, bases, FIRST_RUN, NEW_BOOKS, steps);
    var (s, books) := Booked(p, bases, FIRST_RUN, NEW_BOOKS, steps);
    StartedIsOver(s, books);
  }

  lemma StartedIsOver(s: System, books: Books)
    requires Balanced(s, books) && s.flights == map[]
    ensures books.started == books.outcomes.Keys
    ensures forall id | !NoteId(id) :: id in s.chain.mem.warnings <==>
              if id in books.started then books.outcomes[id].Lacking? else id in books.found
  {
    assert InFlight(s.flights) == {};
    assert Disjoint(s.chain.mem);
    forall id | id in books.started ensures id in s.chain.mem.warnings <==> books.outcomes[id].Lacking? {
      assert BookedRight(s, books.lost, id, books.outcomes[id]);
    }
  }

  /** Without warnings, then, every item started is finished with its outputs on disk, but for files
      lost since and walks over stored objects, which are forgotten. A customer file that is on
      disk is that file's content. */
  lemma NoWarningsMeansNothingLacks(p: Scheme, bases: set<Text>, steps: seq<Step>, id: Text)
    requires CustomerDirs(bases) && Orderly(p, bases, FIRST_RUN, steps)
    requires var (s, books) := Booked(p, bases, FIRST_RUN, NEW_BOOKS, steps);
             s.flights == map[] && s.chain.mem.warnings == map[] && id in books.started
    ensures var (s, books) := Booked(p, bases, FIRST_RUN, NEW_BOOKS, steps);
            && id in books.outcomes
            && (if books.outcomes[id].Forgotten? then ObjectWalkId(id)
                else id in s.chain.mem.finished && OutputsThere(s, books.lost, id))
            && (Under(bases, id) && id !in books.lost ==>
                  id in s.files && JobClaimed(p, bases, s.chain.mem, Job(s.files[id], id)))
  {
    FirstRunIsSafe(p, bases);
    FirstRunBalances();
    RunsStayBalanced(p, bases, FIRST_RUN, NEW_BOOKS, steps);
    WarningsTellWhatIsLacking(p, bases, steps);
    var (s, books) := Booked(p, bases, FIRST_RUN, NEW_BOOKS, steps);
    if Under(bases, id) {
      NotesAreNotUnder(bases, id);
      FinishedFileIsThere(p, bases, s, books, id);
    } else {
      NothingNotesStarted(s, books, id);
    }
  }

  lemma NothingNotesStarted(s: System, books: Books, id: Text)
    requires Balanced(s, books) && s.flights == map[] && id in books.started && s.chain.mem.warnings == map[]
    ensures id in books.outcomes
    ensures if books.outcomes[id].Forgotten? then ObjectWalkId(id)
            else id in s.chain.mem.finished && OutputsThere(s, books.lost, id)
  {
    assert InFlight(s.flights) == {};
    assert BookedRight(s, books.lost, id, books.outcomes[id]);
  }

  lemma FinishedFileIsThere(p: Scheme, bases: set<Text>, s: System, books: Books, id: Text)
    requires Safe(p, bases, s) && Balanced(s, books) && s.flights == map[] && id in books.started
    requires s.chain.mem.warnings == map[] && Under(bases, id) && !ObjectWalkId(id)
    ensures id in s.chain.mem.finished && OutputsThere(s, books.lost, id)
    ensures id !in books.lost ==> id in s.files && JobClaimed(p, bases, s.chain.mem, Job(s.files[id], id))
  {
    NothingNotesStarted(s, books, id);
    assert FinishedOwned(p, bases, s.chain.mem);
    assert id in s.chain.mem.finished[id].outputs;
    if id !in books.lost {
      assert id in s.files;
      MemExtendsDisk(p, bases, s);
      AssignedIsStable(p, s.chain.disk.value.claims, s.chain.mem.claims, s.files[id], id);
    }
  }
}
