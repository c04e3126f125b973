/** The walk of an export against a server that may answer anything, in the order of the source,
    with the downloads of a listing interleaved, and the end-to-end promises: a complete export has
    left nothing out, and the warnings at the end are exactly those that tell of something. */
module Walk {
  import opened JsText
  import opened Options
  import opened PathTree
  import opened CustomerPaths
  import opened ExportStates
  import opened Layout
  import opened Writer
  import opened Archive
  import opened Progress

  /** What the server, the disk or the order of events answers: anything at all. */
  method Ask<T(0)>() returns (answer: T) {
    answer := *;
  }

  /** How an action ends. A throw may come before or after its output is in place. */
  datatype Ending = Returned(count: int) | Threw(error: Text, written: bool)

  /** What `cachedJson` gives its caller; Throws is an exception of its own. */
  datatype Fetched<+T> = Absent | Throws | Got(value: T)

  ghost predicate Ready(w: ExportWriter)
    reads w
  {
    UsableScheme(w.names) && BasesFit(w.names, w.bases) && Sane(w.names, w.bases, w.Now()) && w.flying == {}
  }

  /** From w0 the run went on to here, using no names but these. */
  ghost predicate Stage(w: ExportWriter, w0: World, plan: multiset<Visit>)
    reads w
  {
    Ready(w) && Goes(w.bases, w0, w.Now()) && w.visits <= w0.visits + plan
  }

  /** What was read so far can be relied on: every listing could be read, and none was taken for the
      automation index. */
  predicate Reliable(w: World) { w.unread == {} && AUTOMATION_INDEX !in w.reached }

  // ---- single items ----

  /** The action of an item and what follows it. */
  method RunAction(w: ExportWriter, id: Text, optional: bool, content: Content) returns (ghost how: How)
    modifies w`files, w`finished, w`warnings
    ensures !how.Skipped? && (how.Empty? ==> optional)
    ensures w.Now() == old(w.Now()).(
                         files := if how.Stored? || (how.Lacking? && how.written) then old(w.files)[id := content]
                                  else old(w.files),
                         state := match how
                                  case Stored(count) => Succeeded(old(w.State()), id, Record([id], count))
                                  case Empty(count) => Succeeded(old(w.State()), id, Record([], count))
                                  case Lacking(error, _) => Failed(old(w.State()), id, error)
                                  case Skipped => w.State())
  {
    var nothing: bool := Ask();
    var ending: Ending := Ask();
    if ending.Threw? {
      if ending.written { w.files := w.files[id := content]; }
      w.ItemFail(id, ending.error);
      how := Lacking(ending.error, ending.written);
    } else if optional && nothing {
      w.ItemSucceed(id, [], ending.count);
      how := Empty(ending.count);
    } else {
      w.files := w.files[id := content];
      w.ItemSucceed(id, [id], ending.count);
      how := Stored(ending.count);
    }
  }

  /** The run's own record of how the action went. */
  method NoteAction(w: ExportWriter, id: Text, ghost visit: Visit, ghost how: How)
    modifies w`lacking, w`faults, w`unread, w`written
    ensures w.Now() == old(w.Now()).(
                         written := if how.Lacking? then old(w.written) else Written(old(w.written), visit),
                         lacking := if how.Lacking? then old(w.lacking) + {id} else old(w.lacking) - {id},
                         faults := if how.Lacking? then old(w.faults) + {id} else old(w.faults),
                         unread := if how.Lacking? && visit.List? then old(w.unread) + {id} else old(w.unread))
  {
    if how.Lacking? {
      w.lacking, w.faults := w.lacking + {id}, w.faults + {id};
      if visit.List? { w.unread := w.unread + {id}; }
    } else {
      w.lacking, w.written := w.lacking - {id}, Written(w.written, visit);
    }
  }

  /** The action of an item that is not skipped, and all it changes. */
  method ActOn(w: ExportWriter, id: Text, ghost visit: Visit, optional: bool, content: Content, ghost w0: World)
    returns (ghost how: How)
    requires w.State() == Started(w0.state, id)
    requires w.Now() == w0.(state := w.State(), reached := w0.reached + {id}, visits := w0.visits + multiset{visit})
    modifies w
    ensures !how.Skipped? && (how.Empty? ==> optional) && w.Now() == ItemWorld(w0, id, visit, content, how)
  {
    how := RunAction(w, id, optional, content);
    NoteAction(w, id, visit, how);
  }

  /** `item` with an action that produces one output at the item's own id, or none. */
  method RunItem(w: ExportWriter, id: Text, ghost visit: Visit, optional: bool, content: Content)
    returns (ghost how: How)
    modifies w
    ensures w.Now() == ItemWorld(old(w.Now()), id, visit, content, how)
    ensures how.Skipped? <==> Skippable(old(w.Now()), id)
    ensures how.Empty? ==> optional
  {
    ghost var w0 := w.Now();
    how := Skipped;
    w.reached := w.reached + {id};
    w.visits := w.visits + multiset{visit};
    var skip := w.ItemStart(id);
    if !skip {
      how := ActOn(w, id, visit, optional, content, w0);
    }
  }

  method Item(w: ExportWriter, id: Text, ghost visit: Visit, optional: bool, content: Content) returns (ghost how: How)
    requires Ready(w) && OwnId(id) && VisitOf(visit, id) && Told(w.server, id, content)
    modifies w
    ensures Ready(w) && Goes(w.bases, old(w.Now()), w.Now())
    ensures w.Now() == ItemWorld(old(w.Now()), id, visit, content, how)
    ensures how.Skipped? <==> Skippable(old(w.Now()), id)
    ensures how.Empty? ==> optional
  {
    ghost var w0 := w.Now();
    how := RunItem(w, id, visit, optional, content);
    ItemMoves(w.bases, w0, id, visit, content, how);
    ItemSane(w.names, w.bases, w0, id, visit, content, how);
  }

  /** An item that writes a file of its own, or, if optional, finds there is nothing to write (a
      project without git history). A manifest value may be a list itself. */
  method LeafItem(w: ExportWriter, id: Text, ghost of: Text, optional: bool, content: Content)
    requires Ready(w) && OwnId(id) && Told(w.server, id, content)
    modifies w
    ensures Stage(w, old(w.Now()), multiset{Leaf(id, of)}) && Seen(w.names, w.Now()).item(id, of)
  {
    ghost var w0 := w.Now();
    ghost var how := Item(w, id, Leaf(id, of), optional, content);
    ItemEnds(w0, id, Leaf(id, of), content, how);
    VisitsGrow(w0, Leaf(id, of));
  }

  /** `cachedJson` of a listing. */
  method CachedListing(w: ExportWriter, id: Text) returns (r: Fetched<seq<Row>>)
    requires Ready(w) && OwnId(id)
    modifies w
    ensures Stage(w, old(w.Now()), multiset{List(id)}) && id in w.reached
    ensures r.Absent? ==> id in w.unread
    ensures r.Got? ==> Readable(w.Now(), id) && r.value == w.files[id].rows
  {
    ghost var w0 := w.Now();
    var k: nat := Ask();
    var rows := w.server.rows(k, id);
    ghost var how := Item(w, id, List(id), false, Listing(rows));
    ItemEnds(w0, id, List(id), Listing(rows), how);
    if id !in w.finished { return Absent; }
    if id !in w.files || !w.files[id].Listing? { return Throws; }
    return Got(w.files[id].rows);
  }

  /** `cachedJson` of the settings. */
  method CachedSettings(w: ExportWriter) returns (r: Fetched<Option<Manifest>>)
    requires Ready(w)
    modifies w
    ensures Ready(w) && Goes(w.bases, old(w.Now()), w.Now()) && w.visits == old(w.visits) + multiset{Leaf(SETTINGS, [])}
    ensures w.reached == old(w.reached) + {SETTINGS} && (r.Absent? ==> SETTINGS in w.warnings)
    ensures r.Got? ==> Skippable(w.Now(), SETTINGS) && SETTINGS in w.files && w.files[SETTINGS] == Settings(r.value)
  {
    OwnInOrg(Lit("settings.json"));
    ghost var w0 := w.Now();
    var k: nat := Ask();
    var manifest := w.server.settings(k);
    ghost var how := Item(w, SETTINGS, Leaf(SETTINGS, []), false, Settings(manifest));
    ItemEnds(w0, SETTINGS, Leaf(SETTINGS, []), Settings(manifest), how);
    if SETTINGS !in w.finished { return Absent; }
    if SETTINGS !in w.files || !w.files[SETTINGS].Settings? { return Throws; }
    return Got(w.files[SETTINGS].manifest);
  }

  // ---- claiming the names of a listing ----

  /** The result of claiming a whole listing, some of whose jobs were claimed before the rest. */
  function Continued(claimed: seq<Job>, rest: ClaimResult): ClaimResult {
    ClaimResult(rest.state, if rest.jobs.None? then None else Some(claimed + rest.jobs.value))
  }

  lemma ContinuedOnce(claimed: seq<Job>, job: Job, rest: ClaimResult)
    ensures Continued(claimed, Continued([job], rest)) == Continued(claimed + [job], rest)
  {
    if rest.jobs.Some? {
      assert claimed + ([job] + rest.jobs.value) == claimed + [job] + rest.jobs.value;
    }
  }

  lemma ContinuedEnds(claimed: seq<Job>, n: Scheme, st: ExportState, base: Text, paths: seq<Text>)
    ensures Continued([], ClaimAll(n, st, base, paths)) == ClaimAll(n, st, base, paths[0..])
    ensures Continued(claimed, ClaimAll(n, st, base, [])) == ClaimResult(st, Some(claimed))
  {
    assert paths[0..] == paths;
    var r := ClaimAll(n, st, base, paths);
    assert r.jobs.Some? ==> [] + r.jobs.value == r.jobs.value;
    assert claimed + [] == claimed;
  }

  lemma ClaimAllOnce(n: Scheme, st: ExportState, base: Text, paths: seq<Text>)
    requires paths != []
    ensures var r := TreeCall(n, TableOf(st), Call(base, paths[0]));
            ClaimAll(n, st, base, paths) ==
            if r.path.None? then ClaimResult(WithTable(st, r.table), None)
            else Continued([Job(OriginOf(Call(base, paths[0])), r.path.value)],
                           ClaimAll(n, WithTable(st, r.table), base, paths[1..]))
  {
  }

  /** Claiming the names of a listing, in listing order; None is a throw of `tree`. */
  method ClaimRows(w: ExportWriter, base: Text, paths: seq<Text>) returns (jobs: Option<seq<Job>>)
    modifies w`claims, w`mappings
    ensures ClaimResult(w.State(), jobs) == ClaimAll(w.names, old(w.State()), base, paths)
  {
    var claimed: seq<Job> := [];
    ghost var whole := ClaimAll(w.names, w.State(), base, paths);
    assert paths[0..] == paths && paths[|paths|..] == [];
    ContinuedEnds([], w.names, w.State(), base, paths);
    for i := 0 to |paths|
      invariant whole == Continued(claimed, ClaimAll(w.names, w.State(), base, paths[i..]))
    {
      assert paths[i..][0] == paths[i] && paths[i..][1..] == paths[i + 1..];
      ClaimAllOnce(w.names, w.State(), base, paths[i..]);
      var path := w.Tree(base, paths[i]);
      if path.None? { return None; }
      var job := Job(OriginOf(Call(base, paths[i])), path.value);
      ContinuedOnce(claimed, job, ClaimAll(w.names, w.State(), base, paths[i + 1..]));
      claimed := claimed + [job];
    }
    ContinuedEnds(claimed, w.names, w.State(), base, paths);
    return Some(claimed);
  }

  ghost predicate JobsFor(n: Scheme, w: World, base: Text, paths: seq<Text>, jobs: seq<Job>) {
    JobsClaimed(n, {base}, w.state, base, paths, jobs)
  }

  method ClaimListing(w: ExportWriter, base: Text, paths: seq<Text>, ghost visited: bool)
    returns (jobs: Option<seq<Job>>)
    requires Ready(w)
    modifies w
    ensures w.Now() == ClaimedWorld(w.names, old(w.Now()), base, paths, visited)
    ensures Ready(w) && Goes(w.bases, old(w.Now()), w.Now())
    ensures jobs.Some? ==> JobsFor(w.names, w.Now(), base, paths, jobs.value)
  {
    ghost var w0 := w.Now();
    ClaimsMove(w.names, w.bases, w0, base, paths, visited);
    ClaimsSane(w.names, w.bases, w0, base, paths, visited);
    ClaimAllAssigns(w.names, {base}, w0.state, base, paths);
    jobs := NoteClaims(w, base, paths, visited);
  }

  method NoteClaims(w: ExportWriter, base: Text, paths: seq<Text>, ghost visited: bool) returns (jobs: Option<seq<Job>>)
    modifies w
    ensures w.Now() == ClaimedWorld(w.names, old(w.Now()), base, paths, visited)
    ensures jobs == ClaimAll(w.names, old(w.State()), base, paths).jobs
  {
    jobs := ClaimRows(w, base, paths);
    if visited { w.visits := w.visits + multiset{Dir(base, paths)}; }
  }

  // ---- the downloads of a claimed listing, interleaved ----

  function Relatives(jobs: seq<Job>, flights: set<nat>): set<Text>
    requires forall k | k in flights :: k < |jobs|
  {
    set k | k in flights :: jobs[k].relative
  }

  /** The flights of a pool of workers: those still fetching and those whose file is placed. */
  ghost predicate Flights(w: World, jobs: seq<Job>, index: nat, fetching: set<nat>, placed: set<nat>) {
    && index <= |jobs| && fetching !! placed
    && (forall k | k in fetching + placed :: k < index)
    && w.flying == Relatives(jobs, fetching + placed)
    && (forall k | k in placed :: jobs[k].relative in w.files)
    && (forall k | 0 <= k < index :: jobs[k].relative in w.reached)
    && (forall j, k | j in fetching + placed && k in fetching + placed
                      && j < k && jobs[j].relative == jobs[k].relative ::
          jobs[k].relative in w.torn)
  }

  predicate JobsDiffer(jobs: seq<Job>) {
    forall j, k | 0 <= j < k < |jobs| :: jobs[j].relative != jobs[k].relative
  }

  /** What a pool keeps from its start on. */
  ghost predicate PoolGoes(n: Scheme, bases: set<Text>, jobs: seq<Job>, w0: World, w: World) {
    && Sane(n, bases, w) && Moves(w0, w)
    && w.state.claims == w0.state.claims && w.visits == w0.visits && w.unread == w0.unread
    && w.listed == w0.listed && w.blocked == w0.blocked && w.scopes == w0.scopes
    && (forall id | id in w.reached && id !in w0.reached :: exists k :: 0 <= k < |jobs| && jobs[k].relative == id)
    && (JobsDiffer(jobs) ==> w.torn == w0.torn)
  }

  /** The jobs are for files of one known directory. */
  ghost predicate JobsFit(n: Scheme, bases: set<Text>, w: World, jobs: seq<Job>) {
    forall k | 0 <= k < |jobs| ::
      && CustomerId(jobs[k].relative) && (Known(bases, w) ==> JobClaimed(n, bases, w.state, jobs[k]))
      && (Below(R2, jobs[k].relative) ==> ObjectAsked(n, w.state.claims, w.scopes, jobs[k].relative))
  }

  /** What one uninterrupted stretch of a download leaves alone. */
  ghost predicate PoolStep(jobs: seq<Job>, w: World, w': World) {
    && w'.state.claims == w.state.claims && w'.visits == w.visits && w'.unread == w.unread
    && w'.listed == w.listed && w'.blocked == w.blocked && w'.scopes == w.scopes
    && (JobsDiffer(jobs) ==> w'.torn == w.torn)
    && (forall id | id in w'.reached && id !in w.reached :: exists k :: 0 <= k < |jobs| && jobs[k].relative == id)
  }

  lemma PoolOn(n: Scheme, bases: set<Text>, jobs: seq<Job>, w0: World, w: World, w': World)
    requires PoolGoes(n, bases, jobs, w0, w) && Sane(n, bases, w') && Moves(w, w') && PoolStep(jobs, w, w')
    ensures PoolGoes(n, bases, jobs, w0, w')
  {
    MovesOn(w0, w, w');
  }

  lemma BeginFlights(w: World, jobs: seq<Job>, index: nat, fetching: set<nat>, placed: set<nat>)
    requires Flights(w, jobs, index, fetching, placed) && index < |jobs|
    ensures var id := jobs[index].relative;
            var fetching' := if Skippable(w, id) then fetching else fetching + {index};
            Flights(BeginWorld(w, id), jobs, index + 1, fetching', placed)
    ensures JobsDiffer(jobs) ==> BeginWorld(w, jobs[index].relative).torn == w.torn
  {
    var id := jobs[index].relative;
    var w' := BeginWorld(w, id);
    var fetching' := if Skippable(w, id) then fetching else fetching + {index};
    assert w'.flying == Relatives(jobs, fetching' + placed) by {
      assert fetching + {index} + placed == fetching + placed + {index};
    }
    forall j, k | j in fetching' + placed && k in fetching' + placed && j < k && jobs[j].relative == jobs[k].relative
      ensures jobs[k].relative in w'.torn
    {
      if k == index { assert jobs[j].relative in Relatives(jobs, fetching + placed); }
    }
    if JobsDiffer(jobs) {
      forall x | x in Relatives(jobs, fetching + placed) ensures x != id { }
    }
  }

  lemma BeginStep(n: Scheme, bases: set<Text>, jobs: seq<Job>, w0: World, w: World,
                  index: nat, fetching: set<nat>, placed: set<nat>)
    requires PoolGoes(n, bases, jobs, w0, w) && JobsFit(n, bases, w, jobs)
    requires Flights(w, jobs, index, fetching, placed) && index < |jobs|
    ensures PoolGoes(n, bases, jobs, w0, BeginWorld(w, jobs[index].relative))
  {
    var id := jobs[index].relative;
    BeginFlights(w, jobs, index, fetching, placed);
    PoolBegins(n, bases, jobs, w0, w, index);
  }

  lemma PoolBegins(n: Scheme, bases: set<Text>, jobs: seq<Job>, w0: World, w: World, index: nat)
    requires PoolGoes(n, bases, jobs, w0, w) && index < |jobs| && JobsFit(n, bases, w, jobs)
    requires JobsDiffer(jobs) ==> BeginWorld(w, jobs[index].relative).torn == w.torn
    ensures PoolGoes(n, bases, jobs, w0, BeginWorld(w, jobs[index].relative))
  {
    var id := jobs[index].relative;
    BeginMoves(w, id);
    BeginSane(n, bases, w, id);
    BeginIsStep(jobs, w, index);
    PoolOn(n, bases, jobs, w0, w, BeginWorld(w, id));
  }

  lemma BeginIsStep(jobs: seq<Job>, w: World, index: nat)
    requires index < |jobs| && (JobsDiffer(jobs) ==> BeginWorld(w, jobs[index].relative).torn == w.torn)
    ensures PoolStep(jobs, w, BeginWorld(w, jobs[index].relative))
  {
  }

  lemma PlaceStep(n: Scheme, bases: set<Text>, jobs: seq<Job>, w0: World, w: World,
                  index: nat, fetching: set<nat>, placed: set<nat>, k: nat)
    requires PoolGoes(n, bases, jobs, w0, w) && JobsFit(n, bases, w, jobs)
    requires Flights(w, jobs, index, fetching, placed) && k in fetching
    ensures PoolGoes(n, bases, jobs, w0, PlaceWorld(w, jobs[k]))
    ensures Flights(PlaceWorld(w, jobs[k]), jobs, index, fetching - {k}, placed + {k})
  {
    PoolPlaces(n, bases, jobs, w0, w, k);
    PlaceFlights(w, jobs, index, fetching, placed, k);
  }

  lemma PoolPlaces(n: Scheme, bases: set<Text>, jobs: seq<Job>, w0: World, w: World, k: nat)
    requires PoolGoes(n, bases, jobs, w0, w) && JobsFit(n, bases, w, jobs) && k < |jobs|
    ensures PoolGoes(n, bases, jobs, w0, PlaceWorld(w, jobs[k]))
  {
    PlaceMoves(w, jobs[k]);
    PlaceSane(n, bases, w, jobs[k]);
    PoolOn(n, bases, jobs, w0, w, PlaceWorld(w, jobs[k]));
  }

  lemma PlaceFlights(w: World, jobs: seq<Job>, index: nat, fetching: set<nat>, placed: set<nat>, k: nat)
    requires Flights(w, jobs, index, fetching, placed) && k in fetching
    ensures Flights(PlaceWorld(w, jobs[k]), jobs, index, fetching - {k}, placed + {k})
  {
    assert fetching - {k} + (placed + {k}) == fetching + placed;
  }

  /** Another flight of the pool holds the same id. */
  predicate StillHeld(jobs: seq<Job>, flights: set<nat>, k: nat)
    requires k < |jobs| && forall j | j in flights :: j < |jobs|
  {
    exists j :: j in flights && j != k && jobs[j].relative == jobs[k].relative
  }

  lemma EndFlights(w: World, jobs: seq<Job>, index: nat, fetching: set<nat>, placed: set<nat>, k: nat,
                   error: Option<Text>)
    requires Flights(w, jobs, index, fetching, placed) && k in fetching + placed
    ensures var still := StillHeld(jobs, fetching + placed, k);
            && (still ==> jobs[k].relative in w.torn)
            && Flights(EndWorld(w, jobs[k].relative, error, still), jobs, index, fetching - {k}, placed - {k})
  {
    var rest := fetching - {k} + (placed - {k});
    assert rest == fetching + placed - {k};
    if StillHeld(jobs, fetching + placed, k) {
      var j :| j in fetching + placed && j != k && jobs[j].relative == jobs[k].relative;
      assert j in rest;
      if j < k { assert jobs[k].relative in w.torn; } else { assert jobs[j].relative in w.torn; }
      assert Relatives(jobs, rest) == Relatives(jobs, fetching + placed);
    } else {
      assert Relatives(jobs, rest) == Relatives(jobs, fetching + placed) - {jobs[k].relative};
    }
  }

  lemma EndStep(n: Scheme, bases: set<Text>, jobs: seq<Job>, w0: World, w: World,
                index: nat, fetching: set<nat>, placed: set<nat>, k: nat, error: Option<Text>)
    requires PoolGoes(n, bases, jobs, w0, w) && JobsFit(n, bases, w, jobs)
    requires Flights(w, jobs, index, fetching, placed) && k in fetching + placed && (error.None? ==> k in placed)
    ensures var w' := EndWorld(w, jobs[k].relative, error, StillHeld(jobs, fetching + placed, k));
            PoolGoes(n, bases, jobs, w0, w') && Flights(w', jobs, index, fetching - {k}, placed - {k})
  {
    var id, still := jobs[k].relative, StillHeld(jobs, fetching + placed, k);
    EndFlights(w, jobs, index, fetching, placed, k, error);
    assert id in Relatives(jobs, fetching + placed);
    EndMoves(w, id, error, still);
    EndSane(n, bases, w, id, error, still);
    PoolOn(n, bases, jobs, w0, w, EndWorld(w, id, error, still));
  }

  method BeginDownload(w: ExportWriter, id: Text) returns (skip: bool)
    modifies w
    ensures skip == Skippable(old(w.Now()), id) && w.Now() == BeginWorld(old(w.Now()), id)
  {
    w.reached := w.reached + {id};
    skip := w.ItemStart(id);
    if !skip {
      if id in w.flying { w.torn := w.torn + {id}; }
      w.flying := w.flying + {id};
    }
  }

  method EndDownload(w: ExportWriter, id: Text, error: Option<Text>, ghost still: bool)
    modifies w
    ensures w.Now() == EndWorld(old(w.Now()), id, error, still)
  {
    if error.None? { w.ItemSucceed(id, [id], 1); } else { w.ItemFail(id, error.value); }
    NoteEnd(w, id, error.Some?, still);
  }

  method NoteEnd(w: ExportWriter, id: Text, ghost failed: bool, ghost still: bool)
    modifies w`lacking, w`faults, w`flying
    ensures w.lacking == if failed then old(w.lacking) + {id} else old(w.lacking) - {id}
    ensures w.faults == if failed then old(w.faults) + {id} else old(w.faults)
    ensures w.flying == if still then old(w.flying) else old(w.flying) - {id}
  {
    if failed { w.lacking, w.faults := w.lacking + {id}, w.faults + {id}; } else { w.lacking := w.lacking - {id}; }
    if !still { w.flying := w.flying - {id}; }
  }

  /** Where the workers are: the shared index, and the jobs in flight. */
  datatype Crew = Crew(index: nat, fetching: set<nat>, placed: set<nat>)

  ghost predicate PoolState(n: Scheme, bases: set<Text>, jobs: seq<Job>, w0: World, w: World, crew: Crew) {
    && PoolGoes(n, bases, jobs, w0, w) && JobsFit(n, bases, w, jobs)
    && Flights(w, jobs, crew.index, crew.fetching, crew.placed)
  }

  /** What is left to do. */
  function Work(jobs: seq<Job>, crew: Crew): int {
    3 * (|jobs| - crew.index) + 2 * |crew.fetching| + |crew.placed|
  }

  /** A free worker takes the next job. */
  method StartNext(w: ExportWriter, ghost w0: World, jobs: seq<Job>, crew: Crew) returns (crew': Crew)
    requires PoolState(w.names, w.bases, jobs, w0, w.Now(), crew) && crew.index < |jobs|
    modifies w
    ensures PoolState(w.names, w.bases, jobs, w0, w.Now(), crew') && 0 <= Work(jobs, crew') < Work(jobs, crew)
    ensures InHand(crew') <= InHand(crew) + 1
  {
    ghost var w1 := w.Now();
    BeginStep(w.names, w.bases, jobs, w0, w1, crew.index, crew.fetching, crew.placed);
    BeginFlights(w1, jobs, crew.index, crew.fetching, crew.placed);
    var skip := BeginDownload(w, jobs[crew.index].relative);
    return Crew(crew.index + 1, if skip then crew.fetching else crew.fetching + {crew.index}, crew.placed);
  }

  /** A worker's file is in place. */
  method PlaceOne(w: ExportWriter, ghost w0: World, jobs: seq<Job>, crew: Crew, k: nat) returns (crew': Crew)
    requires PoolState(w.names, w.bases, jobs, w0, w.Now(), crew) && k in crew.fetching && k < |jobs|
    modifies w
    ensures PoolState(w.names, w.bases, jobs, w0, w.Now(), crew') && 0 <= Work(jobs, crew') < Work(jobs, crew)
    ensures InHand(crew') <= InHand(crew)
  {
    PlaceStep(w.names, w.bases, jobs, w0, w.Now(), crew.index, crew.fetching, crew.placed, k);
    MoveIntoPlace(w, jobs[k]);
    return Crew(crew.index, crew.fetching - {k}, crew.placed + {k});
  }

  method MoveIntoPlace(w: ExportWriter, job: Job)
    modifies w`files
    ensures w.Now() == PlaceWorld(old(w.Now()), job)
  {
    w.files := w.files[job.relative := CustomerFile(job.origin)];
  }

  /** A worker's action is over. */
  method EndOne(w: ExportWriter, ghost w0: World, jobs: seq<Job>, crew: Crew, k: nat, error: Option<Text>)
    returns (crew': Crew)
    requires PoolState(w.names, w.bases, jobs, w0, w.Now(), crew) && k < |jobs|
    requires k in crew.placed || (k in crew.fetching && error.Some?)
    modifies w
    ensures PoolState(w.names, w.bases, jobs, w0, w.Now(), crew') && 0 <= Work(jobs, crew') < Work(jobs, crew)
    ensures InHand(crew') <= InHand(crew)
  {
    EndStep(w.names, w.bases, jobs, w0, w.Now(), crew.index, crew.fetching, crew.placed, k, error);
    EndDownload(w, jobs[k].relative, error, StillHeld(jobs, crew.fetching + crew.placed, k));
    crew' := Crew(crew.index, crew.fetching - {k}, crew.placed - {k});
    WithoutOne(crew.fetching, k);
    WithoutOne(crew.placed, k);
  }

  lemma WithoutOne(s: set<nat>, k: nat)
    ensures |s - {k}| == if k in s then |s| - 1 else |s|
  {
    if k !in s { assert s - {k} == s; }
  }

  function InHand(crew: Crew): nat { |crew.fetching| + |crew.placed| }

  /** `boundedMap` over the downloads of a claimed listing. Workers start them in order, at most
      `concurrency` at a time; which one places its file or ends next, and how, is open. */
  method Pool(w: ExportWriter, jobs: seq<Job>, concurrency: nat)
    requires Ready(w) && concurrency >= 1 && JobsFit(w.names, w.bases, w.Now(), jobs)
    modifies w
    ensures PoolGoes(w.names, w.bases, jobs, old(w.Now()), w.Now()) && w.flying == {}
    ensures forall k | 0 <= k < |jobs| :: jobs[k].relative in w.reached
  {
    ghost var w0 := w.Now();
    var crew := Crew(0, {}, {});
    PoolStarts(w.names, w.bases, jobs, w0);
    while crew.index < |jobs| || crew.fetching != {} || crew.placed != {}
      invariant PoolState(w.names, w.bases, jobs, w0, w.Now(), crew) && InHand(crew) <= concurrency
      decreases Work(jobs, crew)
    {
      var starts: bool := Ask();
      var places: bool := Ask();
      var error: Option<Text> := Ask();
      var idle := crew.fetching == {} && crew.placed == {};
      if crew.index < |jobs| && |crew.fetching| + |crew.placed| < concurrency && (starts || idle) {
        crew := StartNext(w, w0, jobs, crew);
      } else if crew.fetching != {} && (places || crew.placed == {}) {
        var k :| k in crew.fetching;
        if error.Some? { crew := EndOne(w, w0, jobs, crew, k, error); } else { crew := PlaceOne(w, w0, jobs, crew, k); }
      } else {
        var k :| k in crew.placed;
        crew := EndOne(w, w0, jobs, crew, k, error);
      }
    }
    PoolEnds(w.Now(), jobs, crew);
  }

  lemma PoolStarts(n: Scheme, bases: set<Text>, jobs: seq<Job>, w: World)
    requires Sane(n, bases, w) && w.flying == {} && JobsFit(n, bases, w, jobs)
    ensures PoolState(n, bases, jobs, w, w, Crew(0, {}, {}))
  {
    assert Relatives(jobs, {}) == {};
  }

  lemma PoolEnds(w: World, jobs: seq<Job>, crew: Crew)
    requires Flights(w, jobs, crew.index, crew.fetching, crew.placed)
    requires crew.index == |jobs| && crew.fetching == {} && crew.placed == {}
    ensures w.flying == {} && forall k | 0 <= k < |jobs| :: jobs[k].relative in w.reached
  {
    assert Relatives(jobs, {} + {}) == {};
  }

  lemma JobsAreFit(n: Scheme, bases: set<Text>, w: World, base: Text, paths: seq<Text>, jobs: seq<Job>)
    requires UsableScheme(n) && CustomerDir(base) && JobsFor(n, w, base, paths, jobs)
    requires (Known(bases, w) ==> base in bases) && PathsAsked(w, base, paths)
    ensures JobsFit(n, bases, w, jobs)
  {
    forall k | 0 <= k < |jobs|
      ensures CustomerId(jobs[k].relative) && (Known(bases, w) ==> JobClaimed(n, bases, w.state, jobs[k]))
      ensures Below(R2, jobs[k].relative) ==> ObjectAsked(n, w.state.claims, w.scopes, jobs[k].relative)
    {
      assert JobClaimed(n, {base}, w.state, jobs[k]) && jobs[k].origin == Origin(base, Segments(paths[k]));
      CustomerPathIsCustomerId(n, w.state.claims, jobs[k].origin, jobs[k].relative);
      JobIsAsked(n, w, base, paths, jobs[k], k);
    }
  }

  /** The files are a workspace's own, or a page of objects that was asked for. */
  ghost predicate PathsAsked(w: World, base: Text, paths: seq<Text>) {
    Below(WORKSPACES, base) || (base == R2_BASE && PageAsked(w.scopes, paths))
  }

  lemma JobIsAsked(n: Scheme, w: World, base: Text, paths: seq<Text>, job: Job, k: nat)
    requires k < |paths| && job.origin == Origin(base, Segments(paths[k]))
    requires Assigned(n, w.state.claims, job.origin, job.relative)
    requires PathsAsked(w, base, paths)
    ensures Below(R2, job.relative) ==> ObjectAsked(n, w.state.claims, w.scopes, job.relative)
  {
    if Below(WORKSPACES, base) {
      AssignedIsUnder(n, {base}, w.state.claims, job.origin, job.relative);
      assert WORKSPACES + [SLASH] <= base + [SLASH];
      Marks(job.relative);
    } else {
      assert paths[k] in paths && PathOf(n, w.state.claims, Origin(R2_BASE, Segments(paths[k]))) == Some(job.relative);
    }
  }

  /** Files told apart by their segments get paths of their own. */
  lemma DistinctJobsDiffer(n: Scheme, bases: set<Text>, w: World, base: Text, paths: seq<Text>, jobs: seq<Job>)
    requires UsableScheme(n) && BasesFit(n, bases) && base in bases && JobsFor(n, w, base, paths, jobs)
    requires DistinctPaths(paths)
    ensures JobsDiffer(jobs)
  {
    forall j, k | 0 <= j < k < |jobs| ensures jobs[j].relative != jobs[k].relative {
      assert JobClaimed(n, {base}, w.state, jobs[j]) && JobClaimed(n, {base}, w.state, jobs[k]);
      assert Segments(paths[j]) != Segments(paths[k]);
      if jobs[j].relative == jobs[k].relative {
        assert FoldsOnto(n, jobs[j].relative, jobs[k].relative);
        OneFilePerPath(n, w.state.claims, bases, jobs[j].origin, jobs[k].origin, jobs[j].relative, jobs[k].relative);
      }
    }
  }

  lemma JobsReachContents(n: Scheme, w0: World, w: World, base: Text, paths: seq<Text>, jobs: seq<Job>)
    requires JobsFor(n, w0, base, paths, jobs) && w.state.claims == w0.state.claims && UsedBase(w, base)
    requires forall k | 0 <= k < |jobs| :: jobs[k].relative in w.reached
    ensures ContentsHold(Seen(n, w), base, paths)
  {
    forall i | 0 <= i < |paths| ensures Seen(n, w).content(Origin(base, Segments(paths[i]))) {
      assert JobClaimed(n, {base}, w0.state, jobs[i]);
    }
  }

  /** The downloads of a claimed listing. */
  method Downloads(w: ExportWriter, ghost base: Text, ghost paths: seq<Text>, jobs: seq<Job>, concurrency: nat)
    requires Ready(w) && concurrency >= 1 && CustomerDir(base) && JobsFor(w.names, w.Now(), base, paths, jobs)
    requires UsedBase(w.Now(), base) && (Known(w.bases, w.Now()) ==> base in w.bases)
    requires PathsAsked(w.Now(), base, paths)
    modifies w
    ensures Ready(w) && PoolGoes(w.names, w.bases, jobs, old(w.Now()), w.Now())
    ensures ContentsHold(Seen(w.names, w.Now()), base, paths)
    ensures DistinctPaths(paths) && base in w.bases ==> w.torn == old(w.torn)
  {
    ghost var w0 := w.Now();
    JobsAreFit(w.names, w.bases, w0, base, paths, jobs);
    if DistinctPaths(paths) && base in w.bases { DistinctJobsDiffer(w.names, w.bases, w0, base, paths, jobs); }
    Pool(w, jobs, concurrency);
    JobsReachContents(w.names, w0, w.Now(), base, paths, jobs);
  }

  lemma DownloadsGo(n: Scheme, bases: set<Text>, w0: World, w: World, base: Text, paths: seq<Text>, jobs: seq<Job>)
    requires PoolGoes(n, bases, jobs, w0, w) && Dir(base, paths) in w0.visits
    requires DistinctPaths(paths) && base in bases ==> w.torn == w0.torn
    ensures Goes(bases, w0, w)
  {
  }

  /** Claim the paths of a listing, save, and download the files. True is a throw of `tree`. */
  method Fetch(w: ExportWriter, base: Text, paths: seq<Text>, concurrency: nat) returns (threw: bool)
    requires Ready(w) && concurrency >= 1 && CustomerDir(base) && Below(WORKSPACES, base)
    modifies w
    ensures Ready(w) && Goes(w.bases, old(w.Now()), w.Now())
    ensures w.visits == old(w.visits) + multiset{Dir(base, paths)} && w.unread == old(w.unread)
    ensures !threw ==> ContentsHold(Seen(w.names, w.Now()), base, paths)
  {
    ghost var w0 := w.Now();
    var jobs := ClaimListing(w, base, paths, true);
    if jobs.None? { return true; }
    ghost var w1 := w.Now();
    assert Dir(base, paths) in w1.visits;
    Downloads(w, base, paths, jobs.value, concurrency);
    DownloadsGo(w.names, w.bases, w1, w.Now(), base, paths, jobs.value);
    GoesOn(w.bases, w0, w1, w.Now());
    return false;
  }

  lemma FilesVisited(n: Scheme, w0: World, w1: World, w: World, base: Text, metadata: Text, rows: seq<Row>)
    requires Moves(w1, w) && ListingId(metadata) && metadata in w1.reached
    requires Readable(w1, metadata) && w1.files[metadata].rows == rows
    requires w1.visits <= w0.visits + multiset{List(metadata)}
    requires w.visits == w1.visits + multiset{Dir(base, FilePaths(rows))}
    ensures w.visits <= w0.visits + FilesPlan(Seen(n, w), base, metadata)
    ensures Seen(n, w).listing(metadata) && Seen(n, w).rows(metadata) == rows
  {
    SeenGrows(n, w1, w);
  }

  /** `files`: list, claim and save, then download. True is a throw of its own. */
  method Files(w: ExportWriter, base: Text, metadata: Text, concurrency: nat) returns (threw: bool)
    requires Ready(w) && concurrency >= 1 && ListingId(metadata) && CustomerDir(base) && Below(WORKSPACES, base)
    modifies w
    ensures Stage(w, old(w.Now()), FilesPlan(Seen(w.names, w.Now()), base, metadata))
    ensures !threw && Reliable(w.Now()) ==> FilesHold(Seen(w.names, w.Now()), base, metadata)
  {
    ghost var w0 := w.Now();
    var listing := CachedListing(w, metadata);
    if !listing.Got? { return listing.Throws?; }
    ghost var w1 := w.Now();
    threw := Fetch(w, base, FilePaths(listing.value), concurrency);
    GoesOn(w.bases, w0, w1, w.Now());
    FilesVisited(w.names, w0, w1, w.Now(), base, metadata, listing.value);
  }

  // ---- doing one thing after another ----

  predicate FirstHold<T>(holds: (View, T) -> bool, v: View, things: seq<T>, count: int) {
    count <= |things| && forall i | 0 <= i < count :: holds(v, things[i])
  }

  /** So many things are done, with no names but theirs. */
  ghost predicate DoneSoFar<T>(n: Scheme, w0: World, w: World, holds: (View, T) -> bool,
                               plan: (View, T) -> multiset<Visit>,
                               things: seq<T>, i: nat) {
    && i <= |things| && (Reliable(w) ==> FirstHold(holds, Seen(n, w), things, i))
    && w.visits <= w0.visits + SumOver(plan, Seen(n, w), things[..i])
  }

  lemma NothingDone<T>(n: Scheme, w: World, holds: (View, T) -> bool, plan: (View, T) -> multiset<Visit>,
                       things: seq<T>)
    ensures DoneSoFar(n, w, w, holds, plan, things, 0)
  {
  }

  lemma ReliableBefore(w: World, w': World)
    requires Moves(w, w') && Reliable(w')
    ensures Reliable(w)
  {
  }

  lemma OneMore<T(!new)>(n: Scheme, w0: World, w: World, w': World, holds: (View, T) -> bool,
                         plan: (View, T) -> multiset<Visit>,
                         things: seq<T>, i: nat, threw: bool)
    requires Lasting(holds) && Growing(plan) && Moves(w, w') && DoneSoFar(n, w0, w, holds, plan, things, i)
    requires i < |things|
    requires !threw && Reliable(w') ==> holds(Seen(n, w'), things[i])
    requires w'.visits <= w.visits + plan(Seen(n, w'), things[i])
    ensures w'.visits <= w0.visits + SumOver(plan, Seen(n, w'), things)
    ensures !threw ==> DoneSoFar(n, w0, w', holds, plan, things, i + 1)
  {
    var v, v' := Seen(n, w), Seen(n, w');
    SeenGrows(n, w, w');
    SumOverGrows(plan, v, v', things[..i], things[..i]);
    assert things[..i + 1][..i] == things[..i];
    SumOfFront(thing => plan(v', thing), things, i + 1);
    assert SumOver(plan, v', things[..i + 1]) == SumOver(plan, v', things[..i]) + plan(v', things[i]);
    if Reliable(w') {
      ReliableBefore(w, w');
      forall k | 0 <= k < i ensures holds(v', things[k]) { assert holds(v, things[k]); }
    }
  }

  lemma AllDone<T(!new)>(n: Scheme, w0: World, w: World, holds: (View, T) -> bool, plan: (View, T) -> multiset<Visit>,
                         things: seq<T>)
    requires DoneSoFar(n, w0, w, holds, plan, things, |things|)
    ensures Reliable(w) ==> forall thing | thing in things :: holds(Seen(n, w), thing)
    ensures w.visits <= w0.visits + SumOver(plan, Seen(n, w), things)
  {
    assert things[..|things|] == things;
  }

  // ---- stored objects ----

  /** The walk of a project leaves out the prefixes of its workspace. */
  predicate Asks(project: bool, prefix: Prefix) { project ==> PROJECT_PREFIX <= prefix.prefix }

  /** One listing after the other, until one fails. */
  function Then(first: Pages, rest: Pages): Pages {
    if first.ended then Pages(first.pages + rest.pages, rest.ended) else first
  }

  function Listings(project: bool, prefixes: seq<Prefix>): Pages {
    if prefixes == [] then Pages([], true)
    else if !Asks(project, prefixes[0]) then Listings(project, prefixes[1..])
    else Then(prefixes[0].listing, Listings(project, prefixes[1..]))
  }

  /** All that is listed to a walk. */
  function AnswerOf(project: bool, scope: Scope): Pages {
    match scope
    case Unanswered => Pages([], false)
    case Scoped(prefixes) => Listings(project, prefixes)
  }

  /** What that answer is, read off the prefixes themselves: it ends if and only if every listing of a prefix
      the walk is for does, and then its pages are all of theirs; and it has no others. */
  ghost predicate ScopeTells(project: bool, scope: Scope, answer: Pages) {
    && (answer.ended <==>
          && scope.Scoped?
          && forall prefix | prefix in scope.prefixes && (project ==> PROJECT_PREFIX <= prefix.prefix) ::
               prefix.listing.ended)
    && (answer.ended ==>
          forall prefix, page | prefix in scope.prefixes && (project ==> PROJECT_PREFIX <= prefix.prefix)
                                && page in prefix.listing.pages :: page in answer.pages)
    && (forall page | page in answer.pages ::
          && scope.Scoped?
          && exists prefix :: prefix in scope.prefixes && (project ==> PROJECT_PREFIX <= prefix.prefix)
                              && page in prefix.listing.pages)
  }

  lemma {:induction false} ListingsTell(project: bool, prefixes: seq<Prefix>)
    ensures ScopeTells(project, Scoped(prefixes), Listings(project, prefixes))
    decreases |prefixes|
  {
    if prefixes == [] {
    } else {
      ListingsTell(project, prefixes[1..]);
      OneListingMore(project, prefixes[0], prefixes[1..]);
      assert prefixes == [prefixes[0]] + prefixes[1..];
    }
  }

  lemma OneListingMore(project: bool, first: Prefix, rest: seq<Prefix>)
    requires ScopeTells(project, Scoped(rest), Listings(project, rest))
    ensures ScopeTells(project, Scoped([first] + rest),
                       if project ==> PROJECT_PREFIX <= first.prefix then Then(first.listing, Listings(project, rest))
                       else Listings(project, rest))
  {
    var all := [first] + rest;
    assert first in all && forall prefix :: prefix in all <==> prefix == first || prefix in rest;
  }

  lemma AnswerTells(project: bool, scope: Scope)
    ensures ScopeTells(project, scope, AnswerOf(project, scope))
  {
    if scope.Scoped? { ListingsTell(project, scope.prefixes); }
  }

  /** The path of an object that one of these pages names. */
  ghost predicate ObjectOf(n: Scheme, claims: Claims, pages: seq<seq<Text>>, id: Text) {
    exists page, key :: page in pages && key in page && PathOf(n, claims, Origin(R2_BASE, Segments(key))) == Some(id)
  }

  /** Nothing was started but objects of these pages. */
  ghost predicate OnlyObjects(n: Scheme, w0: World, w: World, pages: seq<seq<Text>>) {
    forall id | id in w.reached && id !in w0.reached :: ObjectOf(n, w.state.claims, pages, id)
  }

  lemma OnlyObjectsOn(n: Scheme, w0: World, w: World, w': World, pages: seq<seq<Text>>, all: seq<seq<Text>>)
    requires OnlyObjects(n, w0, w, all) && OnlyObjects(n, w, w', pages) && Moves(w, w')
    requires forall page | page in pages :: page in all
    ensures OnlyObjects(n, w0, w', all)
  {
    forall id | id in w'.reached && id !in w0.reached ensures ObjectOf(n, w'.state.claims, all, id) {
      if id in w.reached {
        var page, key :| page in all && key in page
                         && PathOf(n, w.state.claims, Origin(R2_BASE, Segments(key))) == Some(id);
        LookupIsStable(n, w.state.claims, w'.state.claims, R2_BASE, R2_BASE, Segments(key));
      } else {
        var page, key :| page in pages && key in page
                         && PathOf(n, w'.state.claims, Origin(R2_BASE, Segments(key))) == Some(id);
        assert page in all;
      }
    }
  }

  lemma PoolIsOfObjects(n: Scheme, bases: set<Text>, w0: World, w1: World, w: World, page: seq<Text>, jobs: seq<Job>)
    requires JobsFor(n, w1, R2_BASE, page, jobs) && PoolGoes(n, bases, jobs, w1, w) && w1.reached == w0.reached
    ensures OnlyObjects(n, w0, w, [page])
  {
    forall id | id in w.reached && id !in w0.reached ensures ObjectOf(n, w.state.claims, [page], id) {
      var k :| 0 <= k < |jobs| && jobs[k].relative == id;
      assert JobClaimed(n, {R2_BASE}, w1.state, jobs[k]);
      assert page[k] in page && PathOf(n, w.state.claims, Origin(R2_BASE, Segments(page[k]))) == Some(id);
    }
  }

  /** A page's objects on their way: nothing else is touched. */
  ghost predicate PageFetched(n: Scheme, bases: set<Text>, w0: World, w: World, page: seq<Text>) {
    && Moves(w0, w) && w.visits == w0.visits && w.unread == w0.unread && w.blocked == w0.blocked
    && w.listed == w0.listed
    && (DistinctPaths(page) ==> w.torn == w0.torn) && OnlyObjects(n, w0, w, [page])
  }

  lemma PoolFetchesPage(n: Scheme, bases: set<Text>, w0: World, w1: World, w: World, page: seq<Text>, jobs: seq<Job>)
    requires w1 == ClaimedWorld(n, w0, R2_BASE, page, false) && JobsFor(n, w1, R2_BASE, page, jobs)
    requires PoolGoes(n, bases, jobs, w1, w) && (DistinctPaths(page) ==> w.torn == w1.torn)
    ensures PageFetched(n, bases, w0, w, page)
  {
    ClaimsMove(n, bases, w0, R2_BASE, page, false);
    MovesOn(w0, w1, w);
    PoolIsOfObjects(n, bases, w0, w1, w, page, jobs);
  }

  /** Claim, save and download a page of objects. False is a throw of `tree`. */
  method FetchObjects(w: ExportWriter, page: seq<Text>, concurrency: nat) returns (claimed: bool)
    requires Ready(w) && concurrency >= 1 && PageAsked(w.scopes, page)
    modifies w
    ensures Ready(w) && PageFetched(w.names, w.bases, old(w.Now()), w.Now(), page)
    ensures if claimed then ContentsHold(Seen(w.names, w.Now()), R2_BASE, page) else w.torn == old(w.torn)
  {
    ghost var w0 := w.Now();
    var jobs := ClaimListing(w, R2_BASE, page, false);
    if jobs.None? { return false; }
    ghost var w1 := w.Now();
    ObjectDirIsCustomerDir();
    Downloads(w, R2_BASE, page, jobs.value, concurrency);
    PoolFetchesPage(w.names, w.bases, w0, w1, w.Now(), page, jobs.value);
    return true;
  }

  lemma PageTaken(n: Scheme, bases: set<Text>, w0: World, w: World, page: seq<Text>)
    requires Sane(n, bases, w) && PageFetched(n, bases, w0, w, page) && ContentsHold(Seen(n, w), R2_BASE, page)
    ensures Sane(n, bases, TakenWorld(w, page)) && Goes(bases, w0, TakenWorld(w, page))
    ensures OnlyObjects(n, w0, TakenWorld(w, page), [page])
  {
    TakenMoves(n, bases, w, page);
    MovesOn(w0, w, TakenWorld(w, page));
    assert page in TakenWorld(w, page).listed;
  }

  /** What a run of pages has added. */
  ghost predicate PagesTaken(n: Scheme, bases: set<Text>, w0: World, w: World, taken: seq<seq<Text>>,
                             pages: seq<seq<Text>>) {
    && Goes(bases, w0, w) && w.visits <= w0.visits && w.unread == w0.unread && w.blocked == w0.blocked
    && w.listed == w0.listed + taken && OnlyObjects(n, w0, w, pages)
  }

  /** One page of objects. False is a throw of `tree`. */
  method ObjectPage(w: ExportWriter, page: seq<Text>, concurrency: nat) returns (claimed: bool)
    requires Ready(w) && concurrency >= 1 && PageAsked(w.scopes, page)
    modifies w
    ensures Ready(w)
    ensures PagesTaken(w.names, w.bases, old(w.Now()), w.Now(), if claimed then [page] else [], [page])
  {
    ghost var w0 := w.Now();
    claimed := FetchObjects(w, page, concurrency);
    ghost var w1 := w.Now();
    if claimed {
      PageTaken(w.names, w.bases, w0, w1, page);
      NoteTaken(w, page);
    }
  }

  method NoteTaken(w: ExportWriter, ghost page: seq<Text>)
    modifies w`listed
    ensures w.Now() == TakenWorld(old(w.Now()), page)
  {
    w.listed := w.listed + [page];
  }

  lemma OnePageMore(n: Scheme, bases: set<Text>, w0: World, w1: World, w: World, pages: seq<seq<Text>>, i: nat,
                    claimed: bool)
    requires i < |pages| && PagesTaken(n, bases, w0, w1, pages[..i], pages)
    requires PagesTaken(n, bases, w1, w, if claimed then [pages[i]] else [], [pages[i]])
    ensures PagesTaken(n, bases, w0, w, pages[..if claimed then i + 1 else i], pages)
  {
    GoesOn(bases, w0, w1, w);
    OnlyObjectsOn(n, w0, w1, w, [pages[i]], pages);
    assert pages[..i + 1] == pages[..i] + [pages[i]];
    assert w.listed == w0.listed + (pages[..i] + if claimed then [pages[i]] else []);
  }

  lemma NoPageYet(n: Scheme, bases: set<Text>, w: World, pages: seq<seq<Text>>)
    ensures PagesTaken(n, bases, w, w, pages[..0], pages)
  {
    assert w.listed + pages[..0] == w.listed;
  }

  ghost predicate PagesAsked(scopes: seq<Asked>, pages: seq<seq<Text>>) {
    forall page | page in pages :: PageAsked(scopes, page)
  }

  method NextPage(w: ExportWriter, ghost w0: World, pages: seq<seq<Text>>, i: nat, concurrency: nat)
    returns (claimed: bool)
    requires Ready(w) && concurrency >= 1 && i < |pages| && PagesAsked(w0.scopes, pages)
    requires PagesTaken(w.names, w.bases, w0, w.Now(), pages[..i], pages)
    modifies w
    ensures Ready(w)
    ensures PagesTaken(w.names, w.bases, w0, w.Now(), pages[..if claimed then i + 1 else i], pages)
  {
    ghost var w1 := w.Now();
    PageStaysAsked(w0.scopes, w1.scopes, pages[i]);
    claimed := ObjectPage(w, pages[i], concurrency);
    OnePageMore(w.names, w.bases, w0, w1, w.Now(), pages, i, claimed);
  }

  /** The pages of a listing of objects, one after the other. False is a throw of `tree`. */
  method ObjectPages(w: ExportWriter, pages: seq<seq<Text>>, concurrency: nat)
    returns (claimed: bool, ghost taken: seq<seq<Text>>)
    requires Ready(w) && concurrency >= 1 && PagesAsked(w.scopes, pages)
    modifies w
    ensures Ready(w) && PagesTaken(w.names, w.bases, old(w.Now()), w.Now(), taken, pages)
    ensures taken <= pages && (claimed <==> taken == pages)
  {
    ghost var w0 := w.Now();
    NoPageYet(w.names, w.bases, w0, pages);
    for i := 0 to |pages|
      invariant Ready(w) && PagesTaken(w.names, w.bases, w0, w.Now(), pages[..i], pages)
    {
      claimed := NextPage(w, w0, pages, i, concurrency);
      if !claimed { return false, pages[..i]; }
    }
    assert pages[..|pages|] == pages;
    return true, pages;
  }

  /** So far these pages have been taken, of all that the listings of these prefixes answer. */
  ghost predicate ListedSoFar(n: Scheme, bases: set<Text>, w0: World, w: World, done: seq<seq<Text>>,
                              project: bool, rest: seq<Prefix>, all: Pages) {
    PagesTaken(n, bases, w0, w, done, all.pages) && all == Then(Pages(done, true), Listings(project, rest))
  }

  lemma NothingListed(n: Scheme, bases: set<Text>, w: World, project: bool, prefixes: seq<Prefix>)
    ensures ListedSoFar(n, bases, w, w, [], project, prefixes, Listings(project, prefixes))
  {
    var all := Listings(project, prefixes);
    assert [] + all.pages == all.pages && w.listed + [] == w.listed;
  }

  /** One prefix more; if its listing does not end, or a page finds no names, that is the end. */
  lemma OnePrefixMore(n: Scheme, bases: set<Text>, w0: World, w1: World, w: World, done: seq<seq<Text>>,
                      project: bool, rest: seq<Prefix>, all: Pages, taken: seq<seq<Text>>)
    requires rest != [] && ListedSoFar(n, bases, w0, w1, done, project, rest, all)
    requires if Asks(project, rest[0])
             then taken <= rest[0].listing.pages && PagesTaken(n, bases, w1, w, taken, rest[0].listing.pages)
             else taken == [] && w == w1
    ensures PagesTaken(n, bases, w0, w, done + taken, all.pages)
    ensures !Asks(project, rest[0]) || (taken == rest[0].listing.pages && rest[0].listing.ended) ==>
              ListedSoFar(n, bases, w0, w, done + taken, project, rest[1..], all)
    ensures Asks(project, rest[0]) && !(taken == rest[0].listing.pages && rest[0].listing.ended) ==>
              !all.ended || w.listed != w0.listed + all.pages
  {
    var further := Listings(project, rest[1..]);
    if !Asks(project, rest[0]) {
      assert done + taken == done;
    } else {
      var first := rest[0].listing;
      assert all.pages == done + first.pages + if first.ended then further.pages else [];
      GoesOn(bases, w0, w1, w);
      OnlyObjectsOn(n, w0, w1, w, first.pages, all.pages);
      assert w.listed == w0.listed + (done + taken);
      if taken != first.pages { assert |taken| < |first.pages|; }
    }
  }

  /** The pages of the prefix were asked for, if the walk is for it. */
  ghost predicate PrefixAsked(scopes: seq<Asked>, project: bool, prefix: Prefix) {
    Asks(project, prefix) ==> PagesAsked(scopes, prefix.listing.pages)
  }

  /** The listings of a walk's prefixes, one after the other. False is a listing that fails, or a throw of
      `tree`. */
  method ListPrefixes(w: ExportWriter, project: bool, prefixes: seq<Prefix>, concurrency: nat)
    returns (ended: bool, ghost done: seq<seq<Text>>)
    requires Ready(w) && concurrency >= 1
    requires forall prefix | prefix in prefixes :: PrefixAsked(w.scopes, project, prefix)
    modifies w
    ensures var all := Listings(project, prefixes);
            && Ready(w) && PagesTaken(w.names, w.bases, old(w.Now()), w.Now(), done, all.pages)
            && (ended <==> all.ended && w.listed == old(w.listed) + all.pages)
  {
    ghost var w0, all := w.Now(), Listings(project, prefixes);
    done := [];
    NothingListed(w.names, w.bases, w0, project, prefixes);
    assert prefixes[0..] == prefixes;
    for i := 0 to |prefixes|
      invariant Ready(w) && ListedSoFar(w.names, w.bases, w0, w.Now(), done, project, prefixes[i..], all)
    {
      assert prefixes[i..][0] == prefixes[i] && prefixes[i..][1..] == prefixes[i + 1..];
      ended, done := ListPrefix(w, w0, done, project, prefixes[i], prefixes[i..], all, concurrency);
      if !ended { return; }
    }
    return true, done;
  }

  method ListPrefix(w: ExportWriter, ghost w0: World, ghost done: seq<seq<Text>>, project: bool, prefix: Prefix,
                    ghost rest: seq<Prefix>, ghost all: Pages, concurrency: nat)
    returns (ended: bool, ghost done': seq<seq<Text>>)
    requires Ready(w) && concurrency >= 1 && rest != [] && prefix == rest[0] && PrefixAsked(w0.scopes, project, prefix)
    requires ListedSoFar(w.names, w.bases, w0, w.Now(), done, project, rest, all)
    modifies w
    ensures Ready(w) && PagesTaken(w.names, w.bases, w0, w.Now(), done', all.pages)
    ensures if ended then ListedSoFar(w.names, w.bases, w0, w.Now(), done', project, rest[1..], all)
            else !all.ended || w.listed != w0.listed + all.pages
  {
    ghost var w1 := w.Now();
    if !Asks(project, prefix) {
      OnePrefixMore(w.names, w.bases, w0, w1, w1, done, project, rest, all, []);
      assert done + [] == done;
      return true, done;
    }
    forall page | page in prefix.listing.pages ensures PageAsked(w1.scopes, page) {
      PageStaysAsked(w0.scopes, w1.scopes, page);
    }
    ghost var taken;
    var claimed;
    claimed, taken := ObjectPages(w, prefix.listing.pages, concurrency);
    OnePrefixMore(w.names, w.bases, w0, w1, w.Now(), done, project, rest, all, taken);
    return claimed && prefix.listing.ended, done + taken;
  }

  /** The action of the walk over stored objects. The test of its last line is of every object's warning,
      whichever walk it belongs to. */
  method ListObjects(w: ExportWriter, who: Walker, scope: Scope, concurrency: nat) returns (verdict: Verdict)
    requires Ready(w) && concurrency >= 1 && Asked(who, scope) in w.scopes
    modifies w
    ensures var answer := AnswerOf(who.project.Some?, scope);
            && Stage(w, old(w.Now()), multiset{}) && w.unread == old(w.unread) && w.blocked == old(w.blocked)
            && ScopeTells(who.project.Some?, scope, answer)
            && (verdict.ListingFailed? <==> !(answer.ended && w.listed == old(w.listed) + answer.pages))
            && (verdict.ObjectsLacking? <==> !verdict.ListingFailed? && !NoObjectWarning(w.Now()))
            && OnlyObjects(w.names, old(w.Now()), w.Now(), answer.pages)
  {
    var error: Text := Ask();
    AnswerTells(who.project.Some?, scope);
    if scope.Unanswered? { return ListingFailed(error); }
    PrefixesAreAsked(w.scopes, who, scope);
    var ended;
    ghost var done;
    ended, done := ListPrefixes(w, who.project.Some?, scope.prefixes, concurrency);
    if !ended { return ListingFailed(error); }
    if exists key | key in w.warnings :: Below(R2, key) { return ObjectsLacking(error); }
    return AllTaken;
  }

  lemma PrefixesAreAsked(scopes: seq<Asked>, who: Walker, scope: Scope)
    requires Asked(who, scope) in scopes && scope.Scoped?
    ensures forall prefix | prefix in scope.prefixes :: PrefixAsked(scopes, who.project.Some?, prefix)
  {
  }

  /** The run's own record of how a walk over objects ended. */
  method NoteVerdict(w: ExportWriter, who: Walker, verdict: Verdict, ghost scope: Scope)
    modifies w`lacking, w`blocked, w`faults, w`answers
    ensures var id := WalkId(who);
            && w.answers == old(w.answers)[id := Asked(who, scope)]
            && w.lacking == (if verdict.ListingFailed? then old(w.lacking) + {id} else old(w.lacking) - {id})
            && w.blocked == (if verdict.ObjectsLacking? then old(w.blocked) + {id} else old(w.blocked) - {id})
            && w.faults == if verdict.ListingFailed? then old(w.faults) + {id} else old(w.faults)
  {
    ghost var id := WalkId(who);
    w.lacking, w.blocked, w.answers := w.lacking - {id}, w.blocked - {id}, w.answers[id := Asked(who, scope)];
    match verdict
    case AllTaken =>
    case ListingFailed(_) => w.lacking, w.faults := w.lacking + {id}, w.faults + {id};
    case ObjectsLacking(_) => w.blocked := w.blocked + {id};
  }

  /** The bookkeeping at the end of the walk's own item. Once done the item is forgotten, so that
      a resumed export lists the objects again. */
  method CloseWalk(w: ExportWriter, who: Walker, skipped: bool, verdict: Verdict, ghost scope: Scope)
    modifies w
    ensures w.Now() == WalkEnded(old(w.Now()), who, skipped, verdict, scope)
  {
    ghost var w0 := w.Now();
    w.reached := w.reached + {WalkId(who)};
    w.visits := w.visits + multiset{Walk(who)};
    if skipped {
      w.finished := w.finished - {WalkId(who)};
      w.skipped := w.skipped + {WalkId(who)};
    } else {
      CloseListed(w, w0, who, verdict, scope);
    }
  }

  method CloseListed(w: ExportWriter, ghost w0: World, who: Walker, verdict: Verdict, ghost scope: Scope)
    requires w.Now() == w0.(reached := w0.reached + {WalkId(who)}, visits := w0.visits + multiset{Walk(who)})
    modifies w
    ensures w.Now() == WalkEnded(w0, who, false, verdict, scope)
  {
    CloseAction(w, WalkId(who), verdict);
    NoteVerdict(w, who, verdict, scope);
  }

  method CloseAction(w: ExportWriter, id: Text, verdict: Verdict)
    modifies w`finished, w`warnings
    ensures w.State() == if verdict.AllTaken? then Started(Succeeded(old(w.State()), id, Record([], 0)), id)
                         else Started(Failed(old(w.State()), id, verdict.error), id)
  {
    if verdict.AllTaken? { w.ItemSucceed(id, [], 0); } else { w.ItemFail(id, verdict.error); }
    w.finished := w.finished - {id};
  }

  /** What a walk over objects comes to. It skips if a checkpoint still has it finished, and then
      lists nothing. Otherwise it fails if one of its listings did not end or a page found no names; failing
      that, it is blocked if an object's warning stands at its end. Nothing is started but the objects of
      the pages of prefixes it is for. */
  ghost predicate ObjectsWalked(n: Scheme, w0: World, w: World, who: Walker, scope: Scope) {
    var id, answer := WalkId(who), AnswerOf(who.project.Some?, scope);
    && id in w.reached && id !in w.state.finished && ScopeTells(who.project.Some?, scope, answer)
    && (if id in w0.state.finished then w == WalkEnded(w0, who, true, AllTaken, scope)
        else
          && id in w.answers && w.answers[id] == Asked(who, scope)
          && (id in w.lacking <==> !(answer.ended && w.listed == w0.listed + answer.pages))
          && (id in w.blocked <==> id !in w.lacking && !NoObjectWarning(w))
          && w.blocked - {id} == w0.blocked - {id})
    && OnlyObjects(n, w0, w.(reached := w.reached - {id}), answer.pages)
  }

  /** The walk over stored objects, of a workspace or a project, as one item around the items of its
      objects. */
  method R2Walk(w: ExportWriter, who: Walker, concurrency: nat) returns (ghost scope: Scope)
    requires Ready(w) && concurrency >= 1
    modifies w
    ensures Stage(w, old(w.Now()), multiset{Walk(who)}) && w.unread == old(w.unread)
    ensures ScopeTold(w.server, Asked(who, scope)) && ObjectsWalked(w.names, old(w.Now()), w.Now(), who, scope)
    ensures Seen(w.names, w.Now()).walk(who)
  {
    var k: nat := Ask();
    scope := WalkAnswered(w, who, w.server.scope(k, who), concurrency);
  }

  /** The same, given what the server answers. */
  method WalkAnswered(w: ExportWriter, who: Walker, answer: Scope, concurrency: nat) returns (ghost scope: Scope)
    requires Ready(w) && concurrency >= 1 && ScopeTold(w.server, Asked(who, answer))
    modifies w
    ensures scope == answer && Stage(w, old(w.Now()), multiset{Walk(who)}) && w.unread == old(w.unread)
    ensures ObjectsWalked(w.names, old(w.Now()), w.Now(), who, scope) && Seen(w.names, w.Now()).walk(who)
  {
    scope := answer;
    ghost var w0 := w.Now();
    var skip := BeginWalk(w, who, scope);
    ghost var w1 := w.Now();
    var verdict := AllTaken;
    if !skip {
      verdict := ListObjects(w, who, answer, concurrency);
    }
    GoesOn(w.bases, w0, w1, w.Now());
    AnswerTells(who.project.Some?, scope);
    EndWalk(w, w0, w1, who, skip, verdict, scope);
  }

  method BeginWalk(w: ExportWriter, who: Walker, ghost scope: Scope) returns (skip: bool)
    requires Ready(w) && ScopeTold(w.server, Asked(who, scope))
    modifies w
    ensures Ready(w) && Goes(w.bases, old(w.Now()), w.Now()) && w.Now() == WalkStarted(old(w.Now()), who, scope)
    ensures skip <==> WalkId(who) in old(w.finished)
    ensures skip <==> Skippable(old(w.Now()), WalkId(who))
  {
    WalkStarts(w.names, w.bases, w.Now(), who, scope);
    skip := EnterWalk(w, who, scope);
  }

  method EnterWalk(w: ExportWriter, who: Walker, ghost scope: Scope) returns (skip: bool)
    modifies w
    ensures w.Now() == WalkStarted(old(w.Now()), who, scope) && (skip <==> Skippable(old(w.Now()), WalkId(who)))
  {
    skip := w.ItemStart(WalkId(who));
    if !skip { w.scopes := w.scopes + [Asked(who, scope)]; }
  }

  /** What is known of a walk when its action is over. */
  ghost predicate WalkIsOver(n: Scheme, w0: World, w1: World, w2: World, who: Walker, skip: bool, verdict: Verdict,
                             scope: Scope) {
    var answer := AnswerOf(who.project.Some?, scope);
    && (skip <==> WalkId(who) in w0.state.finished) && (skip ==> w2 == w0)
    && w1 == w0.(state := w1.state, scopes := w1.scopes) && ScopeTold(w0.server, Asked(who, scope))
    && ScopeTells(who.project.Some?, scope, answer)
    && (!skip ==>
          && w2.blocked == w1.blocked && OnlyObjects(n, w1, w2, answer.pages)
          && (verdict.ListingFailed? <==> !(answer.ended && w2.listed == w1.listed + answer.pages))
          && (verdict.ObjectsLacking? <==> !verdict.ListingFailed? && !NoObjectWarning(w2)))
  }

  method EndWalk(w: ExportWriter, ghost w0: World, ghost w1: World, who: Walker, skip: bool, verdict: Verdict,
                 ghost scope: Scope)
    requires Ready(w) && Goes(w.bases, w0, w.Now()) && WalkIsOver(w.names, w0, w1, w.Now(), who, skip, verdict, scope)
    modifies w
    ensures Ready(w) && Goes(w.bases, w0, w.Now()) && w.visits == old(w.visits) + multiset{Walk(who)}
    ensures w.unread == old(w.unread)
    ensures ObjectsWalked(w.names, w0, w.Now(), who, scope) && Seen(w.names, w.Now()).walk(who)
  {
    ghost var w2 := w.Now();
    WalkFits(w.names, w0, w1, w2, who, skip, verdict, scope);
    WalkMoves(w.bases, w2, who, skip, verdict, scope);
    WalkSane(w.names, w.bases, w2, who, skip, verdict, scope);
    CloseWalk(w, who, skip, verdict, scope);
    GoesOn(w.bases, w0, w2, w.Now());
    WalkedSoFar(w.names, w0, w1, w2, who, skip, verdict, scope);
    assert Walk(who) in w.visits;
  }

  lemma WalkFits(n: Scheme, w0: World, w1: World, w2: World, who: Walker, skip: bool, verdict: Verdict, scope: Scope)
    requires Moves(w0, w2) && WalkIsOver(n, w0, w1, w2, who, skip, verdict, scope)
    ensures VerdictFits(w2, who, skip, verdict, scope)
  {
    WalkIds(who);
  }

  lemma WalkedSoFar(n: Scheme, w0: World, w1: World, w2: World, who: Walker, skip: bool, verdict: Verdict, scope: Scope)
    requires WalkIsOver(n, w0, w1, w2, who, skip, verdict, scope)
    ensures ObjectsWalked(n, w0, WalkEnded(w2, who, skip, verdict, scope), who, scope)
  {
    WalkIds(who);
    KindsOfIdsDiffer(WalkId(who));
    var w := WalkEnded(w2, who, skip, verdict, scope);
    if !skip {
      assert NoObjectWarning(w) == NoObjectWarning(w2) by {
        if !NoObjectWarning(w2) {
          var key :| key in w2.state.warnings && Below(R2, key);
          assert key in w.state.warnings;
        }
        if !NoObjectWarning(w) {
          var key :| key in w.state.warnings && Below(R2, key);
          assert key in w2.state.warnings;
        }
      }
    }
  }

  // ---- projects and apps ----

  method Project(w: ExportWriter, dir: seq<Text>, workspaceId: Text, project: Row, concurrency: nat)
    returns (threw: bool)
    requires Ready(w) && concurrency >= 1 && OneName(dir)
    modifies w
    ensures Stage(w, old(w.Now()), ProjectPlan(w.names, Seen(w.names, w.Now()), dir, workspaceId, project))
    ensures !threw && Reliable(w.Now()) ==> ProjectHolds(w.names, Seen(w.names, w.Now()), dir, workspaceId, project)
  {
    ghost var w0 := w.Now();
    var pd := ProjectDir(w.names, dir, project);
    ProjectDirNames(w.names, dir, project);
    ListingIds(pd);
    BundleIds(w.names, dir, project);
    threw := Files(w, FileBase(pd), FileListing(pd), concurrency);
    if threw { return; }
    ghost var w1 := w.Now();
    LeafItem(w, Bundle(w.names, dir, project), project.id, true, Data);
    ghost var w2 := w.Now();
    GoesOn(w.bases, w0, w1, w2);
    ghost var scope := R2Walk(w, Walker(workspaceId, Some(project.id)), concurrency);
    GoesOn(w.bases, w0, w2, w.Now());
    MovesOn(w1, w2, w.Now());
    ProjectVisited(w.names, w0, w1, w2, w.Now(), dir, workspaceId, project);
  }

  lemma ProjectVisited(n: Scheme, w0: World, w1: World, w2: World, w: World, dir: seq<Text>,
                       wsId: Text, project: Row)
    requires Moves(w1, w) && Moves(w2, w) && Seen(n, w).walk(Walker(wsId, Some(project.id)))
    requires w.visits <= w2.visits + multiset{Walk(Walker(wsId, Some(project.id)))}
    requires var pd := ProjectDir(n, dir, project);
             && w1.visits <= w0.visits + FilesPlan(Seen(n, w1), FileBase(pd), FileListing(pd))
             && (Reliable(w1) ==> FilesHold(Seen(n, w1), FileBase(pd), FileListing(pd)))
    requires w2.visits <= w1.visits + multiset{Leaf(Bundle(n, dir, project), project.id)}
    requires Seen(n, w2).item(Bundle(n, dir, project), project.id)
    ensures w.visits <= w0.visits + ProjectPlan(n, Seen(n, w), dir, wsId, project)
    ensures Reliable(w) ==> ProjectHolds(n, Seen(n, w), dir, wsId, project)
  {
    var pd := ProjectDir(n, dir, project);
    SeenGrows(n, w1, w);
    SeenGrows(n, w2, w);
    FilesPlanGrows(Seen(n, w1), Seen(n, w), FileBase(pd), FileListing(pd));
    if Reliable(w) {
      ReliableBefore(w1, w);
      FilesStay(Seen(n, w1), Seen(n, w), FileBase(pd), FileListing(pd));
    }
  }

  method ProjectRows(w: ExportWriter, dir: seq<Text>, workspaceId: Text, projects: seq<Row>, concurrency: nat)
    returns (threw: bool)
    requires Ready(w) && concurrency >= 1 && OneName(dir)
    modifies w
    ensures Stage(w, old(w.Now()), SumOver(ProjectPlans(w.names, dir, workspaceId), Seen(w.names, w.Now()), projects))
    ensures !threw && Reliable(w.Now()) ==>
              forall r | r in projects :: ProjectsHere(w.names, dir, workspaceId)(Seen(w.names, w.Now()), r)
  {
    ghost var w0 := w.Now();
    ghost var holds, plan := ProjectsHere(w.names, dir, workspaceId), ProjectPlans(w.names, dir, workspaceId);
    ThingsLast(w.names, dir, NO_ROW.(id := workspaceId), [], []);
    ProjectPlansGrow(w.names, dir, workspaceId);
    NothingDone(w.names, w0, holds, plan, projects);
    for i := 0 to |projects|
      invariant Ready(w) && Goes(w.bases, w0, w.Now()) && DoneSoFar(w.names, w0, w.Now(), holds, plan, projects, i)
    {
      ghost var w1 := w.Now();
      threw := Project(w, dir, workspaceId, projects[i], concurrency);
      GoesOn(w.bases, w0, w1, w.Now());
      OneMore(w.names, w0, w1, w.Now(), holds, plan, projects, i, threw);
      if threw { return; }
    }
    AllDone(w.names, w0, w.Now(), holds, plan, projects);
    return false;
  }

  /** A listing of the walk's own, and then what its rows name. */
  lemma ListingAndRows<T(!new)>(n: Scheme, w0: World, w1: World, w: World, id: Text, rows: seq<Row>,
                                plan: (View, Row) -> multiset<Visit>)
    requires Moves(w1, w) && ListingId(id) && id in w1.reached && Readable(w1, id) && w1.files[id].rows == rows
    requires w1.visits <= w0.visits + multiset{List(id)} && w.visits <= w1.visits + SumOver(plan, Seen(n, w), rows)
    ensures Seen(n, w).listing(id) && Seen(n, w).rows(id) == rows
    ensures w.visits <= w0.visits + (multiset{List(id)} + SumOver(plan, Seen(n, w), Seen(n, w).rows(id)))
  {
    SeenGrows(n, w1, w);
  }

  method Projects(w: ExportWriter, dir: seq<Text>, workspaceId: Text, concurrency: nat) returns (threw: bool)
    requires Ready(w) && concurrency >= 1 && OneName(dir)
    modifies w
    ensures Stage(w, old(w.Now()), ProjectsPlan(w.names, Seen(w.names, w.Now()), dir, workspaceId))
    ensures !threw && Reliable(w.Now()) ==> ProjectsHold(w.names, Seen(w.names, w.Now()), dir, workspaceId)
  {
    ghost var w0 := w.Now();
    ListingIds(dir);
    var listing := CachedListing(w, ProjectListing(dir));
    if !listing.Got? { return listing.Throws?; }
    ghost var w1 := w.Now();
    threw := ProjectRows(w, dir, workspaceId, listing.value, concurrency);
    GoesOn(w.bases, w0, w1, w.Now());
    ListingAndRows<Row>(w.names, w0, w1, w.Now(), ProjectListing(dir), listing.value,
                         ProjectPlans(w.names, dir, workspaceId));
  }

  method App(w: ExportWriter, dir: seq<Text>, ws: Row, app: Row)
    requires Ready(w) && OneName(dir)
    modifies w
    ensures Stage(w, old(w.Now()), AppPlan(w.names, dir, ws, app))
    ensures AppHolds(w.names, Seen(w.names, w.Now()), dir, ws, app)
  {
    AppIds(w.names, dir, app);
    if app.workspace == ws.id {
      LeafItem(w, AppFile(w.names, dir, app), app.title, false, Data);
    }
  }

  lemma AppPlansGrow(n: Scheme, dir: seq<Text>, ws: Row)
    ensures Growing(AppPlans(n, dir, ws)) && Growing(AutomationPlans(dir)) && Growing(SettingPlans())
    ensures Growing(RecordSetPlans(n))
  {
  }

  method Apps(w: ExportWriter, dir: seq<Text>, ws: Row, apps: seq<Row>)
    requires Ready(w) && OneName(dir)
    modifies w
    ensures Stage(w, old(w.Now()), SumOver(AppPlans(w.names, dir, ws), Seen(w.names, w.Now()), apps))
    ensures Reliable(w.Now()) ==> forall app | app in apps :: AppsHere(w.names, dir, ws)(Seen(w.names, w.Now()), app)
  {
    ghost var w0 := w.Now();
    ghost var holds, plan := AppsHere(w.names, dir, ws), AppPlans(w.names, dir, ws);
    ThingsLast(w.names, dir, ws, [], []);
    AppPlansGrow(w.names, dir, ws);
    NothingDone(w.names, w0, holds, plan, apps);
    for i := 0 to |apps|
      invariant Ready(w) && Goes(w.bases, w0, w.Now()) && DoneSoFar(w.names, w0, w.Now(), holds, plan, apps, i)
    {
      NextApp(w, w0, dir, ws, apps, i);
    }
    AllDone(w.names, w0, w.Now(), holds, plan, apps);
  }

  method NextApp(w: ExportWriter, ghost w0: World, dir: seq<Text>, ws: Row, apps: seq<Row>, i: nat)
    requires Ready(w) && OneName(dir) && i < |apps| && Goes(w.bases, w0, w.Now())
    requires Lasting(AppsHere(w.names, dir, ws)) && Growing(AppPlans(w.names, dir, ws))
    requires DoneSoFar(w.names, w0, w.Now(), AppsHere(w.names, dir, ws), AppPlans(w.names, dir, ws), apps, i)
    modifies w
    ensures Ready(w) && Goes(w.bases, w0, w.Now())
    ensures DoneSoFar(w.names, w0, w.Now(), AppsHere(w.names, dir, ws), AppPlans(w.names, dir, ws), apps, i + 1)
  {
    ghost var w1 := w.Now();
    App(w, dir, ws, apps[i]);
    GoesOn(w.bases, w0, w1, w.Now());
    OneMore(w.names, w0, w1, w.Now(), AppsHere(w.names, dir, ws), AppPlans(w.names, dir, ws), apps, i, false);
  }

  method Automation(w: ExportWriter, dir: seq<Text>, kind: Text) returns (threw: bool)
    requires Ready(w) && OneName(dir) && kind in KINDS
    modifies w
    ensures Stage(w, old(w.Now()), AutomationPlans(dir)(Seen(w.names, w.Now()), kind))
    ensures !threw && Reliable(w.Now()) ==> AutomationsHere(dir)(Seen(w.names, w.Now()), kind)
  {
    AutomationIds(dir, kind);
    var listing := CachedListing(w, AutomationFile(dir, kind));
    return listing.Throws?;
  }

  method Automations(w: ExportWriter, dir: seq<Text>) returns (threw: bool)
    requires Ready(w) && OneName(dir)
    modifies w
    ensures Stage(w, old(w.Now()), SumOver(AutomationPlans(dir), Seen(w.names, w.Now()), KINDS))
    ensures !threw && Reliable(w.Now()) ==>
              forall kind | kind in KINDS :: AutomationsHere(dir)(Seen(w.names, w.Now()), kind)
  {
    ghost var w0 := w.Now();
    ghost var holds, plan := AutomationsHere(dir), AutomationPlans(dir);
    ThingsLast(w.names, dir, NO_ROW, [], []);
    AppPlansGrow(w.names, dir, NO_ROW);
    NothingDone(w.names, w0, holds, plan, KINDS);
    for i := 0 to |KINDS|
      invariant Ready(w) && Goes(w.bases, w0, w.Now()) && DoneSoFar(w.names, w0, w.Now(), holds, plan, KINDS, i)
    {
      ghost var w1 := w.Now();
      threw := Automation(w, dir, KINDS[i]);
      GoesOn(w.bases, w0, w1, w.Now());
      OneMore(w.names, w0, w1, w.Now(), holds, plan, KINDS, i, threw);
      if threw { return; }
    }
    AllDone(w.names, w0, w.Now(), holds, plan, KINDS);
    return false;
  }

  const NO_ROW := Row([], [], [], [], false, None)

  // ---- threads, many at a time ----

  /** Where the walk of one thread stands: its details, its messages, its agent's volumes, so many of
      the volumes, or its end. */
  datatype At = Details | Messages | Mounts | Mounted(volumes: seq<Row>, count: nat) | Over

  /** What has been seen of a thread whose walk stands there, and whether it can be relied on. */
  predicate ThreadAt(n: Scheme, v: View, dir: seq<Text>, ws: Row, thread: Row, at: At, reliable: bool) {
    if at.Over? then reliable ==> ThreadHolds(n, v, dir, ws, thread)
    else
      && thread.workspace == ws.id
      && (!at.Details? ==> v.item(ThreadDetails(n, dir, thread), thread.id))
      && (at.Mounts? || at.Mounted? ==> v.item(ThreadMessages(n, dir, thread), thread.id))
      && (at.Mounted? ==>
            var t := ThreadDir(n, dir, thread);
            && at.count <= |at.volumes| && thread.agent.Some? && v.listing(Volumes(t))
            && v.rows(Volumes(t)) == at.volumes
            && (reliable ==> FirstHold(VolumesHere(n, t), v, at.volumes, at.count)))
  }

  /** The names its walk has used by then. */
  function ThreadSpent(n: Scheme, v: View, dir: seq<Text>, ws: Row, thread: Row, at: At): multiset<Visit> {
    match at
    case Details => multiset{}
    case Messages => multiset{Leaf(ThreadDetails(n, dir, thread), thread.id)}
    case Mounts =>
      multiset{Leaf(ThreadDetails(n, dir, thread), thread.id), Leaf(ThreadMessages(n, dir, thread), thread.id)}
    case Mounted(volumes, count) =>
      var t := ThreadDir(n, dir, thread);
      multiset{Leaf(ThreadDetails(n, dir, thread), thread.id), Leaf(ThreadMessages(n, dir, thread), thread.id)}
      + (multiset{List(Volumes(t))}
         + SumOver(VolumePlans(n, t), v, if count <= |volumes| then volumes[..count] else volumes))
    case Over => ThreadPlan(n, v, dir, ws, thread)
  }

  lemma ThreadAtStays(n: Scheme, v: View, v': View, dir: seq<Text>, ws: Row, thread: Row, at: At, reliable: bool,
                      reliable': bool)
    requires Refines(v, v') && ThreadAt(n, v, dir, ws, thread, at, reliable) && (reliable' ==> reliable)
    ensures ThreadAt(n, v', dir, ws, thread, at, reliable')
  {
    if reliable' {
      if at.Over? {
        ThreadStays(n, v, v', dir, ws, thread);
      } else if at.Mounted? {
        var t := ThreadDir(n, dir, thread);
        ThingsLast(n, t, ws, [], []);
        forall i | 0 <= i < at.count ensures VolumesHere(n, t)(v', at.volumes[i]) {
          assert VolumesHere(n, t)(v, at.volumes[i]);
        }
      }
    }
  }

  lemma SpentGrows(n: Scheme, v: View, v': View, dir: seq<Text>, ws: Row, thread: Row, at: At)
    requires Grows(v, v')
    ensures ThreadSpent(n, v, dir, ws, thread, at) <= ThreadSpent(n, v', dir, ws, thread, at)
  {
    var t := ThreadDir(n, dir, thread);
    if at.Mounted? {
      var front := if at.count <= |at.volumes| then at.volumes[..at.count] else at.volumes;
      VolumePlansGrow(n, t);
      SumOverGrows(VolumePlans(n, t), v, v', front, front);
    } else if at.Over? {
      VolumesPlanGrows(n, v, v', t);
    }
  }

  lemma PlusLess(c: multiset<Visit>, a: multiset<Visit>, b: multiset<Visit>)
    requires a <= b
    ensures c + a <= c + b
  {
  }

  /** No walk of a thread uses other names than its plan says. */
  lemma SpentIsPlanned(n: Scheme, v: View, dir: seq<Text>, ws: Row, thread: Row, at: At, reliable: bool)
    requires ThreadAt(n, v, dir, ws, thread, at, reliable)
    ensures ThreadSpent(n, v, dir, ws, thread, at) <= ThreadPlan(n, v, dir, ws, thread)
  {
    if !at.Over? {
      var t := ThreadDir(n, dir, thread);
      var a, b := Leaf(ThreadDetails(n, dir, thread), thread.id), Leaf(ThreadMessages(n, dir, thread), thread.id);
      var rest := if thread.agent.Some? then VolumesPlan(n, v, t) else multiset{};
      assert ThreadPlan(n, v, dir, ws, thread) == multiset{a, b} + rest;
      if at.Mounted? {
        FrontIsLess(VolumePlans(n, t), v, at.volumes, at.count);
        var some := SumOver(VolumePlans(n, t), v, at.volumes[..at.count]);
        PlusLess(multiset{List(Volumes(t))}, some, SumOver(VolumePlans(n, t), v, at.volumes));
        PlusLess(multiset{a, b}, multiset{List(Volumes(t))} + some, rest);
      } else {
        PlusLess(multiset{a, b}, multiset{}, rest);
        assert multiset{a} <= multiset{a, b} + multiset{};
      }
    }
  }

  /** A step of a thread's walk: from there to here, with the names between the two. What has been seen
      can be relied on as long as no worker has thrown (`ok`). */
  ghost predicate Stepped(n: Scheme, w0: World, w: World, dir: seq<Text>, ws: Row, thread: Row, at: At, at': At,
                          ok: bool) {
    var v := Seen(n, w);
    && w.visits + ThreadSpent(n, v, dir, ws, thread, at) <= w0.visits + ThreadSpent(n, v, dir, ws, thread, at')
    && ThreadAt(n, v, dir, ws, thread, at', ok && Reliable(w))
  }

  method ThreadVolumes(w: ExportWriter, dir: seq<Text>, ws: Row, thread: Row, ghost before: At, ghost ok: bool)
    returns (at: At, threw: bool)
    requires Ready(w) && OneName(dir) && before.Mounts?
    requires ThreadAt(w.names, Seen(w.names, w.Now()), dir, ws, thread, before, ok && Reliable(w.Now()))
    modifies w
    ensures Ready(w) && Goes(w.bases, old(w.Now()), w.Now())
    ensures Stepped(w.names, old(w.Now()), w.Now(), dir, ws, thread, before, at, ok && !threw)
    ensures at.Over? || at.Mounted?
  {
    ghost var w0 := w.Now();
    if thread.agent.None? {
      NoMounts(w.names, w0, dir, ws, thread, before, ok);
      return Over, false;
    }
    var t := ThreadDir(w.names, dir, thread);
    ThreadDirNames(w.names, dir, thread);
    VolumeIds(w.names, t, NO_ROW);
    var listing := CachedListing(w, Volumes(t));
    if !listing.Got? {
      MountsUnread(w.names, w0, w.Now(), dir, ws, thread, before, ok, ok && !listing.Throws?);
      return Over, listing.Throws?;
    }
    MountsRead(w.names, w0, w.Now(), dir, ws, thread, before, ok, listing.value);
    return Mounted(listing.value, 0), false;
  }

  lemma NoMounts(n: Scheme, w: World, dir: seq<Text>, ws: Row, thread: Row, at: At, ok: bool)
    requires at.Mounts? && ThreadAt(n, Seen(n, w), dir, ws, thread, at, ok && Reliable(w)) && thread.agent.None?
    ensures Stepped(n, w, w, dir, ws, thread, at, Over, ok)
  {
  }

  /** The listing of an agent's volumes was asked for. */
  ghost predicate MountsAsked(n: Scheme, w0: World, w: World, dir: seq<Text>, ws: Row, thread: Row, at: At,
                              ok: bool) {
    && at.Mounts? && ThreadAt(n, Seen(n, w0), dir, ws, thread, at, ok && Reliable(w0)) && thread.agent.Some?
    && Moves(w0, w)
    && w.visits <= w0.visits + multiset{List(Volumes(ThreadDir(n, dir, thread)))}
  }

  lemma MountsUnread(n: Scheme, w0: World, w: World, dir: seq<Text>, ws: Row, thread: Row, at: At, ok: bool, ok': bool)
    requires MountsAsked(n, w0, w, dir, ws, thread, at, ok) && (ok' ==> !Reliable(w))
    ensures Stepped(n, w0, w, dir, ws, thread, at, Over, ok')
  {
    var v, t := Seen(n, w), ThreadDir(n, dir, thread);
    var rows := SumOver(VolumePlans(n, t), v, v.rows(Volumes(t)));
    VisitsStep(w.visits, w0.visits, multiset{List(Volumes(t))}, ThreadSpent(n, v, dir, ws, thread, Mounts));
    MoreSpent(w.visits + ThreadSpent(n, v, dir, ws, thread, Mounts), w0.visits,
              ThreadSpent(n, v, dir, ws, thread, Mounts), multiset{List(Volumes(t))}, rows);
  }

  lemma MoreSpent(all: multiset<Visit>, visits: multiset<Visit>, spent: multiset<Visit>, more: multiset<Visit>,
                  rest: multiset<Visit>)
    requires all <= visits + (spent + more)
    ensures all <= visits + (spent + (more + rest))
  {
  }

  lemma MountsRead(n: Scheme, w0: World, w: World, dir: seq<Text>, ws: Row, thread: Row, at: At, ok: bool,
                   volumes: seq<Row>)
    requires MountsAsked(n, w0, w, dir, ws, thread, at, ok)
    requires var t := ThreadDir(n, dir, thread);
             Seen(n, w).listing(Volumes(t)) && Seen(n, w).rows(Volumes(t)) == volumes
    ensures Stepped(n, w0, w, dir, ws, thread, at, Mounted(volumes, 0), ok)
  {
    var v, t := Seen(n, w), ThreadDir(n, dir, thread);
    SeenGrows(n, w0, w);
    VisitsStep(w.visits, w0.visits, multiset{List(Volumes(t))}, ThreadSpent(n, v, dir, ws, thread, Mounts));
    assert multiset{List(Volumes(t))} + SumOver(VolumePlans(n, t), v, volumes[..0]) == multiset{List(Volumes(t))};
  }

  method ThreadVolume(w: ExportWriter, dir: seq<Text>, ws: Row, thread: Row, at: At, ghost ok: bool)
    returns (at': At, threw: bool)
    requires Ready(w) && OneName(dir) && at.Mounted? && at.count < |at.volumes|
    requires ThreadAt(w.names, Seen(w.names, w.Now()), dir, ws, thread, at, ok && Reliable(w.Now()))
    modifies w
    ensures Ready(w) && Goes(w.bases, old(w.Now()), w.Now())
    ensures Stepped(w.names, old(w.Now()), w.Now(), dir, ws, thread, at, at', ok && !threw)
    ensures at' == if threw then Over else Mounted(at.volumes, at.count + 1)
  {
    ghost var w0 := w.Now();
    var volumes, count := at.volumes, at.count;
    var t := ThreadDir(w.names, dir, thread);
    ThreadDirNames(w.names, dir, thread);
    VolumeIds(w.names, t, volumes[count]);
    threw := Files(w, VolumeBase(w.names, t, volumes[count]), VolumeListing(w.names, t, volumes[count]), 1);
    VolumeStepped(w.names, w0, w.Now(), dir, ws, thread, at, volumes, count, ok, ok && !threw);
    if threw {
      ThreadGivesUp(w.names, w0, w.Now(), dir, ws, thread, at, Mounted(volumes, count + 1));
      return Over, true;
    }
    return Mounted(volumes, count + 1), false;
  }

  /** A worker that throws is through with its thread. */
  lemma ThreadGivesUp(n: Scheme, w0: World, w: World, dir: seq<Text>, ws: Row, thread: Row, at: At, at': At)
    requires Stepped(n, w0, w, dir, ws, thread, at, at', false)
    ensures Stepped(n, w0, w, dir, ws, thread, at, Over, false)
  {
    var v := Seen(n, w);
    SpentIsPlanned(n, v, dir, ws, thread, at', false);
    PlusLess(w0.visits, ThreadSpent(n, v, dir, ws, thread, at'), ThreadPlan(n, v, dir, ws, thread));
  }

  lemma FrontOneMore(plan: (View, Row) -> multiset<Visit>, v: View, rows: seq<Row>, count: nat)
    requires count < |rows|
    ensures SumOver(plan, v, rows[..count + 1]) == SumOver(plan, v, rows[..count]) + plan(v, rows[count])
  {
    assert rows[..count + 1][..count] == rows[..count];
  }

  lemma VolumeSpent(n: Scheme, v: View, dir: seq<Text>, ws: Row, thread: Row, volumes: seq<Row>, count: nat)
    requires count < |volumes|
    ensures ThreadSpent(n, v, dir, ws, thread, Mounted(volumes, count + 1))
         == ThreadSpent(n, v, dir, ws, thread, Mounted(volumes, count))
           + VolumePlan(n, v, ThreadDir(n, dir, thread), volumes[count])
  {
    FrontOneMore(VolumePlans(n, ThreadDir(n, dir, thread)), v, volumes, count);
  }

  lemma VolumeStepped(n: Scheme, w0: World, w: World, dir: seq<Text>, ws: Row, thread: Row, at: At,
                      volumes: seq<Row>, count: nat, ok: bool, ok': bool)
    requires Moves(w0, w) && at == Mounted(volumes, count) && count < |volumes| && (ok' ==> ok)
    requires ThreadAt(n, Seen(n, w0), dir, ws, thread, at, ok && Reliable(w0))
    requires var t := ThreadDir(n, dir, thread);
             && w.visits <= w0.visits + VolumePlan(n, Seen(n, w), t, volumes[count])
             && (ok' && Reliable(w) ==> VolumeHolds(n, Seen(n, w), t, volumes[count]))
    ensures Stepped(n, w0, w, dir, ws, thread, at, Mounted(volumes, count + 1), ok')
  {
    var v := Seen(n, w);
    SeenGrows(n, w0, w);
    if Reliable(w) { ReliableBefore(w0, w); }
    ThreadAtStays(n, Seen(n, w0), v, dir, ws, thread, at, ok && Reliable(w0), ok' && Reliable(w));
    VolumeIsDone(n, v, dir, ws, thread, volumes, count, ok' && Reliable(w));
    VolumeSpent(n, v, dir, ws, thread, volumes, count);
    VisitsStep(w.visits, w0.visits, VolumePlan(n, v, ThreadDir(n, dir, thread), volumes[count]),
               ThreadSpent(n, v, dir, ws, thread, Mounted(volumes, count)));
  }

  lemma VolumeIsDone(n: Scheme, v: View, dir: seq<Text>, ws: Row, thread: Row, volumes: seq<Row>, count: nat,
                     reliable: bool)
    requires count < |volumes| && ThreadAt(n, v, dir, ws, thread, Mounted(volumes, count), reliable)
    requires reliable ==> VolumeHolds(n, v, ThreadDir(n, dir, thread), volumes[count])
    ensures ThreadAt(n, v, dir, ws, thread, Mounted(volumes, count + 1), reliable)
  {
    var t := ThreadDir(n, dir, thread);
    if reliable {
      forall i | 0 <= i < count + 1 ensures VolumesHere(n, t)(v, volumes[i]) {
        if i < count { assert VolumesHere(n, t)(v, volumes[i]); }
      }
    }
  }

  lemma VisitsStep(visits': multiset<Visit>, visits: multiset<Visit>, more: multiset<Visit>, spent: multiset<Visit>)
    requires visits' <= visits + more
    ensures visits' + spent <= visits + (spent + more)
  {
    forall x ensures (visits' + spent)[x] <= (visits + (spent + more))[x] { assert visits'[x] <= (visits + more)[x]; }
  }

  /** The items a thread's walk begins with. */
  method ThreadItem(w: ExportWriter, dir: seq<Text>, ws: Row, thread: Row, at: At, ghost ok: bool) returns (at': At)
    requires Ready(w) && OneName(dir) && (at.Details? || at.Messages?)
    requires ThreadAt(w.names, Seen(w.names, w.Now()), dir, ws, thread, at, ok && Reliable(w.Now()))
    modifies w
    ensures Ready(w) && Goes(w.bases, old(w.Now()), w.Now())
    ensures Stepped(w.names, old(w.Now()), w.Now(), dir, ws, thread, at, at', ok)
    ensures Nearer(at, at')
  {
    ghost var w0 := w.Now();
    ThreadIds(w.names, dir, thread);
    if at.Details? {
      LeafItem(w, ThreadDetails(w.names, dir, thread), thread.id, false, Data);
      at' := Messages;
    } else {
      LeafItem(w, ThreadMessages(w.names, dir, thread), thread.id, false, Data);
      SeenGrows(w.names, w0, w.Now());
      at' := Mounts;
    }
  }

  /** One step of a thread's walk. */
  method ThreadStep(w: ExportWriter, dir: seq<Text>, ws: Row, thread: Row, at: At, ghost ok: bool)
    returns (at': At, threw: bool)
    requires Ready(w) && OneName(dir) && !at.Over?
    requires ThreadAt(w.names, Seen(w.names, w.Now()), dir, ws, thread, at, ok && Reliable(w.Now()))
    modifies w
    ensures Ready(w) && Goes(w.bases, old(w.Now()), w.Now())
    ensures Stepped(w.names, old(w.Now()), w.Now(), dir, ws, thread, at, at', ok && !threw)
    ensures Nearer(at, at')
  {
    if at.Mounts? {
      at', threw := ThreadVolumes(w, dir, ws, thread, at, ok);
      VolumesAreNearer(at, at');
      return;
    }
    if at.Mounted? {
      at', threw := ThreadMounted(w, dir, ws, thread, at, ok);
      return;
    }
    at' := ThreadItem(w, dir, ws, thread, at, ok);
    return at', false;
  }

  method ThreadMounted(w: ExportWriter, dir: seq<Text>, ws: Row, thread: Row, at: At, ghost ok: bool)
    returns (at': At, threw: bool)
    requires Ready(w) && OneName(dir) && at.Mounted?
    requires ThreadAt(w.names, Seen(w.names, w.Now()), dir, ws, thread, at, ok && Reliable(w.Now()))
    modifies w
    ensures Ready(w) && Goes(w.bases, old(w.Now()), w.Now())
    ensures Stepped(w.names, old(w.Now()), w.Now(), dir, ws, thread, at, at', ok && !threw)
    ensures Nearer(at, at')
  {
    if at.count == |at.volumes| {
      VolumesAreThrough(w.names, w.Now(), dir, ws, thread, at, ok);
      return Over, false;
    }
    at', threw := ThreadVolume(w, dir, ws, thread, at, ok);
    VolumeIsNearer(at, at', threw);
  }

  /** A step brings the end of a thread's walk nearer. */
  predicate Nearer(at: At, at': At) {
    StepsLeft(at') < StepsLeft(at) || (StepsLeft(at') == StepsLeft(at) && VolumesLeft(at') < VolumesLeft(at))
  }

  lemma VolumesAreNearer(at: At, at': At)
    requires at.Mounts? && (at'.Over? || at'.Mounted?)
    ensures Nearer(at, at')
  {
  }

  lemma VolumeIsNearer(at: At, at': At, threw: bool)
    requires at.Mounted? && at.count < |at.volumes| && at' == if threw then Over else Mounted(at.volumes, at.count + 1)
    ensures Nearer(at, at')
  {
  }

  function StepsLeft(at: At): nat {
    match at
    case Details => 4
    case Messages => 3
    case Mounts => 2
    case Mounted(_, _) => 1
    case Over => 0
  }

  function VolumesLeft(at: At): nat {
    if at.Mounted? && at.count <= |at.volumes| then |at.volumes| - at.count else 0
  }

  lemma VolumesAreThrough(n: Scheme, w: World, dir: seq<Text>, ws: Row, thread: Row, at: At, ok: bool)
    requires at.Mounted? && at.count == |at.volumes|
    requires ThreadAt(n, Seen(n, w), dir, ws, thread, at, ok && Reliable(w))
    ensures Stepped(n, w, w, dir, ws, thread, at, Over, ok)
  {
    MountedIsOver(n, Seen(n, w), dir, ws, thread, at.volumes, ok && Reliable(w));
  }

  lemma MountedIsOver(n: Scheme, v: View, dir: seq<Text>, ws: Row, thread: Row, volumes: seq<Row>, reliable: bool)
    requires ThreadAt(n, v, dir, ws, thread, Mounted(volumes, |volumes|), reliable)
    ensures ThreadAt(n, v, dir, ws, thread, Over, reliable)
    ensures ThreadSpent(n, v, dir, ws, thread, Mounted(volumes, |volumes|)) == ThreadSpent(n, v, dir, ws, thread, Over)
  {
    assert volumes[..|volumes|] == volumes;
    if reliable {
      forall volume | volume in volumes ensures VolumeHolds(n, v, ThreadDir(n, dir, thread), volume) {
        var i :| 0 <= i < |volumes| && volumes[i] == volume;
        assert VolumesHere(n, ThreadDir(n, dir, thread))(v, volumes[i]);
      }
    }
  }

  /** The names used by the walks of the threads begun. */
  function AllSpent(spent: (Row, At) -> multiset<Visit>, threads: seq<Row>, ats: seq<At>): multiset<Visit>
    requires |ats| <= |threads|
  {
    if ats == [] then multiset{}
    else
      var last := |ats| - 1;
      AllSpent(spent, threads, ats[..last]) + spent(threads[last], ats[last])
  }

  function SpentIn(n: Scheme, v: View, dir: seq<Text>, ws: Row): (Row, At) -> multiset<Visit> {
    (thread, at) => ThreadSpent(n, v, dir, ws, thread, at)
  }

  lemma {:induction false} AllSpentGrows(spent: (Row, At) -> multiset<Visit>, more: (Row, At) -> multiset<Visit>,
                                         threads: seq<Row>, ats: seq<At>)
    requires |ats| <= |threads| && forall thread, at :: spent(thread, at) <= more(thread, at)
    ensures AllSpent(spent, threads, ats) <= AllSpent(more, threads, ats)
    decreases |ats|
  {
    if ats == [] {
    } else {
      AllSpentGrows(spent, more, threads, ats[..|ats| - 1]);
    }
  }

  lemma {:induction false} SpentByOne(spent: (Row, At) -> multiset<Visit>, threads: seq<Row>, ats: seq<At>, k: nat,
                                      at': At)
    requires k < |ats| <= |threads|
    ensures AllSpent(spent, threads, ats[k := at']) + spent(threads[k], ats[k])
         == AllSpent(spent, threads, ats) + spent(threads[k], at')
    decreases |ats|
  {
    var last := |ats| - 1;
    var front := AllSpent(spent, threads, ats[..last]);
    if k == last {
      assert ats[k := at'][..last] == ats[..last];
      Rearranged(front, spent(threads[k], ats[k]), front, spent(threads[k], ats[k]), spent(threads[k], at'));
    } else {
      SpentByOne(spent, threads, ats[..last], k, at');
      assert ats[k := at'][..last] == ats[..last][k := at'];
      Rearranged(AllSpent(spent, threads, ats[..last][k := at']), spent(threads[k], ats[k]), front,
                 spent(threads[k], at'), spent(threads[last], ats[last]));
    }
  }

  lemma Rearranged(a: multiset<Visit>, b: multiset<Visit>, c: multiset<Visit>, d: multiset<Visit>, e: multiset<Visit>)
    requires a + b == c + d
    ensures (a + e) + b == (c + e) + d
  {
    forall x ensures ((a + e) + b)[x] == ((c + e) + d)[x] { assert (a + b)[x] == (c + d)[x]; }
  }

  lemma {:induction false} AllSpentIsPlanned(spent: (Row, At) -> multiset<Visit>, plan: (View, Row) -> multiset<Visit>,
                                             v: View,
                                             threads: seq<Row>, ats: seq<At>)
    requires |ats| <= |threads| && forall k | 0 <= k < |ats| :: spent(threads[k], ats[k]) <= plan(v, threads[k])
    ensures AllSpent(spent, threads, ats) <= SumOver(plan, v, threads[..|ats|])
    decreases |ats|
  {
    if ats == [] {
    } else {
      var last := |ats| - 1;
      AllSpentIsPlanned(spent, plan, v, threads, ats[..last]);
      FrontOneMore(plan, v, threads, last);
    }
  }

  function WhereIn(n: Scheme, v: View, dir: seq<Text>, ws: Row, reliable: bool): (Row, At) -> bool {
    (thread, at) => ThreadAt(n, v, dir, ws, thread, at, reliable)
  }

  predicate AllAt(where: (Row, At) -> bool, threads: seq<Row>, ats: seq<At>) {
    |ats| <= |threads| && forall k | 0 <= k < |ats| :: where(threads[k], ats[k])
  }

  /** Where the walks of a workspace's threads stand, with the names they have used. */
  ghost predicate ThreadsAt(n: Scheme, w0: World, w: World, dir: seq<Text>, ws: Row, threads: seq<Row>, ats: seq<At>,
                            reliable: bool) {
    && AllAt(WhereIn(n, Seen(n, w), dir, ws, reliable), threads, ats)
    && w.visits <= w0.visits + AllSpent(SpentIn(n, Seen(n, w), dir, ws), threads, ats)
  }

  lemma StandingStays(n: Scheme, w: World, w': World, dir: seq<Text>, ws: Row, reliable: bool, reliable': bool)
    requires Moves(w, w') && (reliable' ==> reliable)
    ensures forall thread, at :: WhereIn(n, Seen(n, w), dir, ws, reliable)(thread, at)
                                 ==> WhereIn(n, Seen(n, w'), dir, ws, reliable')(thread, at)
    ensures forall thread, at ::
              SpentIn(n, Seen(n, w), dir, ws)(thread, at) <= SpentIn(n, Seen(n, w'), dir, ws)(thread, at)
  {
    SeenGrows(n, w, w');
    forall thread, at | WhereIn(n, Seen(n, w), dir, ws, reliable)(thread, at)
      ensures WhereIn(n, Seen(n, w'), dir, ws, reliable')(thread, at)
    {
      ThreadAtStays(n, Seen(n, w), Seen(n, w'), dir, ws, thread, at, reliable, reliable');
    }
    forall thread, at
      ensures SpentIn(n, Seen(n, w), dir, ws)(thread, at) <= SpentIn(n, Seen(n, w'), dir, ws)(thread, at)
    {
      SpentGrows(n, Seen(n, w), Seen(n, w'), dir, ws, thread, at);
    }
  }

  /** The sums of it, whatever is spent where. */
  lemma OneStepsSum(before: multiset<Visit>, visits: multiset<Visit>, visits': multiset<Visit>,
                    spent: (Row, At) -> multiset<Visit>,
                    spent': (Row, At) -> multiset<Visit>, threads: seq<Row>, ats: seq<At>, k: nat, at': At)
    requires k < |ats| <= |threads| && forall thread, at :: spent(thread, at) <= spent'(thread, at)
    requires visits <= before + AllSpent(spent, threads, ats)
    requires visits' + spent'(threads[k], ats[k]) <= visits + spent'(threads[k], at')
    ensures visits' <= before + AllSpent(spent', threads, ats[k := at'])
  {
    AllSpentGrows(spent, spent', threads, ats);
    SpentByOne(spent', threads, ats, k, at');
    SumsStep(before, visits, visits', AllSpent(spent, threads, ats), AllSpent(spent', threads, ats),
             AllSpent(spent', threads, ats[k := at']), spent'(threads[k], ats[k]), spent'(threads[k], at'));
  }

  lemma SumsStep(before: multiset<Visit>, visits: multiset<Visit>, visits': multiset<Visit>, all: multiset<Visit>,
                 all': multiset<Visit>, next: multiset<Visit>, one: multiset<Visit>, one': multiset<Visit>)
    requires visits <= before + all && all <= all'
    requires next + one == all' + one' && visits' + one <= visits + one'
    ensures visits' <= before + next
  {
    forall x ensures visits'[x] <= (before + next)[x] {
      assert (next + one)[x] == (all' + one')[x] && (visits' + one)[x] <= (visits + one')[x];
      assert visits[x] <= (before + all)[x] && all[x] <= all'[x];
    }
  }

  lemma OneSteps(n: Scheme, w0: World, w: World, w': World, dir: seq<Text>, ws: Row, threads: seq<Row>, ats: seq<At>,
                 k: nat, at': At, ok: bool, ok': bool)
    requires ThreadsAt(n, w0, w, dir, ws, threads, ats, ok && Reliable(w)) && k < |ats| <= |threads| && Moves(w, w')
    requires Stepped(n, w, w', dir, ws, threads[k], ats[k], at', ok') && (ok' ==> ok)
    ensures ThreadsAt(n, w0, w', dir, ws, threads, ats[k := at'], ok' && Reliable(w'))
  {
    if Reliable(w') { ReliableBefore(w, w'); }
    StandingStays(n, w, w', dir, ws, ok && Reliable(w), ok' && Reliable(w'));
    var where := WhereIn(n, Seen(n, w), dir, ws, ok && Reliable(w));
    var where' := WhereIn(n, Seen(n, w'), dir, ws, ok' && Reliable(w'));
    var spent, spent' := SpentIn(n, Seen(n, w), dir, ws), SpentIn(n, Seen(n, w'), dir, ws);
    assert where'(threads[k], at') && w'.visits + spent'(threads[k], ats[k]) <= w.visits + spent'(threads[k], at');
    AllStand(where, where', threads, ats, k, at');
    OneStepsSum(w0.visits, w.visits, w'.visits, spent, spent', threads, ats, k, at');
  }

  lemma AllStand(where: (Row, At) -> bool, where': (Row, At) -> bool, threads: seq<Row>, ats: seq<At>, k: nat, at': At)
    requires AllAt(where, threads, ats) && k < |ats| && where'(threads[k], at')
    requires forall thread, at :: where(thread, at) ==> where'(thread, at)
    ensures AllAt(where', threads, ats[k := at'])
  {
    forall j | 0 <= j < |ats| ensures where'(threads[j], ats[k := at'][j]) {
      if j != k { assert where(threads[j], ats[j]); }
    }
  }

  lemma OneBegins(n: Scheme, w0: World, w: World, dir: seq<Text>, ws: Row, threads: seq<Row>, ats: seq<At>, ok: bool)
    requires ThreadsAt(n, w0, w, dir, ws, threads, ats, ok && Reliable(w)) && |ats| < |threads|
    ensures ThreadsAt(n, w0, w, dir, ws, threads, ats + [FirstAt(ws, threads[|ats|])], ok && Reliable(w))
  {
    var where, spent := WhereIn(n, Seen(n, w), dir, ws, ok && Reliable(w)), SpentIn(n, Seen(n, w), dir, ws);
    var first := FirstAt(ws, threads[|ats|]);
    assert where(threads[|ats|], first);
    OneBeginsSum(where, spent, threads, ats, first);
  }

  lemma OneBeginsSum(where: (Row, At) -> bool, spent: (Row, At) -> multiset<Visit>, threads: seq<Row>, ats: seq<At>,
                     first: At)
    requires AllAt(where, threads, ats) && |ats| < |threads| && where(threads[|ats|], first)
    ensures AllAt(where, threads, ats + [first])
    ensures AllSpent(spent, threads, ats) <= AllSpent(spent, threads, ats + [first])
  {
    var more := ats + [first];
    assert more[..|ats|] == ats;
    forall k | 0 <= k < |more| ensures where(threads[k], more[k]) { if k < |ats| { assert where(threads[k], ats[k]); } }
  }

  /** A thread of another workspace is passed over. */
  function FirstAt(ws: Row, thread: Row): At { if thread.workspace == ws.id then Details else Over }

  lemma ThreadsOver(n: Scheme, w0: World, w: World, dir: seq<Text>, ws: Row, threads: seq<Row>, ats: seq<At>,
                    reliable: bool)
    requires ThreadsAt(n, w0, w, dir, ws, threads, ats, reliable)
    ensures w.visits <= w0.visits + SumOver(ThreadPlans(n, dir, ws), Seen(n, w), threads)
    ensures reliable && |ats| == |threads| && (forall k | 0 <= k < |ats| :: ats[k].Over?) ==>
              forall thread | thread in threads :: ThreadHolds(n, Seen(n, w), dir, ws, thread)
  {
    var where, spent := WhereIn(n, Seen(n, w), dir, ws, reliable), SpentIn(n, Seen(n, w), dir, ws);
    forall k | 0 <= k < |ats| ensures spent(threads[k], ats[k]) <= ThreadPlans(n, dir, ws)(Seen(n, w), threads[k]) {
      assert where(threads[k], ats[k]);
      SpentIsPlanned(n, Seen(n, w), dir, ws, threads[k], ats[k], reliable);
    }
    AllSpentIsPlanned(spent, ThreadPlans(n, dir, ws), Seen(n, w), threads, ats);
    FrontIsLess(ThreadPlans(n, dir, ws), Seen(n, w), threads, |ats|);
    if reliable && |ats| == |threads| && forall k | 0 <= k < |ats| :: ats[k].Over? {
      forall thread | thread in threads ensures ThreadHolds(n, Seen(n, w), dir, ws, thread) {
        var k :| 0 <= k < |threads| && threads[k] == thread;
        assert where(threads[k], ats[k]);
      }
    }
  }

  /** How many walks are under way. */
  function UnderWay(ats: seq<At>): nat {
    if ats == [] then 0 else UnderWay(ats[..|ats| - 1]) + if ats[|ats| - 1].Over? then 0 else 1
  }

  function AllStepsLeft(ats: seq<At>): nat {
    if ats == [] then 0 else AllStepsLeft(ats[..|ats| - 1]) + StepsLeft(ats[|ats| - 1])
  }

  function AllVolumesLeft(ats: seq<At>): nat {
    if ats == [] then 0 else AllVolumesLeft(ats[..|ats| - 1]) + VolumesLeft(ats[|ats| - 1])
  }

  lemma {:induction false} OneLessLeft(ats: seq<At>, k: nat, at': At)
    requires k < |ats|
    ensures AllStepsLeft(ats[k := at']) == AllStepsLeft(ats) - StepsLeft(ats[k]) + StepsLeft(at')
    ensures AllVolumesLeft(ats[k := at']) == AllVolumesLeft(ats) - VolumesLeft(ats[k]) + VolumesLeft(at')
    decreases |ats|
  {
    var last := |ats| - 1;
    if k == last {
      assert ats[k := at'][..last] == ats[..last];
    } else {
      OneLessLeft(ats[..last], k, at');
      assert ats[k := at'][..last] == ats[..last][k := at'];
    }
  }

  lemma OneMoreUnderWay(ats: seq<At>, at: At)
    ensures UnderWay(ats + [at]) <= UnderWay(ats) + 1
  {
    assert (ats + [at])[..|ats|] == ats;
  }

  lemma {:induction false} NoMoreUnderWay(ats: seq<At>, k: nat, at': At)
    requires k < |ats| && !ats[k].Over?
    ensures UnderWay(ats[k := at']) <= UnderWay(ats)
    decreases |ats|
  {
    var last := |ats| - 1;
    if k == last {
      assert ats[k := at'][..last] == ats[..last];
    } else {
      NoMoreUnderWay(ats[..last], k, at');
      assert ats[k := at'][..last] == ats[..last][k := at'];
    }
  }

  lemma {:induction false} SomeUnderWay(ats: seq<At>)
    ensures UnderWay(ats) > 0 <==> exists k :: 0 <= k < |ats| && !ats[k].Over?
    decreases |ats|
  {
    if ats == [] {
    } else {
      var front := ats[..|ats| - 1];
      SomeUnderWay(front);
      if UnderWay(front) > 0 {
        var k :| 0 <= k < |front| && !front[k].Over?;
        assert !ats[k].Over?;
      }
      if k :| 0 <= k < |ats| && !ats[k].Over? {
        if k < |front| { assert !front[k].Over?; }
      }
    }
  }

  /** One of the walks under way goes on. */
  method SomeThreadStep(w: ExportWriter, ghost w0: World, dir: seq<Text>, ws: Row, threads: seq<Row>, ats: seq<At>,
                        ghost ok: bool)
    returns (ats': seq<At>, threw: bool)
    requires Ready(w) && Goes(w.bases, w0, w.Now()) && OneName(dir) && UnderWay(ats) > 0
    requires ThreadsAt(w.names, w0, w.Now(), dir, ws, threads, ats, ok && Reliable(w.Now()))
    modifies w
    ensures Ready(w) && Goes(w.bases, w0, w.Now()) && |ats'| == |ats| && UnderWay(ats') <= UnderWay(ats)
    ensures ThreadsAt(w.names, w0, w.Now(), dir, ws, threads, ats', ok && !threw && Reliable(w.Now()))
    ensures AllStepsLeft(ats') < AllStepsLeft(ats)
            || (AllStepsLeft(ats') == AllStepsLeft(ats) && AllVolumesLeft(ats') < AllVolumesLeft(ats))
  {
    SomeUnderWay(ats);
    var k: nat :| k < |ats| && !ats[k].Over?;
    ghost var w1 := w.Now();
    var at;
    at, threw := ThreadStep(w, dir, ws, threads[k], ats[k], ok);
    GoesOn(w.bases, w0, w1, w.Now());
    OneSteps(w.names, w0, w1, w.Now(), dir, ws, threads, ats, k, at, ok, ok && !threw);
    OneLessLeft(ats, k, at);
    NoMoreUnderWay(ats, k, at);
    ats' := ats[k := at];
  }

  lemma NoThreadYet(n: Scheme, bases: set<Text>, w: World, dir: seq<Text>, ws: Row, threads: seq<Row>)
    ensures Goes(bases, w, w) && forall reliable :: ThreadsAt(n, w, w, dir, ws, threads, [], reliable)
  {
  }

  /** `boundedMap` over the threads: begun in order, at most `concurrency` at a time, and going on in
      any order. When one of them throws, so does the call; the others may still go on, and others
      begin, until the process ends. */
  method Threads(w: ExportWriter, dir: seq<Text>, ws: Row, threads: seq<Row>, concurrency: nat) returns (threw: bool)
    requires Ready(w) && OneName(dir) && concurrency >= 1
    modifies w
    ensures Stage(w, old(w.Now()), SumOver(ThreadPlans(w.names, dir, ws), Seen(w.names, w.Now()), threads))
    ensures !threw && Reliable(w.Now()) ==>
              forall thread | thread in threads :: ThreadHolds(w.names, Seen(w.names, w.Now()), dir, ws, thread)
  {
    ghost var w0 := w.Now();
    NoThreadYet(w.names, w.bases, w0, dir, ws, threads);
    var ats: seq<At> := [];
    var ends := false;
    threw := false;
    while !ends && (|ats| < |threads| || UnderWay(ats) > 0)
      invariant Ready(w) && Goes(w.bases, w0, w.Now()) && (ends ==> threw) && UnderWay(ats) <= concurrency
      invariant ThreadsAt(w.names, w0, w.Now(), dir, ws, threads, ats, !threw && Reliable(w.Now()))
      decreases |threads| - |ats|, AllStepsLeft(ats), AllVolumesLeft(ats)
    {
      var begins: bool := Ask();
      if |ats| < |threads| && (UnderWay(ats) == 0 || (begins && UnderWay(ats) < concurrency)) {
        OneBegins(w.names, w0, w.Now(), dir, ws, threads, ats, !threw);
        OneMoreUnderWay(ats, FirstAt(ws, threads[|ats|]));
        ats := ats + [FirstAt(ws, threads[|ats|])];
      } else {
        var throws;
        ats, throws := SomeThreadStep(w, w0, dir, ws, threads, ats, !threw);
        threw := threw || throws;
      }
      if threw { ends := Ask(); }
    }
    SomeUnderWay(ats);
    ThreadsOver(w.names, w0, w.Now(), dir, ws, threads, ats, !threw && Reliable(w.Now()));
  }

  // ---- workspaces ----

  /** What two stages of a run did, together. */
  lemma TwoStages(n: Scheme, w0: World, w1: World, w: World, plan: multiset<Visit>, plan': multiset<Visit>,
                  next: multiset<Visit>)
    requires w1.visits <= w0.visits + plan && plan <= plan' && w.visits <= w1.visits + next
    ensures w.visits <= w0.visits + (plan' + next)
  {
  }

  method WorkspaceFiles(w: ExportWriter, dir: seq<Text>, wsId: Text, concurrency: nat) returns (threw: bool)
    requires Ready(w) && OneName(dir) && concurrency >= 1
    modifies w
    ensures Stage(w, old(w.Now()), FilesPlan(Seen(w.names, w.Now()), FileBase(dir), FileListing(dir))
                                   + ProjectsPlan(w.names, Seen(w.names, w.Now()), dir, wsId))
    ensures !threw && Reliable(w.Now()) ==>
              && FilesHold(Seen(w.names, w.Now()), FileBase(dir), FileListing(dir))
              && ProjectsHold(w.names, Seen(w.names, w.Now()), dir, wsId)
  {
    ghost var w0 := w.Now();
    ListingIds(dir);
    threw := Files(w, FileBase(dir), FileListing(dir), concurrency);
    if threw { return; }
    ghost var w1 := w.Now();
    threw := Projects(w, dir, wsId, concurrency);
    ghost var w2 := w.Now();
    GoesOn(w.bases, w0, w1, w2);
    SeenGrows(w.names, w1, w2);
    FilesPlanGrows(Seen(w.names, w1), Seen(w.names, w2), FileBase(dir), FileListing(dir));
    TwoStages(w.names, w0, w1, w2, FilesPlan(Seen(w.names, w1), FileBase(dir), FileListing(dir)),
              FilesPlan(Seen(w.names, w2), FileBase(dir), FileListing(dir)),
              ProjectsPlan(w.names, Seen(w.names, w2), dir, wsId));
    if Reliable(w2) {
      ReliableBefore(w1, w2);
      if !threw { FilesStay(Seen(w.names, w1), Seen(w.names, w2), FileBase(dir), FileListing(dir)); }
    }
  }

  /** The stages of a workspace's walk, by what each has added. */
  ghost predicate FilesStage(n: Scheme, w: World, w': World, dir: seq<Text>, wsId: Text) {
    var v := Seen(n, w');
    && Moves(w, w')
    && w'.visits <= w.visits + (FilesPlan(v, FileBase(dir), FileListing(dir)) + ProjectsPlan(n, v, dir, wsId))
    && (Reliable(w') ==> FilesHold(v, FileBase(dir), FileListing(dir)) && ProjectsHold(n, v, dir, wsId))
  }

  ghost predicate RowsStage<T(!new)>(n: Scheme, w: World, w': World, holds: (View, T) -> bool,
                                     plan: (View, T) -> multiset<Visit>, things: seq<T>) {
    && Moves(w, w') && w'.visits <= w.visits + SumOver(plan, Seen(n, w'), things)
    && (Reliable(w') ==> forall thing | thing in things :: holds(Seen(n, w'), thing))
  }

  function ThreadsHere(n: Scheme, dir: seq<Text>, ws: Row): (View, Row) -> bool {
    (v, thread) => ThreadHolds(n, v, dir, ws, thread)
  }

  /** What a stage did is there after the next ones. */
  lemma RowsStageLasts<T(!new)>(n: Scheme, w0: World, w: World, w': World, holds: (View, T) -> bool,
                                plan: (View, T) -> multiset<Visit>, things: seq<T>)
    requires RowsStage(n, w0, w, holds, plan, things) && Moves(w, w') && Lasting(holds) && Growing(plan)
    ensures Reliable(w') ==> forall thing | thing in things :: holds(Seen(n, w'), thing)
    ensures w.visits <= w0.visits + SumOver(plan, Seen(n, w'), things)
  {
    SeenGrows(n, w, w');
    SumOverGrows(plan, Seen(n, w), Seen(n, w'), things, things);
    if Reliable(w') {
      ReliableBefore(w, w');
      forall thing | thing in things ensures holds(Seen(n, w'), thing) { assert holds(Seen(n, w), thing); }
    }
  }

  lemma FilesStageLasts(n: Scheme, w0: World, w: World, w': World, dir: seq<Text>, wsId: Text)
    requires FilesStage(n, w0, w, dir, wsId) && Moves(w, w')
    ensures var v := Seen(n, w');
            && w.visits <= w0.visits + (FilesPlan(v, FileBase(dir), FileListing(dir)) + ProjectsPlan(n, v, dir, wsId))
            && (Reliable(w') ==> FilesHold(v, FileBase(dir), FileListing(dir)) && ProjectsHold(n, v, dir, wsId))
  {
    var v, v' := Seen(n, w), Seen(n, w');
    SeenGrows(n, w, w');
    FilesPlanGrows(v, v', FileBase(dir), FileListing(dir));
    ProjectsPlanGrows(n, v, v', dir, wsId);
    if Reliable(w') {
      ReliableBefore(w, w');
      FilesStay(v, v', FileBase(dir), FileListing(dir));
      ProjectsStay(n, v, v', dir, wsId);
    }
  }

  /** The names a workspace's walk uses. */
  lemma WorkspaceNamed(n: Scheme, w0: World, w1: World, w2: World, w3: World, w4: World, w: World,
                       ws: Row, apps: seq<Row>, threads: seq<Row>)
    requires var dir := WorkspaceDir(n, ws);
             && RowsStage(n, w0, w1, AutomationsHere(dir), AutomationPlans(dir), KINDS)
             && FilesStage(n, w1, w2, dir, ws.id) && Moves(w2, w3)
             && w3.visits <= w2.visits + multiset{Walk(Walker(ws.id, None))}
             && RowsStage(n, w3, w4, AppsHere(n, dir, ws), AppPlans(n, dir, ws), apps)
             && Moves(w4, w) && w.visits <= w4.visits + SumOver(ThreadPlans(n, dir, ws), Seen(n, w), threads)
    ensures Moves(w1, w) && Moves(w2, w)
    ensures w.visits <= w0.visits + WorkspacePlan(n, Seen(n, w), ws, apps, threads)
  {
    var dir, v := WorkspaceDir(n, ws), Seen(n, w);
    MovesOn(w3, w4, w);
    MovesOn(w2, w3, w);
    MovesOn(w1, w2, w);
    ThingsLast(n, dir, ws, apps, threads);
    AppPlansGrow(n, dir, ws);
    RowsStageLasts(n, w0, w1, w, AutomationsHere(dir), AutomationPlans(dir), KINDS);
    FilesStageLasts(n, w1, w2, w, dir, ws.id);
    RowsStageLasts(n, w3, w4, w, AppsHere(n, dir, ws), AppPlans(n, dir, ws), apps);
    var files := FilesPlan(v, FileBase(dir), FileListing(dir)) + ProjectsPlan(n, v, dir, ws.id);
    TwoStages(n, w1, w2, w3, files, files, multiset{Walk(Walker(ws.id, None))});
    FourStages(w0.visits, w1.visits, w3.visits, w4.visits, w.visits, SumOver(AutomationPlans(dir), v, KINDS),
               FilesAndObjectsPlan(n, v, dir, ws.id),
               SumOver(AppPlans(n, dir, ws), v, apps), SumOver(ThreadPlans(n, dir, ws), v, threads));
  }

  /** And what it leaves done. */
  lemma WorkspaceVisited(n: Scheme, w0: World, w1: World, w2: World, w3: World, w4: World, w: World,
                         ws: Row, apps: seq<Row>, threads: seq<Row>)
    requires var dir := WorkspaceDir(n, ws);
             && RowsStage(n, w0, w1, AutomationsHere(dir), AutomationPlans(dir), KINDS) && Moves(w1, w)
             && FilesStage(n, w1, w2, dir, ws.id) && Moves(w2, w)
             && RowsStage(n, w3, w4, AppsHere(n, dir, ws), AppPlans(n, dir, ws), apps) && Moves(w4, w)
             && RowsStage(n, w4, w, ThreadsHere(n, dir, ws), ThreadPlans(n, dir, ws), threads)
    requires Seen(n, w).walk(Walker(ws.id, None))
    ensures Reliable(w) ==> WorkspaceHolds(n, Seen(n, w), ws, apps, threads)
  {
    var dir := WorkspaceDir(n, ws);
    ThingsLast(n, dir, ws, apps, threads);
    AppPlansGrow(n, dir, ws);
    RowsStageLasts(n, w0, w1, w, AutomationsHere(dir), AutomationPlans(dir), KINDS);
    FilesStageLasts(n, w1, w2, w, dir, ws.id);
    RowsStageLasts(n, w3, w4, w, AppsHere(n, dir, ws), AppPlans(n, dir, ws), apps);
    if Reliable(w) { WorkspaceIsThere(n, Seen(n, w), ws, apps, threads); }
  }

  lemma FourStages(a: multiset<Visit>, b: multiset<Visit>, c: multiset<Visit>, d: multiset<Visit>, e: multiset<Visit>,
                   p: multiset<Visit>, q: multiset<Visit>, r: multiset<Visit>, s: multiset<Visit>)
    requires b <= a + p && c <= b + q && d <= c + r && e <= d + s
    ensures e <= a + (p + q + r + s)
  {
    forall x ensures e[x] <= (a + (p + q + r + s))[x] {
      assert b[x] <= (a + p)[x] && c[x] <= (b + q)[x] && d[x] <= (c + r)[x] && e[x] <= (d + s)[x];
    }
  }

  lemma WorkspaceIsThere(n: Scheme, v: View, ws: Row, apps: seq<Row>, threads: seq<Row>)
    requires var dir := WorkspaceDir(n, ws);
             && (forall kind | kind in KINDS :: AutomationsHere(dir)(v, kind))
             && FilesHold(v, FileBase(dir), FileListing(dir)) && ProjectsHold(n, v, dir, ws.id)
             && v.walk(Walker(ws.id, None)) && (forall app | app in apps :: AppsHere(n, dir, ws)(v, app))
             && (forall thread | thread in threads :: ThreadsHere(n, dir, ws)(v, thread))
    ensures WorkspaceHolds(n, v, ws, apps, threads)
  {
    var dir := WorkspaceDir(n, ws);
    forall kind | kind in KINDS ensures AutomationHolds(v, dir, kind) { assert AutomationsHere(dir)(v, kind); }
    forall app | app in apps ensures AppHolds(n, v, dir, ws, app) { assert AppsHere(n, dir, ws)(v, app); }
    forall thread | thread in threads
      ensures ThreadHolds(n, v, dir, ws, thread)
    {
      assert ThreadsHere(n, dir, ws)(v, thread);
    }
  }

  /** A throw leaves a plan's later parts unused. */
  lemma WorkspaceCutShort(n: Scheme, w0: World, w1: World, w: World, ws: Row, apps: seq<Row>, threads: seq<Row>)
    requires var dir, v := WorkspaceDir(n, ws), Seen(n, w);
             && Moves(w1, w) && w1.visits <= w0.visits + SumOver(AutomationPlans(dir), Seen(n, w1), KINDS)
             && w.visits <= w1.visits + (FilesPlan(v, FileBase(dir), FileListing(dir)) + ProjectsPlan(n, v, dir, ws.id))
    ensures w.visits <= w0.visits + WorkspacePlan(n, Seen(n, w), ws, apps, threads)
  {
    var dir, v := WorkspaceDir(n, ws), Seen(n, w);
    SeenGrows(n, w1, w);
    AppPlansGrow(n, dir, ws);
    SumOverGrows(AutomationPlans(dir), Seen(n, w1), v, KINDS, KINDS);
    FourStages(w0.visits, w1.visits, w.visits, w.visits, w.visits, SumOver(AutomationPlans(dir), v, KINDS),
               FilesAndObjectsPlan(n, v, dir, ws.id),
               SumOver(AppPlans(n, dir, ws), v, apps), SumOver(ThreadPlans(n, dir, ws), v, threads));
  }

  method WorkspaceBelongings(w: ExportWriter, ws: Row, apps: seq<Row>, threads: seq<Row>, concurrency: nat)
    returns (threw: bool, ghost w3: World, ghost w4: World)
    requires Ready(w) && concurrency >= 1
    modifies w
    ensures Ready(w) && Goes(w.bases, old(w.Now()), w.Now())
    ensures Moves(old(w.Now()), w3) && w3.visits <= old(w.visits) + multiset{Walk(Walker(ws.id, None))}
    ensures Seen(w.names, w.Now()).walk(Walker(ws.id, None))
    ensures var dir := WorkspaceDir(w.names, ws);
            && RowsStage(w.names, w3, w4, AppsHere(w.names, dir, ws), AppPlans(w.names, dir, ws), apps)
            && Moves(w4, w.Now())
            && w.visits <= w4.visits + SumOver(ThreadPlans(w.names, dir, ws), Seen(w.names, w.Now()), threads)
            && (!threw ==>
                 RowsStage(w.names, w4, w.Now(), ThreadsHere(w.names, dir, ws), ThreadPlans(w.names, dir, ws), threads))
  {
    ghost var w0 := w.Now();
    var dir := WorkspaceDir(w.names, ws);
    WorkspaceNames(w.names, ws);
    ghost var scope := R2Walk(w, Walker(ws.id, None), concurrency);
    w3 := w.Now();
    Apps(w, dir, ws, apps);
    w4 := w.Now();
    GoesOn(w.bases, w0, w3, w4);
    threw := Threads(w, dir, ws, threads, concurrency);
    GoesOn(w.bases, w0, w4, w.Now());
  }

  lemma OnlyAutomations(n: Scheme, w0: World, w: World, ws: Row, apps: seq<Row>, threads: seq<Row>)
    requires w.visits <= w0.visits + SumOver(AutomationPlans(WorkspaceDir(n, ws)), Seen(n, w), KINDS)
    ensures w.visits <= w0.visits + WorkspacePlan(n, Seen(n, w), ws, apps, threads)
  {
    var dir, v := WorkspaceDir(n, ws), Seen(n, w);
    FourStages(w0.visits, w.visits, w.visits, w.visits, w.visits, SumOver(AutomationPlans(dir), v, KINDS),
               FilesAndObjectsPlan(n, v, dir, ws.id),
               SumOver(AppPlans(n, dir, ws), v, apps), SumOver(ThreadPlans(n, dir, ws), v, threads));
  }

  method Workspace(w: ExportWriter, ws: Row, apps: seq<Row>, threads: seq<Row>, concurrency: nat) returns (threw: bool)
    requires Ready(w) && concurrency >= 1
    modifies w
    ensures Stage(w, old(w.Now()), WorkspacePlan(w.names, Seen(w.names, w.Now()), ws, apps, threads))
    ensures !threw && Reliable(w.Now()) ==> WorkspaceHolds(w.names, Seen(w.names, w.Now()), ws, apps, threads)
  {
    ghost var w0 := w.Now();
    var dir := WorkspaceDir(w.names, ws);
    WorkspaceNames(w.names, ws);
    threw := Automations(w, dir);
    ghost var w1 := w.Now();
    if threw {
      OnlyAutomations(w.names, w0, w1, ws, apps, threads);
      return;
    }
    threw := WorkspaceFiles(w, dir, ws.id, concurrency);
    ghost var w2 := w.Now();
    GoesOn(w.bases, w0, w1, w2);
    if threw {
      WorkspaceCutShort(w.names, w0, w1, w2, ws, apps, threads);
      return;
    }
    ghost var w3, w4;
    threw, w3, w4 := WorkspaceBelongings(w, ws, apps, threads, concurrency);
    ghost var w5 := w.Now();
    GoesOn(w.bases, w0, w2, w5);
    WorkspaceNamed(w.names, w0, w1, w2, w3, w4, w5, ws, apps, threads);
    if !threw { WorkspaceVisited(w.names, w0, w1, w2, w3, w4, w5, ws, apps, threads); }
  }

  method NextWorkspace(w: ExportWriter, ghost w0: World, workspaces: seq<Row>, apps: seq<Row>, threads: seq<Row>,
                       i: nat, concurrency: nat) returns (threw: bool)
    requires Ready(w) && concurrency >= 1 && Goes(w.bases, w0, w.Now()) && i < |workspaces|
    requires DoneSoFar(w.names, w0, w.Now(), WorkspacesHere(w.names, apps, threads),
                       WorkspacePlans(w.names, apps, threads), workspaces, i)
    modifies w
    ensures Stage(w, w0, SumOver(WorkspacePlans(w.names, apps, threads), Seen(w.names, w.Now()), workspaces))
    ensures !threw ==> DoneSoFar(w.names, w0, w.Now(), WorkspacesHere(w.names, apps, threads),
                                 WorkspacePlans(w.names, apps, threads), workspaces, i + 1)
  {
    ghost var w1 := w.Now();
    ThingsLast(w.names, [], NO_ROW, apps, threads);
    WorkspacePlansGrow(w.names, apps, threads);
    threw := Workspace(w, workspaces[i], apps, threads, concurrency);
    GoesOn(w.bases, w0, w1, w.Now());
    OneMore(w.names, w0, w1, w.Now(), WorkspacesHere(w.names, apps, threads), WorkspacePlans(w.names, apps, threads),
            workspaces, i, threw);
  }

  method Workspaces(w: ExportWriter, workspaces: seq<Row>, apps: seq<Row>, threads: seq<Row>, concurrency: nat)
    returns (threw: bool)
    requires Ready(w) && concurrency >= 1
    modifies w
    ensures Stage(w, old(w.Now()), SumOver(WorkspacePlans(w.names, apps, threads), Seen(w.names, w.Now()), workspaces))
    ensures !threw && Reliable(w.Now()) ==>
              forall ws | ws in workspaces :: WorkspacesHere(w.names, apps, threads)(Seen(w.names, w.Now()), ws)
  {
    ghost var w0 := w.Now();
    ghost var holds, plan := WorkspacesHere(w.names, apps, threads), WorkspacePlans(w.names, apps, threads);
    NothingDone(w.names, w0, holds, plan, workspaces);
    for i := 0 to |workspaces|
      invariant Ready(w) && Goes(w.bases, w0, w.Now()) && DoneSoFar(w.names, w0, w.Now(), holds, plan, workspaces, i)
    {
      threw := NextWorkspace(w, w0, workspaces, apps, threads, i, concurrency);
      if threw { return; }
    }
    AllDone(w.names, w0, w.Now(), holds, plan, workspaces);
    return false;
  }

  // ---- the whole walk ----

  function SettingsHere(): (View, Text) -> bool {
    (v: View, key: Text) => key != RECORD_SETS ==> v.item(SettingFile(key), key)
  }

  method Setting(w: ExportWriter, key: Text)
    requires Ready(w)
    modifies w
    ensures Stage(w, old(w.Now()), SettingPlan(key)) && SettingsHere()(Seen(w.names, w.Now()), key)
  {
    if key != RECORD_SETS {
      OwnInOrg(key + Lit(".json"));
      var k: nat := Ask();
      var isList: bool := Ask();
      LeafItem(w, SettingFile(key), key, false, if isList then Listing(w.server.rows(k, SettingFile(key))) else Data);
    }
  }

  lemma SettingsLast(n: Scheme)
    ensures Lasting(SettingsHere()) && Growing(SettingPlans())
    ensures Lasting(RecordSetsHere(n)) && Growing(RecordSetPlans(n))
  {
    forall v, v', key | Refines(v, v') && SettingsHere()(v, key) ensures SettingsHere()(v', key) {
      assert v.item(SettingFile(key), key) ==> v'.item(SettingFile(key), key);
    }
    forall v, v', s | Refines(v, v') && RecordSetsHere(n)(v, s) ensures RecordSetsHere(n)(v', s) {
      assert v.listing(RecordSetFile(n, s)) ==> v'.listing(RecordSetFile(n, s));
    }
  }

  method SettingItems(w: ExportWriter, keys: seq<Text>)
    requires Ready(w)
    modifies w
    ensures Stage(w, old(w.Now()), SumOver(SettingPlans(), Seen(w.names, w.Now()), keys))
    ensures Reliable(w.Now()) ==> forall key | key in keys :: SettingsHere()(Seen(w.names, w.Now()), key)
  {
    ghost var w0 := w.Now();
    ghost var holds, plan := SettingsHere(), SettingPlans();
    SettingsLast(w.names);
    NothingDone(w.names, w0, holds, plan, keys);
    for i := 0 to |keys|
      invariant Ready(w) && Goes(w.bases, w0, w.Now()) && DoneSoFar(w.names, w0, w.Now(), holds, plan, keys, i)
    {
      ghost var w1 := w.Now();
      Setting(w, keys[i]);
      GoesOn(w.bases, w0, w1, w.Now());
      OneMore(w.names, w0, w1, w.Now(), holds, plan, keys, i, false);
    }
    AllDone(w.names, w0, w.Now(), holds, plan, keys);
  }

  function RecordSetsHere(n: Scheme): (View, Text) -> bool {
    (v: View, recordSet: Text) => v.listing(RecordSetFile(n, recordSet))
  }

  method RecordSet(w: ExportWriter, recordSet: Text) returns (r: Fetched<seq<Row>>)
    requires Ready(w)
    modifies w
    ensures Stage(w, old(w.Now()), RecordSetPlans(w.names)(Seen(w.names, w.Now()), recordSet))
    ensures !r.Throws? && Reliable(w.Now()) ==> RecordSetsHere(w.names)(Seen(w.names, w.Now()), recordSet)
    ensures r.Got? && Reliable(w.Now()) ==> r.value == Seen(w.names, w.Now()).rows(RecordSetFile(w.names, recordSet))
    ensures r.Absent? ==> !Reliable(w.Now())
    ensures r.Got? && RecordSetFile(w.names, recordSet) != AUTOMATION_INDEX ==>
              r.value == Seen(w.names, w.Now()).rows(RecordSetFile(w.names, recordSet))
  {
    OwnInOrg(w.names.portable(recordSet + Lit(".json")));
    r := CachedListing(w, RecordSetFile(w.names, recordSet));
  }

  /** The rows the walk holds of each set are those of the archive, unless they could not be read. */
  ghost predicate SetsTell(n: Scheme, w: World, sets: map<Text, seq<Row>>) {
    && (Reliable(w) ==> forall s | s in sets :: sets[s] == Seen(n, w).rows(RecordSetFile(n, s)))
    && (forall s | s in sets && RecordSetFile(n, s) != AUTOMATION_INDEX ::
          AllOrNone(sets[s], Seen(n, w).rows(RecordSetFile(n, s))))
  }

  lemma SetsStillTell(n: Scheme, w: World, w': World, sets: map<Text, seq<Row>>)
    requires SetsTell(n, w, sets) && Moves(w, w')
    requires Reliable(w) ==> forall s | s in sets :: Seen(n, w).listing(RecordSetFile(n, s))
    ensures SetsTell(n, w', sets)
  {
    SeenGrows(n, w, w');
    if Reliable(w') { ReliableBefore(w, w'); }
  }

  /** The sets of the first so many record sets. */
  ghost predicate SetsSoFar(n: Scheme, w: World, recordSets: seq<Text>, i: nat, sets: map<Text, seq<Row>>) {
    i <= |recordSets| && sets.Keys == Texts(recordSets[..i]) && SetsTell(n, w, sets)
  }

  lemma OneSetMore(n: Scheme, w1: World, w: World, recordSets: seq<Text>, i: nat, sets: map<Text, seq<Row>>,
                   rows: seq<Row>)
    requires SetsSoFar(n, w1, recordSets, i, sets) && i < |recordSets| && Moves(w1, w)
    requires Reliable(w1) ==> forall s | s in sets :: Seen(n, w1).listing(RecordSetFile(n, s))
    requires Reliable(w) ==> rows == Seen(n, w).rows(RecordSetFile(n, recordSets[i]))
    requires RecordSetFile(n, recordSets[i]) != AUTOMATION_INDEX ==>
               AllOrNone(rows, Seen(n, w).rows(RecordSetFile(n, recordSets[i])))
    ensures SetsSoFar(n, w, recordSets, i + 1, sets[recordSets[i] := rows])
  {
    SetsStillTell(n, w1, w, sets);
    SetsTellMore(n, w, sets, recordSets[i], rows);
    KeysOneMore(recordSets[..i], recordSets[i], sets, rows);
    assert recordSets[..i + 1] == recordSets[..i] + [recordSets[i]];
  }

  function Texts(texts: seq<Text>): set<Text> { set s | s in texts }

  lemma KeysOneMore(front: seq<Text>, next: Text, sets: map<Text, seq<Row>>, rows: seq<Row>)
    requires sets.Keys == Texts(front)
    ensures sets[next := rows].Keys == Texts(front + [next])
  {
  }

  lemma SetsTellMore(n: Scheme, w: World, sets: map<Text, seq<Row>>, s: Text, rows: seq<Row>)
    requires SetsTell(n, w, sets)
    requires Reliable(w) ==> rows == Seen(n, w).rows(RecordSetFile(n, s))
    requires RecordSetFile(n, s) != AUTOMATION_INDEX ==> AllOrNone(rows, Seen(n, w).rows(RecordSetFile(n, s)))
    ensures SetsTell(n, w, sets[s := rows])
  {
  }

  method NextRecordSet(w: ExportWriter, ghost w0: World, recordSets: seq<Text>, i: nat, sets: map<Text, seq<Row>>)
    returns (threw: bool, sets': map<Text, seq<Row>>)
    requires Ready(w) && Goes(w.bases, w0, w.Now()) && i < |recordSets|
    requires DoneSoFar(w.names, w0, w.Now(), RecordSetsHere(w.names), RecordSetPlans(w.names), recordSets, i)
    requires SetsSoFar(w.names, w.Now(), recordSets, i, sets)
    modifies w
    ensures Stage(w, w0, SumOver(RecordSetPlans(w.names), Seen(w.names, w.Now()), recordSets))
    ensures !threw ==>
              && DoneSoFar(w.names, w0, w.Now(), RecordSetsHere(w.names), RecordSetPlans(w.names), recordSets, i + 1)
              && SetsSoFar(w.names, w.Now(), recordSets, i + 1, sets')
  {
    ghost var w1 := w.Now();
    SettingsLast(w.names);
    var r := RecordSet(w, recordSets[i]);
    GoesOn(w.bases, w0, w1, w.Now());
    OneMore(w.names, w0, w1, w.Now(), RecordSetsHere(w.names), RecordSetPlans(w.names), recordSets, i, r.Throws?);
    if r.Throws? { return true, sets; }
    var rows := if r.Got? then r.value else [];
    SetsListed(w.names, w1, recordSets, i, sets);
    OneSetMore(w.names, w1, w.Now(), recordSets, i, sets, rows);
    return false, sets[recordSets[i] := rows];
  }

  /** The record sets, and what the walk holds of each. */
  method RecordSets(w: ExportWriter, recordSets: seq<Text>) returns (threw: bool, sets: map<Text, seq<Row>>)
    requires Ready(w)
    modifies w
    ensures Stage(w, old(w.Now()), SumOver(RecordSetPlans(w.names), Seen(w.names, w.Now()), recordSets))
    ensures !threw && Reliable(w.Now()) ==>
              forall s | s in recordSets :: RecordSetsHere(w.names)(Seen(w.names, w.Now()), s)
    ensures !threw ==> SetsSoFar(w.names, w.Now(), recordSets, |recordSets|, sets)
  {
    ghost var w0 := w.Now();
    sets := map[];
    NothingDone(w.names, w0, RecordSetsHere(w.names), RecordSetPlans(w.names), recordSets);
    for i := 0 to |recordSets|
      invariant Ready(w) && Goes(w.bases, w0, w.Now())
      invariant DoneSoFar(w.names, w0, w.Now(), RecordSetsHere(w.names), RecordSetPlans(w.names), recordSets, i)
      invariant SetsSoFar(w.names, w.Now(), recordSets, i, sets)
    {
      threw, sets := NextRecordSet(w, w0, recordSets, i, sets);
      if threw { return; }
    }
    AllDone(w.names, w0, w.Now(), RecordSetsHere(w.names), RecordSetPlans(w.names), recordSets);
    return false, sets;
  }

  lemma SetsListed(n: Scheme, w: World, recordSets: seq<Text>, i: nat, sets: map<Text, seq<Row>>)
    requires i <= |recordSets| && sets.Keys == Texts(recordSets[..i])
    requires Reliable(w) ==> FirstHold(RecordSetsHere(n), Seen(n, w), recordSets, i)
    ensures Reliable(w) ==> forall s | s in sets :: Seen(n, w).listing(RecordSetFile(n, s))
  {
    if Reliable(w) {
      forall s | s in sets ensures Seen(n, w).listing(RecordSetFile(n, s)) {
        assert s in recordSets[..i];
        var k :| 0 <= k < i && recordSets[k] == s;
        assert RecordSetsHere(n)(Seen(n, w), recordSets[k]);
      }
    }
  }

  function SetOf(sets: map<Text, seq<Row>>, recordSet: Text): seq<Row> {
    if recordSet in sets then sets[recordSet] else []
  }

  // ---- the walk after the settings ----

  /** No record set takes the place of the automation index. */
  predicate SetsApart(n: Scheme, m: Manifest) {
    forall s | s in m.recordSets :: RecordSetFile(n, s) != AUTOMATION_INDEX
  }

  lemma ThreadListingIsItself()
    ensures ListingId(THREAD_LISTING)
  {
    OwnInOrg(Lit("threads.json"));
    assert |THREAD_LISTING| != |AUTOMATION_INDEX|;
  }

  lemma SetsGive(n: Scheme, w: World, m: Manifest, sets: map<Text, seq<Row>>, recordSet: Text)
    requires sets.Keys == Texts(m.recordSets) && SetsTell(n, w, sets)
    ensures Reliable(w) ==> SetOf(sets, recordSet) == RecordRows(n, Seen(n, w), m, recordSet)
    ensures SetsApart(n, m) ==> AllOrNone(SetOf(sets, recordSet), RecordRows(n, Seen(n, w), m, recordSet))
  {
  }

  function AllWorkspacesPlan(n: Scheme, v: View, m: Manifest): multiset<Visit> {
    SumOver(WorkspacePlans(n, RecordRows(n, v, m, APP_SET), v.rows(THREAD_LISTING)), v,
            RecordRows(n, v, m, WORKSPACE_SET))
  }

  /** The walk's workspaces, found by what it read, are those of the archive. */
  lemma WorkspacesPlanned(n: Scheme, w: World, m: Manifest, sets: map<Text, seq<Row>>, threads: seq<Row>)
    requires sets.Keys == Texts(m.recordSets) && SetsTell(n, w, sets) && SetsApart(n, m)
    requires AllOrNone(threads, Seen(n, w).rows(THREAD_LISTING))
    ensures SumOver(WorkspacePlans(n, SetOf(sets, APP_SET), threads), Seen(n, w), SetOf(sets, WORKSPACE_SET))
         <= AllWorkspacesPlan(n, Seen(n, w), m)
  {
    var v := Seen(n, w);
    SetsGive(n, w, m, sets, APP_SET);
    SetsGive(n, w, m, sets, WORKSPACE_SET);
    WorkspacesPlanGrows(n, v, v, SetOf(sets, WORKSPACE_SET), RecordRows(n, v, m, WORKSPACE_SET),
                        SetOf(sets, APP_SET), RecordRows(n, v, m, APP_SET), threads, v.rows(THREAD_LISTING));
  }

  /** The names of the walk up to some stage are among those of its plan. */
  lemma StagesNamed(n: Scheme, w0: World, w1: World, w2: World, w3: World, w: World, m: Manifest, last: multiset<Visit>)
    requires Moves(w1, w) && Moves(w2, w)
    requires w1.visits <= w0.visits + SumOver(SettingPlans(), Seen(n, w1), m.keys)
    requires w2.visits <= w1.visits + SumOver(RecordSetPlans(n), Seen(n, w2), m.recordSets)
    requires w3.visits <= w2.visits + multiset{List(THREAD_LISTING)} && w.visits <= w3.visits + last
    requires last <= AllWorkspacesPlan(n, Seen(n, w), m)
    ensures w.visits <= w0.visits + Plan(n, Seen(n, w), m)
  {
    var v := Seen(n, w);
    SeenGrows(n, w1, w);
    SeenGrows(n, w2, w);
    SettingsLast(n);
    SumOverGrows(SettingPlans(), Seen(n, w1), v, m.keys, m.keys);
    SumOverGrows(RecordSetPlans(n), Seen(n, w2), v, m.recordSets, m.recordSets);
    FourStages(w0.visits, w1.visits, w2.visits, w3.visits, w.visits, SumOver(SettingPlans(), v, m.keys),
               SumOver(RecordSetPlans(n), v, m.recordSets), multiset{List(THREAD_LISTING)}, AllWorkspacesPlan(n, v, m));
  }

  /** What the stages did is done at the end. */
  lemma StagesDone(n: Scheme, w1: World, w2: World, w3: World, w: World, m: Manifest, sets: map<Text, seq<Row>>,
                   threads: seq<Row>)
    requires Moves(w1, w) && Moves(w2, w) && Moves(w3, w) && Reliable(w)
    requires forall key | key in m.keys :: SettingsHere()(Seen(n, w1), key)
    requires forall s | s in m.recordSets :: RecordSetsHere(n)(Seen(n, w2), s)
    requires Seen(n, w3).listing(THREAD_LISTING) && threads == Seen(n, w3).rows(THREAD_LISTING)
    requires SetOf(sets, WORKSPACE_SET) == RecordRows(n, Seen(n, w), m, WORKSPACE_SET)
    requires SetOf(sets, APP_SET) == RecordRows(n, Seen(n, w), m, APP_SET)
    requires forall ws | ws in SetOf(sets, WORKSPACE_SET) ::
               WorkspacesHere(n, SetOf(sets, APP_SET), threads)(Seen(n, w), ws)
    ensures StagesHold(n, Seen(n, w), m) && threads == Seen(n, w).rows(THREAD_LISTING)
  {
    SeenGrows(n, w1, w);
    SeenGrows(n, w2, w);
    SeenGrows(n, w3, w);
    SettingsLast(n);
    forall key | key in m.keys && key != RECORD_SETS ensures Seen(n, w).item(SettingFile(key), key) {
      assert SettingsHere()(Seen(n, w1), key);
    }
    forall s | s in m.recordSets ensures Seen(n, w).listing(RecordSetFile(n, s)) {
      assert RecordSetsHere(n)(Seen(n, w2), s);
    }
    forall ws | ws in RecordRows(n, Seen(n, w), m, WORKSPACE_SET)
      ensures WorkspaceHolds(n, Seen(n, w), ws, RecordRows(n, Seen(n, w), m, APP_SET), threads)
    {
      assert WorkspacesHere(n, SetOf(sets, APP_SET), threads)(Seen(n, w), ws);
    }
  }

  /** What the walk knows after its stages. */
  ghost predicate Walked(n: Scheme, w: World, m: Manifest, workspaces: seq<Row>, threads: seq<Row>) {
    && StagesHold(n, Seen(n, w), m) && threads == Seen(n, w).rows(THREAD_LISTING)
    && workspaces == RecordRows(n, Seen(n, w), m, WORKSPACE_SET)
  }

  /** The stages up to the workspaces, by what each has added. */
  ghost predicate Prepared(n: Scheme, w0: World, w1: World, w2: World, w3: World, m: Manifest,
                           sets: map<Text, seq<Row>>, threads: seq<Row>) {
    && RowsStage(n, w0, w1, SettingsHere(), SettingPlans(), m.keys)
    && RowsStage(n, w1, w2, RecordSetsHere(n), RecordSetPlans(n), m.recordSets)
    && Moves(w2, w3) && w3.visits <= w2.visits + multiset{List(THREAD_LISTING)}
    && sets.Keys == Texts(m.recordSets) && SetsTell(n, w2, sets)
    && AllOrNone(threads, Seen(n, w3).rows(THREAD_LISTING))
    && (Reliable(w3) ==> Seen(n, w3).listing(THREAD_LISTING) && threads == Seen(n, w3).rows(THREAD_LISTING))
  }

  /** Settings and record sets. */
  method PrepareSets(w: ExportWriter, m: Manifest) returns (threw: bool, sets: map<Text, seq<Row>>, ghost w1: World)
    requires Ready(w)
    modifies w
    ensures Ready(w) && Goes(w.bases, old(w.Now()), w.Now())
    ensures RowsStage(w.names, old(w.Now()), w1, SettingsHere(), SettingPlans(), m.keys) && Moves(w1, w.Now())
    ensures w.visits <= w1.visits + SumOver(RecordSetPlans(w.names), Seen(w.names, w.Now()), m.recordSets)
    ensures !threw ==> RowsStage(w.names, w1, w.Now(), RecordSetsHere(w.names), RecordSetPlans(w.names), m.recordSets)
    ensures !threw ==> sets.Keys == Texts(m.recordSets) && SetsTell(w.names, w.Now(), sets)
  {
    ghost var w0 := w.Now();
    SettingItems(w, m.keys);
    w1 := w.Now();
    threw, sets := RecordSets(w, m.recordSets);
    GoesOn(w.bases, w0, w1, w.Now());
    if !threw { SetsWhole(w.names, w.Now(), m, sets); }
  }

  lemma MovesNowhere(w: World)
    ensures Moves(w, w)
  {
  }

  lemma PreparedSoFar(n: Scheme, w0: World, w1: World, w2: World, w3: World, m: Manifest)
    requires Moves(w1, w2) && Moves(w2, w3) && w3.visits <= w2.visits + multiset{List(THREAD_LISTING)}
    requires w1.visits <= w0.visits + SumOver(SettingPlans(), Seen(n, w1), m.keys)
    requires w2.visits <= w1.visits + SumOver(RecordSetPlans(n), Seen(n, w2), m.recordSets)
    ensures w3.visits <= w0.visits + Plan(n, Seen(n, w3), m)
  {
    MovesOn(w1, w2, w3);
    StagesNamed(n, w0, w1, w2, w3, w3, m, multiset{});
  }

  /** The list of threads. */
  method ThreadRows(w: ExportWriter) returns (threw: bool, threads: seq<Row>)
    requires Ready(w)
    modifies w
    ensures Stage(w, old(w.Now()), multiset{List(THREAD_LISTING)})
    ensures !threw ==> AllOrNone(threads, Seen(w.names, w.Now()).rows(THREAD_LISTING))
    ensures !threw && Reliable(w.Now()) ==>
              Seen(w.names, w.Now()).listing(THREAD_LISTING) && threads == Seen(w.names, w.Now()).rows(THREAD_LISTING)
  {
    ThreadListingIsItself();
    var listing := CachedListing(w, THREAD_LISTING);
    return listing.Throws?, if listing.Got? then listing.value else [];
  }

  /** Settings, record sets and the list of threads. */
  method Prepare(w: ExportWriter, m: Manifest)
    returns (threw: bool, sets: map<Text, seq<Row>>, threads: seq<Row>, ghost w1: World, ghost w2: World)
    requires Ready(w)
    modifies w
    ensures Ready(w) && Goes(w.bases, old(w.Now()), w.Now())
    ensures w.visits <= old(w.visits) + Plan(w.names, Seen(w.names, w.Now()), m)
    ensures !threw ==> Prepared(w.names, old(w.Now()), w1, w2, w.Now(), m, sets, threads)
  {
    ghost var w0 := w.Now();
    threads := [];
    threw, sets, w1 := PrepareSets(w, m);
    w2 := w.Now();
    if threw {
      MovesNowhere(w2);
      PreparedSoFar(w.names, w0, w1, w2, w2, m);
      return;
    }
    threw, threads := ThreadRows(w);
    ghost var w3 := w.Now();
    GoesOn(w.bases, w0, w2, w3);
    PreparedSoFar(w.names, w0, w1, w2, w3, m);
  }

  lemma SetsWhole(n: Scheme, w: World, m: Manifest, sets: map<Text, seq<Row>>)
    requires SetsSoFar(n, w, m.recordSets, |m.recordSets|, sets)
    ensures sets.Keys == Texts(m.recordSets)
  {
    assert m.recordSets[..|m.recordSets|] == m.recordSets;
  }

  lemma PreparedNamed(n: Scheme, w0: World, w1: World, w2: World, w3: World, w: World, m: Manifest,
                      sets: map<Text, seq<Row>>, threads: seq<Row>)
    requires Prepared(n, w0, w1, w2, w3, m, sets, threads) && Moves(w3, w) && SetsApart(n, m)
    requires Reliable(w2) ==> forall s | s in sets :: Seen(n, w2).listing(RecordSetFile(n, s))
    requires w.visits <= w3.visits
               + SumOver(WorkspacePlans(n, SetOf(sets, APP_SET), threads), Seen(n, w), SetOf(sets, WORKSPACE_SET))
    ensures w.visits <= w0.visits + Plan(n, Seen(n, w), m)
  {
    MovesOn(w2, w3, w);
    MovesOn(w1, w2, w);
    SeenGrows(n, w3, w);
    SetsStillTell(n, w2, w, sets);
    WorkspacesPlanned(n, w, m, sets, threads);
    StagesNamed(n, w0, w1, w2, w3, w, m,
                SumOver(WorkspacePlans(n, SetOf(sets, APP_SET), threads), Seen(n, w), SetOf(sets, WORKSPACE_SET)));
  }

  lemma PreparedDone(n: Scheme, w0: World, w1: World, w2: World, w3: World, w: World, m: Manifest,
                     sets: map<Text, seq<Row>>, threads: seq<Row>)
    requires Prepared(n, w0, w1, w2, w3, m, sets, threads) && Moves(w3, w) && Reliable(w)
    requires Reliable(w2) ==> forall s | s in sets :: Seen(n, w2).listing(RecordSetFile(n, s))
    requires forall ws | ws in SetOf(sets, WORKSPACE_SET) ::
               WorkspacesHere(n, SetOf(sets, APP_SET), threads)(Seen(n, w), ws)
    ensures Walked(n, w, m, SetOf(sets, WORKSPACE_SET), threads)
  {
    MovesOn(w2, w3, w);
    MovesOn(w1, w2, w);
    ReliableBefore(w3, w);
    ReliableBefore(w2, w);
    ReliableBefore(w1, w);
    SetsStillTell(n, w2, w, sets);
    SetsGive(n, w, m, sets, APP_SET);
    SetsGive(n, w, m, sets, WORKSPACE_SET);
    StagesDone(n, w1, w2, w3, w, m, sets, threads);
  }

  lemma SetsAreListed(n: Scheme, w1: World, w2: World, m: Manifest, sets: map<Text, seq<Row>>)
    requires RowsStage(n, w1, w2, RecordSetsHere(n), RecordSetPlans(n), m.recordSets)
    requires sets.Keys == Texts(m.recordSets)
    ensures Reliable(w2) ==> forall s | s in sets :: Seen(n, w2).listing(RecordSetFile(n, s))
  {
    if Reliable(w2) {
      forall s | s in sets
        ensures Seen(n, w2).listing(RecordSetFile(n, s))
      {
        assert RecordSetsHere(n)(Seen(n, w2), s);
      }
    }
  }

  /** The walk between the settings and the automation index. True is a throw. */
  method WalkStages(w: ExportWriter, m: Manifest, concurrency: nat)
    returns (threw: bool, workspaces: seq<Row>, threads: seq<Row>)
    requires Ready(w) && concurrency >= 1
    modifies w
    ensures Ready(w) && Goes(w.bases, old(w.Now()), w.Now())
    ensures SetsApart(w.names, m) ==> w.visits <= old(w.visits) + Plan(w.names, Seen(w.names, w.Now()), m)
    ensures !threw && Reliable(w.Now()) ==> Walked(w.names, w.Now(), m, workspaces, threads)
  {
    ghost var w0 := w.Now();
    ghost var w1, w2;
    var sets: map<Text, seq<Row>>;
    threw, sets, threads, w1, w2 := Prepare(w, m);
    ghost var w3 := w.Now();
    workspaces := SetOf(sets, WORKSPACE_SET);
    if threw { return; }
    SetsAreListed(w.names, w1, w2, m, sets);
    threw := Workspaces(w, workspaces, SetOf(sets, APP_SET), threads, concurrency);
    ghost var w4 := w.Now();
    GoesOn(w.bases, w0, w3, w4);
    if SetsApart(w.names, m) { PreparedNamed(w.names, w0, w1, w2, w3, w4, m, sets, threads); }
    if !threw && Reliable(w4) { PreparedDone(w.names, w0, w1, w2, w3, w4, m, sets, threads); }
  }

  // ---- the end of the walk ----

  /** The warnings of threads that no workspace walk can have reached. */
  function StrayIds(workspaces: seq<Row>, threads: seq<Row>): set<Text> {
    set thread | thread in threads && !HasWorkspace(workspaces, thread) :: THREAD_NOTE + thread.id
  }

  const MISSING := Lit("Thread workspace is missing from exported workspace records")

  /** Stray threads leave a warning each, and nothing else does. */
  method WarnOfStrayThreads(w: ExportWriter, workspaces: seq<Row>, threads: seq<Row>)
    modifies w`warnings
    ensures w.warnings.Keys == old(w.warnings.Keys) + StrayIds(workspaces, threads)
    ensures forall id :: id in w.warnings <==>
              id in old(w.warnings) || exists thread :: thread in threads && id == Lit("thread:") + thread.id
                                         && forall ws | ws in workspaces :: ws.id != thread.workspace
  {
    for i := 0 to |threads|
      invariant w.warnings.Keys == old(w.warnings.Keys) + StrayIds(workspaces, threads[..i])
    {
      StrayOneMore(workspaces, threads, i);
      if !HasWorkspace(workspaces, threads[i]) {
        w.warnings := w.warnings[THREAD_NOTE + threads[i].id := MISSING];
      }
    }
    assert threads[..|threads|] == threads;
  }

  lemma StrayOneMore(workspaces: seq<Row>, threads: seq<Row>, i: nat)
    requires i < |threads|
    ensures StrayIds(workspaces, threads[..i + 1]) == StrayIds(workspaces, threads[..i])
         + if HasWorkspace(workspaces, threads[i]) then {} else {THREAD_NOTE + threads[i].id}
  {
    assert threads[..i + 1] == threads[..i] + [threads[i]];
  }

  /** `org/automations.json`, which is written outside any item. True is a throw. */
  method WriteAutomationIndex(w: ExportWriter) returns (threw: bool)
    modifies w`files
    ensures w.files == old(w.files) || IndexWritten(old(w.files), w.files)
    ensures !threw ==> IndexWritten(old(w.files), w.files)
  {
    var written: bool := Ask();
    var index: seq<Row> := Ask();
    threw := Ask();
    if written || !threw { w.files := w.files[AUTOMATION_INDEX := Listing(index)]; }
  }

  /** A file holding a list took the place of whatever was there. */
  predicate IndexWritten(before: map<Text, Content>, after: map<Text, Content>) {
    AUTOMATION_INDEX in after && after[AUTOMATION_INDEX].Listing?
    && after == before[AUTOMATION_INDEX := after[AUTOMATION_INDEX]]
  }

  /** From the last stage of the walk to its end, at most the automation index was written, and these
      warnings added. */
  ghost predicate Closes(core: World, w: World, added: set<Text>) {
    && w == core.(files := w.files, state := core.state.(warnings := w.state.warnings))
    && (w.files == core.files || IndexWritten(core.files, w.files))
    && w.state.warnings.Keys == core.state.warnings.Keys + added
  }

  // ---- what a complete archive holds ----

  /** Names that do not clash are asked for once, and what could not be read then is still warned of. */
  lemma WellNamedIsReliable(n: Scheme, bases: set<Text>, w: World, plan: multiset<Visit>)
    requires Within(w) && Tracked(w) && w.state.warnings == map[]
    requires w.visits <= plan && WellNamed(bases, plan)
    ensures Reliable(w)
  {
    WellNamedParts(bases, w.visits, plan);
    OwnInOrg(Lit("automations.json"));
  }

  /** Without warnings, all that was started is done. */
  lemma StartedIsDone(n: Scheme, bases: set<Text>, core: World, w: World)
    requires UsableScheme(n) && BasesFit(n, bases) && Sane(n, bases, core) && core.flying == {} && Known(bases, core)
    requires Closes(core, w, {}) && w.state.warnings == map[] && Reliable(core) && WellNamed(bases, core.visits)
    ensures Refines(Seen(n, core), Held(n, w))
  {
    var v, v' := Seen(n, core), Held(n, w);
    forall id | v.listing(id) ensures v'.listing(id) && v'.rows(id) == v.rows(id) { ListingIsDone(core, w, id); }
    forall id, of | v.item(id, of) ensures v'.item(id, of) { OwnItemIsDone(n, bases, core, w, id, of); }
    forall who | v.walk(who) ensures v'.walk(who) { ObjectWalkIsDone(n, bases, core, w, who); }
    forall o | v.content(o) ensures v'.content(o) { ContentIsDone(n, bases, core, w, o); }
  }

  lemma ListingIsDone(core: World, w: World, id: Text)
    requires Closes(core, w, {}) && ListingId(id) && id in core.reached && Readable(core, id)
    ensures ItemDone(w, id) && Readable(w, id) && RowsAt(w, id) == RowsAt(core, id)
  {
  }

  lemma OwnItemIsDone(n: Scheme, bases: set<Text>, core: World, w: World, id: Text, of: Text)
    requires Sane(n, bases, core) && core.flying == {} && Closes(core, w, {}) && w.state.warnings == map[]
    requires OwnId(id) && id in core.reached && Leaf(id, of) in core.visits && WellNamed(bases, core.visits)
    ensures OwnDone(w, id, of)
  {
    KindsOfIdsDiffer(id);
    assert Skippable(core, id);
    if id in core.written { assert Leaf(id, core.written[id]) in core.visits; }
  }

  lemma ObjectWalkIsDone(n: Scheme, bases: set<Text>, core: World, w: World, who: Walker)
    requires Sane(n, bases, core) && Closes(core, w, {}) && w.state.warnings == map[]
    requires WalkId(who) in core.reached && Walk(who) in core.visits && WellNamed(bases, core.visits)
    ensures WalkDone(w, who)
  {
    WalkIds(who);
    assert core.state.warnings.Keys == {};
    assert WalkId(who) !in core.state.warnings;
  }

  lemma ContentIsDone(n: Scheme, bases: set<Text>, core: World, w: World, o: Origin)
    requires UsableScheme(n) && BasesFit(n, bases) && Sane(n, bases, core) && core.flying == {} && Known(bases, core)
    requires Closes(core, w, {}) && w.state.warnings == map[]
    requires UsedBase(core, o.base) && ContentReached(n, core, o)
    ensures ContentDone(n, w, o)
  {
    assert o.base in bases;
    var path := PathOf(n, core.state.claims, o).value;
    CustomerPathIsCustomerId(n, core.state.claims, o, path);
    KindsOfIdsDiffer(path);
    AssignedIsUnder(n, bases, core.state.claims, o, path);
    assert Skippable(core, path);
    assert path in core.state.finished[path].outputs;
    assert JobClaimed(n, bases, core.state, Job(core.files[path].origin, path));
    assert FoldsOnto(n, path, path);
    OneFilePerPath(n, core.state.claims, bases, core.files[path].origin, o, path, path);
    OwnInOrg(Lit("automations.json"));
    KindsOfIdsDiffer(AUTOMATION_INDEX);
  }

  lemma ClosingGrows(n: Scheme, core: World, w: World)
    requires Closes(core, w, {})
    ensures Grows(Seen(n, core), Seen(n, w))
  {
    forall id | ListingId(id) && Readable(core, id) ensures Readable(w, id) && w.files[id] == core.files[id] {
    }
    forall base | UsedBase(core, base) ensures UsedBase(w, base) {
    }
  }

  /** A walk that ended without warnings, and whose names do not clash, has left nothing out. */
  lemma NothingLeftOut(n: Scheme, bases: set<Text>, core: World, w: World, m: Manifest, plan: multiset<Visit>)
    requires UsableScheme(n) && BasesFit(n, bases) && Sane(n, bases, core) && core.flying == {}
    requires Closes(core, w, {}) && w.state.warnings == map[]
    requires core.visits <= plan && WellNamed(bases, plan)
    requires Reliable(core) ==> ArchiveHolds(n, Seen(n, core), m)
    ensures ArchiveComplete(n, w, m)
  {
    WellNamedParts(bases, core.visits, plan);
    WellNamedIsReliable(n, bases, core, plan);
    StartedIsDone(n, bases, core, w);
    ArchiveStays(n, Seen(n, core), Held(n, w), m);
    forall page | page in w.listed ensures ContentsHold(Held(n, w), R2_BASE, page) {
      ContentsStay(Seen(n, core), Held(n, w), R2_BASE, page);
    }
  }

  // ---- whole runs ----

  predicate HoldsSettings(w: World, manifest: Option<Manifest>) {
    SETTINGS in w.files && w.files[SETTINGS] == Settings(manifest)
  }

  /** How the walk ended: without settings, with settings that hold no manifest, or through all of
      a manifest's stages, with these warnings of stray threads. */
  datatype Course = NoSettings | NoManifest | Through(m: Manifest, strays: set<Text>)

  /** All the walk visits in an archive with these listings. */
  function WalkPlan(n: Scheme, v: View, m: Manifest): multiset<Visit> { multiset{Leaf(SETTINGS, [])} + Plan(n, v, m) }

  ghost predicate WalkTold(n: Scheme, w0: World, core: World, w: World, course: Course) {
    match course
    case NoSettings => SETTINGS in core.state.warnings && Closes(core, w, {})
    case NoManifest => Closes(core, w, {}) && HoldsSettings(core, None) && core.reached == w0.reached + {SETTINGS}
    case Through(m, strays) =>
      && Closes(core, w, strays) && HoldsSettings(core, Some(m)) && (forall id | id in strays :: THREAD_NOTE <= id)
      && (SetsApart(n, m) ==> core.visits <= w0.visits + WalkPlan(n, Seen(n, core), m))
      && (Reliable(core) ==>
            && StagesHold(n, Seen(n, core), m)
            && strays == StrayIds(RecordRows(n, Seen(n, core), m, WORKSPACE_SET), Seen(n, core).rows(THREAD_LISTING)))
  }

  lemma SettingsStay(w: World, w': World, m: Manifest)
    requires Moves(w, w') && Skippable(w, SETTINGS) && HoldsSettings(w, Some(m))
    ensures HoldsSettings(w', Some(m))
  {
    OwnInOrg(Lit("settings.json"));
  }

  /** What the walk after the settings tells. */
  ghost predicate StagesTold(n: Scheme, w0: World, core: World, w: World, m: Manifest, strays: set<Text>) {
    && Closes(core, w, strays) && HoldsSettings(core, Some(m)) && (forall id | id in strays :: THREAD_NOTE <= id)
    && (SetsApart(n, m) ==> core.visits <= w0.visits + Plan(n, Seen(n, core), m))
    && (Reliable(core) ==>
          && StagesHold(n, Seen(n, core), m)
          && strays == StrayIds(RecordRows(n, Seen(n, core), m, WORKSPACE_SET), Seen(n, core).rows(THREAD_LISTING)))
  }

  /** `walkExport` after the settings. True is a throw. */
  method WalkManifest(w: ExportWriter, m: Manifest, concurrency: nat)
    returns (threw: bool, ghost core: World, ghost strays: set<Text>)
    requires Ready(w) && concurrency >= 1 && Skippable(w.Now(), SETTINGS) && HoldsSettings(w.Now(), Some(m))
    modifies w
    ensures Sane(w.names, w.bases, core) && core.flying == {} && Goes(w.bases, old(w.Now()), core)
    ensures if threw then Closes(core, w.Now(), {}) else StagesTold(w.names, old(w.Now()), core, w.Now(), m, strays)
  {
    ghost var w0 := w.Now();
    var workspaces, threads;
    threw, workspaces, threads := WalkStages(w, m, concurrency);
    core, strays := w.Now(), StrayIds(workspaces, threads);
    if threw { return; }
    SettingsStay(w0, core, m);
    threw := CloseArchive(w, workspaces, threads);
    if !threw { StagesAreTold(w.names, w0, core, w.Now(), m, workspaces, threads); }
  }

  /** The end of `walkExport`: the automation index, and a warning of each stray thread. */
  method CloseArchive(w: ExportWriter, workspaces: seq<Row>, threads: seq<Row>) returns (threw: bool)
    modifies w`files, w`warnings
    ensures Closes(old(w.Now()), w.Now(), if threw then {} else StrayIds(workspaces, threads))
  {
    threw := WriteAutomationIndex(w);
    if threw { return; }
    WarnOfStrayThreads(w, workspaces, threads);
  }

  lemma StagesAreTold(n: Scheme, w0: World, core: World, w: World, m: Manifest, workspaces: seq<Row>, threads: seq<Row>)
    requires SetsApart(n, m) ==> core.visits <= w0.visits + Plan(n, Seen(n, core), m)
    requires Reliable(core) ==> Walked(n, core, m, workspaces, threads)
    requires Closes(core, w, StrayIds(workspaces, threads)) && HoldsSettings(core, Some(m))
    ensures StagesTold(n, w0, core, w, m, StrayIds(workspaces, threads))
  {
  }

  lemma WalkedThrough(n: Scheme, w0: World, w1: World, core: World, w: World, m: Manifest, strays: set<Text>)
    requires StagesTold(n, w1, core, w, m, strays) && w1.visits == w0.visits + multiset{Leaf(SETTINGS, [])}
    ensures WalkTold(n, w0, core, w, Through(m, strays))
  {
    if SetsApart(n, m) {
      FourStages(w0.visits, w1.visits, core.visits, core.visits, core.visits, multiset{Leaf(SETTINGS, [])},
                 Plan(n, Seen(n, core), m), multiset{}, multiset{});
      assert multiset{Leaf(SETTINGS, [])} + Plan(n, Seen(n, core), m) + multiset{} + multiset{}
               == WalkPlan(n, Seen(n, core), m);
    }
  }

  /** `walkExport`. True is a throw. */
  method WalkExport(w: ExportWriter, concurrency: nat) returns (threw: bool, ghost core: World, ghost course: Course)
    requires Ready(w) && concurrency >= 1
    modifies w
    ensures Sane(w.names, w.bases, core) && core.flying == {} && Goes(w.bases, old(w.Now()), core)
    ensures if threw then Closes(core, w.Now(), {}) else WalkTold(w.names, old(w.Now()), core, w.Now(), course)
  {
    ghost var w0 := w.Now();
    var settings := CachedSettings(w);
    ghost var w1 := w.Now();
    core, course := w1, NoSettings;
    if !settings.Got? { return settings.Throws?, core, course; }
    if settings.value.None? { return false, core, NoManifest; }
    ghost var strays;
    threw, core, strays := WalkManifest(w, settings.value.value, concurrency);
    GoesOn(w.bases, w0, w1, core);
    course := Through(settings.value.value, strays);
    if !threw { WalkedThrough(w.names, w0, w1, core, w.Now(), settings.value.value, strays); }
  }

  lemma {:induction false} SumHas<T>(f: T -> multiset<Visit>, things: seq<T>, thing: T)
    requires thing in things
    ensures f(thing) <= Sum(f, things)
    decreases |things|
  {
    if thing == things[|things| - 1] {
    } else {
      SumHas(f, things[..|things| - 1], thing);
    }
  }

  lemma WellNamedSetsAreApart(n: Scheme, bases: set<Text>, v: View, m: Manifest)
    requires WellNamed(bases, WalkPlan(n, v, m))
    ensures SetsApart(n, m)
  {
    forall s | s in m.recordSets ensures RecordSetFile(n, s) != AUTOMATION_INDEX {
      SetIsPlanned(n, v, m, s);
    }
  }

  lemma SetIsPlanned(n: Scheme, v: View, m: Manifest, s: Text)
    requires s in m.recordSets
    ensures List(RecordSetFile(n, s)) in WalkPlan(n, v, m)
  {
    SumOverHas(RecordSetPlans(n), v, m.recordSets, s);
    assert multiset{List(RecordSetFile(n, s))} <= SumOver(RecordSetPlans(n), v, m.recordSets);
  }

  lemma SumOverHas<T>(plan: (View, T) -> multiset<Visit>, v: View, things: seq<T>, thing: T)
    requires thing in things
    ensures plan(v, thing) <= SumOver(plan, v, things)
  {
    SumHas(thing => plan(v, thing), things, thing);
  }

  /** The archive is complete as far as the settings it holds tell, provided its names do not clash;
      if they hold no manifest, nothing else was looked at. */
  ghost predicate Accounted(n: Scheme, bases: set<Text>, w: World) {
    || (HoldsSettings(w, None) && w.reached == {SETTINGS})
    || exists m ::
         HoldsSettings(w, Some(m)) && (WellNamed(bases, WalkPlan(n, Seen(n, w), m)) ==> ArchiveComplete(n, w, m))
  }

  lemma ThroughIsAccounted(n: Scheme, bases: set<Text>, w0: World, core: World, w: World, m: Manifest,
                           strays: set<Text>)
    requires UsableScheme(n) && BasesFit(n, bases) && Sane(n, bases, core) && core.flying == {}
    requires w0.visits == multiset{}
    requires WalkTold(n, w0, core, w, Through(m, strays)) && w.state.warnings == map[]
    ensures Accounted(n, bases, w)
  {
    assert |SETTINGS| != |AUTOMATION_INDEX|;
    assert HoldsSettings(w, Some(m));
    assert strays == {};
    assert core.state.warnings.Keys == {};
    assert Closes(core, w, {});
    if WellNamed(bases, WalkPlan(n, Seen(n, w), m)) {
      WellNamedSetsAreApart(n, bases, Seen(n, w), m);
      ClosingGrows(n, core, w);
      PlanGrows(n, Seen(n, core), Seen(n, w), m);
      assert core.visits <= WalkPlan(n, Seen(n, w), m);
      if Reliable(core) { NoStraysNoMissing(n, core, m); }
      NothingLeftOut(n, bases, core, w, m, WalkPlan(n, Seen(n, w), m));
    }
  }

  lemma NoStraysNoMissing(n: Scheme, w: World, m: Manifest)
    requires StagesHold(n, Seen(n, w), m)
    requires StrayIds(RecordRows(n, Seen(n, w), m, WORKSPACE_SET), Seen(n, w).rows(THREAD_LISTING)) == {}
    ensures ArchiveHolds(n, Seen(n, w), m)
  {
    var workspaces, threads := RecordRows(n, Seen(n, w), m, WORKSPACE_SET), Seen(n, w).rows(THREAD_LISTING);
    forall thread | thread in threads ensures HasWorkspace(workspaces, thread) {
      assert !HasWorkspace(workspaces, thread) ==> THREAD_NOTE + thread.id in StrayIds(workspaces, threads);
    }
  }

  /** The warnings there are when the walk is over: old ones of ids not started, those of actions that
      threw last, and those of walks over objects that were blocked. */
  lemma CoreWarnings(n: Scheme, bases: set<Text>, w: World, core: World)
    requires Sane(n, bases, core) && core.flying == {} && core.torn == {} && Moves(w, core)
    ensures core.state.warnings.Keys == (w.state.warnings.Keys - core.reached) + core.lacking + core.blocked
  {
    forall id ensures id in core.state.warnings.Keys <==>
        id in (w.state.warnings.Keys - core.reached) + core.lacking + core.blocked
    {
      if id in core.reached { assert id !in core.torn && id !in core.flying; }
    }
  }

  /** The start of a run: the warning of an earlier run's walk is deleted. */
  function AtStart(w: World): World { w.(state := w.state.(warnings := w.state.warnings - {WALK})) }

  lemma StartIsSane(n: Scheme, bases: set<Text>, w: World)
    requires Sane(n, bases, w) && w.reached == {} && w.flying == {}
    ensures Sane(n, bases, AtStart(w))
  {
    var w' := AtStart(w);
    StartIsKept(w);
    forall page | page in w'.listed ensures ContentsHold(Seen(n, w'), R2_BASE, page) {
      assert ContentsHold(Seen(n, w), R2_BASE, page);
    }
  }

  lemma StartIsKept(w: World)
    requires Kept(w) && w.reached == {}
    ensures Kept(AtStart(w))
  {
    assert w.blocked == w.lacking == {} && w.answers == map[];
  }

  function StraysOf(threw: bool, course: Course): set<Text> {
    if !threw && course.Through? then course.strays else {}
  }

  /** The ids a run warns of at its end, if no item is torn. */
  function ToldIds(before: set<Text>, w: World, threw: bool, course: Course): set<Text> {
    (before - w.reached - {WALK}) + w.lacking + w.blocked + StraysOf(threw, course) + (if threw then {WALK} else {})
  }

  /** What a run tells. */
  ghost predicate RunTold(n: Scheme, bases: set<Text>, before: World, w: World, complete: bool, threw: bool,
                          course: Course) {
    && complete == (w.state.warnings == map[])
    && (complete ==> Accounted(n, bases, w))
    && (w.torn == before.torn || !TidyRun(bases, w))
    && (w.torn == {} ==> w.state.warnings.Keys == ToldIds(before.state.warnings.Keys, w, threw, course))
    && BooksTold(before, w) && WalksToldOf(before, w) && ObjectsAsked(n, w) && ServerTold(before, w)
  }

  /** Every list in the archive but the automation index, and the settings, are as they were when the run began
      or as the server answered; so are the answers to its walks over objects. */
  ghost predicate ServerTold(before: World, w: World) {
    && w.server == before.server
    && (forall id | id in w.files && id != AUTOMATION_INDEX ::
          (id in before.files && w.files[id] == before.files[id]) || Told(before.server, id, w.files[id]))
    && (forall asked | asked in w.scopes :: ScopeTold(before.server, asked))
    && (forall id | id in w.answers :: ScopeTold(before.server, w.answers[id]))
  }

  lemma ServerIsTold(before: World, core: World, w: World)
    requires Moves(AtStart(before), core) && before.scopes == [] && before.answers == map[]
    requires w == core.(files := w.files, state := core.state.(warnings := w.state.warnings))
    requires w.files == core.files || IndexWritten(core.files, w.files)
    ensures ServerTold(before, w)
  {
  }

  /** What a run tells of its items: none is finished and warned of, none is a note, old notes on threads stay,
      and no walk over objects is blocked if no object's warning was there and none failed. */
  ghost predicate BooksTold(before: World, w: World) {
    && w.lacking <= w.faults && w.lacking <= w.reached && w.blocked <= w.reached
    && (NoObjectWarning(before) && NoObjectFault(w) ==> w.blocked == {})
    && (forall id | id in w.reached :: !NoteId(id))
    && (forall id | id in before.state.warnings && THREAD_NOTE <= id :: id in w.state.warnings)
    && (forall id | id in w.state.finished && !NoteId(id) && id !in w.torn :: id !in w.state.warnings)
  }

  /** And of its walks over objects: those skip that the opened checkpoint has finished, and any other has
      listed and taken all unless it is warned of. */
  ghost predicate WalksToldOf(before: World, w: World) {
    && (forall id | ObjectWalkId(id) && id in w.reached :: id in w.skipped <==> id in before.state.finished)
    && (forall id | ObjectWalkId(id) && id in w.reached && id !in w.skipped ::
          id in w.answers && (id in w.state.warnings || ScopeWhole(w, w.answers[id])))
  }

  lemma RunTells(n: Scheme, bases: set<Text>, before: World, core: World, w1: World, w: World, complete: bool,
                 threw: bool, course: Course)
    requires UsableScheme(n) && BasesFit(n, bases) && Opened(before.server, before.state, before.files) == before
    requires Sane(n, bases, core) && core.flying == {} && Goes(bases, AtStart(before), core)
    requires if threw then Closes(core, w1, {}) else WalkTold(n, AtStart(before), core, w1, course)
    requires w == w1.(state := w1.state.(warnings := w.state.warnings))
    requires w.state.warnings.Keys == w1.state.warnings.Keys + if threw then {WALK} else {}
    requires !threw ==> w == w1
    requires complete == (w.state.warnings == map[])
    ensures RunTold(n, bases, before, w, complete, threw, course)
  {
    var w0 := AtStart(before);
    assert w.state.warnings.Keys == core.state.warnings.Keys + StraysOf(threw, course) + if threw then {WALK} else {};
    PartsAreTold(n, bases, before, core, w, StraysOf(threw, course), threw);
    if core.torn == {} { WarningsAreTold(n, bases, before, core, w, threw, course); }
    if complete { CompleteIsAccounted(n, bases, w0, core, w, threw, course); }
    if w.torn != before.torn { UntidyAlike(bases, core, w); }
  }

  lemma PartsAreTold(n: Scheme, bases: set<Text>, before: World, core: World, w: World, strays: set<Text>, threw: bool)
    requires Sane(n, bases, core) && core.flying == {} && Moves(AtStart(before), core)
    requires Opened(before.server, before.state, before.files) == before
    requires w == core.(files := w.files, state := core.state.(warnings := w.state.warnings))
    requires w.files == core.files || IndexWritten(core.files, w.files)
    requires w.state.warnings.Keys == core.state.warnings.Keys + strays + if threw then {WALK} else {}
    requires forall id | id in strays :: THREAD_NOTE <= id
    ensures BooksTold(before, w) && WalksToldOf(before, w) && ObjectsAsked(n, w) && ServerTold(before, w)
  {
    BooksAreTold(n, bases, before, core, w, strays, threw);
    WalksAreTold(n, bases, before, core, w);
    ServerIsTold(before, core, w);
  }

  lemma BooksAreTold(n: Scheme, bases: set<Text>, before: World, core: World, w: World, strays: set<Text>, threw: bool)
    requires Sane(n, bases, core) && core.flying == {} && Moves(AtStart(before), core) && before.blocked == {}
    requires w == core.(files := w.files, state := core.state.(warnings := w.state.warnings))
    requires w.state.warnings.Keys == core.state.warnings.Keys + strays + if threw then {WALK} else {}
    requires forall id | id in strays :: THREAD_NOTE <= id
    ensures BooksTold(before, w)
  {
    NotesAreLeft(n, bases, before, core);
    FinishedIsNotWarned(n, bases, core, w, strays, threw);
  }

  lemma WalksAreTold(n: Scheme, bases: set<Text>, before: World, core: World, w: World)
    requires Sane(n, bases, core) && Moves(AtStart(before), core) && before.reached == {}
    requires w == core.(files := w.files, state := core.state.(warnings := w.state.warnings))
    requires core.state.warnings.Keys <= w.state.warnings.Keys
    ensures WalksToldOf(before, w)
  {
  }

  lemma FinishedIsNotWarned(n: Scheme, bases: set<Text>, core: World, w: World, strays: set<Text>, threw: bool)
    requires Sane(n, bases, core) && w.state.finished == core.state.finished && w.torn == core.torn
    requires w.state.warnings.Keys == core.state.warnings.Keys + strays + if threw then {WALK} else {}
    requires forall id | id in strays :: THREAD_NOTE <= id
    ensures forall id | id in w.state.finished && !NoteId(id) && id !in w.torn :: id !in w.state.warnings
  {
  }

  lemma NotesAreLeft(n: Scheme, bases: set<Text>, before: World, core: World)
    requires Sane(n, bases, core) && Moves(AtStart(before), core)
    ensures forall id | id in core.reached :: !NoteId(id)
    ensures forall id | id in before.state.warnings && THREAD_NOTE <= id :: id in core.state.warnings
  {
    forall id | id in core.reached ensures !NoteId(id) { KindsOfIdsDiffer(id); }
    forall id | id in before.state.warnings && THREAD_NOTE <= id ensures id in core.state.warnings {
      Marks(id);
      assert id !in core.reached && id in AtStart(before).state.warnings;
    }
  }

  lemma WarningsAreTold(n: Scheme, bases: set<Text>, before: World, core: World, w: World, threw: bool, course: Course)
    requires Sane(n, bases, core) && core.flying == {} && core.torn == {} && Moves(AtStart(before), core)
    requires w == core.(files := w.files, state := core.state.(warnings := w.state.warnings))
    requires w.state.warnings.Keys == core.state.warnings.Keys + StraysOf(threw, course) + if threw then {WALK} else {}
    ensures w.state.warnings.Keys == ToldIds(before.state.warnings.Keys, w, threw, course)
  {
    CoreWarnings(n, bases, AtStart(before), core);
    assert AtStart(before).state.warnings.Keys - core.reached == before.state.warnings.Keys - core.reached - {WALK};
  }

  lemma UntidyAlike(bases: set<Text>, core: World, w: World)
    requires w.visits == core.visits && w.listed == core.listed
    ensures TidyRun(bases, w) == TidyRun(bases, core)
  {
  }

  lemma CompleteIsAccounted(n: Scheme, bases: set<Text>, w0: World, core: World, w: World, threw: bool, course: Course)
    requires UsableScheme(n) && BasesFit(n, bases) && Sane(n, bases, core) && core.flying == {}
    requires w0.visits == multiset{} && w0.reached == {}
    requires w.state.warnings == map[] && (threw ==> WALK in w.state.warnings)
    requires !threw ==> WalkTold(n, w0, core, w, course)
    ensures Accounted(n, bases, w)
  {
    assert course.NoSettings? ==> threw || SETTINGS in w.state.warnings.Keys;
    match course
    case NoSettings =>
    case NoManifest => assert |SETTINGS| != |AUTOMATION_INDEX|;
    case Through(m, strays) => ThroughIsAccounted(n, bases, w0, core, w, m, strays);
  }

  /** One run: the walk, the warning it leaves if it throws, and the verdict of `finishExport`. */
  method RunExport(w: ExportWriter, concurrency: nat) returns (complete: bool, ghost threw: bool, ghost course: Course)
    requires Ready(w) && concurrency >= 1 && w.Now() == Opened(w.server, w.State(), w.files)
    modifies w
    ensures RunTold(w.names, w.bases, old(w.Now()), w.Now(), complete, threw, course)
    ensures !threw && course.Through? ==>
              exists core :: WalkTold(w.names, AtStart(old(w.Now())), core, w.Now(), course)
  {
    ghost var before := w.Now();
    StartIsSane(w.names, w.bases, before);
    BeginRun(w);
    var throws;
    ghost var core;
    throws, core, course := WalkExport(w, concurrency);
    ghost var w1 := w.Now();
    complete := FinishRun(w, throws);
    threw := throws;
    RunTells(w.names, w.bases, before, core, w1, w.Now(), complete, threw, course);
  }

  method BeginRun(w: ExportWriter)
    modifies w`warnings
    ensures w.Now() == AtStart(old(w.Now()))
  {
    w.warnings := w.warnings - {WALK};
  }

  /** `finishExport`: a throw of the walk becomes a warning, and no warnings mean complete. */
  method FinishRun(w: ExportWriter, throws: bool) returns (complete: bool)
    modifies w`warnings
    ensures w.warnings.Keys == old(w.warnings.Keys) + if throws then {WALK} else {}
    ensures !throws ==> w.warnings == old(w.warnings)
    ensures complete == (w.warnings == map[])
  {
    if throws {
      var error: Text := Ask();
      w.warnings := w.warnings[WALK := error];
    }
    return w.warnings == map[];
  }

  /** So, unless an item is torn, a run is complete if and only if every old warning's item was
      started, no action threw last, no walk over objects was blocked, no thread is stray, and the
      walk did not throw. */
  lemma CompleteExactlyIf(n: Scheme, bases: set<Text>, before: World, w: World, complete: bool, threw: bool,
                          course: Course)
    requires RunTold(n, bases, before, w, complete, threw, course) && w.torn == {}
    ensures complete <==>
              && before.state.warnings.Keys <= w.reached + {WALK} && w.lacking == {} && w.blocked == {}
              && StraysOf(threw, course) == {} && !threw
  {
    assert complete <==> w.state.warnings.Keys == {};
    if before.state.warnings.Keys <= w.reached + {WALK} {
      assert before.state.warnings.Keys - w.reached - {WALK} == {};
    } else {
      var id :| id in before.state.warnings.Keys && id !in w.reached + {WALK};
      assert id in ToldIds(before.state.warnings.Keys, w, threw, course);
    }
  }

  /** A run in which nothing goes wrong leaves old warnings of items not started, and walks over
      objects that were blocked; and none was if no object's warning was there to begin with. */
  lemma FaultlessRunLeaves(n: Scheme, bases: set<Text>, before: World, w: World, complete: bool, threw: bool,
                           course: Course)
    requires RunTold(n, bases, before, w, complete, threw, course) && w.torn == {}
    requires w.faults == {} && !threw && StraysOf(threw, course) == {}
    ensures w.state.warnings.Keys == (before.state.warnings.Keys - w.reached - {WALK}) + w.blocked
    ensures NoObjectWarning(before) ==> w.blocked == {}
  {
  }

  /** Unless the opened checkpoint had the walk finished, every listing of a prefix it is for ended, and the
      archive holds every object of their pages. Those are all prefixes if it is a workspace's walk, and
      those that start with `project-fs/` if it is a project's. */
  ghost predicate ObjectsThere(n: Scheme, before: World, w: World, who: Walker) {
    var id := WalkId(who);
    && id in w.reached
    && (id !in before.state.finished ==>
          && id in w.answers && w.answers[id].who == who && w.answers[id].scope.Scoped?
          && ScopeTold(w.server, w.answers[id])
          && forall prefix | prefix in w.answers[id].scope.prefixes
                             && (who.project.Some? ==> PROJECT_PREFIX <= prefix.prefix) ::
               && prefix.listing.ended
               && forall page, key | page in prefix.listing.pages && key in page ::
                    ContentDone(n, w, Origin(R2_BASE, Segments(key))))
  }

  /** So a complete run, if no names clash, has walked the stored objects of every workspace and project of
      its listings, and all that was listed to them is there. Whatever the run comes to, no object was
      started that no such listing named. */
  lemma ObjectsAreThere(n: Scheme, bases: set<Text>, before: World, w: World, threw: bool, course: Course, m: Manifest,
                        ws: Row)
    requires RunTold(n, bases, before, w, true, threw, course) && HoldsSettings(w, Some(m))
    requires WellNamed(bases, WalkPlan(n, Seen(n, w), m)) && ws in RecordRows(n, Held(n, w), m, WORKSPACE_SET)
    ensures ObjectsThere(n, before, w, Walker(ws.id, None))
    ensures forall project | project in Held(n, w).rows(ProjectListing(WorkspaceDir(n, ws))) ::
              ObjectsThere(n, before, w, Walker(ws.id, Some(project.id)))
    ensures forall id | id in w.reached && Below(R2, id) ::
              exists asked, prefix, page, key ::
                && asked in w.scopes && asked.scope.Scoped? && prefix in asked.scope.prefixes
                && (asked.who.project.Some? ==> PROJECT_PREFIX <= prefix.prefix)
                && page in prefix.listing.pages && key in page
                && PathOf(n, w.state.claims, Origin(R2_BASE, Segments(key))) == Some(id)
  {
    CompleteIsWhole(n, bases, before, w, threw, course, m);
    WalksAreHeld(n, Held(n, w), m, ws);
    WalkIsThere(n, before, w, m, Walker(ws.id, None));
    forall project | project in Held(n, w).rows(ProjectListing(WorkspaceDir(n, ws)))
      ensures ObjectsThere(n, before, w, Walker(ws.id, Some(project.id)))
    {
      WalkIsThere(n, before, w, m, Walker(ws.id, Some(project.id)));
    }
    OnlyAskedObjects(n, w);
  }

  lemma OnlyAskedObjects(n: Scheme, w: World)
    requires ObjectsAsked(n, w)
    ensures forall id | id in w.reached && Below(R2, id) ::
              exists asked, prefix, page, key ::
                && asked in w.scopes && asked.scope.Scoped? && prefix in asked.scope.prefixes
                && (asked.who.project.Some? ==> PROJECT_PREFIX <= prefix.prefix)
                && page in prefix.listing.pages && key in page
                && PathOf(n, w.state.claims, Origin(R2_BASE, Segments(key))) == Some(id)
  {
    forall id | id in w.reached && Below(R2, id)
      ensures exists asked, prefix, page, key ::
                && asked in w.scopes && asked.scope.Scoped? && prefix in asked.scope.prefixes
                && (asked.who.project.Some? ==> PROJECT_PREFIX <= prefix.prefix)
                && page in prefix.listing.pages && key in page
                && PathOf(n, w.state.claims, Origin(R2_BASE, Segments(key))) == Some(id)
    {
      var page, key :| PageAsked(w.scopes, page) && key in page
                       && PathOf(n, w.state.claims, Origin(R2_BASE, Segments(key))) == Some(id);
      var asked, prefix :|
        && asked in w.scopes && asked.scope.Scoped? && prefix in asked.scope.prefixes
        && (asked.who.project.Some? ==> PROJECT_PREFIX <= prefix.prefix) && page in prefix.listing.pages;
    }
  }

  lemma CompleteIsWhole(n: Scheme, bases: set<Text>, before: World, w: World, threw: bool, course: Course, m: Manifest)
    requires RunTold(n, bases, before, w, true, threw, course) && HoldsSettings(w, Some(m))
    requires WellNamed(bases, WalkPlan(n, Seen(n, w), m))
    ensures ArchiveComplete(n, w, m) && w.state.warnings == map[] && WalksToldOf(before, w) && ObjectsAsked(n, w)
    ensures ServerTold(before, w)
  {
  }

  lemma WalksAreHeld(n: Scheme, v: View, m: Manifest, ws: Row)
    requires ArchiveHolds(n, v, m) && ws in RecordRows(n, v, m, WORKSPACE_SET)
    ensures v.walk(Walker(ws.id, None))
    ensures forall project | project in v.rows(ProjectListing(WorkspaceDir(n, ws))) ::
              v.walk(Walker(ws.id, Some(project.id)))
  {
    assert WorkspaceHolds(n, v, ws, RecordRows(n, v, m, APP_SET), v.rows(THREAD_LISTING));
    forall project | project in v.rows(ProjectListing(WorkspaceDir(n, ws)))
      ensures v.walk(Walker(ws.id, Some(project.id)))
    {
      assert ProjectHolds(n, v, WorkspaceDir(n, ws), ws.id, project);
    }
  }

  lemma WalkIsThere(n: Scheme, before: World, w: World, m: Manifest, who: Walker)
    requires WalksToldOf(before, w) && ServerTold(before, w) && ArchiveComplete(n, w, m) && Held(n, w).walk(who)
    ensures ObjectsThere(n, before, w, who)
  {
    WalkIds(who);
    var id := WalkId(who);
    if id !in before.state.finished { ScopeIsHeld(n, w, m, w.answers[id]); }
  }

  lemma ScopeIsHeld(n: Scheme, w: World, m: Manifest, asked: Asked)
    requires ArchiveComplete(n, w, m) && ScopeWhole(w, asked)
    ensures forall prefix, page, key | prefix in asked.scope.prefixes
                                       && (asked.who.project.Some? ==> PROJECT_PREFIX <= prefix.prefix)
                                       && page in prefix.listing.pages && key in page ::
              ContentDone(n, w, Origin(R2_BASE, Segments(key)))
  {
    forall prefix, page, key | prefix in asked.scope.prefixes
                               && (asked.who.project.Some? ==> PROJECT_PREFIX <= prefix.prefix)
                               && page in prefix.listing.pages && key in page
      ensures ContentDone(n, w, Origin(R2_BASE, Segments(key)))
    {
      assert page in w.listed && ContentsHold(Held(n, w), R2_BASE, page);
      var i :| 0 <= i < |page| && page[i] == key;
      assert Held(n, w).content(Origin(R2_BASE, Segments(page[i])));
    }
  }
}
