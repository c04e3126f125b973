/** How a run goes on: what each uninterrupted stretch of it does to the world, what no stretch
    undoes, and what holds between them. */
module Progress {
  import opened JsText
  import opened Options
  import opened PathTree
  import opened CustomerPaths
  import opened ExportStates
  import opened Layout
  import opened Writer
  import opened Archive

  // ---- what is not undone ----

  predicate Widens(w: World, w': World) {
    && w.reached <= w'.reached && w.faults <= w'.faults && w.unread <= w'.unread && w.torn <= w'.torn
    && w.visits <= w'.visits && w.answers.Keys <= w'.answers.Keys && w.scopes <= w'.scopes && w.listed <= w'.listed
    && Extends(w.state.claims, w'.state.claims)
  }

  /** A finished item stays finished with its outputs, and the export's own files stay as they are. */
  ghost predicate Preserves(w: World, w': World) {
    && (forall id | Skippable(w, id) && !ObjectWalkId(id) :: Skippable(w', id))
    && (forall id | Skippable(w, id) && OwnId(id) && id in w.files :: id in w'.files && w'.files[id] == w.files[id])
  }

  /** Warnings of items not started stay as they are. */
  ghost predicate LeavesOthers(w: World, w': World) {
    forall id | id !in w'.reached :: id in w.state.warnings <==> id in w'.state.warnings
  }

  predicate NoObjectWarning(w: World) { forall id | id in w.state.warnings :: !Below(R2, id) }

  predicate NoObjectFault(w: World) { forall id | id in w.faults :: !Below(R2, id) }

  /** With no object's warning to begin with and no object's failure, no walk over objects is
      blocked. */
  predicate KeepsObjectsQuiet(w: World, w': World) {
    NoObjectWarning(w) && NoObjectFault(w') ==> NoObjectWarning(w') && w'.blocked <= w.blocked
  }

  /** A walk over objects skips exactly if it was finished when the run came to it, and no run makes one
      finished that was not; those not come to stay as they are. */
  ghost predicate KeepsWalks(w: World, w': World) {
    && (forall id | ObjectWalkId(id) && id in w'.state.finished :: id in w.state.finished)
    && (forall id | ObjectWalkId(id) && id in w.state.finished :: id in w'.state.finished || id in w'.reached)
    && (forall id | ObjectWalkId(id) && id in w'.reached && id !in w.reached ::
          id in w'.skipped <==> id in w.state.finished)
    && (forall id | id in w.reached :: id in w'.skipped <==> id in w.skipped)
  }

  /** The server answers this file's listing, or the settings, so. */
  ghost predicate Told(server: Server, id: Text, content: Content) {
    && (content.Listing? ==> exists k :: content.rows == server.rows(k, id))
    && (content.Settings? ==> exists k :: content.manifest == server.settings(k))
  }

  ghost predicate ScopeTold(server: Server, asked: Asked) { exists k :: asked.scope == server.scope(k, asked.who) }

  /** What is new in listings and in the answers to walks over objects is the server's. */
  ghost predicate FromServer(w: World, w': World) {
    && w'.server == w.server
    && (forall id | id in w'.files ::
          (id in w.files && w'.files[id] == w.files[id]) || Told(w.server, id, w'.files[id]))
    && (forall asked | asked in w'.scopes :: asked in w.scopes || ScopeTold(w.server, asked))
    && (forall id | id in w'.answers ::
          (id in w.answers && w'.answers[id] == w.answers[id]) || ScopeTold(w.server, w'.answers[id]))
  }

  ghost predicate Moves(w: World, w': World) {
    FromServer(w, w') && Widens(w, w') && Preserves(w, w')
    && LeavesOthers(w, w') && KeepsObjectsQuiet(w, w') && KeepsWalks(w, w')
  }

  /** The customer directories used are known, and no listing or page named one file twice. */
  ghost predicate TidyRun(bases: set<Text>, w: World) {
    Tidy(bases, w.visits) && forall page | page in w.listed :: DistinctPaths(page)
  }

  /** What every stage of a run does. Only a listing that names a file twice tears an item. */
  ghost predicate Goes(bases: set<Text>, w: World, w': World) {
    Moves(w, w') && (w'.torn == w.torn || !TidyRun(bases, w'))
  }

  lemma MovesOn(w: World, w': World, w'': World)
    requires Moves(w, w') && Moves(w', w'')
    ensures Moves(w, w'')
  {
    forall id | Skippable(w, id) && OwnId(id) && id in w.files
      ensures id in w''.files && w''.files[id] == w.files[id]
    {
      KindsOfIdsDiffer(id);
      assert Skippable(w', id);
    }
  }

  lemma TidyBefore(bases: set<Text>, w: World, w': World)
    requires Widens(w, w') && TidyRun(bases, w')
    ensures TidyRun(bases, w)
  {
    forall base, paths | Dir(base, paths) in w.visits ensures base in bases && DistinctPaths(paths) {
      assert Dir(base, paths) in w'.visits;
    }
    forall page | page in w.listed ensures DistinctPaths(page) { assert page in w'.listed; }
  }

  lemma GoesOn(bases: set<Text>, w: World, w': World, w'': World)
    requires Goes(bases, w, w') && Goes(bases, w', w'')
    ensures Goes(bases, w, w'')
  {
    MovesOn(w, w', w'');
    if TidyRun(bases, w'') { TidyBefore(bases, w', w''); }
  }

  lemma SeenGrows(n: Scheme, w: World, w': World)
    requires Moves(w, w')
    ensures Grows(Seen(n, w), Seen(n, w'))
  {
    forall id | OwnId(id) && Readable(w, id) ensures Readable(w', id) && RowsAt(w', id) == RowsAt(w, id) {
      KindsOfIdsDiffer(id);
    }
    forall o | ContentReached(n, w, o) ensures ContentReached(n, w', o) {
      LookupIsStable(n, w.state.claims, w'.state.claims, o.base, o.base, o.segments);
    }
    forall base | UsedBase(w, base) ensures UsedBase(w', base) {
      if base != R2_BASE {
        var paths :| Dir(base, paths) in w.visits;
        assert Dir(base, paths) in w'.visits;
      }
    }
  }

  // ---- what holds between stretches ----

  /** The records are of this run's items. */
  ghost predicate Within(w: World) {
    && w.flying <= w.reached && w.lacking <= w.reached && w.blocked <= w.reached && w.lacking <= w.faults
    && (forall id | id in w.blocked :: ObjectWalkId(id))
    && (forall id | id in w.reached :: OwnId(id) || CustomerId(id) || ObjectWalkId(id))
    && (forall id | id in w.reached && OwnId(id) :: List(id) in w.visits || !NoLeaf(w.visits, id))
    && (forall id | id in w.written :: Leaf(id, w.written[id]) in w.visits)
  }

  /** Unless torn, no item is both finished and warned of, and a started item whose action is over
      is warned of exactly if its last action threw, or was a walk over objects that was blocked. */
  ghost predicate Booked(w: World) {
    && (forall id | id in w.state.finished && id !in w.torn :: id !in w.state.warnings)
    && (forall id | id in w.reached && id !in w.torn && id !in w.flying ::
          id in w.state.warnings <==> id in w.lacking || id in w.blocked)
    && (forall id | id in w.flying && id !in w.torn :: id !in w.state.finished)
  }

  /** A started item whose action is over is warned of, or finished with its outputs on disk. */
  ghost predicate Settled(w: World) {
    forall id | id in w.reached && id !in w.flying && !ObjectWalkId(id) :: id in w.state.warnings || Skippable(w, id)
  }

  /** A listing that could not be read is warned of, unless an item with its id was started again. */
  ghost predicate Tracked(w: World) {
    forall id | id in w.unread ::
      && OwnId(id) && List(id) in w.visits
      && (w.visits[List(id)] == 1 && NoLeaf(w.visits, id) ==> id in w.state.warnings)
  }

  /** A walk over objects has no output and is forgotten once it is over. One that was started has skipped
      or listed, and one that left no warning has listed all. */
  ghost predicate WalksTold(w: World) {
    && (forall id | ObjectWalkId(id) && id in w.state.finished ::
          w.state.finished[id].outputs == [] && id !in w.reached)
    && w.skipped <= w.reached && w.answers.Keys <= w.reached
    && (forall id | ObjectWalkId(id) && id in w.reached :: id in w.skipped || id in w.answers)
    && (forall id | id in w.answers ::
          && id == WalkId(w.answers[id].who) && Walk(w.answers[id].who) in w.visits
          && (id in w.state.warnings || ScopeWhole(w, w.answers[id])))
  }

  ghost predicate Known(bases: set<Text>, w: World) { KnownDirs(bases, w.visits) }

  /** Known customer directories hold customer files only, each at the path claimed for it. */
  ghost predicate Sound(n: Scheme, bases: set<Text>, w: World) {
    && (forall path | path in w.files && Under(bases, path) ::
          w.files[path].CustomerFile? && JobClaimed(n, bases, w.state, Job(w.files[path].origin, path)))
    && (forall id | id in w.state.finished && Under(bases, id) :: w.state.finished[id].outputs == [id])
  }

  /** The objects listed have been started. */
  ghost predicate ListedReached(n: Scheme, w: World) {
    forall page | page in w.listed :: ContentsHold(Seen(n, w), R2_BASE, page)
  }

  /** A walk over objects was answered this page, for a prefix it is for. */
  ghost predicate PageAsked(scopes: seq<Asked>, page: seq<Text>) {
    exists asked, prefix ::
      && asked in scopes && asked.scope.Scoped? && prefix in asked.scope.prefixes
      && (asked.who.project.Some? ==> PROJECT_PREFIX <= prefix.prefix) && page in prefix.listing.pages
  }

  /** Such a page names the object. */
  ghost predicate ObjectAsked(n: Scheme, claims: Claims, scopes: seq<Asked>, id: Text) {
    exists page, key ::
      PageAsked(scopes, page) && key in page && PathOf(n, claims, Origin(R2_BASE, Segments(key))) == Some(id)
  }

  /** An object is started only if such a page names it. */
  ghost predicate ObjectsAsked(n: Scheme, w: World) {
    forall id | id in w.reached && Below(R2, id) :: ObjectAsked(n, w.state.claims, w.scopes, id)
  }

  /** The bookkeeping. */
  ghost predicate Kept(w: World) { Within(w) && Booked(w) && Settled(w) && Tracked(w) && WalksTold(w) }

  ghost predicate Sane(n: Scheme, bases: set<Text>, w: World) {
    Kept(w) && (Known(bases, w) ==> Sound(n, bases, w)) && ListedReached(n, w) && ObjectsAsked(n, w)
  }

  /** The customer directories, told apart by their names up to folding. */
  ghost predicate BasesFit(n: Scheme, bases: set<Text>) {
    BasesApart(n, bases) && R2_BASE in bases && forall base | base in bases :: CustomerDir(base)
  }

  lemma OwnIsNotUnder(n: Scheme, bases: set<Text>, id: Text)
    requires BasesFit(n, bases) && OwnId(id)
    ensures !Under(bases, id)
  {
    if Under(bases, id) {
      var base :| base in bases && base + [SLASH] <= id;
      UnderIsInside(base, id);
    }
  }

  lemma PageStaysAsked(scopes: seq<Asked>, scopes': seq<Asked>, page: seq<Text>)
    requires PageAsked(scopes, page) && scopes <= scopes'
    ensures PageAsked(scopes', page)
  {
    var asked, prefix :|
      && asked in scopes && asked.scope.Scoped? && prefix in asked.scope.prefixes
      && (asked.who.project.Some? ==> PROJECT_PREFIX <= prefix.prefix) && page in prefix.listing.pages;
    assert asked in scopes';
  }

  lemma ObjectStaysAsked(n: Scheme, w: World, w': World, id: Text)
    requires ObjectAsked(n, w.state.claims, w.scopes, id)
    requires Extends(w.state.claims, w'.state.claims) && w.scopes <= w'.scopes
    ensures ObjectAsked(n, w'.state.claims, w'.scopes, id)
  {
    var page, key :| PageAsked(w.scopes, page) && key in page
                     && PathOf(n, w.state.claims, Origin(R2_BASE, Segments(key))) == Some(id);
    PageStaysAsked(w.scopes, w'.scopes, page);
    LookupIsStable(n, w.state.claims, w'.state.claims, R2_BASE, R2_BASE, Segments(key));
  }

  /** The objects newly started were asked for. */
  ghost predicate NewObjectsAsked(n: Scheme, w: World, w': World) {
    forall id | id in w'.reached && id !in w.reached && Below(R2, id) :: ObjectAsked(n, w.state.claims, w.scopes, id)
  }

  lemma ObjectsStayAsked(n: Scheme, w: World, w': World)
    requires ObjectsAsked(n, w) && Moves(w, w') && NewObjectsAsked(n, w, w')
    ensures ObjectsAsked(n, w')
  {
    forall id | id in w'.reached && Below(R2, id) ensures ObjectAsked(n, w'.state.claims, w'.scopes, id) {
      ObjectStaysAsked(n, w, w', id);
    }
  }

  /** What was listed has been started, and what was started was asked for. */
  lemma ListedStays(n: Scheme, w: World, w': World)
    requires ListedReached(n, w) && ObjectsAsked(n, w) && Moves(w, w') && w'.listed == w.listed
    requires NewObjectsAsked(n, w, w')
    ensures ListedReached(n, w') && ObjectsAsked(n, w')
  {
    ObjectsStayAsked(n, w, w');
    SeenGrows(n, w, w');
    forall page | page in w'.listed ensures ContentsHold(Seen(n, w'), R2_BASE, page) {
      ContentsStay(Seen(n, w), Seen(n, w'), R2_BASE, page);
    }
  }

  lemma KnownBefore(bases: set<Text>, w: World, w': World)
    requires Widens(w, w') && Known(bases, w')
    ensures Known(bases, w)
  {
    forall base, paths | Dir(base, paths) in w.visits ensures base in bases { assert Dir(base, paths) in w'.visits; }
  }

  // ---- items of the export's own ----

  /** How an item went. */
  datatype How = Skipped | Stored(count: int) | Empty(count: int) | Lacking(error: Text, written: bool)

  predicate VisitOf(visit: Visit, id: Text) { (visit.Leaf? || visit.List?) && visit.id == id }

  /** For what the items with these ids succeeded, after one more did. */
  function Written(written: map<Text, Text>, visit: Visit): map<Text, Text>
  {
    match visit
    case Leaf(id, of) => written[id := of]
    case List(id) => written - {id}
    case _ => written
  }

  /** The world after an item whose one output, if it has any, is `content` at its own id. */
  function ItemWorld(w: World, id: Text, visit: Visit, content: Content, how: How): World {
    var entered := w.(reached := w.reached + {id}, visits := w.visits + multiset{visit});
    var st := Started(w.state, id);
    match how
    case Skipped => entered
    case Stored(count) =>
      entered.(files := w.files[id := content], state := Succeeded(st, id, Record([id], count)),
               lacking := w.lacking - {id}, written := Written(w.written, visit))
    case Empty(count) =>
      entered.(state := Succeeded(st, id, Record([], count)), lacking := w.lacking - {id},
               written := Written(w.written, visit))
    case Lacking(error, written) =>
      entered.(files := if written then w.files[id := content] else w.files, state := Failed(st, id, error),
               lacking := w.lacking + {id}, faults := w.faults + {id},
               unread := if visit.List? then w.unread + {id} else w.unread)
  }

  lemma ItemMoves(bases: set<Text>, w: World, id: Text, visit: Visit, content: Content, how: How)
    requires OwnId(id) && VisitOf(visit, id) && (how.Skipped? <==> Skippable(w, id)) && Told(w.server, id, content)
    ensures Goes(bases, w, ItemWorld(w, id, visit, content, how))
  {
    VisitsGrow(w, visit);
    KindsOfIdsDiffer(id);
  }

  lemma ItemBooked(w: World, id: Text, visit: Visit, content: Content, how: How)
    requires OwnId(id) && VisitOf(visit, id) && (how.Skipped? <==> Skippable(w, id)) && w.flying == {}
    requires Within(w) && Booked(w) && Settled(w)
    ensures var w' := ItemWorld(w, id, visit, content, how); Within(w') && Booked(w') && Settled(w')
  {
    KindsOfIdsDiffer(id);
    ItemWithin(w, id, visit, content, how);
  }

  lemma ItemWithin(w: World, id: Text, visit: Visit, content: Content, how: How)
    requires OwnId(id) && VisitOf(visit, id) && Within(w)
    ensures Within(ItemWorld(w, id, visit, content, how))
  {
    VisitsGrow(w, visit);
    assert visit in w.visits + multiset{visit};
  }

  lemma ItemWalksTold(w: World, id: Text, visit: Visit, content: Content, how: How)
    requires OwnId(id) && VisitOf(visit, id) && WalksTold(w)
    ensures WalksTold(ItemWorld(w, id, visit, content, how))
  {
    KindsOfIdsDiffer(id);
  }

  lemma VisitsGrow(w: World, visit: Visit)
    ensures forall v :: v in w.visits + multiset{visit} <==> v in w.visits || v == visit
    ensures forall id | !NoLeaf(w.visits, id) :: !NoLeaf(w.visits + multiset{visit}, id)
    ensures forall id | NoLeaf(w.visits + multiset{visit}, id) :: NoLeaf(w.visits, id)
  {
  }

  lemma ItemTracked(w: World, id: Text, visit: Visit, content: Content, how: How)
    requires OwnId(id) && VisitOf(visit, id) && Tracked(w)
    ensures Tracked(ItemWorld(w, id, visit, content, how))
  {
    VisitsGrow(w, visit);
    assert visit in w.visits + multiset{visit};
  }

  lemma ItemSound(n: Scheme, bases: set<Text>, w: World, id: Text, visit: Visit, content: Content, how: How)
    requires BasesFit(n, bases) && OwnId(id) && VisitOf(visit, id) && (Known(bases, w) ==> Sound(n, bases, w))
    ensures var w' := ItemWorld(w, id, visit, content, how); Known(bases, w') ==> Sound(n, bases, w')
  {
    OwnIsNotUnder(n, bases, id);
    var w' := ItemWorld(w, id, visit, content, how);
    if Known(bases, w') {
      forall base, paths | Dir(base, paths) in w.visits ensures base in bases { assert Dir(base, paths) in w'.visits; }
    }
  }

  lemma ItemSane(n: Scheme, bases: set<Text>, w: World, id: Text, visit: Visit, content: Content, how: How)
    requires BasesFit(n, bases) && Sane(n, bases, w) && w.flying == {}
    requires OwnId(id) && VisitOf(visit, id) && (how.Skipped? <==> Skippable(w, id)) && Told(w.server, id, content)
    ensures Sane(n, bases, ItemWorld(w, id, visit, content, how))
  {
    ItemMoves(bases, w, id, visit, content, how);
    ItemBooked(w, id, visit, content, how);
    ItemTracked(w, id, visit, content, how);
    ItemWalksTold(w, id, visit, content, how);
    ItemSound(n, bases, w, id, visit, content, how);
    KindsOfIdsDiffer(id);
    ListedStays(n, w, ItemWorld(w, id, visit, content, how));
  }

  /** An item that did not fail is finished with its outputs on disk. */
  lemma ItemEnds(w: World, id: Text, visit: Visit, content: Content, how: How)
    requires VisitOf(visit, id) && (how.Skipped? <==> Skippable(w, id))
    ensures var w' := ItemWorld(w, id, visit, content, how);
            && id in w'.reached && (id in w'.state.finished <==> !how.Lacking?) && (!how.Lacking? ==> Skippable(w', id))
            && w'.visits == w.visits + multiset{visit}
            && w'.unread == (if how.Lacking? && visit.List? then w.unread + {id} else w.unread)
  {
  }

  // ---- names ----

  /** The world after claiming a listing's names; a listing in a file is visited as a directory. */
  function ClaimedWorld(n: Scheme, w: World, base: Text, paths: seq<Text>, visited: bool): World {
    w.(state := ClaimAll(n, w.state, base, paths).state,
       visits := if visited then w.visits + multiset{Dir(base, paths)} else w.visits)
  }

  lemma SoundStays(n: Scheme, bases: set<Text>, w: World, w': World)
    requires Sound(n, bases, w) && Extends(w.state.claims, w'.state.claims)
    requires w'.files == w.files && w'.state.finished == w.state.finished
    ensures Sound(n, bases, w')
  {
    forall path | path in w'.files && Under(bases, path)
      ensures JobClaimed(n, bases, w'.state, Job(w'.files[path].origin, path))
    {
      AssignedIsStable(n, w.state.claims, w'.state.claims, w.files[path].origin, path);
    }
  }

  lemma ClaimsMove(n: Scheme, bases: set<Text>, w: World, base: Text, paths: seq<Text>, visited: bool)
    ensures Goes(bases, w, ClaimedWorld(n, w, base, paths, visited))
  {
    ClaimAllAssigns(n, {base}, w.state, base, paths);
  }

  lemma ClaimsKept(n: Scheme, w: World, base: Text, paths: seq<Text>, visited: bool)
    requires Kept(w)
    ensures Kept(ClaimedWorld(n, w, base, paths, visited))
  {
    if visited { VisitsGrow(w, Dir(base, paths)); }
  }

  lemma ClaimsSane(n: Scheme, bases: set<Text>, w: World, base: Text, paths: seq<Text>, visited: bool)
    requires Sane(n, bases, w)
    ensures Sane(n, bases, ClaimedWorld(n, w, base, paths, visited))
  {
    var w' := ClaimedWorld(n, w, base, paths, visited);
    ClaimsMove(n, bases, w, base, paths, visited);
    ClaimsKept(n, w, base, paths, visited);
    ListedStays(n, w, w');
    if Known(bases, w') {
      KnownBefore(bases, w, w');
      SoundStays(n, bases, w, w');
    }
  }

  // ---- downloads, many in flight ----

  /** A download up to its action, unless it is skipped. An id already in flight is torn. */
  function BeginWorld(w: World, id: Text): World {
    var entered := w.(reached := w.reached + {id});
    if Skippable(w, id) then entered
    else entered.(state := Started(w.state, id), flying := w.flying + {id},
                  torn := if id in w.flying then w.torn + {id} else w.torn)
  }

  /** The file is moved into place. */
  function PlaceWorld(w: World, job: Job): World {
    w.(files := w.files[job.relative := CustomerFile(job.origin)])
  }

  /** The action is over; `still` if another one holds the id. */
  function EndWorld(w: World, id: Text, error: Option<Text>, still: bool): World {
    var landed := w.(flying := if still then w.flying else w.flying - {id});
    if error.None? then landed.(state := Succeeded(w.state, id, Record([id], 1)), lacking := w.lacking - {id})
    else landed.(state := Failed(w.state, id, error.value), lacking := w.lacking + {id}, faults := w.faults + {id})
  }

  lemma BeginMoves(w: World, id: Text)
    requires CustomerId(id)
    ensures Moves(w, BeginWorld(w, id))
  {
    KindsOfIdsDiffer(id);
  }

  lemma BeginBooked(w: World, id: Text)
    requires Within(w) && Booked(w) && CustomerId(id)
    ensures var w' := BeginWorld(w, id); Within(w') && Booked(w')
  {
    KindsOfIdsDiffer(id);
  }

  lemma BeginSettled(w: World, id: Text)
    requires Within(w) && Booked(w) && Settled(w) && CustomerId(id)
    ensures Settled(BeginWorld(w, id))
  {
    KindsOfIdsDiffer(id);
  }

  lemma BeginTold(w: World, id: Text)
    requires Tracked(w) && WalksTold(w) && CustomerId(id)
    ensures Tracked(BeginWorld(w, id)) && WalksTold(BeginWorld(w, id))
  {
    KindsOfIdsDiffer(id);
  }

  lemma BeginKept(w: World, id: Text)
    requires Kept(w) && CustomerId(id)
    ensures Kept(BeginWorld(w, id))
  {
    BeginBooked(w, id);
    BeginSettled(w, id);
    BeginTold(w, id);
  }

  lemma BeginSane(n: Scheme, bases: set<Text>, w: World, id: Text)
    requires Sane(n, bases, w) && CustomerId(id) && (Below(R2, id) ==> ObjectAsked(n, w.state.claims, w.scopes, id))
    ensures Sane(n, bases, BeginWorld(w, id))
  {
    BeginMoves(w, id);
    BeginKept(w, id);
    ListedStays(n, w, BeginWorld(w, id));
  }

  lemma PlaceMoves(w: World, job: Job)
    requires CustomerId(job.relative)
    ensures Moves(w, PlaceWorld(w, job))
  {
    KindsOfIdsDiffer(job.relative);
  }

  lemma PlaceKept(w: World, job: Job)
    requires Kept(w) && CustomerId(job.relative)
    ensures Kept(PlaceWorld(w, job))
  {
  }

  lemma PlaceSane(n: Scheme, bases: set<Text>, w: World, job: Job)
    requires Sane(n, bases, w) && CustomerId(job.relative)
    requires Known(bases, w) ==> JobClaimed(n, bases, w.state, job)
    ensures Sane(n, bases, PlaceWorld(w, job))
  {
    PlaceMoves(w, job);
    PlaceKept(w, job);
    ListedStays(n, w, PlaceWorld(w, job));
  }

  lemma EndMoves(w: World, id: Text, error: Option<Text>, still: bool)
    requires CustomerId(id) && id in w.reached && (error.None? ==> id in w.files)
    ensures Moves(w, EndWorld(w, id, error, still))
  {
    KindsOfIdsDiffer(id);
  }

  lemma EndBooked(w: World, id: Text, error: Option<Text>, still: bool)
    requires CustomerId(id) && id in w.flying && (error.None? ==> id in w.files) && (still ==> id in w.torn)
    requires Within(w) && Booked(w) && Settled(w)
    ensures var w' := EndWorld(w, id, error, still); Within(w') && Booked(w') && Settled(w')
  {
    KindsOfIdsDiffer(id);
  }

  lemma EndTold(w: World, id: Text, error: Option<Text>, still: bool)
    requires CustomerId(id) && Tracked(w) && WalksTold(w)
    ensures var w' := EndWorld(w, id, error, still); Tracked(w') && WalksTold(w')
  {
    KindsOfIdsDiffer(id);
  }

  lemma EndSane(n: Scheme, bases: set<Text>, w: World, id: Text, error: Option<Text>, still: bool)
    requires Sane(n, bases, w) && CustomerId(id) && id in w.flying
    requires (error.None? ==> id in w.files) && (still ==> id in w.torn)
    ensures Sane(n, bases, EndWorld(w, id, error, still))
  {
    KindsOfIdsDiffer(id);
    EndMoves(w, id, error, still);
    EndBooked(w, id, error, still);
    EndTold(w, id, error, still);
    ListedStays(n, w, EndWorld(w, id, error, still));
  }

  // ---- walks over stored objects ----

  /** A page's objects have all been taken. */
  function TakenWorld(w: World, page: seq<Text>): World { w.(listed := w.listed + [page]) }

  lemma TakenGoes(bases: set<Text>, w: World, page: seq<Text>)
    ensures Goes(bases, w, TakenWorld(w, page))
  {
  }

  lemma TakenReached(n: Scheme, w: World, page: seq<Text>)
    requires ListedReached(n, w) && ContentsHold(Seen(n, w), R2_BASE, page)
    ensures ListedReached(n, TakenWorld(w, page))
  {
    var w' := TakenWorld(w, page);
    TakenGoes({}, w, page);
    SeenGrows(n, w, w');
    forall p | p in w'.listed ensures ContentsHold(Seen(n, w'), R2_BASE, p) {
      assert p == page || p in w.listed;
      ContentsStay(Seen(n, w), Seen(n, w'), R2_BASE, p);
    }
  }

  lemma TakenKept(w: World, page: seq<Text>)
    requires Kept(w)
    ensures Kept(TakenWorld(w, page))
  {
  }

  lemma TakenMoves(n: Scheme, bases: set<Text>, w: World, page: seq<Text>)
    requires Sane(n, bases, w) && ContentsHold(Seen(n, w), R2_BASE, page)
    ensures Goes(bases, w, TakenWorld(w, page)) && Sane(n, bases, TakenWorld(w, page))
  {
    TakenGoes(bases, w, page);
    TakenKept(w, page);
    ObjectsStayAsked(n, w, TakenWorld(w, page));
    TakenReached(n, w, page);
  }

  /** How the action of a walk over objects ended; ObjectsLacking is the throw of its last line. */
  datatype Verdict = AllTaken | ListingFailed(error: Text) | ObjectsLacking(error: Text)

  function WalkStarted(w: World, who: Walker, scope: Scope): World {
    if Skippable(w, WalkId(who)) then w
    else w.(state := Started(w.state, WalkId(who)), scopes := w.scopes + [Asked(who, scope)])
  }

  /** The end of the item, whose record is forgotten at once. */
  function WalkEnded(w: World, who: Walker, skipped: bool, verdict: Verdict, scope: Scope): World {
    var id := WalkId(who);
    var entered := w.(reached := w.reached + {id}, visits := w.visits + multiset{Walk(who)});
    if skipped then entered.(skipped := w.skipped + {id}, state := Started(w.state, id))
    else
      var answered := entered.(answers := w.answers[id := Asked(who, scope)]);
      match verdict
      case AllTaken =>
        answered.(state := Started(Succeeded(w.state, id, Record([], 0)), id),
                  lacking := w.lacking - {id}, blocked := w.blocked - {id})
      case ListingFailed(error) =>
        answered.(state := Started(Failed(w.state, id, error), id), faults := w.faults + {id},
                  lacking := w.lacking + {id}, blocked := w.blocked - {id})
      case ObjectsLacking(error) =>
        answered.(state := Started(Failed(w.state, id, error), id),
                  lacking := w.lacking - {id}, blocked := w.blocked + {id})
  }

  lemma WalkStarts(n: Scheme, bases: set<Text>, w: World, who: Walker, scope: Scope)
    requires Sane(n, bases, w) && BasesFit(n, bases) && ScopeTold(w.server, Asked(who, scope))
    ensures Skippable(w, WalkId(who)) <==> WalkId(who) in w.state.finished
    ensures Goes(bases, w, WalkStarted(w, who, scope)) && Sane(n, bases, WalkStarted(w, who, scope))
    ensures !Skippable(w, WalkId(who)) ==> WalkStarted(w, who, scope) == w.(scopes := w.scopes + [Asked(who, scope)])
  {
    StartIs(w, who, scope);
    if !Skippable(w, WalkId(who)) {
      StartGoes(bases, w, who, scope);
      StartSane(n, bases, w, who, scope);
    }
  }

  lemma StartIs(w: World, who: Walker, scope: Scope)
    requires WalksTold(w)
    ensures Skippable(w, WalkId(who)) <==> WalkId(who) in w.state.finished
    ensures !Skippable(w, WalkId(who)) ==> WalkStarted(w, who, scope) == w.(scopes := w.scopes + [Asked(who, scope)])
  {
    WalkIds(who);
    var id := WalkId(who);
    if id !in w.state.finished { assert w.state.finished - {id} == w.state.finished; }
  }

  lemma StartGoes(bases: set<Text>, w: World, who: Walker, scope: Scope)
    requires ScopeTold(w.server, Asked(who, scope))
    ensures Goes(bases, w, w.(scopes := w.scopes + [Asked(who, scope)]))
  {
  }

  lemma StartSane(n: Scheme, bases: set<Text>, w: World, who: Walker, scope: Scope)
    requires Sane(n, bases, w) && ScopeTold(w.server, Asked(who, scope))
    ensures Sane(n, bases, w.(scopes := w.scopes + [Asked(who, scope)]))
  {
    var w' := w.(scopes := w.scopes + [Asked(who, scope)]);
    StartGoes(bases, w, who, scope);
    StartKept(w, who, scope);
    ListedStays(n, w, w');
  }

  lemma StartKept(w: World, who: Walker, scope: Scope)
    requires Kept(w)
    ensures var w' := w.(scopes := w.scopes + [Asked(who, scope)]); Kept(w')
  {
  }

  /** What the end of a walk over objects may say: it skips exactly if it is finished, fails for its listings
      unless all ended and all their pages were taken, and is blocked only by an object's warning. */
  ghost predicate VerdictFits(w: World, who: Walker, skipped: bool, verdict: Verdict, scope: Scope) {
    && (skipped <==> WalkId(who) in w.state.finished) && ScopeTold(w.server, Asked(who, scope))
    && (!skipped && !verdict.ListingFailed? ==> ScopeWhole(w, Asked(who, scope)))
    && (!skipped && verdict.ObjectsLacking? ==> !NoObjectWarning(w))
  }

  lemma WalkMoves(bases: set<Text>, w: World, who: Walker, skipped: bool, verdict: Verdict, scope: Scope)
    requires VerdictFits(w, who, skipped, verdict, scope) && WalksTold(w)
    ensures Goes(bases, w, WalkEnded(w, who, skipped, verdict, scope))
  {
    VisitsGrow(w, Walk(who));
    WalkKeepsRest(w, who, skipped, verdict, scope);
    WalkKeepsWalks(w, who, skipped, verdict, scope);
  }

  lemma WalkKeepsRest(w: World, who: Walker, skipped: bool, verdict: Verdict, scope: Scope)
    requires VerdictFits(w, who, skipped, verdict, scope)
    ensures var w' := WalkEnded(w, who, skipped, verdict, scope);
            Preserves(w, w') && LeavesOthers(w, w') && KeepsObjectsQuiet(w, w')
  {
    WalkIds(who);
    KindsOfIdsDiffer(WalkId(who));
  }

  lemma WalkKeepsWalks(w: World, who: Walker, skipped: bool, verdict: Verdict, scope: Scope)
    requires VerdictFits(w, who, skipped, verdict, scope) && WalksTold(w)
    ensures KeepsWalks(w, WalkEnded(w, who, skipped, verdict, scope))
  {
    WalkIds(who);
  }

  lemma WalkBooked(w: World, who: Walker, skipped: bool, verdict: Verdict, scope: Scope)
    requires Within(w) && Booked(w) && Settled(w) && w.flying == {} && VerdictFits(w, who, skipped, verdict, scope)
    ensures var w' := WalkEnded(w, who, skipped, verdict, scope); Within(w') && Booked(w') && Settled(w')
  {
    WalkIds(who);
    KindsOfIdsDiffer(WalkId(who));
    VisitsGrow(w, Walk(who));
  }

  lemma WalkTells(w: World, who: Walker, skipped: bool, verdict: Verdict, scope: Scope)
    requires Tracked(w) && WalksTold(w) && VerdictFits(w, who, skipped, verdict, scope)
    ensures var w' := WalkEnded(w, who, skipped, verdict, scope); Tracked(w') && WalksTold(w')
  {
    WalkIds(who);
    VisitsGrow(w, Walk(who));
    assert Walk(who) in w.visits + multiset{Walk(who)};
    forall x | OwnId(x) ensures x != WalkId(who) { KindsOfIdsDiffer(x); }
  }

  lemma WalkSane(n: Scheme, bases: set<Text>, w: World, who: Walker, skipped: bool, verdict: Verdict, scope: Scope)
    requires Sane(n, bases, w) && w.flying == {} && VerdictFits(w, who, skipped, verdict, scope)
    ensures Sane(n, bases, WalkEnded(w, who, skipped, verdict, scope))
  {
    var w' := WalkEnded(w, who, skipped, verdict, scope);
    WalkIds(who);
    KindsOfIdsDiffer(WalkId(who));
    WalkMoves(bases, w, who, skipped, verdict, scope);
    WalkBooked(w, who, skipped, verdict, scope);
    WalkTells(w, who, skipped, verdict, scope);
    ListedStays(n, w, w');
    WalkSound(n, bases, w, who, skipped, verdict, scope);
  }

  lemma WalkSound(n: Scheme, bases: set<Text>, w: World, who: Walker, skipped: bool, verdict: Verdict, scope: Scope)
    requires Known(bases, w) ==> Sound(n, bases, w)
    ensures var w' := WalkEnded(w, who, skipped, verdict, scope); Known(bases, w') ==> Sound(n, bases, w')
  {
    VisitsGrow(w, Walk(who));
  }
}
