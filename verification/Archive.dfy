/** What a finished archive must hold, read off the listings inside it, and which names the walk
    uses for it. Both are said of a view of the archive, so that what a walk has seen can be
    carried on to what the archive holds at the end. */
module Archive {
  import opened JsText
  import opened Options
  import opened PathTree
  import opened CustomerPaths
  import opened ExportStates
  import opened Layout
  import opened Writer

  // ---- single items ----

  /** `item` would return at once. */
  predicate Skippable(w: World, id: Text) {
    id in w.state.finished && forall output | output in w.state.finished[id].outputs :: output in w.files
  }

  predicate Readable(w: World, id: Text) {
    Skippable(w, id) && id in w.files && w.files[id].Listing?
  }

  function RowsAt(w: World, id: Text): seq<Row> {
    if ListingId(id) && Readable(w, id) then w.files[id].rows else []
  }

  function PathOf(n: Scheme, claims: Claims, o: Origin): Option<Text> {
    var names := Lookup(n, claims, o.base, o.base, o.segments);
    if o.segments == [] || names.None? then None else Some(Join(o.base, names.value))
  }

  /** The item was started in this run, is finished, and its outputs are on disk. */
  predicate ItemDone(w: World, id: Text) { id in w.reached && Skippable(w, id) }

  /** The item of the file's path was started in this run. */
  predicate ContentReached(n: Scheme, w: World, o: Origin) {
    var path := PathOf(n, w.state.claims, o);
    path.Some? && path.value in w.reached
  }

  /** The item is done, and if by this run, for that row or key. */
  predicate OwnDone(w: World, id: Text, of: Text) { ItemDone(w, id) && (id in w.written ==> w.written[id] == of) }

  /** Every listing of a prefix the walk is for ended, and all the objects it named have been taken. Those
      are all prefixes if it is for a workspace, and the projects' ones if it is for a project. */
  predicate ScopeWhole(w: World, asked: Asked) {
    && asked.scope.Scoped?
    && forall prefix | prefix in asked.scope.prefixes
                         && (asked.who.project.Some? ==> PROJECT_PREFIX <= prefix.prefix) ::
         prefix.listing.ended && forall page | page in prefix.listing.pages :: page in w.listed
  }

  /** The walk over stored objects was started and left no warning. Unless it skipped, all its listings
      ended and all they named was taken. */
  predicate WalkDone(w: World, who: Walker) {
    var id := WalkId(who);
    && id in w.reached && id !in w.state.warnings
    && (id in w.skipped || (id in w.answers && w.answers[id].who == who && ScopeWhole(w, w.answers[id])))
  }

  /** The customer file is on disk at the path claimed for it, and it is that file. */
  predicate ContentDone(n: Scheme, w: World, o: Origin) {
    var path := PathOf(n, w.state.claims, o);
    path.Some? && ItemDone(w, path.value) && path.value in w.files && w.files[path.value] == CustomerFile(o)
  }

  // ---- views ----

  datatype View = View(
    listing: Text -> bool, rows: Text -> seq<Row>, item: (Text, Text) -> bool, walk: Walker -> bool,
    content: Origin -> bool)

  /** Customer files are exported under this directory. */
  ghost predicate UsedBase(w: World, base: Text) { base == R2_BASE || exists paths :: Dir(base, paths) in w.visits }

  /** What the walk has come to: listings it can read, items and files it has started. */
  ghost function Seen(n: Scheme, w: World): View {
    View(id => ListingId(id) && id in w.reached && Readable(w, id), id => RowsAt(w, id),
         (id, of) => OwnId(id) && id in w.reached && Leaf(id, of) in w.visits,
         who => WalkId(who) in w.reached && Walk(who) in w.visits,
         (o: Origin) => UsedBase(w, o.base) && ContentReached(n, w, o))
  }

  /** What the archive holds. */
  function Held(n: Scheme, w: World): View {
    View(id => ListingId(id) && ItemDone(w, id) && Readable(w, id), id => RowsAt(w, id),
         (id, of) => OwnDone(w, id, of), who => WalkDone(w, who), o => ContentDone(n, w, o))
  }

  /** All there is to v is there in v' as well. */
  ghost predicate Refines(v: View, v': View) {
    && (forall id :: v.listing(id) ==> v'.listing(id) && v'.rows(id) == v.rows(id))
    && (forall id, of :: v.item(id, of) ==> v'.item(id, of))
    && (forall who :: v.walk(who) ==> v'.walk(who))
    && (forall o :: v.content(o) ==> v'.content(o))
  }

  /** And listings that could not be read may have become readable. */
  ghost predicate Grows(v: View, v': View) {
    Refines(v, v') && forall id :: v.rows(id) == [] || v'.rows(id) == v.rows(id)
  }

  // ---- what must be there ----

  function FilePaths(rows: seq<Row>): (paths: seq<Text>)
    ensures forall row | row in rows && row.isFile :: row.path in paths
  {
    if rows == [] then [] else (if rows[0].isFile then [rows[0].path] else []) + FilePaths(rows[1..])
  }

  /** The places in a listing of the rows these paths are from. */
  predicate PlacesOf(rows: seq<Row>, paths: seq<Text>, at: seq<nat>) {
    && |at| == |paths| && (forall i | 0 <= i < |at| :: at[i] < |rows| && paths[i] == rows[at[i]].path)
    && (forall i, j | 0 <= i < j < |at| :: at[i] < at[j])
    && (forall k: nat | k < |rows| :: k in at <==> rows[k].isFile)
  }

  /** Of a listing, the paths of exactly the rows that are files, in listing order; directories and symlinks
      stay in the listing only. */
  lemma {:induction false} FilePathsAre(rows: seq<Row>) returns (at: seq<nat>)
    ensures PlacesOf(rows, FilePaths(rows), at)
    decreases |rows|
  {
    if rows == [] {
      at := [];
    } else {
      var rest := FilePathsAre(rows[1..]);
      var moved: seq<nat> := seq(|rest|, i requires 0 <= i < |rest| => rest[i] + 1);
      PlacesMoved(rows, FilePaths(rows[1..]), rest, moved);
      at := FirstPlace(rows, FilePaths(rows[1..]), moved);
    }
  }

  /** Places after the first row. */
  predicate LaterPlaces(rows: seq<Row>, paths: seq<Text>, at: seq<nat>) {
    && |at| == |paths| && (forall i | 0 <= i < |at| :: 0 < at[i] < |rows| && paths[i] == rows[at[i]].path)
    && (forall i, j | 0 <= i < j < |at| :: at[i] < at[j])
    && (forall k: nat | 0 < k < |rows| :: k in at <==> rows[k].isFile)
  }

  lemma PlacesMoved(rows: seq<Row>, paths: seq<Text>, at: seq<nat>, moved: seq<nat>)
    requires rows != [] && PlacesOf(rows[1..], paths, at)
    requires |moved| == |at| && forall i | 0 <= i < |at| :: moved[i] == at[i] + 1
    ensures LaterPlaces(rows, paths, moved)
  {
    forall k: nat | 0 < k < |rows| ensures k in moved <==> rows[k].isFile {
      assert rows[k] == rows[1..][k - 1];
      if k - 1 in at {
        var i :| 0 <= i < |at| && at[i] == k - 1;
        assert moved[i] == k;
      }
    }
  }

  lemma FirstPlace(rows: seq<Row>, paths: seq<Text>, moved: seq<nat>) returns (at: seq<nat>)
    requires rows != [] && LaterPlaces(rows, paths, moved)
    ensures PlacesOf(rows, (if rows[0].isFile then [rows[0].path] else []) + paths, at)
  {
    assert [] + paths == paths;
    if rows[0].isFile {
      at := [0] + moved;
      PlacedFirst(rows, paths, moved);
    } else {
      at := moved;
      assert 0 !in moved;
    }
  }

  lemma PlacedFirst(rows: seq<Row>, paths: seq<Text>, moved: seq<nat>)
    requires rows != [] && rows[0].isFile && LaterPlaces(rows, paths, moved)
    ensures PlacesOf(rows, [rows[0].path] + paths, [0] + moved)
  {
    var at: seq<nat> := [0] + moved;
    forall i | 0 <= i < |at| ensures at[i] < |rows| && ([rows[0].path] + paths)[i] == rows[at[i]].path {
      if i > 0 { assert at[i] == moved[i - 1]; }
    }
    forall i, j | 0 <= i < j < |at| ensures at[i] < at[j] {
      assert at[j] == moved[j - 1] && (i > 0 ==> at[i] == moved[i - 1]);
    }
    forall k: nat | k < |rows| ensures k in at <==> rows[k].isFile {
      assert k in at <==> k == 0 || k in moved;
    }
  }

  predicate ContentsHold(v: View, base: Text, paths: seq<Text>) {
    forall i | 0 <= i < |paths| :: v.content(Origin(base, Segments(paths[i])))
  }

  predicate FilesHold(v: View, base: Text, metadata: Text) {
    v.listing(metadata) && ContentsHold(v, base, FilePaths(v.rows(metadata)))
  }

  predicate ProjectHolds(n: Scheme, v: View, dir: seq<Text>, wsId: Text, project: Row) {
    var pd := ProjectDir(n, dir, project);
    && FilesHold(v, FileBase(pd), FileListing(pd)) && v.item(Bundle(n, dir, project), project.id)
    && v.walk(Walker(wsId, Some(project.id)))
  }

  predicate ProjectsHold(n: Scheme, v: View, dir: seq<Text>, wsId: Text) {
    && v.listing(ProjectListing(dir))
    && forall project | project in v.rows(ProjectListing(dir)) :: ProjectHolds(n, v, dir, wsId, project)
  }

  predicate AppHolds(n: Scheme, v: View, dir: seq<Text>, ws: Row, app: Row) {
    app.workspace == ws.id ==> v.item(AppFile(n, dir, app), app.title)
  }

  predicate VolumeHolds(n: Scheme, v: View, dir: seq<Text>, volume: Row) {
    FilesHold(v, VolumeBase(n, dir, volume), VolumeListing(n, dir, volume))
  }

  predicate VolumesHold(n: Scheme, v: View, dir: seq<Text>) {
    && v.listing(Volumes(dir))
    && forall volume | volume in v.rows(Volumes(dir)) :: VolumeHolds(n, v, dir, volume)
  }

  predicate ThreadHolds(n: Scheme, v: View, dir: seq<Text>, ws: Row, thread: Row) {
    thread.workspace == ws.id ==>
      && v.item(ThreadDetails(n, dir, thread), thread.id) && v.item(ThreadMessages(n, dir, thread), thread.id)
      && (thread.agent.Some? ==> VolumesHold(n, v, ThreadDir(n, dir, thread)))
  }

  predicate AutomationHolds(v: View, dir: seq<Text>, kind: Text) { v.listing(AutomationFile(dir, kind)) }

  predicate WorkspaceHolds(n: Scheme, v: View, ws: Row, apps: seq<Row>, threads: seq<Row>) {
    var dir := WorkspaceDir(n, ws);
    && (forall kind | kind in KINDS :: AutomationHolds(v, dir, kind))
    && FilesHold(v, FileBase(dir), FileListing(dir))
    && ProjectsHold(n, v, dir, ws.id)
    && v.walk(Walker(ws.id, None))
    && (forall app | app in apps :: AppHolds(n, v, dir, ws, app))
    && (forall thread | thread in threads :: ThreadHolds(n, v, dir, ws, thread))
  }

  function RecordRows(n: Scheme, v: View, m: Manifest, recordSet: Text): seq<Row> {
    if recordSet in m.recordSets then v.rows(RecordSetFile(n, recordSet)) else []
  }

  const WORKSPACE_SET := Lit("workspaces")
  const APP_SET := Lit("apps")

  predicate HasWorkspace(workspaces: seq<Row>, thread: Row) {
    exists ws :: ws in workspaces && ws.id == thread.workspace
  }

  /** Everything the listings name: settings, record sets, and for every workspace its automations,
      files, projects, walks over stored objects, apps and threads, down to the last file. */
  predicate StagesHold(n: Scheme, v: View, m: Manifest) {
    && (forall key | key in m.keys && key != RECORD_SETS :: v.item(SettingFile(key), key))
    && (forall recordSet | recordSet in m.recordSets :: v.listing(RecordSetFile(n, recordSet)))
    && v.listing(THREAD_LISTING)
    && (forall ws | ws in RecordRows(n, v, m, WORKSPACE_SET) ::
          WorkspaceHolds(n, v, ws, RecordRows(n, v, m, APP_SET), v.rows(THREAD_LISTING)))
  }

  /** And no thread is without a workspace. */
  predicate ArchiveHolds(n: Scheme, v: View, m: Manifest) {
    && StagesHold(n, v, m)
    && forall thread | thread in v.rows(THREAD_LISTING) :: HasWorkspace(RecordRows(n, v, m, WORKSPACE_SET), thread)
  }

  /** The archive is all there, with the stored objects that were listed. */
  predicate ArchiveComplete(n: Scheme, w: World, m: Manifest) {
    && ArchiveHolds(n, Held(n, w), m)
    && forall page | page in w.listed :: ContentsHold(Held(n, w), R2_BASE, page)
  }

  // ---- what that comes to ----

  predicate FilesThere(n: Scheme, w: World, base: Text, metadata: Text) {
    && Readable(w, metadata)
    && forall row | row in RowsAt(w, metadata) && row.isFile :: ContentDone(n, w, Origin(base, Segments(row.path)))
  }

  lemma FilesAreThere(n: Scheme, w: World, base: Text, metadata: Text)
    requires FilesHold(Held(n, w), base, metadata)
    ensures FilesThere(n, w, base, metadata)
  {
    forall row | row in RowsAt(w, metadata) && row.isFile ensures ContentDone(n, w, Origin(base, Segments(row.path))) {
      var paths := FilePaths(RowsAt(w, metadata));
      assert row.path in paths;
      var i :| 0 <= i < |paths| && paths[i] == row.path;
      assert Held(n, w).content(Origin(base, Segments(paths[i])));
    }
  }

  /** Of a complete archive's settings, record sets and threads. */
  lemma CompleteOrganization(n: Scheme, w: World, m: Manifest)
    requires ArchiveComplete(n, w, m)
    ensures forall key | key in m.keys && key != Lit("record_sets") :: OwnDone(w, SettingFile(key), key)
    ensures forall recordSet | recordSet in m.recordSets :: Readable(w, RecordSetFile(n, recordSet))
    ensures Readable(w, THREAD_LISTING)
  {
    var v := Held(n, w);
    forall key | key in m.keys && key != Lit("record_sets") ensures OwnDone(w, SettingFile(key), key) {
      assert v.item(SettingFile(key), key);
    }
    forall recordSet | recordSet in m.recordSets ensures Readable(w, RecordSetFile(n, recordSet)) {
      assert v.listing(RecordSetFile(n, recordSet));
    }
  }

  /** And each of its threads has a workspace of the record set. */
  lemma CompleteThreads(n: Scheme, w: World, m: Manifest, thread: Row) returns (ws: Row)
    requires ArchiveComplete(n, w, m) && thread in RowsAt(w, THREAD_LISTING)
    ensures ws.id == thread.workspace && Lit("workspaces") in m.recordSets
    ensures ws in RowsAt(w, RecordSetFile(n, Lit("workspaces")))
  {
    assert thread in Held(n, w).rows(THREAD_LISTING);
    assert HasWorkspace(RecordRows(n, Held(n, w), m, WORKSPACE_SET), thread);
    ws :| ws in RecordRows(n, Held(n, w), m, WORKSPACE_SET) && ws.id == thread.workspace;
  }

  /** Of each of its workspaces. */
  lemma CompleteWorkspace(n: Scheme, w: World, m: Manifest, ws: Row)
    requires ArchiveComplete(n, w, m) && Lit("workspaces") in m.recordSets
    requires ws in RowsAt(w, RecordSetFile(n, Lit("workspaces")))
    ensures var dir := WorkspaceDir(n, ws);
            && (forall kind | kind in [Lit("prompts"), Lit("automations"), Lit("versions")] ::
                  Readable(w, AutomationFile(dir, kind)))
            && FilesThere(n, w, FileBase(dir), FileListing(dir)) && WalkDone(w, Walker(ws.id, None))
            && Readable(w, ProjectListing(dir))
            && (Lit("apps") in m.recordSets ==>
                  forall app | app in RowsAt(w, RecordSetFile(n, Lit("apps"))) && app.workspace == ws.id ::
                    OwnDone(w, AppFile(n, dir, app), app.title))
  {
    var v, dir := Held(n, w), WorkspaceDir(n, ws);
    assert WorkspaceHolds(n, v, ws, RecordRows(n, v, m, APP_SET), v.rows(THREAD_LISTING));
    FilesAreThere(n, w, FileBase(dir), FileListing(dir));
    forall kind | kind in [Lit("prompts"), Lit("automations"), Lit("versions")]
      ensures Readable(w, AutomationFile(dir, kind))
    {
      assert kind in KINDS && AutomationHolds(v, dir, kind);
    }
    if Lit("apps") in m.recordSets {
      forall app | app in RowsAt(w, RecordSetFile(n, Lit("apps"))) && app.workspace == ws.id
        ensures OwnDone(w, AppFile(n, dir, app), app.title)
      {
        assert AppHolds(n, v, dir, ws, app);
      }
    }
  }

  /** Of each project of these. */
  lemma CompleteProject(n: Scheme, w: World, m: Manifest, ws: Row, project: Row)
    requires ArchiveComplete(n, w, m) && Lit("workspaces") in m.recordSets
    requires ws in RowsAt(w, RecordSetFile(n, Lit("workspaces")))
    requires project in RowsAt(w, ProjectListing(WorkspaceDir(n, ws)))
    ensures var dir := WorkspaceDir(n, ws);
            var pd := ProjectDir(n, dir, project);
            && FilesThere(n, w, FileBase(pd), FileListing(pd)) && OwnDone(w, Bundle(n, dir, project), project.id)
            && WalkDone(w, Walker(ws.id, Some(project.id)))
  {
    var v, dir := Held(n, w), WorkspaceDir(n, ws);
    assert WorkspaceHolds(n, v, ws, RecordRows(n, v, m, APP_SET), v.rows(THREAD_LISTING));
    assert ProjectHolds(n, v, dir, ws.id, project);
    var pd := ProjectDir(n, dir, project);
    FilesAreThere(n, w, FileBase(pd), FileListing(pd));
  }

  /** And of each thread. */
  lemma CompleteThread(n: Scheme, w: World, m: Manifest, ws: Row, thread: Row)
    requires ArchiveComplete(n, w, m) && Lit("workspaces") in m.recordSets
    requires ws in RowsAt(w, RecordSetFile(n, Lit("workspaces")))
    requires thread in RowsAt(w, THREAD_LISTING) && thread.workspace == ws.id
    ensures var dir := WorkspaceDir(n, ws);
            var t := ThreadDir(n, dir, thread);
            && OwnDone(w, ThreadDetails(n, dir, thread), thread.id)
            && OwnDone(w, ThreadMessages(n, dir, thread), thread.id)
            && (thread.agent.Some? ==>
                  && Readable(w, Volumes(t))
                  && forall volume | volume in RowsAt(w, Volumes(t)) ::
                       FilesThere(n, w, VolumeBase(n, t, volume), VolumeListing(n, t, volume)))
  {
    var v, dir := Held(n, w), WorkspaceDir(n, ws);
    assert WorkspaceHolds(n, v, ws, RecordRows(n, v, m, APP_SET), v.rows(THREAD_LISTING));
    assert ThreadHolds(n, v, dir, ws, thread);
    var t := ThreadDir(n, dir, thread);
    if thread.agent.Some? {
      forall volume | volume in RowsAt(w, Volumes(t))
        ensures FilesThere(n, w, VolumeBase(n, t, volume), VolumeListing(n, t, volume))
      {
        assert VolumeHolds(n, v, t, volume);
        FilesAreThere(n, w, VolumeBase(n, t, volume), VolumeListing(n, t, volume));
      }
    }
  }

  // ---- what is there stays there ----

  lemma ContentsStay(v: View, v': View, base: Text, paths: seq<Text>)
    requires Refines(v, v') && ContentsHold(v, base, paths)
    ensures ContentsHold(v', base, paths)
  {
    forall i | 0 <= i < |paths| ensures v'.content(Origin(base, Segments(paths[i]))) {
      assert v.content(Origin(base, Segments(paths[i])));
    }
  }

  lemma FilesStay(v: View, v': View, base: Text, metadata: Text)
    requires Refines(v, v') && FilesHold(v, base, metadata)
    ensures FilesHold(v', base, metadata)
  {
    ContentsStay(v, v', base, FilePaths(v.rows(metadata)));
  }

  lemma ProjectStays(n: Scheme, v: View, v': View, dir: seq<Text>, wsId: Text, project: Row)
    requires Refines(v, v') && ProjectHolds(n, v, dir, wsId, project)
    ensures ProjectHolds(n, v', dir, wsId, project)
  {
    var pd := ProjectDir(n, dir, project);
    FilesStay(v, v', FileBase(pd), FileListing(pd));
  }

  lemma ProjectsStay(n: Scheme, v: View, v': View, dir: seq<Text>, wsId: Text)
    requires Refines(v, v') && ProjectsHold(n, v, dir, wsId)
    ensures ProjectsHold(n, v', dir, wsId)
  {
    forall project | project in v'.rows(ProjectListing(dir)) ensures ProjectHolds(n, v', dir, wsId, project) {
      ProjectStays(n, v, v', dir, wsId, project);
    }
  }

  lemma VolumesStay(n: Scheme, v: View, v': View, dir: seq<Text>)
    requires Refines(v, v') && VolumesHold(n, v, dir)
    ensures VolumesHold(n, v', dir)
  {
    forall volume | volume in v'.rows(Volumes(dir)) ensures VolumeHolds(n, v', dir, volume) {
      FilesStay(v, v', VolumeBase(n, dir, volume), VolumeListing(n, dir, volume));
    }
  }

  lemma ThreadStays(n: Scheme, v: View, v': View, dir: seq<Text>, ws: Row, thread: Row)
    requires Refines(v, v') && ThreadHolds(n, v, dir, ws, thread)
    ensures ThreadHolds(n, v', dir, ws, thread)
  {
    if thread.workspace == ws.id && thread.agent.Some? {
      VolumesStay(n, v, v', ThreadDir(n, dir, thread));
    }
  }

  lemma WorkspaceStays(n: Scheme, v: View, v': View, ws: Row, apps: seq<Row>, threads: seq<Row>)
    requires Refines(v, v') && WorkspaceHolds(n, v, ws, apps, threads)
    ensures WorkspaceHolds(n, v', ws, apps, threads)
  {
    var dir := WorkspaceDir(n, ws);
    forall kind | kind in KINDS ensures AutomationHolds(v', dir, kind) { assert AutomationHolds(v, dir, kind); }
    FilesStay(v, v', FileBase(dir), FileListing(dir));
    ProjectsStay(n, v, v', dir, ws.id);
    forall app | app in apps ensures AppHolds(n, v', dir, ws, app) { assert AppHolds(n, v, dir, ws, app); }
    forall thread | thread in threads ensures ThreadHolds(n, v', dir, ws, thread) {
      ThreadStays(n, v, v', dir, ws, thread);
    }
  }

  lemma RecordRowsStay(n: Scheme, v: View, v': View, m: Manifest, recordSet: Text)
    requires Refines(v, v') && (recordSet in m.recordSets ==> v.listing(RecordSetFile(n, recordSet)))
    ensures RecordRows(n, v', m, recordSet) == RecordRows(n, v, m, recordSet)
  {
  }

  lemma ArchiveStays(n: Scheme, v: View, v': View, m: Manifest)
    requires Refines(v, v') && ArchiveHolds(n, v, m)
    ensures ArchiveHolds(n, v', m)
  {
    RecordRowsStay(n, v, v', m, WORKSPACE_SET);
    RecordRowsStay(n, v, v', m, APP_SET);
    forall ws | ws in RecordRows(n, v', m, WORKSPACE_SET)
      ensures WorkspaceHolds(n, v', ws, RecordRows(n, v', m, APP_SET), v'.rows(THREAD_LISTING))
    {
      WorkspaceStays(n, v, v', ws, RecordRows(n, v, m, APP_SET), v.rows(THREAD_LISTING));
    }
  }

  // ---- the names the walk uses ----

  function Sum<T>(plan: T -> multiset<Visit>, things: seq<T>): multiset<Visit> {
    if things == [] then multiset{} else Sum(plan, things[..|things| - 1]) + plan(things[|things| - 1])
  }

  function SumOver<T>(plan: (View, T) -> multiset<Visit>, v: View, things: seq<T>): multiset<Visit> {
    Sum(thing => plan(v, thing), things)
  }

  function FilesPlan(v: View, base: Text, metadata: Text): multiset<Visit> {
    multiset{List(metadata)}
    + if v.listing(metadata) then multiset{Dir(base, FilePaths(v.rows(metadata)))} else multiset{}
  }

  function ProjectPlan(n: Scheme, v: View, dir: seq<Text>, wsId: Text, project: Row): multiset<Visit> {
    var pd := ProjectDir(n, dir, project);
    FilesPlan(v, FileBase(pd), FileListing(pd))
    + multiset{Leaf(Bundle(n, dir, project), project.id), Walk(Walker(wsId, Some(project.id)))}
  }

  function ProjectPlans(n: Scheme, dir: seq<Text>, wsId: Text): (View, Row) -> multiset<Visit> {
    (v, project) => ProjectPlan(n, v, dir, wsId, project)
  }

  function ProjectsPlan(n: Scheme, v: View, dir: seq<Text>, wsId: Text): multiset<Visit> {
    multiset{List(ProjectListing(dir))} + SumOver(ProjectPlans(n, dir, wsId), v, v.rows(ProjectListing(dir)))
  }

  function AppPlan(n: Scheme, dir: seq<Text>, ws: Row, app: Row): multiset<Visit> {
    if app.workspace == ws.id then multiset{Leaf(AppFile(n, dir, app), app.title)} else multiset{}
  }

  function AppPlans(n: Scheme, dir: seq<Text>, ws: Row): (View, Row) -> multiset<Visit> {
    (v, app) => AppPlan(n, dir, ws, app)
  }

  function VolumePlan(n: Scheme, v: View, dir: seq<Text>, volume: Row): multiset<Visit> {
    FilesPlan(v, VolumeBase(n, dir, volume), VolumeListing(n, dir, volume))
  }

  function VolumePlans(n: Scheme, dir: seq<Text>): (View, Row) -> multiset<Visit> {
    (v, volume) => VolumePlan(n, v, dir, volume)
  }

  function VolumesPlan(n: Scheme, v: View, dir: seq<Text>): multiset<Visit> {
    multiset{List(Volumes(dir))} + SumOver(VolumePlans(n, dir), v, v.rows(Volumes(dir)))
  }

  function ThreadPlan(n: Scheme, v: View, dir: seq<Text>, ws: Row, thread: Row): multiset<Visit> {
    if thread.workspace != ws.id then multiset{}
    else
      multiset{Leaf(ThreadDetails(n, dir, thread), thread.id), Leaf(ThreadMessages(n, dir, thread), thread.id)}
      + if thread.agent.Some? then VolumesPlan(n, v, ThreadDir(n, dir, thread)) else multiset{}
  }

  function ThreadPlans(n: Scheme, dir: seq<Text>, ws: Row): (View, Row) -> multiset<Visit> {
    (v, thread) => ThreadPlan(n, v, dir, ws, thread)
  }

  function AutomationPlans(dir: seq<Text>): (View, Text) -> multiset<Visit> {
    (v, kind) => multiset{List(AutomationFile(dir, kind))}
  }

  function FilesAndObjectsPlan(n: Scheme, v: View, dir: seq<Text>, wsId: Text): multiset<Visit> {
    FilesPlan(v, FileBase(dir), FileListing(dir)) + ProjectsPlan(n, v, dir, wsId) + multiset{Walk(Walker(wsId, None))}
  }

  function WorkspacePlan(n: Scheme, v: View, ws: Row, apps: seq<Row>, threads: seq<Row>): multiset<Visit> {
    var dir := WorkspaceDir(n, ws);
    SumOver(AutomationPlans(dir), v, KINDS) + FilesAndObjectsPlan(n, v, dir, ws.id)
    + SumOver(AppPlans(n, dir, ws), v, apps) + SumOver(ThreadPlans(n, dir, ws), v, threads)
  }

  function WorkspacePlans(n: Scheme, apps: seq<Row>, threads: seq<Row>): (View, Row) -> multiset<Visit> {
    (v, ws) => WorkspacePlan(n, v, ws, apps, threads)
  }

  function SettingPlan(key: Text): multiset<Visit> {
    if key == RECORD_SETS then multiset{} else multiset{Leaf(SettingFile(key), key)}
  }

  function SettingPlans(): (View, Text) -> multiset<Visit> { (v, key) => SettingPlan(key) }

  function RecordSetPlans(n: Scheme): (View, Text) -> multiset<Visit> {
    (v, recordSet) => multiset{List(RecordSetFile(n, recordSet))}
  }

  /** All the walk visits, after the settings, in an archive with these listings. */
  function Plan(n: Scheme, v: View, m: Manifest): multiset<Visit> {
    SumOver(SettingPlans(), v, m.keys) + SumOver(RecordSetPlans(n), v, m.recordSets) + multiset{List(THREAD_LISTING)}
    + SumOver(WorkspacePlans(n, RecordRows(n, v, m, APP_SET), v.rows(THREAD_LISTING)), v,
              RecordRows(n, v, m, WORKSPACE_SET))
  }

  predicate DistinctPaths(paths: seq<Text>) {
    forall i, j | 0 <= i < j < |paths| :: Segments(paths[i]) != Segments(paths[j])
  }

  /** No item other than a listing has this id. */
  ghost predicate NoLeaf(visits: multiset<Visit>, id: Text) {
    forall visit | visit in visits && visit.Leaf? :: visit.id != id
  }

  /** Customer files are exported under directories known to be apart. */
  ghost predicate KnownDirs(bases: set<Text>, visits: multiset<Visit>) {
    forall base, paths | Dir(base, paths) in visits :: base in bases
  }

  /** Names do not clash: no listing has the id of another listing, of an item, or of the automation
      index, which no item has either; no two rows have one own file, and no two walks over objects one
      id; and customer directories are among those known to be apart. */
  ghost predicate WellNamed(bases: set<Text>, visits: multiset<Visit>) {
    && (forall id | List(id) in visits :: visits[List(id)] == 1 && NoLeaf(visits, id))
    && (forall id, a, b | Leaf(id, a) in visits && Leaf(id, b) in visits :: a == b)
    && (forall a, b | Walk(a) in visits && Walk(b) in visits && WalkId(a) == WalkId(b) :: a == b)
    && List(AUTOMATION_INDEX) !in visits && NoLeaf(visits, AUTOMATION_INDEX)
    && KnownDirs(bases, visits)
  }

  /** Besides, no listing names one file twice. */
  ghost predicate Tidy(bases: set<Text>, visits: multiset<Visit>) {
    KnownDirs(bases, visits) && forall base, paths | Dir(base, paths) in visits :: DistinctPaths(paths)
  }

  lemma WellNamedParts(bases: set<Text>, part: multiset<Visit>, visits: multiset<Visit>)
    requires part <= visits && WellNamed(bases, visits)
    ensures WellNamed(bases, part)
  {
    forall visit | visit in part ensures visit in visits { }
    forall id | List(id) in part ensures part[List(id)] == 1 && NoLeaf(part, id) {
      assert List(id) in visits;
    }
    forall id, a, b | Leaf(id, a) in part && Leaf(id, b) in part ensures a == b {
      assert Leaf(id, a) in visits && Leaf(id, b) in visits;
    }
    forall a, b | Walk(a) in part && Walk(b) in part && WalkId(a) == WalkId(b) ensures a == b {
      assert Walk(a) in visits && Walk(b) in visits;
    }
    assert List(AUTOMATION_INDEX) in part ==> List(AUTOMATION_INDEX) in visits;
    forall base, paths | Dir(base, paths) in part ensures base in bases {
      assert Dir(base, paths) in visits;
    }
  }

  // ---- the names only become more ----

  lemma {:induction false} SumGrows<T>(f: T -> multiset<Visit>, g: T -> multiset<Visit>, things: seq<T>)
    requires forall thing | thing in things :: f(thing) <= g(thing)
    ensures Sum(f, things) <= Sum(g, things)
    decreases |things|
  {
    if things == [] {
    } else {
      SumGrows(f, g, things[..|things| - 1]);
    }
  }

  /** The names used only become more. */
  ghost predicate Growing<T(!new)>(plan: (View, T) -> multiset<Visit>) {
    forall v, v', thing :: Grows(v, v') ==> plan(v, thing) <= plan(v', thing)
  }

  /** All the rows of a listing, or none if it could not be read. */
  predicate AllOrNone<T(==)>(rows: seq<T>, all: seq<T>) { rows == [] || rows == all }

  lemma SumsGrow<T>(plan: (View, T) -> multiset<Visit>, plan': (View, T) -> multiset<Visit>, v: View, v': View,
                    things: seq<T>)
    requires forall thing | thing in things :: plan(v, thing) <= plan'(v', thing)
    ensures SumOver(plan, v, things) <= SumOver(plan', v', things)
  {
    SumGrows(thing => plan(v, thing), thing => plan'(v', thing), things);
  }

  lemma SumOverGrows<T(!new)>(plan: (View, T) -> multiset<Visit>, v: View, v': View, things: seq<T>, things': seq<T>)
    requires Growing(plan) && Grows(v, v') && AllOrNone(things, things')
    ensures SumOver(plan, v, things) <= SumOver(plan, v', things')
  {
    if things != [] { SumsGrow(plan, plan, v, v', things); }
  }

  lemma FilesPlanGrows(v: View, v': View, base: Text, metadata: Text)
    requires Grows(v, v')
    ensures FilesPlan(v, base, metadata) <= FilesPlan(v', base, metadata)
  {
  }

  lemma ProjectPlansGrow(n: Scheme, dir: seq<Text>, wsId: Text)
    ensures Growing(ProjectPlans(n, dir, wsId))
  {
    forall v, v', project | Grows(v, v')
      ensures ProjectPlans(n, dir, wsId)(v, project) <= ProjectPlans(n, dir, wsId)(v', project) {
      var pd := ProjectDir(n, dir, project);
      FilesPlanGrows(v, v', FileBase(pd), FileListing(pd));
    }
  }

  lemma ProjectsPlanGrows(n: Scheme, v: View, v': View, dir: seq<Text>, wsId: Text)
    requires Grows(v, v')
    ensures ProjectsPlan(n, v, dir, wsId) <= ProjectsPlan(n, v', dir, wsId)
  {
    ProjectPlansGrow(n, dir, wsId);
    SumOverGrows(ProjectPlans(n, dir, wsId), v, v', v.rows(ProjectListing(dir)), v'.rows(ProjectListing(dir)));
  }

  lemma VolumePlansGrow(n: Scheme, dir: seq<Text>)
    ensures Growing(VolumePlans(n, dir))
  {
    forall v, v', volume | Grows(v, v') ensures VolumePlans(n, dir)(v, volume) <= VolumePlans(n, dir)(v', volume) {
      FilesPlanGrows(v, v', VolumeBase(n, dir, volume), VolumeListing(n, dir, volume));
    }
  }

  lemma VolumesPlanGrows(n: Scheme, v: View, v': View, dir: seq<Text>)
    requires Grows(v, v')
    ensures VolumesPlan(n, v, dir) <= VolumesPlan(n, v', dir)
  {
    VolumePlansGrow(n, dir);
    SumOverGrows(VolumePlans(n, dir), v, v', v.rows(Volumes(dir)), v'.rows(Volumes(dir)));
  }

  lemma ThreadPlansGrow(n: Scheme, dir: seq<Text>, ws: Row)
    ensures Growing(ThreadPlans(n, dir, ws))
  {
    forall v, v', thread | Grows(v, v')
      ensures ThreadPlans(n, dir, ws)(v, thread) <= ThreadPlans(n, dir, ws)(v', thread)
    {
      VolumesPlanGrows(n, v, v', ThreadDir(n, dir, thread));
    }
  }

  lemma WorkspacePlanGrows(n: Scheme, v: View, v': View, ws: Row,
                           apps: seq<Row>, apps': seq<Row>, threads: seq<Row>, threads': seq<Row>)
    requires Grows(v, v') && AllOrNone(apps, apps') && AllOrNone(threads, threads')
    ensures WorkspacePlan(n, v, ws, apps, threads) <= WorkspacePlan(n, v', ws, apps', threads')
  {
    var dir := WorkspaceDir(n, ws);
    FilesPlanGrows(v, v', FileBase(dir), FileListing(dir));
    ProjectsPlanGrows(n, v, v', dir, ws.id);
    ThreadPlansGrow(n, dir, ws);
    SumOverGrows(AutomationPlans(dir), v, v', KINDS, KINDS);
    SumOverGrows(AppPlans(n, dir, ws), v, v', apps, apps');
    SumOverGrows(ThreadPlans(n, dir, ws), v, v', threads, threads');
  }

  lemma WorkspacePlansGrow(n: Scheme, apps: seq<Row>, threads: seq<Row>)
    ensures Growing(WorkspacePlans(n, apps, threads))
  {
    forall v, v', ws | Grows(v, v')
      ensures WorkspacePlans(n, apps, threads)(v, ws) <= WorkspacePlans(n, apps, threads)(v', ws)
    {
      WorkspacePlanGrows(n, v, v', ws, apps, apps, threads, threads);
    }
  }

  lemma WorkspacesPlanGrows(n: Scheme, v: View, v': View, workspaces: seq<Row>, workspaces': seq<Row>,
                            apps: seq<Row>, apps': seq<Row>, threads: seq<Row>, threads': seq<Row>)
    requires Grows(v, v') && AllOrNone(workspaces, workspaces')
    requires AllOrNone(apps, apps') && AllOrNone(threads, threads')
    ensures SumOver(WorkspacePlans(n, apps, threads), v, workspaces)
         <= SumOver(WorkspacePlans(n, apps', threads'), v', workspaces')
  {
    if workspaces != [] {
      var plan, plan' := WorkspacePlans(n, apps, threads), WorkspacePlans(n, apps', threads');
      forall ws | ws in workspaces ensures plan(v, ws) <= plan'(v', ws) {
        WorkspacePlanGrows(n, v, v', ws, apps, apps', threads, threads');
      }
      SumsGrow(plan, plan', v, v', workspaces);
    }
  }

  lemma PlanGrows(n: Scheme, v: View, v': View, m: Manifest)
    requires Grows(v, v')
    ensures Plan(n, v, m) <= Plan(n, v', m)
  {
    SumOverGrows(SettingPlans(), v, v', m.keys, m.keys);
    SumOverGrows(RecordSetPlans(n), v, v', m.recordSets, m.recordSets);
    WorkspacesPlanGrows(n, v, v', RecordRows(n, v, m, WORKSPACE_SET), RecordRows(n, v', m, WORKSPACE_SET),
                        RecordRows(n, v, m, APP_SET), RecordRows(n, v', m, APP_SET),
                        v.rows(THREAD_LISTING), v'.rows(THREAD_LISTING));
  }

  lemma {:induction false} SumOfFront<T>(f: T -> multiset<Visit>, things: seq<T>, i: nat)
    requires i <= |things|
    ensures Sum(f, things[..i]) <= Sum(f, things)
    decreases |things|
  {
    if i == |things| {
      assert things[..i] == things;
    } else {
      SumOfFront(f, things[..|things| - 1], i);
      assert things[..|things| - 1][..i] == things[..i];
    }
  }

  lemma FrontIsLess<T>(plan: (View, T) -> multiset<Visit>, v: View, things: seq<T>, count: nat)
    requires count <= |things|
    ensures SumOver(plan, v, things[..count]) <= SumOver(plan, v, things)
  {
    SumOfFront(thing => plan(v, thing), things, count);
  }

  // ---- doing one thing after another ----

  /** Once it holds it goes on holding. */
  ghost predicate Lasting<T(!new)>(holds: (View, T) -> bool) {
    forall v, v', thing :: Refines(v, v') && holds(v, thing) ==> holds(v', thing)
  }

  function ProjectsHere(n: Scheme, dir: seq<Text>, wsId: Text): (View, Row) -> bool {
    (v, project) => ProjectHolds(n, v, dir, wsId, project)
  }

  function AppsHere(n: Scheme, dir: seq<Text>, ws: Row): (View, Row) -> bool {
    (v, app) => AppHolds(n, v, dir, ws, app)
  }

  function VolumesHere(n: Scheme, dir: seq<Text>): (View, Row) -> bool {
    (v, volume) => VolumeHolds(n, v, dir, volume)
  }

  function AutomationsHere(dir: seq<Text>): (View, Text) -> bool {
    (v, kind) => AutomationHolds(v, dir, kind)
  }

  function WorkspacesHere(n: Scheme, apps: seq<Row>, threads: seq<Row>): (View, Row) -> bool {
    (v, ws) => WorkspaceHolds(n, v, ws, apps, threads)
  }

  lemma ThingsLast(n: Scheme, dir: seq<Text>, ws: Row, apps: seq<Row>, threads: seq<Row>)
    ensures Lasting(ProjectsHere(n, dir, ws.id)) && Lasting(AppsHere(n, dir, ws)) && Lasting(VolumesHere(n, dir))
    ensures Lasting(AutomationsHere(dir)) && Lasting(WorkspacesHere(n, apps, threads))
  {
    forall v, v', r | Refines(v, v') && ProjectsHere(n, dir, ws.id)(v, r)
      ensures ProjectsHere(n, dir, ws.id)(v', r)
    {
      ProjectStays(n, v, v', dir, ws.id, r);
    }
    forall v, v', r | Refines(v, v') && VolumesHere(n, dir)(v, r) ensures VolumesHere(n, dir)(v', r) {
      FilesStay(v, v', VolumeBase(n, dir, r), VolumeListing(n, dir, r));
    }
    forall v, v', r | Refines(v, v') && WorkspacesHere(n, apps, threads)(v, r)
      ensures WorkspacesHere(n, apps, threads)(v', r)
    {
      WorkspaceStays(n, v, v', r, apps, threads);
    }
  }
}
