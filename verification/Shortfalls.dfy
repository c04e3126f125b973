/** Where runs fall short of what one might expect of them, each at an input. */
module Shortfalls {
  import opened JsText
  import opened Options
  import opened PathTree
  import opened CustomerPaths
  import opened ExportStates
  import opened Layout
  import opened Writer
  import opened Archive
  import opened Progress
  import opened Walk

  /** An object of one workspace whose warning stands from the last run blocks the walk over the
      objects of another workspace that comes first, although this time it is taken, and nothing
      goes wrong. The export stays incomplete for the first walk's sake. */
  lemma StandingWarningBlocks(n: Scheme, w0: World, w1: World, w2: World, who1: Walker, who2: Walker,
                              scope1: Scope, scope2: Scope, item: Text)
    requires WalkId(who1) != WalkId(who2) && Within(w1) && Within(w2) && Booked(w2)
    requires WalkId(who1) !in w0.state.finished && Moves(w0, w1) && ObjectsWalked(n, w0, w1, who1, scope1)
    requires WalkId(who2) !in w1.state.finished && Moves(w1, w2) && ObjectsWalked(n, w1, w2, who2, scope2)
    requires w2.flying == {} && w2.torn == {} && w2.faults == {}
    requires item in w0.state.warnings && Below(R2, item) && item !in w0.reached
    requires !ObjectOf(n, w1.state.claims, AnswerOf(who1.project.Some?, scope1).pages, item)
    requires forall key | key in w0.state.warnings && Below(R2, key) :: key in w2.reached
    ensures NoObjectWarning(w2) && WalkId(who2) !in w2.state.warnings && WalkId(who1) in w2.state.warnings
  {
    var id1, id2 := WalkId(who1), WalkId(who2);
    WalkIds(who1);
    WalkIds(who2);
    KindsOfIdsDiffer(id1);
    StandingWarningStays(n, w0, w1, id1, AnswerOf(who1.project.Some?, scope1), item);
    assert id1 in w1.blocked;
    assert id1 in w2.blocked by { assert id1 in w1.blocked - {id2}; }
    MovesOn(w0, w1, w2);
    ObjectsAllTaken(w0, w2);
  }

  lemma StandingWarningStays(n: Scheme, w0: World, w: World, id: Text, answer: Pages, item: Text)
    requires Moves(w0, w) && OnlyObjects(n, w0, w.(reached := w.reached - {id}), answer.pages) && item != id
    requires item in w0.state.warnings && Below(R2, item) && item !in w0.reached
    requires !ObjectOf(n, w.state.claims, answer.pages, item)
    ensures !NoObjectWarning(w)
  {
    assert item in w.reached ==> item in w.reached - {id};
    assert item in w.state.warnings;
  }

  lemma ObjectsAllTaken(w0: World, w: World)
    requires Moves(w0, w) && Within(w) && Booked(w) && w.flying == {} && w.torn == {} && w.faults == {}
    requires forall key | key in w0.state.warnings && Below(R2, key) :: key in w.reached
    ensures NoObjectWarning(w)
  {
    forall key | key in w.state.warnings ensures !Below(R2, key) {
      KindsOfIdsDiffer(key);
      assert Below(R2, key) && key in w0.state.warnings ==> key in w.reached;
    }
  }

  lemma ClaimOne(n: Scheme, st: ExportState, base: Text, key: Text)
    requires ClaimAll(n, st, base, [key]).jobs.Some?
    ensures var c := Call(base, key);
            var r := TreeCall(n, TableOf(st), c);
            && r.path.Some? && Assigned(n, r.table.claims, OriginOf(c), r.path.value)
            && ClaimAll(n, st, base, [key])
               == ClaimResult(WithTable(st, r.table), Some([Job(OriginOf(c), r.path.value)]))
  {
    var c := Call(base, key);
    var r := TreeCall(n, TableOf(st), c);
    TreeCallAssigns(n, TableOf(st), c);
    ClaimAllOnce(n, st, base, [key]);
    assert [key][1..] == [] && [key][0] == key;
    assert [Job(OriginOf(c), r.path.value)] + [] == [Job(OriginOf(c), r.path.value)];
  }

  /** A listing of one name that is claimed again gives the same job and claims nothing more. */
  lemma ClaimedAgain(n: Scheme, st: ExportState, again: ExportState, base: Text, key: Text)
    requires ClaimAll(n, st, base, [key]).jobs.Some?
    requires TableOf(again) == TableOf(ClaimAll(n, st, base, [key]).state)
    ensures ClaimAll(n, again, base, [key]) == ClaimResult(again, ClaimAll(n, st, base, [key]).jobs)
  {
    ClaimOne(n, st, base, key);
    var c := Call(base, key);
    var r := TreeCall(n, TableOf(st), c);
    AskedAgain(n, r.table, c, r.path.value);
    assert WithTable(again, r.table) == again;
    ClaimAllOnce(n, again, base, [key]);
    assert [key][1..] == [] && [key][0] == key;
    assert [Job(OriginOf(c), r.path.value)] + [] == [Job(OriginOf(c), r.path.value)];
  }

  lemma ObjectIdIsBelow(n: Scheme, st: ExportState, key: Text)
    requires UsableScheme(n) && ClaimAll(n, st, R2_BASE, [key]).jobs.Some?
    ensures var id := ClaimAll(n, st, R2_BASE, [key]).jobs.value[0].relative; CustomerId(id) && Below(R2, id)
  {
    ClaimOne(n, st, R2_BASE, key);
    ObjectDirIsCustomerDir();
    var r := TreeCall(n, TableOf(st), Call(R2_BASE, key));
    CustomerPathIsCustomerId(n, r.table.claims, OriginOf(Call(R2_BASE, key)), r.path.value);
    AssignedIsUnder(n, {R2_BASE}, r.table.claims, OriginOf(Call(R2_BASE, key)), r.path.value);
    assert R2 + [SLASH] <= R2_BASE + [SLASH];
  }

  /** It happens: the export starts with one object's warning left, which blocks the first walk, the
      second takes the object and ends well, and the first walk's warning is all that is left. */
  lemma StandingWarningHappens(n: Scheme, server: Server, key: Text, who1: Walker, who2: Walker, before: Text,
                              error: Text)
    requires WalkId(who1) != WalkId(who2) && UsableScheme(n)
    requires ClaimAll(n, NEW_EXPORT, R2_BASE, [key]).jobs.Some?
    ensures var job := ClaimAll(n, NEW_EXPORT, R2_BASE, [key]).jobs.value[0];
            var w0 := Opened(server, LeftByFailure(n, server, key, before), map[]);
            var w1 := WalkEnded(w0, who1, false, ObjectsLacking(error), Scoped([]));
            var claimed := ClaimedWorld(n, w1, R2_BASE, [key], false);
            var taken := TakenWorld(Downloaded(claimed, job), [key]);
            var w2 := WalkEnded(taken, who2, false, AllTaken, Scoped([Prefix([], Pages([[key]], true))]));
            && ClaimAll(n, w1.state, R2_BASE, [key]).jobs == Some([job])
            && !NoObjectWarning(w0) && NoObjectWarning(taken)
            && w2.faults == {} && w2.torn == {} && w2.state.warnings.Keys == {WalkId(who1)}
  {
    var job := ClaimAll(n, NEW_EXPORT, R2_BASE, [key]).jobs.value[0];
    var w0 := Opened(server, LeftByFailure(n, server, key, before), map[]);
    var w1 := WalkEnded(w0, who1, false, ObjectsLacking(error), Scoped([]));
    WalkIds(who1);
    ObjectIdIsBelow(n, NEW_EXPORT, key);
    ClaimedAgain(n, NEW_EXPORT, w1.state, R2_BASE, key);
    assert ClaimAll(n, NEW_EXPORT, R2_BASE, [key]).jobs.value == [job];
    assert job.relative in w0.state.warnings;
    TakenAtLast(ClaimedWorld(n, w1, R2_BASE, [key], false), job, key, who1, who2);
  }

  /** A download from start to end. */
  function Downloaded(w: World, job: Job): World {
    EndWorld(PlaceWorld(BeginWorld(w, job.relative), job), job.relative, None, false)
  }

  /** What a run leaves that claims the path of one object and then fails to download it. */
  function LeftByFailure(n: Scheme, server: Server, key: Text, error: Text): ExportState
    requires ClaimAll(n, NEW_EXPORT, R2_BASE, [key]).jobs.Some?
  {
    var r := ClaimAll(n, NEW_EXPORT, R2_BASE, [key]);
    var claimed := ClaimedWorld(n, Opened(server, NEW_EXPORT, map[]), R2_BASE, [key], false);
    EndWorld(BeginWorld(claimed, r.jobs.value[0].relative), r.jobs.value[0].relative, Some(error), false).state
  }

  /** The second walk takes the object, whose warning goes. */
  lemma TakenAtLast(w: World, job: Job, key: Text, who1: Walker, who2: Walker)
    requires WalkId(who1) != WalkId(who2) && CustomerId(job.relative)
    requires w.state.finished == map[] && w.state.warnings.Keys == {job.relative, WalkId(who1)}
    requires w.blocked == {WalkId(who1)}
    requires w.faults == {} && w.torn == {} && w.flying == {}
    ensures var taken := TakenWorld(Downloaded(w, job), [key]);
            var w2 := WalkEnded(taken, who2, false, AllTaken, Scoped([Prefix([], Pages([[key]], true))]));
            NoObjectWarning(taken) && w2.faults == {} && w2.torn == {} && w2.state.warnings.Keys == {WalkId(who1)}
  {
    WalkIds(who1);
    WalkIds(who2);
    KindsOfIdsDiffer(WalkId(who1));
    KindsOfIdsDiffer(WalkId(who2));
    KindsOfIdsDiffer(job.relative);
  }

  /** The same two walks once more: with no object's warning left, neither is blocked. */
  lemma NextRunIsNotBlocked(n: Scheme, w0: World, w: World, who: Walker, scope: Scope)
    requires WalkId(who) !in w0.state.finished && ObjectsWalked(n, w0, w, who, scope) && Moves(w0, w)
    requires NoObjectWarning(w0) && NoObjectFault(w)
    ensures var id, answer := WalkId(who), AnswerOf(who.project.Some?, scope);
            && ScopeTells(who.project.Some?, scope, answer) && id !in w.blocked
            && (id in w.lacking <==> !(answer.ended && w.listed == w0.listed + answer.pages))
  {
  }

  /** A manifest key `threads` has the file of the thread listing. Once its value is stored there,
      the listing is never asked for, whatever the server would answer. */
  lemma ManifestKeyTakesThreads(w: World, key: Text, value: seq<Row>, count: int, rows: seq<Row>, how: How)
    requires key == Lit("threads")
    requires var w1 := ItemWorld(w, SettingFile(key), Leaf(SettingFile(key), key), Listing(value), Stored(count));
             how.Skipped? <==> Skippable(w1, THREAD_LISTING)
    ensures var w1 := ItemWorld(w, SettingFile(key), Leaf(SettingFile(key), key), Listing(value), Stored(count));
            var w2 := ItemWorld(w1, THREAD_LISTING, List(THREAD_LISTING), Listing(rows), how);
            Readable(w2, THREAD_LISTING) && w2.files[THREAD_LISTING].rows == value
            && THREAD_LISTING !in w2.state.warnings
  {
    assert Lit("threads") + Lit(".json") == Lit("threads.json");
  }

  /** One volume mounted twice shares its directory but not its listings, and no names clash: what the
      first mount has taken, the second skips. */
  lemma TwoMountsAreWellNamed(n: Scheme, bases: set<Text>, v: View, dir: seq<Text>, first: Row, second: Row)
    requires UsableScheme(n) && ThreadNames(dir) && first.id == second.id && VolumeBase(n, dir, first) in bases
    requires VolumeListing(n, dir, first) != VolumeListing(n, dir, second)
    ensures VolumeBase(n, dir, first) == VolumeBase(n, dir, second)
    ensures WellNamed(bases, VolumePlan(n, v, dir, first) + VolumePlan(n, v, dir, second))
  {
    VolumeIds(n, dir, first);
    VolumeIds(n, dir, second);
    var id1, id2, base := VolumeListing(n, dir, first), VolumeListing(n, dir, second), VolumeBase(n, dir, first);
    var p, q := FilePaths(v.rows(id1)), FilePaths(v.rows(id2));
    TwoListingsAreWellNamed(bases, id1, id2, base, p, q);
    WellNamedParts(bases, VolumePlan(n, v, dir, first) + VolumePlan(n, v, dir, second),
                   multiset{List(id1), Dir(base, p), List(id2), Dir(base, q)});
  }

  lemma TwoListingsAreWellNamed(bases: set<Text>, id1: Text, id2: Text, base: Text, p: seq<Text>, q: seq<Text>)
    requires id1 != id2 && id1 != AUTOMATION_INDEX && id2 != AUTOMATION_INDEX && base in bases
    ensures WellNamed(bases, multiset{List(id1), Dir(base, p), List(id2), Dir(base, q)})
  {
  }

  /** Two volumes can share the file of their listings. */
  lemma VolumesShareListing(n: Scheme, dir: seq<Text>, a: Text, b: Text, c: Text, row: Row)
    ensures var first := row.(id := a + Lit("-") + b, path := c);
            var second := row.(id := a, path := b + Lit("-") + c);
            VolumeListing(n, dir, first) == VolumeListing(n, dir, second)
  {
    assert Lit("volume-") + (a + Lit("-") + b) + Lit("-") + c == Lit("volume-") + a + Lit("-") + (b + Lit("-") + c);
  }

  /** A second listing of one id takes back the warning of the first, although that stays unread; but
      then the names clash. */
  lemma SecondReadingHidesFirst(bases: set<Text>, w: World, id: Text, error: Text, written: bool, rows: seq<Row>,
                                count: int)
    requires OwnId(id) && !Skippable(w, id)
    ensures var w1 := ItemWorld(w, id, List(id), Listing(rows), Lacking(error, written));
            var w2 := ItemWorld(w1, id, List(id), Listing(rows), Stored(count));
            && !Skippable(w1, id) && id in w1.unread && id in w1.state.warnings
            && id in w2.unread && Readable(w2, id) && id !in w2.state.warnings
            && !WellNamed(bases, w2.visits)
  {
    var w1 := ItemWorld(w, id, List(id), Listing(rows), Lacking(error, written));
    var w2 := ItemWorld(w1, id, List(id), Listing(rows), Stored(count));
    assert List(id) in w2.visits && w2.visits[List(id)] >= 2;
  }

  // ---- two volumes with one listing ----

  /** A listing of one file in a new export: the file is claimed and downloaded. */
  function OneFileTaken(n: Scheme, w: World, base: Text, name: Text): World
    requires ClaimAll(n, w.state, base, [name]).jobs.Some?
  {
    Downloaded(ClaimedWorld(n, w, base, [name], true), ClaimAll(n, w.state, base, [name]).jobs.value[0])
  }

  lemma OneNameIsFree(n: Scheme, st: ExportState, base: Text, name: Text)
    requires st.claims == map[] && OneSegment(name) && name != []
    ensures ClaimAll(n, st, base, [name]).jobs.Some?
  {
    SplitOneSegment(name);
    AllNonEmpty([name]);
    assert [name][1..] == [] && Segments(name) == [name];
    assert !BothNamesTaken(n, map[], base, name, OwnerOf(true, base + [SLASH] + name));
    CallThrowsExactly(n, TableOf(st), Call(base, name));
    ClaimAllOnce(n, st, base, [name]);
    assert [name][0] == name;
  }

  /** Downloading one file leaves all else as it was. */
  lemma OneFileIsTaken(n: Scheme, w: World, base: Text, name: Text)
    requires UsableScheme(n) && CustomerDir(base) && ClaimAll(n, w.state, base, [name]).jobs.Some?
    requires w.state.finished.Keys !! {ClaimAll(n, w.state, base, [name]).jobs.value[0].relative}
    ensures var w', o := OneFileTaken(n, w, base, name), Origin(base, Segments(name));
            var path := ClaimAll(n, w.state, base, [name]).jobs.value[0].relative;
            && CustomerId(path) && PathOf(n, w'.state.claims, o) == Some(path) && ContentDone(n, w', o)
            && w'.files == w.files[path := CustomerFile(o)] && w'.reached == w.reached + {path}
            && w'.state.warnings == w.state.warnings - {path} && w'.flying == w.flying - {path}
            && w'.state.finished == w.state.finished[path := Record([path], 1)]
            && w'.visits == w.visits + multiset{Dir(base, [name])} && w'.written == w.written
  {
    ClaimOne(n, w.state, base, name);
    var r := TreeCall(n, TableOf(w.state), Call(base, name));
    var path := r.path.value;
    CustomerPathIsCustomerId(n, r.table.claims, OriginOf(Call(base, name)), path);
    DownloadedIsDone(ClaimedWorld(n, w, base, [name], true), Job(OriginOf(Call(base, name)), path));
  }

  lemma DownloadedIsDone(w: World, job: Job)
    requires job.relative !in w.state.finished
    ensures var w', path := Downloaded(w, job), job.relative;
            && w' == w.(files := w'.files, reached := w'.reached, state := w'.state, flying := w'.flying,
                        torn := w'.torn, lacking := w'.lacking)
            && w'.files == w.files[path := CustomerFile(job.origin)] && w'.reached == w.reached + {path}
            && w'.state == w.state.(finished := w.state.finished[path := Record([path], 1)],
                                    warnings := w.state.warnings - {path})
            && w'.flying == w.flying - {path} && Skippable(w', path)
  {
    assert w.state.finished - {job.relative} == w.state.finished;
  }

  lemma VolumeBasesDiffer(n: Scheme, dir: seq<Text>, first: Row, second: Row)
    requires UsableScheme(n) && ThreadNames(dir) && n.portable(first.id) != n.portable(second.id)
    ensures VolumeBase(n, dir, first) != VolumeBase(n, dir, second)
  {
    LiteralsAreSegments();
    var a, b := dir + [FILES, n.portable(first.id)], dir + [FILES, n.portable(second.id)];
    UsableSegment(n, first.id, []);
    UsableSegment(n, second.id, []);
    SplitAt(a);
    SplitAt(b);
    assert a[|a| - 1] != b[|b| - 1];
    assert ([WORKSPACES] + a)[|a|] != ([WORKSPACES] + b)[|b|];
  }

  /** The two volumes of `VolumesShareListing`, in a new export. */
  datatype Mounts = Two(first: Row, second: Row, file: Row)

  function TwoVolumes(row: Row, a: Text, b: Text, c: Text, name: Text): Mounts {
    Two(row.(id := a + Lit("-") + b, path := c), row.(id := a, path := b + Lit("-") + c),
        row.(path := name, isFile := true))
  }

  /** The first volume's listing fails; the second's, which has the same file, names one file. */
  function SecondListed(n: Scheme, server: Server, dir: seq<Text>, m: Mounts, error: Text, written: bool,
                        count: int): World {
    var id := VolumeListing(n, dir, m.first);
    var w1 := ItemWorld(Opened(server, NEW_EXPORT, map[]), id, List(id), Listing([m.file]), Lacking(error, written));
    ItemWorld(w1, id, List(id), Listing([m.file]), Stored(count))
  }

  lemma SecondIsListed(n: Scheme, server: Server, dir: seq<Text>, m: Mounts, error: Text, written: bool, count: int)
    ensures var w, id := SecondListed(n, server, dir, m, error, written, count), VolumeListing(n, dir, m.first);
            && w.state == NEW_EXPORT.(finished := map[id := Record([id], count)])
            && w.files == map[id := Listing([m.file])]
            && w.reached == {id} && w.flying == {} && w.torn == {} && w.written == map[]
            && w.visits == multiset{List(id), List(id)}
  {
  }

  /** At these volumes, the files of the first are missing from an archive without warnings: what stands for
      its listing is the second's, which the archive holds whole. But then the names clash. */
  lemma SharedListingHidesFiles(n: Scheme, server: Server, bases: set<Text>, dir: seq<Text>, row: Row, a: Text,
                                b: Text, c: Text, name: Text, error: Text, written: bool, count: int)
    requires UsableScheme(n) && ThreadNames(dir) && OneSegment(name) && name != []
    requires n.portable(a + Lit("-") + b) != n.portable(a)
    ensures var m := TwoVolumes(row, a, b, c, name);
            var listed := SecondListed(n, server, dir, m, error, written, count);
            var base := VolumeBase(n, dir, m.second);
            && VolumeListing(n, dir, m.first) == VolumeListing(n, dir, m.second)
            && ClaimAll(n, listed.state, base, [name]).jobs.Some?
            && var w := OneFileTaken(n, listed, base, name);
               && w.state.warnings == map[] && w.flying == {}
               && VolumeHolds(n, Held(n, w), dir, m.second) && !VolumeHolds(n, Held(n, w), dir, m.first)
               && !WellNamed(bases, w.visits)
  {
    var m := TwoVolumes(row, a, b, c, name);
    var listed := SecondListed(n, server, dir, m, error, written, count);
    var base := VolumeBase(n, dir, m.second);
    VolumesShareListing(n, dir, a, b, c, row);
    VolumeIds(n, dir, m.first);
    VolumeIds(n, dir, m.second);
    SecondIsListed(n, server, dir, m, error, written, count);
    OneNameIsFree(n, listed.state, base, name);
    NoOwnFileIsTaken(n, listed, base, name, VolumeListing(n, dir, m.first));
    OneFileIsTaken(n, listed, base, name);
    var w := OneFileTaken(n, listed, base, name);
    FilePathsOfOne(m.file);
    OnlySecondHolds(n, dir, m, w, VolumeListing(n, dir, m.first), name);
    assert List(VolumeListing(n, dir, m.first)) in w.visits && w.visits[List(VolumeListing(n, dir, m.first))] >= 2;
  }

  lemma FilePathsOfOne(file: Row)
    requires file.isFile
    ensures FilePaths([file]) == [file.path]
  {
    assert [file][1..] == [];
  }

  lemma NoOwnFileIsTaken(n: Scheme, w: World, base: Text, name: Text, id: Text)
    requires UsableScheme(n) && CustomerDir(base) && ClaimAll(n, w.state, base, [name]).jobs.Some?
    requires OwnId(id) && w.state.finished.Keys == {id}
    ensures w.state.finished.Keys !! {ClaimAll(n, w.state, base, [name]).jobs.value[0].relative}
  {
    ClaimOne(n, w.state, base, name);
    var r := TreeCall(n, TableOf(w.state), Call(base, name));
    CustomerPathIsCustomerId(n, r.table.claims, OriginOf(Call(base, name)), r.path.value);
    KindsOfIdsDiffer(id);
  }

  lemma OnlySecondHolds(n: Scheme, dir: seq<Text>, m: Mounts, w: World, id: Text, name: Text)
    requires UsableScheme(n) && ThreadNames(dir) && n.portable(m.first.id) != n.portable(m.second.id)
    requires id == VolumeListing(n, dir, m.first) == VolumeListing(n, dir, m.second) && ListingId(id)
    requires id in w.reached && Readable(w, id) && w.files[id].rows == [m.file] && FilePaths([m.file]) == [name]
    requires var o := Origin(VolumeBase(n, dir, m.second), Segments(name));
             ContentDone(n, w, o) && w.files.Keys == {id, PathOf(n, w.state.claims, o).value}
    ensures VolumeHolds(n, Held(n, w), dir, m.second) && !VolumeHolds(n, Held(n, w), dir, m.first)
  {
    VolumeBasesDiffer(n, dir, m.first, m.second);
    var names := [name];
    assert !Held(n, w).content(Origin(VolumeBase(n, dir, m.first), Segments(names[0])));
  }

  // ---- the automation index ----

  /** A record set or a manifest key `automations` is stored, and then overwritten by the automation index,
      without a warning; but no well-named archive has either. */
  lemma IndexOverwrites(n: Scheme, bases: set<Text>, w: World, id: Text, visit: Visit, rows: seq<Row>, count: int,
                        index: seq<Row>)
    requires VisitOf(visit, id)
    requires n.portable(Lit("automations.json")) == Lit("automations.json")
    requires id == SettingFile(Lit("automations")) || id == RecordSetFile(n, Lit("automations"))
    ensures var w1 := ItemWorld(w, id, visit, Listing(rows), Stored(count));
            var w2 := w1.(files := w1.files[AUTOMATION_INDEX := Listing(index)]);
            && Closes(w1, w2, {}) && w1.files[id] == Listing(rows) && w2.files[id] == Listing(index)
            && Skippable(w2, id) && id !in w2.state.warnings && !WellNamed(bases, w2.visits)
  {
    assert Lit("automations") + Lit(".json") == Lit("automations.json");
    var w1 := ItemWorld(w, id, visit, Listing(rows), Stored(count));
    assert visit in w1.visits;
  }

  // ---- a file named twice ----

  /** A listing that names one file twice can have it downloaded twice at once. If the one download
      succeeds and then the other fails, the file is finished and warned of, so that no later run
      does it again or takes the warning back. */
  lemma TornItemStaysWarned(w: World, job: Job, error: Text)
    requires !Skippable(w, job.relative) && job.relative !in w.flying
    ensures var id := job.relative;
            var begun := BeginWorld(BeginWorld(w, id), id);
            var one := EndWorld(PlaceWorld(begun, job), id, None, true);
            var both := EndWorld(one, id, Some(error), false);
            && id in both.torn && id in both.state.warnings && Skippable(both, id)
            && BeginWorld(both, id).state == both.state
  {
    var id := job.relative;
    var once := BeginWorld(w, id);
    assert !Skippable(once, id);
  }
}
