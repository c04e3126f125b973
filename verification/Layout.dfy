/** Where an export keeps its files: the ids of its own items, and the directories customer files
    are exported under. */
module Layout {
  import opened JsText
  import opened Options
  import opened PathTree
  import opened CustomerPaths

  function Lit(s: string): Text {
    seq(|s|, i requires 0 <= i < |s| => s[i] as int % 0x1_0000)
  }

  /** A listed row, with the fields some part of the walk reads. */
  datatype Row = Row(id: Text, title: Text, workspace: Text, path: Text, isFile: bool, agent: Option<Text>)

  datatype Manifest = Manifest(keys: seq<Text>, recordSets: seq<Text>)

  const ORG := Lit("org")
  const WORKSPACES := Lit("workspaces")
  const R2 := Lit("r2")
  const R2_BUCKET := Lit("R2_BUCKET")
  const FILES := Lit("files")
  const FILESYSTEM := Lit("filesystem.json")
  const PROJECTS := Lit("projects")
  const PROJECT_LISTING := Lit("projects.json")
  const APPS := Lit("apps")
  const KV := Lit("kv.jsonl")
  const THREADS := Lit("threads")
  const VOLUME_LISTING := Lit("volumes.json")
  const RECORD_SETS := Lit("record_sets")
  const KINDS := [Lit("prompts"), Lit("automations"), Lit("versions")]

  // ---- ids ----

  function OrgFile(name: Text): Text { ORG + [SLASH] + name }

  const SETTINGS := OrgFile(Lit("settings.json"))
  const THREAD_LISTING := OrgFile(Lit("threads.json"))
  const AUTOMATION_INDEX := OrgFile(Lit("automations.json"))

  function SettingFile(key: Text): Text { OrgFile(key + Lit(".json")) }

  function RecordSetFile(n: Scheme, recordSet: Text): Text { OrgFile(n.portable(recordSet + Lit(".json"))) }

  /** The path of these names below `workspaces`. */
  function At(names: seq<Text>): Text { Join(WORKSPACES, names) }

  function WorkspaceDir(n: Scheme, ws: Row): seq<Text> { [n.portable(ws.title + Lit("-") + ws.id)] }

  function ProjectName(n: Scheme, project: Row): Text { n.portable(project.title + Lit("-") + project.id) }

  function ProjectDir(n: Scheme, dir: seq<Text>, project: Row): seq<Text> { dir + [PROJECTS, ProjectName(n, project)] }

  function ThreadDir(n: Scheme, dir: seq<Text>, thread: Row): seq<Text> { dir + [THREADS, n.portable(thread.id)] }

  function AutomationFile(dir: seq<Text>, kind: Text): Text { At(dir + [Lit("automations-") + kind + Lit(".json")]) }

  function FileListing(dir: seq<Text>): Text { At(dir + [FILESYSTEM]) }

  function FileBase(dir: seq<Text>): Text { At(dir + [FILES]) }

  function ProjectListing(dir: seq<Text>): Text { At(dir + [PROJECT_LISTING]) }

  function Bundle(n: Scheme, dir: seq<Text>, project: Row): Text {
    At(dir + [PROJECTS, ProjectName(n, project) + Lit(".bundle")])
  }

  function AppFile(n: Scheme, dir: seq<Text>, app: Row): Text { At(dir + [APPS, n.portable(app.title), KV]) }

  function ThreadDetails(n: Scheme, dir: seq<Text>, thread: Row): Text {
    At(dir + [THREADS, n.portable(thread.id) + Lit(".json")])
  }

  function ThreadMessages(n: Scheme, dir: seq<Text>, thread: Row): Text {
    At(dir + [THREADS, n.portable(thread.id) + Lit(".jsonl")])
  }

  function Volumes(threadDir: seq<Text>): Text { At(threadDir + [VOLUME_LISTING]) }

  function VolumeListing(n: Scheme, threadDir: seq<Text>, volume: Row): Text {
    At(threadDir + [n.portable(Lit("volume-") + volume.id + Lit("-") + volume.path + Lit(".json"))])
  }

  function VolumeBase(n: Scheme, threadDir: seq<Text>, volume: Row): Text {
    At(threadDir + [FILES, n.portable(volume.id)])
  }

  const R2_BASE := R2 + [SLASH] + R2_BUCKET

  // ---- the paths spelled out ----

  lemma OrgPaths(n: Scheme, key: Text, recordSet: Text)
    ensures SettingFile(key) == Lit("org/") + key + Lit(".json")
    ensures RecordSetFile(n, recordSet) == Lit("org/") + n.portable(recordSet + Lit(".json"))
  {
    assert Lit("org") + [SLASH] == Lit("org/");
    assert Lit("org/") + (key + Lit(".json")) == Lit("org/") + key + Lit(".json");
  }

  lemma OrgListings()
    ensures SETTINGS == Lit("org/settings.json") && THREAD_LISTING == Lit("org/threads.json")
  {
    assert Lit("org") + [SLASH] == Lit("org/");
    assert Lit("org/") + Lit("settings.json") == Lit("org/settings.json");
    assert Lit("org/") + Lit("threads.json") == Lit("org/threads.json");
  }

  lemma IndexPath()
    ensures AUTOMATION_INDEX == Lit("org/automations.json")
  {
    assert Lit("org") + [SLASH] == Lit("org/");
    assert Lit("org/") + Lit("automations.json") == Lit("org/automations.json");
  }

  lemma ObjectPaths(who: Walker)
    ensures R2_BASE == Lit("r2/R2_BUCKET")
    ensures var project := if who.project == None then [] else who.project.value;
            WalkId(who) == Lit("r2-walk:") + who.workspace + Lit(":") + project
  {
    assert Lit("r2") + [SLASH] == Lit("r2/");
    assert Lit("r2/") + Lit("R2_BUCKET") == Lit("r2/R2_BUCKET");
  }

  lemma AtOne(a: Text, b: Text)
    ensures At([a]) == Lit("workspaces/") + a && At([a, b]) == Lit("workspaces/") + a + Lit("/") + b
  {
    assert Lit("workspaces") + Lit("/") == Lit("workspaces/");
    JoinFew(WORKSPACES, a, b, []);
  }

  /** A path with more names. */
  lemma AtMore(names: seq<Text>, more: seq<Text>)
    ensures At(names + more) == Join(At(names), more)
  {
    JoinInParts(WORKSPACES, names, more);
  }

  lemma {:induction false} JoinInParts(base: Text, names: seq<Text>, more: seq<Text>)
    ensures Join(base, names + more) == Join(Join(base, names), more)
    decreases |names|
  {
    if names == [] {
      assert names + more == more;
    } else {
      JoinInParts(base + [SLASH] + names[0], names[1..], more);
      assert (names + more)[1..] == names[1..] + more;
    }
  }

  lemma JoinFew(base: Text, a: Text, b: Text, c: Text)
    ensures Join(base, [a]) == base + Lit("/") + a && Join(base, [a, b]) == base + Lit("/") + a + Lit("/") + b
    ensures Join(base, [a, b, c]) == base + Lit("/") + a + Lit("/") + b + Lit("/") + c
  {
    assert Lit("/") == [SLASH];
    var one := base + [SLASH] + a;
    var two := one + [SLASH] + b;
    assert [a][1..] == [] && Join(base, [a]) == Join(one, []);
    assert [b][1..] == [] && Join(one, [b]) == Join(two, []);
    assert [c][1..] == [] && Join(two, [c]) == Join(two + [SLASH] + c, []);
    assert [a, b][1..] == [b] && Join(base, [a, b]) == Join(one, [b]);
    assert [b, c][1..] == [c] && Join(one, [b, c]) == Join(two, [c]);
    assert [a, b, c][1..] == [b, c] && Join(base, [a, b, c]) == Join(one, [b, c]);
  }

  lemma FilePathsSpelled(dir: seq<Text>, kind: Text)
    ensures var d := At(dir);
            && FileListing(dir) == d + Lit("/filesystem.json") && FileBase(dir) == d + Lit("/files")
            && ProjectListing(dir) == d + Lit("/projects.json") && Volumes(dir) == d + Lit("/volumes.json")
            && AutomationFile(dir, kind) == d + Lit("/automations-") + kind + Lit(".json")
  {
    var d := At(dir);
    OneMoreName(dir, FILESYSTEM);
    OneMoreName(dir, FILES);
    OneMoreName(dir, PROJECT_LISTING);
    OneMoreName(dir, VOLUME_LISTING);
    AutomationSpelled(dir, kind);
    assert Lit("/") + Lit("filesystem.json") == Lit("/filesystem.json") && Lit("/") + Lit("files") == Lit("/files");
    assert Lit("/") + Lit("projects.json") == Lit("/projects.json");
    assert Lit("/") + Lit("volumes.json") == Lit("/volumes.json");
  }

  lemma AutomationSpelled(dir: seq<Text>, kind: Text)
    ensures AutomationFile(dir, kind) == At(dir) + Lit("/automations-") + kind + Lit(".json")
  {
    OneMoreName(dir, Lit("automations-") + kind + Lit(".json"));
    assert Lit("/") + Lit("automations-") == Lit("/automations-");
    assert Lit("/") + (Lit("automations-") + kind + Lit(".json")) == Lit("/automations-") + kind + Lit(".json");
  }

  lemma OneMoreName(dir: seq<Text>, name: Text)
    ensures At(dir + [name]) == At(dir) + (Lit("/") + name)
  {
    AtMore(dir, [name]);
    JoinFew(At(dir), name, [], []);
  }

  lemma DirsSpelled(n: Scheme, ws: Row, project: Row, thread: Row)
    ensures var d := Lit("workspaces/") + n.portable(ws.title + Lit("-") + ws.id);
            && At(WorkspaceDir(n, ws)) == d
            && At(ProjectDir(n, WorkspaceDir(n, ws), project))
               == d + Lit("/projects/") + n.portable(project.title + Lit("-") + project.id)
            && At(ThreadDir(n, WorkspaceDir(n, ws), thread)) == d + Lit("/threads/") + n.portable(thread.id)
  {
    var d, dir := Lit("workspaces/") + n.portable(ws.title + Lit("-") + ws.id), WorkspaceDir(n, ws);
    AtOne(dir[0], []);
    AtMore(dir, [PROJECTS, ProjectName(n, project)]);
    AtMore(dir, [THREADS, n.portable(thread.id)]);
    JoinFew(d, PROJECTS, ProjectName(n, project), []);
    JoinFew(d, THREADS, n.portable(thread.id), []);
    assert Lit("/") + Lit("projects") + Lit("/") == Lit("/projects/");
    assert Lit("/") + Lit("threads") + Lit("/") == Lit("/threads/");
    assert d + Lit("/") + Lit("projects") + Lit("/") == d + (Lit("/") + Lit("projects") + Lit("/"));
    assert d + Lit("/") + Lit("threads") + Lit("/") == d + (Lit("/") + Lit("threads") + Lit("/"));
  }

  lemma ItemsSpelled(n: Scheme, dir: seq<Text>, project: Row, app: Row, thread: Row, volume: Row)
    ensures var d := At(dir);
            && Bundle(n, dir, project)
               == d + Lit("/projects/") + (n.portable(project.title + Lit("-") + project.id) + Lit(".bundle"))
            && AppFile(n, dir, app) == d + Lit("/apps/") + n.portable(app.title) + Lit("/kv.jsonl")
            && ThreadDetails(n, dir, thread) == d + Lit("/threads/") + (n.portable(thread.id) + Lit(".json"))
            && ThreadMessages(n, dir, thread) == d + Lit("/threads/") + (n.portable(thread.id) + Lit(".jsonl"))
            && VolumeListing(n, dir, volume)
               == d + Lit("/") + n.portable(Lit("volume-") + volume.id + Lit("-") + volume.path + Lit(".json"))
            && VolumeBase(n, dir, volume) == d + Lit("/files/") + n.portable(volume.id)
  {
    var d := At(dir);
    TwoMore(dir, PROJECTS, ProjectName(n, project) + Lit(".bundle"));
    TwoMore(dir, THREADS, n.portable(thread.id) + Lit(".json"));
    TwoMore(dir, THREADS, n.portable(thread.id) + Lit(".jsonl"));
    TwoMore(dir, FILES, n.portable(volume.id));
    AtMore(dir, [n.portable(Lit("volume-") + volume.id + Lit("-") + volume.path + Lit(".json"))]);
    JoinFew(d, n.portable(Lit("volume-") + volume.id + Lit("-") + volume.path + Lit(".json")), [], []);
    AtMore(dir, [APPS, n.portable(app.title), KV]);
    JoinFew(d, APPS, n.portable(app.title), KV);
    assert Lit("/") + Lit("projects") + Lit("/") == Lit("/projects/");
    assert Lit("/") + Lit("threads") + Lit("/") == Lit("/threads/");
    assert Lit("/") + Lit("files") + Lit("/") == Lit("/files/");
    assert Lit("/") + Lit("apps") + Lit("/") == Lit("/apps/") && Lit("/") + Lit("kv.jsonl") == Lit("/kv.jsonl");
    InFiveParts(d, Lit("apps"), n.portable(app.title), Lit("kv.jsonl"));
  }

  lemma TwoMore(dir: seq<Text>, word: Text, name: Text)
    ensures At(dir + [word, name]) == At(dir) + (Lit("/") + word + Lit("/")) + name
  {
    AtMore(dir, [word, name]);
    JoinFew(At(dir), word, name, []);
    assert At(dir) + Lit("/") + word + Lit("/") == At(dir) + (Lit("/") + word + Lit("/"));
  }

  lemma InFiveParts(d: Text, a: Text, b: Text, c: Text)
    ensures d + Lit("/") + a + Lit("/") + b + Lit("/") + c == d + (Lit("/") + a + Lit("/")) + b + (Lit("/") + c)
  {
    assert d + Lit("/") + a + Lit("/") == d + (Lit("/") + a + Lit("/"));
  }

  // ---- kinds of ids ----

  /** The directories customer files are exported under, by their segments. */
  predicate CustomerDirSegments(s: seq<Text>) {
    || s == [R2, R2_BUCKET]
    || (|s| == 3 && s[0] == WORKSPACES && s[2] == FILES)
    || (|s| == 5 && s[0] == WORKSPACES && s[2] == PROJECTS && s[4] == FILES)
    || (|s| == 6 && s[0] == WORKSPACES && s[2] == THREADS && s[4] == FILES)
  }

  predicate CustomerDir(base: Text) { CustomerDirSegments(Split(base)) }

  predicate InsideCustomerDir(s: seq<Text>) {
    exists k | 0 <= k < |s| :: CustomerDirSegments(s[..k])
  }

  predicate Below(dir: Text, id: Text) { dir + [SLASH] <= id }

  /** The id of an item of the export's own, which is also where its file goes. */
  predicate OwnId(id: Text) { (Below(ORG, id) || Below(WORKSPACES, id)) && !InsideCustomerDir(Split(id)) }

  /** The listings of the export's own, but for the automation index, which is written last. */
  predicate ListingId(id: Text) { OwnId(id) && id != AUTOMATION_INDEX }

  /** The path of a customer file. */
  predicate CustomerId(id: Text) { (Below(WORKSPACES, id) || Below(R2, id)) && InsideCustomerDir(Split(id)) }

  const OBJECT_WALK := Lit("r2-walk:")

  /** The id of a walk over stored objects. */
  predicate ObjectWalkId(id: Text) { OBJECT_WALK <= id }

  /** For what stored objects are walked: a workspace, or one of its projects. */
  datatype Walker = Walker(workspace: Text, project: Option<Text>)

  function WalkId(who: Walker): Text {
    OBJECT_WALK + who.workspace + Lit(":") + if who.project.Some? then who.project.value else []
  }

  /** A project's walk leaves out all other prefixes: those are its workspace's. */
  const PROJECT_PREFIX := Lit("project-fs/")

  const WALK := Lit("walk")
  const THREAD_NOTE := Lit("thread:")

  /** A warning that is no item's: of the whole walk, or of a thread. */
  predicate NoteId(id: Text) { id == WALK || THREAD_NOTE <= id }

  predicate Mark(id: Text, i: nat, u: CodeUnit) { i < |id| && id[i] == u }

  /** What the first letters of an id tell. */
  lemma Marks(id: Text)
    ensures Below(ORG, id) ==> Mark(id, 0, 0x6F)
    ensures Below(WORKSPACES, id) ==> Mark(id, 0, 0x77) && Mark(id, 1, 0x6F)
    ensures Below(R2, id) ==> Mark(id, 0, 0x72) && Mark(id, 2, SLASH)
    ensures ObjectWalkId(id) ==> Mark(id, 0, 0x72) && Mark(id, 2, 0x2D)
    ensures id == WALK ==> Mark(id, 0, 0x77) && Mark(id, 1, 0x61)
    ensures THREAD_NOTE <= id ==> Mark(id, 0, 0x74)
  {
    assert (ORG + [SLASH])[0] == 0x6F;
    assert (WORKSPACES + [SLASH])[0] == 0x77 && (WORKSPACES + [SLASH])[1] == 0x6F;
    assert (R2 + [SLASH])[0] == 0x72 && (R2 + [SLASH])[2] == SLASH;
    assert OBJECT_WALK[0] == 0x72 && OBJECT_WALK[2] == 0x2D;
    assert WALK[0] == 0x77 && WALK[1] == 0x61 && THREAD_NOTE[0] == 0x74;
  }

  lemma KindsOfIdsDiffer(id: Text)
    ensures OwnId(id) || CustomerId(id) ==> !ObjectWalkId(id) && !NoteId(id) && !(OwnId(id) && CustomerId(id))
    ensures OwnId(id) || ObjectWalkId(id) ==> !Below(R2, id)
    ensures ObjectWalkId(id) ==> !NoteId(id)
  {
    Marks(id);
  }

  // ---- where names lead ----

  lemma LiteralsAreSegments()
    ensures OneSegment(ORG) && OneSegment(WORKSPACES) && OneSegment(R2) && OneSegment(R2_BUCKET)
    ensures OneSegment(FILES) && OneSegment(FILESYSTEM) && OneSegment(PROJECTS) && OneSegment(PROJECT_LISTING)
    ensures OneSegment(APPS) && OneSegment(KV) && OneSegment(THREADS) && OneSegment(VOLUME_LISTING)
  {
  }

  predicate AllSegments(names: seq<Text>) { forall i | 0 <= i < |names| :: OneSegment(names[i]) }

  lemma SplitAt(names: seq<Text>)
    requires AllSegments(names)
    ensures Split(At(names)) == [WORKSPACES] + names
    ensures names != [] ==> Below(WORKSPACES, At(names))
  {
    LiteralsAreSegments();
    SplitOfJoin(WORKSPACES, names);
    SplitOneSegment(WORKSPACES);
    if names != [] {
      JoinStartsWith(WORKSPACES + [SLASH] + names[0], names[1..]);
    }
  }

  lemma WordsDiffer()
    ensures FILES != PROJECTS && FILES != THREADS && FILES != APPS && PROJECTS != THREADS && R2 != WORKSPACES
    ensures R2 != ORG && WORKSPACES != ORG
  {
    assert FILES[0] != PROJECTS[0] && FILES[0] != THREADS[0] && FILES[0] != APPS[0] && PROJECTS[0] != THREADS[0];
    assert R2[0] != WORKSPACES[0] && R2[0] != ORG[0] && WORKSPACES[0] != ORG[0];
  }

  /** Few names, and no customer directory among them, make an id of the export's own. */
  lemma OwnAt(names: seq<Text>)
    requires AllSegments(names) && 2 <= |names| <= 4 && (|names| > 2 ==> names[1] != FILES)
    ensures ListingId(At(names))
  {
    SplitAt(names);
    WordsDiffer();
    Marks(At(names));
    Marks(AUTOMATION_INDEX);
    var s := [WORKSPACES] + names;
    forall k | 0 <= k < |s| ensures !CustomerDirSegments(s[..k]) {
      if |s[..k]| >= 1 { assert s[..k][0] == WORKSPACES; }
      if |s[..k]| == 3 { assert s[..k][2] == names[1]; }
    }
  }

  lemma OwnInOrg(name: Text)
    ensures OwnId(OrgFile(name))
  {
    LiteralsAreSegments();
    WordsDiffer();
    SplitAtSlash(ORG, name);
    SplitOneSegment(ORG);
    var s := Split(OrgFile(name));
    assert s[0] == ORG;
    forall k | 0 <= k < |s| ensures !CustomerDirSegments(s[..k]) {
      if |s[..k]| >= 1 { assert s[..k][0] == ORG; }
    }
  }

  // ---- the walk's own ids and directories ----

  predicate OneName(dir: seq<Text>) { |dir| == 1 && OneSegment(dir[0]) }

  predicate ProjectNames(dir: seq<Text>) { |dir| == 3 && AllSegments(dir) && dir[1] == PROJECTS }

  predicate ThreadNames(dir: seq<Text>) { |dir| == 3 && AllSegments(dir) && dir[1] == THREADS }

  lemma UsableSegment(n: Scheme, s: Text, ending: Text)
    requires UsableScheme(n) && OneSegment(ending)
    ensures OneSegment(n.portable(s)) && OneSegment(n.portable(s) + ending)
  {
    assert UsableName(n.portable(s));
  }

  lemma WorkspaceNames(n: Scheme, ws: Row)
    requires UsableScheme(n)
    ensures OneName(WorkspaceDir(n, ws))
  {
    UsableSegment(n, ws.title + Lit("-") + ws.id, []);
  }

  lemma ProjectDirNames(n: Scheme, dir: seq<Text>, project: Row)
    requires UsableScheme(n) && OneName(dir)
    ensures ProjectNames(ProjectDir(n, dir, project))
  {
    LiteralsAreSegments();
    UsableSegment(n, project.title + Lit("-") + project.id, []);
  }

  lemma WalkIds(who: Walker)
    ensures ObjectWalkId(WalkId(who))
  {
  }

  lemma ThreadDirNames(n: Scheme, dir: seq<Text>, thread: Row)
    requires UsableScheme(n) && OneName(dir)
    ensures ThreadNames(ThreadDir(n, dir, thread))
  {
    LiteralsAreSegments();
    UsableSegment(n, thread.id, []);
  }

  lemma AutomationIds(dir: seq<Text>, kind: Text)
    requires OneName(dir) && kind in KINDS
    ensures ListingId(AutomationFile(dir, kind))
  {
    assert OneSegment(Lit("prompts")) && OneSegment(Lit("automations")) && OneSegment(Lit("versions"));
    AutomationName(kind);
    OwnAt(dir + [Lit("automations-") + kind + Lit(".json")]);
  }

  lemma AutomationName(kind: Text)
    requires OneSegment(kind)
    ensures OneSegment(Lit("automations-") + kind + Lit(".json"))
  {
    assert OneSegment(Lit("automations-")) && OneSegment(Lit(".json"));
  }

  lemma ListingIds(dir: seq<Text>)
    requires OneName(dir) || ProjectNames(dir)
    ensures ListingId(FileListing(dir)) && CustomerDir(FileBase(dir)) && Below(WORKSPACES, FileBase(dir))
    ensures OneName(dir) ==> ListingId(ProjectListing(dir))
  {
    LiteralsAreSegments();
    WordsDiffer();
    OwnAt(dir + [FILESYSTEM]);
    if OneName(dir) { OwnAt(dir + [PROJECT_LISTING]); }
    SplitAt(dir + [FILES]);
    var s := [WORKSPACES] + (dir + [FILES]);
    assert s[|s| - 1] == FILES && (ProjectNames(dir) ==> s[2] == PROJECTS);
  }

  lemma BundleIds(n: Scheme, dir: seq<Text>, project: Row)
    requires UsableScheme(n) && OneName(dir)
    ensures ListingId(Bundle(n, dir, project))
  {
    LiteralsAreSegments();
    WordsDiffer();
    assert OneSegment(Lit(".bundle"));
    UsableSegment(n, project.title + Lit("-") + project.id, Lit(".bundle"));
    OwnAt(dir + [PROJECTS, ProjectName(n, project) + Lit(".bundle")]);
  }

  lemma AppIds(n: Scheme, dir: seq<Text>, app: Row)
    requires UsableScheme(n) && OneName(dir)
    ensures ListingId(AppFile(n, dir, app))
  {
    LiteralsAreSegments();
    WordsDiffer();
    UsableSegment(n, app.title, []);
    OwnAt(dir + [APPS, n.portable(app.title), KV]);
  }

  lemma ThreadIds(n: Scheme, dir: seq<Text>, thread: Row)
    requires UsableScheme(n) && OneName(dir)
    ensures ListingId(ThreadDetails(n, dir, thread)) && ListingId(ThreadMessages(n, dir, thread))
  {
    LiteralsAreSegments();
    WordsDiffer();
    assert OneSegment(Lit(".json")) && OneSegment(Lit(".jsonl"));
    UsableSegment(n, thread.id, Lit(".json"));
    UsableSegment(n, thread.id, Lit(".jsonl"));
    OwnAt(dir + [THREADS, n.portable(thread.id) + Lit(".json")]);
    OwnAt(dir + [THREADS, n.portable(thread.id) + Lit(".jsonl")]);
  }

  lemma VolumeIds(n: Scheme, dir: seq<Text>, volume: Row)
    requires UsableScheme(n) && ThreadNames(dir)
    ensures ListingId(Volumes(dir)) && ListingId(VolumeListing(n, dir, volume))
    ensures CustomerDir(VolumeBase(n, dir, volume)) && Below(WORKSPACES, VolumeBase(n, dir, volume))
  {
    LiteralsAreSegments();
    WordsDiffer();
    OwnAt(dir + [VOLUME_LISTING]);
    UsableSegment(n, Lit("volume-") + volume.id + Lit("-") + volume.path + Lit(".json"), []);
    OwnAt(dir + [n.portable(Lit("volume-") + volume.id + Lit("-") + volume.path + Lit(".json"))]);
    UsableSegment(n, volume.id, []);
    SplitAt(dir + [FILES, n.portable(volume.id)]);
    var s := [WORKSPACES] + (dir + [FILES, n.portable(volume.id)]);
    assert s[2] == THREADS && s[4] == FILES;
  }

  lemma ObjectDirIsCustomerDir()
    ensures CustomerDir(R2_BASE)
  {
    LiteralsAreSegments();
    SplitAtSlash(R2, R2_BUCKET);
    SplitOneSegment(R2);
    SplitOneSegment(R2_BUCKET);
  }

  /** The files of a workspace's or project's directory, and those of a thread, are different files. */
  lemma OwnFilesDiffer(n: Scheme, dir: seq<Text>, thread: Row, kind: Text, other: Text)
    requires UsableScheme(n) && OneName(dir) && kind in KINDS && other in KINDS
    ensures FileListing(dir) != ProjectListing(dir) && FileListing(dir) != AutomationFile(dir, kind)
    ensures ProjectListing(dir) != AutomationFile(dir, kind)
    ensures kind != other ==> AutomationFile(dir, kind) != AutomationFile(dir, other)
    ensures ThreadDetails(n, dir, thread) != ThreadMessages(n, dir, thread)
    ensures Volumes(ThreadDir(n, dir, thread)) != ThreadDetails(n, dir, thread)
  {
    LiteralsAreSegments();
    var a, b := Lit("automations-") + kind + Lit(".json"), Lit("automations-") + other + Lit(".json");
    assert OneSegment(Lit("prompts")) && OneSegment(Lit("automations")) && OneSegment(Lit("versions"));
    AutomationName(kind);
    AutomationName(other);
    NamesTell(dir + [FILESYSTEM], dir + [PROJECT_LISTING]);
    NamesTell(dir + [FILESYSTEM], dir + [a]);
    NamesTell(dir + [PROJECT_LISTING], dir + [a]);
    NamesTell(dir + [a], dir + [b]);
    assert FILESYSTEM[0] != PROJECT_LISTING[0] && a[0] != FILESYSTEM[0] && a[0] != PROJECT_LISTING[0];
    if a == b { MiddleTells(Lit("automations-"), kind, other, Lit(".json")); }
    ThreadFilesDiffer(n, dir, thread);
  }

  lemma MiddleTells(a: Text, b: Text, c: Text, d: Text)
    requires a + b + d == a + c + d
    ensures b == c
  {
    assert |b| == |c|;
    assert b == (a + b + d)[|a|..|a| + |b|] == (a + c + d)[|a|..|a| + |c|] == c;
  }

  lemma ThreadFilesDiffer(n: Scheme, dir: seq<Text>, thread: Row)
    requires UsableScheme(n) && OneName(dir)
    ensures ThreadDetails(n, dir, thread) != ThreadMessages(n, dir, thread)
    ensures Volumes(ThreadDir(n, dir, thread)) != ThreadDetails(n, dir, thread)
  {
    LiteralsAreSegments();
    assert OneSegment(Lit(".json")) && OneSegment(Lit(".jsonl"));
    UsableSegment(n, thread.id, Lit(".json"));
    UsableSegment(n, thread.id, Lit(".jsonl"));
    UsableSegment(n, thread.id, []);
    var name := n.portable(thread.id);
    NamesTell(dir + [THREADS, name + Lit(".json")], dir + [THREADS, name + Lit(".jsonl")]);
    NamesTell(ThreadDir(n, dir, thread) + [VOLUME_LISTING], dir + [THREADS, name + Lit(".json")]);
    assert |name + Lit(".json")| != |name + Lit(".jsonl")|;
    assert (dir + [THREADS, name + Lit(".json")])[2] != (dir + [THREADS, name + Lit(".jsonl")])[2];
  }

  /** Different names lead to different places. */
  lemma NamesTell(a: seq<Text>, b: seq<Text>)
    requires AllSegments(a) && AllSegments(b)
    ensures At(a) == At(b) ==> a == b
  {
    SplitAt(a);
    SplitAt(b);
    assert a == ([WORKSPACES] + a)[1..] && b == ([WORKSPACES] + b)[1..];
  }

  // ---- what follows for customer files ----

  lemma {:induction false} SplitHead(s: Text)
    ensures |Split(s)| > 1 ==> Below(Split(s)[0], s)
    decreases |s|
  {
    if s == [] || s[0] == SLASH {
    } else {
      SplitHead(s[1..]);
      assert s == [s[0]] + s[1..];
      if |Split(s)| > 1 {
        assert Split(s)[0] + [SLASH] == [s[0]] + (Split(s[1..])[0] + [SLASH]);
      }
    }
  }

  /** A file given a path under a customer directory has the id of a customer file. */
  lemma CustomerPathIsCustomerId(p: Scheme, claims: Claims, o: Origin, path: Text)
    requires UsableScheme(p) && Assigned(p, claims, o, path) && CustomerDir(o.base)
    ensures CustomerId(path)
  {
    AssignedSplit(p, claims, o, path);
    var s := Split(path);
    assert s[..|Split(o.base)|] == Split(o.base);
    SplitHead(path);
    assert s[0] == Split(o.base)[0];
  }

  /** Nothing lies under a customer directory but what its segments say. */
  lemma UnderIsInside(base: Text, id: Text)
    requires CustomerDir(base) && Below(base, id)
    ensures InsideCustomerDir(Split(id))
  {
    var rest := id[|base| + 1..];
    assert id == base + [SLASH] + rest;
    SplitAtSlash(base, rest);
    assert Split(id)[..|Split(base)|] == Split(base);
  }

  // ---- the directories meet what is asked of them ----

  lemma WorkspacesPassesTarget()
    ensures TargetPart(WORKSPACES) && WORKSPACES[0] != SLASH
  {
    assert |WORKSPACES| == 10;
    assert forall i | 0 <= i < 10 :: WORKSPACES[i] != BACKSLASH && WORKSPACES[i] != NUL && WORKSPACES[i] != SLASH;
  }

  lemma PathsPassTarget(names: seq<Text>)
    requires forall i | 0 <= i < |names| :: UsableName(names[i])
    ensures PassesTarget(At(names))
  {
    LiteralsAreSegments();
    SplitAt(names);
    JoinStartsWith(WORKSPACES, names);
    assert At(names)[0] == WORKSPACES[0];
    WorkspacesPassesTarget();
    forall i | 0 <= i < |Split(At(names))| ensures TargetPart(Split(At(names))[i]) {
      if i > 0 { assert Split(At(names))[i] == names[i - 1] && UsableName(names[i - 1]); }
    }
  }

  lemma WordsPassTarget()
    ensures UsableName(FILES) && UsableName(PROJECTS) && UsableName(THREADS)
  {
    LiteralsAreSegments();
    assert |FILES| == 5 && |PROJECTS| == 8 && |THREADS| == 7;
  }

  /** Every directory the walk exports customer files under passes the checks of `target`. */
  lemma CustomerDirsPassTarget(n: Scheme, ws: Row, project: Row, thread: Row, volume: Row)
    requires UsableScheme(n)
    ensures var dir := WorkspaceDir(n, ws);
            && PassesTarget(FileBase(dir)) && PassesTarget(FileBase(ProjectDir(n, dir, project)))
            && PassesTarget(VolumeBase(n, ThreadDir(n, dir, thread), volume)) && PassesTarget(R2_BASE)
  {
    var dir := WorkspaceDir(n, ws);
    WordsPassTarget();
    assert UsableName(dir[0]) && UsableName(ProjectName(n, project));
    assert UsableName(n.portable(thread.id)) && UsableName(n.portable(volume.id));
    PathsPassTarget(dir + [FILES]);
    PathsPassTarget(ProjectDir(n, dir, project) + [FILES]);
    PathsPassTarget(ThreadDir(n, dir, thread) + [FILES, n.portable(volume.id)]);
    ObjectBasePassesTarget();
  }

  lemma ObjectBasePassesTarget()
    ensures PassesTarget(R2_BASE)
  {
    LiteralsAreSegments();
    SplitAtSlash(R2, R2_BUCKET);
    SplitOneSegment(R2);
    SplitOneSegment(R2_BUCKET);
    assert |R2| == 2 && R2[0] != DOT;
    BucketPassesTarget();
  }

  lemma BucketPassesTarget()
    ensures TargetPart(R2_BUCKET)
  {
    assert |R2_BUCKET| == 9;
    assert forall i | 0 <= i < 9 :: R2_BUCKET[i] != BACKSLASH && R2_BUCKET[i] != NUL;
  }

  /** The fold tells the export's own words apart. */
  predicate KeepsWords(p: Scheme) {
    && p.fold(R2) != p.fold(WORKSPACES) && p.fold(FILES) != p.fold(PROJECTS)
    && p.fold(FILES) != p.fold(THREADS) && p.fold(PROJECTS) != p.fold(THREADS)
  }

  /** Where their names differ, they differ up to folding. */
  predicate NamesApart(p: Scheme, b1: Text, b2: Text) {
    forall i | 0 <= i < |Split(b1)| && i < |Split(b2)| ::
      Split(b1)[i] != Split(b2)[i] ==> p.fold(Split(b1)[i]) != p.fold(Split(b2)[i])
  }

  lemma SplitTells(a: Text, b: Text)
    requires Split(a) == Split(b)
    ensures a == b
  {
    JoinOfSplit([], a);
    JoinOfSplit([], b);
    assert a == ([] + [SLASH] + a)[1..] == ([] + [SLASH] + b)[1..] == b;
  }

  /** So two customer directories are apart whenever the names in them that differ do so up to
      folding. */
  lemma CustomerDirsAreApart(p: Scheme, b1: Text, b2: Text)
    requires CustomerDir(b1) && CustomerDir(b2) && b1 != b2
    requires KeepsWords(p) && NamesApart(p, b1, b2)
    ensures Apart(p, b1, b2)
  {
    var s1, s2 := Split(b1), Split(b2);
    if |s1| == |s2| {
      if forall i | 0 <= i < |s1| :: s1[i] == s2[i] {
        assert s1 == s2;
        SplitTells(b1, b2);
      }
    } else if |s1| == 2 || |s2| == 2 {
      assert p.fold(s1[0]) != p.fold(s2[0]);
    } else {
      assert p.fold(s1[2]) != p.fold(s2[2]);
    }
  }
}
