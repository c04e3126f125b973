/** What a process finds when it resumes: the step system's promises, handed to the walk. */
module Resume {
  import opened JsText
  import opened Options
  import opened PathTree
  import opened CustomerPaths
  import opened ExportStates
  import opened Layout
  import opened Writer
  import opened Archive
  import opened Progress
  import opened Walk
  import opened Protocol
  import Ledger

  /** The export directory of a step system, with any other files it may hold beside. */
  predicate DirectoryOf(bases: set<Text>, s: System, files: map<Text, Content>) {
    forall path | path in files && Under(bases, path) :: path in s.files && files[path] == CustomerFile(s.files[path])
  }

  /** What the next process opens: the state on disk, or a new one, and these files. */
  function Resumed(server: Server, s: System, files: map<Text, Content>): World {
    Opened(server, if s.chain.disk.Some? then s.chain.disk.value else NEW_EXPORT, files)
  }

  lemma OpenedIsSound(n: Scheme, server: Server, bases: set<Text>, s: System, files: map<Text, Content>)
    requires Safe(n, bases, s) && DirectoryOf(bases, s, files)
    ensures Sound(n, bases, Resumed(server, s, files)) && WalksBare(Resumed(server, s, files).state)
  {
    CrashKeeps(n, bases, s);
    var s' := Apply(n, bases, s, Crash);
    assert FinishedOwned(n, bases, s'.chain.history[0]) && WalksBare(s'.chain.history[0]);
    forall path | path in files && Under(bases, path)
      ensures files[path].CustomerFile? && JobClaimed(n, bases, s'.chain.mem, Job(files[path].origin, path))
    {
      assert path in s.files;
    }
  }

  lemma OpenedIsSane(n: Scheme, server: Server, bases: set<Text>, s: System, files: map<Text, Content>)
    requires Safe(n, bases, s) && DirectoryOf(bases, s, files)
    ensures Sane(n, bases, Resumed(server, s, files))
  {
    OpenedIsSound(n, server, bases, s, files);
    SoundStartIsSane(n, bases, Resumed(server, s, files));
  }

  lemma SoundStartIsSane(n: Scheme, bases: set<Text>, w: World)
    requires w == Opened(w.server, w.state, w.files) && Sound(n, bases, w) && WalksBare(w.state)
    ensures Sane(n, bases, w)
  {
    assert Progress.Booked(w);
  }

  lemma ReachedIsSafe(n: Scheme, bases: set<Text>, steps: seq<Step>)
    requires Possible(n, bases, FIRST_RUN, steps)
    ensures Safe(n, bases, After(n, bases, FIRST_RUN, steps))
  {
    FirstRunIsSafe(n, bases);
    RunsStaySafe(n, bases, FIRST_RUN, steps);
  }

  /** However earlier runs went, and wherever they were cut off, a process that opens the export
      may start its walk: all that the walk asks of its start is met. */
  lemma ResumedExportIsSane(n: Scheme, server: Server, bases: set<Text>, steps: seq<Step>, files: map<Text, Content>)
    requires Possible(n, bases, FIRST_RUN, steps) && DirectoryOf(bases, After(n, bases, FIRST_RUN, steps), files)
    ensures Sane(n, bases, Resumed(server, After(n, bases, FIRST_RUN, steps), files))
  {
    ReachedIsSafe(n, bases, steps);
    OpenedIsSane(n, server, bases, After(n, bases, FIRST_RUN, steps), files);
  }

  lemma OrderlyIsSafe(n: Scheme, bases: set<Text>, steps: seq<Step>)
    requires Ledger.CustomerDirs(bases) && Ledger.Orderly(n, bases, FIRST_RUN, steps)
    ensures var s := Ledger.Booked(n, bases, FIRST_RUN, Ledger.NEW_BOOKS, steps).0;
            Safe(n, bases, s) && Ledger.ChainBalanced(s)
  {
    FirstRunIsSafe(n, bases);
    Ledger.FirstRunBalances();
    Ledger.RunsStayBalanced(n, bases, FIRST_RUN, Ledger.NEW_BOOKS, steps);
  }

  lemma BalancedOpensUntorn(server: Server, s: System, files: map<Text, Content>)
    requires Ledger.ChainBalanced(s)
    ensures Resumed(server, s, files).torn == {}
  {
    assert s.chain.disk.Some? ==> Ledger.Disjoint(s.chain.disk.value);
  }

  /** And if no two items of one id ever overlapped, it starts with no item torn, so that the
      warnings at its end are told exactly. */
  lemma OrderlyRunsTearNothing(n: Scheme, server: Server, bases: set<Text>, steps: seq<Step>, files: map<Text, Content>)
    requires Ledger.CustomerDirs(bases) && Ledger.Orderly(n, bases, FIRST_RUN, steps)
    requires DirectoryOf(bases, Ledger.Booked(n, bases, FIRST_RUN, Ledger.NEW_BOOKS, steps).0, files)
    ensures var w := Resumed(server, Ledger.Booked(n, bases, FIRST_RUN, Ledger.NEW_BOOKS, steps).0, files);
            Sane(n, bases, w) && w.torn == {}
  {
    OrderlyIsSafe(n, bases, steps);
    var s := Ledger.Booked(n, bases, FIRST_RUN, Ledger.NEW_BOOKS, steps).0;
    OpenedIsSane(n, server, bases, s, files);
    BalancedOpensUntorn(server, s, files);
  }

  /** A process may end between the save that has a walk over objects finished and its being forgotten.
      The next one skips that walk: nothing is listed again. */
  lemma InterruptedWalkIsSkipped(n: Scheme, server: Server, bases: set<Text>, who: Walker, files: map<Text, Content>)
    requires Ledger.CustomerDirs(bases)
    ensures Possible(n, bases, FIRST_RUN, Interrupted(WalkId(who)))
    ensures var w0 := Resumed(server, After(n, bases, FIRST_RUN, Interrupted(WalkId(who))), files);
            && WalkId(who) in w0.state.finished
            && forall w, scope | ObjectsWalked(n, w0, w, who, scope) ::
                 WalkId(who) in w.skipped && w.listed == w0.listed && w.scopes == w0.scopes
  {
    WalkIds(who);
    InterruptedEnds(n, bases, WalkId(who));
    FinishedListsNothing(n, Resumed(server, After(n, bases, FIRST_RUN, Interrupted(WalkId(who))), files), who);
  }

  function Interrupted(id: Text): seq<Step> {
    [StartOwn(0, id), Succeed(0, Record([], 0)), Begin, Commit, Crash]
  }

  lemma InterruptedEnds(n: Scheme, bases: set<Text>, id: Text)
    requires Ledger.CustomerDirs(bases) && ObjectWalkId(id)
    ensures Possible(n, bases, FIRST_RUN, Interrupted(id))
    ensures After(n, bases, FIRST_RUN, Interrupted(id)).chain.disk
         == Some(NEW_EXPORT.(finished := map[id := Record([], 0)]))
  {
    var steps := Interrupted(id);
    Ledger.OwnIdsMayStart(bases, id);
    var s1 := Apply(n, bases, FIRST_RUN, steps[0]);
    var s2 := Apply(n, bases, s1, steps[1]);
    assert s2.chain.mem == NEW_EXPORT.(finished := map[id := Record([], 0)]);
    SavedThenCrashed(n, bases, s2);
    var s3 := Apply(n, bases, s2, Begin);
    var s4 := Apply(n, bases, s3, Commit);
    FiveSteps(n, bases, FIRST_RUN, steps, s1, s2, s3, s4, Apply(n, bases, s4, Crash));
  }

  lemma SavedThenCrashed(n: Scheme, bases: set<Text>, s: System)
    requires s.chain.history != [] && s.chain.writing.None? && s.chain.resolved < |s.chain.calls|
    ensures Enabled(bases, s, Begin)
    ensures var s1 := Apply(n, bases, s, Begin);
            Enabled(bases, s1, Commit) && Apply(n, bases, Apply(n, bases, s1, Commit),
                                                Crash).chain.disk == Some(s.chain.mem)
  {
  }

  lemma FinishedListsNothing(n: Scheme, w0: World, who: Walker)
    requires WalkId(who) in w0.state.finished
    ensures forall w, scope | ObjectsWalked(n, w0, w, who, scope) ::
              WalkId(who) in w.skipped && w.listed == w0.listed && w.scopes == w0.scopes
  {
  }

  lemma FiveSteps(n: Scheme, bases: set<Text>, s: System, steps: seq<Step>, s1: System, s2: System, s3: System,
                  s4: System, s5: System)
    requires |steps| == 5 && Enabled(bases, s, steps[0]) && s1 == Apply(n, bases, s, steps[0])
    requires Enabled(bases, s1, steps[1]) && s2 == Apply(n, bases, s1, steps[1])
    requires Enabled(bases, s2, steps[2]) && s3 == Apply(n, bases, s2, steps[2])
    requires Enabled(bases, s3, steps[3]) && s4 == Apply(n, bases, s3, steps[3])
    requires Enabled(bases, s4, steps[4]) && s5 == Apply(n, bases, s4, steps[4])
    ensures Possible(n, bases, s, steps) && After(n, bases, s, steps) == s5
  {
    var t4 := steps[4..];
    assert steps[3..][1..] == t4 && steps[2..][1..] == steps[3..] && steps[1..][1..] == steps[2..];
    assert t4[1..] == [] && t4[0] == steps[4];
    assert Possible(n, bases, s5, []);
    assert Possible(n, bases, s4, t4) && After(n, bases, s4, t4) == s5;
    assert Possible(n, bases, s3, steps[3..]) && After(n, bases, s3, steps[3..]) == s5;
    assert Possible(n, bases, s2, steps[2..]) && After(n, bases, s2, steps[2..]) == s5;
    assert Possible(n, bases, s1, steps[1..]) && After(n, bases, s1, steps[1..]) == s5;
  }
}
