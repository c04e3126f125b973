/** The walk's stretches are steps of the step system: what the walk does to its world, the system can do,
    with the checkpoint, its flights and its claims beside it. */
module Bridge {
  import opened JsText
  import opened Options
  import opened PathTree
  import opened CustomerPaths
  import opened ExportStates
  import opened Layout
  import opened Writer
  import opened Archive
  import opened Progress
  import opened Protocol
  import Checkpoint
  import Ledger

  /** The system holds what the world does: the live state, the files, and in flight what the world has in
      flight and these walks over stored objects. */
  ghost predicate Mirrors(bases: set<Text>, s: System, w: World, open: set<Text>) {
    && Ledger.CustomerDirs(bases) && s.chain.history != [] && s.chain.mem == w.state
    && (forall path | path in s.files :: path in w.files && w.files[path] == CustomerFile(s.files[path]))
    && (forall path | path in w.files :: OnDisk(s, path))
    && (forall path | path in s.own :: path in w.files)
    && Ledger.InFlight(s.flights) == w.flying + open
  }

  /** So they agree on what to skip. */
  lemma SkipAlike(bases: set<Text>, s: System, w: World, open: set<Text>, id: Text)
    requires Mirrors(bases, s, w, open)
    ensures Skips(s, id) <==> Skippable(w, id)
  {
    assert forall path :: OnDisk(s, path) <==> path in w.files;
  }

  // ---- one step after another ----

  lemma {:induction false} OneStepMore(n: Scheme, bases: set<Text>, s: System, steps: seq<Step>, step: Step)
    requires Possible(n, bases, s, steps) && Enabled(bases, After(n, bases, s, steps), step)
    ensures Possible(n, bases, s, steps + [step])
    ensures After(n, bases, s, steps + [step]) == Apply(n, bases, After(n, bases, s, steps), step)
    decreases |steps|
  {
    if steps == [] {
      assert [] + [step] == [step] && [step][1..] == [];
    } else {
      OneStepMore(n, bases, Apply(n, bases, s, steps[0]), steps[1..], step);
      assert (steps + [step])[1..] == steps[1..] + [step];
    }
  }

  /** The system goes by these steps to where it mirrors the world. */
  ghost predicate Follows(n: Scheme, bases: set<Text>, s: System, steps: seq<Step>, w: World, open: set<Text>) {
    Possible(n, bases, s, steps) && Mirrors(bases, After(n, bases, s, steps), w, open)
  }

  lemma NoStep(n: Scheme, bases: set<Text>, s: System, w: World, open: set<Text>)
    requires Mirrors(bases, s, w, open)
    ensures Follows(n, bases, s, [], w, open)
  {
  }

  lemma StepFollows(n: Scheme, bases: set<Text>, s: System, steps: seq<Step>, step: Step, w: World, open: set<Text>)
    requires Possible(n, bases, s, steps) && Enabled(bases, After(n, bases, s, steps), step)
    requires Mirrors(bases, Apply(n, bases, After(n, bases, s, steps), step), w, open)
    ensures Follows(n, bases, s, steps + [step], w, open)
  {
    OneStepMore(n, bases, s, steps, step);
  }

  // ---- items of the export's own ----

  /** The item has started, as flight f. */
  function InItem(w: World, id: Text): World { w.(state := Started(w.state, id)) }

  lemma StartOwnFollows(n: Scheme, bases: set<Text>, s: System, w: World, open: set<Text>, f: nat, id: Text)
    requires Mirrors(bases, s, w, open) && (OwnId(id) || ObjectWalkId(id)) && f !in s.flights
    ensures Enabled(bases, s, StartOwn(f, id))
    ensures Skippable(w, id) ==> Apply(n, bases, s, StartOwn(f, id)) == s
    ensures !Skippable(w, id) ==>
              var s' := Apply(n, bases, s, StartOwn(f, id));
              Mirrors(bases, s', InItem(w, id), open + {id}) && s'.flights == s.flights[f := Flight(Own(id), false)]
  {
    Ledger.OwnIdsMayStart(bases, id);
    SkipAlike(bases, s, w, open, id);
    if !Skippable(w, id) { FlightAdded(s.flights, f, Own(id)); }
  }

  lemma FlightAdded(flights: map<nat, Flight>, f: nat, action: Action)
    requires f !in flights
    ensures Ledger.InFlight(flights[f := Flight(action, false)]) == Ledger.InFlight(flights) + {IdOf(action)}
  {
    var flights' := flights[f := Flight(action, false)];
    assert flights'[f].action == action;
    forall id | id in Ledger.InFlight(flights) ensures id in Ledger.InFlight(flights') {
      var g :| g in flights && IdOf(flights[g].action) == id;
      assert flights'[g] == flights[g];
    }
  }

  lemma FlightRemoved(flights: map<nat, Flight>, f: nat)
    requires f in flights
    ensures var id := IdOf(flights[f].action);
            Ledger.InFlight(flights - {f})
            == if exists g :: g in flights && g != f && IdOf(flights[g].action) == id then Ledger.InFlight(flights)
               else Ledger.InFlight(flights) - {id}
  {
    var id := IdOf(flights[f].action);
    forall x | x in Ledger.InFlight(flights) && x != id ensures x in Ledger.InFlight(flights - {f}) {
      var g :| g in flights && IdOf(flights[g].action) == x;
      assert g in flights - {f};
    }
    if g :| g in flights && g != f && IdOf(flights[g].action) == id { assert g in flights - {f}; }
  }

  lemma FlightPlaced(flights: map<nat, Flight>, f: nat)
    requires f in flights
    ensures Ledger.InFlight(flights[f := Flight(flights[f].action, true)]) == Ledger.InFlight(flights)
  {
    var flights' := flights[f := Flight(flights[f].action, true)];
    assert forall g | g in flights :: flights'[g].action == flights[g].action;
  }

  /** The item's output is in place. */
  lemma PlaceOwnFollows(n: Scheme, bases: set<Text>, s: System, w: World, open: set<Text>, f: nat, content: Content)
    requires Mirrors(bases, s, w, open) && f in s.flights && s.flights[f].action.Own?
    requires !Under(bases, s.flights[f].action.id) && s.flights[f].action.id !in s.files
    ensures var id, s' := s.flights[f].action.id, Apply(n, bases, s, Place(f));
            Enabled(bases, s, Place(f)) && Mirrors(bases, s', w.(files := w.files[id := content]), open)
            && s'.flights == s.flights[f := Flight(Own(id), true)] && s'.files == s.files
  {
    FlightPlaced(s.flights, f);
  }

  /** The action is over, and nothing else holds the id. */
  lemma FinishFollows(bases: set<Text>, s: System, w: World, open: set<Text>, f: nat, to: ExportState)
    requires Mirrors(bases, s, w, open) && f in s.flights
    requires var id := IdOf(s.flights[f].action); id in open && id !in w.flying
    requires forall g | g in s.flights && g != f :: IdOf(s.flights[g].action) != IdOf(s.flights[f].action)
    ensures Mirrors(bases, Finish(s, f, to), w.(state := to), open - {IdOf(s.flights[f].action)})
  {
    FlightRemoved(s.flights, f);
  }

  /** The steps of an item. */
  function ItemSteps(f: nat, id: Text, how: How): seq<Step> {
    match how
    case Skipped => [StartOwn(f, id)]
    case Stored(count) => [StartOwn(f, id), Place(f), Succeed(f, Record([id], count))]
    case Empty(count) => [StartOwn(f, id), Succeed(f, Record([], count))]
    case Lacking(error, written) =>
      if written then [StartOwn(f, id), Place(f), Fail(f, error)] else [StartOwn(f, id), Fail(f, error)]
  }

  predicate Quiet(s: System, id: Text) { forall g | g in s.flights :: IdOf(s.flights[g].action) != id }

  /** An item of the export's own, from start to end. */
  lemma ItemFollows(n: Scheme, bases: set<Text>, s: System, w: World, open: set<Text>, f: nat, id: Text, visit: Visit,
                    content: Content, how: How)
    requires Mirrors(bases, s, w, open) && OwnId(id) && f !in s.flights && Quiet(s, id) && id !in s.files
    requires how.Skipped? <==> Skippable(w, id)
    ensures Follows(n, bases, s, ItemSteps(f, id, how), ItemWorld(w, id, visit, content, how), open)
  {
    KindsOfIdsDiffer(id);
    Ledger.OwnIdsMayStart(bases, id);
    StartOwnFollows(n, bases, s, w, open, f, id);
    var s1 := Apply(n, bases, s, StartOwn(f, id));
    NoStep(n, bases, s, w, open);
    OneStepMore(n, bases, s, [], StartOwn(f, id));
    assert [] + [StartOwn(f, id)] == [StartOwn(f, id)];
    assert id !in Ledger.InFlight(s.flights);
    if !how.Skipped? { ItemGoesOn(n, bases, s, s1, w, open, f, id, visit, content, how); }
  }

  lemma ItemGoesOn(n: Scheme, bases: set<Text>, s: System, s1: System, w: World, open: set<Text>, f: nat, id: Text,
                   visit: Visit, content: Content, how: How)
    requires Possible(n, bases, s, [StartOwn(f, id)]) && After(n, bases, s, [StartOwn(f, id)]) == s1
    requires Mirrors(bases, s1, InItem(w, id), open + {id}) && !how.Skipped? && OwnId(id) && !Under(bases, id)
    requires f in s1.flights && s1.flights[f] == Flight(Own(id), false) && id !in s1.files
    requires id !in w.flying + open && forall g | g in s1.flights && g != f :: IdOf(s1.flights[g].action) != id
    ensures Follows(n, bases, s, ItemSteps(f, id, how), ItemWorld(w, id, visit, content, how), open)
  {
    KindsOfIdsDiffer(id);
    var placed := how.Stored? || (how.Lacking? && how.written);
    var w2 := if placed then InItem(w, id).(files := w.files[id := content]) else InItem(w, id);
    var s2, steps := s1, [StartOwn(f, id)];
    if placed {
      PlaceOwnFollows(n, bases, s1, InItem(w, id), open + {id}, f, content);
      OneStepMore(n, bases, s, steps, Place(f));
      s2, steps := Apply(n, bases, s1, Place(f)), steps + [Place(f)];
    }
    ItemFinishes(n, bases, s, s2, w, w2, open, f, id, visit, content, how, steps);
  }

  function LastStep(f: nat, id: Text, how: How): Step {
    match how
    case Skipped => StartOwn(f, id)
    case Stored(count) => Succeed(f, Record([id], count))
    case Empty(count) => Succeed(f, Record([], count))
    case Lacking(error, _) => Fail(f, error)
  }

  lemma ItemFinishes(n: Scheme, bases: set<Text>, s: System, s2: System, w: World, w2: World, open: set<Text>, f: nat,
                     id: Text, visit: Visit, content: Content, how: How, steps: seq<Step>)
    requires Possible(n, bases, s, steps) && After(n, bases, s, steps) == s2 && !how.Skipped? && !ObjectWalkId(id)
    requires Mirrors(bases, s2, w2, open + {id}) && steps + [LastStep(f, id, how)] == ItemSteps(f, id, how)
    requires var placed := how.Stored? || (how.Lacking? && how.written);
             && w2 == (if placed then InItem(w, id).(files := w.files[id := content]) else InItem(w, id))
             && f in s2.flights && s2.flights[f] == Flight(Own(id), placed)
    requires id !in w.flying + open && forall g | g in s2.flights && g != f :: IdOf(s2.flights[g].action) != id
    ensures Follows(n, bases, s, ItemSteps(f, id, how), ItemWorld(w, id, visit, content, how), open)
  {
    var to := ItemWorld(w, id, visit, content, how).state;
    FinishFollows(bases, s2, w2, open + {id}, f, to);
    assert open + {id} - {id} == open;
    OneStepMore(n, bases, s, steps, LastStep(f, id, how));
  }

  // ---- listings and downloads ----

  lemma ClaimFollows(n: Scheme, bases: set<Text>, s: System, w: World, open: set<Text>, base: Text, paths: seq<Text>,
                     visited: bool)
    requires Mirrors(bases, s, w, open) && base in bases
    ensures Follows(n, bases, s, [Claim(base, paths)], ClaimedWorld(n, w, base, paths, visited), open)
  {
    NoStep(n, bases, s, w, open);
    StepFollows(n, bases, s, [], Claim(base, paths), ClaimedWorld(n, w, base, paths, visited), open);
    assert [] + [Claim(base, paths)] == [Claim(base, paths)];
  }

  /** A save is waited for: the checkpoint is written, and the world stays as it is. */
  lemma WritesFollow(n: Scheme, bases: set<Text>, s: System, w: World, open: set<Text>, step: Step)
    requires Mirrors(bases, s, w, open) && Enabled(bases, s, step) && (step.Save? || step.Begin? || step.Commit?)
    ensures Follows(n, bases, s, [step], w, open)
  {
    NoStep(n, bases, s, w, open);
    StepFollows(n, bases, s, [], step, w, open);
    assert [] + [step] == [step];
  }

  /** A download whose listing's save has resolved may start. */
  lemma BeginFollows(n: Scheme, bases: set<Text>, s: System, w: World, open: set<Text>, f: nat, walk: nat, job: nat)
    requires Mirrors(bases, s, w, open) && Enabled(bases, s, Start(f, walk, job))
    ensures Follows(n, bases, s, [Start(f, walk, job)], BeginWorld(w, s.walks[walk].jobs[job].relative), open)
  {
    var j := s.walks[walk].jobs[job];
    SkipAlike(bases, s, w, open, j.relative);
    if !Skippable(w, j.relative) { FlightAdded(s.flights, f, Customer(j)); }
    NoStep(n, bases, s, w, open);
    StepFollows(n, bases, s, [], Start(f, walk, job), BeginWorld(w, j.relative), open);
    assert [] + [Start(f, walk, job)] == [Start(f, walk, job)];
  }

  lemma PlaceFollows(n: Scheme, bases: set<Text>, s: System, w: World, open: set<Text>, f: nat)
    requires Mirrors(bases, s, w, open) && f in s.flights && s.flights[f].action.Customer?
    ensures Follows(n, bases, s, [Place(f)], PlaceWorld(w, s.flights[f].action.job), open)
  {
    FlightPlaced(s.flights, f);
    NoStep(n, bases, s, w, open);
    StepFollows(n, bases, s, [], Place(f), PlaceWorld(w, s.flights[f].action.job), open);
    assert [] + [Place(f)] == [Place(f)];
  }

  /** The end of a download; `still` if another flight holds the id. */
  lemma EndFollows(n: Scheme, bases: set<Text>, s: System, w: World, open: set<Text>, f: nat, error: Option<Text>)
    requires Mirrors(bases, s, w, open) && f in s.flights && s.flights[f].action.Customer?
    requires var id := s.flights[f].action.job.relative; id !in open && !ObjectWalkId(id)
    requires error.None? ==> s.flights[f].placed
    ensures var id := s.flights[f].action.job.relative;
            var still := exists g :: g in s.flights && g != f && IdOf(s.flights[g].action) == id;
            var step := if error.None? then Succeed(f, Record([id], 1)) else Fail(f, error.value);
            Follows(n, bases, s, [step], EndWorld(w, id, error, still), open)
  {
    var id := s.flights[f].action.job.relative;
    var still := exists g :: g in s.flights && g != f && IdOf(s.flights[g].action) == id;
    var step := if error.None? then Succeed(f, Record([id], 1)) else Fail(f, error.value);
    NoStep(n, bases, s, w, open);
    LandFollows(bases, s, w, open, f, error, still);
    StepFollows(n, bases, s, [], step, EndWorld(w, id, error, still), open);
    assert [] + [step] == [step];
  }

  lemma LandFollows(bases: set<Text>, s: System, w: World, open: set<Text>, f: nat, error: Option<Text>, still: bool)
    requires Mirrors(bases, s, w, open) && f in s.flights
    requires var id := IdOf(s.flights[f].action);
             id !in open && (still <==> exists g :: g in s.flights && g != f && IdOf(s.flights[g].action) == id)
    ensures var w' := EndWorld(w, IdOf(s.flights[f].action), error, still);
            Mirrors(bases, Finish(s, f, w'.state), w', open)
  {
    FlightRemoved(s.flights, f);
  }

  // ---- walks over stored objects ----

  /** A walk over objects is one item around those of its objects; it skips, or is in flight meanwhile. */
  lemma WalkStartFollows(n: Scheme, bases: set<Text>, s: System, w: World, open: set<Text>, f: nat, who: Walker,
                         scope: Scope)
    requires Mirrors(bases, s, w, open) && f !in s.flights
    ensures var id := WalkId(who);
            Follows(n, bases, s, [StartOwn(f, id)], WalkStarted(w, who, scope),
                    if Skippable(w, id) then open else open + {id})
  {
    var id := WalkId(who);
    WalkIds(who);
    StartOwnFollows(n, bases, s, w, open, f, id);
    NoStep(n, bases, s, w, open);
    StepFollows(n, bases, s, [], StartOwn(f, id), WalkStarted(w, who, scope),
                if Skippable(w, id) then open else open + {id});
    assert [] + [StartOwn(f, id)] == [StartOwn(f, id)];
  }

  function WalkEndSteps(f: nat, id: Text, skipped: bool, verdict: Verdict): seq<Step> {
    if skipped then [Forget(id)]
    else [if verdict.AllTaken? then Succeed(f, Record([], 0)) else Fail(f, verdict.error), Forget(id)]
  }

  /** At its end it succeeds or fails, and is forgotten. */
  lemma WalkEndFollows(n: Scheme, bases: set<Text>, s: System, w: World, open: set<Text>, f: nat, who: Walker,
                       id: Text, skipped: bool, verdict: Verdict, scope: Scope)
    requires Mirrors(bases, s, w, open) && id == WalkId(who)
    requires !skipped ==> f in s.flights && s.flights[f].action == Own(id) && id in open && id !in w.flying
    requires !skipped ==> forall g | g in s.flights && g != f :: IdOf(s.flights[g].action) != id
    ensures Follows(n, bases, s, WalkEndSteps(f, id, skipped, verdict), WalkEnded(w, who, skipped, verdict, scope),
                    if skipped then open else open - {id})
  {
    var w' := WalkEnded(w, who, skipped, verdict, scope);
    WalkIds(who);
    if skipped {
      NoStep(n, bases, s, w, open);
      StepFollows(n, bases, s, [], Forget(id), w', open);
      assert [] + [Forget(id)] == [Forget(id)];
    } else {
      WalkOverFollows(n, bases, s, w, open, f, id, verdict);
      WalkForgotten(n, bases, s, w, open, f, who, id, verdict, scope);
    }
  }

  lemma WalkForgotten(n: Scheme, bases: set<Text>, s: System, w: World, open: set<Text>, f: nat, who: Walker, id: Text,
                      verdict: Verdict, scope: Scope)
    requires id == WalkId(who) && ObjectWalkId(id)
    requires var last := if verdict.AllTaken? then Succeed(f, Record([], 0)) else Fail(f, verdict.error);
             var to := if verdict.AllTaken? then Succeeded(w.state, id, Record([], 0))
                       else Failed(w.state, id, verdict.error);
             Follows(n, bases, s, [last], w.(state := to), open - {id})
    ensures Follows(n, bases, s, WalkEndSteps(f, id, false, verdict), WalkEnded(w, who, false, verdict, scope),
                    open - {id})
  {
    var last := if verdict.AllTaken? then Succeed(f, Record([], 0)) else Fail(f, verdict.error);
    StepFollows(n, bases, s, [last], Forget(id), WalkEnded(w, who, false, verdict, scope), open - {id});
    assert [last] + [Forget(id)] == [last, Forget(id)];
  }

  lemma WalkOverFollows(n: Scheme, bases: set<Text>, s: System, w: World, open: set<Text>, f: nat, id: Text,
                        verdict: Verdict)
    requires Mirrors(bases, s, w, open) && f in s.flights && s.flights[f].action == Own(id) && id in open
    requires id !in w.flying && forall g | g in s.flights && g != f :: IdOf(s.flights[g].action) != id
    ensures var last := if verdict.AllTaken? then Succeed(f, Record([], 0)) else Fail(f, verdict.error);
            var to := if verdict.AllTaken? then Succeeded(w.state, id, Record([], 0))
                      else Failed(w.state, id, verdict.error);
            Follows(n, bases, s, [last], w.(state := to), open - {id})
  {
    var to := if verdict.AllTaken? then Succeeded(w.state, id, Record([], 0)) else Failed(w.state, id, verdict.error);
    var last := if verdict.AllTaken? then Succeed(f, Record([], 0)) else Fail(f, verdict.error);
    NoStep(n, bases, s, w, open);
    FinishFollows(bases, s, w, open, f, to);
    StepFollows(n, bases, s, [], last, w.(state := to), open - {id});
    assert [] + [last] == [last];
  }

  // ---- the rest ----

  /** A warning that is no item's is set, the walk's own is deleted, and the automation index is written. */
  lemma NoteFollows(n: Scheme, bases: set<Text>, s: System, w: World, open: set<Text>, id: Text, error: Text)
    requires Mirrors(bases, s, w, open) && NoteId(id)
    ensures Follows(n, bases, s, [Warn(id, error)], w.(state := Failed(w.state, id, error)), open)
    ensures Follows(n, bases, s, [Unwarn], w.(state := w.state.(warnings := w.state.warnings - {WALK})), open)
  {
    NoStep(n, bases, s, w, open);
    StepFollows(n, bases, s, [], Warn(id, error), w.(state := Failed(w.state, id, error)), open);
    StepFollows(n, bases, s, [], Unwarn, w.(state := w.state.(warnings := w.state.warnings - {WALK})), open);
    assert [] + [Warn(id, error)] == [Warn(id, error)] && [] + [Unwarn] == [Unwarn];
  }

  lemma WriteMirrors(bases: set<Text>, s: System, w: World, open: set<Text>, path: Text, content: Content)
    requires Mirrors(bases, s, w, open) && path !in s.files
    ensures Mirrors(bases, s.(own := s.own + {path}), w.(files := w.files[path := content]), open)
  {
  }

  lemma IndexFollows(n: Scheme, bases: set<Text>, s: System, w: World, open: set<Text>, content: Content)
    requires Mirrors(bases, s, w, open) && AUTOMATION_INDEX !in s.files
    ensures Follows(n, bases, s, [Write(AUTOMATION_INDEX)], w.(files := w.files[AUTOMATION_INDEX := content]), open)
  {
    OwnInOrg(Lit("automations.json"));
    Ledger.OwnIdsMayStart(bases, AUTOMATION_INDEX);
    NoStep(n, bases, s, w, open);
    WriteMirrors(bases, s, w, open, AUTOMATION_INDEX, content);
    StepFollows(n, bases, s, [], Write(AUTOMATION_INDEX), w.(files := w.files[AUTOMATION_INDEX := content]), open);
    assert [] + [Write(AUTOMATION_INDEX)] == [Write(AUTOMATION_INDEX)];
  }
}
