/** The state an export keeps and checkpoints, and what each uninterrupted stretch of the writer's
    code does to it. */
module ExportStates {
  import opened JsText
  import opened Options
  import opened PathTree
  import opened CustomerPaths

  datatype Record = Record(outputs: seq<Text>, count: int)

  datatype ExportState = ExportState(
    finished: map<Text, Record>, warnings: map<Text, Text>,
    mappings: map<Text, Text>, claims: Claims)

  const NEW_EXPORT := ExportState(map[], map[], map[], map[])

  function TableOf(st: ExportState): NameTable { NameTable(st.claims, st.mappings) }

  function WithTable(st: ExportState, t: NameTable): ExportState { st.(claims := t.claims, mappings := t.mappings) }

  /** `item` up to its action. */
  function Started(st: ExportState, id: Text): ExportState {
    st.(finished := st.finished - {id})
  }

  /** `item` after an action that returned. */
  function Succeeded(st: ExportState, id: Text, record: Record): ExportState {
    st.(finished := st.finished[id := record], warnings := st.warnings - {id})
  }

  /** `item` after an action that threw. */
  function Failed(st: ExportState, id: Text, error: Text): ExportState {
    st.(warnings := st.warnings[id := error])
  }

  /** A file to download and where to. */
  datatype Job = Job(origin: Origin, relative: Text)

  datatype ClaimResult = ClaimResult(state: ExportState, jobs: Option<seq<Job>>)

  /** A listing's names, claimed in listing order in one stretch; None is a throw. */
  function ClaimAll(p: Scheme, st: ExportState, base: Text, paths: seq<Text>): (r: ClaimResult)
    ensures r.jobs.Some? ==> |r.jobs.value| == |paths|
    ensures r.state.finished == st.finished && r.state.warnings == st.warnings
    decreases |paths|
  {
    if paths == [] then ClaimResult(st, Some([]))
    else
      var c := Call(base, paths[0]);
      var r := TreeCall(p, TableOf(st), c);
      if r.path.None? then ClaimResult(WithTable(st, r.table), None)
      else
        var rest := ClaimAll(p, WithTable(st, r.table), base, paths[1..]);
        ClaimResult(rest.state,
                    if rest.jobs.None? then None else Some([Job(OriginOf(c), r.path.value)] + rest.jobs.value))
  }

  /** A throw comes at the first path that finds no names; what was claimed before it is kept. */
  lemma {:induction false} ThrowKeepsClaims(p: Scheme, st: ExportState, base: Text, paths: seq<Text>) returns (k: nat)
    requires ClaimAll(p, st, base, paths).jobs.None?
    ensures k < |paths| && ClaimAll(p, st, base, paths[..k]).jobs.Some?
    ensures var before := ClaimAll(p, st, base, paths[..k]).state;
            var thrown := TreeCall(p, TableOf(before), Call(base, paths[k]));
            thrown.path.None? && ClaimAll(p, st, base, paths).state == WithTable(before, thrown.table)
    decreases |paths|
  {
    var r := TreeCall(p, TableOf(st), Call(base, paths[0]));
    if r.path.None? {
      k := 0;
    } else {
      var later := ThrowKeepsClaims(p, WithTable(st, r.table), base, paths[1..]);
      k := later + 1;
      assert paths[..k][0] == paths[0] && paths[..k][1..] == paths[1..][..later];
    }
  }

  predicate JobClaimed(p: Scheme, bases: set<Text>, st: ExportState, job: Job) {
    job.origin.base in bases && Assigned(p, st.claims, job.origin, job.relative)
  }

  predicate JobsClaimed(p: Scheme, bases: set<Text>, st: ExportState, base: Text, paths: seq<Text>, jobs: seq<Job>) {
    |jobs| == |paths| && forall i | 0 <= i < |paths| ::
      jobs[i].origin == Origin(base, Segments(paths[i])) && JobClaimed(p, bases, st, jobs[i])
  }

  lemma JobsOneMore(p: Scheme, bases: set<Text>, st: ExportState, base: Text, paths: seq<Text>, job: Job,
                    rest: seq<Job>)
    requires paths != [] && JobsClaimed(p, bases, st, base, paths[1..], rest)
    requires job.origin == Origin(base, Segments(paths[0])) && JobClaimed(p, bases, st, job)
    ensures JobsClaimed(p, bases, st, base, paths, [job] + rest)
  {
    var jobs := [job] + rest;
    forall i | 0 <= i < |paths|
      ensures jobs[i].origin == Origin(base, Segments(paths[i])) && JobClaimed(p, bases, st, jobs[i])
    {
      if i > 0 { assert jobs[i] == rest[i - 1] && paths[i] == paths[1..][i - 1]; }
    }
  }

  /** Every job of a claimed listing has its path in the claims, in listing order. */
  lemma {:induction false} ClaimAllAssigns(p: Scheme, bases: set<Text>, st: ExportState, base: Text, paths: seq<Text>)
    requires base in bases
    ensures var r := ClaimAll(p, st, base, paths);
            && Extends(st.claims, r.state.claims)
            && (r.jobs.Some? ==> JobsClaimed(p, bases, r.state, base, paths, r.jobs.value))
    decreases |paths|
  {
    if paths == [] {
    } else {
      var c := Call(base, paths[0]);
      var r := TreeCall(p, TableOf(st), c);
      TreeCallAssigns(p, TableOf(st), c);
      if r.path.Some? {
        var st' := WithTable(st, r.table);
        ClaimAllAssigns(p, bases, st', base, paths[1..]);
        var rest := ClaimAll(p, st', base, paths[1..]);
        AssignedIsStable(p, st'.claims, rest.state.claims, OriginOf(c), r.path.value);
        if rest.jobs.Some? {
          JobsOneMore(p, bases, rest.state, base, paths, Job(OriginOf(c), r.path.value), rest.jobs.value);
        }
      }
    }
  }

  /** A path below one of the directories customer files are exported under. */
  predicate Under(bases: set<Text>, id: Text) {
    exists base | base in bases :: base + [SLASH] <= id
  }

  lemma AssignedIsUnder(p: Scheme, bases: set<Text>, claims: Claims, o: Origin, path: Text)
    requires o.base in bases && Assigned(p, claims, o, path)
    ensures Under(bases, path)
  {
    var names := Lookup(p, claims, o.base, o.base, o.segments).value;
    JoinStartsWith(o.base + [SLASH] + names[0], names[1..]);
    assert o.base + [SLASH] <= path;
  }
}
