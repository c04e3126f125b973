/** The cost-controls backfill: which live apps a run redeploys, how a limit and a delay shape it,
    and what a dry run tells about the run that applies. */
module Backfill {
  import opened Options

  datatype SkipReason = NotLive | NoArtifactRecord | Suspended | Quarantined | LeaseHeld | AlreadyApplied

  datatype Decision = Apply | Skip(reason: SkipReason)

  /** What the classifier is asked about; without settings it makes the cheap checks only. */
  datatype Question<G, S, C> = Question(
    live: bool, guardState: Option<G>, leaseExpiresAt: Option<int>, config: C,
    settings: Option<S>, entrypoint: Option<string>, now: int)

  datatype Read<+T> = Answered(value: T) | ReadFailed(error: string)

  /** What `applyOne` answers. */
  datatype ApplyAnswer = Applies(version: Option<string>) | Declines(reason: SkipReason) | ApplyFails(error: string)

  /** What a run asks of the world, apart from applying. The clock is read twice for a candidate,
      before and after its settings are read. */
  datatype Deps<!G, !S, !C> = Deps(
    guardState: string -> Option<G>, leaseExpiresAt: G -> Option<int>, configFor: string -> C,
    classify: Question<G, S, C> -> Decision, needsAlarmGuard: S -> bool,
    readSettings: string -> Read<Option<S>>, readEntrypoint: string -> Read<Option<string>>,
    now: (nat, bool) -> int)

  datatype Args = Args(apply: bool, limit: Option<nat>, delayMs: nat)

  datatype Outcome =
    | Applied(name: string, version: Option<string>)
    | WouldApply(name: string)
    | Skipped(name: string, reason: SkipReason)
    | Failed(name: string, error: string)

  /** What a run does to the world, in the order it does it: calls of `applyOne`, and pauses. */
  datatype Event = Called(name: string) | Paused(ms: nat)

  /** A run: its outcomes and its events, in order, and how much of the limit is used. */
  datatype Report = Report(outcomes: seq<Outcome>, log: seq<Event>, redeploys: nat)

  // ---- one candidate ----

  /** What the reads and the classifier make of a candidate: a redeploy, or an outcome at once. */
  datatype Verdict = Redeploy | Settled(outcome: Outcome)

  function Judge<G, S, C>(d: Deps<G, S, C>, i: nat, name: string): (v: Verdict)
    ensures v.Settled? ==> v.outcome.name == name && (v.outcome.Skipped? || v.outcome.Failed?)
  {
    var guard := d.guardState(name);
    var lease := if guard.Some? then d.leaseExpiresAt(guard.value) else None;
    var cheap := d.classify(Question(true, guard, lease, d.configFor(name), None, None, d.now(i, false)));
    if cheap.Skip? then Settled(Skipped(name, cheap.reason))
    else
      var settings := d.readSettings(name);
      if settings.ReadFailed? then Settled(Failed(name, settings.error))
      else
        var entrypoint :=
          if settings.value.Some? && d.needsAlarmGuard(settings.value.value) then d.readEntrypoint(name)
          else Answered(None);
        if entrypoint.ReadFailed? then Settled(Failed(name, entrypoint.error))
        else
          var decision := d.classify(Question(settings.value.Some?, guard, lease, d.configFor(name),
                                              settings.value, entrypoint.value, d.now(i, true)));
          if decision.Skip? then Settled(Skipped(name, decision.reason)) else Redeploy
  }

  function AppliedOutcome(name: string, answer: ApplyAnswer): Outcome {
    match answer
    case Applies(version) => Applied(name, if version == Some("") then None else version)
    case Declines(reason) => Skipped(name, reason)
    case ApplyFails(error) => Failed(name, error)
  }

  // ---- what becomes of a candidate, by what is answered ----

  /** What the classifier answers to the cheap question, and, once the reads are answered, to the other. */
  function FirstAnswer<G, S, C>(d: Deps<G, S, C>, i: nat, name: string): Decision {
    var guard := d.guardState(name);
    d.classify(Question(true, guard, if guard.Some? then d.leaseExpiresAt(guard.value) else None, d.configFor(name),
                        None, None, d.now(i, false)))
  }

  predicate NeedsEntrypoint<G, S, C>(d: Deps<G, S, C>, name: string) {
    var settings := d.readSettings(name);
    settings.Answered? && settings.value.Some? && d.needsAlarmGuard(settings.value.value)
  }

  /** The settings were read, and so was the entrypoint if it counts. */
  predicate ReadsAnswered<G, S, C>(d: Deps<G, S, C>, name: string) {
    d.readSettings(name).Answered? && (NeedsEntrypoint(d, name) ==> d.readEntrypoint(name).Answered?)
  }

  function SecondAnswer<G, S, C>(d: Deps<G, S, C>, i: nat, name: string): Decision
    requires ReadsAnswered(d, name)
  {
    var guard, settings := d.guardState(name), d.readSettings(name).value;
    d.classify(Question(settings.Some?, guard, if guard.Some? then d.leaseExpiresAt(guard.value) else None,
                        d.configFor(name), settings,
                        if NeedsEntrypoint(d, name) then d.readEntrypoint(name).value else None, d.now(i, true)))
  }

  /** Both questions are answered with apply, and the reads between them are answered. */
  predicate Due<G, S, C>(d: Deps<G, S, C>, i: nat, name: string) {
    FirstAnswer(d, i, name).Apply? && ReadsAnswered(d, name) && SecondAnswer(d, i, name).Apply?
  }

  /** The first answer that skips gives this reason. */
  predicate SkipsFor<G, S, C>(d: Deps<G, S, C>, i: nat, name: string, reason: SkipReason) {
    || FirstAnswer(d, i, name) == Skip(reason)
    || (FirstAnswer(d, i, name).Apply? && ReadsAnswered(d, name) && SecondAnswer(d, i, name) == Skip(reason))
  }

  /** The first read that fails gives this error. */
  predicate FailsWith<G, S, C>(d: Deps<G, S, C>, i: nat, name: string, error: string) {
    && FirstAnswer(d, i, name).Apply?
    && (|| d.readSettings(name) == ReadFailed(error)
        || (NeedsEntrypoint(d, name) && d.readEntrypoint(name) == ReadFailed(error)))
  }

  /** Of the three one holds, and for one reason or error. */
  lemma OneOfThree<G, S, C>(d: Deps<G, S, C>, i: nat, name: string)
    ensures Due(d, i, name) <==> !(exists r :: SkipsFor(d, i, name, r)) && !(exists e :: FailsWith(d, i, name, e))
    ensures !((exists r :: SkipsFor(d, i, name, r)) && (exists e :: FailsWith(d, i, name, e)))
    ensures forall r, r' | SkipsFor(d, i, name, r) && SkipsFor(d, i, name, r') :: r == r'
    ensures forall e, e' | FailsWith(d, i, name, e) && FailsWith(d, i, name, e') :: e == e'
  {
    var first := FirstAnswer(d, i, name);
    if first.Skip? {
      assert SkipsFor(d, i, name, first.reason);
    } else if d.readSettings(name).ReadFailed? {
      assert FailsWith(d, i, name, d.readSettings(name).error);
    } else if !ReadsAnswered(d, name) {
      assert FailsWith(d, i, name, d.readEntrypoint(name).error);
    } else if SecondAnswer(d, i, name).Skip? {
      assert SkipsFor(d, i, name, SecondAnswer(d, i, name).reason);
    }
  }

  /** What the answer of `applyOne` makes the outcome; an empty version is none. */
  predicate TellsAnswer(name: string, answer: ApplyAnswer, o: Outcome) {
    match answer
    case Applies(version) => o == Applied(name, None) || (o == Applied(name, version) && version != Some(""))
    case Declines(reason) => o == Skipped(name, reason)
    case ApplyFails(error) => o == Failed(name, error)
  }

  predicate KeepsVersion(answer: ApplyAnswer, o: Outcome) {
    answer.Applies? && answer.version.Some? && answer.version.value != "" ==> o.Applied? && o.version == answer.version
  }

  /** The outcome of a candidate, with so many calls before it. */
  ghost predicate OutcomeRight<G, S, C>(d: Deps<G, S, C>, args: Args, applyOne: (nat, string) -> ApplyAnswer, i: nat,
                                        name: string, calls: nat, o: Outcome) {
    && (Due(d, i, name) ==>
          if args.apply then TellsAnswer(name, applyOne(calls, name), o) && KeepsVersion(applyOne(calls, name), o)
          else o == WouldApply(name))
    && (forall r | SkipsFor(d, i, name, r) :: o == Skipped(name, r))
    && (forall e | FailsWith(d, i, name, e) :: o == Failed(name, e))
  }

  /** The names of the candidates from i up to j that are due, in order. */
  function DueNames<G, S, C>(d: Deps<G, S, C>, candidates: seq<string>, i: nat, j: nat): seq<string>
    requires i <= j <= |candidates|
    decreases j - i
  {
    if i == j then []
    else (if Due(d, i, candidates[i]) then [candidates[i]] else []) + DueNames(d, candidates, i + 1, j)
  }

  /** A run from candidate i on: each candidate considered is called, or named, if and only if it is due,
      and none is considered once as many were due as the limit allows. */
  ghost predicate RunRight<G, S, C>(d: Deps<G, S, C>, args: Args, applyOne: (nat, string) -> ApplyAnswer,
                                    candidates: seq<string>, i: nat, redeploys: nat, r: Report)
    requires i <= |candidates|
  {
    && i + |r.outcomes| <= |candidates|
    && CallsOf(r.log) == (if args.apply then DueNames(d, candidates, i, i + |r.outcomes|) else [])
    && r.redeploys == redeploys + |DueNames(d, candidates, i, i + |r.outcomes|)|
    && forall k | 0 <= k < |r.outcomes| :: CandidateRight(d, args, applyOne, candidates, i, redeploys, k, r.outcomes[k])
  }

  ghost predicate CandidateRight<G, S, C>(d: Deps<G, S, C>, args: Args, applyOne: (nat, string) -> ApplyAnswer,
                                          candidates: seq<string>, i: nat, redeploys: nat, k: nat, o: Outcome)
    requires i + k < |candidates|
  {
    var before := redeploys + |DueNames(d, candidates, i, i + k)|;
    && OutcomeRight(d, args, applyOne, i + k, candidates[i + k], before, o)
    && (args.limit.Some? ==> before < args.limit.value)
  }

  lemma JudgeIsRight<G, S, C>(d: Deps<G, S, C>, i: nat, name: string)
    ensures Judge(d, i, name).Redeploy? <==> Due(d, i, name)
    ensures forall r :: Judge(d, i, name) == Settled(Skipped(name, r)) <==> SkipsFor(d, i, name, r)
    ensures forall e :: Judge(d, i, name) == Settled(Failed(name, e)) <==> FailsWith(d, i, name, e)
  {
  }

  lemma TurnIsRight<G, S, C>(d: Deps<G, S, C>, args: Args, applyOne: (nat, string) -> ApplyAnswer, i: nat,
                             name: string, redeploys: nat)
    ensures var t := TurnOf(d, args, applyOne, i, name, redeploys);
            && OutcomeRight(d, args, applyOne, i, name, redeploys, t.outcome)
            && t.used == (if Due(d, i, name) then 1 else 0)
            && CallsOf(t.events) == if args.apply && Due(d, i, name) then [name] else []
  {
    JudgeIsRight(d, i, name);
    CallsOfBoth(PauseBefore(args, redeploys), [Called(name)]);
  }

  lemma RightOneMore<G, S, C>(d: Deps<G, S, C>, args: Args, applyOne: (nat, string) -> ApplyAnswer,
                              candidates: seq<string>, i: nat, redeploys: nat, t: Turn, rest: Report)
    requires i < |candidates| && !LimitReached(args, redeploys)
    requires OutcomeRight(d, args, applyOne, i, candidates[i], redeploys, t.outcome)
    requires t.used == if Due(d, i, candidates[i]) then 1 else 0
    requires CallsOf(t.events) == if args.apply && Due(d, i, candidates[i]) then [candidates[i]] else []
    requires RunRight(d, args, applyOne, candidates, i + 1, redeploys + t.used, rest)
    ensures RunRight(d, args, applyOne, candidates, i, redeploys, Noted([t.outcome], t.events, rest))
  {
    var r := Noted([t.outcome], t.events, rest);
    CallsOfBoth(t.events, rest.log);
    forall k | 0 <= k < |r.outcomes|
      ensures CandidateRight(d, args, applyOne, candidates, i, redeploys, k, r.outcomes[k])
    {
      if k > 0 {
        assert r.outcomes[k] == rest.outcomes[k - 1];
        assert CandidateRight(d, args, applyOne, candidates, i + 1, redeploys + t.used, k - 1, rest.outcomes[k - 1]);
        assert |DueNames(d, candidates, i, i + k)| == t.used + |DueNames(d, candidates, i + 1, i + k)|;
      }
    }
  }

  lemma {:induction false} RunIsRight<G, S, C>(d: Deps<G, S, C>, args: Args, applyOne: (nat, string) -> ApplyAnswer,
                                               candidates: seq<string>, i: nat, redeploys: nat)
    requires i <= |candidates|
    ensures RunRight(d, args, applyOne, candidates, i, redeploys, RunFrom(d, args, applyOne, candidates, i, redeploys))
    decreases |candidates| - i
  {
    if i == |candidates| || LimitReached(args, redeploys) {
    } else {
      var t := TurnOf(d, args, applyOne, i, candidates[i], redeploys);
      RunIsRight(d, args, applyOne, candidates, i + 1, redeploys + t.used);
      TurnIsRight(d, args, applyOne, i, candidates[i], redeploys);
      RightOneMore(d, args, applyOne, candidates, i, redeploys, t,
                   RunFrom(d, args, applyOne, candidates, i + 1, redeploys + t.used));
    }
  }

  // ---- whole runs ----

  predicate LimitReached(args: Args, redeploys: nat) {
    args.limit.Some? && redeploys >= args.limit.value
  }

  /** What a run adds for one candidate: its outcome, its events, and whether it uses up the limit. */
  datatype Turn = Turn(outcome: Outcome, events: seq<Event>, used: nat)

  function PauseBefore(args: Args, redeploys: nat): seq<Event> {
    if redeploys > 0 && args.delayMs > 0 then [Paused(args.delayMs)] else []
  }

  function TurnOf<G, S, C>(d: Deps<G, S, C>, args: Args, applyOne: (nat, string) -> ApplyAnswer,
                           i: nat, name: string, redeploys: nat): Turn {
    var v := Judge(d, i, name);
    if v.Settled? then Turn(v.outcome, [], 0)
    else if !args.apply then Turn(WouldApply(name), [], 1)
    else Turn(AppliedOutcome(name, applyOne(redeploys, name)), PauseBefore(args, redeploys) + [Called(name)], 1)
  }

  /** The rest of a run from candidate i on, with so many redeploys behind it. */
  function RunFrom<G, S, C>(d: Deps<G, S, C>, args: Args, applyOne: (nat, string) -> ApplyAnswer,
                            candidates: seq<string>, i: nat, redeploys: nat): Report
    requires i <= |candidates|
    decreases |candidates| - i
  {
    if i == |candidates| || LimitReached(args, redeploys) then Report([], [], redeploys)
    else
      var t := TurnOf(d, args, applyOne, i, candidates[i], redeploys);
      Noted([t.outcome], t.events, RunFrom(d, args, applyOne, candidates, i + 1, redeploys + t.used))
  }

  function Noted(outcomes: seq<Outcome>, events: seq<Event>, rest: Report): Report {
    Report(outcomes + rest.outcomes, events + rest.log, rest.redeploys)
  }

  lemma NotedEnds(outcomes: seq<Outcome>, events: seq<Event>, rest: Report)
    ensures Noted([], [], rest) == rest
    ensures Noted(outcomes, events, Report([], [], rest.redeploys)) == Report(outcomes, events, rest.redeploys)
  {
    assert [] + rest.outcomes == rest.outcomes && [] + rest.log == rest.log;
    assert outcomes + [] == outcomes && events + [] == events;
  }

  /** One turn moves the candidate's part from the rest of the run to what is noted. */
  lemma OneTurn<G, S, C>(d: Deps<G, S, C>, args: Args, applyOne: (nat, string) -> ApplyAnswer, candidates: seq<string>,
                         i: nat, redeploys: nat, outcomes: seq<Outcome>, events: seq<Event>)
    requires i < |candidates| && !LimitReached(args, redeploys)
    ensures var t := TurnOf(d, args, applyOne, i, candidates[i], redeploys);
            Noted(outcomes + [t.outcome], events + t.events,
                  RunFrom(d, args, applyOne, candidates, i + 1, redeploys + t.used))
            == Noted(outcomes, events, RunFrom(d, args, applyOne, candidates, i, redeploys))
  {
    var t := TurnOf(d, args, applyOne, i, candidates[i], redeploys);
    var rest := RunFrom(d, args, applyOne, candidates, i + 1, redeploys + t.used);
    assert outcomes + ([t.outcome] + rest.outcomes) == outcomes + [t.outcome] + rest.outcomes;
    assert events + (t.events + rest.log) == events + t.events + rest.log;
  }

  /** The loop's body for one candidate. */
  method Consider<G, S, C>(d: Deps<G, S, C>, args: Args, applyOne: (nat, string) -> ApplyAnswer,
                           i: nat, name: string, redeploys: nat) returns (t: Turn)
    ensures t == TurnOf(d, args, applyOne, i, name, redeploys)
  {
    var v := Judge(d, i, name);
    if v.Settled? { return Turn(v.outcome, [], 0); }
    if !args.apply { return Turn(WouldApply(name), [], 1); }
    var events: seq<Event> := [];
    if redeploys > 0 && args.delayMs > 0 { events := events + [Paused(args.delayMs)]; }
    var answer := applyOne(redeploys, name);
    return Turn(AppliedOutcome(name, answer), events + [Called(name)], 1);
  }

  method RunBackfill<G, S, C>(d: Deps<G, S, C>, args: Args, applyOne: (nat, string) -> ApplyAnswer,
                              candidates: seq<string>)
    returns (report: Report)
    ensures report == RunFrom(d, args, applyOne, candidates, 0, 0)
    ensures RunRight(d, args, applyOne, candidates, 0, 0, report)
    ensures AddsUp(args, candidates, 0, 0, report)
  {
    report := Walk(d, args, applyOne, candidates);
    RunIsRight(d, args, applyOne, candidates, 0, 0);
    RunAddsUp(d, args, applyOne, candidates, 0, 0);
  }

  /** The source's loop. */
  method Walk<G, S, C>(d: Deps<G, S, C>, args: Args, applyOne: (nat, string) -> ApplyAnswer, candidates: seq<string>)
    returns (report: Report)
    ensures report == RunFrom(d, args, applyOne, candidates, 0, 0)
  {
    var outcomes: seq<Outcome>, log: seq<Event>, redeploys: nat := [], [], 0;
    var i := 0;
    NotedEnds([], [], RunFrom(d, args, applyOne, candidates, 0, 0));
    while i < |candidates|
      invariant i <= |candidates|
      invariant RunFrom(d, args, applyOne, candidates, 0, 0)
             == Noted(outcomes, log, RunFrom(d, args, applyOne, candidates, i, redeploys))
    {
      if LimitReached(args, redeploys) { break; }
      var t := Consider(d, args, applyOne, i, candidates[i], redeploys);
      OneTurn(d, args, applyOne, candidates, i, redeploys, outcomes, log);
      outcomes, log := outcomes + [t.outcome], log + t.events;
      redeploys, i := redeploys + t.used, i + 1;
    }
    report := Report(outcomes, log, redeploys);
    NotedEnds(outcomes, log, report);
  }

  // ---- accounting ----

  /** One outcome for each candidate considered, in order, and all considered unless the limit
      is reached. */
  predicate Considered(args: Args, candidates: seq<string>, i: nat, r: Report)
    requires i <= |candidates|
  {
    && |r.outcomes| <= |candidates| - i
    && (forall k | 0 <= k < |r.outcomes| :: r.outcomes[k].name == candidates[i + k])
    && (|r.outcomes| < |candidates| - i ==> args.limit == Some(r.redeploys))
  }

  /** The names passed to `applyOne`, in order. */
  function CallsOf(log: seq<Event>): seq<string> {
    if log == [] then [] else (if log[0].Called? then [log[0].name] else []) + CallsOf(log[1..])
  }

  lemma {:induction false} CallsOfBoth(a: seq<Event>, b: seq<Event>)
    ensures CallsOf(a + b) == CallsOf(a) + CallsOf(b)
  {
    if a == [] {
      assert a + b == b;
    } else {
      var first := if a[0].Called? then [a[0].name] else [];
      CallsOfBoth(a[1..], b);
      assert (a + b)[0] == a[0] && (a + b)[1..] == a[1..] + b;
      assert first + (CallsOf(a[1..]) + CallsOf(b)) == first + CallsOf(a[1..]) + CallsOf(b);
    }
  }

  /** With a delay, every second event is a pause of that length, the last one is a call, and the first
      is a pause exactly if calls went before; without one there are no pauses. */
  predicate Spaced(args: Args, redeploys: nat, log: seq<Event>) {
    var first := if redeploys > 0 then 0 else 1;
    && (forall k | 0 <= k < |log| :: log[k].Paused? <==> args.delayMs > 0 && (first + k) % 2 == 0)
    && (forall k | 0 <= k < |log| :: log[k].Paused? ==> log[k].ms == args.delayMs)
    && (log != [] ==> log[|log| - 1].Called?)
  }

  /** The redeploys, which are the calls of `applyOne` whatever they answer, within the limit,
      and a pause between each two calls; a dry run does nothing. */
  predicate Paced(args: Args, redeploys: nat, r: Report) {
    && (args.limit.Some? ==> r.redeploys <= args.limit.value)
    && |CallsOf(r.log)| == (if args.apply then r.redeploys - redeploys else 0)
    && Spaced(args, redeploys, r.log) && (!args.apply ==> r.log == [])
  }

  lemma ConsideredOneMore(args: Args, candidates: seq<string>, i: nat, t: Turn, rest: Report)
    requires i < |candidates| && Considered(args, candidates, i + 1, rest) && t.outcome.name == candidates[i]
    ensures Considered(args, candidates, i, Noted([t.outcome], t.events, rest))
  {
    var r := Noted([t.outcome], t.events, rest);
    forall k | 0 <= k < |r.outcomes| ensures r.outcomes[k].name == candidates[i + k] {
      if k > 0 { assert rest.outcomes[k - 1].name == candidates[i + 1 + (k - 1)]; }
    }
  }

  predicate AddsUp(args: Args, candidates: seq<string>, i: nat, redeploys: nat, r: Report)
    requires i <= |candidates|
  {
    Considered(args, candidates, i, r) && Paced(args, redeploys, r) && redeploys <= r.redeploys
  }

  lemma {:induction false} RunAddsUp<G, S, C>(d: Deps<G, S, C>, args: Args, applyOne: (nat, string) -> ApplyAnswer,
                                              candidates: seq<string>, i: nat, redeploys: nat)
    requires i <= |candidates| && (args.limit.Some? ==> redeploys <= args.limit.value)
    ensures AddsUp(args, candidates, i, redeploys, RunFrom(d, args, applyOne, candidates, i, redeploys))
    decreases |candidates| - i
  {
    if i == |candidates| || LimitReached(args, redeploys) {
      NothingAddsUp(args, candidates, i, redeploys);
    } else {
      var t := TurnOf(d, args, applyOne, i, candidates[i], redeploys);
      RunAddsUp(d, args, applyOne, candidates, i + 1, redeploys + t.used);
      TurnFits(d, args, applyOne, i, candidates[i], redeploys);
      AddsUpOneMore(args, candidates, i, redeploys, t,
                    RunFrom(d, args, applyOne, candidates, i + 1, redeploys + t.used));
    }
  }

  lemma NothingAddsUp(args: Args, candidates: seq<string>, i: nat, redeploys: nat)
    requires i <= |candidates| && (args.limit.Some? ==> redeploys <= args.limit.value)
    requires i == |candidates| || LimitReached(args, redeploys)
    ensures AddsUp(args, candidates, i, redeploys, Report([], [], redeploys))
  {
  }

  lemma AddsUpOneMore(args: Args, candidates: seq<string>, i: nat, redeploys: nat, t: Turn, rest: Report)
    requires i < |candidates| && AddsUp(args, candidates, i + 1, redeploys + t.used, rest)
    requires t.outcome.name == candidates[i] && t.used <= 1
    requires t.events == if args.apply && t.used == 1 then PauseBefore(args, redeploys) + [Called(candidates[i])]
                         else []
    ensures AddsUp(args, candidates, i, redeploys, Noted([t.outcome], t.events, rest))
  {
    ConsideredOneMore(args, candidates, i, t, rest);
    PacedOneMore(args, redeploys, t, candidates[i], rest);
  }

  lemma TurnFits<G, S, C>(d: Deps<G, S, C>, args: Args, applyOne: (nat, string) -> ApplyAnswer, i: nat, name: string,
                          redeploys: nat)
    ensures var t := TurnOf(d, args, applyOne, i, name, redeploys);
            && t.outcome.name == name && t.used <= 1
            && t.events == if args.apply && t.used == 1 then PauseBefore(args, redeploys) + [Called(name)] else []
  {
  }

  lemma SpacedOneMore(args: Args, redeploys: nat, name: string, log: seq<Event>)
    requires Spaced(args, redeploys + 1, log)
    ensures Spaced(args, redeploys, PauseBefore(args, redeploys) + [Called(name)] + log)
  {
    var front := PauseBefore(args, redeploys) + [Called(name)];
    var whole := front + log;
    forall k | |front| <= k < |whole| ensures whole[k] == log[k - |front|] { }
    assert log != [] ==> whole[|whole| - 1] == log[|log| - 1];
    assert whole[|front| - 1] == Called(name);
  }

  lemma PacedOneMore(args: Args, redeploys: nat, t: Turn, name: string, rest: Report)
    requires Paced(args, redeploys + t.used, rest) && redeploys + t.used <= rest.redeploys
    requires t.used <= 1
    requires t.events == if args.apply && t.used == 1 then PauseBefore(args, redeploys) + [Called(name)] else []
    ensures Paced(args, redeploys, Noted([t.outcome], t.events, rest))
  {
    CallsOfBoth(t.events, rest.log);
    if t.events == [] {
      assert t.events + rest.log == rest.log;
    } else {
      SpacedOneMore(args, redeploys, name, rest.log);
      CallsOfBoth(PauseBefore(args, redeploys), [Called(name)]);
    }
  }

  function WouldApplyNames(outcomes: seq<Outcome>): seq<string> {
    if outcomes == [] then []
    else (if outcomes[0].WouldApply? then [outcomes[0].name] else []) + WouldApplyNames(outcomes[1..])
  }

  /** The two runs agree on a candidate: it is settled alike, or one names it and the other calls. */
  predicate Agree(dry: Outcome, applied: Outcome) {
    dry.name == applied.name && !applied.WouldApply? && (dry.WouldApply? || dry == applied)
  }

  /** The dry run names exactly the calls of the other, in order, and settles every other
      candidate alike, without a call or a pause of its own. */
  predicate Predicts(dry: Report, applied: Report) {
    && WouldApplyNames(dry.outcomes) == CallsOf(applied.log)
    && |dry.outcomes| == |applied.outcomes| && dry.redeploys == applied.redeploys
    && (forall k | 0 <= k < |dry.outcomes| :: Agree(dry.outcomes[k], applied.outcomes[k]))
    && dry.log == []
  }

  lemma PredictsOneMore(dry: Outcome, applied: Outcome, events: seq<Event>, dryRest: Report, appliedRest: Report)
    requires Agree(dry, applied) && Predicts(dryRest, appliedRest)
    requires CallsOf(events) == if dry.WouldApply? then [dry.name] else []
    ensures Predicts(Noted([dry], [], dryRest), Noted([applied], events, appliedRest))
  {
    assert ([dry] + dryRest.outcomes)[1..] == dryRest.outcomes;
    CallsOfBoth(events, appliedRest.log);
  }

  /** Two runs at the same candidate go on from turns that agree. */
  lemma NextTurns<G, S, C>(d: Deps<G, S, C>, dry: Args, applying: Args, dryApply: (nat, string) -> ApplyAnswer,
                           applyOne: (nat, string) -> ApplyAnswer, candidates: seq<string>, i: nat, redeploys: nat)
    returns (t1: Turn, t2: Turn)
    requires i < |candidates| && !LimitReached(dry, redeploys) && dry.limit == applying.limit
    requires !dry.apply && applying.apply
    ensures Agree(t1.outcome, t2.outcome) && t1.used == t2.used && t1.events == []
    ensures CallsOf(t2.events) == if t1.outcome.WouldApply? then [t1.outcome.name] else []
    ensures RunFrom(d, dry, dryApply, candidates, i, redeploys)
         == Noted([t1.outcome], [], RunFrom(d, dry, dryApply, candidates, i + 1, redeploys + t1.used))
    ensures RunFrom(d, applying, applyOne, candidates, i, redeploys)
         == Noted([t2.outcome], t2.events, RunFrom(d, applying, applyOne, candidates, i + 1, redeploys + t1.used))
  {
    t1 := TurnOf(d, dry, dryApply, i, candidates[i], redeploys);
    t2 := TurnOf(d, applying, applyOne, i, candidates[i], redeploys);
    CallsOfBoth(PauseBefore(applying, redeploys), [Called(candidates[i])]);
  }

  /** Whatever `applyOne` answers or does, a dry run predicts the run that applies. */
  lemma {:induction false} DryRunPredicts<G, S, C>(d: Deps<G, S, C>, limit: Option<nat>, dryDelay: nat, delay: nat,
                                                   dryApply: (nat, string) -> ApplyAnswer,
                                                   applyOne: (nat, string) -> ApplyAnswer,
                                                   candidates: seq<string>, i: nat, redeploys: nat)
    requires i <= |candidates|
    ensures Predicts(RunFrom(d, Args(false, limit, dryDelay), dryApply, candidates, i, redeploys),
                     RunFrom(d, Args(true, limit, delay), applyOne, candidates, i, redeploys))
    decreases |candidates| - i
  {
    var dry, applying := Args(false, limit, dryDelay), Args(true, limit, delay);
    if i == |candidates| || LimitReached(dry, redeploys) {
    } else {
      var t1, t2 := NextTurns(d, dry, applying, dryApply, applyOne, candidates, i, redeploys);
      DryRunPredicts(d, limit, dryDelay, delay, dryApply, applyOne, candidates, i + 1, redeploys + t1.used);
      PredictsOneMore(t1.outcome, t2.outcome, t2.events,
                      RunFrom(d, dry, dryApply, candidates, i + 1, redeploys + t1.used),
                      RunFrom(d, applying, applyOne, candidates, i + 1, redeploys + t1.used));
    }
  }

  // ---- the summary ----

  datatype Summary = Summary(applied: nat, wouldApply: nat, failed: nat, skipped: map<SkipReason, nat>)

  /** What an outcome counts as in the summary. */
  datatype Kind = AsApplied | AsWouldApply | AsFailed | AsSkipped(reason: SkipReason)

  function KindOf(o: Outcome): Kind {
    match o
    case Applied(_, _) => AsApplied
    case WouldApply(_) => AsWouldApply
    case Failed(_, _) => AsFailed
    case Skipped(_, reason) => AsSkipped(reason)
  }

  function Count(outcomes: seq<Outcome>, kind: Kind): nat {
    if outcomes == [] then 0
    else Count(outcomes[..|outcomes| - 1], kind) + if KindOf(outcomes[|outcomes| - 1]) == kind then 1 else 0
  }

  function SkippedFor(s: Summary, r: SkipReason): nat { if r in s.skipped then s.skipped[r] else 0 }

  function Tally(s: Summary, kind: Kind): nat {
    match kind
    case AsApplied => s.applied
    case AsWouldApply => s.wouldApply
    case AsFailed => s.failed
    case AsSkipped(reason) => SkippedFor(s, reason)
  }

  lemma CountOneMore(outcomes: seq<Outcome>, o: Outcome, kind: Kind)
    ensures Count(outcomes + [o], kind) == Count(outcomes, kind) + if KindOf(o) == kind then 1 else 0
  {
    assert (outcomes + [o])[..|outcomes|] == outcomes;
  }

  /** One turn of the source's loop. */
  function Tallied(s: Summary, o: Outcome): Summary {
    match o
    case Applied(_, _) => s.(applied := s.applied + 1)
    case WouldApply(_) => s.(wouldApply := s.wouldApply + 1)
    case Failed(_, _) => s.(failed := s.failed + 1)
    case Skipped(_, reason) => s.(skipped := s.skipped[reason := SkippedFor(s, reason) + 1])
  }

  ghost predicate Tallies(s: Summary, outcomes: seq<Outcome>) {
    forall kind :: Tally(s, kind) == Count(outcomes, kind)
  }

  lemma TalliesOneMore(s: Summary, outcomes: seq<Outcome>, o: Outcome)
    requires Tallies(s, outcomes)
    ensures Tallies(Tallied(s, o), outcomes + [o])
  {
    forall kind ensures Tally(Tallied(s, o), kind) == Count(outcomes + [o], kind) {
      CountOneMore(outcomes, o, kind);
      assert Tally(s, kind) == Count(outcomes, kind);
    }
  }

  predicate OccurringOnly(s: Summary) {
    forall r | r in s.skipped :: s.skipped[r] > 0
  }

  lemma PositiveOneMore(s: Summary, o: Outcome)
    requires OccurringOnly(s)
    ensures OccurringOnly(Tallied(s, o))
  {
    var s' := Tallied(s, o);
    forall r | r in s'.skipped ensures s'.skipped[r] > 0 {
      assert r in s.skipped || (o.Skipped? && r == o.reason);
    }
  }

  /** The summary counts the outcomes of each kind, each skip reason apart, and lists only reasons
      that occur. */
  method Summarize(outcomes: seq<Outcome>) returns (s: Summary)
    ensures Tallies(s, outcomes)
    ensures OccurringOnly(s)
    ensures s.applied == |set k | 0 <= k < |outcomes| && outcomes[k].Applied?|
    ensures s.wouldApply == |set k | 0 <= k < |outcomes| && outcomes[k].WouldApply?|
    ensures s.failed == |set k | 0 <= k < |outcomes| && outcomes[k].Failed?|
    ensures forall r | r in s.skipped ::
              s.skipped[r] == |set k | 0 <= k < |outcomes| && outcomes[k].Skipped? && outcomes[k].reason == r|
    ensures forall k | 0 <= k < |outcomes| && outcomes[k].Skipped? :: outcomes[k].reason in s.skipped
  {
    s := Tallying(outcomes);
    SummaryCounts(s, outcomes);
  }

  function Places(outcomes: seq<Outcome>, kind: Kind): set<nat> {
    set k: nat | k < |outcomes| && KindOf(outcomes[k]) == kind
  }

  lemma {:induction false} CountIsPlaces(outcomes: seq<Outcome>, kind: Kind)
    ensures Count(outcomes, kind) == |Places(outcomes, kind)|
  {
    if outcomes == [] {
      assert Places(outcomes, kind) == {};
    } else {
      var last := |outcomes| - 1;
      CountIsPlaces(outcomes[..last], kind);
      PlacesOneMore(outcomes, kind);
    }
  }

  lemma PlacesOneMore(outcomes: seq<Outcome>, kind: Kind)
    requires outcomes != []
    ensures var last := |outcomes| - 1;
            |Places(outcomes, kind)| == |Places(outcomes[..last], kind)|
              + if KindOf(outcomes[last]) == kind then 1 else 0
  {
    var last := |outcomes| - 1;
    var before := Places(outcomes[..last], kind);
    assert last !in before;
    assert Places(outcomes, kind) == before + if KindOf(outcomes[last]) == kind then {last} else {};
  }

  lemma SummaryCounts(s: Summary, outcomes: seq<Outcome>)
    requires Tallies(s, outcomes) && OccurringOnly(s)
    ensures s.applied == |set k | 0 <= k < |outcomes| && outcomes[k].Applied?|
    ensures s.wouldApply == |set k | 0 <= k < |outcomes| && outcomes[k].WouldApply?|
    ensures s.failed == |set k | 0 <= k < |outcomes| && outcomes[k].Failed?|
    ensures forall r | r in s.skipped ::
              s.skipped[r] == |set k | 0 <= k < |outcomes| && outcomes[k].Skipped? && outcomes[k].reason == r|
    ensures forall k | 0 <= k < |outcomes| && outcomes[k].Skipped? :: outcomes[k].reason in s.skipped
  {
    forall kind ensures Tally(s, kind) == |Places(outcomes, kind)| { CountIsPlaces(outcomes, kind); }
    PlacesByKind(outcomes);
    assert Tally(s, AsApplied) == s.applied && Tally(s, AsWouldApply) == s.wouldApply && Tally(s, AsFailed) == s.failed;
    forall r | r in s.skipped
      ensures s.skipped[r] == |set k | 0 <= k < |outcomes| && outcomes[k].Skipped? && outcomes[k].reason == r|
    {
      assert Tally(s, AsSkipped(r)) == s.skipped[r];
    }
    forall k | 0 <= k < |outcomes| && outcomes[k].Skipped? ensures outcomes[k].reason in s.skipped {
      assert k in Places(outcomes, AsSkipped(outcomes[k].reason));
      assert Tally(s, AsSkipped(outcomes[k].reason)) > 0;
    }
  }

  lemma PlacesByKind(outcomes: seq<Outcome>)
    ensures Places(outcomes, AsApplied) == set k | 0 <= k < |outcomes| && outcomes[k].Applied?
    ensures Places(outcomes, AsWouldApply) == set k | 0 <= k < |outcomes| && outcomes[k].WouldApply?
    ensures Places(outcomes, AsFailed) == set k | 0 <= k < |outcomes| && outcomes[k].Failed?
    ensures forall r :: Places(outcomes, AsSkipped(r))
                     == set k | 0 <= k < |outcomes| && outcomes[k].Skipped? && outcomes[k].reason == r
  {
  }

  method Tallying(outcomes: seq<Outcome>) returns (s: Summary)
    ensures Tallies(s, outcomes)
    ensures OccurringOnly(s)
  {
    s := Summary(0, 0, 0, map[]);
    for i := 0 to |outcomes|
      invariant Tallies(s, outcomes[..i])
      invariant OccurringOnly(s)
    {
      TalliesOneMore(s, outcomes[..i], outcomes[i]);
      PositiveOneMore(s, outcomes[i]);
      assert outcomes[..i + 1] == outcomes[..i] + [outcomes[i]];
      s := Tallied(s, outcomes[i]);
    }
    assert outcomes[..|outcomes|] == outcomes;
  }

  function Total(s: Summary): nat {
    s.applied + s.wouldApply + s.failed
    + SkippedFor(s, NotLive) + SkippedFor(s, NoArtifactRecord) + SkippedFor(s, Suspended)
    + SkippedFor(s, Quarantined) + SkippedFor(s, LeaseHeld) + SkippedFor(s, AlreadyApplied)
  }

  function CountSkipped(outcomes: seq<Outcome>): nat {
    Count(outcomes, AsSkipped(NotLive)) + Count(outcomes, AsSkipped(NoArtifactRecord))
    + Count(outcomes, AsSkipped(Suspended)) + Count(outcomes, AsSkipped(Quarantined))
    + Count(outcomes, AsSkipped(LeaseHeld)) + Count(outcomes, AsSkipped(AlreadyApplied))
  }

  lemma SkippedOneMore(outcomes: seq<Outcome>)
    requires outcomes != []
    ensures CountSkipped(outcomes)
         == CountSkipped(outcomes[..|outcomes| - 1]) + if outcomes[|outcomes| - 1].Skipped? then 1 else 0
  {
    var o := outcomes[|outcomes| - 1];
    if o.Skipped? {
      match o.reason
      case NotLive =>
      case NoArtifactRecord =>
      case Suspended =>
      case Quarantined =>
      case LeaseHeld =>
      case AlreadyApplied =>
    }
  }

  lemma {:induction false} EveryOutcomeCounts(outcomes: seq<Outcome>)
    ensures Count(outcomes, AsApplied) + Count(outcomes, AsWouldApply) + Count(outcomes, AsFailed)
            + CountSkipped(outcomes) == |outcomes|
  {
    if outcomes == [] {
    } else {
      EveryOutcomeCounts(outcomes[..|outcomes| - 1]);
      SkippedOneMore(outcomes);
    }
  }

  /** The totals of a summary add up to the number of outcomes. */
  lemma SummaryAddsUp(s: Summary, outcomes: seq<Outcome>)
    requires Tallies(s, outcomes)
    ensures Total(s) == |outcomes|
  {
    EveryOutcomeCounts(outcomes);
    assert forall r :: SkippedFor(s, r) == Tally(s, AsSkipped(r)) == Count(outcomes, AsSkipped(r));
    assert Tally(s, AsApplied) == s.applied && Tally(s, AsWouldApply) == s.wouldApply && Tally(s, AsFailed) == s.failed;
  }
}
