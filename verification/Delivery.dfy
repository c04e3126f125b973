/** The chat's send queue within one mount of a thread: messages go out under ids made by the
    client, replies may be lost, late or repeated, and a reopened transport sends again whatever
    is not known to be accepted. */
module Delivery {
  import opened Options

  datatype Id = Id(key: string)

  /** The backup of a submitted draft, and whether its message is known to be accepted. */
  datatype Draft = Draft(id: Id, accepted: bool)

  /** What becomes of the stored backup when one is written: storage may be full, and a blank
      draft is removed instead. */
  datatype Storing = Written | Unchanged | Removed

  datatype Queue = Queue(
    pending: seq<Id>,       // pendingMessagesRef
    accepted: set<Id>,      // acceptedPendingMessageIdsRef
    draft: Option<Draft>,   // pendingDeliveryDraftRef
    drafts: nat,            // pendingDraftCountRef
    stored: Option<Draft>,  // the backup in browser storage
    initial: Option<Id>,    // queuedInitialSendRef
    dispatched: seq<Id>,    // the ids sent to the agent, in order
    restored: seq<Id>,      // the ids whose text went back into the composer, in order
    used: set<Id>,          // the ids queued in this mount
    acked: set<Id>)         // the ids whose accepted reply has been processed

  /** A new mount, with whatever backup storage holds. */
  function Mounted(stored: Option<Draft>): Queue {
    Queue([], {}, None, 0, stored, None, [], [], {}, {})
  }

  // ---- the callbacks ----

  predicate Marked(d: Option<Draft>, id: Id) { d.Some? && d.value.id == id && d.value.accepted }

  predicate IsAccepted(q: Queue, id: Id) {
    id in q.accepted || Marked(q.draft, id) || Marked(q.stored, id)
  }

  function Keep(ids: seq<Id>, kept: set<Id>): (r: seq<Id>)
    ensures forall id :: id in r <==> id in ids && id in kept
    ensures |r| <= |ids|
  {
    if ids == [] then [] else (if ids[0] in kept then [ids[0]] else []) + Keep(ids[1..], kept)
  }

  function UnacceptedIds(q: Queue): set<Id> {
    set id | id in q.pending && !IsAccepted(q, id)
  }

  function Unaccepted(q: Queue): seq<Id> { Keep(q.pending, UnacceptedIds(q)) }

  function AfterWrite(stored: Option<Draft>, d: Draft, storing: Storing): Option<Draft> {
    match storing
    case Written => Some(d)
    case Unchanged => stored
    case Removed => None
  }

  /** `preserveDraftForDelivery` */
  function Preserved(q: Queue, id: Id, storing: Storing): Queue {
    q.(drafts := q.drafts + 1, draft := Some(Draft(id, false)),
       stored := AfterWrite(q.stored, Draft(id, false), storing))
  }

  function Enqueued(q: Queue, id: Id): Queue {
    q.(pending := if id in q.pending then q.pending else q.pending + [id], used := q.used + {id})
  }

  /** `sendPendingMessageToAgent` up to its call. */
  function Dispatched(q: Queue, ids: seq<Id>, open: bool): Queue {
    if open then q.(dispatched := q.dispatched + ids) else q
  }

  /** `markPendingDeliveryDraftAccepted` */
  function Acknowledged(q: Queue, id: Id, storing: Storing): Queue {
    var q1 := q.(accepted := q.accepted + {id}, acked := q.acked + {id});
    var d := Draft(id, true);
    if q.draft.Some? && q.draft.value.id == id then q1.(draft := Some(d), stored := AfterWrite(q.stored, d, storing))
    else if q.stored.Some? && q.stored.value.id == id then q1.(stored := AfterWrite(q.stored, d, storing))
    else q1
  }

  function Backup(q: Queue): Option<Draft> { if q.draft.Some? then q.draft else q.stored }

  /** `restorePendingDeliveryDraft`; `edited` if the composer holds something else by now. */
  function Restored(q: Queue, edited: bool): Queue {
    var backup, q1 := Backup(q), q.(draft := None, drafts := 0);
    if backup.None? then q1
    else if backup.value.accepted || edited then q1.(stored := None)
    else q1.(restored := q.restored + [backup.value.id], stored := None)
  }

  /** `clearPendingDeliveryDraft` */
  function Cleared(q: Queue): Queue {
    if q.draft.Some? && q.drafts > 1 then q.(drafts := q.drafts - 1)
    else if Backup(q).None? then q
    else q.(draft := None, stored := None, drafts := if q.draft.Some? then 0 else q.drafts)
  }

  /** `failPendingMessageDelivery` */
  function Refused(q: Queue, edited: bool): Queue {
    var failed := UnacceptedIds(q);
    if Unaccepted(q) == [] then q
    else
      var kept := (set id | id in q.pending) - failed;
      Restored(q.(accepted := q.accepted - failed, pending := Keep(q.pending, kept)), edited)
  }

  function Ended(q: Queue): Queue { q.(accepted := {}, pending := []) }

  // ---- steps ----

  datatype Step =
    | Send(id: Id, preserved: bool, storing: Storing, open: bool) // a message from the composer
    | InitialSend(id: Id)                       // the first message of a new thread; its effect may run again
    | Reopen(open: bool)                        // the transport opens again
    | Accept(id: Id, storing: Storing)          // a reply: accepted
    | Refuse(id: Id, edited: bool)              // a reply: busy or an error
    | Lose(id: Id)                              // a call fails in transport, or its reply is for another thread
    | TerminalError(edited: bool)
    | TurnEnd

  /** Ids are fresh when first queued, and only what was sent is answered. */
  predicate Enabled(q: Queue, step: Step) {
    match step
    case Send(id, _, _, _) => id !in q.used && (q.stored.Some? ==> q.stored.value.id != id)
    case InitialSend(id) => id !in q.used || q.initial == Some(id)
    case Accept(id, _) => id in q.dispatched
    case Refuse(id, _) => id in q.dispatched
    case Lose(id) => id in q.dispatched
    case _ => true
  }

  function Apply(q: Queue, step: Step): Queue {
    match step
    case Send(id, preserved, storing, open) =>
      Dispatched(Enqueued(if preserved then Preserved(q, id, storing) else q, id), [id], open)
    case InitialSend(id) =>
      if q.initial == Some(id) then q
      else if IsAccepted(q, id) then q.(initial := Some(id))
      else Enqueued(q.(initial := Some(id), drafts := q.drafts + 1, draft := Some(Draft(id, false))), id)
    case Reopen(open) => Dispatched(q, Unaccepted(q), open)
    case Accept(id, storing) => Acknowledged(q, id, storing)
    case Refuse(_, edited) => Refused(q, edited)
    case Lose(_) => q
    case TerminalError(edited) => Restored(Ended(q), edited)
    case TurnEnd => Cleared(Ended(q))
  }

  predicate Possible(q: Queue, steps: seq<Step>)
    decreases |steps|
  {
    steps == [] || (Enabled(q, steps[0]) && Possible(Apply(q, steps[0]), steps[1..]))
  }

  function After(q: Queue, steps: seq<Step>): Queue
    requires Possible(q, steps)
    decreases |steps|
  {
    if steps == [] then q else After(Apply(q, steps[0]), steps[1..])
  }

  // ---- the invariant ----

  predicate NoDuplicates(ids: seq<Id>) { forall i, j | 0 <= i < j < |ids| :: ids[i] != ids[j] }

  predicate Safe(q: Queue) {
    && NoDuplicates(q.pending)
    && (forall id | id in q.pending :: id in q.used)
    && (forall id | id in q.dispatched :: id in q.used)
    && q.acked <= q.used && q.accepted <= q.acked
    && (forall id | id in q.acked && id in q.pending :: id in q.accepted)
    && (q.draft.Some? ==> q.draft.value.id in q.used && (q.draft.value.accepted <==> q.draft.value.id in q.acked))
    && (q.stored.Some? && q.stored.value.id in q.used ==>
          q.draft.Some? && (q.stored.value.accepted ==> q.stored.value.id in q.acked))
  }

  lemma {:induction false} KeepHasNoDuplicates(ids: seq<Id>, kept: set<Id>)
    requires NoDuplicates(ids)
    ensures NoDuplicates(Keep(ids, kept))
    decreases |ids|
  {
    if ids == [] {
    } else {
      KeepHasNoDuplicates(ids[1..], kept);
      assert forall i | 0 <= i < |Keep(ids[1..], kept)| :: Keep(ids[1..], kept)[i] in ids[1..];
      assert ids[0] !in ids[1..];
    }
  }

  /** A queued message is withheld when the transport reopens exactly if its acceptance has been
      processed. */
  lemma AcceptedMeansAcked(q: Queue, id: Id)
    requires Safe(q) && id in q.pending
    ensures IsAccepted(q, id) <==> id in q.acked
  {
  }

  lemma RefuseKeepsSafe(q: Queue, edited: bool)
    requires Safe(q)
    ensures Safe(Refused(q, edited))
  {
    var kept := (set id | id in q.pending) - UnacceptedIds(q);
    KeepHasNoDuplicates(q.pending, kept);
    forall id | id in q.acked && id in Keep(q.pending, kept) ensures id in q.accepted - UnacceptedIds(q) {
      AcceptedMeansAcked(q, id);
    }
  }

  lemma SendKeepsSafe(q: Queue, step: Step)
    requires Safe(q) && Enabled(q, step) && step.Send?
    ensures Safe(Apply(q, step))
  {
  }

  lemma InitialSendKeepsSafe(q: Queue, step: Step)
    requires Safe(q) && Enabled(q, step) && step.InitialSend?
    ensures Safe(Apply(q, step))
  {
  }

  lemma ReopenKeepsSafe(q: Queue, open: bool)
    requires Safe(q)
    ensures Safe(Dispatched(q, Unaccepted(q), open))
  {
  }

  lemma AcceptKeepsSafe(q: Queue, step: Step)
    requires Safe(q) && Enabled(q, step) && step.Accept?
    ensures Safe(Apply(q, step))
  {
  }

  lemma EndKeepsSafe(q: Queue, edited: bool)
    requires Safe(q)
    ensures Safe(Restored(Ended(q), edited)) && Safe(Cleared(Ended(q)))
  {
  }

  lemma {:induction false} StepKeepsSafe(q: Queue, step: Step)
    requires Safe(q) && Enabled(q, step)
    ensures Safe(Apply(q, step))
  {
    match step
    case Send(_, _, _, _) => SendKeepsSafe(q, step);
    case InitialSend(_) => InitialSendKeepsSafe(q, step);
    case Reopen(open) => ReopenKeepsSafe(q, open);
    case Accept(_, _) => AcceptKeepsSafe(q, step);
    case Refuse(_, edited) => RefuseKeepsSafe(q, edited);
    case Lose(_) =>
    case TerminalError(edited) => EndKeepsSafe(q, edited);
    case TurnEnd => EndKeepsSafe(q, false);
  }

  // ---- what every run keeps ----

  /** What a step adds to the logs of sent and of restored messages is not known to be accepted. */
  predicate AddsUnacked(q: Queue, q': Queue) {
    && q.dispatched <= q'.dispatched && q.restored <= q'.restored && q.acked <= q'.acked
    && (forall k | |q.dispatched| <= k < |q'.dispatched| :: q'.dispatched[k] !in q.acked)
    && (forall k | |q.restored| <= k < |q'.restored| :: q'.restored[k] !in q.acked)
  }

  lemma ReopenAddsUnacked(q: Queue, open: bool)
    requires Safe(q)
    ensures AddsUnacked(q, Dispatched(q, Unaccepted(q), open))
  {
    var sent := Unaccepted(q);
    forall k | 0 <= k < |sent| ensures sent[k] !in q.acked {
      assert sent[k] in sent;
      AcceptedMeansAcked(q, sent[k]);
    }
  }

  lemma RestoreAddsUnacked(q: Queue, q1: Queue, edited: bool)
    requires Safe(q) && q1 == q.(accepted := q1.accepted, pending := q1.pending)
    ensures AddsUnacked(q, Restored(q1, edited))
  {
    assert Backup(q).Some? && !Backup(q).value.accepted ==> Backup(q).value.id !in q.acked;
  }

  lemma StepAddsUnacked(q: Queue, step: Step)
    requires Safe(q) && Enabled(q, step)
    ensures AddsUnacked(q, Apply(q, step))
  {
    match step
    case Reopen(open) => ReopenAddsUnacked(q, open);
    case Refuse(_, edited) =>
      var failed := UnacceptedIds(q);
      RestoreAddsUnacked(q, q.(accepted := q.accepted - failed,
                               pending := Keep(q.pending, (set id | id in q.pending) - failed)), edited);
    case TerminalError(edited) => RestoreAddsUnacked(q, Ended(q), edited);
    case _ =>
  }

  lemma {:induction false} RunsAddUnacked(q: Queue, steps: seq<Step>)
    requires Safe(q) && Possible(q, steps)
    ensures Safe(After(q, steps)) && AddsUnacked(q, After(q, steps))
    decreases |steps|
  {
    if steps == [] {
    } else {
      StepKeepsSafe(q, steps[0]);
      StepAddsUnacked(q, steps[0]);
      RunsAddUnacked(Apply(q, steps[0]), steps[1..]);
    }
  }

  lemma MountedIsSafe(stored: Option<Draft>)
    ensures Safe(Mounted(stored))
  {
  }

  /** From the mount on, over any interleaving of sends, late or repeated replies, failures, reopens,
      terminal errors and turn ends: no message is queued twice, and once its acceptance has been
      processed a message is never sent again, nor put back into the composer. */
  lemma AcceptedIsNeverResent(stored: Option<Draft>, earlier: seq<Step>, later: seq<Step>)
    requires Possible(Mounted(stored), earlier) && Possible(After(Mounted(stored), earlier), later)
    ensures var q := After(Mounted(stored), earlier);
            Safe(q) && Safe(After(q, later)) && AddsUnacked(q, After(q, later))
  {
    MountedIsSafe(stored);
    RunsAddUnacked(Mounted(stored), earlier);
    RunsAddUnacked(After(Mounted(stored), earlier), later);
  }

  // ---- what each step does for a message ----

  /** The acceptances processed are those the steps bring. */
  lemma {:induction false} AckedIsAccepted(q: Queue, steps: seq<Step>, id: Id)
    requires Possible(q, steps)
    ensures id in After(q, steps).acked <==> id in q.acked || exists k | 0 <= k < |steps| :: Accepts(steps[k], id)
    decreases |steps|
  {
    if steps == [] {
    } else {
      AckedIsAccepted(Apply(q, steps[0]), steps[1..], id);
      assert forall k | 0 < k < |steps| :: steps[k] == steps[1..][k - 1];
      if k :| 0 <= k < |steps[1..]| && Accepts(steps[1..][k], id) { assert Accepts(steps[k + 1], id); }
    }
  }

  predicate Accepts(step: Step, id: Id) { step.Accept? && step.id == id }

  /** What both hold stands in the same order in both. */
  predicate InOrder(some: seq<Id>, ids: seq<Id>) {
    forall i, j, a, b | 0 <= i < j < |some| && 0 <= a < |ids| && 0 <= b < |ids| ::
      ids[a] == some[i] && ids[b] == some[j] ==> a < b
  }

  lemma {:induction false} KeepIsInOrder(ids: seq<Id>, kept: set<Id>)
    requires NoDuplicates(ids)
    ensures InOrder(Keep(ids, kept), ids)
    decreases |ids|
  {
    if ids == [] {
    } else {
      KeepIsInOrder(ids[1..], kept);
      KeptAfterFirst(ids, kept);
    }
  }

  lemma KeptAfterFirst(ids: seq<Id>, kept: set<Id>)
    requires ids != [] && NoDuplicates(ids) && InOrder(Keep(ids[1..], kept), ids[1..])
    ensures InOrder(Keep(ids, kept), ids)
  {
    var all := Keep(ids, kept);
    forall i, j, a, b | 0 <= i < j < |all| && 0 <= a < |ids| && 0 <= b < |ids| && ids[a] == all[i] && ids[b] == all[j]
      ensures a < b
    {
      KeptPair(ids, kept, i, j, a, b);
    }
  }

  lemma KeptPair(ids: seq<Id>, kept: set<Id>, i: nat, j: nat, a: nat, b: nat)
    requires ids != [] && NoDuplicates(ids) && InOrder(Keep(ids[1..], kept), ids[1..])
    requires i < j < |Keep(ids, kept)| && a < |ids| && b < |ids|
    requires ids[a] == Keep(ids, kept)[i] && ids[b] == Keep(ids, kept)[j]
    ensures a < b
  {
    var first := if ids[0] in kept then 1 else 0;
    KeptIndex(ids, kept, j, b);
    if i >= first { KeptIndex(ids, kept, i, a); }
  }

  /** What is kept of the tail has its place there. */
  lemma KeptIndex(ids: seq<Id>, kept: set<Id>, j: nat, b: nat)
    requires ids != [] && NoDuplicates(ids) && b < |ids| && j < |Keep(ids, kept)| && ids[b] == Keep(ids, kept)[j]
    requires ids[0] in kept ==> j > 0
    ensures var k := if ids[0] in kept then j - 1 else j;
            && k < |Keep(ids[1..], kept)| && b > 0 && ids[1..][b - 1] == Keep(ids[1..], kept)[k]
  {
    var k, rest := if ids[0] in kept then j - 1 else j, Keep(ids[1..], kept);
    assert Keep(ids, kept)[j] == rest[k] && rest[k] in rest;
    assert ids[0] !in ids[1..];
  }

  /** These ids, and no others, go out, each once and in the order of the queue. */
  ghost predicate SendsAll(q: Queue, q': Queue, ids: set<Id>) {
    exists sent :: q'.dispatched == q.dispatched + sent && NoDuplicates(sent) && InOrder(sent, q.pending)
                   && forall id :: id in sent <==> id in ids
  }

  /** When the transport opens, the queued messages whose acceptance has not been processed go out. */
  lemma ReopenSends(q: Queue)
    requires Safe(q)
    ensures SendsAll(q, Apply(q, Reopen(true)), set id | id in q.pending && id !in q.acked)
    ensures Apply(q, Reopen(true)).pending == q.pending && Apply(q, Reopen(false)) == q
  {
    var sent := Unaccepted(q);
    KeepHasNoDuplicates(q.pending, UnacceptedIds(q));
    KeepIsInOrder(q.pending, UnacceptedIds(q));
    forall id | id in q.pending ensures id in sent <==> id !in q.acked { AcceptedMeansAcked(q, id); }
    assert Apply(q, Reopen(true)).dispatched == q.dispatched + sent;
  }

  /** A message from the composer is queued last, and sent at once if the transport is open; its draft
      is backed up if asked for. */
  lemma SendIsQueued(q: Queue, step: Step)
    requires Safe(q) && Enabled(q, step) && step.Send?
    ensures var q' := Apply(q, step);
            && q'.pending == q.pending + [step.id] && step.id !in q'.acked
            && q'.dispatched == q.dispatched + (if step.open then [step.id] else [])
            && (if step.preserved
                then && q'.draft == Some(Draft(step.id, false)) && q'.drafts == q.drafts + 1
                     && (step.storing.Written? ==> q'.stored == Some(Draft(step.id, false)))
                     && (step.storing.Unchanged? ==> q'.stored == q.stored)
                     && (step.storing.Removed? ==> q'.stored == None)
                else q'.draft == q.draft && q'.drafts == q.drafts && q'.stored == q.stored)
  {
  }

  /** The first message of a thread is queued, and backed up, when its effect first runs and it is not
      known to be accepted; when the effect runs again nothing happens. */
  lemma InitialSendIsQueued(q: Queue, id: Id)
    requires Safe(q) && Enabled(q, InitialSend(id))
    ensures var q' := Apply(q, InitialSend(id));
            && q'.initial == Some(id) && q'.dispatched == q.dispatched && q'.acked == q.acked
            && (if q.initial == Some(id) then q' == q
                else if q.stored == Some(Draft(id, true)) then q' == q.(initial := Some(id))
                else q'.pending == q.pending + [id] && id !in q'.acked && q'.draft == Some(Draft(id, false))
                     && q'.drafts == q.drafts + 1 && q'.stored == q.stored)
  {
  }

  /** A refusal lets go of exactly the messages not known to be accepted, if there are any; a terminal
      error and the end of a turn let go of all. */
  lemma LettingGo(q: Queue, step: Step)
    requires Safe(q) && Enabled(q, step) && LetsGo(step)
    ensures var q' := Apply(q, step);
            && q'.dispatched == q.dispatched && q'.acked == q.acked && InOrder(q'.pending, q.pending)
            && forall id :: id in q'.pending <==> step.Refuse? && id in q.pending && id in q.acked
  {
    if step.Refuse? {
      var kept := (set id | id in q.pending) - UnacceptedIds(q);
      forall id | id in q.pending ensures id in kept <==> id in q.acked { AcceptedMeansAcked(q, id); }
      KeepIsInOrder(q.pending, kept);
      if Unaccepted(q) == [] { NothingRefused(q); }
    }
  }

  lemma NothingRefused(q: Queue)
    requires Safe(q) && Unaccepted(q) == []
    ensures InOrder(q.pending, q.pending) && forall id | id in q.pending :: id in q.acked
  {
    forall id | id in q.pending ensures id in q.acked {
      assert id !in Unaccepted(q);
      AcceptedMeansAcked(q, id);
    }
  }

  /** An acceptance marks the backup of its message, and changes nothing else. */
  lemma AcceptMarksBackup(q: Queue, step: Step)
    requires Safe(q) && Enabled(q, step) && step.Accept?
    ensures var q', marked := Apply(q, step), Draft(step.id, true);
            && q'.pending == q.pending && q'.dispatched == q.dispatched && q'.restored == q.restored
            && q'.drafts == q.drafts && q'.initial == q.initial && q'.acked == q.acked + {step.id}
            && q'.draft == (if q.draft.Some? && q.draft.value.id == step.id then Some(marked) else q.draft)
            && q'.stored == (if step.storing.Unchanged? || (q.draft != Some(Draft(step.id, false))
                                && q.draft != Some(marked) && q.stored != Some(Draft(step.id, false))
                                && q.stored != Some(marked)) then q.stored
                             else if step.storing.Written? then Some(marked) else None)
  {
  }

  /** The backup is the draft of this mount, or else the one found in storage. */
  predicate BacksUp(q: Queue, id: Id) {
    if q.draft.Some? then q.draft.value.id == id && id !in q.acked
    else q.stored.Some? && q.stored.value == Draft(id, false)
  }

  /** Text goes back into the composer exactly if a refusal lets go of a message, or a terminal error
      comes, while a backup is not known to be accepted and the composer holds nothing else. */
  lemma RestoresExactly(q: Queue, step: Step)
    requires Safe(q) && Enabled(q, step)
    ensures var q' := Apply(q, step);
            var lets := step.TerminalError? || (step.Refuse? && exists id :: id in q.pending && id !in q.acked);
            && (q'.restored != q.restored ==> exists id :: BacksUp(q, id))
            && (forall id | BacksUp(q, id) ::
                  q'.restored == q.restored + if lets && !step.edited then [id] else [])
            && (lets ==> q'.draft == None && q'.drafts == 0 && q'.stored == None)
            && (step.Refuse? && !lets ==> q' == q)
  {
    if step.Refuse? {
      forall id | id in q.pending ensures id in Unaccepted(q) <==> id !in q.acked { AcceptedMeansAcked(q, id); }
      if Unaccepted(q) != [] { assert Unaccepted(q)[0] in Unaccepted(q); }
    }
    if Backup(q).Some? && !Backup(q).value.accepted { assert BacksUp(q, Backup(q).value.id); }
  }

  /** Without a draft of this mount the end of a turn removes what storage holds. */
  lemma TurnEndsWithoutDraft(q: Queue)
    requires q.draft.None?
    ensures var q' := Apply(q, TurnEnd);
            q'.draft == None && q'.stored == None && q'.drafts == q.drafts && q'.restored == q.restored
  {
  }

  /** Of several backed-up sends in flight, each end of a turn is through with one, and the last one
      removes the backup. */
  lemma {:induction false} LastTurnClears(q: Queue, turns: seq<Step>)
    requires q.draft.Some? && |turns| <= q.drafts && forall k | 0 <= k < |turns| :: turns[k] == TurnEnd
    ensures Possible(q, turns)
    ensures var q' := After(q, turns);
            && q'.drafts == q.drafts - |turns| && q'.restored == q.restored
            && (|turns| < q.drafts || turns == [] ==> q'.draft == q.draft && q'.stored == q.stored)
            && (turns != [] && |turns| == q.drafts ==> q'.draft == None && q'.stored == None)
    decreases |turns|
  {
    if turns == [] {
    } else {
      var q1 := Apply(q, turns[0]);
      if q.drafts > 1 {
        LastTurnClears(q1, turns[1..]);
      } else {
        assert turns[1..] == [];
        assert After(q1, []) == q1;
      }
    }
  }

  // ---- lost replies ----

  /** The steps that let go of queued messages. */
  predicate LetsGo(step: Step) { step.Refuse? || step.TerminalError? || step.TurnEnd? }

  lemma {:induction false} StaysQueued(q: Queue, steps: seq<Step>, id: Id)
    requires Safe(q) && Possible(q, steps) && id in q.pending
    requires forall k | 0 <= k < |steps| :: !LetsGo(steps[k])
    ensures Safe(After(q, steps)) && id in After(q, steps).pending
    decreases |steps|
  {
    if steps == [] {
    } else {
      StepKeepsSafe(q, steps[0]);
      StaysQueued(Apply(q, steps[0]), steps[1..], id);
    }
  }

  /** A queued message whose replies are all lost stays queued, under the same id, and goes out again each
      time the transport opens, until it is accepted or a refusal, a terminal error or the end of a
      turn lets go of it. */
  lemma LostMessageIsSentAgain(q: Queue, steps: seq<Step>, id: Id)
    requires Safe(q) && Possible(q, steps) && id in q.pending && id !in q.acked
    requires forall k | 0 <= k < |steps| :: !LetsGo(steps[k])
    ensures var q' := After(q, steps);
            var accepted := exists k | 0 <= k < |steps| :: Accepts(steps[k], id);
            && id in q'.pending
            && SendsAll(q', Apply(q', Reopen(true)), set x | x in q'.pending && x !in q'.acked)
            && (id in q'.acked <==> accepted)
  {
    StaysQueued(q, steps, id);
    AckedIsAccepted(q, steps, id);
    ReopenSends(After(q, steps));
  }

  predicate Sends(step: Step, id: Id) { (step.Send? || step.InitialSend?) && step.id == id }

  /** From the mount on: a message once sent, whether from the composer or as the first of its thread,
      is queued, and goes out whenever the transport opens, until it is accepted or let go of. */
  lemma SentMessageGoesOut(stored: Option<Draft>, earlier: seq<Step>, step: Step, later: seq<Step>, id: Id)
    requires Possible(Mounted(stored), earlier)
    requires var q := After(Mounted(stored), earlier);
             && Enabled(q, step) && Sends(step, id) && Possible(Apply(q, step), later)
             && (step.InitialSend? ==> q.initial != Some(id) && q.stored != Some(Draft(id, true)))
    requires forall k | 0 <= k < |later| :: !LetsGo(later[k]) && !Accepts(later[k], id)
    ensures var q0 := After(Mounted(stored), earlier);
            var q1 := Apply(q0, step);
            var q := After(q1, later);
            && q1.pending == q0.pending + [id]
            && q1.dispatched == q0.dispatched + (if step.Send? && step.open then [id] else [])
            && id in q.pending && id !in q.acked
            && exists sent :: Apply(q, Reopen(true)).dispatched == q.dispatched + sent && id in sent
  {
    var q0 := After(Mounted(stored), earlier);
    MountedIsSafe(stored);
    RunsAddUnacked(Mounted(stored), earlier);
    StepKeepsSafe(q0, step);
    if step.Send? { SendIsQueued(q0, step); } else { InitialSendIsQueued(q0, id); }
    LostMessageIsSentAgain(Apply(q0, step), later, id);
    OneOfAll(After(Apply(q0, step), later), id);
  }

  lemma OneOfAll(q: Queue, id: Id)
    requires SendsAll(q, Apply(q, Reopen(true)), set x | x in q.pending && x !in q.acked)
    requires id in q.pending && id !in q.acked
    ensures exists sent :: Apply(q, Reopen(true)).dispatched == q.dispatched + sent && id in sent
  {
  }

  // ---- the callbacks themselves ----

  lemma {:induction false} KeepOneMore(ids: seq<Id>, id: Id, kept: set<Id>)
    ensures Keep(ids + [id], kept) == Keep(ids, kept) + if id in kept then [id] else []
  {
    if ids == [] {
    } else {
      var first, last := if ids[0] in kept then [ids[0]] else [], if id in kept then [id] else [];
      KeepOneMore(ids[1..], id, kept);
      assert (ids + [id])[1..] == ids[1..] + [id] && (ids + [id])[0] == ids[0];
      assert first + (Keep(ids[1..], kept) + last) == first + Keep(ids[1..], kept) + last;
    }
  }

  class SendQueue {
    var pending: seq<Id>
    var accepted: set<Id>
    var draft: Option<Draft>
    var drafts: nat
    var stored: Option<Draft>
    var initial: Option<Id>
    var dispatched: seq<Id>
    var restored: seq<Id>
    ghost var used: set<Id>
    ghost var acked: set<Id>

    ghost function Now(): Queue
      reads this
    {
      Queue(pending, accepted, draft, drafts, stored, initial, dispatched, restored, used, acked)
    }

    constructor (stored: Option<Draft>)
      ensures Now() == Mounted(stored)
    {
      this.stored := stored;
      pending, accepted, draft, drafts, initial, dispatched, restored := [], {}, None, 0, None, [], [];
      used, acked := {}, {};
    }

    method IsPendingAccepted(id: Id) returns (r: bool)
      ensures r == IsAccepted(Now(), id)
    {
      if id in accepted { return true; }
      if draft.Some? && draft.value.id == id && draft.value.accepted { return true; }
      return stored.Some? && stored.value.id == id && stored.value.accepted;
    }

    method Write(d: Draft, storing: Storing)
      modifies this`stored
      ensures stored == AfterWrite(old(stored), d, storing)
    {
      if storing.Written? { stored := Some(d); } else if storing.Removed? { stored := None; }
    }

    method SendMessage(id: Id, preserved: bool, storing: Storing, open: bool)
      modifies this
      ensures Now() == Apply(old(Now()), Send(id, preserved, storing, open))
    {
      if preserved {
        drafts, draft := drafts + 1, Some(Draft(id, false));
        Write(Draft(id, false), storing);
      }
      if id !in pending { pending := pending + [id]; }
      used := used + {id};
      if open { dispatched := dispatched + [id]; }
    }

    method QueueInitialSend(id: Id)
      modifies this
      ensures Now() == Apply(old(Now()), InitialSend(id))
    {
      if initial == Some(id) { return; }
      initial := Some(id);
      var known := IsPendingAccepted(id);
      if known { return; }
      drafts, draft := drafts + 1, Some(Draft(id, false));
      if id !in pending { pending := pending + [id]; }
      used := used + {id};
    }

    /** `getUnacceptedPendingUserMessages`, and the filter in `handleAgentOpen`. */
    method UnacceptedPending() returns (ids: seq<Id>)
      ensures ids == Unaccepted(Now())
    {
      ids := [];
      for i := 0 to |pending|
        invariant ids == Keep(pending[..i], UnacceptedIds(Now()))
      {
        var known := IsPendingAccepted(pending[i]);
        KeepOneMore(pending[..i], pending[i], UnacceptedIds(Now()));
        assert pending[..i + 1] == pending[..i] + [pending[i]];
        if !known { ids := ids + [pending[i]]; }
      }
      assert pending[..|pending|] == pending;
    }

    method HandleAgentOpen(open: bool)
      modifies this`dispatched
      ensures Now() == Apply(old(Now()), Reopen(open))
    {
      var queued := UnacceptedPending();
      for i := 0 to |queued|
        invariant dispatched == if open then old(dispatched) + queued[..i] else old(dispatched)
      {
        if open { dispatched := dispatched + [queued[i]]; }
        assert queued[..i + 1] == queued[..i] + [queued[i]];
      }
      assert queued[..|queued|] == queued;
    }

    method MarkAccepted(id: Id, storing: Storing)
      modifies this
      ensures Now() == Apply(old(Now()), Accept(id, storing))
    {
      accepted, acked := accepted + {id}, acked + {id};
      if draft.Some? && draft.value.id == id {
        draft := Some(Draft(id, true));
        Write(Draft(id, true), storing);
        return;
      }
      if stored.Some? && stored.value.id == id { Write(Draft(id, true), storing); }
    }

    method RestoreDraft(edited: bool)
      modifies this`draft, this`drafts, this`stored, this`restored
      ensures Now() == Restored(old(Now()), edited)
    {
      var backup := if draft.Some? then draft else stored;
      draft, drafts := None, 0;
      if backup.None? { return; }
      if !backup.value.accepted && !edited { restored := restored + [backup.value.id]; }
      stored := None;
    }

    method ClearDraft()
      modifies this`draft, this`drafts, this`stored
      ensures Now() == Cleared(old(Now()))
    {
      if draft.None? && stored.None? { return; }
      if draft.Some? {
        drafts := if drafts > 0 then drafts - 1 else 0;
        if drafts > 0 { return; }
      }
      draft, stored := None, None;
    }

    method FailPending(id: Id, edited: bool)
      modifies this
      ensures Now() == Apply(old(Now()), Refuse(id, edited))
    {
      ghost var q := Now();
      var failed := UnacceptedPending();
      if failed == [] { return; }
      for i := 0 to |failed|
        invariant Now() == old(Now()).(accepted := old(accepted) - set k | 0 <= k < i :: failed[k])
      {
        accepted := accepted - {failed[i]};
      }
      assert (set k | 0 <= k < |failed| :: failed[k]) == UnacceptedIds(q) == set x | x in failed;
      pending := Keep(pending, (set x | x in pending) - set x | x in failed);
      RestoreDraft(edited);
    }

    method HandleTerminalError(edited: bool)
      modifies this
      ensures Now() == Apply(old(Now()), TerminalError(edited))
    {
      accepted, pending := {}, [];
      RestoreDraft(edited);
    }

    method EndTurn()
      modifies this
      ensures Now() == Apply(old(Now()), TurnEnd)
    {
      accepted, pending := {}, [];
      ClearDraft();
    }
  }
}
