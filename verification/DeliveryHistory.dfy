/**
 What a delivery has done by the time it stores an anchor, speaks, or records an outcome:
 the thread it answers in, the answer it passes on, and the order of its steps.
 */
module DeliveryHistory {
  import opened Wrappers
  import opened Tables
  import opened Delivery
  import opened Protocol
  import opened DeliveryTheorems
  import opened DeliveryEffects

  /** Worker id claimed row j in action i, and is still at it in world k. */
  ghost predicate AtWork(c: Config, worlds: seq<World>, actions: seq<Action>, i: nat, k: nat, id: nat, j: JobId)
  {
    && IsRun(c, worlds, actions) && i < k < |worlds| && actions[i] == Claim(id, j)
    && forall m | i < m <= k :: id in worlds[m].workers
  }

  /** It took this step on the way. */
  predicate Took(actions: seq<Action>, i: nat, k: nat, id: nat, act: Act)
  {
    exists m | i <= m < k && m < |actions| :: actions[m] == Work(id, act)
  }

  /** The anchor a phase is going to use, or has stored. */
  function AnchorIn(phase: Phase): Option<Ts>
  {
    match phase
    case Anchoring(anchor, _) => Some(anchor)
    case Preparing(anchor) => Some(anchor)
    case Investigating(anchor) => Some(anchor)
    case Auditing(anchor, _) => Some(anchor)
    case ReplyInFlight(anchor, _) => Some(anchor)
    case _ => None
  }

  /** The answer a phase carries. */
  function ReplyIn(phase: Phase): Option<Reply>
  {
    match phase
    case Auditing(_, reply) => Some(reply)
    case ReplyInFlight(_, reply) => Some(reply)
    case Marking(reply) => Some(reply)
    case _ => None
  }

  /** What a worker was handed, and how far it may have come by its own steps. */
  ghost predicate Tells(actions: seq<Action>, i: nat, k: nat, id: nat, w: Worker)
  {
    && (AnchorIn(w.phase).Some? ==>
          if w.ackTs.Some? && w.ackTs.value != "" then AnchorIn(w.phase) == w.ackTs
          else if w.parentAckTs.Some? && w.parentAckTs.value != "" then AnchorIn(w.phase) == w.parentAckTs
          else Took(actions, i, k, id, AckReply(Posted(AnchorIn(w.phase).value))))
    && (ReplyIn(w.phase).Some? ==>
          && Took(actions, i, k, id, CallRca(Some(ReplyIn(w.phase).value)))
          && Took(actions, i, k, id, ReadStatus(true)) && Took(actions, i, k, id, ReadReport(true))
          && Took(actions, i, k, id, WriteAnchor(Wrote)) && Took(actions, i, k, id, ListTemplates(true)))
    && (w.phase.Investigating? ==>
          && Took(actions, i, k, id, ReadStatus(true)) && Took(actions, i, k, id, ReadReport(true))
          && Took(actions, i, k, id, WriteAnchor(Wrote)) && Took(actions, i, k, id, ListTemplates(true)))
    && (w.phase.Preparing? ==>
          && Took(actions, i, k, id, ReadStatus(true)) && Took(actions, i, k, id, ReadReport(true))
          && Took(actions, i, k, id, WriteAnchor(Wrote)))
    && (w.phase.StatusClear? ==> Took(actions, i, k, id, ReadStatus(true)))
    && (w.phase.Unacknowledged? || w.phase.AckInFlight? || w.phase.Anchoring? ==>
          Took(actions, i, k, id, ReadStatus(true)) && Took(actions, i, k, id, ReadReport(true)))
    && (w.phase.ReplyInFlight? || w.phase.Marking? ==> Took(actions, i, k, id, RecordRuns(true)))
    && (w.phase.Marking? ==> exists ts :: Took(actions, i, k, id, ReplyPost(Posted(ts))))
    && (w.phase.AckInFlight? ==> w.ackTs.None? || w.ackTs.value == "")
  }

  lemma TookStill(actions: seq<Action>, i: nat, k: nat, id: nat)
    ensures forall act | Took(actions, i, k, id, act) :: Took(actions, i, k + 1, id, act)
    ensures i <= k < |actions| && actions[k].Work? && actions[k].id == id ==>
              Took(actions, i, k + 1, id, actions[k].act)
  {
  }

  /** A step keeps the worker's own story. */
  lemma StepTells(actions: seq<Action>, i: nat, k: nat, id: nat, now: Instant, cell: Cell, w: Worker, act: Act)
    requires i <= k < |actions| && actions[k] == Work(id, act) && Enabled(w, act) && Tells(actions, i, k, id, w)
    ensures var next := Step(id, now, cell, w, act).1;
            next.Some? ==> next.value == w.(phase := next.value.phase) && Tells(actions, i, k + 1, id, next.value)
  {
    TookStill(actions, i, k, id);
    hide Took, RetryDelay, SecondsAfter, WithStatus;
  }

  lemma OthersTell(c: Config, w: World, actions: seq<Action>, i: nat, k: nat, id: nat)
    requires i <= k < |actions| && Allowed(c, w, actions[k]) && id in w.workers
    requires !(actions[k].Work? && actions[k].id == id) && Tells(actions, i, k, id, w.workers[id])
    ensures id in Next(c, w, actions[k]).workers
    ensures var after := Next(c, w, actions[k]).workers[id];
            after == w.workers[id].(spent := after.spent) && Tells(actions, i, k + 1, id, after)
  {
    TookStill(actions, i, k, id);
    hide Took, Step, Tells;
    OthersLeave(c, w, actions[k], id);
    TellsOfPhase(actions, i, k, id, w.workers[id], Next(c, w, actions[k]).workers[id]);
  }

  lemma OthersLeave(c: Config, w: World, a: Action, id: nat)
    requires Allowed(c, w, a) && id in w.workers && !(a.Work? && a.id == id)
    ensures id in Next(c, w, a).workers
    ensures Next(c, w, a).workers[id] == w.workers[id].(spent := Next(c, w, a).workers[id].spent)
  {
    hide Step;
  }

  lemma TellsOfPhase(actions: seq<Action>, i: nat, k: nat, id: nat, w: Worker, after: Worker)
    requires Tells(actions, i, k, id, w) && after == w.(spent := after.spent)
    requires forall act | Took(actions, i, k, id, act) :: Took(actions, i, k + 1, id, act)
    ensures Tells(actions, i, k + 1, id, after)
  {
    hide Took;
  }

  /** The worker still holds what its claim handed it. */
  predicate Handed(claimed: Worker, w: Worker)
  {
    w.job == claimed.job && w.attempts == claimed.attempts && w.claimedAt == claimed.claimedAt
    && w.ackTs == claimed.ackTs && w.parentAckTs == claimed.parentAckTs
  }

  lemma {:induction false} StoryOf(c: Config, worlds: seq<World>, actions: seq<Action>, i: nat, k: nat, id: nat,
                                   j: JobId)
    requires AtWork(c, worlds, actions, i, k, id, j)
    ensures j in worlds[i].cells
    ensures Handed(ClaimedWorker(worlds[i], j), worlds[k].workers[id])
    ensures Tells(actions, i, k, id, worlds[k].workers[id])
  {
    hide Next, Allowed, Tells, ClaimedWorker;
    assert StepTaken(c, worlds[k - 1], actions[k - 1], worlds[k]);
    if k == i + 1 {
      ClaimTells(c, worlds[i], actions, i, id, j);
    } else {
      StoryOf(c, worlds, actions, i, k - 1, id, j);
      var w := worlds[k - 1].workers[id];
      if actions[k - 1].Work? && actions[k - 1].id == id {
        OwnStepTells(c, worlds[k - 1], actions, i, k - 1, id);
      } else {
        OthersTell(c, worlds[k - 1], actions, i, k - 1, id);
      }
    }
  }

  lemma ClaimTells(c: Config, w: World, actions: seq<Action>, i: nat, id: nat, j: JobId)
    requires i < |actions| && actions[i] == Claim(id, j) && Allowed(c, w, actions[i])
    ensures j in w.cells && id in Next(c, w, actions[i]).workers
    ensures Next(c, w, actions[i]).workers[id] == ClaimedWorker(w, j)
    ensures Tells(actions, i, i + 1, id, ClaimedWorker(w, j))
  {
    hide Took, ParentAck;
  }

  lemma OwnStepTells(c: Config, w: World, actions: seq<Action>, i: nat, k: nat, id: nat)
    requires i <= k < |actions| && Allowed(c, w, actions[k]) && actions[k].Work? && actions[k].id == id
    requires id in w.workers && Tells(actions, i, k, id, w.workers[id])
    ensures var after := Next(c, w, actions[k]).workers;
            id in after ==>
              after[id] == w.workers[id].(phase := after[id].phase) && Tells(actions, i, k + 1, id, after[id])
  {
    hide Tells, Step;
    StepTells(actions, i, k, id, w.now, w.cells[w.workers[id].job], w.workers[id], actions[k].act);
  }

  // ----- the thread ---------------------------------------------------------

  /** Row p stands for the request that row j replies to, and has its anchor. */
  predicate HasParentAnchor(cells: Cells, j: JobId, p: JobId)
    requires j in cells
  {
    p in cells && cells[j].request.parent == Some(cells[p].row.requestId) && cells[p].request.ackTs.Some?
  }

  lemma ParentAckIs(cells: Cells, j: JobId)
    requires j in cells && OneRowEach(cells)
    ensures var ack := ParentAck(cells, cells[j].request);
            && (forall p | HasParentAnchor(cells, j, p) :: ack == cells[p].request.ackTs)
            && (ack.Some? ==> exists p :: HasParentAnchor(cells, j, p))
  {
    var request := cells[j].request;
    if p: nat :| p in cells && request.parent == Some(cells[p].row.requestId) {
      if cells[p].request.ackTs.Some? { assert HasParentAnchor(cells, j, p); }
    }
  }

  lemma AnchorsAreNotEmpty(c: Config, worlds: seq<World>, actions: seq<Action>, i: nat)
    requires IsRun(c, worlds, actions) && i < |worlds|
    ensures forall j | j in worlds[i].cells :: worlds[i].cells[j].request.ackTs != Some("")
  {
    forall j | j in worlds[i].cells ensures worlds[i].cells[j].request.ackTs != Some("") {
      if worlds[i].cells[j].request.ackTs.Some? { AnchorNeverChanges(c, worlds, actions, i, i, j); }
    }
  }

  lemma ClaimHands(w: World, j: JobId)
    requires j in w.cells
    ensures var worker := ClaimedWorker(w, j);
            && worker.job == j && worker.ackTs == w.cells[j].request.ackTs
            && worker.parentAckTs == ParentAck(w.cells, w.cells[j].request)
  {
  }

  /**
   The anchor a delivery stores: its request's, if the claim found one; else that of the
   request it replies to, as it was at the claim; else a message of its own.
   */
  lemma ThreadIsHandedDown(c: Config, worlds: seq<World>, actions: seq<Action>, i: nat, k: nat, id: nat, j: JobId)
    requires AtWork(c, worlds, actions, i, k, id, j) && k < |actions|
    requires actions[k].Work? && actions[k].id == id
    requires actions[k].act.WriteAnchor? && actions[k].act.write != NotWritten
    ensures j in worlds[i].cells && j in worlds[k + 1].cells && worlds[k + 1].cells[j].request.ackTs.Some?
    ensures var own := worlds[i].cells[j].request.ackTs;
            var stored := worlds[k + 1].cells[j].request.ackTs;
            && (own.Some? ==> stored == own)
            && (own.None? ==> forall p | HasParentAnchor(worlds[i].cells, j, p) ::
                  stored == worlds[i].cells[p].request.ackTs)
            && (own.None? && !(exists p :: HasParentAnchor(worlds[i].cells, j, p)) ==>
                  Took(actions, i, k, id, AckReply(Posted(stored.value))))
  {
    StoryOf(c, worlds, actions, i, k, id, j);
    EventsAreStoredOnce(c, worlds, actions, i);
    AnchorsAreNotEmpty(c, worlds, actions, i);
    ParentAckIs(worlds[i].cells, j);
    ClaimHands(worlds[i], j);
    RunAdvances(c, worlds, actions, i, k, j);
    AnchorAndReportMoveExactly(c, worlds, actions, k, j);
    assert StepTaken(c, worlds[k], actions[k], worlds[k + 1]);
    hide IsRun, Next, OneRowEach, ClaimedWorker, Took, ParentAck;
  }

  // ----- the order of a delivery --------------------------------------------

  /** What must have gone well before a delivery takes this step. */
  ghost predicate Prepared(actions: seq<Action>, i: nat, k: nat, id: nat, act: Act, phase: Phase)
  {
    && (act.AckReply? || act.WriteAnchor? || act.CallRca? || act.ReplyPost? || act.WriteMarker? ==>
          Took(actions, i, k, id, ReadStatus(true)) && Took(actions, i, k, id, ReadReport(true)))
    && (act.CallRca? || act.ReplyPost? || act.WriteMarker? ==>
          Took(actions, i, k, id, WriteAnchor(Wrote)) && Took(actions, i, k, id, ListTemplates(true)))
    && (act.ReplyPost? || act.WriteMarker? ==>
          && ReplyIn(phase).Some? && Took(actions, i, k, id, CallRca(Some(ReplyIn(phase).value)))
          && Took(actions, i, k, id, RecordRuns(true)))
    && (act.WriteMarker? ==> exists ts :: Took(actions, i, k, id, ReplyPost(Posted(ts))))
  }

  lemma EnabledIsPrepared(actions: seq<Action>, i: nat, k: nat, id: nat, w: Worker, act: Act)
    requires Enabled(w, act) && Tells(actions, i, k, id, w)
    ensures Prepared(actions, i, k, id, act, w.phase)
  {
    hide Took;
  }

  /**
   Nothing is posted before both guards were read, no answer before the audit records of
   the call that gave it, and no outcome is recorded before it was posted.
   */
  lemma StepsComeInOrder(c: Config, worlds: seq<World>, actions: seq<Action>, i: nat, k: nat, id: nat, j: JobId)
    requires AtWork(c, worlds, actions, i, k, id, j) && k < |actions|
    requires actions[k].Work? && actions[k].id == id
    ensures Prepared(actions, i, k, id, actions[k].act, worlds[k].workers[id].phase)
  {
    StoryOf(c, worlds, actions, i, k, id, j);
    assert StepTaken(c, worlds[k], actions[k], worlds[k + 1]);
    EnabledIsPrepared(actions, i, k, id, worlds[k].workers[id], actions[k].act);
    hide Took, Next, Tells, Prepared;
  }

  // ----- the order of an abandonment ----------------------------------------

  /** How many closing steps this worker has tried. */
  function Closings(actions: seq<Action>, i: nat, k: nat, id: nat): nat
    requires i <= k <= |actions|
  {
    if k == i then 0
    else
      Closings(actions, i, k - 1, id)
      + (if actions[k - 1].Work? && actions[k - 1].id == id && actions[k - 1].act.ClosingWrite? then 1 else 0)
  }

  function StepNumber(step: ClosingStep): nat
  {
    match step
    case MarkingFailed => 0
    case Recording => 1
    case Announcing => 2
  }

  /** An abandonment has tried the steps before the one it is at, and that one too if it threw. */
  ghost predicate Closes(actions: seq<Action>, i: nat, k: nat, id: nat, phase: Phase)
    requires i <= k <= |actions|
  {
    && Closings(actions, i, k, id)
       == (if phase.Abandoning? then StepNumber(phase.step) + (if phase.noting then 1 else 0) else 0)
    && (phase.Abandoning? ==> Took(actions, i, k, id, GiveUp(Wrote)))
  }

  lemma StepCloses(actions: seq<Action>, i: nat, k: nat, id: nat, now: Instant, cell: Cell, w: Worker, act: Act)
    requires i <= k < |actions| && actions[k] == Work(id, act) && Enabled(w, act) && Closes(actions, i, k, id, w.phase)
    ensures var next := Step(id, now, cell, w, act).1;
            next.Some? ==> Closes(actions, i, k + 1, id, next.value.phase)
  {
    TookStill(actions, i, k, id);
    hide Took, RetryDelay, SecondsAfter, WithStatus;
  }

  lemma OwnStepCloses(c: Config, w: World, actions: seq<Action>, i: nat, k: nat, id: nat)
    requires i <= k < |actions| && Allowed(c, w, actions[k]) && actions[k].Work? && actions[k].id == id
    requires id in w.workers && Closes(actions, i, k, id, w.workers[id].phase)
    ensures var after := Next(c, w, actions[k]).workers;
            id in after ==> Closes(actions, i, k + 1, id, after[id].phase)
  {
    hide Closes, Step;
    StepCloses(actions, i, k, id, w.now, w.cells[w.workers[id].job], w.workers[id], actions[k].act);
  }

  lemma {:induction false} ClosingSoFar(c: Config, worlds: seq<World>, actions: seq<Action>, i: nat, k: nat, id: nat,
                                        j: JobId)
    requires AtWork(c, worlds, actions, i, k, id, j)
    ensures Closes(actions, i, k, id, worlds[k].workers[id].phase)
  {
    hide Next, Allowed, ClaimedWorker, Took;
    assert StepTaken(c, worlds[k - 1], actions[k - 1], worlds[k]);
    if k == i + 1 {
      ClaimTells(c, worlds[i], actions, i, id, j);
      StartsAtStart(worlds[i], j);
      assert worlds[k].workers[id].phase == Start;
      assert Closings(actions, i, i, id) == 0;
    } else {
      ClosingSoFar(c, worlds, actions, i, k - 1, id, j);
      if actions[k - 1].Work? && actions[k - 1].id == id {
        OwnStepCloses(c, worlds[k - 1], actions, i, k - 1, id);
      } else {
        OthersLeave(c, worlds[k - 1], actions[k - 1], id);
        TookStill(actions, i, k - 1, id);
      }
    }
  }

  lemma StartsAtStart(w: World, j: JobId)
    requires j in w.cells
    ensures ClaimedWorker(w, j).phase == Start
  {
  }

  /**
   An abandonment announces the end third, after trying to mark the request failed and to
   record the error, once each and after the closing write has returned; and the
   announcement goes on the books once.
   */
  lemma AnnouncedLast(c: Config, worlds: seq<World>, actions: seq<Action>, i: nat, k: nat, id: nat, j: JobId)
    requires AtWork(c, worlds, actions, i, k, id, j) && k < |actions|
    requires actions[k].Work? && actions[k].id == id && j in worlds[k].cells
    ensures j in worlds[k + 1].cells
    ensures worlds[k + 1].cells[j].books.announced
            == worlds[k].cells[j].books.announced
               + (if actions[k].act.ClosingWrite? && Closings(actions, i, k, id) == 2 then 1 else 0)
    ensures actions[k].act.ClosingWrite? ==> Took(actions, i, k, id, GiveUp(Wrote)) && Closings(actions, i, k, id) <= 2
    ensures actions[k].act.ClosingWrite? && !actions[k].act.threw && Closings(actions, i, k, id) < 2 ==>
              id in worlds[k + 1].workers && worlds[k + 1].workers[id].phase.Abandoning?
  {
    ClosingSoFar(c, worlds, actions, i, k, id, j);
    StoryOf(c, worlds, actions, i, k, id, j);
    ClaimHands(worlds[i], j);
    assert StepTaken(c, worlds[k], actions[k], worlds[k + 1]);
    hide IsRun, Step, Took, Tells, ClaimedWorker;
    StepAnnounces(id, worlds[k].now, worlds[k].cells[j], worlds[k].workers[id], actions[k].act);
  }

  lemma StepAnnounces(id: nat, now: Instant, cell: Cell, w: Worker, act: Act)
    requires Enabled(w, act)
    ensures var (after, next) := Step(id, now, cell, w, act);
            && after.books.announced
               == cell.books.announced + (if act.ClosingWrite? && w.phase.step.Announcing? then 1 else 0)
            && (act.ClosingWrite? && !w.phase.step.Announcing? ==>
                  next.Some? && next.value.phase.Abandoning? && next.value.phase.noting == act.threw)
    ensures act.ClosingWrite? ==> w.phase.Abandoning? && !w.phase.noting
  {
    hide RetryDelay, SecondsAfter, WithStatus;
  }
}
