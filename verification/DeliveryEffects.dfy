/**
 What every action of a run stores, field by field: who writes a request's status and
 anchor, who opens, claims, postpones and closes a row, and what a delivery has done by
 the time it speaks.
 */
module DeliveryEffects {
  import opened Wrappers
  import opened Tables
  import opened Delivery
  import opened Protocol
  import opened DeliveryTheorems

  // ----- arrivals -----------------------------------------------------------

  /** Nothing on record has the event's request id, event id or message. */
  predicate IsNews(cells: Cells, event: SlackEvent)
  {
    forall j | j in cells ::
      && cells[j].row.requestId != event.requestId
      && cells[j].request.eventId != event.eventId
      && cells[j].request.message != event.message
  }

  /**
   An event adds one row, due at once, for a request not on record yet; a request it
   replies to stops waiting for its answer. Anything else on record stays as it was, and
   an event already on record changes nothing.
   */
  lemma ArrivalStores(c: Config, worlds: seq<World>, actions: seq<Action>, i: nat)
    requires IsRun(c, worlds, actions) && i < |actions| && actions[i].Arrive?
    ensures var job := actions[i].job;
            var event := actions[i].event;
            var before := worlds[i].cells;
            var after := worlds[i + 1].cells;
            && (!IsNews(before, event) ==> after == before)
            && (IsNews(before, event) ==>
                  && after.Keys == before.Keys + {job} && job !in before
                  && after[job] == Cell(QueueRow(event.requestId, worlds[i].now, 0, worlds[i].now, None, None),
                                        Request(event.eventId, event.message, event.parent, Received, None),
                                        false, NO_BOOKS)
                  && forall j | j in before ::
                       after[j]
                       == if event.parent == Some(before[j].row.requestId)
                             && before[j].request.status == NeedsClarification
                          then before[j].(request := before[j].request.(status := Clarified)) else before[j])
  {
    assert StepTaken(c, worlds[i], actions[i], worlds[i + 1]);
  }

  /** Two rows never stand for the same request, the same event or the same message. */
  ghost predicate OneRowEach(cells: Cells)
  {
    forall i, j | i in cells && j in cells && i != j ::
      && cells[i].row.requestId != cells[j].row.requestId
      && cells[i].request.eventId != cells[j].request.eventId
      && cells[i].request.message != cells[j].request.message
  }

  lemma StepKeepsKeys(id: nat, now: Instant, cell: Cell, w: Worker, act: Act)
    requires Enabled(w, act)
    ensures var after := Step(id, now, cell, w, act).0;
            && after.row.requestId == cell.row.requestId && after.row.createdAt == cell.row.createdAt
            && after.request.eventId == cell.request.eventId && after.request.message == cell.request.message
            && after.request.parent == cell.request.parent
  {
    hide RetryDelay, SecondsAfter;
  }

  /** What names a request is never rewritten. */
  lemma NextKeepsKeys(c: Config, w: World, a: Action)
    requires Allowed(c, w, a)
    ensures forall j | j in w.cells ::
              && j in Next(c, w, a).cells
              && Next(c, w, a).cells[j].row.requestId == w.cells[j].row.requestId
              && Next(c, w, a).cells[j].row.createdAt == w.cells[j].row.createdAt
              && Next(c, w, a).cells[j].request.eventId == w.cells[j].request.eventId
              && Next(c, w, a).cells[j].request.message == w.cells[j].request.message
              && Next(c, w, a).cells[j].request.parent == w.cells[j].request.parent
    ensures !a.Arrive? ==> Next(c, w, a).cells.Keys == w.cells.Keys
  {
    hide Step;
    if a.Work? { StepKeepsKeys(a.id, w.now, w.cells[w.workers[a.id].job], w.workers[a.id], a.act); }
  }

  lemma NextStoresOnce(c: Config, w: World, a: Action)
    requires Allowed(c, w, a) && OneRowEach(w.cells)
    ensures OneRowEach(Next(c, w, a).cells)
  {
    NextKeepsKeys(c, w, a);
    hide Step;
  }

  lemma {:induction false} EventsAreStoredOnce(c: Config, worlds: seq<World>, actions: seq<Action>, i: nat)
    requires IsRun(c, worlds, actions) && i < |worlds|
    ensures OneRowEach(worlds[i].cells)
  {
    hide Next, Allowed;
    if i > 0 {
      EventsAreStoredOnce(c, worlds, actions, i - 1);
      assert StepTaken(c, worlds[i - 1], actions[i - 1], worlds[i]);
      NextStoresOnce(c, worlds[i - 1], actions[i - 1]);
    }
  }

  // ----- who writes what ----------------------------------------------------

  /** The worker taking this action, if it is one on row j. */
  predicate ActsOn(w: World, a: Action, j: JobId)
  {
    a.Work? && a.id in w.workers && w.workers[a.id].job == j
  }

  /** A write of 'failed': the note about a step that threw, or a closing step before the announcement. */
  predicate WritesFailed(w: Worker, act: Act)
  {
    || (act.NoteFailure? && act.landed)
    || (act.ClosingWrite? && act.landed && w.phase.Abandoning? && !w.phase.step.Announcing?)
  }

  /** The status a request has after an action on its row. */
  function StatusAfter(w: Worker, act: Act, status: Status): Status
  {
    if act.WriteAnchor? && act.write != NotWritten then AnalyzingQuestion
    else if act.WriteMarker? && act.write != NotWritten && w.phase == Marking(Answered) then Completed
    else if act.WriteMarker? && act.write != NotWritten && w.phase == Marking(AsksForDetail) then NeedsClarification
    else if act.WriteMarker? && act.write != NotWritten && w.phase == Marking(OutOfScope) then Unsupported
    else if WritesFailed(w, act) && status !in {Completed, NeedsClarification, Unsupported, Clarified} then Failed
    else status
  }

  /** The four writers of a status: the anchor, the outcome, a failure, and a reply to the request. */
  lemma StatusMovesExactly(c: Config, worlds: seq<World>, actions: seq<Action>, i: nat, j: JobId)
    requires IsRun(c, worlds, actions) && i < |actions| && j in worlds[i].cells
    ensures j in worlds[i + 1].cells
    ensures var before := worlds[i].cells[j].request.status;
            worlds[i + 1].cells[j].request.status
            == if ActsOn(worlds[i], actions[i], j) then
                 StatusAfter(worlds[i].workers[actions[i].id], actions[i].act, before)
               else if actions[i].Arrive? && IsNews(worlds[i].cells, actions[i].event) && before == NeedsClarification
                       && actions[i].event.parent == Some(worlds[i].cells[j].row.requestId) then Clarified
               else before
  {
    assert StepTaken(c, worlds[i], actions[i], worlds[i + 1]);
    NextMovesStatus(c, worlds[i], actions[i], j);
  }

  lemma StepMovesStatus(id: nat, now: Instant, cell: Cell, w: Worker, act: Act)
    requires Enabled(w, act)
    ensures Step(id, now, cell, w, act).0.request.status == StatusAfter(w, act, cell.request.status)
  {
    hide RetryDelay, SecondsAfter;
  }

  lemma NextMovesStatus(c: Config, w: World, a: Action, j: JobId)
    requires Allowed(c, w, a) && j in w.cells
    ensures j in Next(c, w, a).cells
    ensures Next(c, w, a).cells[j].request.status
            == if ActsOn(w, a, j) then StatusAfter(w.workers[a.id], a.act, w.cells[j].request.status)
               else if a.Arrive? && IsNews(w.cells, a.event) && w.cells[j].request.status == NeedsClarification
                       && a.event.parent == Some(w.cells[j].row.requestId) then Clarified
               else w.cells[j].request.status
  {
    hide Step, StatusAfter;
    if a.Work? { StepMovesStatus(a.id, w.now, w.cells[w.workers[a.id].job], w.workers[a.id], a.act); }
  }

  /** A worker stores the anchor it settled on. */
  predicate StoresAnchor(w: World, a: Action, j: JobId)
  {
    ActsOn(w, a, j) && a.act.WriteAnchor? && a.act.write != NotWritten && w.workers[a.id].phase.Anchoring?
  }

  /** A worker stores the report of an answered question. */
  predicate StoresReport(w: World, a: Action, j: JobId)
  {
    ActsOn(w, a, j) && a.act.WriteMarker? && a.act.write != NotWritten && w.workers[a.id].phase == Marking(Answered)
  }

  /** Only the anchor write stores an anchor, and only the marker of an answer a report row. */
  lemma AnchorAndReportMoveExactly(c: Config, worlds: seq<World>, actions: seq<Action>, i: nat, j: JobId)
    requires IsRun(c, worlds, actions) && i < |actions| && j in worlds[i].cells
    ensures j in worlds[i + 1].cells
    ensures worlds[i + 1].cells[j].request.ackTs
            == if StoresAnchor(worlds[i], actions[i], j) then Some(worlds[i].workers[actions[i].id].phase.anchor)
               else worlds[i].cells[j].request.ackTs
    ensures worlds[i + 1].cells[j].reported
            <==> worlds[i].cells[j].reported || StoresReport(worlds[i], actions[i], j)
  {
    assert StepTaken(c, worlds[i], actions[i], worlds[i + 1]);
    hide Step;
    var a := actions[i];
    var w := worlds[i];
    if a.Work? { StepStores(a.id, w.now, w.cells[w.workers[a.id].job], w.workers[a.id], a.act); }
  }

  lemma StepStores(id: nat, now: Instant, cell: Cell, w: Worker, act: Act)
    requires Enabled(w, act)
    ensures var after := Step(id, now, cell, w, act).0;
            && after.request.ackTs == (if act.WriteAnchor? && act.write != NotWritten then Some(w.phase.anchor)
                                       else cell.request.ackTs)
            && (after.reported
                <==> cell.reported || (act.WriteMarker? && act.write != NotWritten && w.phase == Marking(Answered)))
  {
    hide RetryDelay, SecondsAfter;
  }

  /** The queue row after an action on it: claimed, closed, put off, or as it was. */
  function RowAfter(c: Config, w: World, a: Action, j: JobId): QueueRow
    requires j in w.cells
  {
    var row := w.cells[j].row;
    var landed := a.Work? && (a.act.Close? || a.act.GiveUp? || a.act.Reschedule?) && a.act.write != NotWritten;
    if a.Claim? && a.job == j then
      row.(attempts := row.attempts + 1, lockedUntil := Some(w.now + LockSeconds(c) * 1_000_000))
    else if ActsOn(w, a, j) && landed && (a.act.Close? || a.act.GiveUp?) then
      row.(dispatchedAt := Some(w.now), lockedUntil := None)
    else if ActsOn(w, a, j) && landed && a.act.Reschedule? then
      row.(nextAttemptAt := w.now + Pow2(w.workers[a.id].attempts) * 1_000_000, lockedUntil := None)
    else row
  }

  /** Only a claim, a close and a retry write the queue row. */
  lemma RowMovesExactly(c: Config, worlds: seq<World>, actions: seq<Action>, i: nat, j: JobId)
    requires IsRun(c, worlds, actions) && i < |actions| && j in worlds[i].cells
    ensures j in worlds[i + 1].cells && worlds[i + 1].cells[j].row == RowAfter(c, worlds[i], actions[i], j)
  {
    assert StepTaken(c, worlds[i], actions[i], worlds[i + 1]);
    NextMovesRow(c, worlds[i], actions[i], j);
  }

  lemma NextMovesRow(c: Config, w: World, a: Action, j: JobId)
    requires Allowed(c, w, a) && j in w.cells
    ensures j in Next(c, w, a).cells && Next(c, w, a).cells[j].row == RowAfter(c, w, a, j)
  {
    hide Step, LockSeconds;
    if a.Work? { StepMovesRow(a.id, w.now, w.cells[w.workers[a.id].job], w.workers[a.id], a.act); }
  }

  lemma StepMovesRow(id: nat, now: Instant, cell: Cell, w: Worker, act: Act)
    requires Enabled(w, act)
    ensures Step(id, now, cell, w, act).0.row
            == if (act.Close? || act.GiveUp?) && act.write != NotWritten then
                 cell.row.(dispatchedAt := Some(now), lockedUntil := None)
               else if act.Reschedule? && act.write != NotWritten then
                 cell.row.(nextAttemptAt := now + Pow2(w.attempts) * 1_000_000, lockedUntil := None)
               else cell.row
  {
  }

  /** A message of this kind reaches Slack in this step: its post lands, or one in flight does as its sender dies. */
  predicate PostLands(w: Worker, act: Act, k: Kind)
  {
    || (act.AckReply? && k == Ack && (act.post.Posted? || act.post.landed))
    || (act.ReplyPost? && w.phase.ReplyInFlight? && (act.post.Posted? || act.post.landed)
        && k == (if w.phase.reply == Answered then Report else Clarification))
    || (act.Crash? && act.landed && w.phase.AckInFlight? && k == Ack)
    || (act.Crash? && act.landed && w.phase.ReplyInFlight?
        && k == (if w.phase.reply == Answered then Report else Clarification))
  }

  /** Posts are counted as they land, and at no other step. */
  lemma PostsMoveExactly(c: Config, worlds: seq<World>, actions: seq<Action>, i: nat, j: JobId, k: Kind)
    requires IsRun(c, worlds, actions) && i < |actions| && j in worlds[i].cells
    ensures j in worlds[i + 1].cells
    ensures worlds[i + 1].cells[j].books.posts.Of(k)
            == worlds[i].cells[j].books.posts.Of(k)
               + (if ActsOn(worlds[i], actions[i], j)
                     && PostLands(worlds[i].workers[actions[i].id], actions[i].act, k) then 1 else 0)
  {
    assert StepTaken(c, worlds[i], actions[i], worlds[i + 1]);
    hide Step, PostLands, Tally.Of;
    var w := worlds[i];
    var a := actions[i];
    if a.Work? { StepPosts(a.id, w.now, w.cells[w.workers[a.id].job], w.workers[a.id], a.act, k); }
  }

  lemma StepPosts(id: nat, now: Instant, cell: Cell, w: Worker, act: Act, k: Kind)
    requires Enabled(w, act)
    ensures Step(id, now, cell, w, act).0.books.posts.Of(k)
            == cell.books.posts.Of(k) + (if PostLands(w, act, k) then 1 else 0)
  {
    if act.AckReply? || act.ReplyPost? || act.Crash? {
      SpeakingSteps(id, now, cell, w, act, k);
    } else {
      SilentSteps(id, now, cell, w, act);
    }
    hide Step, Tally.Of;
  }

  lemma SilentSteps(id: nat, now: Instant, cell: Cell, w: Worker, act: Act)
    requires Enabled(w, act) && !act.AckReply? && !act.ReplyPost? && !act.Crash?
    ensures Step(id, now, cell, w, act).0.books.posts == cell.books.posts
  {
    hide RetryDelay, SecondsAfter, WithStatus;
  }

  lemma Landing(cell: Cell, landing: Kind, n: nat, k: Kind)
    ensures Land(cell, landing, n).books.posts.Of(k) == cell.books.posts.Of(k) + (if k == landing then n else 0)
    ensures Lose(Land(cell, landing, n), landing, n).books.posts.Of(k)
            == cell.books.posts.Of(k) + (if k == landing then n else 0)
  {
  }

  lemma SpeakingSteps(id: nat, now: Instant, cell: Cell, w: Worker, act: Act, k: Kind)
    requires Enabled(w, act) && (act.AckReply? || act.ReplyPost? || act.Crash?)
    ensures Step(id, now, cell, w, act).0.books.posts.Of(k)
            == cell.books.posts.Of(k) + (if PostLands(w, act, k) then 1 else 0)
  {
    Landing(cell, Ack, 0, k);
    Landing(cell, Ack, 1, k);
    if w.phase.ReplyInFlight? {
      Landing(cell, w.phase.reply.Kind(), 0, k);
      Landing(cell, w.phase.reply.Kind(), 1, k);
    }
    hide Tally.Of, Land;
  }

  // ----- a question asked back ----------------------------------------------

  lemma AskedStaysAsked(c: Config, worlds: seq<World>, actions: seq<Action>, i: nat, j: JobId)
    requires IsRun(c, worlds, actions) && i < |actions| && j in worlds[i].cells
    requires worlds[i].cells[j].request.status in {NeedsClarification, Clarified}
    ensures j in worlds[i + 1].cells && worlds[i + 1].cells[j].request.status in {NeedsClarification, Clarified}
  {
    hide Next, Allowed, Inv;
    StatusMovesExactly(c, worlds, actions, i, j);
    SettledIsAbsorbingAndSilent(c, worlds, actions, i, i, j);
    if ActsOn(worlds[i], actions[i], j) {
      assert StepTaken(c, worlds[i], actions[i], worlds[i + 1]);
      SilentWritesNothing(c, worlds[i], actions[i]);
    }
  }

  lemma SilentWritesNothing(c: Config, w: World, a: Action)
    requires Allowed(c, w, a) && a.Work? && !w.workers[a.id].phase.Speaking()
    ensures !a.act.WriteAnchor? && !a.act.WriteMarker?
  {
  }

  lemma {:induction false} AskedUntilAnswered(c: Config, worlds: seq<World>, actions: seq<Action>, i: nat, k: nat,
                                              j: JobId)
    requires IsRun(c, worlds, actions) && i <= k < |worlds| && j in worlds[i].cells
    requires worlds[i].cells[j].request.status in {NeedsClarification, Clarified}
    ensures j in worlds[k].cells && worlds[k].cells[j].request.status in {NeedsClarification, Clarified}
  {
    hide IsRun;
    if i < k {
      AskedUntilAnswered(c, worlds, actions, i, k - 1, j);
      LengthsMatch(c, worlds, actions);
      AskedStaysAsked(c, worlds, actions, k - 1, j);
    }
  }

  lemma LengthsMatch(c: Config, worlds: seq<World>, actions: seq<Action>)
    requires IsRun(c, worlds, actions)
    ensures |worlds| == |actions| + 1
  {
  }

  /**
   From the write that records that the asker was asked for detail, the request waits for
   an answer, and the first event on file as a reply to it is that answer.
   */
  lemma RepliesAreTakenAsAnswers(c: Config, worlds: seq<World>, actions: seq<Action>, i: nat, k: nat, j: JobId)
    requires IsRun(c, worlds, actions) && i < k < |actions|
    requires ActsOn(worlds[i], actions[i], j) && j in worlds[i].cells
    requires actions[i].act.WriteMarker? && actions[i].act.write != NotWritten
    requires worlds[i].workers[actions[i].id].phase == Marking(AsksForDetail)
    requires actions[k].Arrive? && IsNews(worlds[k].cells, actions[k].event)
    requires actions[k].event.parent == Some(worlds[i].cells[j].row.requestId)
    ensures j in worlds[i + 1].cells && worlds[i + 1].cells[j].request.status == NeedsClarification
    ensures j in worlds[k + 1].cells && worlds[k + 1].cells[j].request.status == Clarified
  {
    StatusMovesExactly(c, worlds, actions, i, j);
    RunAdvances(c, worlds, actions, i, k, j);
    hide IsRun;
    LengthsMatch(c, worlds, actions);
    AskedUntilAnswered(c, worlds, actions, i + 1, k, j);
    StatusMovesExactly(c, worlds, actions, k, j);
  }

  /**
   An abandonment that lands one of its writes leaves the request failed, unless it had
   already been settled, and then it leaves it alone.
   */
  lemma GivenUpIsMarkedFailed(c: Config, worlds: seq<World>, actions: seq<Action>, i: nat, j: JobId)
    requires IsRun(c, worlds, actions) && i < |actions| && j in worlds[i].cells && ActsOn(worlds[i], actions[i], j)
    requires WritesFailed(worlds[i].workers[actions[i].id], actions[i].act)
    ensures j in worlds[i + 1].cells
    ensures if worlds[i].cells[j].request.status in {Completed, NeedsClarification, Unsupported, Clarified}
            then worlds[i + 1].cells[j].request == worlds[i].cells[j].request
            else worlds[i + 1].cells[j].request == worlds[i].cells[j].request.(status := Failed)
  {
    StatusMovesExactly(c, worlds, actions, i, j);
    AnchorAndReportMoveExactly(c, worlds, actions, i, j);
    assert StepTaken(c, worlds[i], actions[i], worlds[i + 1]);
    NextKeepsKeys(c, worlds[i], actions[i]);
    hide IsRun;
  }

  // ----- what follows a step ------------------------------------------------

  /** A step of a delivery that ends in an exception. */
  predicate Throws(act: Act)
  {
    match act
    case ReadStatus(ok) => !ok
    case ReadReport(ok) => !ok
    case AckReply(post) => post.PostThrew?
    case WriteAnchor(write) => write != Wrote
    case ListTemplates(ok) => !ok
    case CallRca(answer) => answer.None?
    case RecordRuns(ok) => !ok
    case ReplyPost(post) => post.PostThrew?
    case WriteMarker(write) => write != Wrote
    case _ => false
  }

  /**
   A delivery that throws is over; one that returned closes its row, and notes it when that
   throws; an abandonment goes through its steps, noting each that throws, to the end.
   */
  ghost predicate LeadsTo(act: Act, before: Phase, next: Option<Worker>)
  {
    && (Throws(act) ==> next.Some? && next.value.phase == Thrown)
    && (act.Close? ==> if act.write == Wrote then next.None? else next.Some? && next.value.phase == NotingOpenRow)
    && (act.Reschedule? || act.Crash? ==> next.None?)
    && (act.GiveUp? ==>
          if act.write == Wrote then next.Some? && next.value.phase == Abandoning(MarkingFailed, false) else next.None?)
    && (act.ClosingWrite? && act.threw ==>
          before.Abandoning? && next.Some? && next.value.phase == Abandoning(before.step, true))
    && ((act.ClosingWrite? && !act.threw) || act.NoteFailure? ==>
          match before
          case Abandoning(MarkingFailed, _) => next.Some? && next.value.phase == Abandoning(Recording, false)
          case Abandoning(Recording, _) => next.Some? && next.value.phase == Abandoning(Announcing, false)
          case _ => next.None?)
  }

  /** The one thing a worker does next, whichever way it goes; it may also crash. */
  predicate IsNextCall(w: Worker, act: Act)
  {
    match w.phase
    case Start => act.ReadStatus?
    case StatusClear => act.ReadReport?
    case Unacknowledged => act.BeginAck?
    case AckInFlight => act.AckReply?
    case Anchoring(_, _) => act.WriteAnchor?
    case Preparing(_) => act.ListTemplates?
    case Investigating(_) => act.CallRca?
    case Auditing(_, _) => act.RecordRuns?
    case ReplyInFlight(_, _) => act.ReplyPost?
    case Marking(_) => act.WriteMarker?
    case Returned => act.Close?
    case Thrown => if w.attempts < 9 then act.Reschedule? else act.GiveUp?
    case NotingOpenRow => act.NoteFailure?
    case Abandoning(_, noting) => if noting then act.NoteFailure? else act.ClosingWrite? && (act.landed || act.threw)
  }

  /** In every run a worker may take its next call with any outcome, or crash, and nothing else. */
  lemma EachOutcomeMayCome(c: Config, worlds: seq<World>, actions: seq<Action>, i: nat, id: nat, act: Act)
    requires IsRun(c, worlds, actions) && i < |worlds| && id in worlds[i].workers
    ensures Allowed(c, worlds[i], Work(id, act)) <==> act.Crash? || IsNextCall(worlds[i].workers[id], act)
  {
    InvHolds(c, worlds, actions, i);
    CallsAre(worlds[i].workers[id], act);
    hide IsRun, CellOk, LeftoverOk, Step, Enabled, IsNextCall;
  }

  lemma CallsAre(w: Worker, act: Act)
    ensures Enabled(w, act) <==> act.Crash? || IsNextCall(w, act)
  {
  }

  lemma EachStepLeadsOn(c: Config, worlds: seq<World>, actions: seq<Action>, i: nat)
    requires IsRun(c, worlds, actions) && i < |actions| && actions[i].Work?
    ensures var id := actions[i].id;
            && id in worlds[i].workers
            && LeadsTo(actions[i].act, worlds[i].workers[id].phase,
                       if id in worlds[i + 1].workers then Some(worlds[i + 1].workers[id]) else None)
  {
    assert StepTaken(c, worlds[i], actions[i], worlds[i + 1]);
    hide Step, LeadsTo;
    var w := worlds[i];
    var id := actions[i].id;
    StepLeads(id, w.now, w.cells[w.workers[id].job], w.workers[id], actions[i].act);
  }

  lemma StepLeads(id: nat, now: Instant, cell: Cell, w: Worker, act: Act)
    requires Enabled(w, act)
    ensures LeadsTo(act, w.phase, Step(id, now, cell, w, act).1)
  {
    hide RetryDelay, SecondsAfter, WithStatus;
  }
}
