/**
 The delivery of one question: runInvestigation, statement by statement, shown to take
 only steps of the delivery protocol.
 */
module Pipeline {
  import opened Wrappers
  import opened Tables
  import opened Delivery
  import opened Protocol
  import opened Repository

  /** The channel, as far as the protocol can see it: which messages landed. */
  class Slack {
    var landed: multiset<(RequestId, Kind)>

    constructor ()
      ensures landed == multiset{}
    {
      landed := multiset{};
    }

    method PostMessage(id: RequestId, kind: Kind, fault: PostOutcome) returns (r: Result<Ts>)
      modifies this
      ensures landed == old(landed) + (if Lands(fault) then multiset{(id, kind)} else multiset{})
      ensures r == if fault.Posted? then Success(fault.ts) else Failure("slack chat.postMessage failed")
    {
      if Lands(fault) { landed := landed + multiset{(id, kind)}; }
      r := if fault.Posted? then Success(fault.ts) else Failure("slack chat.postMessage failed");
    }
  }

  predicate Lands(fault: PostOutcome) { fault.Posted? || fault.landed }

  /** How each outside call of one delivery goes. */
  datatype Script = Script(
    statusOk: bool,
    reportOk: bool,
    ack: PostOutcome,
    anchorWrite: WriteOutcome,
    templatesOk: bool,
    rca: Option<Reply>,
    runsOk: bool,
    reply: PostOutcome,
    markerWrite: WriteOutcome)

  type Landed = multiset<(RequestId, Kind)>

  // ----- a delivery among others --------------------------------------------

  /** Where these actions lead from a world, if each is allowed in its turn. */
  ghost function Advance(c: Config, w: World, trail: seq<Action>): Option<World>
  {
    if trail == [] then Some(w)
    else
      match Advance(c, w, trail[..|trail| - 1])
      case None => None
      case Some(v) =>
        if Allowed(c, v, trail[|trail| - 1]) then Some(Next(c, v, trail[|trail| - 1])) else None
  }

  /** A delivery told as a run of the protocol: where it began, all that happened, where it stands. */
  datatype Account = Account(c: Config, id: nat, job: JobId, requestId: RequestId, start: World, trail: seq<Action>,
                             world: World)

  ghost predicate OnDuty(a: Account)
  {
    && a.id in a.world.workers && a.world.workers[a.id].job == a.job
    && a.job in a.world.cells && a.world.cells[a.job].row.requestId == a.requestId
  }

  ghost function Me(a: Account): Worker
    requires OnDuty(a)
  {
    a.world.workers[a.id]
  }

  ghost function Mine(a: Account): Cell
    requires OnDuty(a)
  {
    a.world.cells[a.job]
  }

  /** Slack holds exactly the posts on the books of every row. */
  ghost predicate SlackHolds(landed: Landed, cells: Cells)
  {
    forall j, k | j in cells :: landed[(cells[j].row.requestId, k)] == cells[j].books.posts.Of(k)
  }

  /** The protocol gets here, and the tables and Slack are what it says they are. */
  ghost predicate Accounts(a: Account, db: Database, landed: Landed)
  {
    && Advance(a.c, a.start, a.trail) == Some(a.world) && Inv(a.c, a.world)
    && OnDuty(a) && Represents(db, a.world.cells) && SlackHolds(landed, a.world.cells)
  }

  /** The steps of a delivery that its code takes itself. */
  predicate Delivering(act: Act)
  {
    Quiet(act) || act.AckReply? || act.ReplyPost? || act.WriteAnchor? || act.WriteMarker?
  }

  predicate Quiet(act: Act)
  {
    act.ReadStatus? || act.ReadReport? || act.BeginAck? || act.ListTemplates? || act.CallRca? || act.RecordRuns?
  }

  ghost function Extend(a: Account, act: Act): Account
    requires OnDuty(a) && Enabled(Me(a), act)
  {
    a.(trail := a.trail + [Work(a.id, act)], world := Next(a.c, a.world, Work(a.id, act)))
  }

  lemma AdvanceOneMore(c: Config, w: World, trail: seq<Action>, v: World, next: Action)
    requires Advance(c, w, trail) == Some(v) && Allowed(c, v, next)
    ensures Advance(c, w, trail + [next]) == Some(Next(c, v, next))
  {
    assert (trail + [next])[..|trail|] == trail;
  }

  lemma DeliveringKeepsWorker(id: nat, now: Instant, cell: Cell, w: Worker, act: Act)
    requires Enabled(w, act) && Delivering(act)
    ensures var (cell', next) := Step(id, now, cell, w, act);
            && next.Some? && next.value == w.(phase := next.value.phase)
            && cell'.row == cell.row && (Quiet(act) ==> cell' == cell)
  {
  }

  /** One step of this delivery, as the protocol sees it. */
  lemma OwnStep(a: Account, act: Act)
    requires Advance(a.c, a.start, a.trail) == Some(a.world) && Inv(a.c, a.world)
    requires OnDuty(a) && Enabled(Me(a), act) && Delivering(act)
    ensures var next := Extend(a, act);
            var (cell, worker) := Step(a.id, a.world.now, Mine(a), Me(a), act);
            && Advance(next.c, next.start, next.trail) == Some(next.world) && Inv(next.c, next.world)
            && OnDuty(next) && worker == Some(Me(next)) && Me(next) == Me(a).(phase := Me(next).phase)
            && next.world.cells == a.world.cells[a.job := cell]
  {
    hide Inv, Step, Advance;
    DeliveringKeepsWorker(a.id, a.world.now, Mine(a), Me(a), act);
    AdvanceOneMore(a.c, a.start, a.trail, a.world, Work(a.id, act));
    StepKeepsInv(a.c, a.world, Work(a.id, act));
  }

  /** Where a step leaves this worker and its row. */
  ghost predicate Steps(a: Account, act: Act, next: Account)
  {
    && OnDuty(a) && Enabled(Me(a), act) && OnDuty(next)
    && (Mine(next), Some(Me(next))) == Step(a.id, a.world.now, Mine(a), Me(a), act)
    && Me(next) == Me(a).(phase := Me(next).phase)
  }

  /** A step that writes neither tables nor Slack. */
  lemma QuietStep(a: Account, db: Database, landed: Landed, act: Act)
    requires OnDuty(a) && Enabled(Me(a), act) && Quiet(act)
    requires Accounts(a, db, landed)
    ensures Accounts(Extend(a, act), db, landed) && Steps(a, act, Extend(a, act))
  {
    hide Inv, Represents, Step, Advance, SlackHolds;
    OwnStep(a, act);
    DeliveringKeepsWorker(a.id, a.world.now, Mine(a), Me(a), act);
    assert a.world.cells[a.job := Mine(a)] == a.world.cells;
  }

  lemma PostBooks(id: nat, now: Instant, cell: Cell, w: Worker, kind: Kind, fault: PostOutcome, act: Act)
    requires Enabled(w, act) && act == (if kind == Ack then AckReply(fault) else ReplyPost(fault))
    requires kind != Ack ==> w.phase.reply.Kind() == kind
    ensures var (next, w') := Step(id, now, cell, w, act);
            && next == cell.(books := next.books)
            && (forall k ::
                  next.books.posts.Of(k) == cell.books.posts.Of(k) + (if k == kind && Lands(fault) then 1 else 0))
  {
  }

  lemma SlackGrows(landed: Landed, db: Database, cells: Cells, j: JobId, cell: Cell, kind: Kind, posted: bool)
    requires SlackHolds(landed, cells) && Represents(db, cells) && j in cells && cell.row == cells[j].row
    requires forall k :: cell.books.posts.Of(k) == cells[j].books.posts.Of(k) + (if k == kind && posted then 1 else 0)
    ensures SlackHolds(landed + (if posted then multiset{(cell.row.requestId, kind)} else multiset{}), cells[j := cell])
  {
    hide Tally.Of;
    forall i | i in cells && i != j ensures cells[i].row.requestId != cell.row.requestId {
      assert Matches(db, i, cells[i]) && Matches(db, j, cells[j]);
      assert RowOf(db, i, cells[i].row.requestId) && RowOf(db, j, cells[j].row.requestId);
    }
  }

  /** A post: what Slack holds grows with the books. */
  lemma PostStep(a: Account, db: Database, landed: Landed, kind: Kind, fault: PostOutcome, act: Act)
    requires OnDuty(a) && Enabled(Me(a), act)
    requires act == (if kind == Ack then AckReply(fault) else ReplyPost(fault))
    requires kind != Ack ==> Me(a).phase.reply.Kind() == kind
    requires Accounts(a, db, landed)
    ensures Accounts(Extend(a, act), db,
                     landed + (if Lands(fault) then multiset{(a.requestId, kind)} else multiset{}))
    ensures Steps(a, act, Extend(a, act))
  {
    hide Inv, Represents, Step, Advance, SlackHolds, Tally.Of;
    OwnStep(a, act);
    PostBooks(a.id, a.world.now, Mine(a), Me(a), kind, fault, act);
    var cell := Step(a.id, a.world.now, Mine(a), Me(a), act).0;
    SameStored(db, a.world.cells, a.job, cell);
    SlackGrows(landed, db, a.world.cells, a.job, cell, kind, Lands(fault));
  }

  lemma MarkerBooks(id: nat, now: Instant, cell: Cell, w: Worker, act: Act, write: WriteOutcome)
    requires Enabled(w, act) && (act == WriteAnchor(write) || act == WriteMarker(write))
    ensures var next := Step(id, now, cell, w, act).0;
            && next.books.posts == cell.books.posts
            && (if !write.Landed() then next == cell.(books := next.books)
                else if act.WriteAnchor? then
                  next == cell.(request := WithStatus(cell.request, AnalyzingQuestion, Some(w.phase.anchor)))
                else next == StoreReply(cell, w.phase.reply))
  {
  }

  /** A marker write. What the statement does to the tables is what the step does to the cell. */
  lemma WriteStep(a: Account, db: Database, db': Database, landed: Landed, act: Act, write: WriteOutcome)
    requires OnDuty(a) && Enabled(Me(a), act)
    requires act == WriteAnchor(write) || act == WriteMarker(write)
    requires !write.Landed() ==> db' == db
    requires write.Landed() && act.WriteAnchor? ==>
               db' == UpdateRequestStatus(db, a.requestId, AnalyzingQuestion, Some(Me(a).phase.anchor))
    requires write.Landed() && act.WriteMarker? && Me(a).phase.reply.Answered? ==> db' == SaveReport(db, a.requestId)
    requires write.Landed() && act.WriteMarker? && !Me(a).phase.reply.Answered? ==>
               db' == UpdateRequestStatus(db, a.requestId, Me(a).phase.reply.Status(), None)
    requires Accounts(a, db, landed)
    ensures Accounts(Extend(a, act), db', landed) && Steps(a, act, Extend(a, act))
  {
    hide Inv, Represents, Step, Advance, SlackHolds, Tally.Of, WithStatus;
    OwnStep(a, act);
    SlackStays(landed, a.world.cells, a.job, Step(a.id, a.world.now, Mine(a), Me(a), act).0);
    var cells := a.world.cells;
    MarkerBooks(a.id, a.world.now, Mine(a), Me(a), act, write);
    var cell := Step(a.id, a.world.now, Mine(a), Me(a), act).0;
    if !write.Landed() {
      SameStored(db, cells, a.job, cell);
    } else if act.WriteAnchor? {
      StatusStatementMeans(db, cells, a.job, AnalyzingQuestion, Some(Me(a).phase.anchor));
    } else if Me(a).phase.reply.Answered? {
      ReportStatementMeans(db, cells, a.job);
    } else {
      StatusStatementMeans(db, cells, a.job, Me(a).phase.reply.Status(), None);
    }
  }

  lemma SlackStays(landed: Landed, cells: Cells, j: JobId, cell: Cell)
    requires SlackHolds(landed, cells) && j in cells
    ensures cell.row == cells[j].row && cell.books.posts == cells[j].books.posts ==>
              SlackHolds(landed, cells[j := cell])
  {
  }

  /** The stored part of a cell is all the tables know of it. */
  lemma SameStored(db: Database, cells: Cells, j: JobId, after: Cell)
    requires Represents(db, cells) && j in cells && after == cells[j].(books := after.books)
    ensures Represents(db, cells[j := after])
  {
    hide WellFormed;
    var cells' := cells[j := after];
    forall i | i in cells' ensures Matches(db, i, cells'[i]) {
      assert Matches(db, i, cells[i]);
    }
  }

  /** What the two guards read is what the cell says. */
  lemma GuardsRead(a: Account, db: Database, landed: Landed)
    requires Accounts(a, db, landed)
    ensures a.requestId in db.requests && db.requests[a.requestId] == Mine(a).request
    ensures Mine(a).reported <==> a.requestId in db.reports
  {
    assert Matches(db, a.job, Mine(a));
  }

  // ----- the others ---------------------------------------------------------

  /** Between two of its calls anyone else may act: arrivals, time, claims, other workers. */
  ghost predicate OthersActed(a: Account, after: Account)
  {
    && after == a.(trail := after.trail, world := after.world)
    && a.trail <= after.trail
    && (forall i | |a.trail| <= i < |after.trail| :: !IsMine(a.id, after.trail[i]))
    && OnDuty(a) && OnDuty(after) && Me(after) == Me(a).(spent := Me(after).spent)
  }

  predicate IsMine(id: nat, action: Action) { action.Work? && action.id == id }

  /** What actions of others leave of a worker: time is charged to it, and nothing else. */
  lemma OthersLeaveMe(a: Account, action: Action)
    requires OnDuty(a) && Allowed(a.c, a.world, action) && !IsMine(a.id, action)
    requires Advance(a.c, a.start, a.trail) == Some(a.world) && Inv(a.c, a.world)
    ensures var after := a.(trail := a.trail + [action], world := Next(a.c, a.world, action));
            && OthersActed(a, after)
            && Advance(after.c, after.start, after.trail) == Some(after.world) && Inv(after.c, after.world)
  {
    hide Inv, Advance, Step;
    AdvanceOneMore(a.c, a.start, a.trail, a.world, action);
    StepKeepsInv(a.c, a.world, action);
    if action.Work? {
      StepKeepsRow(a.c, a.world, action);
    }
  }

  lemma StepKeepsRow(c: Config, w: World, action: Action)
    requires action.Work? && Allowed(c, w, action)
    ensures forall j | j in w.cells :: j in Next(c, w, action).cells
              && Next(c, w, action).cells[j].row.requestId == w.cells[j].row.requestId
  {
  }

  /**
   The rest of the system between two calls of a delivery. Its body is one behaviour, that
   of nobody else being there; callers rely on the contract alone, which allows any.
   */
  method Others(repo: RequestRepository, slack: Slack, ghost a: Account) returns (ghost after: Account)
    requires Accounts(a, repo.Db(), slack.landed)
    modifies repo, slack
    ensures Accounts(after, repo.Db(), slack.landed) && OthersActed(a, after)
  {
    after := a;
  }

  /** The account went on: others acted, and this worker took steps of a delivery. */
  ghost predicate Continues(a: Account, after: Account)
  {
    && after == a.(trail := after.trail, world := after.world)
    && a.trail <= after.trail
    && (forall i | |a.trail| <= i < |after.trail| && IsMine(a.id, after.trail[i]) :: Delivering(after.trail[i].act))
    && OnDuty(a) && OnDuty(after) && Me(after) == Me(a).(phase := Me(after).phase, spent := Me(after).spent)
  }

  lemma OthersContinue(a: Account, b: Account, c: Account)
    requires Continues(a, b) && OthersActed(b, c)
    ensures Continues(a, c) && Me(c).phase == Me(b).phase
  {
    hide OnDuty;
    forall i | |a.trail| <= i < |c.trail| && IsMine(a.id, c.trail[i]) ensures Delivering(c.trail[i].act) {
      if i < |b.trail| { assert c.trail[i] == b.trail[i]; }
    }
  }

  lemma OwnStepContinues(a: Account, b: Account, act: Act)
    requires Continues(a, b) && Enabled(Me(b), act) && Delivering(act)
    requires OnDuty(Extend(b, act)) && Me(Extend(b, act)) == Me(b).(phase := Me(Extend(b, act)).phase)
    ensures Continues(a, Extend(b, act))
  {
    var c := Extend(b, act);
    forall i | |a.trail| <= i < |c.trail| && IsMine(a.id, c.trail[i]) ensures Delivering(c.trail[i].act) {
      if i < |b.trail| { assert c.trail[i] == b.trail[i]; }
    }
    hide OnDuty, Next;
  }

  lemma ContinuesFrom(a: Account)
    requires OnDuty(a)
    ensures Continues(a, a)
  {
  }

  /** The job a worker claimed is the one its account is about, with the anchors of the claim. */
  ghost predicate Handles(payload: Job, a: Account)
  {
    && OnDuty(a) && payload.id == a.job && payload.requestId == a.requestId
    && payload.ackTs == Me(a).ackTs && payload.parentAckTs == Me(a).parentAckTs
  }

  /** A step of this delivery goes on with its account. */
  lemma Goes(begin: Account, a: Account, act: Act)
    requires Continues(begin, a) && Enabled(Me(a), act) && Delivering(act)
    requires OnDuty(Extend(a, act)) && Me(Extend(a, act)) == Me(a).(phase := Me(Extend(a, act)).phase)
    ensures Continues(begin, Extend(a, act))
  {
    hide Continues, Extend;
    OwnStepContinues(begin, a, act);
  }

  lemma Duty(a: Account, db: Database, landed: Landed)
    requires Accounts(a, db, landed)
    ensures OnDuty(a)
  {
  }

  // ----- where each step leads ----------------------------------------------

  lemma GuardsLead(id: nat, now: Instant, cell: Cell, w: Worker, ok: bool)
    ensures w.phase.Start? ==>
              Step(id, now, cell, w, ReadStatus(ok)).1
              == To(w, if !ok then Thrown
                       else if cell.request.status in CLARIFICATION_ASKED then Returned else StatusClear)
    ensures w.phase.StatusClear? ==>
              Step(id, now, cell, w, ReadReport(ok)).1
              == To(w, if !ok then Thrown else if cell.reported then Returned else Unacknowledged)
  {
  }

  lemma WorkLeads(id: nat, now: Instant, cell: Cell, w: Worker, ok: bool, answer: Option<Reply>)
    ensures w.phase.Unacknowledged? ==>
              Step(id, now, cell, w, BeginAck).1
              == To(w, if w.HasAnchor() then Anchoring(w.ackTs.value, false) else AckInFlight)
    ensures w.phase.Preparing? ==>
              Step(id, now, cell, w, ListTemplates(ok)).1 == To(w, if ok then Investigating(w.phase.anchor) else Thrown)
    ensures w.phase.Investigating? ==>
              Step(id, now, cell, w, CallRca(answer)).1
              == To(w, if answer.Some? then Auditing(w.phase.anchor, answer.value) else Thrown)
    ensures w.phase.Auditing? ==>
              Step(id, now, cell, w, RecordRuns(ok)).1
              == To(w, if ok then ReplyInFlight(w.phase.anchor, w.phase.reply) else Thrown)
  {
  }

  lemma PostsLead(id: nat, now: Instant, cell: Cell, w: Worker, post: PostOutcome)
    ensures w.phase.AckInFlight? ==>
              Step(id, now, cell, w, AckReply(post)).1
              == To(w, if post.Posted? && AnchorFor(w, post.ts) != ""
                       then Anchoring(AnchorFor(w, post.ts), true) else Thrown)
    ensures w.phase.ReplyInFlight? ==>
              Step(id, now, cell, w, ReplyPost(post)).1
              == To(w, if post.Posted? then Marking(w.phase.reply) else Thrown)
  {
  }

  lemma WritesLead(id: nat, now: Instant, cell: Cell, w: Worker, write: WriteOutcome)
    ensures w.phase.Anchoring? ==>
              Step(id, now, cell, w, WriteAnchor(write)).1
              == To(w, if write.Wrote? then Preparing(w.phase.anchor) else Thrown)
    ensures w.phase.Marking? ==>
              Step(id, now, cell, w, WriteMarker(write)).1 == To(w, if write.Wrote? then Returned else Thrown)
  {
  }

  /** What a marker write leaves stored: the anchor, or the outcome the asker was told. */
  lemma WritesStore(id: nat, now: Instant, cell: Cell, w: Worker, write: WriteOutcome)
    requires write.Landed()
    ensures w.phase.Anchoring? && !cell.request.Settled() ==>
              var request := Step(id, now, cell, w, WriteAnchor(write)).0.request;
              request.ackTs == Some(w.phase.anchor) && request.status == AnalyzingQuestion
    ensures w.phase.Marking? && !cell.request.Settled() ==>
              Outcome(Step(id, now, cell, w, WriteMarker(write)).0, w.phase.reply)
  {
  }

  /** The stored outcome of a request that was answered in this way. */
  predicate Outcome(cell: Cell, reply: Reply)
  {
    match reply
    case Answered => cell.request.status == Completed && cell.reported
    case AsksForDetail => cell.request.status == NeedsClarification
    case OutOfScope => cell.request.status == Unsupported
  }

  /** What a live delivery's phase says of its request, in every world the protocol reaches. */
  lemma PhaseSays(a: Account, db: Database, landed: Landed)
    requires Accounts(a, db, landed) && Me(a).phase.Leased()
    ensures Me(a).phase.Anchoring? || Me(a).phase.Marking? ==> !Mine(a).request.Settled()
    ensures Me(a).phase.Returned? ==>
              Mine(a).request.status in {Completed, NeedsClarification, Unsupported, Clarified}
  {
    hide Represents, SlackHolds, Advance, Conserves, ClosureOk, ScheduleOk;
    HolderIs(a.world.workers, a.id);
    assert CellOk(a.c, a.world.now, Mine(a), HolderOf(a.world.workers, a.job));
  }

  // ----- the delivery -------------------------------------------------------

  /**
   The thread a delivery replies in: the one it already has; else, once its acknowledgement
   is posted, its parent's, or that of the message just posted.
   */
  function Thread(payload: Job, ack: PostOutcome): Option<Ts>
  {
    if payload.ackTs.Some? && payload.ackTs.value != "" then payload.ackTs
    else if !ack.Posted? then None
    else if payload.parentAckTs.Some? && payload.parentAckTs.value != "" then payload.parentAckTs
    else if ack.ts != "" then Some(ack.ts) else None
  }

  /** Everything past the guards that has to go well for a delivery not to throw. */
  predicate GoesWell(payload: Job, script: Script)
  {
    && Thread(payload, script.ack).Some? && script.anchorWrite.Wrote? && script.templatesOk
    && script.rca.Some? && script.runsOk && script.reply.Posted? && script.markerWrite.Wrote?
  }

  /**
   One delivery, with anything of anyone else's between two of its calls. Every way it can
   end, what happened is a run of the protocol in which this worker took steps of a
   delivery only, tables and Slack hold what the protocol says for every row, and the
   worker has returned or thrown as the code did. It returns only once its request is
   settled, and throws only when something failed.
   */
  method RunInvestigation(payload: Job, repo: RequestRepository, slack: Slack, script: Script, ghost begin: Account)
    returns (r: Result<()>, ghost a: Account)
    requires Accounts(begin, repo.Db(), slack.landed) && Handles(payload, begin) && Me(begin).phase == Start
    modifies repo, slack
    ensures Accounts(a, repo.Db(), slack.landed) && Continues(begin, a)
    ensures Me(a).phase == if r.Success? then Returned else Thrown
    ensures r.Success? ==>
              && script.statusOk
              && Mine(a).request.status in {Completed, NeedsClarification, Unsupported, Clarified}
    ensures script.statusOk && script.reportOk && GoesWell(payload, script) ==> r.Success?
  {
    hide Accounts, Continues, Step, Extend, GoesWell;
    a := begin;
    ContinuesFrom(begin);

    // The two guards: a clarification already asked, a report already published.
    a := GoOn(repo, slack, begin, a);
    StillHandles(payload, begin, a);
    GuardsRead(a, repo.Db(), slack.landed);
    GuardsLead(a.id, a.world.now, Mine(a), Me(a), script.statusOk);
    var status := repo.FindRequestStatus(payload.requestId, script.statusOk);
    a := Take(repo, slack, begin, a, ReadStatus(script.statusOk));
    if status.Failure? { return Failure(status.error), a; }
    if status.value.Some? && status.value.value in CLARIFICATION_ASKED {
      PhaseSays(a, repo.Db(), slack.landed);
      return Success(()), a;
    }

    a := GoOn(repo, slack, begin, a);
    StillHandles(payload, begin, a);
    GuardsRead(a, repo.Db(), slack.landed);
    GuardsLead(a.id, a.world.now, Mine(a), Me(a), script.reportOk);
    var published := repo.FindReportByRequest(payload.requestId, script.reportOk);
    a := Take(repo, slack, begin, a, ReadReport(script.reportOk));
    if published.Failure? { return Failure(published.error), a; }
    if published.value {
      PhaseSays(a, repo.Db(), slack.landed);
      return Success(()), a;
    }

    r, a := Investigate(payload, repo, slack, script, begin, a);
    if r.Success? { PhaseSays(a, repo.Db(), slack.landed); }
  }

  /** Whatever the others do between two calls, the account goes on in the same phase. */
  method GoOn(repo: RequestRepository, slack: Slack, ghost begin: Account, ghost a: Account)
    returns (ghost after: Account)
    requires Accounts(a, repo.Db(), slack.landed) && Continues(begin, a)
    modifies repo, slack
    ensures Accounts(after, repo.Db(), slack.landed) && Continues(begin, after)
    ensures Me(after).phase == Me(a).phase
  {
    hide Accounts, Continues, OthersActed;
    after := Others(repo, slack, a);
    OthersContinue(begin, a, after);
  }

  /** A call that wrote nothing is a step that writes nothing. */
  ghost method Take(repo: RequestRepository, slack: Slack, begin: Account, a: Account, act: Act)
    returns (after: Account)
    requires Accounts(a, repo.Db(), slack.landed) && Continues(begin, a) && Enabled(Me(a), act) && Quiet(act)
    ensures Accounts(after, repo.Db(), slack.landed) && Continues(begin, after)
    ensures Some(Me(after)) == Step(a.id, a.world.now, Mine(a), Me(a), act).1
  {
    Duty(a, repo.Db(), slack.landed);
    hide Accounts, Continues, Step;
    QuietStep(a, repo.Db(), slack.landed, act);
    after := Extend(a, act);
    Goes(begin, a, act);
  }

  /** What follows the guards. */
  method Investigate(payload: Job, repo: RequestRepository, slack: Slack, script: Script, ghost begin: Account,
                     ghost from: Account)
    returns (r: Result<()>, ghost a: Account)
    requires Accounts(from, repo.Db(), slack.landed) && Continues(begin, from) && Me(from).phase == Unacknowledged
    requires Handles(payload, begin)
    modifies repo, slack
    ensures Accounts(a, repo.Db(), slack.landed) && Continues(begin, a)
    ensures Me(a).phase == if r.Success? then Returned else Thrown
    ensures r.Success? <==> GoesWell(payload, script)
    ensures r.Success? ==> Outcome(Mine(a), script.rca.value)
  {
    hide Accounts, Continues, Step, Extend, Outcome, Thread;

    // The acknowledgement and its anchor.
    var threw;
    threw, a := Acknowledge(payload, repo, slack, script, begin, from);
    if threw { return Failure("the request could not be acknowledged"), a; }

    // The templates, and the call to the RCA service.
    a := GoOn(repo, slack, begin, a);
    StillHandles(payload, begin, a);
    WorkLeads(a.id, a.world.now, Mine(a), Me(a), script.templatesOk, None);
    a := Take(repo, slack, begin, a, ListTemplates(script.templatesOk));
    if !script.templatesOk { return Failure("the templates could not be listed"), a; }
    a := GoOn(repo, slack, begin, a);
    StillHandles(payload, begin, a);
    WorkLeads(a.id, a.world.now, Mine(a), Me(a), true, script.rca);
    a := Take(repo, slack, begin, a, CallRca(script.rca));
    if script.rca.None? { return Failure("the RCA service did not answer"), a; }

    // Agent runs are recorded ahead of the reply.
    a := GoOn(repo, slack, begin, a);
    StillHandles(payload, begin, a);
    WorkLeads(a.id, a.world.now, Mine(a), Me(a), script.runsOk, None);
    a := Take(repo, slack, begin, a, RecordRuns(script.runsOk));
    if !script.runsOk { return Failure("the agent runs could not be recorded"), a; }

    r, a := Publish(payload, repo, slack, script, script.rca.value, begin, a);
  }

  /** Posted only when no earlier attempt recorded an anchor; the anchor is stored either way. */
  method Acknowledge(payload: Job, repo: RequestRepository, slack: Slack, script: Script, ghost begin: Account,
                     ghost from: Account)
    returns (threw: bool, ghost a: Account)
    requires Accounts(from, repo.Db(), slack.landed) && Continues(begin, from) && Me(from).phase == Unacknowledged
    requires Handles(payload, begin)
    modifies repo, slack
    ensures Accounts(a, repo.Db(), slack.landed) && Continues(begin, a)
    ensures threw <==> Thread(payload, script.ack).None? || !script.anchorWrite.Wrote?
    ensures threw ==> Me(a).phase == Thrown
    ensures !threw ==>
              var thread := Thread(payload, script.ack);
              && Me(a).phase == Preparing(thread.value)
              && Mine(a).request.ackTs == thread && Mine(a).request.status == AnalyzingQuestion
  {
    hide Accounts, Continues, Step, Extend;
    StillHandles(payload, begin, from);
    WorkLeads(from.id, from.world.now, Mine(from), Me(from), true, None);
    a := Take(repo, slack, begin, from, BeginAck);
    StillHandles(payload, begin, a);
    var anchor := if payload.ackTs.Some? then payload.ackTs.value else "";
    if anchor == "" {
      a := GoOn(repo, slack, begin, a);
      StillHandles(payload, begin, a);
      PostsLead(a.id, a.world.now, Mine(a), Me(a), script.ack);
      PostStep(a, repo.Db(), slack.landed, Ack, script.ack, AckReply(script.ack));
      Goes(begin, a, AckReply(script.ack));
      var posted := slack.PostMessage(payload.requestId, Ack, script.ack);
      a := Extend(a, AckReply(script.ack));
      if posted.Failure? { return true, a; }
      anchor := if payload.parentAckTs.Some? && payload.parentAckTs.value != "" then payload.parentAckTs.value
                else posted.value;
    }
    // Without an anchor the delivery throws.
    if anchor == "" { return true, a; }
    threw, a := StoreAnchor(payload, repo, slack, script, anchor, begin, a);
  }

  /** The request is being analysed, in this thread. */
  method StoreAnchor(payload: Job, repo: RequestRepository, slack: Slack, script: Script, anchor: Ts,
                     ghost begin: Account, ghost from: Account)
    returns (threw: bool, ghost a: Account)
    requires Accounts(from, repo.Db(), slack.landed) && Continues(begin, from)
    requires Me(from).phase.Anchoring? && Me(from).phase.anchor == anchor
    requires Handles(payload, begin)
    modifies repo, slack
    ensures Accounts(a, repo.Db(), slack.landed) && Continues(begin, a)
    ensures threw <==> !script.anchorWrite.Wrote?
    ensures threw ==> Me(a).phase == Thrown
    ensures !threw ==>
              && Me(a).phase == Preparing(anchor)
              && Mine(a).request.ackTs == Some(anchor) && Mine(a).request.status == AnalyzingQuestion
  {
    hide Accounts, Continues, Step, Extend;
    a := GoOn(repo, slack, begin, from);
    StillHandles(payload, begin, a);
    WritesLead(a.id, a.world.now, Mine(a), Me(a), script.anchorWrite);
    PhaseSays(a, repo.Db(), slack.landed);
    if script.anchorWrite.Landed() { WritesStore(a.id, a.world.now, Mine(a), Me(a), script.anchorWrite); }
    ghost var before := repo.Db();
    threw := repo.UpdateRequestStatus(payload.requestId, AnalyzingQuestion, Some(anchor), script.anchorWrite);
    WriteStep(a, before, repo.Db(), slack.landed, WriteAnchor(script.anchorWrite), script.anchorWrite);
    Goes(begin, a, WriteAnchor(script.anchorWrite));
    a := Extend(a, WriteAnchor(script.anchorWrite));
  }

  /** The claimed job stays this worker's for the whole delivery. */
  lemma StillHandles(payload: Job, begin: Account, a: Account)
    requires Handles(payload, begin) && Continues(begin, a)
    ensures Handles(payload, a)
  {
    hide Delivering;
  }

  /** The clarification or the report: posted first, marked second. */
  method Publish(payload: Job, repo: RequestRepository, slack: Slack, script: Script, result: Reply,
                 ghost begin: Account, ghost from: Account)
    returns (r: Result<()>, ghost a: Account)
    requires Accounts(from, repo.Db(), slack.landed) && Continues(begin, from)
    requires Me(from).phase.ReplyInFlight? && Me(from).phase.reply == result
    requires Handles(payload, begin)
    modifies repo, slack
    ensures Accounts(a, repo.Db(), slack.landed) && Continues(begin, a)
    ensures Me(a).phase == if r.Success? then Returned else Thrown
    ensures r.Success? <==> script.reply.Posted? && script.markerWrite.Wrote?
    ensures r.Success? ==> Outcome(Mine(a), result)
  {
    hide Accounts, Continues, Step, Extend, Outcome;
    a := GoOn(repo, slack, begin, from);
    StillHandles(payload, begin, a);
    PostsLead(a.id, a.world.now, Mine(a), Me(a), script.reply);
    PostStep(a, repo.Db(), slack.landed, result.Kind(), script.reply, ReplyPost(script.reply));
    Goes(begin, a, ReplyPost(script.reply));
    var posted := slack.PostMessage(payload.requestId, result.Kind(), script.reply);
    a := Extend(a, ReplyPost(script.reply));
    if posted.Failure? { return Failure(posted.error), a; }
    r, a := Mark(payload, repo, slack, script, result, begin, a);
  }

  /** The outcome is recorded once it has been posted. */
  method Mark(payload: Job, repo: RequestRepository, slack: Slack, script: Script, result: Reply,
              ghost begin: Account, ghost from: Account)
    returns (r: Result<()>, ghost a: Account)
    requires Accounts(from, repo.Db(), slack.landed) && Continues(begin, from)
    requires Me(from).phase == Marking(result)
    requires Handles(payload, begin)
    modifies repo, slack
    ensures Accounts(a, repo.Db(), slack.landed) && Continues(begin, a)
    ensures Me(a).phase == if r.Success? then Returned else Thrown
    ensures r.Success? <==> script.markerWrite.Wrote?
    ensures r.Success? ==> Outcome(Mine(a), result)
  {
    hide Accounts, Continues, Step, Extend, Outcome;
    a := GoOn(repo, slack, begin, from);
    StillHandles(payload, begin, a);
    WritesLead(a.id, a.world.now, Mine(a), Me(a), script.markerWrite);
    PhaseSays(a, repo.Db(), slack.landed);
    if script.markerWrite.Landed() { WritesStore(a.id, a.world.now, Mine(a), Me(a), script.markerWrite); }
    ghost var before := repo.Db();
    var threw;
    if !result.Answered? {
      threw := repo.UpdateRequestStatus(payload.requestId, result.Status(), None, script.markerWrite);
    } else {
      threw := repo.SaveReport(payload.requestId, script.markerWrite);
    }
    WriteStep(a, before, repo.Db(), slack.landed, WriteMarker(script.markerWrite), script.markerWrite);
    Goes(begin, a, WriteMarker(script.markerWrite));
    a := Extend(a, WriteMarker(script.markerWrite));
    r := if threw then Failure("the outcome could not be recorded") else Success(());
  }
}
