/**
 One delivery of one queued request, as the steps runInvestigation and the dispatcher
 around it take, each of which may fail or be cut off by a crash.

 A Cell joins everything stored for one queue row: the row, its request, whether a
 report row exists, and the books the theorems are stated over. A Worker is a process
 somewhere between claiming that row and letting go of it.
 */
module Delivery {
  import opened Wrappers
  import opened Tables

  // ----- the claim lock -----------------------------------------------------

  const LOCK_MARGIN_SECONDS := 15
  const MAX_DISPATCH_ATTEMPTS := 9

  datatype Config = Config(rcaTimeoutMs: nat, slackTimeoutMs: nat)

  function TimeoutMs(c: Config): nat { c.rcaTimeoutMs + 2 * c.slackTimeoutMs }

  /** Whole seconds, rounded up, plus the margin for the database work. */
  function LockSecondsFor(timeoutMs: nat): nat { (timeoutMs + 999) / 1000 + LOCK_MARGIN_SECONDS }

  function LockSeconds(c: Config): nat { LockSecondsFor(TimeoutMs(c)) }

  function Micros(ms: nat): nat { ms * 1000 }

  /**
   Where a delivery's time went. Each Slack call and the RCA call is cut off by its own
   timeout; everything else is database work.
   */
  datatype Spent = Spent(database: nat, ack: nat, rca: nat, reply: nat)
  {
    function Total(): nat { database + ack + rca + reply }

    /** The lease assumption: calls end by their timeouts, the rest within the margin. */
    predicate Within(c: Config)
    {
      && database <= LOCK_MARGIN_SECONDS * SECOND
      && ack <= Micros(c.slackTimeoutMs)
      && rca <= Micros(c.rcaTimeoutMs)
      && reply <= Micros(c.slackTimeoutMs)
    }
  }

  /** Why the lock is long enough, whatever the two timeouts are. */
  lemma LockOutlastsDelivery(c: Config, spent: Spent)
    requires spent.Within(c)
    ensures spent.Total() <= LockSeconds(c) * SECOND
  {
    var t := TimeoutMs(c);
    assert t <= 1000 * ((t + 999) / 1000);
  }

  // ----- books --------------------------------------------------------------

  datatype Kind = Ack | Clarification | Report

  datatype Tally = Tally(ack: nat, clarification: nat, report: nat)
  {
    function Of(k: Kind): nat
    {
      match k
      case Ack => ack
      case Clarification => clarification
      case Report => report
    }

    function Inc(k: Kind, n: nat): Tally
    {
      match k
      case Ack => this.(ack := ack + n)
      case Clarification => this.(clarification := clarification + n)
      case Report => this.(report := report + n)
    }
  }

  /**
   History the tables do not keep.
   - posts: messages that reached Slack; lost: those whose marker write never landed.
   - delays: the retry delays granted, in order.
   - announced: announcements called; closer: the worker carrying out an abandonment.
   - cut: an abandonment was interrupted after its row was closed.
   - spoiled: a claim ended in a crash, or a write that lets the row go did not return.
   */
  datatype Books = Books(
    posts: Tally,
    lost: Tally,
    delays: seq<nat>,
    announced: nat,
    closer: Option<nat>,
    cut: bool,
    spoiled: bool)

  const NO_BOOKS := Books(Tally(0, 0, 0), Tally(0, 0, 0), [], 0, None, false, false)

  datatype Cell = Cell(row: QueueRow, request: Request, reported: bool, books: Books)
  {
    /** Whether the marker that says "this was posted" is stored. */
    predicate Marked(k: Kind)
    {
      match k
      case Ack => request.ackTs.Some?
      case Clarification => request.status in CLARIFICATION_ASKED
      case Report => reported
    }
  }

  // ----- phases -------------------------------------------------------------

  /** What the RCA service answered with. */
  datatype Reply = Answered | AsksForDetail | OutOfScope
  {
    function Kind(): Kind { if Answered? then Report else Clarification }

    function Status(): Status
    {
      match this
      case Answered => Completed
      case AsksForDetail => NeedsClarification
      case OutOfScope => Unsupported
    }
  }

  datatype ClosingStep = MarkingFailed | Recording | Announcing

  datatype Phase =
    | Start
    | StatusClear
    | Unacknowledged
    | AckInFlight
    | Anchoring(anchor: Ts, posted: bool)
    | Preparing(anchor: Ts)
    | Investigating(anchor: Ts)
    | Auditing(anchor: Ts, reply: Reply)
    | ReplyInFlight(anchor: Ts, reply: Reply)
    | Marking(reply: Reply)
    | Returned
    | Thrown
    | NotingOpenRow
    | Abandoning(step: ClosingStep, noting: bool)
  {
    /** Whether the worker still counts on its claim lock. */
    predicate Leased() { !NotingOpenRow? && !Abandoning? }

    /** A message of this kind has landed and its marker has not been written yet. */
    predicate Between(k: Kind)
    {
      match this
      case Anchoring(_, posted) => posted && k == Ack
      case Marking(reply) => k == reply.Kind()
      case _ => false
    }

    /** The phases in which a delivery posts, or calls the RCA service. */
    predicate Speaking()
    {
      AckInFlight? || Anchoring? || Preparing? || Investigating? || Auditing? || ReplyInFlight? || Marking?
    }
  }

  datatype Worker = Worker(
    job: JobId,
    attempts: nat,
    claimedAt: Instant,
    ackTs: Option<Ts>,
    parentAckTs: Option<Ts>,
    phase: Phase,
    spent: Spent)
  {
    /** The claimed anchor as the code reads it: an empty string is no anchor. */
    predicate HasAnchor() { ackTs.Some? && ackTs.value != "" }
  }

  // ----- what each step may do ----------------------------------------------

  datatype WriteOutcome = Wrote | WroteThenThrew | NotWritten
  {
    predicate Landed() { !NotWritten? }
  }

  /** A post lands and returns its ts, or throws having landed or not. */
  datatype PostOutcome = Posted(ts: Ts) | PostThrew(landed: bool)

  datatype Act =
    | ReadStatus(ok: bool)
    | ReadReport(ok: bool)
    | BeginAck
    | AckReply(post: PostOutcome)
    | WriteAnchor(write: WriteOutcome)
    | ListTemplates(ok: bool)
    | CallRca(answer: Option<Reply>)
    | RecordRuns(ok: bool)
    | ReplyPost(post: PostOutcome)
    | WriteMarker(write: WriteOutcome)
    | Close(write: WriteOutcome)
    | Reschedule(write: WriteOutcome)
    | GiveUp(write: WriteOutcome)
    | NoteFailure(landed: bool)
    | ClosingWrite(landed: bool, threw: bool)
    | Crash(landed: bool)

  predicate Enabled(w: Worker, act: Act)
  {
    match act
    case ReadStatus(_) => w.phase.Start?
    case ReadReport(_) => w.phase.StatusClear?
    case BeginAck => w.phase.Unacknowledged?
    case AckReply(_) => w.phase.AckInFlight?
    case WriteAnchor(_) => w.phase.Anchoring?
    case ListTemplates(_) => w.phase.Preparing?
    case CallRca(_) => w.phase.Investigating?
    case RecordRuns(_) => w.phase.Auditing?
    case ReplyPost(_) => w.phase.ReplyInFlight?
    case WriteMarker(_) => w.phase.Marking?
    case Close(_) => w.phase.Returned?
    case Reschedule(_) => w.phase.Thrown? && w.attempts < MAX_DISPATCH_ATTEMPTS
    case GiveUp(_) => w.phase.Thrown? && w.attempts >= MAX_DISPATCH_ATTEMPTS
    case NoteFailure(_) => w.phase.NotingOpenRow? || (w.phase.Abandoning? && w.phase.noting)
    case ClosingWrite(landed, threw) => w.phase.Abandoning? && !w.phase.noting && (landed || threw)
    case Crash(_) => true
  }

  function Pow2(n: nat): nat { if n == 0 then 1 else 2 * Pow2(n - 1) }

  function RetryDelay(attempts: nat): nat { Pow2(attempts) }

  /** A post that landed without its marker ever being written. */
  function Lose(cell: Cell, k: Kind, n: nat): Cell
  {
    cell.(books := cell.books.(lost := cell.books.lost.Inc(k, n)))
  }

  function Land(cell: Cell, k: Kind, n: nat): Cell
  {
    cell.(books := cell.books.(posts := cell.books.posts.Inc(k, n)))
  }

  function Spoil(cell: Cell, write: WriteOutcome): Cell
  {
    cell.(books := cell.books.(spoiled := cell.books.spoiled || !write.Wrote?))
  }

  function To(w: Worker, phase: Phase): Option<Worker> { Some(w.(phase := phase)) }

  function AfterClosing(w: Worker, step: ClosingStep): Option<Worker>
  {
    match step
    case MarkingFailed => To(w, Abandoning(Recording, false))
    case Recording => To(w, Abandoning(Announcing, false))
    case Announcing => None
  }

  /** The worker is done with the closing steps once it is gone. */
  function ReleaseCloser(cell: Cell, next: Option<Worker>): Cell
  {
    if next.None? then cell.(books := cell.books.(closer := None)) else cell
  }

  function MarkedFailed(cell: Cell, landed: bool): Cell
  {
    if landed then cell.(request := WithStatus(cell.request, Failed, None)) else cell
  }

  function StoreReply(cell: Cell, reply: Reply): Cell
  {
    if reply.Answered? then cell.(reported := true, request := cell.request.(status := Completed))
    else cell.(request := WithStatus(cell.request, reply.Status(), None))
  }

  /** The anchor of pipeline.ts: the parent's if there is one, else the new message. */
  function AnchorFor(w: Worker, ts: Ts): Ts
  {
    if w.parentAckTs.Some? && w.parentAckTs.value != "" then w.parentAckTs.value else ts
  }

  /** The acknowledgement's reply. Landing without a usable ts is a throw like any other. */
  function OnAckReply(cell: Cell, w: Worker, post: PostOutcome): (Cell, Option<Worker>)
  {
    match post
    case Posted(ts) =>
      var anchor := AnchorFor(w, ts);
      var landed := Land(cell, Ack, 1);
      if anchor == "" then (Lose(landed, Ack, 1), To(w, Thrown))
      else (landed, To(w, Anchoring(anchor, true)))
    case PostThrew(landed) =>
      var n := if landed then 1 else 0;
      (Lose(Land(cell, Ack, n), Ack, n), To(w, Thrown))
  }

  function OnWriteAnchor(cell: Cell, w: Worker, anchor: Ts, posted: bool, write: WriteOutcome): (Cell, Option<Worker>)
  {
    var stored :=
      if write.Landed() then cell.(request := WithStatus(cell.request, AnalyzingQuestion, Some(anchor)))
      else Lose(cell, Ack, if posted then 1 else 0);
    (stored, To(w, if write.Wrote? then Preparing(anchor) else Thrown))
  }

  function OnReplyPost(cell: Cell, w: Worker, reply: Reply, post: PostOutcome): (Cell, Option<Worker>)
  {
    match post
    case Posted(_) => (Land(cell, reply.Kind(), 1), To(w, Marking(reply)))
    case PostThrew(landed) =>
      var n := if landed then 1 else 0;
      (Lose(Land(cell, reply.Kind(), n), reply.Kind(), n), To(w, Thrown))
  }

  function OnWriteMarker(cell: Cell, w: Worker, reply: Reply, write: WriteOutcome): (Cell, Option<Worker>)
  {
    var stored := if write.Landed() then StoreReply(cell, reply) else Lose(cell, reply.Kind(), 1);
    (stored, To(w, if write.Wrote? then Returned else Thrown))
  }

  function OnClose(now: Instant, cell: Cell, w: Worker, write: WriteOutcome): (Cell, Option<Worker>)
  {
    var closed := if write.Landed() then cell.(row := CompletedRow(cell.row, now)) else cell;
    (Spoil(closed, write), if write.Wrote? then None else To(w, NotingOpenRow))
  }

  function OnReschedule(now: Instant, cell: Cell, w: Worker, write: WriteOutcome): (Cell, Option<Worker>)
  {
    var delay := RetryDelay(w.attempts);
    var retried :=
      if write.Landed() then
        cell.(row := RetriedRow(cell.row, now, delay),
              books := cell.books.(delays := cell.books.delays + [delay]))
      else cell;
    (Spoil(retried, write), None)
  }

  function OnGiveUp(id: nat, now: Instant, cell: Cell, w: Worker, write: WriteOutcome): (Cell, Option<Worker>)
  {
    var closed := if write.Landed() then cell.(row := CompletedRow(cell.row, now)) else cell;
    var booked := Spoil(closed, write);
    if write.Wrote? then
      (booked.(books := booked.books.(closer := Some(id))), To(w, Abandoning(MarkingFailed, false)))
    else
      (booked.(books := booked.books.(cut := booked.books.cut || write.WroteThenThrew?)), None)
  }

  function OnNote(cell: Cell, w: Worker, step: ClosingStep, landed: bool): (Cell, Option<Worker>)
  {
    var next := AfterClosing(w, step);
    (ReleaseCloser(MarkedFailed(cell, landed), next), next)
  }

  /** Marking the request failed, or recording the error, which ends in the same gated write. */
  function OnClosingWrite(cell: Cell, w: Worker, step: ClosingStep, landed: bool, threw: bool): (Cell, Option<Worker>)
    requires !step.Announcing?
  {
    (MarkedFailed(cell, landed), if threw then To(w, Abandoning(step, true)) else AfterClosing(w, step))
  }

  function OnAnnounce(cell: Cell, w: Worker, threw: bool): (Cell, Option<Worker>)
  {
    var told := cell.(books := cell.books.(announced := cell.books.announced + 1));
    var next := if threw then To(w, Abandoning(Announcing, true)) else None;
    (ReleaseCloser(told, next), next)
  }

  /** One step of one worker on the cell it claimed. None: the worker is gone. */
  function Step(id: nat, now: Instant, cell: Cell, w: Worker, act: Act): (Cell, Option<Worker>)
    requires Enabled(w, act)
  {
    match act
    case ReadStatus(ok) =>
      (cell, To(w, if !ok then Thrown
                   else if cell.request.status in CLARIFICATION_ASKED then Returned
                   else StatusClear))
    case ReadReport(ok) =>
      (cell, To(w, if !ok then Thrown else if cell.reported then Returned else Unacknowledged))
    case BeginAck =>
      (cell, To(w, if w.HasAnchor() then Anchoring(w.ackTs.value, false) else AckInFlight))
    case AckReply(post) => OnAckReply(cell, w, post)
    case WriteAnchor(write) => OnWriteAnchor(cell, w, w.phase.anchor, w.phase.posted, write)
    case ListTemplates(ok) =>
      (cell, To(w, if ok then Investigating(w.phase.anchor) else Thrown))
    case CallRca(answer) =>
      (cell, To(w, if answer.Some? then Auditing(w.phase.anchor, answer.value) else Thrown))
    case RecordRuns(ok) =>
      (cell, To(w, if ok then ReplyInFlight(w.phase.anchor, w.phase.reply) else Thrown))
    case ReplyPost(post) => OnReplyPost(cell, w, w.phase.reply, post)
    case WriteMarker(write) => OnWriteMarker(cell, w, w.phase.reply, write)
    case Close(write) => OnClose(now, cell, w, write)
    case Reschedule(write) => OnReschedule(now, cell, w, write)
    case GiveUp(write) => OnGiveUp(id, now, cell, w, write)
    case NoteFailure(landed) =>
      if w.phase.NotingOpenRow? then (MarkedFailed(cell, landed), None)
      else OnNote(cell, w, w.phase.step, landed)
    case ClosingWrite(landed, threw) =>
      if w.phase.step.Announcing? then OnAnnounce(cell, w, threw)
      else OnClosingWrite(cell, w, w.phase.step, landed, threw)
    case Crash(landed) => (CrashedCell(cell, w, landed), None)
  }

  /** What a crash leaves: a post in flight may have landed, a landed one loses its marker. */
  function CrashedCell(cell: Cell, w: Worker, landed: bool): Cell
  {
    match w.phase
    case NotingOpenRow => cell
    case Abandoning(_, _) => cell.(books := cell.books.(closer := None, cut := true))
    case AckInFlight =>
      var n := if landed then 1 else 0;
      Spoil(Lose(Land(cell, Ack, n), Ack, n), NotWritten)
    case ReplyInFlight(_, reply) =>
      var n := if landed then 1 else 0;
      Spoil(Lose(Land(cell, reply.Kind(), n), reply.Kind(), n), NotWritten)
    case Anchoring(_, posted) => Spoil(Lose(cell, Ack, if posted then 1 else 0), NotWritten)
    case Marking(reply) => Spoil(Lose(cell, reply.Kind(), 1), NotWritten)
    case _ => Spoil(cell, NotWritten)
  }

  /** Time passing, charged to the call the worker is waiting in. */
  function Age(w: Worker, n: nat): Worker
  {
    var s := w.spent;
    match w.phase
    case NotingOpenRow => w
    case Abandoning(_, _) => w
    case AckInFlight => w.(spent := s.(ack := s.ack + n))
    case Investigating(_) => w.(spent := s.(rca := s.rca + n))
    case ReplyInFlight(_, _) => w.(spent := s.(reply := s.reply + n))
    case _ => w.(spent := s.(database := s.database + n))
  }

  // ----- the invariant of one cell ------------------------------------------

  /** The delays 2, 4, 8, ... granted after n failed deliveries. */
  function Backoff(n: nat): seq<nat>
  {
    if n == 0 then [] else Backoff(n - 1) + [Pow2(n)]
  }

  function Sum(s: seq<nat>): nat
  {
    if s == [] then 0 else Sum(s[..|s| - 1]) + s[|s| - 1]
  }

  predicate Conserves(cell: Cell, holder: Option<Worker>, k: Kind)
  {
    cell.books.posts.Of(k) ==
      cell.books.lost.Of(k)
      + (if cell.Marked(k) then 1 else 0)
      + (if holder.Some? && holder.value.phase.Between(k) then 1 else 0)
  }

  /** What the phase of the lease holder says about the stored request. */
  predicate PhaseFits(cell: Cell, w: Worker)
  {
    var request := cell.request;
    match w.phase
    case Start => w.ackTs == request.ackTs
    case StatusClear => w.ackTs == request.ackTs && request.status !in CLARIFICATION_ASKED
    case Unacknowledged => w.ackTs == request.ackTs && !request.Settled()
    case AckInFlight => request.ackTs.None? && !request.Settled()
    case Anchoring(anchor, posted) =>
      && anchor != "" && !request.Settled()
      && request.ackTs == (if posted then None else Some(anchor))
    case Preparing(anchor) => request.ackTs == Some(anchor) && !request.Settled()
    case Investigating(anchor) => request.ackTs == Some(anchor) && !request.Settled()
    case Auditing(anchor, _) => request.ackTs == Some(anchor) && !request.Settled()
    case ReplyInFlight(anchor, _) => request.ackTs == Some(anchor) && !request.Settled()
    case Marking(_) => request.ackTs.Some? && !request.Settled()
    case Returned => request.Settled()
    case Thrown => true
    case _ => false
  }

  predicate HolderOk(c: Config, now: Instant, cell: Cell, w: Worker)
  {
    && w.phase.Leased()
    && cell.row.dispatchedAt.None?
    && cell.row.lockedUntil == Some(SecondsAfter(w.claimedAt, LockSeconds(c)))
    && cell.row.attempts == w.attempts
    && cell.row.nextAttemptAt <= w.claimedAt
    && now == w.claimedAt + w.spent.Total()
    && w.spent.Within(c)
    && PhaseFits(cell, w)
  }

  /** A worker that has let its lock go leaves the request alone. */
  predicate LeftoverOk(id: nat, cell: Cell, w: Worker)
  {
    match w.phase
    case NotingOpenRow => cell.request.Settled()
    case Abandoning(step, noting) =>
      && cell.row.dispatchedAt.Some?
      && cell.books.closer == Some(id)
      && cell.books.announced == (if step.Announcing? && noting then 1 else 0)
    case _ => false
  }

  /** Closing a row is never silent, unless an abandonment was interrupted. */
  predicate ClosureOk(cell: Cell)
  {
    var b := cell.books;
    && b.announced <= 1
    && (cell.row.dispatchedAt.None? ==> b.closer.None? && b.announced == 0)
    && (cell.row.dispatchedAt.Some? && b.closer.None? ==> cell.request.Settled() || b.announced == 1 || b.cut)
    && (b.closer.Some? || b.announced == 1 ==> cell.row.attempts >= MAX_DISPATCH_ATTEMPTS)
    && (b.closer.Some? || b.announced == 1 ==> cell.row.dispatchedAt.Some?)
  }

  /** The schedule of a row whose every claim ended in a write that returned. */
  predicate ScheduleOk(cell: Cell, held: bool)
  {
    var b := cell.books;
    var n := |b.delays|;
    !b.spoiled ==>
      && b.delays == Backoff(n)
      && n < MAX_DISPATCH_ATTEMPTS
      && cell.row.attempts == (if held || cell.row.dispatchedAt.Some? then n + 1 else n)
      && cell.row.nextAttemptAt >= cell.row.createdAt + Sum(b.delays) * SECOND
      && (cell.row.dispatchedAt.Some? ==> cell.row.dispatchedAt.value >= cell.row.nextAttemptAt)
  }

  predicate CellOk(c: Config, now: Instant, cell: Cell, holder: Option<Worker>)
  {
    && Conserves(cell, holder, Ack)
    && Conserves(cell, holder, Clarification)
    && Conserves(cell, holder, Report)
    && (cell.reported <==> cell.request.status == Completed)
    && cell.request.ackTs != Some("")
    && ClosureOk(cell)
    && ScheduleOk(cell, holder.Some?)
    && (holder.Some? ==> HolderOk(c, now, cell, holder.value))
  }

  // ----- what is not a step of a worker -------------------------------------

  /** Time passes, within the lease assumption if a delivery is live. */
  lemma TickKeepsCell(c: Config, now: Instant, cell: Cell, holder: Option<Worker>, n: nat)
    requires CellOk(c, now, cell, holder)
    requires holder.Some? ==> Age(holder.value, n).spent.Within(c)
    ensures CellOk(c, now + n, cell, if holder.Some? then Some(Age(holder.value, n)) else None)
  {
  }

  /** A due row has no live delivery: the lock of one would not have lapsed. */
  lemma DueMeansFree(c: Config, now: Instant, cell: Cell, holder: Option<Worker>)
    requires CellOk(c, now, cell, holder) && cell.row.Due(now)
    ensures holder.None?
  {
    if holder.Some? { LockOutlastsDelivery(c, holder.value.spent); }
  }

  /** The lock a claim sets is the claimer's own, counted from the claim. */
  lemma ClaimerHolds(c: Config, now: Instant, cell: Cell, w: Worker)
    requires cell.row.Due(now)
    requires w.attempts == cell.row.attempts + 1 && w.claimedAt == now && w.ackTs == cell.request.ackTs
    requires w.phase == Start && w.spent.Within(c) && w.spent.Total() == 0
    ensures HolderOk(c, now, cell.(row := ClaimedRow(cell.row, now, LockSeconds(c))), w)
  {
    hide LockSeconds, Spent.Within, SecondsAfter, Spent.Total;
  }

  lemma ClaimKeepsCell(c: Config, now: Instant, cell: Cell, w: Worker)
    requires CellOk(c, now, cell, None) && cell.row.Due(now)
    requires w.attempts == cell.row.attempts + 1 && w.claimedAt == now && w.ackTs == cell.request.ackTs
    requires w.phase == Start && w.spent.Within(c) && w.spent.Total() == 0
    ensures CellOk(c, now, cell.(row := ClaimedRow(cell.row, now, LockSeconds(c))), Some(w))
  {
    ClaimerHolds(c, now, cell, w);
    hide LockSeconds, HolderOk, Backoff, Sum, SecondsAfter, Spent.Within, Spent.Total;
  }

  lemma NewCellOk(c: Config, now: Instant, cell: Cell)
    requires cell.row == QueueRow(cell.row.requestId, now, 0, now, None, None)
    requires cell.request.status == Received && cell.request.ackTs.None? && !cell.reported && cell.books == NO_BOOKS
    ensures CellOk(c, now, cell, None)
  {
  }

  /** The asker's reply to a clarification lands on the request that asked. */
  lemma AnsweredKeepsCell(c: Config, now: Instant, cell: Cell, holder: Option<Worker>)
    requires CellOk(c, now, cell, holder)
    ensures cell.request.status == NeedsClarification ==>
              CellOk(c, now, cell.(request := cell.request.(status := Clarified)), holder)
  {
  }

  lemma AnsweredKeepsLeftover(id: nat, cell: Cell, w: Worker)
    requires w.phase.Leased() || LeftoverOk(id, cell, w)
    ensures w.phase.Leased() || LeftoverOk(id, cell.(request := cell.request.(status := Clarified)), w)
  {
  }

  lemma ClaimKeepsLeftover(id: nat, now: Instant, cell: Cell, row: QueueRow, w: Worker)
    requires LeftoverOk(id, cell, w) && cell.row.Due(now)
    ensures LeftoverOk(id, cell.(row := row), w)
  {
  }

  // ----- every step keeps it ------------------------------------------------

  ghost predicate Keeps(c: Config, id: nat, now: Instant, cell: Cell, next: (Cell, Option<Worker>))
  {
    var (cell', w') := next;
    && CellOk(c, now, cell', if w'.Some? && w'.value.phase.Leased() then w' else None)
    && (w'.Some? && !w'.value.phase.Leased() ==> LeftoverOk(id, cell', w'.value))
    && (cell.request.Settled() ==> cell'.request.Settled())
  }

  lemma GuardStep(c: Config, id: nat, now: Instant, cell: Cell, w: Worker, act: Act)
    requires CellOk(c, now, cell, Some(w)) && Enabled(w, act)
    requires act.ReadStatus? || act.ReadReport? || act.BeginAck? || act.ListTemplates? || act.CallRca?
        || act.RecordRuns?
    ensures Keeps(c, id, now, cell, Step(id, now, cell, w, act))
  {
    hide LockSeconds;
  }

  lemma AckReplyStep(c: Config, id: nat, now: Instant, cell: Cell, w: Worker, post: PostOutcome)
    requires CellOk(c, now, cell, Some(w)) && w.phase.AckInFlight?
    ensures Keeps(c, id, now, cell, OnAckReply(cell, w, post))
  {
    hide LockSeconds;
    match post
    case Posted(ts) => if AnchorFor(w, ts) == "" {}
    case PostThrew(landed) => if landed {}
  }

  lemma AnchorStep(c: Config, id: nat, now: Instant, cell: Cell, w: Worker, write: WriteOutcome)
    requires CellOk(c, now, cell, Some(w)) && w.phase.Anchoring?
    ensures Keeps(c, id, now, cell, OnWriteAnchor(cell, w, w.phase.anchor, w.phase.posted, write))
  {
    hide LockSeconds;
    if write.Landed() {}
  }

  lemma ReplyPostStep(c: Config, id: nat, now: Instant, cell: Cell, w: Worker, post: PostOutcome)
    requires CellOk(c, now, cell, Some(w)) && w.phase.ReplyInFlight?
    ensures Keeps(c, id, now, cell, OnReplyPost(cell, w, w.phase.reply, post))
  {
    hide LockSeconds;
    if w.phase.reply.Answered? {
      if post.PostThrew? {}
    } else {
      if post.PostThrew? {}
    }
  }

  lemma MarkerStep(c: Config, id: nat, now: Instant, cell: Cell, w: Worker, write: WriteOutcome)
    requires CellOk(c, now, cell, Some(w)) && w.phase.Marking?
    ensures Keeps(c, id, now, cell, OnWriteMarker(cell, w, w.phase.reply, write))
  {
    hide LockSeconds;
    if write.Landed() {
      if w.phase.reply.Answered? {}
    }
  }

  lemma CloseStep(c: Config, id: nat, now: Instant, cell: Cell, w: Worker, write: WriteOutcome)
    requires CellOk(c, now, cell, Some(w)) && w.phase.Returned?
    ensures Keeps(c, id, now, cell, OnClose(now, cell, w, write))
  {
    hide LockSeconds;
  }

  lemma GiveUpStep(c: Config, id: nat, now: Instant, cell: Cell, w: Worker, write: WriteOutcome)
    requires CellOk(c, now, cell, Some(w)) && w.phase.Thrown? && w.attempts >= MAX_DISPATCH_ATTEMPTS
    ensures Keeps(c, id, now, cell, OnGiveUp(id, now, cell, w, write))
  {
    hide LockSeconds;
  }

  lemma RescheduleStep(c: Config, id: nat, now: Instant, cell: Cell, w: Worker, write: WriteOutcome)
    requires CellOk(c, now, cell, Some(w)) && w.phase.Thrown? && w.attempts < MAX_DISPATCH_ATTEMPTS
    ensures Keeps(c, id, now, cell, OnReschedule(now, cell, w, write))
  {
    var delays := cell.books.delays;
    var longer := delays + [RetryDelay(w.attempts)];
    assert longer[..|longer| - 1] == delays;
    assert Sum(longer) == Sum(delays) + RetryDelay(w.attempts);
    assert Backoff(|delays| + 1) == Backoff(|delays|) + [Pow2(|delays| + 1)];
  }

  lemma CrashStep(c: Config, id: nat, now: Instant, cell: Cell, w: Worker, landed: bool)
    requires CellOk(c, now, cell, Some(w))
    ensures Keeps(c, id, now, cell, (CrashedCell(cell, w, landed), None))
  {
    hide LockSeconds;
    match w.phase
    case AckInFlight => if landed {}
    case ReplyInFlight(_, reply) => if landed {}
    case Anchoring(_, posted) =>
    case Marking(reply) =>
    case _ =>
  }

  /** A step of the lease holder. */
  lemma HolderStepKeepsCell(c: Config, id: nat, now: Instant, cell: Cell, w: Worker, act: Act)
    requires CellOk(c, now, cell, Some(w)) && Enabled(w, act)
    ensures Keeps(c, id, now, cell, Step(id, now, cell, w, act))
  {
    match act
    case ReadStatus(_) => GuardStep(c, id, now, cell, w, act);
    case ReadReport(_) => GuardStep(c, id, now, cell, w, act);
    case BeginAck => GuardStep(c, id, now, cell, w, act);
    case ListTemplates(_) => GuardStep(c, id, now, cell, w, act);
    case CallRca(_) => GuardStep(c, id, now, cell, w, act);
    case RecordRuns(_) => GuardStep(c, id, now, cell, w, act);
    case AckReply(post) => AckReplyStep(c, id, now, cell, w, post);
    case WriteAnchor(write) => AnchorStep(c, id, now, cell, w, write);
    case ReplyPost(post) => ReplyPostStep(c, id, now, cell, w, post);
    case WriteMarker(write) => MarkerStep(c, id, now, cell, w, write);
    case Close(write) => CloseStep(c, id, now, cell, w, write);
    case GiveUp(write) => GiveUpStep(c, id, now, cell, w, write);
    case Reschedule(write) => RescheduleStep(c, id, now, cell, w, write);
    case Crash(landed) => CrashStep(c, id, now, cell, w, landed);
    case NoteFailure(_) =>
    case ClosingWrite(_, _) =>
  }

  ghost predicate LeftoverKeeps(c: Config, id: nat, now: Instant, cell: Cell, holder: Option<Worker>,
                                next: (Cell, Option<Worker>))
  {
    var (cell', w') := next;
    && CellOk(c, now, cell', holder)
    && (w'.Some? ==> !w'.value.phase.Leased() && LeftoverOk(id, cell', w'.value))
    && (cell.request.Settled() ==> cell'.request.Settled())
  }

  lemma NoteStep(c: Config, id: nat, now: Instant, cell: Cell, w: Worker, landed: bool)
    requires CellOk(c, now, cell, None) && w.phase.Abandoning? && w.phase.noting && LeftoverOk(id, cell, w)
    ensures LeftoverKeeps(c, id, now, cell, None, OnNote(cell, w, w.phase.step, landed))
  {
    hide LockSeconds;
  }

  lemma ClosingWriteStep(c: Config, id: nat, now: Instant, cell: Cell, w: Worker, landed: bool, threw: bool)
    requires CellOk(c, now, cell, None) && w.phase.Abandoning? && !w.phase.noting && LeftoverOk(id, cell, w)
    requires !w.phase.step.Announcing?
    ensures LeftoverKeeps(c, id, now, cell, None, OnClosingWrite(cell, w, w.phase.step, landed, threw))
  {
    hide LockSeconds;
  }

  lemma AnnounceStep(c: Config, id: nat, now: Instant, cell: Cell, w: Worker, threw: bool)
    requires CellOk(c, now, cell, None) && w.phase == Abandoning(Announcing, false) && LeftoverOk(id, cell, w)
    ensures LeftoverKeeps(c, id, now, cell, None, OnAnnounce(cell, w, threw))
  {
    hide LockSeconds;
  }

  /** A step of a worker that no longer holds the lease, whoever holds it now. */
  lemma LeftoverStepKeepsCell(c: Config, id: nat, now: Instant, cell: Cell, w: Worker, act: Act, holder: Option<Worker>)
    requires CellOk(c, now, cell, holder) && LeftoverOk(id, cell, w) && Enabled(w, act)
    ensures LeftoverKeeps(c, id, now, cell, holder, Step(id, now, cell, w, act))
  {
    if w.phase.NotingOpenRow? {
      assert Step(id, now, cell, w, act).0 == cell;
    } else {
      assert holder.None?;
      match act
      case NoteFailure(landed) => NoteStep(c, id, now, cell, w, landed);
      case ClosingWrite(landed, threw) =>
        if w.phase.step.Announcing? { AnnounceStep(c, id, now, cell, w, threw); }
        else { ClosingWriteStep(c, id, now, cell, w, landed, threw); }
      case _ =>
    }
  }

  // ----- what a step means for the others -----------------------------------

  /** Either kind of step, with what the world needs to know about it. */
  lemma StepFrame(c: Config, id: nat, now: Instant, cell: Cell, w: Worker, act: Act, holder: Option<Worker>)
    requires CellOk(c, now, cell, holder) && Enabled(w, act)
    requires if w.phase.Leased() then holder == Some(w) else LeftoverOk(id, cell, w)
    ensures var (cell', next) := Step(id, now, cell, w, act);
            && (next.Some? ==> next.value.job == w.job)
            && (next.Some? && next.value.phase.Leased() ==> w.phase.Leased())
            && CellOk(c, now, cell', if !w.phase.Leased() then holder
                                     else if next.Some? && next.value.phase.Leased() then next else None)
            && (next.Some? && !next.value.phase.Leased() ==> LeftoverOk(id, cell', next.value))
  {
    hide CellOk, LeftoverOk;
    if w.phase.Leased() { HolderStepKeepsCell(c, id, now, cell, w, act); }
    else { LeftoverStepKeepsCell(c, id, now, cell, w, act, holder); }
  }

  lemma OtherLeftoverStays(c: Config, id: nat, other: nat, now: Instant, cell: Cell, w: Worker, act: Act,
                           leftover: Worker, holder: Option<Worker>)
    requires CellOk(c, now, cell, holder) && Enabled(w, act) && id != other
    requires if w.phase.Leased() then holder == Some(w) else LeftoverOk(id, cell, w)
    requires LeftoverOk(other, cell, leftover)
    ensures LeftoverOk(other, Step(id, now, cell, w, act).0, leftover)
  {
    if w.phase.Leased() {
      HolderStepKeepsCell(c, id, now, cell, w, act);
      assert leftover.phase.NotingOpenRow?;
    } else {
      LeftoverStepKeepsCell(c, id, now, cell, w, act, holder);
      if leftover.phase.Abandoning? {
        assert w.phase.NotingOpenRow?;
      }
    }
  }

  /** Only the worker carrying an abandonment out, or the one that just began it, is on the books. */
  lemma CloserStays(c: Config, id: nat, now: Instant, cell: Cell, w: Worker, act: Act, holder: Option<Worker>)
    requires CellOk(c, now, cell, holder) && Enabled(w, act)
    requires if w.phase.Leased() then holder == Some(w) else LeftoverOk(id, cell, w)
    requires cell.books.closer == Some(id) ==> w.phase.Abandoning?
    ensures var (cell', next) := Step(id, now, cell, w, act);
            cell'.books.closer.Some? ==>
              if cell'.books.closer == Some(id) then next.Some? && next.value.phase.Abandoning?
              else cell'.books.closer == cell.books.closer
  {
    hide Conserves, ScheduleOk, RetryDelay, SecondsAfter, LockSeconds;
  }

  // ----- what no step takes back --------------------------------------------

  /** How one stored request may change from now on. */
  predicate Advances(before: Cell, after: Cell)
  {
    && after.row.requestId == before.row.requestId
    && (before.request.Settled() ==> after.request.Settled() && after.books.posts == before.books.posts)
    && (before.request.ackTs.Some? ==> after.request.ackTs == before.request.ackTs)
    && (before.row.dispatchedAt.Some? ==> after.row == before.row)
    && (before.reported ==> after.reported)
  }

  lemma StepAdvances(c: Config, id: nat, now: Instant, cell: Cell, w: Worker, act: Act, holder: Option<Worker>)
    requires CellOk(c, now, cell, holder) && Enabled(w, act)
    requires if w.phase.Leased() then holder == Some(w) else LeftoverOk(id, cell, w)
    ensures Advances(cell, Step(id, now, cell, w, act).0)
  {
    hide LockSeconds, ScheduleOk, ClosureOk;
  }
}
