/**
 The shared tables of the ingress service and the SQL statements that write them.

 Each function is one statement or one transaction of postgres-repository.ts, taken
 as an atomic step. Instants are whole microseconds, the resolution of timestamptz.
 */
module Tables {
  import opened Wrappers

  type RequestId = string
  type JobId = nat
  type Ts = string
  type Instant = int

  const SECOND: int := 1_000_000

  function SecondsAfter(at: Instant, seconds: nat): Instant { at + seconds * SECOND }

  datatype Status =
    | Received
    | AnalyzingQuestion
    | NeedsClarification
    | Unsupported
    | Clarified
    | Completed
    | Failed

  /** Statuses stored only after a clarification was posted. */
  const CLARIFICATION_ASKED: set<Status> := {NeedsClarification, Unsupported, Clarified}

  /** Statuses stored only after the asker got a reply of either kind. */
  const SETTLED_STATUSES: set<Status> := {Completed} + CLARIFICATION_ASKED

  datatype Request = Request(
    eventId: string,
    message: (string, string),
    parent: Option<RequestId>,
    status: Status,
    ackTs: Option<Ts>)
  {
    predicate Settled() { status in SETTLED_STATUSES }
  }

  datatype QueueRow = QueueRow(
    requestId: RequestId,
    createdAt: Instant,
    attempts: nat,
    nextAttemptAt: Instant,
    lockedUntil: Option<Instant>,
    dispatchedAt: Option<Instant>)
  {
    /** The WHERE clause of the claim: open, due, and not locked. */
    predicate Due(now: Instant)
    {
      && dispatchedAt.None?
      && nextAttemptAt <= now
      && (lockedUntil.None? || lockedUntil.value < now)
    }
  }

  datatype Database = Database(
    requests: map<RequestId, Request>,
    queue: map<JobId, QueueRow>,
    reports: set<RequestId>)

  datatype SlackEvent = SlackEvent(
    requestId: RequestId,
    eventId: string,
    message: (string, string),
    parent: Option<RequestId>)

  /** One queue row for every request, and a request behind every row and every report. */
  ghost predicate WellFormed(db: Database)
  {
    && (forall j | j in db.queue :: HasRequest(db, j))
    && (forall i, j, r | RowOf(db, i, r) && RowOf(db, j, r) :: i == j)
    && (forall r | r in db.requests :: exists j :: RowOf(db, j, r))
    && db.reports <= db.requests.Keys
  }

  predicate HasRequest(db: Database, j: JobId)
  {
    j in db.queue && db.queue[j].requestId in db.requests
  }

  predicate RowOf(db: Database, j: JobId, r: RequestId)
  {
    j in db.queue && db.queue[j].requestId == r
  }

  // ----- single-row effects -------------------------------------------------

  function ClaimedRow(row: QueueRow, now: Instant, lockSeconds: nat): QueueRow
  {
    row.(attempts := row.attempts + 1, lockedUntil := Some(SecondsAfter(now, lockSeconds)))
  }

  function CompletedRow(row: QueueRow, now: Instant): QueueRow
  {
    row.(dispatchedAt := Some(now), lockedUntil := None)
  }

  function RetriedRow(row: QueueRow, now: Instant, delaySeconds: nat): QueueRow
  {
    row.(nextAttemptAt := SecondsAfter(now, delaySeconds), lockedUntil := None)
  }

  /** updateRequestStatus: only 'failed' is gated; a later write cannot erase the anchor. */
  function WithStatus(request: Request, status: Status, ackTs: Option<Ts>): Request
  {
    if status == Failed && request.Settled() then request
    else request.(status := status, ackTs := if ackTs.Some? then ackTs else request.ackTs)
  }

  // ----- statements over the tables -----------------------------------------

  function SetRow(db: Database, job: JobId, row: QueueRow): Database
  {
    db.(queue := db.queue[job := row])
  }

  function UpdateRequestStatus(db: Database, id: RequestId, status: Status, ackTs: Option<Ts>): Database
  {
    if id in db.requests then
      db.(requests := db.requests[id := WithStatus(db.requests[id], status, ackTs)])
    else db
  }

  /** The report row and the status 'completed', in one transaction. */
  function SaveReport(db: Database, id: RequestId): Database
  {
    if id in db.requests then
      db.(reports := db.reports + {id},
          requests := db.requests[id := db.requests[id].(status := Completed)])
    else db
  }

  /** The guarded status write of recordSystemError. */
  function MarkFailed(db: Database, id: RequestId): Database
  {
    UpdateRequestStatus(db, id, Failed, None)
  }

  predicate Duplicate(db: Database, event: SlackEvent)
  {
    || event.requestId in db.requests
    || exists r | r in db.requests ::
         db.requests[r].eventId == event.eventId || db.requests[r].message == event.message
  }

  /** A new request, its queue row, and the parent's answer, in one transaction. */
  function SaveSlackRequest(db: Database, job: JobId, event: SlackEvent, now: Instant): Database
  {
    if Duplicate(db, event) then db
    else
      var added := db.requests[event.requestId :=
                     Request(event.eventId, event.message, event.parent, Received, None)];
      var answered :=
        if event.parent.Some? && event.parent.value in added && added[event.parent.value].status == NeedsClarification
        then added[event.parent.value := added[event.parent.value].(status := Clarified)]
        else added;
      Database(answered,
               db.queue[job := QueueRow(event.requestId, now, 0, now, None, None)],
               db.reports)
  }
}
