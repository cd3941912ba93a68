/**
 The repository both the pipeline and the dispatcher write through, and what each of its
 statements means for the protocol: it changes the cell of one queue row, and no other.
 */
module Repository {
  import opened Wrappers
  import opened Tables
  import opened Delivery
  import opened Protocol

  // ----- tables as cells ----------------------------------------------------

  /** What the tables hold for row j is what the protocol's cell says. */
  ghost predicate Matches(db: Database, j: JobId, cell: Cell)
  {
    && j in db.queue && cell.row == db.queue[j]
    && cell.row.requestId in db.requests && cell.request == db.requests[cell.row.requestId]
    && (cell.reported <==> cell.row.requestId in db.reports)
  }

  ghost predicate Represents(db: Database, cells: Cells)
  {
    && WellFormed(db)
    && cells.Keys == db.queue.Keys
    && (forall j | j in cells :: Matches(db, j, cells[j]))
  }

  /** Writing columns that are not keys leaves every key as it was. */
  lemma KeysStay(db: Database, db': Database)
    requires WellFormed(db)
    requires db'.requests.Keys == db.requests.Keys && db'.queue.Keys == db.queue.Keys
    requires forall j | j in db.queue :: db'.queue[j].requestId == db.queue[j].requestId
    requires db'.reports <= db'.requests.Keys
    ensures WellFormed(db')
  {
    assert forall j, r :: RowOf(db', j, r) <==> RowOf(db, j, r);
    forall r | r in db'.requests ensures exists i :: RowOf(db', i, r) {
      var i :| RowOf(db, i, r);
      assert RowOf(db', i, r);
    }
    forall j | j in db'.queue ensures HasRequest(db', j) {
      assert HasRequest(db, j);
    }
  }

  lemma RowStatementMeans(db: Database, cells: Cells, j: JobId, row: QueueRow)
    requires Represents(db, cells) && j in cells && row.requestId == db.queue[j].requestId
    ensures Represents(SetRow(db, j, row), cells[j := cells[j].(row := row)])
  {
    var db' := SetRow(db, j, row);
    KeysStay(db, db');
    hide WellFormed;
    var cells' := cells[j := cells[j].(row := row)];
    forall i | i in cells' ensures Matches(db', i, cells'[i]) {
      assert Matches(db, i, cells[i]);
    }
  }

  lemma StatusStatementMeans(db: Database, cells: Cells, j: JobId, status: Status, ackTs: Option<Ts>)
    requires Represents(db, cells) && j in cells
    ensures Represents(UpdateRequestStatus(db, cells[j].row.requestId, status, ackTs),
                       cells[j := cells[j].(request := WithStatus(cells[j].request, status, ackTs))])
  {
    hide WellFormed;
    assert Matches(db, j, cells[j]);
    var r := cells[j].row.requestId;
    RequestStatementMeans(db, cells, j, WithStatus(cells[j].request, status, ackTs), cells[j].reported);
    assert (if cells[j].reported then db.reports + {r} else db.reports) == db.reports;
  }

  lemma ReportStatementMeans(db: Database, cells: Cells, j: JobId)
    requires Represents(db, cells) && j in cells
    ensures Represents(SaveReport(db, cells[j].row.requestId), cells[j := StoreReply(cells[j], Answered)])
  {
    hide WellFormed;
    assert Matches(db, j, cells[j]);
    RequestStatementMeans(db, cells, j, cells[j].request.(status := Completed), true);
  }

  /** One queue row per request is why writing a request changes one cell only. */
  lemma RequestStatementMeans(db: Database, cells: Cells, j: JobId, request: Request, reported: bool)
    requires Represents(db, cells) && j in cells && (cells[j].reported ==> reported)
    ensures var r := cells[j].row.requestId;
            Represents(Database(db.requests[r := request], db.queue, if reported then db.reports + {r} else db.reports),
                       cells[j := cells[j].(request := request, reported := reported)])
  {
    var r := cells[j].row.requestId;
    var db' := Database(db.requests[r := request], db.queue, if reported then db.reports + {r} else db.reports);
    var cells' := cells[j := cells[j].(request := request, reported := reported)];
    assert Matches(db, j, cells[j]);
    KeysStay(db, db');
    forall i | i in cells' ensures Matches(db', i, cells'[i]) {
      assert Matches(db, i, cells[i]);
      assert RowOf(db, i, cells[i].row.requestId) && RowOf(db, j, r);
    }
  }

  lemma DuplicateMeans(db: Database, cells: Cells, event: SlackEvent)
    requires Represents(db, cells)
    ensures Duplicate(db, event) <==> DuplicateEvent(cells, event)
  {
    if Duplicate(db, event) {
      var r :| r in db.requests
               && (r == event.requestId || db.requests[r].eventId == event.eventId
                   || db.requests[r].message == event.message);
      var j :| RowOf(db, j, r);
      assert Matches(db, j, cells[j]);
    }
    if DuplicateEvent(cells, event) {
      var j :| j in cells
               && (cells[j].row.requestId == event.requestId || cells[j].request.eventId == event.eventId
                   || cells[j].request.message == event.message);
      assert Matches(db, j, cells[j]);
    }
  }

  /** Saving a Slack event is the protocol's arrival. */
  lemma SaveSlackRequestMeans(db: Database, cells: Cells, job: JobId, event: SlackEvent, now: Instant)
    requires Represents(db, cells) && job !in db.queue
    ensures Represents(SaveSlackRequest(db, job, event, now), Arrived(cells, job, event, now))
  {
    DuplicateMeans(db, cells, event);
    if !Duplicate(db, event) {
      var db' := SaveSlackRequest(db, job, event, now);
      var cells' := Arrived(cells, job, event, now);
      ArrivalKeepsKeys(db, job, event, now);
      forall j | j in cells' && j != job ensures Matches(db', j, cells'[j]) {
        assert Matches(db, j, cells[j]);
        assert HasRequest(db, j);
        ArrivalAnswers(db, cells, job, event, now, j);
      }
      hide WellFormed, AnsweredCell, Duplicate, DuplicateEvent;
      assert Matches(db', job, cells'[job]);
    }
  }

  lemma ArrivalAnswers(db: Database, cells: Cells, job: JobId, event: SlackEvent, now: Instant, j: JobId)
    requires !Duplicate(db, event) && !DuplicateEvent(cells, event) && j in cells && j != job
    requires Matches(db, j, cells[j]) && HasRequest(db, j)
    ensures Matches(SaveSlackRequest(db, job, event, now), j, Arrived(cells, job, event, now)[j])
  {
  }

  lemma ArrivalKeepsKeys(db: Database, job: JobId, event: SlackEvent, now: Instant)
    requires WellFormed(db) && job !in db.queue
    ensures WellFormed(SaveSlackRequest(db, job, event, now))
  {
    var db' := SaveSlackRequest(db, job, event, now);
    if !Duplicate(db, event) {
      forall r | r in db'.requests ensures exists i :: RowOf(db', i, r) {
        if r == event.requestId {
          assert RowOf(db', job, r);
        } else {
          var i :| RowOf(db, i, r);
          assert RowOf(db', i, r);
        }
      }
      forall j | j in db'.queue ensures HasRequest(db', j) {
        if j != job { assert HasRequest(db, j); }
      }
      forall i | i in db.queue ensures db.queue[i].requestId != event.requestId {
        assert HasRequest(db, i);
      }
      forall i, j, r | RowOf(db', i, r) && RowOf(db', j, r) ensures i == j {
        if r != event.requestId { assert RowOf(db, i, r) && RowOf(db, j, r); }
      }
    }
  }

  // ----- the repository -----------------------------------------------------

  datatype Job = Job(id: JobId, requestId: RequestId, attempts: nat, ackTs: Option<Ts>, parentAckTs: Option<Ts>)

  predicate Due(queue: map<JobId, QueueRow>, now: Instant, j: JobId)
  {
    j in queue && queue[j].Due(now)
  }

  predicate OldestDue(queue: map<JobId, QueueRow>, now: Instant, j: JobId)
  {
    Due(queue, now, j) && forall i | i in queue && Due(queue, now, i) :: queue[j].createdAt <= queue[i].createdAt
  }

  lemma {:induction false} SomeRowIsOldest(queue: map<JobId, QueueRow>, now: Instant, among: set<JobId>)
    requires among != {} && forall j | j in among :: j in queue
    ensures exists j :: j in among && forall i | i in among :: queue[j].createdAt <= queue[i].createdAt
  {
    var k :| k in among;
    if among != {k} {
      SomeRowIsOldest(queue, now, among - {k});
      var j :| j in among - {k} && forall i | i in among - {k} :: queue[j].createdAt <= queue[i].createdAt;
      var oldest := if queue[j].createdAt <= queue[k].createdAt then j else k;
      assert forall i | i in among :: i == k || i in among - {k};
      assert forall i | i in among :: queue[oldest].createdAt <= queue[i].createdAt;
    }
  }

  /** The anchor a continuation joins: its parent's, as it is stored at the claim. */
  function ParentAnchor(requests: map<RequestId, Request>, id: RequestId): Option<Ts>
    requires id in requests
  {
    var parent := requests[id].parent;
    if parent.Some? && parent.value in requests then requests[parent.value].ackTs else None
  }

  /** What a claim hands over as the parent's anchor is the protocol's: of the parent's cell, if it has one. */
  lemma ParentAnchorMeans(db: Database, cells: Cells, j: JobId)
    requires Represents(db, cells) && j in cells
    ensures HasRequest(db, j)
    ensures ParentAnchor(db.requests, db.queue[j].requestId) == ParentAck(cells, cells[j].request)
  {
    assert Matches(db, j, cells[j]);
    assert HasRequest(db, j);
    var parent := cells[j].request.parent;
    if parent.Some? && parent.value in db.requests {
      var i :| RowOf(db, i, parent.value);
      assert Matches(db, i, cells[i]);
      forall k | k in cells && parent == Some(cells[k].row.requestId) ensures k == i {
        assert Matches(db, k, cells[k]);
        assert RowOf(db, k, parent.value);
      }
    } else {
      forall k | k in cells ensures parent != Some(cells[k].row.requestId) {
        assert Matches(db, k, cells[k]);
        assert HasRequest(db, k);
      }
    }
  }

  /** Every statement may fail before it lands, or land and then fail to say so. */
  class RequestRepository {
    var requests: map<RequestId, Request>
    var queue: map<JobId, QueueRow>
    var reports: set<RequestId>

    ghost function Db(): Database
      reads this
    {
      Database(requests, queue, reports)
    }

    constructor ()
      ensures Db() == Database(map[], map[], {}) && WellFormed(Db())
    {
      requests, queue, reports := map[], map[], {};
    }

    /** A request is new when neither its id, nor its event, nor its message is on record. */
    method SaveSlackRequest(job: JobId, event: SlackEvent, now: Instant) returns (created: bool)
      requires WellFormed(Db()) && job !in queue
      modifies this
      ensures Db() == Tables.SaveSlackRequest(old(Db()), job, event, now)
      ensures created <==>
                forall r | r in old(requests) ::
                  r != event.requestId && old(requests)[r].eventId != event.eventId
                  && old(requests)[r].message != event.message
      ensures !created ==> Db() == old(Db())
      ensures created ==>
                && queue == old(queue)[job := QueueRow(event.requestId, now, 0, now, None, None)]
                && reports == old(reports)
                && requests.Keys == old(requests).Keys + {event.requestId}
                && requests[event.requestId] == Request(event.eventId, event.message, event.parent, Received, None)
                && forall r | r in old(requests) ::
                     requests[r]
                     == if event.parent == Some(r) && old(requests)[r].status == NeedsClarification
                        then old(requests)[r].(status := Clarified) else old(requests)[r]
      ensures forall cells: Cells | Represents(old(Db()), cells) :: Represents(Db(), Arrived(cells, job, event, now))
    {
      ghost var before := Db();
      var db := Database(requests, queue, reports);
      created := !Duplicate(db, event);
      if created {
        requests := requests[event.requestId := Request(event.eventId, event.message, event.parent, Received, None)];
        queue := queue[job := QueueRow(event.requestId, now, 0, now, None, None)];
        if event.parent.Some? && event.parent.value in requests
           && requests[event.parent.value].status == NeedsClarification {
          requests := requests[event.parent.value := requests[event.parent.value].(status := Clarified)];
        }
      }
      forall cells: Cells | Represents(before, cells)
        ensures Represents(Db(), Arrived(cells, job, event, now))
      {
        SaveSlackRequestMeans(before, cells, job, event, now);
      }
    }

    /** The oldest row that is due, if any; the anchors come along as they are stored now. */
    method ClaimDispatch(lockSeconds: nat, now: Instant) returns (job: Option<Job>)
      requires WellFormed(Db())
      modifies this`queue
      ensures job.None? <==>
                forall j | j in old(queue) ::
                  var row := old(queue)[j];
                  || row.dispatchedAt.Some? || row.nextAttemptAt > now
                  || (row.lockedUntil.Some? && row.lockedUntil.value >= now)
      ensures job.None? ==> queue == old(queue)
      ensures job.Some? ==>
                && job.value.id in old(queue)
                && var row := old(queue)[job.value.id];
                && row.dispatchedAt.None? && row.nextAttemptAt <= now
                && (row.lockedUntil.None? || row.lockedUntil.value < now)
                && job.value.attempts == row.attempts + 1
                && queue == old(queue)[job.value.id :=
                              row.(attempts := row.attempts + 1,
                                   lockedUntil := Some(now + lockSeconds * 1_000_000))]
      ensures job.Some? ==>
                var j := job.value;
                && OldestDue(old(queue), now, j.id)
                && queue == old(queue)[j.id := ClaimedRow(old(queue)[j.id], now, lockSeconds)]
                && j.requestId == queue[j.id].requestId && j.attempts == queue[j.id].attempts
                && j.requestId in requests
                && j.ackTs == requests[j.requestId].ackTs
                && j.parentAckTs == ParentAnchor(requests, j.requestId)
                && var parent := requests[j.requestId].parent;
                j.parentAckTs == if parent.Some? && parent.value in requests then requests[parent.value].ackTs
                                 else None
    {
      var due := set j | j in queue && Due(queue, now, j);
      if due == {} {
        assert forall j | j in queue :: j !in due;
        return None;
      }
      SomeRowIsOldest(queue, now, due);
      var id :| id in due && forall i | i in due :: queue[id].createdAt <= queue[i].createdAt;
      assert OldestDue(queue, now, id) by {
        assert forall i | i in queue && Due(queue, now, i) :: i in due;
      }
      assert HasRequest(Db(), id);
      hide WellFormed, Due;
      queue := queue[id := ClaimedRow(queue[id], now, lockSeconds)];
      var requestId := queue[id].requestId;
      job := Some(Job(id, requestId, queue[id].attempts, requests[requestId].ackTs, ParentAnchor(requests, requestId)));
    }

    method CompleteDispatch(j: JobId, now: Instant, fault: WriteOutcome) returns (threw: bool)
      requires j in queue
      modifies this`queue
      ensures queue == if fault.Landed() then old(queue)[j := CompletedRow(old(queue)[j], now)] else old(queue)
      ensures fault.Landed() ==> queue[j] == old(queue)[j].(dispatchedAt := Some(now), lockedUntil := None)
      ensures threw <==> !fault.Wrote?
    {
      if fault.Landed() { queue := queue[j := CompletedRow(queue[j], now)]; }
      threw := !fault.Wrote?;
    }

    method RetryDispatch(j: JobId, delaySeconds: nat, now: Instant, fault: WriteOutcome) returns (threw: bool)
      requires j in queue
      modifies this`queue
      ensures queue
              == if fault.Landed() then old(queue)[j := RetriedRow(old(queue)[j], now, delaySeconds)] else old(queue)
      ensures fault.Landed() ==>
                queue[j] == old(queue)[j].(nextAttemptAt := now + delaySeconds * 1_000_000, lockedUntil := None)
      ensures threw <==> !fault.Wrote?
    {
      if fault.Landed() { queue := queue[j := RetriedRow(queue[j], now, delaySeconds)]; }
      threw := !fault.Wrote?;
    }

    method FindRequestStatus(id: RequestId, ok: bool) returns (r: Result<Option<Status>>)
      ensures ok ==> r == Success(if id in requests then Some(requests[id].status) else None)
      ensures !ok ==> r.Failure?
    {
      if !ok { return Failure("the status could not be read"); }
      r := Success(if id in requests then Some(requests[id].status) else None);
    }

    method FindReportByRequest(id: RequestId, ok: bool) returns (r: Result<bool>)
      ensures ok ==> r == Success(id in reports)
      ensures !ok ==> r.Failure?
    {
      if !ok { return Failure("the report could not be read"); }
      r := Success(id in reports);
    }

    /** A status, and the anchor when one is given; only 'failed' is refused, to a request already settled. */
    method UpdateRequestStatus(id: RequestId, status: Status, ackTs: Option<Ts>, fault: WriteOutcome)
      returns (threw: bool)
      modifies this`requests
      ensures Db() == if fault.Landed() then Tables.UpdateRequestStatus(old(Db()), id, status, ackTs) else old(Db())
      ensures fault.Landed() && WellFormed(old(Db())) ==>
                forall cells: Cells, j | Represents(old(Db()), cells) && j in cells && cells[j].row.requestId == id ::
                  Represents(Db(), cells[j := cells[j].(request := WithStatus(cells[j].request, status, ackTs))])
      ensures fault.Landed() && id in old(requests) ==>
                var request := old(requests)[id];
                requests == old(requests)[id :=
                  if status == Failed && request.status in {Completed, NeedsClarification, Unsupported, Clarified}
                  then request
                  else request.(status := status, ackTs := if ackTs.Some? then ackTs else request.ackTs)]
      ensures threw <==> !fault.Wrote?
    {
      ghost var before := Db();
      if fault.Landed() && id in requests {
        var request := requests[id];
        if !(status == Failed && request.status in SETTLED_STATUSES) {
          requests := requests[id := request.(status := status, ackTs := if ackTs.Some? then ackTs else request.ackTs)];
        }
      }
      threw := !fault.Wrote?;
      if fault.Landed() {
        assert Db() == Tables.UpdateRequestStatus(before, id, status, ackTs);
        forall cells: Cells, j | Represents(before, cells) && j in cells && cells[j].row.requestId == id
          ensures Represents(Db(), cells[j := cells[j].(request := WithStatus(cells[j].request, status, ackTs))])
        {
          StatusStatementMeans(before, cells, j, status, ackTs);
        }
      }
    }

    method SaveReport(id: RequestId, fault: WriteOutcome) returns (threw: bool)
      modifies this`requests, this`reports
      ensures Db() == if fault.Landed() then Tables.SaveReport(old(Db()), id) else old(Db())
      ensures fault.Landed() ==>
                forall cells: Cells, j | Represents(old(Db()), cells) && j in cells && cells[j].row.requestId == id ::
                  Represents(Db(), cells[j := StoreReply(cells[j], Answered)])
      ensures fault.Landed() && id in old(requests) ==>
                && reports == old(reports) + {id}
                && requests == old(requests)[id := old(requests)[id].(status := Completed)]
      ensures threw <==> !fault.Wrote?
    {
      ghost var before := Db();
      if fault.Landed() && id in requests {
        reports := reports + {id};
        requests := requests[id := requests[id].(status := Completed)];
      }
      threw := !fault.Wrote?;
      if fault.Landed() {
        forall cells: Cells, j | Represents(before, cells) && j in cells && cells[j].row.requestId == id
          ensures Represents(Db(), cells[j := StoreReply(cells[j], Answered)])
        {
          ReportStatementMeans(before, cells, j);
        }
      }
    }

    /** The note about a failure, whose status write is gated like any other 'failed'. */
    method RecordSystemError(id: RequestId, fault: WriteOutcome) returns (threw: bool)
      modifies this`requests
      ensures Db() == if fault.Landed() then MarkFailed(old(Db()), id) else old(Db())
      ensures fault.Landed() && id in old(requests) ==>
                requests[id]
                == if old(requests)[id].status in {Completed, NeedsClarification, Unsupported, Clarified}
                   then old(requests)[id] else old(requests)[id].(status := Failed)
      ensures threw <==> !fault.Wrote?
    {
      if fault.Landed() && id in requests && requests[id].status !in SETTLED_STATUSES {
        requests := requests[id := requests[id].(status := Failed)];
      }
      threw := !fault.Wrote?;
    }
  }
}
