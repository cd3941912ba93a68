/**
 The claim loop: one pass of one dispatcher with the clock standing still, and what a
 row whose every delivery fails goes through over nine of them.
 */
module Dispatching {
  import opened Wrappers
  import opened Tables
  import opened Delivery
  import opened Repository

  /** How the k-th turn of a pass goes; the delivery may leave its request in any state. */
  datatype Faults = Faults(
    claimThrows: bool,
    deliveryThrows: bool,
    request: Request,
    close: WriteOutcome,
    markFailed: WriteOutcome,
    record: WriteOutcome,
    announceThrows: bool,
    note: WriteOutcome)

  /** Who is told that a question was given up on. */
  class Announcer {
    var calls: seq<JobId>

    constructor ()
      ensures calls == []
    {
      calls := [];
    }

    method Announce(job: JobId, fails: bool) returns (threw: bool)
      modifies this
      ensures calls == old(calls) + [job] && threw == fails
    {
      calls := calls + [job];
      threw := fails;
    }
  }

  /** A guarded write that lands, or throws and is noted, leaves the request marked failed. */
  predicate MarksFailed(write: WriteOutcome, note: WriteOutcome)
  {
    write.Landed() || (!write.Wrote? && note.Landed())
  }

  predicate SaysFailed(f: Faults)
  {
    MarksFailed(f.markFailed, f.note) || MarksFailed(f.record, f.note) || (f.announceThrows && f.note.Landed())
  }

  lemma MarkedFailedTwice(db: Database, id: RequestId)
    ensures MarkFailed(MarkFailed(db, id), id) == MarkFailed(db, id)
  {
    if id in db.requests {
      var once := WithStatus(db.requests[id], Failed, None);
      assert WithStatus(once, Failed, None) == once;
      assert db.requests[id := once][id := once] == db.requests[id := once];
    }
  }

  // ----- what one turn does to its row --------------------------------------

  function AfterTurn(row: QueueRow, now: Instant, lockSeconds: nat, f: Faults): QueueRow
  {
    var claimed := ClaimedRow(row, now, lockSeconds);
    if !f.close.Landed() then claimed
    else if f.deliveryThrows && claimed.attempts < MAX_DISPATCH_ATTEMPTS then
      RetriedRow(claimed, now, RetryDelay(claimed.attempts))
    else CompletedRow(claimed, now)
  }

  /** Whether the turn ends the pass with an exception. */
  predicate ThrowsOut(f: Faults) { f.deliveryThrows && !f.close.Wrote? }

  /** Whether the turn tells the asker that the question is dead. */
  predicate GivesUp(row: QueueRow, f: Faults)
  {
    f.deliveryThrows && row.attempts + 1 >= MAX_DISPATCH_ATTEMPTS && f.close.Wrote?
  }

  /** No turn leaves its row due at the same instant: the pass cannot claim it twice. */
  lemma TurnLeavesRowNotDue(row: QueueRow, now: Instant, lockSeconds: nat, f: Faults)
    ensures !AfterTurn(row, now, lockSeconds, f).Due(now)
  {
    PowerIsPositive(row.attempts + 1);
  }

  lemma {:induction false} PowerIsPositive(n: nat)
    ensures Pow2(n) >= 1
  {
    if n > 0 { PowerIsPositive(n - 1); }
  }

  /** The rows given up on in the first k turns, in order. */
  function GivenUp(queue: map<JobId, QueueRow>, served: seq<JobId>, faults: nat -> Faults): seq<JobId>
  {
    if served == [] then []
    else
      var k := |served| - 1;
      GivenUp(queue, served[..k], faults)
      + (if served[k] in queue && GivesUp(queue[served[k]], faults(k)) then [served[k]] else [])
  }

  // ----- one pass -----------------------------------------------------------

  /** Served so far: distinct due rows, oldest first, each changed by its own turn and no other. */
  ghost predicate ServedSoFar(before: map<JobId, QueueRow>, after: map<JobId, QueueRow>, served: seq<JobId>,
                              now: Instant, lockSeconds: nat, faults: nat -> Faults)
  {
    OldestFirst(before, served, now) && ChangedInTurn(before, after, served, now, lockSeconds, faults)
  }

  ghost predicate OldestFirst(before: map<JobId, QueueRow>, served: seq<JobId>, now: Instant)
  {
    && (forall k | 0 <= k < |served| :: Due(before, now, served[k]))
    && (forall k, m | 0 <= k < m < |served| ::
          served[k] != served[m] && before[served[k]].createdAt <= before[served[m]].createdAt)
    && (forall k, j | 0 <= k < |served| && Due(before, now, j) && j !in served ::
          before[served[k]].createdAt <= before[j].createdAt)
  }

  ghost predicate ChangedInTurn(before: map<JobId, QueueRow>, after: map<JobId, QueueRow>, served: seq<JobId>,
                                now: Instant, lockSeconds: nat, faults: nat -> Faults)
    requires forall k | 0 <= k < |served| :: served[k] in before
  {
    && after.Keys == before.Keys
    && (forall k | 0 <= k < |served| :: after[served[k]] == AfterTurn(before[served[k]], now, lockSeconds, faults(k)))
    && (forall j | j in before && j !in served :: after[j] == before[j])
  }

  lemma ServedRowsAreNotDue(before: map<JobId, QueueRow>, after: map<JobId, QueueRow>, served: seq<JobId>,
                            now: Instant, lockSeconds: nat, faults: nat -> Faults, j: JobId)
    requires ServedSoFar(before, after, served, now, lockSeconds, faults)
    ensures Due(after, now, j) <==> Due(before, now, j) && j !in served
  {
    if j in served {
      var k :| 0 <= k < |served| && served[k] == j;
      TurnLeavesRowNotDue(before[j], now, lockSeconds, faults(k));
    }
  }

  lemma ServeOneMore(before: map<JobId, QueueRow>, middle: map<JobId, QueueRow>, served: seq<JobId>,
                     now: Instant, lockSeconds: nat, faults: nat -> Faults, j: JobId)
    requires ServedSoFar(before, middle, served, now, lockSeconds, faults)
    requires OldestDue(middle, now, j)
    ensures j in before && j !in served && middle[j] == before[j]
    ensures ServedSoFar(before, middle[j := AfterTurn(middle[j], now, lockSeconds, faults(|served|))],
                        served + [j], now, lockSeconds, faults)
  {
    ServedRowsAreNotDue(before, middle, served, now, lockSeconds, faults, j);
    forall i | Due(before, now, i) && i !in served
      ensures before[j].createdAt <= before[i].createdAt
    {
      ServedRowsAreNotDue(before, middle, served, now, lockSeconds, faults, i);
    }
    NextIsOldest(before, served, now, j);
    OneMoreTurn(before, middle, served, now, lockSeconds, faults, j);
    hide OldestFirst, ChangedInTurn, AfterTurn;
  }

  lemma NextIsOldest(before: map<JobId, QueueRow>, served: seq<JobId>, now: Instant, j: JobId)
    requires OldestFirst(before, served, now) && Due(before, now, j) && j !in served
    requires forall i | Due(before, now, i) && i !in served :: before[j].createdAt <= before[i].createdAt
    ensures OldestFirst(before, served + [j], now)
  {
  }

  lemma OneMoreTurn(before: map<JobId, QueueRow>, middle: map<JobId, QueueRow>, served: seq<JobId>,
                    now: Instant, lockSeconds: nat, faults: nat -> Faults, j: JobId)
    requires (forall i | i in served :: i in before) && j in before && j !in served
    requires ChangedInTurn(before, middle, served, now, lockSeconds, faults)
    ensures ChangedInTurn(before, middle[j := AfterTurn(before[j], now, lockSeconds, faults(|served|))],
                          served + [j], now, lockSeconds, faults)
  {
    hide AfterTurn;
  }

  class Dispatcher {
    var running: bool
    const lockSeconds: nat

    constructor (timeoutMs: nat)
      ensures !running && lockSeconds == LockSecondsFor(timeoutMs)
    {
      running := false;
      lockSeconds := LockSecondsFor(timeoutMs);
    }

    /**
     Stop trying. The closing write comes first and may throw; once it has returned, the
     announcement is made whichever of the writes between fail.
     */
    method Abandon(job: Job, repo: RequestRepository, announcer: Announcer, now: Instant, f: Faults)
      returns (threw: bool)
      requires job.id in repo.queue
      modifies repo`queue, repo`requests, announcer
      ensures repo.queue
              == if f.close.Landed() then old(repo.queue)[job.id := CompletedRow(old(repo.queue)[job.id], now)]
                 else old(repo.queue)
      ensures threw <==> !f.close.Wrote?
      ensures announcer.calls == old(announcer.calls) + (if threw then [] else [job.id])
      ensures repo.requests == if !threw && SaysFailed(f) then MarkFailed(old(repo.Db()), job.requestId).requests
                               else old(repo.requests)
      ensures !threw && (f.markFailed.Landed() || f.record.Landed()) && job.requestId in old(repo.requests) ==>
                var request := old(repo.requests)[job.requestId];
                repo.requests[job.requestId]
                == if request.status in {Completed, NeedsClarification, Unsupported, Clarified} then request
                   else request.(status := Failed)
    {
      threw := repo.CompleteDispatch(job.id, now, f.close);
      if threw { return; }
      ghost var before := repo.Db();
      var failed := repo.UpdateRequestStatus(job.requestId, Failed, None, f.markFailed);
      if failed { Note(job.requestId, repo, f.note); }
      MarkedFailedTwice(before, job.requestId);
      assert repo.Db() == if MarksFailed(f.markFailed, f.note) then MarkFailed(before, job.requestId) else before;
      failed := repo.RecordSystemError(job.requestId, f.record);
      if failed { Note(job.requestId, repo, f.note); }
      assert repo.Db() == if MarksFailed(f.markFailed, f.note) || MarksFailed(f.record, f.note)
                          then MarkFailed(before, job.requestId) else before;
      failed := announcer.Announce(job.id, f.announceThrows);
      if failed { Note(job.requestId, repo, f.note); }
    }

    /** The note runQuietly leaves about a step that threw; a note that cannot be written is dropped. */
    method Note(id: RequestId, repo: RequestRepository, fault: WriteOutcome)
      modifies repo`requests
      ensures repo.Db() == if fault.Landed() then MarkFailed(old(repo.Db()), id) else old(repo.Db())
    {
      var _ := repo.RecordSystemError(id, fault);
    }

    /** What follows one claim. */
    method Turn(job: Job, repo: RequestRepository, announcer: Announcer, now: Instant, f: Faults)
      returns (threw: bool)
      requires job.id in repo.queue && job.attempts == repo.queue[job.id].attempts && job.attempts > 0
      requires job.requestId in repo.requests
      modifies repo`queue, repo`requests, announcer
      ensures var claimed := old(repo.queue)[job.id];
              repo.queue == if !f.close.Landed() then old(repo.queue)
                            else if f.deliveryThrows && job.attempts < MAX_DISPATCH_ATTEMPTS then
                              old(repo.queue)[job.id := RetriedRow(claimed, now, RetryDelay(job.attempts))]
                            else old(repo.queue)[job.id := CompletedRow(claimed, now)]
      ensures threw <==> ThrowsOut(f)
      ensures announcer.calls == old(announcer.calls)
                + (if f.deliveryThrows && job.attempts >= MAX_DISPATCH_ATTEMPTS && f.close.Wrote? then [job.id] else [])
      ensures repo.requests.Keys == old(repo.requests).Keys
      ensures forall r | r in old(repo.requests) && r != job.requestId :: repo.requests[r] == old(repo.requests)[r]
      ensures var request := repo.requests[job.requestId];
              request == f.request || request == WithStatus(f.request, Failed, None)
      ensures !f.deliveryThrows && f.close.Wrote? ==> repo.requests[job.requestId] == f.request
    {
      repo.requests := repo.requests[job.requestId := f.request];
      if f.deliveryThrows {
        if job.attempts >= MAX_DISPATCH_ATTEMPTS {
          threw := Abandon(job, repo, announcer, now, f);
          return;
        }
        threw := repo.RetryDispatch(job.id, RetryDelay(job.attempts), now, f.close);
        return;
      }
      // When the closing write throws, it is noted and the row stays open under its lock.
      var failed := repo.CompleteDispatch(job.id, now, f.close);
      if failed { Note(job.requestId, repo, f.note); }
      threw := false;
    }

    /** One turn of the loop: the oldest due row is claimed and served, unless nothing is due. */
    method ClaimAndServe(repo: RequestRepository, announcer: Announcer, now: Instant, faults: nat -> Faults,
                         ghost before: map<JobId, QueueRow>, served: seq<JobId>)
      returns (job: Option<JobId>, threw: bool)
      requires WellFormed(repo.Db()) && ServedSoFar(before, repo.queue, served, now, lockSeconds, faults)
      modifies repo`queue, repo`requests, announcer
      ensures WellFormed(repo.Db())
      ensures job.None? ==> repo.queue == old(repo.queue) && announcer.calls == old(announcer.calls)
                            && threw == faults(|served|).claimThrows
                            && (threw || forall j :: !Due(repo.queue, now, j))
      ensures job.Some? ==> job.value in before && job.value !in served
                            && ServedSoFar(before, repo.queue, served + [job.value], now, lockSeconds, faults)
                            && threw == ThrowsOut(faults(|served|))
                            && announcer.calls == old(announcer.calls)
                                 + (if GivesUp(before[job.value], faults(|served|)) then [job.value] else [])
    {
      hide WellFormed, ServedSoFar;
      if faults(|served|).claimThrows { return None, true; }
      ghost var middle := repo.Db();
      var claimed := repo.ClaimDispatch(lockSeconds, now);
      if claimed.None? { return None, false; }
      var j := claimed.value;
      ServeOneMore(before, middle.queue, served, now, lockSeconds, faults, j.id);
      RowHasRequest(middle, j.id);
      threw := Turn(j, repo, announcer, now, faults(|served|));
      OnlyOneRowChanged(middle, repo.Db(), j.id, now, lockSeconds, faults(|served|));
      job := Some(j.id);
    }

    /**
     One pass: claim, deliver, close, until nothing is due or something escapes. Every
     row due at the start is served once, oldest first, unless the pass threw; the flag is
     released either way.
     */
    method RunOnce(repo: RequestRepository, announcer: Announcer, now: Instant, faults: nat -> Faults)
      returns (served: seq<JobId>, threw: bool)
      requires WellFormed(repo.Db())
      modifies this`running, repo`queue, repo`requests, announcer
      ensures old(running) ==> running && served == [] && !threw && repo.queue == old(repo.queue)
                               && announcer.calls == old(announcer.calls)
      ensures !old(running) ==> !running
      ensures ServedSoFar(old(repo.queue), repo.queue, served, now, lockSeconds, faults)
      ensures !old(running) && !threw ==>
                forall j | Due(old(repo.queue), now, j) :: j in served && !Due(repo.queue, now, j)
      ensures threw ==> faults(|served|).claimThrows || (served != [] && ThrowsOut(faults(|served| - 1)))
      ensures announcer.calls == old(announcer.calls) + GivenUp(old(repo.queue), served, faults)
    {
      hide WellFormed, ServedSoFar, GivenUp, Due, ThrowsOut, GivesUp;
      served, threw := [], false;
      ghost var before := repo.queue;
      ServedNone(before, now, lockSeconds, faults);
      if running { return; }
      running := true;
      ghost var left := before.Keys;
      while true
        invariant running && !threw
        invariant WellFormed(repo.Db())
        invariant ServedSoFar(before, repo.queue, served, now, lockSeconds, faults)
        invariant announcer.calls == old(announcer.calls) + GivenUp(before, served, faults)
        invariant forall j | j in before && j !in served :: j in left
        decreases left
      {
        var job;
        job, threw := ClaimAndServe(repo, announcer, now, faults, before, served);
        if job.None? {
          if !threw { NothingLeft(before, repo.queue, served, now, lockSeconds, faults); }
          break;
        }
        AnnouncedOneMore(before, served, faults, job.value);
        served := served + [job.value];
        left := left - {job.value};
        if threw { break; }
      }
      running := false;
    }
  }

  lemma ServedNone(queue: map<JobId, QueueRow>, now: Instant, lockSeconds: nat, faults: nat -> Faults)
    ensures ServedSoFar(queue, queue, [], now, lockSeconds, faults) && GivenUp(queue, [], faults) == []
  {
  }

  lemma RowHasRequest(db: Database, j: JobId)
    requires WellFormed(db) && j in db.queue
    ensures HasRequest(db, j)
  {
  }

  lemma OnlyOneRowChanged(db: Database, db': Database, j: JobId, now: Instant, lockSeconds: nat, f: Faults)
    requires WellFormed(db) && j in db.queue
    requires db'.requests.Keys == db.requests.Keys && db'.reports == db.reports
    requires db'.queue == db.queue[j := AfterTurn(db.queue[j], now, lockSeconds, f)]
    ensures WellFormed(db') && db'.queue.Keys == db.queue.Keys
  {
    KeysStay(db, db');
  }

  lemma NothingLeft(before: map<JobId, QueueRow>, after: map<JobId, QueueRow>, served: seq<JobId>,
                    now: Instant, lockSeconds: nat, faults: nat -> Faults)
    requires ServedSoFar(before, after, served, now, lockSeconds, faults)
    requires forall j :: !Due(after, now, j)
    ensures forall j | Due(before, now, j) :: j in served && !Due(after, now, j)
  {
    forall j | Due(before, now, j) ensures j in served {
      ServedRowsAreNotDue(before, after, served, now, lockSeconds, faults, j);
    }
  }

  lemma AnnouncedOneMore(queue: map<JobId, QueueRow>, served: seq<JobId>, faults: nat -> Faults, j: JobId)
    requires j in queue
    ensures GivenUp(queue, served + [j], faults)
            == GivenUp(queue, served, faults) + (if GivesUp(queue[j], faults(|served|)) then [j] else [])
  {
    assert (served + [j])[..|served|] == served;
  }

  // ----- nine failing deliveries --------------------------------------------

  /** A delivery that throws, with every closing write returning. */
  predicate FailsCleanly(f: Faults) { f.deliveryThrows && f.close.Wrote? }

  /** The row after passes at these instants, each with a failing delivery. */
  function AfterPasses(row: QueueRow, times: seq<Instant>, lockSeconds: nat, f: Faults): QueueRow
  {
    if times == [] then row
    else AfterTurn(AfterPasses(row, times[..|times| - 1], lockSeconds, f), times[|times| - 1], lockSeconds, f)
  }

  /** Each pass finds the row due, as a claim requires. */
  predicate EachFindsItDue(row: QueueRow, times: seq<Instant>, lockSeconds: nat, f: Faults)
  {
    forall k | 0 <= k < |times| :: AfterPasses(row, times[..k], lockSeconds, f).Due(times[k])
  }

  lemma {:induction false} FailingPasses(row: QueueRow, times: seq<Instant>, lockSeconds: nat, f: Faults)
    requires FailsCleanly(f) && row.attempts == 0 && row.dispatchedAt.None?
    requires |times| <= MAX_DISPATCH_ATTEMPTS && EachFindsItDue(row, times, lockSeconds, f)
    ensures var after := AfterPasses(row, times, lockSeconds, f);
            && after.attempts == |times|
            && (after.dispatchedAt.Some? <==> |times| == MAX_DISPATCH_ATTEMPTS)
            && (0 < |times| < MAX_DISPATCH_ATTEMPTS ==>
                  after.nextAttemptAt == times[|times| - 1] + Pow2(|times|) * SECOND)
            && (times != [] ==> times[|times| - 1] >= times[0] + (Pow2(|times|) - 2) * SECOND)
  {
    if times != [] {
      var k := |times| - 1;
      var earlier := times[..k];
      forall i | 0 <= i < k ensures AfterPasses(row, earlier[..i], lockSeconds, f).Due(earlier[i]) {
        assert earlier[..i] == times[..i];
      }
      FailingPasses(row, earlier, lockSeconds, f);
      assert AfterPasses(row, times[..k], lockSeconds, f).Due(times[k]);
    }
  }

  /**
   A question whose every delivery fails is delivered nine times and then given up on,
   no sooner than 510 seconds after the first; no tenth claim can find the row due.
   */
  lemma NineFailuresEndIt(row: QueueRow, times: seq<Instant>, lockSeconds: nat, f: Faults)
    requires FailsCleanly(f) && row.attempts == 0 && row.dispatchedAt.None?
    requires |times| == MAX_DISPATCH_ATTEMPTS && EachFindsItDue(row, times, lockSeconds, f)
    ensures forall k | 0 <= k < |times| ::
              GivesUp(AfterPasses(row, times[..k], lockSeconds, f), f) <==> k == MAX_DISPATCH_ATTEMPTS - 1
    ensures times[8] >= times[0] + 510 * SECOND
    ensures forall now: Instant :: !AfterPasses(row, times, lockSeconds, f).Due(now)
  {
    FailingPasses(row, times, lockSeconds, f);
    assert Pow2(5) == 32 && Pow2(9) == 512;
    forall k | 0 <= k < |times|
      ensures GivesUp(AfterPasses(row, times[..k], lockSeconds, f), f) <==> k == MAX_DISPATCH_ATTEMPTS - 1
    {
      var earlier := times[..k];
      forall i | 0 <= i < k ensures AfterPasses(row, earlier[..i], lockSeconds, f).Due(earlier[i]) {
        assert earlier[..i] == times[..i];
      }
      FailingPasses(row, earlier, lockSeconds, f);
    }
  }
}
