/**
 What holds in every run of the delivery protocol, whatever fails, crashes or overlaps.
 */
module DeliveryTheorems {
  import opened Wrappers
  import opened Tables
  import opened Delivery
  import opened Protocol

  ghost predicate IsRun(c: Config, worlds: seq<World>, actions: seq<Action>)
  {
    && |worlds| == |actions| + 1
    && worlds[0] == Initial(worlds[0].now)
    && forall i | 0 <= i < |actions| :: StepTaken(c, worlds[i], actions[i], worlds[i + 1])
  }

  ghost predicate StepTaken(c: Config, w: World, a: Action, w': World)
  {
    Allowed(c, w, a) && w' == Next(c, w, a)
  }

  lemma {:induction false} InvHolds(c: Config, worlds: seq<World>, actions: seq<Action>, i: nat)
    requires IsRun(c, worlds, actions) && i < |worlds|
    ensures Inv(c, worlds[i])
  {
    if i > 0 {
      InvHolds(c, worlds, actions, i - 1);
      assert StepTaken(c, worlds[i - 1], actions[i - 1], worlds[i]);
      StepKeepsInv(c, worlds[i - 1], actions[i - 1]);
    }
  }

  lemma WorldAdvances(c: Config, w: World, a: Action, j: JobId)
    requires Inv(c, w) && Allowed(c, w, a) && j in w.cells
    ensures j in Next(c, w, a).cells && Advances(w.cells[j], Next(c, w, a).cells[j])
  {
    hide CellOk, LeftoverOk, Step;
    match a
    case Work(id, act) =>
      var worker := w.workers[id];
      if worker.job == j {
        if worker.phase.Leased() { HolderIs(w.workers, id); }
        StepAdvances(c, id, w.now, w.cells[j], worker, act, HolderOf(w.workers, j));
      }
    case _ =>
  }

  lemma {:induction false} RunAdvances(c: Config, worlds: seq<World>, actions: seq<Action>, i: nat, k: nat, j: JobId)
    requires IsRun(c, worlds, actions) && i <= k < |worlds| && j in worlds[i].cells
    ensures j in worlds[k].cells && Advances(worlds[i].cells[j], worlds[k].cells[j])
  {
    hide Inv, Next, Allowed;
    if i < k {
      RunAdvances(c, worlds, actions, i, k - 1, j);
      InvHolds(c, worlds, actions, k - 1);
      assert StepTaken(c, worlds[k - 1], actions[k - 1], worlds[k]);
      WorldAdvances(c, worlds[k - 1], actions[k - 1], j);
    }
  }

  // ----- posts and markers --------------------------------------------------

  /** A live delivery has posted this kind of message and not yet stored its marker. */
  ghost predicate Pending(w: World, j: JobId, k: Kind)
  {
    HolderOf(w.workers, j).Some? && HolderOf(w.workers, j).value.phase.Between(k)
  }

  /** Posts landed = markers never written + the stored marker + the post being marked. */
  lemma PostsAndMarkersAgree(c: Config, worlds: seq<World>, actions: seq<Action>, i: nat, j: JobId, k: Kind)
    requires IsRun(c, worlds, actions) && i < |worlds| && j in worlds[i].cells
    ensures var cell := worlds[i].cells[j];
            cell.books.posts.Of(k) == cell.books.lost.Of(k)
                                      + (if cell.Marked(k) then 1 else 0)
                                      + (if Pending(worlds[i], j, k) then 1 else 0)
    ensures !(worlds[i].cells[j].Marked(k) && Pending(worlds[i], j, k))
  {
    InvHolds(c, worlds, actions, i);
    assert CellOk(c, worlds[i].now, worlds[i].cells[j], HolderOf(worlds[i].workers, j));
  }

  /** Unless a marker write was lost, nothing is posted twice. */
  lemma NothingPostedTwice(c: Config, worlds: seq<World>, actions: seq<Action>, i: nat, j: JobId, k: Kind)
    requires IsRun(c, worlds, actions) && i < |worlds| && j in worlds[i].cells
    ensures worlds[i].cells[j].books.posts.Of(k) <= worlds[i].cells[j].books.lost.Of(k) + 1
  {
    PostsAndMarkersAgree(c, worlds, actions, i, j, k);
  }

  /** Settled stays settled, and from then on nothing is posted and no delivery gets past the guards. */
  lemma SettledIsAbsorbingAndSilent(c: Config, worlds: seq<World>, actions: seq<Action>, i: nat, k: nat, j: JobId)
    requires IsRun(c, worlds, actions) && i <= k < |worlds| && j in worlds[i].cells
    requires worlds[i].cells[j].request.Settled()
    ensures j in worlds[k].cells && worlds[k].cells[j].request.Settled()
    ensures worlds[k].cells[j].books.posts == worlds[i].cells[j].books.posts
    ensures forall id | id in worlds[k].workers && worlds[k].workers[id].job == j ::
              !worlds[k].workers[id].phase.Speaking()
  {
    RunAdvances(c, worlds, actions, i, k, j);
    InvHolds(c, worlds, actions, k);
    forall id | id in worlds[k].workers && worlds[k].workers[id].job == j
      ensures !worlds[k].workers[id].phase.Speaking()
    {
      if worlds[k].workers[id].phase.Leased() {
        HolderIs(worlds[k].workers, id);
        assert CellOk(c, worlds[k].now, worlds[k].cells[j], HolderOf(worlds[k].workers, j));
      }
    }
  }

  /** A report row exists exactly when the status says completed. */
  lemma ReportRowMeansCompleted(c: Config, worlds: seq<World>, actions: seq<Action>, i: nat, j: JobId)
    requires IsRun(c, worlds, actions) && i < |worlds| && j in worlds[i].cells
    ensures worlds[i].cells[j].reported <==> worlds[i].cells[j].request.status == Completed
  {
    InvHolds(c, worlds, actions, i);
    assert CellOk(c, worlds[i].now, worlds[i].cells[j], HolderOf(worlds[i].workers, j));
  }

  /** The thread a request is anchored to never changes once it is stored. */
  lemma AnchorNeverChanges(c: Config, worlds: seq<World>, actions: seq<Action>, i: nat, k: nat, j: JobId)
    requires IsRun(c, worlds, actions) && i <= k < |worlds| && j in worlds[i].cells
    requires worlds[i].cells[j].request.ackTs.Some?
    ensures j in worlds[k].cells && worlds[k].cells[j].request.ackTs == worlds[i].cells[j].request.ackTs
    ensures worlds[k].cells[j].request.ackTs.value != ""
  {
    RunAdvances(c, worlds, actions, i, k, j);
    InvHolds(c, worlds, actions, k);
    assert CellOk(c, worlds[k].now, worlds[k].cells[j], HolderOf(worlds[k].workers, j));
  }

  // ----- the lease ----------------------------------------------------------

  /** Never two live deliveries of one row. */
  lemma OneLiveDelivery(c: Config, worlds: seq<World>, actions: seq<Action>, i: nat, a: nat, b: nat)
    requires IsRun(c, worlds, actions) && i < |worlds|
    requires a in worlds[i].workers && b in worlds[i].workers
    requires worlds[i].workers[a].phase.Leased() && worlds[i].workers[b].phase.Leased()
    requires worlds[i].workers[a].job == worlds[i].workers[b].job
    ensures a == b
  {
    InvHolds(c, worlds, actions, i);
    assert Holds(worlds[i].workers[a], worlds[i].workers[a].job);
    assert Holds(worlds[i].workers[b], worlds[i].workers[a].job);
  }

  /** A live delivery works under its own lock, which has not lapsed: what it clears is its own. */
  lemma LockIsMine(c: Config, worlds: seq<World>, actions: seq<Action>, i: nat, id: nat)
    requires IsRun(c, worlds, actions) && i < |worlds|
    requires id in worlds[i].workers && worlds[i].workers[id].phase.Leased()
    ensures var w := worlds[i].workers[id];
            && w.job in worlds[i].cells
            && var row := worlds[i].cells[w.job].row;
            && row.dispatchedAt.None? && row.attempts == w.attempts
            && row.lockedUntil == Some(w.claimedAt + LockSeconds(c) * SECOND)
            && worlds[i].now <= row.lockedUntil.value
            && !row.Due(worlds[i].now)
  {
    hide LockSeconds, Conserves, ScheduleOk, ClosureOk;
    InvHolds(c, worlds, actions, i);
    var w := worlds[i].workers[id];
    HolderIs(worlds[i].workers, id);
    assert CellOk(c, worlds[i].now, worlds[i].cells[w.job], HolderOf(worlds[i].workers, w.job));
    LockOutlastsDelivery(c, w.spent);
  }

  // ----- closing a row ------------------------------------------------------

  lemma CloserIsThere(w: World, j: JobId)
    requires ClosersWork(w.cells, w.workers) && j in w.cells
    ensures w.cells[j].books.closer.Some? ==> ClosesRow(w.workers, w.cells[j].books.closer.value, j)
  {
  }

  /** A closed row is never claimed or written again, and its end is announced at most once. */
  lemma ClosedIsFinal(c: Config, worlds: seq<World>, actions: seq<Action>, i: nat, k: nat, j: JobId)
    requires IsRun(c, worlds, actions) && i <= k < |worlds| && j in worlds[i].cells
    requires worlds[i].cells[j].row.dispatchedAt.Some?
    ensures j in worlds[k].cells && worlds[k].cells[j].row == worlds[i].cells[j].row
    ensures worlds[k].cells[j].books.announced <= 1
    ensures forall id | id in worlds[k].workers :: !Holds(worlds[k].workers[id], j)
  {
    RunAdvances(c, worlds, actions, i, k, j);
    InvHolds(c, worlds, actions, k);
    var w := worlds[k];
    assert CellOk(c, w.now, w.cells[j], HolderOf(w.workers, j));
    assert HolderOf(w.workers, j).None?;
  }

  // ----- the backoff schedule -----------------------------------------------

  lemma {:induction false} BackoffSum(n: nat)
    ensures |Backoff(n)| == n
    ensures Sum(Backoff(n)) == Pow2(n + 1) - 2
    ensures forall i | 0 <= i < n :: Backoff(n)[i] == Pow2(i + 1)
  {
    if n > 0 {
      BackoffSum(n - 1);
      assert Backoff(n)[..n - 1] == Backoff(n - 1);
    }
  }

  /**
   A question given up on, when every claim of its row ended in a write that returned,
   was delivered exactly nine times, with delays 2, 4, ..., 256 between them: 510 seconds.
   */
  lemma GivenUpAfterNineDeliveries(c: Config, worlds: seq<World>, actions: seq<Action>, i: nat, j: JobId)
    requires IsRun(c, worlds, actions) && i < |worlds| && j in worlds[i].cells
    requires worlds[i].cells[j].books.announced == 1 && !worlds[i].cells[j].books.spoiled
    ensures var cell := worlds[i].cells[j];
            && cell.row.attempts == MAX_DISPATCH_ATTEMPTS
            && cell.books.delays == [2, 4, 8, 16, 32, 64, 128, 256]
            && Sum(cell.books.delays) == 510
            && cell.row.dispatchedAt.Some?
            && cell.row.dispatchedAt.value >= cell.row.createdAt + 510 * SECOND
  {
    hide LockSeconds, Conserves, HolderOk;
    InvHolds(c, worlds, actions, i);
    assert CellOk(c, worlds[i].now, worlds[i].cells[j], HolderOf(worlds[i].workers, j));
    BackoffSum(8);
    assert Pow2(3) == 8 && Pow2(6) == 64 && Pow2(9) == 512;
  }

  /** While it is still open, a row's attempts and delays tell the same story. */
  lemma AttemptsCountDeliveries(c: Config, worlds: seq<World>, actions: seq<Action>, i: nat, j: JobId)
    requires IsRun(c, worlds, actions) && i < |worlds| && j in worlds[i].cells
    requires !worlds[i].cells[j].books.spoiled
    ensures var cell := worlds[i].cells[j];
            var n := |cell.books.delays|;
            && cell.books.delays == Backoff(n) && n <= 8
            && cell.row.attempts
               == (if HolderOf(worlds[i].workers, j).Some? || cell.row.dispatchedAt.Some? then n + 1 else n)
            && cell.row.nextAttemptAt >= cell.row.createdAt + (Pow2(n + 1) - 2) * SECOND
  {
    hide LockSeconds, Conserves, HolderOk, ClosureOk;
    InvHolds(c, worlds, actions, i);
    assert CellOk(c, worlds[i].now, worlds[i].cells[j], HolderOf(worlds[i].workers, j));
    BackoffSum(|worlds[i].cells[j].books.delays|);
  }
}
