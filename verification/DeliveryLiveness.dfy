/**
 No open row is lost: whatever crash or failed write left it, it can be claimed again
 once its lock has lapsed and its delay is over, and both are never far off.
 */
module DeliveryLiveness {
  import opened Wrappers
  import opened Tables
  import opened Delivery
  import opened Protocol
  import opened DeliveryTheorems
  import opened DeliveryEffects

  /**
   The lock is the shortest number of whole seconds that covers the RCA call, both Slack
   calls and 15 seconds of database work.
   */
  lemma LockIsTight(c: Config)
    ensures 1000 * LockSeconds(c) >= c.rcaTimeoutMs + 2 * c.slackTimeoutMs + 15_000
    ensures forall seconds: nat | 1000 * seconds >= c.rcaTimeoutMs + 2 * c.slackTimeoutMs + 15_000 ::
              LockSeconds(c) <= seconds
  {
  }

  /** An open row whose time has come and whose lock, if any, has lapsed. */
  predicate Claimable(row: QueueRow, now: Instant)
  {
    && row.dispatchedAt.None? && row.nextAttemptAt <= now
    && (row.lockedUntil.Some? ==> row.lockedUntil.value < now)
  }

  /** In every reachable world a row may be claimed if and only if it is open, its time has come and its lock lapsed. */
  lemma LapsedRowsMayBeClaimed(c: Config, worlds: seq<World>, actions: seq<Action>, i: nat, id: nat, j: JobId)
    requires IsRun(c, worlds, actions) && i < |worlds| && j in worlds[i].cells && id !in worlds[i].workers
    ensures Allowed(c, worlds[i], Claim(id, j)) <==> Claimable(worlds[i].cells[j].row, worlds[i].now)
    ensures Claimable(worlds[i].cells[j].row, worlds[i].now) ==>
              forall w | w in worlds[i].workers && worlds[i].workers[w].job == j :: !worlds[i].workers[w].phase.Leased()
  {
    if Claimable(worlds[i].cells[j].row, worlds[i].now) {
      forall w | w in worlds[i].workers && worlds[i].workers[w].phase.Leased()
        ensures worlds[i].workers[w].job != j
      {
        LockIsMine(c, worlds, actions, i, w);
      }
    }
  }

  // ----- how long a row can be out of reach ---------------------------------

  predicate SoonDue(c: Config, now: Instant, row: QueueRow)
  {
    row.dispatchedAt.None? ==>
      && row.nextAttemptAt <= now + 256 * SECOND
      && (row.lockedUntil.Some? ==> row.lockedUntil.value <= now + LockSeconds(c) * SECOND)
  }

  lemma {:induction false} PowersRise(n: nat, m: nat)
    requires n <= m
    ensures 1 <= Pow2(n) <= Pow2(m)
  {
    if n < m { PowersRise(n, m - 1); } else if n > 0 { PowersRise(n - 1, n - 1); }
  }

  lemma RowStaysSoonDue(c: Config, w: World, a: Action, j: JobId)
    requires Allowed(c, w, a) && j in w.cells && SoonDue(c, w.now, w.cells[j].row)
    ensures j in Next(c, w, a).cells && SoonDue(c, Next(c, w, a).now, Next(c, w, a).cells[j].row)
  {
    NextMovesRow(c, w, a, j);
    if a.Work? && a.act.Reschedule? {
      PowersRise(w.workers[a.id].attempts, 8);
      assert Pow2(8) == 2 * Pow2(7) == 4 * Pow2(6) == 8 * Pow2(5) == 16 * Pow2(4) == 256;
    }
    hide Step, LockSeconds, Pow2;
  }

  lemma {:induction false} RowsAreSoonDue(c: Config, worlds: seq<World>, actions: seq<Action>, i: nat, j: JobId)
    requires IsRun(c, worlds, actions) && i < |worlds| && j in worlds[i].cells
    ensures SoonDue(c, worlds[i].now, worlds[i].cells[j].row)
  {
    hide Next, Allowed, LockSeconds;
    if i > 0 {
      var w := worlds[i - 1];
      assert StepTaken(c, w, actions[i - 1], worlds[i]);
      if j in w.cells {
        RowsAreSoonDue(c, worlds, actions, i - 1, j);
        RowStaysSoonDue(c, w, actions[i - 1], j);
      } else {
        NewRowsAreDue(c, w, actions[i - 1], j);
      }
    }
  }

  lemma NewRowsAreDue(c: Config, w: World, a: Action, j: JobId)
    requires Allowed(c, w, a) && j !in w.cells && j in Next(c, w, a).cells
    ensures Next(c, w, a).now == w.now && Claimable(Next(c, w, a).cells[j].row, w.now)
    ensures Next(c, w, a).cells[j].row.lockedUntil.None?
  {
    hide Step;
  }

  /**
   A row that is open, and that nobody has touched for as long as a lock or the longest
   delay lasts, may be claimed by anyone: no question waits for ever behind a crash.
   */
  lemma OpenRowsComeBack(c: Config, worlds: seq<World>, actions: seq<Action>, i: nat, k: nat, id: nat, j: JobId)
    requires IsRun(c, worlds, actions) && i <= k < |worlds| && j in worlds[i].cells && id !in worlds[k].workers
    requires worlds[i].cells[j].row.dispatchedAt.None?
    requires j in worlds[k].cells && worlds[k].cells[j].row == worlds[i].cells[j].row
    requires worlds[k].now > worlds[i].now + LockSeconds(c) * SECOND && worlds[k].now >= worlds[i].now + 256 * SECOND
    ensures Allowed(c, worlds[k], Claim(id, j))
  {
    hide LockSeconds;
    RowsAreSoonDue(c, worlds, actions, i, j);
    LapsedRowsMayBeClaimed(c, worlds, actions, k, id, j);
  }

  /** A delivery that stops, or whose last write never reaches the row. */
  predicate LeavesOpen(act: Act)
  {
    act.Crash? || ((act.Close? || act.GiveUp? || act.Reschedule?) && act.write == NotWritten)
  }

  /**
   Its row stays as the claim left it, and goes to the next worker as soon as that claim's
   lock has lapsed.
   */
  lemma LostDeliveriesAreReclaimed(c: Config, worlds: seq<World>, actions: seq<Action>, i: nat, k: nat, id: nat,
                                   next: nat)
    requires IsRun(c, worlds, actions) && i < k < |worlds| && actions[i].Work? && actions[i].id == id
    requires id in worlds[i].workers && worlds[i].workers[id].phase.Leased() && LeavesOpen(actions[i].act)
    requires next !in worlds[k].workers
    ensures var w := worlds[i].workers[id];
            && w.job in worlds[i + 1].cells && w.job in worlds[k].cells
            && worlds[i + 1].cells[w.job].row == worlds[i].cells[w.job].row
            && (worlds[k].cells[w.job].row == worlds[i].cells[w.job].row
                && worlds[k].now > w.claimedAt + LockSeconds(c) * 1_000_000 ==>
                  Allowed(c, worlds[k], Claim(next, w.job)))
  {
    var w := worlds[i].workers[id];
    LockIsMine(c, worlds, actions, i, id);
    RowMovesExactly(c, worlds, actions, i, w.job);
    RunAdvances(c, worlds, actions, i, k, w.job);
    DueWhenClaimed(c, worlds, actions, i, id);
    LapsedRowsMayBeClaimed(c, worlds, actions, k, next, w.job);
    hide IsRun, Allowed, LockSeconds;
  }

  lemma DueWhenClaimed(c: Config, worlds: seq<World>, actions: seq<Action>, i: nat, id: nat)
    requires IsRun(c, worlds, actions) && i < |worlds|
    requires id in worlds[i].workers && worlds[i].workers[id].phase.Leased()
    ensures var w := worlds[i].workers[id];
            w.job in worlds[i].cells && worlds[i].cells[w.job].row.nextAttemptAt <= w.claimedAt
  {
    hide LockSeconds, Conserves, ScheduleOk, ClosureOk, PhaseFits, Spent.Within;
    InvHolds(c, worlds, actions, i);
    HolderIs(worlds[i].workers, id);
    var j := worlds[i].workers[id].job;
    assert CellOk(c, worlds[i].now, worlds[i].cells[j], HolderOf(worlds[i].workers, j));
  }
}
