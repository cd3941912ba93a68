/**
 Exactly when a closed row is silent: its question neither settled nor announced dead,
 and nobody at work on it. The closing write of an abandonment may commit and then throw,
 or the process may stop between that write and the announcement; nothing else does it,
 and nothing undoes it.
 */
module SilentClosure {
  import opened Wrappers
  import opened Tables
  import opened Delivery
  import opened Protocol
  import opened DeliveryTheorems

  /** Closed, with an asker who was told nothing. */
  predicate Silent(cell: Cell)
  {
    cell.row.dispatchedAt.Some? && !cell.request.Settled() && cell.books.announced == 0
  }

  predicate Unattended(w: World, j: JobId)
  {
    forall id | id in w.workers && w.workers[id].job == j :: !w.workers[id].phase.Abandoning?
  }

  /** An abandonment of row j is cut off here: its closing write threw after it landed, or its worker stops. */
  predicate CutsOff(w: World, a: Action, j: JobId)
  {
    && a.Work? && a.id in w.workers && w.workers[a.id].job == j
    && (a.act == GiveUp(WroteThenThrew) || (a.act.Crash? && w.workers[a.id].phase.Abandoning?))
  }

  /** ... before anyone was told, while the question is open. */
  predicate Silences(w: World, a: Action, j: JobId)
  {
    CutsOff(w, a, j) && j in w.cells && !w.cells[j].request.Settled() && w.cells[j].books.announced == 0
  }

  // ----- only such an event cuts an abandonment off -------------------------

  lemma StepCuts(id: nat, now: Instant, cell: Cell, w: Worker, act: Act)
    requires Enabled(w, act)
    ensures var after := Step(id, now, cell, w, act).0;
            && after.books.announced >= cell.books.announced
            && (after.books.cut ==>
                  cell.books.cut || act == GiveUp(WroteThenThrew) || (act.Crash? && w.phase.Abandoning?))
  {
    hide RetryDelay, Pow2, SecondsAfter;
  }

  lemma NextCuts(c: Config, w: World, a: Action, j: JobId)
    requires Allowed(c, w, a) && j in w.cells
    ensures j in Next(c, w, a).cells
    ensures var after := Next(c, w, a).cells[j];
            && after.books.announced >= w.cells[j].books.announced
            && (after.books.cut ==> w.cells[j].books.cut || CutsOff(w, a, j))
  {
    hide Step;
    if a.Work? { StepCuts(a.id, w.now, w.cells[w.workers[a.id].job], w.workers[a.id], a.act); }
  }

  lemma {:induction false} AnnouncedOnlyGrows(c: Config, worlds: seq<World>, actions: seq<Action>, i: nat, k: nat,
                                              j: JobId)
    requires IsRun(c, worlds, actions) && i <= k < |worlds| && j in worlds[i].cells
    ensures j in worlds[k].cells && worlds[i].cells[j].books.announced <= worlds[k].cells[j].books.announced
  {
    hide Next, Allowed;
    if i < k {
      AnnouncedOnlyGrows(c, worlds, actions, i, k - 1, j);
      assert StepTaken(c, worlds[k - 1], actions[k - 1], worlds[k]);
      NextCuts(c, worlds[k - 1], actions[k - 1], j);
    }
  }

  lemma CutIsNotNew(c: Config, w: World, a: Action, j: JobId)
    requires Allowed(c, w, a) && j in Next(c, w, a).cells && Next(c, w, a).cells[j].books.cut
    ensures j in w.cells && (w.cells[j].books.cut || CutsOff(w, a, j))
  {
    hide Step;
    if a.Work? { StepCuts(a.id, w.now, w.cells[w.workers[a.id].job], w.workers[a.id], a.act); }
  }

  lemma {:induction false} CutHasACause(c: Config, worlds: seq<World>, actions: seq<Action>, i: nat, j: JobId)
    returns (e: nat)
    requires IsRun(c, worlds, actions) && i < |worlds| && j in worlds[i].cells && worlds[i].cells[j].books.cut
    ensures e < i && j in worlds[e].cells && CutsOff(worlds[e], actions[e], j)
  {
    hide Next, Allowed, CutsOff;
    assert i > 0;
    assert StepTaken(c, worlds[i - 1], actions[i - 1], worlds[i]);
    CutIsNotNew(c, worlds[i - 1], actions[i - 1], j);
    if CutsOff(worlds[i - 1], actions[i - 1], j) { e := i - 1; }
    else { e := CutHasACause(c, worlds, actions, i - 1, j); }
  }

  // ----- silent stays silent ------------------------------------------------

  ghost predicate Forgotten(w: World, j: JobId)
  {
    && j in w.cells && Silent(w.cells[j])
    && forall id | id in w.workers :: w.workers[id].job != j
  }

  /** No worker is left on a silent row whose abandonment nobody carries out. */
  lemma SilentIsForgotten(c: Config, w: World, j: JobId)
    requires Inv(c, w) && j in w.cells && Silent(w.cells[j]) && w.cells[j].books.closer.None?
    ensures Forgotten(w, j)
  {
    forall id | id in w.workers && w.workers[id].phase.Leased()
      ensures w.workers[id].job in w.cells && w.cells[w.workers[id].job].row.dispatchedAt.None?
    {
      HolderIs(w.workers, id);
      assert CellOk(c, w.now, w.cells[w.workers[id].job], HolderOf(w.workers, w.workers[id].job));
    }
  }

  lemma ForgottenStays(c: Config, w: World, a: Action, j: JobId)
    requires Allowed(c, w, a) && Forgotten(w, j)
    ensures Forgotten(Next(c, w, a), j) && Next(c, w, a).cells[j] == w.cells[j]
  {
    hide Step;
    if a.Work? { StepKeepsJob(a.id, w.now, w.cells[w.workers[a.id].job], w.workers[a.id], a.act); }
  }

  lemma StepKeepsJob(id: nat, now: Instant, cell: Cell, w: Worker, act: Act)
    requires Enabled(w, act)
    ensures var next := Step(id, now, cell, w, act).1; next.Some? ==> next.value.job == w.job
  {
  }

  lemma {:induction false} ForgottenForever(c: Config, worlds: seq<World>, actions: seq<Action>, i: nat, k: nat,
                                            j: JobId)
    requires IsRun(c, worlds, actions) && i <= k < |worlds| && Forgotten(worlds[i], j)
    ensures Forgotten(worlds[k], j) && worlds[k].cells[j] == worlds[i].cells[j]
  {
    hide Next, Allowed, Forgotten;
    if i < k {
      ForgottenForever(c, worlds, actions, i, k - 1, j);
      assert StepTaken(c, worlds[k - 1], actions[k - 1], worlds[k]);
      ForgottenStays(c, worlds[k - 1], actions[k - 1], j);
    }
  }

  /** After its abandonment is cut off, a row has nobody on record to finish it. */
  lemma CutLeavesNoCloser(c: Config, w: World, a: Action, j: JobId)
    requires Inv(c, w) && Allowed(c, w, a) && CutsOff(w, a, j) && j in w.cells
    ensures var after := Next(c, w, a).cells[j];
            && after.row.dispatchedAt.Some? && after.books.closer.None?
            && (Silent(after) <==> Silences(w, a, j))
  {
    hide ScheduleOk, Conserves, LockSeconds, RetryDelay, SecondsAfter;
    var worker := w.workers[a.id];
    if worker.phase.Leased() {
      HolderIs(w.workers, a.id);
      assert CellOk(c, w.now, w.cells[j], HolderOf(w.workers, j));
    }
  }

  /**
   A silent closure is final: from the event that cut the abandonment off, the row stays
   closed, unsettled and unannounced in every later world, with no worker on it.
   */
  lemma SilentForever(c: Config, worlds: seq<World>, actions: seq<Action>, e: nat, k: nat, j: JobId)
    requires IsRun(c, worlds, actions) && e < k < |worlds| && Silences(worlds[e], actions[e], j)
    ensures Forgotten(worlds[k], j) && j in worlds[e + 1].cells && worlds[k].cells[j] == worlds[e + 1].cells[j]
  {
    assert CutsOff(worlds[e], actions[e], j) && j in worlds[e].cells;
    hide Next, Allowed, Inv, CutsOff, Silent, Silences;
    assert StepTaken(c, worlds[e], actions[e], worlds[e + 1]);
    InvHolds(c, worlds, actions, e);
    InvHolds(c, worlds, actions, e + 1);
    NextCuts(c, worlds[e], actions[e], j);
    CutLeavesNoCloser(c, worlds[e], actions[e], j);
    SilentIsForgotten(c, worlds[e + 1], j);
    ForgottenForever(c, worlds, actions, e + 1, k, j);
  }

  lemma GiveUpSilences(c: Config, w: World, id: nat)
    requires Inv(c, w) && Allowed(c, w, Work(id, GiveUp(WroteThenThrew)))
    requires !w.cells[w.workers[id].job].request.Settled()
    ensures Silences(w, Work(id, GiveUp(WroteThenThrew)), w.workers[id].job)
  {
    hide LockSeconds, ScheduleOk, Conserves, LeftoverOk, ClosersWork;
    HolderIs(w.workers, id);
    assert CellOk(c, w.now, w.cells[w.workers[id].job], HolderOf(w.workers, w.workers[id].job));
  }

  /**
   In every run, an abandonment of an unsettled question whose closing write commits and
   then throws leaves it closed, unsettled and unannounced for good.
   */
  lemma AmbiguousCommitIsSilent(c: Config, worlds: seq<World>, actions: seq<Action>, e: nat, k: nat, id: nat)
    requires IsRun(c, worlds, actions) && e < k < |worlds| && actions[e] == Work(id, GiveUp(WroteThenThrew))
    requires id in worlds[e].workers && worlds[e].workers[id].job in worlds[e].cells
    requires !worlds[e].cells[worlds[e].workers[id].job].request.Settled()
    ensures Forgotten(worlds[k], worlds[e].workers[id].job)
  {
    hide Next, Allowed, Inv, Silences, Forgotten;
    assert StepTaken(c, worlds[e], actions[e], worlds[e + 1]);
    InvHolds(c, worlds, actions, e);
    GiveUpSilences(c, worlds[e], id);
    SilentForever(c, worlds, actions, e, k, worlds[e].workers[id].job);
  }

  // ----- exactly then -------------------------------------------------------

  /**
   A closed row with no abandonment in progress is settled or announced, unless and only
   unless an earlier event cut its abandonment off while the question was neither.
   */
  lemma NoSilentClosure(c: Config, worlds: seq<World>, actions: seq<Action>, i: nat, j: JobId)
    requires IsRun(c, worlds, actions) && i < |worlds| && j in worlds[i].cells
    requires worlds[i].cells[j].row.dispatchedAt.Some? && Unattended(worlds[i], j)
    ensures worlds[i].cells[j].request.Settled() || worlds[i].cells[j].books.announced == 1
            <==> forall e | 0 <= e < i :: !Silences(worlds[e], actions[e], j)
  {
    InvHolds(c, worlds, actions, i);
    assert CellOk(c, worlds[i].now, worlds[i].cells[j], HolderOf(worlds[i].workers, j));
    CloserIsThere(worlds[i], j);
    hide CellOk, Inv, CutsOff, Silences;
    if Silent(worlds[i].cells[j]) {
      var e := CutHasACause(c, worlds, actions, i, j);
      SilentBefore(c, worlds, actions, e, i, j);
    } else {
      forall e | 0 <= e < i ensures !Silences(worlds[e], actions[e], j) {
        if Silences(worlds[e], actions[e], j) { SilentForever(c, worlds, actions, e, i, j); }
      }
    }
  }

  lemma SilentBefore(c: Config, worlds: seq<World>, actions: seq<Action>, e: nat, i: nat, j: JobId)
    requires IsRun(c, worlds, actions) && e < i < |worlds| && j in worlds[e].cells && CutsOff(worlds[e], actions[e], j)
    requires j in worlds[i].cells && Silent(worlds[i].cells[j])
    ensures Silences(worlds[e], actions[e], j)
  {
    hide Next, Allowed, Inv, CutsOff, Silences;
    assert StepTaken(c, worlds[e], actions[e], worlds[e + 1]);
    InvHolds(c, worlds, actions, e);
    NextCuts(c, worlds[e], actions[e], j);
    CutLeavesNoCloser(c, worlds[e], actions[e], j);
    RunAdvances(c, worlds, actions, e + 1, i, j);
    AnnouncedOnlyGrows(c, worlds, actions, e + 1, i, j);
  }

  /** So in a run whose abandonments are never cut off, no closure is silent. */
  lemma UncutRunsAreNeverSilent(c: Config, worlds: seq<World>, actions: seq<Action>, i: nat, j: JobId)
    requires IsRun(c, worlds, actions) && i < |worlds| && j in worlds[i].cells
    requires worlds[i].cells[j].row.dispatchedAt.Some? && Unattended(worlds[i], j)
    requires forall e | 0 <= e < i :: !CutsOff(worlds[e], actions[e], j)
    ensures worlds[i].cells[j].request.Settled() || worlds[i].cells[j].books.announced == 1
  {
    NoSilentClosure(c, worlds, actions, i, j);
  }

  // ----- and it happens -----------------------------------------------------

  predicate IsCrash(a: Action) { a.Work? && a.act.Crash? }

  /** Some run from empty tables in which nothing crashes ends in this world. */
  ghost predicate Reachable(c: Config, w: World)
  {
    exists worlds, actions :: EndsIn(c, worlds, actions, w)
  }

  ghost predicate EndsIn(c: Config, worlds: seq<World>, actions: seq<Action>, w: World)
  {
    IsRun(c, worlds, actions) && worlds[|actions|] == w && forall i | 0 <= i < |actions| :: !IsCrash(actions[i])
  }

  lemma OneMoreAction(c: Config, worlds: seq<World>, actions: seq<Action>, w: World, a: Action)
    returns (worlds': seq<World>, actions': seq<Action>)
    requires EndsIn(c, worlds, actions, w) && Allowed(c, w, a) && !IsCrash(a)
    ensures EndsIn(c, worlds', actions', Next(c, w, a)) && actions' == actions + [a]
    ensures worlds' == worlds + [Next(c, w, a)]
  {
    hide Next, Allowed;
    worlds', actions' := worlds + [Next(c, w, a)], actions + [a];
    forall i | 0 <= i < |actions'| ensures StepTaken(c, worlds'[i], actions'[i], worlds'[i + 1]) {
      if i < |actions| { assert StepTaken(c, worlds[i], actions[i], worlds[i + 1]); }
    }
  }

  lemma Then(c: Config, w: World, a: Action)
    requires Reachable(c, w) && Allowed(c, w, a) && !IsCrash(a)
    ensures Reachable(c, Next(c, w, a))
  {
    hide EndsIn, Next, Allowed;
    var worlds: seq<World>, actions: seq<Action> :| EndsIn(c, worlds, actions, w);
    var worlds', actions' := OneMoreAction(c, worlds, actions, w, a);
  }

  const QUESTION := SlackEvent("request", "event", ("channel", "ts"), None)

  /** One question, waiting after n failed deliveries, with no worker on it. */
  predicate Waiting(w: World, n: nat)
  {
    && w.workers == map[] && 0 in w.cells
    && w.cells[0].row.dispatchedAt.None? && w.cells[0].row.lockedUntil.None? && w.cells[0].row.attempts == n
    && w.cells[0].request.status == Received && w.cells[0].books.announced == 0
  }

  /** The same question in the hands of a worker whose delivery has thrown. */
  predicate Throwing(w: World, n: nat)
  {
    && w.workers.Keys == {0} && w.workers[0].job == 0 && w.workers[0].phase == Thrown && w.workers[0].attempts == n
    && 0 in w.cells && w.cells[0].row.dispatchedAt.None? && w.cells[0].row.attempts == n
    && w.cells[0].request.status == Received && w.cells[0].books.announced == 0
  }

  /** Time passes until the row is due; it is claimed, and the first guard read fails. */
  lemma DeliveryThrows(c: Config, w: World, n: nat) returns (w': World)
    requires Reachable(c, w) && Waiting(w, n)
    ensures Reachable(c, w') && Throwing(w', n + 1)
  {
    hide Reachable, LockSeconds;
    var wait := if w.cells[0].row.nextAttemptAt > w.now then w.cells[0].row.nextAttemptAt - w.now else 0;
    Then(c, w, Tick(wait));
    var due := Next(c, w, Tick(wait));
    assert due.workers == map[];
    Then(c, due, Claim(0, 0));
    var claimed := Next(c, due, Claim(0, 0));
    Then(c, claimed, Work(0, ReadStatus(false)));
    w' := Next(c, claimed, Work(0, ReadStatus(false)));
  }

  lemma DeliveryIsRetried(c: Config, w: World, n: nat) returns (w': World)
    requires Reachable(c, w) && Throwing(w, n) && n < MAX_DISPATCH_ATTEMPTS
    ensures Reachable(c, w') && Waiting(w', n)
  {
    hide Reachable, RetryDelay;
    Then(c, w, Work(0, Reschedule(Wrote)));
    w' := Next(c, w, Work(0, Reschedule(Wrote)));
    assert w'.workers == map[];
  }

  lemma {:induction false} FailsTimeAndAgain(c: Config, n: nat) returns (w: World)
    requires n < MAX_DISPATCH_ATTEMPTS
    ensures Reachable(c, w) && Waiting(w, n)
  {
    if n == 0 {
      var start := Initial(0);
      assert EndsIn(c, [start], [], start);
      Then(c, start, Arrive(0, QUESTION));
      w := Next(c, start, Arrive(0, QUESTION));
    } else {
      hide Waiting, Throwing, Reachable;
      var before := FailsTimeAndAgain(c, n - 1);
      var thrown := DeliveryThrows(c, before, n - 1);
      w := DeliveryIsRetried(c, thrown, n);
    }
  }

  /**
   Whatever the timeouts are, there is a run without a single crash in which a question
   is closed in silence: eight failed deliveries, and a ninth whose closing write commits
   and then throws.
   */
  lemma SilentClosureHappens(c: Config) returns (worlds: seq<World>, actions: seq<Action>, j: JobId)
    ensures IsRun(c, worlds, actions) && forall i | 0 <= i < |actions| :: !IsCrash(actions[i])
    ensures |actions| > 0 && actions[|actions| - 1] == Work(0, GiveUp(WroteThenThrew))
    ensures Silences(worlds[|actions| - 1], actions[|actions| - 1], j)
    ensures j in worlds[|actions|].cells && Silent(worlds[|actions|].cells[j]) && Unattended(worlds[|actions|], j)
  {
    var waiting := FailsTimeAndAgain(c, 8);
    var thrown := DeliveryThrows(c, waiting, 8);
    j := 0;
    var before: seq<World>, taken: seq<Action> :| EndsIn(c, before, taken, thrown);
    var a := Work(0, GiveUp(WroteThenThrew));
    worlds, actions := OneMoreAction(c, before, taken, thrown, a);
    GivingUpSilently(c, thrown);
  }

  lemma GivingUpSilently(c: Config, w: World)
    requires Throwing(w, 9)
    ensures var a := Work(0, GiveUp(WroteThenThrew));
            && Allowed(c, w, a) && Silences(w, a, 0)
            && 0 in Next(c, w, a).cells && Silent(Next(c, w, a).cells[0]) && Unattended(Next(c, w, a), 0)
  {
  }
}
