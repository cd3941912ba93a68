/**
 Any number of workers delivering from the shared tables.

 A run starts from empty tables and takes one action at a time: a Slack event is
 saved, time passes, a worker claims a due row, or a worker takes its next step, which
 may fail or be a crash. Time passes only while every live delivery stays within its
 timeouts and the database margin: that is the whole lease assumption.

 The tables appear here as one Cell for each queue row; module Repository shows that
 each SQL statement changes exactly the cell it is meant to.
 */
module Protocol {
  import opened Wrappers
  import opened Tables
  import opened Delivery

  type Cells = map<JobId, Cell>
  type Workers = map<nat, Worker>

  datatype World = World(now: Instant, cells: Cells, workers: Workers)

  datatype Action =
    | Arrive(job: JobId, event: SlackEvent)
    | Tick(micros: nat)
    | Claim(id: nat, job: JobId)
    | Work(id: nat, act: Act)

  function Initial(now: Instant): World { World(now, map[], map[]) }

  // ----- who holds a row ----------------------------------------------------

  predicate Holds(worker: Worker, j: JobId) { worker.job == j && worker.phase.Leased() }

  /** The worker with a live delivery of row j, if there is one. */
  ghost function HolderOf(workers: Workers, j: JobId): Option<Worker>
  {
    if id: nat :| id in workers && Holds(workers[id], j) then Some(workers[id]) else None
  }

  ghost predicate Exclusive(workers: Workers)
  {
    forall j, a, b | a in workers && b in workers && Holds(workers[a], j) && Holds(workers[b], j) :: a == b
  }

  lemma HolderIs(workers: Workers, id: nat)
    requires Exclusive(workers) && id in workers && workers[id].phase.Leased()
    ensures HolderOf(workers, workers[id].job) == Some(workers[id])
  {
    assert Holds(workers[id], workers[id].job);
  }

  // ----- steps --------------------------------------------------------------

  predicate DuplicateEvent(cells: Cells, event: SlackEvent)
  {
    exists j | j in cells ::
      || cells[j].row.requestId == event.requestId
      || cells[j].request.eventId == event.eventId
      || cells[j].request.message == event.message
  }

  /** The parent has its answer, so it stops waiting on the asker. */
  function AnsweredCell(cell: Cell, parent: Option<RequestId>): Cell
  {
    if parent == Some(cell.row.requestId) && cell.request.status == NeedsClarification
    then cell.(request := cell.request.(status := Clarified))
    else cell
  }

  function NewCell(event: SlackEvent, now: Instant): Cell
  {
    Cell(QueueRow(event.requestId, now, 0, now, None, None),
         Request(event.eventId, event.message, event.parent, Received, None), false, NO_BOOKS)
  }

  function Arrived(cells: Cells, job: JobId, event: SlackEvent, now: Instant): Cells
  {
    if DuplicateEvent(cells, event) then cells
    else (map j | j in cells :: AnsweredCell(cells[j], event.parent))[job := NewCell(event, now)]
  }

  ghost function ParentAck(cells: Cells, request: Request): Option<Ts>
  {
    if j: nat :| j in cells && request.parent == Some(cells[j].row.requestId) then cells[j].request.ackTs else None
  }

  ghost function ClaimedWorker(w: World, job: JobId): Worker
    requires job in w.cells
  {
    var cell := w.cells[job];
    Worker(job, cell.row.attempts + 1, w.now, cell.request.ackTs, ParentAck(w.cells, cell.request),
           Start, Spent(0, 0, 0, 0))
  }

  function AgedWorkers(workers: Workers, micros: nat): Workers
  {
    map id | id in workers :: Age(workers[id], micros)
  }

  function SetWorker(workers: Workers, id: nat, next: Option<Worker>): Workers
  {
    if next.Some? then workers[id := next.value] else workers - {id}
  }

  ghost predicate Allowed(c: Config, w: World, a: Action)
  {
    match a
    case Arrive(job, event) => job !in w.cells
    case Tick(micros) =>
      forall id | id in w.workers && w.workers[id].phase.Leased() :: Age(w.workers[id], micros).spent.Within(c)
    case Claim(id, job) => id !in w.workers && job in w.cells && w.cells[job].row.Due(w.now)
    case Work(id, act) => id in w.workers && w.workers[id].job in w.cells && Enabled(w.workers[id], act)
  }

  ghost function Next(c: Config, w: World, a: Action): World
    requires Allowed(c, w, a)
  {
    match a
    case Arrive(job, event) => w.(cells := Arrived(w.cells, job, event, w.now))
    case Tick(micros) => w.(now := w.now + micros, workers := AgedWorkers(w.workers, micros))
    case Claim(id, job) =>
      var cell := w.cells[job];
      World(w.now,
            w.cells[job := cell.(row := ClaimedRow(cell.row, w.now, LockSeconds(c)))],
            w.workers[id := ClaimedWorker(w, job)])
    case Work(id, act) =>
      var job := w.workers[id].job;
      var (cell, next) := Step(id, w.now, w.cells[job], w.workers[id], act);
      World(w.now, w.cells[job := cell], SetWorker(w.workers, id, next))
  }

  // ----- the invariant ------------------------------------------------------

  ghost predicate CellsOk(c: Config, w: World)
  {
    forall j | j in w.cells :: CellOk(c, w.now, w.cells[j], HolderOf(w.workers, j))
  }

  ghost predicate LeftoversOk(cells: Cells, workers: Workers)
  {
    forall id | id in workers :: workers[id].job in cells
      && (workers[id].phase.Leased() || LeftoverOk(id, cells[workers[id].job], workers[id]))
  }

  /** An abandonment on the books is being carried out by the worker named there. */
  ghost predicate ClosersWork(cells: Cells, workers: Workers)
  {
    forall j | j in cells && cells[j].books.closer.Some? :: ClosesRow(workers, cells[j].books.closer.value, j)
  }

  predicate ClosesRow(workers: Workers, id: nat, j: JobId)
  {
    id in workers && workers[id].job == j && workers[id].phase.Abandoning?
  }

  ghost predicate Inv(c: Config, w: World)
  {
    Exclusive(w.workers) && CellsOk(c, w) && LeftoversOk(w.cells, w.workers) && ClosersWork(w.cells, w.workers)
  }

  lemma ArriveKeeps(c: Config, w: World, a: Action)
    requires Inv(c, w) && a.Arrive? && Allowed(c, w, a)
    ensures Inv(c, Next(c, w, a))
  {
    hide CellOk, LeftoversOk, ClosersWork;
    var w' := Next(c, w, a);
    if !DuplicateEvent(w.cells, a.event) {
      ArriveKeepsLeftovers(w, a);
      forall j | j in w'.cells
        ensures CellOk(c, w'.now, w'.cells[j], HolderOf(w'.workers, j))
      {
        if j == a.job {
          NoHolderYet(w.cells, w.workers, j);
          NewCellOk(c, w.now, w'.cells[j]);
        } else {
          AnsweredKeepsCell(c, w.now, w.cells[j], HolderOf(w.workers, j));
        }
      }
    }
  }

  lemma NoHolderYet(cells: Cells, workers: Workers, j: JobId)
    requires LeftoversOk(cells, workers) && j !in cells
    ensures HolderOf(workers, j).None?
  {
  }

  lemma ArriveKeepsLeftovers(w: World, a: Action)
    requires a.Arrive? && a.job !in w.cells
    requires LeftoversOk(w.cells, w.workers) && ClosersWork(w.cells, w.workers)
    ensures var cells := Arrived(w.cells, a.job, a.event, w.now);
            LeftoversOk(cells, w.workers) && ClosersWork(cells, w.workers)
  {
    hide LeftoverOk;
    var cells := Arrived(w.cells, a.job, a.event, w.now);
    forall id | id in w.workers
      ensures w.workers[id].job in cells
      ensures w.workers[id].phase.Leased() || LeftoverOk(id, cells[w.workers[id].job], w.workers[id])
    {
      AnsweredKeepsLeftover(id, w.cells[w.workers[id].job], w.workers[id]);
    }
  }

  lemma TickKeeps(c: Config, w: World, a: Action)
    requires Inv(c, w) && a.Tick? && Allowed(c, w, a)
    ensures Inv(c, Next(c, w, a))
  {
    hide CellOk, LeftoversOk, ClosersWork, Age;
    var w' := Next(c, w, a);
    AgeKeepsLeftovers(w.cells, w.workers, a.micros);
    forall j | j in w'.cells
      ensures CellOk(c, w'.now, w'.cells[j], HolderOf(w'.workers, j))
    {
      if HolderOf(w.workers, j).Some? { assert Holds(HolderOf(w.workers, j).value, j); }
      HolderAged(w.workers, a.micros, j);
      TickKeepsCell(c, w.now, w.cells[j], HolderOf(w.workers, j), a.micros);
    }
    HolderAged(w.workers, a.micros, 0);
  }

  lemma AgeKeepsLeftovers(cells: Cells, workers: Workers, micros: nat)
    requires LeftoversOk(cells, workers) && ClosersWork(cells, workers)
    ensures LeftoversOk(cells, AgedWorkers(workers, micros)) && ClosersWork(cells, AgedWorkers(workers, micros))
  {
    hide LeftoverOk;
    var aged := AgedWorkers(workers, micros);
    assert forall id | id in workers ::
        && aged[id].job == workers[id].job
        && aged[id].phase == workers[id].phase
        && (workers[id].phase.Leased() || aged[id] == workers[id]);
    assert forall id, j | ClosesRow(workers, id, j) :: ClosesRow(aged, id, j);
  }

  lemma HolderAged(workers: Workers, micros: nat, j: JobId)
    requires Exclusive(workers)
    ensures Exclusive(AgedWorkers(workers, micros))
    ensures var h := HolderOf(workers, j);
            HolderOf(AgedWorkers(workers, micros), j) == if h.Some? then Some(Age(h.value, micros)) else None
  {
    var aged := AgedWorkers(workers, micros);
    assert forall id, k | id in workers :: Holds(aged[id], k) == Holds(workers[id], k);
    if id: nat :| id in workers && Holds(workers[id], j) {
      HolderIs(workers, id);
      HolderIs(aged, id);
    }
  }

  /** Changing one worker leaves the holders of every other row as they were. */
  lemma HolderAfter(before: Workers, id: nat, next: Option<Worker>, j: JobId)
    requires Exclusive(before) && Exclusive(SetWorker(before, id, next))
    requires (id !in before || before[id].job != j) && (next.None? || next.value.job != j)
    ensures HolderOf(SetWorker(before, id, next), j) == HolderOf(before, j)
  {
    var after := SetWorker(before, id, next);
    if k: nat :| k in before && Holds(before[k], j) {
      HolderIs(before, k);
      assert k in after && after[k] == before[k];
      HolderIs(after, k);
    }
  }

  lemma NewHolder(workers: Workers, id: nat, worker: Worker)
    requires Exclusive(workers) && id !in workers && worker.phase.Leased()
    requires HolderOf(workers, worker.job).None?
    ensures Exclusive(workers[id := worker])
    ensures HolderOf(workers[id := worker], worker.job) == Some(worker)
  {
    var after := workers[id := worker];
    assert Exclusive(after);
    HolderIs(after, id);
  }

  /** A claim starts a delivery with the anchors of that moment and nothing spent. */
  lemma ClaimStarts(c: Config, w: World, job: JobId)
    requires job in w.cells
    ensures var worker := ClaimedWorker(w, job);
            && worker.job == job && worker.phase == Start && worker.attempts == w.cells[job].row.attempts + 1
            && worker.claimedAt == w.now && worker.ackTs == w.cells[job].request.ackTs
            && worker.spent.Within(c) && worker.spent.Total() == 0
  {
  }

  lemma ClaimKeeps(c: Config, w: World, a: Action)
    requires Inv(c, w) && a.Claim? && Allowed(c, w, a)
    ensures Inv(c, Next(c, w, a))
  {
    hide CellOk, LeftoverOk, ClaimedWorker, Spent.Within, Spent.Total;
    var w' := Next(c, w, a);
    var worker := ClaimedWorker(w, a.job);
    DueMeansFree(c, w.now, w.cells[a.job], HolderOf(w.workers, a.job));
    ClaimStarts(c, w, a.job);
    NewHolder(w.workers, a.id, worker);
    ClaimKeepsCell(c, w.now, w.cells[a.job], worker);
    forall j | j in w'.cells
      ensures CellOk(c, w'.now, w'.cells[j], HolderOf(w'.workers, j))
    {
      if j != a.job { HolderAfter(w.workers, a.id, Some(worker), j); }
    }
    forall id | id in w'.workers
      ensures w'.workers[id].job in w'.cells
      ensures w'.workers[id].phase.Leased() || LeftoverOk(id, w'.cells[w'.workers[id].job], w'.workers[id])
    {
      if id != a.id && !w'.workers[id].phase.Leased() && w.workers[id].job == a.job {
        ClaimKeepsLeftover(id, w.now, w.cells[a.job], w'.cells[a.job].row, w.workers[id]);
      }
    }
  }

  /** What a worker's step leaves for the other workers that let go of the same row. */
  lemma WorkKeeps(c: Config, w: World, a: Action)
    requires Inv(c, w) && a.Work? && Allowed(c, w, a)
    ensures Inv(c, Next(c, w, a))
  {
    hide CellOk, LeftoverOk, Step, Keeps, LeftoverKeeps;
    var worker := w.workers[a.id];
    var job := worker.job;
    var cell := w.cells[job];
    var (cell', next) := Step(a.id, w.now, cell, worker, a.act);
    StepFrame(c, a.id, w.now, cell, worker, a.act, HolderOf(w.workers, job));
    var w' := Next(c, w, a);
    if worker.phase.Leased() { HolderIs(w.workers, a.id); }
    WorkHolders(w.workers, a.id, next);
    forall j | j in w'.cells
      ensures CellOk(c, w'.now, w'.cells[j], HolderOf(w'.workers, j))
    {
      if j != job { HolderAfter(w.workers, a.id, next, j); }
    }
    forall id | id in w'.workers
      ensures w'.workers[id].job in w'.cells
      ensures w'.workers[id].phase.Leased() || LeftoverOk(id, w'.cells[w'.workers[id].job], w'.workers[id])
    {
      if id != a.id && !w'.workers[id].phase.Leased() && w.workers[id].job == job {
        OtherLeftoverStays(c, a.id, id, w.now, cell, worker, a.act, w.workers[id], HolderOf(w.workers, job));
      }
    }
    forall j | j in w'.cells && w'.cells[j].books.closer.Some?
      ensures ClosesRow(w'.workers, w'.cells[j].books.closer.value, j)
    {
      if j == job {
        CloserStays(c, a.id, w.now, cell, worker, a.act, HolderOf(w.workers, job));
      } else {
        assert ClosesRow(w.workers, w.cells[j].books.closer.value, j);
      }
    }
  }

  lemma WorkHolders(workers: Workers, id: nat, next: Option<Worker>)
    requires Exclusive(workers) && id in workers
    requires next.Some? ==> next.value.job == workers[id].job
    requires next.Some? && next.value.phase.Leased() ==> workers[id].phase.Leased()
    ensures Exclusive(SetWorker(workers, id, next))
    ensures workers[id].phase.Leased() ==>
              HolderOf(SetWorker(workers, id, next), workers[id].job)
              == if next.Some? && next.value.phase.Leased() then next else None
    ensures !workers[id].phase.Leased() ==>
              HolderOf(SetWorker(workers, id, next), workers[id].job) == HolderOf(workers, workers[id].job)
  {
    var job := workers[id].job;
    var after := SetWorker(workers, id, next);
    forall j, a, b | a in after && b in after && Holds(after[a], j) && Holds(after[b], j)
      ensures a == b
    {
      assert a in workers && b in workers && Holds(workers[a], j) && Holds(workers[b], j);
    }
    if workers[id].phase.Leased() {
      assert Holds(workers[id], job);
      if next.Some? && next.value.phase.Leased() { HolderIs(after, id); }
    } else if k: nat :| k in workers && Holds(workers[k], job) {
      HolderIs(workers, k);
      HolderIs(after, k);
    }
  }

  lemma StepKeepsInv(c: Config, w: World, a: Action)
    requires Inv(c, w) && Allowed(c, w, a)
    ensures Inv(c, Next(c, w, a))
  {
    match a
    case Arrive(_, _) => ArriveKeeps(c, w, a);
    case Tick(_) => TickKeeps(c, w, a);
    case Claim(_, _) => ClaimKeeps(c, w, a);
    case Work(_, _) => WorkKeeps(c, w, a);
  }
}
