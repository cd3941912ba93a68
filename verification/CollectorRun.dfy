/**
 Runs of the collector graph: its edges, and one visit as a node's update, the trimming
 validator, and the choice of the next node.
 */
module CollectorRun {
  import opened Wrappers
  import opened EvidenceMerge
  import opened ToolPolicy
  import opened CollectorState
  import opened CollectorNodes
  import opened CollectorInvariants

  datatype Node =
    | HostResolver
    | PhenomenonNode
    | HypothesisPlanner
    | ObservationPlanner
    | Router
    | Executor
    | Normalizer
    | Updater
    | Guard
    | PackageBuilder
    | Writer
    | ReportEval
    | Finished

  /** What one run never changes: the hosts asked for, the tools, and the live catalog. */
  datatype Environment = Environment(wanted: seq<string>, same: (string, string) -> bool, registry: Registry,
                                     catalog: Catalog)

  /** What a node is told from outside: model decisions, tool answers, the clock. */
  datatype Input =
    | Searched(turns: seq<SearchTurn>)
    | Scanned(scans: seq<Scan>)
    | Hypothesized(hypotheses: seq<Hypothesis>, planStop: Option<string>)
    | Proposed(proposals: seq<Proposal>, observationStop: Option<string>)
    | Called(outcomes: seq<CallOutcome>)
    | Judged(decision: UpdateDecision)
    | Clock(overtime: bool)
    | Checked(findings: nat)
    | Nothing

  // ----- the edges ----------------------------------------------------------

  function AfterHosts(s: State): Node
  {
    if s.stop.Some? || s.fatal.Some? || s.hosts == [] then PackageBuilder else PhenomenonNode
  }

  function AfterRouter(s: State): Node
  {
    if s.fatal.Some? then PackageBuilder
    else if s.planned != [] then Executor
    else if s.stop.Some? then PackageBuilder
    else if s.rejections != [] then ObservationPlanner
    else PackageBuilder
  }

  function AfterNormalizer(s: State): Node
  {
    if s.fatal.Some? || s.lastObservations == [] then Guard else Updater
  }

  function NextNode(node: Node, s: State): Node
  {
    match node
    case HostResolver => AfterHosts(s)
    case PhenomenonNode => HypothesisPlanner
    case HypothesisPlanner => ObservationPlanner
    case ObservationPlanner => Router
    case Router => AfterRouter(s)
    case Executor => Normalizer
    case Normalizer => AfterNormalizer(s)
    case Updater => Guard
    case Guard => if s.stop.None? then ObservationPlanner else PackageBuilder
    case PackageBuilder => Writer
    case Writer => ReportEval
    case ReportEval => Finished
    case Finished => Finished
  }

  // ----- one visit ----------------------------------------------------------

  datatype Config = At(node: Node, state: State) | Failed

  /** Inputs the schemas allow, with tool call ids of their own. */
  predicate Acceptable(node: Node, s: State, input: Input)
  {
    match node
    case HostResolver =>
      && input.Searched? && |input.turns| == MAX_HOST_SEARCH_TURNS + 1
      && FreshAnswers(SearchOutcomes(input.turns), s.results)
    case PhenomenonNode => input.Scanned? && FreshAnswers(ScanOutcomes(input.scans), s.results)
    case HypothesisPlanner => input.Hypothesized? && |input.hypotheses| <= 20
    case ObservationPlanner => input.Proposed? && |input.proposals| <= MAX_BATCH
    case Executor =>
      input.Called? && |input.outcomes| == |s.planned| && FreshAnswers(input.outcomes, s.results)
    case Updater => input.Judged?
    case Guard => input.Clock?
    case ReportEval => input.Checked?
    case Finished => false
    case _ => input.Nothing?
  }

  function Updated(env: Environment, node: Node, s: State, input: Input): Outcome
    requires Acceptable(node, s, input)
  {
    match node
    case HostResolver => Next(ResolveHosts(s, env.wanted, env.same, input.turns))
    case PhenomenonNode => Next(EstablishPhenomenon(s, input.scans))
    case HypothesisPlanner => PlanHypotheses(s, input.hypotheses, input.planStop)
    case ObservationPlanner => Next(PlanObservations(s, input.proposals, input.observationStop, env.registry))
    case Router => RouteTools(s, env.registry, env.catalog)
    case Executor => Next(ExecuteTools(s, input.outcomes))
    case Normalizer => Next(NormalizeEvidence(s))
    case Updater => UpdateHypotheses(s, input.decision)
    case Guard => Next(GuardStop(s, input.overtime))
    case PackageBuilder => BuildPackage(s)
    case Writer => Next(s)
    case ReportEval => Next(EvaluateReport(s, input.findings))
  }

  /** The next node rebuilds the state, which trims it and may refuse it. */
  function Arrive(node: Node, o: Outcome): Config
  {
    if o.Raised? || !Valid(Trimmed(o.state)) || !WithinCeilings(o.state) then Failed
    else At(NextNode(node, Trimmed(o.state)), Trimmed(o.state))
  }

  ghost predicate Visited(env: Environment, c: Config, input: Input, next: Config)
  {
    c.At? && Acceptable(c.node, c.state, input) && next == Arrive(c.node, Updated(env, c.node, c.state, input))
  }

  /** A state the service starts a run with. */
  ghost predicate Fresh(s: State)
  {
    && s.hosts == [] && s.hypotheses == [] && s.facts == [] && s.questions == [] && s.planned == []
    && s.evidence == [] && s.lastObservations == [] && s.results == [] && s.rejections == []
    && s.iterations == 0 && s.callCount == 0 && s.attempts == 0
    && s.stop.None? && s.fatal.None? && s.package.None? && !s.limitReached
    && s.limits.maxIterations >= 1
  }

  ghost predicate IsRun(env: Environment, run: seq<Config>, inputs: seq<Input>)
  {
    && |run| == |inputs| + 1
    && run[0].At? && run[0].node == HostResolver && Fresh(run[0].state)
    && forall i | 0 <= i < |inputs| :: Visited(env, run[i], inputs[i], run[i + 1])
  }

  // ----- what holds on entry to each node -----------------------------------

  ghost predicate Unplanned(s: State)
  {
    s.questions == [] && s.planned == [] && s.stop.None? && s.fatal.None? && s.iterations == 0 && s.attempts == 0
  }

  /** Between a plan that was routed and the guard that judges the cycle. */
  ghost predicate InCycle(s: State)
  {
    s.hosts != [] && s.stop.None? && s.fatal.None? && s.attempts == 0 && s.planned != []
  }

  ghost predicate Holds(node: Node, s: State)
  {
    match node
    case HostResolver => Unplanned(s)
    case PhenomenonNode => Unplanned(s) && s.hosts != []
    case HypothesisPlanner => Unplanned(s) && s.hosts != []
    case ObservationPlanner =>
      && s.hosts != [] && s.fatal.None? && s.attempts <= MAX_ROUTING_ATTEMPTS && s.attempts <= s.iterations
      && (if s.stop.Some? then s.questions == [] && s.planned == [] && s.iterations == 0
          else s.iterations <= s.limits.maxIterations - 1 + s.attempts)
    case Router =>
      && s.hosts != [] && s.fatal.None? && s.planned == [] && QuestionsReady(s)
      && (s.stop.None? <==> s.questions != []) && (s.stop.None? ==> s.attempts < s.iterations)
      && s.attempts <= MAX_ROUTING_ATTEMPTS && s.attempts <= s.iterations
      && s.iterations <= s.limits.maxIterations + s.attempts
    case Executor => InCycle(s) && |s.planned| + |s.results| <= s.limits.maxToolCalls
    case Normalizer => InCycle(s)
    case Updater => InCycle(s) && s.lastObservations != []
    case Guard => s.hosts != [] && s.attempts == 0
    case PackageBuilder => s.stop.Some?
    case _ => s.stop.Some? && (s.package.Some? <==> s.hosts != [])
  }

  ghost predicate EntryOk(node: Node, s: State)
  {
    && Core(s) && Holds(node, s)
    && |s.questions| <= MAX_BATCH && |s.planned| <= MAX_BATCH
    && s.limits.maxIterations >= 1 && s.iterations <= s.limits.maxIterations + MAX_ROUTING_ATTEMPTS
  }

  /**
   Visits so far, counted against the iterations they were spent on. A planner pass that
   is refused costs two visits and one that is routed six; r is how many passes were
   refused since the last one that was routed.
   */
  ghost predicate OnBudget(node: Node, s: State, visits: nat, r: nat)
  {
    Affords(node, s.iterations, s.attempts, s.limits.maxIterations, visits, r)
  }

  predicate Affords(node: Node, n: nat, attempts: nat, max: nat, visits: nat, r: nat)
  {
    var cycle := 3 + 6 * (n - 1) - 4 * r;
    var atEnd := if n == 0 then 5 else cycle + 6;
    var routed := r <= MAX_ROUTING_ATTEMPTS && n <= max + r;
    match node
    case HostResolver => visits == 0 && r == 0
    case PhenomenonNode => visits == 1 && r == 0
    case HypothesisPlanner => visits == 2 && r == 0
    case ObservationPlanner => visits <= 3 + 6 * n - 4 * attempts && r <= MAX_ROUTING_ATTEMPTS
    case Router => r == attempts && visits <= (if n == 0 then 4 else cycle + 1)
    case Executor => routed && visits <= cycle + 2
    case Normalizer => routed && visits <= cycle + 3
    case Updater => routed && visits <= cycle + 4
    case Guard => routed && visits <= cycle + 5
    case PackageBuilder => routed && visits <= atEnd
    case Writer => routed && visits <= atEnd + 1
    case ReportEval => routed && visits <= atEnd + 2
    case Finished => routed && visits <= atEnd + 3
  }

  /** Refused passes counted at the latest router this run entered. */
  ghost function RefusalsAt(c: Config, before: nat): nat
  {
    if c.At? && c.node == Router then c.state.attempts else before
  }

  /** The next node's entry conditions hold, one visit later. */
  ghost predicate Ready(next: Node, s: State, visits: nat, r: nat)
  {
    EntryOk(next, s) && OnBudget(next, s, visits + 1, RefusalsAt(At(next, s), r))
  }

  /** Where a visit leads when it does not raise, a node that is ready. */
  ghost predicate LeadsOn(c: Config, visits: nat, r: nat)
  {
    c.At? ==> Ready(c.node, c.state, visits, r)
  }

  /** Trimming touches nothing the entry conditions read, apart from Core. */
  lemma TrimmedIsReady(next: Node, s: State, visits: nat, r: nat)
    requires Ready(next, s, visits, r)
    ensures Ready(next, Trimmed(s), visits, r)
    ensures forall node :: NextNode(node, Trimmed(s)) == NextNode(node, s)
  {
    hide Core, StateCapacity.Rebuild;
    TrimmingKeepsCore(s);
  }

  lemma Lands(node: Node, s: State, visits: nat, r: nat)
    requires Ready(NextNode(node, s), s, visits, r)
    ensures LeadsOn(Arrive(node, Next(s)), visits, r)
    ensures Arrive(node, Next(s)).Failed? <==> !WithinCeilings(s)
  {
    hide OnBudget, Holds, NextNode, Trimmed, Valid, WithinCeilings;
    TrimmedIsReady(NextNode(node, s), s, visits, r);
    assert Valid(Trimmed(s));
  }

  // ----- one lemma for each node --------------------------------------------

  lemma HostsReady(s: State, wanted: seq<string>, same: (string, string) -> bool, turns: seq<SearchTurn>)
    requires EntryOk(HostResolver, s) && |turns| == MAX_HOST_SEARCH_TURNS + 1
    requires FreshAnswers(SearchOutcomes(turns), s.results)
    ensures var next := ResolveHosts(s, wanted, same, turns); Ready(NextNode(HostResolver, next), next, 0, 0)
  {
    hide Core, SearchAll, FreshAnswers;
    ResolveHostsKeeps(s, wanted, same, turns);
  }

  lemma PhenomenonReady(s: State, scans: seq<Scan>)
    requires EntryOk(PhenomenonNode, s) && FreshAnswers(ScanOutcomes(scans), s.results)
    ensures Ready(HypothesisPlanner, EstablishPhenomenon(s, scans), 1, 0)
  {
    hide Core, ScanAll, FreshAnswers;
    EstablishKeeps(s, scans);
  }

  lemma HypothesesReady(s: State, proposed: seq<Hypothesis>, stop: Option<string>)
    requires EntryOk(HypothesisPlanner, s) && Distinct(HypothesisIds(proposed))
    ensures PlanHypotheses(s, proposed, stop).Next?
    ensures Ready(ObservationPlanner, PlanHypotheses(s, proposed, stop).state, 2, 0)
  {
    hide Core, Distinct;
    PlanHypothesesKeeps(s, proposed, stop);
  }

  lemma ObservationsEntry(s: State, proposals: seq<Proposal>, stop: Option<string>, registry: Registry)
    requires EntryOk(ObservationPlanner, s) && |proposals| <= MAX_BATCH
    ensures EntryOk(Router, PlanObservations(s, proposals, stop, registry))
  {
    hide Core, ConsiderAll, QuestionsReady;
    PlanObservationsKeeps(s, proposals, stop, registry);
    ConsiderKeeps(s, proposals, registry);
  }

  lemma ObservationsReady(s: State, proposals: seq<Proposal>, stop: Option<string>, registry: Registry,
                          visits: nat, r: nat)
    requires EntryOk(ObservationPlanner, s) && |proposals| <= MAX_BATCH && OnBudget(ObservationPlanner, s, visits, r)
    ensures Ready(Router, PlanObservations(s, proposals, stop, registry), visits, r)
  {
    ObservationsEntry(s, proposals, stop, registry);
    hide Core, ConsiderAll, QuestionsReady, EntryOk;
  }

  lemma BatchFits(s: State, registry: Registry, catalog: Catalog)
    requires Core(s) && QuestionsReady(s)
    ensures |RouteAll(s.questions, s, registry, catalog).planned| <= |s.questions|
  {
    hide RouteAll, Grounded, Recorded;
    RouteKeeps(s, s.questions, registry, catalog);
  }

  /** The three ways out of a routing that does not raise. */
  predicate RoutedOn(s: State, next: State)
  {
    next.planned != [] && next.stop == s.stop && next.attempts == 0 && next.questions == s.questions
      && s.questions != []
  }

  predicate SentBack(s: State, next: State)
  {
    && next.planned == [] && next.questions == [] && next.rejections != []
    && next.stop == s.stop && s.questions != []
    && next.attempts == s.attempts + 1 <= MAX_ROUTING_ATTEMPTS
  }

  predicate GivenUp(s: State, next: State)
  {
    next.planned == [] && next.stop.Some? && next.questions == s.questions
  }

  lemma RouterMoves(s: State, registry: Registry, catalog: Catalog)
    ensures var o := RouteTools(s, registry, catalog);
            o.Next? ==>
              && o.state.hosts == s.hosts && o.state.fatal == s.fatal
              && o.state.iterations == s.iterations && o.state.limits == s.limits
              && (RoutedOn(s, o.state) || SentBack(s, o.state) || GivenUp(s, o.state))
  {
    hide RouteAll;
  }

  lemma RouterTurns(s: State, next: State)
    requires s.fatal.None? && next.fatal.None? && (s.stop.None? <==> s.questions != [])
    requires RoutedOn(s, next) || SentBack(s, next) || GivenUp(s, next)
    ensures NextNode(Router, next) == if RoutedOn(s, next) then Executor
                                      else if SentBack(s, next) then ObservationPlanner else PackageBuilder
  {
  }

  lemma RouterEntry(s: State, registry: Registry, catalog: Catalog)
    requires EntryOk(Router, s)
    ensures var o := RouteTools(s, registry, catalog); o.Next? ==> EntryOk(NextNode(Router, o.state), o.state)
  {
    hide Core, RouteAll, QuestionsReady, RouteTools, NextNode;
    RouterMoves(s, registry, catalog);
    var o := RouteTools(s, registry, catalog);
    if o.Next? {
      RouteToolsKeeps(s, registry, catalog);
      PlannedFits(s, registry, catalog);
      RouterTurns(s, o.state);
    }
  }

  lemma PlannedFits(s: State, registry: Registry, catalog: Catalog)
    requires Core(s) && QuestionsReady(s) && s.planned == []
    ensures var o := RouteTools(s, registry, catalog); o.Next? ==> |o.state.planned| <= |s.questions|
  {
    hide Core, RouteAll, QuestionsReady;
    BatchFits(s, registry, catalog);
  }

  lemma RouterAffords(n: nat, attempts: nat, after: nat, max: nat, visits: nat, r: nat)
    requires Affords(Router, n, attempts, max, visits, r) && attempts <= MAX_ROUTING_ATTEMPTS && n <= max + attempts
    requires max >= 1
    ensures Affords(PackageBuilder, n, after, max, visits + 1, r)
    ensures n > 0 ==> Affords(Executor, n, after, max, visits + 1, r)
    ensures n > 0 ==> Affords(ObservationPlanner, n, attempts + 1, max, visits + 1, r)
  {
  }

  lemma RouterReady(s: State, registry: Registry, catalog: Catalog, visits: nat, r: nat)
    requires EntryOk(Router, s) && OnBudget(Router, s, visits, r)
    ensures var o := RouteTools(s, registry, catalog);
            o.Next? ==> Ready(NextNode(Router, o.state), o.state, visits, r)
  {
    hide Core, RouteAll, QuestionsReady, NextNode, RouteTools, Affords;
    RouterEntry(s, registry, catalog);
    RouterMoves(s, registry, catalog);
    var o := RouteTools(s, registry, catalog);
    if o.Next? {
      RouterTurns(s, o.state);
      RefusalsAre(s.iterations, s.attempts, s.limits.maxIterations, visits, r);
      RouterAffords(s.iterations, s.attempts, o.state.attempts, s.limits.maxIterations, visits, r);
    }
  }

  lemma RefusalsAre(n: nat, attempts: nat, max: nat, visits: nat, r: nat)
    requires Affords(Router, n, attempts, max, visits, r)
    ensures r == attempts
  {
  }

  lemma ExecutorReady(s: State, outcomes: seq<CallOutcome>, visits: nat, r: nat)
    requires EntryOk(Executor, s) && OnBudget(Executor, s, visits, r)
    requires |outcomes| == |s.planned| && FreshAnswers(outcomes, s.results)
    ensures Ready(Normalizer, ExecuteTools(s, outcomes), visits, r)
  {
    hide Core, CollectAll, FreshAnswers;
    ExecuteToolsKeeps(s, outcomes);
  }

  lemma NormalizerEntry(s: State)
    requires EntryOk(Normalizer, s)
    ensures var next := NormalizeEvidence(s); EntryOk(NextNode(Normalizer, next), next)
  {
    hide Core, NormalizeAll, QuestionsReady;
    NormalizeEvidenceKeeps(s);
  }

  lemma NormalizerReady(s: State, visits: nat, r: nat)
    requires EntryOk(Normalizer, s) && OnBudget(Normalizer, s, visits, r)
    ensures var next := NormalizeEvidence(s); Ready(NextNode(Normalizer, next), next, visits, r)
  {
    NormalizerEntry(s);
    var next := NormalizeEvidence(s);
    var node := NextNode(Normalizer, next);
    hide Core, NormalizeAll, QuestionsReady, EntryOk, Holds;
    assert next.iterations == s.iterations && next.limits == s.limits;
    assert node == Updater || node == Guard;
    hide NormalizeEvidence, NextNode;
  }

  lemma UpdaterReady(s: State, d: UpdateDecision, visits: nat, r: nat)
    requires EntryOk(Updater, s) && OnBudget(Updater, s, visits, r)
    ensures UpdateHypotheses(s, d).Next? && Ready(Guard, UpdateHypotheses(s, d).state, visits, r)
  {
    hide Core, UpdateAll, ProposeAll, ConfirmAll;
    UpdateHypothesesKeeps(s, d);
  }

  lemma GuardKeeps(s: State, overtime: bool)
    requires Core(s)
    ensures Core(GuardStop(s, overtime))
    ensures s.callCount == |s.results|
  {
    hide Grounded, Recorded, Distinct, FactsCite, HypothesesCite, QuestionsName, CallsName, Ids, HypothesisIds, Names,
         CallIds;
    assert Valid(s) ==> Valid(GuardStop(s, overtime));
  }

  lemma GuardEntry(s: State, overtime: bool)
    requires EntryOk(Guard, s)
    ensures var next := GuardStop(s, overtime); EntryOk(NextNode(Guard, next), next)
  {
    hide Core, QuestionsReady;
    GuardKeeps(s, overtime);
  }

  lemma GuardReady(s: State, overtime: bool, visits: nat, r: nat)
    requires EntryOk(Guard, s) && OnBudget(Guard, s, visits, r)
    ensures var next := GuardStop(s, overtime); Ready(NextNode(Guard, next), next, visits, r)
  {
    GuardEntry(s, overtime);
    assert s.attempts == 0 && s.limits.maxIterations >= 1;
    hide Core, QuestionsReady, EntryOk;
  }

  lemma ReportKeeps(s: State, findings: nat)
    requires Core(s)
    ensures Core(EvaluateReport(s, findings))
  {
    hide Grounded, Recorded, Distinct, FactsCite, HypothesesCite, QuestionsName, CallsName, Ids, HypothesisIds, Names,
        CallIds;
  }

  lemma EndReady(s: State, findings: nat, visits: nat, r: nat)
    ensures EntryOk(PackageBuilder, s) && OnBudget(PackageBuilder, s, visits, r) ==>
              BuildPackage(s).Next? && Ready(Writer, BuildPackage(s).state, visits, r)
    ensures EntryOk(Writer, s) && OnBudget(Writer, s, visits, r) ==> Ready(ReportEval, s, visits, r)
    ensures EntryOk(ReportEval, s) && OnBudget(ReportEval, s, visits, r) ==>
              Ready(Finished, EvaluateReport(s, findings), visits, r)
  {
    hide Core, PackageValid;
    if Core(s) {
      PackageIsValid(s);
      ReportKeeps(s, findings);
    }
  }
}
