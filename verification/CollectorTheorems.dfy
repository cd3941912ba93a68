/**
 What holds in every run of the collector graph, whatever the models and the tools reply.
 */
module CollectorTheorems {
  import opened Wrappers
  import opened EvidenceMerge
  import opened ToolPolicy
  import opened CollectorState
  import opened CollectorNodes
  import opened CollectorInvariants
  import opened CollectorBatches
  import opened CollectorRun
  import opened CollectorCeilings

  /** How many passes the latest router a run entered had seen refused in its cycle. */
  ghost function FinalRefusals(run: seq<Config>): nat
  {
    if run == [] then 0 else RefusalsAt(run[|run| - 1], FinalRefusals(run[..|run| - 1]))
  }

  ghost predicate Sound(c: Config, visits: nat, r: nat)
  {
    c.At? ==> EntryOk(c.node, c.state) && OnBudget(c.node, c.state, visits, r) && WithinCeilings(c.state)
  }

  lemma StepIsSound(env: Environment, c: Config, input: Input, next: Config, visits: nat, r: nat)
    requires Visited(env, c, input, next) && Sound(c, visits, r)
    ensures Sound(next, visits + 1, RefusalsAt(next, r))
    ensures next.Failed? <==> Raises(env, c.node, c.state, input)
  {
    hide WithinCeilings, PassesACeiling, EntryOk, OnBudget, Distinct, ResolveHosts, EstablishPhenomenon,
         PlanHypotheses, PlanObservations, RouteTools, ExecuteTools, NormalizeEvidence, UpdateHypotheses,
         GuardStop, BuildPackage, EvaluateReport, AfterHosts, AfterRouter, AfterNormalizer, FreshAnswers;
    var s := c.state;
    var o := Updated(env, c.node, s, input);
    match c.node {
      case HostResolver =>
        Counted(c, visits, r);
        HostsReady(s, env.wanted, env.same, input.turns);
        Lands(c.node, o.state, 0, 0);
      case PhenomenonNode =>
        Counted(c, visits, r);
        PhenomenonReady(s, input.scans);
        Lands(c.node, o.state, 1, 0);
      case HypothesisPlanner =>
        Counted(c, visits, r);
        if Distinct(HypothesisIds(input.hypotheses)) {
          HypothesesReady(s, input.hypotheses, input.planStop);
          Lands(c.node, o.state, 2, 0);
        } else {
          IdsRepeat(s, input.hypotheses, input.planStop);
        }
      case ObservationPlanner =>
        ObservationsReady(s, input.proposals, input.observationStop, env.registry, visits, r);
        Lands(c.node, o.state, visits, r);
      case Router =>
        RouterRaises(s, env.registry, env.catalog);
        RouterReady(s, env.registry, env.catalog, visits, r);
        if o.Next? { Lands(c.node, o.state, visits, r); }
      case Executor =>
        ExecutorReady(s, input.outcomes, visits, r);
        Lands(c.node, o.state, visits, r);
      case Normalizer =>
        NormalizerReady(s, visits, r);
        Lands(c.node, o.state, visits, r);
      case Updater =>
        UpdaterReady(s, input.decision, visits, r);
        Lands(c.node, o.state, visits, r);
      case Guard =>
        GuardReady(s, input.overtime, visits, r);
        Lands(c.node, o.state, visits, r);
      case PackageBuilder =>
        EndReady(s, 0, visits, r);
        Lands(c.node, o.state, visits, r);
      case Writer =>
        EndReady(s, 0, visits, r);
        Lands(c.node, o.state, visits, r);
      case ReportEval =>
        EndReady(s, input.findings, visits, r);
        Lands(c.node, o.state, visits, r);
    }
    if o.Next? {
      CeilingsArePassedExactly(env, c.node, s, input);
      TrimmedCeilings(o.state);
    }
  }

  lemma RouterRaises(s: State, registry: Registry, catalog: Catalog)
    requires EntryOk(Router, s)
    ensures RouteTools(s, registry, catalog).Raised?
            <==> exists q | q in s.questions :: Grantable(q, s, registry, catalog) && TooLong(q)
  {
    RouterRaisesExactly(s, registry, catalog);
    hide RouteTools, RouterVerdict;
  }

  lemma TrimmedCeilings(s: State)
    ensures WithinCeilings(Trimmed(s)) == WithinCeilings(s)
  {
    hide StateCapacity.Rebuild;
  }

  lemma Counted(c: Config, visits: nat, r: nat)
    requires c.At? && OnBudget(c.node, c.state, visits, r)
    ensures c.node == HostResolver ==> visits == 0 && r == 0
    ensures c.node == PhenomenonNode ==> visits == 1 && r == 0
    ensures c.node == HypothesisPlanner ==> visits == 2 && r == 0
  {
  }

  lemma IdsRepeat(s: State, proposed: seq<Hypothesis>, stop: Option<string>)
    requires !Distinct(HypothesisIds(proposed))
    ensures PlanHypotheses(s, proposed, stop).Raised?
  {
  }

  lemma StartIsSound(s: State)
    requires Fresh(s)
    ensures Sound(At(HostResolver, s), 0, 0)
  {
  }

  lemma {:induction false} RunIsSound(env: Environment, run: seq<Config>, inputs: seq<Input>, i: nat)
    requires IsRun(env, run, inputs) && i < |run|
    ensures Sound(run[i], i, FinalRefusals(run[..i + 1]))
  {
    hide Sound, Visited, Fresh;
    assert run[..i + 1][..i] == run[..i];
    if i == 0 {
      StartIsSound(run[0].state);
      assert run[0] == At(HostResolver, run[0].state);
    } else {
      RunIsSound(env, run, inputs, i - 1);
      assert run[..i - 1 + 1] == run[..i];
      StepIsSound(env, run[i - 1], inputs[i - 1], run[i], i - 1, FinalRefusals(run[..i]));
    }
  }

  lemma NodesEnteredSoundly(env: Environment, run: seq<Config>, inputs: seq<Input>, i: nat)
    requires IsRun(env, run, inputs) && i < |run| && run[i].At?
    ensures EntryOk(run[i].node, run[i].state)
  {
    RunIsSound(env, run, inputs, i);
  }

  // ----- exceptions ---------------------------------------------------------

  /**
   The invariants of the validator are never what refuses a state, the updater is never
   handed nothing, and the package's reference check never fails: a run raises on the
   inputs Raises names, and on no other.
   */
  lemma RunsRaiseExactly(env: Environment, run: seq<Config>, inputs: seq<Input>, i: nat)
    requires IsRun(env, run, inputs) && i < |inputs|
    ensures run[i].At? && Acceptable(run[i].node, run[i].state, inputs[i])
    ensures run[i + 1].Failed? <==> Raises(env, run[i].node, run[i].state, inputs[i])
  {
    hide Sound, Visited, Fresh, Raises;
    RunIsSound(env, run, inputs, i);
    assert Visited(env, run[i], inputs[i], run[i + 1]);
    VisitIsAcceptable(env, run[i], inputs[i], run[i + 1]);
    StepIsSound(env, run[i], inputs[i], run[i + 1], i, FinalRefusals(run[..i + 1]));
  }

  /** References, uniqueness, budget and provenance, at every node of every run. */
  lemma ReferencesHoldEverywhere(env: Environment, run: seq<Config>, inputs: seq<Input>, i: nat)
    requires IsRun(env, run, inputs) && i < |run| && run[i].At?
    ensures Valid(run[i].state)
    ensures run[i].state.callCount == |run[i].state.results| <= run[i].state.limits.maxToolCalls
    ensures Grounded(run[i].state.evidence, run[i].state.results) && |run[i].state.evidence| <= EVIDENCE_CAPACITY
    ensures Recorded(run[i].state.lastObservations, run[i].state.results)
    ensures |run[i].state.questions| <= MAX_BATCH && |run[i].state.planned| <= MAX_BATCH
  {
    NodesEnteredSoundly(env, run, inputs, i);
  }

  // ----- termination --------------------------------------------------------

  /**
   Every run ends: it visits at most 6 * max_iterations + 6 nodes and two more for each
   refused pass of its final cycle, of which there are at most two; and the planner
   counts at most max_iterations + 2 passes.
   */
  lemma VisitsAreBounded(env: Environment, run: seq<Config>, inputs: seq<Input>)
    requires IsRun(env, run, inputs) && run[|inputs|].At?
    ensures var s := run[|inputs|].state;
            var r := FinalRefusals(run);
            && r <= MAX_ROUTING_ATTEMPTS
            && |inputs| <= 6 * s.limits.maxIterations + 6 + 2 * r <= 6 * s.limits.maxIterations + 10
            && s.iterations <= s.limits.maxIterations + MAX_ROUTING_ATTEMPTS
  {
    hide Visited, Fresh, EntryOk, OnBudget;
    var i := |inputs|;
    RunIsSound(env, run, inputs, i);
    assert run[..i + 1] == run;
    BudgetMeans(run[i].node, run[i].state, i, FinalRefusals(run));
  }

  /** So does a run that raises, or is not yet over: no run is longer. */
  lemma EveryRunIsShort(env: Environment, run: seq<Config>, inputs: seq<Input>)
    requires IsRun(env, run, inputs)
    ensures |inputs| <= 6 * run[0].state.limits.maxIterations + 10
  {
    hide Visited, Fresh, EntryOk, OnBudget;
    var n := |inputs|;
    if n > 0 {
      assert Visited(env, run[n - 1], inputs[n - 1], run[n]);
      NotFinished(env, run[n - 1], inputs[n - 1], run[n]);
      RunIsSound(env, run, inputs, n - 1);
      BudgetMeans(run[n - 1].node, run[n - 1].state, n - 1, FinalRefusals(run[..n]));
      RecordsOnlyGrow(env, run, inputs, 0, n - 1);
    }
  }

  lemma VisitIsAcceptable(env: Environment, c: Config, input: Input, next: Config)
    requires Visited(env, c, input, next)
    ensures c.At? && Acceptable(c.node, c.state, input)
  {
  }

  lemma NotFinished(env: Environment, c: Config, input: Input, next: Config)
    requires Visited(env, c, input, next)
    ensures c.At? && c.node != Finished
  {
  }

  /** A run that has not ended can always go on, whatever it has been through. */
  lemma RunGoesOn(node: Node, s: State) returns (input: Input)
    requires node != Finished
    ensures Acceptable(node, s, input)
  {
    match node
    case HostResolver =>
      var turn := SearchTurn([], None, None, Refusal);
      input := Searched([turn, turn, turn]);
    case PhenomenonNode => input := Scanned([]);
    case HypothesisPlanner => input := Hypothesized([], None);
    case ObservationPlanner => input := Proposed([], None);
    case Executor => input := Called(seq(|s.planned|, i => Refusal));
    case Updater => input := Judged(UpdateDecision([], [], [], None));
    case Guard => input := Clock(false);
    case ReportEval => input := Checked(0);
    case _ => input := Nothing;
  }

  lemma BudgetMeans(node: Node, s: State, visits: nat, r: nat)
    requires EntryOk(node, s) && OnBudget(node, s, visits, r)
    ensures r <= MAX_ROUTING_ATTEMPTS && visits <= 6 * s.limits.maxIterations + 6 + 2 * r
    ensures s.iterations <= s.limits.maxIterations + MAX_ROUTING_ATTEMPTS
    ensures node != Finished ==> visits < 6 * s.limits.maxIterations + 6 + 2 * r
  {
    hide Core, QuestionsReady;
  }

  lemma BudgetUnderCeiling(node: Node, s: State, visits: nat, r: nat)
    requires EntryOk(node, s) && OnBudget(node, s, visits, r) && s.iterations <= 20 && s.limits.maxIterations >= 19
    ensures visits <= 6 * s.limits.maxIterations + 8
    ensures node != Finished ==> visits < 6 * s.limits.maxIterations + 8
  {
    hide Core, QuestionsReady;
  }

  /** With 19 iterations or more the ceiling on iteration_count keeps every run within the recursion limit. */
  lemma CeilingKeepsTheLimit(env: Environment, run: seq<Config>, inputs: seq<Input>)
    requires IsRun(env, run, inputs) && run[0].state.limits.maxIterations >= 19
    ensures |inputs| <= 6 * run[0].state.limits.maxIterations + 8
  {
    hide Visited, Fresh, EntryOk, OnBudget;
    var n := |inputs|;
    if n > 0 {
      assert Visited(env, run[n - 1], inputs[n - 1], run[n]);
      NotFinished(env, run[n - 1], inputs[n - 1], run[n]);
      RunIsSound(env, run, inputs, n - 1);
      RecordsOnlyGrow(env, run, inputs, 0, n - 1);
      BudgetUnderCeiling(run[n - 1].node, run[n - 1].state, n - 1, FinalRefusals(run[..n]));
    }
  }

  /** The observation planner raises only at its 21st pass, which takes a budget of 19 iterations. */
  lemma PlannerRaisesLate(env: Environment, run: seq<Config>, inputs: seq<Input>, i: nat)
    requires IsRun(env, run, inputs) && i < |inputs| && run[i].At? && run[i].node == ObservationPlanner
        && run[i + 1].Failed?
    ensures run[i].state.stop.None? && run[i].state.iterations == 20 && run[0].state.limits.maxIterations >= 19
  {
    hide Visited, Fresh, Core, QuestionsReady;
    RunsRaiseExactly(env, run, inputs, i);
    NodesEnteredSoundly(env, run, inputs, i);
    RecordsOnlyGrow(env, run, inputs, 0, i);
  }

  // ----- stopping -----------------------------------------------------------

  /** Where each stage of a run may find itself. */
  lemma StagesAreReadyForTheirWork(env: Environment, run: seq<Config>, inputs: seq<Input>, i: nat)
    requires IsRun(env, run, inputs) && i < |run| && run[i].At?
    ensures run[i].node == Executor ==> run[i].state.stop.None? && run[i].state.planned != []
    ensures run[i].node == Updater ==> run[i].state.lastObservations != []
    ensures run[i].node == PackageBuilder ==> run[i].state.stop.Some?
    ensures run[i].node == Writer ==> (run[i].state.package.Some? <==> run[i].state.hosts != [])
    ensures run[i].node == ObservationPlanner && run[i].state.stop.None? ==>
              run[i].state.iterations + 1 <= run[i].state.limits.maxIterations + run[i].state.attempts
  {
    hide Core, QuestionsReady, Visited, Fresh;
    NodesEnteredSoundly(env, run, inputs, i);
  }

  lemma RouterAlwaysDecides(env: Environment, c: Config, input: Input, next: Config)
    requires Visited(env, c, input, next) && c.At? && c.node == Router && EntryOk(Router, c.state) && next.At?
    ensures next.state.planned != [] || next.state.stop.Some? || next.state.rejections != []
    ensures next.node == PackageBuilder <==> next.state.stop.Some?
  {
    hide Core, RouteAll, QuestionsReady, Valid, StateCapacity.Rebuild;
    RouterEntry(c.state, env.registry, env.catalog);
  }

  /** The last answer of route_after_tool_router, for no call, no stop and no refusal, is never reached. */
  lemma FallThroughIsUnreachable(env: Environment, run: seq<Config>, inputs: seq<Input>, i: nat)
    requires IsRun(env, run, inputs) && i < |inputs| && run[i].At? && run[i].node == Router && run[i + 1].At?
    ensures run[i + 1].state.planned != [] || run[i + 1].state.stop.Some? || run[i + 1].state.rejections != []
    ensures run[i + 1].node == PackageBuilder <==> run[i + 1].state.stop.Some?
  {
    hide Visited, EntryOk, Fresh;
    NodesEnteredSoundly(env, run, inputs, i);
    assert Visited(env, run[i], inputs[i], run[i + 1]);
    RouterAlwaysDecides(env, run[i], inputs[i], run[i + 1]);
  }

  /** What one visit leaves of what was there: records only grow, and not once the run is stopped. */
  ghost predicate Keeps(node: Node, s: State, s': State)
  {
    && s.results <= s'.results
    && Ids(s.evidence) <= Ids(s'.evidence)
    && s'.limits == s.limits
    && (s.stop.Some? ==> s'.stop.Some? && s'.results == s.results)
    && (node != HypothesisPlanner ==> HypothesisIds(s.hypotheses) <= HypothesisIds(s'.hypotheses))
  }

  lemma TrimmedKeeps(node: Node, s: State, s': State)
    requires Keeps(node, s, s')
    ensures Keeps(node, s, Trimmed(s'))
  {
    hide StateCapacity.Rebuild;
  }

  lemma PhenomenonKeeps(s: State, scans: seq<Scan>)
    requires EntryOk(PhenomenonNode, s) && FreshAnswers(ScanOutcomes(scans), s.results)
    ensures Keeps(PhenomenonNode, s, EstablishPhenomenon(s, scans))
  {
    ScanKeeps(s, scans);
    hide Core, FreshAnswers, Grounded, ScanAll, RecordOf;
    RecordStays(s.results, ScanOutcomes(scans), ScanAll(scans, s).results);
  }

  lemma ExecutorKeeps(s: State, outcomes: seq<CallOutcome>)
    requires EntryOk(Executor, s) && |outcomes| == |s.planned| && FreshAnswers(outcomes, s.results)
    ensures Keeps(Executor, s, ExecuteTools(s, outcomes))
  {
    hide FreshAnswers, QuestionsReady, Grounded, CollectAll, RecordOf, FactsCite, HypothesesCite, QuestionsName,
         CallsName;
    CollectKeeps(s, s.planned, outcomes);
    RecordStays(s.results, outcomes, CollectAll(s.planned, outcomes, s).results);
  }

  lemma NormalizerKeeps(s: State)
    requires EntryOk(Normalizer, s)
    ensures Keeps(Normalizer, s, NormalizeEvidence(s))
  {
    NormalizeKeeps(s, s.lastObservations);
    hide Core, QuestionsReady, Grounded, NormalizeAll;
  }

  lemma PlannersKeep(env: Environment, s: State, input: Input)
    ensures input.Searched? && EntryOk(HostResolver, s) ==>
              Keeps(HostResolver, s, ResolveHosts(s, env.wanted, env.same, input.turns))
    ensures input.Hypothesized? && s.stop.None? && PlanHypotheses(s, input.hypotheses, input.planStop).Next? ==>
              Keeps(HypothesisPlanner, s, PlanHypotheses(s, input.hypotheses, input.planStop).state)
    ensures input.Proposed? ==>
              Keeps(ObservationPlanner, s, PlanObservations(s, input.proposals, input.observationStop, env.registry))
  {
    hide Core, SearchAll, ConsiderAll, Ids, HypothesisIds, Names, ResolveWanted, AddUnasked, SetPurposes, Distinct;
  }

  lemma RouterKeeps(env: Environment, s: State)
    ensures RouteTools(s, env.registry, env.catalog).Next? ==>
              Keeps(Router, s, RouteTools(s, env.registry, env.catalog).state)
  {
    hide RouteAll, Ids, HypothesisIds;
  }

  lemma ClosersKeep(s: State, input: Input)
    ensures input.Clock? ==> Keeps(Guard, s, GuardStop(s, input.overtime))
    ensures BuildPackage(s).Next? ==> Keeps(PackageBuilder, s, BuildPackage(s).state)
    ensures Keeps(Writer, s, s)
    ensures input.Checked? ==> Keeps(ReportEval, s, EvaluateReport(s, input.findings))
  {
    hide PackageValid, Ids, HypothesisIds, PackageCalls;
  }

  lemma VisitKeeps(env: Environment, c: Config, input: Input, next: Config)
    requires Visited(env, c, input, next) && next.At? && EntryOk(c.node, c.state)
    ensures Keeps(c.node, c.state, next.state)
  {
    hide Core, FreshAnswers, Valid, Trimmed, EstablishPhenomenon, ExecuteTools, NormalizeEvidence, ResolveHosts,
         PlanHypotheses, PlanObservations, RouteTools, UpdateHypotheses, GuardStop, BuildPackage, EvaluateReport,
         NextNode, Keeps;
    var s := c.state;
    PlannersKeep(env, s, input);
    RouterKeeps(env, s);
    ClosersKeep(s, input);
    match c.node {
      case PhenomenonNode => PhenomenonKeeps(s, input.scans);
      case Executor => ExecutorKeeps(s, input.outcomes);
      case Normalizer => NormalizerKeeps(s);
      case Updater => UpdaterKeeps(s, input.decision);
      case _ =>
    }
    TrimmedKeeps(c.node, s, Updated(env, c.node, s, input).state);
  }

  lemma UpdaterKeeps(s: State, d: UpdateDecision)
    requires EntryOk(Updater, s)
    ensures UpdateHypotheses(s, d).Next? && Keeps(Updater, s, UpdateHypotheses(s, d).state)
  {
    UpdateHypothesesKeeps(s, d);
    hide Core, UpdateAll, ProposeAll, ConfirmAll, QuestionsReady;
  }

  lemma {:induction false} RecordsOnlyGrow(env: Environment, run: seq<Config>, inputs: seq<Input>, i: nat, k: nat)
    requires IsRun(env, run, inputs) && i <= k < |run| && run[k].At?
    ensures run[i].At?
    ensures run[i].state.results <= run[k].state.results
    ensures Ids(run[i].state.evidence) <= Ids(run[k].state.evidence)
    ensures run[i].state.limits == run[k].state.limits
  {
    hide EntryOk, Fresh, Ids, Visited;
    if i < k {
      assert Visited(env, run[k - 1], inputs[k - 1], run[k]);
      VisitIsAcceptable(env, run[k - 1], inputs[k - 1], run[k]);
      NodesEnteredSoundly(env, run, inputs, k - 1);
      VisitKeeps(env, run[k - 1], inputs[k - 1], run[k]);
      RecordsOnlyGrow(env, run, inputs, i, k - 1);
    }
  }

  /** Whether a run is past the node that writes its hypotheses. */
  predicate IsPlanned(node: Node)
  {
    node != HostResolver && node != PhenomenonNode && node != HypothesisPlanner
  }

  lemma StaysPlanned(env: Environment, c: Config, input: Input, next: Config)
    requires Visited(env, c, input, next) && next.At? && IsPlanned(c.node)
    ensures IsPlanned(next.node)
  {
    hide WithinCeilings, PassesACeiling, EntryOk, Distinct, PlanHypotheses, PlanObservations, RouteTools, ExecuteTools,
         NormalizeEvidence, UpdateHypotheses, GuardStop, BuildPackage, EvaluateReport, FreshAnswers, ResolveHosts,
         EstablishPhenomenon, Trimmed;
  }

  lemma VisitKeepsHypotheses(env: Environment, c: Config, input: Input, next: Config)
    requires Visited(env, c, input, next) && next.At? && EntryOk(c.node, c.state) && IsPlanned(c.node)
    ensures HypothesisIds(c.state.hypotheses) <= HypothesisIds(next.state.hypotheses) && IsPlanned(next.node)
  {
    hide Visited, EntryOk, HypothesisIds;
    StaysPlanned(env, c, input, next);
    VisitKeeps(env, c, input, next);
  }

  /** Once they are planned, hypotheses are only added: every id keeps its place for the rest of the run. */
  lemma {:induction false} HypothesesOnlyGrow(env: Environment, run: seq<Config>, inputs: seq<Input>, i: nat, k: nat)
    requires IsRun(env, run, inputs) && i <= k < |run| && run[k].At? && run[i].At? && IsPlanned(run[i].node)
    ensures HypothesisIds(run[i].state.hypotheses) <= HypothesisIds(run[k].state.hypotheses) && IsPlanned(run[k].node)
  {
    hide EntryOk, Fresh, HypothesisIds, Visited, IsPlanned;
    if i < k {
      assert Visited(env, run[k - 1], inputs[k - 1], run[k]);
      VisitIsAcceptable(env, run[k - 1], inputs[k - 1], run[k]);
      NodesEnteredSoundly(env, run, inputs, k - 1);
      HypothesesOnlyGrow(env, run, inputs, i, k - 1);
      VisitKeepsHypotheses(env, run[k - 1], inputs[k - 1], run[k]);
    }
  }

  lemma StoppedStaysStopped(node: Node, s: State, s': State)
    requires Keeps(node, s, s') && s.stop.Some?
    ensures s'.stop.Some? && s'.results == s.results
  {
  }

  lemma ExecutorIsNotStopped(node: Node, s: State)
    requires EntryOk(node, s) && s.stop.Some?
    ensures node != Executor
  {
  }

  /** Once a run has a reason to stop it keeps one, and no tool is called again. */
  lemma {:induction false} StopIsFinal(env: Environment, run: seq<Config>, inputs: seq<Input>, i: nat, k: nat)
    requires IsRun(env, run, inputs) && i <= k < |run| && run[k].At?
    requires run[i].At? && run[i].state.stop.Some?
    ensures run[k].state.stop.Some? && run[k].state.results == run[i].state.results && run[k].node != Executor
  {
    hide EntryOk, Keeps, Fresh, Visited;
    if i < k {
      assert Visited(env, run[k - 1], inputs[k - 1], run[k]);
      VisitIsAcceptable(env, run[k - 1], inputs[k - 1], run[k]);
      NodesEnteredSoundly(env, run, inputs, k - 1);
      VisitKeeps(env, run[k - 1], inputs[k - 1], run[k]);
      StopIsFinal(env, run, inputs, i, k - 1);
      StoppedStaysStopped(run[k - 1].node, run[k - 1].state, run[k].state);
    }
    NodesEnteredSoundly(env, run, inputs, k);
    ExecutorIsNotStopped(run[k].node, run[k].state);
  }
}
