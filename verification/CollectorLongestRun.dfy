/**
 The bound on the length of a run is reached: for every iteration budget there is a run
 of exactly 6 * max_iterations + 10 visits, two more than the recursion limit the service
 gives the graph.
 */
module CollectorLongestRun {
  import opened Wrappers
  import opened EvidenceMerge
  import opened ToolPolicy
  import opened CollectorState
  import opened CollectorNodes
  import opened CollectorInvariants
  import opened CollectorRun
  import opened CollectorCeilings
  import opened CollectorTheorems

  // ----- one host, one hypothesis, one question -----------------------------

  const HOST := Host("web-1", None, Some("web-1"))

  /** The arguments an event query needs, and the same without the end of its window. */
  const GOOD: Args := map["time_from" := Text("2026-01-01T00:00:00Z"), "time_to" := Text("2026-01-02T00:00:00Z")]
  const BAD: Args := map["time_from" := Text("2026-01-01T00:00:00Z")]

  function OneHost(): Environment
  {
    Environment(["web-1"], (a, b) => a == b, DefaultRegistry(), map[])
  }

  function Ask(args: Args): Question
  {
    Question("why", ["h1"], Timeless, Some("get_incident_events"), args, Some("web-1"), false)
  }

  function Plan(args: Args): Input
  {
    Proposed([Proposal("why", ["h1"], Timeless, "get_incident_events", Some("web-1"), Some(args), false)], None)
  }

  /** Call ids that differ in length. */
  function CallId(n: nat): string { seq(n, i => 'x') }

  function CallIdsUpTo(n: nat): seq<string> { seq(n, i requires 0 <= i < n => CallId(i)) }

  function AnswerTo(n: nat): Input { Called([Answer(ToolResult(CallId(n), "get_incident_events", Empty, [], false))]) }

  const KEEP_GOING := Judged(UpdateDecision([], [], [], None))

  // ----- what of a state decides where the run goes -------------------------

  datatype View = View(limits: Limits, iterations: nat, attempts: nat, questions: seq<Question>, planned: seq<Call>,
                       calls: nat, stopped: bool, answered: bool)

  /** A state of the one-host investigation, seen as what its next steps depend on. */
  ghost predicate Shows(s: State, v: View)
  {
    && s.hosts == [HOST] && HypothesisIds(s.hypotheses) == ["h1"] && CallIds(s.results) == CallIdsUpTo(v.calls)
    && s.fatal.None? && s.callCount == v.calls && |s.lastObservations| <= 1 && |s.rejections| == v.attempts
    && v == View(s.limits, s.iterations, s.attempts, s.questions, s.planned, v.calls, s.stop.Some?,
                 s.lastObservations != [])
  }

  lemma TrimmedShows(s: State, v: View)
    requires Shows(s, v)
    ensures Shows(Trimmed(s), v)
    ensures forall node :: NextNode(node, Trimmed(s)) == NextNode(node, s)
  {
    hide StateCapacity.Rebuild;
  }

  lemma PlannerShows(s: State, v: View, args: Args)
    requires Shows(s, v) && !v.stopped && v.calls < v.limits.maxToolCalls
    ensures Shows(PlanObservations(s, Plan(args).proposals, None, OneHost().registry),
                  v.(iterations := v.iterations + 1, questions := [Ask(args)], planned := []))
  {
    var p := Plan(args).proposals;
    assert p[..0] == [];
    assert Names(s.hosts) == ["web-1"];
    assert ["h1"][..0] == [];
    assert Known(["h1"], HypothesisIds(s.hypotheses)) == ["h1"];
    assert ConsiderAll(p, s, OneHost().registry).questions == [Ask(args)];
  }

  lemma GoodIsComplete()
    ensures var policy := Policy("get_incident_events", Structured, ["time_from", "time_to"], [], None);
            && ArgumentCheck(policy, GOOD) == Allowed
            && ArgumentCheck(policy, BAD) == Refused(policy.name + " is missing required arguments", true)
  {
    assert "2026-01-01T00:00:00Z" != "" && "2026-01-02T00:00:00Z" != "";
    assert Present(GOOD, "time_from") && Present(GOOD, "time_to") && !Present(BAD, "time_to");
    assert ["time_from", "time_to"][1] == "time_to";
  }

  lemma GoodIsGranted(s: State)
    requires s.callCount < s.limits.maxToolCalls
    ensures RouterVerdict(Ask(GOOD), s, 0, OneHost().registry, map[]) == Allowed
    ensures var v := RouterVerdict(Ask(BAD), s, 0, OneHost().registry, map[]); v.Refused? && v.retryable
  {
    GoodIsComplete();
    DefaultEntries();
    hide DefaultRegistry, ArgumentCheck;
  }

  lemma OneQuestion(s: State, args: Args)
    ensures var acc := Routing([], s.unknowns, [], false);
            RouteAll([Ask(args)], s, OneHost().registry, map[])
              == RouteOnce(acc, Ask(args), s, OneHost().registry, map[])
  {
    assert [Ask(args)][..0] == [];
  }

  lemma RouterGrants(s: State, v: View)
    requires Shows(s, v) && v.calls < v.limits.maxToolCalls && v.questions == [Ask(GOOD)]
    ensures var o := RouteTools(s, OneHost().registry, map[]);
            o.Next? && Shows(o.state, v.(planned := [Granted(Ask(GOOD))], attempts := 0))
  {
    GoodIsGranted(s);
    OneQuestion(s, GOOD);
    hide RouterVerdict, RouteAll;
  }

  lemma RouterRefuses(s: State, v: View)
    requires Shows(s, v) && v.calls < v.limits.maxToolCalls && v.questions == [Ask(BAD)]
    requires v.attempts < MAX_ROUTING_ATTEMPTS
    ensures var o := RouteTools(s, OneHost().registry, map[]);
            && o.Next? && o.state.rejections != []
            && Shows(o.state, v.(planned := [], questions := [], attempts := v.attempts + 1))
  {
    GoodIsGranted(s);
    OneQuestion(s, BAD);
    hide RouterVerdict, RouteAll;
  }

  lemma ExecutorShows(s: State, v: View)
    requires Shows(s, v) && |v.planned| == 1
    ensures FreshAnswers(AnswerTo(v.calls).outcomes, s.results)
    ensures Shows(ExecuteTools(s, AnswerTo(v.calls).outcomes), v.(calls := v.calls + 1, answered := true))
  {
    var outcomes := AnswerTo(v.calls).outcomes;
    forall k | 0 <= k < v.calls ensures CallIds(s.results)[k] != CallId(v.calls) {
      assert |CallIdsUpTo(v.calls)[k]| == k;
    }
    var r := outcomes[0].result;
    assert CallIds(s.results + [r]) == CallIds(s.results) + [r.callId];
    assert CallIdsUpTo(v.calls + 1) == CallIdsUpTo(v.calls) + [CallId(v.calls)];
    OneCall(s, outcomes);
    hide CollectAll, CallId;
  }

  lemma OneCall(s: State, outcomes: seq<CallOutcome>)
    requires |s.planned| == |outcomes| == 1 && outcomes[0].Answer?
    ensures CollectAll(s.planned, outcomes, s).results == s.results + [outcomes[0].result]
    ensures CollectAll(s.planned, outcomes, s).observations == [outcomes[0].result]
  {
    assert s.planned[..0] == [] && outcomes[..0] == [];
  }

  lemma NormalizerShows(s: State, v: View)
    requires Shows(s, v) && v.planned != [] && v.answered
    ensures Shows(NormalizeEvidence(s), v)
  {
  }

  lemma UpdaterShows(s: State, v: View)
    requires Shows(s, v) && v.answered
    ensures UpdateHypotheses(s, KEEP_GOING.decision).Next?
    ensures Shows(UpdateHypotheses(s, KEEP_GOING.decision).state, v.(stopped := false))
  {
  }

  lemma GuardShows(s: State, v: View)
    requires Shows(s, v)
    ensures Shows(GuardStop(s, false),
                  v.(stopped := v.stopped || v.calls >= v.limits.maxToolCalls
                     || v.iterations >= v.limits.maxIterations))
  {
  }

  // ----- extending a run ----------------------------------------------------

  ghost predicate Gets(run: seq<Config>, inputs: seq<Input>, visits: nat, node: Node, v: View)
  {
    && |inputs| == visits && IsRun(OneHost(), run, inputs)
    && run[visits].At? && run[visits].node == node && Shows(run[visits].state, v)
  }

  /** Some run is at this node after this many visits, its state showing this much. */
  ghost predicate Reaches(visits: nat, node: Node, v: View)
  {
    exists run, inputs :: Gets(run, inputs, visits, node, v)
  }

  lemma Go(run: seq<Config>, inputs: seq<Input>, visits: nat, node: Node, v: View, input: Input, next: State, v': View)
    requires Gets(run, inputs, visits, node, v) && Acceptable(node, run[visits].state, input)
    requires Updated(OneHost(), node, run[visits].state, input) == Next(next) && Shows(next, v')
    requires v'.iterations <= 20 && v'.attempts <= 20
    ensures Reaches(visits + 1, NextNode(node, next), v')
  {
    var c := Arrive(node, Next(next));
    var run', inputs' := run + [c], inputs + [input];
    StillARun(run, inputs, input, c);
    assert |HypothesisIds(next.hypotheses)| == 1;
    GoesOn(run', inputs', visits, node, next);
    hide Shows, NextNode, Trimmed, Valid;
    TrimmedShows(next, v');
    assert Gets(run', inputs', visits + 1, NextNode(node, next), v');
  }

  lemma StillARun(run: seq<Config>, inputs: seq<Input>, input: Input, next: Config)
    requires IsRun(OneHost(), run, inputs) && Visited(OneHost(), run[|inputs|], input, next)
    ensures IsRun(OneHost(), run + [next], inputs + [input])
  {
    hide Visited, Fresh;
    var run', inputs' := run + [next], inputs + [input];
    forall i | 0 <= i < |inputs'| ensures Visited(OneHost(), run'[i], inputs'[i], run'[i + 1]) {
      if i < |inputs| { assert Visited(OneHost(), run[i], inputs[i], run[i + 1]); }
    }
  }

  lemma RaisedIsNotNext(env: Environment, node: Node, s: State, input: Input)
    requires Acceptable(node, s, input) && Updated(env, node, s, input).Next?
    ensures node == HypothesisPlanner ==> Distinct(HypothesisIds(input.hypotheses))
    ensures node == Router ==> RouteTools(s, env.registry, env.catalog).Next?
  {
  }

  lemma GoesOn(run: seq<Config>, inputs: seq<Input>, i: nat, node: Node, next: State)
    requires IsRun(OneHost(), run, inputs) && i < |inputs| && run[i].At? && run[i].node == node
    requires Acceptable(node, run[i].state, inputs[i])
    requires Updated(OneHost(), node, run[i].state, inputs[i]) == Next(next) && run[i + 1] == Arrive(node, Next(next))
    requires WithinCeilings(next)
    ensures run[i + 1].At?
  {
    hide Visited, Fresh, EntryOk, OnBudget, RouteTools, Valid, Trimmed, NextNode, WithinCeilings, PassesACeiling,
         Updated;
    RunIsSound(OneHost(), run, inputs, i);
    CeilingsArePassedExactly(OneHost(), node, run[i].state, inputs[i]);
    RaisedIsNotNext(OneHost(), node, run[i].state, inputs[i]);
    if node == Router {
      NodesEnteredSoundly(OneHost(), run, inputs, i);
      RouterRaises(run[i].state, OneHost().registry, OneHost().catalog);
    }
    RunsRaiseExactly(OneHost(), run, inputs, i);
  }

  lemma Plans(visits: nat, v: View, args: Args)
    requires Reaches(visits, ObservationPlanner, v) && !v.stopped && v.calls < v.limits.maxToolCalls
    requires v.iterations < 20 && v.attempts <= MAX_ROUTING_ATTEMPTS
    ensures Reaches(visits + 1, Router, v.(iterations := v.iterations + 1, questions := [Ask(args)], planned := []))
  {
    hide Visited, Fresh, Shows, PlanObservations;
    var run: seq<Config>, inputs: seq<Input> :| Gets(run, inputs, visits, ObservationPlanner, v);
    var s := run[visits].state;
    PlannerShows(s, v, args);
    Go(run, inputs, visits, ObservationPlanner, v, Plan(args),
       PlanObservations(s, Plan(args).proposals, None, OneHost().registry),
       v.(iterations := v.iterations + 1, questions := [Ask(args)], planned := []));
  }

  lemma Refuses(visits: nat, v: View)
    requires Reaches(visits, Router, v) && !v.stopped && v.calls < v.limits.maxToolCalls && v.iterations <= 20
    requires v.questions == [Ask(BAD)] && v.attempts < MAX_ROUTING_ATTEMPTS
    ensures Reaches(visits + 1, ObservationPlanner, v.(questions := [], planned := [], attempts := v.attempts + 1))
  {
    hide Visited, Fresh, RouteTools;
    var run: seq<Config>, inputs: seq<Input> :| Gets(run, inputs, visits, Router, v);
    var s := run[visits].state;
    RouterRefuses(s, v);
    Go(run, inputs, visits, Router, v, Nothing, RouteTools(s, OneHost().registry, map[]).state,
       v.(questions := [], planned := [], attempts := v.attempts + 1));
  }

  lemma Grants(visits: nat, v: View)
    requires Reaches(visits, Router, v) && !v.stopped && v.calls < v.limits.maxToolCalls && v.iterations <= 20
        && v.questions == [Ask(GOOD)]
    ensures Reaches(visits + 1, Executor, v.(planned := [Granted(Ask(GOOD))], attempts := 0))
  {
    hide Visited, Fresh, RouteTools;
    var run: seq<Config>, inputs: seq<Input> :| Gets(run, inputs, visits, Router, v);
    var s := run[visits].state;
    RouterGrants(s, v);
    Go(run, inputs, visits, Router, v, Nothing, RouteTools(s, OneHost().registry, map[]).state,
       v.(planned := [Granted(Ask(GOOD))], attempts := 0));
  }

  lemma Executes(visits: nat, v: View)
    requires Reaches(visits, Executor, v) && v.iterations <= 20 && v.attempts <= MAX_ROUTING_ATTEMPTS
        && |v.planned| == 1
    ensures Reaches(visits + 1, Normalizer, v.(calls := v.calls + 1, answered := true))
  {
    hide Visited, Fresh, ExecuteTools, CallId, FreshAnswers;
    var run: seq<Config>, inputs: seq<Input> :| Gets(run, inputs, visits, Executor, v);
    var s := run[visits].state;
    ExecutorShows(s, v);
    Go(run, inputs, visits, Executor, v, AnswerTo(v.calls), ExecuteTools(s, AnswerTo(v.calls).outcomes),
       v.(calls := v.calls + 1, answered := true));
  }

  lemma Normalizes(visits: nat, v: View)
    requires Reaches(visits, Normalizer, v) && v.iterations <= 20 && v.attempts <= MAX_ROUTING_ATTEMPTS
        && v.planned != [] && v.answered
    ensures Reaches(visits + 1, Updater, v)
  {
    hide Visited, Fresh, NormalizeEvidence;
    var run: seq<Config>, inputs: seq<Input> :| Gets(run, inputs, visits, Normalizer, v);
    var s := run[visits].state;
    NormalizerShows(s, v);
    Go(run, inputs, visits, Normalizer, v, Nothing, NormalizeEvidence(s), v);
  }

  lemma Updates(visits: nat, v: View)
    requires Reaches(visits, Updater, v) && v.iterations <= 20 && v.attempts <= MAX_ROUTING_ATTEMPTS && v.answered
    ensures Reaches(visits + 1, Guard, v.(stopped := false))
  {
    hide Visited, Fresh, UpdateHypotheses, Shows;
    var run: seq<Config>, inputs: seq<Input> :| Gets(run, inputs, visits, Updater, v);
    var s := run[visits].state;
    UpdaterShows(s, v);
    Go(run, inputs, visits, Updater, v, KEEP_GOING, UpdateHypotheses(s, KEEP_GOING.decision).state,
       v.(stopped := false));
  }

  lemma Guards(visits: nat, v: View)
    requires Reaches(visits, Guard, v) && v.iterations <= 20 && v.attempts <= MAX_ROUTING_ATTEMPTS
    ensures var stopped := v.stopped || v.calls >= v.limits.maxToolCalls || v.iterations >= v.limits.maxIterations;
            Reaches(visits + 1, if stopped then PackageBuilder else ObservationPlanner, v.(stopped := stopped))
  {
    hide Visited, Fresh, GuardStop;
    var run: seq<Config>, inputs: seq<Input> :| Gets(run, inputs, visits, Guard, v);
    var s := run[visits].state;
    var stopped := v.stopped || v.calls >= v.limits.maxToolCalls || v.iterations >= v.limits.maxIterations;
    GuardShows(s, v);
    Go(run, inputs, visits, Guard, v, Clock(false), GuardStop(s, false), v.(stopped := stopped));
  }

  lemma Ends(visits: nat, v: View)
    requires Reaches(visits, PackageBuilder, v) && v.iterations <= 20 && v.attempts <= MAX_ROUTING_ATTEMPTS
    ensures Reaches(visits + 3, Finished, v)
  {
    hide Visited, Fresh, BuildPackage, EvaluateReport, EntryOk, Shows;
    var run: seq<Config>, inputs: seq<Input> :| Gets(run, inputs, visits, PackageBuilder, v);
    PackageBuilds(run, inputs, visits, v);
    Go(run, inputs, visits, PackageBuilder, v, Nothing, BuildPackage(run[visits].state).state, v);
    run, inputs :| Gets(run, inputs, visits + 1, Writer, v);
    Go(run, inputs, visits + 1, Writer, v, Nothing, run[visits + 1].state, v);
    run, inputs :| Gets(run, inputs, visits + 2, ReportEval, v);
    ReportShows(run[visits + 2].state, v);
    Go(run, inputs, visits + 2, ReportEval, v, Checked(0), EvaluateReport(run[visits + 2].state, 0), v);
  }

  lemma PackageBuilds(run: seq<Config>, inputs: seq<Input>, visits: nat, v: View)
    requires Gets(run, inputs, visits, PackageBuilder, v)
    ensures BuildPackage(run[visits].state).Next? && Shows(BuildPackage(run[visits].state).state, v)
  {
    NodesEnteredSoundly(OneHost(), run, inputs, visits);
    hide Visited, Fresh, Core, PackageValid;
    PackageIsValid(run[visits].state);
  }

  lemma ReportShows(s: State, v: View)
    requires Shows(s, v)
    ensures Shows(EvaluateReport(s, 0), v)
  {
  }

  // ----- the run ------------------------------------------------------------

  /** On entry to the planner after n routed cycles. */
  function AfterCycles(limits: Limits, n: nat): View
  {
    View(limits, n, 0, if n == 0 then [] else [Ask(GOOD)], if n == 0 then [] else [Granted(Ask(GOOD))], n, false, n > 0)
  }

  lemma Cycle(visits: nat, v: View)
    requires Reaches(visits, ObservationPlanner, v) && !v.stopped && v.calls < v.limits.maxToolCalls
    requires v.iterations < 20 && v.attempts <= MAX_ROUTING_ATTEMPTS
    ensures Reaches(visits + 5, Guard,
                    View(v.limits, v.iterations + 1, 0, [Ask(GOOD)], [Granted(Ask(GOOD))], v.calls + 1, false, true))
  {
    hide Reaches;
    Plans(visits, v, GOOD);
    var asked := v.(iterations := v.iterations + 1, questions := [Ask(GOOD)], planned := []);
    Grants(visits + 1, asked);
    var granted := asked.(planned := [Granted(Ask(GOOD))], attempts := 0);
    Executes(visits + 2, granted);
    var done := granted.(calls := v.calls + 1, answered := true);
    Normalizes(visits + 3, done);
    Updates(visits + 4, done);
  }

  lemma RefusedPass(visits: nat, v: View)
    requires Reaches(visits, ObservationPlanner, v) && !v.stopped && v.calls < v.limits.maxToolCalls
    requires v.iterations < 20 && v.attempts <= MAX_ROUTING_ATTEMPTS
    requires v.attempts < MAX_ROUTING_ATTEMPTS
    ensures Reaches(visits + 2, ObservationPlanner,
                    v.(iterations := v.iterations + 1, questions := [], planned := [], attempts := v.attempts + 1))
  {
    hide Reaches;
    Plans(visits, v, BAD);
    Refuses(visits + 1, v.(iterations := v.iterations + 1, questions := [Ask(BAD)], planned := []));
  }

  const START := State([], [], [], [], [], [], [], [], [], map[], 0, 0, Limits(2, 1), None, None, false, [], 0, None)

  function StartWith(limits: Limits): State { START.(limits := limits) }

  const NAMED := SearchTurn([Discovered("web-1", None)], None, None, Refusal)

  lemma FindsTheHost(s: State)
    requires s.results == [] && s.limits.maxToolCalls >= 1
    ensures SearchAll([NAMED, NAMED, NAMED], s, ["web-1"], OneHost().same) == Search([HOST], [], [], true)
    ensures ResolveWanted([HOST], ["web-1"]) == Resolution([HOST], [])
    ensures AddUnasked([HOST], [HOST]) == [HOST]
  {
    var three := [NAMED, NAMED, NAMED];
    assert three[..2] == [NAMED, NAMED] && three[..2][..1] == [NAMED] && three[..2][..1][..0] == [];
    assert NAMED.hosts[..0] == [];
    assert MatchingQuery("web-1", ["web-1"], OneHost().same) == Some("web-1");
    assert AddFound([], NAMED.hosts, ["web-1"], OneHost().same) == [HOST];
    assert SearchAll([NAMED], s, ["web-1"], OneHost().same) == Search([HOST], [], [], true);
    assert SearchAll([NAMED, NAMED], s, ["web-1"], OneHost().same) == Search([HOST], [], [], true);
    assert [HOST][..0] == [] && ["web-1"][..0] == [];
    assert Matches([HOST], "web-1") == [HOST];
  }

  lemma NothingToTrim(s: State)
    requires s.unknowns == [] && s.facts == []
    ensures Trimmed(s) == s
  {
  }

  lemma Starts(limits: Limits)
    requires limits.maxIterations >= 1 && limits.maxToolCalls >= 1
    ensures Reaches(3, ObservationPlanner, AfterCycles(limits, 0))
  {
    hide Visited, EntryOk, Valid, Trimmed, ResolveHosts, EstablishPhenomenon, PlanHypotheses, FreshAnswers;
    var h := Hypothesis("h1", "because", Active, [], [], None);
    var s0 := StartWith(limits);
    var s1 := s0.(hosts := [HOST]);
    var s2 := s1.(hypotheses := [h]);
    StartingStates(limits, h);
    var run: seq<Config>, inputs: seq<Input> := [At(HostResolver, s0)], [];
    run, inputs := Extend(run, inputs, HostResolver, s0, Searched([NAMED, NAMED, NAMED]), s1);
    run, inputs := Extend(run, inputs, PhenomenonNode, s1, Scanned([]), s1);
    run, inputs := Extend(run, inputs, HypothesisPlanner, s1, Hypothesized([h], None), s2);
    assert HypothesisIds([h]) == ["h1"];
    assert Gets(run, inputs, 3, ObservationPlanner, AfterCycles(limits, 0));
  }

  lemma StartingStates(limits: Limits, h: Hypothesis)
    requires limits.maxIterations >= 1 && limits.maxToolCalls >= 1 && Cleared(h) == h
    ensures var s0 := StartWith(limits);
            var s1 := s0.(hosts := [HOST]);
            && FreshAnswers(SearchOutcomes([NAMED, NAMED, NAMED]), []) && FreshAnswers(ScanOutcomes([]), [])
            && ResolveHosts(s0, ["web-1"], OneHost().same, [NAMED, NAMED, NAMED]) == s1
            && EstablishPhenomenon(s1, []) == s1
            && PlanHypotheses(s1, [h], None) == Next(s1.(hypotheses := [h]))
  {
    var s0 := StartWith(limits);
    var s1 := s0.(hosts := [HOST]);
    StartingSearch(s0);
    hide ResolveHosts, FreshAnswers;
    assert EstablishPhenomenon(s1, []) == s1;
    assert ClearedAll([h]) == [h];
  }

  lemma StartingSearch(s: State)
    requires s.results == [] && s.limits.maxToolCalls >= 1 && s.unknowns == [] && s.callCount == 0
    requires s.lastObservations == []
    ensures FreshAnswers(SearchOutcomes([NAMED, NAMED, NAMED]), []) && FreshAnswers(ScanOutcomes([]), [])
    ensures ResolveHosts(s, ["web-1"], OneHost().same, [NAMED, NAMED, NAMED]) == s.(hosts := [HOST])
  {
    FindsTheHost(s);
    hide SearchAll, ResolveWanted, AddUnasked;
    assert s.unknowns + [] + [] == s.unknowns;
  }

  /** One more visit, when nothing is there to trim. */
  lemma Extend(run: seq<Config>, inputs: seq<Input>, node: Node, s: State, input: Input, next: State)
    returns (run': seq<Config>, inputs': seq<Input>)
    requires IsRun(OneHost(), run, inputs) && run[|inputs|] == At(node, s) && Acceptable(node, s, input)
    requires Updated(OneHost(), node, s, input) == Next(next) && next.unknowns == [] && next.facts == []
    requires WithinCeilings(next)
    ensures |inputs'| == |inputs| + 1 && IsRun(OneHost(), run', inputs')
    ensures run'[|inputs'|] == At(NextNode(node, next), next)
  {
    var c := Arrive(node, Next(next));
    run', inputs' := run + [c], inputs + [input];
    StillARun(run, inputs, input, c);
    GoesOn(run', inputs', |inputs|, node, next);
    NothingToTrim(next);
    hide IsRun, Trimmed, Valid;
  }

  lemma {:induction false} Cycles(limits: Limits, n: nat)
    requires n < limits.maxIterations < limits.maxToolCalls && n <= 20
    ensures Reaches(3 + 6 * n, ObservationPlanner, AfterCycles(limits, n))
  {
    hide Reaches;
    if n == 0 {
      Starts(limits);
    } else {
      Cycles(limits, n - 1);
      var v := AfterCycles(limits, n - 1);
      Cycle(3 + 6 * (n - 1), v);
      Guards(3 + 6 * (n - 1) + 5, AfterCycles(limits, n));
    }
  }

  /**
   The longest run: every cycle routed at once but the last, which is refused twice
   first. It counts max_iterations + 2 passes, so the schema's ceiling of 20 on them
   leaves room for it only up to a budget of 18 iterations.
   */
  lemma LongestRun(maxIterations: nat) returns (run: seq<Config>, inputs: seq<Input>)
    requires 1 <= maxIterations <= 18
    ensures IsRun(OneHost(), run, inputs)
    ensures run[0].state.limits.maxIterations == maxIterations && run[|inputs|].At? && run[|inputs|].node == Finished
    ensures |inputs| == 6 * maxIterations + 10
    ensures FinalRefusals(run) == MAX_ROUTING_ATTEMPTS && run[|inputs|].state.iterations == maxIterations + 2
  {
    hide Reaches, Visited, Fresh;
    var limits := Limits(maxIterations + 1, maxIterations);
    var n := maxIterations - 1;
    var v := AfterCycles(limits, n);
    var visits := 3 + 6 * n;
    Cycles(limits, n);
    RefusedPass(visits, v);
    var once := v.(iterations := n + 1, questions := [], planned := [], attempts := 1);
    RefusedPass(visits + 2, once);
    var twice := once.(iterations := n + 2, attempts := 2);
    Cycle(visits + 4, twice);
    var last := View(limits, n + 3, 0, [Ask(GOOD)], [Granted(Ask(GOOD))], n + 1, false, true);
    Guards(visits + 9, last);
    Ends(visits + 10, last.(stopped := true));
    assert Reaches(visits + 13, Finished, last.(stopped := true));
    run, inputs := Witness(visits + 13, Finished, last.(stopped := true));
    SameLimits(run, inputs);
    VisitsAreBounded(OneHost(), run, inputs);
  }

  /** With more, the passes a run is entitled to take it past that ceiling, which raises. */
  lemma CeilingIsPassed(maxIterations: nat) returns (run: seq<Config>, inputs: seq<Input>)
    requires 19 <= maxIterations <= 20
    ensures IsRun(OneHost(), run, inputs) && |inputs| >= 1 && run[|inputs|].Failed?
    ensures run[0].state.limits.maxIterations == maxIterations
    ensures var last := run[|inputs| - 1];
            && last.At? && last.node == ObservationPlanner && last.state.stop.None?
            && last.state.iterations == 20 && last.state.attempts <= MAX_ROUTING_ATTEMPTS
  {
    hide Reaches, Visited, Fresh;
    var limits := Limits(maxIterations + 1, maxIterations);
    var n := maxIterations - 1;
    var v := AfterCycles(limits, n);
    var visits := 3 + 6 * n;
    Cycles(limits, n);
    RefusedPass(visits, v);
    visits, v := visits + 2, v.(iterations := n + 1, questions := [], planned := [], attempts := 1);
    if n + 1 == 19 {
      RefusedPass(visits, v);
      visits, v := visits + 2, v.(iterations := 20, attempts := 2);
    }
    run, inputs := Witness(visits, ObservationPlanner, v);
    SameLimits(run, inputs);
    PlannerShows(run[visits].state, v, GOOD);
    hide PlanObservations, Shows;
    var c := Arrive(ObservationPlanner, Updated(OneHost(), ObservationPlanner, run[visits].state, Plan(GOOD)));
    ShownIterations(PlanObservations(run[visits].state, Plan(GOOD).proposals, None, OneHost().registry),
                    v.(iterations := 21, questions := [Ask(GOOD)], planned := []));
    IsAVisit(run[visits], Plan(GOOD));
    StillARun(run, inputs, Plan(GOOD), c);
    ShownIterations(run[visits].state, v);
    run, inputs := run + [c], inputs + [Plan(GOOD)];
  }

  lemma IsAVisit(c: Config, input: Input)
    requires c.At? && Acceptable(c.node, c.state, input)
    ensures Visited(OneHost(), c, input, Arrive(c.node, Updated(OneHost(), c.node, c.state, input)))
  {
  }

  lemma ShownIterations(s: State, v: View)
    requires Shows(s, v)
    ensures s.iterations == v.iterations && s.attempts == v.attempts && s.limits == v.limits
    ensures s.stop.Some? == v.stopped
  {
  }

  lemma Witness(visits: nat, node: Node, v: View) returns (run: seq<Config>, inputs: seq<Input>)
    requires Reaches(visits, node, v)
    ensures Gets(run, inputs, visits, node, v)
  {
    run, inputs :| Gets(run, inputs, visits, node, v);
  }

  lemma SameLimits(run: seq<Config>, inputs: seq<Input>)
    requires IsRun(OneHost(), run, inputs) && run[|inputs|].At?
    ensures run[0].At? && run[0].state.limits == run[|inputs|].state.limits
  {
    hide Visited;
    RecordsOnlyGrow(OneHost(), run, inputs, 0, |inputs|);
  }

  // ----- exactly when -------------------------------------------------------

  /** A run of a service configured with this many iterations. */
  ghost predicate IsRunWith(maxIterations: nat, env: Environment, run: seq<Config>, inputs: seq<Input>)
  {
    IsRun(env, run, inputs) && run[0].state.limits.maxIterations == maxIterations
  }

  ghost predicate ExceedsLimit(maxIterations: nat, env: Environment, run: seq<Config>, inputs: seq<Input>)
  {
    IsRunWith(maxIterations, env, run, inputs) && |inputs| > 8 + 6 * maxIterations
  }

  ghost predicate RaisesAtPlanner(maxIterations: nat, env: Environment, run: seq<Config>, inputs: seq<Input>, i: nat)
  {
    && IsRunWith(maxIterations, env, run, inputs) && i < |inputs|
    && run[i].At? && run[i].node == ObservationPlanner && run[i + 1].Failed?
  }

  /**
   Over every setting the schema allows: some run exceeds the configured recursion limit
   if and only if max_iterations is at most 18.
   */
  lemma LimitIsExceededExactly(maxIterations: nat)
    requires 1 <= maxIterations <= 20
    ensures (exists env, run, inputs :: ExceedsLimit(maxIterations, env, run, inputs)) <==> maxIterations <= 18
  {
    hide IsRun;
    if maxIterations <= 18 {
      var run, inputs := LongestRun(maxIterations);
      assert ExceedsLimit(maxIterations, OneHost(), run, inputs);
    } else {
      forall env, run, inputs ensures !ExceedsLimit(maxIterations, env, run, inputs) {
        if IsRunWith(maxIterations, env, run, inputs) { CeilingKeepsTheLimit(env, run, inputs); }
      }
    }
  }

  /**
   And the observation planner, whose only exception is the ceiling of 20 on
   iteration_count, raises in some run if and only if max_iterations is at least 19.
   */
  lemma IterationCeilingIsPassedExactly(maxIterations: nat)
    requires 1 <= maxIterations <= 20
    ensures (exists env, run, inputs, i :: RaisesAtPlanner(maxIterations, env, run, inputs, i)) <==> maxIterations >= 19
  {
    hide IsRun;
    if maxIterations >= 19 {
      var run, inputs := CeilingIsPassed(maxIterations);
      assert RaisesAtPlanner(maxIterations, OneHost(), run, inputs, |inputs| - 1);
    } else {
      forall env, run, inputs, i ensures !RaisesAtPlanner(maxIterations, env, run, inputs, i) {
        if RaisesAtPlanner(maxIterations, env, run, inputs, i) { PlannerRaisesLate(env, run, inputs, i); }
      }
    }
  }
}
