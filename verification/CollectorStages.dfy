/**
 What each stage of a run leaves to the next: which questions are asked, what is
 recorded of the answers, when the investigation stops, and what the writer is given.
 */
module CollectorStages {
  import opened Wrappers
  import opened EvidenceMerge
  import opened StateCapacity
  import opened ToolPolicy
  import opened CollectorState
  import opened CollectorNodes
  import opened CollectorInvariants
  import opened CollectorCeilings
  import opened CollectorRun
  import opened CollectorTheorems
  import opened CollectorBatchRuns

  // ----- hypotheses ---------------------------------------------------------

  /** A hypothesis as it is taken up: nothing is held for it or against it yet. */
  predicate TakenUp(h: Hypothesis, proposed: Hypothesis)
  {
    && h.id == proposed.id && h.statement == proposed.statement && h.rationale == proposed.rationale
    && h.status.Active? && h.supporting == [] && h.counter == []
  }

  /** A plan is taken up whole, whatever its author claims of it, and ends the run only when it is empty. */
  lemma PlansAreTakenUp(env: Environment, run: seq<Config>, inputs: seq<Input>, i: nat)
    requires IsRun(env, run, inputs) && i < |inputs| && run[i].At? && run[i].node == HypothesisPlanner && run[i + 1].At?
    ensures inputs[i].Hypothesized?
    ensures var proposed := inputs[i].hypotheses;
            var s := run[i + 1].state;
            && |s.hypotheses| == |proposed|
            && (forall n | 0 <= n < |proposed| :: TakenUp(s.hypotheses[n], proposed[n]))
            && (s.stop.Some? <==> proposed == [])
            && (proposed == [] && inputs[i].planStop.Some? ==> s.stop == inputs[i].planStop)
  {
    hide Visited, Fresh, EntryOk, Trimmed, Distinct;
    NextState(env, run, inputs, i);
    var o := PlanHypotheses(run[i].state, inputs[i].hypotheses, inputs[i].planStop);
    TrimmedBatch(o.state);
    TrimmedStop(o.state);
  }

  lemma TrimmedStop(s: State)
    ensures var t := Trimmed(s);
            && t.stop == s.stop && t.iterations == s.iterations && t.limitReached == s.limitReached
            && t.results == s.results && t.evidence == s.evidence && t.hosts == s.hosts && t.package == s.package
            && t.attempts == s.attempts && t.rejections == s.rejections && t.fatal == s.fatal
  {
    hide StateCapacity.Rebuild;
  }

  // ----- questions ----------------------------------------------------------

  /** A proposal that names a hypothesis at stake, readable arguments, and no host but a resolved one. */
  predicate Usable(s: State, p: Proposal)
  {
    && (exists h :: h in p.hypotheses && h in HypothesisIds(s.hypotheses))
    && p.args.Some?
    && (p.host.Some? ==> p.host.value in Names(s.hosts))
  }

  function UsableOf(s: State, proposals: seq<Proposal>): seq<Proposal>
  {
    if proposals == [] then []
    else
      var p := proposals[|proposals| - 1];
      UsableOf(s, proposals[..|proposals| - 1]) + (if Usable(s, p) then [p] else [])
  }

  /** The question a usable proposal becomes. Only a generic tool can be given leave to be one. */
  ghost predicate AsksAs(s: State, registry: Registry, q: Question, p: Proposal)
  {
    && q.text == p.text && q.scope == p.scope && q.tool == Some(p.tool) && Some(q.args) == p.args
    && (forall h :: h in q.hypotheses <==> h in p.hypotheses && h in HypothesisIds(s.hypotheses))
    && q.host == (if p.host.Some? then p.host else if |s.hosts| == 1 then Some(s.hosts[0].name) else None)
    && (q.genericAllowed <==> p.genericAllowed && p.tool in registry && registry[p.tool].kind.Generic?)
  }

  /** How many calls the budget still allows. */
  function Room(s: State): nat
  {
    if s.callCount <= s.limits.maxToolCalls then s.limits.maxToolCalls - s.callCount else 0
  }

  /** How many proposals are looked at: all, unless the budget runs out before. */
  function LookedAt(s: State, proposals: seq<Proposal>): nat
  {
    if proposals == [] then 0
    else
      var before := LookedAt(s, proposals[..|proposals| - 1]);
      if before < |proposals| - 1 || |UsableOf(s, proposals[..|proposals| - 1])| >= Room(s) then before else before + 1
  }

  /** The usable proposals, as many as the budget has room for, and a note for each of the others looked at. */
  ghost predicate KeptExactly(s: State, registry: Registry, proposals: seq<Proposal>, q: Questions)
  {
    var usable := UsableOf(s, proposals);
    var lookedAt := LookedAt(s, proposals);
    && |q.questions| == Least(|usable|, Room(s))
    && (forall n | 0 <= n < |q.questions| :: AsksAs(s, registry, q.questions[n], usable[n]))
    && |q.questions| <= lookedAt <= |proposals|
    && |q.unknowns| == |s.unknowns| + (lookedAt - |q.questions|) + (if lookedAt < |proposals| then 1 else 0)
    && (q.done <==> lookedAt < |proposals|)
    && (lookedAt < |proposals| ==> |q.questions| == Room(s))
  }

  lemma UsableAsks(s: State, registry: Registry, acc: Questions, p: Proposal)
    requires !acc.done && |acc.questions| < Room(s)
    ensures var after := ConsiderOnce(acc, p, s, registry);
            && !after.done
            && (if Usable(s, p)
                then after.unknowns == acc.unknowns && |after.questions| == |acc.questions| + 1
                     && acc.questions <= after.questions
                     && AsksAs(s, registry, after.questions[|acc.questions|], p)
                else after.questions == acc.questions && |after.unknowns| == |acc.unknowns| + 1)
  {
    KnownAreKnown(p.hypotheses, HypothesisIds(s.hypotheses));
    var known := Known(p.hypotheses, HypothesisIds(s.hypotheses));
    if known != [] { assert known[0] in known; }
    if |s.hosts| == 1 { assert Names(s.hosts)[0] == s.hosts[0].name; }
    hide Known, HypothesisIds;
  }

  lemma {:induction false} ConsideredExactly(s: State, registry: Registry, proposals: seq<Proposal>)
    ensures KeptExactly(s, registry, proposals, ConsiderAll(proposals, s, registry))
  {
    if proposals != [] {
      var k := |proposals| - 1;
      ConsideredExactly(s, registry, proposals[..k]);
      var acc := ConsiderAll(proposals[..k], s, registry);
      hide AsksAs, Usable;
      if !acc.done && |acc.questions| < Room(s) {
        UsableAsks(s, registry, acc, proposals[k]);
        hide ConsiderOnce;
        assert UsableOf(s, proposals)[..|UsableOf(s, proposals[..k])|] == UsableOf(s, proposals[..k]);
      } else {
        NoneAfterTheBudget(s, registry, acc, proposals[k]);
        hide ConsiderOnce;
        assert UsableOf(s, proposals)[..|UsableOf(s, proposals[..k])|] == UsableOf(s, proposals[..k]);
      }
    }
  }

  lemma NoneAfterTheBudget(s: State, registry: Registry, acc: Questions, p: Proposal)
    requires acc.done || |acc.questions| >= Room(s)
    ensures var after := ConsiderOnce(acc, p, s, registry);
            && after.done && after.questions == acc.questions
            && |after.unknowns| == |acc.unknowns| + (if acc.done then 0 else 1)
  {
  }

  /** What the observation planner leaves: a counted pass, and a reason to stop if nothing is asked. */
  ghost predicate PlannedExactly(s: State, registry: Registry, proposals: seq<Proposal>, stop: Option<string>,
                                 after: State)
  {
    && after.iterations == s.iterations + 1 && after.planned == []
    && |after.questions| == Least(|UsableOf(s, proposals)|, Room(s))
    && (forall n | 0 <= n < |after.questions| :: AsksAs(s, registry, after.questions[n], UsableOf(s, proposals)[n]))
    && (after.stop.Some? <==> after.questions == [])
    && (proposals == [] && stop.Some? ==> after.stop == stop)
  }

  lemma ObservationsExactly(s: State, registry: Registry, proposals: seq<Proposal>, stop: Option<string>)
    requires s.stop.None?
    ensures PlannedExactly(s, registry, proposals, stop, PlanObservations(s, proposals, stop, registry))
  {
    ConsideredExactly(s, registry, proposals);
    hide ConsiderAll, AsksAs, Usable;
  }

  /** In every run: the planner asks exactly the usable questions it has budget for, or stops the run. */
  lemma QuestionsAreAskedExactly(env: Environment, run: seq<Config>, inputs: seq<Input>, i: nat)
    requires IsRun(env, run, inputs) && i < |inputs| && run[i].At? && run[i].node == ObservationPlanner
        && run[i + 1].At?
    ensures inputs[i].Proposed? && run[i + 1].node == Router
    ensures run[i].state.stop.None? ==>
              PlannedExactly(run[i].state, env.registry, inputs[i].proposals, inputs[i].observationStop,
                             run[i + 1].state)
    ensures run[i].state.stop.Some? ==> run[i + 1].state == Trimmed(run[i].state)
  {
    hide Visited, Fresh, EntryOk, PlanObservations, PlannedExactly, Trimmed;
    NextState(env, run, inputs, i);
    var s := run[i].state;
    var after := PlanObservations(s, inputs[i].proposals, inputs[i].observationStop, env.registry);
    if s.stop.None? {
      ObservationsExactly(s, env.registry, inputs[i].proposals, inputs[i].observationStop);
      TrimmedPlan(s, env.registry, inputs[i].proposals, inputs[i].observationStop, after);
    } else {
      StoppedPlansNothing(s, env.registry, inputs[i].proposals, inputs[i].observationStop);
    }
  }

  lemma StoppedPlansNothing(s: State, registry: Registry, proposals: seq<Proposal>, stop: Option<string>)
    requires s.stop.Some?
    ensures PlanObservations(s, proposals, stop, registry) == s
  {
  }

  lemma TrimmedPlan(s: State, registry: Registry, proposals: seq<Proposal>, stop: Option<string>, after: State)
    requires PlannedExactly(s, registry, proposals, stop, after)
    ensures PlannedExactly(s, registry, proposals, stop, Trimmed(after))
  {
    TrimmedBatch(after);
    TrimmedStop(after);
    hide Trimmed, AsksAs, Usable, UsableOf;
  }

  // ----- calls --------------------------------------------------------------

  function AnswersIn(outcomes: seq<CallOutcome>): seq<ToolResult>
  {
    if outcomes == [] then []
    else
      var o := outcomes[|outcomes| - 1];
      AnswersIn(outcomes[..|outcomes| - 1]) + (if o.Answer? then [o.result] else [])
  }

  lemma {:induction false} CollectedExactly(s: State, calls: seq<Call>, outcomes: seq<CallOutcome>)
    requires |outcomes| == |calls|
    ensures var e := CollectAll(calls, outcomes, s);
            e.results == s.results + AnswersIn(outcomes) && e.observations == AnswersIn(outcomes)
  {
    if calls != [] {
      var k := |calls| - 1;
      CollectedExactly(s, calls[..k], outcomes[..k]);
    } else {
      assert s.results + [] == s.results;
    }
  }

  /** In every run: the answers of a batch go on record in its order, and are what is read next; exceptions are not. */
  lemma AnswersAreRecorded(env: Environment, run: seq<Config>, inputs: seq<Input>, i: nat)
    requires IsRun(env, run, inputs) && i < |inputs| && run[i].At? && run[i].node == Executor && run[i + 1].At?
    ensures inputs[i].Called? && run[i + 1].node == Normalizer
    ensures run[i + 1].state.results == run[i].state.results + AnswersIn(inputs[i].outcomes)
    ensures run[i + 1].state.lastObservations == AnswersIn(inputs[i].outcomes)
    ensures run[i + 1].state.stop == run[i].state.stop && run[i + 1].state.iterations == run[i].state.iterations
  {
    hide Visited, Fresh, Trimmed, CollectAll, FreshAnswers, Core;
    NextState(env, run, inputs, i);
    var s := run[i].state;
    CollectedExactly(s, s.planned, inputs[i].outcomes);
    TrimmedBatch(ExecuteTools(s, inputs[i].outcomes));
    TrimmedStop(ExecuteTools(s, inputs[i].outcomes));
  }

  // ----- the guard ----------------------------------------------------------

  /** A limit of the investigation that is used up. */
  predicate UsedUp(s: State, overtime: bool)
  {
    s.callCount >= s.limits.maxToolCalls || s.iterations >= s.limits.maxIterations || overtime
  }

  lemma GuardExactly(s: State, overtime: bool)
    ensures var after := GuardStop(s, overtime);
            && (after.stop.Some? <==> s.stop.Some? || s.fatal.Some? || s.hosts == [] || UsedUp(s, overtime))
            && (after.limitReached <==> s.limitReached || (s.fatal.None? && s.hosts != [] && UsedUp(s, overtime)))
            && after == s.(stop := after.stop, limitReached := after.limitReached)
            && (s.fatal.None? && s.hosts != [] && !UsedUp(s, overtime) ==> after == s)
            && (s.fatal.None? && s.hosts != [] && UsedUp(s, overtime) ==>
                  after.stop == Some(if s.callCount >= s.limits.maxToolCalls then "maximum tool-call budget reached"
                                     else if s.iterations >= s.limits.maxIterations
                                     then "maximum investigation iterations reached"
                                     else "maximum investigation duration reached"))
            && (s.fatal.Some? ==> after.stop == Some("fatal state error: " + s.fatal.value))
  {
  }

  /**
   In every run: the guard ends the investigation if and only if there is a reason to stop
   already, an error to report, or a limit used up: calls, iterations or time.
   */
  lemma GuardEndsExactly(env: Environment, run: seq<Config>, inputs: seq<Input>, i: nat)
    requires IsRun(env, run, inputs) && i < |inputs| && run[i].At? && run[i].node == Guard && run[i + 1].At?
    ensures inputs[i].Clock?
    ensures var s := run[i].state;
            && (run[i + 1].node == PackageBuilder
                <==> s.stop.Some? || s.fatal.Some? || UsedUp(s, inputs[i].overtime))
            && (run[i + 1].node != PackageBuilder ==> run[i + 1].node == ObservationPlanner)
            && (run[i + 1].state.limitReached <==> s.limitReached || (s.fatal.None? && UsedUp(s, inputs[i].overtime)))
  {
    hide Visited, Fresh, Trimmed, GuardStop, Core;
    NextState(env, run, inputs, i);
    GuardExactly(run[i].state, inputs[i].overtime);
    TrimmedStop(GuardStop(run[i].state, inputs[i].overtime));
  }

  // ----- what a node leaves alone -------------------------------------------

  /** A state that differs from this one in these fields at most; unknowns are counted elsewhere. */
  predicate WritesOnly(node: Node, s: State, next: State)
  {
    match node
    case HostResolver =>
      next == s.(hosts := next.hosts, unknowns := next.unknowns, results := next.results, callCount := next.callCount,
                 purposes := next.purposes, lastObservations := next.lastObservations, stop := next.stop)
    case PhenomenonNode =>
      next == s.(evidence := next.evidence, unknowns := next.unknowns, results := next.results,
                 callCount := next.callCount, purposes := next.purposes, lastObservations := next.lastObservations)
    case HypothesisPlanner => next == s.(hypotheses := next.hypotheses, stop := next.stop)
    case ObservationPlanner =>
      next == s.(questions := next.questions, planned := next.planned, unknowns := next.unknowns,
                 iterations := next.iterations, stop := next.stop)
    case Router =>
      next == s.(planned := next.planned, questions := next.questions, unknowns := next.unknowns,
                 rejections := next.rejections, attempts := next.attempts, stop := next.stop)
    case Executor =>
      next == s.(results := next.results, callCount := next.callCount, unknowns := next.unknowns,
                 purposes := next.purposes, lastObservations := next.lastObservations, fatal := next.fatal)
    case Normalizer => next == s.(evidence := next.evidence, unknowns := next.unknowns, fatal := next.fatal)
    case Updater =>
      next == s.(hypotheses := next.hypotheses, facts := next.facts, unknowns := next.unknowns, stop := next.stop)
    case Guard => next == s.(stop := next.stop, limitReached := next.limitReached)
    case PackageBuilder => next == s.(package := next.package)
    case ReportEval => next == s.(unknowns := next.unknowns)
    case _ => next == s
  }

  lemma PlannersWriteTheirOwn(env: Environment, s: State, input: Input)
    ensures input.Searched? ==> WritesOnly(HostResolver, s, ResolveHosts(s, env.wanted, env.same, input.turns))
    ensures input.Scanned? ==> WritesOnly(PhenomenonNode, s, EstablishPhenomenon(s, input.scans))
    ensures input.Hypothesized? && PlanHypotheses(s, input.hypotheses, input.planStop).Next? ==>
              WritesOnly(HypothesisPlanner, s, PlanHypotheses(s, input.hypotheses, input.planStop).state)
    ensures input.Proposed? ==>
              WritesOnly(ObservationPlanner, s,
                         PlanObservations(s, input.proposals, input.observationStop, env.registry))
  {
    hide SearchAll, ResolveWanted, AddUnasked, SetPurposes, ScanAll, ConsiderAll, Distinct, ClearedAll;
  }

  lemma CallersWriteTheirOwn(env: Environment, s: State, input: Input)
    ensures RouteTools(s, env.registry, env.catalog).Next? ==>
              WritesOnly(Router, s, RouteTools(s, env.registry, env.catalog).state)
    ensures input.Called? && |input.outcomes| == |s.planned| ==>
              WritesOnly(Executor, s, ExecuteTools(s, input.outcomes))
    ensures WritesOnly(Normalizer, s, NormalizeEvidence(s))
  {
    hide RouteAll, CollectAll, NormalizeAll;
  }

  lemma ClosersWriteTheirOwn(s: State, input: Input)
    ensures input.Judged? && UpdateHypotheses(s, input.decision).Next? ==>
              WritesOnly(Updater, s, UpdateHypotheses(s, input.decision).state)
    ensures input.Clock? ==> WritesOnly(Guard, s, GuardStop(s, input.overtime))
    ensures BuildPackage(s).Next? ==> WritesOnly(PackageBuilder, s, BuildPackage(s).state)
    ensures input.Checked? ==> WritesOnly(ReportEval, s, EvaluateReport(s, input.findings))
  {
    hide UpdateAll, ProposeAll, ConfirmAll, PackageValid, PackageCalls, PackageHosts, PackageHypotheses;
  }

  lemma StandsStill(s: State)
    ensures WritesOnly(Writer, s, s)
  {
  }
}
