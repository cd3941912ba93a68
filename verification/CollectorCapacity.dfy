/**
 The two bounded lists over whole runs: what a run has reported stays reported, in place,
 and neither list ever passes its ceiling.
 */
module CollectorCapacity {
  import opened Wrappers
  import opened EvidenceMerge
  import opened StateCapacity
  import opened ToolPolicy
  import opened CollectorState
  import opened CollectorNodes
  import opened CollectorInvariants
  import opened CollectorRun
  import opened CollectorTheorems

  predicate Ordinary(notes: seq<Unknown>)
  {
    forall u | u in notes :: !u.IsNotice()
  }

  /** Entries were only appended, and none of them is a capacity notice. */
  predicate Grows(before: seq<Unknown>, after: seq<Unknown>)
  {
    before <= after && Ordinary(after[|before|..])
  }

  lemma GrowsBy(before: seq<Unknown>, after: seq<Unknown>, more: seq<Unknown>)
    requires Grows(before, after) && Ordinary(more)
    ensures Grows(before, after + more)
  {
    assert (after + more)[|before|..] == after[|before|..] + more;
  }

  lemma GrowsStill(before: seq<Unknown>)
    ensures Grows(before, before)
  {
  }

  // ----- no node reports under the notice's code ----------------------------

  lemma SearchCodes()
    ensures Ordinary([Note("host_search_budget_exhausted")]) && Ordinary([Note("host_search_unusable")])
    ensures Ordinary([Note("host_search_blocked")]) && Ordinary([Note("host_search_error")])
    ensures Ordinary([Note("host_ambiguous")]) && Ordinary([Note("host_not_found")]) && Ordinary([])
  {
  }

  lemma ScanCodes()
    ensures Ordinary([Note("phenomenon_scan_unresolved_host")]) && Ordinary([Note("phenomenon_scan_budget_exhausted")])
    ensures Ordinary([Note("phenomenon_scan_unusable")]) && Ordinary([Note("phenomenon_scan_blocked")])
    ensures Ordinary([Note("phenomenon_scan_error")]) && Ordinary([])
  {
  }

  lemma PlannerCodes()
    ensures Ordinary([Note("observation_budget_exhausted")]) && Ordinary([Note("observation_unanchored")])
    ensures Ordinary([Note("candidate_unusable")]) && Ordinary([Note("tool_routing_blocked")])
  {
    assert "observation_unanchored"[0] == 'o' && CAPACITY_NOTICE[0] == 's';
  }

  lemma CallCodes(r: ToolResult)
    ensures Ordinary([Note("tool_call_failed")]) && Ordinary(CallNotes(r))
    ensures Ordinary([Note("observation_unplanned")]) && Ordinary([Note("observation_unhosted")])
  {
  }

  lemma SupersededCodes(n: nat)
    ensures Ordinary(seq(n, i => Note("evidence_superseded")))
    ensures Ordinary([Note("evidence_capacity_reached")]) && Ordinary([])
  {
  }

  lemma MergeCodes(m: Merge)
    ensures Ordinary(MergeNotes(m))
  {
    SupersededCodes(|m.superseded|);
    hide Ordinary;
    var superseded := seq(|m.superseded|, i => Note("evidence_superseded"));
    OrdinaryJoin(superseded, [Note("evidence_capacity_reached")]);
    OrdinaryJoin(superseded, []);
    assert MergeNotes(m) == superseded + (if m.dropped > 0 then [Note("evidence_capacity_reached")] else []);
  }

  lemma CitationCodes()
    ensures Ordinary([Note("hypothesis_update_evidence_from_failed_call")]) && Ordinary([])
    ensures Ordinary([Note("hypothesis_update_evidence_dropped")])
  {
  }

  lemma UpdateCodes(u: Update, s: State)
    ensures Ordinary(UpdateNotes(u, s))
  {
    CitationCodes();
    hide Ordinary, Note, Known, Without, FromFailure, Ids;
    var failed := [Note("hypothesis_update_evidence_from_failed_call")];
    var dropped := [Note("hypothesis_update_evidence_dropped")];
    OrdinaryJoin(failed, dropped);
    OrdinaryJoin(failed, []);
    OrdinaryJoin([], dropped);
    OrdinaryJoin([], []);
  }

  lemma ReusedCode()
    ensures Ordinary([Note("hypothesis_id_reused")]) && Ordinary([Note("known_fact_evidence_missing")])
    ensures Ordinary([Note("hypothesis_update_unknown_hypothesis")])
  {
  }

  // ----- every fold only appends --------------------------------------------
  lemma {:induction false} SearchGrows(turns: seq<SearchTurn>, s: State, wanted: seq<string>,
                                       same: (string, string) -> bool)
    ensures Ordinary(SearchAll(turns, s, wanted, same).unknowns)
  {
    SearchCodes();
    if turns != [] {
      hide Ordinary, AddFound;
      var k := |turns| - 1;
      SearchGrows(turns[..k], s, wanted, same);
      var acc := SearchAll(turns[..k], s, wanted, same);
      OrdinaryJoin(acc.unknowns, [Note("host_search_budget_exhausted")]);
      OrdinaryJoin(acc.unknowns, [Note("host_search_unusable")]);
      OrdinaryJoin(acc.unknowns, [Note("host_search_blocked")]);
      OrdinaryJoin(acc.unknowns, [Note("host_search_error")]);
      OrdinaryJoin(acc.unknowns, []);
    }
  }

  lemma OrdinaryJoin(a: seq<Unknown>, b: seq<Unknown>)
    requires Ordinary(a) && Ordinary(b)
    ensures Ordinary(a + b)
  {
  }

  lemma {:induction false} ResolvingGrows(found: seq<Host>, wanted: seq<string>)
    ensures Ordinary(ResolveWanted(found, wanted).unknowns)
  {
    SearchCodes();
    if wanted != [] {
      hide Ordinary, Matches;
      var k := |wanted| - 1;
      ResolvingGrows(found, wanted[..k]);
      OrdinaryJoin(ResolveWanted(found, wanted[..k]).unknowns, [Note("host_ambiguous")]);
      OrdinaryJoin(ResolveWanted(found, wanted[..k]).unknowns, [Note("host_not_found")]);
    }
  }

  lemma {:induction false} ScanGrows(scans: seq<Scan>, s: State)
    ensures Grows(s.unknowns, ScanAll(scans, s).unknowns)
  {
    if scans == [] {
      GrowsStill(s.unknowns);
    } else {
      hide Grows, Ordinary, MergeNotes, Note;
      var k := |scans| - 1;
      ScanGrows(scans[..k], s);
      ScanOnceGrows(s.unknowns, ScanAll(scans[..k], s), scans[k], s);
    }
  }

  lemma ScanOnceGrows(before: seq<Unknown>, acc: Gathered, scan: Scan, s: State)
    requires Grows(before, acc.unknowns)
    ensures Grows(before, ScanOnce(acc, scan, s).unknowns)
  {
    hide Grows, Ordinary, MergeNotes, Note;
    ScanCodes();
    GrowsBy(before, acc.unknowns, [Note("phenomenon_scan_unresolved_host")]);
    GrowsBy(before, acc.unknowns, [Note("phenomenon_scan_budget_exhausted")]);
    GrowsBy(before, acc.unknowns, [Note("phenomenon_scan_unusable")]);
    GrowsBy(before, acc.unknowns, [Note("phenomenon_scan_blocked")]);
    if scan.outcome.Answer? {
      var r := scan.outcome.result;
      var m := MergeInto(acc.evidence, Normalize(r), EVIDENCE_CAPACITY);
      var errors := if r.status == Error then [Note("phenomenon_scan_error")] else [];
      MergeCodes(m);
      GrowsBy(before, acc.unknowns, errors);
      GrowsBy(before, acc.unknowns + errors, MergeNotes(m));
    }
  }

  lemma {:induction false} ConsideringGrows(proposals: seq<Proposal>, s: State, registry: Registry)
    ensures Grows(s.unknowns, ConsiderAll(proposals, s, registry).unknowns)
  {
    if proposals == [] {
      GrowsStill(s.unknowns);
    } else {
      hide Grows, Ordinary, Note, Known, AssociatedHost, HypothesisIds, Names;
      var k := |proposals| - 1;
      ConsideringGrows(proposals[..k], s, registry);
      var noted := ConsiderAll(proposals[..k], s, registry).unknowns;
      PlannerCodes();
      GrowsBy(s.unknowns, noted, [Note("observation_budget_exhausted")]);
      GrowsBy(s.unknowns, noted, [Note("observation_unanchored")]);
      GrowsBy(s.unknowns, noted, [Note("candidate_unusable")]);
    }
  }

  lemma {:induction false} RoutingGrows(questions: seq<Question>, s: State, registry: Registry, catalog: Catalog)
    ensures Grows(s.unknowns, RouteAll(questions, s, registry, catalog).unknowns)
  {
    if questions == [] {
      GrowsStill(s.unknowns);
    } else {
      hide Grows, Ordinary, Note, RouterVerdict;
      var k := |questions| - 1;
      RoutingGrows(questions[..k], s, registry, catalog);
      PlannerCodes();
      GrowsBy(s.unknowns, RouteAll(questions[..k], s, registry, catalog).unknowns, [Note("tool_routing_blocked")]);
    }
  }

  lemma {:induction false} CollectingGrows(calls: seq<Call>, outcomes: seq<CallOutcome>, s: State)
    requires |outcomes| == |calls|
    ensures Grows(s.unknowns, CollectAll(calls, outcomes, s).unknowns)
  {
    if calls == [] {
      GrowsStill(s.unknowns);
    } else {
      hide Grows, Ordinary, Note, CallNotes;
      var k := |calls| - 1;
      CollectingGrows(calls[..k], outcomes[..k], s);
      var noted := CollectAll(calls[..k], outcomes[..k], s).unknowns;
      match outcomes[k]
      case Refusal =>
        CallCodes(ToolResult("", "", Ok, [], false));
        GrowsBy(s.unknowns, noted, [Note("tool_call_failed")]);
      case Answer(r) =>
        CallCodes(r);
        GrowsBy(s.unknowns, noted, CallNotes(r));
    }
  }

  lemma {:induction false} NormalizingGrows(observations: seq<ToolResult>, s: State)
    ensures Grows(s.unknowns, NormalizeAll(observations, s).unknowns)
  {
    if observations == [] {
      GrowsStill(s.unknowns);
    } else {
      hide Grows, Ordinary, Note, MergeNotes, PlanFor, Hosted;
      var k := |observations| - 1;
      NormalizingGrows(observations[..k], s);
      var acc := NormalizeAll(observations[..k], s);
      var m := MergeInto(acc.evidence, Normalize(observations[k]), EVIDENCE_CAPACITY);
      CallCodes(observations[k]);
      MergeCodes(m);
      GrowsBy(s.unknowns, acc.unknowns, [Note("observation_unplanned")]);
      GrowsBy(s.unknowns, acc.unknowns, [Note("observation_unhosted")]);
      GrowsBy(s.unknowns, acc.unknowns, MergeNotes(m));
    }
  }

  lemma {:induction false} UpdatingGrows(updates: seq<Update>, s: State)
    ensures Grows(s.unknowns, UpdateAll(updates, s).unknowns)
  {
    if updates == [] {
      GrowsStill(s.unknowns);
    } else {
      hide Grows, Ordinary, Note, UpdateNotes, Revise, IndexOf;
      var k := |updates| - 1;
      UpdatingGrows(updates[..k], s);
      var noted := UpdateAll(updates[..k], s).unknowns;
      UpdateCodes(updates[k], s);
      ReusedCode();
      GrowsBy(s.unknowns, noted, [Note("hypothesis_update_unknown_hypothesis")]);
      GrowsBy(s.unknowns, noted, UpdateNotes(updates[k], s));
    }
  }

  lemma {:induction false} ProposingGrows(before: seq<Unknown>, acc: Revised, proposed: seq<Hypothesis>)
    requires Grows(before, acc.unknowns)
    ensures Grows(before, ProposeAll(acc, proposed).unknowns)
  {
    if proposed != [] {
      hide Grows, Ordinary, Note, HypothesisIds;
      var k := |proposed| - 1;
      ProposingGrows(before, acc, proposed[..k]);
      ReusedCode();
      GrowsBy(before, ProposeAll(acc, proposed[..k]).unknowns, [Note("hypothesis_id_reused")]);
    }
  }

  lemma {:induction false} ConfirmingGrows(before: seq<Unknown>, acc: Confirmed, newFacts: seq<Fact>, s: State)
    requires Grows(before, acc.unknowns)
    ensures Grows(before, ConfirmAll(acc, newFacts, s).unknowns)
    ensures acc.facts <= ConfirmAll(acc, newFacts, s).facts
  {
    if newFacts != [] {
      hide Grows, Ordinary, Note, Within, Ids;
      var k := |newFacts| - 1;
      ConfirmingGrows(before, acc, newFacts[..k], s);
      ReusedCode();
      GrowsBy(before, ConfirmAll(acc, newFacts[..k], s).unknowns, [Note("known_fact_evidence_missing")]);
    }
  }

  // ----- every visit only appends -------------------------------------------

  /** What one node leaves of the two lists, before the trim. */
  predicate Reports(s: State, s': State)
  {
    Grows(s.unknowns, s'.unknowns) && s.facts <= s'.facts
  }

  lemma SearchReports(s: State, wanted: seq<string>, same: (string, string) -> bool, turns: seq<SearchTurn>)
    ensures Reports(s, ResolveHosts(s, wanted, same, turns))
  {
    hide Grows, Ordinary, SearchAll, ResolveWanted, AddUnasked, SetPurposes;
    var search := SearchAll(turns, s, wanted, same);
    var resolution := ResolveWanted(search.found, wanted);
    GrowsStill(s.unknowns);
    SearchGrows(turns, s, wanted, same);
    ResolvingGrows(search.found, wanted);
    GrowsBy(s.unknowns, s.unknowns, search.unknowns);
    GrowsBy(s.unknowns, s.unknowns + search.unknowns, resolution.unknowns);
  }

  lemma UpdateReports(s: State, d: UpdateDecision)
    requires s.lastObservations != []
    ensures UpdateHypotheses(s, d).Next? && Reports(s, UpdateHypotheses(s, d).state)
  {
    hide Grows, UpdateAll, ProposeAll, ConfirmAll;
    UpdatingGrows(d.updates, s);
    ProposingGrows(s.unknowns, UpdateAll(d.updates, s), d.newHypotheses);
    var revised := ProposeAll(UpdateAll(d.updates, s), d.newHypotheses);
    ConfirmingGrows(s.unknowns, Confirmed(s.facts, revised.unknowns), d.newFacts, s);
  }

  lemma ScanReports(s: State, scans: seq<Scan>)
    ensures Reports(s, EstablishPhenomenon(s, scans))
  {
    hide Grows, ScanAll;
    ScanGrows(scans, s);
  }

  lemma PlannerReports(s: State, proposals: seq<Proposal>, stop: Option<string>, registry: Registry)
    ensures Reports(s, PlanObservations(s, proposals, stop, registry))
  {
    hide Grows, ConsiderAll;
    GrowsStill(s.unknowns);
    ConsideringGrows(proposals, s, registry);
  }

  lemma RouterReports(s: State, registry: Registry, catalog: Catalog)
    ensures RouteTools(s, registry, catalog).Next? ==> Reports(s, RouteTools(s, registry, catalog).state)
  {
    hide Grows, RouteAll;
    GrowsStill(s.unknowns);
    RoutingGrows(s.questions, s, registry, catalog);
  }

  lemma ExecutorReports(s: State, outcomes: seq<CallOutcome>)
    requires |outcomes| == |s.planned|
    ensures Reports(s, ExecuteTools(s, outcomes))
  {
    hide Grows, CollectAll;
    GrowsStill(s.unknowns);
    CollectingGrows(s.planned, outcomes, s);
  }

  lemma NormalizerReports(s: State)
    ensures Reports(s, NormalizeEvidence(s))
  {
    hide Grows, NormalizeAll;
    GrowsStill(s.unknowns);
    NormalizingGrows(s.lastObservations, s);
  }

  lemma OtherReports(s: State, input: Input)
    ensures input.Hypothesized? && PlanHypotheses(s, input.hypotheses, input.planStop).Next? ==>
              Reports(s, PlanHypotheses(s, input.hypotheses, input.planStop).state)
    ensures input.Clock? ==> Reports(s, GuardStop(s, input.overtime))
    ensures BuildPackage(s).Next? ==> Reports(s, BuildPackage(s).state)
    ensures Reports(s, s)
    ensures input.Checked? ==> Reports(s, EvaluateReport(s, input.findings))
  {
    hide Grows, PackageValid, PackageCalls, Distinct;
    GrowsStill(s.unknowns);
    if input.Checked? {
      var checks := seq(input.findings, i => Note("report_check_failed"));
      ChecksAreOrdinary(input.findings);
      GrowsBy(s.unknowns, s.unknowns, checks);
      assert EvaluateReport(s, input.findings).unknowns == s.unknowns
             || EvaluateReport(s, input.findings).unknowns == s.unknowns + checks;
    }
  }

  lemma ChecksAreOrdinary(n: nat)
    ensures Ordinary(seq(n, i => Note("report_check_failed")))
  {
  }

  lemma VisitReports(env: Environment, c: Config, input: Input, next: Config)
    requires Visited(env, c, input, next) && next.At?
    ensures c.At? && Acceptable(c.node, c.state, input) && Updated(env, c.node, c.state, input).Next?
    ensures Reports(c.state, Updated(env, c.node, c.state, input).state)
    ensures next.state == Trimmed(Updated(env, c.node, c.state, input).state)
  {
    hide Reports, Trimmed, Valid, WithinCeilings, FreshAnswers, EstablishPhenomenon, ExecuteTools, NormalizeEvidence,
         ResolveHosts, PlanHypotheses, PlanObservations, RouteTools, GuardStop, BuildPackage, EvaluateReport, NextNode;
    var s := c.state;
    OtherReports(s, input);
    match c.node
    case HostResolver => SearchReports(s, env.wanted, env.same, input.turns);
    case PhenomenonNode => ScanReports(s, input.scans);
    case ObservationPlanner => PlannerReports(s, input.proposals, input.observationStop, env.registry);
    case Router => RouterReports(s, env.registry, env.catalog);
    case Executor => ExecutorReports(s, input.outcomes);
    case Normalizer => NormalizerReports(s);
    case Updater => if s.lastObservations != [] { UpdateReports(s, input.decision); }
    case _ =>
  }

  // ----- and trimming loses nothing that was kept ---------------------------

  /** Lists as a rebuild leaves them, with at most one notice. */
  predicate Settled(s: State)
  {
    Trimmed(s) == s && Notices(s.unknowns) <= 1
  }

  lemma RebuiltOver<F>(g: Growing<F>, findings: seq<Unknown>)
    requires findings == Findings(g.unknowns) && (|findings| > 99 || |g.facts| > 100)
    ensures Findings(Rebuild(g).unknowns) == Take(findings, 99) && Rebuild(g).facts == Take(g.facts, 100)
    ensures Notices(Rebuild(g).unknowns) == 1
  {
    FindingsOnly(g.unknowns);
    hide Findings, Notices;
    TakenAreFindings(findings, 99);
    FindingsOfTrimmed(Take(findings, 99), Notice(|findings| > 99, |g.facts| > 100));
    hide Take;
  }

  /** What a rebuild makes of any lists. */
  lemma RebuiltLists<F>(g: Growing<F>)
    ensures Findings(Rebuild(g).unknowns) == Take(Findings(g.unknowns), UNKNOWNS_CAPACITY - 1)
    ensures Rebuild(g).facts == Take(g.facts, KNOWN_FACTS_CAPACITY)
    ensures Notices(Rebuild(g).unknowns) <= 1 || Notices(Rebuild(g).unknowns) == Notices(g.unknowns)
    ensures |Rebuild(g).unknowns| == |Take(Findings(g.unknowns), UNKNOWNS_CAPACITY - 1)| + Notices(Rebuild(g).unknowns)
  {
    hide Findings, Notices;
    var findings := Findings(g.unknowns);
    if |findings| > 99 || |g.facts| > 100 { RebuiltOver(g, findings); }
    FindingsOnly(Rebuild(g).unknowns);
  }

  lemma TrimKeepsEarlier<F>(g: Growing<F>, next: Growing<F>)
    requires Rebuild(g) == g && Notices(g.unknowns) <= 1
    requires Grows(g.unknowns, next.unknowns) && g.facts <= next.facts
    ensures Findings(g.unknowns) <= Findings(Rebuild(next).unknowns) && g.facts <= Rebuild(next).facts
    ensures Notices(Rebuild(next).unknowns) <= 1
    ensures |Rebuild(next).unknowns| <= UNKNOWNS_CAPACITY && |Rebuild(next).facts| <= KNOWN_FACTS_CAPACITY
  {
    hide Grows, Findings, Notices, Rebuild;
    GrownFindings(g.unknowns, next.unknowns);
    FixedPointIsBounded(g);
    RebuiltLists(next);
    TakenKeepsPrefix(Findings(g.unknowns), Findings(next.unknowns), UNKNOWNS_CAPACITY - 1);
    TakenKeepsPrefix(g.facts, next.facts, KNOWN_FACTS_CAPACITY);
  }

  lemma TakenKeepsPrefix<T>(a: seq<T>, b: seq<T>, n: nat)
    requires a <= b && |a| <= n
    ensures a <= Take(b, n) && |Take(b, n)| <= n
  {
  }

  lemma GrownFindings(before: seq<Unknown>, after: seq<Unknown>)
    requires Grows(before, after)
    ensures Findings(before) <= Findings(after) && Notices(after) == Notices(before)
  {
    var more := after[|before|..];
    assert after == before + more;
    FindingsAppend(before, more);
    FindingsOnly(more);
  }

  lemma FixedPointIsBounded<F>(g: Growing<F>)
    requires Rebuild(g) == g
    ensures |Findings(g.unknowns)| <= UNKNOWNS_CAPACITY - 1 && |g.facts| <= KNOWN_FACTS_CAPACITY
  {
    RebuiltLists(g);
    hide Rebuild, Findings, Notices;
  }

  /** What one visit leaves of the reports a settled state holds. */
  ghost predicate Remembers(s: State, s': State)
  {
    && Findings(s.unknowns) <= Findings(s'.unknowns) && s.facts <= s'.facts
    && Settled(s')
    && |s'.unknowns| <= UNKNOWNS_CAPACITY && |s'.facts| <= KNOWN_FACTS_CAPACITY
  }

  lemma TrimmedRemembers(s: State, s': State)
    requires Settled(s) && Reports(s, s')
    ensures Remembers(s, Trimmed(s'))
  {
    hide Findings, Notices, Grows;
    var g := Growing(s.unknowns, s.facts);
    var next := Growing(s'.unknowns, s'.facts);
    assert Rebuild(g) == g by { hide Rebuild; assert Trimmed(s).unknowns == s.unknowns && Trimmed(s).facts == s.facts; }
    TrimKeepsEarlier(g, next);
    RebuildIsIdempotent(next);
    hide Rebuild;
  }

  lemma SettledIsBounded(s: State)
    requires Settled(s)
    ensures |s.unknowns| <= UNKNOWNS_CAPACITY && |s.facts| <= KNOWN_FACTS_CAPACITY
  {
    var g := Growing(s.unknowns, s.facts);
    assert Rebuild(g) == g by { hide Rebuild; assert Trimmed(s).unknowns == s.unknowns && Trimmed(s).facts == s.facts; }
    hide Rebuild, Notices, Findings;
    FixedPointIsBounded(g);
    FindingsOnly(s.unknowns);
  }

  /**
   Nothing a run has reported is lost: at every node the findings and facts of every
   earlier node are there, in place, both lists are within their ceilings, and there is
   at most one notice. The state a run starts with comes out of the same validator.
   */
  lemma {:induction false} NothingReportedIsLost(env: Environment, run: seq<Config>, inputs: seq<Input>, i: nat, k: nat)
    requires IsRun(env, run, inputs) && i <= k < |run| && run[k].At? && Settled(run[0].state)
    ensures run[i].At? && Settled(run[i].state)
    ensures Findings(run[i].state.unknowns) <= Findings(run[k].state.unknowns)
    ensures run[i].state.facts <= run[k].state.facts
    ensures Settled(run[k].state)
    ensures |run[k].state.unknowns| <= UNKNOWNS_CAPACITY && |run[k].state.facts| <= KNOWN_FACTS_CAPACITY
  {
    hide Visited, Fresh, Findings, Settled;
    if k > 0 {
      assert Visited(env, run[k - 1], inputs[k - 1], run[k]);
      VisitIsAcceptable(env, run[k - 1], inputs[k - 1], run[k]);
      NothingReportedIsLost(env, run, inputs, if i < k then i else k - 1, k - 1);
      VisitReports(env, run[k - 1], inputs[k - 1], run[k]);
      TrimmedRemembers(run[k - 1].state, Updated(env, run[k - 1].node, run[k - 1].state, inputs[k - 1]).state);
    }
    SettledIsBounded(run[k].state);
  }

  // ----- what is held is the first that was reported ------------------------

  function Lists(s: State): Growing<Fact> { Growing(s.unknowns, s.facts) }

  /** What one visit adds to the two lists, before the trim. */
  function Batch(env: Environment, c: Config, input: Input): Growing<Fact>
  {
    if c.At? && Acceptable(c.node, c.state, input) && Updated(env, c.node, c.state, input).Next? then
      var next := Updated(env, c.node, c.state, input).state;
      if |c.state.unknowns| <= |next.unknowns| && |c.state.facts| <= |next.facts|
      then Growing(next.unknowns[|c.state.unknowns|..], next.facts[|c.state.facts|..])
      else Growing([], [])
    else Growing([], [])
  }

  /** Everything reported by the first k visits, after what was reported before the run. */
  function ReportedBy(env: Environment, run: seq<Config>, inputs: seq<Input>, started: Growing<Fact>,
                      k: nat): Growing<Fact>
    requires k <= |inputs| <= |run|
  {
    if k == 0 then started
    else Append(ReportedBy(env, run, inputs, started, k - 1), Batch(env, run[k - 1], inputs[k - 1]))
  }

  lemma VisitAppends(env: Environment, c: Config, input: Input, next: Config)
    requires Visited(env, c, input, next) && next.At?
    ensures NoNotices(Batch(env, c, input))
    ensures Lists(next.state) == Rebuild(Append(Lists(c.state), Batch(env, c, input)))
  {
    hide Visited, Updated, Rebuild;
    VisitReports(env, c, input, next);
    var after := Updated(env, c.node, c.state, input).state;
    var batch := Batch(env, c, input);
    assert c.state.unknowns + batch.unknowns == after.unknowns && c.state.facts + batch.facts == after.facts;
  }

  /**
   Over every run, at every node: the findings held are exactly the first 99 the run has
   reported, the facts the first 100, and there is one notice exactly when something was
   left out.
   */
  lemma {:induction false} HeldIsTheFirstReported(env: Environment, run: seq<Config>, inputs: seq<Input>,
                                                  started: Growing<Fact>, k: nat)
    requires IsRun(env, run, inputs) && k < |run| && run[k].At?
    requires run[0].At? && StateCapacity.Holds(Lists(run[0].state), started)
    ensures StateCapacity.Holds(Lists(run[k].state), ReportedBy(env, run, inputs, started, k))
  {
    hide Visited, Fresh, StateCapacity.Holds, Batch, Rebuild, Lists;
    if k > 0 {
      assert Visited(env, run[k - 1], inputs[k - 1], run[k]);
      VisitIsAcceptable(env, run[k - 1], inputs[k - 1], run[k]);
      HeldIsTheFirstReported(env, run, inputs, started, k - 1);
      VisitAppends(env, run[k - 1], inputs[k - 1], run[k]);
      RebuildHolds(Lists(run[k - 1].state), ReportedBy(env, run, inputs, started, k - 1),
                   Batch(env, run[k - 1], inputs[k - 1]));
    }
  }
}
