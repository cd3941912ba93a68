/**
 The loops inside the collector's nodes, each shown to compute the node's update as
 module CollectorNodes states it, whichever of its early exits it takes.
 */
module CollectorLoops {
  import opened Wrappers
  import opened EvidenceMerge
  import opened StateCapacity
  import opened ToolPolicy
  import opened CollectorState
  import opened CollectorNodes

  // ----- a loop that breaks off has its whole result ------------------------

  lemma {:induction false} SearchIsOver(turns: seq<SearchTurn>, k: nat, s: State, wanted: seq<string>,
                                        same: (string, string) -> bool)
    requires k <= |turns| && SearchAll(turns[..k], s, wanted, same).done
    ensures SearchAll(turns, s, wanted, same) == SearchAll(turns[..k], s, wanted, same)
  {
    if k == |turns| {
      assert turns[..k] == turns;
    } else {
      assert turns[..|turns| - 1][..k] == turns[..k];
      SearchIsOver(turns[..|turns| - 1], k, s, wanted, same);
    }
  }

  lemma {:induction false} ScanIsOver(scans: seq<Scan>, k: nat, s: State)
    requires k <= |scans| && ScanAll(scans[..k], s).done
    ensures ScanAll(scans, s) == ScanAll(scans[..k], s)
  {
    if k == |scans| {
      assert scans[..k] == scans;
    } else {
      assert scans[..|scans| - 1][..k] == scans[..k];
      ScanIsOver(scans[..|scans| - 1], k, s);
    }
  }

  lemma {:induction false} ConsideringIsOver(proposals: seq<Proposal>, k: nat, s: State, registry: Registry)
    requires k <= |proposals| && ConsiderAll(proposals[..k], s, registry).done
    ensures ConsiderAll(proposals, s, registry) == ConsiderAll(proposals[..k], s, registry)
  {
    if k == |proposals| {
      assert proposals[..k] == proposals;
    } else {
      assert proposals[..|proposals| - 1][..k] == proposals[..k];
      ConsideringIsOver(proposals[..|proposals| - 1], k, s, registry);
    }
  }

  lemma {:induction false} RoutingIsOver(questions: seq<Question>, k: nat, s: State, registry: Registry,
                                         catalog: Catalog)
    requires k <= |questions| && RouteAll(questions[..k], s, registry, catalog).raised
    ensures RouteAll(questions, s, registry, catalog).raised
  {
    if k == |questions| {
      assert questions[..k] == questions;
    } else {
      assert questions[..|questions| - 1][..k] == questions[..k];
      RoutingIsOver(questions[..|questions| - 1], k, s, registry, catalog);
    }
  }

  // ----- resolve_hosts ------------------------------------------------------

  method AddDiscovered(found: seq<Host>, items: seq<Discovered>, wanted: seq<string>, same: (string, string) -> bool)
    returns (all: seq<Host>)
    ensures all == AddFound(found, items, wanted, same)
  {
    all := found;
    for k := 0 to |items|
      invariant all == AddFound(found, items[..k], wanted, same)
    {
      assert items[..k + 1][..k] == items[..k];
      var item := items[k];
      if item.name in Names(all) { continue; }
      all := all + [Host(item.name, item.hostId, MatchingQuery(item.name, wanted, same))];
    }
    assert items[..|items|] == items;
  }

  method SearchHosts(s: State, wanted: seq<string>, same: (string, string) -> bool, turns: seq<SearchTurn>)
    returns (found: seq<Host>, unknowns: seq<Unknown>, produced: seq<ToolResult>)
    requires |turns| == MAX_HOST_SEARCH_TURNS + 1
    ensures var search := SearchAll(turns, s, wanted, same);
            found == search.found && unknowns == search.unknowns && produced == search.produced
  {
    found, unknowns, produced := [], [], [];
    for turn := 0 to MAX_HOST_SEARCH_TURNS + 1
      invariant SearchAll(turns[..turn], s, wanted, same) == Search(found, unknowns, produced, false)
    {
      assert turns[..turn + 1][..turn] == turns[..turn];
      var input := turns[turn];
      ghost var before := Search(found, unknowns, produced, false);
      ghost var after := SearchOnce(before, turn, input, s, wanted, same);
      assert SearchAll(turns[..turn + 1], s, wanted, same) == after;
      if after.done { SearchIsOver(turns, turn + 1, s, wanted, same); }
      hide SearchAll, AddFound;

      if found != [] && (forall q | q in wanted :: Answered(found, q)) { return; }
      var readingOnly := turn == MAX_HOST_SEARCH_TURNS;
      if readingOnly && produced == [] { return; }
      if !readingOnly && |s.results| + |produced| >= s.limits.maxToolCalls {
        unknowns := unknowns + [Note("host_search_budget_exhausted")];
        return;
      }
      found := AddDiscovered(found, input.hosts, wanted, same);
      if readingOnly || input.tool.None? { return; }
      if input.args.None? {
        unknowns := unknowns + [Note("host_search_unusable")];
        return;
      }
      if input.outcome.Refusal? {
        unknowns := unknowns + [Note("host_search_blocked")];
        return;
      }
      var result := input.outcome.result;
      produced := produced + [result];
      if result.status == Error { unknowns := unknowns + [Note("host_search_error")]; }
    }
  }

  method ChooseHosts(found: seq<Host>, wanted: seq<string>) returns (hosts: seq<Host>, unknowns: seq<Unknown>)
    ensures hosts == AddUnasked(ResolveWanted(found, wanted).hosts, found)
    ensures unknowns == ResolveWanted(found, wanted).unknowns
  {
    hide Matches;
    hosts, unknowns := [], [];
    assert wanted[..0] == [] && found[..0] == [];
    for k := 0 to |wanted|
      invariant ResolveWanted(found, wanted[..k]) == Resolution(hosts, unknowns)
    {
      assert wanted[..k + 1][..k] == wanted[..k];
      var matches := Matches(found, wanted[k]);
      if |matches| == 1 {
        hosts := SetDefault(hosts, matches[0]);
      } else if matches != [] {
        unknowns := unknowns + [Note("host_ambiguous")];
      } else {
        unknowns := unknowns + [Note("host_not_found")];
      }
    }
    assert wanted[..|wanted|] == wanted;
    ghost var chosen := hosts;
    for k := 0 to |found|
      invariant hosts == AddUnasked(chosen, found[..k])
    {
      assert found[..k + 1][..k] == found[..k];
      if found[k].query.None? { hosts := SetDefault(hosts, found[k]); }
    }
    assert found[..|found|] == found;
  }

  method FindHosts(s: State, wanted: seq<string>, same: (string, string) -> bool, turns: seq<SearchTurn>)
    returns (s': State)
    requires |turns| == MAX_HOST_SEARCH_TURNS + 1
    ensures s' == ResolveHosts(s, wanted, same, turns)
  {
    hide SearchAll, ResolveWanted, AddUnasked;
    var found, searchUnknowns, produced := SearchHosts(s, wanted, same, turns);
    var purposes := s.purposes;
    assert produced[..0] == [];
    for k := 0 to |produced|
      invariant purposes == SetPurposes(s.purposes, produced[..k], "Resolve the requested investigation hosts")
    {
      assert produced[..k + 1][..k] == produced[..k];
      purposes := purposes[produced[k].callId := "Resolve the requested investigation hosts"];
    }
    assert produced[..|produced|] == produced;
    var hosts, unknowns := ChooseHosts(found, wanted);
    var results := s.results + produced;
    s' := s.(hosts := hosts, unknowns := s.unknowns + searchUnknowns + unknowns, results := results,
             callCount := |results|, purposes := purposes, lastObservations := produced,
             stop := if hosts == [] then Some("no host could be resolved for investigation") else s.stop);
  }

  // ----- establish_phenomenon -----------------------------------------------

  method ScanHosts(s: State, scans: seq<Scan>) returns (s': State)
    requires Distinct(Ids(s.evidence))
    ensures s' == EstablishPhenomenon(s, scans)
  {
    var results, evidence, unknowns, purposes := s.results, s.evidence, s.unknowns, s.purposes;
    var k := 0;
    var done := false;
    assert scans[..0] == [];
    while k < |scans| && !done
      invariant k <= |scans|
      invariant ScanAll(scans[..k], s) == Gathered(results, evidence, unknowns, purposes, done)
    {
      assert scans[..k + 1][..k] == scans[..k];
      var scan := scans[k];
      k := k + 1;
      if scan.host !in Names(s.hosts) {
        unknowns := unknowns + [Note("phenomenon_scan_unresolved_host")];
        continue;
      }
      if |results| >= s.limits.maxToolCalls {
        unknowns := unknowns + [Note("phenomenon_scan_budget_exhausted")];
        done := true;
        continue;
      }
      if scan.args.None? {
        unknowns := unknowns + [Note("phenomenon_scan_unusable")];
        continue;
      }
      if scan.outcome.Refusal? {
        unknowns := unknowns + [Note("phenomenon_scan_blocked")];
        continue;
      }
      var result := scan.outcome.result;
      results := results + [result];
      purposes := purposes[result.callId := "Establish the observed phenomenon on host " + scan.host];
      if result.status == Error { unknowns := unknowns + [Note("phenomenon_scan_error")]; }
      var merged := MergeInto(evidence, Normalize(result), EVIDENCE_CAPACITY);
      evidence := merged.held;
      unknowns := unknowns + MergeNotes(merged);
    }
    if done { ScanIsOver(scans, k, s); } else { assert scans[..k] == scans; }
    s' := s.(evidence := evidence, unknowns := unknowns, results := results, callCount := |results|,
             purposes := purposes,
             lastObservations := if |s.results| <= |results| then results[|s.results|..] else []);
  }

  // ----- observation_planner ------------------------------------------------

  method ConsiderEach(s: State, proposals: seq<Proposal>, registry: Registry)
    returns (questions: seq<Question>, unknowns: seq<Unknown>)
    ensures var all := ConsiderAll(proposals, s, registry); questions == all.questions && unknowns == all.unknowns
  {
    hide Known, AssociatedHost, HypothesisIds, Names;
    var remaining: int := s.limits.maxToolCalls - s.callCount;
    questions, unknowns := [], s.unknowns;
    assert proposals[..0] == [];
    for k := 0 to |proposals|
      invariant ConsiderAll(proposals[..k], s, registry) == Questions(questions, unknowns, false)
    {
      assert proposals[..k + 1][..k] == proposals[..k];
      var p := proposals[k];
      if |questions| >= remaining {
        unknowns := unknowns + [Note("observation_budget_exhausted")];
        ConsideringIsOver(proposals, k + 1, s, registry);
        return;
      }
      var discriminates := Known(p.hypotheses, HypothesisIds(s.hypotheses));
      if discriminates == [] {
        unknowns := unknowns + [Note("observation_unanchored")];
        continue;
      }
      var host := AssociatedHost(p, s);
      if p.args.None? || (host.Some? && host.value !in Names(s.hosts)) {
        unknowns := unknowns + [Note("candidate_unusable")];
        continue;
      }
      questions := questions
        + [Question(p.text, discriminates, p.scope, Some(p.tool), p.args.value, host,
                    p.genericAllowed && p.tool in registry && registry[p.tool].kind == Generic)];
    }
    assert proposals[..|proposals|] == proposals;
  }

  method ConsiderProposals(s: State, proposals: seq<Proposal>, stop: Option<string>, registry: Registry)
    returns (s': State)
    ensures s' == PlanObservations(s, proposals, stop, registry)
  {
    if s.stop.Some? { return s; }
    if proposals == [] {
      return s.(questions := [], planned := [], iterations := s.iterations + 1,
                stop := Some(if stop.Some? then stop.value else "no discriminating observation remains"));
    }
    hide ConsiderAll;
    var questions, unknowns := ConsiderEach(s, proposals, registry);
    s' := s.(questions := questions, planned := [], unknowns := unknowns, iterations := s.iterations + 1,
             stop := if questions == [] then Some("no proposed observation could be used") else None);
  }

  // ----- tool_router --------------------------------------------------------

  method RouteEach(s: State, registry: Registry, catalog: Catalog)
    returns (planned: seq<Call>, unknowns: seq<Unknown>, refusals: seq<string>, raised: bool)
    ensures raised <==> RouteAll(s.questions, s, registry, catalog).raised
    ensures !raised ==> RouteAll(s.questions, s, registry, catalog) == Routing(planned, unknowns, refusals, false)
  {
    planned, unknowns, refusals, raised := [], s.unknowns, [], false;
    assert s.questions[..0] == [];
    for k := 0 to |s.questions|
      invariant !raised
      invariant RouteAll(s.questions[..k], s, registry, catalog) == Routing(planned, unknowns, refusals, false)
    {
      hide RouterVerdict;
      assert s.questions[..k + 1][..k] == s.questions[..k];
      var q := s.questions[k];
      if q.tool.None? { continue; }
      var verdict := RouterVerdict(q, s, |planned|, registry, catalog);
      if verdict.Refused? {
        unknowns := unknowns + [Note("tool_routing_blocked")];
        if verdict.retryable { refusals := refusals + [verdict.message]; }
        continue;
      }
      if |q.text| > MAX_PURPOSE {
        RoutingIsOver(s.questions, k + 1, s, registry, catalog);
        raised := true;
        return;
      }
      planned := planned + [Granted(q)];
    }
    assert s.questions[..|s.questions|] == s.questions;
  }

  method RouteQuestions(s: State, registry: Registry, catalog: Catalog) returns (o: Outcome)
    ensures o == RouteTools(s, registry, catalog)
  {
    hide RouteAll;
    if s.questions == [] {
      return Next(s.(stop := Some("no routable observation question remains"), planned := []));
    }
    var planned, unknowns, refusals, raised := RouteEach(s, registry, catalog);
    if raised { return Raised; }
    if planned != [] {
      return Next(s.(planned := planned, rejections := [], attempts := 0, unknowns := unknowns));
    }
    var attempts := s.attempts + 1;
    var rejections := s.rejections + refusals;
    if refusals != [] && attempts <= MAX_ROUTING_ATTEMPTS {
      return Next(s.(planned := [], questions := [], unknowns := unknowns, rejections := rejections,
                     attempts := attempts));
    }
    return Next(s.(stop := Some("the next observation could not be routed"), planned := [], unknowns := unknowns,
                   rejections := rejections, attempts := attempts));
  }

  // ----- tool_executor ------------------------------------------------------

  method CollectOutcomes(s: State, outcomes: seq<CallOutcome>) returns (s': State)
    requires |outcomes| == |s.planned|
    ensures s' == ExecuteTools(s, outcomes)
  {
    if s.planned == [] {
      return s.(fatal := Some("tool_executor entered without a planned tool call"));
    }
    var results, unknowns, purposes, observations: seq<ToolResult> := s.results, s.unknowns, s.purposes, [];
    assert s.planned[..0] == [] && outcomes[..0] == [];
    for k := 0 to |s.planned|
      invariant CollectAll(s.planned[..k], outcomes[..k], s) == Executed(results, unknowns, purposes, observations)
    {
      assert s.planned[..k + 1][..k] == s.planned[..k] && outcomes[..k + 1][..k] == outcomes[..k];
      if outcomes[k].Refusal? {
        unknowns := unknowns + [Note("tool_call_failed")];
        continue;
      }
      var result := outcomes[k].result;
      ghost var before := unknowns;
      observations := observations + [result];
      results := results + [result];
      purposes := purposes[result.callId := s.planned[k].purpose];
      if result.status == Error { unknowns := unknowns + [Note("tool_error")]; }
      if result.status == Partial { unknowns := unknowns + [Note("result_truncated")]; }
      if result.oversized { unknowns := unknowns + [Note("response_too_large_to_reason_over")]; }
      assert unknowns == before + CallNotes(result);
    }
    assert s.planned[..|s.planned|] == s.planned && outcomes[..|s.planned|] == outcomes;
    s' := s.(results := results, callCount := |results|, unknowns := unknowns, purposes := purposes,
             lastObservations := observations);
  }

  // ----- evidence_normalizer ------------------------------------------------

  method NormalizeObservations(s: State) returns (s': State)
    ensures s' == NormalizeEvidence(s)
  {
    if s.lastObservations == [] || s.planned == [] {
      return s.(fatal := Some("evidence_normalizer entered without an observation and plan"));
    }
    var evidence, unknowns := s.evidence, s.unknowns;
    assert s.lastObservations[..0] == [];
    for k := 0 to |s.lastObservations|
      invariant NormalizeAll(s.lastObservations[..k], s) == Normalized(evidence, unknowns)
    {
      assert s.lastObservations[..k + 1][..k] == s.lastObservations[..k];
      var observation := s.lastObservations[k];
      var plan := PlanFor(s, observation);
      if plan.None? {
        unknowns := unknowns + [Note("observation_unplanned")];
        continue;
      }
      if !Hosted(s, plan.value) {
        unknowns := unknowns + [Note("observation_unhosted")];
        continue;
      }
      var merged := MergeInto(evidence, Normalize(observation), EVIDENCE_CAPACITY);
      evidence := merged.held;
      unknowns := unknowns + MergeNotes(merged);
    }
    assert s.lastObservations[..|s.lastObservations|] == s.lastObservations;
    s' := s.(evidence := evidence, unknowns := unknowns);
  }

  // ----- hypothesis_updater -------------------------------------------------

  /** A dictionary of hypotheses by id, in insertion order, holding exactly this list. */
  ghost predicate Tabled(order: seq<string>, table: map<string, Hypothesis>, hypotheses: seq<Hypothesis>)
  {
    && order == HypothesisIds(hypotheses) && Distinct(order)
    && (forall i | 0 <= i < |order| :: order[i] in table && table[order[i]] == hypotheses[i])
    && (forall id | id in table :: id in order)
  }

  function TableOf(hypotheses: seq<Hypothesis>): map<string, Hypothesis>
  {
    var ids := HypothesisIds(hypotheses);
    map id | id in ids :: hypotheses[IndexOf(ids, id)]
  }

  lemma TableHoldsAll(hypotheses: seq<Hypothesis>)
    requires Distinct(HypothesisIds(hypotheses))
    ensures Tabled(HypothesisIds(hypotheses), TableOf(hypotheses), hypotheses)
  {
    var ids := HypothesisIds(hypotheses);
    forall i | 0 <= i < |ids| ensures ids[i] in TableOf(hypotheses) && TableOf(hypotheses)[ids[i]] == hypotheses[i] {
      assert ids[i] in ids && IndexOf(ids, ids[i]) == i;
    }
  }

  lemma TableFinds(order: seq<string>, table: map<string, Hypothesis>, hypotheses: seq<Hypothesis>, id: string)
    requires Tabled(order, table, hypotheses)
    ensures |order| == |hypotheses|
    ensures var i := IndexOf(HypothesisIds(hypotheses), id);
            if id in table then i < |hypotheses| && hypotheses[i] == table[id] && table[id].id == id
            else i == |hypotheses|
  {
  }

  lemma TableReplaces(order: seq<string>, table: map<string, Hypothesis>, hypotheses: seq<Hypothesis>, h: Hypothesis)
    requires Tabled(order, table, hypotheses) && h.id in table
    ensures var i := IndexOf(HypothesisIds(hypotheses), h.id);
            i < |hypotheses| && Tabled(order, table[h.id := h], hypotheses[i := h])
  {
    var i := IndexOf(HypothesisIds(hypotheses), h.id);
    assert HypothesisIds(hypotheses[i := h]) == HypothesisIds(hypotheses);
  }

  lemma TableAppends(order: seq<string>, table: map<string, Hypothesis>, hypotheses: seq<Hypothesis>, h: Hypothesis)
    requires Tabled(order, table, hypotheses) && h.id !in table
    ensures Tabled(order + [h.id], table[h.id := h], hypotheses + [h])
    ensures h.id !in HypothesisIds(hypotheses)
  {
    assert HypothesisIds(hypotheses + [h]) == HypothesisIds(hypotheses) + [h.id];
  }

  method ApplyUpdates(s: State, updates: seq<Update>)
    returns (order: seq<string>, table: map<string, Hypothesis>, unknowns: seq<Unknown>)
    requires Distinct(HypothesisIds(s.hypotheses))
    ensures Tabled(order, table, UpdateAll(updates, s).hypotheses) && unknowns == UpdateAll(updates, s).unknowns
  {
    order, table, unknowns := HypothesisIds(s.hypotheses), TableOf(s.hypotheses), s.unknowns;
    TableHoldsAll(s.hypotheses);
    assert updates[..0] == [];
    for k := 0 to |updates|
      invariant Tabled(order, table, UpdateAll(updates[..k], s).hypotheses)
      invariant unknowns == UpdateAll(updates[..k], s).unknowns
    {
      hide Tabled, Revise, UpdateNotes, IndexOf;
      assert updates[..k + 1][..k] == updates[..k];
      var update := updates[k];
      ghost var held := UpdateAll(updates[..k], s).hypotheses;
      TableFinds(order, table, held, update.id);
      if update.id !in table {
        unknowns := unknowns + [Note("hypothesis_update_unknown_hypothesis")];
        continue;
      }
      var revised := Revise(table[update.id], update, s);
      RevisedKeepsId(table[update.id], update, s);
      TableReplaces(order, table, held, revised);
      unknowns := unknowns + UpdateNotes(update, s);
      table := table[update.id := revised];
    }
    assert updates[..|updates|] == updates;
  }

  lemma RevisedKeepsId(h: Hypothesis, u: Update, s: State)
    ensures Revise(h, u, s).id == h.id
  {
  }

  method UpdateFromDecision(s: State, d: UpdateDecision) returns (o: Outcome)
    requires Distinct(HypothesisIds(s.hypotheses))
    ensures o == UpdateHypotheses(s, d)
  {
    if s.lastObservations == [] { return Raised; }
    var order, table, unknowns := ApplyUpdates(s, d.updates);
    ghost var updated := UpdateAll(d.updates, s);
    assert d.newHypotheses[..0] == [];
    for k := 0 to |d.newHypotheses|
      invariant Tabled(order, table, ProposeAll(updated, d.newHypotheses[..k]).hypotheses)
      invariant unknowns == ProposeAll(updated, d.newHypotheses[..k]).unknowns
    {
      hide Tabled, IndexOf;
      assert d.newHypotheses[..k + 1][..k] == d.newHypotheses[..k];
      var item := d.newHypotheses[k];
      TableFinds(order, table, ProposeAll(updated, d.newHypotheses[..k]).hypotheses, item.id);
      if item.id in table {
        unknowns := unknowns + [Note("hypothesis_id_reused")];
        continue;
      }
      TableAppends(order, table, ProposeAll(updated, d.newHypotheses[..k]).hypotheses, Cleared(item));
      order := order + [item.id];
      table := table[item.id := Cleared(item)];
    }
    assert d.newHypotheses[..|d.newHypotheses|] == d.newHypotheses;
    ghost var revised := ProposeAll(updated, d.newHypotheses);
    var facts: seq<Fact>;
    facts, unknowns := ConfirmFacts(s, unknowns, d.newFacts);
    var hypotheses := seq(|order|, i requires 0 <= i < |order| && order[i] in table => table[order[i]]);
    assert hypotheses == revised.hypotheses;
    o := Next(s.(hypotheses := hypotheses, facts := facts, unknowns := unknowns, stop := d.stop));
  }

  method ConfirmFacts(s: State, noted: seq<Unknown>, newFacts: seq<Fact>)
    returns (facts: seq<Fact>, unknowns: seq<Unknown>)
    ensures Confirmed(facts, unknowns) == ConfirmAll(Confirmed(s.facts, noted), newFacts, s)
  {
    facts, unknowns := s.facts, noted;
    var keys := set f | f in s.facts;
    assert newFacts[..0] == [];
    for k := 0 to |newFacts|
      invariant Confirmed(facts, unknowns) == ConfirmAll(Confirmed(s.facts, noted), newFacts[..k], s)
      invariant forall f :: f in keys <==> f in facts
    {
      assert newFacts[..k + 1][..k] == newFacts[..k];
      var item := newFacts[k];
      if !Within(item.evidenceIds, Ids(s.evidence)) {
        unknowns := unknowns + [Note("known_fact_evidence_missing")];
        continue;
      }
      if item !in keys {
        facts := facts + [item];
        keys := keys + {item};
      }
    }
    assert newFacts[..|newFacts|] == newFacts;
  }
}
