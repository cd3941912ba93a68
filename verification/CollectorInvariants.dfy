/**
 What every node of the collector keeps: the references between hosts, hypotheses,
 evidence, questions and calls, the call budget, and where evidence came from.
 */
module CollectorInvariants {
  import opened Wrappers
  import opened EvidenceMerge
  import opened StateCapacity
  import opened ToolPolicy
  import opened CollectorState
  import opened CollectorNodes

  /** The validator's invariants, the budget, and evidence only from answers on record. */
  ghost predicate Core(s: State)
  {
    && Valid(s)
    && |s.results| <= s.limits.maxToolCalls
    && |s.evidence| <= EVIDENCE_CAPACITY
    && Grounded(s.evidence, s.results)
    && Recorded(s.lastObservations, s.results)
  }

  // ----- answers with ids of their own --------------------------------------

  /** Tool call ids are generated: none repeats, and none is already on record. */
  predicate FreshAnswers(outcomes: seq<CallOutcome>, results: seq<ToolResult>)
  {
    && (forall i | 0 <= i < |outcomes| && outcomes[i].Answer? :: outcomes[i].result.callId !in CallIds(results))
    && (forall i, j | 0 <= i < j < |outcomes| && outcomes[i].Answer? && outcomes[j].Answer? ::
          outcomes[i].result.callId != outcomes[j].result.callId)
  }

  /** The record after these outcomes: what was there, then answers among them. */
  ghost predicate RecordOf(before: seq<ToolResult>, outcomes: seq<CallOutcome>, after: seq<ToolResult>)
  {
    && before <= after
    && Distinct(CallIds(after))
    && (forall k | |before| <= k < |after| :: Answer(after[k]) in outcomes)
  }

  lemma RecordSkips(before: seq<ToolResult>, outcomes: seq<CallOutcome>, after: seq<ToolResult>, o: CallOutcome)
    requires RecordOf(before, outcomes, after)
    ensures RecordOf(before, outcomes + [o], after)
  {
  }

  lemma RecordGrows(before: seq<ToolResult>, outcomes: seq<CallOutcome>, after: seq<ToolResult>, r: ToolResult)
    requires RecordOf(before, outcomes, after) && FreshAnswers(outcomes + [Answer(r)], before)
    ensures RecordOf(before, outcomes + [Answer(r)], after + [r])
    ensures r.callId !in CallIds(after)
  {
    var all := outcomes + [Answer(r)];
    assert all[|outcomes|].Answer?;
    forall k | 0 <= k < |after| ensures CallIds(after)[k] != r.callId {
      if k < |before| {
        assert CallIds(before)[k] == CallIds(after)[k];
        assert CallIds(before)[k] in CallIds(before);
      } else {
        var i :| 0 <= i < |outcomes| && outcomes[i] == Answer(after[k]);
        assert all[i] == outcomes[i];
      }
    }
    assert CallIds(after + [r]) == CallIds(after) + [r.callId];
    assert before <= after + [r];
  }

  lemma FreshPrefix(outcomes: seq<CallOutcome>, results: seq<ToolResult>, k: nat)
    requires FreshAnswers(outcomes, results) && k <= |outcomes|
    ensures FreshAnswers(outcomes[..k], results)
  {
  }

  // ----- evidence -----------------------------------------------------------

  lemma {:induction false} MergedFrom(existing: seq<Evidence>, additions: seq<Evidence>, capacity: nat)
    ensures forall e | e in MergeInto(existing, additions, capacity).held :: e in existing || e in additions
  {
    if additions != [] {
      MergedFrom(existing, additions[..|additions| - 1], capacity);
    }
  }

  lemma MoreIdsStillCover(evidence: seq<Evidence>, more: seq<Evidence>, refs: seq<string>)
    requires Ids(evidence) <= Ids(more) && Within(refs, Ids(evidence))
    ensures Within(refs, Ids(more))
  {
  }

  lemma CitationsSurvive(s: State, more: seq<Evidence>)
    requires Ids(s.evidence) <= Ids(more)
    requires FactsCite(s.facts, Ids(s.evidence)) && HypothesesCite(s.hypotheses, Ids(s.evidence))
    ensures FactsCite(s.facts, Ids(more)) && HypothesesCite(s.hypotheses, Ids(more))
  {
    forall f | f in s.facts ensures Within(f.evidenceIds, Ids(more)) {
      MoreIdsStillCover(s.evidence, more, f.evidenceIds);
    }
    forall h | h in s.hypotheses ensures Within(h.supporting, Ids(more)) && Within(h.counter, Ids(more)) {
      MoreIdsStillCover(s.evidence, more, h.supporting);
      MoreIdsStillCover(s.evidence, more, h.counter);
    }
  }

  lemma GroundedInMore(evidence: seq<Evidence>, results: seq<ToolResult>, more: seq<ToolResult>)
    requires Grounded(evidence, results) && forall r | r in results :: r in more
    ensures Grounded(evidence, more)
  {
    forall e | e in evidence ensures exists r | r in more :: r.callId == e.callId && r.status != Error {
      var r :| r in results && r.callId == e.callId && r.status != Error;
      assert r in more;
    }
  }

  /** Evidence held so far is sound: ids only appended, capacity kept, everything grounded. */
  ghost predicate EvidenceOk(before: seq<Evidence>, evidence: seq<Evidence>, results: seq<ToolResult>)
  {
    && Ids(before) <= Ids(evidence)
    && Distinct(Ids(evidence))
    && |evidence| <= EVIDENCE_CAPACITY
    && Grounded(evidence, results)
  }

  lemma MergingKeepsEvidence(before: seq<Evidence>, evidence: seq<Evidence>, results: seq<ToolResult>, r: ToolResult)
    requires EvidenceOk(before, evidence, results) && r in results
    ensures EvidenceOk(before, MergeInto(evidence, Normalize(r), EVIDENCE_CAPACITY).held, results)
  {
    var m := MergeInto(evidence, Normalize(r), EVIDENCE_CAPACITY);
    MergeKeepsLatest(evidence, Normalize(r), EVIDENCE_CAPACITY);
    MergedFrom(evidence, Normalize(r), EVIDENCE_CAPACITY);
    forall e | e in m.held ensures exists q | q in results :: q.callId == e.callId && q.status != Error {
      if e !in evidence {
        assert r in results && r.callId == e.callId && r.status != Error;
      }
    }
  }

  lemma EvidenceInMore(before: seq<Evidence>, evidence: seq<Evidence>, results: seq<ToolResult>, r: ToolResult)
    requires EvidenceOk(before, evidence, results)
    ensures EvidenceOk(before, evidence, results + [r])
  {
    GroundedInMore(evidence, results, results + [r]);
  }

  // ----- resolve_hosts ------------------------------------------------------

  function SearchOutcomes(turns: seq<SearchTurn>): seq<CallOutcome>
  {
    seq(|turns|, i requires 0 <= i < |turns| => turns[i].outcome)
  }

  lemma {:induction false} AddFoundStaysDistinct(found: seq<Host>, items: seq<Discovered>, wanted: seq<string>,
                                                 same: (string, string) -> bool)
    requires Distinct(Names(found))
    ensures Distinct(Names(AddFound(found, items, wanted, same)))
  {
    if items != [] {
      var k := |items| - 1;
      AddFoundStaysDistinct(found, items[..k], wanted, same);
      var before := AddFound(found, items[..k], wanted, same);
      var added := Host(items[k].name, items[k].hostId, MatchingQuery(items[k].name, wanted, same));
      assert Names(before + [added]) == Names(before) + [added.name];
    }
  }

  ghost predicate SearchOk(s: State, outcomes: seq<CallOutcome>, search: Search)
  {
    && RecordOf(s.results, outcomes, s.results + search.produced)
    && |s.results| + |search.produced| <= s.limits.maxToolCalls
    && Distinct(Names(search.found))
  }

  /** One turn adds at most its own answer, and only while the budget allows it. */
  lemma SearchOnceKeeps(s: State, outcomes: seq<CallOutcome>, acc: Search, k: nat, turn: SearchTurn,
                        wanted: seq<string>, same: (string, string) -> bool)
    requires SearchOk(s, outcomes, acc) && k <= MAX_HOST_SEARCH_TURNS
    requires FreshAnswers(outcomes + [turn.outcome], s.results)
    ensures SearchOk(s, outcomes + [turn.outcome], SearchOnce(acc, k, turn, s, wanted, same))
  {
    AddFoundStaysDistinct(acc.found, turn.hosts, wanted, same);
    hide Distinct, Names, AddFound;
    var after := SearchOnce(acc, k, turn, s, wanted, same);
    if after.produced == acc.produced {
      RecordSkips(s.results, outcomes, s.results + acc.produced, turn.outcome);
    } else {
      RecordGrows(s.results, outcomes, s.results + acc.produced, turn.outcome.result);
      assert s.results + after.produced == s.results + acc.produced + [turn.outcome.result];
    }
    hide RecordOf, FreshAnswers;
  }

  lemma {:induction false} SearchKeeps(turns: seq<SearchTurn>, s: State, wanted: seq<string>,
                                       same: (string, string) -> bool)
    requires |turns| <= MAX_HOST_SEARCH_TURNS + 1
    requires FreshAnswers(SearchOutcomes(turns), s.results) && Distinct(CallIds(s.results))
    requires |s.results| <= s.limits.maxToolCalls
    ensures SearchOk(s, SearchOutcomes(turns), SearchAll(turns, s, wanted, same))
  {
    if turns == [] {
      assert s.results + [] == s.results;
    } else {
      hide SearchOnce;
      var k := |turns| - 1;
      var outcomes := SearchOutcomes(turns);
      assert SearchOutcomes(turns[..k]) == outcomes[..k];
      FreshPrefix(outcomes, s.results, k);
      SearchKeeps(turns[..k], s, wanted, same);
      assert outcomes == outcomes[..k] + [turns[k].outcome];
      SearchOnceKeeps(s, outcomes[..k], SearchAll(turns[..k], s, wanted, same), k, turns[k], wanted, same);
    }
  }

  lemma SetDefaultStaysDistinct(hosts: seq<Host>, host: Host)
    requires Distinct(Names(hosts))
    ensures Distinct(Names(SetDefault(hosts, host)))
  {
    assert Names(hosts + [host]) == Names(hosts) + [host.name];
  }

  lemma {:induction false} ResolvedStayDistinct(found: seq<Host>, wanted: seq<string>)
    ensures Distinct(Names(ResolveWanted(found, wanted).hosts))
  {
    if wanted != [] {
      var k := |wanted| - 1;
      ResolvedStayDistinct(found, wanted[..k]);
      var matches := Matches(found, wanted[k]);
      if |matches| == 1 { SetDefaultStaysDistinct(ResolveWanted(found, wanted[..k]).hosts, matches[0]); }
    }
  }

  lemma {:induction false} UnaskedStayDistinct(hosts: seq<Host>, found: seq<Host>)
    requires Distinct(Names(hosts))
    ensures Distinct(Names(AddUnasked(hosts, found)))
  {
    if found != [] {
      var k := |found| - 1;
      UnaskedStayDistinct(hosts, found[..k]);
      SetDefaultStaysDistinct(AddUnasked(hosts, found[..k]), found[k]);
    }
  }

  lemma ResolveHostsKeeps(s: State, wanted: seq<string>, same: (string, string) -> bool, turns: seq<SearchTurn>)
    requires Core(s) && s.planned == [] && |turns| <= MAX_HOST_SEARCH_TURNS + 1
    requires FreshAnswers(SearchOutcomes(turns), s.results)
    ensures Core(ResolveHosts(s, wanted, same, turns))
  {
    SearchKeeps(turns, s, wanted, same);
    var search := SearchAll(turns, s, wanted, same);
    ResolvedStayDistinct(search.found, wanted);
    UnaskedStayDistinct(ResolveWanted(search.found, wanted).hosts, search.found);
    GroundedInMore(s.evidence, s.results, s.results + search.produced);
  }

  // ----- establish_phenomenon -----------------------------------------------

  function ScanOutcomes(scans: seq<Scan>): seq<CallOutcome>
  {
    seq(|scans|, i requires 0 <= i < |scans| => scans[i].outcome)
  }

  ghost predicate GatheredOk(s: State, outcomes: seq<CallOutcome>, g: Gathered)
  {
    && RecordOf(s.results, outcomes, g.results)
    && |g.results| <= s.limits.maxToolCalls
    && EvidenceOk(s.evidence, g.evidence, g.results)
  }

  lemma ScanOnceKeeps(s: State, outcomes: seq<CallOutcome>, acc: Gathered, scan: Scan)
    requires GatheredOk(s, outcomes, acc) && FreshAnswers(outcomes + [scan.outcome], s.results)
    ensures GatheredOk(s, outcomes + [scan.outcome], ScanOnce(acc, scan, s))
  {
    if ScanOnce(acc, scan, s).results == acc.results {
      RecordSkips(s.results, outcomes, acc.results, scan.outcome);
    } else {
      var r := scan.outcome.result;
      RecordGrows(s.results, outcomes, acc.results, r);
      EvidenceInMore(s.evidence, acc.evidence, acc.results, r);
      MergingKeepsEvidence(s.evidence, acc.evidence, acc.results + [r], r);
    }
  }

  lemma {:induction false} ScanKeeps(s: State, scans: seq<Scan>)
    requires Core(s) && FreshAnswers(ScanOutcomes(scans), s.results)
    ensures GatheredOk(s, ScanOutcomes(scans), ScanAll(scans, s))
  {
    if scans != [] {
      var k := |scans| - 1;
      var outcomes := ScanOutcomes(scans);
      assert ScanOutcomes(scans[..k]) == outcomes[..k];
      assert outcomes == outcomes[..k] + [scans[k].outcome];
      FreshPrefix(outcomes, s.results, k);
      ScanKeeps(s, scans[..k]);
      ScanOnceKeeps(s, outcomes[..k], ScanAll(scans[..k], s), scans[k]);
    }
  }

  lemma EstablishKeeps(s: State, scans: seq<Scan>)
    requires Core(s) && FreshAnswers(ScanOutcomes(scans), s.results)
    ensures Core(EstablishPhenomenon(s, scans))
  {
    ScanKeeps(s, scans);
    CitationsSurvive(s, ScanAll(scans, s).evidence);
  }

  // ----- the two planners ---------------------------------------------------

  lemma ClearedKeepIds(proposed: seq<Hypothesis>)
    ensures HypothesisIds(ClearedAll(proposed)) == HypothesisIds(proposed)
    ensures forall ids :: HypothesesCite(ClearedAll(proposed), ids)
  {
  }

  lemma PlanHypothesesKeeps(s: State, proposed: seq<Hypothesis>, stop: Option<string>)
    requires Core(s) && s.questions == [] && s.planned == []
    ensures PlanHypotheses(s, proposed, stop).Next? <==> Distinct(HypothesisIds(proposed))
    ensures PlanHypotheses(s, proposed, stop).Next? ==> Core(PlanHypotheses(s, proposed, stop).state)
  {
    ClearedKeepIds(proposed);
  }

  lemma {:induction false} KnownAreKnown(ids: seq<string>, known: seq<string>)
    ensures forall x :: x in Known(ids, known) <==> x in ids && x in known
  {
    if ids != [] {
      var k := |ids| - 1;
      KnownAreKnown(ids[..k], known);
      assert forall x :: x in ids <==> x in ids[..k] || x == ids[k];
    }
  }

  ghost predicate QuestionsOk(s: State, q: Questions)
  {
    && QuestionsName(q.questions, HypothesisIds(s.hypotheses))
    && (forall x | x in q.questions :: x.tool.Some? && (x.host.Some? ==> x.host.value in Names(s.hosts)))
    && |q.questions| <= (if s.callCount <= s.limits.maxToolCalls then s.limits.maxToolCalls - s.callCount else 0)
  }

  lemma {:induction false} ConsiderKeeps(s: State, proposals: seq<Proposal>, registry: Registry)
    ensures QuestionsOk(s, ConsiderAll(proposals, s, registry))
    ensures |ConsiderAll(proposals, s, registry).questions| <= |proposals|
  {
    if proposals != [] {
      var k := |proposals| - 1;
      ConsiderKeeps(s, proposals[..k], registry);
      KnownAreKnown(proposals[k].hypotheses, HypothesisIds(s.hypotheses));
      if |s.hosts| == 1 { assert Names(s.hosts)[0] == s.hosts[0].name; }
    }
  }

  /** Questions at the router name what the state holds and fit what is left of the budget. */
  ghost predicate QuestionsReady(s: State)
  {
    && (forall x | x in s.questions :: x.tool.Some? && (x.host.Some? ==> x.host.value in Names(s.hosts)))
    && |s.questions| + |s.results| <= s.limits.maxToolCalls
  }

  lemma PlanObservationsKeeps(s: State, proposals: seq<Proposal>, stop: Option<string>, registry: Registry)
    requires Core(s) && (s.stop.Some? ==> s.questions == [])
    ensures Core(PlanObservations(s, proposals, stop, registry))
    ensures QuestionsReady(PlanObservations(s, proposals, stop, registry))
  {
    ConsiderKeeps(s, proposals, registry);
  }

  // ----- tool_router --------------------------------------------------------

  ghost predicate RoutingOk(s: State, r: Routing)
  {
    && CallsName(r.planned, HypothesisIds(s.hypotheses), Names(s.hosts))
    && (r.planned != [] ==> s.callCount + |r.planned| <= s.limits.maxToolCalls)
  }

  lemma {:induction false} RouteKeeps(s: State, questions: seq<Question>, registry: Registry, catalog: Catalog)
    requires QuestionsName(questions, HypothesisIds(s.hypotheses))
    requires forall x | x in questions :: x.host.Some? ==> x.host.value in Names(s.hosts)
    ensures RoutingOk(s, RouteAll(questions, s, registry, catalog))
    ensures |RouteAll(questions, s, registry, catalog).planned| <= |questions|
  {
    if questions != [] {
      var k := |questions| - 1;
      RouteKeeps(s, questions[..k], registry, catalog);
      assert questions[k] in questions;
    }
  }

  lemma NothingNamed(ids: seq<string>, hosts: seq<string>)
    ensures QuestionsName([], ids) && CallsName([], ids, hosts)
  {
  }

  lemma RouteToolsKeeps(s: State, registry: Registry, catalog: Catalog)
    requires Core(s) && QuestionsReady(s)
    ensures RouteTools(s, registry, catalog).Next? ==>
              var s' := RouteTools(s, registry, catalog).state;
              Core(s') && (s'.planned != [] ==> |s'.planned| + |s'.results| <= s'.limits.maxToolCalls)
  {
    hide RouteAll, Distinct, FactsCite, HypothesesCite, QuestionsName, CallsName, Grounded, Recorded;
    RouteKeeps(s, s.questions, registry, catalog);
    NothingNamed(HypothesisIds(s.hypotheses), Names(s.hosts));
  }

  // ----- tool_executor ------------------------------------------------------

  ghost predicate CollectedOk(s: State, outcomes: seq<CallOutcome>, e: Executed)
  {
    && RecordOf(s.results, outcomes, e.results)
    && |e.results| <= |s.results| + |outcomes|
    && Recorded(e.observations, e.results)
  }

  lemma {:induction false} CollectKeeps(s: State, calls: seq<Call>, outcomes: seq<CallOutcome>)
    requires |outcomes| == |calls| && Distinct(CallIds(s.results)) && FreshAnswers(outcomes, s.results)
    ensures CollectedOk(s, outcomes, CollectAll(calls, outcomes, s))
  {
    if calls == [] {
      assert outcomes == [];
    } else {
      var k := |calls| - 1;
      FreshPrefix(outcomes, s.results, k);
      CollectKeeps(s, calls[..k], outcomes[..k]);
      var before := CollectAll(calls[..k], outcomes[..k], s);
      assert outcomes == outcomes[..k] + [outcomes[k]];
      match outcomes[k]
      case Refusal => RecordSkips(s.results, outcomes[..k], before.results, outcomes[k]);
      case Answer(r) => RecordGrows(s.results, outcomes[..k], before.results, r);
    }
  }

  lemma ExecuteToolsKeeps(s: State, outcomes: seq<CallOutcome>)
    requires Core(s) && |outcomes| == |s.planned| && FreshAnswers(outcomes, s.results)
    requires s.planned != [] ==> |s.planned| + |s.results| <= s.limits.maxToolCalls
    ensures Core(ExecuteTools(s, outcomes))
  {
    CollectKeeps(s, s.planned, outcomes);
    GroundedInMore(s.evidence, s.results, CollectAll(s.planned, outcomes, s).results);
  }

  // ----- evidence_normalizer ------------------------------------------------

  lemma {:induction false} NormalizeKeeps(s: State, observations: seq<ToolResult>)
    requires Core(s) && Recorded(observations, s.results)
    ensures EvidenceOk(s.evidence, NormalizeAll(observations, s).evidence, s.results)
  {
    if observations != [] {
      var k := |observations| - 1;
      NormalizeKeeps(s, observations[..k]);
      MergingKeepsEvidence(s.evidence, NormalizeAll(observations[..k], s).evidence, s.results, observations[k]);
    }
  }

  lemma NormalizeEvidenceKeeps(s: State)
    requires Core(s)
    ensures Core(NormalizeEvidence(s))
    ensures Ids(s.evidence) <= Ids(NormalizeEvidence(s).evidence)
  {
    hide NormalizeAll, Distinct, FactsCite, HypothesesCite, QuestionsName, CallsName, Grounded, Recorded,
         Ids, HypothesisIds, Names, CallIds;
    NormalizeKeeps(s, s.lastObservations);
    CitationsSurvive(s, NormalizeAll(s.lastObservations, s).evidence);
  }

  // ----- hypothesis_updater -------------------------------------------------

  lemma {:induction false} WithoutSelects(refs: seq<string>, refused: seq<string>)
    ensures forall x :: x in Without(refs, refused) <==> x in refs && x !in refused
  {
    if refs != [] {
      var k := |refs| - 1;
      WithoutSelects(refs[..k], refused);
      assert forall x :: x in refs <==> x in refs[..k] || x == refs[k];
      var last := if refs[k] in refused then [] else [refs[k]];
      assert Without(refs, refused) == Without(refs[..k], refused) + last;
    }
  }

  lemma {:induction false} NothingWithheld(refs: seq<string>)
    ensures Without(refs, []) == refs
  {
    if refs != [] {
      NothingWithheld(refs[..|refs| - 1]);
    }
  }

  ghost predicate RevisedOk(s: State, r: Revised)
  {
    && HypothesisIds(s.hypotheses) <= HypothesisIds(r.hypotheses)
    && Distinct(HypothesisIds(r.hypotheses))
    && HypothesesCite(r.hypotheses, Ids(s.evidence))
  }

  lemma ReviseCites(s: State, h: Hypothesis, u: Update)
    ensures Revise(h, u, s).id == h.id
    ensures Within(Revise(h, u, s).supporting, Ids(s.evidence)) && Within(Revise(h, u, s).counter, Ids(s.evidence))
  {
    KnownAreKnown(u.supporting, Ids(s.evidence));
    KnownAreKnown(u.counter, Ids(s.evidence));
    WithoutSelects(Known(u.supporting, Ids(s.evidence)), FromFailure(s));
    WithoutSelects(Known(u.counter, Ids(s.evidence)), FromFailure(s));
  }

  lemma ReplacingCites(hypotheses: seq<Hypothesis>, i: nat, h: Hypothesis, ids: seq<string>)
    requires i < |hypotheses| && h.id == hypotheses[i].id && HypothesesCite(hypotheses, ids)
    requires Within(h.supporting, ids) && Within(h.counter, ids)
    ensures HypothesesCite(hypotheses[i := h], ids)
    ensures HypothesisIds(hypotheses[i := h]) == HypothesisIds(hypotheses)
  {
  }

  lemma {:induction false} UpdateKeeps(s: State, updates: seq<Update>)
    requires Core(s)
    ensures RevisedOk(s, UpdateAll(updates, s))
    ensures HypothesisIds(UpdateAll(updates, s).hypotheses) == HypothesisIds(s.hypotheses)
  {
    if updates != [] {
      var k := |updates| - 1;
      UpdateKeeps(s, updates[..k]);
      var acc := UpdateAll(updates[..k], s);
      var i := IndexOf(HypothesisIds(acc.hypotheses), updates[k].id);
      hide Revise, HypothesesCite, Core, UpdateNotes;
      if i < |acc.hypotheses| {
        ReviseCites(s, acc.hypotheses[i], updates[k]);
        ReplacingCites(acc.hypotheses, i, Revise(acc.hypotheses[i], updates[k], s), Ids(s.evidence));
      }
    }
  }

  lemma {:induction false} ProposeKeeps(s: State, acc: Revised, proposed: seq<Hypothesis>)
    requires RevisedOk(s, acc)
    ensures RevisedOk(s, ProposeAll(acc, proposed))
  {
    if proposed != [] {
      var k := |proposed| - 1;
      ProposeKeeps(s, acc, proposed[..k]);
      var before := ProposeAll(acc, proposed[..k]);
      var added := Cleared(proposed[k]);
      assert HypothesisIds(before.hypotheses + [added]) == HypothesisIds(before.hypotheses) + [added.id];
    }
  }

  lemma {:induction false} ConfirmKeeps(s: State, acc: Confirmed, newFacts: seq<Fact>)
    requires FactsCite(acc.facts, Ids(s.evidence))
    ensures FactsCite(ConfirmAll(acc, newFacts, s).facts, Ids(s.evidence))
  {
    if newFacts != [] { ConfirmKeeps(s, acc, newFacts[..|newFacts| - 1]); }
  }

  lemma NamesSurvive(questions: seq<Question>, calls: seq<Call>, ids: seq<string>, more: seq<string>,
                     hosts: seq<string>)
    requires ids <= more && QuestionsName(questions, ids) && CallsName(calls, ids, hosts)
    ensures QuestionsName(questions, more) && CallsName(calls, more, hosts)
  {
    assert forall x | x in ids :: x in more;
  }

  lemma UpdateHypothesesKeeps(s: State, d: UpdateDecision)
    requires Core(s) && s.lastObservations != []
    ensures UpdateHypotheses(s, d).Next? && Core(UpdateHypotheses(s, d).state)
    ensures HypothesisIds(s.hypotheses) <= HypothesisIds(UpdateHypotheses(s, d).state.hypotheses)
  {
    UpdateKeeps(s, d.updates);
    var revised := ProposeAll(UpdateAll(d.updates, s), d.newHypotheses);
    ProposeKeeps(s, UpdateAll(d.updates, s), d.newHypotheses);
    ConfirmKeeps(s, Confirmed(s.facts, revised.unknowns), d.newFacts);
    NamesSurvive(s.questions, s.planned, HypothesisIds(s.hypotheses), HypothesisIds(revised.hypotheses),
                 Names(s.hosts));
  }

  // ----- package ------------------------------------------------------------

  /** The package's own reference check never raises. */
  lemma PackageIsValid(s: State)
    requires Core(s)
    ensures BuildPackage(s).Next? && Core(BuildPackage(s).state)
    ensures BuildPackage(s).state.package.Some? <==> s.hosts != []
  {
  }

  lemma TrimmingKeepsCore(s: State)
    requires Core(s)
    ensures Core(Trimmed(s))
  {
    TrimmingKeepsFacts(s);
  }
}
