/**
 Nothing an investigation turns away, loses or cannot place goes unsaid: what each visit
 of a run adds to the unknowns, counted code by code.
 */
module CollectorNotes {
  import opened Wrappers
  import opened EvidenceMerge
  import opened StateCapacity
  import opened ToolPolicy
  import opened CollectorState
  import opened CollectorNodes
  import opened CollectorInvariants
  import opened CollectorBatches
  import opened CollectorRun
  import opened CollectorTheorems
  import opened CollectorBatchRuns
  import opened CollectorStages
  import opened CollectorRouting
  import opened CollectorRecords
  import opened CollectorHosts
  import Ceilings = CollectorCeilings

  // ----- counting -----------------------------------------------------------

  /** How many notes bear this code. */
  function Tally(notes: seq<Unknown>, code: string): nat
  {
    if notes == [] then 0
    else Tally(notes[..|notes| - 1], code) + (if notes[|notes| - 1].code == code then 1 else 0)
  }

  function One(code: string, c: string): nat { if code == c then 1 else 0 }

  function Many(n: nat, code: string, c: string): nat { if code == c then n else 0 }

  lemma {:induction false} TallyJoin(a: seq<Unknown>, b: seq<Unknown>, code: string)
    ensures Tally(a + b, code) == Tally(a, code) + Tally(b, code)
  {
    if b == [] {
      assert a + b == a;
    } else {
      assert (a + b)[..|a + b| - 1] == a + b[..|b| - 1];
      TallyJoin(a, b[..|b| - 1], code);
    }
  }

  lemma TallyOneMore(a: seq<Unknown>, c: string, code: string)
    ensures Tally(a + [Note(c)], code) == Tally(a, code) + One(code, c)
  {
    assert (a + [Note(c)])[..|a|] == a;
  }

  // ----- routing ------------------------------------------------------------

  /** Questions with a tool that may not be called for them. */
  function Refused(env: Environment, questions: seq<Question>): nat
  {
    if questions == [] then 0
    else
      var q := questions[|questions| - 1];
      Refused(env, questions[..|questions| - 1]) + (if q.tool.Some? && !Licensed(env, q) then 1 else 0)
  }

  lemma {:induction false} RefusalsAreCounted(env: Environment, s: State, questions: seq<Question>, code: string)
    requires s.callCount + |questions| <= s.limits.maxToolCalls
    ensures var r := RouteAll(questions, s, env.registry, env.catalog);
            !r.raised ==>
              Tally(r.unknowns, code)
              == Tally(s.unknowns, code) + Many(Refused(env, questions), code, "tool_routing_blocked")
  {
    hide RouterVerdict, Licensed, Tally;
    if questions != [] {
      var k := |questions| - 1;
      var q := questions[k];
      RefusalsAreCounted(env, s, questions[..k], code);
      RouterGrantsExactly(s, questions[..k], env.registry, env.catalog);
      var acc := RouteAll(questions[..k], s, env.registry, env.catalog);
      TallyOneMore(acc.unknowns, "tool_routing_blocked", code);
      if q.tool.Some? && !acc.raised {
        PlaceDoesNotMatter(q, s, |acc.planned|, env.registry, env.catalog);
        VerdictIsLicence(env, s, q);
      }
    }
  }

  lemma RoomForAll(s: State)
    requires QuestionsReady(s) && s.callCount == |s.results|
    ensures s.callCount + |s.questions| <= s.limits.maxToolCalls
  {
  }

  lemma RoutedNotes(env: Environment, s: State)
    requires s.questions != [] && RouteTools(s, env.registry, env.catalog).Next?
    ensures var r := RouteAll(s.questions, s, env.registry, env.catalog);
            !r.raised && RouteTools(s, env.registry, env.catalog).state.unknowns == r.unknowns
  {
    hide RouteAll;
  }

  // ----- planning -----------------------------------------------------------

  /** Why a proposal that is looked at is not asked. */
  function PlannerTally(s: State, proposals: seq<Proposal>, code: string): nat
  {
    if proposals == [] then 0
    else
      var k := |proposals| - 1;
      var p := proposals[k];
      PlannerTally(s, proposals[..k], code)
      + (if LookedAt(s, proposals[..k]) < k then 0
         else if |UsableOf(s, proposals[..k])| >= Room(s) then One(code, "observation_budget_exhausted")
         else if !exists h :: h in p.hypotheses && h in HypothesisIds(s.hypotheses)
         then One(code, "observation_unanchored")
         else if !Usable(s, p) then One(code, "candidate_unusable") else 0)
  }

  lemma {:induction false} ProposalsAreCounted(s: State, registry: Registry, proposals: seq<Proposal>, code: string)
    ensures Tally(ConsiderAll(proposals, s, registry).unknowns, code)
            == Tally(s.unknowns, code) + PlannerTally(s, proposals, code)
  {
    if proposals != [] {
      var k := |proposals| - 1;
      ProposalsAreCounted(s, registry, proposals[..k], code);
      ConsideredExactly(s, registry, proposals[..k]);
      hide LookedAt, UsableOf, AsksAs, Tally;
      ProposalIsCounted(s, registry, ConsiderAll(proposals[..k], s, registry), proposals[k], code);
      hide ConsiderOnce, Usable, HypothesisIds;
    }
  }

  lemma ProposalIsCounted(s: State, registry: Registry, acc: Questions, p: Proposal, code: string)
    ensures Tally(ConsiderOnce(acc, p, s, registry).unknowns, code)
            == Tally(acc.unknowns, code)
               + (if acc.done then 0
                  else if |acc.questions| >= Room(s) then One(code, "observation_budget_exhausted")
                  else if !exists h :: h in p.hypotheses && h in HypothesisIds(s.hypotheses)
                  then One(code, "observation_unanchored")
                  else if !Usable(s, p) then One(code, "candidate_unusable") else 0)
  {
    KnownAreKnown(p.hypotheses, HypothesisIds(s.hypotheses));
    var known := Known(p.hypotheses, HypothesisIds(s.hypotheses));
    if known != [] { assert known[0] in known; }
    if |s.hosts| == 1 { assert Names(s.hosts)[0] == s.hosts[0].name; }
    TallyOneMore(acc.unknowns, "observation_budget_exhausted", code);
    TallyOneMore(acc.unknowns, "observation_unanchored", code);
    TallyOneMore(acc.unknowns, "candidate_unusable", code);
    hide Known, HypothesisIds, Tally, One;
  }

  // ----- calling ------------------------------------------------------------

  /** What is said of one outcome: an exception, an error, an answer cut short, one too long to reason over. */
  function OutcomeTally(o: CallOutcome, code: string): nat
  {
    match o
    case Refusal => One(code, "tool_call_failed")
    case Answer(r) =>
      (if r.status.Error? then One(code, "tool_error") else 0)
      + (if r.status.Partial? then One(code, "result_truncated") else 0)
      + (if r.oversized then One(code, "response_too_large_to_reason_over") else 0)
  }

  function OutcomesTally(outcomes: seq<CallOutcome>, code: string): nat
  {
    if outcomes == [] then 0
    else OutcomesTally(outcomes[..|outcomes| - 1], code) + OutcomeTally(outcomes[|outcomes| - 1], code)
  }

  lemma NoteIsCounted(noted: bool, c: string, code: string)
    ensures Tally(if noted then [Note(c)] else [], code) == if noted then One(code, c) else 0
  {
    if noted { assert [Note(c)][..0] == []; }
  }

  lemma CallNotesAreCounted(r: ToolResult, code: string)
    ensures Tally(CallNotes(r), code) == OutcomeTally(Answer(r), code)
  {
    var error := if r.status == Error then [Note("tool_error")] else [];
    var partly := if r.status == Partial then [Note("result_truncated")] else [];
    var long := if r.oversized then [Note("response_too_large_to_reason_over")] else [];
    NoteIsCounted(r.status == Error, "tool_error", code);
    NoteIsCounted(r.status == Partial, "result_truncated", code);
    NoteIsCounted(r.oversized, "response_too_large_to_reason_over", code);
    TallyJoin(error + partly, long, code);
    TallyJoin(error, partly, code);
    assert CallNotes(r) == error + partly + long;
    hide Tally, One, CallNotes, Note;
  }

  lemma OutcomeIsCounted(acc: Executed, call: Call, o: CallOutcome, code: string)
    ensures Tally(CollectOnce(acc, call, o).unknowns, code) == Tally(acc.unknowns, code) + OutcomeTally(o, code)
  {
    if o.Refusal? {
      TallyOneMore(acc.unknowns, "tool_call_failed", code);
    } else {
      CallNotesAreCounted(o.result, code);
      TallyJoin(acc.unknowns, CallNotes(o.result), code);
    }
    hide Tally, One, CallNotes;
  }

  lemma {:induction false} OutcomesAreCounted(s: State, calls: seq<Call>, outcomes: seq<CallOutcome>, code: string)
    requires |outcomes| == |calls|
    ensures Tally(CollectAll(calls, outcomes, s).unknowns, code)
            == Tally(s.unknowns, code) + OutcomesTally(outcomes, code)
  {
    if calls != [] {
      var k := |calls| - 1;
      OutcomesAreCounted(s, calls[..k], outcomes[..k], code);
      OutcomeIsCounted(CollectAll(calls[..k], outcomes[..k], s), calls[k], outcomes[k], code);
      hide CollectOnce, OutcomeTally, Tally;
    }
  }

  // ----- merging ------------------------------------------------------------

  /** How many of these answers found the evidence full. */
  function Overflows(before: seq<Evidence>, results: seq<ToolResult>): nat
  {
    if results == [] then 0
    else
      var k := |results| - 1;
      var held := MergeInto(before, AllReadings(results[..k]), 200).held;
      Overflows(before, results[..k]) + (if MergeInto(held, ReadingsOf(results[k]), 200).dropped > 0 then 1 else 0)
  }

  /** One note for each reading that replaced another, and one for each answer that did not fit. */
  function MergeTally(before: seq<Evidence>, results: seq<ToolResult>, code: string): nat
  {
    Many(|MergeInto(before, AllReadings(results), 200).superseded|, code, "evidence_superseded")
    + Many(Overflows(before, results), code, "evidence_capacity_reached")
  }

  lemma {:induction false} SupersededAreCounted(n: nat, code: string)
    ensures Tally(seq(n, i => Note("evidence_superseded")), code) == Many(n, code, "evidence_superseded")
  {
    var all := seq(n, i => Note("evidence_superseded"));
    if n > 0 {
      assert all[..n - 1] == seq(n - 1, i => Note("evidence_superseded"));
      SupersededAreCounted(n - 1, code);
    }
  }

  lemma MergeIsCounted(m: Merge, code: string)
    ensures Tally(MergeNotes(m), code)
            == Many(|m.superseded|, code, "evidence_superseded")
               + (if m.dropped > 0 then One(code, "evidence_capacity_reached") else 0)
  {
    SupersededAreCounted(|m.superseded|, code);
    var superseded := seq(|m.superseded|, i => Note("evidence_superseded"));
    TallyOneMore(superseded, "evidence_capacity_reached", code);
    assert superseded + [] == superseded;
  }

  lemma SupersededAdd(before: seq<Evidence>, results: seq<ToolResult>, r: ToolResult)
    ensures var held := MergeInto(before, AllReadings(results), 200).held;
            |MergeInto(before, AllReadings(results + [r]), 200).superseded|
            == |MergeInto(before, AllReadings(results), 200).superseded|
               + |MergeInto(held, Normalize(r), 200).superseded|
  {
    ReadingsAre(r);
    ReadingsOfOneMore(results, r);
    MergingComposes(before, AllReadings(results), ReadingsOf(r), 200);
    hide MergeInto, AllReadings, Normalize, ReadingsOf;
  }

  lemma OverflowsAdd(before: seq<Evidence>, results: seq<ToolResult>, r: ToolResult)
    ensures var held := MergeInto(before, AllReadings(results), 200).held;
            Overflows(before, results + [r])
            == Overflows(before, results) + (if MergeInto(held, Normalize(r), 200).dropped > 0 then 1 else 0)
  {
    ReadingsAre(r);
    assert (results + [r])[..|results|] == results;
    hide MergeInto, AllReadings, Normalize, ReadingsOf;
  }

  lemma MergesAreCounted(before: seq<Evidence>, results: seq<ToolResult>, r: ToolResult, code: string)
    ensures var held := MergeInto(before, AllReadings(results), 200).held;
            MergeTally(before, results + [r], code)
            == MergeTally(before, results, code) + Tally(MergeNotes(MergeInto(held, Normalize(r), 200)), code)
  {
    hide MergeInto, AllReadings, Normalize, ReadingsOf, MergeNotes, Tally, Overflows;
    var held := MergeInto(before, AllReadings(results), 200).held;
    var m := MergeInto(held, Normalize(r), 200);
    SupersededAdd(before, results, r);
    OverflowsAdd(before, results, r);
    MergeIsCounted(m, code);
  }

  // ----- reading the answers ------------------------------------------------

  /** Answers no call of the turn was made for, and answers with no host to file them under. */
  function PlacingTally(s: State, observations: seq<ToolResult>, code: string): nat
  {
    if observations == [] then 0
    else
      var o := observations[|observations| - 1];
      PlacingTally(s, observations[..|observations| - 1], code)
      + (if forall call | call in s.planned :: call.tool != o.tool then One(code, "observation_unplanned")
         else if !Placed(s, o) then One(code, "observation_unhosted") else 0)
  }

  lemma {:induction false} FirstPlans(planned: seq<Call>, tool: string, purpose: Option<string>)
    ensures FirstOfTool(planned, tool).None? <==> forall call | call in planned :: call.tool != tool
    ensures FirstPlan(planned, tool, purpose).Some? ==> exists call :: call in planned && call.tool == tool
  {
    if planned != [] {
      FirstPlans(planned[1..], tool, purpose);
      assert planned == [planned[0]] + planned[1..];
    }
  }

  lemma PlannedFor(s: State, o: ToolResult)
    ensures PlanFor(s, o).None? <==> forall call | call in s.planned :: call.tool != o.tool
  {
    FirstPlans(s.planned, o.tool, if o.callId in s.purposes then Some(s.purposes[o.callId]) else None);
    hide FirstPlan, FirstOfTool;
  }

  lemma ReadingIsCounted(acc: Normalized, o: ToolResult, s: State, placed: seq<ToolResult>, code: string)
    requires acc.evidence == MergeInto(s.evidence, AllReadings(placed), 200).held
    ensures Tally(NormalizeOnce(acc, o, s).unknowns, code) + MergeTally(s.evidence, placed, code)
            == Tally(acc.unknowns, code)
               + MergeTally(s.evidence, if Placed(s, o) then placed + [o] else placed, code)
               + (if forall call | call in s.planned :: call.tool != o.tool then One(code, "observation_unplanned")
                  else if !Placed(s, o) then One(code, "observation_unhosted") else 0)
  {
    PlannedFor(s, o);
    TallyOneMore(acc.unknowns, "observation_unplanned", code);
    TallyOneMore(acc.unknowns, "observation_unhosted", code);
    MergesAreCounted(s.evidence, placed, o, code);
    TallyJoin(acc.unknowns, MergeNotes(MergeInto(acc.evidence, Normalize(o), 200)), code);
    hide MergeInto, AllReadings, Normalize, PlanFor, MergeTally, Tally, One, MergeNotes, Names;
  }

  lemma {:induction false} ReadingsAreCounted(s: State, observations: seq<ToolResult>, code: string)
    ensures Tally(NormalizeAll(observations, s).unknowns, code)
            == Tally(s.unknowns, code) + MergeTally(s.evidence, PlacedOf(s, observations), code)
               + PlacingTally(s, observations, code)
  {
    if observations == [] {
      NothingMerged(s.evidence, code);
    } else {
      var k := |observations| - 1;
      ReadingsAreCounted(s, observations[..k], code);
      NormalizedExactly(s, observations[..k]);
      var placed := PlacedOf(s, observations[..k]);
      if !Placed(s, observations[k]) { assert PlacedOf(s, observations) == placed; }
      ReadingIsCounted(NormalizeAll(observations[..k], s), observations[k], s, placed, code);
      hide MergeInto, AllReadings, MergeTally, Tally, One, NormalizeOnce, Placed;
    }
  }

  lemma NothingMerged(before: seq<Evidence>, code: string)
    ensures MergeTally(before, [], code) == 0
  {
  }

  // ----- judging ------------------------------------------------------------

  /** Held evidence that a call of this turn left, when every call of the turn failed. */
  predicate FromFailedTurn(s: State, id: string)
  {
    && (forall o | o in s.lastObservations :: o.status.Error?)
    && exists e | e in s.evidence :: e.id == id && exists o | o in s.lastObservations :: o.callId == e.callId
  }

  /** What is said of one update: about nothing known, citing a failure, or citing what is not held. */
  function UpdateTally(s: State, u: Update, code: string): nat
  {
    if u.id !in HypothesisIds(s.hypotheses) then One(code, "hypothesis_update_unknown_hypothesis")
    else
      (if exists id :: id in u.supporting + u.counter && id in Ids(s.evidence) && FromFailedTurn(s, id)
       then One(code, "hypothesis_update_evidence_from_failed_call") else 0)
      + (if exists id :: id in u.supporting + u.counter && id !in Ids(s.evidence)
         then One(code, "hypothesis_update_evidence_dropped") else 0)
  }

  function UpdatesTally(s: State, updates: seq<Update>, code: string): nat
  {
    if updates == [] then 0
    else UpdatesTally(s, updates[..|updates| - 1], code) + UpdateTally(s, updates[|updates| - 1], code)
  }

  function UnsupportedFacts(s: State, newFacts: seq<Fact>): nat
  {
    if newFacts == [] then 0
    else
      UnsupportedFacts(s, newFacts[..|newFacts| - 1])
      + (if exists id :: id in newFacts[|newFacts| - 1].evidenceIds && id !in Ids(s.evidence) then 1 else 0)
  }

  /** Updates of unknown hypotheses, updates citing unknown evidence, ids used again, facts that cite nothing held. */
  function JudgingTally(s: State, d: UpdateDecision, code: string): nat
  {
    var added := |Ceilings.NewIds(d.newHypotheses, HypothesisIds(s.hypotheses))|;
    UpdatesTally(s, d.updates, code)
    + Many(if added <= |d.newHypotheses| then |d.newHypotheses| - added else 0, code, "hypothesis_id_reused")
    + Many(UnsupportedFacts(s, d.newFacts), code, "known_fact_evidence_missing")
  }

  lemma {:induction false} AllKnown(refs: seq<string>, known: seq<string>)
    ensures Known(refs, known) == refs <==> forall id | id in refs :: id in known
    ensures |Known(refs, known)| <= |refs|
  {
    if refs != [] {
      var k := |refs| - 1;
      AllKnown(refs[..k], known);
      assert refs == refs[..k] + [refs[k]];
      if refs[k] in known {
        assert Known(refs, known)[..|Known(refs, known)| - 1] == Known(refs[..k], known);
      }
    }
  }

  lemma {:induction false} FailedEvidenceIs(evidence: seq<Evidence>, observations: seq<ToolResult>)
    ensures forall id :: id in FailedEvidence(evidence, observations)
              <==> exists e | e in evidence :: e.id == id
                     && exists o | o in observations :: o.status == Error && o.callId == e.callId
  {
    if evidence != [] {
      var k := |evidence| - 1;
      FailedEvidenceIs(evidence[..k], observations);
      assert forall e :: e in evidence <==> e in evidence[..k] || e == evidence[k];
    }
  }

  /** The updater withholds exactly the evidence of a turn whose every call failed. */
  lemma FailuresAreWithheld(s: State)
    ensures forall id :: id in FromFailure(s) <==> s.lastObservations != [] && FromFailedTurn(s, id)
  {
    FailedEvidenceIs(s.evidence, s.lastObservations);
    hide FailedEvidence;
  }

  lemma {:induction false} NoneWithheld(refs: seq<string>, refused: seq<string>)
    ensures Without(refs, refused) == refs <==> forall id | id in refs :: id !in refused
    ensures |Without(refs, refused)| <= |refs|
  {
    if refs != [] {
      var k := |refs| - 1;
      NoneWithheld(refs[..k], refused);
      assert refs == refs[..k] + [refs[k]];
      if refs[k] !in refused {
        assert Without(refs, refused)[..|Without(refs, refused)| - 1] == Without(refs[..k], refused);
      }
    }
  }

  lemma UpdateNotesAreCounted(u: Update, s: State, code: string)
    requires u.id in HypothesisIds(s.hypotheses)
    ensures Tally(UpdateNotes(u, s), code) == UpdateTally(s, u, code)
  {
    var cited := Known(u.supporting + u.counter, Ids(s.evidence));
    AllKnown(u.supporting + u.counter, Ids(s.evidence));
    KnownAreKnown(u.supporting + u.counter, Ids(s.evidence));
    NoneWithheld(cited, FromFailure(s));
    FailuresAreWithheld(s);
    NoteIsCounted(Without(cited, FromFailure(s)) != cited, "hypothesis_update_evidence_from_failed_call", code);
    NoteIsCounted(cited != u.supporting + u.counter, "hypothesis_update_evidence_dropped", code);
    var failed := if Without(cited, FromFailure(s)) != cited
                  then [Note("hypothesis_update_evidence_from_failed_call")] else [];
    var dropped := if cited != u.supporting + u.counter then [Note("hypothesis_update_evidence_dropped")] else [];
    assert UpdateNotes(u, s) == failed + dropped;
    TallyJoin(failed, dropped, code);
    hide Known, Without, Ids, HypothesisIds, FromFailure, Tally, One, UpdateNotes;
    if exists id :: id in u.supporting + u.counter && id in Ids(s.evidence) && FromFailedTurn(s, id) {
      var id :| id in u.supporting + u.counter && id in Ids(s.evidence) && FromFailedTurn(s, id);
      FailedTurnHasCalls(s, id);
    }
    hide FromFailedTurn;
  }

  lemma FailedTurnHasCalls(s: State, id: string)
    requires FromFailedTurn(s, id)
    ensures s.lastObservations != []
  {
  }

  lemma UpdateIsCounted(acc: Revised, u: Update, s: State, code: string)
    requires HypothesisIds(acc.hypotheses) == HypothesisIds(s.hypotheses)
    ensures Tally(UpdateOnce(acc, u, s).unknowns, code) == Tally(acc.unknowns, code) + UpdateTally(s, u, code)
  {
    TallyOneMore(acc.unknowns, "hypothesis_update_unknown_hypothesis", code);
    if u.id in HypothesisIds(s.hypotheses) {
      UpdateNotesAreCounted(u, s, code);
      TallyJoin(acc.unknowns, UpdateNotes(u, s), code);
    }
    hide Ids, HypothesisIds, Tally, One, Revise, UpdateNotes, FromFailedTurn;
  }

  lemma {:induction false} UpdatesAreCounted(s: State, updates: seq<Update>, code: string)
    ensures Tally(UpdateAll(updates, s).unknowns, code) == Tally(s.unknowns, code) + UpdatesTally(s, updates, code)
  {
    if updates != [] {
      var k := |updates| - 1;
      UpdatesAreCounted(s, updates[..k], code);
      Ceilings.UpdatesKeepCount(s, updates[..k]);
      UpdateIsCounted(UpdateAll(updates[..k], s), updates[k], s, code);
      hide UpdateOnce, UpdateTally, HypothesisIds, Tally;
    }
  }

  lemma {:induction false} ReusedAreCounted(acc: Revised, proposed: seq<Hypothesis>, code: string)
    ensures var added := |Ceilings.NewIds(proposed, HypothesisIds(acc.hypotheses))|;
            && added <= |proposed|
            && Tally(ProposeAll(acc, proposed).unknowns, code)
               == Tally(acc.unknowns, code) + Many(|proposed| - added, code, "hypothesis_id_reused")
  {
    if proposed == [] {
      assert Ceilings.NewIds(proposed, HypothesisIds(acc.hypotheses)) == {};
    } else {
      var k := |proposed| - 1;
      ReusedAreCounted(acc, proposed[..k], code);
      Ceilings.ProposalsAdd(acc, proposed[..k]);
      Ceilings.ProposalsAdd(acc, proposed);
      var before := ProposeAll(acc, proposed[..k]);
      TallyOneMore(before.unknowns, "hypothesis_id_reused", code);
      var added := |Ceilings.NewIds(proposed[..k], HypothesisIds(acc.hypotheses))|;
        hide Ceilings.NewIds, Tally, One, HypothesisIds;
    }
  }

  lemma {:induction false} FactsAreCounted(acc: Confirmed, newFacts: seq<Fact>, s: State, code: string)
    ensures Tally(ConfirmAll(acc, newFacts, s).unknowns, code)
            == Tally(acc.unknowns, code) + Many(UnsupportedFacts(s, newFacts), code, "known_fact_evidence_missing")
  {
    if newFacts != [] {
      var k := |newFacts| - 1;
      FactsAreCounted(acc, newFacts[..k], s, code);
      TallyOneMore(ConfirmAll(acc, newFacts[..k], s).unknowns, "known_fact_evidence_missing", code);
        hide Tally, One, Ids;
    }
  }

  lemma JudgingIsCounted(s: State, d: UpdateDecision, code: string)
    requires UpdateHypotheses(s, d).Next?
    ensures Tally(UpdateHypotheses(s, d).state.unknowns, code) == Tally(s.unknowns, code) + JudgingTally(s, d, code)
  {
    var updated := UpdateAll(d.updates, s);
    var revised := ProposeAll(updated, d.newHypotheses);
    Ceilings.UpdatesKeepCount(s, d.updates);
    UpdatesAreCounted(s, d.updates, code);
    ReusedAreCounted(updated, d.newHypotheses, code);
    FactsAreCounted(Confirmed(s.facts, revised.unknowns), d.newFacts, s, code);
    hide UpdateAll, ProposeAll, ConfirmAll, Tally, One, Ceilings.NewIds, HypothesisIds, UpdatesTally;
  }

  // ----- scanning -----------------------------------------------------------

  /** The scan stops at the first resolved host it has no call left for. */
  function ScanEnds(scans: seq<Scan>, s: State): bool
  {
    if scans == [] then false
    else
      var k := |scans| - 1;
      ScanEnds(scans[..k], s)
      || (scans[k].host in Names(s.hosts)
          && |s.results| + |ScanAnswers(scans[..k], Names(s.hosts))| >= s.limits.maxToolCalls)
  }

  /** Why a scan brought nothing, or an error. */
  function ScanTally(scans: seq<Scan>, s: State, code: string): nat
  {
    if scans == [] then 0
    else
      var k := |scans| - 1;
      var scan := scans[k];
      ScanTally(scans[..k], s, code)
      + (if ScanEnds(scans[..k], s) then 0
         else if scan.host !in Names(s.hosts) then One(code, "phenomenon_scan_unresolved_host")
         else if ScanEnds(scans, s) then One(code, "phenomenon_scan_budget_exhausted")
         else if scan.args.None? then One(code, "phenomenon_scan_unusable")
         else if scan.outcome.Refusal? then One(code, "phenomenon_scan_blocked")
         else if scan.outcome.result.status.Error? then One(code, "phenomenon_scan_error") else 0)
  }

  function ScanTaken(scans: seq<Scan>, s: State): seq<ToolResult>
  {
    Take(ScanAnswers(scans, Names(s.hosts)),
         if |s.results| <= s.limits.maxToolCalls then s.limits.maxToolCalls - |s.results| else 0)
  }

  lemma {:induction false} ScansAreCounted(scans: seq<Scan>, s: State, code: string)
    requires |s.results| <= s.limits.maxToolCalls
    ensures var g := ScanAll(scans, s);
            && (g.done <==> ScanEnds(scans, s))
            && Tally(g.unknowns, code)
               == Tally(s.unknowns, code) + ScanTally(scans, s, code)
                  + MergeTally(s.evidence, ScanTaken(scans, s), code)
  {
    if scans == [] {
      NothingMerged(s.evidence, code);
    } else {
      var k := |scans| - 1;
      ScansAreCounted(scans[..k], s, code);
      ScannedExactly(scans[..k], s);
      hide MergeTally, Tally, One, Names, MergeInto, AllReadings;
      ScanIsCounted(ScanAll(scans[..k], s), scans[k], s, ScanTaken(scans[..k], s), code);
      TakenOneMore(scans, s);
      hide ScanOnce, ScanTaken, ScanAnswers;
    }
  }

  lemma TakenOneMore(scans: seq<Scan>, s: State)
    requires scans != [] && |s.results| <= s.limits.maxToolCalls
    ensures var scan := scans[|scans| - 1];
            var before := ScanTaken(scans[..|scans| - 1], s);
            && (|s.results| + |before| >= s.limits.maxToolCalls
                <==> |s.results| + |ScanAnswers(scans[..|scans| - 1], Names(s.hosts))| >= s.limits.maxToolCalls)
            && ScanTaken(scans, s)
               == if scan.host in Names(s.hosts) && scan.args.Some? && scan.outcome.Answer?
                     && |s.results| + |before| < s.limits.maxToolCalls then before + [scan.outcome.result] else before
  {
    hide Names;
  }

  lemma ScanIsCounted(acc: Gathered, scan: Scan, s: State, taken: seq<ToolResult>, code: string)
    requires acc.evidence == MergeInto(s.evidence, AllReadings(taken), 200).held
    requires acc.results == s.results + taken
    ensures var g := ScanOnce(acc, scan, s);
            var full := |s.results| + |taken| >= s.limits.maxToolCalls;
            && (g.done <==> acc.done || (scan.host in Names(s.hosts) && full))
            && Tally(g.unknowns, code) + MergeTally(s.evidence, taken, code)
               == Tally(acc.unknowns, code)
                  + (if acc.done then 0
                     else if scan.host !in Names(s.hosts) then One(code, "phenomenon_scan_unresolved_host")
                     else if full then One(code, "phenomenon_scan_budget_exhausted")
                     else if scan.args.None? then One(code, "phenomenon_scan_unusable")
                     else if scan.outcome.Refusal? then One(code, "phenomenon_scan_blocked")
                     else if scan.outcome.result.status.Error? then One(code, "phenomenon_scan_error") else 0)
                  + MergeTally(s.evidence,
                               if !acc.done && scan.host in Names(s.hosts) && !full && scan.args.Some?
                                  && scan.outcome.Answer? then taken + [scan.outcome.result] else taken, code)
  {
    if !acc.done && scan.host in Names(s.hosts) && |s.results| + |taken| < s.limits.maxToolCalls && scan.args.Some?
       && scan.outcome.Answer? {
      AnswerIsCounted(acc, scan, s, taken, code);
      hide ScanOnce;
    } else {
      TallyOneMore(acc.unknowns, "phenomenon_scan_unresolved_host", code);
      TallyOneMore(acc.unknowns, "phenomenon_scan_budget_exhausted", code);
      TallyOneMore(acc.unknowns, "phenomenon_scan_unusable", code);
      TallyOneMore(acc.unknowns, "phenomenon_scan_blocked", code);
    }
    hide MergeInto, AllReadings, Normalize, MergeTally, Tally, One, MergeNotes, Names;
  }

  lemma AnswerIsCounted(acc: Gathered, scan: Scan, s: State, taken: seq<ToolResult>, code: string)
    requires acc.evidence == MergeInto(s.evidence, AllReadings(taken), 200).held
    requires acc.results == s.results + taken && !acc.done && |acc.results| < s.limits.maxToolCalls
    requires scan.host in Names(s.hosts) && scan.args.Some? && scan.outcome.Answer?
    ensures var g := ScanOnce(acc, scan, s);
            var r := scan.outcome.result;
            && !g.done
            && Tally(g.unknowns, code) + MergeTally(s.evidence, taken, code)
               == Tally(acc.unknowns, code) + (if r.status.Error? then One(code, "phenomenon_scan_error") else 0)
                  + MergeTally(s.evidence, taken + [r], code)
  {
    var r := scan.outcome.result;
    MergesAreCounted(s.evidence, taken, r, code);
    var error := if r.status == Error then [Note("phenomenon_scan_error")] else [];
    TallyOneMore(acc.unknowns, "phenomenon_scan_error", code);
    assert acc.unknowns + [] == acc.unknowns;
    TallyJoin(acc.unknowns + error, MergeNotes(MergeInto(acc.evidence, Normalize(r), 200)), code);
    hide MergeInto, AllReadings, Normalize, MergeTally, Tally, One, MergeNotes, Names;
  }

  // ----- searching ----------------------------------------------------------

  /** Why a turn of the search brought nothing, or an error. The last one only reads. */
  function TurnTally(turn: SearchTurn, k: nat, code: string): nat
  {
    if k >= 2 || turn.tool.None? then 0
    else if turn.args.None? then One(code, "host_search_unusable")
    else if turn.outcome.Refusal? then One(code, "host_search_blocked")
    else if turn.outcome.result.status.Error? then One(code, "host_search_error") else 0
  }

  /** The notes of the turns taken, and one if the search wanted another and had no call left for it. */
  function SearchTally(turns: seq<SearchTurn>, s: State, wanted: seq<string>, same: (string, string) -> bool,
                       code: string): nat
  {
    if turns == [] then 0
    else
      var k := |turns| - 1;
      var before := turns[..k];
      SearchTally(before, s, wanted, same, code)
      + (if Ceilings.TurnsTaken(turns, s, wanted, same) == k + 1 then TurnTally(turns[k], k, code)
         else if Ceilings.TurnsTaken(before, s, wanted, same) == k && Ceilings.AllLookUp(before)
                 && !Ceilings.Satisfies(Ceilings.Reported(before), wanted, same)
         then One(code, "host_search_budget_exhausted") else 0)
  }

  lemma LiveTurnIsCounted(acc: Search, k: nat, turn: SearchTurn, s: State, wanted: seq<string>,
                          same: (string, string) -> bool, code: string)
    requires !acc.done && |acc.produced| == k <= 2
    ensures var satisfied := acc.found != [] && forall q | q in wanted :: Answered(acc.found, q);
            Tally(SearchOnce(acc, k, turn, s, wanted, same).unknowns, code)
            == Tally(acc.unknowns, code)
               + (if satisfied then 0
                  else if k < 2 && |s.results| + k >= s.limits.maxToolCalls
                  then One(code, "host_search_budget_exhausted") else TurnTally(turn, k, code))
  {
    TallyOneMore(acc.unknowns, "host_search_budget_exhausted", code);
    TallyOneMore(acc.unknowns, "host_search_unusable", code);
    TallyOneMore(acc.unknowns, "host_search_blocked", code);
    TallyOneMore(acc.unknowns, "host_search_error", code);
    assert acc.unknowns + [] == acc.unknowns;
    hide AddFound, Tally, One, Answered;
  }

  lemma TurnIsCounted(turns: seq<SearchTurn>, s: State, wanted: seq<string>, same: (string, string) -> bool,
                      acc: Search, code: string)
    requires 0 < |turns| <= MAX_HOST_SEARCH_TURNS + 1
    requires Ceilings.InStep(turns[..|turns| - 1], s, wanted, same, acc)
    ensures var k := |turns| - 1;
            var before := turns[..k];
            Tally(SearchOnce(acc, k, turns[k], s, wanted, same).unknowns, code)
            == Tally(acc.unknowns, code)
               + (if Ceilings.TurnsTaken(turns, s, wanted, same) == k + 1 then TurnTally(turns[k], k, code)
                  else if Ceilings.TurnsTaken(before, s, wanted, same) == k && Ceilings.AllLookUp(before)
                          && !Ceilings.Satisfies(Ceilings.Reported(before), wanted, same)
                  then One(code, "host_search_budget_exhausted") else 0)
  {
    var k := |turns| - 1;
    var before := turns[..k];
    hide AddFound, Tally, One, Ceilings.Reported, Ceilings.Satisfies, Answered, TurnTally;
    if acc.done {
      assert Ceilings.TurnsTaken(turns, s, wanted, same) == Ceilings.TurnsTaken(before, s, wanted, same);
    } else {
      StepTakesTurn(turns, s, wanted, same, acc);
      assert before[..k] == before;
      Ceilings.FoundAreReported(Ceilings.Reported(before), wanted, same);
      Ceilings.SatisfiedMeans(acc.found, Ceilings.Reported(before), wanted, same);
      LiveTurnIsCounted(acc, k, turns[k], s, wanted, same, code);
      hide SearchOnce, Ceilings.TurnsTaken, Ceilings.FoundOf, Ceilings.AllLookUp;
    }
  }

  lemma {:induction false} SearchIsCounted(turns: seq<SearchTurn>, s: State, wanted: seq<string>,
                                           same: (string, string) -> bool, code: string)
    requires |turns| <= MAX_HOST_SEARCH_TURNS + 1
    ensures Tally(SearchAll(turns, s, wanted, same).unknowns, code) == SearchTally(turns, s, wanted, same, code)
  {
    if turns != [] {
      var k := |turns| - 1;
      SearchIsCounted(turns[..k], s, wanted, same, code);
      Ceilings.SearchFinds(turns[..k], s, wanted, same);
      TurnIsCounted(turns, s, wanted, same, SearchAll(turns[..k], s, wanted, same), code);
      hide SearchOnce, Tally, Ceilings.InStep, Ceilings.TurnsTaken, Ceilings.Satisfies, Ceilings.Reported;
    }
  }

  /** Names reported that answer this request. */
  function Answering(items: seq<Discovered>, q: string, wanted: seq<string>,
                     same: (string, string) -> bool): set<string>
  {
    set d | d in items && MatchingQuery(d.name, wanted, same) == Some(q) :: d.name
  }

  /** A request that several names answer, or none. */
  function ResolvingTally(items: seq<Discovered>, some: seq<string>, wanted: seq<string>,
                          same: (string, string) -> bool, code: string): nat
  {
    if some == [] then 0
    else
      var answering := |Answering(items, some[|some| - 1], wanted, same)|;
      ResolvingTally(items, some[..|some| - 1], wanted, same, code)
      + (if answering > 1 then One(code, "host_ambiguous")
         else if answering == 0 then One(code, "host_not_found") else 0)
  }

  lemma {:induction false} MatchesHaveNames(found: seq<Host>, q: string)
    requires Distinct(Names(found))
    ensures Distinct(Names(Matches(found, q)))
  {
    if found != [] {
      var k := |found| - 1;
      Ceilings.EarlierDiffer(found);
      MatchesHaveNames(found[..k], q);
      Ceilings.MatchesAre(found[..k], q);
      var before := Matches(found[..k], q);
      assert before + [] == before;
      assert Names(before + [found[k]]) == Names(before) + [found[k].name];
      forall i | 0 <= i < |before| ensures Names(before)[i] != found[k].name { assert before[i] in before; }
    }
  }

  lemma MatchesAnswer(found: seq<Host>, items: seq<Discovered>, q: string, wanted: seq<string>,
                      same: (string, string) -> bool)
    requires Ceilings.FoundOf(found, items, wanted, same)
    ensures |Matches(found, q)| == |Answering(items, q, wanted, same)|
  {
    hide MatchingQuery;
    MatchesHaveNames(found, q);
    Ceilings.MatchesAre(found, q);
    var names := Names(Matches(found, q));
    forall name ensures name in names <==> name in Answering(items, q, wanted, same) {
      Ceilings.InNames(Matches(found, q), name);
      if d :| d in items && d.name == name && MatchingQuery(name, wanted, same) == Some(q) {
        var h := Ceilings.FoundEach(found, items, wanted, same, d);
        assert h in Matches(found, q);
      }
    }
    Ceilings.DistinctSize(names, Answering(items, q, wanted, same));
  }

  lemma {:induction false} ResolvingIsCounted(found: seq<Host>, items: seq<Discovered>, some: seq<string>,
                                              wanted: seq<string>, same: (string, string) -> bool, code: string)
    requires Ceilings.FoundOf(found, items, wanted, same)
    ensures Tally(ResolveWanted(found, some).unknowns, code) == ResolvingTally(items, some, wanted, same, code)
  {
    if some != [] {
      var k := |some| - 1;
      ResolvingIsCounted(found, items, some[..k], wanted, same, code);
      MatchesAnswer(found, items, some[k], wanted, same);
      var before := ResolveWanted(found, some[..k]).unknowns;
      TallyOneMore(before, "host_ambiguous", code);
      TallyOneMore(before, "host_not_found", code);
      hide Tally, One, Matches, Answering, Ceilings.FoundOf, SetDefault;
    }
  }

  lemma HostNotesAreCounted(env: Environment, s: State, turns: seq<SearchTurn>, code: string)
    requires |turns| <= MAX_HOST_SEARCH_TURNS + 1
    ensures Tally(ResolveHosts(s, env.wanted, env.same, turns).unknowns, code)
            == Tally(s.unknowns, code) + SearchTally(turns, s, env.wanted, env.same, code)
               + ResolvingTally(ReportedTo(env, s, turns), env.wanted, env.wanted, env.same, code)
  {
    var search := SearchAll(turns, s, env.wanted, env.same);
    var items := ReportedTo(env, s, turns);
    Ceilings.SearchFinds(turns, s, env.wanted, env.same);
    SearchIsCounted(turns, s, env.wanted, env.same, code);
    Ceilings.FoundAreReported(items, env.wanted, env.same);
    ResolvingIsCounted(search.found, items, env.wanted, env.wanted, env.same, code);
    TallyJoin(s.unknowns + search.unknowns, ResolveWanted(search.found, env.wanted).unknowns, code);
    TallyJoin(s.unknowns, search.unknowns, code);
    hide SearchAll, ResolveWanted, AddUnasked, Tally, SetPurposes, Ceilings.FoundOf, Ceilings.TurnsTaken;
  }

  // ----- over a run ---------------------------------------------------------

  /** What one visit has to say under this code. */
  ghost function VisitTally(env: Environment, node: Node, s: State, input: Input, code: string): nat
    requires Acceptable(node, s, input)
  {
    match node
    case HostResolver =>
      SearchTally(input.turns, s, env.wanted, env.same, code)
      + ResolvingTally(ReportedTo(env, s, input.turns), env.wanted, env.wanted, env.same, code)
    case PhenomenonNode => ScanTally(input.scans, s, code) + MergeTally(s.evidence, ScanTaken(input.scans, s), code)
    case ObservationPlanner => if s.stop.Some? then 0 else PlannerTally(s, input.proposals, code)
    case Router => Many(Refused(env, s.questions), code, "tool_routing_blocked")
    case Executor => OutcomesTally(input.outcomes, code)
    case Normalizer =>
      MergeTally(s.evidence, PlacedOf(s, s.lastObservations), code) + PlacingTally(s, s.lastObservations, code)
    case Updater => JudgingTally(s, input.decision, code)
    case ReportEval => if s.package.Some? then Many(input.findings, code, "report_check_failed") else 0
    case _ => 0
  }

  lemma {:induction false} FindingsAreCounted(n: nat, code: string)
    ensures Tally(seq(n, i => Note("report_check_failed")), code) == Many(n, code, "report_check_failed")
  {
    var all := seq(n, i => Note("report_check_failed"));
    if n > 0 {
      assert all[..n - 1] == seq(n - 1, i => Note("report_check_failed"));
      FindingsAreCounted(n - 1, code);
    }
  }

  lemma PlanningIsCounted(env: Environment, s: State, input: Input, code: string)
    requires input.Proposed?
    ensures Tally(PlanObservations(s, input.proposals, input.observationStop, env.registry).unknowns, code)
            == Tally(s.unknowns, code) + (if s.stop.Some? then 0 else PlannerTally(s, input.proposals, code))
  {
    ProposalsAreCounted(s, env.registry, input.proposals, code);
    hide ConsiderAll, Tally;
  }

  lemma CallingIsCounted(s: State, outcomes: seq<CallOutcome>, code: string)
    requires |outcomes| == |s.planned| && EntryOk(Executor, s)
    ensures Tally(ExecuteTools(s, outcomes).unknowns, code) == Tally(s.unknowns, code) + OutcomesTally(outcomes, code)
  {
    OutcomesAreCounted(s, s.planned, outcomes, code);
    hide CollectAll, Tally, OutcomesTally, Core;
  }

  lemma ReadingIsCountedOnce(s: State, code: string)
    requires EntryOk(Normalizer, s)
    ensures Tally(NormalizeEvidence(s).unknowns, code)
            == Tally(s.unknowns, code) + MergeTally(s.evidence, PlacedOf(s, s.lastObservations), code)
               + PlacingTally(s, s.lastObservations, code)
  {
    ReadingsAreCounted(s, s.lastObservations, code);
    hide NormalizeAll, Tally, PlacingTally, MergeTally, PlacedOf, Core;
    if s.lastObservations == [] { NothingToPlace(s, code); }
  }

  lemma NothingToPlace(s: State, code: string)
    ensures MergeTally(s.evidence, PlacedOf(s, []), code) == 0 && PlacingTally(s, [], code) == 0
  {
  }

  lemma CheckingIsCounted(s: State, findings: nat, code: string)
    ensures Tally(EvaluateReport(s, findings).unknowns, code)
            == Tally(s.unknowns, code) + (if s.package.Some? then Many(findings, code, "report_check_failed") else 0)
  {
    FindingsAreCounted(findings, code);
    TallyJoin(s.unknowns, seq(findings, i => Note("report_check_failed")), code);
  }

  lemma QuietNodes(env: Environment, node: Node, s: State, input: Input)
    requires Acceptable(node, s, input)
    requires node == HypothesisPlanner || node == Guard || node == PackageBuilder || node == Writer
    ensures var o := Updated(env, node, s, input); o.Next? ==> o.state.unknowns == s.unknowns
  {
    hide PackageValid, PackageCalls, Distinct;
  }

  lemma RouterIsCounted(env: Environment, s: State, code: string)
    requires EntryOk(Router, s) && RouteTools(s, env.registry, env.catalog).Next?
    ensures Tally(RouteTools(s, env.registry, env.catalog).state.unknowns, code)
            == Tally(s.unknowns, code) + Many(Refused(env, s.questions), code, "tool_routing_blocked")
  {
    hide EntryOk, QuestionsReady;
    AtRouter(s);
    if s.questions != [] {
      RoomForAll(s);
      RefusalsAreCounted(env, s, s.questions, code);
      RoutedNotes(env, s);
      hide RouteTools;
    }
    hide RouteAll, Tally;
  }

  lemma VisitIsCounted(env: Environment, c: Config, input: Input, code: string)
    requires c.At? && Acceptable(c.node, c.state, input) && EntryOk(c.node, c.state)
    requires Updated(env, c.node, c.state, input).Next?
    ensures Tally(Updated(env, c.node, c.state, input).state.unknowns, code)
            == Tally(c.state.unknowns, code) + VisitTally(env, c.node, c.state, input, code)
  {
    var s := c.state;
    hide EntryOk, Tally, ResolveHosts, ScanAll, PlanHypotheses, PlanObservations, RouteTools, ExecuteTools,
         NormalizeEvidence, UpdateHypotheses, GuardStop, BuildPackage, EvaluateReport, SearchTally, ResolvingTally,
         ScanTally, MergeTally, PlannerTally, OutcomesTally, PlacingTally, JudgingTally, Refused, FreshAnswers, Core;
    if c.node == HostResolver {
      HostNotesAreCounted(env, s, input.turns, code);
    } else if c.node == PhenomenonNode {
      EvidenceIsSound(PhenomenonNode, s);
      ScansAreCounted(input.scans, s, code);
    } else if c.node == ObservationPlanner {
      PlanningIsCounted(env, s, input, code);
    } else if c.node == Router {
      RouterIsCounted(env, s, code);
    } else if c.node == Executor {
      CallingIsCounted(s, input.outcomes, code);
    } else if c.node == Normalizer {
      ReadingIsCountedOnce(s, code);
    } else if c.node == Updater {
      JudgingIsCounted(s, input.decision, code);
    } else if c.node == ReportEval {
      CheckingIsCounted(s, input.findings, code);
    } else {
      QuietNodes(env, c.node, s, input);
    }
  }

  /**
   In every run, at every visit, under every code: what the node adds to the unknowns,
   ahead of the trim, is what it has to say of its inputs, and nothing else.
   */
  lemma EverythingTurnedAwayIsNoted(env: Environment, run: seq<Config>, inputs: seq<Input>, i: nat, code: string)
    requires IsRun(env, run, inputs) && i < |inputs| && run[i + 1].At?
    ensures run[i].At? && Acceptable(run[i].node, run[i].state, inputs[i])
    ensures var o := Updated(env, run[i].node, run[i].state, inputs[i]);
            && o.Next? && run[i + 1].state == Trimmed(o.state)
            && Tally(o.state.unknowns, code)
               == Tally(run[i].state.unknowns, code) + VisitTally(env, run[i].node, run[i].state, inputs[i], code)
  {
    hide Visited, Fresh, EntryOk, Trimmed, Updated, VisitTally, Acceptable, Tally;
    NextState(env, run, inputs, i);
    VisitIsCounted(env, run[i], inputs[i], code);
  }
}
