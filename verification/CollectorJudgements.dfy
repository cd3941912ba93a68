/**
 What the updater makes of a turn, in every run: the facts it confirms, the hypotheses it
 takes up, and the reason to stop it passes on.
 */
module CollectorJudgements {
  import opened Wrappers
  import opened EvidenceMerge
  import opened StateCapacity
  import opened ToolPolicy
  import opened CollectorState
  import opened CollectorNodes
  import opened CollectorInvariants
  import opened CollectorCeilings
  import opened CollectorRun
  import opened CollectorTheorems
  import opened CollectorBatchRuns
  import opened CollectorStages
  import opened CollectorRecords

  // ----- facts --------------------------------------------------------------

  /** Every citation of a fact is held. */
  predicate Supported(f: Fact, s: State)
  {
    forall id | id in f.evidenceIds :: id in Ids(s.evidence)
  }

  /** Known facts keep their places; of the new ones the supported are added, once each. */
  ghost predicate ConfirmedTo(before: seq<Fact>, newFacts: seq<Fact>, s: State, facts: seq<Fact>)
  {
    && before <= facts
    && (forall f :: f in facts <==> f in before || (f in newFacts && Supported(f, s)))
    && (forall n, m | |before| <= n < |facts| && 0 <= m < n :: facts[m] != facts[n])
  }

  lemma {:induction false} FactsAreConfirmed(acc: Confirmed, newFacts: seq<Fact>, s: State)
    ensures ConfirmedTo(acc.facts, newFacts, s, ConfirmAll(acc, newFacts, s).facts)
  {
    if newFacts != [] {
      var k := |newFacts| - 1;
      FactsAreConfirmed(acc, newFacts[..k], s);
      assert forall f :: f in newFacts <==> f in newFacts[..k] || f == newFacts[k];
      assert Supported(newFacts[k], s) <==> Within(newFacts[k].evidenceIds, Ids(s.evidence));
      hide Supported, Within, Ids;
    }
  }

  lemma TrimmedFacts(s: State)
    ensures Trimmed(s).facts == Take(s.facts, 100)
  {
    hide Findings;
  }

  // ----- hypotheses ---------------------------------------------------------

  /** The first proposal under an id that no hypothesis has yet, taken up with nothing for or against it. */
  ghost predicate TakenUpFrom(h: Hypothesis, held: seq<string>, proposed: seq<Hypothesis>)
  {
    h.id !in held &&
    exists k :: 0 <= k < |proposed| && TakenUp(h, proposed[k]) && forall j | 0 <= j < k :: proposed[j].id != h.id
  }

  lemma EarlierTakenUp(h: Hypothesis, held: seq<string>, proposed: seq<Hypothesis>, k: nat)
    requires k <= |proposed| && TakenUpFrom(h, held, proposed[..k])
    ensures TakenUpFrom(h, held, proposed)
  {
    hide TakenUp;
    var m :| 0 <= m < k && TakenUp(h, proposed[..k][m]) && forall j | 0 <= j < m :: proposed[..k][j].id != h.id;
    assert TakenUp(h, proposed[m]) && forall j | 0 <= j < m :: proposed[..k][j] == proposed[j];
  }

  lemma {:induction false} NewAreTakenUp(acc: Revised, proposed: seq<Hypothesis>)
    ensures var r := ProposeAll(acc, proposed).hypotheses;
            && acc.hypotheses <= r
            && forall n | |acc.hypotheses| <= n < |r| :: TakenUpFrom(r[n], HypothesisIds(acc.hypotheses), proposed)
  {
    if proposed != [] {
      var k := |proposed| - 1;
      NewAreTakenUp(acc, proposed[..k]);
      ProposalsAdd(acc, proposed[..k]);
      var before := ProposeAll(acc, proposed[..k]).hypotheses;
      var r := ProposeAll(acc, proposed).hypotheses;
      var held := HypothesisIds(acc.hypotheses);
      LastTakenUp(held, proposed);
      hide TakenUpFrom;
      forall n | |acc.hypotheses| <= n < |r| ensures TakenUpFrom(r[n], held, proposed) {
        if n < |before| { EarlierTakenUp(before[n], held, proposed, k); }
      }
    }
  }

  lemma LastTakenUp(held: seq<string>, proposed: seq<Hypothesis>)
    requires proposed != []
    ensures var last := proposed[|proposed| - 1];
            last.id !in held && last.id !in NewIds(proposed[..|proposed| - 1], held) ==>
              TakenUpFrom(Cleared(last), held, proposed)
  {
    FirstUnderItsId(proposed, held);
    assert TakenUp(Cleared(proposed[|proposed| - 1]), proposed[|proposed| - 1]);
  }

  lemma FirstUnderItsId(proposed: seq<Hypothesis>, held: seq<string>)
    requires proposed != []
    ensures var k := |proposed| - 1;
            proposed[k].id !in held && proposed[k].id !in NewIds(proposed[..k], held) ==>
              forall j | 0 <= j < k :: proposed[j].id != proposed[k].id
  {
    var k := |proposed| - 1;
    forall j | 0 <= j < k ensures HypothesisIds(proposed[..k])[j] == proposed[j].id {}
  }

  // ----- over a run ---------------------------------------------------------

  /**
   In every run: of the facts a turn brings, those that cite held evidence only are added,
   once each and up to the ceiling; new hypotheses are taken up after those already held;
   and the investigation stops when the updater says so.
   */
  lemma TurnsAreJudged(env: Environment, run: seq<Config>, inputs: seq<Input>, i: nat) returns (facts: seq<Fact>)
    requires IsRun(env, run, inputs) && i < |inputs| && run[i].At? && run[i].node == Updater && run[i + 1].At?
    ensures inputs[i].Judged?
    ensures ConfirmedTo(run[i].state.facts, inputs[i].decision.newFacts, run[i].state, facts)
    ensures run[i + 1].state.facts == Take(facts, 100)
    ensures var s := run[i].state;
            var d := inputs[i].decision;
            var after := run[i + 1].state.hypotheses;
            && HypothesisIds(s.hypotheses) <= HypothesisIds(after)
            && |after| == |s.hypotheses| + |NewIds(d.newHypotheses, HypothesisIds(s.hypotheses))|
            && (forall n | |s.hypotheses| <= n < |after| ::
                  TakenUpFrom(after[n], HypothesisIds(s.hypotheses), d.newHypotheses))
            && run[i + 1].state.stop == d.stop && run[i + 1].node == Guard
  {
    hide Visited, Fresh, Trimmed, EntryOk, UpdateHypotheses;
    NextState(env, run, inputs, i);
    var s := run[i].state;
    var d := inputs[i].decision;
    facts := JudgedState(s, d);
    var after := UpdateHypotheses(s, d).state;
    TrimmedFacts(after);
    TrimmedBatch(after);
    TrimmedStop(after);
    hide ConfirmedTo, TakenUpFrom, NewIds, HypothesisIds, Take;
  }

  lemma JudgedState(s: State, d: UpdateDecision) returns (facts: seq<Fact>)
    requires UpdateHypotheses(s, d).Next?
    ensures ConfirmedTo(s.facts, d.newFacts, s, facts)
    ensures var next := UpdateHypotheses(s, d).state;
            && next.facts == facts && next.stop == d.stop
            && HypothesisIds(s.hypotheses) <= HypothesisIds(next.hypotheses)
            && |next.hypotheses| == |s.hypotheses| + |NewIds(d.newHypotheses, HypothesisIds(s.hypotheses))|
            && (forall n | |s.hypotheses| <= n < |next.hypotheses| ::
                  TakenUpFrom(next.hypotheses[n], HypothesisIds(s.hypotheses), d.newHypotheses))
  {
    var updated := UpdateAll(d.updates, s);
    var revised := ProposeAll(updated, d.newHypotheses);
    UpdatesKeepCount(s, d.updates);
    assert |HypothesisIds(updated.hypotheses)| == |updated.hypotheses|;
    assert |HypothesisIds(s.hypotheses)| == |s.hypotheses|;
    NewAreTakenUp(updated, d.newHypotheses);
    ProposalsAdd(updated, d.newHypotheses);
    PrefixOfIds(updated.hypotheses, revised.hypotheses);
    FactsAreConfirmed(Confirmed(s.facts, revised.unknowns), d.newFacts, s);
    facts := ConfirmAll(Confirmed(s.facts, revised.unknowns), d.newFacts, s).facts;
    hide ConfirmedTo, TakenUpFrom, NewIds, HypothesisIds, UpdateAll, ProposeAll, ConfirmAll;
  }

  lemma PrefixOfIds(a: seq<Hypothesis>, b: seq<Hypothesis>)
    requires a <= b
    ensures HypothesisIds(a) <= HypothesisIds(b)
  {
  }

  // ----- what a node leaves alone -------------------------------------------

  const SAY_NOTHING: set<Node> := {HypothesisPlanner, Guard, PackageBuilder, Writer}

  /** In every run a node writes its own fields and leaves the others to the next, but for the trim. */
  lemma NodesWriteTheirOwn(env: Environment, run: seq<Config>, inputs: seq<Input>, i: nat)
    requires IsRun(env, run, inputs) && i < |inputs| && run[i + 1].At?
    ensures run[i].At?
    ensures WritesOnly(run[i].node, run[i].state,
                       run[i + 1].state.(unknowns := if run[i].node in SAY_NOTHING then run[i].state.unknowns
                                                     else run[i + 1].state.unknowns,
                                         facts := if run[i].node == Updater then run[i + 1].state.facts
                                                  else run[i].state.facts))
    ensures run[i].node != Updater ==> run[i + 1].state.facts == Take(run[i].state.facts, 100)
  {
    hide Visited, Fresh, EntryOk, Trimmed, WritesOnly, ResolveHosts, EstablishPhenomenon, PlanHypotheses,
         PlanObservations, RouteTools, ExecuteTools, NormalizeEvidence, UpdateHypotheses, GuardStop, BuildPackage,
         EvaluateReport, FreshAnswers;
    NextState(env, run, inputs, i);
    var s := run[i].state;
    PlannersWriteTheirOwn(env, s, inputs[i]);
    CallersWriteTheirOwn(env, s, inputs[i]);
    ClosersWriteTheirOwn(s, inputs[i]);
    StandsStill(s);
    TrimmedOwn(run[i].node, s, Updated(env, run[i].node, s, inputs[i]).state);
  }

  lemma TrimmedOwn(node: Node, s: State, after: State)
    requires WritesOnly(node, s, after) && node != Finished
    ensures var t := Trimmed(after);
            && WritesOnly(node, s, t.(unknowns := if node in SAY_NOTHING then s.unknowns else t.unknowns,
                                      facts := if node == Updater then t.facts else s.facts))
            && (node != Updater ==> t.facts == Take(s.facts, 100))
  {
    TrimmedFacts(after);
    TrimmingKeepsFacts(after);
    hide StateCapacity.Rebuild, Trimmed;
  }
}
