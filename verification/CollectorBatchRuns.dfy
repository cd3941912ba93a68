/**
 The properties of a batch, at the visits of a run where they matter.
 */
module CollectorBatchRuns {
  import opened Wrappers
  import opened EvidenceMerge
  import opened ToolPolicy
  import opened CollectorState
  import opened CollectorNodes
  import opened CollectorInvariants
  import opened CollectorRun
  import opened CollectorTheorems
  import opened CollectorBatches

  /** What the visit after this node finds: the state this node left, trimmed. */
  lemma NextState(env: Environment, run: seq<Config>, inputs: seq<Input>, i: nat)
    requires IsRun(env, run, inputs) && i < |inputs| && run[i + 1].At?
    ensures run[i].At? && Acceptable(run[i].node, run[i].state, inputs[i]) && EntryOk(run[i].node, run[i].state)
    ensures var o := Updated(env, run[i].node, run[i].state, inputs[i]);
            o.Next? && run[i + 1] == At(NextNode(run[i].node, Trimmed(o.state)), Trimmed(o.state))
  {
    hide Visited, Fresh, EntryOk;
    assert Visited(env, run[i], inputs[i], run[i + 1]);
    VisitIsAcceptable(env, run[i], inputs[i], run[i + 1]);
    NodesEnteredSoundly(env, run, inputs, i);
    VisitMeans(env, run[i], inputs[i], run[i + 1]);
  }

  lemma VisitMeans(env: Environment, c: Config, input: Input, next: Config)
    requires Visited(env, c, input, next) && next.At?
    ensures c.At? && Acceptable(c.node, c.state, input)
    ensures var o := Updated(env, c.node, c.state, input);
            o.Next? && next == At(NextNode(c.node, Trimmed(o.state)), Trimmed(o.state))
  {
  }

  lemma TrimmedBatch(s: State)
    ensures var t := Trimmed(s);
            && t.questions == s.questions && t.planned == s.planned && t.callCount == s.callCount
            && t.limits == s.limits && t.purposes == s.purposes && t.lastObservations == s.lastObservations
            && t.hypotheses == s.hypotheses
  {
    hide StateCapacity.Rebuild;
  }

  /** In every run a batch of distinct questions reaches the tools whole. */
  lemma GrantedBatchesAreAccepted(env: Environment, run: seq<Config>, inputs: seq<Input>, i: nat, k: nat)
    requires IsRun(env, run, inputs) && i < |inputs| && run[i].At? && run[i].node == Router
    requires run[i + 1].At? && run[i + 1].node == Executor && k < |run[i + 1].state.planned|
    requires PairsDiffer(run[i].state.questions)
    ensures var s := run[i + 1].state;
            var call := s.planned[k];
            ValidateCall(env.registry, call.tool, call.args, ExecutorContext(s, call, k), AnyTime) == Allowed
  {
    hide Visited, Fresh, ValidateCall, RouteTools, AskedBy, PairsDiffer, Trimmed;
    NextState(env, run, inputs, i);
    var s := run[i].state;
    var o := RouteTools(s, env.registry, env.catalog);
    TrimmedBatch(o.state);
    RouterHolds(s);
    DistinctBatchIsAccepted(s, o.state, k, env.registry, env.catalog);
  }

  lemma RouterHolds(s: State)
    requires EntryOk(Router, s)
    ensures QuestionsReady(s) && s.callCount == |s.results|
  {
  }

  /** In every run an answer of such a batch is normalized against the call that got it. */
  lemma AnswersMeetTheirQuestions(env: Environment, run: seq<Config>, inputs: seq<Input>, i: nat, k: nat)
    requires IsRun(env, run, inputs) && i < |inputs| && run[i].At? && run[i].node == Executor && run[i + 1].At?
    requires Acceptable(Executor, run[i].state, inputs[i])
    requires k < |run[i].state.planned| && inputs[i].outcomes[k].Answer?
    requires inputs[i].outcomes[k].result.tool == run[i].state.planned[k].tool
    requires var planned := run[i].state.planned;
             forall j | 0 <= j < k :: planned[j].tool != planned[k].tool || planned[j].purpose != planned[k].purpose
    ensures run[i + 1].node == Normalizer
    ensures inputs[i].outcomes[k].result in run[i + 1].state.lastObservations
    ensures PlanFor(run[i + 1].state, inputs[i].outcomes[k].result) == Some(run[i].state.planned[k])
  {
    hide Visited, Fresh, ExecuteTools, FirstPlan, FirstOfTool, FreshAnswers, EntryOk, Trimmed;
    NextState(env, run, inputs, i);
    var s := run[i].state;
    TrimmedBatch(ExecuteTools(s, inputs[i].outcomes));
    AnswersFindTheirPlans(s, inputs[i].outcomes, k);
  }

  lemma {:induction false} ProposalsOnlyAppend(acc: Revised, proposed: seq<Hypothesis>)
    ensures acc.hypotheses <= ProposeAll(acc, proposed).hypotheses
  {
    if proposed != [] { ProposalsOnlyAppend(acc, proposed[..|proposed| - 1]); }
  }

  /** In every run the updater leaves each hypothesis exactly as its last update proposed it. */
  lemma HypothesesEndAsProposed(env: Environment, run: seq<Config>, inputs: seq<Input>, i: nat, h: nat)
    requires IsRun(env, run, inputs) && i < |inputs| && run[i].At? && run[i].node == Updater && run[i + 1].At?
    requires h < |run[i].state.hypotheses| && inputs[i].Judged?
    ensures |run[i].state.hypotheses| <= |run[i + 1].state.hypotheses|
    ensures var s := run[i].state;
            var last := LastUpdate(inputs[i].decision.updates, s.hypotheses[h].id);
            run[i + 1].state.hypotheses[h]
            == if last.Some? then AsProposed(s.hypotheses[h], last.value, Ids(s.evidence)) else s.hypotheses[h]
  {
    hide Visited, Fresh, UpdateAll, ProposeAll, ConfirmAll, Trimmed, LastUpdate, Holds;
    NextState(env, run, inputs, i);
    var s := run[i].state;
    var d := inputs[i].decision;
    LastUpdateDecides(s, d.updates, h);
    ProposalsOnlyAppend(UpdateAll(d.updates, s), d.newHypotheses);
    TrimmedBatch(UpdateHypotheses(s, d).state);
  }
}
