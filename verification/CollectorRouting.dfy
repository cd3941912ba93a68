/**
 What the router makes of a batch, in every run: exactly the licensed questions become
 calls, in their order, and a batch without one is sent back or ends the investigation.
 */
module CollectorRouting {
  import opened Wrappers
  import opened EvidenceMerge
  import opened StateCapacity
  import opened ToolPolicy
  import opened CollectorState
  import opened CollectorNodes
  import opened CollectorInvariants
  import opened CollectorBatches
  import opened CollectorCeilings
  import opened CollectorRun
  import opened CollectorTheorems
  import opened CollectorBatchRuns

  // ----- licences -----------------------------------------------------------

  /** A tool the live catalog knows to report the present only. */
  predicate PresentOnly(env: Environment, tool: string)
  {
    tool in env.catalog && env.catalog[tool].CurrentOnly?
  }

  /** What no better plan could make of this question. */
  predicate Hopeless(env: Environment, q: Question)
  {
    && q.tool.Some? && q.tool.value in env.registry
    && var policy := env.registry[q.tool.value];
    || (policy.blockedReason.Some? && policy.blockedReason.value != "")
    || (q.scope.Historical? && PresentOnly(env, q.tool.value))
    || (policy.kind.Generic? && !q.genericAllowed)
  }

  /** A question whose tool may be called for it. */
  predicate Licensed(env: Environment, q: Question)
  {
    && q.tool.Some? && q.tool.value in env.registry && !Hopeless(env, q)
    && ArgumentsFit(env.registry[q.tool.value], q.args)
  }

  lemma VerdictIsLicence(env: Environment, s: State, q: Question)
    requires q.tool.Some? && s.callCount < s.limits.maxToolCalls
    ensures var v := RouterVerdict(q, s, 0, env.registry, env.catalog);
            && (v == Allowed <==> Licensed(env, q))
            && (v.Refused? && !v.retryable <==> Hopeless(env, q))
  {
    VerdictsExactly(env.registry, q.tool.value, q.args, RouterContext(q, s, 0),
                    CatalogScope(env.catalog, q.tool.value));
    hide ValidateCall, ArgumentsFit;
  }

  function LicensedOf(env: Environment, questions: seq<Question>): seq<Question>
  {
    if questions == [] then []
    else
      var q := questions[|questions| - 1];
      LicensedOf(env, questions[..|questions| - 1]) + (if Licensed(env, q) then [q] else [])
  }

  /** Questions refused with the word that another plan could do better. */
  function SentBackOf(env: Environment, questions: seq<Question>): nat
  {
    if questions == [] then 0
    else
      var q := questions[|questions| - 1];
      SentBackOf(env, questions[..|questions| - 1])
      + (if q.tool.Some? && !Licensed(env, q) && !Hopeless(env, q) then 1 else 0)
  }

  lemma {:induction false} GrantedAreLicensed(env: Environment, s: State, questions: seq<Question>)
    requires questions != [] ==> s.callCount < s.limits.maxToolCalls
    ensures GrantedOf(questions, s, env.registry, env.catalog) == LicensedOf(env, questions)
    ensures Retryable(questions, s, env.registry, env.catalog) == SentBackOf(env, questions)
  {
    hide RouterVerdict, Licensed, Hopeless;
    if questions != [] {
      var k := |questions| - 1;
      GrantedAreLicensed(env, s, questions[..k]);
      if questions[k].tool.Some? { VerdictIsLicence(env, s, questions[k]); }
      else { NoToolNoLicence(env, questions[k]); }
    }
  }

  lemma NoToolNoLicence(env: Environment, q: Question)
    requires q.tool.None?
    ensures !Licensed(env, q)
  {
  }

  // ----- one routing --------------------------------------------------------

  /** The call a licensed question becomes. */
  predicate CallFor(call: Call, q: Question)
  {
    && Some(call.tool) == q.tool && call.args == q.args && call.purpose == q.text
    && call.targets == q.hypotheses && call.host == q.host
  }

  /** What becomes of a batch of questions at the router, short of an exception. */
  ghost predicate RoutedExactly(env: Environment, s: State, after: State)
  {
    var licensed := LicensedOf(env, s.questions);
    var sentBack := SentBackOf(env, s.questions);
    && |after.planned| == |licensed|
    && (forall n | 0 <= n < |licensed| :: CallFor(after.planned[n], licensed[n]))
    && (licensed != [] ==>
          after.attempts == 0 && after.rejections == [] && after.stop == s.stop && after.questions == s.questions)
    && (licensed == [] ==>
          && after.attempts == s.attempts + 1 && |after.rejections| == |s.rejections| + sentBack
          && s.rejections <= after.rejections
          && (if sentBack > 0 && s.attempts < 2 then after.stop == s.stop && after.questions == []
              else after.stop.Some? && after.questions == s.questions))
  }

  lemma {:induction false} LicensedAre(env: Environment, questions: seq<Question>)
    ensures forall q :: q in LicensedOf(env, questions) <==> q in questions && Licensed(env, q)
    ensures forall q | Licensed(env, q) :: q.tool.Some?
  {
    if questions != [] {
      var k := |questions| - 1;
      LicensedAre(env, questions[..k]);
      hide Licensed;
      assert forall q :: q in questions <==> q in questions[..k] || q == questions[k];
    }
  }

  lemma CallsAre(questions: seq<Question>)
    requires forall q | q in questions :: q.tool.Some?
    ensures |Calls(questions)| == |questions|
    ensures forall n | 0 <= n < |questions| :: CallFor(Calls(questions)[n], questions[n])
  {
  }

  /** What the loop over the questions comes to. */
  lemma LoopIsExact(env: Environment, s: State)
    requires QuestionsReady(s) && s.callCount == |s.results| && s.questions != []
    ensures var r := RouteAll(s.questions, s, env.registry, env.catalog);
            var licensed := LicensedOf(env, s.questions);
            && (r.raised <==> exists q | q in s.questions :: Licensed(env, q) && |q.text| > 1000)
            && (!r.raised ==>
                  && |r.planned| == |licensed| && |r.refusals| == SentBackOf(env, s.questions)
                  && forall n | 0 <= n < |licensed| :: CallFor(r.planned[n], licensed[n]))
  {
    hide RouteAll, RouterVerdict, Licensed, Hopeless, GrantedOf, LicensedOf, SentBackOf, Retryable, CallFor, Calls;
    GrantedAreLicensed(env, s, s.questions);
    RouterGrantsExactly(s, s.questions, env.registry, env.catalog);
    LicensedAre(env, s.questions);
    CallsAre(LicensedOf(env, s.questions));
    var r := RouteAll(s.questions, s, env.registry, env.catalog);
    RefusalsAreRetryable(s.questions, s, env.registry, env.catalog);
  }

  /** What the router does with a loop that did not raise. */
  lemma AfterTheLoop(env: Environment, s: State)
    requires s.questions != [] && !RouteAll(s.questions, s, env.registry, env.catalog).raised
    ensures var r := RouteAll(s.questions, s, env.registry, env.catalog);
            var o := RouteTools(s, env.registry, env.catalog);
            && o.Next? && o.state.planned == r.planned
            && (r.planned != [] ==>
                  o.state.attempts == 0 && o.state.rejections == [] && o.state.stop == s.stop
                  && o.state.questions == s.questions)
            && (r.planned == [] ==>
                  && o.state.attempts == s.attempts + 1 && o.state.rejections == s.rejections + r.refusals
                  && (if r.refusals != [] && s.attempts < 2 then o.state.stop == s.stop && o.state.questions == []
                      else o.state.stop.Some? && o.state.questions == s.questions))
  {
    hide RouteAll;
  }

  lemma RoutingIsExact(env: Environment, s: State)
    requires QuestionsReady(s) && s.callCount == |s.results| && s.questions != []
    ensures var o := RouteTools(s, env.registry, env.catalog);
            && (o.Raised? <==> exists q | q in s.questions :: Licensed(env, q) && |q.text| > 1000)
            && (o.Next? ==> RoutedExactly(env, s, o.state))
  {
    LoopIsExact(env, s);
    if RouteAll(s.questions, s, env.registry, env.catalog).raised {
      hide RouteAll, Licensed, RoutedExactly;
    } else {
      AfterTheLoop(env, s);
      hide RouteTools, RouteAll, Licensed, LicensedOf, SentBackOf, CallFor, QuestionsReady;
    }
  }

  lemma TrimmedRouting(env: Environment, s: State, after: State)
    requires RoutedExactly(env, s, after)
    ensures RoutedExactly(env, s, Trimmed(after))
  {
    hide StateCapacity.Rebuild, LicensedOf, SentBackOf, CallFor;
  }

  lemma RoutedTo(env: Environment, s: State, after: State)
    requires RoutedExactly(env, s, after) && after.fatal.None? && s.stop.None? && s.questions != []
    ensures AfterRouter(after)
            == if LicensedOf(env, s.questions) != [] then Executor
               else if SentBackOf(env, s.questions) > 0 && s.attempts < 2 then ObservationPlanner else PackageBuilder
  {
    hide LicensedOf, SentBackOf, CallFor;
  }

  lemma AtRouter(s: State)
    requires EntryOk(Router, s)
    ensures QuestionsReady(s) && s.callCount == |s.results| && s.fatal.None? && (s.questions != [] ==> s.stop.None?)
  {
  }

  /** In every run, at every visit of the router. */
  lemma BatchesAreRoutedExactly(env: Environment, run: seq<Config>, inputs: seq<Input>, i: nat)
    requires IsRun(env, run, inputs) && i < |inputs| && run[i].At? && run[i].node == Router
    requires run[i].state.questions != [] && run[i + 1].At?
    ensures RoutedExactly(env, run[i].state, run[i + 1].state)
    ensures run[i + 1].node
            == if LicensedOf(env, run[i].state.questions) != [] then Executor
               else if SentBackOf(env, run[i].state.questions) > 0 && run[i].state.attempts < 2
               then ObservationPlanner else PackageBuilder
  {
    hide Visited, Fresh, RoutedExactly, RouteTools, EntryOk, AfterRouter, Trimmed, LicensedOf, SentBackOf,
         QuestionsReady;
    NextState(env, run, inputs, i);
    var s := run[i].state;
    AtRouter(s);
    RoutingIsExact(env, s);
    var o := RouteTools(s, env.registry, env.catalog);
    RouterMoves(s, env.registry, env.catalog);
    TrimmedRouting(env, s, o.state);
    TrimmedFatal(o.state);
    RoutedTo(env, s, Trimmed(o.state));
  }

  lemma TrimmedFatal(s: State)
    ensures Trimmed(s).fatal == s.fatal
  {
    hide StateCapacity.Rebuild;
  }

  // ----- over a run ---------------------------------------------------------

  /** Every call of the batch was licensed, for a question the state still holds. */
  ghost predicate BatchIsLicensed(env: Environment, s: State)
  {
    forall call | call in s.planned :: exists q :: q in s.questions && Licensed(env, q) && CallFor(call, q)
  }

  lemma BatchStays(env: Environment, c: Config, input: Input)
    requires c.At? && Acceptable(c.node, c.state, input)
    requires c.node != Router && c.node != ObservationPlanner
    ensures var o := Updated(env, c.node, c.state, input);
            o.Next? ==> o.state.planned == c.state.planned && o.state.questions == c.state.questions
  {
    hide ResolveWanted, SearchAll, AddUnasked, SetPurposes, ScanAll, CollectAll, NormalizeAll, UpdateAll, ProposeAll,
         ConfirmAll, PackageValid, PackageCalls, Distinct, FreshAnswers;
  }

  lemma PlannerClears(s: State, proposals: seq<Proposal>, stop: Option<string>, registry: Registry)
    requires EntryOk(ObservationPlanner, s)
    ensures PlanObservations(s, proposals, stop, registry).planned == []
  {
    hide Core, ConsiderAll;
  }

  lemma RoutedIsLicensed(env: Environment, s: State, after: State)
    requires RoutedExactly(env, s, after)
    ensures BatchIsLicensed(env, after)
  {
    LicensedAre(env, s.questions);
    hide Licensed, CallFor, SentBackOf;
    forall call | call in after.planned
      ensures exists q :: q in after.questions && Licensed(env, q) && CallFor(call, q)
    {
      var n :| 0 <= n < |after.planned| && after.planned[n] == call;
      var q := LicensedOf(env, s.questions)[n];
      assert q in LicensedOf(env, s.questions);
    }
  }

  lemma NoBatchNoLicence(env: Environment, s: State)
    requires s.planned == []
    ensures BatchIsLicensed(env, s)
  {
  }

  lemma RouterLicenses(env: Environment, s: State)
    requires EntryOk(Router, s)
    ensures var o := RouteTools(s, env.registry, env.catalog); o.Next? ==> BatchIsLicensed(env, o.state)
  {
    AtRouter(s);
    if s.questions != [] {
      RoutingIsExact(env, s);
      var o := RouteTools(s, env.registry, env.catalog);
      hide RouteTools, RoutedExactly, BatchIsLicensed, EntryOk, QuestionsReady;
      if o.Next? { RoutedIsLicensed(env, s, o.state); }
    }
  }

  lemma VisitIsLicensed(env: Environment, c: Config, input: Input)
    requires c.At? && Acceptable(c.node, c.state, input) && EntryOk(c.node, c.state)
    requires BatchIsLicensed(env, c.state)
    ensures var o := Updated(env, c.node, c.state, input); o.Next? ==> BatchIsLicensed(env, o.state)
  {
    hide EntryOk, BatchIsLicensed, RouteTools, PlanObservations, Acceptable;
    if c.node == Router {
      RouterLicenses(env, c.state);
    } else if c.node == ObservationPlanner {
      ProposedAt(c.state, input);
      PlannerClears(c.state, input.proposals, input.observationStop, env.registry);
      NoBatchNoLicence(env, PlanObservations(c.state, input.proposals, input.observationStop, env.registry));
    } else {
      BatchStays(env, c, input);
      hide Updated;
      var o := Updated(env, c.node, c.state, input);
      if o.Next? { SameBatch(env, c.state, o.state); }
    }
  }

  /** Every planned call of every run is licensed. */
  lemma {:induction false} CallsAreLicensed(env: Environment, run: seq<Config>, inputs: seq<Input>, i: nat)
    requires IsRun(env, run, inputs) && i < |run| && run[i].At?
    ensures BatchIsLicensed(env, run[i].state)
  {
    if i == 0 {
      NoBatchNoLicence(env, run[0].state);
    } else {
      hide Visited, Fresh, EntryOk, BatchIsLicensed, Trimmed, Updated, NextNode, Acceptable;
      NextState(env, run, inputs, i - 1);
      var o := Updated(env, run[i - 1].node, run[i - 1].state, inputs[i - 1]);
      CallsAreLicensed(env, run, inputs, i - 1);
      VisitIsLicensed(env, run[i - 1], inputs[i - 1]);
      TrimmedBatch(o.state);
      SameBatch(env, o.state, run[i].state);
    }
  }

  lemma ProposedAt(s: State, input: Input)
    requires Acceptable(ObservationPlanner, s, input)
    ensures input.Proposed?
  {
  }

  lemma SameBatch(env: Environment, s: State, s': State)
    requires BatchIsLicensed(env, s) && s'.planned == s.planned && s'.questions == s.questions
    ensures BatchIsLicensed(env, s')
  {
  }

  /** No call of any run asks a tool that only knows the present about the past. */
  lemma ThePastIsNotAskedOfThePresent(env: Environment, run: seq<Config>, inputs: seq<Input>, i: nat, call: Call)
    requires IsRun(env, run, inputs) && i < |run| && run[i].At? && call in run[i].state.planned
    requires PresentOnly(env, call.tool)
    ensures exists q :: q in run[i].state.questions && CallFor(call, q) && !q.scope.Historical?
  {
    CallsAreLicensed(env, run, inputs, i);
  }
}
