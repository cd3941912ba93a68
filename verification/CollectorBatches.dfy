/**
 One cycle's batch on its way from the router through the executor and back: which calls
 are granted, whether the adapter agrees, which plan an answer is read against, and what
 a hypothesis ends up citing.
 */
module CollectorBatches {
  import opened Wrappers
  import opened EvidenceMerge
  import opened ToolPolicy
  import opened CollectorState
  import opened CollectorNodes
  import opened CollectorInvariants

  // ----- what the router grants ---------------------------------------------

  /** The questions the router grants, judged as if each came first. */
  function GrantedOf(questions: seq<Question>, s: State, registry: Registry, catalog: Catalog): seq<Question>
  {
    if questions == [] then []
    else
      var q := questions[|questions| - 1];
      GrantedOf(questions[..|questions| - 1], s, registry, catalog)
      + (if q.tool.Some? && RouterVerdict(q, s, 0, registry, catalog) == Allowed then [q] else [])
  }

  function Calls(questions: seq<Question>): seq<Call>
    requires forall q | q in questions :: q.tool.Some?
  {
    seq(|questions|, i requires 0 <= i < |questions| => Granted(questions[i]))
  }

  lemma {:induction false} GrantedAreAsked(questions: seq<Question>, s: State, registry: Registry, catalog: Catalog)
    ensures |GrantedOf(questions, s, registry, catalog)| <= |questions|
    ensures forall q :: q in GrantedOf(questions, s, registry, catalog)
              <==> q in questions && q.tool.Some? && RouterVerdict(q, s, 0, registry, catalog) == Allowed
  {
    hide RouterVerdict;
    if questions != [] {
      var k := |questions| - 1;
      GrantedAreAsked(questions[..k], s, registry, catalog);
      assert forall x :: x in questions <==> x in questions[..k] || x == questions[k];
    }
  }

  /** Within the budget a place in the batch changes nothing about the verdict. */
  lemma PlaceDoesNotMatter(q: Question, s: State, n: nat, registry: Registry, catalog: Catalog)
    requires q.tool.Some? && s.callCount + n < s.limits.maxToolCalls
    ensures RouterVerdict(q, s, n, registry, catalog) == RouterVerdict(q, s, 0, registry, catalog)
  {
    hide ArgumentCheck;
  }

  predicate TooLong(q: Question) { |q.text| > MAX_PURPOSE }

  /**
   A batch that fits the budget is granted question by question, unless one of them is
   granted and too long for a call's purpose: then the router raises.
   */
  lemma {:induction false} RouterGrantsExactly(s: State, questions: seq<Question>, registry: Registry, catalog: Catalog)
    requires s.callCount + |questions| <= s.limits.maxToolCalls
    ensures GrantedAs(RouteAll(questions, s, registry, catalog), GrantedOf(questions, s, registry, catalog))
    ensures |RouteAll(questions, s, registry, catalog).planned| <= |questions|
  {
    hide RouterVerdict, GrantedAs;
    if questions == [] {
      NothingGranted(s);
    } else {
      var k := |questions| - 1;
      RouterGrantsExactly(s, questions[..k], registry, catalog);
      GrantedAreAsked(questions[..k], s, registry, catalog);
      GrantOne(s, RouteAll(questions[..k], s, registry, catalog), GrantedOf(questions[..k], s, registry, catalog),
               questions[k], registry, catalog);
    }
  }

  /** A routing that stands for these granted questions: it raised, or it planned one call for each. */
  ghost predicate GrantedAs(r: Routing, granted: seq<Question>)
  {
    && (forall q | q in granted :: q.tool.Some?)
    && (r.raised <==> exists q | q in granted :: TooLong(q))
    && (!r.raised ==> r.planned == Calls(granted))
  }

  lemma NothingGranted(s: State)
    ensures GrantedAs(Routing([], s.unknowns, [], false), [])
  {
  }

  lemma GrantOne(s: State, acc: Routing, granted: seq<Question>, q: Question, registry: Registry, catalog: Catalog)
    requires GrantedAs(acc, granted) && s.callCount + |acc.planned| < s.limits.maxToolCalls
    ensures var allowed := q.tool.Some? && RouterVerdict(q, s, 0, registry, catalog) == Allowed;
            GrantedAs(RouteOnce(acc, q, s, registry, catalog), granted + (if allowed then [q] else []))
    ensures |RouteOnce(acc, q, s, registry, catalog).planned| <= |acc.planned| + 1
  {
    hide RouterVerdict;
    var allowed := q.tool.Some? && RouterVerdict(q, s, 0, registry, catalog) == Allowed;
    if q.tool.Some? { PlaceDoesNotMatter(q, s, |acc.planned|, registry, catalog); }
    if allowed {
      assert q in granted + [q];
      assert forall x | x in granted :: x in granted + [q];
    } else {
      assert granted + [] == granted;
    }
  }

  /** The router node raises exactly when a question it would grant is too long to be a purpose. */
  lemma RouterRaisesExactly(s: State, registry: Registry, catalog: Catalog)
    requires QuestionsReady(s) && s.callCount == |s.results|
    ensures RouteTools(s, registry, catalog).Raised?
            <==> exists q | q in s.questions ::
                   q.tool.Some? && TooLong(q) && RouterVerdict(q, s, 0, registry, catalog) == Allowed
  {
    hide RouterVerdict, RouteAll, GrantedOf;
    RouterGrantsExactly(s, s.questions, registry, catalog);
    GrantedAreAsked(s.questions, s, registry, catalog);
  }

  /** The planner's schema admits such a question: 2000 characters against a purpose's 1000. */
  lemma LongQuestionRaises(s: State, q: Question, registry: Registry, catalog: Catalog)
    requires QuestionsReady(s) && s.callCount == |s.results| && q in s.questions
    requires q == Question(seq(1001, i => 'x'), q.hypotheses, Timeless, Some("get_shards"), map[], None, false)
    requires registry == DefaultRegistry() && "get_shards" !in catalog
    ensures RouteTools(s, registry, catalog).Raised?
  {
    DefaultEntries();
    hide DefaultRegistry;
    assert |s.questions| > 0;
    RouterRaisesExactly(s, registry, catalog);
    hide RouteTools, QuestionsReady;
    assert TooLong(q);
    assert RouterVerdict(q, s, 0, registry, catalog) == Allowed;
  }

  // ----- the adapter's second look ------------------------------------------

  /** No two questions of a batch share both tool and text. */
  predicate PairsDiffer(questions: seq<Question>)
  {
    forall i, j | 0 <= i < j < |questions| ::
      questions[i].tool != questions[j].tool || questions[i].text != questions[j].text
  }

  lemma {:induction false} AskedForSome(questions: seq<Question>, q: Question)
    requires q in questions && q.tool.Some?
    ensures AskedBy(questions, Granted(q)).Some?
    ensures PairsDiffer(questions) ==> AskedBy(questions, Granted(q)) == Some(q)
  {
    var k := |questions| - 1;
    if questions[k].tool != q.tool || questions[k].text != q.text {
      AskedForSome(questions[..k], q);
    } else {
      var i :| 0 <= i < |questions| && questions[i] == q;
    }
  }

  /** The batch a router leaves, and the record it was judged against. */
  predicate Routed(s: State, s': State, registry: Registry, catalog: Catalog)
  {
    RouteTools(s, registry, catalog) == Next(s') && s'.planned != []
  }

  lemma RoutedBatch(s: State, s': State, registry: Registry, catalog: Catalog)
    requires QuestionsReady(s) && s.callCount == |s.results| && Routed(s, s', registry, catalog)
    ensures s'.questions == s.questions && s'.callCount == s.callCount && s'.limits == s.limits
    ensures var granted := GrantedOf(s.questions, s, registry, catalog);
            && (forall q | q in granted :: q.tool.Some? && q in s.questions)
            && s'.planned == Calls(granted)
            && s.callCount + |granted| <= s.limits.maxToolCalls
  {
    hide RouterVerdict, RouteAll, GrantedOf;
    RouterGrantsExactly(s, s.questions, registry, catalog);
    GrantedAreAsked(s.questions, s, registry, catalog);
  }

  /**
   The adapter accepts a granted call under the context the executor rebuilds exactly
   when its tool needs no permission or the last question with its tool and text has it.
   */
  lemma AdapterAgreesExactly(s: State, s': State, k: nat, registry: Registry, catalog: Catalog)
    requires QuestionsReady(s) && s.callCount == |s.results| && Routed(s, s', registry, catalog)
    requires k < |s'.planned|
    ensures s'.planned[k].tool in registry && AskedBy(s'.questions, s'.planned[k]).Some?
    ensures var call := s'.planned[k];
            ValidateCall(registry, call.tool, call.args, ExecutorContext(s', call, k), AnyTime) == Allowed
            <==> || registry[call.tool].kind != Generic
                 || AskedBy(s'.questions, call).value.genericAllowed
  {
    RoutedBatch(s, s', registry, catalog);
    GrantedAreAsked(s.questions, s, registry, catalog);
    var granted := GrantedOf(s.questions, s, registry, catalog);
    var q := granted[k];
    assert q in granted;
    PlaceDoesNotMatter(q, s, k, registry, catalog);
    AskedForSome(s.questions, q);
    hide RouteTools, GrantedOf, ValidateCall, AskedBy, QuestionsReady;
    SecondValidation(registry, q.tool.value, q.args, RouterContext(q, s, k), CatalogScope(catalog, q.tool.value),
                     ExecutorContext(s', s'.planned[k], k));
  }

  /** So a batch whose questions differ is never refused what the router granted it. */
  lemma DistinctBatchIsAccepted(s: State, s': State, k: nat, registry: Registry, catalog: Catalog)
    requires QuestionsReady(s) && s.callCount == |s.results| && Routed(s, s', registry, catalog)
    requires k < |s'.planned| && PairsDiffer(s.questions)
    ensures var call := s'.planned[k];
            ValidateCall(registry, call.tool, call.args, ExecutorContext(s', call, k), AnyTime) == Allowed
  {
    RoutedBatch(s, s', registry, catalog);
    GrantedAreAsked(s.questions, s, registry, catalog);
    var granted := GrantedOf(s.questions, s, registry, catalog);
    var q := granted[k];
    assert q in granted;
    AskedForSome(s.questions, q);
    GrantedIsPermitted(q, s, registry, catalog);
    AdapterAgreesExactly(s, s', k, registry, catalog);
    hide Routed, GrantedOf, AskedBy, ValidateCall, RouterVerdict, QuestionsReady;
  }

  lemma GrantedIsPermitted(q: Question, s: State, registry: Registry, catalog: Catalog)
    requires q.tool.Some? && RouterVerdict(q, s, 0, registry, catalog) == Allowed
    ensures q.tool.value in registry && (registry[q.tool.value].kind != Generic || q.genericAllowed)
  {
    hide ArgumentCheck;
  }

  /** A question that may use the escape hatch, asked again without the permission. */
  const VOLUME :=
    Question("volume", ["h1"], Timeless, Some("esql"), map["query" := Text("FROM logs | STATS COUNT(*)")], None, true)
  const REPEATED := VOLUME.(genericAllowed := false)

  lemma FirstIsGranted(s: State)
    requires s.callCount + 2 <= s.limits.maxToolCalls
    ensures RouterVerdict(VOLUME, s, 0, DefaultRegistry(), map[]) == Allowed
    ensures var v := RouterVerdict(REPEATED, s, 1, DefaultRegistry(), map[]); v.Refused? && !v.retryable
  {
    DefaultEntries();
    hide DefaultRegistry;
    var args := VOLUME.args;
    assert Present(args, "query");
    assert ArgumentCheck(DefaultRegistry()["esql"], args) == Allowed;
    hide ArgumentCheck;
  }

  lemma OnlyFirstIsPlanned(s: State)
    requires s.callCount + 2 <= s.limits.maxToolCalls
    ensures RouteAll([VOLUME, REPEATED], s, DefaultRegistry(), map[]).planned == [Granted(VOLUME)]
    ensures !RouteAll([VOLUME, REPEATED], s, DefaultRegistry(), map[]).raised
  {
    FirstIsGranted(s);
    hide RouterVerdict, DefaultRegistry;
    var none := Routing([], s.unknowns, [], false);
    assert [VOLUME][..0] == [];
    assert RouteAll([VOLUME], s, DefaultRegistry(), map[]) == RouteOnce(none, VOLUME, s, DefaultRegistry(), map[]);
    var first := none.(planned := [Granted(VOLUME)]);
    assert |VOLUME.text| == 6;
    assert [VOLUME, REPEATED][..1] == [VOLUME];
    assert RouteAll([VOLUME, REPEATED], s, DefaultRegistry(), map[])
        == RouteOnce(first, REPEATED, s, DefaultRegistry(), map[]);
  }

  /** Without that, the adapter can refuse it: the same question twice, permitted only once. */
  lemma RepeatedQuestionIsRefused(s: State)
    requires s.callCount + 2 <= s.limits.maxToolCalls && s.questions == [VOLUME, REPEATED]
    ensures var o := RouteTools(s, DefaultRegistry(), map[]);
            && o.Next? && o.state.planned == [Granted(VOLUME)]
            && var context := ExecutorContext(o.state, o.state.planned[0], 0);
            ValidateCall(DefaultRegistry(), "esql", VOLUME.args, context, AnyTime).Refused?
  {
    OnlyFirstIsPlanned(s);
    DefaultEntries();
    hide RouteAll, DefaultRegistry, ArgumentCheck;
    var q := [VOLUME, REPEATED];
    assert q[|q| - 1] == REPEATED && REPEATED.tool == VOLUME.tool && REPEATED.text == VOLUME.text;
    assert AskedBy(q, Granted(VOLUME)) == Some(REPEATED);
  }

  // ----- which plan an answer is read against -------------------------------

  /** The first call of the batch with this call's tool and purpose. */
  function FirstLike(planned: seq<Call>, call: Call): (k: nat)
    requires call in planned
    ensures k < |planned| && planned[k].tool == call.tool && planned[k].purpose == call.purpose
    ensures forall i | 0 <= i < k :: planned[i].tool != call.tool || planned[i].purpose != call.purpose
  {
    if planned[0].tool == call.tool && planned[0].purpose == call.purpose then 0
    else
      assert planned == [planned[0]] + planned[1..];
      1 + FirstLike(planned[1..], call)
  }

  lemma {:induction false} FirstPlanIsFirst(planned: seq<Call>, call: Call)
    requires call in planned
    ensures FirstPlan(planned, call.tool, Some(call.purpose)) == Some(planned[FirstLike(planned, call)])
  {
    if planned[0].tool != call.tool || planned[0].purpose != call.purpose {
      assert planned == [planned[0]] + planned[1..];
      FirstPlanIsFirst(planned[1..], call);
    }
  }

  /** Every answer of the batch is recorded under the purpose of the call that got it. */
  lemma {:induction false} PurposesAreRecorded(s: State, calls: seq<Call>, outcomes: seq<CallOutcome>, k: nat)
    requires |outcomes| == |calls| && k < |calls| && FreshAnswers(outcomes, s.results) && outcomes[k].Answer?
    ensures var e := CollectAll(calls, outcomes, s);
            var r := outcomes[k].result;
            r in e.observations && r.callId in e.purposes && e.purposes[r.callId] == calls[k].purpose
  {
    var last := |calls| - 1;
    FreshPrefix(outcomes, s.results, last);
    if k < last {
      assert outcomes[..last][k] == outcomes[k];
      PurposesAreRecorded(s, calls[..last], outcomes[..last], k);
    }
  }

  /**
   Whichever calls of the batch raised, an answer is read against the first plan with
   its call's tool and purpose; so against its own exactly when that first plan is it.
   */
  lemma AnswersFindTheirPlans(s: State, outcomes: seq<CallOutcome>, k: nat)
    requires |outcomes| == |s.planned| && k < |s.planned| && FreshAnswers(outcomes, s.results)
    requires outcomes[k].Answer? && outcomes[k].result.tool == s.planned[k].tool
    ensures var s' := ExecuteTools(s, outcomes);
            var r := outcomes[k].result;
            && r in s'.lastObservations
            && PlanFor(s', r) == Some(s.planned[FirstLike(s.planned, s.planned[k])])
            && (FirstLike(s.planned, s.planned[k]) == k ==> PlanFor(s', r) == Some(s.planned[k]))
  {
    PurposesAreRecorded(s, s.planned, outcomes, k);
    FirstPlanIsFirst(s.planned, s.planned[k]);
    hide CollectAll, FirstPlan, FreshAnswers;
  }

  /** Distinct questions make distinct plans, so every answer finds its own. */
  lemma DistinctBatchPairsItsAnswers(s: State, outcomes: seq<CallOutcome>, k: nat)
    requires |outcomes| == |s.planned| && k < |s.planned| && FreshAnswers(outcomes, s.results)
    requires outcomes[k].Answer? && outcomes[k].result.tool == s.planned[k].tool
    requires forall i | 0 <= i < k ::
        s.planned[i].tool != s.planned[k].tool || s.planned[i].purpose != s.planned[k].purpose
    ensures PlanFor(ExecuteTools(s, outcomes), outcomes[k].result) == Some(s.planned[k])
  {
    AnswersFindTheirPlans(s, outcomes, k);
  }

  /** One question asked of two hosts, and what each of them answers. */
  const WINDOW: Args := map["time_from" := Text("2026-01-01T00:00:00Z"), "time_to" := Text("2026-01-02T00:00:00Z")]
  const OF_DB := Call("get_incident_events", WINDOW, "what happened", ["h1"], Some("db-1"))
  const OF_WEB := OF_DB.(host := Some("web-1"))

  /** Without that, it may not: the second host's answer is read as the first host's. */
  lemma SecondAnswerMeetsFirstPlan(s: State, first: ToolResult, second: ToolResult)
    requires s.planned == [OF_DB, OF_WEB] && FreshAnswers([Answer(first), Answer(second)], s.results)
    requires first.tool == second.tool == "get_incident_events"
    ensures PlanFor(ExecuteTools(s, [Answer(first), Answer(second)]), second) == Some(OF_DB)
    ensures OF_DB.host != OF_WEB.host
  {
    var outcomes := [Answer(first), Answer(second)];
    hide ExecuteTools, PlanFor, FreshAnswers;
    AnswersFindTheirPlans(s, outcomes, 1);
    assert FirstLike(s.planned, OF_WEB) == 0;
    assert "db-1"[0] != "web-1"[0];
  }

  // ----- what a hypothesis ends up citing -----------------------------------

  lemma {:induction false} NoneFailed(evidence: seq<Evidence>, observations: seq<ToolResult>)
    requires forall e, o | e in evidence && o in observations && o.status == Error :: o.callId != e.callId
    ensures FailedEvidence(evidence, observations) == []
  {
    if evidence != [] {
      var k := |evidence| - 1;
      assert evidence[k] in evidence;
      NoneFailed(evidence[..k], observations);
    }
  }

  lemma SameCallSameResult(results: seq<ToolResult>, a: ToolResult, b: ToolResult)
    requires Distinct(CallIds(results)) && a in results && b in results && a.callId == b.callId
    ensures a == b
  {
    var i :| 0 <= i < |results| && results[i] == a;
    var j :| 0 <= j < |results| && results[j] == b;
    assert CallIds(results)[i] == CallIds(results)[j];
  }

  /** Evidence never comes from a failed call, so the updater's filter withholds nothing. */
  lemma FailedCallsLeaveNoEvidence(s: State)
    requires Core(s)
    ensures FromFailure(s) == []
  {
    forall e, o | e in s.evidence && o in s.lastObservations && o.status == Error ensures o.callId != e.callId {
      var r :| r in s.results && r.callId == e.callId && r.status != Error;
      if o.callId == e.callId { SameCallSameResult(s.results, r, o); }
    }
    hide Valid, Grounded, Recorded;
    NoneFailed(s.evidence, s.lastObservations);
  }

  /** The last update of a decision that is about this hypothesis. */
  function LastUpdate(updates: seq<Update>, id: string): Option<Update>
  {
    if updates == [] then None
    else if updates[|updates| - 1].id == id then Some(updates[|updates| - 1])
    else LastUpdate(updates[..|updates| - 1], id)
  }

  /** A hypothesis with what this update proposed, its citations restricted to held evidence. */
  function AsProposed(h: Hypothesis, u: Update, held: seq<string>): Hypothesis
  {
    Hypothesis(h.id, h.statement, u.status, Known(u.supporting, held), Known(u.counter, held), u.rationale)
  }

  lemma RevisedAsProposed(s: State, h: Hypothesis, u: Update)
    requires FromFailure(s) == []
    ensures Revise(h, u, s) == AsProposed(h, u, Ids(s.evidence))
  {
    NothingWithheld(Known(u.supporting, Ids(s.evidence)));
    NothingWithheld(Known(u.counter, Ids(s.evidence)));
  }

  /** Every hypothesis ends as its last update proposed it, and untouched without one. */
  lemma {:induction false} LastUpdateDecides(s: State, updates: seq<Update>, i: nat)
    requires Core(s) && i < |s.hypotheses|
    ensures |UpdateAll(updates, s).hypotheses| == |s.hypotheses|
    ensures var last := LastUpdate(updates, s.hypotheses[i].id);
            UpdateAll(updates, s).hypotheses[i]
            == if last.Some? then AsProposed(s.hypotheses[i], last.value, Ids(s.evidence)) else s.hypotheses[i]
  {
    hide FromFailure, Known, Without;
    if updates != [] {
      var k := |updates| - 1;
      LastUpdateDecides(s, updates[..k], i);
      UpdateKeeps(s, updates[..k]);
      FailedCallsLeaveNoEvidence(s);
      var acc := UpdateAll(updates[..k], s);
      assert HypothesisIds(acc.hypotheses)[i] == HypothesisIds(s.hypotheses)[i];
      var at := IndexOf(HypothesisIds(acc.hypotheses), updates[k].id);
      if at < |acc.hypotheses| {
        RevisedAsProposed(s, acc.hypotheses[at], updates[k]);
        assert at != i ==> HypothesisIds(acc.hypotheses)[at] != HypothesisIds(acc.hypotheses)[i];
      }
    }
  }
}
