/**
 The nodes of the collector graph, each as the state it leaves behind.

 Model decisions and tool answers are inputs, limited only by their schemas. The loops
 inside a node appear as folds over a prefix of what they loop over; module
 CollectorLoops has the loops themselves and shows that they compute these folds.
 */
module CollectorNodes {
  import opened Wrappers
  import opened EvidenceMerge
  import opened StateCapacity
  import opened ToolPolicy
  import opened CollectorState

  const MAX_HOST_SEARCH_TURNS := 2
  const MAX_ROUTING_ATTEMPTS := 2
  const MAX_BATCH := 8
  const MAX_PURPOSE := 1000

  /** A node may raise, which ends the run with an exception. */
  datatype Outcome = Next(state: State) | Raised

  function Note(code: string): Unknown { Unknown(code, "") }

  // ----- resolve_hosts: the search ------------------------------------------

  datatype Discovered = Discovered(name: string, hostId: Option<string>)

  datatype CallOutcome = Refusal | Answer(result: ToolResult)

  /** One turn: what the model found, where it wants to look next, and what that gave. */
  datatype SearchTurn = SearchTurn(hosts: seq<Discovered>, tool: Option<string>, args: Option<Args>,
                                   outcome: CallOutcome)

  datatype Search = Search(found: seq<Host>, unknowns: seq<Unknown>, produced: seq<ToolResult>, done: bool)

  /** Which requested name a host answers; the folding and matching of names is a parameter. */
  function MatchingQuery(name: string, wanted: seq<string>, same: (string, string) -> bool): Option<string>
  {
    if wanted == [] then None
    else if same(wanted[0], name) then Some(wanted[0])
    else MatchingQuery(name, wanted[1..], same)
  }

  function AddFound(found: seq<Host>, items: seq<Discovered>, wanted: seq<string>,
                    same: (string, string) -> bool): seq<Host>
  {
    if items == [] then found
    else
      var k := |items| - 1;
      var before := AddFound(found, items[..k], wanted, same);
      if items[k].name in Names(before) then before
      else before + [Host(items[k].name, items[k].hostId, MatchingQuery(items[k].name, wanted, same))]
  }

  predicate Answered(found: seq<Host>, query: string)
  {
    exists h | h in found :: h.query == Some(query)
  }

  function SearchOnce(acc: Search, turn: nat, input: SearchTurn, s: State, wanted: seq<string>,
                      same: (string, string) -> bool): Search
  {
    var readingOnly := turn == MAX_HOST_SEARCH_TURNS;
    if acc.done then acc
    else if acc.found != [] && (forall q | q in wanted :: Answered(acc.found, q)) then acc.(done := true)
    else if readingOnly && acc.produced == [] then acc.(done := true)
    else if !readingOnly && |s.results| + |acc.produced| >= s.limits.maxToolCalls then
      acc.(unknowns := acc.unknowns + [Note("host_search_budget_exhausted")], done := true)
    else
      var found := AddFound(acc.found, input.hosts, wanted, same);
      if readingOnly || input.tool.None? then acc.(found := found, done := true)
      else if input.args.None? then
        acc.(found := found, unknowns := acc.unknowns + [Note("host_search_unusable")], done := true)
      else
        match input.outcome
        case Refusal => acc.(found := found, unknowns := acc.unknowns + [Note("host_search_blocked")], done := true)
        case Answer(r) =>
          acc.(found := found, produced := acc.produced + [r],
               unknowns := acc.unknowns + (if r.status == Error then [Note("host_search_error")] else []))
  }

  function SearchAll(turns: seq<SearchTurn>, s: State, wanted: seq<string>, same: (string, string) -> bool): Search
  {
    if turns == [] then Search([], [], [], false)
    else
      var k := |turns| - 1;
      SearchOnce(SearchAll(turns[..k], s, wanted, same), k, turns[k], s, wanted, same)
  }

  function Matches(found: seq<Host>, query: string): seq<Host>
  {
    if found == [] then []
    else
      var k := |found| - 1;
      Matches(found[..k], query) + (if found[k].query == Some(query) then [found[k]] else [])
  }

  function SetDefault(hosts: seq<Host>, host: Host): seq<Host>
  {
    if host.name in Names(hosts) then hosts else hosts + [host]
  }

  datatype Resolution = Resolution(hosts: seq<Host>, unknowns: seq<Unknown>)

  /** One host for each name exactly one was found for; several matches choose none. */
  function ResolveWanted(found: seq<Host>, wanted: seq<string>): Resolution
  {
    if wanted == [] then Resolution([], [])
    else
      var k := |wanted| - 1;
      var r := ResolveWanted(found, wanted[..k]);
      var matches := Matches(found, wanted[k]);
      if |matches| == 1 then r.(hosts := SetDefault(r.hosts, matches[0]))
      else if matches != [] then r.(unknowns := r.unknowns + [Note("host_ambiguous")])
      else r.(unknowns := r.unknowns + [Note("host_not_found")])
  }

  /** Hosts found for no requested name are kept too: a group selector wants all of them. */
  function AddUnasked(hosts: seq<Host>, found: seq<Host>): seq<Host>
  {
    if found == [] then hosts
    else
      var k := |found| - 1;
      var before := AddUnasked(hosts, found[..k]);
      if found[k].query.None? then SetDefault(before, found[k]) else before
  }

  function SetPurposes(purposes: map<string, string>, results: seq<ToolResult>, purpose: string): map<string, string>
  {
    if results == [] then purposes
    else SetPurposes(purposes, results[..|results| - 1], purpose)[results[|results| - 1].callId := purpose]
  }

  function ResolveHosts(s: State, wanted: seq<string>, same: (string, string) -> bool, turns: seq<SearchTurn>): State
  {
    var search := SearchAll(turns, s, wanted, same);
    var resolution := ResolveWanted(search.found, wanted);
    var hosts := AddUnasked(resolution.hosts, search.found);
    var results := s.results + search.produced;
    s.(hosts := hosts,
       unknowns := s.unknowns + search.unknowns + resolution.unknowns,
       results := results,
       callCount := |results|,
       purposes := SetPurposes(s.purposes, search.produced, "Resolve the requested investigation hosts"),
       lastObservations := search.produced,
       stop := if hosts == [] then Some("no host could be resolved for investigation") else s.stop)
  }

  // ----- establish_phenomenon: the scan -------------------------------------

  datatype Scan = Scan(host: string, tool: string, args: Option<Args>, outcome: CallOutcome)

  datatype Gathered = Gathered(results: seq<ToolResult>, evidence: seq<Evidence>, unknowns: seq<Unknown>,
                               purposes: map<string, string>, done: bool)

  /** normalize_observation: an error gives unknowns, never evidence. */
  function Normalize(r: ToolResult): seq<Evidence>
  {
    if r.status == Error then []
    else seq(|r.readings|, i requires 0 <= i < |r.readings| => r.readings[i].(callId := r.callId))
  }

  function MergeNotes(m: Merge): seq<Unknown>
  {
    seq(|m.superseded|, i => Note("evidence_superseded"))
    + (if m.dropped > 0 then [Note("evidence_capacity_reached")] else [])
  }

  function ScanOnce(acc: Gathered, scan: Scan, s: State): Gathered
  {
    if acc.done then acc
    else if scan.host !in Names(s.hosts) then
      acc.(unknowns := acc.unknowns + [Note("phenomenon_scan_unresolved_host")])
    else if |acc.results| >= s.limits.maxToolCalls then
      acc.(unknowns := acc.unknowns + [Note("phenomenon_scan_budget_exhausted")], done := true)
    else if scan.args.None? then acc.(unknowns := acc.unknowns + [Note("phenomenon_scan_unusable")])
    else
      match scan.outcome
      case Refusal => acc.(unknowns := acc.unknowns + [Note("phenomenon_scan_blocked")])
      case Answer(r) =>
        var m := MergeInto(acc.evidence, Normalize(r), EVIDENCE_CAPACITY);
        Gathered(acc.results + [r], m.held,
                 acc.unknowns + (if r.status == Error then [Note("phenomenon_scan_error")] else []) + MergeNotes(m),
                 acc.purposes[r.callId := "Establish the observed phenomenon on host " + scan.host], false)
  }

  function ScanAll(scans: seq<Scan>, s: State): Gathered
  {
    if scans == [] then Gathered(s.results, s.evidence, s.unknowns, s.purposes, false)
    else ScanOnce(ScanAll(scans[..|scans| - 1], s), scans[|scans| - 1], s)
  }

  function EstablishPhenomenon(s: State, scans: seq<Scan>): State
  {
    var g := ScanAll(scans, s);
    s.(evidence := g.evidence, unknowns := g.unknowns, results := g.results, callCount := |g.results|,
       purposes := g.purposes,
       lastObservations := if |s.results| <= |g.results| then g.results[|s.results|..] else [])
  }

  // ----- hypothesis_planner -------------------------------------------------

  function Cleared(h: Hypothesis): Hypothesis { h.(status := Active, supporting := [], counter := []) }

  function ClearedAll(hypotheses: seq<Hypothesis>): seq<Hypothesis>
  {
    seq(|hypotheses|, i requires 0 <= i < |hypotheses| => Cleared(hypotheses[i]))
  }

  function PlanHypotheses(s: State, proposed: seq<Hypothesis>, stop: Option<string>): Outcome
  {
    if !Distinct(HypothesisIds(proposed)) then Raised
    else
      var reason :=
        if proposed != [] then None
        else if stop.Some? then stop
        else Some("the request requires no causal hypothesis investigation");
      Next(s.(hypotheses := ClearedAll(proposed), stop := reason))
  }

  // ----- observation_planner ------------------------------------------------

  /** args is None when the proposal's JSON could not be read as an object. */
  datatype Proposal = Proposal(text: string, hypotheses: seq<string>, scope: CallScope, tool: string,
                               host: Option<string>, args: Option<Args>, genericAllowed: bool)

  function Known(ids: seq<string>, known: seq<string>): seq<string>
  {
    if ids == [] then []
    else
      var k := |ids| - 1;
      Known(ids[..k], known) + (if ids[k] in known then [ids[k]] else [])
  }

  function AssociatedHost(p: Proposal, s: State): Option<string>
  {
    if p.host.None? && |s.hosts| == 1 then Some(s.hosts[0].name) else p.host
  }

  datatype Questions = Questions(questions: seq<Question>, unknowns: seq<Unknown>, done: bool)

  function ConsiderOnce(acc: Questions, p: Proposal, s: State, registry: Registry): Questions
  {
    var discriminates := Known(p.hypotheses, HypothesisIds(s.hypotheses));
    var host := AssociatedHost(p, s);
    if acc.done then acc
    else if |acc.questions| >= s.limits.maxToolCalls - s.callCount then
      acc.(unknowns := acc.unknowns + [Note("observation_budget_exhausted")], done := true)
    else if discriminates == [] then acc.(unknowns := acc.unknowns + [Note("observation_unanchored")])
    else if p.args.None? || (host.Some? && host.value !in Names(s.hosts)) then
      acc.(unknowns := acc.unknowns + [Note("candidate_unusable")])
    else
      acc.(questions := acc.questions
             + [Question(p.text, discriminates, p.scope, Some(p.tool), p.args.value, host,
                         p.genericAllowed && p.tool in registry && registry[p.tool].kind == Generic)])
  }

  function ConsiderAll(proposals: seq<Proposal>, s: State, registry: Registry): Questions
  {
    if proposals == [] then Questions([], s.unknowns, false)
    else ConsiderOnce(ConsiderAll(proposals[..|proposals| - 1], s, registry), proposals[|proposals| - 1], s, registry)
  }

  function PlanObservations(s: State, proposals: seq<Proposal>, stop: Option<string>, registry: Registry): State
  {
    if s.stop.Some? then s
    else if proposals == [] then
      s.(questions := [], planned := [], iterations := s.iterations + 1,
         stop := Some(if stop.Some? then stop.value else "no discriminating observation remains"))
    else
      var q := ConsiderAll(proposals, s, registry);
      s.(questions := q.questions, planned := [], unknowns := q.unknowns, iterations := s.iterations + 1,
         stop := if q.questions == [] then Some("no proposed observation could be used") else None)
  }

  // ----- tool_router --------------------------------------------------------

  type Catalog = map<string, DeclaredScope>

  function CatalogScope(catalog: Catalog, tool: string): DeclaredScope
  {
    if tool in catalog then catalog[tool] else AnyTime
  }

  datatype Routing = Routing(planned: seq<Call>, unknowns: seq<Unknown>, refusals: seq<string>, raised: bool)

  /** The context the router judges a question in, the n-th call of its batch. */
  function RouterContext(q: Question, s: State, n: nat): Context
  {
    Context(q.scope, q.genericAllowed, s.callCount + n, s.limits.maxToolCalls)
  }

  function Granted(q: Question): Call
    requires q.tool.Some?
  {
    Call(q.tool.value, q.args, q.text, q.hypotheses, q.host)
  }

  function RouterVerdict(q: Question, s: State, n: nat, registry: Registry, catalog: Catalog): Verdict
    requires q.tool.Some?
  {
    ValidateCall(registry, q.tool.value, q.args, RouterContext(q, s, n), CatalogScope(catalog, q.tool.value))
  }

  function RouteOnce(acc: Routing, q: Question, s: State, registry: Registry, catalog: Catalog): Routing
  {
    if acc.raised || q.tool.None? then acc
    else
      match RouterVerdict(q, s, |acc.planned|, registry, catalog)
      case Refused(message, retryable) =>
        acc.(unknowns := acc.unknowns + [Note("tool_routing_blocked")],
             refusals := acc.refusals + (if retryable then [message] else []))
      case Allowed =>
        // A purpose longer than its schema allows is an exception the router does not catch.
        if |q.text| > MAX_PURPOSE then acc.(raised := true)
        else acc.(planned := acc.planned + [Granted(q)])
  }

  function RouteAll(questions: seq<Question>, s: State, registry: Registry, catalog: Catalog): Routing
  {
    if questions == [] then Routing([], s.unknowns, [], false)
    else
      RouteOnce(RouteAll(questions[..|questions| - 1], s, registry, catalog), questions[|questions| - 1],
                s, registry, catalog)
  }

  function RouteTools(s: State, registry: Registry, catalog: Catalog): Outcome
  {
    if s.questions == [] then
      Next(s.(stop := Some("no routable observation question remains"), planned := []))
    else
      var r := RouteAll(s.questions, s, registry, catalog);
      if r.raised then Raised
      else if r.planned != [] then
        Next(s.(planned := r.planned, rejections := [], attempts := 0, unknowns := r.unknowns))
      else
        var attempts := s.attempts + 1;
        var refused := s.(planned := [], unknowns := r.unknowns, rejections := s.rejections + r.refusals,
                          attempts := attempts);
        if r.refusals != [] && attempts <= MAX_ROUTING_ATTEMPTS then Next(refused.(questions := []))
        else Next(refused.(stop := Some("the next observation could not be routed")))
  }

  // ----- tool_executor ------------------------------------------------------

  /** The question a call is executed for: the last of the batch with its tool and text. */
  function AskedBy(questions: seq<Question>, call: Call): Option<Question>
  {
    if questions == [] then None
    else
      var k := |questions| - 1;
      if questions[k].tool == Some(call.tool) && questions[k].text == call.purpose then Some(questions[k])
      else AskedBy(questions[..k], call)
  }

  /** The context the executor rebuilds for the call at this offset. */
  function ExecutorContext(s: State, call: Call, offset: nat): Context
  {
    var q := AskedBy(s.questions, call);
    Context(if q.Some? then q.value.scope else Timeless,
            q.Some? && q.value.genericAllowed, s.callCount + offset, s.limits.maxToolCalls)
  }

  datatype Executed = Executed(results: seq<ToolResult>, unknowns: seq<Unknown>, purposes: map<string, string>,
                               observations: seq<ToolResult>)

  function CallNotes(r: ToolResult): seq<Unknown>
  {
    (if r.status == Error then [Note("tool_error")] else [])
    + (if r.status == Partial then [Note("result_truncated")] else [])
    + (if r.oversized then [Note("response_too_large_to_reason_over")] else [])
  }

  function CollectOnce(acc: Executed, call: Call, outcome: CallOutcome): Executed
  {
    match outcome
    case Refusal => acc.(unknowns := acc.unknowns + [Note("tool_call_failed")])
    case Answer(r) =>
      Executed(acc.results + [r], acc.unknowns + CallNotes(r), acc.purposes[r.callId := call.purpose],
               acc.observations + [r])
  }

  function CollectAll(calls: seq<Call>, outcomes: seq<CallOutcome>, s: State): Executed
    requires |outcomes| == |calls|
  {
    if calls == [] then Executed(s.results, s.unknowns, s.purposes, [])
    else
      var k := |calls| - 1;
      CollectOnce(CollectAll(calls[..k], outcomes[..k], s), calls[k], outcomes[k])
  }

  function ExecuteTools(s: State, outcomes: seq<CallOutcome>): State
    requires |outcomes| == |s.planned|
  {
    if s.planned == [] then s.(fatal := Some("tool_executor entered without a planned tool call"))
    else
      var e := CollectAll(s.planned, outcomes, s);
      s.(results := e.results, callCount := |e.results|, unknowns := e.unknowns, purposes := e.purposes,
         lastObservations := e.observations)
  }

  // ----- evidence_normalizer ------------------------------------------------

  function FirstPlan(planned: seq<Call>, tool: string, purpose: Option<string>): Option<Call>
  {
    if planned == [] then None
    else if planned[0].tool == tool && purpose == Some(planned[0].purpose) then Some(planned[0])
    else FirstPlan(planned[1..], tool, purpose)
  }

  function FirstOfTool(planned: seq<Call>, tool: string): Option<Call>
  {
    if planned == [] then None
    else if planned[0].tool == tool then Some(planned[0])
    else FirstOfTool(planned[1..], tool)
  }

  /** Which planned call an answer belongs to: same tool and purpose if there is one, else same tool. */
  function PlanFor(s: State, o: ToolResult): Option<Call>
  {
    var purpose := if o.callId in s.purposes then Some(s.purposes[o.callId]) else None;
    var exact := FirstPlan(s.planned, o.tool, purpose);
    if exact.Some? then exact else FirstOfTool(s.planned, o.tool)
  }

  predicate Hosted(s: State, call: Call)
  {
    (call.host.Some? && call.host.value in Names(s.hosts)) || |s.hosts| == 1
  }

  datatype Normalized = Normalized(evidence: seq<Evidence>, unknowns: seq<Unknown>)

  function NormalizeOnce(acc: Normalized, o: ToolResult, s: State): Normalized
  {
    var plan := PlanFor(s, o);
    if plan.None? then acc.(unknowns := acc.unknowns + [Note("observation_unplanned")])
    else if !Hosted(s, plan.value) then acc.(unknowns := acc.unknowns + [Note("observation_unhosted")])
    else
      var m := MergeInto(acc.evidence, Normalize(o), EVIDENCE_CAPACITY);
      Normalized(m.held, acc.unknowns + MergeNotes(m))
  }

  function NormalizeAll(observations: seq<ToolResult>, s: State): Normalized
  {
    if observations == [] then Normalized(s.evidence, s.unknowns)
    else NormalizeOnce(NormalizeAll(observations[..|observations| - 1], s), observations[|observations| - 1], s)
  }

  function NormalizeEvidence(s: State): State
  {
    if s.lastObservations == [] || s.planned == [] then
      s.(fatal := Some("evidence_normalizer entered without an observation and plan"))
    else
      var n := NormalizeAll(s.lastObservations, s);
      s.(evidence := n.evidence, unknowns := n.unknowns)
  }

  // ----- hypothesis_updater -------------------------------------------------

  datatype Update = Update(id: string, status: HypothesisStatus, supporting: seq<string>, counter: seq<string>,
                           rationale: Option<string>)

  datatype UpdateDecision = UpdateDecision(updates: seq<Update>, newHypotheses: seq<Hypothesis>, newFacts: seq<Fact>,
                                           stop: Option<string>)

  /** Evidence read from one of this turn's failed calls, when every call of the turn failed. */
  function FromFailure(s: State): seq<string>
  {
    if exists o | o in s.lastObservations :: o.status != Error then []
    else FailedEvidence(s.evidence, s.lastObservations)
  }

  function FailedEvidence(evidence: seq<Evidence>, observations: seq<ToolResult>): seq<string>
  {
    if evidence == [] then []
    else
      var k := |evidence| - 1;
      FailedEvidence(evidence[..k], observations)
      + (if exists o | o in observations :: o.status == Error && o.callId == evidence[k].callId
         then [evidence[k].id] else [])
  }

  function Without(refs: seq<string>, refused: seq<string>): seq<string>
  {
    if refs == [] then []
    else
      var k := |refs| - 1;
      Without(refs[..k], refused) + (if refs[k] in refused then [] else [refs[k]])
  }

  datatype Revised = Revised(hypotheses: seq<Hypothesis>, unknowns: seq<Unknown>)

  function Revise(h: Hypothesis, u: Update, s: State): Hypothesis
  {
    h.(status := u.status,
       supporting := Without(Known(u.supporting, Ids(s.evidence)), FromFailure(s)),
       counter := Without(Known(u.counter, Ids(s.evidence)), FromFailure(s)),
       rationale := u.rationale)
  }

  function UpdateNotes(u: Update, s: State): seq<Unknown>
  {
    var cited := Known(u.supporting + u.counter, Ids(s.evidence));
    (if Without(cited, FromFailure(s)) != cited then [Note("hypothesis_update_evidence_from_failed_call")] else [])
    + (if cited != u.supporting + u.counter then [Note("hypothesis_update_evidence_dropped")] else [])
  }

  function UpdateOnce(acc: Revised, u: Update, s: State): Revised
  {
    var i := IndexOf(HypothesisIds(acc.hypotheses), u.id);
    if i >= |acc.hypotheses| then
      acc.(unknowns := acc.unknowns + [Note("hypothesis_update_unknown_hypothesis")])
    else
      Revised(acc.hypotheses[i := Revise(acc.hypotheses[i], u, s)], acc.unknowns + UpdateNotes(u, s))
  }

  function UpdateAll(updates: seq<Update>, s: State): Revised
  {
    if updates == [] then Revised(s.hypotheses, s.unknowns)
    else UpdateOnce(UpdateAll(updates[..|updates| - 1], s), updates[|updates| - 1], s)
  }

  function ProposeAll(acc: Revised, proposed: seq<Hypothesis>): Revised
  {
    if proposed == [] then acc
    else
      var k := |proposed| - 1;
      var before := ProposeAll(acc, proposed[..k]);
      if proposed[k].id in HypothesisIds(before.hypotheses) then
        before.(unknowns := before.unknowns + [Note("hypothesis_id_reused")])
      else before.(hypotheses := before.hypotheses + [Cleared(proposed[k])])
  }

  datatype Confirmed = Confirmed(facts: seq<Fact>, unknowns: seq<Unknown>)

  function ConfirmAll(acc: Confirmed, newFacts: seq<Fact>, s: State): Confirmed
  {
    if newFacts == [] then acc
    else
      var k := |newFacts| - 1;
      var before := ConfirmAll(acc, newFacts[..k], s);
      if !Within(newFacts[k].evidenceIds, Ids(s.evidence)) then
        before.(unknowns := before.unknowns + [Note("known_fact_evidence_missing")])
      else if newFacts[k] in before.facts then before
      else before.(facts := before.facts + [newFacts[k]])
  }

  function UpdateHypotheses(s: State, d: UpdateDecision): Outcome
  {
    if s.lastObservations == [] then Raised
    else
      var revised := ProposeAll(UpdateAll(d.updates, s), d.newHypotheses);
      var confirmed := ConfirmAll(Confirmed(s.facts, revised.unknowns), d.newFacts, s);
      Next(s.(hypotheses := revised.hypotheses, facts := confirmed.facts, unknowns := confirmed.unknowns,
              stop := d.stop))
  }

  // ----- stop_guard, package and report -------------------------------------

  /** hard_stop_update: overtime says whether the run's duration is used up. */
  function GuardStop(s: State, overtime: bool): State
  {
    if s.fatal.Some? then s.(stop := Some("fatal state error: " + s.fatal.value))
    else if s.hosts == [] then s.(stop := Some("no host could be resolved for investigation"))
    else if s.callCount >= s.limits.maxToolCalls then
      s.(stop := Some("maximum tool-call budget reached"), limitReached := true)
    else if s.iterations >= s.limits.maxIterations then
      s.(stop := Some("maximum investigation iterations reached"), limitReached := true)
    else if overtime then s.(stop := Some("maximum investigation duration reached"), limitReached := true)
    else s
  }

  /** The package's own reference check, which raises. */
  predicate PackageValid(p: Package)
  {
    && Distinct(Ids(p.evidence))
    && FactsCite(p.facts, Ids(p.evidence))
    && (forall h | h in p.hypotheses ::
          Within(h.supporting, Ids(p.evidence)) && Within(h.contradicting, Ids(p.evidence)))
  }

  function CallStatusOf(status: ResultStatus): CallStatus
  {
    match status
    case Error => CallFailed
    case Partial => PartlyAnswered
    case FilteredEmpty => PartlyAnswered
    case _ => Succeeded
  }

  function PackageCalls(results: seq<ToolResult>, purposes: map<string, string>): seq<CallRecord>
  {
    seq(|results|, i requires 0 <= i < |results| =>
      CallRecord(results[i].callId, results[i].tool,
                 if results[i].callId in purposes then purposes[results[i].callId]
                 else "Collect investigation evidence",
                 CallStatusOf(results[i].status)))
  }

  function ConfidenceOf(h: Hypothesis): Confidence
  {
    match h.status
    case Supported => if h.counter == [] then High else Medium
    case Rejected => Low
    case _ => if h.supporting != [] then Medium else Low
  }

  function PackageHypotheses(hypotheses: seq<Hypothesis>): seq<Finding>
  {
    seq(|hypotheses|, i requires 0 <= i < |hypotheses| =>
      Finding(hypotheses[i].statement, hypotheses[i].supporting, hypotheses[i].counter, ConfidenceOf(hypotheses[i])))
  }

  function PackageHosts(hosts: seq<Host>): seq<(string, Option<string>)>
  {
    seq(|hosts|, i requires 0 <= i < |hosts| => (hosts[i].name, hosts[i].hostId))
  }

  function BuildPackage(s: State): Outcome
  {
    if s.hosts == [] then Next(s.(package := None))
    else
      var p := Package(PackageHosts(s.hosts), s.evidence, s.facts, PackageHypotheses(s.hypotheses),
                       PackageCalls(s.results, s.purposes), s.unknowns,
                       if s.iterations > 1 then s.iterations else 1,
                       if s.stop.Some? then s.stop.value else "investigation completed", s.limitReached);
      if PackageValid(p) then Next(s.(package := Some(p))) else Raised
  }

  function EvaluateReport(s: State, findings: nat): State
  {
    if s.package.None? then s
    else s.(unknowns := s.unknowns + seq(findings, i => Note("report_check_failed")))
  }
}
