/**
 The investigation state checkpointed between two nodes of the collector graph, and the
 validator every rebuild of it runs.
 */
module CollectorState {
  import opened Wrappers
  import opened EvidenceMerge
  import opened StateCapacity
  import opened ToolPolicy

  datatype Host = Host(name: string, hostId: Option<string>, query: Option<string>)

  datatype HypothesisStatus = Active | Supported | Rejected | Unresolved

  datatype Hypothesis = Hypothesis(id: string, statement: string, status: HypothesisStatus,
                                   supporting: seq<string>, counter: seq<string>, rationale: Option<string>)

  datatype Fact = Fact(text: string, evidenceIds: seq<string>)

  datatype Question = Question(text: string, hypotheses: seq<string>, scope: CallScope, tool: Option<string>,
                               args: Args, host: Option<string>, genericAllowed: bool)

  datatype Call = Call(tool: string, args: Args, purpose: string, targets: seq<string>, host: Option<string>)

  datatype ResultStatus = Ok | Empty | FilteredEmpty | Partial | Error

  /** What one tool returned; the readings are the evidence its answer normalizes to. */
  datatype ToolResult = ToolResult(callId: string, tool: string, status: ResultStatus,
                                   readings: seq<Evidence>, oversized: bool)

  datatype Limits = Limits(maxToolCalls: nat, maxIterations: nat)

  // ----- the package the writer works from ----------------------------------

  datatype CallStatus = Succeeded | PartlyAnswered | CallFailed

  datatype CallRecord = CallRecord(callId: string, tool: string, purpose: string, status: CallStatus)

  datatype Confidence = High | Medium | Low

  datatype Finding = Finding(description: string, supporting: seq<string>, contradicting: seq<string>,
                             confidence: Confidence)

  datatype Package = Package(hosts: seq<(string, Option<string>)>, evidence: seq<Evidence>, facts: seq<Fact>,
                             hypotheses: seq<Finding>, calls: seq<CallRecord>, unknowns: seq<Unknown>,
                             iterations: nat, stop: string, limitReached: bool)

  datatype State = State(
    hosts: seq<Host>,
    hypotheses: seq<Hypothesis>,
    facts: seq<Fact>,
    unknowns: seq<Unknown>,
    questions: seq<Question>,
    planned: seq<Call>,
    evidence: seq<Evidence>,
    lastObservations: seq<ToolResult>,
    results: seq<ToolResult>,
    purposes: map<string, string>,
    iterations: nat,
    callCount: nat,
    limits: Limits,
    stop: Option<string>,
    fatal: Option<string>,
    limitReached: bool,
    rejections: seq<string>,
    attempts: nat,
    package: Option<Package>)

  function Names(hosts: seq<Host>): seq<string>
  {
    seq(|hosts|, i requires 0 <= i < |hosts| => hosts[i].name)
  }

  function HypothesisIds(hypotheses: seq<Hypothesis>): seq<string>
  {
    seq(|hypotheses|, i requires 0 <= i < |hypotheses| => hypotheses[i].id)
  }

  function CallIds(results: seq<ToolResult>): seq<string>
  {
    seq(|results|, i requires 0 <= i < |results| => results[i].callId)
  }

  // ----- the validator ------------------------------------------------------

  predicate Within(refs: seq<string>, ids: seq<string>)
  {
    forall r | r in refs :: r in ids
  }

  predicate FactsCite(facts: seq<Fact>, ids: seq<string>)
  {
    forall f | f in facts :: Within(f.evidenceIds, ids)
  }

  predicate HypothesesCite(hypotheses: seq<Hypothesis>, ids: seq<string>)
  {
    forall h | h in hypotheses :: Within(h.supporting, ids) && Within(h.counter, ids)
  }

  predicate QuestionsName(questions: seq<Question>, ids: seq<string>)
  {
    forall q | q in questions :: Within(q.hypotheses, ids)
  }

  predicate CallsName(calls: seq<Call>, ids: seq<string>, hosts: seq<string>)
  {
    forall c | c in calls :: Within(c.targets, ids) && (c.host.Some? ==> c.host.value in hosts)
  }

  /** validate_graph_invariants: what a rebuild refuses with an exception. */
  predicate Valid(s: State)
  {
    && Distinct(Names(s.hosts))
    && Distinct(HypothesisIds(s.hypotheses))
    && Distinct(Ids(s.evidence))
    && Distinct(CallIds(s.results))
    && FactsCite(s.facts, Ids(s.evidence))
    && HypothesesCite(s.hypotheses, Ids(s.evidence))
    && QuestionsName(s.questions, HypothesisIds(s.hypotheses))
    && CallsName(s.planned, HypothesisIds(s.hypotheses), Names(s.hosts))
    && s.callCount == |s.results|
  }

  /** The list and counter ceilings of the schema that the nodes themselves do not keep. */
  predicate WithinCeilings(s: State)
  {
    && |s.hosts| <= 20
    && |s.hypotheses| <= 20
    && |s.lastObservations| <= 8
    && |s.rejections| <= 20
    && s.iterations <= 20
  }

  /** The trimming validator, as it meets this state. */
  function Trimmed(s: State): State
  {
    var g := Rebuild(Growing(s.unknowns, s.facts));
    s.(unknowns := g.unknowns, facts := g.facts)
  }

  lemma TrimmingKeepsFacts(s: State)
    ensures forall f | f in Trimmed(s).facts :: f in s.facts
    ensures Trimmed(s) == s.(unknowns := Trimmed(s).unknowns, facts := Trimmed(s).facts)
    ensures Valid(s) ==> Valid(Trimmed(s))
  {
  }

  /** Every piece of evidence was read from a recorded answer that was not an error. */
  predicate Grounded(evidence: seq<Evidence>, results: seq<ToolResult>)
  {
    forall e | e in evidence :: exists r | r in results :: r.callId == e.callId && r.status != Error
  }

  predicate Recorded(observations: seq<ToolResult>, results: seq<ToolResult>)
  {
    forall o | o in observations :: o in results
  }
}
