/**
 The tool registry's judgement of one call: ordered checks over a fixed table.
 */
module ToolPolicy {
  import opened Wrappers

  /** A decoded JSON argument. */
  datatype Json =
    | Null
    | Bool(b: bool)
    | Number(n: int)
    | Text(s: string)
    | List(items: seq<Json>)
    | Object(fields: map<string, Json>)

  type Args = map<string, Json>

  datatype ToolKind = Structured | Generic | Inventory
  datatype CallScope = Historical | Current | Timeless
  datatype DeclaredScope = HistoricalOnly | CurrentOnly | AnyTime

  datatype Policy = Policy(
    name: string,
    kind: ToolKind,
    required: seq<string>,
    requiredAny: seq<string>,
    blockedReason: Option<string>)

  type Registry = map<string, Policy>

  datatype Context = Context(scope: CallScope, genericAllowed: bool, callCount: nat, maxCalls: nat)

  /** Allowed, or refused with the word whether a better plan could be made of it. */
  datatype Verdict = Allowed | Refused(message: string, retryable: bool)

  /** The service's own table of tools. */
  function DefaultRegistry(): Registry
  {
    map[
      "find_hosts" := Policy("find_hosts", Structured, [], ["query", "group_ids"], None),
      "get_incident_events" := Policy("get_incident_events", Structured, ["time_from", "time_to"], [], None),
      "get_trigger_details" := Policy("get_trigger_details", Structured, ["trigger_id"], [], None),
      "get_related_events" :=
        Policy("get_related_events", Structured, ["time_from", "time_to"], ["trigger_ids", "tags"], None),
      "list_relevant_metrics" := Policy("list_relevant_metrics", Structured, ["keywords"], [], None),
      "get_metric_summary" :=
        Policy("get_metric_summary", Structured, ["item_ids", "time_from", "time_to", "aggregation"], [], None),
      "get_metric_history" :=
        Policy("get_metric_history", Structured, ["item_id", "time_from", "time_to", "aggregation"], [], None),
      "query_zabbix" := Policy("query_zabbix", Generic, ["method"], [], None),
      "search" := Policy("search", Generic, ["index", "query_body"], [], None),
      "esql" := Policy("esql", Generic, ["query"], [], None),
      "get_mappings" :=
        Policy("get_mappings", Inventory, ["index"], [], Some("known upstream response decoding failure")),
      "list_indices" := Policy("list_indices", Inventory, ["index_pattern"], [], None),
      "get_shards" := Policy("get_shards", Inventory, [], [], None),
      "get_wazuh_alert_summary" := Policy("get_wazuh_alert_summary", Structured, ["time_from", "time_to"], [], None),
      "get_wazuh_agents" := Policy("get_wazuh_agents", Structured, [], [], None),
      "get_wazuh_agent_processes" := Policy("get_wazuh_agent_processes", Structured, ["agent_id"], [], None),
      "get_wazuh_agent_ports" :=
        Policy("get_wazuh_agent_ports", Structured, ["agent_id", "protocol", "state"], [], None)
    ]
  }

  /** Three of its entries, as later modules use them. */
  lemma DefaultEntries()
    ensures var registry := DefaultRegistry();
            && "get_incident_events" in registry && "esql" in registry && "get_shards" in registry
            && registry["get_incident_events"]
               == Policy("get_incident_events", Structured, ["time_from", "time_to"], [], None)
            && registry["esql"] == Policy("esql", Generic, ["query"], [], None)
            && registry["get_shards"] == Policy("get_shards", Inventory, [], [], None)
  {
  }

  /**
   What the table as a whole promises: every policy under its own name, three escape
   hatches, one tool blocked, and nothing else that a call could be refused for outright.
   */
  lemma EscapeHatches()
    ensures var registry := DefaultRegistry();
            && forall name | name in registry ::
                 && registry[name].name == name
                 && (registry[name].kind == Generic <==> name in {"query_zabbix", "search", "esql"})
                 && (registry[name].blockedReason.Some? <==> name == "get_mappings")
                 && (registry[name].kind == Generic ==> |registry[name].required| > 0)
  {
  }

  predicate Present(args: Args, key: string)
  {
    key in args && args[key] != Null && args[key] != Text("") && args[key] != List([]) && args[key] != Object(map[])
  }

  predicate IsDigits(s: string)
  {
    s != "" && forall c | c in s :: '0' <= c <= '9'
  }

  predicate DigitId(value: Json) { value.Text? && IsDigits(value.s) }

  function WindowCheck(args: Args): Verdict
  {
    if !Present(args, "window") then Allowed
    else if !args["window"].Object? || !Present(args["window"].fields, "from") || !Present(args["window"].fields, "to")
    then Refused("window must contain from and to", true)
    else Allowed
  }

  function SpecificCheck(name: string, args: Args): Verdict
  {
    if WindowCheck(args).Refused? then WindowCheck(args)
    else if name == "find_hosts" && !Present(args, "query") && !Present(args, "group_ids") then
      Refused("find_hosts requires query or group_ids", true)
    else if name == "get_metric_summary" then
      if "item_ids" !in args || !args["item_ids"].List? || !(1 <= |args["item_ids"].items| <= 20) then
        Refused("get_metric_summary.item_ids must contain 1 to 20 IDs", true)
      else if exists item | item in args["item_ids"].items :: !DigitId(item) then
        Refused("item_ids[] must be a decimal string ID", true)
      else Allowed
    else if name == "get_metric_history" then
      if "item_id" in args && args["item_id"].List? then
        Refused("get_metric_history.item_id must be a scalar, not item_ids", true)
      else if "item_id" !in args || !DigitId(args["item_id"]) then
        Refused("item_id must be a decimal string ID", true)
      else Allowed
    else Allowed
  }

  /** The checks that depend on the arguments alone. */
  function ArgumentCheck(policy: Policy, args: Args): Verdict
  {
    if exists key | key in policy.required :: !Present(args, key) then
      Refused(policy.name + " is missing required arguments", true)
    else if policy.requiredAny != [] && !exists key | key in policy.requiredAny :: Present(args, key) then
      Refused(policy.name + " requires at least one of its alternatives", true)
    else SpecificCheck(policy.name, args)
  }

  /** validate_call: the first check that fails decides. */
  function ValidateCall(registry: Registry, name: string, args: Args, context: Context,
                        declared: DeclaredScope): Verdict
  {
    if name !in registry then Refused("tool is not allowlisted: " + name, true)
    else
      var policy := registry[name];
      if policy.blockedReason.Some? && policy.blockedReason.value != "" then Refused(name + " is blocked", false)
      else if context.callCount >= context.maxCalls then Refused("tool call budget is exhausted", false)
      else if declared == CurrentOnly && context.scope == Historical then
        Refused(name + " reports current state and cannot prove historical state", false)
      else if policy.kind == Generic && !context.genericAllowed then
        Refused(name + " is generic and requires evidence that structured tools are insufficient", false)
      else ArgumentCheck(policy, args)
  }

  // ----- what the verdict means ---------------------------------------------

  /** An argument that says something. */
  predicate IsGiven(args: Args, key: string)
  {
    key in args &&
    match args[key]
    case Null => false
    case Text(s) => |s| > 0
    case List(items) => |items| > 0
    case Object(fields) => |fields| > 0
    case Bool(_) => true
    case Number(_) => true
  }

  /** A decimal id, as Zabbix has them. */
  predicate IsId(value: Json)
  {
    value.Text? && |value.s| > 0 && forall i | 0 <= i < |value.s| :: value.s[i] in "0123456789"
  }

  /** The arguments a policy asks for, and what its tool asks of them. */
  predicate ArgumentsFit(policy: Policy, args: Args)
  {
    && (forall key | key in policy.required :: IsGiven(args, key))
    && (|policy.requiredAny| > 0 ==> exists key :: key in policy.requiredAny && IsGiven(args, key))
    && (IsGiven(args, "window") ==>
          args["window"].Object? && IsGiven(args["window"].fields, "from") && IsGiven(args["window"].fields, "to"))
    && (policy.name == "find_hosts" ==> IsGiven(args, "query") || IsGiven(args, "group_ids"))
    && (policy.name == "get_metric_summary" ==>
          && "item_ids" in args && args["item_ids"].List? && 1 <= |args["item_ids"].items| <= 20
          && forall i | 0 <= i < |args["item_ids"].items| :: IsId(args["item_ids"].items[i]))
    && (policy.name == "get_metric_history" ==> "item_id" in args && IsId(args["item_id"]))
  }

  lemma PresentIsGiven(args: Args, key: string)
    ensures Present(args, key) <==> IsGiven(args, key)
  {
    if key in args && args[key].Object? && args[key].fields != map[] {
      var k :| k in args[key].fields;
      assert |args[key].fields| > 0;
    }
  }

  lemma DigitMeansId(value: Json)
    ensures DigitId(value) <==> IsId(value)
  {
    if value.Text? {
      forall c: char ensures '0' <= c <= '9' <==> c in "0123456789" { DecimalDigit(c); }
      assert forall i | 0 <= i < |value.s| :: value.s[i] in value.s;
    }
  }

  lemma DecimalDigit(c: char)
    ensures '0' <= c <= '9' <==> c in "0123456789"
  {
    var digits := "0123456789";
    if '0' <= c <= '9' {
      var i := c as int - '0' as int;
      assert digits[i] == c;
    }
  }

  lemma ArgumentsFitExactly(policy: Policy, args: Args)
    ensures ArgumentCheck(policy, args) == Allowed <==> ArgumentsFit(policy, args)
    ensures ArgumentCheck(policy, args).Refused? ==> ArgumentCheck(policy, args).retryable
  {
    forall a: Args, key ensures Present(a, key) <==> IsGiven(a, key) { PresentIsGiven(a, key); }
    forall value ensures DigitId(value) <==> IsId(value) { DigitMeansId(value); }
    hide Present, IsGiven, DigitId, IsId;
  }

  /** What no better plan could change: a blocked tool, a spent budget, a wrong time, a missing permission. */
  predicate Forbidden(policy: Policy, context: Context, declared: DeclaredScope)
  {
    || (policy.blockedReason.Some? && policy.blockedReason.value != "")
    || context.callCount >= context.maxCalls
    || (declared == CurrentOnly && context.scope == Historical)
    || (policy.kind == Generic && !context.genericAllowed)
  }

  /**
   A call is allowed if and only if its tool is known, nothing forbids it and its arguments
   fit; a refusal is worth another plan if and only if it is about the tool's name or the
   arguments.
   */
  lemma VerdictsExactly(registry: Registry, name: string, args: Args, context: Context, declared: DeclaredScope)
    ensures var v := ValidateCall(registry, name, args, context, declared);
            && (v == Allowed <==>
                  name in registry && !Forbidden(registry[name], context, declared)
                  && ArgumentsFit(registry[name], args))
            && (v.Refused? && !v.retryable <==> name in registry && Forbidden(registry[name], context, declared))
  {
    if name in registry { ArgumentsFitExactly(registry[name], args); }
    hide ArgumentCheck, ArgumentsFit;
  }

  /** A tool that only knows the present is never asked about the past, and no plan is made to try again. */
  lemma PresentCannotProveThePast(registry: Registry, name: string, args: Args, context: Context)
    requires name in registry && context.scope == Historical
    ensures var v := ValidateCall(registry, name, args, context, CurrentOnly); v.Refused? && !v.retryable
  {
    VerdictsExactly(registry, name, args, context, CurrentOnly);
  }

  /**
   The adapter judges a granted call again without the catalog's scope. It agrees with
   the router exactly when the context it is given still carries the permission a
   generic tool needs; the scope, which may differ, no longer matters.
   */
  lemma SecondValidation(registry: Registry, name: string, args: Args, first: Context, declared: DeclaredScope,
                         second: Context)
    requires ValidateCall(registry, name, args, first, declared) == Allowed
    requires second.callCount == first.callCount && second.maxCalls == first.maxCalls
    ensures name in registry
    ensures ValidateCall(registry, name, args, second, AnyTime) == Allowed
            <==> registry[name].kind != Generic || second.genericAllowed
  {
  }

  /** A refusal the planner is told about is never one it could argue with. */
  lemma PolicyRefusalsAreFinal(registry: Registry, name: string, args: Args, context: Context, declared: DeclaredScope)
    requires name in registry
    ensures var v := ValidateCall(registry, name, args, context, declared);
            v.Refused? && v.retryable ==>
              ArgumentCheck(registry[name], args).Refused? && context.callCount < context.maxCalls
  {
  }
}
