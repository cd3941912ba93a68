/**
 The ceilings of the state's schema that no node keeps, and on which inputs each node
 passes one: conditions on what a node is given, not on what it makes of it.
 */
module CollectorCeilings {
  import opened Wrappers
  import opened EvidenceMerge
  import opened ToolPolicy
  import opened CollectorState
  import opened CollectorNodes
  import opened CollectorInvariants
  import opened CollectorRun
  import opened CollectorBatches

  // ----- the scan -----------------------------------------------------------

  /** Scans that name a resolved host, can be read, and are answered. */
  function Answerable(scans: seq<Scan>, hosts: seq<string>): nat
  {
    if scans == [] then 0
    else
      var scan := scans[|scans| - 1];
      Answerable(scans[..|scans| - 1], hosts)
      + (if scan.host in hosts && scan.args.Some? && scan.outcome.Answer? then 1 else 0)
  }

  function Least(a: nat, b: nat): nat { if a <= b then a else b }

  /** A scan records what it can answer, up to what is left of the budget. */
  lemma {:induction false} ScanRecords(scans: seq<Scan>, s: State)
    requires |s.results| <= s.limits.maxToolCalls
    ensures |ScanAll(scans, s).results|
            == |s.results| + Least(Answerable(scans, Names(s.hosts)), s.limits.maxToolCalls - |s.results|)
    ensures ScanAll(scans, s).done ==> |ScanAll(scans, s).results| >= s.limits.maxToolCalls
  {
    hide Names;
    if scans != [] { ScanRecords(scans[..|scans| - 1], s); }
  }

  // ----- the updater --------------------------------------------------------

  /** Ids a decision proposes that no held hypothesis has. */
  function NewIds(proposed: seq<Hypothesis>, held: seq<string>): set<string>
  {
    set id | id in HypothesisIds(proposed) && id !in held
  }

  lemma {:induction false} ProposalsAdd(acc: Revised, proposed: seq<Hypothesis>)
    ensures var held := HypothesisIds(acc.hypotheses);
            && |ProposeAll(acc, proposed).hypotheses| == |acc.hypotheses| + |NewIds(proposed, held)|
            && forall id :: id in HypothesisIds(ProposeAll(acc, proposed).hypotheses) <==>
                 id in held || id in NewIds(proposed, held)
  {
    var held := HypothesisIds(acc.hypotheses);
    if proposed == [] {
      assert NewIds(proposed, held) == {};
    } else {
      var k := |proposed| - 1;
      var last := proposed[k];
      ProposalsAdd(acc, proposed[..k]);
      IdsOneMore(proposed, held);
      var before := ProposeAll(acc, proposed[..k]);
      assert HypothesisIds(before.hypotheses + [Cleared(last)]) == HypothesisIds(before.hypotheses) + [last.id];
      var news := NewIds(proposed[..k], held);
      hide HypothesisIds, NewIds;
      assert news + {} == news;
      if last.id !in held {
        if last.id in news { assert news + {last.id} == news; }
        else { assert |news + {last.id}| == |news| + 1; }
      }
    }
  }

  lemma IdsOneMore(proposed: seq<Hypothesis>, held: seq<string>)
    requires proposed != []
    ensures var k := |proposed| - 1;
            NewIds(proposed, held)
            == NewIds(proposed[..k], held) + (if proposed[k].id in held then {} else {proposed[k].id})
  {
    var k := |proposed| - 1;
    var ids := HypothesisIds(proposed[..k]);
    assert HypothesisIds(proposed) == ids + [proposed[k].id];
    var more := if proposed[k].id in held then {} else {proposed[k].id};
    assert forall id :: id in NewIds(proposed, held) <==> id in NewIds(proposed[..k], held) + more;
    assert NewIds(proposed, held) == NewIds(proposed[..k], held) + more;
  }

  // ----- the router ---------------------------------------------------------

  /** Questions the registry refuses with something a better plan could answer. */
  function Retryable(questions: seq<Question>, s: State, registry: Registry, catalog: Catalog): nat
  {
    if questions == [] then 0
    else
      var q := questions[|questions| - 1];
      Retryable(questions[..|questions| - 1], s, registry, catalog)
      + (if q.tool.Some? && RouterVerdict(q, s, 0, registry, catalog).Refused?
            && RouterVerdict(q, s, 0, registry, catalog).retryable then 1 else 0)
  }

  predicate Grantable(q: Question, s: State, registry: Registry, catalog: Catalog)
  {
    q.tool.Some? && RouterVerdict(q, s, 0, registry, catalog) == Allowed
  }

  lemma {:induction false} RefusalsAreRetryable(questions: seq<Question>, s: State, registry: Registry,
                                                catalog: Catalog)
    requires s.callCount + |questions| <= s.limits.maxToolCalls
    ensures var r := RouteAll(questions, s, registry, catalog);
            !r.raised ==> |r.refusals| == Retryable(questions, s, registry, catalog)
  {
    hide RouterVerdict;
    if questions != [] {
      var k := |questions| - 1;
      RefusalsAreRetryable(questions[..k], s, registry, catalog);
      RouterGrantsExactly(s, questions[..k], registry, catalog);
      if questions[k].tool.Some? {
        PlaceDoesNotMatter(questions[k], s, |RouteAll(questions[..k], s, registry, catalog).planned|, registry,
                           catalog);
      }
    }
  }

  /** The router's batch is empty exactly when no question of it is grantable. */
  lemma NothingGrantable(s: State, registry: Registry, catalog: Catalog)
    requires QuestionsReady(s) && s.callCount == |s.results|
    ensures var r := RouteAll(s.questions, s, registry, catalog);
            && (r.raised <==> exists q | q in s.questions :: Grantable(q, s, registry, catalog) && TooLong(q))
            && (!r.raised ==> (r.planned == [] <==> forall q | q in s.questions :: !Grantable(q, s, registry, catalog)))
            && (!r.raised ==> |r.refusals| == Retryable(s.questions, s, registry, catalog))
  {
    hide RouterVerdict, RouteAll;
    RouterGrantsExactly(s, s.questions, registry, catalog);
    GrantedAreAsked(s.questions, s, registry, catalog);
    RefusalsAreRetryable(s.questions, s, registry, catalog);
    var granted := GrantedOf(s.questions, s, registry, catalog);
    hide GrantedOf, QuestionsReady;
    if granted != [] { assert granted[0] in granted; }
  }

  // ----- the hosts ----------------------------------------------------------

  /** Everything the model reported over these turns. */
  function Reported(turns: seq<SearchTurn>): seq<Discovered>
  {
    if turns == [] then [] else Reported(turns[..|turns| - 1]) + turns[|turns| - 1].hosts
  }

  /** A turn that made a lookup and got an answer. */
  predicate LooksUp(turn: SearchTurn)
  {
    turn.tool.Some? && turn.args.Some? && turn.outcome.Answer?
  }

  predicate AllLookUp(turns: seq<SearchTurn>) { forall t | t in turns :: LooksUp(t) }

  /** Some name has been reported for each one asked for. */
  predicate Satisfies(items: seq<Discovered>, wanted: seq<string>, same: (string, string) -> bool)
  {
    items != [] && forall q | q in wanted :: exists d | d in items :: MatchingQuery(d.name, wanted, same) == Some(q)
  }

  /** How many turns the model is asked for: while lookups are answered, names missing and budget left. */
  function TurnsTaken(turns: seq<SearchTurn>, s: State, wanted: seq<string>,
                      same: (string, string) -> bool): (taken: nat)
    ensures taken <= |turns|
  {
    if turns == [] then 0
    else
      var k := |turns| - 1;
      var before := TurnsTaken(turns[..k], s, wanted, same);
      if before == k && AllLookUp(turns[..k])
         && !Satisfies(Reported(turns[..k]), wanted, same)
         && (k == MAX_HOST_SEARCH_TURNS || |s.results| + k < s.limits.maxToolCalls)
      then k + 1 else before
  }

  lemma {:induction false} FoundJoins(found: seq<Host>, a: seq<Discovered>, b: seq<Discovered>, wanted: seq<string>,
                                      same: (string, string) -> bool)
    ensures AddFound(AddFound(found, a, wanted, same), b, wanted, same) == AddFound(found, a + b, wanted, same)
  {
    if b == [] {
      assert a + b == a;
    } else {
      hide MatchingQuery, Names;
      assert (a + b)[..|a + b| - 1] == a + b[..|b| - 1];
      FoundJoins(found, a, b[..|b| - 1], wanted, same);
    }
  }

  /** A found host is a reported name with the request it answers, each name once. */
  ghost predicate FoundOf(found: seq<Host>, items: seq<Discovered>, wanted: seq<string>, same: (string, string) -> bool)
  {
    && Distinct(Names(found))
    && (forall h | h in found ::
          h.query == MatchingQuery(h.name, wanted, same) && exists d | d in items :: d.name == h.name)
    && (forall d | d in items :: d.name in Names(found))
  }

  lemma InNames(found: seq<Host>, name: string)
    ensures name in Names(found) <==> exists h | h in found :: h.name == name
  {
    if name in Names(found) {
      var i :| 0 <= i < |Names(found)| && Names(found)[i] == name;
      assert found[i] in found;
    }
    if h :| h in found && h.name == name {
      var i :| 0 <= i < |found| && found[i] == h;
      assert Names(found)[i] == name;
    }
  }

  lemma {:induction false} FoundAreReported(items: seq<Discovered>, wanted: seq<string>, same: (string, string) -> bool)
    ensures FoundOf(AddFound([], items, wanted, same), items, wanted, same)
  {
    if items != [] {
      var k := |items| - 1;
      FoundAreReported(items[..k], wanted, same);
      var before := AddFound([], items[..k], wanted, same);
      FoundOneMore(before, items, wanted, same);
    }
  }

  lemma FoundOneMore(before: seq<Host>, items: seq<Discovered>, wanted: seq<string>, same: (string, string) -> bool)
    requires items != [] && FoundOf(before, items[..|items| - 1], wanted, same)
    ensures var last := items[|items| - 1];
            FoundOf(if last.name in Names(before) then before
                    else before + [Host(last.name, last.hostId, MatchingQuery(last.name, wanted, same))],
                    items, wanted, same)
  {
    hide MatchingQuery;
    var last := items[|items| - 1];
    var added := Host(last.name, last.hostId, MatchingQuery(last.name, wanted, same));
    assert Names(before + [added]) == Names(before) + [added.name];
    assert last in items && forall d | d in items[..|items| - 1] :: d in items;
    assert forall d | d in items :: d in items[..|items| - 1] || d == last;
  }

  lemma FoundEach(found: seq<Host>, items: seq<Discovered>, wanted: seq<string>, same: (string, string) -> bool,
                  d: Discovered)
    returns (h: Host)
    requires FoundOf(found, items, wanted, same) && d in items
    ensures h in found && h.name == d.name && h.query == MatchingQuery(d.name, wanted, same)
  {
    hide MatchingQuery, Distinct;
    InNames(found, d.name);
    h :| h in found && h.name == d.name;
  }

  lemma AnsweredMeans(found: seq<Host>, items: seq<Discovered>, wanted: seq<string>, same: (string, string) -> bool,
                      q: string)
    requires FoundOf(found, items, wanted, same)
    ensures Answered(found, q) <==> exists d | d in items :: MatchingQuery(d.name, wanted, same) == Some(q)
  {
    hide MatchingQuery, Distinct, Names;
    if d :| d in items && MatchingQuery(d.name, wanted, same) == Some(q) {
      var h := FoundEach(found, items, wanted, same, d);
    }
  }

  lemma SatisfiedMeans(found: seq<Host>, items: seq<Discovered>, wanted: seq<string>, same: (string, string) -> bool)
    requires FoundOf(found, items, wanted, same)
    ensures found != [] && (forall q | q in wanted :: Answered(found, q)) <==> Satisfies(items, wanted, same)
  {
    hide MatchingQuery, Distinct;
    if found != [] { assert found[0] in found; }
    if items != [] { var h := FoundEach(found, items, wanted, same, items[0]); }
    forall q | q in wanted
      ensures Answered(found, q) <==> exists d | d in items :: MatchingQuery(d.name, wanted, same) == Some(q)
    {
      AnsweredMeans(found, items, wanted, same, q);
    }
    hide Answered, FoundOf;
  }

  /** The search and the count of its turns, in step. */
  ghost predicate InStep(turns: seq<SearchTurn>, s: State, wanted: seq<string>, same: (string, string) -> bool,
                         acc: Search)
  {
    var taken := TurnsTaken(turns, s, wanted, same);
    && taken <= |turns|
    && acc.found == AddFound([], Reported(turns[..taken]), wanted, same)
    && (!acc.done ==> taken == |turns| == |acc.produced| && AllLookUp(turns))
    && (acc.done ==> taken < |turns| || !AllLookUp(turns) || |turns| > MAX_HOST_SEARCH_TURNS)
  }

  lemma TurnAfterTheEnd(turns: seq<SearchTurn>, s: State, wanted: seq<string>, same: (string, string) -> bool,
                        acc: Search)
    requires 0 < |turns| <= MAX_HOST_SEARCH_TURNS + 1 && acc.done
    requires InStep(turns[..|turns| - 1], s, wanted, same, acc)
    ensures InStep(turns, s, wanted, same, acc)
  {
    hide Satisfies, AddFound, Reported, AllLookUp;
    var k := |turns| - 1;
    var taken := TurnsTaken(turns[..k], s, wanted, same);
    assert TurnsTaken(turns, s, wanted, same) == taken;
    assert turns[..taken] == turns[..k][..taken];
  }

  /** A turn the search comes to: it is taken exactly when the search asks the model for it. */
  lemma TurnInTime(turns: seq<SearchTurn>, s: State, wanted: seq<string>, same: (string, string) -> bool, acc: Search)
    requires 0 < |turns| <= MAX_HOST_SEARCH_TURNS + 1 && !acc.done
    requires InStep(turns[..|turns| - 1], s, wanted, same, acc)
    requires acc.found != [] && (forall q | q in wanted :: Answered(acc.found, q))
             <==> Satisfies(Reported(turns[..|turns| - 1]), wanted, same)
    requires AllLookUp(turns) <==> AllLookUp(turns[..|turns| - 1]) && LooksUp(turns[|turns| - 1])
    requires AddFound(acc.found, turns[|turns| - 1].hosts, wanted, same) == AddFound([], Reported(turns), wanted, same)
    ensures InStep(turns, s, wanted, same, SearchOnce(acc, |turns| - 1, turns[|turns| - 1], s, wanted, same))
  {
    hide Satisfies, AddFound, Reported, AllLookUp, Answered;
    var k := |turns| - 1;
    assert turns[..k + 1] == turns && turns[..k] == turns[..k][..k];
  }

  lemma AllLookUpButOne(turns: seq<SearchTurn>)
    requires turns != []
    ensures AllLookUp(turns) <==> AllLookUp(turns[..|turns| - 1]) && LooksUp(turns[|turns| - 1])
  {
    hide LooksUp;
    assert turns == turns[..|turns| - 1] + [turns[|turns| - 1]];
  }

  lemma TurnStaysInStep(turns: seq<SearchTurn>, s: State, wanted: seq<string>, same: (string, string) -> bool,
                        acc: Search)
    requires 0 < |turns| <= MAX_HOST_SEARCH_TURNS + 1
    requires InStep(turns[..|turns| - 1], s, wanted, same, acc)
    ensures InStep(turns, s, wanted, same, SearchOnce(acc, |turns| - 1, turns[|turns| - 1], s, wanted, same))
  {
    hide Satisfies, AddFound, AllLookUp, FoundOf, LooksUp, TurnsTaken, Answered;
    var k := |turns| - 1;
    var before := turns[..k];
    if acc.done {
      TurnAfterTheEnd(turns, s, wanted, same, acc);
    } else {
      assert before[..k] == before;
      AllLookUpButOne(turns);
      FoundAreReported(Reported(before), wanted, same);
      SatisfiedMeans(acc.found, Reported(before), wanted, same);
      FoundJoins([], Reported(before), turns[k].hosts, wanted, same);
      TurnInTime(turns, s, wanted, same, acc);
    }
  }

  /** What the search finds: the names reported over the turns it takes. */
  lemma {:induction false} SearchFinds(turns: seq<SearchTurn>, s: State, wanted: seq<string>,
                                       same: (string, string) -> bool)
    requires |turns| <= MAX_HOST_SEARCH_TURNS + 1
    ensures InStep(turns, s, wanted, same, SearchAll(turns, s, wanted, same))
  {
    if turns != [] {
      hide InStep, SearchOnce;
      SearchFinds(turns[..|turns| - 1], s, wanted, same);
      TurnStaysInStep(turns, s, wanted, same, SearchAll(turns[..|turns| - 1], s, wanted, same));
    }
  }

  /** Whether this reported name is one to investigate: asked for by nobody, or the only one a request matches. */
  predicate Chosen(name: string, items: seq<Discovered>, wanted: seq<string>, same: (string, string) -> bool)
  {
    var q := MatchingQuery(name, wanted, same);
    q.None? || forall d | d in items && MatchingQuery(d.name, wanted, same) == q :: d.name == name
  }

  function ChosenNames(items: seq<Discovered>, wanted: seq<string>, same: (string, string) -> bool): set<string>
  {
    set d | d in items && Chosen(d.name, items, wanted, same) :: d.name
  }

  lemma {:induction false} MatchIsWanted(name: string, wanted: seq<string>, same: (string, string) -> bool)
    ensures MatchingQuery(name, wanted, same).Some? ==> MatchingQuery(name, wanted, same).value in wanted
  {
    if wanted != [] { MatchIsWanted(name, wanted[1..], same); }
  }

  lemma {:induction false} MatchesAre(found: seq<Host>, q: string)
    ensures forall h :: h in Matches(found, q) <==> h in found && h.query == Some(q)
  {
    if found != [] {
      var k := |found| - 1;
      MatchesAre(found[..k], q);
      assert found == found[..k] + [found[k]];
    }
  }

  lemma EarlierDiffer(found: seq<Host>)
    requires found != [] && Distinct(Names(found))
    ensures Distinct(Names(found[..|found| - 1]))
    ensures var k := |found| - 1; forall h | h in found[..k] :: h.name != found[k].name
  {
    var k := |found| - 1;
    forall i | 0 <= i < k ensures Names(found[..k])[i] == Names(found)[i] && found[i].name != found[k].name {
      assert Names(found)[i] != Names(found)[k];
    }
    forall h | h in found[..k] ensures h.name != found[k].name {
      var i :| 0 <= i < k && found[i] == h;
    }
    var earlier := Names(found[..k]);
    assert forall i, j | 0 <= i < j < k :: earlier[i] == Names(found)[i] && earlier[j] == Names(found)[j];
  }

  /** When all matches of a request bear one name, the request has that one match. */
  lemma {:induction false} OneNameOneMatch(found: seq<Host>, q: string, h: Host)
    requires Distinct(Names(found)) && h in found && h.query == Some(q)
    requires forall g | g in found && g.query == Some(q) :: g.name == h.name
    ensures Matches(found, q) == [h]
  {
    var k := |found| - 1;
    assert found == found[..k] + [found[k]];
    EarlierDiffer(found);
    if found[k].query == Some(q) {
      MatchesAre(found[..k], q);
      assert h == found[k];
      NoneMatch(found[..k], q);
    } else {
      OneNameOneMatch(found[..k], q, h);
    }
  }

  lemma {:induction false} NoneMatch(found: seq<Host>, q: string)
    requires forall g | g in found :: g.query != Some(q)
    ensures Matches(found, q) == []
  {
    if found != [] { NoneMatch(found[..|found| - 1], q); }
  }

  /** The request has one match, and it bears this name. */
  predicate Picks(found: seq<Host>, q: string, name: string)
  {
    |Matches(found, q)| == 1 && Matches(found, q)[0].name == name
  }

  /** Names chosen for the requests: those of single matches. */
  lemma {:induction false} ResolvedNames(found: seq<Host>, wanted: seq<string>, name: string)
    ensures name in Names(ResolveWanted(found, wanted).hosts) <==> exists q | q in wanted :: Picks(found, q, name)
  {
    if wanted != [] {
      var k := |wanted| - 1;
      ResolvedNames(found, wanted[..k], name);
      assert forall q :: q in wanted <==> q in wanted[..k] || q == wanted[k];
      var before := ResolveWanted(found, wanted[..k]).hosts;
      var matches := Matches(found, wanted[k]);
      if |matches| == 1 { DefaultNames(before, matches[0], name); }
      assert Picks(found, wanted[k], name) <==> |matches| == 1 && matches[0].name == name;
      hide Picks, Matches, Names, SetDefault;
    }
  }

  lemma DefaultNames(hosts: seq<Host>, host: Host, name: string)
    ensures name in Names(SetDefault(hosts, host)) <==> name in Names(hosts) || name == host.name
  {
    assert Names(hosts + [host]) == Names(hosts) + [host.name];
  }

  lemma {:induction false} UnaskedNames(hosts: seq<Host>, found: seq<Host>, name: string)
    ensures name in Names(AddUnasked(hosts, found)) <==>
              name in Names(hosts) || exists h | h in found :: h.query.None? && h.name == name
  {
    if found != [] {
      var k := |found| - 1;
      UnaskedNames(hosts, found[..k], name);
      assert found == found[..k] + [found[k]];
      DefaultNames(AddUnasked(hosts, found[..k]), found[k], name);
    }
  }

  /** A single match is exactly a chosen name: no other reported name answers its request. */
  lemma PickedAreChosen(found: seq<Host>, items: seq<Discovered>, wanted: seq<string>, same: (string, string) -> bool,
                        h: Host)
    requires FoundOf(found, items, wanted, same) && h in found && h.query.Some?
    ensures Picks(found, h.query.value, h.name) <==> Chosen(h.name, items, wanted, same)
  {
    hide MatchingQuery;
    var q := h.query.value;
    MatchesAre(found, q);
    if Chosen(h.name, items, wanted, same) {
      OneNameOneMatch(found, q, h);
    }
    if Picks(found, q, h.name) {
      forall d | d in items && MatchingQuery(d.name, wanted, same) == Some(q) ensures d.name == h.name {
        var g := FoundEach(found, items, wanted, same, d);
        assert g in Matches(found, q);
      }
    }
  }

  /** The hosts an investigation gets: the chosen names, each once. */
  lemma HostsAreChosen(found: seq<Host>, items: seq<Discovered>, wanted: seq<string>, same: (string, string) -> bool)
    requires FoundOf(found, items, wanted, same)
    ensures var hosts := AddUnasked(ResolveWanted(found, wanted).hosts, found);
            && Distinct(Names(hosts))
            && forall name :: name in Names(hosts) <==> name in ChosenNames(items, wanted, same)
  {
    ResolvedStayDistinct(found, wanted);
    UnaskedStayDistinct(ResolveWanted(found, wanted).hosts, found);
    forall name
      ensures name in Names(AddUnasked(ResolveWanted(found, wanted).hosts, found))
              <==> name in ChosenNames(items, wanted, same)
    {
      ResolvedNames(found, wanted, name);
      UnaskedNames(ResolveWanted(found, wanted).hosts, found, name);
      ChosenAreFound(found, items, wanted, same, name);
    }
  }

  lemma ChosenAreFound(found: seq<Host>, items: seq<Discovered>, wanted: seq<string>, same: (string, string) -> bool,
                       name: string)
    requires FoundOf(found, items, wanted, same)
    ensures name in ChosenNames(items, wanted, same) <==>
              || (exists q | q in wanted :: Picks(found, q, name))
              || (exists h | h in found :: h.query.None? && h.name == name)
  {
    hide MatchingQuery, Distinct, Names;
    if d :| d in items && d.name == name && Chosen(name, items, wanted, same) {
      var h := FoundEach(found, items, wanted, same, d);
      MatchIsWanted(name, wanted, same);
      if h.query.Some? { PickedAreChosen(found, items, wanted, same, h); }
    }
    if q :| q in wanted && Picks(found, q, name) {
      var h := Matches(found, q)[0];
      assert h in Matches(found, q);
      MatchesAre(found, q);
      PickedAreChosen(found, items, wanted, same, h);
    }
    hide Picks, Matches;
  }

  lemma {:induction false} DistinctSize(s: seq<string>, all: set<string>)
    requires Distinct(s) && forall x :: x in s <==> x in all
    ensures |s| == |all|
  {
    if s == [] {
      assert all == {};
    } else {
      var k := |s| - 1;
      var rest := all - {s[k]};
      assert s == s[..k] + [s[k]];
      assert forall i | 0 <= i < k :: s[i] != s[k];
      assert forall x :: x in s[..k] <==> x in rest;
      DistinctSize(s[..k], rest);
    }
  }

  // ----- which node passes which ceiling ------------------------------------

  predicate PassesACeiling(env: Environment, node: Node, s: State, input: Input)
    requires Acceptable(node, s, input)
  {
    match node
    case HostResolver =>
      var taken := TurnsTaken(input.turns, s, env.wanted, env.same);
      |ChosenNames(Reported(input.turns[..taken]), env.wanted, env.same)| > 20
    case PhenomenonNode =>
      Answerable(input.scans, Names(s.hosts)) > 8 && s.limits.maxToolCalls > |s.results| + 8
    case ObservationPlanner => s.stop.None? && s.iterations == 20
    case Router =>
      && s.questions != [] && (forall q | q in s.questions :: !Grantable(q, s, env.registry, env.catalog))
      && |s.rejections| + Retryable(s.questions, s, env.registry, env.catalog) > 20
    case Updater => |s.hypotheses| + |NewIds(input.decision.newHypotheses, HypothesisIds(s.hypotheses))| > 20
    case _ => false
  }

  /**
   Why a visit may raise: a hypothesis plan repeats an id, a question the router would
   grant is too long for a call's purpose, or the node is given more than a ceiling holds.
   */
  predicate Raises(env: Environment, node: Node, s: State, input: Input)
    requires Acceptable(node, s, input)
  {
    || (node == HypothesisPlanner && !Distinct(HypothesisIds(input.hypotheses)))
    || (node == Router && exists q | q in s.questions :: Grantable(q, s, env.registry, env.catalog) && TooLong(q))
    || PassesACeiling(env, node, s, input)
  }

  lemma {:induction false} FewLookups(turns: seq<SearchTurn>, s: State, wanted: seq<string>,
                                      same: (string, string) -> bool)
    ensures |SearchAll(turns, s, wanted, same).produced| <= |turns|
  {
    if turns != [] { FewLookups(turns[..|turns| - 1], s, wanted, same); }
  }

  lemma {:induction false} FewObservations(calls: seq<Call>, outcomes: seq<CallOutcome>, s: State)
    requires |outcomes| == |calls|
    ensures |CollectAll(calls, outcomes, s).observations| <= |calls|
  {
    if calls != [] { FewObservations(calls[..|calls| - 1], outcomes[..|calls| - 1], s); }
  }

  lemma PlannersPass(env: Environment, s: State, input: Input)
    requires WithinCeilings(s)
    ensures input.Searched? && |input.turns| <= 3 ==>
              (WithinCeilings(ResolveHosts(s, env.wanted, env.same, input.turns))
               <==> |ResolveHosts(s, env.wanted, env.same, input.turns).hosts| <= 20)
    ensures input.Hypothesized? && |input.hypotheses| <= 20
              && PlanHypotheses(s, input.hypotheses, input.planStop).Next? ==>
              WithinCeilings(PlanHypotheses(s, input.hypotheses, input.planStop).state)
    ensures input.Proposed? ==>
              (WithinCeilings(PlanObservations(s, input.proposals, input.observationStop, env.registry))
               <==> s.stop.Some? || s.iterations < 20)
  {
    hide SearchAll, ResolveWanted, AddUnasked, SetPurposes, ConsiderAll, Distinct;
    if input.Searched? { FewLookups(input.turns, s, env.wanted, env.same); }
  }

  lemma HostsPass(s: State, wanted: seq<string>, same: (string, string) -> bool, turns: seq<SearchTurn>)
    requires |turns| <= MAX_HOST_SEARCH_TURNS + 1
    ensures var taken := TurnsTaken(turns, s, wanted, same);
            |ResolveHosts(s, wanted, same, turns).hosts| == |ChosenNames(Reported(turns[..taken]), wanted, same)|
  {
    SearchFinds(turns, s, wanted, same);
    var items := Reported(turns[..TurnsTaken(turns, s, wanted, same)]);
    var found := SearchAll(turns, s, wanted, same).found;
    FoundAreReported(items, wanted, same);
    hide SearchAll, ChosenNames, ResolveWanted, AddUnasked, FoundOf;
    HostsAreChosen(found, items, wanted, same);
    var hosts := AddUnasked(ResolveWanted(found, wanted).hosts, found);
    DistinctSize(Names(hosts), ChosenNames(items, wanted, same));
  }

  lemma RouterPasses(env: Environment, s: State)
    requires WithinCeilings(s) && RouteTools(s, env.registry, env.catalog).Next?
    ensures var r := RouteAll(s.questions, s, env.registry, env.catalog);
            WithinCeilings(RouteTools(s, env.registry, env.catalog).state)
            <==> s.questions == [] || r.planned != [] || |s.rejections| + |r.refusals| <= 20
  {
    hide RouteAll;
  }

  lemma ScanPasses(s: State, scans: seq<Scan>)
    requires WithinCeilings(s) && s.results <= ScanAll(scans, s).results
    ensures WithinCeilings(EstablishPhenomenon(s, scans)) <==> |ScanAll(scans, s).results| <= |s.results| + 8
  {
    hide ScanAll;
  }

  lemma RecordStays(before: seq<ToolResult>, outcomes: seq<CallOutcome>, after: seq<ToolResult>)
    requires RecordOf(before, outcomes, after)
    ensures before <= after
  {
  }

  lemma ExecutorPasses(s: State, outcomes: seq<CallOutcome>)
    requires WithinCeilings(s) && |outcomes| == |s.planned| <= MAX_BATCH
    ensures WithinCeilings(ExecuteTools(s, outcomes))
  {
    hide CollectAll;
    FewObservations(s.planned, outcomes, s);
  }

  lemma UpdaterPasses(s: State, d: UpdateDecision)
    requires WithinCeilings(s) && s.lastObservations != []
    ensures WithinCeilings(UpdateHypotheses(s, d).state)
            <==> |ProposeAll(UpdateAll(d.updates, s), d.newHypotheses).hypotheses| <= 20
  {
    hide UpdateAll, ProposeAll, ConfirmAll;
  }

  lemma ClosersPass(s: State, findings: nat)
    requires WithinCeilings(s)
    ensures WithinCeilings(EvaluateReport(s, findings))
    ensures BuildPackage(s).Next? ==> WithinCeilings(BuildPackage(s).state)
    ensures WithinCeilings(NormalizeEvidence(s))
  {
    hide PackageValid, PackageCalls, NormalizeAll;
  }

  lemma GuardPasses(s: State, overtime: bool)
    requires WithinCeilings(s)
    ensures WithinCeilings(GuardStop(s, overtime))
  {
  }

  lemma {:induction false} UpdatesKeepCount(s: State, updates: seq<Update>)
    ensures HypothesisIds(UpdateAll(updates, s).hypotheses) == HypothesisIds(s.hypotheses)
  {
    if updates != [] {
      var k := |updates| - 1;
      UpdatesKeepCount(s, updates[..k]);
      var acc := UpdateAll(updates[..k], s);
      hide Revise, UpdateNotes;
      var i := IndexOf(HypothesisIds(acc.hypotheses), updates[k].id);
      if i < |acc.hypotheses| {
        RevisedId(acc.hypotheses[i], updates[k], s);
        assert HypothesisIds(acc.hypotheses[i := Revise(acc.hypotheses[i], updates[k], s)])
            == HypothesisIds(acc.hypotheses);
      }
    }
  }

  lemma RevisedId(h: Hypothesis, u: Update, s: State)
    ensures Revise(h, u, s).id == h.id
  {
  }

  lemma UpdaterPassesExactly(s: State, d: UpdateDecision)
    requires WithinCeilings(s) && s.lastObservations != []
    ensures WithinCeilings(UpdateHypotheses(s, d).state)
            <==> |s.hypotheses| + |NewIds(d.newHypotheses, HypothesisIds(s.hypotheses))| <= 20
  {
    hide WithinCeilings, UpdateHypotheses, UpdateAll, ProposeAll, NewIds;
    UpdaterPasses(s, d);
    UpdatesKeepCount(s, d.updates);
    ProposalsAdd(UpdateAll(d.updates, s), d.newHypotheses);
    assert |HypothesisIds(s.hypotheses)| == |s.hypotheses|;
  }

  lemma CeilingsArePassedExactly(env: Environment, node: Node, s: State, input: Input)
    requires EntryOk(node, s) && WithinCeilings(s) && Acceptable(node, s, input)
    requires Updated(env, node, s, input).Next?
    ensures WithinCeilings(Updated(env, node, s, input).state) <==> !PassesACeiling(env, node, s, input)
  {
    match node
    case HostResolver =>
      PlannersPass(env, s, input);
      HostsPass(s, env.wanted, env.same, input.turns);
    case HypothesisPlanner => PlannersPass(env, s, input);
    case ObservationPlanner => PlannersPass(env, s, input);
    case Router =>
      RouterPasses(env, s);
      NothingGrantable(s, env.registry, env.catalog);
    case PhenomenonNode =>
      ScanKeeps(s, input.scans);
      RecordStays(s.results, ScanOutcomes(input.scans), ScanAll(input.scans, s).results);
      ScanRecords(input.scans, s);
      ScanPasses(s, input.scans);
    case Executor => ExecutorPasses(s, input.outcomes);
    case Normalizer => ClosersPass(s, 0);
    case Updater => UpdaterPassesExactly(s, input.decision);
    case Guard => GuardPasses(s, input.overtime);
    case PackageBuilder => ClosersPass(s, 0);
    case Writer =>
    case ReportEval => ClosersPass(s, input.findings);
  }
}
