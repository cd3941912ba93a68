/**
 Which hosts an investigation is about, in every run: of the names its search reported,
 those nobody asked for and those that alone answer a request.
 */
module CollectorHosts {
  import opened Wrappers
  import opened EvidenceMerge
  import opened ToolPolicy
  import opened CollectorState
  import opened CollectorNodes
  import opened CollectorInvariants
  import opened CollectorCeilings
  import opened CollectorRun
  import opened CollectorTheorems
  import opened CollectorBatchRuns
  import opened CollectorStages

  /** A reported name answers the first request it matches. */
  lemma {:induction false} FirstRequestIsAnswered(name: string, wanted: seq<string>, same: (string, string) -> bool)
    ensures MatchingQuery(name, wanted, same).None? <==> forall i | 0 <= i < |wanted| :: !same(wanted[i], name)
    ensures forall i | 0 <= i < |wanted| && same(wanted[i], name)
                       && (forall j | 0 <= j < i :: !same(wanted[j], name)) ::
              MatchingQuery(name, wanted, same) == Some(wanted[i])
  {
    if wanted != [] && !same(wanted[0], name) {
      FirstRequestIsAnswered(name, wanted[1..], same);
      forall i | 0 <= i < |wanted| && same(wanted[i], name) && (forall j | 0 <= j < i :: !same(wanted[j], name))
        ensures MatchingQuery(name, wanted, same) == Some(wanted[i])
      {
        assert wanted[1..][i - 1] == wanted[i];
        forall j | 0 <= j < i - 1 ensures !same(wanted[1..][j], name) { assert wanted[1..][j] == wanted[j + 1]; }
      }
      assert (forall i | 0 <= i < |wanted| :: !same(wanted[i], name))
        <==> forall i | 0 <= i < |wanted[1..]| :: !same(wanted[1..][i], name) by {
        assert forall i | 0 <= i < |wanted[1..]| :: wanted[1..][i] == wanted[i + 1];
        assert forall i | 1 <= i < |wanted| :: wanted[i] == wanted[1..][i - 1];
      }
    }
  }

  /** The first report of a name. */
  function FirstReport(items: seq<Discovered>, name: string): Option<Discovered>
  {
    if items == [] then None
    else
      var before := FirstReport(items[..|items| - 1], name);
      if before.Some? then before
      else if items[|items| - 1].name == name then Some(items[|items| - 1]) else None
  }

  /** A host as its name was first reported. */
  predicate AsFirstReported(items: seq<Discovered>, h: Host)
  {
    FirstReport(items, h.name) == Some(Discovered(h.name, h.hostId))
  }

  lemma {:induction false} FoundAsReported(items: seq<Discovered>, wanted: seq<string>, same: (string, string) -> bool)
    ensures forall h | h in AddFound([], items, wanted, same) :: AsFirstReported(items, h)
    ensures forall name :: FirstReport(items, name).Some? <==> name in Names(AddFound([], items, wanted, same))
  {
    if items != [] {
      var k := |items| - 1;
      FoundAsReported(items[..k], wanted, same);
      var before := AddFound([], items[..k], wanted, same);
      var added := Host(items[k].name, items[k].hostId, MatchingQuery(items[k].name, wanted, same));
      assert Names(before + [added]) == Names(before) + [added.name];
      hide MatchingQuery;
    }
  }

  lemma {:induction false} MatchesAreFound(found: seq<Host>, wanted: seq<string>)
    ensures forall h | h in ResolveWanted(found, wanted).hosts :: h in found
  {
    if wanted != [] {
      var k := |wanted| - 1;
      MatchesAreFound(found, wanted[..k]);
      MatchesAre(found, wanted[k]);
      var matches := Matches(found, wanted[k]);
      if |matches| == 1 { assert matches[0] in matches; }
    }
  }

  lemma {:induction false} UnaskedAreFound(hosts: seq<Host>, found: seq<Host>)
    ensures forall h | h in AddUnasked(hosts, found) :: h in hosts || h in found
  {
    if found != [] {
      UnaskedAreFound(hosts, found[..|found| - 1]);
      assert found == found[..|found| - 1] + [found[|found| - 1]];
    }
  }

  // ----- the lookups --------------------------------------------------------

  /** The answers of the search's lookups: the last turn only reads what the one before it found. */
  function LookupAnswers(turns: seq<SearchTurn>): seq<ToolResult>
  {
    if turns == [] then []
    else
      var k := |turns| - 1;
      LookupAnswers(turns[..k]) + (if k < 2 && LooksUp(turns[k]) then [turns[k].outcome.result] else [])
  }

  lemma {:induction false} LookupsAreMade(turns: seq<SearchTurn>, s: State, wanted: seq<string>,
                                          same: (string, string) -> bool)
    requires |turns| <= MAX_HOST_SEARCH_TURNS + 1
    ensures SearchAll(turns, s, wanted, same).produced == LookupAnswers(turns[..TurnsTaken(turns, s, wanted, same)])
  {
    if turns != [] {
      var k := |turns| - 1;
      var before := turns[..k];
      LookupsAreMade(before, s, wanted, same);
      SearchFinds(before, s, wanted, same);
      SearchFinds(turns, s, wanted, same);
      var acc := SearchAll(before, s, wanted, same);
      var taken := TurnsTaken(before, s, wanted, same);
      assert turns[..taken] == before[..taken];
      assert taken == k ==> before[..taken] == before;
      assert turns[..k + 1] == turns && turns[..k] == before;
      TurnProduces(turns, s, wanted, same, acc);
    }
  }

  /** A turn adds an answer exactly when the search comes to it, makes a lookup and is answered. */
  lemma TurnProduces(turns: seq<SearchTurn>, s: State, wanted: seq<string>, same: (string, string) -> bool, acc: Search)
    requires 0 < |turns| <= MAX_HOST_SEARCH_TURNS + 1
    requires InStep(turns[..|turns| - 1], s, wanted, same, acc)
    requires InStep(turns, s, wanted, same, SearchOnce(acc, |turns| - 1, turns[|turns| - 1], s, wanted, same))
    ensures var k := |turns| - 1;
            SearchOnce(acc, k, turns[k], s, wanted, same).produced
            == acc.produced + (if TurnsTaken(turns, s, wanted, same) == k + 1 && k < 2 && LooksUp(turns[k])
                               then [turns[k].outcome.result] else [])
  {
    hide Satisfies, AddFound, Reported;
    var k := |turns| - 1;
    if acc.done {
      assert TurnsTaken(turns, s, wanted, same) == TurnsTaken(turns[..k], s, wanted, same) <= k;
    } else {
      StepTakesTurn(turns, s, wanted, same, acc);
    }
  }

  lemma StepTakesTurn(turns: seq<SearchTurn>, s: State, wanted: seq<string>, same: (string, string) -> bool,
                      acc: Search)
    requires 0 < |turns| <= MAX_HOST_SEARCH_TURNS + 1 && !acc.done
    requires InStep(turns[..|turns| - 1], s, wanted, same, acc)
    ensures var k := |turns| - 1;
            TurnsTaken(turns, s, wanted, same) == k + 1 <==>
              && !(acc.found != [] && forall q | q in wanted :: Answered(acc.found, q))
              && (k == MAX_HOST_SEARCH_TURNS || |s.results| + k < s.limits.maxToolCalls)
    ensures |acc.produced| == |turns| - 1
  {
    var k := |turns| - 1;
    var before := turns[..k];
    assert before[..k] == before;
    FoundAreReported(Reported(before), wanted, same);
    SatisfiedMeans(acc.found, Reported(before), wanted, same);
    hide Satisfies, AddFound, Reported, Answered, FoundOf;
  }

  // ----- over a run ---------------------------------------------------------

  /** What the search of a run reported. */
  function ReportedTo(env: Environment, s: State, turns: seq<SearchTurn>): seq<Discovered>
  {
    Reported(turns[..TurnsTaken(turns, s, env.wanted, env.same)])
  }

  lemma SearchHosts(env: Environment, s: State, turns: seq<SearchTurn>)
    requires |turns| <= MAX_HOST_SEARCH_TURNS + 1
    ensures var next := ResolveHosts(s, env.wanted, env.same, turns);
            var items := ReportedTo(env, s, turns);
            && (forall name :: name in Names(next.hosts) <==> name in ChosenNames(items, env.wanted, env.same))
            && (forall h | h in next.hosts ::
                  AsFirstReported(items, h) && h.query == MatchingQuery(h.name, env.wanted, env.same))
            && next.results == s.results + next.lastObservations
            && next.lastObservations == LookupAnswers(turns[..TurnsTaken(turns, s, env.wanted, env.same)])
  {
    SearchFinds(turns, s, env.wanted, env.same);
    LookupsAreMade(turns, s, env.wanted, env.same);
    var items := ReportedTo(env, s, turns);
    var found := AddFound([], items, env.wanted, env.same);
    FoundAreReported(items, env.wanted, env.same);
    HostsAreChosen(found, items, env.wanted, env.same);
    FoundAsReported(items, env.wanted, env.same);
    MatchesAreFound(found, env.wanted);
    UnaskedAreFound(ResolveWanted(found, env.wanted).hosts, found);
    hide SearchAll, ResolveWanted, AddUnasked, AddFound, Names, MatchingQuery, ChosenNames, TurnsTaken, LookupAnswers,
         SetPurposes, AsFirstReported;
  }

  /**
   In every run: the hosts are the names reported that nobody asked for or that alone
   answer a request, each as it was first reported; the answers of the lookups go on
   record; and without a host the investigation ends there.
   */
  lemma HostsAreResolvedExactly(env: Environment, run: seq<Config>, inputs: seq<Input>)
    requires IsRun(env, run, inputs) && |inputs| > 0 && run[1].At?
    ensures inputs[0].Searched?
    ensures var items := ReportedTo(env, run[0].state, inputs[0].turns);
            var next := run[1].state;
            && (forall name :: name in Names(next.hosts) <==> name in ChosenNames(items, env.wanted, env.same))
            && (forall h | h in next.hosts ::
                  AsFirstReported(items, h) && h.query == MatchingQuery(h.name, env.wanted, env.same))
            && (var taken := TurnsTaken(inputs[0].turns, run[0].state, env.wanted, env.same);
                next.results == LookupAnswers(inputs[0].turns[..taken]))
            && next.lastObservations == next.results
            && (next.stop.Some? <==> next.hosts == [])
            && run[1].node == if next.hosts == [] then PackageBuilder else PhenomenonNode
  {
    hide Visited, EntryOk, Trimmed, FreshAnswers;
    NextState(env, run, inputs, 0);
    SearchHosts(env, run[0].state, inputs[0].turns);
    var o := ResolveHosts(run[0].state, env.wanted, env.same, inputs[0].turns);
    TrimmedStop(o);
    TrimmedBatch(o);
    hide Names, ChosenNames, MatchingQuery, LookupAnswers, TurnsTaken, AsFirstReported, SearchAll, ResolveWanted,
         AddUnasked, SetPurposes, ReportedTo;
    assert run[0].state.results == [];
  }
}
