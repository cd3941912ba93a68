/**
 The record of an investigation, over whole runs: what every call was made for, what its
 answers left as evidence, and the package the report is written from.
 */
module CollectorRecords {
  import opened Wrappers
  import opened EvidenceMerge
  import opened StateCapacity
  import opened ToolPolicy
  import opened CollectorState
  import opened CollectorNodes
  import opened CollectorInvariants
  import opened CollectorRun
  import opened CollectorTheorems
  import opened CollectorBatchRuns
  import opened CollectorStages
  import opened CollectorBatches
  import opened CollectorCeilings

  // ----- what each call was made for ----------------------------------------

  /** Purposes were added for these results, and no other purpose changed. */
  ghost predicate PurposesAdded(before: map<string, string>, added: seq<ToolResult>, after: map<string, string>)
  {
    && (forall id :: id in after <==> id in before || id in CallIds(added))
    && (forall id | id in before && id !in CallIds(added) :: after[id] == before[id])
  }

  lemma OnePurposeMore(before: map<string, string>, added: seq<ToolResult>, after: map<string, string>,
                       r: ToolResult, purpose: string)
    requires PurposesAdded(before, added, after)
    ensures PurposesAdded(before, added + [r], after[r.callId := purpose])
  {
    assert CallIds(added + [r]) == CallIds(added) + [r.callId];
  }

  lemma NoPurposeMore(before: map<string, string>)
    ensures PurposesAdded(before, [], before)
  {
  }

  lemma {:induction false} SearchPurposes(purposes: map<string, string>, produced: seq<ToolResult>, purpose: string)
    ensures PurposesAdded(purposes, produced, SetPurposes(purposes, produced, purpose))
    ensures forall r | r in produced :: r.callId in SetPurposes(purposes, produced, purpose)
              && SetPurposes(purposes, produced, purpose)[r.callId] == purpose
  {
    if produced == [] {
      NoPurposeMore(purposes);
    } else {
      var k := |produced| - 1;
      SearchPurposes(purposes, produced[..k], purpose);
      assert produced == produced[..k] + [produced[k]];
      OnePurposeMore(purposes, produced[..k], SetPurposes(purposes, produced[..k], purpose), produced[k], purpose);
      hide PurposesAdded;
      forall r | r in produced
        ensures r.callId in SetPurposes(purposes, produced, purpose)
        ensures SetPurposes(purposes, produced, purpose)[r.callId] == purpose
      {
        assert r in produced[..k] || r == produced[k];
      }
    }
  }

  lemma ScanOncePurposes(acc: Gathered, scan: Scan, s: State)
    requires s.results <= acc.results && PurposesAdded(s.purposes, acc.results[|s.results|..], acc.purposes)
    ensures s.results <= ScanOnce(acc, scan, s).results
    ensures PurposesAdded(s.purposes, ScanOnce(acc, scan, s).results[|s.results|..], ScanOnce(acc, scan, s).purposes)
  {
    hide PurposesAdded, MergeInto, Normalize, MergeNotes, Names, CallIds;
    if scan.outcome.Answer? {
      var r := scan.outcome.result;
      OnePurposeMore(s.purposes, acc.results[|s.results|..], acc.purposes, r,
                     "Establish the observed phenomenon on host " + scan.host);
      assert (acc.results + [r])[|s.results|..] == acc.results[|s.results|..] + [r];
    }
  }

  lemma {:induction false} ScanPurposes(scans: seq<Scan>, s: State)
    ensures s.results <= ScanAll(scans, s).results
    ensures PurposesAdded(s.purposes, ScanAll(scans, s).results[|s.results|..], ScanAll(scans, s).purposes)
  {
    if scans == [] {
      NoPurposeMore(s.purposes);
      assert s.results[|s.results|..] == [];
    } else {
      hide PurposesAdded, ScanOnce;
      var k := |scans| - 1;
      ScanPurposes(scans[..k], s);
      ScanOncePurposes(ScanAll(scans[..k], s), scans[k], s);
    }
  }

  lemma {:induction false} CallPurposes(calls: seq<Call>, outcomes: seq<CallOutcome>, s: State)
    requires |outcomes| == |calls|
    ensures PurposesAdded(s.purposes, AnswersIn(outcomes), CollectAll(calls, outcomes, s).purposes)
  {
    if calls == [] {
      NoPurposeMore(s.purposes);
    } else {
      var k := |calls| - 1;
      CallPurposes(calls[..k], outcomes[..k], s);
      hide PurposesAdded;
      if outcomes[k].Answer? {
        OnePurposeMore(s.purposes, AnswersIn(outcomes[..k]), CollectAll(calls[..k], outcomes[..k], s).purposes,
                       outcomes[k].result, calls[k].purpose);
      } else {
        assert AnswersIn(outcomes) == AnswersIn(outcomes[..k]);
      }
    }
  }

  /** Every result has a purpose on record, and those of earlier results are as they were. */
  ghost predicate PurposesKept(s: State, s': State)
  {
    && (forall r | r in s'.results :: r.callId in s'.purposes)
    && (forall r | r in s.results && r.callId in s.purposes ::
          r.callId in s'.purposes && s'.purposes[r.callId] == s.purposes[r.callId])
  }

  predicate AllHavePurposes(s: State)
  {
    forall r | r in s.results :: r.callId in s.purposes
  }

  lemma AddedAreKept(s: State, s': State, added: seq<ToolResult>)
    requires AllHavePurposes(s) && s'.results == s.results + added && Distinct(CallIds(s'.results))
    requires PurposesAdded(s.purposes, added, s'.purposes)
    ensures AllHavePurposes(s') && PurposesKept(s, s')
  {
    assert CallIds(s'.results) == CallIds(s.results) + CallIds(added);
    forall i, j | 0 <= i < |s.results| && 0 <= j < |added| ensures CallIds(s.results)[i] != CallIds(added)[j] {
      assert CallIds(s'.results)[i] != CallIds(s'.results)[|s.results| + j];
    }
    forall r | r in s.results ensures r.callId !in CallIds(added) {
      var i :| 0 <= i < |s.results| && s.results[i] == r;
      assert CallIds(s.results)[i] == r.callId;
    }
    forall r | r in added ensures r.callId in CallIds(added) {
      var j :| 0 <= j < |added| && added[j] == r;
      assert CallIds(added)[j] == r.callId;
    }
  }

  lemma SameRecordIsKept(s: State, s': State)
    requires AllHavePurposes(s) && s'.results == s.results && s'.purposes == s.purposes
    ensures AllHavePurposes(s') && PurposesKept(s, s')
  {
  }

  predicate SameRecord(s: State, s': State)
  {
    s'.results == s.results && s'.purposes == s.purposes
  }

  lemma OwnFieldsKeepTheRecord(node: Node, s: State, s': State)
    requires WritesOnly(node, s, s') && node != HostResolver && node != PhenomenonNode && node != Executor
    ensures SameRecord(s, s')
  {
  }

  /** Only the search, the scan and the calls put anything on record. */
  lemma RecordStands(env: Environment, c: Config, input: Input)
    requires c.At? && Acceptable(c.node, c.state, input)
    requires c.node != HostResolver && c.node != PhenomenonNode && c.node != Executor
    ensures var o := Updated(env, c.node, c.state, input); o.Next? ==> SameRecord(c.state, o.state)
  {
    var s := c.state;
    hide SameRecord, WritesOnly, PlanHypotheses, PlanObservations, RouteTools, NormalizeEvidence, UpdateHypotheses,
         GuardStop, BuildPackage, EvaluateReport, FreshAnswers;
    PlannersWriteTheirOwn(env, s, input);
    CallersWriteTheirOwn(env, s, input);
    ClosersWriteTheirOwn(s, input);
    StandsStill(s);
    var o := Updated(env, c.node, s, input);
    if o.Next? { OwnFieldsKeepTheRecord(c.node, s, o.state); }
  }

  lemma VisitKeepsPurposes(env: Environment, c: Config, input: Input)
    requires c.At? && Acceptable(c.node, c.state, input) && EntryOk(c.node, c.state) && AllHavePurposes(c.state)
    ensures var o := Updated(env, c.node, c.state, input);
            o.Next? ==> AllHavePurposes(o.state) && PurposesKept(c.state, o.state)
  {
    hide AllHavePurposes, PurposesKept, PurposesAdded, FreshAnswers, SearchAll, ScanAll, CollectAll, SetPurposes,
         ResolveWanted, AddUnasked, RouteTools, PlanObservations, PlanHypotheses, NormalizeEvidence, UpdateHypotheses,
         GuardStop, BuildPackage, EvaluateReport, Grounded, Recorded, FactsCite, HypothesesCite, QuestionsName,
         CallsName, Distinct;
    var s := c.state;
    if c.node == HostResolver {
      var search := SearchAll(input.turns, s, env.wanted, env.same);
      SearchPurposes(s.purposes, search.produced, "Resolve the requested investigation hosts");
      ResolveHostsKeeps(s, env.wanted, env.same, input.turns);
      AddedAreKept(s, ResolveHosts(s, env.wanted, env.same, input.turns), search.produced);
    } else if c.node == PhenomenonNode {
      ScanPurposes(input.scans, s);
      EstablishKeeps(s, input.scans);
      AddedAreKept(s, EstablishPhenomenon(s, input.scans), ScanAll(input.scans, s).results[|s.results|..]);
    } else if c.node == Executor {
      CallPurposes(s.planned, input.outcomes, s);
      CollectedExactly(s, s.planned, input.outcomes);
      ExecuteToolsKeeps(s, input.outcomes);
      AddedAreKept(s, ExecuteTools(s, input.outcomes), AnswersIn(input.outcomes));
    } else {
      RecordStands(env, c, input);
      hide Updated;
      var o := Updated(env, c.node, s, input);
      if o.Next? { SameRecordIsKept(s, o.state); }
    }
  }

  lemma PurposesChain(s: State, s': State, s'': State)
    requires PurposesKept(s, s') && PurposesKept(s', s'') && s.results <= s'.results
    ensures PurposesKept(s, s'')
  {
    forall r | r in s.results ensures r in s'.results {
      var i :| 0 <= i < |s.results| && s.results[i] == r;
      assert s'.results[i] == r;
    }
  }

  lemma SamePurposes(s: State, s': State, t: State)
    requires AllHavePurposes(s') && PurposesKept(s, s') && t.results == s'.results && t.purposes == s'.purposes
    ensures AllHavePurposes(t) && PurposesKept(s, t)
  {
  }

  /** In every run every call on record has its purpose, which never changes. */
  lemma {:induction false} EveryCallHasItsPurpose(env: Environment, run: seq<Config>, inputs: seq<Input>, i: nat,
                                                  k: nat)
    requires IsRun(env, run, inputs) && i <= k < |run| && run[k].At?
    ensures run[i].At? && AllHavePurposes(run[k].state) && PurposesKept(run[i].state, run[k].state)
  {
    hide Visited, EntryOk, Trimmed, Updated, NextNode, Acceptable, AllHavePurposes, PurposesKept;
    if k == 0 {
      NothingRecorded(run[0].state);
    } else {
      NextState(env, run, inputs, k - 1);
      var o := Updated(env, run[k - 1].node, run[k - 1].state, inputs[k - 1]);
      EveryCallHasItsPurpose(env, run, inputs, if i < k then i else k - 1, k - 1);
      VisitKeepsPurposes(env, run[k - 1], inputs[k - 1]);
      TrimmedBatch(o.state);
      TrimmedStop(o.state);
      SamePurposes(run[k - 1].state, o.state, run[k].state);
      if i < k {
        RecordsOnlyGrow(env, run, inputs, i, k - 1);
        PurposesChain(run[i].state, run[k - 1].state, run[k].state);
      } else {
        SameRecordIsKept(run[k].state, run[k].state);
      }
    }
  }

  lemma NothingRecorded(s: State)
    requires Fresh(s)
    ensures AllHavePurposes(s) && PurposesKept(s, s)
  {
  }

  /** A scan's answer is recorded as establishing the phenomenon on the scan's host. */
  ghost predicate PurposeOfScan(r: ToolResult, scans: seq<Scan>, purposes: map<string, string>)
  {
    r.callId in purposes &&
    exists k :: 0 <= k < |scans| && scans[k].outcome == Answer(r)
      && purposes[r.callId] == "Establish the observed phenomenon on host " + scans[k].host
  }

  lemma PurposeOfEarlierScan(r: ToolResult, scans: seq<Scan>, purposes: map<string, string>, results: seq<ToolResult>)
    requires scans != [] && FreshAnswers(ScanOutcomes(scans), results)
    requires PurposeOfScan(r, scans[..|scans| - 1], purposes)
    ensures PurposeOfScan(r, scans, purposes)
    ensures scans[|scans| - 1].outcome.Answer? ==> scans[|scans| - 1].outcome.result.callId != r.callId
  {
    var m := |scans| - 1;
    var k :| 0 <= k < m && scans[..m][k].outcome == Answer(r)
             && purposes[r.callId] == "Establish the observed phenomenon on host " + scans[..m][k].host;
    assert scans[k].outcome == Answer(r) && scans[k].host == scans[..m][k].host;
    assert ScanOutcomes(scans)[k] == Answer(r) && ScanOutcomes(scans)[m] == scans[m].outcome;
  }

  lemma {:induction false} ScansHavePurposes(scans: seq<Scan>, s: State)
    requires FreshAnswers(ScanOutcomes(scans), s.results)
    ensures var g := ScanAll(scans, s);
            && s.results <= g.results
            && forall n | |s.results| <= n < |g.results| :: PurposeOfScan(g.results[n], scans, g.purposes)
  {
    if scans != [] {
      var k := |scans| - 1;
      assert ScanOutcomes(scans[..k]) == ScanOutcomes(scans)[..k];
      FreshPrefix(ScanOutcomes(scans), s.results, k);
      ScansHavePurposes(scans[..k], s);
      var acc := ScanAll(scans[..k], s);
      var g := ScanAll(scans, s);
      forall n | |s.results| <= n < |g.results| ensures PurposeOfScan(g.results[n], scans, g.purposes) {
        if n < |acc.results| {
          PurposeOfEarlierScan(acc.results[n], scans, acc.purposes, s.results);
          PurposeSurvives(acc.results[n], scans, acc.purposes, g.purposes);
        } else {
          assert scans[k].outcome == Answer(g.results[n]);
        }
      }
    }
  }

  lemma PurposeSurvives(r: ToolResult, scans: seq<Scan>, purposes: map<string, string>, after: map<string, string>)
    requires PurposeOfScan(r, scans, purposes) && r.callId in after && after[r.callId] == purposes[r.callId]
    ensures PurposeOfScan(r, scans, after)
  {
  }

  /** In every run: a call on record was made to find the hosts, to scan one of them, or to answer its question. */
  lemma CallsAreRecordedForWhatTheyAsk(env: Environment, run: seq<Config>, inputs: seq<Input>, i: nat)
    requires IsRun(env, run, inputs) && i < |inputs| && run[i + 1].At?
    ensures run[i].At? && Acceptable(run[i].node, run[i].state, inputs[i])
    ensures var s := run[i].state;
            var next := run[i + 1].state;
            && (run[i].node == HostResolver ==>
                  forall r | r in next.results ::
                    r.callId in next.purposes
                    && next.purposes[r.callId] == "Resolve the requested investigation hosts")
            && (run[i].node == PhenomenonNode ==>
                  forall n | |s.results| <= n < |next.results| ::
                    PurposeOfScan(next.results[n], inputs[i].scans, next.purposes))
            && (run[i].node == Executor ==>
                  forall k | 0 <= k < |s.planned| && inputs[i].outcomes[k].Answer? ::
                    inputs[i].outcomes[k].result.callId in next.purposes
                    && next.purposes[inputs[i].outcomes[k].result.callId] == s.planned[k].purpose)
  {
    hide Visited, EntryOk, Trimmed, NextNode, PurposeOfScan, FreshAnswers;
    NextState(env, run, inputs, i);
    var s := run[i].state;
    TrimmedBatch(Updated(env, run[i].node, s, inputs[i]).state);
    TrimmedStop(Updated(env, run[i].node, s, inputs[i]).state);
    if run[i].node == HostResolver {
      StartsEmpty(env, run, inputs, i);
      var produced := SearchAll(inputs[i].turns, s, env.wanted, env.same).produced;
      SearchPurposes(s.purposes, produced, "Resolve the requested investigation hosts");
      hide SearchAll, SetPurposes, ResolveWanted, AddUnasked, Fresh;
      assert [] + produced == produced;
    } else if run[i].node == PhenomenonNode {
      ScansHavePurposes(inputs[i].scans, s);
      hide ScanAll, Fresh;
    } else if run[i].node == Executor {
      forall k | 0 <= k < |s.planned| && inputs[i].outcomes[k].Answer?
        ensures var e := CollectAll(s.planned, inputs[i].outcomes, s);
                inputs[i].outcomes[k].result.callId in e.purposes
                && e.purposes[inputs[i].outcomes[k].result.callId] == s.planned[k].purpose
      {
        PurposesAreRecorded(s, s.planned, inputs[i].outcomes, k);
      }
      hide CollectAll, Fresh;
    }
  }

  lemma StartsEmpty(env: Environment, run: seq<Config>, inputs: seq<Input>, i: nat)
    requires IsRun(env, run, inputs) && i < |run| && run[i].At? && run[i].node == HostResolver
    ensures run[i].state.results == []
  {
    hide Visited;
    RunIsSound(env, run, inputs, i);
    Counted(run[i], i, FinalRefusals(run[..i + 1]));
  }

  // ----- what the answers left as evidence ----------------------------------

  /** The evidence in an answer: none if the call failed, else each reading under the call's id. */
  function ReadingsOf(r: ToolResult): seq<Evidence>
  {
    if r.status.Error? then []
    else
      seq(|r.readings|, n requires 0 <= n < |r.readings| =>
        Evidence(r.readings[n].id, r.callId, r.readings[n].isEvent, r.readings[n].content))
  }

  function AllReadings(results: seq<ToolResult>): seq<Evidence>
  {
    if results == [] then [] else AllReadings(results[..|results| - 1]) + ReadingsOf(results[|results| - 1])
  }

  lemma ReadingsAre(r: ToolResult)
    ensures Normalize(r) == ReadingsOf(r)
  {
  }

  lemma ReadingsOfOneMore(results: seq<ToolResult>, r: ToolResult)
    ensures AllReadings(results + [r]) == AllReadings(results) + ReadingsOf(r)
  {
    assert (results + [r])[..|results|] == results;
  }

  /** The answers of the scans that name a resolved host and can be read. */
  function ScanAnswers(scans: seq<Scan>, hosts: seq<string>): seq<ToolResult>
  {
    if scans == [] then []
    else
      var scan := scans[|scans| - 1];
      ScanAnswers(scans[..|scans| - 1], hosts)
      + (if scan.host in hosts && scan.args.Some? && scan.outcome.Answer? then [scan.outcome.result] else [])
  }

  /** The scan records these answers while the budget lasts, and merges what each of them holds. */
  lemma {:induction false} ScannedExactly(scans: seq<Scan>, s: State)
    requires |s.results| <= s.limits.maxToolCalls
    ensures var g := ScanAll(scans, s);
            var taken := Take(ScanAnswers(scans, Names(s.hosts)), s.limits.maxToolCalls - |s.results|);
            && g.results == s.results + taken
            && (g.done ==> |g.results| == s.limits.maxToolCalls)
            && g.evidence == MergeInto(s.evidence, AllReadings(taken), 200).held
  {
    if scans == [] {
      assert s.results + [] == s.results;
    } else {
      var k := |scans| - 1;
      ScannedExactly(scans[..k], s);
      var acc := ScanAll(scans[..k], s);
      var room := s.limits.maxToolCalls - |s.results|;
      var before := Take(ScanAnswers(scans[..k], Names(s.hosts)), room);
      hide Names;
      ScanOneMore(acc, scans[k], s, before);
      var taken := Take(ScanAnswers(scans, Names(s.hosts)), room);
      assert taken == if scans[k].host in Names(s.hosts) && scans[k].args.Some? && scans[k].outcome.Answer?
                         && |before| < room then before + [scans[k].outcome.result] else before;
    }
  }

  lemma ScanOneMore(acc: Gathered, scan: Scan, s: State, taken: seq<ToolResult>)
    requires acc.results == s.results + taken && |acc.results| <= s.limits.maxToolCalls
    requires acc.done ==> |acc.results| == s.limits.maxToolCalls
    requires acc.evidence == MergeInto(s.evidence, AllReadings(taken), 200).held
    ensures var g := ScanOnce(acc, scan, s);
            var more := if scan.host in Names(s.hosts) && scan.args.Some? && scan.outcome.Answer?
                           && |acc.results| < s.limits.maxToolCalls then taken + [scan.outcome.result] else taken;
            && g.results == s.results + more && (g.done ==> |g.results| == s.limits.maxToolCalls)
            && g.evidence == MergeInto(s.evidence, AllReadings(more), 200).held
  {
    hide Names;
    if scan.outcome.Answer? {
      ReadingsAre(scan.outcome.result);
      ReadingsOfOneMore(taken, scan.outcome.result);
      MergingComposes(s.evidence, AllReadings(taken), ReadingsOf(scan.outcome.result), 200);
      hide MergeInto, AllReadings, Normalize, ReadingsOf;
    }
  }

  /** An answer with a planned call of its own and a resolved host to file it under. */
  predicate Placed(s: State, o: ToolResult)
  {
    var plan := PlanFor(s, o);
    plan.Some? && (|s.hosts| == 1 || (plan.value.host.Some? && plan.value.host.value in Names(s.hosts)))
  }

  function PlacedOf(s: State, observations: seq<ToolResult>): seq<ToolResult>
  {
    if observations == [] then []
    else
      var o := observations[|observations| - 1];
      PlacedOf(s, observations[..|observations| - 1]) + (if Placed(s, o) then [o] else [])
  }

  lemma {:induction false} NormalizedExactly(s: State, observations: seq<ToolResult>)
    ensures NormalizeAll(observations, s).evidence
            == MergeInto(s.evidence, AllReadings(PlacedOf(s, observations)), 200).held
  {
    if observations != [] {
      var k := |observations| - 1;
      NormalizedExactly(s, observations[..k]);
      var placed := PlacedOf(s, observations[..k]);
      if !Placed(s, observations[k]) { assert PlacedOf(s, observations) == placed; }
      ReadingsAre(observations[k]);
      ReadingsOfOneMore(placed, observations[k]);
      MergingComposes(s.evidence, AllReadings(placed), ReadingsOf(observations[k]), 200);
      hide MergeInto, AllReadings, Normalize, ReadingsOf, PlanFor, Names;
    }
  }

  /** What merging these readings into that evidence must come to. */
  ghost predicate HoldsReadings(before: seq<Evidence>, readings: seq<Evidence>, after: seq<Evidence>)
  {
    exists m :: MergeEffect(before, readings, 200, m) && m.held == after
  }

  lemma MergedHolds(before: seq<Evidence>, readings: seq<Evidence>)
    requires Distinct(Ids(before)) && |before| <= 200
    ensures HoldsReadings(before, readings, MergeInto(before, readings, 200).held)
  {
    MergeKeepsLatest(before, readings, 200);
    hide MergeEffect, MergeInto;
  }

  lemma EvidenceIsSound(node: Node, s: State)
    requires EntryOk(node, s)
    ensures Distinct(Ids(s.evidence)) && |s.evidence| <= 200 && |s.results| <= s.limits.maxToolCalls
    ensures s.callCount == |s.results|
    ensures node == Normalizer ==> s.planned != [] && s.stop.None? && s.fatal.None?
  {
  }

  /**
   In every run: a turn's evidence is every reading of every answer that did not fail and
   has its place, the latest of each id, up to the ceiling; a turn without answers ends
   the run with an error.
   */
  lemma TurnsLeaveTheirReadings(env: Environment, run: seq<Config>, inputs: seq<Input>, i: nat)
    requires IsRun(env, run, inputs) && i < |inputs| && run[i].At? && run[i].node == Normalizer && run[i + 1].At?
    ensures var s := run[i].state;
            && run[i + 1].state.results == s.results
            && (s.lastObservations != [] ==>
                  HoldsReadings(s.evidence, AllReadings(PlacedOf(s, s.lastObservations)), run[i + 1].state.evidence)
                  && run[i + 1].node == Updater && run[i + 1].state.fatal.None?)
            && (s.lastObservations == [] ==>
                  run[i + 1].state.evidence == s.evidence && run[i + 1].node == Guard && run[i + 1].state.fatal.Some?)
  {
    hide Visited, Fresh, EntryOk, Trimmed, HoldsReadings, NormalizeAll;
    NextState(env, run, inputs, i);
    var s := run[i].state;
    EvidenceIsSound(Normalizer, s);
    NormalizedExactly(s, s.lastObservations);
    MergedHolds(s.evidence, AllReadings(PlacedOf(s, s.lastObservations)));
    TrimmedBatch(NormalizeEvidence(s));
    TrimmedStop(NormalizeEvidence(s));
    hide PlacedOf, AllReadings, MergeInto;
  }

  /** In every run: the scan of the hosts puts on record, and holds as evidence, what it may. */
  lemma ScansAreRecorded(env: Environment, run: seq<Config>, inputs: seq<Input>, i: nat)
    requires IsRun(env, run, inputs) && i < |inputs| && run[i].At? && run[i].node == PhenomenonNode && run[i + 1].At?
    ensures inputs[i].Scanned? && |run[i].state.results| <= run[i].state.limits.maxToolCalls
    ensures var s := run[i].state;
            var taken := Take(ScanAnswers(inputs[i].scans, Names(s.hosts)), s.limits.maxToolCalls - |s.results|);
            && run[i + 1].state.results == s.results + taken && run[i + 1].state.lastObservations == taken
            && HoldsReadings(s.evidence, AllReadings(taken), run[i + 1].state.evidence)
            && run[i + 1].node == HypothesisPlanner
  {
    hide Visited, Fresh, EntryOk, Trimmed, HoldsReadings, ScanAll;
    NextState(env, run, inputs, i);
    var s := run[i].state;
    EvidenceIsSound(PhenomenonNode, s);
    ScannedExactly(inputs[i].scans, s);
    var taken := Take(ScanAnswers(inputs[i].scans, Names(s.hosts)), s.limits.maxToolCalls - |s.results|);
    assert (s.results + taken)[|s.results|..] == taken;
    MergedHolds(s.evidence, AllReadings(taken));
    TrimmedBatch(EstablishPhenomenon(s, inputs[i].scans));
    TrimmedStop(EstablishPhenomenon(s, inputs[i].scans));
    hide Take, ScanAnswers, AllReadings, MergeInto, Names;
  }

  // ----- the package --------------------------------------------------------

  predicate ConfidenceFits(h: Hypothesis, c: Confidence)
  {
    && (c.High? <==> h.status.Supported? && h.counter == [])
    && (c.Low? <==> h.status.Rejected? || (!h.status.Supported? && h.supporting == []))
  }

  predicate FindingFits(h: Hypothesis, f: Finding)
  {
    && f.description == h.statement && f.supporting == h.supporting && f.contradicting == h.counter
    && ConfidenceFits(h, f.confidence)
  }

  /** An answer on record, as the package lists the call that got it: under its recorded purpose. */
  predicate RecordFits(r: ToolResult, purposes: map<string, string>, c: CallRecord)
  {
    && c.callId == r.callId && c.tool == r.tool
    && r.callId in purposes && c.purpose == purposes[r.callId]
    && (c.status.CallFailed? <==> r.status.Error?)
    && (c.status.PartlyAnswered? <==> r.status.Partial? || r.status.FilteredEmpty?)
  }

  /** The whole investigation, as the writer is given it. */
  predicate PackageHolds(p: Package, s: State)
  {
    && p.evidence == s.evidence && p.facts == s.facts && p.unknowns == s.unknowns
    && Some(p.stop) == s.stop && p.limitReached == s.limitReached
    && p.iterations == (if s.iterations == 0 then 1 else s.iterations)
    && |p.hosts| == |s.hosts| && (forall n | 0 <= n < |p.hosts| :: p.hosts[n] == (s.hosts[n].name, s.hosts[n].hostId))
    && |p.hypotheses| == |s.hypotheses|
    && (forall n | 0 <= n < |p.hypotheses| :: FindingFits(s.hypotheses[n], p.hypotheses[n]))
    && |p.calls| == |s.results|
    && (forall n | 0 <= n < |p.calls| :: RecordFits(s.results[n], s.purposes, p.calls[n]))
  }

  lemma PackageIsWhole(s: State)
    requires Core(s) && AllHavePurposes(s) && s.stop.Some?
    ensures var o := BuildPackage(s);
            && o.Next? && o.state == s.(package := o.state.package)
            && (if s.hosts == [] then o.state.package.None?
                else o.state.package.Some? && PackageHolds(o.state.package.value, s))
  {
    PackageIsValid(s);
    hide PackageValid, Core;
  }

  /** Nothing rewrites the package. */
  lemma PackageStays(env: Environment, c: Config, input: Input)
    requires c.At? && Acceptable(c.node, c.state, input) && (c.node == Writer || c.node == ReportEval)
    ensures var o := Updated(env, c.node, c.state, input); o.Next? && o.state.package == c.state.package
  {
  }

  lemma AtPackageBuilder(s: State)
    requires EntryOk(PackageBuilder, s)
    ensures Core(s) && s.stop.Some?
  {
  }

  /**
   In every run: from the package builder on, the writer has the evidence, facts,
   hypotheses, unknowns and calls of the investigation as it stopped, if it found a host,
   and nothing otherwise.
   */
  lemma {:induction false} PackageHoldsTheInvestigation(env: Environment, run: seq<Config>, inputs: seq<Input>,
                                                        b: nat, k: nat)
    requires IsRun(env, run, inputs) && b < k < |run| && run[b].At? && run[b].node == PackageBuilder && run[k].At?
    ensures run[k].node == Writer || run[k].node == ReportEval || run[k].node == Finished
    ensures if run[b].state.hosts == [] then run[k].state.package.None?
            else run[k].state.package.Some? && PackageHolds(run[k].state.package.value, run[b].state)
  {
    hide Visited, Fresh, EntryOk, Trimmed, PackageHolds, BuildPackage, EvaluateReport, AllHavePurposes;
    NextState(env, run, inputs, k - 1);
    if k == b + 1 {
      AtPackageBuilder(run[b].state);
      EveryCallHasItsPurpose(env, run, inputs, b, b);
      PackageIsWhole(run[b].state);
      TrimmedStop(BuildPackage(run[b].state).state);
    } else {
      PackageHoldsTheInvestigation(env, run, inputs, b, k - 1);
      PackageStays(env, run[k - 1], inputs[k - 1]);
      TrimmedStop(Updated(env, run[k - 1].node, run[k - 1].state, inputs[k - 1]).state);
    }
  }
}
