/**
 The two lists of the investigation state that only ever grow, and the trimming
 validator that runs again every time the state is rebuilt between two nodes.
 */
module StateCapacity {

  const UNKNOWNS_CAPACITY := 100
  const KNOWN_FACTS_CAPACITY := 100
  const CAPACITY_NOTICE := "state_capacity_reached"

  datatype Unknown = Unknown(code: string, message: string)
  {
    predicate IsNotice() { code == CAPACITY_NOTICE }
  }

  datatype Growing<F> = Growing(unknowns: seq<Unknown>, facts: seq<F>)

  function Findings(unknowns: seq<Unknown>): seq<Unknown>
  {
    if unknowns == [] then []
    else
      var k := |unknowns| - 1;
      Findings(unknowns[..k]) + (if unknowns[k].IsNotice() then [] else [unknowns[k]])
  }

  function Notices(unknowns: seq<Unknown>): nat
  {
    if unknowns == [] then 0
    else
      var k := |unknowns| - 1;
      Notices(unknowns[..k]) + (if unknowns[k].IsNotice() then 1 else 0)
  }

  function Take<T>(s: seq<T>, n: nat): seq<T> { if |s| <= n then s else s[..n] }

  function Notice(overUnknowns: bool, overFacts: bool): Unknown
  {
    Unknown(CAPACITY_NOTICE,
            if overUnknowns && overFacts then "unknowns and confirmed facts"
            else if overUnknowns then "unknowns" else "confirmed facts")
  }

  /** bound_what_only_grows. */
  function Rebuild<F>(g: Growing<F>): Growing<F>
  {
    var findings := Findings(g.unknowns);
    var overUnknowns := |findings| > UNKNOWNS_CAPACITY - 1;
    var overFacts := |g.facts| > KNOWN_FACTS_CAPACITY;
    if !overUnknowns && !overFacts then g
    else Growing(Take(findings, UNKNOWNS_CAPACITY - 1) + [Notice(overUnknowns, overFacts)],
                 Take(g.facts, KNOWN_FACTS_CAPACITY))
  }

  // ----- counting findings and notices --------------------------------------

  lemma {:induction false} FindingsAppend(a: seq<Unknown>, b: seq<Unknown>)
    ensures Findings(a + b) == Findings(a) + Findings(b)
    ensures Notices(a + b) == Notices(a) + Notices(b)
  {
    if b == [] {
      assert a + b == a;
    } else {
      var k := |b| - 1;
      assert (a + b)[..|a + b| - 1] == a + b[..k];
      FindingsAppend(a, b[..k]);
    }
  }

  lemma {:induction false} FindingsOnly(s: seq<Unknown>)
    ensures |s| == |Findings(s)| + Notices(s)
    ensures forall u | u in Findings(s) :: !u.IsNotice()
    ensures (forall u | u in s :: !u.IsNotice()) ==> Findings(s) == s
  {
    if s != [] {
      var k := |s| - 1;
      FindingsOnly(s[..k]);
      if forall u | u in s :: !u.IsNotice() {
        assert forall u | u in s[..k] :: u in s;
        assert s[k] in s;
        assert s == s[..k] + [s[k]];
      }
    }
  }

  lemma FindingsOfTrimmed(findings: seq<Unknown>, notice: Unknown)
    requires (forall u | u in findings :: !u.IsNotice()) && notice.IsNotice()
    ensures Findings(findings + [notice]) == findings && Notices(findings + [notice]) == 1
  {
    FindingsOnly(findings);
    FindingsAppend(findings, [notice]);
    assert Findings([notice]) == [] && Notices([notice]) == 1;
  }

  // ----- rebuilding ---------------------------------------------------------

  /** Rebuilding a rebuilt state changes nothing, whatever the lists were. */
  lemma RebuildIsIdempotent<F>(g: Growing<F>)
    ensures Rebuild(Rebuild(g)) == Rebuild(g)
  {
    var findings := Findings(g.unknowns);
    FindingsOnly(g.unknowns);
    if |findings| > UNKNOWNS_CAPACITY - 1 || |g.facts| > KNOWN_FACTS_CAPACITY {
      FindingsOfTrimmed(Take(findings, UNKNOWNS_CAPACITY - 1),
                        Notice(|findings| > UNKNOWNS_CAPACITY - 1, |g.facts| > KNOWN_FACTS_CAPACITY));
    }
  }

  /** A rebuild that leaves something out says so last, naming the lists it cut. */
  lemma NoticeNamesWhatWasCut<F>(g: Growing<F>)
    ensures var findings := |Findings(g.unknowns)|;
            var after := Rebuild(g).unknowns;
            findings > 99 || |g.facts| > 100 ==>
              && after != [] && after[|after| - 1].code == "state_capacity_reached"
              && after[|after| - 1].message
                 == if findings <= 99 then "confirmed facts"
                    else if |g.facts| <= 100 then "unknowns" else "unknowns and confirmed facts"
  {
  }

  /** What a run has reported when some state holds this much of it. */
  ghost predicate Holds<F>(g: Growing<F>, reported: Growing<F>)
  {
    && Findings(g.unknowns) == Take(reported.unknowns, UNKNOWNS_CAPACITY - 1)
    && g.facts == Take(reported.facts, KNOWN_FACTS_CAPACITY)
    && Notices(g.unknowns) == (if |reported.unknowns| >= UNKNOWNS_CAPACITY || |reported.facts| > KNOWN_FACTS_CAPACITY
                               then 1 else 0)
  }

  /** The state after nodes append these batches, each followed by a rebuild. */
  function Run<F>(batches: seq<Growing<F>>): Growing<F>
  {
    if batches == [] then Growing([], [])
    else Rebuild(Append(Run(batches[..|batches| - 1]), batches[|batches| - 1]))
  }

  function Append<F>(g: Growing<F>, batch: Growing<F>): Growing<F>
  {
    Growing(g.unknowns + batch.unknowns, g.facts + batch.facts)
  }

  function Reported<F>(batches: seq<Growing<F>>): Growing<F>
  {
    if batches == [] then Growing([], []) else Append(Reported(batches[..|batches| - 1]), batches[|batches| - 1])
  }

  predicate NoNotices<F>(batch: Growing<F>)
  {
    forall u | u in batch.unknowns :: !u.IsNotice()
  }

  lemma TakeAppends<T>(s: seq<T>, t: seq<T>, n: nat)
    ensures Take(Take(s, n) + t, n) == Take(s + t, n)
    ensures |Take(s, n) + t| > n <==> |s + t| > n && (|s| <= n || t != [])
  {
  }

  lemma RebuildHolds<F>(g: Growing<F>, reported: Growing<F>, batch: Growing<F>)
    requires Holds(g, reported) && NoNotices(batch)
    ensures Holds(Rebuild(Append(g, batch)), Append(reported, batch))
  {
    hide Findings, Notices;
    FindingsAppend(g.unknowns, batch.unknowns);
    FindingsOnly(batch.unknowns);
    var next := Append(g, batch);
    var findings := Findings(next.unknowns);
    assert findings == Take(reported.unknowns, 99) + batch.unknowns;
    TakeAppends(reported.unknowns, batch.unknowns, 99);
    TakeAppends(reported.facts, batch.facts, 100);
    FindingsOnly(next.unknowns);
    hide Take;
    if |findings| > 99 || |next.facts| > 100 {
      TakenAreFindings(findings, 99);
      FindingsOfTrimmed(Take(findings, 99), Notice(|findings| > 99, |next.facts| > 100));
    } else {
      NothingTaken(findings, 99);
      NothingTaken(next.facts, 100);
      FindingsOnly(batch.unknowns);
    }
  }

  lemma NothingTaken<T>(s: seq<T>, n: nat)
    requires |s| <= n
    ensures Take(s, n) == s
  {
  }

  lemma TakenAreFindings(s: seq<Unknown>, n: nat)
    requires forall u | u in s :: !u.IsNotice()
    ensures forall u | u in Take(s, n) :: !u.IsNotice()
  {
  }

  /**
   Trimming at every node is trimming once: after any run the findings kept are the
   first 99 ever reported and the facts the first 100, with one notice exactly when
   something was left out, and never more than 100 entries.
   */
  lemma {:induction false} TrimmingEveryNodeIsTrimmingOnce<F>(batches: seq<Growing<F>>)
    requires forall b | b in batches :: NoNotices(b)
    ensures Holds(Run(batches), Reported(batches))
    ensures |Run(batches).unknowns| <= UNKNOWNS_CAPACITY && |Run(batches).facts| <= KNOWN_FACTS_CAPACITY
  {
    if batches != [] {
      var k := |batches| - 1;
      TrimmingEveryNodeIsTrimmingOnce(batches[..k]);
      RebuildHolds(Run(batches[..k]), Reported(batches[..k]), batches[k]);
    }
    FindingsOnly(Run(batches).unknowns);
  }

  lemma {:induction false} ReportedGrows<F>(batches: seq<Growing<F>>, i: nat)
    requires i <= |batches|
    ensures Reported(batches[..i]).unknowns <= Reported(batches).unknowns
    ensures Reported(batches[..i]).facts <= Reported(batches).facts
  {
    if i == |batches| {
      assert batches[..i] == batches;
    } else {
      var k := |batches| - 1;
      ReportedGrows(batches[..k], i);
      assert batches[..k][..i] == batches[..i];
    }
  }

  /** What a run holds after some node stays, in place, for the rest of the run. */
  lemma EarlierStatesArePrefixes<F>(batches: seq<Growing<F>>, i: nat)
    requires i <= |batches| && forall b | b in batches :: NoNotices(b)
    ensures Findings(Run(batches[..i]).unknowns) <= Findings(Run(batches).unknowns)
    ensures Run(batches[..i]).facts <= Run(batches).facts
  {
    hide Run, Findings, Notices, Reported;
    TrimmingEveryNodeIsTrimmingOnce(batches);
    assert forall b | b in batches[..i] :: b in batches;
    TrimmingEveryNodeIsTrimmingOnce(batches[..i]);
    ReportedGrows(batches, i);
  }
}
