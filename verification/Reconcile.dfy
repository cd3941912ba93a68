/**
 Validation of a report against its evidence package, reconciliation of the events it left
 uncited, and the citation check that runs over the result.
 */
module Reconcile {
  import opened Wrappers
  import opened EvidenceMerge
  import opened StateCapacity

  datatype Item = Item(text: string, tag: Option<string>, evidenceRefs: seq<string>, counterRefs: seq<string>)

  datatype Section = Section(id: string, body: Option<string>, items: seq<Item>)

  datatype Report = Report(title: string, sections: seq<Section>)

  const LIMITATIONS := "limitations"
  const MAX_ADDED := 20
  const MAX_TEXT := 2000

  // ----- what a report cites ------------------------------------------------

  function ItemRefs(items: seq<Item>): seq<string>
  {
    if items == [] then []
    else
      var last := items[|items| - 1];
      ItemRefs(items[..|items| - 1]) + last.evidenceRefs + last.counterRefs
  }

  function SectionRefs(sections: seq<Section>): seq<string>
  {
    if sections == [] then [] else SectionRefs(sections[..|sections| - 1]) + ItemRefs(sections[|sections| - 1].items)
  }

  function SectionIds(sections: seq<Section>): seq<string>
  {
    seq(|sections|, i requires 0 <= i < |sections| => sections[i].id)
  }

  /** _validate_report: what it does not raise over. */
  predicate Valid(report: Report, declared: seq<string>, evidence: seq<Evidence>)
  {
    && Distinct(SectionIds(report.sections))
    && (forall id | id in SectionIds(report.sections) :: id in declared)
    && (forall ref | ref in SectionRefs(report.sections) :: ref in Ids(evidence))
  }

  // ----- reconciliation -----------------------------------------------------

  /** Events of the package that these references leave out, in the package's order. */
  function Uncited(evidence: seq<Evidence>, refs: seq<string>): seq<Evidence>
  {
    if evidence == [] then []
    else
      var last := evidence[|evidence| - 1];
      Uncited(evidence[..|evidence| - 1], refs) + (if last.isEvent && last.id !in refs then [last] else [])
  }

  function Mention(e: Evidence): Item
  {
    Item(Take("보고서 본문에 실리지 않은 관측 이벤트: " + e.content, MAX_TEXT), Some("미반영 이벤트"), [e.id], [])
  }

  function Mentions(events: seq<Evidence>): seq<Item>
  {
    seq(|events|, i requires 0 <= i < |events| => Mention(events[i]))
  }

  /** Append to the first section with this id, or add the section. */
  function AddTo(sections: seq<Section>, id: string, items: seq<Item>): seq<Section>
  {
    if sections == [] then [Section(id, None, items)]
    else if sections[0].id == id then [sections[0].(items := sections[0].items + items)] + sections[1..]
    else [sections[0]] + AddTo(sections[1..], id, items)
  }

  /** _reconcile_evidence. */
  function Reconciled(report: Report, declared: seq<string>, evidence: seq<Evidence>): Report
  {
    var dropped := Uncited(evidence, SectionRefs(report.sections));
    if dropped == [] || LIMITATIONS !in declared then report
    else report.(sections := AddTo(report.sections, LIMITATIONS, Mentions(Take(dropped, MAX_ADDED))))
  }

  // ----- references ---------------------------------------------------------

  lemma {:induction false} SectionRefsSplit(a: seq<Section>, b: seq<Section>)
    ensures SectionRefs(a + b) == SectionRefs(a) + SectionRefs(b)
  {
    if b == [] {
      assert a + b == a;
    } else {
      hide ItemRefs;
      var last := b[|b| - 1];
      assert (a + b)[..|a + b| - 1] == a + b[..|b| - 1] && (a + b)[|a + b| - 1] == last;
      SectionRefsSplit(a, b[..|b| - 1]);
      assert SectionRefs(a + b) == SectionRefs(a + b[..|b| - 1]) + ItemRefs(last.items);
    }
  }

  lemma {:induction false} ItemRefsSplit(a: seq<Item>, b: seq<Item>)
    ensures ItemRefs(a + b) == ItemRefs(a) + ItemRefs(b)
  {
    if b == [] {
      assert a + b == a;
    } else {
      assert (a + b)[..|a + b| - 1] == a + b[..|b| - 1];
      ItemRefsSplit(a, b[..|b| - 1]);
    }
  }

  lemma {:induction false} MentionsCite(events: seq<Evidence>)
    ensures ItemRefs(Mentions(events)) == Ids(events)
  {
    if events != [] {
      var k := |events| - 1;
      assert Mentions(events)[..k] == Mentions(events[..k]);
      MentionsCite(events[..k]);
      assert Ids(events) == Ids(events[..k]) + [events[k].id];
    }
  }

  lemma OneSection(section: Section)
    ensures SectionRefs([section]) == ItemRefs(section.items)
  {
    assert [section][..0] == [];
  }

  /** Adding items cites what was cited before and what the items cite, and nothing else. */
  lemma {:induction false} AddingCites(sections: seq<Section>, id: string, items: seq<Item>)
    ensures forall ref :: ref in SectionRefs(AddTo(sections, id, items))
              <==> ref in SectionRefs(sections) || ref in ItemRefs(items)
  {
    if sections == [] {
      OneSection(Section(id, None, items));
    } else {
      assert sections == [sections[0]] + sections[1..];
      SectionRefsSplit([sections[0]], sections[1..]);
      OneSection(sections[0]);
      if sections[0].id == id {
        var grown := sections[0].(items := sections[0].items + items);
        ItemRefsSplit(sections[0].items, items);
        OneSection(grown);
        SectionRefsSplit([grown], sections[1..]);
      } else {
        AddingCites(sections[1..], id, items);
        SectionRefsSplit([sections[0]], AddTo(sections[1..], id, items));
      }
    }
  }

  /** The sections keep their ids and places; the one added to comes last when it is new. */
  lemma {:induction false} AddingKeepsIds(sections: seq<Section>, id: string, items: seq<Item>)
    ensures SectionIds(AddTo(sections, id, items))
            == SectionIds(sections) + (if id in SectionIds(sections) then [] else [id])
  {
    if sections == [] {
    } else {
      assert SectionIds(sections) == [sections[0].id] + SectionIds(sections[1..]);
      if sections[0].id == id {
        assert SectionIds(AddTo(sections, id, items)) == SectionIds(sections);
      } else {
        AddingKeepsIds(sections[1..], id, items);
        assert SectionIds(AddTo(sections, id, items)) == [sections[0].id] + SectionIds(AddTo(sections[1..], id, items));
      }
    }
  }

  lemma {:induction false} UncitedAreEvents(evidence: seq<Evidence>, refs: seq<string>)
    ensures forall e :: e in Uncited(evidence, refs) <==> e in evidence && e.isEvent && e.id !in refs
  {
    if evidence != [] {
      var k := |evidence| - 1;
      UncitedAreEvents(evidence[..k], refs);
      assert forall e :: e in evidence <==> e in evidence[..k] || e == evidence[k];
    }
  }

  /** Reconciling cites nothing the report could not, so a valid report stays valid. */
  lemma ReconciledStaysValid(report: Report, declared: seq<string>, evidence: seq<Evidence>)
    requires Valid(report, declared, evidence)
    ensures Valid(Reconciled(report, declared, evidence), declared, evidence)
    ensures Reconciled(report, declared, evidence).title == report.title
  {
    var dropped := Uncited(evidence, SectionRefs(report.sections));
    var added := Take(dropped, MAX_ADDED);
    hide Mentions, SectionRefs, Uncited, AddTo;
    AddingCites(report.sections, LIMITATIONS, Mentions(added));
    AddingKeepsIds(report.sections, LIMITATIONS, Mentions(added));
    MentionsCite(added);
    UncitedAreEvents(evidence, SectionRefs(report.sections));
    forall ref | ref in Ids(added) ensures ref in Ids(evidence) {
      var i :| 0 <= i < |added| && added[i].id == ref;
      assert added[i] in dropped;
      var j :| 0 <= j < |evidence| && evidence[j] == added[i];
      assert Ids(evidence)[j] == ref;
    }
  }

  // ----- what is left out afterwards ----------------------------------------

  /** Leaving out what more references cite is filtering what fewer left out. */
  lemma {:induction false} CitingMoreFilters(evidence: seq<Evidence>, refs: seq<string>, more: seq<string>,
                                             all: seq<string>)
    requires forall ref :: ref in all <==> ref in refs || ref in more
    ensures Uncited(evidence, all) == Uncited(Uncited(evidence, refs), more)
  {
    if evidence != [] {
      var k := |evidence| - 1;
      CitingMoreFilters(evidence[..k], refs, more, all);
      var before := Uncited(evidence[..k], refs);
      if evidence[k].isEvent && evidence[k].id !in refs {
        assert (before + [evidence[k]])[..|before|] == before;
      } else {
        assert Uncited(evidence, refs) == before;
      }
    }
  }

  lemma {:induction false} UncitedStayDistinct(evidence: seq<Evidence>, refs: seq<string>)
    requires Distinct(Ids(evidence))
    ensures Distinct(Ids(Uncited(evidence, refs)))
    ensures forall id | id in Ids(Uncited(evidence, refs)) :: id in Ids(evidence)
  {
    if evidence != [] {
      var k := |evidence| - 1;
      var earlier := Ids(evidence[..k]);
      assert Ids(evidence) == earlier + [evidence[k].id];
      assert evidence[k].id !in earlier by {
        forall i | 0 <= i < k ensures earlier[i] != evidence[k].id { assert Ids(evidence)[i] != Ids(evidence)[k]; }
      }
      assert forall i, j | 0 <= i < j < k :: earlier[i] == Ids(evidence)[i] && earlier[j] == Ids(evidence)[j];
      UncitedStayDistinct(evidence[..k], refs);
      var before := Uncited(evidence[..k], refs);
      var last := if evidence[k].isEvent && evidence[k].id !in refs then [evidence[k]] else [];
      assert Uncited(evidence, refs) == before + last;
      assert Ids(before + last) == Ids(before) + Ids(last);
    }
  }

  lemma {:induction false} CitingTheFirst(events: seq<Evidence>, n: nat)
    requires n <= |events| && Distinct(Ids(events)) && forall e | e in events :: e.isEvent
    ensures Uncited(events, Ids(events[..n])) == events[n..]
  {
    if events != [] {
      var k := |events| - 1;
      assert Ids(events[..k]) == Ids(events)[..k];
      if n == |events| {
        assert events[..n] == events;
        forall e | e in events ensures e.id in Ids(events) {
          var i :| 0 <= i < |events| && events[i] == e;
          assert Ids(events)[i] == e.id;
        }
        AllCited(events, Ids(events));
      } else {
        CitingTheFirst(events[..k], n);
        assert events[..k][..n] == events[..n];
        forall i | 0 <= i < n ensures Ids(events[..n])[i] != events[k].id {
          assert Ids(events)[i] != Ids(events)[k];
        }
      }
    }
  }

  lemma {:induction false} AllCited(events: seq<Evidence>, refs: seq<string>)
    requires forall e | e in events :: e.id in refs
    ensures Uncited(events, refs) == []
  {
    if events != [] { AllCited(events[..|events| - 1], refs); }
  }

  /** One application cites exactly the first twenty events left out, and no others. */
  lemma ReconcilingCitesTheFirst(report: Report, declared: seq<string>, evidence: seq<Evidence>)
    requires Distinct(Ids(evidence)) && LIMITATIONS in declared
    ensures var dropped := Uncited(evidence, SectionRefs(report.sections));
            var n := if |dropped| <= MAX_ADDED then |dropped| else MAX_ADDED;
            Uncited(evidence, SectionRefs(Reconciled(report, declared, evidence).sections)) == dropped[n..]
  {
    var refs := SectionRefs(report.sections);
    var dropped := Uncited(evidence, refs);
    hide Uncited, SectionRefs, AddTo, Ids, Mentions;
    if dropped != [] {
      var added := Take(dropped, MAX_ADDED);
      var n := |added|;
      assert added == dropped[..n];
      AddingCites(report.sections, LIMITATIONS, Mentions(added));
      MentionsCite(added);
      CitingMoreFilters(evidence, refs, Ids(added), SectionRefs(Reconciled(report, declared, evidence).sections));
      UncitedStayDistinct(evidence, refs);
      UncitedAreEvents(evidence, refs);
      CitingTheFirst(dropped, n);
    }
  }

  function Repeatedly(report: Report, declared: seq<string>, evidence: seq<Evidence>, k: nat): Report
  {
    if k == 0 then report else Reconciled(Repeatedly(report, declared, evidence, k - 1), declared, evidence)
  }

  /** So no event is ever lost: k applications leave what comes after the first 20k. */
  lemma {:induction false} RepetitionsCiteThemAll(report: Report, declared: seq<string>, evidence: seq<Evidence>,
                                                  k: nat)
    requires Distinct(Ids(evidence)) && LIMITATIONS in declared
    ensures var dropped := Uncited(evidence, SectionRefs(report.sections));
            var n := if |dropped| <= MAX_ADDED * k then |dropped| else MAX_ADDED * k;
            Uncited(evidence, SectionRefs(Repeatedly(report, declared, evidence, k).sections)) == dropped[n..]
  {
    hide Uncited, SectionRefs, Reconciled;
    if k > 0 {
      RepetitionsCiteThemAll(report, declared, evidence, k - 1);
      ReconcilingCitesTheFirst(Repeatedly(report, declared, evidence, k - 1), declared, evidence);
    }
  }

  /** Once nothing is left out, or where the template declares no limitations, nothing changes. */
  lemma ReconciledIsSettled(report: Report, declared: seq<string>, evidence: seq<Evidence>)
    ensures Reconciled(report, declared, evidence) == report
            <==> LIMITATIONS !in declared
                 || forall e | e in evidence && e.isEvent :: e.id in SectionRefs(report.sections)
  {
    var dropped := Uncited(evidence, SectionRefs(report.sections));
    UncitedAreEvents(evidence, SectionRefs(report.sections));
    if LIMITATIONS in declared && dropped != [] {
      assert dropped[0] in dropped;
      AddingChanges(report.sections, LIMITATIONS, Mentions(Take(dropped, MAX_ADDED)));
    }
  }

  lemma {:induction false} AddingChanges(sections: seq<Section>, id: string, items: seq<Item>)
    requires items != []
    ensures AddTo(sections, id, items) != sections
  {
    if sections != [] && sections[0].id != id {
      AddingChanges(sections[1..], id, items);
      assert AddTo(sections, id, items)[1..] == AddTo(sections[1..], id, items);
    } else if sections != [] {
      assert AddTo(sections, id, items)[0].items == sections[0].items + items;
      assert |sections[0].items + items| > |sections[0].items|;
    }
  }

  // ----- what is added ------------------------------------------------------

  /** Section i is the first with this id. */
  predicate IsFirst(sections: seq<Section>, id: string, i: nat)
  {
    i < |sections| && sections[i].id == id && forall j | 0 <= j < i :: sections[j].id != id
  }

  /** The first section with this id goes on with these items; without one, it comes last. */
  ghost predicate Extended(before: seq<Section>, id: string, items: seq<Item>, after: seq<Section>)
  {
    && ((forall s | s in before :: s.id != id) ==> after == before + [Section(id, None, items)])
    && (forall i | 0 <= i < |before| && IsFirst(before, id, i) ::
          after == before[i := Section(id, before[i].body, before[i].items + items)])
  }

  lemma {:induction false} AddedToTheFirst(sections: seq<Section>, id: string, items: seq<Item>)
    ensures Extended(sections, id, items, AddTo(sections, id, items))
  {
    if sections != [] && sections[0].id != id {
      var rest := sections[1..];
      AddedToTheFirst(rest, id, items);
      assert sections == [sections[0]] + rest;
      forall i | 0 <= i < |sections| && IsFirst(sections, id, i)
        ensures AddTo(sections, id, items) == sections[i := Section(id, sections[i].body, sections[i].items + items)]
      {
        assert forall j | 0 <= j < |rest| :: rest[j] == sections[j + 1];
        assert IsFirst(rest, id, i - 1);
      }
    }
  }

  /** How an event that was left out is mentioned: tagged, cited, and cut at 2000 characters. */
  predicate MentionedAs(e: Evidence, item: Item)
  {
    var text := "보고서 본문에 실리지 않은 관측 이벤트: " + e.content;
    && item.tag == Some("미반영 이벤트") && item.evidenceRefs == [e.id] && item.counterRefs == []
    && |item.text| == (if |text| < 2000 then |text| else 2000) && item.text <= text
  }

  /** The first twenty events left out are mentioned, in order, at the end of the limitations. */
  lemma LeftOutEventsAreMentioned(report: Report, declared: seq<string>, evidence: seq<Evidence>)
    returns (items: seq<Item>)
    requires LIMITATIONS in declared
    ensures var dropped := Uncited(evidence, SectionRefs(report.sections));
            && |items| == (if |dropped| < 20 then |dropped| else 20)
            && (forall n | 0 <= n < |items| :: MentionedAs(dropped[n], items[n]))
            && (dropped != [] ==>
                  Extended(report.sections, "limitations", items, Reconciled(report, declared, evidence).sections))
  {
    var dropped := Uncited(evidence, SectionRefs(report.sections));
    items := Mentions(Take(dropped, MAX_ADDED));
    AddedToTheFirst(report.sections, LIMITATIONS, items);
    hide Extended, AddTo, Uncited, SectionRefs;
  }

  // ----- the loops ----------------------------------------------------------

  method CitedBy(report: Report) returns (cited: set<string>)
    ensures forall ref :: ref in cited <==> ref in SectionRefs(report.sections)
  {
    cited := {};
    var sections := report.sections;
    assert sections[..0] == [];
    for i := 0 to |sections|
      invariant forall ref :: ref in cited <==> ref in SectionRefs(sections[..i])
    {
      assert sections[..i + 1][..i] == sections[..i];
      var items := sections[i].items;
      assert items[..0] == [];
      for k := 0 to |items|
        invariant forall ref :: ref in cited <==> ref in SectionRefs(sections[..i]) || ref in ItemRefs(items[..k])
      {
        hide SectionRefs;
        assert items[..k + 1][..k] == items[..k];
        var refs := items[k].evidenceRefs + items[k].counterRefs;
        assert ItemRefs(items[..k + 1]) == ItemRefs(items[..k]) + refs;
        cited := cited + (set ref | ref in refs);
      }
      assert items[..|items|] == items;
    }
    assert sections[..|sections|] == sections;
  }

  datatype Objection = RepeatedId | UndeclaredSection | UnknownCitation

  /** What is wrong with a draft, the first of three: an id twice, a section nobody declared, a citation of nothing. */
  method ValidateReport(report: Report, declared: seq<string>, evidence: seq<Evidence>)
    returns (wrong: Option<Objection>)
    ensures wrong.None? <==> Valid(report, declared, evidence)
    ensures wrong == Some(RepeatedId)
            <==> exists i, j | 0 <= i < j < |report.sections| :: report.sections[i].id == report.sections[j].id
    ensures wrong == Some(UndeclaredSection)
            <==> wrong != Some(RepeatedId) && exists s | s in report.sections :: s.id !in declared
    ensures wrong == Some(UnknownCitation) ==>
              exists ref :: ref in SectionRefs(report.sections) && forall e | e in evidence :: e.id != ref
    ensures wrong.None? ==>
              forall ref | ref in SectionRefs(report.sections) :: exists e | e in evidence :: e.id == ref
  {
    var ids := SectionIds(report.sections);
    var seen: set<string> := {};
    for k := 0 to |ids|
      invariant forall id :: id in seen <==> exists i | 0 <= i < k :: ids[i] == id
      invariant forall i, j | 0 <= i < j < k :: ids[i] != ids[j]
    {
      if ids[k] in seen {
        var i :| 0 <= i < k && ids[i] == ids[k];
        assert report.sections[i].id == report.sections[k].id;
        return Some(RepeatedId);
      }
      seen := seen + {ids[k]};
    }
    forall i, j | 0 <= i < j < |report.sections| ensures report.sections[i].id != report.sections[j].id {
      assert ids[i] != ids[j];
    }
    if exists id :: id in ids && id !in declared {
      var i :| 0 <= i < |ids| && ids[i] !in declared;
      assert report.sections[i] in report.sections;
      return Some(UndeclaredSection);
    }
    forall s | s in report.sections ensures s.id in declared {
      var i :| 0 <= i < |report.sections| && report.sections[i] == s;
      assert ids[i] == s.id;
    }
    var cited := CitedBy(report);
    forall ref ensures ref in Ids(evidence) <==> exists e | e in evidence :: e.id == ref { HeldMeans(evidence, ref); }
    if exists ref :: ref in cited && ref !in Ids(evidence) {
      return Some(UnknownCitation);
    }
    wrong := None;
  }

  lemma HeldMeans(evidence: seq<Evidence>, ref: string)
    ensures ref in Ids(evidence) <==> exists e | e in evidence :: e.id == ref
  {
    if ref in Ids(evidence) {
      var i :| 0 <= i < |Ids(evidence)| && Ids(evidence)[i] == ref;
      assert evidence[i] in evidence;
    }
    if e :| e in evidence && e.id == ref {
      var i :| 0 <= i < |evidence| && evidence[i] == e;
      assert Ids(evidence)[i] == ref;
    }
  }

  method DroppedEvents(evidence: seq<Evidence>, cited: set<string>, ghost refs: seq<string>)
    returns (dropped: seq<Evidence>)
    requires forall ref :: ref in cited <==> ref in refs
    ensures dropped == Uncited(evidence, refs)
  {
    dropped := [];
    assert evidence[..0] == [];
    for i := 0 to |evidence|
      invariant dropped == Uncited(evidence[..i], refs)
    {
      assert evidence[..i + 1][..i] == evidence[..i];
      if evidence[i].isEvent && evidence[i].id !in cited { dropped := dropped + [evidence[i]]; }
    }
    assert evidence[..|evidence|] == evidence;
  }

  lemma {:induction false} AddsAt(sections: seq<Section>, id: string, items: seq<Item>, index: nat)
    requires index <= |sections| && forall i | 0 <= i < index :: sections[i].id != id
    ensures index == |sections| ==> AddTo(sections, id, items) == sections + [Section(id, None, items)]
    ensures index < |sections| && sections[index].id == id ==>
              AddTo(sections, id, items) == sections[index := sections[index].(items := sections[index].items + items)]
  {
    if sections != [] && index > 0 {
      AddsAt(sections[1..], id, items, index - 1);
      assert sections == [sections[0]] + sections[1..];
    }
  }

  method ReconcileEvidence(report: Report, declared: seq<string>, evidence: seq<Evidence>) returns (r: Report)
    ensures r == Reconciled(report, declared, evidence)
  {
    hide Uncited, SectionRefs, Mentions, AddTo;
    var cited := CitedBy(report);
    var dropped := DroppedEvents(evidence, cited, SectionRefs(report.sections));
    if dropped == [] { return report; }
    if LIMITATIONS !in declared { return report; }
    var items := Mentions(Take(dropped, MAX_ADDED));
    var sections := report.sections;
    var index := 0;
    while index < |sections| && sections[index].id != LIMITATIONS
      invariant index <= |sections| && forall i | 0 <= i < index :: sections[i].id != LIMITATIONS
    {
      index := index + 1;
    }
    AddsAt(sections, LIMITATIONS, items, index);
    if index < |sections| {
      sections := sections[index := sections[index].(items := sections[index].items + items)];
    } else {
      sections := sections + [Section(LIMITATIONS, None, items)];
    }
    r := report.(sections := sections);
  }

  // ----- the citation check -------------------------------------------------

  datatype Finding = Finding(sectionId: string, field: string, ref: string)

  function RefFindings(sectionId: string, field: string, refs: seq<string>, known: seq<string>): seq<Finding>
  {
    if refs == [] then []
    else
      var k := |refs| - 1;
      RefFindings(sectionId, field, refs[..k], known)
      + (if refs[k] in known then [] else [Finding(sectionId, field, refs[k])])
  }

  function ItemFindings(sectionId: string, items: seq<Item>, known: seq<string>): seq<Finding>
  {
    if items == [] then []
    else
      var k := |items| - 1;
      ItemFindings(sectionId, items[..k], known)
      + RefFindings(sectionId, "evidence_refs", items[k].evidenceRefs, known)
      + RefFindings(sectionId, "counter_evidence_refs", items[k].counterRefs, known)
  }

  /** evidence_refs_resolve: a finding for every citation of evidence the package does not hold. */
  function Findings(sections: seq<Section>, known: seq<string>): seq<Finding>
  {
    if sections == [] then []
    else
      var k := |sections| - 1;
      Findings(sections[..k], known) + ItemFindings(sections[k].id, sections[k].items, known)
  }

  predicate AllIn(refs: seq<string>, known: seq<string>) { forall ref | ref in refs :: ref in known }

  lemma {:induction false} RefsResolve(sectionId: string, field: string, refs: seq<string>, known: seq<string>)
    ensures RefFindings(sectionId, field, refs, known) == [] <==> AllIn(refs, known)
  {
    if refs != [] {
      var k := |refs| - 1;
      RefsResolve(sectionId, field, refs[..k], known);
      assert forall ref :: ref in refs <==> ref in refs[..k] || ref == refs[k];
    }
  }

  lemma {:induction false} ItemsResolve(sectionId: string, items: seq<Item>, known: seq<string>)
    ensures ItemFindings(sectionId, items, known) == [] <==> AllIn(ItemRefs(items), known)
  {
    if items != [] {
      var k := |items| - 1;
      ItemsResolve(sectionId, items[..k], known);
      RefsResolve(sectionId, "evidence_refs", items[k].evidenceRefs, known);
      RefsResolve(sectionId, "counter_evidence_refs", items[k].counterRefs, known);
    }
  }

  /** The check finds nothing exactly when every citation names held evidence. */
  lemma {:induction false} NoFindingsExactly(sections: seq<Section>, known: seq<string>)
    ensures Findings(sections, known) == [] <==> AllIn(SectionRefs(sections), known)
  {
    if sections != [] {
      var k := |sections| - 1;
      NoFindingsExactly(sections[..k], known);
      ItemsResolve(sections[k].id, sections[k].items, known);
    }
  }

  /** A report that passes its validation has no finding after it is reconciled either. */
  lemma ReconciledHasNoFindings(report: Report, declared: seq<string>, evidence: seq<Evidence>)
    requires Valid(report, declared, evidence)
    ensures Findings(Reconciled(report, declared, evidence).sections, Ids(evidence)) == []
  {
    ReconciledStaysValid(report, declared, evidence);
    NoFindingsExactly(Reconciled(report, declared, evidence).sections, Ids(evidence));
  }

  method EvidenceRefsResolve(report: Report, evidence: seq<Evidence>) returns (findings: seq<Finding>)
    ensures findings == Findings(report.sections, Ids(evidence))
  {
    var known := Ids(evidence);
    var sections := report.sections;
    findings := [];
    assert sections[..0] == [];
    for i := 0 to |sections|
      invariant findings == Findings(sections[..i], known)
    {
      hide ItemFindings, Ids;
      assert sections[..i + 1][..i] == sections[..i];
      var more := CheckItems(sections[i].id, sections[i].items, known);
      findings := findings + more;
    }
    assert sections[..|sections|] == sections;
  }

  method CheckItems(sectionId: string, items: seq<Item>, known: seq<string>) returns (findings: seq<Finding>)
    ensures findings == ItemFindings(sectionId, items, known)
  {
    findings := [];
    assert items[..0] == [];
    for k := 0 to |items|
      invariant findings == ItemFindings(sectionId, items[..k], known)
    {
      hide RefFindings;
      assert items[..k + 1][..k] == items[..k];
      var support := CheckRefs(sectionId, "evidence_refs", items[k].evidenceRefs, known);
      var against := CheckRefs(sectionId, "counter_evidence_refs", items[k].counterRefs, known);
      findings := findings + support + against;
    }
    assert items[..|items|] == items;
  }

  method CheckRefs(sectionId: string, field: string, refs: seq<string>, known: seq<string>)
    returns (findings: seq<Finding>)
    ensures findings == RefFindings(sectionId, field, refs, known)
  {
    findings := [];
    assert refs[..0] == [];
    for k := 0 to |refs|
      invariant findings == RefFindings(sectionId, field, refs[..k], known)
    {
      assert refs[..k + 1][..k] == refs[..k];
      if refs[k] in known { continue; }
      findings := findings + [Finding(sectionId, field, refs[k])];
    }
    assert refs[..|refs|] == refs;
  }
}
