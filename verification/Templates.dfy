/**
 The report-template registry: a live table, the history of every version a template
 has had, and the directory sync that makes the files the truth about both.
 */
module Templates {
  import opened Wrappers

  type TemplateId = string

  /** enabled, title, description, collection and output, compared as one value. */
  datatype Body = Body(enabled: bool, title: string, description: string, collection: string, output: string)

  datatype LiveRow = LiveRow(version: nat, body: Body)

  datatype VersionRow = VersionRow(id: TemplateId, version: nat, body: Body)

  datatype Store = Store(live: map<TemplateId, LiveRow>, history: seq<VersionRow>)

  datatype Saved = Saved(version: nat, changed: bool, created: bool)

  // ----- the two statements -------------------------------------------------

  /** max(version) over the history of one id, zero when there is none. */
  function MaxVersion(history: seq<VersionRow>, id: TemplateId): nat
  {
    if history == [] then 0
    else
      var last := history[|history| - 1];
      var before := MaxVersion(history[..|history| - 1], id);
      if last.id == id && last.version > before then last.version else before
  }

  predicate Recorded(history: seq<VersionRow>, id: TemplateId, version: nat)
  {
    exists i | 0 <= i < |history| :: history[i].id == id && history[i].version == version
  }

  function NextVersion(s: Store, id: TemplateId): nat
  {
    if id in s.live then s.live[id].version + 1 else MaxVersion(s.history, id) + 1
  }

  /** The insert leaves a version alone that is already on record. */
  function Record(history: seq<VersionRow>, row: VersionRow): seq<VersionRow>
  {
    if Recorded(history, row.id, row.version) then history else history + [row]
  }

  function Unchanged(s: Store, id: TemplateId, body: Body): bool
  {
    id in s.live && s.live[id].body == body
  }

  function Save(s: Store, id: TemplateId, body: Body): Store
  {
    if Unchanged(s, id, body) then s
    else
      var version := NextVersion(s, id);
      Store(s.live[id := LiveRow(version, body)], Record(s.history, VersionRow(id, version, body)))
  }

  function Delete(s: Store, id: TemplateId): Store { s.(live := s.live - {id}) }

  // ----- what the history promises ------------------------------------------

  /** The versions of one id, in the order they were recorded. */
  function VersionsOf(history: seq<VersionRow>, id: TemplateId): seq<VersionRow>
  {
    if history == [] then []
    else
      var k := |history| - 1;
      VersionsOf(history[..k], id) + (if history[k].id == id then [history[k]] else [])
  }

  /** The versions of an id are 1, 2, ..., n, and a live row is the last of its own. */
  ghost predicate Consistent(s: Store)
  {
    && (forall id, i | 0 <= i < |VersionsOf(s.history, id)| :: VersionsOf(s.history, id)[i].version == i + 1)
    && (forall id | id in s.live :: LiveIsLatest(s, id))
  }

  ghost predicate LiveIsLatest(s: Store, id: TemplateId)
    requires id in s.live
  {
    var versions := VersionsOf(s.history, id);
    versions != [] && versions[|versions| - 1] == VersionRow(id, s.live[id].version, s.live[id].body)
  }

  lemma {:induction false} MaxIsLast(history: seq<VersionRow>, id: TemplateId)
    requires forall i | 0 <= i < |VersionsOf(history, id)| :: VersionsOf(history, id)[i].version == i + 1
    ensures MaxVersion(history, id) == |VersionsOf(history, id)|
    ensures forall i | 0 <= i < |history| && history[i].id == id :: 1 <= history[i].version <= |VersionsOf(history, id)|
  {
    if history != [] {
      var k := |history| - 1;
      var before := VersionsOf(history[..k], id);
      assert forall i | 0 <= i < |before| :: before[i] == VersionsOf(history, id)[i];
      MaxIsLast(history[..k], id);
      if history[k].id == id {
        assert VersionsOf(history, id)[|before|] == history[k];
      }
      forall i | 0 <= i < |history| && history[i].id == id
        ensures 1 <= history[i].version <= |VersionsOf(history, id)|
      {
        if i < k { assert history[..k][i] == history[i]; }
      }
    }
  }

  /** The conflict clause never fires: a changed template always gets a version of its own. */
  lemma SaveRecordsANewVersion(s: Store, id: TemplateId, body: Body)
    requires Consistent(s) && !Unchanged(s, id, body)
    ensures var version := |VersionsOf(s.history, id)| + 1;
            && !Recorded(s.history, id, version)
            && Save(s, id, body) == Store(s.live[id := LiveRow(version, body)],
                                          s.history + [VersionRow(id, version, body)])
  {
    MaxIsLast(s.history, id);
    if id in s.live { assert LiveIsLatest(s, id); }
  }

  lemma RecordedLast(history: seq<VersionRow>, row: VersionRow, id: TemplateId)
    ensures VersionsOf(history + [row], id) == VersionsOf(history, id) + (if row.id == id then [row] else [])
  {
    assert (history + [row])[..|history|] == history;
  }

  lemma SaveKeepsConsistent(s: Store, id: TemplateId, body: Body)
    requires Consistent(s)
    ensures Consistent(Save(s, id, body))
    ensures s.history <= Save(s, id, body).history
  {
    if !Unchanged(s, id, body) {
      SaveRecordsANewVersion(s, id, body);
      var s' := Save(s, id, body);
      hide VersionsOf, Save, Recorded, Unchanged;
      forall other ensures VersionsOf(s'.history, other) == VersionsOf(s.history, other)
          + (if other == id then [s'.history[|s.history|]] else [])
      {
        RecordedLast(s.history, s'.history[|s.history|], other);
      }
      forall other | other in s'.live ensures LiveIsLatest(s', other) {
        if other != id { assert LiveIsLatest(s, other); }
      }
    }
  }

  lemma DeleteKeepsConsistent(s: Store, id: TemplateId)
    requires Consistent(s)
    ensures Consistent(Delete(s, id)) && Delete(s, id).history == s.history
  {
    forall other | other in Delete(s, id).live ensures LiveIsLatest(Delete(s, id), other) {
      assert LiveIsLatest(s, other);
    }
  }

  datatype Write = SaveWrite(id: TemplateId, body: Body) | DeleteWrite(id: TemplateId)

  function Apply(s: Store, w: Write): Store
  {
    match w
    case SaveWrite(id, body) => Save(s, id, body)
    case DeleteWrite(id) => Delete(s, id)
  }

  function ApplyAll(s: Store, writes: seq<Write>): Store
  {
    if writes == [] then s else Apply(ApplyAll(s, writes[..|writes| - 1]), writes[|writes| - 1])
  }

  const EMPTY := Store(map[], [])

  /** One content for each (id, version), the versions 1..n, and the live row the latest of them. */
  lemma {:induction false} HistoryIsExact(writes: seq<Write>)
    ensures Consistent(ApplyAll(EMPTY, writes))
  {
    if writes != [] {
      var k := |writes| - 1;
      HistoryIsExact(writes[..k]);
      match writes[k]
      case SaveWrite(id, body) => SaveKeepsConsistent(ApplyAll(EMPTY, writes[..k]), id, body);
      case DeleteWrite(id) => DeleteKeepsConsistent(ApplyAll(EMPTY, writes[..k]), id);
    }
  }

  lemma {:induction false} RecordedOnce(history: seq<VersionRow>, i: nat, j: nat)
    requires i < j < |history| && history[i].id == history[j].id
    requires forall k | 0 <= k < |VersionsOf(history, history[i].id)| ::
               VersionsOf(history, history[i].id)[k].version == k + 1
    ensures history[i].version < history[j].version
  {
    var id := history[i].id;
    var last := |history| - 1;
    var before := VersionsOf(history[..last], id);
    assert forall k | 0 <= k < |before| :: before[k] == VersionsOf(history, id)[k];
    if j < last {
      assert history[..last][i] == history[i] && history[..last][j] == history[j];
      RecordedOnce(history[..last], i, j);
    } else {
      MaxIsLast(history[..last], id);
      assert history[..last][i] == history[i];
      assert VersionsOf(history, id)[|before|] == history[j];
    }
  }

  /** A recorded version keeps its content forever, deletions and re-creations included. */
  lemma {:induction false} OneContentPerVersion(writes: seq<Write>, i: nat, j: nat)
    requires i < |ApplyAll(EMPTY, writes).history| && j < |ApplyAll(EMPTY, writes).history|
    requires ApplyAll(EMPTY, writes).history[i].id == ApplyAll(EMPTY, writes).history[j].id
    requires ApplyAll(EMPTY, writes).history[i].version == ApplyAll(EMPTY, writes).history[j].version
    ensures i == j
  {
    HistoryIsExact(writes);
    var history := ApplyAll(EMPTY, writes).history;
    if i < j { RecordedOnce(history, i, j); }
    if j < i { RecordedOnce(history, j, i); }
  }

  // ----- the registry -------------------------------------------------------

  class Registry {
    var live: map<TemplateId, LiveRow>
    var history: seq<VersionRow>

    ghost function Contents(): Store
      reads this
    {
      Store(live, history)
    }

    constructor ()
      ensures Contents() == EMPTY
    {
      live, history := map[], [];
    }

    method SaveTemplate(id: TemplateId, body: Body) returns (saved: Saved)
      modifies this
      ensures Contents() == Save(old(Contents()), id, body)
      ensures saved.changed <==> !Unchanged(old(Contents()), id, body)
      ensures saved.created <==> id !in old(live)
      ensures id in live && saved.version == live[id].version && live[id].body == body
      ensures forall other | other != id ::
                (other in live <==> other in old(live)) && (other in live ==> live[other] == old(live)[other])
      ensures !saved.changed ==> Contents() == old(Contents())
      ensures saved.changed && old(Consistent(Contents())) ==>
                history == old(history) + [VersionRow(id, saved.version, body)]
      ensures old(Consistent(Contents())) ==> Consistent(Contents())
    {
      ghost var before := Contents();
      if id in live && live[id].body == body {
        return Saved(live[id].version, false, false);
      }
      var created := id !in live;
      var version := if created then MaxVersion(history, id) + 1 else live[id].version + 1;
      live := live[id := LiveRow(version, body)];
      if !Recorded(history, id, version) { history := history + [VersionRow(id, version, body)]; }
      saved := Saved(version, true, created);
      if Consistent(before) {
        SaveRecordsANewVersion(before, id, body);
        SaveKeepsConsistent(before, id, body);
      }
    }

    method DeleteTemplate(id: TemplateId) returns (found: bool)
      modifies this
      ensures Contents() == Delete(old(Contents()), id)
      ensures found <==> id in old(live)
      ensures old(Consistent(Contents())) ==> Consistent(Contents())
    {
      ghost var before := Contents();
      found := id in live;
      live := live - {id};
      if Consistent(before) { DeleteKeepsConsistent(before, id); }
    }
  }
}
