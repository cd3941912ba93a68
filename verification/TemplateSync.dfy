/**
 Template files, the stored templates, and the synchronisation that makes them agree.
 */
module TemplateSync {
  import opened Wrappers
  import opened Templates

  datatype File = File(id: TemplateId, body: Body)

  /** A .json file as it was read: its parsed template, or nothing if it was malformed. */
  datatype Entry = Entry(name: string, parsed: Option<File>)

  datatype SyncResult = SyncResult(
    created: seq<TemplateId>,
    updated: seq<TemplateId>,
    kept: seq<TemplateId>,
    removed: seq<TemplateId>,
    skippedRemoval: bool)

  predicate UniqueIds(files: seq<File>)
  {
    forall i, j | 0 <= i < j < |files| :: files[i].id != files[j].id
  }

  function FileIds(files: seq<File>): set<TemplateId>
  {
    set i | 0 <= i < |files| :: files[i].id
  }

  // ----- what a sync leaves behind ------------------------------------------

  function SaveFiles(s: Store, files: seq<File>): Store
  {
    if files == [] then s
    else
      var k := |files| - 1;
      Save(SaveFiles(s, files[..k]), files[k].id, files[k].body)
  }

  function Sync(s: Store, files: seq<File>): Store
  {
    if files == [] then s
    else
      var saved := SaveFiles(s, files);
      saved.(live := map id | id in saved.live && id in FileIds(files) :: saved.live[id])
  }

  datatype Fate = Created | Updated | Kept

  function FateOf(before: Store, file: File): Fate
  {
    if file.id !in before.live then Created
    else if before.live[file.id].body != file.body then Updated
    else Kept
  }

  /** The ids of the files with one fate, in file order. */
  function WithFate(before: Store, files: seq<File>, fate: Fate): seq<TemplateId>
  {
    if files == [] then []
    else
      var k := |files| - 1;
      WithFate(before, files[..k], fate) + (if FateOf(before, files[k]) == fate then [files[k].id] else [])
  }

  lemma {:induction false} SavedFilesAreLive(s: Store, files: seq<File>)
    requires UniqueIds(files)
    ensures forall i | 0 <= i < |files| ::
              files[i].id in SaveFiles(s, files).live && SaveFiles(s, files).live[files[i].id].body == files[i].body
    ensures SaveFiles(s, files).live.Keys == s.live.Keys + FileIds(files)
    ensures forall id | id in s.live && id !in FileIds(files) ::
              id in SaveFiles(s, files).live && SaveFiles(s, files).live[id] == s.live[id]
  {
    if files == [] {
      assert FileIds(files) == {};
    } else {
      var k := |files| - 1;
      SavedFilesAreLive(s, files[..k]);
      IdsOneMore(files);
      SaveTouchesOneRow(SaveFiles(s, files[..k]), files[k].id, files[k].body);
      hide FileIds, Save;
      forall i | 0 <= i < |files|
        ensures files[i].id in SaveFiles(s, files).live && SaveFiles(s, files).live[files[i].id].body == files[i].body
      {
        if i < k { assert files[..k][i] == files[i]; }
      }
    }
  }

  lemma IdsOneMore(files: seq<File>)
    requires files != []
    ensures FileIds(files) == FileIds(files[..|files| - 1]) + {files[|files| - 1].id}
  {
    assert forall i | 0 <= i < |files| - 1 :: files[..|files| - 1][i] == files[i];
  }

  lemma SaveTouchesOneRow(s: Store, id: TemplateId, body: Body)
    ensures var live := Save(s, id, body).live;
            && live.Keys == s.live.Keys + {id}
            && live[id].body == body
            && (forall other | other in s.live && other != id :: live[other] == s.live[other])
  {
  }

  /** After a sync over some files, the live templates are the files. */
  lemma SyncMakesFilesTheTruth(s: Store, files: seq<File>)
    requires files != [] && UniqueIds(files)
    ensures Sync(s, files).live.Keys == FileIds(files)
    ensures forall f | f in files :: f.id in Sync(s, files).live && Sync(s, files).live[f.id].body == f.body
  {
    SavedFilesAreLive(s, files);
    forall f | f in files ensures f.id in Sync(s, files).live && Sync(s, files).live[f.id].body == f.body {
      var i :| 0 <= i < |files| && files[i] == f;
      assert files[i].id in FileIds(files);
    }
  }

  lemma {:induction false} SavingAgainChangesNothing(s: Store, files: seq<File>)
    requires forall i | 0 <= i < |files| :: files[i].id in s.live && s.live[files[i].id].body == files[i].body
    ensures SaveFiles(s, files) == s
    ensures WithFate(s, files, Created) == [] && WithFate(s, files, Updated) == []
    ensures |WithFate(s, files, Kept)| == |files|
  {
    if files != [] {
      var k := |files| - 1;
      assert forall i | 0 <= i < k :: files[..k][i] == files[i];
      SavingAgainChangesNothing(s, files[..k]);
    }
  }

  /** A second sync of the same files changes nothing: no version, no row, no history. */
  lemma SecondSyncChangesNothing(s: Store, files: seq<File>)
    requires UniqueIds(files)
    ensures Sync(Sync(s, files), files) == Sync(s, files)
    ensures files != [] ==>
              WithFate(Sync(s, files), files, Created) == [] && WithFate(Sync(s, files), files, Updated) == []
  {
    if files != [] {
      var once := Sync(s, files);
      SyncMakesFilesTheTruth(s, files);
      forall i | 0 <= i < |files| ensures files[i].id in once.live && once.live[files[i].id].body == files[i].body {
        assert files[i] in files;
      }
      SavingAgainChangesNothing(once, files);
      assert Sync(once, files).live == once.live;
    }
  }

  /** A sync is a series of saves and deletes, so the history stays exact through it. */
  lemma {:induction false} SaveFilesKeepsConsistent(s: Store, files: seq<File>)
    requires Consistent(s)
    ensures Consistent(SaveFiles(s, files)) && s.history <= SaveFiles(s, files).history
  {
    if files != [] {
      var k := |files| - 1;
      SaveFilesKeepsConsistent(s, files[..k]);
      SaveKeepsConsistent(SaveFiles(s, files[..k]), files[k].id, files[k].body);
    }
  }

  /** Which list each file goes to: the first save of an id decides, and ids are distinct. */
  lemma FateSurvivesEarlierSaves(s: Store, files: seq<File>, k: nat)
    requires k < |files| && UniqueIds(files)
    ensures FateOf(SaveFiles(s, files[..k]), files[k]) == FateOf(s, files[k])
  {
    SavedFilesAreLive(s, files[..k]);
    assert files[k].id !in FileIds(files[..k]);
  }

  /** Each file goes to one list ... */
  lemma {:induction false} FatesCount(s: Store, files: seq<File>)
    ensures |WithFate(s, files, Created)| + |WithFate(s, files, Updated)| + |WithFate(s, files, Kept)| == |files|
  {
    if files != [] { FatesCount(s, files[..|files| - 1]); }
  }

  /** ... the list of its fate, and no list holds anything else. */
  lemma {:induction false} FatesSort(s: Store, files: seq<File>, fate: Fate, id: TemplateId)
    ensures id in WithFate(s, files, fate) <==>
              exists i | 0 <= i < |files| :: files[i].id == id && FateOf(s, files[i]) == fate
  {
    if files != [] {
      var k := |files| - 1;
      FatesSort(s, files[..k], fate, id);
      hide FateOf;
      assert forall i | 0 <= i < k :: files[..k][i] == files[i];
      if i :| 0 <= i < |files| && files[i].id == id && FateOf(s, files[i]) == fate {
        if i < k { assert files[..k][i].id == id && FateOf(s, files[..k][i]) == fate; }
      }
    }
  }

  // ----- the loops ----------------------------------------------------------

  predicate Clash(entries: seq<Entry>)
  {
    exists i, j | 0 <= i < j < |entries| ::
      entries[i].parsed.Some? && entries[j].parsed.Some? && entries[i].parsed.value.id == entries[j].parsed.value.id
  }

  /**
   Nothing is written while reading; entries come in name order. One malformed file, or
   one id declared twice, refuses the whole directory.
   */
  method ReadTemplateFiles(entries: seq<Entry>) returns (r: Result<seq<File>>)
    ensures r.Success? <==> (forall e | e in entries :: e.parsed.Some?) && !Clash(entries)
    ensures r.Success? ==> |r.value| == |entries| && UniqueIds(r.value)
                           && forall i | 0 <= i < |entries| :: entries[i].parsed == Some(r.value[i])
  {
    var files: seq<File> := [];
    var seen: map<TemplateId, string> := map[];
    for k := 0 to |entries|
      invariant |files| == k && UniqueIds(files)
      invariant forall i | 0 <= i < k :: entries[i].parsed == Some(files[i])
      invariant forall id :: id in seen <==> exists i | 0 <= i < k :: files[i].id == id
    {
      if entries[k].parsed.None? {
        assert entries[k] in entries;
        return Failure(entries[k].name + " is not a valid template");
      }
      var file := entries[k].parsed.value;
      if file.id in seen {
        return Failure(entries[k].name + " and " + seen[file.id] + " both declare template_id " + file.id);
      }
      seen := seen[file.id := entries[k].name];
      files := files + [file];
    }
    r := Success(files);
  }

  method SyncTemplates(registry: Registry, files: seq<File>) returns (result: SyncResult)
    requires UniqueIds(files)
    modifies registry
    ensures registry.Contents() == Sync(old(registry.Contents()), files)
    ensures old(Consistent(registry.Contents())) ==> Consistent(registry.Contents())
    ensures result.created == WithFate(old(registry.Contents()), files, Created)
    ensures result.updated == WithFate(old(registry.Contents()), files, Updated)
    ensures result.kept == WithFate(old(registry.Contents()), files, Kept)
    ensures result.skippedRemoval <==> files == []
    ensures files == [] ==> result.removed == [] && registry.Contents() == old(registry.Contents())
    ensures files != [] ==> forall id :: id in result.removed <==> id in old(registry.live) && id !in FileIds(files)
    ensures Distinct(result.removed)
  {
    ghost var before := registry.Contents();
    result := SyncResult([], [], [], [], false);
    for k := 0 to |files|
      invariant registry.Contents() == SaveFiles(before, files[..k])
      invariant result == SyncResult(WithFate(before, files[..k], Created), WithFate(before, files[..k], Updated),
                                     WithFate(before, files[..k], Kept), [], false)
    {
      assert files[..k + 1][..k] == files[..k];
      FateSurvivesEarlierSaves(before, files, k);
      var saved := registry.SaveTemplate(files[k].id, files[k].body);
      if saved.created { result := result.(created := result.created + [files[k].id]); }
      else if saved.changed { result := result.(updated := result.updated + [files[k].id]); }
      else { result := result.(kept := result.kept + [files[k].id]); }
    }
    assert files[..|files|] == files;
    if Consistent(before) { SaveFilesKeepsConsistent(before, files); }

    if files == [] {
      return result.(skippedRemoval := true);
    }
    var removed := RemoveUndeclared(registry, FileIds(files));
    SavedFilesAreLive(before, files);
    result := result.(removed := removed);
  }

  predicate Distinct(ids: seq<TemplateId>)
  {
    forall i, j | 0 <= i < j < |ids| :: ids[i] != ids[j]
  }

  method RemoveUndeclared(registry: Registry, declared: set<TemplateId>) returns (removed: seq<TemplateId>)
    modifies registry
    ensures registry.history == old(registry.history)
    ensures registry.live == map id | id in old(registry.live) && id in declared :: old(registry.live)[id]
    ensures forall id :: id in removed <==> id in old(registry.live) && id !in declared
    ensures Distinct(removed)
    ensures old(Consistent(registry.Contents())) ==> Consistent(registry.Contents())
  {
    removed := [];
    var listed := registry.live.Keys;
    while listed != {}
      invariant listed <= registry.live.Keys <= old(registry.live).Keys
      invariant registry.history == old(registry.history)
      invariant forall id | id in registry.live :: registry.live[id] == old(registry.live)[id]
      invariant forall id | id in registry.live && id !in listed :: id in declared
      invariant forall id | id in old(registry.live) && id !in registry.live :: id !in declared && id in removed
      invariant forall id | id in removed :: id in old(registry.live) && id !in registry.live
      invariant Distinct(removed)
      invariant old(Consistent(registry.Contents())) ==> Consistent(registry.Contents())
    {
      var id :| id in listed;
      listed := listed - {id};
      if id in declared { continue; }
      var _ := registry.DeleteTemplate(id);
      removed := removed + [id];
    }
  }

  /** Nothing is written unless every file could be read. */
  method SyncDirectory(registry: Registry, entries: seq<Entry>) returns (r: Result<SyncResult>)
    modifies registry
    ensures r.Failure? ==> registry.Contents() == old(registry.Contents())
    ensures r.Success? && entries != [] ==>
              forall id :: id in registry.live <==> exists e | e in entries :: e.parsed.Some? && e.parsed.value.id == id
    ensures r.Success? && entries == [] ==> registry.Contents() == old(registry.Contents())
    ensures r.Success? && entries != [] ==>
              forall e | e in entries && e.parsed.Some? ::
                e.parsed.value.id in registry.live && registry.live[e.parsed.value.id].body == e.parsed.value.body
    ensures r.Success? <==> (forall e | e in entries :: e.parsed.Some?) && !Clash(entries)
  {
    var files := ReadTemplateFiles(entries);
    if files.Failure? { return Failure(files.error); }
    ghost var before := registry.Contents();
    var result := SyncTemplates(registry, files.value);
    if entries != [] {
      SyncMakesFilesTheTruth(before, files.value);
      forall id ensures id in registry.live <==> exists e | e in entries :: e.parsed.Some? && e.parsed.value.id == id {
        if id in registry.live {
          var i :| 0 <= i < |files.value| && files.value[i].id == id;
          assert entries[i] in entries && entries[i].parsed.value.id == id;
        }
        if e :| e in entries && e.parsed.Some? && e.parsed.value.id == id {
          var i :| 0 <= i < |entries| && entries[i] == e;
          assert files.value[i] in files.value;
        }
      }
      forall e | e in entries && e.parsed.Some?
        ensures e.parsed.value.id in registry.live && registry.live[e.parsed.value.id].body == e.parsed.value.body
      {
        var i :| 0 <= i < |entries| && entries[i] == e;
        assert files.value[i] in files.value;
      }
    }
    r := Success(result);
  }
}
