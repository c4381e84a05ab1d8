/** The workspace repository over mutable tables: rows are changed one by one inside a transaction that either commits
    as a whole or is rolled back.
 */
module WorkspaceRepository {
  import opened Search
  import opened WorkspaceModel

  class WorkspaceRepository {
    var workspaces: map<string, Workspace>
    var files: Files
    var staged: map<string, Staged>
    var executions: map<string, Execution>
    var changes: seq<Change>

    constructor ()
      ensures Tables() == Db(map[], map[], map[], map[], [])
    {
      workspaces, files, staged, executions, changes := map[], map[], map[], map[], [];
    }

    function Tables(): Db
      reads this
    {
      Db(workspaces, files, staged, executions, changes)
    }

    method Rollback(before: Db)
      modifies this
      ensures Tables() == before
    {
      workspaces, files, staged, executions, changes :=
        before.workspaces, before.files, before.staged, before.executions, before.changes;
    }

    /** The revision, the manifest hash and the files of a workspace, as one consistent snapshot. */
    method WorkspaceStorageState(w: string, o: string) returns (state: Option<(int, string, map<string, FileRow>)>)
      ensures state.None? <==> !Owned(Tables(), w, o)
      ensures state.Some? ==>
                && state.value.0 == workspaces[w].revision && state.value.1 == workspaces[w].manifest
                && (forall p :: p in state.value.2 <==> (w, p) in files && files[(w, p)].ownerId == o)
                && (forall p | p in state.value.2 :: state.value.2[p] == files[(w, p)])
    {
      if w !in workspaces || workspaces[w].ownerId != o {
        return None;
      }
      var rows := map k | k in files && k.0 == w && files[k].ownerId == o :: k.1 := files[k];
      state := Some((workspaces[w].revision, workspaces[w].manifest, rows));
    }

    method CommitWorkspaceManifest(req: CommitRequest) returns (error: Option<Error>)
      modifies this
      ensures error == if CommitManifest(old(Tables()), req).Done? then None else Some(CommitManifest(old(Tables()), req).error)
      ensures Tables() == Settle(old(Tables()), CommitManifest(old(Tables()), req))
    {
      hide FilesAfter, FilesOk, WithStatus, AllRegistered, ChangesOk, ChangesOf;
      var before := Tables();
      var w := req.workspaceId;
      if w !in workspaces || workspaces[w].ownerId != req.ownerId {
        return Some(WorkspaceNotFound);
      }
      var workspace := workspaces[w];
      if workspace.revision != req.expectedRevision || workspace.manifest != req.expectedManifest {
        return Some(SyncConflict);
      }
      var next := req.expectedRevision + 1;
      var ok := ReconcileFiles(req);
      if !ok {
        Rollback(before);
        return Some(ConstraintViolated);
      }
      ok := CommitStaged(req);
      if !ok {
        Rollback(before);
        return Some(NotRegistered);
      }
      ok := AppendChanges(req);
      if !ok {
        Rollback(before);
        return Some(ConstraintViolated);
      }
      if req.executionId !in executions {
        Rollback(before);
        return Some(ExecutionNotFound);
      }
      executions := executions[req.executionId := executions[req.executionId].(synced := Some((req.expectedRevision, next)))];
      workspace := workspace.(revision := next);
      workspace := workspace.(manifest := req.manifest);
      workspaces := workspaces[w := workspace];
      if |req.manifest| != 64 {
        Rollback(before);
        return Some(ConstraintViolated);
      }
      error := None;
    }

    /** Delete the rows of paths no longer wanted, then update or insert the others, against the rows read beforehand. */
    method ReconcileFiles(req: CommitRequest) returns (ok: bool)
      modifies `files
      ensures ok == FilesOk(old(Tables()), req)
      ensures ok ==> files == FilesAfter(old(Tables()), req)
    {
      hide Desired, Rows;
      ghost var before := Tables();
      var w, items := req.workspaceId, req.files;
      var current := Of(files, w);
      var desiredPaths := set i | 0 <= i < |items| :: items[i].path;
      files := Without(files, w, desiredPaths);
      var records, distinct := Upsert(before, current, req);
      assert (forall p | p in records :: RowOk(before, records[p])) ==
        (forall p | p in records :: records[p].size >= 0 && |records[p].sha| == 64 && records[p].executionId in executions);
      ok := distinct && forall p | p in records :: records[p].size >= 0 && |records[p].sha| == 64 && records[p].executionId in executions;
      files := files + Keyed(w, records);
      forall p ensures p in desiredPaths <==> p in Desired(items) {
        DesiredNames(items, p);
      }
      FilesAssembled(before, req, desiredPaths);
    }

    /** Write each item into the row already there, or into a new one; a new path written twice breaks uniqueness. */
    static method Upsert(ghost db: Db, current: map<string, FileRow>, req: CommitRequest)
      returns (records: map<string, FileRow>, distinct: bool)
      requires forall p :: p in current <==> (req.workspaceId, p) in db.files
      requires forall p | p in current :: current[p] == db.files[(req.workspaceId, p)]
      ensures records == Rows(db, req, req.files)
      ensures distinct == NewPathsDistinct(db, req.workspaceId, req.files)
    {
      hide *;
      var items := req.files;
      records, distinct := map[], true;
      NothingDesired(db, req);
      for i := 0 to |items|
        invariant records == Rows(db, req, items[..i])
        invariant distinct == NewPathsDistinct(db, req.workspaceId, items[..i])
      {
        var item := items[i];
        assert items[..i + 1] == items[..i] + [item];
        RowsGrow(db, req, items[..i], item);
        DistinctGrows(db, req.workspaceId, items[..i], item);
        if item.path !in current && item.path in records {
          distinct := false;
        }
        var owner := if item.path in current then current[item.path].ownerId else req.ownerId;
        var row := FileRow(owner, item.objectKey, item.sha, item.size, req.expectedRevision + 1, Author(item, req.executionId));
        RowBuilt(db, req, item, owner);
        records := records[item.path := row];
      }
      assert items[..|items|] == items;
    }

    method CommitStaged(req: CommitRequest) returns (ok: bool)
      modifies `staged
      ensures ok == AllRegistered(old(staged), req.workspaceId, req.ownerId, req.executionId, req.objects)
      ensures ok ==> staged == WithStatus(old(staged), req.objects, StagedStatus.Committed)
    {
      ghost var before := Tables();
      var i := 0;
      while i < |req.objects|
        invariant 0 <= i <= |req.objects|
        invariant staged == WithStatus(before.staged, req.objects[..i], StagedStatus.Committed)
        invariant AllRegistered(before.staged, req.workspaceId, req.ownerId, req.executionId, req.objects[..i])
      {
        var item := req.objects[i];
        assert req.objects[..i + 1][..i] == req.objects[..i];
        if item.objectKey !in staged {
          return false;
        }
        var row := staged[item.objectKey];
        if row.workspaceId != req.workspaceId || row.ownerId != req.ownerId || row.executionId != req.executionId
           || row.sha != item.sha || row.size != item.size {
          return false;
        }
        NamesGrows(req.objects[..i], item);
        assert req.objects[..i + 1] == req.objects[..i] + [item];
        staged := staged[item.objectKey := row.(status := StagedStatus.Committed)];
        i := i + 1;
      }
      assert req.objects[..|req.objects|] == req.objects;
      ok := true;
    }

    method AppendChanges(req: CommitRequest) returns (ok: bool)
      modifies `changes
      ensures ok == ChangesOk(executions, req.executionId, req.changes)
      ensures ok ==> changes == old(changes) + ChangesOf(req, req.changes)
    {
      ok := true;
      var i := 0;
      while i < |req.changes|
        invariant 0 <= i <= |req.changes|
        invariant changes == old(changes) + ChangesOf(req, req.changes[..i])
        invariant ok == ChangesOk(executions, req.executionId, req.changes[..i])
      {
        var c := req.changes[i];
        if c.before < 0 || c.after < 0 || req.executionId !in executions {
          ok := false;
        }
        changes := changes + [Change(req.executionId, req.workspaceId, c.path, c.operation, c.before, c.after, c.sha)];
        i := i + 1;
      }
      assert req.changes[..|req.changes|] == req.changes;
    }

    method RecordPendingStagedObjects(w: string, o: string, e: string, items: seq<ObjectItem>) returns (error: Option<Error>)
      modifies this
      ensures error == if RecordPending(old(Tables()), w, o, e, items).Done? then None
                       else Some(RecordPending(old(Tables()), w, o, e, items).error)
      ensures Tables() == Settle(old(Tables()), RecordPending(old(Tables()), w, o, e, items))
    {
      hide Staging, NewObjectsOk, NewKeysDistinct, Names;
      var before := Tables();
      var ok := true;
      var i := 0;
      NothingStaged(before, w, o, e);
      while i < |items|
        invariant 0 <= i <= |items| && Tables() == before.(staged := staged)
        invariant staged == Staging(before.staged, w, o, e, items[..i])
        invariant forall j | 0 <= j < i :: !Clashes(before, w, o, e, items[j])
        invariant ok == NewObjectsOk(before, w, e, items[..i])
      {
        var item := items[i];
        var key := item.objectKey;
        assert items[..i + 1] == items[..i] + [item];
        StagingNames(before.staged, w, o, e, items[..i], key);
        StagingGrows(before, w, o, e, items[..i], item);
        if key !in before.staged {
          if key in staged || w !in workspaces || e !in executions || item.size < 0 || |item.sha| != 64 {
            ok := false;
          }
        } else {
          var row := before.staged[key];
          if row.workspaceId != w || row.ownerId != o || row.executionId != e || row.sha != item.sha || row.size != item.size
             || row.status == StagedStatus.Committed {
            assert Clashes(before, w, o, e, items[i]);
            Rollback(before);
            return Some(StagedConflict);
          }
        }
        staged := staged[key := Staged(w, o, e, item.sha, item.size, Pending)];
        i := i + 1;
      }
      assert items[..|items|] == items;
      if !ok {
        Rollback(before);
        return Some(ConstraintViolated);
      }
      error := None;
    }

    method ConsumeExecutionApproval(e: string, w: string, o: string) returns (error: Option<Error>)
      modifies this
      ensures error == if ConsumeApproval(old(Tables()), e, w, o).Done? then None else Some(ApprovalNotAvailable)
      ensures Tables() == Settle(old(Tables()), ConsumeApproval(old(Tables()), e, w, o))
    {
      if e !in executions || executions[e].workspaceId != w || executions[e].ownerId != o
         || !executions[e].status.ApprovalRequired? || !executions[e].approval.Required? {
        return Some(ApprovalNotAvailable);
      }
      executions := executions[e := executions[e].(approval := Approval.Consumed)];
      error := None;
    }
  }

  lemma RowBuilt(db: Db, req: CommitRequest, item: FileItem, owner: string)
    requires var key := (req.workspaceId, item.path); owner == if key in db.files then db.files[key].ownerId else req.ownerId
    ensures FileRow(owner, item.objectKey, item.sha, item.size, req.expectedRevision + 1, Author(item, req.executionId))
            == RowFor(db, req, item)
  {}

  lemma RowsGrow(db: Db, req: CommitRequest, items: seq<FileItem>, item: FileItem)
    ensures Rows(db, req, items).Keys == Desired(items).Keys
    ensures Rows(db, req, items + [item]) == Rows(db, req, items)[item.path := RowFor(db, req, item)]
  {
    hide RowFor;
    assert (items + [item])[..|items|] == items;
  }

  lemma NothingDesired(db: Db, req: CommitRequest)
    ensures Rows(db, req, []) == map[] && NewPathsDistinct(db, req.workspaceId, [])
  {}

  lemma DistinctGrows(db: Db, w: string, items: seq<FileItem>, item: FileItem)
    ensures NewPathsDistinct(db, w, items + [item]) <==>
            NewPathsDistinct(db, w, items) && (item.path in Desired(items) ==> (w, item.path) in db.files)
  {
    DesiredNames(items, item.path);
    var more := items + [item];
    if NewPathsDistinct(db, w, more) {
      assert forall i | 0 <= i < |items| :: more[i] == items[i];
      if i :| 0 <= i < |items| && items[i].path == item.path {
        assert more[i].path == more[|items|].path;
      }
    }
  }

  /** Deleting the unwanted rows and writing the wanted ones is replacing the workspace's files. */
  lemma FilesAssembled(db: Db, req: CommitRequest, paths: set<string>)
    requires forall p :: p in paths <==> p in Desired(req.files)
    ensures Without(db.files, req.workspaceId, paths) + Keyed(req.workspaceId, Rows(db, req, req.files)) == FilesAfter(db, req)
  {
    hide RowFor, Desired;
  }

  lemma NamesGrows(items: seq<ObjectItem>, item: ObjectItem)
    ensures forall k :: Names(items + [item], k) <==> Names(items, k) || item.objectKey == k
  {
    forall k ensures Names(items + [item], k) <==> Names(items, k) || item.objectKey == k {
      var more := items + [item];
      assert more[|items|] == item;
      if Names(items, k) {
        var i :| 0 <= i < |items| && items[i].objectKey == k;
        assert more[i].objectKey == k;
      }
    }
  }

  lemma {:induction false} StagingNames(staged: map<string, Staged>, w: string, o: string, e: string, items: seq<ObjectItem>, key: string)
    ensures key in Staging(staged, w, o, e, items) <==> key in staged || Names(items, key)
  {
    if items != [] {
      var front := items[..|items| - 1];
      StagingNames(staged, w, o, e, front, key);
      NamesGrows(front, items[|items| - 1]);
      assert items == front + [items[|items| - 1]];
    }
  }

  lemma NothingStaged(db: Db, w: string, o: string, e: string)
    ensures Staging(db.staged, w, o, e, []) == db.staged && NewObjectsOk(db, w, e, [])
  {}

  lemma StagingGrows(db: Db, w: string, o: string, e: string, items: seq<ObjectItem>, item: ObjectItem)
    ensures Staging(db.staged, w, o, e, items + [item]) ==
            Staging(db.staged, w, o, e, items)[item.objectKey := Staged(w, o, e, item.sha, item.size, Pending)]
    ensures NewObjectsOk(db, w, e, items + [item]) <==>
            NewObjectsOk(db, w, e, items) && NewObjectOk(db, w, e, item) && (Names(items, item.objectKey) ==> item.objectKey in db.staged)
  {
    var more := items + [item];
    assert more[..|items|] == items;
    if NewObjectsOk(db, w, e, more) {
      assert forall i | 0 <= i < |items| :: more[i] == items[i];
      if i :| 0 <= i < |items| && items[i].objectKey == item.objectKey {
        assert more[i].objectKey == more[|items|].objectKey;
      }
      assert NewObjectOk(db, w, e, more[|items|]);
      assert forall i | 0 <= i < |items| :: NewObjectOk(db, w, e, more[i]);
    }
  }
}
