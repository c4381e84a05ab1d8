/** The tables behind engineering workspaces, and what each transaction on them is meant to do. */
module WorkspaceModel {
  import opened Search

  datatype Workspace = Workspace(ownerId: string, revision: int, manifest: string)

  datatype FileRow = FileRow(ownerId: string, objectKey: string, sha: string, size: int, revision: int, executionId: string)

  datatype StagedStatus = Pending | Committed | Cleaned | CleanupFailed

  datatype Staged = Staged(workspaceId: string, ownerId: string, executionId: string, sha: string, size: int, status: StagedStatus)

  datatype ExecutionStatus = Running | Succeeded | Failed | SyncFailed | TimedOut | Cancelled | ApprovalRequired

  datatype Approval = NotRequired | Required | Granted | Consumed

  datatype Execution = Execution(
    workspaceId: string, ownerId: string, status: ExecutionStatus, approval: Approval, synced: Option<(int, int)>)

  datatype Change = Change(
    executionId: string, workspaceId: string, path: string, operation: string, before: int, after: int, sha: Option<string>)

  /** Files are unique per workspace and path, staged objects per object key. */
  datatype Db = Db(
    workspaces: map<string, Workspace>, files: Files, staged: map<string, Staged>,
    executions: map<string, Execution>, changes: seq<Change>)

  // ---- requests ------------------------------------------------------------------------------------------

  datatype FileItem = FileItem(path: string, objectKey: string, sha: string, size: int, executionId: Option<string>)

  datatype ObjectItem = ObjectItem(objectKey: string, sha: string, size: int)

  datatype ChangeItem = ChangeItem(path: string, operation: string, before: int, after: int, sha: Option<string>)

  datatype CommitRequest = CommitRequest(
    workspaceId: string, ownerId: string, executionId: string, expectedRevision: int, expectedManifest: string,
    manifest: string, files: seq<FileItem>, changes: seq<ChangeItem>, objects: seq<ObjectItem>)

  datatype Error =
    | WorkspaceNotFound | SyncConflict | ConstraintViolated | NotRegistered | ExecutionNotFound | StagedConflict
    | ApprovalNotAvailable

  datatype Outcome = Done(db: Db) | RolledBack(error: Error)

  function Settle(db: Db, r: Outcome): Db { if r.Done? then r.db else db }

  // ---- the manifest commit -------------------------------------------------------------------------------

  /** The file map a request asks for; of several items for one path the last one counts. */
  function Desired(items: seq<FileItem>): map<string, FileItem> {
    if items == [] then map[]
    else Desired(items[..|items| - 1])[items[|items| - 1].path := items[|items| - 1]]
  }

  lemma {:induction false} DesiredNames(items: seq<FileItem>, p: string)
    ensures p in Desired(items) <==> exists i | 0 <= i < |items| :: items[i].path == p
    ensures p in Desired(items) ==> Desired(items)[p].path == p
  {
    if items != [] {
      var front := items[..|items| - 1];
      DesiredNames(front, p);
      if p in Desired(front) {
        var i :| 0 <= i < |front| && front[i].path == p;
        assert items[i].path == p;
      }
    }
  }

  function Author(item: FileItem, executionId: string): string {
    if item.executionId.Some? && item.executionId.value != "" then item.executionId.value else executionId
  }

  /** The row a desired item becomes: an existing row keeps its owner. */
  function RowFor(db: Db, req: CommitRequest, item: FileItem): FileRow {
    FileRow(if (req.workspaceId, item.path) in db.files then db.files[(req.workspaceId, item.path)].ownerId else req.ownerId,
            item.objectKey, item.sha, item.size, req.expectedRevision + 1, Author(item, req.executionId))
  }

  predicate RowOk(db: Db, row: FileRow) { row.size >= 0 && |row.sha| == 64 && row.executionId in db.executions }

  /** Two items may name the same path only if the workspace already has that path. */
  predicate NewPathsDistinct(db: Db, w: string, items: seq<FileItem>) {
    forall i, j | 0 <= i < j < |items| && items[i].path == items[j].path :: (w, items[i].path) in db.files
  }

  predicate FilesOk(db: Db, req: CommitRequest) {
    && NewPathsDistinct(db, req.workspaceId, req.files)
    && forall p | p in Rows(db, req, req.files) :: RowOk(db, Rows(db, req, req.files)[p])
  }

  type Files = map<(string, string), FileRow>

  function Of(files: Files, w: string): map<string, FileRow> { map k | k in files && k.0 == w :: k.1 := files[k] }

  function Keyed(w: string, rows: map<string, FileRow>): Files { map p | p in rows :: (w, p) := rows[p] }

  /** Delete the rows of a workspace whose path is not to be kept. */
  function Without(files: Files, w: string, keep: set<string>): Files {
    map k | k in files && !(k.0 == w && k.1 !in keep) :: files[k]
  }

  /** The rows a list of items asks for. */
  function Rows(db: Db, req: CommitRequest, items: seq<FileItem>): map<string, FileRow> {
    map p | p in Desired(items) :: RowFor(db, req, Desired(items)[p])
  }

  /** Replace the workspace's files; leave every other workspace alone. */
  function FilesAfter(db: Db, req: CommitRequest): Files {
    Without(db.files, req.workspaceId, {}) + Keyed(req.workspaceId, Rows(db, req, req.files))
  }

  predicate Registered(staged: map<string, Staged>, w: string, o: string, e: string, item: ObjectItem) {
    item.objectKey in staged &&
    var s := staged[item.objectKey];
    s.workspaceId == w && s.ownerId == o && s.executionId == e && s.sha == item.sha && s.size == item.size
  }

  predicate AllRegistered(staged: map<string, Staged>, w: string, o: string, e: string, items: seq<ObjectItem>) {
    forall i | 0 <= i < |items| :: Registered(staged, w, o, e, items[i])
  }

  predicate Names(items: seq<ObjectItem>, key: string) { exists i | 0 <= i < |items| :: items[i].objectKey == key }

  /** The named staged objects get a new status. */
  function WithStatus(staged: map<string, Staged>, items: seq<ObjectItem>, status: StagedStatus): map<string, Staged> {
    map k | k in staged :: if Names(items, k) then staged[k].(status := status) else staged[k]
  }

  function ChangesOf(req: CommitRequest, items: seq<ChangeItem>): seq<Change> {
    seq(|items|, i requires 0 <= i < |items| =>
      Change(req.executionId, req.workspaceId, items[i].path, items[i].operation, items[i].before, items[i].after, items[i].sha))
  }

  predicate ChangeOk(executions: map<string, Execution>, e: string, c: ChangeItem) {
    c.before >= 0 && c.after >= 0 && e in executions
  }

  predicate ChangesOk(executions: map<string, Execution>, e: string, items: seq<ChangeItem>) {
    forall i | 0 <= i < |items| :: ChangeOk(executions, e, items[i])
  }

  predicate Owned(db: Db, w: string, o: string) { w in db.workspaces && db.workspaces[w].ownerId == o }

  predicate Expected(db: Db, req: CommitRequest)
    requires req.workspaceId in db.workspaces
  {
    var ws := db.workspaces[req.workspaceId];
    ws.revision == req.expectedRevision && ws.manifest == req.expectedManifest
  }

  /** Lock, compare and switch the manifest, or change nothing. */
  function CommitManifest(db: Db, req: CommitRequest): Outcome {
    if !Owned(db, req.workspaceId, req.ownerId) then RolledBack(WorkspaceNotFound)
    else if !Expected(db, req) then RolledBack(SyncConflict)
    else if !FilesOk(db, req) then RolledBack(ConstraintViolated)
    else if !AllRegistered(db.staged, req.workspaceId, req.ownerId, req.executionId, req.objects) then RolledBack(NotRegistered)
    else if !ChangesOk(db.executions, req.executionId, req.changes) then RolledBack(ConstraintViolated)
    else if req.executionId !in db.executions then RolledBack(ExecutionNotFound)
    else if |req.manifest| != 64 then RolledBack(ConstraintViolated)
    else
      var next := req.expectedRevision + 1;
      Done(Db(
        db.workspaces[req.workspaceId := db.workspaces[req.workspaceId].(revision := next, manifest := req.manifest)],
        FilesAfter(db, req),
        WithStatus(db.staged, req.objects, StagedStatus.Committed),
        db.executions[req.executionId := db.executions[req.executionId].(synced := Some((req.expectedRevision, next)))],
        db.changes + ChangesOf(req, req.changes)))
  }

  // ---- staged objects ------------------------------------------------------------------------------------

  predicate Clashes(db: Db, w: string, o: string, e: string, item: ObjectItem) {
    item.objectKey in db.staged
    && (!Registered(db.staged, w, o, e, item) || db.staged[item.objectKey].status == StagedStatus.Committed)
  }

  predicate NewKeysDistinct(db: Db, items: seq<ObjectItem>) {
    forall i, j | 0 <= i < j < |items| && items[i].objectKey == items[j].objectKey :: items[i].objectKey in db.staged
  }

  predicate NewObjectOk(db: Db, w: string, e: string, item: ObjectItem) {
    item.objectKey in db.staged || (w in db.workspaces && e in db.executions && item.size >= 0 && |item.sha| == 64)
  }

  predicate NewObjectsOk(db: Db, w: string, e: string, items: seq<ObjectItem>) {
    NewKeysDistinct(db, items) && forall i | 0 <= i < |items| :: NewObjectOk(db, w, e, items[i])
  }

  function Staging(staged: map<string, Staged>, w: string, o: string, e: string, items: seq<ObjectItem>): map<string, Staged> {
    if items == [] then staged
    else
      var item := items[|items| - 1];
      Staging(staged, w, o, e, items[..|items| - 1])[item.objectKey := Staged(w, o, e, item.sha, item.size, Pending)]
  }

  function RecordPending(db: Db, w: string, o: string, e: string, items: seq<ObjectItem>): Outcome {
    if exists i | 0 <= i < |items| :: Clashes(db, w, o, e, items[i]) then RolledBack(StagedConflict)
    else if !NewObjectsOk(db, w, e, items) then RolledBack(ConstraintViolated)
    else Done(db.(staged := Staging(db.staged, w, o, e, items)))
  }

  // ---- approvals -----------------------------------------------------------------------------------------

  predicate Approvable(db: Db, e: string, w: string, o: string) {
    e in db.executions &&
    var x := db.executions[e];
    x.workspaceId == w && x.ownerId == o && x.status.ApprovalRequired? && x.approval.Required?
  }

  function ConsumeApproval(db: Db, e: string, w: string, o: string): Outcome {
    if !Approvable(db, e, w, o) then RolledBack(ApprovalNotAvailable)
    else Done(db.(executions := db.executions[e := db.executions[e].(approval := Approval.Consumed)]))
  }
}
