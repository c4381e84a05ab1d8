/** Any interleaving of transactions on the workspace tables: one linear history of manifests per workspace. */
module WorkspaceRuns {
  import opened Search
  import opened WorkspaceModel

  datatype Event =
    | CreateWorkspace(w: string, o: string)
    | BeginExecution(e: string, row: Execution)
    | FinishExecution(e: string, status: ExecutionStatus, synced: Option<(int, int)>)
    | Commit(req: CommitRequest)
    | Record(w: string, o: string, e: string, items: seq<ObjectItem>)
    | MarkCleaned(keys: set<string>)
    | MarkCleanupFailed(keys: set<string>)
    | Consume(e: string, w: string, o: string)

  /** The hash of the empty manifest. */
  const EMPTY_MANIFEST := "e3b0c44298fc1c149afbf4c8996fb92427ae41e4649b934ca495991b7852b855"

  const NO_TABLES := Db(map[], map[], map[], map[], [])

  function Marked(staged: map<string, Staged>, keys: set<string>, status: StagedStatus): map<string, Staged> {
    map k | k in staged :: if k in keys then staged[k].(status := status) else staged[k]
  }

  function Step(db: Db, ev: Event): Outcome {
    match ev
    case CreateWorkspace(w, o) =>
      if w in db.workspaces then RolledBack(ConstraintViolated)
      else Done(db.(workspaces := db.workspaces[w := Workspace(o, 0, EMPTY_MANIFEST)]))
    case BeginExecution(e, row) =>
      if e in db.executions || row.workspaceId !in db.workspaces then RolledBack(ConstraintViolated)
      else Done(db.(executions := db.executions[e := row]))
    case FinishExecution(e, status, synced) =>
      if e !in db.executions then RolledBack(ExecutionNotFound)
      else Done(db.(executions := db.executions[e := db.executions[e].(status := status, synced := synced)]))
    case Commit(req) => CommitManifest(db, req)
    case Record(w, o, e, items) => RecordPending(db, w, o, e, items)
    case MarkCleaned(keys) => Done(db.(staged := Marked(db.staged, keys, Cleaned)))
    case MarkCleanupFailed(keys) => Done(db.(staged := Marked(db.staged, keys, CleanupFailed)))
    case Consume(e, w, o) => ConsumeApproval(db, e, w, o)
  }

  function Run(es: seq<Event>): Db
    decreases |es|
  {
    if es == [] then NO_TABLES
    else var before := Run(es[..|es| - 1]); Settle(before, Step(before, es[|es| - 1]))
  }

  predicate Accepted(es: seq<Event>, i: nat)
    requires i < |es|
  {
    Step(Run(es[..i]), es[i]).Done?
  }

  predicate Lands(es: seq<Event>, i: nat, w: string)
    requires i < |es|
  {
    es[i].Commit? && es[i].req.workspaceId == w && Accepted(es, i)
  }

  // ---- the history ---------------------------------------------------------------------------------------

  /** The commits that landed on a workspace, in order. */
  function History(es: seq<Event>, w: string): seq<CommitRequest>
    decreases |es|
  {
    if es == [] then []
    else
      var n := |es| - 1;
      History(es[..n], w) + if Lands(es, n, w) then [es[n].req] else []
  }

  function Before(h: seq<CommitRequest>, i: nat): string
    requires i <= |h|
  {
    if i == 0 then EMPTY_MANIFEST else h[i - 1].manifest
  }

  /** Each commit was made against its predecessor. */
  predicate Chained(h: seq<CommitRequest>) {
    forall i | 0 <= i < |h| :: h[i].expectedRevision == i && h[i].expectedManifest == Before(h, i)
  }

  predicate Shows(row: FileRow, item: FileItem) {
    row.objectKey == item.objectKey && row.sha == item.sha && row.size == item.size
  }

  /** The stored rows are those the last commit asked for, each at the current revision. */
  predicate Holds(rows: map<string, FileRow>, items: seq<FileItem>, revision: int, owner: string) {
    && rows.Keys == Desired(items).Keys
    && forall p | p in rows :: Shows(rows[p], Desired(items)[p]) && rows[p].revision == revision && rows[p].ownerId == owner
  }

  function Last(h: seq<CommitRequest>): seq<FileItem> { if h == [] then [] else h[|h| - 1].files }

  predicate Current(db: Db, h: seq<CommitRequest>, w: string) {
    if w !in db.workspaces then h == [] && Of(db.files, w) == map[]
    else
      var ws := db.workspaces[w];
      && ws.revision == |h| && ws.manifest == Before(h, |h|) && Holds(Of(db.files, w), Last(h), |h|, ws.ownerId)
  }

  /** A landed commit replaces the workspace's files and leaves every other workspace's alone. */
  lemma FilesReplaced(db: Db, req: CommitRequest, v: string)
    ensures Of(FilesAfter(db, req), v) == if v == req.workspaceId then Rows(db, req, req.files) else Of(db.files, v)
  {
    hide Rows;
    var w, rows, after := req.workspaceId, Rows(db, req, req.files), FilesAfter(db, req);
    assert forall k :: k in Keyed(w, rows) <==> k.0 == w && k.1 in rows;
    assert forall k :: k in after <==> if k.0 == w then k.1 in rows else k in db.files;
    assert forall k | k in after :: after[k] == if k.0 == w then rows[k.1] else db.files[k];
    var expected := if v == w then rows else Of(db.files, v);
    forall p ensures p in Of(after, v) <==> p in expected {
      OfAt(after, v, p);
      OfAt(db.files, v, p);
    }
    forall p | p in expected ensures Of(after, v)[p] == expected[p] {
      OfAt(after, v, p);
      OfAt(db.files, v, p);
    }
  }

  lemma OfAt(files: Files, v: string, p: string)
    ensures p in Of(files, v) <==> (v, p) in files
    ensures p in Of(files, v) ==> Of(files, v)[p] == files[(v, p)]
  {
    if (v, p) in files {
      assert (v, p).1 in Of(files, v);
    }
  }

  /** Existing rows keep their owner, who is the workspace's. */
  lemma RowsHold(db: Db, req: CommitRequest)
    requires Owned(db, req.workspaceId, req.ownerId)
    requires forall p | p in Of(db.files, req.workspaceId) :: Of(db.files, req.workspaceId)[p].ownerId == req.ownerId
    ensures Holds(Rows(db, req, req.files), req.files, req.expectedRevision + 1, req.ownerId)
  {
    hide Desired, Of;
    var rows := Rows(db, req, req.files);
    forall p | p in rows ensures rows[p].ownerId == req.ownerId {
      DesiredNames(req.files, p);
      OfAt(db.files, req.workspaceId, p);
    }
  }

  lemma CommitExpected(db: Db, req: CommitRequest)
    requires CommitManifest(db, req).Done?
    ensures Owned(db, req.workspaceId, req.ownerId) && Expected(db, req)
    ensures var t := CommitManifest(db, req).db;
      && t.files == FilesAfter(db, req)
      && t.workspaces == db.workspaces[req.workspaceId :=
                           Workspace(req.ownerId, req.expectedRevision + 1, req.manifest)]
  {
    hide FilesAfter, FilesOk, AllRegistered, ChangesOk, WithStatus;
  }

  lemma CommitIsCurrent(db: Db, h: seq<CommitRequest>, req: CommitRequest, v: string)
    requires CommitManifest(db, req).Done? && Current(db, h, v)
    ensures Current(CommitManifest(db, req).db, if v == req.workspaceId then h + [req] else h, v)
  {
    hide CommitManifest, FilesAfter, Rows, Of, Desired;
    CommitExpected(db, req);
    FilesReplaced(db, req, v);
    if v == req.workspaceId {
      RowsHold(db, req);
    }
  }

  /** One linear history: the revision counts the landed commits, each made against its predecessor, and the stored
      manifest, files and row revisions are those of the last one. */
  lemma {:induction false} HistoryIsLinear(es: seq<Event>, w: string)
    ensures Chained(History(es, w)) && Current(Run(es), History(es, w), w)
    decreases |es|
  {
    if es == [] {
      assert Of(NO_TABLES.files, w) == map[];
    } else {
      var n := |es| - 1;
      HistoryIsLinear(es[..n], w);
      StepIsLinear(es, w);
    }
  }

  /** Only a commit touches revisions, manifests and files. */
  lemma OtherSteps(db: Db, ev: Event, w: string)
    requires !ev.Commit? && Step(db, ev).Done?
    ensures var t := Step(db, ev).db;
      && t.files == db.files
      && (w in db.workspaces ==> w in t.workspaces && t.workspaces[w] == db.workspaces[w])
      && (w in t.workspaces && w !in db.workspaces ==> t.workspaces[w].revision == 0 && t.workspaces[w].manifest == EMPTY_MANIFEST)
  {}

  lemma OtherIsCurrent(db: Db, ev: Event, h: seq<CommitRequest>, w: string)
    requires !ev.Commit? && Current(db, h, w)
    ensures Current(Settle(db, Step(db, ev)), h, w)
  {
    hide Step, Of;
    if Step(db, ev).Done? {
      OtherSteps(db, ev, w);
    }
  }

  lemma ChainGrows(h: seq<CommitRequest>, req: CommitRequest)
    requires Chained(h) && req.expectedRevision == |h| && req.expectedManifest == Before(h, |h|)
    ensures Chained(h + [req])
  {
    var k := h + [req];
    forall i | 0 <= i < |k| ensures k[i].expectedRevision == i && k[i].expectedManifest == Before(k, i) {
      assert i < |h| ==> k[i] == h[i];
    }
  }

  lemma StepIsLinear(es: seq<Event>, w: string)
    requires es != [] && var n := |es| - 1; Chained(History(es[..n], w)) && Current(Run(es[..n]), History(es[..n], w), w)
    ensures Chained(History(es, w)) && Current(Run(es), History(es, w), w)
  {
    var n := |es| - 1;
    var db, h := Run(es[..n]), History(es[..n], w);
    assert h + [] == h;
    if !es[n].Commit? {
      OtherIsCurrent(db, es[n], h, w);
    } else if Accepted(es, n) {
      assert Step(db, es[n]) == CommitManifest(db, es[n].req);
      CommitIsCurrent(db, h, es[n].req, w);
      if es[n].req.workspaceId == w {
        CommitExpected(db, es[n].req);
        ChainGrows(h, es[n].req);
      }
    }
  }

  // ---- consequences --------------------------------------------------------------------------------------

  /** Histories only grow, and a landed commit is in them at the revision it expected. */
  lemma {:induction false} HistoryGrows(es: seq<Event>, n: nat, w: string)
    requires n <= |es|
    ensures History(es[..n], w) <= History(es, w)
    decreases |es|
  {
    if n < |es| {
      var front := es[..|es| - 1];
      assert front[..n] == es[..n];
      HistoryGrows(front, n, w);
    } else {
      assert es[..n] == es;
    }
  }

  lemma LandedAt(es: seq<Event>, i: nat, w: string)
    requires i < |es| && Lands(es, i, w)
    ensures History(es[..i + 1], w) == History(es[..i], w) + [es[i].req]
    ensures |History(es[..i], w)| == es[i].req.expectedRevision
  {
    hide Of;
    assert es[..i + 1][..i] == es[..i];
    HistoryIsLinear(es[..i], w);
    assert CommitManifest(Run(es[..i]), es[i].req).Done?;
    CommitExpected(Run(es[..i]), es[i].req);
  }

  /** Of any interleaved commits made against the same revision of a workspace, at most one succeeds. */
  lemma OneWinner(es: seq<Event>, i: nat, j: nat, w: string)
    requires i < j < |es| && Lands(es, i, w) && es[j].Commit? && es[j].req.workspaceId == w
    requires es[j].req.expectedRevision == es[i].req.expectedRevision
    ensures !Accepted(es, j)
  {
    LandedAt(es, i, w);
    HistoryGrows(es[..j], i + 1, w);
    assert es[..j][..i + 1] == es[..i + 1];
    if Accepted(es, j) {
      LandedAt(es, j, w);
    }
  }

  /** A commit made against what was read after `n` steps meets the comparison exactly when no other commit landed
      since; a manifest that merely looks the same again does not let it through. */
  lemma ComparisonIsExact(es: seq<Event>, n: nat, req: CommitRequest)
    requires n <= |es| && var then_ := Run(es[..n]).workspaces;
      && req.workspaceId in then_ && req.expectedRevision == then_[req.workspaceId].revision
      && req.expectedManifest == then_[req.workspaceId].manifest
    ensures req.workspaceId in Run(es).workspaces
    ensures Expected(Run(es), req) <==> History(es, req.workspaceId) == History(es[..n], req.workspaceId)
  {
    var w := req.workspaceId;
    HistoryIsLinear(es[..n], w);
    HistoryIsLinear(es, w);
    HistoryGrows(es, n, w);
    WorkspacesStay(es, n, w);
    hide Chained, Holds, Run, History;
    if |History(es, w)| == |History(es[..n], w)| {
      assert History(es, w) == History(es[..n], w);
    }
  }

  lemma {:induction false} WorkspacesStay(es: seq<Event>, n: nat, w: string)
    requires n <= |es| && w in Run(es[..n]).workspaces
    ensures w in Run(es).workspaces
    decreases |es|
  {
    if n < |es| {
      var front := es[..|es| - 1];
      assert front[..n] == es[..n];
      WorkspacesStay(front, n, w);
      hide CommitManifest, RecordPending;
      if es[|es| - 1].Commit? && Accepted(es, |es| - 1) {
        CommitExpected(Run(front), es[|es| - 1].req);
      } else if Accepted(es, |es| - 1) {
        OtherSteps(Run(front), es[|es| - 1], w);
      }
    } else {
      assert es[..n] == es;
    }
  }

  /** Recovering from a lost acknowledgement by looking for the next revision with one's own manifest is sound: a commit
      against that very revision did land, and the stored files are the ones it asked for. */
  lemma RecoveryIsSound(es: seq<Event>, w: string, revision: int, manifest: string)
    requires revision >= 0 && w in Run(es).workspaces
    requires Run(es).workspaces[w].revision == revision + 1 && Run(es).workspaces[w].manifest == manifest
    ensures var h := History(es, w);
      && |h| == revision + 1 && h[revision].expectedRevision == revision && h[revision].manifest == manifest
      && Holds(Of(Run(es).files, w), h[revision].files, revision + 1, Run(es).workspaces[w].ownerId)
  {
    HistoryIsLinear(es, w);
    hide Holds, Of, Run, History;
  }

  // ---- staged objects and approvals ------------------------------------------------------------------------

  predicate Cleans(ev: Event, key: string) {
    (ev.MarkCleaned? && key in ev.keys) || (ev.MarkCleanupFailed? && key in ev.keys)
  }

  predicate IsCommitted(db: Db, key: string) { key in db.staged && db.staged[key].status == StagedStatus.Committed }

  /** Who staged an object, and what it contains, never changes. */
  predicate SameObject(a: Staged, b: Staged) { b == a.(status := b.status) }

  lemma StagedStep(db: Db, ev: Event, key: string)
    requires key in db.staged
    ensures var t := Settle(db, Step(db, ev));
      && key in t.staged && SameObject(db.staged[key], t.staged[key])
      && (IsCommitted(db, key) && !Cleans(ev, key) ==> IsCommitted(t, key))
  {
    hide FilesAfter, FilesOk, ChangesOk, Staging, NewObjectsOk;
    if ev.Record? && RecordPending(db, ev.w, ev.o, ev.e, ev.items).Done? {
      StagingKeeps(db, ev.w, ev.o, ev.e, ev.items, key);
    }
  }

  lemma {:induction false} StagingKeeps(db: Db, w: string, o: string, e: string, items: seq<ObjectItem>, key: string)
    requires key in db.staged && forall i | 0 <= i < |items| :: !Clashes(db, w, o, e, items[i])
    ensures var t := Staging(db.staged, w, o, e, items);
      && key in t && SameObject(db.staged[key], t[key])
      && (IsCommitted(db, key) ==> t[key] == db.staged[key])
  {
    if items != [] {
      StagingKeeps(db, w, o, e, items[..|items| - 1], key);
      assert !Clashes(db, w, o, e, items[|items| - 1]);
    }
  }

  /** A committed object stays committed for as long as no cleanup names it: it is never staged again, by anyone. */
  lemma {:induction false} CommittedStaysCommitted(es: seq<Event>, n: nat, key: string)
    requires n <= |es| && key in Run(es[..n]).staged
    ensures key in Run(es).staged && SameObject(Run(es[..n]).staged[key], Run(es).staged[key])
    ensures IsCommitted(Run(es[..n]), key) && (forall i | n <= i < |es| :: !Cleans(es[i], key)) ==> IsCommitted(Run(es), key)
    decreases |es|
  {
    hide Step;
    if n < |es| {
      var front := es[..|es| - 1];
      assert front[..n] == es[..n];
      CommittedStaysCommitted(front, n, key);
      StagedStep(Run(front), es[|es| - 1], key);
      assert forall i | n <= i < |front| :: front[i] == es[i];
    } else {
      assert es[..n] == es;
    }
  }

  lemma Recorded(db: Db, w: string, o: string, e: string, items: seq<ObjectItem>)
    requires RecordPending(db, w, o, e, items).Done?
    ensures NewObjectsOk(db, w, e, items) && forall i | 0 <= i < |items| :: !Clashes(db, w, o, e, items[i])
    ensures RecordPending(db, w, o, e, items).db.staged == Staging(db.staged, w, o, e, items)
  {
    hide NewObjectsOk, Clashes, Staging;
  }

  /** What was recorded as pending is still registered, for the same execution and content, whenever it is committed. */
  lemma PendingStaysRegistered(es: seq<Event>, n: nat)
    requires n < |es| && es[n].Record? && Accepted(es, n)
    ensures AllRegistered(Run(es).staged, es[n].w, es[n].o, es[n].e, es[n].items)
  {
    hide RecordPending, CommitManifest, NewObjectsOk, Clashes, Staging;
    var ev, db := es[n], Run(es[..n]);
    assert es[..n + 1][..n] == es[..n];
    Recorded(db, ev.w, ev.o, ev.e, ev.items);
    forall i | 0 <= i < |ev.items| ensures Registered(Run(es).staged, ev.w, ev.o, ev.e, ev.items[i]) {
      StagingRegisters(db, ev.w, ev.o, ev.e, ev.items, i);
      CommittedStaysCommitted(es, n + 1, ev.items[i].objectKey);
      hide Run;
    }
  }

  lemma {:induction false} StagingRegisters(db: Db, w: string, o: string, e: string, items: seq<ObjectItem>, i: nat)
    requires i < |items| && NewObjectsOk(db, w, e, items) && forall j | 0 <= j < |items| :: !Clashes(db, w, o, e, items[j])
    ensures Registered(Staging(db.staged, w, o, e, items), w, o, e, items[i])
  {
    var n := |items| - 1;
    if i < n {
      StagingRegisters(db, w, o, e, items[..n], i);
      assert !Clashes(db, w, o, e, items[i]) && !Clashes(db, w, o, e, items[n]);
    }
  }

  /** An approval is consumed at most once. */
  lemma ApprovalConsumedOnce(es: seq<Event>, i: nat, j: nat)
    requires i < j < |es| && es[i].Consume? && es[j].Consume? && es[i].e == es[j].e && Accepted(es, i)
    ensures !Accepted(es, j)
  {
    assert es[..i + 1][..i] == es[..i];
    var e := es[i].e;
    assert IsConsumed(Run(es[..i + 1]), e);
    assert es[..j][..i + 1] == es[..i + 1];
    ConsumedStays(es[..j], i + 1, e);
  }

  predicate IsConsumed(db: Db, e: string) { e in db.executions && db.executions[e].approval.Consumed? }

  lemma ConsumedStep(db: Db, ev: Event, e: string)
    requires IsConsumed(db, e)
    ensures IsConsumed(Settle(db, Step(db, ev)), e)
  {
    hide FilesAfter, FilesOk, AllRegistered, ChangesOk, WithStatus, Staging, NewObjectsOk, Clashes;
  }

  lemma {:induction false} ConsumedStays(es: seq<Event>, n: nat, e: string)
    requires n <= |es| && IsConsumed(Run(es[..n]), e)
    ensures IsConsumed(Run(es), e)
    decreases |es|
  {
    if n < |es| {
      var front := es[..|es| - 1];
      assert front[..n] == es[..n];
      ConsumedStays(front, n, e);
      ConsumedStep(Run(front), es[|es| - 1], e);
      hide Step;
    } else {
      assert es[..n] == es;
    }
  }
}
