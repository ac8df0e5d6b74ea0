// Documents and their version log (src/documents/documents.service.ts) as functions on a store,
// and the proof that the log is append-only and faithful over every run of requests.
module Documents {
  import opened Seqs
  import opened Users
  import Folders

  datatype Status = DRAFT | PUBLISHED | ARCHIVED

  // The fields a version snapshot copies.
  datatype Content = Content(
    title: string, body: Option<string>, summary: Option<string>, visibility: Visibility, status: Status,
    projectId: Option<string>, folderId: Option<string>, tags: Option<seq<string>>)

  datatype Document = Document(
    tenantId: string, slug: Option<string>, createdById: Option<string>, content: Content,
    publishedAt: Option<int>, archivedAt: Option<int>)

  // A row of the version table; title, visibility and status may be null in the schema.
  datatype Snapshot = Snapshot(
    version: int, title: Option<string>, body: Option<string>, summary: Option<string>,
    visibility: Option<Visibility>, status: Option<Status>,
    projectId: Option<string>, folderId: Option<string>, tags: Option<seq<string>>, createdById: string)

  // projects maps a project id to its tenant.
  datatype Store = Store(
    folders: Folders.FolderTable, projects: map<string, string>,
    documents: map<string, Document>, versions: map<string, seq<Snapshot>>)

  datatype Error =
    | NotFound | Forbidden | ProjectNotFound | SlugTaken | VersionNotFound
    | ForeignKeyViolation | DuplicateKey | FolderError(error: Folders.Error)

  datatype CreateDto = CreateDto(
    title: string, body: Option<string>, summary: Option<string>, visibility: Option<Visibility>,
    status: Option<Status>,
    projectId: Option<string>, folderId: Option<string>, tags: Option<seq<string>>, slug: Option<string>)

  datatype UpdateDto = UpdateDto(
    title: Option<string>, body: Patch<string>, summary: Patch<string>, visibility: Option<Visibility>,
    status: Option<Status>,
    projectId: Patch<string>, folderId: Patch<string>, tags: Option<seq<string>>, slug: Patch<string>)

  // The request that changes nothing but the status: publish, archive and restore send it.
  function StatusOnly(status: Status): UpdateDto {
    UpdateDto(None, Keep, Keep, None, Some(status), Keep, Keep, None, Keep)
  }

  predicate CanManageAll(user: User) {
    HasAny(user, {"manage:all", "manage:projects"})
  }

  predicate CanManage(user: User, d: Document) {
    CanManageAll(user) || d.createdById == Some(user.id)
  }

  predicate CanRead(user: User, d: Document) {
    d.content.visibility != PRIVATE || d.createdById == Some(user.id) || CanManageAll(user)
  }

  predicate InTenant(s: Store, tenant: string, id: string) {
    id in s.documents && s.documents[id].tenantId == tenant
  }

  predicate SlugFree(s: Store, tenant: string, slug: string, except: string) {
    !exists k :: k in s.documents && k != except && s.documents[k].tenantId == tenant
              && s.documents[k].slug == Some(slug)
  }

  // validateDocumentTargets
  function CheckTargets(s: Store, tenant: string, projectId: Option<string>,
                        folderId: Option<string>): Result<(), Error> {
    if Given(projectId) && !(projectId.value in s.projects && s.projects[projectId.value] == tenant)
      then Err(ProjectNotFound)
    else if Given(folderId) && !Folders.Visible(s.folders, tenant, folderId.value, false)
      then Err(FolderError(Folders.FolderNotFound))
    else Ok(())
  }

  // The foreign keys of a document row.
  predicate ReferencesExist(s: Store, c: Content) {
    (c.projectId.Some? ==> c.projectId.value in s.projects) && (c.folderId.Some? ==> c.folderId.value in s.folders)
  }

  function Sent<T>(p: Patch<T>): Option<T> {
    if p.Put? then Some(p.value) else None
  }

  // buildVersionData
  function SnapshotOf(c: Content, version: int, userId: string): Snapshot {
    Snapshot(version, Some(c.title), c.body, c.summary, Some(c.visibility), Some(c.status), c.projectId, c.folderId,
             c.tags, userId)
  }

  // aggregate({ _max: { version: true } }) over the rows of one document, 0 when there are none.
  function MaxVersion(log: seq<Snapshot>): int {
    if log == [] then 0
    else if |log| == 1 then log[0].version
    else Max(MaxVersion(log[..|log| - 1]), log[|log| - 1].version)
  }

  // The version rows of one document.
  function LogOf(s: Store, id: string): seq<Snapshot> {
    if id in s.versions then s.versions[id] else []
  }

  // The write shared by create, update and restore: the new row, then a snapshot of it.
  function SaveWithVersion(s: Store, id: string, d: Document, userId: string): Store {
    var log := LogOf(s, id);
    s.(documents := s.documents[id := d],
       versions := s.versions[id := log + [SnapshotOf(d.content, MaxVersion(log) + 1, userId)]])
  }

  function CreateDocument(s: Store, user: User, id: string, dto: CreateDto, now: int): Result<Store, Error> {
    var targets := CheckTargets(s, user.tenantId, dto.projectId, dto.folderId);
    var status := dto.status.GetOr(DRAFT);
    var content := Content(dto.title, dto.body, dto.summary, dto.visibility.GetOr(TEAM), status, dto.projectId,
                           dto.folderId, dto.tags);
    if targets.Err? then Err(targets.error)
    else if dto.slug.Some? && !SlugFree(s, user.tenantId, dto.slug.value, id) then Err(SlugTaken)
    else if !ReferencesExist(s, content) then Err(ForeignKeyViolation)
    else if id in s.documents then Err(DuplicateKey)
    else
      var created := Document(user.tenantId, dto.slug, Some(user.id), content,
                              if dto.status == Some(PUBLISHED) then Some(now) else None,
                              if dto.status == Some(ARCHIVED) then Some(now) else None);
      Ok(SaveWithVersion(s, id, created, user.id))
  }

  function Updated(d: Document, dto: UpdateDto, now: int): Document {
    var c := d.content;
    d.(slug := dto.slug.Apply(d.slug),
       content := Content(dto.title.GetOr(c.title), dto.body.Apply(c.body), dto.summary.Apply(c.summary),
                          dto.visibility.GetOr(c.visibility), dto.status.GetOr(c.status),
                          dto.projectId.Apply(c.projectId), dto.folderId.Apply(c.folderId), dto.tags.OrElse(c.tags)),
       publishedAt := if dto.status == Some(PUBLISHED) && d.publishedAt.None? then Some(now) else d.publishedAt,
       archivedAt := if dto.status == Some(ARCHIVED) then Some(now) else if dto.status.Some? then None
         else d.archivedAt)
  }

  function UpdateDocument(s: Store, user: User, id: string, dto: UpdateDto, now: int): Result<Store, Error> {
    if !InTenant(s, user.tenantId, id) then Err(NotFound)
    else if !CanManage(user, s.documents[id]) then Err(Forbidden)
    else
      var before := s.documents[id];
      var targets := CheckTargets(s, user.tenantId, Sent(dto.projectId), Sent(dto.folderId));
      var after := Updated(before, dto, now);
      if targets.Err? then Err(targets.error)
      else if dto.slug.Put? && Some(dto.slug.value) != before.slug && !SlugFree(s, user.tenantId, dto.slug.value, id)
        then Err(SlugTaken)
      else if !ReferencesExist(s, after.content) then Err(ForeignKeyViolation)
      else Ok(SaveWithVersion(s, id, after, user.id))
  }

  // restoreDocument: an update to DRAFT, then a second write that clears archivedAt.
  function RestoreDocument(s: Store, user: User, id: string, now: int): Result<Store, Error> {
    var updated := UpdateDocument(s, user, id, StatusOnly(DRAFT), now);
    if updated.Err? then updated
    else
      var documents := updated.value.documents;
      Ok(updated.value.(documents := documents[id := documents[id].(archivedAt := None)]))
  }

  function HasVersion(version: int): Snapshot -> bool {
    (v: Snapshot) => v.version == version
  }

  // The document a restore of this snapshot writes.
  function Reverted(d: Document, v: Snapshot, now: int): Document {
    d.(content := Content(v.title.GetOr(d.content.title), v.body, v.summary, v.visibility.GetOr(d.content.visibility),
                          v.status.GetOr(d.content.status), v.projectId, v.folderId, v.tags),
       archivedAt := if v.status == Some(ARCHIVED) then Some(now) else None,
       publishedAt := if v.status == Some(PUBLISHED) then Some(now) else d.publishedAt)
  }

  function RestoreVersion(s: Store, user: User, id: string, version: int, now: int): Result<Store, Error> {
    if !InTenant(s, user.tenantId, id) then Err(NotFound)
    else if !CanManage(user, s.documents[id]) || !CanRead(user, s.documents[id]) then Err(Forbidden)
    else
      var snapshot := FindFirst(LogOf(s, id), HasVersion(version));
      if snapshot.None? then Err(VersionNotFound)
      else
        var after := Reverted(s.documents[id], snapshot.value, now);
        if !ReferencesExist(s, after.content) then Err(ForeignKeyViolation)
        else Ok(SaveWithVersion(s, id, after, user.id))
  }

  // The document row goes and its versions cascade.
  function HardDelete(s: Store, user: User, id: string): Result<Store, Error> {
    if !InTenant(s, user.tenantId, id) then Err(NotFound)
    else if !CanManage(user, s.documents[id]) then Err(Forbidden)
    else Ok(s.(documents := s.documents - {id}, versions := s.versions - {id}))
  }

  predicate HasActiveDocument(s: Store, tenant: string, folder: string) {
    exists k :: k in s.documents && s.documents[k].tenantId == tenant
             && s.documents[k].content.folderId == Some(folder) && s.documents[k].archivedAt.None?
  }

  // The folder foreign key of documents is ON DELETE SET NULL.
  function DetachFolder(documents: map<string, Document>, folder: string): map<string, Document> {
    map k | k in documents ::
      if documents[k].content.folderId == Some(folder)
        then documents[k].(content := documents[k].content.(folderId := None))
      else documents[k]
  }

  function FolderRequest(s: Store, tenant: string, step: Folders.FolderStep): Result<Store, Error> {
    var active := step.Delete? && HasActiveDocument(s, tenant, step.id);
    var result := Folders.ApplyFolderStep(s.folders, tenant, step, active);
    if result.Err? then Err(FolderError(result.error))
    else
      var documents := if step.Delete? then DetachFolder(s.documents, step.id) else s.documents;
      Ok(s.(folders := result.value, documents := documents))
  }

  datatype Request =
    | OnFolder(tenant: string, step: Folders.FolderStep)
    | Create(user: User, id: string, createDto: CreateDto, now: int)
    | Update(user: User, id: string, updateDto: UpdateDto, now: int)
    | Restore(user: User, id: string, now: int)
    | RestoreTo(user: User, id: string, version: int, now: int)
    | Remove(user: User, id: string)

  function Respond(s: Store, r: Request): Result<Store, Error> {
    match r
    case OnFolder(tenant, step) => FolderRequest(s, tenant, step)
    case Create(user, id, dto, now) => CreateDocument(s, user, id, dto, now)
    case Update(user, id, dto, now) => UpdateDocument(s, user, id, dto, now)
    case Restore(user, id, now) => RestoreDocument(s, user, id, now)
    case RestoreTo(user, id, version, now) => RestoreVersion(s, user, id, version, now)
    case Remove(user, id) => HardDelete(s, user, id)
  }

  // A refused request changes nothing.
  function After(s: Store, r: Request): Store {
    var result := Respond(s, r);
    if result.Ok? then result.value else s
  }

  function Run(s: Store, requests: seq<Request>): Store
    decreases |requests|
  {
    if requests == [] then s else Run(After(s, requests[0]), requests[1..])
  }

  // ---------- The invariant ----------

  ghost predicate Numbered(log: seq<Snapshot>) {
    |log| >= 1 && forall i :: 0 <= i < |log| ==> log[i].version == i + 1
  }

  ghost predicate Complete(v: Snapshot) {
    v.title.Some? && v.visibility.Some? && v.status.Some?
  }

  // The snapshot equals the document's versioned fields.
  ghost predicate Captures(v: Snapshot, c: Content) {
    v == SnapshotOf(c, v.version, v.createdById)
  }

  // Deleting a folder detaches its archived documents without writing a version, so the latest
  // snapshot may still name a folder the document has lost.
  ghost predicate CapturesButFolder(v: Snapshot, c: Content) {
    Captures(v.(folderId := c.folderId), c) && (v.folderId == c.folderId || c.folderId.None?)
  }

  ghost predicate StatusStamped(d: Document) {
    && (d.content.status == ARCHIVED <==> d.archivedAt.Some?)
    && (d.content.status == PUBLISHED ==> d.publishedAt.Some?)
  }

  ghost predicate GoodLog(d: Document, log: seq<Snapshot>) {
    && Numbered(log)
    && (forall i :: 0 <= i < |log| ==> Complete(log[i]))
    && CapturesButFolder(log[|log| - 1], d.content)
  }

  // All of it for the document k.
  ghost predicate DocumentOk(s: Store, k: string) {
    && k in s.documents && k in s.versions
    && GoodLog(s.documents[k], s.versions[k]) && StatusStamped(s.documents[k])
    && ReferencesExist(s, s.documents[k].content)
  }

  ghost predicate Inv(s: Store) {
    && Folders.Forest(s.folders)
    && s.versions.Keys == s.documents.Keys
    && (forall k :: k in s.documents ==> DocumentOk(s, k))
  }

  // Every latest snapshot equals its document.
  ghost predicate LatestCaptured(s: Store) {
    s.versions.Keys == s.documents.Keys && forall k :: k in s.documents ==> LatestOf(s, k)
  }

  ghost predicate LatestOf(s: Store, k: string)
    requires k in s.documents && k in s.versions
  {
    var log := s.versions[k];
    |log| >= 1 && Captures(log[|log| - 1], s.documents[k].content)
  }

  // What a request may do to a document that it does not remove: its log is extended at the
  // end, and a publication date, once there, stays.
  ghost predicate Extends(s: Store, t: Store, id: string) {
    && id in s.documents && id in t.documents && id in s.versions && id in t.versions
    && s.versions[id] <= t.versions[id]
    && (s.documents[id].publishedAt.Some? ==> t.documents[id].publishedAt.Some?)
  }

  ghost predicate Grows(s: Store, t: Store) {
    forall k :: k in s.documents && k in t.documents ==> Extends(s, t, k)
  }

  ghost predicate Sound(s: Store, t: Store) {
    Inv(t) && Grows(s, t) && (LatestCaptured(s) ==> LatestCaptured(t))
  }

  lemma {:induction false} MaxOfNumbered(log: seq<Snapshot>)
    requires forall i :: 0 <= i < |log| ==> log[i].version == i + 1
    ensures MaxVersion(log) == |log|
  {
    if |log| > 1 {
      MaxOfNumbered(log[..|log| - 1]);
    }
  }

  // A document untouched by a request stays as good as it was.
  lemma Untouched(s: Store, t: Store, k: string)
    requires DocumentOk(s, k) && k in t.documents && k in t.versions
    requires t.documents[k] == s.documents[k] && t.versions[k] == s.versions[k]
    requires t.projects == s.projects && s.folders.Keys <= t.folders.Keys
    ensures DocumentOk(t, k) && Extends(s, t, k) && (LatestOf(s, k) ==> LatestOf(t, k))
  {
  }

  // The saved document: its log grows by one numbered snapshot of the new row.
  lemma SavedDocument(s: Store, id: string, d: Document, userId: string)
    requires StatusStamped(d) && ReferencesExist(s, d.content)
    requires forall i :: 0 <= i < |LogOf(s, id)| ==> LogOf(s, id)[i].version == i + 1 && Complete(LogOf(s, id)[i])
    ensures var t := SaveWithVersion(s, id, d, userId);
            var log := LogOf(s, id);
            DocumentOk(t, id) && LatestOf(t, id) && t.versions[id] == log + [SnapshotOf(d.content, |log| + 1, userId)]
  {
    MaxOfNumbered(LogOf(s, id));
  }

  // One write to an existing document.
  lemma SaveIsSound(s: Store, id: string, d: Document, userId: string)
    requires Inv(s) && id in s.documents
    requires StatusStamped(d) && ReferencesExist(s, d.content)
    requires s.documents[id].publishedAt.Some? ==> d.publishedAt.Some?
    ensures Sound(s, SaveWithVersion(s, id, d, userId))
  {
    var t := SaveWithVersion(s, id, d, userId);
    assert DocumentOk(s, id);
    SavedDocument(s, id, d, userId);
    forall k | k in t.documents
      ensures DocumentOk(t, k) && Extends(s, t, k) && (LatestOf(s, k) ==> LatestOf(t, k))
    {
      if k != id { Untouched(s, t, k); }
    }
  }

  // The first write of a new document.
  lemma AddIsSound(s: Store, t: Store, id: string, d: Document, userId: string)
    requires Inv(s) && id !in s.documents && StatusStamped(d) && ReferencesExist(s, d.content)
    requires t == SaveWithVersion(s, id, d, userId)
    ensures Sound(s, t)
  {
    SavedDocument(s, id, d, userId);
    assert t.documents.Keys == s.documents.Keys + {id} && t.versions.Keys == s.versions.Keys + {id};
    forall k | k in t.documents
      ensures DocumentOk(t, k) && (k in s.documents ==> Extends(s, t, k) && (LatestOf(s, k) ==> LatestOf(t, k)))
      ensures (k !in s.documents ==> LatestOf(t, k))
    {
      if k in s.documents { Untouched(s, t, k); }
    }
  }

  lemma CreateIsSound(s: Store, t: Store, user: User, id: string, dto: CreateDto, now: int)
    requires Inv(s) && CreateDocument(s, user, id, dto, now) == Ok(t)
    ensures Sound(s, t) && s.documents.Keys <= t.documents.Keys
  {
    AddIsSound(s, t, id, t.documents[id], user.id);
  }

  // An accepted update is one write of the patched row.
  lemma UpdateEffect(s: Store, t: Store, user: User, id: string, dto: UpdateDto, now: int)
    requires UpdateDocument(s, user, id, dto, now) == Ok(t)
    ensures InTenant(s, user.tenantId, id) && CanManage(user, s.documents[id])
    ensures ReferencesExist(s, Updated(s.documents[id], dto, now).content)
    ensures t == SaveWithVersion(s, id, Updated(s.documents[id], dto, now), user.id)
  {
  }

  lemma UpdateIsSound(s: Store, t: Store, user: User, id: string, dto: UpdateDto, now: int)
    requires Inv(s) && UpdateDocument(s, user, id, dto, now) == Ok(t)
    ensures Sound(s, t) && s.documents.Keys == t.documents.Keys
  {
    UpdateEffect(s, t, user, id, dto, now);
    assert DocumentOk(s, id);
    SaveIsSound(s, id, Updated(s.documents[id], dto, now), user.id);
  }

  // An update appends exactly one snapshot, of the document it leaves behind.
  lemma UpdateAppendsSnapshot(s: Store, t: Store, user: User, id: string, dto: UpdateDto, now: int)
    requires Inv(s) && UpdateDocument(s, user, id, dto, now) == Ok(t)
    ensures t.documents[id] == Updated(s.documents[id], dto, now)
    ensures t.versions[id] == s.versions[id] + [SnapshotOf(t.documents[id].content, |s.versions[id]| + 1, user.id)]
  {
    UpdateEffect(s, t, user, id, dto, now);
    assert DocumentOk(s, id);
    SavedDocument(s, id, Updated(s.documents[id], dto, now), user.id);
  }

  // The second write of restoreDocument finds archivedAt already cleared.
  lemma RestoreIsUpdate(s: Store, user: User, id: string, now: int)
    ensures RestoreDocument(s, user, id, now) == UpdateDocument(s, user, id, StatusOnly(DRAFT), now)
  {
    var updated := UpdateDocument(s, user, id, StatusOnly(DRAFT), now);
    if updated.Ok? {
      var documents := updated.value.documents;
      assert documents[id := documents[id].(archivedAt := None)] == documents;
    }
  }

  // In a numbered log version k is the k-th snapshot.
  lemma FindVersion(log: seq<Snapshot>, version: int)
    requires Numbered(log)
    ensures FindFirst(log, HasVersion(version)) == if 1 <= version <= |log| then Some(log[version - 1]) else None
  {
    if 1 <= version <= |log| {
      assert log[version - 1].version == version;
      assert HasVersion(version)(log[version - 1]);
    }
  }

  // An accepted restore is one write of the reverted row; the version asked for is in the log.
  lemma RestoreVersionEffect(s: Store, t: Store, user: User, id: string, version: int, now: int)
    requires Inv(s) && RestoreVersion(s, user, id, version, now) == Ok(t)
    ensures id in s.documents && 1 <= version <= |s.versions[id]|
    ensures var after := Reverted(s.documents[id], s.versions[id][version - 1], now);
            ReferencesExist(s, after.content) && t == SaveWithVersion(s, id, after, user.id)
  {
    assert DocumentOk(s, id);
    FindVersion(s.versions[id], version);
  }

  lemma RestoreVersionIsSound(s: Store, t: Store, user: User, id: string, version: int, now: int)
    requires Inv(s) && RestoreVersion(s, user, id, version, now) == Ok(t)
    ensures Sound(s, t) && s.documents.Keys == t.documents.Keys
  {
    RestoreVersionEffect(s, t, user, id, version, now);
    assert DocumentOk(s, id);
    SaveIsSound(s, id, Reverted(s.documents[id], s.versions[id][version - 1], now), user.id);
  }

  lemma RemoveIsSound(s: Store, t: Store, user: User, id: string)
    requires Inv(s) && HardDelete(s, user, id) == Ok(t)
    ensures Sound(s, t) && t.documents.Keys == s.documents.Keys - {id}
  {
    forall k | k in t.documents
      ensures DocumentOk(t, k) && Extends(s, t, k) && (LatestOf(s, k) ==> LatestOf(t, k))
    {
      Untouched(s, t, k);
    }
  }

  // A new folder table that still has every folder a document lies in.
  lemma ReplaceFoldersKeepsInv(s: Store, gs: Folders.FolderTable)
    requires Inv(s) && Folders.Forest(gs) && s.folders.Keys <= gs.Keys
    ensures Sound(s, s.(folders := gs))
  {
    var t := s.(folders := gs);
    forall k | k in t.documents
      ensures DocumentOk(t, k) && Extends(s, t, k) && (LatestOf(s, k) ==> LatestOf(t, k))
    {
      Untouched(s, t, k);
    }
  }

  lemma DetachKeepsInv(s: Store, gs: Folders.FolderTable, folder: string)
    requires Inv(s) && Folders.Forest(gs) && gs.Keys == s.folders.Keys - {folder}
    ensures var t := s.(folders := gs, documents := DetachFolder(s.documents, folder));
            Inv(t) && Grows(s, t) && t.documents.Keys == s.documents.Keys
  {
    var t := s.(folders := gs, documents := DetachFolder(s.documents, folder));
    forall k | k in t.documents
      ensures DocumentOk(t, k) && Extends(s, t, k)
    {
      assert DocumentOk(s, k);
      DetachedDocument(s, t, k, folder);
    }
  }

  lemma DetachedDocument(s: Store, t: Store, k: string, folder: string)
    requires DocumentOk(s, k) && t.versions == s.versions && t.projects == s.projects
    requires t.documents == DetachFolder(s.documents, folder) && t.folders.Keys == s.folders.Keys - {folder}
    ensures DocumentOk(t, k) && Extends(s, t, k)
  {
  }

  lemma FolderRequestIsSound(s: Store, tenant: string, step: Folders.FolderStep)
    requires Inv(s) && FolderRequest(s, tenant, step).Ok?
    ensures var t := FolderRequest(s, tenant, step).value;
            && Inv(t) && Grows(s, t) && t.documents.Keys == s.documents.Keys
            && (!step.Delete? ==> Sound(s, t))
  {
    var active := step.Delete? && HasActiveDocument(s, tenant, step.id);
    var result := Folders.ApplyFolderStep(s.folders, tenant, step, active);
    Folders.StepKeepsForest(s.folders, tenant, step, active);
    Folders.StepKeepsFolders(s.folders, tenant, step, active);
    if step.Delete? {
      DetachKeepsInv(s, result.value, step.id);
    } else {
      ReplaceFoldersKeepsInv(s, result.value);
    }
  }

  // Every request keeps the whole invariant and only ever appends to logs.
  lemma RequestKeepsInv(s: Store, r: Request)
    requires Inv(s)
    ensures Inv(After(s, r)) && Grows(s, After(s, r))
    ensures !r.Remove? ==> s.documents.Keys <= After(s, r).documents.Keys
    ensures r.Remove? ==> s.documents.Keys - {r.id} <= After(s, r).documents.Keys
    ensures LatestCaptured(s) && !(r.OnFolder? && r.step.Delete?) ==> LatestCaptured(After(s, r))
  {
    if Respond(s, r).Ok? {
      var t := After(s, r);
      match r
      case OnFolder(tenant, step) => FolderRequestIsSound(s, tenant, step);
      case Create(user, id, dto, now) => CreateIsSound(s, t, user, id, dto, now);
      case Update(user, id, dto, now) => UpdateIsSound(s, t, user, id, dto, now);
      case Restore(user, id, now) => RestoreIsUpdate(s, user, id, now);
          UpdateIsSound(s, t, user, id, StatusOnly(DRAFT), now);
      case RestoreTo(user, id, version, now) => RestoreVersionIsSound(s, t, user, id, version, now);
      case Remove(user, id) => RemoveIsSound(s, t, user, id);
    }
  }

  lemma {:induction false} RunKeepsInv(s: Store, requests: seq<Request>)
    requires Inv(s)
    ensures Inv(Run(s, requests))
    decreases |requests|
  {
    if requests != [] {
      RequestKeepsInv(s, requests[0]);
      RunKeepsInv(After(s, requests[0]), requests[1..]);
    }
  }

  // Earlier snapshots never change: over any run that does not remove the document, its log
  // only grows at the end, and a document that was published keeps its publication date set.
  lemma {:induction false} RunOnlyAppends(s: Store, requests: seq<Request>, id: string)
    requires Inv(s) && id in s.documents
    requires forall r :: r in requests ==> !(r.Remove? && r.id == id)
    ensures Extends(s, Run(s, requests), id)
    decreases |requests|
  {
    if requests != [] {
      var t := After(s, requests[0]);
      RequestKeepsInv(s, requests[0]);
      assert requests[0] in requests;
      assert Extends(s, t, id);
      RunOnlyAppends(t, requests[1..], id);
      assert Extends(t, Run(t, requests[1..]), id);
    }
  }

  // ---------- Restoring a version ----------

  // Restoring version k appends a snapshot equal to version k and gives the document its fields.
  lemma RestoreVersionReplaysSnapshot(s: Store, t: Store, user: User, id: string, version: int, now: int)
    requires Inv(s) && RestoreVersion(s, user, id, version, now) == Ok(t)
    ensures var log := s.versions[id];
            && 1 <= version <= |log|
            && t.versions[id] == log + [log[version - 1].(version := |log| + 1, createdById := user.id)]
            && Captures(log[version - 1], t.documents[id].content)
  {
    RestoreVersionEffect(s, t, user, id, version, now);
    assert DocumentOk(s, id);
    assert Complete(s.versions[id][version - 1]);
    SavedDocument(s, id, Reverted(s.documents[id], s.versions[id][version - 1], now), user.id);
  }

  // The only ways a restore is refused to someone who may manage the document: there is no such
  // version, or a project or folder it names no longer exists.
  lemma RestoreVersionSucceedsIff(s: Store, user: User, id: string, version: int, now: int)
    requires Inv(s) && InTenant(s, user.tenantId, id) && CanManage(user, s.documents[id])
    ensures RestoreVersion(s, user, id, version, now).Ok? <==>
            && 1 <= version <= |s.versions[id]|
            && (var v := s.versions[id][version - 1];
                (v.projectId.Some? ==> v.projectId.value in s.projects)
                && (v.folderId.Some? ==> v.folderId.value in s.folders))
  {
    assert DocumentOk(s, id);
    FindVersion(s.versions[id], version);
  }

  // An update followed by restoring the version before it gives back the old content, when the
  // document's folder has not been deleted under it.
  lemma RestoreUndoesUpdate(s: Store, t: Store, user: User, id: string, dto: UpdateDto, now: int, later: int)
    requires Inv(s) && UpdateDocument(s, user, id, dto, now) == Ok(t)
    requires LatestOf(s, id)
    ensures var u := RestoreVersion(t, user, id, |s.versions[id]|, later);
            u.Ok? && u.value.documents[id].content == s.documents[id].content
  {
    UpdateStillRestorable(s, t, user, id, dto, now, later);
    var u := RestoreVersion(t, user, id, |s.versions[id]|, later).value;
    RestoreVersionReplaysSnapshot(t, u, user, id, |s.versions[id]|, later);
  }

  lemma UpdateStillRestorable(s: Store, t: Store, user: User, id: string, dto: UpdateDto, now: int, later: int)
    requires Inv(s) && UpdateDocument(s, user, id, dto, now) == Ok(t)
    requires LatestOf(s, id)
    ensures Inv(t) && RestoreVersion(t, user, id, |s.versions[id]|, later).Ok?
    ensures |t.versions[id]| > |s.versions[id]| >= 1
    ensures t.versions[id][|s.versions[id]| - 1] == s.versions[id][|s.versions[id]| - 1]
  {
    UpdateIsSound(s, t, user, id, dto, now);
    UpdateAppendsSnapshot(s, t, user, id, dto, now);
    UpdateEffect(s, t, user, id, dto, now);
    EarlierVersionRestorable(s, t, user, id, later);
  }

  lemma EarlierVersionRestorable(s: Store, t: Store, user: User, id: string, later: int)
    requires Inv(s) && Inv(t) && id in s.documents && LatestOf(s, id)
    requires InTenant(t, user.tenantId, id) && CanManage(user, t.documents[id])
    requires s.versions[id] <= t.versions[id] && t.projects == s.projects && t.folders == s.folders
    ensures RestoreVersion(t, user, id, |s.versions[id]|, later).Ok?
  {
    LatestReferencesExist(s, id);
    RestoreVersionSucceedsIff(t, user, id, |s.versions[id]|, later);
  }

  // What the latest snapshot names still exists, when it equals the document.
  lemma LatestReferencesExist(s: Store, id: string)
    requires Inv(s) && id in s.documents && LatestOf(s, id)
    ensures |s.versions[id]| >= 1
    ensures var v := s.versions[id][|s.versions[id]| - 1];
            (v.projectId.Some? ==> v.projectId.value in s.projects)
            && (v.folderId.Some? ==> v.folderId.value in s.folders)
  {
    assert DocumentOk(s, id);
  }

  // ---------- The latest snapshot and folder deletion ----------

  // Every request but the deletion of a folder keeps each latest snapshot equal to its document
  // (RequestKeepsInv). Deleting a folder keeps them equal exactly when no document lies in it; the
  // service only checks for documents that are not archived.
  lemma FolderDeletionKeepsLatestIff(s: Store, tenant: string, folder: string)
    requires Inv(s) && LatestCaptured(s) && FolderRequest(s, tenant, Folders.Delete(folder)).Ok?
    ensures LatestCaptured(FolderRequest(s, tenant, Folders.Delete(folder)).value)
       <==> !exists k :: k in s.documents && s.documents[k].content.folderId == Some(folder)
  {
    var t := FolderRequest(s, tenant, Folders.Delete(folder)).value;
    assert t.documents == DetachFolder(s.documents, folder) && t.versions == s.versions;
    DetachKeepsLatestIff(s, t, folder);
  }

  lemma DetachKeepsLatestIff(s: Store, t: Store, folder: string)
    requires LatestCaptured(s) && t.documents == DetachFolder(s.documents, folder) && t.versions == s.versions
    ensures LatestCaptured(t) <==> !exists k :: k in s.documents && s.documents[k].content.folderId == Some(folder)
  {
    if k :| k in s.documents && s.documents[k].content.folderId == Some(folder) {
      assert k in t.documents && t.documents[k].content.folderId == None;
      assert s.versions[k][|s.versions[k]| - 1].folderId == Some(folder);
    } else {
      assert forall k :: k in s.documents ==> t.documents[k] == s.documents[k];
    }
  }

  // A request that parts a document from its latest snapshot: the deletion of a folder of the
  // tenant, without active children or documents, in which some document lies.
  ghost predicate Parts(s: Store, r: Request) {
    && r.OnFolder? && r.step.Delete?
    && Folders.Visible(s.folders, r.tenant, r.step.id, true)
    && !Folders.HasActiveChild(s.folders, r.tenant, r.step.id) && !HasActiveDocument(s, r.tenant, r.step.id)
    && exists k :: k in s.documents && s.documents[k].content.folderId == Some(r.step.id)
  }

  lemma DeletionIsAcceptedIff(s: Store, tenant: string, folder: string)
    ensures FolderRequest(s, tenant, Folders.Delete(folder)).Ok? <==>
              Folders.Visible(s.folders, tenant, folder, true)
              && !Folders.HasActiveChild(s.folders, tenant, folder) && !HasActiveDocument(s, tenant, folder)
  {
  }

  lemma DeletionKeepsLatestIff(s: Store, tenant: string, folder: string)
    requires Inv(s) && LatestCaptured(s)
    ensures LatestCaptured(After(s, OnFolder(tenant, Folders.Delete(folder))))
       <==> !Parts(s, OnFolder(tenant, Folders.Delete(folder)))
  {
    DeletionIsAcceptedIff(s, tenant, folder);
    if FolderRequest(s, tenant, Folders.Delete(folder)).Ok? {
      FolderDeletionKeepsLatestIff(s, tenant, folder);
    }
  }

  // Exactly these requests part a document from its latest snapshot.
  lemma RequestKeepsLatestIff(s: Store, r: Request)
    requires Inv(s) && LatestCaptured(s)
    ensures LatestCaptured(After(s, r)) <==> !Parts(s, r)
  {
    if r.OnFolder? && r.step.Delete? {
      DeletionKeepsLatestIff(s, r.tenant, r.step.id);
    } else {
      RequestKeepsInv(s, r);
    }
  }

  ghost predicate NoneParts(s: Store, requests: seq<Request>)
    decreases |requests|
  {
    requests == [] || (!Parts(s, requests[0]) && NoneParts(After(s, requests[0]), requests[1..]))
  }

  // Over any run in which no such deletion occurs, each latest snapshot equals its document.
  lemma {:induction false} RunKeepsLatest(s: Store, requests: seq<Request>)
    requires Inv(s) && LatestCaptured(s) && NoneParts(s, requests)
    ensures LatestCaptured(Run(s, requests))
    decreases |requests|
  {
    if requests != [] {
      RequestKeepsInv(s, requests[0]);
      RequestKeepsLatestIff(s, requests[0]);
      RunKeepsLatest(After(s, requests[0]), requests[1..]);
    }
  }

  // An instance: a folder that holds one archived document. Deleting it is accepted, and the
  // document's latest snapshot still names it.
  lemma FolderDeletionExample() returns (s: Store, t: Store)
    ensures Inv(s) && LatestCaptured(s)
    ensures FolderRequest(s, "t", Folders.Delete("f")) == Ok(t) && !LatestCaptured(t)
  {
    var content := Content("title", None, None, TEAM, ARCHIVED, None, Some("f"), None);
    var folders: Folders.FolderTable := map["f" := Folders.Folder("t", None, "F", None)];
    s := Store(folders, map[], map["d" := Document("t", None, None, content, None, Some(0))],
               map["d" := [SnapshotOf(content, 1, "u")]]);
    assert Folders.EndsWithin(folders, "t", Some("f"), 2);
    assert DocumentOk(s, "d") && LatestOf(s, "d");
    t := FolderRequest(s, "t", Folders.Delete("f")).value;
    assert s.documents["d"].content.folderId == Some("f");
    FolderDeletionKeepsLatestIff(s, "t", "f");
  }
}
