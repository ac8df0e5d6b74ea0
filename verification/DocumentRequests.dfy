// What a document request leaves (src/documents/documents.service.ts): when it is accepted, the
// document it leaves field by field, and that it touches no other document and no other log.
module DocumentRequests {
  import opened Seqs
  import opened Users
  import opened Documents
  import Folders

  // The author, or one who manages all projects.
  predicate Manages(user: User, d: Document) {
    || "manage:all" in user.permissions || "manage:projects" in user.permissions
    || d.createdById == Some(user.id)
  }

  predicate IsOwn(s: Store, tenant: string, id: string) {
    id in s.documents && s.documents[id].tenantId == tenant
  }

  // A project a document may be put in: it exists and, unless the id is empty, is the tenant's.
  predicate IsProject(s: Store, tenant: string, id: string) {
    id in s.projects && (id != "" ==> s.projects[id] == tenant)
  }

  // A folder a document may be put in: a live one of the tenant.
  predicate IsFolder(s: Store, tenant: string, id: string) {
    id in s.folders && s.folders[id].tenantId == tenant && s.folders[id].archivedAt.None?
  }

  // Another document of the tenant has the slug.
  ghost predicate SlugIsTaken(s: Store, tenant: string, slug: string, id: string) {
    exists k :: k in s.documents && k != id && s.documents[k].tenantId == tenant && s.documents[k].slug == Some(slug)
  }

  // Nothing but one document and its log has changed.
  ghost predicate OthersStay(s: Store, t: Store, id: string) {
    && t.folders == s.folders && t.projects == s.projects
    && (forall k :: k != id ==>
          && (k in t.documents <==> k in s.documents) && (k in s.documents ==> t.documents[k] == s.documents[k])
          && (k in t.versions <==> k in s.versions) && (k in s.versions ==> t.versions[k] == s.versions[k]))
  }

  // The snapshot shows the document.
  predicate Shows(v: Snapshot, d: Document, version: int, author: string) {
    && v.version == version && v.createdById == author
    && v.title == Some(d.content.title) && v.body == d.content.body && v.summary == d.content.summary
    && v.visibility == Some(d.content.visibility) && v.status == Some(d.content.status)
    && v.projectId == d.content.projectId && v.folderId == d.content.folderId && v.tags == d.content.tags
  }

  // ---------- Update ----------

  // A project or a folder that is sent, if it is to be put, may be used.
  predicate TargetsExist(s: Store, tenant: string, project: Option<string>, folder: Option<string>) {
    (project.Some? ==> IsProject(s, tenant, project.value)) && (folder.Some? ==> IsFolder(s, tenant, folder.value))
  }

  function PutOf(sent: Patch<string>): Option<string> {
    match sent
    case Put(value) => Some(value)
    case _ => None
  }

  // An update is accepted exactly for one who manages the document, with a project and a folder
  // that may be used and a slug that is its own or free.
  lemma UpdateIsAcceptedIff(s: Store, user: User, id: string, dto: UpdateDto, now: int)
    requires Inv(s)
    ensures UpdateDocument(s, user, id, dto, now).Ok? <==>
              && IsOwn(s, user.tenantId, id) && Manages(user, s.documents[id])
              && TargetsExist(s, user.tenantId, PutOf(dto.projectId), PutOf(dto.folderId))
              && (dto.slug.Put? && Some(dto.slug.value) != s.documents[id].slug ==>
                    !SlugIsTaken(s, user.tenantId, dto.slug.value, id))
  {
    ManagesIff(user, if id in s.documents then s.documents[id] else Nobodys());
    if IsOwn(s, user.tenantId, id) {
      TargetsIff(s, user.tenantId, s.documents[id], id, dto, now);
      if dto.slug.Put? {
        SlugIff(s, user.tenantId, dto.slug.value, id);
      }
    }
  }

  lemma TargetsIff(s: Store, tenant: string, d: Document, id: string, dto: UpdateDto, now: int)
    requires Inv(s) && id in s.documents && d == s.documents[id]
    ensures CheckTargets(s, tenant, Documents.Sent(dto.projectId), Documents.Sent(dto.folderId)).Ok?
            && ReferencesExist(s, Updated(d, dto, now).content)
       <==> TargetsExist(s, tenant, PutOf(dto.projectId), PutOf(dto.folderId))
  {
    var e := Updated(d, dto, now).content;
    assert DocumentOk(s, id);
    assert e.projectId == dto.projectId.Apply(d.content.projectId);
    assert e.folderId == dto.folderId.Apply(d.content.folderId);
  }

  function Nobodys(): Document {
    Document("", None, None, Content("", None, None, TEAM, DRAFT, None, None, None), None, None)
  }

  lemma ManagesIff(user: User, d: Document)
    ensures CanManage(user, d) <==> Manages(user, d)
  {
    assert "manage:all" in {"manage:all", "manage:projects"} && "manage:projects" in {"manage:all", "manage:projects"};
  }

  lemma SlugIff(s: Store, tenant: string, slug: string, id: string)
    ensures SlugFree(s, tenant, slug, id) <==> !SlugIsTaken(s, tenant, slug, id)
  {
  }

  // What an update makes of a document: what is sent replaces what was there, null clears it and
  // what is left out stays; the first publication is dated, archiving is, and any other status
  // ends it.
  predicate Updates(d: Document, dto: UpdateDto, now: int, e: Document) {
    && e.tenantId == d.tenantId && e.createdById == d.createdById && Patches(dto.slug, d.slug, e.slug)
    && Replaces(dto.title, d.content.title, e.content.title) && Patches(dto.body, d.content.body, e.content.body)
    && Patches(dto.summary, d.content.summary, e.content.summary)
    && Replaces(dto.visibility, d.content.visibility, e.content.visibility)
    && Replaces(dto.status, d.content.status, e.content.status)
    && Patches(dto.projectId, d.content.projectId, e.content.projectId)
    && Patches(dto.folderId, d.content.folderId, e.content.folderId)
    && e.content.tags == (if dto.tags.Some? then dto.tags else d.content.tags)
    && e.publishedAt == (if dto.status == Some(PUBLISHED) && d.publishedAt.None? then Some(now) else d.publishedAt)
    && e.archivedAt == (if dto.status == Some(ARCHIVED) then Some(now)
                        else if dto.status.Some? then None else d.archivedAt)
  }

  lemma PatchUpdates(d: Document, dto: UpdateDto, now: int)
    ensures Updates(d, dto, now, Updated(d, dto, now))
  {
  }

  // An accepted update leaves the document so, one more snapshot that shows it, and all else as it
  // was.
  lemma UpdateLeaves(s: Store, t: Store, user: User, id: string, dto: UpdateDto, now: int)
    requires Inv(s) && UpdateDocument(s, user, id, dto, now) == Ok(t)
    ensures id in s.documents && id in t.documents && id in s.versions && id in t.versions
    ensures Updates(s.documents[id], dto, now, t.documents[id]) && OthersStay(s, t, id)
    ensures var log := s.versions[id];
            && |t.versions[id]| == |log| + 1 && log <= t.versions[id]
            && Shows(t.versions[id][|log|], t.documents[id], |log| + 1, user.id)
  {
    UpdateEffect(s, t, user, id, dto, now);
    PatchUpdates(s.documents[id], dto, now);
    assert DocumentOk(s, id);
    SavedDocument(s, id, Updated(s.documents[id], dto, now), user.id);
  }

  // Publishing and archiving send a status and nothing else.
  lemma StatusLeaves(s: Store, t: Store, user: User, id: string, status: Status, now: int)
    requires Inv(s) && UpdateDocument(s, user, id, StatusOnly(status), now) == Ok(t)
    ensures id in s.documents && id in t.documents && OthersStay(s, t, id)
    ensures var d, e := s.documents[id], t.documents[id];
            && e.tenantId == d.tenantId && e.createdById == d.createdById && e.slug == d.slug
            && e.content == d.content.(status := status)
            && e.publishedAt == (if status == PUBLISHED && d.publishedAt.None? then Some(now) else d.publishedAt)
            && e.archivedAt == if status == ARCHIVED then Some(now) else None
  {
    UpdateLeaves(s, t, user, id, StatusOnly(status), now);
  }

  // Restoring a document makes it a draft that is not archived.
  lemma RestoreLeaves(s: Store, t: Store, user: User, id: string, now: int)
    requires Inv(s) && RestoreDocument(s, user, id, now) == Ok(t)
    ensures id in s.documents && id in t.documents && OthersStay(s, t, id)
    ensures var d := s.documents[id];
            t.documents[id] == d.(content := d.content.(status := DRAFT), archivedAt := None)
  {
    RestoreIsUpdate(s, user, id, now);
    StatusLeaves(s, t, user, id, DRAFT, now);
  }

  // ---------- Create ----------

  lemma CreateIsAcceptedIff(s: Store, user: User, id: string, dto: CreateDto, now: int)
    requires Inv(s) && id !in s.documents
    ensures CreateDocument(s, user, id, dto, now).Ok? <==>
              && TargetsExist(s, user.tenantId, dto.projectId, dto.folderId)
              && (dto.slug.Some? ==> !SlugIsTaken(s, user.tenantId, dto.slug.value, id))
  {
    if dto.slug.Some? {
      SlugIff(s, user.tenantId, dto.slug.value, id);
    }
  }

  // A new document has what is sent, and otherwise is a draft for the team; it is the user's, and
  // its first version shows it.
  lemma CreateLeaves(s: Store, t: Store, user: User, id: string, dto: CreateDto, now: int)
    requires Inv(s) && CreateDocument(s, user, id, dto, now) == Ok(t)
    ensures id !in s.documents && id in t.documents && id in t.versions && OthersStay(s, t, id)
    ensures var e := t.documents[id];
            && e.tenantId == user.tenantId && e.createdById == Some(user.id) && e.slug == dto.slug
            && e.content.title == dto.title && e.content.body == dto.body && e.content.summary == dto.summary
            && Replaces(dto.visibility, TEAM, e.content.visibility) && Replaces(dto.status, DRAFT, e.content.status)
            && e.content.projectId == dto.projectId && e.content.folderId == dto.folderId && e.content.tags == dto.tags
            && e.publishedAt == (if dto.status == Some(PUBLISHED) then Some(now) else None)
            && e.archivedAt == (if dto.status == Some(ARCHIVED) then Some(now) else None)
            && |t.versions[id]| == 1 && Shows(t.versions[id][0], e, 1, user.id)
  {
    assert id !in s.versions;
  }

  // ---------- Restoring a version, removing ----------

  // Restoring a version gives the document what the version shows, archives it or not as the
  // version was, dates a publication, and keeps the rest.
  lemma RestoreVersionLeaves(s: Store, t: Store, user: User, id: string, version: int, now: int)
    requires Inv(s) && RestoreVersion(s, user, id, version, now) == Ok(t)
    ensures id in s.documents && id in t.documents && id in s.versions && id in t.versions && OthersStay(s, t, id)
    ensures 1 <= version <= |s.versions[id]|
    ensures var d, e, v := s.documents[id], t.documents[id], s.versions[id][version - 1];
            && Some(e.content.title) == v.title && e.content.body == v.body && e.content.summary == v.summary
            && Some(e.content.visibility) == v.visibility && Some(e.content.status) == v.status
            && e.content.projectId == v.projectId && e.content.folderId == v.folderId && e.content.tags == v.tags
            && e.tenantId == d.tenantId && e.createdById == d.createdById && e.slug == d.slug
            && e.publishedAt == (if e.content.status == PUBLISHED then Some(now) else d.publishedAt)
            && e.archivedAt == (if e.content.status == ARCHIVED then Some(now) else None)
    ensures var log := s.versions[id];
            && |t.versions[id]| == |log| + 1 && log <= t.versions[id]
            && Shows(t.versions[id][|log|], t.documents[id], |log| + 1, user.id)
  {
    RestoreVersionEffect(s, t, user, id, version, now);
    assert DocumentOk(s, id);
    assert Complete(s.versions[id][version - 1]);
    SavedDocument(s, id, Reverted(s.documents[id], s.versions[id][version - 1], now), user.id);
  }

  lemma RestoreVersionIsForManagers(s: Store, user: User, id: string, version: int, now: int)
    ensures RestoreVersion(s, user, id, version, now).Ok? ==>
              IsOwn(s, user.tenantId, id) && Manages(user, s.documents[id])
  {
    ManagesIff(user, if id in s.documents then s.documents[id] else Nobodys());
  }

  // A document is removed with its log exactly by one who manages it.
  lemma RemoveLeaves(s: Store, user: User, id: string)
    ensures HardDelete(s, user, id).Ok? <==> IsOwn(s, user.tenantId, id) && Manages(user, s.documents[id])
    ensures HardDelete(s, user, id).Ok? ==>
              var t := HardDelete(s, user, id).value;
              OthersStay(s, t, id) && id !in t.documents && id !in t.versions
  {
    ManagesIff(user, if id in s.documents then s.documents[id] else Nobodys());
  }

  // ---------- Folders ----------

  // A document of the tenant that is not archived lies in the folder.
  ghost predicate HoldsLive(s: Store, tenant: string, folder: string) {
    exists k :: k in s.documents && s.documents[k].tenantId == tenant && s.documents[k].archivedAt.None?
      && s.documents[k].content.folderId == Some(folder)
  }

  // A folder request does to the folders what it does there; a deletion asks that no live document
  // lies in the folder and takes the others out of it, and nothing else of any document changes.
  lemma FolderRequestLeaves(s: Store, tenant: string, step: Folders.FolderStep, k: string)
    ensures var result := FolderRequest(s, tenant, step);
            var folders := Folders.ApplyFolderStep(s.folders, tenant, step,
                                                   step.Delete? && HoldsLive(s, tenant, step.id));
            && (result.Ok? <==> folders.Ok?)
            && (result.Ok? ==>
                  && result.value.folders == folders.value && result.value.projects == s.projects
                  && result.value.versions == s.versions && (k in result.value.documents <==> k in s.documents)
                  && (k in s.documents ==>
                        result.value.documents[k] ==
                        if step.Delete? && s.documents[k].content.folderId == Some(step.id)
                        then s.documents[k].(content := s.documents[k].content.(folderId := None))
                        else s.documents[k]))
  {
    if step.Delete? {
      assert HasActiveDocument(s, tenant, step.id) <==> HoldsLive(s, tenant, step.id);
    }
  }
}
