// DocumentsService (src/documents/documents.service.ts): the tables as fields, and each request
// as a method that updates them step by step, proved to have the effect Documents states.
module DocumentsService {
  import opened Seqs
  import opened Users
  import F = Folders
  import D = Documents

  // What the caller sees of a response.
  function Seen(result: Result<D.Store, D.Error>): Result<(), D.Error> {
    if result.Ok? then Ok(()) else Err(result.error)
  }

  class Service {
    var folders: F.FolderTable
    var projects: map<string, string>
    var documents: map<string, D.Document>
    var versions: map<string, seq<D.Snapshot>>

    function State(): D.Store
      reads this
    {
      D.Store(folders, projects, documents, versions)
    }

    // The loop of assertFolderMoveDoesNotCreateCycle: walk up from the new parent, at most
    // limit folders.
    method WalkUp(tenant: string, folderId: string, parentId: string, limit: nat) returns (r: Result<(), F.Error>)
      ensures r == F.CheckMoveWithin(folders, tenant, folderId, parentId, limit)
    {
      var currentParentId: Option<string> := Some(parentId);
      var depth: nat := 0;
      ghost var visited: seq<string> := [];
      while Given(currentParentId) && depth < limit
        invariant depth <= limit && |visited| == depth && folderId !in visited
        invariant F.Walk(folders, tenant, Some(parentId), limit)
               == visited + F.Walk(folders, tenant, currentParentId, limit - depth)
        decreases limit - depth
      {
        if currentParentId.value == folderId {
          return Err(F.MoveCreatesCycle);
        }
        visited := visited + [currentParentId.value];
        currentParentId := F.ParentOf(folders, tenant, currentParentId.value);
        depth := depth + 1;
      }
      if depth >= limit {
        return Err(F.HierarchyTooDeep);
      }
      return Ok(());
    }

    method CheckMove(tenant: string, folderId: string, parentId: string) returns (r: Result<(), F.Error>)
      ensures r == F.CheckMove(folders, tenant, folderId, parentId)
    {
      r := WalkUp(tenant, folderId, parentId, F.MAX_WALK);
    }

    method CreateFolder(tenant: string, id: string, parentId: Option<string>,
                        name: string) returns (r: Result<(), D.Error>)
      modifies this
      ensures var request := D.OnFolder(tenant, F.Create(id, parentId, name));
              State() == D.After(old(State()), request) && r == Seen(D.Respond(old(State()), request))
    {
      if Given(parentId) && !F.Visible(folders, tenant, parentId.value, false) {
        return Err(D.FolderError(F.FolderNotFound));
      }
      if !F.NameFree(folders, tenant, parentId, name, None) {
        return Err(D.FolderError(F.NameTaken));
      }
      if parentId.Some? && parentId.value !in folders {
        return Err(D.FolderError(F.ForeignKeyViolation));
      }
      if id in folders || id == "" {
        return Err(D.FolderError(F.DuplicateKey));
      }
      folders := folders[id := F.Folder(tenant, parentId, name, None)];
      return Ok(());
    }

    method UpdateFolder(tenant: string, id: string, parent: Patch<string>,
                        name: Option<string>) returns (r: Result<(), D.Error>)
      modifies this
      ensures var request := D.OnFolder(tenant, F.Update(id, parent, name));
              State() == D.After(old(State()), request) && r == Seen(D.Respond(old(State()), request))
    {
      if !F.Visible(folders, tenant, id, false) {
        return Err(D.FolderError(F.FolderNotFound));
      }
      var before := folders[id];
      if parent.Put? && parent.value != "" {
        if parent.value == id {
          return Err(D.FolderError(F.OwnParent));
        }
        if !F.Visible(folders, tenant, parent.value, false) {
          return Err(D.FolderError(F.FolderNotFound));
        }
        var check := CheckMove(tenant, id, parent.value);
        if check.Err? {
          return Err(D.FolderError(check.error));
        }
      }
      var nextParentId := parent.Apply(before.parentId);
      var nextName := name.GetOr(before.name);
      if Given(name) || !parent.Keep? {
        if !F.NameFree(folders, tenant, nextParentId, nextName, Some(id)) {
          return Err(D.FolderError(F.NameTaken));
        }
      }
      if parent.Put? && parent.value !in folders {
        return Err(D.FolderError(F.ForeignKeyViolation));
      }
      folders := folders[id := before.(parentId := nextParentId, name := nextName)];
      return Ok(());
    }

    method ArchiveFolder(tenant: string, id: string, now: int) returns (r: Result<(), D.Error>)
      modifies this
      ensures var request := D.OnFolder(tenant, F.Archive(id, now));
              State() == D.After(old(State()), request) && r == Seen(D.Respond(old(State()), request))
    {
      if !F.Visible(folders, tenant, id, false) {
        return Err(D.FolderError(F.FolderNotFound));
      }
      folders := folders[id := folders[id].(archivedAt := Some(now))];
      return Ok(());
    }

    method RestoreFolder(tenant: string, id: string) returns (r: Result<(), D.Error>)
      modifies this
      ensures var request := D.OnFolder(tenant, F.Restore(id));
              State() == D.After(old(State()), request) && r == Seen(D.Respond(old(State()), request))
    {
      if !F.Visible(folders, tenant, id, true) {
        return Err(D.FolderError(F.FolderNotFound));
      }
      folders := folders[id := folders[id].(archivedAt := None)];
      return Ok(());
    }

    method DeleteFolder(tenant: string, id: string) returns (r: Result<(), D.Error>)
      modifies this
      ensures var request := D.OnFolder(tenant, F.Delete(id));
              State() == D.After(old(State()), request) && r == Seen(D.Respond(old(State()), request))
    {
      if !F.Visible(folders, tenant, id, true) {
        return Err(D.FolderError(F.FolderNotFound));
      }
      if F.HasActiveChild(folders, tenant, id) || D.HasActiveDocument(State(), tenant, id) {
        return Err(D.FolderError(F.NotEmpty));
      }
      folders := F.RemoveFolder(folders, id);
      documents := D.DetachFolder(documents, id);
      return Ok(());
    }

    // The write of a document row and of the snapshot that goes with it.
    method SaveWithVersion(id: string, document: D.Document, userId: string)
      modifies this
      ensures State() == D.SaveWithVersion(old(State()), id, document, userId)
    {
      documents := documents[id := document];
      var log := if id in versions then versions[id] else [];
      var nextVersion := D.MaxVersion(log) + 1;
      versions := versions[id := log + [D.SnapshotOf(documents[id].content, nextVersion, userId)]];
    }

    method CreateDocument(user: User, id: string, dto: D.CreateDto, now: int) returns (r: Result<(), D.Error>)
      modifies this
      ensures var request := D.Request.Create(user, id, dto, now);
              State() == D.After(old(State()), request) && r == Seen(D.Respond(old(State()), request))
    {
      var targets := D.CheckTargets(State(), user.tenantId, dto.projectId, dto.folderId);
      if targets.Err? {
        return targets;
      }
      if dto.slug.Some? && !D.SlugFree(State(), user.tenantId, dto.slug.value, id) {
        return Err(D.SlugTaken);
      }
      var content := D.Content(dto.title, dto.body, dto.summary, dto.visibility.GetOr(TEAM), dto.status.GetOr(D.DRAFT),
                               dto.projectId, dto.folderId, dto.tags);
      if !D.ReferencesExist(State(), content) {
        return Err(D.ForeignKeyViolation);
      }
      if id in documents {
        return Err(D.DuplicateKey);
      }
      var publishedAt := if dto.status == Some(D.PUBLISHED) then Some(now) else None;
      var archivedAt := if dto.status == Some(D.ARCHIVED) then Some(now) else None;
      SaveWithVersion(id, D.Document(user.tenantId, dto.slug, Some(user.id), content, publishedAt, archivedAt),
                      user.id);
      return Ok(());
    }

    method UpdateDocument(user: User, id: string, dto: D.UpdateDto, now: int) returns (r: Result<(), D.Error>)
      modifies this
      ensures var request := D.Request.Update(user, id, dto, now);
              State() == D.After(old(State()), request) && r == Seen(D.Respond(old(State()), request))
    {
      if !D.InTenant(State(), user.tenantId, id) {
        return Err(D.NotFound);
      }
      var before := documents[id];
      if !D.CanManage(user, before) {
        return Err(D.Forbidden);
      }
      var targets := D.CheckTargets(State(), user.tenantId, D.Sent(dto.projectId), D.Sent(dto.folderId));
      if targets.Err? {
        return targets;
      }
      if dto.slug.Put? && Some(dto.slug.value) != before.slug {
        if !D.SlugFree(State(), user.tenantId, dto.slug.value, id) {
          return Err(D.SlugTaken);
        }
      }
      var updated := D.Updated(before, dto, now);
      if !D.ReferencesExist(State(), updated.content) {
        return Err(D.ForeignKeyViolation);
      }
      SaveWithVersion(id, updated, user.id);
      return Ok(());
    }

    method PublishDocument(user: User, id: string, now: int) returns (r: Result<(), D.Error>)
      modifies this
      ensures var request := D.Request.Update(user, id, D.StatusOnly(D.PUBLISHED), now);
              State() == D.After(old(State()), request) && r == Seen(D.Respond(old(State()), request))
      ensures r.Ok? ==> id in documents && documents[id].content.status == D.PUBLISHED
      ensures r.Ok? ==> documents[id].publishedAt.Some?
    {
      r := UpdateDocument(user, id, D.StatusOnly(D.PUBLISHED), now);
    }

    method ArchiveDocument(user: User, id: string, now: int) returns (r: Result<(), D.Error>)
      modifies this
      ensures var request := D.Request.Update(user, id, D.StatusOnly(D.ARCHIVED), now);
              State() == D.After(old(State()), request) && r == Seen(D.Respond(old(State()), request))
      ensures r.Ok? ==> id in documents && documents[id].content.status == D.ARCHIVED
      ensures r.Ok? ==> documents[id].archivedAt == Some(now)
    {
      r := UpdateDocument(user, id, D.StatusOnly(D.ARCHIVED), now);
    }

    method RestoreDocument(user: User, id: string, now: int) returns (r: Result<(), D.Error>)
      modifies this
      ensures var request := D.Request.Restore(user, id, now);
              State() == D.After(old(State()), request) && r == Seen(D.Respond(old(State()), request))
    {
      r := UpdateDocument(user, id, D.StatusOnly(D.DRAFT), now);
      if r.Ok? {
        documents := documents[id := documents[id].(archivedAt := None)];
      }
    }

    method RestoreVersion(user: User, id: string, version: int, now: int) returns (r: Result<(), D.Error>)
      modifies this
      ensures var request := D.Request.RestoreTo(user, id, version, now);
              State() == D.After(old(State()), request) && r == Seen(D.Respond(old(State()), request))
    {
      if !D.InTenant(State(), user.tenantId, id) {
        return Err(D.NotFound);
      }
      var document := documents[id];
      if !D.CanManage(user, document) || !D.CanRead(user, document) {
        return Err(D.Forbidden);
      }
      var snapshot := FindFirst(D.LogOf(State(), id), D.HasVersion(version));
      if snapshot.None? {
        return Err(D.VersionNotFound);
      }
      var reverted := D.Reverted(document, snapshot.value, now);
      if !D.ReferencesExist(State(), reverted.content) {
        return Err(D.ForeignKeyViolation);
      }
      SaveWithVersion(id, reverted, user.id);
      return Ok(());
    }

    method HardDeleteDocument(user: User, id: string) returns (r: Result<(), D.Error>)
      modifies this
      ensures var request := D.Request.Remove(user, id);
              State() == D.After(old(State()), request) && r == Seen(D.Respond(old(State()), request))
    {
      if !D.InTenant(State(), user.tenantId, id) {
        return Err(D.NotFound);
      }
      if !D.CanManage(user, documents[id]) {
        return Err(D.Forbidden);
      }
      documents := documents - {id};
      versions := versions - {id};
      return Ok(());
    }
  }
}
