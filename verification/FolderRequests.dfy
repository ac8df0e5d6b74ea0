// What a folder request leaves (src/documents/documents.service.ts): when it is accepted, where it
// puts the folder, and that it touches no other.
module FolderRequests {
  import opened Seqs
  import opened Folders

  // A folder of the tenant that is not archived.
  predicate IsLive(fs: FolderTable, tenant: string, id: string) {
    id in fs && fs[id].tenantId == tenant && fs[id].archivedAt.None?
  }

  predicate IsOwn(fs: FolderTable, tenant: string, id: string) {
    id in fs && fs[id].tenantId == tenant
  }

  // Another folder of the tenant stands under the parent with the name.
  ghost predicate IsTaken(fs: FolderTable, tenant: string, parent: Option<string>, name: string, id: string) {
    exists k :: k in fs && k != id && fs[k].tenantId == tenant && fs[k].parentId == parent && fs[k].name == name
  }

  // Every folder but one is as it was.
  ghost predicate OthersStay(fs: FolderTable, gs: FolderTable, id: string) {
    forall k :: k != id ==> (k in gs <==> k in fs) && (k in fs ==> gs[k] == fs[k])
  }

  // ---------- Create ----------

  // A folder is created exactly under no parent or a live one of the tenant, when no sibling has
  // its name and its id is new.
  lemma CreateIsAcceptedIff(fs: FolderTable, tenant: string, id: string, parent: Option<string>, name: string)
    requires Forest(fs) && id !in fs && id != ""
    ensures CreateFolder(fs, tenant, id, parent, name).Ok? <==>
              && (parent.Some? ==> IsLive(fs, tenant, parent.value)) && !IsTaken(fs, tenant, parent, name, id)
  {
    assert NameFree(fs, tenant, parent, name, None) <==> !IsTaken(fs, tenant, parent, name, id);
  }

  lemma CreateLeaves(fs: FolderTable, tenant: string, id: string, parent: Option<string>, name: string, gs: FolderTable)
    requires CreateFolder(fs, tenant, id, parent, name) == Ok(gs)
    ensures id !in fs && id in gs && OthersStay(fs, gs, id)
    ensures gs[id].tenantId == tenant && gs[id].parentId == parent && gs[id].name == name && gs[id].archivedAt.None?
  {
  }

  // ---------- Update ----------

  function ParentSent(fs: FolderTable, id: string, sent: Patch<string>): Option<string>
    requires id in fs
  {
    match sent
    case Keep => fs[id].parentId
    case Clear => None
    case Put(value) => Some(value)
  }

  function NameSent(fs: FolderTable, id: string, sent: Option<string>): string
    requires id in fs
  {
    if sent.Some? then sent.value else fs[id].name
  }

  // An update of a live folder is accepted exactly when the new parent, if one is sent, is a live
  // folder of the tenant whose chain has fewer than 50 folders and not this one, and no sibling
  // has the name, unless neither a name nor a parent is sent.
  lemma UpdateIsAcceptedIff(fs: FolderTable, tenant: string, id: string, parent: Patch<string>, name: Option<string>)
    requires Forest(fs)
    ensures UpdateFolder(fs, tenant, id, parent, name).Ok? <==>
              && IsLive(fs, tenant, id)
              && (parent.Put? ==>
                    IsLive(fs, tenant, parent.value)
                    && id !in Chain(fs, parent.value) && |Chain(fs, parent.value)| < 50)
              && ((name.Some? && name.value != "") || !parent.Keep? ==>
                    !IsTaken(fs, tenant, ParentSent(fs, id, parent), NameSent(fs, id, name), id))
  {
    if IsLive(fs, tenant, id) {
      assert NameFree(fs, tenant, ParentSent(fs, id, parent), NameSent(fs, id, name), Some(id))
        <==> !IsTaken(fs, tenant, ParentSent(fs, id, parent), NameSent(fs, id, name), id);
      if parent.Put? && IsLive(fs, tenant, parent.value) {
        MoveCheckIsExact(fs, id, parent.value);
        ChainStep(fs, parent.value);
      }
    }
  }

  // An accepted update gives the folder the parent and the name that are sent, keeps what is not,
  // and touches no other folder.
  lemma UpdateLeaves(fs: FolderTable, tenant: string, id: string, parent: Patch<string>, name: Option<string>,
                     gs: FolderTable)
    requires UpdateFolder(fs, tenant, id, parent, name) == Ok(gs)
    ensures id in fs && id in gs && OthersStay(fs, gs, id)
    ensures Patches(parent, fs[id].parentId, gs[id].parentId)
    ensures gs[id].name == if name.Some? then name.value else fs[id].name
    ensures gs[id].tenantId == fs[id].tenantId && gs[id].archivedAt == fs[id].archivedAt
  {
  }

  // After a move the folder's chain is itself and then the chain its new parent had and has.
  lemma MoveJoinsChains(fs: FolderTable, tenant: string, id: string, parent: string, name: Option<string>,
                        gs: FolderTable)
    requires Forest(fs) && UpdateFolder(fs, tenant, id, Put(parent), name) == Ok(gs)
    ensures Forest(gs) && id in gs && parent in gs && parent in fs
    ensures Chain(gs, parent) == Chain(fs, parent) && Chain(gs, id) == [id] + Chain(fs, parent)
  {
    UpdateKeepsForest(fs, tenant, id, Put(parent), name);
    UpdateLeaves(fs, tenant, id, Put(parent), name, gs);
    MoveCheckIsExact(fs, id, parent);
    ChainStep(gs, id);
    var n: nat :| EndsWithin(fs, tenant, Some(parent), n);
    ChainIsAnyEndedWalk(fs, parent, n);
    WalkUnchanged(fs, gs, tenant, Some(parent), n, id);
    ChainIsAnyEndedWalk(gs, parent, n);
  }

  // A folder that is made a root is its own chain.
  lemma RootIsItsChain(fs: FolderTable, tenant: string, id: string, name: Option<string>, gs: FolderTable)
    requires Forest(fs) && UpdateFolder(fs, tenant, id, Clear, name) == Ok(gs)
    ensures Forest(gs) && id in gs && Chain(gs, id) == [id]
  {
    UpdateKeepsForest(fs, tenant, id, Clear, name);
    ChainStep(gs, id);
  }

  // ---------- Archive, restore, delete ----------

  lemma ArchiveLeaves(fs: FolderTable, tenant: string, id: string, now: int)
    ensures ArchiveFolder(fs, tenant, id, now).Ok? <==> IsLive(fs, tenant, id)
    ensures ArchiveFolder(fs, tenant, id, now).Ok? ==>
              var gs := ArchiveFolder(fs, tenant, id, now).value;
              && id in gs && OthersStay(fs, gs, id) && gs[id].archivedAt == Some(now)
              && gs[id].tenantId == fs[id].tenantId && gs[id].parentId == fs[id].parentId && gs[id].name == fs[id].name
  {
  }

  lemma RestoreLeaves(fs: FolderTable, tenant: string, id: string)
    ensures RestoreFolder(fs, tenant, id).Ok? <==> IsOwn(fs, tenant, id)
    ensures RestoreFolder(fs, tenant, id).Ok? ==>
              var gs := RestoreFolder(fs, tenant, id).value;
              && id in gs && OthersStay(fs, gs, id) && gs[id].archivedAt.None?
              && gs[id].tenantId == fs[id].tenantId && gs[id].parentId == fs[id].parentId && gs[id].name == fs[id].name
  {
  }

  // A folder without live children and documents is deleted, and its children become roots; every
  // other folder stays.
  lemma DeleteLeaves(fs: FolderTable, tenant: string, id: string, hasActiveDocument: bool, k: string)
    ensures DeleteFolder(fs, tenant, id, hasActiveDocument).Ok? <==>
              && IsOwn(fs, tenant, id) && !hasActiveDocument
              && !exists c :: c in fs && fs[c].parentId == Some(id) && IsLive(fs, tenant, c)
    ensures DeleteFolder(fs, tenant, id, hasActiveDocument).Ok? ==>
              var gs := DeleteFolder(fs, tenant, id, hasActiveDocument).value;
              && (k in gs <==> k in fs && k != id)
              && (k in gs && fs[k].parentId != Some(id) ==> gs[k] == fs[k])
              && (k in gs && fs[k].parentId == Some(id) ==>
                    gs[k].parentId.None? && gs[k].tenantId == fs[k].tenantId && gs[k].name == fs[k].name
                    && gs[k].archivedAt == fs[k].archivedAt)
  {
    assert HasActiveChild(fs, tenant, id) <==>
      exists c :: c in fs && fs[c].parentId == Some(id) && IsLive(fs, tenant, c);
  }
}
