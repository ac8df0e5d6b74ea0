// Document folders (src/documents/documents.service.ts): create, update, archive, restore
// and delete as functions on the folder table, and the proof that the table stays a forest.
module Folders {
  import opened Seqs

  datatype Folder = Folder(tenantId: string, parentId: Option<string>, name: string, archivedAt: Option<int>)

  type FolderTable = map<string, Folder>

  datatype Error =
    | FolderNotFound | OwnParent | MoveCreatesCycle | HierarchyTooDeep
    | NameTaken | NotEmpty | ForeignKeyViolation | DuplicateKey

  const MAX_WALK: nat := 50

  // getFolderOrThrow: the folder exists in the tenant and, unless asked for, is not archived.
  predicate Visible(fs: FolderTable, tenant: string, id: string, includeArchived: bool) {
    id in fs && fs[id].tenantId == tenant && (includeArchived || fs[id].archivedAt.None?)
  }

  predicate NameFree(fs: FolderTable, tenant: string, parent: Option<string>, name: string, except: Option<string>) {
    !exists k :: k in fs && Some(k) != except && fs[k].tenantId == tenant && fs[k].parentId == parent
              && fs[k].name == name
  }

  // The ids met by following parents upwards within one tenant, at most n of them.
  function Walk(fs: FolderTable, tenant: string, from: Option<string>, n: nat): seq<string>
    decreases n
  {
    if n == 0 || !Given(from) then []
    else [from.value] + Walk(fs, tenant, ParentOf(fs, tenant, from.value), n - 1)
  }

  // findFirst({ id, tenantId })?.parentId ?? null
  function ParentOf(fs: FolderTable, tenant: string, id: string): Option<string> {
    if id in fs && fs[id].tenantId == tenant then fs[id].parentId else None
  }

  // assertFolderMoveDoesNotCreateCycle, stated on the walk its loop makes.
  function CheckMove(fs: FolderTable, tenant: string, folderId: string, parentId: string): Result<(), Error> {
    CheckMoveWithin(fs, tenant, folderId, parentId, MAX_WALK)
  }

  function CheckMoveWithin(fs: FolderTable, tenant: string, folderId: string, parentId: string,
                           limit: nat): Result<(), Error> {
    var visited := Walk(fs, tenant, Some(parentId), limit);
    if folderId in visited then Err(MoveCreatesCycle)
    else if |visited| >= limit then Err(HierarchyTooDeep)
    else Ok(())
  }

  function CreateFolder(fs: FolderTable, tenant: string, id: string, parentId: Option<string>,
                        name: string): Result<FolderTable, Error> {
    if Given(parentId) && !Visible(fs, tenant, parentId.value, false) then Err(FolderNotFound)
    else if !NameFree(fs, tenant, parentId, name, None) then Err(NameTaken)
    else if parentId.Some? && parentId.value !in fs then Err(ForeignKeyViolation)
    else if id in fs || id == "" then Err(DuplicateKey)
    else Ok(fs[id := Folder(tenant, parentId, name, None)])
  }

  function UpdateFolder(fs: FolderTable, tenant: string, id: string, parent: Patch<string>,
                        name: Option<string>): Result<FolderTable, Error> {
    if !Visible(fs, tenant, id, false) then Err(FolderNotFound)
    else
      var before := fs[id];
      var move := parent.Put? && parent.value != "";
      if move && parent.value == id then Err(OwnParent)
      else if move && !Visible(fs, tenant, parent.value, false) then Err(FolderNotFound)
      else if move && CheckMove(fs, tenant, id, parent.value).Err?
        then Err(CheckMove(fs, tenant, id, parent.value).error)
      else
        var nextParent := parent.Apply(before.parentId);
        var nextName := name.GetOr(before.name);
        if (Given(name) || !parent.Keep?) && !NameFree(fs, tenant, nextParent, nextName, Some(id)) then Err(NameTaken)
        else if parent.Put? && parent.value !in fs then Err(ForeignKeyViolation)
        else Ok(fs[id := before.(parentId := nextParent, name := nextName)])
  }

  function ArchiveFolder(fs: FolderTable, tenant: string, id: string, now: int): Result<FolderTable, Error> {
    if !Visible(fs, tenant, id, false) then Err(FolderNotFound)
    else Ok(fs[id := fs[id].(archivedAt := Some(now))])
  }

  function RestoreFolder(fs: FolderTable, tenant: string, id: string): Result<FolderTable, Error> {
    if !Visible(fs, tenant, id, true) then Err(FolderNotFound)
    else Ok(fs[id := fs[id].(archivedAt := None)])
  }

  predicate HasActiveChild(fs: FolderTable, tenant: string, id: string) {
    exists k :: k in fs && fs[k].tenantId == tenant && fs[k].parentId == Some(id) && fs[k].archivedAt.None?
  }

  // The row goes; the foreign key is ON DELETE SET NULL, so leftover children become roots.
  function RemoveFolder(fs: FolderTable, id: string): FolderTable {
    map k | k in fs && k != id :: if fs[k].parentId == Some(id) then fs[k].(parentId := None) else fs[k]
  }

  function DeleteFolder(fs: FolderTable, tenant: string, id: string,
                        hasActiveDocument: bool): Result<FolderTable, Error> {
    if !Visible(fs, tenant, id, true) then Err(FolderNotFound)
    else if HasActiveChild(fs, tenant, id) || hasActiveDocument then Err(NotEmpty)
    else Ok(RemoveFolder(fs, id))
  }

  // ---------- The forest ----------

  // The walk from this folder ends at a root within n steps.
  ghost predicate EndsWithin(fs: FolderTable, tenant: string, from: Option<string>, n: nat) {
    |Walk(fs, tenant, from, n)| < n
  }

  ghost predicate Rooted(fs: FolderTable, id: string)
    requires id in fs
  {
    exists n: nat :: EndsWithin(fs, fs[id].tenantId, Some(id), n)
  }

  // Every parent exists in the same tenant, and every chain of parents ends at a root.
  ghost predicate Forest(fs: FolderTable) {
    && "" !in fs
    && (forall k :: k in fs && fs[k].parentId.Some? ==>
          fs[k].parentId.value in fs && fs[fs[k].parentId.value].tenantId == fs[k].tenantId)
    && (forall k :: k in fs ==> Rooted(fs, k))
  }

  // The whole chain of a rooted folder: itself, its parent, and so on up to the root.
  ghost function Chain(fs: FolderTable, id: string): seq<string>
    requires id in fs && Rooted(fs, id)
  {
    var n: nat :| EndsWithin(fs, fs[id].tenantId, Some(id), n);
    Walk(fs, fs[id].tenantId, Some(id), n)
  }

  lemma {:induction false} WalkPrefix(fs: FolderTable, tenant: string, from: Option<string>, n: nat, m: nat)
    requires n <= m
    ensures Walk(fs, tenant, from, n) == Take(Walk(fs, tenant, from, m), n)
    ensures EndsWithin(fs, tenant, from, n) ==> Walk(fs, tenant, from, m) == Walk(fs, tenant, from, n)
    decreases n
  {
    if n > 0 && Given(from) {
      WalkPrefix(fs, tenant, ParentOf(fs, tenant, from.value), n - 1, m - 1);
    }
  }

  lemma {:induction false} WalkLength(fs: FolderTable, tenant: string, from: Option<string>, n: nat)
    ensures |Walk(fs, tenant, from, n)| <= n
    decreases n
  {
    if n > 0 && Given(from) {
      WalkLength(fs, tenant, ParentOf(fs, tenant, from.value), n - 1);
    }
  }

  // Any walk long enough to end is the chain.
  lemma ChainIsAnyEndedWalk(fs: FolderTable, id: string, n: nat)
    requires id in fs && EndsWithin(fs, fs[id].tenantId, Some(id), n)
    ensures Rooted(fs, id) && Chain(fs, id) == Walk(fs, fs[id].tenantId, Some(id), n)
  {
    var t := fs[id].tenantId;
    var m: nat :| EndsWithin(fs, t, Some(id), m) && Chain(fs, id) == Walk(fs, t, Some(id), m);
    if m <= n { WalkPrefix(fs, t, Some(id), m, n); } else { WalkPrefix(fs, t, Some(id), n, m); }
  }

  lemma ChainStep(fs: FolderTable, id: string)
    requires Forest(fs) && id in fs
    ensures fs[id].parentId.None? ==> Chain(fs, id) == [id]
    ensures fs[id].parentId.Some? ==> Chain(fs, id) == [id] + Chain(fs, fs[id].parentId.value)
  {
    var t := fs[id].tenantId;
    var n: nat :| EndsWithin(fs, t, Some(id), n);
    ChainIsAnyEndedWalk(fs, id, n);
    if fs[id].parentId.Some? {
      assert EndsWithin(fs, t, fs[id].parentId, n - 1);
      ChainIsAnyEndedWalk(fs, fs[id].parentId.value, n - 1);
    }
  }

  // The bounded walk, on a forest, decides exactly: accept a move if and only if the folder is
  // not on the new parent's chain and that chain has fewer than 50 folders.
  lemma MoveCheckIsExact(fs: FolderTable, folderId: string, parentId: string)
    requires Forest(fs) && parentId in fs
    ensures var check := CheckMove(fs, fs[parentId].tenantId, folderId, parentId);
            var chain := Chain(fs, parentId);
            && (check.Ok? <==> folderId !in chain && |chain| < MAX_WALK)
            && (check == Err(MoveCreatesCycle) <==> folderId in Take(chain, MAX_WALK))
            && (check == Err(HierarchyTooDeep) <==> folderId !in Take(chain, MAX_WALK) && |chain| >= MAX_WALK)
  {
    var t := fs[parentId].tenantId;
    var n: nat :| EndsWithin(fs, t, Some(parentId), n);
    ChainIsAnyEndedWalk(fs, parentId, n);
    WalkLength(fs, t, Some(parentId), MAX_WALK);
    if n <= MAX_WALK {
      WalkPrefix(fs, t, Some(parentId), n, MAX_WALK);
    } else {
      WalkPrefix(fs, t, Some(parentId), MAX_WALK, n);
    }
  }

  // path leads from its first folder upwards, one parent at a time.
  ghost predicate ParentPath(fs: FolderTable, path: seq<string>) {
    forall i {:trigger path[i]} :: 0 <= i < |path| - 1 ==> path[i] in fs && fs[path[i]].parentId == Some(path[i + 1])
  }

  lemma {:induction false} PathShortensChain(fs: FolderTable, path: seq<string>)
    requires Forest(fs) && |path| >= 1 && ParentPath(fs, path) && path[0] in fs
    ensures path[|path| - 1] in fs
    ensures |Chain(fs, path[|path| - 1])| == |Chain(fs, path[0])| - (|path| - 1)
  {
    if |path| > 1 {
      assert fs[path[0]].parentId == Some(path[1]);
      ChainStep(fs, path[0]);
      forall i | 0 <= i < |path[1..]| - 1
        ensures path[1..][i] in fs && fs[path[1..][i]].parentId == Some(path[1..][i + 1])
      {
        assert path[1..][i] == path[i + 1];
      }
      PathShortensChain(fs, path[1..]);
      assert path[1..][|path| - 2] == path[|path| - 1];
    }
  }

  // A forest has no cycle: no chain of parents comes back to where it started.
  lemma ForestHasNoCycle(fs: FolderTable, path: seq<string>)
    requires Forest(fs) && |path| >= 2 && ParentPath(fs, path)
    ensures path[0] != path[|path| - 1]
  {
    assert path[0] in fs;
    PathShortensChain(fs, path);
  }

  // ---------- Every operation keeps the forest ----------

  // Repointing one folder changes no walk that does not meet it.
  lemma {:induction false} WalkUnchanged(fs: FolderTable, gs: FolderTable, tenant: string, from: Option<string>,
                                         n: nat, id: string)
    requires forall k :: k != id ==>
               (k in fs <==> k in gs)
               && (k in fs ==> fs[k].parentId == gs[k].parentId && fs[k].tenantId == gs[k].tenantId)
    requires id !in Walk(fs, tenant, from, n)
    ensures Walk(gs, tenant, from, n) == Walk(fs, tenant, from, n)
    decreases n
  {
    if n > 0 && Given(from) {
      WalkUnchanged(fs, gs, tenant, ParentOf(fs, tenant, from.value), n - 1, id);
    }
  }

  // If the repointed folder is rooted in the new table, so is every folder that was rooted before.
  lemma {:induction false} RepointKeepsRooted(fs: FolderTable, gs: FolderTable, k: string, n: nat, id: string)
    requires Forest(fs) && k in fs && id in gs && Rooted(gs, id)
    requires gs.Keys == fs.Keys + {id}
    requires forall j :: j in fs ==> gs[j].tenantId == fs[j].tenantId && (j != id ==> gs[j].parentId == fs[j].parentId)
    requires EndsWithin(fs, fs[k].tenantId, Some(k), n)
    ensures Rooted(gs, k)
    decreases n
  {
    var t := fs[k].tenantId;
    if k == id {
    } else if fs[k].parentId.None? {
      assert Walk(gs, t, Some(k), 2) == [k];
      assert EndsWithin(gs, t, Some(k), 2);
    } else {
      var p := fs[k].parentId.value;
      assert EndsWithin(fs, t, Some(p), n - 1);
      RepointKeepsRooted(fs, gs, p, n - 1, id);
      var m: nat :| EndsWithin(gs, t, Some(p), m);
      assert Walk(gs, t, Some(k), m + 1) == [k] + Walk(gs, t, Some(p), m);
      assert EndsWithin(gs, t, Some(k), m + 1);
    }
  }

  lemma AllStayRooted(fs: FolderTable, gs: FolderTable, id: string)
    requires Forest(fs) && id in gs && Rooted(gs, id)
    requires gs.Keys == fs.Keys + {id}
    requires forall j :: j in fs ==> gs[j].tenantId == fs[j].tenantId && (j != id ==> gs[j].parentId == fs[j].parentId)
    ensures forall k :: k in gs ==> Rooted(gs, k)
  {
    forall k | k in gs
      ensures Rooted(gs, k)
    {
      if k != id {
        assert Rooted(fs, k);
        var n: nat :| EndsWithin(fs, fs[k].tenantId, Some(k), n);
        RepointKeepsRooted(fs, gs, k, n, id);
      }
    }
  }

  // A folder placed under a parent whose chain does not meet it is rooted.
  lemma PlacedIsRooted(fs: FolderTable, gs: FolderTable, id: string)
    requires Forest(fs) && id in gs && id != ""
    requires forall k :: k != id ==>
               (k in fs <==> k in gs)
               && (k in fs ==> fs[k].parentId == gs[k].parentId && fs[k].tenantId == gs[k].tenantId)
    requires gs[id].parentId.Some? ==>
               var p := gs[id].parentId.value; p in fs && fs[p].tenantId == gs[id].tenantId && id !in Chain(fs, p)
    ensures Rooted(gs, id)
  {
    var t := gs[id].tenantId;
    if gs[id].parentId.None? {
      assert Walk(gs, t, Some(id), 2) == [id];
      assert EndsWithin(gs, t, Some(id), 2);
    } else {
      var p := gs[id].parentId.value;
      var n: nat :| EndsWithin(fs, t, Some(p), n);
      ChainIsAnyEndedWalk(fs, p, n);
      WalkUnchanged(fs, gs, t, Some(p), n, id);
      assert Walk(gs, t, Some(id), n + 1) == [id] + Walk(gs, t, Some(p), n);
      assert EndsWithin(gs, t, Some(id), n + 1);
    }
  }

  lemma {:induction false} ChainWithinTable(fs: FolderTable, id: string, n: nat, x: string)
    requires Forest(fs) && id in fs && EndsWithin(fs, fs[id].tenantId, Some(id), n)
    requires x in Chain(fs, id)
    ensures x in fs
    decreases n
  {
    ChainStep(fs, id);
    if x != id {
      assert EndsWithin(fs, fs[id].tenantId, fs[id].parentId, n - 1);
      ChainWithinTable(fs, fs[id].parentId.value, n - 1, x);
    }
  }

  lemma CreateKeepsForest(fs: FolderTable, tenant: string, id: string, parentId: Option<string>, name: string)
    requires Forest(fs) && CreateFolder(fs, tenant, id, parentId, name).Ok?
    ensures Forest(CreateFolder(fs, tenant, id, parentId, name).value)
  {
    var gs := CreateFolder(fs, tenant, id, parentId, name).value;
    if parentId.Some? {
      var p := parentId.value;
      var n: nat :| EndsWithin(fs, fs[p].tenantId, Some(p), n);
      if id in Chain(fs, p) { ChainWithinTable(fs, p, n, id); }
    }
    PlacedIsRooted(fs, gs, id);
    AllStayRooted(fs, gs, id);
  }

  lemma UpdateKeepsForest(fs: FolderTable, tenant: string, id: string, parent: Patch<string>, name: Option<string>)
    requires Forest(fs) && UpdateFolder(fs, tenant, id, parent, name).Ok?
    ensures Forest(UpdateFolder(fs, tenant, id, parent, name).value)
  {
    var gs := UpdateFolder(fs, tenant, id, parent, name).value;
    if parent.Put? {
      MoveCheckIsExact(fs, id, parent.value);
    } else if parent.Keep? && fs[id].parentId.Some? {
      ForestHasNoSelfAncestor(fs, id);
    }
    PlacedIsRooted(fs, gs, id);
    AllStayRooted(fs, gs, id);
  }

  // A folder is never on its own parent's chain.
  lemma ForestHasNoSelfAncestor(fs: FolderTable, id: string)
    requires Forest(fs) && id in fs && fs[id].parentId.Some?
    ensures id !in Chain(fs, fs[id].parentId.value)
  {
    var p := fs[id].parentId.value;
    if id in Chain(fs, p) {
      var path := ChainPath(fs, p, id);
      var loop := [id] + path;
      assert ParentPath(fs, loop) by {
        forall i | 0 <= i < |loop| - 1
          ensures loop[i] in fs && fs[loop[i]].parentId == Some(loop[i + 1])
        {
          if i > 0 { assert path[i - 1] == loop[i] && path[i] == loop[i + 1]; }
        }
      }
      ForestHasNoCycle(fs, loop);
    }
  }

  // A folder on a chain is reached from its start by a path of parents.
  lemma {:induction false} ChainPath(fs: FolderTable, from: string, to: string) returns (path: seq<string>)
    requires Forest(fs) && from in fs && to in Chain(fs, from)
    ensures |path| >= 1 && path[0] == from && path[|path| - 1] == to && ParentPath(fs, path)
    decreases |Chain(fs, from)|
  {
    ChainStep(fs, from);
    if from == to {
      path := [from];
    } else {
      var rest := ChainPath(fs, fs[from].parentId.value, to);
      path := [from] + rest;
      forall i | 0 <= i < |path| - 1
        ensures path[i] in fs && fs[path[i]].parentId == Some(path[i + 1])
      {
        if i > 0 { assert rest[i - 1] == path[i] && rest[i] == path[i + 1]; }
      }
    }
  }

  lemma {:induction false} RemoveKeepsRooted(fs: FolderTable, id: string, k: string, n: nat)
    requires Forest(fs) && k in fs && k != id && EndsWithin(fs, fs[k].tenantId, Some(k), n)
    ensures Rooted(RemoveFolder(fs, id), k)
    decreases n
  {
    var gs, t := RemoveFolder(fs, id), fs[k].tenantId;
    if gs[k].parentId.None? {
      assert Walk(gs, t, Some(k), 2) == [k];
      assert EndsWithin(gs, t, Some(k), 2);
    } else {
      var p := fs[k].parentId.value;
      assert EndsWithin(fs, t, Some(p), n - 1);
      RemoveKeepsRooted(fs, id, p, n - 1);
      var m: nat :| EndsWithin(gs, t, Some(p), m);
      assert Walk(gs, t, Some(k), m + 1) == [k] + Walk(gs, t, Some(p), m);
      assert EndsWithin(gs, t, Some(k), m + 1);
    }
  }

  lemma DeleteKeepsForest(fs: FolderTable, id: string)
    requires Forest(fs)
    ensures Forest(RemoveFolder(fs, id))
  {
    var gs := RemoveFolder(fs, id);
    forall k | k in gs
      ensures Rooted(gs, k)
    {
      assert Rooted(fs, k);
      var n: nat :| EndsWithin(fs, fs[k].tenantId, Some(k), n);
      RemoveKeepsRooted(fs, id, k, n);
    }
  }

  lemma StampKeepsForest(fs: FolderTable, id: string, archivedAt: Option<int>)
    requires Forest(fs) && id in fs
    ensures Forest(fs[id := fs[id].(archivedAt := archivedAt)])
  {
    var gs := fs[id := fs[id].(archivedAt := archivedAt)];
    if fs[id].parentId.Some? {
      ForestHasNoSelfAncestor(fs, id);
    }
    PlacedIsRooted(fs, gs, id);
    AllStayRooted(fs, gs, id);
  }

  // ---------- Runs ----------

  datatype FolderStep =
    | Create(id: string, parentId: Option<string>, name: string)
    | Update(id: string, parent: Patch<string>, newName: Option<string>)
    | Archive(id: string, now: int)
    | Restore(id: string)
    | Delete(id: string)

  // One request of one tenant. A refused request leaves the table as it was.
  function ApplyFolderStep(fs: FolderTable, tenant: string, step: FolderStep,
                           hasActiveDocument: bool): Result<FolderTable, Error> {
    match step
    case Create(id, parentId, name) => CreateFolder(fs, tenant, id, parentId, name)
    case Update(id, parent, name) => UpdateFolder(fs, tenant, id, parent, name)
    case Archive(id, now) => ArchiveFolder(fs, tenant, id, now)
    case Restore(id) => RestoreFolder(fs, tenant, id)
    case Delete(id) => DeleteFolder(fs, tenant, id, hasActiveDocument)
  }

  // No accepted request, by any tenant, breaks the forest or moves a folder to another tenant.
  lemma StepKeepsForest(fs: FolderTable, tenant: string, step: FolderStep, hasActiveDocument: bool)
    requires Forest(fs) && ApplyFolderStep(fs, tenant, step, hasActiveDocument).Ok?
    ensures var gs := ApplyFolderStep(fs, tenant, step, hasActiveDocument).value;
            Forest(gs) && forall k :: k in fs && k in gs ==> gs[k].tenantId == fs[k].tenantId
  {
    match step
    case Create(id, parentId, name) => CreateKeepsForest(fs, tenant, id, parentId, name);
    case Update(id, parent, name) => UpdateKeepsForest(fs, tenant, id, parent, name);
    case Archive(id, now) => StampKeepsForest(fs, id, Some(now));
    case Restore(id) => StampKeepsForest(fs, id, None);
    case Delete(id) => DeleteKeepsForest(fs, id);
  }

  // A request removes no folder but the one it deletes.
  lemma StepKeepsFolders(fs: FolderTable, tenant: string, step: FolderStep, hasActiveDocument: bool)
    requires ApplyFolderStep(fs, tenant, step, hasActiveDocument).Ok?
    ensures var gs := ApplyFolderStep(fs, tenant, step, hasActiveDocument).value;
            if step.Delete? then gs.Keys == fs.Keys - {step.id} else fs.Keys <= gs.Keys
  {
  }

  // ---------- Sibling names ----------

  ghost predicate SiblingNamesUnique(fs: FolderTable) {
    forall j, k :: j in fs && k in fs && j != k && fs[j].tenantId == fs[k].tenantId && fs[j].parentId == fs[k].parentId
      ==> fs[j].name != fs[k].name
  }

  // Two folders that deleting `id` would make roots of one tenant under the same name.
  ghost predicate PromotionClash(fs: FolderTable, id: string, j: string, k: string) {
    && j in fs && k in fs && j != id && k != id && j != k
    && fs[j].tenantId == fs[k].tenantId && fs[j].name == fs[k].name
    && fs[j].parentId == Some(id) && fs[k].parentId == None
  }

  lemma RemovalKeepsNamesUniqueIff(fs: FolderTable, id: string)
    requires SiblingNamesUnique(fs)
    ensures SiblingNamesUnique(RemoveFolder(fs, id)) <==> !exists j, k :: PromotionClash(fs, id, j, k)
  {
    var gs := RemoveFolder(fs, id);
    if j, k :| PromotionClash(fs, id, j, k) {
      assert j in gs && k in gs && gs[j].parentId == gs[k].parentId;
    } else {
      forall j, k | j in gs && k in gs && j != k && gs[j].tenantId == gs[k].tenantId && gs[j].parentId == gs[k].parentId
        ensures gs[j].name != gs[k].name
      {
        assert !PromotionClash(fs, id, j, k) && !PromotionClash(fs, id, k, j);
      }
    }
  }

  // An archived child that deleting its parent would make a root beside one of the same name.
  ghost predicate ArchivedClash(fs: FolderTable, id: string, j: string, k: string) {
    PromotionClash(fs, id, j, k) && fs[j].archivedAt.Some?
  }

  // An accepted deletion keeps sibling names unique exactly when no archived child, the only kind
  // it can leave over, has the name of a root folder of the tenant; the service does not check.
  lemma DeleteKeepsNamesUniqueIff(fs: FolderTable, tenant: string, id: string, hasActiveDocument: bool, gs: FolderTable)
    requires Forest(fs) && SiblingNamesUnique(fs) && DeleteFolder(fs, tenant, id, hasActiveDocument) == Ok(gs)
    ensures SiblingNamesUnique(gs) <==> !exists j, k :: ArchivedClash(fs, id, j, k)
  {
    RemovalKeepsNamesUniqueIff(fs, id);
    forall j, k
      ensures PromotionClash(fs, id, j, k) ==> ArchivedClash(fs, id, j, k)
    {
    }
  }

  lemma RootIsRooted(fs: FolderTable, id: string)
    requires id in fs && fs[id].parentId.None?
    ensures Rooted(fs, id)
  {
    assert EndsWithin(fs, fs[id].tenantId, Some(id), 2);
  }

  lemma ChildOfRootIsRooted(fs: FolderTable, id: string, parent: string)
    requires id in fs && parent in fs && id != "" && fs[id].parentId == Some(parent) && fs[parent].parentId.None?
    ensures Rooted(fs, id)
  {
    var tenant := fs[id].tenantId;
    assert Walk(fs, tenant, Some(id), 3) == [id] + Walk(fs, tenant, ParentOf(fs, tenant, id), 2);
    assert EndsWithin(fs, tenant, Some(id), 3);
  }

  // An instance: a root a, and a folder p with an archived child c of the same name as a.
  // Deleting p is accepted and leaves two roots of that name.
  lemma DeleteExample(a: string, p: string, c: string) returns (fs: FolderTable, gs: FolderTable)
    requires a != p && a != c && p != c && a != "" && p != "" && c != ""
    ensures Forest(fs) && SiblingNamesUnique(fs)
    ensures DeleteFolder(fs, "t", p, false) == Ok(gs) && !SiblingNamesUnique(gs)
  {
    fs := map[a := Folder("t", None, "A", None), p := Folder("t", None, "P", None),
              c := Folder("t", Some(p), "A", Some(0))];
    gs := RemoveFolder(fs, p);
    RootIsRooted(fs, a);
    RootIsRooted(fs, p);
    ChildOfRootIsRooted(fs, c, p);
    assert ArchivedClash(fs, p, c, a);
    DeleteKeepsNamesUniqueIff(fs, "t", p, false, gs);
  }

  // A rename to the empty text skips the name check; every other create or update keeps
  // sibling names unique.
  lemma CreateAndUpdateKeepNamesUnique(fs: FolderTable, tenant: string, step: FolderStep)
    requires SiblingNamesUnique(fs) && (step.Create? || step.Update?)
    requires ApplyFolderStep(fs, tenant, step, false).Ok?
    ensures SiblingNamesUnique(ApplyFolderStep(fs, tenant, step, false).value)
       <==> !(step.Update? && step.newName == Some("") && step.parent.Keep?
              && !NameFree(fs, tenant, fs[step.id].parentId, "", Some(step.id)))
  {
    var gs := ApplyFolderStep(fs, tenant, step, false).value;
    var id := step.id;
    if NameFree(fs, tenant, gs[id].parentId, gs[id].name, Some(id)) {
      forall j, k | j in gs && k in gs && j != k && gs[j].tenantId == gs[k].tenantId && gs[j].parentId == gs[k].parentId
        ensures gs[j].name != gs[k].name
      {
        var other := if j == id then k else j;
        assert j != id && k != id ==> gs[j] == fs[j] && gs[k] == fs[k];
      }
    } else {
      var k :| k in fs && Some(k) != Some(id) && fs[k].tenantId == tenant && fs[k].parentId == gs[id].parentId
      && fs[k].name == gs[id].name;
      assert gs[k] == fs[k];
    }
  }

  // An instance: beside a root of the empty name a root a, renamed to the empty text.
  lemma RenameExample(a: string, b: string) returns (fs: FolderTable, gs: FolderTable)
    requires a != b && a != "" && b != ""
    ensures Forest(fs) && SiblingNamesUnique(fs)
    ensures UpdateFolder(fs, "t", a, Keep, Some("")) == Ok(gs) && !SiblingNamesUnique(gs)
  {
    fs := map[a := Folder("t", None, "A", None), b := Folder("t", None, "", None)];
    gs := fs[a := fs[a].(name := "")];
    RootIsRooted(fs, a);
    RootIsRooted(fs, b);
    assert a in gs && b in gs && gs[a].parentId == gs[b].parentId;
  }
}
