// The folder tree (src/documents/documents.service.ts, getFolderTree): an index from parent to
// children filled by a loop, and a recursive builder that starts at the roots.
module FolderTree {
  import opened Seqs
  import opened Folders

  // A fetched folder row.
  datatype Row = Row(id: string, parentId: Option<string>, name: string)

  datatype Tree = Node(row: Row, children: seq<Tree>)

  function RowId(): Row -> string {
    (r: Row) => r.id
  }

  function HasParent(key: Option<string>): Row -> bool {
    (r: Row) => r.parentId == key
  }

  // Ids are primary keys, so no two fetched rows share one.
  ghost predicate Keyed(rows: seq<Row>) {
    NoDuplicates(Map(rows, RowId()))
  }

  // childrenByParent: after the loop, each key holds the rows with that parent, in fetched order.
  method IndexByParent(rows: seq<Row>) returns (index: map<Option<string>, seq<Row>>)
    ensures forall key :: (if key in index then index[key] else []) == Filter(rows, HasParent(key))
  {
    index := map[];
    for i := 0 to |rows|
      invariant forall key :: (if key in index then index[key] else []) == Filter(rows[..i], HasParent(key))
    {
      var folder := rows[i];
      var parentKey := folder.parentId;
      var children := if parentKey in index then index[parentKey] else [];
      forall key
        ensures Filter(rows[..i + 1], HasParent(key))
             == Filter(rows[..i], HasParent(key)) + (if folder.parentId == key then [folder] else [])
      {
        assert rows[..i + 1] == rows[..i] + [folder];
        FilterConcat(rows[..i], [folder], HasParent(key));
      }
      index := index[parentKey := children + [folder]];
    }
    assert rows[..|rows|] == rows;
  }

  // The key of the last row of a path from a root, or null at the top.
  function KeyOf(path: seq<Row>): Option<string> {
    if path == [] then None else Some(path[|path| - 1].id)
  }

  function Children(rows: seq<Row>, path: seq<Row>): seq<Row> {
    Filter(rows, HasParent(KeyOf(path)))
  }

  // path leads from a root row down to its last row, all of them fetched.
  ghost predicate RootPath(rows: seq<Row>, path: seq<Row>) {
    path == [] ||
    var above, last := path[..|path| - 1], path[|path| - 1];
    last in rows && last.parentId == KeyOf(above) && RootPath(rows, above)
  }

  ghost function Elements(rows: seq<Row>): set<Row> {
    set r | r in rows
  }

  lemma ChildExtendsPath(rows: seq<Row>, path: seq<Row>, child: Row)
    requires RootPath(rows, path) && child in Children(rows, path)
    ensures RootPath(rows, path + [child])
  {
    FilterMember(rows, HasParent(KeyOf(path)), child);
    assert (path + [child])[..|path|] == path;
  }

  lemma KeyedRows(rows: seq<Row>, a: Row, b: Row)
    requires Keyed(rows) && a in rows && b in rows && a.id == b.id
    ensures a == b
  {
    var i :| 0 <= i < |rows| && rows[i] == a;
    var j :| 0 <= j < |rows| && rows[j] == b;
    assert Map(rows, RowId())[i] == Map(rows, RowId())[j];
  }

  // Parents are unique, so two root paths that end at the same row are the same path.
  lemma {:induction false} RootPathUnique(rows: seq<Row>, p: seq<Row>, q: seq<Row>)
    requires Keyed(rows) && RootPath(rows, p) && RootPath(rows, q) && KeyOf(p) == KeyOf(q)
    ensures p == q
    decreases |p|
  {
    if p == [] || q == [] {
    } else {
      var pl, ql := p[|p| - 1], q[|q| - 1];
      var pi, qi := p[..|p| - 1], q[..|q| - 1];
      KeyedRows(rows, pl, ql);
      RootPathUnique(rows, pi, qi);
      assert p == pi + [pl] && q == qi + [ql];
    }
  }

  lemma {:induction false} PrefixIsRootPath(rows: seq<Row>, p: seq<Row>, n: nat)
    requires RootPath(rows, p) && n <= |p|
    ensures RootPath(rows, p[..n])
    ensures n < |p| ==> p[n] in rows && p[n].parentId == KeyOf(p[..n])
    decreases |p|
  {
    if n < |p| {
      var above := p[..|p| - 1];
      PrefixIsRootPath(rows, above, n);
      assert above[..n] == p[..n];
    } else {
      assert p[..n] == p;
    }
  }

  // A child of the last row of a path is not on the path: the recursion never revisits a row,
  // whatever the parent links say.
  lemma ChildIsNew(rows: seq<Row>, path: seq<Row>, child: Row)
    requires Keyed(rows) && RootPath(rows, path) && child in Children(rows, path)
    ensures child in rows && child !in path
  {
    FilterMember(rows, HasParent(KeyOf(path)), child);
    if child in path {
      var i :| 0 <= i < |path| && path[i] == child;
      PrefixIsRootPath(rows, path, i);
      RootPathUnique(rows, path[..i], path);
    }
  }

  // build(parentId): the trees of the rows below a path. It terminates on any parent links.
  ghost function Build(rows: seq<Row>, path: seq<Row>): seq<Tree>
    requires Keyed(rows) && RootPath(rows, path)
    decreases Elements(rows) - Elements(path), 1, 0
  {
    BuildEach(rows, path, Children(rows, path))
  }

  // The .map over the children of one parent.
  ghost function BuildEach(rows: seq<Row>, path: seq<Row>, todo: seq<Row>): seq<Tree>
    requires Keyed(rows) && RootPath(rows, path)
    requires forall c :: c in todo ==> c in Children(rows, path)
    decreases Elements(rows) - Elements(path), 0, |todo|
  {
    if todo == [] then []
    else
      assert todo[0] in Children(rows, path);
      ChildExtendsPath(rows, path, todo[0]);
      ChildIsNew(rows, path, todo[0]);
      assert todo[0] in Elements(rows) - Elements(path) && todo[0] in Elements(path + [todo[0]]);
      assert Elements(path) <= Elements(path + [todo[0]]);
      [Node(todo[0], Build(rows, path + [todo[0]]))] + BuildEach(rows, path, todo[1..])
  }

  // getFolderTree
  ghost function FolderTreeOf(rows: seq<Row>): seq<Tree>
    requires Keyed(rows)
  {
    Build(rows, [])
  }

  // The rows of a forest of trees, each parent before its children.
  function Flatten(trees: seq<Tree>): seq<Row>
    decreases trees
  {
    if trees == [] then [] else [trees[0].row] + Flatten(trees[0].children) + Flatten(trees[1..])
  }

  // The fetched rows whose whole chain of ancestors was fetched too.
  ghost predicate Reachable(rows: seq<Row>, r: Row) {
    exists path :: RootPath(rows, path) && |path| > 0 && path[|path| - 1] == r
  }

  lemma {:induction false} BuiltRowsAreReachable(rows: seq<Row>, path: seq<Row>, r: Row)
    requires Keyed(rows) && RootPath(rows, path) && r in Flatten(Build(rows, path))
    ensures Reachable(rows, r)
    decreases Elements(rows) - Elements(path), 1, 0
  {
    BuiltEachReachable(rows, path, Children(rows, path), r);
  }

  lemma {:induction false} BuiltEachReachable(rows: seq<Row>, path: seq<Row>, todo: seq<Row>, r: Row)
    requires Keyed(rows) && RootPath(rows, path)
    requires forall c :: c in todo ==> c in Children(rows, path)
    requires r in Flatten(BuildEach(rows, path, todo))
    ensures Reachable(rows, r)
    decreases Elements(rows) - Elements(path), 0, |todo|
  {
    var c := todo[0];
    assert c in Children(rows, path);
    ChildExtendsPath(rows, path, c);
    ChildIsNew(rows, path, c);
    assert c in Elements(rows) - Elements(path) && c in Elements(path + [c]);
    var trees := BuildEach(rows, path, todo);
    assert trees[1..] == BuildEach(rows, path, todo[1..]);
    if r == c {
      assert (path + [c])[|path|] == r;
    } else if r in Flatten(Build(rows, path + [c])) {
      BuiltRowsAreReachable(rows, path + [c], r);
    } else {
      BuiltEachReachable(rows, path, todo[1..], r);
    }
  }

  // Below a path, a row is built once if the path leads to it, and otherwise not at all.
  lemma {:induction false} BuildCount(rows: seq<Row>, path: seq<Row>, target: seq<Row>)
    requires Keyed(rows) && RootPath(rows, path) && RootPath(rows, target) && |target| > 0
    ensures multiset(Flatten(Build(rows, path)))[target[|target| - 1]] == if path < target then 1 else 0
    decreases Elements(rows) - Elements(path), 1, 0
  {
    var kids := Children(rows, path);
    FilterKeepsDistinct(rows, HasParent(KeyOf(path)), RowId());
    forall i, j | 0 <= i < j < |kids|
      ensures kids[i] != kids[j]
    {
      assert Map(kids, RowId())[i] != Map(kids, RowId())[j];
    }
    BuildEachCount(rows, path, kids, target);
    if path < target {
      PrefixIsRootPath(rows, target, |path|);
      assert target[..|path|] == path;
      FilterMember(rows, HasParent(KeyOf(path)), target[|path|]);
    }
  }

  lemma {:induction false} BuildEachCount(rows: seq<Row>, path: seq<Row>, todo: seq<Row>, target: seq<Row>)
    requires Keyed(rows) && RootPath(rows, path) && RootPath(rows, target) && |target| > 0
    requires forall c :: c in todo ==> c in Children(rows, path)
    requires NoDuplicates(todo)
    ensures multiset(Flatten(BuildEach(rows, path, todo)))[target[|target| - 1]]
         == if path < target && target[|path|] in todo then 1 else 0
    decreases Elements(rows) - Elements(path), 0, |todo|
  {
    if todo != [] {
      var below := path + [todo[0]];
      NotRepeated(todo);
      BuildEachStep(rows, path, todo);
      BuildCount(rows, below, target);
      BuildEachCount(rows, path, todo[1..], target);
      HeadOnPath(rows, path, todo[0], target);
      FlattenCons(todo[0], Build(rows, below), BuildEach(rows, path, todo[1..]), target[|target| - 1]);
    }
  }

  lemma NotRepeated<T>(s: seq<T>)
    requires s != [] && NoDuplicates(s)
    ensures s[0] !in s[1..] && NoDuplicates(s[1..])
    ensures forall x :: x in s <==> x == s[0] || x in s[1..]
  {
    assert s == [s[0]] + s[1..];
  }

  // One step of the .map: the first child's tree, then the rest.
  lemma BuildEachStep(rows: seq<Row>, path: seq<Row>, todo: seq<Row>)
    requires Keyed(rows) && RootPath(rows, path) && todo != []
    requires forall c :: c in todo ==> c in Children(rows, path)
    ensures RootPath(rows, path + [todo[0]])
    ensures Elements(rows) - Elements(path + [todo[0]]) < Elements(rows) - Elements(path)
    ensures BuildEach(rows, path, todo)
            == [Node(todo[0], Build(rows, path + [todo[0]]))] + BuildEach(rows, path, todo[1..])
  {
    var c := todo[0];
    assert c in Children(rows, path);
    ChildExtendsPath(rows, path, c);
    ChildIsNew(rows, path, c);
    assert c in Elements(rows) - Elements(path) && c in Elements(path + [c]);
  }

  lemma FlattenCons(row: Row, kids: seq<Tree>, rest: seq<Tree>, r: Row)
    ensures multiset(Flatten([Node(row, kids)] + rest))[r]
         == (if row == r then 1 else 0) + multiset(Flatten(kids))[r] + multiset(Flatten(rest))[r]
  {
    var trees := [Node(row, kids)] + rest;
    assert trees[1..] == rest;
    assert multiset(Flatten(trees)) == multiset([row]) + multiset(Flatten(kids)) + multiset(Flatten(rest));
  }

  // A child accounts for the target once when it is the next step towards it, else not at all.
  lemma HeadOnPath(rows: seq<Row>, path: seq<Row>, c: Row, target: seq<Row>)
    requires Keyed(rows) && RootPath(rows, path + [c]) && RootPath(rows, target) && |target| > 0
    ensures (if c == target[|target| - 1] then 1 else 0) + (if path + [c] < target then 1 else 0)
         == if path < target && target[|path|] == c then 1 else 0
  {
    var below := path + [c];
    if c == target[|target| - 1] {
      RootPathUnique(rows, below, target);
    }
    if path < target && target[|path|] == c {
      assert target[..|path| + 1] == below;
    }
  }

  // The tree holds, each exactly once, precisely the fetched folders whose ancestors were all
  // fetched, on any parent links whatever.
  lemma TreeHoldsReachableRowsOnce(rows: seq<Row>, r: Row)
    requires Keyed(rows)
    ensures multiset(Flatten(FolderTreeOf(rows)))[r] == if Reachable(rows, r) then 1 else 0
  {
    if Reachable(rows, r) {
      var path :| RootPath(rows, path) && |path| > 0 && path[|path| - 1] == r;
      BuildCount(rows, [], path);
    } else if r in Flatten(FolderTreeOf(rows)) {
      BuiltRowsAreReachable(rows, [], r);
    }
  }

  // Siblings appear in the order they were fetched.
  lemma {:induction false} SiblingsInFetchedOrder(rows: seq<Row>, path: seq<Row>, todo: seq<Row>)
    requires Keyed(rows) && RootPath(rows, path)
    requires forall c :: c in todo ==> c in Children(rows, path)
    ensures var trees := BuildEach(rows, path, todo);
            |trees| == |todo| && forall i :: 0 <= i < |todo| ==>
              trees[i].row == todo[i] && RootPath(rows, path + [todo[i]])
              && trees[i].children == Build(rows, path + [todo[i]])
    decreases |todo|
  {
    if todo != [] {
      ChildExtendsPath(rows, path, todo[0]);
      SiblingsInFetchedOrder(rows, path, todo[1..]);
    }
  }

  function Under(parent: Option<string>): Row -> bool {
    (r: Row) => r.parentId == parent
  }

  // The trees are of the rows under a parent, in fetched order, and each holds as children the
  // trees of the rows under its own row.
  ghost predicate Nests(rows: seq<Row>, parent: Option<string>, trees: seq<Tree>)
    decreases trees
  {
    && |trees| == |Filter(rows, Under(parent))|
    && forall i :: 0 <= i < |trees| ==>
        trees[i].row == Filter(rows, Under(parent))[i] && Nests(rows, Some(trees[i].row.id), trees[i].children)
  }

  lemma {:induction false} BuildNests(rows: seq<Row>, path: seq<Row>)
    requires Keyed(rows) && RootPath(rows, path)
    ensures Nests(rows, KeyOf(path), Build(rows, path))
    decreases Elements(rows) - Elements(path)
  {
    var kids := Children(rows, path);
    FilterAgree(rows, HasParent(KeyOf(path)), Under(KeyOf(path)));
    SiblingsInFetchedOrder(rows, path, kids);
    forall i | 0 <= i < |kids|
      ensures Nests(rows, Some(kids[i].id), Build(rows, path + [kids[i]]))
    {
      var below := path + [kids[i]];
      assert kids[i] in kids;
      ChildExtendsPath(rows, path, kids[i]);
      ChildIsNew(rows, path, kids[i]);
      assert kids[i] in Elements(rows) - Elements(path) && kids[i] in Elements(below);
      assert Elements(path) <= Elements(below);
      BuildNests(rows, below);
    }
  }

  // The tree nests every row under its parent, with the roots on top.
  lemma TreeNests(rows: seq<Row>)
    requires Keyed(rows)
    ensures Nests(rows, None, FolderTreeOf(rows))
  {
    BuildNests(rows, []);
  }

  // What the query of getFolderTree returns, in whatever order.
  ghost predicate IsFetch(fs: FolderTable, tenant: string, includeArchived: bool, rows: seq<Row>) {
    && Keyed(rows)
    && (forall r :: r in rows ==>
        Visible(fs, tenant, r.id, includeArchived) && r.parentId == fs[r.id].parentId && r.name == fs[r.id].name)
    && (forall k :: Visible(fs, tenant, k, includeArchived) ==> Row(k, fs[k].parentId, fs[k].name) in rows)
  }

  lemma {:induction false} ForestRowsAreReachable(fs: FolderTable, tenant: string, rows: seq<Row>, r: Row)
    requires Forest(fs) && IsFetch(fs, tenant, true, rows) && r in rows
    ensures Reachable(rows, r)
    decreases |Chain(fs, r.id)|
  {
    ChainStep(fs, r.id);
    if r.parentId.None? {
      assert RootPath(rows, [r]);
    } else {
      var p := r.parentId.value;
      var parent := Row(p, fs[p].parentId, fs[p].name);
      ForestRowsAreReachable(fs, tenant, rows, parent);
      var path :| RootPath(rows, path) && |path| > 0 && path[|path| - 1] == parent;
      FilterMember(rows, HasParent(KeyOf(path)), r);
      ChildExtendsPath(rows, path, r);
      assert (path + [r])[|path|] == r;
    }
  }

  // With archived folders included, the tree of a forest is a rearrangement of every folder of
  // the tenant: none is lost and none is repeated.
  lemma TreeOfForestIsPermutation(fs: FolderTable, tenant: string, rows: seq<Row>)
    requires Forest(fs) && IsFetch(fs, tenant, true, rows)
    ensures multiset(Flatten(FolderTreeOf(rows))) == multiset(rows)
  {
    forall r: Row
      ensures multiset(Flatten(FolderTreeOf(rows)))[r] == multiset(rows)[r]
    {
      TreeHoldsReachableRowsOnce(rows, r);
      if r in rows {
        ForestRowsAreReachable(fs, tenant, rows, r);
        KeyedMultiplicity(rows, r);
      }
    }
  }

  lemma {:induction false} KeyedMultiplicity(rows: seq<Row>, r: Row)
    requires Keyed(rows) && r in rows
    ensures multiset(rows)[r] == 1
  {
    assert rows == [rows[0]] + rows[1..];
    forall i | 0 <= i < |rows[1..]|
      ensures RowId()(rows[1..][i]) != rows[0].id
    {
      assert Map(rows, RowId())[0] != Map(rows, RowId())[i + 1];
    }
    assert Keyed(rows[1..]) by {
      forall i, j | 0 <= i < j < |rows[1..]|
        ensures Map(rows[1..], RowId())[i] != Map(rows[1..], RowId())[j]
      {
        assert Map(rows, RowId())[i + 1] != Map(rows, RowId())[j + 1];
      }
    }
    if r == rows[0] {
      assert r !in rows[1..];
    } else {
      KeyedMultiplicity(rows[1..], r);
    }
  }
}
