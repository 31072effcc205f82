/**
 * The folder forest of `getFolderTree`: wrapper objects, and the flat
 * description of which wrapper ends up where.
 *
 * The builder keeps one wrapper per folder in a `Map` keyed by folder id, so
 * when ids repeat the LAST folder with an id owns the wrapper that lookups
 * return; the other wrappers are never linked. With unique ids every folder
 * is its own representative (`UniqueIdsRepresentSelf`).
 */
module FolderTree {
  import opened Wrappers
  import opened Records

  /** `Folder & { children: Folder[] }`: a copy of the folder and the children appended to it. */
  class FolderNode {
    const folder: Folder
    var children: seq<FolderNode>

    constructor (folder: Folder)
      ensures this.folder == folder && children == []
    {
      this.folder := folder;
      children := [];
    }
  }

  /** Index of the last folder with id `id`, or -1. */
  function LastIndexOf(folders: seq<Folder>, id: string): (i: int)
    ensures -1 <= i < |folders|
    ensures i == -1 <==> forall j :: 0 <= j < |folders| ==> folders[j].id != id
    ensures 0 <= i ==> folders[i].id == id && forall j :: i < j < |folders| ==> folders[j].id != id
  {
    if |folders| == 0 then -1
    else if folders[|folders| - 1].id == id then |folders| - 1
    else LastIndexOf(folders[..|folders| - 1], id)
  }

  predicate UniqueIds(folders: seq<Folder>) {
    forall i, j :: 0 <= i < j < |folders| ==> folders[i].id != folders[j].id
  }

  /** Indices of the folders with no parent, in input order. */
  function RootIndices(folders: seq<Folder>): (r: seq<nat>)
    ensures forall k :: 0 <= k < |r| ==> r[k] < |folders|
  {
    if |folders| == 0 then []
    else
      var n := |folders| - 1;
      RootIndices(folders[..n]) + (if folders[n].parentId.None? then [n] else [])
  }

  /** Indices of the folders whose `parentId` is `id`, in input order. */
  function ChildIndices(folders: seq<Folder>, id: string): (r: seq<nat>)
    ensures forall k :: 0 <= k < |r| ==> r[k] < |folders|
  {
    if |folders| == 0 then []
    else
      var n := |folders| - 1;
      ChildIndices(folders[..n], id) + (if folders[n].parentId == Some(id) then [n] else [])
  }

  /** The roots are exactly the folders with no parent, in input order. */
  lemma {:induction false} RootIndicesExact(folders: seq<Folder>)
    ensures var r := RootIndices(folders);
      && (forall k, l :: 0 <= k < l < |r| ==> r[k] < r[l])
      && (forall j: int :: j in r <==> 0 <= j < |folders| && folders[j].parentId.None?)
  {
    if |folders| > 0 {
      RootIndicesExact(folders[..|folders| - 1]);
    }
  }

  /** The children of `id` are exactly the folders whose `parentId` is `id`, in input order. */
  lemma {:induction false} ChildIndicesExact(folders: seq<Folder>, id: string)
    ensures var r := ChildIndices(folders, id);
      && (forall k, l :: 0 <= k < l < |r| ==> r[k] < r[l])
      && (forall j: int :: j in r <==> 0 <= j < |folders| && folders[j].parentId == Some(id))
  {
    if |folders| > 0 {
      ChildIndicesExact(folders[..|folders| - 1], id);
    }
  }

  /** The wrappers the builder's map hands out for the folders at `indices`. */
  function WrappersAt(nodes: seq<FolderNode>, folders: seq<Folder>, indices: seq<nat>): (r: seq<FolderNode>)
    requires |nodes| == |folders|
    requires forall k :: 0 <= k < |indices| ==> indices[k] < |folders|
    ensures |r| == |indices|
  {
    seq(|indices|, k requires 0 <= k < |indices| => nodes[LastIndexOf(folders, folders[indices[k]].id)])
  }

  /** Extending a prefix by one folder: that folder becomes the last one with its id. */
  lemma LastIndexOfStep(folders: seq<Folder>, k: nat, id: string)
    requires k < |folders|
    ensures LastIndexOf(folders[..k + 1], id) == if folders[k].id == id then k else LastIndexOf(folders[..k], id)
  {
    assert folders[..k + 1][..k] == folders[..k];
  }

  /**
   * The builder's id-to-wrapper map after registering `nodes[i]` for each of
   * the first `|nodes|` folders in turn: a later folder with the same id
   * overwrites an earlier entry.
   */
  ghost function Registry(folders: seq<Folder>, nodes: seq<FolderNode>): map<string, FolderNode>
    requires |nodes| <= |folders|
  {
    if |nodes| == 0 then map[]
    else
      var k := |nodes| - 1;
      Registry(folders, nodes[..k])[folders[k].id := nodes[k]]
  }

  /** The map answers an id with the wrapper of the last folder so far that has it. */
  lemma {:induction false} RegistryLookup(folders: seq<Folder>, nodes: seq<FolderNode>, id: string)
    requires |nodes| <= |folders|
    ensures id in Registry(folders, nodes) <==> LastIndexOf(folders[..|nodes|], id) != -1
    ensures id in Registry(folders, nodes) ==>
              Registry(folders, nodes)[id] == nodes[LastIndexOf(folders[..|nodes|], id)]
  {
    if |nodes| > 0 {
      var k := |nodes| - 1;
      RegistryLookup(folders, nodes[..k], id);
      LastIndexOfStep(folders, k, id);
    }
  }

  /** Appending one index appends that folder's wrapper. */
  lemma WrappersAtSnoc(nodes: seq<FolderNode>, folders: seq<Folder>, indices: seq<nat>, j: nat)
    requires |nodes| == |folders| && j < |folders|
    requires forall k :: 0 <= k < |indices| ==> indices[k] < |folders|
    ensures WrappersAt(nodes, folders, indices + [j])
            == WrappersAt(nodes, folders, indices) + [nodes[LastIndexOf(folders, folders[j].id)]]
  {
  }

  /**
   * The children the builder has given `nodes[i]` after its second pass has
   * seen the first `k` folders: only the wrapper the map hands out for an id
   * ever receives children.
   */
  ghost function ChildrenSoFar(nodes: seq<FolderNode>, folders: seq<Folder>, k: nat, i: nat): seq<FolderNode>
    requires |nodes| == |folders| && k <= |folders| && i < |folders|
  {
    if i == LastIndexOf(folders, folders[i].id)
    then WrappersAt(nodes, folders, ChildIndices(folders[..k], folders[i].id))
    else []
  }

  /** The roots the second pass has collected after seeing the first `k` folders. */
  ghost function RootsSoFar(nodes: seq<FolderNode>, folders: seq<Folder>, k: nat): seq<FolderNode>
    requires |nodes| == |folders| && k <= |folders|
  {
    WrappersAt(nodes, folders, RootIndices(folders[..k]))
  }

  /** One step of the second pass: a parentless folder joins the roots. */
  lemma RootsStep(nodes: seq<FolderNode>, folders: seq<Folder>, k: nat)
    requires |nodes| == |folders| && k < |folders|
    ensures RootsSoFar(nodes, folders, k + 1) == RootsSoFar(nodes, folders, k)
              + (if folders[k].parentId.None? then [nodes[LastIndexOf(folders, folders[k].id)]] else [])
  {
    assert folders[..k + 1] == folders[..k] + [folders[k]];
    RootIndicesSnoc(folders[..k], folders[k]);
    if folders[k].parentId.None? {
      WrappersAtSnoc(nodes, folders, RootIndices(folders[..k]), k);
    }
  }

  /**
   * One step of the second pass: the k-th folder's wrapper is appended to the
   * children of its parent's representative, and of no other wrapper.
   */
  lemma ChildrenStep(nodes: seq<FolderNode>, folders: seq<Folder>, k: nat, i: nat)
    requires |nodes| == |folders| && k < |folders| && i < |folders|
    ensures ChildrenSoFar(nodes, folders, k + 1, i) == ChildrenSoFar(nodes, folders, k, i)
              + (if folders[k].parentId.Some? && i == LastIndexOf(folders, folders[k].parentId.value)
                 then [nodes[LastIndexOf(folders, folders[k].id)]] else [])
  {
    assert folders[..k + 1] == folders[..k] + [folders[k]];
    var id := folders[i].id;
    ChildIndicesSnoc(folders[..k], folders[k], id);
    if i == LastIndexOf(folders, id) && folders[k].parentId == Some(id) {
      WrappersAtSnoc(nodes, folders, ChildIndices(folders[..k], id), k);
    }
  }

  /** With unique ids the last folder with a folder's id is that folder itself. */
  lemma UniqueIdsRepresentSelf(folders: seq<Folder>, i: nat)
    requires UniqueIds(folders) && i < |folders|
    ensures LastIndexOf(folders, folders[i].id) == i
  {
  }

  /**
   * A folder whose parent id names no folder is neither a root nor anyone's
   * child, so it appears nowhere in the forest.
   */
  lemma OrphanAppearsNowhere(folders: seq<Folder>, j: nat)
    requires j < |folders| && folders[j].parentId.Some?
    requires LastIndexOf(folders, folders[j].parentId.value) == -1
    ensures j !in RootIndices(folders)
    ensures forall i :: 0 <= i < |folders| ==> j !in ChildIndices(folders, folders[i].id)
  {
    RootIndicesExact(folders);
    forall i | 0 <= i < |folders|
      ensures j !in ChildIndices(folders, folders[i].id)
    {
      ChildIndicesExact(folders, folders[i].id);
    }
  }

  lemma RootIndicesSnoc(fs: seq<Folder>, f: Folder)
    ensures RootIndices(fs + [f]) == RootIndices(fs) + (if f.parentId.None? then [|fs|] else [])
  {
    assert (fs + [f])[..|fs|] == fs;
  }

  lemma ChildIndicesSnoc(fs: seq<Folder>, f: Folder, id: string)
    ensures ChildIndices(fs + [f], id) == ChildIndices(fs, id) + (if f.parentId == Some(id) then [|fs|] else [])
  {
    assert (fs + [f])[..|fs|] == fs;
  }

  /**
   * The forest of the worked example [1 (root), 2 under 1, 3 under 2, 4 under
   * the missing 99]: 1 is the only root, 2 is 1's only child, 3 is 2's only
   * child, 3 and 4 have no children, and 4 is nowhere.
   */
  lemma WorkedExample(f1: Folder, f2: Folder, f3: Folder, f4: Folder, missing: string)
    requires f1.parentId.None? && f2.parentId == Some(f1.id)
    requires f3.parentId == Some(f2.id) && f4.parentId == Some(missing)
    requires UniqueIds([f1, f2, f3, f4])
    requires missing !in {f1.id, f2.id, f3.id, f4.id}
    ensures RootIndices([f1, f2, f3, f4]) == [0]
    ensures ChildIndices([f1, f2, f3, f4], f1.id) == [1]
    ensures ChildIndices([f1, f2, f3, f4], f2.id) == [2]
    ensures ChildIndices([f1, f2, f3, f4], f3.id) == []
    ensures ChildIndices([f1, f2, f3, f4], f4.id) == []
    ensures LastIndexOf([f1, f2, f3, f4], missing) == -1
  {
    var fs := [f1, f2, f3, f4];
    assert fs[0] == f1 && fs[1] == f2 && fs[2] == f3 && fs[3] == f4;
    ExampleRoots(f1, f2, f3, f4);
    ExampleChildren(f1, f2, f3, f4, f1.id, [1]);
    ExampleChildren(f1, f2, f3, f4, f2.id, [2]);
    ExampleChildren(f1, f2, f3, f4, f3.id, []);
    ExampleChildren(f1, f2, f3, f4, f4.id, []);
  }

  lemma ExampleRoots(f1: Folder, f2: Folder, f3: Folder, f4: Folder)
    requires f1.parentId.None? && f2.parentId.Some? && f3.parentId.Some? && f4.parentId.Some?
    ensures RootIndices([f1, f2, f3, f4]) == [0]
  {
    var s0: seq<Folder> := [];
    var s1 := s0 + [f1];
    var s2 := s1 + [f2];
    var s3 := s2 + [f3];
    assert s3 + [f4] == [f1, f2, f3, f4];
    RootIndicesSnoc(s0, f1);
    RootIndicesSnoc(s1, f2);
    RootIndicesSnoc(s2, f3);
    RootIndicesSnoc(s3, f4);
  }

  lemma ExampleChildren(f1: Folder, f2: Folder, f3: Folder, f4: Folder, id: string, expected: seq<nat>)
    requires expected == (if f2.parentId == Some(id) then [1] else [])
                         + (if f3.parentId == Some(id) then [2] else [])
                         + (if f4.parentId == Some(id) then [3] else [])
    requires f1.parentId != Some(id)
    ensures ChildIndices([f1, f2, f3, f4], id) == expected
  {
    var s0: seq<Folder> := [];
    var s1 := s0 + [f1];
    var s2 := s1 + [f2];
    var s3 := s2 + [f3];
    assert s3 + [f4] == [f1, f2, f3, f4];
    ChildIndicesSnoc(s0, f1, id);
    ChildIndicesSnoc(s1, f2, id);
    ChildIndicesSnoc(s2, f3, id);
    ChildIndicesSnoc(s3, f4, id);
  }

  /**
   * The builder of `getFolderTree`: one wrapper per folder, registered in a
   * map by id, then a second pass that puts every parentless folder's
   * wrapper in `roots` and appends every other wrapper to its parent's
   * children when the parent exists. `nodes[i]` is the wrapper made for
   * `folders[i]`.
   */
  method BuildForest(folders: seq<Folder>) returns (roots: seq<FolderNode>, ghost nodes: seq<FolderNode>)
    ensures |nodes| == |folders|
    ensures forall i :: 0 <= i < |nodes| ==> fresh(nodes[i]) && nodes[i].folder == folders[i]
    ensures forall i, j :: 0 <= i < j < |nodes| ==> nodes[i] != nodes[j]
    ensures roots == WrappersAt(nodes, folders, RootIndices(folders))
    ensures forall i :: 0 <= i < |nodes| ==>
              (nodes[i].children ==
                 if i == LastIndexOf(folders, folders[i].id)
                 then WrappersAt(nodes, folders, ChildIndices(folders, folders[i].id))
                 else [])
  {
    var folderMap;
    folderMap, nodes := MakeWrappers(folders);
    roots := LinkWrappers(folders, folderMap, nodes);
    assert folders[..|folders|] == folders;
  }

  /** The first pass: a fresh childless wrapper per folder, registered by id. */
  method MakeWrappers(folders: seq<Folder>) returns (folderMap: map<string, FolderNode>, ghost nodes: seq<FolderNode>)
    ensures |nodes| == |folders|
    ensures forall i :: 0 <= i < |nodes| ==> fresh(nodes[i])
    ensures forall i :: 0 <= i < |nodes| ==> nodes[i].folder == folders[i] && nodes[i].children == []
    ensures forall i, j :: 0 <= i < j < |nodes| ==> nodes[i] != nodes[j]
    ensures folderMap == Registry(folders, nodes)
  {
    folderMap := map[];
    nodes := [];
    var k := 0;
    while k < |folders|
      invariant k == |nodes| <= |folders|
      invariant forall i :: 0 <= i < k ==> fresh(nodes[i])
      invariant forall i :: 0 <= i < k ==> nodes[i].folder == folders[i] && nodes[i].children == []
      invariant forall i, j :: 0 <= i < j < k ==> nodes[i] != nodes[j]
      invariant folderMap == Registry(folders, nodes)
    {
      var node := new FolderNode(folders[k]);
      folderMap := folderMap[folders[k].id := node];
      assert (nodes + [node])[..k] == nodes;
      nodes := nodes + [node];
      k := k + 1;
    }
  }

  /** The second pass: collect the roots and append each other wrapper to its parent's. */
  method LinkWrappers(folders: seq<Folder>, folderMap: map<string, FolderNode>, ghost nodes: seq<FolderNode>)
    returns (roots: seq<FolderNode>)
    requires |nodes| == |folders|
    requires forall i :: 0 <= i < |nodes| ==> nodes[i].children == []
    requires forall i, j :: 0 <= i < j < |nodes| ==> nodes[i] != nodes[j]
    requires folderMap == Registry(folders, nodes)
    modifies set i | 0 <= i < |nodes| :: nodes[i]
    ensures roots == RootsSoFar(nodes, folders, |folders|)
    ensures forall i :: 0 <= i < |nodes| ==> nodes[i].children == ChildrenSoFar(nodes, folders, |folders|, i)
  {
    var n := |folders|;
    assert folders[..n] == folders;
    roots := [];
    var j := 0;
    assert folders[..0] == [];
    while j < n
      invariant 0 <= j <= n
      invariant roots == RootsSoFar(nodes, folders, j)
      invariant forall i :: 0 <= i < n ==> nodes[i].children == ChildrenSoFar(nodes, folders, j, i)
    {
      roots := LinkOne(folders, folderMap, nodes, j, roots);
      j := j + 1;
    }
  }

  /** One step of the second pass: the j-th folder's wrapper joins the roots or its parent's children. */
  method LinkOne(folders: seq<Folder>, folderMap: map<string, FolderNode>, ghost nodes: seq<FolderNode>,
                 j: nat, roots: seq<FolderNode>)
    returns (roots': seq<FolderNode>)
    requires |nodes| == |folders| && j < |folders|
    requires forall i, k :: 0 <= i < k < |nodes| ==> nodes[i] != nodes[k]
    requires folderMap == Registry(folders, nodes)
    requires roots == RootsSoFar(nodes, folders, j)
    requires forall i :: 0 <= i < |nodes| ==> nodes[i].children == ChildrenSoFar(nodes, folders, j, i)
    modifies set i | 0 <= i < |nodes| :: nodes[i]
    ensures roots' == RootsSoFar(nodes, folders, j + 1)
    ensures forall i :: 0 <= i < |nodes| ==> nodes[i].children == ChildrenSoFar(nodes, folders, j + 1, i)
  {
    var n := |folders|;
    assert folders[..n] == folders;
    var folder := folders[j];
    RegistryLookup(folders, nodes, folder.id);
    var wrapper := folderMap[folder.id];
    RootsStep(nodes, folders, j);
    forall i | 0 <= i < n
      ensures ChildrenSoFar(nodes, folders, j + 1, i) == ChildrenSoFar(nodes, folders, j, i)
                + (if folder.parentId.Some? && i == LastIndexOf(folders, folder.parentId.value)
                   then [wrapper] else [])
    {
      ChildrenStep(nodes, folders, j, i);
    }
    roots' := roots;
    if folder.parentId.None? {
      roots' := roots + [wrapper];
    } else {
      RegistryLookup(folders, nodes, folder.parentId.value);
      if folder.parentId.value in folderMap {
        var parent := folderMap[folder.parentId.value];
        ghost var p := LastIndexOf(folders, folder.parentId.value);
        label Before:
        parent.children := parent.children + [wrapper];
        forall i | 0 <= i < n
          ensures nodes[i].children == ChildrenSoFar(nodes, folders, j + 1, i)
        {
          if i != p {
            assert nodes[i] != parent;
            assert nodes[i].children == old@Before(nodes[i].children);
          }
        }
      }
    }
  }
}
